# PetHome frontend core, modelled in Dafny

PetHome is a veterinary clinic web application. Its React frontend talks to a hosted
backend (Supabase) for identities and for the `users`, `pets` and `appointments`
tables. Each table is a map from id to row, and every dashboard method keeps each row held
under its own `id`, the column the code looks rows up by. This project models the part of the frontend that decides who sees what and what
gets written:

- **Authentication context** (`auth.dfy`, module `Auth`). It holds the three state cells
  `session`, `user` and `loading`, and the events that change them:
  - the start-up session lookup;
  - the session-change notification;
  - the profile resolution from the `users` row, including its fallbacks;
  - `login`, `register` and `logout`.

  It also has the queries `hasRole`, `isAuthenticated`, `isAdmin` and `isClient`. The
  provider is a class whose methods are tied to pure step functions. The step functions are
  folded over event sequences (`Run`) to state what holds after any sequence of events.
- **Route guard** (`guard.dfy`, module `Guard`). This is `ProtectedRoute`'s four-way
  decision: spinner, redirect, access denied, or the content.
- **Route table** (`routes.dfy`, module `Routes`). It covers the five routes and the
  catch-all. It also gives what a visit to a path shows in a given authentication state.
- **Registration page** (`register_page.dfy`, module `RegisterPage`). This is the submit
  handler's password checks and its call into `register`.
- **Admin dashboard** (`admin_dashboard.dfy`, module `AdminDashboard`). It covers:
  - the appointment status lifecycle offered by the status buttons, and how a status is
    displayed;
  - the form defaults and submit checks;
  - the payloads of every create and update call;
  - the dashboard's state cells, with the create/update/delete handlers and the modal
    handlers.
- **JavaScript runtime pieces** (`common.dfy`, module `Common`). These are the pieces the
  code relies on: truthiness defaults (`a || b`), `split('@')[0]`, `trim()` with the
  ECMAScript whitespace set, and `length` counted in UTF-16 code units.

Every answer of the backend is a **parameter** of the operation that receives it. That
includes the session, the profile row, the sign-in, sign-up, insert, update and delete
results, and exceptions. `window.confirm` and the current date are parameters as well.

The registration page checks only that the two passwords match and that the password is at
least 8 UTF-16 code units long (`RegisterPage.jsx`); the model checks exactly that.

## Model

| member | source | states |
|---|---|---|
| Common.OrElse | frontend/pet-home/src/context/AuthContext.jsx:53 | `o \|\| fallback`: the value when it is truthy (present and non-empty), the fallback otherwise |
| Common.Or | frontend/pet-home/src/views/AdminDashboard.jsx:787-795 | `s \|\| fallback` on a present string, as the pet and appointment forms use it for their defaults: a non-empty `s` is kept and an empty one is replaced by the fallback |
| Common.BeforeFirst | frontend/pet-home/src/context/AuthContext.jsx:53 | `split(sep)[0]` is a prefix of `s` without `sep`, ending just before the first `sep` if there is one |
| Common.TrimStart | frontend/pet-home/src/context/AuthContext.jsx:174 | the result is a suffix of `s`; everything dropped is whitespace; it does not start with whitespace |
| Common.TrimEnd | frontend/pet-home/src/context/AuthContext.jsx:174 | the result is a prefix of `s`; everything dropped is whitespace; it does not end with whitespace |
| Common.Trim | frontend/pet-home/src/context/AuthContext.jsx:174 | `trim()` is a contiguous slice of `s` with only whitespace outside it and no whitespace at either end |
| Common.TrimIdempotent | frontend/pet-home/src/context/AuthContext.jsx:174 | trimming a trimmed email changes nothing |
| Common.TrimOfTrimmed | frontend/pet-home/src/context/AuthContext.jsx:174 | an email without surrounding whitespace is sent unchanged |
| Common.Utf16Length | frontend/pet-home/src/views/RegisterPage.jsx:41 | `password.length` counts UTF-16 code units: one for a code point in the Basic Multilingual Plane and two for one above U+FFFF, so it lies between the number of code points and twice that |
| Common.Utf16LengthAppend | frontend/pet-home/src/views/RegisterPage.jsx:41 | the length of a concatenation is the sum of the lengths |
| Common.Utf16LengthAstral | frontend/pet-home/src/views/RegisterPage.jsx:41 | a string made only of code points above U+FFFF has length twice its number of code points |
| Auth.Initial | frontend/pet-home/src/context/AuthContext.jsx:8-10 | the provider starts with no user, no session and `loading` true |
| Auth.SessionUser | frontend/pet-home/src/context/AuthContext.jsx:26 | `session?.user`: present exactly when a session carrying a user is present, and then that user |
| Auth.DisplayName | frontend/pet-home/src/context/AuthContext.jsx:53 | the name is the truthy given name, else the non-empty part of the email before `@`, else "Usuario"; it is never empty |
| Auth.ImmediateProfile | frontend/pet-home/src/context/AuthContext.jsx:51-58 | the profile published as soon as a session arrives: the identity's id and email, the metadata name or its fallback, the metadata phone or "", and always the client role |
| Auth.RoleForId | frontend/pet-home/src/context/AuthContext.jsx:106-112 | the role is admin exactly when `role_id` is 1; 2, any other number and null all mean client |
| Auth.ProfileFromRow | frontend/pet-home/src/context/AuthContext.jsx:115-121 | the profile built from a `users` row keeps its id and email, gets a non-empty display name and a phone defaulting to "", and is admin exactly when `role_id` is 1 |
| Auth.FallbackProfile | frontend/pet-home/src/context/AuthContext.jsx:134-143 | the profile used when no row could be read: the session's id, "Usuario", "usuario@example.com", empty phone, client |
| Auth.ResolveProfile | frontend/pet-home/src/context/AuthContext.jsx:82-160 | `fetchUserProfile` uses the row's profile when a row was read and the fallback on no row, an error or an exception; the result is admin only when a row with `role_id` 1 was read |
| Auth.HasRoleOf | frontend/pet-home/src/context/AuthContext.jsx:265-267 | `hasRole` holds exactly when a user is published with that role name; only "admin" and "client" can ever hold |
| Auth.IsAuthenticatedOf | frontend/pet-home/src/context/AuthContext.jsx:270-280 | authenticated exactly when both a session and a user are present |
| Auth.AfterSessionChange | frontend/pet-home/src/context/AuthContext.jsx:40-73 | the session-change handler stores the session and ends loading; it publishes the immediate profile exactly when the session carries a user, and clears `user` otherwise |
| Auth.AfterProfileFetched | frontend/pet-home/src/context/AuthContext.jsx:82-160 | a settled profile fetch changes only `user`, which is never left empty; the fallback carries the requested id |
| Auth.AfterGetSession | frontend/pet-home/src/context/AuthContext.jsx:14-35 | the start-up lookup always ends loading; an error or exception leaves session and user alone; a session with a user gets that user's resolved profile; the session/profile invariant is kept |
| Auth.AfterCall | frontend/pet-home/src/context/AuthContext.jsx:163-249 | `login` and `register` leave session and user as they were and end with `loading` false |
| Auth.LoginResult | frontend/pet-home/src/context/AuthContext.jsx:180-194 | login succeeds exactly when sign-in succeeds; a backend error is passed through; an exception gives the fixed unexpected-error text |
| Auth.ProfileInsert | frontend/pet-home/src/context/AuthContext.jsx:222-234 | the profile row is inserted exactly when sign-up answered with a user, with that user's id, the form's name, email and phone, and `role_id` 2 |
| Auth.RegisterResult | frontend/pet-home/src/context/AuthContext.jsx:201-249 | register fails exactly on a sign-up error, a sign-up exception, or an insert exception; a sign-up error is passed through and the rest give the fixed text |
| Auth.ProfileRowErrorStillSucceeds | frontend/pet-home/src/context/AuthContext.jsx:236-242 | a refused profile insert still reports a successful registration |
| Auth.RunAppend | frontend/pet-home/src/context/AuthContext.jsx:12-73 | running two event sequences one after the other is running their concatenation |
| Auth.StepKeepsSessionProfile | frontend/pet-home/src/context/AuthContext.jsx:40-73 | every event keeps "a session with a user has a published profile" |
| Auth.RunKeepsSessionProfile | frontend/pet-home/src/context/AuthContext.jsx:12-73 | any sequence of events keeps "a session with a user has a published profile" |
| Auth.LoadingStaysCleared | frontend/pet-home/src/context/AuthContext.jsx:12-73 | once `loading` is false it is false again after every settled event, by induction over `StepKeepsLoadingCleared` (`login` and `register` set it only while their call is in flight, and it is false again when they settle) |
| Auth.StepKeepsLoadingCleared | frontend/pet-home/src/context/AuthContext.jsx:12-73 | no single settled event raises `loading`: the session events and a settled call clear it, and a profile fetch or a logout request keeps it |
| Auth.StartupEndsLoading | frontend/pet-home/src/context/AuthContext.jsx:14-35 | whatever the start-up lookup answers, `loading` is false after it and after every later settled event |
| Auth.SignOutClearsState | frontend/pet-home/src/context/AuthContext.jsx:47-70 | after a sign-out notification there is no session, no user and no loading, whatever happened before |
| Auth.StaleProfileAfterSignOut | frontend/pet-home/src/context/AuthContext.jsx:47-70 | a background profile fetch settling after sign-out publishes a user again, but the state stays unauthenticated |
| Auth.AdminOnlyFromRoleIdOne | frontend/pet-home/src/context/AuthContext.jsx:106-112 | no sequence of events yields an admin profile unless one of them read a row with `role_id` 1 |
| Auth.AuthProvider.constructor | frontend/pet-home/src/context/AuthContext.jsx:7-10 | the provider starts in the initial state, which satisfies the invariant |
| Auth.AuthProvider.GetSession | frontend/pet-home/src/context/AuthContext.jsx:14-35 | the cells become `AfterGetSession` of the old cells, and the invariant is kept |
| Auth.AuthProvider.OnAuthStateChange | frontend/pet-home/src/context/AuthContext.jsx:40-73 | the cells become `AfterSessionChange` of the old cells, and the invariant holds |
| Auth.AuthProvider.FetchUserProfile | frontend/pet-home/src/context/AuthContext.jsx:82-160 | only `user` changes, to the resolved profile |
| Auth.AuthProvider.Login | frontend/pet-home/src/context/AuthContext.jsx:163-198 | sends the trimmed email with the password as given; returns `LoginResult`; only loading changes, and it ends false; the session/profile invariant is kept |
| Auth.AuthProvider.Register | frontend/pet-home/src/context/AuthContext.jsx:201-249 | sends the untrimmed email with name and phone as metadata; inserts `ProfileInsert`; returns `RegisterResult`; only loading changes; the session/profile invariant is kept |
| Auth.AuthProvider.Logout | frontend/pet-home/src/context/AuthContext.jsx:252-262 | asking to sign out changes no cell by itself |
| Auth.AuthProvider.HasRole | frontend/pet-home/src/context/AuthContext.jsx:265-267 | true exactly when the published user has that role name |
| Auth.AuthProvider.IsAuthenticated | frontend/pet-home/src/context/AuthContext.jsx:270-280 | true exactly when both session and user are present |
| Auth.AuthProvider.IsAdmin | frontend/pet-home/src/context/AuthContext.jsx:283-285 | true exactly when the published user is an admin |
| Auth.AuthProvider.IsClient | frontend/pet-home/src/context/AuthContext.jsx:288-290 | true exactly when the published user is a client |
| Guard.RedirectTarget | frontend/pet-home/src/components/ProtectedRoute.jsx:64-68 | the redirect goes to the `redirectTo` prop, or "/login" when it is not given |
| Guard.ProtectedRoute | frontend/pet-home/src/components/ProtectedRoute.jsx:64-88 | each of the four outcomes with the exact condition that produces it: spinner while loading; redirect when loaded and unauthenticated; access denied when a truthy required role is not the user's; the content otherwise |
| Guard.GuardState | frontend/pet-home/src/components/ProtectedRoute.jsx:69-88 | the guard fed from the context cells: the spinner exactly while loading, the redirect exactly when loaded without session or user, and the content only for a loaded, authenticated user holding the required role |
| Guard.ChildrenOnlyWithRole | frontend/pet-home/src/components/ProtectedRoute.jsx:64-88 | content behind a required role is shown only to a loaded, authenticated user holding that role |
| Guard.RedirectIffAnonymous | frontend/pet-home/src/components/ProtectedRoute.jsx:64-79 | the guard redirects to "/login" exactly when the state is loaded and unauthenticated |
| Routes.RouteFor | frontend/pet-home/src/routes.jsx:10-35 | "/", "/login" and "/register" are public; "/dashboard" needs the client role and "/admin" the admin role; every other path redirects to "/" |
| Routes.Visit | frontend/pet-home/src/routes.jsx:10-35 | a visit to a public path shows its page; an unknown path redirects to "/"; a dashboard shows the spinner exactly while loading, redirects to "/login" when loaded and anonymous, and is shown only to a loaded, authenticated user |
| Routes.PublicPagesUnguarded | frontend/pet-home/src/routes.jsx:13-15 | the three public pages are shown in every state |
| Routes.UnknownPathsGoHome | frontend/pet-home/src/routes.jsx:32 | any unknown path redirects to "/" |
| Routes.DashboardsNeedTheirRole | frontend/pet-home/src/routes.jsx:16-31 | each dashboard is shown only to a loaded, authenticated user with its role |
| Routes.NothingProtectedWhileLoading | frontend/pet-home/src/routes.jsx:16-31 | neither dashboard is shown while loading |
| Routes.AnonymousStartup | frontend/pet-home/src/routes.jsx:16-31 | with no session at start-up, both dashboards redirect to "/login" |
| Routes.AdminDeniedClientDashboard | frontend/pet-home/src/routes.jsx:16-31 | a signed-in user whose row has `role_id` 1 is denied the client dashboard and shown the admin one |
| Routes.ClientLoginDeniedAdmin | frontend/pet-home/src/routes.jsx:24-31 | right after login (the session notification, then `login`'s `finally`), before the profile row is read, every user is a client and is denied the admin dashboard |
| Routes.SignedOutRedirected | frontend/pet-home/src/routes.jsx:16-31 | after a sign-out both dashboards redirect to "/login" |
| RegisterPage.PasswordError | frontend/pet-home/src/views/RegisterPage.jsx:36-44 | a mismatch error exactly when the passwords differ; a length error exactly when they match but have fewer than 8 UTF-16 units; no error otherwise |
| RegisterPage.MismatchCheckedFirst | frontend/pet-home/src/views/RegisterPage.jsx:36-44 | a short, mismatched pair gets the mismatch error |
| RegisterPage.LengthBounds | frontend/pet-home/src/views/RegisterPage.jsx:41-44 | any matching pair of at least 8 code points passes; fewer than 4 never does |
| RegisterPage.FourEmojiPass | frontend/pet-home/src/views/RegisterPage.jsx:41-44 | four emoji above U+FFFF make a password of length 8, which passes although it has only four code points |
| RegisterPage.RegisterPageState.constructor | frontend/pet-home/src/views/RegisterPage.jsx:19-28 | the page starts with an empty form, no error and no loading |
| RegisterPage.RegisterPageState.HandleSubmit | frontend/pet-home/src/views/RegisterPage.jsx:31-62 | a validation error is shown and `register` is not called; otherwise `register` is called once with the form, the error is cleared, loading ends false, and the page goes to "/dashboard" exactly when `register` succeeded |
| AdminDashboard.StatusText | frontend/pet-home/src/views/AdminDashboard.jsx:1198-1206 | "pending" is labelled "Pendiente", "confirmed" "Confirmada", "cancelled" "Cancelada" and "completed" "Completada"; any other status gets "Pendiente" |
| AdminDashboard.StatusColor | frontend/pet-home/src/views/AdminDashboard.jsx:1188-1196 | "pending" gets the class "status-pending", "confirmed" "status-confirmed", "cancelled" "status-cancelled" and "completed" "status-completed"; any other status gets "status-pending" |
| AdminDashboard.StatusPresentation | frontend/pet-home/src/views/AdminDashboard.jsx:1188-1206 | the four statuses get four different labels and four different classes; an unknown status looks pending |
| AdminDashboard.StatusActions | frontend/pet-home/src/views/AdminDashboard.jsx:1274-1298 | pending offers confirm and cancel; confirmed offers complete; every other status offers nothing |
| AdminDashboard.ActionsMoveForward | frontend/pet-home/src/views/AdminDashboard.jsx:1274-1298 | every offered transition leads to a known status further along, never back to pending |
| AdminDashboard.PressChainsAreShort | frontend/pet-home/src/views/AdminDashboard.jsx:1274-1298 | the status buttons change an appointment at most twice and never back to pending |
| AdminDashboard.UnknownStatusLooksPendingButIsStuck | frontend/pet-home/src/views/AdminDashboard.jsx:1188-1298 | an unknown status is labelled as pending but gets none of pending's buttons |
| AdminDashboard.SlotsAreOrderedHalfHours | frontend/pet-home/src/views/AdminDashboard.jsx:820-823 | the sixteen listed slots are zero-padded `HH:MM` times (hours 00-23, minutes 00-59) on the half hour, from 08:00 to 11:30 and from 14:00 to 17:30, in strictly increasing order, each the one clock time of its minute |
| AdminDashboard.ClockTime | frontend/pet-home/src/views/AdminDashboard.jsx:820-823 | the zero-padded `HH:MM` string of a minute of the day, which reads back as that minute |
| AdminDashboard.ClockTimeUnique | frontend/pet-home/src/views/AdminDashboard.jsx:820-823 | every zero-padded `HH:MM` time is the one `ClockTime` writes for its minute, so a minute has exactly one such string |
| AdminDashboard.SlotIsClockTime | frontend/pet-home/src/views/AdminDashboard.jsx:820-823 | each listed slot is a clock time for its slot minute: eight half hours from 08:00, then eight from 14:00 |
| AdminDashboard.TimeSlots | frontend/pet-home/src/views/AdminDashboard.jsx:820-823 | the sixteen slots exactly as the form lists them, each five characters with a colon in the middle |
| AdminDashboard.UserFormFor | frontend/pet-home/src/views/AdminDashboard.jsx:510-517 | the user form starts with the edited user's fields, or blank with role 2 for a new user; a falsy role (0 in the model, which has no null `role_id`) becomes 2; the password always starts empty |
| AdminDashboard.PetFormFor | frontend/pet-home/src/views/AdminDashboard.jsx:625-635 | the pet form starts with every field of the edited pet (a missing gender becomes "Macho"), or blank with gender "Macho"; the gender is never empty |
| AdminDashboard.AppointmentFormFor | frontend/pet-home/src/views/AdminDashboard.jsx:786-795 | the appointment form starts with the edited appointment's fields, or with today, "Consulta General" and pending; a missing date, service or status falls back to today, "Consulta General" or pending; status and service are never empty |
| AdminDashboard.PickPet | frontend/pet-home/src/views/AdminDashboard.jsx:810-818 | picking a pet sets it and copies the owner of the loaded pet whose `id` is the picked one, or "" when no loaded pet has that id; the other fields are kept; the pets must be held under their own ids |
| AdminDashboard.UserFormAccepts | frontend/pet-home/src/views/AdminDashboard.jsx:519-526 | the user form refuses a submit exactly for a new user without a password |
| AdminDashboard.NewUser | frontend/pet-home/src/views/AdminDashboard.jsx:180-188 | the inserted user row has the identity's id and the form's name, email, phone and role |
| AdminDashboard.ApplyUserPatch | frontend/pet-home/src/views/AdminDashboard.jsx:213-217 | a user update changes name, phone and role, never the id or the email |
| AdminDashboard.UserPatchOf | frontend/pet-home/src/views/AdminDashboard.jsx:213-217 | the update payload carries the form's name, phone and role unchanged (the code applies no conversion) and no email |
| AdminDashboard.NewPet | frontend/pet-home/src/views/AdminDashboard.jsx:270-281 | the inserted pet row carries every form field, owner included |
| AdminDashboard.ApplyPetPatch | frontend/pet-home/src/views/AdminDashboard.jsx:304-315 | a pet update changes every field except the id and the owner |
| AdminDashboard.PetPatchOf | frontend/pet-home/src/views/AdminDashboard.jsx:306-314 | the update payload carries every pet field of the form unchanged (the code applies no numeric conversion to age or weight) except the owner |
| AdminDashboard.NewAppointment | frontend/pet-home/src/views/AdminDashboard.jsx:366-376 | a new appointment carries the form's fields and is always pending, whatever the form's status |
| AdminDashboard.ApplyAppointmentPatch | frontend/pet-home/src/views/AdminDashboard.jsx:399-408 | an appointment update changes date, time, service, notes and status, never the id, the pet or the owner |
| AdminDashboard.AppointmentPatchOf | frontend/pet-home/src/views/AdminDashboard.jsx:401-407 | the update payload carries the form's date, time, service, notes and status unchanged, and not its pet or owner |
| AdminDashboard.EditKeepsPetAndOwner | frontend/pet-home/src/views/AdminDashboard.jsx:399-408 | a pet picked in the edit form is not saved: the update keeps the appointment's pet and owner |
| AdminDashboard.PatchUsers | frontend/pet-home/src/views/AdminDashboard.jsx:211-218 | `.update(...).eq('id', target)` changes only the target row, and only when it exists; the set of ids is kept, and so is every row being held under its own id |
| AdminDashboard.PatchPets | frontend/pet-home/src/views/AdminDashboard.jsx:304-315 | the same for pets |
| AdminDashboard.PatchAppointments | frontend/pet-home/src/views/AdminDashboard.jsx:399-408 | the same for appointments |
| AdminDashboard.SetStatus | frontend/pet-home/src/views/AdminDashboard.jsx:458-461 | a status update changes only that appointment's status; the set of ids is kept, and so is every row being held under its own id |
| AdminDashboard.StatusButtonMovesForward | frontend/pet-home/src/views/AdminDashboard.jsx:1274-1298 | pressing an offered button moves that appointment forward and leaves the others alone |
| AdminDashboard.FormDataId | frontend/pet-home/src/views/AdminDashboard.jsx:213-218 | the id the update handlers filter on, as written, is undefined |
| AdminDashboard.AppointmentEditLostAsWritten | frontend/pet-home/src/views/AdminDashboard.jsx:395-408 | as written, saving an edited appointment changes no row, while filtering on the edited id would have changed it |
| AdminDashboard.PetEditLostAsWritten | frontend/pet-home/src/views/AdminDashboard.jsx:300-315 | as written, saving an edited pet changes no row |
| AdminDashboard.UserEditLostAsWritten | frontend/pet-home/src/views/AdminDashboard.jsx:207-218 | as written, saving an edited user changes no row |
| AdminDashboard.AppointmentEditCounterexample | frontend/pet-home/src/views/AdminDashboard.jsx:395-408 | a concrete appointment whose new notes are lost as written and kept when filtering on its id |
| AdminDashboard.CountOrZero | frontend/pet-home/src/views/AdminDashboard.jsx:83-88 | `count \|\| 0`: the count when present, 0 otherwise |
| AdminDashboard.StatsOf | frontend/pet-home/src/views/AdminDashboard.jsx:60-92 | each published statistic is its query's count, or 0 when that query returned none |
| AdminDashboard.Dashboard.constructor | frontend/pet-home/src/views/AdminDashboard.jsx:16-47 | the dashboard starts with empty tables, zero statistics, no message and every modal closed, and every table holds each row under its own id |
| AdminDashboard.Dashboard.LoadStats | frontend/pet-home/src/views/AdminDashboard.jsx:60-92 | the statistics become `StatsOf` the counts; an exception leaves them as they were |
| AdminDashboard.Dashboard.LoadUsers | frontend/pet-home/src/views/AdminDashboard.jsx:95-111 | rows arrive held under their own ids; the users become the returned rows, or none when the data is missing; an error or exception leaves them; every table stays keyed by id |
| AdminDashboard.Dashboard.LoadPets | frontend/pet-home/src/views/AdminDashboard.jsx:114-133 | the same for pets |
| AdminDashboard.Dashboard.LoadAppointments | frontend/pet-home/src/views/AdminDashboard.jsx:136-157 | the same for appointments |
| AdminDashboard.Dashboard.CreateUser | frontend/pet-home/src/views/AdminDashboard.jsx:160-205 | on success the new row is added, the success message is shown and the modal closes; an identity or insert failure shows the error and changes neither the table nor the modal; loading ends false |
| AdminDashboard.Dashboard.UpdateUser | frontend/pet-home/src/views/AdminDashboard.jsx:207-235 | on success the target row is patched and the modal closes; on failure the error is shown and nothing else changes |
| AdminDashboard.Dashboard.DeleteUser | frontend/pet-home/src/views/AdminDashboard.jsx:237-263 | nothing happens without confirmation; otherwise, on success, the row is removed and no remaining user has that id, and on failure the error is shown; every table stays keyed by id |
| AdminDashboard.Dashboard.SubmitUserForm | frontend/pet-home/src/views/AdminDashboard.jsx:519-526 | the corrected handler (the update filters on the edited user's id; as written it filters on the form's missing `id`, see `UserEditLostAsWritten`): the password check; when editing, a successful write patches the edited user's row, shows the success message and closes the modal, and a failed one leaves the table and the modal and shows the update error; when creating, success adds the row and closes the modal, and an identity or insert failure leaves the table and the modal and shows the create error; loading ends false whenever the form was submitted |
| AdminDashboard.Dashboard.CreatePet | frontend/pet-home/src/views/AdminDashboard.jsx:266-298 | on success the pet is added and the modal closes; on failure the error is shown and nothing else changes |
| AdminDashboard.Dashboard.UpdatePet | frontend/pet-home/src/views/AdminDashboard.jsx:300-332 | on success the target row is patched and the modal closes; on failure the error is shown |
| AdminDashboard.Dashboard.DeletePet | frontend/pet-home/src/views/AdminDashboard.jsx:334-359 | nothing happens without confirmation; otherwise, on success, the row is removed and no remaining pet has that id; every table stays keyed by id |
| AdminDashboard.Dashboard.SubmitPetForm | frontend/pet-home/src/views/AdminDashboard.jsx:1418 | the corrected handler (the update filters on the edited pet's id; as written it filters on the form's missing `id`, see `PetEditLostAsWritten`): when editing, success patches the edited pet's row, and when creating it adds the pet, each with its success message and the modal closed; a failure leaves the table and the modal and shows the update or create error; loading ends false |
| AdminDashboard.Dashboard.CreateAppointment | frontend/pet-home/src/views/AdminDashboard.jsx:362-393 | on success the pending appointment is added and the form closes; on failure the error is shown |
| AdminDashboard.Dashboard.UpdateAppointment | frontend/pet-home/src/views/AdminDashboard.jsx:395-425 | on success the target row is patched and the form closes; on failure the error is shown |
| AdminDashboard.Dashboard.DeleteAppointment | frontend/pet-home/src/views/AdminDashboard.jsx:427-452 | nothing happens without confirmation; otherwise, on success, the row is removed and no remaining appointment has that id; every table stays keyed by id |
| AdminDashboard.Dashboard.UpdateAppointmentStatus | frontend/pet-home/src/views/AdminDashboard.jsx:454-475 | on success only that appointment's status changes and the message names the new status; on failure the error is shown |
| AdminDashboard.Dashboard.SubmitAppointmentForm | frontend/pet-home/src/views/AdminDashboard.jsx:1441 | the corrected handler (the update filters on the edited appointment's id; as written it filters on the form's missing `id`, see `AppointmentEditLostAsWritten`): when editing, success patches the edited appointment's row, and when creating it adds a pending appointment, each with its success message and the form closed; a failure leaves the table and the form and shows the update or create error; loading ends false |
| AdminDashboard.Dashboard.NewAppointmentForm | frontend/pet-home/src/views/AdminDashboard.jsx:1221-1227 | the appointment form opens in create mode |
| AdminDashboard.Dashboard.EditAppointment | frontend/pet-home/src/views/AdminDashboard.jsx:1265-1269 | the appointment form opens in edit mode on that appointment |
| AdminDashboard.Dashboard.CloseAppointmentForm | frontend/pet-home/src/views/AdminDashboard.jsx:1431-1435 | the appointment form closes and leaves edit mode |
| AdminDashboard.Dashboard.OpenUserModal | frontend/pet-home/src/views/AdminDashboard.jsx:1081 | the user modal opens; the editing cells are kept |
| AdminDashboard.Dashboard.EditUser | frontend/pet-home/src/views/AdminDashboard.jsx:1113-1116 | the user modal opens in edit mode on that user |
| AdminDashboard.Dashboard.CloseUserModal | frontend/pet-home/src/views/AdminDashboard.jsx:1386-1390 | the user modal closes and leaves edit mode |
| AdminDashboard.Dashboard.OpenPetModal | frontend/pet-home/src/views/AdminDashboard.jsx:1139 | the pet modal opens; the editing cells are kept |
| AdminDashboard.Dashboard.EditPet | frontend/pet-home/src/views/AdminDashboard.jsx:1165-1168 | the pet modal opens in edit mode on that pet |
| AdminDashboard.Dashboard.ClosePetModal | frontend/pet-home/src/views/AdminDashboard.jsx:1408-1412 | the pet modal closes and leaves edit mode |

## Left out

- Backend I/O: every Supabase call is its answer, passed in as a parameter. The queries, the network, sessions stored in the browser and the row-level security of the tables are not modelled.
- Asynchrony: each handler runs to completion. The background profile fetch after a session change is a separate event (`ProfileFetched`) with no fixed order against other events. Other interleavings of the `await` points are not modelled.
- Auth.AuthProvider.Logout: the sign-out answer is only logged by the code, so the method takes it and ignores it; the cells change through the notification that follows (`SessionChanged(None)`).
- `checkUserInAuth` and `testSupabaseConnection` of the authentication context: diagnostic helpers outside the decision logic.
- `supabase.js`, `App.jsx`, `LandingPage.jsx`, `LoginPage.jsx` and `ClientDashboard.jsx` are not part of this model.
- Rendering: JSX markup, styles, icons, `alert`, and the 5-second `setTimeout` that clears the banner message are not modelled.
- Routes.RouteFor: paths are matched exactly. The router's case-insensitive matching and trailing-slash handling are not modelled.
- Tables are maps from id to record. The order the list queries return (by creation date, by date and time) is not kept, and neither are the joined owner/pet names.
- AdminDashboard.Dashboard.CreateUser: after a successful write the table shows the written row, as the reload that follows would. A reload that itself fails is not modelled.
- AdminDashboard.Dashboard.CreatePet: the new pet's id, which the database assigns, is a parameter (`newId`). The same holds for CreateAppointment.
- Dashboard records: a `null` text column and an empty one are both "". `age` and `weight` are kept as the strings the form holds, so the falsy number 0 is not modelled.
- `role_id` from the user form's select is taken as a number. The string coming from the HTML select is not modelled.
- AdminDashboard.PickPet: pet ids are compared as strings. A numeric database id would never equal the select's string value under `===`; that is not modelled.
- The generic `handleChange` field setters of the forms are not modelled: any field can take any value.
- HTML form validation (`required`, `minLength`, `type="email"`) is not modelled.
- The `data` payload that `login` and `register` return with a success is not modelled.
- The edit form's status select can set any of the four statuses directly, bypassing the button lifecycle. `PressChainsAreShort` is about the buttons only.
- The activity list, the stats modal and the calendar selection cells of the dashboard are display-only and not modelled.
- The user rows `createUser` and `register` insert are not enforced unique by the model; a repeated id overwrites the map entry.

## Findings

| source | as written | input that shows it | evidently intended | confidence | as-written member | corrected member |
|---|---|---|---|---|---|---|
| frontend/pet-home/src/views/AdminDashboard.jsx:395-408 | `updateAppointment(formData)` filters on `appointmentData.id`, but the appointment form's data has no `id`, so the update names no row | edit appointment "a1" and change its notes to "vacuna": the request filters on `id` undefined, so no row changes; which banner appears depends on the server's answer to that filter | filter on the id of the appointment being edited (`editingAppointment.id`) | not executed | AdminDashboard.AppointmentEditLostAsWritten | AdminDashboard.Dashboard.SubmitAppointmentForm |
| frontend/pet-home/src/views/AdminDashboard.jsx:300-315 | `updatePet(formData)` filters on `petData.id`, which the pet form's data does not have | edit any pet and change its name: no row changes | filter on `editingPet.id` | not executed | AdminDashboard.PetEditLostAsWritten | AdminDashboard.Dashboard.SubmitPetForm |
| frontend/pet-home/src/views/AdminDashboard.jsx:207-218 | `updateUser(formData)` filters on `userData.id`, which the user form's data does not have | edit any user and change the phone: no row changes | filter on `editingUser.id` | not executed | AdminDashboard.UserEditLostAsWritten | AdminDashboard.Dashboard.SubmitUserForm |
