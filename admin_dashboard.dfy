/** The admin dashboard: the appointment status rules and their presentation, the form
    defaults and submit checks, the payloads of the create/update calls, and the dashboard's
    state cells with the handlers that change them. The `users`, `pets` and `appointments`
    tables are maps from id to record; a successful write is applied to the table the way the
    reload that follows it would show it. */
module AdminDashboard {
  import opened Common

  type Id = string

  // ---------------------------------------------------------------------------
  // Appointment status.

  const Pending := "pending"
  const Confirmed := "confirmed"
  const Cancelled := "cancelled"
  const Completed := "completed"
  const KnownStatuses: set<string> := {Pending, Confirmed, Cancelled, Completed}

  /** `getStatusText`: the label shown for a status, the pending label for anything unknown. */
  function StatusText(status: string): (r: string)
    ensures r in {"Pendiente", "Confirmada", "Cancelada", "Completada"}
    ensures status == Pending || status !in KnownStatuses ==> r == "Pendiente"
    ensures status == Confirmed ==> r == "Confirmada"
    ensures status == Cancelled ==> r == "Cancelada"
    ensures status == Completed ==> r == "Completada"
  {
    match status
    case "pending" => "Pendiente"
    case "confirmed" => "Confirmada"
    case "cancelled" => "Cancelada"
    case "completed" => "Completada"
    case _ => "Pendiente"
  }

  /** `getStatusColor`: the style class of a status, the pending class for anything unknown. */
  function StatusColor(status: string): (r: string)
    ensures r in {"status-pending", "status-confirmed", "status-cancelled", "status-completed"}
    ensures status == Pending || status !in KnownStatuses ==> r == "status-pending"
    ensures status == Confirmed ==> r == "status-confirmed"
    ensures status == Cancelled ==> r == "status-cancelled"
    ensures status == Completed ==> r == "status-completed"
  {
    match status
    case "pending" => "status-pending"
    case "confirmed" => "status-confirmed"
    case "cancelled" => "status-cancelled"
    case "completed" => "status-completed"
    case _ => "status-pending"
  }

  /** The four statuses get four different labels and classes; any other status looks pending. */
  lemma StatusPresentation(s: string, t: string)
    ensures s in KnownStatuses && t in KnownStatuses && StatusText(s) == StatusText(t) ==> s == t
    ensures s in KnownStatuses && t in KnownStatuses && StatusColor(s) == StatusColor(t) ==> s == t
    ensures s !in KnownStatuses ==> StatusText(s) == StatusText(Pending) && StatusColor(s) == StatusColor(Pending)
  {
  }

  /** The status buttons shown for an appointment, in display order. */
  function StatusActions(status: string): (r: seq<string>)
    ensures status == Pending ==> r == [Confirmed, Cancelled]
    ensures status == Confirmed ==> r == [Completed]
    ensures status != Pending && status != Confirmed ==> r == []
  {
    if status == Pending then [Confirmed, Cancelled]
    else if status == Confirmed then [Completed]
    else []
  }

  /** How far along its life an appointment is; cancelled, completed and unknown statuses are final. */
  function Stage(status: string): nat {
    if status == Pending then 0 else if status == Confirmed then 1 else 2
  }

  /** Every offered transition leads to a known status further along, never back to pending. */
  lemma ActionsMoveForward(status: string, next: string)
    requires next in StatusActions(status)
    ensures next in KnownStatuses && next != Pending && Stage(next) > Stage(status)
  {
  }

  /** `presses` is a sequence of status buttons, each offered by the status the previous one set. */
  predicate PressChain(status: string, presses: seq<string>)
    decreases |presses|
  {
    presses == [] || (presses[0] in StatusActions(status) && PressChain(presses[0], presses[1..]))
  }

  /** The buttons move an appointment at most twice, and never back to pending. */
  lemma {:induction false} PressChainsAreShort(status: string, presses: seq<string>)
    requires PressChain(status, presses)
    ensures |presses| <= 2 - Stage(status)
    ensures presses != [] ==> presses[|presses| - 1] != Pending
    decreases |presses|
  {
    if presses != [] {
      ActionsMoveForward(status, presses[0]);
      PressChainsAreShort(presses[0], presses[1..]);
      if |presses| > 1 {
        assert presses[|presses| - 1] == presses[1..][|presses[1..]| - 1];
      }
    }
  }

  /** A status the edit form does not know is shown as pending but offers no transitions at all. */
  lemma UnknownStatusLooksPendingButIsStuck(status: string)
    requires status !in KnownStatuses
    ensures StatusText(status) == StatusText(Pending) && StatusActions(status) == [] && StatusActions(Pending) != []
  {
  }

  predicate IsDigit(c: char) { '0' <= c <= '9' }

  function DigitValue(c: char): int { c as int - '0' as int }

  function DigitChar(d: int): (c: char)
    requires 0 <= d <= 9
    ensures IsDigit(c) && DigitValue(c) == d
  {
    ('0' as int + d) as char
  }

  /** A zero-padded "HH:MM" clock time: hours 00 to 23, minutes 00 to 59. */
  predicate IsClockTime(t: string) {
    |t| == 5 && IsDigit(t[0]) && IsDigit(t[1]) && t[2] == ':' && IsDigit(t[3]) && IsDigit(t[4])
    && (t[0] < '2' || (t[0] == '2' && t[1] <= '3')) && t[3] <= '5'
  }

  /** The minutes since midnight a clock time stands for. */
  function MinuteOfDay(t: string): int
    requires IsClockTime(t)
  {
    60 * (10 * DigitValue(t[0]) + DigitValue(t[1])) + 10 * DigitValue(t[3]) + DigitValue(t[4])
  }

  /** The zero-padded clock time of a minute of the day; reading it back gives that minute. */
  function ClockTime(m: int): (t: string)
    requires 0 <= m < 24 * 60
    ensures IsClockTime(t) && MinuteOfDay(t) == m
  {
    var h, mm := m / 60, m % 60;
    assert 10 * (h / 10) + h % 10 == h && 10 * (mm / 10) + mm % 10 == mm;
    [DigitChar(h / 10), DigitChar(h % 10), ':', DigitChar(mm / 10), DigitChar(mm % 10)]
  }

  /** Every clock time is the one `ClockTime` writes for its minute, so there is exactly one
      string per minute of the day. */
  lemma ClockTimeUnique(t: string)
    requires IsClockTime(t)
    ensures 0 <= MinuteOfDay(t) < 24 * 60
    ensures ClockTime(MinuteOfDay(t)) == t
  {
    var h := 10 * DigitValue(t[0]) + DigitValue(t[1]);
    var mm := 10 * DigitValue(t[3]) + DigitValue(t[4]);
    var m := MinuteOfDay(t);
    assert 0 <= mm < 60 && 0 <= h < 24 && m == 60 * h + mm;
    assert m / 60 == h && m % 60 == mm;
    assert h / 10 == DigitValue(t[0]) && h % 10 == DigitValue(t[1]);
    assert mm / 10 == DigitValue(t[3]) && mm % 10 == DigitValue(t[4]);
    var u := ClockTime(m);
    assert u[0] == t[0] && u[1] == t[1] && u[2] == t[2] && u[3] == t[3] && u[4] == t[4];
  }

  /** The minute of the day of the `i`-th slot: eight half hours from 08:00, then eight from 14:00. */
  function SlotMinute(i: int): (m: int)
    requires 0 <= i < 16
    ensures m % 30 == 0
    ensures (8 * 60 <= m < 12 * 60) || (14 * 60 <= m < 18 * 60)
  {
    if i < 8 then 8 * 60 + 30 * i else 14 * 60 + 30 * (i - 8)
  }

  /** The slots of the appointment form's time select, as the form lists them. */
  function TimeSlots(): (r: seq<string>)
    ensures |r| == 16
    ensures forall i :: 0 <= i < |r| ==> |r[i]| == 5 && r[i][2] == ':'
  {
    ["08:00", "08:30", "09:00", "09:30", "10:00", "10:30", "11:00", "11:30",
     "14:00", "14:30", "15:00", "15:30", "16:00", "16:30", "17:00", "17:30"]
  }

  /** The `i`-th listed slot is a clock time and stands for the `i`-th slot minute. */
  lemma SlotIsClockTime(i: int)
    requires 0 <= i < 16
    ensures |TimeSlots()| == 16
    ensures IsClockTime(TimeSlots()[i]) && MinuteOfDay(TimeSlots()[i]) == SlotMinute(i)
  {
  }

  /** The slots are zero-padded half hours from 08:00 to 11:30 and from 14:00 to 17:30, in
      strictly increasing order, and each is the one clock time of its minute. */
  lemma SlotsAreOrderedHalfHours()
    ensures |TimeSlots()| == 16
    ensures forall i :: 0 <= i < |TimeSlots()| ==> IsClockTime(TimeSlots()[i])
    ensures forall i :: 0 <= i < |TimeSlots()| ==> MinuteOfDay(TimeSlots()[i]) % 30 == 0
    ensures forall i :: 0 <= i < |TimeSlots()| ==>
      var m := MinuteOfDay(TimeSlots()[i]); (8 * 60 <= m < 12 * 60) || (14 * 60 <= m < 18 * 60)
    ensures forall i, j :: 0 <= i < j < |TimeSlots()| ==> MinuteOfDay(TimeSlots()[i]) < MinuteOfDay(TimeSlots()[j])
    ensures forall i :: 0 <= i < |TimeSlots()| ==> TimeSlots()[i] == ClockTime(SlotMinute(i))
  {
    var r := TimeSlots();
    forall i | 0 <= i < |r|
      ensures IsClockTime(r[i]) && MinuteOfDay(r[i]) == SlotMinute(i)
      ensures r[i] == ClockTime(SlotMinute(i))
    {
      SlotIsClockTime(i);
      ClockTimeUnique(r[i]);
    }
  }

  // ---------------------------------------------------------------------------
  // Records, forms and payloads. A missing text column reads as "".

  datatype UserRecord = UserRecord(id: Id, name: string, email: string, phone: string, roleId: int)
  datatype Pet = Pet(id: Id, name: string, species: string, breed: string, age: string, gender: string,
                     weight: string, ownerId: Id, medicalNotes: string)
  datatype Appointment = Appointment(id: Id, date: string, time: string, petId: Id, ownerId: Id,
                                     serviceType: string, notes: string, status: string)

  /** The form records: they hold the editable fields only, never the record's `id`. */
  datatype UserForm = UserForm(name: string, email: string, phone: string, roleId: int, password: string)
  datatype PetForm = PetForm(name: string, species: string, breed: string, age: string, gender: string,
                             weight: string, ownerId: Id, medicalNotes: string)
  datatype AppointmentForm = AppointmentForm(date: string, time: string, petId: Id, ownerId: Id,
                                             serviceType: string, notes: string, status: string)

  /** The update payloads: the columns each update call sends. */
  datatype UserPatch = UserPatch(name: string, phone: string, roleId: int)
  datatype PetPatch = PetPatch(name: string, species: string, breed: string, age: string, gender: string,
                               weight: string, medicalNotes: string)
  datatype AppointmentPatch = AppointmentPatch(date: string, time: string, serviceType: string, notes: string, status: string)

  /** A table holds each row under its own `id`, the column every lookup and `.eq('id', …)` matches. */
  predicate UsersKeyed(t: map<Id, UserRecord>) { forall k :: k in t ==> t[k].id == k }
  predicate PetsKeyed(t: map<Id, Pet>) { forall k :: k in t ==> t[k].id == k }
  predicate AppointmentsKeyed(t: map<Id, Appointment>) { forall k :: k in t ==> t[k].id == k }

  const ClientRoleId := 2
  const DefaultGender := "Macho"
  const DefaultService := "Consulta General"

  /** `UserForm`'s initial data: the edited user's fields, a new user gets role 2 and no password. */
  function UserFormFor(u: Option<UserRecord>): (f: UserForm)
    ensures f.password == ""
    ensures u.None? ==> f == UserForm("", "", "", ClientRoleId, "")
    ensures u.Some? ==> f.name == u.value.name && f.email == u.value.email && f.phone == u.value.phone
    ensures u.Some? ==> f.roleId == (if u.value.roleId != 0 then u.value.roleId else ClientRoleId)
  {
    match u
    case None => UserForm("", "", "", ClientRoleId, "")
    case Some(r) => UserForm(r.name, r.email, r.phone, if r.roleId != 0 then r.roleId else ClientRoleId, "")
  }

  /** `PetForm`'s initial data: the edited pet's fields; the gender defaults to "Macho". */
  function PetFormFor(p: Option<Pet>): (f: PetForm)
    ensures p.None? ==> f == PetForm("", "", "", "", DefaultGender, "", "", "")
    ensures p.Some? ==> f.ownerId == p.value.ownerId && f.name == p.value.name && f.species == p.value.species
    ensures p.Some? ==> f.breed == p.value.breed && f.age == p.value.age && f.weight == p.value.weight
    ensures p.Some? ==> f.medicalNotes == p.value.medicalNotes
    ensures p.Some? && p.value.gender != "" ==> f.gender == p.value.gender
    ensures p.Some? && p.value.gender == "" ==> f.gender == DefaultGender
    ensures f.gender != ""
  {
    match p
    case None => PetForm("", "", "", "", DefaultGender, "", "", "")
    case Some(q) => PetForm(q.name, q.species, q.breed, q.age, Or(q.gender, DefaultGender), q.weight, q.ownerId, q.medicalNotes)
  }

  /** `AppointmentForm`'s initial data: the edited appointment's fields; a new one starts on
      `today`, as a general consultation, pending. */
  function AppointmentFormFor(a: Option<Appointment>, today: string): (f: AppointmentForm)
    ensures a.None? ==> f == AppointmentForm(today, "", "", "", DefaultService, "", Pending)
    ensures a.Some? ==> f.petId == a.value.petId && f.ownerId == a.value.ownerId && f.notes == a.value.notes
    ensures a.Some? ==> f.time == a.value.time
    ensures a.Some? && a.value.date != "" ==> f.date == a.value.date
    ensures a.Some? && a.value.serviceType != "" ==> f.serviceType == a.value.serviceType
    ensures a.Some? && a.value.status != "" ==> f.status == a.value.status
    ensures a.Some? && a.value.date == "" ==> f.date == today
    ensures a.Some? && a.value.serviceType == "" ==> f.serviceType == DefaultService
    ensures a.Some? && a.value.status == "" ==> f.status == Pending
    ensures f.date == "" ==> today == ""
    ensures f.status != "" && f.serviceType != ""
  {
    match a
    case None => AppointmentForm(today, "", "", "", DefaultService, "", Pending)
    case Some(b) =>
      AppointmentForm(Or(b.date, today), b.time, b.petId, b.ownerId, Or(b.serviceType, DefaultService), b.notes, Or(b.status, Pending))
  }

  /** `handlePetChange`: picking a pet sets the pet and copies the owner of the loaded pet whose
      `id` is `petId` (`pets.find(pet => pet.id === petId)`), or "" when there is none; every
      other field is kept. */
  function PickPet(form: AppointmentForm, pets: map<Id, Pet>, petId: Id): (f: AppointmentForm)
    requires PetsKeyed(pets)
    ensures f.petId == petId
    ensures forall q :: q in pets.Values && q.id == petId ==> f.ownerId == q.ownerId
    ensures (forall q :: q in pets.Values ==> q.id != petId) ==> f.ownerId == ""
    ensures f.date == form.date && f.time == form.time && f.serviceType == form.serviceType
    ensures f.notes == form.notes && f.status == form.status
  {
    var owner := if petId in pets then Or(pets[petId].ownerId, "") else "";
    form.(petId := petId, ownerId := owner)
  }

  /** `UserForm.handleSubmit`: a new user without a password is refused before `onSubmit`; editing skips the check. */
  function UserFormAccepts(isEditing: bool, form: UserForm): (b: bool)
    ensures !b <==> !isEditing && form.password == ""
    ensures isEditing ==> b
  {
    !(!isEditing && form.password == "")
  }

  /** The row `createUser` inserts, with the id the auth service gave the new identity. */
  function NewUser(id: Id, form: UserForm): (u: UserRecord)
    ensures u.id == id && u.email == form.email && u.roleId == form.roleId
    ensures u.name == form.name && u.phone == form.phone
  {
    UserRecord(id, form.name, form.email, form.phone, form.roleId)
  }

  /** The columns `updateUser` sends: name, phone and role as the form holds them, never the email. */
  function UserPatchOf(form: UserForm): (p: UserPatch)
    ensures p.name == form.name && p.phone == form.phone && p.roleId == form.roleId
  {
    UserPatch(form.name, form.phone, form.roleId)
  }

  function ApplyUserPatch(u: UserRecord, p: UserPatch): (r: UserRecord)
    ensures r.id == u.id && r.email == u.email
    ensures r.name == p.name && r.phone == p.phone && r.roleId == p.roleId
  {
    u.(name := p.name, phone := p.phone, roleId := p.roleId)
  }

  /** The row `createPet` inserts: every form field, the owner included. */
  function NewPet(id: Id, form: PetForm): (p: Pet)
    ensures p.id == id && p.ownerId == form.ownerId && p.name == form.name && p.species == form.species
    ensures p.breed == form.breed && p.age == form.age && p.gender == form.gender
    ensures p.weight == form.weight && p.medicalNotes == form.medicalNotes
  {
    Pet(id, form.name, form.species, form.breed, form.age, form.gender, form.weight, form.ownerId, form.medicalNotes)
  }

  /** The columns `updatePet` sends: every field but the owner, as the form holds them. */
  function PetPatchOf(form: PetForm): (p: PetPatch)
    ensures p.name == form.name && p.species == form.species && p.breed == form.breed
    ensures p.age == form.age && p.gender == form.gender && p.weight == form.weight
    ensures p.medicalNotes == form.medicalNotes
  {
    PetPatch(form.name, form.species, form.breed, form.age, form.gender, form.weight, form.medicalNotes)
  }

  function ApplyPetPatch(p: Pet, patch: PetPatch): (r: Pet)
    ensures r.id == p.id && r.ownerId == p.ownerId
    ensures r.name == patch.name && r.species == patch.species && r.breed == patch.breed
    ensures r.age == patch.age && r.gender == patch.gender && r.weight == patch.weight
    ensures r.medicalNotes == patch.medicalNotes
  {
    p.(name := patch.name, species := patch.species, breed := patch.breed, age := patch.age,
       gender := patch.gender, weight := patch.weight, medicalNotes := patch.medicalNotes)
  }

  /** The row `createAppointment` inserts: the form's fields, and always the pending status. */
  function NewAppointment(id: Id, form: AppointmentForm): (a: Appointment)
    ensures a.status == Pending && a.id == id
    ensures a.date == form.date && a.time == form.time && a.petId == form.petId && a.ownerId == form.ownerId
    ensures a.serviceType == form.serviceType && a.notes == form.notes
  {
    Appointment(id, form.date, form.time, form.petId, form.ownerId, form.serviceType, form.notes, Pending)
  }

  /** The columns `updateAppointment` sends: date, time, service, notes and status, as the form
      holds them; the pet and owner fields of the form are not sent. */
  function AppointmentPatchOf(form: AppointmentForm): (p: AppointmentPatch)
    ensures p.date == form.date && p.time == form.time && p.serviceType == form.serviceType
    ensures p.notes == form.notes && p.status == form.status
  {
    AppointmentPatch(form.date, form.time, form.serviceType, form.notes, form.status)
  }

  function ApplyAppointmentPatch(a: Appointment, p: AppointmentPatch): (r: Appointment)
    ensures r.id == a.id && r.petId == a.petId && r.ownerId == a.ownerId
    ensures r.date == p.date && r.time == p.time && r.serviceType == p.serviceType
    ensures r.notes == p.notes && r.status == p.status
  {
    a.(date := p.date, time := p.time, serviceType := p.serviceType, notes := p.notes, status := p.status)
  }

  /** A pet picked in the edit form is not saved: the update keeps the appointment's pet and owner. */
  lemma EditKeepsPetAndOwner(a: Appointment, form: AppointmentForm, pets: map<Id, Pet>, petId: Id)
    requires PetsKeyed(pets)
    ensures var r := ApplyAppointmentPatch(a, AppointmentPatchOf(PickPet(form, pets, petId)));
      r.petId == a.petId && r.ownerId == a.ownerId
  {
  }

  // ---------------------------------------------------------------------------
  // Writes on the tables: `.update(payload).eq('id', target)` and `.delete().eq('id', target)`.
  // A target that names no row changes nothing.

  function PatchUsers(t: map<Id, UserRecord>, target: Option<Id>, p: UserPatch): (r: map<Id, UserRecord>)
    ensures r.Keys == t.Keys
    ensures forall id :: id in t && Some(id) != target ==> r[id] == t[id]
    ensures target.Some? && target.value in t ==> r[target.value] == ApplyUserPatch(t[target.value], p)
    ensures UsersKeyed(t) ==> UsersKeyed(r)
  {
    if target.Some? && target.value in t then t[target.value := ApplyUserPatch(t[target.value], p)] else t
  }

  function PatchPets(t: map<Id, Pet>, target: Option<Id>, p: PetPatch): (r: map<Id, Pet>)
    ensures r.Keys == t.Keys
    ensures forall id :: id in t && Some(id) != target ==> r[id] == t[id]
    ensures target.Some? && target.value in t ==> r[target.value] == ApplyPetPatch(t[target.value], p)
    ensures PetsKeyed(t) ==> PetsKeyed(r)
  {
    if target.Some? && target.value in t then t[target.value := ApplyPetPatch(t[target.value], p)] else t
  }

  function PatchAppointments(t: map<Id, Appointment>, target: Option<Id>, p: AppointmentPatch): (r: map<Id, Appointment>)
    ensures r.Keys == t.Keys
    ensures forall id :: id in t && Some(id) != target ==> r[id] == t[id]
    ensures target.Some? && target.value in t ==> r[target.value] == ApplyAppointmentPatch(t[target.value], p)
    ensures AppointmentsKeyed(t) ==> AppointmentsKeyed(r)
  {
    if target.Some? && target.value in t then t[target.value := ApplyAppointmentPatch(t[target.value], p)] else t
  }

  /** `updateAppointmentStatus(id, status)`: only that appointment's status changes. */
  function SetStatus(t: map<Id, Appointment>, id: Id, status: string): (r: map<Id, Appointment>)
    ensures r.Keys == t.Keys
    ensures forall other :: other in t && other != id ==> r[other] == t[other]
    ensures id in t ==> r[id] == t[id].(status := status)
    ensures AppointmentsKeyed(t) ==> AppointmentsKeyed(r)
  {
    if id in t then t[id := t[id].(status := status)] else t
  }

  /** Pressing an offered status button moves that appointment forward and leaves the rest alone. */
  lemma StatusButtonMovesForward(t: map<Id, Appointment>, id: Id, next: string)
    requires id in t && next in StatusActions(t[id].status)
    ensures Stage(SetStatus(t, id, next)[id].status) > Stage(t[id].status)
    ensures forall other :: other in t && other != id ==> SetStatus(t, id, next)[other] == t[other]
  {
    ActionsMoveForward(t[id].status, next);
  }

  /** The id an update handler filters on when it is handed the form data, as the code is
      written: `data.id` of a form record, which is `undefined` because none of the three forms
      has an `id` field. */
  function FormDataId(): (r: Option<Id>)
    ensures r.None?
  {
    None
  }

  /** As written, saving an edited appointment changes no row: the edit is lost. */
  lemma AppointmentEditLostAsWritten(t: map<Id, Appointment>, editing: Appointment, form: AppointmentForm)
    requires editing.id in t && ApplyAppointmentPatch(t[editing.id], AppointmentPatchOf(form)) != t[editing.id]
    ensures PatchAppointments(t, FormDataId(), AppointmentPatchOf(form)) == t
    ensures PatchAppointments(t, FormDataId(), AppointmentPatchOf(form))[editing.id]
         != PatchAppointments(t, Some(editing.id), AppointmentPatchOf(form))[editing.id]
  {
  }

  /** As written, saving an edited pet changes no row. */
  lemma PetEditLostAsWritten(t: map<Id, Pet>, editing: Pet, form: PetForm)
    requires editing.id in t && ApplyPetPatch(t[editing.id], PetPatchOf(form)) != t[editing.id]
    ensures PatchPets(t, FormDataId(), PetPatchOf(form)) == t
    ensures PatchPets(t, FormDataId(), PetPatchOf(form))[editing.id]
         != PatchPets(t, Some(editing.id), PetPatchOf(form))[editing.id]
  {
  }

  /** As written, saving an edited user changes no row. */
  lemma UserEditLostAsWritten(t: map<Id, UserRecord>, editing: UserRecord, form: UserForm)
    requires editing.id in t && ApplyUserPatch(t[editing.id], UserPatchOf(form)) != t[editing.id]
    ensures PatchUsers(t, FormDataId(), UserPatchOf(form)) == t
    ensures PatchUsers(t, FormDataId(), UserPatchOf(form))[editing.id]
         != PatchUsers(t, Some(editing.id), UserPatchOf(form))[editing.id]
  {
  }

  /** A concrete instance: renaming the notes of appointment "a1" through the edit form. */
  lemma AppointmentEditCounterexample()
    ensures var a := Appointment("a1", "2025-01-10", "08:00", "p1", "u1", DefaultService, "", Pending);
      var t := map["a1" := a];
      var form := AppointmentFormFor(Some(a), "2025-01-01").(notes := "vacuna");
      PatchAppointments(t, FormDataId(), AppointmentPatchOf(form))["a1"].notes == ""
      && PatchAppointments(t, Some("a1"), AppointmentPatchOf(form))["a1"].notes == "vacuna"
  {
  }

  // ---------------------------------------------------------------------------
  // The dashboard's state cells and handlers.

  /** The banner message `{type, text}`. */
  datatype Message = Message(kind: string, text: string)

  function Notice(text: string): Message { Message("success", text) }
  function Problem(prefix: string, detail: string): Message { Message("error", prefix + detail) }

  datatype Stats = Stats(totalUsers: nat, totalPets: nat, totalAppointments: nat, pendingAppointments: nat)

  /** The four counts the stats queries returned; a count is missing when the query failed. */
  datatype Counts = Counts(users: Option<nat>, pets: Option<nat>, appointments: Option<nat>, pending: Option<nat>)
  datatype CountsOutcome = Counted(counts: Counts) | CountThrew

  /** `count || 0` for a missing count. */
  function CountOrZero(c: Option<nat>): (n: nat)
    ensures c.Some? ==> n == c.value
    ensures c.None? ==> n == 0
  {
    if c.Some? then c.value else 0
  }

  /** The stats `loadStats` publishes: each returned count, or 0 when it is missing. */
  function StatsOf(c: Counts): (s: Stats)
    ensures s.totalUsers == CountOrZero(c.users) && s.totalPets == CountOrZero(c.pets)
    ensures s.totalAppointments == CountOrZero(c.appointments) && s.pendingAppointments == CountOrZero(c.pending)
  {
    Stats(CountOrZero(c.users), CountOrZero(c.pets), CountOrZero(c.appointments), CountOrZero(c.pending))
  }

  /** What a list query gave back: data (`null` when missing), an error result, or an exception. */
  datatype LoadOutcome<T> = Loaded(data: Option<T>) | LoadFailed(message: string) | LoadThrew

  /** What a write gave back. */
  datatype WriteOutcome = WriteOk | WriteFailed(message: string)

  /** What the admin user-creation call of the auth service gave back. */
  datatype AuthCreateOutcome = AuthCreated(userId: Id) | AuthCreateFailed(message: string)

  const UserCreated := "Usuario creado exitosamente"
  const UserUpdated := "Usuario actualizado exitosamente"
  const UserDeleted := "Usuario eliminado exitosamente"
  const PetCreated := "Mascota creada exitosamente"
  const PetUpdated := "Mascota actualizada exitosamente"
  const PetDeleted := "Mascota eliminada exitosamente"
  const AppointmentCreated := "Cita creada exitosamente"
  const AppointmentUpdated := "Cita actualizada exitosamente"
  const AppointmentDeleted := "Cita eliminada exitosamente"
  const StatusUpdatedPrefix := "Estado de cita actualizado a: "
  const CreateUserFailed := "Error al crear usuario: "
  const UpdateUserFailed := "Error al actualizar usuario: "
  const DeleteUserFailed := "Error al eliminar usuario: "
  const CreatePetFailed := "Error al crear mascota: "
  const UpdatePetFailed := "Error al actualizar mascota: "
  const DeletePetFailed := "Error al eliminar mascota: "
  const CreateAppointmentFailed := "Error al crear cita: "
  const UpdateAppointmentFailed := "Error al actualizar cita: "
  const DeleteAppointmentFailed := "Error al eliminar cita: "
  const StatusUpdateFailed := "Error al actualizar estado: "

  /** The id of the record being edited, if any. */
  function EditedId<T>(editing: Option<T>, idOf: T -> Id): Option<Id> {
    if editing.Some? then Some(idOf(editing.value)) else None
  }

  class Dashboard {
    var loading: bool
    var message: Message
    var stats: Stats
    var users: map<Id, UserRecord>
    var pets: map<Id, Pet>
    var appointments: map<Id, Appointment>
    var isEditing: bool
    var editingUser: Option<UserRecord>
    var editingPet: Option<Pet>
    var editingAppointment: Option<Appointment>
    var showUserModal: bool
    var showPetModal: bool
    var showAppointmentForm: bool

    /** The user modal's cells: open, edited record, editing flag. */
    function UserPanel(): (bool, Option<UserRecord>, bool) reads this { (showUserModal, editingUser, isEditing) }
    function PetPanel(): (bool, Option<Pet>, bool) reads this { (showPetModal, editingPet, isEditing) }
    function AppointmentPanel(): (bool, Option<Appointment>, bool) reads this { (showAppointmentForm, editingAppointment, isEditing) }

    /** Every table holds each row under its own id. */
    predicate Valid() reads this {
      UsersKeyed(users) && PetsKeyed(pets) && AppointmentsKeyed(appointments)
    }

    constructor ()
      ensures Valid()
      ensures !loading && message == Message("", "") && stats == Stats(0, 0, 0, 0)
      ensures users == map[] && pets == map[] && appointments == map[]
      ensures UserPanel() == (false, None, false) && PetPanel() == (false, None, false)
      ensures AppointmentPanel() == (false, None, false)
    {
      loading := false;
      message := Message("", "");
      stats := Stats(0, 0, 0, 0);
      users, pets, appointments := map[], map[], map[];
      isEditing := false;
      editingUser, editingPet, editingAppointment := None, None, None;
      showUserModal, showPetModal, showAppointmentForm := false, false, false;
    }

    // Loading.

    /** `loadStats`: publish the counts, 0 for a missing one; an exception leaves the stats as they were. */
    method LoadStats(outcome: CountsOutcome)
      modifies this`stats
      ensures outcome.Counted? ==> stats == StatsOf(outcome.counts)
      ensures outcome.CountThrew? ==> stats == old(stats)
    {
      if outcome.Counted? {
        stats := StatsOf(outcome.counts);
      }
    }

    /** `loadUsers`: the returned rows, none for missing data; an error leaves the list as it was. */
    method LoadUsers(outcome: LoadOutcome<map<Id, UserRecord>>)
      requires Valid()
      requires outcome.Loaded? && outcome.data.Some? ==> UsersKeyed(outcome.data.value)
      modifies this`users
      ensures Valid()
      ensures outcome.Loaded? ==> users == (if outcome.data.Some? then outcome.data.value else map[])
      ensures !outcome.Loaded? ==> users == old(users)
    {
      if outcome.Loaded? {
        users := if outcome.data.Some? then outcome.data.value else map[];
      }
    }

    method LoadPets(outcome: LoadOutcome<map<Id, Pet>>)
      requires Valid()
      requires outcome.Loaded? && outcome.data.Some? ==> PetsKeyed(outcome.data.value)
      modifies this`pets
      ensures Valid()
      ensures outcome.Loaded? ==> pets == (if outcome.data.Some? then outcome.data.value else map[])
      ensures !outcome.Loaded? ==> pets == old(pets)
    {
      if outcome.Loaded? {
        pets := if outcome.data.Some? then outcome.data.value else map[];
      }
    }

    method LoadAppointments(outcome: LoadOutcome<map<Id, Appointment>>)
      requires Valid()
      requires outcome.Loaded? && outcome.data.Some? ==> AppointmentsKeyed(outcome.data.value)
      modifies this`appointments
      ensures Valid()
      ensures outcome.Loaded? ==> appointments == (if outcome.data.Some? then outcome.data.value else map[])
      ensures !outcome.Loaded? ==> appointments == old(appointments)
    {
      if outcome.Loaded? {
        appointments := if outcome.data.Some? then outcome.data.value else map[];
      }
    }

    // Users.

    /** `createUser`: create the identity, then insert its row with the form's role; on success the
        modal closes, on either failure the error is shown and the table is unchanged. */
    method CreateUser(form: UserForm, auth: AuthCreateOutcome, insert: WriteOutcome)
      requires Valid()
      modifies this`loading, this`message, this`users, this`showUserModal, this`editingUser, this`isEditing
      ensures Valid()
      ensures !loading
      ensures auth.AuthCreated? && insert.WriteOk? ==>
        users == old(users)[auth.userId := NewUser(auth.userId, form)]
        && message == Notice(UserCreated) && UserPanel() == (false, None, false)
      ensures auth.AuthCreateFailed? ==>
        users == old(users) && message == Problem(CreateUserFailed, auth.message) && UserPanel() == old(UserPanel())
      ensures auth.AuthCreated? && insert.WriteFailed? ==>
        users == old(users) && message == Problem(CreateUserFailed, insert.message) && UserPanel() == old(UserPanel())
    {
      loading := true;
      match auth {
        case AuthCreateFailed(m) =>
          message := Problem(CreateUserFailed, m);
        case AuthCreated(id) =>
          match insert {
            case WriteFailed(m) =>
              message := Problem(CreateUserFailed, m);
            case WriteOk =>
              message := Notice(UserCreated);
              users := users[id := NewUser(id, form)];
              showUserModal := false;
              editingUser := None;
              isEditing := false;
          }
      }
      loading := false;
    }

    /** `updateUser`: send name, phone and role for the row `target`; the email is never sent. */
    method UpdateUser(target: Option<Id>, form: UserForm, outcome: WriteOutcome)
      requires Valid()
      modifies this`loading, this`message, this`users, this`showUserModal, this`editingUser, this`isEditing
      ensures Valid()
      ensures !loading
      ensures outcome.WriteOk? ==>
        users == PatchUsers(old(users), target, UserPatchOf(form))
        && message == Notice(UserUpdated) && UserPanel() == (false, None, false)
      ensures outcome.WriteFailed? ==>
        users == old(users) && message == Problem(UpdateUserFailed, outcome.message) && UserPanel() == old(UserPanel())
    {
      loading := true;
      if outcome.WriteFailed? {
        message := Problem(UpdateUserFailed, outcome.message);
      } else {
        message := Notice(UserUpdated);
        users := PatchUsers(users, target, UserPatchOf(form));
        showUserModal := false;
        editingUser := None;
        isEditing := false;
      }
      loading := false;
    }

    /** `deleteUser`: nothing happens unless the admin confirmed; then the row is removed. */
    method DeleteUser(id: Id, confirmed: bool, outcome: WriteOutcome)
      requires Valid()
      modifies this`loading, this`message, this`users
      ensures Valid()
      ensures !confirmed ==> loading == old(loading) && message == old(message) && users == old(users)
      ensures confirmed ==> !loading
      ensures confirmed && outcome.WriteOk? ==> users == old(users) - {id} && message == Notice(UserDeleted)
      ensures confirmed && outcome.WriteOk? ==> forall r :: r in users.Values ==> r.id != id
      ensures confirmed && outcome.WriteFailed? ==>
        users == old(users) && message == Problem(DeleteUserFailed, outcome.message)
    {
      if !confirmed {
        return;
      }
      loading := true;
      if outcome.WriteFailed? {
        message := Problem(DeleteUserFailed, outcome.message);
      } else {
        message := Notice(UserDeleted);
        users := users - {id};
      }
      loading := false;
    }

    /** The user form's submit: the password check, then `updateUser` when editing and
        `createUser` otherwise. This is the corrected handler: the update filters on the id of
        the user being edited, where the code as written filters on the form's missing `id`
        (see `UserEditLostAsWritten`). */
    method SubmitUserForm(form: UserForm, auth: AuthCreateOutcome, write: WriteOutcome) returns (submitted: bool)
      requires Valid()
      modifies this`loading, this`message, this`users, this`showUserModal, this`editingUser, this`isEditing
      ensures Valid()
      ensures submitted == UserFormAccepts(old(isEditing), form)
      ensures !submitted ==> users == old(users) && message == old(message) && loading == old(loading)
                             && UserPanel() == old(UserPanel())
      ensures submitted ==> !loading
      ensures submitted && old(isEditing) && write.WriteOk? ==>
        users == PatchUsers(old(users), EditedId(old(editingUser), (u: UserRecord) => u.id), UserPatchOf(form))
        && message == Notice(UserUpdated) && UserPanel() == (false, None, false)
      ensures submitted && old(isEditing) && write.WriteOk? && old(editingUser).Some? && old(editingUser).value.id in old(users) ==>
        users[old(editingUser).value.id] == ApplyUserPatch(old(users)[old(editingUser).value.id], UserPatchOf(form))
      ensures submitted && old(isEditing) && write.WriteFailed? ==>
        users == old(users) && message == Problem(UpdateUserFailed, write.message) && UserPanel() == old(UserPanel())
      ensures submitted && !old(isEditing) && auth.AuthCreated? && write.WriteOk? ==>
        users == old(users)[auth.userId := NewUser(auth.userId, form)]
        && message == Notice(UserCreated) && UserPanel() == (false, None, false)
      ensures submitted && !old(isEditing) && auth.AuthCreateFailed? ==>
        users == old(users) && message == Problem(CreateUserFailed, auth.message) && UserPanel() == old(UserPanel())
      ensures submitted && !old(isEditing) && auth.AuthCreated? && write.WriteFailed? ==>
        users == old(users) && message == Problem(CreateUserFailed, write.message) && UserPanel() == old(UserPanel())
    {
      submitted := UserFormAccepts(isEditing, form);
      if !submitted {
        return;
      }
      if isEditing {
        UpdateUser(EditedId(editingUser, (u: UserRecord) => u.id), form, write);
      } else {
        CreateUser(form, auth, write);
      }
    }

    // Pets.

    /** `createPet`: insert every form field, the owner included. */
    method CreatePet(id: Id, form: PetForm, outcome: WriteOutcome)
      requires Valid()
      modifies this`loading, this`message, this`pets, this`showPetModal, this`editingPet, this`isEditing
      ensures Valid()
      ensures !loading
      ensures outcome.WriteOk? ==>
        pets == old(pets)[id := NewPet(id, form)] && message == Notice(PetCreated) && PetPanel() == (false, None, false)
      ensures outcome.WriteFailed? ==>
        pets == old(pets) && message == Problem(CreatePetFailed, outcome.message) && PetPanel() == old(PetPanel())
    {
      loading := true;
      if outcome.WriteFailed? {
        message := Problem(CreatePetFailed, outcome.message);
      } else {
        message := Notice(PetCreated);
        pets := pets[id := NewPet(id, form)];
        showPetModal := false;
        editingPet := None;
        isEditing := false;
      }
      loading := false;
    }

    /** `updatePet`: send every field but the owner for the row `target`. */
    method UpdatePet(target: Option<Id>, form: PetForm, outcome: WriteOutcome)
      requires Valid()
      modifies this`loading, this`message, this`pets, this`showPetModal, this`editingPet, this`isEditing
      ensures Valid()
      ensures !loading
      ensures outcome.WriteOk? ==>
        pets == PatchPets(old(pets), target, PetPatchOf(form)) && message == Notice(PetUpdated)
        && PetPanel() == (false, None, false)
      ensures outcome.WriteFailed? ==>
        pets == old(pets) && message == Problem(UpdatePetFailed, outcome.message) && PetPanel() == old(PetPanel())
    {
      loading := true;
      if outcome.WriteFailed? {
        message := Problem(UpdatePetFailed, outcome.message);
      } else {
        message := Notice(PetUpdated);
        pets := PatchPets(pets, target, PetPatchOf(form));
        showPetModal := false;
        editingPet := None;
        isEditing := false;
      }
      loading := false;
    }

    method DeletePet(id: Id, confirmed: bool, outcome: WriteOutcome)
      requires Valid()
      modifies this`loading, this`message, this`pets
      ensures Valid()
      ensures !confirmed ==> loading == old(loading) && message == old(message) && pets == old(pets)
      ensures confirmed ==> !loading
      ensures confirmed && outcome.WriteOk? ==> pets == old(pets) - {id} && message == Notice(PetDeleted)
      ensures confirmed && outcome.WriteOk? ==> forall r :: r in pets.Values ==> r.id != id
      ensures confirmed && outcome.WriteFailed? ==>
        pets == old(pets) && message == Problem(DeletePetFailed, outcome.message)
    {
      if !confirmed {
        return;
      }
      loading := true;
      if outcome.WriteFailed? {
        message := Problem(DeletePetFailed, outcome.message);
      } else {
        message := Notice(PetDeleted);
        pets := pets - {id};
      }
      loading := false;
    }

    /** The pet form's submit: `updatePet` when editing, `createPet` otherwise. This is the
        corrected handler: the update filters on the id of the pet being edited, where the code
        as written filters on the form's missing `id` (see `PetEditLostAsWritten`). */
    method SubmitPetForm(form: PetForm, newId: Id, write: WriteOutcome)
      requires Valid()
      modifies this`loading, this`message, this`pets, this`showPetModal, this`editingPet, this`isEditing
      ensures Valid()
      ensures !loading
      ensures old(isEditing) && write.WriteOk? ==>
        pets == PatchPets(old(pets), EditedId(old(editingPet), (p: Pet) => p.id), PetPatchOf(form))
        && message == Notice(PetUpdated) && PetPanel() == (false, None, false)
      ensures old(isEditing) && write.WriteOk? && old(editingPet).Some? && old(editingPet).value.id in old(pets) ==>
        pets[old(editingPet).value.id] == ApplyPetPatch(old(pets)[old(editingPet).value.id], PetPatchOf(form))
      ensures !old(isEditing) && write.WriteOk? ==>
        pets == old(pets)[newId := NewPet(newId, form)] && message == Notice(PetCreated)
        && PetPanel() == (false, None, false)
      ensures write.WriteFailed? ==> pets == old(pets) && PetPanel() == old(PetPanel())
      ensures old(isEditing) && write.WriteFailed? ==> message == Problem(UpdatePetFailed, write.message)
      ensures !old(isEditing) && write.WriteFailed? ==> message == Problem(CreatePetFailed, write.message)
    {
      if isEditing {
        UpdatePet(EditedId(editingPet, (p: Pet) => p.id), form, write);
      } else {
        CreatePet(newId, form, write);
      }
    }

    // Appointments.

    /** `createAppointment`: insert the form's fields with the pending status. */
    method CreateAppointment(id: Id, form: AppointmentForm, outcome: WriteOutcome)
      requires Valid()
      modifies this`loading, this`message, this`appointments, this`showAppointmentForm, this`editingAppointment, this`isEditing
      ensures Valid()
      ensures !loading
      ensures outcome.WriteOk? ==>
        appointments == old(appointments)[id := NewAppointment(id, form)]
        && message == Notice(AppointmentCreated) && AppointmentPanel() == (false, None, false)
      ensures outcome.WriteFailed? ==>
        appointments == old(appointments) && message == Problem(CreateAppointmentFailed, outcome.message)
        && AppointmentPanel() == old(AppointmentPanel())
    {
      loading := true;
      if outcome.WriteFailed? {
        message := Problem(CreateAppointmentFailed, outcome.message);
      } else {
        message := Notice(AppointmentCreated);
        appointments := appointments[id := NewAppointment(id, form)];
        showAppointmentForm := false;
        editingAppointment := None;
        isEditing := false;
      }
      loading := false;
    }

    /** `updateAppointment`: send date, time, service, notes and status for the row `target`. */
    method UpdateAppointment(target: Option<Id>, form: AppointmentForm, outcome: WriteOutcome)
      requires Valid()
      modifies this`loading, this`message, this`appointments, this`showAppointmentForm, this`editingAppointment, this`isEditing
      ensures Valid()
      ensures !loading
      ensures outcome.WriteOk? ==>
        appointments == PatchAppointments(old(appointments), target, AppointmentPatchOf(form))
        && message == Notice(AppointmentUpdated) && AppointmentPanel() == (false, None, false)
      ensures outcome.WriteFailed? ==>
        appointments == old(appointments) && message == Problem(UpdateAppointmentFailed, outcome.message)
        && AppointmentPanel() == old(AppointmentPanel())
    {
      loading := true;
      if outcome.WriteFailed? {
        message := Problem(UpdateAppointmentFailed, outcome.message);
      } else {
        message := Notice(AppointmentUpdated);
        appointments := PatchAppointments(appointments, target, AppointmentPatchOf(form));
        showAppointmentForm := false;
        editingAppointment := None;
        isEditing := false;
      }
      loading := false;
    }

    method DeleteAppointment(id: Id, confirmed: bool, outcome: WriteOutcome)
      requires Valid()
      modifies this`loading, this`message, this`appointments
      ensures Valid()
      ensures !confirmed ==> loading == old(loading) && message == old(message) && appointments == old(appointments)
      ensures confirmed ==> !loading
      ensures confirmed && outcome.WriteOk? ==>
        appointments == old(appointments) - {id} && message == Notice(AppointmentDeleted)
      ensures confirmed && outcome.WriteOk? ==> forall r :: r in appointments.Values ==> r.id != id
      ensures confirmed && outcome.WriteFailed? ==>
        appointments == old(appointments) && message == Problem(DeleteAppointmentFailed, outcome.message)
    {
      if !confirmed {
        return;
      }
      loading := true;
      if outcome.WriteFailed? {
        message := Problem(DeleteAppointmentFailed, outcome.message);
      } else {
        message := Notice(AppointmentDeleted);
        appointments := appointments - {id};
      }
      loading := false;
    }

    /** `updateAppointmentStatus`: only the status of appointment `id` changes; the form cells stay. */
    method UpdateAppointmentStatus(id: Id, status: string, outcome: WriteOutcome)
      requires Valid()
      modifies this`loading, this`message, this`appointments
      ensures Valid()
      ensures !loading
      ensures outcome.WriteOk? ==>
        appointments == SetStatus(old(appointments), id, status) && message == Notice(StatusUpdatedPrefix + status)
      ensures outcome.WriteFailed? ==>
        appointments == old(appointments) && message == Problem(StatusUpdateFailed, outcome.message)
    {
      loading := true;
      if outcome.WriteFailed? {
        message := Problem(StatusUpdateFailed, outcome.message);
      } else {
        message := Notice(StatusUpdatedPrefix + status);
        appointments := SetStatus(appointments, id, status);
      }
      loading := false;
    }

    /** The appointment form's submit: `updateAppointment` when editing, `createAppointment`
        (always pending) otherwise. This is the corrected handler: the update filters on the id
        of the appointment being edited, where the code as written filters on the form's missing
        `id` (see `AppointmentEditLostAsWritten`). */
    method SubmitAppointmentForm(form: AppointmentForm, newId: Id, write: WriteOutcome)
      requires Valid()
      modifies this`loading, this`message, this`appointments, this`showAppointmentForm, this`editingAppointment, this`isEditing
      ensures Valid()
      ensures !loading
      ensures old(isEditing) && write.WriteOk? ==>
        appointments == PatchAppointments(old(appointments), EditedId(old(editingAppointment), (a: Appointment) => a.id), AppointmentPatchOf(form))
        && message == Notice(AppointmentUpdated) && AppointmentPanel() == (false, None, false)
      ensures old(isEditing) && write.WriteOk? && old(editingAppointment).Some? && old(editingAppointment).value.id in old(appointments) ==>
        appointments[old(editingAppointment).value.id]
          == ApplyAppointmentPatch(old(appointments)[old(editingAppointment).value.id], AppointmentPatchOf(form))
      ensures !old(isEditing) && write.WriteOk? ==>
        appointments == old(appointments)[newId := NewAppointment(newId, form)] && appointments[newId].status == Pending
        && message == Notice(AppointmentCreated) && AppointmentPanel() == (false, None, false)
      ensures write.WriteFailed? ==> appointments == old(appointments) && AppointmentPanel() == old(AppointmentPanel())
      ensures old(isEditing) && write.WriteFailed? ==> message == Problem(UpdateAppointmentFailed, write.message)
      ensures !old(isEditing) && write.WriteFailed? ==> message == Problem(CreateAppointmentFailed, write.message)
    {
      if isEditing {
        UpdateAppointment(EditedId(editingAppointment, (a: Appointment) => a.id), form, write);
      } else {
        CreateAppointment(newId, form, write);
      }
    }

    // Opening and closing the modals.

    /** "Nueva Cita": a blank appointment form in create mode. */
    method NewAppointmentForm()
      modifies this`editingAppointment, this`isEditing, this`showAppointmentForm
      ensures AppointmentPanel() == (true, None, false)
    {
      editingAppointment := None;
      isEditing := false;
      showAppointmentForm := true;
    }

    /** The edit button of an appointment: the form in edit mode on that appointment. */
    method EditAppointment(a: Appointment)
      modifies this`editingAppointment, this`isEditing, this`showAppointmentForm
      ensures AppointmentPanel() == (true, Some(a), true)
    {
      editingAppointment := Some(a);
      isEditing := true;
      showAppointmentForm := true;
    }

    method CloseAppointmentForm()
      modifies this`editingAppointment, this`isEditing, this`showAppointmentForm
      ensures AppointmentPanel() == (false, None, false)
    {
      showAppointmentForm := false;
      editingAppointment := None;
      isEditing := false;
    }

    /** "Nuevo Usuario" and the users card: only opens the modal, the editing cells are kept. */
    method OpenUserModal()
      modifies this`showUserModal
      ensures showUserModal
    {
      showUserModal := true;
    }

    method EditUser(u: UserRecord)
      modifies this`editingUser, this`isEditing, this`showUserModal
      ensures UserPanel() == (true, Some(u), true)
    {
      editingUser := Some(u);
      isEditing := true;
      showUserModal := true;
    }

    method CloseUserModal()
      modifies this`editingUser, this`isEditing, this`showUserModal
      ensures UserPanel() == (false, None, false)
    {
      showUserModal := false;
      editingUser := None;
      isEditing := false;
    }

    /** "Nueva Mascota" and the pets card: only opens the modal, the editing cells are kept. */
    method OpenPetModal()
      modifies this`showPetModal
      ensures showPetModal
    {
      showPetModal := true;
    }

    method EditPet(p: Pet)
      modifies this`editingPet, this`isEditing, this`showPetModal
      ensures PetPanel() == (true, Some(p), true)
    {
      editingPet := Some(p);
      isEditing := true;
      showPetModal := true;
    }

    method ClosePetModal()
      modifies this`editingPet, this`isEditing, this`showPetModal
      ensures PetPanel() == (false, None, false)
    {
      showPetModal := false;
      editingPet := None;
      isEditing := false;
    }
  }
}
