/** The registration page: its submit handler validates the password pair in a fixed order,
    then calls `register` with the form, with the `error` and `loading` cells set around the call. */
module RegisterPage {
  import opened Common
  import opened Auth

  const MismatchError := "Las contraseñas no coinciden"
  const TooShortError := "La contraseña debe tener al menos 8 caracteres"
  const AccountError := "Error al crear la cuenta. Intenta nuevamente."
  const MinPasswordLength := 8
  const SuccessTarget := "/dashboard"

  /** The validation error for a password and its confirmation, if any: a mismatch is reported
      before the length, which is counted in UTF-16 code units as `password.length` is. */
  function PasswordError(password: string, confirmation: string): (r: Option<string>)
    ensures r == Some(MismatchError) <==> password != confirmation
    ensures r == Some(TooShortError) <==> password == confirmation && Utf16Length(password) < MinPasswordLength
    ensures r.None? <==> password == confirmation && Utf16Length(password) >= MinPasswordLength
  {
    if password != confirmation then Some(MismatchError)
    else if Utf16Length(password) < MinPasswordLength then Some(TooShortError)
    else None
  }

  /** A mismatch is reported whatever the length, so a short, mismatched pair gets the mismatch error. */
  lemma MismatchCheckedFirst(password: string, confirmation: string)
    requires password != confirmation && Utf16Length(password) < MinPasswordLength
    ensures PasswordError(password, confirmation) == Some(MismatchError)
  {
  }

  /** Any matching pair of at least eight characters passes, and fewer than four never does. */
  lemma LengthBounds(password: string)
    ensures |password| >= MinPasswordLength ==> PasswordError(password, password).None?
    ensures |password| < MinPasswordLength / 2 ==> PasswordError(password, password) == Some(TooShortError)
  {
  }

  /** `password.length` counts UTF-16 code units: four emoji, each above U+FFFF, make a length
      of 8 and pass, although they are only four code points. */
  lemma FourEmojiPass()
    ensures |"\U{1F436}\U{1F431}\U{1F430}\U{1F439}"| == 4
    ensures PasswordError("\U{1F436}\U{1F431}\U{1F430}\U{1F439}", "\U{1F436}\U{1F431}\U{1F430}\U{1F439}").None?
  {
    Utf16LengthAstral("\U{1F436}\U{1F431}\U{1F430}\U{1F439}");
  }

  class RegisterPageState {
    var form: RegisterForm
    var error: string
    var loading: bool

    constructor ()
      ensures form == RegisterForm("", "", "", "", "") && error == "" && !loading
    {
      form := RegisterForm("", "", "", "", "");
      error := "";
      loading := false;
    }

    /** `handleSubmit`, calling `register` of the authentication context with the backend's
        answers `signUp` and `insert`. `called` is the form passed to `register` when it was called
        (once); `navigateTo` is where the page navigates afterwards, if anywhere. A refused
        sign-up shows no error and does not navigate. */
    method HandleSubmit(auth: AuthProvider, signUp: SignUpOutcome, insert: InsertOutcome)
      returns (called: Option<RegisterForm>, navigateTo: Option<string>)
      modifies this`error, this`loading, auth`loading
      ensures var v := PasswordError(form.password, form.confirmPassword);
        (v.Some? ==> error == v.value && called.None? && navigateTo.None?
                     && loading == old(loading) && auth.State() == old(auth.State()))
        && (v.None? ==> called == Some(form) && !loading && error == ""
                        && auth.State() == AfterCall(old(auth.State()))
                        && navigateTo == (if RegisterResult(signUp, insert).Success? then Some(SuccessTarget) else None))
    {
      called, navigateTo := None, None;
      error := "";
      if form.password != form.confirmPassword {
        error := MismatchError;
        return;
      }
      if Utf16Length(form.password) < MinPasswordLength {
        error := TooShortError;
        return;
      }
      loading := true;
      called := Some(form);
      // `register` turns every exception into a result record, so the page's own
      // `catch` branch (which would show AccountError) cannot be reached.
      var result, _, _ := auth.Register(form, signUp, insert);
      if result.Success? {
        navigateTo := Some(SuccessTarget);
      }
      loading := false;
    }
  }
}
