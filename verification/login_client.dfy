/** The sign-in and registration form: the checks a submission must pass
    before the authentication service is called, the messages it shows,
    and the form's state across a submission. The service's answers are
    parameters. */
module LoginClient {
  import opened Common
  import opened Middleware

  datatype AuthMode = Login | Register

  // ---------------------------------------------------------------------------
  // Field checks

  /** A run of one or more characters that are neither whitespace nor
      "@": the `[^\s@]+` of the email pattern. */
  predicate Plain(t: string) {
    t != [] && forall i | 0 <= i < |t| :: !IsJsWhitespace(t[i]) && t[i] != '@'
  }

  /** `/^[^\s@]+@[^\s@]+\.[^\s@]+$/`: a plain run, "@", a plain run, ".",
      and a plain run. The second run may itself hold dots. */
  predicate IsEmail(s: string) {
    exists k, j | 0 <= k < j < |s| ::
      s[k] == '@' && s[j] == '.' && Plain(s[..k]) && Plain(s[k + 1..j]) && Plain(s[j + 1..])
  }

  /** `/^[a-zA-Z0-9_]+$/` without the length part. */
  predicate IsWordChar(c: char) {
    ('a' <= c <= 'z') || ('A' <= c <= 'Z') || ('0' <= c <= '9') || c == '_'
  }

  predicate AllWordChars(u: string) {
    forall i | 0 <= i < |u| :: IsWordChar(u[i])
  }

  const EmailRequired := "Email is required"
  const EmailInvalid := "Invalid email address"
  const PasswordRequired := "Password is required"
  const PasswordTooShort := "Minimum 8 characters"
  const PasswordsDiffer := "Passwords do not match"
  const UsernameRequired := "Username is required"
  const UsernameTooShort := "Minimum 3 characters"
  const UsernameBadChars := "Only letters, numbers, and underscores"
  const UsernameTaken := "Username is already taken"

  /** The email's message: required when blank after trimming, invalid
      when the untrimmed text does not match the pattern. */
  function EmailError(email: string): (e: Option<string>)
    ensures e == Some(EmailRequired) <==> Trim(email) == ""
    ensures e == None <==> Trim(email) != "" && IsEmail(email)
  {
    if Trim(email) == "" then Some(EmailRequired)
    else if !IsEmail(email) then Some(EmailInvalid)
    else None
  }

  /** The password's message: required when empty, too short under eight
      characters. */
  function PasswordError(password: string): (e: Option<string>)
    ensures e == None <==> |password| >= 8
    ensures e == Some(PasswordRequired) <==> password == ""
  {
    if password == "" then Some(PasswordRequired)
    else if |password| < 8 then Some(PasswordTooShort)
    else None
  }

  /** The confirmation's message, in register mode only. */
  function ConfirmError(mode: AuthMode, password: string, confirmPassword: string): (e: Option<string>)
    ensures e.Some? <==> mode == Register && password != confirmPassword
    ensures e.Some? ==> e.value == PasswordsDiffer
  {
    if mode == Register && password != confirmPassword then Some(PasswordsDiffer) else None
  }

  /** The username's message, in register mode only: required when blank
      after trimming, too short under three characters counted before
      trimming, and only letters, digits and underscores. */
  function UsernameError(mode: AuthMode, username: string): (e: Option<string>)
    ensures mode == Login ==> e == None
    ensures mode == Register ==> (e == Some(UsernameRequired) <==> Trim(username) == "")
  {
    if mode == Login then None
    else if Trim(username) == "" then Some(UsernameRequired)
    else if |username| < 3 then Some(UsernameTooShort)
    else if !AllWordChars(username) then Some(UsernameBadChars)
    else None
  }

  /** A non-empty string without whitespace at either end is its own
      trim, so it is not blank. */
  lemma TrimOfTrimmed(s: string)
    requires s != [] && !IsJsWhitespace(s[0]) && !IsJsWhitespace(s[|s| - 1])
    ensures Trim(s) == s
  {
    assert TrimStart(s) == s;
  }

  /** A valid email has no whitespace and exactly one "@"; in particular
      one typed with a space around it is refused as invalid. */
  lemma EmailShape(s: string, k: int, j: int)
    requires 0 <= k < j < |s| && s[k] == '@' && s[j] == '.'
    requires Plain(s[..k]) && Plain(s[k + 1..j]) && Plain(s[j + 1..])
    ensures forall i | 0 <= i < |s| :: !IsJsWhitespace(s[i])
    ensures forall i | 0 <= i < |s| && s[i] == '@' :: i == k
  {
    forall i | 0 <= i < |s|
      ensures !IsJsWhitespace(s[i]) && (s[i] == '@' ==> i == k)
    {
      if i < k {
        assert s[i] == s[..k][i];
      } else if k < i < j {
        assert s[i] == s[k + 1..j][i - k - 1];
      } else if j < i {
        assert s[i] == s[j + 1..][i - j - 1];
      }
    }
  }

  /** Every string the pattern accepts passes the email check. */
  lemma EmailAccepted(s: string)
    requires IsEmail(s)
    ensures EmailError(s) == None
  {
    var k, j :| 0 <= k < j < |s| && s[k] == '@' && s[j] == '.'
      && Plain(s[..k]) && Plain(s[k + 1..j]) && Plain(s[j + 1..]);
    EmailShape(s, k, j);
    TrimOfTrimmed(s);
  }

  /** An email with leading or trailing whitespace, or with two "@",
      never matches. */
  lemma EmailRejected(s: string)
    requires s != []
    requires IsJsWhitespace(s[0]) || IsJsWhitespace(s[|s| - 1]) || exists a, b | 0 <= a < b < |s| :: s[a] == '@' && s[b] == '@'
    ensures !IsEmail(s)
  {
    if IsEmail(s) {
      var k, j :| 0 <= k < j < |s| && s[k] == '@' && s[j] == '.'
        && Plain(s[..k]) && Plain(s[k + 1..j]) && Plain(s[j + 1..]);
      EmailShape(s, k, j);
    }
  }

  /** A username passes in register mode exactly when it has at least
      three characters, all letters, digits or underscores. */
  lemma UsernameRule(username: string)
    ensures UsernameError(Register, username) == None <==> |username| >= 3 && AllWordChars(username)
  {
    if |username| >= 3 && AllWordChars(username) {
      assert !IsWordChar(' ');
      TrimOfTrimmed(username);
    }
  }

  /** The form's messages; a field without a message is absent. */
  datatype FormErrors = FormErrors(
    email: Option<string>,
    password: Option<string>,
    confirmPassword: Option<string>,
    username: Option<string>,
    general: Option<string>)

  const NoErrors := FormErrors(None, None, None, None, None)

  /** `Object.keys(errors).length`. */
  function KeyCount(e: FormErrors): (n: nat)
    ensures n == 0 <==> e == NoErrors
    ensures n <= 5
  {
    (if e.email.Some? then 1 else 0) + (if e.password.Some? then 1 else 0)
    + (if e.confirmPassword.Some? then 1 else 0) + (if e.username.Some? then 1 else 0)
    + (if e.general.Some? then 1 else 0)
  }

  /** `invalid login credentials` in the service's words reads as a
      wrong email or password; any other message is shown as it is. */
  function LoginErrorText(message: string): (text: string)
    ensures message == "Invalid login credentials" ==> text == "Incorrect email or password"
    ensures message != "Invalid login credentials" ==> text == message
    ensures text != "Invalid login credentials"
  {
    if message == "Invalid login credentials" then "Incorrect email or password" else message
  }

  /** What a submission led to. The register step's answers are whether
      the username is taken and the sign-up error; the login step's is the
      sign-in error. */
  datatype Submission = Refused | SignedIn(target: string) | SignInFailed | NameTaken | SignUpFailed | Registered

  /** `searchParams.get('redirect') || '/'`: where a successful sign-in
      goes. */
  function RedirectTarget(param: Option<string>): (target: string)
    ensures Truthy(param) ==> target == param.value
    ensures !Truthy(param) ==> target == "/"
  {
    if Truthy(param) then param.value else "/"
  }

  /** A visitor the request filter turned away from a member-area page
      lands, once signed in, back on that page, which now lets them
      through. */
  lemma SignInReturnsToPage(path: string)
    requires Route(path, false).decision.RedirectToLogin?
    ensures RedirectTarget(Some(Route(path, false).decision.returnTo)) == path
    ensures Route(path, true).decision == PassThrough
  {
    Classification(path);
    ProtectedIsNotAuth(path);
  }

  const ConfirmationSent := "Confirmation email sent! Check your inbox to activate your account."

  class LoginForm {
    var mode: AuthMode
    var email: string
    var password: string
    var confirmPassword: string
    var username: string
    var errors: FormErrors
    var loading: bool
    var successMessage: string

    constructor ()
      ensures mode == Login && email == "" && password == "" && confirmPassword == "" && username == ""
      ensures errors == NoErrors && !loading && successMessage == ""
    {
      mode := Login;
      email := "";
      password := "";
      confirmPassword := "";
      username := "";
      errors := NoErrors;
      loading := false;
      successMessage := "";
    }

    /** `validate`: builds the messages field by field, shows them, and
        answers whether there are none. */
    method Validate() returns (ok: bool)
      modifies this
      ensures errors == FormErrors(EmailError(email), PasswordError(password),
                                   ConfirmError(mode, password, confirmPassword), UsernameError(mode, username), None)
      ensures ok <==> KeyCount(errors) == 0
      ensures mode == old(mode) && email == old(email) && password == old(password)
      ensures confirmPassword == old(confirmPassword) && username == old(username)
      ensures loading == old(loading) && successMessage == old(successMessage)
    {
      var newErrors := NoErrors;
      if Trim(email) == "" {
        newErrors := newErrors.(email := Some(EmailRequired));
      } else if !IsEmail(email) {
        newErrors := newErrors.(email := Some(EmailInvalid));
      }
      if password == "" {
        newErrors := newErrors.(password := Some(PasswordRequired));
      } else if |password| < 8 {
        newErrors := newErrors.(password := Some(PasswordTooShort));
      }
      if mode == Register {
        if password != confirmPassword {
          newErrors := newErrors.(confirmPassword := Some(PasswordsDiffer));
        }
        if Trim(username) == "" {
          newErrors := newErrors.(username := Some(UsernameRequired));
        } else if |username| < 3 {
          newErrors := newErrors.(username := Some(UsernameTooShort));
        } else if !AllWordChars(username) {
          newErrors := newErrors.(username := Some(UsernameBadChars));
        }
      }
      errors := newErrors;
      ok := KeyCount(newErrors) == 0;
    }

    /** `handleSubmit`: nothing is sent unless the checks pass; then a
        sign-in or a registration, by mode. A successful sign-in navigates
        to the address's `redirect` target (or "/") and leaves the form
        loading. */
    method Submit(redirectParam: Option<string>, signInError: Option<string>, nameTaken: bool, signUpError: Option<string>)
      returns (result: Submission)
      modifies this
      ensures mode == old(mode) && email == old(email) && password == old(password)
      ensures confirmPassword == old(confirmPassword) && username == old(username)
      ensures result == Refused <==> !FieldsValid(old(mode), email, password, confirmPassword, username)
      ensures result == Refused ==> (
        loading == old(loading) && successMessage == old(successMessage)
        && errors == FormErrors(EmailError(email), PasswordError(password),
                                ConfirmError(mode, password, confirmPassword), UsernameError(mode, username), None))
      ensures result != Refused && mode == Login ==>
        (signInError.None? ==> result == SignedIn(RedirectTarget(redirectParam)) && errors == NoErrors && loading)
        && (signInError.Some? ==> (
          result == SignInFailed && !loading
          && errors == NoErrors.(general := Some(LoginErrorText(signInError.value)))))
      ensures result != Refused && mode == Register ==> !loading
      ensures result != Refused && mode == Register && nameTaken ==>
        result == NameTaken && errors == NoErrors.(username := Some(UsernameTaken))
      ensures result != Refused && mode == Register && !nameTaken && signUpError.Some? ==>
        result == SignUpFailed && errors == NoErrors.(general := signUpError)
      ensures result != Refused && mode == Register && !nameTaken && signUpError.None? ==>
        result == Registered && errors == NoErrors && successMessage == ConfirmationSent
      ensures result != Registered ==> successMessage == old(successMessage)
    {
      var ok := Validate();
      if !ok {
        return Refused;
      }
      loading := true;
      errors := NoErrors;
      if mode == Login {
        if signInError.Some? {
          errors := NoErrors.(general := Some(LoginErrorText(signInError.value)));
          loading := false;
          return SignInFailed;
        }
        return SignedIn(RedirectTarget(redirectParam));
      }
      if nameTaken {
        errors := NoErrors.(username := Some(UsernameTaken));
        loading := false;
        return NameTaken;
      }
      if signUpError.Some? {
        errors := NoErrors.(general := signUpError);
        loading := false;
        return SignUpFailed;
      }
      successMessage := ConfirmationSent;
      loading := false;
      return Registered;
    }

    /** The link under the form: switches mode and clears the messages. */
    method SwitchMode()
      modifies this
      ensures mode == (if old(mode) == Login then Register else Login)
      ensures errors == NoErrors && successMessage == ""
      ensures email == old(email) && password == old(password) && confirmPassword == old(confirmPassword)
      ensures username == old(username) && loading == old(loading)
    {
      mode := if mode == Login then Register else Login;
      errors := NoErrors;
      successMessage := "";
    }

    /** "Go to Login" on the confirmation screen. */
    method GoToLogin()
      modifies this
      ensures mode == Login && successMessage == ""
      ensures errors == old(errors) && email == old(email) && password == old(password)
      ensures confirmPassword == old(confirmPassword) && username == old(username) && loading == old(loading)
    {
      successMessage := "";
      mode := Login;
    }
  }

  /** All checks pass: the condition under which a submission is sent. */
  predicate FieldsValid(mode: AuthMode, email: string, password: string, confirmPassword: string, username: string) {
    EmailError(email).None? && PasswordError(password).None?
    && ConfirmError(mode, password, confirmPassword).None? && UsernameError(mode, username).None?
  }

  /** What the checks come to, field by field: a submission is sent
      exactly when the email matches the pattern, the password has at least
      eight characters and, when registering, the confirmation repeats it
      and the username has three or more letters, digits or underscores. */
  lemma FieldsValidMeans(mode: AuthMode, email: string, password: string, confirmPassword: string, username: string)
    ensures FieldsValid(mode, email, password, confirmPassword, username) <==>
      IsEmail(email) && |password| >= 8
      && (mode == Register ==> password == confirmPassword && |username| >= 3 && AllWordChars(username))
  {
    if IsEmail(email) {
      EmailAccepted(email);
    }
    UsernameRule(username);
  }
}
