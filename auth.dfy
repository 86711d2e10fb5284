/** The sign-in page (src/pages/Auth.tsx): four modes (sign in, sign up,
    forgotten password, password reset), the form validation of each mode,
    the submission, the links that switch modes, the texts that depend on
    the mode, and the redirect of a signed-in user. zod's e-mail check is a
    parameter `isEmail`; the auth calls are split at their `await`: the
    submission returns the call it makes, and the completion takes its
    outcome. */
module Auth {
  import opened Wrappers
  import opened Text

  datatype Mode = SignIn | SignUp | Forgot | Reset

  const EmailMessage := "Please enter a valid email address"
  const PasswordMessage := "Password must be at least 6 characters"
  const MismatchMessage := "Passwords do not match"

  /** `passwordSchema`: at least this many UTF-16 code units (zod compares
      the string's `length`). */
  const MinPasswordLength := 6

  /** The message of each field, when the field has an error. */
  datatype Errors = Errors(email: Option<string>, password: Option<string>, confirmPassword: Option<string>)

  const NoErrors := Errors(None, None, None)

  /** The mode the page starts in: `reset` when the URL has `reset=true`. */
  function InitialMode(resetParam: Option<string>): (m: Mode)
    ensures m == Reset <==> resetParam == Some("true")
    ensures m != Reset ==> m == SignIn
  {
    if resetParam == Some("true") then Reset else SignIn
  }

  /** The errors `validateForm` records. Each field has an error exactly when
      its mode checks it and it fails the check: the e-mail in every mode but
      reset, the password length in every mode but forgot, the confirmation
      in sign-up and reset. */
  function FormErrors(mode: Mode, email: string, password: string, confirmPassword: string,
                      isEmail: string -> bool): (r: Errors)
    ensures r.email.Some? <==> mode != Reset && !isEmail(email)
    ensures r.password.Some? <==> mode != Forgot && Utf16Length(password) < MinPasswordLength
    ensures r.confirmPassword.Some? <==> (mode == SignUp || mode == Reset) && password != confirmPassword
    ensures r.email.Some? ==> r.email.value == EmailMessage
    ensures r.password.Some? ==> r.password.value == PasswordMessage
    ensures r.confirmPassword.Some? ==> r.confirmPassword.value == MismatchMessage
  {
    var emailError := if isEmail(email) then None else Some(EmailMessage);
    var passwordError := if Utf16Length(password) >= MinPasswordLength then None else Some(PasswordMessage);
    var confirmError := if password == confirmPassword then None else Some(MismatchMessage);
    match mode
    case Forgot => Errors(emailError, None, None)
    case Reset => Errors(None, passwordError, confirmError)
    case SignUp => Errors(emailError, passwordError, confirmError)
    case SignIn => Errors(emailError, passwordError, None)
  }

  /** The length rule counts UTF-16 code units: three emoji make a long
      enough password, while three letters do not. */
  lemma EmojiPasswordIsLongEnough(isEmail: string -> bool)
    ensures FormErrors(SignIn, "a@b.co", "\U{1F600}\U{1F600}\U{1F600}", "", isEmail).password.None?
    ensures FormErrors(SignIn, "a@b.co", "abc", "", isEmail).password.Some?
  {
    assert Utf16Length("\U{1F600}\U{1F600}\U{1F600}") == 6;
  }

  /** The fields the form shows in each mode. */
  predicate EmailShown(mode: Mode) { mode != Reset }
  predicate PasswordShown(mode: Mode) { mode != Forgot }
  predicate ConfirmShown(mode: Mode) { mode == SignUp || mode == Reset }

  /** The browser's own check of the `type="email"` input, in a form without
      `noValidate`: it applies only while the input is shown; an empty value
      passes, and a non-empty one passes when the browser takes it for an
      address (`accepted`). A form that fails it fires no submit event, so
      `handleSubmit` does not run. */
  predicate EmailInputPasses(mode: Mode, email: string, accepted: bool)
  {
    !EmailShown(mode) || email == "" || accepted
  }

  /** Validation only ever flags a field the mode shows; the fields the mode
      hides make no difference to it. */
  lemma ErrorsOnlyOnShownFields(mode: Mode, email: string, password: string, confirmPassword: string,
                                email2: string, password2: string, confirmPassword2: string,
                                isEmail: string -> bool)
    requires EmailShown(mode) ==> email2 == email
    requires PasswordShown(mode) ==> password2 == password
    requires ConfirmShown(mode) ==> confirmPassword2 == confirmPassword
    ensures var e := FormErrors(mode, email, password, confirmPassword, isEmail);
      (e.email.Some? ==> EmailShown(mode))
      && (e.password.Some? ==> PasswordShown(mode))
      && (e.confirmPassword.Some? ==> ConfirmShown(mode))
    ensures FormErrors(mode, email, password, confirmPassword, isEmail)
      == FormErrors(mode, email2, password2, confirmPassword2, isEmail)
  {
  }

  /** When the form is accepted, per mode. */
  lemma AcceptedForms(mode: Mode, email: string, password: string, confirmPassword: string,
                      isEmail: string -> bool)
    ensures FormErrors(mode, email, password, confirmPassword, isEmail) == NoErrors <==>
      match mode
      case Forgot => isEmail(email)
      case Reset => Utf16Length(password) >= MinPasswordLength && password == confirmPassword
      case SignIn => isEmail(email) && Utf16Length(password) >= MinPasswordLength
      case SignUp => isEmail(email) && Utf16Length(password) >= MinPasswordLength && password == confirmPassword
  {
    var e := FormErrors(mode, email, password, confirmPassword, isEmail);
    assert e == NoErrors <==> e.email.None? && e.password.None? && e.confirmPassword.None?;
  }

  /** The call a valid submission makes. */
  datatype AuthCall =
    | ResetPassword(email: string)
    | UpdatePassword(password: string)
    | SignUpCall(email: string, password: string)
    | SignInCall(email: string, password: string)

  /** The auth call of a mode. */
  function CallFor(mode: Mode, email: string, password: string): (c: AuthCall)
    ensures c.ResetPassword? <==> mode == Forgot
    ensures c.UpdatePassword? <==> mode == Reset
    ensures c.SignUpCall? <==> mode == SignUp
    ensures c.SignInCall? <==> mode == SignIn
  {
    match mode
    case Forgot => ResetPassword(email)
    case Reset => UpdatePassword(password)
    case SignUp => SignUpCall(email, password)
    case SignIn => SignInCall(email, password)
  }

  /** What an auth call came to: success, an error with its message, or an
      exception. */
  datatype CallOutcome = Succeeded | Failed(message: string) | Threw

  /** The toast a completed submission shows. */
  datatype Toast = Success(text: string) | Failure(text: string)

  const ResetSent := "Password reset email sent! Check your inbox."
  const PasswordUpdated := "Password updated successfully!"
  const AccountCreated := "Account created successfully! You are now signed in."
  const WelcomeBack := "Welcome back!"
  const AlreadyRegistered := "This email is already registered. Please sign in instead."
  const BadCredentials := "Invalid email or password. Please try again."
  const Unexpected := "An unexpected error occurred. Please try again."

  /** The toast after the call of `mode` came to `outcome`. */
  function SubmitToast(mode: Mode, outcome: CallOutcome): (t: Toast)
    ensures t.Success? <==> outcome.Succeeded?
    ensures outcome.Threw? ==> t == Failure(Unexpected)
    ensures outcome.Failed? && mode == SignUp && Contains(outcome.message, "already registered") ==>
      t == Failure(AlreadyRegistered)
    ensures outcome.Failed? && mode == SignIn && Contains(outcome.message, "Invalid login credentials") ==>
      t == Failure(BadCredentials)
    ensures outcome.Failed? && (mode == Forgot || mode == Reset) ==> t == Failure(outcome.message)
  {
    match outcome
    case Threw => Failure(Unexpected)
    case Succeeded =>
      Success(match mode
        case Forgot => ResetSent
        case Reset => PasswordUpdated
        case SignUp => AccountCreated
        case SignIn => WelcomeBack)
    case Failed(message) =>
      if mode == SignUp && Contains(message, "already registered") then Failure(AlreadyRegistered)
      else if mode == SignIn && Contains(message, "Invalid login credentials") then Failure(BadCredentials)
      else Failure(message)
  }

  /** The links that switch modes: "Forgot password?", "Sign up", "Sign in"
      (on the sign-up form) and "Back to sign in". */
  datatype Link = ForgotLink | SignUpLink | SignInLink | BackLink

  /** The links each mode shows. */
  predicate Offered(mode: Mode, link: Link)
  {
    match link
    case ForgotLink => mode == SignIn
    case SignUpLink => mode == SignIn
    case SignInLink => mode == SignUp
    case BackLink => mode == Forgot || mode == Reset
  }

  /** Where a link goes. */
  function Target(link: Link): Mode
  {
    match link
    case ForgotLink => Forgot
    case SignUpLink => SignUp
    case SignInLink => SignIn
    case BackLink => SignIn
  }

  /** Every link leads to another mode, every mode but sign-in has a link
      back to sign-in, and from sign-in every other mode but reset is one
      link away; reset is reached only from the URL. */
  lemma LinksBetweenModes(mode: Mode, link: Link)
    ensures Offered(mode, link) ==> Target(link) != mode
    ensures mode != SignIn ==> Offered(mode, if mode == SignUp then SignInLink else BackLink)
    ensures Offered(SignIn, ForgotLink) && Offered(SignIn, SignUpLink)
    ensures Target(link) != Reset
  {
  }

  /** `getTitle()`. */
  function Title(mode: Mode): string
  {
    match mode
    case SignUp => "Create Account"
    case Forgot => "Forgot Password"
    case Reset => "Reset Password"
    case SignIn => "Welcome Back"
  }

  /** `getSubtitle()`. */
  function Subtitle(mode: Mode): string
  {
    match mode
    case SignUp => "Sign up to track your prayer requests"
    case Forgot => "Enter your email to receive a reset link"
    case Reset => "Enter your new password"
    case SignIn => "Sign in to continue your journey"
  }

  /** `getButtonText()`. */
  function ButtonText(mode: Mode, isSubmitting: bool): string
  {
    if isSubmitting then
      match mode
      case SignUp => "Creating Account..."
      case Forgot => "Sending Reset Link..."
      case Reset => "Updating Password..."
      case SignIn => "Signing In..."
    else
      match mode
      case SignUp => "Create Account"
      case Forgot => "Send Reset Link"
      case Reset => "Update Password"
      case SignIn => "Sign In"
  }

  /** The title, the subtitle and the button each tell the modes apart, and
      the button reads differently while a submission is under way. */
  lemma TextsIdentifyMode(m1: Mode, m2: Mode, s1: bool, s2: bool)
    ensures Title(m1) == Title(m2) ==> m1 == m2
    ensures Subtitle(m1) == Subtitle(m2) ==> m1 == m2
    ensures ButtonText(m1, s1) == ButtonText(m2, s2) ==> m1 == m2 && s1 == s2
  {
    if ButtonText(m1, s1) == ButtonText(m2, s2) {
      assert |ButtonText(m1, s1)| == |ButtonText(m2, s2)|;
      assert ButtonText(m1, s1)[0] == ButtonText(m2, s2)[0];
      assert ButtonText(m1, s1)[|ButtonText(m1, s1)| - 1] == ButtonText(m2, s2)[|ButtonText(m2, s2)| - 1];
    }
    if Title(m1) == Title(m2) {
      assert Title(m1)[0] == Title(m2)[0] && |Title(m1)| == |Title(m2)|;
    }
    if Subtitle(m1) == Subtitle(m2) {
      assert Subtitle(m1)[0] == Subtitle(m2)[0] && |Subtitle(m1)| == |Subtitle(m2)|;
    }
  }

  /** The redirect effect: a signed-in user whose session has loaded is
      sent home, except while resetting the password. */
  predicate ShouldRedirect(signedIn: bool, isLoading: bool, mode: Mode)
  {
    signedIn && !isLoading && mode != Reset
  }

  /** A signed-in user whose session has loaded is sent home from the page
      as it first opens, unless the page was opened from a reset link; and
      once a sent reset link has returned the page to sign-in, such a user
      is sent home. */
  lemma RedirectUnlessResetLink(resetParam: Option<string>, isLoading: bool)
    ensures ShouldRedirect(true, isLoading, InitialMode(resetParam))
      <==> !isLoading && resetParam != Some("true")
    ensures !ShouldRedirect(true, isLoading, Reset)
    ensures ShouldRedirect(true, false, SignIn)
  {
  }

  /** The state of the page. */
  class AuthPage {
    var mode: Mode
    var email: string
    var password: string
    var confirmPassword: string
    var isSubmitting: bool
    var errors: Errors

    /** The first render, for the URL's `reset` parameter. */
    constructor(resetParam: Option<string>)
      ensures mode == InitialMode(resetParam)
      ensures email == "" && password == "" && confirmPassword == ""
      ensures !isSubmitting && errors == NoErrors
    {
      mode := if resetParam == Some("true") then Reset else SignIn;
      email, password, confirmPassword := "", "", "";
      isSubmitting := false;
      errors := NoErrors;
    }

    /** Typing in the e-mail field clears its error. */
    method SetEmail(value: string)
      modifies this
      ensures email == value && errors == old(errors).(email := None)
      ensures mode == old(mode) && password == old(password) && confirmPassword == old(confirmPassword)
      ensures isSubmitting == old(isSubmitting)
    {
      email := value;
      errors := errors.(email := None);
    }

    /** Typing in the password field clears its error. */
    method SetPassword(value: string)
      modifies this
      ensures password == value && errors == old(errors).(password := None)
      ensures mode == old(mode) && email == old(email) && confirmPassword == old(confirmPassword)
      ensures isSubmitting == old(isSubmitting)
    {
      password := value;
      errors := errors.(password := None);
    }

    /** Typing in the confirmation field clears its error. */
    method SetConfirmPassword(value: string)
      modifies this
      ensures confirmPassword == value && errors == old(errors).(confirmPassword := None)
      ensures mode == old(mode) && email == old(email) && password == old(password)
      ensures isSubmitting == old(isSubmitting)
    {
      confirmPassword := value;
      errors := errors.(confirmPassword := None);
    }

    /** `validateForm()`: the errors of the current mode are recorded, and
        the form is valid exactly when there are none. */
    method ValidateForm(isEmail: string -> bool) returns (valid: bool)
      modifies this
      ensures errors == FormErrors(mode, email, password, confirmPassword, isEmail)
      ensures valid <==> errors == NoErrors
      ensures mode == old(mode) && email == old(email) && password == old(password)
      ensures confirmPassword == old(confirmPassword) && isSubmitting == old(isSubmitting)
    {
      var newErrors := NoErrors;
      if mode == Forgot {
        if !isEmail(email) {
          newErrors := newErrors.(email := Some(EmailMessage));
        }
      } else if mode == Reset {
        if Utf16Length(password) < MinPasswordLength {
          newErrors := newErrors.(password := Some(PasswordMessage));
        }
        if password != confirmPassword {
          newErrors := newErrors.(confirmPassword := Some(MismatchMessage));
        }
      } else {
        if !isEmail(email) {
          newErrors := newErrors.(email := Some(EmailMessage));
        }
        if Utf16Length(password) < MinPasswordLength {
          newErrors := newErrors.(password := Some(PasswordMessage));
        }
        if mode == SignUp && password != confirmPassword {
          newErrors := newErrors.(confirmPassword := Some(MismatchMessage));
        }
      }
      errors := newErrors;
      valid := newErrors == NoErrors;
    }

    /** Pressing submit, up to the `await` of `handleSubmit`. A shown e-mail
        the browser refuses stops the form before `handleSubmit` runs, so no
        error is recorded; otherwise an invalid form records its errors and
        makes no call, and a valid one starts submitting and returns the call
        of its mode. */
    method HandleSubmit(isEmail: string -> bool, emailAccepted: bool) returns (call: Option<AuthCall>)
      modifies this
      ensures !EmailInputPasses(mode, email, emailAccepted) ==> call.None? && errors == old(errors)
      ensures EmailInputPasses(mode, email, emailAccepted) ==>
        errors == FormErrors(mode, email, password, confirmPassword, isEmail)
        && (call.None? <==> errors != NoErrors)
      ensures call.None? ==> isSubmitting == old(isSubmitting)
      ensures call.Some? ==> isSubmitting && call.value == CallFor(mode, email, password)
      ensures mode == old(mode) && email == old(email) && password == old(password)
      ensures confirmPassword == old(confirmPassword)
    {
      if !EmailInputPasses(mode, email, emailAccepted) {
        return None;
      }
      var valid := ValidateForm(isEmail);
      if !valid {
        return None;
      }
      isSubmitting := true;
      call := Some(CallFor(mode, email, password));
    }

    /** `handleSubmit` after its `await`: the toast, whether the page goes
        home, and the new mode; a sent reset link returns to sign-in, and
        submitting ends whatever happened. */
    method CompleteSubmit(outcome: CallOutcome) returns (toast: Toast, goHome: bool)
      modifies this
      ensures toast == SubmitToast(old(mode), outcome)
      ensures goHome <==> outcome.Succeeded? && old(mode) != Forgot
      ensures mode == (if outcome.Succeeded? && old(mode) == Forgot then SignIn else old(mode))
      ensures !isSubmitting && errors == old(errors)
      ensures email == old(email) && password == old(password) && confirmPassword == old(confirmPassword)
    {
      toast := SubmitToast(mode, outcome);
      goHome := outcome.Succeeded? && mode != Forgot;
      if outcome.Succeeded? && mode == Forgot {
        mode := SignIn;
      }
      isSubmitting := false;
    }

    /** The URL's `reset` parameter changed while the page is shown: when it
        becomes `true` the page switches to reset mode; otherwise nothing
        changes. */
    method UrlChanged(resetParam: Option<string>)
      modifies this
      ensures mode == (if resetParam == Some("true") then Reset else old(mode))
      ensures email == old(email) && password == old(password) && confirmPassword == old(confirmPassword)
      ensures isSubmitting == old(isSubmitting) && errors == old(errors)
    {
      if resetParam == Some("true") {
        mode := Reset;
      }
    }

    /** Following a link the mode shows, while no submission is under way:
        the mode changes and every error is cleared. */
    method Follow(link: Link)
      requires Offered(mode, link) && !isSubmitting
      modifies this
      ensures mode == Target(link) && errors == NoErrors
      ensures email == old(email) && password == old(password) && confirmPassword == old(confirmPassword)
      ensures isSubmitting == old(isSubmitting)
    {
      mode := Target(link);
      errors := NoErrors;
    }
  }
}
