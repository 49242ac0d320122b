/**
  The login modal (`LoginModal`): a six-screen step machine driven by the
  email form, the account-check reply, login, sign-up and password-reset
  requests, together with the input and error cells of its forms.

  Every handler is modelled twice: as a function from one `LoginState` to the
  next, which the lemmas talk about, and as a method of the `LoginModal`
  class, which updates the fields in place and is proved to follow that
  function. A handler that awaits the server is split in two: the part up to
  the request, and the part that runs when the reply (a parameter) settles.
 */
module Login {
  import opened Common

  datatype Screen =
    | SelectProvider
    | LoginWithEmailForm
    | SignupForm
    | VerifyEmail
    | ForgotPassword
    | ForgotPasswordEmailSent

  /** An error cell holds `false`, `true` or a message. */
  datatype ErrorCell = Cleared | Flagged | Shown(text: string)

  /** Whether the cell renders (JavaScript truthiness). */
  predicate Showing(c: ErrorCell) {
    c.Flagged? || (c.Shown? && c.text != "")
  }

  datatype LoginState = LoginState(
    step: Screen,
    email: string,
    emailError: ErrorCell,
    firstName: string,
    firstNameError: ErrorCell,
    lastName: string,
    lastNameError: ErrorCell,
    password: string,
    passwordError: ErrorCell,
    miscError: ErrorCell,
    isLoading: bool)

  const Initial: LoginState :=
    LoginState(SelectProvider, "", Cleared, "", Cleared, "", Cleared, "", Cleared, Cleared, false)

  predicate NoErrors(s: LoginState) {
    s.emailError == Cleared && s.firstNameError == Cleared && s.lastNameError == Cleared
      && s.passwordError == Cleared && s.miscError == Cleared
  }

  /** Everything but the five error cells agrees. */
  predicate SameApartFromErrors(s: LoginState, t: LoginState) {
    s.step == t.step && s.email == t.email && s.firstName == t.firstName && s.lastName == t.lastName
      && s.password == t.password && s.isLoading == t.isLoading
  }

  // Messages
  const InvalidEmailMessage: string := "Enter a valid email"
  const GoogleAccountMessage: string := "Account already exists. Please login with Google."
  const UnverifiedMessage: string := "Account not yet verified. Click on the verification link sent to your email."
  const TryAgainMessage: string := "Something went wrong. Please try again later."
  const EmptyPasswordMessage: string := "Enter a password"
  const EmptyFirstNameMessage: string := "First name cannot be empty"
  const EmptyLastNameMessage: string := "Last name cannot be empty"
  const ShortPasswordMessage: string := "Password must be at least 9 characters long"
  const ResetFailedMessage: string := "Something went wrong. Try again later."

  /** The shortest password sign-up accepts. */
  const MinPasswordLength: nat := 9

  // ---------------------------------------------------------------------------
  // resetErrors, reset

  /** `resetErrors()`. */
  function ErrorsCleared(s: LoginState): (t: LoginState)
    ensures NoErrors(t) && SameApartFromErrors(s, t)
  {
    s.(emailError := Cleared, firstNameError := Cleared, lastNameError := Cleared,
       passwordError := Cleared, miscError := Cleared)
  }

  /** `reset()`: errors cleared, inputs emptied, not loading, back to the provider screen. */
  function Reset(s: LoginState): (t: LoginState)
    ensures NoErrors(t) && !t.isLoading && t.step == SelectProvider
    ensures t.email == "" && t.firstName == "" && t.lastName == "" && t.password == ""
  {
    Initial
  }

  // ---------------------------------------------------------------------------
  // checkIfAccountExistsApi

  /**
    Submitting the email form: errors are cleared first; a valid email starts
    the request, an invalid one only raises the email error.
   */
  function AccountCheckSubmitted(s: LoginState, emailValid: bool): (t: LoginState)
    ensures t.step == s.step && t.email == s.email && t.password == s.password
    ensures t.firstNameError == Cleared && t.lastNameError == Cleared
    ensures t.passwordError == Cleared && t.miscError == Cleared
    ensures emailValid ==> t.isLoading && t.emailError == Cleared
    ensures !emailValid ==> t.isLoading == s.isLoading && t.emailError == Shown(InvalidEmailMessage)
  {
    var c := ErrorsCleared(s);
    if emailValid then c.(isLoading := true) else c.(emailError := Shown(InvalidEmailMessage))
  }

  /** The account-check reply: the account's data, or a failed request. */
  datatype AccountReply = AccountCheckFailed | AccountData(exists_: bool, auth: string, isVerified: bool)

  /**
    The account-check reply settles. No account leads to sign-up; a verified
    email account leads to the password form; every other existing account
    stays on the same screen with a message. Loading ends in all cases.
   */
  function AccountCheckSettled(s: LoginState, reply: AccountReply): (t: LoginState)
    ensures !t.isLoading
    ensures reply.AccountData? && !reply.exists_ ==> t.step == SignupForm
    ensures reply.AccountData? && reply.exists_ && reply.auth == "email" && reply.isVerified ==>
              t.step == LoginWithEmailForm
    ensures reply.AccountData? && reply.exists_ && !(reply.auth == "email" && reply.isVerified) ==>
              t.step == s.step && Showing(t.miscError)
    ensures reply.AccountCheckFailed? ==> t == s.(isLoading := false)
  {
    var t := match reply
      case AccountCheckFailed => s
      case AccountData(exists_, auth, isVerified) =>
        if exists_ then
          if auth == "google" then s.(miscError := Shown(GoogleAccountMessage))
          else if auth == "email" then
            if isVerified then s.(step := LoginWithEmailForm) else s.(miscError := Shown(UnverifiedMessage))
          else s.(miscError := Shown(TryAgainMessage))
        else s.(step := SignupForm);
    t.(isLoading := false)
  }

  // ---------------------------------------------------------------------------
  // loginApi

  /** Submitting the password: an empty one is refused before loading starts. */
  function LoginSubmitted(s: LoginState): (t: LoginState)
    ensures |s.password| == 0 ==> t == s.(passwordError := Shown(EmptyPasswordMessage))
    ensures |s.password| > 0 ==> t.isLoading && t.passwordError == Cleared && t.step == s.step
  {
    if |s.password| == 0 then s.(passwordError := Shown(EmptyPasswordMessage))
    else s.(passwordError := Cleared, isLoading := true)
  }

  datatype LoginReply = LoginFailed(message: string) | LoginSucceeded

  /** The login reply settles; a failure shows the server's message. */
  function LoginSettled(s: LoginState, reply: LoginReply): (t: LoginState)
    ensures !t.isLoading && t.step == s.step
    ensures reply.LoginFailed? ==> t.miscError == Shown(reply.message)
    ensures reply.LoginSucceeded? ==> t == s.(isLoading := false)
  {
    match reply
    case LoginFailed(m) => s.(miscError := Shown(m), isLoading := false)
    case LoginSucceeded => s.(isLoading := false)
  }

  /** What the user fetch after a login yields: no user, or a user record. */
  datatype UserReply = NoUser | UserRecord(hasSeenOrcidConnectModal: bool, hasAuthorProfile: bool)

  /**
    Whether the modal reaches `_handleClose()` after the user record loads.
    A login callback returns first. A user who has not seen the ORCID modal
    is sent to onboarding, which reads the user's id and author profile id;
    without a user or a profile that read throws and the modal stays as it is.
   */
  predicate ClosesAfterLogin(hasLoginCallback: bool, user: UserReply) {
    !hasLoginCallback && user.UserRecord? && (user.hasSeenOrcidConnectModal || user.hasAuthorProfile)
  }

  /** Whether the modal sends the user to the onboarding page on the way. */
  predicate RedirectsToOnboarding(hasLoginCallback: bool, user: UserReply) {
    !hasLoginCallback && user.UserRecord? && !user.hasSeenOrcidConnectModal && user.hasAuthorProfile
  }

  /** The user record has loaded after a login: the modal closes and resets exactly when `_handleClose()` is reached. */
  function UserLoaded(s: LoginState, hasLoginCallback: bool, user: UserReply): (t: LoginState)
    ensures ClosesAfterLogin(hasLoginCallback, user) ==> t == Initial
    ensures !ClosesAfterLogin(hasLoginCallback, user) ==> t == s
    ensures hasLoginCallback || user.NoUser? ==> t == s
    ensures RedirectsToOnboarding(hasLoginCallback, user) ==> t == Initial
  {
    if ClosesAfterLogin(hasLoginCallback, user) then Reset(s) else s
  }

  // ---------------------------------------------------------------------------
  // createAccountApi

  predicate PasswordAccepted(password: string) {
    |password| >= MinPasswordLength
  }

  /** Whether sign-up sends its request: both names given and the password long enough. */
  predicate SignupValid(s: LoginState) {
    |s.firstName| > 0 && |s.lastName| > 0 && PasswordAccepted(s.password)
  }

  /**
    Submitting the sign-up form: each of the three checks raises its own error
    independently of the others, and the request is sent only if none failed.
   */
  function SignupSubmitted(s: LoginState): (t: LoginState)
    ensures t.firstNameError == if |s.firstName| == 0 then Shown(EmptyFirstNameMessage) else s.firstNameError
    ensures t.lastNameError == if |s.lastName| == 0 then Shown(EmptyLastNameMessage) else s.lastNameError
    ensures t.passwordError == if !PasswordAccepted(s.password) then Shown(ShortPasswordMessage) else s.passwordError
    ensures t.isLoading == (SignupValid(s) || s.isLoading)
    ensures t.step == s.step && t.miscError == s.miscError && t.emailError == s.emailError
  {
    var a := if |s.firstName| == 0 then s.(firstNameError := Shown(EmptyFirstNameMessage)) else s;
    var b := if |s.lastName| == 0 then a.(lastNameError := Shown(EmptyLastNameMessage)) else a;
    var c := if !PasswordAccepted(s.password) then b.(passwordError := Shown(ShortPasswordMessage)) else b;
    if SignupValid(s) then c.(isLoading := true) else c
  }

  /** The sign-up reply: created, refused with the server's first field message (if any), or failed. */
  datatype SignupReply = SignupCreated | SignupRefused(firstMessage: Option<string>) | SignupFailed

  function SignupErrorMessage(reply: SignupReply): string
    requires !reply.SignupCreated?
  {
    match reply
    case SignupRefused(Some(m)) => if m != "" then m else TryAgainMessage
    case _ => TryAgainMessage
  }

  /** The error path's message is never empty, so it would render if it stayed. */
  lemma SignupErrorMessageShows(reply: SignupReply)
    requires !reply.SignupCreated?
    ensures Showing(Shown(SignupErrorMessage(reply)))
  {
  }

  /**
    The sign-up reply settling exactly as written: the `finally` block calls
    `resetErrors()`, which also clears the message the error path just set.
   */
  function SignupSettledAsWritten(s: LoginState, reply: SignupReply): LoginState {
    var t := if reply.SignupCreated? then s.(step := VerifyEmail) else s.(miscError := Shown(SignupErrorMessage(reply)));
    ErrorsCleared(t).(isLoading := false)
  }

  /** As written, a refused or failed sign-up leaves no message on screen. */
  lemma SignupErrorIsLostAsWritten(s: LoginState, reply: SignupReply)
    requires !reply.SignupCreated?
    ensures SignupSettledAsWritten(s, reply).miscError == Cleared
    ensures !Showing(SignupSettledAsWritten(s, reply).miscError)
  {
  }

  /**
    The sign-up reply settling with the `finally` block still clearing the
    errors but no longer the message the error path sets: success moves to the
    verify-email screen with no error left, and any failure keeps its message
    on screen.
   */
  function SignupSettled(s: LoginState, reply: SignupReply): (t: LoginState)
    ensures !t.isLoading
    ensures reply.SignupCreated? ==> t.step == VerifyEmail && NoErrors(t)
    ensures !reply.SignupCreated? ==> t.step == s.step && t.miscError == Shown(SignupErrorMessage(reply)) && Showing(t.miscError)
    ensures t.emailError == Cleared && t.firstNameError == Cleared && t.lastNameError == Cleared && t.passwordError == Cleared
    ensures t.email == s.email && t.firstName == s.firstName && t.lastName == s.lastName && t.password == s.password
  {
    var c := ErrorsCleared(s);
    if reply.SignupCreated? then c.(step := VerifyEmail, isLoading := false)
    else c.(miscError := Shown(SignupErrorMessage(reply)), isLoading := false)
  }

  /** The correction changes only the message cell of a failed sign-up; a success settles as written. */
  lemma SignupCorrectionOnlyKeepsMessage(s: LoginState, reply: SignupReply)
    ensures reply.SignupCreated? ==> SignupSettled(s, reply) == SignupSettledAsWritten(s, reply)
    ensures !reply.SignupCreated? ==>
              SignupSettled(s, reply) == SignupSettledAsWritten(s, reply).(miscError := Shown(SignupErrorMessage(reply)))
  {
  }

  // ---------------------------------------------------------------------------
  // resetPasswordApi

  /** Requesting a reset link: an invalid email only raises the email error. */
  function ResetRequested(s: LoginState, emailValid: bool): (t: LoginState)
    ensures !emailValid ==> t == s.(emailError := Shown(InvalidEmailMessage))
    ensures emailValid ==> t == s.(isLoading := true)
  {
    if emailValid then s.(isLoading := true) else s.(emailError := Shown(InvalidEmailMessage))
  }

  datatype ResetReply = ResetEmailSent | ResetFailed

  /** The reset reply settling exactly as written, with `resetErrors()` in the `finally` block. */
  function ResetSettledAsWritten(s: LoginState, reply: ResetReply): LoginState {
    var t := if reply.ResetEmailSent? then s.(step := ForgotPasswordEmailSent) else s.(miscError := Shown(ResetFailedMessage));
    ErrorsCleared(t).(isLoading := false)
  }

  /** As written, a failed reset request leaves no message on screen. */
  lemma ResetErrorIsLostAsWritten(s: LoginState)
    ensures ResetSettledAsWritten(s, ResetFailed).miscError == Cleared
    ensures ResetSettledAsWritten(s, ResetFailed).step == s.step
  {
  }

  /**
    The reset reply settling with the `finally` block still clearing the
    errors but no longer the message the error path sets.
   */
  function ResetSettled(s: LoginState, reply: ResetReply): (t: LoginState)
    ensures !t.isLoading
    ensures reply.ResetEmailSent? ==> t.step == ForgotPasswordEmailSent && NoErrors(t)
    ensures reply.ResetFailed? ==> t.step == s.step && t.miscError == Shown(ResetFailedMessage) && Showing(t.miscError)
    ensures t.emailError == Cleared && t.firstNameError == Cleared && t.lastNameError == Cleared && t.passwordError == Cleared
    ensures t.email == s.email && t.password == s.password
  {
    var c := ErrorsCleared(s);
    if reply.ResetEmailSent? then c.(step := ForgotPasswordEmailSent, isLoading := false)
    else c.(miscError := Shown(ResetFailedMessage), isLoading := false)
  }

  /** The correction changes only the message cell of a failed reset; a sent link settles as written. */
  lemma ResetCorrectionOnlyKeepsMessage(s: LoginState, reply: ResetReply)
    ensures reply.ResetEmailSent? ==> ResetSettled(s, reply) == ResetSettledAsWritten(s, reply)
    ensures reply.ResetFailed? ==> ResetSettled(s, reply) == ResetSettledAsWritten(s, reply).(miscError := Shown(ResetFailedMessage))
  {
  }

  // ---------------------------------------------------------------------------
  // Navigation and inputs

  /** The screens that show the back arrow. */
  predicate BackShown(step: Screen) {
    step == LoginWithEmailForm || step == SignupForm || step == ForgotPassword
  }

  /** The back arrow: errors cleared, back to the provider screen. */
  function WentBack(s: LoginState): (t: LoginState)
    ensures t.step == SelectProvider && NoErrors(t)
    ensures t.email == s.email && t.password == s.password && t.isLoading == s.isLoading
    ensures t.firstName == s.firstName && t.lastName == s.lastName
  {
    ErrorsCleared(s).(step := SelectProvider)
  }

  /** Typing in an email field: any non-empty value clears the email error. */
  function EmailChanged(s: LoginState, value: string): (t: LoginState)
    ensures t.email == value
    ensures t.emailError == if |value| > 0 then Cleared else s.emailError
  {
    (if |value| > 0 then s.(emailError := Cleared) else s).(email := value)
  }

  /** Typing in the login password field: the error flag tracks emptiness. */
  function LoginPasswordChanged(s: LoginState, value: string): (t: LoginState)
    ensures t.password == value
    ensures t.passwordError == if |value| == 0 then Flagged else Cleared
  {
    s.(passwordError := if |value| == 0 then Flagged else Cleared, password := value)
  }

  function FirstNameChanged(s: LoginState, value: string): (t: LoginState)
    ensures t.firstName == value
    ensures t.firstNameError == if |value| > 0 then Cleared else s.firstNameError
  {
    (if |value| > 0 then s.(firstNameError := Cleared) else s).(firstName := value)
  }

  function LastNameChanged(s: LoginState, value: string): (t: LoginState)
    ensures t.lastName == value
    ensures t.lastNameError == if |value| > 0 then Cleared else s.lastNameError
  {
    (if |value| > 0 then s.(lastNameError := Cleared) else s).(lastName := value)
  }

  /** Typing in the sign-up password field: a value longer than eight characters clears the error. */
  function SignupPasswordChanged(s: LoginState, value: string): (t: LoginState)
    ensures t.password == value
    ensures t.passwordError == if |value| > 8 then Cleared else s.passwordError
  {
    (if |value| > 8 then s.(passwordError := Cleared) else s).(password := value)
  }

  /**
    The sign-up password field clears its error exactly for the passwords the
    submit check accepts, so a cleared error is never raised again by the same
    password.
   */
  lemma SignupPasswordThresholdsAgree(s: LoginState, value: string)
    requires s.passwordError != Cleared
    ensures SignupPasswordChanged(s, value).passwordError == Cleared <==> PasswordAccepted(value)
    ensures PasswordAccepted(value) ==>
              SignupSubmitted(SignupPasswordChanged(s, value)).passwordError == Cleared
  {
  }

  // ---------------------------------------------------------------------------
  // The step machine

  /** What can happen to the modal: a user action, or a server reply settling. */
  datatype Event =
    | EmailTyped(value: string)
    | LoginPasswordTyped(value: string)
    | FirstNameTyped(value: string)
    | LastNameTyped(value: string)
    | SignupPasswordTyped(value: string)
    | ContinueWithEmail
    | AccountCheckReplied(accountReply: AccountReply)
    | LogIn
    | LoginReplied(loginReply: LoginReply)
    | UserRecordLoaded(hasLoginCallback: bool, user: UserReply)
    | SignUp
    | SignupReplied(signupReply: SignupReply)
    | ForgotPasswordClicked
    | SendResetEmail
    | ResetReplied(resetReply: ResetReply)
    | BackClicked
    | CloseClicked
    | ModalHidden

  /** The events no screen hides: server replies, the close button and the modal being hidden. */
  predicate AlwaysAvailable(e: Event) {
    || e.AccountCheckReplied? || e.LoginReplied? || e.UserRecordLoaded? || e.SignupReplied? || e.ResetReplied?
    || e.CloseClicked? || e.ModalHidden?
  }

  /** Whether the screen renders the control an event comes from. */
  function Rendered(step: Screen, e: Event): (r: bool)
    ensures AlwaysAvailable(e) ==> r
    ensures step == VerifyEmail || step == ForgotPasswordEmailSent ==> (r <==> AlwaysAvailable(e))
    ensures r && (e.EmailTyped? || e.ContinueWithEmail?) ==> step == SelectProvider || step == ForgotPassword
    ensures r && (e.FirstNameTyped? || e.LastNameTyped? || e.SignupPasswordTyped? || e.SignUp?) ==> step == SignupForm
    ensures r && (e.LoginPasswordTyped? || e.LogIn? || e.ForgotPasswordClicked?) ==> step == LoginWithEmailForm
  {
    match e
    case EmailTyped(_) => step == SelectProvider || step == ForgotPassword
    case ContinueWithEmail => step == SelectProvider
    case LoginPasswordTyped(_) => step == LoginWithEmailForm
    case LogIn => step == LoginWithEmailForm
    case ForgotPasswordClicked => step == LoginWithEmailForm
    case FirstNameTyped(_) => step == SignupForm
    case LastNameTyped(_) => step == SignupForm
    case SignupPasswordTyped(_) => step == SignupForm
    case SignUp => step == SignupForm
    case SendResetEmail => step == ForgotPassword
    case BackClicked => BackShown(step)
    case _ => true
  }

  /** The events that only edit one form field. */
  predicate Typing(e: Event) {
    e.EmailTyped? || e.LoginPasswordTyped? || e.FirstNameTyped? || e.LastNameTyped? || e.SignupPasswordTyped?
  }

  /**
    One step of the modal; `isValidEmail` is the validator the modal imports.
    A control the screen does not render changes nothing, closing always
    resets, typing never changes the screen, the loading state or the message
    cell, and submitting a form stays on its screen until the reply settles.
   */
  function Next(isValidEmail: string -> bool, s: LoginState, e: Event): (t: LoginState)
    ensures !Rendered(s.step, e) ==> t == s
    ensures e.CloseClicked? || e.ModalHidden? ==> t == Initial
    ensures Typing(e) ==> t.step == s.step && t.isLoading == s.isLoading && t.miscError == s.miscError
    ensures e.ContinueWithEmail? || e.LogIn? || e.SignUp? || e.SendResetEmail? ==> t.step == s.step
  {
    if !Rendered(s.step, e) then s
    else
      match e
      case EmailTyped(v) => EmailChanged(s, v)
      case LoginPasswordTyped(v) => LoginPasswordChanged(s, v)
      case FirstNameTyped(v) => FirstNameChanged(s, v)
      case LastNameTyped(v) => LastNameChanged(s, v)
      case SignupPasswordTyped(v) => SignupPasswordChanged(s, v)
      case ContinueWithEmail => AccountCheckSubmitted(s, isValidEmail(s.email))
      case AccountCheckReplied(r) => AccountCheckSettled(s, r)
      case LogIn => LoginSubmitted(s)
      case LoginReplied(r) => LoginSettled(s, r)
      case UserRecordLoaded(cb, u) => UserLoaded(s, cb, u)
      case SignUp => SignupSubmitted(s)
      case SignupReplied(r) => SignupSettled(s, r)
      case ForgotPasswordClicked => s.(step := ForgotPassword)
      case SendResetEmail => ResetRequested(s, isValidEmail(s.email))
      case ResetReplied(r) => ResetSettled(s, r)
      case BackClicked => WentBack(s)
      case CloseClicked => Reset(ErrorsCleared(s))
      case ModalHidden => Reset(s)
  }

  /** The events through which each screen can be entered. */
  predicate Enters(step: Screen, e: Event) {
    match step
    case SelectProvider => e.BackClicked? || e.CloseClicked? || e.ModalHidden? || (e.UserRecordLoaded? && ClosesAfterLogin(e.hasLoginCallback, e.user))
    case LoginWithEmailForm =>
      e.AccountCheckReplied? && e.accountReply.AccountData? && e.accountReply.exists_
        && e.accountReply.auth == "email" && e.accountReply.isVerified
    case SignupForm => e.AccountCheckReplied? && e.accountReply.AccountData? && !e.accountReply.exists_
    case VerifyEmail => e == SignupReplied(SignupCreated)
    case ForgotPassword => e == ForgotPasswordClicked
    case ForgotPasswordEmailSent => e == ResetReplied(ResetEmailSent)
  }

  /** Every change of screen happens through one of the entry events of the new screen. */
  lemma {:induction false} StepChangesOnlyByEntries(isValidEmail: string -> bool, s: LoginState, e: Event)
    ensures var t := Next(isValidEmail, s, e); t.step != s.step ==> Enters(t.step, e)
  {
    var t := Next(isValidEmail, s, e);
    if t.step != s.step && Rendered(s.step, e) {
      match e
      case AccountCheckReplied(r) =>
        assert r.AccountData?;
      case _ =>
    }
  }

  /** The events that run `resetErrors` leave no error behind. */
  lemma ClearingEventsClearErrors(isValidEmail: string -> bool, s: LoginState, e: Event)
    requires e.BackClicked? || e.CloseClicked? || e.ModalHidden?
    requires Rendered(s.step, e)
    ensures NoErrors(Next(isValidEmail, s, e)) && Next(isValidEmail, s, e).step == SelectProvider
  {
  }

  // ---------------------------------------------------------------------------
  // The modal's state cells

  class LoginModal {
    const isValidEmail: string -> bool
    var step: Screen
    var email: string
    var emailError: ErrorCell
    var firstName: string
    var firstNameError: ErrorCell
    var lastName: string
    var lastNameError: ErrorCell
    var password: string
    var passwordError: ErrorCell
    var miscError: ErrorCell
    var isLoading: bool

    function State(): LoginState
      reads this
    {
      LoginState(step, email, emailError, firstName, firstNameError, lastName, lastNameError,
                 password, passwordError, miscError, isLoading)
    }

    constructor (isValidEmail: string -> bool)
      ensures this.isValidEmail == isValidEmail && State() == Initial
    {
      this.isValidEmail := isValidEmail;
      step, email, firstName, lastName, password := SelectProvider, "", "", "", "";
      emailError, firstNameError, lastNameError, passwordError, miscError := Cleared, Cleared, Cleared, Cleared, Cleared;
      isLoading := false;
    }

    /** `resetErrors()`. */
    method ResetErrors()
      modifies this
      ensures State() == ErrorsCleared(old(State()))
    {
      miscError := Cleared;
      emailError := Cleared;
      firstNameError := Cleared;
      lastNameError := Cleared;
      passwordError := Cleared;
    }

    /** `reset()`. */
    method Reset()
      modifies this
      ensures State() == Initial
    {
      ResetErrors();
      email := "";
      firstName := "";
      lastName := "";
      password := "";
      isLoading := false;
      step := SelectProvider;
    }

    /** `checkIfAccountExistsApi` up to the request; `sent` says whether it went out. */
    method CheckIfAccountExists() returns (sent: bool)
      modifies this
      ensures sent == isValidEmail(old(email))
      ensures State() == AccountCheckSubmitted(old(State()), sent)
    {
      ResetErrors();
      if isValidEmail(email) {
        isLoading := true;
        sent := true;
      } else {
        emailError := Shown(InvalidEmailMessage);
        sent := false;
      }
    }

    /** The account-check request settling with `reply`. */
    method SettleAccountCheck(reply: AccountReply)
      modifies this
      ensures State() == AccountCheckSettled(old(State()), reply)
    {
      if reply.AccountData? {
        if reply.exists_ {
          if reply.auth == "google" {
            miscError := Shown(GoogleAccountMessage);
          } else if reply.auth == "email" {
            if reply.isVerified {
              step := LoginWithEmailForm;
            } else {
              miscError := Shown(UnverifiedMessage);
            }
          } else {
            miscError := Shown(TryAgainMessage);
          }
        } else {
          step := SignupForm;
        }
      }
      isLoading := false;
    }

    /** `loginApi` up to the request. */
    method Login() returns (sent: bool)
      modifies this
      ensures sent == (|old(password)| > 0)
      ensures State() == LoginSubmitted(old(State()))
    {
      if |password| == 0 {
        passwordError := Shown(EmptyPasswordMessage);
        return false;
      }
      passwordError := Cleared;
      isLoading := true;
      sent := true;
    }

    /** The login request settling with `reply`. */
    method SettleLogin(reply: LoginReply)
      modifies this
      ensures State() == LoginSettled(old(State()), reply)
    {
      if reply.LoginFailed? {
        miscError := Shown(reply.message);
      }
      isLoading := false;
    }

    /**
      The user record arriving after a successful login. A missing user or
      author profile makes the onboarding redirect throw before the modal
      closes.
     */
    method SettleUser(hasLoginCallback: bool, user: UserReply)
      modifies this
      ensures State() == UserLoaded(old(State()), hasLoginCallback, user)
    {
      if hasLoginCallback {
        return;
      }
      if user.NoUser? {
        return;
      }
      if !user.hasSeenOrcidConnectModal && !user.hasAuthorProfile {
        return;
      }
      Reset();
    }

    /** `createAccountApi` up to the request: three independent checks accumulated in `hasErrors`. */
    method CreateAccount() returns (sent: bool)
      modifies this
      ensures sent == SignupValid(old(State()))
      ensures State() == SignupSubmitted(old(State()))
    {
      var hasErrors := false;
      if |firstName| == 0 {
        hasErrors := true;
        firstNameError := Shown(EmptyFirstNameMessage);
      }
      if |lastName| == 0 {
        hasErrors := true;
        lastNameError := Shown(EmptyLastNameMessage);
      }
      if |password| < MinPasswordLength {
        hasErrors := true;
        passwordError := Shown(ShortPasswordMessage);
      }
      if !hasErrors {
        isLoading := true;
      }
      sent := !hasErrors;
    }

    /** The sign-up request settling with `reply`; the errors are cleared before the error path sets its message. */
    method SettleCreateAccount(reply: SignupReply)
      modifies this
      ensures State() == SignupSettled(old(State()), reply)
    {
      ResetErrors();
      if reply.SignupCreated? {
        step := VerifyEmail;
      } else {
        miscError := Shown(SignupErrorMessage(reply));
      }
      isLoading := false;
    }

    /** `resetPasswordApi` up to the request. */
    method ResetPassword() returns (sent: bool)
      modifies this
      ensures sent == isValidEmail(old(email))
      ensures State() == ResetRequested(old(State()), sent)
    {
      if !isValidEmail(email) {
        emailError := Shown(InvalidEmailMessage);
        return false;
      }
      isLoading := true;
      sent := true;
    }

    /** The reset request settling with `reply`; the errors are cleared before the error path sets its message. */
    method SettleResetPassword(reply: ResetReply)
      modifies this
      ensures State() == ResetSettled(old(State()), reply)
    {
      ResetErrors();
      if reply.ResetEmailSent? {
        step := ForgotPasswordEmailSent;
      } else {
        miscError := Shown(ResetFailedMessage);
      }
      isLoading := false;
    }

    /** The back arrow, on the screens that show it. */
    method GoBack()
      requires BackShown(step)
      modifies this
      ensures State() == WentBack(old(State()))
    {
      ResetErrors();
      step := SelectProvider;
    }

    /** The "Forgot password?" link of the password form. */
    method OpenForgotPassword()
      requires step == LoginWithEmailForm
      modifies this
      ensures State() == old(State()).(step := ForgotPassword)
    {
      step := ForgotPassword;
    }

    /** The close button: `resetErrors()` then `_handleClose()`, which resets. */
    method Close()
      modifies this
      ensures State() == Initial
    {
      ResetErrors();
      Reset();
    }

    method ChangeEmail(value: string)
      modifies this
      ensures State() == EmailChanged(old(State()), value)
    {
      if |value| > 0 {
        emailError := Cleared;
      }
      email := value;
    }

    method ChangeLoginPassword(value: string)
      modifies this
      ensures State() == LoginPasswordChanged(old(State()), value)
    {
      if |value| == 0 {
        passwordError := Flagged;
      } else {
        passwordError := Cleared;
      }
      password := value;
    }

    method ChangeFirstName(value: string)
      modifies this
      ensures State() == FirstNameChanged(old(State()), value)
    {
      if |value| > 0 {
        firstNameError := Cleared;
      }
      firstName := value;
    }

    method ChangeLastName(value: string)
      modifies this
      ensures State() == LastNameChanged(old(State()), value)
    {
      if |value| > 0 {
        lastNameError := Cleared;
      }
      lastName := value;
    }

    method ChangeSignupPassword(value: string)
      modifies this
      ensures State() == SignupPasswordChanged(old(State()), value)
    {
      if |value| > 8 {
        passwordError := Cleared;
      }
      password := value;
    }
  }
}
