/**
 * The sign-in page: four modes (log in, sign up, forgot password, reset
 * link sent), the links that switch between them, the form fields and the
 * submit and social-login handlers with their loading flag.
 */
module Auth {
  datatype AuthMode = Login | Signup | ForgotPassword | ResetSent

  datatype FormData = FormData(email: string, password: string, confirmPassword: string, fullName: string)

  const EmptyForm := FormData("", "", "", "")

  /** The form's text inputs. */
  datatype Field = Email | Password | ConfirmPassword | FullName

  function Get(f: FormData, field: Field): string {
    match field
    case Email => f.email
    case Password => f.password
    case ConfirmPassword => f.confirmPassword
    case FullName => f.fullName
  }

  /** `setFormData({ ...formData, <field>: value })`. */
  function With(f: FormData, field: Field, value: string): (r: FormData)
    ensures forall g :: Get(r, g) == if g == field then value else Get(f, g)
  {
    match field
    case Email => f.(email := value)
    case Password => f.(password := value)
    case ConfirmPassword => f.(confirmPassword := value)
    case FullName => f.(fullName := value)
  }

  /** Writing one field leaves every other field as it was, and writing it twice keeps the last value. */
  lemma WithOverwrites(f: FormData, field: Field, v1: string, v2: string)
    ensures With(With(f, field, v1), field, v2) == With(f, field, v2)
    ensures With(f, field, Get(f, field)) == f
  {
    var a, b := With(With(f, field, v1), field, v2), With(f, field, v2);
    assert Get(a, Email) == Get(b, Email) && Get(a, Password) == Get(b, Password);
    assert Get(a, ConfirmPassword) == Get(b, ConfirmPassword) && Get(a, FullName) == Get(b, FullName);
    var c := With(f, field, Get(f, field));
    assert Get(c, Email) == Get(f, Email) && Get(c, Password) == Get(f, Password);
    assert Get(c, ConfirmPassword) == Get(f, ConfirmPassword) && Get(c, FullName) == Get(f, FullName);
  }

  const DashboardPath := "/dashboard"
  const WelcomeBackMessage := "Welcome back!"
  const AccountCreatedMessage := "Account created successfully!"

  /** How a submit ends: the reset screen, the mismatch error, or a navigation with its toast. */
  datatype Outcome = ResetLinkSent | PasswordMismatch | Navigated(path: string, message: string)

  /** The result of submitting the form in `mode`, once the simulated request has finished. */
  function SubmitOutcome(mode: AuthMode, form: FormData): (o: Outcome)
    ensures o == ResetLinkSent <==> mode == ForgotPassword
    ensures o == PasswordMismatch <==> mode == Signup && form.password != form.confirmPassword
    ensures o.Navigated? <==> mode in {Login, ResetSent} || (mode == Signup && form.password == form.confirmPassword)
    ensures o.Navigated? ==> o.path == DashboardPath && (o.message == WelcomeBackMessage <==> mode == Login)
  {
    if mode == ForgotPassword then ResetLinkSent
    else if mode == Signup && form.password != form.confirmPassword then PasswordMismatch
    else Navigated(DashboardPath, if mode == Login then WelcomeBackMessage else AccountCreatedMessage)
  }

  /** The mode after a submit: only the forgot-password form changes it. */
  function ModeAfterSubmit(mode: AuthMode): AuthMode {
    if mode == ForgotPassword then ResetSent else mode
  }

  /** The buttons that call `setMode` directly. */
  datatype Link = ForgotPasswordLink | SignUpLink | SignInLink | BackToLoginLink

  /** The links rendered in each mode. */
  function LinksOn(mode: AuthMode): set<Link> {
    match mode
    case Login => {ForgotPasswordLink, SignUpLink}
    case Signup => {SignInLink}
    case ForgotPassword => {BackToLoginLink}
    case ResetSent => {BackToLoginLink}
  }

  function LinkTarget(l: Link): AuthMode {
    match l
    case ForgotPasswordLink => ForgotPassword
    case SignUpLink => Signup
    case SignInLink => Login
    case BackToLoginLink => Login
  }

  /** The links realise exactly the fixed transitions between modes. */
  lemma LinkTransitions(mode: AuthMode, l: Link)
    requires l in LinksOn(mode)
    ensures mode == Login ==> LinkTarget(l) in {ForgotPassword, Signup}
    ensures mode != Login ==> LinkTarget(l) == Login
    ensures LinkTarget(l) != ResetSent
  {
  }

  /** The social-login buttons are shown outside the forgot-password form. */
  predicate ShowsSocialLogin(mode: AuthMode) {
    mode != ForgotPassword && mode != ResetSent
  }

  /** The social buttons sit beside the forms that take a password: log in and
      sign up, whose submit leads to the dashboard when it succeeds. */
  lemma SocialLoginWithPasswordForms(mode: AuthMode)
    ensures ShowsSocialLogin(mode) <==> mode == Login || mode == Signup
    ensures ShowsSocialLogin(mode) ==> SubmitOutcome(mode, EmptyForm).Navigated?
    ensures !ShowsSocialLogin(mode) ==> SignUpLink !in LinksOn(mode) && SignInLink !in LinksOn(mode)
  {
  }

  /** Everything the user can do on the page that may change the mode. */
  datatype Event = Submit(form: FormData) | Follow(link: Link) | SocialLogin(provider: string)

  function Step(mode: AuthMode, e: Event): AuthMode {
    match e
    case Submit(_) => ModeAfterSubmit(mode)
    case Follow(l) => LinkTarget(l)
    case SocialLogin(_) => mode
  }

  /** The reset screen is entered only by submitting the forgot-password form,
      and that submit always enters it. */
  lemma ResetSentOnlyFromForgot(mode: AuthMode, e: Event)
    requires mode != ResetSent
    ensures Step(mode, e) == ResetSent <==> mode == ForgotPassword && e.Submit?
  {
  }

  /** A submit navigates to the dashboard exactly when it neither sends a reset link nor fails the check. */
  lemma SubmitNavigatesUnlessStopped(mode: AuthMode, form: FormData)
    ensures SubmitOutcome(mode, form).Navigated? <==>
      mode != ForgotPassword && !(mode == Signup && form.password != form.confirmPassword)
    ensures SubmitOutcome(mode, form).Navigated? ==> ModeAfterSubmit(mode) == mode
  {
  }

  class AuthPage {
    var mode: AuthMode
    var showPassword: bool
    var isLoading: bool
    var formData: FormData

    constructor ()
      ensures mode == Login && !showPassword && !isLoading && formData == EmptyForm
    {
      mode := Login;
      showPassword := false;
      isLoading := false;
      formData := EmptyForm;
    }

    /** An input's `onChange`. */
    method SetField(field: Field, value: string)
      modifies this
      ensures formData == With(old(formData), field, value)
      ensures mode == old(mode) && showPassword == old(showPassword) && isLoading == old(isLoading)
    {
      formData := With(formData, field, value);
    }

    method ToggleShowPassword()
      modifies this
      ensures showPassword == !old(showPassword)
      ensures mode == old(mode) && isLoading == old(isLoading) && formData == old(formData)
    {
      showPassword := !showPassword;
    }

    method FollowLink(l: Link)
      modifies this
      ensures mode == LinkTarget(l)
      ensures showPassword == old(showPassword) && isLoading == old(isLoading) && formData == old(formData)
    {
      mode := LinkTarget(l);
    }

    /** The part of `handleSubmit` before the simulated request. */
    method BeginSubmit()
      modifies this
      ensures isLoading
      ensures mode == old(mode) && showPassword == old(showPassword) && formData == old(formData)
    {
      isLoading := true;
    }

    /** The part of `handleSubmit` after the simulated request, with its early returns. */
    method FinishSubmit() returns (o: Outcome)
      modifies this
      ensures o == SubmitOutcome(old(mode), formData)
      ensures mode == ModeAfterSubmit(old(mode)) && !isLoading
      ensures showPassword == old(showPassword) && formData == old(formData)
    {
      if mode == ForgotPassword {
        mode := ResetSent;
        isLoading := false;
        return ResetLinkSent;
      }
      if mode == Signup && formData.password != formData.confirmPassword {
        isLoading := false;
        return PasswordMismatch;
      }
      o := Navigated(DashboardPath, if mode == Login then WelcomeBackMessage else AccountCreatedMessage);
      isLoading := false;
    }

    method HandleSubmit() returns (o: Outcome)
      modifies this
      ensures o == SubmitOutcome(old(mode), old(formData))
      ensures mode == Step(old(mode), Submit(old(formData))) && !isLoading
      ensures showPassword == old(showPassword) && formData == old(formData)
    {
      BeginSubmit();
      o := FinishSubmit();
    }

    method HandleSocialLogin(provider: string) returns (o: Outcome)
      modifies this
      ensures o == Navigated(DashboardPath, "Signed in with " + provider)
      ensures mode == old(mode) && !isLoading
      ensures showPassword == old(showPassword) && formData == old(formData)
    {
      isLoading := true;
      isLoading := false;
      o := Navigated(DashboardPath, "Signed in with " + provider);
    }
  }
}
