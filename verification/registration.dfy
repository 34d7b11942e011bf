/**
 * The Register page's submit: the form is posted only when every field
 * passes its rule; the reply decides the banner text and whether the app
 * moves on to /login. Unlike Login, the banner is never left blank after a
 * failure, because both failure paths fall back to a fixed message.
 */
module Registration {
  import opened Common
  import opened Validators

  const FallbackError := "Something went wrong"
  const NetworkError := "Network error or server is unreachable."

  /** The page's state: the banner text (shown when non-empty) and the submitting flag. */
  datatype SignupScreen = SignupScreen(apiError: string, isSubmit: bool)

  const SignupInitial: SignupScreen := SignupScreen("", false)

  /** The result of a submit: the new screen, the form that was posted if any, where the app navigates. */
  datatype SignupStep = SignupStep(screen: SignupScreen, sent: Option<RegisterForm>, navigateTo: Option<string>)

  /**
   * `register`. A non-ok reply shows the server's `error` field, or the
   * fallback text when that is missing or empty; an ok reply clears the banner
   * and goes to /login; when no JSON reply arrives the network text is shown.
   * `isSubmit` is false once the request is over, whatever its outcome.
   */
  function Register(screen: SignupScreen, form: RegisterForm, today: int, reply: Reply<()>): (r: SignupStep)
    ensures RegisterErrors(form, today) != {} ==> r == SignupStep(screen, None, None)
    ensures RegisterErrors(form, today) == {} ==> r.sent == Some(form) && !r.screen.isSubmit
    ensures RegisterErrors(form, today) == {} && reply.Ok? ==>
      r.screen.apiError == "" && r.navigateTo == Some("/login")
    ensures RegisterErrors(form, today) == {} && reply.HttpError? ==>
      r.navigateTo.None? &&
      r.screen.apiError == (if Truthy(reply.error) then reply.error.value else FallbackError)
    ensures RegisterErrors(form, today) == {} && reply.NoResponse? ==>
      r.navigateTo.None? && r.screen.apiError == NetworkError
  {
    if RegisterErrors(form, today) != {} then SignupStep(screen, None, None)
    else
      match reply
      case Ok(_) => SignupStep(SignupScreen("", false), Some(form), Some("/login"))
      case HttpError(e) => SignupStep(SignupScreen(if Truthy(e) then e.value else FallbackError, false), Some(form), None)
      case NoResponse => SignupStep(SignupScreen(NetworkError, false), Some(form), None)
  }

  /** A posted form leaves the page exactly when the banner ends up empty. */
  lemma SignupBannerBlankIffAccepted(screen: SignupScreen, form: RegisterForm, today: int, reply: Reply<()>)
    requires RegisterErrors(form, today) == {}
    ensures Register(screen, form, today, reply).screen.apiError == "" <==> reply.Ok?
    ensures Register(screen, form, today, reply).navigateTo.Some? <==> reply.Ok?
  {
  }

  /** Only a form that passes every rule is posted, and it is posted unchanged. */
  lemma SignupPostsOnlyValidForms(screen: SignupScreen, form: RegisterForm, today: int, reply: Reply<()>)
    ensures Register(screen, form, today, reply).sent.Some? <==>
      && 3 <= |form.name| <= 30 && form.email != "" && PasswordRule(form.password)
      && form.rePassword != "" && form.rePassword == form.password
      && form.dateOfBirth.Some? && form.dateOfBirth.value <= today
      && form.gender in {"male", "female"}
  {
    RegisterAccepts(form, today);
  }
}
