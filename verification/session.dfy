/**
 * The session: the token held in the user context and the copy persisted
 * under the storage key "token", with every transition that writes them
 * (mount, login, logout, change-password), the route guard that reads the
 * stored copy, and the navigation bar that reads the context copy.
 */
module Session {
  import opened Common
  import opened Validators

  /**
   * `token` is the context's token (`null` when absent); `stored` is
   * `localStorage.getItem("token")`, absent when the key was never written.
   */
  datatype Session = Session(token: Option<string>, stored: Option<string>)

  /** The first render: the context starts with no token, whatever is stored. */
  function Boot(stored: Option<string>): (s: Session)
    ensures s.token.None? && s.stored == stored
  {
    Session(None, stored)
  }

  /** The mount effect: a truthy stored token is adopted; otherwise the context is left as it is. */
  function Mount(s: Session): (r: Session)
    ensures r.stored == s.stored
    ensures Truthy(s.stored) ==> r.token == s.stored
    ensures !Truthy(s.stored) ==> r.token == s.token
  {
    if Truthy(s.stored) then s.(token := s.stored) else s
  }

  /** `setToken`: the context token is replaced wholesale; storage is untouched. */
  function SetToken(s: Session, t: Option<string>): (r: Session)
    ensures r.token == t && r.stored == s.stored
  {
    s.(token := t)
  }

  /**
   * The two copies agree: both truthy and equal, or both falsy. Every
   * transition below keeps this, and the mount effect establishes it.
   */
  predicate Consistent(s: Session) {
    && (Truthy(s.token) <==> Truthy(s.stored))
    && (Truthy(s.token) ==> s.token == s.stored)
  }

  /** After mounting, a non-empty stored token is the context token and an empty or missing one leaves it null. */
  lemma MountAdoptsStored(stored: Option<string>)
    ensures Truthy(stored) ==> Mount(Boot(stored)).token == stored
    ensures !Truthy(stored) ==> Mount(Boot(stored)).token.None?
    ensures Consistent(Mount(Boot(stored)))
  {
  }

  /** Before the mount effect runs, a stored token and the context disagree. */
  lemma BootIsInconsistent(t: string)
    requires t != ""
    ensures !Consistent(Boot(Some(t)))
  {
  }

  // ---------------------------------------------------------------------
  // Route guard and navigation bar
  // ---------------------------------------------------------------------

  datatype GuardDecision = RenderChildren | RedirectTo(path: string)

  /** The guard reads storage only: a truthy stored token renders the page, anything else redirects to /login. */
  function Guard(s: Session): (d: GuardDecision)
    ensures d == RenderChildren <==> Truthy(s.stored)
    ensures d != RenderChildren ==> d == RedirectTo("/login")
  {
    if Truthy(s.stored) then RenderChildren else RedirectTo("/login")
  }

  /** The guard's decision does not depend on the context token. */
  lemma GuardIgnoresContext(s: Session, t: Option<string>)
    ensures Guard(SetToken(s, t)) == Guard(s)
  {
  }

  datatype NavLink = AddPostLink | ProfileLink | SettingsLink | LogOutLink | LoginLink | RegisterLink

  /** A truthy context token shows Add Post, Profile, Settings and Log out; otherwise Login and Register. */
  function NavLinks(token: Option<string>): (links: set<NavLink>)
    ensures Truthy(token) ==> links == {AddPostLink, ProfileLink, SettingsLink, LogOutLink}
    ensures !Truthy(token) ==> links == {LoginLink, RegisterLink}
  {
    if Truthy(token) then {AddPostLink, ProfileLink, SettingsLink, LogOutLink} else {LoginLink, RegisterLink}
  }

  /** In a consistent session the guard admits exactly when the bar offers Log out. */
  lemma GuardAgreesWithNavbar(s: Session)
    requires Consistent(s)
    ensures Guard(s) == RenderChildren <==> LogOutLink in NavLinks(s.token)
  {
  }

  /** The result of a transition that may navigate. */
  datatype Navigation = Navigation(session: Session, navigateTo: string)

  /** `logOut`: the context token becomes null, the stored token "", and the app goes to /login. */
  function LogOut(s: Session): (r: Navigation)
    ensures r.session.token.None? && r.session.stored == Some("")
    ensures r.navigateTo == "/login"
  {
    Navigation(Session(None, Some("")), "/login")
  }

  /** After logging out the guard redirects and the bar offers Login and Register. */
  lemma LogOutSignsOut(s: Session)
    ensures var r := LogOut(s).session;
      Consistent(r) && Guard(r) == RedirectTo("/login") && NavLinks(r.token) == {LoginLink, RegisterLink}
  {
  }

  /** The menu buttons flip the mobile menu. */
  function ToggleMenu(open: bool): (open': bool)
    ensures open' == !open
  {
    !open
  }

  /** The mobile Log out item flips the menu and logs out. */
  function MobileLogOut(s: Session, open: bool): (r: (Navigation, bool))
    ensures r.0 == LogOut(s) && r.1 == !open
  {
    (LogOut(s), ToggleMenu(open))
  }

  // ---------------------------------------------------------------------
  // Login and change-password
  // ---------------------------------------------------------------------

  /** The banner text (`undefined` when the server sent no `error` field) and the submitting flag of a form. */
  datatype FormScreen = FormScreen(apiError: Option<string>, isSubmit: bool)

  /** The result of an auth form submit: session, screen, whether a request was sent, where the app navigates. */
  datatype AuthStep = AuthStep(session: Session, screen: FormScreen, sent: bool, navigateTo: Option<string>)

  /**
   * Login. An invalid form sends nothing. On success the context token and
   * the stored token are both the server's token, the banner is cleared and
   * the app goes to "/"; a server error shows its `error` field and keeps the
   * session; with no response the handler fails and only `isSubmit` changes.
   */
  function Login(s: Session, screen: FormScreen, form: LoginForm, reply: Reply<string>): (r: AuthStep)
    ensures !LoginValid(form) ==> r == AuthStep(s, screen, false, None)
    ensures LoginValid(form) ==> r.sent && !r.screen.isSubmit
    ensures LoginValid(form) && reply.Ok? ==>
      && r.session == Session(Some(reply.data), Some(reply.data))
      && r.screen.apiError == Some("") && r.navigateTo == Some("/")
    ensures LoginValid(form) && reply.HttpError? ==>
      r.session == s && r.screen.apiError == reply.error && r.navigateTo.None?
    ensures LoginValid(form) && reply.NoResponse? ==>
      r.session == s && r.screen.apiError == screen.apiError && r.navigateTo.None?
  {
    if !LoginValid(form) then AuthStep(s, screen, false, None)
    else
      match reply
      case Ok(t) => AuthStep(Session(Some(t), Some(t)), FormScreen(Some(""), false), true, Some("/"))
      case HttpError(e) => AuthStep(s, FormScreen(e, false), true, None)
      case NoResponse => AuthStep(s, screen.(isSubmit := false), true, None)
  }

  /**
   * Change password. An invalid form sends nothing. On success the context
   * token becomes null, the stored token "" and the app goes to /login; a
   * failure keeps the session as Login's failure does.
   */
  function ChangePassword(s: Session, screen: FormScreen, form: ChangePassForm, reply: Reply<()>): (r: AuthStep)
    ensures !ChangePassValid(form) ==> r == AuthStep(s, screen, false, None)
    ensures ChangePassValid(form) ==> r.sent && !r.screen.isSubmit
    ensures ChangePassValid(form) && reply.Ok? ==>
      && r.session == Session(None, Some(""))
      && r.screen.apiError == Some("") && r.navigateTo == Some("/login")
    ensures ChangePassValid(form) && reply.HttpError? ==>
      r.session == s && r.screen.apiError == reply.error && r.navigateTo.None?
    ensures ChangePassValid(form) && reply.NoResponse? ==>
      r.session == s && r.screen.apiError == screen.apiError && r.navigateTo.None?
  {
    if !ChangePassValid(form) then AuthStep(s, screen, false, None)
    else
      match reply
      case Ok(_) => AuthStep(Session(None, Some("")), FormScreen(Some(""), false), true, Some("/login"))
      case HttpError(e) => AuthStep(s, FormScreen(e, false), true, None)
      case NoResponse => AuthStep(s, screen.(isSubmit := false), true, None)
  }

  /** A successful password change signs the user out exactly as Log out does. */
  lemma ChangePasswordIsLogOut(s: Session, screen: FormScreen, form: ChangePassForm)
    requires ChangePassValid(form)
    ensures ChangePassword(s, screen, form, Ok(())).session == LogOut(s).session
    ensures ChangePassword(s, screen, form, Ok(())).navigateTo == Some(LogOut(s).navigateTo)
  {
  }

  /** Every session transition keeps the two token copies consistent. */
  lemma TransitionsKeepConsistent(s: Session, screen: FormScreen, lf: LoginForm, lr: Reply<string>, cf: ChangePassForm, cr: Reply<()>)
    requires Consistent(s)
    ensures Consistent(Mount(s))
    ensures Consistent(Login(s, screen, lf, lr).session)
    ensures Consistent(ChangePassword(s, screen, cf, cr).session)
    ensures Consistent(LogOut(s).session)
  {
  }

  /** After a successful login with a non-empty token, the guard admits and the bar offers Log out. */
  lemma LoginSignsIn(s: Session, screen: FormScreen, form: LoginForm, t: string)
    requires LoginValid(form) && t != ""
    ensures var r := Login(s, screen, form, Ok(t)).session;
      Guard(r) == RenderChildren && LogOutLink in NavLinks(r.token)
  {
  }

  /**
   * The user a token names: a truthy token is decoded (`decode` stands for
   * `jwtDecode(token).user`); a missing or empty token names nobody.
   */
  function TokenUser(token: Option<string>, decode: string -> string): (user: Option<string>)
    ensures user.Some? <==> Truthy(token)
    ensures user.Some? ==> user.value == decode(token.value)
  {
    if Truthy(token) then Some(decode(token.value)) else None
  }

  /** Whenever the guard admits a consistent session, the context token names a user. */
  lemma AdmittedSessionHasUser(s: Session, decode: string -> string)
    requires Consistent(s) && Guard(s) == RenderChildren
    ensures TokenUser(s.token, decode).Some?
  {
  }
}
