/**
 * The life of one page of the application (src/App.tsx over src/utils/auth.ts): the page
 * loads, the mount effect restores a stored session, and then the user acts through the
 * controls of whatever view is rendered. Each step is the composition of the transitions
 * the `Controller` methods are specified by; `Dispatch` runs one event on a `Controller`
 * and is proved to agree with `Step`, so what is proved here holds of the class.
 */
module Lifetime {
  import opened AuthTypes
  import opened Storage
  import Auth
  import opened App

  /** The controller state together with the contents of local storage. */
  datatype World = World(app: AppState, items: map<string, Value>)

  /** A user action, each wired to one handler. */
  datatype Event =
    | LoginSubmitted(login: LoginCredentials, fetched: Auth.Fetched)
    | RegisterSubmitted(registration: RegisterCredentials, suffix: string)
    | LogoutClicked
    | ModeSwitched(mode: AuthMode)

  /**
   * The controls each view renders: the login form submits a login and switches to
   * registration, the registration form submits a registration and switches to login,
   * the dashboard logs out.
   */
  predicate Enabled(v: View, e: Event): (b: bool)
    ensures v.DashboardView? ==> (b <==> e.LogoutClicked?)
    ensures v.LoginFormView? ==> (b <==> e.LoginSubmitted? || (e.ModeSwitched? && e.mode == RegisterMode))
    ensures v.RegisterFormView? ==> (b <==> e.RegisterSubmitted? || (e.ModeSwitched? && e.mode == LoginMode))
  {
    match e
    case LoginSubmitted(_, _) => v.LoginFormView?
    case RegisterSubmitted(_, _) => v.RegisterFormView?
    case LogoutClicked => v.DashboardView?
    case ModeSwitched(RegisterMode) => v.LoginFormView?
    case ModeSwitched(LoginMode) => v.RegisterFormView?
  }

  /** The page right after loading: the initial hook values, then the mount effect. */
  function Launch(items: map<string, Value>): World {
    World(Mounted(Initial(), Auth.GetStoredAuth(items)), items)
  }

  /** One completed handler run; an event whose control is not on screen changes nothing. */
  function Step(w: World, e: Event, decode: string -> Option<Auth.Claims>): (r: World)
    ensures !Enabled(Render(w.app), e) ==> r == w
    ensures Auth.OnlySessionKeysDiffer(w.items, r.items)
    ensures !w.app.isLoading ==> !r.app.isLoading
    ensures r.app.authMode == (if e.ModeSwitched? && Enabled(Render(w.app), e) then e.mode else w.app.authMode)
    ensures e.LogoutClicked? && Enabled(Render(w.app), e) ==>
      && Auth.GetStoredAuth(r.items) == Auth.StoredAuth(None, None)
      && !Render(r.app).DashboardView? && r.app.error.None?
    ensures e.ModeSwitched? && Enabled(Render(w.app), e) ==>
      r.items == w.items && r.app.user == w.app.user && r.app.error.None?
    ensures e.LoginSubmitted? && Enabled(Render(w.app), e) ==>
      (Render(r.app).DashboardView? <==>
         e.fetched.Reply? && e.fetched.ok && Auth.ParseJwt(e.fetched.body, decode).Some?)
    ensures e.RegisterSubmitted? && Enabled(Render(w.app), e) ==>
      (Render(r.app).DashboardView? <==> Auth.RegistrationValid(e.registration))
  {
    if !Enabled(Render(w.app), e) then w
    else
      match e
      case LoginSubmitted(_, fetched) =>
        World(Settled(BeginSubmit(w.app), Returned(Auth.LoginResponse(fetched, decode)), LoginFallback),
              Auth.LoginItems(w.items, fetched, decode))
      case RegisterSubmitted(credentials, suffix) =>
        World(Settled(BeginSubmit(w.app), Returned(Auth.RegisterResponse(credentials, suffix)), RegisterFallback),
              Auth.RegisterItems(w.items, credentials, suffix))
      case LogoutClicked =>
        World(LoggedOut(w.app), Auth.LogoutItems(w.items))
      case ModeSwitched(mode) =>
        World(Switched(w.app, mode), w.items)
  }

  function Run(w: World, events: seq<Event>, decode: string -> Option<Auth.Claims>): World
    decreases |events|
  {
    if events == [] then w else Run(Step(w, events[0], decode), events[1..], decode)
  }

  /**
   * Nothing is left loading, and a user on screen is exactly the stored session: a truthy
   * token is stored and the stored user is that user.
   */
  predicate SessionInvariant(w: World) {
    && !w.app.isLoading
    && (w.app.user.Some? ==>
          && Auth.TokenKey in w.items && Truthy(w.items[Auth.TokenKey])
          && Auth.UserKey in w.items && w.items[Auth.UserKey] == Json(w.app.user.value))
  }

  lemma LaunchEstablishesInvariant(items: map<string, Value>)
    ensures SessionInvariant(Launch(items))
  {
  }

  lemma StepPreservesInvariant(w: World, e: Event, decode: string -> Option<Auth.Claims>)
    requires SessionInvariant(w)
    ensures SessionInvariant(Step(w, e, decode))
  {
    if Enabled(Render(w.app), e) && e.LoginSubmitted? {
      var f := e.fetched;
      if f.Reply? && f.ok && Auth.ParseJwt(f.body, decode).Some? {
        // a token that yields a user contains a dot, so it is not the empty (falsy) string
        assert '.' in f.body;
      }
    }
  }

  lemma {:induction false} RunPreservesInvariant(w: World, events: seq<Event>, decode: string -> Option<Auth.Claims>)
    requires SessionInvariant(w)
    ensures SessionInvariant(Run(w, events, decode))
    decreases |events|
  {
    if events != [] {
      StepPreservesInvariant(w, events[0], decode);
      RunPreservesInvariant(Step(w, events[0], decode), events[1..], decode);
    }
  }

  /** Whatever the user does after loading, the invariant holds. */
  lemma EveryRunKeepsInvariant(items: map<string, Value>, events: seq<Event>, decode: string -> Option<Auth.Claims>)
    ensures SessionInvariant(Run(Launch(items), events, decode))
  {
    LaunchEstablishesInvariant(items);
    RunPreservesInvariant(Launch(items), events, decode);
  }

  /** Reloading the page while the dashboard is shown restores the same dashboard. */
  lemma ReloadKeepsDashboard(w: World)
    requires SessionInvariant(w) && w.app.user.Some?
    ensures Render(Launch(w.items).app) == Render(w.app) == DashboardView(w.app.user.value)
  {
  }

  /** Storage entries other than `token` and `user` are never touched. */
  lemma {:induction false} RunKeepsOtherKeys(w: World, events: seq<Event>, decode: string -> Option<Auth.Claims>)
    ensures Auth.OnlySessionKeysDiffer(w.items, Run(w, events, decode).items)
    decreases |events|
  {
    if events != [] {
      var next := Step(w, events[0], decode);
      assert Auth.OnlySessionKeysDiffer(w.items, next.items);
      RunKeepsOtherKeys(next, events[1..], decode);
    }
  }

  /** Loading the page with no stored token shows the login form, with no error. */
  lemma LaunchWithoutTokenShowsLoginForm(items: map<string, Value>)
    requires Auth.TokenKey !in items
    ensures Render(Launch(items).app) == LoginFormView(false, None)
  {
  }

  /** A refused login (a non-ok answer) shows its body as the error and leaves storage alone. */
  lemma RefusedLoginShowsBody(w: World, c: LoginCredentials, body: string, decode: string -> Option<Auth.Claims>)
    requires Render(w.app).LoginFormView?
    ensures var next := Step(w, LoginSubmitted(c, Auth.Reply(false, body)), decode);
      && next.items == w.items
      && Render(next.app) == LoginFormView(false, Some(if body == [] then LoginFallback else body))
  {
  }

  /**
   * An ok answer whose token does not decode is reported as a success by `login` and its
   * token is stored, yet the page stays on the login form with the fallback error.
   */
  lemma UndecodableLoginStaysOnForm(w: World, c: LoginCredentials, body: string, decode: string -> Option<Auth.Claims>)
    requires Render(w.app).LoginFormView?
    requires Auth.ParseJwt(body, decode).None?
    ensures Auth.LoginResponse(Auth.Reply(true, body), decode).success
    ensures var next := Step(w, LoginSubmitted(c, Auth.Reply(true, body)), decode);
      && Auth.TokenKey in next.items && next.items[Auth.TokenKey] == Text(body)
      && Render(next.app) == LoginFormView(false, Some(LoginFallback))
  {
  }

  /** A valid registration from the registration form leads to the dashboard of the new user. */
  lemma ValidRegistrationShowsDashboard(w: World, c: RegisterCredentials, suffix: string, decode: string -> Option<Auth.Claims>)
    requires Render(w.app).RegisterFormView?
    requires Auth.RegistrationValid(c)
    ensures Render(Step(w, RegisterSubmitted(c, suffix), decode).app)
            == DashboardView(User(TextId("1"), Some(c.email), c.firstName, c.lastName))
  {
  }

  /**
   * A quirk of the code: an ok login whose non-empty token does not decode stores the new
   * token but leaves a previously stored user in place, so the next page load shows that old
   * user's dashboard. (An empty body is stored too, but it is falsy, so the reload shows the
   * login form.)
   */
  lemma ReloadAfterUndecodableLoginShowsStoredUser(w: World, c: LoginCredentials, body: string,
                                                   decode: string -> Option<Auth.Claims>)
    requires Render(w.app).LoginFormView?
    requires Auth.UserKey in w.items && w.items[Auth.UserKey].Json?
    requires body != [] && Auth.ParseJwt(body, decode).None?
    ensures var next := Step(w, LoginSubmitted(c, Auth.Reply(true, body)), decode);
      && Render(next.app) == LoginFormView(false, Some(LoginFallback))
      && Render(Launch(next.items).app) == DashboardView(w.items[Auth.UserKey].user)
  {
  }

  /** The empty counterpart: an ok login with an empty body stores it, and the reload shows the login form. */
  lemma ReloadAfterEmptyLoginShowsLoginForm(w: World, c: LoginCredentials,
                                            decode: string -> Option<Auth.Claims>)
    requires Render(w.app).LoginFormView?
    ensures var next := Step(w, LoginSubmitted(c, Auth.Reply(true, [])), decode);
      && Auth.TokenKey in next.items && next.items[Auth.TokenKey] == Text([])
      && Render(Launch(next.items).app) == LoginFormView(false, None)
  {
    assert Auth.PayloadSegment([]).None?;
  }

  /**
   * One user action delivered to the controller: the handler wired to the event runs when
   * its control is on screen, and nothing happens otherwise.
   */
  method Dispatch(app: Controller, e: Event, decode: string -> Option<Auth.Claims>)
    modifies app, app.storage
    ensures World(app.State(), app.storage.items)
            == Step(old(World(app.State(), app.storage.items)), e, decode)
  {
    if Enabled(Render(app.State()), e) {
      match e
      case LoginSubmitted(login, fetched) => app.HandleLogin(login, fetched, decode);
      case RegisterSubmitted(registration, suffix) => app.HandleRegister(registration, suffix);
      case LogoutClicked => app.HandleLogout();
      case ModeSwitched(mode) => app.SwitchAuthMode(mode);
    }
  }
}
