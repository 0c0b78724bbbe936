/**
 * The top-level view controller (src/App.tsx): four state fields changed by five handlers,
 * and the rule that picks the view from them. Each handler is a method of `Controller`;
 * its effect is specified by a pure transition on `AppState`.
 */
module App {
  import opened AuthTypes
  import opened Storage
  import Auth

  datatype AuthMode = LoginMode | RegisterMode

  /** What is on screen; the forms receive the loading flag and the error. */
  datatype View =
    | DashboardView(user: User)
    | LoginFormView(isLoading: bool, error: Option<string>)
    | RegisterFormView(isLoading: bool, error: Option<string>)

  datatype AppState = AppState(user: Option<User>, authMode: AuthMode, isLoading: bool, error: Option<string>)

  /** How an awaited auth call ended: it returned a response, or it threw. */
  datatype Settlement = Returned(response: AuthResponse) | Threw

  const LoginFallback: string := "Login failed"
  const RegisterFallback: string := "Registration failed"
  const UnexpectedError: string := "An unexpected error occurred"

  /** The state before the first render. */
  function Initial(): AppState {
    AppState(None, LoginMode, false, None)
  }

  /** `message || fallback`: an absent or empty message gives way to the fallback. */
  function MessageOr(message: Option<string>, fallback: string): (m: string)
    ensures message.Some? && message.value != [] ==> m == message.value
    ensures message.None? || message.value == [] ==> m == fallback
  {
    if message.Some? && message.value != [] then message.value else fallback
  }

  /** The mount effect: adopt the stored user only when a truthy token and a user are both stored. */
  function Mounted(s: AppState, stored: Auth.StoredAuth): (r: AppState)
    ensures stored.token.Some? && Truthy(stored.token.value) && stored.user.Some? ==> r.user == stored.user
    ensures !(stored.token.Some? && Truthy(stored.token.value) && stored.user.Some?) ==> r.user == s.user
    ensures r.authMode == s.authMode && r.isLoading == s.isLoading && r.error == s.error
  {
    if stored.token.Some? && Truthy(stored.token.value) && stored.user.Some?
    then s.(user := stored.user) else s
  }

  /** The start of a submission: loading, and no error. */
  function BeginSubmit(s: AppState): (r: AppState)
    ensures r.isLoading && r.error.None?
    ensures r.user == s.user && r.authMode == s.authMode
  {
    s.(isLoading := true, error := None)
  }

  /**
   * The end of a submission: a successful response carrying a user is adopted; any other
   * response becomes an error (its message, or `fallback`); a throw becomes the generic
   * error. Loading is over in every case.
   */
  function Settled(s: AppState, outcome: Settlement, fallback: string): (r: AppState)
    ensures !r.isLoading && r.authMode == s.authMode
    ensures outcome.Returned? && outcome.response.success && outcome.response.user.Some? ==>
      r.user == outcome.response.user && r.error == s.error
    ensures outcome.Returned? && !(outcome.response.success && outcome.response.user.Some?) ==>
      r.user == s.user && r.error == Some(MessageOr(outcome.response.message, fallback))
    ensures outcome.Threw? ==> r.user == s.user && r.error == Some(UnexpectedError)
  {
    match outcome
    case Threw => s.(error := Some(UnexpectedError), isLoading := false)
    case Returned(response) =>
      if response.success && response.user.Some?
      then s.(user := response.user, isLoading := false)
      else s.(error := Some(MessageOr(response.message, fallback)), isLoading := false)
  }

  /** `handleLogout` on the state: no user, no error. */
  function LoggedOut(s: AppState): (r: AppState)
    ensures r.user.None? && r.error.None?
    ensures r.authMode == s.authMode && r.isLoading == s.isLoading
  {
    s.(user := None, error := None)
  }

  /** `switchAuthMode(mode)` on the state. */
  function Switched(s: AppState, mode: AuthMode): (r: AppState)
    ensures r.authMode == mode && r.error.None?
    ensures r.user == s.user && r.isLoading == s.isLoading
  {
    s.(authMode := mode, error := None)
  }

  /** The render rule: a user means the dashboard, otherwise the form of the current mode. */
  function Render(s: AppState): (v: View)
    ensures v.DashboardView? <==> s.user.Some?
    ensures s.user.Some? ==> v == DashboardView(s.user.value)
    ensures s.user.None? && s.authMode == LoginMode ==> v == LoginFormView(s.isLoading, s.error)
    ensures s.user.None? && s.authMode == RegisterMode ==> v == RegisterFormView(s.isLoading, s.error)
  {
    if s.user.Some? then DashboardView(s.user.value)
    else if s.authMode == LoginMode then LoginFormView(s.isLoading, s.error)
    else RegisterFormView(s.isLoading, s.error)
  }

  /** While a submission is pending, the form shows loading and no error. */
  lemma PendingFormShowsLoading(s: AppState)
    requires s.user.None?
    ensures Render(BeginSubmit(s)) == (if s.authMode == LoginMode then LoginFormView(true, None)
                                       else RegisterFormView(true, None))
  {
  }

  /** After logging out, the form of the remembered mode is shown, without an error. */
  lemma LogoutShowsForm(s: AppState)
    ensures Render(LoggedOut(s)) == (if s.authMode == LoginMode then LoginFormView(s.isLoading, None)
                                     else RegisterFormView(s.isLoading, None))
  {
  }

  /** The `App` component: its state hooks, and the storage it works against. */
  class Controller {
    var user: Option<User>
    var authMode: AuthMode
    var isLoading: bool
    var error: Option<string>
    const storage: LocalStorage

    function State(): AppState
      reads this
    {
      AppState(user, authMode, isLoading, error)
    }

    /** The initial values of the four hooks. */
    constructor (storage: LocalStorage)
      ensures user.None? && authMode == LoginMode && !isLoading && error.None?
      ensures State() == Initial() && this.storage == storage
    {
      user := None;
      authMode := LoginMode;
      isLoading := false;
      error := None;
      this.storage := storage;
    }

    /** The mount effect: restore a stored session. */
    method Mount()
      modifies this
      ensures State() == Mounted(old(State()), Auth.GetStoredAuth(storage.items))
    {
      var stored := Auth.GetStoredAuth(storage.items);
      if stored.token.Some? && Truthy(stored.token.value) && stored.user.Some? {
        user := stored.user;
      }
    }

    method HandleLogin(credentials: LoginCredentials, fetched: Auth.Fetched,
                       decode: string -> Option<Auth.Claims>)
      modifies this, storage
      ensures State() == Settled(BeginSubmit(old(State())),
                                 Returned(Auth.LoginResponse(fetched, decode)), LoginFallback)
      ensures storage.items == Auth.LoginItems(old(storage.items), fetched, decode)
    {
      isLoading := true;
      error := None;
      var response := Auth.Login(storage, credentials, fetched, decode);
      if response.success && response.user.Some? {
        user := response.user;
      } else {
        error := Some(MessageOr(response.message, LoginFallback));
      }
      isLoading := false;
    }

    method HandleRegister(credentials: RegisterCredentials, suffix: string)
      modifies this, storage
      ensures State() == Settled(BeginSubmit(old(State())),
                                 Returned(Auth.RegisterResponse(credentials, suffix)), RegisterFallback)
      ensures storage.items == Auth.RegisterItems(old(storage.items), credentials, suffix)
    {
      isLoading := true;
      error := None;
      var response := Auth.Register(storage, credentials, suffix);
      if response.success && response.user.Some? {
        user := response.user;
      } else {
        error := Some(MessageOr(response.message, RegisterFallback));
      }
      isLoading := false;
    }

    method HandleLogout()
      modifies this, storage
      ensures State() == LoggedOut(old(State()))
      ensures storage.items == Auth.LogoutItems(old(storage.items))
    {
      Auth.Logout(storage);
      user := None;
      error := None;
    }

    method SwitchAuthMode(mode: AuthMode)
      modifies this
      ensures State() == Switched(old(State()), mode)
    {
      authMode := mode;
      error := None;
    }
  }

  /**
   * A client of the controller that acts only through the controls on screen: a page whose
   * storage holds no token opens on the login form; switching to the registration form and
   * registering valid credentials shows the new user's dashboard; logging out from it
   * returns to the registration form with the session gone.
   */
  method RegisterThenLogout(initial: map<string, Value>, c: RegisterCredentials, suffix: string)
    returns (onLaunch: View, onSwitch: View, onRegister: View, onLogout: View, stored: Auth.StoredAuth)
    requires Auth.TokenKey !in initial
    requires Auth.RegistrationValid(c)
    ensures onLaunch == LoginFormView(false, None)
    ensures onSwitch == RegisterFormView(false, None)
    ensures onRegister == DashboardView(User(TextId("1"), Some(c.email), c.firstName, c.lastName))
    ensures onLogout == RegisterFormView(false, None)
    ensures stored == Auth.StoredAuth(None, None)
  {
    var storage := new LocalStorage(initial);
    var app := new Controller(storage);
    app.Mount();
    onLaunch := Render(app.State());
    app.SwitchAuthMode(RegisterMode);
    onSwitch := Render(app.State());
    app.HandleRegister(c, suffix);
    onRegister := Render(app.State());
    app.HandleLogout();
    onLogout := Render(app.State());
    stored := Auth.GetStoredAuth(storage.items);
  }
}
