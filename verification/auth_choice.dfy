/**
 The sign-in screen: first pick a role (mechanic or parts supplier), then
 fill in a sign-in or registration form and submit it. Submitting hands
 the role, the form kind and the credentials to the `onAuthenticate`
 callback and navigates to the role's dashboard route; both are returned
 here as emitted effects instead of being performed.
 */
module AuthChoice {
  import opened Wrappers

  datatype Role = Mechanic | Supplier
  datatype AuthType = SignIn | Register

  /** The screen's six pieces of local state. */
  datatype AuthState = AuthState(
    selectedRole: Option<Role>,
    authType: AuthType,
    email: string,
    password: string,
    name: string,
    showPassword: bool)

  /** The credentials object: `name` is present only when registering. */
  datatype Credentials = Credentials(email: string, password: string, name: Option<string>)

  /** What a handler asks of the outside world. */
  datatype Effect =
    | RoleSelected(role: Role)                                          // onRoleSelect(role)
    | Authenticate(role: Role, authType: AuthType, credentials: Credentials) // onAuthenticate(...)
    | Navigate(path: string)                                            // router.push(path)

  function Initial(): (st: AuthState)
    ensures st.selectedRole == None && st.authType == SignIn
    ensures st.email == "" && st.password == "" && st.name == ""
    ensures !st.showPassword
  {
    AuthState(None, SignIn, "", "", "", false)
  }

  /** The dashboard route of each role. */
  function DashboardRoute(role: Role): (path: string)
    ensures path == "/mechanic/dashboard" <==> role == Mechanic
    ensures path == "/supplier/dashboard" <==> role == Supplier
  {
    var mechanicPath, supplierPath := "/mechanic/dashboard", "/supplier/dashboard";
    assert mechanicPath[1] != supplierPath[1];
    match role
    case Mechanic => mechanicPath
    case Supplier => supplierPath
  }

  /** `handleRoleSelect`: remember the role and report it. */
  function HandleRoleSelect(st: AuthState, role: Role): (r: (AuthState, seq<Effect>))
    ensures r.0 == st.(selectedRole := Some(role))
    ensures r.1 == [RoleSelected(role)]
  {
    (st.(selectedRole := Some(role)), [RoleSelected(role)])
  }

  /** The credentials object built from the form. */
  function CredentialsOf(st: AuthState): (c: Credentials)
    ensures c.email == st.email && c.password == st.password
    ensures c.name.Some? <==> st.authType == Register
    ensures c.name.Some? ==> c.name.value == st.name
  {
    if st.authType == Register then Credentials(st.email, st.password, Some(st.name))
    else Credentials(st.email, st.password, None)
  }

  /** `handleSubmit`: nothing at all without a role; with one, call
      `onAuthenticate` and then navigate to the role's dashboard. The
      screen's own state never changes. */
  function HandleSubmit(st: AuthState): (r: (AuthState, seq<Effect>))
    ensures r.0 == st
    ensures st.selectedRole == None <==> r.1 == []
    ensures st.selectedRole.Some? ==>
              && |r.1| == 2
              && r.1[0].Authenticate?
              && r.1[0].role == st.selectedRole.value
              && r.1[0].authType == st.authType
              && r.1[0].credentials.email == st.email
              && r.1[0].credentials.password == st.password
              && r.1[0].credentials.name == (if st.authType == Register then Some(st.name) else None)
              && r.1[1] == Navigate(DashboardRoute(st.selectedRole.value))
  {
    match st.selectedRole
    case None => (st, [])
    case Some(role) =>
      (st, [Authenticate(role, st.authType, CredentialsOf(st)), Navigate(DashboardRoute(role))])
  }

  /** `toggleAuthType`: switch between signing in and registering. */
  function ToggleAuthType(st: AuthState): (st': AuthState)
    ensures st'.authType != st.authType
    ensures st' == st.(authType := st'.authType)
  {
    st.(authType := if st.authType == SignIn then Register else SignIn)
  }

  /** The eye button: show or hide the password. */
  function TogglePasswordVisibility(st: AuthState): (st': AuthState)
    ensures st'.showPassword != st.showPassword
    ensures st' == st.(showPassword := st'.showPassword)
  {
    st.(showPassword := !st.showPassword)
  }

  /** "Go back to role selection": forget the role, keep the form. */
  function GoBack(st: AuthState): (st': AuthState)
    ensures st'.selectedRole == None
    ensures st' == st.(selectedRole := None)
  {
    st.(selectedRole := None)
  }

  /** The text fields' `onChangeText` handlers. */
  datatype Field = EmailField | PasswordField | NameField

  function EditField(st: AuthState, f: Field, text: string): (st': AuthState)
    ensures f == EmailField ==> st' == st.(email := text)
    ensures f == PasswordField ==> st' == st.(password := text)
    ensures f == NameField ==> st' == st.(name := text)
  {
    match f
    case EmailField => st.(email := text)
    case PasswordField => st.(password := text)
    case NameField => st.(name := text)
  }

  /** Toggling the form kind twice returns to the same form. */
  lemma ToggleAuthTypeInvolution(st: AuthState)
    ensures ToggleAuthType(ToggleAuthType(st)) == st
  {
  }

  /** Toggling password visibility twice returns to the same form. */
  lemma TogglePasswordInvolution(st: AuthState)
    ensures TogglePasswordVisibility(TogglePasswordVisibility(st)) == st
  {
  }

  // ---- the screen as an event-driven machine ----

  datatype AuthEvent =
    | PressRole(role: Role)
    | PressSubmit
    | PressToggleAuthType
    | PressEye
    | PressGoBack
    | Type(field: Field, text: string)

  /** One UI event and the handler it runs. */
  function Step(st: AuthState, ev: AuthEvent): (r: (AuthState, seq<Effect>))
    ensures ev.PressRole? ==> r.0.selectedRole == Some(ev.role)
    ensures ev.PressGoBack? ==> r.0.selectedRole == None
    ensures !ev.PressRole? && !ev.PressGoBack? ==> r.0.selectedRole == st.selectedRole
  {
    match ev
    case PressRole(role) => HandleRoleSelect(st, role)
    case PressSubmit => HandleSubmit(st)
    case PressToggleAuthType => (ToggleAuthType(st), [])
    case PressEye => (TogglePasswordVisibility(st), [])
    case PressGoBack => (GoBack(st), [])
    case Type(f, text) => (EditField(st, f, text), [])
  }

  /** Runs events in order from `st`, collecting every effect. */
  function Run(st: AuthState, evs: seq<AuthEvent>): (r: (AuthState, seq<Effect>))
    decreases |evs|
  {
    if evs == [] then (st, [])
    else
      var first := Step(st, evs[0]);
      var rest := Run(first.0, evs[1..]);
      (rest.0, first.1 + rest.1)
  }

  /** The role chosen by the most recent role press or go-back, if any. */
  function LastRoleChoice(current: Option<Role>, evs: seq<AuthEvent>): Option<Role>
    decreases |evs|
  {
    if evs == [] then current
    else
      var next :=
        match evs[0]
        case PressRole(role) => Some(role)
        case PressGoBack => None
        case _ => current;
      LastRoleChoice(next, evs[1..])
  }

  /** After any sequence of events the selected role is the one left by
      the last role press or go-back; a submit afterwards therefore
      authenticates exactly when that choice was a role. */
  lemma {:induction false} RunSelectsLastRole(st: AuthState, evs: seq<AuthEvent>)
    ensures Run(st, evs).0.selectedRole == LastRoleChoice(st.selectedRole, evs)
    ensures HandleSubmit(Run(st, evs).0).1 != [] <==> LastRoleChoice(st.selectedRole, evs).Some?
    decreases |evs|
  {
    if evs != [] {
      RunSelectsLastRole(Step(st, evs[0]).0, evs[1..]);
    }
  }
}
