/**
 The application root: two pieces of state, `isAuthenticated` and
 `userType`, changed by the authenticate and sign-out handlers, and the
 choice of screen made from them once the fonts have loaded.
 */
module AppSession {
  import opened Wrappers
  import AuthChoice

  type Role = AuthChoice.Role

  datatype Session = Session(isAuthenticated: bool, userType: Option<Role>)

  /** Signed in exactly when a user type is known. */
  predicate Valid(s: Session) {
    s.isAuthenticated <==> s.userType.Some?
  }

  function Initial(): (s: Session)
    ensures !s.isAuthenticated && s.userType == None
    ensures Valid(s)
  {
    Session(false, None)
  }

  /** `handleAuthentication`. */
  function HandleAuthentication(s: Session, role: Role): (s': Session)
    ensures s'.isAuthenticated && s'.userType == Some(role)
    ensures Valid(s')
  {
    Session(true, Some(role))
  }

  /** `handleSignOut`: back to the initial state, whatever came before. */
  function HandleSignOut(s: Session): (s': Session)
    ensures s' == Initial()
    ensures Valid(s')
  {
    Session(false, None)
  }

  datatype Dashboard = MechanicDashboardScreen | SupplierDashboardScreen

  /** What the root renders. `Dashboards` lists the dashboards of the
      fragment shown when signed in: one conditional per user type. */
  datatype Screen = Nothing | AuthScreen | Dashboards(shown: seq<Dashboard>)

  function Render(fontsLoaded: bool, s: Session): (v: Screen)
    ensures !fontsLoaded <==> v == Nothing
    ensures fontsLoaded ==> (v == AuthScreen <==> !s.isAuthenticated)
    ensures fontsLoaded && Valid(s) && s.isAuthenticated ==>
              && v.Dashboards?
              && |v.shown| == 1
              && (v.shown[0] == MechanicDashboardScreen <==> s.userType == Some(AuthChoice.Mechanic))
  {
    if !fontsLoaded then Nothing
    else if !s.isAuthenticated then AuthScreen
    else
      var mechanic := if s.userType == Some(AuthChoice.Mechanic) then [MechanicDashboardScreen] else [];
      var supplier := if s.userType == Some(AuthChoice.Supplier) then [SupplierDashboardScreen] else [];
      assert s.userType.Some? ==> s.userType.value.Mechanic? || s.userType.value.Supplier?;
      Dashboards(mechanic + supplier)
  }

  datatype SessionEvent = Authenticated(role: Role) | SignedOut

  function Step(s: Session, ev: SessionEvent): Session {
    match ev
    case Authenticated(role) => HandleAuthentication(s, role)
    case SignedOut => HandleSignOut(s)
  }

  function Run(s: Session, evs: seq<SessionEvent>): Session
    decreases |evs|
  {
    if evs == [] then s else Run(Step(s, evs[0]), evs[1..])
  }

  /** Every state reachable from the initial one keeps the invariant, and
      so, once the fonts are loaded, shows either the sign-in screen or
      exactly one dashboard. */
  lemma {:induction false} RunPreservesValid(s: Session, evs: seq<SessionEvent>)
    requires Valid(s)
    ensures Valid(Run(s, evs))
    ensures var v := Render(true, Run(s, evs)); v == AuthScreen || (v.Dashboards? && |v.shown| == 1)
    decreases |evs|
  {
    if evs != [] {
      RunPreservesValid(Step(s, evs[0]), evs[1..]);
    }
  }

  /** Submitting the sign-in form with a role and passing its role to the
      root's handler shows the dashboard the form navigates to. */
  lemma SubmitShowsMatchingDashboard(form: AuthChoice.AuthState, s: Session)
    requires form.selectedRole.Some?
    ensures var effects := AuthChoice.HandleSubmit(form).1;
            var s' := HandleAuthentication(s, effects[0].role);
            var v := Render(true, s');
            && v.Dashboards? && |v.shown| == 1
            && (v.shown[0] == MechanicDashboardScreen <==> effects[1] == AuthChoice.Navigate("/mechanic/dashboard"))
            && (v.shown[0] == SupplierDashboardScreen <==> effects[1] == AuthChoice.Navigate("/supplier/dashboard"))
  {
  }
}
