/** The routes of src/App.jsx (`ProtectedRoute`, `AppContent`): a route
    table with a catch-all and an effect that navigates when the
    authentication state changes. The effect is the function `Effect`,
    returning where it navigates to, if anywhere. A location carries the
    pathname a redirect to "/login" was made from (`location.state.from`). */
module AuthRoutes {
  import opened Common

  datatype Location = Location(pathname: string, from: Option<string>)

  datatype Screen = HomeScreen | LoginScreen | RegisterScreen | DashboardScreen

  datatype View = Placeholder(text: string) | Show(screen: Screen) | Navigate(to: Location)

  const Authenticating := "Authenticating..."
  const Initializing := "Initializing authentication..."

  /** `ProtectedRoute` wrapping `child`. */
  function ProtectedRoute(loading: bool, isAuthenticated: bool, location: Location, child: View): View {
    if loading then Placeholder(Authenticating)
    else if !isAuthenticated then Navigate(Location("/login", Some(location.pathname)))
    else child
  }

  /** What `AppContent` renders at `location`. */
  function Routes(loading: bool, isAuthenticated: bool, location: Location): View {
    if loading then Placeholder(Initializing)
    else if location.pathname == "/" then Show(HomeScreen)
    else if location.pathname == "/login" then Show(LoginScreen)
    else if location.pathname == "/register" then Show(RegisterScreen)
    else if location.pathname == "/dashboard" then
      ProtectedRoute(loading, isAuthenticated, location, Show(DashboardScreen))
    else Navigate(Location("/", None))
  }

  predicate IsEntryPath(pathname: string) {
    pathname == "/login" || pathname == "/register" || pathname == "/"
  }

  /** Where `AppContent`'s effect navigates to; `navigate` drops the state. */
  function Effect(loading: bool, isAuthenticated: bool, location: Location): Option<Location> {
    if loading then None
    else if isAuthenticated then
      if IsEntryPath(location.pathname) then Some(Location(OrElse(location.from, "/dashboard"), None))
      else None
    else if location.pathname == "/dashboard" then Some(Location("/login", None))
    else None
  }

  /** Every location the app may move to next from `location`: by the effect
      or by a `Navigate` element that the route table renders. */
  function Successors(loading: bool, isAuthenticated: bool, location: Location): set<Location> {
    var byEffect := Effect(loading, isAuthenticated, location);
    var view := Routes(loading, isAuthenticated, location);
    (if byEffect.Some? then {byEffect.value} else {}) + (if view.Navigate? then {view.to} else {})
  }

  /** How many moves separate `pathname` (with no `from` state) from a
      location the authenticated app stays on. */
  function SignedInDistance(pathname: string): nat {
    if pathname == "/dashboard" then 0 else if IsEntryPath(pathname) then 1 else 2
  }

  /** How many moves separate `location` from one the app stays on, at most. */
  function Distance(isAuthenticated: bool, location: Location): nat {
    if !isAuthenticated then
      if location.pathname == "/dashboard" then 1
      else if IsEntryPath(location.pathname) then 0
      else 1
    else if location.pathname == "/dashboard" then 0
    else if IsEntryPath(location.pathname) then 1 + SignedInDistance(OrElse(location.from, "/dashboard"))
    else 2
  }

  /** A sequence of locations, each reached from the one before. */
  predicate IsChain(loading: bool, isAuthenticated: bool, chain: seq<Location>) {
    forall i :: 0 <= i < |chain| - 1 ==> chain[i + 1] in Successors(loading, isAuthenticated, chain[i])
  }

  // ---------------------------------------------------------------------

  /** While loading, `ProtectedRoute` shows its placeholder and never redirects. */
  lemma ProtectedWhileLoading(isAuthenticated: bool, location: Location, child: View)
    ensures ProtectedRoute(true, isAuthenticated, location, child) == Placeholder(Authenticating)
  {
  }

  /** Once loaded, `ProtectedRoute` sends a signed-out user to "/login",
      remembering where they came from, and otherwise shows its children. */
  lemma ProtectedWhenLoaded(isAuthenticated: bool, location: Location, child: View)
    ensures ProtectedRoute(false, isAuthenticated, location, child) ==
      if isAuthenticated then child else Navigate(Location("/login", Some(location.pathname)))
  {
  }

  /** The effect settles in one move: from a location with no remembered
      page, or with the only page `ProtectedRoute` ever remembers, where it
      sends the app is "/dashboard" when signed in and "/login" when signed
      out, and there neither the effect nor the route table moves again. */
  lemma EffectSettles(isAuthenticated: bool, location: Location, target: Location)
    requires location.from.None? || location.from == Some("/dashboard")
    requires Effect(false, isAuthenticated, location) == Some(target)
    ensures target.pathname == if isAuthenticated then "/dashboard" else "/login"
    ensures Effect(false, isAuthenticated, target).None?
    ensures !Routes(false, isAuthenticated, target).Navigate?
  {
  }

  /** Unmatched paths are sent to "/". */
  lemma CatchAll(isAuthenticated: bool, location: Location)
    requires !IsEntryPath(location.pathname) && location.pathname != "/dashboard"
    ensures Routes(false, isAuthenticated, location) == Navigate(Location("/", None))
  {
  }

  /** With no remembered page, or with the only page `ProtectedRoute` ever
      remembers, the only moves are "/dashboard" to "/login" when signed out
      and "/login", "/register", "/" to "/dashboard" when signed in, besides
      the catch-all's move to "/". */
  lemma OnlyTheseRedirects(loading: bool, isAuthenticated: bool, location: Location, next: Location)
    requires location.from.None? || location.from == Some("/dashboard")
    requires next in Successors(loading, isAuthenticated, location)
    ensures !loading
    ensures next.pathname == "/" ==> !IsEntryPath(location.pathname) && location.pathname != "/dashboard"
    ensures next.pathname != "/" ==>
      if isAuthenticated then IsEntryPath(location.pathname) && next.pathname == "/dashboard"
      else location.pathname == "/dashboard" && next.pathname == "/login"
  {
  }

  /** Every move gets strictly closer to a location the app stays on. */
  lemma MovesApproachRest(loading: bool, isAuthenticated: bool, location: Location, next: Location)
    requires next in Successors(loading, isAuthenticated, location)
    ensures Distance(isAuthenticated, next) < Distance(isAuthenticated, location)
  {
  }

  /** No location is more than three moves from one the app stays on. */
  lemma DistanceBounded(isAuthenticated: bool, location: Location)
    ensures Distance(isAuthenticated, location) <= 3
  {
  }

  /** Redirect chains terminate: with the session unchanged, any chain of
      moves has at most three steps, so no location is ever revisited. */
  lemma {:induction false} ChainsAreShort(loading: bool, isAuthenticated: bool, chain: seq<Location>)
    requires |chain| > 0 && IsChain(loading, isAuthenticated, chain)
    ensures |chain| - 1 <= Distance(isAuthenticated, chain[0]) <= 3
    decreases |chain|
  {
    DistanceBounded(isAuthenticated, chain[0]);
    if |chain| > 1 {
      MovesApproachRest(loading, isAuthenticated, chain[0], chain[1]);
      assert IsChain(loading, isAuthenticated, chain[1..]) by {
        forall i | 0 <= i < |chain[1..]| - 1
          ensures chain[1..][i + 1] in Successors(loading, isAuthenticated, chain[1..][i])
        {
          assert chain[1..][i] == chain[i + 1];
        }
      }
      ChainsAreShort(loading, isAuthenticated, chain[1..]);
    }
  }

  /** "/login" and "/dashboard" never send to each other. */
  lemma NoLoginDashboardCycle(isAuthenticated: bool, a: Location, b: Location)
    requires a.pathname == "/login" && b.pathname == "/dashboard"
    ensures !(b in Successors(false, isAuthenticated, a) && a in Successors(false, isAuthenticated, b))
  {
    if b in Successors(false, isAuthenticated, a) && a in Successors(false, isAuthenticated, b) {
      MovesApproachRest(false, isAuthenticated, a, b);
      MovesApproachRest(false, isAuthenticated, b, a);
    }
  }
}
