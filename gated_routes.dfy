/** The onboarding-gated route table of src/App.tsx (`AppRoutes`): a pure
    decision from the loading flag, the user's `isOnboarded` and the path to
    a spinner, a page, or a redirect. `ProtectedRoute` is not part of this
    model; its verdict is the input `admitted`, and `Denied` stands for
    whatever it renders instead of its children. */
module GatedRoutes {
  import opened Common

  datatype Page =
    | LoginPage | RegisterPage | OnboardingPage
    | DashboardPage | GuidesPage | QuizPage | GamificationPage | ChatbotPage | ProfilePage

  datatype View = Spinner | Render(page: Page) | Denied | Redirect(to: string)

  /** The six children of "/" rendered inside the layout. */
  function Child(path: string): Option<Page> {
    if path == "/dashboard" then Some(DashboardPage)
    else if path == "/guides" then Some(GuidesPage)
    else if path == "/quiz" then Some(QuizPage)
    else if path == "/gamification" then Some(GamificationPage)
    else if path == "/chatbot" then Some(ChatbotPage)
    else if path == "/profile" then Some(ProfilePage)
    else None
  }

  /** What `AppRoutes` shows at `path`. */
  function Route(isLoading: bool, user: Option<User>, admitted: bool, path: string): View {
    if isLoading then Spinner
    else if path == "/login" then Render(LoginPage)
    else if path == "/register" then Render(RegisterPage)
    else if path == "/onboarding" then
      if !admitted then Denied
      else if IsOnboarded(user) then Redirect("/dashboard")
      else Render(OnboardingPage)
    else if path == "/" || Child(path).Some? then
      if !admitted then Denied
      else if !IsOnboarded(user) then Redirect("/onboarding")
      else if path == "/" then Redirect("/dashboard")
      else Render(Child(path).value)
    else Redirect("/")
  }

  /** Follows at most `steps` redirects from `path` with the session unchanged. */
  function Follow(isLoading: bool, user: Option<User>, admitted: bool, path: string, steps: nat): View
    decreases steps
  {
    var v := Route(isLoading, user, admitted, path);
    if v.Redirect? && steps > 0 then Follow(isLoading, user, admitted, v.to, steps - 1) else v
  }

  /** How many redirects separate `path` from a rendered view at most. */
  function Distance(onboarded: bool, path: string): nat {
    if path == "/login" || path == "/register" then 0
    else if path == "/onboarding" then (if onboarded then 1 else 0)
    else if path == "/" then 1
    else if Child(path).Some? then (if onboarded then 0 else 1)
    else 2
  }

  // ---------------------------------------------------------------------

  /** While the session loads every path shows the spinner. */
  lemma LoadingShowsSpinner(user: Option<User>, admitted: bool, path: string)
    ensures Route(true, user, admitted, path) == Spinner
  {
  }

  /** The login and register pages render whatever the session holds. */
  lemma PublicPagesRender(user: Option<User>, admitted: bool)
    ensures Route(false, user, admitted, "/login") == Render(LoginPage)
    ensures Route(false, user, admitted, "/register") == Render(RegisterPage)
  {
  }

  /** Once admitted, "/onboarding" sends an onboarded user to the dashboard
      and shows everybody else the onboarding page. */
  lemma OnboardingGate(user: Option<User>)
    ensures Route(false, user, true, "/onboarding") ==
      if IsOnboarded(user) then Redirect("/dashboard") else Render(OnboardingPage)
  {
  }

  /** Once admitted, a user who is not onboarded is sent from "/" and from
      every child of it to "/onboarding". */
  lemma NotOnboardedIsGated(user: Option<User>, path: string)
    requires !IsOnboarded(user) && (path == "/" || Child(path).Some?)
    ensures Route(false, user, true, path) == Redirect("/onboarding")
  {
  }

  /** For an admitted, onboarded user "/" leads to the dashboard, the six
      children render their page, and every other unknown path leads to "/". */
  lemma OnboardedTable(user: Option<User>, path: string)
    requires IsOnboarded(user)
    requires path != "/login" && path != "/register" && path != "/onboarding"
    ensures Route(false, user, true, path) ==
      if path == "/" then Redirect("/dashboard")
      else if Child(path).Some? then Render(Child(path).value)
      else Redirect("/")
  {
  }

  /** Every redirect moves strictly closer to a rendered view. */
  lemma RedirectApproachesRender(user: Option<User>, admitted: bool, path: string)
    requires Route(false, user, admitted, path).Redirect?
    ensures Distance(IsOnboarded(user), Route(false, user, admitted, path).to) < Distance(IsOnboarded(user), path)
  {
  }

  /** Following redirects from a path no further than `Distance` from a
      rendered view ends on a non-redirect. */
  lemma {:induction false} FollowSettles(isLoading: bool, user: Option<User>, admitted: bool, path: string, steps: nat)
    requires Distance(IsOnboarded(user), path) <= steps
    ensures !Follow(isLoading, user, admitted, path, steps).Redirect?
    decreases steps
  {
    var v := Route(isLoading, user, admitted, path);
    if v.Redirect? {
      assert !isLoading;
      RedirectApproachesRender(user, admitted, path);
      FollowSettles(isLoading, user, admitted, v.to, steps - 1);
    }
  }

  /** Redirect chains terminate: from any path, after at most two redirects
      (three route decisions) something other than a redirect is shown. */
  lemma RedirectsTerminate(isLoading: bool, user: Option<User>, admitted: bool, path: string)
    ensures !Follow(isLoading, user, admitted, path, 2).Redirect?
  {
    FollowSettles(isLoading, user, admitted, path, 2);
  }

  /** "/onboarding" and "/dashboard" never redirect to each other. */
  lemma NoOnboardingDashboardCycle(user: Option<User>, admitted: bool)
    ensures !(Route(false, user, admitted, "/onboarding") == Redirect("/dashboard")
              && Route(false, user, admitted, "/dashboard") == Redirect("/onboarding"))
  {
  }
}
