/** The onboarding page of src/pages/Onboarding.tsx: a guard that sends an
    onboarded user to the dashboard, a three-field form, and a submit
    handler that posts the answers and stores the user the server returns. */
module Onboarding {
  import opened Common
  import Session
  import GatedRoutes

  const OnboardingFailed := "Onboarding failed"

  datatype OnboardingForm = OnboardingForm(age: string, educationLevel: string, learningStyle: string)

  /** The body posted to `/user/onboarding`; `None` for the age is `NaN`. */
  datatype OnboardingRequest = OnboardingRequest(age: Option<int>, educationLevel: string, learningStyle: string)

  datatype Screen = RedirectToDashboard | ShowForm

  /** What the page renders for the session's user. */
  function Guard(user: Option<User>): Screen {
    if IsOnboarded(user) then RedirectToDashboard else ShowForm
  }

  function RequestFor(form: OnboardingForm): OnboardingRequest {
    OnboardingRequest(ParseInt(form.age), form.educationLevel, form.learningStyle)
  }

  // ---------------------------------------------------------------------

  /** The page's own guard and the route table agree: the page redirects to
      "/dashboard" exactly when `AppRoutes` would redirect an admitted user
      there from "/onboarding", and shows the form exactly when the route
      table renders the page. */
  lemma GuardsAgree(user: Option<User>)
    ensures Guard(user) == RedirectToDashboard <==>
      GatedRoutes.Route(false, user, true, "/onboarding") == GatedRoutes.Redirect("/dashboard")
    ensures Guard(user) == ShowForm <==>
      GatedRoutes.Route(false, user, true, "/onboarding") == GatedRoutes.Render(GatedRoutes.OnboardingPage)
  {
  }

  /** An age typed as a whole number, with a minus sign or without, is
      posted as that number; an empty age field is posted as `NaN`. */
  lemma TypedAgeIsPosted(form: OnboardingForm, n: int)
    ensures form.age == IntToString(n) ==> RequestFor(form).age == Some(n)
    ensures form.age == "" ==> RequestFor(form).age.None?
    ensures RequestFor(form).educationLevel == form.educationLevel
    ensures RequestFor(form).learningStyle == form.learningStyle
  {
    if form.age == IntToString(n) {
      ParseIntOfIntToString(n);
    }
  }

  /** When the server confirms an onboarded user, the stored session sends
      the page (and the "/onboarding" route) to the dashboard, where the
      dashboard now renders instead of redirecting back. */
  lemma OnboardingCompletes(s: Session.Snapshot, u: User)
    requires u.isOnboarded
    ensures Guard(Session.WithUser(s, u).user) == RedirectToDashboard
    ensures GatedRoutes.Route(false, Session.WithUser(s, u).user, true, "/onboarding") ==
      GatedRoutes.Redirect("/dashboard")
    ensures GatedRoutes.Route(false, Session.WithUser(s, u).user, true, "/dashboard") ==
      GatedRoutes.Render(GatedRoutes.DashboardPage)
  {
  }

  // ---------------------------------------------------------------------

  class OnboardingPage {
    var form: OnboardingForm
    var isLoading: bool
    var error: string
    const session: Session.Session

    constructor(session: Session.Session)
      ensures form == OnboardingForm("", "", "") && !isLoading && error == ""
      ensures this.session == session
    {
      form := OnboardingForm("", "", "");
      isLoading := false;
      error := "";
      this.session := session;
    }

    function View(): Screen
      reads this, session
    {
      Guard(session.user)
    }

    predicate SubmitDisabled()
      reads this
    {
      isLoading
    }

    method SetAge(value: string)
      modifies this`form
      ensures form == old(form).(age := value)
    {
      form := form.(age := value);
    }

    method SetEducationLevel(value: string)
      modifies this`form
      ensures form == old(form).(educationLevel := value)
    {
      form := form.(educationLevel := value);
    }

    method SetLearningStyle(value: string)
      modifies this`form
      ensures form == old(form).(learningStyle := value)
    {
      form := form.(learningStyle := value);
    }

    /** `handleSubmit`: posts the form; `reply` is the server's answer,
        carrying the updated user on success. */
    method HandleSubmit(reply: Reply<User>) returns (request: OnboardingRequest)
      modifies this`isLoading, this`error, session
      ensures request == RequestFor(form)
      ensures !isLoading && !SubmitDisabled()
      ensures reply.Ok? ==>
        error == "" && session.State() == Session.WithUser(old(session.State()), reply.data)
      ensures reply.Failed? ==>
        error == OrElse(reply.message, OnboardingFailed) && unchanged(session)
      ensures reply.Ok? && reply.data.isOnboarded ==> View() == RedirectToDashboard
    {
      request := RequestFor(form);
      isLoading := true;
      error := "";
      match reply {
        case Ok(u) =>
          session.UpdateUser(u);
        case Failed(m) =>
          error := OrElse(m, OnboardingFailed);
      }
      isLoading := false;
    }
  }
}
