/** The login form of src/components/Login.jsx: two text fields, a message
    line, and a submit handler that validates, calls the session's `login`
    and either navigates to the dashboard or shows why it failed. */
module LoginForm {
  import opened Common
  import Session
  import AuthRoutes

  const MissingFields := "Please enter both email and password."
  const TryAgain := "Login failed. Please try again."
  const DashboardTarget := "dashboard"

  datatype Credentials = Credentials(email: string, password: string)

  /** What one submission does: the credentials passed to `login`, if it is
      called, the page navigated to, if any, and the message left on the form. */
  datatype Submission = Submission(call: Option<Credentials>, navigateTo: Option<string>, message: string)

  /** The client-side check; `None` lets the submission through. */
  function Validate(email: string, password: string): Option<string> {
    if email == "" || password == "" then Some(MissingFields) else None
  }

  /** The submission of `email` and `password` when the server answers
      `response`. */
  function Submit(email: string, password: string, response: Session.AuthResponse): Submission {
    match Validate(email, password)
    case Some(m) => Submission(None, None, m)
    case None =>
      match Session.AuthReply(response, Session.LoginFallback)
      case Succeeded => Submission(Some(Credentials(email, password)), Some(DashboardTarget), "")
      case FailedWith(e) => Submission(Some(Credentials(email, password)), None, OrElse(Some(e), TryAgain))
  }

  // ---------------------------------------------------------------------

  /** `login` is called, with exactly the typed credentials, if and only if
      both fields are filled in; otherwise the form asks for both. */
  lemma LoginCalledIffFilled(email: string, password: string, response: Session.AuthResponse)
    ensures Submit(email, password, response).call.Some? <==> email != "" && password != ""
    ensures Submit(email, password, response).call.Some? ==>
      Submit(email, password, response).call.value == Credentials(email, password)
    ensures Submit(email, password, response).call.None? ==>
      Submit(email, password, response).message == MissingFields
  {
  }

  /** The form navigates, and then to the dashboard with an empty message,
      exactly when the fields are filled and the server accepts them. */
  lemma NavigatesIffAccepted(email: string, password: string, response: Session.AuthResponse)
    ensures Submit(email, password, response).navigateTo.Some? <==>
      email != "" && password != "" && response.AuthOk?
    ensures Submit(email, password, response).navigateTo.Some? ==>
      Submit(email, password, response).navigateTo.value == DashboardTarget &&
      Submit(email, password, response).message == ""
  {
  }

  /** A failed submission always leaves a non-empty message: the server's
      own, else "Login failed", and the form's "Please try again." text only
      when the request threw with an empty message. */
  lemma FailureIsExplained(email: string, password: string, response: Session.AuthResponse)
    requires Submit(email, password, response).navigateTo.None?
    ensures Submit(email, password, response).message != ""
    ensures email != "" && password != "" ==>
      match response
      case AuthOk(_, _) => false
      case AuthNotOk(m) => Submit(email, password, response).message == OrElse(m, Session.LoginFallback)
      case AuthThrown(r) => Submit(email, password, response).message == OrElse(Some(r), TryAgain)
  {
  }

  /** `handleSubmit` as src/App.jsx mounts the form: without a
      `navigateTo` prop, so the call on success throws a `TypeError` and the
      handler ends there. `None` is that throw; the form message is then the
      empty one set at the start. */
  function SubmitWithoutNavigator(email: string, password: string, response: Session.AuthResponse): Option<Submission> {
    var s := Submit(email, password, response);
    if s.navigateTo.Some? then None else Some(s)
  }

  /** Every accepted login throws in the handler as mounted, where the
      handler with a navigator goes to the dashboard. The session is signed in
      regardless, and the redirect effect of src/App.jsx then moves the
      user off "/login" to "/dashboard" exactly when the server's token is
      non-empty. */
  lemma MissingNavigatorThrows(s: Session.Snapshot, email: string, password: string, token: string, user: User)
    requires email != "" && password != ""
    ensures SubmitWithoutNavigator(email, password, Session.AuthOk(token, user)).None?
    ensures Submit(email, password, Session.AuthOk(token, user)).navigateTo == Some(DashboardTarget)
    ensures var r := Session.Authenticated(s, Session.AuthOk(token, user), Session.LoginFallback);
      AuthRoutes.Effect(r.loading, Session.IsAuthenticated(r), AuthRoutes.Location("/login", None)) ==
        if token != "" then Some(AuthRoutes.Location("/dashboard", None)) else None
  {
  }

  /** Outside acceptance the handler as mounted behaves as intended. */
  lemma NavigatorOnlyMattersOnSuccess(email: string, password: string, response: Session.AuthResponse)
    requires !(email != "" && password != "" && response.AuthOk?)
    ensures SubmitWithoutNavigator(email, password, response) == Some(Submit(email, password, response))
  {
    NavigatesIffAccepted(email, password, response);
  }

  // ---------------------------------------------------------------------

  /** The mounted form, bound to the session store it logs in through. */
  class LoginPage {
    var email: string
    var password: string
    var formMessage: string
    const session: Session.Session

    constructor(session: Session.Session)
      ensures email == "" && password == "" && formMessage == ""
      ensures this.session == session
    {
      email := "";
      password := "";
      formMessage := "";
      this.session := session;
    }

    method SetEmail(value: string)
      modifies this`email
      ensures email == value
    {
      email := value;
    }

    method SetPassword(value: string)
      modifies this`password
      ensures password == value
    {
      password := value;
    }

    /** The submit button is disabled while the session is busy. */
    predicate SubmitDisabled()
      reads this, session
    {
      session.loading
    }

    /** `handleSubmit`; `response` is the server's answer to the login
        request, used only if the request is sent. */
    method HandleSubmit(response: Session.AuthResponse) returns (navigateTo: Option<string>)
      modifies this`formMessage, session
      ensures var s := Submit(email, password, response);
        navigateTo == s.navigateTo && formMessage == s.message
      ensures Validate(email, password).Some? ==> unchanged(session)
      ensures Validate(email, password).None? ==>
        session.State() == Session.Authenticated(old(session.State()), response, Session.LoginFallback)
      ensures Validate(email, password).None? ==> !SubmitDisabled()
    {
      formMessage := "";
      navigateTo := None;
      if email == "" || password == "" {
        formMessage := MissingFields;
        return;
      }
      var result := session.Login(email, password, response);
      match result {
        case Succeeded =>
          navigateTo := Some(DashboardTarget);
        case FailedWith(e) =>
          formMessage := OrElse(Some(e), TryAgain);
      }
    }
  }
}
