/** The registration form of src/components/Register.jsx: three fields, two
    client-side checks in a fixed order, then the session's `register`. */
module RegisterForm {
  import opened Common
  import Session
  import AuthRoutes

  const MissingFields := "Please fill in all fields."
  const ShortPassword := "Password must be at least 6 characters long."
  const TryAgain := "Registration failed. Please try again."
  const DashboardTarget := "dashboard"
  const MinPasswordLength := 6

  datatype Registration = Registration(name: string, email: string, password: string)

  datatype Submission = Submission(call: Option<Registration>, navigateTo: Option<string>, message: string)

  /** The client-side checks; the missing-field check comes first. */
  function Validate(name: string, email: string, password: string): Option<string> {
    if name == "" || email == "" || password == "" then Some(MissingFields)
    else if |password| < MinPasswordLength then Some(ShortPassword)
    else None
  }

  function Submit(name: string, email: string, password: string, response: Session.AuthResponse): Submission {
    match Validate(name, email, password)
    case Some(m) => Submission(None, None, m)
    case None =>
      match Session.AuthReply(response, Session.RegisterFallback)
      case Succeeded => Submission(Some(Registration(name, email, password)), Some(DashboardTarget), "")
      case FailedWith(e) => Submission(Some(Registration(name, email, password)), None, OrElse(Some(e), TryAgain))
  }

  // ---------------------------------------------------------------------

  /** The checks pass exactly when all three fields are filled and the
      password has at least six characters. */
  lemma ValidIff(name: string, email: string, password: string)
    ensures Validate(name, email, password).None? <==>
      name != "" && email != "" && password != "" && |password| >= MinPasswordLength
  {
  }

  /** A missing field is reported even when the password is also too short;
      the length message appears only when every field is filled. */
  lemma MissingFieldWins(name: string, email: string, password: string)
    ensures (name == "" || email == "" || password == "") ==> Validate(name, email, password) == Some(MissingFields)
    ensures Validate(name, email, password) == Some(ShortPassword) <==>
      name != "" && email != "" && password != "" && |password| < MinPasswordLength
  {
  }

  /** `register` is called, with the typed fields, exactly when the checks
      pass; otherwise the check's message is shown. */
  lemma RegisterCalledIffValid(name: string, email: string, password: string, response: Session.AuthResponse)
    ensures Submit(name, email, password, response).call.Some? <==> Validate(name, email, password).None?
    ensures Submit(name, email, password, response).call.Some? ==>
      Submit(name, email, password, response).call.value == Registration(name, email, password)
    ensures Validate(name, email, password).Some? ==>
      Submit(name, email, password, response).message == Validate(name, email, password).value
  {
  }

  /** The form navigates to the dashboard, with an empty message, exactly
      when the checks pass and the server accepts the registration; any
      other outcome leaves a non-empty message. */
  lemma NavigatesIffAccepted(name: string, email: string, password: string, response: Session.AuthResponse)
    ensures Submit(name, email, password, response).navigateTo.Some? <==>
      Validate(name, email, password).None? && response.AuthOk?
    ensures Submit(name, email, password, response).navigateTo.Some? ==>
      Submit(name, email, password, response).navigateTo.value == DashboardTarget &&
      Submit(name, email, password, response).message == ""
    ensures Submit(name, email, password, response).navigateTo.None? ==>
      Submit(name, email, password, response).message != ""
  {
  }

  /** `handleSubmit` as src/App.jsx mounts the form, without a
      `navigateTo` prop: on success the call throws and the handler ends
      there. `None` is that throw. */
  function SubmitWithoutNavigator(name: string, email: string, password: string, response: Session.AuthResponse): Option<Submission> {
    var s := Submit(name, email, password, response);
    if s.navigateTo.Some? then None else Some(s)
  }

  /** Every accepted registration throws in the handler as mounted, where
      the handler with a navigator goes to the dashboard; the redirect effect
      of src/App.jsx then moves the user off "/register" to
      "/dashboard" exactly when the server's token is non-empty. */
  lemma MissingNavigatorThrows(s: Session.Snapshot, name: string, email: string, password: string, token: string, user: User)
    requires Validate(name, email, password).None?
    ensures SubmitWithoutNavigator(name, email, password, Session.AuthOk(token, user)).None?
    ensures Submit(name, email, password, Session.AuthOk(token, user)).navigateTo == Some(DashboardTarget)
    ensures var r := Session.Authenticated(s, Session.AuthOk(token, user), Session.RegisterFallback);
      AuthRoutes.Effect(r.loading, Session.IsAuthenticated(r), AuthRoutes.Location("/register", None)) ==
        if token != "" then Some(AuthRoutes.Location("/dashboard", None)) else None
  {
  }

  // ---------------------------------------------------------------------

  class RegisterPage {
    var name: string
    var email: string
    var password: string
    var formMessage: string
    const session: Session.Session

    constructor(session: Session.Session)
      ensures name == "" && email == "" && password == "" && formMessage == ""
      ensures this.session == session
    {
      name := "";
      email := "";
      password := "";
      formMessage := "";
      this.session := session;
    }

    method SetName(value: string)
      modifies this`name
      ensures name == value
    {
      name := value;
    }

    method SetEmail(value: string)
      modifies this`email
      ensures email == value
    {
      email := value;
    }

    method SetPassword(value: string)
      modifies this`password
      ensures password == value
    {
      password := value;
    }

    predicate SubmitDisabled()
      reads this, session
    {
      session.loading
    }

    /** `handleSubmit`; `response` is the server's answer to the
        registration request, used only if the request is sent. */
    method HandleSubmit(response: Session.AuthResponse) returns (navigateTo: Option<string>)
      modifies this`formMessage, session
      ensures var s := Submit(name, email, password, response);
        navigateTo == s.navigateTo && formMessage == s.message
      ensures Validate(name, email, password).Some? ==> unchanged(session)
      ensures Validate(name, email, password).None? ==>
        session.State() == Session.Authenticated(old(session.State()), response, Session.RegisterFallback)
      ensures Validate(name, email, password).None? ==> !SubmitDisabled()
    {
      formMessage := "";
      navigateTo := None;
      if name == "" || email == "" || password == "" {
        formMessage := MissingFields;
        return;
      }
      if |password| < MinPasswordLength {
        formMessage := ShortPassword;
        return;
      }
      var result := session.Register(name, email, password, response);
      match result {
        case Succeeded =>
          navigateTo := Some(DashboardTarget);
        case FailedWith(e) =>
          formMessage := OrElse(Some(e), TryAgain);
      }
    }
  }
}
