/** The profile page of src/pages/Profile.tsx: a form filled from the
    session's user, an edit mode, a save that puts the form to the server
    and stores the user it returns, a cancel that refills the form, and
    sign-out. The email is shown read-only and never sent. */
module Profile {
  import opened Common
  import Session

  const Updated := "Profile updated successfully!"
  const UpdateFailed := "Failed to update profile"

  datatype ProfileForm = ProfileForm(name: string, age: string, educationLevel: string, learningStyle: string)

  /** The body put to `/user/profile`; `None` for the age is `NaN`. */
  datatype ProfileRequest = ProfileRequest(name: string, age: Option<int>, educationLevel: string, learningStyle: string)

  /** The form as initialised, and as reset by cancel, from `user`. */
  function FormFrom(user: Option<User>): ProfileForm {
    match user
    case None => ProfileForm("", "", "", "")
    case Some(u) =>
      ProfileForm(
        OrElse(u.name, ""),
        if u.age.Some? then IntToString(u.age.value) else "",
        OrElse(u.educationLevel, ""),
        OrElse(u.learningStyle, ""))
  }

  function RequestFor(form: ProfileForm): ProfileRequest {
    ProfileRequest(form.name, ParseInt(form.age), form.educationLevel, form.learningStyle)
  }

  /** The read-only email field. */
  function EmailShown(user: Option<User>): string {
    if user.Some? then OrElse(user.value.email, "") else ""
  }

  // ---------------------------------------------------------------------

  /** Saving a form nobody edited puts back what the server sent: the same
      name, education level and learning style (empty where absent), and the
      same age, negative ones included (`NaN` where absent). */
  lemma UneditedSaveRoundTrips(u: User)
    ensures RequestFor(FormFrom(Some(u))) ==
      ProfileRequest(OrElse(u.name, ""), u.age, OrElse(u.educationLevel, ""), OrElse(u.learningStyle, ""))
  {
    if u.age.Some? {
      ParseIntOfIntToString(u.age.value);
    }
  }

  /** Each present text field of the user is shown unchanged in the form. */
  lemma FormShowsUser(u: User)
    ensures u.name.Some? ==> FormFrom(Some(u)).name == u.name.value
    ensures u.educationLevel.Some? ==> FormFrom(Some(u)).educationLevel == u.educationLevel.value
    ensures u.learningStyle.Some? ==> FormFrom(Some(u)).learningStyle == u.learningStyle.value
    ensures (u.age.Some? <==> FormFrom(Some(u)).age != "")
  {
  }

  // ---------------------------------------------------------------------

  class ProfilePage {
    var isEditing: bool
    var isLoading: bool
    var error: string
    var success: string
    var form: ProfileForm
    const session: Session.Session

    constructor(session: Session.Session)
      ensures form == FormFrom(session.user)
      ensures !isEditing && !isLoading && error == "" && success == ""
      ensures this.session == session
    {
      isEditing := false;
      isLoading := false;
      error := "";
      success := "";
      form := FormFrom(session.user);
      this.session := session;
    }

    function EmailField(): string
      reads this, session
    {
      EmailShown(session.user)
    }

    /** The "Edit Profile" button, shown only outside edit mode. */
    method StartEditing()
      requires !isEditing
      modifies this`isEditing
      ensures isEditing
    {
      isEditing := true;
    }

    // The inputs are disabled outside edit mode.

    method SetName(value: string)
      requires isEditing
      modifies this`form
      ensures form == old(form).(name := value)
    {
      form := form.(name := value);
    }

    method SetAge(value: string)
      requires isEditing
      modifies this`form
      ensures form == old(form).(age := value)
    {
      form := form.(age := value);
    }

    method SetEducationLevel(value: string)
      requires isEditing
      modifies this`form
      ensures form == old(form).(educationLevel := value)
    {
      form := form.(educationLevel := value);
    }

    method SetLearningStyle(value: string)
      requires isEditing
      modifies this`form
      ensures form == old(form).(learningStyle := value)
    {
      form := form.(learningStyle := value);
    }

    /** `handleSubmit`, reachable only through the save button of edit mode;
        `reply` is the server's answer, carrying the updated user. The form
        keeps what was typed either way. */
    method HandleSubmit(reply: Reply<User>) returns (request: ProfileRequest)
      requires isEditing
      modifies this`isLoading, this`error, this`success, this`isEditing, session
      ensures request == RequestFor(form)
      ensures !isLoading
      ensures reply.Ok? ==>
        error == "" && success == Updated && !isEditing &&
        session.State() == Session.WithUser(old(session.State()), reply.data)
      ensures reply.Failed? ==>
        error == OrElse(reply.message, UpdateFailed) && success == "" && isEditing &&
        unchanged(session)
    {
      request := RequestFor(form);
      Settle(reply);
    }

    /** What `handleSubmit` does once the request has settled with `reply`. */
    method Settle(reply: Reply<User>)
      modifies this`isLoading, this`error, this`success, this`isEditing, session
      ensures !isLoading
      ensures reply.Ok? ==>
        error == "" && success == Updated && !isEditing &&
        session.State() == Session.WithUser(old(session.State()), reply.data)
      ensures reply.Failed? ==>
        error == OrElse(reply.message, UpdateFailed) && success == "" && isEditing == old(isEditing) &&
        unchanged(session)
    {
      isLoading := true;
      error := "";
      success := "";
      match reply {
        case Ok(u) =>
          session.UpdateUser(u);
          success := Updated;
          isEditing := false;
        case Failed(m) =>
          error := OrElse(m, UpdateFailed);
      }
      isLoading := false;
    }

    /** `handleCancel`: the form is refilled from the session's current user. */
    method HandleCancel()
      modifies this`form, this`isEditing, this`error, this`success
      ensures form == FormFrom(session.user)
      ensures !isEditing && error == "" && success == ""
    {
      form := FormFrom(session.user);
      isEditing := false;
      error := "";
      success := "";
    }

    /** The "Sign Out" button. */
    method SignOut()
      modifies session
      ensures session.State() == Session.Cleared(old(session.State()))
    {
      session.Logout();
    }
  }
}
