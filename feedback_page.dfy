/** The signed-in feedback form: the identity lookup that redirects guests,
    the message check, the inserted row with its username fallback chain,
    and the render guard. */
module FeedbackPage {
  import opened Js
  import opened Router
  import RoleContext

  const NeedLoginPath: Str := "/need-login"

  /** The username stored with a feedback: the metadata full name, else the
      metadata name, else the part of the e-mail before its first '@', else
      the empty string. */
  function FeedbackUsername(u: RoleContext.AuthUser): (r: Str)
    ensures Truthy(u.fullName) ==> r == u.fullName.value
    ensures !Truthy(u.fullName) && Truthy(u.name) ==> r == u.name.value
    ensures !Truthy(u.fullName) && !Truthy(u.name) && u.email.Some? ==> r == BeforeAt(u.email.value)
    ensures r == [] <==> !Truthy(u.fullName) && !Truthy(u.name) && !Truthy(EmailLocalPart(u.email))
  {
    OrElse(Or(Or(u.fullName, u.name), EmailLocalPart(u.email)), "")
  }

  /** The `feedback` row written on submit. */
  datatype FeedbackInsert = FeedbackInsert(userId: Str, email: Option<Str>, username: Str, message: Str)

  /** The submit's row: none for a message of white space only; otherwise
      the identity's id and e-mail, the derived username, and the message as
      typed, untrimmed. */
  function FeedbackRow(u: RoleContext.AuthUser, message: Str): (r: Option<FeedbackInsert>)
    ensures r.None? <==> AllSpace(message)
    ensures r.Some? ==> r.value == FeedbackInsert(u.id, u.email, FeedbackUsername(u), message)
  {
    if Trim(message) == [] then None
    else Some(FeedbackInsert(u.id, u.email, FeedbackUsername(u), message))
  }

  /** What the page renders. */
  datatype View = LoadingScreen | Nothing | Form

  /** The render guard: the loading screen while the lookup or the loading
      delay runs, nothing without a user, the form otherwise. */
  function Render(checking: bool, showLoadingScreen: bool, user: Option<RoleContext.AuthUser>): (v: View)
    ensures v == Form <==> !checking && !showLoadingScreen && user.Some?
    ensures v == LoadingScreen <==> checking || showLoadingScreen
  {
    if checking || showLoadingScreen then LoadingScreen
    else if user.None? then Nothing
    else Form
  }

  class FeedbackForm {
    var user: Option<RoleContext.AuthUser>
    var message: Str
    var loading: bool
    var checking: bool
    var mounted: bool

    constructor ()
      ensures user.None? && message == [] && !loading && checking && mounted
    {
      user, message, loading, checking, mounted := None, [], false, true, true;
    }

    /** The identity lookup settles with `data?.user`: while mounted the user
      is stored and a missing one is redirected, with replace, to the
      need-login page; `checking` ends whether mounted or not. */
    method OnUserLookup(found: Option<RoleContext.AuthUser>) returns (nav: Option<Navigation>)
      modifies this`user, this`checking
      ensures !checking
      ensures user == if mounted then found else old(user)
      ensures nav.Some? <==> mounted && found.None?
      ensures nav.Some? ==> nav.value == Navigation(NeedLoginPath, true)
    {
      nav := None;
      if mounted {
        user := found;
        if found.None? {
          nav := Some(Navigation(NeedLoginPath, true));
        }
      }
      checking := false;
    }

    method Unmount()
      modifies this`mounted
      ensures !mounted
    {
      mounted := false;
    }

    method SetMessage(m: Str)
      modifies this`message
      ensures message == m
    {
      message := m;
    }

    /** The synchronous part of `handleSubmit` (the form exists only with a
      user, and its button is disabled while loading): a blank message is
      refused; otherwise loading starts and the row is sent. */
    method HandleSubmit() returns (row: Option<FeedbackInsert>)
      requires user.Some? && !loading
      modifies this`loading
      ensures row == FeedbackRow(user.value, message)
      ensures loading <==> row.Some?
    {
      row := FeedbackRow(user.value, message);
      if row.Some? {
        loading := true;
      }
    }

    /** The insert settles: loading ends; success clears the message, failure
      keeps it. */
    method OnInsert(failed: bool)
      requires loading
      modifies this`loading, this`message
      ensures !loading
      ensures message == if failed then old(message) else []
    {
      loading := false;
      if !failed {
        message := [];
      }
    }
  }
}
