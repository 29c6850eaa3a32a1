/** The wrapper that lets only signed-in visitors see its children. */
module RequireAuth {
  import opened Js
  import opened Router
  import RoleContext

  const AuthRequiredPath: Str := "/auth-required"

  datatype AuthView = CheckingPlaceholder | Nothing | Children

  /** The render choice: the placeholder while checking, nothing once
      resolved without a user (the redirect has been issued), else the
      children unchanged. */
  function View(checking: bool, user: Option<RoleContext.AuthUser>): (v: AuthView)
    ensures v.Children? <==> !checking && user.Some?
    ensures checking ==> v == CheckingPlaceholder
  {
    if checking then CheckingPlaceholder
    else if user.None? then Nothing
    else Children
  }

  class RequireAuthState {
    var checking: bool
    var user: Option<RoleContext.AuthUser>
    var mounted: bool

    constructor ()
      ensures checking && user.None? && mounted
    {
      checking, user, mounted := true, None, true;
    }

    /** The `getUser()` promise resolving with `data.user`: applied only while
        mounted; without a user it redirects to the auth-required page,
        replacing the history entry. */
    method OnGetUser(found: Option<RoleContext.AuthUser>) returns (nav: Option<Navigation>)
      modifies this
      ensures mounted == old(mounted)
      ensures old(mounted) ==> user == found && !checking
      ensures !old(mounted) ==> user == old(user) && checking == old(checking)
      ensures nav.Some? <==> old(mounted) && found.None?
      ensures nav.Some? ==> nav.value == Navigation(AuthRequiredPath, true)
    {
      nav := None;
      if mounted {
        user := found;
        checking := false;
        if found.None? {
          nav := Some(Navigation(AuthRequiredPath, true));
        }
      }
    }

    method Unmount()
      modifies this
      ensures !mounted && user == old(user) && checking == old(checking)
    {
      mounted := false;
    }
  }

  /** Whatever the lookup returns, the redirect and the rendered view agree:
      after a resolution while mounted, the children are shown exactly when
      no redirect was issued. */
  method ResolveOnce(found: Option<RoleContext.AuthUser>) returns (nav: Option<Navigation>, v: AuthView)
    ensures v.Children? <==> nav.None?
    ensures v.Children? <==> found.Some?
  {
    var s := new RequireAuthState();
    nav := s.OnGetUser(found);
    v := View(s.checking, s.user);
  }
}
