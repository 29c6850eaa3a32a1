/** The admin dashboard page: an access check that admits only profiles whose
    role is 'admin', the render guard, and the tab that picks the panel. */
module AdminPage {
  import opened Js
  import opened Router
  import RoleContext

  const NeedLoginPath: Str := "/need-login"
  const HomePath: Str := "/"

  /** `auth.getUser()`'s `{ data: { user }, error }`. */
  datatype AuthLookup = AuthLookup(user: Option<RoleContext.AuthUser>, error: bool)

  /** The `profiles` lookup's `{ data, error }`; the row holds `role` only. */
  datatype ProfileLookup = ProfileLookup(row: Option<Option<Str>>, error: bool)

  /** The outcome of `checkAdminAccess`. `alerted` says whether an
      "access denied" dialog precedes the navigation. */
  datatype AdminCheck =
    | Granted(user: RoleContext.AuthUser, role: Str)
    | Redirect(nav: Navigation, alerted: bool)

  function CheckAdminAccess(auth: Fetch<AuthLookup>, profile: Fetch<ProfileLookup>): (r: AdminCheck)
    ensures r.Granted? <==>
      && auth.Returned? && !auth.value.error && auth.value.user.Some?
      && profile.Returned? && !profile.value.error
      && profile.value.row == Some(Some(RoleContext.AdminRole))
    ensures r.Granted? ==> r.role == RoleContext.AdminRole && Some(r.user) == auth.value.user
    ensures r.Redirect? ==> r.nav.replace
    ensures r.Redirect? && r.nav.path == NeedLoginPath <==>
      auth.Returned? && (auth.value.error || auth.value.user.None?)
    ensures r.Redirect? && r.nav.path != NeedLoginPath ==> r.nav.path == HomePath
    ensures auth.Threw? ==> r == Redirect(Navigation(HomePath, true), false)
    ensures r.Redirect? ==>
      (r.alerted <==> auth.Returned? && !auth.value.error && auth.value.user.Some? && profile.Returned?)
  {
    match auth
    case Threw => Redirect(Navigation(HomePath, true), false)
    case Returned(a) =>
      if a.error || a.user.None? then Redirect(Navigation(NeedLoginPath, true), false)
      else
        match profile
        case Threw => Redirect(Navigation(HomePath, true), false)
        case Returned(p) =>
          if p.error || p.row.None? then Redirect(Navigation(HomePath, true), true)
          else if p.row.value != Some(RoleContext.AdminRole) then Redirect(Navigation(HomePath, true), true)
          else Granted(a.user.value, RoleContext.AdminRole)
  }

  /** Unlike the role provider there is no default to 'user' here: a failed
      or empty profile lookup is a denial that sends the visitor home. */
  lemma MissingProfileIsDenied(u: RoleContext.AuthUser, profile: ProfileLookup)
    requires profile.error || profile.row.None?
    ensures CheckAdminAccess(Returned(AuthLookup(Some(u), false)), Returned(profile))
            == Redirect(Navigation(HomePath, true), true)
  {
  }

  /** Any role other than 'admin', including an absent one, is a denial. */
  lemma NonAdminIsDenied(u: RoleContext.AuthUser, role: Option<Str>)
    requires role != Some(RoleContext.AdminRole)
    ensures CheckAdminAccess(Returned(AuthLookup(Some(u), false)), Returned(ProfileLookup(Some(role), false)))
            == Redirect(Navigation(HomePath, true), true)
  {
  }

  datatype Panel = UserPanel | ContentPanel | AnnouncementPanel | FeedbackPanel

  /** The `activeTab` value each panel is rendered under; no two panels share
      one. */
  function TabName(p: Panel): (r: Str)
    ensures r == "users" <==> p == UserPanel
    ensures r == "content" <==> p == ContentPanel
    ensures r == "announcements" <==> p == AnnouncementPanel
    ensures r == "feedback" <==> p == FeedbackPanel
  {
    match p
    case UserPanel => "users"
    case ContentPanel => "content"
    case AnnouncementPanel => "announcements"
    case FeedbackPanel => "feedback"
  }

  /** The panels rendered under the tab bar: each one whose
      `activeTab === name` test holds. */
  function PanelsFor(activeTab: Str): (r: seq<Panel>)
    ensures forall p :: p in r <==> TabName(p) == activeTab
    ensures |r| <= 1
  {
    if activeTab == "users" then [UserPanel]
    else if activeTab == "content" then [ContentPanel]
    else if activeTab == "announcements" then [AnnouncementPanel]
    else if activeTab == "feedback" then [FeedbackPanel]
    else []
  }

  datatype AdminView = LoadingScreen | Nothing | Dashboard(panels: seq<Panel>)

  /** The render guard, then the panel for the active tab. */
  function View(checking: bool, showLoading: bool, user: Option<RoleContext.AuthUser>,
                role: Option<Str>, activeTab: Str): (v: AdminView)
    ensures v.Dashboard? <==>
      !checking && !showLoading && user.Some? && role == Some(RoleContext.AdminRole)
    ensures v.Dashboard? ==> forall p :: p in v.panels <==> TabName(p) == activeTab
  {
    if checking || showLoading then LoadingScreen
    else if user.None? || role != Some(RoleContext.AdminRole) then Nothing
    else Dashboard(PanelsFor(activeTab))
  }

  class AdminPageState {
    var user: Option<RoleContext.AuthUser>
    var role: Option<Str>
    var checking: bool
    var activeTab: Str
    var mounted: bool

    /** Only a granted check unlocks the dashboard. */
    predicate Valid()
      reads this
    {
      && (activeTab == "users" || activeTab == "content" || activeTab == "announcements" || activeTab == "feedback")
      && (!checking ==> user.Some? && role == Some(RoleContext.AdminRole))
    }

    constructor ()
      ensures Valid()
      ensures user.None? && role.None? && checking && activeTab == "users" && mounted
    {
      user, role, checking, activeTab, mounted := None, None, true, "users", true;
    }

    /** `checkAdminAccess` settling: only a grant sets user, role and
        checking; every other outcome only navigates, and only while mounted. */
    method ApplyCheck(auth: Fetch<AuthLookup>, profile: Fetch<ProfileLookup>) returns (nav: Option<Navigation>)
      requires Valid()
      modifies this
      ensures Valid() && mounted == old(mounted) && activeTab == old(activeTab)
      ensures var r := CheckAdminAccess(auth, profile);
        && (old(mounted) && r.Granted? ==>
              user == Some(r.user) && role == Some(r.role) && !checking && nav.None?)
        && (old(mounted) && r.Redirect? ==>
              user == old(user) && role == old(role) && checking == old(checking) && nav == Some(r.nav))
        && (!old(mounted) ==>
              user == old(user) && role == old(role) && checking == old(checking) && nav.None?)
    {
      nav := None;
      if mounted {
        var r := CheckAdminAccess(auth, profile);
        match r
        case Granted(u, ro) =>
          user, role, checking := Some(u), Some(ro), false;
        case Redirect(n, _) =>
          nav := Some(n);
      }
    }

    /** A click on one of the four tab buttons. */
    method SelectTab(p: Panel)
      requires Valid()
      modifies this`activeTab
      ensures Valid() && activeTab == TabName(p)
    {
      activeTab := TabName(p);
    }

    method Unmount()
      modifies this`mounted
      ensures !mounted
    {
      mounted := false;
    }
  }

  /** In every reachable state the dashboard, once past the guard, shows
      exactly one panel: the one for the active tab. */
  lemma ExactlyOnePanel(s: AdminPageState, showLoading: bool)
    requires s.Valid()
    ensures var v := View(s.checking, showLoading, s.user, s.role, s.activeTab);
      v.Dashboard? ==> |v.panels| == 1 && TabName(v.panels[0]) == s.activeTab
  {
  }
}
