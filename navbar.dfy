/** The navigation bar: the greeting name, the role badge, the user menu's
    items, the right-hand slot, the two open/closed toggles, and logout. */
module Navbar {
  import opened Js
  import opened Router
  import RoleContext

  const DefaultUsername: Str := "User"
  const HomePath: Str := "/"
  const AdminPath: Str := "/admin"

  /** The greeting name for a signed-in user: the profile username, else the
      part of the e-mail before its first '@', else 'User'. */
  function NavUsername(u: RoleContext.SessionUser): (r: Str)
    ensures r != []
    ensures Truthy(u.username) ==> r == u.username.value
    ensures !Truthy(u.username) && Truthy(EmailLocalPart(u.identity.email)) ==> r == BeforeAt(u.identity.email.value)
    ensures !Truthy(u.username) && !Truthy(EmailLocalPart(u.identity.email)) ==> r == DefaultUsername
  {
    OrElse(Or(u.username, EmailLocalPart(u.identity.email)), DefaultUsername)
  }

  datatype Badge = NoBadge | AdminBadge | PremiumBadge

  /** `getRoleBadge`. */
  function RoleBadge(role: Option<Str>): (b: Badge)
    ensures b == AdminBadge <==> role == Some(RoleContext.AdminRole)
    ensures b == PremiumBadge <==> role == Some(RoleContext.SubsRole)
  {
    if role == Some(RoleContext.AdminRole) then AdminBadge
    else if role == Some(RoleContext.SubsRole) then PremiumBadge
    else NoBadge
  }

  datatype MenuItem = AdminDashboard | Logout

  /** The open dropdown's items, top to bottom. */
  function MenuItems(role: Option<Str>): (items: seq<MenuItem>)
    ensures AdminDashboard in items <==> role == Some(RoleContext.AdminRole)
    ensures |items| > 0 && items[|items| - 1] == Logout
    ensures Logout in items
  {
    (if role == Some(RoleContext.AdminRole) then [AdminDashboard] else []) + [Logout]
  }

  /** The badge and the admin item agree with the provider's admin and
      premium flags. */
  lemma BadgeMatchesFlags(user: Option<RoleContext.SessionUser>, role: Option<Str>)
    ensures var f := RoleContext.Flags(user, role);
      && (RoleBadge(role) == AdminBadge <==> f.isAdmin)
      && (RoleBadge(role) == PremiumBadge <==> f.isSubs)
      && (AdminDashboard in MenuItems(role) <==> f.canManageContent)
  {
  }

  datatype Slot = Skeleton | LoginLink | UserMenu

  /** The right-hand slot: a skeleton while the provider loads, the login link
      without a user, the user menu otherwise. */
  function RightSlot(loading: bool, user: Option<RoleContext.SessionUser>): (s: Slot)
    ensures s == Skeleton <==> loading
    ensures s == LoginLink <==> !loading && user.None?
    ensures s == UserMenu <==> !loading && user.Some?
  {
    if loading then Skeleton else if user.None? then LoginLink else UserMenu
  }

  /** Once the provider has resolved, the user menu shows exactly when a role
      is known, and the login link exactly when none is. */
  lemma RightSlotAfterResolution(
      identity: Fetch<Option<RoleContext.AuthUser>>,
      profile: Fetch<Option<RoleContext.ProfileRow>>)
    ensures var r := RoleContext.Resolve(identity, profile);
      && (RightSlot(false, r.user) == UserMenu <==> r.role.Some?)
      && (RightSlot(false, r.user) == LoginLink <==> r.role.None?)
  {
  }

  /** `handleLogout`'s navigation, given whether sign-out returned an error. */
  function LogoutNav(signOutError: bool): (nav: Option<Navigation>)
    ensures nav.Some? <==> !signOutError
    ensures nav.Some? ==> nav.value == Navigation(HomePath, false)
  {
    if signOutError then None else Some(Navigation(HomePath, false))
  }

  /** The bar's own state. */
  class NavbarState {
    var username: Str
    var mobileMenuOpen: bool

    constructor ()
      ensures username == DefaultUsername && !mobileMenuOpen
    {
      username, mobileMenuOpen := DefaultUsername, false;
    }

    /** The effect on a new `user`: recompute the name, or leave it as it
      was when there is no user. */
    method OnUser(user: Option<RoleContext.SessionUser>)
      modifies this`username
      ensures username == if user.Some? then NavUsername(user.value) else old(username)
    {
      if user.Some? {
        username := NavUsername(user.value);
      }
    }

    method ToggleMobileMenu()
      modifies this`mobileMenuOpen
      ensures mobileMenuOpen == !old(mobileMenuOpen)
    {
      mobileMenuOpen := !mobileMenuOpen;
    }

    /** Every menu link closes the mobile menu. */
    method CloseMobileMenu()
      modifies this`mobileMenuOpen
      ensures !mobileMenuOpen
    {
      mobileMenuOpen := false;
    }

    /** `handleLogout` once sign-out settles. */
    method HandleLogout(signOutError: bool) returns (nav: Option<Navigation>)
      ensures nav == LogoutNav(signOutError)
    {
      nav := LogoutNav(signOutError);
    }
  }

  /** The user menu's state. */
  class UserDropdown {
    var isOpen: bool

    constructor ()
      ensures !isOpen
    {
      isOpen := false;
    }

    method Toggle()
      modifies this`isOpen
      ensures isOpen == !old(isOpen)
    {
      isOpen := !isOpen;
    }

    /** Also run by a click outside the open menu. */
    method Close()
      modifies this`isOpen
      ensures !isOpen
    {
      isOpen := false;
    }

    /** The admin item (offered only to admins): close, then go to the
      dashboard. */
    method AdminClick(role: Option<Str>) returns (nav: Navigation)
      requires AdminDashboard in MenuItems(role)
      modifies this`isOpen
      ensures !isOpen && nav == Navigation(AdminPath, false)
    {
      isOpen := false;
      nav := Navigation(AdminPath, false);
    }

    /** The logout item: close, then hand over to the bar's logout. */
    method LogoutClick()
      modifies this`isOpen
      ensures !isOpen
    {
      isOpen := false;
    }
  }
}
