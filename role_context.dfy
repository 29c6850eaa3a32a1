/** The role provider: resolves the signed-in identity and its profile role,
    and derives the capability flags every gated view reads. */
module RoleContext {
  import opened Js

  const UserRole: Str := "user"
  const SubsRole: Str := "subs"
  const AdminRole: Str := "admin"

  /** An identity from the auth service, with the two `user_metadata` names
      the views read. */
  datatype AuthUser = AuthUser(id: Str, email: Option<Str>, fullName: Option<Str>, name: Option<Str>)

  /** The provider's `user`: the identity with the profile's username copied
      in (`{ ...currentUser, username: profile?.username }`). */
  datatype SessionUser = SessionUser(identity: AuthUser, username: Option<Str>)

  /** The `role, username` columns of a `profiles` row. */
  datatype ProfileRow = ProfileRow(role: Option<Str>, username: Option<Str>)

  /** What one run of `fetchUserRole` decides: the new `user` and `role`. */
  datatype Resolution = Resolution(user: Option<SessionUser>, role: Option<Str>)

  /** One run of `fetchUserRole`, given what `auth.getUser()` and the profile
      lookup settled to (the lookup is only made for a signed-in identity, and
      its error field is ignored: a missing row reads as `null`). */
  function Resolve(identity: Fetch<Option<AuthUser>>, profile: Fetch<Option<ProfileRow>>): (r: Resolution)
    ensures r.user.None? <==> r.role.None?
    ensures r.role.Some? ==> r.role.value != []
  {
    match identity
    case Threw => Resolution(None, None)
    case Returned(None) => Resolution(None, None)
    case Returned(Some(u)) =>
      match profile
      case Threw => Resolution(None, None)
      case Returned(row) =>
        var username := if row.Some? then row.value.username else None;
        var role := if row.Some? then row.value.role else None;
        Resolution(Some(SessionUser(u, username)), Some(OrElse(role, UserRole)))
  }

  /** A signed-in identity whose profile row is missing, or has a falsy role,
      is given the role 'user'; the username is the profile's, possibly absent. */
  lemma ResolveDefaultsToUser(u: AuthUser, row: Option<ProfileRow>)
    requires row.None? || !Truthy(row.value.role)
    ensures Resolve(Returned(Some(u)), Returned(row)).role == Some(UserRole)
    ensures Resolve(Returned(Some(u)), Returned(row)).user ==
            Some(SessionUser(u, if row.Some? then row.value.username else None))
  {
  }

  /** A signed-in identity whose profile has a truthy role keeps that role. */
  lemma ResolveKeepsProfileRole(u: AuthUser, row: ProfileRow)
    requires Truthy(row.role)
    ensures Resolve(Returned(Some(u)), Returned(Some(row))).role == row.role
  {
  }

  /** No identity, or an exception anywhere in the resolution, clears the
      session. */
  lemma ResolveFailureClearsSession(identity: Fetch<Option<AuthUser>>, profile: Fetch<Option<ProfileRow>>)
    requires identity.Threw? || identity.value.None? || profile.Threw?
    ensures Resolve(identity, profile) == Resolution(None, None)
  {
  }

  /** The values the provider exposes besides `user`, `role` and `loading`. */
  datatype Capabilities = Capabilities(
    isUser: bool, isSubs: bool, isAdmin: bool,
    hasAccess: bool, canAddNotes: bool, canManageContent: bool,
    isGuest: bool, requiresUpgrade: bool, requiresLogin: bool)

  /** The capability flags, as pure expressions of `role` and `user`. */
  function Flags(user: Option<SessionUser>, role: Option<Str>): (c: Capabilities)
    ensures c.hasAccess <==> c.isSubs || c.isAdmin
    ensures c.canAddNotes <==> c.hasAccess
    ensures c.canManageContent <==> c.isAdmin
    ensures c.requiresUpgrade <==> c.isUser
    ensures c.requiresLogin <==> c.isGuest
    ensures !(c.isUser && c.isSubs) && !(c.isUser && c.isAdmin) && !(c.isSubs && c.isAdmin)
  {
    var isSubs := role == Some(SubsRole);
    var isAdmin := role == Some(AdminRole);
    Capabilities(
      isUser := role == Some(UserRole), isSubs := isSubs, isAdmin := isAdmin,
      hasAccess := isSubs || isAdmin, canAddNotes := isSubs || isAdmin,
      canManageContent := isAdmin,
      isGuest := user.None?, requiresUpgrade := role == Some(UserRole),
      requiresLogin := user.None?)
  }

  /** How the flags relate to one another for any state: adding notes and
      premium access coincide and are exactly "subs or admin"; managing
      content is being an admin; an upgrade is asked exactly of a 'user';
      guest and login-required coincide; at most one role test holds. */
  lemma CapabilityTable(user: Option<SessionUser>, role: Option<Str>)
    ensures var c := Flags(user, role);
      && (c.canAddNotes <==> c.hasAccess)
      && (c.hasAccess <==> role == Some(SubsRole) || role == Some(AdminRole))
      && (c.canManageContent <==> c.isAdmin)
      && (c.isAdmin <==> role == Some(AdminRole))
      && (c.requiresUpgrade <==> role == Some(UserRole))
      && (c.requiresLogin <==> c.isGuest)
      && (c.requiresLogin <==> user.None?)
      && !(c.isUser && c.isSubs) && !(c.isUser && c.isAdmin) && !(c.isSubs && c.isAdmin)
  {
  }

  /** After any resolution a guest is never asked to upgrade and never has
      access: login-required and upgrade-required exclude each other, and so
      do login-required and access. */
  lemma ResolvedFlagsExclusive(identity: Fetch<Option<AuthUser>>, profile: Fetch<Option<ProfileRow>>)
    ensures var r := Resolve(identity, profile);
      var c := Flags(r.user, r.role);
      && !(c.requiresLogin && c.requiresUpgrade)
      && !(c.requiresLogin && c.hasAccess)
      && (c.requiresLogin <==> r.role.None?)
  {
  }

  /** The provider's state: `user`, `role` and `loading`, and the effect's
      `mounted` flag. */
  class RoleProvider {
    var user: Option<SessionUser>
    var role: Option<Str>
    var loading: bool
    var mounted: bool

    /** `user` is null exactly when `role` is null. */
    predicate Valid()
      reads this
    {
      (user.None? <==> role.None?) && (role.Some? ==> role.value != [])
    }

    constructor ()
      ensures Valid()
      ensures user == None && role == None && loading && mounted
    {
      user, role, loading, mounted := None, None, true, true;
    }

    /** One run of `fetchUserRole` settling (on mount or on an auth-state
        change): applied only while mounted, after which loading is over. */
    method FetchUserRole(identity: Fetch<Option<AuthUser>>, profile: Fetch<Option<ProfileRow>>)
      requires Valid()
      modifies this
      ensures Valid() && mounted == old(mounted)
      ensures old(mounted) ==> Resolution(user, role) == Resolve(identity, profile) && !loading
      ensures !old(mounted) ==> user == old(user) && role == old(role) && loading == old(loading)
    {
      if mounted {
        var r := Resolve(identity, profile);
        user := r.user;
        role := r.role;
        loading := false;
      }
    }

    /** The effect's cleanup. */
    method Unmount()
      modifies this
      ensures !mounted && user == old(user) && role == old(role) && loading == old(loading)
    {
      mounted := false;
    }

    function Capabilities(): Capabilities
      reads this
    {
      Flags(user, role)
    }
  }
}
