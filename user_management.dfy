/** The admin user list: profiles merged with the auth service's records,
    filtered by a search text and a role, and the per-row role change. */
module UserManagement {
  import opened Js
  import opened Lists

  const Roles: seq<Str> := ["user", "subs", "admin"]
  const AllRoles: Str := "all"
  const NoEmail: Str := "N/A"

  /** A `profiles` row: `id, username, role, created_at`. */
  datatype Profile = Profile(id: Str, username: Option<Str>, role: Option<Str>, createdAt: int)

  /** A record from the auth service's user listing. */
  datatype AuthRecord = AuthRecord(id: Str, email: Option<Str>, emailConfirmedAt: Option<Str>)

  /** A listed user: the profile with an e-mail (or 'N/A') and the
      confirmation instant (or null). */
  datatype UserRow = UserRow(profile: Profile, email: Str, emailConfirmedAt: Option<Str>)

  /** Position `i` holds the first record of `auths` with that id. */
  predicate FirstWithId(auths: seq<AuthRecord>, id: Str, i: int)
  {
    0 <= i < |auths| && auths[i].id == id && forall j :: 0 <= j < i ==> auths[j].id != id
  }

  /** `authUsers.find(u => u.id === id)`: the first record with that id. */
  function FindAuth(auths: seq<AuthRecord>, id: Str): (r: Option<AuthRecord>)
    ensures r.None? <==> forall a :: a in auths ==> a.id != id
    ensures r.Some? ==> r.value.id == id && exists i :: FirstWithId(auths, id, i) && auths[i] == r.value
  {
    if auths == [] then None
    else if auths[0].id == id then
      assert FirstWithId(auths, id, 0);
      Some(auths[0])
    else
      var r := FindAuth(auths[1..], id);
      assert auths == [auths[0]] + auths[1..];
      if r.Some? then
        var i :| FirstWithId(auths[1..], id, i) && auths[1..][i] == r.value;
        assert FirstWithId(auths, id, i + 1);
        r
      else r
  }

  /** One profile joined with its auth record, when there is one. */
  function MergeOne(p: Profile, auth: Option<AuthRecord>): (u: UserRow)
    ensures u.profile == p
    ensures u.email == if auth.Some? && Truthy(auth.value.email) then auth.value.email.value else NoEmail
    ensures u.emailConfirmedAt ==
      if auth.Some? && Truthy(auth.value.emailConfirmedAt) then auth.value.emailConfirmedAt else None
  {
    var email := if auth.Some? then auth.value.email else None;
    var confirmed := if auth.Some? then auth.value.emailConfirmedAt else None;
    UserRow(p, OrElse(email, NoEmail), if Truthy(confirmed) then confirmed else None)
  }

  /** The merged list: one row per profile, in profile order, each joined
      with the first auth record that has its id. */
  function Merge(profiles: seq<Profile>, auths: seq<AuthRecord>): (r: seq<UserRow>)
    ensures |r| == |profiles|
    ensures forall i :: 0 <= i < |r| ==> r[i] == MergeOne(profiles[i], FindAuth(auths, profiles[i].id))
  {
    seq(|profiles|, i requires 0 <= i < |profiles| => MergeOne(profiles[i], FindAuth(auths, profiles[i].id)))
  }

  /** The list used when the auth listing fails: every profile with 'N/A' and
      no confirmation. */
  function Fallback(profiles: seq<Profile>): (r: seq<UserRow>)
    ensures |r| == |profiles|
    ensures forall i :: 0 <= i < |r| ==> r[i] == UserRow(profiles[i], NoEmail, None)
  {
    seq(|profiles|, i requires 0 <= i < |profiles| => UserRow(profiles[i], NoEmail, None))
  }

  /** The fallback is the merge against an empty listing. */
  lemma FallbackIsEmptyMerge(profiles: seq<Profile>)
    ensures Fallback(profiles) == Merge(profiles, [])
  {
  }

  /** A profile with no auth record is listed as 'N/A' and unconfirmed. */
  lemma UnmatchedProfile(profiles: seq<Profile>, auths: seq<AuthRecord>, i: int)
    requires 0 <= i < |profiles|
    requires forall a :: a in auths ==> a.id != profiles[i].id
    ensures Merge(profiles, auths)[i] == Fallback(profiles)[i]
  {
  }

  /** The list's filter: the search text occurs, ignoring ASCII case, in the
      username or the e-mail, and the role filter is 'all' or the user's role. */
  predicate KeepUser(u: UserRow, query: Str, roleFilter: Str): (b: bool)
    ensures b ==> roleFilter == AllRoles || u.profile.role == Some(roleFilter)
    ensures b ==>
      || (u.profile.username.Some? && Includes(ToLower(u.profile.username.value), ToLower(query)))
      || Includes(ToLower(u.email), ToLower(query))
  {
    (IncludesIgnoringCase(u.profile.username, query) || IncludesIgnoringCase(Some(u.email), query))
    && (roleFilter == AllRoles || u.profile.role == Some(roleFilter))
  }

  /** `filteredUsers`: the kept users in list order; the footer's total is its
      length. */
  function FilteredUsers(users: seq<UserRow>, query: Str, roleFilter: Str): (r: seq<UserRow>)
    ensures Sublist(r, users) && |r| <= |users|
    ensures forall u :: u in r <==> u in users && KeepUser(u, query, roleFilter)
  {
    Filter(users, (u: UserRow) => KeepUser(u, query, roleFilter))
  }

  /** With no search text and no role filter every user is listed, since
      every row has an e-mail string. */
  lemma NoFilterListsAll(users: seq<UserRow>)
    ensures FilteredUsers(users, "", AllRoles) == users
  {
    forall u | u in users
      ensures KeepUser(u, "", AllRoles)
    {
      IncludesEmpty(ToLower(u.email));
    }
    FilterAll(users, (u: UserRow) => KeepUser(u, "", AllRoles));
  }

  /** For a fixed search text, the three role filters split the users whose
      role is one of the three: their totals add up to the 'all' total of
      those users. */
  lemma RoleFiltersPartition(users: seq<UserRow>, query: Str)
    requires forall u :: u in users ==> u.profile.role.Some? && u.profile.role.value in Roles
    ensures |FilteredUsers(users, query, "user")| + |FilteredUsers(users, query, "subs")|
            + |FilteredUsers(users, query, "admin")| == |FilteredUsers(users, query, AllRoles)|
  {
    var all := (u: UserRow) => KeepUser(u, query, AllRoles);
    var ru := (u: UserRow) => KeepUser(u, query, "user");
    var rs := (u: UserRow) => KeepUser(u, query, "subs");
    var ra := (u: UserRow) => KeepUser(u, query, "admin");
    var rsa := (u: UserRow) => KeepUser(u, query, "subs") || KeepUser(u, query, "admin");
    FilterSplit(users, all, ru, rsa);
    FilterSplit(users, rsa, rs, ra);
  }

  /** The update a role change sends: `profiles.role := newRole` for `id`. */
  datatype RoleUpdate = RoleUpdate(id: Str, role: Str)

  /** What one selection in a row's role menu does: whether the confirmation
      dialog is shown, the update sent, and whether the list is fetched again. */
  datatype RoleChange = RoleChange(dialog: bool, update: Option<RoleUpdate>, refetch: bool)

  /** `handleRoleChange`, given the dialog's answer and the update's outcome. */
  function HandleRoleChange(u: UserRow, newRole: Str, confirmed: bool, updateFailed: bool): (c: RoleChange)
    ensures c.dialog <==> u.profile.role != Some(newRole)
    ensures c.update.Some? <==> c.dialog && confirmed
    ensures c.update.Some? ==> c.update.value == RoleUpdate(u.profile.id, newRole)
    ensures c.refetch <==> c.update.Some? && !updateFailed
  {
    if u.profile.role == Some(newRole) then RoleChange(false, None, false)
    else if !confirmed then RoleChange(true, None, false)
    else RoleChange(true, Some(RoleUpdate(u.profile.id, newRole)), !updateFailed)
  }

  /** Re-selecting the current role does nothing at all. */
  lemma SameRoleIsNoOp(u: UserRow, confirmed: bool, updateFailed: bool)
    requires u.profile.role.Some?
    ensures HandleRoleChange(u, u.profile.role.value, confirmed, updateFailed) == RoleChange(false, None, false)
  {
  }

  /** The admin list's state. */
  class UserList {
    var users: seq<UserRow>
    var loading: bool
    var searchQuery: Str
    var roleFilter: Str

    constructor ()
      ensures users == [] && loading && searchQuery == [] && roleFilter == AllRoles
    {
      users, loading, searchQuery, roleFilter := [], true, [], AllRoles;
    }

    /** `fetchUsers`, with the profile query's and the auth listing's
      outcomes (the listing's `data` is its `users` array): a failed or null
      profile query keeps the list; a failed listing gives the fallback rows;
      a listing without a `users` array fails in the first `find` and keeps
      the list, unless there are no profiles to look up, which gives [];
      otherwise the merge. Loading ends in every case. */
    method FetchUsers(profiles: Query<seq<Profile>>, auths: Query<seq<AuthRecord>>)
      modifies this`users, this`loading
      ensures !loading
      ensures users ==
        if profiles.error || profiles.data.None? then old(users)
        else if auths.error then Fallback(profiles.data.value)
        else if auths.data.None? then (if profiles.data.value == [] then [] else old(users))
        else Merge(profiles.data.value, auths.data.value)
    {
      if !profiles.error && profiles.data.Some? {
        if auths.error {
          users := Fallback(profiles.data.value);
        } else if auths.data.Some? {
          users := Merge(profiles.data.value, auths.data.value);
        } else if profiles.data.value == [] {
          users := [];
        }
      }
      loading := false;
    }

    method SetSearch(q: Str)
      modifies this`searchQuery
      ensures searchQuery == q
    {
      searchQuery := q;
    }

    method SetRoleFilter(r: Str)
      modifies this`roleFilter
      ensures roleFilter == r
    {
      roleFilter := r;
    }

    /** The rows on screen. */
    function Shown(): seq<UserRow>
      reads this
    {
      FilteredUsers(users, searchQuery, roleFilter)
    }
  }
}
