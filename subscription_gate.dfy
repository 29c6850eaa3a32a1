/** The gate around premium features: render the children when the role
    gives access, otherwise one of two fallbacks chosen by whether the user
    is a signed-in 'user' (upgrade) or anything else (login). */
module SubscriptionGate {
  import opened Js
  import RoleContext

  const DefaultFeature: Str := "fitur ini"
  const PremiumTitle: Str := "Fitur Premium"
  const LoginTitle: Str := "Login Diperlukan"
  const LoginHref: Str := "/login"

  datatype GateAction = UpgradeButton | LoginLink(href: Str)

  datatype Fallback = Fallback(title: Str, description: Str, action: GateAction)

  datatype GateView = ShowChildren | ShowFallback(fallback: Fallback)

  /** The `feature` prop with its default, which applies only when the prop
      is not passed. */
  function FeatureName(feature: Option<Str>): (r: Str)
    ensures feature.None? ==> r == DefaultFeature
    ensures feature.Some? ==> r == feature.value
  {
    if feature.Some? then feature.value else DefaultFeature
  }

  /** The premium notice: it names the feature right after "Akses ". */
  function UpgradeDescription(feature: Str): (r: Str)
    ensures OccursAt(r, feature, 6) && OccursAt(r, "Akses ", 0)
  {
    "Akses " + feature + " tersedia untuk member premium. Upgrade akun Anda untuk mendapatkan akses penuh ke semua fitur."
  }

  /** The login notice: it names the feature just before the final '.'. */
  function LoginDescription(feature: Str): (r: Str)
    ensures OccursAt(r, feature, 30) && r[|r| - 1] == '.'
  {
    "Silakan login untuk mengakses " + feature + "."
  }

  /** What the gate renders for the provider's `role` and `hasAccess`. */
  function Gate(hasAccess: bool, role: Option<Str>, feature: Option<Str>): (v: GateView)
    ensures v.ShowChildren? <==> hasAccess
    ensures v.ShowFallback? ==>
      && (v.fallback.action.UpgradeButton? <==> role == Some(RoleContext.UserRole))
      && (v.fallback.title == PremiumTitle <==> role == Some(RoleContext.UserRole))
      && (v.fallback.title == LoginTitle <==> role != Some(RoleContext.UserRole))
      && (v.fallback.action.LoginLink? ==> v.fallback.action.href == LoginHref)
      && Includes(v.fallback.description, FeatureName(feature))
  {
    if hasAccess then ShowChildren
    else
      var name := FeatureName(feature);
      if role == Some(RoleContext.UserRole) then
        var d := UpgradeDescription(name);
        assert OccursAt(d, name, 6);
        Js.IncludesAt(d, name, 6);
        ShowFallback(Fallback(PremiumTitle, d, UpgradeButton))
      else
        var d := LoginDescription(name);
        assert OccursAt(d, name, 30);
        Js.IncludesAt(d, name, 30);
        ShowFallback(Fallback(LoginTitle, d, LoginLink(LoginHref)))
  }

  /** The gate as the provider drives it: after any resolution, children are
      shown exactly to 'subs' and 'admin'; a signed-in 'user' gets the
      upgrade fallback; a guest, or any other role, gets the login link and
      never the upgrade surface. */
  lemma GateAfterResolution(
      identity: Fetch<Option<RoleContext.AuthUser>>,
      profile: Fetch<Option<RoleContext.ProfileRow>>,
      feature: Option<Str>)
    ensures var r := RoleContext.Resolve(identity, profile);
      var c := RoleContext.Flags(r.user, r.role);
      var v := Gate(c.hasAccess, r.role, feature);
      && (v.ShowChildren? <==> r.role == Some(RoleContext.SubsRole) || r.role == Some(RoleContext.AdminRole))
      && (c.requiresLogin ==> v == ShowFallback(Fallback(LoginTitle, LoginDescription(FeatureName(feature)), LoginLink(LoginHref))))
      && (c.requiresUpgrade ==> v.ShowFallback? && v.fallback.action == UpgradeButton)
  {
  }
}
