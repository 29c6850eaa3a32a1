/** The landing hero: a countdown to the exam date that stops at zero, a
    background slideshow, and the premium call to action chosen by role. */
module Hero {
  import opened Js
  import opened Router
  import RoleContext

  const Backgrounds: seq<Str> := ["/ui1.jpg", "/ui2.jpg", "/itb1.jpg", "/itb2.jpg", "/unair1.jpg"]
  const RegisterPath: Str := "/register"

  /** `getTimeLeft`'s result. */
  datatype TimeLeft = TimeLeft(days: int, hours: int, minutes: int, seconds: int, totalSeconds: int)

  /** `getTimeLeft()` at instant `now` for the exam instant `target` (ms):
      the whole seconds left, never negative, split into days, hours,
      minutes and seconds that recombine to it exactly. */
  function GetTimeLeft(target: int, now: int): (t: TimeLeft)
    ensures t.totalSeconds >= 0
    ensures t.totalSeconds == 0 <==> target - now < 1000
    ensures t.totalSeconds > 0 ==> t.totalSeconds * 1000 <= target - now < t.totalSeconds * 1000 + 1000
    ensures 0 <= t.days && 0 <= t.hours < 24 && 0 <= t.minutes < 60 && 0 <= t.seconds < 60
    ensures t.days * 86400 + t.hours * 3600 + t.minutes * 60 + t.seconds == t.totalSeconds
    ensures target <= now ==> t == TimeLeft(0, 0, 0, 0, 0)
  {
    var floorSeconds := (target - now) / 1000;
    var total := if floorSeconds < 0 then 0 else floorSeconds;
    var days := total / 86400;
    var hours := (total % 86400) / 3600;
    var minutes := (total % 3600) / 60;
    var seconds := total % 60;
    SplitSeconds(total);
    TimeLeft(days, hours, minutes, seconds, total)
  }

  /** Days, hours, minutes and seconds of a non-negative number of seconds
      recombine to it. */
  lemma SplitSeconds(total: nat)
    ensures (total / 86400) * 86400 + ((total % 86400) / 3600) * 3600
            + ((total % 3600) / 60) * 60 + total % 60 == total
  {
    var days := total / 86400;
    var r1 := total % 86400;
    var hours := r1 / 3600;
    var r2 := r1 % 3600;
    assert total == days * 86400 + r1;
    assert r1 == hours * 3600 + r2;
    assert total == (days * 24 + hours) * 3600 + r2;
    assert total % 3600 == r2;
    var minutes := r2 / 60;
    assert r2 == minutes * 60 + r2 % 60;
    assert total == ((days * 24 + hours) * 60 + minutes) * 60 + r2 % 60;
    assert total % 60 == r2 % 60;
  }

  /** The countdown never goes up as time passes. */
  lemma CountdownNonIncreasing(target: int, t1: int, t2: int)
    requires t1 <= t2
    ensures GetTimeLeft(target, t2).totalSeconds <= GetTimeLeft(target, t1).totalSeconds
  {
  }

  /** The next slide, `(i + 1) % backgrounds.length`. */
  function NextBg(i: int): (j: int)
    ensures 0 <= j < |Backgrounds|
    ensures 0 <= i < |Backgrounds| - 1 ==> j == i + 1
    ensures i == |Backgrounds| - 1 ==> j == 0
  {
    (i + 1) % |Backgrounds|
  }

  /** The slide shown after `k` rotations starting from `i`. */
  function BgAfter(i: int, k: nat): (r: int)
    ensures 0 <= i < |Backgrounds| ==> 0 <= r < |Backgrounds|
  {
    if k == 0 then i else NextBg(BgAfter(i, k - 1))
  }

  /** Rotating `k` times from a valid slide lands on `(i + k) mod 5`, so the
      slideshow cycles through every background with period 5. */
  lemma {:induction false} BgAfterIsMod(i: int, k: nat)
    requires 0 <= i < |Backgrounds|
    ensures BgAfter(i, k) == (i + k) % |Backgrounds|
  {
    if k > 0 {
      BgAfterIsMod(i, k - 1);
      var p := (i + k - 1) % 5;
      assert i + k - 1 == ((i + k - 1) / 5) * 5 + p;
      assert i + k == ((i + k - 1) / 5) * 5 + (p + 1);
      if p + 1 == 5 {
        assert i + k == ((i + k - 1) / 5 + 1) * 5;
      }
    }
  }

  /** The call to action's variant. */
  datatype Cta = NoCta | UpgradeCta | RegisterCta

  /** The role the hero hands to the call to action: the provider's role only
      while someone is signed in. */
  function CtaRole(user: Option<RoleContext.SessionUser>, role: Option<Str>): (r: Option<Str>)
    ensures user.None? ==> r.None?
    ensures user.Some? ==> r == role
  {
    if user.Some? then role else None
  }

  /** `PremiumCTA`: nothing for 'subs' and 'admin'; otherwise upgrade for a
      truthy role and register for an absent or empty one. */
  function PremiumCta(userRole: Option<Str>): (c: Cta)
    ensures c.NoCta? <==> userRole == Some(RoleContext.SubsRole) || userRole == Some(RoleContext.AdminRole)
    ensures c.UpgradeCta? <==>
      Truthy(userRole) && userRole != Some(RoleContext.SubsRole) && userRole != Some(RoleContext.AdminRole)
    ensures c.RegisterCta? <==> !Truthy(userRole)
  {
    if userRole == Some(RoleContext.SubsRole) || userRole == Some(RoleContext.AdminRole) then NoCta
    else if Truthy(userRole) then UpgradeCta
    else RegisterCta
  }

  /** The button's click: the upgrade variant opens the premium modal (no
      navigation), the register variant goes to the registration page. */
  function CtaClick(c: Cta): (nav: Option<Navigation>)
    requires !c.NoCta?
    ensures nav.Some? <==> c.RegisterCta?
    ensures nav.Some? ==> nav.value == Navigation(RegisterPath, false)
  {
    if c.RegisterCta? then Some(Navigation(RegisterPath, false)) else None
  }

  /** After any resolution of the provider: a guest is offered registration,
      a plain 'user' the upgrade, and 'subs' and 'admin' see no call to
      action, whatever stale role state there is. */
  lemma CtaAfterResolution(
      identity: Fetch<Option<RoleContext.AuthUser>>,
      profile: Fetch<Option<RoleContext.ProfileRow>>)
    ensures var r := RoleContext.Resolve(identity, profile);
      var c := PremiumCta(CtaRole(r.user, r.role));
      && (r.user.None? ==> c == RegisterCta)
      && (r.role == Some(RoleContext.UserRole) ==> c == UpgradeCta)
      && (c == NoCta <==> r.role == Some(RoleContext.SubsRole) || r.role == Some(RoleContext.AdminRole))
  {
  }

  /** A signed-out visitor never sees the upgrade variant, whatever the role
      state still holds. */
  lemma GuestGetsRegister(role: Option<Str>)
    ensures PremiumCta(CtaRole(None, role)) == RegisterCta
  {
  }

  /** The hero's state. */
  class HeroState {
    var bgIndex: int
    var fade: bool
    var timeLeft: TimeLeft
    var modalOpen: bool

    predicate Valid()
      reads this
    {
      0 <= bgIndex < |Backgrounds|
    }

    constructor (target: int, now: int)
      ensures Valid()
      ensures bgIndex == 0 && fade && timeLeft == GetTimeLeft(target, now) && !modalOpen
    {
      bgIndex, fade, timeLeft, modalOpen := 0, true, GetTimeLeft(target, now), false;
    }

    /** The background the hero shows. */
    function Background(): Str
      requires Valid()
      reads this
    {
      Backgrounds[bgIndex]
    }

    /** The slideshow tick: the picture fades out. */
    method FadeOut()
      requires Valid()
      modifies this`fade
      ensures Valid() && !fade
    {
      fade := false;
    }

    /** The delayed half of the tick: the next picture fades in. */
    method Advance()
      requires Valid()
      modifies this`bgIndex, this`fade
      ensures Valid() && fade && bgIndex == NextBg(old(bgIndex))
    {
      bgIndex := NextBg(bgIndex);
      fade := true;
    }

    /** The countdown tick. */
    method Tick(target: int, now: int)
      requires Valid()
      modifies this`timeLeft
      ensures Valid() && timeLeft == GetTimeLeft(target, now)
    {
      timeLeft := GetTimeLeft(target, now);
    }

    /** A click on the call to action. */
    method ClickCta(c: Cta) returns (nav: Option<Navigation>)
      requires Valid() && !c.NoCta?
      modifies this`modalOpen
      ensures Valid() && nav == CtaClick(c)
      ensures modalOpen == (old(modalOpen) || c.UpgradeCta?)
    {
      nav := CtaClick(c);
      if c.UpgradeCta? {
        modalOpen := true;
      }
    }

    method CloseModal()
      requires Valid()
      modifies this`modalOpen
      ensures Valid() && !modalOpen
    {
      modalOpen := false;
    }
  }
}
