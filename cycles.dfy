/** Maintenance countdowns shown on the dashboard (`updateInfosBain`) and the
    cycle checklist on the measurement page (`updateMesurePage`). Day counts are
    whole days elapsed since a stored date; `None` means the date was never set. */
module Cycles {
  import opened Wrappers
  import opened JsMath
  import opened PoolConfig

  /** What a countdown shows: "-", the due message ("Aujourd'hui !" for the
      activator, "À faire !" for the balls), or "Dans n jours". */
  datatype Countdown = Unset | Due | InDays(days: int)

  /** Is `day` (counted from filling) an activator day? */
  predicate IsActivatorDay(cfg: Config, day: int)
    requires cfg.Valid()
  {
    day % cfg.activatorCycleDays == 0
  }

  /** Days until the next activator dose, as the dashboard computes it. */
  function ActivatorDaysLeft(cfg: Config, days: int): (n: int)
    requires cfg.Valid()
    ensures days >= 0 ==> 1 <= n <= cfg.activatorCycleDays
    ensures days >= 0 ==> (n == cfg.activatorCycleDays <==> IsActivatorDay(cfg, days))
    ensures days >= 0 && !IsActivatorDay(cfg, days) ==>
      IsActivatorDay(cfg, days + n) &&
      forall d :: days < d < days + n ==> !IsActivatorDay(cfg, d)
  {
    var c := cfg.activatorCycleDays;
    assert days >= 0 ==> JsRem(days, c) == days % c;
    // Both branches compute the same value; the split only lets the
    // non-negative case call `ActivatorDayAfter`.
    if days >= 0 then
      ActivatorDayAfter(c, days);
      c - JsRem(days, c)
    else
      c - JsRem(days, c)
  }

  /** Counting on from `days`, the first multiple of `c` is `c - days % c` days away. */
  lemma ActivatorDayAfter(c: int, days: int)
    requires c > 0 && days >= 0
    ensures (days + (c - days % c)) % c == 0
    ensures forall d :: days < d < days + (c - days % c) && days % c != 0 ==> d % c != 0
  {
    var q, r := days / c, days % c;
    assert days + (c - r) == (q + 1) * c;
    JsMath.MultipleHasNoRemainder(q + 1, c);
    forall d | days < d < days + (c - r) && r != 0
      ensures d % c != 0
    {
      assert q * c < d < (q + 1) * c;
      NotAMultiple(q, c, d);
    }
  }

  /** A number strictly between two consecutive multiples of `c` is not one. */
  lemma NotAMultiple(q: int, c: int, d: int)
    requires c > 0 && q * c < d < (q + 1) * c
    ensures d % c != 0
  {
    var k, m := d / c, d % c;
    assert d == k * c + m;
    assert (k + 1) * c == k * c + c;
    ScaleMonotone(q, k + 1, c);
    ScaleMonotone(k, q + 1, c);
    assert k == q;
  }

  /** Scaling by a positive factor preserves strict order. */
  lemma ScaleMonotone(x: int, y: int, c: int)
    requires c > 0
    ensures x < y <==> x * c < y * c
  {
    assert y * c - x * c == (y - x) * c;
  }

  /** The activator countdown: "Aujourd'hui !" on a cycle day, else "Dans n jours". */
  function ActivatorCountdown(cfg: Config, days: Option<int>): (r: Countdown)
    requires cfg.Valid()
    ensures days.None? <==> r == Unset
    ensures days.Some? && days.value >= 0 ==> (r == Due <==> IsActivatorDay(cfg, days.value))
    ensures r.InDays? && days.value >= 0 ==> 1 <= r.days < cfg.activatorCycleDays
    ensures r.InDays? ==> r.days == ActivatorDaysLeft(cfg, days.value)
  {
    match days
    case None => Unset
    case Some(j) =>
      var next := ActivatorDaysLeft(cfg, j);
      if next == cfg.activatorCycleDays then Due else InDays(next)
  }

  /** The ball-cleaning countdown: due once a full cycle has elapsed. */
  function BallCountdown(cfg: Config, days: Option<int>): (r: Countdown)
    ensures days.None? <==> r == Unset
    ensures days.Some? ==> (r == Due <==> days.value >= cfg.ballCycleDays)
    ensures r.InDays? ==> r.days >= 1 && days.value + r.days == cfg.ballCycleDays
  {
    match days
    case None => Unset
    case Some(j) =>
      var next := cfg.ballCycleDays - j;
      if next <= 0 then Due else InDays(next)
  }

  /** Whether the measurement page shows the activator and clarifier checklist items. */
  function ShowCycle(cfg: Config, days: int): (show: bool)
    requires cfg.Valid()
    ensures show <==> days < 1 || IsActivatorDay(cfg, days)
  {
    JsRem(days, cfg.activatorCycleDays) < 1 || days < 1
  }

  /** On and after filling day, the checklist shows exactly on the days the
      dashboard says the activator is due today. */
  lemma ChecklistMatchesCountdown(cfg: Config, days: int)
    requires cfg.Valid() && days >= 0
    ensures ShowCycle(cfg, days) <==> ActivatorCountdown(cfg, Some(days)) == Due
  {
  }
}
