/**
 * The attendance tiers both parent screens colour a child by: at least 90,
 * at least 75, and below. Also the `attendance || 0` default both screens
 * apply to a missing percentage, and the check-or-alert icon rule.
 */
module Attendance {
  import opened Wrappers

  datatype Tier = High | Middle | Low

  /** The tier of a percentage: the `>= 90` and `>= 75` tests of the colour, text and style helpers. */
  function TierOf(attendance: int): (t: Tier)
    ensures t == High <==> attendance >= 90
    ensures t == Middle <==> 75 <= attendance < 90
    ensures t == Low <==> attendance < 75
  {
    if attendance >= 90 then High
    else if attendance >= 75 then Middle
    else Low
  }

  /** The tiers from worst (0) to best (2). */
  function Rank(t: Tier): nat
  {
    match t
    case Low => 0
    case Middle => 1
    case High => 2
  }

  /** Higher attendance never falls in a lower tier. */
  lemma TierMonotone(a: int, b: int)
    requires a <= b
    ensures Rank(TierOf(a)) <= Rank(TierOf(b))
  {
  }

  /** `attendance || 0`: a missing percentage counts as 0. */
  function PercentOrZero(attendance: Option<int>): (p: int)
    ensures attendance.None? ==> p == 0
    ensures attendance.Some? ==> p == attendance.value
  {
    if attendance.Some? && attendance.value != 0 then attendance.value else 0
  }

  /** `attendance && attendance >= 75`: the check icon, rather than the alert icon. */
  predicate ShowsCheckIcon(attendance: Option<int>)
  {
    attendance.Some? && attendance.value != 0 && attendance.value >= 75
  }

  /** The check icon appears exactly for the two upper tiers of the defaulted percentage. */
  lemma CheckIconIffNotLow(attendance: Option<int>)
    ensures ShowsCheckIcon(attendance) <==> TierOf(PercentOrZero(attendance)) != Low
  {
  }
}
