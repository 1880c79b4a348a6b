/**
 * The parent dashboard: the linked children, the pending-fee total it
 * derives from their number, the per-child attendance colour, status text
 * and status colour, the check-or-alert icon, and the greeting's fallback.
 */
module Dashboard {
  import opened Wrappers
  import Auth
  import Attendance
  import Children

  /** The flat fee the dashboard assumes per linked child, in US dollars. */
  const PendingFeePerChild: int := 450

  /** `totalPendingFees`. */
  function TotalPendingFees(user: Option<Auth.Profile>): (total: int)
    ensures total == PendingFeePerChild * |Auth.LinkedChildren(user)|
    ensures 0 <= total <= PendingFeePerChild * |Auth.Students|
    ensures user.None? ==> total == 0
  {
    PendingFeePerChild * |Auth.LinkedChildren(user)|
  }

  /** The fixture parents owe 1350 and 450 dollars. */
  lemma FixturePendingFees()
    ensures TotalPendingFees(Some(Auth.Parents[0].profile)) == 1350
    ensures TotalPendingFees(Some(Auth.Parents[1].profile)) == 450
  {
    Auth.FirstParentChildren();
    Auth.SecondParentChildren();
  }

  /** `getAttendanceColor`. */
  function AttendanceColor(attendance: int): (c: string)
    ensures c == "#22C55E" <==> Attendance.TierOf(attendance) == Attendance.High
    ensures c == "#F59E0B" <==> Attendance.TierOf(attendance) == Attendance.Middle
    ensures c == "#EF4444" <==> Attendance.TierOf(attendance) == Attendance.Low
  {
    if attendance >= 90 then "#22C55E"
    else if attendance >= 75 then "#F59E0B"
    else "#EF4444"
  }

  /** `getStatusText`. */
  function StatusText(attendance: int): (t: string)
    ensures t == "Excellent" <==> Attendance.TierOf(attendance) == Attendance.High
    ensures t == "Good" <==> Attendance.TierOf(attendance) == Attendance.Middle
    ensures t == "Needs Attention" <==> Attendance.TierOf(attendance) == Attendance.Low
  {
    if attendance >= 90 then "Excellent"
    else if attendance >= 75 then "Good"
    else "Needs Attention"
  }

  /** `getStatusColor`. */
  function StatusColor(attendance: int): (s: Children.StatusStyle)
    ensures s == Children.StatusStyle("#D1FAE5", "#059669") <==> Attendance.TierOf(attendance) == Attendance.High
    ensures s == Children.StatusStyle("#FEF3C7", "#D97706") <==> Attendance.TierOf(attendance) == Attendance.Middle
    ensures s == Children.StatusStyle("#FEE2E2", "#DC2626") <==> Attendance.TierOf(attendance) == Attendance.Low
  {
    if attendance >= 90 then Children.StatusStyle("#D1FAE5", "#059669")
    else if attendance >= 75 then Children.StatusStyle("#FEF3C7", "#D97706")
    else Children.StatusStyle("#FEE2E2", "#DC2626")
  }

  /**
   * The dashboard and the children screen colour a child alike; their
   * status texts differ in wording only, never in the tier they name.
   */
  lemma AgreesWithChildrenScreen(a: int, b: int)
    ensures AttendanceColor(a) == Children.AttendanceColor(a)
    ensures StatusColor(a) == Children.GetStatusStyle(a)
    ensures StatusText(a) == StatusText(b) <==> Children.StatusText(a) == Children.StatusText(b)
  {
  }

  /** A child's card on the dashboard. */
  datatype ChildCard = ChildCard(
    child: Auth.Profile,
    percentage: int,
    progressColor: string,
    statusColor: Children.StatusStyle,
    checkIcon: bool,
    statusText: string)

  /** The card of one child: every helper reads the defaulted percentage, the icon reads the raw value. */
  function CardOf(child: Auth.Profile): (c: ChildCard)
    ensures c.percentage == Attendance.PercentOrZero(child.attendance)
    ensures c.checkIcon <==> Attendance.TierOf(c.percentage) != Attendance.Low
    ensures c.checkIcon <==> c.progressColor != "#EF4444"
    ensures c.progressColor == AttendanceColor(c.percentage)
    ensures c.statusColor == StatusColor(c.percentage) && c.statusText == StatusText(c.percentage)
    ensures c.statusText == "Needs Attention" <==> !c.checkIcon
  {
    var percentage := Attendance.PercentOrZero(child.attendance);
    Attendance.CheckIconIffNotLow(child.attendance);
    ChildCard(child, percentage, AttendanceColor(percentage), StatusColor(percentage),
              Attendance.ShowsCheckIcon(child.attendance), StatusText(percentage))
  }

  /** `user?.name || 'Parent'`. */
  function UserName(user: Option<Auth.Profile>): (n: string)
    ensures n != ""
    ensures user.Some? && user.value.name != "" ==> n == user.value.name
    ensures user.None? || user.value.name == "" ==> n == "Parent"
  {
    if user.Some? && user.value.name != "" then user.value.name else "Parent"
  }
}
