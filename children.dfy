/**
 * The parent's "My Children" screen: the linked children, the child picked
 * by the selected index (or the empty state when there is none), the
 * per-child extras and recent grades with their defaults for an unknown id,
 * the attendance colour, status text and status style, and the grade badge.
 */
module Children {
  import opened Wrappers
  import Seqs
  import Auth
  import Attendance

  /** `getAttendanceColor`. */
  function AttendanceColor(attendance: int): (c: string)
    ensures c == "#22C55E" <==> Attendance.TierOf(attendance) == Attendance.High
    ensures c == "#F59E0B" <==> Attendance.TierOf(attendance) == Attendance.Middle
    ensures c == "#EF4444" <==> Attendance.TierOf(attendance) == Attendance.Low
  {
    if attendance >= 90 then "#22C55E"
    else if attendance >= 75 then "#F59E0B"
    else "#EF4444"
  }

  /** `getStatusText`. */
  function StatusText(attendance: int): (t: string)
    ensures t == "Excellent Attendance" <==> Attendance.TierOf(attendance) == Attendance.High
    ensures t == "Good Standing" <==> Attendance.TierOf(attendance) == Attendance.Middle
    ensures t == "Needs Improvement" <==> Attendance.TierOf(attendance) == Attendance.Low
  {
    if attendance >= 90 then "Excellent Attendance"
    else if attendance >= 75 then "Good Standing"
    else "Needs Improvement"
  }

  datatype StatusStyle = StatusStyle(bg: string, text: string)

  /** `getStatusStyle`. */
  function GetStatusStyle(attendance: int): (s: StatusStyle)
    ensures s == StatusStyle("#D1FAE5", "#059669") <==> Attendance.TierOf(attendance) == Attendance.High
    ensures s == StatusStyle("#FEF3C7", "#D97706") <==> Attendance.TierOf(attendance) == Attendance.Middle
    ensures s == StatusStyle("#FEE2E2", "#DC2626") <==> Attendance.TierOf(attendance) == Attendance.Low
  {
    if attendance >= 90 then StatusStyle("#D1FAE5", "#059669")
    else if attendance >= 75 then StatusStyle("#FEF3C7", "#D97706")
    else StatusStyle("#FEE2E2", "#DC2626")
  }

  /**
   * The three helpers never disagree: two percentages get the same colour,
   * the same text and the same style exactly when they fall in the same tier.
   */
  lemma HelpersShareTiers(a: int, b: int)
    ensures AttendanceColor(a) == AttendanceColor(b) <==> Attendance.TierOf(a) == Attendance.TierOf(b)
    ensures StatusText(a) == StatusText(b) <==> Attendance.TierOf(a) == Attendance.TierOf(b)
    ensures GetStatusStyle(a) == GetStatusStyle(b) <==> Attendance.TierOf(a) == Attendance.TierOf(b)
  {
  }

  datatype ChildExtras = ChildExtras(pendingAssignments: nat, upcomingExams: nat, subjects: seq<string>)

  /** `getChildExtras`: the fixture students' extras, zeros and no subjects for any other id. */
  function GetChildExtras(childId: string): (r: ChildExtras)
    ensures childId !in {"STU001", "STU002", "STU003"} ==> r == ChildExtras(0, 0, [])
    ensures childId in {"STU001", "STU002", "STU003"} ==> r.pendingAssignments > 0 && |r.subjects| == 4
  {
    if childId == "STU001" then ChildExtras(3, 2, ["Mathematics", "Physics", "Chemistry", "English"])
    else if childId == "STU002" then ChildExtras(2, 1, ["Mathematics", "Science", "English", "History"])
    else if childId == "STU003" then ChildExtras(4, 3, ["Mathematics", "Science", "English", "Art"])
    else ChildExtras(0, 0, [])
  }

  datatype RecentGrade = RecentGrade(subject: string, grade: string, score: string, date: string)

  /** `getRecentGrades`: four grades for each fixture student, none for any other id. */
  function GetRecentGrades(childId: string): (r: seq<RecentGrade>)
    ensures childId !in {"STU001", "STU002", "STU003"} ==> r == []
    ensures childId in {"STU001", "STU002", "STU003"} ==> |r| == 4
  {
    if childId == "STU001" then [
      RecentGrade("Mathematics", "A", "92/100", "Oct 15"),
      RecentGrade("Physics", "A-", "88/100", "Oct 14"),
      RecentGrade("English", "B+", "85/100", "Oct 12"),
      RecentGrade("Chemistry", "A", "90/100", "Oct 10")]
    else if childId == "STU002" then [
      RecentGrade("Mathematics", "A-", "89/100", "Oct 15"),
      RecentGrade("Science", "A", "94/100", "Oct 13"),
      RecentGrade("English", "A", "91/100", "Oct 11"),
      RecentGrade("History", "B+", "86/100", "Oct 09")]
    else if childId == "STU003" then [
      RecentGrade("Mathematics", "B+", "84/100", "Oct 14"),
      RecentGrade("Science", "B", "80/100", "Oct 12"),
      RecentGrade("English", "A-", "87/100", "Oct 10"),
      RecentGrade("Art", "A", "95/100", "Oct 08")]
    else []
  }

  /** Every student a parent can be linked to has extras and recent grades. */
  lemma LinkedChildrenHaveDetails(user: Option<Auth.Profile>, i: nat)
    requires i < |Auth.LinkedChildren(user)|
    ensures |GetChildExtras(Auth.LinkedChildren(user)[i].profile.id).subjects| == 4
    ensures |GetRecentGrades(Auth.LinkedChildren(user)[i].profile.id)| == 4
  {
    var child := Auth.LinkedChildren(user)[i];
    assert child in Auth.LinkedChildren(user);
    assert child in Auth.Students;
  }

  datatype Badge = Badge(bg: string, text: string)

  const GreenBadge: Badge := Badge("#D1FAE5", "#059669")
  const AmberBadge: Badge := Badge("#FEF3C7", "#D97706")

  /** The colours of a recent grade's badge: green for an A grade, amber for anything else. */
  function GradeBadge(grade: string): (b: Badge)
    ensures b == GreenBadge <==> Seqs.StartsWith(grade, 'A')
    ensures b == AmberBadge <==> !Seqs.StartsWith(grade, 'A')
  {
    if Seqs.StartsWith(grade, 'A') then GreenBadge else AmberBadge
  }

  /** The word after the count in the header. */
  function CountLabel(count: nat): (w: string)
    ensures w == "child" <==> count == 1
    ensures w == "children" <==> count != 1
  {
    if count == 1 then "child" else "children"
  }

  /** `selectedChild.gpa || 0`. */
  function GpaShown(gpa: Option<real>): (g: real)
    ensures gpa.None? ==> g == 0.0
    ensures gpa.Some? ==> g == gpa.value
  {
    if gpa.Some? && gpa.value != 0.0 then gpa.value else 0.0
  }

  /** `children[selectedChildIndex]`: nothing when the index is outside the list. */
  function SelectedChild(children: seq<Auth.Account>, index: int): (r: Option<Auth.Account>)
    ensures r.None? <==> !(0 <= index < |children|)
    ensures r.Some? ==> r.value == children[index]
  {
    if 0 <= index < |children| then Some(children[index]) else None
  }

  /** What the screen renders: the empty state, or the selected child's details. */
  datatype Screen =
    | EmptyState
    | Detail(child: Auth.Profile, countLabel: string, extras: ChildExtras, grades: seq<RecentGrade>,
             statusText: string, statusStyle: StatusStyle, progressColor: string, checkIcon: bool, gpa: real)

  /** The screen for a signed-in user and a selected index. */
  function ScreenOf(user: Option<Auth.Profile>, index: int): (s: Screen)
    ensures s.EmptyState? <==> !(0 <= index < |Auth.LinkedChildren(user)|)
    ensures s.Detail? ==>
              s.child == Auth.LinkedChildren(user)[index].profile
              && user.Some? && user.value.children.Some? && s.child.id in user.value.children.value
    ensures s.Detail? ==>
              (Attendance.TierOf(Attendance.PercentOrZero(s.child.attendance)) == Attendance.Low <==> !s.checkIcon)
    ensures s.Detail? ==>
              var percent := Attendance.PercentOrZero(s.child.attendance);
              s.statusText == StatusText(percent) && s.statusStyle == GetStatusStyle(percent)
              && s.progressColor == AttendanceColor(percent)
    ensures s.Detail? ==> s.countLabel == CountLabel(|Auth.LinkedChildren(user)|)
    ensures s.Detail? ==>
              s.extras == GetChildExtras(s.child.id) && s.grades == GetRecentGrades(s.child.id)
              && s.gpa == GpaShown(s.child.gpa)
  {
    var children := Auth.LinkedChildren(user);
    match SelectedChild(children, index)
    case None => EmptyState
    case Some(selected) =>
      assert selected in children;
      var child := selected.profile;
      var attendance := Attendance.PercentOrZero(child.attendance);
      Attendance.CheckIconIffNotLow(child.attendance);
      Detail(child, CountLabel(|children|), GetChildExtras(child.id), GetRecentGrades(child.id),
             StatusText(attendance), GetStatusStyle(attendance), AttendanceColor(attendance),
             Attendance.ShowsCheckIcon(child.attendance), GpaShown(child.gpa))
  }

  /** With no user, or a user without children, every index shows the empty state. */
  lemma NoChildrenShowsEmptyState(user: Option<Auth.Profile>, index: int)
    requires user.None? || user.value.children.None? || user.value.children.value == []
    ensures ScreenOf(user, index) == EmptyState
  {
  }

  /** The first fixture parent opens the screen on Alex, with the count "3 children", Alex's four grades and "Good Standing" for 85 percent. */
  lemma FirstParentOpensOnAlex()
    ensures var s := ScreenOf(Some(Auth.Parents[0].profile), 0);
            s.Detail? && s.child == Auth.Students[0].profile && s.countLabel == "children"
            && |s.grades| == 4 && s.statusText == "Good Standing" && s.checkIcon
  {
    Auth.FirstParentChildren();
  }
}
