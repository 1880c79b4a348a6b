/**
 * The student results screen: the fixed list of subject results, the
 * all/passed/failed filter, the score totals and the performance label, the
 * grade colours, and the choice of whose data is shown (a child picked by a
 * parent, or the signed-in student) with its GPA fallback.
 */
module Results {
  import opened Wrappers
  import Seqs
  import Auth

  datatype ResultStatus = Pass | Fail

  datatype SubjectResult = SubjectResult(
    subject: string,
    teacher: string,
    score: int,
    maxScore: int,
    grade: string,
    status: ResultStatus)

  /** The results the screen shows, in display order. */
  const SubjectResults: seq<SubjectResult> := [
    SubjectResult("Mathematics", "Mr. Anderson", 92, 100, "A", Pass),
    SubjectResult("Physics", "Ms. Curie", 88, 100, "B+", Pass),
    SubjectResult("History", "Mr. Hooligan", 45, 100, "D", Fail),
    SubjectResult("English Lit", "Mrs. Woolf", 85, 100, "A-", Pass),
    SubjectResult("Chemistry", "Mr. White", 78, 100, "B", Pass)
  ]

  /** The `activeFilter` tabs. */
  datatype ResultFilter = All | Passed | Failed

  /** The callback `filteredResults` hands to `filter`. */
  predicate Keeps(filter: ResultFilter, r: SubjectResult)
  {
    if filter == Passed then r.status == Pass
    else if filter == Failed then r.status == Fail
    else true
  }

  /** `filteredResults`. */
  function FilteredResults(results: seq<SubjectResult>, filter: ResultFilter): (r: seq<SubjectResult>)
    ensures forall x | x in r :: x in results
    ensures filter == Passed ==> forall x | x in results :: x in r <==> x.status == Pass
    ensures filter == Failed ==> forall x | x in results :: x in r <==> x.status == Fail
  {
    Seqs.Filter(results, (x: SubjectResult) => Keeps(filter, x))
  }

  /** The "All Results" tab shows the whole list, in order. */
  lemma AllResultsIsWhole(results: seq<SubjectResult>)
    ensures FilteredResults(results, All) == results
  {
    Seqs.FilterKeepsAll(results, (x: SubjectResult) => Keeps(All, x));
  }

  /** Every filter keeps the list's order: filtering two halves and joining them is filtering the whole. */
  lemma FilteredResultsConcat(a: seq<SubjectResult>, b: seq<SubjectResult>, filter: ResultFilter)
    ensures FilteredResults(a + b, filter) == FilteredResults(a, filter) + FilteredResults(b, filter)
  {
    Seqs.FilterConcat(a, b, (x: SubjectResult) => Keeps(filter, x));
  }

  /** Every result is either passed or failed, so the two tabs together show each row once. */
  lemma PassedFailedPartition(results: seq<SubjectResult>)
    ensures |FilteredResults(results, Passed)| + |FilteredResults(results, Failed)| == |results|
  {
    Seqs.FilterPartition(results, (x: SubjectResult) => Keeps(Passed, x), (x: SubjectResult) => Keeps(Failed, x));
  }

  /** `totalScore`: never negative when no score is. */
  function TotalScore(results: seq<SubjectResult>): (t: int)
    ensures (forall i :: 0 <= i < |results| ==> results[i].score >= 0) ==> t >= 0
  {
    if results == [] then 0 else results[0].score + TotalScore(results[1..])
  }

  /** `maxTotalScore`: 100 per subject when every subject is marked out of 100, as on the screen. */
  function MaxTotalScore(results: seq<SubjectResult>): (m: int)
    ensures (forall i :: 0 <= i < |results| ==> results[i].maxScore == 100) ==> m == 100 * |results|
  {
    if results == [] then 0 else results[0].maxScore + MaxTotalScore(results[1..])
  }

  /** A total never exceeds the total of the maxima when no single score does. */
  lemma {:induction false} TotalWithinMax(results: seq<SubjectResult>)
    requires forall i :: 0 <= i < |results| ==> results[i].score <= results[i].maxScore
    ensures TotalScore(results) <= MaxTotalScore(results)
  {
    if results != [] {
      TotalWithinMax(results[1..]);
    }
  }

  /**
   * `performancePercent`. The screen divides by a maximum total that its
   * fixed list makes 500; a zero maximum is not a case it meets.
   */
  function PerformancePercent(results: seq<SubjectResult>): real
    requires MaxTotalScore(results) != 0
  {
    (TotalScore(results) as real / MaxTotalScore(results) as real) * 100.0
  }

  datatype Performance = Excellent | VeryGood | Good | Satisfactory | NeedsImprovement

  /** The text the card shows for each label. */
  function PerformanceText(p: Performance): string
  {
    match p
    case Excellent => "Excellent"
    case VeryGood => "Very Good"
    case Good => "Good"
    case Satisfactory => "Satisfactory"
    case NeedsImprovement => "Needs Improvement"
  }

  /** `getPerformanceLabel`: the band of the percent, by the thresholds 90, 80, 70 and 60. */
  function PerformanceLabel(percent: real): (p: Performance)
    ensures p == Excellent <==> percent >= 90.0
    ensures p == VeryGood <==> 80.0 <= percent < 90.0
    ensures p == Good <==> 70.0 <= percent < 80.0
    ensures p == Satisfactory <==> 60.0 <= percent < 70.0
    ensures p == NeedsImprovement <==> percent < 60.0
  {
    if percent >= 90.0 then Excellent
    else if percent >= 80.0 then VeryGood
    else if percent >= 70.0 then Good
    else if percent >= 60.0 then Satisfactory
    else NeedsImprovement
  }

  /** The labels from worst (0) to best (4). */
  function Rank(p: Performance): nat
  {
    match p
    case NeedsImprovement => 0
    case Satisfactory => 1
    case Good => 2
    case VeryGood => 3
    case Excellent => 4
  }

  /** A higher percent never gets a worse label. */
  lemma PerformanceMonotone(a: real, b: real)
    requires a <= b
    ensures Rank(PerformanceLabel(a)) <= Rank(PerformanceLabel(b))
  {
  }

  /** The fixed list: 388 of 500, that is 77.6 percent and the label "Good". */
  lemma FixtureScore()
    ensures TotalScore(SubjectResults) == 388 && MaxTotalScore(SubjectResults) == 500
    ensures PerformancePercent(SubjectResults) == 77.6
    ensures PerformanceText(PerformanceLabel(PerformancePercent(SubjectResults))) == "Good"
  {
    var rs := SubjectResults;
    assert rs[4..][1..] == [];
    assert TotalScore(rs[4..]) == 78 && MaxTotalScore(rs[4..]) == 100;
    assert rs[3..][1..] == rs[4..];
    assert TotalScore(rs[3..]) == 163 && MaxTotalScore(rs[3..]) == 200;
    assert rs[2..][1..] == rs[3..];
    assert TotalScore(rs[2..]) == 208 && MaxTotalScore(rs[2..]) == 300;
    assert rs[1..][1..] == rs[2..];
    assert TotalScore(rs[1..]) == 296 && MaxTotalScore(rs[1..]) == 400;
  }

  /** The fixed list has one failed subject and four passed ones. */
  lemma FixtureFailedOnce()
    ensures |FilteredResults(SubjectResults, Failed)| == 1
    ensures |FilteredResults(SubjectResults, Passed)| == 4
  {
    var failed := (x: SubjectResult) => Keeps(Failed, x);
    var rs := SubjectResults;
    var front, back := [rs[0], rs[1]], [rs[3], rs[4]];
    assert rs == front + ([rs[2]] + back);
    Seqs.FilterConcat(front, [rs[2]] + back, failed);
    Seqs.FilterConcat([rs[2]], back, failed);
    assert Seqs.Filter(front, failed) == [] by {
      assert front[1..] == [rs[1]];
      assert [rs[1]][1..] == [];
    }
    assert Seqs.Filter(back, failed) == [] by {
      assert back[1..] == [rs[4]];
      assert [rs[4]][1..] == [];
    }
    assert Seqs.Filter([rs[2]], failed) == [rs[2]] by {
      assert [rs[2]][1..] == [];
    }
    PassedFailedPartition(SubjectResults);
  }

  /** `getGradeColor`. */
  function GradeColor(grade: string): (c: string)
    ensures c == "#2563EB" <==> Seqs.StartsWith(grade, 'A')
    ensures c == "#EF4444" <==>
              !Seqs.StartsWith(grade, 'A') && !Seqs.StartsWith(grade, 'B')
              && !Seqs.StartsWith(grade, 'C') && !Seqs.StartsWith(grade, 'D')
  {
    if Seqs.StartsWith(grade, 'A') then "#2563EB"
    else if Seqs.StartsWith(grade, 'B') then "#8B5CF6"
    else if Seqs.StartsWith(grade, 'C') then "#F59E0B"
    else if Seqs.StartsWith(grade, 'D') then "#DC2626"
    else "#EF4444"
  }

  /** `getGradeBg`. */
  function GradeBg(grade: string): (b: string)
    ensures b == "#DBEAFE" <==> Seqs.StartsWith(grade, 'A')
    ensures b == "#FEE2E2" <==>
              !Seqs.StartsWith(grade, 'A') && !Seqs.StartsWith(grade, 'B') && !Seqs.StartsWith(grade, 'C')
  {
    if Seqs.StartsWith(grade, 'A') then "#DBEAFE"
    else if Seqs.StartsWith(grade, 'B') then "#F3E8FF"
    else if Seqs.StartsWith(grade, 'C') then "#FEF3C7"
    else if Seqs.StartsWith(grade, 'D') then "#FEE2E2"
    else "#FEE2E2"
  }

  /**
   * Only the first letter matters: grades with the same first letter share
   * colour and background ("A" and "A-", "B" and "B+").
   */
  lemma GradeStyleByFirstLetter(g1: string, g2: string)
    requires |g1| > 0 && |g2| > 0 && g1[0] == g2[0]
    ensures GradeColor(g1) == GradeColor(g2) && GradeBg(g1) == GradeBg(g2)
  {
  }

  /**
   * The letters A to D have four different colours, none of them the
   * fallback; a D grade's background is the fallback's, its colour is not.
   */
  lemma GradeStyleDistinct(other: string)
    requires !Seqs.StartsWith(other, 'A') && !Seqs.StartsWith(other, 'B') && !Seqs.StartsWith(other, 'C') && !Seqs.StartsWith(other, 'D')
    ensures |{GradeColor("A"), GradeColor("B"), GradeColor("C"), GradeColor("D"), GradeColor(other)}| == 5
    ensures GradeBg("D") == GradeBg(other) && GradeColor("D") != GradeColor(other)
  {
    var colors := {GradeColor("A"), GradeColor("B"), GradeColor("C"), GradeColor("D"), GradeColor(other)};
    assert colors == {"#2563EB", "#8B5CF6", "#F59E0B", "#DC2626", "#EF4444"};
  }

  /** The pass/fail badge of a row: its icon, colour and upper-cased status. */
  datatype StatusBadge = StatusBadge(icon: string, iconColor: string, bg: string, textColor: string, text: string)

  function StatusBadgeOf(status: ResultStatus): (b: StatusBadge)
    ensures b.text == (if status == Pass then "PASS" else "FAIL")
  {
    if status == Pass then StatusBadge("checkmark-circle", "#22C55E", "#D1FAE5", "#059669", "PASS")
    else StatusBadge("close-circle", "#EF4444", "#FEE2E2", "#DC2626", "FAIL")
  }

  /** `!!studentId`: a parent opened the screen for one of their children. */
  predicate IsParentView(studentId: Option<string>)
  {
    studentId.Some? && studentId.value != ""
  }

  /** The callback `studentData` hands to `find`. */
  predicate HasId(s: Auth.Account, id: string)
  {
    s.profile.id == id
  }

  /**
   * `studentData`: with a student id, the fixture student that has it (or
   * nothing when none does); without one, the signed-in user.
   */
  function StudentData(studentId: Option<string>, user: Option<Auth.Profile>): (r: Option<Auth.Profile>)
    ensures !IsParentView(studentId) ==> r == user
    ensures IsParentView(studentId) ==>
              (r.Some? <==> exists i :: 0 <= i < |Auth.Students| && Auth.Students[i].profile.id == studentId.value)
    ensures IsParentView(studentId) && r.Some? ==>
              r.value.id == studentId.value && exists s | s in Auth.Students :: s.profile == r.value
  {
    if IsParentView(studentId) then
      match Seqs.Find(Auth.Students, (s: Auth.Account) => HasId(s, studentId.value))
      case None => None
      case Some(s) => Some(s.profile)
    else user
  }

  /** A parent who opens the screen for a fixture student sees that student's record, whoever is signed in. */
  lemma ParentViewShowsChild(i: nat, user: Option<Auth.Profile>)
    requires i < |Auth.Students|
    ensures StudentData(Some(Auth.Students[i].profile.id), user) == Some(Auth.Students[i].profile)
  {
    var students := Auth.Students;
    var id := students[i].profile.id;
    var p := (s: Auth.Account) => HasId(s, id);
    var found := Seqs.FindIndex(students, p);
    assert p(students[i]);
    assert found.Some?;
    assert found.value == i;
  }

  /** `studentData?.gpa || 3.8`: a missing or zero GPA shows as 3.8. */
  function OverallGPA(data: Option<Auth.Profile>): (g: real)
    ensures g != 0.0
    ensures data.None? || data.value.gpa.None? || data.value.gpa.value == 0.0 ==> g == 3.8
    ensures data.Some? && data.value.gpa.Some? && data.value.gpa.value != 0.0 ==> g == data.value.gpa.value
  {
    if data.Some? && data.value.gpa.Some? && data.value.gpa.value != 0.0 then data.value.gpa.value else 3.8
  }

  /** `studentData?.name || 'Student'`. */
  function DisplayName(data: Option<Auth.Profile>): (n: string)
    ensures n != ""
    ensures data.Some? && data.value.name != "" ==> n == data.value.name
    ensures data.None? || data.value.name == "" ==> n == "Student"
  {
    if data.Some? && data.value.name != "" then data.value.name else "Student"
  }

  /** `studentData?.class || '10-B'`. */
  function DisplayClass(data: Option<Auth.Profile>): (c: string)
    ensures c != ""
    ensures data.Some? && data.value.className.Some? && data.value.className.value != "" ==> c == data.value.className.value
    ensures data.None? || data.value.className.None? || data.value.className.value == "" ==> c == "10-B"
  {
    if data.Some? && data.value.className.Some? && data.value.className.value != "" then data.value.className.value
    else "10-B"
  }

  /** Opened for a fixture student, the card shows that student's own GPA, name and class. */
  lemma ParentViewShowsChildGPA(i: nat, user: Option<Auth.Profile>)
    requires i < |Auth.Students|
    ensures var data := StudentData(Some(Auth.Students[i].profile.id), user);
            OverallGPA(data) == Auth.Students[i].profile.gpa.value
            && DisplayName(data) == Auth.Students[i].profile.name
            && DisplayClass(data) == Auth.Students[i].profile.className.value
  {
    ParentViewShowsChild(i, user);
  }
}
