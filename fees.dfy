/**
 * The parent's fee overview: the per-child fee list, the pending filter,
 * the list of selected fee ids that the checkboxes toggle, the selected and
 * outstanding totals, the next-due-date rule, the status badge, and the
 * state reset when another child is chosen.
 */
module Fees {
  import opened Wrappers
  import Seqs
  import Auth

  datatype FeeType = Tuition | Transport | Library | Exam | Sports | Lab

  datatype FeeStatus = Overdue | DueSoon | Upcoming | Paid

  datatype FeeItem = FeeItem(
    id: string,
    feeType: FeeType,
    title: string,
    amount: real,
    dueDate: string,
    status: FeeStatus,
    description: Option<string>)

  /** The fee list every child starts from. */
  const BaseFees: seq<FeeItem> := [
    FeeItem("1", Tuition, "Tuition Fee", 800.0, "Oct 15", Overdue, Some("Term 2 Tuition Fee")),
    FeeItem("2", Transport, "Bus Transport - Nov", 150.0, "Nov 01", DueSoon, Some("Monthly transportation")),
    FeeItem("3", Library, "Library Fine", 15.0, "Nov 05", Upcoming, Some("Late return penalty"))
  ]

  /** The selection the screen starts with and returns to when another child is chosen. */
  const InitialSelection: seq<string> := ["1", "2"]

  /** The factor a child's amounts are scaled by. */
  function AmountFactor(childId: string): real
  {
    if childId == "STU002" then 0.9 else if childId == "STU003" then 0.8 else 1.0
  }

  /** `fees.map(fee => ({ ...fee, amount: fee.amount * factor }))`. */
  function Scaled(fees: seq<FeeItem>, factor: real): seq<FeeItem>
  {
    seq(|fees|, i requires 0 <= i < |fees| => fees[i].(amount := fees[i].amount * factor))
  }

  /** `getFeeData`: the base list with every amount scaled for the child, and nothing else changed. */
  function GetFeeData(childId: string): (r: seq<FeeItem>)
    ensures |r| == |BaseFees|
    ensures forall i :: 0 <= i < |r| ==>
              r[i] == BaseFees[i].(amount := BaseFees[i].amount * AmountFactor(childId))
    ensures childId != "STU002" && childId != "STU003" ==> r == BaseFees
  {
    if childId == "STU002" then Scaled(BaseFees, 0.9)
    else if childId == "STU003" then Scaled(BaseFees, 0.8)
    else BaseFees
  }

  /** `selectedChild ? getFeeData(selectedChild.id) : []`. */
  function FeesFor(children: seq<Auth.Account>, index: int): (r: seq<FeeItem>)
    ensures 0 <= index < |children| ==> r == GetFeeData(children[index].profile.id)
    ensures !(0 <= index < |children|) ==> r == []
  {
    if 0 <= index < |children| then GetFeeData(children[index].profile.id) else []
  }

  predicate IsPending(f: FeeItem) { f.status != Paid }
  predicate IsOverdue(f: FeeItem) { f.status == Overdue }
  predicate IsDueSoon(f: FeeItem) { f.status == DueSoon }

  /** `pendingFees`: exactly the fees not yet paid, in order. */
  function PendingFees(fees: seq<FeeItem>): (r: seq<FeeItem>)
    ensures |r| <= |fees|
    ensures forall f | f in r :: f in fees && f.status != Paid
    ensures forall f | f in fees && f.status != Paid :: f in r
  {
    Seqs.Filter(fees, IsPending)
  }

  /** The pending list keeps the fees in their order: filtering two halves and joining is filtering the whole. */
  lemma PendingFeesKeepOrder(a: seq<FeeItem>, b: seq<FeeItem>)
    ensures PendingFees(a + b) == PendingFees(a) + PendingFees(b)
  {
    Seqs.FilterConcat(a, b, IsPending);
  }

  /** No fee of the fixture list is paid, so every child's fees are all pending. */
  lemma FixtureFeesAllPending(childId: string)
    ensures PendingFees(GetFeeData(childId)) == GetFeeData(childId)
  {
    Seqs.FilterKeepsAll(GetFeeData(childId), IsPending);
  }

  /** `toggleFeeSelection`'s update: remove every occurrence of a selected id, or append an unselected one. */
  function Toggled(selected: seq<string>, feeId: string): (r: seq<string>)
    ensures feeId in r <==> feeId !in selected
    ensures forall x | x != feeId :: x in r <==> x in selected
  {
    if feeId in selected then Seqs.Filter(selected, (x: string) => x != feeId) else selected + [feeId]
  }

  /** Toggling an unselected id twice restores the selection exactly. */
  lemma {:induction false} ToggleTwiceRestores(selected: seq<string>, feeId: string)
    requires feeId !in selected
    ensures Toggled(Toggled(selected, feeId), feeId) == selected
  {
    var other := (x: string) => x != feeId;
    assert Toggled(Toggled(selected, feeId), feeId) == Seqs.Filter(selected + [feeId], other);
    Seqs.FilterConcat(selected, [feeId], other);
    Seqs.FilterKeepsAll(selected, other);
    assert [feeId][1..] == [];
  }

  /** The sum of the amounts (`reduce((sum, fee) => sum + fee.amount, 0)`). */
  function SumAmounts(fees: seq<FeeItem>): real
  {
    if fees == [] then 0.0 else fees[0].amount + SumAmounts(fees[1..])
  }

  predicate NonNegative(fees: seq<FeeItem>)
  {
    forall i :: 0 <= i < |fees| ==> fees[i].amount >= 0.0
  }

  lemma {:induction false} SumNonNegative(fees: seq<FeeItem>)
    requires NonNegative(fees)
    ensures SumAmounts(fees) >= 0.0
  {
    if fees != [] {
      SumNonNegative(fees[1..]);
    }
  }

  /** Dropping fees with non-negative amounts never raises the sum. */
  lemma {:induction false} SumFilterAtMost(fees: seq<FeeItem>, p: FeeItem -> bool)
    requires NonNegative(fees)
    ensures SumAmounts(Seqs.Filter(fees, p)) <= SumAmounts(fees)
  {
    if fees != [] {
      SumFilterAtMost(fees[1..], p);
      if p(fees[0]) {
        assert ([fees[0]] + Seqs.Filter(fees[1..], p))[1..] == Seqs.Filter(fees[1..], p);
      } else {
        SumNonNegative(fees[1..]);
      }
    }
  }

  /** `totalOutstanding`: the sum over all pending fees, never negative when no amount is. */
  function TotalOutstanding(pending: seq<FeeItem>): (t: real)
    ensures NonNegative(pending) ==> t >= 0.0
  {
    if NonNegative(pending) then SumNonNegative(pending); SumAmounts(pending)
    else SumAmounts(pending)
  }

  /**
   * `totalSelected`: the sum over the pending fees whose id is selected.
   * With non-negative amounts it lies between zero and the outstanding total.
   */
  function TotalSelected(pending: seq<FeeItem>, selected: seq<string>): (t: real)
    ensures NonNegative(pending) ==> 0.0 <= t <= TotalOutstanding(pending)
  {
    var chosen := (f: FeeItem) => f.id in selected;
    var kept := Seqs.Filter(pending, chosen);
    if NonNegative(pending) then
      assert forall i :: 0 <= i < |kept| ==> kept[i] in pending;
      SumNonNegative(kept);
      SumFilterAtMost(pending, chosen);
      SumAmounts(kept)
    else SumAmounts(kept)
  }

  /** Selecting every pending fee selects the whole outstanding amount. */
  lemma AllSelectedIsOutstanding(pending: seq<FeeItem>, selected: seq<string>)
    requires forall i :: 0 <= i < |pending| ==> pending[i].id in selected
    ensures TotalSelected(pending, selected) == TotalOutstanding(pending)
  {
    var chosen := (f: FeeItem) => f.id in selected;
    assert TotalSelected(pending, selected) == SumAmounts(Seqs.Filter(pending, chosen));
    Seqs.FilterKeepsAll(pending, chosen);
  }

  /** With ids "1", "2", "3" in that order, the initial selection picks the first two fees. */
  lemma InitialSelectionPicksFirstTwo(fees: seq<FeeItem>)
    requires |fees| == 3 && fees[0].id == "1" && fees[1].id == "2" && fees[2].id == "3"
    ensures TotalSelected(fees, InitialSelection) == fees[0].amount + fees[1].amount
  {
    var chosen := (f: FeeItem) => f.id in InitialSelection;
    assert TotalSelected(fees, InitialSelection) == SumAmounts(Seqs.Filter(fees, chosen));
    assert chosen(fees[0]) && chosen(fees[1]);
    assert !chosen(fees[2]) by { assert "3"[0] != "1"[0] && "3"[0] != "2"[0]; }
    assert fees[1..][1..] == [fees[2]] && [fees[2]][1..] == [];
    assert Seqs.Filter([fees[2]], chosen) == [];
    assert Seqs.Filter(fees[1..], chosen) == [fees[1]] + Seqs.Filter([fees[2]], chosen);
    assert Seqs.Filter(fees, chosen) == [fees[0]] + Seqs.Filter(fees[1..], chosen);
    assert Seqs.Filter(fees, chosen) == [fees[0], fees[1]];
    assert [fees[0], fees[1]][1..] == [fees[1]] && [fees[1]][1..] == [];
    assert SumAmounts([fees[1]]) == fees[1].amount + SumAmounts([]);
    assert SumAmounts([fees[0], fees[1]]) == fees[0].amount + SumAmounts([fees[1]]);
  }

  /**
   * After a reset, the tuition and transport fees of the chosen child are
   * selected: 950 dollars scaled for the child, or nothing when the index
   * picks no child.
   */
  lemma ResetSelectionTotal(children: seq<Auth.Account>, index: int)
    ensures 0 <= index < |children| ==>
              TotalSelected(PendingFees(FeesFor(children, index)), InitialSelection)
                == 950.0 * AmountFactor(children[index].profile.id)
    ensures !(0 <= index < |children|) ==> TotalSelected(PendingFees(FeesFor(children, index)), InitialSelection) == 0.0
  {
    if 0 <= index < |children| {
      var childId := children[index].profile.id;
      FixtureFeesAllPending(childId);
      InitialSelectionPicksFirstTwo(GetFeeData(childId));
    } else {
      assert PendingFees([]) == [];
    }
  }

  /**
   * `getNextDueDate`, as written: the heads of the overdue and due-soon
   * filters, then the first pending fee. What it shows is always some
   * pending fee's date, or "N/A".
   */
  function NextDueDate(pending: seq<FeeItem>): (d: string)
    ensures d == "N/A" || exists i :: 0 <= i < |pending| && pending[i].dueDate == d
  {
    var overdue := Seqs.Filter(pending, IsOverdue);
    if |overdue| > 0 then
      assert overdue[0] in pending;
      overdue[0].dueDate
    else
      var dueSoon := Seqs.Filter(pending, IsDueSoon);
      if |dueSoon| > 0 then
        assert dueSoon[0] in pending;
        dueSoon[0].dueDate
      else if |pending| > 0 && pending[0].dueDate != "" then pending[0].dueDate
      else "N/A"
  }

  /**
   * The next due date is the first overdue fee's date; failing that, the
   * first due-soon fee's; failing that, the first pending fee's (when it is
   * not empty); otherwise "N/A".
   */
  lemma NextDueDatePriority(pending: seq<FeeItem>)
    ensures Seqs.FindIndex(pending, IsOverdue).Some? ==>
              NextDueDate(pending) == pending[Seqs.FindIndex(pending, IsOverdue).value].dueDate
    ensures Seqs.FindIndex(pending, IsOverdue).None? && Seqs.FindIndex(pending, IsDueSoon).Some? ==>
              NextDueDate(pending) == pending[Seqs.FindIndex(pending, IsDueSoon).value].dueDate
    ensures Seqs.FindIndex(pending, IsOverdue).None? && Seqs.FindIndex(pending, IsDueSoon).None? ==>
              NextDueDate(pending) == if |pending| > 0 && pending[0].dueDate != "" then pending[0].dueDate else "N/A"
  {
    Seqs.FilterHeadIsFirst(pending, IsOverdue);
    Seqs.FilterHeadIsFirst(pending, IsDueSoon);
  }

  /** Every child's next due date is the tuition fee's, the first overdue one. */
  lemma FixtureNextDueDate(childId: string)
    ensures NextDueDate(PendingFees(GetFeeData(childId))) == "Oct 15"
  {
    var fees := GetFeeData(childId);
    FixtureFeesAllPending(childId);
    assert IsOverdue(fees[0]);
    NextDueDatePriority(fees);
  }

  /** The badge of a status: background, text colour and caption. */
  datatype StatusStyle = StatusStyle(bg: string, text: string, caption: string)

  /** The string a status is stored as. */
  function StatusKey(s: FeeStatus): string
  {
    match s
    case Overdue => "overdue"
    case DueSoon => "due_soon"
    case Upcoming => "upcoming"
    case Paid => "paid"
  }

  /** `getStatusStyle`, keyed by the status string. */
  function GetStatusStyle(status: string): (s: StatusStyle)
    ensures s.caption == "Unknown" <==> status !in {"overdue", "due_soon", "upcoming", "paid"}
  {
    if status == "overdue" then StatusStyle("#FEE2E2", "#DC2626", "Overdue")
    else if status == "due_soon" then StatusStyle("#FEF3C7", "#D97706", "Due Soon")
    else if status == "upcoming" then StatusStyle("#DBEAFE", "#2563EB", "Upcoming")
    else if status == "paid" then StatusStyle("#D1FAE5", "#059669", "Paid")
    else StatusStyle("#F3F4F6", "#6B7280", "Unknown")
  }

  /** Each status has its own label, and only an unknown status string is labelled "Unknown". */
  lemma StatusLabelsDistinct(s: FeeStatus, t: FeeStatus, other: string)
    requires other !in {"overdue", "due_soon", "upcoming", "paid"}
    ensures s != t ==> GetStatusStyle(StatusKey(s)).caption != GetStatusStyle(StatusKey(t)).caption
    ensures GetStatusStyle(StatusKey(s)).caption != "Unknown"
    ensures GetStatusStyle(other).caption == "Unknown"
  {
  }

  datatype Tab = PendingTab | HistoryTab

  /** The screen's state: the chosen child, the tab, and the selected fee ids. */
  class FeeScreen {
    var selectedChildIndex: int
    var activeTab: Tab
    var selectedFees: seq<string>

    constructor ()
      ensures selectedChildIndex == 0 && activeTab == PendingTab && selectedFees == InitialSelection
    {
      selectedChildIndex := 0;
      activeTab := PendingTab;
      selectedFees := InitialSelection;
    }

    /** The pay button is enabled exactly when some id is selected. */
    predicate PayEnabled()
      reads this
    {
      |selectedFees| > 0
    }

    /** `toggleFeeSelection`. */
    method ToggleFeeSelection(feeId: string)
      modifies this`selectedFees
      ensures selectedFees == Toggled(old(selectedFees), feeId)
      ensures feeId in selectedFees <==> feeId !in old(selectedFees)
      ensures feeId !in old(selectedFees) ==> PayEnabled()
    {
      selectedFees := Toggled(selectedFees, feeId);
    }

    /** Choosing a child tab: set the index and reset the selection. */
    method SelectChild(index: int)
      modifies this`selectedChildIndex, this`selectedFees
      ensures selectedChildIndex == index && selectedFees == InitialSelection && PayEnabled()
    {
      selectedChildIndex := index;
      selectedFees := InitialSelection;
    }

    method SelectTab(tab: Tab)
      modifies this`activeTab
      ensures activeTab == tab
    {
      activeTab := tab;
    }
  }
}
