/**
 * The doctor's patient page (src/pages/PatientDetailPage.tsx): the escalation histogram and
 * risk list, the date-sorted symptom trend, the open-escalation and active-task lists, the
 * care-plan modal with its medication rows, and the task form.
 */
module PatientDetail {
  import opened Wrappers
  import opened Text
  import opened Types
  import opened Seqs
  import opened MedicationRows

  // ---------------------------------------------------------------- escalations

  function SeverityCount(es: seq<Escalation>, sev: Severity): nat {
    Count(es, (e: Escalation) => e.severity == sev)
  }

  /** The `reduce` that tallies escalations per severity, starting every severity at zero. */
  method SeverityCounts(es: seq<Escalation>) returns (counts: map<Severity, nat>)
    ensures forall sev :: sev in counts && counts[sev] == SeverityCount(es, sev)
  {
    counts := map[Low := 0, Medium := 0, High := 0, Critical := 0];
    assert es[..0] == [];
    forall sev ensures sev in counts && counts[sev] == SeverityCount([], sev) {
      match sev
      case Low =>
      case Medium =>
      case High =>
      case Critical =>
    }
    for i := 0 to |es|
      invariant forall sev :: sev in counts && counts[sev] == SeverityCount(es[..i], sev)
    {
      assert es[..i + 1] == es[..i] + [es[i]];
      forall sev {
        CountAppend(es[..i], [es[i]], (e: Escalation) => e.severity == sev);
      }
      counts := counts[es[i].severity := counts[es[i].severity] + 1];
    }
    assert es[..|es|] == es;
  }

  /** The four tallies add up to the number of escalations. */
  lemma {:induction false} SeverityCountsSum(es: seq<Escalation>)
    ensures SeverityCount(es, Low) + SeverityCount(es, Medium) + SeverityCount(es, High) + SeverityCount(es, Critical) == |es|
  {
    if es != [] {
      SeverityCountsSum(es[1..]);
    }
  }

  function SeverityRank(sev: Severity): nat {
    match sev
    case Low => 0
    case Medium => 1
    case High => 2
    case Critical => 3
  }

  /** `Object.entries(severityCounts)`: the tallies in the object's key order, LOW to CRITICAL. */
  function SeverityEntries(counts: map<Severity, nat>): (r: seq<(Severity, nat)>)
    requires forall sev :: sev in counts
    ensures forall sev, c :: (sev, c) in r <==> c == counts[sev]
    ensures forall i, j :: 0 <= i < j < |r| ==> SeverityRank(r[i].0) < SeverityRank(r[j].0)
  {
    var r := [(Low, counts[Low]), (Medium, counts[Medium]), (High, counts[High]), (Critical, counts[Critical])];
    assert forall sev :: (sev, counts[sev]) in r by {
      forall sev ensures (sev, counts[sev]) in r {
        if sev.Low? { assert r[0] == (sev, counts[sev]); }
        else if sev.Medium? { assert r[1] == (sev, counts[sev]); }
        else if sev.High? { assert r[2] == (sev, counts[sev]); }
        else { assert r[3] == (sev, counts[sev]); }
      }
    }
    r
  }

  /** `riskData`: the severities with a non-zero tally, LOW to CRITICAL, with their tallies. */
  function RiskData(counts: map<Severity, nat>): (r: seq<(Severity, nat)>)
    requires forall sev :: sev in counts
    ensures forall sev, c :: (sev, c) in r <==> c == counts[sev] && c > 0
    ensures forall i, j :: 0 <= i < j < |r| ==> SeverityRank(r[i].0) < SeverityRank(r[j].0)
  {
    var entries := SeverityEntries(counts);
    FilterKeepsOrder(entries, (e: (Severity, nat)) => e.1 > 0,
      (a: (Severity, nat), b: (Severity, nat)) => SeverityRank(a.0) < SeverityRank(b.0));
    Filter(entries, (e: (Severity, nat)) => e.1 > 0)
  }

  /** The escalations still OPEN, in their original order. */
  function OpenEscalations(es: seq<Escalation>): (r: seq<Escalation>)
    ensures forall e :: e in r <==> e in es && e.status == Open
    ensures var ks := KeptPositions(es, (e: Escalation) => e.status == Open);
      |r| == |ks| && forall k :: 0 <= k < |r| ==> r[k] == es[ks[k]]
  {
    FilterAtKeptPositions(es, (e: Escalation) => e.status == Open);
    Filter(es, (e: Escalation) => e.status == Open)
  }

  // ---------------------------------------------------------------- symptom trend

  /**
   * Code-point order on strings, the order `localeCompare` gives ISO dates. The first string
   * is not after the second.
   */
  predicate DateLe(a: string, b: string)
    decreases |a|
  {
    a == [] || (b != [] && (a[0] < b[0] || (a[0] == b[0] && DateLe(a[1..], b[1..]))))
  }

  lemma {:induction false} DateLeTotal(a: string, b: string)
    ensures DateLe(a, b) || DateLe(b, a)
    decreases |a|
  {
    if a != [] && b != [] && a[0] == b[0] {
      DateLeTotal(a[1..], b[1..]);
    }
  }

  lemma {:induction false} DateLeTransitive(a: string, b: string, c: string)
    requires DateLe(a, b) && DateLe(b, c)
    ensures DateLe(a, c)
    decreases |a|
  {
    if a != [] && b != [] && c != [] && a[0] == b[0] && b[0] == c[0] {
      DateLeTransitive(a[1..], b[1..], c[1..]);
    }
  }

  /** Every log carries a date, as the server's log record promises. */
  predicate AllDated(logs: seq<SymptomLog>) {
    forall i :: 0 <= i < |logs| ==> logs[i].date.Some?
  }

  predicate SortedByDate(logs: seq<SymptomLog>)
    requires AllDated(logs)
  {
    forall i, j :: 0 <= i < j < |logs| ==> DateLe(logs[i].date.value, logs[j].date.value)
  }

  /** Puts `x` before the first log dated strictly after it, so equal dates keep their arrival order. */
  function InsertByDate(x: SymptomLog, sorted: seq<SymptomLog>): (r: seq<SymptomLog>)
    requires x.date.Some? && AllDated(sorted)
    ensures |r| == |sorted| + 1 && AllDated(r)
    ensures multiset(r) == multiset(sorted) + multiset{x}
  {
    if sorted == [] || !DateLe(sorted[0].date.value, x.date.value) then [x] + sorted
    else
      var tail := InsertByDate(x, sorted[1..]);
      assert sorted == [sorted[0]] + sorted[1..];
      [sorted[0]] + tail
  }

  /** A log no later than every log of a sorted list can be put in front of it. */
  lemma SortedCons(h: SymptomLog, tail: seq<SymptomLog>)
    requires h.date.Some? && AllDated(tail) && SortedByDate(tail)
    requires forall j :: 0 <= j < |tail| ==> DateLe(h.date.value, tail[j].date.value)
    ensures AllDated([h] + tail) && SortedByDate([h] + tail)
  {
    var r := [h] + tail;
    forall i, j | 0 <= i < j < |r| ensures DateLe(r[i].date.value, r[j].date.value) {
      assert r[j] == tail[j - 1];
      if i > 0 {
        assert r[i] == tail[i - 1];
      }
    }
  }

  /** A lower bound on every date of a list and on `x` bounds every date after the insertion. */
  lemma InsertKeepsLowerBound(x: SymptomLog, sorted: seq<SymptomLog>, lo: string)
    requires x.date.Some? && AllDated(sorted)
    requires DateLe(lo, x.date.value)
    requires forall j :: 0 <= j < |sorted| ==> DateLe(lo, sorted[j].date.value)
    ensures forall j :: 0 <= j < |InsertByDate(x, sorted)| ==> DateLe(lo, InsertByDate(x, sorted)[j].date.value)
  {
    var r := InsertByDate(x, sorted);
    forall j | 0 <= j < |r| ensures DateLe(lo, r[j].date.value) {
      assert r[j] in multiset(sorted) + multiset{x};
      if r[j] != x {
        assert r[j] in multiset(sorted);
        var k :| 0 <= k < |sorted| && sorted[k] == r[j];
      }
    }
  }

  lemma {:induction false} InsertByDateSorted(x: SymptomLog, sorted: seq<SymptomLog>)
    requires x.date.Some? && AllDated(sorted) && SortedByDate(sorted)
    ensures SortedByDate(InsertByDate(x, sorted))
  {
    if sorted == [] {
    } else if !DateLe(sorted[0].date.value, x.date.value) {
      DateLeTotal(sorted[0].date.value, x.date.value);
      forall j | 0 <= j < |sorted| ensures DateLe(x.date.value, sorted[j].date.value) {
        if j > 0 {
          DateLeTransitive(x.date.value, sorted[0].date.value, sorted[j].date.value);
        }
      }
      SortedCons(x, sorted);
    } else {
      var h, rest := sorted[0], sorted[1..];
      assert SortedByDate(rest) by {
        forall i, j | 0 <= i < j < |rest| ensures DateLe(rest[i].date.value, rest[j].date.value) {
          assert rest[i] == sorted[i + 1] && rest[j] == sorted[j + 1];
        }
      }
      InsertByDateSorted(x, rest);
      assert forall j :: 0 <= j < |rest| ==> rest[j] == sorted[j + 1];
      InsertKeepsLowerBound(x, rest, h.date.value);
      SortedCons(h, InsertByDate(x, rest));
    }
  }

  /** `slice().sort((a, b) => a.date.localeCompare(b.date))`: a stable insertion sort on a copy. */
  function SortByDate(logs: seq<SymptomLog>): (r: seq<SymptomLog>)
    requires AllDated(logs)
    ensures |r| == |logs| && AllDated(r)
    ensures multiset(r) == multiset(logs)
  {
    if logs == [] then []
    else
      var init := logs[..|logs| - 1];
      assert logs == init + [logs[|logs| - 1]];
      InsertByDate(logs[|logs| - 1], SortByDate(init))
  }

  lemma {:induction false} SortByDateSorted(logs: seq<SymptomLog>)
    requires AllDated(logs)
    ensures SortedByDate(SortByDate(logs))
  {
    if logs != [] {
      var init := logs[..|logs| - 1];
      SortByDateSorted(init);
      InsertByDateSorted(logs[|logs| - 1], SortByDate(init));
    }
  }

  /** The test "this log is dated `d`", which a stable sort must not reorder within. */
  function OnDate(d: string): SymptomLog -> bool {
    (l: SymptomLog) => l.date == Some(d)
  }

  /** In a sorted list that starts after `x`'s date, no log has that date. */
  lemma NoneOnEarlierDate(x: SymptomLog, sorted: seq<SymptomLog>)
    requires x.date.Some? && AllDated(sorted) && SortedByDate(sorted)
    requires sorted != [] && !DateLe(sorted[0].date.value, x.date.value)
    ensures Filter(sorted, OnDate(x.date.value)) == []
  {
    forall j | 0 <= j < |sorted| ensures sorted[j].date != x.date {
      if j > 0 {
        assert DateLe(sorted[0].date.value, sorted[j].date.value);
      } else {
        DateLeTotal(x.date.value, x.date.value);
      }
    }
    FilterNone(sorted, OnDate(x.date.value));
  }

  /** The tail of a sorted list is sorted. */
  lemma SortedTail(sorted: seq<SymptomLog>)
    requires sorted != [] && AllDated(sorted) && SortedByDate(sorted)
    ensures AllDated(sorted[1..]) && SortedByDate(sorted[1..])
  {
    var rest := sorted[1..];
    forall i, j | 0 <= i < j < |rest| ensures DateLe(rest[i].date.value, rest[j].date.value) {
      assert rest[i] == sorted[i + 1] && rest[j] == sorted[j + 1];
    }
  }

  /** Putting `x` in front of logs all dated after it puts it after every log of its own date. */
  lemma InsertInFrontStable(x: SymptomLog, sorted: seq<SymptomLog>, d: string)
    requires x.date.Some? && AllDated(sorted) && SortedByDate(sorted)
    requires sorted == [] || !DateLe(sorted[0].date.value, x.date.value)
    ensures Filter([x] + sorted, OnDate(d)) == Filter(sorted, OnDate(d)) + Filter([x], OnDate(d))
  {
    FilterAppend([x], sorted, OnDate(d));
    if x.date == Some(d) && sorted != [] {
      NoneOnEarlierDate(x, sorted);
    } else if sorted == [] {
      assert [x] + sorted == [x];
    }
  }

  /**
   * Inserting into a sorted list keeps the arrival order among logs of one date: `x` comes
   * after every log already there with its date.
   */
  lemma {:induction false} InsertByDateStable(x: SymptomLog, sorted: seq<SymptomLog>, d: string)
    requires x.date.Some? && AllDated(sorted) && SortedByDate(sorted)
    ensures Filter(InsertByDate(x, sorted), OnDate(d)) == Filter(sorted, OnDate(d)) + Filter([x], OnDate(d))
  {
    if sorted == [] || !DateLe(sorted[0].date.value, x.date.value) {
      assert InsertByDate(x, sorted) == [x] + sorted;
      InsertInFrontStable(x, sorted, d);
    } else {
      var h, rest := sorted[0], sorted[1..];
      SortedTail(sorted);
      var tail := InsertByDate(x, rest);
      assert InsertByDate(x, sorted) == [h] + tail;
      InsertByDateStable(x, rest, d);
      FilterConsStep(h, tail, rest, Filter([x], OnDate(d)), OnDate(d));
      assert sorted == [h] + rest;
    }
  }

  /**
   * The sort is stable: the logs of any one date come out in the order they came in, as
   * `Array.prototype.sort` promises for a comparator that calls them equal.
   */
  lemma {:induction false} SortByDateStable(logs: seq<SymptomLog>, d: string)
    requires AllDated(logs)
    ensures Filter(SortByDate(logs), OnDate(d)) == Filter(logs, OnDate(d))
  {
    if logs != [] {
      var init, last := logs[..|logs| - 1], logs[|logs| - 1];
      assert logs == init + [last];
      assert SortByDate(logs) == InsertByDate(last, SortByDate(init));
      SortByDateStable(init, d);
      SortByDateSorted(init);
      InsertByDateStable(last, SortByDate(init), d);
      FilterAppend(init, [last], OnDate(d));
    }
  }

  function TrendPoint(l: SymptomLog): SymptomTrendPoint
    requires l.date.Some?
  {
    SymptomTrendPoint(l.date.value, l.painLevel, l.fatigueLevel, l.mood, l.sleepHours, l.appetite, l.energy)
  }

  /** `trendData`: one point per log, in date order. */
  function TrendData(logs: seq<SymptomLog>): (r: seq<SymptomTrendPoint>)
    requires AllDated(logs)
    ensures |r| == |logs|
  {
    var sorted := SortByDate(logs);
    seq(|sorted|, i requires 0 <= i < |sorted| => TrendPoint(sorted[i]))
  }

  /** The trend is the logs' own points, each log exactly once, with dates never decreasing. */
  lemma TrendDataSorted(logs: seq<SymptomLog>)
    requires AllDated(logs)
    ensures var sorted := SortByDate(logs);
      multiset(sorted) == multiset(logs)
      && (forall i :: 0 <= i < |logs| ==> TrendData(logs)[i] == TrendPoint(sorted[i]))
      && forall i, j :: 0 <= i < j < |logs| ==> DateLe(TrendData(logs)[i].date, TrendData(logs)[j].date)
  {
    SortByDateSorted(logs);
  }

  // ---------------------------------------------------------------- tasks

  /** The "done/active completed" line: both counts are over the active tasks only. */
  function CompletedOfActive(tasks: seq<RecoveryTask>): (r: (nat, nat))
    ensures r.0 <= r.1
    ensures r.1 == Count(tasks, (t: RecoveryTask) => t.isActive)
    ensures r.0 == Count(tasks, (t: RecoveryTask) => t.isActive && t.status == Completed)
  {
    var active := Filter(tasks, (t: RecoveryTask) => t.isActive);
    CountIsFilterLength(tasks, (t: RecoveryTask) => t.isActive);
    ActiveCompletedCount(tasks);
    (Count(active, (t: RecoveryTask) => t.status == Completed), |active|)
  }

  lemma {:induction false} ActiveCompletedCount(tasks: seq<RecoveryTask>)
    ensures Count(Filter(tasks, (t: RecoveryTask) => t.isActive), (t: RecoveryTask) => t.status == Completed)
      == Count(tasks, (t: RecoveryTask) => t.isActive && t.status == Completed)
  {
    if tasks != [] {
      ActiveCompletedCount(tasks[1..]);
      var rest := Filter(tasks[1..], (t: RecoveryTask) => t.isActive);
      if tasks[0].isActive {
        assert Filter(tasks, (t: RecoveryTask) => t.isActive) == [tasks[0]] + rest;
        assert ([tasks[0]] + rest)[1..] == rest;
      }
    }
  }

  /** The task form's four text fields. */
  datatype TaskForm = TaskForm(title: string, description: string, frequency: string, dueDate: string)

  /** What the server receives for a new task (`isActive` absent) or an edited one (`isActive` carried over). */
  datatype TaskBody = TaskBody(
    title: string,
    description: Option<string>,
    frequency: Option<string>,
    dueDate: Option<string>,
    isActive: Option<bool>)

  /** The date part of an ISO timestamp: everything before the first `T`. */
  function DatePart(iso: string): (r: string)
    ensures |r| <= |iso| && r == iso[..|r|] && (|r| == |iso| || iso[|r|] == 'T')
    ensures 'T' !in r
  {
    SplitFirstPiece(iso, 'T');
    Split(iso, 'T')[0]
  }

  /** `openEditTask`: absent text becomes "", a due date keeps its date part. */
  function EditFormFor(t: RecoveryTask): (f: TaskForm)
    ensures f.title == t.title
    ensures f.description == t.description.GetOr([]) && f.frequency == t.frequency.GetOr([])
    ensures f.dueDate == (if Truthy(t.dueDate) then DatePart(t.dueDate.value) else [])
  {
    TaskForm(t.title, t.description.GetOr([]), t.frequency.GetOr([]),
      if Truthy(t.dueDate) then DatePart(t.dueDate.value) else [])
  }

  /** Save is offered only for a title that is not blank. */
  function TaskSaveEnabled(f: TaskForm): (r: bool)
    ensures r <==> !IsBlank(f.title)
  {
    Trim(f.title) != []
  }

  /** The body sent on save: empty text fields are left out; an edit keeps the task's active flag. */
  function TaskPayload(f: TaskForm, editing: Option<RecoveryTask>): (b: TaskBody)
    ensures b.title == f.title
    ensures b.description == EmptyToNone(f.description) && b.frequency == EmptyToNone(f.frequency)
    ensures b.dueDate == EmptyToNone(f.dueDate)
    ensures b.isActive.Some? <==> editing.Some?
    ensures editing.Some? ==> b.isActive == Some(editing.value.isActive)
  {
    TaskBody(f.title, EmptyToNone(f.description), EmptyToNone(f.frequency), EmptyToNone(f.dueDate),
      if editing.Some? then Some(editing.value.isActive) else None)
  }

  /** Opening a task for editing and saving it untouched sends back its title, texts and active flag. */
  lemma EditRoundTrip(t: RecoveryTask)
    requires t.description != Some([]) && t.frequency != Some([])
    ensures var b := TaskPayload(EditFormFor(t), Some(t));
      b.title == t.title && b.description == t.description && b.frequency == t.frequency
      && b.isActive == Some(t.isActive)
  {
    EmptyToNoneGetOr(t.description);
    EmptyToNoneGetOr(t.frequency);
  }

  // ---------------------------------------------------------------- care plan modal

  /** What the server receives when the care plan is saved. */
  datatype CarePlanBody = CarePlanBody(
    medications: seq<MedicationInput>,
    expectedRecoveryDate: Option<string>,
    recoveryDuration: Option<string>,
    careNotes: Option<string>)

  class CarePlanForm {
    var meds: seq<MedicationInput>
    var recoveryDate: string
    var duration: string
    var notes: string

    /** The form starts with one empty medication row and empty texts. */
    constructor ()
      ensures meds == [EmptyMed()] && recoveryDate == [] && duration == [] && notes == []
    {
      meds := [EmptyMed()];
      recoveryDate := [];
      duration := [];
      notes := [];
    }

    /**
     * `openCarePlanModal`: the plan's rows, or one empty row when there is no plan or its
     * list is null; the recovery date cut to its date part; absent texts as "".
     */
    method Open(plan: Option<CarePlan>)
      modifies this
      ensures meds == if plan.Some? && plan.value.medications.Some? then plan.value.medications.value else [EmptyMed()]
      ensures recoveryDate == if plan.Some? && Truthy(plan.value.expectedRecoveryDate) then DatePart(plan.value.expectedRecoveryDate.value) else []
      ensures duration == (if plan.Some? then plan.value.recoveryDuration.GetOr([]) else [])
      ensures notes == (if plan.Some? then plan.value.careNotes.GetOr([]) else [])
    {
      if plan.Some? && plan.value.medications.Some? {
        meds := plan.value.medications.value;
      } else {
        meds := [EmptyMed()];
      }
      if plan.Some? && Truthy(plan.value.expectedRecoveryDate) {
        recoveryDate := DatePart(plan.value.expectedRecoveryDate.value);
      } else {
        recoveryDate := [];
      }
      duration := if plan.Some? then plan.value.recoveryDuration.GetOr([]) else [];
      notes := if plan.Some? then plan.value.careNotes.GetOr([]) else [];
    }

    method UpdateRow(i: nat, f: MedField, v: string)
      requires i < |meds|
      modifies this`meds
      ensures meds == UpdateMed(old(meds), i, f, v)
    {
      meds := UpdateMed(meds, i, f, v);
    }

    method AddRow()
      modifies this`meds
      ensures meds == AddMed(old(meds))
    {
      meds := AddMed(meds);
    }

    /** The delete button exists only while there is more than one row. */
    method RemoveRow(i: nat)
      requires |meds| > 1 && i < |meds|
      modifies this`meds
      ensures meds == RemoveMed(old(meds), i) && |meds| >= 1
    {
      RemoveMedDropsRow(meds, i);
      meds := RemoveMed(meds, i);
    }

    /** The save payload: the named rows, and the three texts with "" left out. */
    function Payload(): (b: CarePlanBody)
      reads this
      ensures b.medications == NamedRows(meds)
      ensures b.expectedRecoveryDate == EmptyToNone(recoveryDate)
      ensures b.recoveryDuration == EmptyToNone(duration) && b.careNotes == EmptyToNone(notes)
    {
      CarePlanBody(NamedRows(meds), EmptyToNone(recoveryDate), EmptyToNone(duration), EmptyToNone(notes))
    }
  }
}
