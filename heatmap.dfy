/**
 * The pain heatmap (src/components/charts/MedicationHeatmap.tsx): the last `days` calendar
 * days up to today, each coloured by the pain of that day's log. Calendar arithmetic is
 * reduced to day numbers, and the `yyyy-MM-dd` key of a timestamp or a day number is given
 * as a function parameter.
 */
module Heatmap {
  import opened Wrappers
  import opened Types

  /** The six cell classes, from no log through the pain buckets. */
  datatype Shade = Gray100 | Emerald200 | Emerald400 | Amber300 | Orange400 | Red500

  /** The position of a class in the legend, lightest first. */
  function ShadeRank(c: Shade): (n: nat)
    ensures n <= 5
  {
    match c
    case Gray100 => 0
    case Emerald200 => 1
    case Emerald400 => 2
    case Amber300 => 3
    case Orange400 => 4
    case Red500 => 5
  }

  /** `colorForPain`: grey without a log, then one bucket per two pain points, red above 8. */
  function ColorForPain(pain: Option<real>): (c: Shade)
    ensures pain.None? <==> c == Gray100
    ensures pain.Some? ==>
      (c == Emerald200 <==> pain.value <= 2.0)
      && (c == Emerald400 <==> 2.0 < pain.value <= 4.0)
      && (c == Amber300 <==> 4.0 < pain.value <= 6.0)
      && (c == Orange400 <==> 6.0 < pain.value <= 8.0)
      && (c == Red500 <==> 8.0 < pain.value)
  {
    if pain.None? then Gray100
    else if pain.value <= 2.0 then Emerald200
    else if pain.value <= 4.0 then Emerald400
    else if pain.value <= 6.0 then Amber300
    else if pain.value <= 8.0 then Orange400
    else Red500
  }

  /** More pain never gives a lighter cell, and any log is darker than no log. */
  lemma ColorMonotone(p: real, q: real)
    requires p <= q
    ensures ShadeRank(ColorForPain(Some(p))) <= ShadeRank(ColorForPain(Some(q)))
    ensures ShadeRank(ColorForPain(None)) < ShadeRank(ColorForPain(Some(p)))
  {
  }

  /** The day a log counts for: its `date`, or its creation time when the date is missing. */
  function LogDay(l: SymptomLog, dayKey: string -> string): string {
    dayKey(l.When())
  }

  /** The index the `forEach` builds: each log in turn overwrites its day's entry. */
  function Indexed(logs: seq<SymptomLog>, dayKey: string -> string): map<string, real>
    decreases |logs|
  {
    if logs == [] then map[]
    else
      var front := logs[..|logs| - 1];
      var last := logs[|logs| - 1];
      Indexed(front, dayKey)[LogDay(last, dayKey) := last.painLevel]
  }

  /** `byDate`, built by the loop over the logs. */
  method IndexByDate(logs: seq<SymptomLog>, dayKey: string -> string) returns (byDate: map<string, real>)
    ensures byDate == Indexed(logs, dayKey)
  {
    byDate := map[];
    for i := 0 to |logs|
      invariant byDate == Indexed(logs[..i], dayKey)
    {
      assert logs[..i + 1][..i] == logs[..i];
      byDate := byDate[LogDay(logs[i], dayKey) := logs[i].painLevel];
    }
    assert logs[..|logs|] == logs;
  }

  /** Log `i` is the last log in the list that falls on `day`. */
  predicate LastOnDay(logs: seq<SymptomLog>, dayKey: string -> string, day: string, i: int) {
    0 <= i < |logs| && LogDay(logs[i], dayKey) == day
    && forall j :: i < j < |logs| ==> LogDay(logs[j], dayKey) != day
  }

  /** One more log sets its own day's entry and leaves the other entries as they were. */
  lemma IndexedStep(logs: seq<SymptomLog>, dayKey: string -> string, day: string)
    requires logs != []
    ensures var front := logs[..|logs| - 1];
      var last := logs[|logs| - 1];
      if LogDay(last, dayKey) == day then
        day in Indexed(logs, dayKey) && Indexed(logs, dayKey)[day] == last.painLevel
      else
        (day in Indexed(logs, dayKey) <==> day in Indexed(front, dayKey))
        && (day in Indexed(front, dayKey) ==> Indexed(logs, dayKey)[day] == Indexed(front, dayKey)[day])
  {
  }

  /** A day has an entry iff some log falls on it. */
  lemma {:induction false} DayIndexedIff(logs: seq<SymptomLog>, dayKey: string -> string, day: string)
    ensures day in Indexed(logs, dayKey) <==> exists i :: 0 <= i < |logs| && LogDay(logs[i], dayKey) == day
    decreases |logs|
  {
    if logs != [] {
      var n := |logs| - 1;
      var front := logs[..n];
      DayIndexedIff(front, dayKey, day);
      IndexedStep(logs, dayKey, day);
      if LogDay(logs[n], dayKey) != day {
        if exists i :: 0 <= i < |logs| && LogDay(logs[i], dayKey) == day {
          var i :| 0 <= i < |logs| && LogDay(logs[i], dayKey) == day;
          assert i < n && front[i] == logs[i];
        }
        if exists i :: 0 <= i < |front| && LogDay(front[i], dayKey) == day {
          var i :| 0 <= i < |front| && LogDay(front[i], dayKey) == day;
          assert front[i] == logs[i];
        }
      }
    }
  }

  /** The entry of a day is the pain of the last log in the list that falls on it. */
  lemma {:induction false} LastLogWins(logs: seq<SymptomLog>, dayKey: string -> string, day: string)
    requires day in Indexed(logs, dayKey)
    ensures exists i :: LastOnDay(logs, dayKey, day, i) && Indexed(logs, dayKey)[day] == logs[i].painLevel
    decreases |logs|
  {
    var n := |logs| - 1;
    var front := logs[..n];
    IndexedStep(logs, dayKey, day);
    if LogDay(logs[n], dayKey) == day {
      assert LastOnDay(logs, dayKey, day, n);
    } else {
      LastLogWins(front, dayKey, day);
      var i :| LastOnDay(front, dayKey, day, i) && Indexed(front, dayKey)[day] == front[i].painLevel;
      assert logs[i] == front[i];
      assert forall j :: i < j < n ==> logs[j] == front[j];
      assert LastOnDay(logs, dayKey, day, i);
    }
  }

  /** The component's default window. */
  const DefaultDays: nat := 28

  /** The cells: `days` consecutive day numbers ending with today. */
  function GridDays(today: int, days: nat): (cells: seq<int>)
    requires days >= 1
    ensures |cells| == days && cells[days - 1] == today
    ensures forall i :: 0 < i < |cells| ==> cells[i] == cells[i - 1] + 1
  {
    seq(days, i requires 0 <= i < days => today - (days - 1) + i)
  }

  /** The class of the cell for a day: the pain indexed under that day's key, if any. */
  function CellShade(byDate: map<string, real>, dayOfCell: string): (c: Shade)
    ensures c == Gray100 <==> dayOfCell !in byDate
  {
    ColorForPain(if dayOfCell in byDate then Some(byDate[dayOfCell]) else None)
  }
}
