/**
 * The symptom history page (src/pages/HistoryPage.tsx): the badge on each log, which date
 * and temperature a log shows, and the trend window picker.
 */
module History {
  import opened Wrappers
  import opened Types

  datatype PainBadge = CriticalBadge | MonitorBadge | NormalBadge

  /** 7 and above is critical, 4 up to 7 is monitor, anything lower normal. */
  function BadgeFor(pain: real): (b: PainBadge)
    ensures b == CriticalBadge <==> pain >= 7.0
    ensures b == MonitorBadge <==> 4.0 <= pain < 7.0
    ensures b == NormalBadge <==> pain < 4.0
  {
    if pain >= 7.0 then CriticalBadge else if pain >= 4.0 then MonitorBadge else NormalBadge
  }

  /** The severity order of the badges. */
  function BadgeRank(b: PainBadge): nat {
    match b
    case NormalBadge => 0
    case MonitorBadge => 1
    case CriticalBadge => 2
  }

  /** More pain never gives a milder badge. */
  lemma BadgeMonotone(p: real, q: real)
    requires p <= q
    ensures BadgeRank(BadgeFor(p)) <= BadgeRank(BadgeFor(q))
  {
  }

  /** The heading of a log: its date formatted by `fmt`, or its creation time when it has no date. */
  function ShownDate(l: SymptomLog, fmt: string -> string): (r: string)
    ensures l.date.None? ==> r == fmt(l.createdAt)
    ensures l.date.Some? ==> r == fmt(l.date.value)
  {
    fmt(l.When())
  }

  /** `log.temperature && …`: a missing temperature and a temperature of 0 are both hidden. */
  function TemperatureShown(t: Option<real>): (r: bool)
    ensures r <==> t.Some? && t.value != 0.0
  {
    t.Some? && t.value != 0.0
  }

  /** What `{log.temperature && <span>…</span>}` puts on the page. */
  datatype TemperatureOutput = NoOutput | ZeroText | TemperatureSpan(value: real)

  /**
   * A missing temperature renders nothing; a temperature of 0 is falsy, so the expression
   * yields the number 0 itself, which React renders as the text "0"; any other value renders
   * the span.
   */
  function TemperatureRendered(t: Option<real>): (r: TemperatureOutput)
    ensures r.NoOutput? <==> t.None?
    ensures r.ZeroText? <==> t == Some(0.0)
    ensures r.TemperatureSpan? <==> TemperatureShown(t)
    ensures r.TemperatureSpan? ==> t == Some(r.value)
  {
    if t.None? then NoOutput else if t.value == 0.0 then ZeroText else TemperatureSpan(t.value)
  }

  /** The windows the trend can show, in days. */
  const WindowChoices: seq<nat> := [7, 14, 30]

  /** The trend window: a number of days the buttons set; 14 at first. */
  class TrendWindow {
    var days: nat

    predicate Valid()
      reads this
    {
      days in WindowChoices
    }

    constructor ()
      ensures Valid() && days == 14
    {
      days := 14;
    }

    /** Whether the button for `d` is drawn as the selected one. */
    function Highlighted(d: nat): (r: bool)
      reads this
      ensures r <==> d == days
    {
      d == days
    }

    /** A button click: that window is selected. */
    method Choose(d: nat)
      requires d in WindowChoices
      modifies this
      ensures Valid() && days == d
    {
      days := d;
    }
  }

  /** Exactly one of the three buttons is highlighted while the window is one of the choices. */
  lemma OneWindowHighlighted(days: nat)
    requires days in WindowChoices
    ensures |set i | 0 <= i < |WindowChoices| && WindowChoices[i] == days| == 1
  {
    var s := set i | 0 <= i < |WindowChoices| && WindowChoices[i] == days;
    var k := if days == 7 then 0 else if days == 14 then 1 else 2;
    assert s == {k};
  }
}
