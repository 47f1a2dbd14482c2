/** The system-alerts widget: a list of alerts that the user can dismiss one by
    one, a filter by alert type with a count per type, a priority dot, and a
    "time ago" label for each alert's time. */
module Alerts {
  import opened Wrappers
  import opened JsText
  import opened TwelveHour

  datatype AlertType = Warning | Info | Success
  datatype Priority = High | Medium | Low

  /** An alert; optional fields are `None` when absent. */
  datatype Alert = Alert(
    id: int,
    message: string,
    kind: AlertType,
    time: Option<string>,
    priority: Option<Priority>,
    dismissed: Option<bool>)

  /** The filter buttons: 'all' or one alert type. */
  datatype Filter = All | Only(kind: AlertType)

  // ---------------------------------------------------------------------------
  // Array.prototype.filter

  /** `xs.filter(p)`: the elements that pass `p`, in their original order. */
  function Keep<T(!new)>(xs: seq<T>, p: T -> bool): (r: seq<T>)
    ensures |r| <= |xs|
    ensures forall k :: 0 <= k < |r| ==> p(r[k])
    ensures forall x :: x in r <==> x in xs && p(x)
  {
    if |xs| == 0 then [] else (if p(xs[0]) then [xs[0]] else []) + Keep(xs[1..], p)
  }

  /** Filtering distributes over concatenation: it keeps the order of what it
      keeps. */
  lemma {:induction false} KeepAppend<T(!new)>(xs: seq<T>, ys: seq<T>, p: T -> bool)
    ensures Keep(xs + ys, p) == Keep(xs, p) + Keep(ys, p)
  {
    if |xs| > 0 {
      assert (xs + ys)[1..] == xs[1..] + ys;
      KeepAppend(xs[1..], ys, p);
    } else {
      assert xs + ys == ys;
    }
  }

  /** Filtering a list whose elements all pass gives the list back. */
  lemma {:induction false} KeepAllPass<T(!new)>(xs: seq<T>, p: T -> bool)
    requires forall k :: 0 <= k < |xs| ==> p(xs[k])
    ensures Keep(xs, p) == xs
  {
    if |xs| > 0 {
      KeepAllPass(xs[1..], p);
      assert [xs[0]] + xs[1..] == xs;
    }
  }

  /** Filtering twice by the same test is filtering once. */
  lemma KeepIdempotent<T(!new)>(xs: seq<T>, p: T -> bool)
    ensures Keep(Keep(xs, p), p) == Keep(xs, p)
  {
    KeepAllPass(Keep(xs, p), p);
  }

  // ---------------------------------------------------------------------------
  // Dismiss, filter, count

  function WithoutId(alerts: seq<Alert>, id: int): seq<Alert> {
    Keep(alerts, (a: Alert) => a.id != id)
  }

  /** Dismissing removes exactly the alerts with that id: every other alert
      stays, in its original order, and dismissing again changes nothing. */
  lemma DismissRemovesExactly(alerts: seq<Alert>, id: int)
    ensures forall a :: a in WithoutId(alerts, id) <==> a in alerts && a.id != id
    ensures forall xs, ys :: alerts == xs + ys ==> WithoutId(alerts, id) == WithoutId(xs, id) + WithoutId(ys, id)
    ensures (forall k :: 0 <= k < |alerts| ==> alerts[k].id != id) ==> WithoutId(alerts, id) == alerts
    ensures WithoutId(WithoutId(alerts, id), id) == WithoutId(alerts, id)
  {
    forall xs, ys | alerts == xs + ys
      ensures WithoutId(alerts, id) == WithoutId(xs, id) + WithoutId(ys, id)
    {
      KeepAppend(xs, ys, (a: Alert) => a.id != id);
    }
    if forall k :: 0 <= k < |alerts| ==> alerts[k].id != id {
      KeepAllPass(alerts, (a: Alert) => a.id != id);
    }
    KeepIdempotent(alerts, (a: Alert) => a.id != id);
  }

  function OfType(alerts: seq<Alert>, kind: AlertType): seq<Alert> {
    Keep(alerts, (a: Alert) => a.kind == kind)
  }

  /** `filteredAlerts`. */
  function Shown(alerts: seq<Alert>, filter: Filter): (r: seq<Alert>)
    ensures filter == All ==> r == alerts
    ensures filter.Only? ==> forall a :: a in r <==> a in alerts && a.kind == filter.kind
  {
    match filter
    case All => alerts
    case Only(kind) => OfType(alerts, kind)
  }

  /** The three counts cover every alert once, since every alert has exactly one
      of the three types. */
  lemma {:induction false} CountsSum(alerts: seq<Alert>)
    ensures |OfType(alerts, Warning)| + |OfType(alerts, Info)| + |OfType(alerts, Success)| == |alerts|
  {
    if |alerts| > 0 {
      CountsSum(alerts[1..]);
    }
  }

  // ---------------------------------------------------------------------------
  // Priority dot

  /** The dot drawn for a priority: its colour class and whether it pulses. */
  datatype Indicator = Indicator(color: string, pulse: bool)

  /** `getPriorityIndicator`. */
  function PriorityIndicator(priority: Option<Priority>): (r: Option<Indicator>)
    ensures r.None? <==> priority.None?
  {
    match priority
    case Some(High) => Some(Indicator("bg-red-500", true))
    case Some(Medium) => Some(Indicator("bg-yellow-500", false))
    case Some(Low) => Some(Indicator("bg-green-500", false))
    case None => None
  }

  /** Different priorities get different dots, so each dot names one priority. */
  lemma IndicatorsDistinct(p: Priority, q: Priority)
    ensures PriorityIndicator(Some(p)) == PriorityIndicator(Some(q)) <==> p == q
  {
  }

  // ---------------------------------------------------------------------------
  // Time ago

  /** `getTimeAgo` with the hour of the current local time passed in: times
      mentioning "Today" or "Yesterday" are shown as they are; otherwise the
      label counts whole hours between the alert's hour and the current hour. */
  function TimeAgo(timeStr: string, nowHour: int): string
  {
    if Includes(timeStr, "Today") then timeStr
    else if Includes(timeStr, "Yesterday") then timeStr
    else
      var clock := ReadClock(timeStr);
      match To24Hour(clock.hours, clock.period)
      case None => "Just now"
      case Some(hour24) =>
        var diffHours := nowHour - hour24;
        if diffHours > 0 then NatToString(diffHours) + "h ago" else "Just now"
  }

  lemma TimeAgoVerbatim(timeStr: string, nowHour: int)
    requires Includes(timeStr, "Today") || Includes(timeStr, "Yesterday")
    ensures TimeAgo(timeStr, nowHour) == timeStr
  {
  }

  /** A string none of whose code units starts `sub` does not include it. */
  lemma NotIncludesWithoutFirst(s: string, sub: string)
    requires |sub| > 0 && sub[0] !in s
    ensures !Includes(s, sub)
  {
    IncludesIff(s, sub);
  }

  /** On a clock string "hh:mm AM" or "hh:mm PM" the label is "Nh ago" with N the
      current hour minus the alert's 24-hour hour when that is positive, and
      "Just now" otherwise. */
  lemma TimeAgoOfClock(h: nat, m: nat, period: string, nowHour: int)
    requires 1 <= h <= 12 && m < 60 && (period == "AM" || period == "PM")
    ensures var hour24 := To24Hour(Some(h), Some(period)).value;
      TimeAgo(FormatClock(h, m, period), nowHour)
        == if nowHour - hour24 > 0 then NatToString(nowHour - hour24) + "h ago" else "Just now"
  {
    var s := FormatClock(h, m, period);
    assert 'T' !in s && 'Y' !in s by {
      assert s == TwoDigits(h) + ":" + TwoDigits(m) + " " + period;
    }
    NotIncludesWithoutFirst(s, "Today");
    NotIncludesWithoutFirst(s, "Yesterday");
    ReadFormattedClock(h, m, period);
  }

  // ---------------------------------------------------------------------------
  // The widget's state

  /** The alerts the widget starts with; none is marked dismissed. */
  const INITIAL_ALERTS: seq<Alert> := [
    Alert(1, "Soil moisture low for Tomato 1", Warning, Some("09:15 AM"), Some(High), None),
    Alert(2, "Water scheduled at 06:30 AM", Info, Some("Yesterday"), Some(Medium), None),
    Alert(3, "Water dispensed successfully", Success, Some("Today, 7:00 AM"), Some(Low), None),
    Alert(4, "Temperature sensor reading unstable", Warning, Some("08:30 AM"), Some(Medium), None),
    Alert(5, "Automated watering cycle completed", Success, Some("07:45 AM"), Some(Low), None)]

  class AlertsWidget {
    var alerts: seq<Alert>
    var filter: Filter
    var animatingAlert: Option<int>

    constructor ()
      ensures alerts == INITIAL_ALERTS && filter == All && animatingAlert == None
    {
      alerts := INITIAL_ALERTS;
      filter := All;
      animatingAlert := None;
    }

    /** The click on an alert's close button: mark it as animating. */
    method StartDismiss(id: int)
      modifies this
      ensures animatingAlert == Some(id)
      ensures alerts == old(alerts) && filter == old(filter)
    {
      animatingAlert := Some(id);
    }

    /** The dismissal timeout: drop the alerts with that id, stop animating. */
    method FinishDismiss(id: int)
      modifies this
      ensures alerts == WithoutId(old(alerts), id)
      ensures animatingAlert == None && filter == old(filter)
    {
      alerts := WithoutId(alerts, id);
      animatingAlert := None;
    }

    /** A filter button. */
    method SetFilter(f: Filter)
      modifies this
      ensures filter == f && alerts == old(alerts) && animatingAlert == old(animatingAlert)
    {
      filter := f;
    }

    function ShownAlerts(): seq<Alert>
      reads this
    {
      Shown(alerts, filter)
    }

    /** `alertCounts`: warnings, infos and successes. */
    function Counts(): (c: (nat, nat, nat))
      reads this
      ensures c.0 + c.1 + c.2 == |alerts|
    {
      CountsSum(alerts);
      (|OfType(alerts, Warning)|, |OfType(alerts, Info)|, |OfType(alerts, Success)|)
    }
  }
}
