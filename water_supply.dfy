/** The water-supply control: a manual "dispense now" button, a scheduled
    dispense armed by entering a time of day and sending it to the irrigation
    controller, a clock that fires the scheduled dispense once when it shows
    that time, and a log of dispenses, newest first.

    A dispense takes effect in two steps, as in the control: `StartDispense`
    sets `isWatering` and starts a 500 ms timeout; `FinishDispense` is that
    timeout firing, which writes the log entry and clears `isWatering`. Timeouts
    of equal length fire in the order they were started, so the outstanding
    ones form a queue, `pending`, oldest first. */
module WaterSupply {
  import opened JsText

  datatype DispenseMethod = Manual | Scheduled | Sensor

  /** One log row: the clock's date and time labels when the dispense completed,
      and `kind` for the log's `method` (a reserved word here). */
  datatype WaterLog = WaterLog(date: string, time: string, kind: DispenseMethod)

  /** The control's state, with the queue of started dispenses whose timeout
      has not fired yet. */
  datatype Panel = Panel(
    logs: seq<WaterLog>,
    scheduledTime: string,
    isWatering: bool,
    timeSent: bool,
    pending: seq<DispenseMethod>)

  const INITIAL: Panel := Panel([], "", false, false, [])

  /** `dispenseWater(method)` up to its timeout. */
  function StartDispense(s: Panel, m: DispenseMethod): Panel {
    s.(isWatering := true, pending := s.pending + [m])
  }

  /** The dispense timeout firing for the oldest outstanding dispense. */
  function FinishDispense(s: Panel, date: string, time: string): Panel
    requires |s.pending| > 0
  {
    s.(logs := [WaterLog(date, time, s.pending[0])] + s.logs, isWatering := false, pending := s.pending[1..])
  }

  /** The time input's `onChange`. */
  function EditTime(s: Panel, value: string): Panel {
    s.(scheduledTime := value, timeSent := false)
  }

  /** `handleSendToESP`. */
  function Send(s: Panel): Panel {
    if s.scheduledTime == "" then s else s.(timeSent := true)
  }

  /** The polling interval exists only while a target is set and sent. */
  predicate Armed(s: Panel) {
    s.scheduledTime != "" && s.timeSent
  }

  /** The local time as the clock string "HH:MM", two digits each. */
  function ClockString(hour: nat, minute: nat): string
    requires hour < 24 && minute < 60
  {
    TwoDigits(hour) + ":" + TwoDigits(minute)
  }

  /** One poll of the clock: when armed and the clock shows the target, start a
      scheduled dispense and clear the target and the sent flag. */
  function ClockTick(s: Panel, hour: nat, minute: nat): Panel
    requires hour < 24 && minute < 60
  {
    if !Armed(s) then s
    else if ClockString(hour, minute) == s.scheduledTime then
      StartDispense(s, Scheduled).(scheduledTime := "", timeSent := false)
    else s
  }

  /** The manual button is disabled while a dispense runs. */
  predicate ManualEnabled(s: Panel) {
    !s.isWatering
  }

  /** The send button is disabled with no target time or once the time is sent. */
  predicate SendEnabled(s: Panel) {
    s.scheduledTime != "" && !s.timeSent
  }

  // ---------------------------------------------------------------------------
  // Every dispense ever started, oldest first.

  /** The methods of the log, oldest first. */
  function MethodsOldestFirst(logs: seq<WaterLog>): (r: seq<DispenseMethod>)
    ensures |r| == |logs|
  {
    if |logs| == 0 then [] else MethodsOldestFirst(logs[1..]) + [logs[0].kind]
  }

  /** The dispenses started so far, in the order they were started: the logged
      ones followed by the outstanding ones. */
  function Requests(s: Panel): seq<DispenseMethod> {
    MethodsOldestFirst(s.logs) + s.pending
  }

  /** Starting a dispense records exactly one more request, with its method. */
  lemma StartRecordsRequest(s: Panel, m: DispenseMethod)
    ensures Requests(StartDispense(s, m)) == Requests(s) + [m]
    ensures !ManualEnabled(StartDispense(s, m))
  {
    assert MethodsOldestFirst(s.logs) + (s.pending + [m]) == MethodsOldestFirst(s.logs) + s.pending + [m];
  }

  /** Completing a dispense loses no request and invents none: the new newest
      log entry carries the method of the oldest outstanding dispense, the older
      entries stay as they were, and the manual button is enabled again. */
  lemma FinishKeepsRequests(s: Panel, date: string, time: string)
    requires |s.pending| > 0
    ensures Requests(FinishDispense(s, date, time)) == Requests(s)
    ensures FinishDispense(s, date, time).logs[0].kind == s.pending[0]
    ensures FinishDispense(s, date, time).logs[1..] == s.logs
    ensures ManualEnabled(FinishDispense(s, date, time))
  {
    var t := FinishDispense(s, date, time);
    assert t.logs[1..] == s.logs;
    assert MethodsOldestFirst(t.logs) == MethodsOldestFirst(s.logs) + [s.pending[0]];
    assert [s.pending[0]] + s.pending[1..] == s.pending;
    assert MethodsOldestFirst(s.logs) + [s.pending[0]] + s.pending[1..] == MethodsOldestFirst(s.logs) + s.pending;
  }

  // ---------------------------------------------------------------------------
  // The schedule.

  /** Sending with no target changes nothing; otherwise it arms the target,
      and pressing the send button while it is disabled could change nothing. */
  lemma SendArms(s: Panel)
    ensures s.scheduledTime == "" ==> Send(s) == s
    ensures s.scheduledTime != "" ==> Armed(Send(s)) && Send(s) == s.(timeSent := true)
    ensures !SendEnabled(s) ==> Send(s) == s
  {
  }

  /** Editing the time sets the target and always disarms. */
  lemma EditDisarms(s: Panel, value: string)
    ensures EditTime(s, value).scheduledTime == value
    ensures !Armed(EditTime(s, value))
    ensures Requests(EditTime(s, value)) == Requests(s)
  {
  }

  /** The clock strings of different times of day differ, so a target matches
      at most one minute of the day. */
  lemma ClockStringInjective(h1: nat, m1: nat, h2: nat, m2: nat)
    requires h1 < 24 && m1 < 60 && h2 < 24 && m2 < 60
    requires ClockString(h1, m1) == ClockString(h2, m2)
    ensures h1 == h2 && m1 == m2
  {
    var s1, s2 := ClockString(h1, m1), ClockString(h2, m2);
    assert s1[..2] == TwoDigits(h1) && s2[..2] == TwoDigits(h2);
    assert s1[3..] == TwoDigits(m1) && s2[3..] == TwoDigits(m2);
    TwoDigitsInjective(h1, h2);
    TwoDigitsInjective(m1, m2);
  }

  /** A poll does nothing unless armed and the clock shows the target; when it
      fires it records exactly one scheduled request and disarms. */
  lemma TickCases(s: Panel, hour: nat, minute: nat)
    requires hour < 24 && minute < 60
    ensures !Armed(s) || ClockString(hour, minute) != s.scheduledTime ==> ClockTick(s, hour, minute) == s
    ensures Armed(s) && ClockString(hour, minute) == s.scheduledTime ==>
      && Requests(ClockTick(s, hour, minute)) == Requests(s) + [Scheduled]
      && ClockTick(s, hour, minute).scheduledTime == ""
      && !ClockTick(s, hour, minute).timeSent
      && ClockTick(s, hour, minute).logs == s.logs
  {
    if Armed(s) && ClockString(hour, minute) == s.scheduledTime {
      StartRecordsRequest(s, Scheduled);
    }
  }

  /** A clock reading "HH:MM". */
  predicate ValidTime(t: (nat, nat)) {
    t.0 < 24 && t.1 < 60
  }

  /** The state after the clock has been polled at each of `times`, in order. */
  function RunClock(s: Panel, times: seq<(nat, nat)>): Panel
    requires forall k :: 0 <= k < |times| ==> ValidTime(times[k])
    decreases |times|
  {
    if |times| == 0 then s
    else
      assert ValidTime(times[0]);
      RunClock(ClockTick(s, times[0].0, times[0].1), times[1..])
  }

  /** Single fire: whatever the clock shows, polling from a disarmed state
      changes nothing, and from an armed one either changes nothing or fires
      exactly one scheduled dispense and leaves the schedule disarmed. */
  lemma {:induction false} SingleFire(s: Panel, times: seq<(nat, nat)>)
    requires forall k :: 0 <= k < |times| ==> ValidTime(times[k])
    ensures !Armed(s) ==> RunClock(s, times) == s
    ensures var r := RunClock(s, times);
      || r == s
      || (Requests(r) == Requests(s) + [Scheduled] && !Armed(r) && r.logs == s.logs && r.scheduledTime == "")
    decreases |times|
  {
    if |times| > 0 {
      assert ValidTime(times[0]);
      var next := ClockTick(s, times[0].0, times[0].1);
      TickCases(s, times[0].0, times[0].1);
      SingleFire(next, times[1..]);
      if next != s {
        assert !Armed(next);
      }
    }
  }

  /** Polling twice at the same minute is the same as polling once: the second
      poll of a matching minute finds the schedule disarmed. */
  lemma {:induction false} SameMinuteIdempotent(s: Panel, hour: nat, minute: nat)
    requires hour < 24 && minute < 60
    ensures ClockTick(ClockTick(s, hour, minute), hour, minute) == ClockTick(s, hour, minute)
  {
    TickCases(s, hour, minute);
    var once := ClockTick(s, hour, minute);
    if once != s {
      TickCases(once, hour, minute);
    }
  }

  /** The scheduled run from an empty control: set "14:30", send it, let the
      clock reach 14:30 and the timeout fire. One "Scheduled" entry is logged and
      the schedule is back to idle. */
  lemma ScheduleAtFourteenThirty(date: string, time: string)
    ensures ClockString(14, 30) == "14:30"
    ensures var armed := Send(EditTime(INITIAL, "14:30"));
      && Armed(armed)
      && var fired := ClockTick(armed, 14, 30);
      && |fired.pending| == 1
      && var done := FinishDispense(fired, date, time);
      && done.logs == [WaterLog(date, time, Scheduled)]
      && done.scheduledTime == "" && !done.timeSent && !done.isWatering
  {
    assert TwoDigits(14) == "14" && TwoDigits(30) == "30";
  }

  class WaterSupplyControl {
    var logs: seq<WaterLog>
    var scheduledTime: string
    var isWatering: bool
    var timeSent: bool
    var pending: seq<DispenseMethod>

    function State(): Panel
      reads this
    {
      Panel(logs, scheduledTime, isWatering, timeSent, pending)
    }

    constructor ()
      ensures State() == INITIAL
    {
      logs, scheduledTime, isWatering, timeSent, pending := [], "", false, false, [];
    }

    /** `dispenseWater(method)`: set `isWatering` and start the timeout. */
    method DispenseWater(m: DispenseMethod)
      modifies this
      ensures State() == StartDispense(old(State()), m)
      ensures isWatering && pending == old(pending) + [m]
      ensures logs == old(logs) && scheduledTime == old(scheduledTime) && timeSent == old(timeSent)
    {
      isWatering := true;
      pending := pending + [m];
    }

    /** The dispense timeout: prepend the log entry, clear `isWatering`. */
    method CompleteDispense(date: string, time: string)
      requires |pending| > 0
      modifies this
      ensures State() == FinishDispense(old(State()), date, time)
      ensures logs == [WaterLog(date, time, old(pending)[0])] + old(logs)
      ensures !isWatering && pending == old(pending)[1..]
      ensures scheduledTime == old(scheduledTime) && timeSent == old(timeSent)
    {
      logs := [WaterLog(date, time, pending[0])] + logs;
      isWatering := false;
      pending := pending[1..];
    }

    /** The time input's `onChange`. */
    method EditScheduledTime(value: string)
      modifies this
      ensures State() == EditTime(old(State()), value)
      ensures scheduledTime == value && !timeSent
      ensures logs == old(logs) && isWatering == old(isWatering) && pending == old(pending)
    {
      scheduledTime := value;
      timeSent := false;
    }

    /** `handleSendToESP`; the message to the controller itself is not modelled. */
    method SendToController()
      modifies this
      ensures State() == Send(old(State()))
      ensures timeSent == (old(timeSent) || old(scheduledTime) != "")
      ensures logs == old(logs) && scheduledTime == old(scheduledTime)
      ensures isWatering == old(isWatering) && pending == old(pending)
    {
      if scheduledTime == "" {
        return;
      }
      timeSent := true;
    }

    /** One run of the polling interval, the clock showing `hour:minute`. */
    method PollClock(hour: nat, minute: nat)
      requires hour < 24 && minute < 60
      modifies this
      ensures State() == ClockTick(old(State()), hour, minute)
    {
      if scheduledTime == "" || !timeSent {
        return;
      }
      var current := ClockString(hour, minute);
      if current == scheduledTime {
        DispenseWater(Scheduled);
        scheduledTime := "";
        timeSent := false;
      }
    }

    function ManualButtonEnabled(): bool
      reads this
    {
      ManualEnabled(State())
    }

    function SendButtonEnabled(): bool
      reads this
    {
      SendEnabled(State())
    }
  }
}
