/** The 12-hour clock strings ("09:15 AM") that the alerts and the activity
    widgets turn into "time ago" labels. Both widgets read the string the same
    way: split at the first space into a time and a period, split the time at
    the first colon, read hours and minutes with `parseInt`, then move the hour
    onto the 24-hour clock. */
module TwelveHour {
  import opened Wrappers
  import opened JsText

  /** What the destructuring `[time, period] = s.split(' ')` and
      `[hours, minutes] = time.split(':')` followed by `parseInt` produce;
      `None` is `undefined` for the period and `NaN` for the numbers. */
  datatype ClockText = ClockText(hours: Option<int>, minutes: Option<int>, period: Option<string>)

  function ReadClock(timeStr: string): ClockText
  {
    var parts := Split(timeStr, ' ');
    var hm := Split(parts[0], ':');
    ClockText(
      ParseInt(hm[0]),
      if |hm| > 1 then ParseInt(hm[1]) else None,
      if |parts| > 1 then Some(parts[1]) else None)
  }

  /** Twelve-hour to 24-hour: a PM hour other than 12 gains 12, then an AM hour
      that is 12 becomes 0, in that order; an unparsed (NaN) hour stays unparsed. */
  function To24Hour(hour: Option<int>, period: Option<string>): Option<int>
  {
    match hour
    case None => None
    case Some(h) =>
      var afterPm := if period == Some("PM") && h != 12 then h + 12 else h;
      Some(if period == Some("AM") && afterPm == 12 then 0 else afterPm)
  }

  /** The conversion rule case by case: 12 AM is hour 0, 12 PM is hour 12, any
      other PM hour gains 12, any other AM hour is kept, and so is every hour
      with a period other than AM or PM. */
  lemma To24HourCases(h: int, period: Option<string>)
    ensures period == Some("AM") ==> To24Hour(Some(h), period) == Some(if h == 12 then 0 else h)
    ensures period == Some("PM") ==> To24Hour(Some(h), period) == Some(if h == 12 then 12 else h + 12)
    ensures period != Some("AM") && period != Some("PM") ==> To24Hour(Some(h), period) == Some(h)
  {
  }

  /** The 12-hour reading of a 24-hour hour. */
  function From24Hour(h24: nat): (r: (nat, string))
    requires h24 < 24
    ensures 1 <= r.0 <= 12 && (r.1 == "AM" || r.1 == "PM")
  {
    (if h24 % 12 == 0 then 12 else h24 % 12, if h24 < 12 then "AM" else "PM")
  }

  /** On proper clock readings (hour 1 to 12, AM or PM) the conversion is a
      bijection onto the hours 0 to 23: it lands in range and undoes From24Hour. */
  lemma To24HourBijective(h: nat, period: string, h24: nat)
    requires 1 <= h <= 12 && (period == "AM" || period == "PM") && h24 < 24
    ensures To24Hour(Some(h), Some(period)).Some?
    ensures 0 <= To24Hour(Some(h), Some(period)).value < 24
    ensures To24Hour(Some(From24Hour(h24).0), Some(From24Hour(h24).1)) == Some(h24)
    ensures From24Hour(To24Hour(Some(h), Some(period)).value) == (h, period)
  {
  }

  /** The string a clock shows for hours `h`, minutes `m` and a period. */
  function FormatClock(h: nat, m: nat, period: string): string
    requires h < 100 && m < 100
  {
    TwoDigits(h) + ":" + TwoDigits(m) + " " + period
  }

  /** Reading back a clock string recovers its hours, minutes and period. */
  lemma ReadFormattedClock(h: nat, m: nat, period: string)
    requires h < 100 && m < 100 && ' ' !in period
    ensures ReadClock(FormatClock(h, m, period)) == ClockText(Some(h), Some(m), Some(period))
  {
    var hh, mm := TwoDigits(h), TwoDigits(m);
    var time := hh + ":" + mm;
    assert ' ' !in time;
    assert FormatClock(h, m, period) == time + [' '] + period;
    SplitAtFirst(time, period, ' ');
    SplitNoSeparator(period, ' ');
    assert Split(FormatClock(h, m, period), ' ') == [time, period];
    assert ':' !in hh && ':' !in mm;
    assert time == hh + [':'] + mm;
    SplitAtFirst(hh, mm, ':');
    SplitNoSeparator(mm, ':');
    assert Split(time, ':') == [hh, mm];
    ParseIntOfTwoDigits(h);
    ParseIntOfTwoDigits(m);
  }
}
