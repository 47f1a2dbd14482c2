/** The recent-activity feed: each activity's text picks an icon and a colour
    by keyword, and its clock time is shown as hours or minutes ago. */
module RecentActivity {
  import opened Wrappers
  import opened JsText
  import opened TwelveHour

  // ---------------------------------------------------------------------------
  // Keyword classification

  /** The five kinds of activity the feed tells apart, in the order its keyword
      tests are tried. */
  datatype Category = Watering | SensorReading | ManualAction | ScheduledAction | Other

  /** The text mentions one keyword or the other. */
  predicate Mentions(action: string, a: string, b: string) {
    Includes(action, a) || Includes(action, b)
  }

  /** Reference classification: the first keyword test that succeeds wins. */
  function Classify(action: string): (c: Category)
    ensures c == Watering <==> Mentions(action, "Watered", "water")
    ensures c == SensorReading <==>
      !Mentions(action, "Watered", "water") && Mentions(action, "Temperature", "sensor")
    ensures c == ManualAction <==>
      !Mentions(action, "Watered", "water") && !Mentions(action, "Temperature", "sensor") &&
      Includes(action, "Manual")
    ensures c == ScheduledAction <==>
      !Mentions(action, "Watered", "water") && !Mentions(action, "Temperature", "sensor") &&
      !Includes(action, "Manual") && Includes(action, "Scheduled")
    ensures c == Other <==>
      !Mentions(action, "Watered", "water") && !Mentions(action, "Temperature", "sensor") &&
      !Includes(action, "Manual") && !Includes(action, "Scheduled")
  {
    if Includes(action, "Watered") || Includes(action, "water") then Watering
    else if Includes(action, "Temperature") || Includes(action, "sensor") then SensorReading
    else if Includes(action, "Manual") then ManualAction
    else if Includes(action, "Scheduled") then ScheduledAction
    else Other
  }

  datatype Icon = Droplets | Thermometer | User | CheckCircle | Activity

  /** `getActivityIcon`, the glyph only. */
  function ActivityIcon(action: string): Icon {
    if Includes(action, "Watered") || Includes(action, "water") then Droplets
    else if Includes(action, "Temperature") || Includes(action, "sensor") then Thermometer
    else if Includes(action, "Manual") then User
    else if Includes(action, "Scheduled") then CheckCircle
    else Activity
  }

  /** `getActivityColor`. */
  function ActivityColor(action: string): string {
    if Includes(action, "Watered") || Includes(action, "water") then "from-green-100 to-green-200 border-green-300"
    else if Includes(action, "Temperature") || Includes(action, "sensor") then "from-green-200 to-green-300 border-green-400"
    else if Includes(action, "Manual") then "from-green-50 to-green-100 border-green-200"
    else if Includes(action, "Scheduled") then "from-green-100 to-green-200 border-green-300"
    else "from-green-50 to-green-100 border-green-200"
  }

  function IconOf(c: Category): Icon {
    match c
    case Watering => Droplets
    case SensorReading => Thermometer
    case ManualAction => User
    case ScheduledAction => CheckCircle
    case Other => Activity
  }

  /** The two keyword chains classify alike: the icon is the category's icon,
      so the icon tells the category; the colour repeats between watering and
      scheduled activities and between manual and unclassified ones. */
  lemma IconAndColorFollowCategory(action: string, other: string)
    ensures ActivityIcon(action) == IconOf(Classify(action))
    ensures ActivityIcon(action) == ActivityIcon(other) <==> Classify(action) == Classify(other)
    ensures ActivityColor(action) == (match Classify(action)
      case Watering | ScheduledAction => "from-green-100 to-green-200 border-green-300"
      case SensorReading => "from-green-200 to-green-300 border-green-400"
      case ManualAction | Other => "from-green-50 to-green-100 border-green-200")
  {
  }

  /** The feed's first activity mentions both "Watered" and "Scheduled"; the
      watering test comes first, so it is shown as a watering. */
  lemma FirstActivityIsWatering()
    ensures Includes("Watered Tomato 2 (Scheduled)", "Scheduled")
    ensures Classify("Watered Tomato 2 (Scheduled)") == Watering
  {
    var s := "Watered Tomato 2 (Scheduled)";
    assert s == "Watered Tomato 2 (" + "Scheduled" + ")";
    assert OccursAt(s, "Scheduled", 18);
    IncludesIff(s, "Scheduled");
    assert s == "Watered" + " Tomato 2 (Scheduled)";
    IncludesPrefix("Watered", " Tomato 2 (Scheduled)");
  }

  /** The second activity mentions "Manual" but also "water", so it too is shown
      as a watering. */
  lemma ManualWaterIsWatering()
    ensures Includes("Manual water for Lettuce", "Manual")
    ensures Classify("Manual water for Lettuce") == Watering
  {
    var s := "Manual water for Lettuce";
    assert s[..6] == "Manual";
    assert s == s[..6] + s[6..];
    assert s == "Manual" + " water for Lettuce";
    IncludesPrefix("Manual", " water for Lettuce");
    assert OccursAt(s, "water", 7);
    IncludesIff(s, "water");
  }

  // ---------------------------------------------------------------------------
  // Time ago

  /** An hour and a minute in milliseconds. */
  const MS_PER_HOUR: int := 3600000
  const MS_PER_MINUTE: int := 60000

  /** JavaScript's `%`: the remainder takes the sign of the dividend. */
  function TruncRem(a: int, b: int): (r: int)
    requires b > 0
    ensures -b < r < b
    ensures a >= 0 ==> r == a % b
    ensures a >= 0 ==> r >= 0
    ensures a < 0 ==> r <= 0
  {
    if a >= 0 then a % b else -((-a) % b)
  }

  /** Truncating remainder is odd in the dividend, unlike Euclidean `%`. */
  lemma TruncRemOdd(a: int, b: int)
    requires b > 0
    ensures TruncRem(-a, b) == -TruncRem(a, b)
  {
  }

  /** The label for a difference in milliseconds: whole hours (floored) when
      positive, else the minutes left over from the hour, else "Just now". */
  function AgoLabel(diffMs: int): string {
    var diffHours := diffMs / MS_PER_HOUR;
    var diffMinutes := TruncRem(diffMs, MS_PER_HOUR) / MS_PER_MINUTE;
    if diffHours > 0 then NatToString(diffHours) + "h ago"
    else if diffMinutes > 0 then NatToString(diffMinutes) + "m ago"
    else "Just now"
  }

  lemma DivOfNonPositive(a: int, b: int)
    requires a <= 0 < b
    ensures a / b <= 0
  {
  }

  lemma DivOfSmall(a: int, b: int)
    requires 0 <= a < b
    ensures a / b == 0
  {
  }

  /** The label by the size of the difference: under a minute, and every
      activity later than now, reads "Just now"; under an hour reads whole
      minutes; otherwise whole hours. */
  lemma AgoLabelBands(diffMs: int)
    ensures diffMs < MS_PER_MINUTE ==> AgoLabel(diffMs) == "Just now"
    ensures MS_PER_MINUTE <= diffMs < MS_PER_HOUR ==>
      AgoLabel(diffMs) == NatToString(diffMs / MS_PER_MINUTE) + "m ago"
    ensures MS_PER_HOUR <= diffMs ==>
      AgoLabel(diffMs) == NatToString(diffMs / MS_PER_HOUR) + "h ago"
  {
    var rem := TruncRem(diffMs, MS_PER_HOUR);
    if diffMs < 0 {
      DivOfNonPositive(diffMs, MS_PER_HOUR);
      DivOfNonPositive(rem, MS_PER_MINUTE);
    } else if diffMs < MS_PER_HOUR {
      DivOfSmall(diffMs, MS_PER_HOUR);
      assert rem == diffMs;
      if diffMs < MS_PER_MINUTE {
        DivOfSmall(diffMs, MS_PER_MINUTE);
      }
    }
  }

  /** The label for a clock reading, with the current local time passed in as
      milliseconds since midnight: the reading is taken as a time of the same
      day, and a reading whose hour or minutes did not parse reads "Just now". */
  function AgoOfClock(clock: ClockText, nowMs: int): string {
    var hour24 := To24Hour(clock.hours, clock.period);
    if hour24.None? || clock.minutes.None? then "Just now"
    else AgoLabel(nowMs - (hour24.value * MS_PER_HOUR + clock.minutes.value * MS_PER_MINUTE))
  }

  /** `getTimeAgo`. */
  function TimeAgo(timeStr: string, nowMs: int): string {
    AgoOfClock(ReadClock(timeStr), nowMs)
  }

  /** On a clock string "hh:mm AM" or "hh:mm PM" the label depends only on the
      distance from that time of day to now. */
  lemma TimeAgoOfClock(h: nat, m: nat, period: string, nowMs: int)
    requires 1 <= h <= 12 && m < 60 && (period == "AM" || period == "PM")
    ensures TimeAgo(FormatClock(h, m, period), nowMs)
      == AgoLabel(nowMs - (To24Hour(Some(h), Some(period)).value * MS_PER_HOUR + m * MS_PER_MINUTE))
  {
    ReadFormattedClock(h, m, period);
    AgoOfClockReading(h, m, period, nowMs);
  }

  lemma AgoOfClockReading(h: nat, m: nat, period: string, nowMs: int)
    ensures AgoOfClock(ClockText(Some(h), Some(m), Some(period)), nowMs)
      == AgoLabel(nowMs - (To24Hour(Some(h), Some(period)).value * MS_PER_HOUR + m * MS_PER_MINUTE))
  {
  }

  /** A text without a parsable hour or minutes reads "Just now", whatever the
      time. */
  lemma TimeAgoUnreadable(timeStr: string, nowMs: int)
    requires ReadClock(timeStr).hours.None? || ReadClock(timeStr).minutes.None?
    ensures TimeAgo(timeStr, nowMs) == "Just now"
  {
  }
}
