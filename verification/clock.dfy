/** Time of a run, the check-time string stored between runs, and the two per-run decisions made from
    the time (notify.py, lines 28-31 and 51-56). The clock is read by the caller; a run receives the
    time already cut down to the minute, in the Moscow time zone. */
module Clock {
  import opened Wrappers

  /** A wall-clock time in the fixed time zone, truncated to the minute. The year is not kept: the
      stored check-time string does not hold it either. */
  datatype Moment = Moment(month: int, day: int, hour: int, minute: int)

  predicate ValidMoment(m: Moment)
  {
    1 <= m.month <= 12 && 1 <= m.day <= 31 && 0 <= m.hour < 24 && 0 <= m.minute < 60
  }

  const MonthNames: seq<string> := ["Jan", "Feb", "Mar", "Apr", "May", "Jun", "Jul", "Aug", "Sep", "Oct", "Nov", "Dec"]

  function DigitChar(d: int): char
    requires 0 <= d < 10
  {
    "0123456789"[d]
  }

  function DigitValue(c: char): (d: Option<int>)
    ensures d.Some? ==> 0 <= d.value < 10
  {
    if '0' <= c <= '9' then Some(c as int - '0' as int) else None
  }

  /** A number below 100 written with two digits, a leading zero if need be (strftime's %H, %M and %d). */
  function TwoDigits(n: int): (s: string)
    requires 0 <= n < 100
    ensures |s| == 2
  {
    [DigitChar(n / 10), DigitChar(n % 10)]
  }

  function ParseTwoDigits(s: string): (n: Option<int>)
    requires |s| == 2
    ensures n.Some? ==> 0 <= n.value < 100
  {
    match (DigitValue(s[0]), DigitValue(s[1]))
    case (Some(hi), Some(lo)) => Some(10 * hi + lo)
    case _ => None
  }

  lemma TwoDigitsRoundTrip(n: int)
    requires 0 <= n < 100
    ensures ParseTwoDigits(TwoDigits(n)) == Some(n)
  {
    var s := TwoDigits(n);
    assert DigitValue(s[0]) == Some(n / 10);
    assert DigitValue(s[1]) == Some(n % 10);
  }

  /** The month number (1 to 12) whose English abbreviation is name, searched from month `from` on. */
  function MonthOfName(name: string, from: nat): (m: Option<int>)
    requires 1 <= from <= 13
    ensures m.Some? ==> from <= m.value <= 12 && MonthNames[m.value - 1] == name
    ensures m.None? ==> forall k :: from - 1 <= k < |MonthNames| ==> MonthNames[k] != name
    decreases 13 - from
  {
    if from == 13 then None
    else if MonthNames[from - 1] == name then Some(from)
    else MonthOfName(name, from + 1)
  }

  /** The check-time string of a run: `now.strftime('%H:%M on %b %d')` in the C locale, e.g. "09:05 on Mar 07". */
  function Timestamp(m: Moment): (s: string)
    requires ValidMoment(m)
    ensures |s| == 15
  {
    TwoDigits(m.hour) + ":" + TwoDigits(m.minute) + " on " + MonthNames[m.month - 1] + " " + TwoDigits(m.day)
  }

  /** The four fields of a check-time string, read without checking their ranges. */
  function TimestampFields(s: string): (r: Option<Moment>)
    requires |s| == 15
  {
    var hour := ParseTwoDigits(s[0..2]);
    var minute := ParseTwoDigits(s[3..5]);
    var month := MonthOfName(s[9..12], 1);
    var day := ParseTwoDigits(s[13..15]);
    if hour.Some? && minute.Some? && month.Some? && day.Some?
    then Some(Moment(month.value, day.value, hour.value, minute.value))
    else None
  }

  /** Reads a check-time string back into the moment it was written from. */
  function ParseTimestamp(s: string): (r: Option<Moment>)
    ensures r.Some? ==> ValidMoment(r.value)
  {
    if |s| != 15 || s[2] != ':' || s[5..9] != " on " || s[12] != ' ' then None
    else
      var fields := TimestampFields(s);
      if fields.Some? && ValidMoment(fields.value) then fields else None
  }

  lemma TimestampLayout(m: Moment)
    requires ValidMoment(m)
    ensures var s := Timestamp(m);
      && s[0..2] == TwoDigits(m.hour)
      && s[2] == ':'
      && s[3..5] == TwoDigits(m.minute)
      && s[5..9] == " on "
      && s[9..12] == MonthNames[m.month - 1]
      && s[12] == ' '
      && s[13..15] == TwoDigits(m.day)
  {
  }

  /** The stored check-time string determines the moment it was written from. */
  lemma TimestampRoundTrip(m: Moment)
    requires ValidMoment(m)
    ensures ParseTimestamp(Timestamp(m)) == Some(m)
  {
    var s := Timestamp(m);
    TimestampLayout(m);
    TwoDigitsRoundTrip(m.hour);
    TwoDigitsRoundTrip(m.minute);
    TwoDigitsRoundTrip(m.day);
    var mo := MonthOfName(s[9..12], 1);
    assert mo.Some? && mo.value == m.month;
    assert TimestampFields(s) == Some(m);
  }

  /** Two runs write the same check-time string exactly when they run in the same minute (of the year). */
  lemma TimestampInjective(a: Moment, b: Moment)
    requires ValidMoment(a) && ValidMoment(b)
    ensures Timestamp(a) == Timestamp(b) <==> a == b
  {
    TimestampRoundTrip(a);
    TimestampRoundTrip(b);
  }

  /** `todayAt(hr, min)`: the day of a clock reading at the given hour and minute, seconds and microseconds zero. */
  function TodayAt(clock: Moment, hour: int, minute: int): (r: Moment)
    ensures r.month == clock.month && r.day == clock.day
    ensures r.hour == hour && r.minute == minute
  {
    Moment(clock.month, clock.day, hour, minute)
  }

  /** `print_slots`: whether this run also lists every available date. `clock` is the second clock reading
      that `todayAt(9)` makes on its own. Within one day, the listing is printed exactly by the run of
      09:00; a run on another day than the second reading never prints it. */
  function PrintSlots(now: Moment, clock: Moment): (r: bool)
    ensures now.month == clock.month && now.day == clock.day ==> (r <==> now.hour == 9 && now.minute == 0)
    ensures now.month != clock.month || now.day != clock.day ==> !r
  {
    TodayAt(clock, 9, 0) == now
  }

  /** `same_check_time`: the run's check-time string equals the one stored by the previous run. */
  function SameCheckTime(now: Moment, storedTimestamp: string): (r: bool)
    requires ValidMoment(now)
    ensures r ==> ParseTimestamp(storedTimestamp) == Some(now)
  {
    TimestampRoundTrip(now);
    Timestamp(now) == storedTimestamp
  }

  /** The stored string is the previous run's check time: the status message is left alone exactly when
      this run falls in the same minute as that one. */
  lemma SameCheckTimeIffSameMinute(now: Moment, previous: Moment)
    requires ValidMoment(now) && ValidMoment(previous)
    ensures SameCheckTime(now, Timestamp(previous)) <==> now == previous
  {
    TimestampInjective(now, previous);
  }

  /** What the status message says before and after the check time. */
  const StatusPrefix := "⚡ Last checked at "
  const StatusSuffix := " (Moscow time)"

  /** Text of the status message, edited in place when the check time changed. */
  function StatusText(timestamp: string): (s: string)
    ensures |s| == |StatusPrefix| + |timestamp| + |StatusSuffix|
    ensures s[..|StatusPrefix|] == StatusPrefix
    ensures s[|StatusPrefix|..|s| - |StatusSuffix|] == timestamp
    ensures s[|s| - |StatusSuffix|..] == StatusSuffix
  {
    StatusPrefix + timestamp + StatusSuffix
  }
}
