/**
 * `DateUtils.timeAgo`: how long ago a server timestamp was, in the coarsest
 * unit that fits ("just now", minutes, hours, days), or the calendar date
 * once it is a week or more old.
 *
 * Parsing the ISO-8601 text and reading the clock are inputs: the caller
 * passes what the parser produced and the current time in milliseconds.
 * The day-and-month text of the last bucket comes from the platform's date
 * formatter and is passed in as well.
 */
module DateUtils {

  /** What parsing the optional timestamp text produced. */
  datatype ParsedDate =
    | NullText                     // the timestamp was null
    | Unparseable                  // parsing failed or returned null
    | ParsedAt(epochMillis: int)   // the instant the text denotes

  /** The bucket `timeAgo` picks, with the number it shows. */
  datatype TimeAgo =
    | Blank
    | JustNow
    | MinutesAgo(minutes: int)
    | HoursAgo(hours: int)
    | DaysAgo(days: int)
    | OnDate(epochMillis: int)

  const MillisPerSecond := 1000
  const MillisPerMinute := 60 * 1000
  const MillisPerHour := 60 * 60 * 1000
  const MillisPerDay := 24 * 60 * 60 * 1000
  const MillisPerWeek := 7 * 24 * 60 * 60 * 1000

  /** Kotlin's `/` on `Long`: the quotient truncated toward zero. */
  function TruncDiv(a: int, b: int): (q: int)
    requires b > 0
    ensures a >= 0 ==> q >= 0 && 0 <= a - q * b < b
    ensures a < 0 ==> q <= 0 && -b < a - q * b <= 0
  {
    if a >= 0 then a / b else -((-a) / b)
  }

  /**
   * `timeAgo`: null or unparseable text gives the blank string; otherwise the
   * difference to `now` is cut into seconds, minutes, hours and days by
   * chained truncating divisions and the first bucket that fits is shown.
   */
  function TimeAgoOf(date: ParsedDate, now: int): (t: TimeAgo)
    ensures (date.NullText? || date.Unparseable?) <==> t.Blank?
    ensures t.MinutesAgo? ==> 1 <= t.minutes <= 59
    ensures t.HoursAgo? ==> 1 <= t.hours <= 23
    ensures t.DaysAgo? ==> 1 <= t.days <= 6
    ensures t.OnDate? ==> date.ParsedAt? && t.epochMillis == date.epochMillis
  {
    match date
    case NullText => Blank
    case Unparseable => Blank
    case ParsedAt(at) =>
      var diff := now - at;
      var seconds := TruncDiv(diff, MillisPerSecond);
      var minutes := TruncDiv(seconds, 60);
      var hours := TruncDiv(minutes, 60);
      var days := TruncDiv(hours, 24);
      if seconds < 60 then JustNow
      else if minutes < 60 then MinutesAgo(minutes)
      else if hours < 24 then HoursAgo(hours)
      else if days < 7 then DaysAgo(days)
      else OnDate(at)
  }

  /** The position of a bucket in the order `timeAgo` tests them. */
  function Rank(t: TimeAgo): nat {
    match t
    case Blank => 0
    case JustNow => 1
    case MinutesAgo(_) => 2
    case HoursAgo(_) => 3
    case DaysAgo(_) => 4
    case OnDate(_) => 5
  }

  /** The shown number of each bucket is the difference divided by that bucket's unit. */
  lemma {:induction false} ShownValues(at: int, now: int)
    requires now - at >= 0
    ensures var t := TimeAgoOf(ParsedAt(at), now);
      && (t.MinutesAgo? ==> t.minutes == (now - at) / MillisPerMinute)
      && (t.HoursAgo? ==> t.hours == (now - at) / MillisPerHour)
      && (t.DaysAgo? ==> t.days == (now - at) / MillisPerDay)
  {
  }

  /**
   * Each bucket is an interval of the millisecond difference: under a minute
   * (including every future instant) is "just now", then minutes, hours and
   * days, and a week or more shows the date.
   */
  lemma {:induction false} BucketIntervals(at: int, now: int)
    ensures var diff, t := now - at, TimeAgoOf(ParsedAt(at), now);
      && (t.JustNow? <==> diff < MillisPerMinute)
      && (t.MinutesAgo? <==> MillisPerMinute <= diff < MillisPerHour)
      && (t.HoursAgo? <==> MillisPerHour <= diff < MillisPerDay)
      && (t.DaysAgo? <==> MillisPerDay <= diff < MillisPerWeek)
      && (t.OnDate? <==> MillisPerWeek <= diff)
  {
  }

  /** A larger difference never selects an earlier bucket. */
  lemma BucketMonotone(at1: int, at2: int, now: int)
    requires at2 <= at1
    ensures Rank(TimeAgoOf(ParsedAt(at1), now)) <= Rank(TimeAgoOf(ParsedAt(at2), now))
  {
    BucketIntervals(at1, now);
    BucketIntervals(at2, now);
  }

  /** Within a bucket, a larger difference never shows a smaller number. */
  lemma ShownValueMonotone(at1: int, at2: int, now: int)
    requires at2 <= at1
    ensures var t1, t2 := TimeAgoOf(ParsedAt(at1), now), TimeAgoOf(ParsedAt(at2), now);
      && (t1.MinutesAgo? && t2.MinutesAgo? ==> t1.minutes <= t2.minutes)
      && (t1.HoursAgo? && t2.HoursAgo? ==> t1.hours <= t2.hours)
      && (t1.DaysAgo? && t2.DaysAgo? ==> t1.days <= t2.days)
  {
    BucketIntervals(at1, now);
    if now - at1 >= 0 {
      ShownValues(at1, now);
      ShownValues(at2, now);
    }
  }

  /** Is every character of `s` a decimal digit? */
  predicate AllDigits(s: string) {
    forall i :: 0 <= i < |s| ==> '0' <= s[i] <= '9'
  }

  /** The number a string of decimal digits denotes, most significant digit first. */
  function DigitsValue(s: string): nat
    requires AllDigits(s)
    decreases |s|
  {
    if s == [] then 0
    else DigitsValue(s[..|s| - 1]) * 10 + (s[|s| - 1] - '0') as int
  }

  /**
   * Decimal digits of a non-negative number, as Kotlin's string template
   * prints it: the digits denote the number, with no leading zero.
   */
  function Decimal(n: nat): (s: string)
    ensures |s| >= 1 && AllDigits(s)
    ensures DigitsValue(s) == n
    ensures |s| > 1 ==> s[0] != '0'
  {
    var digit := ['0' + (n % 10) as char];
    if n < 10 then
      digit
    else
      var prefix := Decimal(n / 10);
      assert (prefix + digit)[..|prefix|] == prefix;
      prefix + digit
  }

  /** An `Int` or `Long` in a string template: a minus sign before the digits of a negative number. */
  function Signed(x: int): (s: string)
    ensures x >= 0 ==> s == Decimal(x)
    ensures x < 0 ==> s == "-" + Decimal(-x)
  {
    if x >= 0 then Decimal(x) else "-" + Decimal(-x)
  }

  /**
   * The displayed text. `dayMonth` is the platform's "dd MMM" rendering of
   * the parsed instant in Turkish, used only by the last bucket.
   */
  function Render(t: TimeAgo, dayMonth: string): (s: string)
    ensures t.Blank? ==> s == ""
    ensures t.JustNow? ==> s == "Az önce"
    ensures t.MinutesAgo? ==> s == Signed(t.minutes) + " dk önce"
    ensures t.HoursAgo? ==> s == Signed(t.hours) + " sa önce"
    ensures t.DaysAgo? ==> s == Signed(t.days) + " gün önce"
    ensures t.OnDate? ==> s == dayMonth
    ensures !t.Blank? && !t.OnDate? ==> s != []
  {
    match t
    case Blank => ""
    case JustNow => "Az önce"
    case MinutesAgo(m) => Signed(m) + " dk önce"
    case HoursAgo(h) => Signed(h) + " sa önce"
    case DaysAgo(d) => Signed(d) + " gün önce"
    case OnDate(_) => dayMonth
  }

  /**
   * A past instant in the minutes bucket reads as the whole minutes elapsed,
   * followed by " dk önce"; likewise for hours and days.
   */
  lemma ShownText(at: int, now: int, dayMonth: string)
    requires now - at >= 0
    ensures var t, s := TimeAgoOf(ParsedAt(at), now), Render(TimeAgoOf(ParsedAt(at), now), dayMonth);
      && (t.MinutesAgo? ==> s == Decimal((now - at) / MillisPerMinute) + " dk önce")
      && (t.HoursAgo? ==> s == Decimal((now - at) / MillisPerHour) + " sa önce")
      && (t.DaysAgo? ==> s == Decimal((now - at) / MillisPerDay) + " gün önce")
  {
    ShownValues(at, now);
  }

  /** The text is empty exactly when there was no timestamp to show (or the date text is empty). */
  lemma {:induction false} BlankOnlyWithoutTimestamp(date: ParsedDate, now: int, dayMonth: string)
    requires dayMonth != ""
    ensures Render(TimeAgoOf(date, now), dayMonth) == "" <==> !date.ParsedAt?
  {
  }
}
