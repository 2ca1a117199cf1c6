/**
 * The relative-time labels shown beside schedule posts and chat messages
 * ("just now", "5m ago", "2h ago", "3d ago", or a calendar date), and the
 * arithmetic both formatters rely on. Times are milliseconds since the epoch;
 * the clock reading is always a parameter.
 */
module RelativeTime {
  import opened JsString

  const SecondMs := 1000
  const MinuteMs := 60 * SecondMs
  const HourMs := 60 * MinuteMs
  const DayMs := 24 * HourMs

  /**
   * A relative-time label. `OnDate` carries the text of
   * `date.toLocaleDateString()`, which depends on the host's locale and is
   * treated as an uninterpreted string.
   */
  datatype Label =
    | JustNow
    | MinutesAgo(minutes: nat)
    | HoursAgo(hours: nat)
    | DaysAgo(days: nat)
    | OnDate(date: string)

  /**
   * `t` is a decimal numeral for `n` followed by `suffix`: the count can be
   * read back from the displayed text.
   */
  predicate ShowsCount(t: string, n: nat, suffix: string)
  {
    && |suffix| < |t|
    && t[|t| - |suffix|..] == suffix
    && (forall i :: 0 <= i < |t| - |suffix| ==> '0' <= t[i] <= '9')
    && DecimalValue(t[..|t| - |suffix|]) == n
  }

  /** The string the label `l` is displayed as. */
  function Text(l: Label): string
  {
    match l
    case JustNow => "just now"
    case MinutesAgo(m) => DecimalString(m) + "m ago"
    case HoursAgo(h) => DecimalString(h) + "h ago"
    case DaysAgo(d) => DecimalString(d) + "d ago"
    case OnDate(date) => date
  }

  /** A numeral followed by a suffix shows the numeral's value. */
  lemma NumeralThenSuffix(n: nat, suffix: string)
    requires suffix != []
    ensures ShowsCount(DecimalString(n) + suffix, n, suffix)
  {
    var t := DecimalString(n) + suffix;
    assert t[..|t| - |suffix|] == DecimalString(n);
    assert t[|t| - |suffix|..] == suffix;
    DecimalRoundTrip(n);
  }

  /**
   * A count label shows its count in decimal before "m ago", "h ago" or
   * "d ago", so the count can be read back from the text; a date label shows
   * the date text as given.
   */
  lemma TextShowsCount(l: Label)
    ensures l.MinutesAgo? ==> ShowsCount(Text(l), l.minutes, "m ago")
    ensures l.HoursAgo? ==> ShowsCount(Text(l), l.hours, "h ago")
    ensures l.DaysAgo? ==> ShowsCount(Text(l), l.days, "d ago")
    ensures l.OnDate? ==> Text(l) == l.date
  {
    match l
    case MinutesAgo(m) => NumeralThenSuffix(m, "m ago");
    case HoursAgo(h) => NumeralThenSuffix(h, "h ago");
    case DaysAgo(d) => NumeralThenSuffix(d, "d ago");
    case _ =>
  }

  /**
   * `Math.floor(Math.floor(x / 1000) / 60)` is `Math.floor(x / 60000)`, and so on
   * up the units. Dafny's `/` with a positive divisor rounds toward negative
   * infinity, as `Math.floor` does, also for a negative difference (a time in
   * the future).
   */
  lemma FloorOfFloor(x: int)
    ensures x / SecondMs / 60 == x / MinuteMs
    ensures x / MinuteMs / 60 == x / HourMs
    ensures x / HourMs / 24 == x / DayMs
  {
  }

  /** The labels render as `getTimeAgo`'s doc comment lists them: "just now", "5m ago", "2h ago". */
  lemma TextExamples()
    ensures Text(JustNow) == "just now"
    ensures Text(MinutesAgo(5)) == "5m ago"
    ensures Text(HoursAgo(2)) == "2h ago"
    ensures Text(HoursAgo(1)) == "1h ago"
    ensures Text(DaysAgo(12)) == "12d ago"
  {
  }
}
