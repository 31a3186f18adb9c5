/**
 * The popup's relative-age text (`timeAgo`): the time between the clock
 * (milliseconds since the epoch) and an item's submission time (seconds since
 * the epoch), floored to whole seconds and then written in the coarsest of
 * seconds, minutes, hours and days whose amount stays under the next unit.
 */
module TimeAgo {
  import opened Wrappers
  import opened NumberText

  datatype Unit = Seconds | Minutes | Hours | Days

  /** An amount in one unit: what the text `45s`, `1m`, `2h` or `3d` says. */
  datatype Age = Age(amount: int, unit: Unit)

  function Suffix(u: Unit): string {
    match u
    case Seconds => "s"
    case Minutes => "m"
    case Hours => "h"
    case Days => "d"
  }

  function UnitOf(c: char): Option<Unit> {
    if c == 's' then Some(Seconds)
    else if c == 'm' then Some(Minutes)
    else if c == 'h' then Some(Hours)
    else if c == 'd' then Some(Days)
    else None
  }

  /**
   * `Math.floor((nowMs - unixSecs * 1000) / 1000)`. Dafny's `/` by a positive
   * divisor rounds toward negative infinity, as `Math.floor` does, so a time in
   * the future gives a negative count.
   */
  function ElapsedSeconds(nowMs: int, unixSecs: int): (s: int)
    ensures s * 1000 <= nowMs - unixSecs * 1000 < s * 1000 + 1000
  {
    (nowMs - unixSecs * 1000) / 1000
  }

  /** The cascade of the source: each coarser amount is the floor of the finer one. */
  function AgeOf(nowMs: int, unixSecs: int): Age {
    var s := ElapsedSeconds(nowMs, unixSecs);
    if s < 60 then Age(s, Seconds)
    else
      var m := s / 60;
      if m < 60 then Age(m, Minutes)
      else
        var h := m / 60;
        if h < 24 then Age(h, Hours)
        else Age(h / 24, Days)
  }

  function Format(a: Age): string {
    IntText(a.amount) + Suffix(a.unit)
  }

  /** The text `timeAgo(unixSecs)` returns when the clock reads `nowMs`. */
  function TimeAgo(nowMs: int, unixSecs: int): (r: string)
    ensures ParseAge(r) == Some(AgeOf(nowMs, unixSecs))
  {
    FormatReadsBack(AgeOf(nowMs, unixSecs));
    Format(AgeOf(nowMs, unixSecs))
  }

  /** Reads an age text back: a signed decimal amount followed by one unit letter. */
  function ParseAge(t: string): Option<Age> {
    if |t| < 2 then None
    else
      match (ParseInt(t[..|t| - 1]), UnitOf(t[|t| - 1]))
      case (Some(n), Some(u)) => Some(Age(n, u))
      case _ => None
  }

  /** The text names exactly one amount and one unit: nothing is lost in writing it. */
  lemma FormatReadsBack(a: Age)
    ensures ParseAge(Format(a)) == Some(a)
  {
    var t := Format(a);
    assert t[..|t| - 1] == IntText(a.amount);
    IntTextRoundTrip(a.amount);
  }

  /**
   * The unit is chosen by thresholds on the whole seconds `s` alone: under a
   * minute, under an hour, under a day, or a day or more; each amount is `s`
   * floored to that unit.
   */
  lemma AgeOfByThresholds(nowMs: int, unixSecs: int)
    ensures var s := ElapsedSeconds(nowMs, unixSecs);
      && (s < 60 ==> AgeOf(nowMs, unixSecs) == Age(s, Seconds))
      && (60 <= s < 3600 ==> AgeOf(nowMs, unixSecs) == Age(s / 60, Minutes))
      && (3600 <= s < 86400 ==> AgeOf(nowMs, unixSecs) == Age(s / 3600, Hours))
      && (86400 <= s ==> AgeOf(nowMs, unixSecs) == Age(s / 86400, Days))
  {
  }

  /** For a past submission the amount stays within its unit's range. */
  lemma AgeBounds(nowMs: int, unixSecs: int)
    requires ElapsedSeconds(nowMs, unixSecs) >= 0
    ensures var a := AgeOf(nowMs, unixSecs);
      && (a.unit == Seconds ==> 0 <= a.amount <= 59)
      && (a.unit == Minutes ==> 1 <= a.amount <= 59)
      && (a.unit == Hours ==> 1 <= a.amount <= 23)
      && (a.unit == Days ==> a.amount >= 1)
  {
  }

  /** A submission in the future reads as a negative number of seconds. */
  lemma FutureIsNegativeSeconds(nowMs: int, unixSecs: int)
    requires nowMs < unixSecs * 1000
    ensures AgeOf(nowMs, unixSecs).unit == Seconds && AgeOf(nowMs, unixSecs).amount < 0
  {
  }

  /** The boundary values of each unit, counted in seconds after the epoch. */
  lemma SecondsBoundaries()
    ensures TimeAgo(0, 0) == "0s"
    ensures TimeAgo(59 * 1000, 0) == "59s"
    ensures TimeAgo(45 * 1000, 0) == "45s"
  {
    assert AgeOf(0, 0) == Age(0, Seconds);
    assert AgeOf(59 * 1000, 0) == Age(59, Seconds);
    assert AgeOf(45 * 1000, 0) == Age(45, Seconds);
  }

  /** One millisecond short of a submission two seconds after the epoch. */
  lemma FutureBoundary()
    ensures TimeAgo(1999, 2) == "-1s"
  {
  }

  lemma MinutesBoundaries()
    ensures TimeAgo(60 * 1000, 0) == "1m"
    ensures TimeAgo(90 * 1000, 0) == "1m"
    ensures TimeAgo(3599 * 1000, 0) == "59m"
  {
  }

  lemma HoursBoundaries()
    ensures TimeAgo(3600 * 1000, 0) == "1h"
    ensures TimeAgo(7200 * 1000, 0) == "2h"
    ensures TimeAgo(86399 * 1000, 0) == "23h"
  {
  }

  lemma DaysBoundaries()
    ensures TimeAgo(86400 * 1000, 0) == "1d"
    ensures TimeAgo(172800 * 1000, 0) == "2d"
  {
  }
}
