/** The portal's two clock helpers, `timeAgo` and `withinRange`. Both read
    `Date.now()`; here the current time is the parameter `now`. Times are
    integer milliseconds since the epoch. */
module TimeHelpers {
  import opened Decimal

  const MsPerDay: int := 1000 * 60 * 60 * 24

  /** `Math.floor((now - ts) / 1000)`: whole seconds elapsed since `ts`,
      rounded down (so a time in the future gives a negative count). */
  function ElapsedSeconds(now: int, ts: int): (d: int)
    ensures d * 1000 <= now - ts < (d + 1) * 1000
  {
    (now - ts) / 1000
  }

  datatype Unit = Seconds | Minutes | Hours | Days

  function UnitSeconds(u: Unit): nat {
    match u
    case Seconds => 1
    case Minutes => 60
    case Hours => 3600
    case Days => 86400
  }

  function UnitSuffix(u: Unit): string {
    match u
    case Seconds => "s"
    case Minutes => "m"
    case Hours => "h"
    case Days => "d"
  }

  /** A relative time: `count` whole units ago. */
  datatype Ago = Ago(count: int, unit: Unit)

  /** The relative time `timeAgo(ts)` prints: the largest unit, up to days,
      that the elapsed seconds reach, and the elapsed time in that unit
      rounded down. */
  function TimeAgo(now: int, ts: int): (a: Ago)
    ensures var d := ElapsedSeconds(now, ts);
      && (a.unit == Seconds <==> d < 60)
      && (a.unit == Minutes <==> 60 <= d < 3600)
      && (a.unit == Hours <==> 3600 <= d < 86400)
      && (a.unit == Days <==> 86400 <= d)
      && a.count * UnitSeconds(a.unit) <= d < (a.count + 1) * UnitSeconds(a.unit)
    ensures a.unit == Minutes ==> 1 <= a.count < 60
    ensures a.unit == Hours ==> 1 <= a.count < 24
    ensures a.unit == Days ==> 1 <= a.count
  {
    var diff := ElapsedSeconds(now, ts);
    if diff < 60 then Ago(diff, Seconds)
    else if diff < 3600 then Ago(diff / 60, Minutes)
    else if diff < 86400 then Ago(diff / 3600, Hours)
    else Ago(diff / 86400, Days)
  }

  /** The text `timeAgo(ts)` returns, such as `5m ago`. */
  function TimeAgoText(now: int, ts: int): string {
    var a := TimeAgo(now, ts);
    IntToString(a.count) + UnitSuffix(a.unit) + " ago"
  }

  /** The text can be read back: it is the count as a template literal
      prints it (no leading zero), then the unit letter, then ` ago`. */
  lemma TimeAgoTextReadsBack(now: int, ts: int)
    ensures var t, a := TimeAgoText(now, ts), TimeAgo(now, ts);
      && |t| >= 6 && t[|t| - 4..] == " ago" && [t[|t| - 5]] == UnitSuffix(a.unit)
      && t[..|t| - 5] == IntToString(a.count)
      && ParseInt(t[..|t| - 5]) == a.count
  {
    var a := TimeAgo(now, ts);
    var n := IntToString(a.count);
    var t := TimeAgoText(now, ts);
    assert t == n + UnitSuffix(a.unit) + " ago";
    assert t[..|t| - 5] == n;
    IntRoundTrip(a.count);
  }

  /** `withinRange(createdAt, filter)`: whether `createdAt` lies within the
      recency window the filter names; any other filter, `All` among them,
      lets every time through. */
  predicate WithinRange(now: int, createdAt: int, filter: string) {
    var diff := now - createdAt;
    if filter == "Today" then diff <= MsPerDay
    else if filter == "This Week" then diff <= MsPerDay * 7
    else if filter == "This Month" then diff <= MsPerDay * 30
    else if filter == "This Year" then diff <= MsPerDay * 365
    else true
  }

  /** The windows nest: Today within This Week within This Month within This Year. */
  lemma WithinRangeNests(now: int, createdAt: int)
    ensures WithinRange(now, createdAt, "Today") ==> WithinRange(now, createdAt, "This Week")
    ensures WithinRange(now, createdAt, "This Week") ==> WithinRange(now, createdAt, "This Month")
    ensures WithinRange(now, createdAt, "This Month") ==> WithinRange(now, createdAt, "This Year")
  {
  }

  /** A filter other than the four windows keeps everything. */
  lemma WithinRangeOtherFilter(now: int, createdAt: int, filter: string)
    requires filter !in {"Today", "This Week", "This Month", "This Year"}
    ensures WithinRange(now, createdAt, filter)
  {
  }

  /** A window that keeps a campaign keeps every campaign created later. */
  lemma WithinRangeKeepsNewer(now: int, createdAt: int, later: int, filter: string)
    requires createdAt <= later
    requires WithinRange(now, createdAt, filter)
    ensures WithinRange(now, later, filter)
  {
  }
}
