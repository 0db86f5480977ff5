/** `is_recent`: is a feed timestamp within the last `windowMinutes` minutes?
    The date parser is a parameter; time is whole seconds since the epoch. */
module Recency {
  import opened Wrappers

  /** A parsed timestamp: wall-clock seconds and the UTC offset in seconds,
      absent for a naive timestamp. */
  datatype DateTime = DateTime(wallSeconds: int, utcOffset: Option<int>)

  /** A lenient date parser; `None` when it fails or raises. */
  type Parser = string -> Option<DateTime>

  /** Seconds since the epoch, UTC; a naive timestamp is taken as UTC. */
  function UtcSeconds(dt: DateTime): int
  {
    dt.wallSeconds - dt.utcOffset.GetOr(0)
  }

  /** `is_recent(dtStr, windowMinutes)` at clock reading `now`. */
  predicate IsRecent(parse: Parser, dtStr: string, windowMinutes: int, now: int)
  {
    if dtStr == "" then false
    else match parse(dtStr)
      case None => false
      case Some(dt) => now - UtcSeconds(dt) <= windowMinutes * 60
  }

  /** An empty or unparseable timestamp is never recent. */
  lemma UnparsedIsNotRecent(parse: Parser, dtStr: string, windowMinutes: int, now: int)
    requires dtStr == "" || parse(dtStr).None?
    ensures !IsRecent(parse, dtStr, windowMinutes, now)
  {
  }

  /** A timestamp without an offset is compared as a UTC time. */
  lemma NaiveIsUtc(parse: Parser, dtStr: string, wall: int, windowMinutes: int, now: int)
    requires dtStr != "" && parse(dtStr) == Some(DateTime(wall, None))
    ensures IsRecent(parse, dtStr, windowMinutes, now) <==> now - wall <= windowMinutes * 60
  {
  }

  /** The window is inclusive: exactly `windowMinutes` old is recent, one
      second more is not. */
  lemma WindowBoundary(parse: Parser, a: string, b: string, windowMinutes: int, now: int)
    requires a != "" && parse(a).Some? && UtcSeconds(parse(a).value) == now - windowMinutes * 60
    requires b != "" && parse(b).Some? && UtcSeconds(parse(b).value) == now - windowMinutes * 60 - 1
    ensures IsRecent(parse, a, windowMinutes, now)
    ensures !IsRecent(parse, b, windowMinutes, now)
  {
  }

  /** Widening the window, or looking earlier, keeps a recent item recent. */
  lemma RecentIsMonotone(parse: Parser, dtStr: string, w: int, w': int, now: int, now': int)
    requires w <= w' && now' <= now
    requires IsRecent(parse, dtStr, w, now)
    ensures IsRecent(parse, dtStr, w', now')
  {
  }
}
