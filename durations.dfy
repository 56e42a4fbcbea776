/**
 * The debounce period. Go's time.Duration is a signed 64-bit count of
 * nanoseconds; the duration grammar of time.ParseDuration is not part of
 * this model, so the parser is an abstract partial function.
 */
module Durations {
  import opened Wrappers

  newtype Duration = x: int | -0x8000_0000_0000_0000 <= x < 0x8000_0000_0000_0000

  const Second: Duration := 1_000_000_000
  const Hour: Duration := 3600 * Second

  /** A duration parser: None when the text is not a valid duration. */
  type Parser = string -> Option<Duration>

  /** The period a newly started timer runs for: the configured value when
      it parses, one hour otherwise. So the period is one hour exactly when
      the value fails to parse or parses to one hour. */
  function EffectiveDuration(configured: string, parse: Parser): (d: Duration)
    ensures parse(configured).Some? ==> d == parse(configured).value
    ensures parse(configured).None? ==> d == Hour
    ensures d == Hour <==> parse(configured).None? || parse(configured) == Some(Hour)
  {
    parse(configured).GetOr(Hour)
  }
}
