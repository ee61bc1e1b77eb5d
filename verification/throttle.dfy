/** The concurrency limit ("throttle") shared by both crawlers. */
module Throttle {

  /** A non-positive throttle is replaced by 1, with a warning; any other
      value is kept. */
  function CoerceThrottle(throttle: int): (t: int)
    ensures t >= 1
    ensures throttle >= 1 ==> t == throttle
    ensures throttle <= 0 ==> t == 1
  {
    if throttle <= 0 then 1 else throttle
  }

  /** The coerced throttle is the least valid throttle not below the one
      given, so coercing twice changes nothing more. */
  lemma CoerceThrottleLeast(throttle: int, other: int)
    requires other >= 1 && other >= throttle
    ensures CoerceThrottle(throttle) <= other
    ensures CoerceThrottle(CoerceThrottle(throttle)) == CoerceThrottle(throttle)
  {
  }
}
