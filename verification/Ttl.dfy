/** Message lifetimes: the clamp on a client's ttl, and when a stored message is live. */
module Ttl {
  import opened Tables

  const DEFAULT_MESSAGE_TTL: Nanos := 86_400 * SECOND
  const MAX_MESSAGE_TTL: Nanos := 7 * 86_400 * SECOND

  const TWO_63: int := 0x8000_0000_0000_0000
  const TWO_64: int := 0x1_0000_0000_0000_0000

  /** A product of machine integers, as two's complement arithmetic on 64 bits leaves it. */
  function Wrap64(x: int): int {
    (x + TWO_63) % TWO_64 - TWO_63
  }

  predicate IsInt64(x: int) {
    -TWO_63 <= x < TWO_63
  }

  /** Turns a client-supplied number of seconds into a duration. */
  function ClampMessageTtl(seconds: int): Nanos {
    if seconds <= 0 then DEFAULT_MESSAGE_TTL
    else
      var d := Wrap64(seconds * SECOND);
      if d > MAX_MESSAGE_TTL then MAX_MESSAGE_TTL else d
  }

  /** What the clamp is for: the seconds asked, but no more than seven days; a day if none are asked. */
  function IdealTtl(seconds: int): Nanos {
    var day := 24 * 60 * 60;
    (if seconds <= 0 then day else if seconds > 7 * day then 7 * day else seconds) * SECOND
  }

  /** The largest count of seconds whose nanoseconds fit in 64 bits. */
  const LAST_EXACT: int := 9_223_372_036

  /** No ttl ever exceeds seven days, and up to LAST_EXACT the clamp is exactly the ideal one. */
  lemma ClampBounds(seconds: int)
    requires IsInt64(seconds)
    ensures ClampMessageTtl(seconds) <= 7 * 24 * 60 * 60 * SECOND
    ensures seconds <= LAST_EXACT ==> ClampMessageTtl(seconds) == IdealTtl(seconds)
    ensures seconds <= LAST_EXACT ==> 0 < ClampMessageTtl(seconds)
  {
    if 0 < seconds <= LAST_EXACT {
      assert seconds * SECOND < TWO_63;
    }
  }

  /** Beyond it the product wraps, and the clamp is right exactly when the wrapped product is
      still over the maximum. */
  lemma ClampExactness(seconds: int)
    requires IsInt64(seconds)
    ensures ClampMessageTtl(seconds) == IdealTtl(seconds)
       <==> seconds <= LAST_EXACT || Wrap64(seconds * SECOND) >= MAX_MESSAGE_TTL
  {
    if seconds > LAST_EXACT {
      assert seconds * SECOND > MAX_MESSAGE_TTL;
    } else {
      ClampBounds(seconds);
    }
  }

  /** The very next value already yields a message that is dead on arrival. */
  lemma ClampOverflows()
    ensures ClampMessageTtl(LAST_EXACT + 1) < 0
    ensures IdealTtl(LAST_EXACT + 1) == MAX_MESSAGE_TTL
  {
  }

  /** A row with this expiry is live at a reading of the clock. */
  predicate LiveAt(expires: Stamp, reading: Nanos) {
    expires > Seconds(reading)
  }

  /** A message accepted at `sent` with ttl T is live until a second short of sent + T, and dead
      from sent + T on; in the second between, the cut to whole seconds decides. */
  lemma Lifetime(sent: Nanos, ttl: Nanos, reading: Nanos)
    ensures reading < sent + ttl - SECOND ==> LiveAt(Seconds(sent + ttl), reading)
    ensures reading >= sent + ttl ==> !LiveAt(Seconds(sent + ttl), reading)
    ensures LiveAt(Seconds(sent + ttl), reading) <==> reading < Seconds(sent + ttl) * SECOND
  {
  }
}
