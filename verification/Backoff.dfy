/** Exponential backoff and the conversion to a broker TTL. */
module Backoff {
  const MAX_RETRIES: int := 5
  const U32_LIMIT: int := 0x1_0000_0000
  const I32_MAX: int := 0x7fff_ffff
  const MINUTE: int := 60000

  function Pow2(n: nat): (r: nat)
    ensures r >= 1
  {
    if n == 0 then 1 else 2 * Pow2(n - 1)
  }

  /** `2u16.saturating_pow(n)`. */
  function SaturatingPow2(n: nat): nat {
    if n >= 16 then 65535 else Pow2(n)
  }

  function Abs(n: int): nat {
    if n < 0 then -n else n
  }

  /** The delay in milliseconds before retry number `retryCount`. */
  function Delay(retryCount: int): int {
    SaturatingPow2(Abs(retryCount)) * 60 * 1000
  }

  /** Two's complement reinterpretation of the low 32 bits. */
  function WrapI32(n: int): int {
    var low := n % U32_LIMIT;
    if low > I32_MAX then low - U32_LIMIT else low
  }

  /** What `publish_retry` hands the broker: a TTL on the retry queue, or the dispatch queue at once. */
  datatype Placement = RetryAfter(ttl: int) | DispatchNow

  function Place(delayMs: int): Placement {
    var minutes := WrapI32(delayMs / MINUTE);
    if minutes > 0 then RetryAfter(WrapI32(WrapI32(minutes * 60) * 1000)) else DispatchNow
  }

  lemma {:induction false} Pow2Monotone(m: nat, n: nat)
    requires m <= n
    ensures Pow2(m) <= Pow2(n)
    decreases n
  {
    if m < n {
      Pow2Monotone(m, n - 1);
    }
  }

  lemma Pow2Table()
    ensures Pow2(1) == 2 && Pow2(2) == 4 && Pow2(3) == 8 && Pow2(4) == 16 && Pow2(5) == 32
    ensures Pow2(15) == 32768
  {
    assert Pow2(5) == 32;
    assert Pow2(10) == 32 * Pow2(5);
    assert Pow2(15) == 32 * Pow2(10);
  }

  /** No retry count an i32 can hold overflows the u32 delay, at either multiplication. */
  lemma DelayFitsU32(retryCount: int)
    ensures 0 < SaturatingPow2(Abs(retryCount)) * 60 < U32_LIMIT
    ensures 0 < Delay(retryCount) < U32_LIMIT
  {
    var n := Abs(retryCount);
    if n < 16 {
      Pow2Monotone(n, 15);
      Pow2Table();
    }
  }

  /** The delay never falls with the count, and stays at 65535 minutes from the sixteenth retry on. */
  lemma DelayGrows(m: nat, n: nat)
    requires m <= n
    ensures Delay(m) <= Delay(n)
    ensures n >= 16 ==> Delay(n) == 65535 * 60 * 1000
    ensures m < n <= 15 ==> Delay(m) < Delay(n)
  {
    if n < 16 {
      Pow2Monotone(m, n);
      if m < n {
        Pow2Monotone(m, n - 1);
      }
    } else if m < 16 {
      Pow2Monotone(m, 15);
      Pow2Table();
    }
  }

  /** The retry message carries the requested delay exactly when that delay is a whole, nonzero
      number of minutes small enough for the i32 product. */
  lemma PlacementExact(delayMs: int)
    requires 0 <= delayMs < U32_LIMIT
    ensures Place(delayMs) == RetryAfter(delayMs)
       <==> delayMs % MINUTE == 0 && MINUTE <= delayMs <= I32_MAX
    ensures delayMs <= I32_MAX ==>
      Place(delayMs) == if delayMs < 60000 then DispatchNow else RetryAfter(delayMs - delayMs % 60000)
  {
    var minutes := delayMs / MINUTE;
    assert 0 <= minutes <= 71582;
    assert delayMs == minutes * MINUTE + delayMs % MINUTE;
    assert WrapI32(minutes) == minutes;
    assert WrapI32(minutes * 60) == minutes * 60;
    var product := minutes * 60 * 1000;
    if product <= I32_MAX {
      assert WrapI32(product) == product;
    } else {
      assert product < U32_LIMIT;
      assert WrapI32(product) < 0;
    }
  }

  /** Every retry the dispatcher schedules waits out exactly its backoff, which doubles from two to
      thirty-two minutes. */
  lemma ScheduledRetryIsExact(retryCount: int)
    requires 0 <= retryCount < MAX_RETRIES
    ensures Place(Delay(retryCount + 1)) == RetryAfter(Delay(retryCount + 1))
    ensures 120000 <= Delay(retryCount + 1) <= 1920000
    ensures retryCount > 0 ==> Delay(retryCount + 1) == 2 * Delay(retryCount)
    ensures retryCount == 0 ==> Delay(retryCount + 1) == 120000
    ensures retryCount == MAX_RETRIES - 1 ==> Delay(retryCount + 1) == 1920000
  {
    Pow2Table();
    var d := Delay(retryCount + 1);
    assert d == Pow2(retryCount + 1) * MINUTE;
    assert d % MINUTE == 0;
    PlacementExact(d);
  }
}
