/**
  Retry delays in milliseconds. Every delay is base * 2^(n-1) clamped to a ceiling; the code also
  clamps the exponent, and the outbox computes the delay once in SQL and once in JavaScript.
 */
module Backoff {

  const OUTBOX_RETRY_BASE_MS := 5000
  const OUTBOX_RETRY_MAX_MS := 60000

  // The bounds the configuration schema enforces on the delivery settings.
  datatype Settings = Settings(retryBaseMs: nat, retryMaxMs: nat) {
    predicate Valid() {
      50 <= retryBaseMs <= 60000 && 50 <= retryMaxMs <= 300000 && retryBaseMs <= retryMaxMs
    }
  }

  function Min(a: int, b: int): int {
    if a < b then a else b
  }

  function Max(a: int, b: int): int {
    if a < b then b else a
  }

  function Pow2(n: nat): nat {
    if n == 0 then 1 else 2 * Pow2(n - 1)
  }

  // JavaScript's 2 ** n, which accepts a negative exponent.
  function Power2(n: int): real
    decreases if n < 0 then -n else 0
  {
    if n < 0 then Power2(n + 1) / 2.0 else Pow2(n) as real
  }

  // The delay before delivery attempt number `attempt + 1`.
  function DeliveryDelay(s: Settings, attempt: int): int {
    Min(s.retryMaxMs, s.retryBaseMs * Pow2(Min(Max(attempt - 1, 0), 16)))
  }

  // The recovery statement of the outbox.
  function OutboxSqlDelay(attempts: int): int {
    Min(OUTBOX_RETRY_MAX_MS, OUTBOX_RETRY_BASE_MS * Pow2(Min(Max(attempts - 1, 0), 4)))
  }

  // The publisher's own failure path.
  function OutboxDelay(attempts: int): real {
    var d := OUTBOX_RETRY_BASE_MS as real * Power2(Min(attempts - 1, 4));
    if d < OUTBOX_RETRY_MAX_MS as real then d else OUTBOX_RETRY_MAX_MS as real
  }

  // The exponential delay without any cap on its exponent.
  function Exponential(base: nat, max: nat, attempt: nat): nat
    requires attempt >= 1
  {
    Min(max, base * Pow2(attempt - 1))
  }

  lemma {:induction false} Pow2Grows(low: nat, high: nat)
    requires low <= high
    ensures 1 <= Pow2(low) <= Pow2(high)
    decreases high
  {
    if low < high { Pow2Grows(low, high - 1); }
    else if low > 0 { Pow2Grows(low - 1, high - 1); }
  }

  lemma ScaledGrows(base: nat, low: nat, high: nat)
    requires low <= high
    ensures base * low <= base * high
  {
  }

  // Once the capped power reaches the ceiling, larger exponents change nothing.
  lemma CapIsHarmless(base: nat, max: nat, cap: nat, attempt: nat)
    requires attempt >= 1 && base * Pow2(cap) >= max
    ensures Min(max, base * Pow2(Min(attempt - 1, cap))) == Exponential(base, max, attempt)
  {
    if attempt - 1 > cap {
      Pow2Grows(cap, attempt - 1);
      ScaledGrows(base, Pow2(cap), Pow2(attempt - 1));
    }
  }

  lemma DeliveryDelayIsExponential(s: Settings, attempt: nat)
    requires s.Valid() && attempt >= 1
    ensures DeliveryDelay(s, attempt) == Exponential(s.retryBaseMs, s.retryMaxMs, attempt)
  {
    assert Pow2(4) == 16 && Pow2(8) == 16 * Pow2(4) && Pow2(12) == 16 * Pow2(8) && Pow2(16) == 16 * Pow2(12);
    ScaledGrows(Pow2(16), 50, s.retryBaseMs);
    CapIsHarmless(s.retryBaseMs, s.retryMaxMs, 16, attempt);
  }

  // Delays never shrink and stay between the base and the ceiling, from the zeroth attempt on.
  lemma DeliveryDelayBounds(s: Settings, earlier: int, later: int)
    requires s.Valid() && earlier <= later
    ensures s.retryBaseMs <= DeliveryDelay(s, earlier) <= DeliveryDelay(s, later) <= s.retryMaxMs
  {
    var m, n := Min(Max(earlier - 1, 0), 16), Min(Max(later - 1, 0), 16);
    Pow2Grows(0, m);
    Pow2Grows(m, n);
    ScaledGrows(s.retryBaseMs, 1, Pow2(m));
    ScaledGrows(s.retryBaseMs, Pow2(m), Pow2(n));
  }

  // On a claimed row, which has at least one attempt, both outbox forms give the exponential delay.
  lemma OutboxDelaysAgree(attempts: nat)
    requires attempts >= 1
    ensures OutboxSqlDelay(attempts) == Exponential(OUTBOX_RETRY_BASE_MS, OUTBOX_RETRY_MAX_MS, attempts)
    ensures OutboxDelay(attempts) == OutboxSqlDelay(attempts) as real
  {
    assert Pow2(4) == 16;
    CapIsHarmless(OUTBOX_RETRY_BASE_MS, OUTBOX_RETRY_MAX_MS, 4, attempts);
    var n := Min(attempts - 1, 4);
    assert OUTBOX_RETRY_BASE_MS as real * Power2(n) == (OUTBOX_RETRY_BASE_MS * Pow2(n)) as real;
  }

  // On an unclaimed row they would differ: the exponent is clamped below zero only in SQL.
  lemma OutboxDelaysAgreeExactly(attempts: nat)
    ensures OutboxDelay(attempts) == OutboxSqlDelay(attempts) as real <==> attempts >= 1
  {
    if attempts >= 1 {
      OutboxDelaysAgree(attempts);
    } else {
      assert Power2(-1) == 0.5 * Power2(0);
    }
  }
}
