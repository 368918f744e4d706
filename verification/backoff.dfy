/** The retry delay computed by the scheduler (backoff) and by the executor (backoffDuration): the same code
    in two places, on time.Duration, which is a wrapping 64-bit count of nanoseconds. */
module Backoff {

  const SECOND: int := 1_000_000_000
  const CAP: int := 30 * SECOND
  const WORD: int := 0x1_0000_0000_0000_0000

  function Pow2(k: nat): (r: int)
    ensures r >= 1
  {
    if k == 0 then 1 else 2 * Pow2(k - 1)
  }

  function Wrap64(x: int): int {
    if x % WORD < WORD / 2 then x % WORD else x % WORD - WORD
  }

  // The delay before jitter.
  function Base(retry: int): int {
    if retry <= 0 then 0
    else
      var shifted := Wrap64(SECOND * Pow2(retry - 1));
      if shifted > CAP then CAP else shifted
  }

  // jitter is rand.Intn(500), in milliseconds.
  function Delay(retry: int, jitter: nat): int
    requires jitter < 500
  {
    if retry <= 0 then 0 else Base(retry) + jitter * 1_000_000
  }

  // time.Now().Add(delay).Unix() at nowNs nanoseconds after the epoch.
  function RetryAt(nowNs: int, retry: int, jitter: nat): int
    requires jitter < 500
  {
    (nowNs + Delay(retry, jitter)) / SECOND
  }

  // What the comment and the documentation promise: 1, 2, 4, 8, 16, then 30 seconds.
  function Promised(retry: int): int
    requires retry >= 1
  {
    if Pow2(retry - 1) < 30 then Pow2(retry - 1) * SECOND else CAP
  }

  // A 64-bit word holds x but for whole multiples of 2^64, with a sign.
  lemma WrapMeans(x: int)
    ensures -0x8000_0000_0000_0000 <= Wrap64(x) < 0x8000_0000_0000_0000
    ensures exists q: int :: Wrap64(x) == x + 0x1_0000_0000_0000_0000 * q
  {
    var q := if x % WORD < WORD / 2 then -(x / WORD) else -(x / WORD) - 1;
    assert Wrap64(x) == x + 0x1_0000_0000_0000_0000 * q;
  }

  // Without an attempt there is no delay; otherwise jitter adds whole milliseconds.
  lemma DelayMeans(retry: int, jitter: nat)
    requires jitter < 500
    ensures Delay(retry, jitter) == if retry <= 0 then 0 else Base(retry) + 1_000_000 * jitter
  {
  }

  // The delay before jitter is the doubled second as a word, cut off at 30 s from above only.
  lemma BaseMeans(retry: int)
    requires retry >= 1
    ensures var word := Wrap64(1_000_000_000 * Pow2(retry - 1));
      Base(retry) <= 30_000_000_000 && (Base(retry) == word || (Base(retry) == 30_000_000_000 < word))
  {
  }

  lemma {:induction false} Pow2Add(a: nat, b: nat)
    ensures Pow2(a + b) == Pow2(a) * Pow2(b)
  {
    if b > 0 {
      Pow2Add(a, b - 1);
      assert Pow2(a + b) == 2 * Pow2(a + b - 1);
    }
  }

  lemma {:induction false} Pow2Monotone(a: nat, b: nat)
    requires a <= b
    ensures Pow2(a) <= Pow2(b)
  {
    Pow2Add(a, b - a);
    assert Pow2(a) * Pow2(b - a) >= Pow2(a) * 1;
  }

  lemma PowersUsed()
    ensures Pow2(4) == 16 && Pow2(5) == 32
    ensures Pow2(33) == 0x2_0000_0000 && Pow2(34) == 0x4_0000_0000 && Pow2(55) == 0x80_0000_0000_0000
  {
    assert Pow2(2) == 4;
    assert Pow2(4) == 16;
    Pow2Add(4, 4);
    assert Pow2(8) == 256;
    Pow2Add(8, 8);
    assert Pow2(16) == 65536;
    Pow2Add(16, 16);
    assert Pow2(32) == 0x1_0000_0000;
    Pow2Add(32, 16);
    assert Pow2(48) == 0x1_0000_0000_0000;
    Pow2Add(48, 4);
    assert Pow2(52) == 0x10_0000_0000_0000;
    assert Pow2(54) == 0x40_0000_0000_0000;
  }

  lemma SmallRetry(retry: int)
    requires 1 <= retry <= 34
    ensures Base(retry) == Promised(retry)
  {
    PowersUsed();
    var p := Pow2(retry - 1);
    Pow2Monotone(retry - 1, 33);
    assert SECOND * p <= SECOND * 0x2_0000_0000;
    assert Wrap64(SECOND * p) == SECOND * p;
    if retry <= 5 {
      Pow2Monotone(retry - 1, 4);
    } else {
      Pow2Monotone(5, retry - 1);
      assert SECOND * p >= SECOND * 32;
    }
  }

  // Shifted 55 places or more, nothing of the second is left.
  lemma HugeRetry(retry: int)
    requires retry >= 56
    ensures Base(retry) == 0
  {
    PowersUsed();
    Pow2Add(55, retry - 56);
    var q := Pow2(retry - 56);
    assert SECOND * Pow2(retry - 1) == WORD * (1953125 * q);
    WordsAreZero(1953125 * q);
  }

  lemma WordsAreZero(k: int)
    ensures Wrap64(WORD * k) == 0
  {
  }

  // In between, a bit of the second may land on the sign: bit 64 - retry of it, from bit 29 down to bit 9.
  predicate SignFree(retry: int) {
    retry in {38, 42, 43, 46, 48, 51, 52, 54}
  }

  function Left(retry: int): int
    requires retry >= 1
  {
    (SECOND * Pow2(retry - 1)) % WORD
  }

  // What is left of the second after k shifts, and its double after one more.
  lemma ShiftOnce(k: nat, r: int)
    requires Left(k + 1) == r
    ensures Left(k + 2) == if r < WORD / 2 then 2 * r else 2 * r - WORD
  {
    var x := SECOND * Pow2(k);
    assert SECOND * Pow2(k + 1) == 2 * x;
    assert 2 * x == WORD * (2 * (x / WORD)) + 2 * r;
  }

  // What is left after 34 to 54 shifts.
  const LEFT := [
    0xee6b280000000000, 0xdcd6500000000000, 0xb9aca00000000000, 0x7359400000000000, 0xe6b2800000000000,
    0xcd65000000000000, 0x9aca000000000000, 0x3594000000000000, 0x6b28000000000000, 0xd650000000000000,
    0xaca0000000000000, 0x5940000000000000, 0xb280000000000000, 0x6500000000000000, 0xca00000000000000,
    0x9400000000000000, 0x2800000000000000, 0x5000000000000000, 0xa000000000000000, 0x4000000000000000,
    0x8000000000000000]

  lemma {:induction false} LeftIsListed(retry: int)
    requires 35 <= retry <= 55
    ensures Left(retry) == LEFT[retry - 35]
  {
    if retry == 35 {
      PowersUsed();
    } else {
      LeftIsListed(retry - 1);
      ShiftOnce(retry - 2, LEFT[retry - 36]);
    }
  }

  // The sign bit after retry - 1 shifts decides whether the cap applies.
  predicate Capped(left: int) { CAP <= left < WORD / 2 }

  lemma CapApplies(retry: int)
    requires retry >= 1
    ensures Base(retry) == CAP <==> Capped(Left(retry))
  {
  }

  lemma ListedSigns(retry: int)
    requires 35 <= retry <= 55
    ensures Capped(LEFT[retry - 35]) <==> SignFree(retry)
  {
  }

  lemma MiddleRetry(retry: int)
    requires 35 <= retry <= 55
    ensures Base(retry) == CAP <==> SignFree(retry)
  {
    CapApplies(retry);
    LeftIsListed(retry);
    ListedSigns(retry);
  }

  // Where the bit lands on the sign, the delay comes out negative.
  lemma MiddleRetryIsNegative(retry: int)
    requires 35 <= retry <= 55
    ensures Base(retry) < 0 <==> !SignFree(retry)
  {
    CapApplies(retry);
    LeftIsListed(retry);
    ListedSigns(retry);
    ListedIsLarge(retry);
  }

  lemma ListedIsLarge(retry: int)
    requires 35 <= retry <= 55
    ensures CAP <= LEFT[retry - 35] < WORD
  {
  }

  // The delay is the promised one for the first 34 retries and for eight later ones, and for no others.
  lemma BackoffIsAsPromised(retry: int)
    requires retry >= 1
    ensures Base(retry) == Promised(retry) <==> retry <= 34 || SignFree(retry)
  {
    if retry <= 34 {
      SmallRetry(retry);
    } else {
      PowersUsed();
      Pow2Monotone(5, retry - 1);
      if retry <= 55 {
        MiddleRetry(retry);
      } else {
        HugeRetry(retry);
      }
    }
  }

  lemma BackoffGrows(retry: int)
    requires 1 <= retry < 34
    ensures Base(retry) <= Base(retry + 1)
  {
    SmallRetry(retry);
    SmallRetry(retry + 1);
    Pow2Monotone(retry - 1, retry);
  }

  lemma SecondOf(ns: int, second: int)
    ensures ns / SECOND == second <==> second * SECOND <= ns < (second + 1) * SECOND
  {
  }

  // A retry is due at most 31 s from now, whatever the retry count.
  lemma RetryIsSoon(nowNs: int, retry: int, jitter: nat)
    requires jitter < 500
    ensures Delay(retry, jitter) < 30 * SECOND + SECOND / 2
    ensures RetryAt(nowNs, retry, jitter) <= nowNs / SECOND + 31
  {
  }

  // A callback that failed no earlier than its trigger second is retried in a later second.
  lemma RetryIsLater(nowNs: int, retry: int, jitter: nat, trigger: int)
    requires jitter < 500 && 1 <= retry <= 34 && trigger * SECOND <= nowNs
    ensures RetryAt(nowNs, retry, jitter) > trigger
  {
    SmallRetry(retry);
    assert Base(retry) >= SECOND;
    assert nowNs + Delay(retry, jitter) >= (trigger + 1) * SECOND;
  }

  // One that ran up to a second early can be retried in the very same second.
  lemma EarlyRetryIsNotLater(trigger: int, early: int)
    requires 0 < early <= SECOND
    ensures RetryAt(trigger * SECOND - early, 1, 0) <= trigger
  {
  }
}
