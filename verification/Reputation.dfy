/** Reputation arithmetic of the peer set manager: saturating 32-bit scores that decay towards zero,
    one tick per elapsed second. */
module Reputation {

  const I32_MIN: int := -0x8000_0000
  const I32_MAX: int := 0x7fff_ffff

  type i32 = x: int | I32_MIN <= x <= I32_MAX

  /** Integer division as the machine does it: truncated towards zero. */
  function TruncDiv(a: int, b: int): int
    requires b > 0
  {
    if a >= 0 then a / b else -((-a) / b)
  }

  function Saturate(x: int): i32 {
    if x < I32_MIN then I32_MIN else if x > I32_MAX then I32_MAX else x
  }

  /** Peers that score less are not accepted, and not dialled unless they have priority. */
  const BANNED_THRESHOLD: int := 82 * TruncDiv(I32_MIN, 100)
  /** What a dropped connection costs a peer. */
  const DISCONNECT_REPUTATION_CHANGE: int := -10

  function ReputTick(reput: i32): i32 {
    var diff := TruncDiv(reput, 50);
    var step := if diff == 0 && reput < 0 then -1 else if diff == 0 && reput > 0 then 1 else diff;
    Saturate(reput - step)
  }

  /** `n` ticks in a row. */
  function Ticks(reput: i32, n: nat): i32
    decreases n
  {
    if n == 0 then reput else Ticks(ReputTick(reput), n - 1)
  }

  function Abs(x: int): nat {
    if x < 0 then -x else x
  }

  /** Saturation gives the nearest score there is. */
  lemma SaturateIsNearest(x: int, y: i32)
    ensures Abs(Saturate(x) - x) <= Abs(y - x)
  {
  }

  /** A tick keeps the order of any two reputations. */
  lemma TickMonotone(a: i32, b: i32)
    requires a <= b
    ensures ReputTick(a) <= ReputTick(b)
  {
    TickBounds(a);
    TickBounds(b);
    if 50 <= a {
      DivGap(a, b);
    } else if b <= -50 {
      DivGap(Abs(b), Abs(a));
    }
  }

  lemma DivGap(x: int, y: int)
    requires 0 <= x <= y
    ensures x - x / 50 <= y - y / 50
  {
  }

  /** Exact bounds of one tick: it never changes the sign, and moves a nonzero score by at least one. */
  lemma TickBounds(r: i32)
    ensures r > 0 ==> 0 <= ReputTick(r) < r
    ensures r < 0 ==> r < ReputTick(r) <= 0
    ensures r == 0 ==> ReputTick(r) == 0
    ensures 0 < Abs(r) < 50 ==> Abs(ReputTick(r)) == Abs(r) - 1
    ensures Abs(r) >= 50 ==> 49 <= Abs(ReputTick(r)) == Abs(r) - Abs(r) / 50
  {
  }

  lemma {:induction false} TicksMonotone(a: i32, b: i32, n: nat)
    requires a <= b
    ensures Ticks(a, n) <= Ticks(b, n)
    decreases n
  {
    if n > 0 {
      TickMonotone(a, b);
      TicksMonotone(ReputTick(a), ReputTick(b), n - 1);
    }
  }

  /** Ticks compose: it does not matter in how many instalments they are applied. */
  lemma {:induction false} TicksAdd(r: i32, m: nat, n: nat)
    ensures Ticks(Ticks(r, m), n) == Ticks(r, m + n)
    decreases m
  {
    if m > 0 {
      TicksAdd(ReputTick(r), m - 1, n);
    }
  }

  /** Whatever happened to a peer, ten seconds without further reports lift it out of the ban range. */
  lemma {:induction false} BannedAtMostTenTicks(r: i32, n: nat)
    requires n >= 10
    ensures Ticks(r, n) >= BANNED_THRESHOLD
  {
    var ten := 10;
    WorstCaseTenTicks(ten);
    TicksMonotone(I32_MIN, r, ten);
    TicksAdd(r, ten, n - ten);
    TicksAboveThreshold(Ticks(r, ten), n - ten);
  }

  /** `Ticks` peeled from the other end. */
  lemma {:induction false} LastTick(r: i32, n: nat)
    ensures Ticks(r, n + 1) == ReputTick(Ticks(r, n))
    decreases n
  {
    if n > 0 {
      LastTick(ReputTick(r), n - 1);
    }
  }

  /** The most hated peer is still banned after nine ticks and no longer after ten. */
  lemma {:induction false} WorstCaseTenTicks(n: nat)
    requires n <= 10
    ensures Ticks(I32_MIN, n) == WORST_CASE[n]
  {
    if n > 0 {
      LastTick(I32_MIN, n - 1);
      WorstCaseTenTicks(n - 1);
    }
  }

  const WORST_CASE: seq<int> := [-2147483648, -2104533976, -2062443297, -2021194432, -1980770544, -1941155134, -1902332032, -1864285392, -1826999685, -1790459692, -1754650499]

  lemma {:induction false} TicksAboveThreshold(r: i32, n: nat)
    requires r >= BANNED_THRESHOLD
    ensures Ticks(r, n) >= BANNED_THRESHOLD
    decreases n
  {
    if n > 0 {
      TickBounds(r);
      TicksAboveThreshold(ReputTick(r), n - 1);
    }
  }

  /** Every reputation is back at zero after as many ticks as its magnitude, and stays there. */
  lemma {:induction false} EventuallyForgotten(r: i32, n: nat)
    requires n >= Abs(r)
    ensures Ticks(r, n) == 0
    decreases n
  {
    if n > 0 {
      TickBounds(r);
      EventuallyForgotten(ReputTick(r), n - 1);
    }
  }
}
