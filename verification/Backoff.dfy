/**
 Retry delays: exponential growth up to a cap, with full jitter.
 A jittered delay is any value in [0, bound]; `Pow2` and the bounds are exact.
 */
module Backoff {

  const WEBHOOK_CAP: nat := 300

  function Pow2(n: nat): (p: nat)
    ensures p >= 1
  {
    if n == 0 then 1 else 2 * Pow2(n - 1)
  }

  /** The longest delay `exponential_backoff_seconds` may draw: base 1, cap 8, 0-based attempt. */
  function ItemBound(attempt: int): nat {
    var exp := Pow2(if attempt > 0 then attempt else 0);
    if exp < 8 then exp else 8
  }

  /** Each retry may wait twice as long as the one before it, from 1 s up to the cap of 8 s. */
  lemma ItemBoundDoubles(attempt: int)
    ensures 1 <= ItemBound(attempt) <= 8
    ensures attempt <= 0 ==> ItemBound(attempt) == 1
    ensures attempt >= 0 ==> ItemBound(attempt + 1) == if 2 * ItemBound(attempt) < 8 then 2 * ItemBound(attempt) else 8
  {
    if attempt >= 0 {
      assert Pow2(attempt + 1) == 2 * Pow2(attempt);
    }
  }

  /** The longest delay `webhook_backoff_seconds` may draw for a 1-based attempt count. */
  function WebhookBound(attempt: int): (bound: nat)
    ensures 1 <= bound <= WEBHOOK_CAP
  {
    var exp := Pow2(if attempt > 1 then attempt - 1 else 0);
    if exp < WEBHOOK_CAP then exp else WEBHOOK_CAP
  }

  /** Python's `round`: to the nearest integer, halves to the even one. */
  function Round(x: real): (r: int)
    ensures x - 0.5 <= r as real <= x + 0.5
    ensures r as real == x - 0.5 || r as real == x + 0.5 ==> r % 2 == 0
  {
    var below := x.Floor;
    var fraction := x - below as real;
    if fraction < 0.5 then below
    else if fraction > 0.5 then below + 1
    else if below % 2 == 0 then below
    else below + 1
  }

  /** The deferral before the next delivery: the jittered delay that was drawn, rounded, but at least 1 s. */
  function Deferral(attempt: int, delay: real): (seconds: int)
    requires 0.0 <= delay <= WebhookBound(attempt) as real
    ensures 1 <= seconds <= WebhookBound(attempt) <= WEBHOOK_CAP
    ensures delay - 0.5 <= seconds as real && (seconds > 1 ==> seconds as real <= delay + 0.5)
  {
    var rounded := Round(delay);
    if rounded < 1 then 1 else rounded
  }

  /** The most that m - 1 deferrals can add up to, for attempts first .. m - 1. */
  function WorstDeferral(first: nat, m: int): nat
    decreases m - first
  {
    if first >= m then 0 else WebhookBound(first) + WorstDeferral(first + 1, m)
  }

  lemma {:induction false} WorstDeferralLast(first: nat, m: nat)
    requires first <= m
    ensures WorstDeferral(first, m + 1) == WorstDeferral(first, m) + WebhookBound(m)
    decreases m - first
  {
    if first < m {
      WorstDeferralLast(first + 1, m);
    }
  }

  lemma {:induction false} Pow2Grows(a: nat, b: nat)
    requires a <= b
    ensures Pow2(a) <= Pow2(b)
    decreases b
  {
    if a < b {
      Pow2Grows(a, b - 1);
    }
  }

  /** The worst total in closed form: 2^(m-1) - 1 up to ten attempts, then 300 s for each further one. */
  lemma {:induction false} WorstDeferralClosed(m: nat)
    requires m >= 1
    ensures m <= 10 ==> WorstDeferral(1, m) == Pow2(m - 1) - 1
    ensures m >= 10 ==> WorstDeferral(1, m) == 511 + 300 * (m - 10)
  {
    assert Pow2(3) == 8;
    assert Pow2(6) == 64;
    assert Pow2(9) == 512;
    if m > 1 {
      WorstDeferralClosed(m - 1);
      WorstDeferralLast(1, m - 1);
      if m <= 10 {
        Pow2Grows(m - 2, 8);
        assert Pow2(m - 1) == 2 * Pow2(m - 2);
      } else {
        Pow2Grows(9, m - 2);
      }
    }
  }
}
