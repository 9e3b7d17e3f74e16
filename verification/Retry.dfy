/** Model of src/util/retry.rs. Durations are counted in nanoseconds. */
module Retry {
  import opened Bytes

  const DURATION_MAX: nat := 0xFFFF_FFFF_FFFF_FFFF * 1_000_000_000 + 999_999_999

  type Duration = d: nat | d <= DURATION_MAX

  datatype Policy = Policy(next: Duration, cap: Duration, remaining: nat)

  /** The next delay, or none, and the policy after it. */
  function Advance(p: Policy): (Option<Duration>, Policy) {
    if p.remaining == 0 then (None, p)
    else (Some(p.next), Policy(Min(Min(2 * p.next, DURATION_MAX), p.cap), p.cap, p.remaining - 1))
  }

  class Backoff {
    var next: Duration
    var cap: Duration
    var remaining: nat

    function View(): Policy
      reads this
    {
      Policy(next, cap, remaining)
    }

    constructor (initial: Duration, cap: Duration, max: nat)
      ensures View() == Policy(initial, cap, max)
    {
      next, this.cap, remaining := initial, cap, max;
    }

    method Next() returns (delay: Option<Duration>)
      modifies this
      ensures (delay, View()) == Advance(old(View()))
    {
      if remaining == 0 {
        return None;
      }
      remaining := remaining - 1;
      delay := Some(next);
      var doubled := 2 * next;
      next := Min(if doubled > DURATION_MAX then DURATION_MAX else doubled, cap);
    }
  }

  /** The policy after `k` calls. */
  function After(p: Policy, k: nat): Policy {
    if k == 0 then p else Advance(After(p, k - 1)).1
  }

  function Pow2(k: nat): nat {
    if k == 0 then 1 else 2 * Pow2(k - 1)
  }

  /** There are exactly `remaining` delays; the first is the initial one, uncapped, and every later one is
      the initial delay doubled that often, capped. */
  lemma {:induction false} DelayExactly(p: Policy, k: nat)
    ensures After(p, k).remaining == if k <= p.remaining then p.remaining - k else 0
    ensures After(p, k).cap == p.cap
    ensures k <= p.remaining ==> After(p, k).next == if k == 0 then p.next else Min(p.next * Pow2(k), p.cap)
    ensures Advance(After(p, k)).0 ==
            if k >= p.remaining then None else Some(if k == 0 then p.next else Min(p.next * Pow2(k), p.cap))
  {
    if k > 0 {
      DelayExactly(p, k - 1);
      Doubling(p.next, k - 1);
    }
  }

  lemma Doubling(n: nat, k: nat)
    ensures n * Pow2(k + 1) == 2 * (n * Pow2(k))
  {
    assert Pow2(k + 1) == 2 * Pow2(k);
  }

  ghost predicate NeverAboveCap(p: Policy) {
    forall k: nat :: Advance(After(p, k)).0.Some? ==> Advance(After(p, k)).0.value <= p.cap
  }

  /** The cap holds for every delay exactly if it holds for the initial one, or there are none. */
  lemma CapKeptExactly(p: Policy)
    ensures NeverAboveCap(p) <==> p.remaining == 0 || p.next <= p.cap
  {
    hide After, Advance, Pow2;
    forall k: nat
      ensures Advance(After(p, k)).0 ==
              if k >= p.remaining then None else Some(if k == 0 then p.next else Min(p.next * Pow2(k), p.cap))
    {
      DelayExactly(p, k);
    }
    assert p.remaining > 0 ==> Advance(After(p, 0)).0 == Some(p.next);
  }

  /** An initial delay of two seconds under a cap of one second is waited in full. */
  lemma CapExceeded()
    ensures var p := Policy(2_000_000_000, 1_000_000_000, 1);
            Advance(p).0 == Some(2_000_000_000) && !NeverAboveCap(p)
  {
    var p := Policy(2_000_000_000, 1_000_000_000, 1);
    assert After(p, 0) == p;
  }
}
