/** The polling intervals of `ScanPollingService`: each re-enqueued message waits the
    previous wait times the multiplier, capped. */
module Backoff {
  import opened Common

  function Pow(k: int, n: nat): int {
    if n == 0 then 1 else k * Pow(k, n - 1)
  }

  function Next(ttl: int, multiplier: int, cap: int): int {
    Min(ttl * multiplier, cap)
  }

  /** Each wait is the backoff of the one before it. */
  ghost predicate Backed(ttls: seq<int>, multiplier: int, cap: int) {
    forall n :: 0 < n < |ttls| ==> ttls[n] == Next(ttls[n - 1], multiplier, cap)
  }

  lemma BackedMore(ttls: seq<int>, multiplier: int, cap: int)
    requires |ttls| > 0 && Backed(ttls, multiplier, cap)
    ensures Backed(ttls + [Next(ttls[|ttls| - 1], multiplier, cap)], multiplier, cap)
  {
  }

  lemma SumMore(ttls: seq<int>, x: int)
    ensures Sum(ttls + [x]) == Sum(ttls) + x
  {
    assert (ttls + [x])[..|ttls|] == ttls;
  }

  lemma {:induction false} PowPositive(k: int, n: nat)
    requires k >= 1
    ensures Pow(k, n) >= 1
  {
    if n > 0 {
      PowPositive(k, n - 1);
      Grow(1, k, Pow(k, n - 1));
    }
  }

  lemma Grow(a: int, b: int, x: int)
    requires a <= b && x >= 0
    ensures a * x <= b * x
  {
  }

  /** The n-th wait is e0 * k^n, capped, for every n >= 1. */
  lemma {:induction false} ClosedForm(ttls: seq<int>, k: int, cap: int, n: nat)
    requires Backed(ttls, k, cap) && 0 < n < |ttls|
    requires k >= 1 && ttls[0] >= 0 && cap >= 0
    ensures ttls[n] == Min(ttls[0] * Pow(k, n), cap)
  {
    var e0 := ttls[0];
    if n == 1 {
      assert Pow(k, 1) == k * Pow(k, 0) == k;
    } else {
      ClosedForm(ttls, k, cap, n - 1);
      var p := Pow(k, n - 1);
      assert e0 * (k * p) == (e0 * p) * k;
      if e0 * p > cap {
        Grow(1, k, cap);
        Grow(1, k, e0 * p);
        assert cap * k >= cap && (e0 * p) * k >= e0 * p;
      }
    }
  }

  /** From the first re-enqueue on the waits never shrink, and once at the cap they stay there. */
  lemma WaitsNeverShrink(ttls: seq<int>, k: int, cap: int, m: nat, n: nat)
    requires Backed(ttls, k, cap) && 0 < m <= n < |ttls|
    requires k >= 1 && ttls[0] >= 0 && cap >= 0
    ensures ttls[m] <= ttls[n]
    ensures ttls[m] == cap ==> ttls[n] == cap
    decreases n - m
  {
    if m < n {
      ClosedForm(ttls, k, cap, m);
      PowPositive(k, m);
      assert ttls[0] * Pow(k, m) >= 0 by { Grow(0, ttls[0], Pow(k, m)); }
      Grow(1, k, ttls[m]);
      assert ttls[m + 1] >= ttls[m];
      WaitsNeverShrink(ttls, k, cap, m + 1, n);
    }
  }

  lemma {:induction false} EveryWaitIsLong(ttls: seq<int>, k: int, cap: int, n: nat)
    requires Backed(ttls, k, cap) && n < |ttls|
    requires k >= 1 && ttls[0] >= 0 && cap >= 0
    ensures ttls[n] >= Min(ttls[0], cap)
  {
    if n > 0 {
      EveryWaitIsLong(ttls, k, cap, n - 1);
      Grow(1, k, ttls[n - 1]);
    }
  }

  /** n waits last at least n times the shorter of the first wait and the cap. */
  lemma {:induction false} SumIsLong(ttls: seq<int>, k: int, cap: int, n: nat)
    requires Backed(ttls, k, cap) && n <= |ttls|
    requires k >= 1 && |ttls| > 0 && ttls[0] >= 0 && cap >= 0
    ensures Sum(ttls[..n]) >= n * Min(ttls[0], cap)
  {
    if n > 0 {
      SumIsLong(ttls, k, cap, n - 1);
      EveryWaitIsLong(ttls, k, cap, n - 1);
      assert ttls[..n][..n - 1] == ttls[..n - 1];
      assert (n - 1) * Min(ttls[0], cap) + Min(ttls[0], cap) == n * Min(ttls[0], cap);
    }
  }

  lemma OneMore(a: int, b: int)
    ensures a * b + b == (a + 1) * b
  {
  }

  lemma {:induction false} SumOfSame(ttls: seq<int>, cap: int, m: nat, n: nat)
    requires m <= n <= |ttls| && forall i :: m <= i < n ==> ttls[i] == cap
    ensures Sum(ttls[..n]) == Sum(ttls[..m]) + (n - m) * cap
    decreases n - m
  {
    if m < n {
      SumOfSame(ttls, cap, m, n - 1);
      assert ttls[..n][..n - 1] == ttls[..n - 1];
      OneMore(n - 1 - m, cap);
    }
  }

  /** Waits from a capped one on last exactly the cap each. */
  lemma SumAtCap(ttls: seq<int>, k: int, cap: int, m: nat, n: nat)
    requires Backed(ttls, k, cap) && 0 < m < |ttls| && m <= n <= |ttls|
    requires k >= 1 && ttls[0] >= 0 && cap >= 0 && ttls[m] == cap
    ensures Sum(ttls[..n]) == Sum(ttls[..m]) + (n - m) * cap
  {
    forall i | m <= i < n ensures ttls[i] == cap {
      WaitsNeverShrink(ttls, k, cap, m, i);
    }
    SumOfSame(ttls, cap, m, n);
  }
}
