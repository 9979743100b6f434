/** When fetching a prefix beats recomputing it. */
module BreakEven {
  datatype Costs = Costs(fetch: real, recompute: real, window: nat, overhead: real)

  /** Recomputing `k` chunks costs more than fetching the at most `window` chunks a resume needs. */
  predicate Pays(c: Costs, k: nat) {
    k as real * c.recompute > c.overhead + (if k < c.window then k else c.window) as real * c.fetch
  }

  /** The least paying length among `1..maxK`, or the one after them when none pays. */
  ghost predicate IsCalibrated(c: Costs, maxK: int, k: int) {
    && (k == maxK + 1 || 1 <= k <= maxK)
    && (1 <= k <= maxK ==> Pays(c, k))
    && forall j: nat :: 1 <= j < k && j <= maxK ==> !Pays(c, j)
  }

  /** What it costs to fetch more than the window or less. */
  lemma {:induction false} PaysIff(c: Costs, k: nat)
    ensures k <= c.window ==> (Pays(c, k) <==> k as real * (c.recompute - c.fetch) > c.overhead)
    ensures k > c.window ==> (Pays(c, k) <==> k as real * c.recompute > c.overhead + c.window as real * c.fetch)
  {
    var x := k as real;
    assert x * (c.recompute - c.fetch) == x * c.recompute - x * c.fetch;
  }

  method CalibrateBreakEvenK(c: Costs, maxK: int) returns (k: int)
    ensures IsCalibrated(c, maxK, k)
  {
    k := 1;
    while k <= maxK
      invariant 1 <= k && (maxK >= 0 ==> k <= maxK + 1) && forall j: nat :: 1 <= j < k ==> !Pays(c, j)
      decreases maxK - k
    {
      if Pays(c, k) {
        return;
      }
      k := k + 1;
    }
    k := maxK + 1;
  }

  lemma {:induction false} OneMore(k: real, x: real)
    ensures (k + 1.0) * x == k * x + x
  {
  }

  lemma {:induction false} PositiveFactor(k: real, d: real)
    requires k >= 0.0 && k * d > 0.0
    ensures d > 0.0
  {
  }

  /** Below the window both sides grow, and recomputing grows faster if the prefix pays at all. */
  lemma {:induction false} GrowBoth(k: real, r: real, f: real, overhead: real, kr: real, kf: real)
    requires k >= 0.0 && overhead >= 0.0 && kr == k * r && kf == k * f && kr > overhead + kf
    ensures kr + r > overhead + kf + f
  {
    assert k * (r - f) == kr - kf;
    PositiveFactor(k, r - f);
  }

  /** One more chunk never makes a paying prefix stop paying. */
  lemma {:induction false} PaysOneMore(c: Costs, k: nat)
    requires c.fetch >= 0.0 && c.recompute >= 0.0 && c.overhead >= 0.0 && Pays(c, k)
    ensures Pays(c, k + 1)
  {
    var x := k as real;
    assert (k + 1) as real == x + 1.0;
    OneMore(x, c.recompute);
    if k < c.window {
      OneMore(x, c.fetch);
      GrowBoth(x, c.recompute, c.fetch, c.overhead, x * c.recompute, x * c.fetch);
    }
  }

  lemma {:induction false} PaysUpward(c: Costs, j: nat, k: nat)
    requires c.fetch >= 0.0 && c.recompute >= 0.0 && c.overhead >= 0.0 && Pays(c, j) && j <= k
    ensures Pays(c, k)
    decreases k - j
  {
    if j < k {
      PaysOneMore(c, j);
      PaysUpward(c, j + 1, k);
    }
  }

  /** The fast-forward gate: whether a match of that length is resumed from. */
  predicate Admits(breakEvenK: int, matched: nat) {
    !(matched == 0 || matched < breakEvenK)
  }

  /** With costs that are not negative, the gate admits exactly the paying prefixes if the first length beyond
      `maxK`, which is never tried, pays, and only then. */
  lemma {:induction false} GateIsExactIff(c: Costs, maxK: int, k: int)
    requires c.fetch >= 0.0 && c.recompute >= 0.0 && c.overhead >= 0.0 && IsCalibrated(c, maxK, k)
    ensures (forall n: nat :: n >= 1 ==> (Admits(k, n) <==> Pays(c, n))) <==> Pays(c, if maxK < 0 then 1 else maxK + 1)
  {
    var first: nat := if k < 1 then 1 else k;
    if k <= maxK { PaysUpward(c, k, maxK + 1); }
    if Pays(c, if maxK < 0 then 1 else maxK + 1) {
      forall n: nat | n >= 1 ensures Admits(k, n) <==> Pays(c, n) {
        if n >= first { PaysUpward(c, first, n); }
      }
    } else {
      assert Admits(k, first) && !Pays(c, first);
    }
  }

  /** Where recomputing costs nothing no prefix pays, and whatever the limit, the gate lets one through. */
  lemma {:induction false} FreeRecomputeStillFetches(maxK: int)
    ensures var c, n: nat := Costs(1.0, 0.0, 1, 0.0), if maxK < 0 then 1 else maxK + 1;
      IsCalibrated(c, maxK, maxK + 1) && Admits(maxK + 1, n) && forall k: nat :: !Pays(c, k)
  {
    forall k: nat ensures !Pays(Costs(1.0, 0.0, 1, 0.0), k) {
      assert (if k < 1 then k else 1) as real >= 0.0;
    }
  }
}
