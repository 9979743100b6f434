/** Products and quotients by a variable, as repeated addition: the proofs about frames, chunks and
    tokens then stay linear. `TimesIs` and `ChunkOfIs` say that these are `*`, `/` and `%`. */
module Arith {

  ghost function Times(a: nat, n: nat): nat {
    if a == 0 then 0 else Times(a - 1, n) + n
  }

  /** The chunk a frame belongs to, and the frame's place in it. */
  ghost function ChunkOf(f: nat, c: nat): nat
    requires c >= 1
  {
    if f < c then 0 else 1 + ChunkOf(f - c, c)
  }

  ghost function Within(f: nat, c: nat): (r: nat)
    requires c >= 1
    ensures r < c
  {
    if f < c then f else Within(f - c, c)
  }

  ghost function Min(a: nat, b: nat): nat { if a < b then a else b }

  lemma TimesIs(a: nat, n: nat)
    ensures Times(a, n) == a * n
  {
    if a > 0 {
      TimesIs(a - 1, n);
      assert a * n == (a - 1) * n + n;
    }
  }

  lemma ChunkOfIs(f: nat, c: nat)
    requires c >= 1
    ensures ChunkOf(f, c) == f / c && Within(f, c) == f % c
  {
    if f >= c {
      ChunkOfIs(f - c, c);
      var q, r := (f - c) / c, (f - c) % c;
      assert f == q * c + c + r;
      assert q * c + c == (q + 1) * c;
      QuotientUnique(f, c, q + 1, r);
    }
  }

  lemma {:induction false} QuotientUnique(f: nat, c: nat, q: nat, r: nat)
    requires c >= 1 && r < c && f == q * c + r
    ensures f / c == q && f % c == r
  {
    var d := f / c - q;
    assert d * c == f / c * c - q * c;
    assert 0 - c < d * c < c;
  }

  lemma ChunkSplit(f: nat, c: nat)
    requires c >= 1
    ensures f == Times(ChunkOf(f, c), c) + Within(f, c)
  {
  }

  lemma TimesMono(a: nat, b: nat, n: nat)
    requires a <= b
    ensures Times(a, n) <= Times(b, n)
    decreases b
  {
    if a < b { TimesMono(a, b - 1, n); }
  }

  lemma TimesAtLeast(a: nat, n: nat)
    requires n >= 1
    ensures Times(a, n) >= a
  {
    if a > 0 { TimesAtLeast(a - 1, n); }
  }

  lemma TimesAdd(a: nat, b: nat, n: nat)
    ensures Times(a + b, n) == Times(a, n) + Times(b, n)
  {
    if b > 0 { TimesAdd(a, b - 1, n); }
  }

  lemma TimesAssoc(a: nat, b: nat, n: nat)
    ensures Times(a, Times(b, n)) == Times(Times(a, b), n)
  {
    if a > 0 {
      TimesAssoc(a - 1, b, n);
      TimesAdd(Times(a - 1, b), b, n);
    }
  }

  /** Scaling by a positive `n` keeps order, with room for a whole `n` when it is strict. */
  lemma {:induction false} Scale(a: nat, b: nat, n: nat)
    requires n >= 1
    ensures a <= b <==> Times(a, n) <= Times(b, n)
    ensures a < b ==> Times(a, n) + n <= Times(b, n)
  {
    if a < b {
      TimesMono(a + 1, b, n);
    } else if b < a {
      TimesMono(b + 1, a, n);
    }
  }

  /** A frame lies in the first `q` chunks exactly when its chunk does. */
  lemma {:induction false} ChunkBound(f: nat, c: nat, q: nat)
    requires c >= 1
    ensures f < Times(q, c) <==> ChunkOf(f, c) < q
  {
    ChunkSplit(f, c);
    if ChunkOf(f, c) < q {
      Scale(ChunkOf(f, c), q, c);
    } else {
      TimesMono(q, ChunkOf(f, c), c);
    }
  }

  /** Block and offset of position `p` among `q` blocks of `n`. */
  lemma {:induction false} Locate(p: nat, n: nat, q: nat) returns (i: nat, j: nat)
    requires n >= 1 && p < Times(q, n)
    ensures i < q && j < n && p == Times(i, n) + j
  {
    ChunkBound(p, n, q);
    ChunkSplit(p, n);
    i, j := ChunkOf(p, n), Within(p, n);
  }

  /** `-(-x // c)` with floor division. */
  function CeilDiv(x: nat, c: nat): (q: nat)
    requires c >= 1
    ensures x <= Times(q, c)
    ensures x >= 1 ==> q >= 1 && Times(q - 1, c) < x
  {
    CeilFacts(x, c);
    var d: int := 0 - x;
    0 - d / c
  }

  lemma {:induction false} CeilFacts(x: nat, c: nat)
    requires c >= 1
    ensures var d: int := 0 - x; var q := 0 - d / c;
      q >= 0 && x <= Times(q, c) && (x >= 1 ==> q >= 1 && Times(q - 1, c) < x)
  {
    var d: int := 0 - x;
    var q, r := 0 - d / c, d % c;
    assert d == (-q) * c + r;
    assert q * c == x + r;
    TimesIs(q, c);
    if q >= 1 { assert (q - 1) * c == q * c - c; TimesIs(q - 1, c); }
  }
}
