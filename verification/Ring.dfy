/** The rolling self-attention KV buffer of one layer: the cold run's write arithmetic, and what a
    buffer holds after any number of chunk writes. */
module Ring {
  import opened Arith

  /** One layer's `self_kv_cache` entry. The physical buffers keep stale tokens above `localEnd`. */
  datatype Ring<T> = Ring(k: seq<T>, v: seq<T>, globalEnd: nat, localEnd: nat) {
    ghost predicate Valid() {
      |k| == |v| && localEnd <= |k|
    }

    /** All the model can observe: both pointers and the slots below `localEnd`. */
    ghost function Visible(): Ring<T>
      requires Valid()
    {
      Ring(k[..localEnd], v[..localEnd], globalEnd, localEnd)
    }
  }

  /** The clean KV of one chunk in one layer. */
  datatype KV<T> = KV(k: seq<T>, v: seq<T>)

  // ------------------------------------------------------------------ one write

  ghost function Evicted(cap: nat, globalEnd: nat, localEnd: nat, n: nat, start: nat): nat {
    if start + n > globalEnd && n + localEnd > cap then n + localEnd - cap else 0
  }

  ghost function NextLocal(cap: nat, globalEnd: nat, localEnd: nat, n: nat, start: nat): int {
    localEnd + start + n - globalEnd - Evicted(cap, globalEnd, localEnd, n, start)
  }

  /** The written span lies inside the buffer; otherwise the tensor slice assignment raises. */
  ghost predicate Fits<T>(r: Ring<T>, n: nat, start: nat) {
    r.Valid() && n <= NextLocal(|r.k|, r.globalEnd, r.localEnd, n, start) <= |r.k|
  }

  ghost function Place<T>(buf: seq<T>, at: nat, part: seq<T>): (r: seq<T>)
    requires at + |part| <= |buf|
    ensures |r| == |buf|
  {
    buf[..at] + part + buf[at + |part|..]
  }

  lemma PlaceAt<T>(buf: seq<T>, at: nat, part: seq<T>, p: nat)
    requires at + |part| <= |buf| && p < |buf|
    ensures Place(buf, at, part)[p] == if at <= p < at + |part| then part[p - at] else buf[p]
  {
  }

  /** Drop `evicted` tokens just above the sink by moving the rest down; slots past the moved block
      keep their old contents. An empty block moves nothing. */
  ghost function Shift<T>(buf: seq<T>, sink: nat, localEnd: nat, evicted: nat): (r: seq<T>)
    requires localEnd <= |buf|
    ensures |r| == |buf|
  {
    if sink + evicted < localEnd
    then buf[..sink] + buf[sink + evicted..localEnd] + buf[localEnd - evicted..]
    else buf
  }

  ghost function Write<T>(r: Ring<T>, sink: nat, chunk: KV<T>, start: nat): (r': Ring<T>)
    requires |chunk.k| == |chunk.v| && Fits(r, |chunk.k|, start)
    ensures r'.Valid() && |r'.k| == |r.k| && r'.globalEnd == start + |chunk.k|
    ensures r'.localEnd == NextLocal(|r.k|, r.globalEnd, r.localEnd, |chunk.k|, start)
  {
    var n := |chunk.k|;
    var e := Evicted(|r.k|, r.globalEnd, r.localEnd, n, start);
    var le := NextLocal(|r.k|, r.globalEnd, r.localEnd, n, start);
    Ring(Place(Shift(r.k, sink, r.localEnd, e), le - n, chunk.k),
         Place(Shift(r.v, sink, r.localEnd, e), le - n, chunk.v),
         start + n, le)
  }

  /** The engine's own buffer object: two fixed-size tensors and the two end indices. */
  class KVLayer<T> {
    const k: array<T>
    const v: array<T>
    var globalEnd: nat
    var localEnd: nat

    ghost predicate Valid()
      reads this
    {
      k != v && k.Length == v.Length && localEnd <= k.Length
    }

    ghost function Value(): Ring<T>
      reads this, k, v
    {
      Ring(k[..], v[..], globalEnd, localEnd)
    }

    constructor (capacity: nat, zero: T)
      ensures Valid() && fresh(k) && fresh(v) && k.Length == capacity
      ensures globalEnd == localEnd == 0
    {
      k := new T[capacity](_ => zero);
      v := new T[capacity](_ => zero);
      globalEnd, localEnd := 0, 0;
    }

    /** The rolling write, in place. */
    method KvWrite(sink: nat, kNew: seq<T>, vNew: seq<T>, currentStart: nat)
      requires Valid() && |kNew| == |vNew| && Fits(Value(), |kNew|, currentStart)
      modifies this, k, v
      ensures Valid() && Value() == Write(old(Value()), sink, KV(kNew, vNew), currentStart)
    {
      hide Shift, Place;
      var numNew := |kNew|;
      var currentEnd := currentStart + numNew;
      var evicted := 0;
      if currentEnd > globalEnd && numNew + localEnd > k.Length {
        evicted := numNew + localEnd - k.Length;
      }
      ghost var before := Value();
      assert evicted == Evicted(|before.k|, before.globalEnd, before.localEnd, numNew, currentStart);
      var newLocal := localEnd + currentEnd - globalEnd - evicted;
      WriteBuffer(k, sink, localEnd, evicted, newLocal - numNew, kNew);
      WriteBuffer(v, sink, localEnd, evicted, newLocal - numNew, vNew);
      globalEnd := currentEnd;
      localEnd := newLocal;
      assert Value() == Write(before, sink, KV(kNew, vNew), currentStart);
    }
  }

  /** One of the two tensors: roll if anything is evicted, then write the new span. */
  method WriteBuffer<T>(a: array<T>, sink: nat, localEnd: nat, evicted: nat, at: nat, part: seq<T>)
    requires localEnd <= a.Length && at + |part| <= a.Length
    modifies a
    ensures a[..] == Place(Shift(old(a[..]), sink, localEnd, evicted), at, part)
  {
    ghost var before := a[..];
    if evicted > 0 {
      MoveDown(a, sink, localEnd, evicted);
    }
    assert a[..] == Shift(before, sink, localEnd, evicted);
    Overwrite(a, at, part);
  }

  /** Slice assignment from a clone of a later slice of the same buffer. */
  method MoveDown<T>(a: array<T>, sink: nat, localEnd: nat, evicted: nat)
    requires localEnd <= a.Length
    modifies a
    ensures a[..] == Shift(old(a[..]), sink, localEnd, evicted)
  {
    var rolled := localEnd - evicted - sink;
    if rolled > 0 {
      Overwrite(a, sink, a[sink + evicted..sink + evicted + rolled]);
    }
  }

  /** Slice assignment of a tensor. */
  method Overwrite<T>(a: array<T>, at: nat, part: seq<T>)
    requires at + |part| <= a.Length
    modifies a
    ensures a[..] == Place(old(a[..]), at, part)
  {
    forall i | 0 <= i < |part| {
      a[at + i] := part[i];
    }
  }

  // ------------------------------------------------------------------ rewrites of one chunk

  ghost predicate SameSize<T>(passes: seq<KV<T>>, n: nat) {
    forall i :: 0 <= i < |passes| ==> |passes[i].k| == |passes[i].v| == n
  }

  /** Every denoising pass and the clean rewrite write the same span. */
  ghost function WriteAll<T>(r: Ring<T>, sink: nat, passes: seq<KV<T>>, n: nat, start: nat): (r': Ring<T>)
    requires passes != [] && SameSize(passes, n) && Fits(r, n, start) && start + n >= r.globalEnd
    ensures r'.Valid() && |r'.k| == |r.k| && Fits(r', n, start) && r'.globalEnd == start + n
    decreases |passes|
  {
    if |passes| == 1 then Write(r, sink, passes[0], start)
    else Write(WriteAll(r, sink, passes[..|passes| - 1], n, start), sink, passes[|passes| - 1], start)
  }

  lemma {:induction false} RewriteReplaces<T>(r: Ring<T>, sink: nat, a: KV<T>, b: KV<T>, start: nat)
    requires |a.k| == |a.v| == |b.k| == |b.v| && Fits(r, |a.k|, start)
    ensures Fits(Write(r, sink, a, start), |b.k|, start)
    ensures Write(Write(r, sink, a, start), sink, b, start) == Write(r, sink, b, start)
  {
    var n, once := |a.k|, Write(r, sink, a, start);
    var e := Evicted(|r.k|, r.globalEnd, r.localEnd, n, start);
    assert Evicted(|r.k|, once.globalEnd, once.localEnd, n, start) == 0;
    PlaceTwice(Shift(r.k, sink, r.localEnd, e), once.localEnd - n, a.k, b.k);
    PlaceTwice(Shift(r.v, sink, r.localEnd, e), once.localEnd - n, a.v, b.v);
    ShiftNothing(once.k, sink, once.localEnd);
    ShiftNothing(once.v, sink, once.localEnd);
  }

  lemma {:induction false} PlaceTwice<T>(buf: seq<T>, at: nat, a: seq<T>, b: seq<T>)
    requires at + |a| <= |buf| && |a| == |b|
    ensures Place(Place(buf, at, a), at, b) == Place(buf, at, b)
  {
  }

  lemma {:induction false} ShiftNothing<T>(buf: seq<T>, sink: nat, localEnd: nat)
    requires localEnd <= |buf|
    ensures Shift(buf, sink, localEnd, 0) == buf
  {
  }

  /** However many passes rewrote the chunk, only the last one is left, and it is the physical tail
      `[localEnd - n : localEnd]` that gets ingested, rolled or not. */
  lemma {:induction false} OnlyLastPassRemains<T>(r: Ring<T>, sink: nat, passes: seq<KV<T>>, n: nat, start: nat)
    requires passes != [] && SameSize(passes, n) && Fits(r, n, start) && start + n >= r.globalEnd
    ensures var r' := WriteAll(r, sink, passes, n, start);
      var last := passes[|passes| - 1];
      && r' == Write(r, sink, last, start)
      && r'.k[r'.localEnd - n..r'.localEnd] == last.k
      && r'.v[r'.localEnd - n..r'.localEnd] == last.v
    decreases |passes|
  {
    if |passes| > 1 {
      var front := passes[..|passes| - 1];
      OnlyLastPassRemains(r, sink, front, n, start);
      RewriteReplaces(r, sink, front[|front| - 1], passes[|passes| - 1], start);
    }
  }

  // ------------------------------------------------------------------ what the buffer holds

  /** The logical token that physical slot `p` holds once `total` tokens were produced: everything
      while it fits, then the sink followed by the most recent `cap - sink`. */
  ghost function SourceIndex(cap: nat, sink: nat, total: nat, p: nat): int {
    if total <= cap || p < sink then p else total - cap + p
  }

  ghost predicate BufHolds<T>(buf: seq<T>, sink: nat, hist: seq<T>) {
    forall p :: 0 <= p < Min(|hist|, |buf|) ==>
      0 <= SourceIndex(|buf|, sink, |hist|, p) < |hist| && buf[p] == hist[SourceIndex(|buf|, sink, |hist|, p)]
  }

  ghost predicate Holds<T>(r: Ring<T>, sink: nat, hist: KV<T>) {
    && r.Valid() && |hist.k| == |hist.v|
    && r.globalEnd == |hist.k| && r.localEnd == Min(|hist.k|, |r.k|)
    && BufHolds(r.k, sink, hist.k) && BufHolds(r.v, sink, hist.v)
  }

  /** Two buffers that hold the same history look the same to the model. */
  lemma {:induction false} SameHistorySameView<T>(a: Ring<T>, b: Ring<T>, sink: nat, hist: KV<T>)
    requires Holds(a, sink, hist) && Holds(b, sink, hist) && |a.k| == |b.k|
    ensures a.Visible() == b.Visible()
  {
    forall p | 0 <= p < a.localEnd ensures a.k[p] == b.k[p] && a.v[p] == b.v[p] {
      assert 0 <= SourceIndex(|a.k|, sink, |hist.k|, p) < |hist.k|;
      assert 0 <= SourceIndex(|a.v|, sink, |hist.v|, p) < |hist.v|;
    }
    assert a.k[..a.localEnd] == b.k[..b.localEnd];
    assert a.v[..a.localEnd] == b.v[..b.localEnd];
  }

  lemma {:induction false} ShiftAt<T>(buf: seq<T>, sink: nat, localEnd: nat, evicted: nat, p: nat)
    requires localEnd <= |buf| && (sink + evicted < localEnd ==> p < localEnd - evicted) && p < |buf|
    ensures Shift(buf, sink, localEnd, evicted)[p] == if sink + evicted < localEnd && p >= sink then buf[p + evicted] else buf[p]
  {
  }

  lemma {:induction false} WriteKeepsBuf<T>(buf: seq<T>, sink: nat, hist: seq<T>, added: seq<T>)
    requires BufHolds(buf, sink, hist) && sink <= |buf|
    requires |added| <= |buf| - sink || |hist| + |added| <= |buf|
    ensures var le := Min(|hist|, |buf|);
      var e := Evicted(|buf|, |hist|, le, |added|, |hist|);
      var le' := NextLocal(|buf|, |hist|, le, |added|, |hist|);
      && |added| <= le' == Min(|hist| + |added|, |buf|)
      && BufHolds(Place(Shift(buf, sink, le, e), le' - |added|, added), sink, hist + added)
  {
    hide Shift, Place;
    var le := Min(|hist|, |buf|);
    var e := Evicted(|buf|, |hist|, le, |added|, |hist|);
    var le' := NextLocal(|buf|, |hist|, le, |added|, |hist|);
    var shifted := Shift(buf, sink, le, e);
    var out := Place(shifted, le' - |added|, added);
    forall p | 0 <= p < le'
      ensures 0 <= SourceIndex(|buf|, sink, |hist| + |added|, p) < |hist + added|
      ensures out[p] == (hist + added)[SourceIndex(|buf|, sink, |hist| + |added|, p)]
    {
      PlaceAt(shifted, le' - |added|, added, p);
      if p < le' - |added| {
        ShiftAt(buf, sink, le, e, p);
        var q := if p < sink then p else p + e;
        assert buf[q] == hist[SourceIndex(|buf|, sink, |hist|, q)];
      }
    }
  }

  /** One chunk write keeps the layout, as long as a chunk fits beside the sink or nothing rolls yet. */
  lemma {:induction false} WriteKeepsLayout<T>(r: Ring<T>, sink: nat, hist: KV<T>, chunk: KV<T>)
    requires Holds(r, sink, hist) && sink <= |r.k| && |chunk.k| == |chunk.v|
    requires |chunk.k| <= |r.k| - sink || |hist.k| + |chunk.k| <= |r.k|
    ensures Fits(r, |chunk.k|, |hist.k|)
    ensures Holds(Write(r, sink, chunk, |hist.k|), sink, KV(hist.k + chunk.k, hist.v + chunk.v))
  {
    hide BufHolds, Shift, Place;
    WriteKeepsBuf(r.k, sink, hist.k, chunk.k);
    WriteKeepsBuf(r.v, sink, hist.v, chunk.v);
  }

  // ------------------------------------------------------------------ whole cold runs

  /** Chunk by chunk concatenation of the clean KV. */
  ghost function Flatten<T>(chunks: seq<KV<T>>): KV<T>
  {
    if chunks == [] then KV([], [])
    else
      var h, last := Flatten(chunks[..|chunks| - 1]), chunks[|chunks| - 1];
      KV(h.k + last.k, h.v + last.v)
  }

  lemma {:induction false} FlattenSize<T>(chunks: seq<KV<T>>, n: nat)
    requires SameSize(chunks, n)
    ensures |Flatten(chunks).k| == |Flatten(chunks).v| == Times(|chunks|, n)
  {
    if chunks != [] {
      FlattenSize(chunks[..|chunks| - 1], n);
    }
  }

  lemma {:induction false} FlattenSlice<T>(chunks: seq<KV<T>>, n: nat, i: nat)
    requires SameSize(chunks, n) && i < |chunks|
    ensures Times(i, n) + n <= |Flatten(chunks).k| == |Flatten(chunks).v|
    ensures Flatten(chunks).k[Times(i, n)..Times(i, n) + n] == chunks[i].k
    ensures Flatten(chunks).v[Times(i, n)..Times(i, n) + n] == chunks[i].v
  {
    var m, h := |chunks| - 1, Flatten(chunks);
    FlattenSize(chunks, n);
    FlattenSize(chunks[..m], n);
    TimesMono(i + 1, |chunks|, n);
    if i < m {
      FlattenSlice(chunks[..m], n, i);
      var front := Flatten(chunks[..m]);
      assert h.k[Times(i, n)..Times(i, n) + n] == front.k[Times(i, n)..Times(i, n) + n];
      assert h.v[Times(i, n)..Times(i, n) + n] == front.v[Times(i, n)..Times(i, n) + n];
    }
  }

  /** The buffer of a run that starts empty and writes the chunks in order. */
  ghost function ColdRing<T>(empty: Ring<T>, sink: nat, chunks: seq<KV<T>>, n: nat): (r: Ring<T>)
    requires empty.Valid() && empty.globalEnd == empty.localEnd == 0
    requires SameSize(chunks, n) && n <= |empty.k|
    ensures r.Valid() && |r.k| == |empty.k| && r.globalEnd == Times(|chunks|, n)
    ensures r.localEnd == Min(Times(|chunks|, n), |empty.k|)
  {
    if chunks == [] then empty
    else
      var m := |chunks| - 1;
      Write(ColdRing(empty, sink, chunks[..m], n), sink, chunks[m], Times(m, n))
  }

  lemma {:induction false} ColdRingHolds<T>(empty: Ring<T>, sink: nat, chunks: seq<KV<T>>, n: nat)
    requires empty.Valid() && empty.globalEnd == empty.localEnd == 0 && sink <= |empty.k|
    requires SameSize(chunks, n) && n <= |empty.k|
    requires n <= |empty.k| - sink || Times(|chunks|, n) <= |empty.k|
    ensures Holds(ColdRing(empty, sink, chunks, n), sink, Flatten(chunks))
  {
    if chunks != [] {
      var m := |chunks| - 1;
      ColdRingHolds(empty, sink, chunks[..m], n);
      FlattenSize(chunks[..m], n);
      WriteKeepsLayout(ColdRing(empty, sink, chunks[..m], n), sink, Flatten(chunks[..m]), chunks[m]);
    }
  }

  /** The newest chunk is always the physical tail, rolled or not. */
  lemma {:induction false} ColdTail<T>(empty: Ring<T>, sink: nat, chunks: seq<KV<T>>, n: nat, j: nat)
    requires empty.Valid() && empty.globalEnd == empty.localEnd == 0 && chunks != []
    requires SameSize(chunks, n) && n <= |empty.k| && j < n
    ensures var r := ColdRing(empty, sink, chunks, n);
      0 <= r.localEnd - n && r.k[r.localEnd - n + j] == chunks[|chunks| - 1].k[j]
  {
    hide Shift, Place;
    var m := |chunks| - 1;
    var r := ColdRing(empty, sink, chunks[..m], n);
    var e := Evicted(|r.k|, r.globalEnd, r.localEnd, n, Times(m, n));
    var le := NextLocal(|r.k|, r.globalEnd, r.localEnd, n, Times(m, n));
    var all := ColdRing(empty, sink, chunks, n);
    assert all == Write(r, sink, chunks[m], Times(m, n));
    assert all.localEnd == le && all.k == Place(Shift(r.k, sink, r.localEnd, e), le - n, chunks[m].k);
    PlaceAt(Shift(r.k, sink, r.localEnd, e), le - n, chunks[m].k, le - n + j);
  }
}
