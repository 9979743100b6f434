/** Rebuilding the ring at a resume point: which frames, from which cached chunks, into which slots. */
module Window {
  import opened Arith
  import opened Ring

  /** KV geometry of a runtime: `frames` buffer frames of which `sink` never roll off, `chunk` frames
      per chunk, `tokens` tokens per frame. */
  datatype Geometry = Geometry(frames: nat, sink: nat, chunk: nat, tokens: nat) {
    ghost predicate Valid() {
      1 <= chunk <= frames && 1 <= tokens && sink <= frames
    }
    /** A whole chunk fits beside the sink, so eviction never has to touch the sink. */
    ghost predicate Roomy() {
      frames - sink >= chunk
    }
    ghost function ChunkTokens(): nat { Times(chunk, tokens) }
    ghost function Capacity(): nat { Times(frames, tokens) }
    ghost function SinkTokens(): nat { Times(sink, tokens) }
  }

  datatype Config = Config(windowChunks: nat, sinkChunks: nat, breakEvenK: nat)

  function MakeRollingConfig(localAttnSize: nat, sinkSize: nat, chunkSize: nat, breakEvenK: nat): Config
    requires chunkSize >= 1
  {
    var recent := if localAttnSize - sinkSize >= 1 then localAttnSize - sinkSize else 1;
    Config(CeilDiv(recent, chunkSize), CeilDiv(sinkSize, chunkSize), breakEvenK)
  }

  function MakeFullKvConfig(breakEvenK: nat): Config {
    Config(1_000_000, 1, breakEvenK)
  }

  function Range(lo: nat, hi: nat): (r: seq<nat>)
    ensures |r| == if lo < hi then hi - lo else 0
    ensures forall i :: 0 <= i < |r| ==> r[i] == lo + i
  {
    seq(if lo < hi then hi - lo else 0, i requires 0 <= i => lo + i)
  }

  /** The frames a ring of `bufFrames` holds once `total` frames were generated, by physical slot. */
  function FramesToSeed(bufFrames: nat, sink: nat, total: nat): seq<nat>
    requires sink <= bufFrames
  {
    if total <= bufFrames then Range(0, total)
    else Range(0, sink) + Range(total - (bufFrames - sink), total)
  }

  /** The depths `_window_path` returns for a node at depth `k - 1`: sinks, then the last `window`. */
  function WindowDepths(k: nat, cfg: Config): seq<nat> {
    var lo := if k > cfg.windowChunks then k - cfg.windowChunks else 0;
    Range(0, if cfg.sinkChunks < lo then cfg.sinkChunks else lo) + Range(lo, k)
  }


  // ------------------------------------------------------------------ the window has every chunk

  /** The node's own chunk and the source chunk of every frame the ring needs are in the window. */
  ghost predicate Covers(g: Geometry, cfg: Config, k: nat)
    requires g.Valid() && k >= 1
  {
    var w := WindowDepths(k, cfg);
    && w != [] && w[|w| - 1] == k - 1
    && forall f :: f in FramesToSeed(g.frames, g.sink, Times(k, g.chunk)) ==> ChunkOf(f, g.chunk) in w
  }

  lemma {:induction false} WindowIncreases(k: nat, cfg: Config)
    ensures var w := WindowDepths(k, cfg);
      forall i, j :: 0 <= i < j < |w| ==> w[i] < w[j]
    ensures forall d :: d in WindowDepths(k, cfg) ==> d < k
  {
  }

  /** With the config built from the runtime's own geometry, the manager's window is strictly
      increasing, bounded, and has the source chunk of every frame the ring needs. */
  lemma {:induction false} WindowSufficient(g: Geometry, k: nat, breakEvenK: nat)
    requires g.Valid() && k >= 1
    ensures var cfg := MakeRollingConfig(g.frames, g.sink, g.chunk, breakEvenK);
      var w := WindowDepths(k, cfg);
      && (forall i, j :: 0 <= i < j < |w| ==> w[i] < w[j] < k)
      && |w| <= cfg.windowChunks + cfg.sinkChunks && Covers(g, cfg, k)
  {
    var c := g.chunk;
    var cfg := MakeRollingConfig(g.frames, g.sink, c, breakEvenK);
    var w := WindowDepths(k, cfg);
    var lo := if k > cfg.windowChunks then k - cfg.windowChunks else 0;
    var sinks := if cfg.sinkChunks < lo then cfg.sinkChunks else lo;
    forall f | f in FramesToSeed(g.frames, g.sink, Times(k, c)) ensures ChunkOf(f, c) in w {
      var d := ChunkOf(f, c);
      ChunkBound(f, c, k);
      if d >= lo {
        assert w[sinks + d - lo] == d;
      } else {
        SinkCovers(g, k, cfg, f);
        assert w[d] == d;
      }
    }
  }

  /** A needed frame below the recent chunks is a sink frame, rolled or not. */
  lemma {:induction false} SinkCovers(g: Geometry, k: nat, cfg: Config, f: nat)
    requires g.Valid() && k > cfg.windowChunks && g.sink <= Times(cfg.sinkChunks, g.chunk)
    requires g.frames - g.sink <= Times(cfg.windowChunks, g.chunk)
    requires ChunkOf(f, g.chunk) < k - cfg.windowChunks && f in FramesToSeed(g.frames, g.sink, Times(k, g.chunk))
    ensures ChunkOf(f, g.chunk) < cfg.sinkChunks
  {
    ChunkBound(f, g.chunk, k - cfg.windowChunks);
    ChunkBound(f, g.chunk, cfg.sinkChunks);
    TimesAdd(k - cfg.windowChunks, cfg.windowChunks, g.chunk);
  }

  /** The window is the chunks of the sink and the most recent ones. */
  lemma {:induction false} DepthsAre(k: nat, cfg: Config, d: nat)
    ensures d in WindowDepths(k, cfg) <==> d < k && (d < cfg.sinkChunks || d + cfg.windowChunks >= k)
  {
    var w := WindowDepths(k, cfg);
    var lo := if k > cfg.windowChunks then k - cfg.windowChunks else 0;
    var sinks := if cfg.sinkChunks < lo then cfg.sinkChunks else lo;
    if d < sinks { assert w[d] == d; } else if lo <= d < k { assert w[sinks + d - lo] == d; }
  }

  lemma {:induction false} CoversMore(g: Geometry, a: Config, b: Config, k: nat)
    requires g.Valid() && k >= 1 && a.windowChunks <= b.windowChunks && a.sinkChunks <= b.sinkChunks && Covers(g, a, k)
    ensures Covers(g, b, k)
  {
    forall d: nat | d in WindowDepths(k, a) ensures d in WindowDepths(k, b) {
      DepthsAre(k, a, d);
      DepthsAre(k, b, d);
    }
    DepthsAre(k, a, k - 1);
    WindowIncreases(k, b);
  }

  lemma {:induction false} NeedsRecent(g: Geometry, cfg: Config, k: nat)
    requires g.Valid() && k > g.frames
    requires var recent := if g.frames - g.sink >= 1 then g.frames - g.sink else 1;
      cfg.windowChunks < CeilDiv(recent, g.chunk) && cfg.sinkChunks + CeilDiv(recent, g.chunk) <= k
    ensures !Covers(g, cfg, k)
  {
    var c, recent := g.chunk, if g.frames - g.sink >= 1 then g.frames - g.sink else 1;
    var n := CeilDiv(recent, c);
    var d := k - n;
    TimesAtLeast(k, c);
    if g.frames == g.sink {
      DepthsAre(k, cfg, k - 1);
      TimesAtLeast(n - 1, c);
    } else {
      var f, frames := Times(k, c) - recent, FramesToSeed(g.frames, g.sink, Times(k, c));
      assert frames[g.sink] == f;
      TimesAdd(d, n, c);
      TimesAdd(d + 1, n - 1, c);
      ChunkBound(f, c, d);
      ChunkBound(f, c, d + 1);
      DepthsAre(k, cfg, ChunkOf(f, c));
    }
  }

  lemma {:induction false} NeedsSink(g: Geometry, cfg: Config, k: nat)
    requires g.Valid() && k > g.frames && g.sink >= 1
    requires cfg.sinkChunks < CeilDiv(g.sink, g.chunk) && CeilDiv(g.sink, g.chunk) + cfg.windowChunks <= k
    ensures !Covers(g, cfg, k)
  {
    var c, f, frames := g.chunk, g.sink - 1, FramesToSeed(g.frames, g.sink, Times(k, g.chunk));
    var n := CeilDiv(g.sink, c);
    TimesAtLeast(k, c);
    assert frames[f] == f;
    ChunkBound(f, c, n - 1);
    ChunkBound(f, c, n);
    DepthsAre(k, cfg, ChunkOf(f, c));
  }

  /** The rolling config is the least one whose window has the source chunk of every frame, whatever the length. */
  lemma {:induction false} RollingConfigIsLeast(g: Geometry, cfg: Config, breakEvenK: nat)
    requires g.Valid()
    ensures var least := MakeRollingConfig(g.frames, g.sink, g.chunk, breakEvenK);
      (forall k: nat :: k >= 1 ==> Covers(g, cfg, k)) <==>
        cfg.windowChunks >= least.windowChunks && cfg.sinkChunks >= least.sinkChunks
    ensures MakeRollingConfig(g.frames, g.sink, g.chunk, breakEvenK).breakEvenK == breakEvenK
  {
    var least := MakeRollingConfig(g.frames, g.sink, g.chunk, breakEvenK);
    if cfg.windowChunks < least.windowChunks {
      NeedsRecent(g, cfg, cfg.sinkChunks + least.windowChunks + g.frames + 1);
    } else if cfg.sinkChunks < least.sinkChunks {
      if g.sink == 0 { ChunkOfIs(0, g.chunk); }
      NeedsSink(g, cfg, least.sinkChunks + cfg.windowChunks + g.frames + 1);
    } else {
      forall k: nat | k >= 1 ensures Covers(g, cfg, k) {
        WindowSufficient(g, k, breakEvenK);
        CoversMore(g, least, cfg, k);
      }
    }
  }

  /** The full-length config keeps one sink chunk and a million recent ones. For a buffer that never
      rolls, which needs the whole prefix, that is enough exactly up to a million and one chunks. */
  lemma {:induction false} FullConfigCoversIff(g: Geometry, k: nat, breakEvenK: nat)
    requires g.Valid() && k >= 1 && Times(k, g.chunk) <= g.frames
    ensures Covers(g, MakeFullKvConfig(breakEvenK), k) <==> k <= 1_000_001
    ensures forall d :: d in WindowDepths(k, MakeFullKvConfig(breakEvenK)) <==> 0 <= d < k && (d == 0 || d + 1_000_000 >= k)
    ensures MakeFullKvConfig(breakEvenK).breakEvenK == breakEvenK
  {
    forall d: nat ensures d in WindowDepths(k, MakeFullKvConfig(breakEvenK)) <==> d < k && (d == 0 || d + 1_000_000 >= k) {
      DepthsAre(k, MakeFullKvConfig(breakEvenK), d);
    }
    var cfg := MakeFullKvConfig(breakEvenK);
    var w := WindowDepths(k, cfg);
    var lo := if k > 1_000_000 then k - 1_000_000 else 0;
    var sinks := if 1 < lo then 1 else lo;
    if k <= 1_000_001 {
      forall f | f in FramesToSeed(g.frames, g.sink, Times(k, g.chunk)) ensures ChunkOf(f, g.chunk) in w {
        var d := ChunkOf(f, g.chunk);
        ChunkBound(f, g.chunk, k);
        assert w[if d < lo then d else sinks + d - lo] == d;
      }
    } else {
      SecondChunkNeeded(g, k);
      assert 1 !in w;
    }
  }

  lemma {:induction false} SecondChunkNeeded(g: Geometry, k: nat)
    requires g.Valid() && k >= 2 && Times(k, g.chunk) <= g.frames
    ensures g.chunk in FramesToSeed(g.frames, g.sink, Times(k, g.chunk)) && ChunkOf(g.chunk, g.chunk) == 1
  {
    TimesMono(2, k, g.chunk);
    assert Times(2, g.chunk) == Times(1, g.chunk) + g.chunk;
    assert Times(1, g.chunk) == Times(0, g.chunk) + g.chunk;
    assert FramesToSeed(g.frames, g.sink, Times(k, g.chunk))[g.chunk] == g.chunk;
  }

  // ------------------------------------------------------------------ seeding

  /** Cached chunks by depth, for one of the two tensors, have every frame's chunk. */
  ghost predicate Serves<T>(blob: map<nat, seq<T>>, frames: seq<nat>, c: nat, ft: nat)
    requires c >= 1
  {
    forall i :: 0 <= i < |frames| ==>
      ChunkOf(frames[i], c) in blob && |blob[ChunkOf(frames[i], c)]| == Times(c, ft)
  }

  ghost function FrameSlice<T>(chunk: seq<T>, within: nat, c: nat, ft: nat): (s: seq<T>)
    requires within < c && |chunk| == Times(c, ft)
    ensures |s| == ft
  {
    TimesMono(within + 1, c, ft);
    chunk[Times(within, ft)..Times(within, ft) + ft]
  }

  /** The buffer after the first `n` frames were copied in. */
  ghost function SeedBuf<T>(buf: seq<T>, frames: seq<nat>, n: nat, blob: map<nat, seq<T>>, c: nat, ft: nat): (r: seq<T>)
    requires c >= 1 && n <= |frames| && Times(n, ft) <= |buf| && Serves(blob, frames, c, ft)
    ensures |r| == |buf|
  {
    if n == 0 then buf
    else
      var f := frames[n - 1];
      Place(SeedBuf(buf, frames, n - 1, blob, c, ft), Times(n - 1, ft), FrameSlice(blob[ChunkOf(f, c)], Within(f, c), c, ft))
  }

  lemma {:induction false} SeedBufAt<T>(buf: seq<T>, frames: seq<nat>, n: nat, blob: map<nat, seq<T>>, c: nat, ft: nat, i: nat, j: nat)
    requires c >= 1 && n <= |frames| && Times(n, ft) <= |buf| && Serves(blob, frames, c, ft)
    requires i < n && j < ft
    ensures Times(i, ft) + j < Times(n, ft) && Times(Within(frames[i], c), ft) + j < Times(c, ft)
    ensures SeedBuf(buf, frames, n, blob, c, ft)[Times(i, ft) + j]
         == blob[ChunkOf(frames[i], c)][Times(Within(frames[i], c), ft) + j]
  {
    hide Place;
    Scale(i, n, ft);
    Scale(Within(frames[i], c), c, ft);
    var front, last := SeedBuf(buf, frames, n - 1, blob, c, ft), frames[n - 1];
    if i < n - 1 {
      Scale(i, n - 1, ft);
      SeedBufAt(buf, frames, n - 1, blob, c, ft, i, j);
    }
    PlaceAt(front, Times(n - 1, ft), FrameSlice(blob[ChunkOf(last, c)], Within(last, c), c, ft), Times(i, ft) + j);
  }

  /** `dict(blobs)` for one of the two tensors: later pairs win. */
  ghost function Dict<T>(blobs: seq<(nat, KV<T>)>, v: bool): map<nat, seq<T>> {
    if blobs == [] then map[]
    else
      var (d, kv) := blobs[|blobs| - 1];
      Dict(blobs[..|blobs| - 1], v)[d := if v then kv.v else kv.k]
  }

  /** The runtime side of one materialization. */
  class RingKVWindow<T> {
    const layers: seq<KVLayer<T>>
    const bufFrames: nat
    const frameTokens: nat
    const chunkSize: nat
    const sink: nat
    var localEndTokens: nat

    ghost predicate Valid()
      reads layers
    {
      && frameTokens >= 1 && chunkSize >= 1 && sink <= bufFrames
      && (forall i :: 0 <= i < |layers| ==> layers[i].Valid() && layers[i].k.Length == Times(bufFrames, frameTokens))
      && (forall i, j :: 0 <= i < j < |layers| ==>
            layers[i] != layers[j] && layers[i].k != layers[j].k && layers[i].k != layers[j].v
            && layers[i].v != layers[j].k && layers[i].v != layers[j].v)
    }

    constructor (layers: seq<KVLayer<T>>, bufFrames: nat, frameTokens: nat, chunkSize: nat, sink: nat)
      ensures this.layers == layers && this.bufFrames == bufFrames && this.frameTokens == frameTokens
      ensures this.chunkSize == chunkSize && this.sink == sink && localEndTokens == 0
    {
      this.layers, this.bufFrames, this.frameTokens, this.chunkSize, this.sink := layers, bufFrames, frameTokens, chunkSize, sink;
      localEndTokens := 0;
    }

    /** Copies every needed frame from its chunk's blob. Fails, leaving the fill count alone, exactly
        when some frame's chunk was not handed over. */
    method SeedLayer(layer: nat, blobs: seq<(nat, KV<T>)>, depth: nat) returns (ok: bool)
      requires Valid() && layer < |layers|
      requires forall b :: b in blobs ==> |b.1.k| == |b.1.v| == Times(chunkSize, frameTokens)
      modifies `localEndTokens, layers[layer].k, layers[layer].v
      ensures Valid()
      ensures var kv, frames := layers[layer], FramesToSeed(bufFrames, sink, Times(depth + 1, chunkSize));
        && (ok <==> forall i :: 0 <= i < |frames| ==> ChunkOf(frames[i], chunkSize) in Dict(blobs, false))
        && (ok ==>
              && Serves(Dict(blobs, false), frames, chunkSize, frameTokens) && Serves(Dict(blobs, true), frames, chunkSize, frameTokens)
              && Times(|frames|, frameTokens) <= kv.k.Length
              && kv.k[..] == SeedBuf(old(kv.k[..]), frames, |frames|, Dict(blobs, false), chunkSize, frameTokens)
              && kv.v[..] == SeedBuf(old(kv.v[..]), frames, |frames|, Dict(blobs, true), chunkSize, frameTokens)
              && localEndTokens == Times(|frames|, frameTokens))
        && (!ok ==> localEndTokens == old(localEndTokens))
    {
      var byDepth := DictOf(blobs, Times(chunkSize, frameTokens));
      TimesIs(depth + 1, chunkSize);
      var frames := FramesToSeed(bufFrames, sink, (depth + 1) * chunkSize);
      FramesFit(bufFrames, sink, (depth + 1) * chunkSize, frameTokens);
      ok := SeedFrames(layers[layer], frames, byDepth, Dict(blobs, false), Dict(blobs, true));
      if ok {
        TimesIs(|frames|, frameTokens);
        localEndTokens := |frames| * frameTokens;
      }
    }

    method SeedFrames(kv: KVLayer<T>, frames: seq<nat>, byDepth: map<nat, KV<T>>, ghost kBlob: map<nat, seq<T>>, ghost vBlob: map<nat, seq<T>>)
      returns (ok: bool)
      requires kv.Valid() && chunkSize >= 1 && Times(|frames|, frameTokens) <= kv.k.Length
      requires byDepth.Keys == kBlob.Keys == vBlob.Keys
      requires forall d :: d in byDepth ==> byDepth[d] == KV(kBlob[d], vBlob[d]) && |kBlob[d]| == |vBlob[d]| == Times(chunkSize, frameTokens)
      modifies kv.k, kv.v
      ensures ok <==> forall i :: 0 <= i < |frames| ==> ChunkOf(frames[i], chunkSize) in kBlob
      ensures ok ==>
        && Serves(kBlob, frames, chunkSize, frameTokens) && Serves(vBlob, frames, chunkSize, frameTokens)
        && kv.k[..] == SeedBuf(old(kv.k[..]), frames, |frames|, kBlob, chunkSize, frameTokens)
        && kv.v[..] == SeedBuf(old(kv.v[..]), frames, |frames|, vBlob, chunkSize, frameTokens)
    {
      ghost var k0, v0 := kv.k[..], kv.v[..];
      for pos := 0 to |frames|
        invariant Times(pos, frameTokens) <= kv.k.Length
        invariant Serves(kBlob, frames[..pos], chunkSize, frameTokens) && Serves(vBlob, frames[..pos], chunkSize, frameTokens)
        invariant forall i :: 0 <= i < pos ==> ChunkOf(frames[i], chunkSize) in kBlob
        invariant kv.k[..] == SeedBuf(k0, frames[..pos], pos, kBlob, chunkSize, frameTokens)
        invariant kv.v[..] == SeedBuf(v0, frames[..pos], pos, vBlob, chunkSize, frameTokens)
      {
        var d, within := Split(frames[pos], chunkSize);
        if d !in byDepth {
          return false;
        }
        TimesMono(pos + 1, |frames|, frameTokens);
        SeedBufPrefix(k0, frames, pos, kBlob, chunkSize, frameTokens);
        SeedBufPrefix(v0, frames, pos, vBlob, chunkSize, frameTokens);
        SeedFrame(kv, pos, byDepth[d], within);
      }
      assert frames[..|frames|] == frames;
      ok := true;
    }

    /** One pass of the frame loop: two slice assignments. */
    method SeedFrame(kv: KVLayer<T>, pos: nat, chunk: KV<T>, within: nat)
      requires kv.Valid() && Times(pos, frameTokens) + frameTokens <= kv.k.Length && within < chunkSize
      requires |chunk.k| == |chunk.v| == Times(chunkSize, frameTokens)
      modifies kv.k, kv.v
      ensures kv.k[..] == Place(old(kv.k[..]), Times(pos, frameTokens), FrameSlice(chunk.k, within, chunkSize, frameTokens))
      ensures kv.v[..] == Place(old(kv.v[..]), Times(pos, frameTokens), FrameSlice(chunk.v, within, chunkSize, frameTokens))
    {
      TimesIs(pos, frameTokens);
      TimesIs(within, frameTokens);
      TimesMono(within + 1, chunkSize, frameTokens);
      var off := within * frameTokens;
      Overwrite(kv.k, pos * frameTokens, chunk.k[off..off + frameTokens]);
      Overwrite(kv.v, pos * frameTokens, chunk.v[off..off + frameTokens]);
    }

    /** Moves both pointers of every layer to the resume point. */
    method SetResumeDepth(depth: nat)
      requires Valid() && localEndTokens <= Times(bufFrames, frameTokens)
      modifies layers
      ensures Valid() && localEndTokens == old(localEndTokens)
      ensures forall i :: 0 <= i < |layers| ==>
        layers[i].globalEnd == Times(Times(depth + 1, chunkSize), frameTokens) && layers[i].localEnd == localEndTokens
    {
      TimesIs(depth + 1, chunkSize);
      TimesIs(Times(depth + 1, chunkSize), frameTokens);
      var end := (depth + 1) * chunkSize * frameTokens;
      for i := 0 to |layers|
        invariant Valid() && localEndTokens == old(localEndTokens)
        invariant forall j :: 0 <= j < i ==> layers[j].globalEnd == end && layers[j].localEnd == localEndTokens
      {
        layers[i].globalEnd := end;
        layers[i].localEnd := localEndTokens;
      }
    }
  }

  method Split(f: nat, c: nat) returns (d: nat, within: nat)
    requires c >= 1
    ensures d == ChunkOf(f, c) && within == Within(f, c)
  {
    ChunkOfIs(f, c);
    d, within := f / c, f % c;
  }

  /** `dict(blobs)`: later pairs win. */
  method DictOf<T>(blobs: seq<(nat, KV<T>)>, ghost n: nat) returns (byDepth: map<nat, KV<T>>)
    requires forall b :: b in blobs ==> |b.1.k| == |b.1.v| == n
    ensures byDepth.Keys == Dict(blobs, false).Keys == Dict(blobs, true).Keys
    ensures forall d :: d in byDepth ==> byDepth[d].k == Dict(blobs, false)[d] && byDepth[d].v == Dict(blobs, true)[d]
    ensures forall d :: d in byDepth ==> |byDepth[d].k| == |byDepth[d].v| == n
  {
    byDepth := map[];
    for i := 0 to |blobs|
      invariant byDepth.Keys == Dict(blobs[..i], false).Keys == Dict(blobs[..i], true).Keys
      invariant forall d :: d in byDepth ==> byDepth[d].k == Dict(blobs[..i], false)[d] && byDepth[d].v == Dict(blobs[..i], true)[d]
      invariant forall d :: d in byDepth ==> |byDepth[d].k| == |byDepth[d].v| == n
    {
      byDepth := byDepth[blobs[i].0 := blobs[i].1];
      assert blobs[..i + 1][..i] == blobs[..i];
    }
    assert blobs[..|blobs|] == blobs;
  }

  lemma {:induction false} FramesFit(bufFrames: nat, sink: nat, total: nat, ft: nat)
    requires sink <= bufFrames
    ensures var n := |FramesToSeed(bufFrames, sink, total)|;
      n == Min(total, bufFrames) && Times(n, ft) <= Times(bufFrames, ft)
  {
    TimesMono(|FramesToSeed(bufFrames, sink, total)|, bufFrames, ft);
  }

  lemma {:induction false} SeedBufPrefix<T>(buf: seq<T>, frames: seq<nat>, n: nat, blob: map<nat, seq<T>>, c: nat, ft: nat)
    requires c >= 1 && n < |frames| && Times(n, ft) <= |buf| && Serves(blob, frames[..n], c, ft)
    requires ChunkOf(frames[n], c) in blob && |blob[ChunkOf(frames[n], c)]| == Times(c, ft)
    ensures Serves(blob, frames[..n + 1], c, ft)
    ensures SeedBuf(buf, frames[..n + 1], n, blob, c, ft) == SeedBuf(buf, frames[..n], n, blob, c, ft)
  {
    SeedBufCongruent(buf, frames[..n + 1], frames[..n], n, blob, c, ft);
  }

  lemma {:induction false} SeedBufCongruent<T>(buf: seq<T>, a: seq<nat>, b: seq<nat>, n: nat, blob: map<nat, seq<T>>, c: nat, ft: nat)
    requires c >= 1 && n <= |a| && n <= |b| && Times(n, ft) <= |buf|
    requires forall i :: 0 <= i < n ==> a[i] == b[i]
    requires Serves(blob, a, c, ft) && Serves(blob, b, c, ft)
    ensures SeedBuf(buf, a, n, blob, c, ft) == SeedBuf(buf, b, n, blob, c, ft)
  {
    if n > 0 {
      SeedBufCongruent(buf, a, b, n - 1, blob, c, ft);
    }
  }

  // ------------------------------------------------------------------ warm ring equals cold ring

  /** `blob` is a part of the run whose per-chunk concatenation is `hist`. */
  ghost predicate ChunksOf<T>(blob: map<nat, seq<T>>, hist: seq<T>, n: nat, k: nat) {
    && |hist| == Times(k, n)
    && (forall d :: d in blob ==> d < k && |blob[d]| == n)
    && (forall d :: d in blob ==> Times(d, n) + n <= |hist| && blob[d] == hist[Times(d, n)..Times(d, n) + n])
  }

  lemma {:induction false} SeededBufHolds<T>(g: Geometry, buf: seq<T>, k: nat, blob: map<nat, seq<T>>, hist: seq<T>)
    requires g.Valid() && |buf| == g.Capacity()
    requires Serves(blob, FramesToSeed(g.frames, g.sink, Times(k, g.chunk)), g.chunk, g.tokens)
    requires ChunksOf(blob, hist, g.ChunkTokens(), k)
    ensures var frames := FramesToSeed(g.frames, g.sink, Times(k, g.chunk));
      && Times(|frames|, g.tokens) == Min(|hist|, |buf|)
      && BufHolds(SeedBuf(buf, frames, |frames|, blob, g.chunk, g.tokens), g.SinkTokens(), hist)
  {
    var ft, total := g.tokens, Times(k, g.chunk);
    var frames := FramesToSeed(g.frames, g.sink, total);
    FramesFit(g.frames, g.sink, total, ft);
    TimesAssoc(k, g.chunk, ft);
    Scale(total, g.frames, ft);
    var out := SeedBuf(buf, frames, |frames|, blob, g.chunk, ft);
    forall p | 0 <= p < Min(|hist|, |buf|)
      ensures 0 <= SourceIndex(|buf|, g.SinkTokens(), |hist|, p) < |hist|
      ensures out[p] == hist[SourceIndex(|buf|, g.SinkTokens(), |hist|, p)]
    {
      SeededSlot(g, buf, k, blob, hist, p);
    }
  }

  lemma {:induction false} SeededSlot<T>(g: Geometry, buf: seq<T>, k: nat, blob: map<nat, seq<T>>, hist: seq<T>, p: nat)
    requires g.Valid() && |buf| == g.Capacity()
    requires Serves(blob, FramesToSeed(g.frames, g.sink, Times(k, g.chunk)), g.chunk, g.tokens)
    requires ChunksOf(blob, hist, g.ChunkTokens(), k) && |hist| == Times(Times(k, g.chunk), g.tokens)
    requires var n := |FramesToSeed(g.frames, g.sink, Times(k, g.chunk))|;
      p < Times(n, g.tokens) <= |buf|
    ensures var frames, at := FramesToSeed(g.frames, g.sink, Times(k, g.chunk)), SourceIndex(|buf|, g.SinkTokens(), |hist|, p);
      0 <= at < |hist| && SeedBuf(buf, frames, |frames|, blob, g.chunk, g.tokens)[p] == hist[at]
  {
    hide Times;
    var c, ft := g.chunk, g.tokens;
    var frames := FramesToSeed(g.frames, g.sink, Times(k, c));
    var i, j := Locate(p, ft, |frames|);
    var f := frames[i];
    SlotSource(g.frames, g.sink, Times(k, c), ft, f, i, j);
    SeedBufAt(buf, frames, |frames|, blob, c, ft, i, j);
    ChunkToken(blob, hist, k, c, ft, f, j);
  }

  lemma {:induction false} ChunkToken<T>(blob: map<nat, seq<T>>, hist: seq<T>, k: nat, c: nat, ft: nat, f: nat, j: nat)
    requires c >= 1 && ChunksOf(blob, hist, Times(c, ft), k) && ChunkOf(f, c) in blob && j < ft
    ensures Times(Within(f, c), ft) + j < Times(c, ft) && Times(f, ft) + j < |hist|
    ensures blob[ChunkOf(f, c)][Times(Within(f, c), ft) + j] == hist[Times(f, ft) + j]
  {
    TokenOfFrame(f, c, ft);
    Scale(Within(f, c), c, ft);
    var n, base := Times(c, ft), Times(ChunkOf(f, c), Times(c, ft));
    assert hist[base..base + n][Times(Within(f, c), ft) + j] == hist[base + (Times(Within(f, c), ft) + j)];
  }

  /** Offset of a frame inside its chunk, and of the chunk inside the run. */
  lemma {:induction false} TokenOfFrame(f: nat, c: nat, ft: nat)
    requires c >= 1
    ensures Times(ChunkOf(f, c), Times(c, ft)) + Times(Within(f, c), ft) == Times(f, ft)
  {
    ChunkSplit(f, c);
    TimesAssoc(ChunkOf(f, c), c, ft);
    TimesAdd(Times(ChunkOf(f, c), c), Within(f, c), ft);
  }

  /** Physical frame slot `i`, token `j`: the frame list and the token arithmetic agree. */
  lemma {:induction false} SlotSource(frames: nat, sink: nat, total: nat, ft: nat, f: nat, i: nat, j: nat)
    requires j < ft && sink <= frames && f < total
    requires f == if total <= frames || i < sink then i else total - frames + i
    ensures SourceIndex(Times(frames, ft), Times(sink, ft), Times(total, ft), Times(i, ft) + j) == Times(f, ft) + j
    ensures Times(f, ft) + j < Times(total, ft)
  {
    Scale(total, frames, ft);
    Scale(f, total, ft);
    if total > frames {
      Scale(i, sink, ft);
      if i >= sink {
        Scale(sink, i, ft);
        TimesAdd(f, frames, ft);
        TimesAdd(total, i, ft);
      }
    }
  }

  /** The ring a resume at chunk `k` leaves behind, on top of whatever the buffers held. */
  ghost function WarmRing<T>(g: Geometry, dirty: Ring<T>, k: nat, kBlob: map<nat, seq<T>>, vBlob: map<nat, seq<T>>): Ring<T>
    requires g.Valid() && |dirty.k| == |dirty.v| == g.Capacity()
    requires var frames := FramesToSeed(g.frames, g.sink, Times(k, g.chunk));
      Serves(kBlob, frames, g.chunk, g.tokens) && Serves(vBlob, frames, g.chunk, g.tokens)
  {
    var frames := FramesToSeed(g.frames, g.sink, Times(k, g.chunk));
    FramesFit(g.frames, g.sink, Times(k, g.chunk), g.tokens);
    Ring(SeedBuf(dirty.k, frames, |frames|, kBlob, g.chunk, g.tokens),
         SeedBuf(dirty.v, frames, |frames|, vBlob, g.chunk, g.tokens),
         Times(Times(k, g.chunk), g.tokens), Times(|frames|, g.tokens))
  }

  /** With the needed chunks of a run at hand, seeding and the pointer update leave a ring that holds
      the run, before and after rolling starts. */
  lemma {:induction false} WarmHolds<T>(g: Geometry, dirty: Ring<T>, k: nat, kBlob: map<nat, seq<T>>, vBlob: map<nat, seq<T>>, hist: KV<T>)
    requires g.Valid() && |dirty.k| == |dirty.v| == g.Capacity()
    requires var frames := FramesToSeed(g.frames, g.sink, Times(k, g.chunk));
      Serves(kBlob, frames, g.chunk, g.tokens) && Serves(vBlob, frames, g.chunk, g.tokens)
    requires ChunksOf(kBlob, hist.k, g.ChunkTokens(), k) && ChunksOf(vBlob, hist.v, g.ChunkTokens(), k)
    ensures Holds(WarmRing(g, dirty, k, kBlob, vBlob), g.SinkTokens(), hist)
  {
    SeededBufHolds(g, dirty.k, k, kBlob, hist.k);
    SeededBufHolds(g, dirty.v, k, vBlob, hist.v);
    TimesAssoc(k, g.chunk, g.tokens);
  }

  ghost function Chunks<T>(run: seq<KV<T>>, v: bool): map<nat, seq<T>> {
    map d: nat | d < |run| :: if v then run[d].v else run[d].k
  }

  /** A run of at least one chunk, a buffer about to be seeded, and a new buffer. */
  ghost predicate RunOf<T>(g: Geometry, run: seq<KV<T>>, dirty: Ring<T>, empty: Ring<T>) {
    && g.Valid() && |run| >= 1 && SameSize(run, g.ChunkTokens())
    && |dirty.k| == |dirty.v| == |empty.k| == |empty.v| == g.Capacity()
    && empty.globalEnd == empty.localEnd == 0
  }

  lemma {:induction false} RunServes<T>(g: Geometry, run: seq<KV<T>>)
    requires g.Valid() && SameSize(run, g.ChunkTokens())
    ensures var frames := FramesToSeed(g.frames, g.sink, Times(|run|, g.chunk));
      Serves(Chunks(run, false), frames, g.chunk, g.tokens) && Serves(Chunks(run, true), frames, g.chunk, g.tokens)
  {
    var frames := FramesToSeed(g.frames, g.sink, Times(|run|, g.chunk));
    forall i | 0 <= i < |frames| ensures ChunkOf(frames[i], g.chunk) < |run| {
      ChunkBound(frames[i], g.chunk, |run|);
    }
  }

  lemma {:induction false} RunIsItsChunks<T>(run: seq<KV<T>>, n: nat)
    requires SameSize(run, n)
    ensures ChunksOf(Chunks(run, false), Flatten(run).k, n, |run|)
    ensures ChunksOf(Chunks(run, true), Flatten(run).v, n, |run|)
  {
    FlattenSize(run, n);
    forall d: nat | d < |run|
      ensures Times(d, n) + n <= |Flatten(run).k| == |Flatten(run).v|
      ensures run[d].k == Flatten(run).k[Times(d, n)..Times(d, n) + n]
      ensures run[d].v == Flatten(run).v[Times(d, n)..Times(d, n) + n]
    {
      FlattenSlice(run, n, d);
    }
  }

  /** The chunks of a run at the depths of a materialization window. */
  ghost function Picked<T>(run: seq<KV<T>>, depths: seq<nat>, v: bool): map<nat, seq<T>> {
    map d: nat | d in depths && d < |run| :: if v then run[d].v else run[d].k
  }

  lemma {:induction false} PickedServes<T>(g: Geometry, cfg: Config, run: seq<KV<T>>)
    requires g.Valid() && run != [] && SameSize(run, g.ChunkTokens()) && Covers(g, cfg, |run|)
    ensures var frames, depths := FramesToSeed(g.frames, g.sink, Times(|run|, g.chunk)), WindowDepths(|run|, cfg);
      Serves(Picked(run, depths, false), frames, g.chunk, g.tokens) && Serves(Picked(run, depths, true), frames, g.chunk, g.tokens)
  {
    var frames, depths := FramesToSeed(g.frames, g.sink, Times(|run|, g.chunk)), WindowDepths(|run|, cfg);
    WindowIncreases(|run|, cfg);
    forall i | 0 <= i < |frames| ensures ChunkOf(frames[i], g.chunk) in depths && ChunkOf(frames[i], g.chunk) < |run| {
      assert frames[i] in frames;
    }
  }

  lemma {:induction false} PickedIsRun<T>(run: seq<KV<T>>, depths: seq<nat>, n: nat)
    requires SameSize(run, n)
    ensures ChunksOf(Picked(run, depths, false), Flatten(run).k, n, |run|)
    ensures ChunksOf(Picked(run, depths, true), Flatten(run).v, n, |run|)
  {
    RunIsItsChunks(run, n);
    PartOfChunks(Picked(run, depths, false), Chunks(run, false), Flatten(run).k, n, |run|);
    PartOfChunks(Picked(run, depths, true), Chunks(run, true), Flatten(run).v, n, |run|);
  }

  lemma {:induction false} PartOfChunks<T>(part: map<nat, seq<T>>, all: map<nat, seq<T>>, hist: seq<T>, n: nat, k: nat)
    requires ChunksOf(all, hist, n, k) && forall d :: d in part ==> d in all && part[d] == all[d]
    ensures ChunksOf(part, hist, n, k)
  {
  }

  lemma {:induction false} ChunkFits(g: Geometry)
    requires g.Valid()
    ensures 1 <= g.ChunkTokens() <= g.Capacity() && g.SinkTokens() <= g.Capacity()
    ensures g.Roomy() <==> g.ChunkTokens() + g.SinkTokens() <= g.Capacity()
  {
    TimesMono(g.chunk, g.frames, g.tokens);
    TimesMono(1, g.chunk, g.tokens);
    TimesMono(g.sink, g.frames, g.tokens);
    Scale(g.chunk + g.sink, g.frames, g.tokens);
    TimesAdd(g.chunk, g.sink, g.tokens);
  }

  ghost function WarmOf<T>(g: Geometry, dirty: Ring<T>, run: seq<KV<T>>): Ring<T>
    requires g.Valid() && SameSize(run, g.ChunkTokens()) && |dirty.k| == |dirty.v| == g.Capacity()
  {
    RunServes(g, run);
    WarmRing(g, dirty, |run|, Chunks(run, false), Chunks(run, true))
  }

  ghost function ColdOf<T>(g: Geometry, empty: Ring<T>, run: seq<KV<T>>): (r: Ring<T>)
    requires g.Valid() && SameSize(run, g.ChunkTokens())
    requires |empty.k| == |empty.v| == g.Capacity() && empty.globalEnd == empty.localEnd == 0
    ensures r.Valid()
  {
    ChunkFits(g);
    ColdRing(empty, g.SinkTokens(), run, g.ChunkTokens())
  }

  /** The ring rebuilt from the cached chunks looks like the ring of the run that produced them. */
  ghost predicate WarmIsCold<T>(g: Geometry, dirty: Ring<T>, empty: Ring<T>, run: seq<KV<T>>)
    requires RunOf(g, run, dirty, empty)
  {
    WarmOf(g, dirty, run).Valid() && WarmOf(g, dirty, run).Visible() == ColdOf(g, empty, run).Visible()
  }

  lemma {:induction false} WarmOfHolds<T>(g: Geometry, dirty: Ring<T>, run: seq<KV<T>>)
    requires g.Valid() && SameSize(run, g.ChunkTokens()) && |dirty.k| == |dirty.v| == g.Capacity()
    ensures Holds(WarmOf(g, dirty, run), g.SinkTokens(), Flatten(run))
  {
    RunServes(g, run);
    RunIsItsChunks(run, g.ChunkTokens());
    WarmHolds(g, dirty, |run|, Chunks(run, false), Chunks(run, true), Flatten(run));
  }

  lemma {:induction false} ColdOfHolds<T>(g: Geometry, empty: Ring<T>, run: seq<KV<T>>)
    requires g.Valid() && SameSize(run, g.ChunkTokens())
    requires |empty.k| == |empty.v| == g.Capacity() && empty.globalEnd == empty.localEnd == 0
    requires g.Roomy() || Times(|run|, g.chunk) <= g.frames
    ensures Holds(ColdOf(g, empty, run), g.SinkTokens(), Flatten(run))
  {
    ChunkFits(g);
    Scale(Times(|run|, g.chunk), g.frames, g.tokens);
    TimesAssoc(|run|, g.chunk, g.tokens);
    ColdRingHolds(empty, g.SinkTokens(), run, g.ChunkTokens());
  }

  lemma {:induction false} WarmEqualsCold<T>(g: Geometry, dirty: Ring<T>, empty: Ring<T>, run: seq<KV<T>>)
    requires RunOf(g, run, dirty, empty)
    requires g.Roomy() || Times(|run|, g.chunk) <= g.frames
    ensures WarmIsCold(g, dirty, empty, run)
  {
    WarmOfHolds(g, dirty, run);
    ColdOfHolds(g, empty, run);
    SameHistorySameView(WarmOf(g, dirty, run), ColdOf(g, empty, run), g.SinkTokens(), Flatten(run));
  }

  /** A run whose tokens are all different: token `p` of the run is the number `p`. */
  ghost function Numbered(k: nat, n: nat): (run: seq<KV<nat>>)
    ensures |run| == k && SameSize(run, n)
    ensures forall i, j :: 0 <= i < k && 0 <= j < n ==> run[i].k[j] == Times(i, n) + j
  {
    seq(k, i requires 0 <= i => NumberedChunk(Times(i, n), n))
  }

  ghost function NumberedChunk(base: nat, n: nat): (chunk: KV<nat>)
    ensures |chunk.k| == |chunk.v| == n && forall j :: 0 <= j < n ==> chunk.k[j] == base + j
  {
    var k: seq<nat> := seq(n, j requires 0 <= j => base + j);
    KV(k, k)
  }

  lemma {:induction false} NumberedFlat(k: nat, n: nat, p: nat)
    requires n >= 1 && p < Times(k, n)
    ensures |Flatten(Numbered(k, n)).k| == Times(k, n) && Flatten(Numbered(k, n)).k[p] == p
  {
    var run := Numbered(k, n);
    var i, j := Locate(p, n, k);
    FlattenSize(run, n);
    FlattenSlice(run, n, i);
    assert Flatten(run).k[Times(i, n)..Times(i, n) + n][j] == run[i].k[j];
  }

  ghost predicate Cramped(g: Geometry, k: nat) {
    !g.Roomy() && Times(k, g.chunk) > g.frames
  }

  lemma {:induction false} CrampedTokens(g: Geometry, k: nat)
    requires g.Valid() && Cramped(g, k)
    ensures k >= 1 && 1 <= g.ChunkTokens() <= g.Capacity() < Times(k, g.ChunkTokens())
    ensures g.Capacity() - g.ChunkTokens() < g.SinkTokens()
  {
    ChunkFits(g);
    Scale(g.frames, Times(k, g.chunk), g.tokens);
    TimesAssoc(k, g.chunk, g.tokens);
  }

  lemma {:induction false} WarmKeepsSink(g: Geometry, dirty: Ring<nat>, k: nat)
    requires g.Valid() && Cramped(g, k) && |dirty.k| == |dirty.v| == g.Capacity()
    ensures var warm, p := WarmOf(g, dirty, Numbered(k, g.ChunkTokens())), g.Capacity() - g.ChunkTokens();
      warm.Valid() && 0 <= p < warm.localEnd && warm.Visible().k[p] == p
  {
    var run, p := Numbered(k, g.ChunkTokens()), g.Capacity() - g.ChunkTokens();
    CrampedTokens(g, k);
    WarmOfHolds(g, dirty, run);
    NumberedFlat(k, g.ChunkTokens(), p);
    var warm := WarmOf(g, dirty, run);
    assert SourceIndex(|warm.k|, g.SinkTokens(), |Flatten(run).k|, p) == p;
  }

  lemma {:induction false} ColdLosesSink(g: Geometry, empty: Ring<nat>, k: nat)
    requires g.Valid() && Cramped(g, k)
    requires |empty.k| == |empty.v| == g.Capacity() && empty.globalEnd == empty.localEnd == 0
    ensures var cold, p := ColdOf(g, empty, Numbered(k, g.ChunkTokens())), g.Capacity() - g.ChunkTokens();
      0 <= p < cold.localEnd && cold.Visible().k[p] == Times(k - 1, g.ChunkTokens())
  {
    CrampedTokens(g, k);
    ColdTail(empty, g.SinkTokens(), Numbered(k, g.ChunkTokens()), g.ChunkTokens(), 0);
  }

  /** Otherwise the newest chunk has overwritten the top of the sink, which a resume puts back. */
  lemma {:induction false} CrampedGeometryDiverges(g: Geometry, dirty: Ring<nat>, empty: Ring<nat>, k: nat)
    requires k >= 1 && RunOf(g, Numbered(k, g.ChunkTokens()), dirty, empty) && Cramped(g, k)
    ensures !WarmIsCold(g, dirty, empty, Numbered(k, g.ChunkTokens()))
  {
    CrampedTokens(g, k);
    WarmKeepsSink(g, dirty, k);
    ColdLosesSink(g, empty, k);
  }

  /** Exactly when resuming is faithful: a chunk fits beside the sink, or the run has not rolled. */
  lemma {:induction false} WarmEqualsColdIff(g: Geometry, dirty: Ring<nat>, empty: Ring<nat>, k: nat)
    requires k >= 1 && RunOf(g, Numbered(k, g.ChunkTokens()), dirty, empty)
    ensures (forall run: seq<KV<nat>> :: |run| == k && SameSize(run, g.ChunkTokens()) ==> WarmIsCold(g, dirty, empty, run))
        <==> g.Roomy() || Times(k, g.chunk) <= g.frames
  {
    if g.Roomy() || Times(k, g.chunk) <= g.frames {
      forall run: seq<KV<nat>> | |run| == k && SameSize(run, g.ChunkTokens()) ensures WarmIsCold(g, dirty, empty, run) {
        WarmEqualsCold(g, dirty, empty, run);
      }
    } else {
      CrampedGeometryDiverges(g, dirty, empty, k);
      assert |Numbered(k, g.ChunkTokens())| == k;
    }
  }
}
