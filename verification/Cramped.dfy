/** A run of the shared cache in which a resumed session is not on the cold run, in any geometry without
    room beside the sink. */
module Cramped {
  import opened Arith
  import opened Ring
  import opened Window
  import opened Cold
  import opened Forest
  import opened Replay
  import opened ReplayProof

  /** A world to start from, and values that can be told apart. */
  datatype Palette = Palette(world: World, root: Root, act: Action, lo: Token, hi: Token, dull: Latent, bright: Latent) {
    ghost predicate Valid() {
      world.Keyed() && lo != hi && dull != bright
    }

    ghost function To(i: nat): Path {
      Path(root, seq(i, _ => act))
    }

    /** Of `k` chunks the last one differs. */
    ghost function Colour(k: nat, i: nat): Token {
      if i + 1 == k then hi else lo
    }
  }

  ghost function Painted(n: nat, t: Token): (kv: KV<Token>)
    ensures |kv.k| == |kv.v| == n && forall j :: 0 <= j < n ==> kv.k[j] == t
  {
    KV(seq(n, _ => t), seq(n, _ => t))
  }

  ghost predicate Sees(views: seq<Ring<Token>>, p: int, t: Token) {
    views != [] && 0 <= p < |views[0].k| && views[0].k[p] == t
  }

  ghost function Paint(c: Palette, g: Geometry, k: nat, i: nat, views: seq<Ring<Token>>): Chunk {
    Chunk(if Sees(views, g.Capacity() - g.ChunkTokens(), c.hi) then c.bright else c.dull, [Painted(g.ChunkTokens(), c.Colour(k, i))])
  }

  /** One layer, and a model that paints its chunks and whose latent tells what it sees in the slot where the
      newest chunk of a full buffer begins. */
  ghost function PaintedWorld(c: Palette, g: Geometry, k: nat, m: nat): (w: World)
    requires g.Valid() && c.Valid()
    ensures w.geo == g && w.cfg == MakeRollingConfig(g.frames, g.sink, g.chunk, 1) && w.Keyed() && w.Shaped()
  {
    c.world.(geo := g, cfg := MakeRollingConfig(g.frames, g.sink, g.chunk, 1), layers := 1, chunks := (_: Root) => m,
             denoise := (r: Root, i: nat, n: Noise, a: Action, views: seq<Ring<Token>>, draws: seq<Sample>) => Paint(c, g, k, i, views))
  }

  ghost function PaintedRun(c: Palette, n: nat, k: nat): (run: seq<KV<Token>>)
    ensures |run| == k && SameSize(run, n)
  {
    seq(k, i requires 0 <= i => Painted(n, c.Colour(k, i)))
  }

  // ------------------------------------------------------------------ the first session fills the cache

  /** The first session is about to generate chunk `i`, and its earlier chunks are published. */
  ghost predicate Grown(c: Palette, w: World, k: nat, m: nat, sys: Sys, i: nat)
    requires w.geo.Valid() && w.Shaped()
  {
    && i <= m && sys.sessions.Keys == {0} && OnItsWay(c, w, m, sys.sessions[0], i)
    && c.To(0) in sys.forest && (forall q :: q in sys.forest ==> |q.acts| <= i)
    && forall d :: 1 <= d <= i ==> Ready(sys.forest, c.To(d)) && Holding(c, w, k, sys.store, d)
  }

  ghost predicate OnItsWay(c: Palette, w: World, m: nat, s: Sess, i: nat)
    requires w.geo.Valid() && w.Shaped()
  {
    s.path == c.To(m) && s.phase == Running(i) && s.engine == ColdEngine(w, c.To(i)) && s.parent == c.To(i) && s.cached == map[]
  }

  ghost predicate Holding(c: Palette, w: World, k: nat, store: Store, d: nat)
    requires d >= 1
  {
    (w.key(c.To(d)), 0) in store.kv && store.kv[(w.key(c.To(d)), 0)] == Painted(w.geo.ChunkTokens(), c.Colour(k, d - 1))
  }

  lemma {:induction false} PathGrows(c: Palette, i: nat, m: nat)
    requires i <= m
    ensures c.To(m).Prefix(i) == c.To(i) && c.To(i).Child(c.act) == c.To(i + 1)
    ensures c.To(i + 1).acts != [] && c.To(i + 1).Parent() == c.To(i)
  {
  }

  lemma {:induction false} Started(c: Palette, g: Geometry, k: nat, m: nat, mode: Mode)
    requires g.Valid() && c.Valid() && 1 <= k <= m
    ensures var w := PaintedWorld(c, g, k, m); Grown(c, w, k, m, Next(w, mode, Next(w, mode, INIT, Open(0, c.To(m))), Lookup(0)), 0)
  {
    var w := PaintedWorld(c, g, k, m);
    PathGrows(c, 0, m);
    var s1 := Next(w, mode, INIT, Open(0, c.To(m)));
    assert s1.forest == map[c.To(0) := ROOT_ROW];
    assert c.To(m).Prefix(1) !in s1.forest;
    assert Match(s1.forest, c.To(m), 0) == 0;
    assert ColdEngine(w, c.To(0)) == FreshEngine(w, c.root);
  }

  ghost predicate TailsFit(n: nat, e: Engine) {
    forall l :: 0 <= l < |e.rings| ==> e.rings[l].Valid() && n <= e.rings[l].localEnd
  }

  /** The engine after a chunk of action `act`, and what it wrote. */
  ghost predicate Generates(c: Palette, w: World, i: nat, kv: KV<Token>)
    requires w.geo.Valid() && w.Shaped()
  {
    var e := ColdEngine(w, c.To(i + 1));
    && At(w, ColdEngine(w, c.To(i)), i) && w.ShapedChunk(Compute(w, c.root, i, c.act, ColdEngine(w, c.To(i))))
    && Advance(w, c.root, i, c.act, ColdEngine(w, c.To(i))) == e && TailsFit(w.geo.ChunkTokens(), e) && Tail(w, e) == [kv]
  }

  lemma {:induction false} GeneratesPainted(c: Palette, g: Geometry, k: nat, m: nat, i: nat)
    requires g.Valid() && c.Valid()
    ensures Generates(c, PaintedWorld(c, g, k, m), i, Painted(g.ChunkTokens(), c.Colour(k, i)))
  {
    var w := PaintedWorld(c, g, k, m);
    PathGrows(c, i, i);
    assert At(w, ColdEngine(w, c.To(i)), |c.To(i).acts|);
    TailIsChunk(w, c.root, i, c.act, ColdEngine(w, c.To(i)));
  }

  lemma {:induction false} WritesThrough(c: Palette, w: World, sys: Sys, i: nat, kv: KV<Token>, latent: Latent)
    requires w.Keyed() && c.To(i) in sys.forest
    ensures var p, sys' := c.To(i + 1), WriteThrough(w, Mode(true, false), sys, c.To(i + 1), c.To(i + 1), [kv], latent);
      && Ready(sys'.forest, p) && sys'.forest.Keys == sys.forest.Keys + {p} && (forall q :: q in sys.forest && q != p ==> sys'.forest[q] == sys.forest[q])
      && sys'.store.kv == sys.store.kv[(w.key(p), 0) := kv] && sys'.sessions == sys.sessions
  {
    assert PutLayers(sys.store.kv, w.key(c.To(i + 1)), [kv], 1) == PutLayers(sys.store.kv, w.key(c.To(i + 1)), [kv], 0)[(w.key(c.To(i + 1)), 0) := kv];
  }

  lemma {:induction false} DistinctDepths(c: Palette, w: World, i: nat, j: nat)
    requires w.Keyed()
    ensures w.key(c.To(i)) == w.key(c.To(j)) <==> i == j
    ensures c.To(i) == c.To(j) <==> i == j
  {
    assert w.pathOf(w.key(c.To(i))) == c.To(i) && w.pathOf(w.key(c.To(j))) == c.To(j);
    assert |c.To(i).acts| == i && |c.To(j).acts| == j;
  }

  lemma {:induction false} DeliveredIs(c: Palette, w: World, m: nat, sys: Sys, i: nat, kv: KV<Token>)
    requires w.geo.Valid() && w.Shaped() && i < m && 0 in sys.sessions && OnItsWay(c, w, m, sys.sessions[0], i) && Generates(c, w, i, kv)
    ensures var s, sys' := sys.sessions[0], Next(w, Mode(true, false), sys, Deliver(0));
      var latent := Compute(w, c.root, i, c.act, ColdEngine(w, c.To(i))).latent;
      sys' == WriteThrough(w, Mode(true, false), sys, c.To(i + 1), c.To(i + 1), [kv], latent).(sessions := sys.sessions[0 :=
        s.(phase := Running(i + 1), engine := ColdEngine(w, c.To(i + 1)), parent := c.To(i + 1), out := s.out + [latent])])
  {
    hide ColdEngine, Advance, Compute;
    PathGrows(c, i, m);
    PathGrows(c, i + 1, m);
  }

  lemma {:induction false} GrownNext(c: Palette, w: World, k: nat, m: nat, sys: Sys, i: nat)
    requires w.geo.Valid() && w.Shaped() && w.Keyed() && i < k <= m && Grown(c, w, k, m, sys, i)
    requires Generates(c, w, i, Painted(w.geo.ChunkTokens(), c.Colour(k, i)))
    ensures Grown(c, w, k, m, Next(w, Mode(true, false), sys, Deliver(0)), i + 1)
  {
    hide ColdEngine, Advance, Compute, Next, WriteThrough, Generates, Ready, Painted;
    var kv, latent := Painted(w.geo.ChunkTokens(), c.Colour(k, i)), Compute(w, c.root, i, c.act, ColdEngine(w, c.To(i))).latent;
    DeliveredIs(c, w, m, sys, i, kv);
    assert c.To(i) in sys.forest by { if i > 0 { assert Ready(sys.forest, c.To(i)); ReadyIsThere(sys.forest, c.To(i)); } }
    WritesThrough(c, w, sys, i, kv, latent);
    var sys' := Next(w, Mode(true, false), sys, Deliver(0));
    forall d | 1 <= d <= i + 1 ensures Ready(sys'.forest, c.To(d)) && Holding(c, w, k, sys'.store, d) {
      DistinctDepths(c, w, d, i + 1);
      if d <= i {
        assert Ready(sys.forest, c.To(d)) && Holding(c, w, k, sys.store, d);
        ReadyIsThere(sys.forest, c.To(d));
        ReadyStays(sys.forest, sys'.forest, c.To(d));
      }
    }
  }

  lemma {:induction false} ReadyIsThere(f: Forest, p: Path)
    requires Ready(f, p)
    ensures p in f
  {
  }

  lemma {:induction false} ReadyStays(f: Forest, f': Forest, p: Path)
    requires Ready(f, p) && p in f' && f'[p] == f[p]
    ensures Ready(f', p)
  {
  }

  ghost function Filling(c: Palette, m: nat, i: nat): seq<Event> {
    [Open(0, c.To(m)), Lookup(0)] + seq(i, _ => Deliver(0))
  }

  lemma {:induction false} RunSnoc(w: World, mode: Mode, events: seq<Event>, e: Event)
    requires w.geo.Valid() && w.Shaped()
    ensures Run(w, mode, events + [e]) == Next(w, mode, Run(w, mode, events), e)
  {
    assert (events + [e])[..|events|] == events;
  }

  lemma {:induction false} FillsFirst(c: Palette, g: Geometry, k: nat, m: nat)
    requires g.Valid() && c.Valid() && 1 <= k <= m
    ensures var w := PaintedWorld(c, g, k, m); Grown(c, w, k, m, Run(w, Mode(true, false), Filling(c, m, 0)), 0)
  {
    hide Grown, Next, PaintedWorld;
    var w, mode := PaintedWorld(c, g, k, m), Mode(true, false);
    RunSnoc(w, mode, [], Open(0, c.To(m)));
    RunSnoc(w, mode, [Open(0, c.To(m))], Lookup(0));
    assert Filling(c, m, 0) == [Open(0, c.To(m))] + [Lookup(0)] && [Open(0, c.To(m))] == [] + [Open(0, c.To(m))];
    Started(c, g, k, m, mode);
  }

  lemma {:induction false} Fills(c: Palette, g: Geometry, k: nat, m: nat, i: nat)
    requires g.Valid() && c.Valid() && 1 <= k <= m && i <= k
    ensures var w := PaintedWorld(c, g, k, m); Grown(c, w, k, m, Run(w, Mode(true, false), Filling(c, m, i)), i)
  {
    hide Grown, Next, PaintedWorld, Run;
    if i == 0 {
      FillsFirst(c, g, k, m);
    } else {
      var w, mode := PaintedWorld(c, g, k, m), Mode(true, false);
      assert Filling(c, m, i) == Filling(c, m, i - 1) + [Deliver(0)];
      RunSnoc(w, mode, Filling(c, m, i - 1), Deliver(0));
      Fills(c, g, k, m, i - 1);
      GeneratesPainted(c, g, k, m, i - 1);
      GrownNext(c, w, k, m, Run(w, mode, Filling(c, m, i - 1)), i - 1);
    }
  }

  // ------------------------------------------------------------------ the second session resumes from it

  /** The first `k` chunks are there for a session on the same path, and no more. */
  ghost predicate Ripe(c: Palette, w: World, k: nat, sys: Sys)
    requires w.geo.Valid() && w.Shaped()
  {
    && c.To(0) in sys.forest && (forall q :: q in sys.forest ==> |q.acts| <= k)
    && forall d :: 1 <= d <= k ==> Ready(sys.forest, c.To(d)) && Holding(c, w, k, sys.store, d)
  }

  lemma {:induction false} MatchesAll(c: Palette, f: Forest, k: nat, m: nat)
    requires 1 <= k <= m && (forall q :: q in f ==> |q.acts| <= k) && forall d :: 1 <= d <= k ==> Ready(f, c.To(d))
    ensures Match(f, c.To(m), 0) == k
  {
    var p := c.To(m);
    forall d | 1 <= d <= k ensures Ready(f, p.Prefix(d)) { PathGrows(c, d, m); }
    forall j | k < j <= |p.acts| ensures !AllReady(f, p, j) { assert !Ready(f, p.Prefix(k + 1)); }
    MatchIsLongest(f, p, 0, k);
  }

  lemma {:induction false} OpensAndLooks(c: Palette, w: World, k: nat, m: nat, sys: Sys)
    requires w.geo.Valid() && w.Shaped() && 1 <= k <= m && w.cfg.breakEvenK == 1 && w.chunks(c.root) == m && 1 !in sys.sessions && Ripe(c, w, k, sys)
    ensures var sys' := Next(w, Mode(true, false), Next(w, Mode(true, false), sys, Open(1, c.To(m))), Lookup(1));
      && 1 in sys'.sessions && sys'.sessions[1] == Sess(c.To(m), Hinted(k), FreshEngine(w, c.root), 0, c.To(0), map[], [])
      && sys'.forest == sys.forest && sys'.store == sys.store
  {
    hide Ready;
    PathGrows(c, 0, m);
    MatchesAll(c, sys.forest, k, m);
  }

  lemma {:induction false} WindowIsRipe(c: Palette, w: World, k: nat, m: nat, sys: Sys)
    requires w.geo.Valid() && w.Shaped() && 1 <= k <= m && Ripe(c, w, k, sys) && Covers(w.geo, w.cfg, k)
    ensures var held := WindowPaths(w, c.To(m), k); held != {} && forall q :: q in held ==> Ready(sys.forest, q)
  {
    hide Ready;
    var held := WindowPaths(w, c.To(m), k);
    forall d | 1 <= d <= k ensures c.To(m).Prefix(d) == c.To(d) { PathGrows(c, d, m); }
    assert k - 1 in WindowDepths(k, w.cfg);
    assert c.To(m).Prefix(k) in held;
  }

  lemma {:induction false} Materializes(c: Palette, w: World, k: nat, m: nat, sys: Sys)
    requires w.geo.Valid() && w.Shaped() && 1 <= k <= m && Ripe(c, w, k, sys) && Covers(w.geo, w.cfg, k)
    requires 1 in sys.sessions && sys.sessions[1].path == c.To(m) && sys.sessions[1].phase == Hinted(k)
    ensures var sys' := Next(w, Mode(true, false), sys, Materialize(1));
      1 in sys'.sessions && sys'.sessions[1] == sys.sessions[1].(phase := Seeding(k, 0)) && sys'.store == sys.store
  {
    hide Ready, WindowPaths;
    WindowIsRipe(c, w, k, m, sys);
  }

  lemma {:induction false} FetchesPainted(c: Palette, w: World, k: nat, m: nat, store: Store, v: bool)
    requires w.geo.Valid() && 1 <= k <= m && forall d :: 1 <= d <= k ==> Holding(c, w, k, store, d)
    ensures Fetched(w, store, c.To(m), k, 0, v) == Picked(PaintedRun(c, w.geo.ChunkTokens(), k), WindowDepths(k, w.cfg), v)
    ensures forall d :: d in WindowDepths(k, w.cfg) ==> d < k && (w.key(c.To(m).Prefix(d + 1)), 0) in store.kv
  {
    hide Painted;
    WindowIncreases(k, w.cfg);
    var p, depths, run := c.To(m), WindowDepths(k, w.cfg), PaintedRun(c, w.geo.ChunkTokens(), k);
    forall d | d in depths ensures d < k && (w.key(p.Prefix(d + 1)), 0) in store.kv && store.kv[(w.key(p.Prefix(d + 1)), 0)] == run[d] {
      PathGrows(c, d + 1, m);
      assert Holding(c, w, k, store, d + 1);
    }
    FetchedIsPicked(w.key, store, p, depths, k, 0, run, v);
  }

  /** What the window of the painted run seeds. */
  ghost predicate SeededWith(c: Palette, w: World, k: nat, warm: Ring<Token>)
    requires w.geo.Valid()
  {
    Holds(warm, w.geo.SinkTokens(), Flatten(PaintedRun(c, w.geo.ChunkTokens(), k))) && |warm.k| == w.geo.Capacity()
  }

  lemma {:induction false} SeedsPainted(c: Palette, w: World, k: nat, m: nat, sys: Sys)
    requires w.geo.Valid() && w.Shaped() && 1 <= k <= m && w.layers == 1 && Covers(w.geo, w.cfg, k)
    requires forall d :: 1 <= d <= k ==> Holding(c, w, k, sys.store, d)
    requires 1 in sys.sessions && sys.sessions[1].path == c.To(m) && sys.sessions[1].phase == Seeding(k, 0)
    requires sys.sessions[1].engine == FreshEngine(w, c.root)
    ensures var sys' := Next(w, Mode(true, false), sys, SeedOne(1));
      && 1 in sys'.sessions && sys'.sessions[1].path == c.To(m) && sys'.sessions[1].phase == Seeding(k, 1)
      && |sys'.sessions[1].engine.rings| == 1 && SeededWith(c, w, k, PointAt(w, sys'.sessions[1].engine.rings[0], k))
  {
    var s, g, run := sys.sessions[1], w.geo, PaintedRun(c, w.geo.ChunkTokens(), k);
    FetchesPainted(c, w, k, m, sys.store, false);
    FetchesPainted(c, w, k, m, sys.store, true);
    PickedServes(g, w.cfg, run);
    PickedIsRun(run, WindowDepths(k, w.cfg), g.ChunkTokens());
    assert CanSeed(w, sys.store, s, k, 0);
    var fk, fv := Fetched(w, sys.store, s.path, k, 0, false), Fetched(w, sys.store, s.path, k, 0, true);
    WarmHolds(g, s.engine.rings[0], k, fk, fv, Flatten(run));
    var sys' := Next(w, Mode(true, false), sys, SeedOne(1));
    assert sys' == SeedStep(w, sys, 1);
    assert PointAt(w, sys'.sessions[1].engine.rings[0], k) == WarmRing(g, s.engine.rings[0], k, fk, fv);
  }

  lemma {:induction false} Resumes(c: Palette, w: World, k: nat, m: nat, sys: Sys)
    requires w.geo.Valid() && w.Shaped() && 1 <= k <= m && w.layers == 1
    requires 1 in sys.sessions && sys.sessions[1].path == c.To(m) && sys.sessions[1].phase == Seeding(k, 1)
    requires |sys.sessions[1].engine.rings| == 1 && SeededWith(c, w, k, PointAt(w, sys.sessions[1].engine.rings[0], k))
    ensures var sys' := Next(w, Mode(true, false), sys, Resume(1));
      && 1 in sys'.sessions && sys'.sessions[1].path == c.To(m) && sys'.sessions[1].phase == Running(0) && sys'.sessions[1].resumed == k
      && |sys'.sessions[1].engine.rings| == 1 && SeededWith(c, w, k, sys'.sessions[1].engine.rings[0])
  {
    hide SeededWith, Stash, Burn;
  }

  // ------------------------------------------------------------------ what it sees

  lemma {:induction false} PaintedToken(c: Palette, n: nat, k: nat, p: nat)
    requires n >= 1 && k >= 1 && p < Times(k - 1, n)
    ensures |Flatten(PaintedRun(c, n, k)).k| == Times(k, n) && p < Times(k, n) && Flatten(PaintedRun(c, n, k)).k[p] == c.lo
  {
    var run := PaintedRun(c, n, k);
    var i, j := Locate(p, n, k - 1);
    TimesMono(k - 1, k, n);
    FlattenSize(run, n);
    FlattenSlice(run, n, i);
    assert Flatten(run).k[Times(i, n)..Times(i, n) + n][j] == run[i].k[j] == c.lo;
  }

  /** The first ring shows `t` in slot `p`. */
  ghost predicate Shows(e: Engine, p: int, t: Token) {
    && |e.rings| == 1 && e.rings[0].Valid() && 0 <= p < e.rings[0].localEnd && e.rings[0].Visible().k[p] == t
  }

  lemma {:induction false} ShownIsSeen(e: Engine, p: int, t: Token)
    requires Shows(e, p, t)
    ensures forall u :: Sees(Views(e), p, u) <==> u == t
  {
  }

  /** The rebuilt ring has the sink's token there, */
  lemma {:induction false} WarmShows(c: Palette, w: World, k: nat, e: Engine)
    requires w.geo.Valid() && w.layers == 1 && Cramped(w.geo, k) && |e.rings| == 1 && SeededWith(c, w, k, e.rings[0])
    ensures Shows(e, w.geo.Capacity() - w.geo.ChunkTokens(), c.lo) && At(w, e, k)
  {
    CrampedTokens(w.geo, k);
    var n, p, warm := w.geo.ChunkTokens(), w.geo.Capacity() - w.geo.ChunkTokens(), e.rings[0];
    assert Times(k, n) == Times(k - 1, n) + n;
    PaintedToken(c, n, k, p);
    FlattenSize(PaintedRun(c, n, k), n);
    assert SourceIndex(|warm.k|, w.geo.SinkTokens(), Times(k, n), p) == p;
  }

  /** and the ring of the run itself the newest chunk's. */
  lemma {:induction false} ColdShows(c: Palette, w: World, k: nat)
    requires w.geo.Valid() && w.Shaped() && w.layers == 1 && Cramped(w.geo, k)
    requires k >= 1 && Generates(c, w, k - 1, Painted(w.geo.ChunkTokens(), c.hi))
    ensures Shows(ColdEngine(w, c.To(k)), w.geo.Capacity() - w.geo.ChunkTokens(), c.hi)
  {
    CrampedTokens(w.geo, k);
    var n, p, e := w.geo.ChunkTokens(), w.geo.Capacity() - w.geo.ChunkTokens(), ColdEngine(w, c.To(k));
    assert At(w, e, |c.To(k).acts|);
    var r := e.rings[0];
    assert TailOf(r, n) == Tail(w, e)[0] && TailOf(r, n).k[0] == r.k[r.localEnd - n];
  }

  /** A second session on the same path, up to its resume point. */
  ghost function Resuming(c: Palette, k: nat, m: nat): seq<Event> {
    Filling(c, m, k) + [Open(1, c.To(m))] + [Lookup(1)] + [Materialize(1)] + [SeedOne(1)] + [Resume(1)]
  }

  lemma {:induction false} GrownIsRipe(c: Palette, w: World, k: nat, m: nat, sys: Sys)
    requires w.geo.Valid() && w.Shaped() && Grown(c, w, k, m, sys, k)
    ensures Ripe(c, w, k, sys) && 1 !in sys.sessions
  {
  }

  lemma {:induction false} SecondResumes(c: Palette, w: World, k: nat, m: nat)
    requires w.geo.Valid() && w.Shaped() && 1 <= k <= m && w.layers == 1 && w.cfg.breakEvenK == 1 && w.chunks(c.root) == m && Covers(w.geo, w.cfg, k)
    requires Grown(c, w, k, m, Run(w, Mode(true, false), Filling(c, m, k)), k)
    ensures var sys := Run(w, Mode(true, false), Resuming(c, k, m));
      && 1 in sys.sessions && sys.sessions[1].path == c.To(m) && sys.sessions[1].phase == Running(0) && sys.sessions[1].resumed == k
      && |sys.sessions[1].engine.rings| == 1 && SeededWith(c, w, k, sys.sessions[1].engine.rings[0])
  {
    var mode, filled := Mode(true, false), Filling(c, m, k);
    hide Run, Next, Grown, Ready, SeededWith, Filling;
    RunSnoc(w, mode, filled, Open(1, c.To(m)));
    RunSnoc(w, mode, filled + [Open(1, c.To(m))], Lookup(1));
    RunSnoc(w, mode, filled + [Open(1, c.To(m))] + [Lookup(1)], Materialize(1));
    RunSnoc(w, mode, filled + [Open(1, c.To(m))] + [Lookup(1)] + [Materialize(1)], SeedOne(1));
    RunSnoc(w, mode, filled + [Open(1, c.To(m))] + [Lookup(1)] + [Materialize(1)] + [SeedOne(1)], Resume(1));
    var s0 := Run(w, mode, filled);
    GrownIsRipe(c, w, k, m, s0);
    OpensAndLooks(c, w, k, m, s0);
    var s2 := Next(w, mode, Next(w, mode, s0, Open(1, c.To(m))), Lookup(1));
    Materializes(c, w, k, m, s2);
    var s3 := Next(w, mode, s2, Materialize(1));
    SeedsPainted(c, w, k, m, s3);
    Resumes(c, w, k, m, Next(w, mode, s3, SeedOne(1)));
  }

  lemma {:induction false} PaintedModel(c: Palette, g: Geometry, k: nat, m: nat, i: nat, n: Noise, views: seq<Ring<Token>>, draws: seq<Sample>)
    requires c.Valid() && g.Valid()
    ensures PaintedWorld(c, g, k, m).denoise(c.root, i, n, c.act, views, draws) == Paint(c, g, k, i, views)
  {
    hide Paint;
  }

  lemma {:induction false} LatentTells(c: Palette, g: Geometry, k: nat, m: nat, i: nat, e: Engine)
    requires c.Valid() && g.Valid() && At(PaintedWorld(c, g, k, m), e, i)
    ensures Compute(PaintedWorld(c, g, k, m), c.root, i, c.act, e).latent ==
      if Sees(Views(e), g.Capacity() - g.ChunkTokens(), c.hi) then c.bright else c.dull
  {
    hide PaintedWorld, Views, Sees, ChunkDraws, Times, Painted;
    var w := PaintedWorld(c, g, k, m);
    PaintedModel(c, g, k, m, i, w.noise(c.root, i), Views(e), ChunkDraws(w, e.gen, w.noise(c.root, i)).0);
  }

  lemma {:induction false} OtherViewIsNotExact(w: World, s: Sess, k: nat, cold: Engine, p: int, t: Token, u: Token)
    requires w.geo.Valid() && w.Shaped() && s.resumed == k >= 1 && k <= |s.path.acts| && cold == ColdEngine(w, s.path.Prefix(k))
    requires Shows(s.engine, p, t) && Shows(cold, p, u) && t != u
    ensures !ReplaysExactly(w, s, 0)
  {
    hide ColdEngine, Views, Sees;
    ShownIsSeen(s.engine, p, t);
    ShownIsSeen(cold, p, u);
    assert Sees(Views(s.engine), p, t) && !Sees(Views(cold), p, t);
    assert ReplaysExactly(w, s, 0) ==> AsCold(w, s.path.Prefix(k), s.engine);
  }

  lemma {:induction false} OtherLatent(c: Palette, g: Geometry, k: nat, m: nat, e: Engine)
    requires c.Valid() && g.Valid()
    requires Shows(e, g.Capacity() - g.ChunkTokens(), c.lo) && At(PaintedWorld(c, g, k, m), e, k)
    requires Shows(ColdEngine(PaintedWorld(c, g, k, m), c.To(k)), g.Capacity() - g.ChunkTokens(), c.hi)
    ensures var w := PaintedWorld(c, g, k, m);
      Compute(w, c.root, k, c.act, e).latent == c.dull && ColdChunk(w, c.To(k), c.act).latent == c.bright
  {
    hide PaintedWorld, ColdEngine, Compute, Views, Shows, Sees;
    var w := PaintedWorld(c, g, k, m);
    assert |c.To(k).acts| == k;
    LatentTells(c, g, k, m, k, e);
    LatentTells(c, g, k, m, k, ColdEngine(w, c.To(k)));
    ShownIsSeen(e, g.Capacity() - g.ChunkTokens(), c.lo);
    ShownIsSeen(ColdEngine(w, c.To(k)), g.Capacity() - g.ChunkTokens(), c.hi);
  }

  lemma {:induction false} PaintedFacts(c: Palette, g: Geometry, k: nat, m: nat)
    requires c.Valid() && g.Valid()
    ensures var w := PaintedWorld(c, g, k, m); w.layers == 1 && w.cfg.breakEvenK == 1 && w.chunks(c.root) == m
  {
  }

  lemma {:induction false} ResumedDiffers(c: Palette, g: Geometry, k: nat, m: nat, s: Sess)
    requires c.Valid() && g.Valid() && 1 <= k <= m && Cramped(g, k) && s.path == c.To(m) && s.resumed == k
    requires |s.engine.rings| == 1 && SeededWith(c, PaintedWorld(c, g, k, m), k, s.engine.rings[0])
    ensures var w := PaintedWorld(c, g, k, m);
      && !ReplaysExactly(w, s, 0) && At(w, s.engine, k)
      && Compute(w, c.root, k, c.act, s.engine).latent != ColdChunk(w, c.To(k), c.act).latent
  {
    hide PaintedWorld, ColdEngine, Compute, ColdChunk, ReplaysExactly, SeededWith, Generates, Shows, At, Cramped, Times;
    var w, p := PaintedWorld(c, g, k, m), g.Capacity() - g.ChunkTokens();
    PaintedFacts(c, g, k, m);
    GeneratesPainted(c, g, k, m, k - 1);
    WarmShows(c, w, k, s.engine);
    ColdShows(c, w, k);
    PathGrows(c, k, m);
    OtherViewIsNotExact(w, s, k, ColdEngine(w, c.To(k)), p, c.lo, c.hi);
    OtherLatent(c, g, k, m, s.engine);
  }

  /** In a cramped geometry a session that resumes after `k` chunks sees another ring than the cold run, and
      where that had another chunk to generate, it would generate another latent. */
  lemma {:induction false} CrampedReplayDiverges(c: Palette, g: Geometry, k: nat, m: nat)
    requires c.Valid() && g.Valid() && 1 <= k <= m && Cramped(g, k)
    ensures var w := PaintedWorld(c, g, k, m);
      var sys := Run(w, Mode(true, false), Resuming(c, k, m));
      && 1 in sys.sessions && sys.sessions[1].phase == Running(0) && sys.sessions[1].resumed == k
      && !ReplaysExactly(w, sys.sessions[1], 0) && At(w, sys.sessions[1].engine, k)
      && Compute(w, c.root, k, c.act, sys.sessions[1].engine).latent != ColdChunk(w, c.To(k), c.act).latent
  {
    hide PaintedWorld, Run, Resuming, ReplaysExactly, SeededWith, Grown, Covers, Cramped;
    var w := PaintedWorld(c, g, k, m);
    PaintedFacts(c, g, k, m);
    WindowSufficient(g, k, 1);
    Fills(c, g, k, m, k);
    SecondResumes(c, w, k, m);
    ResumedDiffers(c, g, k, m, Run(w, Mode(true, false), Resuming(c, k, m)).sessions[1]);
  }

  // ------------------------------------------------------------------ exactly when replay is exact

  /** Every running session of every run replays its cold run. */
  ghost predicate ReplaysAlways(w: World)
    requires w.geo.Valid() && w.Shaped()
  {
    forall mode, events, id :: id in Run(w, mode, events).sessions && Run(w, mode, events).sessions[id].phase.Running? ==>
      ReplaysExactly(w, Run(w, mode, events).sessions[id], Run(w, mode, events).sessions[id].phase.i)
  }

  /** A world of this geometry, with the settings computed from it, whose runs have at most `m` chunks. */
  ghost predicate Runs(w: World, g: Geometry, m: nat)
    requires g.Valid()
  {
    && w.geo == g && w.cfg == MakeRollingConfig(g.frames, g.sink, g.chunk, 1) && w.Keyed() && w.Shaped()
    && forall r :: w.chunks(r) <= m
  }

  /** Replay is exact in all worlds of a geometry exactly when a chunk fits beside the sink or no run rolls. */
  lemma {:induction false} ExactReplayIff(c: Palette, g: Geometry, m: nat)
    requires c.Valid() && g.Valid() && m >= 1
    ensures (forall w :: Runs(w, g, m) ==> ReplaysAlways(w)) <==> g.Roomy() || Times(m, g.chunk) <= g.frames
  {
    if g.Roomy() || Times(m, g.chunk) <= g.frames {
      forall w | Runs(w, g, m) ensures ReplaysAlways(w) { FittingReplays(w, g, m); }
    } else {
      var w := PaintedWorld(c, g, m, m);
      CrampedReplayDiverges(c, g, m, m);
      assert Runs(w, g, m) && !ReplaysAlways(w);
    }
  }

  lemma {:induction false} FittingReplays(w: World, g: Geometry, m: nat)
    requires g.Valid() && Runs(w, g, m) && (g.Roomy() || Times(m, g.chunk) <= g.frames)
    ensures ReplaysAlways(w)
  {
    forall r ensures Times(w.chunks(r), g.chunk) <= Times(m, g.chunk) { TimesMono(w.chunks(r), m, g.chunk); }
    RollingFitsIff(w, 1);
    forall mode, events, id | id in Run(w, mode, events).sessions && Run(w, mode, events).sessions[id].phase.Running?
      ensures ReplaysExactly(w, Run(w, mode, events).sessions[id], Run(w, mode, events).sessions[id].phase.i)
    {
      ExactReplay(w, mode, events, id);
    }
  }
}
