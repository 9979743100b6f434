/** What a request computes without any cache, and when a runtime state is as good as that. */
module Cold {
  import opened Arith
  import opened Ring
  import opened Window

  type Token(!new)
  type Root(==, !new)
  type Action(==, !new)
  type Key(==, !new)
  type Noise(!new)
  type Latent(!new)
  type Sample(!new)
  type Step(!new)
  type Gen(!new)

  /** A trie path: the virtual root of a namespace when `acts` is empty. */
  datatype Path = Path(root: Root, acts: seq<Action>) {
    ghost function Parent(): Path requires acts != [] { Path(root, acts[..|acts| - 1]) }
    ghost function Child(a: Action): Path { Path(root, acts + [a]) }
    ghost function Prefix(k: nat): Path requires k <= |acts| { Path(root, acts[..k]) }
  }

  datatype Chunk = Chunk(latent: Latent, kv: seq<KV<Token>>)

  /** A model build with its geometry and cache settings. The model itself, the random generator and
      the key chain are arbitrary functions of what the source passes to them; `pathOf` only says that
      the key chain is injective. */
  datatype World = World(
    geo: Geometry,
    cfg: Config,
    layers: nat,
    timesteps: seq<Step>,
    zero: Token,
    chunks: Root -> nat,
    key: Path -> Key,
    pathOf: Key -> Path,
    gen0: Root -> Gen,
    noise: (Root, nat) -> Noise,
    draw: (Gen, Noise) -> (Sample, Gen),
    denoise: (Root, nat, Noise, Action, seq<Ring<Token>>, seq<Sample>) -> Chunk)
  {
    /** The window settings suit the geometry, for every run a root allows. */
    ghost predicate Fitting() {
      && geo.Valid()
      && (forall r, k :: 1 <= k <= chunks(r) ==> Covers(geo, cfg, k))
      && (geo.Roomy() || forall r :: Times(chunks(r), geo.chunk) <= geo.frames)
    }

    ghost predicate Keyed() {
      forall p :: pathOf(key(p)) == p
    }

    ghost predicate Shaped() {
      forall r, i, n, a, v, d :: ShapedChunk(denoise(r, i, n, a, v, d))
    }

    ghost predicate Valid() {
      Fitting() && Keyed() && Shaped()
    }

    ghost predicate ShapedChunk(c: Chunk) {
      |c.kv| == layers && SameSize(c.kv, geo.ChunkTokens())
    }
  }

  /** Settings computed from the geometry itself fit it exactly when a chunk fits beside the sink or no
      run ever fills the buffer. */
  lemma {:induction false} RollingFitsIff(w: World, breakEvenK: nat)
    requires w.geo.Valid() && w.cfg == MakeRollingConfig(w.geo.frames, w.geo.sink, w.geo.chunk, breakEvenK)
    ensures w.Fitting() <==> w.geo.Roomy() || forall r :: Times(w.chunks(r), w.geo.chunk) <= w.geo.frames
  {
    forall r, k | 1 <= k <= w.chunks(r) ensures Covers(w.geo, w.cfg, k) {
      WindowSufficient(w.geo, k, breakEvenK);
    }
  }

  /** The full-length settings fit a buffer that never fills exactly when no run is longer than the
      million and one chunks they keep. */
  lemma {:induction false} FullFitsIff(w: World, breakEvenK: nat)
    requires w.geo.Valid() && w.cfg == MakeFullKvConfig(breakEvenK)
    requires forall r :: Times(w.chunks(r), w.geo.chunk) <= w.geo.frames
    ensures w.Fitting() <==> forall r :: w.chunks(r) <= 1_000_001
  {
    forall r, k | 1 <= k <= w.chunks(r) ensures Covers(w.geo, w.cfg, k) <==> k <= 1_000_001 {
      TimesMono(k, w.chunks(r), w.geo.chunk);
      FullConfigCoversIff(w.geo, k, breakEvenK);
    }
    forall r | w.Fitting() && w.chunks(r) >= 1 ensures w.chunks(r) <= 1_000_001 {
      assert Covers(w.geo, w.cfg, w.chunks(r));
    }
  }

  datatype Engine = Engine(rings: seq<Ring<Token>>, gen: Gen)

  /** The draws of one chunk's denoising loop from step `i` on: after each step that has a successor the
      sample is noised again, in the shape of the chunk's noise. */
  ghost function Redraws(w: World, gen: Gen, noise: Noise, i: nat): (r: (seq<Sample>, Gen))
    decreases |w.timesteps| - i
  {
    if i + 1 < |w.timesteps| then
      var (x, g) := w.draw(gen, noise);
      var (rest, g') := Redraws(w, g, noise, i + 1);
      ([x] + rest, g')
    else ([], gen)
  }

  ghost function ChunkDraws(w: World, gen: Gen, noise: Noise): (seq<Sample>, Gen) {
    Redraws(w, gen, noise, 0)
  }

  lemma {:induction false} RedrawCount(w: World, gen: Gen, noise: Noise, i: nat)
    requires i < |w.timesteps|
    ensures |Redraws(w, gen, noise, i).0| == |w.timesteps| - 1 - i
    decreases |w.timesteps| - i
  {
    if i + 1 < |w.timesteps| {
      RedrawCount(w, w.draw(gen, noise).1, noise, i + 1);
    }
  }

  ghost function EmptyRing(w: World): (r: Ring<Token>)
    ensures r.Valid()
    ensures |r.k| == w.geo.Capacity() && r.globalEnd == r.localEnd == 0
  {
    var buf := seq(w.geo.Capacity(), i => w.zero);
    Ring(buf, buf, 0, 0)
  }

  /** Every layer's ring is where a run of `i` chunks leaves it. */
  ghost predicate At(w: World, e: Engine, i: nat) {
    && |e.rings| == w.layers
    && forall l :: 0 <= l < w.layers ==>
      var r := e.rings[l];
      r.Valid() && |r.k| == w.geo.Capacity() && r.globalEnd == Times(i, w.geo.ChunkTokens()) && r.localEnd == Min(r.globalEnd, |r.k|)
  }

  ghost function FreshEngine(w: World, root: Root): (e: Engine)
    ensures At(w, e, 0)
  {
    Engine(seq(w.layers, l => EmptyRing(w)), w.gen0(root))
  }

  ghost function Views(e: Engine): seq<Ring<Token>>
    requires forall l :: 0 <= l < |e.rings| ==> e.rings[l].Valid()
  {
    seq(|e.rings|, l requires 0 <= l < |e.rings| => e.rings[l].Visible())
  }

  ghost function Compute(w: World, root: Root, i: nat, a: Action, e: Engine): Chunk
    requires At(w, e, i)
  {
    w.denoise(root, i, w.noise(root, i), a, Views(e), ChunkDraws(w, e.gen, w.noise(root, i)).0)
  }

  /** One generated chunk: draw, denoise, write the clean KV of every layer. */
  ghost function Advance(w: World, root: Root, i: nat, a: Action, e: Engine): (e': Engine)
    requires w.geo.Valid() && At(w, e, i) && w.ShapedChunk(Compute(w, root, i, a, e))
    ensures At(w, e', i + 1)
  {
    var c := Compute(w, root, i, a, e);
    ChunkFits(w.geo);
    Engine(seq(w.layers, l requires 0 <= l < w.layers => Write(e.rings[l], w.geo.SinkTokens(), c.kv[l], Times(i, w.geo.ChunkTokens()))),
           ChunkDraws(w, e.gen, w.noise(root, i)).1)
  }

  /** The state of a run from scratch along `p`, and the chunk it generates for action `a` next. */
  ghost function ColdEngine(w: World, p: Path): (e: Engine)
    requires w.geo.Valid() && w.Shaped()
    ensures At(w, e, |p.acts|)
    decreases |p.acts|
  {
    if p.acts == [] then FreshEngine(w, p.root)
    else Advance(w, p.root, |p.acts| - 1, p.acts[|p.acts| - 1], ColdEngine(w, p.Parent()))
  }

  ghost function ColdChunk(w: World, p: Path, a: Action): (c: Chunk)
    requires w.geo.Valid() && w.Shaped()
    ensures w.ShapedChunk(c)
  {
    Compute(w, p.root, |p.acts|, a, ColdEngine(w, p))
  }

  /** The run along `p` is one its root allows. */
  ghost predicate Allowed(w: World, p: Path) {
    |p.acts| <= w.chunks(p.root)
  }

  // ------------------------------------------------------------------ tracking a run

  /** A run, as the chunk it generates after each path and its generator's position there. */
  datatype Oracle = Oracle(chunk: (Path, Action) -> Chunk, gen: Path -> Gen) {
    ghost predicate Shaped(w: World) {
      forall p, a :: w.ShapedChunk(chunk(p, a))
    }

    ghost function LayerOf(w: World, p: Path, a: Action, l: nat): (kv: KV<Token>)
      requires Shaped(w) && l < w.layers
      ensures |kv.k| == |kv.v| == w.geo.ChunkTokens()
    {
      assert w.ShapedChunk(chunk(p, a));
      chunk(p, a).kv[l]
    }

    /** The chunk of a node. */
    ghost function Value(p: Path): Chunk
      requires p.acts != []
    {
      chunk(p.Parent(), p.acts[|p.acts| - 1])
    }
  }

  ghost function ColdOracle(w: World): Oracle
    requires w.geo.Valid() && w.Shaped()
  {
    Oracle((p: Path, a: Action) => ColdChunk(w, p, a), (p: Path) => ColdEngine(w, p).gen)
  }

  lemma {:induction false} ValueOfPrefix(o: Oracle, p: Path, j: nat)
    requires j < |p.acts|
    ensures p.Prefix(j + 1).Parent() == p.Prefix(j) && o.Value(p.Prefix(j + 1)) == o.chunk(p.Prefix(j), p.acts[j])
  {
    assert p.Prefix(j + 1).Parent() == p.Prefix(j);
  }

  /** The clean KV of layer `l`, chunk by chunk. */
  ghost function LayerRun(w: World, o: Oracle, p: Path, l: nat): (run: seq<KV<Token>>)
    requires o.Shaped(w) && l < w.layers
    ensures |run| == |p.acts| && SameSize(run, w.geo.ChunkTokens())
  {
    seq(|p.acts|, i requires 0 <= i < |p.acts| => o.LayerOf(w, p.Prefix(i), p.acts[i], l))
  }

  lemma {:induction false} RunGrows(w: World, o: Oracle, p: Path, a: Action, l: nat)
    requires o.Shaped(w) && l < w.layers
    ensures LayerRun(w, o, p.Child(a), l) == LayerRun(w, o, p, l) + [o.chunk(p, a).kv[l]]
  {
    var q := p.Child(a);
    forall i | 0 <= i < |q.acts| ensures LayerRun(w, o, q, l)[i] == (LayerRun(w, o, p, l) + [o.chunk(p, a).kv[l]])[i] {
      assert q.Prefix(i) == p.Prefix(i);
      assert p.Prefix(|p.acts|) == p;
    }
  }

  /** The rings hold the run along `p`, whatever lies above their fill, and the generator is where the
      run's generator is. */
  ghost predicate Tracks(w: World, o: Oracle, p: Path, e: Engine)
    requires o.Shaped(w)
  {
    && At(w, e, |p.acts|)
    && e.gen == o.gen(p)
    && forall l :: 0 <= l < w.layers ==> Holds(e.rings[l], w.geo.SinkTokens(), Flatten(LayerRun(w, o, p, l)))
  }

  /** No model call can tell two tracking states apart. */
  lemma {:induction false} TracksLookAlike(w: World, o: Oracle, p: Path, a: Engine, b: Engine)
    requires o.Shaped(w) && Tracks(w, o, p, a) && Tracks(w, o, p, b)
    ensures Views(a) == Views(b) && a.gen == b.gen
  {
    forall l | 0 <= l < w.layers ensures a.rings[l].Visible() == b.rings[l].Visible() {
      SameHistorySameView(a.rings[l], b.rings[l], w.geo.SinkTokens(), Flatten(LayerRun(w, o, p, l)));
    }
  }

  /** Writing the run's next chunk keeps tracking. */
  lemma {:induction false} AdvanceTracks(w: World, o: Oracle, p: Path, a: Action, e: Engine)
    requires w.Fitting() && o.Shaped(w) && Allowed(w, p.Child(a)) && Tracks(w, o, p, e)
    requires Compute(w, p.root, |p.acts|, a, e) == o.chunk(p, a)
    requires o.gen(p.Child(a)) == ChunkDraws(w, o.gen(p), w.noise(p.root, |p.acts|)).1
    ensures Tracks(w, o, p.Child(a), Advance(w, p.root, |p.acts|, a, e))
  {
    forall l | 0 <= l < w.layers
      ensures Holds(Advance(w, p.root, |p.acts|, a, e).rings[l], w.geo.SinkTokens(), Flatten(LayerRun(w, o, p.Child(a), l)))
    {
      AdvanceLayer(w, o, p, a, e, l);
    }
  }

  lemma {:induction false} AdvanceLayer(w: World, o: Oracle, p: Path, a: Action, e: Engine, l: nat)
    requires w.Fitting() && o.Shaped(w) && Allowed(w, p.Child(a)) && Tracks(w, o, p, e) && l < w.layers
    requires Compute(w, p.root, |p.acts|, a, e) == o.chunk(p, a)
    ensures Holds(Advance(w, p.root, |p.acts|, a, e).rings[l], w.geo.SinkTokens(), Flatten(LayerRun(w, o, p.Child(a), l)))
  {
    var run, next := LayerRun(w, o, p, l), o.chunk(p, a).kv[l];
    ChunkFits(w.geo);
    FitsWhenCramped(w, p.Child(a));
    RunGrows(w, o, p, a, l);
    FlattenSize(run, w.geo.ChunkTokens());
    assert (run + [next])[..|run|] == run;
    WriteKeepsLayout(e.rings[l], w.geo.SinkTokens(), Flatten(run), next);
  }

  /** Without room beside the sink, an allowed run never rolls. */
  lemma {:induction false} FitsWhenCramped(w: World, p: Path)
    requires w.Fitting() && Allowed(w, p)
    ensures w.geo.Roomy() || Times(|p.acts|, w.geo.ChunkTokens()) <= w.geo.Capacity()
  {
    if !w.geo.Roomy() {
      TimesMono(|p.acts|, w.chunks(p.root), w.geo.chunk);
      TimesAssoc(|p.acts|, w.geo.chunk, w.geo.tokens);
      TimesMono(Times(|p.acts|, w.geo.chunk), w.geo.frames, w.geo.tokens);
    }
  }

  // ------------------------------------------------------------------ the cold run tracks itself

  lemma {:induction false} ColdTracks(w: World, p: Path)
    requires w.Fitting() && w.Shaped() && Allowed(w, p)
    ensures Tracks(w, ColdOracle(w), p, ColdEngine(w, p))
    decreases |p.acts|
  {
    if p.acts != [] {
      var front, a := p.Parent(), p.acts[|p.acts| - 1];
      var o, e := ColdOracle(w), ColdEngine(w, front);
      assert front.Child(a) == p;
      ColdTracks(w, front);
      assert ColdEngine(w, p) == Advance(w, p.root, |front.acts|, a, e);
      assert o.gen(p) == ColdEngine(w, p).gen;
      AdvanceTracks(w, o, front, a, e);
    }
  }

  /** What it takes for `o` to be the cold run: it starts with a fresh engine, and from any tracking
      state the model computes the chunk `o` says. */
  ghost predicate IsCold(w: World, o: Oracle) {
    && o.Shaped(w)
    && (forall r :: o.gen(Path(r, [])) == w.gen0(r))
    && (forall p: Path, a: Action :: o.gen(p.Child(a)) == ChunkDraws(w, o.gen(p), w.noise(p.root, |p.acts|)).1)
    && (forall p: Path, a: Action, e: Engine {:trigger Compute(w, p.root, |p.acts|, a, e), o.chunk(p, a)} ::
          Allowed(w, p) && Tracks(w, o, p, e) ==> Compute(w, p.root, |p.acts|, a, e) == o.chunk(p, a))
  }

  lemma {:induction false} ColdOracleIsCold(w: World)
    requires w.Fitting() && w.Shaped()
    ensures IsCold(w, ColdOracle(w))
  {
    var o := ColdOracle(w);
    forall p: Path, a: Action ensures o.gen(p.Child(a)) == ChunkDraws(w, o.gen(p), w.noise(p.root, |p.acts|)).1 {
      assert p.Child(a).Parent() == p;
    }
    forall p: Path, a: Action, e: Engine | Allowed(w, p) && Tracks(w, o, p, e)
      ensures Compute(w, p.root, |p.acts|, a, e) == o.chunk(p, a)
    {
      ColdTracks(w, p);
      TracksLookAlike(w, o, p, e, ColdEngine(w, p));
    }
  }

  /** From a tracking state, the next chunk is the cold run's chunk, and the state keeps tracking. */
  lemma {:induction false} StepTracks(w: World, o: Oracle, p: Path, a: Action, e: Engine)
    requires w.Fitting() && IsCold(w, o) && Allowed(w, p.Child(a)) && Tracks(w, o, p, e)
    ensures Compute(w, p.root, |p.acts|, a, e) == o.chunk(p, a)
    ensures Tracks(w, o, p.Child(a), Advance(w, p.root, |p.acts|, a, e))
  {
    assert Allowed(w, p);
    assert Compute(w, p.root, |p.acts|, a, e) == o.chunk(p, a);
    AdvanceTracks(w, o, p, a, e);
  }

  // ------------------------------------------------------------------ resuming at chunk k

  /** Advance the generator as if the first `k` chunks had been denoised. */
  ghost function Burn(w: World, root: Root, k: nat, gen: Gen): Gen {
    if k == 0 then gen else ChunkDraws(w, Burn(w, root, k - 1, gen), w.noise(root, k - 1)).1
  }

  lemma {:induction false} BurnAligns(w: World, o: Oracle, p: Path)
    requires IsCold(w, o)
    ensures Burn(w, p.root, |p.acts|, w.gen0(p.root)) == o.gen(p)
    decreases |p.acts|
  {
    if p.acts == [] {
      assert p == Path(p.root, []);
    } else {
      var front, a := p.Parent(), p.acts[|p.acts| - 1];
      BurnAligns(w, o, front);
      assert front.Child(a) == p;
    }
  }

  ghost function WindowBlobs(w: World, o: Oracle, p: Path, l: nat, v: bool): map<nat, seq<Token>>
    requires o.Shaped(w) && l < w.layers
  {
    Picked(LayerRun(w, o, p, l), WindowDepths(|p.acts|, w.cfg), v)
  }

  /** The window of the node at the end of `p` can seed every layer, and what it seeds is the run. */
  lemma {:induction false} SeedTracks(w: World, o: Oracle, p: Path, l: nat, dirty: Ring<Token>)
    requires w.Fitting() && o.Shaped(w) && p.acts != [] && Allowed(w, p) && l < w.layers
    requires |dirty.k| == |dirty.v| == w.geo.Capacity()
    ensures var frames := FramesToSeed(w.geo.frames, w.geo.sink, Times(|p.acts|, w.geo.chunk));
      && Serves(WindowBlobs(w, o, p, l, false), frames, w.geo.chunk, w.geo.tokens)
      && Serves(WindowBlobs(w, o, p, l, true), frames, w.geo.chunk, w.geo.tokens)
      && Holds(WarmRing(w.geo, dirty, |p.acts|, WindowBlobs(w, o, p, l, false), WindowBlobs(w, o, p, l, true)),
               w.geo.SinkTokens(), Flatten(LayerRun(w, o, p, l)))
  {
    var run := LayerRun(w, o, p, l);
    PickedServes(w.geo, w.cfg, run);
    PickedIsRun(run, WindowDepths(|p.acts|, w.cfg), w.geo.ChunkTokens());
    WarmHolds(w.geo, dirty, |p.acts|, WindowBlobs(w, o, p, l, false), WindowBlobs(w, o, p, l, true), Flatten(run));
  }
}
