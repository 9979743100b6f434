/** Every event of the shared cache keeps the invariant, and what that means for a session. */
module ReplayProof {
  import opened Arith
  import opened Ring
  import opened Window
  import opened Cold
  import opened Forest
  import opened Replay
  import opened Table

  // ------------------------------------------------------------------ one session

  lemma {:induction false} FreshTracks(w: World, o: Oracle, root: Root)
    requires w.Fitting() && IsCold(w, o)
    ensures Tracks(w, o, Path(root, []), FreshEngine(w, root))
  {
  }

  lemma {:induction false} RestartedOk(w: World, o: Oracle, s: Sess)
    requires w.Fitting() && IsCold(w, o) && SessOk(w, o, s) && (s.phase.Opened? || s.phase.Hinted?)
    ensures SessOk(w, o, Restarted(s))
  {
    FreshTracks(w, o, s.path.root);
    assert s.path.Prefix(0) == Path(s.path.root, []);
  }

  /** Every layer of the whole window of a session is in the store. */
  ghost predicate WindowStored(w: World, store: Store, p: Path, k: nat)
    requires k <= |p.acts|
  {
    forall q :: q in WindowPaths(w, p, k) ==> Stored(w, store.kv, q)
  }

  lemma {:induction false} FetchedOne(w: World, o: Oracle, store: Store, p: Path, k: nat, l: nat, d: nat)
    requires o.Shaped(w) && d < k <= |p.acts| && l < w.layers && d in WindowDepths(k, w.cfg)
    requires WindowStored(w, store, p, k) && StoreOk(w, RunTruth(w, o), store)
    ensures (w.key(p.Prefix(d + 1)), l) in store.kv
    ensures store.kv[(w.key(p.Prefix(d + 1)), l)] == LayerRun(w, o, p.Prefix(k), l)[d]
  {
    var q := p.Prefix(d + 1);
    assert q in WindowPaths(w, p, k);
    assert RunTruth(w, o).kv(q, l, store.kv[(w.key(q), l)]);
    ValueOfPrefix(o, p, d);
    assert p.Prefix(k).Prefix(d) == p.Prefix(d);
  }

  /** What is fetched for a layer is exactly the run's chunks at the window's depths. */
  lemma {:induction false} FetchedIsRun(w: World, o: Oracle, store: Store, p: Path, k: nat, l: nat)
    requires o.Shaped(w) && k <= |p.acts| && l < w.layers
    requires WindowStored(w, store, p, k) && StoreOk(w, RunTruth(w, o), store)
    ensures forall d :: d in WindowDepths(k, w.cfg) ==> d < k && (w.key(p.Prefix(d + 1)), l) in store.kv
    ensures Fetched(w, store, p, k, l, false) == WindowBlobs(w, o, p.Prefix(k), l, false)
    ensures Fetched(w, store, p, k, l, true) == WindowBlobs(w, o, p.Prefix(k), l, true)
  {
    WindowIncreases(k, w.cfg);
    var run, depths := LayerRun(w, o, p.Prefix(k), l), WindowDepths(k, w.cfg);
    forall d | d in depths
      ensures d < k && (w.key(p.Prefix(d + 1)), l) in store.kv && store.kv[(w.key(p.Prefix(d + 1)), l)] == run[d]
    {
      FetchedOne(w, o, store, p, k, l, d);
    }
    FetchedIsPicked(w.key, store, p, depths, k, l, run, false);
    FetchedIsPicked(w.key, store, p, depths, k, l, run, true);
  }

  lemma {:induction false} FetchedIsPicked(key: Path -> Key, store: Store, p: Path, depths: seq<nat>, k: nat, l: nat, run: seq<KV<Token>>, v: bool)
    requires k == |run| <= |p.acts|
    requires forall d :: d in depths ==> d < k && (key(p.Prefix(d + 1)), l) in store.kv && store.kv[(key(p.Prefix(d + 1)), l)] == run[d]
    ensures FetchedFrom(key, store, p, depths, k, l, v) == Picked(run, depths, v)
  {
  }

  /** A fetched layer can be seeded, and then holds the run at the resume point. */
  lemma {:induction false} LayerSeeds(w: World, o: Oracle, store: Store, s: Sess, k: nat, l: nat)
    requires w.Fitting() && o.Shaped(w) && Allowed(w, s.path) && 1 <= k <= |s.path.acts| && SeededTo(w, o, s, k, l) && l < w.layers
    requires WindowStored(w, store, s.path, k) && StoreOk(w, RunTruth(w, o), store)
    ensures CanSeed(w, store, s, k, l)
    ensures var kb, vb := Fetched(w, store, s.path, k, l, false), Fetched(w, store, s.path, k, l, true);
      Holds(WarmRing(w.geo, s.engine.rings[l], k, kb, vb), w.geo.SinkTokens(), Flatten(LayerRun(w, o, s.path.Prefix(k), l)))
  {
    FetchedIsRun(w, o, store, s.path, k, l);
    SeedTracks(w, o, s.path.Prefix(k), l, s.engine.rings[l]);
  }

  lemma {:induction false} SeedStepOk(w: World, o: Oracle, sys: Sys, id: nat)
    requires w.Fitting() && o.Shaped(w) && id in sys.sessions && sys.sessions[id].phase.Seeding? && SessOk(w, o, sys.sessions[id])
    requires sys.sessions[id].phase.layer < w.layers && StoreOk(w, RunTruth(w, o), sys.store)
    requires WindowStored(w, sys.store, sys.sessions[id].path, sys.sessions[id].phase.k)
    ensures var s := sys.sessions[id];
      && CanSeed(w, sys.store, s, s.phase.k, s.phase.layer)
      && id in SeedStep(w, sys, id).sessions && SessOk(w, o, SeedStep(w, sys, id).sessions[id])
  {
    var s, k, l := sys.sessions[id], sys.sessions[id].phase.k, sys.sessions[id].phase.layer;
    LayerSeeds(w, o, sys.store, s, k, l);
    var warm := WarmRing(w.geo, s.engine.rings[l], k, Fetched(w, sys.store, s.path, k, l, false), Fetched(w, sys.store, s.path, k, l, true));
    LayerJoins(w, o, s, k, l, warm, SeedStep(w, sys, id).sessions[id]);
  }

  lemma {:induction false} LayerJoins(w: World, o: Oracle, s: Sess, k: nat, l: nat, warm: Ring<Token>, s': Sess)
    requires w.geo.Valid() && o.Shaped(w) && k <= |s.path.acts| && SeededTo(w, o, s, k, l) && l < w.layers
    requires |warm.k| == |warm.v| == w.geo.Capacity() && warm == PointAt(w, warm, k)
    requires Holds(warm, w.geo.SinkTokens(), Flatten(LayerRun(w, o, s.path.Prefix(k), l)))
    requires s'.path == s.path && s'.engine.gen == s.engine.gen
    requires s'.engine.rings == s.engine.rings[l := Ring(warm.k, warm.v, s.engine.rings[l].globalEnd, s.engine.rings[l].localEnd)]
    ensures SeededTo(w, o, s', k, l + 1)
  {
    forall j | 0 <= j < l + 1
      ensures Holds(PointAt(w, s'.engine.rings[j], k), w.geo.SinkTokens(), Flatten(LayerRun(w, o, s.path.Prefix(k), j)))
    {
      if j == l { assert PointAt(w, s'.engine.rings[l], k) == warm; }
    }
  }

  /** Skeletons outlive eviction, so a matched node's path has every latent. */
  lemma {:induction false} StashIsFull(w: World, o: Oracle, sys: Sys, p: Path, k: nat)
    requires ForestOk(w, sys.store, sys.forest) && StoreOk(w, RunTruth(w, o), sys.store)
    requires k <= |p.acts| && p.Prefix(k) in sys.forest
    ensures var stash := Stash(w, sys.store.lat, p, k);
      && (forall j :: j in stash <==> 0 <= j < k)
      && forall j :: j in stash ==> stash[j] == o.chunk(p.Prefix(j), p.acts[j]).latent
  {
    forall j | 0 <= j < k
      ensures j in Stash(w, sys.store.lat, p, k) && Stash(w, sys.store.lat, p, k)[j] == o.chunk(p.Prefix(j), p.acts[j]).latent
    {
      var q := p.Prefix(j + 1);
      assert p.Prefix(k).Prefix(j + 1) == q;
      assert RowOk(w, sys.store, q, sys.forest[q]);
      assert RunTruth(w, o).lat(q, sys.store.lat[w.key(q)]);
      ValueOfPrefix(o, p, j);
    }
  }

  lemma {:induction false} SeededTracks(w: World, o: Oracle, s: Sess, k: nat)
    requires w.Fitting() && IsCold(w, o) && 1 <= k <= |s.path.acts|
    requires SeededTo(w, o, s, k, w.layers) && s.engine.gen == w.gen0(s.path.root)
    ensures Tracks(w, o, s.path.Prefix(k), Engine(
      seq(|s.engine.rings|, l requires 0 <= l < |s.engine.rings| => PointAt(w, s.engine.rings[l], k)),
      Burn(w, s.path.root, k, s.engine.gen)))
  {
    var q := s.path.Prefix(k);
    BurnAligns(w, o, q);
    forall l | 0 <= l < w.layers ensures |Flatten(LayerRun(w, o, q, l)).k| == Times(k, w.geo.ChunkTokens()) {
      FlattenSize(LayerRun(w, o, q, l), w.geo.ChunkTokens());
    }
  }

  lemma {:induction false} ResumedOk(w: World, o: Oracle, sys: Sys, id: nat)
    requires w.Fitting() && IsCold(w, o) && ForestOk(w, sys.store, sys.forest) && StoreOk(w, RunTruth(w, o), sys.store)
    requires id in sys.sessions && SessOk(w, o, sys.sessions[id]) && Anchored(sys.forest, sys.sessions[id])
    requires sys.sessions[id].phase.Seeding? && sys.sessions[id].phase.layer == w.layers
    ensures SessOk(w, o, ResumeStep(w, sys, id).sessions[id])
  {
    var s, k := sys.sessions[id], sys.sessions[id].phase.k;
    StashIsFull(w, o, sys, s.path, k);
    SeededTracks(w, o, s, k);
  }

  lemma {:induction false} TailIsChunk(w: World, root: Root, i: nat, a: Action, e: Engine)
    requires w.geo.Valid() && At(w, e, i) && w.ShapedChunk(Compute(w, root, i, a, e))
    ensures forall l :: 0 <= l < w.layers ==>
      Advance(w, root, i, a, e).rings[l].Valid() && w.geo.ChunkTokens() <= Advance(w, root, i, a, e).rings[l].localEnd
    ensures Tail(w, Advance(w, root, i, a, e)) == Compute(w, root, i, a, e).kv
  {
    ChunkFits(w.geo);
    var c, n := Compute(w, root, i, a, e), w.geo.ChunkTokens();
    forall l | 0 <= l < w.layers
      ensures Advance(w, root, i, a, e).rings[l].Valid() && n <= Advance(w, root, i, a, e).rings[l].localEnd
      ensures TailOf(Advance(w, root, i, a, e).rings[l], n) == c.kv[l]
    {
      OnlyLastPassRemains(e.rings[l], w.geo.SinkTokens(), [c.kv[l]], n, Times(i, n));
    }
  }

  /** A session that generates: what it computes and ingests is the run's next chunk. */
  lemma {:induction false} GeneratesRun(w: World, o: Oracle, s: Sess, i: nat)
    requires w.Fitting() && w.Shaped() && IsCold(w, o) && Allowed(w, s.path) && RunningOk(w, o, s, i) && i < |s.path.acts| && i !in s.cached
    ensures At(w, s.engine, i) && s.parent == s.path.Prefix(i) && s.parent.Child(s.path.acts[i]) == s.path.Prefix(i + 1)
    ensures Compute(w, s.path.root, i, s.path.acts[i], s.engine) == o.chunk(s.parent, s.path.acts[i])
    ensures var e := Advance(w, s.path.root, i, s.path.acts[i], s.engine);
      && (forall l :: 0 <= l < w.layers ==> e.rings[l].Valid() && w.geo.ChunkTokens() <= e.rings[l].localEnd)
      && Tail(w, e) == o.chunk(s.parent, s.path.acts[i]).kv
      && Tracks(w, o, s.path.Prefix(i + 1), e)
  {
    assert s.parent.Child(s.path.acts[i]) == s.path.Prefix(i + 1);
    StepTracks(w, o, s.parent, s.path.acts[i], s.engine);
    TailIsChunk(w, s.path.root, i, s.path.acts[i], s.engine);
  }

  lemma {:induction false} DeliveredOk(w: World, o: Oracle, mode: Mode, sys: Sys, id: nat)
    requires w.Fitting() && w.Shaped() && IsCold(w, o) && id in sys.sessions && SessOk(w, o, sys.sessions[id])
    requires sys.sessions[id].phase.Running? && sys.sessions[id].phase.i < |sys.sessions[id].path.acts|
    ensures sys.sessions[id].phase.i in sys.sessions[id].cached || At(w, sys.sessions[id].engine, sys.sessions[id].phase.i)
    ensures SessOk(w, o, DeliverStep(w, mode, sys, id).sessions[id])
  {
    hide World.Fitting, World.Shaped;
    var s, i := sys.sessions[id], sys.sessions[id].phase.i;
    if i !in s.cached {
      GeneratesRun(w, o, s, i);
    }
  }

  // ------------------------------------------------------------------ events

  /** The whole invariant with what a good session is left open. */
  ghost predicate Consistent(w: World, t: Truth, ok: Sess -> bool, mode: Mode, sys: Sys) {
    TableOk(w, t, mode, sys) && HeldOk(w, sys) && SessionsOk(ok, sys.forest, sys.sessions)
  }

  lemma {:induction false} SwapKeeps(w: World, t: Truth, ok: Sess -> bool, mode: Mode, sys: Sys, id: nat, s: Sess)
    requires Consistent(w, t, ok, mode, sys) && id in sys.sessions && ok(s) && Anchored(sys.forest, s)
    requires forall p :: HoldsNode(w, s, p) <==> HoldsNode(w, sys.sessions[id], p)
    ensures Consistent(w, t, ok, mode, sys.(sessions := sys.sessions[id := s]))
  {
    SessionsUpdate(ok, sys.forest, sys.sessions, id, s);
    SwapKeepsHeld(w, sys, id, s);
    RefsDontMatter(w, t, mode, sys, sys.forest, sys.sessions[id := s]);
  }

  lemma {:induction false} OpenKeeps(w: World, t: Truth, ok: Sess -> bool, mode: Mode, sys: Sys, id: nat, s: Sess)
    requires Consistent(w, t, ok, mode, sys) && id !in sys.sessions && s.phase.Opened? && ok(s)
    ensures Consistent(w, t, ok, mode, sys.(forest := GetOrCreate(sys.forest, s.path.root), sessions := sys.sessions[id := s]))
  {
    OpenKeepsTable(w, t, mode, sys, id, s);
  }

  lemma {:induction false} RetainKeeps(w: World, t: Truth, ok: Sess -> bool, mode: Mode, sys: Sys, id: nat, s: Sess, held: set<Path>)
    requires Consistent(w, t, ok, mode, sys) && id in sys.sessions && !sys.sessions[id].phase.Seeding?
    requires ok(s) && Anchored(sys.forest, s)
    requires (forall p :: HoldsNode(w, s, p) <==> p in held) && forall p :: p in held ==> Ready(sys.forest, p)
    ensures Consistent(w, t, ok, mode, sys.(forest := Retain(sys.forest, held, 1), sessions := sys.sessions[id := s]))
  {
    RetainKeepsTable(w, t, mode, sys, id, s, held);
    SessionsCarry(ok, sys.forest, Retain(sys.forest, held, 1), sys.sessions);
    SessionsUpdate(ok, Retain(sys.forest, held, 1), sys.sessions, id, s);
  }

  lemma {:induction false} SessionsCarry(ok: Sess -> bool, f: Forest, g: Forest, sessions: map<nat, Sess>)
    requires SessionsOk(ok, f, sessions) && f.Keys <= g.Keys
    ensures SessionsOk(ok, g, sessions)
  {
  }

  lemma {:induction false} SessionsUpdate(ok: Sess -> bool, f: Forest, sessions: map<nat, Sess>, id: nat, s: Sess)
    requires SessionsOk(ok, f, sessions) && ok(s) && Anchored(f, s)
    ensures SessionsOk(ok, f, sessions[id := s]) && SessionsOk(ok, f, sessions - {id})
  {
  }

  lemma {:induction false} DropKeeps(w: World, t: Truth, ok: Sess -> bool, mode: Mode, sys: Sys, id: nat)
    requires Consistent(w, t, ok, mode, sys) && id in sys.sessions
    ensures Consistent(w, t, ok, mode, Abort(w, sys, id))
  {
    ReleaseRows(w, sys, sys.sessions[id]);
    SessionsCarry(ok, sys.forest, Release(w, sys, sys.sessions[id]), sys.sessions);
    SessionsUpdate(ok, Release(w, sys, sys.sessions[id]), sys.sessions, id, sys.sessions[id]);
    ReleaseKeepsTable(w, t, mode, sys, id, sys.sessions - {id});
  }

  lemma {:induction false} ReleaseKeeps(w: World, t: Truth, ok: Sess -> bool, mode: Mode, sys: Sys, id: nat, s: Sess)
    requires Consistent(w, t, ok, mode, sys) && id in sys.sessions && !s.phase.Seeding? && ok(s) && Anchored(sys.forest, s)
    ensures Consistent(w, t, ok, mode, sys.(forest := Release(w, sys, sys.sessions[id]), sessions := sys.sessions[id := s]))
  {
    ReleaseRows(w, sys, sys.sessions[id]);
    SessionsUpdate(ok, sys.forest, sys.sessions, id, s);
    SessionsCarry(ok, sys.forest, Release(w, sys, sys.sessions[id]), sys.sessions[id := s]);
    ReleaseKeepsTable(w, t, mode, sys, id, sys.sessions[id := s]);
  }

  lemma {:induction false} WriteThroughKeeps(w: World, t: Truth, ok: Sess -> bool, mode: Mode, sys: Sys, node: Path, payload: seq<KV<Token>>, latent: Latent)
    requires w.Keyed() && Consistent(w, t, ok, mode, sys)
    requires node.acts != [] && Allowed(w, node) && node.Parent() in sys.forest && PayloadOk(w, t, node, payload) && t.lat(node, latent)
    ensures var sys' := WriteThrough(w, mode, sys, node, node, payload, latent);
      Consistent(w, t, ok, mode, sys') && sys'.sessions == sys.sessions && node in sys'.forest && sys.forest.Keys <= sys'.forest.Keys
  {
    WriteThroughKeepsTable(w, t, mode, sys, node, payload, latent);
    var sys' := WriteThrough(w, mode, sys, node, node, payload, latent);
    assert sys'.forest.Keys == sys.forest.Keys + {node};
    SessionsCarry(ok, sys.forest, sys'.forest, sys.sessions);
  }

  /** A generated chunk: write-through of its node, and the session moves on to it. */
  lemma {:induction false} IngestKeeps(w: World, t: Truth, ok: Sess -> bool, mode: Mode, sys: Sys, id: nat, node: Path, payload: seq<KV<Token>>, latent: Latent, s: Sess)
    requires w.Keyed() && Consistent(w, t, ok, mode, sys) && id in sys.sessions && sys.sessions[id].phase.Running?
    requires node.acts != [] && Allowed(w, node) && node.Parent() in sys.forest && PayloadOk(w, t, node, payload) && t.lat(node, latent)
    requires ok(s) && s.phase.Running? && s.parent == node && s.path == sys.sessions[id].path
    ensures Consistent(w, t, ok, mode, WriteThrough(w, mode, sys, node, node, payload, latent).(sessions := sys.sessions[id := s]))
  {
    WriteThroughKeeps(w, t, ok, mode, sys, node, payload, latent);
    var mid := WriteThrough(w, mode, sys, node, node, payload, latent);
    assert Anchored(sys.forest, sys.sessions[id]);
    SwapKeeps(w, t, ok, mode, mid, id, s);
  }

  lemma {:induction false} BackgroundKeeps(w: World, t: Truth, ok: Sess -> bool, mode: Mode, sys: Sys, e: Event)
    requires w.geo.Valid() && w.Keyed() && w.Shaped() && Consistent(w, t, ok, mode, sys)
    requires e.EvictNode? || e.SaveSnapshot? || e.Restart?
    ensures Consistent(w, t, ok, mode, Next(w, mode, sys, e))
  {
    match e
    case EvictNode(p) => EvictKeepsTable(w, t, mode, sys, p);
    case SaveSnapshot => if !mode.frees { SaveKeepsTable(w, t, mode, sys); }
    case Restart => if sys.disk.Some? { RestartKeepsTable(w, t, mode, sys); }
    case _ =>
  }

  lemma {:induction false} WorkerKeeps(w: World, t: Truth, ok: Sess -> bool, mode: Mode, sys: Sys, e: Event)
    requires w.Keyed() && Consistent(w, t, ok, mode, sys)
    ensures Consistent(w, t, ok, mode, WorkerStep(w, sys, e))
  {
    WorkerKeepsTable(w, t, mode, sys, e);
  }

  // ------------------------------------------------------------------ events of faithful sessions

  lemma {:induction false} LookupEvent(w: World, o: Oracle, mode: Mode, sys: Sys, id: nat)
    requires w.Fitting() && IsCold(w, o) && Inv(w, o, mode, sys) && id in sys.sessions && sys.sessions[id].phase.Opened?
    ensures Inv(w, o, mode, LookupStep(w, sys, id))
  {
    hide TableOk, HeldOk;
    var s := sys.sessions[id];
    assert Faithful(w, o)(s);
    RestartedOk(w, o, s);
    MatchIsLongest(sys.forest, s.path, 0, Match(sys.forest, s.path, 0));
    SwapKeeps(w, RunTruth(w, o), Faithful(w, o), mode, sys, id, LookupStep(w, sys, id).sessions[id]);
  }

  lemma {:induction false} MaterializeEvent(w: World, o: Oracle, mode: Mode, sys: Sys, id: nat)
    requires w.Fitting() && IsCold(w, o) && Inv(w, o, mode, sys) && id in sys.sessions && sys.sessions[id].phase.Hinted?
    requires sys.sessions[id].phase.k <= |sys.sessions[id].path.acts|
    ensures Inv(w, o, mode, MaterializeStep(w, sys, id))
  {
    hide TableOk, HeldOk, WindowPaths;
    var s := sys.sessions[id];
    assert Faithful(w, o)(s);
    var s', held := MaterializeStep(w, sys, id).sessions[id], WindowPaths(w, s.path, s.phase.k);
    if s'.phase.Seeding? {
      RetainKeeps(w, RunTruth(w, o), Faithful(w, o), mode, sys, id, s', held);
    } else {
      RestartedOk(w, o, s);
      SwapKeeps(w, RunTruth(w, o), Faithful(w, o), mode, sys, id, s');
    }
  }

  lemma {:induction false} HeldIsStored(w: World, sys: Sys, id: nat)
    requires HeldOk(w, sys) && id in sys.sessions && sys.sessions[id].phase.Seeding? && sys.sessions[id].phase.k <= |sys.sessions[id].path.acts|
    ensures WindowStored(w, sys.store, sys.sessions[id].path, sys.sessions[id].phase.k)
  {
    var s := sys.sessions[id];
    forall q | q in WindowPaths(w, s.path, s.phase.k) ensures Stored(w, sys.store.kv, q) {
      assert HoldsNode(w, s, q);
      assert Readable(w, sys, q);
    }
  }

  lemma {:induction false} SeedEvent(w: World, o: Oracle, mode: Mode, sys: Sys, id: nat)
    requires w.Fitting() && IsCold(w, o) && Inv(w, o, mode, sys) && id in sys.sessions && sys.sessions[id].phase.Seeding?
    requires sys.sessions[id].phase.layer < w.layers && sys.sessions[id].phase.k <= |sys.sessions[id].path.acts|
    ensures CanSeed(w, sys.store, sys.sessions[id], sys.sessions[id].phase.k, sys.sessions[id].phase.layer)
    ensures Inv(w, o, mode, SeedStep(w, sys, id))
  {
    assert Faithful(w, o)(sys.sessions[id]);
    HeldIsStored(w, sys, id);
    SeedStepOk(w, o, sys, id);
    SwapKeeps(w, RunTruth(w, o), Faithful(w, o), mode, sys, id, SeedStep(w, sys, id).sessions[id]);
  }

  lemma {:induction false} ResumeEvent(w: World, o: Oracle, mode: Mode, sys: Sys, id: nat)
    requires w.Fitting() && IsCold(w, o) && Inv(w, o, mode, sys) && id in sys.sessions && sys.sessions[id].phase.Seeding?
    requires sys.sessions[id].phase.layer == w.layers && sys.sessions[id].phase.k <= |sys.sessions[id].path.acts|
    ensures Inv(w, o, mode, ResumeStep(w, sys, id))
  {
    assert Faithful(w, o)(sys.sessions[id]);
    ResumedOk(w, o, sys, id);
    ReleaseKeeps(w, RunTruth(w, o), Faithful(w, o), mode, sys, id, ResumeStep(w, sys, id).sessions[id]);
  }

  lemma {:induction false} RunValue(w: World, o: Oracle, node: Path)
    requires o.Shaped(w) && node.acts != []
    ensures PayloadOk(w, RunTruth(w, o), node, o.Value(node).kv) && RunTruth(w, o).lat(node, o.Value(node).latent)
  {
    assert w.ShapedChunk(o.Value(node));
  }

  ghost predicate CanDeliver(w: World, s: Sess) {
    s.phase.Running? && s.phase.i < |s.path.acts| && (s.phase.i in s.cached || At(w, s.engine, s.phase.i))
  }

  lemma {:induction false} DeliverEvent(w: World, o: Oracle, mode: Mode, sys: Sys, id: nat)
    requires w.Valid() && IsCold(w, o) && Inv(w, o, mode, sys) && id in sys.sessions && CanDeliver(w, sys.sessions[id])
    ensures Inv(w, o, mode, DeliverStep(w, mode, sys, id))
  {
    var s, i := sys.sessions[id], sys.sessions[id].phase.i;
    assert Faithful(w, o)(s);
    DeliveredOk(w, o, mode, sys, id);
    if i in s.cached {
      SwapKeeps(w, RunTruth(w, o), Faithful(w, o), mode, sys, id, DeliverStep(w, mode, sys, id).sessions[id]);
    } else {
      GenerateEvent(w, o, mode, sys, id);
    }
  }

  /** Generating is exactly the write-through of the run's value under the node's own key. */
  lemma {:induction false} DeliverIsIngest(w: World, o: Oracle, mode: Mode, sys: Sys, id: nat)
    requires w.Valid() && IsCold(w, o) && id in sys.sessions && CanDeliver(w, sys.sessions[id])
    requires SessOk(w, o, sys.sessions[id]) && sys.sessions[id].phase.i !in sys.sessions[id].cached
    ensures var s, i := sys.sessions[id], sys.sessions[id].phase.i;
      var node, s' := s.path.Prefix(i + 1), DeliverStep(w, mode, sys, id).sessions[id];
      && node.Parent() == s.parent && s'.phase.Running? && s'.parent == node && s'.path == s.path
      && DeliverStep(w, mode, sys, id)
        == WriteThrough(w, mode, sys, node, node, o.Value(node).kv, o.Value(node).latent).(sessions := sys.sessions[id := s'])
  {
    var s, i := sys.sessions[id], sys.sessions[id].phase.i;
    GeneratesRun(w, o, s, i);
    ValueOfPrefix(o, s.path, i);
  }

  lemma {:induction false} GenerateEvent(w: World, o: Oracle, mode: Mode, sys: Sys, id: nat)
    requires w.Valid() && IsCold(w, o) && Inv(w, o, mode, sys) && id in sys.sessions && CanDeliver(w, sys.sessions[id])
    requires SessOk(w, o, sys.sessions[id]) && sys.sessions[id].phase.i !in sys.sessions[id].cached
    requires Faithful(w, o)(DeliverStep(w, mode, sys, id).sessions[id])
    ensures Inv(w, o, mode, DeliverStep(w, mode, sys, id))
  {
    var s := sys.sessions[id];
    var node := s.path.Prefix(s.phase.i + 1);
    DeliverIsIngest(w, o, mode, sys, id);
    RunValue(w, o, node);
    IngestKeeps(w, RunTruth(w, o), Faithful(w, o), mode, sys, id, node, o.Value(node).kv, o.Value(node).latent,
                DeliverStep(w, mode, sys, id).sessions[id]);
  }

  lemma {:induction false} MaterializationEvents(w: World, o: Oracle, mode: Mode, sys: Sys, e: Event)
    requires w.Valid() && IsCold(w, o) && Inv(w, o, mode, sys)
    requires e.Materialize? || e.SeedOne? || e.Resume?
    ensures Inv(w, o, mode, Next(w, mode, sys, e))
  {
    match e
    case Materialize(id) =>
      if id in sys.sessions && sys.sessions[id].phase.Hinted? && sys.sessions[id].phase.k <= |sys.sessions[id].path.acts| {
        MaterializeEvent(w, o, mode, sys, id);
      }
    case SeedOne(id) =>
      if id in sys.sessions && sys.sessions[id].phase.Seeding? && sys.sessions[id].phase.layer < w.layers
        && sys.sessions[id].phase.k <= |sys.sessions[id].path.acts| { SeedEvent(w, o, mode, sys, id); }
    case Resume(id) =>
      if id in sys.sessions && sys.sessions[id].phase.Seeding? && sys.sessions[id].phase.layer == w.layers
        && sys.sessions[id].phase.k <= |sys.sessions[id].path.acts| { ResumeEvent(w, o, mode, sys, id); }
    case _ =>
  }

  lemma {:induction false} NextKeeps(w: World, o: Oracle, mode: Mode, sys: Sys, e: Event)
    requires w.Valid() && IsCold(w, o) && Inv(w, o, mode, sys)
    ensures Inv(w, o, mode, Next(w, mode, sys, e))
  {
    match e
    case Open(id, p) =>
      if id !in sys.sessions && |p.acts| == w.chunks(p.root) {
        OpenKeeps(w, RunTruth(w, o), Faithful(w, o), mode, sys, id, Next(w, mode, sys, e).sessions[id]);
      }
    case Lookup(id) => if id in sys.sessions && sys.sessions[id].phase.Opened? { LookupEvent(w, o, mode, sys, id); }
    case Materialize(_) | SeedOne(_) | Resume(_) => MaterializationEvents(w, o, mode, sys, e);
    case Fail(id) => if id in sys.sessions { DropKeeps(w, RunTruth(w, o), Faithful(w, o), mode, sys, id); }
    case Deliver(id) => if id in sys.sessions && CanDeliver(w, sys.sessions[id]) { DeliverEvent(w, o, mode, sys, id); }
    case WorkerTake | WorkerLayer | WorkerPublish | WorkerFail => WorkerKeeps(w, RunTruth(w, o), Faithful(w, o), mode, sys, e);
    case _ => BackgroundKeeps(w, RunTruth(w, o), Faithful(w, o), mode, sys, e);
  }

  lemma {:induction false} RunKeeps(w: World, o: Oracle, mode: Mode, events: seq<Event>)
    requires w.Valid() && IsCold(w, o)
    ensures Inv(w, o, mode, Run(w, mode, events))
  {
    if events != [] {
      RunKeeps(w, o, mode, events[..|events| - 1]);
      NextKeeps(w, o, mode, Run(w, mode, events[..|events| - 1]), events[|events| - 1]);
    }
  }

  // ------------------------------------------------------------------ what a run guarantees

  /** A session about to deliver chunk `i`: the latents it delivered and the ones it will hand out are
      the run's, and from its resume point on its rings, pointers and generator cannot be told from the
      run's, so that the next chunk it generates is the run's too. */
  ghost predicate ReplaysExactly(w: World, s: Sess, i: nat)
    requires w.geo.Valid() && w.Shaped()
  {
    && i <= |s.path.acts| && s.resumed <= |s.path.acts| && |s.out| == i
    && (forall j :: 0 <= j < i ==> s.out[j] == ColdChunk(w, s.path.Prefix(j), s.path.acts[j]).latent)
    && (forall j :: j in s.cached <==> i <= j < s.resumed)
    && (forall j :: j in s.cached ==> s.cached[j] == ColdChunk(w, s.path.Prefix(j), s.path.acts[j]).latent)
    && (i >= s.resumed ==> AsCold(w, s.path.Prefix(i), s.engine))
    && (i < s.resumed ==> AsCold(w, s.path.Prefix(s.resumed), s.engine))
  }

  ghost predicate AsCold(w: World, p: Path, e: Engine)
    requires w.geo.Valid() && w.Shaped()
  {
    && At(w, e, |p.acts|)
    && Views(e) == Views(ColdEngine(w, p)) && e.gen == ColdEngine(w, p).gen
    && forall a :: Compute(w, p.root, |p.acts|, a, e) == ColdChunk(w, p, a)
  }

  lemma {:induction false} TrackingIsAsCold(w: World, p: Path, e: Engine)
    requires w.Valid() && Allowed(w, p) && Tracks(w, ColdOracle(w), p, e)
    ensures AsCold(w, p, e)
  {
    ColdTracks(w, p);
    TracksLookAlike(w, ColdOracle(w), p, e, ColdEngine(w, p));
  }

  lemma {:induction false} RunningReplays(w: World, s: Sess, i: nat)
    requires w.Valid() && Allowed(w, s.path) && ColdOracle(w).Shaped(w) && RunningOk(w, ColdOracle(w), s, i)
    ensures ReplaysExactly(w, s, i)
  {
    TrackingIsAsCold(w, s.parent, s.engine);
  }

  /** Exact replay: in every run of sessions, writes, failures, evictions and restarts, every running
      session replays the cold run of its own root and actions. */
  lemma {:induction false} ExactReplay(w: World, mode: Mode, events: seq<Event>, id: nat)
    requires w.Valid() && id in Run(w, mode, events).sessions && Run(w, mode, events).sessions[id].phase.Running?
    ensures ReplaysExactly(w, Run(w, mode, events).sessions[id], Run(w, mode, events).sessions[id].phase.i)
  {
    ColdOracleIsCold(w);
    RunKeeps(w, ColdOracle(w), mode, events);
    var s := Run(w, mode, events).sessions[id];
    assert Faithful(w, ColdOracle(w))(s);
    RunningReplays(w, s, s.phase.i);
  }

  /** Forest soundness: a published node reads back, layer by layer, as the KV its path computes cold,
      its latent is the cold latent, and so is the tree above it complete. */
  lemma {:induction false} PublishedIsCold(w: World, mode: Mode, events: seq<Event>, p: Path)
    requires w.Valid() && Ready(Run(w, mode, events).forest, p)
    ensures p.acts != []
    ensures var sys, c := Run(w, mode, events), ColdChunk(w, p.Parent(), p.acts[|p.acts| - 1]);
      && sys.forest[p].blob.value.layers == w.layers && sys.forest[p].skeleton
      && (forall l :: 0 <= l < w.layers ==> (w.key(p), l) in sys.store.kv && sys.store.kv[(w.key(p), l)] == c.kv[l])
      && w.key(p) in sys.store.lat && sys.store.lat[w.key(p)] == c.latent
      && forall d :: 0 <= d <= |p.acts| ==> p.Prefix(d) in sys.forest
  {
    var o := ColdOracle(w);
    ColdOracleIsCold(w);
    RunKeeps(w, o, mode, events);
    var sys := Run(w, mode, events);
    assert RowOk(w, sys.store, p, sys.forest[p]);
    forall l | 0 <= l < w.layers ensures (w.key(p), l) in sys.store.kv && sys.store.kv[(w.key(p), l)] == o.Value(p).kv[l] {
      assert RunTruth(w, o).kv(p, l, sys.store.kv[(w.key(p), l)]);
    }
    assert RunTruth(w, o).lat(p, sys.store.lat[w.key(p)]);
  }

  /** Eviction refuses whatever a materialization holds. */
  ghost predicate HeldAreSafe(w: World, sys: Sys) {
    && (forall p :: p in sys.forest ==> sys.forest[p].refs == |Holders(w, sys.sessions, p)|)
    && (forall id, p :: id in sys.sessions && HoldsNode(w, sys.sessions[id], p) ==>
          p in sys.forest && !Evictable(sys.forest, p) && sys.forest[p].blob.Some?)
  }

  /** Whatever layer comes next, its reads find every chunk the ring needs. */
  ghost predicate ReadsNeverMiss(w: World, sys: Sys, id: nat)
    requires w.geo.Valid()
  {
    id in sys.sessions && sys.sessions[id].phase.Seeding? && sys.sessions[id].phase.layer < w.layers ==>
      && sys.sessions[id].phase.k <= |sys.sessions[id].path.acts|
      && CanSeed(w, sys.store, sys.sessions[id], sys.sessions[id].phase.k, sys.sessions[id].phase.layer)
  }

  lemma {:induction false} HeldOkIsSafe(w: World, sys: Sys)
    requires HeldOk(w, sys)
    ensures HeldAreSafe(w, sys)
  {
    forall id, p | id in sys.sessions && HoldsNode(w, sys.sessions[id], p)
      ensures p in sys.forest && !Evictable(sys.forest, p) && sys.forest[p].blob.Some?
    {
      assert Readable(w, sys, p) && id in Holders(w, sys.sessions, p);
    }
  }

  lemma {:induction false} InvReads(w: World, o: Oracle, mode: Mode, sys: Sys, id: nat)
    requires w.Valid() && IsCold(w, o) && Inv(w, o, mode, sys)
    ensures ReadsNeverMiss(w, sys, id)
  {
    if id in sys.sessions && sys.sessions[id].phase.Seeding? && sys.sessions[id].phase.layer < w.layers {
      assert Faithful(w, o)(sys.sessions[id]);
      SeedEvent(w, o, mode, sys, id);
    }
  }

  /** An in-flight materialization is protected: counts are the number of holders, eviction refuses
      every held node, and no layer read misses a chunk, whatever other sessions and the writer do. */
  lemma {:induction false} InFlightIsProtected(w: World, mode: Mode, events: seq<Event>)
    requires w.Valid()
    ensures HeldAreSafe(w, Run(w, mode, events))
    ensures forall id :: ReadsNeverMiss(w, Run(w, mode, events), id)
  {
    ColdOracleIsCold(w);
    RunKeeps(w, ColdOracle(w), mode, events);
    HeldOkIsSafe(w, Run(w, mode, events));
    forall id ensures ReadsNeverMiss(w, Run(w, mode, events), id) {
      InvReads(w, ColdOracle(w), mode, Run(w, mode, events), id);
    }
  }

  // ------------------------------------------------------------------ sinks stay

  /** Virtual roots and the nodes of the first `sinkChunks` chunks are pinned, and no others. */
  ghost predicate SinksPinned(f: Forest, sinkChunks: nat) {
    forall p :: p in f ==> (f[p].pinned <==> |p.acts| <= sinkChunks)
  }

  ghost predicate AllSinksPinned(sys: Sys, sinkChunks: nat) {
    SinksPinned(sys.forest, sinkChunks) && (sys.disk.Some? ==> SinksPinned(sys.disk.value, sinkChunks))
  }

  lemma {:induction false} SinksStayPinned(f: Forest, n: nat, p: Path, id: nat, layers: nat)
    requires SinksPinned(f, n)
    ensures SinksPinned(GetOrCreate(f, p.root), n) && SinksPinned(Publish(f, p, id), n) && SinksPinned(Evict(f, p), n) && SinksPinned(Restored(f), n)
    ensures p.acts != [] ==> SinksPinned(Ingest(f, p, n, id, layers), n) && SinksPinned(Publish(Ingest(f, p, n, id, layers), p, id), n)
  {
  }

  lemma {:induction false} RetainedSinks(f: Forest, n: nat, held: set<Path>, delta: int)
    requires SinksPinned(f, n)
    ensures SinksPinned(Retain(f, held, delta), n) && SinksPinned(Restored(f), n)
  {
  }

  lemma {:induction false} SinksNext(w: World, mode: Mode, sys: Sys, e: Event)
    requires w.geo.Valid() && w.Shaped() && AllSinksPinned(sys, w.cfg.sinkChunks)
    ensures AllSinksPinned(Next(w, mode, sys, e), w.cfg.sinkChunks)
  {
    hide SinksPinned, Evict, Publish, GetOrCreate, Restored, Evictable;
    var n, f := w.cfg.sinkChunks, sys.forest;
    match e
    case Open(id, p) => SinksStayPinned(f, n, p, 0, 0);
    case EvictNode(p) => SinksStayPinned(f, n, p, 0, 0);
    case SaveSnapshot => RetainedSinks(f, n, {}, 0);
    case WorkerPublish => if sys.writing.Some? { SinksStayPinned(f, n, sys.writing.value.0.path, sys.writing.value.0.id, 0); }
    case Deliver(id) => if id in sys.sessions { SinksDeliver(w, mode, sys, id); }
    case Materialize(id) => if id in sys.sessions { SinksHeld(w, sys, sys.sessions[id]); }
    case SeedOne(id) => if id in sys.sessions { SinksHeld(w, sys, sys.sessions[id]); }
    case Resume(id) => if id in sys.sessions { SinksHeld(w, sys, sys.sessions[id]); }
    case Fail(id) => if id in sys.sessions { SinksHeld(w, sys, sys.sessions[id]); }
    case _ =>
  }

  lemma {:induction false} SinksHeld(w: World, sys: Sys, s: Sess)
    requires SinksPinned(sys.forest, w.cfg.sinkChunks)
    ensures SinksPinned(Release(w, sys, s), w.cfg.sinkChunks)
    ensures s.phase.Hinted? && s.phase.k <= |s.path.acts| ==>
      SinksPinned(Retain(sys.forest, WindowPaths(w, s.path, s.phase.k), 1), w.cfg.sinkChunks)
  {
    if s.phase.Seeding? && s.phase.k <= |s.path.acts| { RetainedSinks(sys.forest, w.cfg.sinkChunks, WindowPaths(w, s.path, s.phase.k), -1); }
    if s.phase.Hinted? && s.phase.k <= |s.path.acts| { RetainedSinks(sys.forest, w.cfg.sinkChunks, WindowPaths(w, s.path, s.phase.k), 1); }
  }

  lemma {:induction false} SinksDeliver(w: World, mode: Mode, sys: Sys, id: nat)
    requires w.geo.Valid() && w.Shaped() && AllSinksPinned(sys, w.cfg.sinkChunks) && id in sys.sessions
    ensures AllSinksPinned(Next(w, mode, sys, Deliver(id)), w.cfg.sinkChunks)
  {
    var s := sys.sessions[id];
    if s.phase.Running? && s.phase.i < |s.path.acts| {
      SinksStayPinned(sys.forest, w.cfg.sinkChunks, s.parent.Child(s.path.acts[s.phase.i]), sys.nextId, w.layers);
      if At(w, s.engine, s.phase.i) { TailIsChunk(w, s.path.root, s.phase.i, s.path.acts[s.phase.i], s.engine); }
    }
  }

  /** No eviction ever takes a chunk that every window needs. */
  lemma {:induction false} SinksAreNeverEvicted(w: World, mode: Mode, events: seq<Event>, p: Path)
    requires w.geo.Valid() && w.Shaped() && |p.acts| <= w.cfg.sinkChunks
    ensures AllSinksPinned(Run(w, mode, events), w.cfg.sinkChunks) && !Evictable(Run(w, mode, events).forest, p)
  {
    if events != [] {
      SinksAreNeverEvicted(w, mode, events[..|events| - 1], p);
      SinksNext(w, mode, Run(w, mode, events[..|events| - 1]), events[|events| - 1]);
    }
  }
}
