/** What each step of the shared cache does to the rows and sessions it is about, and that sessions, writer
    and eviction get on. */
module Progress {
  import opened BreakEven
  import opened Ring
  import opened Window
  import opened Cold
  import opened Forest
  import opened Options
  import opened Replay
  import opened ReplayProof
  import opened Table

  // ------------------------------------------------------------------ eviction

  lemma {:induction false} RefsAreCounts(w: World, mode: Mode, events: seq<Event>)
    requires w.Valid()
    ensures var sys := Run(w, mode, events); forall p :: p in sys.forest ==> sys.forest[p].refs == |Holders(w, sys.sessions, p)|
  {
    ColdOracleIsCold(w);
    RunKeeps(w, ColdOracle(w), mode, events);
  }

  /** In every run, eviction drops a blob exactly when its node is not pinned and nobody holds it; it changes
      no other row, and in the store at most that node's layers. */
  lemma {:induction false} EvictsIff(w: World, mode: Mode, events: seq<Event>, p: Path)
    requires w.Valid() && p in Run(w, mode, events).forest && Run(w, mode, events).forest[p].blob.Some?
    ensures var sys := Run(w, mode, events);
      var sys', row := Next(w, mode, sys, EvictNode(p)), sys.forest[p];
      && p in sys'.forest && sys'.forest[p] == row.(blob := sys'.forest[p].blob)
      && (sys'.forest[p].blob == None <==> !row.pinned && row.refs == 0) && (sys'.forest[p].blob != None ==> sys' == sys)
      && (forall q :: q != p ==> (q in sys'.forest <==> q in sys.forest) && (q in sys.forest ==> sys'.forest[q] == sys.forest[q]))
      && (forall l: nat :: sys'.forest[p].blob == None && mode.frees ==> (w.key(p), l) !in sys'.store.kv)
      && (forall x :: x in sys.store.kv && (!mode.frees || x.0 != w.key(p)) ==> x in sys'.store.kv && sys'.store.kv[x] == sys.store.kv[x])
  {
    RefsAreCounts(w, mode, events);
  }

  /** Beyond the sink, a blob that no materialization in flight needs can be evicted. */
  lemma {:induction false} IdleBlobsAreEvicted(w: World, mode: Mode, events: seq<Event>, p: Path)
    requires w.Valid() && p in Run(w, mode, events).forest && Run(w, mode, events).forest[p].blob.Some?
    requires |p.acts| > w.cfg.sinkChunks
    requires forall id :: id in Run(w, mode, events).sessions ==> !HoldsNode(w, Run(w, mode, events).sessions[id], p)
    ensures var sys' := Next(w, mode, Run(w, mode, events), EvictNode(p)); p in sys'.forest && sys'.forest[p].blob == None
  {
    var sys := Run(w, mode, events);
    RefsAreCounts(w, mode, events);
    assert Holders(w, sys.sessions, p) == {};
    SinksAreNeverEvicted(w, mode, events, Path(p.root, []));
    EvictsIff(w, mode, events, p);
  }

  // ------------------------------------------------------------------ the gate

  /** The first `k` nodes of the path are there with a published blob. */
  ghost predicate PublishedTo(f: Forest, p: Path, k: nat) {
    k <= |p.acts| && forall d {:trigger p.Prefix(d)} :: 1 <= d <= k ==>
      p.Prefix(d) in f && f[p.Prefix(d)].blob.Some? && f[p.Prefix(d)].blob.value.ready
  }

  ghost predicate Longest(f: Forest, p: Path, k: nat) {
    PublishedTo(f, p, k) && forall j :: k < j <= |p.acts| ==> !PublishedTo(f, p, j)
  }

  lemma {:induction false} LongestIsMatch(f: Forest, p: Path, k: nat)
    requires Longest(f, p, k)
    ensures Match(f, p, 0) == k
  {
    forall j: nat | j <= |p.acts| ensures PublishedTo(f, p, j) <==> AllReady(f, p, j) {
      if AllReady(f, p, j) {
        forall d | 1 <= d <= j ensures p.Prefix(d) in f && f[p.Prefix(d)].blob.Some? && f[p.Prefix(d)].blob.value.ready {
          assert Ready(f, p.Prefix(d));
        }
      }
    }
    MatchIsLongest(f, p, 0, k);
  }

  /** A lookup hints at the longest published prefix if there is one and the break-even length admits it, and
      otherwise starts from the first chunk. Nothing else changes. */
  lemma {:induction false} LookupGate(w: World, mode: Mode, sys: Sys, id: nat, k: nat)
    requires w.geo.Valid() && w.Shaped() && id in sys.sessions && sys.sessions[id].phase.Opened? && Longest(sys.forest, sys.sessions[id].path, k)
    ensures var s, sys' := sys.sessions[id], Next(w, mode, sys, Lookup(id));
      && sys' == sys.(sessions := sys'.sessions) && sys'.sessions.Keys == sys.sessions.Keys
      && (forall j :: j in sys.sessions && j != id ==> sys'.sessions[j] == sys.sessions[j])
      && (if k >= 1 && k >= w.cfg.breakEvenK then sys'.sessions[id] == s.(phase := Hinted(k))
          else sys'.sessions[id] == s.(phase := Running(0), parent := Path(s.path.root, []), resumed := 0))
  {
    LongestIsMatch(sys.forest, sys.sessions[id].path, k);
  }

  /** With a calibrated break-even length whose limit is high enough, exactly the prefixes that pay are resumed. */
  lemma {:induction false} LookupResumesIfItPays(w: World, mode: Mode, sys: Sys, id: nat, k: nat, c: Costs, maxK: int)
    requires w.geo.Valid() && w.Shaped() && id in sys.sessions && sys.sessions[id].phase.Opened? && Longest(sys.forest, sys.sessions[id].path, k)
    requires c.fetch >= 0.0 && c.recompute >= 0.0 && c.overhead >= 0.0 && IsCalibrated(c, maxK, w.cfg.breakEvenK)
    requires Pays(c, if maxK < 0 then 1 else maxK + 1)
    ensures Next(w, mode, sys, Lookup(id)).sessions[id].phase.Hinted? <==> k >= 1 && Pays(c, k)
  {
    LookupGate(w, mode, sys, id, k);
    GateIsExactIff(c, maxK, w.cfg.breakEvenK);
    if k >= 1 { assert Admits(w.cfg.breakEvenK, k) <==> Pays(c, k); }
  }

  // ------------------------------------------------------------------ a session gets on

  /** Every node of the window of a match of length `k` is there with a published blob. */
  ghost predicate WindowPublished(w: World, f: Forest, p: Path, k: nat)
    requires k <= |p.acts|
  {
    forall d {:trigger d in WindowDepths(k, w.cfg)} :: d in WindowDepths(k, w.cfg) ==>
      d < k && p.Prefix(d + 1) in f && f[p.Prefix(d + 1)].blob.Some? && f[p.Prefix(d + 1)].blob.value.ready
  }

  ghost predicate InWindow(w: World, p: Path, k: nat, q: Path)
    requires k <= |p.acts|
  {
    exists d :: d in WindowDepths(k, w.cfg) && d < k && q == p.Prefix(d + 1)
  }

  lemma {:induction false} HeldAre(f: Forest, p: Path, depths: seq<nat>, k: nat)
    requires k <= |p.acts| && depths != [] && forall d :: d in depths ==> d < k
    ensures var held := set d | d in depths && d < k :: p.Prefix(d + 1);
      (held != {} && forall q :: q in held ==> Ready(f, q)) <==> forall d :: d in depths ==> Ready(f, p.Prefix(d + 1))
  {
    hide Ready;
    var held := set d | d in depths && d < k :: p.Prefix(d + 1);
    assert depths[0] in depths && p.Prefix(depths[0] + 1) in held;
    forall d | d in depths ensures p.Prefix(d + 1) in held {}
  }

  lemma {:induction false} WindowPathsAre(w: World, f: Forest, p: Path, k: nat)
    requires k <= |p.acts| && WindowDepths(k, w.cfg) != []
    ensures var held := WindowPaths(w, p, k);
      (held != {} && forall q :: q in held ==> Ready(f, q)) <==> WindowPublished(w, f, p, k)
    ensures forall q :: q in WindowPaths(w, p, k) <==> InWindow(w, p, k, q)
  {
    var depths := WindowDepths(k, w.cfg);
    WindowIncreases(k, w.cfg);
    hide WindowDepths;
    HeldAre(f, p, depths, k);
    assert WindowPublished(w, f, p, k) <==> forall d :: d in depths ==> Ready(f, p.Prefix(d + 1));
  }

  /** A hinted session begins to materialize if every node of its window is published, with one more reference
      on each, and starts from the first chunk otherwise. Nothing else changes. */
  lemma {:induction false} MaterializeGate(w: World, mode: Mode, sys: Sys, id: nat)
    requires w.geo.Valid() && w.Shaped() && id in sys.sessions && sys.sessions[id].phase.Hinted?
    requires 1 <= sys.sessions[id].phase.k <= |sys.sessions[id].path.acts| && WindowDepths(sys.sessions[id].phase.k, w.cfg) != []
    ensures var s, sys' := sys.sessions[id], Next(w, mode, sys, Materialize(id));
      var k, complete := s.phase.k, WindowPublished(w, sys.forest, s.path, s.phase.k);
      && sys' == sys.(forest := sys'.forest, sessions := sys'.sessions) && sys'.forest.Keys == sys.forest.Keys
      && sys'.sessions == sys.sessions[id :=
           if complete then s.(phase := Seeding(k, 0)) else s.(phase := Running(0), parent := Path(s.path.root, []), resumed := 0)]
      && (forall q :: q in sys.forest ==>
            sys'.forest[q] == sys.forest[q].(refs := sys.forest[q].refs + if complete && InWindow(w, s.path, k, q) then 1 else 0))
  {
    hide WindowPaths, WindowDepths, InWindow, WindowPublished;
    WindowPathsAre(w, sys.forest, sys.sessions[id].path, sys.sessions[id].phase.k);
  }

  lemma {:induction false} Reached(w: World, mode: Mode, events: seq<Event>)
    requires w.Valid()
    ensures Inv(w, ColdOracle(w), mode, Run(w, mode, events)) && IsCold(w, ColdOracle(w))
  {
    ColdOracleIsCold(w);
    RunKeeps(w, ColdOracle(w), mode, events);
  }

  lemma {:induction false} SessionIsOk(w: World, mode: Mode, events: seq<Event>, id: nat)
    requires w.Valid() && id in Run(w, mode, events).sessions
    ensures ColdOracle(w).Shaped(w) && SessOk(w, ColdOracle(w), Run(w, mode, events).sessions[id])
  {
    Reached(w, mode, events);
    assert Faithful(w, ColdOracle(w))(Run(w, mode, events).sessions[id]);
  }

  lemma {:induction false} RunAppends(w: World, mode: Mode, events: seq<Event>, e: Event)
    requires w.geo.Valid() && w.Shaped()
    ensures Run(w, mode, events + [e]) == Next(w, mode, Run(w, mode, events), e)
  {
    assert (events + [e])[..|events|] == events;
  }

  lemma {:induction false} SeedMoves(w: World, mode: Mode, sys: Sys, id: nat)
    requires w.geo.Valid() && w.Shaped() && id in sys.sessions && sys.sessions[id].phase.Seeding?
    requires sys.sessions[id].phase.layer < w.layers && sys.sessions[id].phase.k <= |sys.sessions[id].path.acts|
    requires CanSeed(w, sys.store, sys.sessions[id], sys.sessions[id].phase.k, sys.sessions[id].phase.layer)
    ensures var s, sys' := sys.sessions[id], Next(w, mode, sys, SeedOne(id));
      && sys' == sys.(sessions := sys'.sessions) && id in sys'.sessions
      && sys'.sessions[id] == s.(phase := Seeding(s.phase.k, s.phase.layer + 1), engine := sys'.sessions[id].engine)
  {
    hide CanSeed, WarmRing;
  }

  lemma {:induction false} CanSeedNow(w: World, mode: Mode, events: seq<Event>, id: nat)
    requires w.Valid() && id in Run(w, mode, events).sessions && Run(w, mode, events).sessions[id].phase.Seeding?
    requires Run(w, mode, events).sessions[id].phase.layer < w.layers
    ensures var sys := Run(w, mode, events);
      sys.sessions[id].phase.k <= |sys.sessions[id].path.acts| && CanSeed(w, sys.store, sys.sessions[id], sys.sessions[id].phase.k, sys.sessions[id].phase.layer)
  {
    hide Run, CanSeed, HeldAreSafe;
    InFlightIsProtected(w, mode, events);
    assert ReadsNeverMiss(w, Run(w, mode, events), id);
  }

  /** Seeding a layer never fails, */
  lemma {:induction false} SeedAdvances(w: World, mode: Mode, events: seq<Event>, id: nat)
    requires w.Valid() && id in Run(w, mode, events).sessions && Run(w, mode, events).sessions[id].phase.Seeding?
    requires Run(w, mode, events).sessions[id].phase.layer < w.layers
    ensures var s, sys' := Run(w, mode, events).sessions[id], Run(w, mode, events + [SeedOne(id)]);
      id in sys'.sessions && sys'.sessions[id] == s.(phase := Seeding(s.phase.k, s.phase.layer + 1), engine := sys'.sessions[id].engine)
  {
    hide Run, Next, CanSeed;
    CanSeedNow(w, mode, events, id);
    RunAppends(w, mode, events, SeedOne(id));
    SeedMoves(w, mode, Run(w, mode, events), id);
  }

  lemma {:induction false} ResumeMoves(w: World, mode: Mode, sys: Sys, id: nat)
    requires w.geo.Valid() && w.Shaped() && id in sys.sessions && sys.sessions[id].phase.Seeding?
    requires sys.sessions[id].phase.layer == w.layers && sys.sessions[id].phase.k <= |sys.sessions[id].path.acts|
    ensures var s, sys' := sys.sessions[id], Next(w, mode, sys, Resume(id));
      && sys'.store == sys.store && id in sys'.sessions && sys'.sessions[id].phase == Running(0)
      && sys'.sessions[id].resumed == s.phase.k && sys'.sessions[id].path == s.path
  {
    hide Stash, Burn, Release;
  }

  /** after the last one the session is resumed at its chunk, */
  lemma {:induction false} ResumeEnds(w: World, mode: Mode, events: seq<Event>, id: nat)
    requires w.Valid() && id in Run(w, mode, events).sessions && Run(w, mode, events).sessions[id].phase.Seeding?
    requires Run(w, mode, events).sessions[id].phase.layer == w.layers
    ensures var s, sys' := Run(w, mode, events).sessions[id], Run(w, mode, events + [Resume(id)]);
      && id in sys'.sessions && sys'.sessions[id].phase == Running(0) && sys'.sessions[id].resumed == s.phase.k
      && sys'.sessions[id].path == s.path && ReplaysExactly(w, sys'.sessions[id], 0)
  {
    hide Run, Next, ReplaysExactly, IsCold;
    SessionIsOk(w, mode, events, id);
    RunAppends(w, mode, events, Resume(id));
    ResumeMoves(w, mode, Run(w, mode, events), id);
    ExactReplay(w, mode, events + [Resume(id)], id);
  }

  lemma {:induction false} DeliverMoves(w: World, mode: Mode, sys: Sys, id: nat)
    requires w.geo.Valid() && w.Shaped() && id in sys.sessions && CanDeliver(w, sys.sessions[id])
    ensures var s, sys' := sys.sessions[id], Next(w, mode, sys, Deliver(id));
      && id in sys'.sessions && sys'.sessions[id].phase == Running(s.phase.i + 1)
      && sys'.sessions[id].path == s.path && sys'.sessions[id].resumed == s.resumed
  {
    hide Compute, Advance, WriteThrough, At;
  }

  lemma {:induction false} CanDeliverNow(w: World, mode: Mode, events: seq<Event>, id: nat)
    requires w.Valid() && id in Run(w, mode, events).sessions && Run(w, mode, events).sessions[id].phase.Running?
    requires Run(w, mode, events).sessions[id].phase.i < |Run(w, mode, events).sessions[id].path.acts|
    ensures CanDeliver(w, Run(w, mode, events).sessions[id])
  {
    hide Run, IsCold;
    Reached(w, mode, events);
    SessionIsOk(w, mode, events, id);
    DeliveredOk(w, ColdOracle(w), mode, Run(w, mode, events), id);
  }

  /** and every chunk that is due is delivered. */
  lemma {:induction false} DeliverAdvances(w: World, mode: Mode, events: seq<Event>, id: nat)
    requires w.Valid() && id in Run(w, mode, events).sessions && Run(w, mode, events).sessions[id].phase.Running?
    requires Run(w, mode, events).sessions[id].phase.i < |Run(w, mode, events).sessions[id].path.acts|
    ensures var s, sys' := Run(w, mode, events).sessions[id], Run(w, mode, events + [Deliver(id)]);
      && id in sys'.sessions && sys'.sessions[id].phase == Running(s.phase.i + 1)
      && sys'.sessions[id].path == s.path && sys'.sessions[id].resumed == s.resumed
  {
    hide Run, Next, CanDeliver;
    CanDeliverNow(w, mode, events, id);
    RunAppends(w, mode, events, Deliver(id));
    DeliverMoves(w, mode, Run(w, mode, events), id);
  }

  // ------------------------------------------------------------------ what a chunk leaves in the cache

  lemma {:induction false} WrittenThrough(w: World, mode: Mode, sys: Sys, p: Path, payload: seq<KV<Token>>, latent: Latent)
    requires w.Keyed() && p.acts != []
    ensures var sys' := WriteThrough(w, mode, sys, p, p, payload, latent);
      && sys'.sessions == sys.sessions && sys'.writing == sys.writing && sys'.disk == sys.disk && sys'.nextId > sys.nextId
      && p in sys'.forest && sys'.forest[p].skeleton && sys'.forest[p].blob == Some(Blob(sys.nextId, |payload|, mode.syncPut))
      && (forall q :: q != p ==> (q in sys'.forest <==> q in sys.forest) && (q in sys.forest ==> sys'.forest[q] == sys.forest[q]))
      && sys'.queue == (if mode.syncPut then sys.queue else sys.queue + [Put(p, payload, sys.nextId)])
      && sys'.store.lat == sys.store.lat[w.key(p) := latent]
      && (forall l: nat :: mode.syncPut && l < |payload| ==> (w.key(p), l) in sys'.store.kv && sys'.store.kv[(w.key(p), l)] == payload[l])
      && (forall x :: x in sys.store.kv && (!mode.syncPut || x.0 != w.key(p)) ==> x in sys'.store.kv && sys'.store.kv[x] == sys.store.kv[x])
  {
    PutLayersIs(sys.store.kv, w.key(p), payload, |payload|);
  }

  lemma {:induction false} ColdValue(w: World, p: Path, i: nat)
    requires w.geo.Valid() && w.Shaped() && i < |p.acts|
    ensures var c := ColdChunk(w, p.Prefix(i), p.acts[i]); ColdOracle(w).Value(p.Prefix(i + 1)) == c && |c.kv| == w.layers
  {
    ValueOfPrefix(ColdOracle(w), p, i);
  }

  lemma {:induction false} GeneratingWritesThrough(w: World, mode: Mode, events: seq<Event>, id: nat)
    requires w.Valid() && id in Run(w, mode, events).sessions && Run(w, mode, events).sessions[id].phase.Running?
    requires Run(w, mode, events).sessions[id].phase.i < |Run(w, mode, events).sessions[id].path.acts|
    requires Run(w, mode, events).sessions[id].phase.i !in Run(w, mode, events).sessions[id].cached
    ensures var sys, s, sys' := Run(w, mode, events), Run(w, mode, events).sessions[id], Next(w, mode, Run(w, mode, events), Deliver(id));
      var p, c := s.path.Prefix(s.phase.i + 1), ColdChunk(w, s.path.Prefix(s.phase.i), s.path.acts[s.phase.i]);
      |c.kv| == w.layers && sys' == WriteThrough(w, mode, sys, p, p, c.kv, c.latent).(sessions := sys'.sessions)
  {
    hide Run, IsCold, WriteThrough, ColdChunk, ColdOracle, SessOk, Inv, DeliverStep;
    var sys := Run(w, mode, events);
    var s := sys.sessions[id];
    CanDeliverNow(w, mode, events, id);
    Reached(w, mode, events);
    SessionIsOk(w, mode, events, id);
    DeliverIsIngest(w, ColdOracle(w), mode, sys, id);
    ColdValue(w, s.path, s.phase.i);
  }

  /** A generated chunk is written through: its node is in the tree, pinned if it is a sink, with a skeleton and
      a new blob, which is published at once if the store writes at once; the latent and the KV in the store, or
      queued for it, are the cold run's. No other node changes. */
  lemma {:induction false} GeneratedIsWritten(w: World, mode: Mode, events: seq<Event>, id: nat)
    requires w.Valid() && id in Run(w, mode, events).sessions && Run(w, mode, events).sessions[id].phase.Running?
    requires Run(w, mode, events).sessions[id].phase.i < |Run(w, mode, events).sessions[id].path.acts|
    requires Run(w, mode, events).sessions[id].phase.i !in Run(w, mode, events).sessions[id].cached
    ensures var sys, s, sys' := Run(w, mode, events), Run(w, mode, events).sessions[id], Run(w, mode, events + [Deliver(id)]);
      var i, p, c := s.phase.i, s.path.Prefix(s.phase.i + 1), ColdChunk(w, s.path.Prefix(s.phase.i), s.path.acts[s.phase.i]);
      && p in sys'.forest && sys'.forest[p].skeleton && (sys'.forest[p].pinned <==> i < w.cfg.sinkChunks)
      && sys'.forest[p].blob == Some(Blob(sys.nextId, w.layers, mode.syncPut)) && sys'.nextId > sys.nextId
      && (forall q :: q != p ==> (q in sys'.forest <==> q in sys.forest) && (q in sys.forest ==> sys'.forest[q] == sys.forest[q]))
      && sys'.queue == (if mode.syncPut then sys.queue else sys.queue + [Put(p, c.kv, sys.nextId)])
      && sys'.store.lat == sys.store.lat[w.key(p) := c.latent]
      && (forall l: nat :: mode.syncPut && l < w.layers ==> (w.key(p), l) in sys'.store.kv && sys'.store.kv[(w.key(p), l)] == c.kv[l])
  {
    hide Run, Next, WriteThrough, ColdChunk;
    var sys := Run(w, mode, events);
    var s := sys.sessions[id];
    var p, c := s.path.Prefix(s.phase.i + 1), ColdChunk(w, s.path.Prefix(s.phase.i), s.path.acts[s.phase.i]);
    GeneratingWritesThrough(w, mode, events, id);
    WrittenThrough(w, mode, sys, p, c.kv, c.latent);
    RunAppends(w, mode, events, Deliver(id));
    SinksAreNeverEvicted(w, mode, events + [Deliver(id)], Path(p.root, []));
  }

  /** A stashed chunk is handed out and nothing is written. */
  lemma {:induction false} StashedIsNotWritten(w: World, mode: Mode, sys: Sys, id: nat)
    requires w.geo.Valid() && w.Shaped() && id in sys.sessions && CanDeliver(w, sys.sessions[id]) && sys.sessions[id].phase.i in sys.sessions[id].cached
    ensures var sys' := Next(w, mode, sys, Deliver(id));
      && sys' == sys.(sessions := sys'.sessions) && sys'.sessions.Keys == sys.sessions.Keys
      && forall j :: j in sys.sessions && j != id ==> sys'.sessions[j] == sys.sessions[j]
  {
    hide Compute, Advance, WriteThrough, At;
  }

  // ------------------------------------------------------------------ whole sessions

  lemma {:induction false} SeedsAll(w: World, mode: Mode, events: seq<Event>, id: nat, n: nat)
    requires w.Valid() && id in Run(w, mode, events).sessions && Run(w, mode, events).sessions[id].phase.Seeding?
    requires Run(w, mode, events).sessions[id].phase.layer == 0 && n <= w.layers
    ensures var s, sys' := Run(w, mode, events).sessions[id], Run(w, mode, events + seq(n, _ => SeedOne(id)));
      id in sys'.sessions && sys'.sessions[id] == s.(phase := Seeding(s.phase.k, n), engine := sys'.sessions[id].engine)
  {
    hide Run;
    if n == 0 {
      assert events + seq(0, _ => SeedOne(id)) == events;
    } else {
      SeedsAll(w, mode, events, id, n - 1);
      assert events + seq(n, _ => SeedOne(id)) == events + seq(n - 1, _ => SeedOne(id)) + [SeedOne(id)];
      SeedAdvances(w, mode, events + seq(n - 1, _ => SeedOne(id)), id);
    }
  }

  /** The steps of a lookup that resumes. */
  ghost function FastForward(id: nat, layers: nat): seq<Event> {
    [Lookup(id)] + [Materialize(id)] + seq(layers, _ => SeedOne(id)) + [Resume(id)]
  }

  lemma {:induction false} FastForwardIs(events: seq<Event>, id: nat, layers: nat)
    ensures events + [Lookup(id)] + [Materialize(id)] + seq(layers, _ => SeedOne(id)) + [Resume(id)] == events + FastForward(id, layers)
  {
  }

  lemma {:induction false} WindowIsPublished(w: World, f: Forest, p: Path, k: nat)
    requires PublishedTo(f, p, k)
    ensures WindowPublished(w, f, p, k)
  {
    WindowIncreases(k, w.cfg);
  }

  lemma {:induction false} WindowIsThere(w: World, p: Path, k: nat)
    requires w.Fitting() && Allowed(w, p) && 1 <= k <= |p.acts|
    ensures WindowDepths(k, w.cfg) != []
  {
    assert Covers(w.geo, w.cfg, k);
  }

  lemma {:induction false} HintedThenSeeding(w: World, mode: Mode, sys: Sys, id: nat, k: nat)
    requires w.Fitting() && w.Shaped() && id in sys.sessions && sys.sessions[id].phase.Opened? && Longest(sys.forest, sys.sessions[id].path, k)
    requires Allowed(w, sys.sessions[id].path) && k >= 1 && k >= w.cfg.breakEvenK
    ensures var sys' := Next(w, mode, Next(w, mode, sys, Lookup(id)), Materialize(id));
      id in sys'.sessions && sys'.sessions[id] == sys.sessions[id].(phase := Seeding(k, 0))
  {
    hide Next, WindowDepths, WindowPublished;
    var s, mid := sys.sessions[id], Next(w, mode, sys, Lookup(id));
    LookupGate(w, mode, sys, id, k);
    WindowIsThere(w, s.path, k);
    WindowIsPublished(w, sys.forest, s.path, k);
    MaterializeGate(w, mode, mid, id);
  }

  /** In every run, a session whose longest published prefix the gate admits can resume right behind it, on the
      cold run, */
  lemma {:induction false} FastForwards(w: World, mode: Mode, events: seq<Event>, id: nat, k: nat)
    requires w.Valid() && id in Run(w, mode, events).sessions && Run(w, mode, events).sessions[id].phase.Opened?
    requires Longest(Run(w, mode, events).forest, Run(w, mode, events).sessions[id].path, k) && k >= 1 && k >= w.cfg.breakEvenK
    ensures var s, sys' := Run(w, mode, events).sessions[id], Run(w, mode, events + FastForward(id, w.layers));
      && id in sys'.sessions && sys'.sessions[id].phase == Running(0) && sys'.sessions[id].resumed == k
      && sys'.sessions[id].path == s.path && ReplaysExactly(w, sys'.sessions[id], 0)
  {
    hide Run, Next, ReplaysExactly, Longest, FastForward;
    var two := events + [Lookup(id)] + [Materialize(id)];
    SessionIsOk(w, mode, events, id);
    RunAppends(w, mode, events, Lookup(id));
    RunAppends(w, mode, events + [Lookup(id)], Materialize(id));
    HintedThenSeeding(w, mode, Run(w, mode, events), id, k);
    SeedsAll(w, mode, two, id, w.layers);
    ResumeEnds(w, mode, two + seq(w.layers, _ => SeedOne(id)), id);
    FastForwardIs(events, id, w.layers);
  }

  lemma {:induction false} DeliversSome(w: World, mode: Mode, events: seq<Event>, id: nat, n: nat)
    requires w.Valid() && id in Run(w, mode, events).sessions && Run(w, mode, events).sessions[id].phase.Running?
    requires Run(w, mode, events).sessions[id].phase.i + n <= |Run(w, mode, events).sessions[id].path.acts|
    ensures var s, sys' := Run(w, mode, events).sessions[id], Run(w, mode, events + seq(n, _ => Deliver(id)));
      && id in sys'.sessions && sys'.sessions[id].phase == Running(s.phase.i + n)
      && sys'.sessions[id].path == s.path && sys'.sessions[id].resumed == s.resumed
  {
    hide Run;
    if n == 0 {
      assert events + seq(0, _ => Deliver(id)) == events;
    } else {
      DeliversSome(w, mode, events, id, n - 1);
      assert events + seq(n, _ => Deliver(id)) == events + seq(n - 1, _ => Deliver(id)) + [Deliver(id)];
      DeliverAdvances(w, mode, events + seq(n - 1, _ => Deliver(id)), id);
    }
  }

  /** and every running session can deliver all its chunks, which are the cold run's. */
  lemma {:induction false} Completes(w: World, mode: Mode, events: seq<Event>, id: nat)
    requires w.Valid() && id in Run(w, mode, events).sessions && Run(w, mode, events).sessions[id].phase.Running?
    ensures var s := Run(w, mode, events).sessions[id];
      s.phase.i <= |s.path.acts| && (
        var sys' := Run(w, mode, events + seq(|s.path.acts| - s.phase.i, _ => Deliver(id)));
        && id in sys'.sessions && |sys'.sessions[id].out| == |s.path.acts| && sys'.sessions[id].path == s.path
        && forall j :: 0 <= j < |s.path.acts| ==> sys'.sessions[id].out[j] == ColdChunk(w, s.path.Prefix(j), s.path.acts[j]).latent)
  {
    hide Run;
    ExactReplay(w, mode, events, id);
    var s := Run(w, mode, events).sessions[id];
    DeliversSome(w, mode, events, id, |s.path.acts| - s.phase.i);
    ExactReplay(w, mode, events + seq(|s.path.acts| - s.phase.i, _ => Deliver(id)), id);
  }

  // ------------------------------------------------------------------ the writer gets on

  /** Every write published whose node still waits for it. */
  ghost function PublishAll(f: Forest, puts: seq<Put>): Forest {
    if puts == [] then f else PublishAll(Publish(f, puts[0].path, puts[0].id), puts[1..])
  }

  lemma {:induction false} PublishAllRows(f: Forest, puts: seq<Put>, p: Path)
    ensures p in PublishAll(f, puts) <==> p in f
    ensures p in f && f[p].blob.None? ==> PublishAll(f, puts)[p] == f[p]
    ensures p in f && f[p].blob.Some? ==>
      var waits := exists i :: 0 <= i < |puts| && puts[i].path == p && puts[i].id == f[p].blob.value.id;
      PublishAll(f, puts)[p] == f[p].(blob := Some(f[p].blob.value.(ready := f[p].blob.value.ready || waits)))
  {
    if puts != [] {
      var g := Publish(f, puts[0].path, puts[0].id);
      PublishAllRows(g, puts[1..], p);
      if p in f && f[p].blob.Some? {
        if i :| 0 <= i < |puts| && puts[i].path == p && puts[i].id == f[p].blob.value.id {
          if i > 0 { assert puts[1..][i - 1] == puts[i]; }
        } else {
          assert puts[0].path != p || puts[0].id != f[p].blob.value.id;
          assert forall i :: 0 <= i < |puts[1..]| ==> puts[1..][i] == puts[i + 1];
        }
      }
    }
  }

  ghost predicate WriterOnly(events: seq<Event>) {
    forall i :: 0 <= i < |events| ==> events[i].WorkerTake? || events[i].WorkerLayer? || events[i].WorkerPublish?
  }

  lemma {:induction false} WriterStep(w: World, mode: Mode, sys: Sys)
    requires w.geo.Valid() && w.Shaped()
    ensures sys.writing.None? && sys.queue != [] ==>
      Next(w, mode, sys, WorkerTake) == sys.(queue := sys.queue[1..], writing := Some((sys.queue[0], 0)))
    ensures sys.writing.Some? && sys.writing.value.1 < |sys.writing.value.0.payload| ==>
      var sys' := Next(w, mode, sys, WorkerLayer); sys' == sys.(store := sys'.store, writing := Some((sys.writing.value.0, sys.writing.value.1 + 1)))
    ensures sys.writing.Some? && sys.writing.value.1 == |sys.writing.value.0.payload| ==>
      Next(w, mode, sys, WorkerPublish) == sys.(writing := None, forest := Publish(sys.forest, sys.writing.value.0.path, sys.writing.value.0.id))
  {
  }

  lemma {:induction false} WritesLayers(w: World, mode: Mode, events: seq<Event>, n: nat)
    requires w.geo.Valid() && w.Shaped() && Run(w, mode, events).writing.Some?
    requires Run(w, mode, events).writing.value.1 + n <= |Run(w, mode, events).writing.value.0.payload|
    ensures var sys, sys' := Run(w, mode, events), Run(w, mode, events + seq(n, _ => WorkerLayer));
      sys' == sys.(store := sys'.store, writing := Some((sys.writing.value.0, sys.writing.value.1 + n)))
  {
    hide Run, Next;
    if n == 0 {
      assert events + seq(0, _ => WorkerLayer) == events;
    } else {
      WritesLayers(w, mode, events, n - 1);
      assert events + seq(n, _ => WorkerLayer) == events + seq(n - 1, _ => WorkerLayer) + [WorkerLayer];
      RunAppends(w, mode, events + seq(n - 1, _ => WorkerLayer), WorkerLayer);
      WriterStep(w, mode, Run(w, mode, events + seq(n - 1, _ => WorkerLayer)));
    }
  }

  /** A write under way is written to its last layer and published. */
  lemma {:induction false} FinishesWrite(w: World, mode: Mode, events: seq<Event>) returns (more: seq<Event>)
    requires w.geo.Valid() && w.Shaped() && Run(w, mode, events).writing.Some?
    requires Run(w, mode, events).writing.value.1 <= |Run(w, mode, events).writing.value.0.payload|
    ensures var sys, sys' := Run(w, mode, events), Run(w, mode, events + more);
      var put := sys.writing.value.0;
      WriterOnly(more) && sys' == sys.(store := sys'.store, writing := None, forest := Publish(sys.forest, put.path, put.id))
  {
    hide Run, Next, Publish;
    var (put, m) := Run(w, mode, events).writing.value;
    var rest := seq(|put.payload| - m, _ => WorkerLayer);
    WritesLayers(w, mode, events, |put.payload| - m);
    RunAppends(w, mode, events + rest, WorkerPublish);
    WriterStep(w, mode, Run(w, mode, events + rest));
    more := rest + [WorkerPublish];
    assert events + more == events + rest + [WorkerPublish];
  }

  lemma {:induction false} WritesAll(w: World, mode: Mode, events: seq<Event>) returns (more: seq<Event>)
    requires w.geo.Valid() && w.Shaped() && Run(w, mode, events).writing.None?
    ensures var sys, sys' := Run(w, mode, events), Run(w, mode, events + more);
      WriterOnly(more) && sys' == sys.(store := sys'.store, queue := [], forest := PublishAll(sys.forest, sys.queue))
    decreases |Run(w, mode, events).queue|
  {
    hide Run, Next, Publish;
    var sys := Run(w, mode, events);
    if sys.queue == [] {
      more := [];
      assert events + [] == events;
    } else {
      RunAppends(w, mode, events, WorkerTake);
      WriterStep(w, mode, sys);
      var first := FinishesWrite(w, mode, events + [WorkerTake]);
      var rest := WritesAll(w, mode, events + [WorkerTake] + first);
      more := [WorkerTake] + first + rest;
      assert events + more == events + [WorkerTake] + first + rest;
    }
  }

  /** The write under way, if any, and those in the queue. */
  ghost function Due(sys: Sys): seq<Put> {
    (if sys.writing.Some? then [sys.writing.value.0] else []) + sys.queue
  }

  lemma {:induction false} WriteIsShort(w: World, mode: Mode, events: seq<Event>)
    requires w.Valid() && Run(w, mode, events).writing.Some?
    ensures Run(w, mode, events).writing.value.1 <= |Run(w, mode, events).writing.value.0.payload|
  {
    hide Run, IsCold, HeldOk;
    Reached(w, mode, events);
  }

  lemma {:induction false} WriterFinishes(w: World, mode: Mode, events: seq<Event>) returns (more: seq<Event>)
    requires w.Valid()
    ensures var sys, sys' := Run(w, mode, events), Run(w, mode, events + more);
      WriterOnly(more) && sys' == sys.(store := sys'.store, queue := [], writing := None, forest := PublishAll(sys.forest, Due(sys)))
  {
    hide Run, Publish;
    var sys := Run(w, mode, events);
    if sys.writing.Some? {
      WriteIsShort(w, mode, events);
      var first := FinishesWrite(w, mode, events);
      var rest := WritesAll(w, mode, events + first);
      more := first + rest;
      assert events + more == events + first + rest;
      assert Due(sys)[0] == sys.writing.value.0 && Due(sys)[1..] == sys.queue;
    } else {
      more := WritesAll(w, mode, events);
      assert Due(sys) == sys.queue;
    }
  }

  /** In every run the writer alone can finish all writes, and then exactly those blobs are published too that
      a write was due for. */
  lemma {:induction false} WriterPublishes(w: World, mode: Mode, events: seq<Event>) returns (more: seq<Event>)
    requires w.Valid()
    ensures var sys, sys' := Run(w, mode, events), Run(w, mode, events + more);
      && WriterOnly(more) && sys'.queue == [] && sys'.writing.None? && sys'.sessions == sys.sessions && sys'.forest.Keys == sys.forest.Keys
      && forall p :: p in sys.forest && sys.forest[p].blob.Some? ==>
        var b := sys.forest[p].blob.value;
        sys'.forest[p].blob == Some(b.(ready := b.ready || exists i :: 0 <= i < |Due(sys)| && Due(sys)[i].path == p && Due(sys)[i].id == b.id))
  {
    hide Run, PublishAll, Due;
    more := WriterFinishes(w, mode, events);
    var sys := Run(w, mode, events);
    forall p ensures p in PublishAll(sys.forest, Due(sys)) <==> p in sys.forest { PublishAllRows(sys.forest, Due(sys), p); }
    forall p | p in sys.forest && sys.forest[p].blob.Some?
      ensures var b := sys.forest[p].blob.value;
        PublishAll(sys.forest, Due(sys))[p].blob == Some(b.(ready := b.ready || exists i :: 0 <= i < |Due(sys)| && Due(sys)[i].path == p && Due(sys)[i].id == b.id))
    {
      PublishAllRows(sys.forest, Due(sys), p);
    }
  }

  /** In every run, once the chunk that follows a published prefix is generated, the writer alone can make the
      prefix with that chunk published too. */
  lemma {:induction false} GeneratedIsFound(w: World, mode: Mode, events: seq<Event>, id: nat) returns (more: seq<Event>)
    requires w.Valid() && id in Run(w, mode, events).sessions && Run(w, mode, events).sessions[id].phase.Running?
    requires Run(w, mode, events).sessions[id].phase.i < |Run(w, mode, events).sessions[id].path.acts|
    requires Run(w, mode, events).sessions[id].phase.i !in Run(w, mode, events).sessions[id].cached
    requires PublishedTo(Run(w, mode, events).forest, Run(w, mode, events).sessions[id].path, Run(w, mode, events).sessions[id].phase.i)
    ensures var s := Run(w, mode, events).sessions[id];
      WriterOnly(more) && PublishedTo(Run(w, mode, events + [Deliver(id)] + more).forest, s.path, s.phase.i + 1)
  {
    hide Run, ColdChunk;
    var sys, sys1 := Run(w, mode, events), Run(w, mode, events + [Deliver(id)]);
    var s := sys.sessions[id];
    var i := s.phase.i;
    GeneratedIsWritten(w, mode, events, id);
    more := WriterPublishes(w, mode, events + [Deliver(id)]);
    var sys2 := Run(w, mode, events + [Deliver(id)] + more);
    forall d {:trigger s.path.Prefix(d)} | 1 <= d <= i + 1
      ensures var q := s.path.Prefix(d); q in sys2.forest && sys2.forest[q].blob.Some? && sys2.forest[q].blob.value.ready
    {
      var q := s.path.Prefix(d);
      if d <= i {
        assert |q.acts| == d && q != s.path.Prefix(i + 1);
        assert q in sys1.forest && sys1.forest[q] == sys.forest[q];
      } else if !mode.syncPut {
        assert sys1.queue[|sys1.queue| - 1] == Due(sys1)[|Due(sys1)| - 1];
      }
    }
  }

  /** A write that fails publishes nothing, and the writer can still finish all the others. */
  lemma {:induction false} FailedWriteIsSkipped(w: World, mode: Mode, events: seq<Event>) returns (more: seq<Event>)
    requires w.Valid()
    ensures var sys, sys' := Run(w, mode, events), Run(w, mode, events + [WorkerFail] + more);
      && WriterOnly(more) && sys'.queue == [] && sys'.writing.None? && sys'.sessions == sys.sessions && sys'.forest.Keys == sys.forest.Keys
      && forall p :: p in sys.forest && sys.forest[p].blob.Some? ==>
        var b := sys.forest[p].blob.value;
        sys'.forest[p].blob == Some(b.(ready := b.ready || exists i :: 0 <= i < |sys.queue| && sys.queue[i].path == p && sys.queue[i].id == b.id))
  {
    hide Run;
    var sys := Run(w, mode, events);
    RunAppends(w, mode, events, WorkerFail);
    more := WriterPublishes(w, mode, events + [WorkerFail]);
    assert Due(Run(w, mode, events + [WorkerFail])) == sys.queue;
  }

  // ------------------------------------------------------------------ the next process

  /** A new process loads the last snapshot, and answers every lookup as the forest did when it was saved. */
  lemma {:induction false} RestartRemembers(w: World, mode: Mode, sys: Sys, p: Path)
    requires w.geo.Valid() && w.Shaped() && !mode.frees
    ensures var saved, sys' := Next(w, mode, sys, SaveSnapshot), Next(w, mode, Next(w, mode, sys, SaveSnapshot), Restart);
      && saved == sys.(disk := saved.disk) && sys'.sessions == map[] && sys'.queue == [] && sys'.writing.None? && sys'.store == sys.store
      && Match(sys'.forest, p, 0) == Match(sys.forest, p, 0) && (p in sys'.forest <==> p in sys.forest)
      && (p in sys.forest ==> sys'.forest[p].pinned == sys.forest[p].pinned && sys'.forest[p].skeleton == sys.forest[p].skeleton && sys'.forest[p].refs == 0)
  {
    var sys' := Next(w, mode, Next(w, mode, sys, SaveSnapshot), Restart);
    forall q ensures Ready(sys'.forest, q) <==> Ready(sys.forest, q) {}
    MatchDependsOnReady(sys'.forest, sys.forest, p, 0);
  }

  /** Nothing but saving changes what the next process will load. */
  lemma {:induction false} SnapshotStays(w: World, mode: Mode, sys: Sys, e: Event)
    requires w.geo.Valid() && w.Shaped() && !e.SaveSnapshot?
    ensures Next(w, mode, sys, e).disk == sys.disk
  {
  }

  /** A failed session is gone, and its references with it. */
  lemma {:induction false} FailGivesBack(w: World, mode: Mode, events: seq<Event>, id: nat)
    requires w.Valid()
    ensures var sys, sys' := Run(w, mode, events), Run(w, mode, events + [Fail(id)]);
      && sys'.sessions == sys.sessions - {id} && sys'.store == sys.store && sys'.forest.Keys == sys.forest.Keys
      && forall p :: p in sys.forest ==> sys'.forest[p] == sys.forest[p].(refs := |Holders(w, sys.sessions - {id}, p)|)
  {
    RunAppends(w, mode, events, Fail(id));
    RefsAreCounts(w, mode, events);
    RefsAreCounts(w, mode, events + [Fail(id)]);
  }
}
