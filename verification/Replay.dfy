/** Sessions sharing one forest and one store, with asynchronous writes, eviction and restarts, as a
    state machine; every interleaving keeps each session on the cold run of its own path. */
module Replay {
  import opened Arith
  import opened BreakEven
  import opened Ring
  import opened Window
  import opened Cold
  import opened Forest
  import opened Options

  /** Layer payloads by (locator, layer) and latents by locator; a locator is a node key. */
  datatype Store = Store(kv: map<(Key, nat), KV<Token>>, lat: map<Key, Latent>)

  datatype Put = Put(path: Path, payload: seq<KV<Token>>, id: nat)

  datatype Phase =
    | Opened                             // runtime built, not looked up yet
    | Hinted(k: nat)                     // lookup returned a node at depth k - 1
    | Seeding(k: nat, layer: nat)        // materialization in flight
    | Running(i: nat)                    // about to deliver chunk i

  datatype Sess = Sess(path: Path, phase: Phase, engine: Engine, resumed: nat, parent: Path,
                       cached: map<nat, Latent>, out: seq<Latent>)

  /** `syncPut`: writes land inside `put_async`. `frees`: eviction reclaims the stored layers. */
  datatype Mode = Mode(syncPut: bool, frees: bool)

  datatype Sys = Sys(forest: Forest, store: Store, queue: seq<Put>, writing: Option<(Put, nat)>, nextId: nat,
                     sessions: map<nat, Sess>, disk: Option<Forest>)

  datatype Event =
    | Open(id: nat, path: Path)
    | Lookup(id: nat)
    | Materialize(id: nat)
    | SeedOne(id: nat)
    | Resume(id: nat)
    | Fail(id: nat)
    | Deliver(id: nat)
    | WorkerTake | WorkerLayer | WorkerPublish | WorkerFail
    | EvictNode(node: Path)
    | SaveSnapshot
    | Restart

  const INIT := Sys(map[], Store(map[], map[]), [], None, 1, map[], None)

  // ------------------------------------------------------------------ steps

  ghost function WindowPaths(w: World, p: Path, k: nat): set<Path>
    requires k <= |p.acts|
  {
    set d | d in WindowDepths(k, w.cfg) && d < k :: p.Prefix(d + 1)
  }

  /** What reading layer `l` of the nodes at `depths` yields. */
  ghost function FetchedFrom(key: Path -> Key, store: Store, p: Path, depths: seq<nat>, k: nat, l: nat, v: bool): map<nat, seq<Token>>
    requires k <= |p.acts|
  {
    map d: nat | d in depths && d < k && (key(p.Prefix(d + 1)), l) in store.kv ::
      if v then store.kv[(key(p.Prefix(d + 1)), l)].v else store.kv[(key(p.Prefix(d + 1)), l)].k
  }

  ghost function Fetched(w: World, store: Store, p: Path, k: nat, l: nat, v: bool): map<nat, seq<Token>>
    requires k <= |p.acts|
  {
    FetchedFrom(w.key, store, p, WindowDepths(k, w.cfg), k, l, v)
  }

  ghost predicate CanSeed(w: World, store: Store, s: Sess, k: nat, l: nat)
    requires w.geo.Valid() && k <= |s.path.acts|
  {
    var frames := FramesToSeed(w.geo.frames, w.geo.sink, Times(k, w.geo.chunk));
    && l < |s.engine.rings| && |s.engine.rings[l].k| == |s.engine.rings[l].v| == w.geo.Capacity()
    && (forall d :: d in WindowDepths(k, w.cfg) ==> d < k && (w.key(s.path.Prefix(d + 1)), l) in store.kv)
    && Serves(Fetched(w, store, s.path, k, l, false), frames, w.geo.chunk, w.geo.tokens)
    && Serves(Fetched(w, store, s.path, k, l, true), frames, w.geo.chunk, w.geo.tokens)
  }

  ghost function Restarted(s: Sess): Sess {
    s.(phase := Running(0), parent := Path(s.path.root, []), resumed := 0)
  }

  ghost function Release(w: World, sys: Sys, s: Sess): Forest {
    if s.phase.Seeding? && s.phase.k <= |s.path.acts| then Retain(sys.forest, WindowPaths(w, s.path, s.phase.k), -1) else sys.forest
  }

  /** The exception path: references are given back and the session is gone. */
  ghost function Abort(w: World, sys: Sys, id: nat): Sys
    requires id in sys.sessions
  {
    sys.(forest := Release(w, sys, sys.sessions[id]), sessions := sys.sessions - {id})
  }

  ghost function LookupStep(w: World, sys: Sys, id: nat): Sys
    requires id in sys.sessions
  {
    var s := sys.sessions[id];
    var k := Match(sys.forest, s.path, 0);
    var s' := if !Admits(w.cfg.breakEvenK, k) then Restarted(s) else s.(phase := Hinted(k));
    sys.(sessions := sys.sessions[id := s'])
  }

  ghost function MaterializeStep(w: World, sys: Sys, id: nat): Sys
    requires id in sys.sessions && sys.sessions[id].phase.Hinted? && sys.sessions[id].phase.k <= |sys.sessions[id].path.acts|
  {
    var s := sys.sessions[id];
    var held := WindowPaths(w, s.path, s.phase.k);
    if held != {} && forall p :: p in held ==> Ready(sys.forest, p)
    then sys.(forest := Retain(sys.forest, held, 1), sessions := sys.sessions[id := s.(phase := Seeding(s.phase.k, 0))])
    else sys.(sessions := sys.sessions[id := Restarted(s)])
  }

  ghost function SeedStep(w: World, sys: Sys, id: nat): Sys
    requires w.geo.Valid() && id in sys.sessions && sys.sessions[id].phase.Seeding?
    requires sys.sessions[id].phase.k <= |sys.sessions[id].path.acts|
  {
    var s := sys.sessions[id];
    var k, l := s.phase.k, s.phase.layer;
    if !CanSeed(w, sys.store, s, k, l) then Abort(w, sys, id)
    else
      var ring := WarmRing(w.geo, s.engine.rings[l], k, Fetched(w, sys.store, s.path, k, l, false), Fetched(w, sys.store, s.path, k, l, true));
      var filled := Ring(ring.k, ring.v, s.engine.rings[l].globalEnd, s.engine.rings[l].localEnd);
      sys.(sessions := sys.sessions[id := s.(phase := Seeding(k, l + 1), engine := s.engine.(rings := s.engine.rings[l := filled]))])
  }

  ghost function PointAt(w: World, r: Ring<Token>, k: nat): Ring<Token>
    requires w.geo.Valid()
  {
    Ring(r.k, r.v, Times(Times(k, w.geo.chunk), w.geo.tokens),
         Times(|FramesToSeed(w.geo.frames, w.geo.sink, Times(k, w.geo.chunk))|, w.geo.tokens))
  }

  /** The latents of chunks `0..k-1`, by chunk, as far as their skeletons are in the store. */
  ghost function Stash(w: World, lat: map<Key, Latent>, p: Path, k: nat): (m: map<nat, Latent>)
    requires k <= |p.acts|
    ensures forall d :: d in m <==> 0 <= d < k && w.key(p.Prefix(d + 1)) in lat
    ensures forall d :: d in m ==> m[d] == lat[w.key(p.Prefix(d + 1))]
  {
    if k == 0 then map[]
    else
      var front := Stash(w, lat, p, k - 1);
      if w.key(p.Prefix(k)) in lat then front[k - 1 := lat[w.key(p.Prefix(k))]] else front
  }

  /** Pointers, references, stashed latents and burnt draws of a finished materialization. */
  ghost function ResumeStep(w: World, sys: Sys, id: nat): Sys
    requires w.geo.Valid() && id in sys.sessions && sys.sessions[id].phase.Seeding?
    requires sys.sessions[id].phase.k <= |sys.sessions[id].path.acts|
  {
    var s := sys.sessions[id];
    var k := s.phase.k;
    var rings := seq(|s.engine.rings|, l requires 0 <= l < |s.engine.rings| => PointAt(w, s.engine.rings[l], k));
    var cached := Stash(w, sys.store.lat, s.path, k);
    sys.(forest := Release(w, sys, s),
         sessions := sys.sessions[id := Sess(s.path, Running(0), Engine(rings, Burn(w, s.path.root, k, s.engine.gen)),
                                             k, s.path.Prefix(k), cached, s.out)])
  }

  /** The chunk's own KV: the physical tail of every layer. */
  ghost function Tail(w: World, e: Engine): seq<KV<Token>>
    requires forall l :: 0 <= l < |e.rings| ==> e.rings[l].Valid() && w.geo.ChunkTokens() <= e.rings[l].localEnd
  {
    seq(|e.rings|, l requires 0 <= l < |e.rings| => TailOf(e.rings[l], w.geo.ChunkTokens()))
  }

  ghost function TailOf(r: Ring<Token>, n: nat): KV<Token>
    requires r.Valid() && n <= r.localEnd
  {
    KV(r.k[r.localEnd - n..r.localEnd], r.v[r.localEnd - n..r.localEnd])
  }

  ghost function PutLayers(kv: map<(Key, nat), KV<Token>>, key: Key, payload: seq<KV<Token>>, n: nat): map<(Key, nat), KV<Token>>
    requires n <= |payload|
  {
    if n == 0 then kv else PutLayers(kv, key, payload, n - 1)[(key, n - 1) := payload[n - 1]]
  }

  ghost function WriteThrough(w: World, mode: Mode, sys: Sys, path: Path, locator: Path, payload: seq<KV<Token>>, latent: Latent): Sys
    requires path.acts != []
  {
    var key, id := w.key(locator), sys.nextId;
    var forest := Ingest(sys.forest, path, w.cfg.sinkChunks, id, |payload|);
    var lat := sys.store.lat[key := latent];
    if mode.syncPut
    then sys.(forest := Publish(forest, path, id), store := Store(PutLayers(sys.store.kv, key, payload, |payload|), lat), nextId := id + 1)
    else sys.(forest := forest, store := Store(sys.store.kv, lat), queue := sys.queue + [Put(locator, payload, id)], nextId := id + 1)
  }

  /** One turn of the engine loop: hand out the stashed latent, or generate and ingest. */
  ghost function DeliverStep(w: World, mode: Mode, sys: Sys, id: nat): Sys
    requires w.geo.Valid() && w.Shaped() && id in sys.sessions && sys.sessions[id].phase.Running? && sys.sessions[id].phase.i < |sys.sessions[id].path.acts|
    requires sys.sessions[id].phase.i in sys.sessions[id].cached || At(w, sys.sessions[id].engine, sys.sessions[id].phase.i)
  {
    var s := sys.sessions[id];
    var i, a := s.phase.i, s.path.acts[s.phase.i];
    if i in s.cached then
      sys.(sessions := sys.sessions[id := s.(phase := Running(i + 1), cached := s.cached - {i}, out := s.out + [s.cached[i]])])
    else
      var latent := Compute(w, s.path.root, i, a, s.engine).latent;
      var engine := Advance(w, s.path.root, i, a, s.engine);
      ChunkFits(w.geo);
      var node := s.parent.Child(a);
      var sys' := WriteThrough(w, mode, sys, node, s.path.Prefix(i + 1), Tail(w, engine), latent);
      sys'.(sessions := sys.sessions[id := s.(phase := Running(i + 1), engine := engine, parent := node, out := s.out + [latent])])
  }

  ghost function WorkerStep(w: World, sys: Sys, e: Event): Sys {
    match e
    case WorkerTake => if sys.writing.None? && sys.queue != [] then sys.(queue := sys.queue[1..], writing := Some((sys.queue[0], 0))) else sys
    case WorkerLayer =>
      if sys.writing.Some? && sys.writing.value.1 < |sys.writing.value.0.payload| then
        var (put, n) := sys.writing.value;
        sys.(store := sys.store.(kv := sys.store.kv[(w.key(put.path), n) := put.payload[n]]), writing := Some((put, n + 1)))
      else sys
    case WorkerPublish =>
      if sys.writing.Some? && sys.writing.value.1 == |sys.writing.value.0.payload| then
        sys.(forest := Publish(sys.forest, sys.writing.value.0.path, sys.writing.value.0.id), writing := None)
      else sys
    case WorkerFail => sys.(writing := None)
    case _ => sys
  }

  ghost function EvictStep(w: World, mode: Mode, sys: Sys, p: Path): Sys {
    if !Evictable(sys.forest, p) then sys
    else
      var kv := if mode.frees then map x | x in sys.store.kv && x.0 != w.key(p) :: sys.store.kv[x] else sys.store.kv;
      sys.(forest := Evict(sys.forest, p), store := sys.store.(kv := kv))
  }

  ghost function Next(w: World, mode: Mode, sys: Sys, e: Event): Sys
    requires w.geo.Valid() && w.Shaped()
  {
    match e
    case Open(id, p) =>
      if id in sys.sessions || |p.acts| != w.chunks(p.root) then sys
      else sys.(forest := GetOrCreate(sys.forest, p.root),
                sessions := sys.sessions[id := Sess(p, Opened, FreshEngine(w, p.root), 0, Path(p.root, []), map[], [])])
    case Lookup(id) => if id in sys.sessions && sys.sessions[id].phase.Opened? then LookupStep(w, sys, id) else sys
    case Materialize(id) =>
      if id in sys.sessions && sys.sessions[id].phase.Hinted? && sys.sessions[id].phase.k <= |sys.sessions[id].path.acts|
      then MaterializeStep(w, sys, id) else sys
    case SeedOne(id) =>
      if id in sys.sessions && sys.sessions[id].phase.Seeding? && sys.sessions[id].phase.layer < w.layers
        && sys.sessions[id].phase.k <= |sys.sessions[id].path.acts|
      then SeedStep(w, sys, id) else sys
    case Resume(id) =>
      if id in sys.sessions && sys.sessions[id].phase.Seeding? && sys.sessions[id].phase.layer == w.layers
        && sys.sessions[id].phase.k <= |sys.sessions[id].path.acts|
      then ResumeStep(w, sys, id) else sys
    case Fail(id) => if id in sys.sessions then Abort(w, sys, id) else sys
    case Deliver(id) =>
      if id in sys.sessions && sys.sessions[id].phase.Running? && sys.sessions[id].phase.i < |sys.sessions[id].path.acts|
        && (sys.sessions[id].phase.i in sys.sessions[id].cached || At(w, sys.sessions[id].engine, sys.sessions[id].phase.i))
      then DeliverStep(w, mode, sys, id) else sys
    case EvictNode(p) => EvictStep(w, mode, sys, p)
    case SaveSnapshot => if mode.frees then sys else sys.(disk := Some(Restored(sys.forest)))
    case Restart => if sys.disk.None? then sys else Sys(sys.disk.value, sys.store, [], None, sys.nextId, map[], sys.disk)
    case _ => WorkerStep(w, sys, e)
  }

  ghost function Run(w: World, mode: Mode, events: seq<Event>): Sys
    requires w.geo.Valid() && w.Shaped()
  {
    if events == [] then INIT else Next(w, mode, Run(w, mode, events[..|events| - 1]), events[|events| - 1])
  }

  // ------------------------------------------------------------------ the invariant

  /** Which layer payload and which latent belong to a node. */
  datatype Truth = Truth(kv: (Path, nat, KV<Token>) -> bool, lat: (Path, Latent) -> bool)

  /** The values of the runs of `o`. */
  ghost function RunTruth(w: World, o: Oracle): Truth {
    Truth((p: Path, l: nat, x) => p.acts != [] && l < |o.Value(p).kv| && x == o.Value(p).kv[l],
          (p: Path, x) => p.acts != [] && x == o.Value(p).latent)
  }

  ghost predicate Stored(w: World, kv: map<(Key, nat), KV<Token>>, p: Path) {
    forall l :: 0 <= l < w.layers ==> (w.key(p), l) in kv
  }

  ghost predicate RowOk(w: World, store: Store, p: Path, row: Row) {
    && Allowed(w, p)
    && (if p.acts == [] then row.blob.None? else row.skeleton && w.key(p) in store.lat)
    && (row.blob.Some? ==> row.blob.value.layers == w.layers)
    && (row.HasKv() ==> Stored(w, store.kv, p))
  }

  ghost predicate ForestOk(w: World, store: Store, f: Forest) {
    PrefixClosed(f) && forall p :: p in f ==> RowOk(w, store, p, f[p])
  }

  /** VALUE = f(KEY): whatever is stored under a node's key is that node's value. */
  ghost predicate StoreOk(w: World, t: Truth, store: Store) {
    && (forall p, l {:trigger (w.key(p), l) in store.kv} :: (w.key(p), l) in store.kv ==> t.kv(p, l, store.kv[(w.key(p), l)]))
    && (forall p {:trigger w.key(p) in store.lat} :: w.key(p) in store.lat ==> t.lat(p, store.lat[w.key(p)]))
  }

  ghost predicate PayloadOk(w: World, t: Truth, p: Path, payload: seq<KV<Token>>) {
    |payload| == w.layers && forall l :: 0 <= l < w.layers ==> t.kv(p, l, payload[l])
  }

  ghost predicate PutOk(w: World, t: Truth, sys: Sys, put: Put) {
    put.path.acts != [] && put.path in sys.forest && PayloadOk(w, t, put.path, put.payload) && put.id < sys.nextId
  }

  ghost predicate WritingOk(w: World, t: Truth, sys: Sys) {
    sys.writing.Some? ==>
      var (put, n) := sys.writing.value;
      && PutOk(w, t, sys, put) && n <= |put.payload|
      && (sys.forest[put.path].blob.Some? && sys.forest[put.path].blob.value.id == put.id ==>
            forall l :: 0 <= l < n ==> (w.key(put.path), l) in sys.store.kv)
  }

  ghost predicate WritesOk(w: World, t: Truth, sys: Sys) {
    && sys.nextId >= 1
    && (forall i :: 0 <= i < |sys.queue| ==> PutOk(w, t, sys, sys.queue[i]))
    && (forall p :: p in sys.forest && sys.forest[p].blob.Some? ==> sys.forest[p].blob.value.id < sys.nextId)
    && WritingOk(w, t, sys)
  }

  ghost predicate DiskOk(w: World, mode: Mode, sys: Sys) {
    sys.disk.Some? ==> !mode.frees && ForestOk(w, sys.store, sys.disk.value) && forall p :: p in sys.disk.value ==>
      sys.disk.value[p].refs == 0 && (sys.disk.value[p].blob.Some? ==> sys.disk.value[p].blob.value.id == 0)
  }

  /** Forest, store, pending writes and snapshot agree; sessions and reference counts play no part. */
  ghost predicate TableOk(w: World, t: Truth, mode: Mode, sys: Sys) {
    ForestOk(w, sys.store, sys.forest) && StoreOk(w, t, sys.store) && WritesOk(w, t, sys) && DiskOk(w, mode, sys)
  }

  ghost predicate HoldsNode(w: World, s: Sess, p: Path) {
    s.phase.Seeding? && s.phase.k <= |s.path.acts| && p in WindowPaths(w, s.path, s.phase.k)
  }

  ghost function Holders(w: World, sessions: map<nat, Sess>, p: Path): set<nat> {
    set id | id in sessions && HoldsNode(w, sessions[id], p)
  }

  ghost predicate Readable(w: World, sys: Sys, p: Path) {
    p in sys.forest && sys.forest[p].blob.Some? && Stored(w, sys.store.kv, p)
  }

  /** Reference counts are exact, and whatever an in-flight materialization holds stays readable. */
  ghost predicate HeldOk(w: World, sys: Sys) {
    && (forall p :: p in sys.forest ==> sys.forest[p].refs == |Holders(w, sys.sessions, p)|)
    && (forall id, p :: id in sys.sessions && HoldsNode(w, sys.sessions[id], p) ==> Readable(w, sys, p))
  }

  ghost predicate SeededTo(w: World, o: Oracle, s: Sess, k: nat, l: nat)
    requires w.geo.Valid() && o.Shaped(w) && k <= |s.path.acts|
  {
    && |s.engine.rings| == w.layers && l <= w.layers
    && (forall j :: 0 <= j < w.layers ==> |s.engine.rings[j].k| == |s.engine.rings[j].v| == w.geo.Capacity())
    && forall j :: 0 <= j < l ==>
      Holds(PointAt(w, s.engine.rings[j], k), w.geo.SinkTokens(), Flatten(LayerRun(w, o, s.path.Prefix(k), j)))
  }

  /** A running session delivered the run's latents, still has the rest of its stash, and its engine
      tracks the run up to the resume point or the current chunk, whichever is later. */
  ghost predicate RunningOk(w: World, o: Oracle, s: Sess, i: nat)
    requires o.Shaped(w)
  {
    && i <= |s.path.acts| && s.resumed <= |s.path.acts| && |s.out| == i
    && (forall j :: 0 <= j < i ==> s.out[j] == o.chunk(s.path.Prefix(j), s.path.acts[j]).latent)
    && (forall j :: j in s.cached <==> i <= j < s.resumed)
    && (forall j :: j in s.cached ==> s.cached[j] == o.chunk(s.path.Prefix(j), s.path.acts[j]).latent)
    && s.parent == s.path.Prefix(if i < s.resumed then s.resumed else i)
    && Tracks(w, o, s.parent, s.engine)
  }

  ghost predicate SessOk(w: World, o: Oracle, s: Sess)
    requires w.geo.Valid() && o.Shaped(w)
  {
    && Allowed(w, s.path)
    && match s.phase
       case Opened => s.engine == FreshEngine(w, s.path.root) && s.out == [] && s.cached == map[]
       case Hinted(k) => 1 <= k <= |s.path.acts| && s.engine == FreshEngine(w, s.path.root) && s.out == [] && s.cached == map[]
       case Seeding(k, l) =>
         1 <= k <= |s.path.acts| && s.out == [] && s.engine.gen == w.gen0(s.path.root) && SeededTo(w, o, s, k, l)
       case Running(i) => RunningOk(w, o, s, i)
  }

  /** The node a session hangs on to is in the tree, and with it all the nodes above. */
  ghost predicate Anchored(f: Forest, s: Sess) {
    && Path(s.path.root, []) in f
    && (s.phase.Hinted? && s.phase.k <= |s.path.acts| ==> s.path.Prefix(s.phase.k) in f)
    && (s.phase.Seeding? && s.phase.k <= |s.path.acts| ==> s.path.Prefix(s.phase.k) in f)
    && (s.phase.Running? ==> s.parent in f)
  }

  ghost predicate SessionsOk(ok: Sess -> bool, f: Forest, sessions: map<nat, Sess>) {
    forall id :: id in sessions ==> ok(sessions[id]) && Anchored(f, sessions[id])
  }

  ghost function Faithful(w: World, o: Oracle): Sess -> bool {
    s => w.geo.Valid() && o.Shaped(w) && SessOk(w, o, s)
  }

  ghost predicate Inv(w: World, o: Oracle, mode: Mode, sys: Sys) {
    TableOk(w, RunTruth(w, o), mode, sys) && HeldOk(w, sys) && SessionsOk(Faithful(w, o), sys.forest, sys.sessions)
  }
}
