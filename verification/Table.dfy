/** The shared tables under every event: forest, store, pending writes, snapshot, reference counts.
    Nothing here looks at what the values are, only that keys and values stay together. */
module Table {
  import opened Ring
  import opened Cold
  import opened Forest
  import opened Options
  import opened Replay

  // ------------------------------------------------------------------ references

  lemma {:induction false} HoldersSplit(w: World, sessions: map<nat, Sess>, id: nat, p: Path)
    requires id in sessions
    ensures var rest := Holders(w, sessions - {id}, p);
      id !in rest && Holders(w, sessions, p) == if HoldsNode(w, sessions[id], p) then rest + {id} else rest
  {
  }

  lemma {:induction false} HoldersOf(w: World, sessions: map<nat, Sess>, id: nat, s: Sess, p: Path)
    requires id in sessions
    ensures |Holders(w, sessions[id := s], p)|
      == |Holders(w, sessions, p)| - (if HoldsNode(w, sessions[id], p) then 1 else 0) + (if HoldsNode(w, s, p) then 1 else 0)
  {
    var rest := Holders(w, sessions - {id}, p);
    HoldersSplit(w, sessions, id, p);
    HoldersSplit(w, sessions[id := s], id, p);
    assert sessions[id := s] - {id} == sessions - {id};
  }

  lemma {:induction false} HoldersWithout(w: World, sessions: map<nat, Sess>, id: nat, p: Path)
    requires id in sessions
    ensures |Holders(w, sessions - {id}, p)| == |Holders(w, sessions, p)| - (if HoldsNode(w, sessions[id], p) then 1 else 0)
  {
    HoldersSplit(w, sessions, id, p);
  }

  /** Same nodes, same handles, same pins: only reference counts may differ. */
  ghost predicate SameButRefs(f: Forest, g: Forest) {
    f.Keys == g.Keys && forall p :: p in f ==> f[p].(refs := 0) == g[p].(refs := 0)
  }

  lemma {:induction false} RefsDontMatter(w: World, t: Truth, mode: Mode, sys: Sys, f: Forest, sessions: map<nat, Sess>)
    requires TableOk(w, t, mode, sys) && SameButRefs(f, sys.forest)
    ensures TableOk(w, t, mode, sys.(forest := f, sessions := sessions))
  {
    forall p | p in f ensures RowOk(w, sys.store, p, f[p]) {
      assert f[p].(refs := 0) == sys.forest[p].(refs := 0);
    }
    var sys' := sys.(forest := f, sessions := sessions);
    forall i | 0 <= i < |sys.queue| ensures PutOk(w, t, sys', sys.queue[i]) {
      assert PutOk(w, t, sys, sys.queue[i]);
    }
    forall p | p in f && f[p].blob.Some? ensures f[p].blob.value.id < sys.nextId {
      assert f[p].(refs := 0) == sys.forest[p].(refs := 0);
    }
    if sys.writing.Some? {
      var p := sys.writing.value.0.path;
      assert f[p].(refs := 0) == sys.forest[p].(refs := 0);
    }
  }

  /** A session changing without taking or giving up nodes. */
  lemma {:induction false} SwapKeepsHeld(w: World, sys: Sys, id: nat, s: Sess)
    requires HeldOk(w, sys) && id in sys.sessions
    requires forall p :: HoldsNode(w, s, p) <==> HoldsNode(w, sys.sessions[id], p)
    ensures HeldOk(w, sys.(sessions := sys.sessions[id := s]))
  {
    var sys' := sys.(sessions := sys.sessions[id := s]);
    forall p | p in sys.forest ensures sys.forest[p].refs == |Holders(w, sys'.sessions, p)| {
      HoldersOf(w, sys.sessions, id, s, p);
    }
    forall j, p | j in sys'.sessions && HoldsNode(w, sys'.sessions[j], p) ensures Readable(w, sys', p) {
      assert HoldsNode(w, sys.sessions[j], p);
      assert Readable(w, sys, p);
    }
  }

  lemma {:induction false} NobodyHolds(w: World, sys: Sys, p: Path)
    requires HeldOk(w, sys) && p !in sys.forest
    ensures Holders(w, sys.sessions, p) == {}
  {
    assert forall j :: j in sys.sessions && HoldsNode(w, sys.sessions[j], p) ==> Readable(w, sys, p);
  }

  lemma {:induction false} OpenKeepsTable(w: World, t: Truth, mode: Mode, sys: Sys, id: nat, s: Sess)
    requires TableOk(w, t, mode, sys) && HeldOk(w, sys) && id !in sys.sessions && s.phase.Opened?
    ensures var sys' := sys.(forest := GetOrCreate(sys.forest, s.path.root), sessions := sys.sessions[id := s]);
      TableOk(w, t, mode, sys') && HeldOk(w, sys')
  {
    var root := Path(s.path.root, []);
    var sys' := sys.(forest := GetOrCreate(sys.forest, s.path.root), sessions := sys.sessions[id := s]);
    forall p, k {:trigger p.Prefix(k)} | p in sys'.forest && 0 <= k <= |p.acts| ensures p.Prefix(k) in sys'.forest {
      if p == root { assert p.Prefix(k) == root; }
    }
    forall p | p in sys'.forest ensures RowOk(w, sys.store, p, sys'.forest[p]) {
      if p in sys.forest { assert RowOk(w, sys.store, p, sys.forest[p]); }
    }
    forall i | 0 <= i < |sys.queue| ensures PutOk(w, t, sys', sys.queue[i]) {
      assert PutOk(w, t, sys, sys.queue[i]);
    }
    forall p | p in sys'.forest ensures sys'.forest[p].refs == |Holders(w, sys'.sessions, p)| {
      assert Holders(w, sys'.sessions, p) == Holders(w, sys.sessions, p);
      if p !in sys.forest {
        NobodyHolds(w, sys, p);
      }
    }
    forall j, p | j in sys'.sessions && HoldsNode(w, sys'.sessions[j], p) ensures Readable(w, sys', p) {
      assert HoldsNode(w, sys.sessions[j], p);
      assert Readable(w, sys, p);
    }
  }

  /** Taking references, with every taken node published. */
  lemma {:induction false} RetainKeepsTable(w: World, t: Truth, mode: Mode, sys: Sys, id: nat, s: Sess, held: set<Path>)
    requires TableOk(w, t, mode, sys) && HeldOk(w, sys) && id in sys.sessions && !sys.sessions[id].phase.Seeding?
    requires (forall p :: HoldsNode(w, s, p) <==> p in held) && forall p :: p in held ==> Ready(sys.forest, p)
    ensures var sys' := sys.(forest := Retain(sys.forest, held, 1), sessions := sys.sessions[id := s]);
      TableOk(w, t, mode, sys') && HeldOk(w, sys')
  {
    var f := Retain(sys.forest, held, 1);
    RefsDontMatter(w, t, mode, sys, f, sys.sessions[id := s]);
    var sys' := sys.(forest := f, sessions := sys.sessions[id := s]);
    forall p | p in f ensures f[p].refs == |Holders(w, sys'.sessions, p)| {
      HoldersOf(w, sys.sessions, id, s, p);
    }
    forall j, p | j in sys'.sessions && HoldsNode(w, sys'.sessions[j], p) ensures Readable(w, sys', p) {
      if j == id {
        assert RowOk(w, sys.store, p, sys.forest[p]);
      } else {
        assert Readable(w, sys, p);
      }
    }
  }

  lemma {:induction false} ReleaseRows(w: World, sys: Sys, s: Sess)
    ensures var f := Release(w, sys, s);
      && SameButRefs(f, sys.forest)
      && forall p :: p in f ==> f[p].refs == sys.forest[p].refs - if HoldsNode(w, s, p) then 1 else 0
  {
  }

  /** Giving references back, with the session going on or gone. */
  lemma {:induction false} ReleaseKeepsTable(w: World, t: Truth, mode: Mode, sys: Sys, id: nat, sessions: map<nat, Sess>)
    requires TableOk(w, t, mode, sys) && HeldOk(w, sys) && id in sys.sessions
    requires sessions == sys.sessions - {id} || (exists s :: sessions == sys.sessions[id := s] && !s.phase.Seeding?)
    ensures var sys' := sys.(forest := Release(w, sys, sys.sessions[id]), sessions := sessions);
      TableOk(w, t, mode, sys') && HeldOk(w, sys')
  {
    var f := Release(w, sys, sys.sessions[id]);
    ReleaseRows(w, sys, sys.sessions[id]);
    RefsDontMatter(w, t, mode, sys, f, sessions);
    var sys' := sys.(forest := f, sessions := sessions);
    forall p | p in f ensures f[p].refs == |Holders(w, sessions, p)| {
      if id in sessions {
        HoldersOf(w, sys.sessions, id, sessions[id], p);
        assert sessions == sys.sessions[id := sessions[id]];
      } else {
        HoldersWithout(w, sys.sessions, id, p);
      }
    }
    forall j, p | j in sessions && HoldsNode(w, sessions[j], p) ensures Readable(w, sys', p) {
      assert j != id && HoldsNode(w, sys.sessions[j], p);
      assert Readable(w, sys, p);
      assert f[p].(refs := 0) == sys.forest[p].(refs := 0);
    }
  }

  // ------------------------------------------------------------------ writes

  lemma {:induction false} PutLayersIs(kv: map<(Key, nat), KV<Token>>, key: Key, payload: seq<KV<Token>>, n: nat)
    requires n <= |payload|
    ensures var kv' := PutLayers(kv, key, payload, n);
      && (forall x: (Key, nat) :: x in kv' <==> x in kv || (x.0 == key && x.1 < n))
      && forall x: (Key, nat) :: x in kv' ==> kv'[x] == if x.0 == key && x.1 < n then payload[x.1] else kv[x]
  {
    if n > 0 { PutLayersIs(kv, key, payload, n - 1); }
  }

  /** More true entries in the store hurt nobody. */
  ghost predicate Extends(a: Store, b: Store) {
    a.kv.Keys <= b.kv.Keys && a.lat.Keys <= b.lat.Keys
  }

  lemma {:induction false} ExtendKeepsRows(w: World, a: Store, b: Store, f: Forest)
    requires Extends(a, b) && ForestOk(w, a, f)
    ensures ForestOk(w, b, f)
  {
    forall p | p in f ensures RowOk(w, b, p, f[p]) {
      assert RowOk(w, a, p, f[p]);
    }
  }

  lemma {:induction false} ExtendKeepsHeld(w: World, sys: Sys, store: Store)
    requires Extends(sys.store, store) && HeldOk(w, sys)
    ensures HeldOk(w, sys.(store := store))
  {
    var sys' := sys.(store := store);
    forall j, p | j in sys'.sessions && HoldsNode(w, sys'.sessions[j], p) ensures Readable(w, sys', p) {
      assert Readable(w, sys, p);
    }
  }

  /** A true layer or latent lands in the store. */
  lemma {:induction false} ExtendKeepsTable(w: World, t: Truth, mode: Mode, sys: Sys, store: Store)
    requires TableOk(w, t, mode, sys) && HeldOk(w, sys) && Extends(sys.store, store) && StoreOk(w, t, store)
    ensures TableOk(w, t, mode, sys.(store := store)) && HeldOk(w, sys.(store := store))
  {
    var sys' := sys.(store := store);
    ExtendKeepsHeld(w, sys, store);
    ExtendKeepsRows(w, sys.store, store, sys.forest);
    if sys.disk.Some? { ExtendKeepsRows(w, sys.store, store, sys.disk.value); }
    forall i | 0 <= i < |sys.queue| ensures PutOk(w, t, sys', sys.queue[i]) {
      assert PutOk(w, t, sys, sys.queue[i]);
    }
    if sys.writing.Some? { assert PutOk(w, t, sys, sys.writing.value.0); }
  }

  ghost function Ingested(w: World, sys: Sys, p: Path): Sys
    requires p.acts != []
  {
    sys.(forest := Ingest(sys.forest, p, w.cfg.sinkChunks, sys.nextId, w.layers), nextId := sys.nextId + 1)
  }

  /** Ingest puts an unpublished handle on a node whose latent is already stored. */
  lemma {:induction false} IngestKeepsTable(w: World, t: Truth, mode: Mode, sys: Sys, p: Path)
    requires TableOk(w, t, mode, sys) && HeldOk(w, sys)
    requires p.acts != [] && Allowed(w, p) && p.Parent() in sys.forest && w.key(p) in sys.store.lat
    ensures TableOk(w, t, mode, Ingested(w, sys, p)) && HeldOk(w, Ingested(w, sys, p))
  {
    var sys' := Ingested(w, sys, p);
    forall q, k {:trigger q.Prefix(k)} | q in sys'.forest && 0 <= k <= |q.acts| ensures q.Prefix(k) in sys'.forest {
      if q == p {
        if k < |p.acts| { assert p.Parent().Prefix(k) == p.Prefix(k); } else { assert p.Prefix(k) == p; }
      }
    }
    forall q | q in sys'.forest ensures RowOk(w, sys.store, q, sys'.forest[q]) {
      if q != p { assert RowOk(w, sys.store, q, sys.forest[q]); }
    }
    forall i | 0 <= i < |sys.queue| ensures PutOk(w, t, sys', sys.queue[i]) {
      assert PutOk(w, t, sys, sys.queue[i]);
    }
    if sys.writing.Some? { assert PutOk(w, t, sys', sys.writing.value.0); }
    forall q | q in sys'.forest ensures sys'.forest[q].refs == |Holders(w, sys'.sessions, q)| {
      if q !in sys.forest {
        NobodyHolds(w, sys, q);
      }
    }
    forall j, q | j in sys'.sessions && HoldsNode(w, sys'.sessions[j], q) ensures Readable(w, sys', q) {
      assert Readable(w, sys, q);
    }
  }

  lemma {:induction false} PublishKeepsTable(w: World, t: Truth, mode: Mode, sys: Sys, p: Path, id: nat)
    requires TableOk(w, t, mode, sys) && HeldOk(w, sys)
    requires p in sys.forest && p.acts != []
    requires sys.forest[p].blob.Some? && sys.forest[p].blob.value.id == id ==> Stored(w, sys.store.kv, p)
    ensures var sys' := sys.(forest := Publish(sys.forest, p, id)); TableOk(w, t, mode, sys') && HeldOk(w, sys')
  {
    var sys' := sys.(forest := Publish(sys.forest, p, id));
    forall q | q in sys'.forest ensures RowOk(w, sys.store, q, sys'.forest[q]) {
      assert RowOk(w, sys.store, q, sys.forest[q]);
    }
    forall q, k {:trigger q.Prefix(k)} | q in sys'.forest && 0 <= k <= |q.acts| ensures q.Prefix(k) in sys'.forest {}
    forall i | 0 <= i < |sys.queue| ensures PutOk(w, t, sys', sys.queue[i]) {
      assert PutOk(w, t, sys, sys.queue[i]);
    }
    if sys.writing.Some? { assert PutOk(w, t, sys', sys.writing.value.0); }
    forall j, q | j in sys'.sessions && HoldsNode(w, sys'.sessions[j], q) ensures Readable(w, sys', q) {
      assert Readable(w, sys, q);
    }
  }

  lemma {:induction false} LatentIsTrue(w: World, t: Truth, store: Store, p: Path, latent: Latent)
    requires w.Keyed() && StoreOk(w, t, store) && t.lat(p, latent)
    ensures StoreOk(w, t, store.(lat := store.lat[w.key(p) := latent]))
  {
    forall q | w.key(q) in store.lat.Keys + {w.key(p)} ensures t.lat(q, store.lat[w.key(p) := latent][w.key(q)]) {
      assert w.pathOf(w.key(q)) == q;
    }
  }

  lemma {:induction false} LayersAreTrue(w: World, t: Truth, store: Store, p: Path, payload: seq<KV<Token>>, n: nat)
    requires w.Keyed() && StoreOk(w, t, store) && PayloadOk(w, t, p, payload) && n <= |payload|
    ensures StoreOk(w, t, store.(kv := PutLayers(store.kv, w.key(p), payload, n)))
    ensures store.kv.Keys <= PutLayers(store.kv, w.key(p), payload, n).Keys
    ensures n == |payload| ==> Stored(w, PutLayers(store.kv, w.key(p), payload, n), p)
  {
    var kv := PutLayers(store.kv, w.key(p), payload, n);
    PutLayersIs(store.kv, w.key(p), payload, n);
    forall q, l: nat | (w.key(q), l) in kv ensures t.kv(q, l, kv[(w.key(q), l)]) {
      assert w.pathOf(w.key(q)) == q;
    }
  }

  /** Write-through of a node's own value, synchronous or queued. */
  lemma {:induction false} WriteThroughKeepsTable(w: World, t: Truth, mode: Mode, sys: Sys, p: Path, payload: seq<KV<Token>>, latent: Latent)
    requires w.Keyed() && TableOk(w, t, mode, sys) && HeldOk(w, sys)
    requires p.acts != [] && Allowed(w, p) && p.Parent() in sys.forest
    requires PayloadOk(w, t, p, payload) && t.lat(p, latent)
    ensures var sys' := WriteThrough(w, mode, sys, p, p, payload, latent); TableOk(w, t, mode, sys') && HeldOk(w, sys')
  {
    hide HeldOk, ForestOk, WritesOk, DiskOk, PutLayers;
    var store := sys.store.(lat := sys.store.lat[w.key(p) := latent]);
    LatentIsTrue(w, t, sys.store, p, latent);
    ExtendKeepsTable(w, t, mode, sys, store);
    var sys1 := sys.(store := store);
    if mode.syncPut {
      PutNowKeepsTable(w, t, mode, sys1, p, payload);
    } else {
      PutLaterKeepsTable(w, t, mode, sys1, p, payload);
    }
  }

  lemma {:induction false} PutNowKeepsTable(w: World, t: Truth, mode: Mode, sys: Sys, p: Path, payload: seq<KV<Token>>)
    requires w.Keyed() && TableOk(w, t, mode, sys) && HeldOk(w, sys)
    requires p.acts != [] && Allowed(w, p) && p.Parent() in sys.forest && w.key(p) in sys.store.lat && PayloadOk(w, t, p, payload)
    ensures var store := sys.store.(kv := PutLayers(sys.store.kv, w.key(p), payload, |payload|));
      var sys1 := Ingested(w, sys, p).(store := store);
      var sys' := sys1.(forest := Publish(sys1.forest, p, sys.nextId));
      TableOk(w, t, mode, sys') && HeldOk(w, sys')
  {
    hide HeldOk;
    var store := sys.store.(kv := PutLayers(sys.store.kv, w.key(p), payload, |payload|));
    LayersAreTrue(w, t, sys.store, p, payload, |payload|);
    ExtendKeepsTable(w, t, mode, sys, store);
    IngestKeepsTable(w, t, mode, sys.(store := store), p);
    PublishKeepsTable(w, t, mode, Ingested(w, sys, p).(store := store), p, sys.nextId);
  }

  lemma {:induction false} PutLaterKeepsTable(w: World, t: Truth, mode: Mode, sys: Sys, p: Path, payload: seq<KV<Token>>)
    requires TableOk(w, t, mode, sys) && HeldOk(w, sys)
    requires p.acts != [] && Allowed(w, p) && p.Parent() in sys.forest && w.key(p) in sys.store.lat && PayloadOk(w, t, p, payload)
    ensures var sys1 := Ingested(w, sys, p);
      var sys' := sys1.(queue := sys.queue + [Put(p, payload, sys.nextId)]);
      TableOk(w, t, mode, sys') && HeldOk(w, sys')
  {
    IngestKeepsTable(w, t, mode, sys, p);
    var sys1 := Ingested(w, sys, p);
    QueueKeepsTable(w, t, mode, sys1, sys1.queue + [Put(p, payload, sys.nextId)], sys1.writing);
  }

  lemma {:induction false} QueueKeepsTable(w: World, t: Truth, mode: Mode, sys: Sys, queue: seq<Put>, writing: Option<(Put, nat)>)
    requires TableOk(w, t, mode, sys) && HeldOk(w, sys)
    requires forall i :: 0 <= i < |queue| ==> PutOk(w, t, sys, queue[i])
    requires writing == sys.writing || writing == None || (writing.Some? && writing.value.1 == 0 && PutOk(w, t, sys, writing.value.0))
    ensures var sys' := sys.(queue := queue, writing := writing); TableOk(w, t, mode, sys') && HeldOk(w, sys')
  {
    var sys' := sys.(queue := queue, writing := writing);
    forall i | 0 <= i < |queue| ensures PutOk(w, t, sys', queue[i]) { assert PutOk(w, t, sys, queue[i]); }
    if writing.Some? { assert PutOk(w, t, sys', writing.value.0); }
    forall j, q | j in sys'.sessions && HoldsNode(w, sys'.sessions[j], q) ensures Readable(w, sys', q) {
      assert Readable(w, sys, q);
    }
  }

  lemma {:induction false} WorkerKeepsTable(w: World, t: Truth, mode: Mode, sys: Sys, e: Event)
    requires w.Keyed() && TableOk(w, t, mode, sys) && HeldOk(w, sys)
    ensures TableOk(w, t, mode, WorkerStep(w, sys, e)) && HeldOk(w, WorkerStep(w, sys, e))
    ensures WorkerStep(w, sys, e).forest.Keys == sys.forest.Keys && WorkerStep(w, sys, e).sessions == sys.sessions
  {
    match e
    case WorkerTake =>
      if sys.writing.None? && sys.queue != [] {
        QueueKeepsTable(w, t, mode, sys, sys.queue[1..], Some((sys.queue[0], 0)));
      }
    case WorkerLayer =>
      if sys.writing.Some? && sys.writing.value.1 < |sys.writing.value.0.payload| {
        LayerKeepsTable(w, t, mode, sys);
      }
    case WorkerPublish =>
      if sys.writing.Some? && sys.writing.value.1 == |sys.writing.value.0.payload| {
        WriteEndKeepsTable(w, t, mode, sys);
      }
    case WorkerFail => QueueKeepsTable(w, t, mode, sys, sys.queue, None);
    case _ =>
  }

  lemma {:induction false} WriteEndKeepsTable(w: World, t: Truth, mode: Mode, sys: Sys)
    requires w.Keyed() && TableOk(w, t, mode, sys) && HeldOk(w, sys)
    requires sys.writing.Some? && sys.writing.value.1 == |sys.writing.value.0.payload|
    ensures TableOk(w, t, mode, WorkerStep(w, sys, WorkerPublish)) && HeldOk(w, WorkerStep(w, sys, WorkerPublish))
    ensures WorkerStep(w, sys, WorkerPublish).forest.Keys == sys.forest.Keys
  {
    var put := sys.writing.value.0;
    PublishKeepsTable(w, t, mode, sys, put.path, put.id);
    var sys' := sys.(forest := Publish(sys.forest, put.path, put.id));
    QueueKeepsTable(w, t, mode, sys', sys'.queue, None);
  }

  lemma {:induction false} LayerKeepsTable(w: World, t: Truth, mode: Mode, sys: Sys)
    requires w.Keyed() && TableOk(w, t, mode, sys) && HeldOk(w, sys)
    requires sys.writing.Some? && sys.writing.value.1 < |sys.writing.value.0.payload|
    ensures TableOk(w, t, mode, WorkerStep(w, sys, WorkerLayer)) && HeldOk(w, WorkerStep(w, sys, WorkerLayer))
  {
    var (put, n) := sys.writing.value;
    var store := sys.store.(kv := sys.store.kv[(w.key(put.path), n) := put.payload[n]]);
    forall q, l: nat | (w.key(q), l) in store.kv ensures t.kv(q, l, store.kv[(w.key(q), l)]) {
      assert w.pathOf(w.key(q)) == q;
    }
    ExtendKeepsTable(w, t, mode, sys, store);
    var sys' := WorkerStep(w, sys, WorkerLayer);
    forall i | 0 <= i < |sys'.queue| ensures PutOk(w, t, sys', sys'.queue[i]) { assert PutOk(w, t, sys, sys.queue[i]); }
    forall j, q | j in sys'.sessions && HoldsNode(w, sys'.sessions[j], q) ensures Readable(w, sys', q) {
      assert Readable(w, sys, q);
    }
  }

  // ------------------------------------------------------------------ eviction, snapshot, restart

  lemma {:induction false} EvictKeepsTable(w: World, t: Truth, mode: Mode, sys: Sys, p: Path)
    requires w.Keyed() && TableOk(w, t, mode, sys) && HeldOk(w, sys)
    ensures TableOk(w, t, mode, EvictStep(w, mode, sys, p)) && HeldOk(w, EvictStep(w, mode, sys, p))
    ensures EvictStep(w, mode, sys, p).forest.Keys == sys.forest.Keys
  {
    var sys' := EvictStep(w, mode, sys, p);
    if Evictable(sys.forest, p) {
      assert Holders(w, sys.sessions, p) == {};
      forall q, l: nat | q != p && (w.key(q), l) in sys.store.kv ensures (w.key(q), l) in sys'.store.kv {
        assert w.pathOf(w.key(q)) == q && w.pathOf(w.key(p)) == p;
      }
      forall q, k {:trigger q.Prefix(k)} | q in sys'.forest && 0 <= k <= |q.acts| ensures q.Prefix(k) in sys'.forest {}
      forall q | q in sys'.forest ensures RowOk(w, sys'.store, q, sys'.forest[q]) {
        assert RowOk(w, sys.store, q, sys.forest[q]);
      }
      forall i | 0 <= i < |sys.queue| ensures PutOk(w, t, sys', sys'.queue[i]) {
        assert PutOk(w, t, sys, sys.queue[i]);
      }
      if sys.writing.Some? { assert PutOk(w, t, sys', sys.writing.value.0); }
      forall j, q | j in sys'.sessions && HoldsNode(w, sys'.sessions[j], q) ensures Readable(w, sys', q) {
        assert Readable(w, sys, q) && j in Holders(w, sys.sessions, q);
      }
    }
  }

  lemma {:induction false} SaveKeepsTable(w: World, t: Truth, mode: Mode, sys: Sys)
    requires TableOk(w, t, mode, sys) && HeldOk(w, sys) && !mode.frees
    ensures var sys' := sys.(disk := Some(Restored(sys.forest))); TableOk(w, t, mode, sys') && HeldOk(w, sys')
  {
    var sys' := sys.(disk := Some(Restored(sys.forest)));
    forall q, k {:trigger q.Prefix(k)} | q in Restored(sys.forest) && 0 <= k <= |q.acts| ensures q.Prefix(k) in Restored(sys.forest) {}
    forall q | q in Restored(sys.forest) ensures RowOk(w, sys.store, q, Restored(sys.forest)[q]) {
      assert RowOk(w, sys.store, q, sys.forest[q]);
    }
    forall i | 0 <= i < |sys.queue| ensures PutOk(w, t, sys', sys'.queue[i]) { assert PutOk(w, t, sys, sys.queue[i]); }
    forall j, q | j in sys'.sessions && HoldsNode(w, sys'.sessions[j], q) ensures Readable(w, sys', q) {
      assert Readable(w, sys, q);
    }
  }

  lemma {:induction false} RestartKeepsTable(w: World, t: Truth, mode: Mode, sys: Sys)
    requires TableOk(w, t, mode, sys) && sys.disk.Some?
    ensures var sys' := Sys(sys.disk.value, sys.store, [], None, sys.nextId, map[], sys.disk); TableOk(w, t, mode, sys') && HeldOk(w, sys')
  {
    forall p ensures Holders(w, map[], p) == {} {}
  }
}
