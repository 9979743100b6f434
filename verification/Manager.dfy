/** The cache manager's actions on the mutable trie: window walk, materialization, ingest, publish and
    eviction. Each is tied to its step on the table of rows. */
module Manager {
  import opened Arith
  import opened Ring
  import opened Window
  import opened Cold
  import opened Forest
  import opened Options
  import opened Replay
  import opened Trie

  // ------------------------------------------------------------------ the window walk

  function Reverse<T>(s: seq<T>): (r: seq<T>)
    ensures |r| == |s| && forall i :: 0 <= i < |r| ==> r[i] == s[|s| - 1 - i]
  {
    seq(|s|, i requires 0 <= i < |s| => s[|s| - 1 - i])
  }

  /** The nodes on the way from the virtual root to a node, by number of actions. */
  ghost predicate IsChain(f: NamespaceForest, p: Path, chain: seq<TrieNode>)
    reads f
  {
    && |chain| == |p.acts| + 1 && Linked(chain)
    && (forall j :: 0 <= j < |chain| ==> p.Prefix(j) in f.nodes && chain[j] == f.nodes[p.Prefix(j)])
  }

  lemma {:induction false} ChainOf(f: NamespaceForest, p: Path) returns (chain: seq<TrieNode>)
    requires f.Valid() && p in f.nodes
    ensures IsChain(f, p, chain)
    decreases |p.acts|
  {
    assert p.Prefix(|p.acts|) == p;
    if p.acts == [] {
      chain := [f.nodes[p]];
    } else {
      f.NoOrphans(p);
      var above := ChainOf(f, p.Parent());
      chain := above + [f.nodes[p]];
      forall j | 0 <= j < |chain| ensures p.Prefix(j) in f.nodes && chain[j] == f.nodes[p.Prefix(j)] && chain[j].depth == j - 1 {
        if j < |p.acts| { assert p.Parent().Prefix(j) == p.Prefix(j); }
      }
      assert p.Parent().Prefix(|p.acts| - 1) == p.Parent();
    }
  }

  /** The walk up the parent links returns the sinks and the most recent chunks of the node's path. */
  method WindowPath(f: NamespaceForest, node: TrieNode, cfg: Config) returns (path: seq<TrieNode>)
    requires f.Valid() && node.path in f.nodes && f.nodes[node.path] == node
    ensures var p, depths := node.path, WindowDepths(|node.path.acts|, cfg);
      && |path| == |depths|
      && forall i :: 0 <= i < |path| ==> depths[i] < |p.acts| && p.Prefix(depths[i] + 1) in f.nodes && path[i] == f.nodes[p.Prefix(depths[i] + 1)]
  {
    ghost var k := |node.path.acts|;
    ghost var chain := ChainOf(f, node.path);
    assert node.path.Prefix(k) == node.path;
    var recent, n := WalkRecent(chain, node, cfg.windowChunks);
    var sinks := WalkSinks(chain[..k - |recent| + 1], n, cfg.sinkChunks);
    path := Reverse(sinks) + Reverse(recent);
    WindowOrder(chain, recent, sinks, k, cfg);
  }

  lemma {:induction false} WindowOrder(chain: seq<TrieNode>, recent: seq<TrieNode>, sinks: seq<TrieNode>, k: nat, cfg: Config)
    requires |chain| == k + 1 && |recent| == Min(k, cfg.windowChunks) && |sinks| == Min(k - |recent|, cfg.sinkChunks)
    requires forall i :: 0 <= i < |recent| ==> recent[i] == chain[k - i]
    requires forall i :: 0 <= i < |sinks| ==> sinks[i] == chain[|sinks| - i]
    ensures var path, depths := Reverse(sinks) + Reverse(recent), WindowDepths(k, cfg);
      |path| == |depths| && forall i :: 0 <= i < |path| ==> depths[i] < k && path[i] == chain[depths[i] + 1]
  {
  }

  ghost predicate Linked(chain: seq<TrieNode>) {
    && chain != []
    && (forall j :: 0 <= j < |chain| ==> chain[j].depth == j - 1)
    && (forall j :: 0 < j < |chain| ==> chain[j].parent == chain[j - 1])
  }

  /** Up to `window` nodes from the bottom of the chain upwards, and where the walk stopped. */
  method WalkRecent(ghost chain: seq<TrieNode>, node: TrieNode, window: nat) returns (recent: seq<TrieNode>, n: TrieNode?)
    requires Linked(chain) && node == chain[|chain| - 1]
    ensures |recent| == Min(|chain| - 1, window) && n == chain[|chain| - 1 - |recent|]
    ensures forall i :: 0 <= i < |recent| ==> recent[i] == chain[|chain| - 1 - i]
  {
    recent, n := [], node;
    while n != null && n.depth >= 0 && |recent| < window
      invariant |recent| <= Min(|chain| - 1, window) && n == chain[|chain| - 1 - |recent|]
      invariant forall i :: 0 <= i < |recent| ==> recent[i] == chain[|chain| - 1 - i]
      decreases |chain| - |recent|
    {
      recent := recent + [n];
      n := n.parent;
    }
  }

  /** The nodes among the first `sinkChunks` that are still above, from the bottom upwards. */
  method WalkSinks(ghost chain: seq<TrieNode>, start: TrieNode?, sinkChunks: nat) returns (sinks: seq<TrieNode>)
    requires Linked(chain) && start == chain[|chain| - 1]
    ensures var top := Min(|chain| - 1, sinkChunks);
      |sinks| == top && forall i :: 0 <= i < |sinks| ==> sinks[i] == chain[top - i]
  {
    var n := start;
    ghost var m := |chain| - 1;
    ghost var top := Min(|chain| - 1, sinkChunks);
    sinks := [];
    while n != null && n.depth >= 0
      invariant 0 <= m < |chain| && n == chain[m]
      invariant |sinks| == if top < m then 0 else top - m
      invariant forall i :: 0 <= i < |sinks| ==> sinks[i] == chain[top - i]
      decreases m
    {
      if n.depth < sinkChunks {
        sinks := sinks + [n];
      }
      n := n.parent;
      m := m - 1;
    }
    assert m == 0;
  }

  // ------------------------------------------------------------------ ingest, publish, evict

  method SetValue(ghost nodes: Index, node: TrieNode, handle: BlobHandle, pin: bool)
    requires (forall p :: p in nodes ==> nodes[p].path == p) && Tabled(nodes) && node.path in nodes && nodes[node.path] == node
    modifies node`pinned, node`skeleton, node`blob
    ensures Tabled(nodes) && node.blob == handle && node.skeleton == Some(node.key)
    ensures forall p :: p in nodes && p != node.path ==> nodes[p].blob == old(nodes[p].blob) && nodes[p].skeleton == old(nodes[p].skeleton)
    ensures Rows(nodes) == old(Rows(nodes))[node.path := Row(old(node.pinned) || pin, old(node.refCount), true, Some(Blob(handle.id, handle.layers, handle.ready)))]
  {
    if pin {
      node.pinned := true;
    }
    node.skeleton := Some(node.key);
    node.blob := handle;
  }

  lemma {:induction false} HandledGrows(nodes: Index, handles: seq<BlobHandle>, keyOf: Path -> Key, node: TrieNode, handle: BlobHandle)
    requires node.path in nodes && nodes[node.path] == node && node.skeleton == Some(keyOf(node.path)) && node.blob == handle
    requires handle.id == |handles| && handle.owner == node.path && handle.locator == keyOf(node.path)
    requires Handled(nodes - {node.path}, handles, keyOf)
    ensures Handled(nodes, handles + [handle], keyOf)
  {
    var nodes' := nodes - {node.path};
    forall p | p in nodes ensures nodes[p].skeleton.Some? ==> nodes[p].skeleton == Some(keyOf(p)) {
      if p != node.path { assert p in nodes'; }
    }
    forall p | p in nodes && nodes[p].blob != null
      ensures nodes[p].blob.owner == p && nodes[p].blob.locator == keyOf(p) && nodes[p].blob.id < |handles + [handle]| && (handles + [handle])[nodes[p].blob.id] == nodes[p].blob
    {
      if p != node.path { assert p in nodes' && nodes'[p].blob != null; }
    }
  }

  method HangBlob(f: NamespaceForest, node: TrieNode, layers: nat, pin: bool) returns (handle: BlobHandle)
    requires f.Valid() && node.path in f.nodes && f.nodes[node.path] == node
    modifies f`handles, node`pinned, node`skeleton, node`blob
    ensures f.Valid() && fresh(handle) && handle.id == |old(f.handles)| && f.handles == old(f.handles) + [handle] && handle.owner == node.path
    ensures f.Abs() == old(f.Abs())[node.path := Row(old(node.pinned) || pin, old(node.refCount), true, Some(Blob(handle.id, layers, false)))]
  {
    handle := new BlobHandle(node.key, layers, node.path, |f.handles|, false);
    ghost var before := f.handles;
    f.handles := f.handles + [handle];
    SetValue(f.nodes, node, handle, pin);
    HandledGrows(f.nodes, before, f.keyOf, node, handle);
  }

  /** Write-through of a finalized chunk: get or create the node, pin a sink, set the skeleton, and
      hang on a new unpublished handle. The handle goes to the store's writer. */
  method IngestChunk(f: NamespaceForest, parent: TrieNode, action: Action, nodeKey: Key, depth: nat, layers: nat, cfg: Config)
    returns (node: TrieNode, handle: BlobHandle)
    requires f.Valid() && parent.path in f.nodes && f.nodes[parent.path] == parent
    requires nodeKey == f.keyOf(parent.path.Child(action)) && depth == |parent.path.acts|
    modifies f, f.nodes.Values
    ensures f.Valid() && node.path == parent.path.Child(action) && node.path in f.nodes && f.nodes[node.path] == node
    ensures fresh(handle) && handle.id == |old(f.handles)| && f.handles == old(f.handles) + [handle] && handle.owner == node.path
    ensures f.Abs() == Ingest(old(f.Abs()), node.path, cfg.sinkChunks, handle.id, layers)
  {
    ghost var before := f.Abs();
    node := f.Commit(parent, action, nodeKey, depth);
    ghost var committed := f.Abs();
    assert committed[node.path] == node.AsRow();
    handle := HangBlob(f, node, layers, depth < cfg.sinkChunks);
    CommitThenHang(before, committed, node.path, cfg.sinkChunks, handle.id, layers);
  }

  lemma {:induction false} CommitThenHang(before: Forest, committed: Forest, c: Path, sinkChunks: nat, id: nat, layers: nat)
    requires c.acts != [] && committed == if c in before then before else before[c := Row(false, 0, false, None)]
    ensures Ingest(before, c, sinkChunks, id, layers)
      == committed[c := Row(committed[c].pinned || |c.acts| - 1 < sinkChunks, committed[c].refs, true, Some(Blob(id, layers, false)))]
  {
  }

  /** The writer's callback. It reaches the node only while the node still has this very handle. */
  method PublishHandle(f: NamespaceForest, handle: BlobHandle)
    requires f.Valid() && handle.id < |f.handles| && f.handles[handle.id] == handle
    modifies handle`ready
    ensures f.Valid() && f.Abs() == Publish(old(f.Abs()), handle.owner, handle.id)
  {
    handle.ready := true;
  }

  method ClearBlob(ghost nodes: Index, ghost handles: seq<BlobHandle>, ghost keyOf: Path -> Key, node: TrieNode)
    requires (forall p :: p in nodes ==> nodes[p].path == p) && Handled(nodes, handles, keyOf) && node.path in nodes && nodes[node.path] == node
    modifies node`blob
    ensures node.blob == null && Handled(nodes, handles, keyOf) && Rows(nodes) == old(Rows(nodes))[node.path := old(node.AsRow()).(blob := None)]
  {
    node.blob := null;
  }

  /** Drops the blob of an unpinned, unreferenced node, and only then. */
  method EvictBlob(f: NamespaceForest, node: TrieNode) returns (evicted: bool)
    requires f.Valid() && node.path in f.nodes && f.nodes[node.path] == node
    modifies node`blob
    ensures f.Valid() && (evicted <==> !old(node.pinned) && old(node.refCount) <= 0 && old(node.blob) != null)
    ensures node.blob == (if evicted then null else old(node.blob)) && f.Abs() == Evict(old(f.Abs()), node.path)
  {
    if node.pinned || node.refCount > 0 || node.blob == null {
      return false;
    }
    ClearBlob(f.nodes, f.handles, f.keyOf, node);
    evicted := true;
  }

  // ------------------------------------------------------------------ materialize

  datatype Outcome = Materialized | Incomplete | Raised

  method BumpAll(ghost nodes: Index, path: seq<TrieNode>, delta: int)
    requires forall i :: 0 <= i < |path| ==> path[i].path in nodes && nodes[path[i].path] == path[i]
    requires forall i, j :: 0 <= i < j < |path| ==> path[i] != path[j]
    modifies nodes.Values`refCount
    ensures forall n :: n in path ==> n.refCount == old(n.refCount) + delta
    ensures forall p :: p in nodes && nodes[p] !in path ==> nodes[p].refCount == old(nodes[p].refCount)
  {
    for i := 0 to |path|
      invariant forall j :: 0 <= j < i ==> path[j].refCount == old(path[j].refCount) + delta
      invariant forall j :: i <= j < |path| ==> path[j].refCount == old(path[j].refCount)
      invariant forall p :: p in nodes && nodes[p] !in path ==> nodes[p].refCount == old(nodes[p].refCount)
    {
      path[i].refCount := path[i].refCount + delta;
    }
  }

  /** In flight: one more reference on every node of the window, or one less. */
  method Bump(ghost nodes: Index, path: seq<TrieNode>, delta: int)
    requires forall p :: p in nodes ==> nodes[p].path == p
    requires forall i :: 0 <= i < |path| ==> path[i].path in nodes && nodes[path[i].path] == path[i]
    requires forall i, j :: 0 <= i < j < |path| ==> path[i] != path[j]
    modifies nodes.Values`refCount
    ensures Rows(nodes) == Retain(old(Rows(nodes)), set n | n in path :: n.path, delta)
  {
    BumpAll(nodes, path, delta);
    ghost var held := set n | n in path :: n.path;
    forall p | p in nodes ensures p in held <==> nodes[p] in path {
      if p in held {
        var n :| n in path && n.path == p;
      }
    }
  }

  lemma {:induction false} RetainUndone(f: Forest, held: set<Path>)
    ensures Retain(Retain(f, held, 1), held, -1) == f
  {
  }

  // ------------------------------------------------------------------ the layer loop

  /** Where a window node's layers are: its depth and its locator. */
  type Place = (nat, Key)

  /** The layer reads that work; any other raises. */
  type Fetchable = map<(Key, nat), KV<Token>>

  /** The pairs handed to the window for one layer: chunk depth and that chunk's KV. */
  ghost function Pairs(places: seq<Place>, store: Fetchable, l: nat): seq<(nat, KV<Token>)>
    requires forall i :: 0 <= i < |places| ==> (places[i].1, l) in store
  {
    seq(|places|, i requires 0 <= i < |places| => (places[i].0, store[(places[i].1, l)]))
  }

  ghost predicate OnPlaces(path: seq<TrieNode>, places: seq<Place>)
    reads path`blob
  {
    |path| == |places| && forall i :: 0 <= i < |path| ==>
      path[i].depth == places[i].0 && path[i].blob != null && path[i].blob.locator == places[i].1
  }

  ghost predicate Chunked(store: Fetchable, n: nat) {
    forall x :: x in store ==> |store[x].k| == |store[x].v| == n
  }

  ghost predicate Stocked(places: seq<Place>, store: Fetchable, l: nat) {
    forall i :: 0 <= i < |places| ==> (places[i].1, l) in store
  }

  /** The KV of one layer for every window node, unless a read raises. */
  method FetchLayer(path: seq<TrieNode>, store: Fetchable, layer: nat, ghost places: seq<Place>)
    returns (blobs: seq<(nat, KV<Token>)>, ok: bool)
    requires OnPlaces(path, places)
    ensures ok <==> Stocked(places, store, layer)
    ensures ok ==> blobs == Pairs(places, store, layer)
  {
    blobs := [];
    for i := 0 to |path|
      invariant Stocked(places[..i], store, layer) && blobs == Pairs(places[..i], store, layer)
    {
      assert path[i].depth == places[i].0;
      if (path[i].blob.locator, layer) !in store {
        return blobs, false;
      }
      blobs := blobs + [(path[i].depth as nat, store[(path[i].blob.locator, layer)])];
    }
    assert places[..|path|] == places;
    ok := true;
  }

  ghost predicate SameGeometry(g: Geometry, window: RingKVWindow<Token>) {
    g == Geometry(window.bufFrames, window.sink, window.chunkSize, window.frameTokens) && g.Valid()
  }

  /** `now` holds what seeding `dirty` from the chunks in `fk` and `fv` gives. */
  ghost predicate Seeded(g: Geometry, k: nat, fk: map<nat, seq<Token>>, fv: map<nat, seq<Token>>, dirty: Ring<Token>, now: Ring<Token>)
    requires g.Valid()
  {
    var frames := FramesToSeed(g.frames, g.sink, Times(k, g.chunk));
    && |dirty.k| == |dirty.v| == g.Capacity()
    && Serves(fk, frames, g.chunk, g.tokens) && Serves(fv, frames, g.chunk, g.tokens)
    && now.k == WarmRing(g, dirty, k, fk, fv).k && now.v == WarmRing(g, dirty, k, fk, fv).v
  }

  ghost predicate SeededAt(g: Geometry, k: nat, places: seq<Place>, store: Fetchable, l: nat, dirty: Ring<Token>, now: Ring<Token>)
    requires g.Valid()
  {
    && Stocked(places, store, l)
    && Seeded(g, k, Dict(Pairs(places, store, l), false), Dict(Pairs(places, store, l), true), dirty, now)
  }

  /** The window has the chunk of every frame the ring needs. */
  ghost predicate Suffices(g: Geometry, k: nat, places: seq<Place>, store: Fetchable, l: nat)
    requires g.Valid()
  {
    var frames := FramesToSeed(g.frames, g.sink, Times(k, g.chunk));
    Stocked(places, store, l) && forall i :: 0 <= i < |frames| ==> ChunkOf(frames[i], g.chunk) in Dict(Pairs(places, store, l), false)
  }

  ghost predicate AllSuffice(g: Geometry, k: nat, places: seq<Place>, store: Fetchable, n: nat)
    requires g.Valid()
  {
    forall l :: 0 <= l < n ==> Suffices(g, k, places, store, l)
  }

  ghost function FillOf(g: Geometry, k: nat): nat
    requires g.Valid()
  {
    Times(|FramesToSeed(g.frames, g.sink, Times(k, g.chunk))|, g.tokens)
  }

  ghost function Values(layers: seq<KVLayer<Token>>): (vs: seq<Ring<Token>>)
    reads layers, set l | l in layers :: l.k, set l | l in layers :: l.v
    ensures |vs| == |layers| && forall l :: 0 <= l < |vs| ==> vs[l] == layers[l].Value()
  {
    if layers == [] then [] else Values(layers[..|layers| - 1]) + [layers[|layers| - 1].Value()]
  }

  /** One turn of the layer loop. */
  method SeedOneLayer(window: RingKVWindow<Token>, path: seq<TrieNode>, store: Fetchable, layer: nat, depth: nat,
                      ghost g: Geometry, ghost places: seq<Place>) returns (ok: bool)
    requires window.Valid() && SameGeometry(g, window) && layer < |window.layers|
    requires OnPlaces(path, places) && Chunked(store, g.ChunkTokens())
    modifies window`localEndTokens, window.layers[layer].k, window.layers[layer].v
    ensures window.Valid() && Values(window.layers) == old(Values(window.layers))[layer := window.layers[layer].Value()]
    ensures ok <==> Suffices(g, depth + 1, places, store, layer)
    ensures ok ==>
      && SeededAt(g, depth + 1, places, store, layer, old(Values(window.layers))[layer], Values(window.layers)[layer])
      && window.localEndTokens == FillOf(g, depth + 1)
  {
    var blobs, fetched := FetchLayer(path, store, layer, places);
    if !fetched {
      return false;
    }
    ok := window.SeedLayer(layer, blobs, depth);
  }

  /** The first `n` layers are seeded from the stored layers of the places, the others as they were. */
  ghost predicate SeededTo(g: Geometry, k: nat, places: seq<Place>, store: Fetchable, dirty: seq<Ring<Token>>, now: seq<Ring<Token>>, n: nat)
    requires g.Valid()
  {
    && n <= |dirty| == |now|
    && (forall l :: 0 <= l < n ==> SeededAt(g, k, places, store, l, dirty[l], now[l]))
    && (forall l :: n <= l < |now| ==> now[l] == dirty[l])
  }

  lemma {:induction false} SeededOneMore(g: Geometry, k: nat, places: seq<Place>, store: Fetchable,
                                         dirty: seq<Ring<Token>>, was: seq<Ring<Token>>, now: seq<Ring<Token>>, n: nat)
    requires g.Valid() && SeededTo(g, k, places, store, dirty, was, n) && n < |was| == |now|
    requires SeededAt(g, k, places, store, n, was[n], now[n])
    requires forall l :: 0 <= l < |now| && l != n ==> now[l] == was[l]
    ensures SeededTo(g, k, places, store, dirty, now, n + 1)
  {
  }

  /** The layer loop: all layers seeded, or the first `n` and then a read or a chunk is missing. */
  method SeedLayers(window: RingKVWindow<Token>, path: seq<TrieNode>, store: Fetchable, depth: nat, ghost g: Geometry, ghost places: seq<Place>)
    returns (ok: bool)
    requires window.Valid() && SameGeometry(g, window) && OnPlaces(path, places) && Chunked(store, g.ChunkTokens())
    modifies window`localEndTokens, set l | l in window.layers :: l.k, set l | l in window.layers :: l.v
    ensures window.Valid()
    ensures ok <==> AllSuffice(g, depth + 1, places, store, |window.layers|)
    ensures ok ==> SeededTo(g, depth + 1, places, store, old(Values(window.layers)), Values(window.layers), |window.layers|)
    ensures ok && window.layers != [] ==> window.localEndTokens == FillOf(g, depth + 1)
  {
    hide Suffices, SeededAt, FillOf, Values;
    ghost var dirty := Values(window.layers);
    for layer := 0 to |window.layers|
      invariant window.Valid() && SeededTo(g, depth + 1, places, store, dirty, Values(window.layers), layer)
      invariant AllSuffice(g, depth + 1, places, store, layer)
      invariant layer > 0 ==> window.localEndTokens == FillOf(g, depth + 1)
    {
      ghost var was := Values(window.layers);
      ok := SeedOneLayer(window, path, store, layer, depth, g, places);
      if !ok {
        return;
      }
      SeededOneMore(g, depth + 1, places, store, dirty, was, Values(window.layers), layer);
    }
    ok := true;
  }

  ghost predicate Reset(g: Geometry, k: nat, r: Ring<Token>)
    requires g.Valid()
  {
    r.globalEnd == Times(Times(k, g.chunk), g.tokens) && r.localEnd == FillOf(g, k)
  }

  /** Layer loop, then pointers. */
  method SeedAndReset(window: RingKVWindow<Token>, path: seq<TrieNode>, store: Fetchable, depth: nat, ghost g: Geometry, ghost places: seq<Place>)
    returns (ok: bool)
    requires window.Valid() && SameGeometry(g, window) && OnPlaces(path, places) && Chunked(store, g.ChunkTokens())
    modifies window`localEndTokens, window.layers, set l | l in window.layers :: l.k, set l | l in window.layers :: l.v
    ensures window.Valid()
    ensures ok <==> AllSuffice(g, depth + 1, places, store, |window.layers|)
    ensures ok ==> forall l :: 0 <= l < |window.layers| ==>
      && SeededAt(g, depth + 1, places, store, l, old(window.layers[l].Value()), window.layers[l].Value())
      && Reset(g, depth + 1, window.layers[l].Value())
  {
    hide WarmRing, Serves;
    ok := SeedLayers(window, path, store, depth, g, places);
    if ok && window.layers != [] {
      FramesFit(g.frames, g.sink, Times(depth + 1, g.chunk), g.tokens);
      window.SetResumeDepth(depth);
    }
  }

  /** The protected part: seed and reset with every window node referenced, then give the references
      back, whether or not a read raised or a chunk was missing. */
  method SeedWindow(ghost nodes: Index, window: RingKVWindow<Token>, path: seq<TrieNode>, store: Fetchable, depth: nat,
                    ghost g: Geometry, ghost places: seq<Place>) returns (ok: bool)
    requires window.Valid() && SameGeometry(g, window) && OnPlaces(path, places) && Chunked(store, g.ChunkTokens())
    requires forall p :: p in nodes ==> nodes[p].path == p
    requires forall i :: 0 <= i < |path| ==> path[i].path in nodes && nodes[path[i].path] == path[i]
    requires forall i, j :: 0 <= i < j < |path| ==> path[i] != path[j]
    modifies window`localEndTokens, window.layers, set l | l in window.layers :: l.k, set l | l in window.layers :: l.v, nodes.Values`refCount
    ensures window.Valid() && Rows(nodes) == old(Rows(nodes))
    ensures ok <==> AllSuffice(g, depth + 1, places, store, |window.layers|)
    ensures ok ==> forall l :: 0 <= l < |window.layers| ==>
      && SeededAt(g, depth + 1, places, store, l, old(window.layers[l].Value()), window.layers[l].Value())
      && Reset(g, depth + 1, window.layers[l].Value())
  {
    ghost var held, before := set n | n in path :: n.path, Rows(nodes);
    Bump(nodes, path, 1);
    ok := SeedAndReset(window, path, store, depth, g, places);
    assert Rows(nodes) == Retain(before, held, 1);
    Bump(nodes, path, -1);
    RetainUndone(before, held);
  }

  ghost function PlacesOf(key: Path -> Key, p: Path, cfg: Config): (r: seq<Place>)
    ensures |r| == |WindowDepths(|p.acts|, cfg)|
  {
    var depths := WindowDepths(|p.acts|, cfg);
    seq(|depths|, i requires 0 <= i < |depths| => (depths[i], key(p.Prefix(if depths[i] < |p.acts| then depths[i] + 1 else 0))))
  }

  /** The window of `p` is there and published throughout. */
  ghost predicate Complete(f: Forest, p: Path, cfg: Config) {
    var depths := WindowDepths(|p.acts|, cfg);
    depths != [] && forall i :: 0 <= i < |depths| ==> depths[i] < |p.acts| && Ready(f, p.Prefix(depths[i] + 1))
  }

  method CheckComplete(path: seq<TrieNode>) returns (complete: bool)
    ensures complete <==> path != [] && forall i :: 0 <= i < |path| ==> path[i].HasKv()
  {
    for i := 0 to |path|
      invariant forall j :: 0 <= j < i ==> path[j].HasKv()
    {
      if !path[i].HasKv() {
        return false;
      }
    }
    complete := path != [];
  }

  ghost predicate WalkOf(f: NamespaceForest, p: Path, path: seq<TrieNode>, depths: seq<nat>)
    reads f
  {
    |path| == |depths| && forall i :: 0 <= i < |path| ==>
      depths[i] < |p.acts| && p.Prefix(depths[i] + 1) in f.nodes && path[i] == f.nodes[p.Prefix(depths[i] + 1)]
  }

  lemma {:induction false} WalkNodes(f: NamespaceForest, p: Path, path: seq<TrieNode>, depths: seq<nat>)
    requires f.Valid() && WalkOf(f, p, path, depths) && forall i, j :: 0 <= i < j < |depths| ==> depths[i] < depths[j]
    ensures forall i :: 0 <= i < |path| ==> path[i].path == p.Prefix(depths[i] + 1) && f.nodes[path[i].path] == path[i] && path[i].depth == depths[i]
    ensures forall i :: 0 <= i < |path| ==> (Ready(f.Abs(), p.Prefix(depths[i] + 1)) <==> path[i].HasKv())
    ensures forall i, j :: 0 <= i < j < |path| ==> path[i] != path[j]
  {
    forall i | 0 <= i < |path|
      ensures path[i].path == p.Prefix(depths[i] + 1) && f.nodes[path[i].path] == path[i] && path[i].depth == depths[i]
      ensures Ready(f.Abs(), p.Prefix(depths[i] + 1)) <==> path[i].HasKv()
    {
      var q := p.Prefix(depths[i] + 1);
      assert f.nodes[q].path == q && f.nodes[q].Placed(f.keyOf);
    }
    forall i, j | 0 <= i < j < |path| ensures path[i] != path[j] {
      assert |path[i].path.acts| == depths[i] + 1;
    }
  }

  lemma {:induction false} WalkIsReady(f: NamespaceForest, p: Path, path: seq<TrieNode>, depths: seq<nat>)
    requires WalkOf(f, p, path, depths) && f.Valid()
    requires forall i :: 0 <= i < |path| ==> path[i].HasKv() && path[i].path == p.Prefix(depths[i] + 1) && path[i].depth == depths[i]
    ensures forall i :: 0 <= i < |path| ==> path[i].blob != null && path[i].blob.locator == f.keyOf(p.Prefix(depths[i] + 1))
  {
  }

  /** What the walk and the completeness check together establish. */
  lemma {:induction false} WindowPlaces(f: NamespaceForest, p: Path, path: seq<TrieNode>, cfg: Config)
    requires f.Valid() && p in f.nodes && WalkOf(f, p, path, WindowDepths(|p.acts|, cfg))
    ensures Complete(f.Abs(), p, cfg) <==> path != [] && forall i :: 0 <= i < |path| ==> path[i].HasKv()
    ensures Complete(f.Abs(), p, cfg) ==> OnPlaces(path, PlacesOf(f.keyOf, p, cfg))
    ensures forall i, j :: 0 <= i < j < |path| ==> path[i] != path[j]
    ensures forall i :: 0 <= i < |path| ==> path[i].path in f.nodes && f.nodes[path[i].path] == path[i]
  {
    var depths := WindowDepths(|p.acts|, cfg);
    WindowIncreases(|p.acts|, cfg);
    WalkNodes(f, p, path, depths);
    if Complete(f.Abs(), p, cfg) { WalkIsReady(f, p, path, depths); }
  }

  /** The window nodes, and whether all of them are published. */
  method FindWindow(f: NamespaceForest, node: TrieNode, cfg: Config) returns (path: seq<TrieNode>, complete: bool)
    requires f.Valid() && node.path in f.nodes && f.nodes[node.path] == node
    ensures complete <==> Complete(f.Abs(), node.path, cfg)
    ensures complete ==> OnPlaces(path, PlacesOf(f.keyOf, node.path, cfg)) && node.depth == |node.path.acts| - 1 >= 0
    ensures forall i, j :: 0 <= i < j < |path| ==> path[i] != path[j]
    ensures forall i :: 0 <= i < |path| ==> path[i].path in f.nodes && f.nodes[path[i].path] == path[i]
  {
    path := WindowPath(f, node, cfg);
    WindowPlaces(f, node.path, path, cfg);
    complete := CheckComplete(path);
    assert node.depth == |node.path.acts| - 1;
  }

  /** Seed the engine's rings from the window above `node`, with every window node referenced meanwhile.
      An incomplete window touches nothing; reference counts are back afterwards whatever happened. */
  method Materialize(f: NamespaceForest, node: TrieNode, window: RingKVWindow<Token>, store: Fetchable, cfg: Config, ghost g: Geometry)
    returns (r: Outcome)
    requires f.Valid() && node.path in f.nodes && f.nodes[node.path] == node
    requires window.Valid() && SameGeometry(g, window) && Chunked(store, g.ChunkTokens())
    modifies window`localEndTokens, window.layers, set l | l in window.layers :: l.k, set l | l in window.layers :: l.v, f.nodes.Values`refCount
    ensures f.Valid() && window.Valid() && f.Abs() == old(f.Abs())
    ensures r.Incomplete? <==> !Complete(f.Abs(), node.path, cfg)
    ensures r.Incomplete? ==> forall l :: 0 <= l < |window.layers| ==> window.layers[l].Value() == old(window.layers[l].Value())
    ensures !r.Incomplete? ==>
      (r.Materialized? <==> AllSuffice(g, |node.path.acts|, PlacesOf(f.keyOf, node.path, cfg), store, |window.layers|))
    ensures r.Materialized? ==> forall l :: 0 <= l < |window.layers| ==>
      && SeededAt(g, |node.path.acts|, PlacesOf(f.keyOf, node.path, cfg), store, l, old(window.layers[l].Value()), window.layers[l].Value())
      && Reset(g, |node.path.acts|, window.layers[l].Value())
  {
    hide PlacesOf, Complete, SeededAt, AllSuffice, Reset;
    var path, complete := FindWindow(f, node, cfg);
    if !complete {
      return Incomplete;
    }
    ghost var places := PlacesOf(f.keyOf, node.path, cfg);
    var ok := SeedWindow(f.nodes, window, path, store, node.depth, g, places);
    r := if ok then Materialized else Raised;
  }

  // ------------------------------------------------------------------ the same steps on the table

  lemma {:induction false} DictAt<T>(blobs: seq<(nat, KV<T>)>, v: bool, i: nat)
    requires (forall j, m :: 0 <= j < m < |blobs| ==> blobs[j].0 < blobs[m].0) && i < |blobs|
    ensures blobs[i].0 in Dict(blobs, v) && Dict(blobs, v)[blobs[i].0] == if v then blobs[i].1.v else blobs[i].1.k
  {
    if i < |blobs| - 1 { DictAt(blobs[..|blobs| - 1], v, i); }
  }

  lemma {:induction false} DictIndex<T>(blobs: seq<(nat, KV<T>)>, v: bool, d: nat) returns (i: nat)
    requires d in Dict(blobs, v)
    ensures i < |blobs| && blobs[i].0 == d
  {
    i := |blobs| - 1;
    if blobs[i].0 != d { i := DictIndex(blobs[..i], v, d); }
  }

  lemma {:induction false} DictIs<T>(blobs: seq<(nat, KV<T>)>, v: bool, target: map<nat, seq<T>>)
    requires forall j, m :: 0 <= j < m < |blobs| ==> blobs[j].0 < blobs[m].0
    requires forall i :: 0 <= i < |blobs| ==> blobs[i].0 in target && target[blobs[i].0] == if v then blobs[i].1.v else blobs[i].1.k
    requires forall d :: d in target ==> exists i :: 0 <= i < |blobs| && blobs[i].0 == d
    ensures Dict(blobs, v) == target
  {
    forall d | d in Dict(blobs, v) ensures d in target {
      var i := DictIndex(blobs, v, d);
    }
    forall d | d in target ensures d in Dict(blobs, v) && Dict(blobs, v)[d] == target[d] {
      var i :| 0 <= i < |blobs| && blobs[i].0 == d;
      DictAt(blobs, v, i);
    }
  }

  lemma {:induction false} PairsAreFetchedFrom(key: Path -> Key, places: seq<Place>, store: Store, p: Path, depths: seq<nat>, l: nat, v: bool)
    requires forall i, j :: 0 <= i < j < |depths| ==> depths[i] < depths[j]
    requires |places| == |depths| && Stocked(places, store.kv, l)
    requires forall i :: 0 <= i < |depths| ==> depths[i] < |p.acts| && places[i] == (depths[i], key(p.Prefix(depths[i] + 1)))
    ensures Dict(Pairs(places, store.kv, l), v) == FetchedFrom(key, store, p, depths, |p.acts|, l, v)
  {
    var blobs, target := Pairs(places, store.kv, l), FetchedFrom(key, store, p, depths, |p.acts|, l, v);
    forall i | 0 <= i < |blobs| ensures blobs[i].0 in target && target[blobs[i].0] == if v then blobs[i].1.v else blobs[i].1.k {
      assert depths[i] in depths;
    }
    forall d | d in target ensures exists i :: 0 <= i < |blobs| && blobs[i].0 == d {
      var i :| 0 <= i < |depths| && depths[i] == d;
      assert blobs[i].0 == d;
    }
    DictIs(blobs, v, target);
  }

  /** The dictionary handed to the window is what the step on the table fetches. */
  lemma {:induction false} PairsAreFetched(w: World, store: Store, p: Path, l: nat, v: bool)
    requires Stocked(PlacesOf(w.key, p, w.cfg), store.kv, l)
    ensures Dict(Pairs(PlacesOf(w.key, p, w.cfg), store.kv, l), v) == Fetched(w, store, p, |p.acts|, l, v)
  {
    WindowIncreases(|p.acts|, w.cfg);
    PairsAreFetchedFrom(w.key, PlacesOf(w.key, p, w.cfg), store, p, WindowDepths(|p.acts|, w.cfg), l, v);
  }

  lemma {:induction false} HoldableFrom(f: Forest, p: Path, depths: seq<nat>)
    requires forall i :: 0 <= i < |depths| ==> depths[i] < |p.acts|
    ensures var held := set d | d in depths && d < |p.acts| :: p.Prefix(d + 1);
      (depths != [] && forall i :: 0 <= i < |depths| ==> Ready(f, p.Prefix(depths[i] + 1))) <==> held != {} && forall q :: q in held ==> Ready(f, q)
  {
    hide Ready;
    var held := set d | d in depths && d < |p.acts| :: p.Prefix(d + 1);
    forall i | 0 <= i < |depths| ensures p.Prefix(depths[i] + 1) in held {
      assert depths[i] in depths;
    }
    if depths != [] { assert p.Prefix(depths[0] + 1) in held; }
  }

  /** A complete window is one whose paths can all be held. */
  lemma {:induction false} CompleteIsHoldable(w: World, f: Forest, p: Path)
    ensures var held := WindowPaths(w, p, |p.acts|);
      Complete(f, p, w.cfg) <==> held != {} && forall q :: q in held ==> Ready(f, q)
  {
    WindowIncreases(|p.acts|, w.cfg);
    HoldableFrom(f, p, WindowDepths(|p.acts|, w.cfg));
  }

  /** What `Materialize` leaves in a layer is what the steps on the table put there. */
  lemma {:induction false} MaterializedRing(w: World, store: Store, p: Path, l: nat, dirty: Ring<Token>, now: Ring<Token>)
    requires w.geo.Valid() && SeededAt(w.geo, |p.acts|, PlacesOf(w.key, p, w.cfg), store.kv, l, dirty, now) && Reset(w.geo, |p.acts|, now)
    ensures var fk, fv := Fetched(w, store, p, |p.acts|, l, false), Fetched(w, store, p, |p.acts|, l, true);
      var frames := FramesToSeed(w.geo.frames, w.geo.sink, Times(|p.acts|, w.geo.chunk));
      && Serves(fk, frames, w.geo.chunk, w.geo.tokens) && Serves(fv, frames, w.geo.chunk, w.geo.tokens)
      && now == PointAt(w, WarmRing(w.geo, dirty, |p.acts|, fk, fv), |p.acts|)
  {
    PairsAreFetched(w, store, p, l, false);
    PairsAreFetched(w, store, p, l, true);
  }
}
