/** Saving the tree's topology and rebuilding it in another process. */
module Snapshot {
  import opened Cold
  import opened Forest
  import opened Options
  import opened Trie

  datatype BlobRecord = BlobRecord(locator: Key, layers: nat)

  datatype Entry = Entry(key: Key, action: Option<Action>, depth: int, parent: Option<Key>, pinned: bool,
                         skeleton: Option<Key>, blob: Option<BlobRecord>)

  /** One namespace: its root and its real nodes, in no particular order. */
  datatype Record = Record(root: Root, rootKey: Key, nodes: seq<Entry>)

  ghost function EntryOf(key: Path -> Key, p: Path, row: Row): Entry
    requires p.acts != []
  {
    Entry(key(p), Some(p.acts[|p.acts| - 1]), |p.acts| - 1, Some(key(p.Parent())), row.pinned,
          if row.skeleton then Some(key(p)) else None,
          if row.HasKv() then Some(BlobRecord(key(p), row.blob.value.layers)) else None)
  }

  ghost predicate Distinct<T>(s: seq<T>) {
    forall i, j :: 0 <= i < j < |s| ==> s[i] != s[j]
  }

  ghost predicate InTree(f: Forest, r: Root, p: Path) {
    p in f && p.root == r && p.acts != []
  }

  ghost predicate Described(f: Forest, key: Path -> Key, nodes: seq<Entry>, paths: seq<Path>) {
    |nodes| == |paths| && forall i :: 0 <= i < |paths| ==> paths[i].acts != [] && paths[i] in f && nodes[i] == EntryOf(key, paths[i], f[paths[i]])
  }

  /** `nodes` has one entry for each real node of the tree of `r`, the one of `paths[i]` at `i`. */
  ghost predicate Lists(f: Forest, key: Path -> Key, r: Root, nodes: seq<Entry>, paths: seq<Path>) {
    && Distinct(paths) && (forall p :: p in paths <==> InTree(f, r, p))
    && Described(f, key, nodes, paths)
  }

  ghost predicate Records(f: Forest, key: Path -> Key, rec: Record) {
    rec.rootKey == key(Path(rec.root, [])) && exists paths :: Lists(f, key, rec.root, rec.nodes, paths)
  }

  ghost predicate IsSnapshot(f: Forest, key: Path -> Key, data: seq<Record>) {
    && (forall i, j :: 0 <= i < j < |data| ==> data[i].root != data[j].root)
    && (forall r :: Path(r, []) in f <==> exists i :: 0 <= i < |data| && data[i].root == r)
    && (forall i :: 0 <= i < |data| ==> Records(f, key, data[i]))
  }

  // ------------------------------------------------------------------ the stack walk

  ghost predicate ChildOf(p: Path, up: Path) {
    p.acts != [] && p.Parent() == up
  }

  /** `done` was recorded, `todo` is on the stack: no node twice, and nothing forgotten. */
  ghost predicate Walk(f: Forest, r: Root, done: seq<Path>, todo: seq<Path>) {
    && Distinct(done) && Distinct(todo) && (forall p :: p in done ==> p !in todo)
    && (forall p {:trigger InTree(f, r, p)} :: p in done || p in todo ==> InTree(f, r, p) && Reached(p, done))
    && (forall p {:trigger InTree(f, r, p)} :: InTree(f, r, p) && Reached(p, done) ==> p in done || p in todo)
  }

  /** The walk has come past the node above. */
  ghost predicate Reached(p: Path, done: seq<Path>) {
    |p.acts| > 1 ==> p.Parent() in done
  }

  lemma {:induction false} Append<T>(a: seq<T>, b: seq<T>)
    requires Distinct(a) && Distinct(b) && forall x :: x in a ==> x !in b
    ensures Distinct(a + b)
  {
    forall i, j | 0 <= i < j < |a + b| ensures (a + b)[i] != (a + b)[j] {
      if i < |a| <= j { assert a[i] in a && b[j - |a|] in b; }
    }
  }

  lemma {:induction false} WalkStep(f: Forest, r: Root, done: seq<Path>, todo: seq<Path>, kids: seq<Path>)
    requires Walk(f, r, done, todo) && todo != [] && Distinct(kids)
    requires forall p :: p in kids <==> p in f && ChildOf(p, todo[|todo| - 1])
    ensures Walk(f, r, done + [todo[|todo| - 1]], todo[..|todo| - 1] + kids)
  {
    var n, rest := todo[|todo| - 1], todo[..|todo| - 1];
    assert InTree(f, r, n) && todo == rest + [n];
    forall p | p in kids ensures p !in done && p !in rest && InTree(f, r, p) && Reached(p, done + [n]) {
      assert InTree(f, r, p) && p.Parent() == n;
    }
    Append(done, [n]);
    Append(rest, kids);
    forall p | p in done || p in rest ensures InTree(f, r, p) && Reached(p, done + [n]) {
      assert InTree(f, r, p);
    }
    forall p | InTree(f, r, p) && Reached(p, done + [n]) ensures p in done + [n] || p in rest + kids {
      if Reached(p, done) { assert p in done || p in todo; } else { assert ChildOf(p, n); }
    }
  }

  /** With an empty stack every node of the tree was recorded. */
  lemma {:induction false} WalkDone(f: Forest, r: Root, done: seq<Path>, p: Path)
    requires Walk(f, r, done, []) && InTree(f, r, p)
    requires forall q {:trigger q.Parent()} :: q in f && q.acts != [] ==> q.Parent() in f
    ensures p in done
    decreases |p.acts|
  {
    if |p.acts| > 1 {
      WalkDone(f, r, done, p.Parent());
    }
    assert Reached(p, done);
  }

  lemma {:induction false} DistinctFits<T>(s: seq<T>, all: set<T>)
    requires Distinct(s) && forall x :: x in s ==> x in all
    ensures |s| <= |all|
  {
    if s != [] {
      var x := s[|s| - 1];
      DistinctFits(s[..|s| - 1], all - {x});
    }
  }

  ghost function Tree(f: Forest, r: Root): set<Path> {
    set p | p in f && p.root == r && p.acts != []
  }

  /** The items of a dictionary, in some order. */
  method Items<K(==), V>(table: map<K, V>) returns (ks: seq<K>, vs: seq<V>)
    ensures |ks| == |vs| && Distinct(ks) && (forall k :: k in ks <==> k in table)
    ensures forall i :: 0 <= i < |ks| ==> ks[i] in table && vs[i] == table[ks[i]]
  {
    ks, vs := [], [];
    var left := table.Keys;
    while left != {}
      invariant left <= table.Keys && |ks| == |vs| && Distinct(ks) && (forall k :: k in ks <==> k in table && k !in left)
      invariant forall i :: 0 <= i < |ks| ==> ks[i] in table && vs[i] == table[ks[i]]
      decreases |left|
    {
      var k :| k in left;
      left := left - {k};
      ks, vs := ks + [k], vs + [table[k]];
    }
  }

  ghost predicate Stacked(f: NamespaceForest, stack: seq<TrieNode>, todo: seq<Path>)
    reads f
  {
    |stack| == |todo| && forall i :: 0 <= i < |stack| ==> todo[i] in f.nodes && stack[i] == f.nodes[todo[i]]
  }

  /** `list(node.children.values())`. */
  method Children(f: NamespaceForest, node: TrieNode) returns (kids: seq<TrieNode>, ghost paths: seq<Path>)
    requires f.Valid() && node.path in f.nodes && f.nodes[node.path] == node
    ensures Stacked(f, kids, paths) && Distinct(paths) && (forall p :: p in paths <==> p in f.nodes && ChildOf(p, node.path))
  {
    var acts;
    acts, kids := Items(node.children);
    paths := seq(|acts|, i requires 0 <= i < |acts| => node.path.Child(acts[i]));
    ChildPaths(f, node.path, node.children.Keys, acts, paths);
  }

  lemma {:induction false} ChildPaths(f: NamespaceForest, up: Path, table: set<Action>, acts: seq<Action>, paths: seq<Path>)
    requires |paths| == |acts| && Distinct(acts) && (forall a :: a in acts <==> a in table)
    requires forall a :: a in table <==> up.Child(a) in f.nodes
    requires forall i :: 0 <= i < |paths| ==> paths[i] == up.Child(acts[i])
    ensures Distinct(paths) && (forall p :: p in paths <==> p in f.nodes && ChildOf(p, up))
  {
    ChildrenHaveParents();
    forall i, j | 0 <= i < j < |paths| ensures paths[i] != paths[j] {
      assert paths[i].acts[|up.acts|] == acts[i] && paths[j].acts[|up.acts|] == acts[j];
    }
    forall p | p in f.nodes && ChildOf(p, up) ensures p in paths {
      var a := p.acts[|p.acts| - 1];
      assert p == up.Child(a) && a in acts;
      var i :| 0 <= i < |acts| && acts[i] == a;
      assert paths[i] == p;
    }
  }

  method Describe(f: NamespaceForest, node: TrieNode) returns (e: Entry)
    requires f.Valid() && node.path in f.nodes && f.nodes[node.path] == node && node.path.acts != []
    ensures e == EntryOf(f.keyOf, node.path, f.Abs()[node.path])
  {
    f.NoOrphans(node.path);
    e := Entry(node.key, node.action, node.depth, if node.parent != null then Some(node.parent.key) else None, node.pinned,
               node.skeleton, if node.HasKv() then Some(BlobRecord(node.blob.locator, node.blob.layers)) else None);
  }

  /** Depth-first over the real nodes of one namespace, with an explicit stack. */
  method SnapshotTree(f: NamespaceForest, root: TrieNode) returns (nodes: seq<Entry>)
    requires f.Valid() && root.path in f.nodes && f.nodes[root.path] == root && root.path.acts == []
    ensures exists paths :: Lists(f.Abs(), f.keyOf, root.path.root, nodes, paths)
  {
    hide Walk, NamespaceForest.Valid;
    ghost var all, r := f.Abs(), root.path.root;
    ghost var paths: seq<Path> := [];
    var stack, todo := Children(f, root);
    nodes := [];
    FirstStep(all, r, todo);
    while stack != []
      invariant Stacked(f, stack, todo) && Walk(all, r, paths, todo) && Described(all, f.keyOf, nodes, paths)
      decreases |Tree(all, r)| - |paths|
    {
      WalkTop(all, r, paths, todo);
      var e, kids, kidPaths := PopOne(f, stack, todo);
      WalkStep(all, r, paths, todo, kidPaths);
      nodes, paths := nodes + [e], paths + [todo[|todo| - 1]];
      stack, todo := stack[..|stack| - 1] + kids, todo[..|todo| - 1] + kidPaths;
    }
    WalkCovers(f, r, paths);
    assert Lists(f.Abs(), f.keyOf, r, nodes, paths);
  }

  /** Describes the node on top of the stack and lists its children. */
  method PopOne(f: NamespaceForest, stack: seq<TrieNode>, ghost todo: seq<Path>)
    returns (e: Entry, kids: seq<TrieNode>, ghost kidPaths: seq<Path>)
    requires f.Valid() && Stacked(f, stack, todo) && stack != [] && todo[|todo| - 1].acts != []
    ensures var p := todo[|todo| - 1];
      && p in f.Abs() && e == EntryOf(f.keyOf, p, f.Abs()[p])
      && Distinct(kidPaths) && (forall q :: q in kidPaths <==> q in f.Abs() && ChildOf(q, p))
      && Stacked(f, stack[..|stack| - 1] + kids, todo[..|todo| - 1] + kidPaths)
  {
    var n := stack[|stack| - 1];
    e := Describe(f, n);
    kids, kidPaths := Children(f, n);
  }

  lemma {:induction false} WalkTop(f: Forest, r: Root, done: seq<Path>, todo: seq<Path>)
    requires Walk(f, r, done, todo) && todo != []
    ensures InTree(f, r, todo[|todo| - 1]) && |done| < |Tree(f, r)|
  {
    var p := todo[|todo| - 1];
    assert InTree(f, r, p);
    forall q | q in done + [p] ensures q in Tree(f, r) { assert InTree(f, r, q); }
    Append(done, [p]);
    DistinctFits(done + [p], Tree(f, r));
  }

  lemma {:induction false} WalkCovers(f: NamespaceForest, r: Root, done: seq<Path>)
    requires f.Valid() && Walk(f.Abs(), r, done, [])
    ensures Distinct(done) && forall p :: p in done <==> InTree(f.Abs(), r, p)
  {
    forall q {:trigger q.Parent()} | q in f.Abs() && q.acts != [] ensures q.Parent() in f.Abs() { f.NoOrphans(q); }
    forall p ensures p in done <==> InTree(f.Abs(), r, p) {
      if InTree(f.Abs(), r, p) { WalkDone(f.Abs(), r, done, p); }
    }
  }

  lemma {:induction false} FirstStep(f: Forest, r: Root, kids: seq<Path>)
    requires Distinct(kids) && forall p :: p in kids <==> p in f && ChildOf(p, Path(r, []))
    ensures Walk(f, r, [], kids)
  {
    forall p | p in kids ensures InTree(f, r, p) && Reached(p, []) {
      assert ChildOf(p, Path(r, []));
    }
    forall p | InTree(f, r, p) && Reached(p, []) ensures p in kids {
      assert p.Parent() == Path(r, []);
    }
  }

  ghost predicate Saved(f: Forest, key: Path -> Key, r: Root, rec: Record) {
    rec.root == r && Records(f, key, rec)
  }

  /** One record for every namespace. */
  method Save(f: NamespaceForest) returns (data: seq<Record>)
    requires f.Valid()
    ensures IsSnapshot(f.Abs(), f.keyOf, data)
  {
    hide Saved;
    var roots, tops := Items(f.namespaces);
    data := [];
    for i := 0 to |roots|
      invariant |data| == i && forall j :: 0 <= j < i ==> Saved(f.Abs(), f.keyOf, roots[j], data[j])
    {
      var rec := SaveOne(f, roots[i]);
      data := data + [rec];
    }
    AllSaved(f.Abs(), f.keyOf, roots, data);
  }

  lemma {:induction false} AllSaved(f: Forest, key: Path -> Key, roots: seq<Root>, data: seq<Record>)
    requires |data| == |roots| && Distinct(roots) && forall j :: 0 <= j < |roots| ==> Saved(f, key, roots[j], data[j])
    requires forall r :: r in roots <==> Path(r, []) in f
    ensures IsSnapshot(f, key, data)
  {
    forall i | 0 <= i < |data| ensures data[i].root == roots[i] && Records(f, key, data[i]) {
      assert Saved(f, key, roots[i], data[i]);
    }
    forall r ensures Path(r, []) in f <==> exists i :: 0 <= i < |data| && data[i].root == r {
      if r in roots {
        var i :| 0 <= i < |roots| && roots[i] == r;
        assert data[i].root == r;
      }
    }
  }

  method SaveOne(f: NamespaceForest, r: Root) returns (rec: Record)
    requires f.Valid() && r in f.namespaces
    ensures Saved(f.Abs(), f.keyOf, r, rec)
  {
    var root := f.namespaces[r];
    var nodes := SnapshotTree(f, root);
    rec := Record(r, root.key, nodes);
  }

  // ------------------------------------------------------------------ loading

  ghost function NonRoots(f: Forest): set<Path> {
    set p | p in f && p.acts != []
  }

  /** Blob ids are local to a process. */
  ghost function ForgetIds(f: Forest): Forest {
    map p | p in f :: if f[p].blob.Some? then f[p].(blob := Some(f[p].blob.value.(id := 0))) else f[p]
  }

  /** The virtual roots carry nothing of their own. */
  ghost predicate PlainRoots(f: Forest) {
    forall p :: p in f && p.acts == [] ==> f[p].(refs := 0) == ROOT_ROW
  }

  /** `q` is `p` or below it. */
  ghost predicate Under(p: Path, q: Path) {
    p.root == q.root && p.acts <= q.acts
  }

  /** What is left when the tree hanging at `p` goes. */
  ghost function Pruned<T>(m: map<Path, T>, p: Path): map<Path, T> {
    map q | q in m && !Under(p, q) :: m[q]
  }

  ghost predicate Replaced(paths: seq<Path>, q: Path) {
    exists p :: p in paths && Under(p, q)
  }

  /** `base` with the nodes of `paths` in place of the trees that hung there. */
  ghost function Loaded(base: Forest, f: Forest, paths: seq<Path>): Forest
    requires forall p :: p in paths ==> p in f
  {
    map p | p in base.Keys + (set q | q in paths) && (p in paths || !Replaced(paths, p)) :: if p in paths then RestoredRow(f[p]) else base[p]
  }

  /** The node or one above it, below the virtual root, is in `f`. */
  ghost predicate Displaced(f: Forest, q: Path) {
    exists k :: 1 <= k <= |q.acts| && q.Prefix(k) in f
  }

  /** What loading a snapshot of `f` makes of `base`: a loaded node starts without children, so what `base`
      had below it goes, and the virtual roots stay. */
  ghost function Merge(base: Forest, f: Forest): Forest {
    map q | q in base.Keys + f.Keys && (q in f || !Displaced(f, q)) ::
      if q in f && !(q.acts == [] && q in base) then RestoredRow(f[q]) else base[q]
  }

  ghost predicate ByDepth(nodes: seq<Entry>) {
    forall i, j :: 0 <= i < j < |nodes| ==> nodes[i].depth <= nodes[j].depth
  }

  function InsertAt<T>(s: seq<T>, x: T, at: nat): (r: seq<T>)
    requires at <= |s|
    ensures |r| == |s| + 1 && forall j :: 0 <= j < |r| ==> r[j] == if j < at then s[j] else if j == at then x else s[j - 1]
  {
    s[..at] + [x] + s[at..]
  }

  lemma {:induction false} InsertDistinct<T>(s: seq<T>, x: T, at: nat)
    requires Distinct(s) && x !in s && at <= |s|
    ensures Distinct(InsertAt(s, x, at)) && forall q :: q in InsertAt(s, x, at) <==> q in s || q == x
  {
    assert InsertAt(s, x, at) == s[..at] + [x] + s[at..];
    assert s == s[..at] + s[at..];
    Append(s[..at], [x]);
    assert forall q :: q in s[..at] ==> q !in s[at..];
    Append(s[..at] + [x], s[at..]);
  }

  lemma {:induction false} InsertCounts<T>(s: seq<T>, x: T, at: nat)
    requires at <= |s|
    ensures multiset(InsertAt(s, x, at)) == multiset(s) + multiset{x}
  {
    assert InsertAt(s, x, at) == s[..at] + [x] + s[at..];
    assert s == s[..at] + s[at..];
  }

  lemma {:induction false} InsertByDepth(sorted: seq<Entry>, e: Entry, at: nat)
    requires ByDepth(sorted) && at <= |sorted| && (at > 0 ==> sorted[at - 1].depth <= e.depth)
    requires forall j :: at <= j < |sorted| ==> sorted[j].depth > e.depth
    ensures ByDepth(InsertAt(sorted, e, at))
  {
    var r := InsertAt(sorted, e, at);
    forall i, j | 0 <= i < j < |r| ensures r[i].depth <= r[j].depth {
      if i < at - 1 && j == at { assert sorted[i].depth <= sorted[at - 1].depth; }
    }
  }

  lemma {:induction false} InsertDescribed(f: Forest, key: Path -> Key, sorted: seq<Entry>, order: seq<Path>, e: Entry, p: Path, at: nat)
    requires Described(f, key, sorted, order) && at <= |sorted| && p.acts != [] && p in f && e == EntryOf(key, p, f[p])
    ensures Described(f, key, InsertAt(sorted, e, at), InsertAt(order, p, at))
  {
  }

  /** Behind everything that is not deeper. */
  method PlaceFor(sorted: seq<Entry>, depth: int) returns (at: nat)
    ensures at <= |sorted| && (at > 0 ==> sorted[at - 1].depth <= depth) && forall j :: at <= j < |sorted| ==> sorted[j].depth > depth
  {
    at := |sorted|;
    while at > 0 && sorted[at - 1].depth > depth
      invariant at <= |sorted| && forall j :: at <= j < |sorted| ==> sorted[j].depth > depth
    {
      at := at - 1;
    }
  }

  /** `sorted(nodes, key=depth)`, by insertion. */
  method SortByDepth(nodes: seq<Entry>, ghost f: Forest, ghost key: Path -> Key, ghost paths: seq<Path>) returns (sorted: seq<Entry>, ghost order: seq<Path>)
    requires Described(f, key, nodes, paths) && Distinct(paths)
    ensures ByDepth(sorted) && multiset(sorted) == multiset(nodes) && |sorted| == |nodes|
    ensures Described(f, key, sorted, order) && Distinct(order) && forall p :: p in order <==> p in paths
  {
    sorted, order := [], [];
    for i := 0 to |nodes|
      invariant ByDepth(sorted) && multiset(sorted) == multiset(nodes[..i])
      invariant Described(f, key, sorted, order) && Distinct(order) && |order| == i
      invariant forall p :: p in order <==> p in paths[..i]
    {
      var at := PlaceFor(sorted, nodes[i].depth);
      InsertDescribed(f, key, sorted, order, nodes[i], paths[i], at);
      InsertByDepth(sorted, nodes[i], at);
      InsertDistinct(order, paths[i], at);
      InsertCounts(sorted, nodes[i], at);
      assert nodes[..i + 1] == nodes[..i] + [nodes[i]];
      assert paths[..i + 1] == paths[..i] + [paths[i]];
      sorted, order := InsertAt(sorted, nodes[i], at), InsertAt(order, paths[i], at);
    }
    assert paths[..|nodes|] == paths && nodes[..|nodes|] == nodes;
  }

  method SetLoaded(ghost nodes: Index, ghost handles: seq<BlobHandle>, ghost keyOf: Path -> Key, node: TrieNode,
                   pinned: bool, skeleton: Option<Key>, handle: BlobHandle?)
    requires (forall p :: p in nodes ==> nodes[p].path == p) && Tabled(nodes) && Handled(nodes, handles, keyOf)
    requires node.path in nodes && nodes[node.path] == node && (skeleton.Some? ==> skeleton.value == keyOf(node.path))
    requires handle != null ==>
      handle.id < |handles| && handles[handle.id] == handle && handle.owner == node.path && handle.locator == keyOf(node.path)
    modifies node`pinned, node`skeleton, node`blob
    ensures Tabled(nodes) && Handled(nodes, handles, keyOf)
    ensures Rows(nodes) == old(Rows(nodes))[node.path :=
      Row(pinned, old(node.refCount), skeleton.Some?, if handle == null then None else Some(Blob(handle.id, handle.layers, handle.ready)))]
  {
    assert forall p :: p in nodes && p != node.path ==> nodes[p] != node;
    node.pinned := pinned;
    node.skeleton := skeleton;
    node.blob := handle;
  }

  lemma {:induction false} ForgetUpdate(f: Forest, p: Path, row: Row)
    ensures ForgetIds(f[p := row]) == ForgetIds(f)[p := if row.blob.Some? then row.(blob := Some(row.blob.value.(id := 0))) else row]
  {
  }

  /** A handle for a blob that is already in the store. */
  method PublishedHandle(f: NamespaceForest, locator: Key, layers: nat, ghost owner: Path) returns (handle: BlobHandle)
    requires f.Valid()
    modifies f`handles
    ensures f.Valid() && f.Abs() == old(f.Abs()) && handle.ready && handle.layers == layers
    ensures handle.id == |old(f.handles)| && f.handles == old(f.handles) + [handle] && handle.owner == owner && handle.locator == locator
  {
    handle := new BlobHandle(locator, layers, owner, |f.handles|, true);
    f.handles := f.handles + [handle];
  }

  ghost function LoadedRow(e: Entry, id: nat): Row {
    Row(e.pinned, 0, e.skeleton.Some?, if e.blob.Some? then Some(Blob(id, e.blob.value.layers, true)) else None)
  }

  /** The parts of a record that go on a new node. */
  method Fill(f: NamespaceForest, node: TrieNode, e: Entry)
    requires f.Valid() && node.path in f.nodes && f.nodes[node.path] == node && node.refCount == 0
    requires e.skeleton.Some? ==> e.skeleton.value == f.keyOf(node.path)
    requires e.blob.Some? ==> e.blob.value.locator == f.keyOf(node.path)
    modifies f`handles, node`pinned, node`skeleton, node`blob
    ensures f.Valid() && f.Abs() == old(f.Abs())[node.path := LoadedRow(e, |old(f.handles)|)]
  {
    var handle: BlobHandle? := null;
    if e.blob.Some? {
      handle := PublishedHandle(f, e.blob.value.locator, e.blob.value.layers, node.path);
    }
    SetLoaded(f.nodes, f.handles, f.keyOf, node, e.pinned, e.skeleton, handle);
  }

  lemma {:induction false} LoadedIsRestored(before: Forest, key: Path -> Key, p: Path, row: Row, id: nat)
    requires p.acts != []
    ensures ForgetIds(before[p := LoadedRow(EntryOf(key, p, row), id)]) == ForgetIds(before)[p := RestoredRow(row)]
  {
    ForgetUpdate(before, p, LoadedRow(EntryOf(key, p, row), id));
  }

  lemma {:induction false} SetTwice(f: Forest, p: Path, a: Row, b: Row)
    ensures f[p := a][p := b] == f[p := b]
  {
  }

  lemma {:induction false} UnderParent(p: Path, q: Path)
    requires p.acts != [] && q.acts != []
    ensures Under(p, q) <==> Under(p, q.Parent()) || q == p
  {
    if Under(p, q) && !Under(p, q.Parent()) { assert p.acts == q.acts; }
    if Under(p, q.Parent()) { assert p.acts <= q.Parent().acts <= q.acts; }
  }

  lemma {:induction false} PrunedPlaced(nodes: Index, keyOf: Path -> Key, p: Path)
    requires Placed(nodes, keyOf) && p.acts != []
    ensures Placed(Pruned(nodes, p), keyOf)
  {
    var left := Pruned(nodes, p);
    forall q | q in left && left[q].parent != null ensures Above(left, q) {
      assert Above(nodes, q) && nodes[q].Placed(keyOf);
      UnderParent(p, q);
    }
  }

  lemma {:induction false} PrunedRows(nodes: Index, p: Path)
    ensures Rows(Pruned(nodes, p)) == Pruned(Rows(nodes), p)
  {
  }

  lemma {:induction false} PrunedHandled(nodes: Index, handles: seq<BlobHandle>, keyOf: Path -> Key, p: Path)
    requires Handled(nodes, handles, keyOf)
    ensures Handled(Pruned(nodes, p), handles, keyOf)
  {
  }

  lemma {:induction false} PrunedRooted(namespaces: map<Root, TrieNode>, nodes: Index, p: Path)
    requires Rooted(namespaces, nodes) && p.acts != []
    ensures Rooted(namespaces, Pruned(nodes, p))
  {
  }

  lemma {:induction false} PrunedTabled(nodes: Index, p: Path)
    requires TabledBut(nodes, p) && p.acts != [] && forall q, a :: q in nodes && q.Child(a) == p ==> a !in nodes[q].children
    ensures Tabled(Pruned(nodes, p))
  {
    var left := Pruned(nodes, p);
    ChildrenHaveParents();
    forall q, a | q in left
      ensures a in left[q].children <==> q.Child(a) in left
      ensures a in left[q].children ==> left[q].children[a] == left[q.Child(a)]
    {
      UnderParent(p, q.Child(a));
    }
  }

  method RemoveChild(ghost nodes: Index, parent: TrieNode, action: Action)
    requires (forall p :: p in nodes ==> nodes[p].path == p) && Tabled(nodes) && parent.path in nodes && nodes[parent.path] == parent
    modifies parent`children
    ensures Tabled(Pruned(nodes, parent.path.Child(action))) && Rows(nodes) == old(Rows(nodes))
  {
    ghost var p := parent.path.Child(action);
    parent.children := parent.children - {action};
    ChildrenHaveParents();
    assert forall q :: q in nodes ==> nodes[q].AsRow() == old(nodes[q].AsRow());
    forall q, a | q in nodes && q.Child(a) == p ensures q == parent.path && a == action {
      assert q.Child(a).Parent() == q && p.acts[|q.acts|] == a;
    }
    PrunedTabled(nodes, p);
  }

  /** Takes a child out of its parent's table, and what hangs below out of the tree. */
  method Detach(f: NamespaceForest, parent: TrieNode, action: Action)
    requires f.Valid() && parent.path in f.nodes && f.nodes[parent.path] == parent
    modifies f`nodes, parent`children
    ensures f.Valid() && f.nodes == Pruned(old(f.nodes), parent.path.Child(action))
    ensures f.Abs() == Pruned(old(f.Abs()), parent.path.Child(action))
  {
    hide Tabled, Handled, Rooted, Rows, Pruned;
    ghost var p := parent.path.Child(action);
    RemoveChild(f.nodes, parent, action);
    hide Placed;
    PrunedPlaced(f.nodes, f.keyOf, p);
    PrunedHandled(f.nodes, f.handles, f.keyOf, p);
    PrunedRooted(f.namespaces, f.nodes, p);
    PrunedRows(f.nodes, p);
    f.nodes := Pruned(f.nodes, p);
  }

  lemma {:induction false} PrunedAt<T>(m: map<Path, T>, p: Path)
    requires p.acts != []
    ensures p !in Pruned(m, p) && (p.Parent() in m ==> p.Parent() in Pruned(m, p) && Pruned(m, p)[p.Parent()] == m[p.Parent()])
  {
  }

  lemma {:induction false} ForgetPruned(f: Forest, p: Path)
    ensures ForgetIds(Pruned(f, p)) == Pruned(ForgetIds(f), p)
  {
  }

  /** One turn of the load loop: a new node under its parent, where another one may have been. */
  method LoadNode(f: NamespaceForest, e: Entry, parent: TrieNode, ghost from: Forest, ghost p: Path) returns (node: TrieNode)
    requires f.Valid() && p.acts != [] && p in from && e == EntryOf(f.keyOf, p, from[p])
    requires p.Parent() in f.nodes && parent == f.nodes[p.Parent()]
    modifies f, parent
    ensures f.Valid() && fresh(node) && f.nodes == Pruned(old(f.nodes), p)[p := node] && f.namespaces == old(f.namespaces)
    ensures ForgetIds(f.Abs()) == Pruned(ForgetIds(old(f.Abs())), p)[p := RestoredRow(from[p])]
  {
    ghost var before := f.Abs();
    ghost var id := |f.handles|;
    assert parent.path == p.Parent() && p == parent.path.Child(e.action.value);
    hide NamespaceForest.Valid, Pruned, ForgetIds;
    PrunedAt(f.nodes, p);
    Detach(f, parent, e.action.value);
    node := CommitAndFill(f, e, parent, p);
    LoadedIsRestored(Pruned(before, p), f.keyOf, p, from[p], id);
    ForgetPruned(before, p);
  }

  method CommitAndFill(f: NamespaceForest, e: Entry, parent: TrieNode, ghost p: Path) returns (node: TrieNode)
    requires f.Valid() && p !in f.nodes && p.acts != [] && e.key == f.keyOf(p) && e.depth == |p.acts| - 1
    requires parent.path in f.nodes && f.nodes[parent.path] == parent && e.action.Some? && p == parent.path.Child(e.action.value)
    requires e.skeleton.Some? ==> e.skeleton.value == e.key
    requires e.blob.Some? ==> e.blob.value.locator == e.key
    modifies f, parent
    ensures f.Valid() && fresh(node) && f.nodes == old(f.nodes)[p := node] && f.namespaces == old(f.namespaces)
    ensures f.Abs() == old(f.Abs())[p := LoadedRow(e, |old(f.handles)|)]
  {
    ghost var before, id := f.Abs(), |f.handles|;
    node := f.Commit(parent, e.action.value, e.key, e.depth);
    ghost var bare := f.Abs();
    assert bare[p] == node.AsRow();
    Fill(f, node, e);
    SetTwice(before, p, Row(false, 0, false, None), LoadedRow(e, id));
    assert f.Abs() == before[p := Row(false, 0, false, None)][p := LoadedRow(e, id)];
  }

  ghost predicate Injective(key: Path -> Key) {
    forall p, q {:trigger key(p), key(q)} :: key(p) == key(q) ==> p == q
  }

  ghost predicate ParentsIn(f: Forest) {
    forall p {:trigger p.Parent()} :: p in f && p.acts != [] ==> p.Parent() in f
  }

  /** The `by_key` table has the root and the first `j` of `order`, which all are in the tree. */
  ghost predicate Loading(nodes: Index, key: Path -> Key, r: Root, order: seq<Path>, j: nat, byKey: map<Key, TrieNode>)
    requires j <= |order|
  {
    forall p :: p == Path(r, []) || p in order[..j] ==> p in nodes && key(p) in byKey && byKey[key(p)] == nodes[p]
  }

  lemma {:induction false} LoadingStep(nodes: Index, key: Path -> Key, r: Root, order: seq<Path>, j: nat, byKey: map<Key, TrieNode>, node: TrieNode)
    requires j < |order| && Loading(nodes, key, r, order, j, byKey) && Injective(key) && order[j].acts != []
    requires forall q :: q in order[..j] ==> !Under(order[j], q)
    ensures Loading(Pruned(nodes, order[j])[order[j] := node], key, r, order, j + 1, byKey[key(order[j]) := node])
  {
    assert order[..j + 1] == order[..j] + [order[j]];
  }

  /** Entry `j` describes a node whose parent is loaded already, and nothing below it is. */
  ghost predicate Loadable(from: Forest, key: Path -> Key, r: Root, e: Entry, order: seq<Path>, j: nat)
    requires j < |order|
  {
    var p := order[j];
    && p.root == r && p.acts != [] && p in from && e == EntryOf(key, p, from[p])
    && (forall q :: q in order[..j] ==> !Under(p, q))
    && (p.Parent() == Path(r, []) || p.Parent() in order[..j])
  }

  /** Parents come before children. */
  lemma {:induction false} ParentLoaded(from: Forest, key: Path -> Key, r: Root, sorted: seq<Entry>, order: seq<Path>, j: nat)
    requires Described(from, key, sorted, order) && ByDepth(sorted) && Distinct(order) && j < |order| && ParentsIn(from)
    requires forall p :: p in order <==> InTree(from, r, p)
    ensures Loadable(from, key, r, sorted[j], order, j)
  {
    var p := order[j];
    assert InTree(from, r, p) && p.Parent() in from;
    if |p.acts| > 1 {
      assert InTree(from, r, p.Parent()) && p.Parent() in order;
      var i :| 0 <= i < |order| && order[i] == p.Parent();
      assert sorted[i].depth < sorted[j].depth;
      assert order[..j][i] == p.Parent();
    }
    forall q | q in order[..j] ensures !Under(p, q) {
      var i :| 0 <= i < j && order[i] == q;
      assert sorted[i].depth <= sorted[j].depth && order[i] != order[j];
    }
  }

  lemma {:induction false} ReplacedNext(order: seq<Path>, j: nat, q: Path)
    requires j < |order|
    ensures Replaced(order[..j + 1], q) <==> Replaced(order[..j], q) || Under(order[j], q)
  {
    assert order[..j + 1] == order[..j] + [order[j]];
  }

  lemma {:induction false} LoadedStep(base: Forest, from: Forest, order: seq<Path>, j: nat)
    requires j < |order| && (forall p :: p in order ==> p in from) && forall q :: q in order[..j] ==> !Under(order[j], q)
    ensures Loaded(base, from, order[..j + 1]) == Pruned(Loaded(base, from, order[..j]), order[j])[order[j] := RestoredRow(from[order[j]])]
  {
    assert order[..j + 1] == order[..j] + [order[j]];
    hide Replaced;
    forall q ensures Replaced(order[..j + 1], q) <==> Replaced(order[..j], q) || Under(order[j], q) { ReplacedNext(order, j, q); }
  }

  /** One turn of the load loop; a record whose parent is not there is skipped. */
  method LoadEntry(f: NamespaceForest, root: TrieNode, e: Entry, byKey: map<Key, TrieNode>,
                   ghost from: Forest, ghost r: Root, ghost order: seq<Path>, ghost j: nat)
    returns (byKey': map<Key, TrieNode>, loaded: nat)
    requires f.Valid() && Injective(f.keyOf) && j < |order| && Loading(f.nodes, f.keyOf, r, order, j, byKey)
    requires Loadable(from, f.keyOf, r, e, order, j)
    modifies f, byKey.Values
    ensures f.Valid() && Loading(f.nodes, f.keyOf, r, order, j + 1, byKey') && loaded == 1
    ensures f.namespaces == old(f.namespaces)
    ensures ForgetIds(f.Abs()) == Pruned(ForgetIds(old(f.Abs())), order[j])[order[j] := RestoredRow(from[order[j]])]
    ensures forall k :: k in byKey' ==> byKey'[k] in byKey.Values || fresh(byKey'[k])
  {
    ghost var p, nodes := order[j], f.nodes;
    assert p.Parent() in nodes && f.keyOf(p.Parent()) in byKey;
    byKey', loaded := byKey, 0;
    var parent: TrieNode? := if e.parent.None? then root else if e.parent.value in byKey then byKey[e.parent.value] else null;
    if parent != null {
      var node := LoadNode(f, e, parent, from, p);
      LoadingStep(nodes, f.keyOf, r, order, j, byKey, node);
      byKey', loaded := byKey[e.key := node], 1;
    }
  }

  /** The load loop over the sorted records. */
  method LoadSorted(f: NamespaceForest, root: TrieNode, rootKey: Key, sorted: seq<Entry>, ghost from: Forest, ghost r: Root, ghost order: seq<Path>)
    returns (loaded: nat)
    requires f.Valid() && Injective(f.keyOf) && |sorted| == |order| && Loading(f.nodes, f.keyOf, r, order, 0, map[rootKey := root])
    requires forall j :: 0 <= j < |order| ==> Loadable(from, f.keyOf, r, sorted[j], order, j)
    requires forall p :: p in order ==> p in from
    modifies f, root
    ensures f.Valid() && f.namespaces == old(f.namespaces) && loaded == |sorted| && ForgetIds(f.Abs()) == Loaded(ForgetIds(old(f.Abs())), from, order)
  {
    hide Loading;
    ghost var base := ForgetIds(f.Abs());
    var byKey: map<Key, TrieNode> := map[rootKey := root];
    loaded := 0;
    NoneLoaded(base, from, order);
    for j := 0 to |sorted|
      invariant f.Valid() && f.namespaces == old(f.namespaces) && Loading(f.nodes, f.keyOf, r, order, j, byKey) && loaded == j
      invariant ForgetIds(f.Abs()) == Loaded(base, from, order[..j])
      invariant forall k :: k in byKey ==> byKey[k] == root || fresh(byKey[k])
    {
      var n;
      byKey, n := LoadEntry(f, root, sorted[j], byKey, from, r, order, j);
      LoadedStep(base, from, order, j);
      loaded := loaded + n;
    }
    assert order[..|order|] == order;
  }

  lemma {:induction false} NoneLoaded(base: Forest, from: Forest, order: seq<Path>)
    ensures base == Loaded(base, from, order[..0])
  {
  }

  lemma {:induction false} LoadedSame(base: Forest, from: Forest, a: seq<Path>, b: seq<Path>)
    requires (forall p :: p in a <==> p in b) && forall p :: p in a ==> p in from
    ensures Loaded(base, from, a) == Loaded(base, from, b)
  {
  }

  /** Rebuilds one namespace under its virtual root and counts the nodes. */
  method LoadTree(f: NamespaceForest, rec: Record, root: TrieNode, ghost from: Forest, ghost paths: seq<Path>) returns (loaded: nat)
    requires f.Valid() && Injective(f.keyOf) && ParentsIn(from) && Lists(from, f.keyOf, rec.root, rec.nodes, paths)
    requires rec.rootKey == f.keyOf(Path(rec.root, [])) && Path(rec.root, []) in f.nodes && root == f.nodes[Path(rec.root, [])]
    modifies f, root
    ensures f.Valid() && f.namespaces == old(f.namespaces) && loaded == |rec.nodes| && ForgetIds(f.Abs()) == Loaded(ForgetIds(old(f.Abs())), from, paths)
  {
    hide Loadable, NamespaceForest.Valid;
    var sorted, order := SortByDepth(rec.nodes, from, f.keyOf, paths);
    forall j | 0 <= j < |order| ensures Loadable(from, f.keyOf, rec.root, sorted[j], order, j) {
      ParentLoaded(from, f.keyOf, rec.root, sorted, order, j);
    }
    LoadedSame(ForgetIds(f.Abs()), from, order, paths);
    loaded := LoadSorted(f, root, rec.rootKey, sorted, from, rec.root, order);
  }

  /** The trees of the roots in `roots`. */
  ghost function Part(f: Forest, roots: set<Root>): Forest {
    map p | p in f && p.root in roots :: f[p]
  }

  lemma {:induction false} DisplacedIsReplaced(from: Forest, r: Root, paths: seq<Path>, q: Path)
    requires q.root == r && forall p :: p in paths <==> InTree(from, r, p)
    ensures Replaced(paths, q) <==> Displaced(from, q)
  {
    if Replaced(paths, q) {
      var p :| p in paths && Under(p, q);
      assert InTree(from, r, p) && q.Prefix(|p.acts|) == p;
    }
    if Displaced(from, q) {
      var k :| 1 <= k <= |q.acts| && q.Prefix(k) in from;
      assert InTree(from, r, q.Prefix(k)) && Under(q.Prefix(k), q);
    }
  }

  lemma {:induction false} PartDisplaces(from: Forest, roots: set<Root>, q: Path)
    ensures Displaced(Part(from, roots), q) <==> q.root in roots && Displaced(from, q)
  {
    forall k | 1 <= k <= |q.acts| ensures q.Prefix(k) in Part(from, roots) <==> q.root in roots && q.Prefix(k) in from {}
  }

  /** One more namespace. */
  lemma {:induction false} MergeStep(base: Forest, from: Forest, roots: set<Root>, r: Root, paths: seq<Path>)
    requires r !in roots && Path(r, []) in from && PlainRoots(from)
    requires (forall p :: p in paths ==> p in from) && forall p :: p in paths <==> InTree(from, r, p)
    ensures Loaded(GetOrCreate(Merge(base, Part(from, roots)), r), from, paths) == Merge(base, Part(from, roots + {r}))
  {
    var mid := GetOrCreate(Merge(base, Part(from, roots)), r);
    var got, want := Loaded(mid, from, paths), Merge(base, Part(from, roots + {r}));
    forall q ensures (q in got <==> q in want) && (q in got ==> got[q] == want[q]) {
      PartDisplaces(from, roots, q);
      PartDisplaces(from, roots + {r}, q);
      assert q in paths <==> InTree(from, r, q);
      if q.root == r {
        DisplacedIsReplaced(from, r, paths, q);
        if q.acts == [] { assert q == Path(r, []); }
      } else {
        assert !Replaced(paths, q) by {
          forall p | p in paths ensures !Under(p, q) { assert InTree(from, r, p); }
        }
      }
    }
  }

  lemma {:induction false} CountStep(from: Forest, roots: set<Root>, r: Root, paths: seq<Path>)
    requires r !in roots && Distinct(paths) && forall p :: p in paths <==> InTree(from, r, p)
    ensures |NonRoots(Part(from, roots + {r}))| == |NonRoots(Part(from, roots))| + |paths|
  {
    var added := set p | p in paths;
    DistinctCount(paths);
    assert forall p :: p in paths <==> InTree(from, r, p);
    assert NonRoots(Part(from, roots + {r})) == NonRoots(Part(from, roots)) + added;
  }

  lemma {:induction false} DistinctCount<T>(s: seq<T>)
    requires Distinct(s)
    ensures |set x | x in s| == |s|
  {
    if s == [] {
      assert (set x | x in s) == {};
    } else {
      var front, last := s[..|s| - 1], s[|s| - 1];
      DistinctCount(front);
      assert s == front + [last];
      assert (set x | x in s) == (set x | x in front) + {last};
    }
  }

  lemma {:induction false} ForgetCreate(f: Forest, r: Root)
    ensures ForgetIds(GetOrCreate(f, r)) == GetOrCreate(ForgetIds(f), r)
  {
  }

  /** One namespace of the snapshot. */
  method LoadRecord(f: NamespaceForest, rec: Record, ghost base: Forest, ghost from: Forest, ghost roots: set<Root>) returns (loaded: nat)
    requires f.Valid() && Injective(f.keyOf) && ParentsIn(from) && PlainRoots(from)
    requires Records(from, f.keyOf, rec) && Path(rec.root, []) in from && rec.root !in roots
    requires ForgetIds(f.Abs()) == Merge(base, Part(from, roots))
    modifies f, f.namespaces.Values
    ensures f.Valid() && ForgetIds(f.Abs()) == Merge(base, Part(from, roots + {rec.root}))
    ensures loaded + |NonRoots(Part(from, roots))| == |NonRoots(Part(from, roots + {rec.root}))|
    ensures fresh(f.namespaces.Values - old(f.namespaces.Values))
  {
    hide NamespaceForest.Valid, Merge, Part, ForgetIds;
    ghost var paths :| Lists(from, f.keyOf, rec.root, rec.nodes, paths);
    ForgetCreate(f.Abs(), rec.root);
    ghost var tops := f.namespaces;
    var root := f.GetOrCreateNamespace(rec.root, rec.rootKey);
    assert root in tops.Values || fresh(root);
    loaded := LoadTree(f, rec, root, from, paths);
    MergeStep(base, from, roots, rec.root, paths);
    CountStep(from, roots, rec.root, paths);
  }

  /** Loads a snapshot of `from` into a forest and counts the nodes below the virtual roots. */
  method Load(f: NamespaceForest, data: seq<Record>, ghost from: Forest) returns (loaded: nat)
    requires f.Valid() && Injective(f.keyOf) && ParentsIn(from) && PlainRoots(from) && IsSnapshot(from, f.keyOf, data)
    modifies f, f.namespaces.Values
    ensures f.Valid() && ForgetIds(f.Abs()) == Merge(ForgetIds(old(f.Abs())), from) && loaded == |NonRoots(from)|
  {
    hide NamespaceForest.Valid, Merge, ForgetIds, Records;
    loaded := 0;
    ghost var roots: set<Root>, base := {}, ForgetIds(f.Abs());
    MergeNothing(base, Part(from, roots));
    for i := 0 to |data|
      invariant f.Valid() && ForgetIds(f.Abs()) == Merge(base, Part(from, roots)) && loaded == |NonRoots(Part(from, roots))|
      invariant forall r :: r in roots <==> exists j :: 0 <= j < i && data[j].root == r
      invariant fresh(f.namespaces.Values - old(f.namespaces.Values))
    {
      assert data[i].root !in roots;
      var n := LoadRecord(f, data[i], base, from, roots);
      ghost var before := roots;
      roots := roots + {data[i].root};
      forall r ensures r in roots <==> exists j :: 0 <= j < i + 1 && data[j].root == r {
        if r in before { var j :| 0 <= j < i && data[j].root == r; }
      }
      loaded := loaded + n;
    }
    WholePart(from, roots);
  }

  lemma {:induction false} MergeNothing(base: Forest, nothing: Forest)
    requires nothing == map[]
    ensures Merge(base, nothing) == base
  {
  }

  /** In an empty forest: the same nodes, pins and skeletons, and exactly the published blobs. */
  lemma {:induction false} MergeIntoEmpty(f: Forest)
    ensures Merge(map[], f) == Restored(f)
  {
  }

  lemma {:induction false} WholePart(from: Forest, roots: set<Root>)
    requires ParentsIn(from) && forall r :: r in roots <==> Path(r, []) in from
    ensures Part(from, roots) == from
  {
    forall p | p in from ensures p.root in roots { RootIn(from, p); }
  }

  lemma {:induction false} RootIn(from: Forest, p: Path)
    requires ParentsIn(from) && p in from
    ensures Path(p.root, []) in from
    decreases |p.acts|
  {
    if p.acts != [] { RootIn(from, p.Parent()); }
  }

  /** Nothing the manager does changes a virtual root's row beyond its reference count. */
  lemma {:induction false} RootsStayPlain(f: Forest, r: Root, p: Path, sinkChunks: nat, id: nat, layers: nat, held: set<Path>, delta: int)
    requires PlainRoots(f)
    ensures PlainRoots(GetOrCreate(f, r)) && PlainRoots(Publish(f, p, id)) && PlainRoots(Evict(f, p)) && PlainRoots(Retain(f, held, delta))
    ensures p.acts != [] ==> PlainRoots(Ingest(f, p, sinkChunks, id, layers))
  {
    forall q | q in Retain(f, held, delta) && q.acts == [] ensures Retain(f, held, delta)[q].(refs := 0) == ROOT_ROW {
      assert f[q].(refs := 0) == ROOT_ROW;
    }
    forall q | q in Publish(f, p, id) && q.acts == [] ensures Publish(f, p, id)[q].(refs := 0) == ROOT_ROW {
      assert f[q].(refs := 0) == ROOT_ROW;
    }
    forall q | q in Evict(f, p) && q.acts == [] ensures Evict(f, p)[q].(refs := 0) == ROOT_ROW {
      assert f[q].(refs := 0) == ROOT_ROW;
    }
  }

  lemma {:induction false} FirstDisplaces(f: Forest, q: Path)
    requires ParentsIn(f) && q.acts != []
    ensures Displaced(f, q) <==> q.Prefix(1) in f
    decreases |q.acts|
  {
    if |q.acts| > 1 {
      FirstDisplaces(f, q.Parent());
      assert q.Parent().Prefix(1) == q.Prefix(1);
      forall k | 1 <= k < |q.acts| ensures q.Parent().Prefix(k) == q.Prefix(k) {}
      if q in f { assert q.Parent() in f && q.Parent().Prefix(|q.acts| - 1) == q.Parent(); }
      assert q.Prefix(|q.acts|) == q;
    } else {
      assert q.Prefix(1) == q;
    }
  }

  /** Merging keeps a node exactly when it is a virtual root, or in the snapshot, or its first action is not. */
  lemma {:induction false} MergeKeepsIff(base: Forest, f: Forest, q: Path)
    requires ParentsIn(f) && q in base
    ensures q in Merge(base, f) <==> q.acts == [] || q in f || q.Prefix(1) !in f
  {
    if q.acts != [] { FirstDisplaces(f, q); }
  }

  /** A published node of the running forest that a snapshot of its parent alone makes unreachable. */
  lemma {:induction false} MergeLosesBelow(r: Root, a: Action, b: Action)
    ensures var full := Row(false, 0, true, Some(Blob(0, 1, true)));
      var f: Forest := map[Path(r, []) := ROOT_ROW, Path(r, [a]) := full];
      var base: Forest := f[Path(r, [a, b]) := full];
      ParentsIn(base) && ParentsIn(f) && Match(base, Path(r, [a, b]), 0) == 2 && Match(Merge(base, f), Path(r, [a, b]), 0) == 1
  {
    var full, p := Row(false, 0, true, Some(Blob(0, 1, true))), Path(r, [a, b]);
    var f: Forest := map[Path(r, []) := ROOT_ROW, Path(r, [a]) := full];
    var base := f[p := full];
    assert p.Prefix(1) == Path(r, [a]) && p.Prefix(2) == p;
    assert Path(r, [a]).Parent() == Path(r, []) && p.Parent() == Path(r, [a]);
    MergeKeepsIff(base, f, p);
    assert Ready(Merge(base, f), Path(r, [a]));
  }

  /** After loading, requests whose first action the snapshot has are answered as the saved forest did, all
      others as before. */
  lemma {:induction false} MergedMatch(base: Forest, saved: Forest, merged: Forest, p: Path)
    requires ForgetIds(merged) == Merge(ForgetIds(base), saved) && ParentsIn(saved)
    ensures Match(merged, p, 0) == if p.acts != [] && p.Prefix(1) in saved then Match(saved, p, 0) else Match(base, p, 0)
  {
    var from := if p.acts != [] && p.Prefix(1) in saved then saved else base;
    forall d | 0 < d <= |p.acts| ensures Ready(merged, p.Prefix(d)) <==> Ready(from, p.Prefix(d)) {
      var q := p.Prefix(d);
      assert q.Prefix(1) == p.Prefix(1) && q.Prefix(d) == q;
      FirstDisplaces(saved, q);
      assert q in merged <==> q in ForgetIds(merged);
      assert q in base <==> q in ForgetIds(base);
    }
    MatchDependsOnReady(merged, from, p, 0);
  }

  /** A rebuilt forest answers every lookup as the saved one, with the same pins and skeletons. */
  lemma {:induction false} RoundTrip(saved: Forest, rebuilt: Forest, p: Path)
    requires ForgetIds(rebuilt) == Restored(saved)
    ensures Match(rebuilt, p, 0) == Match(saved, p, 0) && (p in rebuilt <==> p in saved)
    ensures p in saved ==>
      && rebuilt[p].pinned == saved[p].pinned && rebuilt[p].skeleton == saved[p].skeleton && rebuilt[p].refs == 0
      && (rebuilt[p].blob.Some? <==> saved[p].HasKv()) && (rebuilt[p].HasKv() <==> saved[p].HasKv())
  {
    forall q ensures (q in rebuilt <==> q in saved) && (Ready(rebuilt, q) <==> Ready(saved, q)) {
      assert q in rebuilt <==> q in ForgetIds(rebuilt);
      if q in saved { assert ForgetIds(rebuilt)[q] == RestoredRow(saved[q]); }
    }
    MatchDependsOnReady(rebuilt, saved, p, 0);
    if p in saved { assert ForgetIds(rebuilt)[p] == RestoredRow(saved[p]); }
  }
}
