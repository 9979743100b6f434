/** The trie as a value: one row per action path, and what each operation does to the rows. */
module Forest {
  import opened Cold
  import opened Options

  /** A blob handle; `id` tells handles of successive writes of one node apart. */
  datatype Blob = Blob(id: nat, layers: nat, ready: bool)

  datatype Row = Row(pinned: bool, refs: int, skeleton: bool, blob: Option<Blob>) {
    ghost predicate HasKv() { blob.Some? && blob.value.ready }
  }

  type Forest = map<Path, Row>

  const ROOT_ROW := Row(true, 0, false, None)

  ghost predicate PrefixClosed(f: Forest) {
    forall p, k {:trigger p in f, p.Prefix(k)} :: p in f && 0 <= k <= |p.acts| ==> p.Prefix(k) in f
  }

  // ------------------------------------------------------------------ operations

  ghost function GetOrCreate(f: Forest, root: Root): Forest {
    if Path(root, []) in f then f else f[Path(root, []) := ROOT_ROW]
  }

  ghost predicate Ready(f: Forest, p: Path) {
    p in f && f[p].HasKv()
  }

  /** How far the exact descent gets, having matched `k` actions already. */
  ghost function Match(f: Forest, p: Path, k: nat): (m: nat)
    requires k <= |p.acts|
    ensures k <= m <= |p.acts|
    decreases |p.acts| - k
  {
    if k < |p.acts| && Ready(f, p.Prefix(k + 1)) then Match(f, p, k + 1) else k
  }

  ghost function Ingest(f: Forest, p: Path, sinkChunks: nat, id: nat, layers: nat): Forest
    requires p.acts != []
  {
    var row := if p in f then f[p] else Row(false, 0, false, None);
    f[p := Row(row.pinned || |p.acts| - 1 < sinkChunks, row.refs, true, Some(Blob(id, layers, false)))]
  }

  /** The write callback: it can only ever turn on the handle it was created for. */
  ghost function Publish(f: Forest, p: Path, id: nat): Forest {
    if p in f && f[p].blob.Some? && f[p].blob.value.id == id
    then f[p := f[p].(blob := Some(f[p].blob.value.(ready := true)))]
    else f
  }

  ghost predicate Evictable(f: Forest, p: Path) {
    p in f && !f[p].pinned && f[p].refs <= 0 && f[p].blob.Some?
  }

  ghost function Evict(f: Forest, p: Path): Forest {
    if Evictable(f, p) then f[p := f[p].(blob := None)] else f
  }

  ghost function Retain(f: Forest, held: set<Path>, delta: int): Forest {
    map p | p in f :: if p in held then f[p].(refs := f[p].refs + delta) else f[p]
  }

  /** What a snapshot of `f` loads back as: unpublished blobs are dropped, nothing is in flight. */
  ghost function Restored(f: Forest): Forest {
    map p | p in f :: RestoredRow(f[p])
  }

  ghost function RestoredRow(row: Row): Row {
    Row(row.pinned, 0, row.skeleton, if row.HasKv() then Some(Blob(0, row.blob.value.layers, true)) else None)
  }

  // ------------------------------------------------------------------ lookup is the longest published prefix

  ghost predicate AllReady(f: Forest, p: Path, k: nat) {
    forall d :: 1 <= d <= k <= |p.acts| ==> Ready(f, p.Prefix(d))
  }

  lemma {:induction false} MatchIsLongest(f: Forest, p: Path, k: nat, best: nat)
    requires k <= |p.acts| && best <= |p.acts| && AllReady(f, p, k)
    ensures Match(f, p, k) == best <==>
      k <= best && AllReady(f, p, best) && forall j :: best < j <= |p.acts| ==> !AllReady(f, p, j)
    decreases |p.acts| - k
  {
    if k < |p.acts| && Ready(f, p.Prefix(k + 1)) {
      MatchIsLongest(f, p, k + 1, best);
      if best == k { assert AllReady(f, p, k + 1); }
    } else if k < |p.acts| {
      forall j | k < j <= |p.acts| ensures !AllReady(f, p, j) { assert !Ready(f, p.Prefix(k + 1)); }
    }
  }

  lemma {:induction false} MatchDependsOnReady(f: Forest, g: Forest, p: Path, k: nat)
    requires k <= |p.acts| && forall d :: k < d <= |p.acts| ==> (Ready(f, p.Prefix(d)) <==> Ready(g, p.Prefix(d)))
    ensures Match(f, p, k) == Match(g, p, k)
    decreases |p.acts| - k
  {
    if k < |p.acts| && Ready(f, p.Prefix(k + 1)) {
      MatchDependsOnReady(f, g, p, k + 1);
    }
  }

  /** Evicting a node truncates the sequences through it right above that node, touches no other
      sequence, and a republished write of the same node brings the old match back. */
  lemma {:induction false} EvictTruncates(f: Forest, n: Path, p: Path)
    requires n.acts != [] && Evictable(f, n)
    ensures var through := n.root == p.root && n.acts <= p.acts;
      Match(Evict(f, n), p, 0) == if through && |n.acts| <= Match(f, p, 0) then |n.acts| - 1 else Match(f, p, 0)
  {
    var g, best := Evict(f, n), Match(f, p, 0);
    MatchIsLongest(f, p, 0, best);
    var through := n.root == p.root && n.acts <= p.acts;
    if through && |n.acts| <= best {
      assert n == p.Prefix(|n.acts|);
      assert forall d :: 1 <= d < |n.acts| ==> Ready(g, p.Prefix(d));
      MatchIsLongest(g, p, 0, |n.acts| - 1);
      forall j | |n.acts| - 1 < j <= |p.acts| ensures !AllReady(g, p, j) { assert !Ready(g, p.Prefix(|n.acts|)); }
    } else {
      forall d | 1 <= d <= best ensures Ready(g, p.Prefix(d)) { assert Ready(f, p.Prefix(d)); }
      forall j | best < j <= |p.acts| ensures !AllReady(g, p, j) {
        assert !Ready(f, p.Prefix(best + 1)) by { assert !AllReady(f, p, best + 1); }
        assert !Ready(g, p.Prefix(best + 1));
      }
      MatchIsLongest(g, p, 0, best);
    }
  }

  lemma {:induction false} RepublishRestores(f: Forest, n: Path, p: Path, sinkChunks: nat, id: nat, layers: nat)
    requires n.acts != [] && Evictable(f, n) && Ready(f, n)
    ensures Match(Publish(Ingest(Evict(f, n), n, sinkChunks, id, layers), n, id), p, 0) == Match(f, p, 0)
  {
    MatchDependsOnReady(f, Publish(Ingest(Evict(f, n), n, sinkChunks, id, layers), n, id), p, 0);
  }
}
