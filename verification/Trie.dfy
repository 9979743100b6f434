/** The mutable trie: nodes with parent links and child tables, and the operations of the forest and
    of the cache manager on them, each tied to what it does to the table of rows. */
module Trie {
  import opened Cold
  import opened Forest
  import opened Options

  class BlobHandle {
    const locator: Key
    const layers: nat
    /** The node and the write this handle was created for. */
    ghost const owner: Path
    ghost const id: nat
    var ready: bool

    constructor (locator: Key, layers: nat, ghost owner: Path, ghost id: nat, ready: bool)
      ensures this.locator == locator && this.layers == layers && this.owner == owner && this.id == id && this.ready == ready
    {
      this.locator, this.layers, this.owner, this.id, this.ready := locator, layers, owner, id, ready;
    }
  }

  class TrieNode {
    const key: Key
    const action: Option<Action>
    const depth: int
    const parent: TrieNode?
    ghost const path: Path
    var children: map<Action, TrieNode>
    var skeleton: Option<Key>
    var blob: BlobHandle?
    var refCount: int
    var pinned: bool

    constructor (key: Key, action: Option<Action>, depth: int, parent: TrieNode?, pinned: bool, ghost path: Path)
      ensures this.key == key && this.action == action && this.depth == depth && this.parent == parent && this.path == path
      ensures this.pinned == pinned && children == map[] && skeleton == None && blob == null && refCount == 0
    {
      this.key, this.action, this.depth, this.parent, this.path := key, action, depth, parent, path;
      this.pinned, children, skeleton, blob, refCount := pinned, map[], None, null, 0;
    }

    predicate HasKv()
      reads this, blob
    {
      blob != null && blob.ready
    }

    ghost function AsRow(): Row
      reads this, blob
    {
      Row(pinned, refCount, skeleton.Some?,
          if blob == null then None else Some(Blob(blob.id, blob.layers, blob.ready)))
    }

    /** The node's own constants agree with its place; `up` is the node one level above. */
    ghost predicate Placed(keyOf: Path -> Key) {
      && key == keyOf(path) && depth == |path.acts| - 1
      && (if path.acts == [] then parent == null && action == None
          else parent != null && parent.path == path.Parent() && action == Some(path.acts[|path.acts| - 1]))
    }
  }

  lemma {:induction false} ChildrenHaveParents()
    ensures forall p: Path, a: Action :: p.Child(a).acts != [] && p.Child(a).Parent() == p && p.Child(a).acts[|p.acts|] == a
  {
    forall p: Path, a: Action ensures p.Child(a).Parent() == p {
      assert p.Child(a).acts[..|p.acts|] == p.acts;
    }
  }

  /** Which object stands for which path. */
  type Index = map<Path, TrieNode>

  ghost predicate Placed(nodes: Index, keyOf: Path -> Key) {
    && (forall p :: p in nodes ==> nodes[p].path == p && nodes[p].Placed(keyOf))
    && (forall p {:trigger Above(nodes, p)} :: p in nodes && nodes[p].parent != null ==> Above(nodes, p))
  }

  ghost predicate Above(nodes: Index, p: Path)
    requires p in nodes && nodes[p].parent != null
  {
    nodes[p].parent.path in nodes && nodes[nodes[p].parent.path] == nodes[p].parent
  }

  /** Child tables list exactly the nodes one action further. */
  ghost predicate Tabled(nodes: Index)
    reads nodes.Values`children
  {
    forall p, a :: p in nodes ==>
      && (a in nodes[p].children <==> p.Child(a) in nodes)
      && (a in nodes[p].children ==> nodes[p].children[a] == nodes[p.Child(a)])
  }

  /** Every handle on a node was registered for that node. */
  ghost predicate Handled(nodes: Index, handles: seq<BlobHandle>, keyOf: Path -> Key)
    reads nodes.Values`blob, nodes.Values`skeleton
  {
    && (forall p :: p in nodes && nodes[p].skeleton.Some? ==> nodes[p].skeleton == Some(keyOf(p)))
    && (forall i :: 0 <= i < |handles| ==> handles[i].id == i)
    && (forall p :: p in nodes && nodes[p].blob != null ==>
          nodes[p].blob.owner == p && nodes[p].blob.locator == keyOf(p) && nodes[p].blob.id < |handles| && handles[nodes[p].blob.id] == nodes[p].blob)
  }

  ghost function Rows(nodes: Index): Forest
    reads nodes.Values, set p | p in nodes && nodes[p].blob != null :: nodes[p].blob
  {
    map p | p in nodes :: nodes[p].AsRow()
  }

  /** Child tables, except that `p`'s does not list `p.Child(a)` yet. */
  ghost predicate TabledBut(nodes: Index, missing: Path)
    reads nodes.Values`children
  {
    forall p, a :: p in nodes && p.Child(a) != missing ==>
      && (a in nodes[p].children <==> p.Child(a) in nodes)
      && (a in nodes[p].children ==> nodes[p].children[a] == nodes[p.Child(a)])
  }

  lemma {:induction false} AddPlaced(nodes: Index, keyOf: Path -> Key, node: TrieNode)
    requires Placed(nodes, keyOf) && node.path !in nodes && node.Placed(keyOf)
    requires node.parent != null ==> node.parent.path in nodes && nodes[node.parent.path] == node.parent
    ensures Placed(nodes[node.path := node], keyOf)
  {
    var nodes' := nodes[node.path := node];
    forall p | p in nodes' && nodes'[p].parent != null ensures Above(nodes', p) {
      if p in nodes { assert Above(nodes, p); }
    }
  }

  lemma {:induction false} AddTabled(nodes: Index, keyOf: Path -> Key, node: TrieNode)
    requires Placed(nodes, keyOf) && Tabled(nodes) && node.path !in nodes && node.children == map[]
    ensures TabledBut(nodes[node.path := node], node.path)
  {
    ChildrenHaveParents();
    assert forall a :: node.path.Child(a) in nodes ==> Above(nodes, node.path.Child(a));
  }

  /** A new node, filed under its path but not yet in its parent's table. */
  method NewNode(ghost nodes: Index, ghost handles: seq<BlobHandle>, ghost keyOf: Path -> Key,
                 key: Key, action: Option<Action>, depth: int, parent: TrieNode?, pinned: bool, ghost path: Path)
    returns (node: TrieNode)
    requires Placed(nodes, keyOf) && Tabled(nodes) && Handled(nodes, handles, keyOf) && path !in nodes
    requires key == keyOf(path) && depth == |path.acts| - 1
    requires path.acts == [] ==> parent == null && action == None
    requires path.acts != [] ==> parent != null && parent.path == path.Parent() && action == Some(path.acts[|path.acts| - 1])
    requires path.acts != [] ==> parent.path in nodes && nodes[parent.path] == parent
    ensures fresh(node) && node.path == path && node.AsRow() == Row(pinned, 0, false, None) && node.children == map[]
    ensures var nodes' := nodes[path := node];
      Placed(nodes', keyOf) && TabledBut(nodes', path) && Handled(nodes', handles, keyOf) && Rows(nodes') == old(Rows(nodes))[path := node.AsRow()]
  {
    hide Placed, Tabled, TabledBut;
    node := new TrieNode(key, action, depth, parent, pinned, path);
    AddPlaced(nodes, keyOf, node);
    AddTabled(nodes, keyOf, node);
  }

  method SetChild(ghost nodes: Index, ghost handles: seq<BlobHandle>, ghost keyOf: Path -> Key, parent: TrieNode, action: Action, node: TrieNode)
    requires forall p :: p in nodes ==> nodes[p].path == p
    requires parent.path in nodes && nodes[parent.path] == parent && TabledBut(nodes, parent.path.Child(action))
    requires parent.path.Child(action) in nodes && nodes[parent.path.Child(action)] == node
    requires Handled(nodes, handles, keyOf)
    modifies parent`children
    ensures Handled(nodes, handles, keyOf) && Tabled(nodes) && Rows(nodes) == old(Rows(nodes))
  {
    parent.children := parent.children[action := node];
    ChildrenHaveParents();
    assert forall p :: p in nodes ==> nodes[p].AsRow() == old(nodes[p].AsRow());
    forall p, a | p in nodes
      ensures a in nodes[p].children <==> p.Child(a) in nodes
      ensures a in nodes[p].children ==> nodes[p].children[a] == nodes[p.Child(a)]
    {
      if p.Child(a) == parent.path.Child(action) {
        assert p.Child(a).Parent() == p;
      }
    }
  }

  method AddChild(ghost nodes: Index, ghost handles: seq<BlobHandle>, ghost keyOf: Path -> Key,
                  key: Key, action: Action, depth: int, parent: TrieNode)
    returns (node: TrieNode)
    requires Placed(nodes, keyOf) && Tabled(nodes) && Handled(nodes, handles, keyOf)
    requires parent.path in nodes && nodes[parent.path] == parent && parent.path.Child(action) !in nodes
    requires key == keyOf(parent.path.Child(action)) && depth == |parent.path.acts|
    modifies parent`children
    ensures fresh(node) && node.path == parent.path.Child(action)
    ensures var nodes' := nodes[node.path := node];
      && Placed(nodes', keyOf) && Tabled(nodes') && Handled(nodes', handles, keyOf)
      && Rows(nodes') == old(Rows(nodes))[node.path := Row(false, 0, false, None)]
  {
    ghost var c := parent.path.Child(action);
    ChildrenHaveParents();
    node := NewNode(nodes, handles, keyOf, key, Some(action), depth, parent, false, c);
    SetChild(nodes[c := node], handles, keyOf, parent, action, node);
  }

  /** The namespace map lists exactly the virtual roots. */
  ghost predicate Rooted(namespaces: map<Root, TrieNode>, nodes: Index) {
    && (forall r :: r in namespaces <==> Path(r, []) in nodes)
    && (forall r :: r in namespaces ==> namespaces[r] == nodes[Path(r, [])])
  }

  lemma {:induction false} AddRooted(namespaces: map<Root, TrieNode>, nodes: Index, c: Path, node: TrieNode)
    requires Rooted(namespaces, nodes) && c.acts != []
    ensures Rooted(namespaces, nodes[c := node])
  {
  }

  class NamespaceForest {
    var namespaces: map<Root, TrieNode>
    ghost var nodes: Index
    ghost var handles: seq<BlobHandle>
    ghost const keyOf: Path -> Key

    ghost predicate Valid()
      reads this, nodes.Values`children, nodes.Values`blob, nodes.Values`skeleton
    {
      && Placed(nodes, keyOf) && Tabled(nodes) && Handled(nodes, handles, keyOf)
      && Rooted(namespaces, nodes)
    }

    /** The table this tree stands for. */
    ghost function Abs(): Forest
      reads this, nodes.Values, set p | p in nodes && nodes[p].blob != null :: nodes[p].blob
    {
      Rows(nodes)
    }

    constructor (ghost keyOf: Path -> Key)
      ensures Valid() && Abs() == map[] && this.keyOf == keyOf
    {
      this.keyOf := keyOf;
      namespaces, nodes, handles := map[], map[], [];
    }

    method GetOrCreateNamespace(root: Root, rootKey: Key) returns (node: TrieNode)
      requires Valid() && rootKey == keyOf(Path(root, []))
      modifies this
      ensures Valid() && Abs() == GetOrCreate(old(Abs()), root) && handles == old(handles)
      ensures nodes == old(nodes)[Path(root, []) := node] && (Path(root, []) in old(nodes) || fresh(node))
      ensures namespaces == old(namespaces)[root := node] && if root in old(namespaces) then node == old(namespaces)[root] else fresh(node)
    {
      hide Handled, Placed;
      if root in namespaces {
        node := namespaces[root];
        assert nodes == nodes[Path(root, []) := node] && namespaces == namespaces[root := node];
        return;
      }
      node := NewNode(nodes, handles, keyOf, rootKey, None, -1, null, true, Path(root, []));
      namespaces := namespaces[root := node];
      nodes := nodes[Path(root, []) := node];
      assert forall p: Path, a: Action :: p.Child(a) != Path(root, []);
    }

    /** Descends as long as the next child exists, is published and carries the action. */
    method Lookup(root: Root, actions: seq<Action>) returns (node: TrieNode?, k: nat)
      requires Valid()
      ensures k == Match(Abs(), Path(root, actions), 0)
      ensures node == null <==> Path(root, []) !in nodes
      ensures node != null ==> Path(root, actions[..k]) in nodes && node == nodes[Path(root, actions[..k])]
    {
      ghost var p := Path(root, actions);
      assert p.Prefix(0) == Path(root, []);
      if root !in namespaces {
        if |actions| > 0 {
          NoOrphans(p.Prefix(1));
          assert p.Prefix(1).Parent() == Path(root, []);
        }
        return null, 0;
      }
      var n := namespaces[root];
      k := 0;
      while k < |actions|
        invariant k <= |actions| && p.Prefix(k) in nodes && n == nodes[p.Prefix(k)]
        invariant Match(Abs(), p, 0) == Match(Abs(), p, k)
      {
        var a := actions[k];
        assert p.Prefix(k).Child(a) == p.Prefix(k + 1);
        if a !in n.children || !n.children[a].HasKv() || n.children[a].action != Some(a) {
          break;
        }
        n, k := n.children[a], k + 1;
      }
      node := n;
    }

    /** Nobody is in the tree without the node above. */
    lemma NoOrphans(p: Path)
      requires Valid() && p.acts != []
      ensures p in nodes ==> p.Parent() in nodes && nodes[p].parent == nodes[p.Parent()]
    {
      if p in nodes { assert Above(nodes, p); }
    }

    /** Get or create a child. */
    method Commit(parent: TrieNode, action: Action, nodeKey: Key, depth: nat) returns (node: TrieNode)
      requires Valid() && parent.path in nodes && nodes[parent.path] == parent
      requires nodeKey == keyOf(parent.path.Child(action)) && depth == |parent.path.acts|
      modifies this, parent
      ensures Valid() && handles == old(handles) && namespaces == old(namespaces)
      ensures var c := parent.path.Child(action);
        && nodes == old(nodes)[c := node] && (if c in old(nodes) then node == old(nodes)[c] else fresh(node))
        && Abs() == if c in old(nodes) then old(Abs()) else old(Abs())[c := Row(false, 0, false, None)]
    {
      hide Handled, Placed, Rooted;
      ghost var c, before := parent.path.Child(action), Abs();
      if action in parent.children {
        node := parent.children[action];
        assert nodes == nodes[c := node];
      } else {
        node := AddChild(nodes, handles, keyOf, nodeKey, action, depth, parent);
        AddRooted(namespaces, nodes, c, node);
        nodes := nodes[c := node];
        assert Abs() == before[c := Row(false, 0, false, None)];
      }
    }
  }
}
