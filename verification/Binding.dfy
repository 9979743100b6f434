/** The per-session hooks on the engine's runtime: draws burnt and latents stashed at a resume, and the
    finished chunk's own KV cut out of the ring. */
module Binding {
  import opened Arith
  import opened Ring
  import opened Window
  import opened Cold
  import opened Options
  import opened Replay
  import opened Trie
  import opened Manager

  class Runtime {
    const layers: seq<KVLayer<Token>>
    var gen: Gen
    var cached: map<nat, Latent>

    constructor (layers: seq<KVLayer<Token>>, gen: Gen)
      ensures this.layers == layers && this.gen == gen && cached == map[]
    {
      this.layers, this.gen, cached := layers, gen, map[];
    }

    /** One draw after another, after which the generator is where denoising the first `k` chunks leaves it. */
    method BurnDraws(w: World, root: Root, k: nat)
      modifies `gen
      ensures gen == Burn(w, root, k, old(gen))
    {
      ghost var start := gen;
      var drawsPerChunk := if |w.timesteps| - 1 > 0 then |w.timesteps| - 1 else 0;
      for i := 0 to k
        invariant gen == Burn(w, root, i, start)
      {
        ghost var before := gen;
        for n := 0 to drawsPerChunk
          invariant Redraws(w, gen, w.noise(root, i), n).1 == ChunkDraws(w, before, w.noise(root, i)).1
        {
          gen := w.draw(gen, w.noise(root, i)).1;
        }
      }
    }

    /** Walks up from the resumed node and takes the latents down again in order. */
    method StashLatents(f: NamespaceForest, node: TrieNode, latents: map<Key, Latent>, ghost w: World)
      requires f.Valid() && w.key == f.keyOf && node.path in f.nodes && f.nodes[node.path] == node
      requires forall j :: 1 <= j <= |node.path.acts| && node.path.Prefix(j) in f.nodes ==> f.nodes[node.path.Prefix(j)].skeleton.Some?
      modifies `cached
      ensures cached == Stash(w, latents, node.path, |node.path.acts|)
    {
      ghost var chain := ChainOf(f, node.path);
      ghost var k := |node.path.acts|;
      assert node.path.Prefix(k) == node.path;
      var path := WalkUp(chain, node);
      var found: map<nat, Latent> := map[];
      for i := 0 to |path|
        invariant found == Stash(w, latents, node.path, i)
      {
        var n := path[|path| - 1 - i];
        assert n == chain[i + 1] && n == f.nodes[node.path.Prefix(i + 1)] && n.depth == i;
        assert n.skeleton == Some(f.keyOf(node.path.Prefix(i + 1)));
        if n.skeleton.value in latents {
          found := found[n.depth := latents[n.skeleton.value]];
        }
      }
      cached := found;
    }

    /** The chunk just rewritten is the tail below each layer's fill, rolled or not. */
    method ChunkPayload(g: Geometry) returns (payload: seq<KV<Token>>)
      requires forall l :: 0 <= l < |layers| ==> layers[l].Valid() && g.ChunkTokens() <= layers[l].localEnd
      ensures |payload| == |layers| && forall l :: 0 <= l < |layers| ==>
        layers[l].Valid() && g.ChunkTokens() <= layers[l].localEnd && payload[l] == TailOf(layers[l].Value(), g.ChunkTokens())
    {
      TimesIs(g.chunk, g.tokens);
      var ct := g.chunk * g.tokens;
      payload := [];
      for l := 0 to |layers|
        invariant |payload| == l && forall j :: 0 <= j < l ==> payload[j] == TailOf(layers[j].Value(), g.ChunkTokens())
      {
        var e := layers[l].localEnd;
        payload := payload + [KV(layers[l].k[e - ct..e], layers[l].v[e - ct..e])];
      }
    }
  }

  method WalkUp(ghost chain: seq<TrieNode>, node: TrieNode) returns (path: seq<TrieNode>)
    requires Linked(chain) && node == chain[|chain| - 1]
    ensures |path| == |chain| - 1 && forall i :: 0 <= i < |path| ==> path[i] == chain[|chain| - 1 - i]
  {
    path := [];
    var n: TrieNode? := node;
    while n != null && n.depth >= 0
      invariant |path| < |chain| && n == chain[|chain| - 1 - |path|]
      invariant forall i :: 0 <= i < |path| ==> path[i] == chain[|chain| - 1 - i]
      decreases |chain| - |path|
    {
      path := path + [n];
      n := n.parent;
    }
  }
}
