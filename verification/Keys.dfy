/** Content addresses: a length-prefixed encoding under a hash, chained from the root over the actions. */
module Keys {
  import opened Options

  newtype Byte = x: int | 0 <= x < 256

  type Bytes = seq<Byte>

  /** SHA-256 is an arbitrary function here; where two keys are compared, it is only taken to be free of
      collisions among the finitely many messages that were hashed to make them. */
  type Hash = Bytes -> Bytes

  const DIGEST_SIZE: nat := 32
  const LIMIT: nat := 0x1_0000_0000_0000_0000

  // ------------------------------------------------------------------ the encoding

  /** `n.to_bytes(width, "little")` for an `n` that fits. */
  function Little(n: nat, width: nat): (b: Bytes)
    ensures |b| == width
  {
    if width == 0 then [] else [(n % 256) as Byte] + Little(n / 256, width - 1)
  }

  function Value(b: Bytes): (n: nat) {
    if b == [] then 0 else b[0] as nat + 256 * Value(b[1..])
  }

  function Power(width: nat): nat {
    if width == 0 then 1 else 256 * Power(width - 1)
  }

  lemma {:induction false} LittleRoundTrip(n: nat, width: nat)
    requires n < Power(width)
    ensures Value(Little(n, width)) == n
  {
    if width > 0 {
      LittleRoundTrip(n / 256, width - 1);
      assert Little(n, width)[1..] == Little(n / 256, width - 1);
    }
  }

  ghost predicate Short(parts: seq<Bytes>) {
    forall i :: 0 <= i < |parts| ==> |parts[i]| < LIMIT
  }

  function Frame(p: Bytes): Bytes {
    Little(|p|, 8) + p
  }

  ghost function Encode(parts: seq<Bytes>): Bytes {
    if parts == [] then [] else Frame(parts[0]) + Encode(parts[1..])
  }

  lemma {:induction false} EncodeSnoc(parts: seq<Bytes>, p: Bytes)
    ensures Encode(parts + [p]) == Encode(parts) + Frame(p)
  {
    if parts == [] {
      assert [] + [p] == [p];
      assert Encode([p][1..]) == [];
    } else {
      EncodeSnoc(parts[1..], p);
      assert (parts + [p])[1..] == parts[1..] + [p];
      assert Frame(parts[0]) + (Encode(parts[1..]) + Frame(p)) == Frame(parts[0]) + Encode(parts[1..]) + Frame(p);
    }
  }

  lemma {:induction false} SameFrame(p: Bytes, x: Bytes, q: Bytes, y: Bytes)
    requires |p| < LIMIT && |q| < LIMIT && Frame(p) + x == Frame(q) + y
    ensures p == q && x == y
  {
    var a, b := Frame(p) + x, Frame(q) + y;
    assert a[..8] == Little(|p|, 8) && b[..8] == Little(|q|, 8);
    assert Power(8) == LIMIT by { PowerOf8(); }
    LittleRoundTrip(|p|, 8);
    LittleRoundTrip(|q|, 8);
    assert a[8..8 + |p|] == p && b[8..8 + |p|] == q && a[8 + |p|..] == x && b[8 + |p|..] == y;
  }

  lemma {:induction false} PowerOf8()
    ensures Power(8) == LIMIT
  {
    assert Power(4) == 0x1_0000_0000;
  }

  /** Different lists of byte strings never encode alike. */
  lemma {:induction false} EncodeInjective(a: seq<Bytes>, b: seq<Bytes>)
    requires Short(a) && Short(b)
    ensures Encode(a) == Encode(b) <==> a == b
  {
    if Encode(a) == Encode(b) && a != [] && b != [] {
      SameFrame(a[0], Encode(a[1..]), b[0], Encode(b[1..]));
      EncodeInjective(a[1..], b[1..]);
      assert a == [a[0]] + a[1..] && b == [b[0]] + b[1..];
    }
  }

  /** Feeds the parts to the hash one by one. A part whose length does not fit eight bytes raises. */
  method Sha256(hash: Hash, parts: seq<Bytes>) returns (digest: Option<Bytes>)
    ensures digest == if Short(parts) then Some(hash(Encode(parts))) else None
  {
    var fed: Bytes := [];
    for i := 0 to |parts|
      invariant Short(parts[..i]) && fed == Encode(parts[..i])
    {
      if |parts[i]| >= LIMIT {
        return None;
      }
      EncodeSnoc(parts[..i], parts[i]);
      assert parts[..i + 1] == parts[..i] + [parts[i]];
      fed := fed + Little(|parts[i]|, 8);
      fed := fed + parts[i];
    }
    assert parts[..|parts|] == parts;
    digest := Some(hash(fed));
  }

  // ------------------------------------------------------------------ the chain

  const ROOT_TAG: Bytes := [114, 111, 111, 116]
  const NODE_TAG: Bytes := [110, 111, 100, 101]

  datatype World = World(image: Bytes, prompt: Bytes, config: Bytes)

  ghost function RootMessage(w: World): Bytes {
    Encode([ROOT_TAG, w.image, w.prompt, w.config])
  }

  ghost function NodeMessage(parent: Bytes, action: Bytes): Bytes {
    Encode([NODE_TAG, parent, action])
  }

  /** The key at the end of an action path; the root hash for the empty path. */
  ghost function KeyOf(hash: Hash, w: World, acts: seq<Bytes>): Bytes {
    hash(MessageOf(hash, w, acts))
  }

  ghost function MessageOf(hash: Hash, w: World, acts: seq<Bytes>): Bytes
    decreases |acts|
  {
    if acts == [] then RootMessage(w)
    else NodeMessage(hash(MessageOf(hash, w, acts[..|acts| - 1])), acts[|acts| - 1])
  }

  ghost function ChainOf(hash: Hash, root: Bytes, acts: seq<Bytes>): (chain: seq<Bytes>)
    ensures |chain| == |acts|
    decreases |acts|
  {
    if acts == [] then []
    else
      var front := ChainOf(hash, root, acts[..|acts| - 1]);
      front + [hash(NodeMessage(if front == [] then root else front[|front| - 1], acts[|acts| - 1]))]
  }

  method NodeKey(hash: Hash, parent: Bytes, action: Bytes) returns (key: Option<Bytes>)
    requires |parent| < LIMIT
    ensures key == if |action| < LIMIT then Some(hash(NodeMessage(parent, action))) else None
  {
    var parts := [NODE_TAG, parent, action];
    assert Short(parts) <==> |action| < LIMIT by { assert parts[2] == action; }
    key := Sha256(hash, parts);
  }

  method BuildActionChain(hash: Hash, root: Bytes, acts: seq<Bytes>) returns (chain: Option<seq<Bytes>>)
    requires (forall m :: |hash(m)| == DIGEST_SIZE) && |root| == DIGEST_SIZE
    ensures chain == if Short(acts) then Some(ChainOf(hash, root, acts)) else None
  {
    var keys: seq<Bytes> := [];
    var prev := root;
    for i := 0 to |acts|
      invariant Short(acts[..i]) && keys == ChainOf(hash, root, acts[..i]) && |prev| == DIGEST_SIZE
      invariant prev == if i == 0 then root else keys[i - 1]
    {
      var key := NodeKey(hash, prev, acts[i]);
      if key.None? {
        return None;
      }
      assert acts[..i + 1][..i] == acts[..i];
      prev := key.value;
      keys := keys + [prev];
    }
    assert acts[..|acts|] == acts;
    chain := Some(keys);
  }

  /** Entry `i` of a chain is the key of the path with `i + 1` actions, so the chain of a prefix is the
      prefix of the chain. */
  lemma {:induction false} ChainEntry(hash: Hash, w: World, acts: seq<Bytes>, i: nat)
    requires i < |acts|
    ensures ChainOf(hash, KeyOf(hash, w, []), acts)[i] == KeyOf(hash, w, acts[..i + 1])
    decreases |acts|
  {
    var front := acts[..|acts| - 1];
    if i < |acts| - 1 {
      ChainEntry(hash, w, front, i);
      assert front[..i + 1] == acts[..i + 1];
    } else {
      assert acts[..i + 1] == acts;
      if front != [] {
        ChainEntry(hash, w, front, |front| - 1);
        assert front[..|front|] == front;
      }
    }
  }

  lemma {:induction false} ChainPrefix(hash: Hash, root: Bytes, acts: seq<Bytes>, n: nat)
    requires n <= |acts|
    ensures ChainOf(hash, root, acts[..n]) == ChainOf(hash, root, acts)[..n]
    decreases |acts|
  {
    if n == |acts| {
      assert acts[..n] == acts;
    } else {
      ChainPrefix(hash, root, acts[..|acts| - 1], n);
      assert acts[..|acts| - 1][..n] == acts[..n];
    }
  }

  ghost predicate Encodable(hash: Hash, w: World, acts: seq<Bytes>) {
    (forall m :: |hash(m)| == DIGEST_SIZE) && Short([w.image, w.prompt, w.config]) && Short(acts)
  }

  /** No two different messages among those hashed on the way to the two keys share a digest. */
  ghost predicate CollisionFree(hash: Hash, v: World, a: seq<Bytes>, w: World, b: seq<Bytes>) {
    forall i, j {:trigger MessageOf(hash, v, a[..i]), MessageOf(hash, w, b[..j])} :: 0 <= i <= |a| && 0 <= j <= |b| ==>
      hash(MessageOf(hash, v, a[..i])) == hash(MessageOf(hash, w, b[..j])) ==> MessageOf(hash, v, a[..i]) == MessageOf(hash, w, b[..j])
  }

  /** Keys tell worlds, depths and action prefixes apart. */
  lemma {:induction false} KeysAreUnique(hash: Hash, v: World, a: seq<Bytes>, w: World, b: seq<Bytes>)
    requires Encodable(hash, v, a) && Encodable(hash, w, b) && CollisionFree(hash, v, a, w, b)
    ensures KeyOf(hash, v, a) == KeyOf(hash, w, b) <==> v == w && a == b
    decreases |a|
  {
    if KeyOf(hash, v, a) == KeyOf(hash, w, b) {
      assert a[..|a|] == a && b[..|b|] == b;
      assert MessageOf(hash, v, a) == MessageOf(hash, w, b);
      MessagesDiffer(hash, v, a, w, b);
      if a != [] {
        var p, q := a[..|a| - 1], b[..|b| - 1];
        assert CollisionFree(hash, v, p, w, q) by {
          forall i, j | 0 <= i <= |p| && 0 <= j <= |q|
            ensures hash(MessageOf(hash, v, p[..i])) == hash(MessageOf(hash, w, q[..j])) ==> MessageOf(hash, v, p[..i]) == MessageOf(hash, w, q[..j])
          {
            assert p[..i] == a[..i] && q[..j] == b[..j];
          }
        }
        KeysAreUnique(hash, v, p, w, q);
        assert a == p + [a[|a| - 1]] && b == q + [b[|b| - 1]];
      }
    }
  }

  /** Equal messages come from the same tag and the same parts. */
  lemma {:induction false} MessagesDiffer(hash: Hash, v: World, a: seq<Bytes>, w: World, b: seq<Bytes>)
    requires Encodable(hash, v, a) && Encodable(hash, w, b) && MessageOf(hash, v, a) == MessageOf(hash, w, b)
    ensures a == [] <==> b == []
    ensures a == [] ==> v == w
    ensures a != [] ==> KeyOf(hash, v, a[..|a| - 1]) == KeyOf(hash, w, b[..|b| - 1]) && a[|a| - 1] == b[|b| - 1]
  {
    var x, y := PartsOf(hash, v, a), PartsOf(hash, w, b);
    EncodeInjective(x, y);
    assert x[0] == y[0] && ROOT_TAG[0] != NODE_TAG[0];
    assert x[1] == y[1] && x[2] == y[2];
    if a == [] { assert x[3] == y[3]; }
  }

  ghost function PartsOf(hash: Hash, w: World, acts: seq<Bytes>): (parts: seq<Bytes>)
    requires Encodable(hash, w, acts)
    ensures Short(parts) && MessageOf(hash, w, acts) == Encode(parts)
  {
    if acts == [] then
      var parts := [ROOT_TAG, w.image, w.prompt, w.config];
      assert w.image == [w.image, w.prompt, w.config][0] && w.prompt == [w.image, w.prompt, w.config][1] && w.config == [w.image, w.prompt, w.config][2];
      parts
    else [NODE_TAG, KeyOf(hash, w, acts[..|acts| - 1]), acts[|acts| - 1]]
  }
}
