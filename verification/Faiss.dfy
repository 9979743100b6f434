/** The embedded vector index: vectors under integer ids, a sidecar map from point names to those ids,
    and a publication in two files. */
module Faiss {
  import opened Machine
  import opened Options

  type Vec = seq<real>
  datatype Payload = Payload(prompt: string, steps: seq<int>)

  const NO_PAYLOAD := Payload("", [])

  /** The flat index: vectors with their ids, in insertion order. */
  type Index = seq<(int, Vec)>

  datatype Sidecar = Sidecar(idMap: map<string, int>, payload: map<string, Payload>, nextId: int)
  datatype Memory = Memory(index: Index, meta: Sidecar)

  const NEW_SIDECAR := Sidecar(map[], map[], 1)

  // ------------------------------------------------------------------ the index

  ghost predicate DistinctIds(index: Index) {
    forall i, j :: 0 <= i < j < |index| ==> index[i].0 != index[j].0
  }

  /** The index as a dictionary. */
  ghost function Table(index: Index): map<int, Vec> {
    if index == [] then map[] else Table(index[..|index| - 1])[index[|index| - 1].0 := index[|index| - 1].1]
  }

  function RemoveId(index: Index, id: int): (r: Index) {
    if index == [] then []
    else
      var front, last := RemoveId(index[..|index| - 1], id), index[|index| - 1];
      if last.0 == id then front else front + [last]
  }

  lemma {:induction false} TableAt(index: Index, i: nat)
    requires i < |index| && DistinctIds(index)
    ensures index[i].0 in Table(index) && Table(index)[index[i].0] == index[i].1
  {
    if i < |index| - 1 {
      TableAt(index[..|index| - 1], i);
    }
  }

  lemma {:induction false} TableWhere(index: Index, id: int) returns (i: nat)
    requires id in Table(index)
    ensures i < |index| && index[i].0 == id
  {
    i := |index| - 1;
    if index[i].0 != id { i := TableWhere(index[..i], id); }
  }

  lemma {:induction false} AddSpec(index: Index, e: (int, Vec))
    requires DistinctIds(index) && e.0 !in Table(index)
    ensures DistinctIds(index + [e]) && Table(index + [e]) == Table(index)[e.0 := e.1]
  {
    assert (index + [e])[..|index|] == index;
    forall i | 0 <= i < |index| ensures index[i].0 != e.0 { TableAt(index, i); }
  }

  lemma {:induction false} LastIsNew(index: Index)
    requires DistinctIds(index) && index != []
    ensures index[|index| - 1].0 !in Table(index[..|index| - 1])
  {
    if index[|index| - 1].0 in Table(index[..|index| - 1]) {
      var i := TableWhere(index[..|index| - 1], index[|index| - 1].0);
      assert false;
    }
  }

  lemma {:induction false} RemoveSpec(index: Index, id: int)
    requires DistinctIds(index)
    ensures DistinctIds(RemoveId(index, id)) && Table(RemoveId(index, id)) == Table(index) - {id}
  {
    if index != [] {
      var front, last := index[..|index| - 1], index[|index| - 1];
      RemoveSpec(front, id);
      LastIsNew(index);
      if last.0 != id { AddSpec(RemoveId(front, id), last); }
      MinusUpdate(Table(front), last.0, last.1, id);
    }
  }

  lemma {:induction false} MinusUpdate(table: map<int, Vec>, x: int, v: Vec, id: int)
    requires x !in table
    ensures table[x := v] - {id} == if x == id then table - {id} else (table - {id})[x := v]
  {
  }

  // ------------------------------------------------------------------ what it stands for

  function PayloadOf(meta: Sidecar, p: string): Payload {
    if p in meta.payload then meta.payload[p] else NO_PAYLOAD
  }

  /** The plain dictionary behind it: a point is there when its id is in the index. */
  ghost function PointsOf(meta: Sidecar, table: map<int, Vec>): map<string, (Vec, Payload)> {
    map p | p in meta.idMap && meta.idMap[p] in table :: (table[meta.idMap[p]], PayloadOf(meta, p))
  }

  ghost function Points(m: Memory): map<string, (Vec, Payload)> {
    PointsOf(m.meta, Table(m.index))
  }

  ghost predicate Injective(idMap: map<string, int>) {
    forall p, q :: p in idMap && q in idMap && idMap[p] == idMap[q] ==> p == q
  }

  /** Names and ids tell each other apart. It survives a torn publication. */
  ghost predicate Searchable(m: Memory) {
    DistinctIds(m.index) && Injective(m.meta.idMap)
  }

  /** Index, id map and payloads cover the same points, with ids below the next one. */
  ghost predicate Covered(meta: Sidecar, table: map<int, Vec>) {
    && meta.payload.Keys == meta.idMap.Keys && meta.nextId >= 1
    && (forall p :: p in meta.idMap ==> 1 <= meta.idMap[p] < meta.nextId && meta.idMap[p] in table)
    && (forall id :: id in table ==> exists p :: p in meta.idMap && meta.idMap[p] == id)
  }

  ghost predicate Coherent(m: Memory) {
    Searchable(m) && Covered(m.meta, Table(m.index))
  }

  /** The id under which an upsert of `p` adds the vector. */
  function IdFor(meta: Sidecar, p: string): int {
    if p in meta.idMap then meta.idMap[p] else meta.nextId
  }

  function MetaUpserted(meta: Sidecar, p: string, pl: Payload): Sidecar {
    Sidecar(meta.idMap[p := IdFor(meta, p)], meta.payload[p := pl], if p in meta.idMap then meta.nextId else meta.nextId + 1)
  }

  function Upserted(m: Memory, p: string, v: Vec, pl: Payload): Memory {
    Memory((if p in m.meta.idMap then RemoveId(m.index, m.meta.idMap[p]) else m.index) + [(IdFor(m.meta, p), v)], MetaUpserted(m.meta, p, pl))
  }

  function MetaDeleted(meta: Sidecar, p: string): Sidecar {
    meta.(idMap := meta.idMap - {p}, payload := meta.payload - {p})
  }

  function DeletedOne(m: Memory, p: string): Memory {
    Memory(if p in m.meta.idMap then RemoveId(m.index, m.meta.idMap[p]) else m.index, MetaDeleted(m.meta, p))
  }

  ghost function Deleted(m: Memory, ps: seq<string>): Memory {
    if ps == [] then m else DeletedOne(Deleted(m, ps[..|ps| - 1]), ps[|ps| - 1])
  }

  lemma {:induction false} ReplaceSpec(index: Index, id: int, v: Vec)
    requires DistinctIds(index)
    ensures DistinctIds(RemoveId(index, id) + [(id, v)]) && Table(RemoveId(index, id) + [(id, v)]) == Table(index)[id := v]
  {
    RemoveSpec(index, id);
    AddSpec(RemoveId(index, id), (id, v));
    PutBack(Table(index), id, v);
  }

  lemma {:induction false} PutBack(table: map<int, Vec>, id: int, v: Vec)
    ensures (table - {id})[id := v] == table[id := v]
  {
  }

  lemma {:induction false} NextIsNew(meta: Sidecar, table: map<int, Vec>)
    requires Covered(meta, table)
    ensures meta.nextId !in table
  {
    assert forall p :: p in meta.idMap ==> meta.idMap[p] != meta.nextId;
  }

  lemma {:induction false} UpsertedTable(m: Memory, p: string, v: Vec, pl: Payload)
    requires Coherent(m)
    ensures DistinctIds(Upserted(m, p, v, pl).index) && Table(Upserted(m, p, v, pl).index) == Table(m.index)[IdFor(m.meta, p) := v]
  {
    if p in m.meta.idMap {
      ReplaceSpec(m.index, m.meta.idMap[p], v);
    } else {
      NextIsNew(m.meta, Table(m.index));
      AddSpec(m.index, (m.meta.nextId, v));
    }
  }

  lemma {:induction false} MetaUpsertInjective(meta: Sidecar, p: string, pl: Payload)
    requires Injective(meta.idMap) && forall q :: q in meta.idMap ==> meta.idMap[q] < meta.nextId
    ensures Injective(MetaUpserted(meta, p, pl).idMap)
  {
  }

  lemma {:induction false} MetaUpsertCovered(meta: Sidecar, table: map<int, Vec>, p: string, v: Vec, pl: Payload)
    requires Covered(meta, table)
    ensures Covered(MetaUpserted(meta, p, pl), table[IdFor(meta, p) := v])
  {
    var id, meta' := IdFor(meta, p), MetaUpserted(meta, p, pl);
    var table' := table[id := v];
    forall x | x in table' ensures exists q :: q in meta'.idMap && meta'.idMap[q] == x {
      if x == id { assert meta'.idMap[p] == x; }
      else {
        var q :| q in meta.idMap && meta.idMap[q] == x;
        assert meta'.idMap[q] == x;
      }
    }
  }

  lemma {:induction false} PayloadSet(meta: Sidecar, meta': Sidecar, p: string, pl: Payload)
    requires meta'.payload == meta.payload[p := pl]
    ensures PayloadOf(meta', p) == pl && forall q :: q != p ==> PayloadOf(meta', q) == PayloadOf(meta, q)
  {
  }

  lemma {:induction false} PointsSet(meta: Sidecar, meta': Sidecar, table: map<int, Vec>, p: string, id: int, v: Vec, pl: Payload)
    requires meta'.idMap == meta.idMap[p := id] && meta'.payload == meta.payload[p := pl]
    requires forall q :: q in meta.idMap && q != p ==> meta.idMap[q] != id
    ensures PointsOf(meta', table[id := v]) == PointsOf(meta, table)[p := (v, pl)]
  {
    hide PayloadOf;
    PayloadSet(meta, meta', p, pl);
  }

  /** An upsert is a map update. */
  lemma {:induction false} UpsertRefines(m: Memory, p: string, v: Vec, pl: Payload)
    requires Coherent(m)
    ensures Coherent(Upserted(m, p, v, pl)) && Points(Upserted(m, p, v, pl)) == Points(m)[p := (v, pl)]
  {
    UpsertedTable(m, p, v, pl);
    MetaUpsertInjective(m.meta, p, pl);
    MetaUpsertCovered(m.meta, Table(m.index), p, v, pl);
    PointsSet(m.meta, MetaUpserted(m.meta, p, pl), Table(m.index), p, IdFor(m.meta, p), v, pl);
  }

  ghost function TableDeleted(meta: Sidecar, table: map<int, Vec>, p: string): map<int, Vec> {
    if p in meta.idMap then table - {meta.idMap[p]} else table
  }

  lemma {:induction false} MetaDeleteCovered(meta: Sidecar, table: map<int, Vec>, p: string)
    requires Injective(meta.idMap) && Covered(meta, table)
    ensures Covered(MetaDeleted(meta, p), TableDeleted(meta, table, p))
  {
    hide PayloadOf;
    var meta', table' := MetaDeleted(meta, p), TableDeleted(meta, table, p);
    forall x | x in table' ensures exists q :: q in meta'.idMap && meta'.idMap[q] == x {
      var q :| q in meta.idMap && meta.idMap[q] == x;
      assert q in meta'.idMap && meta'.idMap[q] == x;
    }
  }

  lemma {:induction false} MetaDeletePoints(meta: Sidecar, table: map<int, Vec>, p: string)
    requires Injective(meta.idMap)
    ensures PointsOf(MetaDeleted(meta, p), TableDeleted(meta, table, p)) == PointsOf(meta, table) - {p}
  {
  }

  lemma {:induction false} DeleteOneRefines(m: Memory, p: string)
    requires Coherent(m)
    ensures Coherent(DeletedOne(m, p)) && Points(DeletedOne(m, p)) == Points(m) - {p}
    ensures Table(DeletedOne(m, p).index) == TableDeleted(m.meta, Table(m.index), p)
  {
    if p in m.meta.idMap { RemoveSpec(m.index, m.meta.idMap[p]); }
    MetaDeleteCovered(m.meta, Table(m.index), p);
    MetaDeletePoints(m.meta, Table(m.index), p);
  }

  ghost function Names(ps: seq<string>): set<string> {
    set p | p in ps
  }

  lemma {:induction false} NamesSnoc(ps: seq<string>)
    requires ps != []
    ensures Names(ps) == Names(ps[..|ps| - 1]) + {ps[|ps| - 1]}
  {
    assert ps == ps[..|ps| - 1] + [ps[|ps| - 1]];
  }

  /** A deletion is a map difference. */
  lemma {:induction false} DeleteRefines(m: Memory, ps: seq<string>)
    requires Coherent(m)
    ensures Coherent(Deleted(m, ps)) && Points(Deleted(m, ps)) == Points(m) - Names(ps)
  {
    if ps != [] {
      var front, last := ps[..|ps| - 1], ps[|ps| - 1];
      DeleteRefines(m, front);
      DeleteOneRefines(Deleted(m, front), last);
      NamesSnoc(ps);
      MinusOneMore(Points(m), Names(front), last);
    }
  }

  lemma {:induction false} MinusOneMore<V>(m: map<string, V>, gone: set<string>, p: string)
    ensures m - (gone + {p}) == m - gone - {p}
  {
  }

  lemma {:induction false} DeletedParts(m: Memory, ps: seq<string>)
    requires Coherent(m)
    ensures Deleted(m, ps).meta.idMap == m.meta.idMap - Names(ps) && Table(Deleted(m, ps).index) == TableWithout(m, Names(ps))
  {
    if ps == [] {
      NoneGone(m);
    } else {
      var front, last := ps[..|ps| - 1], ps[|ps| - 1];
      DeleteRefines(m, front);
      DeletedParts(m, front);
      DeleteOneRefines(Deleted(m, front), last);
      NamesSnoc(ps);
      WithoutOneMore(m, Names(front), last);
      MinusOneMore(m.meta.idMap, Names(front), last);
    }
  }

  lemma {:induction false} NoneGone(m: Memory)
    ensures TableWithout(m, {}) == Table(m.index) && m.meta.idMap - Names([]) == m.meta.idMap
  {
  }

  /** The vectors that the points outside `gone` keep. */
  ghost function TableWithout(m: Memory, gone: set<string>): map<int, Vec> {
    map id | id in Table(m.index) && (forall p :: p in gone && p in m.meta.idMap ==> m.meta.idMap[p] != id) :: Table(m.index)[id]
  }

  lemma {:induction false} WithoutOneMore(m: Memory, gone: set<string>, p: string)
    requires Injective(m.meta.idMap)
    ensures TableWithout(m, gone + {p}) ==
      if p in m.meta.idMap - gone then TableWithout(m, gone) - {m.meta.idMap[p]} else TableWithout(m, gone)
  {
  }

  // ------------------------------------------------------------------ torn publications

  /** The index file of a new state beside the metadata file of the old one. */
  ghost function Torn(before: Memory, after: Memory): Memory {
    Memory(after.index, before.meta)
  }

  /** After an upsert that died between the two files, a reload knows the same points; only `p` can have
      changed, and then only its vector. */
  lemma {:induction false} TornUpsert(m: Memory, p: string, v: Vec, pl: Payload)
    requires Coherent(m)
    ensures var t := Torn(m, Upserted(m, p, v, pl));
      Searchable(t) && Points(t) == if p in Points(m) then Points(m)[p := (v, Points(m)[p].1)] else Points(m)
  {
    UpsertedTable(m, p, v, pl);
    TornPoints(m.meta, Table(m.index), p, v);
  }

  lemma {:induction false} TornPoints(meta: Sidecar, table: map<int, Vec>, p: string, v: Vec)
    requires Injective(meta.idMap) && Covered(meta, table)
    ensures var before := PointsOf(meta, table);
      PointsOf(meta, table[IdFor(meta, p) := v]) == if p in before then before[p := (v, before[p].1)] else before
  {
    hide PayloadOf;
  }

  /** After a torn deletion a reload knows exactly the points that were not deleted, as they were. */
  lemma {:induction false} TornDelete(m: Memory, ps: seq<string>)
    requires Coherent(m)
    ensures Searchable(Torn(m, Deleted(m, ps))) && Points(Torn(m, Deleted(m, ps))) == Points(m) - Names(ps)
  {
    DeleteRefines(m, ps);
    DeletedParts(m, ps);
    PointsWithout(m, Names(ps));
  }

  lemma {:induction false} PointsWithout(m: Memory, gone: set<string>)
    requires Injective(m.meta.idMap)
    ensures PointsOf(m.meta, TableWithout(m, gone)) == Points(m) - gone
  {
  }

  // ------------------------------------------------------------------ search

  type Similarity = (Vec, Vec) -> real

  datatype Found = Found(point: string, similarity: real, payload: Payload)

  ghost function NameOf(idMap: map<string, int>, id: int): (r: Option<string>)
    ensures r.Some? ==> r.value in idMap && idMap[r.value] == id
    ensures r.None? ==> forall p :: p in idMap ==> idMap[p] != id
  {
    if exists p :: p in idMap && idMap[p] == id then
      var p :| p in idMap && idMap[p] == id;
      Some(p)
    else None
  }

  ghost predicate Position(m: Memory, h: int) {
    0 <= h < |m.index|
  }

  ghost predicate Positions(m: Memory, hits: seq<int>, n: nat) {
    n <= |hits| && forall i :: 0 <= i < n ==> hits[i] == -1 || 0 <= hits[i] < |m.index|
  }

  /** What the index library answers: positions of the `limit` most similar vectors, best first, padded
      with `-1` when there are fewer. */
  ghost predicate IsTop(m: Memory, q: Vec, limit: nat, hits: seq<int>, sim: Similarity) {
    && |hits| == limit && Positions(m, hits, limit)
    && (forall i, j :: 0 <= i < j < limit && hits[j] != -1 ==>
          hits[i] != -1 && hits[i] != hits[j] && sim(m.index[hits[i]].1, q) >= sim(m.index[hits[j]].1, q))
    && (forall h :: Position(m, h) && h !in hits ==> -1 !in hits && forall i :: 0 <= i < limit ==> sim(m.index[hits[i]].1, q) >= sim(m.index[h].1, q))
  }

  /** The first `|order|` positions, each once, best first. */
  ghost predicate Ordered(m: Memory, q: Vec, order: seq<int>, sim: Similarity) {
    && (forall i :: 0 <= i < |order| ==> Position(m, order[i]) && order[i] < |order|)
    && (forall i, j :: 0 <= i < j < |order| ==> order[i] != order[j] && sim(m.index[order[i]].1, q) >= sim(m.index[order[j]].1, q))
    && forall h :: 0 <= h < |order| ==> h in order
  }

  lemma {:induction false} Order(m: Memory, q: Vec, n: nat, sim: Similarity) returns (order: seq<int>)
    requires n <= |m.index|
    ensures |order| == n && Ordered(m, q, order, sim)
  {
    order := [];
    if n > 0 {
      var front := Order(m, q, n - 1, sim);
      var i, s := 0, sim(m.index[n - 1].1, q);
      while i < |front| && sim(m.index[front[i]].1, q) >= s
        invariant i <= |front| && forall j :: 0 <= j < i ==> sim(m.index[front[j]].1, q) >= s
      {
        i := i + 1;
      }
      order := front[..i] + [n - 1] + front[i..];
      InsertedIsOrdered(m, q, front, i, sim);
    }
  }

  lemma {:induction false} InsertedIsOrdered(m: Memory, q: Vec, front: seq<int>, i: nat, sim: Similarity)
    requires Ordered(m, q, front, sim) && i <= |front| < |m.index|
    requires forall j :: 0 <= j < i ==> sim(m.index[front[j]].1, q) >= sim(m.index[|front|].1, q)
    requires i < |front| ==> sim(m.index[front[i]].1, q) <= sim(m.index[|front|].1, q)
    ensures Ordered(m, q, front[..i] + [|front|] + front[i..], sim)
  {
    var order := front[..i] + [|front|] + front[i..];
    forall h | 0 <= h < |order| ensures h in order {
      if h == |front| {
        assert order[i] == h;
      } else {
        assert h in front;
        var j :| 0 <= j < |front| && front[j] == h;
        assert order[if j < i then j else j + 1] == h;
      }
    }
  }

  lemma {:induction false} TakenIsTop(m: Memory, q: Vec, order: seq<int>, limit: nat, sim: Similarity)
    requires |order| == |m.index| && Ordered(m, q, order, sim) && limit <= |order|
    ensures IsTop(m, q, limit, order[..limit], sim)
  {
    var hits := order[..limit];
    forall h | Position(m, h) && h !in hits
      ensures -1 !in hits && forall i :: 0 <= i < limit ==> sim(m.index[hits[i]].1, q) >= sim(m.index[h].1, q)
    {
      assert h in order && forall i :: 0 <= i < limit ==> order[i] == hits[i];
      var j :| 0 <= j < |order| && order[j] == h;
      assert j >= limit;
    }
  }

  lemma {:induction false} PaddedIsTop(m: Memory, q: Vec, order: seq<int>, limit: nat, sim: Similarity)
    requires |order| == |m.index| && Ordered(m, q, order, sim) && limit >= |order|
    ensures IsTop(m, q, limit, order + seq(limit - |order|, _ => -1), sim)
  {
    var hits := order + seq(limit - |order|, _ => -1);
    forall h | Position(m, h) ensures h in hits { assert h in order; }
  }

  /** There always is such an answer. */
  lemma {:induction false} TopExists(m: Memory, q: Vec, limit: nat, sim: Similarity) returns (hits: seq<int>)
    ensures IsTop(m, q, limit, hits, sim)
  {
    hide IsTop, Ordered;
    var order := Order(m, q, |m.index|, sim);
    if limit <= |order| {
      TakenIsTop(m, q, order, limit, sim);
      hits := order[..limit];
    } else {
      PaddedIsTop(m, q, order, limit, sim);
      hits := order + seq(limit - |order|, _ => -1);
    }
  }

  ghost predicate Keeps(threshold: Option<real>, similarity: real) {
    threshold.None? || similarity >= threshold.value
  }

  /** The answers for the first `n` positions: nameless vectors and low scores are skipped. */
  ghost function Answers(m: Memory, q: Vec, hits: seq<int>, n: nat, threshold: Option<real>, sim: Similarity): seq<Found>
    requires Positions(m, hits, n)
  {
    if n == 0 then []
    else
      var front := Answers(m, q, hits, n - 1, threshold, sim);
      if hits[n - 1] == -1 then front
      else
        var e := m.index[hits[n - 1]];
        var name := NameOf(m.meta.idMap, e.0);
        if name.None? || !Keeps(threshold, sim(e.1, q)) then front
        else front + [Found(name.value, sim(e.1, q), PayloadOf(m.meta, name.value))]
  }

  ghost predicate Answered(rs: seq<Found>, p: string) {
    exists k :: 0 <= k < |rs| && rs[k].point == p
  }

  /** Each answer is a point with its own vector's score and its own payload, and came from a position
      already looked at. */
  lemma {:induction false} AnswersAreSound(m: Memory, q: Vec, hits: seq<int>, n: nat, threshold: Option<real>, sim: Similarity, k: nat)
    requires Searchable(m) && Positions(m, hits, n)
    requires k < |Answers(m, q, hits, n, threshold, sim)|
    ensures var r := Answers(m, q, hits, n, threshold, sim)[k];
      && r.point in Points(m) && r == Found(r.point, sim(Points(m)[r.point].0, q), Points(m)[r.point].1) && Keeps(threshold, r.similarity)
      && exists i :: 0 <= i < n && hits[i] != -1 && m.index[hits[i]].0 == m.meta.idMap[r.point]
  {
    var front := Answers(m, q, hits, n - 1, threshold, sim);
    if k < |front| {
      AnswersAreSound(m, q, hits, n - 1, threshold, sim, k);
    } else {
      TableAt(m.index, hits[n - 1]);
    }
  }

  /** Every named position looked at that scores well enough is answered. */
  lemma {:induction false} AnswersAreComplete(m: Memory, q: Vec, hits: seq<int>, n: nat, threshold: Option<real>, sim: Similarity, i: nat, p: string)
    requires Searchable(m) && Positions(m, hits, n)
    requires i < n && hits[i] != -1 && p in m.meta.idMap && m.meta.idMap[p] == m.index[hits[i]].0 && Keeps(threshold, sim(m.index[hits[i]].1, q))
    ensures Answered(Answers(m, q, hits, n, threshold, sim), p)
  {
    var rs, front := Answers(m, q, hits, n, threshold, sim), Answers(m, q, hits, n - 1, threshold, sim);
    if i < n - 1 {
      AnswersAreComplete(m, q, hits, n - 1, threshold, sim, i, p);
      var k :| 0 <= k < |front| && front[k].point == p;
      assert rs[k] == front[k];
    } else {
      assert rs[|front|].point == p;
    }
  }

  lemma {:induction false} LaterScoresNoBetter(m: Memory, q: Vec, limit: nat, hits: seq<int>, n: nat, threshold: Option<real>, sim: Similarity, j: nat)
    requires Searchable(m) && IsTop(m, q, limit, hits, sim) && n < limit && hits[n] != -1
    requires j < |Answers(m, q, hits, n, threshold, sim)|
    ensures var r, e := Answers(m, q, hits, n, threshold, sim)[j], m.index[hits[n]];
      r.similarity >= sim(e.1, q) && r.point in m.meta.idMap && m.meta.idMap[r.point] != e.0
  {
    AnswersAreSound(m, q, hits, n, threshold, sim, j);
    var r := Answers(m, q, hits, n, threshold, sim)[j];
    var i :| 0 <= i < n && hits[i] != -1 && m.index[hits[i]].0 == m.meta.idMap[r.point];
    TableAt(m.index, hits[i]);
    TableAt(m.index, hits[n]);
  }

  ghost predicate BestFirst(rs: seq<Found>) {
    forall j, k :: 0 <= j < k < |rs| ==> rs[j].similarity >= rs[k].similarity && rs[j].point != rs[k].point
  }

  /** Best first, no point twice. */
  lemma {:induction false} AnswersAreSorted(m: Memory, q: Vec, limit: nat, hits: seq<int>, n: nat, threshold: Option<real>, sim: Similarity)
    requires Searchable(m) && IsTop(m, q, limit, hits, sim) && n <= limit
    ensures BestFirst(Answers(m, q, hits, n, threshold, sim))
  {
    if n > 0 {
      AnswersAreSorted(m, q, limit, hits, n - 1, threshold, sim);
      var front, rs := Answers(m, q, hits, n - 1, threshold, sim), Answers(m, q, hits, n, threshold, sim);
      forall j, k | 0 <= j < k < |rs| ensures rs[j].similarity >= rs[k].similarity && rs[j].point != rs[k].point {
        if k == |front| {
          LaterScoresNoBetter(m, q, limit, hits, n - 1, threshold, sim, j);
          assert rs[j] == front[j] && rs == front + [rs[k]];
        } else {
          assert rs[j] == front[j] && rs[k] == front[k];
        }
      }
    }
  }

  /** A search answers as a search of the plain dictionary would: a point that is missing from the
      answers scores too low, or no better than each of a full list of them. */
  lemma {:induction false} SearchAgrees(m: Memory, q: Vec, limit: nat, hits: seq<int>, threshold: Option<real>, sim: Similarity, p: string)
    requires Coherent(m) && IsTop(m, q, limit, hits, sim) && p in Points(m)
    ensures var rs := Answers(m, q, hits, limit, threshold, sim);
      || Answered(rs, p) || !Keeps(threshold, sim(Points(m)[p].0, q))
      || (-1 !in hits && forall k :: 0 <= k < |rs| ==> rs[k].similarity >= sim(Points(m)[p].0, q))
  {
    var rs := Answers(m, q, hits, limit, threshold, sim);
    var h := TableWhere(m.index, m.meta.idMap[p]);
    TableAt(m.index, h);
    assert Position(m, h);
    if h in hits {
      var i :| 0 <= i < |hits| && hits[i] == h;
      if Keeps(threshold, sim(m.index[h].1, q)) { AnswersAreComplete(m, q, hits, limit, threshold, sim, i, p); }
    } else {
      forall k | 0 <= k < |rs| ensures rs[k].similarity >= sim(Points(m)[p].0, q) {
        AnswersAreSound(m, q, hits, limit, threshold, sim, k);
        var i :| 0 <= i < limit && hits[i] != -1 && m.index[hits[i]].0 == m.meta.idMap[rs[k].point];
        TableAt(m.index, hits[i]);
      }
    }
  }

  // ------------------------------------------------------------------ the store

  /** Both files replaced; neither (the write raised); or the process died in between. */
  datatype Write = Published | NotWritten | TornWrite

  /** One collection: what is loaded, and its two files. */
  datatype State = State(memory: Option<Memory>, indexFile: Option<Index>, metaFile: Option<Sidecar>)

  /** What a load sees. */
  function Current(st: State): Option<Memory> {
    if st.memory.Some? then st.memory
    else if st.indexFile.None? then None
    else Some(Memory(st.indexFile.value, if st.metaFile.Some? then st.metaFile.value else NEW_SIDECAR))
  }

  /** A new state in memory, and in the files as far as they were replaced. */
  function Written(st: State, m: Memory, w: Write): State {
    State(Some(m), if w.NotWritten? then st.indexFile else Some(m.index), if w.Published? then Some(m.meta) else st.metaFile)
  }

  datatype Settings = Settings(dim: nat, normalize: Vec -> Vec)

  const EMPTY := Memory([], NEW_SIDECAR)

  function Loaded(st: State): State {
    st.(memory := Current(st))
  }

  /** A missing collection is created first; a vector of the wrong dimension changes no point. */
  function AfterUpsert(c: Settings, st: State, p: string, v: Vec, pl: Payload, create: Write, w: Write): State {
    var there := if Current(st).Some? then Loaded(st) else Written(st, EMPTY, create);
    if (Current(st).None? && !create.Published?) || |v| != c.dim then there
    else Written(there, Upserted(there.memory.value, p, c.normalize(v), pl), w)
  }

  ghost function AfterDelete(st: State, ps: seq<string>, w: Write): State {
    if Current(st).None? then st else Written(st, Deleted(Current(st).value, ps), w)
  }

  function RemoveIds(index: Index, ids: seq<int>): Index {
    if ids == [] then index else RemoveId(RemoveIds(index, ids[..|ids| - 1]), ids[|ids| - 1])
  }

  /** One collection. */
  class FaissStore {
    const dim: nat
    const normalize: Vec -> Vec
    const similarity: Similarity
    var memory: Option<Memory>
    var indexFile: Option<Index>
    var metaFile: Option<Sidecar>

    constructor (dim: nat, normalize: Vec -> Vec, similarity: Similarity, indexFile: Option<Index>, metaFile: Option<Sidecar>)
      ensures this.dim == dim && this.normalize == normalize && this.similarity == similarity
      ensures memory == None && this.indexFile == indexFile && this.metaFile == metaFile
    {
      this.dim, this.normalize, this.similarity, memory, this.indexFile, this.metaFile := dim, normalize, similarity, None, indexFile, metaFile;
    }

    function Now(): State
      reads this
    {
      State(memory, indexFile, metaFile)
    }

    method LoadIndex()
      modifies `memory
      ensures Now() == Loaded(old(Now()))
    {
      memory := Current(Now());
    }

    method SaveIndex(w: Write) returns (ok: bool)
      requires memory.Some?
      modifies `indexFile, `metaFile
      ensures ok == w.Published? && Now() == Written(old(Now()), memory.value, w)
    {
      if !w.NotWritten? {
        indexFile := Some(memory.value.index);
      }
      if w.Published? {
        metaFile := Some(memory.value.meta);
      }
      ok := w.Published?;
    }

    /** Creates the collection when it is missing. A vector of the wrong dimension changes no point. */
    method Upsert(p: string, v: Vec, pl: Payload, create: Write, w: Write) returns (ok: bool)
      modifies this
      ensures Now() == AfterUpsert(Settings(dim, normalize), old(Now()), p, v, pl, create, w)
      ensures ok <==> w.Published? && |v| == dim && (old(Current(Now())).Some? || create.Published?)
    {
      LoadIndex();
      if memory.None? {
        memory := Some(EMPTY);
        var created := SaveIndex(create);
        if !created {
          return false;
        }
      }
      if |v| != dim {
        return false;
      }
      var index, meta := memory.value.index, memory.value.meta;
      var id := meta.nextId;
      if p in meta.idMap {
        id := meta.idMap[p];
        index := RemoveId(index, id);
      } else {
        meta := meta.(nextId := id + 1, idMap := meta.idMap[p := id]);
      }
      index := index + [(id, normalize(v))];
      meta := meta.(payload := meta.payload[p := pl]);
      assert meta.idMap == memory.value.meta.idMap[p := id];
      memory := Some(Memory(index, meta));
      ok := SaveIndex(w);
    }

    method Delete(ps: seq<string>, w: Write) returns (ok: bool)
      modifies this
      ensures Now() == AfterDelete(old(Now()), ps, w) && (ok <==> w.Published? || old(Current(Now())).None?)
    {
      LoadIndex();
      if memory.None? {
        return true;
      }
      var index, meta := memory.value.index, memory.value.meta;
      var toRemove: seq<int> := [];
      for i := 0 to |ps|
        invariant Memory(RemoveIds(index, toRemove), meta) == Deleted(memory.value, ps[..i])
      {
        assert ps[..i + 1][..i] == ps[..i];
        if ps[i] in meta.idMap {
          var id := meta.idMap[ps[i]];
          assert (toRemove + [id])[..|toRemove|] == toRemove;
          toRemove := toRemove + [id];
        }
        meta := meta.(idMap := meta.idMap - {ps[i]}, payload := meta.payload - {ps[i]});
      }
      assert ps[..|ps|] == ps;
      memory := Some(Memory(RemoveIds(index, toRemove), meta));
      ok := SaveIndex(w);
    }

    /** Linear search for the point with a given id. */
    method FindPointId(idMap: map<string, int>, id: int) returns (p: Option<string>)
      requires Injective(idMap)
      ensures p == NameOf(idMap, id)
    {
      var left := idMap.Keys;
      while left != {}
        invariant left <= idMap.Keys && forall q :: q in idMap && q !in left ==> idMap[q] != id
        decreases |left|
      {
        var q :| q in left;
        if idMap[q] == id {
          return Some(q);
        }
        left := left - {q};
      }
      p := None;
    }

    /** `hits` is the index library's answer. */
    method Search(q: Vec, limit: nat, threshold: Option<real>, hits: seq<int>) returns (rs: Option<seq<Found>>)
      requires Current(Now()).Some? ==>
        Searchable(Current(Now()).value) && (|q| == dim ==> IsTop(Current(Now()).value, normalize(q), limit, hits, similarity))
      modifies `memory
      ensures Now() == Loaded(old(Now()))
      ensures rs == if memory.None? then Some([]) else if |q| != dim then None
                    else Some(Answers(memory.value, normalize(q), hits, limit, threshold, similarity))
    {
      LoadIndex();
      if memory.None? {
        return Some([]);
      }
      if |q| != dim {
        return None;
      }
      var m, vec := memory.value, normalize(q);
      var results: seq<Found> := [];
      for i := 0 to limit
        invariant results == Answers(m, vec, hits, i, threshold, similarity) && memory == Some(m)
      {
        if hits[i] == -1 {
          continue;
        }
        assert Position(m, hits[i]);
        var e := m.index[hits[i]];
        var name := FindPointId(m.meta.idMap, e.0);
        if name.None? || (threshold.Some? && similarity(e.1, vec) < threshold.value) {
          continue;
        }
        results := results + [Found(name.value, similarity(e.1, vec), PayloadOf(m.meta, name.value))];
      }
      rs := Some(results);
    }
  }

  // ------------------------------------------------------------------ every run of one collection

  datatype Op =
    | UpsertOp(p: string, v: Vec, pl: Payload, create: Write, w: Write)
    | DeleteOp(ps: seq<string>, w: Write)
    | SearchOp
    | ReopenOp

  ghost function OpNext(c: Settings, st: State, op: Op): State {
    match op
    case UpsertOp(p, v, pl, create, w) => AfterUpsert(c, st, p, v, pl, create, w)
    case DeleteOp(ps, w) => AfterDelete(st, ps, w)
    case SearchOp => Loaded(st)
    case ReopenOp => st.(memory := None)
  }

  ghost function OpSteps(c: Settings): (State, Op) -> State {
    (st, op) => OpNext(c, st, op)
  }

  ghost function StoreRun(c: Settings, ops: seq<Op>): State {
    Fold(OpSteps(c), State(None, None, None), ops)
  }

  type Dict = map<string, (Vec, Payload)>

  /** What a caller may think of: the dictionary in use, and the one a new process would find. */
  datatype View = View(now: Option<Dict>, kept: Option<Dict>)

  ghost function DictOf(m: Option<Memory>): Option<Dict> {
    if m.None? then None else Some(Points(m.value))
  }

  ghost function ViewOf(st: State): View {
    View(DictOf(Current(st)), DictOf(Current(st.(memory := None))))
  }

  ghost function Kept(view: View, d: Dict, w: Write): View {
    View(Some(d), if w.Published? then Some(d) else view.kept)
  }

  ghost function ViewNext(c: Settings, view: View, op: Op): View {
    match op
    case UpsertOp(p, v, pl, create, w) =>
      var there := if view.now.Some? then view else Kept(view, map[], create);
      if (view.now.None? && !create.Published?) || |v| != c.dim then there
      else Kept(there, there.now.value[p := (c.normalize(v), pl)], w)
    case DeleteOp(ps, w) => if view.now.None? then view else Kept(view, view.now.value - Names(ps), w)
    case SearchOp => view
    case ReopenOp => view.(now := view.kept)
  }

  ghost function ViewSteps(c: Settings): (View, Op) -> View {
    (view, op) => ViewNext(c, view, op)
  }

  ghost function ViewRun(c: Settings, ops: seq<Op>): View {
    Fold(ViewSteps(c), View(None, None), ops)
  }

  /** No write died between the two files. */
  predicate Untorn(op: Op) {
    (op.UpsertOp? ==> !op.create.TornWrite? && !op.w.TornWrite?) && (op.DeleteOp? ==> !op.w.TornWrite?)
  }

  ghost predicate SoundMemory(m: Option<Memory>) {
    m.Some? ==> Coherent(m.value)
  }

  /** Both files of one coherent state, or none. */
  ghost predicate Whole(st: State) {
    (st.indexFile.None? <==> st.metaFile.None?) && SoundMemory(Current(st.(memory := None)))
  }

  ghost predicate SoundState(st: State) {
    Whole(st) && SoundMemory(st.memory)
  }

  lemma {:induction false} EmptyIsCoherent()
    ensures Coherent(EMPTY) && Points(EMPTY) == map[]
  {
  }

  lemma {:induction false} WriteRefines(st: State, m: Memory, w: Write)
    requires SoundState(st) && Coherent(m) && !w.TornWrite?
    ensures SoundState(Written(st, m, w)) && ViewOf(Written(st, m, w)) == Kept(ViewOf(st), Points(m), w)
  {
  }

  lemma {:induction false} UpsertOpRefines(c: Settings, st: State, op: Op)
    requires SoundState(st) && op.UpsertOp? && Untorn(op)
    ensures SoundState(OpNext(c, st, op)) && ViewOf(OpNext(c, st, op)) == ViewNext(c, ViewOf(st), op)
  {
    hide Coherent, Points, Upserted;
    EmptyIsCoherent();
    WriteRefines(st, EMPTY, op.create);
    var there := if Current(st).Some? then Loaded(st) else Written(st, EMPTY, op.create);
    assert SoundState(there) && ViewOf(Loaded(st)) == ViewOf(st);
    UpsertRefines(there.memory.value, op.p, c.normalize(op.v), op.pl);
    WriteRefines(there, Upserted(there.memory.value, op.p, c.normalize(op.v), op.pl), op.w);
  }

  lemma {:induction false} OpRefines(c: Settings, st: State, op: Op)
    requires SoundState(st) && Untorn(op)
    ensures SoundState(OpNext(c, st, op)) && ViewOf(OpNext(c, st, op)) == ViewNext(c, ViewOf(st), op)
  {
    hide Coherent, Points, AfterUpsert;
    match op
    case UpsertOp(_, _, _, _, _) => UpsertOpRefines(c, st, op);
    case DeleteOp(ps, w) =>
      if Current(st).Some? {
        DeleteRefines(Current(st).value, ps);
        WriteRefines(st, Deleted(Current(st).value, ps), w);
      }
    case SearchOp =>
    case ReopenOp =>
  }

  /** Every run from an empty store, with failing writes and new processes in between, is a run of two plain
      dictionaries, and what it loads is coherent. */
  lemma {:induction false} RunRefines(c: Settings, ops: seq<Op>)
    requires forall i :: 0 <= i < |ops| ==> Untorn(ops[i])
    ensures SoundState(StoreRun(c, ops)) && ViewOf(StoreRun(c, ops)) == ViewRun(c, ops)
  {
    if ops != [] {
      var front := ops[..|ops| - 1];
      RunRefines(c, front);
      OpRefines(c, StoreRun(c, front), ops[|ops| - 1]);
    }
  }

  lemma {:induction false} RunIsCoherent(c: Settings, ops: seq<Op>)
    requires forall i :: 0 <= i < |ops| ==> Untorn(ops[i])
    ensures Current(StoreRun(c, ops)).Some? ==> Coherent(Current(StoreRun(c, ops)).value)
  {
    RunRefines(c, ops);
  }

  /** Memory, if loaded, is what the files hold, as it is after any published write or in a new process. */
  ghost predicate InStep(st: State) {
    st.memory.Some? ==> st.indexFile == Some(st.memory.value.index) && st.metaFile == Some(st.memory.value.meta)
  }

  /** When the process then dies between the two files of an upsert, the next one finds the points as they
      were, and at most the upserted point's vector is the new one. */
  lemma {:induction false} TornUpsertReopens(c: Settings, ops: seq<Op>, op: Op)
    requires (forall i :: 0 <= i < |ops| ==> Untorn(ops[i])) && InStep(StoreRun(c, ops))
    requires op.UpsertOp? && |op.v| == c.dim && op.create.Published? && op.w.TornWrite?
    ensures var st, before := OpNext(c, OpNext(c, StoreRun(c, ops), op), ReopenOp), ViewRun(c, ops).now;
      var d: Dict := if before.Some? then before.value else map[];
      Current(st).Some? && Searchable(Current(st).value)
      && Points(Current(st).value) == if op.p in d then d[op.p := (c.normalize(op.v), d[op.p].1)] else d
  {
    hide Coherent, Points, Upserted, Searchable;
    RunRefines(c, ops);
    EmptyIsCoherent();
    var st := StoreRun(c, ops);
    var m := if Current(st).Some? then Current(st).value else EMPTY;
    TornUpsert(m, op.p, c.normalize(op.v), op.pl);
    assert Current(OpNext(c, OpNext(c, st, op), ReopenOp)) == Some(Torn(m, Upserted(m, op.p, c.normalize(op.v), op.pl)));
  }

  /** After a deletion cut off like that exactly the other points are left. */
  lemma {:induction false} TornDeleteReopens(c: Settings, ops: seq<Op>, ps: seq<string>)
    requires (forall i :: 0 <= i < |ops| ==> Untorn(ops[i])) && InStep(StoreRun(c, ops)) && ViewRun(c, ops).now.Some?
    ensures var st := OpNext(c, OpNext(c, StoreRun(c, ops), DeleteOp(ps, TornWrite)), ReopenOp);
      Current(st).Some? && Searchable(Current(st).value) && Points(Current(st).value) == ViewRun(c, ops).now.value - Names(ps)
  {
    hide Coherent, Points, Deleted, Searchable;
    RunRefines(c, ops);
    var st := StoreRun(c, ops);
    TornDelete(Current(st).value, ps);
    assert Current(OpNext(c, OpNext(c, st, DeleteOp(ps, TornWrite)), ReopenOp)) == Some(Torn(Current(st).value, Deleted(Current(st).value, ps)));
  }
}
