/** Saving one donor across the key-value store, the vector index and the metadata table, with every
    backend call free to fail. */
module Approx {
  import opened Options
  import opened StepKeys

  type Blob(!new)
  type Embedding(!new)

  datatype Entry = Entry(vector: Embedding, prompt: string, steps: seq<int>)
  datatype Meta = Meta(prompt: string, steps: seq<int>)
  datatype Stores = Stores(kv: map<string, Blob>, vec: map<string, Entry>, meta: map<string, Meta>)

  /** A call works, raises without effect, or raises after its effect. */
  datatype Call = Ok | Clean | Dirty

  datatype Encoding = Vector(v: Embedding) | NoVector | EncoderRaises

  /** The backends present and how each of their calls will end; `remove` by cleanup pass and position. */
  datatype Env = Env(hasVectors: bool, hasEncoder: bool, encoding: Encoding, put: nat -> Call, ensure: Call, upsert: Call,
                     register: Call, deleteVector: Call, removeMeta: Call, remove: (nat, nat) -> Call)

  datatype Request = Request(prompt: string, latents: Latents, steps: seq<int>, hasFrames: bool)

  datatype Result = Saved | Skipped | Raised

  // ------------------------------------------------------------------ which steps are saved

  ghost predicate Increasing(s: seq<int>) {
    forall i, j :: 0 <= i < j < |s| ==> s[i] < s[j]
  }

  lemma {:induction false} ConsIncreasing(x: int, rest: seq<int>)
    requires Increasing(rest) && forall y :: y in rest ==> x < y
    ensures Increasing([x] + rest)
  {
    assert forall i :: 0 <= i < |rest| ==> rest[i] in rest;
  }

  function Insert(sorted: seq<int>, x: int): (r: seq<int>)
    requires Increasing(sorted)
    ensures Increasing(r) && forall y :: y in r <==> y in sorted || y == x
  {
    if sorted == [] || x < sorted[0] then [x] + sorted
    else if x == sorted[0] then sorted
    else
      var rest := Insert(sorted[1..], x);
      assert forall y :: y in sorted <==> y == sorted[0] || y in sorted[1..];
      ConsIncreasing(sorted[0], rest);
      [sorted[0]] + rest
  }

  type Latents = map<int, Option<Blob>>

  predicate HasLatent(latents: Latents, s: int) {
    s in latents && latents[s].Some?
  }

  function LatentOf(latents: Latents, s: int): Blob
    requires HasLatent(latents, s)
  {
    latents[s].value
  }

  predicate Provided(steps: seq<int>, latents: Latents) {
    forall i :: 0 <= i < |steps| ==> HasLatent(latents, steps[i])
  }

  /** The requested steps that have a latent, each once, in increasing order. */
  function ValidSteps(steps: seq<int>, latents: Latents): (r: seq<int>)
    ensures Increasing(r) && Provided(r, latents) && forall s :: s in r <==> s in steps && HasLatent(latents, s)
  {
    if steps == [] then []
    else
      var front, last := ValidSteps(steps[..|steps| - 1], latents), steps[|steps| - 1];
      assert steps == steps[..|steps| - 1] + [last];
      var r := if HasLatent(latents, last) then Insert(front, last) else front;
      assert forall i :: 0 <= i < |r| ==> r[i] in r && (r[i] in front || r[i] == last);
      assert forall i :: 0 <= i < |r| ==> r[i] in front ==> HasLatent(latents, r[i]);
      r
  }

  // ------------------------------------------------------------------ what a donor needs

  /** Every vector entry can still serve every step it advertises. */
  ghost predicate Served(st: Stores) {
    forall id :: id in st.vec ==> forall s :: s in st.vec[id].steps ==> StepKey(id, s) in st.kv
  }

  /** Thirty-two hexadecimal digits, as new ids are generated. */
  predicate HexId(id: string) {
    |id| == 32 && forall i :: 0 <= i < 32 ==> '0' <= id[i] <= '9' || 'a' <= id[i] <= 'f'
  }

  /** No index entry of `b` is new or changed but that of `id`. */
  ghost predicate OnlyAdds(a: Stores, b: Stores, id: string) {
    forall x :: x in b.vec && x != id ==> x in a.vec && b.vec[x] == a.vec[x]
  }

  ghost predicate Fresh(st: Stores, id: string) {
    id !in st.vec && id !in st.meta && forall s :: StepKey(id, s) !in st.kv
  }

  ghost function Keys(id: string, steps: seq<int>): set<string> {
    set s | s in steps :: StepKey(id, s)
  }

  ghost function WithLatents(kv: map<string, Blob>, id: string, steps: seq<int>, latents: Latents): map<string, Blob>
    requires Provided(steps, latents)
  {
    if steps == [] then kv
    else
      var front, last := steps[..|steps| - 1], steps[|steps| - 1];
      WithLatents(kv, id, front, latents)[StepKey(id, last) := LatentOf(latents, last)]
  }

  lemma {:induction false} LatentsAdded(kv: map<string, Blob>, id: string, steps: seq<int>, latents: Latents)
    requires Provided(steps, latents)
    ensures var r := WithLatents(kv, id, steps, latents);
      r.Keys == kv.Keys + Keys(id, steps) && forall k :: k in kv && k !in Keys(id, steps) ==> r[k] == kv[k]
  {
    if steps != [] {
      var front, last := steps[..|steps| - 1], steps[|steps| - 1];
      assert steps == front + [last];
      LatentsAdded(kv, id, front, latents);
    }
  }

  lemma {:induction false} RemoveKeepsServed(st: Stores, id: string, s: int)
    requires Served(st) && id !in st.vec
    ensures Served(st.(kv := st.kv - {StepKey(id, s)}))
  {
    forall b, j | b in st.vec && j in st.vec[b].steps ensures StepKey(b, j) in st.kv - {StepKey(id, s)} {
      StepKeyInjective(b, j, id, s);
    }
  }

  // ------------------------------------------------------------------ the net effect

  ghost predicate WellFormed(req: Request) {
    req.prompt != [] && req.latents != map[] && req.steps != [] && ValidSteps(req.steps, req.latents) != []
  }

  /** The first put that does not work, or how many there are. */
  ghost function PutsWorking(env: Env, i: nat, n: nat): (r: nat)
    requires i <= n
    ensures i <= r <= n && (forall j :: i <= j < r ==> env.put(j).Ok?) && (r < n ==> !env.put(r).Ok?)
    decreases n - i
  {
    if i < n && env.put(i).Ok? then PutsWorking(env, i + 1, n) else i
  }

  ghost function KvAfterPuts(kv: map<string, Blob>, env: Env, id: string, steps: seq<int>, latents: Latents): map<string, Blob>
    requires Provided(steps, latents)
  {
    var n := PutsWorking(env, 0, |steps|);
    var landed := WithLatents(kv, id, steps[..n], latents);
    if n < |steps| && env.put(n).Dirty? then landed[StepKey(id, steps[n]) := LatentOf(latents, steps[n])] else landed
  }

  /** The index is asked to take the entry. */
  ghost predicate Reaches(env: Env) {
    env.encoding.Vector? && env.ensure.Ok?
  }

  ghost predicate Indexed(env: Env) {
    Reaches(env) && env.upsert.Ok? && env.register.Ok?
  }

  ghost function EntryFor(env: Env, req: Request, saved: seq<int>): Entry
    requires env.encoding.Vector?
  {
    Entry(env.encoding.v, req.prompt, saved)
  }

  /** One more put of the loop over the puts. */
  lemma {:induction false} PutsNext(kv: map<string, Blob>, env: Env, id: string, steps: seq<int>, latents: Latents, i: nat)
    requires Provided(steps, latents) && i <= |steps| && PutsWorking(env, 0, |steps|) == PutsWorking(env, i, |steps|)
    ensures var landed := WithLatents(kv, id, steps[..i], latents);
      if i == |steps| then PutsWorking(env, 0, |steps|) == i && KvAfterPuts(kv, env, id, steps, latents) == landed
      else
        var next := landed[StepKey(id, steps[i]) := LatentOf(latents, steps[i])];
        if env.put(i).Ok? then PutsWorking(env, 0, |steps|) == PutsWorking(env, i + 1, |steps|) && WithLatents(kv, id, steps[..i + 1], latents) == next
        else PutsWorking(env, 0, |steps|) == i && KvAfterPuts(kv, env, id, steps, latents) == if env.put(i).Dirty? then next else landed
  {
    if i < |steps| { assert steps[..i + 1][..i] == steps[..i]; }
  }

  ghost predicate Accepts(env: Env, req: Request) {
    && WellFormed(req) && (var n := |ValidSteps(req.steps, req.latents)|; PutsWorking(env, 0, n) == n)
    && env.hasVectors && req.hasFrames && env.hasEncoder && Indexed(env)
  }

  /** The donor's three rows. */
  ghost function Complete(st: Stores, env: Env, req: Request, id: string): Stores
    requires env.encoding.Vector?
  {
    var steps := ValidSteps(req.steps, req.latents);
    Stores(WithLatents(st.kv, id, steps, req.latents), st.vec[id := EntryFor(env, req, steps)], st.meta[id := Meta(req.prompt, steps)])
  }

  /** The put that broke the save off had landed all the same. */
  ghost predicate DirtyPut(env: Env, req: Request) {
    WellFormed(req) && (var n := |ValidSteps(req.steps, req.latents)|; PutsWorking(env, 0, n) < n && env.put(PutsWorking(env, 0, n)).Dirty?)
  }

  /** The upsert that broke the save off had landed all the same. */
  ghost predicate DirtyUpsert(env: Env, req: Request) {
    && WellFormed(req) && (var n := |ValidSteps(req.steps, req.latents)|; PutsWorking(env, 0, n) == n)
    && env.hasVectors && req.hasFrames && env.hasEncoder && Reaches(env) && env.upsert.Dirty?
  }

  ghost predicate RemovalsWork(env: Env, pass: nat, n: nat) {
    forall i :: 0 <= i < n ==> env.remove(pass, i).Ok?
  }

  /** The keys a cleanup pass removes. */
  ghost function CleanedKeys(id: string, saved: seq<int>, pass: nat, env: Env): set<string> {
    set i | 0 <= i < |saved| && !env.remove(pass, i).Clean? :: StepKey(id, saved[i])
  }

  lemma {:induction false} GoneNext(id: string, saved: seq<int>, i: nat, pass: nat, env: Env)
    requires i < |saved|
    ensures CleanedKeys(id, saved[..i + 1], pass, env) ==
      if env.remove(pass, i).Clean? then CleanedKeys(id, saved[..i], pass, env) else CleanedKeys(id, saved[..i], pass, env) + {StepKey(id, saved[i])}
  {
    var a, b := CleanedKeys(id, saved[..i], pass, env), CleanedKeys(id, saved[..i + 1], pass, env);
    forall k | k in a ensures k in b {
      var j :| 0 <= j < i && !env.remove(pass, j).Clean? && k == StepKey(id, saved[..i][j]);
      assert saved[..i + 1][j] == saved[..i][j];
    }
    if !env.remove(pass, i).Clean? { assert saved[..i + 1][i] == saved[i] && StepKey(id, saved[..i + 1][i]) in b; }
    forall k | k in b ensures k in a || (!env.remove(pass, i).Clean? && k == StepKey(id, saved[i])) {
      var j :| 0 <= j < i + 1 && !env.remove(pass, j).Clean? && k == StepKey(id, saved[..i + 1][j]);
      if j < i { assert saved[..i][j] == saved[..i + 1][j]; }
    }
  }

  lemma {:induction false} CleanedNext(kv: map<string, Blob>, id: string, saved: seq<int>, i: nat, pass: nat, env: Env)
    requires i < |saved|
    ensures var rest := kv - CleanedKeys(id, saved[..i], pass, env);
      kv - CleanedKeys(id, saved[..i + 1], pass, env) == if env.remove(pass, i).Clean? then rest else rest - {StepKey(id, saved[i])}
  {
    GoneNext(id, saved, i, pass, env);
  }

  /** Every removal of the pass took effect. */
  ghost predicate Undone(env: Env, pass: nat, n: nat) {
    forall i :: 0 <= i < n ==> !env.remove(pass, i).Clean?
  }

  ghost predicate VectorWritten(env: Env) {
    Reaches(env) && env.upsert.Ok?
  }

  /** The index took the entry. */
  ghost predicate EntryTaken(env: Env) {
    Reaches(env) && !env.upsert.Clean?
  }

  /** The stores after the index and metadata calls, as far as they get. */
  ghost function IndexedTo(st: Stores, env: Env, req: Request, id: string, saved: seq<int>): Stores
    requires env.encoding.Vector?
  {
    st.(vec := if EntryTaken(env) then st.vec[id := EntryFor(env, req, saved)] else st.vec,
        meta := if VectorWritten(env) && !env.register.Clean? then st.meta[id := Meta(req.prompt, saved)] else st.meta)
  }

  ghost function RolledBack(st: Stores, env: Env, id: string, saved: seq<int>, removeVector: bool, removeMeta: bool): Stores {
    Stores(
      st.kv - CleanedKeys(id, saved, 1, env),
      if removeVector && env.hasVectors && !env.deleteVector.Clean? then st.vec - {id} else st.vec,
      if removeMeta && !env.removeMeta.Clean? then st.meta - {id} else st.meta)
  }

  ghost function AfterPublish(st: Stores, env: Env, req: Request, id: string, saved: seq<int>): Stores {
    match env.encoding
    case EncoderRaises => RolledBack(st, env, id, saved, false, false)
    case NoVector =>
      var cleaned := st.(kv := st.kv - CleanedKeys(id, saved, 0, env));
      if RemovalsWork(env, 0, |saved|) then cleaned else RolledBack(cleaned, env, id, saved, false, false)
    case Vector(_) =>
      var indexed := IndexedTo(st, env, req, id, saved);
      if Indexed(env) then indexed else RolledBack(indexed, env, id, saved, VectorWritten(env), VectorWritten(env))
  }

  ghost predicate Equipped(env: Env, req: Request) {
    env.hasVectors && req.hasFrames && env.hasEncoder
  }

  /** What a save leaves behind, however its backend calls end. */
  ghost function Aftermath(st: Stores, env: Env, req: Request, id: string): Stores {
    if !WellFormed(req) then st
    else
      var steps := ValidSteps(req.steps, req.latents);
      var n := PutsWorking(env, 0, |steps|);
      var put := st.(kv := KvAfterPuts(st.kv, env, id, steps, req.latents));
      if n < |steps| then put.(kv := put.kv - CleanedKeys(id, steps[..n], 0, env))
      else if !Equipped(env, req) then put.(kv := put.kv - CleanedKeys(id, steps, 0, env))
      else AfterPublish(put, env, req, id, steps)
  }

  // ------------------------------------------------------------------ what it means

  /** An accepted save leaves the donor's three rows. */
  lemma {:induction false} AcceptedIsComplete(st: Stores, env: Env, req: Request, id: string)
    requires Accepts(env, req)
    ensures Aftermath(st, env, req, id) == Complete(st, env, req, id)
  {
    var steps := ValidSteps(req.steps, req.latents);
    assert steps[..|steps|] == steps;
  }

  /** Each cleanup call the save needed took effect, whether or not it raised then. */
  ghost predicate Tidied(env: Env, req: Request) {
    var n := |ValidSteps(req.steps, req.latents)|;
    var put := PutsWorking(env, 0, n);
    WellFormed(req) ==>
      if put < n || !Equipped(env, req) then Undone(env, 0, put)
      else if env.encoding.NoVector? then forall i :: 0 <= i < n ==> !env.remove(0, i).Clean? || !env.remove(1, i).Clean?
      else Undone(env, 1, n) && (VectorWritten(env) ==> !env.deleteVector.Clean? && (env.register.Dirty? ==> !env.removeMeta.Clean?))
  }

  lemma {:induction false} LaterKey(id: string, steps: seq<int>, n: nat)
    requires Increasing(steps) && n < |steps|
    ensures StepKey(id, steps[n]) !in Keys(id, steps[..n])
  {
    forall s | s in steps[..n] ensures StepKey(id, s) != StepKey(id, steps[n]) {
      StepKeyInjective(id, s, id, steps[n]);
    }
  }

  lemma {:induction false} CleanedAt(id: string, saved: seq<int>, pass: nat, env: Env, i: nat)
    requires Increasing(saved) && i < |saved|
    ensures StepKey(id, saved[i]) in CleanedKeys(id, saved, pass, env) <==> !env.remove(pass, i).Clean?
  {
    if StepKey(id, saved[i]) in CleanedKeys(id, saved, pass, env) {
      var j :| 0 <= j < |saved| && !env.remove(pass, j).Clean? && StepKey(id, saved[i]) == StepKey(id, saved[j]);
      StepKeyInjective(id, saved[i], id, saved[j]);
    }
  }

  lemma {:induction false} CleanedAreKeys(id: string, saved: seq<int>, pass: nat, env: Env)
    ensures CleanedKeys(id, saved, pass, env) <= Keys(id, saved)
  {
    forall k | k in CleanedKeys(id, saved, pass, env) ensures k in Keys(id, saved) {
      var i :| 0 <= i < |saved| && k == StepKey(id, saved[i]);
      assert saved[i] in saved;
    }
  }

  /** Two passes remove every key exactly when each key's removal took effect in one of them. */
  lemma {:induction false} PassesCoverIff(id: string, saved: seq<int>, env: Env, a: nat, b: nat)
    requires Increasing(saved)
    ensures Keys(id, saved) <= CleanedKeys(id, saved, a, env) + CleanedKeys(id, saved, b, env) <==>
      forall i :: 0 <= i < |saved| ==> !env.remove(a, i).Clean? || !env.remove(b, i).Clean?
  {
    hide StepKey;
    var both := CleanedKeys(id, saved, a, env) + CleanedKeys(id, saved, b, env);
    forall i | 0 <= i < |saved| ensures StepKey(id, saved[i]) in both <==> !env.remove(a, i).Clean? || !env.remove(b, i).Clean? {
      CleanedAt(id, saved, a, env, i);
      CleanedAt(id, saved, b, env, i);
    }
    forall i | 0 <= i < |saved| ensures StepKey(id, saved[i]) in Keys(id, saved) { assert saved[i] in saved; }
    forall k | k in Keys(id, saved) ensures exists i :: 0 <= i < |saved| && k == StepKey(id, saved[i]) {
      var s :| s in saved && k == StepKey(id, s);
      var i :| 0 <= i < |saved| && saved[i] == s;
      assert k == StepKey(id, saved[i]);
    }
  }

  /** New latents are gone again exactly when all their keys were removed. */
  lemma {:induction false} LatentsGoneIff(st: Stores, id: string, saved: seq<int>, latents: Latents, removed: set<string>)
    requires Fresh(st, id) && Provided(saved, latents) && removed <= Keys(id, saved)
    ensures WithLatents(st.kv, id, saved, latents) - removed == st.kv <==> Keys(id, saved) <= removed
    ensures st.kv.Keys <= (WithLatents(st.kv, id, saved, latents) - removed).Keys
  {
    hide StepKey;
    LatentsAdded(st.kv, id, saved, latents);
    var left := WithLatents(st.kv, id, saved, latents) - removed;
    forall k | k in Keys(id, saved) ensures k !in st.kv {}
    if left == st.kv {
      forall k | k in Keys(id, saved) ensures k in removed { assert k !in left; }
    }
  }

  lemma {:induction false} OnePassGoneIff(st: Stores, id: string, saved: seq<int>, latents: Latents, pass: nat, env: Env)
    requires Fresh(st, id) && Provided(saved, latents) && Increasing(saved)
    ensures WithLatents(st.kv, id, saved, latents) - CleanedKeys(id, saved, pass, env) == st.kv <==> Undone(env, pass, |saved|)
  {
    hide StepKey;
    CleanedAreKeys(id, saved, pass, env);
    PassesCoverIff(id, saved, env, pass, pass);
    LatentsGoneIff(st, id, saved, latents, CleanedKeys(id, saved, pass, env));
  }

  lemma {:induction false} TwoPassesGoneIff(st: Stores, id: string, saved: seq<int>, latents: Latents, env: Env)
    requires Fresh(st, id) && Provided(saved, latents) && Increasing(saved)
    ensures WithLatents(st.kv, id, saved, latents) - CleanedKeys(id, saved, 0, env) - CleanedKeys(id, saved, 1, env) == st.kv <==>
      forall i :: 0 <= i < |saved| ==> !env.remove(0, i).Clean? || !env.remove(1, i).Clean?
  {
    hide StepKey;
    var a, b := CleanedKeys(id, saved, 0, env), CleanedKeys(id, saved, 1, env);
    CleanedAreKeys(id, saved, 0, env);
    CleanedAreKeys(id, saved, 1, env);
    PassesCoverIff(id, saved, env, 0, 1);
    LatentsGoneIff(st, id, saved, latents, a + b);
    assert WithLatents(st.kv, id, saved, latents) - a - b == WithLatents(st.kv, id, saved, latents) - (a + b);
  }

  /** A broken put that landed is never taken back. */
  lemma {:induction false} BrokenPutIff(st: Stores, env: Env, id: string, steps: seq<int>, latents: Latents)
    requires Fresh(st, id) && Provided(steps, latents) && Increasing(steps) && PutsWorking(env, 0, |steps|) < |steps|
    ensures var n := PutsWorking(env, 0, |steps|);
      KvAfterPuts(st.kv, env, id, steps, latents) - CleanedKeys(id, steps[..n], 0, env) == st.kv <==> !env.put(n).Dirty? && Undone(env, 0, n)
  {
    hide StepKey;
    var n := PutsWorking(env, 0, |steps|);
    if env.put(n).Dirty? {
      LaterKey(id, steps, n);
      CleanedAreKeys(id, steps[..n], 0, env);
      assert StepKey(id, steps[n]) in KvAfterPuts(st.kv, env, id, steps, latents) - CleanedKeys(id, steps[..n], 0, env);
      assert StepKey(id, steps[n]) !in st.kv;
    } else {
      OnePassGoneIff(st, id, steps[..n], latents, 0, env);
    }
  }

  /** All or nothing: a save that is not accepted leaves the three stores as they were exactly when the
      call that broke it off had not landed all the same, in a put or in the upsert, and every cleanup call
      that was needed took effect. */
  lemma {:induction false} AllOrNothingIff(st: Stores, env: Env, req: Request, id: string)
    requires Fresh(st, id) && !Accepts(env, req)
    ensures Aftermath(st, env, req, id) == st <==> !DirtyPut(env, req) && !DirtyUpsert(env, req) && Tidied(env, req)
  {
    if WellFormed(req) {
      var steps := ValidSteps(req.steps, req.latents);
      if PutsWorking(env, 0, |steps|) < |steps| {
        BrokenPutIff(st, env, id, steps, req.latents);
      } else {
        assert steps[..|steps|] == steps;
        OnePassGoneIff(st, id, steps, req.latents, 0, env);
        if Equipped(env, req) { PublishRestoresIff(st, env, req, id, steps); }
      }
    }
  }

  lemma {:induction false} PublishRestoresIff(st: Stores, env: Env, req: Request, id: string, steps: seq<int>)
    requires Fresh(st, id) && Provided(steps, req.latents) && Increasing(steps) && !Indexed(env) && env.hasVectors
    ensures AfterPublish(st.(kv := WithLatents(st.kv, id, steps, req.latents)), env, req, id, steps) == st <==>
      && !(Reaches(env) && env.upsert.Dirty?)
      && if env.encoding.NoVector? then forall i :: 0 <= i < |steps| ==> !env.remove(0, i).Clean? || !env.remove(1, i).Clean?
         else Undone(env, 1, |steps|) && (VectorWritten(env) ==> !env.deleteVector.Clean? && (env.register.Dirty? ==> !env.removeMeta.Clean?))
  {
    hide StepKey, WithLatents, CleanedKeys;
    OnePassGoneIff(st, id, steps, req.latents, 0, env);
    OnePassGoneIff(st, id, steps, req.latents, 1, env);
    TwoPassesGoneIff(st, id, steps, req.latents, env);
    var landed := st.(kv := WithLatents(st.kv, id, steps, req.latents));
    var after := AfterPublish(landed, env, req, id, steps);
    match env.encoding
    case EncoderRaises =>
    case NoVector =>
      if RemovalsWork(env, 0, |steps|) { assert Undone(env, 0, |steps|); }
    case Vector(_) =>
      assert id in after.vec <==> EntryTaken(env) && !(VectorWritten(env) && !env.deleteVector.Clean?);
      assert id in after.meta <==> VectorWritten(env) && !env.register.Clean? && env.removeMeta.Clean?;
      assert after.vec - {id} == st.vec && after.meta - {id} == st.meta;
  }

  lemma {:induction false} PassKeeps(st: Stores, kv: map<string, Blob>, id: string, saved: seq<int>, pass: nat, env: Env)
    requires Fresh(st, id) && st.kv.Keys <= kv.Keys
    ensures st.kv.Keys <= (kv - CleanedKeys(id, saved, pass, env)).Keys
  {
    hide StepKey;
    CleanedAreKeys(id, saved, pass, env);
  }

  /** Nothing but rows of `id` is new, and none of the others is gone. */
  ghost predicate OnlyTouches(a: Stores, b: Stores, id: string) {
    OnlyAdds(a, b, id) && a.vec.Keys <= b.vec.Keys && a.kv.Keys <= b.kv.Keys
  }

  lemma {:induction false} PutsKeep(kv: map<string, Blob>, env: Env, id: string, steps: seq<int>, latents: Latents)
    requires Provided(steps, latents)
    ensures kv.Keys <= KvAfterPuts(kv, env, id, steps, latents).Keys
  {
    hide StepKey;
    LatentsAdded(kv, id, steps[..PutsWorking(env, 0, |steps|)], latents);
  }

  lemma {:induction false} PublishTouches(st: Stores, kv: map<string, Blob>, env: Env, req: Request, id: string, saved: seq<int>)
    requires Fresh(st, id) && st.kv.Keys <= kv.Keys
    ensures OnlyTouches(st, AfterPublish(st.(kv := kv), env, req, id, saved), id)
  {
    hide StepKey, CleanedKeys;
    PassKeeps(st, kv, id, saved, 0, env);
    PassKeeps(st, kv, id, saved, 1, env);
    PassKeeps(st, kv - CleanedKeys(id, saved, 0, env), id, saved, 1, env);
  }

  lemma {:induction false} AftermathTouches(st: Stores, env: Env, req: Request, id: string)
    requires Fresh(st, id)
    ensures OnlyTouches(st, Aftermath(st, env, req, id), id)
  {
    hide StepKey, CleanedKeys, ValidSteps, KvAfterPuts, AfterPublish;
    if WellFormed(req) {
      var steps := ValidSteps(req.steps, req.latents);
      var put := KvAfterPuts(st.kv, env, id, steps, req.latents);
      PutsKeep(st.kv, env, id, steps, req.latents);
      PassKeeps(st, put, id, steps[..PutsWorking(env, 0, |steps|)], 0, env);
      PassKeeps(st, put, id, steps, 0, env);
      PublishTouches(st, put, env, req, id, steps);
    }
  }

  /** The entry got into the index and its save was broken off, but the rollback did not take it out. */
  ghost predicate EntryStays(env: Env, req: Request) {
    && WellFormed(req) && (var n := |ValidSteps(req.steps, req.latents)|; PutsWorking(env, 0, n) == n)
    && Equipped(env, req) && EntryTaken(env) && !Indexed(env) && (VectorWritten(env) ==> env.deleteVector.Clean?)
  }

  lemma {:induction false} OneEntryServed(st: Stores, after: Stores, id: string)
    requires Served(st) && id !in st.vec && OnlyAdds(st, after, id) && st.kv.Keys <= after.kv.Keys
    ensures Served(after) <==> (id in after.vec ==> forall s :: s in after.vec[id].steps ==> StepKey(id, s) in after.kv)
  {
    hide StepKey;
    forall b, j | b in after.vec && b != id && j in after.vec[b].steps ensures StepKey(b, j) in after.kv {
      assert StepKey(b, j) in st.kv;
    }
  }

  lemma {:induction false} StayingEntry(st: Stores, env: Env, req: Request, id: string)
    requires Fresh(st, id) && EntryStays(env, req)
    ensures var steps, after := ValidSteps(req.steps, req.latents), Aftermath(st, env, req, id);
      && id in after.vec && after.vec[id].steps == steps
      && forall i :: 0 <= i < |steps| ==> (StepKey(id, steps[i]) in after.kv <==> env.remove(1, i).Clean?)
  {
    hide StepKey;
    var steps, after := ValidSteps(req.steps, req.latents), Aftermath(st, env, req, id);
    assert steps[..|steps|] == steps;
    LatentsAdded(st.kv, id, steps, req.latents);
    forall i | 0 <= i < |steps| ensures StepKey(id, steps[i]) in after.kv <==> env.remove(1, i).Clean? {
      CleanedAt(id, steps, 1, env, i);
      assert steps[i] in steps;
    }
  }

  /** The index advertises steps nobody can serve exactly when the entry of a broken save stays and one of
      its latents was removed. */
  lemma {:induction false} ServedAfterIff(st: Stores, env: Env, req: Request, id: string)
    requires Fresh(st, id) && Served(st)
    ensures Served(Aftermath(st, env, req, id)) <==>
      !(EntryStays(env, req) && exists i :: 0 <= i < |ValidSteps(req.steps, req.latents)| && !env.remove(1, i).Clean?)
  {
    hide StepKey;
    var steps, after := ValidSteps(req.steps, req.latents), Aftermath(st, env, req, id);
    AftermathTouches(st, env, req, id);
    OneEntryServed(st, after, id);
    if EntryStays(env, req) {
      StayingEntry(st, env, req, id);
      forall i | 0 <= i < |steps| ensures steps[i] in steps {}
    } else if Accepts(env, req) {
      AcceptedIsComplete(st, env, req, id);
      LatentsAdded(st.kv, id, steps, req.latents);
    } else {
      assert id !in after.vec;
    }
  }

  /** So after a dirty upsert as soon as one latent was removed. */
  lemma {:induction false} DirtyUpsertLeavesStale(st: Stores, env: Env, req: Request, id: string, i: nat)
    requires Fresh(st, id) && Served(st) && DirtyUpsert(env, req)
    requires i < |ValidSteps(req.steps, req.latents)| && !env.remove(1, i).Clean?
    ensures !Served(Aftermath(st, env, req, id))
  {
    ServedAfterIff(st, env, req, id);
  }

  /** All backends there, and every call not named works. */
  ghost function EnvWith(v: Embedding, put: Call, upsert: Call, register: Call, deleteVector: Call): Env {
    Env(true, true, Vector(v), _ => put, Ok, upsert, register, deleteVector, Ok, (_, _) => Ok)
  }

  /** One step into empty stores, with a call that raises after it took effect: a put leaves its latent, an
      upsert an entry without one, and so does a registration that raises when deleting the vector does too. */
  lemma {:induction false} BrokenSaves(id: string, v: Embedding, blob: Blob)
    ensures var none, req, entry := Stores(map[], map[], map[]), Request("p", map[1 := Some(blob)], [1], true), Entry(v, "p", [1]);
      && Aftermath(none, EnvWith(v, Dirty, Ok, Ok, Ok), req, id) == none.(kv := map[StepKey(id, 1) := blob])
      && Aftermath(none, EnvWith(v, Ok, Dirty, Ok, Ok), req, id) == none.(vec := map[id := entry])
      && Aftermath(none, EnvWith(v, Ok, Ok, Clean, Clean), req, id) == none.(vec := map[id := entry])
  {
    hide StepKey;
    var req := Request("p", map[1 := Some(blob)], [1], true);
    OneStep(req, blob);
    OneLatent(id, req.latents, blob);
    assert [1][..0] == [] && [1][..1] == [1];
    forall env | env == EnvWith(v, Ok, Dirty, Ok, Ok) || env == EnvWith(v, Ok, Ok, Clean, Clean) ensures CleanedKeys(id, [1], 1, env) == {StepKey(id, 1)} {
      assert !env.remove(1, 0).Clean? && [1][0] == 1;
    }
  }

  lemma {:induction false} OneStep(req: Request, blob: Blob)
    requires req.latents == map[1 := Some(blob)] && req.steps == [1]
    ensures ValidSteps(req.steps, req.latents) == [1]
  {
    var r := ValidSteps(req.steps, req.latents);
    assert 1 in r && forall i :: 0 <= i < |r| ==> r[i] in r;
  }

  lemma {:induction false} OneLatent(id: string, latents: Latents, blob: Blob)
    requires latents == map[1 := Some(blob)]
    ensures WithLatents(map[], id, [], latents) == map[] && WithLatents(map[], id, [1], latents) == map[StepKey(id, 1) := blob]
  {
    assert [1][..0] == [];
  }

  /** A save that ends without an error and without a donor. */
  ghost predicate Declines(env: Env, req: Request) {
    var n := |ValidSteps(req.steps, req.latents)|;
    !WellFormed(req) || (PutsWorking(env, 0, n) == n && (!Equipped(env, req) || env.encoding.NoVector?) && RemovalsWork(env, 0, n))
  }

  lemma {:induction false} ShrinkServed(st: Stores, keys: set<string>)
    ensures Served(st.(kv := st.kv - keys)) ==> Served(st)
  {
  }

  // ------------------------------------------------------------------ the transaction

  class Strategy {
    var now: Stores
    /** Every state since the start was `Served`. */
    ghost var served: bool

    constructor (now: Stores)
      ensures this.now == now && served == Served(now)
    {
      this.now := now;
      served := Served(now);
    }

    /** One backend call whose effect is `next`. */
    method Apply(next: Stores, call: Call) returns (ok: bool)
      modifies this
      ensures ok == call.Ok? && now == (if call.Clean? then old(now) else next) && served == (old(served) && Served(now))
    {
      if !call.Clean? {
        now := next;
      }
      served := served && Served(now);
      ok := call.Ok?;
    }

    /** Puts one latent and reads its step back off the key. */
    method PutLatent(id: string, s: int, blob: Blob, call: Call) returns (step: int, ok: bool)
      modifies this
      ensures ok == call.Ok? && step == s
      ensures now == if call.Clean? then old(now) else old(now).(kv := old(now.kv)[StepKey(id, s) := blob])
      ensures old(served) && Served(old(now)) ==> served && Served(now)
    {
      var key := StepKey(id, s);
      ok := Apply(now.(kv := now.kv[key := blob]), call);
      StepRoundTrip(id, s);
      step := IntOf(AfterMark(key));
    }

    /** Puts the latents one by one and collects the steps put. */
    method WriteLatents(id: string, steps: seq<int>, latents: Latents, env: Env) returns (saved: seq<int>, ok: bool)
      requires Provided(steps, latents)
      modifies this
      ensures var n := PutsWorking(env, 0, |steps|); ok == (n == |steps|) && saved == steps[..n]
      ensures now == old(now).(kv := KvAfterPuts(old(now.kv), env, id, steps, latents))
      ensures old(served) && Served(old(now)) ==> served && Served(now)
    {
      hide StepKey;
      saved := [];
      ghost var before, fine := now, served && Served(now);
      for i := 0 to |steps|
        invariant saved == steps[..i] && PutsWorking(env, 0, |steps|) == PutsWorking(env, i, |steps|)
        invariant now == before.(kv := WithLatents(before.kv, id, saved, latents)) && (fine ==> served && Served(now))
      {
        PutsNext(before.kv, env, id, steps, latents, i);
        var step;
        step, ok := PutLatent(id, steps[i], LatentOf(latents, steps[i]), env.put(i));
        if !ok {
          return;
        }
        saved := saved + [step];
      }
      PutsNext(before.kv, env, id, steps, latents, |steps|);
      ok := true;
    }

    method RemoveLatent(id: string, s: int, call: Call) returns (ok: bool)
      modifies this
      ensures ok == call.Ok? && now == old(now).(kv := if call.Clean? then old(now.kv) else old(now.kv) - {StepKey(id, s)})
      ensures old(served) && Served(old(now)) && id !in old(now.vec) ==> served && Served(now)
      ensures old(served) == Served(old(now)) ==> served == Served(now)
    {
      if Served(now) && id !in now.vec { RemoveKeepsServed(now, id, s); }
      ShrinkServed(now, {StepKey(id, s)});
      ok := Apply(now.(kv := now.kv - {StepKey(id, s)}), call);
    }

    /** Tries to remove every saved latent; fails when any removal did. */
    method RemoveSavedLatents(id: string, saved: seq<int>, pass: nat, env: Env) returns (ok: bool)
      modifies this
      ensures ok == RemovalsWork(env, pass, |saved|) && now == old(now).(kv := old(now.kv) - CleanedKeys(id, saved, pass, env))
      ensures old(served) && Served(old(now)) && id !in old(now.vec) ==> served && Served(now)
      ensures old(served) == Served(old(now)) ==> served == Served(now)
    {
      hide StepKey;
      ok := true;
      ghost var before, fine, exact := now, served && Served(now) && id !in now.vec, served == Served(now);
      for i := 0 to |saved|
        invariant ok == RemovalsWork(env, pass, i) && now == before.(kv := before.kv - CleanedKeys(id, saved[..i], pass, env))
        invariant (fine ==> served && Served(now)) && (exact ==> served == Served(now))
      {
        var done := RemoveLatent(id, saved[i], env.remove(pass, i));
        CleanedNext(before.kv, id, saved, i, pass, env);
        ok := ok && done;
      }
      assert saved[..|saved|] == saved;
    }

    /** Undoes the vector, the metadata and the latents, trying all three. */
    method RollbackCacheEntry(id: string, saved: seq<int>, removeVector: bool, removeMeta: bool, env: Env) returns (ok: bool)
      modifies this
      ensures now == RolledBack(old(now), env, id, saved, removeVector, removeMeta)
      ensures old(served) && Served(old(now)) ==> served == Served(now)
    {
      ok := true;
      if removeVector && env.hasVectors {
        ok := Apply(now.(vec := now.vec - {id}), env.deleteVector);
      }
      if removeMeta {
        var done := Apply(now.(meta := now.meta - {id}), env.removeMeta);
        ok := ok && done;
      }
      var done := RemoveSavedLatents(id, saved, 1, env);
      ok := ok && done;
    }

    /** Writes the vector and then the metadata. */
    method Index(id: string, req: Request, saved: seq<int>, v: Embedding, env: Env) returns (vectorWritten: bool, failed: bool)
      requires env.encoding == Vector(v) && forall s :: s in saved ==> StepKey(id, s) in now.kv
      modifies this
      ensures vectorWritten == VectorWritten(env) && failed == !Indexed(env) && now == IndexedTo(old(now), env, req, id, saved)
      ensures old(served) && Served(old(now)) ==> served && Served(now)
    {
      vectorWritten, failed := false, true;
      if env.ensure.Ok? {
        vectorWritten := Apply(now.(vec := now.vec[id := Entry(v, req.prompt, saved)]), env.upsert);
        if vectorWritten {
          var done := Apply(now.(meta := now.meta[id := Meta(req.prompt, saved)]), env.register);
          failed := !done;
        }
      }
    }

    /** The guarded part: embed, index and register, or roll back. */
    method Publish(id: string, req: Request, saved: seq<int>, env: Env) returns (r: Result)
      requires env.hasVectors && id !in now.vec && id !in now.meta && forall s :: s in saved ==> StepKey(id, s) in now.kv
      modifies this
      ensures (r.Saved? <==> Indexed(env)) && (r.Skipped? <==> env.encoding.NoVector? && RemovalsWork(env, 0, |saved|))
      ensures now == AfterPublish(old(now), env, req, id, saved)
      ensures old(served) && Served(old(now)) ==> served == Served(now)
    {
      var vectorWritten, metaAttempted, failed := false, false, true;
      match env.encoding {
        case EncoderRaises =>
        case NoVector =>
          var done := RemoveSavedLatents(id, saved, 0, env);
          if done {
            return Skipped;
          }
        case Vector(v) =>
          vectorWritten, failed := Index(id, req, saved, v, env);
          metaAttempted := vectorWritten;
      }
      if !failed {
        return Saved;
      }
      var done := RollbackCacheEntry(id, saved, vectorWritten, metaAttempted, env);
      r := Raised;
    }

    /** Saves one donor under a fresh id. */
    method Save(id: string, req: Request, env: Env) returns (r: Result)
      requires Fresh(now, id)
      modifies this
      ensures (r.Saved? <==> Accepts(env, req)) && (r.Skipped? <==> Declines(env, req))
      ensures now == Aftermath(old(now), env, req, id)
      ensures old(served) && Served(old(now)) ==> served == Served(now)
    {
      if req.prompt == [] || req.latents == map[] || req.steps == [] {
        return Skipped;
      }
      var steps := ValidSteps(req.steps, req.latents);
      if steps == [] {
        return Skipped;
      }
      ghost var before := now;
      var saved, ok := WriteLatents(id, steps, req.latents, env);
      assert steps[..|steps|] == steps;
      if !ok {
        if saved != [] {
          var cleaned := RemoveSavedLatents(id, saved, 0, env);
        }
        return Raised;
      }
      if !env.hasVectors || !req.hasFrames || !env.hasEncoder {
        var cleaned := RemoveSavedLatents(id, saved, 0, env);
        return if cleaned then Skipped else Raised;
      }
      LatentsAdded(before.kv, id, steps, req.latents);
      r := Publish(id, req, saved, env);
    }
  }
}
