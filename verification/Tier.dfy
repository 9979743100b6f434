/** The tensor store under the trie: layer payloads written by one worker, published only afterwards,
    and read back through their shape notes, by this process or another one. */
module Tier {
  import opened Machine
  import opened Options
  import opened StepKeys

  type Tensor(!new)
  type Raw(!new)
  type Spec(!new)

  /** One layer of a payload: a key/value pair or a single tensor. */
  datatype Layer = Pair(k: Tensor, v: Tensor) | Single(t: Tensor)

  /** Raw buffers do not know their shape. `content` is what is stored under a locator: locators are
      content addresses, so every put of one carries the same payload. */
  datatype Codec = Codec(raw: Tensor -> Raw, spec: Tensor -> Spec, view: (Raw, Spec) -> Tensor, content: string -> seq<Layer>)
  {
    ghost predicate Faithful() {
      forall t :: view(raw(t), spec(t)) == t
    }
  }

  /** A file of the backend: a raw buffer, or the note of a spec. */
  datatype File = Data(raw: Raw) | Note(spec: Spec)

  datatype Disk = Disk(files: map<string, File>, specs: map<string, Spec>)

  // ------------------------------------------------------------------ keys

  datatype Part = K | V | Whole

  datatype Slot = Slot(locator: string, layer: nat, part: Part)

  const LAYER_MARK := ":L"

  function LayerKey(locator: string, layer: nat): string {
    locator + LAYER_MARK + Digits(layer)
  }

  function KeyOf(s: Slot): string {
    match s.part
    case K => LayerKey(s.locator, s.layer) + ":k"
    case V => LayerKey(s.locator, s.layer) + ":v"
    case Whole => LayerKey(s.locator, s.layer)
  }

  function NoteKey(key: string): string {
    key + ":spec"
  }

  lemma {:induction false} MarksAlign(a: string, i: nat, b: string, j: nat)
    requires LayerKey(a, i) == LayerKey(b, j)
    ensures |a| >= |b|
  {
    assert LayerKey(b, j)[|b|] == LAYER_MARK[0] == ':';
    if |a| < |b| {
      MarkIsLast(a, i, |b|);
      assert false;
    }
  }

  lemma {:induction false} LayerKeyInjective(a: string, i: nat, b: string, j: nat)
    requires LayerKey(a, i) == LayerKey(b, j)
    ensures a == b && i == j
  {
    var s := LayerKey(a, i);
    MarksAlign(a, i, b, j);
    MarksAlign(b, j, a, i);
    assert a == s[..|a|] && b == s[..|b|] && Digits(i) == s[|a| + 2..] && Digits(j) == s[|b| + 2..];
    NatRoundTrip(i);
    NatRoundTrip(j);
  }

  /** No colon after the layer mark. */
  lemma {:induction false} MarkIsLast(a: string, i: nat, at: nat)
    requires |a| < at < |LayerKey(a, i)|
    ensures LayerKey(a, i)[at] != ':'
  {
    var s, d := LayerKey(a, i), Digits(i);
    if at == |a| + 1 {
      assert s[at] == LAYER_MARK[1];
    } else {
      assert s[at] == d[at - |a| - 2];
    }
  }

  function Last(s: string): char
    requires s != []
  {
    s[|s| - 1]
  }

  lemma {:induction false} KeyEnds(s: Slot)
    ensures KeyOf(s) != [] && (s.part.K? ==> Last(KeyOf(s)) == 'k') && (s.part.V? ==> Last(KeyOf(s)) == 'v')
    ensures s.part.Whole? ==> '0' <= Last(KeyOf(s)) <= '9'
  {
    var d := Digits(s.layer);
    assert Last(LayerKey(s.locator, s.layer)) == d[|d| - 1];
  }

  /** Layers never share a key, and a note never takes a layer's key. */
  lemma {:induction false} KeysApart(s: Slot, t: Slot)
    ensures KeyOf(s) == KeyOf(t) <==> s == t
    ensures NoteKey(KeyOf(s)) != KeyOf(t)
    ensures NoteKey(KeyOf(s)) == NoteKey(KeyOf(t)) <==> s == t
  {
    KeyEnds(s);
    KeyEnds(t);
    if KeyOf(s) == KeyOf(t) {
      assert s.part == t.part;
      var x, y := LayerKey(s.locator, s.layer), LayerKey(t.locator, t.layer);
      assert x == KeyOf(s)[..|x|] && y == KeyOf(t)[..|y|];
      LayerKeyInjective(s.locator, s.layer, t.locator, t.layer);
    }
    assert Last(NoteKey(KeyOf(s))) == 'c';
    if NoteKey(KeyOf(s)) == NoteKey(KeyOf(t)) {
      var n := NoteKey(KeyOf(s));
      assert n[..|n| - 5] == KeyOf(s) && n[..|n| - 5] == KeyOf(t);
    }
  }

  // ------------------------------------------------------------------ one tensor

  /** The writes of one `_put_one`; a note that cannot be written is let go. */
  function PutOne(c: Codec, d: Disk, key: string, t: Tensor, noted: bool): Disk {
    var files := d.files[key := Data(c.raw(t))];
    Disk(if noted then files[NoteKey(key) := Note(c.spec(t))] else files, d.specs[key := c.spec(t)])
  }

  function SpecFor(d: Disk, key: string): Option<Spec> {
    if key in d.specs then Some(d.specs[key])
    else if NoteKey(key) in d.files && d.files[NoteKey(key)].Note? then Some(d.files[NoteKey(key)].spec)
    else None
  }

  function GetOne(c: Codec, d: Disk, key: string): Option<Tensor> {
    var spec := SpecFor(d, key);
    if spec.Some? && key in d.files && d.files[key].Data? then Some(c.view(d.files[key].raw, spec.value)) else None
  }

  datatype Read = Missing | ReadPair(k: Tensor, v: Option<Tensor>) | ReadSingle(t: Tensor)

  /** The pair's key first, then the single tensor. */
  function GetLayer(c: Codec, d: Disk, locator: string, layer: nat): Read {
    var k := GetOne(c, d, KeyOf(Slot(locator, layer, K)));
    if k.Some? then ReadPair(k.value, GetOne(c, d, KeyOf(Slot(locator, layer, V))))
    else
      var t := GetOne(c, d, KeyOf(Slot(locator, layer, Whole)));
      if t.Some? then ReadSingle(t.value) else Missing
  }

  function AsRead(l: Layer): Read {
    match l
    case Pair(k, v) => ReadPair(k, Some(v))
    case Single(t) => ReadSingle(t)
  }

  // ------------------------------------------------------------------ one payload

  predicate InPayload(c: Codec, s: Slot) {
    s.layer < |c.content(s.locator)| && (if s.part.Whole? then c.content(s.locator)[s.layer].Single? else c.content(s.locator)[s.layer].Pair?)
  }

  function TensorOf(c: Codec, s: Slot): Tensor
    requires InPayload(c, s)
  {
    var l := c.content(s.locator)[s.layer];
    match s.part
    case K => l.k
    case V => l.v
    case Whole => l.t
  }

  function SlotsOfLayer(c: Codec, locator: string, layer: nat): (slots: seq<Slot>)
    requires layer < |c.content(locator)|
    ensures forall i :: 0 <= i < |slots| ==> slots[i].locator == locator && InPayload(c, slots[i])
  {
    if c.content(locator)[layer].Pair? then [Slot(locator, layer, K), Slot(locator, layer, V)] else [Slot(locator, layer, Whole)]
  }

  /** The tensors of a payload's first `n` layers, in the order they are written. */
  function SlotsOf(c: Codec, locator: string, n: nat): (slots: seq<Slot>)
    requires n <= |c.content(locator)|
    ensures forall i :: 0 <= i < |slots| ==> slots[i].locator == locator && InPayload(c, slots[i])
  {
    if n == 0 then [] else SlotsOf(c, locator, n - 1) + SlotsOfLayer(c, locator, n - 1)
  }

  /** Every tensor of the payload is among them. */
  lemma {:induction false} SlotListed(c: Codec, s: Slot, n: nat)
    requires InPayload(c, s) && s.layer < n <= |c.content(s.locator)|
    ensures s in SlotsOf(c, s.locator, n)
  {
    var last := SlotsOfLayer(c, s.locator, n - 1);
    if s.layer < n - 1 {
      SlotListed(c, s, n - 1);
    } else {
      assert s == last[0] || (|last| == 2 && s == last[1]);
    }
  }

  function AllSlots(c: Codec, locator: string): seq<Slot> {
    SlotsOf(c, locator, |c.content(locator)|)
  }

  /** Files, specs and notes only ever hold what their slots stand for. */
  ghost predicate True(c: Codec, d: Disk) {
    && (forall s :: KeyOf(s) in d.files ==> InPayload(c, s) && d.files[KeyOf(s)] == Data(c.raw(TensorOf(c, s))))
    && (forall s :: KeyOf(s) in d.specs ==> InPayload(c, s) && d.specs[KeyOf(s)] == c.spec(TensorOf(c, s)))
    && (forall s :: NoteKey(KeyOf(s)) in d.files ==> InPayload(c, s) && d.files[NoteKey(KeyOf(s))] == Note(c.spec(TensorOf(c, s))))
  }

  lemma {:induction false} PutKeepsTrue(c: Codec, d: Disk, s: Slot, noted: bool)
    requires True(c, d) && InPayload(c, s)
    ensures True(c, PutOne(c, d, KeyOf(s), TensorOf(c, s), noted))
  {
    forall t ensures (KeyOf(t) == KeyOf(s) <==> t == s) && NoteKey(KeyOf(s)) != KeyOf(t) && NoteKey(KeyOf(t)) != KeyOf(s)
      && (NoteKey(KeyOf(t)) == NoteKey(KeyOf(s)) <==> t == s)
    {
      KeysApart(s, t);
      KeysApart(t, s);
    }
  }

  /** The first `n` of the slots are written and known. */
  ghost predicate Written(d: Disk, slots: seq<Slot>, n: nat) {
    n <= |slots| && forall i :: 0 <= i < n ==> KeyOf(slots[i]) in d.files && KeyOf(slots[i]) in d.specs
  }

  lemma {:induction false} SlotReads(c: Codec, d: Disk, s: Slot)
    requires c.Faithful() && True(c, d) && InPayload(c, s) && KeyOf(s) in d.files && SpecFor(d, KeyOf(s)).Some?
    ensures GetOne(c, d, KeyOf(s)) == Some(TensorOf(c, s))
  {
    assert NoteKey(KeyOf(s)) in d.files ==> d.files[NoteKey(KeyOf(s))] == Note(c.spec(TensorOf(c, s)));
  }

  lemma {:induction false} ForeignSlotMisses(c: Codec, d: Disk, s: Slot)
    requires True(c, d) && !InPayload(c, s)
    ensures GetOne(c, d, KeyOf(s)) == None
  {
    assert KeyOf(s) !in d.files;
  }

  /** Every layer of a written payload reads back as it was put. */
  lemma {:induction false} WrittenReadsBack(c: Codec, d: Disk, locator: string, layer: nat)
    requires c.Faithful() && True(c, d) && Written(d, AllSlots(c, locator), |AllSlots(c, locator)|) && layer < |c.content(locator)|
    ensures GetLayer(c, d, locator, layer) == AsRead(c.content(locator)[layer])
  {
    var k, v, w := Slot(locator, layer, K), Slot(locator, layer, V), Slot(locator, layer, Whole);
    if c.content(locator)[layer].Pair? {
      SlotIsWritten(c, d, k);
      SlotIsWritten(c, d, v);
      SlotReads(c, d, k);
      SlotReads(c, d, v);
    } else {
      ForeignSlotMisses(c, d, k);
      SlotIsWritten(c, d, w);
      SlotReads(c, d, w);
    }
  }

  lemma {:induction false} SlotIsWritten(c: Codec, d: Disk, s: Slot)
    requires InPayload(c, s) && Written(d, AllSlots(c, s.locator), |AllSlots(c, s.locator)|)
    ensures KeyOf(s) in d.files && KeyOf(s) in d.specs
  {
    var slots := AllSlots(c, s.locator);
    SlotListed(c, s, |c.content(s.locator)|);
    var i :| 0 <= i < |slots| && slots[i] == s;
  }

  /** Another process starts without specs. It reads a layer exactly when the notes were written. */
  lemma {:induction false} SecondStoreReadsIff(c: Codec, d: Disk, locator: string, layer: nat)
    requires c.Faithful() && True(c, d) && Written(d, AllSlots(c, locator), |AllSlots(c, locator)|) && layer < |c.content(locator)|
    ensures GetLayer(c, Disk(d.files, map[]), locator, layer) == AsRead(c.content(locator)[layer]) <==>
      forall p: Part :: InPayload(c, Slot(locator, layer, p)) ==> NoteKey(KeyOf(Slot(locator, layer, p))) in d.files
  {
    var e := Disk(d.files, map[]);
    var k, v, w := Slot(locator, layer, K), Slot(locator, layer, V), Slot(locator, layer, Whole);
    assert True(c, e);
    if c.content(locator)[layer].Pair? {
      SlotIsWritten(c, d, k);
      SlotIsWritten(c, d, v);
      ForeignSlotMisses(c, e, w);
      if NoteKey(KeyOf(k)) in d.files { SlotReads(c, e, k); }
      if NoteKey(KeyOf(v)) in d.files { SlotReads(c, e, v); }
      assert InPayload(c, k) && InPayload(c, v) && !InPayload(c, w);
    } else {
      ForeignSlotMisses(c, e, k);
      SlotIsWritten(c, d, w);
      if NoteKey(KeyOf(w)) in d.files { SlotReads(c, e, w); }
      assert InPayload(c, w) && !InPayload(c, k) && !InPayload(c, v);
    }
  }

  // ------------------------------------------------------------------ queue and worker

  /** `handles` are the handles ever put, by number; `unfinished` is the queue's own task counter. */
  datatype Sys = Sys(disk: Disk, handles: seq<string>, queue: seq<nat>, working: Option<(nat, nat)>,
                     ready: set<nat>, failed: set<nat>, unfinished: nat)

  datatype Event =
    | Put(locator: string)
    | Take
    | Write(noted: bool)
    | WriteRaises(known: bool, landed: bool)    // after recording the spec, after writing the buffer
    | Publish

  function Init(): Sys {
    Sys(Disk(map[], map[]), [], [], None, {}, {}, 0)
  }

  /** A full queue blocks the caller, so a put only happens when there is room. */
  function StoreNext(c: Codec, capacity: int, sys: Sys, e: Event): Sys {
    match e
    case Put(locator) =>
      if capacity > 0 && |sys.queue| >= capacity then sys
      else sys.(handles := sys.handles + [locator], queue := sys.queue + [|sys.handles|], unfinished := sys.unfinished + 1)
    case Take =>
      if sys.working.Some? || sys.queue == [] then sys
      else sys.(queue := sys.queue[1..], working := Some((sys.queue[0], 0)))
    case Write(noted) =>
      if Busy(c, sys) then
        var (id, n) := sys.working.value;
        var s := AllSlots(c, sys.handles[id])[n];
        sys.(disk := PutOne(c, sys.disk, KeyOf(s), TensorOf(c, s), noted), working := Some((id, n + 1)))
      else sys
    case WriteRaises(known, landed) =>
      if Busy(c, sys) then
        var (id, n) := sys.working.value;
        var s := AllSlots(c, sys.handles[id])[n];
        var specs := if known then sys.disk.specs[KeyOf(s) := c.spec(TensorOf(c, s))] else sys.disk.specs;
        var files := if landed then sys.disk.files[KeyOf(s) := Data(c.raw(TensorOf(c, s)))] else sys.disk.files;
        sys.(disk := Disk(files, specs), working := None, failed := sys.failed + {id}, unfinished := Lowered(sys.unfinished))
      else sys
    case Publish =>
      if sys.working.Some? && sys.working.value.0 < |sys.handles| && sys.working.value.1 == |AllSlots(c, sys.handles[sys.working.value.0])|
      then sys.(ready := sys.ready + {sys.working.value.0}, working := None, unfinished := Lowered(sys.unfinished))
      else sys
  }

  function Lowered(n: nat): nat {
    if n == 0 then 0 else n - 1
  }

  /** The worker has a tensor left to write. */
  predicate Busy(c: Codec, sys: Sys) {
    sys.working.Some? && sys.working.value.0 < |sys.handles| && sys.working.value.1 < |AllSlots(c, sys.handles[sys.working.value.0])|
  }

  ghost predicate AllWritten(c: Codec, d: Disk, locator: string) {
    Written(d, AllSlots(c, locator), |AllSlots(c, locator)|)
  }

  ghost predicate ReadyOk(c: Codec, d: Disk, handles: seq<string>, ready: set<nat>) {
    forall id :: id in ready ==> id < |handles| && AllWritten(c, d, handles[id])
  }

  ghost predicate WorkOk(c: Codec, d: Disk, handles: seq<string>, working: Option<(nat, nat)>) {
    working.Some? ==> working.value.0 < |handles| && Written(d, AllSlots(c, handles[working.value.0]), working.value.1)
  }

  ghost predicate StoreInv(c: Codec, sys: Sys) {
    True(c, sys.disk) && ReadyOk(c, sys.disk, sys.handles, sys.ready) && WorkOk(c, sys.disk, sys.handles, sys.working)
  }

  ghost predicate InHand(sys: Sys, id: nat) {
    sys.working.Some? && sys.working.value.0 == id
  }

  ghost predicate Ascending(s: seq<nat>) {
    forall i, j :: 0 <= i < j < |s| ==> s[i] < s[j]
  }

  /** Where a handle is: queued, in hand, ready or failed, and only one of these. */
  ghost predicate Placed(sys: Sys, id: nat) {
    && (id in sys.queue || InHand(sys, id) || id in sys.ready || id in sys.failed <==> id < |sys.handles|)
    && (id in sys.queue ==> !InHand(sys, id) && id !in sys.ready && id !in sys.failed)
    && (InHand(sys, id) ==> id !in sys.ready && id !in sys.failed)
    && (id in sys.ready ==> id !in sys.failed)
  }

  ghost predicate Accounted(sys: Sys) {
    && Ascending(sys.queue) && (forall id: nat :: Placed(sys, id))
    && sys.unfinished == |sys.queue| + (if sys.working.Some? then 1 else 0)
  }

  ghost predicate Grows(d: Disk, e: Disk) {
    d.files.Keys <= e.files.Keys && d.specs.Keys <= e.specs.Keys
  }

  lemma {:induction false} ReadyGrows(c: Codec, d: Disk, e: Disk, handles: seq<string>, more: seq<string>, ready: set<nat>)
    requires ReadyOk(c, d, handles, ready) && Grows(d, e)
    ensures ReadyOk(c, e, handles + more, ready)
  {
    forall id | id in ready ensures AllWritten(c, e, handles[id]) {
      assert AllWritten(c, d, handles[id]);
    }
  }

  lemma {:induction false} RaiseKeepsTrue(c: Codec, d: Disk, s: Slot)
    requires True(c, d) && InPayload(c, s)
    ensures True(c, Disk(d.files[KeyOf(s) := Data(c.raw(TensorOf(c, s)))], d.specs))
    ensures True(c, Disk(d.files, d.specs[KeyOf(s) := c.spec(TensorOf(c, s))]))
    ensures True(c, Disk(d.files[KeyOf(s) := Data(c.raw(TensorOf(c, s)))], d.specs[KeyOf(s) := c.spec(TensorOf(c, s))]))
  {
    forall t ensures (KeyOf(t) == KeyOf(s) <==> t == s) && NoteKey(KeyOf(t)) != KeyOf(s) {
      KeysApart(s, t);
      KeysApart(t, s);
    }
  }

  lemma {:induction false} WorkGrows(c: Codec, d: Disk, handles: seq<string>, more: seq<string>, working: Option<(nat, nat)>)
    requires WorkOk(c, d, handles, working)
    ensures WorkOk(c, d, handles + more, working)
  {
    if working.Some? { assert (handles + more)[working.value.0] == handles[working.value.0]; }
  }

  lemma {:induction false} WrittenNext(c: Codec, d: Disk, slots: seq<Slot>, n: nat, noted: bool)
    requires n < |slots| && Written(d, slots, n) && InPayload(c, slots[n])
    ensures Written(PutOne(c, d, KeyOf(slots[n]), TensorOf(c, slots[n]), noted), slots, n + 1)
  {
  }

  /** One write of the worker, whether or not it then raises. */
  lemma {:induction false} WriteKeepsTrue(c: Codec, sys: Sys, e: Event)
    requires Busy(c, sys) && True(c, sys.disk)
    ensures (e.Write? || e.WriteRaises? ==> True(c, StoreNext(c, 0, sys, e).disk)) && Grows(sys.disk, StoreNext(c, 0, sys, e).disk)
  {
    var (id, n) := sys.working.value;
    var s := AllSlots(c, sys.handles[id])[n];
    PutKeepsTrue(c, sys.disk, s, true);
    PutKeepsTrue(c, sys.disk, s, false);
    RaiseKeepsTrue(c, sys.disk, s);
  }

  lemma {:induction false} InvKept(c: Codec, capacity: int, sys: Sys, e: Event)
    requires StoreInv(c, sys) && Accounted(sys)
    ensures StoreInv(c, StoreNext(c, capacity, sys, e))
  {
    match e
    case Put(locator) =>
      ReadyGrows(c, sys.disk, sys.disk, sys.handles, [locator], sys.ready);
      WorkGrows(c, sys.disk, sys.handles, [locator], sys.working);
    case Write(noted) =>
      if Busy(c, sys) {
        WrittenNext(c, sys.disk, AllSlots(c, sys.handles[sys.working.value.0]), sys.working.value.1, noted);
        WriteKeepsTrue(c, sys, e);
        ReadyGrows(c, sys.disk, StoreNext(c, 0, sys, e).disk, sys.handles, [], sys.ready);
        assert sys.handles + [] == sys.handles;
      }
    case WriteRaises(known, landed) =>
      if Busy(c, sys) {
        WriteKeepsTrue(c, sys, e);
        ReadyGrows(c, sys.disk, StoreNext(c, 0, sys, e).disk, sys.handles, [], sys.ready);
        assert sys.handles + [] == sys.handles;
      }
    case Take => if sys.queue != [] { assert sys.queue[0] in sys.queue && Placed(sys, sys.queue[0]); }
    case Publish =>
  }

  lemma {:induction false} PutPlaces(sys: Sys, locator: string)
    requires Accounted(sys)
    ensures Accounted(sys.(handles := sys.handles + [locator], queue := sys.queue + [|sys.handles|], unfinished := sys.unfinished + 1))
  {
    var sys' := sys.(handles := sys.handles + [locator], queue := sys.queue + [|sys.handles|], unfinished := sys.unfinished + 1);
    forall i, j | 0 <= i < j < |sys'.queue| ensures sys'.queue[i] < sys'.queue[j] {
      assert Placed(sys, sys'.queue[i]);
      if j == |sys.queue| { assert sys.queue[i] in sys.queue; }
    }
    forall id: nat ensures Placed(sys', id) { assert Placed(sys, id); }
  }

  lemma {:induction false} TakePlaces(sys: Sys)
    requires Accounted(sys) && sys.working.None? && sys.queue != []
    ensures Accounted(sys.(queue := sys.queue[1..], working := Some((sys.queue[0], 0))))
  {
    var sys' := sys.(queue := sys.queue[1..], working := Some((sys.queue[0], 0)));
    assert sys.queue == [sys.queue[0]] + sys.queue[1..];
    forall id: nat ensures Placed(sys', id) { assert Placed(sys, id); }
  }

  lemma {:induction false} EndPlaces(sys: Sys, disk: Disk, ok: bool)
    requires Accounted(sys) && sys.working.Some?
    ensures var id := sys.working.value.0;
      Accounted(Sys(disk, sys.handles, sys.queue, None, if ok then sys.ready + {id} else sys.ready,
                    if ok then sys.failed else sys.failed + {id}, Lowered(sys.unfinished)))
  {
    var id := sys.working.value.0;
    var sys' := Sys(disk, sys.handles, sys.queue, None, if ok then sys.ready + {id} else sys.ready,
                    if ok then sys.failed else sys.failed + {id}, Lowered(sys.unfinished));
    forall x: nat ensures Placed(sys', x) { assert Placed(sys, x); }
  }

  lemma {:induction false} WritePlaces(sys: Sys, disk: Disk, n: nat)
    requires Accounted(sys) && sys.working.Some?
    ensures Accounted(sys.(disk := disk, working := Some((sys.working.value.0, n))))
  {
    var sys' := sys.(disk := disk, working := Some((sys.working.value.0, n)));
    forall x: nat ensures Placed(sys', x) { assert Placed(sys, x); }
  }

  lemma {:induction false} AccountedKept(c: Codec, capacity: int, sys: Sys, e: Event)
    requires Accounted(sys)
    ensures Accounted(StoreNext(c, capacity, sys, e))
  {
    match e
    case Put(locator) => PutPlaces(sys, locator);
    case Take => if sys.working.None? && sys.queue != [] { TakePlaces(sys); }
    case Write(noted) => if Busy(c, sys) { WritePlaces(sys, StoreNext(c, capacity, sys, e).disk, sys.working.value.1 + 1); }
    case WriteRaises(known, landed) => if Busy(c, sys) { EndPlaces(sys, StoreNext(c, capacity, sys, e).disk, false); }
    case Publish => if sys.working.Some? { EndPlaces(sys, sys.disk, true); }
  }

  ghost function StoreSteps(c: Codec, capacity: int): (Sys, Event) -> Sys {
    (sys, e) => StoreNext(c, capacity, sys, e)
  }

  ghost function StoreRun(c: Codec, capacity: int, events: seq<Event>): Sys {
    Fold(StoreSteps(c, capacity), Init(), events)
  }

  ghost predicate Good(c: Codec, sys: Sys) {
    StoreInv(c, sys) && Accounted(sys)
  }

  lemma {:induction false} GoodKept(c: Codec, capacity: int, sys: Sys, e: Event)
    requires Good(c, sys)
    ensures Good(c, StoreSteps(c, capacity)(sys, e)) && sys.failed <= StoreSteps(c, capacity)(sys, e).failed
  {
    InvKept(c, capacity, sys, e);
    AccountedKept(c, capacity, sys, e);
  }

  lemma {:induction false} RunKeeps(c: Codec, capacity: int, events: seq<Event>)
    ensures Good(c, StoreRun(c, capacity, events))
  {
    forall sys, e | Good(c, sys) ensures Good(c, StoreSteps(c, capacity)(sys, e)) { GoodKept(c, capacity, sys, e); }
    FoldKeeps(StoreSteps(c, capacity), sys => Good(c, sys), Init(), events);
  }

  /** Publish after write: whatever is ready reads back, layer by layer, as it was put. */
  lemma {:induction false} ReadyReadsBack(c: Codec, capacity: int, events: seq<Event>, id: nat, layer: nat)
    requires c.Faithful() && id in StoreRun(c, capacity, events).ready
    ensures var sys := StoreRun(c, capacity, events);
      && id < |sys.handles| && id !in sys.failed
      && (layer < |c.content(sys.handles[id])| ==> GetLayer(c, sys.disk, sys.handles[id], layer) == AsRead(c.content(sys.handles[id])[layer]))
  {
    RunKeeps(c, capacity, events);
    ReadyReads(c, StoreRun(c, capacity, events), id, layer);
  }

  lemma {:induction false} ReadyReads(c: Codec, sys: Sys, id: nat, layer: nat)
    requires c.Faithful() && Good(c, sys) && id in sys.ready
    ensures id < |sys.handles| && id !in sys.failed
    ensures layer < |c.content(sys.handles[id])| ==> GetLayer(c, sys.disk, sys.handles[id], layer) == AsRead(c.content(sys.handles[id])[layer])
  {
    assert Placed(sys, id) && AllWritten(c, sys.disk, sys.handles[id]);
    if layer < |c.content(sys.handles[id])| {
      WrittenReadsBack(c, sys.disk, sys.handles[id], layer);
    }
  }

  /** What another process, which starts without specs, sees of the files. */
  ghost function Reopened(d: Disk): Disk {
    Disk(d.files, map[])
  }

  /** In every run, another process reads a layer of a published handle as it was put if and only if the
      notes of that layer's tensors were written. */
  lemma {:induction false} ReadyReadsElsewhereIff(c: Codec, capacity: int, events: seq<Event>, id: nat, layer: nat)
    requires c.Faithful() && id in StoreRun(c, capacity, events).ready
    ensures var sys := StoreRun(c, capacity, events);
      id < |sys.handles| && (layer < |c.content(sys.handles[id])| ==>
        (GetLayer(c, Reopened(sys.disk), sys.handles[id], layer) == AsRead(c.content(sys.handles[id])[layer]) <==>
          forall p: Part :: InPayload(c, Slot(sys.handles[id], layer, p)) ==> NoteKey(KeyOf(Slot(sys.handles[id], layer, p))) in sys.disk.files))
  {
    RunKeeps(c, capacity, events);
    ReadyElsewhere(c, StoreRun(c, capacity, events), id, layer);
  }

  lemma {:induction false} ReadyElsewhere(c: Codec, sys: Sys, id: nat, layer: nat)
    requires c.Faithful() && Good(c, sys) && id in sys.ready
    ensures id < |sys.handles|
    ensures layer < |c.content(sys.handles[id])| ==>
      (GetLayer(c, Reopened(sys.disk), sys.handles[id], layer) == AsRead(c.content(sys.handles[id])[layer]) <==>
        forall p: Part :: InPayload(c, Slot(sys.handles[id], layer, p)) ==> NoteKey(KeyOf(Slot(sys.handles[id], layer, p))) in sys.disk.files)
  {
    assert AllWritten(c, sys.disk, sys.handles[id]);
    if layer < |c.content(sys.handles[id])| {
      SecondStoreReadsIff(c, sys.disk, sys.handles[id], layer);
    }
  }

  /** A pair whose second note could not be written: published, and half of it lost to another process. */
  lemma {:induction false} HalfReadElsewhere(c: Codec, locator: string, k: Tensor, v: Tensor)
    requires c.Faithful() && c.content(locator) == [Pair(k, v)]
    ensures var sys := StoreRun(c, 0, [Put(locator), Take, Write(true), Write(false), Publish]);
      && 0 in sys.ready && sys.handles == [locator]
      && GetLayer(c, sys.disk, locator, 0) == ReadPair(k, Some(v))
      && GetLayer(c, Reopened(sys.disk), locator, 0) == ReadPair(k, None)
  {
    var sk, sv := Slot(locator, 0, K), Slot(locator, 0, V);
    KeysApart(sk, sv);
    KeysApart(sv, sk);
    PairSlots(c, locator, k, v);
    HalfNotedRun(c, locator, sk, sv);
  }

  lemma {:induction false} PairSlots(c: Codec, locator: string, k: Tensor, v: Tensor)
    requires c.content(locator) == [Pair(k, v)]
    ensures AllSlots(c, locator) == [Slot(locator, 0, K), Slot(locator, 0, V)]
    ensures InPayload(c, Slot(locator, 0, K)) && TensorOf(c, Slot(locator, 0, K)) == k
    ensures InPayload(c, Slot(locator, 0, V)) && TensorOf(c, Slot(locator, 0, V)) == v
  {
    assert SlotsOf(c, locator, 0) == [];
  }

  lemma {:induction false} PutAndTake(c: Codec, locator: string)
    ensures Fold(StoreSteps(c, 0), Init(), [Put(locator), Take]) == Sys(Disk(map[], map[]), [locator], [], Some((0, 0)), {}, {}, 1)
  {
    TwoSteps(StoreSteps(c, 0), Init(), Put(locator), Take);
  }

  /** The run that writes two tensors, the second without its note. */
  lemma {:induction false} HalfNotedRun(c: Codec, locator: string, a: Slot, b: Slot)
    requires AllSlots(c, locator) == [a, b] && InPayload(c, a) && InPayload(c, b)
    ensures var sys := StoreRun(c, 0, [Put(locator), Take, Write(true), Write(false), Publish]);
      && sys.ready == {0} && sys.handles == [locator]
      && sys.disk == PutOne(c, PutOne(c, Disk(map[], map[]), KeyOf(a), TensorOf(c, a), true), KeyOf(b), TensorOf(c, b), false)
  {
    PutAndTake(c, locator);
    HalfNotedWrites(c, Fold(StoreSteps(c, 0), Init(), [Put(locator), Take]), a, b);
    FoldConcat(StoreSteps(c, 0), Init(), [Put(locator), Take], [Write(true), Write(false), Publish]);
    assert [Put(locator), Take] + [Write(true), Write(false), Publish] == [Put(locator), Take, Write(true), Write(false), Publish];
  }

  lemma {:induction false} HalfNotedWrites(c: Codec, sys: Sys, a: Slot, b: Slot)
    requires sys.handles != [] && AllSlots(c, sys.handles[0]) == [a, b] && InPayload(c, a) && InPayload(c, b) && sys.working == Some((0, 0))
    ensures Fold(StoreSteps(c, 0), sys, [Write(true), Write(false), Publish]) == sys.(
      disk := PutOne(c, PutOne(c, sys.disk, KeyOf(a), TensorOf(c, a), true), KeyOf(b), TensorOf(c, b), false),
      working := None, ready := sys.ready + {0}, unfinished := Lowered(sys.unfinished))
  {
    hide KeyOf;
    var d1 := PutOne(c, sys.disk, KeyOf(a), TensorOf(c, a), true);
    var d2 := PutOne(c, d1, KeyOf(b), TensorOf(c, b), false);
    var s1, s2 := sys.(disk := d1, working := Some((0, 1))), sys.(disk := d2, working := Some((0, 2)));
    assert StoreNext(c, 0, sys, Write(true)) == s1;
    assert StoreNext(c, 0, s1, Write(false)) == s2;
    ThreeSteps(StoreSteps(c, 0), sys, Write(true), Write(false), Publish);
  }

  ghost predicate FailedFor(c: Codec, sys: Sys, id: nat) {
    Good(c, sys) && id in sys.failed
  }

  /** A failed write never becomes visible. */
  lemma {:induction false} FailedStaysInvisible(c: Codec, capacity: int, before: seq<Event>, after: seq<Event>, id: nat)
    requires id in StoreRun(c, capacity, before).failed
    ensures id !in StoreRun(c, capacity, before + after).ready
  {
    RunKeeps(c, capacity, before);
    forall sys, e | FailedFor(c, sys, id) ensures FailedFor(c, StoreSteps(c, capacity)(sys, e), id) { GoodKept(c, capacity, sys, e); }
    FoldKeeps(StoreSteps(c, capacity), sys => FailedFor(c, sys, id), StoreRun(c, capacity, before), after);
    FoldConcat(StoreSteps(c, capacity), Init(), before, after);
    assert Placed(StoreRun(c, capacity, before + after), id);
  }

  /** When the queue's counter is down to zero, which is what `flush` waits for, nothing is pending. */
  lemma {:induction false} FlushedIsSettled(c: Codec, capacity: int, events: seq<Event>)
    requires StoreRun(c, capacity, events).unfinished == 0
    ensures var sys := StoreRun(c, capacity, events);
      sys.queue == [] && sys.working.None? && forall id: nat :: id < |sys.handles| ==> (id in sys.ready <==> id !in sys.failed)
  {
    RunKeeps(c, capacity, events);
    var sys := StoreRun(c, capacity, events);
    forall id: nat | id < |sys.handles| ensures id in sys.ready <==> id !in sys.failed { assert Placed(sys, id); }
  }

  /** A write that raises fails its handle for good, and the worker is free for the next. */
  lemma {:induction false} RaisedStaysInvisible(c: Codec, capacity: int, before: seq<Event>, known: bool, landed: bool, after: seq<Event>)
    requires Busy(c, StoreRun(c, capacity, before))
    ensures var sys, sys' := StoreRun(c, capacity, before), StoreRun(c, capacity, before + [WriteRaises(known, landed)]);
      && sys'.working.None? && sys'.failed == sys.failed + {sys.working.value.0} && sys'.ready == sys.ready && sys'.queue == sys.queue
      && sys.working.value.0 !in StoreRun(c, capacity, before + [WriteRaises(known, landed)] + after).ready
  {
    var e := WriteRaises(known, landed);
    assert (before + [e])[..|before|] == before;
    FailedStaysInvisible(c, capacity, before + [e], after, StoreRun(c, capacity, before).working.value.0);
  }

  // ------------------------------------------------------------------ the worker gets on

  /** The queue never outgrows its capacity. */
  lemma {:induction false} QueueIsBounded(c: Codec, capacity: int, events: seq<Event>)
    requires capacity > 0
    ensures |StoreRun(c, capacity, events).queue| <= capacity
  {
    forall sys: Sys, e | |sys.queue| <= capacity ensures |StoreNext(c, capacity, sys, e).queue| <= capacity { QueueStep(c, capacity, sys, e); }
    FoldKeeps(StoreSteps(c, capacity), (sys: Sys) => |sys.queue| <= capacity, Init(), events);
  }

  lemma {:induction false} QueueStep(c: Codec, capacity: int, sys: Sys, e: Event)
    requires capacity > 0 && |sys.queue| <= capacity
    ensures |StoreNext(c, capacity, sys, e).queue| <= capacity
  {
  }

  /** The worker's steps when nothing raises. */
  ghost predicate WorkerOnly(events: seq<Event>) {
    forall i :: 0 <= i < |events| ==> events[i].Take? || events[i].Write? || events[i].Publish?
  }

  ghost function Left(c: Codec, sys: Sys): int {
    if sys.working.Some? && sys.working.value.0 < |sys.handles|
    then 1 + |AllSlots(c, sys.handles[sys.working.value.0])| - sys.working.value.1 else 0
  }

  lemma {:induction false} WorkerMoves(c: Codec, capacity: int, sys: Sys) returns (e: Event)
    requires Good(c, sys) && (sys.queue != [] || sys.working.Some?)
    ensures var sys' := StoreNext(c, capacity, sys, e);
      && WorkerOnly([e]) && sys'.handles == sys.handles && sys'.failed == sys.failed
      && (|sys'.queue| < |sys.queue| || (|sys'.queue| == |sys.queue| && 0 <= Left(c, sys') < Left(c, sys)))
  {
    e := if sys.working.None? then Take else if Busy(c, sys) then Write(true) else Publish;
  }

  lemma {:induction false} WorkerDrains(c: Codec, capacity: int, sys: Sys) returns (events: seq<Event>)
    requires Good(c, sys)
    ensures var sys' := Fold(StoreSteps(c, capacity), sys, events);
      && WorkerOnly(events) && Good(c, sys') && sys'.queue == [] && sys'.working.None? && sys'.handles == sys.handles && sys'.failed == sys.failed
    decreases |sys.queue|, Left(c, sys)
  {
    hide StoreInv, Accounted;
    events := [];
    if sys.queue != [] || sys.working.Some? {
      var e := WorkerMoves(c, capacity, sys);
      GoodKept(c, capacity, sys, e);
      var rest := WorkerDrains(c, capacity, StoreNext(c, capacity, sys, e));
      FoldCons(StoreSteps(c, capacity), sys, e, rest);
      events := [e] + rest;
    }
  }

  /** In every run a put that finds room can be published by the worker alone, which finishes all the others too. */
  lemma {:induction false} PutIsPublished(c: Codec, capacity: int, before: seq<Event>, locator: string) returns (more: seq<Event>)
    requires capacity <= 0 || |StoreRun(c, capacity, before).queue| < capacity
    ensures var sys, sys' := StoreRun(c, capacity, before), StoreRun(c, capacity, before + [Put(locator)] + more);
      && WorkerOnly(more) && sys'.handles == sys.handles + [locator] && |sys.handles| in sys'.ready
      && sys'.unfinished == 0 && forall id: nat :: id < |sys.handles| ==> id in sys'.ready || id in sys.failed
  {
    var sys, sys1 := StoreRun(c, capacity, before), StoreRun(c, capacity, before + [Put(locator)]);
    assert (before + [Put(locator)])[..|before|] == before;
    RunKeeps(c, capacity, before);
    RunKeeps(c, capacity, before + [Put(locator)]);
    more := WorkerDrains(c, capacity, sys1);
    FoldConcat(StoreSteps(c, capacity), Init(), before + [Put(locator)], more);
    var sys' := StoreRun(c, capacity, before + [Put(locator)] + more);
    assert sys1.queue[|sys.queue|] == |sys.handles|;
    forall id: nat | id <= |sys.handles| ensures id in sys'.ready || id in sys.failed {
      assert Placed(sys', id);
    }
    assert Placed(sys1, |sys.handles|);
  }

  // ------------------------------------------------------------------ the store object

  /** The disk after the first `n` tensors of a payload; `noted` says which notes could be written. */
  ghost function DiskAfterPuts(c: Codec, d: Disk, slots: seq<Slot>, n: nat, noted: nat -> bool): Disk
    requires n <= |slots| && forall i :: 0 <= i < |slots| ==> InPayload(c, slots[i])
  {
    if n == 0 then d
    else PutOne(c, DiskAfterPuts(c, d, slots, n - 1, noted), KeyOf(slots[n - 1]), TensorOf(c, slots[n - 1]), noted(n - 1))
  }

  lemma {:induction false} PutOneMore(c: Codec, d: Disk, slots: seq<Slot>, n: nat, noted: bool)
    requires True(c, d) && n < |slots| && Written(d, slots, n) && InPayload(c, slots[n])
    ensures var e := PutOne(c, d, KeyOf(slots[n]), TensorOf(c, slots[n]), noted); True(c, e) && Written(e, slots, n + 1)
  {
    PutKeepsTrue(c, d, slots[n], noted);
    WrittenNext(c, d, slots, n, noted);
  }

  lemma {:induction false} PutsAreWritten(c: Codec, d: Disk, slots: seq<Slot>, n: nat, noted: nat -> bool)
    requires True(c, d) && n <= |slots| && forall i :: 0 <= i < |slots| ==> InPayload(c, slots[i])
    ensures True(c, DiskAfterPuts(c, d, slots, n, noted)) && Written(DiskAfterPuts(c, d, slots, n, noted), slots, n)
  {
    hide True, KeyOf;
    if n > 0 {
      var mid := DiskAfterPuts(c, d, slots, n - 1, noted);
      assert DiskAfterPuts(c, d, slots, n, noted) == PutOne(c, mid, KeyOf(slots[n - 1]), TensorOf(c, slots[n - 1]), noted(n - 1));
      PutsAreWritten(c, d, slots, n - 1, noted);
      PutOneMore(c, mid, slots, n - 1, noted(n - 1));
    }
  }

  ghost predicate ReadsBack(c: Codec, d: Disk, locator: string) {
    forall layer :: 0 <= layer < |c.content(locator)| ==> GetLayer(c, d, locator, layer) == AsRead(c.content(locator)[layer])
  }

  /** After a put in one go every layer reads back as it was put, with or without notes. */
  lemma {:induction false} PutReadsBack(c: Codec, d: Disk, locator: string, noted: nat -> bool)
    requires c.Faithful() && True(c, d)
    ensures var after := DiskAfterPuts(c, d, AllSlots(c, locator), |AllSlots(c, locator)|, noted); True(c, after) && ReadsBack(c, after, locator)
  {
    hide True, Written;
    var slots := AllSlots(c, locator);
    PutsAreWritten(c, d, slots, |slots|, noted);
    forall layer | 0 <= layer < |c.content(locator)|
      ensures GetLayer(c, DiskAfterPuts(c, d, slots, |slots|, noted), locator, layer) == AsRead(c.content(locator)[layer])
    {
      WrittenReadsBack(c, DiskAfterPuts(c, d, slots, |slots|, noted), locator, layer);
    }
  }

  class TensorStoreTierStore {
    const codec: Codec
    var disk: Disk

    constructor (codec: Codec, files: map<string, File>)
      ensures this.codec == codec && disk == Disk(files, map[])
    {
      this.codec := codec;
      disk := Disk(files, map[]);
    }

    method WriteOne(key: string, t: Tensor, noted: bool)
      modifies this
      ensures disk == PutOne(codec, old(disk), key, t, noted)
    {
      var specs := disk.specs[key := codec.spec(t)];
      var files := disk.files[key := Data(codec.raw(t))];
      if noted {
        files := files[NoteKey(key) := Note(codec.spec(t))];
      }
      disk := Disk(files, specs);
    }

    /** All tensors of a payload, layer by layer. */
    method DoPutPayload(locator: string, noted: nat -> bool)
      modifies this
      ensures disk == DiskAfterPuts(codec, old(disk), AllSlots(codec, locator), |AllSlots(codec, locator)|, noted)
      ensures codec.Faithful() && True(codec, old(disk)) ==> True(codec, disk) && ReadsBack(codec, disk, locator)
    {
      if codec.Faithful() && True(codec, disk) { PutReadsBack(codec, disk, locator, noted); }
      PutSlots(AllSlots(codec, locator), noted);
    }

    method PutSlots(slots: seq<Slot>, noted: nat -> bool)
      requires forall i :: 0 <= i < |slots| ==> InPayload(codec, slots[i])
      modifies this
      ensures disk == DiskAfterPuts(codec, old(disk), slots, |slots|, noted)
    {
      ghost var before := disk;
      for i := 0 to |slots|
        invariant disk == DiskAfterPuts(codec, before, slots, i, noted)
      {
        WriteOne(KeyOf(slots[i]), TensorOf(codec, slots[i]), noted(i));
      }
    }

    /** Looks the spec up in the process, then in its note, and remembers it. */
    method ReadOne(key: string) returns (t: Option<Tensor>)
      modifies this
      ensures t == GetOne(codec, old(disk), key) && disk.files == old(disk.files)
      ensures forall k :: SpecFor(disk, k) == SpecFor(old(disk), k)
    {
      var spec: Option<Spec> := None;
      if key in disk.specs {
        spec := Some(disk.specs[key]);
      } else if NoteKey(key) in disk.files && disk.files[NoteKey(key)].Note? {
        spec := Some(disk.files[NoteKey(key)].spec);
        disk := disk.(specs := disk.specs[key := spec.value]);
      }
      if spec.None? || key !in disk.files || !disk.files[key].Data? {
        return None;
      }
      t := Some(codec.view(disk.files[key].raw, spec.value));
    }

    method ReadLayer(locator: string, layer: nat) returns (r: Read)
      modifies this
      ensures r == GetLayer(codec, old(disk), locator, layer) && disk.files == old(disk.files)
      ensures forall k :: SpecFor(disk, k) == SpecFor(old(disk), k)
    {
      var k := ReadOne(KeyOf(Slot(locator, layer, K)));
      if k.Some? {
        var v := ReadOne(KeyOf(Slot(locator, layer, V)));
        return ReadPair(k.value, v);
      }
      var t := ReadOne(KeyOf(Slot(locator, layer, Whole)));
      r := if t.Some? then ReadSingle(t.value) else Missing;
    }
  }

}
