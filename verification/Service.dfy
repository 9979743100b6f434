/** Saves in flight against lookups: the vector-update barrier, the bounded save queue with its single
    worker, the full-queue policies and the shutdown flush, interleaved at the granularity of lock
    sections. */
module Service {
  import opened Machine
  import opened Options

  datatype OnFull = Block | Drop | Downgrade | Sync

  datatype Settings = Settings(asyncSave: bool, capacity: int, onFull: OnFull, flush: bool)

  datatype Party = Caller | Worker | Flusher

  datatype Outcome = Ran | Dropped | Failed

  /** Where one call of `save` is. */
  datatype Stage =
    | Counted                                  // holds the lock, counter raised, event not cleared yet
    | Reserved                                 // slot reserved, not enqueued yet
    | Queued
    | InHand(who: Party)                        // taken from the queue
    | Running(who: Party)                       // the strategy's save is running
    | Releasing(who: Party, outcome: Outcome)   // over, slot not given back yet
    | Lowered(who: Party, outcome: Outcome)     // holds the lock, counter lowered, event not set yet
    | Over(outcome: Outcome)
  {
    predicate Pending() { !Lowered? && !Over? }
    predicate Locked() { Counted? || Lowered? }
    predicate HasRun() { Running? || ((Releasing? || Lowered? || Over?) && outcome == Ran) }
    predicate Of(p: Party) { (InHand? || Running? || Releasing? || Lowered?) && who == p }
    /** The call has reserved its slot and is not over. */
    predicate Unfinished() { Pending() && !Counted? }
  }

  datatype WorkerState = Checking | Waiting | Busy(id: nat) | Exited

  datatype Phase = Up | Joining | Flushing | FlushBusy(id: nat) | Down(flushed: bool)

  datatype Sys = Sys(saves: map<nat, Stage>, pending: nat, idle: bool, lock: Option<nat>,
                     queue: seq<nat>, taken: seq<nat>, enqueued: seq<nat>, runs: seq<nat>, served: seq<nat>,
                     worker: WorkerState, stop: bool, phase: Phase)

  datatype Event =
    | Reserve(id: nat) | Clear(id: nat)
    | Enqueue(id: nat) | Refuse(id: nat) | EnqueueError(id: nat) | RunInline(id: nat)
    | Start(id: nat) | Finish(id: nat) | Lower(id: nat) | SetIdle(id: nat)
    | WorkerCheck | WorkerTake | WorkerTimeout
    | Shutdown | Join | JoinTimeout | FlushTake | FlushEmpty

  function Init(c: Settings): Sys {
    Sys(map[], 0, true, None, [], [], [], [], [], if c.asyncSave then Checking else Exited, false, Up)
  }

  predicate At(sys: Sys, id: nat, st: Stage) {
    id in sys.saves && sys.saves[id] == st
  }

  predicate Full(c: Settings, sys: Sys) {
    c.capacity > 0 && |sys.queue| >= c.capacity
  }

  function Move(sys: Sys, id: nat, st: Stage): Sys {
    sys.(saves := sys.saves[id := st])
  }

  /** `served` logs the runs of saves that came from the queue. */
  function Run(sys: Sys, id: nat, who: Party): Sys {
    Move(sys, id, Running(who)).(runs := sys.runs + [id], served := if who.Caller? then sys.served else sys.served + [id])
  }

  function Take(sys: Sys, who: Party): Sys
    requires sys.queue != []
  {
    Move(sys, sys.queue[0], InHand(who)).(queue := sys.queue[1..], taken := sys.taken + [sys.queue[0]])
  }

  /** What a party does next once its save is over. */
  function Resume(sys: Sys, who: Party): Sys {
    match who
    case Caller => sys
    case Worker => sys.(worker := Checking)
    case Flusher => sys.(phase := Flushing)
  }

  function SaveNext(c: Settings, sys: Sys, e: Event): Sys {
    match e
    case Reserve(id) =>
      if id !in sys.saves && sys.lock.None? then Move(sys, id, Counted).(pending := sys.pending + 1, lock := Some(id)) else sys
    case Clear(id) =>
      if At(sys, id, Counted) then Move(sys, id, Reserved).(idle := false, lock := None) else sys
    case Enqueue(id) =>
      if At(sys, id, Reserved) && c.asyncSave && !Full(c, sys)
      then Move(sys, id, Queued).(queue := sys.queue + [id], enqueued := sys.enqueued + [id]) else sys
    case Refuse(id) =>
      if At(sys, id, Reserved) && c.asyncSave && Full(c, sys) && !c.onFull.Block?
      then if c.onFull.Sync? then Run(sys, id, Caller) else Move(sys, id, Releasing(Caller, Dropped)) else sys
    case EnqueueError(id) =>
      if At(sys, id, Reserved) && c.asyncSave then Move(sys, id, Releasing(Caller, Failed)) else sys
    case RunInline(id) => if At(sys, id, Reserved) && !c.asyncSave then Run(sys, id, Caller) else sys
    case Start(id) => if id in sys.saves && sys.saves[id].InHand? then Run(sys, id, sys.saves[id].who) else sys
    case Finish(id) =>
      if id in sys.saves && sys.saves[id].Running? then Move(sys, id, Releasing(sys.saves[id].who, Ran)) else sys
    case Lower(id) =>
      if id in sys.saves && sys.saves[id].Releasing? && sys.lock.None?
      then Move(sys, id, Lowered(sys.saves[id].who, sys.saves[id].outcome)).(pending := Clamped(sys.pending - 1), lock := Some(id)) else sys
    case SetIdle(id) =>
      if id in sys.saves && sys.saves[id].Lowered?
      then Resume(Move(sys, id, Over(sys.saves[id].outcome)).(idle := sys.idle || sys.pending == 0, lock := None), sys.saves[id].who) else sys
    case WorkerCheck => if sys.worker.Checking? then sys.(worker := if sys.stop then Exited else Waiting) else sys
    case WorkerTake => if sys.worker.Waiting? && sys.queue != [] then Take(sys, Worker).(worker := Busy(sys.queue[0])) else sys
    case WorkerTimeout => if sys.worker.Waiting? then sys.(worker := Checking) else sys
    case Shutdown =>
      if !sys.phase.Up? && !sys.phase.Down? then sys
      else if c.asyncSave then sys.(stop := true, phase := Joining) else sys.(phase := Down(false))
    case Join => if sys.phase.Joining? && sys.worker.Exited? then sys.(phase := if c.flush then Flushing else Down(false)) else sys
    case JoinTimeout => if sys.phase.Joining? && !sys.worker.Exited? then sys.(phase := Down(false)) else sys
    case FlushTake => if sys.phase.Flushing? && sys.queue != [] then Take(sys, Flusher).(phase := FlushBusy(sys.queue[0])) else sys
    case FlushEmpty => if sys.phase.Flushing? && sys.queue == [] then sys.(phase := Down(true)) else sys
  }

  function Clamped(n: int): nat {
    if n < 0 then 0 else n
  }

  ghost function Steps(c: Settings): (Sys, Event) -> Sys {
    (sys, e) => SaveNext(c, sys, e)
  }

  ghost function SaveRun(c: Settings, events: seq<Event>): Sys {
    Fold(Steps(c), Init(c), events)
  }

  // ------------------------------------------------------------------ the counter

  ghost function Pendings(saves: map<nat, Stage>): set<nat> {
    set id | id in saves && saves[id].Pending()
  }

  ghost predicate Counts(sys: Sys) {
    sys.pending == |Pendings(sys.saves)|
  }

  ghost function Weight(saves: map<nat, Stage>, id: nat): nat {
    if id in saves && saves[id].Pending() then 1 else 0
  }

  lemma {:induction false} PendingsMove(saves: map<nat, Stage>, id: nat, st: Stage)
    ensures |Pendings(saves[id := st])| == |Pendings(saves)| - Weight(saves, id) + (if st.Pending() then 1 else 0)
  {
    var rest := Pendings(saves) - {id};
    assert Pendings(saves) == if id in saves && saves[id].Pending() then rest + {id} else rest;
    assert Pendings(saves[id := st]) == if st.Pending() then rest + {id} else rest;
  }

  /** Lowering always has something to lower, so clamping at zero changes nothing. */
  lemma {:induction false} ClampNeverFires(sys: Sys, id: nat)
    requires Counts(sys) && id in sys.saves && sys.saves[id].Releasing?
    ensures sys.pending >= 1 && Clamped(sys.pending - 1) == sys.pending - 1
  {
    PendingsMove(sys.saves, id, Over(Ran));
  }

  // ------------------------------------------------------------------ the event

  /** At most the lock holder is inside a lock section, and outside of one the event says whether the
      counter is zero. */
  ghost predicate LockOk(sys: Sys) {
    && (forall id :: id in sys.saves && sys.saves[id].Locked() ==> sys.lock == Some(id))
    && (sys.lock.None? ==> (sys.idle <==> sys.pending == 0))
    && (sys.lock.Some? ==>
          var id := sys.lock.value;
          && id in sys.saves && sys.saves[id].Locked()
          && (sys.saves[id].Counted? ==> (sys.idle <==> sys.pending == 1))
          && (sys.saves[id].Lowered? ==> !sys.idle))
  }

  // ------------------------------------------------------------------ the queue

  ghost predicate NoRepeat(s: seq<nat>) {
    forall i, j :: 0 <= i < j < |s| ==> s[i] != s[j]
  }

  /** First in, first out; the queue holds exactly the queued calls, each once. */
  ghost predicate QueueOk(sys: Sys) {
    && sys.enqueued == sys.taken + sys.queue && NoRepeat(sys.queue)
    && (forall id :: id in sys.queue <==> At(sys, id, Queued))
  }

  lemma {:induction false} MoveKeepsQueue(sys: Sys, id: nat, st: Stage)
    requires QueueOk(sys) && !At(sys, id, Queued) && !st.Queued?
    ensures QueueOk(Move(sys, id, st))
  {
    forall x ensures x in sys.queue <==> At(Move(sys, id, st), x, Queued) {
      assert x in sys.queue <==> At(sys, x, Queued);
    }
  }

  lemma {:induction false} DropHead(s: seq<nat>)
    requires NoRepeat(s) && s != []
    ensures NoRepeat(s[1..]) && forall x :: x in s[1..] <==> x in s && x != s[0]
  {
    forall x | x in s && x != s[0] ensures x in s[1..] {
      var i :| 0 <= i < |s| && s[i] == x;
      assert s[1..][i - 1] == x;
    }
  }

  lemma {:induction false} TakeKeepsQueue(sys: Sys, who: Party)
    requires QueueOk(sys) && sys.queue != []
    ensures QueueOk(Take(sys, who))
  {
    DropHead(sys.queue);
    assert sys.taken + sys.queue == sys.taken + [sys.queue[0]] + sys.queue[1..];
    forall id ensures id in sys.queue[1..] <==> At(Take(sys, who), id, Queued) {
      assert id in sys.queue <==> At(sys, id, Queued);
    }
  }

  lemma {:induction false} EnqueueKeepsQueue(sys: Sys, id: nat)
    requires QueueOk(sys)
    ensures At(sys, id, Reserved) ==> QueueOk(Move(sys, id, Queued).(queue := sys.queue + [id], enqueued := sys.enqueued + [id]))
  {
    if At(sys, id, Reserved) {
      var sys' := Move(sys, id, Queued).(queue := sys.queue + [id], enqueued := sys.enqueued + [id]);
      assert id !in sys.queue by { assert !At(sys, id, Queued); }
      forall x ensures x in sys'.queue <==> At(sys', x, Queued) {
        assert x in sys.queue <==> At(sys, x, Queued);
      }
    }
  }

  // ------------------------------------------------------------------ what ran

  /** The runs so far are exactly those of the calls at or past that point, each once. */
  ghost predicate RunsOk(saves: map<nat, Stage>, runs: seq<nat>) {
    NoRepeat(runs) && forall id :: id in runs <==> id in saves && saves[id].HasRun()
  }

  lemma {:induction false} MoveKeepsRuns(saves: map<nat, Stage>, runs: seq<nat>, id: nat, st: Stage, runs': seq<nat>)
    requires RunsOk(saves, runs)
    requires if st.Running? then id in saves && !saves[id].HasRun() && runs' == runs + [id]
             else runs' == runs && (st.HasRun() <==> id in saves && saves[id].HasRun())
    ensures RunsOk(saves[id := st], runs')
  {
    if st.Running? { assert id !in runs; }
  }

  // ------------------------------------------------------------------ who is at it

  ghost predicate WorkerOk(sys: Sys) {
    && (forall id :: id in sys.saves && sys.saves[id].Of(Worker) ==> sys.worker == Busy(id))
    && (sys.worker.Busy? ==> sys.worker.id in sys.saves && sys.saves[sys.worker.id].Of(Worker))
  }

  ghost predicate FlusherOk(sys: Sys) {
    && (forall id :: id in sys.saves && sys.saves[id].Of(Flusher) ==> sys.phase == FlushBusy(id))
    && (sys.phase.FlushBusy? ==> sys.phase.id in sys.saves && sys.saves[sys.phase.id].Of(Flusher))
    && (sys.phase.Flushing? || sys.phase.FlushBusy? || sys.phase == Down(true) ==> sys.worker.Exited?)
    && (forall id :: id in sys.saves && sys.saves[id].InHand? ==> !sys.saves[id].who.Caller?)
  }

  /** Worker and flusher have at most one save each, the one they are busy with, and the flusher only
      starts after the worker has exited. */
  ghost predicate PartiesOk(sys: Sys) {
    WorkerOk(sys) && FlusherOk(sys)
  }

  /** The save taken from the queue whose run has not begun. */
  ghost function InHands(sys: Sys): seq<nat> {
    if sys.worker.Busy? && At(sys, sys.worker.id, InHand(Worker)) then [sys.worker.id]
    else if sys.phase.FlushBusy? && At(sys, sys.phase.id, InHand(Flusher)) then [sys.phase.id]
    else []
  }

  /** Queued saves run in the order they were taken, which is the order they were put. */
  ghost predicate OrderOk(sys: Sys) {
    sys.taken == sys.served + InHands(sys)
  }

  ghost predicate BooksOk(sys: Sys) {
    Counts(sys) && LockOk(sys) && QueueOk(sys) && RunsOk(sys.saves, sys.runs)
  }

  ghost predicate SaveInv(sys: Sys) {
    BooksOk(sys) && PartiesOk(sys) && OrderOk(sys)
  }

  // ------------------------------------------------------------------ every step keeps it

  lemma {:induction false} ReserveKeeps(sys: Sys, id: nat)
    requires SaveInv(sys) && id !in sys.saves && sys.lock.None?
    ensures SaveInv(Move(sys, id, Counted).(pending := sys.pending + 1, lock := Some(id)))
  {
    PendingsMove(sys.saves, id, Counted);
    MoveKeepsQueue(sys, id, Counted);
    MoveKeepsRuns(sys.saves, sys.runs, id, Counted, sys.runs);
  }

  lemma {:induction false} ClearKeeps(sys: Sys, id: nat)
    requires SaveInv(sys) && At(sys, id, Counted)
    ensures SaveInv(Move(sys, id, Reserved).(idle := false, lock := None))
  {
    PendingsMove(sys.saves, id, Over(Ran));
    PendingsMove(sys.saves, id, Reserved);
    MoveKeepsQueue(sys, id, Reserved);
    MoveKeepsRuns(sys.saves, sys.runs, id, Reserved, sys.runs);
  }

  lemma {:induction false} EnqueueKeeps(sys: Sys, id: nat)
    requires SaveInv(sys) && At(sys, id, Reserved)
    ensures SaveInv(Move(sys, id, Queued).(queue := sys.queue + [id], enqueued := sys.enqueued + [id]))
  {
    PendingsMove(sys.saves, id, Queued);
    EnqueueKeepsQueue(sys, id);
    MoveKeepsRuns(sys.saves, sys.runs, id, Queued, sys.runs);
  }

  /** Turned away, or the run is over. */
  lemma {:induction false} ReleaseKeeps(sys: Sys, id: nat, who: Party, o: Outcome)
    requires SaveInv(sys) && id in sys.saves
    requires if o == Ran then sys.saves[id] == Running(who) else sys.saves[id] == Reserved && who.Caller?
    ensures SaveInv(Move(sys, id, Releasing(who, o)))
  {
    PendingsMove(sys.saves, id, Releasing(who, o));
    MoveKeepsQueue(sys, id, Releasing(who, o));
    MoveKeepsRuns(sys.saves, sys.runs, id, Releasing(who, o), sys.runs);
  }

  lemma {:induction false} RunKeepsBooks(sys: Sys, id: nat, who: Party)
    requires BooksOk(sys) && id in sys.saves && (sys.saves[id] == InHand(who) || sys.saves[id] == Reserved)
    ensures BooksOk(Run(sys, id, who))
  {
    PendingsMove(sys.saves, id, Running(who));
    MoveKeepsQueue(sys, id, Running(who));
    MoveKeepsRuns(sys.saves, sys.runs, id, Running(who), sys.runs + [id]);
  }

  lemma {:induction false} RunKeeps(sys: Sys, id: nat, who: Party)
    requires SaveInv(sys) && id in sys.saves && (sys.saves[id] == InHand(who) || (sys.saves[id] == Reserved && who.Caller?))
    ensures SaveInv(Run(sys, id, who))
  {
    hide BooksOk;
    RunKeepsBooks(sys, id, who);
  }

  lemma {:induction false} LowerKeeps(sys: Sys, id: nat, who: Party, o: Outcome)
    requires SaveInv(sys) && At(sys, id, Releasing(who, o)) && sys.lock.None?
    ensures SaveInv(Move(sys, id, Lowered(who, o)).(pending := Clamped(sys.pending - 1), lock := Some(id)))
  {
    ClampNeverFires(sys, id);
    PendingsMove(sys.saves, id, Lowered(who, o));
    MoveKeepsQueue(sys, id, Lowered(who, o));
    MoveKeepsRuns(sys.saves, sys.runs, id, Lowered(who, o), sys.runs);
  }

  lemma {:induction false} SetIdleKeepsBooks(sys: Sys, id: nat, who: Party, o: Outcome)
    requires BooksOk(sys) && At(sys, id, Lowered(who, o))
    ensures BooksOk(Resume(Move(sys, id, Over(o)).(idle := sys.idle || sys.pending == 0, lock := None), who))
  {
    PendingsMove(sys.saves, id, Over(o));
    MoveKeepsQueue(sys, id, Over(o));
    MoveKeepsRuns(sys.saves, sys.runs, id, Over(o), sys.runs);
  }

  lemma {:induction false} SetIdleKeeps(sys: Sys, id: nat, who: Party, o: Outcome)
    requires SaveInv(sys) && At(sys, id, Lowered(who, o))
    ensures SaveInv(Resume(Move(sys, id, Over(o)).(idle := sys.idle || sys.pending == 0, lock := None), who))
  {
    hide BooksOk;
    SetIdleKeepsBooks(sys, id, who, o);
  }

  lemma {:induction false} TakeKeeps(sys: Sys, who: Party)
    requires SaveInv(sys) && sys.queue != []
    requires (who.Worker? && sys.worker.Waiting?) || (who.Flusher? && sys.phase.Flushing?)
    ensures SaveInv(if who.Worker? then Take(sys, who).(worker := Busy(sys.queue[0])) else Take(sys, who).(phase := FlushBusy(sys.queue[0])))
  {
    assert At(sys, sys.queue[0], Queued);
    PendingsMove(sys.saves, sys.queue[0], InHand(who));
    TakeKeepsQueue(sys, who);
    MoveKeepsRuns(sys.saves, sys.runs, sys.queue[0], InHand(who), sys.runs);
  }

  /** No save moves. */
  lemma {:induction false} LoopKeeps(sys: Sys, worker: WorkerState, stop: bool, phase: Phase)
    requires SaveInv(sys) && !worker.Busy? && (worker == sys.worker || sys.worker.Checking? || sys.worker.Waiting?)
    requires !phase.FlushBusy? && !(phase != sys.phase && sys.phase.FlushBusy?)
    requires phase.Flushing? || phase == Down(true) ==> worker.Exited?
    ensures SaveInv(sys.(worker := worker, stop := stop, phase := phase))
  {
  }

  lemma {:induction false} PhaseKeeps(sys: Sys, stop: bool, phase: Phase)
    requires SaveInv(sys) && !phase.FlushBusy? && !sys.phase.FlushBusy?
    requires phase.Flushing? || phase == Down(true) ==> sys.worker.Exited?
    ensures SaveInv(sys.(stop := stop, phase := phase))
  {
  }

  predicate ByCaller(e: Event) { e.Reserve? || e.Clear? || e.Enqueue? || e.Refuse? || e.EnqueueError? || e.RunInline? }
  predicate ByRunner(e: Event) { e.Start? || e.Finish? || e.Lower? || e.SetIdle? }

  lemma {:induction false} CallerKeeps(c: Settings, sys: Sys, e: Event)
    requires SaveInv(sys) && ByCaller(e)
    ensures SaveInv(SaveNext(c, sys, e))
  {
    match e
    case Reserve(id) => if id !in sys.saves && sys.lock.None? { ReserveKeeps(sys, id); }
    case Clear(id) => if At(sys, id, Counted) { ClearKeeps(sys, id); }
    case Enqueue(id) => if At(sys, id, Reserved) { EnqueueKeeps(sys, id); }
    case Refuse(id) => if At(sys, id, Reserved) { RunKeeps(sys, id, Caller); ReleaseKeeps(sys, id, Caller, Dropped); }
    case EnqueueError(id) => if At(sys, id, Reserved) { ReleaseKeeps(sys, id, Caller, Failed); }
    case RunInline(id) => if At(sys, id, Reserved) { RunKeeps(sys, id, Caller); }
  }

  lemma {:induction false} RunnerKeeps(c: Settings, sys: Sys, e: Event)
    requires SaveInv(sys) && ByRunner(e)
    ensures SaveInv(SaveNext(c, sys, e))
  {
    match e
    case Start(id) => if id in sys.saves && sys.saves[id].InHand? { RunKeeps(sys, id, sys.saves[id].who); }
    case Finish(id) => if id in sys.saves && sys.saves[id].Running? { ReleaseKeeps(sys, id, sys.saves[id].who, Ran); }
    case Lower(id) =>
      if id in sys.saves && sys.saves[id].Releasing? && sys.lock.None? { LowerKeeps(sys, id, sys.saves[id].who, sys.saves[id].outcome); }
    case SetIdle(id) => if id in sys.saves && sys.saves[id].Lowered? { SetIdleKeeps(sys, id, sys.saves[id].who, sys.saves[id].outcome); }
  }

  lemma {:induction false} LoopsKeep(c: Settings, sys: Sys, e: Event)
    requires SaveInv(sys) && !ByCaller(e) && !ByRunner(e)
    ensures SaveInv(SaveNext(c, sys, e))
  {
    match e
    case WorkerTake => if sys.worker.Waiting? && sys.queue != [] { TakeKeeps(sys, Worker); }
    case FlushTake => if sys.phase.Flushing? && sys.queue != [] { TakeKeeps(sys, Flusher); }
    case WorkerCheck => if sys.worker.Checking? { LoopKeeps(sys, if sys.stop then Exited else Waiting, sys.stop, sys.phase); }
    case WorkerTimeout => if sys.worker.Waiting? { LoopKeeps(sys, Checking, sys.stop, sys.phase); }
    case Shutdown => if sys.phase.Up? || sys.phase.Down? { PhaseKeeps(sys, true, Joining); PhaseKeeps(sys, sys.stop, Down(false)); }
    case Join =>
      if sys.phase.Joining? && sys.worker.Exited? { PhaseKeeps(sys, sys.stop, Flushing); PhaseKeeps(sys, sys.stop, Down(false)); }
    case JoinTimeout => if sys.phase.Joining? { PhaseKeeps(sys, sys.stop, Down(false)); }
    case FlushEmpty => if sys.phase.Flushing? { PhaseKeeps(sys, sys.stop, Down(true)); }
  }

  lemma {:induction false} InvKept(c: Settings, sys: Sys, e: Event)
    requires SaveInv(sys)
    ensures SaveInv(SaveNext(c, sys, e))
  {
    if ByCaller(e) { CallerKeeps(c, sys, e); } else if ByRunner(e) { RunnerKeeps(c, sys, e); } else { LoopsKeep(c, sys, e); }
  }

  lemma {:induction false} ReachKeeps(c: Settings, events: seq<Event>)
    ensures SaveInv(SaveRun(c, events))
  {
    assert Pendings(Init(c).saves) == {};
    RunKeepsInv(c, Init(c), events);
  }

  lemma {:induction false} RunKeepsInv(c: Settings, start: Sys, events: seq<Event>)
    requires SaveInv(start)
    ensures SaveInv(Fold(Steps(c), start, events))
  {
    forall sys, e | SaveInv(sys) ensures SaveInv(Steps(c)(sys, e)) { InvKept(c, sys, e); }
    FoldKeeps(Steps(c), sys => SaveInv(sys), start, events);
  }

  // ------------------------------------------------------------------ what it is for

  /** The counter is the number of saves between reserving and releasing their slot. */
  lemma {:induction false} CounterIsExact(c: Settings, events: seq<Event>)
    ensures SaveRun(c, events).pending == |Pendings(SaveRun(c, events).saves)|
  {
    ReachKeeps(c, events);
  }

  /** A lookup that finds the event set sees a moment when no reserved save is unfinished. */
  lemma {:induction false} BarrierIsSafe(c: Settings, events: seq<Event>)
    requires SaveRun(c, events).idle
    ensures forall id :: id in SaveRun(c, events).saves ==> !SaveRun(c, events).saves[id].Unfinished()
  {
    ReachKeeps(c, events);
    var sys := SaveRun(c, events);
    forall id | id in sys.saves ensures !sys.saves[id].Unfinished() {
      if sys.saves[id].Unfinished() {
        UnfinishedClears(sys, id);
        assert false;
      }
    }
  }

  lemma {:induction false} UnfinishedClears(sys: Sys, id: nat)
    requires Counts(sys) && LockOk(sys) && id in sys.saves && sys.saves[id].Unfinished()
    ensures !sys.idle
  {
    var all := Pendings(sys.saves);
    assert id in all;
    if sys.lock.Some? && sys.saves[sys.lock.value].Counted? {
      assert |all - {id}| == |all| - 1 && sys.lock.value in all - {id};
    }
  }

  /** Outside of the lock sections the event is set exactly when no save holds a slot. */
  lemma {:induction false} EventIsExact(c: Settings, events: seq<Event>)
    requires SaveRun(c, events).lock.None?
    ensures var sys := SaveRun(c, events);
      sys.idle <==> forall id :: id in sys.saves ==> !sys.saves[id].Pending()
  {
    ReachKeeps(c, events);
    var sys := SaveRun(c, events);
    if sys.pending > 0 {
      var id :| id in Pendings(sys.saves);
    } else {
      forall id | id in sys.saves ensures !sys.saves[id].Pending() { assert id !in Pendings(sys.saves); }
    }
  }

  /** Every save runs at most once, queued saves run first in first out, and a call that is over either
      ran or was turned away. */
  lemma {:induction false} SavesAreAccountedFor(c: Settings, events: seq<Event>, id: nat)
    requires id in SaveRun(c, events).saves
    ensures var sys := SaveRun(c, events);
      && NoRepeat(sys.runs) && sys.enqueued == sys.served + InHands(sys) + sys.queue
      && (id in sys.queue <==> sys.saves[id] == Queued) && (id in sys.queue ==> id !in sys.runs)
      && (id in sys.runs <==> sys.saves[id].HasRun())
      && (sys.saves[id].Over? ==> (id in sys.runs <==> sys.saves[id].outcome == Ran))
  {
    ReachKeeps(c, events);
    var sys := SaveRun(c, events);
    assert id in sys.queue <==> At(sys, id, Queued);
  }

  /** The queue never outgrows its capacity, when it has one. */
  lemma {:induction false} QueueIsBounded(c: Settings, events: seq<Event>)
    requires c.capacity > 0
    ensures |SaveRun(c, events).queue| <= c.capacity
  {
    forall sys: Sys, e | |sys.queue| <= c.capacity ensures |SaveNext(c, sys, e).queue| <= c.capacity { QueueStep(c, sys, e); }
    FoldKeeps(Steps(c), (sys: Sys) => |sys.queue| <= c.capacity, Init(c), events);
  }

  lemma {:induction false} QueueStep(c: Settings, sys: Sys, e: Event)
    requires c.capacity > 0 && |sys.queue| <= c.capacity
    ensures |SaveNext(c, sys, e).queue| <= c.capacity
  {
  }

  /** No call of `save` is under way in its caller's thread. */
  ghost predicate NoCallers(sys: Sys) {
    forall id :: id in sys.saves ==> !sys.saves[id].Counted? && !sys.saves[id].Reserved? && !sys.saves[id].Of(Caller)
  }

  lemma {:induction false} EverythingOver(sys: Sys)
    requires SaveInv(sys) && NoCallers(sys) && sys.queue == [] && !sys.worker.Busy? && !sys.phase.FlushBusy?
    ensures sys.pending == 0 && sys.idle && sys.lock.None? && forall id :: id in sys.saves ==> sys.saves[id].Over?
  {
    forall id | id in sys.saves ensures sys.saves[id].Over? {
      assert id in sys.queue <==> At(sys, id, Queued);
    }
    assert Pendings(sys.saves) == {};
  }

  /** When the flush ends with no call of `save` in progress, nothing is queued or pending. */
  lemma {:induction false} FlushDrains(c: Settings, events: seq<Event>)
    requires var sys := SaveRun(c, events); sys.phase.Flushing? && sys.queue == [] && NoCallers(sys)
    ensures var sys := SaveNext(c, SaveRun(c, events), FlushEmpty);
      sys.phase == Down(true) && sys.queue == [] && sys.pending == 0 && sys.idle && forall id :: id in sys.saves ==> sys.saves[id].Over?
  {
    ReachKeeps(c, events);
    EverythingOver(SaveRun(c, events));
  }

  // ------------------------------------------------------------------ the worker gets on

  /** A step of the worker, or the one that ends a caller's lock section. */
  ghost predicate WorkersTurn(sys: Sys, e: Event) {
    match e
    case WorkerCheck => true
    case WorkerTake => true
    case WorkerTimeout => true
    case Start(id) => id in sys.saves && sys.saves[id].Of(Worker)
    case Finish(id) => id in sys.saves && sys.saves[id].Of(Worker)
    case Lower(id) => id in sys.saves && sys.saves[id].Of(Worker)
    case SetIdle(id) => sys.lock == Some(id)
    case Clear(id) => sys.lock == Some(id)
    case _ => false
  }

  ghost predicate WorkerAlone(c: Settings, sys: Sys, events: seq<Event>)
    decreases |events|
  {
    events != [] ==> WorkersTurn(sys, events[0]) && WorkerAlone(c, SaveNext(c, sys, events[0]), events[1..])
  }

  /** How far the worker is from waiting for the next save. */
  function WorkerRank(sys: Sys): nat {
    match sys.worker
    case Busy(id) => if id in sys.saves then 2 + Rank(sys.saves[id]) + (if sys.saves[id].InHand? then 4 else 0) else 0
    case Checking => 1
    case _ => 0
  }

  /** The runs so far and those to come, in order. */
  ghost function AllRuns(sys: Sys): seq<nat> {
    sys.runs + InHands(sys) + sys.queue
  }

  ghost predicate Serving(sys: Sys) {
    SaveInv(sys) && sys.phase.Up? && !sys.stop && !sys.worker.Exited?
  }

  /** One step on: fewer saves queued, or the worker nearer to the next one, or the lock free for it. */
  ghost predicate GetsOn(sys: Sys, sys': Sys) {
    && AllRuns(sys') == AllRuns(sys) && sys'.phase == sys.phase && sys'.stop == sys.stop && !sys'.worker.Exited?
    && (NoCallers(sys) ==> NoCallers(sys'))
    && (|sys'.queue| < |sys.queue| || (sys'.queue == sys.queue
        && (WorkerRank(sys') < WorkerRank(sys) || (WorkerRank(sys') == WorkerRank(sys) && sys.lock.Some? && sys'.lock.None?))))
  }

  lemma {:induction false} LockEnds(c: Settings, sys: Sys) returns (e: Event)
    requires SaveInv(sys) && sys.worker.Busy? && sys.lock.Some?
    ensures WorkersTurn(sys, e) && GetsOn(sys, SaveNext(c, sys, e)) && SaveNext(c, sys, e).queue == sys.queue
  {
    var id := sys.lock.value;
    e := if sys.saves[id].Counted? then Clear(id) else SetIdle(id);
  }

  lemma {:induction false} HandRuns(c: Settings, sys: Sys)
    requires SaveInv(sys) && sys.worker.Busy? && sys.lock.None? && sys.saves[sys.worker.id].InHand?
    ensures var e := Start(sys.worker.id); WorkersTurn(sys, e) && GetsOn(sys, SaveNext(c, sys, e)) && SaveNext(c, sys, e).queue == sys.queue
  {
  }

  lemma {:induction false} BusyMoves(c: Settings, sys: Sys) returns (e: Event)
    requires SaveInv(sys) && sys.worker.Busy?
    ensures WorkersTurn(sys, e) && GetsOn(sys, SaveNext(c, sys, e)) && SaveNext(c, sys, e).queue == sys.queue
  {
    var id := sys.worker.id;
    if sys.lock.Some? {
      e := LockEnds(c, sys);
    } else if sys.saves[id].InHand? {
      e := Start(id);
      HandRuns(c, sys);
    } else {
      e := if sys.saves[id].Running? then Finish(id) else Lower(id);
    }
  }

  lemma {:induction false} IdleMoves(c: Settings, sys: Sys) returns (e: Event)
    requires Serving(sys) && !sys.worker.Busy? && sys.queue != []
    ensures WorkersTurn(sys, e) && GetsOn(sys, SaveNext(c, sys, e))
  {
    e := if sys.worker.Checking? then WorkerCheck else WorkerTake;
    assert At(sys, sys.queue[0], Queued) && sys.queue == [sys.queue[0]] + sys.queue[1..];
  }

  lemma {:induction false} WorkerServes(c: Settings, sys: Sys) returns (events: seq<Event>)
    requires Serving(sys)
    ensures var sys' := Fold(Steps(c), sys, events);
      && WorkerAlone(c, sys, events) && Serving(sys') && sys'.queue == [] && !sys'.worker.Busy? && AllRuns(sys') == AllRuns(sys)
      && (NoCallers(sys) ==> NoCallers(sys'))
    decreases |sys.queue|, WorkerRank(sys), sys.lock.Some?
  {
    events := [];
    if sys.worker.Busy? || sys.queue != [] {
      var e: Event;
      if sys.worker.Busy? { e := BusyMoves(c, sys); } else { e := IdleMoves(c, sys); }
      InvKept(c, sys, e);
      var rest := WorkerServes(c, SaveNext(c, sys, e));
      FoldCons(Steps(c), sys, e, rest);
      events := [e] + rest;
    }
  }

  /** While the service is up, the worker alone can run every queued save, in the order they were put, and if
      no call is in progress then every slot is given back and lookups pass. */
  lemma {:induction false} WorkerDrains(c: Settings, before: seq<Event>) returns (more: seq<Event>)
    requires var sys := SaveRun(c, before); sys.phase.Up? && !sys.stop && !sys.worker.Exited?
    ensures var sys, sys' := SaveRun(c, before), SaveRun(c, before + more);
      && WorkerAlone(c, sys, more) && sys'.queue == [] && sys'.runs == sys.runs + InHands(sys) + sys.queue
      && (NoCallers(sys) ==> sys'.pending == 0 && sys'.idle && forall id :: id in sys'.saves ==> sys'.saves[id].Over?)
  {
    var sys := SaveRun(c, before);
    ReachKeeps(c, before);
    more := WorkerServes(c, sys);
    FoldConcat(Steps(c), Init(c), before, more);
    var sys' := SaveRun(c, before + more);
    assert InHands(sys') == [] && sys'.runs + [] + [] == sys'.runs;
    if NoCallers(sys) { EverythingOver(sys'); }
  }

  lemma {:induction false} OneSaveTaken(c: Settings, sys: Sys)
    requires OneQueued(sys) && sys.worker.Checking? && !sys.stop
    ensures var sys' := Fold(Steps(c), sys, [WorkerCheck, WorkerTake, Start(0)]);
      && sys'.saves == map[0 := Running(Worker)] && sys'.queue == [] && sys'.worker == Busy(0) && sys'.runs == sys.runs + [0]
      && sys'.pending == sys.pending && sys'.lock == sys.lock && sys'.idle == sys.idle
  {
    var sys1 := SaveNext(c, sys, WorkerCheck);
    var sys2 := SaveNext(c, sys1, WorkerTake);
    assert sys2.saves == map[0 := InHand(Worker)] && sys2.queue == [] && sys2.worker == Busy(0);
    ThreeSteps(Steps(c), sys, WorkerCheck, WorkerTake, Start(0));
  }

  lemma {:induction false} OneSaveOver(c: Settings, sys: Sys)
    requires sys.saves == map[0 := Running(Worker)] && sys.pending == 1 && sys.lock.None? && !sys.idle
    ensures var sys' := Fold(Steps(c), sys, [Finish(0), Lower(0), SetIdle(0)]);
      && sys'.saves == map[0 := Over(Ran)] && sys'.queue == sys.queue && sys'.runs == sys.runs
      && sys'.pending == 0 && sys'.idle && sys'.worker.Checking?
  {
    var sys1 := SaveNext(c, sys, Finish(0));
    assert sys1.saves == map[0 := Releasing(Worker, Ran)];
    var sys2 := SaveNext(c, sys1, Lower(0));
    assert sys2.saves == map[0 := Lowered(Worker, Ran)];
    ThreeSteps(Steps(c), sys, Finish(0), Lower(0), SetIdle(0));
  }

  /** One save, from its call to the end. */
  lemma {:induction false} OneSaveRuns(c: Settings)
    requires c.asyncSave
    ensures var sys := SaveRun(c, ONE_SAVE + [WorkerCheck, WorkerTake, Start(0)] + [Finish(0), Lower(0), SetIdle(0)]);
      sys.runs == [0] && sys.queue == [] && sys.pending == 0 && sys.idle && sys.saves == map[0 := Over(Ran)]
  {
    hide SaveNext, Fold;
    OneSaveFirst(c);
    OneSaveTaken(c, SaveRun(c, ONE_SAVE));
    FoldConcat(Steps(c), Init(c), ONE_SAVE, [WorkerCheck, WorkerTake, Start(0)]);
    var taken := SaveRun(c, ONE_SAVE + [WorkerCheck, WorkerTake, Start(0)]);
    OneSaveOver(c, taken);
    FoldConcat(Steps(c), Init(c), ONE_SAVE + [WorkerCheck, WorkerTake, Start(0)], [Finish(0), Lower(0), SetIdle(0)]);
  }

  /** A worker that is told to stop stops, after the save it is at. */
  lemma {:induction false} WorkerStops(c: Settings, sys: Sys) returns (events: seq<Event>)
    requires SaveInv(sys) && sys.stop && !sys.worker.Exited?
    ensures WorkerAlone(c, sys, events) && Fold(Steps(c), sys, events).worker.Exited? && Fold(Steps(c), sys, events).queue == sys.queue
    decreases sys.worker.Busy?, sys.worker.Waiting?, WorkerRank(sys), sys.lock.Some?
  {
    var e: Event;
    match sys.worker {
      case Busy(_) => e := BusyMoves(c, sys);
      case Checking => e := WorkerCheck;
      case _ => e := WorkerTimeout;
    }
    InvKept(c, sys, e);
    var rest: seq<Event> := [];
    if !sys.worker.Checking? { rest := WorkerStops(c, SaveNext(c, sys, e)); }
    FoldCons(Steps(c), sys, e, rest);
    events := [e] + rest;
  }

  /** A put that raises gives its slot back. */
  lemma {:induction false} FailedPutReleases(c: Settings, sys: Sys, id: nat)
    requires SaveInv(sys) && c.asyncSave && At(sys, id, Reserved) && sys.lock.None?
    ensures var sys' := Fold(Steps(c), sys, [EnqueueError(id)] + [Lower(id), SetIdle(id)]);
      && At(sys', id, Over(Failed)) && sys'.pending == sys.pending - 1 && (sys'.idle <==> sys.pending == 1)
      && sys'.queue == sys.queue && sys'.runs == sys.runs && sys'.lock.None?
  {
    UnfinishedClears(sys, id);
    assert id in Pendings(sys.saves);
    var failed := SaveNext(c, sys, EnqueueError(id));
    ReleaseRun(c, failed, id, Caller, Failed);
    FoldCons(Steps(c), sys, EnqueueError(id), [Lower(id), SetIdle(id)]);
    TwoSteps(Steps(c), failed, Lower(id), SetIdle(id));
  }

  // ------------------------------------------------------------------ after a shutdown

  /** The phases of a shutdown: it stops a worker if there is one, waits for it, and flushes the queue to its
      end exactly if it may and the worker is gone. */
  lemma {:induction false} PhasesFollow(c: Settings, sys: Sys, e: Event)
    requires SaveInv(sys) && SaveNext(c, sys, e).phase != sys.phase
    ensures var sys' := SaveNext(c, sys, e);
      match sys'.phase
      case Up => false
      case Joining => e.Shutdown? && c.asyncSave && sys'.stop && (sys.phase.Up? || sys.phase.Down?)
      case Flushing => sys.phase.FlushBusy? || (sys.phase.Joining? && sys.worker.Exited? && c.flush)
      case FlushBusy(id) => sys.phase.Flushing? && sys.queue != [] && id == sys.queue[0]
      case Down(flushed) =>
        if flushed then sys.phase.Flushing? && sys.queue == []
        else if e.Shutdown? then !c.asyncSave
        else sys.phase.Joining? && if sys.worker.Exited? then !c.flush else e.JoinTimeout?
  {
  }


  ghost predicate Stranded(sys: Sys, id: nat) {
    sys.worker.Exited? && sys.phase.Down? && id in sys.queue
  }

  /** The shutdown is over, or a later one without a flush waits for the worker that is gone. */
  ghost predicate Deserted(c: Settings, sys: Sys) {
    sys.worker.Exited? && (sys.phase.Down? || (sys.phase.Joining? && !c.flush))
  }

  /** What may follow: puts on the queue that raise nothing but `Full`, and `shutdown` again only if `again`. */
  ghost predicate Ordinary(after: seq<Event>, again: bool) {
    forall i :: 0 <= i < |after| ==> Usual(after[i], again)
  }

  predicate Usual(e: Event, again: bool) {
    !e.EnqueueError? && (again || !e.Shutdown?)
  }

  lemma {:induction false} DesertedStep(c: Settings, sys: Sys, e: Event)
    requires Deserted(c, sys) && PartiesOk(sys) && (c.flush ==> !e.Shutdown?)
    ensures Deserted(c, SaveNext(c, sys, e)) && forall id :: id in sys.queue ==> id in SaveNext(c, sys, e).queue
  {
  }

  /** Once the worker is gone, a queued save stays queued until `shutdown` is called again with a flush, */
  lemma {:induction false} StrandedForEver(c: Settings, before: seq<Event>, after: seq<Event>, id: nat)
    requires Stranded(SaveRun(c, before), id) && (c.flush ==> forall i :: 0 <= i < |after| ==> !after[i].Shutdown?)
    ensures Deserted(c, SaveRun(c, before + after)) && id in SaveRun(c, before + after).queue
  {
    ReachKeeps(c, before);
    forall sys, e: Event | (SaveInv(sys) && Deserted(c, sys) && id in sys.queue) && (c.flush ==> !e.Shutdown?)
      ensures SaveInv(Steps(c)(sys, e)) && Deserted(c, Steps(c)(sys, e)) && id in Steps(c)(sys, e).queue
    {
      InvKept(c, sys, e);
      DesertedStep(c, sys, e);
    }
    FoldKeepsOn(Steps(c), sys => SaveInv(sys) && Deserted(c, sys) && id in sys.queue, (e: Event) => c.flush ==> !e.Shutdown?, SaveRun(c, before), after);
    FoldConcat(Steps(c), Init(c), before, after);
  }

  /** and until then no lookup finds the event set. */
  lemma {:induction false} StrandedBlocks(c: Settings, before: seq<Event>, after: seq<Event>, id: nat)
    requires Stranded(SaveRun(c, before), id) && (c.flush ==> forall i :: 0 <= i < |after| ==> !after[i].Shutdown?)
    ensures var sys := SaveRun(c, before + after); sys.pending > 0 && !sys.idle
  {
    StrandedForEver(c, before, after, id);
    ReachKeeps(c, before + after);
    var sys := SaveRun(c, before + after);
    assert At(sys, id, Queued) && id in Pendings(sys.saves);
    UnfinishedClears(sys, id);
  }

  /** After a shutdown with the worker gone and no call in progress, lookups pass exactly when the queue
      is empty. */
  lemma {:induction false} QuietIsExact(c: Settings, events: seq<Event>)
    requires var sys := SaveRun(c, events); sys.worker.Exited? && sys.phase.Down? && NoCallers(sys)
    ensures SaveRun(c, events).idle <==> SaveRun(c, events).queue == []
  {
    ReachKeeps(c, events);
    var sys := SaveRun(c, events);
    if sys.queue == [] {
      EverythingOver(sys);
    } else {
      assert At(sys, sys.queue[0], Queued);
      UnfinishedClears(sys, sys.queue[0]);
    }
  }

  /** How far a call still is from its end. */
  function Rank(st: Stage): nat {
    match st
    case Counted => 5
    case Reserved => 4
    case Running(_) => 3
    case Releasing(_, _) => 2
    case Lowered(_, _) => 1
    case _ => 0
  }

  ghost function Above(saves: map<nat, Stage>, k: nat): set<nat> {
    set id | id in saves && Rank(saves[id]) > k
  }

  ghost function Work(saves: map<nat, Stage>): nat {
    |Above(saves, 0)| + |Above(saves, 1)| + |Above(saves, 2)| + |Above(saves, 3)| + |Above(saves, 4)|
  }

  lemma {:induction false} AboveDrops(saves: map<nat, Stage>, id: nat, st: Stage, k: nat)
    requires id in saves && Rank(st) < Rank(saves[id])
    ensures |Above(saves[id := st], k)| <= |Above(saves, k)| - (if Rank(st) <= k < Rank(saves[id]) then 1 else 0)
  {
    if Rank(st) <= k < Rank(saves[id]) {
      SubsetSize(Above(saves[id := st], k), Above(saves, k) - {id});
    } else {
      SubsetSize(Above(saves[id := st], k), Above(saves, k));
    }
  }

  lemma {:induction false} WorkDrops(saves: map<nat, Stage>, id: nat, st: Stage)
    requires id in saves && Rank(st) < Rank(saves[id])
    ensures Work(saves[id := st]) < Work(saves)
  {
    AboveDrops(saves, id, st, 0);
    AboveDrops(saves, id, st, 1);
    AboveDrops(saves, id, st, 2);
    AboveDrops(saves, id, st, 3);
    AboveDrops(saves, id, st, 4);
  }

  /** No call of `save` is between reserving its slot and the queue. */
  ghost predicate NoneEntering(sys: Sys) {
    forall id :: id in sys.saves ==> !sys.saves[id].Counted? && !sys.saves[id].Reserved?
  }

  /** Every slot that is held can be given back: by the calls themselves, or by one more flush. */
  ghost predicate Hopeful(c: Settings, sys: Sys, again: bool) {
    !c.asyncSave || (again && c.flush) || (sys.queue == [] && NoneEntering(sys))
  }

  ghost predicate Settling(c: Settings, sys: Sys, again: bool) {
    && SaveInv(sys) && sys.worker.Exited? && sys.phase.Down? && Hopeful(c, sys, again)
    && (!c.asyncSave ==> sys.queue == [])
  }

  /** One call came closer to its end and nothing else happened, but that it may have joined the queue. */
  ghost predicate MovedOn(c: Settings, sys: Sys, sys': Sys, id: nat) {
    && sys'.worker == sys.worker && sys'.phase == sys.phase && sys'.pending <= sys.pending
    && id in sys.saves && id in sys'.saves && sys'.saves == sys.saves[id := sys'.saves[id]] && Rank(sys'.saves[id]) < Rank(sys.saves[id])
    && !sys'.saves[id].Counted? && (sys'.saves[id].Reserved? ==> sys.saves[id].Counted?)
    && (sys'.queue == sys.queue || (c.asyncSave && sys.saves[id].Reserved?))
  }

  lemma {:induction false} CallMove(c: Settings, sys: Sys, id: nat, again: bool) returns (e: Event)
    requires Settling(c, sys, again) && sys.queue == [] && sys.lock.None? && id in sys.saves && sys.saves[id].Pending()
    ensures Usual(e, again) && MovedOn(c, sys, SaveNext(c, sys, e), id)
  {
    assert id in sys.queue <==> At(sys, id, Queued);
    match sys.saves[id]
    case Reserved => e := if c.asyncSave then Enqueue(id) else RunInline(id);
    case Running(_) => e := Finish(id);
    case Releasing(_, _) => e := Lower(id);
    case _ => e := WorkerTimeout;
  }

  lemma {:induction false} LockMove(c: Settings, sys: Sys) returns (e: Event)
    requires SaveInv(sys) && sys.worker.Exited? && sys.phase.Down? && sys.lock.Some?
    ensures Usual(e, false) && MovedOn(c, sys, SaveNext(c, sys, e), sys.lock.value)
  {
    var id := sys.lock.value;
    e := if sys.saves[id].Counted? then Clear(id) else SetIdle(id);
  }

  lemma {:induction false} ClearPends(sys: Sys) returns (id: nat)
    requires SaveInv(sys) && !sys.idle && sys.lock.None?
    ensures id in sys.saves && sys.saves[id].Pending()
  {
    id :| id in Pendings(sys.saves);
  }

  /** While the event is clear some call can move on, the one in its lock section first, unless all that
      is left is queued. */
  lemma {:induction false} SomeCallMoves(c: Settings, sys: Sys, again: bool) returns (e: Event)
    requires Settling(c, sys, again) && !sys.idle && (sys.queue == [] || sys.lock.Some?)
    ensures Settling(c, SaveNext(c, sys, e), again) && Usual(e, again)
    ensures SaveNext(c, sys, e).pending <= sys.pending && Work(SaveNext(c, sys, e).saves) < Work(sys.saves)
  {
    hide SaveInv, SaveNext;
    var id: nat;
    if sys.lock.Some? {
      id := sys.lock.value;
      e := LockMove(c, sys);
    } else {
      id := ClearPends(sys);
      e := CallMove(c, sys, id, again);
    }
    InvKept(c, sys, e);
    WorkDrops(sys.saves, id, SaveNext(c, sys, e).saves[id]);
  }

  lemma {:induction false} JoinAgain(c: Settings, sys: Sys)
    requires c.asyncSave && c.flush && sys.worker.Exited? && sys.phase.Down?
    ensures var mid := Fold(Steps(c), sys, [Shutdown, Join]);
      LedgerOf(mid) == LedgerOf(sys) && mid.lock == sys.lock && mid.phase.Flushing? && mid.worker.Exited?
  {
    TwoSteps(Steps(c), sys, Shutdown, Join);
  }

  lemma {:induction false} FlushedIsExited(sys: Sys)
    requires SaveInv(sys) && sys.phase == Down(true)
    ensures sys.worker.Exited?
  {
  }

  /** One more shutdown flushes what is queued. */
  lemma {:induction false} FlushAgain(c: Settings, sys: Sys) returns (events: seq<Event>)
    requires c.asyncSave && c.flush && SaveInv(sys) && sys.worker.Exited? && sys.phase.Down? && sys.lock.None? && sys.queue != []
    ensures var sys' := Fold(Steps(c), sys, events);
      Ordinary(events, true) && SaveInv(sys') && sys'.worker.Exited? && sys'.phase.Down? && sys'.pending < sys.pending
  {
    hide SaveInv, Fold, SaveNext;
    var mid := Fold(Steps(c), sys, [Shutdown, Join]);
    JoinAgain(c, sys);
    RunKeepsInv(c, sys, [Shutdown, Join]);
    var rest := FlushIsARun(c, mid);
    RunKeepsInv(c, mid, rest);
    FoldConcat(Steps(c), sys, [Shutdown, Join], rest);
    FlushedIsExited(Fold(Steps(c), mid, rest));
    SomethingPends(sys);
    events := [Shutdown, Join] + rest;
  }

  lemma {:induction false} CanSettle(c: Settings, sys: Sys, again: bool) returns (after: seq<Event>)
    requires Settling(c, sys, again)
    ensures Fold(Steps(c), sys, after).idle && Ordinary(after, again)
    decreases sys.pending, Work(sys.saves)
  {
    after := [];
    if !sys.idle {
      var first: seq<Event>;
      if sys.queue == [] || sys.lock.Some? {
        var e := SomeCallMoves(c, sys, again);
        first := [e];
        FoldCons(Steps(c), sys, e, []);
        assert [e] + [] == [e];
      } else {
        first := FlushAgain(c, sys);
      }
      var rest := CanSettle(c, Fold(Steps(c), sys, first), again);
      FoldConcat(Steps(c), sys, first, rest);
      after := first + rest;
    }
  }

  /** Otherwise: something is queued that nobody flushes, or a call is bound to join it. */
  ghost predicate Doomed(c: Settings, sys: Sys) {
    SaveInv(sys) && c.asyncSave && Deserted(c, sys) && !sys.idle && (sys.queue != [] || !NoneEntering(sys))
  }

  lemma {:induction false} DoomedStep(c: Settings, sys: Sys, e: Event)
    requires Doomed(c, sys) && Usual(e, !c.flush)
    ensures Doomed(c, SaveNext(c, sys, e))
  {
    hide SaveInv;
    InvKept(c, sys, e);
    PartiesKnown(sys);
    DesertedStep(c, sys, e);
    if sys.queue == [] { EnteringStep(c, sys, e); } else { assert sys.queue[0] in SaveNext(c, sys, e).queue; }
    SomethingPends(SaveNext(c, sys, e));
    StaysClear(c, sys, e);
  }

  lemma {:induction false} PartiesKnown(sys: Sys)
    requires SaveInv(sys)
    ensures PartiesOk(sys)
  {
  }

  lemma {:induction false} EnteringStep(c: Settings, sys: Sys, e: Event)
    requires c.asyncSave && !e.EnqueueError? && sys.queue == [] && !NoneEntering(sys)
    ensures SaveNext(c, sys, e).queue != [] || !NoneEntering(SaveNext(c, sys, e))
  {
    var id :| id in sys.saves && (sys.saves[id].Counted? || sys.saves[id].Reserved?);
    var sys' := SaveNext(c, sys, e);
    assert sys'.queue != [] || (id in sys'.saves && (sys'.saves[id].Counted? || sys'.saves[id].Reserved?));
  }

  lemma {:induction false} StaysClear(c: Settings, sys: Sys, e: Event)
    requires !sys.idle && SaveNext(c, sys, e).pending > 0
    ensures !SaveNext(c, sys, e).idle
  {
  }

  lemma {:induction false} SomethingPends(sys: Sys)
    requires SaveInv(sys) && (sys.queue != [] || !NoneEntering(sys))
    ensures sys.pending > 0
  {
    if sys.queue != [] {
      assert At(sys, sys.queue[0], Queued) && sys.queue[0] in Pendings(sys.saves);
    } else {
      var id :| id in sys.saves && (sys.saves[id].Counted? || sys.saves[id].Reserved?);
      assert id in Pendings(sys.saves);
    }
  }

  /** Whatever calls are in progress: once the worker is gone after a shutdown, lookups can pass again
      exactly when they still can, saves are not queued at all, another shutdown may come and flushes, or
      nothing is queued and no call is on its way into the queue. */
  lemma {:induction false} CanPassIff(c: Settings, before: seq<Event>, again: bool)
    requires SaveRun(c, before).worker.Exited? && SaveRun(c, before).phase.Down?
    ensures (exists after :: Ordinary(after, again) && SaveRun(c, before + after).idle) <==>
      SaveRun(c, before).idle || Hopeful(c, SaveRun(c, before), again)
  {
    var sys := SaveRun(c, before);
    ReachKeeps(c, before);
    if sys.idle {
      assert before + [] == before && Ordinary([], again);
    } else if Hopeful(c, sys, again) {
      if !c.asyncSave { SyncNeverQueues(c, before); }
      var after := CanSettle(c, sys, again);
      FoldConcat(Steps(c), Init(c), before, after);
      assert SaveRun(c, before + after).idle;
    } else {
      forall after | Ordinary(after, again) ensures !SaveRun(c, before + after).idle { DoomedForEver(c, before, after, again); }
    }
  }

  lemma {:induction false} DoomedForEver(c: Settings, before: seq<Event>, after: seq<Event>, again: bool)
    requires Doomed(c, SaveRun(c, before)) && !(again && c.flush) && Ordinary(after, again)
    ensures !SaveRun(c, before + after).idle
  {
    forall sys, e | Doomed(c, sys) && Usual(e, !c.flush) ensures Doomed(c, Steps(c)(sys, e)) { DoomedStep(c, sys, e); }
    FoldKeepsOn(Steps(c), sys => Doomed(c, sys), e => Usual(e, !c.flush), SaveRun(c, before), after);
    FoldConcat(Steps(c), Init(c), before, after);
  }

  /** A run with a shutdown that came to its end, worker gone and no call in progress. `mayTimeout`
      allows the join to time out, `mayArrive` calls of `save` during the shutdown or after it. */
  ghost predicate Shuts(c: Settings, before: seq<Event>, after: seq<Event>, mayTimeout: bool, mayArrive: bool) {
    var sys := SaveRun(c, before + [Shutdown] + after);
    && SaveRun(c, before).phase.Up? && sys.phase.Down? && sys.worker.Exited? && NoCallers(sys)
    && (mayTimeout || forall i :: 0 <= i < |after| ==> !after[i].JoinTimeout?)
    && (mayArrive || (NoCallers(SaveRun(c, before)) && forall i :: 0 <= i < |after| ==> !after[i].Reserve?))
  }

  /** A flush under way, or done with an empty queue, and no calls. */
  ghost predicate Draining(sys: Sys) {
    && SaveInv(sys) && NoCallers(sys) && !sys.phase.Up? && sys.phase != Down(false) && (sys.phase.Down? ==> sys.queue == [])
  }

  predicate Orderly(e: Event) {
    !e.JoinTimeout? && !e.Reserve?
  }

  lemma {:induction false} DrainingKept(c: Settings, sys: Sys, e: Event)
    requires c.asyncSave && c.flush && Draining(sys) && Orderly(e)
    ensures Draining(SaveNext(c, sys, e))
  {
    InvKept(c, sys, e);
    if ByCaller(e) { CallersIdle(c, sys, e); } else if ByRunner(e) { RunnersDrain(c, sys, e); } else { LoopsDrain(c, sys, e); }
  }

  lemma {:induction false} CallersIdle(c: Settings, sys: Sys, e: Event)
    requires NoCallers(sys) && ByCaller(e) && !e.Reserve?
    ensures SaveNext(c, sys, e) == sys
  {
  }

  lemma {:induction false} RunnersDrain(c: Settings, sys: Sys, e: Event)
    requires Draining(sys) && ByRunner(e)
    ensures var sys' := SaveNext(c, sys, e);
      NoCallers(sys') && !sys'.phase.Up? && sys'.phase != Down(false) && (sys'.phase.Down? ==> sys'.queue == [])
  {
    hide BooksOk, OrderOk;
  }

  lemma {:induction false} LoopsDrain(c: Settings, sys: Sys, e: Event)
    requires c.asyncSave && c.flush && Draining(sys) && !ByCaller(e) && !ByRunner(e) && Orderly(e)
    ensures var sys' := SaveNext(c, sys, e);
      NoCallers(sys') && !sys'.phase.Up? && sys'.phase != Down(false) && (sys'.phase.Down? ==> sys'.queue == [])
  {
    if sys.queue != [] { assert At(sys, sys.queue[0], Queued); }
  }

  lemma {:induction false} OrderlyDrains(c: Settings, before: seq<Event>, after: seq<Event>)
    requires c.asyncSave && c.flush && Shuts(c, before, after, false, false)
    ensures SaveRun(c, before + [Shutdown] + after).idle
  {
    var start := SaveRun(c, before + [Shutdown]);
    ReachKeeps(c, before);
    ReachKeeps(c, before + [Shutdown]);
    assert (before + [Shutdown])[..|before|] == before;
    assert start == SaveNext(c, SaveRun(c, before), Shutdown);
    forall sys, e | Draining(sys) && Orderly(e) ensures Draining(Steps(c)(sys, e)) { DrainingKept(c, sys, e); }
    FoldKeepsOn(Steps(c), sys => Draining(sys), e => Orderly(e), start, after);
    FoldConcat(Steps(c), Init(c), before + [Shutdown], after);
    QuietIsExact(c, before + [Shutdown] + after);
  }

  lemma {:induction false} SyncNeverQueues(c: Settings, events: seq<Event>)
    requires !c.asyncSave
    ensures SaveRun(c, events).queue == []
  {
    forall sys: Sys, e | sys.queue == [] ensures Steps(c)(sys, e).queue == [] { SyncStep(c, sys, e); }
    FoldKeeps(Steps(c), (sys: Sys) => sys.queue == [], Init(c), events);
  }

  lemma {:induction false} SyncStep(c: Settings, sys: Sys, e: Event)
    requires !c.asyncSave && sys.queue == []
    ensures SaveNext(c, sys, e).queue == []
  {
  }

  const ONE_SAVE := [Reserve(0), Clear(0), Enqueue(0)]

  /** One save is enqueued into an empty queue. */
  lemma {:induction false} OneSave(c: Settings, sys: Sys)
    requires c.asyncSave && sys.saves == map[] && sys.lock.None? && sys.queue == []
    ensures var sys' := Fold(Steps(c), sys, ONE_SAVE);
      && sys'.saves == map[0 := Queued] && sys'.queue == [0] && sys'.lock.None?
      && sys'.worker == sys.worker && sys'.stop == sys.stop && sys'.phase == sys.phase
      && sys'.pending == sys.pending + 1 && !sys'.idle && sys'.runs == sys.runs
  {
    ThreeSteps(Steps(c), sys, Reserve(0), Clear(0), Enqueue(0));
  }

  ghost predicate OneQueued(sys: Sys) {
    sys.saves == map[0 := Queued] && sys.queue == [0]
  }

  lemma {:induction false} LeftBehind(sys: Sys)
    requires OneQueued(sys) && sys.worker.Exited? && sys.phase.Down?
    ensures Stranded(sys, 0) && NoCallers(sys)
  {
  }

  lemma {:induction false} OneSaveFirst(c: Settings)
    requires c.asyncSave
    ensures OneQueued(SaveRun(c, ONE_SAVE)) && NoCallers(SaveRun(c, ONE_SAVE))
    ensures var sys := SaveRun(c, ONE_SAVE);
      sys.phase.Up? && !sys.stop && sys.worker.Checking? && sys.pending == 1 && sys.lock.None? && !sys.idle && sys.runs == []
  {
    OneSave(c, Init(c));
  }

  lemma {:induction false} ShutUnflushed(c: Settings, sys: Sys)
    requires c.asyncSave && !c.flush && OneQueued(sys) && sys.phase.Up? && sys.worker.Checking?
    ensures var sys' := SaveNext(c, SaveNext(c, SaveNext(c, sys, Shutdown), WorkerCheck), Join); OneQueued(sys') && sys'.worker.Exited? && sys'.phase.Down?
  {
  }

  lemma {:induction false} ShutTooLate(c: Settings, sys: Sys)
    requires c.asyncSave && OneQueued(sys) && sys.phase.Up? && sys.worker.Checking?
    ensures var sys' := SaveNext(c, SaveNext(c, SaveNext(c, sys, Shutdown), JoinTimeout), WorkerCheck); OneQueued(sys') && sys'.worker.Exited? && sys'.phase.Down?
  {
  }

  /** Without a flush a save that was queued at the shutdown stays behind, */
  lemma {:induction false} UnflushedRun(c: Settings)
    requires c.asyncSave && !c.flush
    ensures Shuts(c, ONE_SAVE, [WorkerCheck, Join], false, false) && Stranded(SaveRun(c, ONE_SAVE + [Shutdown] + [WorkerCheck, Join]), 0)
  {
    OneSaveFirst(c);
    ShutUnflushed(c, SaveRun(c, ONE_SAVE));
    ThreeSteps(Steps(c), SaveRun(c, ONE_SAVE), Shutdown, WorkerCheck, Join);
    FoldConcat(Steps(c), Init(c), ONE_SAVE, [Shutdown, WorkerCheck, Join]);
    assert ONE_SAVE + [Shutdown] + [WorkerCheck, Join] == ONE_SAVE + [Shutdown, WorkerCheck, Join];
    LeftBehind(SaveRun(c, ONE_SAVE + [Shutdown] + [WorkerCheck, Join]));
  }

  /** with one too, if the join times out before the worker has looked at the stop flag, */
  lemma {:induction false} TimedOutRun(c: Settings)
    requires c.asyncSave
    ensures Shuts(c, ONE_SAVE, [JoinTimeout, WorkerCheck], true, false)
    ensures Stranded(SaveRun(c, ONE_SAVE + [Shutdown] + [JoinTimeout, WorkerCheck]), 0)
  {
    OneSaveFirst(c);
    ShutTooLate(c, SaveRun(c, ONE_SAVE));
    ThreeSteps(Steps(c), SaveRun(c, ONE_SAVE), Shutdown, JoinTimeout, WorkerCheck);
    FoldConcat(Steps(c), Init(c), ONE_SAVE, [Shutdown, JoinTimeout, WorkerCheck]);
    assert ONE_SAVE + [Shutdown] + [JoinTimeout, WorkerCheck] == ONE_SAVE + [Shutdown, JoinTimeout, WorkerCheck];
    LeftBehind(SaveRun(c, ONE_SAVE + [Shutdown] + [JoinTimeout, WorkerCheck]));
  }

  lemma {:induction false} FlushNothing(c: Settings)
    requires c.asyncSave && c.flush
    ensures var sys := SaveNext(c, SaveNext(c, SaveNext(c, SaveNext(c, Init(c), Shutdown), WorkerCheck), Join), FlushEmpty);
      sys.saves == map[] && sys.lock.None? && sys.queue == [] && sys.worker.Exited? && sys.phase.Down?
  {
  }

  lemma {:induction false} LateEnd(c: Settings)
    requires c.asyncSave && c.flush
    ensures var sys := SaveRun(c, [] + [Shutdown] + ([WorkerCheck, Join, FlushEmpty] + ONE_SAVE)); OneQueued(sys) && sys.worker.Exited? && sys.phase.Down?
  {
    hide SaveNext, Fold;
    var s1 := SaveNext(c, Init(c), Shutdown);
    FlushNothing(c);
    FoldCons(Steps(c), Init(c), Shutdown, [WorkerCheck, Join, FlushEmpty] + ONE_SAVE);
    FoldConcat(Steps(c), s1, [WorkerCheck, Join, FlushEmpty], ONE_SAVE);
    ThreeSteps(Steps(c), s1, WorkerCheck, Join, FlushEmpty);
    OneSave(c, Fold(Steps(c), s1, [WorkerCheck, Join, FlushEmpty]));
    assert [] + [Shutdown] + ([WorkerCheck, Join, FlushEmpty] + ONE_SAVE) == [Shutdown] + ([WorkerCheck, Join, FlushEmpty] + ONE_SAVE);
  }

  /** and so does a save that arrives after the flush. */
  lemma {:induction false} LateRun(c: Settings)
    requires c.asyncSave && c.flush
    ensures Shuts(c, [], [WorkerCheck, Join, FlushEmpty] + ONE_SAVE, false, true)
    ensures Stranded(SaveRun(c, [] + [Shutdown] + ([WorkerCheck, Join, FlushEmpty] + ONE_SAVE)), 0)
  {
    hide SaveNext;
    LateEnd(c);
    LeftBehind(SaveRun(c, [] + [Shutdown] + ([WorkerCheck, Join, FlushEmpty] + ONE_SAVE)));
  }

  /** Exactly when every shutdown leaves lookups free to pass: saves are not queued at all, or the queue
      is flushed, the worker stops in time and no save is in progress or comes later. */
  lemma {:induction false} ShutdownDrainsIff(c: Settings, mayTimeout: bool, mayArrive: bool)
    ensures (forall before, after :: Shuts(c, before, after, mayTimeout, mayArrive) ==> SaveRun(c, before + [Shutdown] + after).idle)
      <==> !c.asyncSave || (c.flush && !mayTimeout && !mayArrive)
  {
    if !c.asyncSave || (c.flush && !mayTimeout && !mayArrive) {
      forall before, after | Shuts(c, before, after, mayTimeout, mayArrive) ensures SaveRun(c, before + [Shutdown] + after).idle {
        if c.asyncSave {
          OrderlyDrains(c, before, after);
        } else {
          SyncNeverQueues(c, before + [Shutdown] + after);
          QuietIsExact(c, before + [Shutdown] + after);
        }
      }
    } else if !c.flush {
      UnflushedRun(c);
      QuietIsExact(c, ONE_SAVE + [Shutdown] + [WorkerCheck, Join]);
      assert Shuts(c, ONE_SAVE, [WorkerCheck, Join], mayTimeout, mayArrive);
    } else if mayTimeout {
      TimedOutRun(c);
      QuietIsExact(c, ONE_SAVE + [Shutdown] + [JoinTimeout, WorkerCheck]);
      assert Shuts(c, ONE_SAVE, [JoinTimeout, WorkerCheck], mayTimeout, mayArrive);
    } else {
      LateRun(c);
      QuietIsExact(c, [] + [Shutdown] + ([WorkerCheck, Join, FlushEmpty] + ONE_SAVE));
      assert Shuts(c, [], [WorkerCheck, Join, FlushEmpty] + ONE_SAVE, mayTimeout, mayArrive);
    }
  }

  // ------------------------------------------------------------------ one thread at a time

  /** What the service object itself holds; `ran` are the strategy's saves so far. */
  datatype Ledger = Ledger(pending: nat, idle: bool, queue: seq<nat>, ran: seq<nat>)

  ghost function LedgerOf(sys: Sys): Ledger {
    Ledger(sys.pending, sys.idle, sys.queue, sys.runs)
  }

  /** A save that went into the queue, ran or was dropped, or waits for room with its slot reserved. */
  datatype Progress = Enqueued | Ended | Blocked

  function ProgressOf(c: Settings, b: Ledger): Progress {
    if !c.asyncSave then Ended
    else if !(c.capacity > 0 && |b.queue| >= c.capacity) then Enqueued
    else if c.onFull.Block? then Blocked else Ended
  }

  ghost function SavedTo(c: Settings, b: Ledger, id: nat): Ledger {
    match ProgressOf(c, b)
    case Enqueued => Ledger(b.pending + 1, false, b.queue + [id], b.ran)
    case Blocked => Ledger(b.pending + 1, false, b.queue, b.ran)
    case Ended => if c.asyncSave && !c.onFull.Sync? then b else b.(ran := b.ran + [id])
  }

  ghost function FlushedTo(b: Ledger): Ledger {
    Ledger(Clamped(b.pending - |b.queue|), b.pending <= |b.queue|, [], b.ran + b.queue)
  }

  /** The lock sections and steps of one call of `save` that nothing comes between. */
  ghost function SaveSteps(c: Settings, sys: Sys, id: nat): seq<Event> {
    [Reserve(id), Clear(id)] +
    match ProgressOf(c, LedgerOf(sys))
    case Enqueued => [Enqueue(id)]
    case Blocked => []
    case Ended =>
      (if !c.asyncSave then [RunInline(id), Finish(id)] else if c.onFull.Sync? then [Refuse(id), Finish(id)] else [Refuse(id)])
      + [Lower(id), SetIdle(id)]
  }

  lemma {:induction false} ReleaseRun(c: Settings, sys: Sys, id: nat, who: Party, o: Outcome)
    requires At(sys, id, Releasing(who, o)) && sys.lock.None? && sys.pending >= 1 && !sys.idle
    ensures var sys' := Fold(Steps(c), sys, [Lower(id), SetIdle(id)]);
      LedgerOf(sys') == Ledger(sys.pending - 1, sys.pending == 1, sys.queue, sys.runs) && sys'.lock.None?
      && (who.Flusher? ==> sys'.phase.Flushing?)
  {
    TwoSteps(Steps(c), sys, Lower(id), SetIdle(id));
  }

  /** How a call ends without queueing, from its reserved slot. */
  lemma {:induction false} EndRun(c: Settings, sys: Sys, id: nat)
    requires At(sys, id, Reserved) && sys.lock.None? && sys.pending >= 1 && !sys.idle && ProgressOf(c, LedgerOf(sys)).Ended?
    ensures var first := if !c.asyncSave then [RunInline(id), Finish(id)] else if c.onFull.Sync? then [Refuse(id), Finish(id)] else [Refuse(id)];
      var sys' := Fold(Steps(c), sys, first);
      && (exists o :: At(sys', id, Releasing(Caller, o))) && sys'.lock.None?
      && LedgerOf(sys') == (if c.asyncSave && !c.onFull.Sync? then LedgerOf(sys) else LedgerOf(sys).(ran := sys.runs + [id]))
  {
    if !c.asyncSave {
      TwoSteps(Steps(c), sys, RunInline(id), Finish(id));
      assert At(Fold(Steps(c), sys, [RunInline(id), Finish(id)]), id, Releasing(Caller, Ran));
    } else if c.onFull.Sync? {
      TwoSteps(Steps(c), sys, Refuse(id), Finish(id));
      assert At(Fold(Steps(c), sys, [Refuse(id), Finish(id)]), id, Releasing(Caller, Ran));
    } else {
      FoldCons(Steps(c), sys, Refuse(id), []);
      assert [Refuse(id)] + [] == [Refuse(id)];
      assert At(Fold(Steps(c), sys, [Refuse(id)]), id, Releasing(Caller, Dropped));
    }
  }

  /** `CacheService.Save` does what those steps of the machine do. */
  lemma {:induction false} SaveIsARun(c: Settings, sys: Sys, id: nat)
    requires id !in sys.saves && sys.lock.None? && (sys.idle <==> sys.pending == 0)
    ensures var sys' := Fold(Steps(c), sys, SaveSteps(c, sys, id)); LedgerOf(sys') == SavedTo(c, LedgerOf(sys), id) && sys'.lock.None?
  {
    var mid := Fold(Steps(c), sys, [Reserve(id), Clear(id)]);
    TwoSteps(Steps(c), sys, Reserve(id), Clear(id));
    var rest := SaveSteps(c, sys, id)[2..];
    assert SaveSteps(c, sys, id) == [Reserve(id), Clear(id)] + rest;
    FoldConcat(Steps(c), sys, [Reserve(id), Clear(id)], rest);
    match ProgressOf(c, LedgerOf(sys))
    case Enqueued =>
      FoldCons(Steps(c), mid, Enqueue(id), []);
      assert rest == [Enqueue(id)] && [Enqueue(id)] + [] == [Enqueue(id)];
    case Blocked => assert rest == [];
    case Ended => EndedRun(c, mid, id, rest);
  }

  lemma {:induction false} EndedRun(c: Settings, sys: Sys, id: nat, rest: seq<Event>)
    requires At(sys, id, Reserved) && sys.lock.None? && sys.pending >= 1 && !sys.idle && ProgressOf(c, LedgerOf(sys)).Ended?
    requires var first := if !c.asyncSave then [RunInline(id), Finish(id)] else if c.onFull.Sync? then [Refuse(id), Finish(id)] else [Refuse(id)];
      rest == first + [Lower(id), SetIdle(id)]
    ensures var sys' := Fold(Steps(c), sys, rest);
      && sys'.lock.None? && LedgerOf(sys') == Ledger(sys.pending - 1, sys.pending == 1, sys.queue,
           if c.asyncSave && !c.onFull.Sync? then sys.runs else sys.runs + [id])
  {
    var first := if !c.asyncSave then [RunInline(id), Finish(id)] else if c.onFull.Sync? then [Refuse(id), Finish(id)] else [Refuse(id)];
    EndRun(c, sys, id);
    var over := Fold(Steps(c), sys, first);
    var o :| At(over, id, Releasing(Caller, o));
    ReleaseRun(c, over, id, Caller, o);
    FoldConcat(Steps(c), sys, first, [Lower(id), SetIdle(id)]);
  }

  ghost function TurnOf(id: nat): seq<Event> {
    [FlushTake, Start(id), Finish(id)] + [Lower(id), SetIdle(id)]
  }

  lemma {:induction false} TurnTakes(c: Settings, sys: Sys, id: nat)
    requires sys.phase.Flushing? && sys.queue != [] && sys.queue[0] == id
    ensures var sys' := Fold(Steps(c), sys, [FlushTake, Start(id), Finish(id)]);
      && At(sys', id, Releasing(Flusher, Ran)) && sys'.lock == sys.lock
      && LedgerOf(sys') == Ledger(sys.pending, sys.idle, sys.queue[1..], sys.runs + [id])
  {
    var s1 := SaveNext(c, sys, FlushTake);
    assert s1 == Take(sys, Flusher).(phase := FlushBusy(id)) && At(s1, id, InHand(Flusher));
    var s2 := SaveNext(c, s1, Start(id));
    assert s2 == Run(s1, id, Flusher) && At(s2, id, Running(Flusher));
    ThreeSteps(Steps(c), sys, FlushTake, Start(id), Finish(id));
  }

  /** One turn of the flush loop. */
  lemma {:induction false} FlushTurn(c: Settings, sys: Sys)
    requires SaveInv(sys) && sys.phase.Flushing? && sys.lock.None? && sys.queue != []
    ensures var sys' := Fold(Steps(c), sys, TurnOf(sys.queue[0]));
      && LedgerOf(sys') == Ledger(Clamped(sys.pending - 1), sys.pending == 1, sys.queue[1..], sys.runs + [sys.queue[0]])
      && sys'.phase.Flushing? && sys'.lock.None?
  {
    var id := sys.queue[0];
    assert At(sys, id, Queued);
    UnfinishedClears(sys, id);
    TurnTakes(c, sys, id);
    ReleaseRun(c, Fold(Steps(c), sys, [FlushTake, Start(id), Finish(id)]), id, Flusher, Ran);
    FoldConcat(Steps(c), sys, [FlushTake, Start(id), Finish(id)], [Lower(id), SetIdle(id)]);
  }

  lemma {:induction false} FlushRest(b: Ledger)
    requires b.queue != []
    ensures FlushedTo(Ledger(Clamped(b.pending - 1), b.pending == 1, b.queue[1..], b.ran + [b.queue[0]])) == FlushedTo(b)
  {
    assert b.ran + [b.queue[0]] + b.queue[1..] == b.ran + b.queue;
  }

  lemma {:induction false} FlushEnds(c: Settings, sys: Sys)
    requires SaveInv(sys) && sys.phase.Flushing? && sys.lock.None? && sys.queue == []
    ensures var sys' := Fold(Steps(c), sys, [FlushEmpty]); LedgerOf(sys') == FlushedTo(LedgerOf(sys)) && sys'.phase == Down(true)
  {
    FoldCons(Steps(c), sys, FlushEmpty, []);
    assert [FlushEmpty] + [] == [FlushEmpty] && sys.runs + [] == sys.runs;
  }

  /** `CacheService.Flush` does what the flush of the machine does. */
  lemma {:induction false} FlushIsARun(c: Settings, sys: Sys) returns (events: seq<Event>)
    requires SaveInv(sys) && sys.phase.Flushing? && sys.lock.None?
    ensures var sys' := Fold(Steps(c), sys, events); LedgerOf(sys') == FlushedTo(LedgerOf(sys)) && sys'.phase == Down(true)
    ensures Ordinary(events, false)
    decreases |sys.queue|
  {
    hide SaveInv, SaveNext, Fold;
    if sys.queue == [] {
      events := [FlushEmpty];
      FlushEnds(c, sys);
    } else {
      var turn := TurnOf(sys.queue[0]);
      var next := Fold(Steps(c), sys, turn);
      FlushTurn(c, sys);
      RunKeepsInv(c, sys, turn);
      FlushRest(LedgerOf(sys));
      assert next.queue == sys.queue[1..];
      var rest := FlushIsARun(c, next);
      FoldConcat(Steps(c), sys, turn, rest);
      events := turn + rest;
    }
  }

  /** The service object, for one thread at a time. */
  class CacheService {
    const settings: Settings
    var pending: nat
    var idle: bool
    var queue: seq<nat>
    var ran: seq<nat>

    ghost function Book(): Ledger
      reads this
    {
      Ledger(pending, idle, queue, ran)
    }

    predicate Settled()
      reads this
    {
      idle <==> pending == 0
    }

    constructor (settings: Settings)
      ensures this.settings == settings && Book() == Ledger(0, true, [], [])
    {
      this.settings := settings;
      pending, idle, queue, ran := 0, true, [], [];
    }

    method ReserveVectorUpdate()
      modifies `pending, `idle
      ensures pending == old(pending) + 1 && !idle
    {
      pending := pending + 1;
      idle := false;
    }

    method ReleaseVectorUpdate()
      requires Settled()
      modifies `pending, `idle
      ensures Settled() && pending == Clamped(old(pending) - 1)
    {
      pending := Clamped(pending - 1);
      if pending == 0 {
        idle := true;
      }
    }

    method RunSaveInline(id: nat)
      requires Settled()
      modifies `pending, `idle, `ran
      ensures Settled() && pending == Clamped(old(pending) - 1) && ran == old(ran) + [id]
    {
      ran := ran + [id];
      ReleaseVectorUpdate();
    }

    /** Returns where a blocking put would wait for the worker. */
    method Save(id: nat) returns (r: Progress)
      requires Settled()
      modifies this
      ensures Settled() && r == ProgressOf(settings, old(Book())) && Book() == SavedTo(settings, old(Book()), id)
    {
      ReserveVectorUpdate();
      if settings.asyncSave {
        if !(settings.capacity > 0 && |queue| >= settings.capacity) {
          queue := queue + [id];
          return Enqueued;
        } else if settings.onFull.Block? {
          return Blocked;
        } else if settings.onFull.Sync? {
          RunSaveInline(id);
        } else {
          ReleaseVectorUpdate();
        }
      } else {
        ran := ran + [id];
        ReleaseVectorUpdate();
      }
      r := Ended;
    }

    /** Runs what is left in the queue, in order, and gives every slot back. */
    method Flush()
      requires Settled()
      modifies `pending, `idle, `queue, `ran
      ensures Settled() && Book() == FlushedTo(old(Book()))
    {
      ghost var n := |queue|;
      while queue != []
        invariant Settled() && |queue| <= n && pending == Clamped(old(pending) - (n - |queue|))
        invariant ran + queue == old(ran) + old(queue)
        decreases |queue|
      {
        var item := queue[0];
        ghost var before := ran + queue;
        queue := queue[1..];
        RunSaveInline(item);
        assert ran + queue == before;
      }
    }
  }
}
