# CacheSeek: reuse that behaves as a cold run

CacheSeek promises that a request resumed from its caches behaves exactly as if it had been computed
from scratch. This Dafny project models the code that carries the promise and proves it, together with
what the code around it is trusted for. `dafny verify dfyconfig.toml` checks everything.

## What is modelled

**Exact-prefix replay.** `Ring` is one layer's rolling key/value buffer with the write arithmetic of the
engine; `Window` is the adapter that rebuilds such a buffer at a resume point from cached chunks; `Cold` is
the run without any cache, for an arbitrary model, generator and key chain. `Forest` is the action trie as a
table of rows. `Replay` is the whole system as a state machine: sessions that look up, materialize layer by
layer, stash latents, burn draws and generate, a writer that publishes after its last layer, eviction,
snapshots and restarts, interleaved in any order. `Table` and `ReplayProof` carry its
invariant, `Progress` says what each step does to the rows and sessions it is about and that sessions, writer and
eviction get on, `Cramped` is the run that breaks replay where the geometry does not suit it. `Trie`, `Manager`,
`Snapshot` and `Binding` are the same operations as the program performs them, on mutable nodes
with parent links, child tables and blob handles, each proved to do what its counterpart on the table does.

**Keys and gate.** `Keys` is the length-prefixed hashing and the action chain; `BreakEven` the cost model
that decides which prefixes are worth fetching.

**Service.** `Service` is the vector-update barrier with the bounded save queue, its worker, the full-queue
policies and the shutdown flush, at the granularity of lock sections; `CacheService` is the object itself.

**Approximate cache.** `StepKeys` are the latent keys, `Approx` the save transaction over three stores whose
calls may fail before or after their effect, `Lookup` the lookup with its self-healing.

**Stores.** `Faiss` is the embedded vector index with its sidecar and two-file publication, `Tier` the tensor
store with its write queue and shape notes. `Machine`, `Options` and `Arith` are shared vocabulary.

A tensor is a sequence of abstract tokens, floats are reals, and a geometry `(L, S, c, ft)` gives buffer
frames, sink frames, frames per chunk and tokens per frame. Sessions of one root share noise, draws and
geometry, equal action keys mean equal control inputs, and manager and runtime share `L`, `S` and `c`.

## Where the code falls short of its description

* A resumed ring equals the cold ring if and only if a chunk fits beside the sink (`L - S >= c`) or the run
  still fits the buffer (`Window.WarmEqualsColdIff`). In a tighter geometry the cold run overwrites the top
  of the sink and a resume puts it back, and whole runs of the system replay exactly in all worlds of a
  geometry under the same condition and no other (`Cramped.ExactReplayIff`, `Cramped.CrampedReplayDiverges`).
* The full-length configuration keeps the first chunk and a million recent ones, so it covers a run exactly
  up to 1,000,001 chunks (`Window.FullConfigCoversIff`).
* A save that is not accepted restores all three stores if and only if neither its latent put nor its vector
  upsert raised after taking effect, where the rollback does not look, and every cleanup call it needed took
  effect (`Approx.AllOrNothingIff`; `Approx.BrokenSaves` has a save for each). The index then advertises steps
  nobody can serve if and only if the entry stayed and one of its latents was removed (`Approx.ServedAfterIff`).
* Stale index entries heal on every index this code builds, since new ids are hexadecimal
  (`Lookup.BuiltIndexSettles`). An entry that another writer stored under an id with a hyphen does not heal on
  an index that takes ids as they are, because lookups drop hyphens and then evict the shortened id; all
  requests settle if and only if no stale entry has such an id (`Lookup.HealsIff`, and `Lookup.ForeignEntryStays`
  for the entry `a-b`). On an index that takes both spellings for one point, as Qdrant does with
  UUIDs, all requests settle, whoever wrote the entries (`Lookup.EitherSettles`).
* Loading a snapshot is described as merging it into the forest. A loaded node replaces the one at its place
  without taking over its children, so a node survives if and only if it is a virtual root, in the snapshot, or
  starts with an action the snapshot does not have (`Snapshot.MergeKeepsIff`, `Snapshot.MergeLosesBelow`). The
  runtime only loads into an empty forest, where nothing is lost.
* The calibration text says a workload that never pays within the window gets `max_k + 1`; the loop goes on
  to `max_k`, and beyond it the gate trusts the first untried length (`BreakEven.GateIsExactIff`). Where
  recomputing is free, nothing pays and that length is admitted (`BreakEven.FreeRecomputeStillFetches`).
* A shutdown can leave saves in the queue, and then every later lookup waits until its timeout. Once the worker
  has exited, lookups can pass again, with puts that raise nothing but `Full`, if and only if they still can,
  saves are not queued at all, `shutdown` may be called again and flushes, or nothing is queued and no call is
  on its way into the queue (`Service.CanPassIff`). A first shutdown always leaves lookups free to pass if and
  only if saves are not queued, or flushing is configured, the join does not time out, and no save is in
  progress or arrives later (`Service.ShutdownDrainsIff`); `Service.UnflushedRun`, `Service.TimedOutRun` and
  `Service.LateRun` are the runs in which each of these fails.
* A published handle need not read back in another process: a layer does if and only if its notes were written
  (`Tier.ReadyReadsElsewhereIff`), and a pair whose second note is missing reads back with half of it absent
  (`Tier.HalfReadElsewhere`).

## Model

| member | source | states |
|---|---|---|
| `ReplayProof.ExactReplay` | cacheseek/reuse/exact_prefix/telefuser_lingbot.py:287-403 | in every run of sessions, writes, failures, evictions and restarts, each running session has delivered the cold latents, stashes the cold latents still due, and from the resume point on has the cold ring views, pointers, draws and next chunk |
| `Cramped.ExactReplayIff` | cacheseek/reuse/exact_prefix/telefuser_lingbot.py:287-403 | with settings computed from the geometry, every run of every world replays exactly if and only if a chunk fits beside the sink or no run of the allowed length rolls |
| `Cramped.CrampedReplayDiverges` | cacheseek/reuse/exact_prefix/telefuser_lingbot.py:163-167 | otherwise a run of two sessions in which the second, resumed one sees another ring than the cold run and would generate another latent |
| `ReplayProof.PublishedIsCold` | cacheseek/reuse/exact_prefix/manager.py:166-220 | every published node stores exactly the KV and latent a cold run along its path computes, and all nodes above it exist |
| `ReplayProof.InFlightIsProtected` | cacheseek/reuse/exact_prefix/manager.py:146-163 | reference counts equal the number of materializations holding a node, eviction refuses every held node, and no layer read of a seeding session misses a chunk |
| `ReplayProof.SinksAreNeverEvicted` | cacheseek/reuse/exact_prefix/manager.py:186-187 | in every run exactly the nodes of the sink chunks are pinned, also after a restart, and no eviction takes them |
| `ReplayProof.NextKeeps` | cacheseek/reuse/exact_prefix/manager.py:120-220 | every step of the system keeps the invariant relating forest, store, pending writes and sessions |
| `Progress.EvictsIff` | cacheseek/reuse/exact_prefix/manager.py:209-220 | in every run eviction drops a blob if and only if its node is not pinned and nobody holds it, touches no other row, and frees at most that node's layers |
| `Progress.IdleBlobsAreEvicted` | cacheseek/reuse/exact_prefix/manager.py:209-220 | beyond the sink a blob that no materialization in flight needs can always be evicted |
| `Progress.LookupGate` | cacheseek/reuse/exact_prefix/manager.py:130-138 | a lookup hints at the greatest length whose whole path is published if it is at least one and at least the break-even length, and starts from the first chunk otherwise |
| `Progress.LookupResumesIfItPays` | cacheseek/reuse/exact_prefix/manager.py:130-138 | with a calibrated break-even length and a high enough limit, a lookup resumes exactly the prefixes that pay |
| `Progress.MaterializeGate` | cacheseek/reuse/exact_prefix/manager.py:146-150 | materialization begins if and only if each node of the window is published, and then adds one reference to each of them and to no other |
| `Progress.SeedAdvances` | cacheseek/reuse/exact_prefix/manager.py:152-155 | in every run seeding the next layer of a materialization in flight works |
| `Progress.ResumeEnds` | cacheseek/reuse/exact_prefix/telefuser_lingbot.py:287-365 | after the last layer the session is resumed at its chunk with the cold state |
| `Progress.FastForwards` | cacheseek/reuse/exact_prefix/manager.py:120-163 | from a lookup whose longest published prefix passes the gate, a session's own steps resume it right behind that prefix, on the cold run |
| `Progress.DeliverAdvances` | cacheseek/reuse/exact_prefix/telefuser_lingbot.py:367-403 | in every run the chunk that is due can be handed out or generated |
| `Progress.GeneratedIsWritten` | cacheseek/reuse/exact_prefix/telefuser_lingbot.py:367-403 | in every run a generated chunk puts its node into the tree, pinned exactly as a sink, with a new blob that is published at once only if the store writes at once, and its cold latent and KV into the store or its queue; no other node changes |
| `Progress.GeneratedIsFound` | cacheseek/reuse/exact_prefix/manager.py:166-206 | in every run, once the chunk behind a published prefix is generated, the writer alone can make the prefix with that chunk published |
| `Progress.StashedIsNotWritten` | cacheseek/reuse/exact_prefix/telefuser_lingbot.py:287-365 | a stashed chunk is handed out and nothing is written |
| `Progress.Completes` | cacheseek/reuse/exact_prefix/telefuser_lingbot.py:287-403 | in every run a running session can deliver all its chunks, and they are the cold run's latents |
| `Progress.WriterPublishes` | cacheseek/reuse/exact_prefix/manager.py:185-206 | in every run the writer alone can finish all writes, and then publishes exactly the blobs a write was due for |
| `Progress.FailedWriteIsSkipped` | cacheseek/stores/tier.py:183-193 | a write that fails publishes nothing, and the writer can still publish all the others |
| `Progress.RestartRemembers` | cacheseek/reuse/exact_prefix/trie.py:181-220 | a new process answers every lookup as the forest did when it was saved |
| `Progress.SnapshotStays` | cacheseek/reuse/exact_prefix/trie.py:128-179 | nothing but saving changes what the next process will load |
| `Progress.FailGivesBack` | cacheseek/reuse/exact_prefix/manager.py:151-163 | a failed session is gone and each reference count is that of the others |
| `ReplayProof.TailIsChunk` | cacheseek/reuse/exact_prefix/telefuser_lingbot.py:373-386 | the tail slices ingested after a chunk are that chunk's clean KV in every layer |
| `Cold.ColdOracleIsCold` | tests/test_world_kv_telefuser_binding.py:113-130 | from any state the model cannot tell from the cold run's, it computes the cold run's next chunk, so the value is a function of the key |
| `Cold.RollingFitsIff` | cacheseek/reuse/exact_prefix/telefuser_lingbot.py:61-75 | settings computed from the geometry itself suit every run, the hypothesis of the replay theorems, if and only if a chunk fits beside the sink or no run fills the buffer |
| `Cold.FullFitsIff` | cacheseek/reuse/exact_prefix/telefuser_lingbot.py:52-58 | the full-length settings suit every run of a buffer that never fills if and only if no run exceeds 1,000,001 chunks |
| `Cold.StepTracks` | tests/test_world_kv_telefuser_binding.py:143-157 | generating one chunk keeps an engine indistinguishable from the cold run |
| `Cold.BurnAligns` | cacheseek/reuse/exact_prefix/telefuser_lingbot.py:345-360 | after burning the skipped chunks' draws the generator is where the cold run's is |
| `Cold.RedrawCount` | tests/test_world_kv_telefuser_binding.py:113-130 | denoising a chunk draws once after each timestep that has a successor |
| `Cold.SeedTracks` | cacheseek/reuse/exact_prefix/manager.py:151-156 | the manager's window can seed every layer, and what it seeds is the run |
| `Ring.KVLayer.KvWrite` | tests/test_world_kv_telefuser_binding.py:87-110 | the in-place rolling write performs the specified write on both buffers and both pointers |
| `Ring.RewriteReplaces` | tests/test_world_kv_telefuser_binding.py:87-110 | rewriting a chunk at the same start leaves the ring as if only the second write had happened |
| `Ring.OnlyLastPassRemains` | cacheseek/reuse/exact_prefix/telefuser_lingbot.py:373-386 | after any number of rewrites only the last pass is left, and it is the physical tail |
| `Ring.WriteKeepsLayout` | tests/test_world_kv_telefuser_binding.py:87-110 | a chunk write keeps the sink-then-most-recent layout of the run in the buffer |
| `Ring.ColdRingHolds` | tests/test_world_kv_telefuser_binding.py:87-110 | after any number of chunks the slots below the fill hold exactly the frames of the layout |
| `Ring.ColdTail` | cacheseek/reuse/exact_prefix/telefuser_lingbot.py:376-378 | the newest chunk is always the physical tail, even where it has overwritten the sink |
| `Ring.SameHistorySameView` | cacheseek/reuse/exact_prefix/telefuser_lingbot.py:163-167 | two buffers that hold the same run look the same up to the fill |
| `Window.WindowSufficient` | cacheseek/reuse/exact_prefix/manager.py:223-239 | with the rolling configuration the window is strictly increasing, bounded, ends at the node and has the chunk of every frame the ring needs, so the missing-chunk error is unreachable |
| `Window.RollingConfigIsLeast` | cacheseek/reuse/exact_prefix/telefuser_lingbot.py:61-75 | a configuration covers every length if and only if its window and its sink are at least those of the rolling configuration |
| `Window.FullConfigCoversIff` | cacheseek/reuse/exact_prefix/telefuser_lingbot.py:52-58 | the full-length configuration keeps the first chunk and the last million, and covers an unrolled run if and only if it has at most 1,000,001 chunks |
| `Window.RingKVWindow.SeedLayer` | cacheseek/reuse/exact_prefix/telefuser_lingbot.py:188-217 | seeding succeeds exactly when every needed chunk was handed over, and then both buffers hold each frame's slice of its chunk |
| `Window.RingKVWindow.SetResumeDepth` | cacheseek/reuse/exact_prefix/telefuser_lingbot.py:219-226 | both pointers of every layer move to the resume point |
| `Window.SeededBufHolds` | cacheseek/reuse/exact_prefix/telefuser_lingbot.py:163-169 | the seeded slots hold the layout of the run the chunks came from |
| `Window.WarmEqualsCold` | cacheseek/reuse/exact_prefix/telefuser_lingbot.py:176-226 | the rebuilt ring equals the ring of the run in every slot below the fill and in both pointers |
| `Window.WarmEqualsColdIff` | cacheseek/reuse/exact_prefix/telefuser_lingbot.py:163-167 | over all runs of a length, rebuilt and cold rings agree if and only if a chunk fits beside the sink or the run has not rolled |
| `Window.CrampedGeometryDiverges` | tests/test_world_kv_telefuser_binding.py:87-110 | in a tighter geometry a run with distinct tokens shows the difference |
| `Forest.MatchIsLongest` | cacheseek/reuse/exact_prefix/trie.py:91-102 | the descent returns exactly the greatest length whose whole path is published |
| `Forest.EvictTruncates` | cacheseek/reuse/exact_prefix/manager.py:209-220 | evicting a node cuts the matches through it to right above it and leaves every other match alone |
| `Forest.RepublishRestores` | cacheseek/reuse/exact_prefix/manager.py:185-206 | writing and publishing the evicted node again restores every match |
| `Trie.NamespaceForest.Lookup` | cacheseek/reuse/exact_prefix/trie.py:91-102 | the loop over child tables returns that length and the node at it |
| `Trie.NamespaceForest.GetOrCreateNamespace` | cacheseek/reuse/exact_prefix/trie.py:67-89 | adds the pinned virtual root once and changes nothing else |
| `Trie.NamespaceForest.Commit` | cacheseek/reuse/exact_prefix/trie.py:104-125 | returns the existing child untouched or adds one empty child |
| `Manager.WindowPath` | cacheseek/reuse/exact_prefix/manager.py:223-239 | the two parent walks return the nodes at the window's depths, oldest first, without repeats |
| `Manager.IngestChunk` | cacheseek/reuse/exact_prefix/manager.py:166-206 | the node gets its pin, skeleton and a new unpublished handle, and nothing else changes |
| `Manager.PublishHandle` | cacheseek/reuse/exact_prefix/manager.py:202-205 | the writer's callback publishes only the node that still carries this handle |
| `Manager.EvictBlob` | cacheseek/reuse/exact_prefix/manager.py:209-220 | drops the blob and returns true exactly when the node is unpinned, its count is at most zero and it has one |
| `Manager.Materialize` | cacheseek/reuse/exact_prefix/manager.py:140-163 | an incomplete window touches nothing; otherwise it succeeds exactly when every layer read works and the chunks suffice, then all layers are seeded from the stored chunks; after a failed read or a missing chunk too, reference counts and the tree are as before |
| `Manager.CompleteIsHoldable` | cacheseek/reuse/exact_prefix/manager.py:147-148 | the completeness check is the guard of the atomic step on the table |
| `Manager.MaterializedRing` | cacheseek/reuse/exact_prefix/manager.py:151-156 | a materialized layer is the ring the steps on the table build |
| `Snapshot.SnapshotTree` | cacheseek/reuse/exact_prefix/trie.py:139-170 | the stack walk terminates and lists every real node of a namespace exactly once, with only published blobs |
| `Snapshot.Save` | cacheseek/reuse/exact_prefix/trie.py:128-179 | one such record for every namespace |
| `Snapshot.WalkStep` | cacheseek/reuse/exact_prefix/trie.py:144-170 | popping a node and pushing its children visits nothing twice and forgets nothing |
| `Snapshot.SortByDepth` | cacheseek/reuse/exact_prefix/trie.py:192-194 | sorts by depth and keeps the same nodes |
| `Snapshot.ParentLoaded` | cacheseek/reuse/exact_prefix/trie.py:195-198 | in depth order every parent is loaded before its children, so nothing is skipped |
| `Snapshot.Load` | cacheseek/reuse/exact_prefix/trie.py:181-220 | the forest becomes the merge of what it held with the snapshot, whatever it held before, and the result is the number of real nodes loaded |
| `Snapshot.LoadNode` | cacheseek/reuse/exact_prefix/trie.py:200-218 | one loaded node takes its place under its parent, and the tree that hung there goes |
| `Snapshot.MergeIntoEmpty` | cacheseek/reuse/exact_prefix/trie.py:181-220 | in an empty forest the merge is the snapshot: the same nodes, pins and skeletons, exactly the published blobs |
| `Snapshot.MergedMatch` | cacheseek/reuse/exact_prefix/trie.py:181-220 | after loading, requests whose first action the snapshot has are answered as the saved forest did, all others as before |
| `Snapshot.MergeKeepsIff` | cacheseek/reuse/exact_prefix/trie.py:181-220 | a node of the running forest survives loading if and only if it is a virtual root, is in the snapshot, or starts with an action the snapshot does not have |
| `Snapshot.MergeLosesBelow` | cacheseek/reuse/exact_prefix/trie.py:215-217 | loading a published parent makes its published child of the running forest unreachable |
| `Snapshot.RoundTrip` | cacheseek/reuse/exact_prefix/trie.py:128-220 | the rebuilt forest answers every lookup as the saved one did |
| `Snapshot.RootsStayPlain` | cacheseek/reuse/exact_prefix/trie.py:82-88 | no operation gives a virtual root anything a snapshot would lose |
| `Binding.Runtime.BurnDraws` | cacheseek/reuse/exact_prefix/telefuser_lingbot.py:349-360 | after the nested loops the generator is where denoising the skipped chunks leaves it, for any number of timesteps and chunks |
| `Binding.Runtime.StashLatents` | cacheseek/reuse/exact_prefix/telefuser_lingbot.py:332-343 | the parent walk stashes the latent of every skipped chunk under its own index |
| `Binding.Runtime.ChunkPayload` | cacheseek/reuse/exact_prefix/telefuser_lingbot.py:373-386 | the payload is the tail of every layer below its fill |
| `Keys.EncodeInjective` | cacheseek/reuse/exact_prefix/keys.py:21-27 | two lists of byte strings encode alike if and only if they are equal |
| `Keys.Sha256` | cacheseek/reuse/exact_prefix/keys.py:21-27 | hashes that encoding, and fails exactly when a part's length does not fit eight bytes |
| `Keys.BuildActionChain` | cacheseek/reuse/exact_prefix/keys.py:63-73 | returns the chain, or fails when an action is too long |
| `Keys.ChainEntry` | cacheseek/reuse/exact_prefix/keys.py:54-73 | entry i is the key of the path with i + 1 actions |
| `Keys.ChainPrefix` | cacheseek/reuse/exact_prefix/keys.py:63-73 | the chain of a prefix is the prefix of the chain |
| `Keys.KeysAreUnique` | cacheseek/reuse/exact_prefix/keys.py:49-73 | without a collision among the messages hashed, two keys are equal if and only if world, depth and action prefix are |
| `BreakEven.CalibrateBreakEvenK` | cacheseek/reuse/exact_prefix/config.py:82-99 | returns the least paying length up to the limit, or the limit plus one when none pays |
| `BreakEven.PaysIff` | cacheseek/reuse/exact_prefix/config.py:97 | up to the window a prefix pays if and only if the saving per chunk times its length exceeds the overhead, beyond it if and only if recomputing it costs more than the overhead and fetching the window |
| `BreakEven.PaysUpward` | cacheseek/reuse/exact_prefix/config.py:92-98 | with costs that are not negative, paying lengths are upward closed |
| `BreakEven.GateIsExactIff` | cacheseek/reuse/exact_prefix/manager.py:133-134 | the gate admits exactly the paying prefixes if and only if the first length beyond the limit, which calibration does not try, pays |
| `BreakEven.FreeRecomputeStillFetches` | cacheseek/reuse/exact_prefix/config.py:92-99 | where recomputing costs nothing no prefix pays, the calibration gives the limit plus one, and the gate admits that length |
| `Service.BarrierIsSafe` | cacheseek/service/lifecycle.py:324-375 | whenever a lookup can leave the barrier, no save that reserved its slot is unfinished |
| `Service.EventIsExact` | cacheseek/service/lifecycle.py:313-322 | outside the lock sections the event is set exactly when no save holds a slot |
| `Service.ClampNeverFires` | cacheseek/service/lifecycle.py:318-322 | releasing always has something to release |
| `Service.CounterIsExact` | cacheseek/service/lifecycle.py:227-322 | in every run the counter equals the number of saves between reserve and release |
| `Service.InvKept` | cacheseek/service/lifecycle.py:227-375 | each of the interleaved steps keeps counter, lock, queue, runs, order, worker and flush consistent |
| `Service.SavesAreAccountedFor` | cacheseek/service/lifecycle.py:239-299 | each save runs at most once, queued saves run first in first out, and a call that is over ran or was turned away |
| `Service.QueueIsBounded` | cacheseek/service/lifecycle.py:239-262 | the queue never holds more than its capacity |
| `Service.FlushDrains` | cacheseek/service/lifecycle.py:286-299 | a flush that ends with no caller in progress leaves the queue empty, the counter at zero and the event set |
| `Service.WorkerDrains` | cacheseek/service/lifecycle.py:390-403 | from every reachable state with the service up, the worker alone can run all queued saves in the order they were put, and with no call in progress the queue is then empty, the counter zero and the event set |
| `Service.OneSaveRuns` | cacheseek/service/lifecycle.py:227-322 | a run of one save from its call to its end |
| `Service.WorkerStops` | cacheseek/service/lifecycle.py:390-403 | a worker told to stop finishes the save it is at and exits, with the queue as it was |
| `Service.PhasesFollow` | cacheseek/service/lifecycle.py:276-299 | the phases of a shutdown follow one another as they should: it waits for the worker, flushes exactly if it may and the worker is gone, and calls itself flushed only when the queue is empty |
| `Service.FailedPutReleases` | cacheseek/service/lifecycle.py:264-268 | a put that raises something else than `Full` gives its slot back |
| `Service.StrandedForEver` | cacheseek/service/lifecycle.py:276-299 | once the worker is gone and a shutdown is over, a queued save stays queued until `shutdown` is called again with a flush |
| `Service.StrandedBlocks` | cacheseek/service/lifecycle.py:313-371 | and until then the event is never set |
| `Service.QuietIsExact` | cacheseek/service/lifecycle.py:313-322 | with the worker gone, shutdown over and no caller left, the event is set if and only if the queue is empty |
| `Service.CanPassIff` | cacheseek/service/lifecycle.py:276-371 | with the worker gone and a shutdown over, some continuation in which puts raise nothing but `Full` sets the event if and only if it is set, saves are not queued, another shutdown is allowed and flushes, or nothing is queued and no call is between reserving its slot and the queue |
| `Service.FlushAgain` | cacheseek/service/lifecycle.py:283-299 | a second shutdown with a flush joins the dead worker at once and gives back every queued slot |
| `Service.OrderlyDrains` | cacheseek/service/lifecycle.py:276-299 | a flushing shutdown whose join succeeds, with no save in progress or later, ends with the event set |
| `Service.ShutdownDrainsIff` | cacheseek/service/lifecycle.py:276-299 | every shutdown leaves the event set if and only if saves are synchronous, or flushing is on and neither a join timeout nor a save in progress or later can happen |
| `Service.UnflushedRun` | cacheseek/service/lifecycle.py:276-299 | a run of one save and a shutdown without flush that strands it |
| `Service.TimedOutRun` | cacheseek/service/lifecycle.py:285-291 | a run in which the join times out and the save stays behind, whatever the flush setting |
| `Service.LateRun` | cacheseek/service/lifecycle.py:239-247 | a run in which a save enqueued after a flushing shutdown stays behind |
| `Service.CacheService.Save` | cacheseek/service/lifecycle.py:227-274 | queue, counter, event and runs after one call, which enqueued, ended or waits at a full queue, under each policy |
| `Service.SaveIsARun` | cacheseek/service/lifecycle.py:227-274 | what such a call leaves is what its lock sections in a row leave in the interleaved machine |
| `Service.CacheService.ReleaseVectorUpdate` | cacheseek/service/lifecycle.py:318-322 | lowers the counter and sets the event at zero |
| `Service.CacheService.Flush` | cacheseek/service/lifecycle.py:293-299 | runs the whole queue in order and gives every slot back |
| `Service.FlushIsARun` | cacheseek/service/lifecycle.py:293-299 | what the flush leaves is what its turns in a row leave in the interleaved machine, which then is down |
| `StepKeys.StepRoundTrip` | cacheseek/reuse/approximate/strategy.py:551-558 | splitting a latent key at its last mark recovers the step, whatever the id contains |
| `StepKeys.StepKeyInjective` | cacheseek/reuse/approximate/payload.py:85-101 | no two (id, step) pairs share a key |
| `Approx.ValidSteps` | cacheseek/reuse/approximate/strategy.py:527-535 | the requested steps that have a latent, each once, in order |
| `Approx.Strategy.WriteLatents` | cacheseek/reuse/approximate/strategy.py:550-558 | stops at the first failing put, reports the steps before it, and keeps every index entry servable |
| `Approx.Strategy.RemoveSavedLatents` | cacheseek/reuse/approximate/strategy.py:723-739 | removes every key whose removal takes effect and fails when any removal raised |
| `Approx.Strategy.RollbackCacheEntry` | cacheseek/reuse/approximate/strategy.py:741-780 | undoes vector, metadata and latents in an order that keeps every index entry servable |
| `Approx.Strategy.Publish` | cacheseek/reuse/approximate/strategy.py:612-678 | result and stores of the guarded part, however its calls and those of the rollback end |
| `Approx.Strategy.Save` | cacheseek/reuse/approximate/strategy.py:493-679 | succeeds exactly when everything worked, ends quietly exactly when it declines, leaves the stated aftermath however its calls end, and each state on the way served every index entry exactly when the last one does |
| `Approx.AllOrNothingIff` | cacheseek/reuse/approximate/strategy.py:559-678 | a save that is not accepted restores all three stores if and only if neither its put nor its upsert raised after taking effect and each cleanup call it needed took effect |
| `Approx.AcceptedIsComplete` | cacheseek/reuse/approximate/strategy.py:493-679 | an accepted save leaves exactly the latents, the index entry and the metadata of its donor |
| `Approx.BrokenSaves` | cacheseek/reuse/approximate/strategy.py:639-780 | three saves of one step that leave a latent, or an entry without one: a put, an upsert that took effect before raising, and a registration and the vector deletion after it both raising |
| `Approx.AftermathTouches` | cacheseek/reuse/approximate/strategy.py:493-780 | whatever fails, no rows but those of the new id change |
| `Approx.ServedAfterIff` | cacheseek/reuse/approximate/strategy.py:639-780 | after a save the index advertises a step nobody can serve if and only if the entry of a broken save stayed and one of its latents was removed |
| `Approx.DirtyUpsertLeavesStale` | cacheseek/reuse/approximate/strategy.py:639-645 | so after an upsert that took effect before raising, as soon as one latent was removed |
| `Lookup.SelectK` | cacheseek/reuse/approximate/strategy.py:816-835 | the deepest tier whose score is reached, none when there is no such tier |
| `Lookup.Cap` | cacheseek/reuse/approximate/strategy.py:857-864 | a step is within the result exactly when it is within the configured limit, or 5 if that is zero, and no deeper than the deepest tier its rerank score reaches |
| `Lookup.LargestStep` | cacheseek/reuse/approximate/strategy.py:865-866 | the largest saved step in the allowed range, zero when there is none |
| `Lookup.Gate` | cacheseek/reuse/approximate/strategy.py:298-312 | a donor is chosen exactly when it clears the threshold and has an allowed step |
| `Lookup.TakesTheMostSimilar` | cacheseek/reuse/approximate/strategy.py:295-312 | without rerank scores the first result is taken if and only if it is similar enough and has an allowed step |
| `Lookup.TakesTheBestScored` | cacheseek/reuse/approximate/strategy.py:313-372 | with them the first of the best scored results is taken if and only if its score reaches the configured threshold, or 0.80 if that is zero, and it has an allowed step; anything but one score per result is an error |
| `Lookup.LookUp` | cacheseek/reuse/approximate/strategy.py:228-491 | result and stores after a lookup whose eviction calls may fail |
| `Lookup.AnswersIff` | cacheseek/reuse/approximate/strategy.py:228-455 | a request resumes exactly when its donor clears the threshold and the latent of the largest permitted step is there, finds the entry stale when it is not, raises when the reranker fails it or the latent cannot be read, and misses otherwise |
| `Lookup.SavedIsServed` | cacheseek/reuse/approximate/strategy.py:228-679 | after an accepted save, a request that picks the donor gets the very latent that was saved for the step it resumes at |
| `Lookup.OneDonor` | cacheseek/reuse/approximate/strategy.py:228-679 | one donor saved into empty stores, and the request that resumes from it |
| `Lookup.LazyEvict` | cacheseek/reuse/approximate/strategy.py:681-721 | removes the entry from vector index and metadata, each as far as its call takes effect |
| `Lookup.HitIsTheDeepestAllowed` | cacheseek/reuse/approximate/strategy.py:415-491 | a hit carries the stored latent of the largest step its donor saved within the cap |
| `Lookup.StaleEvictsIff` | cacheseek/reuse/approximate/strategy.py:441-454 | a stale match removes the entry it matched if and only if that entry's id has no hyphen |
| `Lookup.RetriesSettle` | cacheseek/reuse/approximate/strategy.py:441-454 | when evictions work and no stale entry has a hyphen in its id, repeating a lookup reaches a hit, an error or a genuine miss within as many tries as there are stale entries |
| `Lookup.HistoryIsNormalized` | cacheseek/reuse/approximate/strategy.py:169-170 | saves under generated ids, lookups, and losses of latents or entries, in any number and order and with calls that end as they like, leave no id with a hyphen in an index that began empty |
| `Lookup.BuiltIndexSettles` | cacheseek/reuse/approximate/strategy.py:441-454 | so after every such history repeated lookups settle |
| `Lookup.HyphenNeverHeals` | cacheseek/reuse/approximate/strategy.py:172-177 | on an index that takes ids as they are, no number of lookups drops an entry stored with a hyphen or makes a stale one servable |
| `Lookup.HealsIff` | cacheseek/reuse/approximate/strategy.py:441-454 | all requests settle if and only if no stale entry has a hyphen in its id |
| `Lookup.ForeignEntryStays` | cacheseek/reuse/approximate/strategy.py:172-177 | an entry `a-b` of another writer, its latent gone, is matched and evicted under `ab` for ever |
| `Lookup.EitherSettles` | cacheseek/backends/vector/qdrant.py:513-524 | on an index for which an id and its shortened form are one point, as they are for UUIDs, all requests settle |
| `Faiss.UpsertRefines` | cacheseek/backends/vector/faiss.py:141-164 | an upsert is a map update and keeps names, ids and payloads in agreement |
| `Faiss.DeleteRefines` | cacheseek/backends/vector/faiss.py:176-187 | a deletion is a map difference |
| `Faiss.SearchAgrees` | cacheseek/backends/vector/faiss.py:86-110 | a point missing from the answers scores below the threshold or no better than each answer of a full list |
| `Faiss.AnswersAreSound` | cacheseek/backends/vector/faiss.py:86-110 | each answer is a known point with its own vector's score and its own payload, also after a torn write |
| `Faiss.AnswersAreSorted` | cacheseek/backends/vector/faiss.py:86-110 | answers come best first and no point twice |
| `Faiss.TopExists` | cacheseek/backends/vector/faiss.py:86-110 | for every index, query and limit there is an answer of the index library as its contract describes it |
| `Faiss.TornUpsert` | cacheseek/backends/vector/faiss.py:333-341 | a reload after a torn upsert knows the same points, and at most the upserted point's vector differs |
| `Faiss.TornDelete` | cacheseek/backends/vector/faiss.py:333-341 | a reload after a torn deletion knows exactly the other points |
| `Faiss.RunRefines` | cacheseek/backends/vector/faiss.py:112-187 | every run of upserts, deletions, searches and new processes, with writes that may fail, is a run of two plain dictionaries, the one in use and the one on disk |
| `Faiss.RunIsCoherent` | cacheseek/backends/vector/faiss.py:112-187 | and what it loads keeps names, ids and payloads in agreement |
| `Faiss.TornUpsertReopens` | cacheseek/backends/vector/faiss.py:333-341 | when the process dies between the two files of an upsert, the next one finds the points as they were but for the upserted point's vector |
| `Faiss.TornDeleteReopens` | cacheseek/backends/vector/faiss.py:333-341 | after a deletion cut off like that it finds exactly the other points |
| `Faiss.FaissStore.Upsert` | cacheseek/backends/vector/faiss.py:112-164 | memory and files after an upsert, with creation, dimension check, failed and torn writes |
| `Faiss.FaissStore.Delete` | cacheseek/backends/vector/faiss.py:166-187 | memory and files after a deletion |
| `Faiss.FaissStore.Search` | cacheseek/backends/vector/faiss.py:48-110 | turns the index library's positions into the answers |
| `Tier.KeysApart` | cacheseek/stores/tier.py:146-156 | layers never share a key, and a note never takes a layer's key |
| `Tier.ReadyReadsBack` | cacheseek/stores/tier.py:183-193 | in every run of queue and worker, a published handle reads back layer by layer as it was put |
| `Tier.FailedStaysInvisible` | cacheseek/stores/tier.py:190-193 | a failed write is never published |
| `Tier.RaisedStaysInvisible` | cacheseek/stores/tier.py:183-193 | a write that raises fails its handle for good and leaves the worker free |
| `Tier.PutIsPublished` | cacheseek/stores/tier.py:183-222 | in every run a put that finds room is published by the worker alone, which settles all the others too and brings the queue's own counter to zero |
| `Tier.QueueIsBounded` | cacheseek/stores/tier.py:139-145 | the queue never holds more than its capacity |
| `Tier.FlushedIsSettled` | cacheseek/stores/tier.py:195-200 | when the queue has been joined nothing is pending and every handle is ready or failed |
| `Tier.SecondStoreReadsIff` | cacheseek/stores/tier.py:151-170 | another process reads a layer if and only if its notes were written |
| `Tier.ReadyReadsElsewhereIff` | cacheseek/stores/tier.py:151-193 | in every run, a store opened on the same files reads a layer of a published handle as it was put if and only if the notes of that layer were written |
| `Tier.HalfReadElsewhere` | cacheseek/stores/tier.py:151-230 | a run of one put with its second note lost: the handle is published, this process reads the pair, another reads half of it |
| `Tier.TensorStoreTierStore.DoPutPayload` | cacheseek/stores/tier.py:172-181 | writes every tensor of a payload with its spec, after which each of its layers reads back as put |
| `Tier.TensorStoreTierStore.ReadLayer` | cacheseek/stores/tier.py:224-230 | reads the pair first, then the single tensor, and only adds to the remembered specs |

## Left out

- ReplayProof.ExactReplay: the store's write queue is unbounded here, which allows every interleaving a bounded one does; completeness check and reference increments of a materialization are one step.
- ReplayProof.ExactReplay: the denoiser returns a chunk's clean KV at once; the earlier passes over the same slots are covered by `Ring.OnlyLastPassRemains`.
- ReplayProof.ExactReplay: snapshots and restarts happen only with a store that keeps a chunk when its node is evicted; with one that frees it, a snapshot could name chunks that are gone.
- Snapshot.SortByDepth: by insertion instead of the library's sort; the order among equal depths is not used.
- Manager.Materialize: the layer count stored with a blob is taken to be the runtime's number of layers, as every ingest makes it.
- Keys.KeysAreUnique: JSON canonicalisation, the fields of the configuration blob and the derived seed are left out; the parts are byte strings.
- Service.BarrierIsSafe: a lookup that gives up at its timeout promises nothing, and the fallback thread for a suspended coroutine, which releases the barrier after 30 seconds, is not part of this model.
- Service.CanPassIff: calls of `shutdown` follow one another; two that overlap, each with its own flush, are not modelled.
- Service.CacheService.Save: one thread at a time, so a blocking put on a full queue returns as waiting; what the worker then does is part of the interleaved machine.
- Approx.Strategy.Save: ids are fresh, as random ones are taken to be; creating the collection has no effect on the three stores; size accounting, audit records and the error texts are left out.
- Lookup.LookUp: search and reranking are arbitrary functions, and a search or an encoder that raises leaves everything as it was; recording scores, accesses and hit pairs is left out.
- Faiss.FaissStore.Search: the index library's ranking is its stated contract; several collections, file parsing errors and 32-bit rounding are left out.
- Faiss.TornUpsertReopens: stops at the reload, because a further new point can then reuse the torn id; a second file that fails while the process lives on is not followed either.
- Tier.ReadyReadsBack: every put of a locator carries the same payload, as content addresses promise.
- The read-only and write-only modes return before anything modelled here happens.
- Quantising control tensors into action keys: equal keys are taken to mean equal controls.
- Clocks, last-access times, tiers, byte counts, device moves and dtype casts: they change no modelled value.
- Fluxon, Qdrant, the encoders and the TeleFuser engine are foreign code.
