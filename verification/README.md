# Verified models of qorme

These modules model the parts of qorme whose correctness depends on state, order and interleaving,
and prove what they promise. Code that changes objects in place is a class whose methods are proved
equal to a step function; the step functions are then studied over whole runs. Code that is a
protocol between threads is a step relation with program counters.

| module | what it models |
|---|---|
| `IngestQueue` | the bounded FIFO and the deadline queue of the ingest queue, one call at a time |
| `IngestRuns` | runs of that queue: producers interleaved with the worker's single accesses to it |
| `IngestThreads` | its threads: the lazily started worker, the condition variable, the stop event |
| `IngestShutdown` | what a close leaves behind, by the moment at which it sets the stop event |
| `IngestStart` | the start of the worker, and the client that waits for it in vain |
| `MlMerge` | the timestamped merge of model updates |
| `SseClient` | the server-sent-events client (section 9.2 of the WHATWG HTML Living Standard) driving the model replica |
| `SseEndings` | how such a run ends, told from the server's answers alone |
| `MlClaim` | the lock-free claim of the connecting state, and the marks left by `close()` and the callbacks |
| `BitSets` | the 64-bit `BitSet` and the decoding of class names |
| `CodeCaches` | the sorted cache of code objects in the same C file |
| `JoinedInstances` | the walk over joined Django instances |
| `RelationPaths` | paths of relations as strings |
| `PrefetchWorklist` | the worklist that turns predictions into prefetch paths |
| `Patching` | `Wrapper`: undoable patching of attributes |
| `CursorFetch` | `CursorProxy` and the result hash: fetch intervals |

Results that differ from what the source's comments or names suggest; the models follow the code:

- `close()` drains both queues only when they fit into the FIFO together (`DrainsBothExactlyWhen`) and the
  stop is set before the worker reads it for its flush: then it does, short of an exception, a timed-out
  join or a full FIFO (`CloseInTimeDrains`); set any later, it leaves items behind (`StopSetLateLeaves`). A
  close that times out while the worker is neither between the two reads of the stop event in one test nor on
  its way out leaves a worker that nothing but a put-back that raises stops any more (`TimedOutCloseForgets`).
- A client can wait for ever, with the lock held, for the worker it has started (`StuckForGood`), exactly when
  the delayed queue is bounded (`StuckPossibleExactlyWhen`): another client takes the slot of the entry that the
  worker holds, the put-back raises in the worker's first move, and the worker is gone (`ClientGetsStuck`).
- Accepted delayed items can be lost: when a producer takes the slot of the entry that the worker holds, its
  put-back raises (`SomeRunLoses`, `AtomicMovesLoseNothing`, `LossImpossibleExactlyWhen`).
- The dead state is called terminal, but a connect or disconnect callback revives it until the exit of the SSE task
  (`DeadUntilRevived`, `FinishedRunIsDead`).
- `_mark_connecting` says that one thread wins; two can when the store is closed between one thread's
  test and its claim (`TwoStarts`), and four in all, but never more (`FourStarts`, `AtMostFourStarts`).
- "Handles out-of-order delivery" holds for two updates, whatever is stored, exactly under the condition of
  `OrderIrrelevantExactlyWhen`: an older model that arrives late is skipped with all its samples, stable ones
  (`LateModelIsLost`) and removals (`LateRemovalIsLost`) included, and a removal holds off nothing
  (`ReorderingDiverges`). Redelivery may revive a removed model when hashes repeat (`RedeliveryCanRevive`).
- With a dict of relations the walk can miss a joined instance (`DictCanMiss`): one under two relations is
  entered through the first only. It is complete when the selects label the instances consistently
  (`ReportsExactlyWalked`). For an instance shared by two relations of the root, above any tree of instances,
  it is complete exactly when what the dict names below the second relation is named, at every depth, below the
  first (`SharingIsSafeExactlyWhen`). Django builds one object per selected relation; the same object stands
  under two when a cache was filled otherwise, through a reverse relation or by code that assigns instances.
- A prediction that names no field drops its path without a successor (`PredictedAreCovered`).
- The rows of an untracked query may be counted as an earlier query's, and fetching on after the end opens
  an interval of no query (`AttributedExactlyWhen`).

## Model

| member | source | states |
|---|---|---|
| `IngestQueue.Queue.Enqueue` | src/qorme/ingest/queue.py:45-54 | accepts exactly when the FIFO is not full (a non-positive maximum is no limit); appends, or changes nothing |
| `IngestQueue.Queue.EnqueueAfter` | src/qorme/ingest/queue.py:56-64 | the same for the delayed queue, where the item takes its place by deadline, the earliest first |
| `IngestQueue.InsertKeepsOrder` | src/qorme/ingest/queue.py:58 | the delayed queue stays in deadline order, no entry before one that is due earlier, and gains exactly that entry |
| `IngestQueue.Queue.FlushPQueue` | src/qorme/ingest/queue.py:165-189 | the loop with its put-backs is the function that moves entry after entry; nothing is reordered by a put-back |
| `IngestQueue.MoveDueExactly` | src/qorme/ingest/queue.py:170-189 | the moved entries are the longest front of the delayed queue that is due (or anything, when flushing all) and fits; they follow the FIFO in order |
| `IngestQueue.NothingDueStays` | src/qorme/ingest/queue.py:170-189 | after a move every entry still delayed is due later than now, or the FIFO is full |
| `IngestQueue.Queue.Flush` | src/qorme/ingest/queue.py:142-163 | what a flush takes, leaves and hands over, including the batch lost when an item's type is unknown |
| `IngestQueue.TakesBatch` | src/qorme/ingest/queue.py:149-160 | the batch is the front of the FIFO of exactly the size `batch_max_size` allows, cut short only by an item that raises, which is then its last |
| `IngestQueue.SelectPicks` | src/qorme/ingest/queue.py:159 | a list of a payload holds the data of exactly the items of its type, first to last |
| `IngestQueue.DrainsExactly` | src/qorme/ingest/queue.py:142-189 | a flush of everything hands over the whole FIFO followed by the earliest-deadline items that fit, none of them due later than one that stays, and leaves exactly the others |
| `IngestQueue.DrainsBothExactlyWhen` | src/qorme/ingest/queue.py:181-189 | both queues end empty if and only if together they fit the FIFO; otherwise exactly the excess stays |
| `IngestRuns.UninterruptedFlush` | src/qorme/ingest/queue.py:142-189 | the worker's single accesses, when nobody comes in between, add up to one flush |
| `IngestRuns.UninterruptedMove` | src/qorme/ingest/queue.py:165-189 | the same for a move alone, after which nothing that is due by the clock is still delayed unless the FIFO is full |
| `IngestRuns.RunConserves` | src/qorme/ingest/queue.py:45-64 | in every interleaving each accepted item has entered the FIFO, is delayed, is in the worker's hand or was lost, as a multiset; what entered the FIFO is in the batches, the open batch and the FIFO, in that order; both capacities hold |
| `IngestRuns.AtomicMovesLoseNothing` | src/qorme/ingest/queue.py:170-189 | nothing is lost in a run in which no delayed item is put between the worker's taking an entry and placing it |
| `IngestRuns.SomeRunLoses` | src/qorme/ingest/queue.py:176-184 | with a bounded delayed queue a run is given that loses an accepted item to a put-back that meets a full queue |
| `IngestRuns.LossImpossibleExactlyWhen` | src/qorme/ingest/queue.py:176-184 | no run loses an item if and only if the delayed queue is unbounded |
| `IngestRuns.RunKeepsGoodBatches` | src/qorme/ingest/queue.py:149-163 | no batch is empty, none exceeds `batch_max_size` unless everything is flushed, and a batch is sent exactly when all its items can be appended |
| `IngestRuns.ListsAreDequeueOrder` | src/qorme/ingest/queue.py:154-163 | in every run one type's lists, concatenated over the payloads handed over, are the dequeued items of that type in dequeue order, if and only if no batch dropped by an exception held an item of that type |
| `IngestRuns.NothingEarly` | src/qorme/ingest/queue.py:170-179 | with a clock that never goes back, and until a flush is to take everything, no item enters the FIFO or a batch before its deadline |
| `IngestRuns.DelayedAsPut` | src/qorme/ingest/queue.py:58 | in every run each delayed entry, also one in the worker's hand, is due exactly its delay after the moment it was put |
| `IngestThreads.RunHasSingleWorker` | src/qorme/ingest/queue.py:81-119 | in every interleaving of enqueue, enqueue_after and close, timed-out joins included, at most one thread is between its start and clearing `_running` |
| `IngestThreads.RunLosesNoWakeup` | src/qorme/ingest/queue.py:66-75 | in every run, whenever the worker sleeps un-notified although `batch_min_size` items are queued, a producer is between its put and its notify; although the stop event is set, a closer is about to notify |
| `IngestThreads.ProducerNotifies` | src/qorme/ingest/queue.py:66-75 | such a producer stays on its way until it has found fewer items than that, or nobody is asleep after its notify |
| `IngestThreads.CloserNotifies` | src/qorme/ingest/queue.py:106-113 | and such a closer until nobody is asleep |
| `IngestThreads.CloseSetsAndNotifies` | src/qorme/ingest/queue.py:106-113 | closing a running queue sets the stop event, if there is one, and notifies before it joins; closing another one does neither |
| `IngestThreads.WaitEndsExactlyWhen` | src/qorme/ingest/queue.py:124-134 | the wait ends if and only if that many items are queued, the stop event is set, or it times out; otherwise the worker sleeps |
| `IngestThreads.RunBalances` | src/qorme/ingest/queue.py:45-64 | in every run the items in the queues and in the worker's hand are those accepted less those taken for a batch and those lost to a put-back into a full queue |
| `IngestShutdown.StopMeetsWorker` | src/qorme/ingest/queue.py:106-113 | whenever close sets the stop event, a worker is either before its read of it for the flush or past it; the next two rows say what follows |
| `IngestShutdown.CloseInTimeDrains` | src/qorme/ingest/queue.py:130-140 | a stop set while the worker has yet to read it: in every continuation without an exception in the worker, a timed-out join or a full FIFO, the worker leaves only when nothing accepted before the stop remains |
| `IngestShutdown.StopSetLateLeaves` | src/qorme/ingest/queue.py:130-160 | a stop set any later: from every such place, when no delayed item is due, the worker can leave after no more than the batch it is taking, with exactly everything else still queued or delayed; an entry it holds is lost only when neither queue has room for it |
| `IngestShutdown.CloseBeforeTestSkipsDrain` | src/qorme/ingest/queue.py:130-136 | a stop set between the worker's read of it for the flush and its loop test makes it leave with both queues as they are |
| `IngestShutdown.FirstEnqueue` | src/qorme/ingest/queue.py:81-97 | a state in which that can happen is reached by the very first enqueue, for every configuration |
| `IngestShutdown.TimedOutCloseForgets` | src/qorme/ingest/queue.py:115-119 | after a join that times out while the worker is neither between the two reads of a test of the stop event nor on its way out, nothing but a put-back that raises outside its flush stops the worker in any continuation, and nothing at all when the delayed queue is unbounded |
| `IngestShutdown.WorkerGoesOn` | src/qorme/ingest/queue.py:127-140 | the worker is held up by nothing but a taken condition and a sleep without a notification |
| `IngestShutdown.NotifiedFlushes` | src/qorme/ingest/queue.py:132-136 | once notified of enough items its own next steps leave the wait for the flush |
| `IngestStart.StuckPossibleExactlyWhen` | src/qorme/ingest/queue.py:85-97 | some run leaves a client waiting for the running flag of a worker that is gone if and only if the delayed queue is bounded |
| `IngestStart.ClientGetsStuck` | src/qorme/ingest/queue.py:165-184 | such a run for every bound: the delayed queue is full when the worker starts and takes an entry, another client takes the slot, and the put-back raises |
| `IngestStart.NobodyStuckUnlessEscape` | src/qorme/ingest/queue.py:85-97 | in a run in which no put-back of the worker's first move meets a full delayed queue, no client waits in vain |
| `IngestStart.StuckForGood` | src/qorme/ingest/queue.py:85-97 | such a client holds the lock for ever: in every continuation no worker starts and nothing leaves the queues |
| `IngestStart.FailedStart` | src/qorme/ingest/queue.py:92-95 | a thread that cannot be started leaves the item queued, the lock free, no stop event and nobody waiting |
| `MlMerge.CategoryModels.GetModel` | src/qorme/ml/store.py:192-194 | gives what the updates received under that name, in their order, make of a model: updates of other names have no effect |
| `MlMerge.CategoryModels.Apply` | src/qorme/ml/store.py:196-242 | the loop over a batch is the fold of the merge of one model |
| `MlMerge.CategoryModels.MergeLoop` | src/qorme/ml/store.py:228-235 | the loop over the samples is the fold of the merge of one sample |
| `MlMerge.UpdateKeepsGood` | src/qorme/ml/store.py:208-242 | every stored model has samples, all stable, each under its own hash |
| `MlMerge.TimestampsRise` | src/qorme/ml/store.py:217-219 | along any history the timestamp of the stored model rises strictly with every change between removals |
| `MlMerge.PerName` | src/qorme/ml/store.py:208-242 | what is stored under a name depends on the updates for that name alone |
| `MlMerge.TwiceIsOnceExactly` | src/qorme/ml/store.py:208-242 | applying an update twice equals once if and only if the first application left a model or the update has no stable sample |
| `MlMerge.RedeliveryIsHarmless` | src/qorme/ml/store.py:196-242 | a batch with distinct names and distinct hashes can be redelivered without effect, whatever is stored |
| `MlMerge.RedeliveryCanRevive` | src/qorme/ml/store.py:228-242 | without distinct hashes it cannot: a concrete update brings a removed model back |
| `MlMerge.NewSamplesExactly` | src/qorme/ml/store.py:211 | a new model stores exactly the last stable sample of each hash, also when hashes repeat |
| `MlMerge.NewIsMergeFromEmpty` | src/qorme/ml/store.py:209-214 | for distinct hashes the new-model path equals the merge loop run from nothing |
| `MlMerge.InOrderIsLastWriterWins` | src/qorme/ml/store.py:217-242 | in-order delivery stores exactly the stable last writers of the current configuration epoch, and no model when there are none |
| `MlMerge.StoreIsLastWriterWins` | src/qorme/ml/store.py:196-242 | the same for every name of a log that mixes names |
| `MlMerge.OrderIrrelevantExactlyWhen` | src/qorme/ml/store.py:208-242 | whatever is stored, two updates have the same effect in either order if and only if both are stale, or what the older one leaves agrees with what was there, hash by hash, or the newer one settles the difference; and the newer one leaves a model that holds the older one off, or the older one has no stable sample |
| `MlMerge.MergesAgreeExactlyWhen` | src/qorme/ml/store.py:228-235 | one update merged into two sets of samples gives the same result if and only if they agree at each hash, or a sample of the update is newer than, or the same as, what both hold there |
| `MlMerge.MergeLeavesSomeExactlyWhen` | src/qorme/ml/store.py:228-238 | a merge leaves samples, and so the model, if and only if the update has a stable one or leaves one of those it meets |
| `MlMerge.OrderIrrelevantForNew` | src/qorme/ml/store.py:208-214 | for a name not stored yet, in terms of the two updates: the older one has no stable sample, or the newer one has one and makes all those of the older one unnecessary, by another configuration or hash by hash |
| `MlMerge.LateRemovalIsLost` | src/qorme/ml/store.py:217-219 | one way to fail for a stored model: a sample that the older update removes stays when the newer one arrives first |
| `MlMerge.ReorderingDiverges` | src/qorme/ml/store.py:234-239 | another: a removal holds off nothing, so that an older sample arriving late is stored |
| `MlMerge.LateModelIsLost` | src/qorme/ml/store.py:217-219 | a third: an older model arriving late is skipped, stable samples included |
| `SseClient.MLStore.Register` | src/qorme/ml/store.py:157-160 | adds an empty category once and touches no other |
| `SseClient.MLStore.OnEvent` | src/qorme/ml/store.py:141-172 | raises exactly on another event kind or undecodable data, and then changes nothing; otherwise each registered category merges its updates of the event, and the event's id becomes the resume id |
| `SseClient.Deliver` | src/qorme/client/client.py:121-124 | the loop over a session's events takes those before the first that raises, and reports that one too |
| `SseClient.Attend` | src/qorme/client/client.py:116-124 | one attempt, connected or refused, with the disconnect callback in any case |
| `SseClient.SseUpTo` | src/qorme/client/client.py:106-142 | the retry loop, looked at for its first n attempts, shows exactly the run of the recursive description, for every server and every stream behaviour |
| `SseClient.Sse` | src/qorme/client/client.py:106-142 | when clean ends stop, the loop ends, and shows the whole run |
| `SseClient.RunIsFirst` | src/qorme/client/client.py:110-142 | such a run is its first n attempts for some n, so that the rows below hold of it too |
| `SseClient.CallbacksAreBracketed` | src/qorme/client/client.py:110-141 | whatever the stream does, errors and cancellation included, the callbacks are (connect event* disconnect)* while the loop runs and one exit when it ends, which leaves the store dead; until then it is disconnected after the first session; with finitely many clean ends it does end |
| `SseClient.HeadersFollowProcessed` | src/qorme/client/client.py:113 | the resume header of every attempt is the id of the last event fully processed before it |
| `SseClient.RunIsReplay` | src/qorme/ml/store.py:167-172 | after any number of attempts each registered category is what `update_models` makes of all its updates in the processed events, in order |
| `SseClient.ResumesExactlyOnce` | src/qorme/client/client.py:111-133 | against a server that replays strictly after the header, after any number of attempts the processed events are a prefix of the log without gap or duplicate, and the stored id names that position and no other |
| `SseClient.ReplicaShowsLastWriters` | src/qorme/ml/store.py:141-242 | then each name of a registered category shows exactly the stable last writers of the processed part of the log, and no model when there are none, for updates that are in order |
| `SseClient.BackoffBeforeGivingUp` | src/qorme/client/client.py:125-133 | a run that gives up, after however many attempts, made `max_retries` attempts after its last clean end and slept interval * (2^(max_retries-1) - 1) over them |
| `SseEndings.AttemptExactly` | src/qorme/client/client.py:116-124 | an attempt takes the events before the first that is rejected, reports that one too, and leaves the store disconnected |
| `SseEndings.RunIsTold` | src/qorme/client/client.py:106-142 | the server's answers decide which attempts end cleanly, which is the last, how the run ends, and how long each pause is: interval * 2^(k-1) after k failures in a row before it |
| `SseEndings.ErrorsAreRaised` | src/qorme/client/client.py:134-139 | a cancelled attempt is the last and is raised as cancelled; so is, as an error, a crash or an event that the handler rejects; none of them is retried |
| `SseEndings.EndsExactlyFor` | src/qorme/client/client.py:110-142 | for each way to end, the last attempts that it has, and no other way has; a cancelled pause, which needs two failures in a row, is one |
| `SseEndings.GivesUpAfter` | src/qorme/client/client.py:110-133 | a run gives up only when exactly its last `max_retries` attempts failed in transport |
| `MlClaim.OneWinnerPerHolder` | src/qorme/ml/store.py:62-78 | in every interleaving with state swaps each state object yields at most one started task |
| `MlClaim.NeverEmptyAgain` | src/qorme/ml/store.py:66-78 | in every run the state, once non-empty, stays so, and every later emptiness test fails |
| `MlClaim.AtMostOneStart` | src/qorme/ml/store.py:127-139 | at most one task starts in runs in which the state is never swapped between a call's emptiness test and its claim |
| `MlClaim.TwoStarts` | src/qorme/ml/store.py:74-78 | otherwise two do: a run is given |
| `MlClaim.AtMostFourStarts` | src/qorme/ml/store.py:62-78 | in every run at most four tasks start |
| `MlClaim.FourStarts` | src/qorme/ml/store.py:62-78 | a run in which four do |
| `MlClaim.DeadUntilRevived` | src/qorme/ml/store.py:80-101 | a dead store stays dead if and only if no connect or disconnect callback follows |
| `MlClaim.LastMarkDecides` | src/qorme/ml/store.py:80-101 | the store is connected, disconnected or dead exactly as the last connect, disconnect, exit or close says |
| `MlClaim.FinishedRunIsDead` | src/qorme/client/client.py:123-141 | however `close()` interleaves with the callbacks of a task, once they are over the store is dead |
| `BitSets.BitSet.Set` | src/qorme/utils/bitset.c:2664 | adds exactly the position modulo 64 |
| `BitSets.BitSet.Clear` | src/qorme/utils/bitset.c:2895 | removes exactly the position modulo 64 |
| `BitSets.BitSet.Has` | src/qorme/utils/bitset.c:3130 | tests membership of the position modulo 64 |
| `BitSets.BitSet.Ior` | src/qorme/utils/bitset.c:3364 | becomes the union and returns itself |
| `BitSets.BitSet.Int` | src/qorme/utils/bitset.c:3617 | is the sum of 2^i over the members |
| `BitSets.BitSet.Length` | src/qorme/utils/bitset.c:3809 | is the number of members |
| `BitSets.BitSet.List` | src/qorme/utils/bitset.c:4007-4070 | is the strictly ascending enumeration of the members |
| `BitSets.WordIsItsSet` | src/qorme/utils/bitset.c:3617 | equal sets mean equal integers |
| `BitSets.DropLowest` | src/qorme/utils/bitset.c:4069 | `v &= v - 1` removes exactly the minimum, which is the number of trailing zeros |
| `BitSets.PopCountIsCardinality` | src/qorme/utils/bitset.c:3809 | the population count is the size of the set |
| `BitSets.RunRefinesSet` | src/qorme/utils/bitset.c:2543-3364 | over any sequence of operations the word stands for the set built by the same operations |
| `BitSets.DecodeTarget` | src/qorme/ml/datastructures.py:27-28 | the comprehension over the classes is the recursive selection |
| `BitSets.DecodeSelectsListed` | src/qorme/ml/datastructures.py:27-28 | decoding an integer selects the classes at the positions that `list()` enumerates, in that order |
| `BitSets.EncodeDecode` | src/qorme/ml/datastructures.py:27-28 | setting positions in any order, with repetitions, and decoding gives the classes at those positions, each once |
| `BitSets.NamesAreAt` | src/qorme/ml/datastructures.py:27-28 | one class for each of these positions, the one at that position |
| `CodeCaches.CodeCache.Bisect` | src/qorme/utils/bitset.c:8959-8979 | returns the lower bound in a strictly sorted non-empty array |
| `CodeCaches.CodeCache.Find` | src/qorme/utils/bitset.c:8980-8993 | agrees with a lookup in the map the array stands for |
| `CodeCaches.CodeCache.Insert` | src/qorme/utils/bitset.c:9014-9058 | agrees with an insertion into that map, through growth by 64, shift, replacement and failed allocation |
| `CodeCaches.CodeCache.Grow` | src/qorme/utils/bitset.c:9041-9050 | the same entries in an array with room for 64 more |
| `CodeCaches.CodeCache.ShiftIn` | src/qorme/utils/bitset.c:9051-9056 | the in-place right shift puts the entry at its place and keeps all others in order |
| `CodeCaches.InsertKeepsSorted` | src/qorme/utils/bitset.c:9051-9056 | insertion at the lower bound keeps the array strictly sorted and adds that line only |
| `CodeCaches.FindsLastInserted` | src/qorme/utils/bitset.c:8980-9058 | whatever allocations fail, find returns the last object inserted for the line or nothing, and nothing exactly for line zero and while no insertion for the line has found room |
| `CodeCaches.CapacityHolds` | src/qorme/utils/bitset.c:9021-9050 | the capacity is a multiple of 64, never exceeded, and grows by 64 at a time |
| `JoinedInstances.GetJoinedInstances` | integrations/qorme-django/src/qorme_django/domains/queries.py:39-58 | the generator yields what the filter over the cached fields describes |
| `JoinedInstances.JoinedIn` | integrations/qorme-django/src/qorme_django/domains/queries.py:51-58 | a pair is yielded if and only if it is cached, not None, selected, and there is a query |
| `JoinedInstances.Tracker.OnNewInstance` | integrations/qorme-django/src/qorme_django/domains/queries.py:216-242 | the recursion on the shared set terminates on cyclic graphs and reports what the pure walk does |
| `JoinedInstances.VisitReportsNew` | integrations/qorme-django/src/qorme_django/domains/queries.py:224-230 | each instance is reported once, and the reported ones are exactly those added to the seen set, for every form of select_related |
| `JoinedInstances.VisitSpellsWalk` | integrations/qorme-django/src/qorme_django/domains/queries.py:232-242 | every report was reached through cached relations along selected fields, and its path is the root's path followed by these fields, with double underscores between them |
| `JoinedInstances.PathsAreDistinct` | integrations/qorme-django/src/qorme_django/domains/queries.py:232-242 | when field names obey Django's rules no two reports have the same path |
| `JoinedInstances.ReportsExactlyReachable` | integrations/qorme-django/src/qorme_django/domains/queries.py:216-242 | with select_related=True the reported instances are exactly those reachable outside the initial seen set |
| `JoinedInstances.ReportsExactlyWalked` | integrations/qorme-django/src/qorme_django/domains/queries.py:216-242 | for any select_related whose selects label the instances consistently, the reported instances are exactly those that a walk through selected relations reaches |
| `JoinedInstances.SharedCompleteExactlyWhen` | integrations/qorme-django/src/qorme_django/domains/queries.py:232-242 | when two relations of the root share an instance below which what the first selects labels the instances, the walk is complete if and only if every instance the second leads to, at any depth, is one the first leads to |
| `JoinedInstances.CoversExactlyPaths` | integrations/qorme-django/src/qorme_django/domains/queries.py:51-58 | one select covers another, by comparing the fields they name at every depth, if and only if it selects every path of fields that the other selects |
| `JoinedInstances.SharingIsSafeExactlyWhen` | integrations/qorme-django/src/qorme_django/domains/queries.py:232-242 | the walk is complete for every tree of instances below the shared one if and only if the first select covers the second |
| `JoinedInstances.DictCanMiss` | integrations/qorme-django/src/qorme_django/domains/queries.py:237-242 | with a dict they need not be: a concrete graph with a reachable instance that is not reported |
| `RelationPaths.SpellInjective` | src/qorme/ml/instance.py:6-11 | different relation paths have different spellings |
| `RelationPaths.SpellIsJoined` | src/qorme/ml/instance.py:6-11 | a path built field by field is its fields joined by double underscores |
| `RelationPaths.BelowPrefix` | src/qorme/ml/instance.py:6-11 | and below a prefix, the prefix followed by each field after a double underscore |
| `PrefetchWorklist.PopKeepsResult` | integrations/qorme-django/src/qorme_django/domains/ml/prefetch_relations.py:32-48 | whichever entry a turn pops, it changes neither what will be prefetched nor what will be predicted |
| `PrefetchWorklist.AnyOrder` | integrations/qorme-django/src/qorme_django/domains/ml/prefetch_relations.py:29-48 | worklist equals recursion: in any order of popping, the prefetch set is exactly the non-root nodes without a prediction, it is an antichain, and each node is popped once |
| `PrefetchWorklist.PredictedAreCovered` | integrations/qorme-django/src/qorme_django/domains/ml/prefetch_relations.py:41-45 | every predicted path is a proper prefix of a prefetched one if and only if no prediction is empty |
| `PrefetchWorklist.Collect` | integrations/qorme-django/src/qorme_django/domains/ml/prefetch_relations.py:29-48 | the loop on strings ends, with those paths joined by double underscores, and lists each predicting node's relation path below the model once, depth first |
| `PrefetchWorklist.Query.Optimize` | integrations/qorme-django/src/qorme_django/domains/ml/prefetch_relations.py:21-59 | the early returns change nothing; otherwise the lookups become the chosen paths joined with the caller's when those are a list or tuple |
| `Patching.Wrapper.WrapMember` | src/qorme/utils/wrapper.py:82-112 | its errors, and the new tables and records; a failed patch is taken back |
| `Patching.Wrapper.UnwrapMember` | src/qorme/utils/wrapper.py:120-153 | drops the record in any case, and restores the attribute exactly when the wrapper's own proxy is on top |
| `Patching.Wrapper.Clear` | src/qorme/utils/wrapper.py:182-186 | the nested loops unwrap every record, in some order |
| `Patching.FailedWrapChangesNothing` | src/qorme/utils/wrapper.py:96-112 | a wrap that raises changes nothing; it raises Duplicate exactly when reading the attribute gives this wrapper's proxy, AlreadyWrapped when otherwise a record exists, and fails when otherwise there is no attribute or it cannot be set |
| `Patching.ReadsFirstDefinition` | src/qorme/utils/wrapper.py:97 | reading an attribute finds the object's own, or that of the first base that has it |
| `Patching.UnwrapUndoesWrap` | src/qorme/utils/wrapper.py:155-180 | in any state, unwrapping after a successful wrap gives back that state |
| `Patching.UnwrapExactly` | src/qorme/utils/wrapper.py:131-153 | the record is dropped in any case; the attribute changes exactly when this wrapper's proxy is read, and then is no longer the object's own or is what the proxy was put around |
| `Patching.UnwrapKeepsUndoable` | src/qorme/utils/wrapper.py:131-153 | in every state reached without interference unwrapping a record succeeds, and an unrecorded member is left alone |
| `Patching.ClearRestores` | src/qorme/utils/wrapper.py:182-186 | after any wraps and unwraps, failing ones included, unwrapping all records in any order restores every table exactly, parents and children alike |
| `Patching.ClearSucceeds` | src/qorme/utils/wrapper.py:182-186 | without interference clear never raises |
| `Patching.LastInFirstOutRestores` | src/qorme/utils/wrapper.py:98-106 | two wrappers unwound last in, first out restore the tables |
| `Patching.FirstInFirstOut` | src/qorme/utils/wrapper.py:142-151 | unwound first in, first out they restore them if and only if they share no record |
| `CursorFetch.CursorProxy.Driver` | src/qorme/db/domains/result_hash.py:47-49 | every row that passes through the factory is hashed, in order |
| `CursorFetch.CursorProxy.BeginFetch` | src/qorme/db/tracking.py:103-107 | opens an interval once, with the hashing factory around the caller's |
| `CursorFetch.CursorProxy.FinishFetch` | src/qorme/db/tracking.py:109-115 | closes it once: the caller's factory is back, the digest is announced, the query forgotten |
| `CursorFetch.CursorProxy.RecordQueryExecution` | src/qorme/db/tracking.py:66-101 | closes an open interval first; inside a context the query becomes the owner of the next fetch, also when execution raises |
| `CursorFetch.CursorProxy.FetchSome` | src/qorme/db/tracking.py:117-129 | fetchone and fetchmany close the interval exactly when nothing is returned |
| `CursorFetch.CursorProxy.FetchEverything` | src/qorme/db/tracking.py:131-135 | fetchall closes it unless it raises |
| `CursorFetch.CursorProxy.CloseCursor` | src/qorme/db/tracking.py:137-140 | close closes it unless it raises |
| `CursorFetch.BytesTellRows` | src/qorme/utils/hash.py:68-78 | the bytes fed to the hash determine the sequence of row hashes modulo 2^64, so rows never run together |
| `CursorFetch.FeedIsLittleEndian` | src/qorme/utils/hash.py:68-78 | each row feeds the eight bytes of its low 64 bits, the lowest first |
| `CursorFetch.CallsKeep` | src/qorme/db/tracking.py:66-140 | over any calls, raising ones included: started and done alternate, starting with started; the row factory is the caller's whenever no fetch is open; each digest is of all rows of its interval, under the last query started since the previous interval |
| `CursorFetch.SplitDoesNotMatter` | src/qorme/db/domains/result_hash.py:28-37 | rows fetched piece by piece give the digest of fetching them at once |
| `CursorFetch.AttributedExactlyWhen` | src/qorme/db/tracking.py:66-115 | over any calls, the uid under which the next digest is announced is the last executed query's if and only if no interval has ended since a tracked execution; for an untracked one, if and only if one has, one was open, or no earlier query was waiting for its first fetch |
| `CursorFetch.ClosingAnnounces` | src/qorme/db/domains/result_hash.py:32-37 | a digest is announced by exactly the calls that close an interval, and under the uid the cursor then holds |
| `CursorFetch.ExecutionsAreAnnounced` | src/qorme/db/tracking.py:66-101 | over any calls, every execution in a context is announced as started, and as done if and only if it did not raise |

## Left out

- Flusher, msgpack encoding, gzip and HTTP: a payload handed to the flusher is the boundary.
- AsyncWorker and asyncio: `_sse` is a sequential loop over an adversarial stream; a cancellation strikes a connection attempt, an event or a sleep.
- Real clocks: deadlines are compared with an integer clock that the caller supplies.
- Weak references and garbage collection: wrappers, patched objects, instances and cursors stay alive.
- PriorityQueue's comparison of payloads on equal timestamps: a rank breaks ties, so that any total order is covered.
- IngestRuns.RunConserves: a single access to one of Python's queues is atomic, as their locks make it. After a put-back that raises the worker is at rest, whether it survived the exception or was started anew by the next enqueue.
- IngestThreads.RunHasSingleWorker: the model over-approximates. The taking of a batch may raise at any item, waits may time out at any moment, and any delayed item may be due or not.
- IngestShutdown.CloseInTimeDrains: speaks of sizes; contents and order are the subject of IngestRuns.
- `__del__` of the queue, task_done and join on its queues.
- SseClient.Sse: ends when clean ends stop at some attempt, as a server that ends every stream cleanly keeps the source's loop running for ever; SseUpTo and the theorems about it make no such assumption.
- SseClient.MLStore.OnEvent: base64 and msgpack decoding are a flag on the event; Python's assert is assumed to be on.
- MlMerge.InOrderIsLastWriterWins: needs strictly increasing timestamps and distinct hashes per message, as the counterexamples show.
- MlMerge.OrderIrrelevantExactlyWhen: needs distinct hashes per message and different timestamps of the two.
- BitSets.BitSet.Set: a shift by 64 or more is undefined in C; the model wraps the position, which is what tests/utils/test_bitset.py expects. The same holds for Clear and Has.
- CodeCaches.CodeCache.Insert: reference counts and the overflow of C's int at 2^31 entries.
- The rest of bitset.c: argument parsing, module set-up and integer conversion.
- JoinedInstances.ReportsExactlyWalked: the converse is proved for an instance shared by two relations of the root (SharedCompleteExactlyWhen, SharingIsSafeExactlyWhen); for arbitrary graphs inconsistent labels need not lose anything, as what the first label omits may be reported through another relation.
- PrefetchWorklist.Collect: the tree of predictions is finite and its field names obey Django's rules (no double underscore, no trailing underscore, distinct within a model); an infinite tree keeps the source's loop running forever.
- MLModel.predict, feature extraction and the data of predictions other than their paths.
- Patching.Wrapper.WrapMember: the descriptor protocol; patched attributes are plain functions of classes or modules, which attribute lookup returns unchanged. Dotted member names, which wrapt resolves step by step, are not modelled.
- Patching.Objects.WrapFunction: stands for wrapt's wrap_function_wrapper, which is not part of this model; its contract is what the source relies on.
- maybe_wrap, wrap_temp, iteration and length of Wrapper: easy consequences of the above.
- CursorFetch.CallsKeep: iterating over a cursor directly, callers that change row_factory while a fetch is open, and event handlers that raise.
- xxHash: a digest stands for the bytes that were hashed.
- Events, Domain, TrackingManager, Config, context managers, Celery, request, template, CLI and Wagtail hooks: easy members or dynamic Python behaviour.
