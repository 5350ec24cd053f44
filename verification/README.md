# Proofs about a small game engine and the libraries it carries

This project models the parts of the engine whose correctness is hardest to see, and proves what
they are meant to guarantee. Every module follows one part of the code:

- `FreeList`, `FreeListProgress`, `DequeueCounting`, `RingIndex`, `BlockQueue`, `BlockQueueProgress`,
  `ConsumerScan`: the multi-producer queue of the Tracy profiler. The lock-free parts are state
  machines with one atomic access per step and any number of threads. A second, unobserved state
  records history; theorems speak about every legal sequence of steps, and the two `Progress` modules
  about what a call achieves and that it ends. The block ring is modelled twice: as the class that
  the producer updates, and as part of the state that consumers read.
- `Im3dVector`, `Im3dPrimitives`, `Im3dMerge`, `Im3dSort`, `Im3dContext`: im3d's immediate mode, from
  the vertices of strips and loops to the merged draw lists of a frame. The context is a class with
  the source's fields.
- `TowerRules`, `TowerProperties`, `TowerEffects`, `TowerCommands`, `GameStates`, `GameSessions`,
  `Interpolation`: the simulation of the tower-defence example. `TowerRules` says what a step
  computes, on values; `GameStates` is the step as it updates a state object, proved equal to it;
  `TowerEffects` and `TowerCommands` say what that does to each entity.
- `FrameBuffers`, `TimeStream`: what Tracy's client puts on the wire, against what its server makes
  of it.
- `Dxt1`, `SpriteBatches`, `LuaEraser`: block compression, draw-call batching and the in-place
  eraser of profiler calls.
- `Options`, `Words`, `Sets`: shared small types, 64-bit words and set sizes.

## Findings

Where the code does not do what its surroundings suggest, the model keeps the code's behaviour and
the exact condition is proved.

- The thread clock of the wire stream is not reset for a new connection (TracyProfiler.cpp:1390-1393),
  only by announcing a thread, and a connection starts as if thread 0 had been announced.
  `TimeStream.RecoversIff` says exactly when the receiver recovers all times. Thread numbers come from
  the operating system (common/TracySystem.cpp:58-86), which gives no user thread the number 0, so the
  missing reset does no harm: `TimeStream.NumberedThreadsRecover`. A thread numbered 0 would lose
  times: `TimeStream.ThreadZeroNotRecovered`.
- A DXT1 block of one colour has its colour in the second endpoint and zero in the first
  (TracyDxt1.cpp:419), so the first endpoint is not always the greater one:
  `Dxt1.FirstIsGreaterIff`, and `Dxt1.WhiteBlock` for a case.
- The divisor table is capped (TracyDxt1.cpp:44), so in a block of several colours whose channel ranges
  add up to less than 4 the last index is not used, and with a sum of 1 every index is 0:
  `Dxt1.TopIndex` has the exact value, `Dxt1.NarrowBlock` is a case.
- The slot arithmetic divides by an unsigned block size although the difference was made signed
  (tracy_concurrentqueue.h:1165). That is harmless exactly for rings of at most 2^48 slots:
  `RingIndex.FindsEveryEntryIff`.
- In a step in which a tower shoots, no projectile is interpolated, because new shots are stored
  before the projectiles that fly on (game_state.cpp:356). `Interpolation.ProjectilesInterpolateIff`
  has the guard of the shooting loop as its condition; `Interpolation.ProjectileNotInterpolated` is
  a case.
- `popLayerId` does not check that no primitive is open (im3d.cpp:1863-1868).
  `Im3dContext.Context.PopLayerId` says, in terms of the state before the call, exactly when the
  primitive stays intact; `Im3dContext.PopInsidePrimitive` is a run in which it does not.
- The room made for a call stack is computed from its length cut to 16 bits
  (TracyProfiler.cpp:2257-2268), which is enough exactly for fewer than 8192 frames:
  `FrameBuffers.CallstackFitsIff`.

## Model

| member | source | states |
|---|---|---|
| `FreeList.StepKeeps` | src/engine/extern/tracy/client/tracy_concurrentqueue.h:721-794 | Every single atomic access of any number of threads inside `add`, `try_get` and `add_knowing_refcount_is_zero` keeps the whole account: each node's word is the list's reference plus one per holder, flagged exactly while it waits for its last holder, and the next pointers from the head spell a list of the listed nodes |
| `FreeList.Reachable` | src/engine/extern/tracy/client/tracy_concurrentqueue.h:712-802 | The same holds after every interleaving of those accesses from an empty list |
| `FreeList.NoAba` | src/engine/extern/tracy/client/tracy_concurrentqueue.h:745-746 | When the CAS on the head succeeds, the value it installs is still the next pointer of the node it removes, and is the rest of the list |
| `FreeList.ListIsAcyclic` | src/engine/extern/tracy/client/tracy_concurrentqueue.h:708-713 | After every interleaving the list from the head ends and repeats no node |
| `FreeList.NeverStuck` | src/engine/extern/tracy/client/tracy_concurrentqueue.h:734-794 | No pointer that a thread is about to follow dangles |
| `FreeList.FlagIsClear` | src/engine/extern/tracy/client/tracy_concurrentqueue.h:723-749 | The should-be-on-list flag is clear when `add` sets it and at the assertion in `try_get` |
| `FreeList.HandedOutOnce` | src/engine/extern/tracy/client/tracy_concurrentqueue.h:746-753 | Between two calls of `try_get` that return the same node there is a call of `add` for it, in every interleaving |
| `FreeList.OutsideIsOwned` | src/engine/extern/tracy/client/tracy_concurrentqueue.h:721-753 | The nodes in client hands, counted from the events alone (created or handed out, not added since), are those that the account calls owned |
| `FreeList.OneAdder` | src/engine/extern/tracy/client/tracy_concurrentqueue.h:774-776 | At most one thread at a time is inside `add_knowing_refcount_is_zero` for a node |
| `FreeList.NeverLost` | src/engine/extern/tracy/client/tracy_concurrentqueue.h:721-794 | At every moment a node is in exactly one of five places: in client hands, on the list, being added by one thread, flagged and waiting for a holder, or being taken |
| `FreeList.LastReleaseAdds` | src/engine/extern/tracy/client/tracy_concurrentqueue.h:759-762 | When the last holder of a flagged node lets go, that very step puts it inside the adding routine |
| `FreeList.QuiescentList` | src/engine/extern/tracy/client/tracy_concurrentqueue.h:721-766 | When all threads are idle the list holds exactly the nodes that were added and not taken since |
| `FreeListProgress.SoloTryGet` | src/engine/extern/tracy/client/tracy_concurrentqueue.h:731-757 | A call of `try_get` that goes on alone, from any reachable state and wherever the other threads have stopped, takes the first node of the list in seven accesses and leaves the rest; with an empty list it returns nothing and changes nothing |
| `FreeListProgress.SoloAdd` | src/engine/extern/tracy/client/tracy_concurrentqueue.h:721-730 | A call of `add` that goes on alone puts its node first on the list, unless threads inside `try_get` still hold it: then the node is flagged and left to the last of these |
| `FreeListProgress.ObstructionFree` | src/engine/extern/tracy/client/tracy_concurrentqueue.h:721-794 | From any reachable state, a thread anywhere inside `add` or `try_get` that goes on alone is through after at most 19 accesses |
| `FreeListProgress.NothingMeansEmpty` | src/engine/extern/tracy/client/tracy_concurrentqueue.h:731-757 | In every interleaving, a call of `try_get` that returns nothing was made while the list was empty at some moment |
| `FreeListProgress.FailedCasGoesOn` | src/engine/extern/tracy/client/tracy_concurrentqueue.h:746-764 | When the CAS on the head fails, the call goes on with the head that it found, after dropping its reference and adding the node if that was the last one to a flagged node |
| `DequeueCounting.CircularIsSigned` | src/engine/extern/tracy/client/tracy_concurrentqueue.h:263-275 | `circular_less_than(0, d)` on a wrapped difference is the sign of the true difference |
| `DequeueCounting.Difference` | src/engine/extern/tracy/client/tracy_concurrentqueue.h:1139-1140 | The wrapped subtraction of counters read at three different moments decides the comparison as unbounded integers would |
| `DequeueCounting.StepKeeps` | src/engine/extern/tracy/client/tracy_concurrentqueue.h:1137-1191 | Every atomic access of any number of `dequeue_bulk` callers, and of the producer publishing, keeps the ticket account: for each ticket, what earlier tickets still count plus what it takes fits under the tail |
| `DequeueCounting.Reachable` | src/engine/extern/tracy/client/tracy_concurrentqueue.h:1135-1195 | The same holds after every interleaving |
| `DequeueCounting.HeadNeverPassesTail` | src/engine/extern/tracy/client/tracy_concurrentqueue.h:1155-1157 | headIndex never passes tailIndex, and the ranges claimed by the `fetch_add`s cover each index below headIndex exactly once and no other |
| `DequeueCounting.ClaimIsPublished` | src/engine/extern/tracy/client/tracy_concurrentqueue.h:1150-1157 | A consumer about to add to headIndex takes at least one element, and only published ones |
| `DequeueCounting.OvercommitAssertHolds` | src/engine/extern/tracy/client/tracy_concurrentqueue.h:1144-1145 | The assertion `overcommit <= myDequeueCount` holds in every interleaving |
| `DequeueCounting.Conservation` | src/engine/extern/tracy/client/tracy_concurrentqueue.h:1144-1190 | optimisticCount - overcommit is headIndex plus what consumers in flight still owe; only consumers in flight owe anything, so with all idle the two are equal |
| `DequeueCounting.SoloDequeue` | src/engine/extern/tracy/client/tracy_concurrentqueue.h:1135-1195 | A consumer that is not interrupted takes all there is up to 8192, and returns 0 only if there is nothing |
| `RingIndex.MaskIsRemainder` | src/engine/extern/tracy/client/tracy_concurrentqueue.h:1166 | And-ing with size - 1 is the remainder, for every power of two |
| `RingIndex.SlotIs` | src/engine/extern/tracy/client/tracy_concurrentqueue.h:1163-1166 | Unsigned division of the wrapped 64-bit difference of bases, added to the front and masked, is the slot k entries before the front |
| `RingIndex.FindsEveryEntryIff` | src/engine/extern/tracy/client/tracy_concurrentqueue.h:1163-1166 | That arithmetic finds every entry of a ring of 2^e slots if and only if 2^e is at most 2^48 |
| `RingIndex.MaskOfWrapped` | src/engine/extern/tracy/client/tracy_concurrentqueue.h:1230 | Masking a wrapped, possibly negative, difference is its remainder |
| `RingIndex.LookBack` | src/engine/extern/tracy/client/tracy_concurrentqueue.h:1166 | The slot k places before the newest holds the k-th newest entry |
| `RingIndex.WriteAtFront` | src/engine/extern/tracy/client/tracy_concurrentqueue.h:1113-1117 | Writing at the front drops the oldest entry of the window and appends the new one |
| `RingIndex.ProducerIndex.CopyEntries` | src/engine/extern/tracy/client/tracy_concurrentqueue.h:1228-1235 | The copying walk visits each live entry once, from the oldest, whatever the rotation of the old ring |
| `RingIndex.ProducerIndex.NewBlockIndex` | src/engine/extern/tracy/client/tracy_concurrentqueue.h:1213-1250 | Doubling keeps the entries in chronological order and lays them out from slot 0 |
| `RingIndex.ProducerIndex.AddEntry` | src/engine/extern/tracy/client/tracy_concurrentqueue.h:1112-1117 | Exposing a block appends one entry; when a block is used again the oldest entry goes |
| `BlockQueue.StepKeeps` | src/engine/extern/tracy/client/tracy_concurrentqueue.h:1075-1195 | Every access of the producer (block reuse, ring doubling, linking, exposing, writing, publishing) and of any number of consumers (claiming, loading ring, front, base and block, reading element by element, recording emptiness) keeps the invariant of chain, rings, claims and deliveries |
| `BlockQueue.Reachable` | src/engine/extern/tracy/client/tracy_concurrentqueue.h:1075-1195 | The same holds after every interleaving of one producer and any number of consumers |
| `BlockQueue.ConsumerNeverStuck` | src/engine/extern/tracy/client/tracy_concurrentqueue.h:1160-1184 | The ring, slot, block and elements that a consumer is about to read exist, however far the producer has gone since |
| `BlockQueue.ProducerNeverStuck` | src/engine/extern/tracy/client/tracy_concurrentqueue.h:1075-1132 | The blocks and the ring slot that the producer is about to touch exist in every reachable state; given memory for a new block, only the bound on indices can stop it |
| `BlockQueue.StillThere` | src/engine/extern/tracy/client/tracy_concurrentqueue.h:1176-1184 | While a consumer reads its way through a block, every element of its claim there is still what was enqueued under that index, whatever the producer writes and reuses meanwhile |
| `BlockQueue.ReusedBlockIsFinished` | src/engine/extern/tracy/client/tracy_concurrentqueue.h:1078-1081 | The block that the producer resets is the oldest, every element of it has been finished, and no consumer has a claim in it |
| `BlockQueue.ClaimFindsItsBlock` | src/engine/extern/tracy/client/tracy_concurrentqueue.h:1160-1176 | Whichever ring a consumer loaded, its slot holds the block whose base is its index rounded down |
| `BlockQueue.CounterNeverPassesBlockSize` | src/engine/extern/tracy/client/tracy_concurrentqueue.h:874-875 | The assertion in `set_many_empty`: a block's counter never passes BLOCK_SIZE |
| `BlockQueue.LogIsEnqueued` | src/engine/extern/tracy/client/tracy_concurrentqueue.h:1120-1132 | The published items are the items enqueued, in order |
| `BlockQueue.FirstInFirstOut` | src/engine/extern/tracy/client/tracy_concurrentqueue.h:1135-1195 | The item given out under an index is the one enqueued under it; when no claim is open exactly the first headIndex items have been given out |
| `BlockQueue.NoIndexGivenTwice` | src/engine/extern/tracy/client/tracy_concurrentqueue.h:1178-1184 | The element that a consumer reads next is the one enqueued under that index, and the index has not been given to anyone before |
| `BlockQueueProgress.EnqueueAlone` | src/engine/extern/tracy/client/tracy_concurrentqueue.h:1075-1132 | An enqueue that goes on alone has published its item after at most 8 accesses; a block is added exactly at a block boundary whose oldest block is not finished, and the ring is replaced exactly if it is full then |
| `BlockQueueProgress.ClaimDelivered` | src/engine/extern/tracy/client/tracy_concurrentqueue.h:1160-1186 | A consumer that has made a claim and goes on alone is through after at most three accesses per element and three more, and every index of the claim has been given out with the item enqueued under it |
| `BlockQueueProgress.CountingRunIs` | src/engine/extern/tracy/client/tracy_concurrentqueue.h:1137-1157 | Every run of the queue contains a legal run of the counting protocol with the same counters |
| `BlockQueueProgress.SoloDequeue` | src/engine/extern/tracy/client/tracy_concurrentqueue.h:1135-1195 | With no other consumer in a call, a consumer that calls and goes on alone gives out exactly the next items in order, all there are up to 8192, in a bounded number of accesses |
| `ConsumerScan.TakesIffAny` | src/engine/extern/tracy/client/tracy_concurrentqueue.h:581-609 | One call takes nothing exactly when every producer has nothing when asked; what it takes was there |
| `ConsumerScan.Nearer` | src/engine/extern/tracy/client/tracy_concurrentqueue.h:584-609 | A call that does not take from a producer that has something leaves the scan strictly nearer to it |
| `ConsumerScan.WithinNCalls` | src/engine/extern/tracy/client/tracy_concurrentqueue.h:573-611 | With n producers, one that has something in each of n calls is taken from in one of them |
| `ConsumerScan.Consumer.TryDequeueBulkSingle` | src/engine/extern/tracy/client/tracy_concurrentqueue.h:573-611 | The call ends and does what that account of a call says, from the current producer or from where a rotation puts the token; exactly `count` items leave the producer taken from and none leaves any other, while other threads keep committing items |
| `ConsumerScan.Consumer.Scan` | src/engine/extern/tracy/client/tracy_concurrentqueue.h:581-609 | The scanning loop from the current producer: the first that has something is taken from, its items alone are reduced, and the token moves on or stays accordingly |
| `ConsumerScan.Consumer.UpdateCurrentProducerAfterRotation` | src/engine/extern/tracy/client/tracy_concurrentqueue.h:654-692 | In 32-bit arithmetic the token goes on from the producer it wanted, or at first from its own offset, as many steps further around the list as the offset of the queue has grown; it fails exactly when there are no producers |
| `ConsumerScan.NewConsumer` | src/engine/extern/tracy/client/tracy_concurrentqueue.h:654-692 | The unset offset of a new token is one step of rotation, so the token starts n - (offset mod n) steps from the tail, around the list |
| `Im3dVector.Vector.PushBack` | src/engine/extern/im3d/im3d.h:547 | Appends, replacing the storage when it is full, which moves every element once; a vector that has only been pushed to has moved at most 4.5 elements for each it holds |
| `Im3dVector.Vector.PushBackElement` | src/engine/extern/im3d/im3d.h:547 | Appending a reference into the vector's own storage appends the element's value even when the storage moves |
| `Im3dVector.Vector.Grow` | src/engine/extern/im3d/im3d.cpp:1349-1366 | Growing from any full capacity leaves room for another element and keeps the contents |
| `Im3dVector.MovesPaidFor` | src/engine/extern/im3d/im3d.cpp:1349-1366 | The elements moved by n appends, as PushBack counts them, are at most 4.5 n altogether |
| `Im3dPrimitives.PairsAt` | src/engine/extern/im3d/im3d.cpp:1535-1543 | The k-th line of a strip joins the k-th and the next vertex |
| `Im3dPrimitives.TriplesAt` | src/engine/extern/im3d/im3d.cpp:1544-1552 | The k-th triangle of a strip is made of the k-th and the next two vertices |
| `Im3dPrimitives.OpenStep` | src/engine/extern/im3d/im3d.cpp:1527-1556 | What one more vertex adds to the expansion: the shared vertices, then itself |
| `Im3dPrimitives.AssertionsAcceptComplete` | src/engine/extern/im3d/im3d.cpp:1450-1471 | The assertions in `end`, which count stored vertices, accept exactly the inputs whose given vertices make whole primitives |
| `Im3dPrimitives.ExpandIsWhole` | src/engine/extern/im3d/im3d.cpp:1987-1997 | Accepted input expands to whole primitives |
| `Im3dContext.Context.Begin` | src/engine/extern/im3d/im3d.cpp:1418-1442 | Opens a primitive without touching any vertex list; points go to the points list, lines, strips and loops of lines to the lines list, triangles and their strips to the triangles list of the layer |
| `Im3dContext.Context.AddVertex` | src/engine/extern/im3d/im3d.cpp:1503-1556 | After any number of vertices the current list is what it was at `begin` followed by the expansion of the vertices given, and all other lists are untouched |
| `Im3dContext.Context.End` | src/engine/extern/im3d/im3d.cpp:1444-1486 | By its mode the primitive has added its points, its lines, the n - 1 pairs of a strip and one more for a loop, its triangles or the n - 2 triples of a strip to that list of the layer, and nothing anywhere else; every list is whole again |
| `Im3dContext.Context.PushLayerId` | src/engine/extern/im3d/im3d.cpp:1842-1862 | Makes a layer current, adding three empty lists of each kind exactly when its id is new |
| `Im3dContext.Context.PopLayerId` | src/engine/extern/im3d/im3d.cpp:1863-1868 | Returns to the layer below. The open primitive survives if and only if there is none, or the layer below is the same one, or nothing is stored yet and the list there is as long as the current one was at `begin` |
| `Im3dContext.PopInsidePrimitive` | src/engine/extern/im3d/im3d.cpp:1863-1868 | A run in which it does not survive: a line is begun on a second layer and the layer is popped after the first vertex |
| `Im3dContext.Context.FindLayerIndex` | src/engine/extern/im3d/im3d.cpp:2074-2084 | Finds the place of a layer id, or -1 exactly when it has none |
| `Im3dContext.UnsortedShows` | src/engine/extern/im3d/im3d.cpp:1780-1790 | The unsorted draw lists show every list that is not empty once and whole, in order, under its layer id and its type |
| `Im3dContext.LayerSortedMeans` | src/engine/extern/im3d/im3d.cpp:1975-2001 | A sorted layer has its triangles sorted in threes, its lines in twos and its points one by one |
| `Im3dSort.KeysOfPrimitives` | src/engine/extern/im3d/im3d.cpp:1987-1997 | The key of a point, line or triangle is the mean of the squared distances of its vertices |
| `Im3dSort.Length2Is` | src/engine/extern/im3d/im3d_math.h:35 | A squared distance is the sum of the squares of the differences along the axes |
| `Im3dContext.WholeMeans` | src/engine/extern/im3d/im3d.cpp:1450-1471 | Whole lists have their triangles in threes and their lines in twos |
| `Im3dSort.Measure` | src/engine/extern/im3d/im3d.cpp:1987-1997 | One entry per primitive with the mean squared distance of its vertices; together they are the list |
| `Im3dSort.PickedPermutes` | src/engine/extern/im3d/im3d.cpp:1956-1968 | Reordering by permuted sort data permutes whole primitives |
| `Im3dSort.ChunksOfConcat` | src/engine/extern/im3d/im3d.cpp:1956-1968 | Cutting a reordered list up again gives the primitives it was put together from |
| `Im3dSort.SortList` | src/engine/extern/im3d/im3d.cpp:1981-2001 | A list after sorting holds the same primitives, whole, by descending key; equal keys in any order |
| `Im3dMerge.FindMax` | src/engine/extern/im3d/im3d.cpp:2027-2038 | The scan finds a greatest next key over the lists that are not used up; on a tie the current type stays |
| `Im3dMerge.Partition` | src/engine/extern/im3d/im3d.cpp:2003-2068 | The merge appends draw lists of one layer that visit the sorted primitives in non-increasing key order, each a non-empty contiguous slice of whole primitives of its own type, neighbours of different type |
| `Im3dMerge.EveryPrimitiveOnce` | src/engine/extern/im3d/im3d.cpp:2023-2068 | Such draw lists show every primitive of the three lists exactly once and nothing else |
| `Im3dContext.SortLayers` | src/engine/extern/im3d/im3d.cpp:1971-2070 | Sorting the layers one after another sorts and draws each of them and disturbs none |
| `Im3dContext.Context.Sort` | src/engine/extern/im3d/im3d.cpp:1971-2072 | Every layer is sorted and drawn, one group of draw lists per layer, after the draw lists that were there |
| `Im3dContext.Context.EndFrame` | src/engine/extern/im3d/im3d.cpp:1773-1795 | The frame's draw lists: every unsorted list that is not empty, in order, then the groups of the sorted layers |
| `TowerProperties.DueLeaves` | src/examples/tower_defence/game_state.cpp:165-169 | After the shots that are due a tower has waited at least 0 and at most one interval |
| `TowerProperties.FireAllIsGood` | src/examples/tower_defence/game_state.cpp:139-187 | Towers keep ids and types; the new projectiles have consecutive fresh ids and aim, by index and id, at an enemy that is there |
| `TowerProperties.FlyAllKeeps` | src/examples/tower_defence/game_state.cpp:214-265 | Projectiles that fly on keep their ids, all ids stay distinct, and gold never falls |
| `TowerProperties.WhoIsHurt` | src/examples/tower_defence/game_state.cpp:218-264 | An enemy that a projectile changes is its target by index and id, or alive within the splash radius of the point of impact |
| `TowerProperties.DirectHit` | src/examples/tower_defence/game_state.cpp:190-252 | Without splash an arrival takes exactly its damage from the target with the right id, pays the reward and reports the death exactly if that kills; if the target is gone nothing changes |
| `TowerProperties.SplashHit` | src/examples/tower_defence/game_state.cpp:248-263 | The exact health an arrival leaves of any enemy: the target with the right id takes the damage first, then everyone still alive in the splash radius takes it once |
| `TowerProperties.OnlyTheGoneLeave` | src/examples/tower_defence/game_state.cpp:37-47 | Moving removes exactly the enemies that are dead or at the goal |
| `TowerProperties.ExecuteKeeps` | src/examples/tower_defence/game_state.cpp:268-318 | Every command keeps the invariant; in particular gold is never overdrawn |
| `TowerProperties.StepKeepsInv` | src/examples/tower_defence/game_state.cpp:7-319 | A step with valid commands keeps: ids distinct over all lists and below nextObjectId, enemies and towers strictly increasing, waypoint and type indices in range, health, gold and waiting times never negative; surviving ids come from before, others are new |
| `TowerEffects.EnemiesAdvance` | src/examples/tower_defence/game_state.cpp:37-137 | Exactly the enemies with health left and away from the goal stay, in order; each passes its waypoint if it is within one unit of it along the path and there is another, and its distance to the goal is that of the rest of the path |
| `TowerEffects.InRadiusIff` | src/examples/tower_defence/game_state.cpp:359-372 | Exactly the enemies with health left, no further away than the radius, can be aimed at or hit by a splash |
| `TowerEffects.DistanceSqrIs` | src/engine/math.h:127 | The squared distance is the sum of the squares of the differences along the axes |
| `TowerEffects.IdleTower` | src/examples/tower_defence/game_state.cpp:148-154 | A tower with no enemy in range does nothing and does not wait |
| `TowerEffects.TowerFires` | src/examples/tower_defence/game_state.cpp:156-187 | A tower with an enemy in range turns to the one nearest to the goal and makes a shot for each whole interval waited: time, shots and what is left add up, and each shot starts at its tower, is of its kind, aims at that enemy and is announced |
| `TowerEffects.Flies` | src/examples/tower_defence/game_state.cpp:214-252 | A projectile whose target index is gone disappears, one out of reach of its target flies on towards it and touches nothing, any other arrives |
| `TowerEffects.ArrivalPays` | src/examples/tower_defence/game_state.cpp:190-212 | An arrival pays the reward for its target if the direct hit kills it and for everyone the splash kills, and nothing else |
| `TowerEffects.ArrivalReports` | src/examples/tower_defence/game_state.cpp:194-210 | Every event of an arrival carries the index of its target, also for enemies that the splash has hit |
| `TowerCommands.CommandHasEffect` | src/examples/tower_defence/game_state.cpp:272-316 | The exact effect of each command on the state: what BuildTower takes and adds if the gold suffices, what AddGold adds, the enemy that SpawnEnemy places, and that nothing else changes |
| `TowerCommands.StepHasEffects` | src/examples/tower_defence/game_state.cpp:268-318 | The commands of a step have those effects one after another on what the step has made of the rest |
| `TowerCommands.StepPays` | src/examples/tower_defence/game_state.cpp:293-311 | After a step the gold is what it was before the commands, plus all that they added, less the cost of exactly the towers that stand anew |
| `GameStates.MoveEnemies` | src/examples/tower_defence/game_state.cpp:37-137 | The loop moves every enemy that is alive and not at the goal and drops the others |
| `GameStates.Shoot` | src/examples/tower_defence/game_state.cpp:165-186 | The inner loop ends and makes as many shots as intervals have passed |
| `GameStates.UpdateTower` | src/examples/tower_defence/game_state.cpp:141-187 | One tower: query, target, rotation, shots |
| `GameStates.UpdateProjectile` | src/examples/tower_defence/game_state.cpp:214-265 | One projectile: dropped, moved, or direct hit before splash |
| `GameStates.ExecuteCommands` | src/examples/tower_defence/game_state.cpp:268-318 | The commands are executed in queue order |
| `GameStates.TimeStep` | src/examples/tower_defence/game_state.cpp:7-319 | Whatever the next state held before, it holds the step of the initial state afterwards, and the initial state is untouched |
| `GameSessions.Fold` | src/examples/tower_defence/game_session.cpp:41-45 | The states of a session are the step function folded over the command batches, and every one of them satisfies the invariant |
| `GameSessions.GameSession.FromMap` | src/examples/tower_defence/game_session.cpp:26-36 | A session starts one step after the empty state with the map's gold and lives |
| `GameSessions.GameSession.TimeStep` | src/examples/tower_defence/game_session.cpp:41-45 | After any number of steps the next buffer is the fold over all batches, the previous buffer the fold over all but the last, and the two never alias |
| `GameSessions.DueInParts` | src/examples/tower_defence/game.cpp:42-45 | Cutting a stretch of time in two changes neither the number of steps due nor the time left over |
| `GameSessions.FramesDoNotMatter` | src/examples/tower_defence/game.cpp:32-45 | Over any frames the number of steps and the time left over depend on the total time alone |
| `GameSessions.RunDue` | src/examples/tower_defence/game.cpp:42-56 | The step loop ends; the queued commands go to the first step, the others get none, and they stay queued if there is no step |
| `GameSessions.Game.Update` | src/examples/tower_defence/game.cpp:32-56 | After every frame: steps taken and time left are those of the total time, the time left is in [0, FIXED_DELTA], and the commands executed so far followed by those waiting are all commands ever queued, in order |
| `Interpolation.InterpolateEntities` | src/examples/tower_defence/game_state.cpp:321-343 | The loop with its 32-bit step back is the one-pass join |
| `Interpolation.MixedAt` | src/examples/tower_defence/game_state.cpp:328-342 | Each pair of the join gives one entity, mixed from the earlier and the later one in this order |
| `Interpolation.JoinIsCommon` | src/examples/tower_defence/game_state.cpp:324-342 | For lists in ascending id order whose new ids all come last, the join is exactly the common entities, in order, each paired with its own past |
| `Interpolation.JoinStuck` | src/examples/tower_defence/game_state.cpp:328-332 | If the first entity of the later list is new, the join is empty |
| `Interpolation.StepInterpolates` | src/examples/tower_defence/game_state.cpp:345-357 | After any step the enemies and the towers that are interpolated are exactly those present before and after |
| `Interpolation.ProjectilesInterpolateIff` | src/examples/tower_defence/game_state.cpp:356 | All projectiles there are after a step are interpolated, unless a tower with an enemy in range has waited longer than its interval; then there are some and none is |
| `Interpolation.ProjectileNotInterpolated` | src/examples/tower_defence/game_state.cpp:324-356 | A state with a projectile that is in flight before and after the step, while a tower shoots, and is not interpolated |
| `FrameBuffers.FrameBuffer.CommitData` | src/engine/extern/tracy/client/TracyProfiler.cpp:2154-2160 | Sends the pending frame, loses nothing, and stays inside the buffer |
| `FrameBuffers.FrameBuffer.NeedDataSize` | src/engine/extern/tracy/client/TracyProfiler.hpp:536-545 | Afterwards the data fits into the current frame; what is sent for that is not empty |
| `FrameBuffers.FrameBuffer.AppendDataUnsafe` | src/engine/extern/tracy/client/TracyProfiler.hpp:547-551 | Writes inside the buffer of three frames and appends to the stream |
| `FrameBuffers.FrameBuffer.AppendData` | src/engine/extern/tracy/client/TracyProfiler.hpp:529-534 | For any data of at most a frame: sent frames of at most a frame each, followed by the pending bytes, are all bytes appended |
| `FrameBuffers.FrameBuffer.SendString` | src/engine/extern/tracy/client/TracyProfiler.cpp:2169-2192 | Header, length and text of a string go into one frame |
| `FrameBuffers.CallstackFitsIff` | src/engine/extern/tracy/client/TracyProfiler.cpp:2257-2268 | The room made for a call stack, whose length is cut to 16 bits, is enough whatever the frame holds if and only if the stack has fewer than 8192 frames |
| `FrameBuffers.ReceiverHasRoom` | src/engine/extern/tracy/server/TracyWorker.cpp:2777-2799 | The receiver, which slides through its own buffer frame by frame, always has room for another frame; FrameBuffer's invariant says its position is the sender's |
| `FrameBuffers.NextFrameApart` | src/engine/extern/tracy/client/TracyProfiler.cpp:2156-2158 | A frame never overlaps the frame before it, which the stream compressor refers to |
| `TimeStream.ClocksAgree` | src/engine/extern/tracy/client/TracyProfiler.cpp:1791-1942 | The type that goes out on the wire determines the same clock for the receiver as the sender used, for both senders |
| `TimeStream.WireTypes` | src/engine/extern/tracy/client/TracyProfiler.cpp:1784-1866 | A type whose payload is sent ahead goes out as the type after it, which no queue holds; every other type goes out as itself |
| `TimeStream.WireIsUnambiguous` | src/engine/extern/tracy/client/TracyProfiler.cpp:1784-1866 | The type on the wire tells which type was sent |
| `TimeStream.Through` | src/engine/extern/tracy/client/TracyProfiler.cpp:1868-1876 | One event through sender and receiver: sums and references stay in step and the receiver sees the original time, less what the thread clock was ahead |
| `TimeStream.TracksSwitch` | src/engine/extern/tracy/client/TracyProfiler.cpp:1760-1770 | Announcing a thread, or not announcing the one announced last, keeps the two sides in step |
| `TimeStream.TracksEvent` | src/engine/extern/tracy/client/TracyProfiler.cpp:1780-1945 | Any event of either sender keeps the two sides in step |
| `TimeStream.Sender.Connect` | src/engine/extern/tracy/client/TracyProfiler.cpp:1390-1393 | A connection resets every clock but the thread clock |
| `TimeStream.Sender.Dequeue` | src/engine/extern/tracy/client/TracyProfiler.cpp:1756-1962 | A batch of a thread's events keeps the two sides in step, also if the connection is lost on the way |
| `TimeStream.Sender.DequeueSerial` | src/engine/extern/tracy/client/TracyProfiler.cpp:2024-2152 | A batch of serial events keeps the two sides in step, sharing the GPU clock with the other sender |
| `TimeStream.RecoversIff` | src/engine/extern/tracy/client/TracyProfiler.cpp:1390-1393 | The receiver recovers every time if and only if the thread clock was left at zero or thread number 0 sends no thread-clocked event before another thread is announced |
| `TimeStream.NumberedThreadsRecover` | src/engine/extern/tracy/client/TracyProfiler.cpp:1760-1770 | If every thread has a number other than 0, as operating systems give them, the receiver recovers every time whatever clock was left over |
| `TimeStream.ThreadZeroNotRecovered` | src/engine/extern/tracy/client/TracyProfiler.cpp:1390-1393 | A thread numbered 0 would lose a time after a connection that left the thread clock ahead |
| `Dxt1.FormsAgree` | src/engine/extern/tracy/client/TracyDxt1.cpp:30-41 | The two colour conversions agree on every colour, given as three bytes or as the word they begin |
| `Dxt1.FormIsTo565` | src/engine/extern/tracy/client/TracyDxt1.cpp:30-33 | The bits stand for the number r / 8 * 2048 + g / 4 * 32 + b / 8 |
| `Dxt1.RangeHolds` | src/engine/extern/tracy/client/TracyDxt1.cpp:425-433 | No pixel lies outside the range found |
| `Dxt1.RangeIsMet` | src/engine/extern/tracy/client/TracyDxt1.cpp:425-433 | Each end of the range is some pixel's |
| `Dxt1.InsetsKeepApart` | src/engine/extern/tracy/client/TracyDxt1.cpp:437-442 | Insets never cross or leave the range, and keep ends apart that differ in the bits kept |
| `Dxt1.IndexFits` | src/engine/extern/tracy/client/TracyDxt1.cpp:447-449 | Every index fits into two bits, with the divisor table of the generator formula |
| `Dxt1.IndexRises` | src/engine/extern/tracy/client/TracyDxt1.cpp:447-448 | A brighter pixel never gets a smaller index |
| `Dxt1.OrAbove` | src/engine/extern/tracy/client/TracyDxt1.cpp:449 | Or-ing an index into its field is adding it: fields do not overlap |
| `Dxt1.RoundTrip` | src/engine/extern/tracy/client/TracyDxt1.cpp:444-451 | The sixteen indices can be read back from the packed word |
| `Dxt1.FirstIsGreaterIff` | src/engine/extern/tracy/client/TracyDxt1.cpp:417-453 | The first endpoint is strictly greater in a block of several colours; it is at least the second if and only if the block has several colours or its one colour is zero |
| `Dxt1.UniformIsOneColour` | src/engine/extern/tracy/client/TracyDxt1.cpp:406-417 | The comparison of masked pixels accepts exactly the blocks whose pixels all get the same 16-bit colour |
| `Dxt1.WhiteBlock` | src/engine/extern/tracy/client/TracyDxt1.cpp:417-420 | In a white block the first endpoint is the smaller one |
| `Dxt1.IndicesKept` | src/engine/extern/tracy/client/TracyDxt1.cpp:444-453 | A compressed block of several colours keeps all indices, ordered as the brightness of the pixels |
| `Dxt1.IndicesSpread` | src/engine/extern/tracy/client/TracyDxt1.cpp:435-451 | In a block of several colours a pixel at the lower end of all channels gets index 0, one at the upper end of all gets 3 exactly if the ranges add up to at least 4, and pixels more than a quarter of that sum apart never share an index |
| `Dxt1.TopIndex` | src/engine/extern/tracy/client/TracyDxt1.cpp:435-449 | The index at the upper end for every sum of ranges: 3 from 4 on, one less than the sum below |
| `Dxt1.NarrowBlock` | src/engine/extern/tracy/client/TracyDxt1.cpp:435-449 | A block of two colours all of whose indices are 0 |
| `Dxt1.EndpointFields` | src/engine/extern/tracy/client/TracyDxt1.cpp:437-453 | The red, green and blue fields of the endpoints are those of the ends of the channels, moved inwards by a sixteenth: upper ends first, lower ends second |
| `Dxt1.UniformFields` | src/engine/extern/tracy/client/TracyDxt1.cpp:417-420 | A block of one colour has the fields of its pixels in the second endpoint and zero elsewhere |
| `Dxt1.ProcessRGB` | src/engine/extern/tracy/client/TracyDxt1.cpp:406-454 | The loops compute that compression |
| `Dxt1.BlockPixel` | src/engine/extern/tracy/client/TracyDxt1.cpp:609-614 | Pixel x, y of a block is the pixel of the image that lies there |
| `Dxt1.CompressImageDxt1` | src/engine/extern/tracy/client/TracyDxt1.cpp:600-626 | Every block of the image is compressed exactly once, into its row-major slot |
| `SpriteBatches.GreedyDraws` | src/engine/render/dx11/render_context_dx11.cpp:311-348 | Draw calls that each take as much as they can draw the list in order, each of one texture with 1 to 1024 sprites |
| `SpriteBatches.FewestCalls` | src/engine/render/dx11/render_context_dx11.cpp:311-348 | No way to draw the list in order within those limits takes fewer draw calls |
| `SpriteBatches.TextureTells` | src/engine/render/dx11/render_context_dx11.cpp:315-330 | Two sprites share a draw call's texture exactly if they have the same texture or both have none |
| `SpriteBatches.FillBatch` | src/engine/render/dx11/render_context_dx11.cpp:322-342 | The inner loop takes the longest run that fits |
| `SpriteBatches.Submit` | src/engine/render/dx11/render_context_dx11.cpp:311-348 | The batching loop ends and makes exactly such draw calls, counted once each |
| `LuaEraser.EndIsFirst` | src/engine/extern/tracy/TracyLua.hpp:40-50 | The end found is the first place where the parentheses balance |
| `LuaEraser.EndIfBalanced` | src/engine/extern/tracy/TracyLua.hpp:40-50 | If they balance anywhere the end is found, no later than there |
| `LuaEraser.Erased` | src/engine/extern/tracy/TracyLua.hpp:52-121 | Erasing keeps the length and only turns characters into blanks |
| `LuaEraser.CallIff` | src/engine/extern/tracy/TracyLua.hpp:52-121 | The calls are exactly the texts that begin with one of eight words: two calls without arguments and six beginnings of calls |
| `LuaEraser.EndOfCall` | src/engine/extern/tracy/TracyLua.hpp:40-121 | A call ends where its parentheses balance for the first time after its word |
| `LuaEraser.CallBlanked` | src/engine/extern/tracy/TracyLua.hpp:52-121 | Every call that is not inside another one is blanked from its first character to its last |
| `LuaEraser.ChangedInCall` | src/engine/extern/tracy/TracyLua.hpp:52-121 | A character that has changed lies in a profiler call that runs to its balancing parenthesis |
| `LuaEraser.NoCallsLeft` | src/engine/extern/tracy/TracyLua.hpp:52-121 | Afterwards there is no profiler call at any position of the text |
| `LuaEraser.Idempotent` | src/engine/extern/tracy/TracyLua.hpp:52-121 | Erasing twice is erasing once |
| `LuaEraser.FindEndInPlace` | src/engine/extern/tracy/TracyLua.hpp:40-50 | The counting loop finds the end |
| `LuaEraser.LuaRemove` | src/engine/extern/tracy/TracyLua.hpp:52-121 | For a text whose calls close, the in-place loop ends, erases the text and leaves everything behind its NUL alone |

## Left out

- Queue: memory orders weaker than sequential consistency, failing allocation, and indices at or above 2^63 (the model's steps stop there).
- Queue: blocks are never recycled to the free list before the queue is destroyed, as in the source; destruction, moving and swapping queues are not modelled.
- Queue: `FreeList` and `BlockQueue` are state machines over values, since their steps interleave; fields updated in place are components of the state.
- BlockQueue.StepKeeps: the ring index advances by a remainder where the source masks; `RingIndex.MaskIsRemainder` is the link.
- Queue: the initial pool of blocks, `requisition_block` and the emptiness flags for small block sizes; the compiled block size uses the counter.
- ConsumerScan.WithinNCalls: the set of producers is fixed; a producer added during the calls is not modelled.
- ConsumerScan.Consumer.TryDequeueBulkSingle: one producer's own `dequeue_bulk` is atomic here; `DequeueCounting` and `BlockQueue` model its steps.
- im3d: matrix and alpha stacks (vertices arrive transformed), culling, text, gizmos, `merge`, and the ordering of floating-point sums (keys are real numbers).
- Im3dContext.Context.Begin: the mode is not None, with which `begin` would leave no list to draw to.
- Im3dSort.QSort: stands for the library's sort; only a descending permutation is promised.
- Tower defence: positions, angles and steering come from unknown functions; numbers are real, ids and indices unbounded except in the join.
- TowerProperties.StepKeepsInv: maps with non-positive shots per second are excluded; with a negative rate the shooting loop would not end.
- GameSessions.GameSession.FromMap: a map that starts with negative gold is excluded.
- Tower defence: one reward per enemy is not claimed; a second hit in the same step pays again, as in the source.
- Tower defence: loading of maps, rendering, input and audio; `lives` is never changed by a step.
- Wire: sockets and compression; `SendData` appends a frame to a log and may report failure.
- TimeStream.Sender.Dequeue: `DequeueContextSwitches` and payloads sent ahead of an event are not part of this model; times are 64-bit words that wrap.
- FrameBuffers.FrameBuffer.SendString: the string is shorter than 65536 bytes, as its assertion demands; what a call stack of 8192 or more frames overwrites is not modelled.
- DXT1: the vector instruction paths, and alpha, which the compressor ignores.
- Sprite batching: sorting before rendering, whose comparison is not an order, and the fields copied per sprite.
- LuaEraser.LuaRemove: a text whose matched call never closes is excluded; the source would read past its end.
