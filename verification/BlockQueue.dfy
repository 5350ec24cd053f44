/**
 One producer's queue: elements in a circular chain of blocks, found by consumers
 through a growing ring of block index entries.

 The producer and any number of consumers interleave, one access to shared memory a
 step. Claiming indices is the counting protocol of `DequeueCounting`, embedded here
 step by step; this module follows a claimed index from the ring to the block, the
 element and the block's emptiness counter, against a producer that keeps reusing
 blocks, overwriting ring slots and replacing the ring.

 `History` records what was started, written, delivered and finished. No step of the
 queue looks at it.
 */
module BlockQueue {
  import opened Options
  import opened Sets
  import C = DequeueCounting
  import R = RingIndex
  import Words

  type Thread = nat
  type BlockId = nat
  type Item = int

  const BS: int := 0x1_0000

  // The block an index belongs to, the first index of a block, the place in its block.
  function BlockOf(x: nat): nat { x / 0x1_0000 }

  function Base(m: nat): nat { m * 0x1_0000 }

  function Place(x: nat): nat { x % 0x1_0000 }

  datatype Block = Block(next: BlockId, dequeued: nat, elements: map<nat, Item>)

  datatype Entry = Entry(base: nat, block: BlockId)

  // A block index: only the producer writes it, and only while it is the last one.
  datatype Header = Header(size: nat, front: nat, entries: seq<Entry>)

  datatype ProducerPc =
    | Rest
    | CheckEmpty(item: Item)
    | Reuse(item: Item)
    | NeedBlock(item: Item)
    | Link(item: Item)
    | WriteBase(item: Item)
    | WriteBlock(item: Item)
    | StoreFront(item: Item)
    | WriteItem(item: Item)
    | PublishTail(item: Item)

  datatype Producer = Producer(tailBlock: Option<BlockId>, slotsUsed: nat, size: nat, front: nat, pc: ProducerPc)

  // A consumer that has claimed the indices from its first number up to `end`.
  datatype Reader =
    | Counting
    | LoadIndex(first: nat, end: nat)
    | LoadFront(first: nat, end: nat, header: nat)
    | LoadBase(first: nat, end: nat, header: nat, front: nat)
    | ReadBlock(first: nat, end: nat, header: nat, slot: nat)
    | ReadItem(first: nat, at: nat, stop: nat, end: nat, header: nat, slot: nat, block: BlockId)
    | SetEmpty(first: nat, stop: nat, end: nat, header: nat, slot: nat, block: BlockId)

  datatype Queue = Queue(
    counters: C.Counters,
    blocks: map<BlockId, Block>,
    headers: seq<Header>,
    producer: Producer,
    readers: map<Thread, Reader>)

  datatype Action = Enqueue(item: Item) | RunProducer(spare: BlockId) | RunConsumer(thread: Thread)

  // ------------------------------------------------------------- the producer

  function TailBlock(q: Queue): BlockId
    requires q.producer.tailBlock.Some?
  {
    q.producer.tailBlock.value
  }

  predicate TailBlockExists(q: Queue) {
    q.producer.tailBlock.Some? && TailBlock(q) in q.blocks && q.blocks[TailBlock(q)].next in q.blocks
  }

  function Current(q: Queue): Header
    requires |q.headers| > 0
  {
    q.headers[|q.headers| - 1]
  }

  predicate ProducerCan(q: Queue, spare: BlockId) {
    var p := q.producer;
    match p.pc
    case Rest => false
    case CheckEmpty(_) => p.tailBlock.Some? ==> TailBlockExists(q)
    case Reuse(_) => TailBlockExists(q)
    case NeedBlock(_) => |q.headers| > 0 && 0 < |Current(q).entries| && p.slotsUsed <= |Current(q).entries|
    case Link(_) => spare !in q.blocks && (p.tailBlock.Some? ==> TailBlockExists(q))
    case WriteBase(_) => |q.headers| > 0 && p.front < |Current(q).entries|
    case WriteBlock(_) => |q.headers| > 0 && p.front < |Current(q).entries| && p.tailBlock.Some?
    case StoreFront(_) => |q.headers| > 0 && p.size > 0
    case WriteItem(_) => TailBlockExists(q)
    case PublishTail(_) => C.Enabled(q.counters, C.Publish)
  }

  function WithCurrent(q: Queue, header: Header): Queue
    requires |q.headers| > 0
  {
    q.(headers := q.headers[|q.headers| - 1 := header])
  }

  function At(q: Queue, pc: ProducerPc): Queue { q.(producer := q.producer.(pc := pc)) }

  // The ring of double size, its live entries in chronological order from slot 0.
  function Doubled(q: Queue): Header
    requires |q.headers| > 0 && 0 < |Current(q).entries| && q.producer.slotsUsed <= |Current(q).entries|
  {
    var p := q.producer;
    var live := R.Unrolled(Current(q).entries, p.front, p.slotsUsed);
    Header(2 * p.size, Words.Wrap64(p.slotsUsed - 1), live + seq(R.Abs(2 * p.size - |live|), _ => Entry(0, 0)))
  }

  // A new block goes between the tail block and the oldest one.
  function Linked(q: Queue, spare: BlockId): map<BlockId, Block>
    requires q.producer.tailBlock.Some? ==> TailBlockExists(q)
  {
    if q.producer.tailBlock.None? then q.blocks[spare := Block(spare, 0, map[])] else
    var tail := TailBlock(q);
    q.blocks[spare := Block(q.blocks[tail].next, 0, map[])][tail := q.blocks[tail].(next := spare)]
  }

  function ProducerStep(q: Queue, spare: BlockId): Queue
    requires ProducerCan(q, spare)
  {
    var p := q.producer;
    match p.pc
    case CheckEmpty(item) =>
      if p.tailBlock.Some? && q.blocks[q.blocks[TailBlock(q)].next].dequeued == BS
      then At(q, Reuse(item))
      else At(q, NeedBlock(item))
    case Reuse(item) =>
      var next := q.blocks[TailBlock(q)].next;
      q.(blocks := q.blocks[next := q.blocks[next].(dequeued := 0)],
      producer := p.(tailBlock := Some(next), pc := WriteBase(item)))
    case NeedBlock(item) =>
      if p.slotsUsed == p.size
      then q.(headers := q.headers + [Doubled(q)],
           producer := p.(size := 2 * p.size, front := p.slotsUsed, pc := Link(item)))
      else At(q, Link(item))
    case Link(item) =>
      q.(blocks := Linked(q, spare),
      producer := p.(tailBlock := Some(spare), slotsUsed := p.slotsUsed + 1, pc := WriteBase(item)))
    case WriteBase(item) =>
      var h := Current(q);
      var entry := h.entries[p.front].(base := q.counters.tail);
      At(WithCurrent(q, h.(entries := h.entries[p.front := entry])), WriteBlock(item))
    case WriteBlock(item) =>
      var h := Current(q);
      var entry := h.entries[p.front].(block := TailBlock(q));
      At(WithCurrent(q, h.(entries := h.entries[p.front := entry])), StoreFront(item))
    case StoreFront(item) =>
      WithCurrent(q, Current(q).(front := p.front)).(
      producer := p.(front := (p.front + 1) % p.size, pc := WriteItem(item)))
    case WriteItem(item) =>
      var b := q.blocks[TailBlock(q)];
      q.(blocks := q.blocks[TailBlock(q) := b.(elements := b.elements[Place(q.counters.tail) := item])],
      producer := p.(pc := PublishTail(item)))
    case PublishTail(item) => q.(counters := C.Step(q.counters, C.Publish), producer := p.(pc := Rest))
  }

  // ------------------------------------------------------------ the consumers

  predicate ConsumerCan(q: Queue, t: Thread) {
    && t in q.readers && t in q.counters.pc
    && match q.readers[t]
       case Counting => C.Enabled(q.counters, C.Action.Run(t))
       case LoadIndex(_, _) => |q.headers| > 0
       case LoadFront(_, _, h) => h < |q.headers|
       case LoadBase(_, _, h, front) =>
         h < |q.headers| && front < |q.headers[h].entries| && q.headers[h].size > 0
       case ReadBlock(_, _, h, slot) => h < |q.headers| && slot < |q.headers[h].entries|
       case ReadItem(_, at, _, _, _, _, block) => block in q.blocks && Place(at) in q.blocks[block].elements
       case SetEmpty(_, _, _, h, _, block) => block in q.blocks && h < |q.headers| && q.headers[h].size > 0
  }

  // The end of the part of a claim that lies in the block of its first index.
  function StopOf(first: nat, end: nat): nat {
    var blockEnd := Base(BlockOf(first) + 1);
    if end < blockEnd then end else blockEnd
  }

  function WithReader(q: Queue, t: Thread, r: Reader): Queue { q.(readers := q.readers[t := r]) }

  function ConsumerStep(q: Queue, t: Thread): Queue
    requires ConsumerCan(q, t)
  {
    match q.readers[t]
    case Counting =>
      var q' := q.(counters := C.Step(q.counters, C.Action.Run(t)));
      if q.counters.pc[t].TakeHead?
      then WithReader(q', t, LoadIndex(q.counters.head, q'.counters.head))
      else q'
    case LoadIndex(first, end) => WithReader(q, t, LoadFront(first, end, |q.headers| - 1))
    case LoadFront(first, end, h) => WithReader(q, t, LoadBase(first, end, h, q.headers[h].front))
    case LoadBase(first, end, h, front) =>
      var slot := R.Slot(front, Base(BlockOf(first)), q.headers[h].entries[front].base, q.headers[h].size);
      WithReader(q, t, ReadBlock(first, end, h, slot))
    case ReadBlock(first, end, h, slot) =>
      WithReader(q, t, ReadItem(first, first, StopOf(first, end), end, h, slot, q.headers[h].entries[slot].block))
    case ReadItem(first, at, stop, end, h, slot, block) =>
      WithReader(q, t, if at + 1 == stop then SetEmpty(first, stop, end, h, slot, block)
                       else ReadItem(first, at + 1, stop, end, h, slot, block))
    case SetEmpty(first, stop, end, h, slot, block) =>
      var b := q.blocks[block];
      WithReader(q.(blocks := q.blocks[block := b.(dequeued := b.dequeued + R.Abs(stop - first))]), t,
      if stop == end then Counting else ReadBlock(stop, end, h, (slot + 1) % q.headers[h].size))
  }

  // What the consumer's callback reads in a ReadItem step.
  function Given(q: Queue, t: Thread): Item
    requires ConsumerCan(q, t) && q.readers[t].ReadItem?
  {
    q.blocks[q.readers[t].block].elements[Place(q.readers[t].at)]
  }

  predicate Can(q: Queue, a: Action) {
    match a
    case Enqueue(_) => q.producer.pc.Rest?
    case RunProducer(spare) => ProducerCan(q, spare)
    case RunConsumer(t) => ConsumerCan(q, t)
  }

  function Step(q: Queue, a: Action): Queue
    requires Can(q, a)
  {
    match a
    case Enqueue(item) => At(q, if Place(q.counters.tail) == 0 then CheckEmpty(item) else WriteItem(item))
    case RunProducer(spare) => ProducerStep(q, spare)
    case RunConsumer(t) => ConsumerStep(q, t)
  }

  ghost predicate Init(q: Queue) {
    && C.Init(q.counters)
    && q.blocks == map[]
    && |q.headers| == 1 && |q.headers[0].entries| == q.headers[0].size == q.producer.size
    && R.IsRingSize(q.producer.size) && q.producer.size <= R.TWO_48
    && q.producer.tailBlock == None && q.producer.slotsUsed == q.producer.front == 0 && q.producer.pc == Rest
    && q.readers.Keys == q.counters.pc.Keys && forall t :: t in q.readers ==> q.readers[t] == Counting
  }

  // -------------------------------------------------------------- the history

  // Of a ring: the entry that slot 0 was first given, and the entries it still holds.
  datatype Info = Info(zero: nat, lo: nat, hi: nat)

  datatype History = History(
    counting: C.History,
    started: seq<BlockId>,        // the block of every block entry, oldest first
    exposed: nat,                 // how many of those consumers can find
    infos: seq<Info>,             // one per header
    log: seq<Item>,               // everything enqueued
    done: set<nat>,               // indices whose emptiness has been recorded
    delivered: map<nat, Item>,    // what consumers were given, by index
    newest: map<Thread, nat>)     // the newest entry a consumer saw

  const NoHistory := History(C.NoHistory, [], 0, [Info(0, 0, 0)], [], {}, map[], map[])

  function Oldest(q: Queue, h: History): nat {
    if q.producer.slotsUsed <= |h.started| then |h.started| - q.producer.slotsUsed else 0
  }

  predicate Within(lo: nat, x: nat, hi: nat) { lo <= x < hi }

  function Interval(lo: nat, hi: nat): set<nat> { set x | lo <= x < hi && Within(lo, x, hi) }

  function WithInfo(h: History, info: Info): History
    requires |h.infos| > 0
  {
    h.(infos := h.infos[|h.infos| - 1 := info])
  }

  function Record(q: Queue, h: History, a: Action): History
    requires Can(q, a) && |h.infos| > 0
  {
    var info := h.infos[|h.infos| - 1];
    match a
    case Enqueue(_) => h
    case RunProducer(spare) =>
      (match q.producer.pc
       case Reuse(_) =>
         WithInfo(h, info.(lo := info.lo + 1)).(started := h.started + [q.blocks[TailBlock(q)].next])
       case NeedBlock(_) =>
         if q.producer.slotsUsed == q.producer.size
         then h.(infos := h.infos + [Info(Oldest(q, h), Oldest(q, h), h.exposed)])
         else h
       case Link(_) => h.(started := h.started + [spare])
       case StoreFront(_) => WithInfo(h, info.(hi := h.exposed + 1)).(exposed := h.exposed + 1)
       case PublishTail(item) => h.(log := h.log + [item], counting := C.Record(q.counters, h.counting, C.Publish))
       case _ => h)
    case RunConsumer(t) =>
      match q.readers[t]
      case Counting => h.(counting := C.Record(q.counters, h.counting, C.Action.Run(t)))
      case LoadFront(_, _, header) =>
        if header < |h.infos| && h.infos[header].hi > 0
        then h.(newest := h.newest[t := h.infos[header].hi - 1])
        else h
      case ReadItem(_, at, _, _, _, _, _) => h.(delivered := h.delivered[at := Given(q, t)])
      case SetEmpty(first, stop, _, _, _, _) => h.(done := h.done + Interval(first, stop))
      case _ => h
  }

  // ------------------------------------------------------------ the invariant

  predicate Starting(pc: ProducerPc) { pc.WriteBase? || pc.WriteBlock? || pc.StoreFront? }

  // How far the tail is into the block started last.
  predicate TailOk(pc: ProducerPc, tail: nat, started: nat) {
    match pc
    case Rest => tail <= Base(started) && (started > 0 ==> tail > Base(started - 1))
    case WriteItem(_) => started > 0 && Base(started - 1) <= tail < Base(started)
    case PublishTail(_) => started > 0 && Base(started - 1) <= tail < Base(started)
    case _ => if Starting(pc) then started > 0 && tail == Base(started - 1) else tail == Base(started)
  }

  predicate ProducerOk(q: Queue, h: History) {
    var p := q.producer;
    && p.slotsUsed <= |h.started| && p.slotsUsed <= p.size
    && |h.started| == h.exposed + (if Starting(p.pc) then 1 else 0)
    && (p.slotsUsed == 0 <==> h.started == [])
    && (p.tailBlock == if h.started == [] then None else Some(h.started[|h.started| - 1]))
    && |h.log| == q.counters.tail < Words.TWO_63
    && TailOk(p.pc, q.counters.tail, |h.started|)
    && (p.pc.Link? ==> p.slotsUsed < p.size)
    && (p.pc.Reuse? ==> p.slotsUsed > 0)
  }

  predicate ChainOk(q: Queue, h: History) {
    var o, n := Oldest(q, h), |h.started|;
    && (forall i :: o <= i < n ==> h.started[i] in q.blocks)
    && (forall i, j :: o <= i < j < n ==> h.started[i] != h.started[j])
    && (forall i :: o <= i < n - 1 ==> q.blocks[h.started[i]].next == h.started[i + 1])
    && (o < n ==> q.blocks[h.started[n - 1]].next == h.started[o])
  }

  function DoneIn(done: set<nat>, m: nat): set<nat> { set x | x in done && BlockOf(x) == m }

  predicate Holds(b: Block, x: nat, item: Item) { Place(x) in b.elements && b.elements[Place(x)] == item }

  // A live block counts its finished elements and still holds every published one.
  ghost predicate BlockOk(q: Queue, h: History, m: nat)
    requires m < |h.started| && h.started[m] in q.blocks && |h.log| == q.counters.tail
  {
    var b := q.blocks[h.started[m]];
    && b.dequeued == |DoneIn(h.done, m)|
    && forall x: nat :: BlockOf(x) == m && x < |h.log| ==> Holds(b, x, h.log[x])
  }

  ghost predicate BlocksOk(q: Queue, h: History)
    requires |h.log| == q.counters.tail
    requires forall i :: Oldest(q, h) <= i < |h.started| ==> h.started[i] in q.blocks
  {
    && (forall m :: Oldest(q, h) <= m < |h.started| ==> BlockOk(q, h, m))
    && (forall x: nat :: x < Base(Oldest(q, h)) ==> x in h.done)
    && (q.producer.pc.Reuse? ==> Oldest(q, h) < |h.started| && q.blocks[h.started[Oldest(q, h)]].dequeued == BS)
    && (q.producer.pc.PublishTail? ==>
          && Oldest(q, h) < |h.started|
          && Holds(q.blocks[h.started[|h.started| - 1]], |h.log|, q.producer.pc.item))
  }

  // A ring holds its entries where the slot arithmetic will look for them.
  ghost predicate HeaderOk(header: Header, info: Info, started: seq<BlockId>) {
    && header.size == |header.entries| && R.IsRingSize(header.size) && 0 < header.size <= R.TWO_48
    && info.zero <= info.lo <= info.hi <= |started| && info.hi - info.lo <= header.size
    && (info.hi > info.zero ==> header.front == (info.hi - 1 - info.zero) % header.size)
    && forall m :: info.lo <= m < info.hi ==>
                     header.entries[(m - info.zero) % header.size] == Entry(Base(m), started[m])
  }

  ghost predicate HeadersOk(q: Queue, h: History) {
    && |h.infos| == |q.headers| > 0
    && (forall i :: 0 <= i < |q.headers| ==> HeaderOk(q.headers[i], h.infos[i], h.started))
    && var info, p := h.infos[|h.infos| - 1], q.producer;
    && info.lo == Oldest(q, h) && info.hi == h.exposed
    && Current(q).size == p.size && p.front == (h.exposed - info.zero) % p.size
    && (p.pc.WriteBlock? ==> Current(q).entries[p.front].base == q.counters.tail)
    && (p.pc.StoreFront? ==> p.tailBlock.Some? && Current(q).entries[p.front] == Entry(q.counters.tail, TailBlock(q)))
  }

  function First(r: Reader): nat { if r.Counting? then 0 else r.first }

  function End(r: Reader): nat { if r.Counting? then 0 else r.end }

  // The claimed indices whose emptiness a reader still has to record.
  predicate Pending(r: Reader, x: nat) { First(r) <= x < End(r) }

  predicate ClaimOk(q: Queue, h: History, t: Thread)
    requires t in q.readers
  {
    var r := q.readers[t];
    && (!r.Counting? ==> r.first < r.end <= q.counters.head)
    && (r.ReadItem? ==> r.first <= r.at < r.stop == StopOf(r.first, r.end))
    && (r.SetEmpty? ==> r.stop == StopOf(r.first, r.end))
  }

  // Every index below the head is finished or pending with exactly one reader.
  ghost predicate ClaimsOk(q: Queue, h: History) {
    && (forall t :: t in q.readers ==> ClaimOk(q, h, t))
    && (forall t, x: nat :: t in q.readers && Pending(q.readers[t], x) ==> x !in h.done)
    && (forall t, u, x: nat ::
          t in q.readers && u in q.readers && Pending(q.readers[t], x) && Pending(q.readers[u], x) ==> t == u)
    && (forall x :: x in h.done ==> x < q.counters.head)
    && (forall x: nat :: x < q.counters.head && x !in h.done ==> exists t :: t in q.readers && Pending(q.readers[t], x))
  }

  // The part of a claim that has been given to the callback but not yet recorded.
  predicate GivenNotDone(r: Reader, x: nat) {
    (r.ReadItem? && r.first <= x < r.at) || (r.SetEmpty? && r.first <= x < r.stop)
  }

  ghost predicate DeliveredOk(q: Queue, h: History) {
    && (forall x :: x in h.delivered ==> x < |h.log| && h.delivered[x] == h.log[x])
    && (forall x :: x in h.done ==> x in h.delivered)
    && (forall x :: x in h.delivered && x !in h.done ==> exists t :: t in q.readers && GivenNotDone(q.readers[t], x))
    && (forall t, x :: t in q.readers && GivenNotDone(q.readers[t], x) ==> x in h.delivered)
  }

  // What a consumer remembers of a ring still leads to the block of every index it
  // has pending.
  ghost predicate ViewOk(q: Queue, h: History, t: Thread)
    requires t in q.readers && |h.infos| == |q.headers|
  {
    var r := q.readers[t];
    !r.Counting? && !r.LoadIndex? ==>
      && r.header < |q.headers|
      && var header, info := q.headers[r.header], h.infos[r.header];
      && header.size > 0 && info.zero <= info.lo
      && r.first < r.end && info.lo <= BlockOf(r.first) && BlockOf(r.end - 1) < info.hi
      && match r
         case LoadBase(first, end, _, front) =>
           && t in h.newest && BlockOf(end - 1) <= h.newest[t] < info.hi
           && front == (h.newest[t] - info.zero) % header.size
         case ReadBlock(first, _, _, slot) => slot == (BlockOf(first) - info.zero) % header.size
         case ReadItem(first, _, _, _, _, slot, block) =>
           && slot == (BlockOf(first) - info.zero) % header.size
           && BlockOf(first) < |h.started| && block == h.started[BlockOf(first)]
         case SetEmpty(first, _, _, _, slot, block) =>
           && slot == (BlockOf(first) - info.zero) % header.size
           && BlockOf(first) < |h.started| && block == h.started[BlockOf(first)]
         case _ => true
  }

  ghost predicate CountingOk(q: Queue, h: History) {
    && C.Inv(q.counters, h.counting)
    && q.readers.Keys == q.counters.pc.Keys
    && forall t :: t in q.readers && !q.readers[t].Counting? ==> q.counters.pc[t] == C.Idle
  }

  ghost predicate Inv(q: Queue, h: History) {
    && CountingOk(q, h) && ProducerOk(q, h) && ChainOk(q, h) && BlocksOk(q, h) && HeadersOk(q, h)
    && ClaimsOk(q, h) && DeliveredOk(q, h)
    && forall t :: t in q.readers ==> ViewOk(q, h, t)
  }

  lemma RingSizePositive(n: nat)
    requires R.IsRingSize(n)
    ensures n > 0
  {
    var e: nat :| e < 62 && n == R.Pow2(e);
    R.MaskIsRemainder(0, e);
  }

  lemma InitInv(q: Queue)
    requires Init(q)
    ensures Inv(q, NoHistory)
  {
    C.InitInv(q.counters);
    RingSizePositive(q.producer.size);
    R.SmallRemainder(0, q.producer.size);
  }

  // -------------------------------------------- steps that move one counter only

  ghost predicate PcFits(q: Queue, h: History, pc: ProducerPc)
    requires ProducerOk(q, h) && ChainOk(q, h)
  {
    && TailOk(pc, q.counters.tail, |h.started|) && !Starting(pc) && !pc.PublishTail?
    && (pc.Link? ==> q.producer.slotsUsed < q.producer.size)
    && (pc.Reuse? ==> q.producer.slotsUsed > 0 && q.blocks[h.started[Oldest(q, h)]].dequeued == BS)
  }

  lemma KeepsPc(q: Queue, h: History, pc: ProducerPc)
    requires Inv(q, h) && !Starting(q.producer.pc) && PcFits(q, h, pc)
    ensures Inv(At(q, pc), h)
  {
    hide C.Inv, HeaderOk;
    var q' := At(q, pc);
    forall m | Oldest(q', h) <= m < |h.started| ensures BlockOk(q', h, m) { assert BlockOk(q, h, m); }
    forall t | t in q.readers
      ensures ClaimOk(q', h, t) && ViewOk(q', h, t)
    {
      assert ClaimOk(q, h, t) && ViewOk(q, h, t);
    }
  }

  lemma KeepsEnqueue(q: Queue, h: History, item: Item)
    requires Inv(q, h) && q.producer.pc.Rest?
    ensures Inv(Step(q, Enqueue(item)), Record(q, h, Enqueue(item)))
  {
    hide C.Inv, BlocksOk, HeadersOk, ClaimsOk, DeliveredOk, ViewOk;
    Places(q.counters.tail, |h.started|);
    KeepsPc(q, h, if Place(q.counters.tail) == 0 then CheckEmpty(item) else WriteItem(item));
  }

  // A tail in the block started last, or at its end, is at a boundary only at its end.
  lemma Places(tail: nat, n: nat)
    requires tail <= Base(n) && (n > 0 ==> tail > Base(n - 1))
    ensures Place(tail) == 0 <==> tail == Base(n)
  {
  }

  lemma KeepsCheckEmpty(q: Queue, h: History, spare: BlockId)
    requires Inv(q, h) && ProducerCan(q, spare) && q.producer.pc.CheckEmpty?
    ensures Inv(Step(q, RunProducer(spare)), Record(q, h, RunProducer(spare)))
  {
    hide C.Inv, BlocksOk, HeadersOk, ClaimsOk, DeliveredOk, ViewOk;
    KeepsPc(q, h, ProducerStep(q, spare).producer.pc);
  }

  // ------------------------------------------------------- counting finished indices

  lemma {:induction false} IntervalSize(lo: nat, hi: nat)
    requires lo <= hi
    ensures |Interval(lo, hi)| == hi - lo
  {
    if lo < hi {
      IntervalSize(lo, hi - 1);
      assert Within(lo, hi - 1, hi);
      assert Interval(lo, hi) == Interval(lo, hi - 1) + {hi - 1} by {
        forall x | x in Interval(lo, hi - 1) ensures x in Interval(lo, hi) { assert Within(lo, x, hi); }
        forall x | x in Interval(lo, hi) && x != hi - 1
          ensures x in Interval(lo, hi - 1)
        {
          assert Within(lo, x, hi - 1);
        }
      }
    } else {
      assert Interval(lo, hi) == {};
    }
  }

  // A counter that has reached the block size has counted every index of its block.
  lemma FullBlock(done: set<nat>, m: nat)
    ensures |DoneIn(done, m)| <= BS
    ensures |DoneIn(done, m)| == BS ==> forall x: nat :: BlockOf(x) == m ==> x in done
  {
    var all := Interval(Base(m), Base(m + 1));
    IntervalSize(Base(m), Base(m + 1));
    forall x: nat | BlockOf(x) == m ensures x in all { assert Within(Base(m), x, Base(m + 1)); }
    SubsetSize(DoneIn(done, m), all);
    if |DoneIn(done, m)| == BS {
      FullSubset(DoneIn(done, m), all);
      forall x: nat | BlockOf(x) == m ensures x in done { assert x in all; }
    }
  }

  lemma HeadBelowTail(q: Queue, h: History)
    requires CountingOk(q, h)
    ensures q.counters.head <= q.counters.tail
  {
    C.HeadBelowTail(q.counters, h.counting);
  }

  // ------------------------------------------------------------ frames

  // A reader that a step of another thread does not move keeps its view.
  lemma ViewKept(q: Queue, h: History, q': Queue, h': History, t: Thread)
    requires t in q.readers && t in q'.readers && q'.readers[t] == q.readers[t]
    requires |h.infos| == |q.headers| && |h'.infos| == |q'.headers| && |q.headers| <= |q'.headers|
    requires ViewOk(q, h, t) && h.started <= h'.started
    requires t in h.newest ==> t in h'.newest && h'.newest[t] == h.newest[t]
    requires forall i :: 0 <= i < |q.headers| ==>
               && q'.headers[i].size == q.headers[i].size && h'.infos[i].zero == h.infos[i].zero
               && h.infos[i].hi <= h'.infos[i].hi && h'.infos[i].zero <= h'.infos[i].lo
    requires var r := q.readers[t];
             !r.Counting? && r.first < r.end && !r.LoadIndex? && r.header < |q.headers| ==>
               h'.infos[r.header].lo <= BlockOf(r.first)
    ensures ViewOk(q', h', t)
  {
  }

  lemma BlockBounds(x: nat, m: nat)
    ensures x >= Base(m) <==> BlockOf(x) >= m
    ensures x < Base(m + 1) <==> BlockOf(x) <= m
  {
  }

  // A step of the producer inside its own structures leaves claims and deliveries alone.
  ghost predicate SameClaims(q: Queue, h: History, q': Queue, h': History) {
    && q'.counters == q.counters && q'.readers == q.readers
    && h'.counting == h.counting && h'.log == h.log && h'.done == h.done
    && h'.delivered == h.delivered && h'.newest == h.newest
  }

  lemma ClaimsKept(q: Queue, h: History, q': Queue, h': History)
    requires SameClaims(q, h, q', h') && CountingOk(q, h) && ClaimsOk(q, h) && DeliveredOk(q, h)
    ensures CountingOk(q', h') && ClaimsOk(q', h') && DeliveredOk(q', h')
  {
    hide C.Inv;
    forall t | t in q.readers ensures ClaimOk(q', h', t) { assert ClaimOk(q, h, t); }
  }

  // Rings of the same size, holding at least the entries from block o to before.
  ghost predicate RingsGrow(q: Queue, h: History, q': Queue, h': History, o: nat) {
    && |h.infos| == |q.headers| > 0 && |h'.infos| == |q'.headers| && |q.headers| <= |q'.headers|
    && h.started <= h'.started
    && forall i :: 0 <= i < |q.headers| ==>
         && q'.headers[i].size == q.headers[i].size && h'.infos[i].zero == h.infos[i].zero
         && h.infos[i].hi <= h'.infos[i].hi && h'.infos[i].zero <= h'.infos[i].lo
         && (h'.infos[i].lo <= h.infos[i].lo || h'.infos[i].lo <= o)
  }

  lemma ViewsKept(q: Queue, h: History, q': Queue, h': History, o: nat)
    requires q'.readers == q.readers && h'.newest == h.newest && ClaimsOk(q, h) && RingsGrow(q, h, q', h', o)
    requires forall t :: t in q.readers ==> ViewOk(q, h, t)
    requires forall x: nat :: x < Base(o) ==> x in h.done
    ensures forall t :: t in q'.readers ==> ViewOk(q', h', t)
  {
    forall t | t in q.readers
      ensures ViewOk(q', h', t)
    {
      if !q.readers[t].Counting? { Unretired(q, h, t, o); }
      hide ClaimsOk;
      ViewKept(q, h, q', h', t);
    }
  }

  lemma Unretired(q: Queue, h: History, t: Thread, o: nat)
    requires ClaimsOk(q, h) && t in q.readers && !q.readers[t].Counting?
    requires forall x: nat :: x < Base(o) ==> x in h.done
    ensures o <= BlockOf(q.readers[t].first)
  {
    var x := q.readers[t].first;
    assert ClaimOk(q, h, t);
    assert Pending(q.readers[t], x);
    assert x !in h.done;
    BlockBounds(x, o);
  }

  // ------------------------------------------------ reusing the oldest block

  ghost predicate Reuses(q: Queue, h: History, q': Queue, h': History, spare: BlockId) {
    && Inv(q, h) && ProducerCan(q, spare) && q.producer.pc.Reuse?
    && q' == ProducerStep(q, spare) && h' == Record(q, h, RunProducer(spare))
  }

  // The tail block's successor is the oldest block, and every element of it is finished.
  lemma OldestIsNext(q: Queue, h: History)
    requires ProducerOk(q, h) && ChainOk(q, h) && q.producer.slotsUsed > 0
    ensures TailBlockExists(q) && q.blocks[TailBlock(q)].next == h.started[Oldest(q, h)]
  {
  }

  lemma ReusedChain(q: Queue, h: History, q': Queue, h': History, spare: BlockId)
    requires Reuses(q, h, q', h', spare)
    ensures ProducerOk(q', h') && ChainOk(q', h') && Oldest(q', h') == Oldest(q, h) + 1
    ensures h'.started == h.started + [h.started[Oldest(q, h)]]
    ensures q'.blocks == q.blocks[h.started[Oldest(q, h)] := q.blocks[h.started[Oldest(q, h)]].(dequeued := 0)]
  {
    hide C.Inv, HeadersOk, BlocksOk, ClaimsOk, DeliveredOk, ViewOk, CountingOk;
    OldestIsNext(q, h);
  }

  lemma ReusedInfos(q: Queue, h: History, q': Queue, h': History, spare: BlockId)
    requires Reuses(q, h, q', h', spare)
    ensures q'.headers == q.headers && |h.infos| > 0 && h'.exposed == h.exposed && Oldest(q, h) < h.exposed
    ensures var last := |h.infos| - 1; h'.infos == h.infos[last := h.infos[last].(lo := h.infos[last].lo + 1)]
    ensures q'.producer.size == q.producer.size && q'.producer.front == q.producer.front && q'.producer.pc.WriteBase?
  {
    hide C.Inv, HeaderOk, BlocksOk, ChainOk, ClaimsOk, DeliveredOk, ViewOk, CountingOk;
  }

  lemma ReusedBlocks(q: Queue, h: History, q': Queue, h': History, spare: BlockId)
    requires Reuses(q, h, q', h', spare)
    ensures |h'.log| == q'.counters.tail
    ensures forall i :: Oldest(q', h') <= i < |h'.started| ==> h'.started[i] in q'.blocks
    ensures BlocksOk(q', h')
    ensures forall x: nat :: x < Base(Oldest(q, h) + 1) ==> x in h.done
  {
    ReusedChain(q, h, q', h', spare);
    var o, n := Oldest(q, h), |h.started|;
    HeadBelowTail(q, h);
    hide C.Inv, HeadersOk, DeliveredOk, ViewOk;
    assert BlockOk(q, h, o);
    FullBlock(h.done, o);
    assert DoneIn(h.done, n) == {};
    hide ClaimsOk;
    assert BlockOk(q', h', n);
    forall m | o + 1 <= m < n ensures BlockOk(q', h', m) { assert BlockOk(q, h, m); }
    forall x: nat | x < Base(o + 1) ensures x in h.done { if x >= Base(o) { BlockBounds(x, o); } }
  }

  lemma HeaderKept(header: Header, info: Info, started: seq<BlockId>, info': Info, started': seq<BlockId>)
    requires HeaderOk(header, info, started) && started <= started'
    requires info'.zero == info.zero && info'.hi == info.hi && info.lo <= info'.lo <= info.hi
    ensures HeaderOk(header, info', started')
  {
  }

  lemma ReusedHeaders(q: Queue, h: History, q': Queue, h': History, spare: BlockId)
    requires Reuses(q, h, q', h', spare)
    ensures HeadersOk(q', h')
  {
    hide C.Inv, ChainOk, BlocksOk, ClaimsOk, DeliveredOk, ViewOk, HeaderOk, CountingOk, ProducerOk, ProducerStep,
         Record, Oldest;
    ReusedChain(q, h, q', h', spare);
    ReusedInfos(q, h, q', h', spare);
    RingSizes(q, h);
    ReusedInfo(q, h);
    forall i | 0 <= i < |q'.headers|
      ensures HeaderOk(q'.headers[i], h'.infos[i], h'.started)
    {
      HeaderKept(q.headers[i], h.infos[i], h.started, h'.infos[i], h'.started);
    }
  }

  lemma ReusedInfo(q: Queue, h: History)
    requires HeadersOk(q, h) && Oldest(q, h) < h.exposed
    ensures forall i :: 0 <= i < |h.infos| ==> h.infos[i].lo <= h.infos[i].hi
    ensures h.infos[|h.infos| - 1].lo + 1 <= h.infos[|h.infos| - 1].hi
  {
    hide Oldest;
    forall i | 0 <= i < |h.infos|
      ensures h.infos[i].lo <= h.infos[i].hi
    {
      assert HeaderOk(q.headers[i], h.infos[i], h.started);
    }
  }

  lemma KeepsReuse(q: Queue, h: History, spare: BlockId)
    requires Inv(q, h) && ProducerCan(q, spare) && q.producer.pc.Reuse?
    ensures Inv(Step(q, RunProducer(spare)), Record(q, h, RunProducer(spare)))
  {
    var q', h' := ProducerStep(q, spare), Record(q, h, RunProducer(spare));
    hide C.Inv, ProducerOk, ChainOk, BlocksOk, HeaderOk, BlockOk, ClaimsOk, DeliveredOk, CountingOk, ViewOk, ClaimOk;
    ReusedChain(q, h, q', h', spare);
    ReusedBlocks(q, h, q', h', spare);
    ReusedHeaders(q, h, q', h', spare);
    ClaimsKept(q, h, q', h');
    assert HeaderOk(q'.headers[|q'.headers| - 1], h'.infos[|h'.infos| - 1], h'.started);
    ReusedRings(q, h, q', h', spare);
    hide HeadersOk;
    ViewsKept(q, h, q', h', Oldest(q, h) + 1);
  }

  lemma ReusedRings(q: Queue, h: History, q': Queue, h': History, spare: BlockId)
    requires Reuses(q, h, q', h', spare) && HeadersOk(q', h')
    ensures RingsGrow(q, h, q', h', Oldest(q, h) + 1)
  {
    ReusedChain(q, h, q', h', spare);
    ReusedInfos(q, h, q', h', spare);
    hide C.Inv, ChainOk, BlocksOk, ClaimsOk, DeliveredOk, ViewOk, CountingOk, ProducerOk, ProducerStep, Record, Oldest,
         HeaderOk;
    RingSizes(q', h');
  }

  // ------------------------------------------------------- replacing a full ring

  ghost predicate Doubles(q: Queue, h: History, q': Queue, h': History, spare: BlockId) {
    && Inv(q, h) && ProducerCan(q, spare) && q.producer.pc.NeedBlock? && q.producer.slotsUsed == q.producer.size
    && q' == ProducerStep(q, spare) && h' == Record(q, h, RunProducer(spare))
  }

  // The slot of entry m in the unrolled ring, in the ring before.
  lemma UnrolledSlot(front: nat, hi: nat, zero: nat, used: nat, size: nat, m: nat)
    requires size > 0 && used <= hi && zero <= hi && front == (hi - zero) % size && hi - used <= m
    ensures (front - used + (m - (hi - used))) % size == (m - zero) % size
  {
    R.RemainderOfSum(hi - zero, m - hi, size);
  }

  lemma FullRingIsSmall(q: Queue, h: History)
    requires ProducerOk(q, h) && q.producer.pc.NeedBlock? && q.producer.slotsUsed == q.producer.size
    ensures 2 * q.producer.size <= R.TWO_48
  {
  }

  // The larger ring has entry m in the slot that its place in time gives it.
  lemma DoubledEntry(q: Queue, h: History, m: nat)
    requires ProducerOk(q, h) && HeadersOk(q, h) && q.producer.pc.NeedBlock? && q.producer.slotsUsed == q.producer.size
    requires Oldest(q, h) <= m < |h.started|
    ensures ProducerCan(q, 0)
    ensures (m - Oldest(q, h)) % (2 * q.producer.size) < |Doubled(q).entries|
    ensures Doubled(q).entries[(m - Oldest(q, h)) % (2 * q.producer.size)] == Entry(Base(m), h.started[m])
  {
    var p, info, cur := q.producer, h.infos[|h.infos| - 1], Current(q);
    var o, n := Oldest(q, h), |h.started|;
    assert HeaderOk(cur, info, h.started);
    hide ProducerOk, HeadersOk;
    R.SmallRemainder(m - o, 2 * p.size);
    UnrolledSlot(p.front, n, info.zero, p.slotsUsed, p.size, m);
    assert cur.entries[(m - info.zero) % cur.size] == Entry(Base(m), h.started[m]);
  }

  lemma DoubledRing(q: Queue, h: History)
    requires ProducerOk(q, h) && HeadersOk(q, h) && q.producer.pc.NeedBlock? && q.producer.slotsUsed == q.producer.size
    ensures ProducerCan(q, 0)
    ensures HeaderOk(Doubled(q), Info(Oldest(q, h), Oldest(q, h), h.exposed), h.started)
    ensures q.producer.slotsUsed == (h.exposed - Oldest(q, h)) % (2 * q.producer.size)
  {
    FullRingIsSmall(q, h);
    var p, cur := q.producer, Current(q);
    var o, n := Oldest(q, h), |h.started|;
    assert HeaderOk(cur, h.infos[|h.infos| - 1], h.started);
    R.SizeDoubles(p.size);
    assert Words.Wrap64(p.slotsUsed - 1) == p.slotsUsed - 1;
    R.SmallRemainder(p.slotsUsed - 1, 2 * p.size);
    R.SmallRemainder(p.slotsUsed, 2 * p.size);
    hide R.IsRingSize, R.Unrolled;
    forall m | o <= m < n
      ensures Doubled(q).entries[(m - o) % (2 * p.size)] == Entry(Base(m), h.started[m])
    {
      DoubledEntry(q, h, m);
    }
  }

  lemma DoubledHeader(q: Queue, h: History, q': Queue, h': History, spare: BlockId)
    requires Doubles(q, h, q', h', spare)
    ensures HeaderOk(Doubled(q), Info(Oldest(q, h), Oldest(q, h), h.exposed), h.started)
    ensures q.producer.slotsUsed == (h.exposed - Oldest(q, h)) % (2 * q.producer.size)
  {
    hide C.Inv, ChainOk, BlocksOk, ClaimsOk, DeliveredOk, ViewOk, CountingOk, HeaderOk, HeadersOk, ProducerOk,
         ProducerStep, Record, Doubled;
    DoubledRing(q, h);
  }

  lemma KeepsDoubling(q: Queue, h: History, spare: BlockId)
    requires Inv(q, h) && ProducerCan(q, spare) && q.producer.pc.NeedBlock? && q.producer.slotsUsed == q.producer.size
    ensures Inv(Step(q, RunProducer(spare)), Record(q, h, RunProducer(spare)))
  {
    var q', h' := ProducerStep(q, spare), Record(q, h, RunProducer(spare));
    DoubledRings(q, h, q', h', spare);
    DoubledProducer(q, h, q', h', spare);
    Retired(q, h);
    hide C.Inv, HeadersOk, BlocksOk, ClaimsOk, DeliveredOk, CountingOk, ViewOk, RingsGrow, ChainOk, ProducerOk,
         ProducerStep, Record;
    SameBlocks(q, h, q', h');
    ClaimsKept(q, h, q', h');
    ViewsKept(q, h, q', h', Oldest(q, h));
  }

  lemma DoubledProducer(q: Queue, h: History, q': Queue, h': History, spare: BlockId)
    requires Doubles(q, h, q', h', spare) && q.producer.size > 0
    ensures ProducerOk(q', h') && SameClaims(q, h, q', h')
    ensures q'.blocks == q.blocks && h'.started == h.started
    ensures q'.producer.slotsUsed == q.producer.slotsUsed && q'.producer.pc.Link?
  {
    hide C.Inv, HeadersOk, BlocksOk, ClaimsOk, DeliveredOk, CountingOk, ViewOk, ChainOk, Doubled;
  }

  lemma DoubledRings(q: Queue, h: History, q': Queue, h': History, spare: BlockId)
    requires Doubles(q, h, q', h', spare)
    ensures HeadersOk(q', h') && RingsGrow(q, h, q', h', Oldest(q, h)) && q.producer.size > 0
  {
    DoubledHeader(q, h, q', h', spare);
    RingSizes(q, h);
    hide HeaderOk, C.Inv, ChainOk, BlocksOk, ClaimsOk, DeliveredOk, ViewOk, CountingOk, R.Unrolled;
    forall i | 0 <= i < |q'.headers|
      ensures HeaderOk(q'.headers[i], h'.infos[i], h'.started)
    {
      if i < |q.headers| { assert HeaderOk(q.headers[i], h.infos[i], h.started); }
    }
  }

  lemma Retired(q: Queue, h: History)
    requires Inv(q, h)
    ensures forall x: nat :: x < Base(Oldest(q, h)) ==> x in h.done
  {
    hide C.Inv, HeadersOk, ClaimsOk, DeliveredOk, ViewOk, CountingOk, BlockOk;
  }

  lemma RingSizes(q: Queue, h: History)
    requires HeadersOk(q, h)
    ensures forall i :: 0 <= i < |q.headers| ==>
              q.headers[i].size > 0 && h.infos[i].zero <= h.infos[i].lo <= h.infos[i].hi <= |h.started|
  {
    forall i | 0 <= i < |q.headers|
      ensures q.headers[i].size > 0 && h.infos[i].zero <= h.infos[i].lo <= h.infos[i].hi <= |h.started|
    {
      assert HeaderOk(q.headers[i], h.infos[i], h.started);
    }
  }

  lemma SameBlocks(q: Queue, h: History, q': Queue, h': History)
    requires ProducerOk(q, h) && ChainOk(q, h) && BlocksOk(q, h)
    requires q'.blocks == q.blocks && h'.started == h.started && h'.log == h.log && h'.done == h.done
    requires q'.counters.tail == q.counters.tail && q'.producer.slotsUsed == q.producer.slotsUsed
    requires !q'.producer.pc.Reuse? && !q'.producer.pc.PublishTail?
    ensures ChainOk(q', h') && BlocksOk(q', h')
  {
    forall m | Oldest(q, h) <= m < |h.started| ensures BlockOk(q', h', m) { assert BlockOk(q, h, m); }
  }

  lemma KeepsNeedBlock(q: Queue, h: History, spare: BlockId)
    requires Inv(q, h) && ProducerCan(q, spare) && q.producer.pc.NeedBlock?
    ensures Inv(Step(q, RunProducer(spare)), Record(q, h, RunProducer(spare)))
  {
    hide C.Inv, BlocksOk, HeadersOk, ClaimsOk, DeliveredOk, ViewOk;
    if q.producer.slotsUsed == q.producer.size {
      KeepsDoubling(q, h, spare);
    } else {
      KeepsPc(q, h, Link(q.producer.pc.item));
    }
  }

  // --------------------------------------------------------- linking a new block

  ghost predicate Links(q: Queue, h: History, q': Queue, h': History, spare: BlockId) {
    && Inv(q, h) && ProducerCan(q, spare) && q.producer.pc.Link?
    && q' == ProducerStep(q, spare) && h' == Record(q, h, RunProducer(spare))
  }

  lemma LinkedProducer(q: Queue, h: History, q': Queue, h': History, spare: BlockId)
    requires Links(q, h, q', h', spare)
    ensures ProducerOk(q', h') && SameClaims(q, h, q', h') && Oldest(q', h') == Oldest(q, h)
    ensures h'.started == h.started + [spare] && q'.blocks == Linked(q, spare) && q'.producer.pc.WriteBase?
    ensures q'.headers == q.headers && h'.infos == h.infos && h'.exposed == h.exposed
    ensures q'.producer.size == q.producer.size && q'.producer.front == q.producer.front
  {
    hide C.Inv, HeadersOk, BlocksOk, ClaimsOk, DeliveredOk, CountingOk, ViewOk, ChainOk, Linked;
  }

  lemma LinkedChain(q: Queue, h: History, q': Queue, h': History, spare: BlockId)
    requires Links(q, h, q', h', spare)
    ensures ChainOk(q', h')
    ensures forall i :: Oldest(q, h) <= i < |h.started| ==>
              && h.started[i] in q'.blocks && h.started[i] in q.blocks
              && q'.blocks[h.started[i]] == q.blocks[h.started[i]].(next := q'.blocks[h.started[i]].next)
    ensures q'.blocks[spare].dequeued == 0
  {
    LinkedProducer(q, h, q', h', spare);
    if q.producer.slotsUsed > 0 { OldestIsNext(q, h); }
    hide C.Inv, HeadersOk, BlocksOk, ClaimsOk, DeliveredOk, CountingOk, ViewOk, ProducerStep, Record;
  }

  lemma LinkedBlocks(q: Queue, h: History, q': Queue, h': History, spare: BlockId)
    requires Links(q, h, q', h', spare) && ChainOk(q', h') && |h'.log| == q'.counters.tail
    ensures BlocksOk(q', h')
  {
    LinkedProducer(q, h, q', h', spare);
    LinkedChain(q, h, q', h', spare);
    HeadBelowTail(q, h);
    hide C.Inv, HeadersOk, DeliveredOk, ViewOk, ProducerStep, Record, ChainOk, Linked;
    assert DoneIn(h.done, |h.started|) == {};
    hide ClaimsOk, CountingOk;
    assert BlockOk(q', h', |h.started|);
    forall m | Oldest(q, h) <= m < |h.started| ensures BlockOk(q', h', m) { assert BlockOk(q, h, m); }
  }

  // Rings do not move when only blocks do.
  lemma SameRings(q: Queue, h: History, q': Queue, h': History)
    requires HeadersOk(q, h) && q'.headers == q.headers && h'.infos == h.infos && h.started <= h'.started
    requires Oldest(q', h') == Oldest(q, h) && h'.exposed == h.exposed
    requires q'.producer.size == q.producer.size && q'.producer.front == q.producer.front
    requires !q'.producer.pc.WriteBlock? && !q'.producer.pc.StoreFront?
    ensures HeadersOk(q', h') && RingsGrow(q, h, q', h', Oldest(q, h))
  {
    RingSizes(q, h);
    hide HeaderOk;
    forall i | 0 <= i < |q'.headers|
      ensures HeaderOk(q'.headers[i], h'.infos[i], h'.started)
    {
      assert HeaderOk(q.headers[i], h.infos[i], h.started);
      HeaderKept(q.headers[i], h.infos[i], h.started, h'.infos[i], h'.started);
    }
  }

  lemma KeepsLink(q: Queue, h: History, spare: BlockId)
    requires Inv(q, h) && ProducerCan(q, spare) && q.producer.pc.Link?
    ensures Inv(Step(q, RunProducer(spare)), Record(q, h, RunProducer(spare)))
  {
    var q', h' := ProducerStep(q, spare), Record(q, h, RunProducer(spare));
    LinkedProducer(q, h, q', h', spare);
    LinkedChain(q, h, q', h', spare);
    assert |h'.log| == q'.counters.tail by {
      hide C.Inv, HeadersOk, BlocksOk, ClaimsOk, DeliveredOk, CountingOk, ViewOk, ChainOk;
    }
    LinkedBlocks(q, h, q', h', spare);
    Retired(q, h);
    hide C.Inv, HeadersOk, BlocksOk, ClaimsOk, DeliveredOk, CountingOk, ViewOk, RingsGrow, ChainOk, ProducerOk,
         ProducerStep, Record, Linked;
    SameRings(q, h, q', h');
    ClaimsKept(q, h, q', h');
    ViewsKept(q, h, q', h', Oldest(q, h));
  }

  // ------------------------------------------------------ writing the ring entry

  // A write to the front slot of the current ring hits no entry that it still holds.
  lemma FrontIsFree(info: Info, front: nat, size: nat, m: nat)
    requires size > 0 && info.zero <= info.lo <= m < info.hi && info.hi - info.lo < size
    requires front == (info.hi - info.zero) % size
    ensures (m - info.zero) % size != front
  {
    R.SlotsDiffer(m - info.zero, info.hi - m, size);
  }

  lemma WrittenHeader(header: Header, info: Info, started: seq<BlockId>, front: nat, entry: Entry)
    requires HeaderOk(header, info, started) && info.hi - info.lo < header.size
    requires front == (info.hi - info.zero) % header.size && front < |header.entries|
    ensures HeaderOk(header.(entries := header.entries[front := entry]), info, started)
  {
    forall m | info.lo <= m < info.hi
      ensures header.entries[front := entry][(m - info.zero) % header.size] == Entry(Base(m), started[m])
    {
      FrontIsFree(info, front, header.size, m);
    }
  }

  // Steps of the producer that write the current ring, and nothing else that is shared.
  ghost predicate WritesRing(q: Queue, h: History, q': Queue, h': History, spare: BlockId) {
    && Inv(q, h) && ProducerCan(q, spare)
    && (q.producer.pc.WriteBase? || q.producer.pc.WriteBlock? || q.producer.pc.StoreFront?)
    && q' == ProducerStep(q, spare) && h' == Record(q, h, RunProducer(spare))
  }

  lemma RingProducer(q: Queue, h: History, q': Queue, h': History, spare: BlockId)
    requires WritesRing(q, h, q', h', spare)
    ensures ProducerOk(q', h') && SameClaims(q, h, q', h') && Oldest(q', h') == Oldest(q, h)
    ensures q'.blocks == q.blocks && h'.started == h.started
    ensures q'.producer.slotsUsed == q.producer.slotsUsed && q'.producer.size == q.producer.size
    ensures |q'.headers| == |q.headers| && q.producer.slotsUsed == h.exposed + 1 - Oldest(q, h) <= q.producer.size
    ensures forall i :: 0 <= i < |q.headers| - 1 ==> q'.headers[i] == q.headers[i]
    ensures |h.started| == h.exposed + 1 && q.producer.tailBlock == Some(h.started[h.exposed])
    ensures q.counters.tail == Base(h.exposed)
  {
    hide C.Inv, HeadersOk, BlocksOk, ClaimsOk, DeliveredOk, CountingOk, ViewOk, ChainOk;
  }

  lemma WrittenRing(q: Queue, h: History, q': Queue, h': History, spare: BlockId)
    requires WritesRing(q, h, q', h', spare) && !q.producer.pc.StoreFront?
    ensures HeadersOk(q', h') && RingsGrow(q, h, q', h', Oldest(q, h))
  {
    RingProducer(q, h, q', h', spare);
    RingSizes(q, h);
    hide C.Inv, BlocksOk, ClaimsOk, DeliveredOk, CountingOk, ViewOk, ChainOk, ProducerOk;
    var last := |q.headers| - 1;
    var entry := q'.headers[last].entries[q.producer.front];
    assert HeaderOk(q.headers[last], h.infos[last], h.started);
    assert |q.headers[last].entries| == q.headers[last].size;
    hide HeaderOk;
    WrittenHeader(q.headers[last], h.infos[last], h.started, q.producer.front, entry);
    assert q'.headers[last].entries == q.headers[last].entries[q.producer.front := entry];
    assert q'.headers[last] == q.headers[last].(entries := q.headers[last].entries[q.producer.front := entry]);
    forall i | 0 <= i < |q'.headers|
      ensures HeaderOk(q'.headers[i], h'.infos[i], h'.started)
    {
      assert HeaderOk(q.headers[i], h.infos[i], h.started);
    }
  }

  lemma ExposedHeader(header: Header, info: Info, started: seq<BlockId>, front: nat)
    requires HeaderOk(header, info, started) && info.hi - info.lo < header.size && info.hi < |started|
    requires front == (info.hi - info.zero) % header.size
    requires header.entries[front] == Entry(Base(info.hi), started[info.hi])
    ensures HeaderOk(header.(front := front), info.(hi := info.hi + 1), started)
  {
  }

  lemma ExposedGrow(q: Queue, h: History, q': Queue, h': History, spare: BlockId)
    requires WritesRing(q, h, q', h', spare) && q.producer.pc.StoreFront?
    ensures RingsGrow(q, h, q', h', Oldest(q, h))
    ensures |h.infos| == |q.headers| > 0 && |q'.headers| == |q.headers| && h'.started == h.started
    ensures forall i :: 0 <= i < |q.headers| - 1 ==> HeaderOk(q'.headers[i], h'.infos[i], h'.started)
  {
    hide C.Inv, BlocksOk, ClaimsOk, DeliveredOk, CountingOk, ViewOk, ChainOk, ProducerOk;
    RingProducer(q, h, q', h', spare);
    RingSizes(q, h);
    hide HeaderOk;
    assert forall i :: 0 <= i < |q.headers| - 1 ==> HeaderOk(q.headers[i], h.infos[i], h.started);
  }

  // The entry at the front is complete when it is exposed.
  lemma ExposedLast(q: Queue, h: History, q': Queue, h': History, spare: BlockId)
    requires WritesRing(q, h, q', h', spare) && q.producer.pc.StoreFront?
    ensures |h.infos| == |q.headers| == |q'.headers| == |h'.infos| > 0
    ensures var last := |h.infos| - 1;
            && HeaderOk(q'.headers[last], h'.infos[last], h'.started)
            && h'.infos[last].lo == Oldest(q, h) && h'.infos[last].hi == h'.exposed
            && Current(q').size == q'.producer.size > 0
            && q'.producer.front == (h'.exposed - h'.infos[last].zero) % q'.producer.size
  {
    hide C.Inv, BlocksOk, ClaimsOk, DeliveredOk, CountingOk, ViewOk, ChainOk, ProducerOk, HeaderOk;
    RingProducer(q, h, q', h', spare);
    RingSizes(q, h);
    var last := |q.headers| - 1;
    var info, p := h.infos[last], q.producer;
    assert HeaderOk(q.headers[last], info, h.started);
    Rotates(h.exposed, info.zero, p.front, p.size);
    ExposedHeader(q.headers[last], info, h.started, p.front);
  }

  lemma Rotates(exposed: nat, zero: nat, front: nat, size: nat)
    requires size > 0 && front == (exposed - zero) % size
    ensures (front + 1) % size == (exposed + 1 - zero) % size
  {
    R.RemainderOfSum(exposed - zero, 1, size);
  }

  lemma ExposedRing(q: Queue, h: History, q': Queue, h': History, spare: BlockId)
    requires WritesRing(q, h, q', h', spare) && q.producer.pc.StoreFront?
    ensures HeadersOk(q', h') && RingsGrow(q, h, q', h', Oldest(q, h))
  {
    hide C.Inv, BlocksOk, ClaimsOk, DeliveredOk, CountingOk, ViewOk, ChainOk, ProducerOk, HeaderOk, RingsGrow;
    RingProducer(q, h, q', h', spare);
    ExposedGrow(q, h, q', h', spare);
    ExposedLast(q, h, q', h', spare);
  }

  lemma KeepsRingWrite(q: Queue, h: History, spare: BlockId)
    requires Inv(q, h) && ProducerCan(q, spare)
    requires q.producer.pc.WriteBase? || q.producer.pc.WriteBlock? || q.producer.pc.StoreFront?
    ensures Inv(Step(q, RunProducer(spare)), Record(q, h, RunProducer(spare)))
  {
    var q', h' := ProducerStep(q, spare), Record(q, h, RunProducer(spare));
    RingProducer(q, h, q', h', spare);
    if q.producer.pc.StoreFront? { ExposedRing(q, h, q', h', spare); } else { WrittenRing(q, h, q', h', spare); }
    Retired(q, h);
    assert !q'.producer.pc.Reuse? && !q'.producer.pc.PublishTail?;
    hide C.Inv, HeadersOk, BlocksOk, ClaimsOk, DeliveredOk, CountingOk, ViewOk, RingsGrow, ChainOk, ProducerStep,
         Record;
    SameBlocks(q, h, q', h');
    ClaimsKept(q, h, q', h');
    ViewsKept(q, h, q', h', Oldest(q, h));
  }

  // ------------------------------------------------- storing and publishing an item

  lemma OtherPlace(x: nat, y: nat)
    requires BlockOf(x) == BlockOf(y) && x != y
    ensures Place(x) != Place(y)
  {
  }

  ghost predicate Stores(q: Queue, h: History, q': Queue, h': History, spare: BlockId) {
    && Inv(q, h) && ProducerCan(q, spare) && q.producer.pc.WriteItem?
    && q' == ProducerStep(q, spare) && h' == Record(q, h, RunProducer(spare))
  }

  lemma StoredItem(q: Queue, h: History, q': Queue, h': History, spare: BlockId)
    requires Stores(q, h, q', h', spare)
    ensures h' == h && q'.headers == q.headers && q'.counters == q.counters && q'.readers == q.readers
    ensures q'.producer == q.producer.(pc := PublishTail(q.producer.pc.item))
    ensures ProducerOk(q', h') && ChainOk(q', h') && Oldest(q', h') == Oldest(q, h) < |h.started|
    ensures var b := h.started[|h.started| - 1];
            && b in q.blocks && BlockOf(|h.log|) == |h.started| - 1
            && var elements := q.blocks[b].elements[Place(|h.log|) := q.producer.pc.item];
            && q'.blocks == q.blocks[b := q.blocks[b].(elements := elements)]
  {
    hide C.Inv, HeadersOk, BlocksOk, ClaimsOk, DeliveredOk, CountingOk, ViewOk;
    BlockBounds(q.counters.tail, |h.started| - 1);
    hide BlockOf, Base;
  }

  lemma StoredBlocks(q: Queue, h: History, q': Queue, h': History, spare: BlockId)
    requires Stores(q, h, q', h', spare) && ChainOk(q', h') && |h'.log| == q'.counters.tail
    ensures BlocksOk(q', h')
  {
    StoredItem(q, h, q', h', spare);
    hide C.Inv, HeadersOk, DeliveredOk, ViewOk, ClaimsOk, CountingOk, ProducerStep, Record, BlockOf, Place;
    forall m | Oldest(q, h) <= m < |h.started|
      ensures BlockOk(q', h', m)
    {
      assert BlockOk(q, h, m);
      forall x: nat | BlockOf(x) == m && x < |h.log|
        ensures Holds(q'.blocks[h.started[m]], x, h.log[x])
      {
        if m == |h.started| - 1 { OtherPlace(x, |h.log|); }
        assert Holds(q.blocks[h.started[m]], x, h.log[x]);
      }
    }
  }

  lemma KeepsWriteItem(q: Queue, h: History, spare: BlockId)
    requires Inv(q, h) && ProducerCan(q, spare) && q.producer.pc.WriteItem?
    ensures Inv(Step(q, RunProducer(spare)), Record(q, h, RunProducer(spare)))
  {
    var q', h' := ProducerStep(q, spare), Record(q, h, RunProducer(spare));
    StoredItem(q, h, q', h', spare);
    assert |h'.log| == q'.counters.tail by {
      hide C.Inv, HeadersOk, BlocksOk, ClaimsOk, DeliveredOk, CountingOk, ViewOk, ChainOk;
    }
    StoredBlocks(q, h, q', h', spare);
    Retired(q, h);
    hide C.Inv, HeadersOk, BlocksOk, ClaimsOk, DeliveredOk, CountingOk, ViewOk, RingsGrow, ChainOk, ProducerOk,
         ProducerStep, Record;
    SameRings(q, h, q', h');
    ClaimsKept(q, h, q', h');
    ViewsKept(q, h, q', h', Oldest(q, h));
  }

  ghost predicate Publishes(q: Queue, h: History, q': Queue, h': History, spare: BlockId) {
    && Inv(q, h) && ProducerCan(q, spare) && q.producer.pc.PublishTail?
    && q' == ProducerStep(q, spare) && h' == Record(q, h, RunProducer(spare))
  }

  lemma PublishedProducer(q: Queue, h: History, q': Queue, h': History, spare: BlockId)
    requires Publishes(q, h, q', h', spare)
    ensures q'.counters == q.counters.(tail := q.counters.tail + 1) && h'.counting == h.counting
    ensures q' == q.(counters := q'.counters, producer := q.producer.(pc := Rest))
    ensures h' == h.(log := h.log + [q.producer.pc.item])
    ensures ProducerOk(q', h') && ChainOk(q', h') && Oldest(q', h') == Oldest(q, h) < |h.started|
    ensures BlockOf(|h.log|) == |h.started| - 1 && |h.log| == q.counters.tail
  {
    hide C.Inv, HeadersOk, BlocksOk, ClaimsOk, DeliveredOk, CountingOk, ViewOk;
    BlockBounds(q.counters.tail, |h.started| - 1);
    hide BlockOf;
  }

  lemma PublishedBlocks(q: Queue, h: History, q': Queue, h': History, spare: BlockId)
    requires Publishes(q, h, q', h', spare) && ChainOk(q', h') && |h'.log| == q'.counters.tail
    ensures BlocksOk(q', h')
  {
    PublishedProducer(q, h, q', h', spare);
    hide C.Inv, HeadersOk, DeliveredOk, ViewOk, ClaimsOk, CountingOk, ProducerStep, Record, BlockOf, Holds;
    forall m | Oldest(q, h) <= m < |h.started|
      ensures BlockOk(q', h', m)
    {
      assert BlockOk(q, h, m);
    }
  }

  lemma PublishedClaims(q: Queue, h: History, q': Queue, h': History, spare: BlockId)
    requires Publishes(q, h, q', h', spare)
    ensures CountingOk(q', h') && ClaimsOk(q', h') && DeliveredOk(q', h')
  {
    PublishedProducer(q, h, q', h', spare);
    assert C.Enabled(q.counters, C.Publish);
    assert q'.counters == C.Step(q.counters, C.Publish);
    hide C.Inv, HeadersOk, BlocksOk, ViewOk, ChainOk, ProducerStep, Record;
    C.StepKeeps(q.counters, h.counting, C.Publish);
    forall t | t in q.readers ensures ClaimOk(q', h', t) { assert ClaimOk(q, h, t); }
  }

  lemma KeepsPublishTail(q: Queue, h: History, spare: BlockId)
    requires Inv(q, h) && ProducerCan(q, spare) && q.producer.pc.PublishTail?
    ensures Inv(Step(q, RunProducer(spare)), Record(q, h, RunProducer(spare)))
  {
    var q', h' := ProducerStep(q, spare), Record(q, h, RunProducer(spare));
    PublishedProducer(q, h, q', h', spare);
    assert |h'.log| == q'.counters.tail;
    PublishedBlocks(q, h, q', h', spare);
    PublishedClaims(q, h, q', h', spare);
    hide C.Inv, HeadersOk, BlocksOk, ClaimsOk, DeliveredOk, CountingOk, RingsGrow, ChainOk, ProducerOk, ProducerStep,
         Record;
    SameRings(q, h, q', h');
    Retired(q, h);
    hide ViewOk;
    ViewsKept(q, h, q', h', Oldest(q, h));
  }

  lemma KeepsProducerStep(q: Queue, h: History, spare: BlockId)
    requires Inv(q, h) && ProducerCan(q, spare)
    ensures Inv(Step(q, RunProducer(spare)), Record(q, h, RunProducer(spare)))
  {
    assert |h.infos| > 0 by { hide C.Inv, BlocksOk, ClaimsOk, DeliveredOk, CountingOk, ViewOk; }
    hide Inv, Step, Record;
    match q.producer.pc
    case CheckEmpty(_) => KeepsCheckEmpty(q, h, spare);
    case Reuse(_) => KeepsReuse(q, h, spare);
    case NeedBlock(_) => KeepsNeedBlock(q, h, spare);
    case Link(_) => KeepsLink(q, h, spare);
    case WriteItem(_) => KeepsWriteItem(q, h, spare);
    case PublishTail(_) => KeepsPublishTail(q, h, spare);
    case _ => KeepsRingWrite(q, h, spare);
  }

  // --------------------------------------------------- consumers finding the block

  lemma StructuresKept(q: Queue, h: History, q': Queue, h': History)
    requires ProducerOk(q, h) && ChainOk(q, h) && BlocksOk(q, h) && HeadersOk(q, h)
    requires q'.blocks == q.blocks && q'.headers == q.headers && q'.producer == q.producer
    requires q'.counters.tail == q.counters.tail
    requires h'.started == h.started && h'.exposed == h.exposed && h'.infos == h.infos && h'.log == h.log
    requires h'.done == h.done
    ensures ProducerOk(q', h') && ChainOk(q', h') && BlocksOk(q', h') && HeadersOk(q', h')
  {
    hide HeaderOk;
    forall m | Oldest(q, h) <= m < |h.started| ensures BlockOk(q', h', m) { assert BlockOk(q, h, m); }
  }

  // A reader that moves on inside the same claim, having given nothing out.
  lemma ReaderMoves(q: Queue, h: History, q': Queue, h': History, t: Thread, r: Reader)
    requires Inv(q, h) && t in q.readers && q' == WithReader(q, t, r) && h' == h.(newest := h'.newest)
    requires !r.Counting? && !r.SetEmpty? && (r.ReadItem? ==> r.at == r.first < r.stop == StopOf(r.first, r.end))
    requires !q.readers[t].Counting? && !q.readers[t].ReadItem? && !q.readers[t].SetEmpty?
    requires r.first == q.readers[t].first && r.end == q.readers[t].end
    requires forall u :: u != t && u in h.newest ==> u in h'.newest && h'.newest[u] == h.newest[u]
    requires ViewOk(q', h', t)
    ensures Inv(q', h')
  {
    hide C.Inv, HeaderOk, BlockOk, ViewOk, ProducerOk, ChainOk, BlocksOk, HeadersOk, ClaimsOk, DeliveredOk;
    StructuresKept(q, h, q', h');
    SameRegions(q, h, q', h', t, r);
    MovedClaims(q, h, q', h', t);
    LastRing(q, h);
    forall u | u in q'.readers && u != t ensures ViewOk(q', h', u) { OtherView(q, h, q', h', u); }
  }

  lemma OtherView(q: Queue, h: History, q': Queue, h': History, u: Thread)
    requires u in q.readers && u in q'.readers && q'.readers[u] == q.readers[u]
    requires |h.infos| == |q.headers| && ViewOk(q, h, u)
    requires q'.headers == q.headers && h'.infos == h.infos && h'.started == h.started
    requires u in h.newest ==> u in h'.newest && h'.newest[u] == h.newest[u]
    ensures ViewOk(q', h', u)
  {
  }

  lemma SameRegions(q: Queue, h: History, q': Queue, h': History, t: Thread, r: Reader)
    requires ClaimsOk(q, h) && t in q.readers && q' == WithReader(q, t, r)
    requires !r.Counting? && !r.SetEmpty? && (r.ReadItem? ==> r.at == r.first < r.stop == StopOf(r.first, r.end))
    requires !q.readers[t].Counting? && !q.readers[t].ReadItem? && !q.readers[t].SetEmpty?
    requires r.first == q.readers[t].first && r.end == q.readers[t].end
    ensures forall u :: u in q.readers ==> ClaimOk(q', h', u)
    ensures forall u, x: nat :: u in q.readers ==> (Pending(q'.readers[u], x) <==> Pending(q.readers[u], x))
    ensures forall u, x :: u in q.readers ==> (GivenNotDone(q'.readers[u], x) <==> GivenNotDone(q.readers[u], x))
  {
    assert ClaimOk(q, h, t);
    forall u | u in q'.readers ensures ClaimOk(q', h', u) { assert ClaimOk(q, h, u); }
  }

  lemma MovedClaims(q: Queue, h: History, q': Queue, h': History, t: Thread)
    requires ClaimsOk(q, h) && DeliveredOk(q, h) && q'.readers.Keys == q.readers.Keys && q'.counters == q.counters
    requires h'.done == h.done && h'.delivered == h.delivered && h'.log == h.log
    requires forall u :: u in q.readers ==> ClaimOk(q', h', u)
    requires forall u, x: nat :: u in q.readers ==> (Pending(q'.readers[u], x) <==> Pending(q.readers[u], x))
    requires forall u, x :: u in q.readers ==> (GivenNotDone(q'.readers[u], x) <==> GivenNotDone(q.readers[u], x))
    ensures ClaimsOk(q', h') && DeliveredOk(q', h')
  {
    hide ClaimOk, Pending, GivenNotDone;
  }

  // The block of a published index has been exposed.
  lemma ExposedIndex(q: Queue, h: History, x: nat)
    requires ProducerOk(q, h) && x < q.counters.tail
    ensures BlockOf(x) < h.exposed
  {
    BlockBounds(x, h.exposed);
  }

  lemma LoadedHeader(q: Queue, h: History, t: Thread)
    requires Inv(q, h) && ConsumerCan(q, t) && q.readers[t].LoadIndex?
    ensures ViewOk(ConsumerStep(q, t), h, t)
  {
    hide C.Inv, ChainOk, BlocksOk, DeliveredOk, HeaderOk, ClaimsOk, CountingOk, HeadersOk, ProducerOk, ViewOk;
    Claimed(q, h, t);
    LastRing(q, h);
    hide Inv, BlockOf;
    LoadedHeaderView(q, h, t);
  }

  // Claimed indices are published, and their blocks are live and exposed.
  lemma Claimed(q: Queue, h: History, t: Thread)
    requires Inv(q, h) && t in q.readers && !q.readers[t].Counting?
    ensures q.readers[t].first < q.readers[t].end <= q.counters.tail == |h.log|
    ensures Oldest(q, h) <= BlockOf(q.readers[t].first) <= BlockOf(q.readers[t].end - 1) < h.exposed <= |h.started|
  {
    hide C.Inv, ChainOk, BlocksOk, DeliveredOk, HeaderOk, HeadersOk, ViewOk;
    HeadBelowTail(q, h);
    Retired(q, h);
    Unretired(q, h, t, Oldest(q, h));
    assert ClaimOk(q, h, t);
    hide ClaimsOk, CountingOk;
    BlockMonotone(q.readers[t].first, q.readers[t].end - 1);
    ExposedIndex(q, h, q.readers[t].end - 1);
  }

  lemma LastRing(q: Queue, h: History)
    requires HeadersOk(q, h)
    ensures |h.infos| == |q.headers| > 0
    ensures var i := |q.headers| - 1;
            && h.infos[i].lo == Oldest(q, h) && h.infos[i].hi == h.exposed
            && h.infos[i].zero <= h.infos[i].lo && q.headers[i].size > 0
  {
    RingSizes(q, h);
  }

  ghost predicate ViewOkHere(q: Queue, h: History, t: Thread) {
    t in q.readers && |h.infos| == |q.headers| && ViewOk(q, h, t)
  }

  lemma ViewHere(q: Queue, h: History, t: Thread)
    requires Inv(q, h) && t in q.readers
    ensures ViewOkHere(q, h, t)
  {
    hide C.Inv, ProducerOk, CountingOk, BlocksOk, ChainOk, ClaimsOk, DeliveredOk, ViewOk;
  }

  lemma PartsHold(q: Queue, h: History)
    requires Inv(q, h)
    ensures ProducerOk(q, h) && ClaimsOk(q, h) && DeliveredOk(q, h) && q.readers.Keys == q.counters.pc.Keys
  {
    hide C.Inv, ProducerOk, BlocksOk, HeadersOk, ChainOk, ClaimsOk, DeliveredOk, ViewOk;
  }

  lemma RingHere(q: Queue, h: History, i: nat)
    requires Inv(q, h) && i < |q.headers|
    ensures |h.infos| == |q.headers| && HeaderOk(q.headers[i], h.infos[i], h.started)
  {
    hide C.Inv, ProducerOk, CountingOk, BlocksOk, ChainOk, ClaimsOk, DeliveredOk, ViewOk, HeaderOk;
  }

  lemma LoadedHeaderView(q: Queue, h: History, t: Thread)
    requires ConsumerCan(q, t) && q.readers[t].LoadIndex? && |h.infos| == |q.headers| > 0
    requires q.readers[t].first < q.readers[t].end
    requires Oldest(q, h) <= BlockOf(q.readers[t].first) && BlockOf(q.readers[t].end - 1) < h.exposed
    requires var i := |q.headers| - 1;
             && h.infos[i].lo == Oldest(q, h) && h.infos[i].hi == h.exposed
             && h.infos[i].zero <= h.infos[i].lo && q.headers[i].size > 0
    ensures ViewOk(ConsumerStep(q, t), h, t)
  {
  }

  lemma LoadedFront(q: Queue, h: History, t: Thread)
    requires Inv(q, h) && ConsumerCan(q, t) && q.readers[t].LoadFront?
    ensures ViewOk(ConsumerStep(q, t), Record(q, h, RunConsumer(t)), t)
  {
    hide C.Inv, ChainOk, BlocksOk, DeliveredOk, ClaimsOk, CountingOk, ProducerOk;
    assert ViewOk(q, h, t);
    var r := q.readers[t];
    assert HeaderOk(q.headers[r.header], h.infos[r.header], h.started);
    hide Inv, HeadersOk;
    BlockMonotone(r.first, r.end - 1);
    hide BlockOf, Base;
  }

  lemma BlockMonotone(x: nat, y: nat)
    requires x <= y
    ensures BlockOf(x) <= BlockOf(y)
  {
  }

  // The slot computed from the newest entry a consumer saw is the slot of its block.
  lemma FoundSlot(header: Header, info: Info, started: seq<BlockId>, newest: nat, front: nat, first: nat)
    requires HeaderOk(header, info, started) && info.lo <= BlockOf(first) <= newest < info.hi
    requires front == (newest - info.zero) % header.size && Base(newest) < Words.TWO_63
    ensures front < |header.entries|
    ensures R.Slot(front, Base(BlockOf(first)), header.entries[front].base, header.size)
         == (BlockOf(first) - info.zero) % header.size
  {
    assert header.entries[(newest - info.zero) % header.size] == Entry(Base(newest), started[newest]);
    var e := RingExponent(header.size);
    hide HeaderOk;
    SlotOfEntry(newest, info.zero, BlockOf(first), header.size, e);
  }

  lemma SlotOfEntry(newest: nat, zero: nat, m: nat, size: nat, e: nat)
    requires e <= 48 && size == R.Pow2(e) && size > 0 && zero <= m <= newest && newest - m < size
    requires Base(newest) < Words.TWO_63
    ensures R.Slot((newest - zero) % size, Base(m), Base(newest), size) == (m - zero) % size
  {
    hide R.Pow2, R.Slot;
    assert Base(m) == Base(newest) - (newest - m) * R.BLOCK_SIZE;
    R.SlotIs((newest - zero) % size, Base(m), Base(newest), newest - m, e);
    R.RemainderOfSum(newest - zero, 0 - (newest - m), size);
  }

  lemma RingExponent(size: nat) returns (e: nat)
    requires R.IsRingSize(size) && size <= R.TWO_48
    ensures e <= 48 && size == R.Pow2(e)
  {
    e :| e < 62 && size == R.Pow2(e);
    R.Pow2Values();
    if e > 48 { R.Pow2Monotone(49, e); }
  }

  lemma LoadedBase(q: Queue, h: History, t: Thread)
    requires Inv(q, h) && ConsumerCan(q, t) && q.readers[t].LoadBase?
    ensures ViewOk(ConsumerStep(q, t), h, t)
  {
    hide Inv, HeaderOk, ProducerOk, BlockOf, Base, R.Slot, ConsumerStep, ClaimsOk, DeliveredOk;
    var r := q.readers[t];
    ViewHere(q, h, t);
    PartsHold(q, h);
    RingHere(q, h, r.header);
    NewestInRing(q.headers[r.header], h.infos[r.header], h.started, h.newest[t]);
    NewestBelowTail(q, h, h.newest[t]);
    BlockMonotone(r.first, r.end - 1);
    FoundSlot(q.headers[r.header], h.infos[r.header], h.started, h.newest[t], r.front, r.first);
    LoadedBaseView(q, h, t);
  }

  lemma LoadedBaseView(q: Queue, h: History, t: Thread)
    requires ViewOkHere(q, h, t) && ConsumerCan(q, t) && q.readers[t].LoadBase?
    requires var r := q.readers[t];
             var header := q.headers[r.header];
             R.Slot(r.front, Base(BlockOf(r.first)), header.entries[r.front].base, header.size)
             == (BlockOf(r.first) - h.infos[r.header].zero) % header.size
    ensures ViewOk(ConsumerStep(q, t), h, t)
  {
    hide BlockOf, Base, R.Slot;
  }

  lemma NewestInRing(header: Header, info: Info, started: seq<BlockId>, m: nat)
    requires HeaderOk(header, info, started) && m < info.hi
    ensures m < |started|
  {
  }

  lemma NewestBelowTail(q: Queue, h: History, m: nat)
    requires ProducerOk(q, h) && m < |h.started|
    ensures Base(m) < Words.TWO_63
  {
  }

  // The entry a consumer resolves names the block of the index it looks for, and the
  // block still holds that index and all it is about to read with it.
  lemma ResolvesToItsBlock(q: Queue, h: History, t: Thread)
    requires Inv(q, h) && t in q.readers && q.readers[t].ReadBlock?
    ensures var r := q.readers[t];
            && r.header < |q.headers| && r.slot < |q.headers[r.header].entries|
            && BlockOf(r.first) < |h.started|
            && q.headers[r.header].entries[r.slot] == Entry(Base(BlockOf(r.first)), h.started[BlockOf(r.first)])
  {
    var r := q.readers[t];
    ViewHere(q, h, t);
    hide Inv, HeaderOk, BlockOf, Base;
    RingHere(q, h, r.header);
    BlockMonotone(r.first, r.end - 1);
    EntryHere(q.headers[r.header], h.infos[r.header], h.started, BlockOf(r.first), r.slot);
  }

  lemma EntryHere(header: Header, info: Info, started: seq<BlockId>, m: nat, slot: nat)
    requires HeaderOk(header, info, started) && info.lo <= m < info.hi && slot == (m - info.zero) % header.size
    ensures slot < |header.entries| && m < |started| && header.entries[slot] == Entry(Base(m), started[m])
  {
  }

  // A live block holds every published index of its own.
  lemma LiveBlockHolds(q: Queue, h: History, m: nat, x: nat)
    requires Inv(q, h) && Oldest(q, h) <= m < |h.started| && BlockOf(x) == m && x < |h.log|
    ensures h.started[m] in q.blocks && Holds(q.blocks[h.started[m]], x, h.log[x])
  {
    hide C.Inv, HeadersOk, DeliveredOk, ClaimsOk, CountingOk, ViewOk;
    assert BlockOk(q, h, m);
  }

  lemma StopIsInBlock(first: nat, end: nat, x: nat)
    requires first < end
    ensures first < StopOf(first, end) <= end
    ensures first <= x < StopOf(first, end) ==> BlockOf(x) == BlockOf(first)
    ensures StopOf(first, end) < end ==> StopOf(first, end) == Base(BlockOf(first) + 1)
  {
  }

  lemma LoadedBlockView(q: Queue, h: History, t: Thread)
    requires ViewOkHere(q, h, t) && ConsumerCan(q, t) && q.readers[t].ReadBlock?
    requires var r := q.readers[t];
             && BlockOf(r.first) < |h.started| && r.header < |q.headers| && r.slot < |q.headers[r.header].entries|
             && q.headers[r.header].entries[r.slot].block == h.started[BlockOf(r.first)]
    ensures ViewOk(ConsumerStep(q, t), h, t)
  {
    hide StopOf, BlockOf;
  }

  lemma LoadedBlock(q: Queue, h: History, t: Thread)
    requires Inv(q, h) && ConsumerCan(q, t) && q.readers[t].ReadBlock?
    ensures var r := ConsumerStep(q, t).readers[t];
            r.ReadItem? && r.at == r.first < r.stop == StopOf(r.first, r.end)
    ensures ViewOk(ConsumerStep(q, t), h, t)
  {
    hide Inv, ViewOk, BlockOf;
    Claimed(q, h, t);
    StopIsInBlock(q.readers[t].first, q.readers[t].end, 0);
    ResolvesToItsBlock(q, h, t);
    ViewHere(q, h, t);
    hide StopOf;
    LoadedBlockView(q, h, t);
  }

  lemma KeepsLoading(q: Queue, h: History, t: Thread)
    requires Inv(q, h) && ConsumerCan(q, t)
    requires !q.readers[t].Counting? && !q.readers[t].ReadItem? && !q.readers[t].SetEmpty?
    ensures Inv(Step(q, RunConsumer(t)), Record(q, h, RunConsumer(t)))
  {
    var q', h' := ConsumerStep(q, t), Record(q, h, RunConsumer(t));
    match q.readers[t] {
      case LoadIndex(_, _) => LoadedHeader(q, h, t);
      case LoadFront(_, _, _) => LoadedFront(q, h, t);
      case LoadBase(_, _, _, _) => LoadedBase(q, h, t);
      case ReadBlock(_, _, _, _) => LoadedBlock(q, h, t);
    }
    hide Inv, ViewOk;
    ReaderMoves(q, h, q', h', t, q'.readers[t]);
  }

  // ------------------------------------------------- consumers reading the block

  lemma StopIsIn(q: Queue, h: History, u: Thread)
    requires ClaimsOk(q, h) && u in q.readers && (q.readers[u].ReadItem? || q.readers[u].SetEmpty?)
    ensures q.readers[u].first < q.readers[u].stop <= q.readers[u].end
    ensures q.readers[u].stop == StopOf(q.readers[u].first, q.readers[u].end)
    ensures q.readers[u].ReadItem? ==> q.readers[u].first <= q.readers[u].at < q.readers[u].stop
  {
    assert ClaimOk(q, h, u);
    StopIsInBlock(q.readers[u].first, q.readers[u].end, 0);
  }

  // A consumer that reads its way through a block still finds there what was enqueued under
  // its indices, whatever the producer has written and reused since the claim.
  lemma StillThere(q: Queue, h: History, t: Thread, x: nat)
    requires Inv(q, h) && t in q.readers && (q.readers[t].ReadItem? || q.readers[t].SetEmpty?)
    requires q.readers[t].first <= x < q.readers[t].stop
    ensures x < |h.log| && q.readers[t].block in q.blocks && Holds(q.blocks[q.readers[t].block], x, h.log[x])
  {
    hide Inv, ProducerOk, ClaimsOk, DeliveredOk, StopOf, BlockOf, Holds;
    var r := q.readers[t];
    ViewHere(q, h, t);
    PartsHold(q, h);
    Claimed(q, h, t);
    StopIsIn(q, h, t);
    StopIsInBlock(r.first, r.end, x);
    LiveBlockHolds(q, h, BlockOf(r.first), x);
  }

  // What the callback of a consumer reads is what was enqueued under the index.
  lemma GivesWhatWasEnqueued(q: Queue, h: History, t: Thread)
    requires Inv(q, h) && t in q.readers && q.readers[t].ReadItem?
    ensures ConsumerCan(q, t) && q.readers[t].at < |h.log| && Given(q, t) == h.log[q.readers[t].at]
  {
    hide Inv, ProducerOk, ClaimsOk, DeliveredOk, StopOf, BlockOf, Place;
    PartsHold(q, h);
    StopIsIn(q, h, t);
    StillThere(q, h, t, q.readers[t].at);
  }

  lemma OnlyReader(q: Queue, h: History, t: Thread, u: Thread, x: nat)
    requires ClaimsOk(q, h) && t in q.readers && u in q.readers
    requires Pending(q.readers[t], x) && GivenNotDone(q.readers[u], x)
    ensures t == u
  {
    StopIsIn(q, h, u);
    assert Pending(q.readers[u], x);
    hide ClaimOk;
  }

  // No index is given out twice.
  lemma GivesOnce(q: Queue, h: History, t: Thread)
    requires Inv(q, h) && t in q.readers && q.readers[t].ReadItem?
    ensures q.readers[t].at !in h.delivered
  {
    hide Inv, ProducerOk, StopOf;
    var x := q.readers[t].at;
    PartsHold(q, h);
    StopIsIn(q, h, t);
    assert Pending(q.readers[t], x);
    assert x !in h.done;
    if x in h.delivered {
      var u :| u in q.readers && GivenNotDone(q.readers[u], x);
      OnlyReader(q, h, t, u, x);
    }
  }

  lemma ReadClaims(q: Queue, h: History, t: Thread)
    requires Inv(q, h) && ConsumerCan(q, t) && q.readers[t].ReadItem?
    ensures ClaimsOk(ConsumerStep(q, t), Record(q, h, RunConsumer(t)))
  {
    hide C.Inv, HeadersOk, ProducerOk, CountingOk, BlocksOk, ChainOk, ViewOk, DeliveredOk;
    var q' := ConsumerStep(q, t);
    forall u | u in q'.readers ensures ClaimOk(q', h, u) { assert ClaimOk(q, h, u); }
    assert forall u, x: nat :: u in q.readers ==> (Pending(q'.readers[u], x) <==> Pending(q.readers[u], x));
    hide ClaimOk, Pending;
  }

  // Deliveries after one reader has read what was enqueued under one index.
  lemma DeliveredGrows(q: Queue, h: History, q': Queue, h': History, t: Thread, at: nat, item: Item)
    requires DeliveredOk(q, h) && t in q.readers && q'.readers.Keys == q.readers.Keys
    requires h'.log == h.log && h'.done == h.done && h'.delivered == h.delivered[at := item]
    requires at < |h.log| && item == h.log[at]
    requires forall x :: GivenNotDone(q'.readers[t], x) <==> GivenNotDone(q.readers[t], x) || x == at
    requires forall u :: u in q.readers && u != t ==> q'.readers[u] == q.readers[u]
    ensures DeliveredOk(q', h')
  {
    hide GivenNotDone;
    forall x | x in h'.delivered && x !in h'.done
      ensures exists u :: u in q'.readers && GivenNotDone(q'.readers[u], x)
    {
      if x == at {
        assert GivenNotDone(q'.readers[t], x);
      } else {
        var u :| u in q.readers && GivenNotDone(q.readers[u], x);
        assert GivenNotDone(q'.readers[u], x);
      }
    }
  }

  lemma ReadDeliveries(q: Queue, h: History, t: Thread)
    requires Inv(q, h) && ConsumerCan(q, t) && q.readers[t].ReadItem? && |h.infos| > 0
    ensures DeliveredOk(ConsumerStep(q, t), Record(q, h, RunConsumer(t)))
  {
    hide Inv, ProducerOk, ClaimsOk, DeliveredOk, StopOf, Given, Place;
    PartsHold(q, h);
    var q', h' := ConsumerStep(q, t), Record(q, h, RunConsumer(t));
    StopIsIn(q, h, t);
    GivesWhatWasEnqueued(q, h, t);
    DeliveredGrows(q, h, q', h', t, q.readers[t].at, Given(q, t));
  }

  lemma ReadView(q: Queue, h: History, t: Thread)
    requires ViewOkHere(q, h, t) && ConsumerCan(q, t) && q.readers[t].ReadItem?
    ensures ViewOk(ConsumerStep(q, t), h, t)
  {
    hide StopOf, BlockOf;
  }

  lemma KeepsReadItem(q: Queue, h: History, t: Thread)
    requires Inv(q, h) && ConsumerCan(q, t) && q.readers[t].ReadItem?
    ensures Inv(Step(q, RunConsumer(t)), Record(q, h, RunConsumer(t)))
  {
    LastRing(q, h) by { hide C.Inv, ProducerOk, CountingOk, BlocksOk, ChainOk, ClaimsOk, DeliveredOk, ViewOk; }
    var q', h' := ConsumerStep(q, t), Record(q, h, RunConsumer(t));
    hide Inv, ConsumerCan, ConsumerStep, Record, ViewOkHere, ClaimsOk, DeliveredOk;
    ViewHere(q, h, t);
    ReadView(q, h, t);
    ReadClaims(q, h, t);
    ReadDeliveries(q, h, t);
    ReadStep(q, h, t);
    ReadRest(q, h, q', h', t);
  }

  // Reading an item moves nothing but its reader and the record of deliveries.
  lemma ReadRest(q: Queue, h: History, q': Queue, h': History, t: Thread)
    requires Inv(q, h) && t in q.readers && !q.readers[t].Counting? && |h.infos| == |q.headers|
    requires t in q'.readers && q' == WithReader(q, t, q'.readers[t]) && h' == h.(delivered := h'.delivered)
    requires ClaimsOk(q', h') && DeliveredOk(q', h') && ViewOk(q', h, t)
    ensures Inv(q', h')
  {
    hide C.Inv, HeadersOk, ProducerOk, CountingOk, BlocksOk, ChainOk, ClaimsOk, DeliveredOk, ViewOk;
    SameCounting(q, h, q', h', t);
    StructuresKept(q, h, q', h');
    forall u | u in q'.readers && u != t ensures ViewOk(q', h', u) { OtherView(q, h, q', h', u); }
    OtherView(q', h, q', h', t);
  }

  lemma ReadStep(q: Queue, h: History, t: Thread)
    requires ConsumerCan(q, t) && q.readers[t].ReadItem? && |h.infos| > 0
    ensures t in q.readers && t in ConsumerStep(q, t).readers
    ensures ConsumerStep(q, t) == WithReader(q, t, ConsumerStep(q, t).readers[t])
    ensures Record(q, h, RunConsumer(t)) == h.(delivered := Record(q, h, RunConsumer(t)).delivered)
  {
  }

  lemma SameCounting(q: Queue, h: History, q': Queue, h': History, t: Thread)
    requires CountingOk(q, h) && t in q.readers && !q.readers[t].Counting?
    requires q'.counters == q.counters && h'.counting == h.counting
    requires t in q'.readers && q'.readers == q.readers[t := q'.readers[t]]
    ensures CountingOk(q', h')
  {
    hide C.Inv;
  }

  // --------------------------------------------- consumers recording what they finished

  // The part of a claim being recorded lies in one live block, is delivered and not done.
  ghost predicate InOneBlock(q: Queue, h: History, t: Thread)
    requires t in q.readers && q.readers[t].SetEmpty?
  {
    var r := q.readers[t];
    var m := BlockOf(r.first);
    && Oldest(q, h) <= m < |h.started| && r.block == h.started[m]
    && r.first < r.stop <= r.end && (r.stop < r.end ==> BlockOf(r.stop) == m + 1)
    && (forall x :: r.first <= x < r.stop ==> BlockOf(x) == m && x !in h.done && x in h.delivered)
  }

  // Its emptiness is recorded, and the reader goes on to the next slot or is finished.
  ghost predicate Recorded(q: Queue, h: History, q': Queue, h': History, t: Thread)
    requires t in q.readers && q.readers[t].SetEmpty?
  {
    var r := q.readers[t];
    && t in q'.readers && r.first <= r.stop && r.block in q.blocks
    && r.header < |q.headers| && q.headers[r.header].size > 0
    && h' == h.(done := h.done + Interval(r.first, r.stop))
    && q' == q.(readers := q'.readers,
       blocks := q.blocks[r.block := q.blocks[r.block].(dequeued := q.blocks[r.block].dequeued + (r.stop - r.first))])
    && q'.readers == q.readers[t := if r.stop == r.end then Counting
                                    else ReadBlock(r.stop, r.end, r.header, (r.slot + 1) % q.headers[r.header].size)]
  }

  ghost predicate Finished(q: Queue, h: History, q': Queue, h': History, t: Thread) {
    t in q.readers && q.readers[t].SetEmpty? && InOneBlock(q, h, t) && Recorded(q, h, q', h', t)
  }

  lemma FinishedPart(q: Queue, h: History, t: Thread)
    requires Inv(q, h) && t in q.readers && q.readers[t].SetEmpty?
    ensures InOneBlock(q, h, t)
  {
    hide Inv, ProducerOk;
    var r := q.readers[t];
    ViewHere(q, h, t);
    PartsHold(q, h);
    Claimed(q, h, t);
    StopIsIn(q, h, t);
    StopIsInBlock(r.first, r.end, r.first);
    if r.stop < r.end { BlockBounds(r.stop, BlockOf(r.first) + 1); }
    hide BlockOf, StopOf, Oldest;
    forall x | r.first <= x < r.stop
      ensures BlockOf(x) == BlockOf(r.first) && x !in h.done && x in h.delivered
    {
      StopIsInBlock(r.first, r.end, x);
      assert Pending(r, x);
      assert GivenNotDone(r, x);
    }
  }

  lemma RecordedStep(q: Queue, h: History, t: Thread)
    requires ConsumerCan(q, t) && q.readers[t].SetEmpty? && |h.infos| > 0 && q.readers[t].first <= q.readers[t].stop
    ensures Recorded(q, h, ConsumerStep(q, t), Record(q, h, RunConsumer(t)), t)
  {
    hide Interval;
  }

  lemma FinishedFacts(q: Queue, h: History, t: Thread)
    requires Inv(q, h) && ConsumerCan(q, t) && q.readers[t].SetEmpty? && |h.infos| > 0
    ensures Finished(q, h, ConsumerStep(q, t), Record(q, h, RunConsumer(t)), t)
  {
    FinishedPart(q, h, t);
    assert q.readers[t].first <= q.readers[t].stop;
    hide Inv, InOneBlock, Recorded, ConsumerStep, Record;
    RecordedStep(q, h, t);
  }

  lemma DoneAfter(done: set<nat>, first: nat, stop: nat, m: nat)
    requires first < stop && forall x :: first <= x < stop ==> BlockOf(x) == m && x !in done
    ensures |DoneIn(done + Interval(first, stop), m)| == |DoneIn(done, m)| + (stop - first)
    ensures forall k :: k != m ==> DoneIn(done + Interval(first, stop), k) == DoneIn(done, k)
  {
    IntervalSize(first, stop);
    hide BlockOf;
    forall x | x in Interval(first, stop) ensures first <= x < stop { assert Within(first, x, stop); }
    assert DoneIn(done + Interval(first, stop), m) == DoneIn(done, m) + Interval(first, stop);
  }

  lemma IntervalMembers(lo: nat, hi: nat)
    ensures forall x :: x in Interval(lo, hi) <==> lo <= x < hi
  {
    forall x: nat ensures x in Interval(lo, hi) <==> lo <= x < hi { assert lo <= x < hi <==> Within(lo, x, hi); }
  }

  // Moving one emptiness counter disturbs neither the chain nor the rings.
  lemma FinishedChain(q: Queue, h: History, q': Queue, h': History, t: Thread)
    requires Finished(q, h, q', h', t) && ProducerOk(q, h) && ChainOk(q, h) && HeadersOk(q, h)
    ensures ProducerOk(q', h') && ChainOk(q', h') && HeadersOk(q', h') && Oldest(q', h') == Oldest(q, h)
  {
    hide HeaderOk, BlockOf, Interval;
  }

  lemma DistinctBlocks(q: Queue, h: History, m: nat)
    requires ChainOk(q, h) && Oldest(q, h) <= m < |h.started|
    ensures forall k :: Oldest(q, h) <= k < |h.started| ==>
              h.started[k] in q.blocks && (k != m ==> h.started[k] != h.started[m])
  {
  }

  lemma CountedBlock(q: Queue, h: History, q': Queue, h': History, t: Thread, k: nat)
    requires Finished(q, h, q', h', t) && k < |h.started| && h.started[k] in q.blocks
    requires var m := BlockOf(q.readers[t].first);
             && (k != m ==> h.started[k] != h.started[m] && DoneIn(h'.done, k) == DoneIn(h.done, k))
             && |DoneIn(h'.done, m)| == |DoneIn(h.done, m)| + (q.readers[t].stop - q.readers[t].first)
    requires |h.log| == q.counters.tail && BlockOk(q, h, k)
    ensures BlockOk(q', h', k)
  {
    hide DoneIn, BlockOf, Interval, Oldest, Holds;
    assert q'.blocks[h.started[k]].elements == q.blocks[h.started[k]].elements;
    SameElements(q.blocks[h.started[k]], q'.blocks[h.started[k]]);
  }

  lemma SameElements(b: Block, b': Block)
    requires b'.elements == b.elements
    ensures forall x, item :: Holds(b', x, item) <==> Holds(b, x, item)
  {
  }

  // A block's counter goes up by what was recorded in it, and never past the block size.
  lemma FinishedBlocks(q: Queue, h: History, q': Queue, h': History, t: Thread)
    requires Finished(q, h, q', h', t) && ChainOk(q, h) && BlocksOkAt(q, h)
    ensures BlocksOkAt(q', h') && q'.blocks[q.readers[t].block].dequeued <= BS
  {
    var r := q.readers[t];
    var m := BlockOf(r.first);
    DistinctBlocks(q, h, m);
    DoneAfter(h.done, r.first, r.stop, m);
    FullBlock(h'.done, m);
    hide ChainOk, BlockOk, DoneIn, Interval, BlockOf;
    assert BlockOk(q, h, m);
    forall k | Oldest(q, h) <= k < |h.started| ensures BlockOk(q', h', k) { CountedBlock(q, h, q', h', t, k); }
    DequeuedIs(q', h', m);
  }

  ghost predicate BlocksOkAt(q: Queue, h: History) {
    && |h.log| == q.counters.tail
    && forall k :: Oldest(q, h) <= k < |h.started| ==> h.started[k] in q.blocks && BlockOk(q, h, k)
  }

  lemma DequeuedIs(q: Queue, h: History, m: nat)
    requires m < |h.started| && h.started[m] in q.blocks && |h.log| == q.counters.tail && BlockOk(q, h, m)
    ensures q.blocks[h.started[m]].dequeued == |DoneIn(h.done, m)|
  {
  }

  // A block about to be reused has nothing left to record.
  lemma FinishedReuse(q: Queue, h: History, q': Queue, h': History, t: Thread)
    requires Finished(q, h, q', h', t) && ChainOk(q, h) && BlocksOkAt(q, h)
    requires Oldest(q, h) < |h.started| && q.blocks[h.started[Oldest(q, h)]].dequeued == BS
    ensures h.started[Oldest(q, h)] in q'.blocks && q'.blocks[h.started[Oldest(q, h)]].dequeued == BS
  {
    var r, o := q.readers[t], Oldest(q, h);
    DistinctBlocks(q, h, BlockOf(r.first));
    DequeuedIs(q, h, o);
    FullBlock(h.done, o);
    hide ChainOk, BlockOk, DoneIn, Interval, BlockOf;
    assert r.first !in h.done;
    assert BlockOf(r.first) != o;
  }

  lemma FinishedBlocksOk(q: Queue, h: History, q': Queue, h': History, t: Thread)
    requires Finished(q, h, q', h', t) && ProducerOk(q, h) && ChainOk(q, h) && BlocksOk(q, h) && BlocksOkAt(q, h)
    requires Oldest(q', h') == Oldest(q, h) && BlocksOkAt(q', h') && ChainOk(q', h')
    ensures BlocksOk(q', h')
  {
    if q.producer.pc.Reuse? { FinishedReuse(q, h, q', h', t); }
    hide ChainOk, BlockOk, DoneIn, Interval, BlockOf, BlocksOkAt;
  }

  // The recorded part leaves its reader's pending region and joins the done set.
  lemma FinishedRegions(q: Queue, h: History, q': Queue, h': History, t: Thread)
    requires ClaimsOk(q, h) && Finished(q, h, q', h', t)
    ensures ClaimsOk(q', h')
  {
    var r := q.readers[t];
    IntervalMembers(r.first, r.stop);
    hide BlockOf, Interval, Oldest, StopOf;
    assert ClaimOk(q, h, t);
    forall u | u in q'.readers ensures ClaimOk(q', h', u) { assert ClaimOk(q, h, u); }
    assert forall u, x: nat :: u in q.readers ==>
             (Pending(q'.readers[u], x) <==> Pending(q.readers[u], x) && !(u == t && x < r.stop));
    assert forall x: nat :: Pending(q.readers[t], x) ==> r.first <= x;
    assert forall x: nat :: r.first <= x < r.stop ==> Pending(q.readers[t], x);
    hide ClaimOk, Pending, Finished;
    RegionsAfter(q, h, q', h', t, r.first, r.stop);
  }

  lemma RegionsAfter(q: Queue, h: History, q': Queue, h': History, t: Thread, first: nat, stop: nat)
    requires ClaimsOk(q, h) && t in q.readers && q'.readers.Keys == q.readers.Keys && q'.counters == q.counters
    requires forall x :: x in h'.done <==> x in h.done || first <= x < stop
    requires forall u :: u in q'.readers ==> ClaimOk(q', h', u)
    requires forall u, x: nat :: u in q.readers ==>
               (Pending(q'.readers[u], x) <==> Pending(q.readers[u], x) && !(u == t && x < stop))
    requires forall x: nat :: Pending(q.readers[t], x) ==> first <= x
    requires stop <= q.counters.head
    requires forall x: nat {:trigger x in h'.done} :: first <= x < stop ==> Pending(q.readers[t], x)
    ensures ClaimsOk(q', h')
  {
    hide ClaimOk, Pending;
    forall u, x: nat | u in q'.readers && Pending(q'.readers[u], x)
      ensures x !in h'.done
    {
      assert Pending(q.readers[u], x);
    }
    forall x: nat | x < q.counters.head && x !in h'.done
      ensures exists u :: u in q'.readers && Pending(q'.readers[u], x)
    {
      var u :| u in q.readers && Pending(q.readers[u], x);
      assert Pending(q'.readers[u], x);
    }
  }

  lemma FinishedDeliveries(q: Queue, h: History, q': Queue, h': History, t: Thread)
    requires DeliveredOk(q, h) && Finished(q, h, q', h', t)
    ensures DeliveredOk(q', h')
  {
    var r := q.readers[t];
    IntervalMembers(r.first, r.stop);
    hide BlockOf, Interval, Oldest;
    assert forall u, x :: u in q.readers ==>
             (GivenNotDone(q'.readers[u], x) <==> GivenNotDone(q.readers[u], x) && u != t);
    assert forall x: nat :: GivenNotDone(q.readers[t], x) <==> r.first <= x < r.stop;
    hide GivenNotDone;
    forall x | x in h'.delivered && x !in h'.done
      ensures exists u :: u in q'.readers && GivenNotDone(q'.readers[u], x)
    {
      var u :| u in q.readers && GivenNotDone(q.readers[u], x);
      assert GivenNotDone(q'.readers[u], x);
    }
  }

  lemma FinishedView(q: Queue, h: History, q': Queue, h': History, t: Thread)
    requires |h.infos| == |q.headers| && Finished(q, h, q', h', t) && ViewOk(q, h, t)
    ensures ViewOk(q', h', t)
  {
    hide Interval, Oldest, BlockOf;
    var r := q.readers[t];
    if r.stop < r.end {
      R.RemainderOfSum(BlockOf(r.first) - h.infos[r.header].zero, 1, q.headers[r.header].size);
      BlockMonotone(r.first, r.stop);
    }
  }

  lemma KeepsSetEmpty(q: Queue, h: History, t: Thread)
    requires Inv(q, h) && ConsumerCan(q, t) && q.readers[t].SetEmpty?
    ensures Inv(Step(q, RunConsumer(t)), Record(q, h, RunConsumer(t)))
  {
    LastRing(q, h) by { hide C.Inv, ProducerOk, CountingOk, BlocksOk, ChainOk, ClaimsOk, DeliveredOk, ViewOk; }
    var q', h' := ConsumerStep(q, t), Record(q, h, RunConsumer(t));
    FinishedFacts(q, h, t);
    assert BlocksOkAt(q, h) by { hide C.Inv, CountingOk, ClaimsOk, DeliveredOk, ViewOk, HeadersOk, BlockOk; }
    hide C.Inv, HeadersOk, ProducerOk, CountingOk, BlocksOk, ChainOk, ClaimsOk, DeliveredOk, ViewOk, ConsumerCan,
         ConsumerStep, Record, BlocksOkAt, Finished;
    FinishedChain(q, h, q', h', t);
    FinishedBlocks(q, h, q', h', t);
    FinishedBlocksOk(q, h, q', h', t);
    FinishedRegions(q, h, q', h', t);
    FinishedDeliveries(q, h, q', h', t);
    FinishedRest(q, h, q', h', t);
  }

  lemma FinishedRest(q: Queue, h: History, q': Queue, h': History, t: Thread)
    requires Finished(q, h, q', h', t) && CountingOk(q, h) && |h.infos| == |q.headers| > 0
    requires forall u :: u in q.readers ==> ViewOk(q, h, u)
    ensures CountingOk(q', h') && forall u :: u in q'.readers ==> ViewOk(q', h', u)
  {
    FinishedView(q, h, q', h', t);
    hide C.Inv, ViewOk, BlockOf, Interval, Oldest;
    SameCounting(q, h, q', h', t);
    hide CountingOk;
    forall u | u in q'.readers && u != t ensures ViewOk(q', h', u) { OtherView(q, h, q', h', u); }
  }

  // ------------------------------------------------------ one step of the counting

  // What a step of the counting protocol does to the counters the blocks depend on.
  lemma CountingStep(q: Queue, h: History, t: Thread)
    requires CountingOk(q, h) && ConsumerCan(q, t) && q.readers[t].Counting?
    ensures var c, c' := q.counters, C.Step(q.counters, C.Action.Run(t));
            && c'.tail == c.tail && c'.pc.Keys == c.pc.Keys && t in c.pc
            && (forall u :: u in c.pc && u != t ==> c'.pc[u] == c.pc[u])
            && (if c.pc[t].TakeHead? then c.head < c'.head <= c.tail && c'.pc[t] == C.Idle else c'.head == c.head)
            && C.Inv(c', C.Record(c, h.counting, C.Action.Run(t)))
  {
    var c, a := q.counters, C.Action.Run(t);
    hide C.Inv, C.Record, C.Step;
    C.StepKeeps(c, h.counting, a);
    C.HeadBelowTail(C.Step(c, a), C.Record(c, h.counting, a));
    CountingFrame(c, h.counting, t);
  }

  lemma CountingFrame(c: C.Counters, h: C.History, t: Thread)
    requires C.Inv(c, h) && t in c.pc
    ensures var c' := C.Step(c, C.Action.Run(t));
            && c'.tail == c.tail && c'.pc.Keys == c.pc.Keys
            && (forall u :: u in c.pc && u != t ==> c'.pc[u] == c.pc[u])
            && (if c.pc[t].TakeHead? then c.head < c'.head && c'.pc[t] == C.Idle else c'.head == c.head)
  {
    assert C.ThreadOk(c, h, t);
    hide C.Inv;
  }

  ghost predicate Counts(q: Queue, h: History, q': Queue, h': History, t: Thread) {
    && t in q.readers && q.readers[t].Counting? && t in q'.readers && q'.readers == q.readers[t := q'.readers[t]]
    && q' == q.(counters := q'.counters, readers := q'.readers) && h' == h.(counting := h'.counting)
    && q'.counters.tail == q.counters.tail
    && (if q'.readers[t].Counting? then q'.counters.head == q.counters.head
        else && q.counters.head < q'.counters.head
             && q'.readers[t] == LoadIndex(q.counters.head, q'.counters.head))
  }

  lemma CountedStep(q: Queue, h: History, t: Thread)
    requires CountingOk(q, h) && ConsumerCan(q, t) && q.readers[t].Counting? && |h.infos| > 0
    ensures var q', h' := ConsumerStep(q, t), Record(q, h, RunConsumer(t));
            Counts(q, h, q', h', t) && CountingOk(q', h')
  {
    CountingStep(q, h, t);
    hide C.Inv, C.Step, C.Record, C.Enabled;
  }

  // A new claim starts where the claims before it end.
  lemma CountedClaims(q: Queue, h: History, q': Queue, h': History, t: Thread)
    requires ClaimsOk(q, h) && Counts(q, h, q', h', t)
    ensures ClaimsOk(q', h')
  {
    forall u | u in q'.readers ensures ClaimOk(q', h', u) { if u != t { assert ClaimOk(q, h, u); } }
    assert forall u, x: nat :: u in q.readers && u != t ==> (Pending(q'.readers[u], x) <==> Pending(q.readers[u], x));
    forall u, x: nat | u in q.readers && Pending(q.readers[u], x)
      ensures x < q.counters.head
    {
      assert ClaimOk(q, h, u);
    }
    assert forall x: nat :: !Pending(q.readers[t], x);
    assert forall x: nat :: Pending(q'.readers[t], x) <==> q.counters.head <= x < q'.counters.head;
    hide ClaimOk, Pending;
    NewClaim(q, h, q', h', t);
  }

  lemma NewClaim(q: Queue, h: History, q': Queue, h': History, t: Thread)
    requires ClaimsOk(q, h) && h'.done == h.done && t in q.readers && q'.readers.Keys == q.readers.Keys
    requires q.counters.head <= q'.counters.head && forall u :: u in q'.readers ==> ClaimOk(q', h', u)
    requires forall u, x: nat :: u in q.readers && u != t ==> (Pending(q'.readers[u], x) <==> Pending(q.readers[u], x))
    requires forall u, x: nat :: u in q.readers && Pending(q.readers[u], x) ==> x < q.counters.head
    requires forall x: nat :: !Pending(q.readers[t], x)
    requires forall x: nat :: Pending(q'.readers[t], x) <==> q.counters.head <= x < q'.counters.head
    ensures ClaimsOk(q', h')
  {
    hide ClaimOk, Pending;
    forall x: nat | x < q'.counters.head && x !in h'.done
      ensures exists u :: u in q'.readers && Pending(q'.readers[u], x)
    {
      if x < q.counters.head {
        var u :| u in q.readers && Pending(q.readers[u], x);
        assert Pending(q'.readers[u], x);
      } else {
        assert Pending(q'.readers[t], x);
      }
    }
  }

  lemma CountedDeliveries(q: Queue, h: History, q': Queue, h': History, t: Thread)
    requires DeliveredOk(q, h) && Counts(q, h, q', h', t)
    ensures DeliveredOk(q', h')
  {
    assert forall u, x :: u in q.readers ==> (GivenNotDone(q'.readers[u], x) <==> GivenNotDone(q.readers[u], x));
    hide GivenNotDone;
  }

  lemma KeepsCounting(q: Queue, h: History, t: Thread)
    requires Inv(q, h) && ConsumerCan(q, t) && q.readers[t].Counting?
    ensures Inv(Step(q, RunConsumer(t)), Record(q, h, RunConsumer(t)))
  {
    LastRing(q, h) by { hide C.Inv, ProducerOk, CountingOk, BlocksOk, ChainOk, ClaimsOk, DeliveredOk, ViewOk; }
    var q', h' := ConsumerStep(q, t), Record(q, h, RunConsumer(t));
    CountedStep(q, h, t);
    hide C.Inv, HeadersOk, ProducerOk, CountingOk, BlocksOk, ChainOk, ClaimsOk, DeliveredOk, ViewOk, ConsumerCan,
         ConsumerStep, Record;
    CountedClaims(q, h, q', h', t);
    CountedDeliveries(q, h, q', h', t);
    StructuresKept(q, h, q', h');
    forall u | u in q'.readers && u != t ensures ViewOk(q', h', u) { OtherView(q, h, q', h', u); }
    NoView(q', h', t);
  }

  lemma NoView(q: Queue, h: History, t: Thread)
    requires t in q.readers && |h.infos| == |q.headers| && (q.readers[t].Counting? || q.readers[t].LoadIndex?)
    ensures ViewOk(q, h, t)
  {
  }

  lemma KeepsConsumerStep(q: Queue, h: History, t: Thread)
    requires Inv(q, h) && ConsumerCan(q, t)
    ensures Inv(Step(q, RunConsumer(t)), Record(q, h, RunConsumer(t)))
  {
    assert |h.infos| > 0 by { hide C.Inv, BlocksOk, ClaimsOk, DeliveredOk, CountingOk, ViewOk; }
    assert t in q.readers;
    hide Inv, Step, Record, ConsumerCan;
    match q.readers[t]
    case Counting => KeepsCounting(q, h, t);
    case ReadItem(_, _, _, _, _, _, _) => KeepsReadItem(q, h, t);
    case SetEmpty(_, _, _, _, _, _) => KeepsSetEmpty(q, h, t);
    case _ => KeepsLoading(q, h, t);
  }

  // Every step of the producer and of every consumer keeps the invariant.
  lemma StepKeeps(q: Queue, h: History, a: Action)
    requires Inv(q, h) && Can(q, a)
    ensures |h.infos| > 0 && Inv(Step(q, a), Record(q, h, a))
  {
    assert |h.infos| > 0 by { hide C.Inv, BlocksOk, ClaimsOk, DeliveredOk, CountingOk, ViewOk; }
    hide Inv, Step, Record;
    match a
    case Enqueue(item) => KeepsEnqueue(q, h, item);
    case RunProducer(spare) => KeepsProducerStep(q, h, spare);
    case RunConsumer(t) => KeepsConsumerStep(q, h, t);
  }

  // --------------------------------------------------------------- whole runs

  datatype Run = Start(q: Queue) | Then(before: Run, action: Action)

  ghost predicate Legal(r: Run)
    decreases r, 0
  {
    match r
    case Start(q) => Init(q)
    case Then(before, a) => Legal(before) && Can(Final(before).0, a) && |Final(before).1.infos| > 0
  }

  ghost function Final(r: Run): (Queue, History)
    requires Legal(r)
    decreases r, 1
  {
    match r
    case Start(q) => (q, NoHistory)
    case Then(before, a) =>
      var (q, h) := Final(before);
      (Step(q, a), Record(q, h, a))
  }

  lemma {:induction false} Reachable(r: Run)
    requires Legal(r)
    ensures Inv(Final(r).0, Final(r).1)
  {
    hide Inv, Step, Record, Can;
    match r
    case Start(q) => InitInv(q);
    case Then(before, a) =>
      Reachable(before);
      StepKeeps(Final(before).0, Final(before).1, a);
  }

  // No consumer is ever stuck on a bad access: whatever the producer has done since,
  // the header, slot, block and elements it is about to read exist.
  lemma ConsumerNeverStuck(r: Run, t: Thread)
    requires Legal(r) && t in Final(r).0.readers && !Final(r).0.readers[t].Counting?
    ensures ConsumerCan(Final(r).0, t)
  {
    Reachable(r);
    var (q, h) := Final(r);
    assert t in q.counters.pc by { hide C.Inv, HeadersOk, DeliveredOk, ClaimsOk, BlocksOk, ChainOk, ViewOk; }
    LastRing(q, h) by { hide C.Inv, ProducerOk, CountingOk, BlocksOk, ChainOk, ClaimsOk, DeliveredOk, ViewOk; }
    if q.readers[t].ReadItem? {
      GivesWhatWasEnqueued(q, h, t);
    } else {
      ViewInBounds(q, h, t);
    }
  }

  // Nor is the producer: the blocks and the slot it is about to touch exist, as long as there is
  // memory for a block that is not in use. Only the bound on indices can stop it.
  lemma ProducerNeverStuck(r: Run, spare: BlockId)
    requires Legal(r) && !Final(r).0.producer.pc.Rest? && spare !in Final(r).0.blocks
    ensures var q := Final(r).0;
            ProducerCan(q, spare) <==> (q.producer.pc.PublishTail? ==> C.Enabled(q.counters, C.Publish))
  {
    Reachable(r);
    var (q, h) := Final(r);
    TailInChain(q, h);
    FrontInRing(q, h);
    hide Inv, TailBlockExists;
  }

  lemma TailInChain(q: Queue, h: History)
    requires Inv(q, h)
    ensures q.producer.tailBlock.Some? ==> TailBlockExists(q)
    ensures !q.producer.pc.Rest? && !q.producer.pc.CheckEmpty? && !q.producer.pc.NeedBlock? && !q.producer.pc.Link? ==>
              q.producer.tailBlock.Some?
  {
    hide C.Inv, CountingOk, ClaimsOk, DeliveredOk, ViewOk, HeadersOk, BlocksOk;
    if q.producer.slotsUsed > 0 { OldestIsNext(q, h); }
  }

  lemma FrontInRing(q: Queue, h: History)
    requires Inv(q, h)
    ensures |q.headers| > 0 && q.producer.slotsUsed <= q.producer.size == |Current(q).entries|
    ensures q.producer.front < q.producer.size
  {
    hide C.Inv, CountingOk, ClaimsOk, DeliveredOk, ViewOk, ChainOk, BlocksOk;
    LastRing(q, h);
    assert HeaderOk(q.headers[|q.headers| - 1], h.infos[|q.headers| - 1], h.started);
  }

  lemma ViewInBounds(q: Queue, h: History, t: Thread)
    requires Inv(q, h) && t in q.readers && t in q.counters.pc && |q.headers| > 0
    requires !q.readers[t].Counting? && !q.readers[t].ReadItem?
    ensures ConsumerCan(q, t)
  {
    assert ViewOk(q, h, t);
    if q.readers[t].ReadBlock? { ResolvesToItsBlock(q, h, t); }
    if q.readers[t].SetEmpty? { FinishedPart(q, h, t); LiveBlocks(q, h); }
    if q.readers[t].LoadBase? {
      assert HeaderOk(q.headers[q.readers[t].header], h.infos[q.readers[t].header], h.started) by {
        hide C.Inv, ProducerOk, CountingOk, BlocksOk, ChainOk, ClaimsOk, DeliveredOk, ViewOk;
      }
    }
    hide Inv, BlockOf, Oldest;
  }

  lemma LiveBlocks(q: Queue, h: History)
    requires Inv(q, h)
    ensures BlocksOkAt(q, h)
  {
    hide C.Inv, CountingOk, ClaimsOk, DeliveredOk, ViewOk, HeadersOk, BlockOk;
  }

  // The producer resets a block only when every element of it has been finished: no
  // consumer has a claim pending there.
  lemma ReusedBlockIsFinished(r: Run, x: nat)
    requires Legal(r) && Final(r).0.producer.pc.Reuse?
    requires Oldest(Final(r).0, Final(r).1) == BlockOf(x)
    ensures x in Final(r).1.done
    ensures forall t :: t in Final(r).0.readers ==> !Pending(Final(r).0.readers[t], x)
    ensures TailBlockExists(Final(r).0)
    ensures BlockOf(x) < |Final(r).1.started|
    ensures Final(r).0.blocks[TailBlock(Final(r).0)].next == Final(r).1.started[BlockOf(x)]
  {
    Reachable(r);
    var (q, h) := Final(r);
    OldestIsNext(q, h) by { hide C.Inv, CountingOk, ClaimsOk, DeliveredOk, ViewOk, HeadersOk, BlocksOk; }
    OldestIsFull(q, h, x);
    hide C.Inv, CountingOk, DeliveredOk, ViewOk, HeadersOk, BlocksOk, ChainOk, ProducerOk, BlockOf, Oldest;
  }

  lemma OldestIsFull(q: Queue, h: History, x: nat)
    requires Inv(q, h) && q.producer.pc.Reuse? && Oldest(q, h) == BlockOf(x)
    ensures Oldest(q, h) < |h.started| && x in h.done
  {
    hide C.Inv, CountingOk, ClaimsOk, DeliveredOk, ViewOk, HeadersOk;
    assert BlockOk(q, h, Oldest(q, h));
    FullBlock(h.done, Oldest(q, h));
  }

  // A consumer that resolves its slot finds the block of its index, whichever ring it
  // loaded and however far the producer has gone since.
  lemma ClaimFindsItsBlock(r: Run, t: Thread)
    requires Legal(r) && t in Final(r).0.readers && Final(r).0.readers[t].ReadBlock?
    ensures var (q, h) := Final(r);
            var reader := q.readers[t];
            && reader.header < |q.headers| && reader.slot < |q.headers[reader.header].entries|
            && BlockOf(reader.first) < |h.started|
            && q.headers[reader.header].entries[reader.slot]
            == Entry(Base(BlockOf(reader.first)), h.started[BlockOf(reader.first)])
  {
    Reachable(r);
    ResolvesToItsBlock(Final(r).0, Final(r).1, t);
  }

  // The assertion in `set_many_empty`: an emptiness counter never passes the block size.
  lemma CounterNeverPassesBlockSize(r: Run, t: Thread)
    requires Legal(r) && t in Final(r).0.readers && Final(r).0.readers[t].SetEmpty?
    ensures var q := Final(r).0; var reader := q.readers[t];
            && reader.block in q.blocks && reader.first < reader.stop
            && q.blocks[reader.block].dequeued + (reader.stop - reader.first) <= BS
  {
    Reachable(r);
    ConsumerNeverStuck(r, t);
    var (q, h) := Final(r);
    LastRing(q, h) by { hide C.Inv, ProducerOk, CountingOk, BlocksOk, ChainOk, ClaimsOk, DeliveredOk, ViewOk; }
    FinishedFacts(q, h, t);
    LiveBlocks(q, h);
    hide C.Inv, HeadersOk, ProducerOk, CountingOk, BlocksOk, ClaimsOk, DeliveredOk, ViewOk, ConsumerCan, ConsumerStep,
         Record, BlocksOkAt, ChainOk;
    FinishedBlocks(q, h, ConsumerStep(q, t), Record(q, h, RunConsumer(t)), t);
    hide BlockOf, Oldest, Interval;
  }

  // The items whose enqueueing has begun, in order.
  ghost function Enqueued(r: Run): seq<Item> {
    match r
    case Start(_) => []
    case Then(before, Enqueue(item)) => Enqueued(before) + [item]
    case Then(before, _) => Enqueued(before)
  }

  // Published items, then the one on its way.
  function Written(q: Queue, h: History): seq<Item> {
    h.log + (if q.producer.pc.Rest? then [] else [q.producer.pc.item])
  }

  lemma {:induction false} LogIsEnqueued(r: Run)
    requires Legal(r)
    ensures Enqueued(r) == Written(Final(r).0, Final(r).1)
  {
    match r
    case Start(_) =>
    case Then(before, a) =>
      LogIsEnqueued(before);
      var (q, h) := Final(before);
      StepWrites(q, h, a);
      hide Step, Record, Can, Written;
  }

  lemma StepWrites(q: Queue, h: History, a: Action)
    requires Can(q, a) && |h.infos| > 0
    ensures Written(Step(q, a), Record(q, h, a)) == if a.Enqueue? then Written(q, h) + [a.item] else Written(q, h)
  {
    match a
    case Enqueue(_) =>
    case RunConsumer(t) => ConsumerLeavesLog(q, h, t);
    case RunProducer(spare) => ProducerWrites(q, h, spare);
  }

  lemma ProducerWrites(q: Queue, h: History, spare: BlockId)
    requires ProducerCan(q, spare) && |h.infos| > 0
    ensures Written(ProducerStep(q, spare), Record(q, h, RunProducer(spare))) == Written(q, h)
  {
    hide Doubled, Linked;
  }

  lemma ConsumerLeavesLog(q: Queue, h: History, t: Thread)
    requires ConsumerCan(q, t) && |h.infos| > 0
    ensures ConsumerStep(q, t).producer == q.producer && Record(q, h, RunConsumer(t)).log == h.log
  {
  }

  // First in, first out: the item given out under an index is the one enqueued under
  // it; no index is given out twice; and once every consumer has finished its claims,
  // exactly the first `head` enqueued items have been given out.
  lemma FirstInFirstOut(r: Run)
    requires Legal(r)
    ensures var (q, h) := Final(r);
            && (forall x :: x in h.delivered ==> x < |Enqueued(r)| && h.delivered[x] == Enqueued(r)[x])
            && ((forall t :: t in q.readers ==> q.readers[t].Counting?) ==>
                  forall x: nat :: x in h.delivered <==> x < q.counters.head)
  {
    Reachable(r);
    LogIsEnqueued(r);
    var (q, h) := Final(r);
    hide C.Inv, HeadersOk, ProducerOk, CountingOk, BlocksOk, ChainOk, ViewOk;
    if forall t :: t in q.readers ==> q.readers[t].Counting? {
      forall x: nat
        ensures x in h.delivered <==> x < q.counters.head
      {
        assert x in h.delivered ==> x in h.done;
      }
    }
  }

  // The same at the step itself: what is read is what was enqueued, and has not been read before.
  lemma NoIndexGivenTwice(r: Run, t: Thread)
    requires Legal(r) && t in Final(r).0.readers && Final(r).0.readers[t].ReadItem?
    ensures var (q, h) := Final(r);
            var at := q.readers[t].at;
            at !in h.delivered && ConsumerCan(q, t) && at < |Enqueued(r)| && Given(q, t) == Enqueued(r)[at]
  {
    Reachable(r);
    LogIsEnqueued(r);
    var (q, h) := Final(r);
    hide Inv;
    GivesOnce(q, h, t);
    GivesWhatWasEnqueued(q, h, t);
  }
}
