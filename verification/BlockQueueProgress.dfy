/**
 What one producer's queue achieves, and that its calls end: an item that is enqueued gets
 published, a claim that a consumer has made gets delivered, wherever the others have stopped.
 */
module BlockQueueProgress {
  import opened Options
  import opened BlockQueue
  import C = DequeueCounting
  import Words

  // The same step n times over, with no other between.
  ghost function Again(r: Run, a: Action, n: nat): Run {
    if n == 0 then r else Then(Again(r, a, n - 1), a)
  }

  lemma {:induction false} AgainMore(r: Run, a: Action, k: nat, n: nat)
    ensures Again(Again(r, a, k), a, n) == Again(r, a, k + n)
  {
    if n > 0 { AgainMore(r, a, k, n - 1); }
  }

  ghost predicate IsAt(r: Run, q: Queue, h: History) { Legal(r) && Final(r) == (q, h) }

  lemma IsWhereItIs(r: Run)
    requires Legal(r)
    ensures IsAt(r, Final(r).0, Final(r).1)
  {
  }

  lemma OneMore(r: Run, q: Queue, h: History, a: Action)
    requires IsAt(r, q, h) && Can(q, a)
    ensures |h.infos| > 0 && IsAt(Again(r, a, 1), Step(q, a), Record(q, h, a))
    ensures Inv(q, h) && Inv(Step(q, a), Record(q, h, a))
    ensures Enqueued(Again(r, a, 1)) == Enqueued(r) + if a.Enqueue? then [a.item] else []
  {
    hide Inv, Step, Record, Can;
    Reachable(r);
    StepKeeps(q, h, a);
    assert Again(r, a, 0) == r;
  }

  // ------------------------------------------------------------ the producer alone

  // The accesses that an enqueue still needs, at most.
  function ProducerLeft(pc: ProducerPc): nat {
    match pc
    case Rest => 0
    case CheckEmpty(_) => 8
    case Reuse(_) => 6
    case NeedBlock(_) => 7
    case Link(_) => 6
    case WriteBase(_) => 5
    case WriteBlock(_) => 4
    case StoreFront(_) => 3
    case WriteItem(_) => 2
    case PublishTail(_) => 1
  }

  // Every element of the oldest block has been finished.
  predicate OldestIsEmpty(q: Queue) {
    TailBlockExists(q) && q.blocks[q.blocks[TailBlock(q)].next].dequeued == BS
  }

  // The producer is going to add a block.
  predicate Adds(q: Queue) {
    match q.producer.pc
    case CheckEmpty(_) => !OldestIsEmpty(q)
    case NeedBlock(_) => true
    case Link(_) => true
    case _ => false
  }

  function KeysInTheEnd(q: Queue, spare: BlockId): set<BlockId> {
    q.blocks.Keys + if Adds(q) then {spare} else {}
  }

  // A block is added while the ring is full.
  predicate Doubles(q: Queue) {
    (q.producer.pc.CheckEmpty? || q.producer.pc.NeedBlock?) && Adds(q) && q.producer.slotsUsed == q.producer.size
  }

  function RingsInTheEnd(q: Queue): nat { |q.headers| + if Doubles(q) then 1 else 0 }

  // One access of the producer on the way to publishing its item.
  ghost predicate Nearer(q: Queue, h: History, q': Queue, h': History, spare: BlockId)
    requires !q.producer.pc.Rest?
  {
    && ProducerLeft(q'.producer.pc) < ProducerLeft(q.producer.pc)
    && KeysInTheEnd(q', spare) == KeysInTheEnd(q, spare) && RingsInTheEnd(q') == RingsInTheEnd(q)
    && (Adds(q') ==> Adds(q) && q'.blocks.Keys == q.blocks.Keys)
    && q'.readers == q.readers && h'.delivered == h.delivered && h'.done == h.done
    && if q'.producer.pc == Rest then
         h'.log == h.log + [q.producer.pc.item] && q'.counters == C.Step(q.counters, C.Publish)
       else
         q'.producer.pc.item == q.producer.pc.item && h'.log == h.log && q'.counters == q.counters
  }

  ghost predicate NearerAfter(q: Queue, h: History, spare: BlockId)
    requires ProducerCan(q, spare) && |h.infos| > 0
  {
    Nearer(q, h, Step(q, RunProducer(spare)), Record(q, h, RunProducer(spare)), spare)
  }

  lemma LooksNearer(q: Queue, h: History, spare: BlockId)
    requires ProducerCan(q, spare) && |h.infos| > 0 && (q.producer.pc.CheckEmpty? || q.producer.pc.NeedBlock?)
    ensures NearerAfter(q, h, spare)
  {
    hide Doubled, C.Step, C.Record, C.Enabled;
  }

  lemma StartsNearer(q: Queue, h: History, spare: BlockId)
    requires ProducerCan(q, spare) && |h.infos| > 0 && (q.producer.pc.Reuse? || q.producer.pc.Link?)
    ensures NearerAfter(q, h, spare)
  {
    hide C.Step, C.Record, C.Enabled;
  }

  lemma ExposesNearer(q: Queue, h: History, spare: BlockId)
    requires ProducerCan(q, spare) && |h.infos| > 0
    requires q.producer.pc.WriteBase? || q.producer.pc.WriteBlock? || q.producer.pc.StoreFront?
    ensures NearerAfter(q, h, spare)
  {
    hide C.Step, C.Record, C.Enabled;
  }

  lemma WritesNearer(q: Queue, h: History, spare: BlockId)
    requires ProducerCan(q, spare) && |h.infos| > 0 && (q.producer.pc.WriteItem? || q.producer.pc.PublishTail?)
    ensures NearerAfter(q, h, spare)
  {
    hide C.Step, C.Record, C.Enabled;
  }

  lemma ProducerGoes(q: Queue, h: History, spare: BlockId)
    requires ProducerCan(q, spare) && |h.infos| > 0
    ensures NearerAfter(q, h, spare)
  {
    hide NearerAfter, ProducerCan;
    match q.producer.pc {
      case CheckEmpty(_) => LooksNearer(q, h, spare);
      case NeedBlock(_) => LooksNearer(q, h, spare);
      case Reuse(_) => StartsNearer(q, h, spare);
      case Link(_) => StartsNearer(q, h, spare);
      case WriteItem(_) => WritesNearer(q, h, spare);
      case PublishTail(_) => WritesNearer(q, h, spare);
      case Rest => NotResting(q, spare);
      case _ => ExposesNearer(q, h, spare);
    }
  }

  lemma NotResting(q: Queue, spare: BlockId)
    requires ProducerCan(q, spare)
    ensures !q.producer.pc.Rest?
  {
  }

  lemma ProducerCanGo(q: Queue, h: History, spare: BlockId)
    requires Inv(q, h) && !q.producer.pc.Rest?
    requires q.producer.pc.Link? ==> spare !in q.blocks
    requires C.Enabled(q.counters, C.Publish)
    ensures ProducerCan(q, spare)
  {
    TailInChain(q, h);
    FrontInRing(q, h);
    hide Inv, TailBlockExists, C.Enabled;
  }

  ghost predicate CanFinish(q: Queue, spare: BlockId) {
    !q.producer.pc.Rest? && (Adds(q) ==> spare !in q.blocks) && C.Enabled(q.counters, C.Publish)
  }

  // What the producer has done when it rests again, having been on its way with an item.
  ghost predicate Published(q: Queue, h: History, q': Queue, h': History, spare: BlockId)
    requires !q.producer.pc.Rest?
  {
    && q'.producer.pc == Rest && h'.log == h.log + [q.producer.pc.item]
    && q'.counters == C.Step(q.counters, C.Publish) && q'.readers == q.readers
    && h'.delivered == h.delivered && h'.done == h.done
    && q'.blocks.Keys == KeysInTheEnd(q, spare) && |q'.headers| == RingsInTheEnd(q)
  }

  lemma NearerThenPublished(q: Queue, h: History, q': Queue, h': History, q'': Queue, h'': History, spare: BlockId)
    requires !q.producer.pc.Rest? && Nearer(q, h, q', h', spare)
    requires if q'.producer.pc.Rest? then q'' == q' && h'' == h' else Published(q', h', q'', h'', spare)
    ensures Published(q, h, q'', h'', spare)
  {
    hide C.Step, OldestIsEmpty;
  }

  lemma StillCanFinish(q: Queue, h: History, q': Queue, h': History, spare: BlockId)
    requires CanFinish(q, spare) && Nearer(q, h, q', h', spare) && !q'.producer.pc.Rest?
    ensures CanFinish(q', spare)
  {
    hide C.Enabled, OldestIsEmpty;
  }

  lemma CanAtOnce(q: Queue, h: History, spare: BlockId)
    requires Inv(q, h) && CanFinish(q, spare)
    ensures ProducerCan(q, spare) && Can(q, RunProducer(spare))
  {
    hide Inv, ProducerCan, C.Enabled;
    ProducerCanGo(q, h, spare);
  }

  ghost predicate OnItsWay(r: Run, spare: BlockId) { Legal(r) && CanFinish(Final(r).0, spare) }

  ghost function ItsLeft(r: Run): nat
    requires Legal(r)
  {
    ProducerLeft(Final(r).0.producer.pc)
  }

  ghost predicate NearerRun(r: Run, r': Run, spare: BlockId)
    requires OnItsWay(r, spare)
  {
    && Legal(r') && ItsLeft(r') < ItsLeft(r)
    && Nearer(Final(r).0, Final(r).1, Final(r').0, Final(r').1, spare)
  }

  ghost predicate PublishedRun(r: Run, r': Run, spare: BlockId)
    requires OnItsWay(r, spare)
  {
    Legal(r') && Published(Final(r).0, Final(r).1, Final(r').0, Final(r').1, spare)
  }

  ghost predicate Resting(r: Run) { Legal(r) && Final(r).0.producer.pc == Rest }

  lemma ProducerStepsNearer(r: Run, spare: BlockId)
    requires OnItsWay(r, spare)
    ensures var next := Again(r, RunProducer(spare), 1);
            NearerRun(r, next, spare) && (Resting(next) || OnItsWay(next, spare))
  {
    var (q, h) := Final(r);
    IsWhereItIs(r);
    var next := Again(r, RunProducer(spare), 1);
    hide Inv, Legal, Final, Again, ProducerCan, Step, Record, CanFinish, Nearer, NearerAfter, ProducerLeft;
    Reachable(r);
    CanAtOnce(q, h, spare);
    OneMore(r, q, h, RunProducer(spare));
    ProducerGoes(q, h, spare);
    NearerMeans(q, h, Step(q, RunProducer(spare)), Record(q, h, RunProducer(spare)), spare);
  }

  lemma NearerMeans(q: Queue, h: History, q': Queue, h': History, spare: BlockId)
    requires CanFinish(q, spare) && ProducerCan(q, spare) && |h.infos| > 0 && NearerAfter(q, h, spare)
    requires q' == Step(q, RunProducer(spare)) && h' == Record(q, h, RunProducer(spare))
    ensures Nearer(q, h, q', h', spare) && ProducerLeft(q'.producer.pc) < ProducerLeft(q.producer.pc)
    ensures q'.producer.pc.Rest? || CanFinish(q', spare)
  {
    hide Step, Record, ProducerCan, CanFinish;
    if !q'.producer.pc.Rest? { StillCanFinish(q, h, q', h', spare); }
  }

  lemma PublishedInSteps(r: Run, next: Run, last: Run, spare: BlockId)
    requires OnItsWay(r, spare) && NearerRun(r, next, spare)
    requires if Resting(next) then last == next else OnItsWay(next, spare) && PublishedRun(next, last, spare)
    ensures PublishedRun(r, last, spare)
  {
    hide C.Enabled, Adds, Nearer, Published, Legal, Final, ProducerLeft;
    NearerThenPublished(Final(r).0, Final(r).1, Final(next).0, Final(next).1, Final(last).0, Final(last).1, spare);
  }

  lemma {:induction false} ProducerFinishes(r: Run, spare: BlockId) returns (n: nat)
    requires OnItsWay(r, spare)
    ensures n <= ItsLeft(r) && PublishedRun(r, Again(r, RunProducer(spare), n), spare)
    decreases ItsLeft(r)
  {
    var next := Again(r, RunProducer(spare), 1);
    ProducerStepsNearer(r, spare);
    hide OnItsWay, ItsLeft, PublishedRun, Again, Resting;
    n := 1;
    if !Resting(next) {
      var k := ProducerFinishes(next, spare);
      AgainMore(r, RunProducer(spare), 1, k);
      n := 1 + k;
    }
    PublishedInSteps(r, next, Again(r, RunProducer(spare), n), spare);
  }

  lemma EnqueueCalled(q: Queue, h: History, item: Item, spare: BlockId)
    requires q.producer.pc == Rest && |h.infos| > 0 && spare !in q.blocks && C.Enabled(q.counters, C.Publish)
    ensures var q' := Step(q, Enqueue(item));
            && CanFinish(q', spare) && q'.producer.pc.item == item && ProducerLeft(q'.producer.pc) <= 8
            && q'.counters == q.counters && q'.readers == q.readers
            && Record(q, h, Enqueue(item)) == h
            && var needed := Place(q.counters.tail) == 0 && !OldestIsEmpty(q);
            && KeysInTheEnd(q', spare) == q.blocks.Keys + (if needed then {spare} else {})
            && RingsInTheEnd(q')
            == |q.headers| + if needed && q.producer.slotsUsed == q.producer.size then 1 else 0
  {
    hide C.Enabled;
  }

  // Main result: a producer that goes on alone, with memory for a block and room among the indices,
  // has published its item after at most 8 accesses. A block is added only at a block boundary, and
  // only if the oldest block still has elements that are not finished; the ring is replaced only if a
  // block is added while it is full.
  lemma EnqueueAlone(r: Run, item: Item, spare: BlockId) returns (n: nat)
    requires Legal(r) && Final(r).0.producer.pc == Rest && spare !in Final(r).0.blocks
    requires C.Enabled(Final(r).0.counters, C.Publish)
    ensures n <= 8
    ensures var r' := Again(Then(r, Enqueue(item)), RunProducer(spare), n);
            && Legal(r')
            && var (q, h) := Final(r);
            && var (q', h') := Final(r');
            && q'.producer.pc == Rest && h'.log == h.log + [item]
            && q'.counters == q.counters.(tail := q.counters.tail + 1)
            && q'.readers == q.readers && h'.delivered == h.delivered
            && var needed := Place(q.counters.tail) == 0 && !OldestIsEmpty(q);
            && q'.blocks.Keys == q.blocks.Keys + (if needed then {spare} else {})
            && |q'.headers| == |q.headers| + if needed && q.producer.slotsUsed == q.producer.size then 1 else 0
  {
    var (q, h) := Final(r);
    var called := Then(r, Enqueue(item));
    IsWhereItIs(r);
    EnqueueLegal(r, q, h, item);
    hide Inv, Legal, Final, Step, Record, CanFinish, KeysInTheEnd, RingsInTheEnd, C.Enabled;
    EnqueueCalled(q, h, item, spare);
    n := ProducerFinishes(called, spare);
  }

  lemma EnqueueLegal(r: Run, q: Queue, h: History, item: Item)
    requires IsAt(r, q, h) && q.producer.pc == Rest
    ensures |h.infos| > 0 && Legal(Then(r, Enqueue(item)))
    ensures Final(Then(r, Enqueue(item))) == (Step(q, Enqueue(item)), Record(q, h, Enqueue(item)))
  {
    hide Inv, Step, Record;
    OneMore(r, q, h, Enqueue(item));
  }

  // ------------------------------------------------------------ a consumer alone

  function Span(from: nat, to: nat): nat { if from < to then to - from else 0 }

  // The accesses that a consumer still needs for its claim, at most: every block takes one for its
  // entry, one for each element and one for its counter.
  function ReaderLeft(r: Reader): nat {
    match r
    case Counting => 0
    case LoadIndex(first, end) => 3 + 3 * Span(first, end)
    case LoadFront(first, end, _) => 2 + 3 * Span(first, end)
    case LoadBase(first, end, _, _) => 1 + 3 * Span(first, end)
    case ReadBlock(first, end, _, _) => 3 * Span(first, end)
    case ReadItem(_, at, stop, end, _, _, _) => Span(at, stop) + 1 + 3 * Span(stop, end)
    case SetEmpty(_, stop, end, _, _, _) => 1 + 3 * Span(stop, end)
  }

  predicate InOrder(r: Reader) {
    && (!r.Counting? ==> r.first < r.end)
    && (r.ReadItem? ==> r.at < r.stop <= r.end)
    && (r.SetEmpty? ==> r.stop <= r.end)
  }

  lemma ReaderInOrder(q: Queue, h: History, t: Thread)
    requires Inv(q, h) && t in q.readers && !q.readers[t].Counting?
    ensures InOrder(q.readers[t]) && q.readers[t].end <= |h.log|
  {
    hide Inv, ProducerOk, ClaimsOk, DeliveredOk, StopOf, BlockOf;
    PartsHold(q, h);
    Claimed(q, h, t);
    if q.readers[t].ReadItem? || q.readers[t].SetEmpty? { StopIsIn(q, h, t); }
  }

  // Nothing but one reader has moved, and what has been given out.
  ghost predicate OnlyReads(q: Queue, h: History, q': Queue, h': History, t: Thread) {
    && t in q.readers && t in q'.readers && q'.readers == q.readers[t := q'.readers[t]]
    && q'.counters == q.counters && q'.producer == q.producer && h'.log == h.log
    && q'.blocks.Keys == q.blocks.Keys && h'.counting == h.counting
  }

  lemma ReaderGoes(q: Queue, h: History, t: Thread)
    requires ConsumerCan(q, t) && |h.infos| > 0 && !q.readers[t].Counting? && InOrder(q.readers[t])
    ensures var q', h' := Step(q, RunConsumer(t)), Record(q, h, RunConsumer(t));
            OnlyReads(q, h, q', h', t) && ReaderLeft(q'.readers[t]) < ReaderLeft(q.readers[t])
  {
    var r := q.readers[t];
    StopIsInBlock(r.first, r.end, r.first);
    hide BlockOf, Place, Base, StopOf, Interval;
  }

  ghost predicate Claiming(r: Run, t: Thread) {
    Legal(r) && t in Final(r).0.readers && !Final(r).0.readers[t].Counting?
  }

  ghost function ClaimLeft(r: Run, t: Thread): nat
    requires Legal(r) && t in Final(r).0.readers
  {
    ReaderLeft(Final(r).0.readers[t])
  }

  ghost predicate OnlyReadsRun(r: Run, r': Run, t: Thread) {
    Legal(r) && Legal(r') && OnlyReads(Final(r).0, Final(r).1, Final(r').0, Final(r').1, t)
  }

  ghost predicate ReadsOn(r: Run, r': Run, t: Thread) {
    OnlyReadsRun(r, r', t) && ClaimLeft(r', t) < ClaimLeft(r, t)
  }

  lemma ConsumerStepsNearer(r: Run, t: Thread)
    requires Claiming(r, t)
    ensures ReadsOn(r, Again(r, RunConsumer(t), 1), t)
    ensures Enqueued(Again(r, RunConsumer(t), 1)) == Enqueued(r)
  {
    hide Inv, Legal, Final, Again, ConsumerCan, Step, Record, OnlyReads, ReaderLeft, InOrder, Enqueued;
    var (q, h) := Final(r);
    IsWhereItIs(r);
    hide IsAt;
    ConsumerNeverStuck(r, t);
    Reachable(r);
    ReaderInOrder(q, h, t);
    OneMore(r, q, h, RunConsumer(t));
    ReaderGoes(q, h, t);
  }

  lemma OnlyReadsOn(r: Run, next: Run, last: Run, t: Thread)
    requires OnlyReadsRun(r, next, t) && OnlyReadsRun(next, last, t)
    ensures OnlyReadsRun(r, last, t)
  {
    hide Legal, Final;
  }

  lemma {:induction false} ClaimFinishes(r: Run, t: Thread) returns (n: nat)
    requires Claiming(r, t)
    ensures n <= ClaimLeft(r, t) && OnlyReadsRun(r, Again(r, RunConsumer(t), n), t)
    ensures !Claiming(Again(r, RunConsumer(t), n), t) && Enqueued(Again(r, RunConsumer(t), n)) == Enqueued(r)
    decreases ClaimLeft(r, t)
  {
    var next := Again(r, RunConsumer(t), 1);
    ConsumerStepsNearer(r, t);
    n := 1;
    hide OnlyReads, ReaderLeft, Again, Final, Legal, Enqueued;
    if Claiming(next, t) {
      var k := ClaimFinishes(next, t);
      AgainMore(r, RunConsumer(t), 1, k);
      n := 1 + k;
      OnlyReadsOn(r, next, Again(r, RunConsumer(t), n), t);
    }
  }

  // What was claimed by a reader that claims nothing now has been given out.
  lemma ClaimedIsGiven(q: Queue, h: History, q': Queue, h': History, t: Thread, x: nat)
    requires ClaimsOk(q, h) && ClaimsOk(q', h') && DeliveredOk(q', h')
    requires OnlyReads(q, h, q', h', t) && q'.readers[t].Counting? && Pending(q.readers[t], x)
    ensures x in h'.delivered && x < |h.log| && h'.delivered[x] == h.log[x]
  {
    assert ClaimOk(q, h, t);
    hide ClaimOk;
    assert !Pending(q'.readers[t], x);
    forall u | u in q'.readers
      ensures !Pending(q'.readers[u], x)
    {
      if u != t { assert q'.readers[u] == q.readers[u]; }
    }
  }

  // Main result: a consumer that has made a claim and goes on alone is through with it after a number
  // of accesses that its claim bounds, and every index of the claim has then been given out with the
  // item that was enqueued under it.
  lemma ClaimDelivered(r: Run, t: Thread) returns (n: nat)
    requires Legal(r) && t in Final(r).0.readers && !Final(r).0.readers[t].Counting?
    ensures var reader, r' := Final(r).0.readers[t], Again(r, RunConsumer(t), n);
            && n <= 3 + 3 * Span(reader.first, reader.end) && OnlyReadsRun(r, r', t)
            && Final(r').0.readers[t] == Counting
            && forall x: nat :: reader.first <= x < reader.end ==>
                 && x in Final(r').1.delivered && x < |Enqueued(r)|
                 && Final(r').1.delivered[x] == Enqueued(r)[x]
  {
    var (q, h) := Final(r);
    var reader := q.readers[t];
    hide Inv, Legal, Again, OnlyReads;
    n := ClaimFinishes(r, t);
    LeftOfClaim(r, t);
    var r' := Again(r, RunConsumer(t), n);
    CountingAtLast(r, r', t);
    forall x: nat | reader.first <= x < reader.end
      ensures x in Final(r').1.delivered && x < |Enqueued(r)| && Final(r').1.delivered[x] == Enqueued(r)[x]
    {
      GivenAtLast(r, r', t, x);
    }
  }

  lemma LeftOfClaim(r: Run, t: Thread)
    requires Claiming(r, t)
    ensures ClaimLeft(r, t) <= 3 + 3 * Span(Final(r).0.readers[t].first, Final(r).0.readers[t].end)
  {
    hide Inv, Legal, Final;
    Reachable(r);
    ReaderInOrder(Final(r).0, Final(r).1, t);
    OrderBoundsLeft(Final(r).0, Final(r).1, t);
  }

  lemma OrderBoundsLeft(q: Queue, h: History, t: Thread)
    requires Inv(q, h) && t in q.readers && !q.readers[t].Counting? && InOrder(q.readers[t])
    ensures ReaderLeft(q.readers[t]) <= 3 + 3 * Span(q.readers[t].first, q.readers[t].end)
  {
    hide Inv, ProducerOk, ClaimsOk, DeliveredOk, StopOf;
    PartsHold(q, h);
    if q.readers[t].ReadItem? || q.readers[t].SetEmpty? { StopIsIn(q, h, t); }
  }

  lemma CountingAtLast(r: Run, r': Run, t: Thread)
    requires OnlyReadsRun(r, r', t) && !Claiming(r', t)
    ensures t in Final(r').0.readers && Final(r').0.readers[t] == Counting
  {
    hide Legal, Final;
  }

  lemma GivenAtLast(r: Run, r': Run, t: Thread, x: nat)
    requires OnlyReadsRun(r, r', t) && t in Final(r').0.readers && Final(r').0.readers[t].Counting?
    requires t in Final(r).0.readers && Pending(Final(r).0.readers[t], x)
    ensures x in Final(r').1.delivered && x < |Enqueued(r)| && Final(r').1.delivered[x] == Enqueued(r)[x]
  {
    hide Inv, Legal, Final, ProducerOk, ClaimsOk, DeliveredOk, OnlyReads, Pending, Enqueued;
    Reachable(r);
    Reachable(r');
    PartsHold(Final(r).0, Final(r).1);
    PartsHold(Final(r').0, Final(r').1);
    ClaimedIsGiven(Final(r).0, Final(r).1, Final(r').0, Final(r').1, t, x);
    LogIsEnqueued(r);
  }

  // -------------------------------------------------- a whole call of one consumer

  // The run of the counting protocol that a run of the queue contains.
  ghost function CountingRun(r: Run): C.Run
    requires Legal(r)
  {
    match r
    case Start(q) => C.Start(q.counters)
    case Then(before, a) =>
      var q := Final(before).0;
      match a
      case Enqueue(_) => CountingRun(before)
      case RunProducer(_) =>
        if q.producer.pc.PublishTail? then C.Then(CountingRun(before), C.Publish) else CountingRun(before)
      case RunConsumer(t) =>
        if t in q.readers && q.readers[t].Counting? then C.Then(CountingRun(before), C.Action.Run(t))
        else CountingRun(before)
  }

  // What one step of the queue does to the counting protocol.
  lemma CountingStepIs(q: Queue, h: History, a: Action)
    requires Can(q, a) && |h.infos| > 0
    ensures var q', h' := Step(q, a), Record(q, h, a);
            match a
            case Enqueue(_) => q'.counters == q.counters && h'.counting == h.counting
            case RunProducer(_) =>
              if q.producer.pc.PublishTail? then
                && C.Enabled(q.counters, C.Publish) && q'.counters == C.Step(q.counters, C.Publish)
                && h'.counting == C.Record(q.counters, h.counting, C.Publish)
              else q'.counters == q.counters && h'.counting == h.counting
            case RunConsumer(t) =>
              && t in q.readers
              && if q.readers[t].Counting? then
                   && C.Enabled(q.counters, C.Action.Run(t)) && q'.counters == C.Step(q.counters, C.Action.Run(t))
                   && h'.counting == C.Record(q.counters, h.counting, C.Action.Run(t))
                 else q'.counters == q.counters && h'.counting == h.counting
  {
    hide C.Enabled, C.Step, C.Record, Doubled, Linked, StopOf, Interval;
    match a
    case Enqueue(_) =>
    case RunProducer(_) =>
    case RunConsumer(_) =>
  }

  // ... which is a legal run of that protocol: whatever holds of its runs holds in the queue.
  lemma {:induction false} CountingRunIs(r: Run)
    requires Legal(r)
    ensures C.Legal(CountingRun(r)) && C.Final(CountingRun(r)) == (Final(r).0.counters, Final(r).1.counting)
  {
    match r
    case Start(_) =>
    case Then(before, a) =>
      CountingRunIs(before);
      CountingStepIs(Final(before).0, Final(before).1, a);
      hide Step, Record, Can, C.Enabled, C.Step, C.Record;
  }

  // Only the counters, and what is claimed, have changed.
  ghost predicate OnlyCounts(r: Run, r': Run, t: Thread) {
    && Legal(r) && Legal(r')
    && var (q, h), (q', h') := Final(r), Final(r');
    && t in q.readers && t in q'.readers && q'.readers == q.readers[t := q'.readers[t]]
    && q'.producer == q.producer && q'.counters.tail == q.counters.tail
    && h'.log == h.log && h'.delivered == h.delivered && Enqueued(r') == Enqueued(r)
  }

  lemma CountsOne(q: Queue, h: History, t: Thread)
    requires ConsumerCan(q, t) && q.readers[t].Counting? && |h.infos| > 0
    ensures var q', h' := Step(q, RunConsumer(t)), Record(q, h, RunConsumer(t));
            && t in q'.readers && q'.readers == q.readers[t := q'.readers[t]]
            && q'.producer == q.producer && q'.counters == C.Step(q.counters, C.Action.Run(t))
            && q'.counters.tail == q.counters.tail && h'.log == h.log && h'.delivered == h.delivered
            && q'.readers[t] == if q.counters.pc[t].TakeHead? then LoadIndex(q.counters.head, q'.counters.head)
                                else Counting
  {
    hide C.Enabled, C.Record;
    if !q.counters.pc[t].TakeHead? { assert q.readers[t := Counting] == q.readers; }
  }

  // One access of a consumer that is still counting.
  lemma CountsOn(r: Run, t: Thread)
    requires Legal(r) && t in Final(r).0.readers && Final(r).0.readers[t].Counting?
    requires C.Legal(C.Then(CountingRun(r), C.Action.Run(t)))
    ensures var q, next := Final(r).0, Again(r, RunConsumer(t), 1);
            && OnlyCounts(r, next, t) && CountingRun(next) == C.Then(CountingRun(r), C.Action.Run(t))
            && t in q.counters.pc
            && Final(next).0.readers[t] == if q.counters.pc[t].TakeHead?
                                           then LoadIndex(q.counters.head, Final(next).0.counters.head)
                                           else Counting
  {
    var (q, h) := Final(r);
    IsWhereItIs(r);
    CountingRunIs(r);
    assert C.Enabled(q.counters, C.Action.Run(t));
    hide Inv, Step, Record, C.Enabled, C.Step, C.Record;
    assert Can(q, RunConsumer(t));
    OneMore(r, q, h, RunConsumer(t));
    CountsOne(q, h, t);
    assert Again(r, RunConsumer(t), 0) == r;
  }

  lemma OnlyCountsOn(r: Run, next: Run, last: Run, t: Thread)
    requires OnlyCounts(r, next, t) && OnlyCounts(next, last, t)
    ensures OnlyCounts(r, last, t)
  {
    hide Legal, Final, Enqueued;
  }

  ghost predicate StillCounting(r: Run, t: Thread) {
    && Legal(r) && t in Final(r).0.readers && Final(r).0.readers[t].Counting? && t in Final(r).0.counters.pc
  }

  ghost function PcOf(r: Run, t: Thread): C.Pc
    requires StillCounting(r, t)
  {
    Final(r).0.counters.pc[t]
  }

  // One access that claims nothing, and where it leads.
  lemma LooksOn(r: Run, t: Thread)
    requires StillCounting(r, t) && !PcOf(r, t).TakeHead?
    requires C.Legal(C.Then(CountingRun(r), C.Action.Run(t)))
    ensures var next := Again(r, RunConsumer(t), 1);
            && OnlyCounts(r, next, t) && CountingRun(next) == C.Then(CountingRun(r), C.Action.Run(t))
            && StillCounting(next, t)
            && (PcOf(r, t).Idle? ==> PcOf(next, t).LoadOvercommit?)
            && (PcOf(r, t).LoadOvercommit? ==> PcOf(next, t).LoadOptimistic?)
            && (PcOf(r, t).LoadOptimistic? ==> PcOf(next, t).Idle? || PcOf(next, t).Claim?)
            && (PcOf(r, t).Claim? ==> PcOf(next, t).ReloadTail?)
            && (PcOf(r, t).ReloadTail? ==>
                  PcOf(next, t).TakeHead? || PcOf(next, t).PostExcess? || PcOf(next, t).Refund?)
  {
    CountsOn(r, t);
    CountingRunIs(r);
    var next := Again(r, RunConsumer(t), 1);
    CountingRunIs(next);
    hide Inv, Legal, Final, Again, Enqueued, CountingRun, C.Desired, C.CircularLessThan, C.Record, C.Enabled, C.Legal;
  }

  lemma ThricePrefixes(c: C.Run, t: Thread)
    requires C.Legal(C.Thrice(c, t))
    ensures var step := C.Action.Run(t);
            C.Legal(C.Then(c, step)) && C.Legal(C.Then(C.Then(c, step), step))
            && C.Thrice(c, t) == C.Then(C.Then(C.Then(c, step), step), step)
  {
  }

  // The three accesses before a consumer announces what it wants.
  lemma LooksThrice(r: Run, t: Thread)
    requires StillCounting(r, t) && PcOf(r, t).Idle? && C.Legal(C.Thrice(CountingRun(r), t))
    ensures var r3 := Again(r, RunConsumer(t), 3);
            && OnlyCounts(r, r3, t) && CountingRun(r3) == C.Thrice(CountingRun(r), t) && StillCounting(r3, t)
            && (PcOf(r3, t).Idle? || PcOf(r3, t).Claim?)
  {
    ThricePrefixes(CountingRun(r), t);
    var r1, r2 := Again(r, RunConsumer(t), 1), Again(r, RunConsumer(t), 2);
    hide OnlyCounts, StillCounting, PcOf, Again, CountingRun, C.Legal, C.Thrice;
    LooksOn(r, t);
    LooksOn(r1, t);
    AgainMore(r, RunConsumer(t), 1, 1);
    OnlyCountsOn(r, r1, r2, t);
    LooksOn(r2, t);
    AgainMore(r, RunConsumer(t), 2, 1);
    OnlyCountsOn(r, r2, Again(r, RunConsumer(t), 3), t);
  }

  // The three accesses after that, if there is enough for it.
  lemma ClaimsThrice(r: Run, t: Thread)
    requires StillCounting(r, t) && PcOf(r, t).Claim? && C.Legal(C.Thrice(CountingRun(r), t))
    requires C.Final(C.Thrice(CountingRun(r), t)).0.head > Final(r).0.counters.head
    requires t in C.Final(C.Thrice(CountingRun(r), t)).0.pc && C.Final(C.Thrice(CountingRun(r), t)).0.pc[t] == C.Idle
    ensures var r3 := Again(r, RunConsumer(t), 3);
            && OnlyCounts(r, r3, t) && CountingRun(r3) == C.Thrice(CountingRun(r), t)
            && Final(r3).0.readers[t] == LoadIndex(Final(r).0.counters.head, Final(r3).0.counters.head)
  {
    var c := CountingRun(r);
    ThricePrefixes(c, t);
    var r1, r2 := Again(r, RunConsumer(t), 1), Again(r, RunConsumer(t), 2);
    CountingRunIs(r);
    hide OnlyCounts, Again, CountingRun, Final, Legal, C.Legal, C.Thrice, C.Final;
    LooksOn(r, t);
    LooksOn(r1, t);
    AgainMore(r, RunConsumer(t), 1, 1);
    OnlyCountsOn(r, r1, r2, t);
    CountingRunIs(r1);
    CountingRunIs(r2);
    MustTake(c, t);
    CountsOn(r2, t);
    AgainMore(r, RunConsumer(t), 2, 1);
    OnlyCountsOn(r, r2, Again(r, RunConsumer(t), 3), t);
  }

  // Three accesses that move the head and end the call end with the one on the head.
  lemma MustTake(c: C.Run, t: Thread)
    requires C.Legal(c) && C.Legal(C.Thrice(c, t)) && t in C.Final(c).0.pc && C.Final(c).0.pc[t].Claim?
    requires var c3 := C.Final(C.Thrice(c, t)).0;
             c3.head > C.Final(c).0.head && t in c3.pc && c3.pc[t] == C.Idle
    ensures var c2 := C.Then(C.Then(c, C.Action.Run(t)), C.Action.Run(t));
            && C.Legal(c2) && t in C.Final(c2).0.pc && C.Final(c2).0.pc[t].TakeHead?
            && C.Final(c2).0.head == C.Final(c).0.head
  {
    hide C.Desired, C.CircularLessThan, C.Record;
  }

  // No consumer is inside a call.
  ghost predicate Quiet(q: Queue) {
    && (forall u :: u in q.readers ==> q.readers[u] == Counting)
    && (forall u :: u in q.counters.pc ==> q.counters.pc[u] == C.Idle)
  }

  function There(c: C.Counters): nat { C.Min(C.Sub(c.tail, c.head), C.MAX_BULK) }

  ghost predicate ClaimedSome(r: Run, r': Run, t: Thread, there: nat)
    requires Legal(r)
  {
    var c := Final(r).0.counters;
    && OnlyCounts(r, r', t)
    && Final(r').0.counters == c.(head := c.head + there, optimistic := c.optimistic + there)
    && Final(r').0.readers[t] == if there == 0 then Counting else LoadIndex(c.head, c.head + there)
  }

  // Up to its claim: nothing is claimed if there is nothing, and else all there is up to the limit.
  lemma SoloClaims(r: Run, t: Thread) returns (n: nat)
    requires Legal(r) && t in Final(r).0.readers && Quiet(Final(r).0)
    requires Final(r).0.counters.optimistic + C.MAX_BULK < Words.TWO_63
    ensures var c := Final(r).0.counters;
            n == (if There(c) == 0 then 3 else 6) && ClaimedSome(r, Again(r, RunConsumer(t), n), t, There(c))
  {
    var c, cr := Final(r).0.counters, CountingRun(r);
    CountingRunIs(r);
    KeysAgree(r);
    C.SoloDequeue(cr, t);
    assert StillCounting(r, t) && PcOf(r, t).Idle?;
    hide Inv, Legal, Final, Again, CountingRun, C.Legal, C.Final, C.Thrice, Quiet, OnlyCounts, C.Min, C.Sub;
    n := 3;
    if There(c) == 0 {
      LooksThrice(r, t);
      CountingRunIs(Again(r, RunConsumer(t), 3));
    } else {
      n := 6;
      LegalPrefix(cr, t);
      assert Takes(cr, C.Thrice(C.Thrice(cr, t), t), There(c));
      ClaimsAfterLooking(r, t, There(c));
    }
  }

  lemma LegalPrefix(c: C.Run, t: Thread)
    requires C.Legal(C.Thrice(C.Thrice(c, t), t))
    ensures C.Legal(C.Thrice(c, t))
  {
    ThricePrefixes(C.Thrice(c, t), t);
    hide C.Thrice;
    assert C.Legal(C.Then(C.Thrice(c, t), C.Action.Run(t)));
  }

  lemma KeysAgree(r: Run)
    requires Legal(r)
    ensures Final(r).0.readers.Keys == Final(r).0.counters.pc.Keys
  {
    hide Inv, Legal, Final, ProducerOk, ClaimsOk, DeliveredOk;
    Reachable(r);
    PartsHold(Final(r).0, Final(r).1);
  }

  // A call that has just begun does not move the head with its first accesses.
  lemma LookingLeavesHead(c: C.Run, t: Thread)
    requires C.Legal(c) && t in C.Final(c).0.pc && C.Final(c).0.pc[t] == C.Idle && C.Legal(C.Thrice(c, t))
    ensures C.Final(C.Thrice(c, t)).0.head == C.Final(c).0.head
  {
    ThricePrefixes(c, t);
    hide C.Thrice, C.Desired, C.CircularLessThan, C.Record, C.Enabled;
    var c1 := C.Then(c, C.Action.Run(t));
    var c2 := C.Then(c1, C.Action.Run(t));
    assert C.Final(c1).0.head == C.Final(c).0.head && C.Final(c1).0.pc[t].LoadOvercommit?;
    assert C.Final(c2).0.head == C.Final(c).0.head && C.Final(c2).0.pc[t].LoadOptimistic?;
  }

  // With something to take, the first three accesses end with the decision to claim.
  lemma DecidesToClaim(r: Run, r3: Run, t: Thread)
    requires StillCounting(r, t) && PcOf(r, t).Idle? && StillCounting(r3, t)
    requires C.Legal(CountingRun(r)) && CountingRun(r3) == C.Thrice(CountingRun(r), t)
    requires C.Legal(C.Thrice(CountingRun(r3), t))
    requires C.Final(C.Thrice(CountingRun(r3), t)).0.head > Final(r).0.counters.head
    ensures !PcOf(r3, t).Idle? && Final(r3).0.counters.head == Final(r).0.counters.head
  {
    hide Inv, Final, Legal, CountingRun, C.Legal, C.Final, C.Thrice;
    CountingRunIs(r);
    CountingRunIs(r3);
    LookingLeavesHead(CountingRun(r), t);
    if PcOf(r3, t).Idle? { LookingLeavesHead(CountingRun(r3), t); }
  }

  // The counting protocol after a call that has taken some.
  ghost predicate Takes(c: C.Run, alone: C.Run, there: nat) {
    && C.Legal(c) && C.Legal(alone)
    && var before, after := C.Final(c).0, C.Final(alone).0;
    after == before.(head := before.head + there, optimistic := before.optimistic + there)
  }

  lemma CountersOf(r: Run, t: Thread)
    requires StillCounting(r, t)
    ensures Legal(r) && t in Final(r).0.counters.pc && PcOf(r, t) == Final(r).0.counters.pc[t]
    ensures C.Legal(CountingRun(r)) && C.Final(CountingRun(r)).0 == Final(r).0.counters
  {
    CountingRunIs(r);
  }

  lemma AreLegal(r: Run, r': Run, t: Thread)
    requires OnlyCounts(r, r', t)
    ensures Legal(r) && Legal(r')
  {
  }

  lemma ClaimsAtLast(r: Run, r3: Run, t: Thread, there: nat)
    requires StillCounting(r, t) && PcOf(r, t).Idle? && there > 0
    requires StillCounting(r3, t) && PcOf(r3, t).Claim? && OnlyCounts(r, r3, t)
    requires Takes(CountingRun(r), C.Thrice(CountingRun(r3), t), there)
    requires Final(r3).0.counters.head == Final(r).0.counters.head
    ensures ClaimedSome(r, Again(r3, RunConsumer(t), 3), t, there)
  {
    hide Inv, Again, CountingRun, Final, Legal, OnlyCounts, StillCounting, PcOf, C.Legal, C.Final, C.Thrice;
    var r6 := Again(r3, RunConsumer(t), 3);
    CountersOf(r, t);
    ClaimsThrice(r3, t);
    AreLegal(r3, r6, t);
    CountingRunIs(r6);
    OnlyCountsOn(r, r3, r6, t);
  }

  lemma ClaimsAfterLooking(r: Run, t: Thread, there: nat)
    requires StillCounting(r, t) && PcOf(r, t).Idle? && there > 0
    requires C.Legal(C.Thrice(CountingRun(r), t))
    requires Takes(CountingRun(r), C.Thrice(C.Thrice(CountingRun(r), t), t), there)
    ensures ClaimedSome(r, Again(r, RunConsumer(t), 6), t, there)
  {
    hide Inv, Again, CountingRun, Final, Legal, OnlyCounts, StillCounting, PcOf, ClaimedSome;
    hide C.Legal, C.Final, C.Thrice;
    var r3 := Again(r, RunConsumer(t), 3);
    CountersOf(r, t);
    LooksThrice(r, t);
    DecidesToClaim(r, r3, t);
    ClaimsAtLast(r, r3, t, there);
    AgainMore(r, RunConsumer(t), 3, 3);
  }

  // What a consumer alone has done: `there` more items are given out, from the head on.
  ghost predicate HasTaken(r: Run, r': Run, there: nat)
    requires Legal(r)
  {
    && Legal(r')
    && var q, (q', h') := Final(r).0, Final(r');
    && Quiet(q') && q'.producer == q.producer && q'.counters.tail == q.counters.tail
    && q'.counters.head == q.counters.head + there
    && (forall x: nat :: x in h'.delivered <==> x < q.counters.head + there)
    && (forall x :: x in h'.delivered ==> x < |Enqueued(r)| && h'.delivered[x] == Enqueued(r)[x])
  }

  lemma QuietAgain(r: Run, r': Run, r'': Run, t: Thread, there: nat)
    requires Legal(r) && Quiet(Final(r).0) && OnlyCounts(r, r', t) && OnlyReadsRun(r', r'', t)
    requires var c := Final(r).0.counters;
             Final(r').0.counters == c.(head := c.head + there, optimistic := c.optimistic + there)
    requires t in Final(r'').0.readers && Final(r'').0.readers[t] == Counting && Enqueued(r'') == Enqueued(r)
    ensures HasTaken(r, r'', there)
  {
    hide Inv, Legal, Final, Enqueued;
    FirstInFirstOut(r'');
  }

  lemma ReadsNothing(r: Run, t: Thread)
    requires Legal(r) && t in Final(r).0.readers
    ensures OnlyReadsRun(r, r, t)
  {
    assert Final(r).0.readers[t := Final(r).0.readers[t]] == Final(r).0.readers;
  }

  // Main result: with no other consumer in a call, a consumer that calls and goes on alone takes all
  // items that are published, up to 8192, in the order in which they were enqueued, and comes to an
  // end after a number of accesses that what it takes bounds.
  lemma SoloDequeue(r: Run, t: Thread) returns (n: nat)
    requires Legal(r) && t in Final(r).0.readers && Quiet(Final(r).0)
    requires Final(r).0.counters.optimistic + C.MAX_BULK < Words.TWO_63
    ensures var there := There(Final(r).0.counters);
            n <= 9 + 3 * there && HasTaken(r, Again(r, RunConsumer(t), n), there)
  {
    hide Inv, Legal, Final, Again, Quiet, There, HasTaken, OnlyCounts, OnlyReadsRun, ClaimedSome;
    var there := There(Final(r).0.counters);
    var k := SoloClaims(r, t);
    var claimed := Again(r, RunConsumer(t), k);
    var m := TakesClaimed(r, claimed, t, there);
    n := k + m;
    AgainMore(r, RunConsumer(t), k, m);
  }

  lemma TakesClaimed(r: Run, claimed: Run, t: Thread, there: nat) returns (m: nat)
    requires Legal(r) && Quiet(Final(r).0) && ClaimedSome(r, claimed, t, there)
    ensures m <= (if there == 0 then 0 else 3 + 3 * there) && HasTaken(r, Again(claimed, RunConsumer(t), m), there)
  {
    hide Inv, Legal, Final, Enqueued, Quiet, HasTaken, OnlyReads;
    AreLegal(r, claimed, t);
    if there == 0 {
      m := 0;
      ReadsNothing(claimed, t);
    } else {
      m := DeliversAll(claimed, t);
    }
    QuietAgain(r, claimed, Again(claimed, RunConsumer(t), m), t, there);
  }

  lemma DeliversAll(r: Run, t: Thread) returns (n: nat)
    requires Claiming(r, t)
    ensures var reader, r' := Final(r).0.readers[t], Again(r, RunConsumer(t), n);
            && n <= 3 + 3 * Span(reader.first, reader.end) && OnlyReadsRun(r, r', t)
            && t in Final(r').0.readers && Final(r').0.readers[t] == Counting && Enqueued(r') == Enqueued(r)
  {
    hide Inv, Legal, Final, Again, OnlyReads, Enqueued;
    n := ClaimFinishes(r, t);
    LeftOfClaim(r, t);
    CountingAtLast(r, Again(r, RunConsumer(t), n), t);
  }
}
