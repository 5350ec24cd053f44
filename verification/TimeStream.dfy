/**
 Tracy's event times on the wire: every time is sent as the difference from the last one on
 the same clock, and the receiver adds the differences up again.
 */
module TimeStream {
  // Times are 64-bit and wrap around; only sums and differences of them are taken.
  const WORD: int := 0x1_0000_0000_0000_0000
  type Time = t: int | 0 <= t < WORD witness 0

  function Plus(a: Time, b: Time): Time { if a + b < WORD then a + b else a + b - WORD }
  function Minus(a: Time, b: Time): Time { if a >= b then a - b else a - b + WORD }

  lemma PlusMinus(reference: Time, ahead: Time, t: Time)
    ensures Plus(reference, Minus(t, reference)) == t
    ensures Plus(Minus(reference, ahead), Minus(t, reference)) == Minus(t, ahead)
    ensures Minus(t, 0) == t
    ensures Minus(t, ahead) == t <==> ahead == 0
  {
  }

  datatype Clock = Thread | Serial | Context | Gpu | Untimed

  // The event types that matter here, by their number on the wire.
  const ZONE_BEGIN_ALLOC_SRC_LOC: nat := 7
  const ZONE_BEGIN_ALLOC_SRC_LOC_CALLSTACK: nat := 9
  const CALLSTACK_MEMORY: nat := 11
  const CALLSTACK: nat := 13
  const CALLSTACK_ALLOC: nat := 15
  const CALLSTACK_SAMPLE: nat := 17
  const FRAME_IMAGE: nat := 19
  const ZONE_BEGIN: nat := 21
  const ZONE_END: nat := 23
  const LOCK_WAIT: nat := 24
  const LOCK_SHARED_RELEASE: nat := 29
  const LOCK_NAME: nat := 30
  const MEM_ALLOC: nat := 31
  const MEM_FREE_CALLSTACK: nat := 34
  const GPU_ZONE_BEGIN: nat := 35
  const GPU_ZONE_END: nat := 37
  const GPU_ZONE_BEGIN_SERIAL: nat := 38
  const GPU_ZONE_END_SERIAL: nat := 40
  const PLOT_DATA: nat := 41
  const CONTEXT_SWITCH: nat := 42
  const THREAD_WAKEUP: nat := 43
  const GPU_TIME: nat := 44
  const TERMINATE: nat := 45
  const THREAD_CONTEXT: nat := 47

  // An event: its type, its time if its type has one, and the rest.
  datatype Event = Event(idx: nat, time: Time, rest: int)

  datatype Packet = Switch(thread: nat) | Data(event: Event)

  // ---------- The two senders ----------

  // What a thread's queue may hold, and which clock each type is timed by.
  predicate FromThread(idx: nat) {
    || idx <= 7 || idx in {9, 13, 15, 17, 19}
    || ZONE_BEGIN <= idx <= ZONE_END || idx == LOCK_NAME
    || GPU_ZONE_BEGIN <= idx <= GPU_ZONE_END
    || PLOT_DATA <= idx <= GPU_TIME
    || (idx >= TERMINATE && idx != THREAD_CONTEXT)
  }

  function ThreadClock(idx: nat): Clock {
    if idx == ZONE_BEGIN_ALLOC_SRC_LOC || idx == ZONE_BEGIN_ALLOC_SRC_LOC_CALLSTACK then Thread
    else if ZONE_BEGIN <= idx <= ZONE_END || GPU_ZONE_BEGIN <= idx <= GPU_ZONE_END || idx == PLOT_DATA then Thread
    else if idx == CALLSTACK_SAMPLE || idx == CONTEXT_SWITCH || idx == THREAD_WAKEUP then Context
    else if idx == GPU_TIME then Gpu
    else Untimed
  }

  // Types whose payload is sent ahead go out as the type after them.
  function ThreadWire(idx: nat): nat {
    if idx in {ZONE_BEGIN_ALLOC_SRC_LOC, ZONE_BEGIN_ALLOC_SRC_LOC_CALLSTACK, CALLSTACK, CALLSTACK_ALLOC,
               CALLSTACK_SAMPLE, FRAME_IMAGE}
    then idx + 1 else idx
  }

  predicate FromSerial(idx: nat) {
    || idx == CALLSTACK_MEMORY
    || LOCK_WAIT <= idx <= LOCK_SHARED_RELEASE
    || MEM_ALLOC <= idx <= MEM_FREE_CALLSTACK
    || GPU_ZONE_BEGIN_SERIAL <= idx <= GPU_ZONE_END_SERIAL
    || idx == GPU_TIME
    || (idx >= TERMINATE && idx != THREAD_CONTEXT)
  }

  function SerialClock(idx: nat): Clock {
    if LOCK_WAIT <= idx <= LOCK_SHARED_RELEASE || MEM_ALLOC <= idx <= MEM_FREE_CALLSTACK
       || GPU_ZONE_BEGIN_SERIAL <= idx <= GPU_ZONE_END_SERIAL then Serial
    else if idx == GPU_TIME then Gpu
    else Untimed
  }

  function SerialWire(idx: nat): nat { if idx == CALLSTACK_MEMORY then idx + 1 else idx }

  datatype Refs = Refs(thread: Time, serial: Time, context: Time, gpu: Time) {
    function Get(c: Clock): Time {
      match c
      case Thread => thread
      case Serial => serial
      case Context => context
      case Gpu => gpu
      case Untimed => 0
    }

    function Set(c: Clock, t: Time): Refs {
      match c
      case Thread => this.(thread := t)
      case Serial => this.(serial := t)
      case Context => this.(context := t)
      case Gpu => this.(gpu := t)
      case Untimed => this
    }
  }

  // ---------- The receiver ----------

  // The receiver only knows the type on the wire.
  function WireClock(idx: nat): Clock {
    if idx == 8 || idx == 10 || 21 <= idx <= 23 || 35 <= idx <= 37 || idx == 41 then Thread
    else if 24 <= idx <= 29 || 31 <= idx <= 34 || 38 <= idx <= 40 then Serial
    else if idx == 18 || idx == 42 || idx == 43 then Context
    else if idx == 44 then Gpu
    else Untimed
  }

  // Both senders use the clock that the receiver will use.
  lemma ClocksAgree(idx: nat)
    ensures FromThread(idx) ==> WireClock(ThreadWire(idx)) == ThreadClock(idx)
    ensures FromSerial(idx) ==> WireClock(SerialWire(idx)) == SerialClock(idx)
  {
  }

  // The types whose payload is sent ahead, from the first zone with its source location to the frame
  // image, each directly before its short form.
  predicate SentAhead(idx: nat) { ZONE_BEGIN_ALLOC_SRC_LOC <= idx <= FRAME_IMAGE && idx % 2 == 1 }

  // Those go out as their short form, which no queue ever holds; every other type goes out as itself.
  lemma WireTypes(idx: nat)
    ensures FromThread(idx) ==> ThreadWire(idx) == if SentAhead(idx) then idx + 1 else idx
    ensures FromSerial(idx) ==> SerialWire(idx) == if SentAhead(idx) then idx + 1 else idx
    ensures SentAhead(idx) ==> !FromThread(idx + 1) && !FromSerial(idx + 1)
  {
  }

  // So the receiver can tell from the type on the wire what was sent.
  lemma WireIsUnambiguous(i: nat, j: nat)
    requires FromThread(i) || FromSerial(i)
    requires FromThread(j) || FromSerial(j)
    ensures var wire := (idx: nat) => if FromThread(idx) then ThreadWire(idx) else SerialWire(idx);
            wire(i) == wire(j) <==> i == j
  {
    WireTypes(i);
    WireTypes(j);
    hide FromThread, FromSerial, ThreadWire, SerialWire;
  }

  // The sum that an event's time is added to, and is.
  function Decoded(refs: Refs, e: Event): Event {
    var c := WireClock(e.idx);
    if c == Untimed then e else e.(time := Plus(refs.Get(c), e.time))
  }

  function RefsAfter(refs: Refs, p: Packet): Refs {
    match p
    case Switch(_) => refs.(thread := 0)
    case Data(e) => refs.Set(WireClock(e.idx), Decoded(refs, e).time)
  }

  function Refs0(): Refs { Refs(0, 0, 0, 0) }

  // The receiver's sums after some packets.
  function Sums(ps: seq<Packet>): Refs {
    if ps == [] then Refs0() else RefsAfter(Sums(ps[..|ps| - 1]), ps[|ps| - 1])
  }

  // The events with the times that the receiver gives them.
  function Received(ps: seq<Packet>): seq<Event> {
    if ps == [] then []
    else
      var last := |ps| - 1;
      Received(ps[..last]) + (if ps[last].Switch? then [] else [Decoded(Sums(ps[..last]), ps[last].event)])
  }

  lemma ReceiveOne(ps: seq<Packet>, p: Packet)
    ensures Sums(ps + [p]) == RefsAfter(Sums(ps), p)
    ensures Received(ps + [p]) == Received(ps) + if p.Switch? then [] else [Decoded(Sums(ps), p.event)]
  {
    assert (ps + [p])[..|ps|] == ps;
  }

  // ---------- What the receiver should make of it ----------

  // The event as the receiver should see it: the type on the wire with the original time.
  function ThreadEvent(e: Event): Event { e.(idx := ThreadWire(e.idx)) }
  function SerialEvent(e: Event): Event { e.(idx := SerialWire(e.idx)) }

  // The same, when the thread clock of the sender is ahead of the receiver's by `ahead`.
  function Late(e: Event, ahead: Time): Event {
    if WireClock(e.idx) == Thread then e.(time := Minus(e.time, ahead)) else e
  }

  // The event that goes out for e, on a clock.
  function Encoded(refs: Refs, e: Event, wire: nat, c: Clock): Event {
    if c == Untimed then e.(idx := wire) else e.(idx := wire, time := Minus(e.time, refs.Get(c)))
  }

  // Sums of the receiver and references of the sender: equal but for the thread clock.
  predicate InStep(sums: Refs, refs: Refs, ahead: Time) {
    sums == refs.(thread := Minus(refs.thread, ahead))
  }

  // One event through sender and receiver.
  lemma Through(ps: seq<Packet>, refs: Refs, ahead: Time, e: Event, wire: nat, c: Clock)
    requires InStep(Sums(ps), refs, ahead) && WireClock(wire) == c
    ensures var p := Data(Encoded(refs, e, wire, c));
            && InStep(Sums(ps + [p]), refs.Set(c, e.time), ahead)
            && Received(ps + [p]) == Received(ps) + [Late(e.(idx := wire), ahead)]
  {
    ReceiveOne(ps, Data(Encoded(refs, e, wire, c)));
    PlusMinus(refs.Get(c), ahead, e.time);
    PlusMinus(refs.thread, ahead, e.time);
    hide WireClock, Plus, Minus, Sums, Received;
  }

  // ---------- A connection ----------

  // What one call takes from a queue: the events of one thread, or of the serial queue.
  datatype Batch = OfThread(thread: nat, events: seq<Event>) | OfSerial(events: seq<Event>)

  predicate ValidBatch(b: Batch) {
    forall i :: 0 <= i < |b.events| ==> if b.OfThread? then FromThread(b.events[i].idx) else FromSerial(b.events[i].idx)
  }

  function LastThread(bs: seq<Batch>): nat {
    if bs == [] then 0
    else if bs[|bs| - 1].OfThread? then bs[|bs| - 1].thread
    else LastThread(bs[..|bs| - 1])
  }

  // Some thread other than number 0 has had its turn, so its number has been announced.
  predicate Announced(bs: seq<Batch>) {
    exists i :: 0 <= i < |bs| && bs[i].OfThread? && bs[i].thread != 0
  }

  // The thread clock starts at whatever an earlier connection left, until a thread is announced.
  function Ahead(bs: seq<Batch>, stale: Time): Time { if Announced(bs) then 0 else stale }

  function LateAll(es: seq<Event>, thread: bool, ahead: Time): (r: seq<Event>)
    ensures |r| == |es|
  {
    if es == [] then []
    else
      var last := |es| - 1;
      LateAll(es[..last], thread, ahead)
      + [Late(if thread then ThreadEvent(es[last]) else SerialEvent(es[last]), ahead)]
  }

  // What the receiver decodes.
  function Expected(bs: seq<Batch>, stale: Time): seq<Event> {
    if bs == [] then []
    else
      var last := |bs| - 1;
      Expected(bs[..last], stale) + LateAll(bs[last].events, bs[last].OfThread?, Ahead(bs, stale))
  }

  // What it should decode: every event with its original time.
  function Original(bs: seq<Batch>): seq<Event> {
    Expected(bs, 0)
  }

  lemma OneMore(es: seq<Event>, e: Event, thread: bool, ahead: Time)
    ensures LateAll(es + [e], thread, ahead)
         == LateAll(es, thread, ahead) + [Late(if thread then ThreadEvent(e) else SerialEvent(e), ahead)]
  {
    assert (es + [e])[..|es|] == es;
  }

  lemma AnnouncedMore(bs: seq<Batch>, b: Batch)
    ensures Announced(bs + [b]) <==> Announced(bs) || (b.OfThread? && b.thread != 0)
  {
    if Announced(bs) {
      var i :| 0 <= i < |bs| && bs[i].OfThread? && bs[i].thread != 0;
      assert (bs + [b])[i] == bs[i];
    }
    assert (bs + [b])[|bs|] == b;
  }

  lemma {:induction false} LastThreadAnnounced(bs: seq<Batch>)
    requires LastThread(bs) != 0
    ensures Announced(bs)
  {
    var last := |bs| - 1;
    if bs[last].OfThread? {
      assert bs[last].thread != 0;
    } else {
      LastThreadAnnounced(bs[..last]);
      var i :| 0 <= i < last && bs[..last][i].OfThread? && bs[..last][i].thread != 0;
      assert bs[i].thread != 0;
    }
  }

  // Extending the last batch by one event.
  lemma ExtendBatch(bs: seq<Batch>, b: Batch, e: Event, stale: Time)
    ensures var b' := b.(events := b.events + [e]);
            && Ahead(bs + [b'], stale) == Ahead(bs + [b], stale)
            && LastThread(bs + [b']) == LastThread(bs + [b])
            && Expected(bs + [b'], stale)
               == Expected(bs + [b], stale)
                  + [Late(if b.OfThread? then ThreadEvent(e) else SerialEvent(e), Ahead(bs + [b], stale))]
  {
    var b' := b.(events := b.events + [e]);
    assert (bs + [b])[..|bs|] == bs == (bs + [b'])[..|bs|];
    AnnouncedMore(bs, b);
    AnnouncedMore(bs, b');
    OneMore(b.events, e, b.OfThread?, Ahead(bs + [b], stale));
  }

  // An empty batch changes nothing but the thread that had its turn.
  lemma EmptyBatch(bs: seq<Batch>, b: Batch, stale: Time)
    requires b.events == []
    ensures Expected(bs + [b], stale) == Expected(bs, stale)
    ensures LastThread(bs + [b]) == if b.OfThread? then b.thread else LastThread(bs)
    ensures Ahead(bs + [b], stale) == if b.OfThread? && b.thread != 0 then 0 else Ahead(bs, stale)
  {
    assert (bs + [b])[..|bs|] == bs;
    AnnouncedMore(bs, b);
  }

  // The sender's side of a connection so far, against the receiver's.
  ghost predicate Tracks(ps: seq<Packet>, refs: Refs, threadCtx: nat, bs: seq<Batch>, stale: Time) {
    && InStep(Sums(ps), refs, Ahead(bs, stale))
    && Received(ps) == Expected(bs, stale)
    && threadCtx == LastThread(bs)
  }

  lemma TracksSwitch(ps: seq<Packet>, refs: Refs, threadCtx: nat, bs: seq<Batch>, stale: Time, thread: nat)
    requires Tracks(ps, refs, threadCtx, bs, stale)
    ensures var b := OfThread(thread, []);
            if thread != threadCtx
            then Tracks(ps + [Switch(thread)], refs.(thread := 0), thread, bs + [b], stale)
            else Tracks(ps, refs, threadCtx, bs + [b], stale)
  {
    var b := OfThread(thread, []);
    EmptyBatch(bs, b, stale);
    ReceiveOne(ps, Switch(thread));
    if thread != 0 && thread == threadCtx { LastThreadAnnounced(bs); }
    if thread == 0 && thread != threadCtx { LastThreadAnnounced(bs); }
  }

  lemma TracksSerial(ps: seq<Packet>, refs: Refs, threadCtx: nat, bs: seq<Batch>, stale: Time)
    requires Tracks(ps, refs, threadCtx, bs, stale)
    ensures Tracks(ps, refs, threadCtx, bs + [OfSerial([])], stale)
  {
    EmptyBatch(bs, OfSerial([]), stale);
  }

  lemma TracksEvent(ps: seq<Packet>, refs: Refs, threadCtx: nat, bs: seq<Batch>, b: Batch, stale: Time, e: Event)
    requires Tracks(ps, refs, threadCtx, bs + [b], stale)
    requires if b.OfThread? then FromThread(e.idx) else FromSerial(e.idx)
    ensures var c := if b.OfThread? then ThreadClock(e.idx) else SerialClock(e.idx);
            var wire := if b.OfThread? then ThreadWire(e.idx) else SerialWire(e.idx);
            Tracks(ps + [Data(Encoded(refs, e, wire, c))], refs.Set(c, e.time), threadCtx,
                   bs + [b.(events := b.events + [e])], stale)
  {
    var c := if b.OfThread? then ThreadClock(e.idx) else SerialClock(e.idx);
    var wire := if b.OfThread? then ThreadWire(e.idx) else SerialWire(e.idx);
    ClocksAgree(e.idx);
    ExtendBatch(bs, b, e, stale);
    Through(ps, refs, Ahead(bs + [b], stale), e, wire, c);
    hide Received, Expected, Sums, Ahead, LastThread, Encoded, Late, ThreadClock, SerialClock, FromThread, FromSerial,
         WireClock;
  }

  // What each sender's switch makes of an event and of its references.
  method RewriteThread(item: Event, thread: Time, ghost serial: Time, context: Time, gpu: Time)
    returns (sent: Event, refThread: Time, refCtx: Time, refGpu: Time)
    ensures sent == Encoded(Refs(thread, serial, context, gpu), item, ThreadWire(item.idx), ThreadClock(item.idx))
    ensures Refs(refThread, serial, refCtx, refGpu)
         == Refs(thread, serial, context, gpu).Set(ThreadClock(item.idx), item.time)
  {
    refThread, refCtx, refGpu := thread, context, gpu;
    sent := item.(idx := ThreadWire(item.idx));
    match ThreadClock(item.idx) {
      case Thread =>
        sent := sent.(time := Minus(item.time, refThread));
        refThread := item.time;
      case Context =>
        sent := sent.(time := Minus(item.time, refCtx));
        refCtx := item.time;
      case Gpu =>
        sent := sent.(time := Minus(item.time, refGpu));
        refGpu := item.time;
      case _ =>
    }
  }

  method RewriteSerial(item: Event, ghost thread: Time, serial: Time, ghost context: Time, gpu: Time)
    returns (sent: Event, refSerial: Time, refGpu: Time)
    ensures sent == Encoded(Refs(thread, serial, context, gpu), item, SerialWire(item.idx), SerialClock(item.idx))
    ensures Refs(thread, refSerial, context, refGpu)
         == Refs(thread, serial, context, gpu).Set(SerialClock(item.idx), item.time)
  {
    refSerial, refGpu := serial, gpu;
    sent := item.(idx := SerialWire(item.idx));
    match SerialClock(item.idx) {
      case Serial =>
        sent := sent.(time := Minus(item.time, refSerial));
        refSerial := item.time;
      case Gpu =>
        sent := sent.(time := Minus(item.time, refGpu));
        refGpu := item.time;
      case _ =>
    }
  }

  predicate AllValid(bs: seq<Batch>) {
    forall b :: b in bs ==> ValidBatch(b)
  }

  lemma Taken(events: seq<Event>, i: nat)
    requires i < |events|
    ensures events[..i + 1] == events[..i] + [events[i]]
  {
  }

  lemma PartValid(whole: Batch, part: Batch, bs: seq<Batch>)
    requires ValidBatch(whole) && AllValid(bs) && part.events <= whole.events && part.OfThread? == whole.OfThread?
    ensures AllValid(bs + [part])
  {
    forall i | 0 <= i < |part.events|
      ensures part.events[i] == whole.events[i]
    {
    }
  }

  lemma AllOfThread(thread: nat, events: seq<Event>, i: nat)
    requires i < |events| && ValidBatch(OfThread(thread, events))
    ensures FromThread(events[i].idx)
  {
    assert OfThread(thread, events).events[i] == events[i];
  }

  class Sender {
    var threadCtx: nat
    var refTimeThread: Time
    var refTimeSerial: Time
    var refTimeCtx: Time
    var refTimeGpu: Time
    // The packets of this connection, what they were made from, and what the thread clock had
    // been left at by the connection before.
    ghost var packets: seq<Packet>
    ghost var batches: seq<Batch>
    ghost var stale: Time

    function References(): Refs
      reads this
    {
      Refs(refTimeThread, refTimeSerial, refTimeCtx, refTimeGpu)
    }

    ghost predicate Valid()
      reads this
    {
      Tracks(packets, References(), threadCtx, batches, stale) && AllValid(batches)
    }

    // The clocks hold anything before the first connection.
    constructor (left: Time)
      ensures refTimeThread == left
    {
      threadCtx, refTimeThread, refTimeSerial, refTimeCtx, refTimeGpu := 0, left, 0, 0, 0;
      packets, batches, stale := [], [], left;
    }

    // A new connection. The thread clock is not among the clocks that are set to zero.
    method Connect()
      modifies this
      ensures Valid() && packets == [] && batches == [] && stale == old(refTimeThread)
    {
      threadCtx := 0;
      refTimeSerial, refTimeCtx, refTimeGpu := 0, 0, 0;
      packets, batches, stale := [], [], refTimeThread;
    }

    // The connection may turn out to be lost with any packet.
    method Append(p: Packet) returns (ok: bool)
      modifies `packets
      ensures packets == old(packets) + [p]
    {
      packets := packets + [p];
      ok := *;
    }

    // One event of a thread's queue, with the references as the loop holds them.
    method SendOfThread(item: Event, thread: Time, context: Time, gpu: Time, ghost was: seq<Batch>, ghost b: Batch)
      returns (ok: bool, refThread: Time, refCtx: Time, refGpu: Time)
      requires batches == was + [b] && b.OfThread? && FromThread(item.idx)
      requires Tracks(packets, Refs(thread, refTimeSerial, context, gpu), threadCtx, batches, stale)
      modifies `packets, `batches
      ensures batches == was + [OfThread(b.thread, b.events + [item])]
      ensures Tracks(packets, Refs(refThread, refTimeSerial, refCtx, refGpu), threadCtx, batches, stale)
    {
      hide Tracks, ThreadClock, ThreadWire, FromThread, Encoded;
      TracksEvent(packets, Refs(thread, refTimeSerial, context, gpu), threadCtx, was, b, stale, item);
      var sent;
      sent, refThread, refCtx, refGpu := RewriteThread(item, thread, refTimeSerial, context, gpu);
      batches := was + [OfThread(b.thread, b.events + [item])];
      ok := Append(Data(sent));
    }

    method SendOfSerial(item: Event, serial: Time, gpu: Time, ghost was: seq<Batch>, ghost b: Batch)
      returns (ok: bool, refSerial: Time, refGpu: Time)
      requires batches == was + [b] && b.OfSerial? && FromSerial(item.idx)
      requires Tracks(packets, Refs(refTimeThread, serial, refTimeCtx, gpu), threadCtx, batches, stale)
      modifies `packets, `batches
      ensures batches == was + [OfSerial(b.events + [item])]
      ensures Tracks(packets, Refs(refTimeThread, refSerial, refTimeCtx, refGpu), threadCtx, batches, stale)
    {
      hide Tracks, SerialClock, SerialWire, FromSerial, Encoded;
      TracksEvent(packets, Refs(refTimeThread, serial, refTimeCtx, gpu), threadCtx, was, b, stale, item);
      var sent;
      sent, refSerial, refGpu := RewriteSerial(item, refTimeThread, serial, refTimeCtx, gpu);
      batches := was + [OfSerial(b.events + [item])];
      ok := Append(Data(sent));
    }

    // A thread has its turn: its number is announced if it is not the last one's.
    method Announce(thread: nat) returns (ok: bool)
      requires Valid()
      modifies this
      ensures Valid() && batches == old(batches) + [OfThread(thread, [])] && stale == old(stale)
    {
      ok := true;
      TracksSwitch(packets, References(), threadCtx, batches, stale, thread);
      hide Tracks;
      batches := batches + [OfThread(thread, [])];
      if thread != threadCtx {
        ok := Append(Switch(thread));
        threadCtx := thread;
        refTimeThread := 0;
      }
    }

    // Whatever part of the events is sent is sent as one batch.
    method Dequeue(thread: nat, events: seq<Event>) returns (ok: bool, ghost n: nat)
      requires Valid() && ValidBatch(OfThread(thread, events))
      modifies this
      ensures Valid() && n <= |events| && (ok ==> n == |events|)
      ensures batches == old(batches) + [OfThread(thread, events[..n])] && stale == old(stale)
    {
      n := 0;
      ghost var was := batches;
      ok := Announce(thread);
      if !ok { return; }
      var refThread, refCtx, refGpu := refTimeThread, refTimeCtx, refTimeGpu;
      hide Tracks, FromThread, ValidBatch, AllValid;
      var i := 0;
      while i < |events|
        invariant 0 <= i == n <= |events| && stale == old(stale)
        invariant batches == was + [OfThread(thread, events[..n])]
        invariant Tracks(packets, Refs(refThread, refTimeSerial, refCtx, refGpu), threadCtx, batches, stale)
      {
        Taken(events, i);
        AllOfThread(thread, events, i);
        ok, refThread, refCtx, refGpu :=
          SendOfThread(events[i], refThread, refCtx, refGpu, was, OfThread(thread, events[..n]));
        i, n := i + 1, n + 1;
        if !ok { break; }
      }
      refTimeThread, refTimeCtx, refTimeGpu := refThread, refCtx, refGpu;
      PartValid(OfThread(thread, events), OfThread(thread, events[..n]), was);
    }

    // If the connection is lost the clocks are left as they were, for nobody.
    method DequeueSerial(events: seq<Event>) returns (ok: bool)
      requires Valid() && ValidBatch(OfSerial(events))
      modifies this
      ensures ok ==> Valid() && batches == old(batches) + [OfSerial(events)] && stale == old(stale)
    {
      ok := true;
      ghost var was := batches;
      TracksSerial(packets, References(), threadCtx, batches, stale);
      hide Tracks, FromSerial;
      batches := batches + [OfSerial([])];
      var refSerial, refGpu := refTimeSerial, refTimeGpu;
      for i := 0 to |events|
        invariant stale == old(stale)
        invariant batches == was + [OfSerial(events[..i])]
        invariant Tracks(packets, Refs(refTimeThread, refSerial, refTimeCtx, refGpu), threadCtx, batches, stale)
      {
        Taken(events, i);
        ok, refSerial, refGpu := SendOfSerial(events[i], refSerial, refGpu, was, OfSerial(events[..i]));
        if !ok { return; }
      }
      refTimeSerial, refTimeGpu := refSerial, refGpu;
      assert events[..|events|] == events;
      PartValid(OfSerial(events), OfSerial(events), was);
    }
  }

  // ---------- When the receiver recovers the times ----------

  // A batch with no event timed by the thread clock.
  predicate NoThreadTimes(b: Batch) {
    b.OfThread? ==> forall i :: 0 <= i < |b.events| ==> ThreadClock(b.events[i].idx) != Thread
  }

  // Thread number 0 sends nothing timed by the thread clock before another thread is announced;
  // or the thread clock happens to have been left at zero.
  predicate Recoverable(bs: seq<Batch>, stale: Time) {
    stale == 0 || forall k :: 0 <= k < |bs| && !Announced(bs[..k + 1]) ==> NoThreadTimes(bs[k])
  }

  lemma {:induction false} LateAllIff(b: Batch, n: nat, ahead: Time)
    requires ValidBatch(b) && n <= |b.events|
    ensures LateAll(b.events[..n], b.OfThread?, ahead) == LateAll(b.events[..n], b.OfThread?, 0)
            <==> ahead == 0 || (b.OfThread? ==> forall i :: 0 <= i < n ==> ThreadClock(b.events[i].idx) != Thread)
  {
    if n > 0 {
      LateAllIff(b, n - 1, ahead);
      var e, front := b.events[n - 1], b.events[..n - 1];
      LateOneIff(b, n - 1, ahead);
      hide LateAll, Late, ThreadClock, ValidBatch;
      assert b.events[..n] == front + [e];
      OneMore(front, e, b.OfThread?, ahead);
      OneMore(front, e, b.OfThread?, 0);
      var sent := if b.OfThread? then ThreadEvent(e) else SerialEvent(e);
      SameEnds(LateAll(front, b.OfThread?, ahead), LateAll(front, b.OfThread?, 0), Late(sent, ahead), Late(sent, 0));
    }
  }

  lemma LateOneIff(b: Batch, i: nat, ahead: Time)
    requires ValidBatch(b) && i < |b.events|
    ensures var e := b.events[i];
            var sent := if b.OfThread? then ThreadEvent(e) else SerialEvent(e);
            Late(sent, ahead) == Late(sent, 0) <==> ahead == 0 || (b.OfThread? ==> ThreadClock(e.idx) != Thread)
  {
    var e := b.events[i];
    ClocksAgree(e.idx);
    LateIff(if b.OfThread? then ThreadEvent(e) else SerialEvent(e), ahead);
  }

  lemma LateIff(e: Event, ahead: Time)
    ensures Late(e, ahead) == Late(e, 0) <==> ahead == 0 || WireClock(e.idx) != Thread
  {
    PlusMinus(0, ahead, e.time);
  }

  lemma SameEnds<T>(a: seq<T>, b: seq<T>, x: T, y: T)
    ensures |a| == |b| ==> (a + [x] == b + [y] <==> a == b && x == y)
  {
    if a + [x] == b + [y] && |a| == |b| {
      assert a == (a + [x])[..|a|] && b == (b + [y])[..|b|];
      assert x == (a + [x])[|a|] && y == (b + [y])[|b|];
    }
  }

  lemma SameHalves<T>(a: seq<T>, b: seq<T>, c: seq<T>, d: seq<T>)
    requires |a| == |b|
    ensures a + c == b + d <==> a == b && c == d
  {
    if a + c == b + d {
      assert a == (a + c)[..|a|] && b == (b + d)[..|b|];
      assert c == (a + c)[|a|..] && d == (b + d)[|b|..];
    }
  }

  // Main result: the receiver recovers every time exactly when that is so.
  lemma {:induction false} RecoversIff(bs: seq<Batch>, stale: Time)
    requires AllValid(bs)
    ensures |Expected(bs, stale)| == |Original(bs)|
    ensures Expected(bs, stale) == Original(bs) <==> Recoverable(bs, stale)
  {
    if bs != [] {
      var last := |bs| - 1;
      RecoversIff(bs[..last], stale);
      var b, ahead := bs[last], Ahead(bs, stale);
      assert b in bs && b.events[..|b.events|] == b.events;
      LateAllIff(b, |b.events|, ahead);
      SameHalves(Expected(bs[..last], stale), Original(bs[..last]),
                 LateAll(b.events, b.OfThread?, ahead), LateAll(b.events, b.OfThread?, 0));
      RecoverableMore(bs, stale);
    }
  }

  lemma RecoverableMore(bs: seq<Batch>, stale: Time)
    requires bs != []
    ensures var last := |bs| - 1;
            Recoverable(bs, stale)
            <==> Recoverable(bs[..last], stale) && (Ahead(bs, stale) == 0 || NoThreadTimes(bs[last]))
  {
    hide Announced, NoThreadTimes;
    var last := |bs| - 1;
    assert bs[..last + 1] == bs;
    assert forall k :: 0 <= k < last ==> bs[..last][..k + 1] == bs[..k + 1] && bs[..last][k] == bs[k];
  }

  // Every thread's events come under its own number.
  predicate ThreadsNumbered(bs: seq<Batch>) {
    forall k :: 0 <= k < |bs| && bs[k].OfThread? ==> bs[k].thread != 0
  }

  // With threads numbered by the operating system, from 1 on, the missing reset does no harm:
  // whatever clock was left over, the first batch of a thread announces it and resets the clock.
  lemma NumberedThreadsRecover(packets: seq<Packet>, refs: Refs, threadCtx: nat, bs: seq<Batch>, stale: Time)
    requires AllValid(bs) && ThreadsNumbered(bs) && Tracks(packets, refs, threadCtx, bs, stale)
    ensures Received(packets) == Original(bs)
  {
    RecoversIff(bs, stale);
    forall k | 0 <= k < |bs| && !Announced(bs[..k + 1])
      ensures NoThreadTimes(bs[k])
    {
      assert bs[k] == bs[..k + 1][k];
    }
  }

  // A thread numbered 0 would lose its times, after a connection that left its clock at 5.
  lemma ThreadZeroNotRecovered()
    ensures var e := Event(ZONE_BEGIN, 7, 0);
            var packet := Data(Encoded(Refs(5, 0, 0, 0), e, ZONE_BEGIN, Thread));
            && Tracks([packet], Refs(7, 0, 0, 0), 0, [OfThread(0, [e])], 5)
            && Received([packet]) == [Event(ZONE_BEGIN, 2, 0)]
  {
    var e := Event(ZONE_BEGIN, 7, 0);
    var refs := Refs(5, 0, 0, 0);
    assert Tracks([], refs, 0, [], 5);
    TracksSwitch([], refs, 0, [], 5, 0);
    TracksEvent([], refs, 0, [], OfThread(0, []), 5, e);
    ReceiveOne([], Data(Encoded(refs, e, ZONE_BEGIN, Thread)));
  }
}
