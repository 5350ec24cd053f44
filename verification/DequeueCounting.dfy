/**
 How any number of consumers share one producer's elements: the optimistic count
 and the overcommit that corrects it. Each step is one atomic access of
 `dequeue_bulk`; the producer publishes by storing a larger tail.

 Counters are 64-bit; the differences and comparisons are the wrapped ones of the
 code, and a run is followed for as long as no counter reaches 2^63.

 `History` lists one ticket per `fetch_add` on the optimistic count, in that order.
 No step of the machine looks at it.
 */
module DequeueCounting {
  import opened Options
  import opened Words

  type Thread = nat

  const MAX_BULK: nat := 8192

  predicate CircularLessThan(a: nat, b: nat) { Wrap64(a - b) > TWO_63 }

  function Min(a: nat, b: nat): nat { if a < b then a else b }

  // Below 2^63 the circular comparison with zero is the sign of the difference.
  lemma CircularIsSigned(d: int)
    requires -TWO_63 <= d < TWO_63
    ensures CircularLessThan(0, Wrap64(d)) <==> d > 0
    ensures d > 0 ==> Wrap64(d) == d
  {
    if d < 0 {
      assert Wrap64(d) == d + TWO_64;
      assert Wrap64(-(d + TWO_64)) == -d;
    }
  }

  // The next atomic access of a consumer, with its local variables.
  datatype Pc =
    | Idle
    | LoadOvercommit(tail: nat)
    | LoadOptimistic(tail: nat, overcommit: nat)
    | Claim(overcommit: nat, desired: nat)
    | ReloadTail(overcommit: nat, desired: nat, mine: nat)
    | PostExcess(desired: nat, actual: nat)
    | TakeHead(actual: nat)
    | Refund(desired: nat)

  datatype Counters = Counters(tail: nat, head: nat, optimistic: nat, overcommit: nat, pc: map<Thread, Pc>)

  datatype Action = Publish | Run(thread: Thread)

  function Desired(tail: nat, optimistic: nat, overcommit: nat): nat {
    Wrap64(tail - Wrap64(optimistic - overcommit))
  }

  function RunStep(c: Counters, t: Thread): Counters
    requires t in c.pc
  {
    match c.pc[t]
    case Idle => c.(pc := c.pc[t := LoadOvercommit(c.tail)])
    case LoadOvercommit(tail) => c.(pc := c.pc[t := LoadOptimistic(tail, c.overcommit)])
    case LoadOptimistic(tail, overcommit) =>
      var desired := Desired(tail, c.optimistic, overcommit);
      c.(pc := c.pc[t := if CircularLessThan(0, desired) then Claim(overcommit, Min(desired, MAX_BULK)) else Idle])
    case Claim(overcommit, desired) =>
      c.(optimistic := c.optimistic + desired, pc := c.pc[t := ReloadTail(overcommit, desired, c.optimistic)])
    case ReloadTail(overcommit, desired, mine) =>
      var available := Desired(c.tail, mine, overcommit);
      c.(pc := c.pc[t := if CircularLessThan(0, available)
                         then if Min(desired, available) < desired
                              then PostExcess(desired, available)
                              else TakeHead(desired)
                         else Refund(desired)])
    case PostExcess(desired, actual) =>
      c.(overcommit := c.overcommit + Sub(desired, actual), pc := c.pc[t := TakeHead(actual)])
    case TakeHead(actual) => c.(head := c.head + actual, pc := c.pc[t := Idle])
    case Refund(desired) => c.(overcommit := c.overcommit + desired, pc := c.pc[t := Idle])
  }

  function Sub(a: nat, b: nat): nat { if a < b then 0 else a - b }

  function Step(c: Counters, a: Action): Counters
    requires a.Run? ==> a.thread in c.pc
  {
    match a
    case Publish => c.(tail := c.tail + 1)
    case Run(t) => RunStep(c, t)
  }

  predicate Enabled(c: Counters, a: Action) {
    && (a.Run? ==> a.thread in c.pc)
    && Step(c, a).tail < TWO_63 && Step(c, a).optimistic < TWO_63
  }

  predicate Init(c: Counters) {
    && c.tail == c.head == c.optimistic == c.overcommit == 0
    && forall t :: t in c.pc ==> c.pc[t] == Idle
  }

  // -------------------------------------------------------------- the history

  // One `fetch_add` on the optimistic count: how much it added, how much of that its
  // thread has given back, how much it has taken, and what it settled on taking.
  datatype Ticket = Ticket(owner: Thread, desired: nat, posted: nat, taken: nat, settled: Option<nat>)

  // The tickets, the ticket each thread holds, and the claims made on the head.
  datatype History = History(tickets: seq<Ticket>, held: map<Thread, nat>, claims: seq<(nat, nat)>)

  const NoHistory := History([], map[], [])

  predicate Ticketed(p: Pc) { p.ReloadTail? || p.PostExcess? || p.TakeHead? || p.Refund? }

  function Record(c: Counters, h: History, a: Action): History
    requires a.Run? ==> a.thread in c.pc
  {
    if a.Publish? then h else
    var t := a.thread;
    if c.pc[t].Claim? then
      h.(tickets := h.tickets + [Ticket(t, c.pc[t].desired, 0, 0, None)], held := h.held[t := |h.tickets|])
    else if !Ticketed(c.pc[t]) || t !in h.held || h.held[t] >= |h.tickets| then h else
    var i := h.held[t];
    var ticket := h.tickets[i];
    match c.pc[t]
    case ReloadTail(_, desired, _) =>
      var settled := match RunStep(c, t).pc[t]
                     case PostExcess(_, actual) => actual
                     case TakeHead(actual) => actual
                     case _ => 0;
      h.(tickets := h.tickets[i := ticket.(settled := Some(settled))])
    case PostExcess(desired, actual) => h.(tickets := h.tickets[i := ticket.(posted := Sub(desired, actual))])
    case TakeHead(actual) =>
      h.(tickets := h.tickets[i := ticket.(taken := actual)], claims := h.claims + [(c.head, actual)])
    case Refund(desired) => h.(tickets := h.tickets[i := ticket.(posted := desired)])
    case _ => h
  }

  datatype Field = DesiredOf | PostedOf | TakenOf

  function Get(f: Field, k: Ticket): nat {
    match f case DesiredOf => k.desired case PostedOf => k.posted case TakenOf => k.taken
  }

  // The sum of a field over the first n tickets.
  function Sum(f: Field, ks: seq<Ticket>, n: nat): nat
    requires n <= |ks|
  {
    if n == 0 then 0 else Sum(f, ks, n - 1) + Get(f, ks[n - 1])
  }

  lemma {:induction false} SumUpdate(f: Field, ks: seq<Ticket>, i: nat, k: Ticket, n: nat)
    requires i < |ks| && n <= |ks|
    ensures Sum(f, ks[i := k], n) == Sum(f, ks, n) + (if i < n then Get(f, k) - Get(f, ks[i]) else 0)
  {
    if n > 0 { SumUpdate(f, ks, i, k, n - 1); }
  }

  lemma {:induction false} SumAppend(f: Field, ks: seq<Ticket>, k: Ticket, n: nat)
    requires n <= |ks|
    ensures Sum(f, ks + [k], n) == Sum(f, ks, n)
  {
    if n > 0 { SumAppend(f, ks, k, n - 1); }
  }

  // ------------------------------------------------------------ the invariant

  predicate TicketOk(k: Ticket) {
    match k.settled
    case None => k.posted == k.taken == 0
    case Some(a) => a <= k.desired && k.taken in {0, a} && k.posted in {0, k.desired - a}
  }

  predicate Closed(k: Ticket) { k.posted + k.taken == k.desired }

  // What a ticket settled on fits below the tail, after everything its predecessors
  // have added and not given back.
  predicate Fits(c: Counters, ks: seq<Ticket>, i: nat)
    requires i < |ks|
  {
    ks[i].settled.Some? && ks[i].settled.value > 0 ==>
      Sum(DesiredOf, ks, i) + ks[i].settled.value <= c.tail + Sum(PostedOf, ks, i)
  }

  predicate ThreadOk(c: Counters, h: History, t: Thread)
    requires t in c.pc
  {
    var p := c.pc[t];
    && (Ticketed(p) ==> t in h.held && h.held[t] < |h.tickets| && h.tickets[h.held[t]].owner == t)
    && match p
       case Idle => true
       case LoadOvercommit(tail) => tail <= c.tail
       case LoadOptimistic(tail, over) => tail <= c.tail && over <= c.overcommit
       case Claim(over, desired) => over <= c.overcommit && desired > 0
       case ReloadTail(over, desired, mine) =>
         var i := h.held[t];
         && h.tickets[i] == Ticket(t, desired, 0, 0, None) && desired > 0
         && mine == Sum(DesiredOf, h.tickets, i) && over <= Sum(PostedOf, h.tickets, i)
       case PostExcess(desired, actual) =>
         0 < actual < desired && h.tickets[h.held[t]] == Ticket(t, desired, 0, 0, Some(actual))
       case TakeHead(actual) =>
         var k := h.tickets[h.held[t]];
         actual > 0 && k.taken == 0 && k.settled == Some(actual) && k.posted + actual == k.desired
       case Refund(desired) => h.tickets[h.held[t]] == Ticket(t, desired, 0, 0, Some(0))
  }

  // The claims follow each other from 0 to n without gap or overlap.
  predicate Consecutive(claims: seq<(nat, nat)>, n: nat) {
    if claims == [] then n == 0 else
    var (first, count) := claims[|claims| - 1];
    count > 0 && first + count == n && Consecutive(claims[..|claims| - 1], first)
  }

  ghost predicate Inv(c: Counters, h: History) {
    && c.tail < TWO_63 && c.optimistic < TWO_63
    && c.optimistic == Sum(DesiredOf, h.tickets, |h.tickets|)
    && c.overcommit == Sum(PostedOf, h.tickets, |h.tickets|)
    && c.head == Sum(TakenOf, h.tickets, |h.tickets|)
    && (forall t :: t in c.pc ==> ThreadOk(c, h, t))
    && (forall i :: 0 <= i < |h.tickets| ==> TicketOk(h.tickets[i]) && Fits(c, h.tickets, i))
    && (forall i :: 0 <= i < |h.tickets| && !Closed(h.tickets[i]) ==> Holder(c, h, i))
    && Consecutive(h.claims, c.head)
  }

  // An unfinished ticket is in the hands of its owner.
  predicate Holder(c: Counters, h: History, i: nat)
    requires i < |h.tickets|
  {
    var t := h.tickets[i].owner;
    t in c.pc && Ticketed(c.pc[t]) && t in h.held && h.held[t] == i
  }

  lemma InitInv(c: Counters)
    requires Init(c)
    ensures Inv(c, NoHistory)
  {
  }

  // -------------------------------------------------- what the sums amount to

  lemma {:induction false} TakenWithinNet(ks: seq<Ticket>, n: nat)
    requires n <= |ks| && forall i :: 0 <= i < |ks| ==> TicketOk(ks[i])
    ensures Sum(TakenOf, ks, n) + Sum(PostedOf, ks, n) <= Sum(DesiredOf, ks, n)
  {
    if n > 0 {
      TakenWithinNet(ks, n - 1);
      assert TicketOk(ks[n - 1]);
    }
  }

  // Everything taken lies below the tail: look at the last ticket that took something.
  lemma {:induction false} TakenBelowTail(c: Counters, ks: seq<Ticket>, n: nat)
    requires n <= |ks| && forall i :: 0 <= i < |ks| ==> TicketOk(ks[i]) && Fits(c, ks, i)
    ensures Sum(TakenOf, ks, n) <= c.tail
  {
    if n > 0 {
      TakenBelowTail(c, ks, n - 1);
      TakenWithinNet(ks, n - 1);
      assert TicketOk(ks[n - 1]) && Fits(c, ks, n - 1);
    }
  }

  lemma {:induction false} SumMonotone(f: Field, ks: seq<Ticket>, m: nat, n: nat)
    requires m <= n <= |ks|
    ensures Sum(f, ks, m) <= Sum(f, ks, n)
  {
    if m < n { SumMonotone(f, ks, m, n - 1); }
  }

  // ------------------------------------------------------- every step keeps it

  ghost predicate Kept(c: Counters, h: History, a: Action)
    requires Enabled(c, a)
  {
    Inv(Step(c, a), Record(c, h, a))
  }

  // Threads and tickets are unaffected by growing counters.
  lemma OtherThread(c: Counters, h: History, c': Counters, h': History, u: Thread)
    requires u in c.pc && u in c'.pc && c'.pc[u] == c.pc[u] && ThreadOk(c, h, u)
    requires c.tail <= c'.tail && c.overcommit <= c'.overcommit
    requires u in h.held ==> u in h'.held && h'.held[u] == h.held[u]
    requires |h.tickets| <= |h'.tickets|
    requires Ticketed(c.pc[u]) ==> h'.tickets[h.held[u]] == h.tickets[h.held[u]]
    requires Ticketed(c.pc[u]) ==>
               && Sum(DesiredOf, h'.tickets, h.held[u]) == Sum(DesiredOf, h.tickets, h.held[u])
               && Sum(PostedOf, h'.tickets, h.held[u]) >= Sum(PostedOf, h.tickets, h.held[u])
    ensures ThreadOk(c', h', u)
  {
  }

  lemma KeepsPublish(c: Counters, h: History, a: Action)
    requires Inv(c, h) && Enabled(c, a) && a.Publish?
    ensures Kept(c, h, a)
  {
    var c' := Step(c, a);
    forall u | u in c'.pc ensures ThreadOk(c', h, u) { OtherThread(c, h, c', h, u); }
    forall i | 0 <= i < |h.tickets| ensures Fits(c', h.tickets, i) { assert Fits(c, h.tickets, i); }
    forall i | 0 <= i < |h.tickets| && !Closed(h.tickets[i]) ensures Holder(c', h, i) { assert Holder(c, h, i); }
  }

  // Steps that write no counter and settle no ticket.
  lemma KeepsLoads(c: Counters, h: History, a: Action)
    requires Inv(c, h) && Enabled(c, a) && a.Run?
    requires c.pc[a.thread].Idle? || c.pc[a.thread].LoadOvercommit? || c.pc[a.thread].LoadOptimistic?
    ensures Kept(c, h, a)
  {
    var c', t := Step(c, a), a.thread;
    assert ThreadOk(c, h, t);
    LoadedOk(c, h, t);
    forall u | u in c'.pc && u != t ensures ThreadOk(c', h, u) { OtherThread(c, h, c', h, u); }
    forall i | 0 <= i < |h.tickets| ensures Fits(c', h.tickets, i) { assert Fits(c, h.tickets, i); }
    forall i | 0 <= i < |h.tickets| && !Closed(h.tickets[i]) ensures Holder(c', h, i) { assert Holder(c, h, i); }
  }

  lemma LoadedOk(c: Counters, h: History, t: Thread)
    requires Inv(c, h) && t in c.pc && ThreadOk(c, h, t)
    requires c.pc[t].Idle? || c.pc[t].LoadOvercommit? || c.pc[t].LoadOptimistic?
    ensures ThreadOk(RunStep(c, t), h, t) && !Ticketed(RunStep(c, t).pc[t])
  {
    if c.pc[t].LoadOptimistic? {
      TakenWithinNet(h.tickets, |h.tickets|);
      Difference(c.pc[t].tail, c.optimistic, c.pc[t].overcommit);
    }
  }

  // The wrapped difference of the code has the sign of the true one.
  lemma Difference(tail: nat, optimistic: nat, overcommit: nat)
    requires tail < TWO_63 && overcommit <= optimistic < TWO_63
    ensures CircularLessThan(0, Desired(tail, optimistic, overcommit)) <==> tail > optimistic - overcommit
    ensures tail > optimistic - overcommit ==> Desired(tail, optimistic, overcommit) == tail - (optimistic - overcommit)
  {
    assert Wrap64(optimistic - overcommit) == optimistic - overcommit;
    CircularIsSigned(tail - (optimistic - overcommit));
  }

  lemma SumsAppend(ks: seq<Ticket>, k: Ticket)
    ensures forall f, n: nat :: n <= |ks| ==> Sum(f, ks + [k], n) == Sum(f, ks, n)
    ensures forall f :: Sum(f, ks + [k], |ks| + 1) == Sum(f, ks, |ks|) + Get(f, k)
  {
    forall f, n: nat | n <= |ks| ensures Sum(f, ks + [k], n) == Sum(f, ks, n) { SumAppend(f, ks, k, n); }
  }

  lemma ClaimedThreads(c: Counters, h: History, a: Action)
    requires Inv(c, h) && Enabled(c, a) && a.Run? && c.pc[a.thread].Claim?
    ensures forall u :: u in c.pc ==> ThreadOk(Step(c, a), Record(c, h, a), u)
    ensures c.pc[a.thread].overcommit <= c.optimistic && c.pc[a.thread].desired > 0
  {
    var c', h', t := Step(c, a), Record(c, h, a), a.thread;
    SumsAppend(h.tickets, Ticket(t, c.pc[t].desired, 0, 0, None));
    assert ThreadOk(c, h, t);
    TakenWithinNet(h.tickets, |h.tickets|);
    hide Sum, TicketOk, Fits, Holder;
    forall u | u in c'.pc && u != t ensures ThreadOk(c', h', u) { OtherThread(c, h, c', h', u); }
  }

  lemma KeepsClaim(c: Counters, h: History, a: Action)
    requires Inv(c, h) && Enabled(c, a) && a.Run? && c.pc[a.thread].Claim?
    ensures Kept(c, h, a)
    ensures c.pc[a.thread].overcommit <= c.optimistic
  {
    ClaimedThreads(c, h, a);
    var c', h', t, ks := Step(c, a), Record(c, h, a), a.thread, h.tickets;
    SumsAppend(ks, Ticket(t, c.pc[t].desired, 0, 0, None));
    hide Sum, ThreadOk;
    forall i | 0 <= i < |ks| + 1
      ensures TicketOk(h'.tickets[i]) && Fits(c', h'.tickets, i) && (!Closed(h'.tickets[i]) ==> Holder(c', h', i))
    {
      if i < |ks| { assert Fits(c, ks, i) && (!Closed(ks[i]) ==> Holder(c, h, i)); }
    }
  }

  // A ticketed thread writes to its own ticket: what it must establish.
  lemma FromTicket(c: Counters, h: History, c': Counters, h': History, t: Thread, k: Ticket)
    requires Inv(c, h) && t in c.pc && Ticketed(c.pc[t]) && t in h.held && h.held[t] < |h.tickets|
    requires t in c'.pc
    requires var i := h.held[t]; var was := h.tickets[i];
             && was.owner == t
             && h'.tickets == h.tickets[i := k] && h'.held == h.held && TicketOk(k)
             && k.owner == t && k.desired == was.desired && k.posted >= was.posted
             && c'.overcommit == c.overcommit + (k.posted - was.posted)
             && c'.head == c.head + k.taken - was.taken
             && (k.settled != was.settled && k.settled.Some? && k.settled.value > 0 ==>
                   Sum(DesiredOf, h.tickets, i) + k.settled.value <= c.tail + Sum(PostedOf, h.tickets, i))
             && (!Closed(k) ==> Ticketed(c'.pc[t]))
    requires c'.tail == c.tail && c'.optimistic == c.optimistic && t in c'.pc && c'.pc == c.pc[t := c'.pc[t]]
    requires ThreadOk(c', h', t) && Consecutive(h'.claims, c'.head)
    ensures Inv(c', h')
  {
    var i, ks := h.held[t], h.tickets;
    forall f, n: nat | n <= |ks|
      ensures Sum(f, ks[i := k], n) == Sum(f, ks, n) + (if i < n then Get(f, k) - Get(f, ks[i]) else 0)
    {
      SumUpdate(f, ks, i, k, n);
    }
    forall u | u in c'.pc && u != t
      ensures ThreadOk(c', h', u)
    {
      assert ThreadOk(c, h, u);
      OtherThread(c, h, c', h', u);
    }
    hide ThreadOk;
    forall j | 0 <= j < |ks|
      ensures TicketOk(h'.tickets[j]) && Fits(c', h'.tickets, j) && (!Closed(h'.tickets[j]) ==> Holder(c', h', j))
    {
      assert TicketOk(ks[j]) && Fits(c, ks, j) && (!Closed(ks[j]) ==> Holder(c, h, j));
    }
  }

  lemma KeepsReloadTail(c: Counters, h: History, a: Action)
    requires Inv(c, h) && Enabled(c, a) && a.Run? && c.pc[a.thread].ReloadTail?
    ensures Kept(c, h, a)
  {
    var c', h', t := Step(c, a), Record(c, h, a), a.thread;
    assert ThreadOk(c, h, t);
    Settles(c, h, t);
    hide Inv, ThreadOk, Desired, CircularLessThan;
    FromTicket(c, h, c', h', t, h'.tickets[h.held[t]]);
  }

  // What a ticket settles on after reloading the tail: all it asked for, or what is
  // left below the tail once its predecessors' net contributions are counted.
  lemma Settles(c: Counters, h: History, t: Thread)
    requires Inv(c, h) && Enabled(c, Run(t)) && c.pc[t].ReloadTail?
    ensures var p, i := c.pc[t], h.held[t];
            var available := c.tail - (p.mine - p.overcommit);
            var settled := if available <= 0 then 0 else Min(p.desired, available);
            && p.overcommit <= p.mine
            && RunStep(c, t).pc[t] == (if settled == 0 then Refund(p.desired)
                                       else if settled < p.desired then PostExcess(p.desired, settled)
                                       else TakeHead(settled))
            && Record(c, h, Run(t)).tickets[i] == Ticket(t, p.desired, 0, 0, Some(settled))
            && (settled > 0 ==> Sum(DesiredOf, h.tickets, i) + settled <= c.tail + Sum(PostedOf, h.tickets, i))
            && ThreadOk(RunStep(c, t), Record(c, h, Run(t)), t)
  {
    assert ThreadOk(c, h, t);
    var p, i := c.pc[t], h.held[t];
    SumMonotone(DesiredOf, h.tickets, i, |h.tickets|);
    TakenWithinNet(h.tickets, i);
    hide Inv;
    Difference(c.tail, p.mine, p.overcommit);
    hide Desired, CircularLessThan, Sum;
  }

  lemma KeepsPosts(c: Counters, h: History, a: Action)
    requires Inv(c, h) && Enabled(c, a) && a.Run? && (c.pc[a.thread].PostExcess? || c.pc[a.thread].Refund?)
    ensures Kept(c, h, a)
  {
    var c', h', t := Step(c, a), Record(c, h, a), a.thread;
    assert ThreadOk(c, h, t);
    assert ThreadOk(c', h', t);
    hide Inv, ThreadOk;
    FromTicket(c, h, c', h', t, h'.tickets[h.held[t]]);
  }

  lemma KeepsTakeHead(c: Counters, h: History, a: Action)
    requires Inv(c, h) && Enabled(c, a) && a.Run? && c.pc[a.thread].TakeHead?
    ensures Kept(c, h, a)
  {
    var c', h', t := Step(c, a), Record(c, h, a), a.thread;
    assert ThreadOk(c, h, t) && ThreadOk(c', h', t);
    assert h'.claims[..|h.claims|] == h.claims;
    hide Inv, ThreadOk;
    FromTicket(c, h, c', h', t, h'.tickets[h.held[t]]);
  }

  lemma StepKeeps(c: Counters, h: History, a: Action)
    requires Inv(c, h) && Enabled(c, a)
    ensures Inv(Step(c, a), Record(c, h, a))
  {
    hide Inv, Step, Record;
    assert Kept(c, h, a) by {
      match a
      case Publish => KeepsPublish(c, h, a);
      case Run(t) =>
        match c.pc[t]
        case Claim(_, _) => KeepsClaim(c, h, a);
        case ReloadTail(_, _, _) => KeepsReloadTail(c, h, a);
        case PostExcess(_, _) => KeepsPosts(c, h, a);
        case Refund(_) => KeepsPosts(c, h, a);
        case TakeHead(_) => KeepsTakeHead(c, h, a);
        case _ => KeepsLoads(c, h, a);
    }
  }

  // --------------------------------------------------------------- whole runs

  datatype Run = Start(c: Counters) | Then(before: Run, action: Action)

  ghost predicate Legal(r: Run)
    decreases r, 0
  {
    match r
    case Start(c) => Init(c)
    case Then(before, a) => Legal(before) && Enabled(Final(before).0, a)
  }

  ghost function Final(r: Run): (Counters, History)
    requires Legal(r)
    decreases r, 1
  {
    match r
    case Start(c) => (c, NoHistory)
    case Then(before, a) =>
      var (c, h) := Final(before);
      (Step(c, a), Record(c, h, a))
  }

  lemma {:induction false} Reachable(r: Run)
    requires Legal(r)
    ensures Inv(Final(r).0, Final(r).1)
  {
    hide Inv, Step, Record, Enabled;
    match r
    case Start(c) => InitInv(c);
    case Then(before, a) =>
      Reachable(before);
      StepKeeps(Final(before).0, Final(before).1, a);
  }

  // How many claims contain an index.
  function Times(claims: seq<(nat, nat)>, x: nat): nat {
    if claims == [] then 0 else
    var (first, count) := claims[|claims| - 1];
    Times(claims[..|claims| - 1], x) + (if first <= x < first + count then 1 else 0)
  }

  lemma {:induction false} ConsecutiveCovers(claims: seq<(nat, nat)>, n: nat, x: nat)
    requires Consecutive(claims, n)
    ensures Times(claims, x) == if x < n then 1 else 0
  {
    if claims != [] {
      ConsecutiveCovers(claims[..|claims| - 1], claims[|claims| - 1].0, x);
    }
  }

  lemma HeadBelowTail(c: Counters, h: History)
    requires Inv(c, h)
    ensures c.head <= c.tail
  {
    hide ThreadOk;
    TakenBelowTail(c, h.tickets, |h.tickets|);
  }

  // The head never passes the tail, and every index below the head was claimed by
  // exactly one `fetch_add` on the head, in every interleaving.
  lemma HeadNeverPassesTail(r: Run)
    requires Legal(r)
    ensures Final(r).0.head <= Final(r).0.tail
    ensures forall x: nat :: Times(Final(r).1.claims, x) == if x < Final(r).0.head then 1 else 0
  {
    hide ThreadOk;
    Reachable(r);
    var (c, h) := Final(r);
    HeadBelowTail(c, h);
    forall x: nat ensures Times(h.claims, x) == if x < c.head then 1 else 0 {
      ConsecutiveCovers(h.claims, c.head, x);
    }
  }

  // A consumer about to take elements takes at least one, and only published ones.
  lemma ClaimIsPublished(r: Run, t: Thread)
    requires Legal(r) && t in Final(r).0.pc && Final(r).0.pc[t].TakeHead?
    ensures 0 < Final(r).0.pc[t].actual && Final(r).0.head + Final(r).0.pc[t].actual <= Final(r).0.tail
  {
    Reachable(r);
    assert ThreadOk(Final(r).0, Final(r).1, t);
    HeadNeverPassesTail(Then(r, Action.Run(t)));
  }

  // The assertion after the `fetch_add` on the optimistic count.
  lemma OvercommitAssertHolds(r: Run, t: Thread)
    requires Legal(r) && t in Final(r).0.pc && Final(r).0.pc[t].ReloadTail?
    ensures Final(r).0.pc[t].overcommit <= Final(r).0.pc[t].mine
  {
    Reachable(r);
    var (c, h) := Final(r);
    assert ThreadOk(c, h, t);
    TakenWithinNet(h.tickets, h.held[t]);
  }

  // What the tickets still owe: counted but neither given back nor taken.
  function Owed(ks: seq<Ticket>): int {
    if ks == [] then 0
    else var k := ks[|ks| - 1]; Owed(ks[..|ks| - 1]) + k.desired - k.posted - k.taken
  }

  lemma {:induction false} OwedIsNet(ks: seq<Ticket>, n: nat)
    requires n <= |ks|
    ensures Owed(ks[..n]) == Sum(DesiredOf, ks, n) - Sum(PostedOf, ks, n) - Sum(TakenOf, ks, n)
  {
    if n > 0 {
      assert ks[..n][..n - 1] == ks[..n - 1];
      OwedIsNet(ks, n - 1);
    }
  }

  lemma {:induction false} ClosedOweNothing(ks: seq<Ticket>)
    requires forall k :: k in ks ==> Closed(k)
    ensures Owed(ks) == 0
  {
    if ks != [] {
      assert ks[|ks| - 1] in ks;
      ClosedOweNothing(ks[..|ks| - 1]);
    }
  }

  // Nothing is counted twice or forgotten: the effective count is the head plus what
  // consumers in flight owe, and no finished consumer owes anything.
  lemma Conservation(r: Run)
    requires Legal(r)
    ensures var (c, h) := Final(r);
            && c.optimistic - c.overcommit == c.head + Owed(h.tickets)
            && (forall k :: k in h.tickets ==> k.posted + k.taken <= k.desired)
            && (forall k :: k in h.tickets && k.posted + k.taken < k.desired ==>
                              k.owner in c.pc && Ticketed(c.pc[k.owner]))
            && ((forall t :: t in c.pc ==> c.pc[t] == Idle) ==> c.optimistic - c.overcommit == c.head)
  {
    Reachable(r);
    var (c, h) := Final(r);
    OwedIsNet(h.tickets, |h.tickets|);
    assert h.tickets[..|h.tickets|] == h.tickets;
    TicketsSettle(c, h);
    hide Inv;
    if forall t :: t in c.pc ==> c.pc[t] == Idle { ClosedOweNothing(h.tickets); }
  }

  lemma TicketsSettle(c: Counters, h: History)
    requires Inv(c, h)
    ensures c.optimistic - c.overcommit - c.head ==
            Sum(DesiredOf, h.tickets, |h.tickets|)
            - Sum(PostedOf, h.tickets, |h.tickets|) - Sum(TakenOf, h.tickets, |h.tickets|)
    ensures forall k :: k in h.tickets ==> k.posted + k.taken <= k.desired
    ensures forall k :: k in h.tickets && !Closed(k) ==> k.owner in c.pc && Ticketed(c.pc[k.owner])
  {
    hide ThreadOk;
    forall k | k in h.tickets
      ensures k.posted + k.taken <= k.desired
      ensures !Closed(k) ==> k.owner in c.pc && Ticketed(c.pc[k.owner])
    {
      var i :| 0 <= i < |h.tickets| && h.tickets[i] == k;
      assert TicketOk(h.tickets[i]) && (!Closed(h.tickets[i]) ==> Holder(c, h, i));
    }
  }

  // Three accesses of the same thread in a row.
  ghost function Thrice(r: Run, t: Thread): Run {
    Then(Then(Then(r, Action.Run(t)), Action.Run(t)), Action.Run(t))
  }

  // A consumer alone, from a state where all are idle, takes what is there up to the
  // bulk limit, and takes nothing exactly when there is nothing.
  lemma SoloDequeue(r: Run, t: Thread)
    requires Legal(r) && t in Final(r).0.pc
    requires forall u :: u in Final(r).0.pc ==> Final(r).0.pc[u] == Idle
    requires Final(r).0.optimistic + MAX_BULK < TWO_63
    ensures var c := Final(r).0;
            var there := Min(Sub(c.tail, c.head), MAX_BULK);
            var alone := if there == 0 then Thrice(r, t) else Thrice(Thrice(r, t), t);
            Legal(alone) && Final(alone).0 == c.(head := c.head + there, optimistic := c.optimistic + there)
  {
    Conservation(r);
    HeadNeverPassesTail(r);
    Reachable(r);
    var c := Final(r).0;
    assert c.tail < TWO_63 && c.optimistic < TWO_63;
    var there := Min(c.tail - c.head, MAX_BULK);
    hide Inv, Sum, Legal, Final, Thrice;
    SoloLooks(r, t, there);
    if there == 0 {
      assert c.pc[t := Idle] == c.pc;
    } else {
      SoloTakes(Thrice(r, t), t, there);
      assert c.pc[t := Claim(c.overcommit, there)][t := Idle] == c.pc;
    }
  }

  lemma SoloLooks(r: Run, t: Thread, there: nat)
    requires Legal(r) && t in Final(r).0.pc
    requires var c := Final(r).0;
             && c.pc[t] == Idle && c.overcommit <= c.optimistic < TWO_63 && c.tail < TWO_63
             && there == Min(Sub(c.tail, c.optimistic - c.overcommit), MAX_BULK)
    ensures var c := Final(r).0;
            && Legal(Thrice(r, t))
            && Final(Thrice(r, t)).0 == c.(pc := c.pc[t := if there == 0 then Idle else Claim(c.overcommit, there)])
  {
    hide Inv, Sum, Wrap64, Desired, CircularLessThan, Record;
    var c := Final(r).0;
    Difference(c.tail, c.optimistic, c.overcommit);
    var step := Action.Run(t);
    var r1 := Then(r, step);
    var r2 := Then(r1, step);
    assert Legal(r1) && Final(r1).0 == c.(pc := c.pc[t := LoadOvercommit(c.tail)]);
    assert Legal(r2) && Final(r2).0 == c.(pc := c.pc[t := LoadOptimistic(c.tail, c.overcommit)]);
    assert Legal(Then(r2, step));
  }

  lemma SoloTakes(r: Run, t: Thread, there: nat)
    requires Legal(r) && t in Final(r).0.pc
    requires var c := Final(r).0;
             && c.pc[t] == Claim(c.overcommit, there) && 0 < there <= c.tail - (c.optimistic - c.overcommit)
             && c.overcommit <= c.optimistic && c.optimistic + there < TWO_63 && c.tail < TWO_63
    ensures var c := Final(r).0;
            && Legal(Thrice(r, t))
            && Final(Thrice(r, t)).0
            == c.(optimistic := c.optimistic + there, head := c.head + there, pc := c.pc[t := Idle])
  {
    var c := Final(r).0;
    hide Inv, Sum, Wrap64;
    Difference(c.tail, c.optimistic, c.overcommit);
    hide Desired, CircularLessThan, Record;
    var step := Action.Run(t);
    var r1 := Then(r, step);
    var r2 := Then(r1, step);
    var r3 := Then(r2, step);
    assert Legal(r1);
    assert Final(r1).0
        == c.(optimistic := c.optimistic + there, pc := c.pc[t := ReloadTail(c.overcommit, there, c.optimistic)]);
    assert Legal(r2);
    assert Final(r2).0 == c.(optimistic := c.optimistic + there, pc := c.pc[t := TakeHead(there)]);
    assert Legal(r3);
  }
}
