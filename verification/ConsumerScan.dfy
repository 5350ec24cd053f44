/**
 How a consumer goes round the producers of the queue: where it starts, when it gives up and
 how long a producer has to wait for its turn.
 */
module ConsumerScan {
  import opened Options

  // Producers are numbered along their list, from the tail; after the last comes the tail again.
  function Next(n: nat, p: nat): (q: nat)
    requires p < n
    ensures q < n
  {
    if p + 1 == n then 0 else p + 1
  }

  // How many steps it takes from p to r.
  function Distance(n: nat, p: nat, r: nat): (d: nat)
    requires p < n && r < n
    ensures d < n
    ensures d == 0 <==> p == r
    ensures p != r ==> d == 1 + (if Next(n, p) <= r then r - Next(n, p) else r - Next(n, p) + n)
  {
    if p <= r then r - p else r - p + n
  }

  // One call: the producer it took from, if any, and the producer that it leaves current.
  datatype Outcome = Outcome(taken: Option<nat>, current: nat)

  // The search after the current producer has yielded nothing. visible says of each producer
  // whether it has something when it is asked.
  function Search(n: nat, ptr: nat, current: nat, visible: seq<bool>): Outcome
    requires ptr < n && current < n && |visible| == n
    decreases Distance(n, ptr, current)
  {
    if ptr == current then Outcome(None, current)
    else if visible[ptr] then Outcome(Some(ptr), ptr)
    else Search(n, Next(n, ptr), current, visible)
  }

  function Call(n: nat, current: nat, visible: seq<bool>): Outcome
    requires current < n && |visible| == n
  {
    if visible[current] then Outcome(Some(current), Next(n, current))
    else Search(n, Next(n, current), current, visible)
  }

  // ---------- What a call promises ----------

  lemma {:induction false} SearchStops(n: nat, ptr: nat, current: nat, visible: seq<bool>, r: nat)
    requires ptr < n && current < n && |visible| == n && r < n
    requires visible[r] && r != current
    requires ptr != current && Distance(n, ptr, r) < Distance(n, ptr, current)
    ensures var o := Search(n, ptr, current, visible);
            o.taken.Some? && o.current < n && Distance(n, o.current, r) <= Distance(n, ptr, r)
            && (o.taken == Some(r) || (o.current != r && visible[o.current]))
            && o.taken == Some(o.current)
    decreases Distance(n, ptr, r)
  {
    if !visible[ptr] {
      SearchStops(n, Next(n, ptr), current, visible, r);
    }
  }

  // Nothing is taken exactly when no producer has anything; what is taken was there.
  lemma TakesIffAny(n: nat, current: nat, visible: seq<bool>)
    requires current < n && |visible| == n
    ensures var o := Call(n, current, visible);
            && (o.taken == None <==> forall p :: 0 <= p < n ==> !visible[p])
            && (o.taken.Some? ==> o.taken.value < n && visible[o.taken.value])
            && o.current < n
  {
    if r: nat :| r < n && visible[r] {
      if !visible[current] { SearchStops(n, Next(n, current), current, visible, r); }
    } else {
      SearchFails(n, Next(n, current), current, visible);
    }
  }

  lemma {:induction false} SearchFails(n: nat, ptr: nat, current: nat, visible: seq<bool>)
    requires ptr < n && current < n && |visible| == n
    requires forall p :: 0 <= p < n ==> !visible[p]
    ensures Search(n, ptr, current, visible) == Outcome(None, current)
    decreases Distance(n, ptr, current)
  {
    if ptr != current { SearchFails(n, Next(n, ptr), current, visible); }
  }

  // A call that does not take from a producer that has something gets nearer to it.
  lemma Nearer(n: nat, current: nat, visible: seq<bool>, r: nat)
    requires current < n && |visible| == n && r < n && visible[r]
    ensures var o := Call(n, current, visible);
            o.current < n && (o.taken == Some(r) || Distance(n, o.current, r) < Distance(n, current, r))
  {
    if !visible[current] {
      SearchStops(n, Next(n, current), current, visible, r);
    }
  }

  // ---------- What a run of calls promises ----------

  // The current producer after the first k calls.
  function Current(n: nat, start: nat, views: seq<seq<bool>>, k: nat): (c: nat)
    requires start < n && k <= |views| && forall v :: v in views ==> |v| == n
    ensures c < n
  {
    if k == 0 then start
    else
      var before := Current(n, start, views, k - 1);
      TakesIffAny(n, before, views[k - 1]);
      Call(n, before, views[k - 1]).current
  }

  function TakenBy(n: nat, start: nat, views: seq<seq<bool>>, k: nat): Option<nat>
    requires start < n && k < |views| && forall v :: v in views ==> |v| == n
  {
    Call(n, Current(n, start, views, k), views[k]).taken
  }

  lemma {:induction false} TakenSoon(n: nat, start: nat, views: seq<seq<bool>>, r: nat, k: nat)
    requires start < n && r < n && k <= |views| && forall v :: v in views ==> |v| == n
    requires forall i :: 0 <= i < k ==> views[i][r]
    ensures (exists i :: 0 <= i < k && TakenBy(n, start, views, i) == Some(r))
            || Distance(n, Current(n, start, views, k), r) + k <= Distance(n, start, r)
  {
    if k > 0 {
      TakenSoon(n, start, views, r, k - 1);
      Nearer(n, Current(n, start, views, k - 1), views[k - 1], r);
      if TakenBy(n, start, views, k - 1) == Some(r) {}
    }
  }

  // Main result: a producer that has something in each of n calls is taken from in one of them.
  lemma WithinNCalls(n: nat, start: nat, views: seq<seq<bool>>, r: nat)
    requires start < n && r < n && |views| == n && forall v :: v in views ==> |v| == n
    requires forall i :: 0 <= i < n ==> views[i][r]
    ensures exists i :: 0 <= i < n && TakenBy(n, start, views, i) == Some(r)
  {
    TakenSoon(n, start, views, r, n);
  }

  // ---------- The consumer ----------

  // Where a new consumer starts: consumers are spread backwards over the list.
  function Start(n: nat, initialOffset: nat): nat
    requires n > 0
  {
    (n - initialOffset % n) % n
  }

  // Where a consumer goes on: from the producer it wanted, or at first from its own offset, as
  // many steps further around the list as all consumers have been told to move since.
  function Rotated(n: nat, desired: Option<nat>, initialOffset: nat, globalOffset: nat, lastKnown: nat): nat
    requires n > 0
  {
    var from := if desired.Some? then desired.value else n - 1 - initialOffset % n;
    (from + (globalOffset - lastKnown) % WORD % n) % n
  }

  // k steps from the tail.
  lemma Around(n: nat, k: nat)
    requires n > 0
    ensures Next(n, k % n) == (k + 1) % n
  {
    var q, r := k / n, k % n;
    assert k == n * q + r;
    if r + 1 < n {
      Remainder(n, q, r + 1);
    } else {
      assert k + 1 == n * (q + 1) + 0;
      Remainder(n, q + 1, 0);
    }
  }

  lemma Remainder(n: nat, q: int, r: nat)
    requires r < n
    ensures (n * q + r) % n == r
  {
    var x := n * q + r;
    assert n * (x / n - q) == r - x % n;
    SmallMultiple(n, x / n - q, r - x % n);
  }

  lemma SmallMultiple(n: int, k: int, d: int)
    requires n * k == d && -n < d < n
    ensures k == 0
  {
  }

  // How far the consumers have been told to move on since the token last looked.
  method Delta(globalOffset: nat, lastKnown: nat, prodCount: nat) returns (delta: nat)
    requires 0 < prodCount < WORD
    ensures delta == (globalOffset - lastKnown) % WORD % prodCount
  {
    delta := (globalOffset - lastKnown) % WORD;
    if delta >= prodCount {
      delta := delta % prodCount;
    } else {
      Remainder(prodCount, 0, delta);
    }
  }

  // Follows the list some steps on from a place that is k steps from the tail.
  method Walk(n: nat, ghost k: nat, from: nat, steps: nat) returns (p: nat)
    requires n > 0 && from == k % n
    ensures p < n && p == (k + steps) % n
  {
    p := from;
    for i := 0 to steps
      invariant p < n && p == (k + i) % n
    {
      Around(n, k + i);
      p := Next(n, p);
    }
  }

  // A new token's offset of minus one is one step of the rotation.
  lemma NewConsumer(n: nat, initialOffset: nat)
    requires 0 < n < WORD
    ensures Rotated(n, None, initialOffset, 0, WORD - 1) == Start(n, initialOffset)
  {
    assert (0 - (WORD - 1)) % WORD == 1;
    OneLap(n, initialOffset);
  }

  lemma OneLap(n: nat, initialOffset: nat)
    requires n > 0
    ensures (n - 1 - initialOffset % n + 1 % n) % n == Start(n, initialOffset)
  {
    if n == 1 {
      Remainder(1, 0 - initialOffset % n, 0);
      Remainder(1, 1 - initialOffset % n, 0);
    }
  }

  // Producer p has been asked before the search comes to ptr.
  predicate Asked(n: nat, current: nat, ptr: nat, p: nat)
    requires current < n && ptr < n && p < n
  {
    ptr == current || Distance(n, current, p) < Distance(n, current, ptr)
  }

  lemma AskedMore(n: nat, current: nat, ptr: nat)
    requires current < n && ptr < n && ptr != current
    ensures forall p: nat :: p < n ==> (Asked(n, current, Next(n, ptr), p) <==> Asked(n, current, ptr, p) || p == ptr)
  {
  }

  // The search takes from the first producer that has something.
  lemma {:induction false} SearchFinds(n: nat, ptr: nat, current: nat, visible: seq<bool>, r: nat)
    requires ptr < n && current < n && |visible| == n && r < n && r != current && ptr != current
    requires visible[r] && Distance(n, current, ptr) <= Distance(n, current, r)
    requires forall p: nat :: p < n && Asked(n, current, r, p) ==> !visible[p]
    ensures Search(n, ptr, current, visible) == Outcome(Some(r), r)
    decreases Distance(n, ptr, r)
  {
    if ptr != r {
      assert Asked(n, current, r, ptr);
      SearchFinds(n, Next(n, ptr), current, visible, r);
    }
  }

  const WORD: int := 0x1_0000_0000

  // What a call has done to the items: `count` of the `had` items that the producer taken from had
  // are gone, and none of any other; meanwhile anyone may have committed more.
  predicate Accounted(before: seq<nat>, after: seq<nat>, taken: Option<nat>, count: nat, had: nat) {
    && |after| == |before|
    && (count == 0 <==> taken == None)
    && (taken.Some? ==>
          taken.value < |after| && had >= before[taken.value] && after[taken.value] == had - count)
    && forall p :: 0 <= p < |after| && taken != Some(p) ==> after[p] >= before[p]
  }

  class Consumer {
    // How many committed items each producer has; more may be committed at any time.
    var items: seq<nat>
    const initialOffset: nat
    var lastKnownGlobalOffset: nat
    var desiredProducer: Option<nat>
    var currentProducer: nat
    var itemsConsumedFromCurrent: nat
    // How far the queue has told its consumers to move on; it does so for no one at present.
    var globalExplicitConsumerOffset: nat

    predicate Valid()
      reads this
    {
      && initialOffset < WORD && lastKnownGlobalOffset < WORD && globalExplicitConsumerOffset < WORD
      && |items| < WORD
      && (desiredProducer.Some? ==> desiredProducer.value < |items| && currentProducer < |items|)
    }

    constructor (producers: seq<nat>, initialOffset: nat)
      requires |producers| < WORD && initialOffset < WORD
      ensures Valid() && items == producers && desiredProducer == None
      ensures this.initialOffset == initialOffset && lastKnownGlobalOffset == WORD - 1
      ensures globalExplicitConsumerOffset == 0
    {
      items, globalExplicitConsumerOffset := producers, 0;
      this.initialOffset, lastKnownGlobalOffset := initialOffset, WORD - 1;
      desiredProducer, currentProducer, itemsConsumedFromCurrent := None, 0, 0;
    }

    // Other threads commit items.
    method Arrive()
      modifies `items
      ensures |items| == |old(items)| && forall p :: 0 <= p < |items| ==> items[p] >= old(items[p])
    {
      var before := items;
      assert |before| == |items|;
      var more: seq<nat> :| |more| == |before|;
      items := seq(|before|, p requires 0 <= p < |before| => before[p] + more[p]);
    }

    // Takes some of what the producer has at that moment, and nothing only if it has nothing.
    method DequeueBulk(p: nat) returns (count: nat, ghost had: nat)
      requires p < |items|
      modifies `items
      ensures |items| == |old(items)| && (count == 0 <==> had == 0) && count <= had
      ensures had >= old(items[p]) && items[p] == had - count
      ensures forall q :: 0 <= q < |items| && q != p ==> items[q] >= old(items[q])
    {
      Arrive();
      had := items[p];
      assert items[p] <= items[p] && (items[p] == 0 <==> items[p] == 0);
      count :| count <= items[p] && (count == 0 <==> items[p] == 0);
      items := items[p := items[p] - count];
    }

    // Where the consumer goes on after a rotation, or starts, all in unsigned 32-bit arithmetic.
    method UpdateCurrentProducerAfterRotation() returns (ok: bool)
      requires Valid()
      modifies `lastKnownGlobalOffset, `desiredProducer, `currentProducer, `itemsConsumedFromCurrent
      ensures Valid() && (ok <==> |items| > 0)
      ensures ok ==> desiredProducer == Some(currentProducer) && itemsConsumedFromCurrent == 0
      ensures ok ==> lastKnownGlobalOffset == globalExplicitConsumerOffset
      ensures ok ==> currentProducer == Rotated(|items|, old(desiredProducer), initialOffset,
                                                globalExplicitConsumerOffset, old(lastKnownGlobalOffset))
      ensures !ok ==> desiredProducer == None && lastKnownGlobalOffset == old(lastKnownGlobalOffset)
    {
      if desiredProducer == None && |items| == 0 {
        return false;
      }
      var prodCount := |items|;
      var globalOffset := globalExplicitConsumerOffset;
      if desiredProducer == None {
        var offset := prodCount - 1 - initialOffset % prodCount;
        Remainder(prodCount, 0, offset);
        var position := Walk(prodCount, 0, 0, offset);
        desiredProducer := Some(position);
      }
      var delta := Delta(globalOffset, lastKnownGlobalOffset, prodCount);
      Remainder(prodCount, 0, desiredProducer.value);
      var desired := Walk(prodCount, desiredProducer.value, desiredProducer.value, delta);
      desiredProducer := Some(desired);
      lastKnownGlobalOffset := globalOffset;
      currentProducer := desired;
      itemsConsumedFromCurrent := 0;
      return true;
    }

    // The current producer is asked, then the others in turn. `visible` says what each of them
    // had when it was asked.
    method Scan() returns (count: nat, ghost had: nat, ghost visible: seq<bool>, ghost outcome: Outcome)
      requires Valid() && desiredProducer.Some?
      modifies `items, `currentProducer, `itemsConsumedFromCurrent
      ensures Valid() && |items| == |old(items)| == |visible|
      ensures outcome == Call(|items|, old(currentProducer), visible)
      ensures currentProducer == outcome.current && (count == 0 <==> outcome.taken == None)
      ensures Accounted(old(items), items, outcome.taken, count, had)
      ensures forall p :: 0 <= p < |items| && old(items[p]) > 0 ==> visible[p]
      // The consumer counts on with its producer, unless it has moved on.
      ensures itemsConsumedFromCurrent == if outcome.taken == Some(old(currentProducer)) then 0
                                          else if outcome.taken.Some? then count % WORD
                                          else old(itemsConsumedFromCurrent) % WORD
    {
      ghost var n, current := |items|, currentProducer;
      visible := seq(n, p => true);
      count, had := DequeueBulk(currentProducer);
      visible := visible[current := count != 0];
      itemsConsumedFromCurrent := (itemsConsumedFromCurrent + count) % WORD;
      var ptr: nat := Next(|items|, currentProducer);
      if count == 0 {
        while ptr != currentProducer
          invariant Valid() && |items| == n && currentProducer == current && desiredProducer.Some?
          invariant ptr < n && |visible| == n
          invariant forall p: nat :: p < n ==> items[p] >= old(items[p])
          invariant forall p: nat :: p < n ==> if Asked(n, current, ptr, p) then !visible[p] && old(items[p]) == 0
                                                else visible[p]
          invariant itemsConsumedFromCurrent == old(itemsConsumedFromCurrent) % WORD
          decreases Distance(n, ptr, current)
        {
          var dequeued;
          dequeued, had := DequeueBulk(ptr);
          visible := visible[ptr := dequeued != 0];
          if dequeued != 0 {
            currentProducer := ptr;
            itemsConsumedFromCurrent := dequeued % WORD;
            outcome := Call(n, current, visible);
            SearchFinds(n, Next(n, current), current, visible, ptr);
            return dequeued, had, visible, outcome;
          }
          AskedMore(n, current, ptr);
          ptr := Next(|items|, ptr);
        }
        outcome := Call(n, current, visible);
        SearchFails(n, Next(n, current), current, visible);
        return 0, had, visible, outcome;
      } else {
        currentProducer := ptr;
        itemsConsumedFromCurrent := 0;
        outcome := Call(n, current, visible);
      }
    }

    // One call on behalf of the token.
    method TryDequeueBulkSingle()
      returns (count: nat, ghost had: nat, ghost visible: seq<bool>, ghost outcome: Outcome)
      requires Valid()
      modifies `items, `lastKnownGlobalOffset, `desiredProducer, `currentProducer, `itemsConsumedFromCurrent
      ensures Valid() && Accounted(old(items), items, outcome.taken, count, had)
      ensures |items| == 0 ==> count == 0
      ensures |items| > 0 ==>
                && desiredProducer.Some? && |visible| == |items|
                && var n, wanted, last := |items|, old(desiredProducer), old(lastKnownGlobalOffset);
                && var start := if wanted.Some? && last == globalExplicitConsumerOffset then old(currentProducer)
                                else Rotated(n, wanted, initialOffset, globalExplicitConsumerOffset, last);
                && start < n && outcome == Call(n, start, visible)
                && currentProducer == outcome.current
      // A producer that had something all along is visible.
      ensures forall p :: 0 <= p < |items| && |items| > 0 && old(items[p]) > 0 ==> visible[p]
    {
      hide Rotated, Call;
      visible, outcome, had := [], Outcome(None, 0), 0;
      if desiredProducer == None || lastKnownGlobalOffset != globalExplicitConsumerOffset {
        var ok := UpdateCurrentProducerAfterRotation();
        if !ok { return 0, had, visible, outcome; }
      }
      count, had, visible, outcome := Scan();
    }
  }
}
