/**
 What the free list's routines achieve, and that they end: a call alone takes or adds its node,
 a call that returns nothing saw an empty list, and no thread can be blocked by the others,
 wherever they have stopped.
 */
module FreeListProgress {
  import opened Options
  import opened FreeList

  // ------------------------------------------------------- one thread by itself

  // Thread t makes n accesses and no other thread does anything.
  ghost function Alone(r: FreeList.Run, t: Thread, n: nat): FreeList.Run {
    if n == 0 then r else Then(Alone(r, t, n - 1), Event(t, Action.Run))
  }

  lemma {:induction false} AloneMore(r: FreeList.Run, t: Thread, k: nat, n: nat)
    ensures Alone(Alone(r, t, k), t, n) == Alone(r, t, k + n)
  {
    if n > 0 { AloneMore(r, t, k, n - 1); }
  }

  // A node on the list has the list's reference, and its word is neither zero nor flagged.
  lemma ListedWord(m: Machine, h: History, i: nat)
    requires Inv(m, h) && i < |h.list|
    ensures h.list[i] in m.refs && h.list[i] in m.next && h.phase[h.list[i]] == Listed
    ensures m.next[h.list[i]] == At(h.list, i + 1)
    ensures 1 <= m.refs[h.list[i]] <= REFS_MASK
  {
    hide ThreadOk, NodeOk;
    HoldersBounded(m.pc, h.list[i]);
    WordOfListed(m, h, h.list[i]);
  }

  lemma WordOfListed(m: Machine, h: History, node: Node)
    requires Inv(m, h) && node in m.refs && h.phase[node] == Listed
    ensures m.refs[node] == 1 + |Holders(m.pc, node)|
  {
    hide ThreadOk, ChainOk;
    assert NodeOk(m, h, node);
  }

  ghost predicate IsAt(r: FreeList.Run, m: Machine, h: History, outside: set<Node>) {
    Legal(r) && Final(r) == (m, h) && Outside(r) == outside
  }

  // The machine with thread t about to make some access.
  function With(m: Machine, t: Thread, p: Pc): Machine { m.(pc := m.pc[t := p]) }

  lemma Withs(m: Machine, t: Thread, p: Pc, p': Pc)
    ensures With(With(m, t, p), t, p') == With(m, t, p')
    ensures t in m.pc ==> With(m, t, m.pc[t]) == m
  {
    assert m.pc[t := p][t := p'] == m.pc[t := p'];
    if t in m.pc { assert m.pc[t := m.pc[t]] == m.pc; }
  }

  lemma Called(r: FreeList.Run, t: Thread, m: Machine, h: History, o: set<Node>)
    requires IsAt(r, m, h, o) && t in m.pc && m.pc[t] == Idle
    ensures IsAt(Then(r, Event(t, CallTryGet)), With(m, t, LoadHead), h, o)
  {
  }

  // One more access, on the machine, on the history and on the nodes in client hands.
  lemma OneMore(r: FreeList.Run, t: Thread, m: Machine, h: History, o: set<Node>)
    requires IsAt(r, m, h, o) && t in m.pc && !m.pc[t].Idle? && Resolves(m, m.pc[t])
    ensures Enabled(m, h, t, Action.Run)
    ensures IsAt(Alone(r, t, 1), RunStep(m, t), Record(m, h, t, Action.Run),
                 if m.pc[t].DropTwo? then o + {m.pc[t].node} else o)
  {
    hide RunStep, Record;
    assert Alone(r, t, 0) == r;
  }

  // The first accesses of a call, up to the one that moves the head.
  lemma GoLoadHead(r: FreeList.Run, t: Thread, m: Machine, h: History, o: set<Node>)
    requires t in m.pc && IsAt(r, With(m, t, LoadHead), h, o)
    ensures IsAt(Alone(r, t, 1), With(m, t, LoopWith(m.head)), h, o)
  {
    hide IsAt;
    OneMore(r, t, With(m, t, LoadHead), h, o);
    Withs(m, t, LoadHead, LoopWith(m.head));
  }

  lemma GoLoadRefs(r: FreeList.Run, t: Thread, m: Machine, h: History, o: set<Node>, node: Node)
    requires t in m.pc && IsAt(r, With(m, t, LoadRefs(node)), h, o)
    requires node in m.refs && node in m.next && 1 <= m.refs[node] <= REFS_MASK
    ensures IsAt(Alone(r, t, 1), With(m, t, CasRefs(node, m.refs[node])), h, o)
  {
    hide IsAt;
    OneMore(r, t, With(m, t, LoadRefs(node)), h, o);
    Withs(m, t, LoadRefs(node), CasRefs(node, m.refs[node]));
  }

  function Counted(m: Machine, node: Node): Machine
    requires node in m.refs
  {
    m.(refs := m.refs[node := m.refs[node] + 1])
  }

  lemma GoCasRefs(r: FreeList.Run, t: Thread, m: Machine, h: History, o: set<Node>, node: Node)
    requires t in m.pc && node in m.refs && node in m.next && 1 <= m.refs[node] <= REFS_MASK
    requires IsAt(r, With(m, t, CasRefs(node, m.refs[node])), h, o)
    ensures IsAt(Alone(r, t, 1), With(Counted(m, node), t, LoadNext(node)), h, o)
  {
    hide IsAt;
    OneMore(r, t, With(m, t, CasRefs(node, m.refs[node])), h, o);
    Withs(m, t, CasRefs(node, m.refs[node]), LoadNext(node));
  }

  lemma GoLoadNext(r: FreeList.Run, t: Thread, m: Machine, h: History, o: set<Node>, node: Node)
    requires t in m.pc && node in m.refs && node in m.next
    requires IsAt(r, With(m, t, LoadNext(node)), h, o)
    ensures IsAt(Alone(r, t, 1), With(m, t, CasHead(node, m.next[node])), h, o)
  {
    hide IsAt;
    OneMore(r, t, With(m, t, LoadNext(node)), h, o);
    Withs(m, t, LoadNext(node), CasHead(node, m.next[node]));
  }

  lemma GoCasHead(r: FreeList.Run, t: Thread, m: Machine, h: History, o: set<Node>, node: Node, next: Option<Node>)
    requires t in m.pc && node in m.refs && node in m.next && m.head == Some(node) && h.list != []
    requires IsAt(r, With(m, t, CasHead(node, next)), h, o)
    ensures IsAt(Alone(r, t, 1), With(m.(head := next), t, CheckFlag(node)),
                 History(h.phase[node := Taken(t)], h.list[1..]), o)
  {
    hide IsAt;
    OneMore(r, t, With(m, t, CasHead(node, next)), h, o);
    Withs(m, t, CasHead(node, next), CheckFlag(node));
  }

  lemma GoCheckFlag(r: FreeList.Run, t: Thread, m: Machine, h: History, o: set<Node>, node: Node)
    requires t in m.pc && node in m.refs && node in m.next
    requires IsAt(r, With(m, t, CheckFlag(node)), h, o)
    ensures IsAt(Alone(r, t, 1), With(m, t, DropTwo(node)), h, o)
  {
    hide IsAt;
    OneMore(r, t, With(m, t, CheckFlag(node)), h, o);
    Withs(m, t, CheckFlag(node), DropTwo(node));
  }

  function Dropped(m: Machine, node: Node): Machine
    requires node in m.refs && m.refs[node] >= 2
  {
    m.(refs := m.refs[node := m.refs[node] - 2])
  }

  lemma GoDropTwo(r: FreeList.Run, t: Thread, m: Machine, h: History, o: set<Node>, node: Node)
    requires t in m.pc && node in m.refs && node in m.next && 2 <= m.refs[node] < WORD
    requires IsAt(r, With(m, t, DropTwo(node)), h, o)
    ensures IsAt(Alone(r, t, 1), With(Dropped(m, node), t, Idle),
                 h.(phase := h.phase[node := Owned]), o + {node})
  {
    hide IsAt;
    OneMore(r, t, With(m, t, DropTwo(node)), h, o);
    Withs(m, t, DropTwo(node), Idle);
  }

  lemma Approaches(r: FreeList.Run, t: Thread, m: Machine, h: History, o: set<Node>, node: Node)
    requires IsAt(r, m, h, o) && t in m.pc && m.pc[t] == Idle && m.head == Some(node)
    requires node in m.refs && node in m.next && 1 <= m.refs[node] <= REFS_MASK
    ensures IsAt(Alone(Then(r, Event(t, CallTryGet)), t, 4),
                 With(Counted(m, node), t, CasHead(node, m.next[node])), h, o)
  {
    var called := Then(r, Event(t, CallTryGet));
    Called(r, t, m, h, o);
    hide IsAt, With, Alone;
    GoLoadHead(called, t, m, h, o);
    GoLoadRefs(Alone(called, t, 1), t, m, h, o, node);
    AloneMore(called, t, 1, 1);
    GoCasRefs(Alone(called, t, 2), t, m, h, o, node);
    AloneMore(called, t, 2, 1);
    GoLoadNext(Alone(called, t, 3), t, Counted(m, node), h, o, node);
    AloneMore(called, t, 3, 1);
  }

  // The accesses from there on.
  lemma Takes(r: FreeList.Run, t: Thread, m: Machine, h: History, o: set<Node>, node: Node, next: Option<Node>)
    requires t in m.pc && node in m.refs && node in m.next && m.head == Some(node) && h.list != []
    requires 2 <= m.refs[node] < WORD && IsAt(r, With(m, t, CasHead(node, next)), h, o)
    ensures IsAt(Alone(r, t, 3), With(Dropped(m.(head := next), node), t, Idle),
                 History(h.phase[node := Owned], h.list[1..]), o + {node})
  {
    var h1 := History(h.phase[node := Taken(t)], h.list[1..]);
    assert h1.phase[node := Owned] == h.phase[node := Owned];
    hide IsAt, With, Alone;
    GoCasHead(r, t, m, h, o, node, next);
    GoCheckFlag(Alone(r, t, 1), t, m.(head := next), h1, o, node);
    AloneMore(r, t, 1, 1);
    GoDropTwo(Alone(r, t, 2), t, m.(head := next), h1, o, node);
    AloneMore(r, t, 2, 1);
  }

  lemma HeadIsFirst(m: Machine, h: History)
    requires Inv(m, h)
    ensures m.head == At(h.list, 0)
  {
    hide ThreadOk, NodeOk;
  }

  lemma RunIsAt(r: FreeList.Run)
    requires Legal(r)
    ensures IsAt(r, Final(r).0, Final(r).1, Outside(r))
  {
  }

  lemma FindsNothing(r: FreeList.Run, t: Thread, m: Machine, h: History, o: set<Node>)
    requires IsAt(r, m, h, o) && t in m.pc && m.pc[t] == Idle && m.head == None
    ensures IsAt(Alone(Then(r, Event(t, CallTryGet)), t, 1), m, h, o)
  {
    var called := Then(r, Event(t, CallTryGet));
    Called(r, t, m, h, o);
    hide IsAt, Alone;
    GoLoadHead(called, t, m, h, o);
    Withs(m, t, LoadHead, Idle);
  }

  function Uncounted(m: Machine, node: Node): Machine
    requires node in m.refs && m.refs[node] > 0
  {
    m.(refs := m.refs[node := m.refs[node] - 1])
  }

  lemma CountedDropped(m: Machine, t: Thread, node: Node, next: Option<Node>)
    requires t in m.pc && m.pc[t] == Idle && node in m.refs && m.refs[node] > 0
    ensures node in Counted(m, node).refs && Counted(m, node).refs[node] == m.refs[node] + 1
    ensures Counted(m, node).head == m.head && Counted(m, node).next == m.next && Counted(m, node).pc == m.pc
    ensures With(Dropped(Counted(m, node).(head := next), node), t, Idle) == Uncounted(m, node).(head := next)
  {
    assert m.refs[node := m.refs[node] + 1][node := m.refs[node] - 1] == m.refs[node := m.refs[node] - 1];
    assert m.pc[t := Idle] == m.pc;
  }

  lemma FindsFirst(r: FreeList.Run, t: Thread, m: Machine, h: History, o: set<Node>, node: Node)
    requires IsAt(r, m, h, o) && t in m.pc && m.pc[t] == Idle && h.list != [] && node == h.list[0]
    requires m.head == Some(node) && node in m.refs && node in m.next && 1 <= m.refs[node] <= REFS_MASK
    ensures IsAt(Alone(Then(r, Event(t, CallTryGet)), t, 7), Uncounted(m, node).(head := m.next[node]),
                 History(h.phase[node := Owned], h.list[1..]), o + {node})
  {
    hide IsAt, Alone, Counted, With;
    var called := Then(r, Event(t, CallTryGet));
    CountedDropped(m, t, node, m.next[node]);
    hide Dropped, Uncounted;
    Approaches(r, t, m, h, o, node);
    Takes(Alone(called, t, 4), t, Counted(m, node), h, o, node, m.next[node]);
    AloneMore(called, t, 4, 3);
  }

  // Main result: a call of `try_get` with no one else running takes the first node of the list, and
  // returns nothing only if there is none. The others may have stopped anywhere.
  lemma SoloTryGet(r: FreeList.Run, t: Thread)
    requires Legal(r) && t in Final(r).0.pc && Final(r).0.pc[t] == Idle
    ensures var (m, h) := Final(r);
            var called := Then(r, Event(t, CallTryGet));
            if h.list == [] then
              IsAt(Alone(called, t, 1), m, h, Outside(r))
            else
              var node := h.list[0];
              && node in m.refs && m.refs[node] >= 1
              && IsAt(Alone(called, t, 7), Uncounted(m, node).(head := At(h.list, 1)),
                      History(h.phase[node := Owned], h.list[1..]), Outside(r) + {node})
  {
    var (m, h) := Final(r);
    var o := Outside(r);
    hide Inv, Legal, Final, Outside, Alone;
    Reachable(r);
    RunIsAt(r);
    HeadIsFirst(m, h);
    hide IsAt;
    if h.list == [] {
      FindsNothing(r, t, m, h, o);
    } else {
      ListedWord(m, h, 0);
      FindsFirst(r, t, m, h, o, h.list[0]);
    }
  }

  // ---------------------------------------------------------- adding a node alone

  function Stored(m: Machine, node: Node): Machine { m.(next := m.next[node := m.head], refs := m.refs[node := 1]) }

  lemma CalledAdd(r: FreeList.Run, t: Thread, m: Machine, h: History, o: set<Node>, node: Node)
    requires IsAt(r, m, h, o) && t in m.pc && m.pc[t] == Idle
    requires node in m.refs && node in h.phase && h.phase[node] == Owned && m.refs[node] <= REFS_MASK
    ensures var word := m.refs[node] + SHOULD_BE_ON_FREELIST;
            var free := m.refs[node] == 0;
            IsAt(Then(r, Event(t, CallAdd(node))),
                 With(m.(refs := m.refs[node := word]), t, if free then AddLoadHead(node, ReturnFromAdd) else Idle),
                 h.(phase := h.phase[node := if free then Adding(t) else Waiting]), o - {node})
  {
  }

  lemma GoAddLoadHead(r: FreeList.Run, t: Thread, m: Machine, h: History, o: set<Node>, node: Node, back: Resume)
    requires t in m.pc && node in m.refs && node in m.next
    requires IsAt(r, With(m, t, AddLoadHead(node, back)), h, o)
    ensures IsAt(Alone(r, t, 1), With(m, t, AddStoreNext(node, m.head, back)), h, o)
  {
    hide IsAt;
    OneMore(r, t, With(m, t, AddLoadHead(node, back)), h, o);
    Withs(m, t, AddLoadHead(node, back), AddStoreNext(node, m.head, back));
  }

  lemma GoStores(r: FreeList.Run, t: Thread, m: Machine, h: History, o: set<Node>, node: Node, back: Resume)
    requires t in m.pc && node in m.refs && node in m.next
    requires IsAt(r, With(m, t, AddStoreNext(node, m.head, back)), h, o)
    ensures IsAt(Alone(r, t, 2), With(Stored(m, node), t, AddCasHead(node, m.head, back)), h, o)
  {
    hide IsAt, Alone;
    OneMore(r, t, With(m, t, AddStoreNext(node, m.head, back)), h, o);
    Withs(m, t, AddStoreNext(node, m.head, back), AddStoreRefs(node, m.head, back));
    var half := m.(next := m.next[node := m.head]);
    assert IsAt(Alone(r, t, 1), With(half, t, AddStoreRefs(node, m.head, back)), h, o);
    OneMore(Alone(r, t, 1), t, With(half, t, AddStoreRefs(node, m.head, back)), h, o);
    Withs(half, t, AddStoreRefs(node, m.head, back), AddCasHead(node, m.head, back));
    AloneMore(r, t, 1, 1);
  }

  lemma GoAddCasHead(r: FreeList.Run, t: Thread, m: Machine, h: History, o: set<Node>, node: Node, back: Resume)
    requires t in m.pc && node in m.refs && node in m.next
    requires IsAt(r, With(m, t, AddCasHead(node, m.head, back)), h, o)
    ensures IsAt(Alone(r, t, 1), With(m.(head := Some(node)), t, Resumed(back)),
                 History(h.phase[node := Listed], [node] + h.list), o)
  {
    hide IsAt;
    OneMore(r, t, With(m, t, AddCasHead(node, m.head, back)), h, o);
    Withs(m, t, AddCasHead(node, m.head, back), Resumed(back));
  }

  lemma AddsFree(r: FreeList.Run, t: Thread, m: Machine, h: History, o: set<Node>, node: Node)
    requires IsAt(r, m, h, o) && t in m.pc && m.pc[t] == Idle
    requires node in m.refs && node in m.next && node in h.phase && h.phase[node] == Owned && m.refs[node] == 0
    ensures IsAt(Alone(Then(r, Event(t, CallAdd(node))), t, 4), Stored(m, node).(head := Some(node)),
                 History(h.phase[node := Listed], [node] + h.list), o - {node})
  {
    var called := Then(r, Event(t, CallAdd(node)));
    var m1 := m.(refs := m.refs[node := SHOULD_BE_ON_FREELIST]);
    var h1 := h.(phase := h.phase[node := Adding(t)]);
    CalledAdd(r, t, m, h, o, node);
    assert Stored(m1, node) == Stored(m, node) by { assert m1.refs[node := 1] == m.refs[node := 1]; }
    assert h1.phase[node := Listed] == h.phase[node := Listed];
    hide IsAt, Alone, Stored;
    assert IsAt(called, With(m1, t, AddLoadHead(node, ReturnFromAdd)), h1, o - {node});
    GoAddLoadHead(called, t, m1, h1, o - {node}, node, ReturnFromAdd);
    GoStores(Alone(called, t, 1), t, m1, h1, o - {node}, node, ReturnFromAdd);
    AloneMore(called, t, 1, 2);
    StoredKeeps(m1, node);
    GoAddCasHead(Alone(called, t, 3), t, Stored(m1, node), h1, o - {node}, node, ReturnFromAdd);
    AloneMore(called, t, 3, 1);
    Withs(Stored(m, node).(head := Some(node)), t, Idle, Idle);
  }

  lemma StoredKeeps(m: Machine, node: Node)
    ensures var s := Stored(m, node);
            s.head == m.head && s.pc == m.pc && node in s.refs && node in s.next
  {
  }

  lemma OwnedWord(m: Machine, h: History, node: Node)
    requires Inv(m, h) && node in h.phase && h.phase[node] == Owned
    ensures node in m.refs && node in m.next && m.refs[node] == |Holders(m.pc, node)| <= REFS_MASK
    ensures m.refs[node] == 0 <==> Holders(m.pc, node) == {}
  {
    hide ThreadOk, ChainOk;
    assert node in m.refs && NodeOk(m, h, node);
    HoldersBounded(m.pc, node);
  }

  function Flagged(m: Machine, node: Node): Machine
    requires node in m.refs
  {
    m.(refs := m.refs[node := m.refs[node] + SHOULD_BE_ON_FREELIST])
  }

  lemma AddsHeld(r: FreeList.Run, t: Thread, m: Machine, h: History, o: set<Node>, node: Node)
    requires IsAt(r, m, h, o) && t in m.pc && m.pc[t] == Idle
    requires node in m.refs && node in h.phase && h.phase[node] == Owned && 0 < m.refs[node] <= REFS_MASK
    ensures IsAt(Then(r, Event(t, CallAdd(node))), Flagged(m, node), h.(phase := h.phase[node := Waiting]), o - {node})
  {
    CalledAdd(r, t, m, h, o, node);
    hide IsAt;
    Withs(Flagged(m, node), t, Idle, Idle);
  }

  // Main result: a node that a client gives back alone becomes the first of the list, unless a
  // thread inside `try_get` still holds it: then it is flagged, and left to the last of these.
  lemma SoloAdd(r: FreeList.Run, t: Thread, node: Node)
    requires Legal(r) && t in Final(r).0.pc && Final(r).0.pc[t] == Idle && node in Outside(r)
    ensures var (m, h) := Final(r);
            var called := Then(r, Event(t, CallAdd(node)));
            && node in m.refs
            && if Holders(m.pc, node) == {} then
                 IsAt(Alone(called, t, 4), Stored(m, node).(head := Some(node)),
                      History(h.phase[node := Listed], [node] + h.list), Outside(r) - {node})
               else
                 IsAt(called, Flagged(m, node), h.(phase := h.phase[node := Waiting]), Outside(r) - {node})
  {
    var (m, h) := Final(r);
    var o := Outside(r);
    hide Inv, Legal, Final, Outside, Alone, Holders, Stored, Flagged;
    OutsideIsOwned(r);
    Reachable(r);
    RunIsAt(r);
    OwnedWord(m, h, node);
    hide IsAt;
    if Holders(m.pc, node) == {} {
      AddsFree(r, t, m, h, o, node);
    } else {
      AddsHeld(r, t, m, h, o, node);
    }
  }

  // ------------------------------------------------------ nobody blocks a thread

  // An upper bound on the accesses that a thread alone still needs, going on from a head it has seen.
  function LoopLeft(m: Machine, head: Option<Node>): nat {
    if head == None then 0 else if m.head == head then 6 else 11
  }

  function ResumeLeft(back: Resume): nat {
    if back.ReturnFromAdd? || back.head == None then 0 else 11
  }

  // ... and from any point of its routines. A thread whose CAS would fail has to try once more; one
  // that holds the last reference to a flagged node has to add that node before.
  function Left(m: Machine, p: Pc): nat
    requires Resolves(m, p)
  {
    match p
    case Idle => 0
    case LoadHead => 7
    case LoadRefs(node) => LoopLeft(m, Some(node))
    case CasRefs(node, refs) => if m.refs[node] != refs then 8 else if m.head == Some(node) then 5 else 10
    case LoadNext(node) => Reading(m, node) + 1
    case CasHead(node, _) => Reading(m, node)
    case CheckFlag(_) => 2
    case DropTwo(_) => 1
    case DropOne(node, head) => if LastOfFlagged(m, node) then 16 else 1 + LoopLeft(m, head)
    case AddLoadHead(_, back) => 4 + ResumeLeft(back)
    case AddStoreNext(_, head, back) => (if head == m.head then 3 else 7) + ResumeLeft(back)
    case AddStoreRefs(_, head, back) => (if head == m.head then 2 else 6) + ResumeLeft(back)
    case AddCasHead(_, head, back) => (if head == m.head then 1 else 5) + ResumeLeft(back)
    case AddRelease(node, head, back) =>
      (if m.refs[node] != 1 then 1 else if head == m.head then 4 else 8) + ResumeLeft(back)
  }

  predicate LastOfFlagged(m: Machine, node: Node)
    requires node in m.refs
  {
    m.refs[node] == SHOULD_BE_ON_FREELIST + 1
  }

  function Reading(m: Machine, node: Node): nat
    requires node in m.refs
  {
    if m.head == Some(node) then 3 else if LastOfFlagged(m, node) then 17 else 8
  }

  lemma LeftBound(m: Machine, p: Pc)
    requires Resolves(m, p)
    ensures Left(m, p) <= 19 && (Left(m, p) == 0 ==> p == Idle)
  {
  }

  lemma HeadWord(m: Machine, h: History)
    requires Inv(m, h) && m.head.Some?
    ensures m.head.value in m.refs && 1 <= m.refs[m.head.value] <= REFS_MASK
  {
    hide Inv;
    HeadIsFirst(m, h);
    ListedWord(m, h, 0);
  }

  ghost predicate GoesDown(m: Machine, t: Thread)
    requires t in m.pc && !m.pc[t].Idle? && Resolves(m, m.pc[t])
  {
    var m' := RunStep(m, t);
    t in m'.pc && Resolves(m', m'.pc[t]) && Left(m', m'.pc[t]) < Left(m, m.pc[t])
  }

  lemma TakingGoesDown(m: Machine, t: Thread)
    requires t in m.pc && Resolves(m, m.pc[t]) && m.refs.Keys == m.next.Keys
    requires m.pc[t].LoadNext? || m.pc[t].CasHead? || m.pc[t].CheckFlag? || m.pc[t].DropTwo?
    requires m.pc[t].CasHead? && m.head.Some? ==> m.head.value in m.refs
    ensures GoesDown(m, t)
  {
  }

  lemma LookingGoesDown(m: Machine, t: Thread)
    requires t in m.pc && Resolves(m, m.pc[t]) && m.refs.Keys == m.next.Keys
    requires m.pc[t].LoadHead? || m.pc[t].LoadRefs? || m.pc[t].CasRefs?
    requires m.head.Some? ==> m.head.value in m.refs && 1 <= m.refs[m.head.value] <= REFS_MASK
    requires m.pc[t].CasRefs? ==> RefCount(m.pc[t].refs) != 0
    ensures GoesDown(m, t)
  {
  }

  lemma DroppingGoesDown(m: Machine, t: Thread)
    requires t in m.pc && Resolves(m, m.pc[t]) && m.pc[t].DropOne? && m.refs.Keys == m.next.Keys
    requires Known(m, m.pc[t].head)
    ensures GoesDown(m, t)
  {
  }

  lemma AddingGoesDown(m: Machine, t: Thread)
    requires t in m.pc && Resolves(m, m.pc[t]) && m.refs.Keys == m.next.Keys
    requires m.pc[t].AddLoadHead? || m.pc[t].AddStoreNext? || m.pc[t].AddStoreRefs? || m.pc[t].AddCasHead?
    requires ResumeOk(m, m.pc[t].resume) && Known(m, m.head)
    ensures GoesDown(m, t)
  {
  }

  lemma ReleasingGoesDown(m: Machine, t: Thread)
    requires t in m.pc && Resolves(m, m.pc[t]) && m.pc[t].AddRelease? && m.refs.Keys == m.next.Keys
    requires ResumeOk(m, m.pc[t].resume)
    ensures GoesDown(m, t)
  {
  }

  // Every access of a thread brings it nearer to the end of its call, if the others do nothing.
  lemma Descends(m: Machine, h: History, t: Thread)
    requires Inv(m, h) && t in m.pc && !m.pc[t].Idle? && Resolves(m, m.pc[t])
    ensures GoesDown(m, t)
  {
    hide Inv, NodeOk, ChainOk, Holders, GoesDown, RunStep;
    Parts(m, h, t);
    if m.head.Some? { HeadWord(m, h); }
    match m.pc[t] {
      case LoadHead => LookingGoesDown(m, t);
      case LoadRefs(_) => LookingGoesDown(m, t);
      case CasRefs(_, _) => LookingGoesDown(m, t);
      case DropOne(_, _) => DroppingGoesDown(m, t);
      case AddLoadHead(_, _) => AddingGoesDown(m, t);
      case AddStoreNext(_, _, _) => AddingGoesDown(m, t);
      case AddStoreRefs(_, _, _) => AddingGoesDown(m, t);
      case AddCasHead(_, _, _) => AddingGoesDown(m, t);
      case AddRelease(_, _, _) => ReleasingGoesDown(m, t);
      case _ => TakingGoesDown(m, t);
    }
  }

  ghost predicate Runnable(r: FreeList.Run, t: Thread) {
    Legal(r) && t in Final(r).0.pc && Resolves(Final(r).0, Final(r).0.pc[t])
  }

  ghost function Remaining(r: FreeList.Run, t: Thread): nat
    requires Runnable(r, t)
  {
    Left(Final(r).0, Final(r).0.pc[t])
  }

  ghost predicate Through(r: FreeList.Run, t: Thread) { Legal(r) && t in Final(r).0.pc && Final(r).0.pc[t] == Idle }

  lemma Nearer(r: FreeList.Run, t: Thread)
    requires Runnable(r, t) && !Through(r, t)
    ensures Runnable(Alone(r, t, 1), t) && Remaining(Alone(r, t, 1), t) < Remaining(r, t)
  {
    var (m, h) := Final(r);
    Reachable(r);
    RunIsAt(r);
    OneMore(r, t, m, h, Outside(r));
    hide Inv, Left, RunStep, Record, Outside, Alone;
    Descends(m, h, t);
  }

  lemma {:induction false} Finishes(r: FreeList.Run, t: Thread) returns (n: nat)
    requires Runnable(r, t)
    ensures n <= Remaining(r, t) && Through(Alone(r, t, n), t)
    decreases Remaining(r, t)
  {
    if Through(r, t) {
      n := 0;
    } else {
      hide Runnable, Remaining, Through;
      Nearer(r, t);
      var k := Finishes(Alone(r, t, 1), t);
      AloneMore(r, t, 1, k);
      n := 1 + k;
    }
  }

  // Main result: whatever the others have done and wherever they have stopped, a thread that goes on
  // alone is through with its call after at most 19 accesses.
  lemma ObstructionFree(r: FreeList.Run, t: Thread) returns (n: nat)
    requires Legal(r) && t in Final(r).0.pc
    ensures n <= 19 && Legal(Alone(r, t, n))
    ensures t in Final(Alone(r, t, n)).0.pc && Final(Alone(r, t, n)).0.pc[t] == Idle
  {
    var (m, h) := Final(r);
    if !m.pc[t].Idle? { NeverStuck(r, t); }
    LeftBound(m, m.pc[t]);
    hide Legal, Final, Left, Resolves;
    n := Finishes(r, t);
  }

  // -------------------------------------------------- when a call returns nothing

  // Thread t is inside `try_get`, including an add that `try_get` makes on the way.
  predicate Getting(p: Pc) {
    match p
    case Idle => false
    case AddLoadHead(_, back) => back.ContinueTryGet?
    case AddStoreNext(_, _, back) => back.ContinueTryGet?
    case AddStoreRefs(_, _, back) => back.ContinueTryGet?
    case AddCasHead(_, _, back) => back.ContinueTryGet?
    case AddRelease(_, _, back) => back.ContinueTryGet?
    case _ => true
  }

  // ... and the head that it has seen last, and will go on from, was null.
  predicate HasSeenNull(p: Pc) {
    match p
    case DropOne(_, head) => head == None
    case AddLoadHead(_, back) => back == ContinueTryGet(None)
    case AddStoreNext(_, _, back) => back == ContinueTryGet(None)
    case AddStoreRefs(_, _, back) => back == ContinueTryGet(None)
    case AddCasHead(_, _, back) => back == ContinueTryGet(None)
    case AddRelease(_, _, back) => back == ContinueTryGet(None)
    case _ => false
  }

  // At some moment since t last called `try_get` there was no node on the list.
  ghost predicate SawEmpty(r: FreeList.Run, t: Thread) {
    match r
    case Start(_, _) => false
    case Then(before, e) =>
      e != Event(t, CallTryGet) && (SawEmpty(before, t) || (Legal(before) && Final(before).1.list == []))
  }

  // One event of a run: what it means that t goes on from a null head, or gives up.
  lemma NullStep(m: Machine, h: History, e: Event, t: Thread)
    requires Inv(m, h) && Enabled(m, h, e.thread, e.action) && t in m.pc
    ensures var m' := Step(m, e.thread, e.action);
            && t in m'.pc
            && (e == Event(t, CallTryGet) ==> !HasSeenNull(m'.pc[t]))
            && (e != Event(t, CallTryGet) && HasSeenNull(m'.pc[t]) && !HasSeenNull(m.pc[t]) ==> m.head == None)
            && (Getting(m.pc[t]) && m'.pc[t] == Idle && !m.pc[t].DropTwo? && !HasSeenNull(m.pc[t]) ==> m.head == None)
  {
    hide Inv;
  }

  lemma NullIsEmpty(m: Machine, h: History)
    requires Inv(m, h) && m.head == None
    ensures h.list == []
  {
    hide NodeOk, ThreadOk;
  }

  lemma {:induction false} SeenNullSawEmpty(r: FreeList.Run, t: Thread)
    requires Legal(r) && t in Final(r).0.pc && HasSeenNull(Final(r).0.pc[t])
    ensures SawEmpty(r, t)
  {
    match r
    case Start(_, _) =>
    case Then(before, e) =>
      var (m, h) := Final(before);
      assert t in m.pc;
      Reachable(before);
      NullStep(m, h, e, t);
      hide Inv, Step, Record, Enabled;
      if HasSeenNull(m.pc[t]) { SeenNullSawEmpty(before, t); } else { NullIsEmpty(m, h); }
  }

  // Main result: a call that returns nothing is right to do so: at some moment during the call the
  // list was empty, however many threads were at it.
  lemma NothingMeansEmpty(r: FreeList.Run, t: Thread)
    requires Legal(r) && t in Final(r).0.pc && Getting(Final(r).0.pc[t])
    requires var next := Then(r, Event(t, Action.Run));
             Legal(next) && Final(next).0.pc[t] == Idle && Outside(next) == Outside(r)
    ensures SawEmpty(Then(r, Event(t, Action.Run)), t)
  {
    var (m, h) := Final(r);
    Reachable(r);
    NullStep(m, h, Event(t, Action.Run), t);
    if m.pc[t].DropTwo? { TakenIsNew(r, t); }
    hide Inv, Step, Record, Enabled, Outside;
    if HasSeenNull(m.pc[t]) { SeenNullSawEmpty(r, t); } else if !m.pc[t].DropTwo? { NullIsEmpty(m, h); }
  }

  lemma TakenIsNew(r: FreeList.Run, t: Thread)
    requires Legal(r) && t in Final(r).0.pc && Final(r).0.pc[t].DropTwo? && Legal(Then(r, Event(t, Action.Run)))
    ensures Outside(Then(r, Event(t, Action.Run))) != Outside(r)
  {
    var (m, h) := Final(r);
    Reachable(r);
    OutsideIsOwned(r);
    Parts(m, h, t);
    hide Inv, ChainOk, NodeOk;
    assert m.pc[t].node !in Outside(r);
  }

  lemma GoFailedCas(r: FreeList.Run, t: Thread, m: Machine, h: History, o: set<Node>, node: Node, next: Option<Node>)
    requires IsAt(r, m, h, o) && t in m.pc && m.pc[t] == CasHead(node, next) && m.head != Some(node)
    requires node in m.refs && node in m.next
    ensures IsAt(Alone(r, t, 1), With(m, t, DropOne(node, m.head)), h, o)
  {
    hide IsAt;
    OneMore(r, t, m, h, o);
  }

  // Where a thread goes on when it has dropped a node it could not take, having seen some head.
  function GoesOn(m: Machine, node: Node, seen: Option<Node>): Pc
    requires node in m.refs
  {
    if m.refs[node] == SHOULD_BE_ON_FREELIST + 1 then AddLoadHead(node, ContinueTryGet(seen))
    else match seen
         case None => Idle
         case Some(first) => LoadRefs(first)
  }

  lemma GoDropOne(r: FreeList.Run, t: Thread, m: Machine, h: History, o: set<Node>, node: Node, seen: Option<Node>)
    requires t in m.pc && IsAt(r, With(m, t, DropOne(node, seen)), h, o) && node in m.refs && node in m.next
    ensures Legal(Alone(r, t, 1)) && t in Final(Alone(r, t, 1)).0.pc
    ensures Final(Alone(r, t, 1)).0.pc[t] == GoesOn(m, node, seen)
  {
    OneMore(r, t, With(m, t, DropOne(node, seen)), h, o);
    hide Legal, Final, Outside, Alone;
  }

  // A head CAS that fails goes on with the head that it found, after dropping its reference; only if
  // that was the last one to a flagged node, the node has to be added first.
  lemma FailedCasGoesOn(r: FreeList.Run, t: Thread, node: Node, next: Option<Node>)
    requires Legal(r) && t in Final(r).0.pc && Final(r).0.pc[t] == CasHead(node, next) && Final(r).0.head != Some(node)
    ensures var m, r' := Final(r).0, Alone(r, t, 2);
            Legal(r') && t in Final(r').0.pc && node in m.refs && Final(r').0.pc[t] == GoesOn(m, node, m.head)
  {
    var (m, h) := Final(r);
    hide Inv, Outside, Alone, Legal, Final, ThreadOk, NodeOk, ChainOk, GoesOn;
    Reachable(r);
    Parts(m, h, t);
    RunIsAt(r);
    hide IsAt;
    GoFailedCas(r, t, m, h, Outside(r), node, next);
    GoDropOne(Alone(r, t, 1), t, m, h, Outside(r), node, m.head);
    AloneMore(r, t, 1, 1);
  }
}
