/**
 The lock-free free list of the multi-producer queue, as an interleaving of any
 number of threads, each step making one atomic access.

 `Machine` is what the program has: the head pointer, the reference word and the
 next pointer of every node, and the program counter of every thread. `History`
 is what a proof needs beside it: where each node is, and the chain that the next
 pointers spell. No step of the machine looks at the history.
 */
module FreeList {
  import opened Options
  import opened Sets

  type Node = nat
  type Thread = nat

  const REFS_MASK: nat := 0x7FFF_FFFF
  const SHOULD_BE_ON_FREELIST: nat := 0x8000_0000
  const WORD: nat := 0x1_0000_0000

  // 32-bit atomic arithmetic on a reference word.
  function FetchAdd(word: nat, amount: nat): nat { (word + amount) % WORD }

  function FetchSub(word: nat, amount: nat): nat
    requires amount <= WORD
  {
    (word + WORD - amount) % WORD
  }

  function RefCount(word: nat): nat { word % SHOULD_BE_ON_FREELIST }

  predicate IsFlagged(word: nat) { word / SHOULD_BE_ON_FREELIST % 2 == 1 }

  // What a thread does once `add_knowing_refcount_is_zero` returns.
  datatype Resume = ReturnFromAdd | ContinueTryGet(head: Option<Node>)

  // The next atomic access of a thread, with its local variables.
  datatype Pc =
    | Idle
    | LoadHead
    | LoadRefs(node: Node)
    | CasRefs(node: Node, refs: nat)
    | LoadNext(node: Node)
    | CasHead(node: Node, next: Option<Node>)
    | CheckFlag(node: Node)
    | DropTwo(node: Node)
    | DropOne(node: Node, head: Option<Node>)
    | AddLoadHead(node: Node, resume: Resume)
    | AddStoreNext(node: Node, head: Option<Node>, resume: Resume)
    | AddStoreRefs(node: Node, head: Option<Node>, resume: Resume)
    | AddCasHead(node: Node, head: Option<Node>, resume: Resume)
    | AddRelease(node: Node, head: Option<Node>, resume: Resume)

  datatype Machine = Machine(
    head: Option<Node>,
    refs: map<Node, nat>,
    next: map<Node, Option<Node>>,
    pc: map<Thread, Pc>)

  datatype Phase = Owned | Waiting | Adding(adder: Thread) | Listed | Taken(taker: Thread)

  datatype History = History(phase: map<Node, Phase>, list: seq<Node>)

  datatype Action = Create(node: Node) | CallAdd(node: Node) | CallTryGet | Run

  // ---------------------------------------------------------------- the steps

  function LoopWith(head: Option<Node>): Pc {
    match head
    case None => Idle
    case Some(node) => LoadRefs(node)
  }

  function Resumed(resume: Resume): Pc {
    match resume
    case ReturnFromAdd => Idle
    case ContinueTryGet(head) => LoopWith(head)
  }

  // Nodes that a program counter mentions exist.
  predicate Resolves(m: Machine, p: Pc) {
    match p
    case Idle => true
    case LoadHead => true
    case _ => p.node in m.refs && p.node in m.next
  }

  predicate Enabled(m: Machine, h: History, t: Thread, a: Action) {
    && t in m.pc
    && match a
       case Create(node) => node !in m.refs && node !in m.next && node !in h.phase
       case CallAdd(node) => m.pc[t].Idle? && node in m.refs && node in h.phase && h.phase[node] == Owned
       case CallTryGet => m.pc[t].Idle?
       case Run => !m.pc[t].Idle? && Resolves(m, m.pc[t])
  }

  // One atomic access by thread t inside `try_get` or `add_knowing_refcount_is_zero`.
  function RunStep(m: Machine, t: Thread): Machine
    requires t in m.pc && !m.pc[t].Idle? && Resolves(m, m.pc[t])
  {
    match m.pc[t]
    case LoadHead => m.(pc := m.pc[t := LoopWith(m.head)])
    case LoadRefs(node) =>
      if RefCount(m.refs[node]) == 0
      then m.(pc := m.pc[t := LoadHead])
      else m.(pc := m.pc[t := CasRefs(node, m.refs[node])])
    case CasRefs(node, refs) =>
      if m.refs[node] == refs
      then m.(refs := m.refs[node := FetchAdd(refs, 1)], pc := m.pc[t := LoadNext(node)])
      else m.(pc := m.pc[t := LoadHead])
    case LoadNext(node) => m.(pc := m.pc[t := CasHead(node, m.next[node])])
    case CasHead(node, next) =>
      if m.head == Some(node)
      then m.(head := next, pc := m.pc[t := CheckFlag(node)])
      else m.(pc := m.pc[t := DropOne(node, m.head)])
    case CheckFlag(node) => m.(pc := m.pc[t := DropTwo(node)])
    case DropTwo(node) => m.(refs := m.refs[node := FetchSub(m.refs[node], 2)], pc := m.pc[t := Idle])
    case DropOne(node, head) =>
      m.(refs := m.refs[node := FetchSub(m.refs[node], 1)],
      pc := m.pc[t := if m.refs[node] == SHOULD_BE_ON_FREELIST + 1
                      then AddLoadHead(node, ContinueTryGet(head))
                      else LoopWith(head)])
    case AddLoadHead(node, resume) => m.(pc := m.pc[t := AddStoreNext(node, m.head, resume)])
    case AddStoreNext(node, head, resume) =>
      m.(next := m.next[node := head], pc := m.pc[t := AddStoreRefs(node, head, resume)])
    case AddStoreRefs(node, head, resume) =>
      m.(refs := m.refs[node := 1], pc := m.pc[t := AddCasHead(node, head, resume)])
    case AddCasHead(node, head, resume) =>
      if m.head == head
      then m.(head := Some(node), pc := m.pc[t := Resumed(resume)])
      else m.(pc := m.pc[t := AddRelease(node, m.head, resume)])
    case AddRelease(node, head, resume) =>
      m.(refs := m.refs[node := FetchAdd(m.refs[node], SHOULD_BE_ON_FREELIST - 1)],
      pc := m.pc[t := if m.refs[node] == 1 then AddStoreNext(node, head, resume) else Resumed(resume)])
  }

  function Step(m: Machine, t: Thread, a: Action): Machine
    requires t in m.pc
    requires a.CallAdd? ==> a.node in m.refs
    requires a.Run? ==> !m.pc[t].Idle? && Resolves(m, m.pc[t])
  {
    match a
    case Create(node) => m.(refs := m.refs[node := 0], next := m.next[node := None])
    case CallAdd(node) =>
      m.(refs := m.refs[node := FetchAdd(m.refs[node], SHOULD_BE_ON_FREELIST)],
      pc := m.pc[t := if m.refs[node] == 0 then AddLoadHead(node, ReturnFromAdd) else Idle])
    case CallTryGet => m.(pc := m.pc[t := LoadHead])
    case Run => RunStep(m, t)
  }

  // How a step moves nodes between phases, and what it does to the chain.
  function Record(m: Machine, h: History, t: Thread, a: Action): History
    requires Enabled(m, h, t, a)
  {
    match a
    case Create(node) => h.(phase := h.phase[node := Owned])
    case CallAdd(node) => h.(phase := h.phase[node := if m.refs[node] == 0 then Adding(t) else Waiting])
    case CallTryGet => h
    case Run =>
      match m.pc[t]
      case CasHead(node, next) =>
        if m.head == Some(node) && |h.list| > 0
        then History(h.phase[node := Taken(t)], h.list[1..])
        else h
      case DropTwo(node) => h.(phase := h.phase[node := Owned])
      case DropOne(node, head) =>
        if m.refs[node] == SHOULD_BE_ON_FREELIST + 1 then h.(phase := h.phase[node := Adding(t)]) else h
      case AddCasHead(node, head, resume) =>
        if m.head == head then History(h.phase[node := Listed], [node] + h.list) else h
      case AddRelease(node, head, resume) =>
        if m.refs[node] == 1 then h else h.(phase := h.phase[node := Waiting])
      case _ => h
  }

  // ------------------------------------------------------------ the invariant

  predicate Holds(p: Pc, node: Node) {
    match p
    case LoadNext(n) => n == node
    case CasHead(n, _) => n == node
    case CheckFlag(n) => n == node
    case DropTwo(n) => n == node
    case DropOne(n, _) => n == node
    case _ => false
  }

  // The threads between taking a reference to the node and dropping it.
  function Holders(pc: map<Thread, Pc>, node: Node): set<Thread> {
    set t | t in pc && Holds(pc[t], node)
  }

  predicate BeforeRefsStore(p: Pc, node: Node) {
    match p
    case AddLoadHead(n, _) => n == node
    case AddStoreNext(n, _, _) => n == node
    case AddStoreRefs(n, _, _) => n == node
    case _ => false
  }

  predicate AfterRefsStore(p: Pc, node: Node) {
    match p
    case AddCasHead(n, _, _) => n == node
    case AddRelease(n, _, _) => n == node
    case _ => false
  }

  predicate JustTook(p: Pc, node: Node) {
    match p
    case CheckFlag(n) => n == node
    case DropTwo(n) => n == node
    case _ => false
  }

  predicate Known(m: Machine, pointer: Option<Node>) {
    pointer.Some? ==> pointer.value in m.refs
  }

  predicate ThreadOk(m: Machine, h: History, t: Thread)
    requires t in m.pc && m.next.Keys == m.refs.Keys && h.phase.Keys == m.refs.Keys
  {
    match m.pc[t]
    case Idle => true
    case LoadHead => true
    case LoadRefs(node) => node in m.refs
    case CasRefs(node, refs) => node in m.refs && RefCount(refs) != 0
    case LoadNext(node) => node in m.refs
    case CasHead(node, next) => node in m.refs && m.next[node] == next
    case CheckFlag(node) => node in m.refs && h.phase[node] == Taken(t)
    case DropTwo(node) => node in m.refs && h.phase[node] == Taken(t)
    case DropOne(node, head) => node in m.refs && Known(m, head)
    case AddLoadHead(node, resume) =>
      node in m.refs && h.phase[node] == Adding(t) && ResumeOk(m, resume)
    case AddStoreNext(node, head, resume) =>
      node in m.refs && h.phase[node] == Adding(t) && ResumeOk(m, resume) && Known(m, head)
    case AddStoreRefs(node, head, resume) =>
      node in m.refs && h.phase[node] == Adding(t) && ResumeOk(m, resume) && Known(m, head) && m.next[node] == head
    case AddCasHead(node, head, resume) =>
      node in m.refs && h.phase[node] == Adding(t) && ResumeOk(m, resume) && Known(m, head) && m.next[node] == head
    case AddRelease(node, head, resume) =>
      node in m.refs && h.phase[node] == Adding(t) && ResumeOk(m, resume) && Known(m, head)
  }

  predicate ResumeOk(m: Machine, resume: Resume) {
    resume.ContinueTryGet? ==> Known(m, resume.head)
  }

  // The reference word of a node: the list's reference, if it is outstanding, plus
  // one for every holder, and the flag exactly while the node waits to be added.
  predicate NodeOk(m: Machine, h: History, node: Node)
    requires node in m.refs && node in h.phase
  {
    var held := |Holders(m.pc, node)|;
    match h.phase[node]
    case Owned => m.refs[node] == held
    case Waiting => held > 0 && m.refs[node] == SHOULD_BE_ON_FREELIST + held
    case Listed => m.refs[node] == 1 + held
    case Taken(t) => t in m.pc && JustTook(m.pc[t], node) && m.refs[node] == 1 + held
    case Adding(t) =>
      && t in m.pc
      && ((BeforeRefsStore(m.pc[t], node) && held == 0 && m.refs[node] == SHOULD_BE_ON_FREELIST)
          || (AfterRefsStore(m.pc[t], node) && m.refs[node] == 1 + held))
  }

  function At(list: seq<Node>, i: nat): Option<Node> {
    if i < |list| then Some(list[i]) else None
  }

  // The next pointers from the head spell the list, which ends in null and repeats nothing.
  predicate ChainOk(m: Machine, h: History)
    requires m.next.Keys == m.refs.Keys && h.phase.Keys == m.refs.Keys
  {
    && m.head == At(h.list, 0)
    && (forall i :: 0 <= i < |h.list| ==>
          && h.list[i] in m.refs
          && h.phase[h.list[i]] == Listed
          && m.next[h.list[i]] == At(h.list, i + 1))
    && (forall i, j :: 0 <= i < j < |h.list| ==> h.list[i] != h.list[j])
    && (forall node :: node in m.refs && h.phase[node] == Listed ==> node in h.list)
  }

  ghost predicate Inv(m: Machine, h: History) {
    && m.next.Keys == m.refs.Keys
    && h.phase.Keys == m.refs.Keys
    && |m.pc| < REFS_MASK
    && (forall t :: t in m.pc ==> ThreadOk(m, h, t))
    && (forall node :: node in m.refs ==> NodeOk(m, h, node))
    && ChainOk(m, h)
  }

  predicate Init(m: Machine, h: History) {
    && m.head == None
    && m.refs == map[] && m.next == map[] && h.phase == map[]
    && h.list == []
    && |m.pc| < REFS_MASK
    && forall t :: t in m.pc ==> m.pc[t] == Idle
  }

  lemma InitInv(m: Machine, h: History)
    requires Init(m, h)
    ensures Inv(m, h)
  {
  }

  // ------------------------------------------------- counting the holders

  lemma HoldersAfter(pc: map<Thread, Pc>, t: Thread, p: Pc, node: Node)
    requires t in pc
    ensures |Holders(pc[t := p], node)| ==
            |Holders(pc, node)| - (if Holds(pc[t], node) then 1 else 0) + (if Holds(p, node) then 1 else 0)
  {
    assert Holders(pc[t := p], node) == Holders(pc, node) - {t} + (if Holds(p, node) then {t} else {});
    assert t in Holders(pc, node) <==> Holds(pc[t], node);
  }

  lemma HoldersBounded(pc: map<Thread, Pc>, node: Node)
    ensures |Holders(pc, node)| <= |pc|
  {
    SubsetSize(Holders(pc, node), pc.Keys);
  }

  // What a program counter means for the account of a node.
  function Role(p: Pc, node: Node): (bool, bool, bool, bool) {
    (Holds(p, node), BeforeRefsStore(p, node), AfterRefsStore(p, node), JustTook(p, node))
  }

  // A step of thread t that changes neither a node's word nor its phase nor t's
  // role in it keeps the node's account balanced.
  lemma OtherNode(m: Machine, h: History, m': Machine, h': History, t: Thread, node: Node)
    requires node in m.refs && node in h.phase && NodeOk(m, h, node) && t in m.pc
    requires t in m'.pc && m'.pc == m.pc[t := m'.pc[t]]
    requires node in m'.refs && m'.refs[node] == m.refs[node]
    requires node in h'.phase && h'.phase[node] == h.phase[node]
    requires Role(m.pc[t], node) == Role(m'.pc[t], node)
    ensures NodeOk(m', h', node)
  {
    HoldersAfter(m.pc, t, m'.pc[t], node);
  }

  // A thread whose nodes a step of another thread leaves alone is still in order.
  lemma OtherThread(m: Machine, h: History, m': Machine, h': History, u: Thread)
    requires u in m.pc && m.next.Keys == m.refs.Keys && h.phase.Keys == m.refs.Keys
    requires u in m'.pc && m'.next.Keys == m'.refs.Keys && h'.phase.Keys == m'.refs.Keys
    requires m.refs.Keys <= m'.refs.Keys && m'.pc[u] == m.pc[u]
    requires forall n :: n in m.refs && h.phase[n] in {Adding(u), Taken(u)} ==> h'.phase[n] == h.phase[n]
    requires forall n :: n in m.refs && m'.next[n] != m.next[n] ==>
               !Holds(m.pc[u], n) && h.phase[n] != Adding(u)
    requires ThreadOk(m, h, u)
    ensures ThreadOk(m', h', u)
  {
  }

  lemma HeadKnown(m: Machine, h: History)
    requires m.next.Keys == m.refs.Keys && h.phase.Keys == m.refs.Keys && ChainOk(m, h)
    ensures Known(m, m.head)
  {
  }

  lemma SameChain(m: Machine, h: History, m': Machine, h': History)
    requires m.next.Keys == m.refs.Keys && h.phase.Keys == m.refs.Keys && ChainOk(m, h)
    requires m'.next.Keys == m'.refs.Keys && h'.phase.Keys == m'.refs.Keys
    requires m'.head == m.head && h'.list == h.list && m.refs.Keys <= m'.refs.Keys
    requires forall n :: n in m.refs && h.phase[n] == Listed ==> h'.phase[n] == Listed && m'.next[n] == m.next[n]
    requires forall n :: n in m'.refs && h'.phase[n] == Listed ==> n in m.refs && h.phase[n] == Listed
    ensures ChainOk(m', h')
  {
  }

  // ------------------------------------------------------- every step keeps it

  ghost predicate Kept(m: Machine, h: History, t: Thread, a: Action)
    requires Enabled(m, h, t, a)
  {
    Inv(Step(m, t, a), Record(m, h, t, a))
  }

  lemma NoHolderOfUnknown(m: Machine, h: History, node: Node)
    requires Inv(m, h) && node !in m.refs
    ensures Holders(m.pc, node) == {}
  {
    forall u | u in m.pc ensures !Holds(m.pc[u], node) { assert ThreadOk(m, h, u); }
  }

  lemma KeepsCreate(m: Machine, h: History, t: Thread, a: Action)
    requires Inv(m, h) && Enabled(m, h, t, a) && a.Create?
    ensures Kept(m, h, t, a)
  {
    hide ThreadOk, ChainOk;
    var m', h' := Step(m, t, a), Record(m, h, t, a);
    forall u | u in m'.pc ensures ThreadOk(m', h', u) { OtherThread(m, h, m', h', u); }
    forall n | n in m'.refs ensures NodeOk(m', h', n) {
      if n == a.node { NoHolderOfUnknown(m, h, n); } else { assert NodeOk(m, h, n); }
    }
    SameChain(m, h, m', h');
  }

  lemma AddedNode(m: Machine, h: History, t: Thread, node: Node)
    requires Inv(m, h) && Enabled(m, h, t, CallAdd(node))
    ensures NodeOk(Step(m, t, CallAdd(node)), Record(m, h, t, CallAdd(node)), node)
    ensures !IsFlagged(m.refs[node])
  {
    hide ThreadOk, ChainOk;
    assert NodeOk(m, h, node);
    HoldersAfter(m.pc, t, Step(m, t, CallAdd(node)).pc[t], node);
    HoldersBounded(m.pc, node);
  }

  predicate OfAnother(p: Phase, t: Thread) {
    (p.Adding? && p.adder != t) || (p.Taken? && p.taker != t)
  }

  // The whole effect of one step by thread t on one node.
  ghost predicate Touches(m: Machine, h: History, m': Machine, h': History, t: Thread, node: Node) {
    && t in m.pc && node in m.refs
    && m'.refs.Keys == m'.next.Keys == h'.phase.Keys == m.refs.Keys == m.next.Keys == h.phase.Keys
    && t in m'.pc && m'.pc == m.pc[t := m'.pc[t]]
    && (forall n :: n in m.refs && n != node ==>
          && m'.refs[n] == m.refs[n] && m'.next[n] == m.next[n] && h'.phase[n] == h.phase[n]
          && Role(m.pc[t], n) == Role(m'.pc[t], n))
    && (h'.phase[node] != h.phase[node] ==> !OfAnother(h.phase[node], t))
    && (m'.next[node] != m.next[node] ==> Holders(m.pc, node) == {} && h.phase[node] == Adding(t))
  }

  lemma OtherNodes(m: Machine, h: History, m': Machine, h': History, t: Thread, node: Node)
    requires Inv(m, h) && Touches(m, h, m', h', t, node)
    ensures forall n :: n in m.refs && n != node ==> NodeOk(m', h', n)
  {
    hide NodeOk, ThreadOk, ChainOk, Role;
    forall n | n in m.refs && n != node ensures NodeOk(m', h', n) { OtherNode(m, h, m', h', t, n); }
  }

  lemma OtherThreads(m: Machine, h: History, m': Machine, h': History, t: Thread, node: Node)
    requires Inv(m, h) && Touches(m, h, m', h', t, node)
    ensures forall u :: u in m.pc && u != t ==> ThreadOk(m', h', u)
  {
    hide NodeOk, ThreadOk, ChainOk, Role, Holds;
    forall u | u in m.pc && u != t
      ensures ThreadOk(m', h', u)
    {
      assert Holders(m.pc, node) == {} ==> !Holds(m.pc[u], node) by {
        if Holds(m.pc[u], node) { assert u in Holders(m.pc, node); }
      }
      OtherThread(m, h, m', h', u);
    }
  }

  // What a step has to establish: the account of the node it touches, its thread's
  // own assertion, and the chain. Everything else it leaves alone.
  lemma FromParts(m: Machine, h: History, m': Machine, h': History, t: Thread, node: Node)
    requires Inv(m, h) && Touches(m, h, m', h', t, node)
    requires NodeOk(m', h', node) && ThreadOk(m', h', t) && ChainOk(m', h')
    ensures Inv(m', h')
  {
    hide NodeOk, ThreadOk, ChainOk, Role;
    assert m'.pc.Keys == m.pc.Keys;
    OtherNodes(m, h, m', h', t, node);
    OtherThreads(m, h, m', h', t, node);
  }

  lemma Parts(m: Machine, h: History, t: Thread)
    requires Inv(m, h) && t in m.pc
    ensures m.next.Keys == m.refs.Keys == h.phase.Keys
    ensures ThreadOk(m, h, t) && ChainOk(m, h) && Known(m, m.head)
    ensures !m.pc[t].Idle? && !m.pc[t].LoadHead? ==> m.pc[t].node in m.refs && NodeOk(m, h, m.pc[t].node)
  {
    HeadKnown(m, h);
  }

  lemma ChainCallAdd(m: Machine, h: History, t: Thread, a: Action)
    requires Inv(m, h) && Enabled(m, h, t, a) && a.CallAdd?
    ensures ChainOk(Step(m, t, a), Record(m, h, t, a))
  {
    hide Inv, NodeOk, ChainOk;
    Parts(m, h, t);
    SameChain(m, h, Step(m, t, a), Record(m, h, t, a));
  }

  lemma EffectCallAdd(m: Machine, h: History, t: Thread, a: Action)
    requires Inv(m, h) && Enabled(m, h, t, a) && a.CallAdd?
    ensures var m', h' := Step(m, t, a), Record(m, h, t, a);
            Touches(m, h, m', h', t, a.node) && ThreadOk(m', h', t)
  {
    hide Inv, NodeOk, ChainOk;
    Parts(m, h, t);
  }

  lemma KeepsCallAdd(m: Machine, h: History, t: Thread, a: Action)
    requires Inv(m, h) && Enabled(m, h, t, a) && a.CallAdd?
    ensures Kept(m, h, t, a)
  {
    AddedNode(m, h, t, a.node);
    ChainCallAdd(m, h, t, a);
    EffectCallAdd(m, h, t, a);
    hide Inv, NodeOk, ChainOk, ThreadOk, Touches;
    FromParts(m, h, Step(m, t, a), Record(m, h, t, a), t, a.node);
  }

  // Steps that write neither a word nor a pointer nor the head.
  predicate LocalPc(p: Pc) {
    p.LoadRefs? || p.LoadNext? || p.CheckFlag? || p.AddLoadHead?
  }

  lemma LocalRole(m: Machine, t: Thread, n: Node)
    requires t in m.pc && LocalPc(m.pc[t]) && Resolves(m, m.pc[t])
    ensures Role(m.pc[t], n) == Role(RunStep(m, t).pc[t], n)
  {
  }

  lemma KeepsLocal(m: Machine, h: History, t: Thread, a: Action)
    requires Inv(m, h) && Enabled(m, h, t, a) && a.Run? && LocalPc(m.pc[t])
    ensures Kept(m, h, t, a)
  {
    hide Inv, NodeOk, ChainOk, Role;
    var m', h' := Step(m, t, a), Record(m, h, t, a);
    Parts(m, h, t);
    var node := m.pc[t].node;
    forall n ensures Role(m.pc[t], n) == Role(m'.pc[t], n) { LocalRole(m, t, n); }
    OtherNode(m, h, m', h', t, node);
    SameChain(m, h, m', h');
    FromParts(m, h, m', h', t, node);
  }

  lemma KeepsLoadHead(m: Machine, h: History, t: Thread, a: Action)
    requires Inv(m, h) && Enabled(m, h, t, a) && (a.CallTryGet? || (a.Run? && m.pc[t].LoadHead?))
    ensures Kept(m, h, t, a)
  {
    hide NodeOk, ChainOk, Role, Known;
    var m', h' := Step(m, t, a), Record(m, h, t, a);
    Parts(m, h, t);
    assert ThreadOk(m', h', t) by { Points(m, m.head); }
    hide ThreadOk;
    forall n ensures Role(m.pc[t], n) == Role(m'.pc[t], n) { NoRole(m, h, t, a, n); }
    forall n | n in m.refs ensures NodeOk(m', h', n) { OtherNode(m, h, m', h', t, n); }
    forall u | u in m.pc && u != t ensures ThreadOk(m', h', u) { OtherThread(m, h, m', h', u); }
    assert m'.pc.Keys == m.pc.Keys;
    SameChain(m, h, m', h');
  }

  lemma Points(m: Machine, pointer: Option<Node>)
    requires Known(m, pointer)
    ensures pointer.Some? ==> pointer.value in m.refs
  {
  }

  lemma NoRole(m: Machine, h: History, t: Thread, a: Action, n: Node)
    requires Enabled(m, h, t, a) && (a.CallTryGet? || (a.Run? && m.pc[t].LoadHead?))
    ensures Role(m.pc[t], n) == Role(Step(m, t, a).pc[t], n)
  {
  }

  // A step changes its thread's role only in the node its program counter names.
  lemma OnlyRole(m: Machine, t: Thread, n: Node)
    requires t in m.pc && !m.pc[t].Idle? && !m.pc[t].LoadHead? && Resolves(m, m.pc[t]) && n != m.pc[t].node
    ensures Role(m.pc[t], n) == Role(RunStep(m, t).pc[t], n) == (false, false, false, false)
  {
  }

  lemma BoundedHolders(m: Machine, h: History, t: Thread)
    requires Inv(m, h)
    ensures forall n :: |Holders(m.pc, n)| < REFS_MASK
  {
    forall n ensures |Holders(m.pc, n)| < REFS_MASK { HoldersBounded(m.pc, n); }
  }

  lemma Words(held: nat)
    requires held < REFS_MASK
    ensures RefCount(held) == held && FetchAdd(held, 1) == held + 1
    ensures RefCount(1 + held) == 1 + held && FetchAdd(1 + held, 1) == 1 + (held + 1)
    ensures FetchAdd(SHOULD_BE_ON_FREELIST + held, 1) == SHOULD_BE_ON_FREELIST + (held + 1)
    ensures RefCount(SHOULD_BE_ON_FREELIST) == 0
  {
  }

  lemma AccountCasRefs(m: Machine, h: History, t: Thread)
    requires Inv(m, h) && Enabled(m, h, t, Run) && m.pc[t].CasRefs?
    ensures NodeOk(RunStep(m, t), h, m.pc[t].node)
  {
    hide NodeOk, ChainOk;
    Parts(m, h, t);
    BoundedHolders(m, h, t);
    hide Inv;
    var node, refs := m.pc[t].node, m.pc[t].refs;
    if m.refs[node] == refs {
      Reference(m, h, t, node);
    } else {
      OtherNode(m, h, RunStep(m, t), h, t, node);
    }
  }

  // Taking one more reference to a node that has some.
  lemma Reference(m: Machine, h: History, t: Thread, node: Node)
    requires t in m.pc && node in m.refs && node in m.next && node in h.phase && NodeOk(m, h, node)
    requires m.pc[t] == CasRefs(node, m.refs[node]) && RefCount(m.refs[node]) != 0
    requires |Holders(m.pc, node)| < REFS_MASK
    ensures NodeOk(RunStep(m, t), h, node)
  {
    var held := |Holders(m.pc, node)|;
    HoldersAfter(m.pc, t, LoadNext(node), node);
    Words(held);
    hide FetchAdd, RefCount;
  }

  lemma KeepsCasRefs(m: Machine, h: History, t: Thread, a: Action)
    requires Inv(m, h) && Enabled(m, h, t, a) && a.Run? && m.pc[t].CasRefs?
    ensures Kept(m, h, t, a)
  {
    hide Inv, NodeOk, ChainOk, Role;
    var m', h' := Step(m, t, a), Record(m, h, t, a);
    Parts(m, h, t);
    var node := m.pc[t].node;
    AccountCasRefs(m, h, t);
    SameChain(m, h, m', h');
    forall n | n != node ensures Role(m.pc[t], n) == Role(m'.pc[t], n) { OnlyRole(m, t, n); }
    FromParts(m, h, m', h', t, node);
  }

  lemma AccountDropTwo(m: Machine, h: History, t: Thread)
    requires Inv(m, h) && Enabled(m, h, t, Run) && m.pc[t].DropTwo?
    ensures NodeOk(RunStep(m, t), Record(m, h, t, Run), m.pc[t].node)
  {
    hide ChainOk;
    var node := m.pc[t].node;
    assert ThreadOk(m, h, t) && NodeOk(m, h, node);
    hide Inv;
    HoldersAfter(m.pc, t, RunStep(m, t).pc[t], node);
    HoldersBounded(m.pc, node);
  }

  lemma KeepsDropTwo(m: Machine, h: History, t: Thread, a: Action)
    requires Inv(m, h) && Enabled(m, h, t, a) && a.Run? && m.pc[t].DropTwo?
    ensures Kept(m, h, t, a)
  {
    hide Inv, NodeOk, ChainOk, Role;
    var m', h' := Step(m, t, a), Record(m, h, t, a);
    Parts(m, h, t);
    var node := m.pc[t].node;
    AccountDropTwo(m, h, t);
    SameChain(m, h, m', h');
    forall n | n != node ensures Role(m.pc[t], n) == Role(m'.pc[t], n) { OnlyRole(m, t, n); }
    FromParts(m, h, m', h', t, node);
  }

  lemma AccountDropOne(m: Machine, h: History, t: Thread)
    requires Inv(m, h) && Enabled(m, h, t, Run) && m.pc[t].DropOne?
    ensures Record(m, h, t, Run).phase != h.phase ==> h.phase[m.pc[t].node] == Waiting
    ensures NodeOk(RunStep(m, t), Record(m, h, t, Run), m.pc[t].node)
  {
    hide ChainOk;
    var node := m.pc[t].node;
    assert ThreadOk(m, h, t) && NodeOk(m, h, node);
    hide Inv;
    HoldersAfter(m.pc, t, RunStep(m, t).pc[t], node);
    HoldersBounded(m.pc, node);
  }

  lemma ChainDropOne(m: Machine, h: History, t: Thread, a: Action)
    requires Inv(m, h) && Enabled(m, h, t, a) && a.Run? && m.pc[t].DropOne?
    ensures var h' := Record(m, h, t, a);
            && ChainOk(Step(m, t, a), h')
            && (h'.phase != h.phase ==> !OfAnother(h.phase[m.pc[t].node], t))
  {
    hide Inv, NodeOk, ChainOk;
    Parts(m, h, t);
    AccountDropOne(m, h, t);
    SameChain(m, h, Step(m, t, a), Record(m, h, t, a));
  }

  lemma EffectDropOne(m: Machine, h: History, t: Thread, a: Action)
    requires Inv(m, h) && Enabled(m, h, t, a) && a.Run? && m.pc[t].DropOne?
    ensures var m', h' := Step(m, t, a), Record(m, h, t, a);
            Touches(m, h, m', h', t, m.pc[t].node) && ThreadOk(m', h', t)
  {
    hide Inv, NodeOk, ChainOk, Role;
    Parts(m, h, t);
    ChainDropOne(m, h, t, a);
    var m', node := Step(m, t, a), m.pc[t].node;
    forall n | n != node ensures Role(m.pc[t], n) == Role(m'.pc[t], n) { OnlyRole(m, t, n); }
  }

  lemma KeepsDropOne(m: Machine, h: History, t: Thread, a: Action)
    requires Inv(m, h) && Enabled(m, h, t, a) && a.Run? && m.pc[t].DropOne?
    ensures Kept(m, h, t, a)
  {
    Parts(m, h, t);
    AccountDropOne(m, h, t);
    ChainDropOne(m, h, t, a);
    EffectDropOne(m, h, t, a);
    hide Inv, NodeOk, ChainOk, ThreadOk, Touches, RunStep, Record, Resolves;
    FromParts(m, h, Step(m, t, a), Record(m, h, t, a), t, m.pc[t].node);
  }

  lemma AccountAddStoreRefs(m: Machine, h: History, t: Thread)
    requires Inv(m, h) && Enabled(m, h, t, Run) && m.pc[t].AddStoreRefs?
    ensures NodeOk(RunStep(m, t), Record(m, h, t, Run), m.pc[t].node)
  {
    hide ChainOk;
    var node := m.pc[t].node;
    assert ThreadOk(m, h, t) && NodeOk(m, h, node);
    hide Inv;
    HoldersAfter(m.pc, t, RunStep(m, t).pc[t], node);
    HoldersBounded(m.pc, node);
  }

  lemma KeepsAddStoreRefs(m: Machine, h: History, t: Thread, a: Action)
    requires Inv(m, h) && Enabled(m, h, t, a) && a.Run? && m.pc[t].AddStoreRefs?
    ensures Kept(m, h, t, a)
  {
    hide Inv, NodeOk, ChainOk, Role;
    var m', h' := Step(m, t, a), Record(m, h, t, a);
    Parts(m, h, t);
    var node := m.pc[t].node;
    AccountAddStoreRefs(m, h, t);
    SameChain(m, h, m', h');
    forall n | n != node ensures Role(m.pc[t], n) == Role(m'.pc[t], n) { OnlyRole(m, t, n); }
    FromParts(m, h, m', h', t, node);
  }

  lemma AccountAddRelease(m: Machine, h: History, t: Thread)
    requires Inv(m, h) && Enabled(m, h, t, Run) && m.pc[t].AddRelease?
    ensures NodeOk(RunStep(m, t), Record(m, h, t, Run), m.pc[t].node)
  {
    hide ChainOk;
    var node := m.pc[t].node;
    assert ThreadOk(m, h, t) && NodeOk(m, h, node);
    hide Inv;
    HoldersAfter(m.pc, t, RunStep(m, t).pc[t], node);
    HoldersBounded(m.pc, node);
  }

  lemma ChainAddRelease(m: Machine, h: History, t: Thread, a: Action)
    requires Inv(m, h) && Enabled(m, h, t, a) && a.Run? && m.pc[t].AddRelease?
    ensures var h' := Record(m, h, t, a);
            && ChainOk(Step(m, t, a), h')
            && (h'.phase != h.phase ==> !OfAnother(h.phase[m.pc[t].node], t))
  {
    hide Inv, NodeOk, ChainOk;
    Parts(m, h, t);
    AccountAddRelease(m, h, t);
    SameChain(m, h, Step(m, t, a), Record(m, h, t, a));
  }

  lemma EffectAddRelease(m: Machine, h: History, t: Thread, a: Action)
    requires Inv(m, h) && Enabled(m, h, t, a) && a.Run? && m.pc[t].AddRelease?
    ensures var m', h' := Step(m, t, a), Record(m, h, t, a);
            Touches(m, h, m', h', t, m.pc[t].node) && ThreadOk(m', h', t)
  {
    hide Inv, NodeOk, ChainOk, Role;
    Parts(m, h, t);
    ChainAddRelease(m, h, t, a);
    var m', node := Step(m, t, a), m.pc[t].node;
    forall n | n != node ensures Role(m.pc[t], n) == Role(m'.pc[t], n) { OnlyRole(m, t, n); }
  }

  lemma KeepsAddRelease(m: Machine, h: History, t: Thread, a: Action)
    requires Inv(m, h) && Enabled(m, h, t, a) && a.Run? && m.pc[t].AddRelease?
    ensures Kept(m, h, t, a)
  {
    Parts(m, h, t);
    AccountAddRelease(m, h, t);
    ChainAddRelease(m, h, t, a);
    EffectAddRelease(m, h, t, a);
    hide Inv, NodeOk, ChainOk, ThreadOk, Touches, RunStep, Record, Resolves;
    FromParts(m, h, Step(m, t, a), Record(m, h, t, a), t, m.pc[t].node);
  }

  // Nobody holds a node whose next pointer is about to be written.
  lemma KeepsAddStoreNext(m: Machine, h: History, t: Thread, a: Action)
    requires Inv(m, h) && Enabled(m, h, t, a) && a.Run? && m.pc[t].AddStoreNext?
    ensures Kept(m, h, t, a)
  {
    hide Inv, ChainOk, Role;
    var m', h' := Step(m, t, a), Record(m, h, t, a);
    Parts(m, h, t);
    var node := m.pc[t].node;
    assert Holders(m.pc, node) == {};
    assert NodeOk(m', h', node) by { HoldersAfter(m.pc, t, m'.pc[t], node); }
    hide NodeOk;
    SameChain(m, h, m', h');
    forall n | n != node ensures Role(m.pc[t], n) == Role(m'.pc[t], n) { OnlyRole(m, t, n); }
    FromParts(m, h, m', h', t, node);
  }

  // Removing the first node of the chain.
  lemma Popped(m: Machine, h: History, m': Machine, h': History, node: Node)
    requires m.next.Keys == m.refs.Keys == h.phase.Keys && ChainOk(m, h)
    requires m.head == Some(node) && h.list != [] && node in m.refs
    requires m'.next == m.next && m'.refs.Keys == m.refs.Keys && m'.head == m.next[node]
    requires h'.list == h.list[1..] && h'.phase.Keys == h.phase.Keys && h'.phase[node] != Listed
    requires forall n :: n in m.refs && n != node ==> h'.phase[n] == h.phase[n]
    ensures ChainOk(m', h')
  {
    forall i | 0 <= i < |h'.list|
      ensures h'.list[i] in m.refs && h'.phase[h'.list[i]] == Listed && m'.next[h'.list[i]] == At(h'.list, i + 1)
    {
      assert h'.list[i] == h.list[i + 1];
    }
    forall n | n in m.refs && h'.phase[n] == Listed
      ensures n in h'.list
    {
      var i :| 0 <= i < |h.list| && h.list[i] == n;
      assert h'.list[i - 1] == n;
    }
  }

  // No ABA: when the CAS on the head succeeds, the value it installs is the current
  // next pointer of the node it removes, and that is the rest of the chain.
  lemma NoAba(m: Machine, h: History, t: Thread)
    requires Inv(m, h) && Enabled(m, h, t, Run) && m.pc[t].CasHead? && m.head == Some(m.pc[t].node)
    ensures h.list != [] && h.list[0] == m.pc[t].node && h.phase[m.pc[t].node] == Listed
    ensures m.pc[t].next == m.next[m.pc[t].node] == At(h.list, 1)
  {
    Parts(m, h, t);
    hide Inv, NodeOk;
    assert h.list[0] == m.pc[t].node;
  }

  lemma AccountCasHead(m: Machine, h: History, t: Thread)
    requires Inv(m, h) && Enabled(m, h, t, Run) && m.pc[t].CasHead?
    ensures NodeOk(RunStep(m, t), Record(m, h, t, Run), m.pc[t].node)
  {
    hide Inv, ThreadOk, ChainOk;
    Parts(m, h, t);
    var node := m.pc[t].node;
    if m.head == Some(node) {
      NoAba(m, h, t);
      HoldersAfter(m.pc, t, CheckFlag(node), node);
    } else {
      HoldersAfter(m.pc, t, DropOne(node, m.head), node);
    }
  }

  lemma CasHeadChain(m: Machine, h: History, t: Thread)
    requires Inv(m, h) && Enabled(m, h, t, Run) && m.pc[t].CasHead?
    ensures ChainOk(RunStep(m, t), Record(m, h, t, Run))
    ensures Record(m, h, t, Run).phase != h.phase ==> !OfAnother(h.phase[m.pc[t].node], t)
  {
    hide Inv, NodeOk, ChainOk;
    Parts(m, h, t);
    var m', h', node := RunStep(m, t), Record(m, h, t, Run), m.pc[t].node;
    if m.head == Some(node) {
      NoAba(m, h, t);
      Popped(m, h, m', h', node);
    } else {
      SameChain(m, h, m', h');
    }
  }

  lemma KeepsCasHead(m: Machine, h: History, t: Thread, a: Action)
    requires Inv(m, h) && Enabled(m, h, t, a) && a.Run? && m.pc[t].CasHead?
    ensures Kept(m, h, t, a)
  {
    hide Inv, NodeOk, ChainOk, Role;
    var m', h' := Step(m, t, a), Record(m, h, t, a);
    Parts(m, h, t);
    var node := m.pc[t].node;
    AccountCasHead(m, h, t);
    CasHeadChain(m, h, t);
    if m.head == Some(node) { NoAba(m, h, t); }
    forall n | n != node ensures Role(m.pc[t], n) == Role(m'.pc[t], n) { OnlyRole(m, t, n); }
    FromParts(m, h, m', h', t, node);
  }

  // Putting a node in front of the chain.
  lemma Pushed(m: Machine, h: History, m': Machine, h': History, node: Node)
    requires m.next.Keys == m.refs.Keys == h.phase.Keys && ChainOk(m, h)
    requires node in m.refs && h.phase[node] != Listed && m.next[node] == m.head
    requires m'.next == m.next && m'.refs.Keys == m.refs.Keys && m'.head == Some(node)
    requires h'.list == [node] + h.list && h'.phase == h.phase[node := Listed]
    ensures ChainOk(m', h')
  {
    forall i | 0 <= i < |h'.list|
      ensures h'.list[i] in m.refs && h'.phase[h'.list[i]] == Listed && m'.next[h'.list[i]] == At(h'.list, i + 1)
    {
      if i > 0 { assert h'.list[i] == h.list[i - 1]; }
    }
    forall n | n in m.refs && h'.phase[n] == Listed
      ensures n in h'.list
    {
      if n == node {
        assert h'.list[0] == n;
      } else {
        var i :| 0 <= i < |h.list| && h.list[i] == n;
        assert h'.list[i + 1] == n;
      }
    }
  }

  lemma AccountAddCasHead(m: Machine, h: History, t: Thread)
    requires Inv(m, h) && Enabled(m, h, t, Run) && m.pc[t].AddCasHead?
    ensures NodeOk(RunStep(m, t), Record(m, h, t, Run), m.pc[t].node)
  {
    hide ChainOk;
    var node := m.pc[t].node;
    assert ThreadOk(m, h, t) && NodeOk(m, h, node);
    hide Inv, ThreadOk;
    HoldersAfter(m.pc, t, RunStep(m, t).pc[t], node);
  }

  lemma AddCasHeadChain(m: Machine, h: History, t: Thread)
    requires Inv(m, h) && Enabled(m, h, t, Run) && m.pc[t].AddCasHead?
    ensures ChainOk(RunStep(m, t), Record(m, h, t, Run))
    ensures Record(m, h, t, Run).phase != h.phase ==> !OfAnother(h.phase[m.pc[t].node], t)
  {
    hide Inv, NodeOk, ChainOk;
    Parts(m, h, t);
    var m', h', node := RunStep(m, t), Record(m, h, t, Run), m.pc[t].node;
    if m.head == m.pc[t].head {
      Pushed(m, h, m', h', node);
    } else {
      SameChain(m, h, m', h');
    }
  }

  lemma KeepsAddCasHead(m: Machine, h: History, t: Thread, a: Action)
    requires Inv(m, h) && Enabled(m, h, t, a) && a.Run? && m.pc[t].AddCasHead?
    ensures Kept(m, h, t, a)
  {
    hide Inv, NodeOk, ChainOk, Role;
    var m', h' := Step(m, t, a), Record(m, h, t, a);
    Parts(m, h, t);
    var node := m.pc[t].node;
    AccountAddCasHead(m, h, t);
    AddCasHeadChain(m, h, t);
    forall n | n != node ensures Role(m.pc[t], n) == Role(m'.pc[t], n) { OnlyRole(m, t, n); }
    FromParts(m, h, m', h', t, node);
  }

  // Every atomic access of every thread keeps the invariant.
  lemma StepKeeps(m: Machine, h: History, t: Thread, a: Action)
    requires Inv(m, h) && Enabled(m, h, t, a)
    ensures Inv(Step(m, t, a), Record(m, h, t, a))
  {
    hide Inv, Step, Record, RunStep, Resolves;
    assert Kept(m, h, t, a) by {
      match a
      case Create(_) => KeepsCreate(m, h, t, a);
      case CallAdd(_) => KeepsCallAdd(m, h, t, a);
      case CallTryGet => KeepsLoadHead(m, h, t, a);
      case Run =>
        match m.pc[t]
        case LoadHead => KeepsLoadHead(m, h, t, a);
        case CasRefs(_, _) => KeepsCasRefs(m, h, t, a);
        case CasHead(_, _) => KeepsCasHead(m, h, t, a);
        case DropTwo(_) => KeepsDropTwo(m, h, t, a);
        case DropOne(_, _) => KeepsDropOne(m, h, t, a);
        case AddStoreNext(_, _, _) => KeepsAddStoreNext(m, h, t, a);
        case AddStoreRefs(_, _, _) => KeepsAddStoreRefs(m, h, t, a);
        case AddCasHead(_, _, _) => KeepsAddCasHead(m, h, t, a);
        case AddRelease(_, _, _) => KeepsAddRelease(m, h, t, a);
        case _ => KeepsLocal(m, h, t, a);
    }
  }

  // --------------------------------------------------------------- whole runs

  datatype Event = Event(thread: Thread, action: Action)

  // A run: the machine and the history after each event.
  datatype Run = Start(m: Machine, h: History) | Then(before: Run, event: Event)

  ghost function Final(r: Run): (Machine, History)
    requires Legal(r)
    decreases r, 1
  {
    match r
    case Start(m, h) => (m, h)
    case Then(before, e) =>
      var (m, h) := Final(before);
      (Step(m, e.thread, e.action), Record(m, h, e.thread, e.action))
  }

  ghost predicate Legal(r: Run)
    decreases r, 0
  {
    match r
    case Start(m, h) => Init(m, h)
    case Then(before, e) => Legal(before) && Enabled(Final(before).0, Final(before).1, e.thread, e.action)
  }

  lemma {:induction false} Reachable(r: Run)
    requires Legal(r)
    ensures Inv(Final(r).0, Final(r).1)
  {
    hide Inv, Step, Record, Enabled;
    match r
    case Start(m, h) => InitInv(m, h);
    case Then(before, e) =>
      Reachable(before);
      StepKeeps(Final(before).0, Final(before).1, e.thread, e.action);
  }

  // The list from the head ends and repeats no node, whatever the interleaving.
  lemma ListIsAcyclic(r: Run)
    requires Legal(r)
    ensures var (m, h) := Final(r);
            && m.head == At(h.list, 0)
            && (forall i :: 0 <= i < |h.list| ==> h.list[i] in m.next && m.next[h.list[i]] == At(h.list, i + 1))
            && (forall i, j :: 0 <= i < j < |h.list| ==> h.list[i] != h.list[j])
  {
    hide NodeOk, ThreadOk;
    Reachable(r);
  }

  // No pointer dangles: a thread inside `add` or `try_get` can always make its next access.
  lemma NeverStuck(r: Run, t: Thread)
    requires Legal(r) && t in Final(r).0.pc && !Final(r).0.pc[t].Idle?
    ensures Enabled(Final(r).0, Final(r).1, t, Run)
  {
    Reachable(r);
    var (m, h) := Final(r);
    assert ThreadOk(m, h, t);
  }

  // The flag is clear when `add` sets it, and at the assertion inside `try_get`.
  lemma FlagIsClear(r: Run, t: Thread, node: Node)
    requires Legal(r) && t in Final(r).0.pc && node in Final(r).0.refs
    requires Final(r).0.pc[t] == CheckFlag(node) || Enabled(Final(r).0, Final(r).1, t, CallAdd(node))
    ensures !IsFlagged(Final(r).0.refs[node])
  {
    Reachable(r);
    var (m, h) := Final(r);
    if m.pc[t] == CheckFlag(node) { FlagAtCheck(m, h, t, node); } else { AddedNode(m, h, t, node); }
  }

  lemma FlagAtCheck(m: Machine, h: History, t: Thread, node: Node)
    requires Inv(m, h) && t in m.pc && m.pc[t] == CheckFlag(node) && node in m.refs
    ensures !IsFlagged(m.refs[node])
  {
    assert ThreadOk(m, h, t) && NodeOk(m, h, node);
    HoldersBounded(m.pc, node);
    hide Inv, ChainOk, ThreadOk;
  }

  // The event at which `try_get` returns the node to its caller.
  predicate HandsOut(m: Machine, e: Event, node: Node) {
    e.action.Run? && e.thread in m.pc && m.pc[e.thread] == DropTwo(node)
  }

  // The nodes that clients own, by the events alone: created or handed out, and not added since.
  ghost function Outside(r: Run): set<Node>
    requires Legal(r)
  {
    match r
    case Start(_, _) => {}
    case Then(before, e) =>
      match e.action
      case Create(node) => Outside(before) + {node}
      case CallAdd(node) => Outside(before) - {node}
      case CallTryGet => Outside(before)
      case Run =>
        var p := Final(before).0.pc[e.thread];
        if p.DropTwo? then Outside(before) + {p.node} else Outside(before)
  }

  // A single step moves nodes in and out of client hands exactly at those events.
  lemma StepOwned(m: Machine, h: History, t: Thread, a: Action, node: Node)
    requires Inv(m, h) && Enabled(m, h, t, a)
    requires node in Record(m, h, t, a).phase
    ensures Record(m, h, t, a).phase[node] == Owned <==>
            || a == Create(node) || HandsOut(m, Event(t, a), node)
            || (node in h.phase && h.phase[node] == Owned && a != CallAdd(node))
  {
    if a.Run? && !m.pc[t].LoadHead? {
      Parts(m, h, t);
      if m.pc[t].CasHead? && m.head == Some(m.pc[t].node) { NoAba(m, h, t); }
      if m.pc[t].DropOne? { AccountDropOne(m, h, t); }
    }
    hide Inv, NodeOk, ChainOk;
  }

  lemma {:induction false} OutsideIsOwned(r: Run)
    requires Legal(r)
    ensures forall node :: node in Outside(r) <==> node in Final(r).1.phase && Final(r).1.phase[node] == Owned
  {
    match r
    case Start(_, _) =>
    case Then(before, e) =>
      OutsideIsOwned(before);
      Reachable(before);
      var (m, h) := Final(before);
      hide Inv;
      forall node
        ensures node in Outside(r) <==> node in Final(r).1.phase && Final(r).1.phase[node] == Owned
      {
        if node in Final(r).1.phase { StepOwned(m, h, e.thread, e.action, node); }
        if e.action.Run? && m.pc[e.thread].DropTwo? { assert m.pc[e.thread].node in m.refs; }
      }
  }

  ghost function Extend(r: Run, events: seq<Event>): Run {
    if events == [] then r else Then(Extend(r, events[..|events| - 1]), events[|events| - 1])
  }

  lemma {:induction false} StaysOutside(r: Run, events: seq<Event>, node: Node)
    requires Legal(Extend(r, events))
    requires forall e :: e in events ==> e.action != CallAdd(node)
    ensures Legal(r)
    ensures node in Outside(r) ==> node in Outside(Extend(r, events))
  {
    if events != [] { StaysOutside(r, events[..|events| - 1], node); }
  }

  // No node has two owners: between two calls of `try_get` that return it, some call
  // of `add` gave it back.
  lemma HandedOutOnce(r: Run, first: Event, events: seq<Event>, second: Event, node: Node)
    requires Legal(Then(Extend(Then(r, first), events), second))
    requires Legal(r) && HandsOut(Final(r).0, first, node)
    requires HandsOut(Final(Extend(Then(r, first), events)).0, second, node)
    ensures exists e :: e in events && e.action == CallAdd(node)
  {
    if forall e :: e in events ==> e.action != CallAdd(node) {
      var last := Extend(Then(r, first), events);
      StaysOutside(Then(r, first), events, node);
      OutsideIsOwned(last);
      Reachable(last);
      Parts(Final(last).0, Final(last).1, second.thread);
      assert false;
    }
  }

  predicate InsideAdd(p: Pc, node: Node) {
    BeforeRefsStore(p, node) || AfterRefsStore(p, node)
  }

  // Where a node can be, read off the machine: exactly one of these holds of it.
  ghost predicate InHands(r: Run, node: Node) requires Legal(r) { node in Outside(r) }

  ghost predicate OnList(r: Run, node: Node) requires Legal(r) { node in Final(r).1.list }

  ghost predicate BeingAdded(r: Run, node: Node)
    requires Legal(r)
  {
    exists t :: t in Final(r).0.pc && InsideAdd(Final(r).0.pc[t], node)
  }

  ghost predicate AwaitsRelease(r: Run, node: Node)
    requires Legal(r)
  {
    && node in Final(r).0.refs && IsFlagged(Final(r).0.refs[node])
    && Holders(Final(r).0.pc, node) != {}
  }

  ghost predicate BeingTaken(r: Run, node: Node)
    requires Legal(r)
  {
    exists t :: t in Final(r).0.pc && JustTook(Final(r).0.pc[t], node)
  }

  lemma InsideMeansAdding(m: Machine, h: History, t: Thread, node: Node)
    requires Inv(m, h) && t in m.pc
    ensures InsideAdd(m.pc[t], node) ==> node in h.phase && h.phase[node] == Adding(t)
    ensures JustTook(m.pc[t], node) ==> node in h.phase && h.phase[node] == Taken(t)
  {
    hide NodeOk, ChainOk;
    assert ThreadOk(m, h, t);
  }

  // At most one thread at a time is inside `add_knowing_refcount_is_zero` for a node.
  lemma OneAdder(r: Run, t: Thread, u: Thread, node: Node)
    requires Legal(r) && t in Final(r).0.pc && u in Final(r).0.pc
    requires InsideAdd(Final(r).0.pc[t], node) && InsideAdd(Final(r).0.pc[u], node)
    ensures t == u
  {
    Reachable(r);
    InsideMeansAdding(Final(r).0, Final(r).1, t, node);
    InsideMeansAdding(Final(r).0, Final(r).1, u, node);
  }

  function Count(b: bool): nat { if b then 1 else 0 }

  // No node is ever lost or in two places.
  lemma NeverLost(r: Run, node: Node)
    requires Legal(r) && node in Final(r).0.refs
    ensures Count(InHands(r, node)) + Count(OnList(r, node)) + Count(BeingAdded(r, node))
            + Count(AwaitsRelease(r, node)) + Count(BeingTaken(r, node)) == 1
  {
    Reachable(r);
    OutsideIsOwned(r);
    var (m, h) := Final(r);
    WhatPhaseMeans(m, h, node);
    forall t | t in m.pc
      ensures InsideAdd(m.pc[t], node) ==> h.phase[node] == Adding(t)
      ensures JustTook(m.pc[t], node) ==> h.phase[node] == Taken(t)
    {
      InsideMeansAdding(m, h, t, node);
    }
    hide Inv;
    assert BeingAdded(r, node) <==> h.phase[node].Adding?;
    assert BeingTaken(r, node) <==> h.phase[node].Taken?;
  }

  lemma WhatPhaseMeans(m: Machine, h: History, node: Node)
    requires Inv(m, h) && node in m.refs
    ensures node in h.phase
    ensures h.phase[node] == Listed <==> node in h.list
    ensures h.phase[node] == Waiting <==> IsFlagged(m.refs[node]) && Holders(m.pc, node) != {}
    ensures h.phase[node].Adding? ==> h.phase[node].adder in m.pc && InsideAdd(m.pc[h.phase[node].adder], node)
    ensures h.phase[node].Taken? ==> h.phase[node].taker in m.pc && JustTook(m.pc[h.phase[node].taker], node)
  {
    if node in h.list { ListedExists(m, h, node); }
    ListedIsOnList(m, h, node);
    hide Inv;
    HoldersBounded(m.pc, node);
    FlagMeansWaiting(m, h, node);
  }

  lemma ListedIsOnList(m: Machine, h: History, node: Node)
    requires Inv(m, h) && node in m.refs
    ensures node in h.phase && NodeOk(m, h, node) && (h.phase[node] == Listed ==> node in h.list)
  {
    hide NodeOk, ThreadOk;
  }

  lemma FlagMeansWaiting(m: Machine, h: History, node: Node)
    requires node in m.refs && node in h.phase && NodeOk(m, h, node)
    requires |Holders(m.pc, node)| < REFS_MASK
    ensures h.phase[node] == Waiting <==> IsFlagged(m.refs[node]) && Holders(m.pc, node) != {}
    ensures h.phase[node].Adding? ==> h.phase[node].adder in m.pc && InsideAdd(m.pc[h.phase[node].adder], node)
    ensures h.phase[node].Taken? ==> h.phase[node].taker in m.pc && JustTook(m.pc[h.phase[node].taker], node)
  {
    if Holders(m.pc, node) == {} { assert |Holders(m.pc, node)| == 0; }
    hide BeforeRefsStore, AfterRefsStore, JustTook, Holders;
  }

  // The last release of a flagged node puts its thread inside the adding routine.
  lemma LastReleaseAdds(r: Run, t: Thread, node: Node, head: Option<Node>)
    requires Legal(r) && t in Final(r).0.pc && Final(r).0.pc[t] == DropOne(node, head)
    requires AwaitsRelease(r, node) && Holders(Final(r).0.pc, node) == {t}
    ensures Legal(Then(r, Event(t, Run))) && BeingAdded(Then(r, Event(t, Run)), node)
  {
    Reachable(r);
    var (m, h) := Final(r);
    Parts(m, h, t);
    WhatPhaseMeans(m, h, node);
    hide Inv, ChainOk;
    assert |Holders(m.pc, node)| == 1;
    var r' := Then(r, Event(t, Run));
    assert InsideAdd(Final(r').0.pc[t], node);
  }

  // When every thread is idle, the list holds exactly the nodes that exist and are
  // not in client hands: everything added and not taken since.
  lemma QuiescentList(r: Run)
    requires Legal(r) && forall t :: t in Final(r).0.pc ==> Final(r).0.pc[t] == Idle
    ensures forall node :: node in Final(r).1.list <==> node in Final(r).0.refs && node !in Outside(r)
  {
    Reachable(r);
    var (m, h) := Final(r);
    forall node
      ensures node in h.list <==> node in m.refs && node !in Outside(r)
    {
      if node in h.list { ListedExists(m, h, node); }
      if node in m.refs {
        NeverLost(r, node);
        assert Holders(m.pc, node) == {};
      } else {
        OutsideIsOwned(r);
      }
    }
  }

  lemma ListedExists(m: Machine, h: History, node: Node)
    requires Inv(m, h) && node in h.list
    ensures node in m.refs && h.phase[node] == Listed
  {
    hide NodeOk, ThreadOk;
    var i :| 0 <= i < |h.list| && h.list[i] == node;
    assert h.list[i] in m.refs;
  }
}
