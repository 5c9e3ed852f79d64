/** The lock-free free list of blocks: a stack whose nodes carry a reference
    count and a "should be on the free list" bit in one 32-bit word.

    Every shared access (load, store, fetch_add, fetch_sub, compare_exchange)
    is one step of one thread, taken in a single total order. Any number of
    threads run `add` and `try_get` at once. */
module FreeList {
  import opened Options
  import opened Totals

  type Node = nat
  type Tid = nat

  const SHOULD_BE_ON_FREELIST: nat := 0x8000_0000
  const WORD_SIZE: nat := 0x1_0000_0000
  /** Threads that may use one list, so that references never reach the flag bit. */
  const MAX_THREADS: nat := 0x3FFF_FFFF

  /** What a thread does after add_knowing_refcount_is_zero: return from `add`,
      or go on with the loop of `try_get`. */
  datatype After = Return | Retry(head: Option<Node>)

  /** The program point of a thread, with its locals. */
  datatype Pc =
    | Idle
    | AddFlag(node: Node)
    | LoadHead(node: Node, after: After)
    | StoreNext(node: Node, head: Option<Node>, after: After)
    | StoreRef(node: Node, head: Option<Node>, after: After)
    | PushHead(node: Node, head: Option<Node>, after: After)
    | Unpublish(node: Node, head: Option<Node>, after: After)
    | GetHead
    | LoadRefs(node: Node)
    | TakeRef(node: Node, refs: int)
    | LoadNext(node: Node)
    | PopHead(node: Node, next: Option<Node>)
    | DropTwo(node: Node)
    | DropOne(node: Node, newHead: Option<Node>)

  /** Where a node is. The algorithm does not store this; it is a history
      variable that the invariant ties to words, links and program points. */
  datatype Status =
    | Held                  // with the client
    | Leaving(t: Tid)       // inside `add`, flag not set yet
    | Flagged               // flag set, waiting for its last reference holder
    | Bare(t: Tid)          // being added, reference count zero
    | Open(t: Tid)          // being added, list reference stored
    | Listed                // on the list
    | Popped(t: Tid)        // taken off the list by t, not returned yet

  datatype State = State(
    head: Option<Node>,
    word: map<Node, int>,
    next: map<Node, Option<Node>>,
    pc: map<Tid, Pc>,
    status: map<Node, Status>,
    list: seq<Node>)

  /** Addition in 32 bits: the sum, wrapped around. */
  function FetchAdd(word: int, delta: int): int {
    if word + delta >= WORD_SIZE then word + delta - WORD_SIZE
    else if word + delta < 0 then word + delta + WORD_SIZE
    else word + delta
  }

  /** word & REFS_MASK: the word without its flag bit. */
  function Refs(word: int): int {
    if word >= SHOULD_BE_ON_FREELIST then word - SHOULD_BE_ON_FREELIST else word
  }

  // ---------------------------------------------------------------- steps

  function LoopTest(head: Option<Node>): Pc {
    match head
    case None => Idle
    case Some(node) => LoadRefs(node)
  }

  function Resume(after: After): Pc {
    match after
    case Return => Idle
    case Retry(head) => LoopTest(head)
  }

  predicate HeadKnown(head: Option<Node>, nodes: set<Node>) {
    head.Some? ==> head.value in nodes
  }

  predicate PcKnown(p: Pc, nodes: set<Node>) {
    match p
    case Idle => true
    case GetHead => true
    case LoadHead(n, after) => n in nodes && (after.Retry? ==> HeadKnown(after.head, nodes))
    case StoreNext(n, _, after) => n in nodes && (after.Retry? ==> HeadKnown(after.head, nodes))
    case StoreRef(n, _, after) => n in nodes && (after.Retry? ==> HeadKnown(after.head, nodes))
    case PushHead(n, _, after) => n in nodes && (after.Retry? ==> HeadKnown(after.head, nodes))
    case Unpublish(n, _, after) => n in nodes && (after.Retry? ==> HeadKnown(after.head, nodes))
    case DropOne(n, newHead) => n in nodes && HeadKnown(newHead, nodes)
    case _ => p.node in nodes
  }

  ghost predicate KnownAt(s: State, t: Tid)
    requires t in s.pc
  {
    PcKnown(s.pc[t], s.word.Keys)
  }

  ghost predicate NodesKnown(s: State) {
    && s.next.Keys == s.word.Keys
    && s.status.Keys == s.word.Keys
    && forall t {:trigger KnownAt(s, t)} :: t in s.pc ==> KnownAt(s, t)
  }

  /** Thread t goes on to p; nothing shared changes. */
  ghost function Goto(s: State, t: Tid, p: Pc): State {
    s.(pc := s.pc[t := p])
  }

  /** Thread t goes on to p after an access that leaves node n with this word,
      link and status. */
  ghost function Move(s: State, t: Tid, p: Pc, n: Node, word: int, next: Option<Node>, status: Status): State {
    s.(pc := s.pc[t := p], word := s.word[n := word], next := s.next[n := next],
       status := s.status[n := status])
  }

  /** add: fetch_add of the flag; the last reference holder goes on to add. */
  ghost function ExecAddFlag(s: State, t: Tid, n: Node): State
    requires NodesKnown(s) && n in s.word
  {
    var word := FetchAdd(s.word[n], SHOULD_BE_ON_FREELIST);
    if s.word[n] == 0 then Move(s, t, LoadHead(n, Return), n, word, s.next[n], Bare(t))
    else Move(s, t, Idle, n, word, s.next[n], Flagged)
  }

  ghost function ExecStoreNext(s: State, t: Tid, n: Node, head: Option<Node>, after: After): State
    requires NodesKnown(s) && n in s.word
  {
    Move(s, t, StoreRef(n, head, after), n, s.word[n], head, s.status[n])
  }

  ghost function ExecStoreRef(s: State, t: Tid, n: Node, head: Option<Node>, after: After): State
    requires NodesKnown(s) && n in s.word
  {
    Move(s, t, PushHead(n, head, after), n, 1, s.next[n], Open(t))
  }

  /** The compare_exchange that puts n in front of the list; when it fails it
      reloads the head. */
  ghost function ExecPushHead(s: State, t: Tid, n: Node, head: Option<Node>, after: After): State
    requires NodesKnown(s) && n in s.word
  {
    if s.head == head
    then Move(s, t, Resume(after), n, s.word[n], s.next[n], Listed).(head := Some(n), list := [n] + s.list)
    else Goto(s, t, Unpublish(n, s.head, after))
  }

  ghost function ExecUnpublish(s: State, t: Tid, n: Node, head: Option<Node>, after: After): State
    requires NodesKnown(s) && n in s.word
  {
    var word := FetchAdd(s.word[n], SHOULD_BE_ON_FREELIST - 1);
    if s.word[n] == 1 then Move(s, t, StoreNext(n, head, after), n, word, s.next[n], Bare(t))
    else Move(s, t, Resume(after), n, word, s.next[n], Flagged)
  }

  /** try_get: take a reference, unless the count was zero or has changed. */
  ghost function ExecTakeRef(s: State, t: Tid, n: Node, refs: int): State
    requires NodesKnown(s) && n in s.word
  {
    if Refs(refs) != 0 && s.word[n] == refs
    then Move(s, t, LoadNext(n), n, FetchAdd(refs, 1), s.next[n], s.status[n])
    else Goto(s, t, GetHead)
  }

  ghost function ExecPopHead(s: State, t: Tid, n: Node, next: Option<Node>): State
    requires NodesKnown(s) && n in s.word
  {
    if s.head == Some(n)
    then Move(s, t, DropTwo(n), n, s.word[n], s.next[n], Popped(t)).(
           head := next, list := if s.list == [] then [] else s.list[1..])
    else Goto(s, t, DropOne(n, s.head))
  }

  ghost function ExecDropTwo(s: State, t: Tid, n: Node): State
    requires NodesKnown(s) && n in s.word
  {
    Move(s, t, Idle, n, FetchAdd(s.word[n], -2), s.next[n], Held)
  }

  ghost function ExecDropOne(s: State, t: Tid, n: Node, newHead: Option<Node>): State
    requires NodesKnown(s) && n in s.word
  {
    var word := FetchAdd(s.word[n], -1);
    if s.word[n] == SHOULD_BE_ON_FREELIST + 1
    then Move(s, t, LoadHead(n, Retry(newHead)), n, word, s.next[n], Bare(t))
    else Move(s, t, LoopTest(newHead), n, word, s.next[n], s.status[n])
  }

  /** One step of thread t inside `add` or `try_get`. */
  ghost function Exec(s: State, t: Tid): State
    requires t in s.pc && NodesKnown(s)
  {
    assert KnownAt(s, t);
    match s.pc[t]
    case Idle => s
    case AddFlag(n) => ExecAddFlag(s, t, n)
    case LoadHead(n, after) => Goto(s, t, StoreNext(n, s.head, after))
    case StoreNext(n, head, after) => ExecStoreNext(s, t, n, head, after)
    case StoreRef(n, head, after) => ExecStoreRef(s, t, n, head, after)
    case PushHead(n, head, after) => ExecPushHead(s, t, n, head, after)
    case Unpublish(n, head, after) => ExecUnpublish(s, t, n, head, after)
    case GetHead => Goto(s, t, LoopTest(s.head))
    case LoadRefs(n) => Goto(s, t, TakeRef(n, s.word[n]))
    case TakeRef(n, refs) => ExecTakeRef(s, t, n, refs)
    case LoadNext(n) => Goto(s, t, PopHead(n, s.next[n]))
    case PopHead(n, next) => ExecPopHead(s, t, n, next)
    case DropTwo(n) => ExecDropTwo(s, t, n)
    case DropOne(n, newHead) => ExecDropOne(s, t, n, newHead)
  }

  /** A client hands back a node that it holds. */
  ghost predicate StartAdd(s: State, s': State, t: Tid, n: Node) {
    && t in s.pc && s.pc[t] == Idle
    && n in s.status && s.status[n] == Held
    && s' == s.(pc := s.pc[t := AddFlag(n)], status := s.status[n := Leaving(t)])
  }

  ghost predicate StartGet(s: State, s': State, t: Tid) {
    && t in s.pc && s.pc[t] == Idle
    && s' == s.(pc := s.pc[t := GetHead])
  }

  ghost predicate Init(s: State) {
    && s.head == None && s.list == []
    && s.next.Keys == s.word.Keys && s.status.Keys == s.word.Keys
    && (forall n :: n in s.word ==> s.word[n] == 0 && s.status[n] == Held)
    && (forall t :: t in s.pc ==> s.pc[t] == Idle)
    && |s.pc| <= MAX_THREADS
  }

  ghost predicate Next(s: State, s': State) {
    NodesKnown(s) &&
    exists t :: t in s.pc && (s' == Exec(s, t) || StartGet(s, s', t) || exists n :: StartAdd(s, s', t, n))
  }

  ghost predicate StepAt(run: seq<State>, i: nat)
    requires i + 1 < |run|
  {
    Next(run[i], run[i + 1])
  }

  ghost predicate IsRun(run: seq<State>) {
    && run != [] && Init(run[0])
    && forall i: nat {:trigger StepAt(run, i)} :: i + 1 < |run| ==> StepAt(run, i)
  }

  // ------------------------------------------------------------ invariant

  /** References to n that a thread at p has added to n's word. */
  function RefsOn(p: Pc, n: Node): nat {
    match p
    case LoadNext(m) => if m == n then 1 else 0
    case PopHead(m, _) => if m == n then 1 else 0
    case DropOne(m, _) => if m == n then 1 else 0
    case DropTwo(m) => if m == n then 2 else 0
    case _ => 0
  }

  ghost function RefWeight(n: Node): Pc -> int {
    (p: Pc) => RefsOn(p, n)
  }

  /** What the status of a node adds to its word besides thread references. */
  function Extra(status: Status): nat {
    match status
    case Flagged => SHOULD_BE_ON_FREELIST
    case Bare(_) => SHOULD_BE_ON_FREELIST
    case Open(_) => 1
    case Listed => 1
    case _ => 0
  }

  /** The word of n is exactly: thread references, list reference, flag. */
  ghost predicate Counted(s: State, n: Node)
    requires n in s.word && n in s.status
  {
    && s.word[n] == Total(s.pc, RefWeight(n)) + Extra(s.status[n])
    && (s.status[n].Bare? ==> Total(s.pc, RefWeight(n)) == 0)
    && (s.status[n].Flagged? ==> Total(s.pc, RefWeight(n)) > 0)
  }

  ghost predicate AllCounted(s: State) {
    && s.status.Keys == s.word.Keys
    && forall n {:trigger Counted(s, n)} :: n in s.word ==> Counted(s, n)
  }

  /** What a thread at p has in its hands. */
  datatype Duty = NoDuty | Leaves(node: Node) | AddsBare(node: Node) | AddsOpen(node: Node) | Pops(node: Node)

  function DutyAt(p: Pc): Duty {
    match p
    case AddFlag(n) => Leaves(n)
    case LoadHead(n, _) => AddsBare(n)
    case StoreNext(n, _, _) => AddsBare(n)
    case StoreRef(n, _, _) => AddsBare(n)
    case PushHead(n, _, _) => AddsOpen(n)
    case Unpublish(n, _, _) => AddsOpen(n)
    case DropTwo(n) => Pops(n)
    case _ => NoDuty
  }

  predicate Matches(duty: Duty, t: Tid, n: Node, status: Status) {
    match status
    case Leaving(u) => u == t && duty == Leaves(n)
    case Bare(u) => u == t && duty == AddsBare(n)
    case Open(u) => u == t && duty == AddsOpen(n)
    case Popped(u) => u == t && duty == Pops(n)
    case _ => false
  }

  predicate InHands(status: Status) {
    status.Leaving? || status.Bare? || status.Open? || status.Popped?
  }

  /** The link that a thread at p relies on. */
  ghost predicate LinkHolds(p: Pc, next: map<Node, Option<Node>>) {
    match p
    case StoreRef(n, head, _) => n in next && next[n] == head
    case PushHead(n, head, _) => n in next && next[n] == head
    case PopHead(n, after) => n in next && next[n] == after
    case _ => true
  }

  /** The status that the program point of t forces on the node it works on. */
  ghost predicate Conforms(s: State, t: Tid)
    requires t in s.pc
  {
    var duty := DutyAt(s.pc[t]);
    && LinkHolds(s.pc[t], s.next)
    && (!duty.NoDuty? ==> duty.node in s.status && Matches(duty, t, duty.node, s.status[duty.node]))
  }

  /** Conversely, a node that is in one thread's hands has that thread on it. */
  ghost predicate Minded(s: State, n: Node)
    requires n in s.status
  {
    InHands(s.status[n]) ==>
      s.status[n].t in s.pc && Matches(DutyAt(s.pc[s.status[n].t]), s.status[n].t, n, s.status[n])
  }

  ghost predicate ThreadsConform(s: State) {
    && (forall t {:trigger Conforms(s, t)} :: t in s.pc ==> Conforms(s, t))
    && (forall n {:trigger Minded(s, n)} :: n in s.status ==> Minded(s, n))
  }

  function HeadOf(list: seq<Node>): Option<Node> {
    if list == [] then None else Some(list[0])
  }

  /** The link stored in the i-th node leads to the one after it. */
  ghost predicate Linked(next: map<Node, Option<Node>>, list: seq<Node>, i: nat)
    requires i < |list|
  {
    list[i] in next && next[list[i]] == HeadOf(list[i + 1..])
  }

  ghost predicate Chained(next: map<Node, Option<Node>>, list: seq<Node>) {
    forall i: nat :: i < |list| ==> Linked(next, list, i)
  }

  ghost predicate Distinct(list: seq<Node>) {
    forall i, j :: 0 <= i < j < |list| ==> list[i] != list[j]
  }

  ghost predicate ListedIff(s: State, n: Node) {
    n in s.list <==> n in s.status && s.status[n] == Listed
  }

  /** The links from the head spell out `list`, without repetition, and its
      members are exactly the nodes whose status is Listed. */
  ghost predicate ListShape(s: State)
    requires NodesKnown(s)
  {
    && s.head == HeadOf(s.list)
    && Chained(s.next, s.list)
    && Distinct(s.list)
    && (forall n {:trigger ListedIff(s, n)} :: ListedIff(s, n))
  }

  ghost predicate Inv(s: State) {
    && NodesKnown(s)
    && |s.pc| <= MAX_THREADS
    && AllCounted(s)
    && ThreadsConform(s)
    && ListShape(s)
  }

  // ------------------------------------------------------- counting lemmas

  lemma RefsBounded(s: State, n: Node)
    requires |s.pc| <= MAX_THREADS
    ensures 0 <= Total(s.pc, RefWeight(n)) <= 2 * MAX_THREADS
    ensures forall t :: t in s.pc ==> RefsOn(s.pc[t], n) <= Total(s.pc, RefWeight(n))
  {
    TotalCovers(s.pc, RefWeight(n));
    TotalBound(s.pc, RefWeight(n), 2);
    forall t | t in s.pc ensures RefsOn(s.pc[t], n) <= Total(s.pc, RefWeight(n)) {
      assert RefWeight(n)(s.pc[t]) <= Total(s.pc, RefWeight(n));
    }
  }

  /** How a change of one program point changes the references to n. */
  lemma RefsMove(s: State, t: Tid, p: Pc, n: Node)
    requires t in s.pc
    ensures Total(s.pc[t := p], RefWeight(n))
         == Total(s.pc, RefWeight(n)) - RefsOn(s.pc[t], n) + RefsOn(p, n)
  {
    TotalUpdate(s.pc, t, p, RefWeight(n));
  }

  lemma RefsMoveAll(s: State, t: Tid, p: Pc)
    requires t in s.pc
    ensures forall n :: (Total(s.pc[t := p], RefWeight(n))
                         == Total(s.pc, RefWeight(n)) - RefsOn(s.pc[t], n) + RefsOn(p, n))
  {
    forall n
      ensures Total(s.pc[t := p], RefWeight(n)) == Total(s.pc, RefWeight(n)) - RefsOn(s.pc[t], n) + RefsOn(p, n)
    {
      RefsMove(s, t, p, n);
    }
  }

  lemma UpdateKeepsSize(s: State, t: Tid, p: Pc)
    requires t in s.pc
    ensures |s.pc[t := p]| == |s.pc|
  {
    assert s.pc[t := p].Keys == s.pc.Keys;
  }

  // ------------------------------------------------------- frame lemmas

  /** What is known of thread t and node n, without any quantifier. */
  ghost predicate Facts(s: State, t: Tid, n: Node) {
    && t in s.pc && n in s.word && n in s.next && n in s.status
    && PcKnown(s.pc[t], s.word.Keys) && HeadKnown(s.head, s.word.Keys)
    && Conforms(s, t)
    && Minded(s, n)
    && 0 <= RefsOn(s.pc[t], n) <= s.word[n] - Extra(s.status[n]) <= 2 * MAX_THREADS
    && (s.status[n].Bare? ==> s.word[n] == SHOULD_BE_ON_FREELIST)
    && (s.status[n].Flagged? ==> s.word[n] > SHOULD_BE_ON_FREELIST)
  }

  lemma FactsHold(s: State, t: Tid, n: Node)
    requires Inv(s) && t in s.pc && n in s.word
    ensures Facts(s, t, n)
  {
    assert Counted(s, n);
    RefsBounded(s, n);
    assert KnownAt(s, t);
    assert s.head.Some? ==> s.list[0] in s.list && ListedIff(s, s.list[0]);
    assert Conforms(s, t) && Minded(s, n);
  }

  predicate WorksOnlyOn(p: Pc, n: Node) {
    && (DutyAt(p).NoDuty? || DutyAt(p).node == n)
    && (p.LoadNext? || p.PopHead? || p.DropOne? ==> p.node == n)
  }

  /** What a step owes when it moves t to p and leaves n with this word, link
      and status: the word moves with the references, t conforms to where it is
      now, and nobody else's node changes hands. */
  ghost predicate MoveOk(s: State, t: Tid, p: Pc, n: Node, word: int, next: Option<Node>, status: Status) {
    && t in s.pc && n in s.word && n in s.next && n in s.status
    && PcKnown(p, s.word.Keys)
    && WorksOnlyOn(s.pc[t], n) && WorksOnlyOn(p, n)
    && word - Extra(status) - RefsOn(p, n) == s.word[n] - Extra(s.status[n]) - RefsOn(s.pc[t], n)
    && (status.Bare? ==> word == SHOULD_BE_ON_FREELIST)
    && (status.Flagged? ==> word > SHOULD_BE_ON_FREELIST)
    && LinkHolds(p, s.next[n := next])
    && (!DutyAt(p).NoDuty? ==> Matches(DutyAt(p), t, n, status))
    && (InHands(status) ==> if status.t == t then Matches(DutyAt(p), t, n, status) else status == s.status[n])
    && (status == s.status[n] || (InHands(s.status[n]) ==> s.status[n].t == t))
    && (next == s.next[n] || (s.status[n].Bare? && s.status[n].t == t))
  }

  lemma MoveKnown(s: State, t: Tid, p: Pc, n: Node, word: int, next: Option<Node>, status: Status)
    requires NodesKnown(s) && MoveOk(s, t, p, n, word, next, status)
    ensures NodesKnown(Move(s, t, p, n, word, next, status))
  {
    var s' := Move(s, t, p, n, word, next, status);
    assert s'.word.Keys == s.word.Keys;
    forall u | u in s'.pc ensures KnownAt(s', u) {
      assert u != t ==> KnownAt(s, u);
    }
  }

  lemma MoveCounts(s: State, t: Tid, p: Pc, n: Node, word: int, next: Option<Node>, status: Status)
    requires AllCounted(s) && MoveOk(s, t, p, n, word, next, status)
    ensures AllCounted(Move(s, t, p, n, word, next, status))
  {
    var s' := Move(s, t, p, n, word, next, status);
    RefsMoveAll(s, t, p);
    forall m | m in s'.word ensures Counted(s', m) {
      assert Counted(s, m);
    }
  }

  ghost predicate Unreferenced(s: State, n: Node) {
    forall u :: u in s.pc ==> RefsOn(s.pc[u], n) == 0
  }

  lemma BareIsUnreferenced(s: State, n: Node)
    requires Inv(s) && n in s.word && s.status[n].Bare?
    ensures Unreferenced(s, n)
  {
    assert Counted(s, n);
    RefsBounded(s, n);
  }

  lemma MoveConforms(s: State, t: Tid, p: Pc, n: Node, word: int, next: Option<Node>, status: Status)
    requires ThreadsConform(s) && MoveOk(s, t, p, n, word, next, status)
    requires s.status[n].Bare? ==> Unreferenced(s, n)
    ensures ThreadsConform(Move(s, t, p, n, word, next, status))
  {
    var s' := Move(s, t, p, n, word, next, status);
    forall u | u in s'.pc ensures Conforms(s', u) {
      assert Conforms(s, u);
    }
    forall m | m in s'.status ensures Minded(s', m) {
      assert Minded(s, m);
    }
  }

  /** A step that neither lists nor unlists n, and rewrites its link only while
      it is off the list, leaves the list as it was. */
  lemma MoveKeepsList(s: State, s': State, n: Node)
    requires NodesKnown(s) && NodesKnown(s') && ListShape(s) && n in s.word
    requires s'.head == s.head && s'.list == s.list
    requires n in s'.word && s'.status == s.status[n := s'.status[n]] && s'.next == s.next[n := s'.next[n]]
    requires s'.status[n].Listed? <==> s.status[n].Listed?
    requires s'.next[n] == s.next[n] || !s.status[n].Listed?
    ensures ListShape(s')
  {
    forall i: nat | i < |s.list| ensures Linked(s'.next, s'.list, i) {
      assert Linked(s.next, s.list, i);
      assert s.list[i] in s.list && ListedIff(s, s.list[i]);
    }
    forall m ensures ListedIff(s', m) {
      assert ListedIff(s, m);
    }
  }

  lemma PushKeepsList(s: State, s': State, n: Node)
    requires NodesKnown(s) && NodesKnown(s') && ListShape(s) && n in s.word
    requires s'.next == s.next && s.next[n] == s.head
    requires !s.status[n].Listed? && s'.status == s.status[n := Listed]
    requires s'.head == Some(n) && s'.list == [n] + s.list
    ensures ListShape(s')
  {
    assert ListedIff(s, n);
    forall m ensures ListedIff(s', m) {
      assert ListedIff(s, m);
    }
    assert forall i :: 0 < i < |s'.list| ==> s'.list[i] == s.list[i - 1];
    forall i: nat | i < |s'.list| ensures Linked(s'.next, s'.list, i) {
      if i == 0 {
        assert s'.list[1..] == s.list;
      } else {
        assert s'.list[i + 1..] == s.list[i..];
        assert Linked(s.next, s.list, i - 1);
      }
    }
  }

  lemma PopKeepsList(s: State, s': State, n: Node, status: Status)
    requires NodesKnown(s) && NodesKnown(s') && ListShape(s) && n in s.word
    requires s.head == Some(n)
    requires s'.next == s.next && s'.head == s.next[n]
    requires s'.status == s.status[n := status] && !status.Listed?
    requires s.list != [] && s'.list == s.list[1..]
    ensures ListShape(s')
  {
    assert s.list[0] == n;
    assert Linked(s.next, s.list, 0);
    forall i: nat | i < |s'.list| ensures Linked(s'.next, s'.list, i) {
      assert Linked(s.next, s.list, i + 1);
      assert s'.list[i + 1..] == s.list[i + 1 + 1..];
    }
    assert s.list == [n] + s'.list;
    forall m ensures ListedIff(s', m) {
      assert ListedIff(s, m);
    }
  }

  // ------------------------------------------------------ one step keeps Inv

  /** A step on node n that does not touch the list. */
  lemma KeepsMove(s: State, t: Tid, p: Pc, n: Node, word: int, next: Option<Node>, status: Status)
    requires Inv(s) && MoveOk(s, t, p, n, word, next, status)
    requires status.Listed? <==> s.status[n].Listed?
    requires next == s.next[n] || !s.status[n].Listed?
    ensures Inv(Move(s, t, p, n, word, next, status))
  {
    if s.status[n].Bare? { BareIsUnreferenced(s, n); }
    UpdateKeepsSize(s, t, p);
    MoveKnown(s, t, p, n, word, next, status);
    MoveCounts(s, t, p, n, word, next, status);
    MoveConforms(s, t, p, n, word, next, status);
    MoveKeepsList(s, Move(s, t, p, n, word, next, status), n);
  }

  /** A step that only moves the program point of t, which works on n. */
  lemma KeepsGoto(s: State, t: Tid, p: Pc, n: Node)
    requires Inv(s) && n in s.word && MoveOk(s, t, p, n, s.word[n], s.next[n], s.status[n])
    ensures Inv(Goto(s, t, p))
  {
    KeepsMove(s, t, p, n, s.word[n], s.next[n], s.status[n]);
    assert Goto(s, t, p) == Move(s, t, p, n, s.word[n], s.next[n], s.status[n]);
  }

  lemma KeepsPush(s: State, s': State, t: Tid, p: Pc, n: Node)
    requires Inv(s) && n in s.word && MoveOk(s, t, p, n, s.word[n], s.next[n], Listed)
    requires !s.status[n].Listed? && s.next[n] == s.head
    requires s' == Move(s, t, p, n, s.word[n], s.next[n], Listed).(head := Some(n), list := [n] + s.list)
    ensures Inv(s')
  {
    if s.status[n].Bare? { BareIsUnreferenced(s, n); }
    var m := Move(s, t, p, n, s.word[n], s.next[n], Listed);
    UpdateKeepsSize(s, t, p);
    MoveKnown(s, t, p, n, s.word[n], s.next[n], Listed);
    MoveCounts(s, t, p, n, s.word[n], s.next[n], Listed);
    MoveConforms(s, t, p, n, s.word[n], s.next[n], Listed);
    CarryOver(m, s');
    PushKeepsList(s, s', n);
  }

  lemma KeepsPop(s: State, s': State, t: Tid, p: Pc, n: Node, status: Status)
    requires Inv(s) && n in s.word && MoveOk(s, t, p, n, s.word[n], s.next[n], status)
    requires s.head == Some(n) && !status.Listed?
    requires s' == Move(s, t, p, n, s.word[n], s.next[n], status).(head := s.next[n],
                     list := if s.list == [] then [] else s.list[1..])
    ensures Inv(s')
  {
    if s.status[n].Bare? { BareIsUnreferenced(s, n); }
    var m := Move(s, t, p, n, s.word[n], s.next[n], status);
    UpdateKeepsSize(s, t, p);
    MoveKnown(s, t, p, n, s.word[n], s.next[n], status);
    MoveCounts(s, t, p, n, s.word[n], s.next[n], status);
    MoveConforms(s, t, p, n, s.word[n], s.next[n], status);
    CarryOver(m, s');
    PopKeepsList(s, s', n, status);
  }

  lemma CarryOver(m: State, s': State)
    requires NodesKnown(m) && AllCounted(m) && ThreadsConform(m)
    requires s' == m.(head := s'.head, list := s'.list)
    ensures NodesKnown(s') && AllCounted(s') && ThreadsConform(s')
  {
    forall u | u in s'.pc ensures KnownAt(s', u) {
      assert KnownAt(m, u);
    }
    forall n | n in s'.word ensures Counted(s', n) {
      assert Counted(m, n);
    }
    forall u | u in s'.pc ensures Conforms(s', u) {
      assert Conforms(m, u);
    }
    forall n | n in s'.status ensures Minded(s', n) {
      assert Minded(m, n);
    }
  }

  lemma KeepsStartAdd(s: State, s': State, t: Tid, n: Node)
    requires Inv(s) && StartAdd(s, s', t, n)
    ensures Inv(s')
  {
    FactsHold(s, t, n);
    KeepsMove(s, t, AddFlag(n), n, s.word[n], s.next[n], Leaving(t));
    assert s' == Move(s, t, AddFlag(n), n, s.word[n], s.next[n], Leaving(t));
  }

  lemma KeepsStartGet(s: State, s': State, t: Tid)
    requires Inv(s) && StartGet(s, s', t)
    ensures Inv(s')
  {
    KeepsIdleGoto(s, t, GetHead);
  }

  /** A step that works on no node at all. */
  lemma KeepsIdleGoto(s: State, t: Tid, p: Pc)
    requires Inv(s) && t in s.pc && (s.pc[t].Idle? || s.pc[t].GetHead?)
    requires p.GetHead? || p == LoopTest(s.head)
    ensures Inv(Goto(s, t, p))
  {
    if n :| n in s.word {
      FactsHold(s, t, n);
      KeepsGoto(s, t, p, n);
    } else {
      UpdateKeepsSize(s, t, p);
      assert s.list != [] ==> s.list[0] in s.list && ListedIff(s, s.list[0]);
      var s' := Goto(s, t, p);
      forall u | u in s'.pc ensures KnownAt(s', u) && Conforms(s', u) {
        assert u != t ==> KnownAt(s, u) && Conforms(s, u);
      }
      forall m ensures ListedIff(s', m) {
        assert ListedIff(s, m);
      }
    }
  }

  lemma KeepsAddFlag(s: State, t: Tid, n: Node)
    requires Inv(s) && t in s.pc && s.pc[t] == AddFlag(n) && n in s.word
    ensures Inv(ExecAddFlag(s, t, n))
  {
    FactsHold(s, t, n);
    var word := FetchAdd(s.word[n], SHOULD_BE_ON_FREELIST);
    if s.word[n] == 0 {
      KeepsMove(s, t, LoadHead(n, Return), n, word, s.next[n], Bare(t));
    } else {
      KeepsMove(s, t, Idle, n, word, s.next[n], Flagged);
    }
  }

  lemma KeepsStoreNext(s: State, t: Tid, n: Node, head: Option<Node>, after: After)
    requires Inv(s) && t in s.pc && s.pc[t] == StoreNext(n, head, after) && n in s.word
    ensures Inv(ExecStoreNext(s, t, n, head, after))
  {
    FactsHold(s, t, n);
    KeepsMove(s, t, StoreRef(n, head, after), n, s.word[n], head, s.status[n]);
  }

  lemma KeepsStoreRef(s: State, t: Tid, n: Node, head: Option<Node>, after: After)
    requires Inv(s) && t in s.pc && s.pc[t] == StoreRef(n, head, after) && n in s.word
    ensures Inv(ExecStoreRef(s, t, n, head, after))
  {
    FactsHold(s, t, n);
    KeepsMove(s, t, PushHead(n, head, after), n, 1, s.next[n], Open(t));
  }

  lemma KeepsPushHead(s: State, t: Tid, n: Node, head: Option<Node>, after: After)
    requires Inv(s) && t in s.pc && s.pc[t] == PushHead(n, head, after) && n in s.word
    ensures Inv(ExecPushHead(s, t, n, head, after))
  {
    FactsHold(s, t, n);
    if s.head == head {
      KeepsPush(s, ExecPushHead(s, t, n, head, after), t, Resume(after), n);
    } else {
      KeepsGoto(s, t, Unpublish(n, s.head, after), n);
    }
  }

  lemma KeepsUnpublish(s: State, t: Tid, n: Node, head: Option<Node>, after: After)
    requires Inv(s) && t in s.pc && s.pc[t] == Unpublish(n, head, after) && n in s.word
    ensures Inv(ExecUnpublish(s, t, n, head, after))
  {
    FactsHold(s, t, n);
    var word := FetchAdd(s.word[n], SHOULD_BE_ON_FREELIST - 1);
    if s.word[n] == 1 {
      KeepsMove(s, t, StoreNext(n, head, after), n, word, s.next[n], Bare(t));
    } else {
      KeepsMove(s, t, Resume(after), n, word, s.next[n], Flagged);
    }
  }

  lemma KeepsTakeRef(s: State, t: Tid, n: Node, refs: int)
    requires Inv(s) && t in s.pc && s.pc[t] == TakeRef(n, refs) && n in s.word
    ensures Inv(ExecTakeRef(s, t, n, refs))
  {
    FactsHold(s, t, n);
    if Refs(refs) != 0 && s.word[n] == refs {
      KeepsMove(s, t, LoadNext(n), n, FetchAdd(refs, 1), s.next[n], s.status[n]);
    } else {
      KeepsGoto(s, t, GetHead, n);
    }
  }

  lemma KeepsPopHead(s: State, t: Tid, n: Node, next: Option<Node>)
    requires Inv(s) && t in s.pc && s.pc[t] == PopHead(n, next) && n in s.word
    ensures Inv(ExecPopHead(s, t, n, next))
  {
    FactsHold(s, t, n);
    if s.head == Some(n) {
      assert s.list[0] in s.list && ListedIff(s, n);
      KeepsPop(s, ExecPopHead(s, t, n, next), t, DropTwo(n), n, Popped(t));
    } else {
      KeepsGoto(s, t, DropOne(n, s.head), n);
    }
  }

  lemma KeepsDropTwo(s: State, t: Tid, n: Node)
    requires Inv(s) && t in s.pc && s.pc[t] == DropTwo(n) && n in s.word
    ensures Inv(ExecDropTwo(s, t, n))
  {
    FactsHold(s, t, n);
    KeepsMove(s, t, Idle, n, FetchAdd(s.word[n], -2), s.next[n], Held);
  }

  /** The last reference holder of a flagged node goes on to add it. */
  lemma KeepsDropOne(s: State, t: Tid, n: Node, newHead: Option<Node>)
    requires Inv(s) && t in s.pc && s.pc[t] == DropOne(n, newHead) && n in s.word
    ensures Inv(ExecDropOne(s, t, n, newHead))
  {
    FactsHold(s, t, n);
    var word := FetchAdd(s.word[n], -1);
    if s.word[n] == SHOULD_BE_ON_FREELIST + 1 {
      KeepsMove(s, t, LoadHead(n, Retry(newHead)), n, word, s.next[n], Bare(t));
    } else {
      KeepsMove(s, t, LoopTest(newHead), n, word, s.next[n], s.status[n]);
    }
  }

  lemma ExecKeepsInv(s: State, t: Tid)
    requires Inv(s) && t in s.pc
    ensures Inv(Exec(s, t))
  {
    assert KnownAt(s, t);
    match s.pc[t]
    case Idle =>
    case AddFlag(n) => KeepsAddFlag(s, t, n);
    case LoadHead(n, after) => FactsHold(s, t, n); KeepsGoto(s, t, StoreNext(n, s.head, after), n);
    case StoreNext(n, head, after) => KeepsStoreNext(s, t, n, head, after);
    case StoreRef(n, head, after) => KeepsStoreRef(s, t, n, head, after);
    case PushHead(n, head, after) => KeepsPushHead(s, t, n, head, after);
    case Unpublish(n, head, after) => KeepsUnpublish(s, t, n, head, after);
    case GetHead => KeepsIdleGoto(s, t, LoopTest(s.head));
    case LoadRefs(n) => FactsHold(s, t, n); KeepsGoto(s, t, TakeRef(n, s.word[n]), n);
    case TakeRef(n, refs) => KeepsTakeRef(s, t, n, refs);
    case LoadNext(n) => FactsHold(s, t, n); KeepsGoto(s, t, PopHead(n, s.next[n]), n);
    case PopHead(n, next) => KeepsPopHead(s, t, n, next);
    case DropTwo(n) => KeepsDropTwo(s, t, n);
    case DropOne(n, newHead) => KeepsDropOne(s, t, n, newHead);
  }

  lemma InitGivesInv(s: State)
    requires Init(s)
    ensures Inv(s)
  {
    forall n | n in s.word ensures Counted(s, n) {
      TotalZero(s.pc, RefWeight(n));
    }
  }

  lemma NextKeepsInv(s: State, s': State)
    requires Inv(s) && Next(s, s')
    ensures Inv(s')
  {
    var t :| t in s.pc && (s' == Exec(s, t) || StartGet(s, s', t) || exists n :: StartAdd(s, s', t, n));
    if s' == Exec(s, t) {
      ExecKeepsInv(s, t);
    } else if StartGet(s, s', t) {
      KeepsStartGet(s, s', t);
    } else {
      var n :| StartAdd(s, s', t, n);
      KeepsStartAdd(s, s', t, n);
    }
  }

  /** The invariant holds in every state of every run. */
  lemma {:induction false} RunKeepsInv(run: seq<State>, i: nat)
    requires IsRun(run) && i < |run|
    ensures Inv(run[i])
  {
    if i == 0 {
      InitGivesInv(run[0]);
    } else {
      RunKeepsInv(run, i - 1);
      assert StepAt(run, i - 1);
      NextKeepsInv(run[i - 1], run[i]);
    }
  }

  // --------------------------------------------------------- main results

  /** A thread that has taken a node off the list finds its flag clear. */
  lemma PoppedFlagIsClear(run: seq<State>, i: nat, t: Tid)
    requires IsRun(run) && i < |run|
    requires t in run[i].pc && run[i].pc[t].DropTwo?
    ensures run[i].pc[t].node in run[i].word
    ensures 2 <= run[i].word[run[i].pc[t].node] < SHOULD_BE_ON_FREELIST
  {
    var s := run[i];
    RunKeepsInv(run, i);
    assert KnownAt(s, t);
    FactsHold(s, t, s.pc[t].node);
  }

  /** No node is ever in two hands: two threads that are leaving, adding or
      returning a node work on different nodes, none of which a client holds,
      none of which is on the list. */
  lemma HandsAreExclusive(run: seq<State>, i: nat, t: Tid, u: Tid)
    requires IsRun(run) && i < |run| && t in run[i].pc && u in run[i].pc && t != u
    requires !DutyAt(run[i].pc[t]).NoDuty?
    ensures DutyAt(run[i].pc[u]).NoDuty? || DutyAt(run[i].pc[u]).node != DutyAt(run[i].pc[t]).node
    ensures DutyAt(run[i].pc[t]).node !in run[i].list
    ensures DutyAt(run[i].pc[t]).node in run[i].status && InHands(run[i].status[DutyAt(run[i].pc[t]).node])
  {
    var s := run[i];
    RunKeepsInv(run, i);
    assert Conforms(s, t) && Conforms(s, u);
    assert ListedIff(s, DutyAt(s.pc[t]).node);
  }

  /** No ABA: a successful pop installs the true successor of the head, and the
      node it hands out was on the list, so nobody else had it. */
  lemma PopTakesTheHead(run: seq<State>, i: nat, t: Tid)
    requires IsRun(run) && i < |run|
    requires t in run[i].pc && run[i].pc[t].PopHead? && run[i].head == Some(run[i].pc[t].node)
    ensures run[i].list != [] && run[i].list[0] == run[i].pc[t].node
    ensures run[i].pc[t].next == HeadOf(run[i].list[1..])
    ensures run[i].status.Keys == run[i].word.Keys && run[i].pc[t].node in run[i].status
    ensures run[i].status[run[i].pc[t].node] == Listed
  {
    var s := run[i];
    RunKeepsInv(run, i);
    assert KnownAt(s, t) && Conforms(s, t);
    assert Linked(s.next, s.list, 0);
    assert s.list[0] in s.list && ListedIff(s, s.list[0]);
  }

  /** The nodes met by following k links from the head. */
  ghost function Follow(s: State, from: Option<Node>, k: nat): seq<Node>
    decreases k
  {
    if k == 0 || from.None? || from.value !in s.next then []
    else [from.value] + Follow(s, s.next[from.value], k - 1)
  }

  lemma {:induction false} FollowIsList(s: State, k: nat, i: nat)
    requires Inv(s) && i <= |s.list| && k > |s.list| - i
    ensures Follow(s, HeadOf(s.list[i..]), k) == s.list[i..]
    decreases |s.list| - i
  {
    if i < |s.list| {
      assert Linked(s.next, s.list, i);
      FollowIsList(s, k - 1, i + 1);
      assert s.list[i..] == [s.list[i]] + s.list[i + 1..];
    }
  }

  /** The list is acyclic: following links from the head visits each listed node
      once, visits nothing else, and stops. */
  lemma ListIsAcyclic(run: seq<State>, i: nat, k: nat)
    requires IsRun(run) && i < |run| && k > |run[i].list|
    ensures Follow(run[i], run[i].head, k) == run[i].list
    ensures Distinct(run[i].list)
    ensures forall n :: n in run[i].list <==> n in run[i].status && run[i].status[n] == Listed
  {
    RunKeepsInv(run, i);
    assert run[i].list[0..] == run[i].list;
    FollowIsList(run[i], k, 0);
    forall n ensures n in run[i].list <==> n in run[i].status && run[i].status[n] == Listed {
      assert ListedIff(run[i], n);
    }
  }

  /** What each status means for the word, the list and the threads: every node
      is with a client, on the list, in the hands of one thread, or flagged and
      referenced by some thread that will add it. */
  lemma EveryNodeIsAccountedFor(run: seq<State>, i: nat, n: Node)
    requires IsRun(run) && i < |run| && n in run[i].word
    ensures var s := run[i];
      && n in s.status
      && (s.status[n].Held? ==> s.word[n] < SHOULD_BE_ON_FREELIST && n !in s.list)
      && (s.status[n].Listed? <==> n in s.list)
      && (InHands(s.status[n]) ==> s.status[n].t in s.pc && DutyAt(s.pc[s.status[n].t]) != NoDuty
                                   && DutyAt(s.pc[s.status[n].t]).node == n)
      && (s.status[n].Flagged? ==> s.word[n] > SHOULD_BE_ON_FREELIST
                                   && exists t :: t in s.pc && RefsOn(s.pc[t], n) > 0)
  {
    var s := run[i];
    RunKeepsInv(run, i);
    assert Counted(s, n) && Minded(s, n) && ListedIff(s, n);
    RefsBounded(s, n);
    if s.status[n].Flagged? {
      TotalWitness(s.pc, RefWeight(n));
      var t :| t in s.pc && RefWeight(n)(s.pc[t]) > 0;
      assert RefsOn(s.pc[t], n) > 0;
    }
  }

  /** Nothing is lost: once every thread is idle, each node is held by a client
      with a zero word, or on the list with exactly the list's reference. */
  lemma NoneLostWhenIdle(run: seq<State>, i: nat, n: Node)
    requires IsRun(run) && i < |run| && n in run[i].word
    requires forall t :: t in run[i].pc ==> run[i].pc[t] == Idle
    ensures n in run[i].status
    ensures run[i].word[n] == if n in run[i].list then 1 else 0
    ensures n !in run[i].list <==> run[i].status[n] == Held
  {
    var s := run[i];
    RunKeepsInv(run, i);
    TotalZero(s.pc, RefWeight(n));
    assert Counted(s, n) && Minded(s, n) && ListedIff(s, n);
  }
}
