/** Where blocks come from and where they go: the initial pool, handed out by a
    counter that may run past the end, the free list, and the allocator. */
module BlockPool {
  import opened Options

  type Tid = nat
  type Block = nat

  datatype Pc =
    | Idle
    | LoadIndex
    | FetchAdd
    | TryList
    | Create
    | Got(block: Option<Block>)

  /** Blocks 0 .. size - 1 are the initial pool; later ones were allocated. `listed`
      is in the free list's custody; `held` says in which producer's hands a block is,
      where a producer has the name of the thread that enqueues with it; `destroyed`
      was given back to the allocator. `recycles` says whether allocated blocks may
      enter the free list. History: the number of blocks that exist or existed. */
  datatype State = State(
    size: nat,
    recycles: bool,
    index: nat,
    listed: set<Block>,
    held: map<Block, Tid>,
    destroyed: set<Block>,
    known: nat,
    pc: map<Tid, Pc>)

  function Goto(s: State, t: Tid, p: Pc): State {
    s.(pc := s.pc[t := p])
  }

  ghost predicate Begin(s: State, s': State, t: Tid) {
    t in s.pc && s.pc[t] == Idle && s' == Goto(s, t, LoadIndex)
  }

  /** try_get_block_from_initial_pool: look first, then take a number. */
  ghost predicate DoLoadIndex(s: State, s': State, t: Tid) {
    t in s.pc && s.pc[t] == LoadIndex && s' == Goto(s, t, if s.index >= s.size then TryList else FetchAdd)
  }

  ghost predicate DoFetchAdd(s: State, s': State, t: Tid) {
    && t in s.pc && s.pc[t] == FetchAdd
    && s' == if s.index < s.size then
               Goto(s, t, Got(Some(s.index))).(index := s.index + 1, held := s.held[s.index := t])
             else Goto(s, t, TryList).(index := s.index + 1)
  }

  /** The free list hands out a block in its custody, or nothing. */
  ghost predicate DoTryList(s: State, s': State, t: Tid, b: Option<Block>) {
    && t in s.pc && s.pc[t] == TryList
    && match b
       case Some(x) => x in s.listed && s' == Goto(s, t, Got(b)).(listed := s.listed - {x}, held := s.held[x := t])
       case None => s' == Goto(s, t, Create)
  }

  /** Allocation, which may fail or not be allowed. */
  ghost predicate DoCreate(s: State, s': State, t: Tid) {
    && t in s.pc && s.pc[t] == Create
    && (|| s' == Goto(s, t, Got(None))
        || s' == Goto(s, t, Got(Some(s.known))).(known := s.known + 1, held := s.held[s.known := t]))
  }

  ghost predicate Finish(s: State, s': State, t: Tid) {
    t in s.pc && s.pc[t].Got? && s' == Goto(s, t, Idle)
  }

  /** add_block_to_free_list, on behalf of the producer that holds the block. */
  ghost predicate Release(s: State, s': State, b: Block) {
    && b in s.held
    && s' == if !s.recycles && b >= s.size then s.(held := s.held - {b}, destroyed := s.destroyed + {b})
             else s.(held := s.held - {b}, listed := s.listed + {b})
  }

  ghost predicate Init(s: State) {
    && s.index == 0 && s.listed == s.destroyed == {} && s.held == map[] && s.known == s.size
    && forall t :: t in s.pc ==> s.pc[t] == Idle
  }

  ghost predicate ThreadStep(s: State, s': State, t: Tid) {
    Begin(s, s', t) || DoLoadIndex(s, s', t) || DoFetchAdd(s, s', t) || DoCreate(s, s', t) || Finish(s, s', t)
  }

  ghost predicate Next(s: State, s': State) {
    || (exists t :: ThreadStep(s, s', t))
    || (exists t, b :: DoTryList(s, s', t, b))
    || (exists b :: Release(s, s', b))
  }

  ghost predicate StepAt(run: seq<State>, i: nat)
    requires i + 1 < |run|
  {
    Next(run[i], run[i + 1])
  }

  ghost predicate IsRun(run: seq<State>) {
    && run != [] && Init(run[0])
    && forall i: nat {:trigger StepAt(run, i)} :: i + 1 < |run| ==> StepAt(run, i)
  }

  // ----------------------------------------------------------------- invariant

  /** Still in the initial pool. */
  predicate Unclaimed(s: State, b: Block) {
    s.index <= b < s.size
  }

  function OneIf(c: bool): nat {
    if c then 1 else 0
  }

  /** A known block is in exactly one place, an unknown one nowhere. */
  ghost predicate PlaceOk(s: State, b: Block) {
    && OneIf(Unclaimed(s, b)) + OneIf(b in s.listed) + OneIf(b in s.held) + OneIf(b in s.destroyed)
       == OneIf(b < s.known)
    && (b < s.size ==> b !in s.destroyed)
    && (!s.recycles && b in s.listed ==> b < s.size)
  }

  ghost predicate Inv(s: State) {
    s.size <= s.known && forall b: Block {:trigger PlaceOk(s, b)} :: PlaceOk(s, b)
  }

  lemma KeepsFetchAdd(s: State, s': State, t: Tid)
    requires Inv(s) && DoFetchAdd(s, s', t)
    ensures Inv(s')
  {
    forall b: Block ensures PlaceOk(s', b) {
      assert PlaceOk(s, b);
    }
  }

  lemma KeepsTryList(s: State, s': State, t: Tid, b: Option<Block>)
    requires Inv(s) && DoTryList(s, s', t, b)
    ensures Inv(s')
  {
    forall x: Block ensures PlaceOk(s', x) {
      assert PlaceOk(s, x);
    }
  }

  lemma KeepsCreate(s: State, s': State, t: Tid)
    requires Inv(s) && DoCreate(s, s', t)
    ensures Inv(s')
  {
    forall b: Block ensures PlaceOk(s', b) {
      assert PlaceOk(s, b);
    }
  }

  lemma KeepsRelease(s: State, s': State, b: Block)
    requires Inv(s) && Release(s, s', b)
    ensures Inv(s')
  {
    forall x: Block ensures PlaceOk(s', x) {
      assert PlaceOk(s, x);
    }
  }

  lemma KeepsControl(s: State, s': State, t: Tid)
    requires Inv(s) && (Begin(s, s', t) || DoLoadIndex(s, s', t) || Finish(s, s', t))
    ensures Inv(s')
  {
    forall b: Block ensures PlaceOk(s', b) {
      assert PlaceOk(s, b);
    }
  }

  lemma NextKeepsInv(s: State, s': State)
    requires Inv(s) && Next(s, s')
    ensures Inv(s')
  {
    if b :| Release(s, s', b) {
      KeepsRelease(s, s', b);
    } else if t, b :| DoTryList(s, s', t, b) {
      KeepsTryList(s, s', t, b);
    } else {
      var t :| ThreadStep(s, s', t);
      if DoFetchAdd(s, s', t) { KeepsFetchAdd(s, s', t); }
      else if DoCreate(s, s', t) { KeepsCreate(s, s', t); }
      else { KeepsControl(s, s', t); }
    }
  }

  lemma {:induction false} RunKeepsInv(run: seq<State>, i: nat)
    requires IsRun(run) && i < |run|
    ensures Inv(run[i])
  {
    if i == 0 {
      forall b: Block ensures PlaceOk(run[0], b) {
      }
    } else {
      RunKeepsInv(run, i - 1);
      assert StepAt(run, i - 1);
      NextKeepsInv(run[i - 1], run[i]);
    }
  }

  // --------------------------------------------------------------- main results

  /** Every block of the initial pool is at all times in exactly one of the pool, the
      free list and the hands of one producer. */
  lemma PoolBlockHasOnePlace(run: seq<State>, i: nat, b: Block)
    requires IsRun(run) && i < |run| && b < run[i].size
    ensures var s := run[i];
      OneIf(Unclaimed(s, b)) + OneIf(b in s.listed) + OneIf(b in s.held) == 1
  {
    RunKeepsInv(run, i);
    assert PlaceOk(run[i], b);
  }

  /** A step by which t receives block b. */
  ghost predicate HandsOut(s: State, s': State, t: Tid, b: Block) {
    Next(s, s') && t in s.pc && !s.pc[t].Got? && t in s'.pc && s'.pc[t] == Got(Some(b))
  }

  /** A block that a thread receives was in nobody's hands, and is then in its own. */
  lemma HandedOutOnce(run: seq<State>, i: nat, t: Tid, b: Block)
    requires IsRun(run) && i + 1 < |run| && HandsOut(run[i], run[i + 1], t, b)
    ensures b !in run[i].held && run[i + 1].held == run[i].held[b := t]
  {
    RunKeepsInv(run, i);
    assert PlaceOk(run[i], b);
    StepHandsOut(run[i], run[i + 1], t, b);
  }

  lemma StepHandsOut(s: State, s': State, t: Tid, b: Block)
    requires PlaceOk(s, b) && HandsOut(s, s', t, b)
    ensures b !in s.held && s'.held == s.held[b := t]
  {
    HandsOutHow(s, s', t, b);
  }

  lemma HandsOutHow(s: State, s': State, t: Tid, b: Block)
    requires HandsOut(s, s', t, b)
    ensures DoFetchAdd(s, s', t) || DoTryList(s, s', t, Some(b)) || DoCreate(s, s', t)
  {
    if u :| ThreadStep(s, s', u) {
      ThreadHandsOut(s, s', u, t, b);
    } else if u, x :| DoTryList(s, s', u, x) {
      ListHandsOut(s, s', u, x, t, b);
    }
  }

  lemma ThreadHandsOut(s: State, s': State, u: Tid, t: Tid, b: Block)
    requires ThreadStep(s, s', u) && t in s.pc && !s.pc[t].Got? && t in s'.pc && s'.pc[t] == Got(Some(b))
    ensures DoFetchAdd(s, s', t) || DoCreate(s, s', t)
  {
  }

  lemma ListHandsOut(s: State, s': State, u: Tid, x: Option<Block>, t: Tid, b: Block)
    requires DoTryList(s, s', u, x) && t in s.pc && !s.pc[t].Got? && t in s'.pc && s'.pc[t] == Got(Some(b))
    ensures DoTryList(s, s', t, Some(b))
  {
  }

  // --------------------------------------------------- the initial pool comes first

  /** The thread has been turned away by the initial pool. */
  predicate PastPool(p: Pc) {
    p.TryList? || p.Create? || p == Got(None)
  }

  ghost predicate PoolIsDry(s: State, t: Tid)
    requires t in s.pc
  {
    PastPool(s.pc[t]) ==> s.index >= s.size
  }

  lemma ThreadStepKeepsDry(s: State, s': State, u: Tid, t: Tid)
    requires ThreadStep(s, s', u) && (t in s.pc ==> PoolIsDry(s, t))
    ensures t in s'.pc ==> t in s.pc && PoolIsDry(s', t)
  {
  }

  lemma ListStepKeepsDry(s: State, s': State, u: Tid, b: Option<Block>, t: Tid)
    requires DoTryList(s, s', u, b) && (t in s.pc ==> PoolIsDry(s, t))
    requires u in s.pc && PoolIsDry(s, u)
    ensures t in s'.pc ==> t in s.pc && PoolIsDry(s', t)
  {
  }

  ghost predicate AllDry(s: State) {
    forall t {:trigger PoolIsDry(s, t)} :: t in s.pc ==> PoolIsDry(s, t)
  }

  lemma StepKeepsDry(s: State, s': State)
    requires AllDry(s) && Next(s, s')
    ensures AllDry(s')
  {
    forall t | t in s'.pc ensures PoolIsDry(s', t) {
      if b :| Release(s, s', b) {
        assert PoolIsDry(s, t);
      } else if u, b :| DoTryList(s, s', u, b) {
        assert PoolIsDry(s, u);
        ListStepKeepsDry(s, s', u, b, t);
      } else {
        var u :| ThreadStep(s, s', u);
        ThreadStepKeepsDry(s, s', u, t);
      }
    }
  }

  lemma {:induction false} RunKeepsDry(run: seq<State>, i: nat)
    requires IsRun(run) && i < |run|
    ensures AllDry(run[i])
  {
    if i > 0 {
      RunKeepsDry(run, i - 1);
      assert StepAt(run, i - 1);
      StepKeepsDry(run[i - 1], run[i]);
    }
  }

  /** Only when no block of the initial pool is left does a call look elsewhere, or come
      back with nothing. */
  lemma PoolUsedFirst(run: seq<State>, i: nat, t: Tid, b: Block)
    requires IsRun(run) && i < |run| && t in run[i].pc && PastPool(run[i].pc[t])
    ensures !Unclaimed(run[i], b)
  {
    RunKeepsDry(run, i);
    assert PoolIsDry(run[i], t);
  }

  /** So what a thread receives is the first block that is left of the initial pool, and if
      none is left, one from the free list or one that did not exist before. */
  lemma FirstBlockFirst(run: seq<State>, i: nat, t: Tid, b: Block)
    requires IsRun(run) && i + 1 < |run| && HandsOut(run[i], run[i + 1], t, b)
    ensures if Unclaimed(run[i], run[i].index) then b == run[i].index && !Unclaimed(run[i + 1], b)
            else b in run[i].listed || (b == run[i].known && run[i + 1].known == b + 1)
    ensures !Unclaimed(run[i], run[i].index) ==> forall x: Block :: !Unclaimed(run[i], x)
  {
    RunKeepsDry(run, i);
    assert PoolIsDry(run[i], t);
    HandsOutHow(run[i], run[i + 1], t, b);
  }

  /** How many steps the thread is from having a block, at best. */
  function Left(p: Pc): nat {
    match p
    case Idle => 5
    case LoadIndex => 4
    case FetchAdd => 3
    case TryList => 2
    case Create => 1
    case _ => 0
  }

  /** The thread's next step if the free list has nothing and the allocator a block. */
  function Ahead(s: State, t: Tid): State
    requires t in s.pc
  {
    match s.pc[t]
    case Idle => Goto(s, t, LoadIndex)
    case LoadIndex => Goto(s, t, if s.index >= s.size then TryList else FetchAdd)
    case FetchAdd =>
      if s.index < s.size then
        Goto(s, t, Got(Some(s.index))).(index := s.index + 1, held := s.held[s.index := t])
      else Goto(s, t, TryList).(index := s.index + 1)
    case TryList => Goto(s, t, Create)
    case Create => Goto(s, t, Got(Some(s.known))).(known := s.known + 1, held := s.held[s.known := t])
    case _ => s
  }

  lemma AheadIsStep(s: State, t: Tid)
    requires t in s.pc && !s.pc[t].Got?
    ensures Next(s, Ahead(s, t)) && Left(Ahead(s, t).pc[t]) < Left(s.pc[t])
    ensures var s' := Ahead(s, t);
      s'.pc[t].Got? ==> s'.pc[t].block.Some? && s'.pc[t].block.value in s'.held
  {
    if s.pc[t] == TryList {
      assert DoTryList(s, Ahead(s, t), t, None);
    } else {
      assert ThreadStep(s, Ahead(s, t), t);
    }
  }

  /** The end of the run: t has a block. */
  ghost predicate HasBlock(run: seq<State>, t: Tid)
    requires run != []
  {
    var s := run[|run| - 1];
    t in s.pc && s.pc[t].Got? && s.pc[t].block.Some? && s.pc[t].block.value in s.held
    && s.held[s.pc[t].block.value] == t
  }

  /** A thread can call at any time, and wherever a call is, it can still get a block if
      memory can be had. */
  lemma {:induction false} CallCanSucceed(run: seq<State>, t: Tid)
    requires IsRun(run) && t in run[|run| - 1].pc && !run[|run| - 1].pc[t].Got?
    ensures exists longer: seq<State> :: IsRun(longer) && run <= longer && |longer| <= |run| + 5 && HasBlock(longer, t)
  {
    var longer := GoesAhead(run, t);
  }

  lemma {:induction false} GoesAhead(run: seq<State>, t: Tid) returns (longer: seq<State>)
    requires IsRun(run) && t in run[|run| - 1].pc && !run[|run| - 1].pc[t].Got?
    ensures IsRun(longer) && run <= longer && |longer| <= |run| + Left(run[|run| - 1].pc[t]) && HasBlock(longer, t)
    decreases Left(run[|run| - 1].pc[t])
  {
    var last := run[|run| - 1];
    AheadIsStep(last, t);
    var next := run + [Ahead(last, t)];
    forall k: nat | k + 1 < |next| ensures StepAt(next, k) {
      if k + 1 < |run| {
        assert StepAt(run, k);
      }
    }
    if next[|next| - 1].pc[t].Got? {
      longer := next;
    } else {
      longer := GoesAhead(next, t);
    }
  }

  /** With recycling off only blocks of the initial pool ever enter the free list,
      and they are never destroyed. */
  lemma OnlyPoolBlocksRecycled(run: seq<State>, i: nat, b: Block)
    requires IsRun(run) && i < |run|
    ensures !run[i].recycles && b in run[i].listed ==> b < run[i].size
    ensures b < run[i].size ==> b !in run[i].destroyed
  {
    RunKeepsInv(run, i);
    assert PlaceOk(run[i], b);
  }
}
