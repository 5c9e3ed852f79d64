/** The pool with the free list that it really has: a block that the pool gives to the free
    list is a node that some thread begins to add, and a block that it takes from there is
    one that a thread returns from try_get. The pool's set of listed blocks is then what
    the free list has in its custody. */
module RecycledBlocks {
  import opened Options
  import Pool = BlockPool
  import List = FreeList
  import Calls = FreeListCalls

  type Block = nat
  type Tid = nat

  /** The nodes of the list are some blocks that exist or will. */
  datatype State = State(pool: Pool.State, list: List.State)

  /** Not with a client. */
  ghost predicate InCustody(list: List.State, b: Block) {
    b in list.status && list.status[b] != List.Held
  }

  /** A step of the pool in which the free list has no part. */
  ghost predicate PoolAlone(s: State, s': State) {
    && s'.list == s.list
    && (|| (exists t :: Pool.ThreadStep(s.pool, s'.pool, t))
        || (exists b :: Pool.Release(s.pool, s'.pool, b) && b !in s'.pool.listed))
  }

  /** A step inside try_get or add: only a thread that the pool sends there begins a
      try_get, and its return is a step of the pool too. */
  ghost predicate ListAlone(s: State, s': State, t: Tid) {
    && s'.pool == s.pool && List.NodesKnown(s.list) && t in s.list.pc
    && (|| (t in s.pool.pc && s.pool.pc[t] == Pool.TryList && List.StartGet(s.list, s'.list, t))
        || (!ReturnsFromGet(s.list, t) && s'.list == List.Exec(s.list, t)))
  }

  /** t's next step is its return from try_get, with a node or without. */
  ghost predicate ReturnsFromGet(list: List.State, t: Tid)
    requires List.NodesKnown(list) && t in list.pc
  {
    list.pc[t].DropTwo? || ReturnsNothing(list, t)
  }

  ghost predicate ReturnsNothing(list: List.State, t: Tid)
    requires List.NodesKnown(list) && t in list.pc
  {
    Calls.Getting(list.pc[t]) && t in List.Exec(list, t).pc && List.Exec(list, t).pc[t] == List.Idle
  }

  ghost predicate Adds(s: State, s': State, t: Tid, b: Block) {
    && Pool.Release(s.pool, s'.pool, b) && b in s'.pool.listed
    && List.NodesKnown(s.list) && List.StartAdd(s.list, s'.list, t, b)
  }

  ghost predicate Gets(s: State, s': State, t: Tid, b: Block) {
    && Pool.DoTryList(s.pool, s'.pool, t, Some(b))
    && List.NodesKnown(s.list) && t in s.list.pc && s.list.pc[t] == List.DropTwo(b)
    && s'.list == List.Exec(s.list, t)
  }

  ghost predicate GetsNothing(s: State, s': State, t: Tid) {
    && Pool.DoTryList(s.pool, s'.pool, t, None)
    && List.NodesKnown(s.list) && t in s.list.pc && ReturnsNothing(s.list, t)
    && s'.list == List.Exec(s.list, t)
  }

  ghost predicate Init(s: State) {
    Pool.Init(s.pool) && List.Init(s.list)
  }

  ghost predicate Next(s: State, s': State) {
    || PoolAlone(s, s') || (exists t :: ListAlone(s, s', t))
    || (exists t, b :: Adds(s, s', t, b)) || (exists t, b :: Gets(s, s', t, b))
    || (exists t :: GetsNothing(s, s', t))
  }

  ghost predicate StepAt(run: seq<State>, i: nat)
    requires i + 1 < |run|
  {
    Next(run[i], run[i + 1])
  }

  ghost predicate IsRun(run: seq<State>) {
    && run != [] && Init(run[0])
    && forall i: nat {:trigger StepAt(run, i)} :: i + 1 < |run| ==> StepAt(run, i)
  }

  // ----------------------------------------------------------------- invariant

  ghost predicate Agree(s: State, b: Block) {
    b in s.pool.listed <==> InCustody(s.list, b)
  }

  ghost predicate Linked(s: State) {
    forall b: Block {:trigger Agree(s, b)} :: Agree(s, b)
  }

  /** A thread inside try_get is where the pool asks the free list. */
  predicate InGet(p: List.Pc) {
    Calls.Getting(p) || p.DropTwo?
  }

  ghost predicate Asks(s: State, t: Tid)
    requires t in s.list.pc
  {
    InGet(s.list.pc[t]) ==> t in s.pool.pc && s.pool.pc[t] == Pool.TryList
  }

  ghost predicate AllAsk(s: State) {
    forall t {:trigger Asks(s, t)} :: t in s.list.pc ==> Asks(s, t)
  }

  ghost predicate Inv(s: State) {
    Pool.Inv(s.pool) && List.Inv(s.list) && Linked(s) && AllAsk(s)
  }

  /** Inside add and try_get no node comes to a client or from one, but at the return of
      try_get. */
  lemma ExecKeepsCustody(list: List.State, t: Tid, b: Block)
    requires List.Inv(list) && t in list.pc && !list.pc[t].DropTwo?
    ensures InCustody(List.Exec(list, t), b) <==> InCustody(list, b)
  {
    assert List.KnownAt(list, t);
    if b in list.word {
      List.FactsHold(list, t, b);
    }
    if list.list != [] {
      assert list.list[0] in list.list && List.ListedIff(list, list.list[0]);
    }
  }

  lemma ReturnEndsCustody(list: List.State, t: Tid, n: Block, b: Block)
    requires List.Inv(list) && t in list.pc && list.pc[t] == List.DropTwo(n)
    ensures InCustody(list, n)
    ensures InCustody(List.Exec(list, t), b) <==> InCustody(list, b) && b != n
  {
    assert List.KnownAt(list, t);
    List.FactsHold(list, t, n);
  }

  lemma NothingKeepsCustody(list: List.State, t: Tid, b: Block)
    requires List.Inv(list) && t in list.pc && ReturnsNothing(list, t)
    ensures InCustody(List.Exec(list, t), b) <==> InCustody(list, b)
  {
    ExecKeepsCustody(list, t, b);
  }

  lemma ListStep(list: List.State, list': List.State, t: Tid)
    requires List.NodesKnown(list) && t in list.pc
    requires
      || list' == List.Exec(list, t) || List.StartGet(list, list', t)
      || exists n :: List.StartAdd(list, list', t, n)
    ensures List.Next(list, list')
  {
  }

  /** One step moves t, in both parts. */
  lemma OthersAsk(s: State, s': State, t: Tid)
    requires AllAsk(s) && t in s.list.pc && t in s'.list.pc && s'.list.pc == s.list.pc[t := s'.list.pc[t]]
    requires s'.pool.pc == s.pool.pc || (t in s'.pool.pc && s'.pool.pc == s.pool.pc[t := s'.pool.pc[t]])
    requires Asks(s', t)
    ensures AllAsk(s')
  {
    forall u | u in s'.list.pc ensures Asks(s', u) {
      assert u != t ==> Asks(s, u);
    }
  }

  lemma ExecStaysOut(list: List.State, t: Tid)
    requires List.NodesKnown(list) && t in list.pc && !InGet(list.pc[t])
    ensures t in List.Exec(list, t).pc && !InGet(List.Exec(list, t).pc[t])
  {
    assert List.KnownAt(list, t);
  }

  lemma ListAloneAsks(s: State, s': State, t: Tid)
    requires AllAsk(s) && ListAlone(s, s', t)
    ensures AllAsk(s')
  {
    assert Asks(s, t);
    if s'.list == List.Exec(s.list, t) {
      Calls.ExecMovesOne(s.list, t);
      if !InGet(s.list.pc[t]) {
        ExecStaysOut(s.list, t);
      }
    }
    OthersAsk(s, s', t);
  }

  lemma KeepsListAlone(s: State, s': State, t: Tid)
    requires Inv(s) && ListAlone(s, s', t)
    ensures Inv(s')
  {
    ListStep(s.list, s'.list, t);
    List.NextKeepsInv(s.list, s'.list);
    ListAloneAsks(s, s', t);
    forall b: Block ensures Agree(s', b) {
      assert Agree(s, b);
      if s'.list == List.Exec(s.list, t) && !ReturnsFromGet(s.list, t) {
        ExecKeepsCustody(s.list, t, b);
      }
    }
  }

  lemma KeepsAdds(s: State, s': State, t: Tid, b: Block)
    requires Inv(s) && Adds(s, s', t, b)
    ensures Inv(s')
  {
    ListStep(s.list, s'.list, t);
    List.NextKeepsInv(s.list, s'.list);
    Pool.KeepsRelease(s.pool, s'.pool, b);
    OthersAsk(s, s', t);
    forall x: Block ensures Agree(s', x) {
      assert Agree(s, x);
    }
  }

  /** A thread back from try_get is not inside it. */
  lemma BackAsks(s: State, s': State, t: Tid, b: Option<Block>)
    requires AllAsk(s) && Pool.DoTryList(s.pool, s'.pool, t, b)
    requires List.NodesKnown(s.list) && t in s.list.pc && ReturnsFromGet(s.list, t) && s'.list == List.Exec(s.list, t)
    ensures AllAsk(s')
  {
    Calls.ExecMovesOne(s.list, t);
    OthersAsk(s, s', t);
  }

  lemma KeepsGets(s: State, s': State, t: Tid, b: Block)
    requires Inv(s) && Gets(s, s', t, b)
    ensures Inv(s')
  {
    ListStep(s.list, s'.list, t);
    List.NextKeepsInv(s.list, s'.list);
    Pool.KeepsTryList(s.pool, s'.pool, t, Some(b));
    BackAsks(s, s', t, Some(b));
    forall x: Block ensures Agree(s', x) {
      assert Agree(s, x);
      ReturnEndsCustody(s.list, t, b, x);
    }
  }

  lemma KeepsGetsNothing(s: State, s': State, t: Tid)
    requires Inv(s) && GetsNothing(s, s', t)
    ensures Inv(s')
  {
    ListStep(s.list, s'.list, t);
    List.NextKeepsInv(s.list, s'.list);
    Pool.KeepsTryList(s.pool, s'.pool, t, None);
    BackAsks(s, s', t, None);
    forall x: Block ensures Agree(s', x) {
      assert Agree(s, x);
      NothingKeepsCustody(s.list, t, x);
    }
  }

  lemma ThreadStepAsks(s: State, s': State, t: Tid)
    requires AllAsk(s) && s'.list == s.list && Pool.ThreadStep(s.pool, s'.pool, t)
    ensures AllAsk(s')
  {
    forall u | u in s'.list.pc ensures Asks(s', u) {
      assert Asks(s, u);
    }
  }

  lemma KeepsPoolAlone(s: State, s': State)
    requires Inv(s) && PoolAlone(s, s')
    ensures Inv(s')
  {
    Pool.NextKeepsInv(s.pool, s'.pool);
    if t :| Pool.ThreadStep(s.pool, s'.pool, t) {
      ThreadStepAsks(s, s', t);
    } else {
      forall u | u in s'.list.pc ensures Asks(s', u) {
        assert Asks(s, u);
      }
    }
    forall b: Block ensures Agree(s', b) {
      assert Agree(s, b);
    }
  }

  lemma NextKeepsInv(s: State, s': State)
    requires Inv(s) && Next(s, s')
    ensures Inv(s')
  {
    if PoolAlone(s, s') {
      KeepsPoolAlone(s, s');
    } else if t :| ListAlone(s, s', t) {
      KeepsListAlone(s, s', t);
    } else if t, b :| Adds(s, s', t, b) {
      KeepsAdds(s, s', t, b);
    } else if t, b :| Gets(s, s', t, b) {
      KeepsGets(s, s', t, b);
    } else {
      var t :| GetsNothing(s, s', t);
      KeepsGetsNothing(s, s', t);
    }
  }

  lemma InitGivesInv(s: State)
    requires Init(s)
    ensures Inv(s)
  {
    List.InitGivesInv(s.list);
    forall b: Block ensures Pool.PlaceOk(s.pool, b) {
    }
  }

  lemma {:induction false} RunKeepsInv(run: seq<State>, i: nat)
    requires IsRun(run) && i < |run|
    ensures Inv(run[i])
  {
    if i == 0 {
      InitGivesInv(run[0]);
    } else {
      RunKeepsInv(run, i - 1);
      assert StepAt(run, i - 1);
      NextKeepsInv(run[i - 1], run[i]);
    }
  }

  // --------------------------------------------------------------- main results

  /** The blocks that the pool counts as listed are those that the free list has: on the
      list, in the hands of a thread inside add or try_get, or flagged for the last thread
      that refers to it. */
  lemma ListedIsInCustody(run: seq<State>, i: nat, b: Block)
    requires IsRun(run) && i < |run|
    ensures var s := run[i];
      b in s.pool.listed <==>
        && b in s.list.status
        && (b in s.list.list || List.InHands(s.list.status[b]) || s.list.status[b] == List.Flagged)
  {
    RunKeepsInv(run, i);
    assert Agree(run[i], b) && List.ListedIff(run[i].list, b);
  }

  /** A block of the initial pool is at no time lost or in two places: not handed out yet,
      with one producer, or in the free list's custody. */
  lemma PoolBlockIsFound(run: seq<State>, i: nat, b: Block)
    requires IsRun(run) && i < |run| && b < run[i].pool.size
    ensures var s := run[i];
      Pool.OneIf(Pool.Unclaimed(s.pool, b)) + Pool.OneIf(b in s.pool.held) + Pool.OneIf(InCustody(s.list, b)) == 1
  {
    RunKeepsInv(run, i);
    assert Agree(run[i], b) && Pool.PlaceOk(run[i].pool, b);
  }

  /** The node that a thread returns from try_get is one that the pool counts as listed,
      and the thread is one that the pool waits for, so the pool can hand the block out. */
  lemma ReturnedIsListed(run: seq<State>, i: nat, t: Tid)
    requires IsRun(run) && i < |run| && t in run[i].list.pc && run[i].list.pc[t].DropTwo?
    ensures exists s' :: Gets(run[i], s', t, run[i].list.pc[t].node)
  {
    var s, b := run[i], run[i].list.pc[t].node;
    RunKeepsInv(run, i);
    ReturnEndsCustody(s.list, t, b, b);
    assert Agree(s, b) && Asks(s, t);
    var pool' := Pool.Goto(s.pool, t, Pool.Got(Some(b))).(listed := s.pool.listed - {b}, held := s.pool.held[b := t]);
    assert Gets(s, State(pool', List.Exec(s.list, t)), t, b);
  }

  /** A thread that comes back with nothing can go on to the allocator. */
  lemma EmptyHandedGoesOn(run: seq<State>, i: nat, t: Tid)
    requires IsRun(run) && i < |run| && t in run[i].list.pc
    requires List.NodesKnown(run[i].list) && ReturnsNothing(run[i].list, t)
    ensures exists s' :: GetsNothing(run[i], s', t)
  {
    var s := run[i];
    RunKeepsInv(run, i);
    assert Asks(s, t);
    assert GetsNothing(s, State(Pool.Goto(s.pool, t, Pool.Create), List.Exec(s.list, t)), t);
  }

  /** A step of t towards its return from try_get. */
  ghost predicate Moves(s: State, s': State, t: Tid) {
    && t in s.list.pc && t in s'.list.pc && s'.list.pc[t] != s.list.pc[t]
    && (ListAlone(s, s', t) || GetsNothing(s, s', t) || exists b :: Gets(s, s', t, b))
  }

  /** A thread that the pool sends to the free list can always go on there: begin, take its
      next step, or return. */
  lemma AskersNeverStuck(run: seq<State>, i: nat, t: Tid)
    requires IsRun(run) && i < |run|
    requires t in run[i].pool.pc && run[i].pool.pc[t] == Pool.TryList && t in run[i].list.pc
    ensures exists s' :: Moves(run[i], s', t)
  {
    var s := run[i];
    RunKeepsInv(run, i);
    if s.list.pc[t] == List.Idle {
      assert ListAlone(s, s.(list := List.Goto(s.list, t, List.GetHead)), t);
      assert Moves(s, s.(list := List.Goto(s.list, t, List.GetHead)), t);
    } else if s.list.pc[t].DropTwo? {
      ReturnedIsListed(run, i, t);
      var s' :| Gets(s, s', t, s.list.pc[t].node);
      ExecGoesOn(s.list, t);
      assert Moves(s, s', t);
    } else if ReturnsNothing(s.list, t) {
      EmptyHandedGoesOn(run, i, t);
      var s' :| GetsNothing(s, s', t);
      assert Moves(s, s', t);
    } else {
      ExecGoesOn(s.list, t);
      assert Moves(s, s.(list := List.Exec(s.list, t)), t);
    }
  }

  lemma ExecGoesOn(list: List.State, t: Tid)
    requires List.NodesKnown(list) && t in list.pc && list.pc[t] != List.Idle
    ensures t in List.Exec(list, t).pc && List.Exec(list, t).pc[t] != list.pc[t]
  {
    assert List.KnownAt(list, t);
  }

  /** And a block that a producer gives back is always one that a thread may add. */
  lemma ReleasedCanBeAdded(run: seq<State>, i: nat, pool': Pool.State, t: Tid, b: Block)
    requires IsRun(run) && i < |run| && Pool.Release(run[i].pool, pool', b) && b in pool'.listed
    requires b in run[i].list.word && t in run[i].list.pc && run[i].list.pc[t] == List.Idle
    ensures exists s' :: Adds(run[i], s', t, b) && s'.pool == pool'
  {
    var s := run[i];
    RunKeepsInv(run, i);
    assert Agree(s, b) && Pool.PlaceOk(s.pool, b);
    var list' := s.list.(pc := s.list.pc[t := List.AddFlag(b)], status := s.list.status[b := List.Leaving(t)]);
    assert Adds(s, State(pool', list'), t, b);
  }

  /** What the pool can do without the free list, it can do here, as long as blocks that it
      keeps for reuse are added to the list. */
  lemma PoolStepsFit(s: State, pool': Pool.State)
    requires
      || (exists t :: Pool.ThreadStep(s.pool, pool', t))
      || (exists b :: Pool.Release(s.pool, pool', b) && b !in pool'.listed)
    ensures exists s' :: Next(s, s') && s'.pool == pool'
  {
    assert PoolAlone(s, s.(pool := pool'));
    assert Next(s, s.(pool := pool'));
  }

  // ------------------------------------------------------------ blocks are reused

  ghost predicate Extends(run: seq<State>, longer: seq<State>) {
    IsRun(longer) && run <= longer
  }

  lemma OneMore(run: seq<State>, s': State)
    requires IsRun(run) && Next(run[|run| - 1], s')
    ensures IsRun(run + [s'])
  {
    var next := run + [s'];
    forall k: nat | k + 1 < |next| ensures StepAt(next, k) {
      if k + 1 < |run| {
        assert StepAt(run, k);
      }
    }
  }

  /** t is inside its try_get, begun in state a of the list, on its way to the first node. */
  ghost predicate Fetching(a: List.State, s: State, t: Tid) {
    && a.list != [] && Calls.GetPhase(a, s.list, t) && s.list.pc[t] != List.Idle
    && t in s.pool.pc && s.pool.pc[t] == Pool.TryList
  }

  /** t is back with the first node of the list. */
  ghost predicate Fetched(a: List.State, s: State, t: Tid) {
    && a.list != [] && t in s.list.pc && s.list.pc[t] == List.Idle && s.list.list == a.list[1..]
    && t in s.pool.pc && s.pool.pc[t] == Pool.Got(Some(a.list[0]))
    && a.list[0] in s.pool.held && s.pool.held[a.list[0]] == t
  }

  lemma FetchesOn(a: List.State, s: State, t: Tid) returns (s': State)
    requires Inv(s) && Fetching(a, s, t)
    ensures Next(s, s') && t in s.list.pc && t in s'.list.pc
    ensures Fetched(a, s', t)
      || (Fetching(a, s', t) && Calls.Left(s'.list.pc[t]) < Calls.Left(s.list.pc[t]))
  {
    Calls.GetPhaseGoesOn(a, s.list, t);
    if s.list.pc[t].DropTwo? {
      var b := s.list.pc[t].node;
      ReturnEndsCustody(s.list, t, b, b);
      assert Agree(s, b);
      var pool' := Pool.Goto(s.pool, t, Pool.Got(Some(b))).(listed := s.pool.listed - {b}, held := s.pool.held[b := t]);
      s' := State(pool', List.Exec(s.list, t));
      assert Gets(s, s', t, b);
    } else {
      StaysInside(a, s.list, t);
      s' := s.(list := List.Exec(s.list, t));
      assert ListAlone(s, s', t);
    }
  }

  lemma StaysInside(a: List.State, list: List.State, t: Tid)
    requires List.NodesKnown(list) && a.list != [] && Calls.GetPhase(a, list, t)
    requires list.pc[t] != List.Idle && !list.pc[t].DropTwo?
    ensures t in List.Exec(list, t).pc && List.Exec(list, t).pc[t] != List.Idle
  {
    assert List.KnownAt(list, t);
  }

  lemma {:induction false} FetchesAll(run: seq<State>, a: List.State, t: Tid) returns (longer: seq<State>)
    requires IsRun(run) && Fetching(a, run[|run| - 1], t)
    ensures Extends(run, longer) && Fetched(a, longer[|longer| - 1], t)
    decreases Calls.Left(run[|run| - 1].list.pc[t])
  {
    RunKeepsInv(run, |run| - 1);
    var s' := FetchesOn(a, run[|run| - 1], t);
    OneMore(run, s');
    longer := run + [s'];
    if !Fetched(a, s', t) {
      longer := FetchesAll(longer, a, t);
    }
  }

  /** A thread that the pool has turned away gets the first block of the free list, if there
      is one and nobody else is at work there. */
  lemma UndisturbedCallReuses(run: seq<State>, t: Tid)
    requires IsRun(run) && run[|run| - 1].list.list != [] && Calls.OthersIdle(run[|run| - 1].list, t)
    requires t in run[|run| - 1].list.pc && run[|run| - 1].list.pc[t] == List.Idle
    requires t in run[|run| - 1].pool.pc && run[|run| - 1].pool.pc[t] == Pool.TryList
    ensures exists longer: seq<State> ::
      Extends(run, longer) && Fetched(run[|run| - 1].list, longer[|longer| - 1], t)
  {
    var s := run[|run| - 1];
    RunKeepsInv(run, |run| - 1);
    var s' := s.(list := List.Goto(s.list, t, List.GetHead));
    assert ListAlone(s, s', t);
    OneMore(run, s');
    Calls.GetPhaseBegins(s.list, s'.list, t);
    var longer := FetchesAll(run + [s'], s.list, t);
  }

  // ------------------------------------------------ nothing only from empty sources

  ghost predicate EmptyBetween(run: seq<State>, i: nat, k: nat) {
    exists m: nat :: i <= m <= k < |run| && run[m].list.head == None
  }

  /** The thread knows that the free list was empty. */
  predicate FoundEmpty(s: State, t: Tid) {
    && t in s.pool.pc
    && (|| s.pool.pc[t].Create? || s.pool.pc[t] == Pool.Got(None)
        || (s.pool.pc[t].TryList? && t in s.list.pc && Calls.SawEmpty(s.list.pc[t])))
  }

  lemma ThreadStepFinds(s: State, s': State, u: Tid, t: Tid)
    requires s'.list == s.list && Pool.ThreadStep(s.pool, s'.pool, u)
    requires FoundEmpty(s', t) && (t in s.list.pc ==> Asks(s, t))
    ensures FoundEmpty(s, t)
  {
  }

  lemma PoolStepFinds(s: State, s': State, t: Tid)
    requires AllAsk(s) && PoolAlone(s, s') && FoundEmpty(s', t)
    ensures FoundEmpty(s, t)
  {
    if u :| Pool.ThreadStep(s.pool, s'.pool, u) {
      assert t in s.list.pc ==> Asks(s, t);
      ThreadStepFinds(s, s', u, t);
    }
  }

  lemma StartsUnknowing(s: State, s': State, u: Tid, t: Tid)
    requires s'.pool == s.pool
    requires List.StartGet(s.list, s'.list, u) || exists b :: List.StartAdd(s.list, s'.list, u, b)
    requires FoundEmpty(s', t)
    ensures FoundEmpty(s, t)
  {
  }

  /** A thread learns it from an empty head. */
  lemma ExecFinds(s: State, s': State, u: Tid, t: Tid)
    requires List.NodesKnown(s.list) && u in s.list.pc && s'.list == List.Exec(s.list, u)
    requires s'.pool == s.pool && FoundEmpty(s', t)
    ensures FoundEmpty(s, t) || s.list.head == None
  {
    Calls.ExecMovesOne(s.list, u);
    if u == t {
      if Calls.Getting(s.list.pc[t]) {
        Calls.ExecGets(s.list, t);
      } else if !s.list.pc[t].DropTwo? {
        ExecStaysOut(s.list, t);
      }
    }
  }

  lemma NothingIsKnown(s: State, s': State, u: Tid, t: Tid)
    requires GetsNothing(s, s', u) && FoundEmpty(s', t) && AllAsk(s)
    ensures FoundEmpty(s, t) || s.list.head == None
  {
    assert Asks(s, u);
    Calls.ExecMovesOne(s.list, u);
    Calls.ExecGets(s.list, u);
  }

  lemma GetsKnowsNothing(s: State, s': State, u: Tid, b: Block, t: Tid)
    requires Gets(s, s', u, b) && FoundEmpty(s', t)
    ensures FoundEmpty(s, t)
  {
    Calls.ExecMovesOne(s.list, u);
  }

  lemma AddsKnowsNothing(s: State, s': State, u: Tid, b: Block, t: Tid)
    requires Adds(s, s', u, b) && FoundEmpty(s', t)
    ensures FoundEmpty(s, t)
  {
  }

  lemma StepFinds(s: State, s': State, t: Tid)
    requires AllAsk(s) && Next(s, s') && FoundEmpty(s', t)
    ensures FoundEmpty(s, t) || s.list.head == None
  {
    if PoolAlone(s, s') {
      PoolStepFinds(s, s', t);
    } else if u :| ListAlone(s, s', u) {
      if s'.list == List.Exec(s.list, u) {
        ExecFinds(s, s', u, t);
      } else {
        StartsUnknowing(s, s', u, t);
      }
    } else if u, b :| Adds(s, s', u, b) {
      AddsKnowsNothing(s, s', u, b, t);
    } else if u, b :| Gets(s, s', u, b) {
      GetsKnowsNothing(s, s', u, b, t);
    } else {
      var u :| GetsNothing(s, s', u);
      NothingIsKnown(s, s', u, t);
    }
  }

  lemma FindsAt(run: seq<State>, k: nat, t: Tid)
    requires IsRun(run) && k + 1 < |run| && FoundEmpty(run[k + 1], t)
    ensures FoundEmpty(run[k], t) || run[k].list.head == None
  {
    RunKeepsInv(run, k);
    assert StepAt(run, k);
    StepFinds(run[k], run[k + 1], t);
  }

  lemma {:induction false} FindsEmptyList(run: seq<State>, i: nat, j: nat, t: Tid)
    requires IsRun(run) && i <= j < |run| && !FoundEmpty(run[i], t) && FoundEmpty(run[j], t)
    ensures EmptyBetween(run, i, j)
    decreases j
  {
    FindsAt(run, j - 1, t);
    if FoundEmpty(run[j - 1], t) {
      FindsEmptyList(run, i, j - 1, t);
    }
  }

  /** A call goes to the allocator only when no block of the initial pool is left and the
      free list was empty at some moment of the call; and only then it returns nothing. */
  lemma AllocatesOnlyWhenDry(run: seq<State>, i: nat, j: nat, t: Tid, b: Block)
    requires IsRun(run) && i < j < |run|
    requires t in run[i].pool.pc && run[i].pool.pc[t] == Pool.LoadIndex
    requires t in run[j].pool.pc && (run[j].pool.pc[t].Create? || run[j].pool.pc[t] == Pool.Got(None))
    ensures !Pool.Unclaimed(run[j].pool, b)
    ensures exists k: nat :: i <= k <= j && run[k].list.head == None
  {
    FindsEmptyList(run, i, j, t);
    var k: nat :| i <= k <= j && run[k].list.head == None;
    RunIsDry(run, j);
    assert Pool.PoolIsDry(run[j].pool, t);
  }

  lemma {:induction false} RunIsDry(run: seq<State>, i: nat)
    requires IsRun(run) && i < |run|
    ensures Pool.AllDry(run[i].pool)
  {
    if i > 0 {
      RunIsDry(run, i - 1);
      assert StepAt(run, i - 1);
      StepMovesPool(run[i - 1], run[i]);
      if run[i].pool != run[i - 1].pool {
        Pool.StepKeepsDry(run[i - 1].pool, run[i].pool);
      }
    }
  }

  lemma StepMovesPool(s: State, s': State)
    requires Next(s, s')
    ensures s'.pool == s.pool || Pool.Next(s.pool, s'.pool)
  {
  }
}
