/** The implicit producer as a whole: the counters that hand out indices (module
    Claims) and the blocks that hold the elements (module BlockStore), run
    together. The two share the tail and the head.

    Main result: it is a FIFO queue. */
module Fifo {
  import opened BlockIndex
  import Claims
  import Store = BlockStore
  import opened BlockStoreSafety
  import opened BlockStoreRuns
  import opened BlockStoreAccounts

  type Tid = nat
  type Value = Store.Value

  datatype State = State(c: Claims.State, b: Store.State)

  /** t begins a dequeue of at most max elements; it has finished its last one. */
  ghost predicate Begin(s: State, s': State, t: Tid, max: nat) {
    && max >= 1 && t in s.b.cons && s.b.cons[t] == Store.Idle
    && Claims.Start(s.c, s'.c, t, max) && s'.b == s.b
  }

  /** A step of t in the claiming phase that takes no index yet. */
  ghost predicate Negotiate(s: State, s': State, t: Tid) {
    && t in s.c.pc && !s.c.pc[t].Idle? && !s.c.pc[t].Take?
    && s'.c == Claims.Exec(s.c, t) && s'.b == s.b
  }

  /** t takes its indices from the head and goes on to fetch their elements.
      Nothing here looks at the tail. */
  ghost predicate Take(s: State, s': State, t: Tid) {
    && t in s.c.pc && s.c.pc[t].Take? && t in s.b.cons
    && s'.c == Claims.Exec(s.c, t)
    && (var n := s.c.pc[t].actual;
        s'.b == Store.Goto(s.b, t, Store.LoadHeader(Store.Job(s.b.head, s.b.head + n))).(head := s.b.head + n))
  }

  ghost predicate Fetch(s: State, s': State, t: Tid) {
    Store.ConsStep(s.b, s'.b, t) && s'.c == s.c
  }

  ghost predicate Produce(s: State, s': State) {
    Store.ProdStep(s.b, s'.b) && s'.c == s.c
  }

  ghost predicate Publish(s: State, s': State) {
    Store.Publish(s.b, s'.b) && Claims.Publish(s.c, s'.c, s'.b.tail)
  }

  ghost predicate Init(s: State) {
    Claims.Init(s.c) && Store.Init(s.b) && s.c.pc.Keys == s.b.cons.Keys
  }

  ghost predicate Next(s: State, s': State) {
    || (exists t, max: nat :: Begin(s, s', t, max))
    || (exists t :: Negotiate(s, s', t))
    || (exists t :: Take(s, s', t))
    || (exists t :: Fetch(s, s', t))
    || Produce(s, s') || Publish(s, s')
  }

  ghost predicate StepAt(run: seq<State>, i: nat)
    requires i + 1 < |run|
  {
    Next(run[i], run[i + 1])
  }

  ghost predicate IsRun(run: seq<State>) {
    && run != [] && Init(run[0])
    && forall i: nat {:trigger StepAt(run, i)} :: i + 1 < |run| ==> StepAt(run, i)
  }

  // -------------------------------------------------------------- invariant

  /** How many elements the thread may end up with. */
  ghost predicate AsksForSome(p: Claims.Pc) {
    match p
    case LoadOvercommit(max, _) => max >= 1
    case LoadOptimistic(max, _, _) => max >= 1
    case AddOptimistic(desired, _) => desired >= 1
    case Recheck(_, desired, _) => desired >= 1
    case GiveBack(_, _, _) => true
    case Take(actual) => actual >= 1
    case Idle => true
  }

  /** A thread is in one of the two phases, and fetches only what it claimed. */
  ghost predicate PhaseOk(s: State, t: Tid)
    requires t in s.c.pc && t in s.b.cons
  {
    && AsksForSome(s.c.pc[t])
    && (s.c.pc[t].Idle? || s.b.cons[t] == Store.Idle)
    && JobOf(s.b.cons[t]).stop <= |s.c.claimed|
    && forall x: nat {:trigger ClaimedBy(s.c.claimed, x, t)} ::
         JobOf(s.b.cons[t]).index <= x < JobOf(s.b.cons[t]).stop ==> ClaimedBy(s.c.claimed, x, t)
  }

  predicate ClaimedBy(claimed: seq<Tid>, x: nat, t: Tid) {
    x < |claimed| && claimed[x] == t
  }

  ghost predicate Linked(s: State) {
    && s.c.tail == s.b.tail && s.c.head == s.b.head && s.c.pc.Keys == s.b.cons.Keys
    && forall t {:trigger PhaseOk(s, t)} :: t in s.c.pc && t in s.b.cons ==> PhaseOk(s, t)
  }

  ghost predicate Inv(s: State) {
    Claims.Inv(s.c) && Safe(s.b) && Accounted(s.b) && Linked(s)
  }

  /** The indices a thread takes have been published: the guard that module
      BlockStore puts on a claim always holds. */
  lemma TakenAreThere(s: State, t: Tid)
    requires Claims.Inv(s.c) && Linked(s) && t in s.c.pc && s.c.pc[t].Take?
    ensures 1 <= s.c.pc[t].actual && s.b.head + s.c.pc[t].actual <= s.b.tail
    ensures t in s.b.cons && s.b.cons[t] == Store.Idle
  {
    assert t in s.b.cons;
    assert PhaseOk(s, t);
    Claims.TakeIsCovered(s.c, t);
  }

  lemma TakeIsClaim(s: State, s': State, t: Tid)
    requires Claims.Inv(s.c) && Linked(s) && Take(s, s', t)
    ensures Store.Claim(s.b, s'.b, t, s.c.pc[t].actual)
  {
    TakenAreThere(s, t);
  }

  lemma TakeKeepsLinked(s: State, s': State, t: Tid)
    requires Claims.Inv(s.c) && Linked(s) && Take(s, s', t)
    ensures Linked(s')
  {
    forall u | u in s'.c.pc && u in s'.b.cons ensures PhaseOk(s', u) {
      assert PhaseOk(s, u);
      forall x: nat | JobOf(s'.b.cons[u]).index <= x < JobOf(s'.b.cons[u]).stop
        ensures ClaimedBy(s'.c.claimed, x, u)
      {
        if u != t {
          assert ClaimedBy(s.c.claimed, x, u);
        }
      }
    }
  }

  lemma NegotiateKeepsLinked(s: State, s': State, t: Tid)
    requires Linked(s) && Negotiate(s, s', t)
    ensures Linked(s')
  {
    assert PhaseOk(s, t);
    forall u | u in s'.c.pc && u in s'.b.cons ensures PhaseOk(s', u) {
      assert PhaseOk(s, u);
    }
  }

  lemma BeginKeepsLinked(s: State, s': State, t: Tid, max: nat)
    requires Linked(s) && Begin(s, s', t, max)
    ensures Linked(s')
  {
    forall u | u in s'.c.pc && u in s'.b.cons ensures PhaseOk(s', u) {
      assert PhaseOk(s, u);
    }
  }

  lemma FetchKeepsLinked(s: State, s': State, t: Tid)
    requires Linked(s) && s'.c == s.c && ConsEffect(s.b, s'.b, t)
    ensures Linked(s')
  {
    forall u | u in s'.c.pc && u in s'.b.cons ensures PhaseOk(s', u) {
      assert PhaseOk(s, u);
      forall x: nat | JobOf(s'.b.cons[u]).index <= x < JobOf(s'.b.cons[u]).stop
        ensures ClaimedBy(s'.c.claimed, x, u)
      {
        assert ClaimedBy(s.c.claimed, x, u);
      }
    }
  }

  lemma SameConsKeepsLinked(s: State, s': State)
    requires Linked(s) && s'.c.pc == s.c.pc && s'.b.cons == s.b.cons && s'.c.claimed == s.c.claimed
    requires s'.c.tail == s'.b.tail && s'.c.head == s'.b.head
    ensures Linked(s')
  {
    forall u | u in s'.c.pc && u in s'.b.cons ensures PhaseOk(s', u) {
      assert PhaseOk(s, u);
    }
  }

  // ------------------------------------------------------------------- steps

  lemma TakeKeepsInv(s: State, s': State, t: Tid)
    requires Inv(s) && Take(s, s', t)
    ensures Inv(s')
  {
    TakeIsClaim(s, s', t);
    Claims.ExecKeepsInv(s.c, t);
    KeepsClaim(s.b, s'.b, t, s.c.pc[t].actual);
    ClaimAccounts(s.b, s'.b, t, s.c.pc[t].actual);
    TakeKeepsLinked(s, s', t);
  }

  lemma FetchKeepsInv(s: State, s': State, t: Tid)
    requires Inv(s) && Fetch(s, s', t)
    ensures Inv(s')
  {
    ConsStepKeepsSafe(s.b, s'.b, t);
    ConsStepAccounts(s.b, s'.b, t);
    FetchKeepsLinked(s, s', t);
  }

  lemma ProduceKeepsInv(s: State, s': State)
    requires Inv(s) && Produce(s, s')
    ensures Inv(s')
  {
    ProdStepKeepsSafe(s.b, s'.b);
    ProdStepAccounts(s.b, s'.b);
    SameConsKeepsLinked(s, s');
  }

  lemma PublishKeepsInv(s: State, s': State)
    requires Inv(s) && Publish(s, s')
    ensures Inv(s')
  {
    Claims.KeepsPublish(s.c, s'.c, s'.b.tail);
    KeepsPublish(s.b, s'.b);
    WriteAccounts(s.b, s'.b);
    SameConsKeepsLinked(s, s');
  }

  lemma InitGivesInv(s: State)
    requires Init(s)
    ensures Inv(s)
  {
    Claims.InitGivesInv(s.c);
    InitGivesSafe(s.b);
    assert Accounted(s.b);
    forall t | t in s.c.pc && t in s.b.cons ensures PhaseOk(s, t) {
    }
  }

  lemma NextKeepsInv(s: State, s': State)
    requires Inv(s) && Next(s, s')
    ensures Inv(s')
  {
    if t, max: nat :| Begin(s, s', t, max) {
      Claims.KeepsGoto(s.c, t, Claims.LoadOvercommit(max, s.c.tail));
      BeginKeepsLinked(s, s', t, max);
    } else if t :| Negotiate(s, s', t) {
      Claims.ExecKeepsInv(s.c, t);
      NegotiateKeepsLinked(s, s', t);
    } else if t :| Take(s, s', t) {
      TakeKeepsInv(s, s', t);
    } else if t :| Fetch(s, s', t) {
      FetchKeepsInv(s, s', t);
    } else if Produce(s, s') {
      ProduceKeepsInv(s, s');
    } else {
      PublishKeepsInv(s, s');
    }
  }

  lemma {:induction false} RunKeepsInv(run: seq<State>, i: nat)
    requires IsRun(run) && i < |run|
    ensures Inv(run[i])
  {
    if i == 0 {
      InitGivesInv(run[0]);
    } else {
      RunKeepsInv(run, i - 1);
      assert StepAt(run, i - 1);
      NextKeepsInv(run[i - 1], run[i]);
    }
  }

  // ---------------------------------------------------------------- the queue

  /** What is in the queue: the published values not yet claimed, oldest first. */
  function Contents(s: State): seq<Value> {
    if s.b.head <= s.b.tail <= |s.b.written| then s.b.written[s.b.head..s.b.tail] else []
  }

  /** The values of t's claim, from the one it fetches next on. */
  function Owed(s: State, t: Tid): seq<Value>
    requires t in s.b.cons
  {
    var p := s.b.cons[t];
    if FreshFrom(p) <= JobOf(p).stop <= |s.b.written| then s.b.written[FreshFrom(p)..JobOf(p).stop] else []
  }

  /** Publishing is the moment of the enqueue: all values of the call join the
      queue together, at the end. */
  lemma PublishEnqueues(run: seq<State>, i: nat)
    requires IsRun(run) && i + 1 < |run| && Publish(run[i], run[i + 1])
    ensures run[i].b.prod.StoreTailIndex?
    ensures Contents(run[i + 1]) == Contents(run[i]) + run[i].b.prod.vals
  {
    var s := run[i].b;
    RunKeepsInv(run, i);
    assert s.written == s.written[..s.tail] + s.written[s.tail..];
  }

  /** Taking from the head is the moment of the dequeue: the values that leave
      the queue are its oldest ones, and exactly those the thread goes on to fetch. */
  lemma TakeDequeues(run: seq<State>, i: nat, t: Tid)
    requires IsRun(run) && i + 1 < |run| && Take(run[i], run[i + 1], t)
    ensures t in run[i + 1].b.cons && |Owed(run[i + 1], t)| == run[i].c.pc[t].actual >= 1
    ensures Contents(run[i]) == Owed(run[i + 1], t) + Contents(run[i + 1])
  {
    RunKeepsInv(run, i);
    TakenAreThere(run[i], t);
  }

  ghost predicate SomeTake(s: State, s': State) {
    exists t :: Take(s, s', t)
  }

  lemma FetchKeepsContents(run: seq<State>, i: nat, t: Tid)
    requires IsRun(run) && i + 1 < |run| && Fetch(run[i], run[i + 1], t)
    ensures Contents(run[i + 1]) == Contents(run[i])
  {
    RunKeepsInv(run, i);
    ConsStepKeepsSafe(run[i].b, run[i + 1].b, t);
  }

  lemma ProduceKeepsContents(run: seq<State>, i: nat)
    requires IsRun(run) && i + 1 < |run| && Produce(run[i], run[i + 1])
    ensures Contents(run[i + 1]) == Contents(run[i])
  {
    RunKeepsInv(run, i);
    ProdStepKeepsSafe(run[i].b, run[i + 1].b);
  }

  /** No other step changes the queue. */
  lemma OtherStepsKeepContents(run: seq<State>, i: nat)
    requires IsRun(run) && i + 1 < |run|
    requires !Publish(run[i], run[i + 1]) && !SomeTake(run[i], run[i + 1])
    ensures Contents(run[i + 1]) == Contents(run[i])
  {
    var s, s' := run[i], run[i + 1];
    assert StepAt(run, i);
    if t :| Fetch(s, s', t) {
      FetchKeepsContents(run, i, t);
    } else if Produce(s, s') {
      ProduceKeepsContents(run, i);
    }
  }

  /** Fetching hands the thread the next of its values, and no other. */
  lemma FetchDelivers(run: seq<State>, i: nat, t: Tid)
    requires IsRun(run) && i + 1 < |run| && Store.DoReadSlot(run[i].b, run[i + 1].b, t)
    ensures var s, s' := run[i], run[i + 1]; var x := s.b.cons[t].i;
      && t in s'.b.cons && Owed(s, t) != []
      && x !in s.b.delivered && x in s'.b.delivered
      && Owed(s, t) == [s'.b.delivered[x]] + Owed(s', t)
      && x < |s.c.claimed| && s.c.claimed[x] == t
  {
    var s := run[i];
    RunKeepsInv(run, i);
    assert ConsAt(s.b, t);
    SlotHoldsValue(s.b, t);
    ReadMovesOwed(s, run[i + 1], t);
    ReaderClaimed(s, t);
  }

  lemma ReadMovesOwed(s: State, s': State, t: Tid)
    requires Store.DoReadSlot(s.b, s'.b, t) && ConsJob(s.b, s.b.cons[t])
    requires s.b.head <= |s.b.written|
    requires s.b.slots[(s.b.cons[t].block, s.b.cons[t].i % BLOCK_SIZE)] == s.b.written[s.b.cons[t].i]
    ensures t in s'.b.cons && s.b.cons[t].i in s'.b.delivered
    ensures Owed(s, t) == [s'.b.delivered[s.b.cons[t].i]] + Owed(s', t)
  {
  }

  lemma ReaderClaimed(s: State, t: Tid)
    requires Linked(s) && t in s.b.cons && s.b.cons[t].ReadSlot? && ConsJob(s.b, s.b.cons[t])
    ensures s.b.cons[t].i < |s.c.claimed| && s.c.claimed[s.b.cons[t].i] == t
  {
    assert t in s.c.pc && PhaseOk(s, t) && ClaimedBy(s.c.claimed, s.b.cons[t].i, t);
  }

  /** Thread t leaves the idle state, or moves from reading a slot. */
  ghost predicate TakesOrReads(s: State, s': State, t: Tid) {
    && t in s.b.cons && t in s'.b.cons && s'.b.cons[t] != s.b.cons[t]
    && (s.b.cons[t].Idle? || s.b.cons[t].ReadSlot?)
  }

  lemma ProduceKeepsOwed(run: seq<State>, i: nat, t: Tid)
    requires IsRun(run) && i + 1 < |run| && t in run[i].b.cons && Produce(run[i], run[i + 1])
    ensures t in run[i + 1].b.cons && Owed(run[i + 1], t) == Owed(run[i], t)
  {
    RunKeepsInv(run, i);
    ProdStepKeepsSafe(run[i].b, run[i + 1].b);
    OwedIsWritten(run[i], t);
  }

  lemma FetchKeepsOwed(run: seq<State>, i: nat, t: Tid, u: Tid)
    requires IsRun(run) && i + 1 < |run| && t in run[i].b.cons && Fetch(run[i], run[i + 1], u)
    requires !TakesOrReads(run[i], run[i + 1], t)
    ensures t in run[i + 1].b.cons && Owed(run[i + 1], t) == Owed(run[i], t)
  {
    RunKeepsInv(run, i);
    ConsStepKeepsSafe(run[i].b, run[i + 1].b, u);
    EffectKeepsOwed(run[i], run[i + 1], t, u);
  }

  lemma PublishKeepsOwed(run: seq<State>, i: nat, t: Tid)
    requires IsRun(run) && i + 1 < |run| && t in run[i].b.cons && Publish(run[i], run[i + 1])
    ensures t in run[i + 1].b.cons && Owed(run[i + 1], t) == Owed(run[i], t)
  {
  }

  lemma OtherTakeKeepsOwed(run: seq<State>, i: nat, t: Tid, u: Tid)
    requires IsRun(run) && i + 1 < |run| && t in run[i].b.cons && Take(run[i], run[i + 1], u)
    requires !TakesOrReads(run[i], run[i + 1], t)
    ensures t in run[i + 1].b.cons && Owed(run[i + 1], t) == Owed(run[i], t)
  {
    RunKeepsInv(run, i);
    assert PhaseOk(run[i], u);
    TakeKeepsOwed(run[i], run[i + 1], t, u);
  }

  /** What a thread is still owed changes only by its own taking and fetching. */
  lemma OwedStays(run: seq<State>, i: nat, t: Tid)
    requires IsRun(run) && i + 1 < |run| && t in run[i].b.cons
    requires !TakesOrReads(run[i], run[i + 1], t)
    ensures t in run[i + 1].b.cons && Owed(run[i + 1], t) == Owed(run[i], t)
  {
    var s, s' := run[i], run[i + 1];
    assert StepAt(run, i);
    if u :| Fetch(s, s', u) {
      FetchKeepsOwed(run, i, t, u);
    } else if Produce(s, s') {
      ProduceKeepsOwed(run, i, t);
    } else if u :| Take(s, s', u) {
      OtherTakeKeepsOwed(run, i, t, u);
    } else if Publish(s, s') {
      PublishKeepsOwed(run, i, t);
    }
  }

  lemma TakeKeepsOwed(s: State, s': State, t: Tid, u: Tid)
    requires Take(s, s', u) && t in s.b.cons && (t == u ==> s.b.cons[t].Idle?) && !TakesOrReads(s, s', t)
    ensures t in s'.b.cons && Owed(s', t) == Owed(s, t)
  {
  }

  lemma OwedIsWritten(s: State, t: Tid)
    requires Safe(s.b) && t in s.b.cons
    ensures FreshFrom(s.b.cons[t]) <= JobOf(s.b.cons[t]).stop <= |s.b.written|
  {
    assert ConsAt(s.b, t);
  }

  lemma EffectKeepsOwed(s: State, s': State, t: Tid, u: Tid)
    requires t in s.b.cons && ConsEffect(s.b, s'.b, u) && !TakesOrReads(s, s', t)
    ensures t in s'.b.cons && Owed(s', t) == Owed(s, t)
  {
  }

  /** When all threads have returned, the values delivered are the values enqueued,
      number by number, up to the head; the rest is what the queue contains. */
  lemma NothingLostNothingTwice(run: seq<State>, i: nat)
    requires IsRun(run) && i < |run| && AllIdle(run[i].b)
    ensures var b := run[i].b;
      && (forall x: nat :: x in b.delivered <==> x < b.head)
      && (forall x :: x in b.delivered ==> x < |b.written| && b.delivered[x] == b.written[x])
      && b.head <= |b.written| && Contents(run[i]) == b.written[b.head..]
      && |run[i].c.claimed| == b.head
  {
    var s := run[i];
    RunKeepsInv(run, i);
    ReadyIsSettled(s.b);
    forall x: nat ensures x in s.b.delivered <==> x < s.b.head
                  ensures x in s.b.delivered ==> x < |s.b.written| && s.b.delivered[x] == s.b.written[x]
    {
      SafeIdleMeansAllDelivered(s.b, x);
    }
  }

  /** In every reachable state a thread about to take its indices can take them,
      and they are published: the optimistic negotiation never lets too many through. */
  lemma TakersFindTheirElements(run: seq<State>, i: nat, t: Tid)
    requires IsRun(run) && i < |run| && t in run[i].c.pc && run[i].c.pc[t].Take?
    ensures run[i].c.pc[t].actual <= |Contents(run[i])|
  {
    RunKeepsInv(run, i);
    TakenAreThere(run[i], t);
  }
}
