/** Whole calls of the queue: every dequeue comes to an end after a bounded number of its own
    steps, one that nobody disturbs gets the oldest elements there are, and an enqueue that
    nobody disturbs appends its values. */
module FifoProgress {
  import opened Ranges
  import opened Totals
  import Claims
  import Store = BlockStore
  import opened BlockStoreSafety
  import Runs = BlockStoreRuns
  import Accounts = BlockStoreAccounts
  import Progress = BlockStoreProgress
  import opened Fifo

  /** t is inside a dequeue. */
  ghost predicate Busy(s: State, t: Tid) {
    t in s.c.pc && t in s.b.cons && (s.c.pc[t] != Claims.Idle || s.b.cons[t] != Store.Idle)
  }

  ghost predicate Moves(s: State, s': State, t: Tid) {
    Negotiate(s, s', t) || Take(s, s', t) || Fetch(s, s', t)
  }

  lemma CanMove(s: State, t: Tid) returns (s': State)
    requires Inv(s) && Busy(s, t)
    ensures Moves(s, s', t)
  {
    if s.c.pc[t] == Claims.Idle {
      Runs.ConsumerCanStep(s.b, t);
      var b :| Store.ConsStep(s.b, b, t);
      s' := State(s.c, b);
    } else if s.c.pc[t].Take? {
      var n := s.c.pc[t].actual;
      s' := State(Claims.Exec(s.c, t),
                  Store.Goto(s.b, t, Store.LoadHeader(Store.Job(s.b.head, s.b.head + n))).(head := s.b.head + n));
      assert Take(s, s', t);
    } else {
      s' := State(Claims.Exec(s.c, t), s.b);
      assert Negotiate(s, s', t);
    }
  }

  /** A dequeue is never stuck. */
  lemma DequeueNeverStuck(run: seq<State>, i: nat, t: Tid)
    requires IsRun(run) && i < |run| && Busy(run[i], t)
    ensures exists s' :: Moves(run[i], s', t)
  {
    RunKeepsInv(run, i);
    var s' := CanMove(run[i], t);
  }

  // --------------------------------------------------------------- bounded calls

  /** The steps left until the indices are taken, and how many they can be. */
  function ClaimLeft(p: Claims.Pc): nat {
    match p
    case Idle => 0
    case LoadOvercommit(_, _) => 6
    case LoadOptimistic(_, _, _) => 5
    case AddOptimistic(_, _) => 4
    case Recheck(_, _, _) => 3
    case GiveBack(_, _, _) => 2
    case Take(_) => 1
  }

  function Asked(p: Claims.Pc): nat {
    match p
    case Idle => 0
    case LoadOvercommit(max, _) => max
    case LoadOptimistic(max, _, _) => max
    case AddOptimistic(desired, _) => desired
    case Recheck(_, desired, _) => desired
    case GiveBack(_, _, actual) => actual
    case Take(actual) => actual
  }

  /** An upper bound on the steps that the dequeue still has to take. */
  function DequeueLeft(c: Claims.Pc, b: Store.Cons): nat {
    if c == Claims.Idle then Progress.StepsLeft(b) else ClaimLeft(c) + 5 * Asked(c) + 3
  }

  function LeftOf(s: State, t: Tid): nat
    requires t in s.c.pc && t in s.b.cons
  {
    DequeueLeft(s.c.pc[t], s.b.cons[t])
  }

  lemma NegotiateComesCloser(s: State, s': State, t: Tid)
    requires Linked(s) && Negotiate(s, s', t) && t in s.b.cons
    ensures t in s'.c.pc && t in s'.b.cons && LeftOf(s', t) < LeftOf(s, t)
  {
    assert PhaseOk(s, t);
  }

  lemma TakeComesCloser(s: State, s': State, t: Tid)
    requires Take(s, s', t)
    ensures t in s'.c.pc && t in s'.b.cons && LeftOf(s', t) < LeftOf(s, t)
  {
  }

  lemma FetchComesCloser(s: State, s': State, t: Tid)
    requires Inv(s) && Fetch(s, s', t)
    ensures t in s.c.pc && t in s.b.cons && t in s'.c.pc && t in s'.b.cons && LeftOf(s', t) < LeftOf(s, t)
  {
    Progress.ConsComesCloser(s.b, s'.b, t);
    FetchWhileIdle(s, s', t);
  }

  lemma FetchWhileIdle(s: State, s': State, t: Tid)
    requires Inv(s) && Fetch(s, s', t)
    ensures t in s.c.pc && t in s.b.cons && s.c.pc[t] == Claims.Idle
  {
    Runs.ConsStepKeepsSafe(s.b, s'.b, t);
    assert PhaseOk(s, t);
  }

  lemma ComesCloser(s: State, s': State, t: Tid)
    requires Inv(s) && Moves(s, s', t)
    ensures t in s.c.pc && t in s.b.cons && t in s'.c.pc && t in s'.b.cons && LeftOf(s', t) < LeftOf(s, t)
  {
    if Fetch(s, s', t) {
      FetchComesCloser(s, s', t);
    } else if Take(s, s', t) {
      TakeComesCloser(s, s', t);
    } else {
      NegotiateComesCloser(s, s', t);
    }
  }

  lemma ProduceLeaves(s: State, s': State, t: Tid)
    requires Inv(s) && Produce(s, s') && t in s.c.pc && t in s.b.cons
    ensures t in s'.c.pc && t in s'.b.cons && LeftOf(s', t) == LeftOf(s, t)
  {
    Runs.ProdStepKeepsSafe(s.b, s'.b);
  }

  lemma FetchLeaves(s: State, s': State, u: Tid, t: Tid)
    requires Inv(s) && u != t && Fetch(s, s', u) && t in s.c.pc && t in s.b.cons
    ensures t in s'.c.pc && t in s'.b.cons && LeftOf(s', t) == LeftOf(s, t)
  {
    Runs.ConsStepKeepsSafe(s.b, s'.b, u);
  }

  lemma ClaimLeaves(s: State, s': State, u: Tid, t: Tid)
    requires u != t && (Negotiate(s, s', u) || Take(s, s', u)) && t in s.c.pc && t in s.b.cons
    ensures t in s'.c.pc && t in s'.b.cons && LeftOf(s', t) == LeftOf(s, t)
  {
  }

  lemma BeginLeaves(s: State, s': State, t: Tid)
    requires Publish(s, s') || exists u, max: nat :: Begin(s, s', u, max)
    requires Busy(s, t)
    ensures t in s'.c.pc && t in s'.b.cons && LeftOf(s', t) == LeftOf(s, t)
  {
  }

  lemma OthersLeave(s: State, s': State, t: Tid)
    requires Inv(s) && Next(s, s') && Busy(s, t) && !Moves(s, s', t)
    ensures t in s'.c.pc && t in s'.b.cons && LeftOf(s', t) == LeftOf(s, t)
  {
    if Produce(s, s') {
      ProduceLeaves(s, s', t);
    } else if u :| u != t && Fetch(s, s', u) {
      FetchLeaves(s, s', u, t);
    } else if u :| u != t && (Negotiate(s, s', u) || Take(s, s', u)) {
      ClaimLeaves(s, s', u, t);
    } else {
      BeginLeaves(s, s', t);
    }
  }

  ghost predicate BusyAt(run: seq<State>, j: nat, t: Tid)
    requires j < |run|
  {
    Busy(run[j], t)
  }

  ghost predicate MovesAt(run: seq<State>, j: nat, t: Tid)
    requires j + 1 < |run|
  {
    Moves(run[j], run[j + 1], t)
  }

  /** The steps that t takes from i to j. */
  ghost function Taken(run: seq<State>, i: nat, j: nat, t: Tid): nat
    requires i <= j < |run|
    decreases j
  {
    if i == j then 0 else Taken(run, i, j - 1, t) + if MovesAt(run, j - 1, t) then 1 else 0
  }

  lemma TakenStep(run: seq<State>, i: nat, j: nat, t: Tid)
    requires IsRun(run) && i <= j && j + 1 < |run| && Busy(run[j], t)
    ensures t in run[j + 1].c.pc && t in run[j + 1].b.cons
    ensures Taken(run, i, j + 1, t) + LeftOf(run[j + 1], t) <= Taken(run, i, j, t) + LeftOf(run[j], t)
  {
    RunKeepsInv(run, j);
    assert StepAt(run, j);
    if MovesAt(run, j, t) {
      ComesCloser(run[j], run[j + 1], t);
    } else {
      OthersLeave(run[j], run[j + 1], t);
    }
  }

  lemma {:induction false} DequeueGoesOn(run: seq<State>, i: nat, j: nat, t: Tid)
    requires IsRun(run) && i <= j < |run| && t in run[i].c.pc && t in run[i].b.cons
    requires forall k: nat {:trigger BusyAt(run, k, t)} :: i <= k < j ==> BusyAt(run, k, t)
    ensures t in run[j].c.pc && t in run[j].b.cons
    ensures Taken(run, i, j, t) + LeftOf(run[j], t) <= LeftOf(run[i], t)
    decreases j
  {
    if i < j {
      DequeueGoesOn(run, i, j - 1, t);
      assert BusyAt(run, j - 1, t);
      TakenStep(run, i, j - 1, t);
    }
  }

  /** A call for at most max elements, begun by step i, comes back after at most 5 max + 9
      steps of its own, whatever the others do. */
  lemma DequeueStepsAreBounded(run: seq<State>, i: nat, j: nat, t: Tid, max: nat)
    requires IsRun(run) && i < j < |run| && Begin(run[i], run[i + 1], t, max)
    requires forall k: nat {:trigger BusyAt(run, k, t)} :: i < k < j ==> BusyAt(run, k, t)
    ensures Taken(run, i + 1, j, t) <= 5 * max + 9
  {
    DequeueGoesOn(run, i + 1, j, t);
  }

  // ------------------------------------------------------- undisturbed dequeues

  lemma OneMore(run: seq<State>, s': State)
    requires IsRun(run) && Next(run[|run| - 1], s')
    ensures IsRun(run + [s'])
  {
    var next := run + [s'];
    forall k: nat | k + 1 < |next| ensures StepAt(next, k) {
      if k + 1 < |run| {
        assert StepAt(run, k);
      }
    }
  }

  ghost predicate OthersIdle(s: State, t: Tid) {
    && (forall u :: u in s.c.pc && u != t ==> s.c.pc[u] == Claims.Idle)
    && (forall u :: u in s.b.cons && u != t ==> s.b.cons[u] == Store.Idle)
  }

  ghost predicate NobodyBusy(s: State, t: Tid) {
    OthersIdle(s, t) && t in s.c.pc && t in s.b.cons && !Busy(s, t)
  }

  /** With nobody at work the optimistic count, less the overcommitted, is the head. */
  lemma IdleCounters(s: State, t: Tid)
    requires Inv(s) && NobodyBusy(s, t)
    ensures s.c.optimistic == s.c.head + s.c.overcommit && s.c.head <= s.c.tail
  {
    TotalZero(s.c.pc, Claims.Untaken);
    TotalZero(s.c.pc, Claims.PendingCount);
  }

  lemma Negotiated(run: seq<State>, t: Tid) returns (longer: seq<State>)
    requires IsRun(run) && t in run[|run| - 1].c.pc && Negotiating(run[|run| - 1].c.pc[t])
    ensures IsRun(longer)
    ensures longer == run + [State(Claims.Exec(run[|run| - 1].c, t), run[|run| - 1].b)]
  {
    var s' := State(Claims.Exec(run[|run| - 1].c, t), run[|run| - 1].b);
    assert Negotiate(run[|run| - 1], s', t);
    OneMore(run, s');
    longer := run + [s'];
  }

  predicate Negotiating(p: Claims.Pc) {
    !p.Idle? && !p.Take?
  }

  lemma NegotiatedTwice(run: seq<State>, t: Tid) returns (longer: seq<State>)
    requires IsRun(run) && t in run[|run| - 1].c.pc && Negotiating(run[|run| - 1].c.pc[t])
    requires t in Claims.Exec(run[|run| - 1].c, t).pc && Negotiating(Claims.Exec(run[|run| - 1].c, t).pc[t])
    ensures IsRun(longer) && run <= longer
    ensures longer[|longer| - 1] == State(Claims.Exec(Claims.Exec(run[|run| - 1].c, t), t), run[|run| - 1].b)
  {
    var next := Negotiated(run, t);
    longer := Negotiated(next, t);
  }

  lemma LastCounters(run: seq<State>, t: Tid)
    requires IsRun(run) && NobodyBusy(run[|run| - 1], t)
    ensures var c := run[|run| - 1].c; c.optimistic == c.head + c.overcommit && c.head <= c.tail
  {
    RunKeepsInv(run, |run| - 1);
    IdleCounters(run[|run| - 1], t);
  }

  lemma Took(run: seq<State>, t: Tid) returns (longer: seq<State>)
    requires IsRun(run) && t in run[|run| - 1].c.pc && t in run[|run| - 1].b.cons && run[|run| - 1].c.pc[t].Take?
    ensures IsRun(longer) && |longer| == |run| + 1 && run <= longer
    ensures Take(run[|run| - 1], longer[|run|], t)
  {
    var s := run[|run| - 1];
    var n := s.c.pc[t].actual;
    var s' := State(Claims.Exec(s.c, t),
                    Store.Goto(s.b, t, Store.LoadHeader(Store.Job(s.b.head, s.b.head + n))).(head := s.b.head + n));
    assert Take(s, s', t);
    OneMore(run, s');
    longer := run + [s'];
  }

  lemma FetchAlone(s: State, t: Tid) returns (s': State)
    requires Inv(s) && OthersIdle(s, t) && t in s.b.cons && s.b.cons[t] != Store.Idle
    ensures Fetch(s, s', t) && s'.c == s.c
  {
    Runs.ConsumerCanStep(s.b, t);
    var b :| Store.ConsStep(s.b, b, t);
    s' := State(s.c, b);
  }

  lemma FetchKeepsQueue(s: State, s': State, t: Tid)
    requires Inv(s) && OthersIdle(s, t) && Fetch(s, s', t)
    ensures SameQueue(s, s') && OthersIdle(s', t) && t in s'.b.cons
  {
    Runs.ConsStepKeepsSafe(s.b, s'.b, t);
  }

  /** One fetch of t, when only t is at work. */
  lemma Fetched(run: seq<State>, t: Tid) returns (s': State)
    requires IsRun(run) && OthersIdle(run[|run| - 1], t)
    requires t in run[|run| - 1].b.cons && run[|run| - 1].b.cons[t] != Store.Idle
    ensures IsRun(run + [s']) && SameQueue(run[|run| - 1], s') && OthersIdle(s', t) && t in s'.b.cons
    ensures Progress.StepsLeft(s'.b.cons[t]) < Progress.StepsLeft(run[|run| - 1].b.cons[t])
  {
    RunKeepsInv(run, |run| - 1);
    s' := FetchAlone(run[|run| - 1], t);
    FetchKeepsQueue(run[|run| - 1], s', t);
    FetchNearer(run[|run| - 1], s', t);
    FetchIsNext(run[|run| - 1], s', t);
    OneMore(run, s');
  }

  lemma FetchIsNext(s: State, s': State, t: Tid)
    requires Fetch(s, s', t)
    ensures Next(s, s')
  {
  }

  lemma FetchNearer(s: State, s': State, t: Tid)
    requires Inv(s) && Fetch(s, s', t)
    ensures t in s.b.cons && t in s'.b.cons && Progress.StepsLeft(s'.b.cons[t]) < Progress.StepsLeft(s.b.cons[t])
  {
    Progress.ConsComesCloser(s.b, s'.b, t);
  }

  predicate SameQueue(s: State, s': State) {
    s'.c == s.c && s'.b.head == s.b.head && s'.b.tail == s.b.tail && s'.b.written == s.b.written
  }

  lemma {:induction false} FetchesAll(run: seq<State>, t: Tid) returns (longer: seq<State>)
    requires IsRun(run) && OthersIdle(run[|run| - 1], t) && t in run[|run| - 1].b.cons
    ensures IsRun(longer) && run <= longer && SameQueue(run[|run| - 1], longer[|longer| - 1])
    ensures var s' := longer[|longer| - 1];
      OthersIdle(s', t) && t in s'.b.cons && s'.b.cons[t] == Store.Idle
    decreases Progress.StepsLeft(run[|run| - 1].b.cons[t])
  {
    longer := run;
    if run[|run| - 1].b.cons[t] != Store.Idle {
      var s' := Fetched(run, t);
      longer := FetchesAll(run + [s'], t);
    }
  }

  /** t has seen the counters of state s and is about to draw n tickets. */
  ghost predicate Draws(s: State, c: Claims.State, t: Tid, n: nat) {
    && t in s.c.pc && t in c.pc && c == s.c.(pc := s.c.pc[t := c.pc[t]])
    && c.pc[t] == (if n == 0 then Claims.Idle else Claims.AddOptimistic(n, s.c.overcommit))
  }

  lemma Looks(s: State, t: Tid, max: nat)
    requires t in s.c.pc && s.c.optimistic == s.c.head + s.c.overcommit && s.c.head <= s.c.tail && max >= 1
    ensures var c0 := Claims.Goto(s.c, t, Claims.LoadOvercommit(max, s.c.tail));
      && Claims.Exec(c0, t).pc[t] == Claims.LoadOptimistic(max, s.c.tail, s.c.overcommit)
      && Draws(s, Claims.Exec(Claims.Exec(c0, t), t), t, Min(max, s.c.tail - s.c.head))
  {
  }

  lemma Decides(s: State, c: Claims.State, t: Tid, n: nat)
    requires Draws(s, c, t, n) && 0 < n <= s.c.tail - s.c.head && s.c.optimistic == s.c.head + s.c.overcommit
    ensures Claims.Exec(c, t).pc[t].Recheck?
    ensures var c2 := Claims.Exec(Claims.Exec(c, t), t);
      c2.pc == s.c.pc[t := Claims.Take(n)] && c2.head == s.c.head && c2.claimed == s.c.claimed
  {
  }

  /** After a look at the counters t has n indices to take, or is back with none. */
  ghost predicate Granted(s: State, s': State, t: Tid, n: nat) {
    && s'.b == s.b && t in s.c.pc && s'.c.pc == s.c.pc[t := if n == 0 then Claims.Idle else Claims.Take(n)]
    && s'.c.head == s.c.head && s'.c.claimed == s.c.claimed
  }

  lemma Began(run: seq<State>, t: Tid, max: nat) returns (longer: seq<State>)
    requires IsRun(run) && NobodyBusy(run[|run| - 1], t) && max >= 1
    ensures IsRun(longer)
    ensures longer == run + [State(Claims.Goto(run[|run| - 1].c, t,
                                               Claims.LoadOvercommit(max, run[|run| - 1].c.tail)), run[|run| - 1].b)]
  {
    var s := run[|run| - 1];
    var s0 := State(Claims.Goto(s.c, t, Claims.LoadOvercommit(max, s.c.tail)), s.b);
    assert Begin(s, s0, t, max);
    OneMore(run, s0);
    longer := run + [s0];
  }

  lemma Looked(run: seq<State>, t: Tid, max: nat) returns (longer: seq<State>)
    requires IsRun(run) && NobodyBusy(run[|run| - 1], t) && max >= 1
    ensures IsRun(longer) && run <= longer
    ensures var s, s' := run[|run| - 1], longer[|longer| - 1];
      s'.b == s.b && s.c.head <= s.c.tail && Draws(s, s'.c, t, Min(max, s.c.tail - s.c.head))
  {
    LastCounters(run, t);
    Looks(run[|run| - 1], t, max);
    longer := Began(run, t, max);
    longer := NegotiatedTwice(longer, t);
  }

  lemma Decided(run: seq<State>, s: State, t: Tid, n: nat) returns (longer: seq<State>)
    requires IsRun(run) && run[|run| - 1].b == s.b && Draws(s, run[|run| - 1].c, t, n)
    requires 0 < n <= s.c.tail - s.c.head && s.c.optimistic == s.c.head + s.c.overcommit
    ensures IsRun(longer) && run <= longer && Granted(s, longer[|longer| - 1], t, n)
  {
    Decides(s, run[|run| - 1].c, t, n);
    longer := NegotiatedTwice(run, t);
  }

  /** From a state in which nobody dequeues, t can negotiate, undisturbed, for what is there. */
  lemma NegotiatesAll(run: seq<State>, t: Tid, max: nat) returns (longer: seq<State>)
    requires IsRun(run) && NobodyBusy(run[|run| - 1], t) && max >= 1
    ensures IsRun(longer) && run <= longer && run[|run| - 1].c.head <= run[|run| - 1].c.tail
    ensures Granted(run[|run| - 1], longer[|longer| - 1], t, Min(max, run[|run| - 1].c.tail - run[|run| - 1].c.head))
  {
    var s := run[|run| - 1];
    LastCounters(run, t);
    longer := Looked(run, t, max);
    if s.c.head < s.c.tail {
      longer := Decided(longer, s, t, Min(max, s.c.tail - s.c.head));
    }
  }

  /** t has taken n indices, for the elements that were the oldest in state s. */
  ghost predicate Served(s: State, s': State, t: Tid, n: nat) {
    && NobodyBusy(s', t) && s'.b.head == s.b.head + n && s'.b.tail == s.b.tail && s'.b.written == s.b.written
    && |s'.c.claimed| == s.b.head + n && forall x: nat :: s.b.head <= x < s.b.head + n ==> s'.c.claimed[x] == t
  }

  lemma TakesGranted(s: State, m: State, s': State, t: Tid, n: nat)
    requires Linked(s) && |s.c.claimed| == s.c.head && NobodyBusy(s, t)
    requires Granted(s, m, t, n) && n > 0 && Take(m, s', t)
    ensures OthersIdle(s', t) && t in s'.b.cons && TookFor(s, s', t, n)
  {
  }

  ghost predicate TookFor(s: State, s': State, t: Tid, n: nat) {
    && t in s.c.pc && s'.c.pc == s.c.pc[t := Claims.Idle]
    && s'.b.head == s.b.head + n && s'.b.tail == s.b.tail && s'.b.written == s.b.written
    && |s'.c.claimed| == s.b.head + n && forall x: nat :: s.b.head <= x < s.b.head + n ==> s'.c.claimed[x] == t
  }

  lemma FetchedIsServed(s: State, m: State, s': State, t: Tid, n: nat)
    requires NobodyBusy(s, t) && TookFor(s, m, t, n) && SameQueue(m, s')
    requires OthersIdle(s', t) && t in s'.b.cons && s'.b.cons[t] == Store.Idle
    ensures Served(s, s', t, n)
  {
  }

  lemma NoneIsServed(s: State, s': State, t: Tid)
    requires Linked(s) && |s.c.claimed| == s.c.head && NobodyBusy(s, t) && Granted(s, s', t, 0)
    ensures Served(s, s', t, 0)
  {
  }

  lemma Serves(run: seq<State>, t: Tid, max: nat) returns (longer: seq<State>)
    requires IsRun(run) && NobodyBusy(run[|run| - 1], t) && max >= 1
    ensures IsRun(longer) && run <= longer && run[|run| - 1].c.head <= run[|run| - 1].c.tail
    ensures Served(run[|run| - 1], longer[|longer| - 1], t, Min(max, run[|run| - 1].c.tail - run[|run| - 1].c.head))
  {
    var s := run[|run| - 1];
    LastIsLinked(run);
    longer := NegotiatesAll(run, t, max);
    var n: nat := Min(max, s.c.tail - s.c.head);
    if n == 0 {
      NoneIsServed(s, longer[|longer| - 1], t);
    } else {
      longer := TakesAndFetches(longer, s, t, n);
    }
  }

  lemma LastIsLinked(run: seq<State>)
    requires IsRun(run)
    ensures Linked(run[|run| - 1]) && |run[|run| - 1].c.claimed| == run[|run| - 1].c.head
  {
    RunKeepsInv(run, |run| - 1);
  }

  lemma TakesAndFetches(run: seq<State>, s: State, t: Tid, n: nat) returns (longer: seq<State>)
    requires IsRun(run) && n > 0 && Linked(s) && |s.c.claimed| == s.c.head && NobodyBusy(s, t)
    requires Granted(s, run[|run| - 1], t, n)
    ensures IsRun(longer) && run <= longer && Served(s, longer[|longer| - 1], t, n)
  {
    var next := Took(run, t);
    TakesGranted(s, run[|run| - 1], next[|run|], t, n);
    longer := FetchesAll(next, t);
    FetchedIsServed(s, next[|run|], longer[|longer| - 1], t, n);
  }

  /** From every state in which nobody is dequeuing, whatever the producer is doing, a dequeue
      of up to max elements that nobody disturbs comes back with the oldest elements there
      are, as many as asked for if there are so many. */
  lemma UndisturbedDequeue(run: seq<State>, t: Tid, max: nat)
    requires IsRun(run) && NobodyBusy(run[|run| - 1], t) && max >= 1
    ensures exists longer: seq<State> ::
      IsRun(longer) && run <= longer && NobodyBusy(longer[|longer| - 1], t)
      && Dequeued(run[|run| - 1], longer[|longer| - 1], t, Min(max, |Contents(run[|run| - 1])|))
  {
    var longer := Serves(run, t, max);
    var s, s' := run[|run| - 1], longer[|longer| - 1];
    QueueBounds(run);
    AllDelivered(longer, t);
    ServedIsDequeued(s, s', t, Min(max, |Contents(s)|));
  }

  predicate IsDelivered(b: Store.State, x: nat) {
    x in b.delivered && x < |b.written| && b.delivered[x] == b.written[x]
  }

  ghost predicate DeliveredUpToHead(b: Store.State) {
    forall x: nat {:trigger IsDelivered(b, x)} :: x < b.head ==> IsDelivered(b, x)
  }

  lemma AllDelivered(run: seq<State>, t: Tid)
    requires IsRun(run) && NobodyBusy(run[|run| - 1], t)
    ensures DeliveredUpToHead(run[|run| - 1].b)
  {
    var s := run[|run| - 1];
    RunKeepsInv(run, |run| - 1);
    forall x: nat | x < s.b.head ensures IsDelivered(s.b, x) {
      Accounts.SafeIdleMeansAllDelivered(s.b, x);
    }
  }

  lemma QueueBounds(run: seq<State>)
    requires IsRun(run)
    ensures var s := run[|run| - 1];
      s.c.tail == s.b.tail && s.c.head == s.b.head && s.b.head <= s.b.tail <= |s.b.written|
  {
    RunKeepsInv(run, |run| - 1);
  }

  lemma ServedIsDequeued(s: State, s': State, t: Tid, n: nat)
    requires Served(s, s', t, n) && s.b.head + n <= s.b.tail <= |s.b.written|
    requires DeliveredUpToHead(s'.b)
    ensures Dequeued(s, s', t, n)
  {
    forall k: nat | k < n ensures Received(s, s', t, k) {
      assert IsDelivered(s'.b, s.b.head + k);
    }
  }

  /** The k-th element that was in the queue in s has been claimed by t and delivered. */
  ghost predicate Received(s: State, s': State, t: Tid, k: nat)
    requires k < |Contents(s)|
  {
    var x := s.b.head + k;
    && x in s'.b.delivered && s'.b.delivered[x] == Contents(s)[k]
    && x < |s'.c.claimed| && s'.c.claimed[x] == t
  }

  /** From s to s' the first n elements left the queue and were delivered to t. */
  ghost predicate Dequeued(s: State, s': State, t: Tid, n: nat) {
    && n <= |Contents(s)| && Contents(s') == Contents(s)[n..] && s'.b.head == s.b.head + n
    && forall k: nat {:trigger Received(s, s', t, k)} :: k < n ==> Received(s, s', t, k)
  }

  // ------------------------------------------------------- undisturbed enqueues

  /** The producer's step, if its allocations succeed, in the whole queue. */
  lemma EnqueueStep(s: State) returns (s': State)
    requires Inv(s) && HasValues(s.b.prod)
    ensures Produce(s, s') || Publish(s, s')
    ensures Progress.GoesWell(s.b, s'.b) && Progress.EnqueueLeft(s'.b) < Progress.EnqueueLeft(s.b)
  {
    var b := Progress.StepsWell(s.b);
    Progress.ProdComesCloser(s.b, b);
    s' := State(if Store.ProdStep(s.b, b) then s.c else s.c.(tail := b.tail), b);
  }

  /** With the values of the enqueue in progress, which is at most `left` steps from its end,
      the queue will contain `goal`. */
  ghost predicate Enqueuing(s: State, goal: seq<Value>, left: nat) {
    HasValues(s.b.prod) && Contents(s) + s.b.prod.vals == goal && Progress.EnqueueLeft(s.b) <= left
  }

  ghost predicate Enqueued(s: State, goal: seq<Value>) {
    s.b.prod == Store.Ready && Contents(s) == goal
  }

  lemma ProduceNearer(s: State, s': State, goal: seq<Value>, left: nat)
    requires Inv(s) && Produce(s, s') && Progress.GoesWell(s.b, s'.b) && Enqueuing(s, goal, left)
    requires Progress.EnqueueLeft(s'.b) < Progress.EnqueueLeft(s.b)
    ensures left > 0 && Enqueuing(s', goal, left - 1)
  {
    Runs.ProdStepKeepsSafe(s.b, s'.b);
    NotReadyYet(s.b, s'.b);
    ContentsKept(s, s');
  }

  lemma ContentsKept(s: State, s': State)
    requires s'.b.head == s.b.head && s'.b.tail == s.b.tail && s.b.written <= s'.b.written && s.b.tail <= |s.b.written|
    ensures Contents(s') == Contents(s)
  {
  }

  lemma PublishNearer(s: State, s': State, goal: seq<Value>, left: nat)
    requires Inv(s) && Publish(s, s') && Enqueuing(s, goal, left)
    ensures Enqueued(s', goal)
  {
    var b := s.b;
    assert b.written == b.written[..b.tail] + b.written[b.tail..];
  }

  ghost predicate EndsEnqueuing(run: seq<State>, goal: seq<Value>, left: nat) {
    run != [] && Enqueuing(run[|run| - 1], goal, left)
  }

  ghost predicate EndsEnqueued(run: seq<State>, goal: seq<Value>) {
    run != [] && Enqueued(run[|run| - 1], goal)
  }

  lemma EnqueuesNext(run: seq<State>, goal: seq<Value>, left: nat) returns (next: seq<State>)
    requires IsRun(run) && EndsEnqueuing(run, goal, left)
    ensures IsRun(next) && run <= next
    ensures EndsEnqueued(next, goal) || (left > 0 && EndsEnqueuing(next, goal, left - 1))
  {
    RunKeepsInv(run, |run| - 1);
    var s' := EnqueueStep(run[|run| - 1]);
    EnqueueIsNext(run[|run| - 1], s');
    OneMore(run, s');
    next := run + [s'];
    if Produce(run[|run| - 1], s') {
      ProduceNearer(run[|run| - 1], s', goal, left);
    } else {
      PublishNearer(run[|run| - 1], s', goal, left);
    }
  }

  lemma EnqueueIsNext(s: State, s': State)
    requires Produce(s, s') || Publish(s, s')
    ensures Next(s, s')
  {
  }

  lemma NotReadyYet(b: Store.State, b': Store.State)
    requires Progress.GoesWell(b, b') && b'.tail == b.tail && b.prod != Store.Ready && Safe(b)
    ensures b'.prod != Store.Ready
  {
  }

  lemma {:induction false} EnqueuesAll(run: seq<State>, goal: seq<Value>, left: nat) returns (longer: seq<State>)
    requires IsRun(run) && EndsEnqueuing(run, goal, left)
    ensures IsRun(longer) && run <= longer && EndsEnqueued(longer, goal)
    decreases left
  {
    longer := EnqueuesNext(run, goal, left);
    if !EndsEnqueued(longer, goal) {
      longer := EnqueuesAll(longer, goal, left - 1);
    }
  }

  /** From every state in which nobody is enqueuing, whatever the consumers are doing, an
      enqueue that nobody disturbs can append its values, if memory can be had. */
  lemma UndisturbedEnqueue(run: seq<State>, vals: seq<Value>)
    requires IsRun(run) && run[|run| - 1].b.prod == Store.Ready && vals != []
    ensures exists longer: seq<State> ::
      && IsRun(longer) && run <= longer && longer[|longer| - 1].b.prod == Store.Ready
      && Contents(longer[|longer| - 1]) == Contents(run[|run| - 1]) + vals
  {
    var s := run[|run| - 1];
    var s' := State(s.c, s.b.(prod := Store.GoOn(s.b, vals, [])));
    assert Store.StartEnqueue(s.b, s'.b, vals);
    assert Produce(s, s');
    OneMore(run, s');
    QueueBounds(run);
    ContentsKept(s, s');
    var longer := EnqueuesAll(run + [s'], Contents(s) + vals, Progress.EnqueueLeft(s'.b));
  }
}
