/** The convergence counter as a termination detector. A message is counted after
    it was enqueued, so for a moment it is in a queue and not in the counter. */
module Convergence {
  import opened Totals
  import opened Modular
  import opened Routes
  import opened Routing

  function Busy(h: Hand): int {
    if h.Free? then 0 else 1
  }

  /** Messages queued or being processed. */
  ghost function Open(s: State): int {
    |s.queued| + Total(s.hand, Busy)
  }

  /** The counter is the tally in 64 bits, and tally and uncounted messages make
      up the open messages. */
  ghost predicate Balanced(s: State) {
    s.counter == s.tally % RANGE && s.tally + |s.uncounted| == Open(s)
  }

  /** What a step does to the four quantities. */
  ghost predicate Balances(s: State, s': State) {
    && s'.tally + |s'.uncounted| - Open(s') == s.tally + |s.uncounted| - Open(s)
    && ((s'.tally == s.tally && s'.counter == s.counter)
        || (s'.tally == s.tally + 1 && s'.counter == (s.counter + 1) % RANGE)
        || (s'.tally == s.tally - 1 && s'.counter == (s.counter - 1) % RANGE))
  }

  lemma MessageBalances(net: Net, s: State, s': State, m: Msg)
    requires Dequeue(s, s', m) || Send(s, s', m)
    ensures Balances(s, s')
  {
    if Dequeue(s, s', m) {
      TotalUpdate(s.hand, m.to, Holding(m), Busy);
    } else {
      assert |s'.uncounted| == |s.uncounted| + 1;
    }
  }

  lemma CountingBalances(net: Net, s: State, s': State, n: Addr)
    requires Start(net, s, s', n) || Count(s, s', n) || Finish(s, s', n)
    ensures Balances(s, s')
  {
    if Count(s, s', n) {
      assert |s'.uncounted| == |s.uncounted| - 1;
    } else if Finish(s, s', n) {
      TotalUpdate(s.hand, n, Free, Busy);
    }
  }

  lemma RelaxBalances(net: Net, s: State, s': State, n: Addr)
    requires Relax(net, s, s', n)
    ensures Balances(s, s')
  {
    TotalUpdate(s.hand, n, Relaxed, Busy);
  }

  lemma NextBalances(net: Net, s: State, s': State)
    requires Next(net, s, s')
    ensures Balances(s, s')
  {
    if m :| Dequeue(s, s', m) || Send(s, s', m) {
      MessageBalances(net, s, s', m);
    } else if n :| Relax(net, s, s', n) {
      RelaxBalances(net, s, s', n);
    } else {
      var n :| Start(net, s, s', n) || Count(s, s', n) || Finish(s, s', n);
      CountingBalances(net, s, s', n);
    }
  }

  lemma NextKeepsBalance(net: Net, s: State, s': State)
    requires Balanced(s) && Next(net, s, s')
    ensures Balanced(s')
  {
    NextBalances(net, s, s');
    ModAdd(s.tally, 1, RANGE);
    ModAdd(s.tally, -1, RANGE);
  }

  /** At every step the counter plus the messages enqueued and not yet counted is
      the number of messages queued or being processed. */
  lemma {:induction false} CounterBalances(net: Net, run: seq<State>, i: nat)
    requires IsRun(net, run) && i < |run|
    ensures Balanced(run[i])
  {
    if i == 0 {
      TotalZero(run[0].hand, Busy);
      ModSmall(0, RANGE);
    } else {
      CounterBalances(net, run, i - 1);
      assert StepAt(net, run, i - 1);
      NextKeepsBalance(net, run[i - 1], run[i]);
    }
  }

  /** Exactly when the counter reads zero. */
  lemma ZeroIff(net: Net, run: seq<State>, i: nat)
    requires IsRun(net, run) && i < |run|
    requires Open(run[i]) < RANGE && |run[i].uncounted| < RANGE
    ensures run[i].counter == 0 <==> Open(run[i]) == |run[i].uncounted|
  {
    var s := run[i];
    CounterBalances(net, run, i);
    OpenIsEmpty(s);
    ModSmall(0, RANGE);
    if s.counter == 0 {
      WindowUnique(s.tally, 0, RANGE);
    }
  }

  lemma OpenIsEmpty(s: State)
    ensures Open(s) >= 0
    ensures Open(s) == 0 <==> s.queued == multiset{} && forall n :: n in s.hand ==> s.hand[n] == Free
  {
    TotalCovers(s.hand, Busy);
    if forall n :: n in s.hand ==> s.hand[n] == Free {
      TotalZero(s.hand, Busy);
    }
  }

  /** The first announcements are done: who still has messages to send is announcing
      an entry that it has just relaxed. */
  ghost predicate StartsAreOver(s: State) {
    forall m :: m in s.todo ==> m.sender in s.hand && s.hand[m.sender].Relaxed?
  }

  /** The counter detects convergence once all routers have started and made their
      first announcements, whenever no router is between enqueueing a message and
      counting it: then it reads zero exactly when nothing is queued, being processed
      or yet to be sent, and the tables are final. */
  lemma ZeroDetectsConvergence(net: Net, run: seq<State>, i: nat)
    requires IsRun(net, run) && i < |run| && Open(run[i]) < RANGE
    requires net.routers <= run[i].started && StartsAreOver(run[i]) && run[i].uncounted == {}
    ensures run[i].counter == 0 <==>
      && run[i].queued == multiset{} && run[i].todo == multiset{}
      && forall n :: n in run[i].hand ==> run[i].hand[n] == Free
    ensures run[i].counter == 0 ==> Converged(net, run[i])
  {
    ZeroIff(net, run, i);
    OpenIsEmpty(run[i]);
  }

  lemma ZeroMeansOptimal(net: Net, run: seq<State>, i: nat, p: seq<Addr>)
    requires IsRun(net, run) && i < |run| && Open(run[i]) < RANGE && run[i].counter == 0
    requires net.routers <= run[i].started && StartsAreOver(run[i]) && run[i].uncounted == {}
    requires IsRoute(net, p)
    ensures (p[0], p[|p| - 1]) in run[i].table
    ensures run[i].table[(p[0], p[|p| - 1])].cost <= RouteCost(net, p)
  {
    ZeroDetectsConvergence(net, run, i);
    RunKeepsInv(net, run, i);
    NoRouteIsCheaper(net, run[i], p);
  }

  // --------------------------------------------------------- false positives

  /** Two routers and one link. */
  function TwoRouters(): Net {
    Net({0, 1}, {}, map[(0, 1) := 1, (1, 0) := 1])
  }

  function FirstState(): State {
    State({}, map[(0, 1) := Entry(1, 1), (1, 0) := Entry(1, 0)], multiset{}, multiset{},
          map[0 := Free, 1 := Free], {}, 0, 0)
  }

  lemma TwoRoutersAreValid()
    ensures ValidNet(TwoRouters()) && Init(TwoRouters(), FirstState())
  {
    var net := TwoRouters();
    forall a: Addr, b: Addr ensures LinkOk(net, a, b) {
    }
  }

  /** Both routers start, and router 0 enqueues its first message to router 1. */
  ghost function EarlyRun(): seq<State> {
    var net, s0 := TwoRouters(), FirstState();
    var s1 := s0.(started := {0}, todo := s0.todo + BroadcastAll(net, s0, 0));
    var s2 := s1.(started := {0, 1}, todo := s1.todo + BroadcastAll(net, s1, 1));
    var m := Msg(1, 0, 1, 1);
    [s0, s1, s2, s2.(todo := s2.todo - multiset{m}, queued := s2.queued + multiset{m}, uncounted := {0})]
  }

  lemma EarlyRunIsRun()
    ensures IsRun(TwoRouters(), EarlyRun())
  {
    var net, run := TwoRouters(), EarlyRun();
    var m := Msg(1, 0, 1, 1);
    TwoRoutersAreValid();
    assert Start(net, run[0], run[1], 0) && Start(net, run[1], run[2], 1);
    assert m in BroadcastAll(net, run[0], 0);
    assert Send(run[2], run[3], m);
    forall j: nat | j + 1 < |run| ensures StepAt(net, run, j) {
      assert j == 0 || j == 1 || j == 2;
    }
  }

  /** The counter reads zero although an entry is missing that a route would justify:
      before any router has started, and again when all have started and a message is
      queued, because the message is enqueued and not yet counted. */
  lemma ZeroCanComeTooEarly()
    ensures var net, run := TwoRouters(), EarlyRun();
      && IsRun(net, run) && net.routers <= run[3].started
      && run[0].counter == 0 && run[0].started == {} && (0, 0) !in run[0].table
      && run[3].counter == 0 && run[3].queued != multiset{}
      && IsRoute(net, [0, 1, 0]) && (0, 0) !in run[3].table
  {
    EarlyRunIsRun();
    assert [0, 1, 0][1..] == [1, 0];
    assert IsRoute(TwoRouters(), [1, 0]);
    assert Msg(1, 0, 1, 1) in EarlyRun()[3].queued;
  }
}
