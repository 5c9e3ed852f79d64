/** Every run of the routing algorithm is finite, although each improvement makes
    new messages; and a run that cannot go on has converged. */
module RoutingTermination {
  import opened Totals
  import opened Routes
  import opened Routing

  /** Nodes not started, entries missing, sum of all prices, work under way. */
  datatype Measure = Measure(unstarted: int, absent: int, prices: int, work: int)

  predicate Smaller(a: Measure, b: Measure) {
    || a.unstarted < b.unstarted
    || (a.unstarted == b.unstarted && a.absent < b.absent)
    || (a.unstarted == b.unstarted && a.absent == b.absent && a.prices < b.prices)
    || (a.unstarted == b.unstarted && a.absent == b.absent && a.prices == b.prices && a.work < b.work)
  }

  function Price(e: Entry): int {
    e.cost
  }

  function HandWork(h: Hand): int {
    match h
    case Free => 0
    case Holding(_) => 2
    case Relaxed => 1
  }

  /** A message takes five steps: sending, counting, dequeuing, relaxing, finishing. */
  ghost function Work(s: State): int {
    5 * |s.todo| + 3 * |s.queued| + |s.uncounted| + Total(s.hand, HandWork)
  }

  ghost function Pairs(net: Net): set<(Addr, Addr)> {
    set a, b | a in Nodes(net) && b in Nodes(net) :: (a, b)
  }

  ghost function MeasureOf(net: Net, s: State): Measure {
    Measure(|Nodes(net) - s.started|, |Pairs(net) - s.table.Keys|, Total(s.table, Price), Work(s))
  }

  lemma MeasureIsBounded(net: Net, s: State)
    ensures var m := MeasureOf(net, s); m.unstarted >= 0 && m.absent >= 0 && m.prices >= 0 && m.work >= 0
  {
    TotalCovers(s.table, Price);
    TotalCovers(s.hand, HandWork);
  }

  lemma FewerLeft<T>(a: set<T>, b: set<T>, x: T)
    requires x in a && x !in b
    ensures |a - (b + {x})| < |a - b|
  {
    assert a - (b + {x}) == (a - b) - {x};
  }

  /** The entry that a message in hand may create lies between two nodes. */
  ghost predicate TargetOk(net: Net, s: State, n: Addr) {
    n in s.hand && s.hand[n].Holding? ==> (n, s.hand[n].msg.dest) in Pairs(net)
  }

  lemma TargetIsPair(net: Net, s: State, n: Addr)
    requires Inv(net, s)
    ensures TargetOk(net, s, n)
  {
    if n in s.hand && s.hand[n].Holding? {
      var m := s.hand[n].msg;
      assert HandOk(s, n) && InFlight(s, m) && MsgOk(net, s, m) && LinkOk(net, n, m.sender);
      var h :| HasRoute(net, m.sender, h, m.dest, m.cost);
      HasRouteEnds(net, m.sender, h, m.dest, m.cost);
    }
  }

  /** An entry appears or becomes cheaper: that outweighs any new message. */
  lemma ImprovementDecreases(net: Net, s: State, s': State, k: (Addr, Addr), e: Entry)
    requires s'.started == s.started && s'.table == s.table[k := e] && k in Pairs(net)
    requires k in s.table ==> e.cost < s.table[k].cost
    ensures Smaller(MeasureOf(net, s'), MeasureOf(net, s))
  {
    if k in s.table {
      TotalUpdate(s.table, k, e, Price);
      assert s'.table.Keys == s.table.Keys;
    } else {
      FewerLeft(Pairs(net), s.table.Keys, k);
      assert s'.table.Keys == s.table.Keys + {k};
    }
  }

  /** A step that leaves tables alone does a piece of the work. */
  lemma WorkDecreases(net: Net, s: State, s': State)
    requires s'.started == s.started && s'.table == s.table && Work(s') < Work(s)
    ensures Smaller(MeasureOf(net, s'), MeasureOf(net, s))
  {
  }

  lemma StartDecreases(net: Net, s: State, s': State, n: Addr)
    requires Start(net, s, s', n)
    ensures Smaller(MeasureOf(net, s'), MeasureOf(net, s))
  {
    FewerLeft(Nodes(net), s.started, n);
  }

  lemma RelaxDecreases(net: Net, s: State, s': State, n: Addr)
    requires TargetOk(net, s, n) && Relax(net, s, s', n)
    ensures Smaller(MeasureOf(net, s'), MeasureOf(net, s))
  {
    var m := s.hand[n].msg;
    var c := m.cost + net.links[(n, m.sender)];
    if Improves(s.table, n, m.dest, c) {
      ImprovementDecreases(net, s, s', (n, m.dest), Entry(c, m.sender));
    } else {
      TotalUpdate(s.hand, n, Relaxed, HandWork);
      WorkDecreases(net, s, s');
    }
  }

  lemma MessageWork(net: Net, s: State, s': State, m: Msg)
    requires Dequeue(s, s', m) || Send(s, s', m)
    ensures Work(s') < Work(s) && s'.started == s.started && s'.table == s.table
  {
    if Dequeue(s, s', m) {
      TotalUpdate(s.hand, m.to, Holding(m), HandWork);
    } else {
      assert |s'.uncounted| == |s.uncounted| + 1;
    }
  }

  lemma CountingWork(net: Net, s: State, s': State, n: Addr)
    requires Count(s, s', n) || Finish(s, s', n)
    ensures Work(s') < Work(s) && s'.started == s.started && s'.table == s.table
  {
    if Count(s, s', n) {
      assert |s'.uncounted| == |s.uncounted| - 1;
    } else {
      TotalUpdate(s.hand, n, Free, HandWork);
    }
  }

  lemma NextDecreases(net: Net, s: State, s': State)
    requires (forall n: Addr {:trigger TargetOk(net, s, n)} :: TargetOk(net, s, n)) && Next(net, s, s')
    ensures Smaller(MeasureOf(net, s'), MeasureOf(net, s))
  {
    if n :| Start(net, s, s', n) {
      StartDecreases(net, s, s', n);
    } else if n :| Relax(net, s, s', n) {
      assert TargetOk(net, s, n);
      RelaxDecreases(net, s, s', n);
    } else if m :| Dequeue(s, s', m) || Send(s, s', m) {
      MessageWork(net, s, s', m);
      WorkDecreases(net, s, s');
    } else {
      var n :| Count(s, s', n) || Finish(s, s', n);
      CountingWork(net, s, s', n);
      WorkDecreases(net, s, s');
    }
  }

  ghost predicate Steps(net: Net, trace: nat -> State, i: nat) {
    Next(net, trace(i), trace(i + 1))
  }

  lemma {:induction false} CannotDescendForEver(net: Net, trace: nat -> State, i: nat)
    requires Inv(net, trace(i))
    requires forall j: nat {:trigger Steps(net, trace, j)} :: Steps(net, trace, j)
    ensures false
    decreases MeasureOf(net, trace(i)).unstarted, MeasureOf(net, trace(i)).absent,
              MeasureOf(net, trace(i)).prices, MeasureOf(net, trace(i)).work
  {
    assert Steps(net, trace, i);
    NextKeepsInv(net, trace(i), trace(i + 1));
    forall n: Addr ensures TargetOk(net, trace(i), n) {
      TargetIsPair(net, trace(i), n);
    }
    NextDecreases(net, trace(i), trace(i + 1));
    MeasureIsBounded(net, trace(i));
    MeasureIsBounded(net, trace(i + 1));
    CannotDescendForEver(net, trace, i + 1);
  }

  /** No schedule goes on for ever. */
  lemma EveryRunIsFinite(net: Net, trace: nat -> State)
    requires ValidNet(net) && Init(net, trace(0))
    ensures exists i: nat :: !Steps(net, trace, i)
  {
    if forall j: nat {:trigger Steps(net, trace, j)} :: Steps(net, trace, j) {
      InitGivesInv(net, trace(0));
      CannotDescendForEver(net, trace, 0);
    }
  }

  ghost predicate CanStep(net: Net, s: State) {
    exists s' :: Next(net, s, s')
  }

  lemma UnstartedCanStart(net: Net, s: State, n: Addr)
    requires n in Nodes(net) && n !in s.started
    ensures CanStep(net, s)
  {
    var s' := s.(started := s.started + {n},
                 todo := if n in net.routers then s.todo + BroadcastAll(net, s, n) else s.todo);
    assert Start(net, s, s', n);
    assert Next(net, s, s');
  }

  lemma TodoCanGoOn(net: Net, s: State, m: Msg)
    requires m in s.todo
    ensures CanStep(net, s)
  {
    if m.sender in s.uncounted {
      UncountedCanCount(net, s, m.sender);
    } else {
      var s' := s.(todo := s.todo - multiset{m}, queued := s.queued + multiset{m},
                   uncounted := s.uncounted + {m.sender});
      assert Send(s, s', m);
      assert Next(net, s, s');
    }
  }

  lemma UncountedCanCount(net: Net, s: State, n: Addr)
    requires n in s.uncounted
    ensures CanStep(net, s)
  {
    var s' := s.(uncounted := s.uncounted - {n}, counter := (s.counter + 1) % RANGE, tally := s.tally + 1);
    assert Count(s, s', n);
    assert Next(net, s, s');
  }

  lemma HolderIsLinked(net: Net, s: State, n: Addr)
    requires Inv(net, s) && n in s.hand && s.hand[n].Holding?
    ensures (n, s.hand[n].msg.sender) in net.links
  {
    var m := s.hand[n].msg;
    assert HandOk(s, n) && InFlight(s, m) && MsgOk(net, s, m);
  }

  lemma HolderCanRelax(net: Net, s: State, n: Addr)
    requires n in s.hand && s.hand[n].Holding? && (n, s.hand[n].msg.sender) in net.links
    ensures CanStep(net, s)
  {
    var m := s.hand[n].msg;
    var s' := AfterRelax(net, s, n, m, m.cost + net.links[(n, m.sender)]);
    assert Relax(net, s, s', n);
    assert Next(net, s, s');
  }

  lemma RelaxedCanFinish(net: Net, s: State, n: Addr)
    requires n in s.hand && s.hand[n] == Relaxed && Drained(s, n)
    ensures CanStep(net, s)
  {
    var s' := s.(hand := s.hand[n := Free], counter := (s.counter - 1) % RANGE, tally := s.tally - 1);
    assert Finish(s, s', n);
    assert Next(net, s, s');
  }

  lemma QueuedCanBeTaken(net: Net, s: State, m: Msg)
    requires m in s.queued && m.to in s.started && m.to in s.hand && s.hand[m.to] == Free && Drained(s, m.to)
    ensures CanStep(net, s)
  {
    var s' := s.(queued := s.queued - multiset{m}, hand := s.hand[m.to := Holding(m)]);
    assert Dequeue(s, s', m);
    assert Next(net, s, s');
  }

  /** A run that cannot go on has converged, with every send counted: the
      algorithm never gets stuck half way. */
  lemma StuckMeansConverged(net: Net, run: seq<State>, i: nat)
    requires IsRun(net, run) && i < |run| && !CanStep(net, run[i])
    ensures Converged(net, run[i]) && Nodes(net) <= run[i].started && run[i].uncounted == {}
    ensures forall n :: n in run[i].hand ==> run[i].hand[n] == Free
  {
    var s := run[i];
    RunKeepsInv(net, run, i);
    forall n | n in Nodes(net) ensures n in s.started {
      if n !in s.started { UnstartedCanStart(net, s, n); }
    }
    forall n ensures n !in s.uncounted {
      if n in s.uncounted { UncountedCanCount(net, s, n); }
    }
    forall m ensures m !in s.todo {
      if m in s.todo { TodoCanGoOn(net, s, m); }
    }
    forall n | n in s.hand ensures s.hand[n] == Free {
      if s.hand[n].Holding? { HolderIsLinked(net, s, n); HolderCanRelax(net, s, n); }
      else if s.hand[n].Relaxed? { RelaxedCanFinish(net, s, n); }
    }
    forall m ensures m !in s.queued {
      if m in s.queued {
        assert InFlight(s, m) && MsgOk(net, s, m) && LinkOk(net, m.to, m.sender);
        QueuedCanBeTaken(net, s, m);
      }
    }
  }
}
