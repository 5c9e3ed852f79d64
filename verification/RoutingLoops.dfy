/** Loop freedom while tables keep changing: a packet comes strictly closer with
    every hop, by the tables' own prices, whatever the nodes do meanwhile. */
module RoutingLoops {
  import opened Routes
  import opened Routing

  /** The next hop is the destination, or a router that has a cheaper entry. */
  ghost predicate NextHopOk(net: Net, s: State, n: Addr, d: Addr)
    requires (n, d) in s.table
  {
    var e := s.table[(n, d)];
    && (n, e.nextHop) in net.links
    && (e.nextHop == d
        || (e.nextHop in net.routers && (e.nextHop, d) in s.table
            && s.table[(e.nextHop, d)].cost + net.links[(n, e.nextHop)] <= e.cost))
  }

  ghost predicate Downhill(net: Net, s: State) {
    forall n: Addr, d: Addr {:trigger NextHopOk(net, s, n, d)} :: (n, d) in s.table ==> NextHopOk(net, s, n, d)
  }

  ghost predicate SomeRelax(net: Net, s: State, s': State) {
    exists n :: Relax(net, s, s', n)
  }

  /** A step changes no entry, or relaxes one. */
  lemma StepChangesTable(net: Net, s: State, s': State)
    requires Next(net, s, s')
    ensures s'.table == s.table || SomeRelax(net, s, s')
  {
  }

  lemma RelaxDownhill(net: Net, s: State, s': State, n: Addr)
    requires Inv(net, s) && Downhill(net, s) && Relax(net, s, s', n)
    ensures Downhill(net, s')
  {
    var m := s.hand[n].msg;
    assert HandOk(s, n) && InFlight(s, m) && MsgOk(net, s, m);
    forall k: Addr, d: Addr | (k, d) in s'.table ensures NextHopOk(net, s', k, d) {
      if (k, d) in s.table {
        assert NextHopOk(net, s, k, d);
      }
    }
  }

  lemma StepDownhill(net: Net, s: State, s': State)
    requires Inv(net, s) && Downhill(net, s) && Next(net, s, s')
    ensures Downhill(net, s')
  {
    StepChangesTable(net, s, s');
    if n :| Relax(net, s, s', n) {
      RelaxDownhill(net, s, s', n);
    } else {
      forall n: Addr, d: Addr | (n, d) in s'.table ensures NextHopOk(net, s', n, d) {
        assert NextHopOk(net, s, n, d);
      }
    }
  }

  lemma {:induction false} RunIsDownhill(net: Net, run: seq<State>, i: nat)
    requires IsRun(net, run) && i < |run|
    ensures Downhill(net, run[i])
  {
    if i == 0 {
      forall n: Addr, d: Addr | (n, d) in run[0].table ensures NextHopOk(net, run[0], n, d) {
      }
    } else {
      RunIsDownhill(net, run, i - 1);
      RunKeepsInv(net, run, i - 1);
      assert StepAt(net, run, i - 1);
      StepDownhill(net, run[i - 1], run[i]);
    }
  }

  ghost predicate PositiveCosts(net: Net) {
    forall k :: k in net.links ==> net.links[k] > 0
  }

  /** In every reachable state, converged or not: a next hop other than the
      destination is a router whose own entry is cheaper by at least the link. */
  lemma NextHopIsCloser(net: Net, run: seq<State>, i: nat, n: Addr, d: Addr)
    requires IsRun(net, run) && i < |run| && PositiveCosts(net) && (n, d) in run[i].table
    ensures var s := run[i]; var h := s.table[(n, d)].nextHop;
      h == d || (h in net.routers && (n, h) in net.links && (h, d) in s.table
                 && s.table[(h, d)].cost <= s.table[(n, d)].cost - net.links[(n, h)] < s.table[(n, d)].cost)
  {
    RunIsDownhill(net, run, i);
    assert NextHopOk(net, run[i], n, d);
  }

  /** Entries are never lost and never become dearer. */
  lemma {:induction false} TablesOnlyImprove(net: Net, run: seq<State>, i: nat, j: nat, n: Addr, d: Addr)
    requires IsRun(net, run) && i <= j < |run|
    ensures Cheaper(run[i], run[j], n, d)
    decreases j
  {
    if i < j {
      TablesOnlyImprove(net, run, i, j - 1, n, d);
      assert StepAt(net, run, j - 1);
      StepChangesTable(net, run[j - 1], run[j]);
    }
  }

  /** A stop of a packet: the node that handles it and the moment, as an index of
      the run. */
  datatype Stop = Stop(time: nat, node: Addr)

  ghost predicate HopAt(run: seq<State>, stops: seq<Stop>, d: Addr, k: nat)
    requires k + 1 < |stops|
  {
    var here, next := stops[k], stops[k + 1];
    && here.time <= next.time < |run| && here.node != d
    && (here.node, d) in run[here.time].table
    && next.node == run[here.time].table[(here.node, d)].nextHop
  }

  /** A packet for d travels, each node forwarding it to its next hop of the moment. */
  ghost predicate IsJourney(run: seq<State>, stops: seq<Stop>, d: Addr) {
    && stops != [] && stops[0].time < |run|
    && forall k: nat {:trigger HopAt(run, stops, d, k)} :: k + 1 < |stops| ==> HopAt(run, stops, d, k)
  }

  lemma {:induction false} RoutesCostSomething(net: Net, p: seq<Addr>)
    requires PositiveCosts(net) && IsRoute(net, p)
    ensures RouteCost(net, p) > 0
  {
  }

  lemma EntriesCostSomething(net: Net, run: seq<State>, i: nat, n: Addr, d: Addr)
    requires IsRun(net, run) && i < |run| && PositiveCosts(net) && (n, d) in run[i].table
    ensures run[i].table[(n, d)].cost > 0
  {
    RunKeepsInv(net, run, i);
    assert EntryOk(net, run[i], n, d);
    var p :| Leads(net, p, n, run[i].table[(n, d)].nextHop, d, run[i].table[(n, d)].cost);
    RoutesCostSomething(net, p);
  }

  predicate Arrived(stops: seq<Stop>, d: Addr, k: nat)
    requires k < |stops|
  {
    k > 0 && stops[k].node == d
  }

  ghost predicate Closer(net: Net, run: seq<State>, stops: seq<Stop>, d: Addr, k: nat)
    requires k < |stops| && stops[0].time < |run| && stops[k].time < |run|
    requires (stops[0].node, d) in run[stops[0].time].table
  {
    && (k > 0 ==> stops[k].node in net.routers)
    && (stops[k].node, d) in run[stops[k].time].table
    && run[stops[k].time].table[(stops[k].node, d)].cost + k <= run[stops[0].time].table[(stops[0].node, d)].cost
  }

  /** After k hops the packet has arrived, or stands at a router with an entry
      that is at least k cheaper than the first one. */
  lemma {:induction false} JourneyComesCloser(net: Net, run: seq<State>, stops: seq<Stop>, d: Addr, k: nat)
    requires IsRun(net, run) && PositiveCosts(net) && IsJourney(run, stops, d) && k < |stops|
    requires (stops[0].node, d) in run[stops[0].time].table
    ensures stops[k].time < |run|
    ensures Arrived(stops, d, k) || Closer(net, run, stops, d, k)
  {
    if k > 0 {
      JourneyComesCloser(net, run, stops, d, k - 1);
      assert HopAt(run, stops, d, k - 1);
      var here, next := stops[k - 1], stops[k];
      NextHopIsCloser(net, run, here.time, here.node, d);
      if next.node != d {
        TablesOnlyImprove(net, run, here.time, next.time, next.node, d);
        assert Cheaper(run[here.time], run[next.time], next.node, d);
      }
    }
  }

  /** The number of hops is bounded by the price in the first table, and no node on
      the way lacks an entry: the packet arrives unless something drops it. */
  lemma HopsAreBounded(net: Net, run: seq<State>, stops: seq<Stop>, d: Addr)
    requires IsRun(net, run) && PositiveCosts(net) && IsJourney(run, stops, d)
    requires (stops[0].node, d) in run[stops[0].time].table
    ensures |stops| - 1 <= run[stops[0].time].table[(stops[0].node, d)].cost
    ensures var last := stops[|stops| - 1];
      last.node == d || (last.time < |run| && (last.node, d) in run[last.time].table)
  {
    var k := |stops| - 1;
    JourneyComesCloser(net, run, stops, d, k);
    if k > 0 {
      assert HopAt(run, stops, d, k - 1);
      JourneyComesCloser(net, run, stops, d, k - 1);
      EntriesCostSomething(net, run, stops[k - 1].time, stops[k - 1].node, d);
    }
  }
}
