/** Asynchronous distance vector routing with triggered broadcasts. Every node runs
    in its own thread: it takes a message from its queue, relaxes one entry of its
    table, and a router whose entry became cheaper sends the new cost to all its
    neighbours, one at a time. Each send enqueues the message first and adds one to
    the convergence counter afterwards; the receiver subtracts one when done.

    Messages form bags, so any order of sending and of delivery is covered. */
module Routing {
  import opened Routes

  datatype Entry = Entry(cost: nat, nextHop: Addr)

  datatype Msg = Msg(to: Addr, sender: Addr, dest: Addr, cost: nat)

  /** A node waits for a message, has one in hand, or is done with it except for
      broadcasting and counting. */
  datatype Hand = Free | Holding(msg: Msg) | Relaxed

  /** Tables (all in one map), queued messages, messages still to be sent, nodes
      that have enqueued a message and not counted it yet, and the counter. History:
      the tally is the counter without wrapping. */
  datatype State = State(
    started: set<Addr>,
    table: map<(Addr, Addr), Entry>,
    queued: multiset<Msg>,
    todo: multiset<Msg>,
    hand: map<Addr, Hand>,
    uncounted: set<Addr>,
    counter: nat,
    tally: int)

  /** The counter is a 64-bit unsigned number and wraps. */
  const RANGE: nat := 0x1_0000_0000_0000_0000

  // ------------------------------------------------------------------- steps

  /** broadCastNewLink */
  ghost function Broadcast(net: Net, r: Addr, d: Addr, c: nat): multiset<Msg> {
    multiset(set n | n in Nodes(net) && (n, r) in net.links :: Msg(n, r, d, c))
  }

  /** The whole table, to every neighbour. */
  ghost function BroadcastAll(net: Net, s: State, r: Addr): multiset<Msg> {
    multiset(set n, d | n in Nodes(net) && d in Nodes(net) && (n, r) in net.links && (r, d) in s.table
                      :: Msg(n, r, d, s.table[(r, d)].cost))
  }

  /** No send of n's own is under way. */
  ghost predicate Drained(s: State, n: Addr) {
    n !in s.uncounted && forall m :: m in s.todo ==> m.sender != n
  }

  ghost predicate Start(net: Net, s: State, s': State, n: Addr) {
    && n in Nodes(net) && n !in s.started
    && s' == s.(started := s.started + {n},
                todo := if n in net.routers then s.todo + BroadcastAll(net, s, n) else s.todo)
  }

  ghost predicate Dequeue(s: State, s': State, m: Msg) {
    && m in s.queued && m.to in s.started && m.to in s.hand && s.hand[m.to] == Free && Drained(s, m.to)
    && s' == s.(queued := s.queued - multiset{m}, hand := s.hand[m.to := Holding(m)])
  }

  /** updateRoutingTable: strictly cheaper, or new. */
  predicate Improves(table: map<(Addr, Addr), Entry>, n: Addr, d: Addr, c: nat) {
    (n, d) !in table || table[(n, d)].cost > c
  }

  /** The node n relaxes one entry with the offer c of the message in hand. */
  ghost function AfterRelax(net: Net, s: State, n: Addr, m: Msg, c: nat): State {
    if Improves(s.table, n, m.dest, c) then
      s.(table := s.table[(n, m.dest) := Entry(c, m.sender)],
         todo := if n in net.routers then s.todo + Broadcast(net, n, m.dest, c) else s.todo,
         hand := s.hand[n := Relaxed])
    else s.(hand := s.hand[n := Relaxed])
  }

  ghost predicate Relax(net: Net, s: State, s': State, n: Addr) {
    && n in s.hand && s.hand[n].Holding?
    && (var m := s.hand[n].msg;
        && (n, m.sender) in net.links
        && s' == AfterRelax(net, s, n, m, m.cost + net.links[(n, m.sender)]))
  }

  ghost predicate Send(s: State, s': State, m: Msg) {
    && m in s.todo && m.sender !in s.uncounted
    && s' == s.(todo := s.todo - multiset{m}, queued := s.queued + multiset{m},
                uncounted := s.uncounted + {m.sender})
  }

  ghost predicate Count(s: State, s': State, n: Addr) {
    && n in s.uncounted
    && s' == s.(uncounted := s.uncounted - {n}, counter := (s.counter + 1) % RANGE, tally := s.tally + 1)
  }

  ghost predicate Finish(s: State, s': State, n: Addr) {
    && n in s.hand && s.hand[n] == Relaxed && Drained(s, n)
    && s' == s.(hand := s.hand[n := Free], counter := (s.counter - 1) % RANGE, tally := s.tally - 1)
  }

  /** Before `run`: the direct links are in the tables. */
  ghost predicate Init(net: Net, s: State) {
    && s.started == {} && s.queued == multiset{} && s.todo == multiset{}
    && s.uncounted == {} && s.counter == s.tally == 0
    && (forall k :: k in s.table <==> k in net.links)
    && (forall k :: k in net.links ==> s.table[k] == Entry(net.links[k], k.1))
    && s.hand.Keys == Nodes(net)
    && forall n :: n in s.hand ==> s.hand[n] == Free
  }

  ghost predicate Next(net: Net, s: State, s': State) {
    || (exists n :: Start(net, s, s', n))
    || (exists m :: Dequeue(s, s', m))
    || (exists n :: Relax(net, s, s', n))
    || (exists m :: Send(s, s', m))
    || (exists n :: Count(s, s', n))
    || (exists n :: Finish(s, s', n))
  }

  ghost predicate StepAt(net: Net, run: seq<State>, i: nat)
    requires i + 1 < |run|
  {
    Next(net, run[i], run[i + 1])
  }

  ghost predicate IsRun(net: Net, run: seq<State>) {
    && ValidNet(net) && run != [] && Init(net, run[0])
    && forall i: nat {:trigger StepAt(net, run, i)} :: i + 1 < |run| ==> StepAt(net, run, i)
  }

  // --------------------------------------------------------------- invariant

  ghost predicate InFlight(s: State, m: Msg) {
    m in s.todo || m in s.queued || (m.to in s.hand && s.hand[m.to] == Holding(m))
  }

  /** A message carries the cost of a real route of its sender, and its sender's
      table is at least as good. */
  ghost predicate MsgOk(net: Net, s: State, m: Msg) {
    && m.sender in net.routers && (m.to, m.sender) in net.links
    && Reachable(net, m.sender, m.dest, m.cost)
    && (m.sender, m.dest) in s.table && s.table[(m.sender, m.dest)].cost <= m.cost
  }

  /** An entry carries the cost of a real route through its next hop. */
  ghost predicate EntryOk(net: Net, s: State, n: Addr, d: Addr)
    requires (n, d) in s.table
  {
    HasRoute(net, n, s.table[(n, d)].nextHop, d, s.table[(n, d)].cost)
  }

  ghost predicate HandOk(s: State, n: Addr)
    requires n in s.hand
  {
    s.hand[n].Holding? ==> s.hand[n].msg.to == n
  }

  /** Direct links are never forgotten. */
  ghost predicate DirectOk(net: Net, s: State, n: Addr, d: Addr) {
    (n, d) in net.links ==> (n, d) in s.table && s.table[(n, d)].cost <= net.links[(n, d)]
  }

  /** n knows r's price for d, or will. */
  ghost predicate Announced(net: Net, s: State, n: Addr, r: Addr, d: Addr) {
    r in s.started && r in net.routers && (n, r) in net.links && (r, d) in s.table ==>
      || InFlight(s, Msg(n, r, d, s.table[(r, d)].cost))
      || ((n, d) in s.table && s.table[(n, d)].cost <= s.table[(r, d)].cost + net.links[(n, r)])
  }

  ghost predicate Sound(net: Net, s: State) {
    && (forall m: Msg {:trigger MsgOk(net, s, m)} :: InFlight(s, m) ==> MsgOk(net, s, m))
    && (forall n: Addr, d: Addr {:trigger EntryOk(net, s, n, d)} :: (n, d) in s.table ==> EntryOk(net, s, n, d))
    && (forall n: Addr {:trigger HandOk(s, n)} :: n in s.hand ==> HandOk(s, n))
    && s.hand.Keys == Nodes(net)
  }

  ghost predicate Complete(net: Net, s: State) {
    && (forall n: Addr, d: Addr {:trigger DirectOk(net, s, n, d)} :: DirectOk(net, s, n, d))
    && (forall n: Addr, r: Addr, d: Addr {:trigger Announced(net, s, n, r, d)} :: Announced(net, s, n, r, d))
  }

  ghost predicate Inv(net: Net, s: State) {
    ValidNet(net) && Sound(net, s) && Complete(net, s)
  }

  // ------------------------------------------------------------ frame lemmas

  /** Tables only get better. */
  ghost predicate Cheaper(s: State, s': State, n: Addr, d: Addr) {
    (n, d) in s.table ==> (n, d) in s'.table && s'.table[(n, d)].cost <= s.table[(n, d)].cost
  }

  /** Messages that were under way before. */
  lemma OldMessages(net: Net, s: State, s': State)
    requires Sound(net, s)
    requires forall n: Addr, d: Addr {:trigger Cheaper(s, s', n, d)} :: Cheaper(s, s', n, d)
    ensures forall m: Msg {:trigger MsgOk(net, s', m)} :: InFlight(s, m) ==> MsgOk(net, s', m)
  {
    forall m: Msg | InFlight(s, m) ensures MsgOk(net, s', m) {
      assert MsgOk(net, s, m) && Cheaper(s, s', m.sender, m.dest);
    }
  }

  /** Steps that leave tables and started nodes alone and lose no message. */
  lemma MovesMessages(net: Net, s: State, s': State)
    requires Inv(net, s) && s'.table == s.table && s'.started == s.started && s'.hand.Keys == s.hand.Keys
    requires forall n :: n in s'.hand ==> s'.hand[n] == s.hand[n] || !s'.hand[n].Holding? || s'.hand[n].msg.to == n
    requires forall m: Msg {:trigger InFlight(s, m)} {:trigger InFlight(s', m)} :: InFlight(s, m) <==> InFlight(s', m)
    ensures Inv(net, s')
  {
    forall m: Msg | InFlight(s', m) ensures MsgOk(net, s', m) {
      assert InFlight(s, m) && MsgOk(net, s, m);
    }
    forall n: Addr, d: Addr | (n, d) in s'.table ensures EntryOk(net, s', n, d) {
      assert EntryOk(net, s, n, d);
    }
    forall n: Addr | n in s'.hand ensures HandOk(s', n) {
      assert HandOk(s, n);
    }
    SameComplete(net, s, s');
  }

  /** Nothing is forgotten as long as each price under way stays so or is known. */
  lemma SameComplete(net: Net, s: State, s': State)
    requires Complete(net, s) && s'.table == s.table && s'.started == s.started
    requires forall m: Msg {:trigger InFlight(s, m)} :: InFlight(s, m) ==> InFlight(s', m)
    ensures Complete(net, s')
  {
    forall n: Addr, d: Addr ensures DirectOk(net, s', n, d) {
      assert DirectOk(net, s, n, d);
    }
    forall n: Addr, r: Addr, d: Addr ensures Announced(net, s', n, r, d) {
      assert Announced(net, s, n, r, d);
    }
  }

  // ------------------------------------------------------------------- steps

  lemma KeepsDequeue(net: Net, s: State, s': State, m: Msg)
    requires Inv(net, s) && Dequeue(s, s', m)
    ensures Inv(net, s')
  {
    forall x: Msg ensures InFlight(s, x) <==> InFlight(s', x) {
    }
    MovesMessages(net, s, s');
  }

  lemma KeepsSend(net: Net, s: State, s': State, m: Msg)
    requires Inv(net, s) && Send(s, s', m)
    ensures Inv(net, s')
  {
    forall x: Msg ensures InFlight(s, x) <==> InFlight(s', x) {
    }
    MovesMessages(net, s, s');
  }

  lemma KeepsCount(net: Net, s: State, s': State, n: Addr)
    requires Inv(net, s) && Count(s, s', n)
    ensures Inv(net, s')
  {
    forall x: Msg ensures InFlight(s, x) <==> InFlight(s', x) {
    }
    MovesMessages(net, s, s');
  }

  lemma KeepsFinish(net: Net, s: State, s': State, n: Addr)
    requires Inv(net, s) && Finish(s, s', n)
    ensures Inv(net, s')
  {
    forall x: Msg ensures InFlight(s, x) <==> InFlight(s', x) {
    }
    MovesMessages(net, s, s');
  }

  lemma StartSound(net: Net, s: State, s': State, n: Addr)
    requires Inv(net, s) && Start(net, s, s', n)
    ensures Sound(net, s')
  {
    forall m: Msg | InFlight(s', m) ensures MsgOk(net, s', m) {
      if InFlight(s, m) {
        assert MsgOk(net, s, m);
      } else {
        assert m in BroadcastAll(net, s, n);
        assert EntryOk(net, s, n, m.dest);
      }
    }
    forall k: Addr, d: Addr | (k, d) in s'.table ensures EntryOk(net, s', k, d) {
      assert EntryOk(net, s, k, d);
    }
    forall k: Addr | k in s'.hand ensures HandOk(s', k) {
      assert HandOk(s, k);
    }
  }

  lemma StartComplete(net: Net, s: State, s': State, n: Addr)
    requires Inv(net, s) && Start(net, s, s', n)
    ensures Complete(net, s')
  {
    forall k: Addr, d: Addr ensures DirectOk(net, s', k, d) {
      assert DirectOk(net, s, k, d);
    }
    forall k: Addr, r: Addr, d: Addr ensures Announced(net, s', k, r, d) {
      assert Announced(net, s, k, r, d);
      if r == n && r in net.routers && (k, r) in net.links && (r, d) in s.table {
        assert LinkOk(net, k, r) && EntryOk(net, s, r, d);
        HasRouteEnds(net, r, s.table[(r, d)].nextHop, d, s.table[(r, d)].cost);
        assert Msg(k, r, d, s.table[(r, d)].cost) in BroadcastAll(net, s, n);
      }
    }
  }

  lemma KeepsStart(net: Net, s: State, s': State, n: Addr)
    requires Inv(net, s) && Start(net, s, s', n)
    ensures Inv(net, s')
  {
    StartSound(net, s, s', n);
    StartComplete(net, s, s', n);
  }

  lemma RelaxSound(net: Net, s: State, s': State, n: Addr)
    requires Inv(net, s) && Relax(net, s, s', n)
    ensures Sound(net, s')
  {
    var m := s.hand[n].msg;
    assert HandOk(s, n) && InFlight(s, m) && MsgOk(net, s, m);
    ExtendRoute(net, n, m.sender, m.dest, m.cost);
    forall k: Addr, d: Addr ensures Cheaper(s, s', k, d) {
    }
    OldMessages(net, s, s');
    forall x: Msg | InFlight(s', x) ensures MsgOk(net, s', x) {
      if !InFlight(s, x) {
        assert x in Broadcast(net, n, m.dest, m.cost + net.links[(n, m.sender)]);
      }
    }
    forall k: Addr, d: Addr | (k, d) in s'.table ensures EntryOk(net, s', k, d) {
      if (k, d) in s.table {
        assert EntryOk(net, s, k, d);
      }
    }
    forall k: Addr | k in s'.hand ensures HandOk(s', k) {
      assert HandOk(s, k);
    }
  }

  /** After n has handled its message, the price in it is known to n. */
  lemma RelaxComplete(net: Net, s: State, s': State, n: Addr)
    requires Inv(net, s) && Relax(net, s, s', n)
    ensures Complete(net, s')
  {
    var m := s.hand[n].msg;
    var c := m.cost + net.links[(n, m.sender)];
    assert HandOk(s, n);
    forall k: Addr, d: Addr ensures DirectOk(net, s', k, d) {
      assert DirectOk(net, s, k, d);
    }
    forall k: Addr, r: Addr, d: Addr ensures Announced(net, s', k, r, d) {
      assert Announced(net, s, k, r, d);
      if r == n && d == m.dest && Improves(s.table, n, d, c) {
        RelaxAnnounces(net, s, s', n, k);
      } else if (r, d) in s.table {
        RelaxKeepsPrice(net, s, s', n, k, r, d);
      }
    }
  }

  lemma RelaxAnnounces(net: Net, s: State, s': State, n: Addr, k: Addr)
    requires ValidNet(net) && Relax(net, s, s', n)
    requires var m := s.hand[n].msg; Improves(s.table, n, m.dest, m.cost + net.links[(n, m.sender)])
    ensures Announced(net, s', k, n, s.hand[n].msg.dest)
  {
    var m := s.hand[n].msg;
    if n in net.routers && (k, n) in net.links {
      assert LinkOk(net, k, n);
      assert Msg(k, n, m.dest, m.cost + net.links[(n, m.sender)])
        in Broadcast(net, n, m.dest, m.cost + net.links[(n, m.sender)]);
    }
  }

  lemma RelaxKeepsPrice(net: Net, s: State, s': State, n: Addr, k: Addr, r: Addr, d: Addr)
    requires Relax(net, s, s', n) && HandOk(s, n) && Announced(net, s, k, r, d)
    requires (r, d) in s.table && (r, d) in s'.table && s'.table[(r, d)] == s.table[(r, d)]
    ensures Announced(net, s', k, r, d)
  {
    var x := Msg(k, r, d, s.table[(r, d)].cost);
    if InFlight(s, x) {
      assert s.hand[n] != Holding(x) ==> InFlight(s', x);
    }
  }

  lemma KeepsRelax(net: Net, s: State, s': State, n: Addr)
    requires Inv(net, s) && Relax(net, s, s', n)
    ensures Inv(net, s')
  {
    RelaxSound(net, s, s', n);
    RelaxComplete(net, s, s', n);
  }

  lemma InitGivesInv(net: Net, s: State)
    requires ValidNet(net) && Init(net, s)
    ensures Inv(net, s)
  {
    forall n: Addr, d: Addr | (n, d) in s.table ensures EntryOk(net, s, n, d) {
      LinkIsRoute(net, n, d);
    }
  }

  lemma NextKeepsInv(net: Net, s: State, s': State)
    requires Inv(net, s) && Next(net, s, s')
    ensures Inv(net, s')
  {
    if n :| Start(net, s, s', n) {
      KeepsStart(net, s, s', n);
    } else if m :| Dequeue(s, s', m) {
      KeepsDequeue(net, s, s', m);
    } else if n :| Relax(net, s, s', n) {
      KeepsRelax(net, s, s', n);
    } else if m :| Send(s, s', m) {
      KeepsSend(net, s, s', m);
    } else if n :| Count(s, s', n) {
      KeepsCount(net, s, s', n);
    } else {
      var n :| Finish(s, s', n);
      KeepsFinish(net, s, s', n);
    }
  }

  lemma {:induction false} RunKeepsInv(net: Net, run: seq<State>, i: nat)
    requires IsRun(net, run) && i < |run|
    ensures Inv(net, run[i])
  {
    if i == 0 {
      InitGivesInv(net, run[0]);
    } else {
      RunKeepsInv(net, run, i - 1);
      assert StepAt(net, run, i - 1);
      NextKeepsInv(net, run[i - 1], run[i]);
    }
  }

  // ------------------------------------------------------------ main results

  /** At every moment each table entry and each message carries the cost of a real
      route; an entry's next hop starts that route. */
  lemma CostsAreReal(net: Net, run: seq<State>, i: nat)
    requires IsRun(net, run) && i < |run|
    ensures forall n: Addr, d: Addr :: (n, d) in run[i].table ==>
      HasRoute(net, n, run[i].table[(n, d)].nextHop, d, run[i].table[(n, d)].cost)
    ensures forall m {:trigger InFlight(run[i], m)} :: InFlight(run[i], m) ==>
      m.sender in net.routers && Reachable(net, m.sender, m.dest, m.cost)
  {
    var s := run[i];
    RunKeepsInv(net, run, i);
    forall n: Addr, d: Addr | (n, d) in s.table
      ensures HasRoute(net, n, s.table[(n, d)].nextHop, d, s.table[(n, d)].cost)
    {
      assert EntryOk(net, s, n, d);
    }
    forall m | InFlight(s, m) ensures m.sender in net.routers && Reachable(net, m.sender, m.dest, m.cost) {
      assert MsgOk(net, s, m);
    }
  }

  /** All routers have started, and no routing message is to be sent, queued or
      being processed. */
  ghost predicate Converged(net: Net, s: State) {
    net.routers <= s.started && forall m: Msg {:trigger InFlight(s, m)} :: !InFlight(s, m)
  }

  lemma {:induction false} NoRouteIsCheaper(net: Net, s: State, p: seq<Addr>)
    requires Inv(net, s) && Converged(net, s) && IsRoute(net, p)
    ensures (p[0], p[|p| - 1]) in s.table
    ensures s.table[(p[0], p[|p| - 1])].cost <= RouteCost(net, p)
  {
    var n, r, d := p[0], p[1], p[|p| - 1];
    if |p| == 2 {
      assert DirectOk(net, s, n, d);
    } else {
      NoRouteIsCheaper(net, s, p[1..]);
      assert Announced(net, s, n, r, d);
    }
  }

  /** Once converged, a node has an entry for exactly the destinations it has a
      route to, and the entry is the cheapest route: its cost is that of a route
      over its next hop, and no route is cheaper. */
  lemma ConvergedIsOptimal(net: Net, run: seq<State>, i: nat, n: Addr, d: Addr)
    requires IsRun(net, run) && i < |run| && Converged(net, run[i])
    ensures (n, d) in run[i].table <==> exists p :: IsRoute(net, p) && p[0] == n && p[|p| - 1] == d
    ensures (n, d) in run[i].table ==>
      && HasRoute(net, n, run[i].table[(n, d)].nextHop, d, run[i].table[(n, d)].cost)
      && forall p :: IsRoute(net, p) && p[0] == n && p[|p| - 1] == d ==>
           run[i].table[(n, d)].cost <= RouteCost(net, p)
  {
    var s := run[i];
    RunKeepsInv(net, run, i);
    if (n, d) in s.table {
      assert EntryOk(net, s, n, d);
      var p :| Leads(net, p, n, s.table[(n, d)].nextHop, d, s.table[(n, d)].cost);
      assert IsRoute(net, p) && p[0] == n && p[|p| - 1] == d;
    }
    forall p | IsRoute(net, p) && p[0] == n && p[|p| - 1] == d
      ensures (n, d) in s.table && s.table[(n, d)].cost <= RouteCost(net, p)
    {
      NoRouteIsCheaper(net, s, p);
    }
  }
}
