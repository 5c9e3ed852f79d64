/** The objects of the simulator: the controller with its convergence counter, and
    the nodes with their links and routing tables. Each method is the sequential
    code that one node thread runs; module Routing interleaves those threads. */
module NetworkNodes {
  import opened Modular
  import opened Routes
  import opened Routing

  newtype uint64 = x: int | 0 <= x < 0x1_0000_0000_0000_0000

  class NetworkController {
    var algConvergeCounter: uint64
    /** The counter without wrapping. */
    ghost var tally: int

    ghost predicate Valid()
      reads this
    {
      algConvergeCounter as int == tally % RANGE
    }

    constructor ()
      ensures Valid() && algConvergeCounter == 0 && tally == 0
    {
      algConvergeCounter := 0;
      tally := 0;
      ModSmall(0, RANGE);
    }

    method IncConvergeCounter()
      requires Valid()
      modifies this
      ensures Valid() && tally == old(tally) + 1
      ensures algConvergeCounter as int == (old(algConvergeCounter) as int + 1) % RANGE
    {
      ModAdd(tally, 1, RANGE);
      tally := tally + 1;
      if algConvergeCounter == 0xFFFF_FFFF_FFFF_FFFF {
        algConvergeCounter := 0;
      } else {
        ModSmall(algConvergeCounter as int + 1, RANGE);
        algConvergeCounter := algConvergeCounter + 1;
      }
    }

    method DecConvergeCounter()
      requires Valid()
      modifies this
      ensures Valid() && tally == old(tally) - 1
      ensures algConvergeCounter as int == (old(algConvergeCounter) as int - 1) % RANGE
    {
      ModAdd(tally, -1, RANGE);
      tally := tally - 1;
      if algConvergeCounter == 0 {
        algConvergeCounter := 0xFFFF_FFFF_FFFF_FFFF;
      } else {
        ModSmall(algConvergeCounter as int - 1, RANGE);
        algConvergeCounter := algConvergeCounter - 1;
      }
    }
  }

  // ----------------------------------------------------- specification functions

  type Table = map<Addr, Entry>

  /** Strict relaxation of one entry. */
  function Learn(table: Table, d: Addr, c: nat, hop: Addr): Table {
    if d !in table || table[d].cost > c then table[d := Entry(c, hop)] else table
  }

  /** The same news for each of the targets. */
  ghost function News(addr: Addr, targets: set<Addr>, d: Addr, c: nat): set<Msg> {
    set n | n in targets :: Msg(n, addr, d, c)
  }

  predicate Announces(m: Msg, addr: Addr, targets: set<Addr>, table: Table, ds: set<Addr>) {
    m.to in targets && m.dest in ds && m.dest in table && m == Msg(m.to, addr, m.dest, table[m.dest].cost)
  }

  /** `news` announces the entries for ds to each of the targets, once. */
  ghost predicate IsAllNews(news: multiset<Msg>, addr: Addr, targets: set<Addr>, table: Table, ds: set<Addr>) {
    forall m {:trigger Announces(m, addr, targets, table, ds)} ::
      news[m] == if Announces(m, addr, targets, table, ds) then 1 else 0
  }

  class Node {
    const addr: Addr
    const isRouter: bool
    const controller: NetworkController
    var toHosts: map<Addr, nat>
    var toRouters: map<Addr, nat>
    var links: map<Addr, nat>
    var table: Table
    var isRunning: bool
    /** The messages this node has put into its neighbours' queues, in order. */
    var sent: seq<Msg>

    ghost predicate Valid()
      reads this, controller
    {
      && toHosts.Keys !! toRouters.Keys && links == toHosts + toRouters
      && controller.Valid()
    }

    constructor (addr: Addr, isRouter: bool, controller: NetworkController)
      requires controller.Valid()
      ensures Valid() && this.addr == addr && this.isRouter == isRouter && this.controller == controller
      ensures links == map[] && table == map[] && !isRunning && sent == []
    {
      this.addr, this.isRouter, this.controller := addr, isRouter, controller;
      toHosts, toRouters, links, table, isRunning, sent := map[], map[], map[], map[], false, [];
    }

    /** The loop over one of the two link maps: each message is enqueued first and
        counted afterwards. */
    method SendToAll(targets: set<Addr>, d: Addr, c: nat)
      requires controller.Valid()
      modifies this`sent, controller
      ensures old(sent) <= sent
      ensures multiset(sent) == multiset(old(sent)) + multiset(News(addr, targets, d, c))
      ensures controller.Valid() && controller.tally == old(controller.tally) + |sent| - |old(sent)|
    {
      var rest := targets;
      NoNews(addr, targets - rest, d, c);
      while rest != {}
        invariant rest <= targets && old(sent) <= sent
        invariant multiset(sent) == multiset(old(sent)) + multiset(News(addr, targets - rest, d, c))
        invariant controller.Valid() && controller.tally == old(controller.tally) + |sent| - |old(sent)|
      {
        var n :| n in rest;
        MoreNews(addr, targets - rest, n, d, c);
        assert targets - (rest - {n}) == targets - rest + {n};
        sent := sent + [Msg(n, addr, d, c)];
        controller.IncConvergeCounter();
        rest := rest - {n};
      }
      assert targets - rest == targets;
    }

    /** broadCastNewLink: hosts first, then routers, and only while running. */
    method BroadcastNewLink(d: Addr, c: nat)
      requires Valid()
      modifies this`sent, controller
      ensures Valid() && old(sent) <= sent
      ensures multiset(sent) == multiset(old(sent))
                              + if isRunning then multiset(News(addr, links.Keys, d, c)) else multiset{}
      ensures controller.tally == old(controller.tally) + |sent| - |old(sent)|
    {
      if isRunning {
        SendToAll(toHosts.Keys, d, c);
        SendToAll(toRouters.Keys, d, c);
        JoinNews(addr, toHosts.Keys, toRouters.Keys, d, c);
        assert links.Keys == toHosts.Keys + toRouters.Keys;
      }
    }

    /** updateRoutingTable: the base class relaxes, a router broadcasts what is new. */
    method UpdateRoutingTable(d: Addr, c: nat, hop: Addr) returns (changed: bool)
      requires Valid()
      modifies this`table, this`sent, controller
      ensures Valid() && old(sent) <= sent
      ensures changed == (d !in old(table) || old(table)[d].cost > c)
      ensures table == Learn(old(table), d, c, hop)
      ensures multiset(sent) == multiset(old(sent))
                + if changed && isRouter && isRunning then multiset(News(addr, links.Keys, d, c)) else multiset{}
      ensures controller.tally == old(controller.tally) + |sent| - |old(sent)|
    {
      changed := false;
      if d !in table {
        table := table[d := Entry(c, hop)];
        changed := true;
      } else if d in table && table[d].cost > c {
        table := table[d := Entry(c, hop)];
        changed := true;
      }
      if changed && isRouter {
        BroadcastNewLink(d, c);
      }
    }

    /** addToHostLink and addToRouterLink. */
    method AddLinkTo(other: Addr, otherIsRouter: bool, cost: nat)
      requires Valid() && other !in (if otherIsRouter then toHosts else toRouters)
      modifies this`toHosts, this`toRouters, this`links, this`table, this`sent, controller
      ensures Valid() && links == old(links)[other := cost]
      ensures table == Learn(old(table), other, cost, other)
      ensures toRouters == (if otherIsRouter then old(toRouters)[other := cost] else old(toRouters))
      ensures toHosts == (if otherIsRouter then old(toHosts) else old(toHosts)[other := cost])
      ensures old(sent) <= sent && controller.tally == old(controller.tally) + |sent| - |old(sent)|
      ensures multiset(sent) == multiset(old(sent))
                + if table != old(table) && isRouter && isRunning then multiset(News(addr, links.Keys, other, cost))
                  else multiset{}
      ensures !isRunning ==> sent == old(sent)
    {
      if otherIsRouter {
        toRouters := toRouters[other := cost];
      } else {
        toHosts := toHosts[other := cost];
      }
      links := links[other := cost];
      var before := sent;
      var changed := UpdateRoutingTable(other, cost, other);
      if !isRunning {
        assert |multiset(sent)| == |multiset(before)|;
      }
    }

    /** handleNewMessage for a routing message: relax, broadcast, then count down. */
    method HandleRoutingMessage(m: Msg)
      requires Valid() && m.sender in links
      modifies this`table, this`sent, controller
      ensures Valid() && old(sent) <= sent
      ensures table == Learn(old(table), m.dest, m.cost + links[m.sender], m.sender)
      ensures multiset(sent) == multiset(old(sent))
                + if isRouter && isRunning && table != old(table)
                  then multiset(News(addr, links.Keys, m.dest, m.cost + links[m.sender])) else multiset{}
      ensures controller.tally == old(controller.tally) + |sent| - |old(sent)| - 1
    {
      var betweenNodeCost := links[m.sender];
      var changed := UpdateRoutingTable(m.dest, m.cost + betweenNodeCost, m.sender);
      controller.DecConvergeCounter();
    }

    /** startNode of a router: the whole table is broadcast before the first message
        is taken from the queue. */
    method StartRouter()
      requires Valid() && isRouter
      modifies this`isRunning, this`sent, controller
      ensures Valid() && isRunning && old(sent) <= sent
      ensures exists news :: IsAllNews(news, addr, links.Keys, table, table.Keys)
                             && multiset(sent) == multiset(old(sent)) + news
      ensures controller.tally == old(controller.tally) + |sent| - |old(sent)|
    {
      isRunning := true;
      var rest := table.Keys;
      ghost var news := multiset{};
      while rest != {}
        invariant rest <= table.Keys && Valid() && isRunning && old(sent) <= sent
        invariant multiset(sent) == multiset(old(sent)) + news
        invariant IsAllNews(news, addr, links.Keys, table, table.Keys - rest)
        invariant controller.tally == old(controller.tally) + |sent| - |old(sent)|
      {
        var d :| d in rest;
        MoreTable(news, addr, links.Keys, table, table.Keys - rest, d);
        assert table.Keys - (rest - {d}) == table.Keys - rest + {d};
        BroadcastNewLink(d, table[d].cost);
        news := news + multiset(News(addr, links.Keys, d, table[d].cost));
        rest := rest - {d};
      }
      assert table.Keys - rest == table.Keys;
    }
  }

  // ------------------------------------------------------------ multiset facts

  lemma NoNews(addr: Addr, targets: set<Addr>, d: Addr, c: nat)
    requires targets == {}
    ensures multiset(News(addr, targets, d, c)) == multiset{}
  {
    assert News(addr, targets, d, c) == {};
  }

  lemma MoreNews(addr: Addr, targets: set<Addr>, n: Addr, d: Addr, c: nat)
    requires n !in targets
    ensures multiset(News(addr, targets + {n}, d, c))
         == multiset(News(addr, targets, d, c)) + multiset{Msg(n, addr, d, c)}
  {
    assert News(addr, targets + {n}, d, c) == News(addr, targets, d, c) + {Msg(n, addr, d, c)};
  }

  lemma UnionOfApart<T>(a: set<T>, b: set<T>)
    requires a !! b
    ensures multiset(a + b) == multiset(a) + multiset(b)
  {
  }

  lemma JoinNews(addr: Addr, a: set<Addr>, b: set<Addr>, d: Addr, c: nat)
    requires a !! b
    ensures multiset(News(addr, a + b, d, c)) == multiset(News(addr, a, d, c)) + multiset(News(addr, b, d, c))
  {
    assert News(addr, a + b, d, c) == News(addr, a, d, c) + News(addr, b, d, c);
    UnionOfApart(News(addr, a, d, c), News(addr, b, d, c));
  }

  lemma NewsHas(addr: Addr, targets: set<Addr>, d: Addr, c: nat, m: Msg)
    ensures multiset(News(addr, targets, d, c))[m] == if m.to in targets && m == Msg(m.to, addr, d, c) then 1 else 0
  {
  }

  lemma MoreTable(news: multiset<Msg>, addr: Addr, targets: set<Addr>, table: Table, ds: set<Addr>, d: Addr)
    requires d !in ds && d in table && IsAllNews(news, addr, targets, table, ds)
    ensures IsAllNews(news + multiset(News(addr, targets, d, table[d].cost)), addr, targets, table, ds + {d})
  {
    var c := table[d].cost;
    forall m ensures (news + multiset(News(addr, targets, d, c)))[m]
                     == if Announces(m, addr, targets, table, ds + {d}) then 1 else 0
    {
      assert news[m] == if Announces(m, addr, targets, table, ds) then 1 else 0;
      NewsHas(addr, targets, d, c, m);
    }
  }

  // ----------------------------------- the objects' code is the machine's steps

  /** Node n's part of a map over pairs. */
  function PartOf<T>(m: map<(Addr, Addr), T>, n: Addr): (r: map<Addr, T>)
    ensures forall d {:trigger d in r} {:trigger (n, d) in m} :: d in r <==> (n, d) in m
    ensures forall d :: d in r ==> r[d] == m[(n, d)]
  {
    var r := map k | k in m && k.0 == n :: k.1 := m[k];
    assert forall d :: (n, d) in m ==> (n, d).0 == n && (n, d).1 in r;
    r
  }

  lemma OtherParts<T>(m: map<(Addr, Addr), T>, n: Addr, d: Addr, v: T, k: Addr)
    requires k != n
    ensures PartOf(m[(n, d) := v], k) == PartOf(m, k)
  {
  }

  lemma OwnPart<T>(m: map<(Addr, Addr), T>, n: Addr, d: Addr, v: T)
    ensures PartOf(m[(n, d) := v], n) == PartOf(m, n)[d := v]
  {
  }

  /** Learning at node n, seen in the map of all tables. */
  lemma LearnInPart(table: map<(Addr, Addr), Entry>, n: Addr, d: Addr, c: nat, hop: Addr)
    ensures Improves(table, n, d, c) ==>
      PartOf(table[(n, d) := Entry(c, hop)], n) == Learn(PartOf(table, n), d, c, hop)
    ensures !Improves(table, n, d, c) ==> PartOf(table, n) == Learn(PartOf(table, n), d, c, hop)
  {
    assert (n, d) in table <==> d in PartOf(table, n);
    OwnPart(table, n, d, Entry(c, hop));
  }

  /** One Relax step of module Routing changes n's table as HandleRoutingMessage
      does, and leaves the others' alone. */
  lemma RelaxIsLearning(net: Net, s: State, s': State, n: Addr)
    requires Relax(net, s, s', n)
    ensures s.hand[n].msg.sender in PartOf(net.links, n)
    ensures var m := s.hand[n].msg;
      PartOf(s'.table, n)
      == Learn(PartOf(s.table, n), m.dest, m.cost + PartOf(net.links, n)[m.sender], m.sender)
    ensures forall k {:trigger PartOf(s'.table, k)} :: k != n ==> PartOf(s'.table, k) == PartOf(s.table, k)
  {
    var m := s.hand[n].msg;
    assert (n, m.sender) in net.links;
    var link := PartOf(net.links, n)[m.sender];
    assert link == net.links[(n, m.sender)];
    RelaxChangesTable(net, s, s', n, m.cost + link);
    LearnInPart(s.table, n, m.dest, m.cost + link, m.sender);
    forall k | k != n ensures PartOf(s'.table, k) == PartOf(s.table, k) {
      RelaxLeavesOthers(net, s, s', n, k);
    }
  }

  lemma RelaxChangesTable(net: Net, s: State, s': State, n: Addr, c: nat)
    requires Relax(net, s, s', n) && c == s.hand[n].msg.cost + net.links[(n, s.hand[n].msg.sender)]
    ensures Improves(s.table, n, s.hand[n].msg.dest, c) ==>
      s'.table == s.table[(n, s.hand[n].msg.dest) := Entry(c, s.hand[n].msg.sender)]
    ensures !Improves(s.table, n, s.hand[n].msg.dest, c) ==> s'.table == s.table
  {
  }

  lemma RelaxLeavesOthers(net: Net, s: State, s': State, n: Addr, k: Addr)
    requires Relax(net, s, s', n) && k != n
    ensures PartOf(s'.table, k) == PartOf(s.table, k)
  {
    var m := s.hand[n].msg;
    var c := m.cost + net.links[(n, m.sender)];
    RelaxChangesTable(net, s, s', n, c);
    OtherParts(s.table, n, m.dest, Entry(c, m.sender), k);
  }

  /** What Relax adds to the messages to be sent is what BroadcastNewLink sends. */
  lemma BroadcastIsNews(net: Net, r: Addr, d: Addr, c: nat)
    requires ValidNet(net)
    ensures Broadcast(net, r, d, c) == multiset(News(r, PartOf(net.links, r).Keys, d, c))
  {
    var a := set n | n in Nodes(net) && (n, r) in net.links :: Msg(n, r, d, c);
    forall n ensures n in Nodes(net) && (n, r) in net.links <==> n in PartOf(net.links, r).Keys {
      assert LinkOk(net, n, r) && LinkOk(net, r, n);
    }
    assert a == News(r, PartOf(net.links, r).Keys, d, c);
  }

  /** And what Start adds is what StartRouter sends. */
  lemma BroadcastAllIsAllNews(net: Net, s: State, r: Addr)
    requires Inv(net, s)
    ensures var table := PartOf(s.table, r);
      IsAllNews(BroadcastAll(net, s, r), r, PartOf(net.links, r).Keys, table, table.Keys)
  {
    var targets, table := PartOf(net.links, r).Keys, PartOf(s.table, r);
    forall m ensures BroadcastAll(net, s, r)[m] == if Announces(m, r, targets, table, table.Keys) then 1 else 0 {
      assert LinkOk(net, m.to, r) && LinkOk(net, r, m.to);
      if (r, m.dest) in s.table {
        assert EntryOk(net, s, r, m.dest);
        HasRouteEnds(net, r, s.table[(r, m.dest)].nextHop, m.dest, s.table[(r, m.dest)].cost);
      }
      BroadcastAllHas(net, s, r, m);
    }
  }

  lemma BroadcastAllHas(net: Net, s: State, r: Addr, m: Msg)
    ensures BroadcastAll(net, s, r)[m]
      == if m.to in Nodes(net) && m.dest in Nodes(net) && (m.to, r) in net.links && (r, m.dest) in s.table
            && m == Msg(m.to, r, m.dest, s.table[(r, m.dest)].cost) then 1 else 0
  {
    var all := set n, d | n in Nodes(net) && d in Nodes(net) && (n, r) in net.links && (r, d) in s.table
                        :: Msg(n, r, d, s.table[(r, d)].cost);
    assert BroadcastAll(net, s, r) == multiset(all);
    assert m in all <==> m.to in Nodes(net) && m.dest in Nodes(net) && (m.to, r) in net.links && (r, m.dest) in s.table
                         && m == Msg(m.to, r, m.dest, s.table[(r, m.dest)].cost);
  }
}
