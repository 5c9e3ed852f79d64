/** Network: the map of nodes that addHost, addRouter and addLink build before the
    simulation runs. */
module Networks {
  import opened Routes
  import opened Routing
  import opened NetworkNodes

  datatype LinkResult = Linked | UnknownAddress | NullRouter

  class Network {
    const controller: NetworkController
    var nodes: map<Addr, Node>

    ghost predicate NodeOk(a: Addr)
      requires a in nodes
      reads this, controller, nodes.Values
    {
      var n := nodes[a];
      && n.addr == a && n.controller == controller && n.Valid() && !n.isRunning
      && (forall b :: b in n.toRouters ==> b in nodes && nodes[b].isRouter)
      && (forall b :: b in n.toHosts ==> b in nodes && !nodes[b].isRouter)
    }

    /** A link is recorded at both ends with the same cost, and not between hosts. */
    ghost predicate LinkBothWays(a: Addr, b: Addr)
      requires a in nodes
      reads this, nodes.Values
    {
      b in nodes[a].links ==>
        && b in nodes && (nodes[a].isRouter || nodes[b].isRouter)
        && a in nodes[b].links && nodes[b].links[a] == nodes[a].links[b]
    }

    ghost predicate Valid()
      reads this, controller, nodes.Values
    {
      && controller.Valid()
      && (forall a {:trigger NodeOk(a)} :: a in nodes ==> NodeOk(a))
      && (forall a, b {:trigger LinkBothWays(a, b)} :: a in nodes ==> LinkBothWays(a, b))
    }

    /** Every table holds the direct links and nothing else. */
    ghost predicate Direct()
      reads this, nodes.Values
    {
      forall a {:trigger IsDirect(a)} :: a in nodes ==> IsDirect(a)
    }

    ghost predicate IsDirect(a: Addr)
      requires a in nodes
      reads this, nodes.Values
    {
      && nodes[a].table.Keys == nodes[a].links.Keys
      && forall b :: b in nodes[a].links ==> nodes[a].table[b] == Entry(nodes[a].links[b], b)
    }

    constructor ()
      ensures Valid() && Direct() && nodes == map[]
    {
      controller := new NetworkController();
      nodes := map[];
    }

    /** addHost and addRouter: an address in use is refused. */
    method AddNode(a: Addr, isRouter: bool) returns (ok: bool)
      requires Valid()
      modifies this
      ensures Valid() && (old(Direct()) ==> Direct())
      ensures ok == (a !in old(nodes))
      ensures !ok ==> nodes == old(nodes)
      ensures ok ==> a in nodes && fresh(nodes[a]) && nodes == old(nodes)[a := nodes[a]]
                     && nodes[a].isRouter == isRouter && nodes[a].links == map[]
    {
      if a in nodes {
        return false;
      }
      var n := new Node(a, isRouter, controller);
      ghost var before := nodes;
      nodes := nodes[a := n];
      forall b | b in nodes ensures NodeOk(b) {
        if b != a {
          assert old(NodeOk(b));
        }
      }
      forall b, c | b in nodes ensures LinkBothWays(b, c) {
        if b != a {
          assert old(LinkBothWays(b, c));
        }
      }
      if old(Direct()) {
        forall b | b in nodes ensures IsDirect(b) {
          if b != a {
            assert old(IsDirect(b));
          }
        }
      }
      return true;
    }

    /** What a new link between a and b makes of node c. */
    twostate predicate LinkedAt(new a: Addr, new b: Addr, new cost: nat, new c: Addr)
      requires nodes == old(nodes) && a in nodes && b in nodes && c in nodes
      reads this, controller, nodes.Values
    {
      var n, other := nodes[c], if c == a then b else a;
      && n.addr == c && n.controller == controller && n.Valid() && !n.isRunning
      && if c == a || c == b then
           && n.links == old(n.links)[other := cost]
           && n.toRouters == (if nodes[other].isRouter then old(n.toRouters)[other := cost] else old(n.toRouters))
           && n.toHosts == (if nodes[other].isRouter then old(n.toHosts) else old(n.toHosts)[other := cost])
           && n.table == Learn(old(n.table), other, cost, other)
         else
           && n.links == old(n.links) && n.toRouters == old(n.toRouters) && n.toHosts == old(n.toHosts)
           && n.table == old(n.table)
    }

    twostate predicate AllLinkedAt(new a: Addr, new b: Addr, new cost: nat)
      requires nodes == old(nodes) && a in nodes && b in nodes
      reads this, controller, nodes.Values
    {
      forall c {:trigger nodes[c]} :: c in nodes ==> LinkedAt(a, b, cost, c)
    }

    twostate lemma LinkKeepsNodes(new a: Addr, new b: Addr, new cost: nat)
      requires nodes == old(nodes) && a in nodes && b in nodes && old(Valid())
      requires AllLinkedAt(a, b, cost)
      ensures forall c {:trigger NodeOk(c)} :: c in nodes ==> NodeOk(c)
    {
      forall c | c in nodes ensures NodeOk(c) {
        assert old(NodeOk(c));
      }
    }

    twostate lemma LinkKeepsAllSymmetry(new a: Addr, new b: Addr, new cost: nat)
      requires nodes == old(nodes) && a in nodes && b in nodes && (nodes[a].isRouter || nodes[b].isRouter)
      requires old(Valid())
      requires AllLinkedAt(a, b, cost)
      ensures forall c, d {:trigger LinkBothWays(c, d)} :: c in nodes ==> LinkBothWays(c, d)
    {
      forall c, d | c in nodes ensures LinkBothWays(c, d) {
        assert old(LinkBothWays(c, d));
      }
    }

    twostate lemma LinkKeepsAllDirect(new a: Addr, new b: Addr, new cost: nat)
      requires nodes == old(nodes) && a in nodes && b in nodes
      requires old(Valid()) && old(Direct()) && b !in old(nodes[a].links)
      requires AllLinkedAt(a, b, cost)
      ensures Direct()
    {
      assert old(LinkBothWays(b, a));
      forall c | c in nodes ensures IsDirect(c) {
        assert old(IsDirect(c));
      }
    }

    /** addLink: both ends get the link. Unknown addresses are refused; for two hosts the
        code prints a message, goes on, and stops at a router that is not there. */
    method AddLink(a: Addr, b: Addr, cost: nat) returns (result: LinkResult)
      requires Valid()
      modifies nodes.Values, controller
      ensures Valid()
      ensures result == if a !in nodes || b !in nodes then UnknownAddress
                        else if nodes[a].isRouter || nodes[b].isRouter then Linked else NullRouter
      ensures result != Linked ==> forall c :: c in nodes ==>
        nodes[c].links == old(nodes[c].links) && nodes[c].table == old(nodes[c].table)
      ensures result == Linked ==> AllLinkedAt(a, b, cost)
      ensures old(Direct()) && (result == Linked ==> b !in old(nodes[a].links)) ==> Direct()
    {
      if a !in nodes || b !in nodes {
        return UnknownAddress;
      }
      if !nodes[a].isRouter && !nodes[b].isRouter {
        return NullRouter;
      }
      LinkNodes(a, b, cost);
      return Linked;
    }

    /** Both ends get the link, and nobody else. */
    method LinkNodes(a: Addr, b: Addr, cost: nat)
      requires Valid() && a in nodes && b in nodes && (nodes[a].isRouter || nodes[b].isRouter)
      modifies nodes.Values, controller
      ensures Valid() && AllLinkedAt(a, b, cost)
      ensures old(Direct()) && b !in old(nodes[a].links) ==> Direct()
    {
      assert NodeOk(a) && NodeOk(b);
      assert forall c :: c in nodes ==> NodeOk(c) && nodes[c].addr == c;
      LinkPair(nodes[a], nodes[b], cost);
      assert AllLinkedAt(a, b, cost) by {
        assert forall c {:trigger nodes[c]} :: c in nodes ==> old(NodeOk(c));
      }
      LinkKeepsNodes(a, b, cost);
      LinkKeepsAllSymmetry(a, b, cost);
      if old(Direct()) && b !in old(nodes[a].links) {
        LinkKeepsAllDirect(a, b, cost);
      }
    }

    /** Both ends record the link; the ends may be the same node. */
    method LinkPair(n: Node, m: Node, cost: nat)
      requires n.Valid() && m.Valid() && n.controller == m.controller == controller && !n.isRunning && !m.isRunning
      requires n.addr == m.addr ==> n == m
      requires m.addr !in (if m.isRouter then n.toHosts else n.toRouters)
      requires n.addr !in (if n.isRouter then m.toHosts else m.toRouters)
      modifies n, m, controller
      ensures n.Valid() && m.Valid() && n.isRunning == old(n.isRunning) && m.isRunning == old(m.isRunning)
      ensures n.links == old(n.links)[m.addr := cost] && m.links == old(m.links)[n.addr := cost]
      ensures n.toRouters == (if m.isRouter then old(n.toRouters)[m.addr := cost] else old(n.toRouters))
      ensures n.toHosts == (if m.isRouter then old(n.toHosts) else old(n.toHosts)[m.addr := cost])
      ensures m.toRouters == (if n.isRouter then old(m.toRouters)[n.addr := cost] else old(m.toRouters))
      ensures m.toHosts == (if n.isRouter then old(m.toHosts) else old(m.toHosts)[n.addr := cost])
      ensures n.table == Learn(old(n.table), m.addr, cost, m.addr)
      ensures m.table == Learn(old(m.table), n.addr, cost, n.addr)
    {
      n.AddLinkTo(m.addr, m.isRouter, cost);
      m.AddLinkTo(n.addr, n.isRouter, cost);
    }

    // ------------------------------------- what was built is where a run starts

    ghost function NetOf(): Net
      reads this, nodes.Values
    {
      Net(set a | a in nodes && nodes[a].isRouter, set a | a in nodes && !nodes[a].isRouter,
          map a, b | a in nodes && b in nodes[a].links :: (a, b) := nodes[a].links[b])
    }

    ghost function Tables(): map<(Addr, Addr), Entry>
      reads this, nodes.Values
    {
      map a, d | a in nodes && d in nodes[a].table :: (a, d) := nodes[a].table[d]
    }

    ghost function FirstState(): State
      reads this, nodes.Values
    {
      State({}, Tables(), multiset{}, multiset{}, map a | a in nodes :: Free, {}, 0, 0)
    }

    lemma LinksAre(a: Addr, b: Addr)
      ensures (a, b) in NetOf().links <==> a in nodes && b in nodes[a].links
      ensures (a, b) in NetOf().links ==> NetOf().links[(a, b)] == nodes[a].links[b]
    {
    }

    lemma EntriesAre(a: Addr, d: Addr)
      ensures (a, d) in Tables() <==> a in nodes && d in nodes[a].table
      ensures (a, d) in Tables() ==> Tables()[(a, d)] == nodes[a].table[d]
    {
    }

    lemma BuiltNetworkIsValid()
      requires Valid()
      ensures ValidNet(NetOf())
    {
      forall a: Addr, b: Addr ensures LinkOk(NetOf(), a, b) {
        LinksAre(a, b);
        LinksAre(b, a);
        if a in nodes {
          assert LinkBothWays(a, b);
        }
      }
    }

    lemma EntryIsDirectLink(k: (Addr, Addr))
      requires Direct()
      ensures k in Tables() <==> k in NetOf().links
      ensures k in Tables() ==> Tables()[k] == Entry(NetOf().links[k], k.1)
    {
      LinksAre(k.0, k.1);
      EntriesAre(k.0, k.1);
      if k.0 in nodes {
        assert IsDirect(k.0);
      }
    }

    /** A network built by addHost, addRouter and addLink, with each pair of nodes
        linked at most once, is a valid topology, and its tables are those that
        module Routing starts from. */
    lemma BuiltNetworkIsInitial()
      requires Valid() && Direct()
      ensures ValidNet(NetOf()) && Init(NetOf(), FirstState())
    {
      BuiltNetworkIsValid();
      assert Nodes(NetOf()) == nodes.Keys;
      forall k ensures k in FirstState().table <==> k in NetOf().links
               ensures k in NetOf().links ==> FirstState().table[k] == Entry(NetOf().links[k], k.1)
      {
        EntryIsDirectLink(k);
      }
    }
  }
}
