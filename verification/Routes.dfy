/** The network as a graph: routers, hosts and the symmetric links between them,
    and the routes that packets may take through it. */
module Routes {

  /** Addresses are only compared. */
  type Addr = nat

  /** A link is present in both directions, with one cost. */
  datatype Net = Net(routers: set<Addr>, hosts: set<Addr>, links: map<(Addr, Addr), nat>)

  function Nodes(net: Net): set<Addr> {
    net.routers + net.hosts
  }

  ghost predicate LinkOk(net: Net, a: Addr, b: Addr) {
    (a, b) in net.links ==>
      && a in Nodes(net) && b in Nodes(net) && (a in net.routers || b in net.routers)
      && (b, a) in net.links && net.links[(b, a)] == net.links[(a, b)]
  }

  /** A topology as addLink builds it: symmetric, and no link joins two hosts. */
  ghost predicate ValidNet(net: Net) {
    && net.routers !! net.hosts
    && forall a: Addr, b: Addr {:trigger LinkOk(net, a, b)} :: LinkOk(net, a, b)
  }

  /** A route follows links, at least one, and only its ends may be hosts: hosts do
      not forward. A route may come back to where it started. */
  ghost predicate IsRoute(net: Net, p: seq<Addr>) {
    && |p| >= 2 && (p[0], p[1]) in net.links
    && (|p| == 2 || (p[1] in net.routers && IsRoute(net, p[1..])))
  }

  ghost function RouteCost(net: Net, p: seq<Addr>): (c: nat)
    requires IsRoute(net, p)
  {
    net.links[(p[0], p[1])] + if |p| == 2 then 0 else RouteCost(net, p[1..])
  }

  /** p leads from n over h to d and costs c. */
  ghost predicate Leads(net: Net, p: seq<Addr>, n: Addr, h: Addr, d: Addr, c: nat) {
    IsRoute(net, p) && p[0] == n && p[1] == h && p[|p| - 1] == d && RouteCost(net, p) == c
  }

  ghost predicate HasRoute(net: Net, n: Addr, h: Addr, d: Addr, c: nat) {
    exists p :: Leads(net, p, n, h, d, c)
  }

  ghost predicate Reachable(net: Net, r: Addr, d: Addr, c: nat) {
    exists h :: HasRoute(net, r, h, d, c)
  }

  lemma LinkIsRoute(net: Net, a: Addr, b: Addr)
    requires (a, b) in net.links
    ensures HasRoute(net, a, b, b, net.links[(a, b)])
  {
    assert Leads(net, [a, b], a, b, b, net.links[(a, b)]);
  }

  /** A link to a router, followed by a route from there. */
  lemma ExtendRoute(net: Net, n: Addr, r: Addr, d: Addr, c: nat)
    requires (n, r) in net.links && r in net.routers && Reachable(net, r, d, c)
    ensures HasRoute(net, n, r, d, net.links[(n, r)] + c)
  {
    var h :| HasRoute(net, r, h, d, c);
    var p :| Leads(net, p, r, h, d, c);
    assert ([n] + p)[1..] == p;
    assert Leads(net, [n] + p, n, r, d, net.links[(n, r)] + c);
  }

  /** The ends of a route are nodes. */
  lemma {:induction false} RouteEnds(net: Net, p: seq<Addr>)
    requires ValidNet(net) && IsRoute(net, p)
    ensures p[0] in Nodes(net) && p[|p| - 1] in Nodes(net)
  {
    assert LinkOk(net, p[0], p[1]);
    if |p| > 2 {
      RouteEnds(net, p[1..]);
    }
  }

  lemma HasRouteEnds(net: Net, n: Addr, h: Addr, d: Addr, c: nat)
    requires ValidNet(net) && HasRoute(net, n, h, d, c)
    ensures n in Nodes(net) && d in Nodes(net) && (n, h) in net.links
  {
    var p :| Leads(net, p, n, h, d, c);
    RouteEnds(net, p);
  }
}
