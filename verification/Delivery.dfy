// Packets on their way through the network: what the sender transmits for a group reaches exactly
// the group's receivers, as unicast packets.
module Delivery {
  import opened Base
  import opened Forest
  import opened Header
  import opened Network
  import opened Plane
  import Checksum

  // The routers on the way down from `x` to `y`, without `x`.
  ghost function PathDown(net: Net, x: Addr, y: Addr): seq<Addr>
    requires NetOk(net) && y in net.up && Anc(net.up, x, y)
    decreases net.depth[y]
  {
    if x == y then [] else PathDown(net, x, net.up[y].value) + [y]
  }

  // The routers that a packet sent by router `x` to receiver `d` passes: up towards the sender as
  // far as necessary, then down.
  ghost function Route(net: Net, x: Addr, d: Addr): seq<Addr>
    requires NetOk(net) && x in net.up && d in net.at
    decreases net.depth[x]
  {
    if Anc(net.up, x, net.at[d]) then PathDown(net, x, net.at[d])
    else
      assert x != net.root by { UpRoot(net, net.at[d]); }
      [net.up[x].value] + Route(net, net.up[x].value, d)
  }

  lemma {:induction false} PathDownFirst(net: Net, x: Addr, y: Addr)
    requires NetOk(net) && x in net.up && y in net.up && Anc(net.up, x, y) && x != y
    ensures var r := PathDown(net, x, y);
            && r != [] && r[0] in net.up && net.up[r[0]] == Some(x) && Anc(net.up, r[0], y)
            && PathDown(net, r[0], y) == r[1..]
    decreases net.depth[y]
  {
    var p := net.up[y].value;
    var r := PathDown(net, x, y);
    if p == x {
      AncItself(net, y);
    } else {
      PathDownFirst(net, x, p);
      UpTrans(net, r[0], p, y);
      UpDepth(net, r[0], p);
    }
  }

  // The route from the next router on is the rest of the route.
  lemma RouteTail(net: Net, x: Addr, d: Addr)
    requires NetOk(net) && x in net.up && d in net.at && Route(net, x, d) != []
    ensures var r := Route(net, x, d);
            r[0] in net.up && Route(net, r[0], d) == r[1..]
  {
    if Anc(net.up, x, net.at[d]) {
      PathDownFirst(net, x, net.at[d]);
    } else {
      assert x != net.root by { UpRoot(net, net.at[d]); }
      var r := Route(net, net.up[x].value, d);
      assert ([net.up[x].value] + r)[1..] == r;
    }
  }

  lemma {:induction false} RouteKnown(net: Net, x: Addr, d: Addr)
    requires NetOk(net) && x in net.up && d in net.at
    ensures forall a | a in Route(net, x, d) :: a in net.up
    decreases net.depth[x]
  {
    if Anc(net.up, x, net.at[d]) {
      PathDownKnown(net, x, net.at[d]);
    } else {
      assert x != net.root by { UpRoot(net, net.at[d]); }
      RouteKnown(net, net.up[x].value, d);
    }
  }

  lemma {:induction false} PathDownKnown(net: Net, x: Addr, y: Addr)
    requires NetOk(net) && y in net.up && Anc(net.up, x, y)
    ensures forall a | a in PathDown(net, x, y) :: a in net.up
    decreases net.depth[y]
  {
    if x != y {
      PathDownKnown(net, x, net.up[y].value);
    }
  }

  // All routers run MEADcast; their settings may differ.
  ghost predicate NodesOk(net: Net, nodes: map<Addr, Node>) {
    nodes.Keys == net.up.Keys && forall a | a in nodes :: a in nodes[a].local
  }

  // How far a packet is from being unicast.
  ghost function Level(p: Packet): nat {
    match p.hdr
    case None => 0
    case Some(h) => if exists i :: h.dlvm == {i} && i + 1 < |h.addr| && p.daddr == h.addr[i + 1] then 1 else 2
  }

  ghost predicate Made(p: Packet, qs: seq<Packet>) {
    forall k | 0 <= k < |qs| :: MadeFrom(Counted(p), qs[k])
  }

  // The packets that arrive at a receiver when `p` takes `route`: each router on the way splits it,
  // and what it sends to another destination takes the route from there.
  ghost function Travel(net: Net, nodes: map<Addr, Node>, p: Packet, route: seq<Addr>): seq<Packet>
    requires NetOk(net) && NodesOk(net, nodes) && Sane(p) && forall a | a in route :: a in net.up
    decreases Level(p), |route|, 0, 1
  {
    if p.hdr.None? || route == [] then [p]
    else
      CountedSane(p);
      var qs := Split(nodes[route[0]], Counted(p), 0);
      MadeAll(nodes[route[0]], p);
      TravelAll(net, nodes, p, route, qs)
  }

  ghost function TravelAll(net: Net, nodes: map<Addr, Node>, p: Packet, route: seq<Addr>, qs: seq<Packet>): seq<Packet>
    requires NetOk(net) && NodesOk(net, nodes) && Sane(p) && p.hdr.Some? && route != []
        && forall a | a in route :: a in net.up
    requires Made(p, qs)
    decreases Level(p), |route|, 0, 0, |qs|
  {
    if qs == [] then []
    else
      MadeLevel(p, qs[0]);
      Travel(net, nodes, qs[0], Onward(net, p, route, qs[0])) + TravelAll(net, nodes, p, route, qs[1..])
  }

  // The route of `q`, which the first router of `route` makes out of `p`.
  ghost function Onward(net: Net, p: Packet, route: seq<Addr>, q: Packet): (r: seq<Addr>)
    requires NetOk(net) && route != [] && forall a | a in route :: a in net.up
    ensures forall a | a in r :: a in net.up
  {
    if q.daddr == p.daddr then route[1..]
    else if q.daddr in net.at then
      RouteKnown(net, route[0], q.daddr);
      Route(net, route[0], q.daddr)
    else []
  }

  lemma CountedSane(p: Packet)
    requires Sane(p) && p.hdr.Some?
    ensures Sane(Counted(p)) && Counted(p).hdr.Some? && Counted(p) == p.(hdr := Counted(p).hdr)
    ensures Counted(p).hdr.value == p.hdr.value.(hops := Counted(p).hdr.value.hops)
  {
    hide NextMark;
  }

  lemma MadeAll(node: Node, p: Packet)
    requires Sane(p) && p.hdr.Some? && Sane(Counted(p)) && Counted(p).hdr.Some?
    ensures Made(p, Split(node, Counted(p), 0))
  {
    hide MadeFrom, Split;
    var qs := Split(node, Counted(p), 0);
    forall k | 0 <= k < |qs| ensures MadeFrom(Counted(p), qs[k]) {
      MadeSplit(node, Counted(p), 0, qs[k]);
    }
  }

  lemma MadeLevel(p: Packet, q: Packet)
    requires Sane(p) && p.hdr.Some? && MadeFrom(Counted(p), q)
    ensures Level(q) < Level(p) || (Level(q) == Level(p) && q.daddr == p.daddr)
  {
    hide NextMark, Pending, Checksum.ValidCheck;
    CountedSane(p);
  }

  // The arrivals `ps` are unicast packets, one for each of `dst` in order, with the payload of `p`
  // and a valid checksum that is not 0.
  ghost predicate Delivered(p: Packet, ps: seq<Packet>, dst: seq<Addr>) {
    && |ps| == |dst|
    && forall k | 0 <= k < |ps| :: Arrived(p, ps[k], dst[k])
  }

  ghost predicate Arrived(p: Packet, q: Packet, d: Addr) {
    q.hdr.None? && q.daddr == d && Sane(q) && q.check != 0 && q.saddr == p.saddr && q.udp == p.udp
  }

  // The segment at position `i` can be served from router `x` on: its router lies between `x` and
  // the segment's first receiver.
  ghost predicate Reachable(net: Net, x: Addr, h: Header, i: nat) {
    && i + 1 < |h.addr| && h.addr[i] in net.up && h.addr[i + 1] in net.at
    && Anc(net.up, x, h.addr[i]) && OnRoute(net, h.addr[i], h.addr[i + 1])
  }

  lemma {:induction false} DeliveredUnicasts(net: Net, nodes: map<Addr, Node>, p: Packet, route: seq<Addr>,
                                             qs: seq<Packet>, dst: seq<Addr>)
    requires NetOk(net) && NodesOk(net, nodes) && Sane(p) && p.hdr.Some? && route != []
        && forall a | a in route :: a in net.up
    requires Made(p, qs) && |qs| == |dst| && forall k | 0 <= k < |qs| :: qs[k].hdr.None? && qs[k].daddr == dst[k]
    ensures TravelAll(net, nodes, p, route, qs) == qs && Delivered(p, qs, dst)
    decreases |qs|
  {
    hide Sane, NextMark;
    if qs != [] {
      MadeLevel(p, qs[0]);
      DeliveredUnicasts(net, nodes, p, route, qs[1..], dst[1..]);
      assert Travel(net, nodes, qs[0], Onward(net, p, route, qs[0])) == [qs[0]];
      assert [qs[0]] + qs[1..] == qs;
      CountedSane(p);
    }
  }

  // With one router marked for delivery, a router serves exactly that segment.
  lemma {:induction false} SplitOne(node: Node, p: Packet, i: nat, k: nat)
    requires p.hdr.Some? && WellFormed(p.hdr.value) && p.plen >= ExtLen(p.hdr.value)
    requires p.hdr.value.dlvm == {k} && i <= |p.hdr.value.addr|
    ensures k < |p.hdr.value.addr| && k + 1 < NextMark(p.hdr.value.rtm, k, |p.hdr.value.addr|)
    ensures Split(node, p, i) ==
            if i <= k then Serve(node, p, k, NextMark(p.hdr.value.rtm, k, |p.hdr.value.addr|)) else []
    decreases |p.hdr.value.addr| - i
  {
    hide Serve, NextMark;
    MarkLong(p.hdr.value, k);
    if i < |p.hdr.value.addr| {
      SplitOne(node, p, i + 1, k);
    }
  }

  // The first router on the way from `x` to the receiver is not past the segment's router.
  lemma FirstHop(net: Net, x: Addr, h: Header, i: nat)
    requires NetOk(net) && x in net.up && Reachable(net, x, h, i) && h.addr[i] != x
    ensures var r := Route(net, x, h.addr[i + 1]);
            r != [] && r[0] in net.up && Route(net, r[0], h.addr[i + 1]) == r[1..] && Reachable(net, r[0], h, i)
  {
    var rt, y := h.addr[i], net.at[h.addr[i + 1]];
    UpTrans(net, x, rt, y);
    UpDepth(net, x, rt);
    UpDepth(net, rt, y);
    PathDownFirst(net, x, y);
    var f := PathDown(net, x, y)[0];
    FirstAbove(net, x, f, rt, y);
    RouteTail(net, x, h.addr[i + 1]);
  }

  lemma FirstAbove(net: Net, x: Addr, f: Addr, rt: Addr, y: Addr)
    requires NetOk(net) && x in net.up && f in net.up && rt in net.up && y in net.up
    requires net.up[f] == Some(x) && Anc(net.up, f, y) && Anc(net.up, x, rt) && x != rt && Anc(net.up, rt, y)
    ensures Anc(net.up, f, rt)
  {
    UpDepth(net, x, rt);
    UpCompare(net, f, rt, y);
  }

  // A replica with one router left to serve, sent towards its first receiver by a router above.
  lemma {:induction false} DeliverReplica(net: Net, nodes: map<Addr, Node>, p: Packet, x: Addr, i: nat)
    requires NetOk(net) && NodesOk(net, nodes) && Sane(p) && p.hdr.Some? && x in net.up
    requires p.hdr.value.dlvm == {i} && Reachable(net, x, p.hdr.value, i) && p.daddr == p.hdr.value.addr[i + 1]
    requires p.hdr.value.addr[i] != x
    ensures forall a | a in Route(net, x, p.daddr) :: a in net.up
    ensures Delivered(p, Travel(net, nodes, p, Route(net, x, p.daddr)), Pending(p))
    decreases |Route(net, x, p.daddr)|
  {
    hide Sane, Serve, NextMark, Pending, Split, Travel, TravelAll, Route, PathDown, Delivered, Anc;
    var h := p.hdr.value;
    RouteKnown(net, x, p.daddr);
    FirstHop(net, x, h, i);
    var route := Route(net, x, p.daddr);
    var f := route[0];
    var qs := HopReplica(net, nodes, p, route, i);
    if qs[0].hdr.Some? {
      var q := qs[0];
      SameReach(net, f, h, q.hdr.value, i);
      DeliverReplica(net, nodes, q, f, i);
      DeliveredSame(p, q, Travel(net, nodes, q, Route(net, f, q.daddr)), Pending(p));
    }
  }

  lemma SameReach(net: Net, x: Addr, h: Header, h': Header, i: nat)
    requires h'.addr == h.addr && Reachable(net, x, h, i)
    ensures Reachable(net, x, h', i)
  {
  }

  lemma DeliveredSame(p: Packet, q: Packet, ps: seq<Packet>, dst: seq<Addr>)
    requires Delivered(q, ps, dst) && q.saddr == p.saddr && q.udp == p.udp
    ensures Delivered(p, ps, dst)
  {
    hide Sane;
  }

  // What the first router of `route` makes out of a replica for the router at position `i`: either
  // the unicast packets, which arrive, or the same replica once more.
  lemma HopReplica(net: Net, nodes: map<Addr, Node>, p: Packet, route: seq<Addr>, i: nat) returns (qs: seq<Packet>)
    requires NetOk(net) && NodesOk(net, nodes) && Sane(p) && p.hdr.Some? && route != []
        && forall a | a in route :: a in net.up
    requires p.hdr.value.dlvm == {i} && i + 1 < |p.hdr.value.addr| && p.daddr == p.hdr.value.addr[i + 1]
    ensures qs != []
    ensures qs[0].hdr.None? ==> Delivered(p, Travel(net, nodes, p, route), Pending(p))
    ensures qs[0].hdr.Some? ==>
              && Sane(qs[0]) && qs[0].daddr == p.daddr && qs[0].saddr == p.saddr && qs[0].udp == p.udp
              && qs[0].hdr.value.dlvm == {i} && qs[0].hdr.value.addr == p.hdr.value.addr
              && Pending(qs[0]) == Pending(p) && p.hdr.value.addr[i] != route[0]
              && Travel(net, nodes, p, route) == Travel(net, nodes, qs[0], route[1..])
  {
    hide NextMark, Checksum.NewCheck, Checksum.ValidCheck, TravelAll, Travel, Sane, Split, WellFormed, Onward, MadeFrom,
         Counted, Unicasts, PendingFrom, Pending;
    var h := p.hdr.value;
    var node := nodes[route[0]];
    HopTravel(net, nodes, p, route, i);
    var p' := Counted(p);
    var e := NextMark(h.rtm, i, |h.addr|);
    PendingIs(p, i);
    qs := Serve(node, p', i, e);
    if e - i - 1 < node.minDsts || h.addr[i] in node.local {
      UnicastsTo(p', h.addr[i + 1..e]);
      DeliveredUnicasts(net, nodes, p, route, qs, h.addr[i + 1..e]);
    } else {
      var q := Replica(p', i);
      assert qs == [q] && qs[0] == q;
      assert MadeFrom(p', q);
      MadeSane(p', q);
      PendingIs(q, i);
      SameWay(net, nodes, p, route, q);
      NodeLocal(net, nodes, route[0]);
    }
  }

  lemma UnicastsTo(p: Packet, dst: seq<Addr>)
    requires p.hdr.Some? && p.plen >= ExtLen(p.hdr.value)
    ensures |Unicasts(p, dst)| == |dst|
    ensures forall k | 0 <= k < |dst| :: Unicasts(p, dst)[k].hdr.None? && Unicasts(p, dst)[k].daddr == dst[k]
  {
  }

  lemma NodeLocal(net: Net, nodes: map<Addr, Node>, a: Addr)
    requires NodesOk(net, nodes) && a in net.up
    ensures a in nodes && a in nodes[a].local
  {
  }

  lemma MadeSane(p: Packet, q: Packet)
    requires MadeFrom(p, q)
    ensures Sane(q) && q.saddr == p.saddr && q.udp == p.udp
  {
    hide Sane;
  }

  // The first router on the way serves the only segment that is marked.
  lemma HopTravel(net: Net, nodes: map<Addr, Node>, p: Packet, route: seq<Addr>, i: nat)
    requires NetOk(net) && NodesOk(net, nodes) && Sane(p) && p.hdr.Some? && route != []
        && forall a | a in route :: a in net.up
    requires p.hdr.value.dlvm == {i} && i + 1 < |p.hdr.value.addr|
    ensures route[0] in nodes && Counted(p).hdr.Some? && Counted(p).plen >= ExtLen(Counted(p).hdr.value)
        && Counted(p).hdr.value.addr == p.hdr.value.addr && Counted(p) == p.(hdr := Counted(p).hdr)
        && Counted(p).hdr.value == p.hdr.value.(hops := Counted(p).hdr.value.hops)
    ensures var e := NextMark(p.hdr.value.rtm, i, |p.hdr.value.addr|);
            i + 1 < e && Made(p, Serve(nodes[route[0]], Counted(p), i, e))
            && Travel(net, nodes, p, route) ==
               TravelAll(net, nodes, p, route, Serve(nodes[route[0]], Counted(p), i, e))
  {
    hide NextMark, Checksum.NewCheck, Checksum.ValidCheck, Serve, TravelAll, MadeFrom;
    CountedSane(p);
    SplitOne(nodes[route[0]], Counted(p), 0, i);
    MadeAll(nodes[route[0]], p);
  }

  // A packet that keeps its destination keeps to the route.
  lemma SameWay(net: Net, nodes: map<Addr, Node>, p: Packet, route: seq<Addr>, q: Packet)
    requires NetOk(net) && NodesOk(net, nodes) && Sane(p) && p.hdr.Some? && route != []
        && forall a | a in route :: a in net.up
    requires Made(p, [q]) && Sane(q) && q.daddr == p.daddr
    ensures TravelAll(net, nodes, p, route, [q]) == Travel(net, nodes, q, route[1..])
  {
    hide Travel, Route, Sane, Anc;
    assert [q][1..] == [];
    assert TravelAll(net, nodes, p, route, []) == [];
  }

  lemma DeliveredConcat(p: Packet, a: seq<Packet>, b: seq<Packet>, c: seq<Addr>, d: seq<Addr>)
    requires Delivered(p, a, c) && Delivered(p, b, d)
    ensures Delivered(p, a + b, c + d)
  {
    hide Arrived;
    forall k | 0 <= k < |a + b| ensures Arrived(p, (a + b)[k], (c + d)[k]) {
      if k < |a| { assert Arrived(p, a[k], c[k]); } else { assert Arrived(p, b[k - |a|], d[k - |a|]); }
    }
  }

  lemma {:induction false} TravelConcat(net: Net, nodes: map<Addr, Node>, p: Packet, route: seq<Addr>,
                                        a: seq<Packet>, b: seq<Packet>)
    requires NetOk(net) && NodesOk(net, nodes) && Sane(p) && p.hdr.Some? && route != []
        && forall x | x in route :: x in net.up
    requires Made(p, a) && Made(p, b)
    ensures Made(p, a + b)
    ensures TravelAll(net, nodes, p, route, a + b) ==
            TravelAll(net, nodes, p, route, a) + TravelAll(net, nodes, p, route, b)
    decreases |a|
  {
    hide Sane, Made, Travel, NetOk, NodesOk, Onward, TravelAll;
    MadeConcat(p, a, b);
    if a == [] {
      assert a + b == b;
      TravelNone(net, nodes, p, route);
    } else {
      MadeTail(p, a);
      MadeTail(p, a + b);
      assert (a + b)[0] == a[0] && (a + b)[1..] == a[1..] + b;
      TravelConcat(net, nodes, p, route, a[1..], b);
      TravelFirst(net, nodes, p, route, a);
      TravelFirst(net, nodes, p, route, a + b);
    }
  }

  lemma MadeConcat(p: Packet, a: seq<Packet>, b: seq<Packet>)
    requires Made(p, a) && Made(p, b)
    ensures Made(p, a + b)
  {
    hide MadeFrom;
  }

  lemma MadeTail(p: Packet, qs: seq<Packet>)
    requires Made(p, qs) && qs != []
    ensures Made(p, qs[1..])
  {
    hide MadeFrom;
  }

  lemma TravelNone(net: Net, nodes: map<Addr, Node>, p: Packet, route: seq<Addr>)
    requires NetOk(net) && NodesOk(net, nodes) && Sane(p) && p.hdr.Some? && route != []
        && forall x | x in route :: x in net.up
    ensures Made(p, []) && TravelAll(net, nodes, p, route, []) == []
  {
  }

  lemma TravelFirst(net: Net, nodes: map<Addr, Node>, p: Packet, route: seq<Addr>, qs: seq<Packet>)
    requires NetOk(net) && NodesOk(net, nodes) && Sane(p) && p.hdr.Some? && route != []
        && forall x | x in route :: x in net.up
    requires Made(p, qs) && qs != [] && Made(p, qs[1..])
    ensures Sane(qs[0])
    ensures TravelAll(net, nodes, p, route, qs) ==
            Travel(net, nodes, qs[0], Onward(net, p, route, qs[0])) + TravelAll(net, nodes, p, route, qs[1..])
  {
    hide Sane, Travel;
    assert MadeFrom(Counted(p), qs[0]);
  }

  // The segment at position `i` after the first router of `route`.
  lemma DeliverSegment(net: Net, nodes: map<Addr, Node>, p: Packet, route: seq<Addr>, i: nat)
    requires NetOk(net) && NodesOk(net, nodes) && Sane(p) && p.hdr.Some? && route != []
        && forall x | x in route :: x in net.up
    requires p.daddr in net.at && Route(net, route[0], p.daddr) == route[1..]
    requires i in p.hdr.value.dlvm && Reachable(net, route[0], p.hdr.value, i)
    ensures i + 1 < NextMark(p.hdr.value.rtm, i, |p.hdr.value.addr|) && Sane(Counted(p)) && Counted(p).hdr.Some?
    ensures Counted(p).hdr.value.addr == p.hdr.value.addr && Counted(p).plen >= ExtLen(Counted(p).hdr.value)
    ensures var h := p.hdr.value;
            var e := NextMark(h.rtm, i, |h.addr|);
            var qs := Serve(nodes[route[0]], Counted(p), i, e);
            Made(p, qs) && Delivered(p, TravelAll(net, nodes, p, route, qs), h.addr[i + 1..e])
  {
    hide NextMark, Checksum.NewCheck, Checksum.ValidCheck, Split, Travel, TravelAll, Delivered, Pending, Anc, Route,
         Sane, MadeFrom, Onward;
    var h := p.hdr.value;
    var f := route[0];
    MadeSegment(nodes[f], p, i);
    var e := NextMark(h.rtm, i, |h.addr|);
    var qs := Serve(nodes[f], Counted(p), i, e);
    if e - i - 1 < nodes[f].minDsts || h.addr[i] in nodes[f].local {
      DeliveredUnicasts(net, nodes, p, route, qs, h.addr[i + 1..e]);
    } else {
      var q := qs[0];
      assert qs == [q] && q == Replica(Counted(p), i) && MadeFrom(Counted(p), q);
      SaneReplica(p, q, i);
      SameReach(net, f, h, q.hdr.value, i);
      DeliverReplica(net, nodes, q, f, i);
      PendingIs(q, i);
      DeliveredSame(p, q, Travel(net, nodes, q, Route(net, f, q.daddr)), Pending(q));
      TravelSingle(net, nodes, p, route, q);
    }
  }

  lemma SaneReplica(p: Packet, q: Packet, i: nat)
    requires Counted(p).hdr.Some? && i + 1 < |Counted(p).hdr.value.addr| && q == Replica(Counted(p), i)
        && MadeFrom(Counted(p), q)
    ensures Sane(q) && q.hdr.Some? && q.hdr.value.dlvm == {i} && q.hdr.value.addr == p.hdr.value.addr
        && q.hdr.value.rtm == p.hdr.value.rtm
    ensures q.daddr == p.hdr.value.addr[i + 1] && q.saddr == p.saddr && q.udp == p.udp
  {
    hide Sane;
  }

  lemma TravelSingle(net: Net, nodes: map<Addr, Node>, p: Packet, route: seq<Addr>, q: Packet)
    requires NetOk(net) && NodesOk(net, nodes) && Sane(p) && p.hdr.Some? && route != []
        && forall x | x in route :: x in net.up
    requires p.daddr in net.at && Route(net, route[0], p.daddr) == route[1..] && q.daddr in net.at
    requires Made(p, [q]) && Sane(q)
    ensures forall a | a in Route(net, route[0], q.daddr) :: a in net.up
    ensures TravelAll(net, nodes, p, route, [q]) == Travel(net, nodes, q, Route(net, route[0], q.daddr))
  {
    hide Travel, Route, Sane, Anc;
    RouteKnown(net, route[0], q.daddr);
    assert [q][1..] == [];
    assert TravelAll(net, nodes, p, route, []) == [];
  }

  lemma PendingIs(q: Packet, i: nat)
    requires q.hdr.Some? && q.hdr.value.dlvm == {i} && i < |q.hdr.value.addr|
    ensures Pending(q) == q.hdr.value.addr[i + 1..NextMark(q.hdr.value.rtm, i, |q.hdr.value.addr|)]
  {
    PendingOne(q.hdr.value, 0, i);
  }

  lemma MadeSegment(node: Node, p: Packet, i: nat)
    requires Sane(p) && p.hdr.Some? && i in p.hdr.value.dlvm
    ensures Sane(Counted(p)) && Counted(p).hdr.Some? && Counted(p).plen >= ExtLen(Counted(p).hdr.value)
    ensures Counted(p).hdr.value.addr == p.hdr.value.addr && i + 1 < NextMark(p.hdr.value.rtm, i, |p.hdr.value.addr|)
    ensures Made(p, Serve(node, Counted(p), i, NextMark(p.hdr.value.rtm, i, |p.hdr.value.addr|)))
  {
    hide NextMark, MadeFrom, Serve;
    CountedSane(p);
    MarkLong(p.hdr.value, i);
    var p' := Counted(p);
    var h := p'.hdr.value;
    var e := NextMark(h.rtm, i, |h.addr|);
    var qs := Serve(node, p', i, e);
    forall d | d in h.addr[i + 1..e] ensures d in Pending(p') {
      PendingHas(h, 0, i, d);
    }
    forall k | 0 <= k < |qs| ensures MadeFrom(p', qs[k]) {
      MadeServe(node, p', i, qs[k]);
    }
  }

  lemma {:induction false} DeliverFrom(net: Net, nodes: map<Addr, Node>, p: Packet, route: seq<Addr>, i: nat)
    requires NetOk(net) && NodesOk(net, nodes) && Sane(p) && p.hdr.Some? && route != []
        && forall x | x in route :: x in net.up
    requires p.daddr in net.at && Route(net, route[0], p.daddr) == route[1..]
    requires forall j | j in p.hdr.value.dlvm :: Reachable(net, route[0], p.hdr.value, j)
    requires Sane(Counted(p)) && Counted(p).hdr.Some? && WellFormed(Counted(p).hdr.value)
        && Counted(p).plen >= ExtLen(Counted(p).hdr.value)
    requires Counted(p).hdr.value == p.hdr.value.(hops := Counted(p).hdr.value.hops) && i <= |p.hdr.value.addr|
    ensures var qs := Split(nodes[route[0]], Counted(p), i);
            Made(p, qs) && Delivered(p, TravelAll(net, nodes, p, route, qs), PendingFrom(p.hdr.value, i))
    decreases |p.hdr.value.addr| - i
  {
    hide NextMark, Serve, Travel, Delivered, Anc, Route, Sane, MadeFrom, Onward, Reachable;
    hide ExtLen, MdcHdrSize;
    var h, p' := p.hdr.value, Counted(p);
    var node := nodes[route[0]];
    if i == |h.addr| {
      NoneDelivered(p);
    } else {
      DeliverFrom(net, nodes, p, route, i + 1);
      var rest := Split(node, p', i + 1);
      if i in h.dlvm {
        DeliverSegment(net, nodes, p, route, i);
        var e := NextMark(h.rtm, i, |h.addr|);
        var qs := Serve(node, p', i, e);
        TravelConcat(net, nodes, p, route, qs, rest);
        DeliveredConcat(p, TravelAll(net, nodes, p, route, qs), TravelAll(net, nodes, p, route, rest),
                        h.addr[i + 1..e], PendingFrom(h, i + 1));
      } else {
        assert Split(node, p', i) == [] + rest == rest;
        assert PendingFrom(h, i) == [] + PendingFrom(h, i + 1) == PendingFrom(h, i + 1);
      }
    }
  }

  lemma NoneDelivered(p: Packet)
    ensures Delivered(p, [], [])
  {
  }

  // A packet whose segments can all be served from the first router on its route reaches exactly the
  // pending receivers, once each, as unicast packets.
  lemma Deliver(net: Net, nodes: map<Addr, Node>, p: Packet, x: Addr)
    requires NetOk(net) && NodesOk(net, nodes) && Sane(p) && p.hdr.Some? && x in net.up && p.daddr in net.at
    requires Route(net, x, p.daddr) != []
        && forall j | j in p.hdr.value.dlvm :: Reachable(net, Route(net, x, p.daddr)[0], p.hdr.value, j)
    ensures forall a | a in Route(net, x, p.daddr) :: a in net.up
    ensures Delivered(p, Travel(net, nodes, p, Route(net, x, p.daddr)), Pending(p))
  {
    hide Split, PendingFrom, TravelAll, Delivered, Anc, Route, Sane, Reachable, Made, MadeFrom;
    RouteKnown(net, x, p.daddr);
    RouteTail(net, x, p.daddr);
    CountedSane(p);
    SaneBasics(Counted(p));
    DeliverFrom(net, nodes, p, Route(net, x, p.daddr), 0);
  }

  lemma SaneBasics(p: Packet)
    requires Sane(p) && p.hdr.Some?
    ensures WellFormed(p.hdr.value) && p.plen >= ExtLen(p.hdr.value)
  {
  }
}
