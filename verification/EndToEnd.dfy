// From a group that the sender has built to the arrival of its packets.
module EndToEnd {
  import opened Base
  import opened Forest
  import opened Header
  import opened Network
  import opened Packing
  import opened Grouping
  import opened Partition
  import opened Plane
  import opened Delivery
  import opened Transmit
  import Checksum

  // Every router position of a group's list starts one of its segments.
  lemma {:induction false} MarkIsOffset(g: seq<Seg>, i: nat) returns (k: nat)
    requires i in Marks(g)
    ensures k < |g| && i == |Flat(g[..k])|
  {
    var h := g[..|g| - 1];
    if i == |Flat(h)| {
      k := |g| - 1;
    } else {
      k := MarkIsOffset(h, i);
      assert h[..k] == g[..k];
    }
  }

  lemma {:induction false} RcvCons(s: Seg, g: seq<Seg>)
    ensures Rcv([s] + g) == s.dst + Rcv(g)
  {
    if g == [] {
      assert [s] + g == [s] && [s][..0] == [];
    } else {
      var n := |g| - 1;
      assert ([s] + g)[..n + 1] == [s] + g[..n];
      RcvCons(s, g[..n]);
    }
  }

  // What is pending in a fresh header are the receivers of the segments that a router reads from it.
  lemma {:induction false} PendingFresh(h: Header, i: nat)
    requires i <= |h.addr| && h.dlvm == h.rtm
    ensures PendingFrom(h, i) == Rcv(Decode(h.addr, h.rtm, i))
    decreases |h.addr| - i
  {
    if i < |h.addr| {
      PendingFresh(h, i + 1);
      if i in h.rtm { RcvCons(SegAt(h.addr, h.rtm, i), Decode(h.addr, h.rtm, i + 1)); }
    }
  }

  // The segment of a sound header that starts at position `i`.
  lemma SegmentAt(cfg: Config, t: Tree, h: Header, i: nat) returns (s: Seg, top: Addr)
    requires t.hops.Keys == t.parent.Keys && HeaderOk(cfg, t, h) && i in h.dlvm
    ensures top in t.parent && t.parent[top] == Some(t.root) && SegOk(cfg.mergeRange, t, s) && Under(t, top, s)
    ensures i + 1 < |h.addr| && h.addr[i] == s.rt && h.addr[i + 1] == s.dst[0] && |s.dst| > 0
    ensures i + 1 + |s.dst| == NextMark(h.rtm, i, |h.addr|)
    ensures exists k :: 0 <= k < |Segs(h)| && Segs(h)[k] == s
    ensures InSubtree(cfg.mergeRange, t, top, Segs(h))
  {
    hide SegOk, Under, Decode, NextMark, Anc;
    var g := Segs(h);
    top :| InSubtree(cfg.mergeRange, t, top, g);
    var k := MarkIsOffset(g, i);
    SegAtOffset(g, k);
    Offsets(g, k);
    s := g[k];
    SegDst(cfg.mergeRange, t, s);
    SegAtIs(h.addr, h.rtm, i, s);
  }

  lemma SegDst(range: nat, t: Tree, s: Seg)
    requires t.hops.Keys == t.parent.Keys && SegOk(range, t, s)
    ensures |s.dst| > 0
  {
  }

  lemma SegAtIs(a: seq<Addr>, m: set<nat>, i: nat, s: Seg)
    requires i < |a| && SegAt(a, m, i) == s && |s.dst| > 0
    ensures i + 1 < |a| && a[i] == s.rt && a[i + 1] == s.dst[0]
  {
    assert a[i + 1..NextMark(m, i, |a|)][0] == s.dst[0];
  }

  // The grouping supplies what a router demands of a header.
  lemma HeaderWellFormed(cfg: Config, t: Tree, h: Header)
    requires t.hops.Keys == t.parent.Keys && HeaderOk(cfg, t, h)
    ensures WellFormed(h) && !h.dcv && !h.rsp && Pending0(h) == Rcv(Segs(h))
  {
    hide GroupOk, Decode, NextMark;
    forall i | i in h.dlvm ensures i + 1 < NextMark(h.rtm, i, |h.addr|) {
      var s, top := SegmentAt(cfg, t, h, i);
    }
    LengthAgrees(h.addr, h.rtm);
    PendingFresh(h, 0);
  }

  ghost function Pending0(h: Header): seq<Addr> {
    PendingFrom(h, 0)
  }

  // In a sound tree a segment lies on true routes: its router is on the route to its first receiver,
  // and so is the child `top` of the root.
  lemma SegmentRoute(net: Net, t: Tree, rk: map<Addr, nat>, range: nat, top: Addr, s: Seg)
    requires NetOk(net) && Steady(t, rk) && Sound(net, t) && t.hops.Keys == t.parent.Keys
    requires SegOk(range, t, s) && Under(t, top, s) && top in t.parent && t.parent[top] == Some(t.root)
    ensures |s.dst| > 0 && s.rt in net.up && s.dst[0] in net.at && OnRoute(net, s.rt, s.dst[0])
    ensures top in net.up && top != net.root && Anc(net.up, top, s.rt) && OnRoute(net, top, s.dst[0])
  {
    hide Sound, Ranked, DetachedEmpty, ChildLinks, LeafLinks, Anc;
    SoundStrict(net, t, rk);
    var d := s.dst[0];
    assert d in s.dst;
    var q := t.home[d].value;
    SoundHome(net, t, rk, d);
    SoundAnc(net, t, rk, s.rt, q);
    SoundAnc(net, t, rk, top, s.rt);
    SoundHops(net, t, s.rt);
    SoundHops(net, t, top);
    SoundUp(net, t, rk, top);
    TopNotRoot(net, t, top);
    UpTrans(net, s.rt, q, net.at[d]);
    UpTrans(net, top, s.rt, net.at[d]);
  }

  lemma SoundHome(net: Net, t: Tree, rk: map<Addr, nat>, d: Addr)
    requires NetOk(net) && Steady(t, rk) && Sound(net, t) && d in t.home && t.home[d].Some?
    ensures OnRoute(net, t.home[d].value, d) && Attached(t, t.home[d].value)
  {
    hide Anc;
    assert d in t.leaf[t.home[d].value];
  }

  lemma TopNotRoot(net: Net, t: Tree, top: Addr)
    requires Linked(t) && Sound(net, t) && top in t.parent && t.parent[top] == Some(t.root)
    ensures top != net.root
  {
    hide ChildLinks, LeafLinks, Anc;
  }

  // The first router on the route to `d` is above every router on that route except the sender.
  lemma FirstRouter(net: Net, top: Addr, d: Addr)
    requires NetOk(net) && OnRoute(net, top, d) && top != net.root
    ensures Route(net, net.root, d) != []
    ensures var f := Route(net, net.root, d)[0];
            f in net.up && net.depth[f] == 1 && Anc(net.up, f, net.at[d]) && Anc(net.up, f, top)
  {
    hide Anc;
    UpRoot(net, top);
    UpRoot(net, net.at[d]);
    UpDepth(net, net.root, top);
    UpDepth(net, top, net.at[d]);
    RootRoute(net, d);
    PathDownFirst(net, net.root, net.at[d]);
    var f := PathDown(net, net.root, net.at[d])[0];
    UpCompare(net, f, top, net.at[d]);
  }

  lemma RootRoute(net: Net, d: Addr)
    requires NetOk(net) && d in net.at && Anc(net.up, net.root, net.at[d])
    ensures Route(net, net.root, d) == PathDown(net, net.root, net.at[d])
  {
  }

  lemma HeaderReachable(net: Net, t: Tree, rk: map<Addr, nat>, cfg: Config, h: Header, i: nat)
    requires NetOk(net) && Steady(t, rk) && Sound(net, t) && t.hops.Keys == t.parent.Keys
    requires HeaderOk(cfg, t, h) && i in h.dlvm
    ensures |h.addr| >= 2 && h.addr[1] in net.at && Route(net, net.root, h.addr[1]) != []
    ensures Reachable(net, Route(net, net.root, h.addr[1])[0], h, i)
  {
    hide Sound, Ranked, DetachedEmpty, ChildLinks, LeafLinks, Anc, SegOk, Under, Segs, GroupOk, InSubtree, NextMark,
         Route;
    var s, top := SegmentAt(cfg, t, h, i);
    SegmentRoute(net, t, rk, cfg.mergeRange, top, s);
    var s0, top0 := SegmentAt(cfg, t, h, 0);
    Together(cfg.mergeRange, t, top, Segs(h), s0);
    SegmentRoute(net, t, rk, cfg.mergeRange, top, s0);
    FirstRouter(net, top, h.addr[1]);
    UpTrans(net, Route(net, net.root, h.addr[1])[0], top, s.rt);
  }

  lemma Together(range: nat, t: Tree, top: Addr, g: seq<Seg>, s: Seg)
    requires t.hops.Keys == t.parent.Keys && InSubtree(range, t, top, g) && exists k :: 0 <= k < |g| && g[k] == s
    ensures SegOk(range, t, s) && Under(t, top, s)
  {
    hide SegOk, Under;
  }

  // One header: its packet reaches exactly the receivers of its segments, whatever the settings of
  // the routers.
  lemma HeaderDelivered(net: Net, nodes: map<Addr, Node>, t: Tree, rk: map<Addr, nat>, cfg: Config, h: Header,
                        sa: Addr, udp: Checksum.Segment)
    requires NetOk(net) && NodesOk(net, nodes) && Steady(t, rk) && Sound(net, t) && t.hops.Keys == t.parent.Keys
    requires HeaderOk(cfg, t, h)
    ensures |h.addr| >= 2 && h.addr[1] in net.at
    ensures var p := MdcPacket(sa, h, udp);
            && Sane(p) && (forall a | a in Route(net, net.root, p.daddr) :: a in net.up)
            && Delivered(p, Travel(net, nodes, p, Route(net, net.root, p.daddr)), Rcv(Segs(h)))
  {
    HeaderWellFormed(cfg, t, h);
    LengthAgrees(h.addr, h.rtm);
    SenderValid(sa, h.addr[1], udp);
    var p := MdcPacket(sa, h, udp);
    assert Sane(p);
    hide Sound, Ranked, DetachedEmpty, ChildLinks, LeafLinks, Anc, Segs, GroupOk, Route, Travel, Delivered,
         Reachable, WellFormed, Sane, PendingFrom;
    assert 0 in h.dlvm;
    HeaderReachable(net, t, rk, cfg, h, 0);
    forall i | i in h.dlvm ensures Reachable(net, Route(net, net.root, h.addr[1])[0], h, i) {
      HeaderReachable(net, t, rk, cfg, h, i);
    }
    Deliver(net, nodes, p, net.root);
  }

  lemma {:induction false} DstsConcat(a: seq<Packet>, b: seq<Packet>)
    ensures Dsts(a + b) == Dsts(a) + Dsts(b)
  {
    if b == [] {
      assert a + b == a;
    } else {
      assert (a + b)[..|a + b| - 1] == a + b[..|b| - 1];
      DstsConcat(a, b[..|b| - 1]);
    }
  }

  lemma {:induction false} DstsDelivered(p: Packet, ps: seq<Packet>, dst: seq<Addr>)
    requires Delivered(p, ps, dst)
    ensures Dsts(ps) == dst
  {
    hide Sane;
    if ps != [] {
      var n := |ps| - 1;
      assert Arrived(p, ps[n], dst[n]);
      assert Delivered(p, ps[..n], dst[..n]) by {
        forall k | 0 <= k < n ensures Arrived(p, ps[..n][k], dst[..n][k]) {
          assert Arrived(p, ps[k], dst[k]);
        }
      }
      DstsDelivered(p, ps[..n], dst[..n]);
      assert dst == dst[..n] + [dst[n]];
    }
  }

  ghost predicate Sendable(net: Net, ps: seq<Packet>) {
    forall k | 0 <= k < |ps| :: Sane(ps[k]) && ps[k].daddr in net.at
  }

  // Everything that arrives at receivers when the sender sends `ps`.
  ghost function Arrivals(net: Net, nodes: map<Addr, Node>, ps: seq<Packet>): seq<Packet>
    requires NetOk(net) && NodesOk(net, nodes) && Sendable(net, ps)
  {
    if ps == [] then []
    else
      var n := |ps| - 1;
      RouteKnown(net, net.root, ps[n].daddr);
      Arrivals(net, nodes, ps[..n]) + Travel(net, nodes, ps[n], Route(net, net.root, ps[n].daddr))
  }

  lemma {:induction false} ArrivalsConcat(net: Net, nodes: map<Addr, Node>, a: seq<Packet>, b: seq<Packet>)
    requires NetOk(net) && NodesOk(net, nodes) && Sendable(net, a) && Sendable(net, b)
    ensures Sendable(net, a + b)
    ensures Arrivals(net, nodes, a + b) == Arrivals(net, nodes, a) + Arrivals(net, nodes, b)
    decreases |b|
  {
    hide Sane, Travel, Route, NetOk;
    if b == [] {
      assert a + b == a;
    } else {
      assert (a + b)[..|a + b| - 1] == a + b[..|b| - 1] && (a + b)[|a + b| - 1] == b[|b| - 1];
      ArrivalsConcat(net, nodes, a, b[..|b| - 1]);
    }
  }

  // Unicast packets from `sa` with an intact payload. When the sender made them as such, their
  // checksum is 0 exactly if that is what the sender computes; otherwise it is never 0.
  ghost predicate Plain(ps: seq<Packet>, sa: Addr, udp: Checksum.Segment, sent: bool) {
    forall k | 0 <= k < |ps| :: PlainOne(ps[k], sa, udp, sent)
  }

  ghost predicate PlainOne(q: Packet, sa: Addr, udp: Checksum.Segment, sent: bool) {
    && q.hdr.None? && Sane(q) && q.saddr == sa && q.udp == udp
    && (q.check == 0 <==> sent && Checksum.Total(sa, q.daddr, udp) % Checksum.FULL == 0)
  }

  lemma PlainConcat(a: seq<Packet>, b: seq<Packet>, sa: Addr, udp: Checksum.Segment, sent: bool)
    requires Plain(a, sa, udp, sent) && Plain(b, sa, udp, sent)
    ensures Plain(a + b, sa, udp, sent)
  {
    hide PlainOne;
  }

  // The packets for the unicast receivers arrive as they were sent.
  lemma {:induction false} UniArrive(net: Net, nodes: map<Addr, Node>, sa: Addr, uni: seq<Addr>,
                                     udp: Checksum.Segment)
    requires NetOk(net) && NodesOk(net, nodes) && forall k | 0 <= k < |uni| :: uni[k] in net.at
    ensures Sendable(net, UniPackets(sa, uni, udp))
    ensures var ps := Arrivals(net, nodes, UniPackets(sa, uni, udp));
            Plain(ps, sa, udp, true) && Dsts(ps) == uni
  {
    hide Sane, PlainOne, Route, Anc, NetOk, Travel, UniPacket;
    if uni != [] {
      var n := |uni| - 1;
      UniArrive(net, nodes, sa, uni[..n], udp);
      var p, ps := UniPacket(sa, uni[n], udp), UniPackets(sa, uni[..n], udp);
      UniSane(net, nodes, sa, uni[n], udp);
      OneMorePacket(net, nodes, ps, p);
      PlainConcat(Arrivals(net, nodes, ps), [p], sa, udp, true);
      DstsConcat(Arrivals(net, nodes, ps), [p]);
      assert [p][..0] == [] && Dsts([p]) == [uni[n]];
      assert uni == uni[..n] + [uni[n]];
    }
  }

  lemma UniSane(net: Net, nodes: map<Addr, Node>, sa: Addr, d: Addr, udp: Checksum.Segment)
    requires NetOk(net) && NodesOk(net, nodes) && d in net.at
    ensures var p := UniPacket(sa, d, udp);
            && net.root in net.up && Sane(p) && p.daddr == d && PlainOne(p, sa, udp, true)
            && (forall a | a in Route(net, net.root, d) :: a in net.up)
            && Travel(net, nodes, p, Route(net, net.root, d)) == [p]
  {
    hide Checksum.ValidCheck, Checksum.Folded, Checksum.Total, Route, Anc;
    SenderValid(sa, d, udp);
    Checksum.TotalFull(Checksum.Total(sa, d, udp));
    RouteKnown(net, net.root, d);
  }

  lemma {:induction false} AllRcvSnoc(mdc: seq<Header>, h: Header)
    ensures multiset(AllRcv(mdc + [h])) == multiset(AllRcv(mdc)) + multiset(Rcv(Segs(h)))
  {
    hide Segs;
    if mdc == [] {
      assert mdc + [h] == [h] && [h][1..] == [];
    } else {
      assert (mdc + [h])[1..] == mdc[1..] + [h];
      AllRcvSnoc(mdc[1..], h);
    }
  }

  // The packets for the headers arrive at the receivers addressed by them.
  lemma {:induction false} MdcArrive(net: Net, nodes: map<Addr, Node>, t: Tree, rk: map<Addr, nat>, cfg: Config,
                                     sa: Addr, mdc: seq<Header>, udp: Checksum.Segment)
    requires NetOk(net) && NodesOk(net, nodes) && Steady(t, rk) && Sound(net, t) && t.hops.Keys == t.parent.Keys
    requires (forall i | 0 <= i < |mdc| :: HeaderOk(cfg, t, mdc[i]))
    ensures Counting(mdc) && Sendable(net, MdcPackets(sa, mdc, udp))
    ensures var ps := Arrivals(net, nodes, MdcPackets(sa, mdc, udp));
            Plain(ps, sa, udp, false) && multiset(Dsts(ps)) == multiset(AllRcv(mdc))
    decreases |mdc|
  {
    hide Sound, Ranked, DetachedEmpty, ChildLinks, LeafLinks, Anc, Segs, Route, Travel, Delivered, Sane, PlainOne,
         HeaderOk, NetOk, MdcPacket, MdcPackets, Arrivals, AllRcv, Linked, Steady;
    if mdc == [] {
      NoneSent(net, nodes, sa, udp);
    } else {
      var n := |mdc| - 1;
      var h := mdc[n];
      MdcArrive(net, nodes, t, rk, cfg, sa, mdc[..n], udp);
      HeaderCounts(cfg, t, h);
      NetRoot(net);
      HeaderDelivered(net, nodes, t, rk, cfg, h, sa, udp);
      PacketTo(sa, h, udp);
      var p, ps := MdcPacket(sa, h, udp), MdcPackets(sa, mdc[..n], udp);
      var got := Travel(net, nodes, p, Route(net, net.root, p.daddr));
      MdcSnoc(sa, mdc, udp);
      OneMorePacket(net, nodes, ps, p);
      PlainDelivered(p, got, Rcv(Segs(h)), udp);
      PlainConcat(Arrivals(net, nodes, ps), got, sa, udp, false);
      DstsDelivered(p, got, Rcv(Segs(h)));
      DstsConcat(Arrivals(net, nodes, ps), got);
      AllRcvSnoc(mdc[..n], h);
      assert mdc == mdc[..n] + [h];
    }
  }

  lemma NoneSent(net: Net, nodes: map<Addr, Node>, sa: Addr, udp: Checksum.Segment)
    requires NetOk(net) && NodesOk(net, nodes)
    ensures MdcPackets(sa, [], udp) == [] && Arrivals(net, nodes, []) == [] && Dsts([]) == [] && AllRcv([]) == []
  {
  }

  lemma MdcSnoc(sa: Addr, mdc: seq<Header>, udp: Checksum.Segment)
    requires mdc != [] && Counting(mdc[..|mdc| - 1]) && mdc[|mdc| - 1].dsts == |mdc[|mdc| - 1].addr| >= 2
    ensures Counting(mdc)
    ensures MdcPackets(sa, mdc, udp) == MdcPackets(sa, mdc[..|mdc| - 1], udp) + [MdcPacket(sa, mdc[|mdc| - 1], udp)]
  {
    hide MdcPacket;
    forall i | 0 <= i < |mdc| ensures mdc[i].dsts == |mdc[i].addr| {
      if i < |mdc| - 1 { assert mdc[..|mdc| - 1][i] == mdc[i]; }
    }
  }

  lemma NetRoot(net: Net)
    requires NetOk(net)
    ensures net.root in net.up
  {
  }

  lemma HeaderCounts(cfg: Config, t: Tree, h: Header)
    requires t.hops.Keys == t.parent.Keys && HeaderOk(cfg, t, h)
    ensures h.dsts == |h.addr| >= 2
  {
    hide GroupOk, Segs;
    LengthAgrees(h.addr, h.rtm);
  }

  lemma PacketTo(sa: Addr, h: Header, udp: Checksum.Segment)
    requires |h.addr| >= 2
    ensures MdcPacket(sa, h, udp).daddr == h.addr[1] && MdcPacket(sa, h, udp).udp == udp
        && MdcPacket(sa, h, udp).saddr == sa
  {
  }

  lemma OneMorePacket(net: Net, nodes: map<Addr, Node>, ps: seq<Packet>, p: Packet)
    requires NetOk(net) && NodesOk(net, nodes) && Sendable(net, ps) && Sane(p) && p.daddr in net.at
    ensures Sendable(net, ps + [p]) && forall a | a in Route(net, net.root, p.daddr) :: a in net.up
    ensures Arrivals(net, nodes, ps + [p]) ==
            Arrivals(net, nodes, ps) + Travel(net, nodes, p, Route(net, net.root, p.daddr))
  {
    hide Sane, Travel, Route, Anc;
    RouteKnown(net, net.root, p.daddr);
    assert (ps + [p])[..|ps|] == ps;
  }

  lemma PlainDelivered(p: Packet, ps: seq<Packet>, dst: seq<Addr>, udp: Checksum.Segment)
    requires Delivered(p, ps, dst) && p.udp == udp
    ensures Plain(ps, p.saddr, udp, false)
  {
    hide Sane;
    forall k | 0 <= k < |ps| ensures PlainOne(ps[k], p.saddr, udp, false) {
      assert Arrived(p, ps[k], dst[k]);
    }
  }

  // What arrives when `grp` is served: unicast packets with the payload and a valid checksum. The
  // checksum is 0, so that the receiver has to discard the packet (section 8.1 of RFC 8200), exactly
  // for receivers that the sender serves by unicast and for which it computes 0.
  ghost predicate AllArrive(ps: seq<Packet>, uni: seq<Addr>, sa: Addr, udp: Checksum.Segment) {
    forall k | 0 <= k < |ps| :: PlainOne(ps[k], sa, udp, ps[k].daddr in uni)
  }

  lemma {:induction false} DstsAt(ps: seq<Packet>, k: nat)
    requires k < |ps|
    ensures ps[k].daddr in Dsts(ps)
  {
    if k < |ps| - 1 {
      DstsAt(ps[..|ps| - 1], k);
    }
  }

  lemma BothArrive(u: seq<Packet>, m: seq<Packet>, uni: seq<Addr>, rest: seq<Addr>, members: set<Addr>, sa: Addr,
                      udp: Checksum.Segment)
    requires Plain(u, sa, udp, true) && Plain(m, sa, udp, false)
    requires Dsts(u) == uni && multiset(Dsts(m)) == multiset(rest)
    requires multiset(rest) + multiset(uni) == multiset(members)
    ensures AllArrive(u + m, uni, sa, udp)
  {
    hide PlainOne, Dsts;
    Apart(rest, uni, members);
    var ps := u + m;
    forall k | 0 <= k < |ps| ensures PlainOne(ps[k], sa, udp, ps[k].daddr in uni) {
      if k < |u| {
        DstsAt(u, k);
      } else {
        DstsAt(m, k - |u|);
        assert ps[k].daddr in multiset(Dsts(m));
      }
    }
  }

  lemma Apart(a: seq<Addr>, b: seq<Addr>, members: set<Addr>)
    requires multiset(a) + multiset(b) == multiset(members)
    ensures forall d :: d in a ==> d !in b
  {
    forall d | d in a ensures d !in b {
      assert multiset(members)[d] == multiset(a)[d] + multiset(b)[d];
      assert multiset(members)[d] <= 1;
    }
  }

  // End to end: when the sender's tree is sound, what it sends for a group reaches every receiver
  // exactly once, as a unicast packet with the payload, and nobody else, for any settings of the
  // routers on the way.
  lemma GroupDelivered(net: Net, nodes: map<Addr, Node>, t: Tree, rk: map<Addr, nat>, cfg: Config, grp: TxGroup,
                       sa: Addr, udp: Checksum.Segment)
    requires NetOk(net) && NodesOk(net, nodes) && Steady(t, rk) && AllHomed(t) && Sound(net, t)
        && t.hops.Keys == t.parent.Keys
    requires (forall i | 0 <= i < |grp.mdc| :: HeaderOk(cfg, t, grp.mdc[i]))
    requires multiset(AllRcv(grp.mdc) + grp.uni) == multiset(t.home.Keys)
    ensures Counting(grp.mdc)
    ensures var sent := UniPackets(sa, grp.uni, udp) + MdcPackets(sa, grp.mdc, udp);
            Sendable(net, sent) &&
            var got := Arrivals(net, nodes, sent);
            AllArrive(got, grp.uni, sa, udp) && multiset(Dsts(got)) == multiset(t.home.Keys)
  {
    hide Sound, Ranked, DetachedEmpty, ChildLinks, LeafLinks, Anc, Segs, HeaderOk, NetOk, Sane, PlainOne, AllArrive,
         Arrivals, MdcPackets, UniPackets;
    UniKnown(net, t, grp);
    UniArrive(net, nodes, sa, grp.uni, udp);
    MdcArrive(net, nodes, t, rk, cfg, sa, grp.mdc, udp);
    var u, m := UniPackets(sa, grp.uni, udp), MdcPackets(sa, grp.mdc, udp);
    ArrivalsConcat(net, nodes, u, m);
    assert multiset(AllRcv(grp.mdc) + grp.uni) == multiset(AllRcv(grp.mdc)) + multiset(grp.uni);
    BothArrive(Arrivals(net, nodes, u), Arrivals(net, nodes, m), grp.uni, AllRcv(grp.mdc), t.home.Keys, sa, udp);
    DstsConcat(Arrivals(net, nodes, u), Arrivals(net, nodes, m));
  }

  lemma UniKnown(net: Net, t: Tree, grp: TxGroup)
    requires Keyed(t) && AllHomed(t) && Sound(net, t) && multiset(AllRcv(grp.mdc) + grp.uni) == multiset(t.home.Keys)
    ensures forall k | 0 <= k < |grp.uni| :: grp.uni[k] in net.at
  {
    hide Sound, AllRcv;
    HomesInNet(net, t);
    forall k | 0 <= k < |grp.uni| ensures grp.uni[k] in net.at {
      assert grp.uni[k] in multiset(AllRcv(grp.mdc) + grp.uni);
      assert grp.uni[k] in multiset(t.home.Keys);
    }
  }
}
