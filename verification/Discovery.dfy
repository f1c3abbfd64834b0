// Discovery: the sender probes each receiver, and every router on the way answers with its distance.
module Discovery {
  import opened Base
  import opened Forest
  import opened Header
  import opened Network
  import opened Plane
  import opened Delivery
  import Checksum
  import Topology

  // The discovery header for receiver `l`.
  function DcvHdr(l: Addr): Header {
    Header(IPPROTO_NONE, MdcHdrSize(1) / 8 - 1, IPV6_MEADCAST, 1, true, false, 0, {}, {}, [l])
  }

  function DcvPacket(sa: Addr, l: Addr): Packet {
    Packet(sa, l, IPPROTO_ROUTING, MdcHdrSize(1), Some(DcvHdr(l)), 0, [])
  }

  // Sends a probe to every receiver.
  method SendDcvr(sa: Addr, rcvr: seq<Addr>) returns (out: seq<Packet>)
    ensures |out| == |rcvr| && forall i | 0 <= i < |rcvr| :: out[i] == DcvPacket(sa, rcvr[i])
    ensures forall i | 0 <= i < |rcvr| ::
              && out[i].saddr == sa && out[i].daddr == rcvr[i] && out[i].hdr.Some? && out[i].udp == []
              && out[i].hdr.value.addr == [rcvr[i]] && out[i].hdr.value.hops == 0
              && out[i].plen == ExtLen(out[i].hdr.value) == MdcHdrSize(1)
  {
    out := [];
    var i := 0;
    while i < |rcvr|
      invariant 0 <= i <= |rcvr| && |out| == i
      invariant forall j | 0 <= j < i :: out[j] == DcvPacket(sa, rcvr[j])
    {
      out := out + [DcvPacket(sa, rcvr[i])];
      i := i + 1;
    }
  }

  predicate Request(h: Header) {
    h.typ == IPV6_MEADCAST && h.nxt == IPPROTO_NONE && h.dcv && !h.rsp && h.dsts == 1
  }

  // The response of router `self` to the probe `p`.
  function Answer(p: Packet, self: Addr): Packet
    requires p.hdr.Some?
  {
    p.(saddr := self, daddr := p.saddr, hdr := Some(p.hdr.value.(rsp := true)))
  }

  // Counts the hop and answers a copy of the probe, which travels on.
  method MdDcvRcv(skb: Skb, self: Addr) returns (ret: int, rsp: Option<Packet>)
    requires skb.hdr.Some?
    modifies skb
    ensures if Request(old(skb.hdr.value))
            then ret == 0 && skb.P() == Counted(old(skb.P())) && skb.P().hdr.Some? && rsp == Some(Answer(skb.P(), self))
            else ret == -1 && skb.P() == old(skb.P()) && rsp == None
  {
    if !Request(skb.hdr.value) { return -1, None; }
    skb.hdr := Some(skb.hdr.value.(hops := (skb.hdr.value.hops + 1) % 64));
    var copy := new Skb(skb.P());
    copy.daddr := copy.saddr;
    copy.hdr := Some(copy.hdr.value.(rsp := true));
    copy.saddr := self;
    ret, rsp := 0, Some(copy.P());
  }

  // Receives any packet with a routing header: a router that is switched off, or that finds another
  // routing type, leaves it alone.
  method MdRcv(skb: Skb, node: Node, enabled: bool, self: Addr) returns (ret: int, out: seq<Packet>,
               rsp: Option<Packet>)
    requires skb.hdr.Some?
    requires enabled && skb.hdr.value.typ == IPV6_MEADCAST && !skb.hdr.value.dcv && !skb.hdr.value.rsp ==>
               InBounds(node, skb.P())
    modifies skb
    ensures var h := old(skb.hdr.value);
            if enabled && h.typ == IPV6_MEADCAST then
              && ret == 0
              && (h.dcv && Request(h) ==>
                    && out == [] && skb.P() == Counted(old(skb.P())) && skb.P().hdr.Some?
                    && rsp == Some(Answer(skb.P(), self)))
              && (!h.dcv && !h.rsp ==>
                    && rsp == None && InBounds(node, Counted(old(skb.P())))
                    && out + [skb.P()] == Received(node, Counted(old(skb.P()))))
              && ((if h.dcv then !Request(h) else h.rsp) ==> out == [] && rsp == None && skb.P() == old(skb.P()))
            else ret == (if enabled then -1 else 0) && out == [] && rsp == None && skb.P() == old(skb.P())
  {
    ret, out, rsp := 0, [], None;
    if !enabled { return; }
    if skb.hdr.value.typ != IPV6_MEADCAST { return -1, [], None; }
    var r;
    if skb.hdr.value.dcv {
      r, rsp := MdDcvRcv(skb, self);
    } else {
      r, out := skb.MdDataRcv(node);
    }
  }

  // A router answers exactly the headers that agree with those of the sender's probes, apart from the hops
  // that have been counted, the address asked for, and fields that mean nothing in a probe.
  lemma RequestExactly(h: Header)
    ensures Request(h) <==> h == DcvHdr(0).(len := h.len, hops := h.hops, dlvm := h.dlvm, rtm := h.rtm, addr := h.addr)
  {
  }

  // So it answers neither an answer nor data.
  lemma OnlyProbes(p: Packet, self: Addr, addrs: seq<Addr>, bm: set<nat>)
    requires p.hdr.Some?
    ensures Answer(p, self).hdr.Some? && !Request(Answer(p, self).hdr.value)
    ensures !Request(SetDataHdr(addrs, bm)) && !SetDataHdr(addrs, bm).dcv
  {
    RequestExactly(Answer(p, self).hdr.value);
    RequestExactly(SetDataHdr(addrs, bm));
  }

  // A probe for `l` on its way, after `k` hops.
  function OnItsWay(sa: Addr, l: Addr, k: nat): (p: Packet)
    ensures p.hdr.Some?
  {
    DcvPacket(sa, l).(hdr := Some(DcvHdr(l).(hops := k % 64)))
  }

  // What happens to a probe that takes `route`: every router handles it in turn, and passes it on. The
  // answers are those of all routers, and only the hops in the probe have changed at the end.
  method ProbeTravels(sa: Addr, l: Addr, route: seq<Addr>, nodes: map<Addr, Node>)
    returns (answers: seq<Packet>, last: Packet)
    requires forall i | 0 <= i < |route| :: route[i] in nodes
    ensures answers == Answers(DcvPacket(sa, l), route) && |answers| == |route|
    ensures last == OnItsWay(sa, l, |route|)
  {
    hide Request, Counted, Answer, Answers, Received, InBounds, OnItsWay;
    var skb := new Skb(DcvPacket(sa, l));
    answers := [];
    Setting(sa, l);
    var i := 0;
    while i < |route|
      invariant 0 <= i <= |route| && |answers| == i
      invariant skb.P() == OnItsWay(sa, l, i)
      invariant answers + Answers(OnItsWay(sa, l, i), route[i..]) == Answers(DcvPacket(sa, l), route)
    {
      Passing(sa, l, i);
      ghost var p, before := skb.P(), answers;
      var ret, out, rsp := MdRcv(skb, nodes[route[i]], true, route[i]);
      AnswersFirst(p, route[i..]);
      assert route[i..][1..] == route[i + 1..];
      answers := answers + [rsp.value];
      assert answers + Answers(skb.P(), route[i + 1..]) == before + Answers(p, route[i..]);
      i := i + 1;
    }
    last := skb.P();
    AnswersNone(last);
    assert route[i..] == [] && answers + [] == answers;
  }

  lemma Setting(sa: Addr, l: Addr)
    ensures DcvPacket(sa, l) == OnItsWay(sa, l, 0)
  {
  }

  // On its way, a probe is a request, and it only differs from the next by the counted hop.
  lemma Passing(sa: Addr, l: Addr, k: nat)
    ensures OnItsWay(sa, l, k).hdr.value.typ == IPV6_MEADCAST
    ensures OnItsWay(sa, l, k).hdr.value.dcv && Request(OnItsWay(sa, l, k).hdr.value)
    ensures Counted(OnItsWay(sa, l, k)) == OnItsWay(sa, l, k + 1)
  {
    hide MdcHdrSize;
  }

  lemma AnswersNone(p: Packet)
    requires p.hdr.Some?
    ensures Answers(p, []) == []
  {
  }

  lemma AnswersFirst(p: Packet, route: seq<Addr>)
    requires p.hdr.Some? && route != []
    ensures Answers(p, route) == [Answer(Counted(p), route[0])] + Answers(Counted(p), route[1..])
  {
  }

  // The checks of the sender on a response of `size` bytes.
  predicate RspOk(size: nat, h: Header) {
    && size == MdcHdrSize(1) && h.typ == IPV6_MEADCAST && h.nxt == IPPROTO_NONE
    && h.dcv && h.rsp && h.hops >= 1 && h.dsts == 1
  }

  // The sender accepts exactly what agrees with the answers to its probes and has counted some hop.
  lemma RspOkExactly(size: nat, h: Header)
    ensures RspOk(size, h) <==>
            && h == Answer(DcvPacket(0, 0), 0).hdr.value.(len := h.len, hops := h.hops, dlvm := h.dlvm, rtm := h.rtm,
                                                         addr := h.addr)
            && h.hops >= 1 && size == DcvPacket(0, 0).plen
  {
  }

  // All responses to the probe `p` along `route`.
  function Answers(p: Packet, route: seq<Addr>): seq<Packet>
    requires p.hdr.Some?
    decreases |route|
  {
    if route == [] then [] else [Answer(Counted(p), route[0])] + Answers(Counted(p), route[1..])
  }

  lemma {:induction false} AnswerAt(p: Packet, route: seq<Addr>, k: nat)
    requires p.hdr.Some? && p.hdr.value.hops < 64 && k < |route|
    ensures |Answers(p, route)| == |route|
    ensures var q := Answers(p, route)[k];
            q.saddr == route[k] && q.daddr == p.saddr && q.plen == p.plen
            && q.hdr == Some(p.hdr.value.(hops := (p.hdr.value.hops + k + 1) % 64, rsp := true))
    decreases |route|
  {
    if k > 0 {
      AnswerAt(Counted(p), route[1..], k - 1);
    } else if |route| > 1 {
      AnswerAt(Counted(p), route[1..], 0);
    }
  }

  // The k-th router on the way down is k + 1 hops further from the sender than `x`.
  lemma {:induction false} PathDownAt(net: Net, x: Addr, y: Addr, k: nat)
    requires NetOk(net) && x in net.up && y in net.up && Anc(net.up, x, y) && k < |PathDown(net, x, y)|
    ensures |PathDown(net, x, y)| + net.depth[x] == net.depth[y]
    ensures var a := PathDown(net, x, y)[k];
            a in net.up && net.depth[a] == net.depth[x] + k + 1 && Anc(net.up, a, y)
    decreases net.depth[y]
  {
    if x != y {
      var p := net.up[y].value;
      PathDownLength(net, x, p);
      if k < |PathDown(net, x, p)| {
        PathDownAt(net, x, p, k);
        AncItself(net, p);
        UpTrans(net, PathDown(net, x, p)[k], p, y);
      } else {
        AncItself(net, y);
      }
    }
  }

  lemma {:induction false} PathDownLength(net: Net, x: Addr, y: Addr)
    requires NetOk(net) && x in net.up && y in net.up && Anc(net.up, x, y)
    ensures |PathDown(net, x, y)| + net.depth[x] == net.depth[y]
    decreases net.depth[y]
  {
    if x != y {
      PathDownLength(net, x, net.up[y].value);
    }
  }

  // The responses to a probe of receiver `l` are those of all routers on the route to it, in order.
  // A response tells the truth exactly when its router is less than 64 hops away; the sender refuses
  // the response of every 64th router.
  lemma ProbeAnswers(net: Net, sa: Addr, l: Addr, k: nat)
    requires NetOk(net) && l in net.at && k < |Route(net, net.root, l)|
    ensures |Route(net, net.root, l)| == net.depth[net.at[l]]
    ensures var p := Answers(DcvPacket(sa, l), Route(net, net.root, l));
            && |p| == |Route(net, net.root, l)| && p[k].daddr == sa && p[k].hdr.Some? && p[k].hdr.value.addr == [l]
            && OnRoute(net, p[k].saddr, l) && net.depth[p[k].saddr] == k + 1
            && (RspOk(p[k].plen, p[k].hdr.value) <==> (k + 1) % 64 != 0)
            && (Genuine(net, p[k].saddr, l, p[k].hdr.value.hops) <==> k + 1 < 64)
  {
    hide Anc, Answers, PathDown;
    var route := Route(net, net.root, l);
    UpRoot(net, net.at[l]);
    AnswerAt(DcvPacket(sa, l), route, k);
    PathDownAt(net, net.root, net.at[l], k);
    PathDownLength(net, net.root, net.at[l]);
  }

  // `n` routers in a row.
  ghost function LineUp(n: nat): map<Addr, Option<Addr>> {
    if n == 0 then map[0 := None] else LineUp(n - 1)[n := Some(n - 1)]
  }

  ghost function LineDepth(n: nat): map<Addr, nat> {
    if n == 0 then map[0 := 0] else LineDepth(n - 1)[n := n]
  }

  lemma {:induction false} LineAt(n: nat, a: Addr)
    ensures a in LineUp(n) <==> a <= n
    ensures a in LineDepth(n) <==> a <= n
    ensures a <= n ==> LineUp(n)[a] == (if a == 0 then None else Some(a - 1)) && LineDepth(n)[a] == a
  {
    if n > 0 {
      LineAt(n - 1, a);
    }
  }

  // Receiver 100 is behind 65 routers.
  ghost function Line(): Net {
    Net(0, LineUp(65), LineDepth(65), map[100 := 65])
  }

  lemma LineOk()
    ensures NetOk(Line())
  {
    hide LineUp, LineDepth;
    forall a ensures a in LineUp(65) <==> a <= 65
      ensures a in LineDepth(65) <==> a <= 65
      ensures a <= 65 ==> LineUp(65)[a] == (if a == 0 then None else Some(a - 1)) && LineDepth(65)[a] == a
    {
      LineAt(65, a);
    }
    assert LineUp(65).Keys == LineDepth(65).Keys;
    assert Line().at.Keys == {100};
  }

  // The answer of the last router passes the checks of the sender, but says 1 hop instead of 65.
  lemma FarAnswer(sa: Addr)
    ensures NetOk(Line()) && 100 in Line().at && |Route(Line(), Line().root, 100)| == 65
    ensures var q := Answers(DcvPacket(sa, 100), Route(Line(), Line().root, 100));
            && |q| == 65 && q[64].hdr.Some? && RspOk(q[64].plen, q[64].hdr.value)
            && !Genuine(Line(), q[64].saddr, 100, q[64].hdr.value.hops)
  {
    hide Line, Anc, Route, RspOk, Genuine, Answers, PathDown;
    LineOk();
    LineRoute();
    ProbeAnswers(Line(), sa, 100, 64);
  }

  lemma LineRoute()
    ensures NetOk(Line()) && 100 in Line().at && |Route(Line(), Line().root, 100)| == 65
  {
    hide Line, Anc;
    LineOk();
    LineMap();
    UpRoot(Line(), 65);
    PathDownLength(Line(), Line().root, 65);
  }

  lemma LineMap()
    ensures 100 in Line().at && Line().at[100] == 65 && 65 in Line().up && Line().root in Line().up
    ensures Line().root in Line().depth && Line().depth[Line().root] == 0
    ensures 65 in Line().depth && Line().depth[65] == 65
  {
    hide LineUp, LineDepth;
    LineAt(65, 0);
    LineAt(65, 65);
  }

  // What the sender takes from packets that reach it: reports of the responses that pass its checks.
  function Heard(ps: seq<Packet>): seq<Report> {
    if ps == [] then []
    else
      var rest := Heard(ps[1..]);
      match ps[0].hdr
      case Some(h) =>
        if RspOk(ps[0].plen, h) && h.addr != [] then [Report(ps[0].saddr, h.addr[0], h.hops)] + rest else rest
      case None => rest
  }

  // The true reports about the routers from position `k` of the route to `l` on.
  ghost function Truth(net: Net, l: Addr, k: nat): seq<Report>
    requires NetOk(net) && l in net.at && k <= |Route(net, net.root, l)|
    decreases |Route(net, net.root, l)| - k
  {
    var r := Route(net, net.root, l);
    if k == |r| then [] else [Report(r[k], l, k + 1)] + Truth(net, l, k + 1)
  }

  lemma {:induction false} HeardTruth(net: Net, sa: Addr, l: Addr, k: nat)
    requires NetOk(net) && l in net.at && net.depth[net.at[l]] < 64
    requires k <= |Route(net, net.root, l)| == |Answers(DcvPacket(sa, l), Route(net, net.root, l))|
    ensures Heard(Answers(DcvPacket(sa, l), Route(net, net.root, l))[k..]) == Truth(net, l, k)
    decreases |Route(net, net.root, l)| - k
  {
    hide Anc, Route, RspOk, OnRoute;
    var route := Route(net, net.root, l);
    var ps := Answers(DcvPacket(sa, l), route);
    if k < |route| {
      ProbeAnswers(net, sa, l, k);
      AnswerAt(DcvPacket(sa, l), route, k);
      HeardTruth(net, sa, l, k + 1);
      assert ps[k..][0] == ps[k] && ps[k..][1..] == ps[k + 1..];
    } else {
      assert ps[k..] == [];
    }
  }

  lemma {:induction false} TruthRises(net: Net, known: map<Addr, nat>, l: Addr, k: nat)
    requires NetOk(net) && l in net.at && k <= |Route(net, net.root, l)| && l in known && known[l] == k
    ensures AllRising(net, known, Truth(net, l, k))
    ensures LearnAll(net, known, Truth(net, l, k)) == known[l := |Route(net, net.root, l)|]
    decreases |Route(net, net.root, l)| - k
  {
    hide Anc, Route;
    var r := Route(net, net.root, l);
    if k < |r| {
      ProbeAnswers(net, 0, l, k);
      AnswerAt(DcvPacket(0, l), r, k);
      TruthRises(net, known[l := k + 1], l, k + 1);
      assert known[l := k + 1][l := |r|] == known[l := |r|];
    }
  }

  // One probe is enough: the answers of the routers on the route to a receiver, none of which is 64
  // hops away, complete the receiver's part of the tree.
  lemma ProbeCompletes(net: Net, sa: Addr, t: Tree, rk: map<Addr, nat>, known: map<Addr, nat>, l: Addr)
    requires NetOk(net) && Topology.Growing(t, rk) && Keyed(t) && Sound(net, t) && Complete(net, t, known)
    requires l in t.home && l in net.at && net.depth[net.at[l]] < 64 && l in known && known[l] == 0
    ensures var s := Heard(Answers(DcvPacket(sa, l), Route(net, net.root, l)));
            var t' := Feed(t, rk, s).0;
            Keyed(t') && Complete(net, t', known[l := net.depth[net.at[l]]])
  {
    hide Anc, Route, NetOk, Sound, Complete, Topology.Growing, Keyed, Feed, Answers, Heard, Truth;
    AnswersLength(net, sa, l);
    HeardTruth(net, sa, l, 0);
    var ps := Answers(DcvPacket(sa, l), Route(net, net.root, l));
    assert ps[0..] == ps;
    TruthRises(net, known, l, 0);
    TruthGenuine(net, t, l, 0);
    FeedComplete(net, t, rk, known, Truth(net, l, 0));
  }

  lemma AnswersLength(net: Net, sa: Addr, l: Addr)
    requires NetOk(net) && l in net.at
    ensures net.root in net.up
    ensures |Route(net, net.root, l)| == |Answers(DcvPacket(sa, l), Route(net, net.root, l))| == net.depth[net.at[l]]
  {
    hide Anc, Route;
    if |Route(net, net.root, l)| > 0 { ProbeAnswers(net, sa, l, 0); } else { RouteNone(net, l); }
  }

  lemma RouteNone(net: Net, l: Addr)
    requires NetOk(net) && l in net.at && Route(net, net.root, l) == []
    ensures net.depth[net.at[l]] == 0
  {
    UpRoot(net, net.at[l]);
    PathDownLength(net, net.root, net.at[l]);
  }

  lemma {:induction false} TruthGenuine(net: Net, t: Tree, l: Addr, k: nat)
    requires NetOk(net) && l in net.at && k <= |Route(net, net.root, l)| && l in t.home && net.depth[net.at[l]] < 64
    ensures Genuines(net, t, Truth(net, l, k))
    decreases |Route(net, net.root, l)| - k
  {
    hide Anc, Route;
    var r := Route(net, net.root, l);
    if k < |r| {
      ProbeAnswers(net, 0, l, k);
      AnswerAt(DcvPacket(0, l), r, k);
      TruthGenuine(net, t, l, k + 1);
    }
  }
}
