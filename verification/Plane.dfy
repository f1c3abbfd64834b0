// The router's data plane: one scan over the two bitmaps of a MEADcast header splits a packet into
// replicas and unicast packets.
module Plane {
  import opened Base
  import opened Header
  import opened Checksum

  const IPPROTO_ROUTING: nat := 43
  const IPPROTO_NONE: nat := 59

  // A packet: `hdr` is its MEADcast header, if it still has one, and `udp` the UDP segment behind it, if
  // any, whose checksum field is `check`.
  datatype Packet = Packet(saddr: Addr, daddr: Addr, nxt: nat, plen: nat, hdr: Option<Header>, check: nat,
                           udp: seq<Byte>)

  // A router's own addresses and its settings.
  datatype Node = Node(local: set<Addr>, minDsts: nat)

  // A header that a router can take apart: at most 32 entries, a right length field, and some marks for
  // delivery, all of which are at routers that are not the last entry.
  ghost predicate Readable(h: Header) {
    && h.dsts == |h.addr| <= BITMAP_LIMIT && ExtLen(h) == MdcHdrSize(|h.addr|)
    && h.dlvm <= h.rtm && h.dlvm != {} && (forall i | i in h.dlvm :: i + 1 < |h.addr|)
  }

  // A header as the sender makes it: besides, every router that is marked for delivery has receivers.
  ghost predicate WellFormed(h: Header) {
    && Readable(h)
    && h.nxt == IPPROTO_UDP && h.typ == IPV6_MEADCAST
    && (forall i | i in h.rtm :: i < |h.addr|)
    && (forall i | i in h.dlvm :: i + 1 < NextMark(h.rtm, i, |h.addr|))
  }

  // Marks for delivery count only at routers within the list.
  ghost function Cleaned(p: Packet): Packet {
    match p.hdr
    case Some(h) => p.(hdr := Some(h.(dlvm := set i | i in h.dlvm && i in h.rtm && i < |h.addr|)))
    case None => p
  }

  // A data packet in flight: its lengths are consistent and its checksum is valid for its current
  // destination.
  ghost predicate Sane(p: Packet) {
    && IsSegment(p.udp) && ValidCheck(p.saddr, p.daddr, p.udp, p.check)
    && match p.hdr
       case Some(h) => WellFormed(h) && !h.dcv && !h.rsp && p.nxt == IPPROTO_ROUTING && p.plen == ExtLen(h) + |p.udp|
       case None => p.nxt == IPPROTO_UDP && p.plen == |p.udp|
  }

  // The unicast packet for `dst` that is left of `p` without its MEADcast header.
  function Unicast(p: Packet, dst: Addr): Packet
    requires p.hdr.Some? && p.plen >= ExtLen(p.hdr.value)
  {
    Packet(p.saddr, dst, p.hdr.value.nxt, p.plen - ExtLen(p.hdr.value), None, NewCheck(p.check, p.daddr, dst), p.udp)
  }

  // One unicast packet for each of `dst`.
  function Unicasts(p: Packet, dst: seq<Addr>): (ps: seq<Packet>)
    requires p.hdr.Some? && p.plen >= ExtLen(p.hdr.value)
    ensures |ps| == |dst| && forall k | 0 <= k < |dst| :: ps[k] == Unicast(p, dst[k])
  {
    if dst == [] then [] else Unicasts(p, dst[..|dst| - 1]) + [Unicast(p, dst[|dst| - 1])]
  }

  // The replica of `p` for the router at position `i`, sent towards its first receiver.
  function Replica(p: Packet, i: nat): Packet
    requires p.hdr.Some? && i + 1 < |p.hdr.value.addr|
  {
    var dst := p.hdr.value.addr[i + 1];
    p.(daddr := dst, hdr := Some(p.hdr.value.(dlvm := {i})), check := NewCheck(p.check, p.daddr, dst))
  }

  // What happens to the segment that reaches from the router at position `i` to position `j`. Without
  // receivers, the entry behind the router is taken for one.
  function Serve(node: Node, p: Packet, i: nat, j: nat): seq<Packet>
    requires p.hdr.Some? && p.plen >= ExtLen(p.hdr.value) && i < j <= |p.hdr.value.addr| && i + 1 < |p.hdr.value.addr|
  {
    var a := p.hdr.value.addr;
    if j - i - 1 < node.minDsts || a[i] in node.local then
      Unicasts(p, a[i + 1..if j == i + 1 then j + 1 else j])
    else [Replica(p, i)]
  }

  // The simple specification of the scan: every router marked for delivery is served with the
  // receivers up to the next router.
  ghost function Split(node: Node, p: Packet, i: nat): seq<Packet>
    requires p.hdr.Some? && Readable(p.hdr.value) && p.plen >= ExtLen(p.hdr.value) && i <= |p.hdr.value.addr|
    decreases |p.hdr.value.addr| - i
  {
    var h := p.hdr.value;
    if i == |h.addr| then []
    else (if i in h.dlvm then Serve(node, p, i, NextMark(h.rtm, i, |h.addr|)) else []) + Split(node, p, i + 1)
  }

  // Nothing is marked for delivery, and the whole list is shorter than a replica has to be.
  ghost predicate Unmarked(node: Node, h: Header) {
    && h.dsts == |h.addr| <= BITMAP_LIMIT && 0 < |h.addr| < node.minDsts
    && !exists i | 0 <= i < |h.addr| :: i in h.dlvm && i in h.rtm
  }

  // A packet that the scan reads within its bounds.
  ghost predicate InBounds(node: Node, p: Packet) {
    && p.hdr.Some? && p.plen >= ExtLen(p.hdr.value) && p.check <= FULL
    && (Readable(Cleaned(p).hdr.value) || Unmarked(node, p.hdr.value))
  }

  // What the router sends for `p`. Without marks, every entry of a short list is taken for a receiver.
  ghost function Received(node: Node, p: Packet): seq<Packet>
    requires InBounds(node, p)
  {
    if Unmarked(node, p.hdr.value) then Unicasts(p, p.hdr.value.addr) else Split(node, Cleaned(p), 0)
  }

  // The packet after the hop has been counted in a 6-bit field.
  function Counted(p: Packet): Packet {
    match p.hdr
    case Some(h) => p.(hdr := Some(h.(hops := (h.hops + 1) % 64)))
    case None => p
  }

  // A socket buffer.
  class Skb {
    var saddr: Addr
    var daddr: Addr
    var nxt: nat
    var plen: nat
    var hdr: Option<Header>
    var check: nat
    var udp: seq<Byte>

    function P(): Packet
      reads this
    {
      Packet(saddr, daddr, nxt, plen, hdr, check, udp)
    }

    constructor (p: Packet)
      ensures P() == p
    {
      saddr, daddr, nxt, plen, hdr, check, udp := p.saddr, p.daddr, p.nxt, p.plen, p.hdr, p.check, p.udp;
    }

    // Turns the packet into a unicast packet for `dst`.
    method M2u(dst: Addr)
      requires hdr.Some? && plen >= ExtLen(hdr.value) && check <= FULL
      modifies this
      ensures P() == Unicast(old(P()), dst)
    {
      var rthdrLen := ExtLen(hdr.value);
      plen := plen - rthdrLen;
      nxt := hdr.value.nxt;
      check := UpdateCheck(check, daddr, dst);
      daddr := dst;
      hdr := None;
    }

    // Serves the receivers of the router at position `i`, which end at position `j`: as unicast
    // packets, the last of which is this packet itself, or by turning it into a replica. Position -1
    // stands for a router that is not in the list.
    method MdDataFwd(node: Node, i: int, j: nat) returns (out: seq<Packet>)
      requires hdr.Some? && plen >= ExtLen(hdr.value) && check <= FULL
      requires -1 <= i < j <= |hdr.value.addr| && i + 1 < |hdr.value.addr| && (i < 0 ==> 0 < j < node.minDsts)
      modifies this
      ensures out + [P()] ==
              if i >= 0 then Serve(node, old(P()), i, j) else Unicasts(old(P()), old(hdr).value.addr[..j])
    {
      ghost var p := P();
      out := [];
      var len := j - i - 1;
      if len < node.minDsts || hdr.value.addr[i] in node.local {
        var k := i + 1;
        while k < j - 1
          invariant i + 1 <= k && (k < j || k == i + 1) && P() == p && |out| == k - i - 1
          invariant forall m | 0 <= m < |out| :: out[m] == Unicast(p, p.hdr.value.addr[i + 1 + m])
        {
          var cpy := new Skb(P());
          cpy.M2u(hdr.value.addr[k]);
          out := out + [cpy.P()];
          k := k + 1;
        }
        M2u(hdr.value.addr[k]);
        return;
      }
      var dst := hdr.value.addr[i + 1];
      check := UpdateCheck(check, daddr, dst);
      hdr := Some(hdr.value.(dlvm := {i}));
      daddr := dst;
    }

    // Receives a data packet: the packets sent are `out` and finally this packet.
    method MdDataRcv(node: Node) returns (ret: int, out: seq<Packet>)
      requires hdr.Some? && (!hdr.value.dcv && !hdr.value.rsp ==> InBounds(node, P()))
      modifies this
      ensures if old(hdr.value.dcv || hdr.value.rsp) then ret == -1 && out == [] && P() == old(P())
              else
                && ret == 0 && InBounds(node, Counted(old(P())))
                && out + [P()] == Received(node, Counted(old(P())))
    {
      hide Split, Serve, NextMark, Scanned, Readable, Cleaned, Unmarked;
      out := [];
      if hdr.value.dcv || hdr.value.rsp { return -1, []; }
      CountedIn(node, P());
      hdr := Some(hdr.value.(hops := (hdr.value.hops + 1) % 64));
      ghost var q, p := P(), Cleaned(P());
      var h := hdr.value;
      var r1: int := -1;
      var r2: nat := 0;
      var i := 0;
      InBoundsList(node, q);
      ScanStart(node, q);
      while i < h.dsts
        invariant 0 <= i <= h.dsts && P() == q && Scanning(node, q, i, r1, r2, out)
      {
        CleanedMarks(q, i);
        ScanStep(node, q, i, r1, r2, out);
        if i in h.rtm {
          if r1 >= 0 {
            if r2 == 0 { r2 := i; }
            if i in h.dlvm {
              var cpy := new Skb(P());
              var more := cpy.MdDataFwd(node, r1, r2);
              assert out + (more + [cpy.P()]) == out + more + [cpy.P()];
              out := out + more + [cpy.P()];
              r1 := i;
              r2 := 0;
            }
          } else if i in h.dlvm {
            r1 := i;
          }
        }
        i := i + 1;
      }
      ScanLast(node, q, r1, r2, out);
      if r2 == 0 { r2 := i; }
      var more := MdDataFwd(node, r1, r2);
      assert out + (more + [P()]) == (out + more) + [P()];
      out := out + more;
      ret := 0;
    }
  }

  lemma CountedIn(node: Node, p: Packet)
    requires InBounds(node, p)
    ensures Counted(p).hdr.Some? && Counted(p) == p.(hdr := Counted(p).hdr) && InBounds(node, Counted(p))
  {
  }

  lemma InBoundsList(node: Node, q: Packet)
    requires InBounds(node, q)
    ensures q.hdr.value.dsts == |q.hdr.value.addr|
  {
  }

  // The state of the scan in terms of the packet as it is: `p` without the marks that do not count.
  ghost predicate Scanning(node: Node, q: Packet, i: nat, r1: int, r2: nat, out: seq<Packet>) {
    && InBounds(node, q)
    && if Unmarked(node, q.hdr.value) then r1 == -1 && r2 == 0 && out == []
       else Scanned(node, Cleaned(q), i, r1, r2, out)
  }

  lemma ScanStart(node: Node, q: Packet)
    requires InBounds(node, q)
    ensures Scanning(node, q, 0, -1, 0, [])
  {
  }

  // What the scan does with the entry at position `i`.
  lemma ScanStep(node: Node, q: Packet, i: nat, r1: int, r2: nat, out: seq<Packet>)
    requires Scanning(node, q, i, r1, r2, out) && i < |q.hdr.value.addr|
    ensures q.hdr.Some? && r1 >= -1
    ensures i !in q.hdr.value.rtm ==> Scanning(node, q, i + 1, r1, r2, out)
    ensures i in q.hdr.value.rtm && r1 < 0 ==>
              Scanning(node, q, i + 1, if i in q.hdr.value.dlvm then i else r1, r2, out)
    ensures i in q.hdr.value.rtm && r1 >= 0 && i !in q.hdr.value.dlvm ==>
              Scanning(node, q, i + 1, r1, if r2 == 0 then i else r2, out)
    ensures i in q.hdr.value.rtm && r1 >= 0 && i in q.hdr.value.dlvm ==>
              var e := if r2 == 0 then i else r2;
              && r1 < e <= |q.hdr.value.addr| && r1 + 1 < |q.hdr.value.addr|
              && Scanning(node, q, i + 1, i, 0, out + Serve(node, q, r1, e))
  {
    hide Split, Serve, NextMark, Scanned, Readable;
    if !Unmarked(node, q.hdr.value) {
      var p := Cleaned(q);
      ScanBasics(node, p, i, r1, r2, out);
      CleanedMarks(q, i);
      if i in p.hdr.value.dlvm { ScanMark(node, p, i, r1, r2, out); } else { ScanSkip(node, p, i, r1, r2, out); }
      if i in q.hdr.value.rtm && r1 >= 0 {
        ScanNext(node, p, i, r1, r2, out);
        ServeCleaned(node, q, r1, if r2 == 0 then i else r2);
      }
    }
  }

  // What it does at the end.
  lemma ScanLast(node: Node, q: Packet, r1: int, r2: nat, out: seq<Packet>)
    requires q.hdr.Some? && Scanning(node, q, |q.hdr.value.addr|, r1, r2, out)
    ensures var e := if r2 == 0 then |q.hdr.value.addr| else r2;
            && -1 <= r1 < e <= |q.hdr.value.addr| && r1 + 1 < |q.hdr.value.addr|
            && (r1 < 0 ==> 0 < e < node.minDsts && Received(node, q) == out + Unicasts(q, q.hdr.value.addr[..e]))
            && (r1 >= 0 ==> Received(node, q) == out + Serve(node, q, r1, e))
  {
    hide Split, Serve, NextMark, Scanned, Readable;
    if Unmarked(node, q.hdr.value) {
      assert q.hdr.value.addr[..|q.hdr.value.addr|] == q.hdr.value.addr;
    } else {
      var p := Cleaned(q);
      ScanEnd(node, p, r1, r2, out);
      ScanBasics(node, p, |p.hdr.value.addr|, r1, r2, out);
      ServeCleaned(node, q, r1, if r2 == 0 then |q.hdr.value.addr| else r2);
    }
  }

  lemma CleanedMarks(q: Packet, i: nat)
    requires q.hdr.Some? && i < |q.hdr.value.addr|
    ensures Cleaned(q).hdr.Some? && Cleaned(q).hdr.value.rtm == q.hdr.value.rtm
    ensures i in q.hdr.value.rtm ==> (i in Cleaned(q).hdr.value.dlvm <==> i in q.hdr.value.dlvm)
    ensures i !in q.hdr.value.rtm ==> i !in Cleaned(q).hdr.value.dlvm
  {
  }

  // For packets as the sender makes them, the specification is the simple one.
  lemma ReceivedWhole(node: Node, p: Packet)
    requires p.hdr.Some? && WellFormed(p.hdr.value) && p.plen >= ExtLen(p.hdr.value) && p.check <= FULL
    ensures InBounds(node, p) && Received(node, p) == Split(node, p, 0)
  {
    hide Split;
    CleanedWhole(p);
    SomeMarked(node, p.hdr.value);
  }

  // What is sent for one router does not depend on the other marks.
  lemma ServeCleaned(node: Node, q: Packet, i: nat, j: nat)
    requires q.hdr.Some? && q.plen >= ExtLen(q.hdr.value) && i < j <= |q.hdr.value.addr| && i + 1 < |q.hdr.value.addr|
    ensures Cleaned(q).hdr.Some? && ExtLen(Cleaned(q).hdr.value) == ExtLen(q.hdr.value)
    ensures Cleaned(q).hdr.value.addr == q.hdr.value.addr && Cleaned(q).plen == q.plen
    ensures Serve(node, Cleaned(q), i, j) == Serve(node, q, i, j)
  {
    hide NewCheck;
    var dst := q.hdr.value.addr[i + 1..if j == i + 1 then j + 1 else j];
    assert Unicasts(Cleaned(q), dst) == Unicasts(q, dst) by { UnicastsCleaned(q, dst); }
  }

  lemma {:induction false} UnicastsCleaned(q: Packet, dst: seq<Addr>)
    requires q.hdr.Some? && q.plen >= ExtLen(q.hdr.value)
    ensures Cleaned(q).hdr.Some? && ExtLen(Cleaned(q).hdr.value) == ExtLen(q.hdr.value)
    ensures Unicasts(Cleaned(q), dst) == Unicasts(q, dst)
  {
    hide NewCheck;
    assert forall k | 0 <= k < |dst| :: Unicast(Cleaned(q), dst[k]) == Unicast(q, dst[k]);
  }

  // The state of the scan at position `i`: `r1` is the last router marked for delivery, `r2` the
  // router after it if there is one yet, and `out` what has been sent for the routers before `r1`.
  ghost predicate Scanned(node: Node, p: Packet, i: nat, r1: int, r2: nat, out: seq<Packet>) {
    && p.hdr.Some? && Readable(p.hdr.value) && p.plen >= ExtLen(p.hdr.value) && i <= |p.hdr.value.addr|
    && var h := p.hdr.value;
    && if r1 < 0 then
         && r1 == -1 && r2 == 0 && out == []
         && Split(node, p, 0) == Split(node, p, i) && forall k | 0 <= k < i :: k !in h.dlvm
       else
         && r1 < i && r1 in h.dlvm
         && (if r2 == 0 then forall k | r1 < k < i :: k !in h.rtm
             else r1 < r2 < i && NextMark(h.rtm, r1, |h.addr|) == r2)
         && Split(node, p, 0) == out + Serve(node, p, r1, NextMark(h.rtm, r1, |h.addr|)) + Split(node, p, i)
  }

  lemma ScanBasics(node: Node, p: Packet, i: nat, r1: int, r2: nat, out: seq<Packet>)
    requires Scanned(node, p, i, r1, r2, out)
    ensures p.hdr.Some? && Readable(p.hdr.value) && p.plen >= ExtLen(p.hdr.value)
    ensures i <= |p.hdr.value.addr| == p.hdr.value.dsts && p.hdr.value.dlvm <= p.hdr.value.rtm
    ensures r1 >= 0 || (r1 == -1 && r2 == 0)
    ensures r1 >= 0 ==> r1 < i && r1 in p.hdr.value.dlvm && r1 + 1 < |p.hdr.value.addr|
  {
  }

  // The next router after `r1`, as the scan knows it when it reaches the router at `i` or the end.
  lemma ScanNext(node: Node, p: Packet, i: nat, r1: int, r2: nat, out: seq<Packet>)
    requires Scanned(node, p, i, r1, r2, out) && r1 >= 0 && (i == |p.hdr.value.addr| || i in p.hdr.value.rtm)
    ensures NextMark(p.hdr.value.rtm, r1, |p.hdr.value.addr|) == if r2 == 0 then i else r2
  {
    var h := p.hdr.value;
    if r2 == 0 { NextMarkIs(h.rtm, r1, |h.addr|, i); }
  }

  lemma ScanSkip(node: Node, p: Packet, i: nat, r1: int, r2: nat, out: seq<Packet>)
    requires Scanned(node, p, i, r1, r2, out) && i < |p.hdr.value.addr| && i !in p.hdr.value.dlvm
    ensures i !in p.hdr.value.rtm ==> Scanned(node, p, i + 1, r1, r2, out)
    ensures i in p.hdr.value.rtm && r1 < 0 ==> Scanned(node, p, i + 1, r1, r2, out)
    ensures i in p.hdr.value.rtm && r1 >= 0 ==> Scanned(node, p, i + 1, r1, if r2 == 0 then i else r2, out)
  {
    hide Split, Serve, NextMark;
    if i in p.hdr.value.rtm && r1 >= 0 { ScanNext(node, p, i, r1, r2, out); }
    SplitSkip(node, p, i);
  }

  lemma SplitSkip(node: Node, p: Packet, i: nat)
    requires p.hdr.Some? && Readable(p.hdr.value) && p.plen >= ExtLen(p.hdr.value) && i < |p.hdr.value.addr|
    requires i !in p.hdr.value.dlvm
    ensures Split(node, p, i) == Split(node, p, i + 1)
  {
  }

  lemma SplitMark(node: Node, p: Packet, i: nat)
    requires p.hdr.Some? && Readable(p.hdr.value) && p.plen >= ExtLen(p.hdr.value) && i < |p.hdr.value.addr|
    requires i in p.hdr.value.dlvm
    ensures Split(node, p, i) ==
            Serve(node, p, i, NextMark(p.hdr.value.rtm, i, |p.hdr.value.addr|)) + Split(node, p, i + 1)
  {
  }

  lemma ScanMark(node: Node, p: Packet, i: nat, r1: int, r2: nat, out: seq<Packet>)
    requires Scanned(node, p, i, r1, r2, out) && i < |p.hdr.value.addr| && i in p.hdr.value.dlvm
    ensures r1 < 0 ==> Scanned(node, p, i + 1, i, 0, out)
    ensures r1 >= 0 ==>
              && r1 + 1 < |p.hdr.value.addr|
              && Scanned(node, p, i + 1, i, 0,
                         out + Serve(node, p, r1, NextMark(p.hdr.value.rtm, r1, |p.hdr.value.addr|)))
  {
    hide Split, Serve, NextMark, PendingFrom;
    SplitMark(node, p, i);
    var h := p.hdr.value;
    if r1 >= 0 {
      var a, b := Serve(node, p, r1, NextMark(h.rtm, r1, |h.addr|)), Serve(node, p, i, NextMark(h.rtm, i, |h.addr|));
      var c := Split(node, p, i + 1);
      assert out + a + (b + c) == (out + a) + b + c;
    } else {
      var b, c := Serve(node, p, i, NextMark(h.rtm, i, |h.addr|)), Split(node, p, i + 1);
      assert b + c == [] + b + c;
    }
  }

  lemma SomeMark(h: Header)
    requires Readable(h)
    ensures exists k :: 0 <= k < |h.addr| && k in h.dlvm
  {
    var k :| k in h.dlvm;
    assert k in h.rtm;
  }

  lemma ScanEnd(node: Node, p: Packet, r1: int, r2: nat, out: seq<Packet>)
    requires p.hdr.Some? && Scanned(node, p, |p.hdr.value.addr|, r1, r2, out)
    ensures r1 >= 0 && r1 + 1 < |p.hdr.value.addr|
    ensures NextMark(p.hdr.value.rtm, r1, |p.hdr.value.addr|) == if r2 == 0 then |p.hdr.value.addr| else r2
    ensures Split(node, p, 0) == out + Serve(node, p, r1, NextMark(p.hdr.value.rtm, r1, |p.hdr.value.addr|))
  {
    var h := p.hdr.value;
    SomeMark(h);
    ScanNext(node, p, |h.addr|, r1, r2, out);
    hide Serve, NextMark;
    assert Split(node, p, |h.addr|) == [];
  }

  // The receivers that `h` still has to be delivered to, from position `i` on.
  function PendingFrom(h: Header, i: nat): seq<Addr>
    requires i <= |h.addr|
    decreases |h.addr| - i
  {
    if i == |h.addr| then []
    else (if i in h.dlvm then h.addr[i + 1..NextMark(h.rtm, i, |h.addr|)] else []) + PendingFrom(h, i + 1)
  }

  // The receivers that a packet in flight is still to reach.
  function Pending(p: Packet): seq<Addr> {
    match p.hdr
    case Some(h) => PendingFrom(h, 0)
    case None => [p.daddr]
  }

  function PendingAll(ps: seq<Packet>): seq<Addr> {
    if ps == [] then [] else Pending(ps[0]) + PendingAll(ps[1..])
  }

  lemma {:induction false} PendingConcat(a: seq<Packet>, b: seq<Packet>)
    ensures PendingAll(a + b) == PendingAll(a) + PendingAll(b)
  {
    if a == [] {
      assert a + b == b;
    } else {
      assert (a + b)[1..] == a[1..] + b;
      PendingConcat(a[1..], b);
    }
  }

  // With one router marked for delivery, exactly its receivers are pending.
  lemma {:induction false} PendingOne(h: Header, i: nat, k: nat)
    requires k < |h.addr| && h.dlvm == {k} && i <= |h.addr|
    ensures PendingFrom(h, i) == if i <= k then h.addr[k + 1..NextMark(h.rtm, k, |h.addr|)] else []
    decreases |h.addr| - i
  {
    if i < |h.addr| {
      PendingOne(h, i + 1, k);
    }
  }

  lemma {:induction false} PendingUnicasts(ps: seq<Packet>, dst: seq<Addr>)
    requires |ps| == |dst| && forall k | 0 <= k < |ps| :: ps[k].hdr.None? && ps[k].daddr == dst[k]
    ensures PendingAll(ps) == dst
  {
    if ps != [] {
      PendingUnicasts(ps[1..], dst[1..]);
    }
  }

  // The router at position `i` is served without sending anything to an entry that is no receiver.
  predicate Proper(node: Node, h: Header, i: nat)
    requires i < |h.addr|
  {
    i + 1 < NextMark(h.rtm, i, |h.addr|) || (node.minDsts == 0 && h.addr[i] !in node.local)
  }

  lemma PendingServe(node: Node, p: Packet, i: nat)
    requires p.hdr.Some? && p.plen >= ExtLen(p.hdr.value) && i + 1 < |p.hdr.value.addr|
    ensures var h := p.hdr.value;
            var e := NextMark(h.rtm, i, |h.addr|);
            PendingAll(Serve(node, p, i, e)) == if Proper(node, h, i) then h.addr[i + 1..e] else h.addr[i + 1..i + 2]
  {
    hide NewCheck, NextMark, PendingFrom;
    var h := p.hdr.value;
    var e := NextMark(h.rtm, i, |h.addr|);
    var ps := Serve(node, p, i, e);
    if e - i - 1 < node.minDsts || h.addr[i] in node.local {
      var dst := h.addr[i + 1..if e == i + 1 then e + 1 else e];
      forall k | 0 <= k < |ps| ensures ps[k].hdr.None? && ps[k].daddr == dst[k] {
        assert dst[k] == h.addr[i + 1 + k];
      }
      PendingUnicasts(ps, dst);
    } else {
      PendingOne(h.(dlvm := {i}), 0, i);
      assert ps == [Replica(p, i)] && ps[1..] == [];
      assert PendingAll([]) == [];
    }
  }

  lemma {:induction false} PendingSplit(node: Node, p: Packet, i: nat)
    requires p.hdr.Some? && Readable(p.hdr.value) && p.plen >= ExtLen(p.hdr.value) && i <= |p.hdr.value.addr|
    ensures var h := p.hdr.value;
            && |PendingAll(Split(node, p, i))| >= |PendingFrom(h, i)|
            && (PendingAll(Split(node, p, i)) == PendingFrom(h, i) <==>
                forall k | i <= k < |h.addr| && k in h.dlvm :: Proper(node, h, k))
    decreases |p.hdr.value.addr| - i
  {
    hide Serve, Proper, PendingAll;
    var h := p.hdr.value;
    if i < |h.addr| {
      PendingSplit(node, p, i + 1);
      var rest := Split(node, p, i + 1);
      if i in h.dlvm {
        var e := NextMark(h.rtm, i, |h.addr|);
        var now := Serve(node, p, i, e);
        PendingServe(node, p, i);
        PendingConcat(now, rest);
        assert (forall k | i <= k < |h.addr| && k in h.dlvm :: Proper(node, h, k)) <==>
               Proper(node, h, i) && forall k | i + 1 <= k < |h.addr| && k in h.dlvm :: Proper(node, h, k);
        if Proper(node, h, i) {
          SamePrefix(h.addr[i + 1..e], PendingAll(rest), PendingFrom(h, i + 1));
        } else {
          assert e == i + 1 by { NotProper(node, h, i); }
        }
      } else {
        assert [] + rest == rest && [] + PendingFrom(h, i + 1) == PendingFrom(h, i + 1);
      }
    } else {
      PendingNone();
    }
  }

  lemma PendingNone()
    ensures PendingAll([]) == []
  {
  }

  lemma NotProper(node: Node, h: Header, i: nat)
    requires i < |h.addr| && !Proper(node, h, i)
    ensures NextMark(h.rtm, i, |h.addr|) == i + 1
  {
  }

  lemma SamePrefix(a: seq<Addr>, x: seq<Addr>, y: seq<Addr>)
    ensures a + x == a + y <==> x == y
  {
    if a + x == a + y {
      assert x == (a + x)[|a|..] && y == (a + y)[|a|..];
    }
  }

  lemma MarkLong(h: Header, i: nat)
    requires WellFormed(h) && i in h.dlvm
    ensures i + 1 < |h.addr| && i + 1 < NextMark(h.rtm, i, |h.addr|)
  {
    assert i in h.rtm;
  }

  // Every router that is marked for delivery has receivers, or gets a replica all the same.
  ghost predicate AllProper(node: Node, h: Header) {
    forall i | 0 <= i < |h.addr| && i in h.dlvm && i in h.rtm :: Proper(node, h, i)
  }

  lemma ConservedSplit(node: Node, p: Packet)
    requires p.hdr.Some? && Readable(p.hdr.value) && p.plen >= ExtLen(p.hdr.value)
    ensures PendingAll(Split(node, p, 0)) == Pending(p) <==> AllProper(node, p.hdr.value)
  {
    hide Split, PendingAll, PendingFrom, Proper;
    PendingSplit(node, p, 0);
  }

  // Conservation: the receivers pending after a router are those pending before it, in order, if and
  // only if something is marked for delivery, and every marked router is served properly.
  lemma Conserved(node: Node, p: Packet)
    requires InBounds(node, p)
    ensures InBounds(node, Counted(p))
    ensures PendingAll(Received(node, Counted(p))) == Pending(Cleaned(p)) <==>
            !Unmarked(node, p.hdr.value) && AllProper(node, p.hdr.value)
  {
    hide Split, PendingAll, PendingFrom, Readable, NewCheck;
    var q := Counted(p);
    CountedIn(node, p);
    SameMarks(node, p);
    if Unmarked(node, p.hdr.value) {
      UnicastsPending(q, q.hdr.value.addr);
      NonePending(Cleaned(p).hdr.value, 0);
    } else {
      ConservedSplit(node, Cleaned(q));
      SamePending(Cleaned(p).hdr.value, Cleaned(q).hdr.value, 0);
    }
  }

  lemma UnicastsPending(p: Packet, dst: seq<Addr>)
    requires p.hdr.Some? && p.plen >= ExtLen(p.hdr.value)
    ensures PendingAll(Unicasts(p, dst)) == dst
  {
    hide NewCheck;
    PendingUnicasts(Unicasts(p, dst), dst);
  }

  lemma {:induction false} NonePending(h: Header, i: nat)
    requires h.dlvm == {} && i <= |h.addr|
    ensures PendingFrom(h, i) == []
    decreases |h.addr| - i
  {
    if i < |h.addr| {
      NonePending(h, i + 1);
    }
  }

  // Neither counting the hop nor ignoring marks that do not count changes what is served.
  lemma SameMarks(node: Node, p: Packet)
    requires p.hdr.Some?
    ensures var h, h' := p.hdr.value, Counted(p).hdr.value;
            && h'.addr == h.addr && h'.dlvm == h.dlvm && h'.rtm == h.rtm && h'.dsts == h.dsts
            && Cleaned(Counted(p)).hdr.value.dlvm == Cleaned(p).hdr.value.dlvm
            && (Unmarked(node, h) <==> Unmarked(node, h'))
            && (AllProper(node, Cleaned(Counted(p)).hdr.value) <==> AllProper(node, h))
            && (Unmarked(node, h) ==> Cleaned(p).hdr.value.dlvm == {})
  {
    hide NextMark;
  }

  // The header lists router 1 without receivers, and then router 2 with receiver 3.
  function EmptySegment(): Header {
    Header(IPPROTO_UDP, MdcHdrSize(3) / 8 - 1, IPV6_MEADCAST, 3, false, false, 0, {0, 1}, {0, 1}, [1, 2, 3])
  }

  // A router that serves the first segment takes router 2 for a receiver.
  lemma EmptyExample(node: Node, p: Packet)
    requires node.minDsts >= 1 && p.hdr == Some(EmptySegment()) && p.plen >= ExtLen(EmptySegment()) && p.check <= FULL
    ensures InBounds(node, p) && InBounds(node, Counted(p))
    ensures PendingAll(Received(node, Counted(p))) != Pending(Cleaned(p))
  {
    hide Received, PendingAll, Pending, PendingFrom, MdcHdrSize, Unmarked;
    EmptyReadable(p);
    Conserved(node, p);
    assert NextMark({0, 1}, 0, 3) == 1;
    assert !Proper(node, p.hdr.value, 0);
  }

  lemma EmptyReadable(p: Packet)
    requires p.hdr == Some(EmptySegment())
    ensures Cleaned(p) == p && Readable(EmptySegment())
  {
    assert MdcHdrSize(3) % 8 == 0;
    assert Cleaned(p).hdr.value.dlvm == {0, 1};
  }

  // The header lists router 1 with receiver 2, and nothing is marked for delivery any more.
  function NothingMarked(): Header {
    Header(IPPROTO_UDP, MdcHdrSize(2) / 8 - 1, IPV6_MEADCAST, 2, false, false, 0, {}, {0}, [1, 2])
  }

  // A router for which two receivers are too few for a replica sends the packet to both entries.
  lemma UnmarkedExample(node: Node, p: Packet)
    requires node.minDsts >= 3 && p.hdr == Some(NothingMarked()) && p.plen >= ExtLen(NothingMarked()) && p.check <= FULL
    ensures InBounds(node, p) && InBounds(node, Counted(p))
    ensures Pending(Cleaned(p)) == [] && PendingAll(Received(node, Counted(p))) == [1, 2]
  {
    hide PendingAll, PendingFrom, MdcHdrSize, Unicasts;
    CountedIn(node, p);
    SameMarks(node, p);
    NonePending(Cleaned(p).hdr.value, 0);
    UnicastsPending(Counted(p), [1, 2]);
  }

  // What the sender makes is always conserved.
  lemma ConservedWhole(node: Node, p: Packet)
    requires p.hdr.Some? && WellFormed(p.hdr.value) && p.plen >= ExtLen(p.hdr.value) && p.check <= FULL
    ensures InBounds(node, Counted(p)) && PendingAll(Received(node, Counted(p))) == Pending(p)
  {
    hide Received, PendingAll, Pending, Proper;
    ReceivedWhole(node, p);
    Conserved(node, p);
    forall i | 0 <= i < |p.hdr.value.addr| && i in p.hdr.value.dlvm && i in p.hdr.value.rtm
      ensures Proper(node, p.hdr.value, i)
    {
      LongProper(node, p.hdr.value, i);
    }
    assert Cleaned(p) == p by { CleanedWhole(p); }
    SomeMarked(node, p.hdr.value);
  }

  lemma LongProper(node: Node, h: Header, i: nat)
    requires WellFormed(h) && i in h.dlvm && i < |h.addr|
    ensures Proper(node, h, i)
  {
    MarkLong(h, i);
  }

  lemma CleanedWhole(p: Packet)
    requires p.hdr.Some? && WellFormed(p.hdr.value)
    ensures Cleaned(p) == p
  {
    assert Cleaned(p).hdr.value.dlvm == p.hdr.value.dlvm;
  }

  lemma SomeMarked(node: Node, h: Header)
    requires WellFormed(h)
    ensures !Unmarked(node, h)
  {
    var k :| k in h.dlvm;
    assert k < |h.addr| && k in h.rtm;
  }

  lemma {:induction false} SamePending(h: Header, h': Header, i: nat)
    requires h'.addr == h.addr && h'.dlvm == h.dlvm && h'.rtm == h.rtm && i <= |h.addr|
    ensures PendingFrom(h', i) == PendingFrom(h, i)
    decreases |h.addr| - i
  {
    if i < |h.addr| {
      SamePending(h, h', i + 1);
    }
  }

  // A packet that a router made out of `p`: a unicast packet for a receiver, or a replica with one
  // router left to serve and an unchanged router bitmap and address list.
  ghost predicate MadeFrom(p: Packet, q: Packet) {
    && Sane(q) && q.check != 0 && q.saddr == p.saddr && q.udp == p.udp && p.hdr.Some?
    && (q.hdr.Some? ==>
          var h := p.hdr.value;
          exists i :: i in h.dlvm && i + 1 < |h.addr| && q.hdr == Some(h.(dlvm := {i})) && q.daddr == h.addr[i + 1])
    && (q.hdr.None? ==> q.daddr in Pending(p))
  }

  lemma MadeServe(node: Node, p: Packet, i: nat, q: Packet)
    requires p.hdr.Some? && Sane(p) && i in p.hdr.value.dlvm && i + 1 < NextMark(p.hdr.value.rtm, i, |p.hdr.value.addr|)
    requires i < |p.hdr.value.addr| && q in Serve(node, p, i, NextMark(p.hdr.value.rtm, i, |p.hdr.value.addr|))
    requires forall d | d in p.hdr.value.addr[i + 1..NextMark(p.hdr.value.rtm, i, |p.hdr.value.addr|)] ::
             d in Pending(p)
    ensures MadeFrom(p, q)
  {
    hide NewCheck, ValidCheck, Pending;
    var h := p.hdr.value;
    var e := NextMark(h.rtm, i, |h.addr|);
    UpdateValid(p.saddr, p.daddr, q.daddr, p.udp, p.check);
    MadeServed(node, p, i, e, q);
    if q.hdr.None? {
      assert q.daddr in h.addr[i + 1..e];
    } else {
      NewWellFormed(h, i);
    }
  }

  lemma MadeServed(node: Node, p: Packet, i: nat, e: nat, q: Packet)
    requires p.hdr.Some? && p.plen >= ExtLen(p.hdr.value) && i + 1 < e <= |p.hdr.value.addr|
        && q in Serve(node, p, i, e)
    ensures q == Replica(p, i) || (q == Unicast(p, q.daddr) && q.daddr in p.hdr.value.addr[i + 1..e])
  {
    hide NewCheck;
    var a, ps := p.hdr.value.addr, Serve(node, p, i, e);
    if e - i - 1 < node.minDsts || a[i] in node.local {
      var k :| 0 <= k < |ps| && ps[k] == q;
      assert a[i + 1..e][k] == a[i + 1 + k];
    }
  }

  lemma NewWellFormed(h: Header, i: nat)
    requires WellFormed(h) && i in h.dlvm
    ensures WellFormed(h.(dlvm := {i})) && ExtLen(h.(dlvm := {i})) == ExtLen(h)
  {
  }

  lemma {:induction false} PendingHas(h: Header, k: nat, i: nat, d: Addr)
    requires k <= i < |h.addr| && i in h.dlvm && d in h.addr[i + 1..NextMark(h.rtm, i, |h.addr|)]
    ensures d in PendingFrom(h, k)
    decreases i - k
  {
    if k < i {
      PendingHas(h, k + 1, i, d);
    }
  }

  // Every packet a router sends is sane, and has a checksum other than 0.
  lemma {:induction false} MadeSplit(node: Node, p: Packet, i: nat, q: Packet)
    requires p.hdr.Some? && Sane(p) && i <= |p.hdr.value.addr| && q in Split(node, p, i)
    ensures MadeFrom(p, q)
    decreases |p.hdr.value.addr| - i
  {
    hide Serve, MadeFrom, WellFormed, ValidCheck;
    var h := p.hdr.value;
    if i in h.dlvm {
      MarkLong(h, i);
      var e := NextMark(h.rtm, i, |h.addr|);
      if q in Serve(node, p, i, e) {
        forall d | d in h.addr[i + 1..e] ensures d in Pending(p) {
          PendingHas(h, 0, i, d);
        }
        MadeServe(node, p, i, q);
      } else {
        MadeSplit(node, p, i + 1, q);
      }
    } else {
      MadeSplit(node, p, i + 1, q);
    }
  }

  // A segment travels on as a whole: it has enough receivers for a replica, and its router is another one.
  predicate Stays(node: Node, s: Seg) {
    |s.dst| >= node.minDsts && s.rt !in node.local
  }

  // Where the segment at position `i` goes: to its receivers or, without any, to the entry behind its router.
  function Behind(h: Header, i: nat): (dst: seq<Addr>)
    requires i + 1 < |h.addr|
    ensures dst != []
  {
    var s := SegAt(h.addr, h.rtm, i);
    if s.dst == [] then [h.addr[i + 1]] else s.dst
  }

  // In a packet as the sender makes it, these are the receivers.
  lemma BehindWhole(h: Header, i: nat)
    requires WellFormed(h) && i in h.dlvm
    ensures i + 1 < |h.addr| && Behind(h, i) == SegAt(h.addr, h.rtm, i).dst
  {
    MarkLong(h, i);
  }

  // Headers and destinations of packets.
  function Outline(ps: seq<Packet>): (o: seq<(Option<Header>, Addr)>)
    ensures |o| == |ps| && forall k | 0 <= k < |ps| :: o[k] == (ps[k].hdr, ps[k].daddr)
  {
    if ps == [] then [] else [(ps[0].hdr, ps[0].daddr)] + Outline(ps[1..])
  }

  // One packet without header for each of `dst`.
  function Plainly(dst: seq<Addr>): (o: seq<(Option<Header>, Addr)>)
    ensures |o| == |dst| && forall k | 0 <= k < |dst| :: o[k] == (None, dst[k])
  {
    if dst == [] then [] else [(None, dst[0])] + Plainly(dst[1..])
  }

  // What is to be sent for the segment at position `i`: one replica, in which only this segment is marked, if
  // it travels on, and otherwise one packet without header for each receiver.
  function Parts(node: Node, h: Header, i: nat): seq<(Option<Header>, Addr)>
    requires i + 1 < |h.addr|
  {
    if Stays(node, SegAt(h.addr, h.rtm, i)) then [(Some(h.(dlvm := {i})), Behind(h, i)[0])]
    else Plainly(Behind(h, i))
  }

  // What is to be sent for the marked segments that can be read from position `i` on.
  function Expected(node: Node, h: Header, i: nat): seq<(Option<Header>, Addr)>
    requires i <= |h.addr| && forall k | k in h.dlvm :: k + 1 < |h.addr|
    decreases |h.addr| - i
  {
    if i == |h.addr| then []
    else (if i in h.dlvm then Parts(node, h, i) else []) + Expected(node, h, i + 1)
  }

  lemma ServeOutline(node: Node, p: Packet, i: nat)
    requires p.hdr.Some? && p.plen >= ExtLen(p.hdr.value) && i + 1 < |p.hdr.value.addr|
    ensures var h := p.hdr.value;
            Outline(Serve(node, p, i, NextMark(h.rtm, i, |h.addr|))) == Parts(node, h, i)
  {
    hide NewCheck;
    var h := p.hdr.value;
    var j := NextMark(h.rtm, i, |h.addr|);
    assert SegAt(h.addr, h.rtm, i).dst == h.addr[i + 1..j];
    var ps := Serve(node, p, i, j);
    if !Stays(node, SegAt(h.addr, h.rtm, i)) {
      assert ps == Unicasts(p, Behind(h, i));
      assert Outline(ps) == Plainly(Behind(h, i));
    }
  }

  lemma OutlineConcat(a: seq<Packet>, b: seq<Packet>)
    ensures Outline(a + b) == Outline(a) + Outline(b)
  {
  }

  lemma {:induction false} SplitOutline(node: Node, p: Packet, i: nat)
    requires p.hdr.Some? && Readable(p.hdr.value) && p.plen >= ExtLen(p.hdr.value) && i <= |p.hdr.value.addr|
    ensures Outline(Split(node, p, i)) == Expected(node, p.hdr.value, i)
    decreases |p.hdr.value.addr| - i
  {
    hide Serve, Outline, Parts, MdcHdrSize;
    var h := p.hdr.value;
    if i < |h.addr| {
      SplitOutline(node, p, i + 1);
      var rest := Split(node, p, i + 1);
      if i in h.dlvm {
        ServeOutline(node, p, i);
        OutlineConcat(Serve(node, p, i, NextMark(h.rtm, i, |h.addr|)), rest);
      } else {
        assert [] + rest == rest && [] + Expected(node, h, i + 1) == Expected(node, h, i + 1);
      }
    } else {
      assert Split(node, p, i) == [];
      assert Outline([]) == [];
    }
  }

  // What a router sends for any packet that it reads within bounds, in terms of the segments that can be read.
  lemma ReceivedOutline(node: Node, p: Packet)
    requires InBounds(node, p)
    ensures Cleaned(p).hdr.Some?
    ensures var h := Cleaned(p).hdr.value;
            if Unmarked(node, p.hdr.value) then Outline(Received(node, p)) == Plainly(h.addr)
            else Readable(h) && Outline(Received(node, p)) == Expected(node, h, 0)
  {
    hide Split, Expected, Unmarked, Readable, Outline, Plainly, Unicasts;
    if !Unmarked(node, p.hdr.value) {
      SplitOutline(node, Cleaned(p), 0);
    } else {
      assert Outline(Received(node, p)) == Plainly(p.hdr.value.addr);
    }
  }

  // What is sent for the segment at position `k`, as a set.
  ghost predicate Sends(node: Node, h: Header, k: nat, o: (Option<Header>, Addr))
    requires k + 1 < |h.addr|
  {
    if Stays(node, SegAt(h.addr, h.rtm, k)) then o == (Some(h.(dlvm := {k})), h.addr[k + 1])
    else o.0 == None && o.1 in Behind(h, k)
  }

  lemma PartsWhich(node: Node, h: Header, i: nat, o: (Option<Header>, Addr))
    requires i + 1 < |h.addr|
    ensures o in Parts(node, h, i) <==> Sends(node, h, i, o)
  {
    PlainlyHas(Behind(h, i), o);
  }

  lemma PlainlyHas(dst: seq<Addr>, o: (Option<Header>, Addr))
    ensures o in Plainly(dst) <==> o.0 == None && o.1 in dst
  {
    if o.0 == None && o.1 in dst {
      var k :| 0 <= k < |dst| && dst[k] == o.1;
      assert Plainly(dst)[k] == o;
    }
  }

  // The packets with a header are exactly the replicas for the segments that travel on, and those without
  // one go exactly to the receivers of the others.
  lemma {:induction false} ExpectedWhich(node: Node, h: Header, i: nat, o: (Option<Header>, Addr))
    requires i <= |h.addr| && forall k | k in h.dlvm :: k + 1 < |h.addr|
    ensures o in Expected(node, h, i) <==> exists k :: i <= k < |h.addr| && k in h.dlvm && Sends(node, h, k, o)
    decreases |h.addr| - i
  {
    hide Sends, Parts;
    if i < |h.addr| {
      ExpectedWhich(node, h, i + 1, o);
      if i in h.dlvm { PartsWhich(node, h, i, o); }
    }
  }

  // When something is marked, a router makes a replica for a marked segment if and only if the segment travels
  // on, and sends a packet without header to a receiver if and only if it is one of a segment that does not.
  lemma ReceivedWhich(node: Node, p: Packet, o: (Option<Header>, Addr))
    requires InBounds(node, p) && !Unmarked(node, p.hdr.value)
    ensures Cleaned(p).hdr.Some?
    ensures var h := Cleaned(p).hdr.value;
            (exists q :: q in Received(node, p) && (q.hdr, q.daddr) == o) <==>
            exists k :: 0 <= k && k + 1 < |h.addr| && k in h.dlvm && Sends(node, h, k, o)
  {
    hide Received, Expected, Sends, Cleaned, Unmarked, InBounds;
    ReceivedOutline(node, p);
    ExpectedWhich(node, Cleaned(p).hdr.value, 0, o);
    var ps := Received(node, p);
    if o in Outline(ps) {
      var k :| 0 <= k < |ps| && Outline(ps)[k] == o;
      assert ps[k] in ps;
    }
    if q :| q in ps && (q.hdr, q.daddr) == o {
      var k :| 0 <= k < |ps| && ps[k] == q;
      assert Outline(ps)[k] == o;
    }
  }
}
