// What the sender transmits for a group: one packet per header, and one per unicast receiver.
module Transmit {
  import opened Base
  import opened Header
  import opened Checksum
  import opened Plane
  import opened Packing

  // The packet with MEADcast header `h`, addressed to the first receiver of its first router.
  function MdcPacket(sa: Addr, h: Header, udp: Segment): Packet
    requires |h.addr| >= 2
  {
    Packet(sa, h.addr[1], IPPROTO_ROUTING, MdcHdrSize(h.dsts) + |udp|, Some(h),
           FULL - Folded(Total(sa, h.addr[1], udp)), udp)
  }

  function UniPacket(sa: Addr, d: Addr, udp: Segment): Packet {
    Packet(sa, d, IPPROTO_UDP, |udp|, None, FULL - Folded(Total(sa, d, udp)), udp)
  }

  // A header list as the sender keeps it: every header holds as many addresses as it counts.
  ghost predicate Counting(mdc: seq<Header>) {
    forall i | 0 <= i < |mdc| :: mdc[i].dsts == |mdc[i].addr|
  }

  // The packets for a list of headers; a header with less than two entries is skipped.
  function MdcPackets(sa: Addr, mdc: seq<Header>, udp: Segment): seq<Packet>
    requires Counting(mdc)
  {
    if mdc == [] then []
    else
      var n := |mdc| - 1;
      MdcPackets(sa, mdc[..n], udp) + if mdc[n].dsts < 2 then [] else [MdcPacket(sa, mdc[n], udp)]
  }

  function UniPackets(sa: Addr, uni: seq<Addr>, udp: Segment): seq<Packet> {
    if uni == [] then [] else UniPackets(sa, uni[..|uni| - 1], udp) + [UniPacket(sa, uni[|uni| - 1], udp)]
  }

  // The headers that are long enough to be sent.
  function Long(mdc: seq<Header>): (r: seq<Header>)
    ensures forall h :: h in r <==> h in mdc && |h.addr| >= 2
    ensures (forall h | h in mdc :: |h.addr| >= 2) ==> r == mdc
  {
    if mdc == [] then []
    else
      var n := |mdc| - 1;
      assert mdc == mdc[..n] + [mdc[n]];
      Long(mdc[..n]) + if |mdc[n].addr| < 2 then [] else [mdc[n]]
  }

  // `p` carries header `h` and payload `udp` to the first receiver of the first router.
  ghost predicate Carries(p: Packet, sa: Addr, h: Header, udp: Segment) {
    && |h.addr| >= 2 && p.saddr == sa && p.daddr == h.addr[1] && p.hdr == Some(h) && p.udp == udp
    && p.nxt == IPPROTO_ROUTING && p.plen == 16 + 16 * |h.addr| + |udp| && ValidCheck(sa, h.addr[1], udp, p.check)
  }

  lemma LongNext(mdc: seq<Header>, i: nat)
    requires i < |mdc|
    ensures Long(mdc[..i + 1]) == Long(mdc[..i]) + if |mdc[i].addr| < 2 then [] else [mdc[i]]
  {
    assert mdc[..i + 1][..i] == mdc[..i];
  }

  lemma MdcNext(sa: Addr, mdc: seq<Header>, i: nat, udp: Segment)
    requires Counting(mdc) && i < |mdc|
    ensures Counting(mdc[..i + 1]) && Counting(mdc[..i])
    ensures MdcPackets(sa, mdc[..i + 1], udp) ==
            MdcPackets(sa, mdc[..i], udp) + if mdc[i].dsts < 2 then [] else [MdcPacket(sa, mdc[i], udp)]
  {
    assert mdc[..i + 1][..i] == mdc[..i];
  }

  lemma MdcNone(sa: Addr, udp: Segment)
    ensures MdcPackets(sa, [], udp) == [] && Long([]) == []
  {
  }

  method TxMdc(sa: Addr, mdc: seq<Header>, udp: Segment) returns (out: seq<Packet>)
    requires Counting(mdc)
    ensures out == MdcPackets(sa, mdc, udp)
    ensures |out| == |Long(mdc)| && forall k | 0 <= k < |out| :: Carries(out[k], sa, Long(mdc)[k], udp)
  {
    hide MdcPackets, ValidCheck, Total, Folded, Long;
    MdcNone(sa, udp);
    out := [];
    var i := 0;
    while i < |mdc|
      invariant 0 <= i <= |mdc| && Counting(mdc[..i]) && out == MdcPackets(sa, mdc[..i], udp)
      invariant |out| == |Long(mdc[..i])|
      invariant forall k | 0 <= k < |out| :: Carries(out[k], sa, Long(mdc[..i])[k], udp)
    {
      var h := mdc[i];
      LongNext(mdc, i);
      MdcNext(sa, mdc, i, udp);
      if h.dsts >= 2 {
        var hlen := MdcHdrSize(h.dsts);
        var check := SenderCheck(sa, h.addr[1], udp);
        out := out + [Packet(sa, h.addr[1], IPPROTO_ROUTING, hlen + |udp|, Some(h), check, udp)];
      }
      i := i + 1;
    }
    assert mdc[..i] == mdc;
  }

  // Sends a packet with next header `nxt` and payload `data` to every one of `uni`. `check` stands for
  // bytes 6 and 7 of the payload, which only change for UDP.
  method TxUni(sa: Addr, uni: seq<Addr>, nxt: nat, check: nat, data: seq<Byte>) returns (out: seq<Packet>)
    requires nxt == IPPROTO_UDP ==> IsSegment(data)
    ensures nxt == IPPROTO_UDP ==> out == UniPackets(sa, uni, data)
    ensures |out| == |uni| && Dsts(out) == uni
    ensures forall i | 0 <= i < |uni| :: out[i].saddr == sa && out[i].daddr == uni[i]
    ensures forall i | 0 <= i < |uni| ::
              out[i].nxt == nxt && out[i].udp == data && out[i].plen == |data| && out[i].hdr == None
    ensures forall i | 0 <= i < |uni| ::
              if nxt == IPPROTO_UDP then ValidCheck(sa, uni[i], data, out[i].check) else out[i].check == check
  {
    hide ValidCheck, UniPackets, Dsts, Total, Folded;
    out := [];
    var i := 0;
    if nxt == IPPROTO_UDP { UniNone(sa, data); }
    while i < |uni|
      invariant 0 <= i <= |uni| && |out| == i
      invariant nxt == IPPROTO_UDP ==> out == UniPackets(sa, uni[..i], data)
      invariant forall j | 0 <= j < i :: out[j] == Packet(sa, uni[j], nxt, |data|, None, out[j].check, data)
      invariant forall j | 0 <= j < i ::
                  if nxt == IPPROTO_UDP then ValidCheck(sa, uni[j], data, out[j].check) else out[j].check == check
    {
      var c := check;
      if nxt == IPPROTO_UDP {
        c := SenderCheck(sa, uni[i], data);
        UniNext(sa, uni, i, data, c);
      }
      out := out + [Packet(sa, uni[i], nxt, |data|, None, c, data)];
      i := i + 1;
    }
    assert uni[..i] == uni;
    DstsAre(out, uni);
  }

  lemma UniNone(sa: Addr, udp: Segment)
    ensures UniPackets(sa, [], udp) == []
  {
  }

  lemma UniNext(sa: Addr, uni: seq<Addr>, i: nat, udp: Segment, c: nat)
    requires i < |uni| && c == FULL - Folded(Total(sa, uni[i], udp))
    ensures UniPackets(sa, uni[..i + 1], udp) ==
            UniPackets(sa, uni[..i], udp) + [Packet(sa, uni[i], IPPROTO_UDP, |udp|, None, c, udp)]
  {
    assert uni[..i + 1][..i] == uni[..i];
  }

  // The destinations of packets.
  function Dsts(ps: seq<Packet>): (d: seq<Addr>)
    ensures |d| == |ps|
  {
    if ps == [] then [] else Dsts(ps[..|ps| - 1]) + [ps[|ps| - 1].daddr]
  }

  // What is sent by unicast, whatever its protocol, goes to the unicast receivers in order.
  lemma {:induction false} DstsAre(ps: seq<Packet>, uni: seq<Addr>)
    requires |ps| == |uni| && forall i | 0 <= i < |uni| :: ps[i].daddr == uni[i]
    ensures Dsts(ps) == uni
  {
    if ps != [] {
      DstsAre(ps[..|ps| - 1], uni[..|uni| - 1]);
    }
  }

  // The space that is reserved in front of the payload holds every header of a group.
  lemma HeaderFits(cfg: Config, h: Header)
    requires h.dsts <= Capacity(cfg)
    ensures MdcHdrSize(h.dsts) <= MdcHdrSize(cfg.maxAddrs)
  {
  }

  // The sender's checksums are valid.
  lemma SenderValid(sa: Addr, d: Addr, udp: Segment)
    ensures ValidCheck(sa, d, udp, FULL - Folded(Total(sa, d, udp)))
  {
    Complement(Total(sa, d, udp));
  }
}
