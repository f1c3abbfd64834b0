// The MEADcast data header: the segments a sender encodes and the positions a router reads.
module Header {
  import opened Base

  const BITMAP_LIMIT: nat := 32
  const IPPROTO_UDP: nat := 17
  const IPV6_MEADCAST: nat := 253

  // One designated router with the receivers it serves.
  datatype Seg = Seg(rt: Addr, dst: seq<Addr>)

  // Header fields. A bitmap is the set of the positions whose bit is set: position i is bit 31 - i.
  datatype Header = Header(nxt: nat, len: nat, typ: nat, dsts: nat, dcv: bool, rsp: bool,
                           hops: nat, dlvm: set<nat>, rtm: set<nat>, addr: seq<Addr>)

  // The address list of a group of segments.
  function Flat(g: seq<Seg>): seq<Addr> {
    if g == [] then [] else Flat(g[..|g| - 1]) + [g[|g| - 1].rt] + g[|g| - 1].dst
  }

  // The positions of the routers in that list.
  function Marks(g: seq<Seg>): (m: set<nat>)
    ensures forall i :: i in m ==> i < |Flat(g)|
  {
    if g == [] then {} else Marks(g[..|g| - 1]) + {|Flat(g[..|g| - 1])|}
  }

  // The receivers of a group, in order.
  function Rcv(g: seq<Seg>): seq<Addr> {
    if g == [] then [] else Rcv(g[..|g| - 1]) + g[|g| - 1].dst
  }

  function MdcHdrSize(n: nat): nat {
    var pl := 16 + n * 16;
    pl + (8 - pl % 8) % 8
  }

  // Length fields are 8 bits wide.
  function SetDataHdr(addrs: seq<Addr>, bm: set<nat>): Header {
    Header(IPPROTO_UDP, (MdcHdrSize(|addrs|) / 8 - 1) % 256, IPV6_MEADCAST, |addrs| % 256,
           false, false, 0, bm, bm, addrs)
  }

  // The header length in bytes that a router derives from the Hdr Ext Len field.
  function ExtLen(h: Header): nat {
    (h.len + 1) * 8
  }

  // The first router position after `i`, or `n` when there is none.
  function NextMark(m: set<nat>, i: nat, n: nat): (e: nat)
    requires i < n
    ensures i < e <= n && (e < n ==> e in m)
    ensures forall k :: i < k < e ==> k !in m
    decreases n - i
  {
    if i + 1 == n || i + 1 in m then i + 1 else NextMark(m, i + 1, n)
  }

  // The segment that starts at position `i` of a header.
  function SegAt(addr: seq<Addr>, m: set<nat>, i: nat): Seg
    requires i < |addr|
  {
    Seg(addr[i], addr[i + 1..NextMark(m, i, |addr|)])
  }

  // What a router reads from a header: the segment of every router position from `i` on.
  function Decode(addr: seq<Addr>, m: set<nat>, i: nat): seq<Seg>
    requires i <= |addr|
    decreases |addr| - i
  {
    if i == |addr| then []
    else if i in m then [SegAt(addr, m, i)] + Decode(addr, m, i + 1)
    else Decode(addr, m, i + 1)
  }

  lemma FlatSnoc(g: seq<Seg>, s: Seg)
    ensures Flat(g + [s]) == Flat(g) + [s.rt] + s.dst
    ensures Marks(g + [s]) == Marks(g) + {|Flat(g)|}
    ensures Rcv(g + [s]) == Rcv(g) + s.dst
  {
    assert (g + [s])[..|g + [s]| - 1] == g;
  }

  // The positions in a group's list: a group's k-th segment starts where the first k segments end.
  lemma {:induction false} Offsets(g: seq<Seg>, k: nat)
    requires k < |g|
    ensures |Flat(g[..k])| + 1 + |g[k].dst| == |Flat(g[..k + 1])| <= |Flat(g)|
    ensures Flat(g)[..|Flat(g[..k + 1])|] == Flat(g[..k]) + [g[k].rt] + g[k].dst
    ensures |Flat(g[..k])| in Marks(g)
    ensures forall i :: |Flat(g[..k])| < i < |Flat(g[..k + 1])| ==> i !in Marks(g)
  {
    var h := g[..|g| - 1];
    assert g[..k + 1][..k] == g[..k];
    if k == |g| - 1 {
      assert g[..k + 1] == g;
    } else {
      Offsets(h, k);
      assert h[..k] == g[..k] && h[..k + 1] == g[..k + 1];
    }
  }

  lemma NextMarkIs(m: set<nat>, i: nat, n: nat, e: nat)
    requires i < e <= n && (e < n ==> e in m)
    requires forall k :: i < k < e ==> k !in m
    ensures NextMark(m, i, n) == e
  {
  }

  // The router reads the k-th segment at its position.
  lemma SegAtOffset(g: seq<Seg>, k: nat)
    requires k < |g|
    ensures |Flat(g[..k])| < |Flat(g[..k + 1])| <= |Flat(g)|
    ensures SegAt(Flat(g), Marks(g), |Flat(g[..k])|) == g[k]
    ensures NextMark(Marks(g), |Flat(g[..k])|, |Flat(g)|) == |Flat(g[..k + 1])|
  {
    Offsets(g, k);
    var a, i, e := Flat(g), |Flat(g[..k])|, |Flat(g[..k + 1])|;
    if k + 1 < |g| { Offsets(g, k + 1); } else { assert g[..k + 1] == g; }
    NextMarkIs(Marks(g), i, |a|, e);
    assert a[i] == a[..e][i];
    assert a[i + 1..e] == a[..e][i + 1..];
  }

  // Reading a header from a segment boundary on gives back the remaining segments.
  lemma {:induction false} DecodeFrom(g: seq<Seg>, k: nat)
    requires k <= |g|
    ensures |Flat(g[..k])| <= |Flat(g)|
    ensures Decode(Flat(g), Marks(g), |Flat(g[..k])|) == g[k..]
    decreases |g| - k
  {
    hide Flat, Marks, NextMark;
    if k == |g| {
      assert g[..k] == g;
    } else {
      var i, e := |Flat(g[..k])|, |Flat(g[..k + 1])|;
      SegAtOffset(g, k);
      Offsets(g, k);
      DecodeFrom(g, k + 1);
      SkipReceivers(Flat(g), Marks(g), i + 1, e);
      assert g[k..] == [g[k]] + g[k + 1..];
    }
  }

  lemma {:induction false} SkipReceivers(a: seq<Addr>, m: set<nat>, i: nat, e: nat)
    requires i <= e <= |a| && forall k :: i <= k < e ==> k !in m
    ensures Decode(a, m, i) == Decode(a, m, e)
    decreases e - i
  {
    if i < e {
      SkipReceivers(a, m, i + 1, e);
    }
  }

  // Round trip: a router reads from a header exactly the segments the sender encoded, in order.
  lemma RoundTrip(g: seq<Seg>)
    ensures var h := SetDataHdr(Flat(g), Marks(g));
            Decode(h.addr, h.rtm, 0) == g && h.dlvm == h.rtm
  {
    DecodeFrom(g, 0);
    assert g[..0] == [];
  }

  // The 8-bit length fields hold every list a header can carry, and the router derives from the
  // header length the size the sender wrote.
  lemma LengthAgrees(addrs: seq<Addr>, bm: set<nat>)
    requires |addrs| <= BITMAP_LIMIT
    ensures var h := SetDataHdr(addrs, bm);
            h.dsts == |addrs| && ExtLen(h) == MdcHdrSize(h.dsts) == 16 + 16 * |addrs|
  {
  }

  // A new header has counted no hops, is no packet of discovery, and is to be delivered at all its routers.
  lemma NewData(addrs: seq<Addr>, bm: set<nat>)
    ensures var h := SetDataHdr(addrs, bm);
            h.hops == 0 && !h.dcv && !h.rsp && h.addr == addrs && h.dlvm == h.rtm == bm && h.nxt == IPPROTO_UDP
  {
  }
}
