// The UDP checksum: the sender's full computation over bytes, and a router's incremental update with
// 32-bit ones'-complement arithmetic. Section 1 of RFC 1071, section 3 of RFC 1624 and section 8.1
// of RFC 8200.
module Checksum {
  import opened Base

  type Byte = b: nat | b < 256

  const WORD: nat := 0x1_0000
  const FULL: nat := 0xFFFF
  const WRAP: nat := 0x1_0000_0000

  const UDP_PROTO: nat := 17
  const CSUM_MANGLED_0: nat := 0xFFFF

  // The sum of the 16-bit big-endian words of `b`; an odd last byte counts as the high half of a word.
  function WordSum(b: seq<Byte>): nat {
    if b == [] then 0
    else
      var n := |b| - 1;
      WordSum(b[..n]) + if n % 2 == 1 then b[n] as nat else b[n] as nat * 256
  }

  lemma {:induction false} WordSumBound(b: seq<Byte>)
    ensures WordSum(b) <= |b| / 2 * FULL + if |b| % 2 == 1 then 0xFF00 else 0
  {
    if b != [] {
      WordSumBound(b[..|b| - 1]);
    }
  }

  // A sum reduced to 16 bits: 0 stays 0, and every other multiple of 0xFFFF becomes 0xFFFF.
  function Folded(s: nat): (r: nat)
    ensures r <= FULL && r % FULL == s % FULL && (r == 0 <==> s == 0)
  {
    if s == 0 then 0 else 1 + (s - 1) % FULL
  }

  method NetChecksumAdd(len: nat, buf: seq<Byte>) returns (sum: nat)
    requires len <= |buf|
    ensures sum == WordSum(buf[..len]) % WRAP
    ensures len <= 0x1_FFFE ==> sum == WordSum(buf[..len])
  {
    hide WordSum;
    sum := 0;
    WordSumNone(buf);
    var i := 0;
    while i < len
      invariant 0 <= i <= len && sum == WordSum(buf[..i]) % WRAP
    {
      WordSumNext(buf, i);
      WrapAdd(WordSum(buf[..i]), if i % 2 == 1 then buf[i] as nat else buf[i] as nat * 256);
      if i % 2 == 1 {
        sum := (sum + buf[i] as nat) % WRAP;
      } else {
        sum := (sum + buf[i] as nat * 256) % WRAP;
      }
      i := i + 1;
    }
    WordSumBound(buf[..len]);
  }

  lemma WrapAdd(a: nat, x: nat)
    ensures (a % WRAP + x) % WRAP == (a + x) % WRAP
  {
  }

  lemma WordSumNone(buf: seq<Byte>)
    ensures WordSum(buf[..0]) == 0
  {
  }

  lemma WordSumNext(buf: seq<Byte>, i: nat)
    requires i < |buf|
    ensures WordSum(buf[..i + 1]) == WordSum(buf[..i]) + if i % 2 == 1 then buf[i] as nat else buf[i] as nat * 256
  {
    assert buf[..i + 1][..i] == buf[..i];
  }

  method NetChecksumFinish(sum: nat) returns (r: nat)
    requires sum < WRAP
    ensures r == FULL - Folded(sum)
  {
    var s: nat := sum;
    while s / WORD != 0
      invariant s < WRAP && s % FULL == sum % FULL && (s == 0 <==> sum == 0)
      decreases s
    {
      FoldStep(s);
      s := s % WORD + s / WORD;
    }
    assert s <= FULL;
    SameFolded(s, sum);
    r := FULL - s;
  }

  lemma FoldStep(s: nat)
    ensures (s % WORD + s / WORD) % FULL == s % FULL
    ensures s >= WORD ==> 0 < s % WORD + s / WORD < s
  {
    var q, r := s / WORD, s % WORD;
    assert s == q * FULL + (q + r);
    AddMultiple(q + r, q);
  }

  lemma AddMultiple(x: nat, k: nat)
    ensures (x + k * FULL) % FULL == x % FULL
  {
    var d := x / FULL;
    assert x + k * FULL == (d + k) * FULL + x % FULL;
  }

  // A number of at most 16 bits is determined by its remainder and by whether it is 0.
  lemma SameFolded(s: nat, sum: nat)
    requires s <= FULL && s % FULL == sum % FULL && (s == 0 <==> sum == 0)
    ensures s == Folded(sum)
  {
  }

  // The bytes of an address.
  function BytesOf(a: nat, n: nat): (b: seq<Byte>)
    ensures |b| == n
  {
    if n == 0 then [] else BytesOf(a / 256, n - 1) + [a % 256]
  }

  function AddrBytes(a: Addr): (b: seq<Byte>)
    ensures |b| == 16
  {
    BytesOf(a, 16)
  }

  // What is sent as a UDP segment: at least a UDP header, in which bytes 4 and 5 hold a length that lies
  // within the data.
  predicate IsSegment(u: seq<Byte>) {
    |u| >= 8 && u[4] as nat * 256 + u[5] as nat <= |u|
  }

  type Segment = u: seq<Byte> | IsSegment(u) witness [0, 0, 0, 0, 0, 8, 0, 0]

  function UdpLen(udp: Segment): (n: nat)
    ensures n <= |udp| && n <= FULL
  {
    udp[4] as nat * 256 + udp[5] as nat
  }

  // Bytes 6 and 7 hold the checksum, high byte first.
  function WithCheck(udp: Segment, c: nat): (b: Segment)
    requires c <= FULL
    ensures |b| == |udp| && UdpLen(b) == UdpLen(udp) && forall i | 0 <= i < |udp| && i != 6 && i != 7 :: b[i] == udp[i]
  {
    udp[6 := c / 256][7 := c % 256]
  }

  // What a UDP segment sums up to, with its pseudo-header: as many bytes as its length field says.
  function Summed(src: Addr, dst: Addr, udp: Segment): (s: nat)
    ensures s >= UDP_PROTO
  {
    WordSum(udp[..UdpLen(udp)]) + WordSum(AddrBytes(src)) + WordSum(AddrBytes(dst)) + UDP_PROTO + UdpLen(udp)
  }

  // The pseudo-header of a segment of `n` bytes: addresses, the length in 32 bits, and the next header in the
  // last of 32 further ones.
  function PseudoHeader(src: Addr, dst: Addr, n: nat): (b: seq<Byte>)
    requires n <= FULL
    ensures |b| == 40
  {
    AddrBytes(src) + AddrBytes(dst) + [0, 0, n / 256, n % 256, 0, 0, 0, UDP_PROTO]
  }

  // The parts are summed up like one packet that starts with the pseudo-header.
  lemma SummedWhole(src: Addr, dst: Addr, udp: Segment)
    ensures Summed(src, dst, udp) == WordSum(PseudoHeader(src, dst, UdpLen(udp)) + udp[..UdpLen(udp)])
  {
    hide WordSum, AddrBytes;
    var n := UdpLen(udp);
    var tail: seq<Byte> := [0, 0, n / 256, n % 256, 0, 0, 0, UDP_PROTO];
    WordSumConcat(AddrBytes(src), AddrBytes(dst));
    WordSumConcat(AddrBytes(src) + AddrBytes(dst), tail);
    WordSumConcat(PseudoHeader(src, dst, n), udp[..n]);
    EightBytes(tail);
  }

  lemma EightBytes(b: seq<Byte>)
    requires |b| == 8
    ensures WordSum(b) == (b[0] as nat + b[2] as nat + b[4] as nat + b[6] as nat) * 256
                       + b[1] as nat + b[3] as nat + b[5] as nat + b[7] as nat
  {
    hide WordSum;
    WordSumNone(b);
    WordSumNext(b, 0);
    WordSumNext(b, 1);
    WordSumNext(b, 2);
    WordSumNext(b, 3);
    WordSumNext(b, 4);
    WordSumNext(b, 5);
    WordSumNext(b, 6);
    WordSumNext(b, 7);
    assert b[..8] == b;
  }

  lemma {:induction false} WordSumConcat(a: seq<Byte>, b: seq<Byte>)
    requires |a| % 2 == 0
    ensures WordSum(a + b) == WordSum(a) + WordSum(b)
  {
    if b == [] {
      assert a + b == a;
    } else {
      var n := |b| - 1;
      assert (a + b)[..|a| + n] == a + b[..n];
      WordSumConcat(a, b[..n]);
    }
  }

  // The same with an empty checksum field.
  function Total(src: Addr, dst: Addr, udp: Segment): (s: nat)
    ensures s >= UDP_PROTO
  {
    Summed(src, dst, WithCheck(udp, 0))
  }

  // The checksum is right: together with it, everything sums up to 0 in ones'-complement.
  ghost predicate ValidCheck(src: Addr, dst: Addr, udp: Segment, check: nat) {
    check <= FULL && (Total(src, dst, udp) + check) % FULL == 0
  }

  method NetChecksumTcpudp(length: nat, npad: nat, proto: nat, src: seq<Byte>, dst: seq<Byte>,
                           buf: seq<Byte>) returns (c: nat)
    requires length <= FULL && npad <= FULL && proto <= FULL && length + npad <= |buf| && |src| == 16 && |dst| == 16
    ensures length + npad <= FULL ==>
              c == FULL - Folded(WordSum(buf[..length + npad]) + WordSum(src) + WordSum(dst) + proto + length)
  {
    hide WordSum, Folded;
    assert src[..16] == src && dst[..16] == dst;
    var sum := NetChecksumAdd(length + npad, buf);
    var s := NetChecksumAdd(16, src);
    sum := (sum + s) % WRAP;
    s := NetChecksumAdd(16, dst);
    sum := (sum + s) % WRAP;
    sum := (sum + (proto + length)) % WRAP;
    if length + npad <= FULL {
      WordSumBound(buf[..length + npad]);
      WordSumBound(src);
      WordSumBound(dst);
      NoWrap(WordSum(buf[..length + npad]), WordSum(src), WordSum(dst), proto + length);
    }
    c := NetChecksumFinish(sum);
  }

  lemma NoWrap(a: nat, b: nat, c: nat, d: nat)
    requires a <= 0x8000 * FULL && b <= 8 * FULL && c <= 8 * FULL && d <= 2 * FULL
    ensures (((a + b) % WRAP + c) % WRAP + d) % WRAP == a + b + c + d < WRAP
  {
  }

  // The checksum the sender writes into a segment, after clearing the field.
  method SenderCheck(src: Addr, dst: Addr, udp: Segment) returns (c: nat)
    ensures c == FULL - Folded(Total(src, dst, udp)) && ValidCheck(src, dst, udp, c)
    ensures c == 0 <==> Total(src, dst, udp) % FULL == 0
  {
    var cleared: Segment := WithCheck(udp, 0);
    var length := cleared[4] as nat * 256 + cleared[5] as nat;
    c := NetChecksumTcpudp(length, 0, UDP_PROTO, AddrBytes(src), AddrBytes(dst), cleared);
    Complement(Total(src, dst, udp));
    TotalFull(Total(src, dst, udp));
  }

  // The sender stores a computed 0 as it is, although 0 means "no checksum": this happens exactly
  // when the total is a multiple of 0xFFFF, as for this segment.
  lemma ZeroExample()
    ensures var udp: Segment := [0xFF, 0xDB, 0, 0, 0, 8, 0, 0];
            Total(1, 2, udp) == FULL && FULL - Folded(Total(1, 2, udp)) == 0
  {
    var u: seq<Byte> := [0xFF, 0xDB, 0, 0, 0, 8, 0, 0];
    hide WordSum, BytesOf;
    WordSumNone(u);
    WordSumNext(u, 0);
    WordSumNext(u, 1);
    WordSumNext(u, 2);
    WordSumNext(u, 3);
    WordSumNext(u, 4);
    WordSumNext(u, 5);
    WordSumNext(u, 6);
    WordSumNext(u, 7);
    assert u[..8] == u && WithCheck(u, 0) == u;
    SmallAddress(1);
    SmallAddress(2);
  }

  lemma SmallAddress(a: Addr)
    requires a < 256
    ensures WordSum(AddrBytes(a)) == a
  {
    assert a / 256 == 0 && a % 256 == a;
    ZeroBytes(15);
    assert BytesOf(a, 16) == BytesOf(0, 15) + [a];
    assert BytesOf(a, 16)[..15] == BytesOf(0, 15);
  }

  lemma {:induction false} ZeroBytes(n: nat)
    ensures WordSum(BytesOf(0, n)) == 0
  {
    if n > 0 {
      ZeroBytes(n - 1);
      assert BytesOf(0, n)[..n - 1] == BytesOf(0, n - 1);
    }
  }

  lemma Complement(s: nat)
    ensures (s + (FULL - Folded(s))) % FULL == 0
  {
    var k := s / FULL;
    if s == 0 {
    } else {
      var r := Folded(s);
      assert (s - r) % FULL == 0 by {
        assert s - r == ((s - 1) / FULL) * FULL;
      }
      assert s + (FULL - r) == ((s - r) / FULL + 1) * FULL;
    }
  }

  lemma {:induction false} WordSumSet(b: seq<Byte>, k: nat, v: Byte)
    requires k < |b|
    ensures WordSum(b[k := v]) + (if k % 2 == 1 then b[k] as nat else b[k] as nat * 256)
         == WordSum(b) + (if k % 2 == 1 then v as nat else v as nat * 256)
  {
    var n := |b| - 1;
    if k == n {
      assert b[k := v][..n] == b[..n];
    } else {
      assert b[k := v][..n] == b[..n][k := v];
      WordSumSet(b[..n], k, v);
    }
  }

  lemma TotalFull(s: nat)
    requires s > 0
    ensures s % FULL == 0 <==> Folded(s) == FULL
  {
  }

  // Whoever sums the segment up again with the stored checksum gets 0xFFFF, whose complement is 0.
  lemma Resum(src: Addr, dst: Addr, udp: Segment, c: nat)
    requires c <= FULL && UdpLen(udp) >= 8
    ensures Summed(src, dst, WithCheck(udp, c)) == Total(src, dst, udp) + c
    ensures ValidCheck(src, dst, udp, c) <==> Folded(Summed(src, dst, WithCheck(udp, c))) == FULL
  {
    hide WordSum, AddrBytes, Folded;
    var n := UdpLen(udp);
    var u := WithCheck(udp, 0)[..n];
    WordSumSet(u, 6, c / 256);
    WordSumSet(u[6 := c / 256], 7, c % 256);
    assert u[6] == 0 && u[7] == 0;
    assert WithCheck(udp, c)[..n] == u[6 := c / 256][7 := c % 256];
    TotalFull(Total(src, dst, udp) + c);
  }

  // 32-bit ones'-complement addition: the carry is added back in.
  function Add32(a: nat, b: nat): (s: nat)
    requires a < WRAP && b < WRAP
    ensures s < WRAP && s % FULL == (a + b) % FULL && (s == 0 <==> a == 0 && b == 0)
  {
    if a + b < WRAP then a + b
    else
      AddMultiple(a + b - WRAP + 1, 0x1_0001);
      a + b - WRAP + 1
  }

  function Not32(a: nat): (s: nat)
    requires a < WRAP
    ensures s < WRAP && (s + a) % FULL == 0
  {
    WRAP - 1 - a
  }

  // The 16-bit words of an address, high word first.
  function WordsOf(a: Addr, n: nat): (w: seq<nat>)
    ensures |w| == n && forall i | 0 <= i < n :: w[i] <= FULL
  {
    if n == 0 then [] else WordsOf(a / WORD, n - 1) + [a % WORD]
  }

  function Sum(w: seq<nat>): nat {
    if w == [] then 0 else Sum(w[..|w| - 1]) + w[|w| - 1]
  }

  // The words of an address and its bytes have the same sum.
  lemma {:induction false} WordsBytes(a: Addr, n: nat)
    ensures Sum(WordsOf(a, n)) == WordSum(BytesOf(a, 2 * n))
  {
    hide WordSum;
    WordSumNone([]);
    if n > 0 {
      TwoBytes(a);
      WordsBytes(a / WORD, n - 1);
      TwoMore(BytesOf(a / 256 / 256, 2 * n - 2), a / 256 % 256, a % 256);
      assert WordsOf(a, n)[..n - 1] == WordsOf(a / WORD, n - 1);
      assert BytesOf(a, 2 * n) == BytesOf(a / 256, 2 * n - 1) + [a % 256];
    }
  }

  lemma TwoBytes(a: nat)
    ensures a / 256 / 256 == a / WORD && a % WORD == a / 256 % 256 * 256 + a % 256
  {
  }

  lemma TwoMore(b: seq<Byte>, hi: Byte, lo: Byte)
    requires |b| % 2 == 0
    ensures WordSum(b + [hi] + [lo]) == WordSum(b) + hi as nat * 256 + lo as nat
  {
    hide WordSum;
    var s := b + [hi] + [lo];
    WordSumNext(s, |b|);
    WordSumNext(s, |b| + 1);
    assert s[..|b|] == b && s[..|b| + 2] == s;
  }

  // Adds 16-bit words to a running 32-bit sum.
  method CsumPartial(w: seq<nat>, sum: nat) returns (s: nat)
    requires sum < WRAP && forall i | 0 <= i < |w| :: w[i] <= FULL
    ensures s < WRAP && s % FULL == (sum + Sum(w)) % FULL
  {
    s := sum;
    var i := 0;
    while i < |w|
      invariant 0 <= i <= |w| && s < WRAP && s % FULL == (sum + Sum(w[..i])) % FULL
    {
      assert w[..i + 1][..i] == w[..i];
      ModAdd(s, sum + Sum(w[..i]), w[i]);
      s := Add32(s, w[i]);
      i := i + 1;
    }
    assert w[..i] == w;
  }

  lemma ModAdd(x: nat, y: nat, k: nat)
    requires x % FULL == y % FULL
    ensures (x + k) % FULL == (y + k) % FULL
  {
    AddMultiple(x % FULL + k, x / FULL);
    AddMultiple(y % FULL + k, y / FULL);
  }

  method CsumSub(a: nat, b: nat) returns (s: nat)
    requires a < WRAP && b < WRAP
    ensures s < WRAP && (s + b) % FULL == a % FULL
  {
    s := Add32(a, Not32(b));
    ModAdd(s, a + Not32(b), b);
    AddMultiple(a, (Not32(b) + b) / FULL);
  }

  // Folds a 32-bit sum to 16 bits and complements it.
  method CsumFold(sum: nat) returns (r: nat)
    requires sum < WRAP
    ensures r <= FULL && (r + sum) % FULL == 0
  {
    var s := sum % WORD + sum / WORD;
    FoldStep(sum);
    FoldStep(s);
    s := s % WORD + s / WORD;
    r := FULL - s;
    ModAdd(s, sum, r);
  }

  // The checksum, other than 0, with which `dst` in place of `daddr` gives the same sum.
  function NewCheck(check: nat, daddr: Addr, dst: Addr): (c: nat)
    ensures 0 < c <= FULL
    ensures (c + WordSum(AddrBytes(dst))) % FULL == (check + WordSum(AddrBytes(daddr))) % FULL
  {
    var new' := WordSum(AddrBytes(dst));
    var x := check + WordSum(AddrBytes(daddr)) + (FULL - new' % FULL);
    var c := if x % FULL == 0 then CSUM_MANGLED_0 else x % FULL;
    ModAdd(c, x, new');
    AddMultiple(check + WordSum(AddrBytes(daddr)), new' / FULL + 1);
    c
  }

  // A router changes the destination address of a packet and updates its checksum accordingly. Zero
  // is replaced by its other representation, as a UDP checksum over IPv6 must not be zero.
  method UpdateCheck(check: nat, daddr: Addr, dst: Addr) returns (c: nat)
    requires check <= FULL
    ensures c == NewCheck(check, daddr, dst)
  {
    hide WordSum, WordsOf, BytesOf, Sum, NewCheck;
    WordsBytes(dst, 8);
    WordsBytes(daddr, 8);
    var sum := CsumPartial(WordsOf(dst, 8), Not32(check));
    var old' := CsumPartial(WordsOf(daddr, 8), 0);
    var diff := CsumSub(sum, old');
    c := CsumFold(diff);
    Incremental(check, WordSum(AddrBytes(daddr)), WordSum(AddrBytes(dst)), sum, old', diff, c);
    if c == 0 { c := CSUM_MANGLED_0; }
    SameCheck(c, NewCheck(check, daddr, dst), WordSum(AddrBytes(dst)));
  }

  lemma SameCheck(c: nat, d: nat, w: nat)
    requires 0 < c <= FULL && 0 < d <= FULL && (c + w) % FULL == (d + w) % FULL
    ensures c == d
  {
    var k := FULL - w % FULL;
    ModAdd(c + w, d + w, k);
    AddMultiple(c, w / FULL + 1);
    AddMultiple(d, w / FULL + 1);
    assert w + k == (w / FULL + 1) * FULL;
    assert c % FULL == d % FULL;
  }

  lemma Incremental(check: nat, w: nat, w': nat, sum: nat, was: nat, diff: nat, c: nat)
    requires check < WRAP && sum % FULL == (Not32(check) + w') % FULL && was % FULL == w % FULL
    requires (diff + was) % FULL == sum % FULL && (c + diff) % FULL == 0
    ensures (c + w') % FULL == (check + w) % FULL
  {
    // c + w' == c + w' + (check + Not32(check)) and so on, modulo 0xFFFF
    ModAdd(was, w, diff);
    ModAdd(sum, Not32(check) + w', check + c);
    ModAdd(diff + w, Not32(check) + w', check + c);
    AddMultiple(c + w', (Not32(check) + check) / FULL);
    AddMultiple(check + w, (c + diff) / FULL);
    assert (Not32(check) + w') + (check + c) == (c + w') + (Not32(check) + check);
    assert (diff + w) + (check + c) == (check + w) + (c + diff);
  }

  // The update keeps a valid checksum valid for the new destination, and agrees with computing it
  // anew, up to the two representations of zero.
  lemma UpdateValid(src: Addr, daddr: Addr, dst: Addr, udp: Segment, check: nat)
    requires ValidCheck(src, daddr, udp, check)
    ensures ValidCheck(src, dst, udp, NewCheck(check, daddr, dst))
    ensures var full := FULL - Folded(Total(src, dst, udp));
            NewCheck(check, daddr, dst) == if full == 0 then CSUM_MANGLED_0 else full
  {
    hide WordSum, NewCheck;
    var c := NewCheck(check, daddr, dst);
    var u := WithCheck(udp, 0);
    var rest := WordSum(u[..UdpLen(u)]) + WordSum(AddrBytes(src)) + UDP_PROTO + UdpLen(u);
    ModAdd(c + WordSum(AddrBytes(dst)), check + WordSum(AddrBytes(daddr)), rest);
    Complement(Total(src, dst, udp));
    OnlyTwo(Total(src, dst, udp), c, FULL - Folded(Total(src, dst, udp)));
  }

  lemma OnlyTwo(s: nat, c: nat, d: nat)
    requires c <= FULL && d <= FULL && (s + c) % FULL == 0 && (s + d) % FULL == 0
    ensures c == d || (c == 0 && d == FULL) || (c == FULL && d == 0)
  {
    var x, y := (s + c) / FULL, (s + d) / FULL;
    assert c - d == (x - y) * FULL;
  }
}
