// How the leaves of several routers are packed behind one router entry (merging), and what a
// group of segments guarantees.
module Packing {
  import opened Base
  import opened Forest
  import opened Header

  datatype Config = Config(maxAddrs: nat, okAddrs: nat, minLeafs: nat, minRouters: nat,
                           splitNodes: bool, mergeRange: nat)

  // The bounds that argument parsing enforces.
  ghost predicate Checked(cfg: Config) {
    cfg.maxAddrs >= 2 && cfg.okAddrs >= 1 && cfg.minLeafs >= 1 && cfg.minRouters >= 1
  }

  function Capacity(cfg: Config): nat {
    if cfg.maxAddrs < BITMAP_LIMIT then cfg.maxAddrs else BITMAP_LIMIT
  }

  // The distance of two hop counts.
  function Dist(x: int, y: int): nat {
    if x < y then y - x else x - y
  }

  // The merging statistics: the closest router, a potential closest router, the position of the
  // closest router in the address list, and the distance of the first router of the segment.
  datatype Merge = Merge(cr: Option<Addr>, pcr: Option<Addr>, icr: nat, init: int)

  const NO_MERGE := Merge(None, None, 0, 0)

  predicate MergeOver(hops: map<Addr, nat>, m: Merge) {
    (m.cr.Some? ==> m.cr.value in hops) && (m.pcr.Some? ==> m.pcr.value in hops)
  }

  predicate Mergeable(range: nat, hops: map<Addr, nat>, m: Merge, r: Addr)
    requires MergeOver(hops, m) && r in hops
  {
    && m.cr.Some?
    && Dist(m.init, hops[r]) <= range
    && Dist(hops[m.cr.value], hops[r]) <= range
  }

  // The statistics with which `r` is served.
  function ResetAt(range: nat, hops: map<Addr, nat>, m: Merge, r: Addr): Merge
    requires MergeOver(hops, m) && r in hops
  {
    if Mergeable(range, hops, m, r) || m.cr.None? then m else NO_MERGE
  }

  // What placing the router entry for the next leaves does: the new statistics, the number of list
  // positions it takes, and the address that is written at position `m.icr`, if any.
  datatype Placed = Placed(m: Merge, offset: nat, write: Option<Addr>)

  function Place(range: nat, hops: map<Addr, nat>, m: Merge, r: Addr, n: nat): Placed
    requires MergeOver(hops, m) && r in hops
  {
    if range == 0 then
      Placed(m.(icr := n), 1, Some(if m.cr.Some? then m.cr.value else r))
    else if m.cr.None? then
      Placed(Merge(Some(r), m.pcr, n, hops[r]), 1, Some(r))
    else if m.pcr.Some? && hops[m.pcr.value] < hops[r] && hops[m.pcr.value] < hops[m.cr.value] then
      Placed(m.(cr := m.pcr, pcr := None), 0, m.pcr)
    else if hops[r] < hops[m.cr.value] then
      Placed(m.(cr := Some(r)), 0, Some(r))
    else
      Placed(m, 0, None)
  }

  // The segments after appending the receivers `dst` of a router that was placed by `p`.
  function Extend(segs: seq<Seg>, p: Placed, dst: seq<Addr>): seq<Seg>
    requires p.offset == 1 ==> p.write.Some?
    requires p.offset != 1 ==> segs != []
  {
    if p.offset == 1 then segs + [Seg(p.write.value, dst)]
    else
      var s := segs[|segs| - 1];
      segs[..|segs| - 1] + [Seg(if p.write.Some? then p.write.value else s.rt, s.dst + dst)]
  }

  ghost predicate Homed(t: Tree, d: Addr) {
    d in t.home && t.home[d].Some? && t.home[d].value in t.parent
  }

  // What one segment guarantees. Its first receiver belongs to the router that opened it. All
  // receivers' routers and the router entry lie within the merge range of that router. When hop
  // counts rise along the tree, the router entry is above every receiver of the segment.
  ghost predicate SegOk(range: nat, t: Tree, s: Seg)
    requires t.hops.Keys == t.parent.Keys
  {
    && |s.dst| > 0 && Homed(t, s.dst[0]) && s.rt in t.parent
    && (var first := t.hops[t.home[s.dst[0]].value];
        && Dist(first, t.hops[s.rt]) <= range
        && forall d :: d in s.dst ==> Homed(t, d) && Dist(first, t.hops[t.home[d].value]) <= range)
    && (range == 0 ==> forall d :: d in s.dst ==> t.home[d].value == s.rt)
    && (Strict(t) ==> forall d :: d in s.dst ==> Anc(t.parent, s.rt, t.home[d].value))
  }

  // All routers of the segment are below `top`.
  ghost predicate Under(t: Tree, top: Addr, s: Seg) {
    Anc(t.parent, top, s.rt) && forall d :: d in s.dst ==> Homed(t, d) && Anc(t.parent, top, t.home[d].value)
  }

  // The statistics `m` are those of the last segment.
  ghost predicate Matches(range: nat, t: Tree, segs: seq<Seg>, m: Merge)
    requires t.hops.Keys == t.parent.Keys
  {
    && MergeOver(t.hops, m)
    && (m.cr.None? ==> m.pcr.None?)
    && (range == 0 || segs == [] ==> m.cr.None?)
    && (m.cr.Some? ==>
          var s := segs[|segs| - 1];
          && s.rt == m.cr.value && m.icr == |Flat(segs[..|segs| - 1])|
          && |s.dst| > 0 && Homed(t, s.dst[0]) && m.init == t.hops[t.home[s.dst[0]].value]
          && (m.pcr.Some? ==> Dist(m.init, t.hops[m.pcr.value]) <= range))
  }

  // The statistics `m` fit the last segment when the traversal stands at router `r`.
  ghost predicate Current(range: nat, t: Tree, r: Addr, segs: seq<Seg>, m: Merge)
    requires t.hops.Keys == t.parent.Keys
  {
    Matches(range, t, segs, m) && (m.cr.Some? && Strict(t) ==> Above(t, r, m))
  }

  // Router `r` is within the range of both the first router and the entry of the last segment.
  ghost predicate Joins(range: nat, t: Tree, segs: seq<Seg>, r: Addr)
    requires t.hops.Keys == t.parent.Keys
  {
    && segs != [] && r in t.hops
    && var s := segs[|segs| - 1];
       && |s.dst| > 0 && Homed(t, s.dst[0]) && s.rt in t.hops
       && t.hops[t.home[s.dst[0]].value] <= t.hops[r] + range && t.hops[r] <= t.hops[t.home[s.dst[0]].value] + range
       && t.hops[s.rt] <= t.hops[r] + range && t.hops[r] <= t.hops[s.rt] + range
  }

  // The receivers `dst` of `r` have been added to `segs`: to the last segment, or as a new one.
  ghost predicate Joined(segs: seq<Seg>, dst: seq<Addr>, segs': seq<Seg>) {
    && segs != [] && |segs'| == |segs| && segs'[..|segs| - 1] == segs[..|segs| - 1]
    && segs'[|segs| - 1].dst == segs[|segs| - 1].dst + dst
  }

  // Exactly when a router shares the entry of the last segment: while statistics are kept, when it is near
  // enough to the first router and to the entry of that segment.
  lemma JoinExactly(range: nat, t: Tree, segs: seq<Seg>, m: Merge, r: Addr, dst: seq<Addr>)
    requires t.hops.Keys == t.parent.Keys && Matches(range, t, segs, m) && r in t.hops
    ensures MergeOver(t.hops, ResetAt(range, t.hops, m, r))
    ensures var p := Place(range, t.hops, ResetAt(range, t.hops, m, r), r, |Flat(segs)|);
            && (p.offset == 1 ==> p.write.Some?) && (p.offset != 1 ==> segs != [])
            && var segs' := Extend(segs, p, dst);
               && (|segs'| == |segs| <==> m.cr.Some? && Joins(range, t, segs, r))
               && (if m.cr.Some? && Joins(range, t, segs, r) then Joined(segs, dst, segs')
                   else segs' == segs + [Seg(r, dst)])
  {
    hide Flat;
  }

  // Router `p` becomes the potential closest router under the same condition.
  lemma CloserExactly(range: nat, t: Tree, segs: seq<Seg>, m: Merge, p: Addr)
    requires t.hops.Keys == t.parent.Keys && Matches(range, t, segs, m) && p in t.hops
    ensures Mergeable(range, t.hops, m, p) <==> m.cr.Some? && Joins(range, t, segs, p)
  {
    hide Flat;
  }

  // The merge step picks the closest to the sender of the entry so far, the potential closest router and
  // the served router, and keeps the entry when none is closer.
  lemma PlaceClosest(range: nat, hops: map<Addr, nat>, m: Merge, r: Addr, n: nat)
    requires range > 0 && MergeOver(hops, m) && r in hops && m.cr.Some?
    ensures var cr, e := m.cr.value, Place(range, hops, m, r, n).m.cr;
            && e.Some? && e.value in hops && (e == m.cr || e == m.pcr || e == Some(r))
            && hops[e.value] <= hops[cr] && hops[e.value] <= hops[r]
            && (m.pcr.Some? ==> hops[e.value] <= hops[m.pcr.value])
            && (hops[e.value] == hops[cr] ==> e == m.cr)
            && (hops[e.value] == hops[r] < hops[cr] ==> e == Some(r))
    ensures var p := Place(range, hops, m, r, n);
            && p.offset == 0 && p.m.icr == m.icr && p.m.init == m.init
            && (p.write == None <==> p.m.cr == m.cr) && (p.write.Some? ==> p.write == p.m.cr)
            && (p.m.pcr == m.pcr || (p.m.pcr == None && p.m.cr == m.pcr))
  {
  }

  // The closest router is above `r`, or else the potential closest router is above both.
  ghost predicate Above(t: Tree, r: Addr, m: Merge)
    requires m.cr.Some?
  {
    && (m.pcr.Some? ==> Anc(t.parent, m.pcr.value, r))
    && (Anc(t.parent, m.cr.value, r) ||
        (m.pcr.Some? && m.pcr.value != m.cr.value && Anc(t.parent, m.pcr.value, m.cr.value)))
  }

  ghost predicate Building(cfg: Config, t: Tree, top: Addr, r: Addr, segs: seq<Seg>, m: Merge)
    requires t.hops.Keys == t.parent.Keys
  {
    && Current(cfg.mergeRange, t, r, segs, m)
    && (m.pcr.Some? ==> Anc(t.parent, top, m.pcr.value))
    && forall k | 0 <= k < |segs| :: SegOk(cfg.mergeRange, t, segs[k]) && Under(t, top, segs[k])
  }

  lemma BuildingMatches(cfg: Config, t: Tree, top: Addr, r: Addr, segs: seq<Seg>, m: Merge)
    requires t.hops.Keys == t.parent.Keys && Building(cfg, t, top, r, segs, m)
    ensures Matches(cfg.mergeRange, t, segs, m)
  {
    hide SegOk, Under;
  }

  // Appending to a segment whose statistics fit: the address list only changes at the router entry.
  lemma ExtendFlat(segs: seq<Seg>, p: Placed, dst: seq<Addr>)
    requires p.offset <= 1
    requires p.offset == 1 ==> p.write.Some? && p.m.icr == |Flat(segs)|
    requires p.offset == 0 ==> segs != [] && p.m.icr == |Flat(segs[..|segs| - 1])|
    ensures p.m.icr < |Flat(segs)| + p.offset
    ensures Flat(Extend(segs, p, dst)) ==
            (var base := if p.offset == 1 then Flat(segs) + [p.write.value] else Flat(segs);
             (if p.write.Some? then base[p.m.icr := p.write.value] else base) + dst)
    ensures Marks(Extend(segs, p, dst)) == Marks(segs) + (if p.offset == 1 then {p.m.icr} else {})
    ensures Rcv(Extend(segs, p, dst)) == Rcv(segs) + dst
  {
    if p.offset == 1 {
      FlatSnoc(segs, Seg(p.write.value, dst));
    } else {
      var s := segs[|segs| - 1];
      var init := segs[..|segs| - 1];
      assert segs == init + [s];
      FlatSnoc(init, s);
      FlatSnoc(init, Seg(if p.write.Some? then p.write.value else s.rt, s.dst + dst));
    }
  }

  // The merge step picks a router above the served router and above the whole segment.
  lemma PlaceAbove(t: Tree, rk: map<Addr, nat>, range: nat, r: Addr, m: Merge, n: nat)
    requires Linked(t) && Ranked(t.parent, rk) && Strict(t) && r in t.parent
    requires range > 0 && m.cr.Some? && MergeOver(t.hops, m) && Above(t, r, m)
    ensures var p := Place(range, t.hops, m, r, n);
            p.m.cr.Some? && Anc(t.parent, p.m.cr.value, r) && Anc(t.parent, p.m.cr.value, m.cr.value)
    ensures Above(t, r, Place(range, t.hops, m, r, n).m)
  {
    hide ChildLinks, LeafLinks, Ranked, Strict;
    var cr := m.cr.value;
    if m.pcr.Some? {
      var pcr := m.pcr.value;
      AncHops(t, rk, pcr, r);
      if Anc(t.parent, cr, r) {
        AncCompare(t, rk, pcr, cr, r);
        if Anc(t.parent, cr, pcr) { AncHops(t, rk, cr, pcr); }
        AncHops(t, rk, cr, r);
      } else {
        AncHops(t, rk, pcr, cr);
      }
    } else {
      AncHops(t, rk, cr, r);
    }
  }

  // Opening a segment for leaves of `r`.
  lemma NewSegment(range: nat, t: Tree, top: Addr, r: Addr, dst: seq<Addr>)
    requires Linked(t) && r in t.parent && Anc(t.parent, top, r)
    requires |dst| > 0 && forall d :: d in dst ==> d in t.home && t.home[d] == Some(r)
    ensures SegOk(range, t, Seg(r, dst)) && Under(t, top, Seg(r, dst))
  {
    assert dst[0] in dst;
  }

  // Adding leaves of a mergeable router `r` to a segment whose router entry becomes `rt`.
  lemma MergedSegment(range: nat, t: Tree, rk: map<Addr, nat>, top: Addr, r: Addr, s: Seg, rt: Addr, dst: seq<Addr>)
    requires Linked(t) && Ranked(t.parent, rk) && r in t.parent && Anc(t.parent, top, r)
    requires range > 0 && SegOk(range, t, s) && Under(t, top, s)
    requires rt in t.parent && Anc(t.parent, top, rt)
    requires Dist(t.hops[t.home[s.dst[0]].value], t.hops[rt]) <= range
    requires Dist(t.hops[t.home[s.dst[0]].value], t.hops[r]) <= range
    requires Strict(t) ==> Anc(t.parent, rt, r) && Anc(t.parent, rt, s.rt)
    requires forall d :: d in dst ==> d in t.home && t.home[d] == Some(r)
    ensures SegOk(range, t, Seg(rt, s.dst + dst)) && Under(t, top, Seg(rt, s.dst + dst))
  {
    if Strict(t) {
      forall d | d in s.dst ensures Anc(t.parent, rt, t.home[d].value) {
        AncTrans(t, rk, rt, s.rt, t.home[d].value);
      }
    }
  }

  // The closest router is above `r`, or `r` itself is the potential closest router.
  ghost predicate Settled(t: Tree, r: Addr, m: Merge) {
    Strict(t) && m.cr.Some? ==> Anc(t.parent, m.cr.value, r) || m.pcr == Some(r)
  }

  ghost predicate Added(cfg: Config, t: Tree, top: Addr, r: Addr, segs: seq<Seg>, p: Placed, dst: seq<Addr>)
    requires t.hops.Keys == t.parent.Keys
  {
    && (p.offset == 1 ==> p.write.Some? && p.m.icr == |Flat(segs)|)
    && (p.offset != 1 ==> segs != [] && p.m.icr == |Flat(segs[..|segs| - 1])|)
    && Building(cfg, t, top, r, Extend(segs, p, dst), p.m)
    && Settled(t, r, p.m)
  }

  lemma AddOpening(cfg: Config, t: Tree, top: Addr, r: Addr, segs: seq<Seg>, m: Merge, dst: seq<Addr>)
    requires Linked(t) && r in t.parent && Anc(t.parent, top, r)
    requires Building(cfg, t, top, r, segs, m) && m.cr.None?
    requires |dst| > 0 && forall d :: d in dst ==> d in t.home && t.home[d] == Some(r)
    ensures var p := Place(cfg.mergeRange, t.hops, m, r, |Flat(segs)|);
            p.offset == 1 && Added(cfg, t, top, r, segs, p, dst)
  {
    hide ChildLinks, LeafLinks, Strict, Flat, Under;
    assert dst[0] in dst;
    NewSegment(cfg.mergeRange, t, top, r, dst);
    var segs' := segs + [Seg(r, dst)];
    assert segs'[..|segs'| - 1] == segs;
  }

  lemma AddMerging(cfg: Config, t: Tree, rk: map<Addr, nat>, top: Addr, r: Addr, segs: seq<Seg>, m: Merge,
                   dst: seq<Addr>)
    requires Linked(t) && Ranked(t.parent, rk) && r in t.parent && Anc(t.parent, top, r)
    requires Building(cfg, t, top, r, segs, m) && m.cr.Some?
    requires Mergeable(cfg.mergeRange, t.hops, m, r)
    requires |dst| > 0 && forall d :: d in dst ==> d in t.home && t.home[d] == Some(r)
    ensures var p := Place(cfg.mergeRange, t.hops, m, r, |Flat(segs)|);
            p.offset == 0 && Added(cfg, t, top, r, segs, p, dst)
  {
    hide ChildLinks, LeafLinks, Ranked, Strict, Flat;
    var p := Place(cfg.mergeRange, t.hops, m, r, |Flat(segs)|);
    var s := segs[|segs| - 1];
    var rt := p.m.cr.value;
    if Strict(t) {
      PlaceAbove(t, rk, cfg.mergeRange, r, m, |Flat(segs)|);
    }
    MergedSegment(cfg.mergeRange, t, rk, top, r, s, rt, dst);
    MergedCurrent(cfg.mergeRange, t, r, segs, m, p, dst);
    assert Extend(segs, p, dst) == segs[..|segs| - 1] + [Seg(rt, s.dst + dst)];
    Rebuilt(cfg, t, top, r, segs, Seg(rt, s.dst + dst), p.m);
  }

  lemma Rebuilt(cfg: Config, t: Tree, top: Addr, r: Addr, segs: seq<Seg>, s: Seg, m: Merge)
    requires t.hops.Keys == t.parent.Keys && segs != []
    requires forall k | 0 <= k < |segs| :: SegOk(cfg.mergeRange, t, segs[k]) && Under(t, top, segs[k])
    requires SegOk(cfg.mergeRange, t, s) && Under(t, top, s)
    requires Current(cfg.mergeRange, t, r, segs[..|segs| - 1] + [s], m)
    requires m.pcr.Some? ==> Anc(t.parent, top, m.pcr.value)
    ensures Building(cfg, t, top, r, segs[..|segs| - 1] + [s], m)
  {
  }

  // After merging, the statistics fit the extended segment.
  lemma MergedCurrent(range: nat, t: Tree, r: Addr, segs: seq<Seg>, m: Merge, p: Placed, dst: seq<Addr>)
    requires Linked(t) && r in t.parent && Current(range, t, r, segs, m) && m.cr.Some?
    requires Mergeable(range, t.hops, m, r) && p == Place(range, t.hops, m, r, |Flat(segs)|)
    requires Strict(t) ==> Above(t, r, p.m)
    ensures Current(range, t, r, Extend(segs, p, dst), p.m)
  {
    var s := segs[|segs| - 1];
    var segs' := Extend(segs, p, dst);
    assert segs' == segs[..|segs| - 1] + [Seg(p.m.cr.value, s.dst + dst)];
    assert segs'[..|segs'| - 1] == segs[..|segs| - 1];
    assert segs'[|segs'| - 1].dst[0] == s.dst[0];
  }

  // Moving up to the parent `p` of `r`, which becomes the potential closest router.
  lemma AscendKeeps(cfg: Config, t: Tree, rk: map<Addr, nat>, top: Addr, r: Addr, p: Addr, segs: seq<Seg>, m: Merge)
    requires Linked(t) && Ranked(t.parent, rk) && r in t.parent && t.parent[r] == Some(p) && Anc(t.parent, top, p)
    requires Building(cfg, t, top, r, segs, m) && Settled(t, r, m)
    ensures p in t.hops
    ensures var up := if Mergeable(cfg.mergeRange, t.hops, m, p) then m.(pcr := Some(p)) else m;
            && MergeOver(t.hops, up)
            && Building(cfg, t, top, p, segs, ResetAt(cfg.mergeRange, t.hops, up, p))
            && Settled(t, p, ResetAt(cfg.mergeRange, t.hops, up, p))
  {
    if Strict(t) && Mergeable(cfg.mergeRange, t.hops, m, p) {
      var cr := m.cr.value;
      if !Anc(t.parent, cr, r) {
        AncTrans(t, rk, p, r, cr);
        AncRank(t, rk, r, cr);
      }
    }
  }

  // Moving down to a child `c` of `r`.
  lemma DescendKeeps(cfg: Config, t: Tree, top: Addr, r: Addr, c: Addr, segs: seq<Seg>, m: Merge)
    requires Linked(t) && c in t.parent && t.parent[c] == Some(r)
    requires Building(cfg, t, top, r, segs, m)
    ensures Building(cfg, t, top, c, segs, ResetAt(cfg.mergeRange, t.hops, m, c))
  {
  }

  // How far receivers' routers can be from the router entry of their segment: twice the merge range.
  // With merge range 0 the entry is the receivers' router.
  lemma MergeBound(range: nat, t: Tree, s: Seg, d: Addr)
    requires t.hops.Keys == t.parent.Keys && SegOk(range, t, s) && d in s.dst
    ensures Homed(t, d) && Dist(t.hops[s.rt], t.hops[t.home[d].value]) <= 2 * range
    ensures range == 0 ==> t.home[d] == Some(s.rt)
  {
  }

  // The served router takes over the potential closest router as its entry.
  predicate TakesParent(range: nat, hops: map<Addr, nat>, m: Merge, r: Addr)
    requires MergeOver(hops, m) && r in hops
  {
    && range > 0 && m.cr.Some? && m.pcr.Some?
    && hops[m.pcr.value] < hops[r] && hops[m.pcr.value] < hops[m.cr.value]
  }

  // The merge range itself is not a bound. A mergeable router gets an entry beyond the range exactly
  // when that entry is the potential closest router and too close to the sender.
  lemma FarRouter(range: nat, hops: map<Addr, nat>, m: Merge, r: Addr, n: nat)
    requires MergeOver(hops, m) && r in hops && Mergeable(range, hops, m, r)
    ensures var cr := Place(range, hops, m, r, n).m.cr;
            && cr.Some? && cr.value in hops
            && (Dist(hops[cr.value], hops[r]) > range <==>
                TakesParent(range, hops, m, r) && hops[r] - hops[m.pcr.value] > range)
  {
  }

  // The largest hop count among the routers of the receivers `dst`.
  function Farthest(t: Tree, dst: seq<Addr>): (h: nat)
    requires dst != [] && forall d :: d in dst ==> d in t.home && t.home[d].Some? && t.home[d].value in t.hops
    ensures forall d :: d in dst ==> t.hops[t.home[d].value] <= h
    ensures exists d :: d in dst && t.hops[t.home[d].value] == h
  {
    var h := t.hops[t.home[dst[0]].value];
    assert dst[0] in dst;
    if |dst| == 1 then h
    else
      var rest := Farthest(t, dst[1..]);
      assert forall d :: d in dst ==> d == dst[0] || d in dst[1..];
      if h < rest then rest else h
  }

  // Some receiver of a segment is beyond the range of the entry.
  ghost predicate Beyond(range: nat, t: Tree, s: Seg) {
    s.rt in t.hops &&
    exists d :: d in s.dst && Homed(t, d) && t.home[d].value in t.hops
                  && Dist(t.hops[s.rt], t.hops[t.home[d].value]) > range
  }

  // This is so exactly when its farthest router is.
  lemma FarSegment(range: nat, t: Tree, rk: map<Addr, nat>, s: Seg)
    requires Linked(t) && Ranked(t.parent, rk) && Strict(t) && SegOk(range, t, s)
    ensures Beyond(range, t, s) <==> Farthest(t, s.dst) - t.hops[s.rt] > range
  {
    forall d | d in s.dst ensures t.hops[s.rt] <= t.hops[t.home[d].value] {
      AncHops(t, rk, s.rt, t.home[d].value);
    }
  }

  lemma {:induction false} FarthestConcat(t: Tree, a: seq<Addr>, dst: seq<Addr>, r: Addr)
    requires a != [] && forall d :: d in a ==> d in t.home && t.home[d].Some? && t.home[d].value in t.hops
    requires dst != [] && r in t.hops && forall d :: d in dst ==> d in t.home && t.home[d] == Some(r)
    ensures forall d :: d in a + dst ==> d in t.home && t.home[d].Some? && t.home[d].value in t.hops
    ensures Farthest(t, a + dst) == if Farthest(t, a) < t.hops[r] then t.hops[r] else Farthest(t, a)
  {
    assert dst[0] in a + dst;
    var d :| d in a && t.hops[t.home[d].value] == Farthest(t, a);
    assert d in a + dst;
  }

  // What merging router `r` does to the distance between the router entry and the farthest router, which
  // is `far` hops away before: the condition is one on the state before the step.
  predicate Strands(range: nat, hops: map<Addr, nat>, m: Merge, r: Addr, far: nat)
    requires MergeOver(hops, m) && r in hops && m.cr.Some?
  {
    if TakesParent(range, hops, m, r) then far - hops[m.pcr.value] > range || hops[r] - hops[m.pcr.value] > range
    else if hops[r] < hops[m.cr.value] then far - hops[r] > range
    else far - hops[m.cr.value] > range
  }

  // Exactly when some receiver of the open segment is beyond the range of the entry after a merge step. In
  // a segment that was within the range before, the last case does not occur.
  lemma FarStep(cfg: Config, t: Tree, rk: map<Addr, nat>, top: Addr, r: Addr, segs: seq<Seg>, m: Merge, dst: seq<Addr>)
    requires Linked(t) && Ranked(t.parent, rk) && Strict(t) && r in t.parent && Anc(t.parent, top, r)
    requires Building(cfg, t, top, r, segs, m) && m.cr.Some? && Mergeable(cfg.mergeRange, t.hops, m, r)
    requires dst != [] && forall d :: d in dst ==> d in t.home && t.home[d] == Some(r)
    ensures segs != [] && SegOk(cfg.mergeRange, t, segs[|segs| - 1])
    ensures var p := Place(cfg.mergeRange, t.hops, m, r, |Flat(segs)|);
            var segs' := Extend(segs, p, dst);
            && segs' != []
            && (Beyond(cfg.mergeRange, t, segs'[|segs'| - 1]) <==>
                Strands(cfg.mergeRange, t.hops, m, r, Farthest(t, segs[|segs| - 1].dst)))
  {
    hide ChildLinks, LeafLinks, Ranked, Strict, Flat, Farthest, Anc, Place, Strands, Mergeable, Above, Beyond;
    var p := Place(cfg.mergeRange, t.hops, m, r, |Flat(segs)|);
    var s := segs[|segs| - 1];
    AddMerging(cfg, t, rk, top, r, segs, m, dst);
    var segs' := Extend(segs, p, dst);
    StrandsIs(cfg.mergeRange, t.hops, m, r, |Flat(segs)|, Farthest(t, s.dst));
    assert segs'[|segs'| - 1] == Seg(p.m.cr.value, s.dst + dst);
    FarthestConcat(t, s.dst, dst, r);
    FarSegment(cfg.mergeRange, t, rk, segs'[|segs'| - 1]);
  }

  // The condition in terms of the entry that is chosen.
  lemma StrandsIs(range: nat, hops: map<Addr, nat>, m: Merge, r: Addr, n: nat, far: nat)
    requires range > 0 && MergeOver(hops, m) && r in hops && m.cr.Some? && Mergeable(range, hops, m, r)
    ensures var p := Place(range, hops, m, r, n);
            && p.offset == 0 && p.m.cr.Some? && p.m.cr.value in hops
            && (if p.write.Some? then p.write else m.cr) == p.m.cr
            && (Strands(range, hops, m, r, far) <==>
                (if far < hops[r] then hops[r] else far) - hops[p.m.cr.value] > range)
  {
  }
}
