// The whole run of greedy grouping: every receiver ends up in exactly one header or in the unicast
// list, and every header is sound.
module Partition {
  import opened Base
  import opened Forest
  import opened Header
  import opened Consumption
  import opened Packing
  import opened Nodes
  import opened Grouping

  // The segments a router reads from a header.
  function Segs(h: Header): seq<Seg> {
    Decode(h.addr, h.rtm, 0)
  }

  // What a finished header guarantees: it is encoded as a data header with 2 to `Capacity` entries,
  // starts with a router, and its segments are sound and lie below one child of the root. It was
  // still short before the receivers of its last router were added.
  ghost predicate HeaderOk(cfg: Config, t: Tree, h: Header)
    requires t.hops.Keys == t.parent.Keys
  {
    && h == SetDataHdr(h.addr, h.rtm) && 2 <= |h.addr| <= Capacity(cfg)
    && h.addr == Flat(Segs(h)) && h.rtm == Marks(Segs(h)) && h.dlvm == h.rtm && 0 in h.rtm
    && GroupOk(cfg.mergeRange, t, Segs(h)) && LastBatch(cfg, t, h.addr, h.rtm)
  }

  // The receivers of router `a` are all in the header or all outside of it.
  ghost predicate AllOrNone(t: Tree, h: Header, a: Addr) {
    && a in t.leaf
    && ((forall l | l in t.leaf[a] :: l in Rcv(Segs(h))) || (forall l | l in t.leaf[a] :: l !in Rcv(Segs(h))))
  }

  // Unless nodes may be split, receivers of a router that fit into one header are not separated.
  ghost predicate Unbroken(cfg: Config, t: Tree, h: Header) {
    forall a | a in t.leaf && a != t.root && |t.leaf[a]| < Capacity(cfg) :: AllOrNone(t, h, a)
  }

  ghost predicate Intact(cfg: Config, t0: Tree, fleaf: map<Addr, nat>, mdc: seq<Header>) {
    !cfg.splitNodes ==> Unsplit(cfg, t0.leaf, fleaf) && forall i | 0 <= i < |mdc| :: Unbroken(cfg, t0, mdc[i])
  }

  // The receivers of `a` that a new group adds are all or none, when all or none were emitted before
  // and all or none are emitted now.
  lemma AddsAllOrNone(t0: Tree, t1: Tree, t: Tree, out: seq<Addr>, h: Header, a: Addr)
    requires Keyed(t1) && Keyed(t) && SameTree(t0, t1) && SameTree(t0, t) && Emitted(t1, out)
        && Emitted(t, out + Rcv(Segs(h)))
    requires a in t0.parent && a in t0.leaf && a != t0.root
    requires t1.fleaf[a] == 0 || t1.fleaf[a] == |t0.leaf[a]|
    requires t.fleaf[a] == 0 || t.fleaf[a] == |t0.leaf[a]|
    ensures AllOrNone(t0, h, a)
  {
    var new' := Rcv(Segs(h));
    forall l | l in t0.leaf[a] ensures l in new' <==> t1.fleaf[a] != 0 && t.fleaf[a] == 0 {
      var i :| 0 <= i < |t0.leaf[a]| && t0.leaf[a][i] == l;
      EmittedAt(t1, out, a, i);
      EmittedAt(t, out + new', a, i);
      if l in out { NotTwice(out, new', l); }
    }
  }

  lemma EmittedAt(t: Tree, out: seq<Addr>, a: Addr, i: nat)
    requires Keyed(t) && Emitted(t, out) && a in t.parent && a != t.root && i < |t.leaf[a]|
    ensures t.leaf[a][i] in out <==> i < |t.leaf[a]| - t.fleaf[a]
    ensures Distinct(out)
  {
  }

  lemma NotTwice(a: seq<Addr>, b: seq<Addr>, l: Addr)
    requires Distinct(a + b) && l in a
    ensures l !in b
  {
    var i :| 0 <= i < |a| && a[i] == l;
    forall j | 0 <= j < |b| ensures b[j] != l {
      assert (a + b)[i] == l && (a + b)[|a| + j] == b[j];
    }
  }

  lemma StaysIntact(cfg: Config, t0: Tree, t1: Tree, t: Tree, mdc: seq<Header>, h: Header)
    requires Keyed(t1) && Keyed(t) && SameTree(t0, t1) && SameTree(t0, t)
    requires Emitted(t1, AllRcv(mdc)) && Emitted(t, AllRcv(mdc) + Rcv(Segs(h)))
    requires Intact(cfg, t0, t1.fleaf, mdc) && (!cfg.splitNodes ==> Unsplit(cfg, t0.leaf, t.fleaf))
    ensures Intact(cfg, t0, t.fleaf, [h] + mdc)
  {
    hide Emitted, AllRcv, Segs, Rcv, AllOrNone;
    if !cfg.splitNodes {
      forall a | a in t0.leaf && a != t0.root && |t0.leaf[a]| < Capacity(cfg) ensures AllOrNone(t0, h, a) {
        AddsAllOrNone(t0, t1, t, AllRcv(mdc), h, a);
      }
      forall i | 0 <= i < |[h] + mdc| ensures Unbroken(cfg, t0, ([h] + mdc)[i]) {
        if i > 0 { assert ([h] + mdc)[i] == mdc[i - 1]; }
      }
    }
  }

  // The receivers addressed by a list of headers, oldest first.
  function AllRcv(mdc: seq<Header>): seq<Addr> {
    if mdc == [] then [] else AllRcv(mdc[1..]) + Rcv(Segs(mdc[0]))
  }

  // Why a header of `n` entries below `top` was finished when the receivers `out` had been addressed:
  // it was full or large enough, or every receiver below `top` had been addressed, or nodes are not split,
  // and a router below `top` had more receivers left than would have fitted, but not too many for a header
  // of their own.
  ghost predicate Cause(cfg: Config, t: Tree, top: Addr, n: nat, out: seq<Addr>) {
    || n + 1 >= Capacity(cfg) || n >= cfg.okAddrs || ServedBelow(t, top, out)
    || (!cfg.splitNodes && exists r, f :: Overflow(cfg, t, top, n, out, r, f))
  }

  ghost predicate ServedBelow(t: Tree, top: Addr, out: seq<Addr>) {
    forall l | l in t.home && t.home[l].Some? && Anc(t.parent, top, t.home[l].value) :: l in out
  }

  ghost predicate Overflow(cfg: Config, t: Tree, top: Addr, n: nat, out: seq<Addr>, r: Addr, f: nat) {
    && r in t.leaf && Anc(t.parent, top, r) && 0 < f <= |t.leaf[r]| && f < Capacity(cfg) && n + f + 1 > Capacity(cfg)
    && forall i | |t.leaf[r]| - f <= i < |t.leaf[r]| :: t.leaf[r][i] !in out
  }

  ghost predicate FinishedFor(cfg: Config, t: Tree, h: Header, out: seq<Addr>) {
    && t.hops.Keys == t.parent.Keys
    && exists top :: InSubtree(cfg.mergeRange, t, top, Segs(h)) && Cause(cfg, t, top, |h.addr|, out)
  }

  // What the policy comes to, in numbers. A header has 2 to `maxAddrs` and at most 32 entries. When nodes are
  // split, each is filled up to one entry, or large enough, or nothing is left below its child of the root.
  // When they are not, a smaller one was finished because the receivers left at some router below it did not
  // fit, but fit into a header of their own.
  lemma HeadersFilled(cfg: Config, t: Tree, mdc: seq<Header>, i: nat)
    requires i < |mdc| && Packed(cfg, t, mdc) && t.hops.Keys == t.parent.Keys && HeaderOk(cfg, t, mdc[i])
    ensures var n := |mdc[i].addr|;
            var max := if cfg.maxAddrs < 32 then cfg.maxAddrs else 32;
            && 2 <= n <= max
            && exists top :: InSubtree(cfg.mergeRange, t, top, Segs(mdc[i])) &&
                 (n + 1 >= max || n >= cfg.okAddrs || ServedBelow(t, top, AllRcv(mdc[i..]))
                  || (!cfg.splitNodes && exists r, f ::
                        0 < f < max && n + f + 1 > max && Overflow(cfg, t, top, n, AllRcv(mdc[i..]), r, f)))
  {
    hide InSubtree, ServedBelow, AllRcv, Segs, GroupOk, LastBatch;
    assert FinishedFor(cfg, t, mdc[i], AllRcv(mdc[i..]));
    var top :| InSubtree(cfg.mergeRange, t, top, Segs(mdc[i])) && Cause(cfg, t, top, |mdc[i].addr|, AllRcv(mdc[i..]));
    if !cfg.splitNodes && exists r, f :: Overflow(cfg, t, top, |mdc[i].addr|, AllRcv(mdc[i..]), r, f) {
      var r, f :| Overflow(cfg, t, top, |mdc[i].addr|, AllRcv(mdc[i..]), r, f);
      assert 0 < f && Overflow(cfg, t, top, |mdc[i].addr|, AllRcv(mdc[i..]), r, f);
    }
  }

  // Every header of the list, newest first, was finished for a reason.
  ghost predicate Packed(cfg: Config, t: Tree, mdc: seq<Header>) {
    forall i | 0 <= i < |mdc| :: FinishedFor(cfg, t, mdc[i], AllRcv(mdc[i..]))
  }

  lemma PackedNext(cfg: Config, t: Tree, mdc: seq<Header>, h: Header)
    requires Packed(cfg, t, mdc) && FinishedFor(cfg, t, h, AllRcv([h] + mdc))
    ensures Packed(cfg, t, [h] + mdc)
  {
    hide FinishedFor, AllRcv;
    forall i | 0 <= i < |[h] + mdc| ensures FinishedFor(cfg, t, ([h] + mdc)[i], AllRcv(([h] + mdc)[i..])) {
      if i == 0 {
        assert ([h] + mdc)[0..] == [h] + mdc;
      } else {
        assert ([h] + mdc)[i] == mdc[i - 1] && ([h] + mdc)[i..] == mdc[i - 1..];
      }
    }
  }

  // Below an exhausted router nothing is free.
  lemma {:induction false} ExhaustedBelow(t: Tree, rk: map<Addr, nat>, top: Addr, a: Addr)
    requires Linked(t) && Ranked(t.parent, rk) && Consumed(t, t.root) && Exhausted(t, top)
    requires a in t.parent && Anc(t.parent, top, a)
    ensures Exhausted(t, a)
    decreases rk[a]
  {
    if a != top {
      var p := t.parent[a].value;
      ExhaustedBelow(t, rk, top, p);
      assert a in t.child[p];
      var i :| 0 <= i < |t.child[p]| && t.child[p][i] == a;
      assert Exhausted(t, t.child[p][i]);
    }
  }

  // The reason for which the counters let a group be closed is one that shows in the headers.
  lemma ReasonShows(cfg: Config, t0: Tree, t: Tree, rk: map<Addr, nat>, top: Addr, n: nat, out: seq<Addr>)
    requires Steady(t, rk) && Keyed(t) && SameTree(t0, t) && Consumed(t, t.root) && Emitted(t, out)
    requires Reason(cfg, t, top, n) && top in t.parent && t.parent[top] == Some(t.root)
    ensures Cause(cfg, t0, top, n, out)
  {
    hide ChildLinks, Ranked, DetachedEmpty, Consumed, Emitted;
    if Exhausted(t, top) {
      forall l | l in t0.home && t0.home[l].Some? && Anc(t0.parent, top, t0.home[l].value) ensures l in out {
        var a := t.home[l].value;
        assert l in t.leaf[a];
        ExhaustedBelow(t, rk, top, a);
        BelowTop(t, rk, top, a);
        var i :| 0 <= i < |t.leaf[a]| && t.leaf[a][i] == l;
        EmittedAt(t, out, a, i);
      }
    } else if !cfg.splitNodes && exists r :: TooMany(cfg, t, top, n, r) {
      var r :| TooMany(cfg, t, top, n, r);
      BelowTop(t, rk, top, r);
      FreeFits(t, r);
      forall i | |t.leaf[r]| - t.fleaf[r] <= i < |t.leaf[r]| ensures t.leaf[r][i] !in out {
        EmittedAt(t, out, r, i);
      }
      assert Overflow(cfg, t0, top, n, out, r, t.fleaf[r]);
    }
  }

  lemma FreeFits(t: Tree, r: Addr)
    requires Keyed(t) && Consumed(t, t.root) && r in t.parent
    ensures t.fleaf[r] <= |t.leaf[r]|
  {
  }

  lemma BelowTop(t: Tree, rk: map<Addr, nat>, top: Addr, a: Addr)
    requires Linked(t) && Ranked(t.parent, rk) && top in t.parent && t.parent[top] == Some(t.root) && a in t.parent
        && Anc(t.parent, top, a)
    ensures a != t.root
  {
    AncRank(t, rk, top, a);
  }

  lemma NewFinished(cfg: Config, t0: Tree, t: Tree, rk: map<Addr, nat>, mdc: seq<Header>, h: Header, segs: seq<Seg>)
    requires Steady(t, rk) && Keyed(t) && Keyed(t0) && SameTree(t0, t) && Consumed(t, t.root)
        && Emitted(t, AllRcv([h] + mdc))
    requires JustClosed(cfg, t0, t, segs, |h.addr|) && Segs(h) == segs
    ensures FinishedFor(cfg, t0, h, AllRcv([h] + mdc))
  {
    hide ChildLinks, LeafLinks, Ranked, DetachedEmpty, Consumed, Emitted, AllRcv, Segs, SegOk, Under, Reason;
    var top :| InSubtree(cfg.mergeRange, t0, top, segs) && Reason(cfg, t, top, |h.addr|);
    ReasonShows(cfg, t0, t, rk, top, |h.addr|, AllRcv([h] + mdc));
  }

  // The state between two groups.
  ghost predicate Between(cfg: Config, t0: Tree, t: Tree, rk: map<Addr, nat>, mdc: seq<Header>) {
    && Checked(cfg) && Steady(t0, rk) && AllHomed(t0) && SameTree(t0, t)
    && Consumed(t, t.root) && Emitted(t, AllRcv(mdc))
    && forall i | 0 <= i < |mdc| :: HeaderOk(cfg, t0, mdc[i])
  }

  ghost predicate Found(t: Tree, r: Option<Addr>, path: seq<Addr>)
    requires Keyed(t)
  {
    if r.None? then t.fchild[t.root] == 0
    else Chain(t, path) && |path| > 1 && Last(path) == r.value && t.fleaf[r.value] > 0
  }

  lemma Initially(cfg: Config, t: Tree, rk: map<Addr, nat>)
    requires Checked(cfg) && Steady(t, rk) && AllHomed(t) && Fresh(t) && NoneBare(t)
    ensures Between(cfg, t, t, rk, []) && Chain(t, [t.root]) && Tail(t, [t.root], [])
  {
    hide LeafLinks, Ranked, HeaderOk;
    forall a, i | a in t.parent && 0 <= i < |t.child[a]| ensures !Exhausted(t, t.child[a][i]) {
      assert t.child[a][i] in t.child[a];
    }
  }

  // The first iteration of a group.
  lemma GroupStarts(cfg: Config, t0: Tree, t: Tree, rk: map<Addr, nat>, mdc: seq<Header>, r: Addr, path: seq<Addr>)
    requires Between(cfg, t0, t, rk, mdc) && Keyed(t) && Found(t, Some(r), path)
    ensures AtStart(cfg, t0, t, rk, path, r, [], NO_MERGE, AllRcv(mdc), [], {})
  {
    hide ChildLinks, LeafLinks, Ranked, HeaderOk, AllRcv, Emitted;
    AnyException(t, r);
    assert AllRcv(mdc) + Rcv([]) == AllRcv(mdc);
  }

  // A group has at least two entries, the first of which is a router.
  lemma {:induction false} GroupSize(range: nat, t: Tree, g: seq<Seg>)
    requires t.hops.Keys == t.parent.Keys
    requires g != [] && forall k | 0 <= k < |g| :: SegOk(range, t, g[k])
    ensures |Flat(g)| >= 2 && 0 in Marks(g)
  {
    var h := g[..|g| - 1];
    if h != [] {
      GroupSize(range, t, h);
    }
  }

  // Finishing a group yields a sound header and emits its receivers.
  lemma GroupEnds(cfg: Config, t0: Tree, t1: Tree, t: Tree, rk: map<Addr, nat>, mdc: seq<Header>,
                  path: seq<Addr>, tail: seq<Addr>, r: Addr, segs: seq<Seg>, a: seq<Addr>, bm: set<nat>)
    requires Between(cfg, t0, t1, rk, mdc) && |a| <= Capacity(cfg)
    requires Finished(cfg, t0, t, path, tail, r, segs, AllRcv(mdc), a, bm) && LastBatch(cfg, t0, a, bm)
    requires Intact(cfg, t0, t1.fleaf, mdc) && (!cfg.splitNodes ==> Unsplit(cfg, t0.leaf, t.fleaf))
    requires Packed(cfg, t0, mdc) && Keyed(t0) && JustClosed(cfg, t0, t, segs, |a|)
    ensures Between(cfg, t0, t, rk, [SetDataHdr(a, bm)] + mdc) && Intact(cfg, t0, t.fleaf, [SetDataHdr(a, bm)] + mdc)
    ensures Packed(cfg, t0, [SetDataHdr(a, bm)] + mdc)
    ensures Steady(t, rk) && Chain(t, path) && Tail(t, path, tail) && |path + tail| > 0 && r == Last(path + tail)
  {
    hide ChildLinks, LeafLinks, Ranked, Consumed, Tail, DetachedEmpty, AllHomed, SegOk, Under, Emitted, Decode,
         HeaderOk, GroupOk, LastBatch, Intact,
         Unsplit, JustClosed, FinishedFor, Packed;
    var h := SetDataHdr(a, bm);
    NewHeader(cfg, t0, segs, h);
    SameSteady(t0, t, rk);
    StaysIntact(cfg, t0, t1, t, mdc, h);
    assert ([h] + mdc)[1..] == mdc;
    NewFinished(cfg, t0, t, rk, mdc, h, segs);
    PackedNext(cfg, t0, mdc, h);
  }

  lemma NewHeader(cfg: Config, t: Tree, segs: seq<Seg>, h: Header)
    requires t.hops.Keys == t.parent.Keys && GroupOk(cfg.mergeRange, t, segs)
    requires h == SetDataHdr(Flat(segs), Marks(segs)) && |Flat(segs)| <= Capacity(cfg)
        && LastBatch(cfg, t, Flat(segs), Marks(segs))
    ensures HeaderOk(cfg, t, h) && Segs(h) == segs
  {
    hide SegOk, Under, Decode, LastBatch;
    RoundTrip(segs);
    var top :| InSubtree(cfg.mergeRange, t, top, segs);
    GroupSize(cfg.mergeRange, t, segs);
  }

  // Well-formedness does not depend on counters.
  lemma SameSteady(t0: Tree, t: Tree, rk: map<Addr, nat>)
    requires Steady(t0, rk) && SameTree(t0, t)
    ensures Steady(t, rk)
  {
    hide ChildLinks, LeafLinks, Ranked;
  }

  // When nothing below the root is free, headers and root leaves together are all receivers.
  lemma Exactly(cfg: Config, t0: Tree, t: Tree, rk: map<Addr, nat>, mdc: seq<Header>)
    requires Between(cfg, t0, t, rk, mdc) && Keyed(t) && Found(t, None, [])
    ensures multiset(AllRcv(mdc) + t.leaf[t.root]) == multiset(t.home.Keys)
    ensures forall a | a in t.parent && a != t.root :: t.fleaf[a] == 0 && t.fchild[a] == 0
  {
    hide ChildLinks, LeafLinks, Ranked, Consumed, Emitted, HeaderOk, AllRcv, DetachedEmpty, AllHomed;
    SameSteady(t0, t, rk);
    AllSpent(t, rk);
    var out, uni := AllRcv(mdc), t.leaf[t.root];
    assert AllHomed(t) by { SameHomed(t0, t); }
    AllOut(t, rk, out);
    OnceEach(out + uni, t.home.Keys);
  }

  lemma SameHomed(t0: Tree, t: Tree)
    requires AllHomed(t0) && SameTree(t0, t)
    ensures AllHomed(t)
  {
  }

  lemma AllSpent(t: Tree, rk: map<Addr, nat>)
    requires Steady(t, rk) && Keyed(t) && Consumed(t, t.root) && t.fchild[t.root] == 0
    ensures forall a | a in t.parent && a != t.root :: t.fleaf[a] == 0 && t.fchild[a] == 0
  {
    hide LeafLinks, Ranked, ChildLinks;
    forall a | a in t.parent && a != t.root ensures t.fleaf[a] == 0 && t.fchild[a] == 0 {
      if t.parent[a].Some? {
        NothingLeft(t, rk, a);
        assert Exhausted(t, a);
      } else {
        assert !Attached(t, a);
      }
    }
  }

  lemma AllOut(t: Tree, rk: map<Addr, nat>, out: seq<Addr>)
    requires Steady(t, rk) && Keyed(t) && AllHomed(t) && Emitted(t, out)
    requires forall a | a in t.parent && a != t.root :: t.fleaf[a] == 0
    ensures Distinct(out + t.leaf[t.root]) && forall l :: l in out + t.leaf[t.root] <==> l in t.home.Keys
  {
    hide ChildLinks, Ranked, DetachedEmpty;
    var uni := t.leaf[t.root];
    forall l ensures l in out + uni <==> l in t.home.Keys {
      if l in t.home && t.home[l] != Some(t.root) {
        var a := t.home[l].value;
        assert l in t.leaf[a];
        var i :| 0 <= i < |t.leaf[a]| && t.leaf[a][i] == l;
        assert t.leaf[a][i] in out;
      }
    }
    DistinctConcat(out, uni);
  }

  // Groups all receivers below the root into headers, and leaves those of the root to unicast.
  method GreedyGrouping(g: Grouper, ghost rk: map<Addr, nat>) returns (grp: TxGroup)
    requires Checked(g.cfg) && Steady(g.st.T(), rk) && AllHomed(g.st.T()) && Fresh(g.st.T()) && NoneBare(g.st.T())
    requires g.M() == NO_MERGE
    modifies g, g.st
    ensures g.M() == NO_MERGE && Keyed(g.st.T())
    ensures g.st.T() == old(g.st.T()).(fchild := g.st.fchild, fleaf := g.st.fleaf)
    ensures Grouped(g.cfg, old(g.st.T()), g.st.T(), grp)
  {
    hide Between, Found, AtStart, Finished, Chain, Tail, Consumed, Slots, ChildLinks, LeafLinks, Ranked,
         DetachedEmpty, Grouped, Fresh, NoneBare, AllHomed, Intact, Packed, Unsplit,
         Emitted, SameTree, HeaderOk, AllRcv, Keyed;
    ghost var t0 := g.st.T();
    var l := new Addr[Capacity(g.cfg)];
    var mdc: seq<Header> := [];
    ghost var path, tail: seq<Addr> := [t0.root], [];
    Initially(g.cfg, t0, rk);
    IntactStart(g.cfg, t0);
    PackedNone(g.cfg, t0);
    assert path + tail == [t0.root];
    BetweenBasics(g.cfg, t0, t0, rk, mdc);
    var r;
    r, path := g.GetStart(g.st.root, rk, path, tail);
    StartFound(g.st.T(), r, path);
    while r.Some?
      invariant g.M() == NO_MERGE && Keyed(g.st.T())
      invariant Between(g.cfg, t0, g.st.T(), rk, mdc) && Found(g.st.T(), r, path) && Intact(g.cfg, t0, g.st.fleaf, mdc)
      invariant Packed(g.cfg, t0, mdc)
      decreases Slots(g.st.fleaf)
    {
      r, mdc, path := NextGroup(g, l, r.value, mdc, t0, rk, path);
    }
    ghost var t := g.st.T();
    BetweenBasics(g.cfg, t0, t, rk, mdc);
    RootFields(t);
    var uni := ServeRoot(g.st);
    grp := TxGroup(mdc, uni);
    AllGrouped(g.cfg, t0, t, g.st.T(), rk, path, grp);
  }

  // Fills and finishes one group, and finds the router to start the next one at.
  method NextGroup(g: Grouper, l: array<Addr>, r: Addr, mdc: seq<Header>, ghost t0: Tree, ghost rk: map<Addr, nat>,
                   ghost path: seq<Addr>)
    returns (r': Option<Addr>, mdc': seq<Header>, ghost path': seq<Addr>)
    requires l.Length == Capacity(g.cfg) && g.M() == NO_MERGE && Keyed(g.st.T())
    requires Between(g.cfg, t0, g.st.T(), rk, mdc) && Found(g.st.T(), Some(r), path)
        && Intact(g.cfg, t0, g.st.fleaf, mdc)
        && Packed(g.cfg, t0, mdc)
    modifies g, g.st, l
    ensures g.M() == NO_MERGE && Keyed(g.st.T())
    ensures Between(g.cfg, t0, g.st.T(), rk, mdc') && Found(g.st.T(), r', path') && Intact(g.cfg, t0, g.st.fleaf, mdc')
    ensures Packed(g.cfg, t0, mdc')
    ensures Slots(g.st.fleaf) < Slots(old(g.st.fleaf))
  {
    hide Between, Found, AtStart, Finished, Chain, Tail, Consumed, Slots, ChildLinks, LeafLinks, Ranked,
         DetachedEmpty, Intact, Unsplit, LastBatch,
         JustClosed, Packed;
    ghost var t1 := g.st.T();
    IntactBasics(g.cfg, t0, g.st.fleaf, mdc);
    assert Keyed(t0) by { BetweenKeyed(g.cfg, t0, t1, rk, mdc); }
    GroupStarts(g.cfg, t0, t1, rk, mdc, r, path);
    var q, n, bm;
    ghost var tail, segs;
    q, n, bm, path', tail, segs := g.FillGroup(l, r, t0, rk, path, AllRcv(mdc));
    ghost var a := l[..n];
    mdc' := g.FinishTxg(mdc, l, n, bm);
    GroupEnds(g.cfg, t0, t1, g.st.T(), rk, mdc, path', tail, q, segs, a, bm);
    BetweenBasics(g.cfg, t0, g.st.T(), rk, mdc');
    r', path' := g.GetStart(q, rk, path', tail);
    StartFound(g.st.T(), r', path');
  }

  lemma PackedNone(cfg: Config, t: Tree)
    ensures Packed(cfg, t, [])
  {
  }

  lemma RootFields(t: Tree)
    requires Keyed(t)
    ensures t.root in t.parent && t.root in t.leaf && t.root in t.fleaf
  {
  }

  lemma Kept(free: map<Addr, nat>, r: Addr)
    requires r in free
    ensures free[r := free[r]] == free
  {
  }

  lemma Lowered(free: map<Addr, nat>, r: Addr, n: nat)
    requires n > 0
    ensures free[r := n][r := n - 1] == free[r := n - 1]
  {
  }

  lemma NextLeaf(uni: seq<Addr>, c: seq<Addr>)
    requires c != []
    ensures uni + c == (uni + [c[0]]) + c[1..]
  {
  }

  // Hands the free leaves of the root to unicast.
  method ServeRoot(st: Store) returns (uni: seq<Addr>)
    requires Keyed(st.T()) && st.fleaf[st.root] <= |st.leaf[st.root]|
    modifies st`fleaf
    ensures uni == old(st.leaf)[st.root][|old(st.leaf)[st.root]| - old(st.fleaf)[st.root]..]
    ensures st.T() == old(st.T()).(fleaf := old(st.fleaf)[st.root := 0])
  {
    hide Keyed;
    uni := [];
    assert st.root in st.leaf && st.root in st.fleaf && st.root in st.parent by { RootFields(st.T()); }
    var c := st.GetFreeLeaf(st.root);
    ghost var all, free := c, st.fleaf;
    Kept(free, st.root);
    while c != [] && st.fleaf[st.root] > 0
      invariant st.root in st.fleaf && |c| == st.fleaf[st.root]
      invariant uni + c == all
      invariant st.fleaf == free[st.root := |c|]
      decreases |c|
    {
      NextLeaf(uni, c);
      Lowered(free, st.root, |c|);
      uni := uni + [c[0]];
      st.fleaf := st.fleaf[st.root := st.fleaf[st.root] - 1];
      c := c[1..];
    }
  }

  // The outcome of grouping the tree `t0`: every receiver is addressed exactly once, headers are
  // sound, and nothing is free any more.
  ghost predicate Grouped(cfg: Config, t0: Tree, t: Tree, grp: TxGroup)
    requires Keyed(t)
  {
    && t0.hops.Keys == t0.parent.Keys && t0.root in t0.leaf
    && multiset(AllRcv(grp.mdc) + grp.uni) == multiset(t0.home.Keys)
    && grp.uni == t0.leaf[t0.root]
    && (forall i | 0 <= i < |grp.mdc| :: HeaderOk(cfg, t0, grp.mdc[i]))
    && (!cfg.splitNodes ==> forall i | 0 <= i < |grp.mdc| :: Unbroken(cfg, t0, grp.mdc[i]))
    && Packed(cfg, t0, grp.mdc)
    && (forall a | a in t.parent :: t.fchild[a] == 0 && t.fleaf[a] == 0)
  }

  lemma BetweenKeyed(cfg: Config, t0: Tree, t: Tree, rk: map<Addr, nat>, mdc: seq<Header>)
    requires Between(cfg, t0, t, rk, mdc)
    ensures Keyed(t0)
  {
  }

  lemma IntactBasics(cfg: Config, t0: Tree, fleaf: map<Addr, nat>, mdc: seq<Header>)
    requires Intact(cfg, t0, fleaf, mdc)
    ensures !cfg.splitNodes ==> Unsplit(cfg, t0.leaf, fleaf)
  {
  }

  lemma IntactStart(cfg: Config, t: Tree)
    requires Keyed(t) && Fresh(t)
    ensures Intact(cfg, t, t.fleaf, [])
  {
  }

  lemma BetweenBasics(cfg: Config, t0: Tree, t: Tree, rk: map<Addr, nat>, mdc: seq<Header>)
    requires Between(cfg, t0, t, rk, mdc)
    ensures Steady(t, rk) && Consumed(t, t.root) && SameTree(t0, t) && Checked(cfg) && t.root == t0.root
    ensures t.fleaf[t.root] <= |t.leaf[t.root]|
  {
  }

  lemma StartFound(t: Tree, r: Option<Addr>, path: seq<Addr>)
    requires Keyed(t) && (r.None? <==> t.fchild[t.root] == 0)
    requires r.Some? ==>
               Chain(t, path) && |path| > 1 && Last(path) == r.value && (r.value in t.fleaf ==> t.fleaf[r.value] > 0)
    ensures Found(t, r, path)
  {
  }

  lemma AllGrouped(cfg: Config, t0: Tree, t: Tree, t': Tree, rk: map<Addr, nat>, path: seq<Addr>, grp: TxGroup)
    requires Between(cfg, t0, t, rk, grp.mdc) && Fresh(t0) && Keyed(t) && Found(t, None, path)
        && Intact(cfg, t0, t.fleaf, grp.mdc)
    requires Packed(cfg, t0, grp.mdc)
    requires t' == t.(fleaf := t.fleaf[t.root := 0])
    requires t.fleaf[t.root] <= |t.leaf[t.root]| && grp.uni == t.leaf[t.root][|t.leaf[t.root]| - t.fleaf[t.root]..]
    ensures Keyed(t') && t' == t0.(fchild := t'.fchild, fleaf := t'.fleaf)
    ensures Grouped(cfg, t0, t', grp)
  {
    hide ChildLinks, LeafLinks, Ranked, Consumed, Emitted, DetachedEmpty, AllHomed, HeaderOk, AllRcv, Unbroken,
         Unsplit, Packed;
    Exactly(cfg, t0, t, rk, grp.mdc);
    assert t.fleaf[t.root] == t0.fleaf[t0.root] == |t0.leaf[t0.root]|;
  }
}
