// Runs of the traversal in which merging goes beyond the merge range: a router takes over the entry of
// a segment, and is too close to the sender for a router that is served now, or that was served before.
module MergeExample {
  import opened Base
  import opened Forest
  import opened Header
  import opened Consumption
  import opened Packing
  import opened Grouping

  // Router 4, 4 hops away, has one receiver and the child 3, 5 hops away and without receivers. Its
  // children 1 and 2 are 6 and 7 hops away and have one receiver each. The counters of free children
  // and leaves differ during a run.
  ghost function Far(c3: nat, c4: nat, f1: nat, f2: nat): Tree {
    Tree(0,
         map[0 := None, 1 := Some(3), 2 := Some(3), 3 := Some(4), 4 := Some(0)],
         map[0 := 0, 1 := 6, 2 := 7, 3 := 5, 4 := 4],
         map[0 := [4], 1 := [], 2 := [], 3 := [1, 2], 4 := [3]],
         map[0 := 1, 1 := 0, 2 := 0, 3 := c3, 4 := c4],
         map[0 := [], 1 := [11], 2 := [12], 3 := [], 4 := [14]],
         map[0 := 0, 1 := f1, 2 := f2, 3 := 0, 4 := 1],
         map[11 := Some(1), 12 := Some(2), 14 := Some(4)])
  }

  ghost function Unserved(): Tree {
    Far(2, 1, 1, 1)
  }

  ghost function Ranks(): map<Addr, nat> {
    map[0 := 0, 1 := 3, 2 := 3, 3 := 2, 4 := 1]
  }

  // A group has room for all receivers, and the routers on the way can be merged.
  ghost predicate Near(cfg: Config) {
    Checked(cfg) && 1 <= cfg.mergeRange <= 2 && cfg.maxAddrs >= 5 && cfg.okAddrs >= 4
  }

  // The fields of `Far`, router by router.
  ghost predicate IsFar(t: Tree) {
    && t.root == 0 && Keyed(t) && t.parent.Keys == {0, 1, 2, 3, 4} && t.home.Keys == {11, 12, 14}
    && t.parent[0] == None && t.parent[1] == Some(3) && t.parent[2] == Some(3)
    && t.parent[3] == Some(4) && t.parent[4] == Some(0)
    && t.hops[0] == 0 && t.hops[1] == 6 && t.hops[2] == 7 && t.hops[3] == 5 && t.hops[4] == 4
    && t.child[0] == [4] && t.child[1] == [] && t.child[2] == [] && t.child[3] == [1, 2] && t.child[4] == [3]
    && t.leaf[0] == [] && t.leaf[1] == [11] && t.leaf[2] == [12] && t.leaf[3] == [] && t.leaf[4] == [14]
    && t.home[11] == Some(1) && t.home[12] == Some(2) && t.home[14] == Some(4)
  }

  ghost predicate HasFree(t: Tree, c3: nat, c4: nat, f1: nat, f2: nat) {
    && t.fchild.Keys == t.fleaf.Keys == {0, 1, 2, 3, 4}
    && t.fchild[0] == 1 && t.fchild[1] == 0 && t.fchild[2] == 0 && t.fchild[3] == c3 && t.fchild[4] == c4
    && t.fleaf[0] == 0 && t.fleaf[1] == f1 && t.fleaf[2] == f2 && t.fleaf[3] == 0 && t.fleaf[4] == 1
  }

  lemma FarFields(c3: nat, c4: nat, f1: nat, f2: nat)
    ensures IsFar(Far(c3, c4, f1, f2)) && HasFree(Far(c3, c4, f1, f2), c3, c4, f1, f2)
  {
    hide Far;
    var t := Far(c3, c4, f1, f2);
    FarTies(t, c3, c4, f1, f2);
    FarCells(t, c3, c4, f1, f2);
    FarHomes(t, c3, c4, f1, f2);
    FarCounters(t, c3, c4, f1, f2);
  }

  lemma FarHomes(t: Tree, c3: nat, c4: nat, f1: nat, f2: nat)
    requires t == Far(c3, c4, f1, f2)
    ensures t.root == 0 && t.home.Keys == {11, 12, 14}
    ensures t.home[11] == Some(1) && t.home[12] == Some(2) && t.home[14] == Some(4)
  {
  }

  lemma FarTies(t: Tree, c3: nat, c4: nat, f1: nat, f2: nat)
    requires t == Far(c3, c4, f1, f2)
    ensures t.parent.Keys == t.hops.Keys == {0, 1, 2, 3, 4}
    ensures t.parent[0] == None && t.parent[1] == Some(3) && t.parent[2] == Some(3)
        && t.parent[3] == Some(4) && t.parent[4] == Some(0)
    ensures t.hops[0] == 0 && t.hops[1] == 6 && t.hops[2] == 7 && t.hops[3] == 5 && t.hops[4] == 4
  {
  }

  lemma FarCells(t: Tree, c3: nat, c4: nat, f1: nat, f2: nat)
    requires t == Far(c3, c4, f1, f2)
    ensures t.child.Keys == t.leaf.Keys == {0, 1, 2, 3, 4}
    ensures t.child[0] == [4] && t.child[1] == [] && t.child[2] == [] && t.child[3] == [1, 2] && t.child[4] == [3]
    ensures t.leaf[0] == [] && t.leaf[1] == [11] && t.leaf[2] == [12] && t.leaf[3] == [] && t.leaf[4] == [14]
  {
  }

  lemma FarCounters(t: Tree, c3: nat, c4: nat, f1: nat, f2: nat)
    requires t == Far(c3, c4, f1, f2)
    ensures HasFree(t, c3, c4, f1, f2)
  {
  }

  lemma FarChildren(t: Tree)
    requires IsFar(t)
    ensures ChildLinks(t.parent, t.child)
  {
    assert t.child[0][0] in t.child[0] && t.child[4][0] in t.child[4];
    assert t.child[3][0] in t.child[3] && t.child[3][1] in t.child[3];
  }

  lemma FarLeaves(t: Tree)
    requires IsFar(t)
    ensures LeafLinks(t.parent.Keys, t.leaf, t.home)
  {
    assert t.leaf[1][0] in t.leaf[1] && t.leaf[2][0] in t.leaf[2] && t.leaf[4][0] in t.leaf[4];
  }

  lemma FarLinked(t: Tree)
    requires IsFar(t)
    ensures Linked(t) && DetachedEmpty(t)
  {
    hide ChildLinks, LeafLinks;
    FarChildren(t);
    FarLeaves(t);
  }

  lemma FarReduced(t: Tree)
    requires IsFar(t)
    ensures Strict(t) && AllHomed(t) && NoneBare(t)
  {
  }

  lemma FarRanked(t: Tree)
    requires IsFar(t)
    ensures Ranked(t.parent, Ranks())
  {
    var rk := Ranks();
    assert rk.Keys == {0, 1, 2, 3, 4} && rk[0] == 0 && rk[1] == 3 && rk[2] == 3 && rk[3] == 2 && rk[4] == 1;
  }

  lemma FarConsumed(t: Tree)
    requires IsFar(t) && HasFree(t, 2, 1, 1, 1)
    ensures Fresh(t) && Consumed(t, t.root)
  {
    FarFresh(t);
    hide IsFar, HasFree;
    forall a, i | a in t.parent && 0 <= i < |t.child[a]| ensures !Exhausted(t, t.child[a][i]) {
      FarBusy(t, a, i);
    }
  }

  lemma FarFresh(t: Tree)
    requires IsFar(t) && HasFree(t, 2, 1, 1, 1)
    ensures Fresh(t)
  {
  }

  lemma FarBusy(t: Tree, a: Addr, i: nat)
    requires IsFar(t) && HasFree(t, 2, 1, 1, 1) && a in t.parent && i < |t.child[a]|
    ensures !Exhausted(t, t.child[a][i])
  {
  }

  // Grouping may start on the tree, as it is after reduction.
  ghost predicate Startable(t: Tree, rk: map<Addr, nat>) {
    Steady(t, rk) && Fresh(t) && NoneBare(t) && AllHomed(t) && Strict(t) && Consumed(t, t.root)
  }

  lemma FarTree()
    ensures Startable(Unserved(), Ranks())
  {
    hide *;
    UnservedFields();
    FarLinked(Unserved());
    FarRanked(Unserved());
    FarConsumed(Unserved());
    FarReduced(Unserved());
    StartableIs(Unserved(), Ranks());
  }

  lemma UnservedFields()
    ensures IsFar(Unserved()) && HasFree(Unserved(), 2, 1, 1, 1)
  {
    hide Far, IsFar, HasFree;
    FarFields(2, 1, 1, 1);
  }

  lemma StartableIs(t: Tree, rk: map<Addr, nat>)
    requires Linked(t) && Ranked(t.parent, rk) && DetachedEmpty(t)
    requires Fresh(t) && NoneBare(t) && AllHomed(t) && Strict(t) && Consumed(t, t.root)
    ensures Startable(t, rk) && Keyed(t) && Steady(t, rk)
  {
  }

  lemma FarChain(t: Tree)
    requires IsFar(t) && HasFree(t, 2, 1, 1, 1)
    ensures Chain(t, [0, 4, 3, 1])
  {
    assert Step(t, 0, 4) && Step(t, 4, 3) && Step(t, 3, 1);
  }

  // Grouping starts at router 1.
  lemma FarStart(cfg: Config)
    requires Near(cfg)
    ensures Ready(cfg, Unserved(), Unserved(), [0, 4, 3, 1], [], NO_MERGE, [])
  {
    var t := Unserved();
    hide Unserved, Far, Ranks, Strict, NoneBare, AllHomed, Steady, Chain, Consumed, ChildLinks, LeafLinks, Ranked,
         HasFree;
    FarTree();
    UnservedFields();
    FarLinked(t);
    FarChain(t);
    AnyException(t, 1);
    FarFree(t);
    NothingBuilt(cfg, t, 1);
    assert Last([0, 4, 3, 1]) == 1;
  }

  lemma FarFree(t: Tree)
    requires IsFar(t) && HasFree(t, 2, 1, 1, 1)
    ensures t.fleaf[1] == 1 && t.fchild[1] == 0 && t.fleaf[1] == |t.leaf[1]| && Emitted(t, []) && !Exhausted(t, 1)
  {
  }

  lemma NothingBuilt(cfg: Config, t: Tree, r: Addr)
    requires Linked(t) && r in t.parent
    ensures MergeOver(t.hops, NO_MERGE) && ResetAt(cfg.mergeRange, t.hops, NO_MERGE, r) == NO_MERGE
    ensures Rcv([]) == [] && Building(cfg, t, 4, r, [], NO_MERGE)
  {
  }

  // The trees that occur after `Unserved`: router 1 has been served, and then counted.
  ghost function Counted1(): Tree { Far(1, 1, 0, 1) }

  // Router 2 has been served and counted as well.
  ghost function Counted2(): Tree { Far(0, 1, 0, 0) }

  // Router 3 has been counted.
  ghost function Counted3(): Tree { Far(0, 0, 0, 0) }

  lemma TakeFar(c3: nat, c4: nat, f2: nat)
    ensures Take(Far(c3, c4, 1, f2), 1, 1) == Far(c3, c4, 0, f2)
  {
    var a, b := Far(c3, c4, 1, f2).fleaf, Far(c3, c4, 0, f2).fleaf;
    assert a[1 := 0] == b;
  }

  lemma TakeFar2(c3: nat, c4: nat)
    ensures Take(Far(c3, c4, 0, 1), 2, 1) == Far(c3, c4, 0, 0)
  {
    var a, b := Far(c3, c4, 0, 1).fleaf, Far(c3, c4, 0, 0).fleaf;
    assert a[2 := 0] == b;
  }

  lemma CountFar3(c3: nat, c4: nat, f1: nat, f2: nat)
    requires c3 > 0
    ensures Count(Far(c3, c4, f1, f2), 3) == Far(c3 - 1, c4, f1, f2)
  {
    var a, b := Far(c3, c4, f1, f2).fchild, Far(c3 - 1, c4, f1, f2).fchild;
    assert a[3 := c3 - 1] == b;
  }

  lemma CountFar4(c3: nat, c4: nat, f1: nat, f2: nat)
    requires c4 > 0
    ensures Count(Far(c3, c4, f1, f2), 4) == Far(c3, c4 - 1, f1, f2)
  {
    var a, b := Far(c3, c4, f1, f2).fchild, Far(c3, c4 - 1, f1, f2).fchild;
    assert a[4 := c4 - 1] == b;
  }

  // Serving all free leaves of a router, as one step.
  lemma ReadyServes(cfg: Config, t0: Tree, t: Tree, rk: map<Addr, nat>, path: seq<Addr>, segs: seq<Seg>, m: Merge)
    requires Ready(cfg, t0, t, path, segs, m, []) && Ranked(t0.parent, rk)
    requires Last(path) in t.fleaf && 0 < t.fleaf[Last(path)]
    ensures |path| > 1 && Last(path) in t0.hops && MergeOver(t0.hops, m) && HandedOk(t, Last(path), t.fleaf[Last(path)])
    ensures var r := Last(path);
            var m1 := ResetAt(cfg.mergeRange, t0.hops, m, r);
            && MergeOver(t0.hops, m1)
            && var p := Place(cfg.mergeRange, t0.hops, m1, r, |Flat(segs)|);
               && (p.offset == 1 ==> p.write.Some?) && (p.offset != 1 ==> segs != [])
               && Served(cfg, t0, Take(t, r, t.fleaf[r]), path, Extend(segs, p, Handed(t, r, t.fleaf[r])), p.m, [])
  {
    hide Ready, Served, Serving, ChildLinks, LeafLinks, Ranked, PlacedAt, Appended, Place, Extend, Flat, Marks, Handed,
         Chain, Consumed, WithEntry, ResetAt, MergeOver;
    ReadyBasics(cfg, t0, t, rk, path, segs, m, []);
    var r, k := Last(path), t.fleaf[Last(path)];
    ReadyServing(cfg, t0, t, rk, path, segs, m, [], k);
    var m1 := ResetAt(cfg.mergeRange, t0.hops, m, r);
    Placing(cfg, t0, t, rk, path[1], r, segs, m1, k);
    var p := Place(cfg.mergeRange, t0.hops, m1, r, |Flat(segs)|);
    var was := Flat(segs) + if p.offset == 1 then [r] else [];
    assert was[..|Flat(segs)|] == Flat(segs);
    PlacedDone(cfg, t0, path[1], r, segs, p, Handed(t, r, k), was);
    AddServed(cfg, t0, t, rk, path, segs, m, [], Extend(segs, p, Handed(t, r, k)), WithEntry(was, p) + Handed(t, r, k),
              Marks(segs) + (if p.offset == 1 then {p.m.icr} else {}), p.m);
  }

  // The statistics after router 1 has been served, after the traversal has moved up to router 3, after
  // router 2 has been served, and after it has moved up to router 3 and router 4.
  const FIRST := Merge(Some(1), None, 0, 6)
  const SECOND := Merge(Some(1), Some(3), 0, 6)
  const THIRD := Merge(Some(3), None, 0, 6)
  const FOURTH := Merge(Some(3), Some(3), 0, 6)
  const FIFTH := Merge(Some(3), Some(4), 0, 6)

  // What the merge step does on the way, for merge ranges 1 and 2.
  lemma Steps(range: nat, hops: map<Addr, nat>)
    requires 1 <= range <= 2 && hops.Keys == {0, 1, 2, 3, 4}
    requires hops[1] == 6 && hops[2] == 7 && hops[3] == 5 && hops[4] == 4
    ensures MergeOver(hops, NO_MERGE) && MergeOver(hops, FIRST) && MergeOver(hops, SECOND)
    ensures ResetAt(range, hops, NO_MERGE, 1) == NO_MERGE
        && Place(range, hops, NO_MERGE, 1, 0) == Placed(FIRST, 1, Some(1))
    ensures MovedUp(range, hops, FIRST, 3) == SECOND && ResetAt(range, hops, SECOND, 3) == SECOND
    ensures ResetAt(range, hops, SECOND, 2) == SECOND && Mergeable(range, hops, SECOND, 2)
    ensures Place(range, hops, SECOND, 2, 2) == Placed(THIRD, 0, Some(3))
  {
  }

  lemma MoreSteps(hops: map<Addr, nat>)
    requires hops.Keys == {0, 1, 2, 3, 4} && hops[1] == 6 && hops[2] == 7 && hops[3] == 5 && hops[4] == 4
    ensures MergeOver(hops, THIRD) && MergeOver(hops, FOURTH) && MergeOver(hops, FIFTH)
    ensures MovedUp(2, hops, THIRD, 3) == FOURTH && ResetAt(2, hops, FOURTH, 3) == FOURTH
    ensures MovedUp(2, hops, FOURTH, 4) == FIFTH && ResetAt(2, hops, FIFTH, 4) == FIFTH
    ensures Place(2, hops, FIFTH, 4, 3) == Placed(FIFTH.(cr := Some(4)), 0, Some(4))
  {
  }

  lemma FarHanded(t: Tree, c3: nat, c4: nat, f1: nat, f2: nat)
    requires IsFar(t) && HasFree(t, c3, c4, f1, f2)
    ensures f1 == 1 ==> HandedOk(t, 1, 1) && Handed(t, 1, 1) == [11]
    ensures f2 == 1 ==> HandedOk(t, 2, 1) && Handed(t, 2, 1) == [12]
  {
  }

  // Router 1 is served.
  lemma FarFirst(cfg: Config)
    requires Near(cfg)
    ensures Served(cfg, Unserved(), Far(2, 1, 0, 1), [0, 4, 3, 1], [Seg(1, [11])], FIRST, [])
  {
    var t := Unserved();
    hide Far, IsFar, HasFree, Ready, Served, Extend, Place, ResetAt, MergeOver, Ranked, Ranks, Handed, HandedOk,
         MovedUp, Mergeable, Take;
    FarStart(cfg);
    UnservedFields();
    FarFacts(t, 2, 1, 1, 1);
    FarRanked(t);
    FarHanded(t, 2, 1, 1, 1);
    Steps(cfg.mergeRange, t.hops);
    assert Last([0, 4, 3, 1]) == 1 && |Flat([])| == 0;
    ReadyServes(cfg, t, t, Ranks(), [0, 4, 3, 1], [], NO_MERGE);
    TakeFar(2, 1, 1);
    ExtendNew(1, [11]);
  }

  lemma FarFacts(t: Tree, c3: nat, c4: nat, f1: nat, f2: nat)
    requires IsFar(t) && HasFree(t, c3, c4, f1, f2)
    ensures t.hops.Keys == {0, 1, 2, 3, 4} && t.hops[1] == 6 && t.hops[2] == 7 && t.hops[3] == 5 && t.hops[4] == 4
    ensures 1 in t.fleaf && t.fleaf[1] == f1 && 2 in t.fleaf && t.fleaf[2] == f2 && 3 in t.fleaf && t.fleaf[3] == 0
    ensures 3 in t.fchild && t.fchild[3] == c3 && 1 in t.fchild && t.fchild[1] == 0 && 2 in t.fchild && t.fchild[2] == 0
    ensures 3 in t.child && t.child[3] == [1, 2] && 4 in t.fchild && t.fchild[4] == c4
    ensures 1 in t.parent && 2 in t.parent && 3 in t.parent && t.parent[1] == Some(3) && t.parent[2] == Some(3)
        && t.parent[3] == Some(4)
  {
  }

  lemma ExtendNew(r: Addr, dst: seq<Addr>)
    ensures Extend([], Placed(FIRST, 1, Some(r)), dst) == [Seg(r, dst)]
  {
    assert [] + [Seg(r, dst)] == [Seg(r, dst)];
  }

  lemma ExtendOld(s: Seg, m: Merge, r: Addr, dst: seq<Addr>)
    ensures Extend([s], Placed(m, 0, Some(r)), dst) == [Seg(r, s.dst + dst)]
  {
    assert [s][..0] + [Seg(r, s.dst + dst)] == [Seg(r, s.dst + dst)];
  }

  // A served router without free children is counted at its parent, to which the traversal moves.
  lemma FarUp(cfg: Config, t: Tree, t': Tree, path: seq<Addr>, q: seq<Addr>, r: Addr, p: Addr, segs: seq<Seg>, m: Merge)
    requires Served(cfg, Unserved(), t, path, segs, m, []) && |path| > 2 && Last(path) == r && q == path[..|path| - 1]
    requires r in t.parent && r in t.fleaf && r in t.fchild && t.fleaf[r] == 0 && t.fchild[r] == 0
    requires t.parent[r] == Some(p) && p in t.fchild && t.fchild[p] > 0 && t' == Count(t, p) && path[|path| - 2] == p
    ensures p in Unserved().hops && MergeOver(Unserved().hops, m)
    ensures Ready(cfg, Unserved(), t', q, segs, MovedUp(cfg.mergeRange, Unserved().hops, m, p), [])
  {
    hide Unserved, Far, IsFar, HasFree, Ready, Served, Ranked, Ranks, MovedUp, ResetAt, MergeOver, Propagate, Linked,
         Keyed, ChildLinks, LeafLinks, NextUp, Chain, Consumed, SameTree, Exhausted, Closed, GroupOk;
    UnservedFields();
    FarRanked(Unserved());
    ServedAscend(cfg, Unserved(), t, Ranks(), path, segs, m, []);
    PropagateIs(t, r, p);
  }

  // Router 3 has no leaves to serve.
  lemma FarPass(cfg: Config, t: Tree, path: seq<Addr>, segs: seq<Seg>, m: Merge)
    requires Ready(cfg, Unserved(), t, path, segs, m, []) && |path| > 0 && Last(path) in t.fleaf
        && t.fleaf[Last(path)] == 0
    ensures Last(path) in Unserved().hops && MergeOver(Unserved().hops, m)
    ensures Served(cfg, Unserved(), t, path, segs, ResetAt(cfg.mergeRange, Unserved().hops, m, Last(path)), [])
  {
    hide Unserved, Far, IsFar, HasFree, Ready, Served, Ranked, Ranks, MovedUp, ResetAt, MergeOver, Count, Propagate,
         Linked, Keyed, ChildLinks, LeafLinks, NextUp, Chain, Consumed, SameTree, Exhausted, Closed, GroupOk;
    UnservedFields();
    FarRanked(Unserved());
    ReadyServed(cfg, Unserved(), t, Ranks(), path, segs, m, []);
  }

  lemma UnservedHops()
    ensures var hops := Unserved().hops;
            hops.Keys == {0, 1, 2, 3, 4} && hops[1] == 6 && hops[2] == 7 && hops[3] == 5 && hops[4] == 4
  {
    hide Unserved, IsFar, HasFree;
    UnservedFields();
    FarFacts(Unserved(), 2, 1, 1, 1);
  }

  // Router 1 is exhausted, so the traversal moves up to router 3.
  lemma FarSecondUp(cfg: Config)
    requires Near(cfg)
    ensures Ready(cfg, Unserved(), Counted1(), [0, 4, 3], [Seg(1, [11])], SECOND, [])
  {
    hide Unserved, Far, IsFar, HasFree, Ready, Served, Ranked, Ranks, MovedUp, ResetAt, MergeOver, Count, Propagate,
         Linked, Keyed, ChildLinks, LeafLinks, NextUp, Chain, Consumed, SameTree, Exhausted, Closed, GroupOk;
    var t1 := Far(2, 1, 0, 1);
    FarFirst(cfg);
    FarFields(2, 1, 0, 1);
    FarFacts(t1, 2, 1, 0, 1);
    CountFar3(2, 1, 0, 1);
    UnservedHops();
    Steps(cfg.mergeRange, Unserved().hops);
    assert [0, 4, 3, 1][..3] == [0, 4, 3];
    FarUp(cfg, t1, Counted1(), [0, 4, 3, 1], [0, 4, 3], 1, 3, [Seg(1, [11])], FIRST);
  }

  // From there it moves down to router 2.
  lemma FarSecond(cfg: Config)
    requires Near(cfg)
    ensures Ready(cfg, Unserved(), Counted1(), [0, 4, 3, 2], [Seg(1, [11])], SECOND, [])
  {
    hide Unserved, Far, IsFar, HasFree, Ready, Served, Ranked, Ranks, MovedUp, ResetAt, MergeOver, Count, Propagate,
         Linked, Keyed, ChildLinks, LeafLinks, NextUp, Chain, Consumed, SameTree, Exhausted, Closed, GroupOk;
    var t2 := Counted1();
    FarSecondUp(cfg);
    FarFields(1, 1, 0, 1);
    FarFacts(t2, 1, 1, 0, 1);
    UnservedHops();
    Steps(cfg.mergeRange, Unserved().hops);
    FarPass(cfg, t2, [0, 4, 3], [Seg(1, [11])], SECOND);
    assert [0, 4, 3] + [2] == [0, 4, 3, 2];
    ServedDescend(cfg, Unserved(), t2, [0, 4, 3], [Seg(1, [11])], SECOND, []);
  }

  lemma PropagateIs(t: Tree, r: Addr, p: Addr)
    requires r in t.parent && r in t.fleaf && r in t.fchild && t.fleaf[r] == 0 && t.fchild[r] == 0
    requires t.parent[r] == Some(p) && p in t.fchild && t.fchild[p] > 0
    ensures Propagate(t, r) == Count(t, p)
  {
  }

  // Router 2 is served behind router 3, which takes over the entry.
  lemma FarThird(cfg: Config)
    requires Near(cfg)
    ensures Served(cfg, Unserved(), Far(1, 1, 0, 0), [0, 4, 3, 2], [Seg(3, [11, 12])], THIRD, [])
  {
    var t, t2 := Unserved(), Counted1();
    hide Far, IsFar, HasFree, Ready, Served, Extend, Place, ResetAt, MergeOver, Ranked, Ranks, Handed, HandedOk,
         MovedUp, Mergeable, Take;
    FarSecond(cfg);
    UnservedFields();
    FarFields(1, 1, 0, 1);
    FarFacts(t, 2, 1, 1, 1);
    FarFacts(t2, 1, 1, 0, 1);
    FarRanked(t);
    FarHanded(t2, 1, 1, 0, 1);
    Steps(cfg.mergeRange, t.hops);
    assert Last([0, 4, 3, 2]) == 2 && |Flat([Seg(1, [11])])| == 2;
    ReadyServes(cfg, t, t2, Ranks(), [0, 4, 3, 2], [Seg(1, [11])], SECOND);
    TakeFar2(1, 1);
    ExtendOld(Seg(1, [11]), THIRD, 3, [12]);
    assert [11] + [12] == [11, 12];
  }

  // Router 2 is exhausted, so the traversal moves up to router 3 again.
  lemma FarThirdUp(cfg: Config)
    requires Near(cfg) && cfg.mergeRange == 2
    ensures Ready(cfg, Unserved(), Counted2(), [0, 4, 3], [Seg(3, [11, 12])], FOURTH, [])
  {
    hide Unserved, Far, IsFar, HasFree, Ready, Served, Ranked, Ranks, MovedUp, ResetAt, MergeOver, Count, Propagate,
         Linked, Keyed, ChildLinks, LeafLinks, NextUp, Chain, Consumed, SameTree, Exhausted, Closed, GroupOk;
    var t3 := Far(1, 1, 0, 0);
    FarThird(cfg);
    FarFields(1, 1, 0, 0);
    FarFacts(t3, 1, 1, 0, 0);
    CountFar3(1, 1, 0, 0);
    UnservedHops();
    MoreSteps(Unserved().hops);
    assert [0, 4, 3, 2][..3] == [0, 4, 3];
    FarUp(cfg, t3, Counted2(), [0, 4, 3, 2], [0, 4, 3], 2, 3, [Seg(3, [11, 12])], THIRD);
  }

  // Router 3 is exhausted as well, so it moves up to router 4.
  lemma FarFourth(cfg: Config)
    requires Near(cfg) && cfg.mergeRange == 2
    ensures Ready(cfg, Unserved(), Counted3(), [0, 4], [Seg(3, [11, 12])], FIFTH, [])
  {
    hide Unserved, Far, IsFar, HasFree, Ready, Served, Ranked, Ranks, MovedUp, ResetAt, MergeOver, Count, Propagate,
         Linked, Keyed, ChildLinks, LeafLinks, NextUp, Chain, Consumed, SameTree, Exhausted, Closed, GroupOk;
    var t4 := Counted2();
    FarThirdUp(cfg);
    FarFields(0, 1, 0, 0);
    FarFacts(t4, 0, 1, 0, 0);
    CountFar4(0, 1, 0, 0);
    UnservedHops();
    MoreSteps(Unserved().hops);
    assert [0, 4, 3][..2] == [0, 4];
    FarPass(cfg, t4, [0, 4, 3], [Seg(3, [11, 12])], FOURTH);
    FarUp(cfg, t4, Counted3(), [0, 4, 3], [0, 4], 3, 4, [Seg(3, [11, 12])], FOURTH);
  }

  // With merge range `range`, `r` is mergeable and gets router `e` as its entry, which is `far` hops away
  // from router `x`.
  ghost predicate FarEntry(range: nat, hops: map<Addr, nat>, m: Merge, r: Addr, n: nat, e: Addr, x: Addr, far: nat) {
    && r in hops && x in hops && e in hops && MergeOver(hops, m) && Mergeable(range, hops, m, r)
    && var p := Place(range, hops, m, r, n);
       p.m.cr == Some(e) && p.offset == 0 && p.write == Some(e) && Dist(hops[e], hops[x]) == far
  }

  // With merge range 1, the router that is served comes to be 2 hops away from its entry.
  lemma MergeFar(cfg: Config)
    requires Near(cfg) && cfg.mergeRange == 1
    ensures Decision(cfg, 0, 1, 1) == (false, 1) && Decision(cfg, 2, 1, 0) == (false, 1)
    ensures Startable(Unserved(), Ranks())
    ensures Ready(cfg, Unserved(), Unserved(), [0, 4, 3, 1], [], NO_MERGE, [])
    ensures Ready(cfg, Unserved(), Counted1(), [0, 4, 3, 2], [Seg(1, [11])], SECOND, [])
    ensures FarEntry(1, Unserved().hops, SECOND, 2, 2, 3, 2, 2)
  {
    hide Unserved, Counted1, Ranks, IsFar, HasFree, Ready, Startable;
    FarTree();
    FarStart(cfg);
    FarSecond(cfg);
    UnservedFields();
    FarFacts(Unserved(), 2, 1, 1, 1);
    Steps(1, Unserved().hops);
  }

  // With merge range 2, every router is within the range of the entry when it is served, but the last one
  // becomes the entry, 3 hops away from router 2.
  lemma MergeStrands(cfg: Config)
    requires Near(cfg) && cfg.mergeRange == 2
    ensures Decision(cfg, 0, 1, 1) == (false, 1) && Decision(cfg, 2, 1, 0) == (false, 1)
        && Decision(cfg, 3, 1, 0).1 == 1
    ensures Startable(Unserved(), Ranks())
    ensures Ready(cfg, Unserved(), Unserved(), [0, 4, 3, 1], [], NO_MERGE, [])
    ensures Ready(cfg, Unserved(), Counted1(), [0, 4, 3, 2], [Seg(1, [11])], SECOND, [])
    ensures Ready(cfg, Unserved(), Counted3(), [0, 4], [Seg(3, [11, 12])], FIFTH, [])
    ensures FarEntry(2, Unserved().hops, SECOND, 2, 2, 3, 2, 2)
    ensures FarEntry(2, Unserved().hops, FIFTH, 4, 3, 4, 4, 0) && FarEntry(2, Unserved().hops, FIFTH, 4, 3, 4, 2, 3)
  {
    hide Unserved, Counted1, Counted3, Ranks, IsFar, HasFree, Ready, Startable;
    FarTree();
    FarStart(cfg);
    FarSecond(cfg);
    FarFourth(cfg);
    UnservedFields();
    FarFacts(Unserved(), 2, 1, 1, 1);
    Steps(2, Unserved().hops);
    MoreSteps(Unserved().hops);
  }
}
