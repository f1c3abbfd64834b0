// Completeness needs rising reports: an order of genuine reports, all routes being reported in full,
// after which the sender's tree differs from the network. One of the reports again repairs it.
module OrderExample {
  import opened Base
  import opened Forest
  import opened Topology
  import opened Network

  // Three routers 1, 2, 3 in a row; receivers 11 and 13 are behind router 3, receiver 12 behind 2.
  ghost function Row(): Net {
    Net(0, map[0 := None, 1 := Some(0), 2 := Some(1), 3 := Some(2)], map[0 := 0, 1 := 1, 2 := 2, 3 := 3],
        map[11 := 3, 12 := 2, 13 := 3])
  }

  ghost function Joined(): Tree {
    Tree(0, map[0 := None], map[0 := 0], map[0 := []], map[0 := 0], map[0 := [13, 12, 11]], map[0 := 3],
         map[11 := Some(0), 12 := Some(0), 13 := Some(0)])
  }

  ghost function Reports(): (s: seq<Report>)
    ensures |s| == 8
  {
    [Report(2, 11, 2), Report(1, 12, 1), Report(2, 12, 2), Report(3, 13, 3),
     Report(3, 11, 3), Report(1, 13, 1), Report(1, 11, 1), Report(2, 13, 2)]
  }

  lemma RowOk()
    ensures NetOk(Row())
  {
    var net := Row();
    assert net.up.Keys == net.depth.Keys == {0, 1, 2, 3} && net.at.Keys == {11, 12, 13};
  }

  lemma RowRoutes()
    ensures forall r, l | r in {1, 2, 3} && l in {11, 12, 13} ::
              OnRoute(Row(), r, l) <==> (r == 3 ==> l != 12)
  {
    var up := Row().up;
    assert Anc(up, 1, 1) && Anc(up, 2, 2) && Anc(up, 3, 3) && !Anc(up, 3, 0);
    assert Anc(up, 1, 2) && Anc(up, 2, 3) && !Anc(up, 3, 1);
    assert Anc(up, 1, 3) && !Anc(up, 3, 2);
  }

  // Every router on the route to every receiver is reported.
  lemma AllReported()
    ensures forall i | 0 <= i < |Reports()| :: Genuine(Row(), Reports()[i].r, Reports()[i].l, Reports()[i].h)
    ensures forall r, l | r in {1, 2, 3} && l in {11, 12, 13} && OnRoute(Row(), r, l) :: Report(r, l, r) in Reports()
  {
    RowRoutes();
    var s := Reports();
    assert s[0] in s && s[1] in s && s[2] in s && s[3] in s && s[4] in s && s[5] in s && s[6] in s && s[7] in s;
  }

  lemma JoinedGrows()
    ensures Keyed(Joined()) && Growing(Joined(), map[0 := 0]) && Sound(Row(), Joined())
  {
    hide ChildLinks, LeafLinks, Keyed, Fresh, DetachedEmpty, AllHomed, Ranked, HopsUp, Joined, Sound, Row;
    JoinedLinked();
    JoinedCounts();
    JoinedLinks();
    JoinedSound();
  }

  lemma JoinedCounts()
    requires Keyed(Joined())
    ensures Fresh(Joined()) && DetachedEmpty(Joined()) && AllHomed(Joined())
  {
    hide Keyed;
  }

  lemma JoinedLinks()
    ensures var t := Joined();
            && t.root == 0 && t.parent.Keys == {0} && t.hops.Keys == {0} && Ranked(t.parent, map[0 := 0])
            && HopsUp(t.parent, t.hops) && t.hops[0] == 0
  {
  }

  lemma JoinedSound()
    requires Keyed(Joined())
    ensures Sound(Row(), Joined())
  {
    hide Keyed, Anc, OnRoute, Sound, NetOk;
    RowOk();
    var t := Joined();
    assert t.parent.Keys == {0} && t.home.Keys == {11, 12, 13} && Row().at.Keys == {11, 12, 13};
    forall l | l in t.home ensures OnRoute(Row(), t.home[l].value, l) {
      JoinedAt(l);
    }
    assert t.root == Row().root && t.hops[t.root] == 0 && t.parent.Keys !! Row().at.Keys;
    assert forall a | a in t.parent :: t.parent[a].None?;
    SoundIs(Row(), t);
  }

  lemma JoinedAt(l: Addr)
    requires NetOk(Row()) && l in {11, 12, 13}
    ensures OnRoute(Row(), 0, l)
  {
    hide Anc;
    UpRoot(Row(), Row().at[l]);
  }

  lemma JoinedLinked()
    ensures Keyed(Joined()) && Linked(Joined())
  {
    var t := Joined();
    assert t.parent.Keys == t.hops.Keys == t.child.Keys == t.fchild.Keys == t.leaf.Keys == t.fleaf.Keys == {0};
    assert t.leaf[0] == [13, 12, 11] && t.home.Keys == {11, 12, 13};
    assert t.leaf[0][0] in t.leaf[0] && t.leaf[0][1] in t.leaf[0] && t.leaf[0][2] in t.leaf[0];
  }

  // Links and hop counts of a tree.
  datatype View = View(parent: map<Addr, Option<Addr>>, home: map<Addr, Option<Addr>>, hops: map<Addr, nat>)

  // The tree has grown from `Joined` and looks like `v`.
  ghost predicate Looks(t: Tree, rk: map<Addr, nat>, v: View) {
    && Keyed(t) && Growing(t, rk) && Sound(Row(), t)
    && t.root == 0 && t.parent == v.parent && t.home == v.home && t.hops == v.hops
  }

  // Report `x` turns `v` into `v'`, because `c` is the place where it cuts the receiver's path below `g`.
  ghost predicate Turns(v: View, x: Report, q: Addr, g: Addr, c: Cell, v': View) {
    && x.l in v.home && v.home[x.l] == Some(q) && q in v.hops
    && (if c.Lf? then c.l == x.l && g == q && v.hops[x.r := x.h][q] <= x.h
        else c.a == q && v.hops[x.r := x.h][q] > x.h && q in v.parent && v.parent[q] == Some(g) && g in v.hops
             && v.hops[x.r := x.h][g] <= x.h)
    && v'.parent == ParentAfter(v.parent, g, x.r, c)
    && v'.home == (if c.Lf? then v.home[x.l := Some(x.r)] else v.home)
    && v'.hops == v.hops[x.r := x.h]
  }

  lemma Next(t: Tree, rk: map<Addr, nat>, v: View, x: Report, q: Addr, g: Addr, c: Cell, v': View, rest: seq<Report>)
    returns (t': Tree, rk': map<Addr, nat>)
    requires Looks(t, rk, v) && Genuine(Row(), x.r, x.l, x.h) && Turns(v, x, q, g, c, v')
    ensures Looks(t', rk', v')
    ensures Feed(t, rk, [x] + rest) == Feed(t', rk', rest)
  {
    hide ChildLinks, LeafLinks, Growing, Sound, Update, UpdateRank, Genuine, Ranked, Keyed, Row, ParentAfter;
    RowOk();
    GrowingBasics(t, rk);
    RootedBasics(t, rk);
    UpdateSound(Row(), t, rk, x.r, x.l, x.h);
    UpdateLinks(t, rk, x.r, x.l, x.h);
    PlacedWhere(t, rk, x, q, g, c);
    t', rk' := Update(t, rk, x.r, x.l, x.h), UpdateRank(t, rk, x.r, x.l, x.h);
    assert ([x] + rest)[1..] == rest;
  }

  lemma PlacedWhere(t: Tree, rk: map<Addr, nat>, x: Report, q: Addr, g: Addr, c: Cell)
    requires Rooted(t, rk) && x.l in t.home && t.home[x.l] == Some(q) && q in t.hops
    requires if c.Lf? then c.l == x.l && g == q && t.hops[x.r := x.h][q] <= x.h
             else c.a == q && t.hops[x.r := x.h][q] > x.h && q in t.parent && t.parent[q] == Some(g) && g in t.hops
                  && t.hops[x.r := x.h][g] <= x.h
    ensures Position(t, rk, x.r, x.l, x.h) == c && Up(t, c) == Some(g)
  {
    hide ChildLinks, LeafLinks;
    if c.Rt? {
      assert PathPos(t, t.hops[x.r := x.h], rk, Rt(q), x.h) == Rt(q);
    }
  }

  ghost function V(i: nat): View
    requires i <= 8
  {
    var h1: map<Addr, Option<Addr>> := map[11 := Some(2), 12 := Some(0), 13 := Some(0)];
    var p2: map<Addr, Option<Addr>> := map[0 := None, 1 := Some(0), 2 := Some(0)];
    var p4: map<Addr, Option<Addr>> := p2[3 := Some(0)];
    var h5: map<Addr, Option<Addr>> := map[11 := Some(3), 12 := Some(2), 13 := Some(3)];
    var d: map<Addr, nat> := map[0 := 0, 1 := 1, 2 := 2, 3 := 3];
    match i
    case 0 => View(map[0 := None], map[11 := Some(0), 12 := Some(0), 13 := Some(0)], map[0 := 0])
    case 1 => View(map[0 := None, 2 := Some(0)], h1, map[0 := 0, 2 := 2])
    case 2 => View(p2, h1[12 := Some(1)], map[0 := 0, 1 := 1, 2 := 2])
    case 3 => View(p2, h1[12 := Some(2)], map[0 := 0, 1 := 1, 2 := 2])
    case 4 => View(p4, h1[12 := Some(2)][13 := Some(3)], d)
    case 5 => View(p4, h5, d)
    case 6 => View(p4[3 := Some(1)], h5, d)
    case 7 => View(p4[3 := Some(1)], h5, d)
    case 8 => View(p4[3 := Some(2)], h5, d)
  }

  lemma FirstTurns()
    ensures var s := Reports();
            && Turns(V(0), s[0], 0, 0, Lf(11), V(1)) && Turns(V(1), s[1], 0, 0, Lf(12), V(2))
            && Turns(V(2), s[2], 1, 1, Lf(12), V(3)) && Turns(V(3), s[3], 0, 0, Lf(13), V(4))
  {
  }

  lemma SecondTurns()
    ensures var s := Reports();
            && Turns(V(4), s[4], 2, 2, Lf(11), V(5)) && Turns(V(5), s[5], 3, 0, Rt(3), V(6))
            && Turns(V(6), s[6], 3, 1, Rt(3), V(7)) && Turns(V(7), s[7], 3, 1, Rt(3), V(8))
  {
  }

  lemma Half(t0: Tree, rk0: map<Addr, nat>, i: nat, rest: seq<Report>) returns (t: Tree, rk: map<Addr, nat>)
    requires i == 0 || i == 4
    requires forall k | 0 <= k < 8 :: Genuine(Row(), Reports()[k].r, Reports()[k].l, Reports()[k].h)
    requires Looks(t0, rk0, V(i))
    ensures Looks(t, rk, V(i + 4))
    ensures var s := Reports();
            Feed(t0, rk0, [s[i]] + ([s[i + 1]] + ([s[i + 2]] + ([s[i + 3]] + rest)))) == Feed(t, rk, rest)
  {
    FirstTurns();
    SecondTurns();
    hide Looks, Genuine, Row, Feed, Joined, V, Turns, Reports;
    var s := Reports();
    t, rk := t0, rk0;
    if i == 0 {
      t, rk := Next(t, rk, V(0), s[0], 0, 0, Lf(11), V(1), [s[1]] + ([s[2]] + ([s[3]] + rest)));
      t, rk := Next(t, rk, V(1), s[1], 0, 0, Lf(12), V(2), [s[2]] + ([s[3]] + rest));
      t, rk := Next(t, rk, V(2), s[2], 1, 1, Lf(12), V(3), [s[3]] + rest);
      t, rk := Next(t, rk, V(3), s[3], 0, 0, Lf(13), V(4), rest);
    } else {
      t, rk := Next(t, rk, V(4), s[4], 2, 2, Lf(11), V(5), [s[5]] + ([s[6]] + ([s[7]] + rest)));
      t, rk := Next(t, rk, V(5), s[5], 3, 0, Rt(3), V(6), [s[6]] + ([s[7]] + rest));
      t, rk := Next(t, rk, V(6), s[6], 3, 1, Rt(3), V(7), [s[7]] + rest);
      t, rk := Next(t, rk, V(7), s[7], 3, 1, Rt(3), V(8), rest);
    }
  }

  // The run of the reports, before any others.
  lemma RunAll(rest: seq<Report>) returns (t: Tree, rk: map<Addr, nat>)
    ensures NetOk(Row()) && Keyed(Joined()) && Growing(Joined(), map[0 := 0]) && Sound(Row(), Joined())
    ensures Looks(t, rk, V(8))
    ensures Feed(Joined(), map[0 := 0], Reports() + rest) == Feed(t, rk, rest)
  {
    hide Growing, Sound, Genuine, Keyed, Feed, OnRoute, NetOk, Looks, Joined, Reports, Row, V;
    RowOk();
    AllReported();
    JoinedGrows();
    JoinedLooks();
    var s := Reports();
    var more := [s[4]] + ([s[5]] + ([s[6]] + ([s[7]] + rest)));
    assert s + rest == [s[0]] + ([s[1]] + ([s[2]] + ([s[3]] + more)));
    t, rk := Half(Joined(), map[0 := 0], 0, more);
    t, rk := Half(t, rk, 4, rest);
  }

  // Router 2 ends up beside router 1, which is above it in the network.
  lemma OrderMatters()
    ensures NetOk(Row()) && Keyed(Joined()) && Growing(Joined(), map[0 := 0]) && Sound(Row(), Joined())
    ensures Genuines(Row(), Joined(), Reports())
    ensures forall r, l | r in {1, 2, 3} && l in {11, 12, 13} && OnRoute(Row(), r, l) :: Report(r, l, r) in Reports()
    ensures var t := Feed(Joined(), map[0 := 0], Reports()).0;
            1 in t.parent && 2 in t.parent && t.parent[2] == Some(0) && Row().up[2] == Some(1)
  {
    hide Growing, Sound, Genuine, Keyed, Feed, OnRoute, NetOk, Looks, Joined, Reports, Row, V;
    AllReported();
    var t, rk := RunAll([]);
    assert Reports() + [] == Reports();
    FeedNone(t, rk);
    LooksLast(t, rk);
    ReportsJoined();
  }

  // The network as it is.
  ghost function Restored(): View {
    View(map[0 := None, 1 := Some(0), 2 := Some(1), 3 := Some(2)], map[11 := Some(3), 12 := Some(2), 13 := Some(3)],
         map[0 := 0, 1 := 1, 2 := 2, 3 := 3])
  }

  // When router 1 is reported once more for receiver 12, router 2 moves below it, and the tree is the
  // routing tree.
  lemma Repaired()
    ensures Genuine(Row(), 1, 12, 1) && Report(1, 12, 1) in Reports()
    ensures var t := Feed(Joined(), map[0 := 0], Reports() + [Report(1, 12, 1)]).0;
            t.parent == Row().up && t.home == map[11 := Some(3), 12 := Some(2), 13 := Some(3)]
  {
    hide Growing, Sound, Genuine, Keyed, Feed, OnRoute, NetOk, Looks, Joined, Reports, Row, V, Turns, Restored;
    var x := Report(1, 12, 1);
    AgainTurns();
    AgainGenuine();
    var t, rk := RunAll([x]);
    assert [x] == [x] + [];
    t, rk := Next(t, rk, V(8), x, 2, 0, Rt(2), Restored(), []);
    FeedNone(t, rk);
    LooksRestored(t, rk);
  }

  lemma AgainTurns()
    ensures Turns(V(8), Report(1, 12, 1), 2, 0, Rt(2), Restored())
  {
  }

  lemma AgainGenuine()
    ensures Genuine(Row(), 1, 12, 1) && Report(1, 12, 1) in Reports()
  {
    AllReported();
    assert Reports()[1] == Report(1, 12, 1);
  }

  lemma LooksRestored(t: Tree, rk: map<Addr, nat>)
    requires Looks(t, rk, Restored())
    ensures t.parent == Row().up && t.home == map[11 := Some(3), 12 := Some(2), 13 := Some(3)]
  {
    hide Keyed, Growing, Sound;
  }

  lemma JoinedLooks()
    requires Keyed(Joined()) && Growing(Joined(), map[0 := 0]) && Sound(Row(), Joined())
    ensures Looks(Joined(), map[0 := 0], V(0))
  {
    hide Keyed, Growing, Sound;
  }

  lemma ReportsJoined()
    ensures forall i | 0 <= i < |Reports()| :: Reports()[i].l in Joined().home
    ensures 2 in Row().up && Row().up[2] == Some(1)
  {
  }

  lemma LooksLast(t: Tree, rk: map<Addr, nat>)
    requires Looks(t, rk, V(8))
    ensures 1 in t.parent && 2 in t.parent && t.parent[2] == Some(0)
  {
    hide Keyed, Growing, Sound;
    var p := V(8).parent;
    assert 1 in p && 2 in p && p[2] == Some(0);
  }
}
