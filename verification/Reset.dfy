// Reset after grouping: all receivers return to the root, and every other router leaves the tree
// but stays indexed, ready to be attached again by the next discovery phase.
module Reset {
  import opened Base
  import opened Forest
  import opened Nodes
  import Topology
  import Rx
  import Reduction
  import Ops = TreeOps

  // `s` without the routers in `gone`.
  ghost function Without(s: seq<Addr>, gone: set<Addr>): seq<Addr> {
    if s == [] then []
    else if s[0] in gone then Without(s[1..], gone)
    else [s[0]] + Without(s[1..], gone)
  }

  lemma {:induction false} WithoutMore(s: seq<Addr>, gone: set<Addr>, r: Addr)
    requires Distinct(s) && r !in gone
    ensures Without(s, gone + {r}) == Remove(Without(s, gone), r)
    ensures r !in s ==> Without(s, gone + {r}) == Without(s, gone)
  {
    if s != [] {
      WithoutMore(s[1..], gone, r);
      if s[0] == r {
        assert r !in s[1..];
        assert Without(s, gone) == [r] + Without(s[1..], gone);
      } else if s[0] !in gone {
        assert ([s[0]] + Without(s[1..], gone))[1..] == Without(s[1..], gone);
      }
    }
  }

  lemma {:induction false} WithoutAll(s: seq<Addr>, gone: set<Addr>)
    requires forall x :: x in s ==> x in gone
    ensures Without(s, gone) == []
  {
    if s != [] {
      WithoutAll(s[1..], gone);
    }
  }

  lemma {:induction false} WithoutNone(s: seq<Addr>, gone: set<Addr>)
    requires forall x :: x in s ==> x !in gone
    ensures Without(s, gone) == s
  {
    if s != [] {
      WithoutNone(s[1..], gone);
    }
  }

  // Parent pointers and child lists when the routers in `gone` have left the tree.
  ghost predicate ClearedLinks(parent0: map<Addr, Option<Addr>>, child0: map<Addr, seq<Addr>>,
                               parent: map<Addr, Option<Addr>>, child: map<Addr, seq<Addr>>, gone: set<Addr>)
    requires child0.Keys == parent0.Keys
  {
    && parent.Keys == parent0.Keys && child.Keys == parent.Keys
    && (forall a {:trigger parent[a]} | a in parent :: parent[a] == if a in gone then None else parent0[a])
    && (forall a {:trigger child[a]} | a in parent :: child[a] == if a in gone then [] else Without(child0[a], gone))
  }

  // Leaf lists when the receivers of the routers in `gone` have returned to the root.
  ghost predicate ClearedLeaves(root: Addr, leaf0: map<Addr, seq<Addr>>, home0: map<Addr, Option<Addr>>,
                                leaf: map<Addr, seq<Addr>>, home: map<Addr, Option<Addr>>, gone: set<Addr>) {
    && leaf.Keys == leaf0.Keys && home.Keys == home0.Keys
    && (forall a {:trigger leaf[a]} | a in leaf && a != root :: leaf[a] == if a in gone then [] else leaf0[a])
    && (forall l {:trigger home[l]} | l in home ::
          home[l] == if home0[l].Some? && home0[l].value in gone then Some(root) else home0[l])
  }

  // Counters and hop counts: nothing is free but leaves of the root.
  ghost predicate ClearedCounts(t0: Tree, t: Tree, gone: set<Addr>)
    requires Keyed(t0) && Keyed(t) && t.parent.Keys == t0.parent.Keys
  {
    forall a | a in t.parent ::
      t.hops[a] == (if a in gone then 0 else t0.hops[a]) && t.fchild[a] == 0 && (a != t.root ==> t.fleaf[a] == 0)
  }

  // The tree `t0` when the routers in `gone` have been reset.
  ghost predicate Cleared(t0: Tree, t: Tree, gone: set<Addr>)
    requires Keyed(t0)
  {
    && Linked(t) && t.root == t0.root && t0.root !in gone
    && ClearedLinks(t0.parent, t0.child, t.parent, t.child, gone)
    && ClearedLeaves(t0.root, t0.leaf, t0.home, t.leaf, t.home, gone)
    && ClearedCounts(t0, t, gone)
  }

  // All counters are used up, as after grouping.
  ghost predicate AllUsed(t: Tree)
    requires Keyed(t)
  {
    forall a | a in t.parent :: t.fchild[a] == 0 && t.fleaf[a] == 0
  }

  lemma ClearedStart(t: Tree)
    requires Linked(t) && AllUsed(t)
    ensures Cleared(t, t, {})
  {
    forall a | a in t.parent ensures Without(t.child[a], {}) == t.child[a] {
      WithoutNone(t.child[a], {});
    }
  }

  // The routers of the subtree of `r`.
  ghost function Subtree(parent: map<Addr, Option<Addr>>, r: Addr): set<Addr> {
    set a | a in parent && Anc(parent, r, a)
  }

  // What happens to router `r`, which has no children left: its receivers go to the root one by
  // one, and it leaves its parent. `k` receivers have moved already.
  ghost predicate Moving(t1: Tree, t: Tree, r: Addr, k: nat)
    requires Keyed(t1) && r in t1.parent
  {
    && Linked(t) && t == t1.(home := t.home, leaf := t.leaf, fleaf := t.fleaf)
    && k <= |t1.leaf[r]| && t.leaf[r] == t1.leaf[r][k..] && t.fleaf[r] == 0
    && (forall a | a in t.parent && a != r && a != t.root :: t.leaf[a] == t1.leaf[a] && t.fleaf[a] == t1.fleaf[a])
    && t.home == Ops.ParentsUp(t1.home, t1.leaf[r][..k], t.root)
  }

  lemma MovingStart(t: Tree, r: Addr)
    requires Linked(t) && r in t.parent && r in t.fleaf && t.fleaf[r] == 0
    ensures Moving(t, t, r, 0)
  {
  }

  lemma MovingBasics(t1: Tree, t: Tree, r: Addr, k: nat)
    requires Keyed(t1) && r in t1.parent && r != t1.root && Moving(t1, t, r, k) && k < |t1.leaf[r]|
    ensures Linked(t) && Keyed(t) && t.root in t.parent && t.root == t1.root
    ensures Topology.Up(t, Topology.Lf(t1.leaf[r][k])) == Some(r)
  {
    hide ChildLinks;
    assert t.leaf[r][0] == t1.leaf[r][k];
    assert t1.leaf[r][k] in t.leaf[r];
  }

  lemma MovingStep(t1: Tree, t: Tree, r: Addr, k: nat)
    requires Keyed(t1) && r in t1.parent && r != t1.root && Moving(t1, t, r, k) && k < |t1.leaf[r]|
    requires Linked(t) && Keyed(t) && t.root in t.parent && Topology.Up(t, Topology.Lf(t1.leaf[r][k])) == Some(r)
    ensures Moving(t1, Topology.Adopt(t, t.root, Topology.Lf(t1.leaf[r][k])), r, k + 1)
  {
    hide ChildLinks, LeafLinks, Ops.ParentsUp, Remove;
    var l := t1.leaf[r][k];
    Topology.AdoptLinked(t, t.root, Topology.Lf(l));
    assert t.leaf[r][0] == l && t.leaf[r][1..] == t1.leaf[r][k + 1..];
    RemoveFirst(t.leaf[r]);
    assert t1.leaf[r][..k + 1] == t1.leaf[r][..k] + [l];
    MovedSnoc(t1.home, t1.leaf[r][..k], l, t.root);
  }

  lemma RemoveFirst(s: seq<Addr>)
    requires s != []
    ensures Remove(s, s[0]) == s[1..]
  {
  }

  lemma MovedSnoc(m: map<Addr, Option<Addr>>, s: seq<Addr>, l: Addr, p: Addr)
    requires l in Ops.ParentsUp(m, s, p)
    ensures Ops.ParentsUp(m, s, p)[l := Some(p)] == Ops.ParentsUp(m, s + [l], p)
  {
  }

  lemma LeaveLinks(parent0: map<Addr, Option<Addr>>, child0: map<Addr, seq<Addr>>,
                   parent: map<Addr, Option<Addr>>, child: map<Addr, seq<Addr>>, gone: set<Addr>, r: Addr)
    requires child0.Keys == parent0.Keys && ChildLinks(parent0, child0)
    requires ClearedLinks(parent0, child0, parent, child, gone) && ChildLinks(parent, child)
    requires r in parent && r !in gone && parent[r].Some? && child[r] == []
    ensures parent[r].value in child && r in child[parent[r].value]
    ensures var p := parent[r].value;
            var parent', child' := parent[r := None], child[p := Remove(child[p], r)];
            ClearedLinks(parent0, child0, parent', child', gone + {r}) && ChildLinks(parent', child')
  {
    hide ChildLinks, Without, Remove;
    var p := parent[r].value;
    ChildOf(parent, child, r);
    LeaveChild(parent, child, r);
    var child' := child[p := Remove(child[p], r)];
    forall a | a in parent ensures child'[a] == if a in gone + {r} then [] else Without(child0[a], gone + {r}) {
      LeaveAt(parent0, child0, a, gone, r);
      assert child[a] == if a in gone then [] else Without(child0[a], gone);
      assert parent[r] == parent0[r];
    }
  }

  lemma ChildOf(parent: map<Addr, Option<Addr>>, child: map<Addr, seq<Addr>>, r: Addr)
    requires child.Keys == parent.Keys && ChildLinks(parent, child) && r in parent && parent[r].Some?
    ensures parent[r].value in child && r in child[parent[r].value]
  {
  }

  lemma LeaveAt(parent0: map<Addr, Option<Addr>>, child0: map<Addr, seq<Addr>>, a: Addr, gone: set<Addr>, r: Addr)
    requires child0.Keys == parent0.Keys && ChildLinks(parent0, child0) && a in child0 && r !in gone && r in parent0
    ensures Without(child0[a], gone + {r}) ==
            if parent0[r] == Some(a) then Remove(Without(child0[a], gone), r) else Without(child0[a], gone)
  {
    hide Without, Remove;
    WithoutMore(child0[a], gone, r);
    if r in child0[a] { assert parent0[r] == Some(a); }
  }

  lemma LeaveChild(parent: map<Addr, Option<Addr>>, child: map<Addr, seq<Addr>>, r: Addr)
    requires child.Keys == parent.Keys && ChildLinks(parent, child)
    requires r in parent && parent[r].Some? && child[r] == []
    ensures parent[r].value in child
    ensures ChildLinks(parent[r := None], child[parent[r].value := Remove(child[parent[r].value], r)])
  {
    var p := parent[r].value;
    RemoveDistinct(child[p], r);
  }

  lemma LeaveLeaves(root: Addr, leaf0: map<Addr, seq<Addr>>, home0: map<Addr, Option<Addr>>, routers: set<Addr>,
                    leaf: map<Addr, seq<Addr>>, home: map<Addr, Option<Addr>>, gone: set<Addr>, r: Addr,
                    leaf': map<Addr, seq<Addr>>)
    requires ClearedLeaves(root, leaf0, home0, leaf, home, gone) && leaf.Keys == routers
        && LeafLinks(routers, leaf, home)
    requires r in routers && r != root && r !in gone && leaf'.Keys == leaf.Keys
    requires leaf'[r] == [] && forall a | a in leaf && a != r && a != root :: leaf'[a] == leaf[a]
    ensures ClearedLeaves(root, leaf0, home0, leaf', Ops.ParentsUp(home, leaf[r], root), gone + {r})
  {
  }

  // The record of `r` once its receivers are gone: counters and hop count are cleared, and it
  // leaves its parent `p`.
  ghost function Leave(t: Tree, r: Addr, p: Addr): Tree
    requires Keyed(t) && r in t.parent && p in t.parent && r in t.child[p]
  {
    t.(parent := t.parent[r := None], child := t.child[p := Remove(t.child[p], r)], hops := t.hops[r := 0],
       fchild := t.fchild[r := 0][p := Ops.Dec(t.fchild[r := 0][p])], fleaf := t.fleaf[r := 0])
  }

  lemma Left(t0: Tree, t1: Tree, t: Tree, gone: set<Addr>, r: Addr)
    requires Linked(t0) && Keyed(t0) && Cleared(t0, t1, gone) && Keyed(t1) && r in t1.parent && r !in gone
        && t1.parent[r].Some? && t1.child[r] == []
    requires Moving(t1, t, r, |t1.leaf[r]|)
    ensures Keyed(t) && t.parent[r].Some? && t.parent[r].value in t.parent && r in t.child[t.parent[r].value]
    ensures Cleared(t0, Leave(t, r, t.parent[r].value), gone + {r})
  {
    hide ChildLinks, LeafLinks, ClearedLinks, ClearedLeaves, ClearedCounts, Remove, Without, Leave, Keyed, Moving,
         Ops.ParentsUp;
    ClearedKeys(t0, t1, gone);
    MovingLinked(t1, t, r, |t1.leaf[r]|);
    MovingLeaves(t1, t, r);
    LeaveLinks(t0.parent, t0.child, t1.parent, t1.child, gone, r);
    LeaveLeaves(t0.root, t0.leaf, t0.home, t1.parent.Keys, t1.leaf, t1.home, gone, r, t.leaf);
    var p := t.parent[r].value;
    LeaveKeyed(t, r, p);
    LeaveShape(t, r, p);
    LeaveCounts(t0, t1, t, gone, r, p);
  }

  lemma MovingLeaves(t1: Tree, t: Tree, r: Addr)
    requires Keyed(t1) && r in t1.parent && Moving(t1, t, r, |t1.leaf[r]|)
    ensures t.home == Ops.ParentsUp(t1.home, t1.leaf[r], t.root) && LeafLinks(t.parent.Keys, t.leaf, t.home)
        && t.root == t1.root
    ensures t.leaf.Keys == t1.leaf.Keys && t.leaf[r] == []
        && forall a | a in t1.leaf && a != r && a != t.root :: t.leaf[a] == t1.leaf[a]
  {
    hide ChildLinks, LeafLinks;
    assert t1.leaf[r][..|t1.leaf[r]|] == t1.leaf[r];
  }

  lemma ClearedKeys(t0: Tree, t: Tree, gone: set<Addr>)
    requires Keyed(t0) && Cleared(t0, t, gone)
    ensures t.parent.Keys == t0.parent.Keys && t.home.Keys == t0.home.Keys && t.root == t0.root && Linked(t) && Keyed(t)
    ensures t0.child.Keys == t0.parent.Keys && t.child.Keys == t.leaf.Keys == t.parent.Keys
    ensures ClearedLinks(t0.parent, t0.child, t.parent, t.child, gone) && ClearedCounts(t0, t, gone)
    ensures ClearedLeaves(t0.root, t0.leaf, t0.home, t.leaf, t.home, gone)
  {
  }

  lemma LeaveKeyed(t: Tree, r: Addr, p: Addr)
    requires Keyed(t) && r in t.parent && p in t.parent && r in t.child[p]
    ensures Keyed(Leave(t, r, p)) && Leave(t, r, p).parent.Keys == t.parent.Keys
  {
  }

  lemma LeaveShape(t: Tree, r: Addr, p: Addr)
    requires Keyed(t) && r in t.parent && p in t.parent && r in t.child[p]
    ensures var u := Leave(t, r, p);
            && u.root == t.root && u.parent == t.parent[r := None] && u.child == t.child[p := Remove(t.child[p], r)]
            && u.leaf == t.leaf && u.home == t.home
  {
    hide Keyed;
  }

  lemma LeaveCounts(t0: Tree, t1: Tree, t: Tree, gone: set<Addr>, r: Addr, p: Addr)
    requires Keyed(t0) && Keyed(t1) && t1.parent.Keys == t0.parent.Keys && ClearedCounts(t0, t1, gone)
    requires Keyed(t) && r in t1.parent && Moving(t1, t, r, |t1.leaf[r]|)
    requires p in t.parent && r in t.child[p] && Keyed(Leave(t, r, p)) && Leave(t, r, p).parent.Keys == t.parent.Keys
    ensures ClearedCounts(t0, Leave(t, r, p), gone + {r})
  {
    hide ChildLinks, LeafLinks, Remove, Linked, Ops.ParentsUp, Leave, Moving, Keyed;
    MovingCounts(t1, t, r);
    var u := Leave(t, r, p);
    CountKeys(u);
    CountKeys(t0);
    forall a | a in u.parent
      ensures u.hops[a] == (if a in gone + {r} then 0 else t0.hops[a]) && u.fchild[a] == 0
          && (a != u.root ==> u.fleaf[a] == 0)
    {
      LeaveCountsAt(t, r, p, a);
    }
  }

  lemma CountKeys(t: Tree)
    requires Keyed(t)
    ensures t.hops.Keys == t.fchild.Keys == t.fleaf.Keys == t.parent.Keys
  {
  }

  lemma MovingCounts(t1: Tree, t: Tree, r: Addr)
    requires Keyed(t1) && Keyed(t) && r in t1.parent && Moving(t1, t, r, |t1.leaf[r]|)
    ensures t.hops == t1.hops && t.fchild == t1.fchild && t.parent == t1.parent && t.root == t1.root && t.fleaf[r] == 0
    ensures forall a | a in t.parent && a != r && a != t.root :: t.fleaf[a] == t1.fleaf[a]
    ensures t.fleaf.Keys == t.hops.Keys == t.fchild.Keys == t1.fleaf.Keys == t.parent.Keys
  {
    hide Linked, Ops.ParentsUp;
  }

  lemma LeaveCountsAt(t: Tree, r: Addr, p: Addr, a: Addr)
    requires Keyed(t) && r in t.parent && p in t.parent && r in t.child[p] && a in t.parent
    ensures var u := Leave(t, r, p);
            && u.root == t.root && a in u.hops && a in u.fchild && a in u.fleaf
            && u.hops[a] == (if a == r then 0 else t.hops[a])
            && u.fleaf[a] == (if a == r then 0 else t.fleaf[a])
            && (t.fchild[a] == 0 ==> u.fchild[a] == 0)
  {
    hide Remove;
  }

  // Router `r`, whose children have left already, hands its receivers to the root and leaves.
  method ResetRouter(st: Store, r: Addr, ghost t0: Tree, ghost gone: set<Addr>)
    requires Linked(t0) && Keyed(t0) && Cleared(t0, st.T(), gone) && r in t0.parent && r !in gone
    requires r in st.parent && st.parent[r].Some? && r in st.child && st.child[r] == []
    modifies st
    ensures Cleared(t0, st.T(), gone + {r})
  {
    hide ChildLinks, LeafLinks, Cleared, Leave, Moving, Remove, Topology.Adopt, Distinct, Linked, Keyed, Topology.Up;
    ghost var t1 := st.T();
    ClearedKeys(t0, t1, gone);
    ClearedUsed(t0, t1, gone, r);
    MovingStart(t1, r);
    var i := st.leaf[r];
    ghost var k := 0;
    while i != []
      invariant Keyed(t1) && k <= |t1.leaf[r]| && i == t1.leaf[r][k..]
      invariant Moving(t1, st.T(), r, k)
      decreases |i|
    {
      MovingBasics(t1, st.T(), r, k);
      MovingStep(t1, st.T(), r, k);
      var l := i[0];
      i := i[1..];
      Rx.Adopt(st, st.root, Topology.Lf(l));
      k := k + 1;
    }
    Left(t0, t1, st.T(), gone, r);
    Leaving(t1, st.T(), r, k);
    LeaveTree(st, r);
  }

  // Clears the counters and the hop count of `r` and takes it out of the children of its parent.
  method LeaveTree(st: Store, r: Addr)
    requires Keyed(st.T()) && r in st.parent && st.parent[r].Some? && st.parent[r].value in st.parent
    requires var p := st.parent[r].value; r in st.T().child[p] && Distinct(st.T().child[p])
    modifies st
    ensures st.T() == Leave(old(st.T()), r, old(st.parent)[r].value)
  {
    hide Remove, Distinct, Keyed;
    ClearKeyed(st.T(), r);
    var p := st.parent[r].value;
    st.fleaf := st.fleaf[r := 0];
    st.fchild := st.fchild[r := 0];
    st.hops := st.hops[r := 0];
    st.RmRouter(p, r);
  }

  lemma ClearedUsed(t0: Tree, t: Tree, gone: set<Addr>, r: Addr)
    requires Keyed(t0) && Cleared(t0, t, gone) && r in t.parent && t.parent[r].Some?
    ensures r in t.fleaf && t.fleaf[r] == 0 && r != t.root
  {
    hide ChildLinks, LeafLinks;
  }

  lemma Leaving(t1: Tree, t: Tree, r: Addr, k: nat)
    requires Keyed(t1) && r in t1.parent && Moving(t1, t, r, k) && t1.parent[r].Some?
    ensures Keyed(t) && r in t.parent && t.parent[r].Some?
    ensures var p := t.parent[r].value;
            p in t.parent && p in t.child && r in t.child[p] && Distinct(t.child[p])
  {
    hide LeafLinks, Remove, Keyed, Distinct;
    MovingLinked(t1, t, r, k);
    ChildOf(t.parent, t.child, r);
  }

  lemma MovingLinked(t1: Tree, t: Tree, r: Addr, k: nat)
    requires Keyed(t1) && r in t1.parent && Moving(t1, t, r, k)
    ensures Linked(t) && Keyed(t) && t.parent == t1.parent && t.child == t1.child && t.child.Keys == t.parent.Keys
        && r in t.fchild
    ensures ChildLinks(t.parent, t.child) && forall a | a in t.child :: Distinct(t.child[a])
  {
    hide LeafLinks, Distinct;
  }

  lemma ClearKeyed(t: Tree, r: Addr)
    requires Keyed(t) && r in t.parent
    ensures t.child.Keys == t.parent.Keys == t.fchild.Keys
    ensures Keyed(t.(fleaf := t.fleaf[r := 0], fchild := t.fchild[r := 0], hops := t.hops[r := 0]))
  {
  }

  // `k` children of `r` have been reset with their subtrees, which makes `gone` into `now`.
  ghost predicate Progress(t0: Tree, r: Addr, gone: set<Addr>, now: set<Addr>, k: nat)
    requires Keyed(t0) && r in t0.parent && k <= |t0.child[r]|
  {
    && gone <= now <= gone + (Subtree(t0.parent, r) - {r})
    && (forall j | 0 <= j < k :: Subtree(t0.parent, t0.child[r][j]) <= now)
    && (forall j | k <= j < |t0.child[r]| :: Subtree(t0.parent, t0.child[r][j]) !! now)
  }

  lemma ProgressStart(t0: Tree, rk: map<Addr, nat>, r: Addr, gone: set<Addr>)
    requires Linked(t0) && Ranked(t0.parent, rk) && r in t0.parent && Subtree(t0.parent, r) !! gone
    ensures Keyed(t0) && Progress(t0, r, gone, gone, 0)
    ensures r in t0.child && r !in gone && Without(t0.child[r], gone) == t0.child[r]
  {
    hide LeafLinks, Without;
    Reduction.AncSelf(t0, r);
    assert r in Subtree(t0.parent, r);
    forall j | 0 <= j < |t0.child[r]| ensures Subtree(t0.parent, t0.child[r][j]) !! gone && t0.child[r][j] !in gone {
      ChildSubtree(t0, rk, r, j);
    }
    WithoutNone(t0.child[r], gone);
  }

  lemma ChildSubtree(t0: Tree, rk: map<Addr, nat>, r: Addr, j: nat)
    requires Linked(t0) && Ranked(t0.parent, rk) && r in t0.parent && j < |t0.child[r]|
    ensures Subtree(t0.parent, t0.child[r][j]) <= Subtree(t0.parent, r) - {r}
    ensures t0.child[r][j] in Subtree(t0.parent, t0.child[r][j]) && t0.child[r][j] in t0.parent
        && t0.child[r][j] != t0.root
    ensures t0.parent[t0.child[r][j]] == Some(r)
  {
    hide LeafLinks;
    Reduction.ChildAt(t0, r, j);
    Reduction.AncSelf(t0, t0.child[r][j]);
    forall a | a in Subtree(t0.parent, t0.child[r][j]) ensures a in Subtree(t0.parent, r) && a != r {
      Reduction.ChildAbove(t0, rk, r, t0.child[r][j], a);
    }
  }

  lemma ProgressStep(t0: Tree, rk: map<Addr, nat>, r: Addr, gone: set<Addr>, now: set<Addr>, k: nat)
    requires Linked(t0) && Ranked(t0.parent, rk) && r in t0.parent && k < |t0.child[r]| && Progress(t0, r, gone, now, k)
    ensures Progress(t0, r, gone, now + Subtree(t0.parent, t0.child[r][k]), k + 1)
  {
    hide ChildLinks, LeafLinks, Subtree;
    ChildSubtree(t0, rk, r, k);
    var s := Subtree(t0.parent, t0.child[r][k]);
    assert s <= now + s;
    forall j | k + 1 <= j < |t0.child[r]| ensures Subtree(t0.parent, t0.child[r][j]) !! now + s {
      SiblingSubtree(t0, rk, r, k, j);
    }
  }

  lemma SiblingSubtree(t0: Tree, rk: map<Addr, nat>, r: Addr, i: nat, j: nat)
    requires Linked(t0) && Ranked(t0.parent, rk) && r in t0.parent && i < |t0.child[r]| && j < |t0.child[r]| && i != j
    ensures Subtree(t0.parent, t0.child[r][i]) !! Subtree(t0.parent, t0.child[r][j])
  {
    hide LeafLinks, ChildLinks;
    Reduction.ChildAt(t0, r, i);
    Reduction.ChildAt(t0, r, j);
    forall a | a in Subtree(t0.parent, t0.child[r][i]) ensures a !in Subtree(t0.parent, t0.child[r][j]) {
      Reduction.Siblings(t0, rk, r, t0.child[r][i], t0.child[r][j], a);
    }
  }

  lemma ProgressDone(t0: Tree, rk: map<Addr, nat>, r: Addr, gone: set<Addr>, now: set<Addr>)
    requires Linked(t0) && Ranked(t0.parent, rk) && r in t0.parent && Subtree(t0.parent, r) !! gone
    requires Progress(t0, r, gone, now, |t0.child[r]|)
    ensures now == gone + (Subtree(t0.parent, r) - {r}) && r !in now
    ensures Without(t0.child[r], now) == []
    ensures r in Subtree(t0.parent, r)
  {
    hide LeafLinks, ChildLinks, Without;
    Reduction.AncSelf(t0, r);
    forall a | a in Subtree(t0.parent, r) && a != r ensures a in now {
      var j := Reduction.BelowChild(t0, rk, r, a);
      assert a in Subtree(t0.parent, t0.child[r][j]);
    }
    forall x | x in t0.child[r] ensures x in now {
      var j :| 0 <= j < |t0.child[r]| && t0.child[r][j] == x;
      ChildSubtree(t0, rk, r, j);
    }
    WithoutAll(t0.child[r], now);
  }

  lemma ClearedChild(t0: Tree, t: Tree, gone: set<Addr>, r: Addr)
    requires Keyed(t0) && Cleared(t0, t, gone) && r in t0.parent && r !in gone
    ensures r in t.parent && r in t.child && r in t.leaf && t.parent[r] == t0.parent[r]
        && t.child[r] == Without(t0.child[r], gone)
  {
    hide ChildLinks, LeafLinks, Without;
  }

  // Resets the subtree of `r`, children first.
  method RecResetTree(st: Store, r: Addr, ghost t0: Tree, ghost rk: map<Addr, nat>, ghost gone: set<Addr>)
    requires Linked(t0) && Keyed(t0) && Ranked(t0.parent, rk) && r in t0.parent && r in rk
    requires r == t0.root || t0.parent[r].Some?
    requires Cleared(t0, st.T(), gone) && Subtree(t0.parent, r) !! gone
    modifies st
    ensures Cleared(t0, st.T(), gone + (Subtree(t0.parent, r) - {t0.root}))
    ensures r == t0.root ==> r in st.fleaf && r in st.leaf && st.fleaf[r] == |st.leaf[r]|
    decreases Higher(rk, r)
  {
    hide Cleared, Progress, Subtree, Without, ChildLinks, LeafLinks, Ranked, Keyed, Linked, Higher;
    ProgressStart(t0, rk, r, gone);
    ClearedChild(t0, st.T(), gone, r);
    var i := st.child[r];
    ghost var k, now := 0, gone;
    while i != []
      invariant 0 <= k <= |t0.child[r]| && i == t0.child[r][k..]
      invariant Progress(t0, r, gone, now, k) && Cleared(t0, st.T(), now)
      decreases |i|
    {
      ResetNext(t0, rk, r, gone, now, k);
      ProgressStep(t0, rk, r, gone, now, k);
      var c := i[0];
      i := i[1..];
      RecResetTree(st, c, t0, rk, now);
      now := now + Subtree(t0.parent, c);
      k := k + 1;
    }
    ProgressDone(t0, rk, r, gone, now);
    ClearedChild(t0, st.T(), now, r);
    if st.parent[r].None? {
      RootCleared(t0, st.T(), now);
      st.fleaf := st.fleaf[r := |st.leaf[r]|];
      return;
    }
    NotRoot(t0, r);
    ResetRouter(st, r, t0, now);
    assert now + {r} == gone + (Subtree(t0.parent, r) - {t0.root}) by { RootOutside(t0, rk, r); }
  }

  lemma NotRoot(t0: Tree, r: Addr)
    requires Linked(t0) && r in t0.parent && t0.parent[r].Some?
    ensures r != t0.root
  {
  }

  lemma RootOutside(t0: Tree, rk: map<Addr, nat>, r: Addr)
    requires Linked(t0) && Ranked(t0.parent, rk) && r in t0.parent && r != t0.root
    ensures t0.root !in Subtree(t0.parent, r)
  {
  }

  lemma RootCleared(t0: Tree, t: Tree, gone: set<Addr>)
    requires Keyed(t0) && Cleared(t0, t, gone)
    ensures t.root in t.leaf && t.root in t.fleaf && t.root == t0.root
    ensures Cleared(t0, t.(fleaf := t.fleaf[t.root := |t.leaf[t.root]|]), gone)
  {
    hide ChildLinks, LeafLinks, ClearedLinks, ClearedLeaves;
  }

  lemma ResetNext(t0: Tree, rk: map<Addr, nat>, r: Addr, gone: set<Addr>, now: set<Addr>, k: nat)
    requires Linked(t0) && Keyed(t0) && Ranked(t0.parent, rk) && r in t0.parent && r in rk && k < |t0.child[r]|
    requires Progress(t0, r, gone, now, k)
    ensures var c := t0.child[r][k];
            && c in t0.parent && c in rk && c != t0.root && t0.parent[c].Some?
            && Higher(rk, c) < Higher(rk, r)
            && Subtree(t0.parent, c) !! now && Subtree(t0.parent, c) - {t0.root} == Subtree(t0.parent, c)
  {
    hide LeafLinks, ChildLinks, Higher;
    ChildSubtree(t0, rk, r, k);
    Deeper(rk, r, t0.child[r][k]);
    RootOutside(t0, rk, t0.child[r][k]);
  }

  // The state after reset: every receiver is at the root again and free, every other router is
  // outside the tree, without children, leaves and hop count, and all of them are still indexed.
  ghost predicate Restarted(t0: Tree, t: Tree)
    requires Keyed(t)
  {
    && t.root == t0.root && t.parent.Keys == t0.parent.Keys && t.home.Keys == t0.home.Keys
    && t.child[t.root] == [] && t.fchild[t.root] == 0 && t.fleaf[t.root] == |t.leaf[t.root]|
    && multiset(t.leaf[t.root]) == multiset(t.home.Keys)
    && forall a | a in t.parent && a != t.root ::
         t.parent[a] == None && t.child[a] == [] && t.leaf[a] == [] && t.fchild[a] == 0 && t.fleaf[a] == 0
         && (Attached(t0, a) ==> t.hops[a] == 0)
  }

  lemma ResetDone(t0: Tree, t: Tree, rk: map<Addr, nat>)
    requires Steady(t0, rk) && Keyed(t0) && AllHomed(t0) && t0.hops[t0.root] == 0
    requires Cleared(t0, t, Subtree(t0.parent, t0.root) - {t0.root})
    requires Keyed(t) && t.fleaf[t.root] == |t.leaf[t.root]|
    ensures Restarted(t0, t) && Topology.Growing(t, rk)
  {
    hide ChildLinks, LeafLinks, Subtree, Without, Ranked, ClearedLinks, ClearedLeaves, ClearedCounts, Keyed,
         Topology.Growing;
    forall a | a in t0.parent && a != t0.root ensures ClearedAt(t0, t, a) {
      ResetOne(t0, t, rk, a);
    }
    ClearedKeys(t0, t, Subtree(t0.parent, t0.root) - {t0.root});
    ResetHomes(t0, t, rk);
    ResetRootChild(t0, t, rk);
    ResetRootCounts(t0, t, Subtree(t0.parent, t0.root) - {t0.root});
    RankKeys(t0, rk);
    ResetGrowing(t0, t, rk);
  }

  ghost predicate ClearedAt(t0: Tree, t: Tree, a: Addr)
    requires Keyed(t)
  {
    && a in t.parent && t.parent[a] == None && t.child[a] == [] && t.leaf[a] == [] && t.fchild[a] == 0
    && t.fleaf[a] == 0
    && (Attached(t0, a) ==> t.hops[a] == 0)
  }

  lemma ResetOne(t0: Tree, t: Tree, rk: map<Addr, nat>, a: Addr)
    requires Steady(t0, rk) && Keyed(t) && a in t0.parent && a != t0.root
    requires Cleared(t0, t, Subtree(t0.parent, t0.root) - {t0.root})
    ensures ClearedAt(t0, t, a)
  {
    hide ChildLinks, LeafLinks, Subtree, Ranked;
    AttachedBelow(t0, rk, a);
  }

  lemma ResetHomes(t0: Tree, t: Tree, rk: map<Addr, nat>)
    requires Steady(t0, rk) && AllHomed(t0) && Keyed(t)
    requires Cleared(t0, t, Subtree(t0.parent, t0.root) - {t0.root})
    ensures AllHomed(t) && multiset(t.leaf[t.root]) == multiset(t.home.Keys) && t.root == t0.root
  {
    hide ChildLinks, Subtree, Ranked, ClearedLinks, ClearedCounts;
    forall l | l in t.home ensures l in t.leaf[t.root] && t.home[l].Some? {
      var a := t0.home[l].value;
      assert l in t0.leaf[a];
      if a != t0.root { AttachedBelow(t0, rk, a); }
    }
    OnceEach(t.leaf[t.root], t.home.Keys);
  }

  lemma ResetRootChild(t0: Tree, t: Tree, rk: map<Addr, nat>)
    requires Steady(t0, rk) && Keyed(t)
    requires Cleared(t0, t, Subtree(t0.parent, t0.root) - {t0.root})
    ensures t.root == t0.root && t.root in t.child && t.child[t.root] == []
  {
    hide LeafLinks, Subtree, Ranked, ClearedLeaves, ClearedLinks, Without, ClearedCounts, DetachedEmpty, Distinct,
         Keyed;
    ClearedKeys(t0, t, Subtree(t0.parent, t0.root) - {t0.root});
    if t.child[t.root] != [] {
      var c := t.child[t.root][0];
      assert c in t.child[t.root];
      NoneAtRoot(t0, t, rk, c);
    }
  }

  lemma NoneAtRoot(t0: Tree, t: Tree, rk: map<Addr, nat>, c: Addr)
    requires Steady(t0, rk) && c in t.parent && t.parent.Keys == t0.parent.Keys && t.child.Keys == t.parent.Keys
        && t0.child.Keys == t0.parent.Keys
    requires ClearedLinks(t0.parent, t0.child, t.parent, t.child, Subtree(t0.parent, t0.root) - {t0.root})
    ensures t.parent[c] != Some(t0.root)
  {
    hide ChildLinks, LeafLinks, Subtree, Ranked, Without;
    if c != t0.root { AttachedBelow(t0, rk, c); }
  }

  lemma ResetRootCounts(t0: Tree, t: Tree, gone: set<Addr>)
    requires Keyed(t0) && Keyed(t) && Cleared(t0, t, gone)
    ensures t.root == t0.root && t.fchild[t.root] == 0 && t.hops[t.root] == t0.hops[t0.root]
  {
    hide ChildLinks, LeafLinks, ClearedLeaves, ClearedLinks;
  }

  lemma RankKeys(t: Tree, rk: map<Addr, nat>)
    requires Steady(t, rk)
    ensures t.parent.Keys <= rk.Keys
  {
  }

  lemma ResetGrowing(t0: Tree, t: Tree, rk: map<Addr, nat>)
    requires Linked(t) && Keyed(t) && AllHomed(t) && t.parent.Keys == t0.parent.Keys && t0.parent.Keys <= rk.Keys
    requires t.root == t0.root && forall a | a in t0.parent && a != t0.root :: ClearedAt(t0, t, a)
    requires t.child[t.root] == [] && t.fchild[t.root] == 0 && t.fleaf[t.root] == |t.leaf[t.root]|
        && t.hops[t.root] == 0
    ensures Topology.Growing(t, rk)
  {
    hide ChildLinks, LeafLinks;
  }

  lemma AttachedBelow(t: Tree, rk: map<Addr, nat>, a: Addr)
    requires Steady(t, rk) && a in t.parent && a != t.root
    ensures a in Subtree(t.parent, t.root) <==> Attached(t, a)
  {
    if Attached(t, a) { RootAbove(t, rk, a); }
  }

  // Resets the whole tree after grouping.
  method ResetTree(st: Store, ghost rk: map<Addr, nat>)
    requires Steady(st.T(), rk) && AllHomed(st.T()) && st.hops[st.root] == 0 && AllUsed(st.T())
    modifies st
    ensures Keyed(st.T()) && Restarted(old(st.T()), st.T()) && Topology.Growing(st.T(), rk)
  {
    hide Cleared, ChildLinks, LeafLinks, Ranked, Restarted, DetachedEmpty, AllHomed, AllUsed, Topology.Growing;
    ghost var t0 := st.T();
    ClearedStart(t0);
    RankKeys(t0, rk);
    RecResetTree(st, st.root, t0, rk, {});
    assert {} + (Subtree(t0.parent, t0.root) - {t0.root}) == Subtree(t0.parent, t0.root) - {t0.root};
    ClearedKeys(t0, st.T(), Subtree(t0.parent, t0.root) - {t0.root});
    ResetDone(t0, st.T(), rk);
  }
}
