// Removal of routers that serve too little: their children and receivers move up to the parent.
module Reduction {
  import opened Base
  import opened Forest
  import opened Nodes
  import opened Packing
  import opened Pruning
  import Ops = TreeOps

  // Well-formed and not yet grouped.
  ghost predicate Whole(t: Tree, rk: map<Addr, nat>) {
    Steady(t, rk) && AllHomed(t) && Fresh(t)
  }

  // Router `x` serves too few routers and receivers.
  ghost predicate Light(cfg: Config, t: Tree, x: Addr)
    requires x in t.child && x in t.leaf
  {
    |t.child[x]| < cfg.minRouters && |t.leaf[x]| < cfg.minLeafs
  }

  ghost predicate Cuttable(t: Tree, x: Addr) {
    x in t.parent && t.parent[x].Some? && t.parent[x].value in t.parent && t.parent[x].value != x
  }

  // The tree without router `x`, whose parent takes over its children and leaves.
  ghost function Cut(t: Tree, x: Addr): Tree
    requires Keyed(t) && Cuttable(t, x)
  {
    var p := t.parent[x].value;
    t.(parent := Ops.ParentsUp(t.parent - {x}, t.child[x], p),
       hops := t.hops - {x},
       child := t.child[p := t.child[x] + Remove(t.child[p], x)] - {x},
       fchild := t.fchild[p := Ops.Dec(t.fchild[p]) + |t.child[x]|] - {x},
       leaf := t.leaf[p := t.leaf[x] + t.leaf[p]] - {x},
       fleaf := t.fleaf[p := t.fleaf[p] + |t.leaf[x]|] - {x},
       home := Ops.ParentsUp(t.home, t.leaf[x], p))
  }

  lemma CutKeyed(t: Tree, x: Addr)
    requires Keyed(t) && Cuttable(t, x) && x != t.root
    ensures Keyed(Cut(t, x)) && Cut(t, x).parent.Keys == t.parent.Keys - {x} && Cut(t, x).home.Keys == t.home.Keys
  {
  }

  lemma CutChildLinks(parent: map<Addr, Option<Addr>>, child: map<Addr, seq<Addr>>, x: Addr)
    requires child.Keys == parent.Keys && ChildLinks(parent, child)
    requires x in parent && parent[x].Some? && parent[x].value != x
    ensures parent[x].value in parent
    ensures var p := parent[x].value;
            var parent' := Ops.ParentsUp(parent - {x}, child[x], p);
            var child' := child[p := child[x] + Remove(child[p], x)] - {x};
            child'.Keys == parent'.Keys && ChildLinks(parent', child')
  {
    var p := parent[x].value;
    RemoveDistinct(child[p], x);
    var parent', child' := Ops.ParentsUp(parent - {x}, child[x], p), child[p := child[x] + Remove(child[p], x)] - {x};
    forall c | c in child[x] ensures c !in Remove(child[p], x) && c != x {
      assert parent[c] == Some(x);
    }
    DistinctConcat(child[x], Remove(child[p], x));
    forall a, c | a in parent' && c in child'[a] ensures c in parent' && parent'[c] == Some(a) {
      if a != p { assert c in child[a]; }
    }
    forall c | c in parent' && parent'[c].Some? ensures parent'[c].value in parent' && c in child'[parent'[c].value] {
      assert c in child[parent[c].value];
    }
  }

  lemma CutLeafLinks(routers: set<Addr>, leaf: map<Addr, seq<Addr>>, home: map<Addr, Option<Addr>>, p: Addr, x: Addr)
    requires leaf.Keys == routers && LeafLinks(routers, leaf, home) && p in routers && x in routers && p != x
    ensures var leaf', home' := leaf[p := leaf[x] + leaf[p]] - {x}, Ops.ParentsUp(home, leaf[x], p);
            leaf'.Keys == routers - {x} && LeafLinks(routers - {x}, leaf', home')
  {
    var leaf', home' := leaf[p := leaf[x] + leaf[p]] - {x}, Ops.ParentsUp(home, leaf[x], p);
    forall l | l in leaf[x] ensures l !in leaf[p] {
      assert home[l] == Some(x);
    }
    DistinctConcat(leaf[x], leaf[p]);
    forall l | l in home' && home'[l].Some? ensures home'[l].value in routers - {x} && l in leaf'[home'[l].value] {
      assert l in leaf[home[l].value];
    }
  }

  lemma CutLinked(t: Tree, x: Addr)
    requires Linked(t) && Cuttable(t, x)
    ensures Linked(Cut(t, x)) && Cut(t, x).root == t.root && x != t.root
  {
    hide ChildLinks, LeafLinks, Distinct, Ops.ParentsUp, Remove;
    CutKeyed(t, x);
    CutChildLinks(t.parent, t.child, x);
    CutLeafLinks(t.parent.Keys, t.leaf, t.home, t.parent[x].value, x);
    CutRoot(t.parent, t.child, x, t.root);
  }

  lemma CutRoot(parent: map<Addr, Option<Addr>>, child: map<Addr, seq<Addr>>, x: Addr, root: Addr)
    requires child.Keys == parent.Keys && ChildLinks(parent, child) && x in parent && parent[x].Some?
    requires root in parent && parent[root] == None
    ensures root in Ops.ParentsUp(parent - {x}, child[x], parent[x].value)
        && Ops.ParentsUp(parent - {x}, child[x], parent[x].value)[root] == None
  {
  }

  lemma CutParent(t: Tree, rk: map<Addr, nat>, x: Addr, b: Addr)
    requires Linked(t) && Ranked(t.parent, rk) && Cuttable(t, x) && b in t.parent && b != x && t.parent[b].Some?
    ensures var q := t.parent[b].value;
            && q in t.parent && b in rk && q in rk && rk[q] < rk[b] && b in Cut(t, x).parent
            && Cut(t, x).parent[b] == (if q == x then t.parent[x] else Some(q))
            && (q == x ==> t.parent[x].value in rk && rk[t.parent[x].value] < rk[b] && t.parent[x].value != x)
  {
    var q := t.parent[b].value;
    assert b in t.child[q];
    if q != x {
      assert b !in t.child[x];
    }
  }

  lemma CutNone(t: Tree, x: Addr, b: Addr)
    requires Linked(t) && Cuttable(t, x) && b in t.parent && b != x && t.parent[b].None?
    ensures b in Cut(t, x).parent && Cut(t, x).parent[b].None?
  {
  }

  lemma {:induction false} CutAnc(t: Tree, rk: map<Addr, nat>, x: Addr, a: Addr, b: Addr)
    requires Linked(t) && Ranked(t.parent, rk) && Cuttable(t, x)
    requires a in t.parent && b in t.parent && a != x && b != x
    ensures Anc(Cut(t, x).parent, a, b) <==> Anc(t.parent, a, b)
    decreases rk[b]
  {
    hide LeafLinks, ChildLinks, Ranked, Remove, Cut;
    if a != b && t.parent[b].Some? {
      var q := t.parent[b].value;
      CutParent(t, rk, x, b);
      if q == x {
        CutAnc(t, rk, x, a, t.parent[x].value);
      } else {
        CutAnc(t, rk, x, a, q);
      }
    } else if t.parent[b].None? {
      CutNone(t, x, b);
    }
  }

  lemma CutRanked(t: Tree, rk: map<Addr, nat>, x: Addr)
    requires Linked(t) && Ranked(t.parent, rk) && Cuttable(t, x)
    ensures Ranked(Cut(t, x).parent, rk)
  {
    hide LeafLinks;
    var t' := Cut(t, x);
    forall a | a in t'.parent && t'.parent[a].Some? && t'.parent[a].value in t'.parent
      ensures rk[t'.parent[a].value] < rk[a]
    {
      if a in t.child[x] {
        assert t.parent[a] == Some(x);
        assert rk[t.parent[x].value] < rk[x];
      }
    }
  }

  lemma CutCounts(t: Tree, x: Addr)
    requires Linked(t) && DetachedEmpty(t) && AllHomed(t) && Fresh(t) && Cuttable(t, x) && Linked(Cut(t, x))
    ensures DetachedEmpty(Cut(t, x)) && AllHomed(Cut(t, x)) && Fresh(Cut(t, x))
  {
    CutFresh(t, x);
    CutDetached(t, x);
    CutHomes(t, x);
    hide ChildLinks, LeafLinks, Distinct, Remove, Fresh, DetachedEmpty;
  }

  lemma CutFresh(t: Tree, x: Addr)
    requires Linked(t) && Fresh(t) && Cuttable(t, x) && Linked(Cut(t, x))
    ensures Fresh(Cut(t, x))
  {
    var p := t.parent[x].value;
    assert x in t.child[p];
    RemoveDistinct(t.child[p], x);
    var t' := Cut(t, x);
    forall a | a in t'.parent ensures t'.fchild[a] == |t'.child[a]| && t'.fleaf[a] == |t'.leaf[a]| {
      assert t.fchild[a] == |t.child[a]| && t.fleaf[a] == |t.leaf[a]|;
      assert t.fchild[p] == |t.child[p]| && t.fleaf[p] == |t.leaf[p]|;
    }
  }

  lemma CutDetached(t: Tree, x: Addr)
    requires Linked(t) && DetachedEmpty(t) && Cuttable(t, x) && Linked(Cut(t, x))
    ensures DetachedEmpty(Cut(t, x))
  {
    var p := t.parent[x].value;
    assert x in t.child[p];
    var t' := Cut(t, x);
    forall d | d in t'.parent && !Attached(t', d) ensures t'.child[d] == [] && t'.leaf[d] == [] {
      assert !Attached(t, d) && d != p;
    }
  }

  // What reduction preserves from `t0` to `t`: surviving routers keep their hop counts and their
  // ancestors, and every receiver's new parent is an ancestor of its old one.
  ghost predicate Shrunk(t0: Tree, t: Tree)
    requires Keyed(t0) && Keyed(t)
  {
    && t.root == t0.root && t.parent.Keys <= t0.parent.Keys && t.home.Keys == t0.home.Keys
    && (forall a | a in t.parent :: t.hops[a] == t0.hops[a] && (t.parent[a].Some? <==> t0.parent[a].Some?))
    && (forall a, b | a in t.parent && b in t.parent :: Anc(t.parent, a, b) <==> Anc(t0.parent, a, b))
    && (forall l | l in t.home && t0.home[l].Some? ::
          t.home[l].Some? && t.home[l].value in t.parent && Anc(t0.parent, t.home[l].value, t0.home[l].value))
  }

  lemma ShrunkRefl(t: Tree)
    requires Linked(t)
    ensures Shrunk(t, t)
  {
  }

  lemma ShrunkTrans(t0: Tree, rk: map<Addr, nat>, t1: Tree, t2: Tree)
    requires Linked(t0) && Ranked(t0.parent, rk) && Keyed(t1) && Keyed(t2) && AllHomed(t0)
    requires Shrunk(t0, t1) && Shrunk(t1, t2)
    ensures Shrunk(t0, t2)
  {
    forall l | l in t2.home
      ensures t2.home[l].Some? && t2.home[l].value in t2.parent && Anc(t0.parent, t2.home[l].value, t0.home[l].value)
    {
      assert t0.home[l].Some?;
      AncTrans(t0, rk, t2.home[l].value, t1.home[l].value, t0.home[l].value);
    }
  }

  // What a cut does to indices, hop counts and parents.
  lemma CutFields(t: Tree, x: Addr)
    requires Linked(t) && Cuttable(t, x) && x != t.root
    ensures var t' := Cut(t, x);
            && Keyed(t) && Keyed(t') && t'.root == t.root && t'.parent.Keys == t.parent.Keys - {x}
            && t'.home.Keys == t.home.Keys
            && forall a | a in t'.parent ::
                 t'.hops[a] == t.hops[a] && (t'.parent[a].Some? <==> t.parent[a].Some?)
  {
    hide LeafLinks, Remove;
    CutKeyed(t, x);
  }

  lemma CutShrinks(t: Tree, rk: map<Addr, nat>, x: Addr)
    requires Linked(t) && Ranked(t.parent, rk) && Cuttable(t, x)
    ensures Linked(Cut(t, x)) && Shrunk(t, Cut(t, x))
  {
    hide ChildLinks, LeafLinks, Anc, Remove, Ranked, Cut, Keyed;
    CutLinked(t, x);
    CutFields(t, x);
    var t' := Cut(t, x);
    forall a, b | a in t'.parent && b in t'.parent ensures Anc(t'.parent, a, b) <==> Anc(t.parent, a, b) {
      CutAnc(t, rk, x, a, b);
    }
    CutHomes(t, x);
  }

  lemma CutHomes(t: Tree, x: Addr)
    requires Linked(t) && Cuttable(t, x)
    ensures var t' := Cut(t, x);
            forall l | l in t.home && t.home[l].Some? ::
              && l in t'.home && t'.home[l].Some? && t'.home[l].value in t'.parent
              && Anc(t.parent, t'.home[l].value, t.home[l].value)
  {
    var t' := Cut(t, x);
    var p := t.parent[x].value;
    forall l | l in t.home && t.home[l].Some?
      ensures t'.home[l].Some? && t'.home[l].value in t'.parent && Anc(t.parent, t'.home[l].value, t.home[l].value)
    {
      var a := t.home[l].value;
      assert l in t.leaf[a];
      if l in t.leaf[x] {
        assert a == x;
        assert Anc(t.parent, p, p);
      }
    }
  }

  lemma CutKeeps(t: Tree, rk: map<Addr, nat>, x: Addr)
    requires Whole(t, rk) && Cuttable(t, x)
    ensures Whole(Cut(t, x), rk) && Shrunk(t, Cut(t, x)) && x != t.root
  {
    hide ChildLinks, LeafLinks, Cut, Shrunk, Ranked, DetachedEmpty, AllHomed, Fresh;
    CutLinked(t, x);
    CutRanked(t, rk, x);
    CutCounts(t, x);
    CutShrinks(t, rk, x);
  }

  // `cuts` leads from `t` to `t'`, and every router in it was too light when its turn came.
  ghost predicate Cuts(cfg: Config, t: Tree, cuts: seq<Addr>, t': Tree)
    requires Keyed(t)
    decreases |cuts|
  {
    if cuts == [] then t' == t
    else
      var x := cuts[0];
      Cuttable(t, x) && Light(cfg, t, x) && Keyed(Cut(t, x)) && Cuts(cfg, Cut(t, x), cuts[1..], t')
  }

  lemma {:induction false} CutsConcat(cfg: Config, t: Tree, a: seq<Addr>, u: Tree, b: seq<Addr>, v: Tree)
    requires Keyed(t) && Cuts(cfg, t, a, u) && Keyed(u) && Cuts(cfg, u, b, v)
    ensures Cuts(cfg, t, a + b, v)
    decreases |a|
  {
    hide Cut, Light, Cuttable, Keyed;
    if a == [] {
      assert a + b == b;
    } else {
      CutsConcat(cfg, Cut(t, a[0]), a[1..], u, b, v);
      assert (a + b)[1..] == a[1..] + b;
    }
  }

  // Takes router `x` out of its parent's children and out of the index, and returns its lists.
  method FreeRouter(st: Store, x: Addr) returns (c: seq<Addr>, l: seq<Addr>)
    requires Keyed(st.T()) && Cuttable(st.T(), x)
    requires x in st.child[st.parent[x].value] && Distinct(st.child[st.parent[x].value])
    modifies st
    ensures st.T() == Ops.DropRouter(Ops.RmRouter(old(st.T()), old(st.parent)[x].value, x), x)
    ensures c == old(st.child)[x] && l == old(st.leaf)[x]
  {
    hide Remove, Distinct;
    st.RmRouter(st.parent[x].value, x);
    c, l := st.child[x], st.leaf[x];
    st.DropRouter(x);
  }

  // Removes router `x` and hands its children and leaves to its parent.
  method CutRouter(st: Store, x: Addr)
    requires Linked(st.T()) && Cuttable(st.T(), x)
    modifies st
    ensures st.T() == Cut(old(st.T()), x)
  {
    hide ChildLinks, LeafLinks, Remove, Cut, Ops.ParentsUp, Ops.RmRouter, Ops.DropRouter, Distinct;
    ghost var t := st.T();
    var p := st.parent[x].value;
    CutLists(t, x);
    CutSteps(t, x);
    CutOthers(t, x);
    var c, l := FreeRouter(st, x);
    st.AddRouters(p, c);
    st.AddLeaves(p, l);
  }

  lemma CutOthers(t: Tree, x: Addr)
    requires Linked(t) && Cuttable(t, x)
    ensures Keyed(t) && x in t.child[t.parent[x].value]
    ensures var u := Ops.DropRouter(Ops.RmRouter(t, t.parent[x].value, x), x);
            u.root == t.root && u.home == t.home && u.parent.Keys == t.parent.Keys - {x}
  {
    hide LeafLinks, Remove;
  }

  lemma CutLists(t: Tree, x: Addr)
    requires Linked(t) && Cuttable(t, x)
    ensures x in t.child[t.parent[x].value] && Distinct(t.child[t.parent[x].value])
    ensures forall i | 0 <= i < |t.child[x]| :: t.child[x][i] in t.parent && t.child[x][i] != x
    ensures forall i | 0 <= i < |t.leaf[x]| :: t.leaf[x][i] in t.home
  {
    forall i | 0 <= i < |t.child[x]| ensures t.child[x][i] in t.parent && t.child[x][i] != x {
      assert t.child[x][i] in t.child[x];
    }
    forall i | 0 <= i < |t.leaf[x]| ensures t.leaf[x][i] in t.home {
      assert t.leaf[x][i] in t.leaf[x];
    }
  }

  lemma CutSteps(t: Tree, x: Addr)
    requires Keyed(t) && Cuttable(t, x) && x in t.child[t.parent[x].value]
    ensures var p := t.parent[x].value;
            var u := Ops.DropRouter(Ops.RmRouter(t, p, x), x);
            p in u.child && p in u.fchild && p in u.leaf && p in u.fleaf &&
            Cut(t, x) == u.(parent := Ops.ParentsUp(u.parent, t.child[x], p),
                            child := u.child[p := t.child[x] + u.child[p]],
                            fchild := u.fchild[p := u.fchild[p] + |t.child[x]|],
                            home := Ops.ParentsUp(u.home, t.leaf[x], p), leaf := u.leaf[p := t.leaf[x] + u.leaf[p]],
                            fleaf := u.fleaf[p := u.fleaf[p] + |t.leaf[x]|])
  {
    hide Remove, Ops.ParentsUp;
    var p := t.parent[x].value;
    Replace(t.child, p, x, Remove(t.child[p], x), t.child[x] + Remove(t.child[p], x));
    Replace(t.fchild, p, x, Ops.Dec(t.fchild[p]), Ops.Dec(t.fchild[p]) + |t.child[x]|);
    Replace(t.leaf, p, x, t.leaf[p], t.leaf[x] + t.leaf[p]);
    Replace(t.fleaf, p, x, t.fleaf[p], t.fleaf[p] + |t.leaf[x]|);
    assert t.parent[x := None] - {x} == t.parent - {x};
    assert t.leaf[p := t.leaf[p]] == t.leaf && t.fleaf[p := t.fleaf[p]] == t.fleaf;
  }

  lemma Replace<V>(m: map<Addr, V>, p: Addr, x: Addr, v: V, w: V)
    requires p in m && p != x
    ensures (m[p := v] - {x})[p := w] == m[p := w] - {x} && p in m[p := v] - {x} && (m[p := v] - {x})[p] == v
  {
  }

  // Router `a` serves enough routers or receivers.
  ghost predicate Kept(cfg: Config, t: Tree, a: Addr) {
    a in t.child && a in t.leaf && (|t.child[a]| >= cfg.minRouters || |t.leaf[a]| >= cfg.minLeafs)
  }

  // What reducing the subtree of `r` achieves: every surviving router in it is kept for a reason,
  // and outside of it only the lists of the parent of `r` change.
  ghost predicate Reduced(cfg: Config, t0: Tree, t: Tree, rk: map<Addr, nat>, r: Addr)
    requires Keyed(t0) && r in t0.parent
  {
    && Whole(t, rk) && Shrunk(t0, t)
    && (forall a | a in t.parent && t.parent[a].Some? && Anc(t0.parent, r, a) :: Kept(cfg, t, a))
    && (forall a | a in t0.parent && !Anc(t0.parent, r, a) :: Outside(t0, t, a, t0.parent[r]))
    && (t0.parent[r].Some? && t0.parent[r].value in t0.parent ==> Spliced(t0, t, r, t0.parent[r].value))
  }

  // Router `a` survives, with its lists unchanged unless it is `p`.
  ghost predicate Outside(t0: Tree, t: Tree, a: Addr, p: Option<Addr>)
    requires Keyed(t0) && Keyed(t) && a in t0.parent
  {
    a in t.parent && (p != Some(a) ==> t.child[a] == t0.child[a] && t.leaf[a] == t0.leaf[a])
  }

  // The children of `p` have kept their order; those of `r` are in front when `r` is gone.
  ghost predicate Spliced(t0: Tree, t: Tree, r: Addr, p: Addr)
    requires Keyed(t0) && Keyed(t) && p in t0.parent
  {
    p in t.parent &&
    if r in t.parent then t.child[p] == t0.child[p]
    else exists x :: t.child[p] == x + Remove(t0.child[p], r)
  }

  // The state of the loop over the children `kids` of `r` when `k` of them have been reduced: the
  // others are still the end of the child list of `r`.
  ghost predicate Reducing(cfg: Config, t0: Tree, t: Tree, rk: map<Addr, nat>, r: Addr, k: nat, pre: seq<Addr>)
    requires Keyed(t0) && r in t0.parent
  {
    && Whole(t, rk) && Shrunk(t0, t) && r in t.parent
    && k <= |t0.child[r]| && t.child[r] == pre + t0.child[r][k..]
    && (forall j, a | 0 <= j < k && a in t.parent && Anc(t0.parent, t0.child[r][j], a) :: Kept(cfg, t, a))
    && (forall a | a in t0.parent && !Anc(t0.parent, r, a) :: Outside(t0, t, a, None))
  }

  // Two children of a router have disjoint subtrees that do not contain the router.
  lemma Siblings(t: Tree, rk: map<Addr, nat>, r: Addr, i: Addr, j: Addr, a: Addr)
    requires Linked(t) && Ranked(t.parent, rk) && r in t.parent && i in t.child[r] && j in t.child[r] && i != j
    requires a in t.parent && Anc(t.parent, i, a)
    ensures !Anc(t.parent, j, a) && a != r && Anc(t.parent, r, a)
  {
    ChildAbove(t, rk, r, i, a);
    if Anc(t.parent, j, a) {
      AncCompare(t, rk, i, j, a);
      if Anc(t.parent, i, j) { AncRank(t, rk, i, r); } else { AncRank(t, rk, j, r); }
    }
  }

  lemma ChildAbove(t: Tree, rk: map<Addr, nat>, r: Addr, i: Addr, a: Addr)
    requires Linked(t) && Ranked(t.parent, rk) && r in t.parent && i in t.child[r]
    requires a in t.parent && Anc(t.parent, i, a)
    ensures a != r && Anc(t.parent, r, a)
  {
    AncRank(t, rk, i, a);
    assert rk[r] < rk[i];
    assert Anc(t.parent, r, i) by { assert Anc(t.parent, r, r); }
    AncTrans(t, rk, r, i, a);
  }

  lemma ReducingStart(cfg: Config, t: Tree, rk: map<Addr, nat>, r: Addr)
    requires Whole(t, rk) && r in t.parent
    ensures Reducing(cfg, t, t, rk, r, 0, [])
  {
    ShrunkRefl(t);
  }

  lemma StepKept(cfg: Config, t0: Tree, t1: Tree, t2: Tree, rk: map<Addr, nat>, r: Addr, k: nat, pre: seq<Addr>,
                 j: nat, a: Addr)
    requires Linked(t0) && Ranked(t0.parent, rk) && r in t0.parent
    requires Reducing(cfg, t0, t1, rk, r, k, pre) && k < |t0.child[r]| && t0.child[r][k] in t1.parent
    requires t1.parent[t0.child[r][k]] == Some(r) && Reduced(cfg, t1, t2, rk, t0.child[r][k])
    requires j <= k && a in t2.parent && Anc(t0.parent, t0.child[r][j], a)
    ensures Kept(cfg, t2, a)
  {
    hide ChildLinks, LeafLinks, DetachedEmpty, Fresh, AllHomed, Spliced, Ranked, Anc, Shrunk, Whole;
    var i := t0.child[r][k];
    ChildAt(t0, r, j);
    ChildAt(t0, r, k);
    WholeBasics(t1, rk);
    WholeBasics(t2, rk);
    ShrunkAnc(t1, t2, i, a);
    ShrunkAnc(t0, t1, i, a);
    ChildAbove(t0, rk, r, t0.child[r][j], a);
    if j == k {
      HasParent(t0, r, a);
    } else {
      Siblings(t0, rk, r, t0.child[r][j], i, a);
      assert Outside(t1, t2, a, Some(r));
      assert Kept(cfg, t1, a);
    }
  }

  lemma ChildAt(t: Tree, r: Addr, k: nat)
    requires Linked(t) && r in t.parent && k < |t.child[r]|
    ensures t.child[r][k] in t.child[r]
    ensures forall j: nat | j < |t.child[r]| && j != k :: t.child[r][j] != t.child[r][k]
  {
  }

  lemma WholeBasics(t: Tree, rk: map<Addr, nat>)
    requires Whole(t, rk)
    ensures Linked(t) && Ranked(t.parent, rk) && DetachedEmpty(t) && AllHomed(t) && Fresh(t)
  {
  }

  // A router that survives was known before, and has a parent as before.
  lemma ShrunkAnc(t0: Tree, t: Tree, i: Addr, a: Addr)
    requires Keyed(t0) && Keyed(t) && Shrunk(t0, t) && a in t.parent
    ensures a in t0.parent && (t.parent[a].Some? <==> t0.parent[a].Some?) && t.root == t0.root
        && t.hops[a] == t0.hops[a]
    ensures i in t.parent ==> (Anc(t.parent, i, a) <==> Anc(t0.parent, i, a))
  {
    hide Anc;
  }

  lemma HasParent(t: Tree, r: Addr, a: Addr)
    requires Anc(t.parent, r, a) && r != a
    ensures a in t.parent && t.parent[a].Some?
  {
  }

  lemma StepList(pre: seq<Addr>, kids: seq<Addr>, k: nat)
    requires k < |kids| && Distinct(pre + kids[k..])
    ensures Remove(pre + kids[k..], kids[k]) == pre + kids[k + 1..]
  {
    var s := pre + kids[k..];
    assert s[|pre|] == kids[k];
    RemoveAt(s, |pre|);
    assert s[..|pre|] == pre && s[|pre| + 1..] == kids[k + 1..];
  }

  lemma ReducingStep(cfg: Config, t0: Tree, t1: Tree, t2: Tree, rk: map<Addr, nat>, r: Addr, k: nat, pre: seq<Addr>)
    returns (pre': seq<Addr>)
    requires Whole(t0, rk) && r in t0.parent && Reducing(cfg, t0, t1, rk, r, k, pre) && k < |t0.child[r]|
    requires t0.child[r][k] in t1.parent && t1.parent[t0.child[r][k]] == Some(r)
        && Reduced(cfg, t1, t2, rk, t0.child[r][k])
    ensures Reducing(cfg, t0, t2, rk, r, k + 1, pre')
  {
    hide ChildLinks, LeafLinks, DetachedEmpty, Fresh, AllHomed, Kept, Outside, Anc, Ranked, Shrunk, Remove, Spliced,
         Distinct;
    DistinctChildren(t1, r);
    var i, kids := t0.child[r][k], t0.child[r];
    ShrunkTrans(t0, rk, t1, t2);
    forall j, a | 0 <= j < k + 1 && a in t2.parent && Anc(t0.parent, kids[j], a) ensures Kept(cfg, t2, a) {
      StepKept(cfg, t0, t1, t2, rk, r, k, pre, j, a);
    }
    forall a | a in t0.parent && !Anc(t0.parent, r, a) ensures Outside(t0, t2, a, None) {
      StepOutside(cfg, t0, t1, t2, rk, r, k, pre, a);
    }
    WholeBasics(t1, rk);
    WholeBasics(t2, rk);
    pre' := StepSplice(t1, t2, kids, r, k, pre);
  }

  lemma StepSplice(t1: Tree, t2: Tree, kids: seq<Addr>, r: Addr, k: nat, pre: seq<Addr>) returns (pre': seq<Addr>)
    requires Keyed(t1) && Keyed(t2) && r in t1.parent && k < |kids| && Distinct(t1.child[r])
        && t1.child[r] == pre + kids[k..]
    requires Spliced(t1, t2, kids[k], r)
    ensures r in t2.parent && t2.child[r] == pre' + kids[k + 1..]
  {
    hide Remove, Distinct;
    StepList(pre, kids, k);
    if kids[k] in t2.parent {
      pre' := pre + [kids[k]];
      assert pre + kids[k..] == pre' + kids[k + 1..];
    } else {
      var x :| t2.child[r] == x + Remove(t1.child[r], kids[k]);
      pre' := x + pre;
      assert x + (pre + kids[k + 1..]) == pre' + kids[k + 1..];
    }
  }

  lemma DistinctChildren(t: Tree, r: Addr)
    requires Linked(t) && r in t.parent
    ensures Distinct(t.child[r])
  {
  }

  lemma StepOutside(cfg: Config, t0: Tree, t1: Tree, t2: Tree, rk: map<Addr, nat>, r: Addr, k: nat, pre: seq<Addr>,
                    a: Addr)
    requires Whole(t0, rk) && r in t0.parent && Reducing(cfg, t0, t1, rk, r, k, pre) && k < |t0.child[r]|
    requires t0.child[r][k] in t1.parent && t1.parent[t0.child[r][k]] == Some(r)
        && Reduced(cfg, t1, t2, rk, t0.child[r][k])
    requires a in t0.parent && !Anc(t0.parent, r, a)
    ensures Outside(t0, t2, a, None)
  {
    hide Anc, Kept, Spliced, Shrunk, Whole, ChildLinks, LeafLinks, DetachedEmpty, Fresh, AllHomed, Ranked;
    WholeBasics(t0, rk);
    WholeBasics(t1, rk);
    WholeBasics(t2, rk);
    AncSelf(t0, r);
    var i := t0.child[r][k];
    assert i in t0.child[r];
    assert Outside(t0, t1, a, None);
    ShrunkAnc(t0, t1, i, a);
    if Anc(t1.parent, i, a) {
      ChildAbove(t0, rk, r, i, a);
    }
    assert Outside(t1, t2, a, Some(r));
  }

  lemma AncSelf(t: Tree, r: Addr)
    ensures Anc(t.parent, r, r)
  {
  }

  // A router below `r` is below one of the children of `r`.
  lemma {:induction false} BelowChild(t: Tree, rk: map<Addr, nat>, r: Addr, a: Addr) returns (j: nat)
    requires Linked(t) && Ranked(t.parent, rk) && r in t.parent && a in t.parent && Anc(t.parent, r, a) && a != r
    ensures j < |t.child[r]| && Anc(t.parent, t.child[r][j], a)
    decreases rk[a]
  {
    var p := t.parent[a].value;
    if p == r {
      assert a in t.child[r];
      j :| 0 <= j < |t.child[r]| && t.child[r][j] == a;
    } else {
      j := BelowChild(t, rk, r, p);
    }
  }

  // All children of `r` have been reduced.
  ghost predicate Done(cfg: Config, t0: Tree, t: Tree, rk: map<Addr, nat>, r: Addr)
    requires Keyed(t0) && r in t0.parent
  {
    && Whole(t, rk) && Shrunk(t0, t) && r in t.parent
    && (forall a | a in t.parent && a != r && Anc(t0.parent, r, a) :: Kept(cfg, t, a))
    && (forall a | a in t0.parent && !Anc(t0.parent, r, a) :: Outside(t0, t, a, None))
  }

  lemma ReducingDone(cfg: Config, t0: Tree, t: Tree, rk: map<Addr, nat>, r: Addr, pre: seq<Addr>)
    requires Linked(t0) && Ranked(t0.parent, rk) && r in t0.parent
    requires Reducing(cfg, t0, t, rk, r, |t0.child[r]|, pre)
    ensures Done(cfg, t0, t, rk, r)
  {
    hide ChildLinks, LeafLinks, Whole, Kept, Outside, Anc, Ranked, Shrunk;
    assert Keyed(t) by { WholeBasics(t, rk); }
    forall a | a in t.parent && a != r && Anc(t0.parent, r, a) ensures Kept(cfg, t, a) {
      ShrunkAnc(t0, t, r, a);
      var j := BelowChild(t0, rk, r, a);
      assert Anc(t0.parent, t0.child[r][j], a);
    }
  }

  // A router that is not cut is kept for a reason; the root is never cut.
  lemma EndKeep(cfg: Config, t0: Tree, t: Tree, rk: map<Addr, nat>, r: Addr)
    requires Linked(t0) && Ranked(t0.parent, rk) && r in t0.parent && Done(cfg, t0, t, rk, r)
    requires r in t.parent && (t.parent[r].Some? ==> Kept(cfg, t, r))
    ensures Reduced(cfg, t0, t, rk, r)
  {
    hide ChildLinks, LeafLinks, Whole, Kept, Anc, Ranked, Shrunk, Outside, Spliced;
    WholeBasics(t, rk);
    KeptRoot(t0, t, r);
    forall a | a in t0.parent && !Anc(t0.parent, r, a) ensures Outside(t0, t, a, t0.parent[r]) {
      assert Outside(t0, t, a, None);
      OutsideAny(t0, t, a, t0.parent[r]);
    }
    if t0.parent[r].Some? {
      ParentOutside(t0, rk, r);
      assert Outside(t0, t, t0.parent[r].value, None);
      SplicedSame(t0, t, r, t0.parent[r].value);
    }
  }

  lemma KeptRoot(t0: Tree, t: Tree, r: Addr)
    requires Keyed(t0) && Keyed(t) && Shrunk(t0, t) && r in t.parent
    ensures r in t0.parent && (t.parent[r].Some? <==> t0.parent[r].Some?)
  {
    hide Anc;
  }

  lemma OutsideAny(t0: Tree, t: Tree, a: Addr, p: Option<Addr>)
    requires Keyed(t0) && Keyed(t) && a in t0.parent && Outside(t0, t, a, None)
    ensures Outside(t0, t, a, p)
  {
  }

  lemma SplicedSame(t0: Tree, t: Tree, r: Addr, p: Addr)
    requires Keyed(t0) && Keyed(t) && p in t0.parent && r in t.parent && Outside(t0, t, p, None)
    ensures Spliced(t0, t, r, p)
  {
  }

  lemma ParentOutside(t: Tree, rk: map<Addr, nat>, r: Addr)
    requires Linked(t) && Ranked(t.parent, rk) && r in t.parent && t.parent[r].Some?
    ensures t.parent[r].value in t.parent && !Anc(t.parent, r, t.parent[r].value) && r in t.child[t.parent[r].value]
  {
    var p := t.parent[r].value;
    assert r in t.child[p];
    if Anc(t.parent, r, p) { AncRank(t, rk, r, p); }
  }

  // Cutting `r` after its children.
  lemma EndCuttable(cfg: Config, t0: Tree, t: Tree, rk: map<Addr, nat>, r: Addr)
    requires Linked(t0) && Ranked(t0.parent, rk) && r in t0.parent && Done(cfg, t0, t, rk, r)
    ensures Keyed(t) && Linked(t) && r in t.parent && t.parent[r] == t0.parent[r]
    ensures t.parent[r].Some? ==> Cuttable(t, r) && t.child[t.parent[r].value] == t0.child[t.parent[r].value]
  {
    hide LeafLinks, Kept, Anc, Whole, Shrunk;
    WholeBasics(t, rk);
    ShrunkAnc(t0, t, r, r);
    if t0.parent[r].Some? {
      ParentOutside(t0, rk, r);
      assert Outside(t0, t, t0.parent[r].value, None);
    }
  }

  lemma CutElsewhere(t: Tree, x: Addr, a: Addr)
    requires Keyed(t) && Cuttable(t, x) && x != t.root && a in t.parent && a != x
    ensures a in Cut(t, x).parent && Keyed(Cut(t, x))
    ensures Some(a) != t.parent[x] ==> Cut(t, x).child[a] == t.child[a] && Cut(t, x).leaf[a] == t.leaf[a]
    ensures Cut(t, x).parent.Keys == t.parent.Keys - {x}
  {
    hide Remove;
  }

  lemma EndCutKept(cfg: Config, t0: Tree, t: Tree, rk: map<Addr, nat>, r: Addr, a: Addr)
    requires Linked(t0) && Ranked(t0.parent, rk) && r in t0.parent && Done(cfg, t0, t, rk, r)
    requires Keyed(t) && Cuttable(t, r) && t.parent[r] == t0.parent[r] && r != t.root
    requires a in t.parent && a != r && Anc(t0.parent, r, a)
    ensures Kept(cfg, Cut(t, r), a)
  {
    hide ChildLinks, LeafLinks, Whole, Anc, Ranked, Shrunk, Cut, Outside;
    ParentOutside(t0, rk, r);
    assert Kept(cfg, t, a);
    CutElsewhere(t, r, a);
  }

  lemma EndCutOutside(cfg: Config, t0: Tree, t: Tree, rk: map<Addr, nat>, r: Addr, a: Addr)
    requires Keyed(t0) && r in t0.parent && Done(cfg, t0, t, rk, r)
    requires Keyed(t) && Cuttable(t, r) && t.parent[r] == t0.parent[r] && r != t.root && Keyed(Cut(t, r))
    requires a in t0.parent && !Anc(t0.parent, r, a)
    ensures Outside(t0, Cut(t, r), a, t0.parent[r])
  {
    hide ChildLinks, LeafLinks, Whole, Anc, Ranked, Shrunk, Cut, Kept;
    AncSelf(t0, r);
    assert Outside(t0, t, a, None);
    CutElsewhere(t, r, a);
  }

  lemma EndCut(cfg: Config, t0: Tree, t: Tree, rk: map<Addr, nat>, r: Addr)
    requires Whole(t0, rk) && r in t0.parent && Done(cfg, t0, t, rk, r)
    requires Keyed(t) && Cuttable(t, r)
    ensures Reduced(cfg, t0, Cut(t, r), rk, r)
  {
    hide ChildLinks, LeafLinks, Whole, Anc, Ranked, Shrunk, Cut, Remove, Cuttable, Kept, Outside, DetachedEmpty, Fresh,
         AllHomed;
    WholeBasics(t0, rk);
    EndCuttable(cfg, t0, t, rk, r);
    CutKeeps(t, rk, r);
    var t' := Cut(t, r);
    WholeBasics(t', rk);
    ShrunkTrans(t0, rk, t, t');
    CutGone(t, r);
    forall a | a in t'.parent && Anc(t0.parent, r, a) ensures Kept(cfg, t', a) {
      EndCutKept(cfg, t0, t, rk, r, a);
    }
    forall a | a in t0.parent && !Anc(t0.parent, r, a) ensures Outside(t0, t', a, t0.parent[r]) {
      EndCutOutside(cfg, t0, t, rk, r, a);
    }
  }

  lemma CutGone(t: Tree, x: Addr)
    requires Keyed(t) && Cuttable(t, x) && x != t.root
    ensures Keyed(Cut(t, x)) && Cut(t, x).parent.Keys == t.parent.Keys - {x}
    ensures t.parent[x].value in Cut(t, x).child
        && Cut(t, x).child[t.parent[x].value] == t.child[x] + Remove(t.child[t.parent[x].value], x)
  {
    hide Remove, Keyed;
    CutKeyed(t, x);
    assert x in t.child && t.parent[x].value in t.child by { Children(t); }
  }

  lemma Children(t: Tree)
    requires Keyed(t)
    ensures t.child.Keys == t.parent.Keys
  {
  }

  // The next child to reduce is still a child of `r`.
  lemma ReducingChild(cfg: Config, t0: Tree, t: Tree, rk: map<Addr, nat>, r: Addr, k: nat, pre: seq<Addr>)
    requires Keyed(t0) && r in t0.parent && r in rk && Reducing(cfg, t0, t, rk, r, k, pre) && k < |t0.child[r]|
    ensures Keyed(t) && Whole(t, rk)
    ensures var i := t0.child[r][k];
            i in t.parent && t.parent[i] == Some(r) && i in rk && Higher(rk, i) < Higher(rk, r)
  {
    hide LeafLinks, Kept, Outside, Anc, Shrunk, Higher;
    var i := t0.child[r][k];
    assert t.child[r][|pre|] == i;
    assert i in t.child[r];
    Deeper(rk, r, i);
  }

  lemma ReducedBasics(cfg: Config, t0: Tree, t: Tree, rk: map<Addr, nat>, r: Addr)
    requires Keyed(t0) && r in t0.parent && Reduced(cfg, t0, t, rk, r)
    ensures Whole(t, rk) && Keyed(t)
  {
    hide Kept, Outside, Anc, Shrunk, Spliced, ChildLinks, LeafLinks;
  }

  lemma CutsSnoc(cfg: Config, t0: Tree, cuts: seq<Addr>, t: Tree, x: Addr)
    requires Keyed(t0) && Cuts(cfg, t0, cuts, t) && Keyed(t) && Cuttable(t, x) && Light(cfg, t, x) && Keyed(Cut(t, x))
    ensures Cuts(cfg, t0, cuts + [x], Cut(t, x))
  {
    hide Cut, Light, Cuttable, Keyed;
    assert Cuts(cfg, Cut(t, x), [], Cut(t, x));
    assert [x][1..] == [];
    CutsConcat(cfg, t0, cuts, t, [x], Cut(t, x));
  }

  // `order` lists every router of the subtree of `r` once, and no router before one below it.
  ghost predicate Visits(t: Tree, r: Addr, order: seq<Addr>) {
    (forall a :: a in order <==> a in t.parent && Anc(t.parent, r, a)) && Upwards(t, order)
  }

  ghost predicate Upwards(t: Tree, order: seq<Addr>) {
    forall i, j | 0 <= i < j < |order| :: !Anc(t.parent, order[i], order[j])
  }

  lemma VisitsOnce(t: Tree, r: Addr, order: seq<Addr>)
    requires Visits(t, r, order)
    ensures Distinct(order)
  {
    forall i, j | 0 <= i < j < |order| ensures order[i] != order[j] {
      if order[i] == order[j] { AncSelf(t, order[i]); }
    }
  }

  // The same for the subtrees of the first `k` children of `r`.
  ghost predicate VisitedFirst(t: Tree, r: Addr, k: nat, order: seq<Addr>)
    requires r in t.child && k <= |t.child[r]|
  {
    (forall a :: a in order <==> a in t.parent && Below(t, r, k, a)) && Upwards(t, order)
  }

  ghost predicate Below(t: Tree, r: Addr, k: nat, a: Addr)
    requires r in t.child && k <= |t.child[r]|
  {
    exists j :: 0 <= j < k && Anc(t.parent, t.child[r][j], a)
  }

  // Only routers below the first `k` children of `r` have been removed.
  ghost predicate Untouched(t0: Tree, t: Tree, r: Addr, k: nat)
    requires r in t0.child && k <= |t0.child[r]|
  {
    forall a | a in t0.parent && !Below(t0, r, k, a) :: a in t.parent
  }

  lemma VisitStart(t: Tree, r: Addr)
    requires r in t.child
    ensures VisitedFirst(t, r, 0, []) && Untouched(t, t, r, 0)
  {
  }

  lemma VisitChild(cfg: Config, t0: Tree, t1: Tree, t2: Tree, rk: map<Addr, nat>, r: Addr, k: nat, pre: seq<Addr>,
                   order: seq<Addr>, more: seq<Addr>)
    requires Whole(t0, rk) && r in t0.parent && Reducing(cfg, t0, t1, rk, r, k, pre) && k < |t0.child[r]|
    requires t0.child[r][k] in t1.parent && Reduced(cfg, t1, t2, rk, t0.child[r][k])
    requires VisitedFirst(t0, r, k, order) && Untouched(t0, t1, r, k) && Visits(t1, t0.child[r][k], more)
    ensures VisitedFirst(t0, r, k + 1, order + more) && Untouched(t0, t2, r, k + 1)
  {
    hide Whole, Kept, Outside, Spliced, Shrunk, ChildLinks, LeafLinks, DetachedEmpty, Fresh, AllHomed, Anc, Ranked,
         VisitedFirst, Untouched, Upwards, Below;
    WholeBasics(t0, rk);
    WholeBasics(t1, rk);
    VisitMembers(t0, t1, rk, r, k, order, more);
    VisitUpwards(t0, t1, rk, r, k, order, more);
    VisitedFirstIs(t0, r, k + 1, order + more);
    UntouchedNext(cfg, t0, t1, t2, rk, r, k);
  }

  lemma VisitedFirstIs(t: Tree, r: Addr, k: nat, order: seq<Addr>)
    requires r in t.child && k <= |t.child[r]| && Upwards(t, order)
    requires forall a :: a in order <==> a in t.parent && Below(t, r, k, a)
    ensures VisitedFirst(t, r, k, order)
  {
    hide Upwards, Below;
  }

  lemma BelowNext(t: Tree, r: Addr, k: nat, a: Addr)
    requires r in t.child && k < |t.child[r]|
    ensures Below(t, r, k + 1, a) <==> Below(t, r, k, a) || Anc(t.parent, t.child[r][k], a)
  {
    hide Anc;
    if Below(t, r, k, a) {
      var j :| 0 <= j < k && Anc(t.parent, t.child[r][j], a);
      assert j < k + 1;
    }
  }

  // The child at position `k` is not above anything below the children before it.
  lemma BelowApart(t: Tree, rk: map<Addr, nat>, r: Addr, k: nat, a: Addr)
    requires Linked(t) && Ranked(t.parent, rk) && r in t.parent && k < |t.child[r]| && a in t.parent
    requires Anc(t.parent, t.child[r][k], a)
    ensures !Below(t, r, k, a)
  {
    hide ChildLinks, LeafLinks, Ranked, Anc;
    if Below(t, r, k, a) {
      var j :| 0 <= j < k && Anc(t.parent, t.child[r][j], a);
      ChildAt(t, r, k);
      ChildAt(t, r, j);
      Siblings(t, rk, r, t.child[r][k], t.child[r][j], a);
    }
  }

  lemma VisitMembers(t0: Tree, t1: Tree, rk: map<Addr, nat>, r: Addr, k: nat, order: seq<Addr>, more: seq<Addr>)
    requires Linked(t0) && Ranked(t0.parent, rk) && r in t0.parent && k < |t0.child[r]| && Keyed(t1) && Shrunk(t0, t1)
    requires t0.child[r][k] in t1.parent && VisitedFirst(t0, r, k, order) && Untouched(t0, t1, r, k)
    requires Visits(t1, t0.child[r][k], more)
    ensures forall a :: a in order + more <==> a in t0.parent && Below(t0, r, k + 1, a)
  {
    hide Shrunk, ChildLinks, LeafLinks, Anc, Ranked, Upwards, Below;
    var i := t0.child[r][k];
    forall a ensures a in order + more <==> a in t0.parent && Below(t0, r, k + 1, a) {
      BelowNext(t0, r, k, a);
      if a in more {
        ShrunkAnc(t0, t1, i, a);
      }
      if a in t0.parent && Anc(t0.parent, i, a) {
        BelowApart(t0, rk, r, k, a);
        ShrunkAnc(t0, t1, i, a);
      }
    }
  }

  lemma VisitUpwards(t0: Tree, t1: Tree, rk: map<Addr, nat>, r: Addr, k: nat, order: seq<Addr>, more: seq<Addr>)
    requires Linked(t0) && Ranked(t0.parent, rk) && r in t0.parent && k < |t0.child[r]| && Keyed(t1) && Shrunk(t0, t1)
    requires t0.child[r][k] in t1.parent && VisitedFirst(t0, r, k, order) && Visits(t1, t0.child[r][k], more)
    ensures Upwards(t0, order + more)
  {
    hide Shrunk, ChildLinks, LeafLinks, Anc, Ranked, Below;
    var all := order + more;
    forall i, j | 0 <= i < j < |all| ensures !Anc(t0.parent, all[i], all[j]) {
      var x, y := all[i], all[j];
      if j >= |order| {
        assert y in more;
        ShrunkAnc(t0, t1, t0.child[r][k], y);
        if i >= |order| {
          assert x in more && x in t1.parent;
          ShrunkAnc(t0, t1, x, y);
          assert x == more[i - |order|] && y == more[j - |order|];
        } else if Anc(t0.parent, x, y) {
          assert x in order;
          BelowTrans(t0, rk, r, k, x, y);
          BelowApart(t0, rk, r, k, y);
        }
      }
    }
  }

  lemma BelowTrans(t: Tree, rk: map<Addr, nat>, r: Addr, k: nat, x: Addr, y: Addr)
    requires Linked(t) && Ranked(t.parent, rk) && r in t.parent && k <= |t.child[r]| && y in t.parent
    requires Below(t, r, k, x) && Anc(t.parent, x, y)
    ensures Below(t, r, k, y)
  {
    hide ChildLinks, LeafLinks, Ranked, Anc;
    var j :| 0 <= j < k && Anc(t.parent, t.child[r][j], x);
    AncTrans(t, rk, t.child[r][j], x, y);
  }

  lemma UntouchedNext(cfg: Config, t0: Tree, t1: Tree, t2: Tree, rk: map<Addr, nat>, r: Addr, k: nat)
    requires Keyed(t0) && r in t0.parent && k < |t0.child[r]| && Keyed(t1) && Shrunk(t0, t1)
    requires Untouched(t0, t1, r, k) && t0.child[r][k] in t1.parent && Reduced(cfg, t1, t2, rk, t0.child[r][k])
    ensures Untouched(t0, t2, r, k + 1)
  {
    hide Shrunk, Whole, Kept, Spliced, Anc, Below, ChildLinks, LeafLinks, DetachedEmpty, Fresh, AllHomed, Ranked;
    WholeBasics(t2, rk);
    forall a | a in t0.parent && !Below(t0, r, k + 1, a) ensures a in t2.parent {
      BelowNext(t0, r, k, a);
      ShrunkAnc(t0, t1, t0.child[r][k], a);
      assert Outside(t1, t2, a, t1.parent[t0.child[r][k]]);
    }
  }

  // The router itself comes last.
  lemma VisitEnd(t: Tree, rk: map<Addr, nat>, r: Addr, order: seq<Addr>)
    requires Linked(t) && Ranked(t.parent, rk) && r in t.parent && VisitedFirst(t, r, |t.child[r]|, order)
    ensures Visits(t, r, order + [r])
  {
    hide ChildLinks, LeafLinks, Ranked, Anc, Below;
    var n := |t.child[r]|;
    forall a ensures a in order + [r] <==> a in t.parent && Anc(t.parent, r, a) {
      AncSelf(t, r);
      if a in t.parent { BelowIs(t, rk, r, a); }
    }
    forall i, j | 0 <= i < j < |order + [r]| ensures !Anc(t.parent, (order + [r])[i], (order + [r])[j]) {
      if j == |order| {
        assert order[i] in order;
        BelowNot(t, rk, r, order[i]);
      }
    }
  }

  lemma BelowNot(t: Tree, rk: map<Addr, nat>, r: Addr, a: Addr)
    requires Linked(t) && Ranked(t.parent, rk) && r in t.parent && a in t.parent && Below(t, r, |t.child[r]|, a)
    ensures !Anc(t.parent, a, r)
  {
    hide ChildLinks, LeafLinks, Anc;
    var j :| 0 <= j < |t.child[r]| && Anc(t.parent, t.child[r][j], a);
    ChildAt(t, r, j);
    ChildAbove(t, rk, r, t.child[r][j], a);
    AncRank(t, rk, r, a);
    if Anc(t.parent, a, r) { AncRank(t, rk, a, r); }
  }

  // What is below a router is the router itself or below one of its children.
  lemma {:induction false} BelowIs(t: Tree, rk: map<Addr, nat>, r: Addr, a: Addr)
    requires Linked(t) && Ranked(t.parent, rk) && r in t.parent && a in t.parent
    ensures Anc(t.parent, r, a) <==> a == r || Below(t, r, |t.child[r]|, a)
    decreases rk[a]
  {
    if a != r && t.parent[a].Some? {
      var p := t.parent[a].value;
      assert a in t.child[p];
      BelowIs(t, rk, r, p);
      if p == r {
        var j :| 0 <= j < |t.child[r]| && t.child[r][j] == a;
        assert Anc(t.parent, t.child[r][j], a);
      } else if Anc(t.parent, r, a) {
        var j :| 0 <= j < |t.child[r]| && Anc(t.parent, t.child[r][j], p);
        assert Anc(t.parent, t.child[r][j], a);
      }
    }
    if Below(t, r, |t.child[r]|, a) {
      var j :| 0 <= j < |t.child[r]| && Anc(t.parent, t.child[r][j], a);
      ChildAt(t, r, j);
      ChildAbove(t, rk, r, t.child[r][j], a);
    }
  }

  // Router `a` is as the tree `t0` prescribes.
  ghost predicate PrunedAt(cfg: Config, t0: Tree, t: Tree, rk: map<Addr, nat>, a: Addr)
    requires Linked(t0) && Ranked(t0.parent, rk) && Keyed(t) && a in t0.parent && a in rk
  {
    && (a in t.parent <==> Survives(cfg, t0, rk, a))
    && (a in t.parent ==> Lot(t.child[a], t.leaf[a]) == Final(cfg, t0, rk, a))
  }

  // So are all routers of the subtree of `r`, and what is left of `r` is in the lists of its parent.
  ghost predicate Pruned(cfg: Config, t0: Tree, t: Tree, rk: map<Addr, nat>, r: Addr)
    requires Linked(t0) && Ranked(t0.parent, rk) && Keyed(t) && r in t0.parent && r in rk
  {
    && (forall a | a in t0.parent && a in rk && Anc(t0.parent, r, a) :: PrunedAt(cfg, t0, t, rk, a))
    && (t0.parent[r].Some? && t0.parent[r].value in t0.parent ==>
          var p := t0.parent[r].value;
          && p in t.parent
          && Lot(t.child[p], t.leaf[p]) ==
               if Survives(cfg, t0, rk, r) then Lot(t0.child[p], t0.leaf[p])
               else Lot(Final(cfg, t0, rk, r).kids + Remove(t0.child[p], r), Final(cfg, t0, rk, r).leaves + t0.leaf[p]))
  }

  // The same after the first `k` children of `r`; everything else has the lists that it had.
  ghost predicate PrunedFirst(cfg: Config, t0: Tree, t: Tree, rk: map<Addr, nat>, r: Addr, k: nat)
    requires Linked(t0) && Ranked(t0.parent, rk) && Keyed(t) && r in t0.parent && r in rk && k <= |t0.child[r]|
  {
    && (forall a | a in t0.parent && a in rk && Below(t0, r, k, a) :: PrunedAt(cfg, t0, t, rk, a))
    && r in t.parent && Lot(t.child[r], t.leaf[r]) == After(cfg, t0, rk, r, k)
    && (forall a | a in t0.parent && a != r && !Below(t0, r, k, a) :: SameLists(t0, t, a))
  }

  ghost predicate SameLists(t0: Tree, t: Tree, a: Addr)
    requires Keyed(t0) && Keyed(t) && a in t0.parent
  {
    a in t.parent && t.child[a] == t0.child[a] && t.leaf[a] == t0.leaf[a]
  }

  lemma PrunedStart(cfg: Config, t: Tree, rk: map<Addr, nat>, r: Addr)
    requires Linked(t) && Ranked(t.parent, rk) && r in t.parent && r in rk
    ensures PrunedFirst(cfg, t, t, rk, r, 0)
  {
  }

  // The child at position `k` has been reduced, which `t1` and `t2` are before and after.
  lemma PrunedNext(cfg: Config, t0: Tree, t1: Tree, t2: Tree, rk: map<Addr, nat>, r: Addr, k: nat, pre: seq<Addr>)
    requires Whole(t0, rk) && Linked(t0) && Ranked(t0.parent, rk) && r in t0.parent && r in rk
    requires k < |t0.child[r]| && Reducing(cfg, t0, t1, rk, r, k, pre) && Linked(t1) && Ranked(t1.parent, rk)
    requires t0.child[r][k] in t1.parent && t0.child[r][k] in rk && t1.parent[t0.child[r][k]] == Some(r)
    requires Reduced(cfg, t1, t2, rk, t0.child[r][k]) && Keyed(t2)
    requires PrunedFirst(cfg, t0, t1, rk, r, k) && Pruned(cfg, t1, t2, rk, t0.child[r][k])
    ensures PrunedFirst(cfg, t0, t2, rk, r, k + 1)
  {
    hide Whole, Kept, Spliced, Shrunk, ChildLinks, LeafLinks, DetachedEmpty, Fresh, AllHomed, Anc, Ranked, Below, After,
         Final, Survives, PrunedAt, Outside, SameLists;
    var i := t0.child[r][k];
    ChildHigher(t0, rk, r, k);
    SameSubtree(cfg, t0, t1, rk, r, k);
    forall a | a in t0.parent && a in rk && Below(t0, r, k + 1, a) ensures PrunedAt(cfg, t0, t2, rk, a) {
      BelowNext(t0, r, k, a);
      if Below(t0, r, k, a) {
        PrunedBefore(cfg, t0, t1, t2, rk, r, k, a);
      } else {
        PrunedBelow(cfg, t0, t1, t2, rk, i, a);
      }
    }
    forall a | a in t0.parent && a != r && !Below(t0, r, k + 1, a) ensures SameLists(t0, t2, a) {
      BelowNext(t0, r, k, a);
      PrunedApart(cfg, t0, t1, t2, rk, i, r, a);
    }
    PrunedKids(cfg, t0, t1, t2, rk, r, k);
  }

  // Below the child at position `k` nothing has changed yet.
  lemma SameSubtree(cfg: Config, t0: Tree, t1: Tree, rk: map<Addr, nat>, r: Addr, k: nat)
    requires Linked(t0) && Ranked(t0.parent, rk) && r in t0.parent && r in rk && k < |t0.child[r]| && Keyed(t1)
    requires PrunedFirst(cfg, t0, t1, rk, r, k)
    ensures SameBelow(t0, t1, t0.child[r][k])
  {
    hide ChildLinks, LeafLinks, Anc, Ranked, Below, After, PrunedAt;
    forall x | x in t0.parent && Anc(t0.parent, t0.child[r][k], x)
      ensures x in t1.parent && t1.child[x] == t0.child[x] && t1.leaf[x] == t0.leaf[x]
    {
      ChildAt(t0, r, k);
      ChildAbove(t0, rk, r, t0.child[r][k], x);
      BelowApart(t0, rk, r, k, x);
      assert SameLists(t0, t1, x);
    }
  }

  // What has been reduced before stays as it is.
  lemma PrunedBefore(cfg: Config, t0: Tree, t1: Tree, t2: Tree, rk: map<Addr, nat>, r: Addr, k: nat, a: Addr)
    requires Linked(t0) && Ranked(t0.parent, rk) && r in t0.parent && k < |t0.child[r]| && a in t0.parent && a in rk
    requires Keyed(t1) && Keyed(t2) && Shrunk(t0, t1) && t0.child[r][k] in t1.parent
        && t1.parent[t0.child[r][k]] == Some(r) && Reduced(cfg, t1, t2, rk, t0.child[r][k])
    requires Below(t0, r, k, a) && PrunedAt(cfg, t0, t1, rk, a)
    ensures PrunedAt(cfg, t0, t2, rk, a)
  {
    hide Whole, Kept, Spliced, ChildLinks, LeafLinks, Anc, Ranked, Below, Final, Survives;
    BelowOther(t0, rk, r, k, a);
    if a in t1.parent {
      ShrunkAnc(t0, t1, t0.child[r][k], a);
      if Anc(t0.parent, t0.child[r][k], a) { BelowApart(t0, rk, r, k, a); }
      assert Outside(t1, t2, a, Some(r));
    }
  }

  lemma BelowOther(t: Tree, rk: map<Addr, nat>, r: Addr, k: nat, a: Addr)
    requires Linked(t) && Ranked(t.parent, rk) && r in t.parent && k <= |t.child[r]| && a in t.parent
        && Below(t, r, k, a)
    ensures a != r
  {
    hide ChildLinks, LeafLinks, Anc, Ranked;
    var j :| 0 <= j < k && Anc(t.parent, t.child[r][j], a);
    ChildAt(t, r, j);
    ChildAbove(t, rk, r, t.child[r][j], a);
  }

  // What is reduced now is reduced as the tree before prescribes.
  lemma PrunedBelow(cfg: Config, t0: Tree, t1: Tree, t2: Tree, rk: map<Addr, nat>, i: Addr, a: Addr)
    requires Linked(t0) && Ranked(t0.parent, rk) && Linked(t1) && Ranked(t1.parent, rk) && Keyed(t2) && Shrunk(t0, t1)
    requires SameBelow(t0, t1, i) && i in t1.parent && i in rk && Pruned(cfg, t1, t2, rk, i)
    requires a in t0.parent && a in rk && Anc(t0.parent, i, a)
    ensures PrunedAt(cfg, t0, t2, rk, a)
  {
    hide ChildLinks, LeafLinks, Anc, Ranked, After;
    assert a in t1.parent;
    ShrunkAnc(t0, t1, i, a);
    AfterSame(cfg, t0, t1, rk, i, a, |t0.child[a]|);
    assert PrunedAt(cfg, t1, t2, rk, a);
  }

  // What is neither below `i` nor its parent has not changed.
  lemma PrunedApart(cfg: Config, t0: Tree, t1: Tree, t2: Tree, rk: map<Addr, nat>, i: Addr, r: Addr, a: Addr)
    requires Keyed(t0) && Keyed(t1) && Keyed(t2) && Shrunk(t0, t1) && i in t1.parent && t1.parent[i] == Some(r)
    requires Reduced(cfg, t1, t2, rk, i) && a in t0.parent && a != r && SameLists(t0, t1, a) && !Anc(t0.parent, i, a)
    ensures SameLists(t0, t2, a)
  {
    hide Whole, Kept, Spliced, Anc;
    ShrunkAnc(t0, t1, i, a);
    assert Outside(t1, t2, a, Some(r));
  }

  lemma PrunedKids(cfg: Config, t0: Tree, t1: Tree, t2: Tree, rk: map<Addr, nat>, r: Addr, k: nat)
    requires Linked(t0) && Ranked(t0.parent, rk) && Linked(t1) && Ranked(t1.parent, rk) && Keyed(t2)
    requires r in t0.parent && r in rk && k < |t0.child[r]| && r in t1.parent && t0.child[r][k] in rk
    requires SameBelow(t0, t1, t0.child[r][k]) && t0.child[r][k] in t1.parent && t1.parent[t0.child[r][k]] == Some(r)
    requires Lot(t1.child[r], t1.leaf[r]) == After(cfg, t0, rk, r, k) && Pruned(cfg, t1, t2, rk, t0.child[r][k])
    ensures r in t2.parent && Lot(t2.child[r], t2.leaf[r]) == After(cfg, t0, rk, r, k + 1)
  {
    hide ChildLinks, LeafLinks, Ranked, PrunedAt, Remove;
    var i := t0.child[r][k];
    ChildHigher(t0, rk, r, k);
    assert Anc(t0.parent, i, i);
    AfterSame(cfg, t0, t1, rk, i, i, |t0.child[i]|);
  }

  // At the end `r` stays,
  lemma PrunedKept(cfg: Config, t0: Tree, t: Tree, rk: map<Addr, nat>, r: Addr)
    requires Linked(t0) && Ranked(t0.parent, rk) && r in t0.parent && r in rk && Keyed(t)
    requires PrunedFirst(cfg, t0, t, rk, r, |t0.child[r]|)
    requires t0.parent[r].None? || Enough(cfg, Lot(t.child[r], t.leaf[r]))
    ensures Pruned(cfg, t0, t, rk, r)
  {
    hide ChildLinks, LeafLinks, Anc, Ranked, Below, After;
    forall a | a in t0.parent && a in rk && Anc(t0.parent, r, a) ensures PrunedAt(cfg, t0, t, rk, a) {
      BelowIs(t0, rk, r, a);
    }
    if t0.parent[r].Some? {
      ParentOutside(t0, rk, r);
      BelowIs(t0, rk, r, t0.parent[r].value);
      assert SameLists(t0, t, t0.parent[r].value);
    }
  }

  // or is cut.
  lemma PrunedCut(cfg: Config, t0: Tree, t: Tree, rk: map<Addr, nat>, r: Addr)
    requires Linked(t0) && Ranked(t0.parent, rk) && r in t0.parent && r in rk && Keyed(t)
    requires PrunedFirst(cfg, t0, t, rk, r, |t0.child[r]|)
    requires Cuttable(t, r) && r != t.root && t.parent[r] == t0.parent[r] && Keyed(Cut(t, r))
    requires !Enough(cfg, Lot(t.child[r], t.leaf[r]))
    ensures Pruned(cfg, t0, Cut(t, r), rk, r)
  {
    hide ChildLinks, LeafLinks, Anc, Ranked, Below, After, Remove, Cut;
    var p := t0.parent[r].value;
    ParentOutside(t0, rk, r);
    BelowIs(t0, rk, r, p);
    assert SameLists(t0, t, p);
    CutElsewhere(t, r, p);
    forall a | a in t0.parent && a in rk && Anc(t0.parent, r, a) ensures PrunedAt(cfg, t0, Cut(t, r), rk, a) {
      BelowIs(t0, rk, r, a);
      if a != r && a in t.parent { CutElsewhere(t, r, a); }
    }
    CutHost(t, r);
  }

  lemma CutHost(t: Tree, x: Addr)
    requires Keyed(t) && Cuttable(t, x) && x != t.root && Keyed(Cut(t, x))
    ensures var p := t.parent[x].value;
            p in Cut(t, x).parent && Cut(t, x).child[p] == t.child[x] + Remove(t.child[p], x)
            && Cut(t, x).leaf[p] == t.leaf[x] + t.leaf[p]
  {
    hide Remove;
  }

  // Reduces the subtree of `r`, deepest routers first, each once. The rest of the child list that is
  // saved before a child is reduced stays valid: cutting the child only changes the part in front of it.
  method ReduceTree(st: Store, r: Addr, cfg: Config, ghost rk: map<Addr, nat>)
    returns (ghost cuts: seq<Addr>, ghost order: seq<Addr>)
    requires Whole(st.T(), rk) && r in st.parent && r in rk
    modifies st
    ensures Reduced(cfg, old(st.T()), st.T(), rk, r)
    ensures Cuts(cfg, old(st.T()), cuts, st.T())
    ensures Visits(old(st.T()), r, order)
    ensures Linked(old(st.T())) && Ranked(old(st.parent), rk) && Keyed(st.T())
        && Pruned(cfg, old(st.T()), st.T(), rk, r)
    decreases Higher(rk, r)
  {
    hide Whole, Reduced, Reducing, Done, Cuts, Kept, Higher, Cut, ChildLinks, LeafLinks, Shrunk, Ranked, Visits,
         VisitedFirst, Untouched, Pruned, PrunedFirst;
    ghost var t0 := st.T();
    WholeBasics(t0, rk);
    cuts := NoCuts(cfg, t0);
    order := [];
    var j := st.child[r];
    ghost var k, pre: seq<Addr> := 0, [];
    ReducingStart(cfg, t0, rk, r);
    VisitStart(t0, r);
    PrunedStart(cfg, t0, rk, r);
    while j != []
      invariant 0 <= k <= |t0.child[r]| && j == t0.child[r][k..]
      invariant Reducing(cfg, t0, st.T(), rk, r, k, pre) && Cuts(cfg, t0, cuts, st.T())
      invariant VisitedFirst(t0, r, k, order) && Untouched(t0, st.T(), r, k)
      invariant Keyed(st.T()) && PrunedFirst(cfg, t0, st.T(), rk, r, k)
      decreases |j|
    {
      var i := j[0];
      j := j[1..];
      ghost var t1 := st.T();
      ReducingChild(cfg, t0, t1, rk, r, k, pre);
      ghost var more, visits := ReduceTree(st, i, cfg, rk);
      VisitChild(cfg, t0, t1, st.T(), rk, r, k, pre, order, visits);
      PrunedNext(cfg, t0, t1, st.T(), rk, r, k, pre);
      pre := ReducingStep(cfg, t0, t1, st.T(), rk, r, k, pre);
      ReducedBasics(cfg, t1, st.T(), rk, i);
      CutsConcat(cfg, t0, cuts, t1, more, st.T());
      cuts, order := cuts + more, order + visits;
      k := k + 1;
    }
    ReducingDone(cfg, t0, st.T(), rk, r, pre);
    VisitEnd(t0, rk, r, order);
    order := order + [r];
    cuts := CutLight(st, r, cfg, t0, rk, cuts);
  }

  lemma NoCuts(cfg: Config, t: Tree) returns (cuts: seq<Addr>)
    requires Keyed(t)
    ensures Cuts(cfg, t, cuts, t) && cuts == []
  {
    cuts := [];
  }

  // The end of the reduction of `r`: it is cut if it is too light, unless it is the root.
  method CutLight(st: Store, r: Addr, cfg: Config, ghost t0: Tree, ghost rk: map<Addr, nat>,
                  ghost cuts0: seq<Addr>) returns (ghost cuts: seq<Addr>)
    requires Whole(t0, rk) && Keyed(t0) && r in t0.parent && Done(cfg, t0, st.T(), rk, r)
        && Cuts(cfg, t0, cuts0, st.T())
    requires Linked(t0) && Ranked(t0.parent, rk) && r in rk && Keyed(st.T())
        && PrunedFirst(cfg, t0, st.T(), rk, r, |t0.child[r]|)
    modifies st
    ensures Reduced(cfg, t0, st.T(), rk, r)
    ensures Cuts(cfg, t0, cuts, st.T())
    ensures Keyed(st.T()) && Pruned(cfg, t0, st.T(), rk, r)
  {
    hide Whole, Reduced, Done, Cuts, Cut, ChildLinks, LeafLinks, Shrunk, Pruned, PrunedFirst, Ranked;
    WholeBasics(t0, rk);
    ghost var t := st.T();
    EndCuttable(cfg, t0, t, rk, r);
    cuts := cuts0;
    if st.parent[r].None? {
      PrunedKept(cfg, t0, t, rk, r);
      EndKeep(cfg, t0, t, rk, r);
      return;
    }
    if |st.child[r]| < cfg.minRouters && |st.leaf[r]| < cfg.minLeafs {
      CutLinked(t, r);
      PrunedCut(cfg, t0, t, rk, r);
      EndCut(cfg, t0, t, rk, r);
      CutsSnoc(cfg, t0, cuts, t, r);
      cuts := cuts + [r];
      CutRouter(st, r);
    } else {
      PrunedKept(cfg, t0, t, rk, r);
      EndKeep(cfg, t0, t, rk, r);
    }
  }

  // Exactly which routers of the tree are removed, and what the others end up with.
  lemma ReducedExactly(cfg: Config, t0: Tree, t: Tree, rk: map<Addr, nat>, a: Addr)
    requires Whole(t0, rk) && Linked(t0) && Ranked(t0.parent, rk) && t0.root in t0.parent && t0.root in rk
    requires Keyed(t) && Pruned(cfg, t0, t, rk, t0.root) && Attached(t0, a) && a in rk
    ensures a != t0.root ==>
              (a !in t.parent <==>
               |Final(cfg, t0, rk, a).kids| < cfg.minRouters && |Final(cfg, t0, rk, a).leaves| < cfg.minLeafs)
    ensures a == t0.root ==> a in t.parent
    ensures a in t.parent ==>
              t.child[a] == Final(cfg, t0, rk, a).kids && t.leaf[a] == Final(cfg, t0, rk, a).leaves
  {
    hide ChildLinks, LeafLinks, Anc, Ranked, Final;
    RootAbove(t0, rk, a);
    assert PrunedAt(cfg, t0, t, rk, a);
  }

  // After the root has been reduced every router of the tree is kept for a reason, so none is bare.
  lemma ReducedRoot(cfg: Config, t0: Tree, t: Tree, rk: map<Addr, nat>)
    requires Checked(cfg) && Whole(t0, rk) && t0.root in t0.parent && Keyed(t0) && Reduced(cfg, t0, t, rk, t0.root)
    ensures Whole(t, rk) && Keyed(t) && Shrunk(t0, t) && NoneBare(t)
    ensures forall a | a in t.parent && t.parent[a].Some? :: Kept(cfg, t, a)
  {
    hide Whole, Shrunk, ChildLinks, LeafLinks, Anc, Ranked, Outside, Kept, NoneBare;
    WholeBasics(t0, rk);
    WholeBasics(t, rk);
    forall a | a in t.parent && t.parent[a].Some? ensures Kept(cfg, t, a) {
      ShrunkAnc(t0, t, t0.root, a);
      RootAbove(t0, rk, a);
    }
    KeptNotBare(cfg, t);
  }

  lemma KeptNotBare(cfg: Config, t: Tree)
    requires Checked(cfg) && Keyed(t)
    requires forall a | a in t.parent && t.parent[a].Some? :: Kept(cfg, t, a)
    ensures NoneBare(t)
  {
  }

  lemma GoneCons(keys: set<Addr>, x: Addr, rest: seq<Addr>, cuts: seq<Addr>)
    requires cuts != [] && x == cuts[0] && rest == cuts[1..] && Distinct(rest)
        && forall y | y in rest :: y in keys - {x}
    ensures Distinct(cuts) && (set y | y in cuts) == {x} + set y | y in rest
    ensures forall y | y in cuts :: y == x || y in rest
  {
    assert cuts == [x] + rest;
    forall i, j | 0 <= i < j < |cuts| ensures cuts[i] != cuts[j] {
      assert cuts[j] == rest[j - 1] && rest[j - 1] in rest;
      assert i > 0 ==> cuts[i] == rest[i - 1];
    }
  }

  // Exactly the cut routers disappear from the index.
  lemma {:induction false} CutsGone(cfg: Config, t: Tree, rk: map<Addr, nat>, cuts: seq<Addr>, t': Tree)
    requires Whole(t, rk) && Keyed(t) && Cuts(cfg, t, cuts, t')
    ensures t'.parent.Keys == t.parent.Keys - (set x | x in cuts)
    ensures Distinct(cuts) && (forall x | x in cuts :: x in t.parent && x != t.root) && t.root == t'.root
    decreases |cuts|
  {
    hide Whole, Cut, Light, ChildLinks, LeafLinks, Keyed, Shrunk;
    if cuts != [] {
      var x, rest := cuts[0], cuts[1..];
      CutKeeps(t, rk, x);
      WholeBasics(t, rk);
      CutGone(t, x);
      CutLinked(t, x);
      CutsGone(cfg, Cut(t, x), rk, rest, t');
      GoneCons(t.parent.Keys, x, rest, cuts);
    }
  }

  // Reduction keeps hop counts rising strictly.
  lemma StrictShrunk(t0: Tree, t: Tree, rk: map<Addr, nat>)
    requires Whole(t0, rk) && Whole(t, rk) && Keyed(t0) && Keyed(t) && Shrunk(t0, t) && Strict(t0)
    ensures Strict(t)
  {
    hide Whole, Shrunk, LeafLinks, Ranked;
    WholeBasics(t0, rk);
    WholeBasics(t, rk);
    forall a | a in t.parent && t.parent[a].Some? && t.parent[a].value in t.parent
      ensures t.hops[t.parent[a].value] < t.hops[a]
    {
      var p := t.parent[a].value;
      AncSelf(t, p);
      assert Anc(t.parent, p, a);
      ShrunkAnc(t0, t, p, a);
      ShrunkAnc(t0, t, p, p);
      AncHops(t0, rk, p, a);
      RankBelow(t, rk, a);
    }
  }

  lemma RankBelow(t: Tree, rk: map<Addr, nat>, a: Addr)
    requires Ranked(t.parent, rk) && a in t.parent && t.parent[a].Some? && t.parent[a].value in t.parent
    ensures t.parent[a].value != a
  {
  }
}
