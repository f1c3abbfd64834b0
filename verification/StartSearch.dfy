// The search for the next start router ends on trees without bare routers. This module says exactly
// when it ends on any tree, and gives one on which it does not.
module StartSearch {
  import opened Base
  import opened Forest
  import opened Consumption
  import opened Grouping

  ghost predicate Searchable(t: Tree, rk: map<Addr, nat>, r: Addr) {
    Linked(t) && Ranked(t.parent, rk) && Bounded(t) && r in t.parent && r in rk
  }

  // The search from `r` ends after at most `n` restarts.
  ghost predicate Ends(t: Tree, rk: map<Addr, nat>, r: Addr, n: nat)
    requires Searchable(t, rk, r)
    decreases n
  {
    FreeEndFound(t, rk, r, OwnStart(t, r));
    var (q, s) := FreeEnd(t, rk, r, OwnStart(t, r));
    s.Some? || t.parent[q].None? || (n > 0 && Ends(t, rk, t.parent[q].value, n - 1))
  }

  // At the nearest router from `r` upwards that has a free child, or free leaves to start with, the
  // descent meets free leaves; or there is no such router.
  ghost predicate Meets(t: Tree, rk: map<Addr, nat>, r: Addr)
    requires Searchable(t, rk, r)
    decreases rk[r]
  {
    if t.fchild[r] > 0 || OwnStart(t, r).Some? then FreeEnd(t, rk, r, OwnStart(t, r)).1.Some?
    else t.parent[r].None? || (ParentSearchable(t, rk, r); Meets(t, rk, t.parent[r].value))
  }

  lemma ParentSearchable(t: Tree, rk: map<Addr, nat>, r: Addr)
    requires Searchable(t, rk, r) && t.parent[r].Some?
    ensures Searchable(t, rk, t.parent[r].value) && rk[t.parent[r].value] < rk[r]
  {
  }

  lemma {:induction false} FreeEndFound(t: Tree, rk: map<Addr, nat>, q: Addr, s: Option<Addr>)
    requires Searchable(t, rk, q)
    ensures var e := FreeEnd(t, rk, q, s).0;
            Searchable(t, rk, e) && (t.parent[e].Some? ==> Searchable(t, rk, t.parent[e].value))
    decreases Higher(rk, q)
  {
    hide LeafLinks, ChildLinks, Higher, Ranked;
    if t.fchild[q] > 0 {
      FirstFree(t, rk, q);
      var c := t.child[q][|t.child[q]| - t.fchild[q]];
      FreeEndFound(t, rk, c, if t.fleaf[c] > 0 then Some(c) else s);
    } else if t.parent[q].Some? {
      ParentSearchable(t, rk, q);
    }
  }

  // When a descent meets no free leaves, the search goes on at the parent of the last router, where
  // the descent ends in the same way.
  lemma {:induction false} StartStuck(t: Tree, rk: map<Addr, nat>, r: Addr)
    requires Linked(t) && Ranked(t.parent, rk) && Bounded(t) && r in t.parent && r in rk && t.fchild[r] > 0
    requires FreeEnd(t, rk, r, OwnStart(t, r)).1 == None
    ensures var b := FreeEnd(t, rk, r, OwnStart(t, r)).0;
            && b in t.parent && t.parent[b].Some?
            && var p := t.parent[b].value;
               p in t.parent && p in rk && FreeEnd(t, rk, p, OwnStart(t, p)) == (b, None)
    decreases Higher(rk, r)
  {
    hide LeafLinks, ChildLinks, Higher, Ranked;
    FirstFree(t, rk, r);
    var c := t.child[r][|t.child[r]| - t.fchild[r]];
    assert OwnStart(t, r) == None by { FreeEndSome(t, rk, r, OwnStart(t, r)); }
    assert t.fleaf[c] == 0 by { FreeEndSome(t, rk, c, if t.fleaf[c] > 0 then Some(c) else None); }
    if t.fchild[c] > 0 {
      StartStuck(t, rk, c);
    }
  }

  lemma {:induction false} FreeEndSome(t: Tree, rk: map<Addr, nat>, q: Addr, s: Option<Addr>)
    requires Linked(t) && Ranked(t.parent, rk) && Bounded(t) && q in t.parent && q in rk
    ensures s.Some? ==> FreeEnd(t, rk, q, s).1.Some?
    decreases Higher(rk, q)
  {
    hide LeafLinks, ChildLinks, Higher, Ranked;
    if t.fchild[q] > 0 {
      FirstFree(t, rk, q);
      var c := t.child[q][|t.child[q]| - t.fchild[q]];
      FreeEndSome(t, rk, c, if t.fleaf[c] > 0 then Some(c) else s);
    }
  }

  // From then on it never ends.
  lemma {:induction false} NeverEnds(t: Tree, rk: map<Addr, nat>, r: Addr, b: Addr, n: nat)
    requires Searchable(t, rk, r) && FreeEnd(t, rk, r, OwnStart(t, r)) == (b, None)
    requires b in t.parent && t.parent[b].Some? && Searchable(t, rk, t.parent[b].value)
    requires var p := t.parent[b].value; FreeEnd(t, rk, p, OwnStart(t, p)) == (b, None)
    ensures !Ends(t, rk, r, n)
    decreases n
  {
    hide Searchable, FreeEnd, OwnStart;
    if n > 0 {
      NeverEnds(t, rk, t.parent[b].value, b, n - 1);
    }
  }

  lemma {:induction false} EndsMeets(t: Tree, rk: map<Addr, nat>, r: Addr, n: nat)
    requires Searchable(t, rk, r) && Ends(t, rk, r, n)
    ensures Meets(t, rk, r)
    decreases n
  {
    if t.fchild[r] > 0 {
      var (b, s) := FreeEnd(t, rk, r, OwnStart(t, r));
      if s.None? {
        FreeEndFound(t, rk, r, OwnStart(t, r));
        StartStuck(t, rk, r);
        NeverEnds(t, rk, r, b, n);
      }
    } else if OwnStart(t, r).None? && t.parent[r].Some? {
      ParentSearchable(t, rk, r);
      EndsMeets(t, rk, t.parent[r].value, n - 1);
    }
  }

  lemma {:induction false} MeetsEnds(t: Tree, rk: map<Addr, nat>, r: Addr) returns (n: nat)
    requires Searchable(t, rk, r) && Meets(t, rk, r)
    ensures Ends(t, rk, r, n)
    decreases rk[r]
  {
    n := 0;
    if t.fchild[r] == 0 && OwnStart(t, r).None? && t.parent[r].Some? {
      ParentSearchable(t, rk, r);
      var k := MeetsEnds(t, rk, t.parent[r].value);
      n := k + 1;
    }
  }

  // The search ends if and only if it meets free leaves where it first descends.
  lemma SearchEnds(t: Tree, rk: map<Addr, nat>, r: Addr)
    requires Searchable(t, rk, r)
    ensures (exists n: nat :: Ends(t, rk, r, n)) <==> Meets(t, rk, r)
  {
    hide Searchable, Meets;
    if Meets(t, rk, r) {
      var k := MeetsEnds(t, rk, r);
      assert exists n: nat :: Ends(t, rk, r, n);
    } else {
      forall n: nat ensures !Ends(t, rk, r, n) {
        if Ends(t, rk, r, n) { EndsMeets(t, rk, r, n); }
      }
    }
  }

  // While grouping runs, it always does.
  lemma {:induction false} GroupingMeets(t: Tree, rk: map<Addr, nat>, path: seq<Addr>, tail: seq<Addr>)
    requires Linked(t) && Ranked(t.parent, rk) && Consumed(t, t.root) && Chain(t, path) && Tail(t, path, tail)
    ensures |path| > 0 && Searchable(t, rk, Last(path + tail)) && Meets(t, rk, Last(path + tail))
    decreases |tail|
  {
    hide Chain, Consumed, Tail, Exhausted, ChildLinks, LeafLinks, Ranked, Higher, FreeEnd, Bounded, Down;
    StartBounds(t, path, tail);
    var r := Last(path + tail);
    BoundedNow(t, rk, r);
    if tail != [] {
      TailPop(t, path, tail);
      GroupingMeets(t, rk, path, tail[..|tail| - 1]);
    } else {
      DownStart(t, path);
      var path' := FreeEndDown(t, rk, path, r, OwnStart(t, r));
      var (q, s) := FreeEnd(t, rk, r, OwnStart(t, r));
      DownEnd(t, path', q, s);
      if t.fchild[r] == 0 && OwnStart(t, r).None? {
        EndHere(t, rk, r);
      }
      if s.None? {
        NothingFree(t, path);
      }
    }
  }

  lemma NothingFree(t: Tree, path: seq<Addr>)
    requires Linked(t) && Chain(t, path) && t.fchild[t.root] == 0
    ensures Last(path) == t.root
  {
    assert |path| > 1 ==> Step(t, path[0], path[1]);
  }

  // Router 1 is bare, as a router can be before reduction.
  ghost function Bare(): Tree {
    Tree(0, map[0 := None, 1 := Some(0)], map[0 := 0, 1 := 1], map[0 := [1], 1 := []], map[0 := 1, 1 := 0],
         map[0 := [10], 1 := []], map[0 := 1, 1 := 0], map[10 := Some(0)])
  }

  lemma BareTree()
    ensures Steady(Bare(), map[0 := 0, 1 := 1]) && Keyed(Bare()) && Fresh(Bare())
    ensures Searchable(Bare(), map[0 := 0, 1 := 1], 0)
  {
    var t := Bare();
    hide Bare, ChildLinks, LeafLinks;
    BareFields(t);
    BareLinks(t);
  }

  lemma BareFields(t: Tree)
    requires t == Bare()
    ensures t.root == 0 && t.parent.Keys == {0, 1} == t.hops.Keys && t.home.Keys == {10}
    ensures t.child.Keys == {0, 1} == t.fchild.Keys && t.leaf.Keys == {0, 1} == t.fleaf.Keys
    ensures t.parent[0] == None && t.parent[1] == Some(0) && t.home[10] == Some(0)
    ensures t.child[0] == [1] && t.child[1] == [] && t.fchild[0] == 1 && t.fchild[1] == 0
    ensures t.leaf[0] == [10] && t.leaf[1] == [] && t.fleaf[0] == 1 && t.fleaf[1] == 0
  {
  }

  lemma BareLinks(t: Tree)
    requires t == Bare()
    ensures t.child.Keys == t.parent.Keys && ChildLinks(t.parent, t.child)
    ensures t.leaf.Keys == t.parent.Keys && LeafLinks(t.parent.Keys, t.leaf, t.home)
  {
    hide Bare;
    BareFields(t);
    assert t.child[0][0] in t.child[0] && t.leaf[0][0] in t.leaf[0];
  }

  lemma StuckExample(n: nat)
    ensures Steady(Bare(), map[0 := 0, 1 := 1]) && Keyed(Bare()) && Fresh(Bare())
    ensures Searchable(Bare(), map[0 := 0, 1 := 1], 0) && !Ends(Bare(), map[0 := 0, 1 := 1], 0, n)
  {
    var t, rk := Bare(), map[0 := 0, 1 := 1];
    BareTree();
    assert OwnStart(t, 0) == None;
    assert FreeEnd(t, rk, 1, None) == (1, None);
    if Ends(t, rk, 0, n) {
      EndsMeets(t, rk, 0, n);
    }
  }
}
