// How greedy grouping consumes the tree. A visited leaf or child is never marked: it is the part
// of its list in front of the free ones. This module states what every step of the traversal keeps.
module Consumption {
  import opened Base
  import opened Forest

  ghost predicate Exhausted(t: Tree, a: Addr) {
    a in t.fleaf && a in t.fchild && t.fleaf[a] == 0 && t.fchild[a] == 0
  }

  // The children in front of the free ones are exhausted subtrees, and no free child is one,
  // with the exception of `ex`, which is the router being served.
  ghost predicate Consumed(t: Tree, ex: Addr)
    requires Keyed(t)
  {
    && (forall a | a in t.parent :: t.fchild[a] <= |t.child[a]| && t.fleaf[a] <= |t.leaf[a]|)
    && (forall a, i | a in t.parent && 0 <= i < |t.child[a]| - t.fchild[a] :: Exhausted(t, t.child[a][i]))
    && (forall a, i | a in t.parent && |t.child[a]| - t.fchild[a] <= i < |t.child[a]| && t.child[a][i] != ex ::
          !Exhausted(t, t.child[a][i]))
  }

  // `path` leads from the root to a router, always by the first free child.
  ghost predicate Chain(t: Tree, path: seq<Addr>)
    requires Keyed(t)
  {
    && |path| > 0 && path[0] == t.root
    && (forall i | 0 <= i < |path| :: path[i] in t.parent)
    && (forall i | 0 <= i < |path| - 1 :: Step(t, path[i], path[i + 1]))
  }

  // `c` is the first free child of `a`.
  ghost predicate Step(t: Tree, a: Addr, c: Addr)
    requires Keyed(t)
  {
    && a in t.parent && 0 < t.fchild[a] <= |t.child[a]|
    && c == t.child[a][|t.child[a]| - t.fchild[a]]
  }

  function Last(path: seq<Addr>): Addr
    requires |path| > 0
  {
    path[|path| - 1]
  }

  // `m` leaves of `r` are handed out.
  function Take(t: Tree, r: Addr, m: nat): Tree
    requires r in t.fleaf && m <= t.fleaf[r]
  {
    t.(fleaf := t.fleaf[r := t.fleaf[r] - m])
  }

  // One more child of `p` is counted as exhausted.
  function Count(t: Tree, p: Addr): Tree
    requires p in t.fchild && t.fchild[p] > 0
  {
    t.(fchild := t.fchild[p := t.fchild[p] - 1])
  }

  lemma ChainParent(t: Tree, path: seq<Addr>, i: nat)
    requires Linked(t) && Chain(t, path) && i + 1 < |path|
    ensures t.parent[path[i + 1]] == Some(path[i])
    ensures path[i + 1] in t.child[path[i]]
  {
    assert path[i + 1] in t.child[path[i]];
  }

  // Rank grows along a chain, so a chain repeats no router, and each router is above the later ones.
  lemma {:induction false} ChainAbove(t: Tree, rk: map<Addr, nat>, path: seq<Addr>, i: nat, j: nat)
    requires Linked(t) && Ranked(t.parent, rk) && Chain(t, path) && i <= j < |path|
    ensures Anc(t.parent, path[i], path[j])
    ensures i < j ==> rk[path[i]] < rk[path[j]]
    decreases j
  {
    hide LeafLinks, ChildLinks;
    if i < j {
      ChainParent(t, path, j - 1);
      ChainAbove(t, rk, path, i, j - 1);
    }
  }

  lemma ChainDistinct(t: Tree, rk: map<Addr, nat>, path: seq<Addr>)
    requires Linked(t) && Ranked(t.parent, rk) && Chain(t, path)
    ensures Distinct(path)
  {
    forall i, j | 0 <= i < j < |path| ensures path[i] != path[j] {
      ChainAbove(t, rk, path, i, j);
    }
  }

  // Handing out leaves of the router being served.
  lemma TakeKeeps(t: Tree, path: seq<Addr>, m: nat)
    requires Linked(t) && Chain(t, path) && Consumed(t, Last(path))
    requires 0 < m <= t.fleaf[Last(path)]
    ensures var t' := Take(t, Last(path), m);
            Linked(t') && Chain(t', path) && Consumed(t', Last(path))
  {
    hide ChildLinks, LeafLinks, Consumed;
    assert Last(path) in t.parent;
    TakeConsumed(t, Last(path), m);
  }

  lemma TakeConsumed(t: Tree, r: Addr, m: nat)
    requires Keyed(t) && r in t.parent && Consumed(t, r) && 0 < m <= t.fleaf[r]
    ensures Keyed(Take(t, r, m)) && Consumed(Take(t, r, m), r)
  {
    hide Exhausted;
    forall a | a != r ensures Exhausted(Take(t, r, m), a) <==> Exhausted(t, a) {
      TakeExhausted(t, r, m, a);
    }
    assert !Exhausted(t, r) by { NotEmpty(t, r); }
  }

  lemma TakeExhausted(t: Tree, r: Addr, m: nat, a: Addr)
    requires r in t.fleaf && m <= t.fleaf[r] && a != r
    ensures Exhausted(Take(t, r, m), a) <==> Exhausted(t, a)
  {
  }

  lemma NotEmpty(t: Tree, a: Addr)
    requires a in t.fleaf && t.fleaf[a] > 0
    ensures !Exhausted(t, a)
  {
  }

  // A router that is not exhausted needs no exception.
  lemma NoException(t: Tree, ex: Addr)
    requires Linked(t) && Consumed(t, ex) && (ex in t.parent ==> !Exhausted(t, ex) || ex == t.root)
    ensures Consumed(t, t.root)
  {
    forall a, i | a in t.parent && |t.child[a]| - t.fchild[a] <= i < |t.child[a]| && t.child[a][i] != t.root
      ensures !Exhausted(t, t.child[a][i])
    {
      assert t.child[a][i] in t.child[a];
    }
  }

  // The root is no one's child, so exempting it exempts nothing.
  lemma AnyException(t: Tree, ex: Addr)
    requires Linked(t) && Consumed(t, t.root)
    ensures Consumed(t, ex)
  {
    forall a, i | a in t.parent && |t.child[a]| - t.fchild[a] <= i < |t.child[a]| && t.child[a][i] != ex
      ensures !Exhausted(t, t.child[a][i])
    {
      assert t.child[a][i] in t.child[a];
    }
  }

  // Counting the first free child `r` of `p` once it is exhausted; `p` may now be exhausted itself.
  lemma CountConsumed(t: Tree, p: Addr, r: Addr)
    requires Linked(t) && p != r && Step(t, p, r) && Consumed(t, r) && Exhausted(t, r)
    ensures var t' := Count(t, p);
            Linked(t') && Consumed(t', p)
  {
    var t' := Count(t, p);
    var u := |t.child[p]| - t.fchild[p];
    assert r in t.child[p];
    forall a, i | a in t.parent && 0 <= i < |t.child[a]| - t'.fchild[a]
      ensures Exhausted(t', t.child[a][i])
    {
      if a != p || i != u {
        assert Exhausted(t, t.child[a][i]);
      }
    }
    forall a, i | a in t.parent && |t.child[a]| - t'.fchild[a] <= i < |t.child[a]| && t.child[a][i] != p
      ensures !Exhausted(t', t.child[a][i])
    {
      assert t.child[a][i] in t.child[a];
      assert t.child[a][i] != r;
    }
  }

  // Counting the exhausted end of a chain moves on to its parent.
  lemma CountKeeps(t: Tree, rk: map<Addr, nat>, path: seq<Addr>)
    requires Linked(t) && Ranked(t.parent, rk) && Chain(t, path) && |path| > 1
    requires Consumed(t, Last(path)) && Exhausted(t, Last(path))
    ensures t.fchild[path[|path| - 2]] > 0
    ensures var p := path[|path| - 2];
            var t' := Count(t, p);
            Linked(t') && Chain(t', path[..|path| - 1]) && Consumed(t', p)
  {
    hide ChildLinks, LeafLinks, Ranked, Exhausted, Consumed;
    var r, p, q := Last(path), path[|path| - 2], path[..|path| - 1];
    assert Step(t, p, r) by { assert path[|path| - 2 + 1] == r; }
    ChainDistinct(t, rk, path);
    CountConsumed(t, p, r);
    forall i | 0 <= i < |q| - 1 ensures Step(Count(t, p), q[i], q[i + 1]) {
      assert Step(t, path[i], path[i + 1]) && path[i] != p;
    }
  }

  lemma ChainDescend(t: Tree, path: seq<Addr>)
    requires Linked(t) && Chain(t, path) && Consumed(t, t.root) && t.fchild[Last(path)] > 0
    ensures var a := Last(path);
            var c := t.child[a][|t.child[a]| - t.fchild[a]];
            c in t.parent && Chain(t, path + [c]) && !Exhausted(t, c) && t.parent[c] == Some(a)
  {
    var a := Last(path);
    assert t.child[a][|t.child[a]| - t.fchild[a]] in t.child[a];
  }

  // Once no child of the root is free, nothing below the root is.
  lemma {:induction false} NothingLeft(t: Tree, rk: map<Addr, nat>, a: Addr)
    requires Linked(t) && Ranked(t.parent, rk) && Consumed(t, t.root) && t.fchild[t.root] == 0
    requires a in t.parent && a != t.root && t.parent[a].Some?
    requires forall d | d in t.parent && !Attached(t, d) :: t.child[d] == []
    ensures Exhausted(t, a)
    decreases rk[a]
  {
    var p := t.parent[a].value;
    assert a in t.child[p];
    if p != t.root {
      NothingLeft(t, rk, p);
    }
    var i :| 0 <= i < |t.child[p]| && t.child[p][i] == a;
    assert Exhausted(t, t.child[p][i]);
  }

  // The termination measure: what is still free, as sets of (router, position) pairs.
  ghost function Slots(free: map<Addr, nat>): set<(Addr, nat)> {
    set a, i: nat | a in free.Keys && i < free[a] :: (a, i)
  }

  lemma SlotsShrink(free: map<Addr, nat>, a: Addr, k: nat)
    requires a in free && k < free[a]
    ensures Slots(free[a := k]) < Slots(free)
  {
    assert (a, k) in Slots(free) && (a, k) !in Slots(free[a := k]);
  }
}
