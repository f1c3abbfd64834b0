// The sender's topology tree as a value: the state of every router and receiver that the sender
// knows, keyed by address. Class Store keeps one of these as the abstraction of its heap.
module Forest {
  import opened Base

  datatype Tree = Tree(
    root: Addr,
    parent: map<Addr, Option<Addr>>,
    hops: map<Addr, nat>,
    child: map<Addr, seq<Addr>>,
    fchild: map<Addr, nat>,
    leaf: map<Addr, seq<Addr>>,
    fleaf: map<Addr, nat>,
    home: map<Addr, Option<Addr>>)  // the parent of each receiver

  // All router fields are defined for the same routers, and no receiver is a router.
  ghost predicate Keyed(t: Tree) {
    && t.root in t.parent
    && t.hops.Keys == t.parent.Keys
    && t.child.Keys == t.parent.Keys
    && t.fchild.Keys == t.parent.Keys
    && t.leaf.Keys == t.parent.Keys
    && t.fleaf.Keys == t.parent.Keys
    && t.home.Keys !! t.parent.Keys
  }

  // Parent pointers and lists agree, and no list repeats an element.
  ghost predicate Linked(t: Tree) {
    && Keyed(t)
    && t.parent[t.root] == None
    && ChildLinks(t.parent, t.child)
    && LeafLinks(t.parent.Keys, t.leaf, t.home)
  }

  ghost predicate ChildLinks(parent: map<Addr, Option<Addr>>, child: map<Addr, seq<Addr>>)
    requires child.Keys == parent.Keys
  {
    && (forall a {:trigger child[a]} | a in parent :: Distinct(child[a]))
    && (forall a, c {:trigger c in child[a]} | a in parent && c in child[a] ::
          c in parent && parent[c] == Some(a))
    && (forall c {:trigger parent[c]} | c in parent && parent[c].Some? ::
          parent[c].value in parent && c in child[parent[c].value])
  }

  ghost predicate LeafLinks(routers: set<Addr>, leaf: map<Addr, seq<Addr>>, home: map<Addr, Option<Addr>>)
    requires leaf.Keys == routers
  {
    && (forall a {:trigger leaf[a]} | a in routers :: Distinct(leaf[a]))
    && (forall a, l {:trigger l in leaf[a]} | a in routers && l in leaf[a] ::
          l in home && home[l] == Some(a))
    && (forall l {:trigger home[l]} | l in home && home[l].Some? ::
          home[l].value in routers && l in leaf[home[l].value])
  }

  // `rk` certifies that parent pointers form no cycle: it grows away from the root.
  ghost predicate Ranked(parent: map<Addr, Option<Addr>>, rk: map<Addr, nat>) {
    && parent.Keys <= rk.Keys
    && forall a | a in parent && parent[a].Some? && parent[a].value in parent :: rk[parent[a].value] < rk[a]
  }

  ghost predicate Acyclic(parent: map<Addr, Option<Addr>>) {
    exists rk: map<Addr, nat> :: Ranked(parent, rk)
  }

  // The routers that come after `r` in rank: a measure for recursion down the tree.
  ghost function Higher(rk: map<Addr, nat>, r: Addr): set<Addr>
    requires r in rk
  {
    set a | a in rk && rk[a] > rk[r]
  }

  lemma Deeper(rk: map<Addr, nat>, r: Addr, c: Addr)
    requires r in rk && c in rk && rk[r] < rk[c]
    ensures Higher(rk, c) < Higher(rk, r)
  {
    assert c in Higher(rk, r) && c !in Higher(rk, c);
  }

  // A router is part of the tree when it is the root or has a parent.
  predicate Attached(t: Tree, a: Addr) {
    a in t.parent && (a == t.root || t.parent[a].Some?)
  }

  // `a` is `b` or one of its ancestors.
  least predicate Anc[nat](parent: map<Addr, Option<Addr>>, a: Addr, b: Addr) {
    a == b || (b in parent && parent[b].Some? && Anc(parent, a, parent[b].value))
  }

  lemma {:induction false} AncRank(t: Tree, rk: map<Addr, nat>, a: Addr, b: Addr)
    requires Linked(t) && Ranked(t.parent, rk) && b in t.parent && Anc(t.parent, a, b)
    ensures a in t.parent && (a == b || rk[a] < rk[b])
    decreases rk[b]
  {
    if a != b {
      AncRank(t, rk, a, t.parent[b].value);
    }
  }

  lemma {:induction false} AncTrans(t: Tree, rk: map<Addr, nat>, a: Addr, b: Addr, c: Addr)
    requires Linked(t) && Ranked(t.parent, rk) && c in t.parent
    requires Anc(t.parent, a, b) && Anc(t.parent, b, c)
    ensures Anc(t.parent, a, c)
    decreases rk[c]
  {
    if b != c {
      AncTrans(t, rk, a, b, t.parent[c].value);
    }
  }

  // Two ancestors of the same router lie on one path.
  lemma {:induction false} AncCompare(t: Tree, rk: map<Addr, nat>, a: Addr, b: Addr, c: Addr)
    requires Linked(t) && Ranked(t.parent, rk) && c in t.parent
    requires Anc(t.parent, a, c) && Anc(t.parent, b, c)
    ensures Anc(t.parent, a, b) || Anc(t.parent, b, a)
    decreases rk[c]
  {
    if a != c && b != c {
      AncCompare(t, rk, a, b, t.parent[c].value);
    }
  }

  // Every attached router is below the root.
  lemma {:induction false} RootAbove(t: Tree, rk: map<Addr, nat>, a: Addr)
    requires Linked(t) && Ranked(t.parent, rk) && Attached(t, a)
    requires forall d | d in t.parent && !Attached(t, d) :: t.child[d] == []
    ensures Anc(t.parent, t.root, a)
    decreases rk[a]
  {
    if a != t.root {
      var p := t.parent[a].value;
      assert a in t.child[p];
      RootAbove(t, rk, p);
    }
  }

  // Hop counts rise strictly from parent to child.
  ghost predicate Strict(t: Tree) {
    && t.parent.Keys <= t.hops.Keys
    && forall a | a in t.parent && t.parent[a].Some? && t.parent[a].value in t.parent ::
         t.hops[t.parent[a].value] < t.hops[a]
  }

  lemma {:induction false} AncHops(t: Tree, rk: map<Addr, nat>, a: Addr, b: Addr)
    requires Linked(t) && Ranked(t.parent, rk) && Strict(t) && b in t.parent && Anc(t.parent, a, b)
    ensures a in t.parent && (a == b || t.hops[a] < t.hops[b])
    decreases rk[b]
  {
    if a != b {
      AncHops(t, rk, a, t.parent[b].value);
    }
  }

  // Routers outside the tree hold nothing.
  ghost predicate DetachedEmpty(t: Tree)
    requires Keyed(t)
  {
    forall d | d in t.parent && !Attached(t, d) :: t.child[d] == [] && t.leaf[d] == []
  }

  ghost predicate Steady(t: Tree, rk: map<Addr, nat>) {
    Linked(t) && Ranked(t.parent, rk) && DetachedEmpty(t)
  }

  // All children and leaves are free.
  ghost predicate Fresh(t: Tree)
    requires Keyed(t)
  {
    forall a | a in t.parent :: t.fchild[a] == |t.child[a]| && t.fleaf[a] == |t.leaf[a]|
  }

  // No router of the tree is bare, as after reduction.
  ghost predicate NoneBare(t: Tree)
    requires Keyed(t)
  {
    forall a | a in t.parent && a != t.root && t.parent[a].Some? :: t.child[a] != [] || t.leaf[a] != []
  }

  // Every receiver has a parent.
  ghost predicate AllHomed(t: Tree) {
    forall l | l in t.home :: t.home[l].Some?
  }
}
