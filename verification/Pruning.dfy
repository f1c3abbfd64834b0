// Which routers reduction keeps, and with which lists, as a function of the tree before it. Module Reduction
// proves that changing the tree in place comes to the same.
module Pruning {
  import opened Base
  import opened Forest
  import opened Packing

  // The children and the leaves of a router.
  datatype Lot = Lot(kids: seq<Addr>, leaves: seq<Addr>)

  predicate Enough(cfg: Config, lot: Lot) {
    |lot.kids| >= cfg.minRouters || |lot.leaves| >= cfg.minLeafs
  }

  lemma ChildHigher(t: Tree, rk: map<Addr, nat>, r: Addr, k: nat)
    requires Linked(t) && Ranked(t.parent, rk) && r in t.parent && k < |t.child[r]|
    ensures var c := t.child[r][k];
            c in t.parent && t.parent[c] == Some(r) && r in rk && c in rk && Higher(rk, c) < Higher(rk, r)
  {
    var c := t.child[r][k];
    assert c in t.child[r];
    Deeper(rk, r, c);
  }

  // What `r` has after its first `k` children have been reduced: a child that ends up with too little is
  // replaced by what it has itself.
  ghost function After(cfg: Config, t: Tree, rk: map<Addr, nat>, r: Addr, k: nat): Lot
    requires Linked(t) && Ranked(t.parent, rk) && r in t.parent && r in rk && k <= |t.child[r]|
    decreases Higher(rk, r), k
  {
    if k == 0 then Lot(t.child[r], t.leaf[r])
    else
      ChildHigher(t, rk, r, k - 1);
      var c := t.child[r][k - 1];
      var own := After(cfg, t, rk, c, |t.child[c]|);
      var before := After(cfg, t, rk, r, k - 1);
      if Enough(cfg, own) then before
      else Lot(own.kids + Remove(before.kids, c), own.leaves + before.leaves)
  }

  // What `r` has when all of its children have been reduced.
  ghost function Final(cfg: Config, t: Tree, rk: map<Addr, nat>, r: Addr): Lot
    requires Linked(t) && Ranked(t.parent, rk) && r in t.parent && r in rk
  {
    After(cfg, t, rk, r, |t.child[r]|)
  }

  // A router without a parent is never removed, and any other one stays if it has enough then.
  ghost predicate Survives(cfg: Config, t: Tree, rk: map<Addr, nat>, r: Addr)
    requires Linked(t) && Ranked(t.parent, rk) && r in t.parent && r in rk
  {
    t.parent[r].None? || Enough(cfg, Final(cfg, t, rk, r))
  }

  ghost predicate SameBelow(t: Tree, t': Tree, i: Addr) {
    && Keyed(t) && Keyed(t')
    && forall x | x in t.parent && Anc(t.parent, i, x) ::
         x in t'.parent && t'.child[x] == t.child[x] && t'.leaf[x] == t.leaf[x]
  }

  // That depends only on the lists of the router and of those below it.
  lemma {:induction false} AfterSame(cfg: Config, t: Tree, t': Tree, rk: map<Addr, nat>, i: Addr, a: Addr, k: nat)
    requires Linked(t) && Ranked(t.parent, rk) && Linked(t') && Ranked(t'.parent, rk) && SameBelow(t, t', i)
    requires a in t.parent && a in rk && Anc(t.parent, i, a) && k <= |t.child[a]|
    ensures a in t'.parent && t'.child[a] == t.child[a]
    ensures After(cfg, t', rk, a, k) == After(cfg, t, rk, a, k)
    decreases Higher(rk, a), k
  {
    hide ChildLinks, LeafLinks, Ranked, Higher, Remove;
    if k > 0 {
      ChildHigher(t, rk, a, k - 1);
      ChildHigher(t', rk, a, k - 1);
      var c := t.child[a][k - 1];
      assert Anc(t.parent, i, c);
      AfterSame(cfg, t, t', rk, i, a, k - 1);
      AfterSame(cfg, t, t', rk, i, c, |t.child[c]|);
    }
  }
}
