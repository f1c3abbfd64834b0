// The sender's records and lists. A pointer to a router or receiver is its address, and a record
// is live exactly while its address is indexed, so every access below is proved to hit a live record.
module Nodes {
  import opened Base
  import opened Forest
  import Ops = TreeOps
  import Lists

  class Store {
    const root: Addr
    // The fields of the router records.
    var parent: map<Addr, Option<Addr>>
    var hops: map<Addr, nat>
    var child: map<Addr, seq<Addr>>
    var fchild: map<Addr, nat>
    var leaf: map<Addr, seq<Addr>>
    var fleaf: map<Addr, nat>
    // The parent field of the receiver records.
    var home: map<Addr, Option<Addr>>

    // The tree these records describe.
    ghost function T(): Tree
      reads this
    {
      Tree(root, parent, hops, child, fchild, leaf, fleaf, home)
    }

    // A new group: the root is the sender, and there is no receiver yet.
    constructor (sa: Addr)
      ensures root == sa
      ensures T() == Tree(sa, map[sa := None], map[sa := 0], map[sa := []], map[sa := 0], map[sa := []], map[sa := 0],
                          map[])
    {
      root := sa;
      parent, hops := map[sa := None], map[sa := 0];
      child, fchild := map[sa := []], map[sa := 0];
      leaf, fleaf := map[sa := []], map[sa := 0];
      home := map[];
    }

    // A record for router `sa`, without parent, children and leaves.
    method CreateRouter(sa: Addr)
      modifies this
      ensures T() == Ops.NewRouter(old(T()), sa)
      ensures parent == old(parent)[sa := None] && hops == old(hops)[sa := 0] && home == old(home)
      ensures child == old(child)[sa := []] && fchild == old(fchild)[sa := 0]
          && leaf == old(leaf)[sa := []] && fleaf == old(fleaf)[sa := 0]
    {
      parent, hops := parent[sa := None], hops[sa := 0];
      child, fchild := child[sa := []], fchild[sa := 0];
      leaf, fleaf := leaf[sa := []], fleaf[sa := 0];
    }

    // Prepends `c` to the child routers of `p`.
    method AddRouter(p: Addr, c: Addr)
      requires Keyed(T()) && p in parent && c in parent
      modifies this
      ensures T() == Ops.AddRouter(old(T()), p, c)
      ensures parent == old(parent)[c := Some(p)] && child == old(child)[p := [c] + old(child)[p]]
          && fchild == old(fchild)[p := old(fchild)[p] + 1]
      ensures hops == old(hops) && leaf == old(leaf) && fleaf == old(fleaf) && home == old(home)
    {
      parent := parent[c := Some(p)];
      child := child[p := [c] + child[p]];
      fchild := fchild[p := fchild[p] + 1];
    }

    // Prepends `l` to the leaves of `p`.
    method AddLeaf(p: Addr, l: Addr)
      requires Keyed(T()) && p in parent && l in home
      modifies this
      ensures T() == Ops.AddLeaf(old(T()), p, l)
      ensures home == old(home)[l := Some(p)] && leaf == old(leaf)[p := [l] + old(leaf)[p]]
          && fleaf == old(fleaf)[p := old(fleaf)[p] + 1]
      ensures parent == old(parent) && hops == old(hops) && child == old(child) && fchild == old(fchild)
    {
      home := home[l := Some(p)];
      leaf := leaf[p := [l] + leaf[p]];
      fleaf := fleaf[p := fleaf[p] + 1];
    }

    // Takes `c` out of the child routers of `p`, if it is one. It has no parent afterwards in any case.
    method RmRouter(p: Addr, c: Addr)
      requires Keyed(T()) && p in parent && c in parent && Distinct(child[p])
      modifies this
      ensures T() == Ops.RmRouter(old(T()), p, c)
      ensures parent == old(parent)[c := None] && child == old(child)[p := Remove(old(child)[p], c)]
      ensures c in old(child)[p] && old(fchild)[p] > 0 ==> fchild == old(fchild)[p := old(fchild)[p] - 1]
      ensures c !in old(child)[p] ==> fchild == old(fchild) && child == old(child)
      ensures hops == old(hops) && leaf == old(leaf) && fleaf == old(fleaf) && home == old(home)
    {
      parent := parent[c := None];
      var l, n, f := Lists.RmChild(c, child[p], |child[p]|, fchild[p]);
      child := child[p := l];
      fchild := fchild[p := f];
    }

    // Takes `l` out of the leaves of `p`, if it is one. It has no parent afterwards in any case.
    method RmLeaf(p: Addr, l: Addr)
      requires Keyed(T()) && p in parent && l in home && Distinct(leaf[p])
      modifies this
      ensures T() == Ops.RmLeaf(old(T()), p, l)
      ensures home == old(home)[l := None] && leaf == old(leaf)[p := Remove(old(leaf)[p], l)]
      ensures l in old(leaf)[p] && old(fleaf)[p] > 0 ==> fleaf == old(fleaf)[p := old(fleaf)[p] - 1]
      ensures l !in old(leaf)[p] ==> fleaf == old(fleaf) && leaf == old(leaf)
      ensures parent == old(parent) && hops == old(hops) && child == old(child) && fchild == old(fchild)
    {
      home := home[l := None];
      var s, n, f := Lists.RmChild(l, leaf[p], |leaf[p]|, fleaf[p]);
      leaf := leaf[p := s];
      fleaf := fleaf[p := f];
    }

    // The first free child routers of `r`.
    method GetFreeRouter(r: Addr) returns (c: seq<Addr>)
      requires Keyed(T()) && r in parent
      ensures c == if fchild[r] <= |child[r]| then child[r][|child[r]| - fchild[r]..] else []
    {
      c := Lists.GetFree(child[r], |child[r]|, fchild[r]);
    }

    // The free leaves of `r`.
    method GetFreeLeaf(r: Addr) returns (c: seq<Addr>)
      requires Keyed(T()) && r in parent
      ensures c == if fleaf[r] <= |leaf[r]| then leaf[r][|leaf[r]| - fleaf[r]..] else []
    {
      c := Lists.GetFree(leaf[r], |leaf[r]|, fleaf[r]);
    }

    // Forgets router `r`.
    method DropRouter(r: Addr)
      modifies this
      ensures T() == Ops.DropRouter(old(T()), r)
      ensures parent == old(parent) - {r} && hops == old(hops) - {r} && home == old(home)
      ensures child == old(child) - {r} && fchild == old(fchild) - {r} && leaf == old(leaf) - {r}
          && fleaf == old(fleaf) - {r}
    {
      parent, hops := parent - {r}, hops - {r};
      child, fchild := child - {r}, fchild - {r};
      leaf, fleaf := leaf - {r}, fleaf - {r};
    }

    // Prepends the routers `c` to the children of `p`.
    method AddRouters(p: Addr, c: seq<Addr>)
      requires p in child && p in fchild && forall i | 0 <= i < |c| :: c[i] in parent
      modifies this`parent, this`child, this`fchild
      ensures parent == Ops.ParentsUp(old(parent), c, p)
      ensures child == old(child)[p := c + old(child)[p]] && fchild == old(fchild)[p := old(fchild)[p] + |c|]
    {
      if c == [] {
        assert c + child[p] == child[p];
        return;
      }
      var i := 0;
      while i < |c|
        invariant i <= |c| && parent == Ops.ParentsUp(old(parent), c[..i], p)
        invariant child == old(child) && fchild == old(fchild)
      {
        parent := parent[c[i] := Some(p)];
        assert c[..i + 1] == c[..i] + [c[i]];
        i := i + 1;
      }
      assert c[..i] == c;
      child := child[p := c + child[p]];
      fchild := fchild[p := fchild[p] + |c|];
    }

    // Prepends the receivers `c` to the leaves of `p`.
    method AddLeaves(p: Addr, c: seq<Addr>)
      requires p in leaf && p in fleaf && forall i | 0 <= i < |c| :: c[i] in home
      modifies this`home, this`leaf, this`fleaf
      ensures home == Ops.ParentsUp(old(home), c, p)
      ensures leaf == old(leaf)[p := c + old(leaf)[p]] && fleaf == old(fleaf)[p := old(fleaf)[p] + |c|]
    {
      if c == [] {
        assert c + leaf[p] == leaf[p];
        return;
      }
      var i := 0;
      while i < |c|
        invariant i <= |c| && home == Ops.ParentsUp(old(home), c[..i], p)
        invariant leaf == old(leaf) && fleaf == old(fleaf)
      {
        home := home[c[i] := Some(p)];
        assert c[..i + 1] == c[..i] + [c[i]];
        i := i + 1;
      }
      assert c[..i] == c;
      leaf := leaf[p := c + leaf[p]];
      fleaf := fleaf[p := fleaf[p] + |c|];
    }
  }
}
