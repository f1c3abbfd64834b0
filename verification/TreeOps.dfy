// What the elementary list operations do to the tree.
module TreeOps {
  import opened Base
  import opened Forest

  function Dec(n: nat): nat {
    if n > 0 then n - 1 else 0
  }

  ghost function NewRouter(t: Tree, a: Addr): Tree {
    t.(parent := t.parent[a := None], hops := t.hops[a := 0], child := t.child[a := []], fchild := t.fchild[a := 0],
       leaf := t.leaf[a := []], fleaf := t.fleaf[a := 0])
  }

  ghost function DropRouter(t: Tree, a: Addr): Tree {
    t.(parent := t.parent - {a}, hops := t.hops - {a}, child := t.child - {a}, fchild := t.fchild - {a},
       leaf := t.leaf - {a}, fleaf := t.fleaf - {a})
  }

  ghost function NewLeaf(t: Tree, l: Addr): Tree {
    t.(home := t.home[l := None])
  }

  ghost function SetHops(t: Tree, a: Addr, h: nat): Tree {
    t.(hops := t.hops[a := h])
  }

  ghost function AddRouter(t: Tree, p: Addr, c: Addr): Tree
    requires Keyed(t) && p in t.parent
  {
    t.(parent := t.parent[c := Some(p)], child := t.child[p := [c] + t.child[p]],
       fchild := t.fchild[p := t.fchild[p] + 1])
  }

  ghost function RmRouter(t: Tree, p: Addr, c: Addr): Tree
    requires Keyed(t) && p in t.parent
  {
    t.(parent := t.parent[c := None], child := t.child[p := Remove(t.child[p], c)],
       fchild := if c in t.child[p] then t.fchild[p := Dec(t.fchild[p])] else t.fchild)
  }

  ghost function AddLeaf(t: Tree, p: Addr, l: Addr): Tree
    requires Keyed(t) && p in t.parent
  {
    t.(home := t.home[l := Some(p)], leaf := t.leaf[p := [l] + t.leaf[p]], fleaf := t.fleaf[p := t.fleaf[p] + 1])
  }

  ghost function RmLeaf(t: Tree, p: Addr, l: Addr): Tree
    requires Keyed(t) && p in t.parent
  {
    t.(home := t.home[l := None], leaf := t.leaf[p := Remove(t.leaf[p], l)],
       fleaf := if l in t.leaf[p] then t.fleaf[p := Dec(t.fleaf[p])] else t.fleaf)
  }

  // All of `moved` get the parent `p`.
  ghost function ParentsUp(parent: map<Addr, Option<Addr>>, moved: seq<Addr>, p: Addr): map<Addr, Option<Addr>> {
    map c | c in parent :: if c in moved then Some(p) else parent[c]
  }
}
