// How one discovery response changes the tree: the reported router is inserted above the point of
// the receiver's path where its hop count fits, or takes over that point if it is already known.
module Topology {
  import opened Base
  import opened Forest
  import Ops = TreeOps

  // A list cell: it holds a router or a receiver.
  datatype Cell = Rt(a: Addr) | Lf(l: Addr)

  // The parent of the node in a cell.
  ghost function Up(t: Tree, c: Cell): Option<Addr> {
    match c
    case Rt(a) => if a in t.parent then t.parent[a] else None
    case Lf(l) => if l in t.home then t.home[l] else None
  }

  // The first node from `c` upwards whose parent is at most `h` hops away.
  ghost function PathPos(t: Tree, hops: map<Addr, nat>, rk: map<Addr, nat>, c: Cell, h: nat): Cell
    requires Linked(t) && Ranked(t.parent, rk) && t.parent.Keys <= hops.Keys
    decreases match Up(t, c) case Some(p) => if p in rk then rk[p] + 1 else 0 case None => 0
  {
    match Up(t, c)
    case None => c
    case Some(p) => if hops[p] <= h then c else PathPos(t, hops, rk, Rt(p), h)
  }

  // `c` leaves its parent and becomes the first child or leaf of `p`.
  ghost function Adopt(t: Tree, p: Addr, c: Cell): Tree
    requires Linked(t) && p in t.parent && Up(t, c).Some?
  {
    match c
    case Rt(a) =>
      var q := t.parent[a].value;
      var child := t.child[q := Remove(t.child[q], a)];
      var fchild := t.fchild[q := Ops.Dec(t.fchild[q])];
      t.(parent := t.parent[a := Some(p)], child := child[p := [a] + child[p]], fchild := fchild[p := fchild[p] + 1])
    case Lf(l) =>
      var q := t.home[l].value;
      var leaf := t.leaf[q := Remove(t.leaf[q], l)];
      var fleaf := t.fleaf[q := Ops.Dec(t.fleaf[q])];
      t.(home := t.home[l := Some(p)], leaf := leaf[p := [l] + leaf[p]], fleaf := fleaf[p := fleaf[p] + 1])
  }

  lemma AdoptLinked(t: Tree, p: Addr, c: Cell)
    requires Linked(t) && p in t.parent && Up(t, c).Some? && c != Rt(p)
    ensures Linked(Adopt(t, p, c))
  {
    hide ChildLinks, LeafLinks, Remove;
    AdoptKeyed(t, p, c);
    UpKnown(t, c);
    match c
    case Rt(a) => AdoptChild(t.parent, t.child, p, a);
    case Lf(l) => AdoptLeaf(t.parent.Keys, t.leaf, t.home, p, l);
  }

  lemma AdoptKeyed(t: Tree, p: Addr, c: Cell)
    requires Linked(t) && p in t.parent && Up(t, c).Some? && c != Rt(p)
    ensures var t' := Adopt(t, p, c);
            && Keyed(t') && t'.root == t.root && t'.parent.Keys == t.parent.Keys && t'.home.Keys == t.home.Keys
            && t'.hops == t.hops && t'.parent[t.root] == None
            && t'.parent == (if c.Rt? then t.parent[c.a := Some(p)] else t.parent)
            && t'.home == (if c.Lf? then t.home[c.l := Some(p)] else t.home)
  {
    hide ChildLinks, LeafLinks, Remove;
    UpKnown(t, c);
  }

  lemma UpKnown(t: Tree, c: Cell)
    requires Linked(t) && Up(t, c).Some?
    ensures Up(t, c).value in t.parent
    ensures match c case Rt(a) => a in t.parent && a != t.root case Lf(l) => l in t.home
  {
  }

  lemma AdoptChild(parent: map<Addr, Option<Addr>>, child: map<Addr, seq<Addr>>, p: Addr, a: Addr)
    requires child.Keys == parent.Keys && ChildLinks(parent, child)
    requires p in parent && a in parent && parent[a].Some? && a != p
    ensures parent[a].value in parent
    ensures var removed := child[parent[a].value := Remove(child[parent[a].value], a)];
            ChildLinks(parent[a := Some(p)], removed[p := [a] + removed[p]])
  {
    var q := parent[a].value;
    RemoveDistinct(child[q], a);
    var removed := child[q := Remove(child[q], a)];
    var parent', child' := parent[a := Some(p)], removed[p := [a] + removed[p]];
    assert a !in removed[p];
    ConsDistinct(a, removed[p]);
    forall x, c | x in parent' && c in child'[x] ensures c in parent' && parent'[c] == Some(x) {
    }
    forall c | c in parent' && parent'[c].Some?
      ensures parent'[c].value in parent' && c in child'[parent'[c].value]
    {
      if c != a {
        var x := parent[c].value;
        assert c in child[x] && c in removed[x];
      }
    }
  }

  lemma ConsDistinct<T>(a: T, s: seq<T>)
    requires Distinct(s) && a !in s
    ensures Distinct([a] + s)
  {
    DistinctConcat([a], s);
  }

  lemma AdoptLeaf(routers: set<Addr>, leaf: map<Addr, seq<Addr>>, home: map<Addr, Option<Addr>>, p: Addr, l: Addr)
    requires leaf.Keys == routers && LeafLinks(routers, leaf, home)
    requires p in routers && l in home && home[l].Some?
    ensures home[l].value in routers
    ensures var removed := leaf[home[l].value := Remove(leaf[home[l].value], l)];
            LeafLinks(routers, removed[p := [l] + removed[p]], home[l := Some(p)])
  {
    var q := home[l].value;
    RemoveDistinct(leaf[q], l);
    var removed := leaf[q := Remove(leaf[q], l)];
    var home', leaf' := home[l := Some(p)], removed[p := [l] + removed[p]];
    assert l !in removed[p];
    ConsDistinct(l, removed[p]);
    forall x, k | x in routers && k in leaf'[x] ensures k in home' && home'[k] == Some(x) {
    }
    forall k | k in home' && home'[k].Some?
      ensures home'[k].value in routers && k in leaf'[home'[k].value]
    {
      if k != l {
        var x := home[k].value;
        assert k in leaf[x] && k in removed[x];
      }
    }
  }

  ghost predicate Rooted(t: Tree, rk: map<Addr, nat>) {
    Steady(t, rk) && AllHomed(t) && t.hops[t.root] == 0
  }

  // A position on the path of `c`: what `PathPos` finds.
  lemma {:induction false} PathPosFacts(t: Tree, hops: map<Addr, nat>, rk: map<Addr, nat>, c: Cell, h: nat)
    requires Steady(t, rk) && t.parent.Keys <= hops.Keys && Up(t, c).Some?
    requires Up(t, PathPos(t, hops, rk, c, h)).Some?
    ensures var d := PathPos(t, hops, rk, c, h);
            && Up(t, d).Some? && Up(t, d).value in t.parent && Attached(t, Up(t, d).value) && hops[Up(t, d).value] <= h
            && Anc(t.parent, Up(t, d).value, Up(t, c).value)
            && (d == c || (d.Rt? && d.a in t.parent && hops[d.a] > h && Anc(t.parent, d.a, Up(t, c).value)))
    decreases match Up(t, c) case Some(p) => if p in rk then rk[p] + 1 else 0 case None => 0
  {
    UpKnown(t, c);
    var p := Up(t, c).value;
    assert Attached(t, p) by {
      match c
      case Rt(a) => assert a in t.child[p];
      case Lf(l) => assert l in t.leaf[p];
    }
    if hops[p] > h {
      PathPosFacts(t, hops, rk, Rt(p), h);
    }
  }

  // There is no such position exactly when everything on the path is too far, including the root.
  lemma {:induction false} PathPosNone(t: Tree, hops: map<Addr, nat>, rk: map<Addr, nat>, c: Cell, h: nat)
    requires Linked(t) && Ranked(t.parent, rk) && t.parent.Keys <= hops.Keys && Up(t, c).Some?
    ensures Up(t, PathPos(t, hops, rk, c, h)).None? <==>
            forall a | a in t.parent && Anc(t.parent, a, Up(t, c).value) :: hops[a] > h
    decreases match Up(t, c) case Some(p) => if p in rk then rk[p] + 1 else 0 case None => 0
  {
    hide LeafLinks;
    UpKnown(t, c);
    var p := Up(t, c).value;
    AboveItself(t.parent, p);
    if hops[p] > h {
      if Up(t, Rt(p)).Some? {
        PathPosNone(t, hops, rk, Rt(p), h);
        forall a | a in t.parent ensures Anc(t.parent, a, p) <==> a == p || Anc(t.parent, a, t.parent[p].value) {
        }
      } else {
        forall a | a in t.parent && Anc(t.parent, a, p) ensures a == p {
        }
      }
    }
  }

  lemma AboveItself(parent: map<Addr, Option<Addr>>, a: Addr)
    ensures Anc(parent, a, a)
  {
  }

  // `r` as it is known to the sender, `h` hops away: a router reported for the first time has no
  // parent yet.
  ghost function Known(t: Tree, r: Addr, h: nat): Tree {
    Ops.SetHops(if r in t.parent then t else Ops.NewRouter(t, r), r, h)
  }

  // The tree before the receiver's path is cut open: `r` is attached below `g` unless it is already.
  ghost function Attach(t: Tree, g: Addr, r: Addr, h: nat): Tree
    requires Keyed(t) && g in t.parent
  {
    var u := Known(t, r, h);
    if u.parent[r].Some? then u
    else u.(parent := u.parent[r := Some(g)], child := u.child[g := [r] + u.child[g]],
            fchild := u.fchild[g := u.fchild[g] + 1])
  }

  lemma AttachLinked(t: Tree, g: Addr, r: Addr, h: nat)
    requires Linked(t) && DetachedEmpty(t) && g in t.parent && r != t.root && r !in t.home
    requires g == r ==> t.parent[r].Some?
    ensures Linked(Attach(t, g, r, h))
    ensures var v := Attach(t, g, r, h);
            && v.root == t.root && v.home == t.home && v.hops == t.hops[r := h] && r in v.parent
            && v.parent == (if r in t.parent && t.parent[r].Some? then t.parent else t.parent[r := Some(g)])
  {
    hide LeafLinks, ChildLinks, Known, DetachedEmpty;
    KnownLinked(t, r, h);
    var u := Known(t, r, h);
    if u.parent[r].None? {
      AttachChild(u.parent, u.child, g, r);
      AttachKeyed(u, g, r);
    }
  }

  lemma AttachKeyed(u: Tree, g: Addr, r: Addr)
    requires Keyed(u) && g in u.parent && r in u.parent
    ensures var v := u.(parent := u.parent[r := Some(g)], child := u.child[g := [r] + u.child[g]],
                        fchild := u.fchild[g := u.fchild[g] + 1]);
            Keyed(v) && v.parent.Keys == u.parent.Keys
  {
  }

  lemma KnownLinked(t: Tree, r: Addr, h: nat)
    requires Linked(t) && DetachedEmpty(t) && r != t.root && r !in t.home
    ensures var u := Known(t, r, h);
            && Linked(u) && r in u.parent && u.home == t.home && u.root == t.root && u.hops == t.hops[r := h]
            && u.parent == (if r in t.parent then t.parent else t.parent[r := None])
            && (r !in t.parent ==> u.child[r] == [] && u.leaf[r] == [])
  {
    hide LeafLinks, ChildLinks, DetachedEmpty;
    if r in t.parent {
      HopsKeyed(t, r, h);
    } else {
      NewLinked(t, r, h);
    }
  }

  lemma NewLinked(t: Tree, r: Addr, h: nat)
    requires Linked(t) && r !in t.parent && r !in t.home
    ensures var u := Ops.SetHops(Ops.NewRouter(t, r), r, h);
            && Linked(u) && r in u.parent && u.home == t.home && u.root == t.root && u.hops == t.hops[r := h]
            && u.parent == t.parent[r := None] && u.child[r] == [] && u.leaf[r] == []
  {
    hide LeafLinks, ChildLinks, Keyed;
    KeyedLists(t);
    KnownChild(t.parent, t.child, r);
    KnownLeaf(t.parent.Keys, t.leaf, t.home, r);
    NewKeyed(t, r);
    var u := Ops.NewRouter(t, r);
    assert u.hops[r := h] == t.hops[r := h];
    HopsKeyed(u, r, h);
  }

  lemma KeyedLists(t: Tree)
    requires Keyed(t)
    ensures t.hops.Keys == t.child.Keys == t.fchild.Keys == t.leaf.Keys == t.fleaf.Keys == t.parent.Keys
    ensures t.root in t.parent
  {
  }

  lemma HopsKeyed(t: Tree, r: Addr, h: nat)
    requires Keyed(t) && r in t.parent
    ensures Keyed(Ops.SetHops(t, r, h))
  {
  }

  lemma NewKeyed(t: Tree, r: Addr)
    requires Keyed(t) && r !in t.home && r !in t.parent
    ensures Keyed(Ops.NewRouter(t, r)) && Ops.NewRouter(t, r).parent.Keys == t.parent.Keys + {r}
  {
  }

  lemma KnownChild(parent: map<Addr, Option<Addr>>, child: map<Addr, seq<Addr>>, r: Addr)
    requires child.Keys == parent.Keys && ChildLinks(parent, child) && r !in parent
    ensures ChildLinks(parent[r := None], child[r := []])
  {
  }

  lemma KnownLeaf(routers: set<Addr>, leaf: map<Addr, seq<Addr>>, home: map<Addr, Option<Addr>>, r: Addr)
    requires leaf.Keys == routers && LeafLinks(routers, leaf, home) && r !in routers
    ensures LeafLinks(routers + {r}, leaf[r := []], home)
  {
  }

  lemma AttachChild(parent: map<Addr, Option<Addr>>, child: map<Addr, seq<Addr>>, g: Addr, r: Addr)
    requires child.Keys == parent.Keys && ChildLinks(parent, child)
    requires g in parent && r in parent && parent[r].None? && g != r
    ensures ChildLinks(parent[r := Some(g)], child[g := [r] + child[g]])
  {
    assert r !in child[g];
    ConsDistinct(r, child[g]);
  }

  // Where a response for receiver `l` about router `r`, `h` hops away, cuts the receiver's path.
  ghost function Position(t: Tree, rk: map<Addr, nat>, r: Addr, l: Addr, h: nat): Cell
    requires Linked(t) && Ranked(t.parent, rk)
  {
    PathPos(t, t.hops[r := h], rk, Lf(l), h)
  }

  // The path has a position for the response.
  ghost predicate HasPosition(t: Tree, rk: map<Addr, nat>, r: Addr, l: Addr, h: nat)
    requires Linked(t) && Ranked(t.parent, rk)
  {
    Up(t, Position(t, rk, r, l, h)).Some?
  }

  // It has one exactly when the receiver has a parent and some router on the path is near enough.
  lemma FoundExactly(t: Tree, rk: map<Addr, nat>, r: Addr, l: Addr, h: nat)
    requires Linked(t) && Ranked(t.parent, rk) && l in t.home
    ensures HasPosition(t, rk, r, l, h) <==>
            t.home[l].Some? &&
            exists a :: a in t.parent && Anc(t.parent, a, t.home[l].value) && (a == r || t.hops[a] <= h)
  {
    hide ChildLinks, LeafLinks, Ranked, Anc;
    if t.home[l].Some? {
      PathPosNone(t, t.hops[r := h], rk, Lf(l), h);
    }
  }

  // While the sender is 0 hops away, it is near enough.
  lemma FoundRooted(t: Tree, rk: map<Addr, nat>, r: Addr, l: Addr, h: nat)
    requires Rooted(t, rk) && l in t.home
    ensures HasPosition(t, rk, r, l, h)
  {
    hide ChildLinks, LeafLinks, Ranked, Anc, Position;
    FoundExactly(t, rk, r, l, h);
    HomeOnPath(t, l);
    RootAbove(t, rk, t.home[l].value);
  }

  lemma HomeOnPath(t: Tree, l: Addr)
    requires Linked(t) && DetachedEmpty(t) && l in t.home && t.home[l].Some?
    ensures Attached(t, t.home[l].value) && t.root in t.parent
    ensures forall d | d in t.parent && !Attached(t, d) :: t.child[d] == []
  {
    hide ChildLinks;
    assert l in t.leaf[t.home[l].value];
  }

  lemma SpotFacts(t: Tree, rk: map<Addr, nat>, r: Addr, l: Addr, h: nat)
    requires Steady(t, rk) && l in t.home && HasPosition(t, rk, r, l, h)
    ensures var c := Position(t, rk, r, l, h);
            && Up(t, c).Some? && Up(t, c).value in t.parent && Attached(t, Up(t, c).value)
            && (Up(t, c).value == r || t.hops[Up(t, c).value] <= h)
            && t.home[l].Some? && t.home[l].value in t.parent && Anc(t.parent, Up(t, c).value, t.home[l].value)
            && (c == Lf(l) ||
                (c.Rt? && c.a != r && c.a in t.parent && t.hops[c.a] > h && Anc(t.parent, c.a, t.home[l].value)))
            && c != Rt(t.root)
  {
    hide ChildLinks, Anc;
    PathPosFacts(t, t.hops[r := h], rk, Lf(l), h);
    UpKnown(t, Lf(l));
    UpKnown(t, Position(t, rk, r, l, h));
  }

  lemma PositionFacts(t: Tree, rk: map<Addr, nat>, r: Addr, l: Addr, h: nat)
    requires Rooted(t, rk) && l in t.home
    ensures var c := Position(t, rk, r, l, h);
            && Up(t, c).Some? && Up(t, c).value in t.parent && Attached(t, Up(t, c).value)
            && (Up(t, c).value == r || t.hops[Up(t, c).value] <= h)
            && t.home[l].Some? && t.home[l].value in t.parent && Anc(t.parent, Up(t, c).value, t.home[l].value)
            && (c == Lf(l) ||
                (c.Rt? && c.a != r && c.a in t.parent && t.hops[c.a] > h && Anc(t.parent, c.a, t.home[l].value)))
            && c != Rt(t.root)
  {
    hide ChildLinks, LeafLinks, Anc, Position, HasPosition;
    FoundRooted(t, rk, r, l, h);
    SpotFacts(t, rk, r, l, h);
  }

  // The tree after a response for receiver `l` about router `r`, `h` hops away. A response that carries the
  // sender's own address overwrites its hop count and moves the node to it.
  ghost function Respond(t: Tree, rk: map<Addr, nat>, r: Addr, l: Addr, h: nat): Tree
    requires Steady(t, rk) && l in t.home && r !in t.home && HasPosition(t, rk, r, l, h)
  {
    RespondReady(t, rk, r, l, h);
    var c := Position(t, rk, r, l, h);
    Adopt(Prepared(t, Up(t, c).value, r, h), r, c)
  }

  // The tree in which `r` takes over the node.
  ghost function Prepared(t: Tree, g: Addr, r: Addr, h: nat): Tree
    requires Keyed(t) && g in t.parent
  {
    if r == t.root then Ops.SetHops(t, r, h) else Attach(t, g, r, h)
  }

  lemma RespondReady(t: Tree, rk: map<Addr, nat>, r: Addr, l: Addr, h: nat)
    requires Steady(t, rk) && l in t.home && r !in t.home && HasPosition(t, rk, r, l, h)
    ensures var c := Position(t, rk, r, l, h);
            && Up(t, c).Some? && Up(t, c).value in t.parent && c != Rt(r) && c != Rt(t.root)
            && (r !in t.parent || t.parent[r].None? ==> Up(t, c).value != r || r == t.root)
            && var v := Prepared(t, Up(t, c).value, r, h);
               Linked(v) && r in v.parent && Up(v, c).Some? && Up(v, c).value in v.parent
  {
    hide ChildLinks, LeafLinks, Ranked, Position, Attach, Anc, HasPosition;
    SpotFacts(t, rk, r, l, h);
    if r == t.root {
      HopsKeyed(t, r, h);
    } else {
      AttachLinked(t, Up(t, Position(t, rk, r, l, h)).value, r, h);
    }
  }

  // The lists of `t'` after the node of `c` has moved from `g` to `r`. It comes first among the children or
  // leaves of `r`; a router `r` that was not part of the tree comes first among the children of `g`; and
  // everything else keeps its order.
  ghost predicate CellMoved(t: Tree, t': Tree, g: Addr, r: Addr, c: Cell) {
    && g in t.child && g in t.leaf && g in t'.child && g in t'.leaf && r in t'.child && r in t'.leaf
    && (forall a | a in t.child && a != g && a != r :: a in t'.child && t'.child[a] == t.child[a])
    && (forall a | a in t.leaf && a != g && a != r :: a in t'.leaf && t'.leaf[a] == t.leaf[a])
    && var inside := r == t.root || (r in t.parent && t.parent[r].Some?);
       var kids := if c.Rt? then Remove(t.child[g], c.a) else t.child[g];
       var rest := if c.Lf? then Remove(t.leaf[g], c.l) else t.leaf[g];
       && (g != r ==>
             && t'.child[g] == (if inside then kids else [r] + kids) && t'.leaf[g] == rest
             && t'.child[r] == (if c.Rt? then [c.a] else []) + (if r in t.child then t.child[r] else [])
             && t'.leaf[r] == (if c.Lf? then [c.l] else []) + (if r in t.leaf then t.leaf[r] else []))
       && (g == r ==>
             && t'.child[r] == (if c.Rt? then [c.a] else []) + kids
             && t'.leaf[r] == (if c.Lf? then [c.l] else []) + rest)
  }

  lemma RespondLists(t: Tree, rk: map<Addr, nat>, r: Addr, l: Addr, h: nat)
    requires Steady(t, rk) && l in t.home && r !in t.home && HasPosition(t, rk, r, l, h)
    ensures var c := Position(t, rk, r, l, h);
            Up(t, c).Some? && CellMoved(t, Respond(t, rk, r, l, h), Up(t, c).value, r, c)
  {
    hide ChildLinks, LeafLinks, Ranked, Position, Anc, HasPosition, DetachedEmpty, CellMoved, Adopt, Prepared, Keyed;
    RespondReady(t, rk, r, l, h);
    SpotFacts(t, rk, r, l, h);
    var c := Position(t, rk, r, l, h);
    PreparedMoved(t, Up(t, c).value, r, h, c);
  }

  lemma PreparedMoved(t: Tree, g: Addr, r: Addr, h: nat, c: Cell)
    requires Keyed(t) && g in t.parent && Up(t, c) == Some(g) && c != Rt(r)
    requires r !in t.parent || t.parent[r].None? ==> g != r || r == t.root
    requires Linked(Prepared(t, g, r, h)) && r in Prepared(t, g, r, h).parent && Up(Prepared(t, g, r, h), c).Some?
    ensures CellMoved(t, Adopt(Prepared(t, g, r, h), r, c), g, r, c)
  {
    hide ChildLinks, LeafLinks, Remove, Adopt, Prepared, Keyed;
    PreparedLists(t, g, r, h, c);
    AdoptLists(Prepared(t, g, r, h), r, c);
    if c.Rt? && g in t.child { RemoveBehind(r, t.child[g], c.a); }
  }

  lemma RemoveBehind(r: Addr, s: seq<Addr>, a: Addr)
    requires r != a
    ensures Remove([r] + s, a) == [r] + Remove(s, a)
  {
    assert ([r] + s)[1..] == s;
  }

  lemma PreparedLists(t: Tree, g: Addr, r: Addr, h: nat, c: Cell)
    requires Keyed(t) && g in t.parent && c != Rt(r)
    requires r !in t.parent || t.parent[r].None? ==> g != r || r == t.root
    ensures var v := Prepared(t, g, r, h);
            var inside := r == t.root || (r in t.parent && t.parent[r].Some?);
            && Up(v, c) == Up(t, c) && r in v.child && r in v.leaf
            && t.child.Keys <= v.child.Keys && t.leaf.Keys <= v.leaf.Keys && t.leaf.Keys == t.child.Keys
            && (forall a | a in t.leaf :: v.leaf[a] == t.leaf[a]) && (r !in t.leaf ==> v.leaf[r] == [])
            && (forall a | a in t.child && a != g :: v.child[a] == t.child[a]) && (r !in t.child ==> v.child[r] == [])
            && g in t.child && v.child[g] == if inside then t.child[g] else [r] + t.child[g]
  {
    hide Keyed;
    KeyedLists(t);
  }

  lemma AdoptLists(v: Tree, p: Addr, c: Cell)
    requires Linked(v) && p in v.parent && Up(v, c).Some?
    ensures var u := Adopt(v, p, c);
            var q := Up(v, c).value;
            && q in v.child && q in v.leaf && u.child.Keys == v.child.Keys && u.leaf.Keys == v.leaf.Keys
            && p in v.child && p in v.leaf
            && match c
               case Rt(a) =>
                 && u.leaf == v.leaf && (forall x | x in v.child && x != p && x != q :: u.child[x] == v.child[x])
                 && u.child[p] == [a] + (if p == q then Remove(v.child[q], a) else v.child[p])
                 && (p != q ==> u.child[q] == Remove(v.child[q], a))
               case Lf(l) =>
                 && u.child == v.child && (forall x | x in v.leaf && x != p && x != q :: u.leaf[x] == v.leaf[x])
                 && u.leaf[p] == [l] + (if p == q then Remove(v.leaf[q], l) else v.leaf[p])
                 && (p != q ==> u.leaf[q] == Remove(v.leaf[q], l))
  {
    hide ChildLinks, LeafLinks, Remove;
    UpKnown(v, c);
  }

  // The same for a tree whose root is 0 hops away, so that there is always a position.
  ghost function Update(t: Tree, rk: map<Addr, nat>, r: Addr, l: Addr, h: nat): Tree
    requires Rooted(t, rk) && l in t.home && r != t.root && r !in t.home
  {
    FoundRooted(t, rk, r, l, h);
    Respond(t, rk, r, l, h)
  }

  ghost function UpdateRoot(t: Tree, rk: map<Addr, nat>, l: Addr, h: nat): Tree
    requires Rooted(t, rk) && l in t.home
  {
    FoundRooted(t, rk, t.root, l, h);
    Respond(t, rk, t.root, l, h)
  }

  lemma UpdateResponds(t: Tree, rk: map<Addr, nat>, r: Addr, l: Addr, h: nat)
    requires Rooted(t, rk) && l in t.home && r !in t.home
    ensures Steady(t, rk) && HasPosition(t, rk, r, l, h)
    ensures Respond(t, rk, r, l, h) == if r == t.root then UpdateRoot(t, rk, l, h) else Update(t, rk, r, l, h)
  {
    hide Respond, HasPosition, Position;
    FoundRooted(t, rk, r, l, h);
  }

  // A response with the sender's own address leaves the tree linked and in possession of its receivers, but
  // the sender no longer 0 hops away.
  lemma UpdateRootLinks(t: Tree, rk: map<Addr, nat>, l: Addr, h: nat)
    requires Rooted(t, rk) && l in t.home
    ensures var c := Position(t, rk, t.root, l, h);
            var t' := UpdateRoot(t, rk, l, h);
            && Linked(t') && t'.root == t.root && t'.hops == t.hops[t.root := h]
            && t'.parent == (if c.Rt? then t.parent[c.a := Some(t.root)] else t.parent)
            && t'.home == (if c.Lf? then t.home[c.l := Some(t.root)] else t.home)
            && t'.home.Keys == t.home.Keys
  {
    hide LeafLinks, ChildLinks, Rooted, Adopt, Position;
    FoundRooted(t, rk, t.root, l, h);
    RootedBasics(t, rk);
    RespondReady(t, rk, t.root, l, h);
    var u, c := Ops.SetHops(t, t.root, h), Position(t, rk, t.root, l, h);
    AdoptLinked(u, t.root, c);
    AdoptKeyed(u, t.root, c);
  }

  // The links that a response changes.
  ghost function ParentAfter(parent: map<Addr, Option<Addr>>, g: Addr, r: Addr, c: Cell): map<Addr, Option<Addr>> {
    var p := if r in parent && parent[r].Some? then parent else parent[r := Some(g)];
    if c.Rt? then p[c.a := Some(r)] else p
  }

  lemma UpdateLinks(t: Tree, rk: map<Addr, nat>, r: Addr, l: Addr, h: nat)
    requires Rooted(t, rk) && l in t.home && r != t.root && r !in t.home
    ensures var c := Position(t, rk, r, l, h);
            var t' := Update(t, rk, r, l, h);
            && Up(t, c).Some? && Linked(t') && t'.root == t.root
            && t'.parent == ParentAfter(t.parent, Up(t, c).value, r, c)
            && t'.home == (if c.Lf? then t.home[l := Some(r)] else t.home)
            && t'.hops == t.hops[r := h]
  {
    hide LeafLinks, ChildLinks, Rooted, Attach, Adopt, Position;
    PositionFacts(t, rk, r, l, h);
    RootedBasics(t, rk);
    var c := Position(t, rk, r, l, h);
    var g := Up(t, c).value;
    AttachLinked(t, g, r, h);
    var v := Attach(t, g, r, h);
    AdoptLinked(v, r, c);
    AdoptKeyed(v, r, c);
  }

  lemma RootedBasics(t: Tree, rk: map<Addr, nat>)
    requires Rooted(t, rk)
    ensures Linked(t) && Ranked(t.parent, rk) && DetachedEmpty(t) && AllHomed(t) && t.hops[t.root] == 0
  {
  }

  lemma AttachKeeps(t: Tree, g: Addr, r: Addr, h: nat)
    requires Linked(t) && DetachedEmpty(t) && Fresh(t) && Attached(t, g) && r != t.root && r !in t.home
    requires g == r ==> t.parent[r].Some?
    requires Linked(Attach(t, g, r, h))
    ensures DetachedEmpty(Attach(t, g, r, h)) && Fresh(Attach(t, g, r, h)) && Attached(Attach(t, g, r, h), r)
  {
    hide ChildLinks, LeafLinks, Distinct, Known, Fresh, DetachedEmpty, Keyed;
    KnownLinked(t, r, h);
    KnownKeeps(t, r, h);
    var u := Known(t, r, h);
    if u.parent[r].None? { BelowKeeps(u, g, r); }
  }

  lemma KnownKeeps(t: Tree, r: Addr, h: nat)
    requires Linked(t) && DetachedEmpty(t) && Fresh(t) && Linked(Known(t, r, h)) && r != t.root
    ensures DetachedEmpty(Known(t, r, h)) && Fresh(Known(t, r, h))
    ensures forall a | Attached(t, a) :: Attached(Known(t, r, h), a)
  {
    hide ChildLinks, LeafLinks, Distinct;
    if r in t.parent {
      SetKeeps(t, r, h);
    } else {
      NewKeeps(t, r, h);
    }
  }

  lemma SetKeeps(t: Tree, r: Addr, h: nat)
    requires Linked(t) && DetachedEmpty(t) && Fresh(t) && r in t.parent
    ensures var u := Ops.SetHops(t, r, h);
            Keyed(u) && DetachedEmpty(u) && Fresh(u) && forall a | Attached(t, a) :: Attached(u, a)
  {
    hide ChildLinks, LeafLinks, Distinct;
  }

  lemma NewKeeps(t: Tree, r: Addr, h: nat)
    requires Linked(t) && DetachedEmpty(t) && Fresh(t) && r !in t.parent
    ensures var u := Ops.SetHops(Ops.NewRouter(t, r), r, h);
            Keyed(u) ==> DetachedEmpty(u) && Fresh(u) && forall a | Attached(t, a) :: Attached(u, a)
  {
    hide ChildLinks, LeafLinks, Distinct, Fresh;
    if Keyed(Ops.SetHops(Ops.NewRouter(t, r), r, h)) { NewFresh(t, r, h); }
  }

  lemma NewFresh(t: Tree, r: Addr, h: nat)
    requires Keyed(t) && Fresh(t) && r !in t.parent && Keyed(Ops.SetHops(Ops.NewRouter(t, r), r, h))
    ensures Fresh(Ops.SetHops(Ops.NewRouter(t, r), r, h))
  {
  }

  lemma BelowKeeps(u: Tree, g: Addr, r: Addr)
    requires Linked(u) && DetachedEmpty(u) && Fresh(u) && Attached(u, g) && r in u.parent
    requires Linked(u.(parent := u.parent[r := Some(g)], child := u.child[g := [r] + u.child[g]],
                       fchild := u.fchild[g := u.fchild[g] + 1]))
    ensures var v := u.(parent := u.parent[r := Some(g)], child := u.child[g := [r] + u.child[g]],
                        fchild := u.fchild[g := u.fchild[g] + 1]);
            DetachedEmpty(v) && Fresh(v) && Attached(v, r)
  {
    hide ChildLinks, LeafLinks, Distinct;
  }

  lemma AdoptKeeps(t: Tree, p: Addr, c: Cell)
    requires Linked(t) && DetachedEmpty(t) && Fresh(t) && Attached(t, p) && Up(t, c).Some? && c != Rt(p)
    requires Linked(Adopt(t, p, c))
    ensures DetachedEmpty(Adopt(t, p, c)) && Fresh(Adopt(t, p, c))
  {
    match c
    case Rt(a) => AdoptKeepsChild(t, p, a);
    case Lf(l) => AdoptKeepsLeaf(t, p, l);
  }

  lemma AdoptKeepsChild(t: Tree, p: Addr, a: Addr)
    requires Linked(t) && DetachedEmpty(t) && Fresh(t) && Attached(t, p) && a != p
    requires a in t.parent && t.parent[a].Some? && Linked(Adopt(t, p, Rt(a)))
    ensures DetachedEmpty(Adopt(t, p, Rt(a))) && Fresh(Adopt(t, p, Rt(a)))
  {
    hide ChildLinks, LeafLinks, Distinct, Remove;
    ChildListed(t, a);
  }

  lemma ChildListed(t: Tree, a: Addr)
    requires Linked(t) && DetachedEmpty(t) && a in t.parent && t.parent[a].Some?
    ensures var q := t.parent[a].value;
            q in t.parent && a in t.child[q] && Attached(t, q) && |Remove(t.child[q], a)| == |t.child[q]| - 1
  {
    var q := t.parent[a].value;
    assert a in t.child[q];
    RemoveDistinct(t.child[q], a);
  }

  lemma LeafListed(t: Tree, l: Addr)
    requires Linked(t) && DetachedEmpty(t) && l in t.home && t.home[l].Some?
    ensures var q := t.home[l].value;
            q in t.parent && l in t.leaf[q] && Attached(t, q) && |Remove(t.leaf[q], l)| == |t.leaf[q]| - 1
  {
    var q := t.home[l].value;
    assert l in t.leaf[q];
    RemoveDistinct(t.leaf[q], l);
  }

  lemma AdoptKeepsLeaf(t: Tree, p: Addr, l: Addr)
    requires Linked(t) && DetachedEmpty(t) && Fresh(t) && Attached(t, p)
    requires l in t.home && t.home[l].Some? && Linked(Adopt(t, p, Lf(l)))
    ensures DetachedEmpty(Adopt(t, p, Lf(l))) && Fresh(Adopt(t, p, Lf(l)))
  {
    hide ChildLinks, LeafLinks, Distinct, Remove;
    LeafListed(t, l);
  }

  // A rank that fits after `r` has been put below `g`, with room for one router below `r`.
  ghost function AttachRank(rk: map<Addr, nat>, g: Addr, r: Addr): map<Addr, nat>
    requires g in rk
  {
    map x | x in rk.Keys + {r} :: if x == r then 2 * rk[g] + 1 else 2 * rk[x]
  }

  // A rank that fits after the subtree of `c` has been put below `r`.
  ghost function MoveRank(parent: map<Addr, Option<Addr>>, rk: map<Addr, nat>, c: Addr, r: Addr): map<Addr, nat>
    requires r in rk
  {
    map x | x in rk :: if Anc(parent, c, x) then rk[x] + rk[r] + 1 else rk[x]
  }

  lemma AttachRanked(parent: map<Addr, Option<Addr>>, rk: map<Addr, nat>, g: Addr, r: Addr)
    requires Ranked(parent, rk) && g in parent && g != r
    requires forall x | x in parent :: parent[x] != Some(r)
    ensures Ranked(parent[r := Some(g)], AttachRank(rk, g, r))
    ensures forall c | c in parent && c != r && parent[c] == Some(g) ::
              Ranked(parent[r := Some(g)][c := Some(r)], AttachRank(rk, g, r))
  {
  }

  lemma MoveRanked(parent: map<Addr, Option<Addr>>, rk: map<Addr, nat>, c: Addr, r: Addr)
    requires Ranked(parent, rk) && c in parent && r in parent && !Anc(parent, c, r)
    ensures Ranked(parent[c := Some(r)], MoveRank(parent, rk, c, r))
  {
    var parent' := parent[c := Some(r)];
    var rk' := MoveRank(parent, rk, c, r);
    forall a | a in parent' && parent'[a].Some? && parent'[a].value in parent' ensures rk'[parent'[a].value] < rk'[a] {
      if a != c {
        assert rk[parent[a].value] < rk[a];
        assert Anc(parent, c, a) <==> Anc(parent, c, parent[a].value);
      }
    }
  }

  // Moving `c` below `r` keeps the parent pointers free of cycles exactly when `r` is not below `c`.
  lemma MoveAcyclic(parent: map<Addr, Option<Addr>>, rk: map<Addr, nat>, c: Addr, r: Addr)
    requires Ranked(parent, rk) && c in parent && r in parent
    ensures Acyclic(parent[c := Some(r)]) <==> !Anc(parent, c, r)
  {
    if Anc(parent, c, r) {
      if Acyclic(parent[c := Some(r)]) {
        var rk' :| Ranked(parent[c := Some(r)], rk');
        StillBelow(parent, rk, c, r, r, rk');
      }
    } else {
      MoveRanked(parent, rk, c, r);
    }
  }

  lemma {:induction false} StillBelow(parent: map<Addr, Option<Addr>>, rk: map<Addr, nat>, c: Addr, r: Addr, x: Addr,
                                      rk': map<Addr, nat>)
    requires Ranked(parent, rk) && c in parent && r in parent && x in parent && Anc(parent, c, x)
    requires Ranked(parent[c := Some(r)], rk')
    ensures rk'[c] <= rk'[x]
    decreases rk[x]
  {
    if x != c {
      var p := parent[x].value;
      StillBelow(parent, rk, c, r, p, rk');
      assert parent[c := Some(r)][x] == Some(p);
    }
  }

  // Hop counts never fall along the tree, and only the root is at distance 0.
  ghost predicate HopsUp(parent: map<Addr, Option<Addr>>, hops: map<Addr, nat>)
    requires parent.Keys <= hops.Keys
  {
    forall a | a in parent && parent[a].Some? ::
      hops[a] >= 1 && parent[a].value in parent && hops[parent[a].value] <= hops[a]
  }

  lemma {:induction false} AncHopsUp(t: Tree, rk: map<Addr, nat>, a: Addr, b: Addr)
    requires Linked(t) && Ranked(t.parent, rk) && HopsUp(t.parent, t.hops) && b in t.parent && Anc(t.parent, a, b)
    ensures a in t.parent && t.hops[a] <= t.hops[b]
    decreases rk[b]
  {
    if a != b {
      AncHopsUp(t, rk, a, t.parent[b].value);
    }
  }

  // The state between events of a discovery phase.
  ghost predicate Growing(t: Tree, rk: map<Addr, nat>) {
    Rooted(t, rk) && Fresh(t) && HopsUp(t.parent, t.hops)
  }

  // A router that is part of the tree keeps the hop count it was reported with in this phase.
  ghost predicate SameHops(t: Tree, r: Addr, h: nat)
    requires t.hops.Keys == t.parent.Keys
  {
    r in t.parent && t.parent[r].Some? ==> t.hops[r] == h
  }

  // With fixed hop counts the reported router is never below the point where the path is cut.
  lemma NotBelow(t: Tree, rk: map<Addr, nat>, r: Addr, l: Addr, h: nat)
    requires Growing(t, rk) && l in t.home && r != t.root && SameHops(t, r, h) && r in t.parent && t.parent[r].Some?
    ensures var c := Position(t, rk, r, l, h);
            c.Rt? ==> !Anc(t.parent, c.a, r)
  {
    hide ChildLinks, LeafLinks, Position, HopsUp, Anc, DetachedEmpty, Fresh;
    PositionFacts(t, rk, r, l, h);
    var c := Position(t, rk, r, l, h);
    if c.Rt? && Anc(t.parent, c.a, r) {
      AncHopsUp(t, rk, c.a, r);
    }
  }

  // The rank after a response.
  ghost function UpdateRank(t: Tree, rk: map<Addr, nat>, r: Addr, l: Addr, h: nat): map<Addr, nat>
    requires Rooted(t, rk) && l in t.home && r != t.root
  {
    PositionFacts(t, rk, r, l, h);
    var c := Position(t, rk, r, l, h);
    if r in t.parent && t.parent[r].Some? then
      if c.Rt? then MoveRank(t.parent, rk, c.a, r) else rk
    else AttachRank(rk, Up(t, c).value, r)
  }

  lemma UpdateRanked(t: Tree, rk: map<Addr, nat>, r: Addr, l: Addr, h: nat)
    requires Growing(t, rk) && l in t.home && r != t.root && r !in t.home && SameHops(t, r, h)
    ensures Ranked(Update(t, rk, r, l, h).parent, UpdateRank(t, rk, r, l, h))
  {
    hide ChildLinks, LeafLinks, Position, HopsUp, Anc, Fresh, Update, Ranked;
    PositionFacts(t, rk, r, l, h);
    UpdateLinks(t, rk, r, l, h);
    var c := Position(t, rk, r, l, h);
    var g := Up(t, c).value;
    if r in t.parent && t.parent[r].Some? {
      NotBelow(t, rk, r, l, h);
      if c.Rt? { MoveRanked(t.parent, rk, c.a, r); }
    } else {
      NoChildren(t, r);
      AttachRanked(t.parent, rk, g, r);
    }
  }

  lemma NoChildren(t: Tree, r: Addr)
    requires Linked(t) && DetachedEmpty(t) && r != t.root && !(r in t.parent && t.parent[r].Some?)
    ensures forall x | x in t.parent :: t.parent[x] != Some(r)
  {
    forall x | x in t.parent ensures t.parent[x] != Some(r) {
      if t.parent[x].Some? {
        assert x in t.child[t.parent[x].value];
      }
    }
  }

  lemma AfterHops(parent: map<Addr, Option<Addr>>, hops: map<Addr, nat>, g: Addr, r: Addr, c: Cell, h: nat)
    requires parent.Keys <= hops.Keys && HopsUp(parent, hops) && h >= 1 && g in parent
    requires if r in parent && parent[r].Some? then hops[r] == h
             else g != r && hops[g] <= h && forall x | x in parent :: parent[x] != Some(r)
    requires c.Rt? ==> c.a in parent && c.a != r && hops[c.a] > h
    ensures var parent' := ParentAfter(parent, g, r, c);
            parent'.Keys <= hops[r := h].Keys && HopsUp(parent', hops[r := h])
  {
  }

  lemma UpdateHops(t: Tree, rk: map<Addr, nat>, r: Addr, l: Addr, h: nat)
    requires Growing(t, rk) && l in t.home && r != t.root && r !in t.home && SameHops(t, r, h) && h >= 1
    ensures var t' := Update(t, rk, r, l, h);
            t'.hops.Keys == t'.parent.Keys && HopsUp(t'.parent, t'.hops) && t'.hops[t'.root] == 0
  {
    hide ChildLinks, LeafLinks, Position, Anc, Fresh, Update, Ranked, HopsUp, ParentAfter;
    PositionFacts(t, rk, r, l, h);
    UpdateLinks(t, rk, r, l, h);
    if !(r in t.parent && t.parent[r].Some?) { NoChildren(t, r); }
    var c := Position(t, rk, r, l, h);
    AfterHops(t.parent, t.hops, Up(t, c).value, r, c, h);
  }

  // The hop count `h` lies between those of the parent and of the children of `r`.
  ghost predicate FitsBetween(t: Tree, r: Addr, h: nat)
    requires Keyed(t)
  {
    && (r in t.parent && t.parent[r].Some? && t.parent[r].value in t.parent ==> t.hops[t.parent[r].value] < h)
    && (forall x | x in t.parent && t.parent[x] == Some(r) :: h < t.hops[x])
  }

  // Exactly when strictly rising hop counts keep rising, for any reported hop count: a router that is part
  // of the tree has to fit between its parent and its children, any other has to be farther away than the
  // router it is put below.
  lemma StrictExactly(t: Tree, rk: map<Addr, nat>, r: Addr, l: Addr, h: nat)
    requires Rooted(t, rk) && Strict(t) && l in t.home && r != t.root && r !in t.home
    ensures var c := Position(t, rk, r, l, h);
            && Up(t, c).Some? && Up(t, c).value in t.hops
            && (Strict(Update(t, rk, r, l, h)) <==>
                if r in t.parent && t.parent[r].Some? then FitsBetween(t, r, h) else t.hops[Up(t, c).value] < h)
  {
    hide ChildLinks, LeafLinks, Position, Anc, Update, Ranked, DetachedEmpty, ParentAfter, Strict, FitsBetween;
    PositionFacts(t, rk, r, l, h);
    UpdateLinks(t, rk, r, l, h);
    if !(r in t.parent && t.parent[r].Some?) { NoChildren(t, r); }
    var c := Position(t, rk, r, l, h);
    StrictAfter(t, Update(t, rk, r, l, h), Up(t, c).value, r, c, h);
  }

  lemma StrictAfter(t: Tree, t': Tree, g: Addr, r: Addr, c: Cell, h: nat)
    requires Keyed(t) && Keyed(t') && Strict(t) && g in t.parent
    requires (r in t.parent && t.parent[r].Some?) || (g != r && forall x | x in t.parent :: t.parent[x] != Some(r))
    requires c.Rt? ==> c.a in t.parent && c.a != r && t.hops[c.a] > h
    requires t'.parent == ParentAfter(t.parent, g, r, c) && t'.hops == t.hops[r := h]
    ensures Strict(t') <==> if r in t.parent && t.parent[r].Some? then FitsBetween(t, r, h) else t.hops[g] < h
  {
    hide Keyed, FitsBetween;
    assert t.hops.Keys == t.parent.Keys && t'.hops.Keys == t'.parent.Keys by { HopsOfAll(t); HopsOfAll(t'); }
    if r in t.parent && t.parent[r].Some? {
      if FitsBetween(t, r, h) { StrictKnown(t, t', r, c, h); }
      if Strict(t') { StrictFits(t, t', r, c, h); }
    } else {
      assert t'.parent[r] == Some(g) && t'.hops[r] == h && t'.hops[g] == t.hops[g];
      if t.hops[g] < h {
        StrictNew(t, t', g, r, c, h);
      }
    }
  }

  lemma HopsOfAll(t: Tree)
    requires Keyed(t)
    ensures t.hops.Keys == t.parent.Keys
  {
  }

  lemma StrictKnown(t: Tree, t': Tree, r: Addr, c: Cell, h: nat)
    requires Keyed(t) && t'.hops.Keys == t'.parent.Keys && Strict(t)
    requires r in t.parent && t.parent[r].Some? && FitsBetween(t, r, h)
    requires c.Rt? ==> c.a in t.parent && c.a != r && t.hops[c.a] > h
    requires t'.parent == (if c.Rt? then t.parent[c.a := Some(r)] else t.parent) && t'.hops == t.hops[r := h]
    ensures Strict(t')
  {
  }

  lemma StrictFits(t: Tree, t': Tree, r: Addr, c: Cell, h: nat)
    requires Keyed(t) && t'.hops.Keys == t'.parent.Keys && Strict(t) && Strict(t')
    requires r in t.parent && t.parent[r].Some?
    requires c.Rt? ==> c.a in t.parent && c.a != r && t.hops[c.a] > h
    requires t'.parent == (if c.Rt? then t.parent[c.a := Some(r)] else t.parent) && t'.hops == t.hops[r := h]
    ensures FitsBetween(t, r, h)
  {
    var p := t.parent[r].value;
    assert t'.parent[r] == Some(p);
    assert p in t.parent ==> t.hops[p] < t.hops[r];
    forall x | x in t.parent && t.parent[x] == Some(r) ensures h < t.hops[x] {
      assert t'.parent[x] == Some(r);
    }
  }

  lemma StrictNew(t: Tree, t': Tree, g: Addr, r: Addr, c: Cell, h: nat)
    requires t.hops.Keys == t.parent.Keys && t'.hops.Keys == t'.parent.Keys && Strict(t)
    requires g in t.parent && g != r && t.hops[g] < h && forall x | x in t.parent :: t.parent[x] != Some(r)
    requires c.Rt? ==> c.a in t.parent && c.a != r && t.hops[c.a] > h
    requires t'.parent == (var p := t.parent[r := Some(g)]; if c.Rt? then p[c.a := Some(r)] else p)
        && t'.hops == t.hops[r := h]
    ensures Strict(t')
  {
  }

  // Hop counts need not rise strictly: a new router that reports the distance of the receiver's
  // parent becomes a child of that router.
  lemma EqualHops(t: Tree, rk: map<Addr, nat>, r: Addr, l: Addr)
    requires Rooted(t, rk) && l in t.home && r !in t.parent && r !in t.home
    ensures t.home[l].Some? && t.home[l].value in t.parent && r != t.root
    ensures var q := t.home[l].value;
            var t' := Update(t, rk, r, l, t.hops[q]);
            && t'.parent[r] == Some(q) && t'.hops[r] == t'.hops[q] && t'.home[l] == Some(r)
            && (Strict(t) ==> !Strict(t'))
  {
    hide ChildLinks, LeafLinks, Anc, Update, Ranked, DetachedEmpty, Strict;
    var q := t.home[l].value;
    UpKnown(t, Lf(l));
    PositionFacts(t, rk, r, l, t.hops[q]);
    UpdateLinks(t, rk, r, l, t.hops[q]);
    assert Position(t, rk, r, l, t.hops[q]) == Lf(l);
    if Strict(t) { StrictExactly(t, rk, r, l, t.hops[q]); }
  }

  lemma UpdateSteady(t: Tree, rk: map<Addr, nat>, r: Addr, l: Addr, h: nat)
    requires Rooted(t, rk) && Fresh(t) && l in t.home && r != t.root && r !in t.home
    ensures var t' := Update(t, rk, r, l, h);
            Linked(t') && DetachedEmpty(t') && Fresh(t')
  {
    hide ChildLinks, LeafLinks, Position, Anc, Ranked, Attach, Adopt, Fresh, DetachedEmpty;
    PositionFacts(t, rk, r, l, h);
    UpdateLinks(t, rk, r, l, h);
    var c := Position(t, rk, r, l, h);
    var g := Up(t, c).value;
    AttachLinked(t, g, r, h);
    AttachKeeps(t, g, r, h);
    AdoptKeeps(Attach(t, g, r, h), r, c);
  }

  lemma UpdateHomes(t: Tree, rk: map<Addr, nat>, r: Addr, l: Addr, h: nat)
    requires Rooted(t, rk) && l in t.home && r != t.root && r !in t.home
    ensures var t' := Update(t, rk, r, l, h);
            AllHomed(t') && t'.home.Keys == t.home.Keys
  {
    hide ChildLinks, LeafLinks, Position, Anc, Ranked, Update;
    PositionFacts(t, rk, r, l, h);
    UpdateLinks(t, rk, r, l, h);
  }

  // A response keeps the tree well-formed, rooted and free of cycles.
  lemma UpdateKeeps(t: Tree, rk: map<Addr, nat>, r: Addr, l: Addr, h: nat)
    requires Growing(t, rk) && l in t.home && r != t.root && r !in t.home && SameHops(t, r, h) && h >= 1
    ensures Growing(Update(t, rk, r, l, h), UpdateRank(t, rk, r, l, h))
    ensures Update(t, rk, r, l, h).home.Keys == t.home.Keys
  {
    hide ChildLinks, LeafLinks, Ranked, HopsUp, Update, UpdateRank, DetachedEmpty, Fresh, AllHomed;
    UpdateSteady(t, rk, r, l, h);
    UpdateHomes(t, rk, r, l, h);
    UpdateRanked(t, rk, r, l, h);
    UpdateHops(t, rk, r, l, h);
    UpdateLinks(t, rk, r, l, h);
  }

  // Without any assumption on the reported hop count, a response closes a cycle exactly when the
  // reported router already lies below the router at which the receiver's path is cut.
  lemma UpdateAcyclic(t: Tree, rk: map<Addr, nat>, r: Addr, l: Addr, h: nat)
    requires Rooted(t, rk) && l in t.home && r != t.root && r !in t.home
    ensures var c := Position(t, rk, r, l, h);
            Acyclic(Update(t, rk, r, l, h).parent) <==>
              !(r in t.parent && t.parent[r].Some? && c.Rt? && Anc(t.parent, c.a, r))
  {
    hide ChildLinks, LeafLinks, Position, Anc, Ranked, Update, Rooted, Linked;
    RootedBasics(t, rk);
    PositionFacts(t, rk, r, l, h);
    UpdateLinks(t, rk, r, l, h);
    var c := Position(t, rk, r, l, h);
    if r in t.parent && t.parent[r].Some? {
      if c.Rt? { MoveAcyclic(t.parent, rk, c.a, r); }
    } else {
      NoChildren(t, r);
      AttachRanked(t.parent, rk, Up(t, c).value, r);
    }
  }

  // A response with the sender's own address never closes one, and keeps lists and receivers.
  lemma UpdateRootKeeps(t: Tree, rk: map<Addr, nat>, l: Addr, h: nat)
    requires Growing(t, rk) && l in t.home
    ensures var t' := UpdateRoot(t, rk, l, h);
            Linked(t') && DetachedEmpty(t') && Fresh(t') && AllHomed(t') && Acyclic(t'.parent)
  {
    hide ChildLinks, LeafLinks, HopsUp, Ranked, DetachedEmpty, Fresh, Adopt, Position, Anc, Acyclic, Keyed, Rooted;
    RootedBasics(t, rk);
    UpdateRootLinks(t, rk, l, h);
    RootSpot(t, rk, l, h);
    var u, c := Ops.SetHops(t, t.root, h), Position(t, rk, t.root, l, h);
    SetKeeps(t, t.root, h);
    AdoptLinked(u, t.root, c);
    AdoptKeeps(u, t.root, c);
    if c.Rt? {
      MoveAcyclic(t.parent, rk, c.a, t.root);
      if Anc(t.parent, c.a, t.root) { AboveRoot(t, c.a); }
    } else {
      AcyclicIs(t.parent, rk);
    }
  }

  // After a response with the sender's own address and `h` hops, no response with fewer hops finds a position
  // on the path of a receiver that is at the root.
  lemma NoPosition(t: Tree, rk: map<Addr, nat>, r: Addr, l: Addr, h: nat, h': nat)
    requires Rooted(t, rk) && l in t.home && t.home[l] == Some(t.root) && r != t.root && h' < h
    ensures var t' := UpdateRoot(t, rk, l, h);
            Linked(t') && Ranked(t'.parent, rk) && !HasPosition(t', rk, r, l, h')
  {
    hide ChildLinks, LeafLinks, Ranked, UpdateRoot, HasPosition;
    var t' := UpdateRoot(t, rk, l, h);
    RootedBasics(t, rk);
    UpdateRootLinks(t, rk, l, h);
    assert Position(t, rk, t.root, l, h) == Lf(l);
    FoundExactly(t', rk, r, l, h');
    forall a | a in t'.parent && Anc(t'.parent, a, t.root) ensures a == t.root {
      AboveRoot(t', a);
    }
  }

  lemma RootSpot(t: Tree, rk: map<Addr, nat>, l: Addr, h: nat)
    requires Rooted(t, rk) && l in t.home
    ensures var u, c := Ops.SetHops(t, t.root, h), Position(t, rk, t.root, l, h);
            && Linked(u) && Up(u, c).Some? && c != Rt(t.root) && (c.Rt? ==> c.a in t.parent)
            && t.root in t.parent && Attached(u, t.root) && UpdateRoot(t, rk, l, h) == Adopt(u, t.root, c)
  {
    hide ChildLinks, LeafLinks, Ranked, DetachedEmpty, Adopt, Position, Anc;
    FoundRooted(t, rk, t.root, l, h);
    RespondReady(t, rk, t.root, l, h);
    PositionFacts(t, rk, t.root, l, h);
  }

  lemma AcyclicIs(parent: map<Addr, Option<Addr>>, rk: map<Addr, nat>)
    requires Ranked(parent, rk)
    ensures Acyclic(parent)
  {
  }

  lemma AboveRoot(t: Tree, a: Addr)
    requires Linked(t) && Anc(t.parent, a, t.root)
    ensures a == t.root
  {
  }

  // Such a response exists: router 2 was reported 6 hops away below router 1, and is then reported
  // 3 hops away on the path of the other receiver of router 1.
  ghost function CycleTree(): Tree {
    Tree(0, map[0 := None, 1 := Some(0), 2 := Some(1)], map[0 := 0, 1 := 5, 2 := 6],
         map[0 := [1], 1 := [2], 2 := []], map[0 := 1, 1 := 1, 2 := 0],
         map[0 := [], 1 := [10], 2 := [11]], map[0 := 0, 1 := 1, 2 := 1], map[10 := Some(1), 11 := Some(2)])
  }

  ghost function CycleRank(): map<Addr, nat> {
    map[0 := 0, 1 := 1, 2 := 2]
  }

  lemma CycleLinks(parent: map<Addr, Option<Addr>>, child: map<Addr, seq<Addr>>)
    requires parent == map[0 := None, 1 := Some(0), 2 := Some(1)] && child == map[0 := [1], 1 := [2], 2 := []]
    ensures child.Keys == parent.Keys && ChildLinks(parent, child)
  {
    assert child.Keys == {0, 1, 2} && parent.Keys == {0, 1, 2};
  }

  lemma CycleChildren(t: Tree)
    requires t == CycleTree()
    ensures t.child.Keys == t.parent.Keys && ChildLinks(t.parent, t.child)
  {
    CycleLinks(t.parent, t.child);
  }

  lemma CycleLeaves(t: Tree)
    requires t == CycleTree()
    ensures t.leaf.Keys == t.parent.Keys && LeafLinks(t.parent.Keys, t.leaf, t.home)
  {
    assert t.leaf.Keys == t.parent.Keys == {0, 1, 2} && t.home.Keys == {10, 11};
    assert t.leaf[0] == [] && t.leaf[1] == [10] && t.leaf[2] == [11];
    assert t.home[10] == Some(1) && t.home[11] == Some(2);
  }

  lemma CycleKeyed(t: Tree)
    requires t == CycleTree()
    ensures Keyed(t)
  {
    assert t.parent.Keys == {0, 1, 2};
    assert t.hops.Keys == {0, 1, 2};
    assert t.child.Keys == {0, 1, 2};
    assert t.fchild.Keys == {0, 1, 2};
    assert t.leaf.Keys == {0, 1, 2};
    assert t.fleaf.Keys == {0, 1, 2};
    assert t.home.Keys == {10, 11};
  }

  lemma CycleCounts(t: Tree)
    requires t == CycleTree() && Keyed(t)
    ensures Fresh(t) && DetachedEmpty(t) && AllHomed(t)
  {
    hide Keyed;
    assert t.parent.Keys == {0, 1, 2} && t.home.Keys == {10, 11};
  }

  lemma CycleRanks(t: Tree)
    requires t == CycleTree()
    ensures t.parent.Keys <= t.hops.Keys && Ranked(t.parent, CycleRank()) && HopsUp(t.parent, t.hops)
  {
    hide Ranked, HopsUp;
    CycleHops(t.parent, t.hops);
    CycleRanked(t.parent);
  }

  lemma CycleHops(parent: map<Addr, Option<Addr>>, hops: map<Addr, nat>)
    requires parent == map[0 := None, 1 := Some(0), 2 := Some(1)] && hops == map[0 := 0, 1 := 5, 2 := 6]
    ensures parent.Keys <= hops.Keys && HopsUp(parent, hops)
  {
    assert hops.Keys == {0, 1, 2};
  }

  lemma CycleRanked(parent: map<Addr, Option<Addr>>)
    requires parent == map[0 := None, 1 := Some(0), 2 := Some(1)]
    ensures Ranked(parent, CycleRank())
  {
    assert CycleRank().Keys == {0, 1, 2};
  }

  lemma CycleTreeGrows()
    ensures Growing(CycleTree(), CycleRank())
  {
    hide CycleTree, ChildLinks, LeafLinks, Keyed, Fresh, DetachedEmpty, AllHomed, Ranked, HopsUp;
    var t := CycleTree();
    CycleChildren(t);
    CycleLeaves(t);
    CycleKeyed(t);
    CycleCounts(t);
    CycleRanks(t);
    CycleRoot(t);
  }

  lemma CycleRoot(t: Tree)
    requires t == CycleTree()
    ensures t.root in t.parent && t.parent[t.root] == None && t.root in t.hops && t.hops[t.root] == 0
  {
  }

  lemma CycleExample()
    ensures Growing(CycleTree(), CycleRank()) && !Acyclic(Update(CycleTree(), CycleRank(), 2, 10, 3).parent)
  {
    var t, rk := CycleTree(), CycleRank();
    CycleTreeGrows();
    hide Growing, Linked, Acyclic, Update, ChildLinks, LeafLinks;
    assert Rooted(t, rk) && Linked(t) by { GrowingBasics(t, rk); }
    CyclePosition();
    UpdateAcyclic(t, rk, 2, 10, 3);
    assert Anc(t.parent, 1, 2) by { assert Anc(t.parent, 1, 1); }
  }

  lemma CyclePosition()
    requires Rooted(CycleTree(), CycleRank())
    ensures Position(CycleTree(), CycleRank(), 2, 10, 3) == Rt(1)
  {
    hide ChildLinks, LeafLinks, CycleTree, CycleRank, Anc;
    var t := CycleTree();
    CyclePath(t);
    RootedBasics(t, CycleRank());
    assert PathPos(t, t.hops[2 := 3], CycleRank(), Rt(1), 3) == Rt(1);
  }

  lemma CyclePath(t: Tree)
    requires t == CycleTree()
    ensures Up(t, Lf(10)) == Some(1) && Up(t, Rt(1)) == Some(0)
    ensures 0 in t.hops && 1 in t.hops && t.hops[2 := 3][1] > 3 >= t.hops[2 := 3][0]
  {
  }

  lemma GrowingBasics(t: Tree, rk: map<Addr, nat>)
    requires Growing(t, rk)
    ensures Rooted(t, rk) && Linked(t) && Fresh(t)
  {
  }
}
