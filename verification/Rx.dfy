// Handling of discovery responses: the sender's records change as module Topology describes.
module Rx {
  import opened Base
  import opened Forest
  import opened Topology
  import opened Nodes
  import Ops = TreeOps

  // The node of receiver `l`'s path above which a router `h` hops away belongs. When everything on the path
  // is too far, there is no parent whose list could be searched, and the program stops at the missing
  // record.
  method GetPathPos(st: Store, l: Addr, h: nat, ghost rk: map<Addr, nat>) returns (c: Option<Cell>)
    requires Linked(st.T()) && Ranked(st.parent, rk) && l in st.home
    ensures var d := PathPos(st.T(), st.hops, rk, Lf(l), h);
            c == if Up(st.T(), d).Some? then Some(d) else None
    ensures c.None? <==> forall a | st.home[l].Some? && a in st.parent && Anc(st.parent, a, st.home[l].value) ::
                           st.hops[a] > h
  {
    hide ChildLinks, LeafLinks, Ranked, Anc;
    ghost var t := st.T();
    var p := st.home[l];
    var n := Lf(l);
    if p.Some? { UpRanked(t, rk, n); }
    while p.Some?
      invariant p == Up(t, n) && (p.Some? ==> p.value in st.parent && p.value in rk)
      invariant PathPos(t, t.hops, rk, n, h) == PathPos(t, t.hops, rk, Lf(l), h)
      invariant p.None? ==> PathPos(t, t.hops, rk, n, h) == n
      decreases if p.Some? then rk[p.value] + 1 else 0
    {
      if st.hops[p.value] <= h { break; }
      UpRanked(t, rk, n);
      n := Rt(p.value);
      p := st.parent[p.value];
      if p.Some? { UpRanked(t, rk, n); }
    }
    c := if p.Some? then Some(n) else None;
    if Up(t, Lf(l)).Some? { PathPosNone(t, t.hops, rk, Lf(l), h); }
  }

  // Moves the node of `c` with everything below it to router `p`.
  method Adopt(st: Store, p: Addr, c: Cell)
    requires Linked(st.T()) && p in st.parent && Up(st.T(), c).Some?
    modifies st
    ensures st.T() == Topology.Adopt(old(st.T()), p, c)
  {
    hide ChildLinks, LeafLinks, Remove;
    UpListed(st.T(), c);
    match c
    case Rt(a) =>
      MovesRouter(st.T(), p, a);
      st.RmRouter(st.parent[a].value, a);
      st.AddRouter(p, a);
    case Lf(l) =>
      MovesLeaf(st.T(), p, l);
      st.RmLeaf(st.home[l].value, l);
      st.AddLeaf(p, l);
  }

  lemma MovesRouter(t: Tree, p: Addr, a: Addr)
    requires Linked(t) && p in t.parent && a in t.parent && t.parent[a].Some?
    ensures var q := t.parent[a].value;
            && q in t.parent && a in t.child[q]
            && var u := Ops.RmRouter(t, q, a);
               Keyed(u) && a in u.parent && p in u.parent && Ops.AddRouter(u, p, a) == Topology.Adopt(t, p, Rt(a))
  {
    hide ChildLinks, LeafLinks, Remove, Distinct, Keyed, Ops.RmRouter, Ops.AddRouter, Topology.Adopt;
    UpListed(t, Rt(a));
    RmKeyed(t, t.parent[a].value, a);
    MovesSame(t, p, a, t.parent[a].value);
  }

  lemma MovesSame(t: Tree, p: Addr, a: Addr, q: Addr)
    requires Linked(t) && p in t.parent && a in t.parent && t.parent[a] == Some(q) && q in t.parent && a in t.child[q]
    requires Keyed(Ops.RmRouter(t, q, a)) && p in Ops.RmRouter(t, q, a).parent
    ensures Ops.AddRouter(Ops.RmRouter(t, q, a), p, a) == Topology.Adopt(t, p, Rt(a))
  {
    hide ChildLinks, LeafLinks, Remove, Distinct, Keyed;
    assert Ops.RmRouter(t, q, a).parent[a := Some(p)] == t.parent[a := Some(p)];
  }

  lemma RmKeyed(t: Tree, q: Addr, a: Addr)
    requires Keyed(t) && q in t.parent && a in t.parent && a in t.child[q]
    ensures Keyed(Ops.RmRouter(t, q, a)) && Ops.RmRouter(t, q, a).parent.Keys == t.parent.Keys
    ensures Keyed(t) && q in t.child
  {
    hide Remove;
  }

  lemma MovesLeaf(t: Tree, p: Addr, l: Addr)
    requires Linked(t) && p in t.parent && l in t.home && t.home[l].Some?
    ensures var q := t.home[l].value;
            && q in t.parent && l in t.leaf[q]
            && var u := Ops.RmLeaf(t, q, l);
               Keyed(u) && l in u.home && Ops.AddLeaf(u, p, l) == Topology.Adopt(t, p, Lf(l))
  {
    hide ChildLinks, LeafLinks, Remove;
    UpListed(t, Lf(l));
    var q := t.home[l].value;
    var u := Ops.RmLeaf(t, q, l);
    assert u.home[l := Some(p)] == t.home[l := Some(p)];
  }

  lemma UpListed(t: Tree, c: Cell)
    requires Linked(t) && Up(t, c).Some?
    ensures Up(t, c).value in t.parent
    ensures match c
            case Rt(a) => a in t.parent && a in t.child[Up(t, c).value] && Distinct(t.child[Up(t, c).value])
            case Lf(l) => l in t.home && l in t.leaf[Up(t, c).value] && Distinct(t.leaf[Up(t, c).value])
  {
  }

  // Creates the router `sa` above the node of `c`, which it adopts.
  method Insert(st: Store, sa: Addr, c: Cell)
    requires Linked(st.T()) && DetachedEmpty(st.T()) && Up(st.T(), c).Some? && Up(st.T(), c).value in st.parent
    requires sa !in st.parent && sa !in st.home
    modifies st
    ensures Linked(Attach(old(st.T()), Up(old(st.T()), c).value, sa, 0))
        && Up(Attach(old(st.T()), Up(old(st.T()), c).value, sa, 0), c).Some?
    ensures st.T() == Topology.Adopt(Attach(old(st.T()), Up(old(st.T()), c).value, sa, 0), sa, c)
  {
    hide ChildLinks, LeafLinks, Topology.Adopt, DetachedEmpty, Keyed, Attach;
    ghost var t := st.T();
    ghost var g := Up(t, c).value;
    Inserting(t, sa, c);
    var gp := match c case Rt(a) => st.parent[a].value case Lf(l) => st.home[l].value;
    st.CreateRouter(sa);
    st.AddRouter(gp, sa);
    Adopt(st, sa, c);
  }

  lemma Inserting(t: Tree, sa: Addr, c: Cell)
    requires Linked(t) && DetachedEmpty(t) && Up(t, c).Some? && Up(t, c).value in t.parent
    requires sa !in t.parent && sa !in t.home
    ensures match c case Rt(a) => a in t.parent case Lf(l) => l in t.home
    ensures var g, u := Up(t, c).value, Ops.NewRouter(t, sa);
            && Keyed(t) && Keyed(u) && g in u.parent && sa in u.parent
            && Ops.AddRouter(u, g, sa) == Attach(t, g, sa, 0) && Linked(Attach(t, g, sa, 0))
            && sa in Attach(t, g, sa, 0).parent && Up(Attach(t, g, sa, 0), c).Some?
  {
    hide ChildLinks, LeafLinks, DetachedEmpty;
    AttachLinked(t, Up(t, c).value, sa, 0);
    UpKnown(t, c);
    NewKeyed(t, sa);
    NewAttach(t, Up(t, c).value, sa);
  }

  lemma NewAttach(t: Tree, g: Addr, sa: Addr)
    requires Keyed(t) && g in t.parent && sa !in t.parent && Keyed(Ops.NewRouter(t, sa))
    ensures g in Ops.NewRouter(t, sa).parent && Ops.AddRouter(Ops.NewRouter(t, sa), g, sa) == Attach(t, g, sa, 0)
  {
    hide Keyed;
    var u := Ops.NewRouter(t, sa);
    assert u.hops[sa := 0] == u.hops;
  }

  // The position does not depend on hop counts outside the receiver's path or on counters and lists.
  lemma {:induction false} PathPosSame(t: Tree, hops: map<Addr, nat>, u: Tree, hops': map<Addr, nat>,
                                       rk: map<Addr, nat>, c: Cell, h: nat)
    requires Linked(t) && Linked(u) && Ranked(t.parent, rk) && u.parent == t.parent && u.home == t.home
    requires t.parent.Keys <= hops.Keys && t.parent.Keys <= hops'.Keys
    requires forall a | a in t.parent :: hops'[a] == hops[a]
    ensures PathPos(u, hops', rk, c, h) == PathPos(t, hops, rk, c, h)
    decreases match Up(t, c) case Some(p) => if p in rk then rk[p] + 1 else 0 case None => 0
  {
    hide ChildLinks, LeafLinks, Ranked;
    match Up(t, c)
    case None =>
    case Some(p) =>
      UpRanked(t, rk, c);
      if hops[p] > h { PathPosSame(t, hops, u, hops', rk, Rt(p), h); }
  }

  lemma UpRanked(t: Tree, rk: map<Addr, nat>, c: Cell)
    requires Linked(t) && Ranked(t.parent, rk) && Up(t, c).Some?
    ensures var p := Up(t, c).value;
            && p in t.parent && p in rk
            && (Up(t, Rt(p)).Some? ==> Up(t, Rt(p)).value in rk && rk[Up(t, Rt(p)).value] < rk[p])
  {
  }

  // A new router is inserted with hop count 0 first; setting the reported one commutes with that.
  lemma LateHops(t: Tree, g: Addr, r: Addr, h: nat, c: Cell)
    requires Linked(t) && DetachedEmpty(t) && g in t.parent && r !in t.parent && r !in t.home && Up(t, c).Some?
    ensures var a, b := Attach(t, g, r, 0), Attach(t, g, r, h);
            && Linked(a) && Linked(b) && r in a.parent && r in b.parent && Up(a, c).Some? && Up(b, c).Some?
            && Ops.SetHops(Topology.Adopt(a, r, c), r, h) == Topology.Adopt(b, r, c)
  {
    hide ChildLinks, LeafLinks, DetachedEmpty, Attach, Topology.Adopt;
    AttachLinked(t, g, r, 0);
    AttachLinked(t, g, r, h);
    LateAttach(t, g, r, h);
    UpKnown(t, c);
    LateAdopt(Attach(t, g, r, 0), r, h, c);
  }

  lemma LateAdopt(a: Tree, r: Addr, h: nat, c: Cell)
    requires Linked(a) && Linked(Ops.SetHops(a, r, h)) && r in a.parent && Up(a, c).Some?
    ensures Up(Ops.SetHops(a, r, h), c).Some?
    ensures Ops.SetHops(Topology.Adopt(a, r, c), r, h) == Topology.Adopt(Ops.SetHops(a, r, h), r, c)
  {
    hide ChildLinks, LeafLinks, Remove, Keyed;
    UpListed(a, c);
    KeyedLists(a);
  }

  lemma LateAttach(t: Tree, g: Addr, r: Addr, h: nat)
    requires Keyed(t) && g in t.parent && r !in t.parent
    ensures Ops.SetHops(Attach(t, g, r, 0), r, h) == Attach(t, g, r, h)
  {
    hide Keyed;
  }

  lemma NewPosition(t: Tree, rk: map<Addr, nat>, r: Addr, l: Addr, h: nat)
    requires Steady(t, rk) && l in t.home && r !in t.parent && r !in t.home
    ensures Position(t, rk, r, l, h) == PathPos(t, t.hops, rk, Lf(l), h) && r != t.root
    ensures HasPosition(t, rk, r, l, h) ==>
              var c := PathPos(t, t.hops, rk, Lf(l), h);
              && Up(t, c).Some? && Up(t, c).value in t.parent
              && Linked(Attach(t, Up(t, c).value, r, 0)) && Up(Attach(t, Up(t, c).value, r, 0), c).Some?
              && r in Attach(t, Up(t, c).value, r, 0).parent
              && Ops.SetHops(Topology.Adopt(Attach(t, Up(t, c).value, r, 0), r, c), r, h) == Respond(t, rk, r, l, h)
  {
    hide ChildLinks, LeafLinks, Ranked, PathPos, Attach, Topology.Adopt;
    PathPosSame(t, t.hops, t, t.hops[r := h], rk, Lf(l), h);
    if HasPosition(t, rk, r, l, h) {
      RespondReady(t, rk, r, l, h);
      var c := Position(t, rk, r, l, h);
      LateHops(t, Up(t, c).value, r, h, c);
    }
  }

  lemma KnownPosition(t: Tree, rk: map<Addr, nat>, r: Addr, l: Addr, h: nat)
    requires Steady(t, rk) && l in t.home && r in t.parent && r !in t.home
    ensures var u := Ops.SetHops(t, r, h);
            && Linked(u) && Ranked(u.parent, rk) && Position(t, rk, r, l, h) == PathPos(u, u.hops, rk, Lf(l), h)
    ensures var u, c := Ops.SetHops(t, r, h), Position(t, rk, r, l, h);
            && Up(u, c) == Up(t, c) && (HasPosition(t, rk, r, l, h) ==> Up(t, c).Some? && Up(t, c).value in t.parent)
    ensures t.parent[r].None? && r != t.root ==> t.child[r] == [] && t.leaf[r] == []
  {
    hide ChildLinks, LeafLinks, Ranked, PathPos;
    HopsKeyed(t, r, h);
    PathPosSame(t, t.hops[r := h], Ops.SetHops(t, r, h), t.hops[r := h], rk, Lf(l), h);
    if HasPosition(t, rk, r, l, h) { RespondReady(t, rk, r, l, h); }
  }

  // After the hop count is set, a router outside the tree is attached and then takes over the node. The
  // sender's own record is never taken for one, as it has children or receivers.
  lemma KnownUpdate(t: Tree, rk: map<Addr, nat>, r: Addr, l: Addr, h: nat)
    requires Steady(t, rk) && l in t.home && r in t.parent && r !in t.home && HasPosition(t, rk, r, l, h)
    ensures var c := Position(t, rk, r, l, h);
            && Up(t, c).Some? && Up(t, c).value in t.parent && Keyed(Ops.SetHops(t, r, h))
            && Prepared(t, Up(t, c).value, r, h) ==
                 (if t.parent[r].None? && r != t.root then Ops.AddRouter(Ops.SetHops(t, r, h), Up(t, c).value, r)
                  else Ops.SetHops(t, r, h))
            && Linked(Prepared(t, Up(t, c).value, r, h)) && Up(Prepared(t, Up(t, c).value, r, h), c).Some?
            && r in Prepared(t, Up(t, c).value, r, h).parent
            && Respond(t, rk, r, l, h) == Topology.Adopt(Prepared(t, Up(t, c).value, r, h), r, c)
    ensures r == t.root ==> t.child[r] != [] || t.leaf[r] != []
  {
    hide ChildLinks, LeafLinks, Ranked, Position, Topology.Adopt, Prepared, Keyed, DetachedEmpty;
    RespondReady(t, rk, r, l, h);
    HopsKeyed(t, r, h);
    PreparedKnown(t, Up(t, Position(t, rk, r, l, h)).value, r, h);
    SpotFacts(t, rk, r, l, h);
    RootHolds(t, rk, l);
  }

  lemma PreparedKnown(t: Tree, g: Addr, r: Addr, h: nat)
    requires Keyed(t) && g in t.parent && r in t.parent && Keyed(Ops.SetHops(t, r, h))
    ensures Prepared(t, g, r, h) ==
            if t.parent[r].None? && r != t.root then Ops.AddRouter(Ops.SetHops(t, r, h), g, r)
            else Ops.SetHops(t, r, h)
  {
  }

  lemma RootHolds(t: Tree, rk: map<Addr, nat>, l: Addr)
    requires Steady(t, rk) && l in t.home && t.home[l].Some?
    ensures t.child[t.root] != [] || t.leaf[t.root] != []
  {
    var p := t.home[l].value;
    assert l in t.leaf[p];
    if p != t.root {
      RootParent(t, rk, p);
    }
  }

  lemma {:induction false} RootParent(t: Tree, rk: map<Addr, nat>, a: Addr)
    requires Steady(t, rk) && Attached(t, a) && a != t.root
    ensures t.child[t.root] != []
    decreases rk[a]
  {
    var p := t.parent[a].value;
    assert a in t.child[p];
    if p != t.root {
      RootParent(t, rk, p);
    }
  }

  // Handles the report that router `rsa` is `hops` hops away on the path to `paddr`. Reports for
  // unknown receivers, and reports from a receiver's own address, are refused. Without a result the program
  // has stopped.
  method UpdateTopo(st: Store, rsa: Addr, paddr: Addr, hops: nat, n: nat,
                    ghost rk: map<Addr, nat>) returns (ret: Option<int>, n': nat)
    requires Steady(st.T(), rk)
    modifies st
    ensures if paddr !in old(st.home) || rsa in old(st.home) then
              ret == Some(-1) && st.T() == old(st.T()) && n' == n
            else if HasPosition(old(st.T()), rk, rsa, paddr, hops) then
              && ret == Some(0) && st.T() == Respond(old(st.T()), rk, rsa, paddr, hops)
              && n' == n + (if Attached(old(st.T()), rsa) then 0 else 1)
            else ret == None
  {
    hide ChildLinks, LeafLinks, DetachedEmpty, Topology.Adopt, Attach, Position, PathPos, Respond, Anc, HasPosition;
    ret, n' := Some(-1), n;
    if paddr !in st.home { return; }
    if rsa !in st.parent && rsa !in st.home {
      NewPosition(st.T(), rk, rsa, paddr, hops);
      FoundIs(st.T(), rk, rsa, paddr, hops);
      var c := GetPathPos(st, paddr, hops, rk);
      if c.None? { return None, n; }
      Insert(st, rsa, c.value);
      st.hops := st.hops[rsa := hops];
      ret, n' := Some(0), n + 1;
    } else {
      if rsa in st.home { return; }
      ret, n' := UpdateRouter(st, rsa, paddr, hops, n, rk);
    }
  }

  lemma FoundIs(t: Tree, rk: map<Addr, nat>, r: Addr, l: Addr, h: nat)
    requires Linked(t) && Ranked(t.parent, rk)
    ensures HasPosition(t, rk, r, l, h) <==> Up(t, Position(t, rk, r, l, h)).Some?
  {
  }

  // The part for routers that are known already.
  method UpdateRouter(st: Store, rsa: Addr, paddr: Addr, hops: nat, n: nat, ghost rk: map<Addr, nat>)
    returns (ret: Option<int>, n': nat)
    requires Steady(st.T(), rk) && paddr in st.home && rsa in st.parent && rsa !in st.home
    modifies st
    ensures if HasPosition(old(st.T()), rk, rsa, paddr, hops) then
              && ret == Some(0) && st.T() == Respond(old(st.T()), rk, rsa, paddr, hops)
              && n' == n + (if Attached(old(st.T()), rsa) then 0 else 1)
            else ret == None
  {
    hide ChildLinks, LeafLinks, DetachedEmpty, Topology.Adopt, Attach, Position, PathPos, Respond, Anc, HasPosition;
    ghost var t := st.T();
    KnownPosition(t, rk, rsa, paddr, hops);
    FoundIs(t, rk, rsa, paddr, hops);
    if HasPosition(t, rk, rsa, paddr, hops) { KnownUpdate(t, rk, rsa, paddr, hops); }
    n' := n;
    st.hops := st.hops[rsa := hops];
    var c := GetPathPos(st, paddr, hops, rk);
    if c.None? { return None, n; }
    if st.parent[rsa].None? && |st.leaf[rsa]| == 0 && |st.child[rsa]| == 0 {
      var g := match c.value case Rt(a) => st.parent[a] case Lf(l) => st.home[l];
      st.AddRouter(g.value, rsa);
      n' := n + 1;
    }
    Adopt(st, rsa, c.value);
    ret := Some(0);
  }
}
