// The real network and what discovery tells the sender about it. The MEADcast routers between the
// sender and the receivers form a tree; the sender's tree is compared with it.
module Network {
  import opened Base
  import opened Forest
  import opened Topology
  import Reduction
  import Reset

  // The true routing tree: `up` leads from a router to the router before it on the route from the
  // sender `root`, `depth` counts MEADcast routers on that route, and `at` is the last router on the
  // route to a receiver, or the sender.
  datatype Net = Net(root: Addr, up: map<Addr, Option<Addr>>, depth: map<Addr, nat>, at: map<Addr, Addr>)

  ghost predicate NetOk(net: Net) {
    && net.root in net.up && net.up[net.root] == None && net.depth.Keys == net.up.Keys && net.depth[net.root] == 0
    && (forall a {:trigger net.up[a]} | a in net.up && a != net.root :: net.up[a].Some?)
    && (forall a {:trigger net.up[a]} | a in net.up && net.up[a].Some? ::
          net.up[a].value in net.up && net.depth[a] == net.depth[net.up[a].value] + 1)
    && (forall l | l in net.at :: net.at[l] in net.up)
    && net.at.Keys !! net.up.Keys
  }

  // Router `a` lies on the route to receiver `l`.
  ghost predicate OnRoute(net: Net, a: Addr, l: Addr) {
    a in net.up && l in net.at && Anc(net.up, a, net.at[l])
  }

  lemma {:induction false} UpTrans(net: Net, a: Addr, b: Addr, c: Addr)
    requires NetOk(net) && c in net.up && Anc(net.up, a, b) && Anc(net.up, b, c)
    ensures Anc(net.up, a, c)
    decreases net.depth[c]
  {
    if b != c {
      UpTrans(net, a, b, net.up[c].value);
    }
  }

  lemma {:induction false} UpDepth(net: Net, a: Addr, b: Addr)
    requires NetOk(net) && b in net.up && Anc(net.up, a, b)
    ensures a in net.up && net.depth[a] <= net.depth[b] && (net.depth[a] == net.depth[b] ==> a == b)
    decreases net.depth[b]
  {
    if a != b {
      UpDepth(net, a, net.up[b].value);
    }
  }

  // Of two routers on one route, the one closer to the sender is above the other.
  lemma {:induction false} UpCompare(net: Net, a: Addr, b: Addr, c: Addr)
    requires NetOk(net) && a in net.up && c in net.up && Anc(net.up, a, c) && Anc(net.up, b, c)
    requires b in net.up && net.depth[a] <= net.depth[b]
    ensures Anc(net.up, a, b)
    decreases net.depth[c]
  {
    if b != c {
      if a == c {
        UpDepth(net, b, c);
      } else {
        UpCompare(net, a, b, net.up[c].value);
      }
    }
  }

  lemma {:induction false} UpRoot(net: Net, a: Addr)
    requires NetOk(net) && a in net.up
    ensures Anc(net.up, net.root, a)
    decreases net.depth[a]
  {
    if a != net.root {
      UpRoot(net, net.up[a].value);
    }
  }

  // A response that the network really gives: router `r` lies on the route to `l`, and the hop count
  // is its distance.
  ghost predicate Genuine(net: Net, r: Addr, l: Addr, h: nat) {
    OnRoute(net, r, l) && r != net.root && r in net.depth && net.depth[r] == h
  }

  // Everything the sender believes is true, though it may believe little.
  ghost predicate Sound(net: Net, t: Tree)
    requires Keyed(t)
  {
    && t.root == net.root && t.hops[t.root] == 0
    && (forall a | a in t.parent && t.parent[a].Some? :: SoundEdge(net, t.hops, t.parent[a].value, a))
    && (forall l | l in t.home && t.home[l].Some? :: OnRoute(net, t.home[l].value, l))
    && t.parent.Keys !! net.at.Keys
  }

  // The parent `p` is a true ancestor of `a`, and the hop count of `a` is right.
  ghost predicate SoundEdge(net: Net, hops: map<Addr, nat>, p: Addr, a: Addr) {
    a in net.up && p in net.up && a != p && Anc(net.up, p, a) && a in hops && a in net.depth && hops[a] == net.depth[a]
  }

  // Hop counts of attached routers are true.
  lemma SoundHops(net: Net, t: Tree, a: Addr)
    requires NetOk(net) && Keyed(t) && Sound(net, t) && Attached(t, a)
    ensures a in t.parent && a in t.hops && a in net.up && t.hops[a] == net.depth[a]
  {
  }

  // Ancestors in the sender's tree are true ancestors.
  lemma {:induction false} SoundAnc(net: Net, t: Tree, rk: map<Addr, nat>, a: Addr, b: Addr)
    requires NetOk(net) && Steady(t, rk) && Sound(net, t) && Attached(t, b) && Anc(t.parent, a, b)
    ensures Attached(t, a) && Anc(net.up, a, b)
    decreases rk[b]
  {
    if a != b {
      var p := t.parent[b].value;
      SoundUp(net, t, rk, b);
      SoundAnc(net, t, rk, a, p);
      UpTrans(net, a, p, b);
    }
  }

  lemma SoundUp(net: Net, t: Tree, rk: map<Addr, nat>, b: Addr)
    requires NetOk(net) && Steady(t, rk) && Sound(net, t) && b in t.parent && t.parent[b].Some?
    ensures var p := t.parent[b].value;
            p in t.parent && Attached(t, p) && rk[p] < rk[b] && Anc(net.up, p, b) && b in net.up && p in net.up
  {
    var p := t.parent[b].value;
    assert SoundEdge(net, t.hops, p, b);
    assert b in t.child[p];
  }

  // Rising depth makes hop counts strict, as merging needs it.
  lemma SoundStrict(net: Net, t: Tree, rk: map<Addr, nat>)
    requires NetOk(net) && Steady(t, rk) && Sound(net, t)
    ensures Strict(t)
  {
    hide ChildLinks, LeafLinks, Anc;
    forall a | a in t.parent && t.parent[a].Some? && t.parent[a].value in t.parent
      ensures t.hops[t.parent[a].value] < t.hops[a]
    {
      SoundUp(net, t, rk, a);
      SoundHops(net, t, t.parent[a].value);
      assert SoundEdge(net, t.hops, t.parent[a].value, a);
      UpDepth(net, t.parent[a].value, a);
    }
  }

  // What a genuine response finds in a sound tree: the point `g`, `c` of the receiver's path where
  // the reported router belongs is also its place on the true route.
  lemma GenuinePlace(net: Net, t: Tree, rk: map<Addr, nat>, r: Addr, l: Addr, h: nat)
    requires NetOk(net) && Rooted(t, rk) && Sound(net, t) && l in t.home && Genuine(net, r, l, h)
    ensures r != t.root && r !in t.home && h >= 1 && SameHops(t, r, h)
    ensures var c := Position(t, rk, r, l, h);
            && Up(t, c).Some? && Up(t, c).value in net.up && Anc(net.up, Up(t, c).value, r)
            && ((r in t.parent && t.parent[r].Some?) || Up(t, c).value != r)
            && (c == Lf(l) || (c.Rt? && c.a != r && c.a in t.parent && t.parent[c.a].Some? && Anc(net.up, r, c.a)))
  {
    hide ChildLinks, LeafLinks, Anc, Position, DetachedEmpty, Ranked;
    GenuineBasics(net, t, rk, r, l, h);
    PositionFacts(t, rk, r, l, h);
    var c := Position(t, rk, r, l, h);
    var g, q := Up(t, c).value, t.home[l].value;
    HomeAttached(t, rk, l);
    SoundAnc(net, t, rk, g, q);
    UpTrans(net, g, q, net.at[l]);
    SoundHops(net, t, g);
    if g != r { UpCompare(net, g, r, net.at[l]); } else { AncItself(net, r); }
    if c.Rt? {
      SoundAnc(net, t, rk, c.a, q);
      UpTrans(net, c.a, q, net.at[l]);
      SoundHops(net, t, c.a);
      UpCompare(net, r, c.a, net.at[l]);
    }
  }

  lemma AncItself(net: Net, r: Addr)
    ensures Anc(net.up, r, r)
  {
  }

  lemma HomeAttached(t: Tree, rk: map<Addr, nat>, l: Addr)
    requires Rooted(t, rk) && l in t.home
    ensures t.home[l].Some? && Attached(t, t.home[l].value)
  {
    assert l in t.leaf[t.home[l].value];
  }

  lemma GenuineBasics(net: Net, t: Tree, rk: map<Addr, nat>, r: Addr, l: Addr, h: nat)
    requires NetOk(net) && Rooted(t, rk) && Sound(net, t) && l in t.home && Genuine(net, r, l, h)
    ensures r != t.root && r !in t.home && h >= 1 && SameHops(t, r, h) && r in net.up && l in net.at
    ensures t.home[l].Some? && OnRoute(net, t.home[l].value, l)
  {
    hide ChildLinks, LeafLinks, Anc, Ranked;
    HomesInNet(net, t);
  }

  lemma HomesInNet(net: Net, t: Tree)
    requires Keyed(t) && AllHomed(t) && Sound(net, t)
    ensures t.home.Keys <= net.at.Keys
  {
    forall l | l in t.home ensures l in net.at {
      assert t.home[l].Some?;
    }
  }

  // Soundness: whatever the order of genuine responses, with repetitions, every believed link is true.
  lemma UpdateSound(net: Net, t: Tree, rk: map<Addr, nat>, r: Addr, l: Addr, h: nat)
    requires NetOk(net) && Growing(t, rk) && Sound(net, t) && l in t.home && Genuine(net, r, l, h)
    ensures r != t.root && r !in t.home && h >= 1 && SameHops(t, r, h)
    ensures Keyed(Update(t, rk, r, l, h)) && Sound(net, Update(t, rk, r, l, h))
    ensures Growing(Update(t, rk, r, l, h), UpdateRank(t, rk, r, l, h))
  {
    hide ChildLinks, LeafLinks, Position, Update, UpdateRank, Anc, DetachedEmpty, Ranked, HopsUp, Fresh, AllHomed,
         ParentAfter, Sound;
    GrowingBasics(t, rk);
    GenuinePlace(net, t, rk, r, l, h);
    UpdateKeeps(t, rk, r, l, h);
    UpdateLinks(t, rk, r, l, h);
    var c := Position(t, rk, r, l, h);
    SoundAfter(net, t, rk, r, l, h, Up(t, c).value, c, Update(t, rk, r, l, h));
  }

  lemma SoundAfter(net: Net, t: Tree, rk: map<Addr, nat>, r: Addr, l: Addr, h: nat, g: Addr, c: Cell, t': Tree)
    requires NetOk(net) && Rooted(t, rk) && Keyed(t) && Sound(net, t) && l in t.home && Genuine(net, r, l, h)
        && SameHops(t, r, h)
    requires g in net.up && Anc(net.up, g, r) && ((r in t.parent && t.parent[r].Some?) || g != r)
    requires c == Lf(l) || (c.Rt? && c.a != r && c.a in t.parent && t.parent[c.a].Some? && Anc(net.up, r, c.a))
    requires Keyed(t') && t'.root == t.root && t'.parent == ParentAfter(t.parent, g, r, c)
    requires t'.home == (if c.Lf? then t.home[l := Some(r)] else t.home) && t'.hops == t.hops[r := h]
    ensures Sound(net, t')
  {
    hide ChildLinks, LeafLinks, Anc, DetachedEmpty, Ranked, Sound, SoundEdge, ParentAfter;
    SoundRoot(net, t);
    HomesInNet(net, t);
    forall a | a in t'.parent && t'.parent[a].Some? ensures SoundEdge(net, t'.hops, t'.parent[a].value, a) {
      EdgeAfter(net, t, r, h, g, c, t', a);
    }
    forall x | x in t'.home && t'.home[x].Some? ensures OnRoute(net, t'.home[x].value, x) {
      SoundAt(net, t, x);
    }
    AfterKeys(t.parent, g, r, c);
    assert r !in net.at by { OnlyRouter(net, r); }
    SoundIs(net, t');
  }

  lemma OnlyRouter(net: Net, r: Addr)
    requires NetOk(net) && r in net.up
    ensures r !in net.at
  {
  }

  lemma AfterKeys(parent: map<Addr, Option<Addr>>, g: Addr, r: Addr, c: Cell)
    ensures ParentAfter(parent, g, r, c).Keys <= parent.Keys + {r} + (if c.Rt? then {c.a} else {})
  {
  }

  lemma SoundAt(net: Net, t: Tree, x: Addr)
    requires Keyed(t) && Sound(net, t) && x in t.home && t.home[x].Some?
    ensures OnRoute(net, t.home[x].value, x) && t.root == net.root && t.hops[t.root] == 0
  {
    hide OnRoute, SoundEdge;
  }

  lemma EdgeAfter(net: Net, t: Tree, r: Addr, h: nat, g: Addr, c: Cell, t': Tree, a: Addr)
    requires NetOk(net) && Keyed(t) && Sound(net, t) && r in net.up && r != net.root && r in net.depth
        && net.depth[r] == h && SameHops(t, r, h)
    requires g in net.up && Anc(net.up, g, r) && ((r in t.parent && t.parent[r].Some?) || g != r)
    requires c.Rt? ==> c.a != r && c.a in t.parent && t.parent[c.a].Some? && Anc(net.up, r, c.a)
    requires Keyed(t') && t'.parent == ParentAfter(t.parent, g, r, c) && t'.hops == t.hops[r := h]
        && a in t'.parent && t'.parent[a].Some?
    ensures SoundEdge(net, t'.hops, t'.parent[a].value, a)
  {
    hide Anc;
    if a in t.parent && t.parent[a].Some? {
      assert SoundEdge(net, t.hops, t.parent[a].value, a);
    }
  }

  // Reduction removes routers but leaves every remaining link true.
  lemma SoundShrunk(net: Net, t0: Tree, t: Tree, rk: map<Addr, nat>)
    requires NetOk(net) && Reduction.Whole(t0, rk) && Reduction.Whole(t, rk) && Keyed(t0) && Keyed(t)
    requires Sound(net, t0) && Reduction.Shrunk(t0, t)
    ensures Sound(net, t)
  {
    hide ChildLinks, LeafLinks, Anc, Reduction.Whole, Ranked, Sound;
    Reduction.WholeBasics(t0, rk);
    Reduction.WholeBasics(t, rk);
    ShrunkKeys(net, t0, t);
    forall a | a in t.parent && t.parent[a].Some? ensures SoundEdge(net, t.hops, t.parent[a].value, a) {
      ShrunkEdge(net, t0, t, rk, a);
    }
    forall l | l in t.home && t.home[l].Some? ensures OnRoute(net, t.home[l].value, l) {
      ShrunkHome(net, t0, t, rk, l);
    }
    SoundIs(net, t);
  }

  lemma SoundIs(net: Net, t: Tree)
    requires Keyed(t) && t.root == net.root && t.hops[t.root] == 0 && t.parent.Keys !! net.at.Keys
    requires forall a | a in t.parent && t.parent[a].Some? :: SoundEdge(net, t.hops, t.parent[a].value, a)
    requires forall l | l in t.home && t.home[l].Some? :: OnRoute(net, t.home[l].value, l)
    ensures Sound(net, t)
  {
  }

  lemma ShrunkKeys(net: Net, t0: Tree, t: Tree)
    requires Keyed(t0) && Keyed(t) && Sound(net, t0) && Reduction.Shrunk(t0, t)
    ensures t.root == net.root && t.hops[t.root] == 0 && t.parent.Keys !! net.at.Keys && t.parent.Keys <= t0.parent.Keys
  {
    hide Anc;
  }

  lemma ShrunkEdge(net: Net, t0: Tree, t: Tree, rk: map<Addr, nat>, a: Addr)
    requires NetOk(net) && Steady(t0, rk) && Steady(t, rk) && Keyed(t0) && Keyed(t)
    requires Sound(net, t0) && Reduction.Shrunk(t0, t) && a in t.parent && t.parent[a].Some?
    ensures SoundEdge(net, t.hops, t.parent[a].value, a)
  {
    hide LeafLinks, Sound, Ranked, Reduction.Shrunk;
    var p := t.parent[a].value;
    assert a in t.child[p];
    Reduction.AncSelf(t, p);
    assert Anc(t.parent, p, a);
    Reduction.ShrunkAnc(t0, t, p, a);
    Reduction.ShrunkAnc(t0, t, p, p);
    hide Anc;
    SoundAnc(net, t0, rk, p, a);
    SoundHops(net, t0, a);
    SoundHops(net, t0, p);
    Reduction.RankBelow(t, rk, a);
  }

  lemma ShrunkHome(net: Net, t0: Tree, t: Tree, rk: map<Addr, nat>, l: Addr)
    requires NetOk(net) && Steady(t0, rk) && AllHomed(t0) && Keyed(t0) && Keyed(t)
    requires Sound(net, t0) && Reduction.Shrunk(t0, t) && l in t.home && t.home[l].Some?
    ensures OnRoute(net, t.home[l].value, l)
  {
    hide Ranked, Anc;
    var q := t0.home[l].value;
    assert OnRoute(net, q, l) && l in t0.leaf[q] && Attached(t0, q);
    SoundAnc(net, t0, rk, t.home[l].value, q);
    SoundHops(net, t0, t.home[l].value);
    UpTrans(net, t.home[l].value, q, net.at[l]);
  }

  // Reset leaves the sender knowing nothing but which receivers there are.
  lemma SoundRestart(net: Net, t0: Tree, t: Tree)
    requires NetOk(net) && Keyed(t0) && Keyed(t) && Linked(t) && Sound(net, t0) && AllHomed(t0)
        && Reset.Restarted(t0, t) && t.hops[t.root] == 0
    ensures Sound(net, t)
  {
    hide ChildLinks, LeafLinks, Anc, Sound, NetOk;
    HomesInNet(net, t0);
    SoundRoot(net, t0);
    forall l | l in t.home && t.home[l].Some? ensures OnRoute(net, t.home[l].value, l) {
      RestartHome(net, t0, t, l);
    }
    SoundIs(net, t);
  }

  lemma SoundRoot(net: Net, t: Tree)
    requires Keyed(t) && Sound(net, t)
    ensures t.root == net.root && t.parent.Keys !! net.at.Keys
  {
  }

  lemma RestartHome(net: Net, t0: Tree, t: Tree, l: Addr)
    requires NetOk(net) && Keyed(t) && Linked(t) && Reset.Restarted(t0, t) && t.root == net.root
    requires l in t.home && l in net.at && t.home[l].Some?
    ensures OnRoute(net, t.home[l].value, l)
  {
    hide ChildLinks, Anc;
    assert l in t.leaf[t.home[l].value];
    UpRoot(net, net.at[l]);
  }

  // The router at distance `k` on the route to router `x`.
  ghost function At(net: Net, x: Addr, k: nat): Addr
    requires NetOk(net) && x in net.up
    decreases net.depth[x]
  {
    if net.depth[x] <= k then x else At(net, net.up[x].value, k)
  }

  lemma {:induction false} AtOnRoute(net: Net, x: Addr, k: nat)
    requires NetOk(net) && x in net.up && k <= net.depth[x]
    ensures var a := At(net, x, k);
            a in net.up && net.depth[a] == k && Anc(net.up, a, x)
    decreases net.depth[x]
  {
    if net.depth[x] > k {
      AtOnRoute(net, net.up[x].value, k);
    }
  }

  lemma AtIs(net: Net, x: Addr, a: Addr)
    requires NetOk(net) && x in net.up && Anc(net.up, a, x)
    ensures a in net.up && net.depth[a] <= net.depth[x] && At(net, x, net.depth[a]) == a
  {
    UpDepth(net, a, x);
    AtOnRoute(net, x, net.depth[a]);
    UpCompare(net, At(net, x, net.depth[a]), a, x);
    UpDepth(net, At(net, x, net.depth[a]), a);
  }

  // Router `a` has been reported for some receiver, when the first `known[l]` routers on the route
  // to each receiver `l` have been.
  ghost predicate Reported(net: Net, known: map<Addr, nat>, a: Addr) {
    a in net.up && a != net.root && exists l :: ReportedFor(net, known, a, l)
  }

  ghost predicate ReportedFor(net: Net, known: map<Addr, nat>, a: Addr, l: Addr) {
    l in known && OnRoute(net, a, l) && a in net.depth && net.depth[a] <= known[l]
  }

  // The sender's tree is exactly the union of the reported routes.
  ghost predicate Complete(net: Net, t: Tree, known: map<Addr, nat>)
    requires NetOk(net) && Keyed(t)
  {
    && known.Keys == t.home.Keys && t.root == net.root
    && (forall l | l in known ::
          l in net.at && known[l] <= net.depth[net.at[l]] && t.home[l] == Some(At(net, net.at[l], known[l])))
    && (forall a | a in t.parent && t.parent[a].Some? ::
          a in net.up && t.parent[a] == net.up[a] && Reported(net, known, a))
    && (forall a | Reported(net, known, a) :: a in t.parent && t.parent[a].Some?)
  }

  // The next report for receiver `l` is of the next router on its route, or repeats an earlier one.
  ghost predicate Rising(net: Net, known: map<Addr, nat>, r: Addr, l: Addr, h: nat) {
    Genuine(net, r, l, h) && l in known && h <= known[l] + 1
  }

  ghost function Learn(known: map<Addr, nat>, l: Addr, h: nat): map<Addr, nat>
    requires l in known
  {
    if h > known[l] then known[l := h] else known
  }

  lemma NetAt(net: Net, l: Addr)
    requires NetOk(net) && l in net.at
    ensures net.at[l] in net.up
  {
  }

  // The first report of a router further down the route: the receiver moves from the router before.
  lemma NextPlace(net: Net, t: Tree, rk: map<Addr, nat>, known: map<Addr, nat>, r: Addr, l: Addr, h: nat)
    requires NetOk(net) && Rooted(t, rk) && Keyed(t) && Sound(net, t) && Complete(net, t, known) && l in t.home
    requires Rising(net, known, r, l, h) && h == known[l] + 1
    ensures r in net.up && l in net.at
    ensures Position(t, rk, r, l, h) == Lf(l) && Up(t, Lf(l)) == net.up[r]
  {
    hide ChildLinks, LeafLinks, Anc, Ranked, DetachedEmpty, Sound, Complete, Keyed, AllHomed, NetOk;
    NetAt(net, l);
    UpStep(net, r, net.at[l]);
    var q := net.up[r].value;
    AtIs(net, net.at[l], q);
    CompleteHome(net, t, known, l);
    HomeAttached(t, rk, l);
    SoundHops(net, t, q);
    HomeFirst(t, rk, r, l, h, q);
  }

  lemma CompleteHome(net: Net, t: Tree, known: map<Addr, nat>, l: Addr)
    requires NetOk(net) && Keyed(t) && Complete(net, t, known) && l in t.home
    ensures l in known && l in net.at && net.at[l] in net.up && known[l] <= net.depth[net.at[l]]
    ensures t.home[l] == Some(At(net, net.at[l], known[l]))
  {
    hide Anc;
  }

  lemma HomeFirst(t: Tree, rk: map<Addr, nat>, r: Addr, l: Addr, h: nat, q: Addr)
    requires Rooted(t, rk) && l in t.home && t.home[l] == Some(q) && q in t.hops && q != r && t.hops[q] <= h
    ensures Position(t, rk, r, l, h) == Lf(l)
  {
    hide ChildLinks, LeafLinks, DetachedEmpty, AllHomed;
  }

  lemma UpStep(net: Net, r: Addr, x: Addr)
    requires NetOk(net) && x in net.up && r in net.up && r != net.root && Anc(net.up, r, x)
    ensures net.up[r].Some? && net.up[r].value in net.up && net.depth[net.up[r].value] + 1 == net.depth[r]
    ensures Anc(net.up, net.up[r].value, x)
  {
    AncItself(net, net.up[r].value);
    UpTrans(net, net.up[r].value, r, x);
  }

  // A repeated report finds its router where it was put before.
  lemma KnownPlace(net: Net, t: Tree, rk: map<Addr, nat>, known: map<Addr, nat>, r: Addr, l: Addr, h: nat)
    requires NetOk(net) && Rooted(t, rk) && Keyed(t) && Sound(net, t) && Complete(net, t, known) && l in t.home
    requires Rising(net, known, r, l, h) && h <= known[l]
    ensures Up(t, Position(t, rk, r, l, h)) == Some(r) && r in t.parent && t.parent[r].Some?
  {
    hide ChildLinks, LeafLinks, Anc, Ranked, DetachedEmpty, Sound, Complete, Keyed, AllHomed;
    CompleteHome(net, t, known, l);
    var q := t.home[l].value;
    CompleteReported(net, t, known, r, l);
    AtOnRoute(net, net.at[l], known[l]);
    UpCompare(net, r, q, net.at[l]);
    HomeAttached(t, rk, l);
    SoundHops(net, t, q);
    if known[l] == h {
      UpDepth(net, r, q);
    } else {
      KnownAbove(net, t, rk, known, r, q, h);
    }
  }

  lemma CompleteReported(net: Net, t: Tree, known: map<Addr, nat>, r: Addr, l: Addr)
    requires NetOk(net) && Keyed(t) && Complete(net, t, known) && ReportedFor(net, known, r, l) && r != net.root
    ensures r in t.parent && t.parent[r].Some?
  {
    hide Anc;
    assert Reported(net, known, r);
  }

  lemma {:induction false} KnownAbove(net: Net, t: Tree, rk: map<Addr, nat>, known: map<Addr, nat>, r: Addr, x: Addr,
                                      h: nat)
    requires NetOk(net) && Rooted(t, rk) && Keyed(t) && Sound(net, t) && Complete(net, t, known)
    requires Attached(t, x) && Anc(net.up, r, x) && r in net.depth && net.depth[r] == h && h < net.depth[x]
        && r != net.root
    ensures x in net.up
    ensures Up(t, PathPos(t, t.hops[r := h], rk, Rt(x), h)) == Some(r)
    decreases rk[x]
  {
    hide ChildLinks, LeafLinks, DetachedEmpty;
    SoundHops(net, t, x);
    SoundUp(net, t, rk, x);
    var p := t.parent[x].value;
    SoundHops(net, t, p);
    if p != r {
      UpDepth(net, r, p);
      KnownAbove(net, t, rk, known, r, p, h);
    }
  }

  lemma LearnReported(net: Net, known: map<Addr, nat>, r: Addr, l: Addr, h: nat, a: Addr)
    requires NetOk(net) && Rising(net, known, r, l, h) && h == known[l] + 1
    ensures Reported(net, known[l := h], a) <==> Reported(net, known, a) || a == r
  {
    hide Anc, NetOk;
    if Reported(net, known, a) {
      var x :| ReportedFor(net, known, a, x);
      assert ReportedFor(net, known[l := h], a, x);
    }
    if a == r {
      assert ReportedFor(net, known[l := h], r, l);
    }
    if Reported(net, known[l := h], a) {
      var x :| ReportedFor(net, known[l := h], a, x);
      if x == l && net.depth[a] > known[l] {
        NetAt(net, l);
        AtIs(net, net.at[l], a);
        AtIs(net, net.at[l], r);
      } else {
        assert ReportedFor(net, known, a, x);
      }
    }
  }

  lemma LearnNew(net: Net, t: Tree, known: map<Addr, nat>, r: Addr, l: Addr, h: nat, t': Tree)
    requires NetOk(net) && Keyed(t) && Keyed(t') && Complete(net, t, known) && l in t.home
    requires Rising(net, known, r, l, h) && h == known[l] + 1 && r in net.up && net.up[r].Some?
    requires t'.root == t.root && t'.parent == ParentAfter(t.parent, net.up[r].value, r, Lf(l))
        && t'.home == t.home[l := Some(r)]
    ensures Complete(net, t', known[l := h])
  {
    hide Anc, NetOk, Reported, Keyed;
    NetAt(net, l);
    AtIs(net, net.at[l], r);
    LearnReported(net, known, r, l, h, r);
    forall a ensures Reported(net, known[l := h], a) <==> Reported(net, known, a) || a == r {
      LearnReported(net, known, r, l, h, a);
    }
  }

  lemma LearnAgain(net: Net, t: Tree, known: map<Addr, nat>, r: Addr, l: Addr, h: nat, c: Cell, t': Tree)
    requires NetOk(net) && Keyed(t) && Keyed(t') && Complete(net, t, known) && l in t.home
    requires Up(t, c) == Some(r) && r in t.parent && t.parent[r].Some? && (c.Lf? ==> c.l == l)
    requires t'.root == t.root && t'.parent == ParentAfter(t.parent, r, r, c)
        && t'.home == (if c.Lf? then t.home[l := Some(r)] else t.home)
    ensures Complete(net, t', known)
  {
    hide Anc, NetOk, Reported, Keyed;
    assert t'.parent == t.parent && t'.home == t.home;
  }

  // Completeness: when the reports for each receiver arrive in rising order, interleaved with those
  // for the others in any way, the tree is at all times exactly the union of the reported routes.
  lemma UpdateComplete(net: Net, t: Tree, rk: map<Addr, nat>, known: map<Addr, nat>, r: Addr, l: Addr, h: nat)
    requires NetOk(net) && Growing(t, rk) && Sound(net, t) && Complete(net, t, known) && l in t.home
        && Rising(net, known, r, l, h)
    ensures r != t.root && r !in t.home && Keyed(Update(t, rk, r, l, h))
    ensures Complete(net, Update(t, rk, r, l, h), Learn(known, l, h))
  {
    hide ChildLinks, LeafLinks, Position, Update, Anc, DetachedEmpty, Ranked, HopsUp, Fresh, AllHomed, ParentAfter,
         Sound, Complete, NetOk;
    GrowingBasics(t, rk);
    GenuineBasics(net, t, rk, r, l, h);
    UpdateLinks(t, rk, r, l, h);
    var c, t' := Position(t, rk, r, l, h), Update(t, rk, r, l, h);
    if h == known[l] + 1 {
      NextPlace(net, t, rk, known, r, l, h);
      NetAt(net, l);
      UpStep(net, r, net.at[l]);
      LearnNew(net, t, known, r, l, h, t');
    } else {
      KnownPlace(net, t, rk, known, r, l, h);
      GenuinePlace(net, t, rk, r, l, h);
      LearnAgain(net, t, known, r, l, h, c, t');
    }
  }

  // A report from further down the route, of a router that is part of the tree already: all routers
  // above it are known too.
  lemma KnownThrough(net: Net, t: Tree, known: map<Addr, nat>, r: Addr, l: Addr, h: nat, a: Addr)
    requires NetOk(net) && Keyed(t) && Complete(net, t, known) && Genuine(net, r, l, h) && l in known && h > known[l]
    requires r in t.parent && t.parent[r].Some?
    ensures Reported(net, known[l := h], a) <==> Reported(net, known, a)
  {
    hide Anc, NetOk, Complete, Keyed;
    if Reported(net, known, a) {
      var x :| ReportedFor(net, known, a, x);
      assert ReportedFor(net, known[l := h], a, x);
    }
    if Reported(net, known[l := h], a) {
      var x :| ReportedFor(net, known[l := h], a, x);
      if x != l {
        assert ReportedFor(net, known, a, x);
      } else {
        AttachedReported(net, t, known, r);
        var y :| ReportedFor(net, known, r, y);
        NetAt(net, l);
        NetAt(net, y);
        UpCompare(net, a, r, net.at[l]);
        UpTrans(net, a, r, net.at[y]);
        assert ReportedFor(net, known, a, y);
      }
    }
  }

  lemma AttachedReported(net: Net, t: Tree, known: map<Addr, nat>, r: Addr)
    requires NetOk(net) && Keyed(t) && Complete(net, t, known) && r in t.parent && t.parent[r].Some?
    ensures Reported(net, known, r)
  {
    hide Anc, Reported;
  }

  lemma LearnFar(net: Net, t: Tree, known: map<Addr, nat>, r: Addr, l: Addr, h: nat, t': Tree)
    requires NetOk(net) && Keyed(t) && Keyed(t') && Complete(net, t, known) && Genuine(net, r, l, h) && l in known
        && h > known[l]
    requires r in t.parent && t.parent[r].Some?
    requires t'.root == t.root && t'.parent == t.parent && t'.home == t.home[l := Some(r)]
    ensures Complete(net, t', known[l := h])
  {
    hide Anc, NetOk, Reported, Keyed;
    NetAt(net, l);
    AtIs(net, net.at[l], r);
    forall a ensures Reported(net, known[l := h], a) <==> Reported(net, known, a) {
      KnownThrough(net, t, known, r, l, h, a);
    }
  }

  lemma FarPlace(net: Net, t: Tree, rk: map<Addr, nat>, known: map<Addr, nat>, r: Addr, l: Addr, h: nat)
    requires NetOk(net) && Rooted(t, rk) && Keyed(t) && Sound(net, t) && Complete(net, t, known) && l in t.home
    requires Genuine(net, r, l, h) && l in known && h > known[l] + 1
    ensures t.home[l].Some? && Position(t, rk, r, l, h) == Lf(l) && Up(t, Lf(l)) == t.home[l]
        && t.home[l].value in t.parent
    ensures r in net.up && net.up[r] != t.home[l] && t.home[l].value != r
  {
    hide ChildLinks, LeafLinks, Anc, Ranked, DetachedEmpty, Sound, Complete, Keyed, AllHomed;
    CompleteHome(net, t, known, l);
    AtOnRoute(net, net.at[l], known[l]);
    HomeAttached(t, rk, l);
    SoundHops(net, t, t.home[l].value);
    UpStep(net, r, net.at[l]);
    HomeFirst(t, rk, r, l, h, t.home[l].value);
  }

  // When completeness is kept: exactly when the report is rising, or its router is part of the tree
  // already. Otherwise the tree is not the union of routes for any extent of reporting.
  lemma CompleteExactly(net: Net, t: Tree, rk: map<Addr, nat>, known: map<Addr, nat>, r: Addr, l: Addr, h: nat)
    requires NetOk(net) && Growing(t, rk) && Keyed(t) && Sound(net, t) && Complete(net, t, known) && l in t.home
        && l in known && Genuine(net, r, l, h)
    ensures r != t.root && r !in t.home && Rooted(t, rk) && Keyed(Update(t, rk, r, l, h))
    ensures (exists known' :: Complete(net, Update(t, rk, r, l, h), known')) <==>
              (h <= known[l] + 1 || (r in t.parent && t.parent[r].Some?))
  {
    hide ChildLinks, LeafLinks, Position, Update, Anc, DetachedEmpty, Ranked, HopsUp, Fresh, AllHomed, ParentAfter,
         Sound, Complete, NetOk;
    GrowingBasics(t, rk);
    GenuineBasics(net, t, rk, r, l, h);
    UpdateLinks(t, rk, r, l, h);
    var t' := Update(t, rk, r, l, h);
    if h <= known[l] + 1 {
      UpdateComplete(net, t, rk, known, r, l, h);
    } else {
      FarPlace(net, t, rk, known, r, l, h);
      FarLinks(t.parent, t.home[l].value, r, l);
      if r in t.parent && t.parent[r].Some? {
        LearnFar(net, t, known, r, l, h, t');
      } else {
        forall known' ensures !Complete(net, t', known') {
          WrongParent(net, t', known', r, t.home[l]);
        }
      }
    }
  }

  lemma FarLinks(parent: map<Addr, Option<Addr>>, g: Addr, r: Addr, l: Addr)
    ensures ParentAfter(parent, g, r, Lf(l)) == if r in parent && parent[r].Some? then parent else parent[r := Some(g)]
  {
  }

  lemma WrongParent(net: Net, t: Tree, known: map<Addr, nat>, r: Addr, p: Option<Addr>)
    requires NetOk(net) && Keyed(t) && r in t.parent && t.parent[r] == p && p.Some? && r in net.up && net.up[r] != p
    ensures !Complete(net, t, known)
  {
  }

  // A tree where every receiver is at the root is complete for no reports.
  lemma CompleteStart(net: Net, t: Tree)
    requires NetOk(net) && Keyed(t) && t.root == net.root && t.home.Keys <= net.at.Keys
    requires forall l | l in t.home :: t.home[l] == Some(t.root)
    requires forall a | a in t.parent :: t.parent[a] == None
    ensures Complete(net, t, map l | l in t.home :: 0)
  {
    hide Anc;
    var known := map l | l in t.home :: 0;
    forall l | l in known ensures At(net, net.at[l], 0) == net.root {
      UpRoot(net, net.at[l]);
      AtIs(net, net.at[l], net.root);
    }
    forall a, l | ReportedFor(net, known, a, l) ensures a == net.root {
      OnlyRoot(net, a);
    }
  }

  lemma OnlyRoot(net: Net, a: Addr)
    requires NetOk(net) && a in net.up && net.depth[a] == 0
    ensures a == net.root
  {
  }

  // Once every route has been reported in full, every receiver hangs at its last router, and the
  // tree holds exactly the routers on the routes, each below the router before it.
  lemma CompleteEnd(net: Net, t: Tree, known: map<Addr, nat>)
    requires NetOk(net) && Keyed(t) && Complete(net, t, known)
    requires forall l | l in known :: l in net.at && known[l] == net.depth[net.at[l]]
    ensures forall l | l in t.home :: l in net.at && t.home[l] == Some(net.at[l])
    ensures forall a | a in t.parent && t.parent[a].Some? :: a in net.up && t.parent[a] == net.up[a]
    ensures forall a :: a in t.parent && t.parent[a].Some? <==>
              a != net.root && exists l :: l in t.home && OnRoute(net, a, l)
  {
    hide Anc, NetOk, Reported, OnRoute;
    forall a ensures Reported(net, known, a) <==> a != net.root && exists l :: l in t.home && OnRoute(net, a, l) {
      FullReported(net, t.home.Keys, known, a);
    }
    forall l | l in known ensures net.at[l] in net.up && At(net, net.at[l], known[l]) == net.at[l] {
      NetAt(net, l);
      AtEnd(net, net.at[l]);
    }
  }

  lemma AtEnd(net: Net, a: Addr)
    requires NetOk(net) && a in net.up
    ensures At(net, a, net.depth[a]) == a
  {
  }

  lemma FullReported(net: Net, members: set<Addr>, known: map<Addr, nat>, a: Addr)
    requires NetOk(net) && known.Keys == members
    requires forall l | l in known :: l in net.at && known[l] == net.depth[net.at[l]]
    ensures Reported(net, known, a) <==> a != net.root && exists l :: l in members && OnRoute(net, a, l)
  {
    hide Anc;
    if a != net.root && exists l :: l in members && OnRoute(net, a, l) {
      var l :| l in members && OnRoute(net, a, l);
      UpDepth(net, a, net.at[l]);
      assert ReportedFor(net, known, a, l);
    }
    if Reported(net, known, a) {
      var l :| ReportedFor(net, known, a, l);
      assert l in members && OnRoute(net, a, l);
    }
  }

  // A report that router `r` is `h` hops away on the route to `l`.
  datatype Report = Report(r: Addr, l: Addr, h: nat)

  ghost predicate Genuines(net: Net, t: Tree, s: seq<Report>) {
    forall i | 0 <= i < |s| :: Genuine(net, s[i].r, s[i].l, s[i].h) && s[i].l in t.home
  }

  // Reports for unknown receivers, and reports from the sender or a receiver, change nothing.
  ghost predicate Accepted(t: Tree, rk: map<Addr, nat>, r: Addr, l: Addr) {
    Rooted(t, rk) && l in t.home && r != t.root && r !in t.home
  }

  // The tree after a sequence of reports, with its rank.
  ghost function Feed(t: Tree, rk: map<Addr, nat>, s: seq<Report>): (Tree, map<Addr, nat>)
    decreases |s|
  {
    if s == [] then (t, rk)
    else if Accepted(t, rk, s[0].r, s[0].l) then
      Feed(Update(t, rk, s[0].r, s[0].l, s[0].h), UpdateRank(t, rk, s[0].r, s[0].l, s[0].h), s[1..])
    else Feed(t, rk, s[1..])
  }

  lemma FeedStep(net: Net, t: Tree, rk: map<Addr, nat>, s: seq<Report>)
    requires NetOk(net) && Growing(t, rk) && Keyed(t) && Sound(net, t) && Genuines(net, t, s) && s != []
    ensures Genuine(net, s[0].r, s[0].l, s[0].h) && s[0].l in t.home
    ensures Accepted(t, rk, s[0].r, s[0].l) && Rooted(t, rk) && Linked(t)
    ensures s[0].l in t.home && s[0].r != t.root && s[0].r !in t.home
    ensures var t', rk' := Update(t, rk, s[0].r, s[0].l, s[0].h), UpdateRank(t, rk, s[0].r, s[0].l, s[0].h);
            Keyed(t') && Growing(t', rk') && Sound(net, t') && Genuines(net, t', s[1..]) && t'.home.Keys == t.home.Keys
  {
    hide Growing, Sound, Update, UpdateRank, Genuine, NetOk, ChildLinks, LeafLinks;
    GrowingBasics(t, rk);
    UpdateSound(net, t, rk, s[0].r, s[0].l, s[0].h);
    UpdateKeeps(t, rk, s[0].r, s[0].l, s[0].h);
  }

  // Soundness of a whole discovery phase: any genuine reports, in any order.
  lemma {:induction false} FeedSound(net: Net, t: Tree, rk: map<Addr, nat>, s: seq<Report>)
    requires NetOk(net) && Growing(t, rk) && Keyed(t) && Sound(net, t) && Genuines(net, t, s)
    ensures var (t', rk') := Feed(t, rk, s);
            Keyed(t') && Growing(t', rk') && Sound(net, t') && Strict(t') && t'.home.Keys == t.home.Keys
    decreases |s|
  {
    hide Growing, Sound, Update, UpdateRank, NetOk, Strict, Genuines, Rooted, Keyed, Linked;
    if s == [] {
      GrowingBasics(t, rk);
      RootedBasics(t, rk);
      SoundStrict(net, t, rk);
    } else {
      FeedStep(net, t, rk, s);
      FeedSound(net, Update(t, rk, s[0].r, s[0].l, s[0].h), UpdateRank(t, rk, s[0].r, s[0].l, s[0].h), s[1..]);
    }
  }

  // The reports for each receiver rise.
  ghost predicate AllRising(net: Net, known: map<Addr, nat>, s: seq<Report>)
    decreases |s|
  {
    s == [] || (Rising(net, known, s[0].r, s[0].l, s[0].h) && AllRising(net, Learn(known, s[0].l, s[0].h), s[1..]))
  }

  ghost function LearnAll(net: Net, known: map<Addr, nat>, s: seq<Report>): map<Addr, nat>
    requires AllRising(net, known, s)
    decreases |s|
  {
    if s == [] then known else LearnAll(net, Learn(known, s[0].l, s[0].h), s[1..])
  }

  lemma {:induction false} FeedComplete(net: Net, t: Tree, rk: map<Addr, nat>, known: map<Addr, nat>, s: seq<Report>)
    requires NetOk(net) && Growing(t, rk) && Keyed(t) && Sound(net, t) && Genuines(net, t, s)
    requires Complete(net, t, known) && AllRising(net, known, s)
    ensures Keyed(Feed(t, rk, s).0) && Complete(net, Feed(t, rk, s).0, LearnAll(net, known, s))
    decreases |s|
  {
    hide Growing, Sound, Update, UpdateRank, Genuine, NetOk, Complete, Learn, Keyed, Rooted, Linked;
    if s != [] {
      FeedStep(net, t, rk, s);
      UpdateComplete(net, t, rk, known, s[0].r, s[0].l, s[0].h);
      FeedComplete(net, Update(t, rk, s[0].r, s[0].l, s[0].h), UpdateRank(t, rk, s[0].r, s[0].l, s[0].h),
                   Learn(known, s[0].l, s[0].h), s[1..]);
    }
  }

  // The tree is the union of some routes from the sender on.
  ghost predicate Union(net: Net, t: Tree) {
    NetOk(net) && Keyed(t) && exists known :: Complete(net, t, known)
  }

  // The report is rising, or its router has been reported before, for any receiver.
  ghost predicate Fits(net: Net, known: map<Addr, nat>, x: Report) {
    x.l in known && (x.h <= known[x.l] + 1 || Reported(net, known, x.r))
  }

  ghost predicate Fitting(net: Net, known: map<Addr, nat>, s: seq<Report>)
    decreases |s|
  {
    s == [] || (Fits(net, known, s[0]) && Fitting(net, Learn(known, s[0].l, s[0].h), s[1..]))
  }

  lemma FitStep(net: Net, t: Tree, rk: map<Addr, nat>, known: map<Addr, nat>, x: Report)
    requires NetOk(net) && Growing(t, rk) && Keyed(t) && Sound(net, t) && Complete(net, t, known) && x.l in t.home
        && Genuine(net, x.r, x.l, x.h)
    ensures x.r != t.root && x.r !in t.home && Rooted(t, rk) && x.l in known
    ensures var t' := Update(t, rk, x.r, x.l, x.h);
            && Keyed(t') && (Union(net, t') <==> Fits(net, known, x))
            && (Fits(net, known, x) ==> Complete(net, t', Learn(known, x.l, x.h)))
  {
    hide ChildLinks, LeafLinks, Position, Update, Anc, DetachedEmpty, Ranked, HopsUp, Fresh, AllHomed, ParentAfter,
         Sound, NetOk, Reported;
    CompleteExactly(net, t, rk, known, x.r, x.l, x.h);
    if x.h <= known[x.l] + 1 {
      UpdateComplete(net, t, rk, known, x.r, x.l, x.h);
    } else if Reported(net, known, x.r) {
      GenuineBasics(net, t, rk, x.r, x.l, x.h);
      UpdateLinks(t, rk, x.r, x.l, x.h);
      FarPlace(net, t, rk, known, x.r, x.l, x.h);
      FarLinks(t.parent, t.home[x.l].value, x.r, x.l);
      LearnFar(net, t, known, x.r, x.l, x.h, Update(t, rk, x.r, x.l, x.h));
    }
  }

  lemma FeedPrefix(t: Tree, rk: map<Addr, nat>, s: seq<Report>, k: nat)
    requires s != [] && k <= |s| - 1 && Accepted(t, rk, s[0].r, s[0].l)
    ensures Feed(t, rk, s[..k + 1]) ==
            Feed(Update(t, rk, s[0].r, s[0].l, s[0].h), UpdateRank(t, rk, s[0].r, s[0].l, s[0].h), s[1..][..k])
  {
    hide Accepted, Update, UpdateRank;
    assert s[..k + 1][1..] == s[1..][..k];
  }

  // The exact condition for genuine reports: after each of them the tree is a union of routes, if and
  // only if each is rising, or is of a router that has been reported before.
  lemma {:induction false} FeedExactly(net: Net, t: Tree, rk: map<Addr, nat>, known: map<Addr, nat>, s: seq<Report>)
    requires NetOk(net) && Growing(t, rk) && Keyed(t) && Sound(net, t) && Genuines(net, t, s) && Complete(net, t, known)
    ensures (forall k | 0 <= k <= |s| :: Union(net, Feed(t, rk, s[..k]).0)) <==> Fitting(net, known, s)
    decreases |s|
  {
    hide Growing, Sound, Update, UpdateRank, Genuine, NetOk, Complete, Learn, Keyed, Rooted, Linked, Union, Fits, Feed;
    assert Feed(t, rk, []) == (t, rk) by { FeedNone(t, rk); }
    assert Union(net, t) by { UnionNow(net, t, known); }
    assert s[..0] == [];
    if s != [] {
      FeedStep(net, t, rk, s);
      FitStep(net, t, rk, known, s[0]);
      var t', rk' := Update(t, rk, s[0].r, s[0].l, s[0].h), UpdateRank(t, rk, s[0].r, s[0].l, s[0].h);
      forall k: nat | k < |s| ensures Feed(t, rk, s[..k + 1]) == Feed(t', rk', s[1..][..k]) {
        FeedPrefix(t, rk, s, k);
      }
      if Fits(net, known, s[0]) {
        FeedExactly(net, t', rk', Learn(known, s[0].l, s[0].h), s[1..]);
        Shifted(net, t, rk, t', rk', s);
      } else {
        FeedNone(t', rk');
        assert s[1..][..0] == [];
        assert !Union(net, Feed(t, rk, s[..0 + 1]).0);
      }
    }
  }

  lemma Shifted(net: Net, t: Tree, rk: map<Addr, nat>, t': Tree, rk': map<Addr, nat>, s: seq<Report>)
    requires s != [] && Union(net, t) && Feed(t, rk, s[..0]) == (t, rk)
    requires forall k: nat | k < |s| :: Feed(t, rk, s[..k + 1]) == Feed(t', rk', s[1..][..k])
    ensures (forall k | 0 <= k <= |s| :: Union(net, Feed(t, rk, s[..k]).0)) <==>
            (forall k | 0 <= k <= |s[1..]| :: Union(net, Feed(t', rk', s[1..][..k]).0))
  {
    hide Union, Feed;
    if forall k | 0 <= k <= |s| :: Union(net, Feed(t, rk, s[..k]).0) {
      forall k | 0 <= k <= |s[1..]| ensures Union(net, Feed(t', rk', s[1..][..k]).0) {
        assert Union(net, Feed(t, rk, s[..k + 1]).0);
      }
    }
    if forall k | 0 <= k <= |s[1..]| :: Union(net, Feed(t', rk', s[1..][..k]).0) {
      forall k | 0 <= k <= |s| ensures Union(net, Feed(t, rk, s[..k]).0) {
        if k > 0 {
          assert Feed(t, rk, s[..(k - 1) + 1]) == Feed(t', rk', s[1..][..k - 1]);
        }
      }
    }
  }

  lemma UnionNow(net: Net, t: Tree, known: map<Addr, nat>)
    requires NetOk(net) && Keyed(t) && Complete(net, t, known)
    ensures Union(net, t)
  {
  }

  lemma {:induction false} FeedConcat(t: Tree, rk: map<Addr, nat>, a: seq<Report>, b: seq<Report>)
    ensures Feed(t, rk, a + b) == (var (t', rk') := Feed(t, rk, a); Feed(t', rk', b))
    decreases |a|
  {
    hide Update, UpdateRank, Rooted;
    if a == [] {
      assert a + b == b;
    } else {
      var x := a[0];
      assert (a + b)[0] == x && (a + b)[1..] == a[1..] + b;
      if Accepted(t, rk, x.r, x.l) {
        FeedConcat(Update(t, rk, x.r, x.l, x.h), UpdateRank(t, rk, x.r, x.l, x.h), a[1..], b);
      } else {
        FeedConcat(t, rk, a[1..], b);
      }
    }
  }

  lemma FeedNone(t: Tree, rk: map<Addr, nat>)
    ensures Feed(t, rk, []) == (t, rk)
  {
  }
}
