// One discovery phase: when the reports for every receiver climb its route to the end, as the answers
// to its probe do, the sender's tree is the routing tree, in whatever way they are interleaved.
module Phase {
  import opened Base
  import opened Forest
  import opened Network
  import opened Delivery
  import opened Discovery
  import opened Topology

  // The reports for receiver `l`, in order.
  ghost function For(s: seq<Report>, l: Addr): seq<Report> {
    if s == [] then [] else (if s[0].l == l then [s[0]] else []) + For(s[1..], l)
  }

  // Reports for receiver `l`, whose route is known up to `k` hops: each is of the next router of the
  // route or of an earlier one, and the last router is reached.
  ghost predicate Climbs(net: Net, l: Addr, k: nat, s: seq<Report>)
    requires l in net.at && net.at[l] in net.depth
    decreases |s|
  {
    if s == [] then k == net.depth[net.at[l]]
    else
      && Genuine(net, s[0].r, l, s[0].h) && s[0].h <= k + 1
      && Climbs(net, l, if s[0].h > k then s[0].h else k, s[1..])
  }

  // The answers to the probe of a receiver whose routers are less than 64 hops away do so.
  lemma {:induction false} TruthClimbs(net: Net, l: Addr, k: nat)
    requires NetOk(net) && l in net.at && net.depth[net.at[l]] < 64 && k <= |Route(net, net.root, l)|
    ensures Climbs(net, l, k, Truth(net, l, k))
    decreases |Route(net, net.root, l)| - k
  {
    hide Route, Anc, Genuine;
    if k == |Route(net, net.root, l)| {
      TruthDone(net, l, k);
    } else {
      TruthNext(net, l, k);
      TruthClimbs(net, l, k + 1);
      var s := Truth(net, l, k);
      assert s[0] == Report(Route(net, net.root, l)[k], l, k + 1) && s[1..] == Truth(net, l, k + 1);
    }
  }

  lemma TruthNext(net: Net, l: Addr, k: nat)
    requires NetOk(net) && l in net.at && k < |Route(net, net.root, l)| && net.depth[net.at[l]] < 64
    ensures Genuine(net, Route(net, net.root, l)[k], l, k + 1)
  {
    hide Anc;
    ProbeAnswers(net, 0, l, k);
    AnswerAt(DcvPacket(0, l), Route(net, net.root, l), k);
  }

  lemma TruthDone(net: Net, l: Addr, k: nat)
    requires NetOk(net) && l in net.at && k == |Route(net, net.root, l)|
    ensures Truth(net, l, k) == [] && k == net.depth[net.at[l]]
  {
    hide Anc;
    UpRoot(net, net.at[l]);
    PathDownLength(net, net.root, net.at[l]);
  }

  // From here on, the reports for each receiver complete its route.
  ghost predicate Outstanding(net: Net, known: map<Addr, nat>, s: seq<Report>) {
    && (forall l | l in known :: l in net.at && net.at[l] in net.depth && Climbs(net, l, known[l], For(s, l)))
    && (forall i | 0 <= i < |s| :: s[i].l in known)
  }

  // The first of them is rising.
  lemma OutstandingFirst(net: Net, known: map<Addr, nat>, s: seq<Report>)
    requires Outstanding(net, known, s) && s != []
    ensures Rising(net, known, s[0].r, s[0].l, s[0].h)
    ensures Outstanding(net, Learn(known, s[0].l, s[0].h), s[1..])
  {
    hide Anc, For, Genuine;
    var x := s[0];
    assert s[0].l in known;
    ForFirst(s, x.l);
    ClimbsFirst(net, x.l, known[x.l], x, For(s[1..], x.l));
    forall l | l in known && l != x.l ensures For(s[1..], l) == For(s, l) {
      ForFirst(s, l);
    }
    forall i | 0 <= i < |s[1..]| ensures s[1..][i].l in known {
      assert s[i + 1] == s[1..][i];
    }
  }

  lemma ForFirst(s: seq<Report>, l: Addr)
    requires s != []
    ensures For(s, l) == if s[0].l == l then [s[0]] + For(s[1..], l) else For(s[1..], l)
  {
  }

  lemma ClimbsFirst(net: Net, l: Addr, k: nat, x: Report, rest: seq<Report>)
    requires l in net.at && net.at[l] in net.depth && Climbs(net, l, k, [x] + rest)
    ensures Genuine(net, x.r, l, x.h) && x.h <= k + 1 && Climbs(net, l, if x.h > k then x.h else k, rest)
  {
    hide Genuine;
    assert ([x] + rest)[0] == x && ([x] + rest)[1..] == rest;
  }

  // All of them together are rising, and make all routes known.
  lemma {:induction false} OutstandingRise(net: Net, known: map<Addr, nat>, s: seq<Report>)
    requires Outstanding(net, known, s)
    ensures AllRising(net, known, s) && LearnAll(net, known, s).Keys == known.Keys
    ensures forall l | l in known ::
              l in net.at && net.at[l] in net.depth && LearnAll(net, known, s)[l] == net.depth[net.at[l]]
    decreases |s|
  {
    hide Genuine, For;
    if s == [] {
      assert forall l :: For(s, l) == [] by { ForNone(); }
    } else {
      hide Outstanding;
      OutstandingFirst(net, known, s);
      OutstandingRise(net, Learn(known, s[0].l, s[0].h), s[1..]);
      OutstandingNet(net, known, s);
    }
  }

  lemma ForNone()
    ensures forall l :: For([], l) == []
  {
  }

  lemma OutstandingNet(net: Net, known: map<Addr, nat>, s: seq<Report>)
    requires Outstanding(net, known, s)
    ensures forall l | l in known :: l in net.at && net.at[l] in net.depth
  {
    hide Climbs, For;
  }

  // The tree agrees with the network: it has exactly the routers on the routes to its receivers, each
  // below its true parent, and every receiver is at its last router.
  ghost predicate Routed(net: Net, t: Tree) {
    && (forall l | l in t.home :: l in net.at && t.home[l] == Some(net.at[l]))
    && (forall a | a in t.parent && t.parent[a].Some? :: a in net.up && t.parent[a] == net.up[a])
    && (forall a :: a in t.parent && t.parent[a].Some? <==>
          a != net.root && exists l :: l in t.home && OnRoute(net, a, l))
  }

  // All receivers are at the root, and no other router is part of the tree.
  ghost predicate AtRoot(t: Tree) {
    && (forall l | l in t.home :: t.home[l] == Some(t.root))
    && (forall a | a in t.parent :: t.parent[a] == None)
  }

  // Every receiver's route has been reported from the sender on, possibly with repetitions.
  ghost predicate Answered(net: Net, members: set<Addr>, s: seq<Report>) {
    forall l | l in members :: l in net.at && net.at[l] in net.depth && Climbs(net, l, 0, For(s, l))
  }

  // This is so when for each receiver the reports are the answers to its probe.
  lemma ProbesAnswered(net: Net, members: set<Addr>, s: seq<Report>)
    requires NetOk(net)
    requires forall l | l in members :: l in net.at && net.depth[net.at[l]] < 64 && For(s, l) == Truth(net, l, 0)
    ensures Answered(net, members, s)
  {
    hide Route, Truth, For, Climbs;
    forall l | l in members ensures Climbs(net, l, 0, For(s, l)) {
      TruthClimbs(net, l, 0);
    }
  }

  // Completeness of a phase.
  lemma PhaseCompletes(net: Net, t: Tree, rk: map<Addr, nat>, s: seq<Report>)
    requires NetOk(net) && Growing(t, rk) && Keyed(t) && Sound(net, t) && AtRoot(t) && Genuines(net, t, s)
    requires Answered(net, t.home.Keys, s)
    ensures Routed(net, Feed(t, rk, s).0)
  {
    hide Growing, Anc, NetOk, Complete, Feed, AllRising, LearnAll, Sound, Keyed, Outstanding, Answered, Genuines,
         Strict;
    var known: map<Addr, nat> := map l | l in t.home :: 0;
    SoundStart(net, t);
    CompleteStart(net, t);
    OutstandingStart(net, t, s);
    OutstandingRise(net, known, s);
    FeedComplete(net, t, rk, known, s);
    FeedSound(net, t, rk, s);
    KnownHomes(net, Feed(t, rk, s).0, LearnAll(net, known, s));
    CompleteEnd(net, Feed(t, rk, s).0, LearnAll(net, known, s));
  }

  lemma KnownHomes(net: Net, t: Tree, known: map<Addr, nat>)
    requires NetOk(net) && Keyed(t) && Complete(net, t, known)
    ensures known.Keys == t.home.Keys
  {
  }

  lemma SoundStart(net: Net, t: Tree)
    requires Keyed(t) && Sound(net, t) && AtRoot(t)
    ensures t.root == net.root && t.home.Keys <= net.at.Keys
  {
    hide SoundEdge, Anc;
  }

  lemma OutstandingStart(net: Net, t: Tree, s: seq<Report>)
    requires Answered(net, t.home.Keys, s) && Genuines(net, t, s)
    ensures Outstanding(net, map l | l in t.home :: 0, s)
  {
    hide Climbs, For, Genuine;
  }
}
