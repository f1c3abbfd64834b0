// The sender as a whole: receivers join, discovery responses change the tree, and every timeout
// turns it into a published group and starts over.
module Sender {
  import opened Base
  import opened Forest
  import opened Header
  import opened Packing
  import opened Nodes
  import opened Topology
  import opened Grouping
  import opened Partition
  import opened Network
  import opened Plane
  import opened Delivery
  import opened Transmit
  import opened EndToEnd
  import Checksum
  import Discovery
  import Phase
  import Reduction
  import Reset
  import Rx
  import Ops = TreeOps

  // The group `grp` addresses every one of `members` exactly once.
  ghost predicate Addresses(grp: TxGroup, members: set<Addr>) {
    multiset(AllRcv(grp.mdc) + grp.uni) == multiset(members)
  }

  // What is sent for `grp` reaches every one of `members` exactly once, and nobody else. It says when
  // a checksum is 0.
  ghost predicate ReachesWith(net: Net, nodes: map<Addr, Node>, grp: TxGroup, sa: Addr, udp: Checksum.Segment,
                              members: set<Addr>) {
    NetOk(net) && NodesOk(net, nodes) ==>
      Counting(grp.mdc) &&
      var sent := UniPackets(sa, grp.uni, udp) + MdcPackets(sa, grp.mdc, udp);
      Sendable(net, sent) &&
      var got := Arrivals(net, nodes, sent);
      AllArrive(got, grp.uni, sa, udp) && multiset(Dsts(got)) == multiset(members)
  }

  // That holds for any settings of the routers and any payload.
  ghost predicate Reaches(net: Net, grp: TxGroup, members: set<Addr>) {
    forall nodes: map<Addr, Node>, sa: Addr, udp: Checksum.Segment :: ReachesWith(net, nodes, grp, sa, udp, members)
  }

  lemma GroupReaches(net: Net, t: Tree, rk: map<Addr, nat>, cfg: Config, grp: TxGroup)
    requires NetOk(net) && Steady(t, rk) && AllHomed(t) && Sound(net, t) && t.hops.Keys == t.parent.Keys
    requires (forall i | 0 <= i < |grp.mdc| :: HeaderOk(cfg, t, grp.mdc[i])) && Addresses(grp, t.home.Keys)
    ensures Reaches(net, grp, t.home.Keys)
  {
    hide Sound, Ranked, DetachedEmpty, ChildLinks, LeafLinks, HeaderOk, NetOk, Sane, Arrivals, MdcPackets,
         UniPackets, AllHomed, Linked;
    forall nodes: map<Addr, Node>, sa: Addr, udp: Checksum.Segment
      ensures ReachesWith(net, nodes, grp, sa, udp, t.home.Keys)
    {
      if NodesOk(net, nodes) {
        GroupDelivered(net, nodes, t, rk, cfg, grp, sa, udp);
      }
    }
  }

  // The tree after receiver `l` has joined.
  ghost function Joining(t: Tree, l: Addr): Tree
    requires Keyed(t) && l !in t.parent
  {
    Ops.AddLeaf(Ops.NewLeaf(t, l), t.root, l)
  }

  lemma JoinGrows(t: Tree, rk: map<Addr, nat>, l: Addr)
    requires Growing(t, rk) && Keyed(t) && l !in t.home && l !in t.parent
    ensures Keyed(Ops.NewLeaf(t, l)) && Keyed(Joining(t, l)) && Growing(Joining(t, l), rk)
    ensures Joining(t, l).home.Keys == t.home.Keys + {l}
  {
    hide ChildLinks, LeafLinks, Ranked, HopsUp;
    JoinLeaf(t.parent.Keys, t.leaf, t.home, t.root, l);
    assert Joining(t, l).home == t.home[l := Some(t.root)];
  }

  lemma JoinLeaf(routers: set<Addr>, leaf: map<Addr, seq<Addr>>, home: map<Addr, Option<Addr>>, root: Addr, l: Addr)
    requires leaf.Keys == routers && LeafLinks(routers, leaf, home) && root in routers && l !in home
    ensures LeafLinks(routers, leaf[root := [l] + leaf[root]], home[l := Some(root)])
  {
    ConsDistinct(l, leaf[root]);
  }

  lemma KeyedRoot(t: Tree)
    requires Keyed(t)
    ensures t.root in t.parent
  {
  }

  lemma OneMember(m: set<Addr>, m': set<Addr>, s: seq<Addr>, a: Addr)
    requires m' == m + {a} && a !in m && multiset(s) == multiset(m)
    ensures multiset([a] + s) == multiset(m')
  {
  }

  class Sender {
    const cfg: Config
    const st: Store
    const g: Grouper
    // The receivers, latest first.
    var rcvr: seq<Addr>
    // The published group.
    var txg: Option<TxGroup>
    // The number of routers found in this phase.
    var found: nat
    ghost var rk: map<Addr, nat>
    // The receivers for which the group was published.
    ghost var served: set<Addr>

    // The tree is well-formed, rooted and free of cycles, and holds every receiver exactly once; the
    // published group addresses every receiver that had joined by then exactly once.
    ghost predicate Valid()
      reads this, st, g
    {
      && g.st == st && g.cfg == cfg && Checked(cfg) && g.M() == NO_MERGE
      && Keyed(st.T()) && Growing(st.T(), rk)
      && multiset(rcvr) == multiset(st.home.Keys)
      && served <= st.home.Keys && (txg.Some? ==> Addresses(txg.value, served))
    }

    constructor (cfg: Config, sa: Addr)
      requires Checked(cfg)
      ensures Valid() && fresh(st) && fresh(g) && this.cfg == cfg && st.root == sa && rcvr == [] && txg == None
          && served == {}
      ensures st.T() == Tree(sa, map[sa := None], map[sa := 0], map[sa := []], map[sa := 0], map[sa := []],
                             map[sa := 0], map[])
    {
      this.cfg := cfg;
      var s := new Store(sa);
      st := s;
      g := new Grouper(cfg, s);
      rcvr, txg, found := [], None, 0;
      rk := map[sa := 0];
      served := {};
    }

    // Adds receiver `a`, unless its address is known already. The next group will serve it.
    method Join(a: Addr) returns (ret: int)
      requires Valid()
      modifies this`rcvr, st
      ensures Valid() && rk == old(rk) && st.parent == old(st.parent)
      ensures if a in old(st.home) || a in old(st.parent) then ret == -1 && rcvr == old(rcvr) && st.T() == old(st.T())
              else ret == 0 && rcvr == [a] + old(rcvr) && st.T() == Joining(old(st.T()), a)
    {
      hide ChildLinks, LeafLinks, Growing, Keyed;
      if a in st.home || a in st.parent { return -1; }
      JoinGrows(st.T(), rk, a);
      KeyedRoot(st.T());
      st.home := st.home[a := None];
      st.AddLeaf(st.root, a);
      rcvr := [a] + rcvr;
      ret := 0;
      OneMember(old(st.home.Keys), st.home.Keys, old(rcvr), a);
    }

    // Publishes the first group: everyone is served by unicast.
    method InitTxg() returns (ret: int)
      requires Valid()
      modifies this`txg, this`served
      ensures Valid() && ret == (if rcvr != [] then 0 else -1)
      ensures txg == if rcvr != [] then Some(TxGroup([], rcvr)) else old(txg)
      ensures served == if rcvr != [] then st.home.Keys else old(served)
    {
      hide Growing;
      if rcvr == [] { return -1; }
      txg, served := Some(TxGroup([], rcvr)), st.home.Keys;
      ret := 0;
      assert AllRcv([]) + rcvr == rcvr;
    }

    // Handles a packet of `size` bytes from `rsa` whose header is `h`.
    method RxDcvr(rsa: Addr, size: nat, h: Header, ghost net: Net) returns (ret: int)
      requires Valid() && |h.addr| >= 1
      modifies this`found, this`rk, st
      ensures rcvr == old(rcvr) && txg == old(txg) && st.home.Keys == old(st.home.Keys)
      ensures ret == if Discovery.RspOk(size, h) then 0 else -1
      ensures var l := h.addr[0];
              if Discovery.RspOk(size, h) && l in old(st.home) && rsa !in old(st.home) then
                && Rooted(old(st.T()), old(rk))
                && st.T() == (if rsa == st.root then UpdateRoot(old(st.T()), old(rk), l, h.hops)
                              else Update(old(st.T()), old(rk), rsa, l, h.hops))
              else st.T() == old(st.T())
      ensures Holding(st.T(), st.home.Keys)
      ensures var l := h.addr[0];
              Acyclic(st.parent) <==>
                !(Discovery.RspOk(size, h) && l in old(st.home) && rsa !in old(st.home)
                    && ClosesCycle(old(st.T()), old(rk), rsa, l, h.hops))
      ensures old(Keyed(st.T()) && Fixed(st.T(), rsa, size, h)) ==>
                Valid() && (st.T(), rk) == Feed(old(st.T()), old(rk), TellsOf(rsa, size, h, st.home.Keys))
      ensures old(Keyed(st.T()) && Fixed(st.T(), rsa, size, h) && Sound(net, st.T())) && NetOk(net)
                && Honest(net, rsa, size, h) ==>
                Sound(net, st.T())
    {
      hide Growing, Sound, NetOk, Update, UpdateRoot, UpdateRank, Keyed, Rooted, Fixed, Honest, Linked, Feed, Accepted,
           Respond, HasPosition, Steady, Holding, ClosesCycle, Acyclic;
      HoldingNow(st.T(), rk);
      if !Discovery.RspOk(size, h) {
        FeedNone(st.T(), rk);
        return -1;
      }
      ghost var t, rk0 := st.T(), rk;
      GrowingBasics(t, rk);
      assert Steady(t, rk) by { RootedBasics(t, rk); SteadyIs(t, rk); }
      ghost var l := h.addr[0];
      FeedOne(t, rk, rsa, size, h);
      if l in st.home && rsa !in st.home {
        if rsa == st.root {
          RootHolding(t, rk, l, h.hops);
        } else {
          RouterHolding(t, rk, rsa, l, h.hops);
          if Fixed(t, rsa, size, h) { ResponseKeeps(t, rk, rsa, size, h, net); }
          rk := UpdateRank(t, rk, rsa, l, h.hops);
        }
      }
      if Fixed(t, rsa, size, h) { FixedBasics(t, rsa, size, h); }
      if l in st.home && rsa !in st.home { UpdateResponds(t, rk0, rsa, l, h.hops); }
      var r, n := Rx.UpdateTopo(st, rsa, h.addr[0], h.hops, found, rk0);
      found := n;
      ret := 0;
    }

    // The end of a discovery phase: the tree is reduced and grouped, the group published, and the
    // tree reset for the next phase.
    method ToutHandler(ghost net: Net) returns (ghost reduced: Tree, ghost grouped: Tree)
      requires Valid()
      modifies this`txg, this`found, this`served, g, st
      ensures Valid() && rcvr == old(rcvr) && st.home.Keys == old(st.home.Keys) && found == 0
      ensures served == st.home.Keys
      ensures Keyed(old(st.T())) && st.root in old(st.parent)
          && Reduction.Reduced(cfg, old(st.T()), reduced, rk, st.root)
      ensures Linked(old(st.T())) && Ranked(old(st.parent), rk) && Keyed(reduced) && st.root in rk
          && Reduction.Pruned(cfg, old(st.T()), reduced, rk, st.root)
      ensures Keyed(grouped) && txg.Some? && Grouped(cfg, reduced, grouped, txg.value)
          && Addresses(txg.value, st.home.Keys)
      ensures Keyed(st.T()) && Reset.Restarted(grouped, st.T())
      ensures st.child[st.root] == [] && (forall a | a in st.parent :: st.parent[a] == None)
      ensures multiset(st.leaf[st.root]) == multiset(st.home.Keys) && st.fleaf[st.root] == |st.leaf[st.root]|
      ensures NetOk(net) && old(Sound(net, st.T())) ==> Sound(net, st.T()) && Reaches(net, txg.value, st.home.Keys)
    {
      hide Growing, Sound, NetOk, Reaches, Keyed, Steady, Reduction.Whole, Reduction.Reduced, Reduction.Pruned,
           Grouped, Fresh,
           NoneBare, AllHomed, Reset.AllUsed,
           Reset.Restarted, Reduction.Cuts, Addresses, Linked;
      found := 0;
      ghost var t0 := st.T();
      BeforeReduce(t0, rk);
      ghost var cuts, order := Reduction.ReduceTree(st, st.root, cfg, rk);
      ghost var t1 := st.T();
      reduced := t1;
      AfterReduce(cfg, t0, t1, rk, net);
      var grp := GreedyGrouping(g, rk);
      ghost var t2 := st.T();
      grouped := t2;
      AfterGroup(cfg, t1, t2, rk, grp, net);
      txg, served := Some(grp), st.home.Keys;
      Reset.ResetTree(st, rk);
      AfterReset(t2, st.T(), rk, net);
    }
  }

  lemma BeforeReduce(t: Tree, rk: map<Addr, nat>)
    requires Growing(t, rk)
    ensures Reduction.Whole(t, rk) && Keyed(t) && t.root in t.parent && t.root in rk
  {
    hide ChildLinks, LeafLinks, HopsUp;
  }

  lemma AfterReduce(cfg: Config, t0: Tree, t: Tree, rk: map<Addr, nat>, net: Net)
    requires Checked(cfg) && Growing(t0, rk) && Keyed(t0) && Reduction.Reduced(cfg, t0, t, rk, t0.root)
    ensures Keyed(t) && Steady(t, rk) && AllHomed(t) && Fresh(t) && NoneBare(t) && t.root == t0.root
    ensures t.root in t.hops && t.hops[t.root] == 0 && t.home.Keys == t0.home.Keys
    ensures NetOk(net) && Sound(net, t0) ==> Sound(net, t)
  {
    hide Growing, Sound, NetOk, Reduction.Whole, Reduction.Reduced, Reduction.Shrunk, NoneBare, Keyed;
    BeforeReduce(t0, rk);
    Reduction.ReducedRoot(cfg, t0, t, rk);
    Reduction.WholeBasics(t, rk);
    GrowingRoot(t0, rk);
    ShrunkRoot(t0, t);
    if NetOk(net) && Sound(net, t0) {
      SoundShrunk(net, t0, t, rk);
    }
  }

  lemma GrowingRoot(t: Tree, rk: map<Addr, nat>)
    requires Growing(t, rk) && Keyed(t)
    ensures t.root in t.hops && t.hops[t.root] == 0
  {
  }

  lemma ShrunkRoot(t0: Tree, t: Tree)
    requires Keyed(t0) && Keyed(t) && Reduction.Shrunk(t0, t)
    ensures t.root == t0.root && t.root in t.hops && t.root in t0.hops && t.hops[t.root] == t0.hops[t0.root]
        && t.home.Keys == t0.home.Keys
  {
    hide Anc;
  }

  lemma AfterGroup(cfg: Config, t0: Tree, t: Tree, rk: map<Addr, nat>, grp: TxGroup, net: Net)
    requires Keyed(t0) && Steady(t0, rk) && AllHomed(t0) && Keyed(t) && t == t0.(fchild := t.fchild, fleaf := t.fleaf)
    requires Grouped(cfg, t0, t, grp)
    ensures Steady(t, rk) && AllHomed(t) && Reset.AllUsed(t) && Addresses(grp, t0.home.Keys)
    ensures NetOk(net) && Sound(net, t0) ==> Sound(net, t) && Reaches(net, grp, t0.home.Keys)
  {
    hide Sound, NetOk, Reaches, ChildLinks, LeafLinks, Ranked, HeaderOk, AllRcv;
    if NetOk(net) && Sound(net, t0) {
      GroupReaches(net, t0, rk, cfg, grp);
      SoundCounts(net, t0, t);
    }
  }

  lemma SoundCounts(net: Net, t0: Tree, t: Tree)
    requires Keyed(t0) && Keyed(t) && Sound(net, t0) && t == t0.(fchild := t.fchild, fleaf := t.fleaf)
    ensures Sound(net, t)
  {
    hide SoundEdge, OnRoute;
  }

  lemma AfterReset(t0: Tree, t: Tree, rk: map<Addr, nat>, net: Net)
    requires Keyed(t0) && AllHomed(t0) && Keyed(t) && Reset.Restarted(t0, t) && Growing(t, rk)
    ensures t.root == t0.root && t.home.Keys == t0.home.Keys && t.root in t.child && t.root in t.leaf
        && t.root in t.fleaf
    ensures t.child[t.root] == [] && (forall a | a in t.parent :: t.parent[a] == None)
    ensures multiset(t.leaf[t.root]) == multiset(t.home.Keys) && t.fleaf[t.root] == |t.leaf[t.root]|
    ensures NetOk(net) && Sound(net, t0) ==> Sound(net, t)
  {
    hide Sound, NetOk, ChildLinks, LeafLinks, Ranked, HopsUp;
    if NetOk(net) && Sound(net, t0) {
      SoundRestart(net, t0, t);
    }
  }

  // What every response leaves intact: lists, counters and receivers.
  ghost predicate Holding(t: Tree, members: set<Addr>) {
    Linked(t) && DetachedEmpty(t) && Fresh(t) && AllHomed(t) && t.home.Keys == members
  }

  // The response makes a router, below which the reported one is, a child of it.
  ghost predicate ClosesCycle(t: Tree, rk: map<Addr, nat>, r: Addr, l: Addr, h: nat) {
    Rooted(t, rk) && r != t.root && r in t.parent && t.parent[r].Some?
    && var c := Position(t, rk, r, l, h); c.Rt? && Anc(t.parent, c.a, r)
  }

  lemma HoldingNow(t: Tree, rk: map<Addr, nat>)
    requires Growing(t, rk)
    ensures Holding(t, t.home.Keys) && Acyclic(t.parent)
  {
    hide ChildLinks, LeafLinks, HopsUp, Ranked;
    assert Ranked(t.parent, rk);
  }

  lemma RouterHolding(t: Tree, rk: map<Addr, nat>, r: Addr, l: Addr, h: nat)
    requires Growing(t, rk) && Rooted(t, rk) && l in t.home && r != t.root && r !in t.home
    ensures var t' := Update(t, rk, r, l, h);
            && Holding(t', t.home.Keys) && t'.home.Keys == t.home.Keys
            && (Acyclic(t'.parent) <==> !ClosesCycle(t, rk, r, l, h))
  {
    hide ChildLinks, LeafLinks, HopsUp, Ranked, Update, Acyclic, DetachedEmpty, Fresh, AllHomed, Position, Anc, Steady;
    UpdateSteady(t, rk, r, l, h);
    UpdateHomes(t, rk, r, l, h);
    UpdateAcyclic(t, rk, r, l, h);
  }

  lemma RootHolding(t: Tree, rk: map<Addr, nat>, l: Addr, h: nat)
    requires Growing(t, rk) && Rooted(t, rk) && l in t.home
    ensures var t' := UpdateRoot(t, rk, l, h);
            && Holding(t', t.home.Keys) && t'.home.Keys == t.home.Keys
            && Acyclic(t'.parent) && !ClosesCycle(t, rk, t.root, l, h)
  {
    hide ChildLinks, LeafLinks, HopsUp, Ranked, UpdateRoot, Acyclic, DetachedEmpty, Fresh, AllHomed, Position, Anc,
         Steady;
    UpdateRootLinks(t, rk, l, h);
    UpdateRootKeeps(t, rk, l, h);
  }

  lemma SteadyIs(t: Tree, rk: map<Addr, nat>)
    requires Linked(t) && Ranked(t.parent, rk) && DetachedEmpty(t)
    ensures Steady(t, rk)
  {
  }

  // What a response tells about one of `members`.
  ghost function TellsOf(rsa: Addr, size: nat, h: Header, members: set<Addr>): seq<Report> {
    if Discovery.RspOk(size, h) && h.addr != [] && h.addr[0] in members then [Report(rsa, h.addr[0], h.hops)] else []
  }

  lemma FeedOne(t: Tree, rk: map<Addr, nat>, rsa: Addr, size: nat, h: Header)
    requires Rooted(t, rk) && |h.addr| >= 1 && Discovery.RspOk(size, h)
    ensures var l := h.addr[0];
            Feed(t, rk, TellsOf(rsa, size, h, t.home.Keys)) ==
            if l in t.home && rsa != t.root && rsa !in t.home then
              (Update(t, rk, rsa, l, h.hops), UpdateRank(t, rk, rsa, l, h.hops))
            else (t, rk)
  {
    hide Rooted, Update, UpdateRank;
  }

  lemma FixedBasics(t: Tree, rsa: Addr, size: nat, h: Header)
    requires Keyed(t) && |h.addr| >= 1 && Fixed(t, rsa, size, h) && Discovery.RspOk(size, h)
    ensures rsa != t.root && SameHops(t, rsa, h.hops) && h.hops >= 1
  {
  }

  lemma ResponseKeeps(t: Tree, rk: map<Addr, nat>, rsa: Addr, size: nat, h: Header, net: Net)
    requires Growing(t, rk) && Keyed(t) && |h.addr| >= 1 && Fixed(t, rsa, size, h) && Discovery.RspOk(size, h)
    requires h.addr[0] in t.home && rsa !in t.home
    ensures Rooted(t, rk) && rsa != t.root
    ensures var t' := Update(t, rk, rsa, h.addr[0], h.hops);
            && Keyed(t') && Growing(t', UpdateRank(t, rk, rsa, h.addr[0], h.hops)) && t'.home.Keys == t.home.Keys
            && (NetOk(net) && Sound(net, t) && Honest(net, rsa, size, h) ==> Sound(net, t'))
  {
    hide Growing, Sound, NetOk, Update, UpdateRank, Rooted, Fixed, ChildLinks, LeafLinks;
    GrowingBasics(t, rk);
    FixedBasics(t, rsa, size, h);
    UpdateKeeps(t, rk, rsa, h.addr[0], h.hops);
    GrowingBasics(Update(t, rk, rsa, h.addr[0], h.hops), UpdateRank(t, rk, rsa, h.addr[0], h.hops));
    if NetOk(net) && Sound(net, t) && Honest(net, rsa, size, h) {
      UpdateSound(net, t, rk, rsa, h.addr[0], h.hops);
    }
  }

  // No response comes from the sender's own address, and within a phase a router always reports the
  // same distance.
  ghost predicate Fixed(t: Tree, rsa: Addr, size: nat, h: Header)
    requires Keyed(t) && |h.addr| >= 1
  {
    Discovery.RspOk(size, h) ==> rsa != t.root && SameHops(t, rsa, h.hops)
  }

  // A response that passes the checks comes from the network.
  ghost predicate Honest(net: Net, rsa: Addr, size: nat, h: Header)
    requires |h.addr| >= 1
  {
    Discovery.RspOk(size, h) ==> Genuine(net, rsa, h.addr[0], h.hops)
  }

  // What the event loop waits for: a packet on the discovery socket, the end of a discovery phase, or
  // the start of one, which only sends probes.
  datatype Event = Datagram(rsa: Addr, size: nat, hdr: Header) | Timeout | Interval

  ghost predicate HonestEvent(net: Net, e: Event) {
    e.Datagram? ==> |e.hdr.addr| >= 1 && Honest(net, e.rsa, e.size, e.hdr)
  }

  // Event `e` is a response of router `a` that reports `h` hops.
  ghost predicate Tells(e: Event, a: Addr, h: nat) {
    e.Datagram? && Discovery.RspOk(e.size, e.hdr) && e.rsa == a && e.hdr.hops == h
  }

  // No response comes from the sender's own address, and between two timeouts a router always reports
  // the same distance.
  ghost predicate Steadfast(root: Addr, events: seq<Event>) {
    && (forall i | 0 <= i < |events| && events[i].Datagram? ::
          |events[i].hdr.addr| >= 1 && (Discovery.RspOk(events[i].size, events[i].hdr) ==> events[i].rsa != root))
    && (forall i, j, a, h, h' | 0 <= i < j < |events| && Tells(events[i], a, h) && Tells(events[j], a, h') &&
          NoTimeout(events, i, j) :: h == h')
  }

  ghost predicate NoTimeout(events: seq<Event>, i: nat, j: nat)
    requires j <= |events|
  {
    forall k | i <= k < j :: !events[k].Timeout?
  }

  // Every router of the tree owes its hop count to an event of the current phase, which began at `from`.
  ghost predicate Recorded(t: Tree, events: seq<Event>, from: nat, i: nat)
    requires Keyed(t) && i <= |events|
  {
    from <= i && NoTimeout(events, from, i) &&
    forall a | a in t.parent && t.parent[a].Some? :: ToldIn(events, from, i, a, t.hops[a])
  }

  ghost predicate ToldIn(events: seq<Event>, from: nat, i: nat, a: Addr, h: nat)
    requires i <= |events|
  {
    exists k :: from <= k < i && Tells(events[k], a, h)
  }

  lemma RecordedFixed(t: Tree, events: seq<Event>, from: nat, i: nat)
    requires Keyed(t) && i < |events| && Recorded(t, events, from, i) && Steadfast(t.root, events)
        && events[i].Datagram?
    ensures |events[i].hdr.addr| >= 1 && Fixed(t, events[i].rsa, events[i].size, events[i].hdr)
  {
    var e := events[i];
    if Discovery.RspOk(e.size, e.hdr) && e.rsa in t.parent && t.parent[e.rsa].Some? {
      assert ToldIn(events, from, i, e.rsa, t.hops[e.rsa]);
      var k :| from <= k < i && Tells(events[k], e.rsa, t.hops[e.rsa]);
      assert Tells(events[i], e.rsa, e.hdr.hops) && NoTimeout(events, k, i);
    }
  }

  // A response that is carried out is recorded, and one that is not changes nothing.
  lemma RecordedNext(t: Tree, rk: map<Addr, nat>, t': Tree, events: seq<Event>, from: nat, i: nat)
    requires Keyed(t) && Keyed(t') && i < |events| && Recorded(t, events, from, i) && !events[i].Timeout?
    requires events[i].Datagram? ==> |events[i].hdr.addr| >= 1
    requires t' == t || (events[i].Datagram? &&
               var e := events[i];
               && Discovery.RspOk(e.size, e.hdr) && Rooted(t, rk) && e.hdr.addr[0] in t.home
               && e.rsa != t.root && e.rsa !in t.home
               && t' == Update(t, rk, e.rsa, e.hdr.addr[0], e.hdr.hops))
    ensures Recorded(t', events, from, i + 1)
  {
    hide ChildLinks, LeafLinks, Update, Position, DetachedEmpty, Ranked, AllHomed, Anc;
    if t' != t {
      var e := events[i];
      PositionFacts(t, rk, e.rsa, e.hdr.addr[0], e.hdr.hops);
      UpdateLinks(t, rk, e.rsa, e.hdr.addr[0], e.hdr.hops);
      assert Tells(events[i], e.rsa, e.hdr.hops);
    }
    forall a | a in t'.parent && t'.parent[a].Some? ensures ToldIn(events, from, i + 1, a, t'.hops[a]) {
      if a in t.parent && t.parent[a].Some? && t'.hops[a] == t.hops[a] {
        assert ToldIn(events, from, i, a, t.hops[a]);
      }
    }
  }

  ghost predicate AllHonest(net: Net, events: seq<Event>) {
    forall i | 0 <= i < |events| :: HonestEvent(net, events[i])
  }

  // Every discovery response that passes the checks is the answer of a router to a probe of this network.
  ghost predicate FromRouters(net: Net, events: seq<Event>)
    requires NetOk(net)
  {
    forall i | 0 <= i < |events| && events[i].Datagram? ::
      && |events[i].hdr.addr| >= 1
      && (Discovery.RspOk(events[i].size, events[i].hdr) ==> exists l, k: nat :: AnswerOf(net, events[i], l, k))
  }

  // `e` is what the router at position `k` of the route to `l` answers to the probe for `l`.
  ghost predicate AnswerOf(net: Net, e: Event, l: Addr, k: nat)
    requires NetOk(net)
  {
    && e.Datagram? && l in net.at && k < |Route(net, net.root, l)|
    && var ps := Discovery.Answers(Discovery.DcvPacket(net.root, l), Route(net, net.root, l));
       k < |ps| && ps[k].hdr.Some? && e == Datagram(ps[k].saddr, ps[k].plen, ps[k].hdr.value)
  }

  // In a network whose routes have less than 64 routers, all responses are genuine.
  lemma RoutersHonest(net: Net, events: seq<Event>)
    requires NetOk(net) && FromRouters(net, events) && forall l | l in net.at :: net.depth[net.at[l]] < 64
    ensures AllHonest(net, events)
  {
    hide OnRoute, Route, Genuine, Discovery.Answers, Discovery.RspOk;
    forall i | 0 <= i < |events| ensures HonestEvent(net, events[i]) {
      var e := events[i];
      if e.Datagram? && Discovery.RspOk(e.size, e.hdr) {
        var l, k: nat :| AnswerOf(net, e, l, k);
        Discovery.ProbeAnswers(net, net.root, l, k);
      }
    }
  }

  // Genuine responses are steadfast.
  lemma HonestSteadfast(net: Net, events: seq<Event>)
    requires AllHonest(net, events)
    ensures Steadfast(net.root, events)
  {
    hide OnRoute;
    forall i | 0 <= i < |events| && events[i].Datagram?
      ensures |events[i].hdr.addr| >= 1
              && (Discovery.RspOk(events[i].size, events[i].hdr) ==> events[i].rsa != net.root)
    {
      assert HonestEvent(net, events[i]);
    }
    forall i, a, h | 0 <= i < |events| && Tells(events[i], a, h) ensures a in net.depth && net.depth[a] == h {
      assert HonestEvent(net, events[i]);
    }
  }

  // The published group works in the network, and what the sender believes is true.
  ghost predicate Works(net: Net, t: Tree, txg: Option<TxGroup>, served: set<Addr>)
    requires Keyed(t)
  {
    NetOk(net) && Sound(net, t) && txg.Some? && Reaches(net, txg.value, served)
  }

  // The sender between two events.
  datatype Moment = Moment(t: Tree, rk: map<Addr, nat>, txg: Option<TxGroup>)

  ghost predicate Orderly(m: Moment, members: set<Addr>) {
    Keyed(m.t) && Growing(m.t, m.rk) && m.t.home.Keys == members
  }

  // What event `e` does: a response is carried out, and a timeout publishes the grouping of the reduced
  // tree and leaves one without routers.
  ghost predicate Happens(cfg: Config, e: Event, m: Moment, m': Moment) {
    match e
    case Datagram(rsa, size, h) =>
      m'.txg == m.txg && (m'.t, m'.rk) == Feed(m.t, m.rk, TellsOf(rsa, size, h, m.t.home.Keys))
    case Timeout => Keyed(m'.t) && m'.txg.Some? && Phase.AtRoot(m'.t) && Regrouped(cfg, m, m'.txg.value)
    case Interval => m' == m
  }

  ghost predicate Regrouped(cfg: Config, m: Moment, grp: TxGroup) {
    Keyed(m.t) && m.t.root in m.t.parent && exists reduced, grouped ::
      Reduction.Reduced(cfg, m.t, reduced, m.rk, m.t.root) && Keyed(grouped) && Grouped(cfg, reduced, grouped, grp)
  }

  // A run: every event happens between two moments. `good` says that all beliefs are true in `net`.
  ghost predicate Run(cfg: Config, members: set<Addr>, net: Net, good: bool, events: seq<Event>, log: seq<Moment>) {
    && 0 < |log| <= |events| + 1
    && (forall i | 0 <= i < |log| :: Orderly(log[i], members) && (good ==> Sound(net, log[i].t)))
    && (forall i | 0 < i < |log| :: Happens(cfg, events[i - 1], log[i - 1], log[i]))
  }

  lemma RunNext(cfg: Config, members: set<Addr>, net: Net, good: bool, events: seq<Event>, log: seq<Moment>, m: Moment)
    requires Run(cfg, members, net, good, events, log) && |log| <= |events|
    requires Orderly(m, members) && (good ==> Sound(net, m.t))
    requires Happens(cfg, events[|log| - 1], log[|log| - 1], m)
    ensures Run(cfg, members, net, good, events, log + [m])
  {
    hide Orderly, Happens, Sound, Keyed;
  }

  // Where the phase before position `i` began.
  function PhaseFrom(events: seq<Event>, i: nat): (from: nat)
    requires i <= |events|
    ensures from <= i && NoTimeout(events, from, i) && (from > 0 ==> events[from - 1].Timeout?)
  {
    if i == 0 || events[i - 1].Timeout? then i else PhaseFrom(events, i - 1)
  }

  // What was told about `members` between two positions.
  ghost function Told(events: seq<Event>, from: nat, i: nat, members: set<Addr>): seq<Report>
    requires from <= i <= |events|
  {
    if from == i then []
    else Told(events, from, i - 1, members) +
         match events[i - 1]
         case Datagram(rsa, size, h) => TellsOf(rsa, size, h, members)
         case _ => []
  }

  // Within a phase, the tree is that at its beginning after everything that was told since.
  lemma {:induction false} RunFeeds(cfg: Config, members: set<Addr>, net: Net, good: bool, events: seq<Event>,
                                    log: seq<Moment>, from: nat, i: nat)
    requires Run(cfg, members, net, good, events, log) && from <= i < |log| && NoTimeout(events, from, i)
    ensures (log[i].t, log[i].rk) == Feed(log[from].t, log[from].rk, Told(events, from, i, members))
    decreases i
  {
    hide Feed, Sound, Growing, TellsOf;
    if from < i {
      RunFeeds(cfg, members, net, good, events, log, from, i - 1);
      var a := Told(events, from, i - 1, members);
      match events[i - 1] {
        case Datagram(rsa, size, h) =>
          assert Orderly(log[i - 1], members) && Happens(cfg, events[i - 1], log[i - 1], log[i]);
          FeedConcat(log[from].t, log[from].rk, a, TellsOf(rsa, size, h, members));
        case Interval =>
          assert Happens(cfg, events[i - 1], log[i - 1], log[i]);
          assert a + [] == a;
      }
    } else {
      FeedNone(log[from].t, log[from].rk);
    }
  }

  lemma {:induction false} ToldGenuine(net: Net, t: Tree, events: seq<Event>, from: nat, i: nat)
    requires AllHonest(net, events) && from <= i <= |events|
    ensures Genuines(net, t, Told(events, from, i, t.home.Keys))
    decreases i
  {
    hide Genuine;
    if from < i {
      ToldGenuine(net, t, events, from, i - 1);
      assert HonestEvent(net, events[i - 1]);
    }
  }

  // All probes of the phase before position `i` have been answered.
  ghost predicate AllAnswered(net: Net, members: set<Addr>, events: seq<Event>, i: nat)
    requires i <= |events|
  {
    NetOk(net) && Phase.Answered(net, members, Told(events, PhaseFrom(events, i), i, members))
  }

  // Then the tree is the routing tree.
  lemma AnsweredRouted(cfg: Config, members: set<Addr>, net: Net, events: seq<Event>, log: seq<Moment>, i: nat)
    requires Run(cfg, members, net, true, events, log) && i < |log| && AllHonest(net, events)
    requires Keyed(log[0].t) && Phase.AtRoot(log[0].t) && AllAnswered(net, members, events, i)
    ensures Phase.Routed(net, log[i].t)
  {
    hide Feed, Sound, Growing, Keyed, Phase.Routed, Phase.Answered, Phase.AtRoot, NetOk, HonestEvent, Told, AllHonest;
    var from := PhaseFrom(events, i);
    RunFeeds(cfg, members, net, true, events, log, from, i);
    assert Orderly(log[from], members);
    if from > 0 {
      assert Happens(cfg, events[from - 1], log[from - 1], log[from]);
    }
    ToldGenuine(net, log[from].t, events, from, i);
    Phase.PhaseCompletes(net, log[from].t, log[from].rk, Told(events, from, i, members));
  }

  // The event loop, in any order of responses and timeouts. The sender stays valid; and when the
  // responses come from the network, the published group always reaches every receiver exactly once.
  method DxLoop(s: Sender, events: seq<Event>, ghost net: Net) returns (ghost log: seq<Moment>)
    requires s.Valid() && Steadfast(s.st.root, events) && forall a | a in s.st.parent :: s.st.parent[a] == None
    modifies s`txg, s`found, s`rk, s`served, s.g, s.st
    ensures s.Valid() && Keyed(s.st.T()) && Keyed(old(s.st.T())) && s.rcvr == old(s.rcvr)
        && s.st.home.Keys == old(s.st.home.Keys) && (s.served == old(s.served) || s.served == s.st.home.Keys)
    ensures old(s.txg.Some?) ==> s.txg.Some?
    ensures old(Works(net, s.st.T(), s.txg, s.served)) && AllHonest(net, events) ==>
              Works(net, s.st.T(), s.txg, s.served)
    ensures var good := NetOk(net) && old(Sound(net, s.st.T())) && AllHonest(net, events);
            Run(s.cfg, s.st.home.Keys, net, good, events, log)
    ensures |log| == |events| + 1 && log[0] == old(Moment(s.st.T(), s.rk, s.txg))
        && log[|events|] == Moment(s.st.T(), s.rk, s.txg) && Phase.AtRoot(log[0].t)
  {
    hide Sound, NetOk, Reaches, Growing, Honest, Fixed, Addresses, Grouped, Reset.Restarted, Reduction.Reduced,
         Keyed, Rooted, Recorded, Run, Happens, Feed, Phase.AtRoot, Orderly, Works, AllHonest,
         Steadfast, Update, UpdateRoot, Sender.Valid, Discovery.RspOk, TellsOf, NoTimeout, HonestEvent, Linked;
    ValidBasics(s);
    ghost var good := Works(net, s.st.T(), s.txg, s.served) && AllHonest(net, events);
    ghost var sound := NetOk(net) && Sound(net, s.st.T()) && AllHonest(net, events);
    ghost var from := 0;
    RecordedStart(s.st.T(), events, 0);
    FlatStart(s.st.T(), s.rk);
    OrderlyIs(s.st.T(), s.rk, s.txg);
    log := [Moment(s.st.T(), s.rk, s.txg)];
    RunStart(s.cfg, s.st.home.Keys, net, sound, events, log[0]);
    var i := 0;
    while i < |events|
      invariant 0 <= i <= |events|
      invariant s.Valid() && Keyed(s.st.T()) && s.rcvr == old(s.rcvr) && s.st.home.Keys == old(s.st.home.Keys)
      invariant s.served == old(s.served) || s.served == s.st.home.Keys
      invariant old(s.txg.Some?) ==> s.txg.Some?
      invariant good ==> Works(net, s.st.T(), s.txg, s.served)
      invariant sound ==> Sound(net, s.st.T())
      invariant Recorded(s.st.T(), events, from, i)
      invariant Run(s.cfg, s.st.home.Keys, net, sound, events, log)
      invariant |log| == i + 1 && log[0] == old(Moment(s.st.T(), s.rk, s.txg))
          && log[i] == Moment(s.st.T(), s.rk, s.txg)
    {
      ghost var t, rk := s.st.T(), s.rk;
      match events[i] {
        case Datagram(rsa, size, h) =>
          RecordedFixed(t, events, from, i);
          if good || sound { HonestAt(net, events, i); }
          WorksSound(net, t, s.txg, s.served);
          var ret := s.RxDcvr(rsa, size, h, net);
          ValidBasics(s);
          FixedRoot(t, rsa, size, h);
          RecordedNext(t, rk, s.st.T(), events, from, i);
          if good { WorksStill(net, t, s.st.T(), s.txg, s.served); }
          HappensDatagram(s.cfg, rsa, size, h, log[i], Moment(s.st.T(), s.rk, s.txg));
        case Timeout =>
          WorksSound(net, t, s.txg, s.served);
          ghost var reduced, grouped := s.ToutHandler(net);
          if good { WorksAgain(net, s.st.T(), s.txg, s.served); }
          ValidBasics(s);
          from := i + 1;
          RecordedStart(s.st.T(), events, i + 1);
          FlatStart(s.st.T(), s.rk);
          HappensTimeout(s.cfg, log[i], Moment(s.st.T(), s.rk, s.txg), reduced, grouped);
        case Interval =>
          RecordedNext(t, rk, s.st.T(), events, from, i);
          HappensInterval(s.cfg, log[i]);
      }
      ValidBasics(s);
      OrderlyIs(s.st.T(), s.rk, s.txg);
      RunNext(s.cfg, s.st.home.Keys, net, sound, events, log, Moment(s.st.T(), s.rk, s.txg));
      log := log + [Moment(s.st.T(), s.rk, s.txg)];
      i := i + 1;
    }
  }

  lemma ValidBasics(s: Sender)
    requires s.Valid()
    ensures Keyed(s.st.T()) && Growing(s.st.T(), s.rk)
  {
    hide Growing;
  }

  lemma OrderlyIs(t: Tree, rk: map<Addr, nat>, txg: Option<TxGroup>)
    requires Keyed(t) && Growing(t, rk)
    ensures Orderly(Moment(t, rk, txg), t.home.Keys)
  {
    hide Growing;
  }

  lemma HonestAt(net: Net, events: seq<Event>, i: nat)
    requires AllHonest(net, events) && i < |events| && events[i].Datagram?
    ensures |events[i].hdr.addr| >= 1 && Honest(net, events[i].rsa, events[i].size, events[i].hdr)
  {
    hide Honest;
    assert HonestEvent(net, events[i]);
  }

  lemma WorksSound(net: Net, t: Tree, txg: Option<TxGroup>, served: set<Addr>)
    requires Keyed(t)
    ensures Works(net, t, txg, served) ==> NetOk(net) && Sound(net, t)
  {
    hide Sound, NetOk, Reaches;
  }

  lemma WorksStill(net: Net, t: Tree, t': Tree, txg: Option<TxGroup>, served: set<Addr>)
    requires Keyed(t) && Keyed(t') && Works(net, t, txg, served) && Sound(net, t')
    ensures Works(net, t', txg, served)
  {
    hide Sound, NetOk, Reaches;
  }

  lemma WorksAgain(net: Net, t: Tree, txg: Option<TxGroup>, served: set<Addr>)
    requires Keyed(t) && NetOk(net) && Sound(net, t) && txg.Some? && Reaches(net, txg.value, served)
    ensures Works(net, t, txg, served)
  {
    hide Sound, NetOk, Reaches;
  }

  lemma RunStart(cfg: Config, members: set<Addr>, net: Net, good: bool, events: seq<Event>, m: Moment)
    requires Orderly(m, members) && (good ==> Sound(net, m.t))
    ensures Run(cfg, members, net, good, events, [m])
  {
    hide Orderly, Happens, Sound, Keyed;
  }

  lemma FlatStart(t: Tree, rk: map<Addr, nat>)
    requires Growing(t, rk) && forall a | a in t.parent :: t.parent[a] == None
    ensures Phase.AtRoot(t)
  {
    hide ChildLinks, HopsUp, Ranked;
    forall l | l in t.home ensures t.home[l] == Some(t.root) {
      assert l in t.leaf[t.home[l].value];
    }
  }

  lemma HappensDatagram(cfg: Config, rsa: Addr, size: nat, h: Header, m: Moment, m': Moment)
    requires m'.txg == m.txg && (m'.t, m'.rk) == Feed(m.t, m.rk, TellsOf(rsa, size, h, m.t.home.Keys))
    ensures Happens(cfg, Datagram(rsa, size, h), m, m')
  {
    hide Feed, TellsOf;
  }

  lemma HappensTimeout(cfg: Config, m: Moment, m': Moment, reduced: Tree, grouped: Tree)
    requires Keyed(m.t) && m.t.root in m.t.parent && Reduction.Reduced(cfg, m.t, reduced, m.rk, m.t.root)
    requires Keyed(grouped) && m'.txg.Some? && Grouped(cfg, reduced, grouped, m'.txg.value)
    requires Keyed(m'.t) && Phase.AtRoot(m'.t)
    ensures Happens(cfg, Timeout, m, m')
  {
    hide Keyed, Reduction.Reduced, Grouped, Phase.AtRoot;
  }

  lemma HappensInterval(cfg: Config, m: Moment)
    ensures Happens(cfg, Interval, m, m)
  {
  }

  lemma FixedRoot(t: Tree, rsa: Addr, size: nat, h: Header)
    requires Keyed(t) && |h.addr| >= 1 && Fixed(t, rsa, size, h)
    ensures Discovery.RspOk(size, h) ==> rsa != t.root
  {
  }

  lemma RecordedStart(t: Tree, events: seq<Event>, i: nat)
    requires Keyed(t) && i <= |events| && forall a | a in t.parent :: t.parent[a] == None
    ensures Recorded(t, events, i, i)
  {
  }

  lemma JoinSound(net: Net, t: Tree, l: Addr)
    requires NetOk(net) && Keyed(t) && Sound(net, t) && l in net.at && l !in t.parent && Keyed(Joining(t, l))
    ensures Sound(net, Joining(t, l))
  {
    hide SoundEdge, Anc;
    assert OnRoute(net, net.root, l) by { UpRoot(net, net.at[l]); }
  }

  // No receiver is named twice, and none has the sender's own address.
  ghost predicate Joinable(members: seq<Addr>, sa: Addr) {
    Distinct(members) && sa !in members
  }

  // All receivers of the network join, unless one is refused.
  method JoinAll(s: Sender, members: seq<Addr>, ghost net: Net) returns (ok: bool)
    requires s.Valid() && NetOk(net) && Sound(net, s.st.T()) && s.st.home.Keys == {}
    requires forall i | 0 <= i < |members| :: members[i] in net.at || members[i] == net.root
    modifies s`rcvr, s.st
    ensures s.Valid() && Keyed(s.st.T()) && Sound(net, s.st.T()) && s.st.parent == old(s.st.parent)
    ensures ok <==> Joinable(members, net.root)
    ensures ok ==> s.st.home.Keys == SetOf(members)
  {
    hide Sound, NetOk, Growing, Addresses, Keyed, SetOf, Distinct;
    NoneYet(members);
    ok := true;
    var i := 0;
    while ok && i < |members|
      invariant 0 <= i <= |members| && s.Valid() && Keyed(s.st.T()) && Sound(net, s.st.T())
          && s.st.parent == old(s.st.parent)
      invariant ok ==> s.st.home.Keys == SetOf(members[..i]) && Joinable(members[..i], net.root)
      invariant !ok ==> !Joinable(members, net.root)
      decreases |members| - i, ok
    {
      ok := JoinNext(s, members, i, net);
      if ok { i := i + 1; }
    }
    assert members[..|members|] == members;
  }

  method JoinNext(s: Sender, members: seq<Addr>, i: nat, ghost net: Net) returns (ok: bool)
    requires s.Valid() && NetOk(net) && Keyed(s.st.T()) && Sound(net, s.st.T())
    requires i < |members| && (members[i] in net.at || members[i] == net.root)
    requires s.st.home.Keys == SetOf(members[..i]) && Joinable(members[..i], net.root)
    modifies s`rcvr, s.st
    ensures s.Valid() && Keyed(s.st.T()) && Sound(net, s.st.T()) && s.st.parent == old(s.st.parent)
    ensures if ok then s.st.home.Keys == SetOf(members[..i + 1]) && Joinable(members[..i + 1], net.root)
            else !Joinable(members, net.root)
  {
    hide Sound, NetOk, Growing, Addresses, ChildLinks, LeafLinks, Keyed, Linked, SetOf, Distinct, Joining,
         Joinable;
    ghost var t := s.st.T();
    SetOfNext(members, i);
    NotRouter(net, t, members[i]);
    RootKnown(net, t);
    if members[i] !in s.st.parent { JoinReady(t, s.rk, members[i]); }
    JoinableNext(members, i, net.root);
    var ret := s.Join(members[i]);
    ok := ret == 0;
    if ok { JoinSound(net, t, members[i]); }
  }

  // The life of a sender: receivers join, transmission starts by unicast, and events are handled.
  // Without receivers, or with one that is named twice or has the sender's own address, the program ends
  // before it starts.
  method Start(cfg: Config, sa: Addr, members: seq<Addr>, events: seq<Event>, ghost net: Net) returns (s: Sender,
               ok: bool, ghost log: seq<Moment>)
    requires Checked(cfg) && NetOk(net) && net.root == sa
    requires forall i | 0 <= i < |members| :: members[i] in net.at || members[i] == sa
    requires AllHonest(net, events)
    ensures ok <==> members != [] && Joinable(members, sa)
    ensures fresh(s) && fresh(s.st) && fresh(s.g) && s.Valid()
    ensures ok ==> s.st.home.Keys == SetOf(members) && s.txg.Some? && Reaches(net, s.txg.value, SetOf(members))
    ensures ok ==> |log| == |events| + 1 && Run(cfg, SetOf(members), net, true, events, log)
                   && s.txg == log[|events|].txg
    ensures ok ==> forall i | 0 <= i <= |events| && AllAnswered(net, SetOf(members), events, i) ::
                     Phase.Routed(net, log[i].t)
  {
    hide Run, AllAnswered, Phase.Routed, Phase.AtRoot;
    hide Sound, NetOk, Reaches, Growing, Honest, Fixed, Addresses, ChildLinks, LeafLinks, Keyed, Linked, SetOf,
         Joinable;
    log := [];
    s := new Sender(cfg, sa);
    BareSound(net, s.st.T(), sa);
    ok := JoinAll(s, members, net);
    if !ok { return; }
    Started(net, s.st.T(), s.rk, s.cfg, s.rcvr, members);
    HonestSteadfast(net, events);
    var r := s.InitTxg();
    if r < 0 { return s, false, []; }
    log := DxLoop(s, events, net);
    forall i | 0 <= i <= |events| && AllAnswered(net, SetOf(members), events, i) ensures Phase.Routed(net, log[i].t) {
      AnsweredRouted(cfg, SetOf(members), net, events, log, i);
    }
  }

  lemma DistinctNext(s: seq<Addr>, i: nat)
    requires i < |s| && Distinct(s[..i])
    ensures s[i] in SetOf(s[..i]) ==> !Distinct(s)
    ensures s[i] !in SetOf(s[..i]) ==> Distinct(s[..i + 1])
  {
    if s[i] in SetOf(s[..i]) {
      var k :| 0 <= k < i && s[..i][k] == s[i];
      assert s[k] == s[i];
    } else {
      assert s[..i + 1] == s[..i] + [s[i]];
      DistinctConcat(s[..i], [s[i]]);
    }
  }

  lemma JoinableNext(s: seq<Addr>, i: nat, sa: Addr)
    requires i < |s| && Joinable(s[..i], sa)
    ensures s[i] in SetOf(s[..i]) || s[i] == sa ==> !Joinable(s, sa)
    ensures s[i] !in SetOf(s[..i]) && s[i] != sa ==> Joinable(s[..i + 1], sa)
  {
    hide Distinct;
    DistinctNext(s, i);
    assert s[i] in s;
    assert s[..i + 1] == s[..i] + [s[i]];
  }

  lemma RootKnown(net: Net, t: Tree)
    requires Keyed(t) && Sound(net, t)
    ensures net.root in t.parent
  {
  }

  ghost function SetOf(s: seq<Addr>): set<Addr> {
    set a | a in s
  }

  lemma SetOfNext(s: seq<Addr>, i: nat)
    requires i < |s|
    ensures SetOf(s[..i + 1]) == SetOf(s[..i]) + {s[i]}
  {
    assert s[..i + 1] == s[..i] + [s[i]];
  }

  lemma NoneYet(s: seq<Addr>)
    ensures SetOf(s[..0]) == {} && forall sa :: Joinable(s[..0], sa)
  {
  }

  lemma NotRouter(net: Net, t: Tree, l: Addr)
    requires Keyed(t) && Sound(net, t)
    ensures l in net.at ==> l !in t.parent
  {
    hide SoundEdge, OnRoute;
  }

  lemma JoinReady(t: Tree, rk: map<Addr, nat>, l: Addr)
    requires Growing(t, rk) && Keyed(t) && l !in t.parent
    ensures l !in t.home ==> Keyed(Joining(t, l)) && Joining(t, l).home.Keys == t.home.Keys + {l}
  {
    hide Growing;
    if l !in t.home { JoinGrows(t, rk, l); }
  }

  lemma BareSound(net: Net, t: Tree, sa: Addr)
    requires NetOk(net) && net.root == sa && Keyed(t)
    requires t == Tree(sa, map[sa := None], map[sa := 0], map[sa := []], map[sa := 0], map[sa := []], map[sa := 0],
                       map[])
    ensures Sound(net, t) && t.home.Keys == {}
  {
  }

  lemma Started(net: Net, t: Tree, rk: map<Addr, nat>, cfg: Config, rcvr: seq<Addr>, members: seq<Addr>)
    requires NetOk(net) && Keyed(t) && Growing(t, rk) && Sound(net, t)
    requires multiset(rcvr) == multiset(t.home.Keys) && t.home.Keys == SetOf(members)
    ensures (rcvr != [] <==> members != []) && Reaches(net, TxGroup([], rcvr), t.home.Keys)
  {
    hide Sound, NetOk, Reaches, ChildLinks, LeafLinks, HopsUp;
    if members != [] {
      assert members[0] in t.home.Keys;
      assert members[0] in multiset(rcvr);
    }
    if rcvr != [] {
      assert rcvr[0] in multiset(t.home.Keys);
    }
    assert AllRcv([]) + rcvr == rcvr;
    GroupReaches(net, t, rk, cfg, TxGroup([], rcvr));
  }
}
