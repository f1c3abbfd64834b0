// Greedy grouping: receivers are packed into MEADcast headers by a traversal of the topology tree
// that jumps between routers, closes a group when it is full, and starts the next one at a deepest
// router with free leaves.
module Grouping {
  import opened Base
  import opened Forest
  import opened Header
  import opened Consumption
  import opened Packing
  import opened Nodes

  // What the sender transmits: MEADcast headers and the receivers served by unicast.
  datatype TxGroup = TxGroup(mdc: seq<Header>, uni: seq<Addr>)

  // Only the counters differ, and no leaf of the root has been handed out.
  ghost predicate SameTree(t0: Tree, t: Tree) {
    && t == t0.(fchild := t.fchild, fleaf := t.fleaf)
    && t.fchild.Keys == t0.fchild.Keys && t.fleaf.Keys == t0.fleaf.Keys
    && (t0.root in t0.fleaf ==> t.fleaf[t0.root] == t0.fleaf[t0.root])
  }

  // `tail` continues `path` by parent links through routers that are all exhausted.
  ghost predicate Tail(t: Tree, path: seq<Addr>, tail: seq<Addr>)
    requires |path| > 0
  {
    forall i | 0 <= i < |tail| :: Spent(t, tail[i], Before(path, tail, i))
  }

  function Before(path: seq<Addr>, tail: seq<Addr>, i: nat): Addr
    requires |path| > 0 && i <= |tail|
  {
    if i == 0 then Last(path) else tail[i - 1]
  }

  ghost predicate Spent(t: Tree, a: Addr, p: Addr) {
    Exhausted(t, a) && a in t.parent && t.parent[a] == Some(p)
  }

  // `out` holds, without repetition, exactly the leaves in front of the free ones of every router
  // except the root.
  ghost predicate Emitted(t: Tree, out: seq<Addr>)
    requires Keyed(t)
  {
    && Distinct(out)
    && (forall l :: l in out ==> Homed(t, l) && t.home[l] != Some(t.root))
    && (forall a, i | a in t.parent && a != t.root && 0 <= i < |t.leaf[a]| ::
          t.leaf[a][i] in out <==> i < |t.leaf[a]| - t.fleaf[a])
  }

  ghost predicate HandedOk(t: Tree, r: Addr, m: nat) {
    r in t.leaf && r in t.fleaf && m <= t.fleaf[r] <= |t.leaf[r]|
  }

  // The first `m` free leaves of `r`.
  ghost function Handed(t: Tree, r: Addr, m: nat): seq<Addr>
    requires HandedOk(t, r, m)
  {
    var u := |t.leaf[r]| - t.fleaf[r];
    t.leaf[r][u..u + m]
  }

  // Handing out leaves emits them.
  lemma EmitMore(t: Tree, r: Addr, m: nat, out: seq<Addr>)
    requires Linked(t) && Emitted(t, out) && r in t.parent && r != t.root && HandedOk(t, r, m)
    ensures Emitted(Take(t, r, m), out + Handed(t, r, m))
  {
    hide ChildLinks, LeafLinks;
    var more := Handed(t, r, m);
    assert Distinct(more) && forall l :: l in more ==> l in t.leaf[r] && l !in out by { HandedNew(t, r, m, out); }
    DistinctConcat(out, more);
    var t' := Take(t, r, m);
    forall a, i | a in t.parent && a != t.root && 0 <= i < |t.leaf[a]|
      ensures t.leaf[a][i] in out + more <==> i < |t.leaf[a]| - t'.fleaf[a]
    {
      HandedAt(t, r, m, a, i);
    }
    forall l | l in out + more ensures Homed(t, l) && t.home[l] != Some(t.root) {
      if l in more { LeafHome(t, r, l); }
    }
  }

  lemma LeafHome(t: Tree, r: Addr, l: Addr)
    requires Linked(t) && r in t.parent && l in t.leaf[r]
    ensures Homed(t, l) && t.home[l] == Some(r)
  {
  }

  lemma HandedNew(t: Tree, r: Addr, m: nat, out: seq<Addr>)
    requires Linked(t) && Emitted(t, out) && r in t.parent && r != t.root && HandedOk(t, r, m)
    ensures Distinct(Handed(t, r, m)) && forall l :: l in Handed(t, r, m) ==> l in t.leaf[r] && l !in out
  {
    hide ChildLinks;
    var u, more := |t.leaf[r]| - t.fleaf[r], Handed(t, r, m);
    assert Distinct(t.leaf[r]);
    forall l | l in more ensures l in t.leaf[r] && l !in out {
      var i :| 0 <= i < m && more[i] == l;
      assert t.leaf[r][u + i] == l;
    }
  }

  // A leaf is handed out exactly if it is one of the first free ones of the router.
  lemma HandedAt(t: Tree, r: Addr, m: nat, a: Addr, i: nat)
    requires Linked(t) && r in t.parent && HandedOk(t, r, m) && a in t.parent && i < |t.leaf[a]|
    ensures t.leaf[a][i] in Handed(t, r, m) <==> a == r && |t.leaf[r]| - t.fleaf[r] <= i < |t.leaf[r]| - t.fleaf[r] + m
  {
    hide ChildLinks;
    var u, more := |t.leaf[r]| - t.fleaf[r], Handed(t, r, m);
    assert t.leaf[a][i] in t.leaf[a];
    if a == r && u <= i < u + m {
      assert more[i - u] == t.leaf[a][i];
    }
    if t.leaf[a][i] in more {
      var k :| 0 <= k < m && more[k] == t.leaf[a][i];
      assert t.leaf[r][u + k] in t.leaf[r];
      assert a == r;
    }
  }

  // A router on a chain below the root is free, hence not exhausted.
  lemma ChainLive(t: Tree, path: seq<Addr>)
    requires Linked(t) && Chain(t, path) && |path| > 1 && Consumed(t, t.root)
    ensures !Exhausted(t, Last(path)) && t.parent[Last(path)] == Some(path[|path| - 2]) && Last(path) != t.root
  {
    var i := |path| - 2;
    assert Step(t, path[i], path[i + 1]);
    ChainParent(t, path, i);
  }

  lemma TailPop(t: Tree, path: seq<Addr>, tail: seq<Addr>)
    requires |path| > 0 && tail != [] && Tail(t, path, tail)
    ensures Tail(t, path, tail[..|tail| - 1])
    ensures Spent(t, Last(path + tail), Last(path + tail[..|tail| - 1]))
  {
    var n := |tail| - 1;
    var rest := tail[..n];
    assert Spent(t, tail[n], Before(path, tail, n));
    forall i | 0 <= i < n ensures Spent(t, rest[i], Before(path, rest, i)) {
      assert Spent(t, tail[i], Before(path, tail, i));
    }
  }

  // A free counter never exceeds the length of its list.
  ghost predicate Bounded(t: Tree)
    requires Keyed(t)
  {
    forall a | a in t.parent :: t.fchild[a] <= |t.child[a]| && t.fleaf[a] <= |t.leaf[a]|
  }

  lemma FirstFree(t: Tree, rk: map<Addr, nat>, q: Addr)
    requires Linked(t) && Ranked(t.parent, rk) && Bounded(t) && q in t.parent && q in rk && t.fchild[q] > 0
    ensures 0 <= |t.child[q]| - t.fchild[q] < |t.child[q]|
    ensures var c := t.child[q][|t.child[q]| - t.fchild[q]];
            c in t.parent && t.parent[c] == Some(q) && c in rk && Higher(rk, c) < Higher(rk, q)
  {
    var c := t.child[q][|t.child[q]| - t.fchild[q]];
    assert c in t.child[q];
    Deeper(rk, q, c);
  }

  // The end of the descent from `q` along first free children, and the last router on it with free
  // leaves, or `s` when there is none.
  ghost function FreeEnd(t: Tree, rk: map<Addr, nat>, q: Addr, s: Option<Addr>): (Addr, Option<Addr>)
    requires Linked(t) && Ranked(t.parent, rk) && Bounded(t) && q in t.parent && q in rk
    decreases Higher(rk, q)
  {
    if t.fchild[q] == 0 then (q, s)
    else
      FirstFree(t, rk, q);
      var c := t.child[q][|t.child[q]| - t.fchild[q]];
      FreeEnd(t, rk, c, if t.fleaf[c] > 0 then Some(c) else s)
  }

  // A start router is searched from `r` by its own descent first.
  ghost function OwnStart(t: Tree, r: Addr): Option<Addr>
    requires Keyed(t) && r in t.parent
  {
    if t.parent[r].Some? && t.fleaf[r] > 0 then Some(r) else None
  }

  // A descent from a chain extends it.
  lemma {:induction false} FreeEndDown(t: Tree, rk: map<Addr, nat>, path: seq<Addr>, q: Addr,
                                       s: Option<Addr>) returns (path': seq<Addr>)
    requires Linked(t) && Ranked(t.parent, rk) && Consumed(t, t.root) && Bounded(t) && q in t.parent && q in rk
    requires Down(t, path, q, t.child[q][|t.child[q]| - t.fchild[q]..], s)
    ensures var (e, s') := FreeEnd(t, rk, q, s);
            Down(t, path', e, [], s')
    decreases Higher(rk, q)
  {
    hide Chain, Consumed, ChildLinks, LeafLinks, Ranked, Exhausted, Higher;
    var c := t.child[q][|t.child[q]| - t.fchild[q]..];
    if t.fchild[q] == 0 {
      path' := path;
      assert c == [];
    } else {
      FirstFree(t, rk, q);
      DownStep(t, rk, path, q, c, s);
      path' := FreeEndDown(t, rk, path + [c[0]], c[0], if t.fleaf[c[0]] > 0 then Some(c[0]) else s);
    }
  }

  // Where a descent along the first free children stands: at the end `q` of a chain, with the free
  // children `c` of `q`, having last seen free leaves at `s`.
  ghost predicate Down(t: Tree, path: seq<Addr>, q: Addr, c: seq<Addr>, s: Option<Addr>)
    requires Keyed(t)
  {
    && Chain(t, path) && q == Last(path)
    && t.fchild[q] <= |t.child[q]| && c == t.child[q][|t.child[q]| - t.fchild[q]..]
    && (if |path| == 1 then s == None
        else q != t.root && !Exhausted(t, q) && t.parent[q].Some? && (t.fleaf[q] > 0 ==> s == Some(q)))
  }

  // The router where a start is searched, and what is known about its counters.
  lemma StartBounds(t: Tree, path: seq<Addr>, tail: seq<Addr>)
    requires Linked(t) && Chain(t, path) && Tail(t, path, tail) && Consumed(t, t.root)
    ensures |path| > 0 && |path + tail| > 0
    ensures var r := Last(path + tail);
            && r in t.parent && t.fchild[r] <= |t.child[r]|
            && (tail == [] ==> r == Last(path))
            && (tail != [] ==> t.fchild[r] == 0 && t.fleaf[r] == 0)
  {
    if tail != [] { TailPop(t, path, tail); } else { assert path + tail == path; }
  }

  lemma BoundedNow(t: Tree, rk: map<Addr, nat>, r: Addr)
    requires Linked(t) && Ranked(t.parent, rk) && Consumed(t, t.root) && r in t.parent
    ensures Bounded(t) && r in rk
  {
  }

  // Nothing to descend to.
  lemma EndHere(t: Tree, rk: map<Addr, nat>, r: Addr)
    requires Linked(t) && Ranked(t.parent, rk) && Bounded(t) && r in t.parent && r in rk
    requires t.fchild[r] == 0
    ensures FreeEnd(t, rk, r, OwnStart(t, r)) == (r, OwnStart(t, r))
    ensures t.fleaf[r] == 0 ==> OwnStart(t, r) == None
  {
  }

  lemma DownStart(t: Tree, path: seq<Addr>)
    requires Linked(t) && Chain(t, path) && Consumed(t, t.root)
    ensures var q := Last(path);
            Down(t, path, q, t.child[q][|t.child[q]| - t.fchild[q]..],
                 if t.parent[q].Some? && t.fleaf[q] > 0 then Some(q) else None)
  {
    if |path| > 1 { ChainLive(t, path); }
  }

  lemma DownStep(t: Tree, rk: map<Addr, nat>, path: seq<Addr>, q: Addr, c: seq<Addr>, s: Option<Addr>)
    requires Linked(t) && Ranked(t.parent, rk) && Consumed(t, t.root) && Down(t, path, q, c, s) && c != []
    ensures c[0] in t.parent && t.fchild[c[0]] <= |t.child[c[0]]|
    ensures var d := c[0];
            Down(t, path + [d], d, t.child[d][|t.child[d]| - t.fchild[d]..], if t.fleaf[d] > 0 then Some(d) else s)
  {
    ChainDescend(t, path);
    ChainLive(t, path + [c[0]]);
  }

  lemma VisitedMore(path: seq<Addr>, a: Addr)
    ensures Visited(path + [a]) == Visited(path) + {a}
  {
    forall x ensures x in path + [a] <==> x in path || x == a {
      assert (path + [a])[|path|] == a;
      if x in path { var i :| 0 <= i < |path| && path[i] == x; assert (path + [a])[i] == x; }
    }
  }

  ghost function Visited(path: seq<Addr>): set<Addr> {
    set a | a in path
  }

  // At the bottom of a descent there are free leaves, unless nothing below the root is free.
  lemma DownEnd(t: Tree, path: seq<Addr>, q: Addr, s: Option<Addr>)
    requires Linked(t) && Down(t, path, q, [], s)
    ensures t.fchild[q] == 0
    ensures s.None? <==> t.fchild[t.root] == 0
    ensures s.None? ==> t.parent[q] == None
    ensures s.Some? ==> |path| > 1 && s == Some(q) && t.fleaf[q] > 0
  {
    if |path| > 1 {
      assert Step(t, path[0], path[1]);
    }
  }

  lemma DownChain(t: Tree, path: seq<Addr>, q: Addr, s: Option<Addr>)
    requires Keyed(t) && Down(t, path, q, [], s)
    ensures Chain(t, path) && Last(path) == q && q in t.parent
  {
  }

  // The policy for routers whose leaves fit into one group: all of them are handed out at once.
  ghost predicate Unsplit(cfg: Config, leaf: map<Addr, seq<Addr>>, fleaf: map<Addr, nat>) {
    forall a | a in leaf && a in fleaf && |leaf[a]| < Capacity(cfg) :: fleaf[a] == 0 || fleaf[a] == |leaf[a]|
  }

  // All receivers in the list `a` from position `n` on belong to one router.
  ghost predicate Batch(t: Tree, a: seq<Addr>, bm: set<nat>, n: nat) {
    n < |a| && exists r :: BatchOf(t, a, bm, n, r)
  }

  ghost predicate BatchOf(t: Tree, a: seq<Addr>, bm: set<nat>, n: nat, r: Addr) {
    forall i | n <= i < |a| && i !in bm :: a[i] in t.home && t.home[a[i]] == Some(r)
  }

  // The decision about the `f` free leaves of a router when `n` entries are in use, of which the
  // router may need `p` more: whether the group is closed, and how many leaves are appended.
  function Decision(cfg: Config, n: nat, f: nat, p: nat): (bool, nat)
    requires n + p <= Capacity(cfg)
  {
    var max := Capacity(cfg);
    if f == 0 then (false, 0)
    else if n + f + p > max then (true, if f >= max || cfg.splitNodes then max - n - p else 0)
    else (n + f + p + 1 >= max || n + f + p >= cfg.okAddrs, f)
  }

  // The decision has been carried out: `k` leaves of `r` have been appended, behind its entry if it
  // needs one.
  ghost predicate Decided(cfg: Config, t: Tree, n: nat, fleaf: map<Addr, nat>, r: Addr, p: nat, a: seq<Addr>,
                          bm: set<nat>,
                          closed: bool, fleaf': map<Addr, nat>, n': nat, a': seq<Addr>, bm': set<nat>)
  {
    && n + p <= Capacity(cfg) && r in fleaf
    && var (c, k) := Decision(cfg, n, fleaf[r], p);
       && closed == c && k <= fleaf[r] && fleaf' == fleaf[r := fleaf[r] - k] && |a'| == n'
       && if k == 0 then n' == n && a' == a && bm' == bm else n' == n + p + k && Batch(t, a', bm', n)
  }

  // Before the receivers of its last router were appended, the list was shorter than `okAddrs` and
  // had room for another router with a receiver.
  ghost predicate LastBatch(cfg: Config, t: Tree, a: seq<Addr>, bm: set<nat>) {
    exists n: nat :: LastFrom(cfg, t, a, bm, n)
  }

  ghost predicate LastFrom(cfg: Config, t: Tree, a: seq<Addr>, bm: set<nat>, n: nat) {
    n < cfg.okAddrs && n + 2 <= Capacity(cfg) && Batch(t, a, bm, n)
  }

  lemma DecidedKeeps(cfg: Config, t: Tree, n: nat, fleaf: map<Addr, nat>, r: Addr, p: nat, a: seq<Addr>, bm: set<nat>,
                     closed: bool, fleaf': map<Addr, nat>, n': nat, a': seq<Addr>, bm': set<nat>)
    requires Decided(cfg, t, n, fleaf, r, p, a, bm, closed, fleaf', n', a', bm') && n < cfg.okAddrs
        && n + 2 <= Capacity(cfg) && p <= 1
    requires r in t.leaf && fleaf[r] <= |t.leaf[r]| && (n > 0 ==> LastBatch(cfg, t, a, bm))
    ensures n' > 0 ==> LastBatch(cfg, t, a', bm')
    ensures !closed ==> n' < cfg.okAddrs
    ensures !cfg.splitNodes && Unsplit(cfg, t.leaf, fleaf) ==> Unsplit(cfg, t.leaf, fleaf')
  {
    hide Batch, Unsplit;
    if Decision(cfg, n, fleaf[r], p).1 > 0 { assert LastFrom(cfg, t, a', bm', n); }
    if !cfg.splitNodes && Unsplit(cfg, t.leaf, fleaf) { UnsplitKeeps(cfg, t.leaf, fleaf, r, n, p); }
  }

  lemma DecidedNone(cfg: Config, t: Tree, n: nat, fleaf: map<Addr, nat>, r: Addr, p: nat, a: seq<Addr>, bm: set<nat>)
    requires n + p <= Capacity(cfg) && r in fleaf && fleaf[r] == 0 && |a| == n
    ensures Decided(cfg, t, n, fleaf, r, p, a, bm, false, fleaf, n, a, bm)
  {
    assert fleaf[r := 0] == fleaf;
  }

  lemma DecidedAll(cfg: Config, t: Tree, n: nat, fleaf: map<Addr, nat>, r: Addr, p: nat, a: seq<Addr>, bm: set<nat>,
                   a': seq<Addr>, bm': set<nat>)
    requires r in fleaf && 0 < fleaf[r] && n + fleaf[r] + p <= Capacity(cfg) && |a'| == n + p + fleaf[r]
        && Batch(t, a', bm', n)
    ensures Decided(cfg, t, n, fleaf, r, p, a, bm,
                    n + fleaf[r] + p + 1 >= Capacity(cfg) || n + fleaf[r] + p >= cfg.okAddrs,
                    fleaf[r := 0], n + p + fleaf[r], a', bm')
  {
  }

  // The counters after `k` leaves of `r` have been handed out keep the policy.
  lemma UnsplitKeeps(cfg: Config, leaf: map<Addr, seq<Addr>>, fleaf: map<Addr, nat>, r: Addr, n: nat, p: nat)
    requires r in leaf && r in fleaf && fleaf[r] <= |leaf[r]| && n + p <= Capacity(cfg) && !cfg.splitNodes
        && Unsplit(cfg, leaf, fleaf)
    ensures var k := Decision(cfg, n, fleaf[r], p).1;
            k <= fleaf[r] && Unsplit(cfg, leaf, fleaf[r := fleaf[r] - k])
  {
  }

  // The state at the start of an iteration that serves router `r`, the end of the chain `path`:
  // the open group `segs` is sound for `r`, and `out` with the group's receivers has been emitted.
  ghost predicate Ready(cfg: Config, t0: Tree, t: Tree, path: seq<Addr>, segs: seq<Seg>, m: Merge, out: seq<Addr>) {
    && Linked(t0) && SameTree(t0, t)
    && Chain(t, path) && |path| > 1 && Consumed(t, Last(path))
    && Matches(cfg.mergeRange, t0, segs, m)
    && Building(cfg, t0, path[1], Last(path), segs, ResetAt(cfg.mergeRange, t0.hops, m, Last(path)))
    && (Exhausted(t, Last(path)) ==> Settled(t0, Last(path), ResetAt(cfg.mergeRange, t0.hops, m, Last(path))))
    && (segs == [] ==> t.fleaf[Last(path)] > 0)
    && Emitted(t, out + Rcv(segs))
  }

  // The state after the leaves of `r` have been served and the group stays open.
  ghost predicate Served(cfg: Config, t0: Tree, t: Tree, path: seq<Addr>, segs: seq<Seg>, m: Merge, out: seq<Addr>) {
    && Linked(t0) && SameTree(t0, t)
    && Chain(t, path) && |path| > 1 && Consumed(t, Last(path))
    && t.fleaf[Last(path)] == 0 && segs != []
    && Building(cfg, t0, path[1], Last(path), segs, m)
    && (Exhausted(t, Last(path)) ==> Settled(t0, Last(path), m))
    && Emitted(t, out + Rcv(segs))
  }

  // A group of segments below one child of the root, every one of them sound.
  ghost predicate GroupOk(range: nat, t: Tree, segs: seq<Seg>)
    requires t.hops.Keys == t.parent.Keys
  {
    segs != [] && exists top :: InSubtree(range, t, top, segs)
  }

  ghost predicate InSubtree(range: nat, t: Tree, top: Addr, segs: seq<Seg>)
    requires t.hops.Keys == t.parent.Keys
  {
    && top in t.parent && t.parent[top] == Some(t.root)
    && forall k | 0 <= k < |segs| :: SegOk(range, t, segs[k]) && Under(t, top, segs[k])
  }

  // The state when the group is closed: the next start is found from the end of `path` + `tail`.
  ghost predicate Closed(cfg: Config, t0: Tree, t: Tree, path: seq<Addr>, tail: seq<Addr>, segs: seq<Seg>,
                         out: seq<Addr>) {
    && Linked(t0) && SameTree(t0, t)
    && Chain(t, path) && Tail(t, path, tail) && Consumed(t, t.root)
    && GroupOk(cfg.mergeRange, t0, segs)
    && Emitted(t, out + Rcv(segs))
  }

  // Why a group of `n` entries below `top` may be closed: it is full or large enough, nothing below
  // `top` is left, or nodes are not split, and a router below `top` has more free leaves than fit, but not
  // more than fit into a group of their own.
  ghost predicate Reason(cfg: Config, t: Tree, top: Addr, n: nat) {
    || n + 1 >= Capacity(cfg) || n >= cfg.okAddrs || Exhausted(t, top)
    || (!cfg.splitNodes && exists r :: TooMany(cfg, t, top, n, r))
  }

  ghost predicate TooMany(cfg: Config, t: Tree, top: Addr, n: nat, r: Addr) {
    && r in t.fleaf && Anc(t.parent, top, r)
    && 0 < t.fleaf[r] < Capacity(cfg) && n + t.fleaf[r] + 1 > Capacity(cfg)
  }

  ghost predicate JustClosed(cfg: Config, t0: Tree, t: Tree, segs: seq<Seg>, n: nat)
    requires Keyed(t0)
  {
    exists top :: InSubtree(cfg.mergeRange, t0, top, segs) && Reason(cfg, t, top, n)
  }

  // The address list `a` with bitmap `bm` holds the segments `segs'`, which are `segs` with the
  // receivers `dst` of `r` appended, and every guarantee holds for it.
  ghost predicate Appended(cfg: Config, t0: Tree, top: Addr, r: Addr, segs: seq<Seg>, segs': seq<Seg>,
                           dst: seq<Addr>, a: seq<Addr>, bm: set<nat>, m: Merge)
    requires t0.hops.Keys == t0.parent.Keys
  {
    && a == Flat(segs') && bm == Marks(segs')
    && segs' != [] && Rcv(segs') == Rcv(segs) + dst
    && Building(cfg, t0, top, r, segs', m) && Settled(t0, r, m)
  }

  // The router entry `p` fits `segs`: after writing it and the receivers `dst`, all guarantees hold.
  ghost predicate PlacedAt(cfg: Config, t0: Tree, top: Addr, r: Addr, segs: seq<Seg>, p: Placed, dst: seq<Addr>)
    requires t0.hops.Keys == t0.parent.Keys
  {
    && p.offset <= 1
    && (p.offset == 1 ==> p.write.Some? && p.m.icr == |Flat(segs)|)
    && (p.offset != 1 ==> segs != [] && p.m.icr < |Flat(segs)|)
    && var base := if p.offset == 1 then Flat(segs) + [p.write.value] else Flat(segs);
       Appended(cfg, t0, top, r, segs, Extend(segs, p, dst), dst,
                (if p.write.Some? then base[p.m.icr := p.write.value] else base) + dst,
                Marks(segs) + (if p.offset == 1 then {p.m.icr} else {}), p.m)
  }

  // The open group is sound for router `r` below `top`, and `k` leaves of `r` are to be appended.
  ghost predicate Serving(cfg: Config, t0: Tree, t: Tree, rk: map<Addr, nat>, top: Addr, r: Addr, segs: seq<Seg>,
                          m: Merge, k: nat) {
    && Linked(t0) && Ranked(t0.parent, rk) && SameTree(t0, t) && r in t0.parent && Anc(t0.parent, top, r)
    && Building(cfg, t0, top, r, segs, m)
    && (m.cr.None? || Mergeable(cfg.mergeRange, t0.hops, m, r))
    && 0 < k && HandedOk(t, r, k)
  }

  // Placing the first `k` free leaves of `r`.
  lemma Placing(cfg: Config, t0: Tree, t: Tree, rk: map<Addr, nat>, top: Addr, r: Addr, segs: seq<Seg>, m: Merge,
                k: nat)
    requires Serving(cfg, t0, t, rk, top, r, segs, m, k)
    ensures Keyed(t) && Keyed(t0) && t0.hops.Keys == t0.parent.Keys && t.hops == t0.hops && r in t.parent
        && r in t.hops && r in t.fleaf
    ensures HandedOk(t, r, k) && |Handed(t, r, k)| == k && MergeOver(t0.hops, m)
    ensures var p := Place(cfg.mergeRange, t0.hops, m, r, |Flat(segs)|);
            && p.offset == (if m.cr.None? then 1 else 0)
            && p.m.icr < |Flat(segs)| + p.offset
            && (p.offset != 1 ==> segs != []) && (p.offset == 1 ==> p.write.Some?)
            && PlacedAt(cfg, t0, top, r, segs, p, Handed(t, r, k))
  {
    var p := Place(cfg.mergeRange, t0.hops, m, r, |Flat(segs)|);
    var dst := Handed(t, r, k);
    HandedLeaves(t, r, k);
    if m.cr.None? {
      AddOpening(cfg, t0, top, r, segs, m, dst);
    } else {
      AddMerging(cfg, t0, rk, top, r, segs, m, dst);
    }
    hide ChildLinks, LeafLinks, Ranked, Building, Settled, Place, Extend;
    ExtendFlat(segs, p, dst);
  }

  // The list `a` after writing the router entry.
  ghost function WithEntry(a: seq<Addr>, p: Placed): (b: seq<Addr>)
    requires p.write.Some? ==> p.m.icr < |a|
    ensures |b| == |a|
  {
    if p.write.Some? then a[p.m.icr := p.write.value] else a
  }

  lemma EntrySlice(a: seq<Addr>, k: nat, p: Placed)
    requires k <= |a| && (p.write.Some? ==> p.m.icr < k)
    ensures (if p.write.Some? then a[p.m.icr := p.write.value] else a)[..k] == WithEntry(a[..k], p)
  {
  }

  // What the list holds once the entry and the receivers have been written.
  lemma PlacedDone(cfg: Config, t0: Tree, top: Addr, r: Addr, segs: seq<Seg>, p: Placed, dst: seq<Addr>, was: seq<Addr>)
    requires t0.hops.Keys == t0.parent.Keys && PlacedAt(cfg, t0, top, r, segs, p, dst)
    requires |was| == |Flat(segs)| + p.offset && was[..|Flat(segs)|] == Flat(segs)
    ensures p.write.Some? ==> p.m.icr < |was|
    ensures p.offset == 1 ==> p.write.Some?
    ensures p.offset != 1 ==> segs != []
    ensures Appended(cfg, t0, top, r, segs, Extend(segs, p, dst), dst, WithEntry(was, p) + dst,
                     Marks(segs) + (if p.offset == 1 then {p.m.icr} else {}), p.m)
  {
    hide Appended, Extend, Flat, Marks;
    var base := if p.offset == 1 then Flat(segs) + [p.write.value] else Flat(segs);
    assert WithEntry(was, p) == if p.write.Some? then base[p.m.icr := p.write.value] else base;
  }

  // What is appended for `r` belongs to `r`, apart from its entry.
  lemma PlacedBatch(cfg: Config, t0: Tree, t: Tree, rk: map<Addr, nat>, top: Addr, r: Addr, segs: seq<Seg>, m: Merge,
                    k: nat,
                    bm: set<nat>, was: seq<Addr>)
    requires Serving(cfg, t0, t, rk, top, r, segs, m, k) && MergeOver(t0.hops, m) && r in t0.hops && HandedOk(t, r, k)
    requires |was| == |Flat(segs)| + Place(cfg.mergeRange, t0.hops, m, r, |Flat(segs)|).offset
    ensures var p := Place(cfg.mergeRange, t0.hops, m, r, |Flat(segs)|);
            && (p.write.Some? ==> p.m.icr < |was|)
            && Batch(t0, WithEntry(was, p) + Handed(t, r, k), bm + (if p.offset == 1 then {p.m.icr} else {}),
                     |Flat(segs)|)
  {
    hide ChildLinks, LeafLinks, Ranked, Building, Place, Extend, Handed, PlacedAt, Serving, Batch, WithEntry, Flat;
    Placing(cfg, t0, t, rk, top, r, segs, m, k);
    ServingHanded(cfg, t0, t, rk, top, r, segs, m, k);
    var p := Place(cfg.mergeRange, t0.hops, m, r, |Flat(segs)|);
    if p.offset == 1 { PlacedEntry(cfg, t0, top, r, segs, p, Handed(t, r, k)); }
    BatchWith(t0, r, WithEntry(was, p), Handed(t, r, k), bm + (if p.offset == 1 then {p.m.icr} else {}), |Flat(segs)|);
  }

  lemma ServingHanded(cfg: Config, t0: Tree, t: Tree, rk: map<Addr, nat>, top: Addr, r: Addr, segs: seq<Seg>,
                      m: Merge, k: nat)
    requires Serving(cfg, t0, t, rk, top, r, segs, m, k) && HandedOk(t, r, k)
    ensures |Handed(t, r, k)| == k > 0 && forall d :: d in Handed(t, r, k) ==> d in t0.home && t0.home[d] == Some(r)
  {
    hide ChildLinks, Ranked, Building, Handed;
    HandedLeaves(t, r, k);
  }

  lemma BatchWith(t: Tree, r: Addr, a: seq<Addr>, dst: seq<Addr>, bm: set<nat>, n: nat)
    requires n <= |a| <= n + 1 && (|a| == n + 1 ==> n in bm) && dst != []
    requires forall d :: d in dst ==> d in t.home && t.home[d] == Some(r)
    ensures Batch(t, a + dst, bm, n)
  {
    var b := a + dst;
    forall i | n <= i < |b| && i !in bm ensures b[i] in t.home && t.home[b[i]] == Some(r) {
      assert b[i] == dst[i - |a|];
      assert b[i] in dst;
    }
    assert BatchOf(t, b, bm, n, r);
  }

  lemma PlacedEntry(cfg: Config, t0: Tree, top: Addr, r: Addr, segs: seq<Seg>, p: Placed, dst: seq<Addr>)
    requires t0.hops.Keys == t0.parent.Keys && PlacedAt(cfg, t0, top, r, segs, p, dst) && p.offset == 1
    ensures p.m.icr == |Flat(segs)|
  {
  }

  lemma HandedLeaves(t: Tree, r: Addr, k: nat)
    requires Linked(t) && r in t.parent && HandedOk(t, r, k)
    ensures forall d :: d in Handed(t, r, k) ==> d in t.home && t.home[d] == Some(r)
    ensures |Handed(t, r, k)| == k
  {
    var u := |t.leaf[r]| - t.fleaf[r];
    forall d | d in Handed(t, r, k) ensures d in t.leaf[r] {
      var i :| 0 <= i < k && t.leaf[r][u..u + k][i] == d;
      assert t.leaf[r][u + i] == d;
    }
  }

  lemma ReadyBasics(cfg: Config, t0: Tree, t: Tree, rk: map<Addr, nat>, path: seq<Addr>, segs: seq<Seg>, m: Merge,
                    out: seq<Addr>)
    requires Ready(cfg, t0, t, path, segs, m, out) && Ranked(t0.parent, rk)
    ensures Linked(t) && Ranked(t.parent, rk) && MergeOver(t.hops, m) && SameTree(t0, t) && |path| > 1
    ensures Chain(t, path) && Consumed(t, Last(path)) && Emitted(t, out + Rcv(segs))
    ensures var r := Last(path);
            && r in t.parent && r in t.hops && t.hops == t0.hops && t.parent == t0.parent
            && r in t.fleaf && r in t.fchild && r in t.leaf && r in t.child
            && t.fleaf[r] <= |t.leaf[r]| && t.fchild[r] <= |t.child[r]|
            && (segs == [] ==> t.fleaf[r] > 0 && ResetAt(cfg.mergeRange, t0.hops, m, r).cr.None?)
            && r != t.root && t.parent[r].Some? && path[1] in t0.parent && t0.parent[path[1]] == Some(t0.root)
            && Anc(t0.parent, path[1], r)
  {
    hide ChildLinks, LeafLinks, Ranked, Building, Emitted, Settled, ResetAt, Exhausted;
    ReadyLinks(t0, t, rk);
    if segs == [] { BuildingNone(cfg, t0, path[1], Last(path), ResetAt(cfg.mergeRange, t0.hops, m, Last(path))); }
    ChainParent(t, path, 0);
    ChainParent(t, path, |path| - 2);
    ChainAbove(t, rk, path, 1, |path| - 1);
    ConsumedAt(t, Last(path));
  }

  lemma BuildingNone(cfg: Config, t: Tree, top: Addr, r: Addr, m: Merge)
    requires t.hops.Keys == t.parent.Keys && Building(cfg, t, top, r, [], m)
    ensures m.cr.None?
  {
  }

  lemma ReadyLinks(t0: Tree, t: Tree, rk: map<Addr, nat>)
    requires Linked(t0) && SameTree(t0, t) && Ranked(t0.parent, rk)
    ensures Linked(t) && Ranked(t.parent, rk)
  {
  }

  lemma ConsumedAt(t: Tree, r: Addr)
    requires Keyed(t) && Consumed(t, r) && r in t.parent
    ensures t.fleaf[r] <= |t.leaf[r]| && t.fchild[r] <= |t.child[r]|
  {
  }

  lemma ReadyServing(cfg: Config, t0: Tree, t: Tree, rk: map<Addr, nat>, path: seq<Addr>, segs: seq<Seg>, m: Merge,
                     out: seq<Addr>, k: nat)
    requires Ready(cfg, t0, t, path, segs, m, out) && Ranked(t0.parent, rk)
    requires Last(path) in t.fleaf && 0 < k <= t.fleaf[Last(path)]
    ensures Last(path) in t0.hops && MergeOver(t0.hops, m)
    ensures Serving(cfg, t0, t, rk, path[1], Last(path), segs, ResetAt(cfg.mergeRange, t0.hops, m, Last(path)), k)
  {
    ReadyBasics(cfg, t0, t, rk, path, segs, m, out);
  }

  // A router without free leaves is served at once.
  lemma ReadyServed(cfg: Config, t0: Tree, t: Tree, rk: map<Addr, nat>, path: seq<Addr>, segs: seq<Seg>, m: Merge,
                    out: seq<Addr>)
    requires Ready(cfg, t0, t, path, segs, m, out) && Ranked(t0.parent, rk)
    requires Last(path) in t.fleaf && t.fleaf[Last(path)] == 0
    ensures Last(path) in t0.hops && MergeOver(t0.hops, m)
    ensures Served(cfg, t0, t, path, segs, ResetAt(cfg.mergeRange, t0.hops, m, Last(path)), out)
  {
    ReadyBasics(cfg, t0, t, rk, path, segs, m, out);
  }

  // Handing out `k` leaves of the served router keeps what has been emitted and consumed.
  lemma AddEmits(cfg: Config, t0: Tree, t: Tree, rk: map<Addr, nat>, path: seq<Addr>, segs: seq<Seg>, m: Merge,
                 out: seq<Addr>, k: nat, segs': seq<Seg>)
    requires Ready(cfg, t0, t, path, segs, m, out) && Ranked(t0.parent, rk)
    requires 0 < k && HandedOk(t, Last(path), k) && Rcv(segs') == Rcv(segs) + Handed(t, Last(path), k)
    ensures var t' := Take(t, Last(path), k);
            && SameTree(t0, t') && Linked(t') && Chain(t', path) && Consumed(t', Last(path))
            && Emitted(t', out + Rcv(segs'))
  {
    hide Ready, ChildLinks, LeafLinks, Ranked, Chain, Consumed, Emitted, Handed, Rcv;
    ReadyBasics(cfg, t0, t, rk, path, segs, m, out);
    TakeKeeps(t, path, k);
    EmitMore(t, Last(path), k, out + Rcv(segs));
    Associate(out, Rcv(segs), Handed(t, Last(path), k));
  }

  lemma Associate(a: seq<Addr>, b: seq<Addr>, c: seq<Addr>)
    ensures a + (b + c) == (a + b) + c
  {
  }

  lemma AddServed(cfg: Config, t0: Tree, t: Tree, rk: map<Addr, nat>, path: seq<Addr>, segs: seq<Seg>, m: Merge,
                  out: seq<Addr>,
                  segs': seq<Seg>, a: seq<Addr>, bm: set<nat>, m': Merge)
    requires Ready(cfg, t0, t, path, segs, m, out) && Ranked(t0.parent, rk)
    requires HandedOk(t, Last(path), t.fleaf[Last(path)]) && t.fleaf[Last(path)] > 0
    requires Appended(cfg, t0, path[1], Last(path), segs, segs', Handed(t, Last(path), t.fleaf[Last(path)]), a, bm, m')
    ensures Served(cfg, t0, Take(t, Last(path), t.fleaf[Last(path)]), path, segs', m', out)
  {
    AddEmits(cfg, t0, t, rk, path, segs, m, out, t.fleaf[Last(path)], segs');
  }

  // A group that is closed while its router still has free leaves.
  lemma CloseEarly(cfg: Config, t0: Tree, t: Tree, rk: map<Addr, nat>, path: seq<Addr>, segs: seq<Seg>, m: Merge,
                   out: seq<Addr>)
    requires Ready(cfg, t0, t, path, segs, m, out) && Ranked(t0.parent, rk)
    requires Last(path) in t.fleaf && t.fleaf[Last(path)] > 0 && segs != []
    ensures Closed(cfg, t0, t, path, [], segs, out)
  {
    ReadyBasics(cfg, t0, t, rk, path, segs, m, out);
    NotExhausted(t, path);
    assert InSubtree(cfg.mergeRange, t0, path[1], segs);
  }

  lemma AddCloseEarly(cfg: Config, t0: Tree, t: Tree, rk: map<Addr, nat>, path: seq<Addr>, segs: seq<Seg>, m: Merge,
                      out: seq<Addr>,
                      k: nat, segs': seq<Seg>, a: seq<Addr>, bm: set<nat>, m': Merge)
    requires Ready(cfg, t0, t, path, segs, m, out) && Ranked(t0.parent, rk)
    requires 0 < k && HandedOk(t, Last(path), k) && k < t.fleaf[Last(path)]
    requires Appended(cfg, t0, path[1], Last(path), segs, segs', Handed(t, Last(path), k), a, bm, m')
    ensures Closed(cfg, t0, Take(t, Last(path), k), path, [], segs', out)
  {
    ReadyBasics(cfg, t0, t, rk, path, segs, m, out);
    AddEmits(cfg, t0, t, rk, path, segs, m, out, k, segs');
    NotExhausted(Take(t, Last(path), k), path);
    assert InSubtree(cfg.mergeRange, t0, path[1], segs');
  }

  // A group that is closed after propagating exhausted routers upwards.
  lemma CloseBack(cfg: Config, t0: Tree, t: Tree, t': Tree, rk: map<Addr, nat>, path: seq<Addr>, segs: seq<Seg>,
                  m: Merge, out: seq<Addr>,
                  path': seq<Addr>, tail: seq<Addr>)
    requires Served(cfg, t0, t, path, segs, m, out) && Backing(t, t', rk, path, path', tail, None)
    ensures Closed(cfg, t0, t', path', tail, segs, out)
  {
    ChainParent(t, path, 0);
    assert InSubtree(cfg.mergeRange, t0, path[1], segs);
  }

  lemma ServedDescend(cfg: Config, t0: Tree, t: Tree, path: seq<Addr>, segs: seq<Seg>, m: Merge, out: seq<Addr>)
    requires Served(cfg, t0, t, path, segs, m, out) && Last(path) in t.fchild && t.fchild[Last(path)] > 0
    ensures var a := Last(path);
            && a in t.child && t.fchild[a] <= |t.child[a]|
            && var c := t.child[a][|t.child[a]| - t.fchild[a]];
               Ready(cfg, t0, t, path + [c], segs, m, out)
  {
    hide ChildLinks, LeafLinks, Consumed, Emitted, Building, Settled, Chain, Keyed, SameTree, ResetAt;
    var a := Last(path);
    ServedBasics(cfg, t0, t, path, segs, m, out);
    NotExhausted(t, path);
    ChainDescend(t, path);
    SameLinks(t0, t);
    var c := t.child[a][|t.child[a]| - t.fchild[a]];
    BuildingMatches(cfg, t0, path[1], a, segs, m);
    assert MergeOver(t0.hops, m) by { BuildingOver(cfg, t0, path[1], a, segs, m); }
    DescendKeeps(cfg, t0, path[1], a, c, segs, m);
    AnyException(t, c);
    assert Last(path + [c]) == c && (path + [c])[1] == path[1];
  }

  lemma BuildingOver(cfg: Config, t: Tree, top: Addr, r: Addr, segs: seq<Seg>, m: Merge)
    requires t.hops.Keys == t.parent.Keys && Building(cfg, t, top, r, segs, m)
    ensures MergeOver(t.hops, m)
  {
    hide SegOk, Under;
  }

  lemma SameLinks(t0: Tree, t: Tree)
    requires SameTree(t0, t) && Linked(t0)
    ensures Keyed(t0) && t.hops == t0.hops && t.parent == t0.parent && t.root == t0.root && t.hops.Keys == t.parent.Keys
    ensures t.child == t0.child && t.fchild.Keys == t.parent.Keys && t.child.Keys == t.parent.Keys
  {
  }

  // The statistics after moving up to `p`.
  function MovedUp(range: nat, hops: map<Addr, nat>, m: Merge, p: Addr): Merge
    requires MergeOver(hops, m) && p in hops
  {
    if Mergeable(range, hops, m, p) then m.(pcr := Some(p)) else m
  }

  lemma ServedUp(cfg: Config, t0: Tree, t: Tree, rk: map<Addr, nat>, path: seq<Addr>, segs: seq<Seg>, m: Merge,
                 out: seq<Addr>)
    requires Served(cfg, t0, t, path, segs, m, out) && Ranked(t0.parent, rk)
    requires Last(path) in t.fchild && t.fchild[Last(path)] == 0
    ensures Last(path) in t.parent && Linked(t) && Linked(t0)
    ensures var r, p, q := Last(path), path[|path| - 2], path[..|path| - 1];
            var t' := Propagate(t, r);
            && t.parent[r] == Some(p) && p in t.fchild && t.fchild[p] > 0 && t' == Count(t, p)
            && Linked(t') && SameTree(t0, t') && Chain(t', q) && Consumed(t', p) && Last(q) == p
            && Emitted(t', out + Rcv(segs))
  {
    hide Served, ChildLinks, LeafLinks, Ranked, Chain, Consumed, Emitted;
    ServedBasics(cfg, t0, t, path, segs, m, out);
    ChainParent(t, path, |path| - 2);
    CountKeeps(t, rk, path);
    CountEmits(t, path[|path| - 2], out + Rcv(segs));
  }

  lemma ServedBasics(cfg: Config, t0: Tree, t: Tree, path: seq<Addr>, segs: seq<Seg>, m: Merge, out: seq<Addr>)
    requires Served(cfg, t0, t, path, segs, m, out)
    ensures Linked(t0) && Linked(t) && SameTree(t0, t) && |path| > 1 && Chain(t, path) && Consumed(t, Last(path))
    ensures Last(path) in t.parent && t.fleaf[Last(path)] == 0 && Emitted(t, out + Rcv(segs))
  {
  }

  lemma CountEmits(t: Tree, p: Addr, out: seq<Addr>)
    requires Keyed(t) && p in t.fchild && t.fchild[p] > 0 && Emitted(t, out)
    ensures Keyed(Count(t, p)) && Emitted(Count(t, p), out)
  {
  }

  lemma ServedAscend(cfg: Config, t0: Tree, t: Tree, rk: map<Addr, nat>, path: seq<Addr>, segs: seq<Seg>, m: Merge,
                     out: seq<Addr>)
    requires Served(cfg, t0, t, path, segs, m, out) && Ranked(t0.parent, rk)
    requires Last(path) in t.fchild && t.fchild[Last(path)] == 0
    ensures var r, p, q := Last(path), path[|path| - 2], path[..|path| - 1];
            && r in t.parent && r in t.fleaf && p in t0.hops && MergeOver(t0.hops, m)
            && (if |path| > 2 then
                  p != t0.root && Ready(cfg, t0, Propagate(t, r), q, segs, MovedUp(cfg.mergeRange, t0.hops, m, p), out)
                else
                  p == t0.root && Closed(cfg, t0, Propagate(t, r), q, [], segs, out))
  {
    var r, p, q := Last(path), path[|path| - 2], path[..|path| - 1];
    ServedUp(cfg, t0, t, rk, path, segs, m, out);
    if |path| > 2 {
      ChainParent(t, path, |path| - 3);
      ChainAbove(t, rk, path, 1, |path| - 2);
      AscendKeeps(cfg, t0, rk, path[1], r, p, segs, m);
    } else {
      ChainParent(t, path, 0);
      assert InSubtree(cfg.mergeRange, t0, path[1], segs);
    }
  }

  // The start of an iteration, with the list `a` and the bitmap `bm` of the open group.
  ghost predicate AtStart(cfg: Config, t0: Tree, t: Tree, rk: map<Addr, nat>, path: seq<Addr>, r: Addr,
                          segs: seq<Seg>, m: Merge,
                          out: seq<Addr>, a: seq<Addr>, bm: set<nat>)
  {
    && Checked(cfg) && Ready(cfg, t0, t, path, segs, m, out) && Ranked(t0.parent, rk) && r == Last(path)
    && a == Flat(segs) && bm == Marks(segs)
  }

  // The same after the statistics have been reset if `r` cannot be merged.
  ghost predicate Opened(cfg: Config, t0: Tree, t: Tree, rk: map<Addr, nat>, path: seq<Addr>, r: Addr,
                         segs: seq<Seg>, m0: Merge, m: Merge,
                         out: seq<Addr>, a: seq<Addr>, bm: set<nat>)
  {
    && AtStart(cfg, t0, t, rk, path, r, segs, m0, out, a, bm)
    && r in t0.hops && MergeOver(t0.hops, m0) && m == ResetAt(cfg.mergeRange, t0.hops, m0, r)
  }

  ghost predicate ServedWith(cfg: Config, t0: Tree, t: Tree, rk: map<Addr, nat>, path: seq<Addr>, segs: seq<Seg>,
                             m: Merge, out: seq<Addr>, a: seq<Addr>, bm: set<nat>)
  {
    Served(cfg, t0, t, path, segs, m, out) && Ranked(t0.parent, rk) && a == Flat(segs) && bm == Marks(segs)
  }

  // The group is closed, and the next start is searched from `r`.
  ghost predicate Finished(cfg: Config, t0: Tree, t: Tree, path: seq<Addr>, tail: seq<Addr>, r: Addr, segs: seq<Seg>,
                           out: seq<Addr>, a: seq<Addr>, bm: set<nat>)
  {
    && Closed(cfg, t0, t, path, tail, segs, out) && r == Last(path + tail)
    && a == Flat(segs) && bm == Marks(segs)
  }

  lemma AtStartBasics(cfg: Config, t0: Tree, t: Tree, rk: map<Addr, nat>, path: seq<Addr>, r: Addr, segs: seq<Seg>,
                      m: Merge, out: seq<Addr>, a: seq<Addr>, bm: set<nat>)
    requires AtStart(cfg, t0, t, rk, path, r, segs, m, out, a, bm)
    ensures Checked(cfg) && |path| > 1 && r == Last(path) && r in t.hops && MergeOver(t.hops, m) && r in t.fleaf
    ensures Opened(cfg, t0, t, rk, path, r, segs, m, ResetAt(cfg.mergeRange, t.hops, m, r), out, a, bm)
    ensures a == [] ==> t.fleaf[r] > 0 && ResetAt(cfg.mergeRange, t.hops, m, r).cr.None?
    ensures r in t0.leaf && t.fleaf[r] <= |t0.leaf[r]|
  {
    ReadyBasics(cfg, t0, t, rk, path, segs, m, out);
    EmptyGroup(segs);
  }

  lemma OpenedServing(cfg: Config, t0: Tree, t: Tree, rk: map<Addr, nat>, path: seq<Addr>, r: Addr, segs: seq<Seg>,
                      m0: Merge, m: Merge, out: seq<Addr>, a: seq<Addr>, bm: set<nat>, k: nat)
    requires Opened(cfg, t0, t, rk, path, r, segs, m0, m, out, a, bm)
    requires r in t.fleaf && 0 < k <= t.fleaf[r]
    ensures |path| > 1 && Serving(cfg, t0, t, rk, path[1], r, segs, m, k) && a == Flat(segs) && bm == Marks(segs)
    ensures Keyed(t0) && HandedOk(t, r, k)
  {
    ReadyServing(cfg, t0, t, rk, path, segs, m0, out, k);
  }

  // `segs'` is what the merge step makes of `segs` and the receivers `dst` of `r`.
  ghost predicate Extended(range: nat, hops: map<Addr, nat>, segs: seq<Seg>, m: Merge, r: Addr, n: nat,
                           dst: seq<Addr>, segs': seq<Seg>) {
    && MergeOver(hops, m) && r in hops
    && var p := Place(range, hops, m, r, n);
       && (p.offset == 1 ==> p.write.Some?) && (p.offset != 1 ==> segs != [])
       && segs' == Extend(segs, p, dst)
  }

  // The receivers `dst` of `r` share the last segment if it can be joined, and get a new one otherwise.
  ghost predicate Shares(range: nat, t: Tree, segs: seq<Seg>, m: Merge, r: Addr, dst: seq<Addr>, segs': seq<Seg>) {
    && t.hops.Keys == t.parent.Keys
    && if m.cr.Some? && Joins(range, t, segs, r) then Joined(segs, dst, segs') else segs' == segs + [Seg(r, dst)]
  }

  // `left` leaves of `r` are still free, and the others have been added to `segs`.
  ghost predicate Grown(range: nat, t0: Tree, t: Tree, segs: seq<Seg>, m: Merge, r: Addr, left: nat, segs': seq<Seg>) {
    && r in t.fleaf && left <= t.fleaf[r] && HandedOk(t, r, t.fleaf[r] - left)
    && if left == t.fleaf[r] then segs' == segs
       else Shares(range, t0, segs, m, r, Handed(t, r, t.fleaf[r] - left), segs')
  }

  lemma GrownAll(range: nat, t0: Tree, t: Tree, segs: seq<Seg>, m: Merge, r: Addr, segs': seq<Seg>)
    requires r in t.fleaf && 0 < t.fleaf[r] && HandedOk(t, r, t.fleaf[r])
    requires Shares(range, t0, segs, m, r, Handed(t, r, t.fleaf[r]), segs')
    ensures Grown(range, t0, t, segs, m, r, 0, segs')
  {
  }

  lemma GrownNone(range: nat, t0: Tree, t: Tree, segs: seq<Seg>, m: Merge, r: Addr)
    requires r in t.fleaf && HandedOk(t, r, 0)
    ensures Grown(range, t0, t, segs, m, r, t.fleaf[r], segs)
  {
  }

  // What becomes of `r` when `n` entries are in use. A router without free leaves is passed by. Leaves that
  // fit, with an entry unless it is shared, are all handed out, and the group is closed when it is full, up
  // to one entry, or large enough. Otherwise the group is closed: filled up when the leaves would not fit
  // into any group or nodes may be split, and as it is when they are left for another group.
  ghost predicate Outcome(cfg: Config, n: nat, fleaf: map<Addr, nat>, r: Addr, shared: bool,
                          closed: bool, n': nat, fleaf': map<Addr, nat>) {
    && r in fleaf
    && var f := fleaf[r];
       var needed := n + f + if shared then 0 else 1;
       var max := if cfg.maxAddrs < BITMAP_LIMIT then cfg.maxAddrs else BITMAP_LIMIT;
       if f == 0 then
         !closed && n' == n && fleaf' == fleaf
       else if needed <= max then
         && n' == needed && fleaf' == fleaf[r := 0]
         && (closed <==> needed + 1 >= max || needed >= cfg.okAddrs)
       else if f >= max || cfg.splitNodes then
         closed && n' == max && fleaf' == fleaf[r := needed - max]
       else
         closed && n' == n && fleaf' == fleaf
  }

  // What a decision comes to.
  lemma DecidedMeans(cfg: Config, t: Tree, n: nat, fleaf: map<Addr, nat>, r: Addr, p: nat, a: seq<Addr>, bm: set<nat>,
                     closed: bool, fleaf': map<Addr, nat>, n': nat, a': seq<Addr>, bm': set<nat>)
    requires Decided(cfg, t, n, fleaf, r, p, a, bm, closed, fleaf', n', a', bm') && n + 2 <= Capacity(cfg) && p <= 1
    ensures Outcome(cfg, n, fleaf, r, p == 0, closed, n', fleaf')
  {
    hide Batch;
    assert fleaf[r := fleaf[r]] == fleaf;
  }

  lemma ServedCloser(cfg: Config, t0: Tree, t: Tree, rk: map<Addr, nat>, path: seq<Addr>, segs: seq<Seg>, m: Merge,
                     out: seq<Addr>, a: seq<Addr>, bm: set<nat>, p: Addr)
    requires ServedWith(cfg, t0, t, rk, path, segs, m, out, a, bm) && p in t.hops && MergeOver(t.hops, m)
    ensures t0.hops.Keys == t0.parent.Keys
    ensures Mergeable(cfg.mergeRange, t.hops, m, p) <==> m.cr.Some? && Joins(cfg.mergeRange, t0, segs, p)
  {
    hide Settled, Consumed, Chain, Emitted, ChildLinks, LeafLinks, Ranked, Joins, Mergeable, SegOk, Under;
    BuildingMatches(cfg, t0, path[1], Last(path), segs, m);
    CloserExactly(cfg.mergeRange, t0, segs, m, p);
  }

  lemma OpenedFree(cfg: Config, t0: Tree, t: Tree, rk: map<Addr, nat>, path: seq<Addr>, r: Addr, segs: seq<Seg>,
                   m0: Merge, m: Merge, out: seq<Addr>, a: seq<Addr>, bm: set<nat>)
    requires Opened(cfg, t0, t, rk, path, r, segs, m0, m, out, a, bm)
    ensures r in t.fleaf && HandedOk(t, r, 0)
  {
    ReadyBasics(cfg, t0, t, rk, path, segs, m0, out);
  }

  lemma OpenedShares(cfg: Config, t0: Tree, t: Tree, rk: map<Addr, nat>, path: seq<Addr>, r: Addr, segs: seq<Seg>,
                     m0: Merge, m: Merge, out: seq<Addr>, a: seq<Addr>, bm: set<nat>, n: nat, dst: seq<Addr>,
                     segs': seq<Seg>)
    requires Opened(cfg, t0, t, rk, path, r, segs, m0, m, out, a, bm) && |a| == n
    requires Extended(cfg.mergeRange, t0.hops, segs, m, r, n, dst, segs')
    ensures Shares(cfg.mergeRange, t0, segs, m0, r, dst, segs')
  {
    hide Building, Settled, Consumed, Chain, Emitted, ChildLinks, LeafLinks, Ranked, Place, Extend, Joins, Joined,
         ResetAt;
    JoinExactly(cfg.mergeRange, t0, segs, m0, r, dst);
  }

  // A router needs an entry of its own exactly when it cannot join the last segment.
  lemma EntryNeeded(cfg: Config, t0: Tree, t: Tree, rk: map<Addr, nat>, path: seq<Addr>, r: Addr, segs: seq<Seg>,
                    m: Merge, out: seq<Addr>, a: seq<Addr>, bm: set<nat>)
    requires AtStart(cfg, t0, t, rk, path, r, segs, m, out, a, bm) && r in t.hops && MergeOver(t.hops, m)
    ensures t0.hops.Keys == t0.parent.Keys
    ensures ResetAt(cfg.mergeRange, t.hops, m, r).cr.None? <==> !(m.cr.Some? && Joins(cfg.mergeRange, t0, segs, r))
  {
    hide Building, Settled, Consumed, Chain, Emitted, ChildLinks, LeafLinks, Ranked, Place, Extend, Joins;
    CloserExactly(cfg.mergeRange, t0, segs, m, r);
  }

  lemma OpenedNone(cfg: Config, t0: Tree, t: Tree, rk: map<Addr, nat>, path: seq<Addr>, r: Addr, segs: seq<Seg>,
                   m0: Merge, m: Merge, out: seq<Addr>, a: seq<Addr>, bm: set<nat>)
    requires Opened(cfg, t0, t, rk, path, r, segs, m0, m, out, a, bm) && r in t.fleaf && t.fleaf[r] == 0
    ensures ServedWith(cfg, t0, t, rk, path, segs, m, out, a, bm)
  {
    ReadyServed(cfg, t0, t, rk, path, segs, m0, out);
  }

  lemma OpenedRefuse(cfg: Config, t0: Tree, t: Tree, rk: map<Addr, nat>, path: seq<Addr>, r: Addr, segs: seq<Seg>,
                     m0: Merge, m: Merge, out: seq<Addr>, a: seq<Addr>, bm: set<nat>)
    requires Opened(cfg, t0, t, rk, path, r, segs, m0, m, out, a, bm) && r in t.fleaf && t.fleaf[r] > 0 && a != []
    ensures Finished(cfg, t0, t, path, [], r, segs, out, a, bm)
  {
    EmptyGroup(segs);
    CloseEarly(cfg, t0, t, rk, path, segs, m0, out);
  }

  lemma OpenedClose(cfg: Config, t0: Tree, t: Tree, rk: map<Addr, nat>, path: seq<Addr>, r: Addr, segs: seq<Seg>,
                    m0: Merge,
                    m1: Merge, a1: seq<Addr>, bm1: set<nat>, out: seq<Addr>, k: nat, segs': seq<Seg>, a: seq<Addr>,
                    bm: set<nat>, m: Merge)
    requires Opened(cfg, t0, t, rk, path, r, segs, m0, m1, out, a1, bm1)
    requires 0 < k && HandedOk(t, r, k) && k < t.fleaf[r] && Keyed(t0) && |path| > 1
    requires Appended(cfg, t0, path[1], r, segs, segs', Handed(t, r, k), a, bm, m)
    ensures Finished(cfg, t0, Take(t, r, k), path, [], r, segs', out, a, bm)
    ensures Take(t, r, k).fleaf == t.fleaf[r := t.fleaf[r] - k]
    ensures Slots(Take(t, r, k).fleaf) < Slots(t.fleaf)
  {
    hide Ready, Closed, Handed, Flat, Marks, Slots, Building, Settled;
    SlotsShrink(t.fleaf, r, t.fleaf[r] - k);
    AddCloseEarly(cfg, t0, t, rk, path, segs, m0, out, k, segs', a, bm, m);
  }

  lemma OpenedServed(cfg: Config, t0: Tree, t: Tree, rk: map<Addr, nat>, path: seq<Addr>, r: Addr, segs: seq<Seg>,
                     m0: Merge,
                     m1: Merge, a1: seq<Addr>, bm1: set<nat>, out: seq<Addr>, segs': seq<Seg>, a: seq<Addr>,
                     bm: set<nat>, m: Merge)
    requires Opened(cfg, t0, t, rk, path, r, segs, m0, m1, out, a1, bm1)
    requires r in t.fleaf && 0 < t.fleaf[r] && HandedOk(t, r, t.fleaf[r]) && Keyed(t0) && |path| > 1
    requires Appended(cfg, t0, path[1], r, segs, segs', Handed(t, r, t.fleaf[r]), a, bm, m)
    ensures ServedWith(cfg, t0, Take(t, r, t.fleaf[r]), rk, path, segs', m, out, a, bm)
    ensures Take(t, r, t.fleaf[r]).fleaf == t.fleaf[r := 0]
    ensures Slots(Take(t, r, t.fleaf[r]).fleaf) < Slots(t.fleaf)
  {
    hide Ready, Served, Handed, Flat, Marks, Slots, Building, Settled;
    SlotsShrink(t.fleaf, r, 0);
    AddServed(cfg, t0, t, rk, path, segs, m0, out, segs', a, bm, m);
  }

  lemma OpenedKeyed(cfg: Config, t0: Tree, t: Tree, rk: map<Addr, nat>, path: seq<Addr>, r: Addr, segs: seq<Seg>,
                    m0: Merge, m: Merge, out: seq<Addr>, a: seq<Addr>, bm: set<nat>)
    requires Opened(cfg, t0, t, rk, path, r, segs, m0, m, out, a, bm)
    ensures Keyed(t0) && t0.hops.Keys == t0.parent.Keys
  {
    hide Ready, ResetAt, MergeOver;
    assert Linked(t0) by {
      ReadyBasics(cfg, t0, t, rk, path, segs, m0, out);
      ReadyLinked(cfg, t0, t, path, segs, m0, out);
    }
  }

  lemma ReadyLinked(cfg: Config, t0: Tree, t: Tree, path: seq<Addr>, segs: seq<Seg>, m: Merge, out: seq<Addr>)
    requires Ready(cfg, t0, t, path, segs, m, out)
    ensures Linked(t0)
  {
  }

  lemma ServedKeyed(cfg: Config, t0: Tree, t: Tree, rk: map<Addr, nat>, path: seq<Addr>, segs: seq<Seg>, m: Merge,
                    out: seq<Addr>, a: seq<Addr>, bm: set<nat>)
    requires ServedWith(cfg, t0, t, rk, path, segs, m, out, a, bm)
    ensures Linked(t0) && Keyed(t0) && Linked(t) && SameTree(t0, t) && Chain(t, path) && |path| > 1
        && Ranked(t.parent, rk)
  {
    ServedBasics(cfg, t0, t, path, segs, m, out);
  }

  // A router whose parent has no parent is a child of the root.
  lemma RootOnly(t0: Tree, t: Tree, rk: map<Addr, nat>, path: seq<Addr>, r: Addr)
    requires Linked(t) && Chain(t, path) && |path| > 1 && r == Last(path)
    requires r in t.parent && t.parent[r].Some? && t.parent[r].value in t.parent && t.parent[t.parent[r].value].None?
    ensures t.parent[r] == Some(t.root)
  {
    ChainParent(t, path, |path| - 2);
    if |path| > 2 { ChainParent(t, path, |path| - 3); }
  }

  // `c` is the first free child of `r`.
  ghost predicate FirstFreeIs(t: Tree, r: Addr, c: Addr) {
    r in t.child && r in t.fchild && 0 < t.fchild[r] <= |t.child[r]| && c == t.child[r][|t.child[r]| - t.fchild[r]]
  }

  // What has been appended for `r` lies below the same child of the root as `r`.
  lemma OpenedTop(cfg: Config, t0: Tree, t: Tree, rk: map<Addr, nat>, path: seq<Addr>, r: Addr, segs: seq<Seg>,
                  m0: Merge, m1: Merge, a1: seq<Addr>, bm1: set<nat>, out: seq<Addr>, segs': seq<Seg>, dst: seq<Addr>,
                  a: seq<Addr>, bm: set<nat>, m: Merge)
    requires Opened(cfg, t0, t, rk, path, r, segs, m0, m1, out, a1, bm1) && |path| > 1 && Keyed(t0)
    requires Appended(cfg, t0, path[1], r, segs, segs', dst, a, bm, m)
    ensures InSubtree(cfg.mergeRange, t0, path[1], segs')
  {
    ReadyBasics(cfg, t0, t, rk, path, segs, m0, out);
  }

  lemma FullClosed(cfg: Config, t0: Tree, t: Tree, top: Addr, segs: seq<Seg>, n: nat)
    requires Keyed(t0) && InSubtree(cfg.mergeRange, t0, top, segs)
    requires n + 1 >= Capacity(cfg) || n >= cfg.okAddrs
    ensures JustClosed(cfg, t0, t, segs, n)
  {
    hide InSubtree;
  }

  lemma RefusedClosed(cfg: Config, t0: Tree, t: Tree, rk: map<Addr, nat>, path: seq<Addr>, r: Addr, segs: seq<Seg>,
                      m0: Merge, m: Merge, out: seq<Addr>, a: seq<Addr>, bm: set<nat>)
    requires Opened(cfg, t0, t, rk, path, r, segs, m0, m, out, a, bm) && Keyed(t0)
    requires r in t.fleaf && 0 < t.fleaf[r] < Capacity(cfg) && |a| + t.fleaf[r] + 1 > Capacity(cfg) && !cfg.splitNodes
    ensures JustClosed(cfg, t0, t, segs, |a|)
  {
    ReadyBasics(cfg, t0, t, rk, path, segs, m0, out);
    hide Building, ResetAt, SegOk, Under, Chain, Consumed, Emitted, ChildLinks, LeafLinks, Ranked;
    assert TooMany(cfg, t, path[1], |a|, r);
    assert InSubtree(cfg.mergeRange, t0, path[1], segs) by { BuildingTop(cfg, t0, path[1], r, segs, m); }
  }

  lemma BuildingTop(cfg: Config, t: Tree, top: Addr, r: Addr, segs: seq<Seg>, m: Merge)
    requires t.hops.Keys == t.parent.Keys && Building(cfg, t, top, r, segs, m) && top in t.parent
        && t.parent[top] == Some(t.root)
    ensures InSubtree(cfg.mergeRange, t, top, segs)
  {
  }

  // At the root the whole subtree has been visited.
  lemma RootClosed(cfg: Config, t0: Tree, t: Tree, rk: map<Addr, nat>, path: seq<Addr>, r: Addr, segs: seq<Seg>,
                   m: Merge, out: seq<Addr>, a: seq<Addr>, bm: set<nat>)
    requires ServedWith(cfg, t0, t, rk, path, segs, m, out, a, bm) && |path| > 0 && r == Last(path) && Keyed(t0)
    requires r in t.fchild && t.fchild[r] == 0 && r in t.parent && r in t.fleaf && t.parent[r] == Some(t.root)
    ensures JustClosed(cfg, t0, Propagate(t, r), segs, |a|)
  {
    ServedBasics(cfg, t0, t, path, segs, m, out);
    if |path| > 2 {
      ChainAbove(t, rk, path, 0, |path| - 2);
      ChainParent(t, path, |path| - 2);
      assert false;
    }
    ChainParent(t, path, 0);
    hide Building, SegOk, Under, Consumed, Emitted, ChildLinks, LeafLinks, Ranked;
    assert InSubtree(cfg.mergeRange, t0, path[1], segs) by { BuildingTop(cfg, t0, path[1], r, segs, m); }
    assert Exhausted(Propagate(t, r), r);
  }

  lemma ServedNonEmpty(cfg: Config, t0: Tree, t: Tree, rk: map<Addr, nat>, path: seq<Addr>, segs: seq<Seg>, m: Merge,
                       out: seq<Addr>, a: seq<Addr>, bm: set<nat>)
    requires ServedWith(cfg, t0, t, rk, path, segs, m, out, a, bm)
    ensures |a| > 0 && |path| > 0
  {
    EmptyGroup(segs);
  }

  lemma MoveBasics(cfg: Config, t0: Tree, t: Tree, rk: map<Addr, nat>, path: seq<Addr>, r: Addr, segs: seq<Seg>,
                   m: Merge, out: seq<Addr>, a: seq<Addr>, bm: set<nat>)
    requires ServedWith(cfg, t0, t, rk, path, segs, m, out, a, bm) && |path| > 0 && r == Last(path)
    ensures Linked(t) && r in t.parent && r in t.fchild && t.fchild[r] <= |t.child[r]| && t.fleaf[r] == 0
    ensures t.parent[r].Some? && t.parent[r].value in t.hops && MergeOver(t.hops, m)
  {
    ServedBasics(cfg, t0, t, path, segs, m, out);
    ChainParent(t, path, |path| - 2);
  }

  lemma MoveDown(cfg: Config, t0: Tree, t: Tree, rk: map<Addr, nat>, path: seq<Addr>, r: Addr, segs: seq<Seg>, m: Merge,
                 out: seq<Addr>, a: seq<Addr>, bm: set<nat>)
    requires Checked(cfg) && ServedWith(cfg, t0, t, rk, path, segs, m, out, a, bm) && |path| > 0 && r == Last(path)
    requires r in t.fchild && 0 < t.fchild[r] && r in t.child && t.fchild[r] <= |t.child[r]|
    ensures var c := t.child[r][|t.child[r]| - t.fchild[r]];
            && AtStart(cfg, t0, t, rk, path + [c], c, segs, m, out, a, bm)
            && t0.parent.Keys - Visited(path + [c]) < t0.parent.Keys - Visited(path)
  {
    hide Served, Ready, ChildLinks, LeafLinks, Ranked, Consumed, Emitted, Visited, Flat, Marks, Chain, Keyed, SameTree;
    ServedBasics(cfg, t0, t, path, segs, m, out);
    ServedDescend(cfg, t0, t, path, segs, m, out);
    var c := t.child[r][|t.child[r]| - t.fchild[r]];
    ReadyChain(cfg, t0, t, path + [c], segs, m, out);
    var longer := path + [c];
    NewlyVisited(t, rk, path, c);
    assert Last(longer) == c;
  }

  lemma ReadyChain(cfg: Config, t0: Tree, t: Tree, path: seq<Addr>, segs: seq<Seg>, m: Merge, out: seq<Addr>)
    requires Ready(cfg, t0, t, path, segs, m, out)
    ensures Linked(t) && Chain(t, path) && t.parent == t0.parent
  {
  }

  lemma NewlyVisited(t: Tree, rk: map<Addr, nat>, path: seq<Addr>, c: Addr)
    requires Linked(t) && Ranked(t.parent, rk) && Chain(t, path + [c])
    ensures t.parent.Keys - Visited(path + [c]) < t.parent.Keys - Visited(path)
  {
    var longer := path + [c];
    ChainDistinct(t, rk, longer);
    assert longer[|path|] == c && longer[..|path|] == path;
    VisitedMore(path, c);
    assert c !in path;
    assert c in t.parent.Keys - Visited(path);
  }

  // Moving up from an exhausted router.
  lemma MoveUp(cfg: Config, t0: Tree, t: Tree, rk: map<Addr, nat>, path: seq<Addr>, r: Addr, segs: seq<Seg>, m: Merge,
               out: seq<Addr>, a: seq<Addr>, bm: set<nat>)
    requires Checked(cfg) && ServedWith(cfg, t0, t, rk, path, segs, m, out, a, bm) && |path| > 0 && r == Last(path)
    requires r in t.fchild && t.fchild[r] == 0
    ensures r in t.parent && r in t.fleaf && t.parent[r].Some? && MergeOver(t.hops, m) && t.parent[r].value in t.hops
    ensures var p, q := t.parent[r].value, path[..|path| - 1];
            var t' := Propagate(t, r);
            && t'.fleaf == t.fleaf && t'.parent == t.parent && Slots(t'.fchild) < Slots(t.fchild)
            && p in t.parent
            && (t.parent[p].None? ==> Finished(cfg, t0, t', q, [], p, segs, out, a, bm))
            && (t.parent[p].Some? ==>
                AtStart(cfg, t0, t', rk, q, p, segs, MovedUp(cfg.mergeRange, t.hops, m, p), out, a, bm))
  {
    hide Served, ChildLinks, LeafLinks, Ranked, Consumed, Emitted, Ready, Closed, Slots, Propagate, Flat, Marks, Rcv,
         Chain, SameTree, Keyed, MovedUp, MergeOver;
    ServedBasics(cfg, t0, t, path, segs, m, out);
    ServedUp(cfg, t0, t, rk, path, segs, m, out);
    ServedAscend(cfg, t0, t, rk, path, segs, m, out);
    var p, q := t.parent[r].value, path[..|path| - 1];
    SlotsShrink(t.fchild, p, t.fchild[p] - 1);
    SameLinks(t0, t);
    if |path| > 2 {
      ChainParent(t, path, |path| - 3);
    }
    assert q + [] == q && Last(q) == p;
  }

  class Grouper {
    const cfg: Config
    const st: Store
    // The merging statistics of the open group.
    var cr: Option<Addr>
    var pcr: Option<Addr>
    var icr: nat
    var initHops: int

    constructor (cfg: Config, st: Store)
      ensures this.cfg == cfg && this.st == st && M() == NO_MERGE
    {
      this.cfg, this.st := cfg, st;
      cr, pcr, icr, initHops := None, None, 0, 0;
    }

    function M(): Merge
      reads this
    {
      Merge(cr, pcr, icr, initHops)
    }

    // Descends from `r` along first free children: where the descent ends, and the last router on it
    // with free leaves.
    method Descend(r: Addr, ghost rk: map<Addr, nat>) returns (q: Addr, s: Option<Addr>)
      requires Linked(st.T()) && Ranked(st.parent, rk) && Bounded(st.T()) && r in st.parent && r in rk
      ensures (q, s) == FreeEnd(st.T(), rk, r, OwnStart(st.T(), r)) && q in st.parent
    {
      hide ChildLinks, LeafLinks, Ranked, Higher;
      ghost var t := st.T();
      var c := st.GetFreeRouter(r);
      s := None;
      if st.parent[r].Some? && st.fleaf[r] > 0 {
        s := Some(r);
      }
      q := r;
      while c != []
        invariant q in st.parent && q in rk && t.fchild[q] <= |t.child[q]|
            && c == t.child[q][|t.child[q]| - t.fchild[q]..]
        invariant FreeEnd(t, rk, q, s) == FreeEnd(t, rk, r, OwnStart(t, r))
        decreases Higher(rk, q)
      {
        FirstFree(t, rk, q);
        q := c[0];
        c := st.GetFreeRouter(q);
        if st.fleaf[q] > 0 {
          s := Some(q);
        }
      }
    }

    // The deepest router with free leaves on the chain of first free children: from `r`, or from
    // the nearest router above `r` that has something free.
    method GetStart(r: Addr, ghost rk: map<Addr, nat>, ghost path: seq<Addr>, ghost tail: seq<Addr>)
      returns (s: Option<Addr>, ghost path': seq<Addr>)
      requires Steady(st.T(), rk) && Consumed(st.T(), st.root)
      requires Chain(st.T(), path) && Tail(st.T(), path, tail) && r == Last(path + tail)
      ensures s.None? <==> st.fchild[st.root] == 0
      ensures s.Some? ==> Chain(st.T(), path') && |path'| > 1 && Last(path') == s.value
      ensures s.Some? ==> st.fleaf[s.value] > 0 && st.fchild[s.value] == 0
      decreases |tail|
    {
      hide Down, Chain, Consumed, Tail, Exhausted, ChildLinks, LeafLinks, Ranked, DetachedEmpty, Higher, FreeEnd,
           Bounded;
      ghost var t := st.T();
      path' := path;
      StartBounds(t, path, tail);
      BoundedNow(t, rk, r);
      var q;
      q, s := Descend(r, rk);
      if tail != [] {
        TailPop(t, path, tail);
        EndHere(t, rk, r);
      } else {
        DownStart(t, path);
        path' := FreeEndDown(t, rk, path, r, OwnStart(t, r));
        DownEnd(t, path', q, s);
        DownChain(t, path', q, s);
      }
      if s.None? {
        match st.parent[q]
        case Some(p) =>
          s, path' := GetStart(p, rk, path, tail[..|tail| - 1]);
        case None =>
      }
    }

    predicate IsMergeable(r: Addr)
      requires MergeOver(st.hops, M()) && r in st.hops
      reads this, st
    {
      Mergeable(cfg.mergeRange, st.hops, M(), r)
    }

    // Finds the router entry for the next leaves: a new entry at position `n`, or the entry of the
    // open segment, which a closer router may overwrite.
    method SetTxgRouter(l: array<Addr>, bm: set<nat>, r: Addr, n: nat) returns (i: nat, bm': set<nat>)
      requires MergeOver(st.hops, M()) && r in st.hops
      requires var p := Place(cfg.mergeRange, st.hops, M(), r, n);
               p.write.Some? ==> p.m.icr < l.Length
      modifies this, l
      ensures var p := Place(cfg.mergeRange, st.hops, old(M()), r, n);
              && M() == p.m && i == p.offset
              && bm' == bm + (if p.offset == 1 then {p.m.icr} else {})
              && l[..] == if p.write.Some? then old(l[..])[p.m.icr := p.write.value] else old(l[..])
    {
      i, bm' := 0, bm;
      var newBit := true;
      if cfg.mergeRange == 0 {
        icr := n;
      } else if cr.None? {
        cr, icr, initHops := Some(r), n, st.hops[r];
      } else if pcr.Some? && st.hops[pcr.value] < st.hops[r] && st.hops[pcr.value] < st.hops[cr.value] {
        cr, pcr, newBit := pcr, None, false;
      } else if st.hops[r] < st.hops[cr.value] {
        cr, newBit := Some(r), false;
      } else {
        return;
      }
      if newBit {
        i := 1;
        bm' := bm + {icr};
      }
      l[icr] := if cr.Some? then cr.value else r;
    }

    // Appends the first `m` free leaves of `r` to the list.
    method Add2Txg(l: array<Addr>, bm: set<nat>, r: Addr, n: nat, m: nat) returns (bm': set<nat>, n': nat)
      requires Keyed(st.T()) && MergeOver(st.hops, M()) && r in st.parent && r in st.hops && HandedOk(st.T(), r, m)
      requires var p := Place(cfg.mergeRange, st.hops, M(), r, n);
               (p.write.Some? ==> p.m.icr < n + p.offset) && n + p.offset + m <= l.Length
      modifies this, l, st
      ensures HandedOk(old(st.T()), r, m) && st.T() == Take(old(st.T()), r, m)
      ensures var p := Place(cfg.mergeRange, old(st.hops), old(M()), r, n);
              && M() == p.m && n' == n + p.offset + m
              && bm' == bm + (if p.offset == 1 then {p.m.icr} else {})
              && l[..n'] == WithEntry(old(l[..])[..n + p.offset], p) + Handed(old(st.T()), r, m)
    {
      hide Place, Handed, WithEntry, Keyed, MergeOver;
      ghost var p := Place(cfg.mergeRange, st.hops, M(), r, n);
      EntrySlice(l[..], n + p.offset, p);
      ghost var head := WithEntry(l[..][..n + p.offset], p);
      var s;
      s, bm' := SetTxgRouter(l, bm, r, n);
      assert l[..n + s] == l[..][..n + s] == head;
      CopyFree(l, n + s, r, m);
      n' := n + s + m;
      st.fleaf := st.fleaf[r := st.fleaf[r] - m];
    }

    // Copies the first `m` free leaves of `r` to the list from position `k` on.
    method CopyFree(l: array<Addr>, k: nat, r: Addr, m: nat)
      requires Keyed(st.T()) && r in st.parent && HandedOk(st.T(), r, m) && k + m <= l.Length
      modifies l
      ensures l[..k + m] == old(l[..k]) + Handed(st.T(), r, m)
    {
      var c := st.GetFreeLeaf(r);
      ghost var all, head := c, l[..k];
      assert all[..m] == Handed(st.T(), r, m);
      hide Keyed, Handed, HandedOk;
      var i := 0;
      while i < m
        invariant i <= m && c == all[i..]
        invariant l[..k + i] == head + all[..i]
      {
        ghost var a := l[..k + i];
        l[k + i] := c[0];
        assert l[..k + i + 1] == a + [all[i]];
        assert all[..i + 1] == all[..i] + [all[i]];
        c := c[1..];
        i := i + 1;
      }
    }

    // Turns the list into a header, prepends it to the finished ones and forgets the statistics.
    method FinishTxg(grp: seq<Header>, l: array<Addr>, n: nat, bm: set<nat>) returns (grp': seq<Header>)
      requires n <= l.Length
      modifies this
      ensures M() == NO_MERGE && grp' == [SetDataHdr(l[..n], bm)] + grp
    {
      grp' := [SetDataHdr(l[..n], bm)] + grp;
      cr, pcr, icr, initHops := None, None, 0, 0;
    }

    // Counts `r` as exhausted at its parent when it is.
    method BackPropagate(r: Addr) returns (p: Option<Addr>)
      requires Linked(st.T()) && r in st.parent
      modifies st
      ensures p == NextUp(old(st.T()), r) && st.T() == Propagate(old(st.T()), r)
    {
      hide LeafLinks;
      if st.parent[r].None? || st.fleaf[r] > 0 || st.fchild[r] > 0 {
        return None;
      }
      p := st.parent[r];
      if st.fchild[p.value] > 0 {
        st.fchild := st.fchild[p.value := st.fchild[p.value] - 1];
      }
    }

    // Propagates upwards as long as routers become exhausted.
    method RecBackPropagate(r: Addr, ghost rk: map<Addr, nat>, ghost path: seq<Addr>)
      returns (ghost path': seq<Addr>, ghost tail: seq<Addr>)
      requires Linked(st.T()) && Ranked(st.parent, rk) && Chain(st.T(), path) && r == Last(path) && Consumed(st.T(), r)
      modifies st
      ensures Backing(old(st.T()), st.T(), rk, path, path', tail, None)
    {
      path', tail := path, [];
      var q := Some(r);
      BackStart(st.T(), rk, path);
      hide Backing;
      while q.Some?
        invariant Backing(old(st.T()), st.T(), rk, path, path', tail, q)
        decreases |path'|, q.Some?
      {
        ghost var t := st.T();
        BackStop(old(st.T()), t, rk, path, path', tail, q.value);
        var p := BackPropagate(q.value);
        if p.Some? {
          BackUp(old(st.T()), t, rk, path, path', tail, q.value);
          path', tail := path'[..|path'| - 1], [q.value] + tail;
        }
        q := p;
      }
    }

    // Appends `k` free leaves of `r` to the open group.
    method Append(l: array<Addr>, bm: set<nat>, r: Addr, n: nat, k: nat,
                  ghost t0: Tree, ghost rk: map<Addr, nat>, ghost top: Addr, ghost segs: seq<Seg>)
      returns (bm': set<nat>, n': nat, ghost segs': seq<Seg>)
      requires Serving(cfg, t0, st.T(), rk, top, r, segs, M(), k)
      requires n + (if M().cr.None? then 1 else 0) + k <= l.Length && l[..n] == Flat(segs) && bm == Marks(segs)
      modifies this, l, st
      ensures Keyed(t0) && HandedOk(old(st.T()), r, k) && st.T() == Take(old(st.T()), r, k)
      ensures n' == n + (if old(M()).cr.None? then 1 else 0) + k <= l.Length
      ensures Appended(cfg, t0, top, r, segs, segs', Handed(old(st.T()), r, k), l[..n'], bm', M())
      ensures Batch(t0, l[..n'], bm', n)
      ensures Extended(cfg.mergeRange, t0.hops, segs, old(M()), r, n, Handed(old(st.T()), r, k), segs')
    {
      hide Serving, Appended, PlacedAt, Flat, Marks, Extend, Place, Handed, Keyed, HandedOk, MergeOver, WithEntry,
           Batch;
      ghost var t := st.T();
      Placing(cfg, t0, t, rk, top, r, segs, M(), k);
      ghost var p := Place(cfg.mergeRange, st.hops, M(), r, n);
      ghost var was := l[..][..n + p.offset];
      assert was[..n] == l[..n];
      PlacedDone(cfg, t0, top, r, segs, p, Handed(t, r, k), was);
      PlacedBatch(cfg, t0, t, rk, top, r, segs, M(), k, bm, was);
      bm', n' := Add2Txg(l, bm, r, n, k);
      segs' := Extend(segs, p, Handed(t, r, k));
    }

    // Drops the statistics when `r` cannot be merged; otherwise `r` needs no entry of its own.
    method OpenAt(r: Addr) returns (p: nat)
      requires r in st.hops && MergeOver(st.hops, M())
      modifies this
      ensures M() == ResetAt(cfg.mergeRange, st.hops, old(M()), r) && MergeOver(st.hops, M())
      ensures p == if M().cr.None? then 1 else 0
    {
      p := if IsMergeable(r) then 0 else 1;
      if p == 1 && cr.Some? {
        cr, pcr, icr, initHops := None, None, 0, 0;
      }
    }

    // Appends some free leaves of `r`, whose other leaves remain free, and closes the group.
    method ServeSome(l: array<Addr>, bm: set<nat>, r: Addr, n: nat, k: nat,
                     ghost t0: Tree, ghost rk: map<Addr, nat>, ghost path: seq<Addr>, ghost segs: seq<Seg>,
                     ghost m0: Merge, ghost out: seq<Addr>)
      returns (bm': set<nat>, n': nat, ghost segs': seq<Seg>)
      requires n <= l.Length && Opened(cfg, t0, st.T(), rk, path, r, segs, m0, M(), out, l[..n], bm)
      requires r in st.fleaf && 0 < k < st.fleaf[r] && n + (if M().cr.None? then 1 else 0) + k <= l.Length
      modifies this, l, st
      ensures n' <= l.Length && Finished(cfg, t0, st.T(), path, [], r, segs', out, l[..n'], bm')
      ensures Slots(st.fleaf) < Slots(old(st.fleaf))
      ensures n' == n + (if old(M()).cr.None? then 1 else 0) + k && st.fleaf == old(st.fleaf)[r := old(st.fleaf)[r] - k]
      ensures Batch(t0, l[..n'], bm', n)
      ensures |path| > 1 && Keyed(t0) && InSubtree(cfg.mergeRange, t0, path[1], segs')
      ensures HandedOk(old(st.T()), r, k) && Shares(cfg.mergeRange, t0, segs, m0, r, Handed(old(st.T()), r, k), segs')
    {
      hide Opened, Appended, Serving, Finished, Slots, Handed, Batch, Take, Keyed, Flat, Marks, InSubtree, Extended,
           Shares;
      ghost var t := st.T();
      ghost var m1, a1 := M(), l[..n];
      OpenedServing(cfg, t0, t, rk, path, r, segs, m0, m1, out, a1, bm, k);
      bm', n', segs' := Append(l, bm, r, n, k, t0, rk, path[1], segs);
      OpenedTop(cfg, t0, t, rk, path, r, segs, m0, m1, a1, bm, out, segs', Handed(t, r, k), l[..n'], bm', M());
      OpenedShares(cfg, t0, t, rk, path, r, segs, m0, m1, out, a1, bm, n, Handed(t, r, k), segs');
      OpenedClose(cfg, t0, t, rk, path, r, segs, m0, m1, a1, bm, out, k, segs', l[..n'], bm', M());
    }

    // Appends all free leaves of `r`.
    method ServeAll(l: array<Addr>, bm: set<nat>, r: Addr, n: nat,
                    ghost t0: Tree, ghost rk: map<Addr, nat>, ghost path: seq<Addr>, ghost segs: seq<Seg>,
                    ghost m0: Merge, ghost out: seq<Addr>)
      returns (bm': set<nat>, n': nat, ghost segs': seq<Seg>)
      requires n <= l.Length && Opened(cfg, t0, st.T(), rk, path, r, segs, m0, M(), out, l[..n], bm)
      requires r in st.fleaf && 0 < st.fleaf[r] && n + (if M().cr.None? then 1 else 0) + st.fleaf[r] <= l.Length
      modifies this, l, st
      ensures n' == n + (if old(M()).cr.None? then 1 else 0) + old(st.fleaf[r])
      ensures ServedWith(cfg, t0, st.T(), rk, path, segs', M(), out, l[..n'], bm')
      ensures st.fchild == old(st.fchild) && Slots(st.fleaf) < Slots(old(st.fleaf))
      ensures n' <= l.Length && st.fleaf == old(st.fleaf)[r := 0] && Batch(t0, l[..n'], bm', n)
      ensures |path| > 1 && Keyed(t0) && InSubtree(cfg.mergeRange, t0, path[1], segs')
      ensures HandedOk(old(st.T()), r, old(st.fleaf)[r])
          && Shares(cfg.mergeRange, t0, segs, m0, r, Handed(old(st.T()), r, old(st.fleaf)[r]), segs')
    {
      ghost var t := st.T();
      ghost var m1, a1 := M(), l[..n];
      OpenedServing(cfg, t0, t, rk, path, r, segs, m0, m1, out, a1, bm, st.fleaf[r]);
      hide *;
      bm', n', segs' := Append(l, bm, r, n, st.fleaf[r], t0, rk, path[1], segs);
      OpenedTop(cfg, t0, t, rk, path, r, segs, m0, m1, a1, bm, out, segs', Handed(t, r, t.fleaf[r]), l[..n'], bm', M());
      OpenedShares(cfg, t0, t, rk, path, r, segs, m0, m1, out, a1, bm, n, Handed(t, r, t.fleaf[r]), segs');
      OpenedServed(cfg, t0, t, rk, path, r, segs, m0, m1, a1, bm, out, segs', l[..n'], bm', M());
    }

    // Serves the leaves of `r`: all of them, or as many as fit, or none. Closes the group when it
    // is full, large enough, or cannot take the leaves of `r`.
    method ServeLeaves(l: array<Addr>, bm: set<nat>, r: Addr, n: nat,
                       ghost t0: Tree, ghost rk: map<Addr, nat>, ghost path: seq<Addr>, ghost segs: seq<Seg>,
                       ghost out: seq<Addr>)
      returns (closed: bool, bm': set<nat>, n': nat, ghost path': seq<Addr>, ghost tail: seq<Addr>,
               ghost segs': seq<Seg>)
      requires l.Length == Capacity(cfg) && n + 2 <= l.Length
      requires AtStart(cfg, t0, st.T(), rk, path, r, segs, M(), out, l[..n], bm)
      requires r in st.hops && r in st.fleaf && MergeOver(st.hops, M())
      modifies this, l, st
      ensures n' <= l.Length
      ensures var p := if ResetAt(cfg.mergeRange, old(st.hops), old(M()), r).cr.None? then 1 else 0;
              Decided(cfg, t0, n, old(st.fleaf), r, p, old(l[..n]), bm, closed, st.fleaf, n', l[..n'], bm')
      // The receivers handed out share the last segment exactly if they can, and then need no entry.
      ensures r in st.fleaf && Grown(cfg.mergeRange, t0, old(st.T()), segs, old(M()), r, st.fleaf[r], segs')
      ensures t0.hops.Keys == t0.parent.Keys
      ensures Outcome(cfg, n, old(st.fleaf), r, old(M()).cr.Some? && Joins(cfg.mergeRange, t0, segs, r),
                      closed, n', st.fleaf)
      ensures closed ==> Keyed(t0) && JustClosed(cfg, t0, st.T(), segs', n')
      ensures closed ==> Finished(cfg, t0, st.T(), path', tail, r, segs', out, l[..n'], bm')
      ensures !closed ==> ServedWith(cfg, t0, st.T(), rk, path, segs', M(), out, l[..n'], bm')
      ensures !closed ==> n' + 2 <= l.Length && st.fchild == old(st.fchild)
      ensures st.fleaf == old(st.fleaf) || Slots(st.fleaf) < Slots(old(st.fleaf))
      ensures n == 0 ==> Slots(st.fleaf) < Slots(old(st.fleaf))
    {
      hide AtStart, Opened, ServedWith, Finished, Slots, Batch, InSubtree, JustClosed, Keyed, Shares, Handed, HandedOk,
           Decided, Grown, Last, Outcome, ResetAt, MergeOver, Joins, Capacity;
      ghost var t := st.T();
      ghost var m0 := M();
      AtStartBasics(cfg, t0, t, rk, path, r, segs, m0, out, l[..n], bm);
      EntryNeeded(cfg, t0, t, rk, path, r, segs, m0, out, l[..n], bm);
      ghost var f0, a0 := st.fleaf, l[..n];
      closed, bm', n', path', tail, segs' := false, bm, n, path, [], segs;
      var p := OpenAt(r);
      OpenedFree(cfg, t0, t, rk, path, r, segs, m0, M(), out, l[..n], bm);
      if st.fleaf[r] == 0 {
        GrownNone(cfg.mergeRange, t0, t, segs, m0, r);
        OpenedNone(cfg, t0, t, rk, path, r, segs, m0, M(), out, l[..n], bm);
        DecidedNone(cfg, t0, n, st.fleaf, r, p, l[..n], bm);
        DecidedMeans(cfg, t0, n, f0, r, p, a0, bm, false, st.fleaf, n, l[..n], bm);
        return;
      }
      if n + st.fleaf[r] + p > l.Length {
        closed := true;
        bm', n', segs' := ServeOver(l, bm, r, n, p, t0, rk, path, segs, m0, out);
      } else {
        closed, bm', n', path', tail, segs' := ServeFit(l, bm, r, n, p, t0, rk, path, segs, m0, out);
      }
      DecidedMeans(cfg, t0, n, f0, r, p, a0, bm, closed, st.fleaf, n', l[..n'], bm');
    }

    // The leaves of `r` do not fit: some of them are appended when they would not fit in any group,
    // or when nodes may be split.
    method ServeOver(l: array<Addr>, bm: set<nat>, r: Addr, n: nat, p: nat,
                     ghost t0: Tree, ghost rk: map<Addr, nat>, ghost path: seq<Addr>, ghost segs: seq<Seg>,
                     ghost m0: Merge, ghost out: seq<Addr>)
      returns (bm': set<nat>, n': nat, ghost segs': seq<Seg>)
      requires n + 2 <= l.Length && Opened(cfg, t0, st.T(), rk, path, r, segs, m0, M(), out, l[..n], bm)
      requires r in st.fleaf && p == (if M().cr.None? then 1 else 0) && n + st.fleaf[r] + p > l.Length
          && (n == 0 ==> p == 1)
      requires l.Length == Capacity(cfg)
      modifies this, l, st
      ensures n' <= l.Length
          && Decided(cfg, t0, n, old(st.fleaf), r, p, old(l[..n]), bm, true, st.fleaf, n', l[..n'], bm')
      ensures r in st.fleaf && Grown(cfg.mergeRange, t0, old(st.T()), segs, m0, r, st.fleaf[r], segs')
      ensures Keyed(t0) && JustClosed(cfg, t0, st.T(), segs', n')
      ensures n' <= l.Length && Finished(cfg, t0, st.T(), path, [], r, segs', out, l[..n'], bm')
      ensures st.fleaf == old(st.fleaf) || Slots(st.fleaf) < Slots(old(st.fleaf))
      ensures n == 0 ==> Slots(st.fleaf) < Slots(old(st.fleaf))
    {
      hide Opened, Finished, Slots, Batch, InSubtree, JustClosed, Keyed, Shares, Handed, HandedOk;
      OpenedFree(cfg, t0, st.T(), rk, path, r, segs, m0, M(), out, l[..n], bm);
      OpenedKeyed(cfg, t0, st.T(), rk, path, r, segs, m0, M(), out, l[..n], bm);
      if st.fleaf[r] >= l.Length || cfg.splitNodes {
        bm', n', segs' := ServeSome(l, bm, r, n, l.Length - n - p, t0, rk, path, segs, m0, out);
        FullClosed(cfg, t0, st.T(), path[1], segs', n');
      } else {
        RefusedClosed(cfg, t0, st.T(), rk, path, r, segs, m0, M(), out, l[..n], bm);
        OpenedRefuse(cfg, t0, st.T(), rk, path, r, segs, m0, M(), out, l[..n], bm);
        bm', n', segs' := bm, n, segs;
      }
    }

    // The leaves of `r` fit: all of them are appended, and a group that is now full is closed.
    method ServeFit(l: array<Addr>, bm: set<nat>, r: Addr, n: nat, p: nat,
                    ghost t0: Tree, ghost rk: map<Addr, nat>, ghost path: seq<Addr>, ghost segs: seq<Seg>,
                    ghost m0: Merge, ghost out: seq<Addr>)
      returns (closed: bool, bm': set<nat>, n': nat, ghost path': seq<Addr>, ghost tail: seq<Addr>,
               ghost segs': seq<Seg>)
      requires n <= l.Length && Opened(cfg, t0, st.T(), rk, path, r, segs, m0, M(), out, l[..n], bm) && |path| > 0
          && r == Last(path)
      requires r in st.fleaf && p == (if M().cr.None? then 1 else 0) && 0 < st.fleaf[r]
          && n + st.fleaf[r] + p <= l.Length
      requires l.Length == Capacity(cfg)
      modifies this, l, st
      ensures n' <= l.Length
          && Decided(cfg, t0, n, old(st.fleaf), r, p, old(l[..n]), bm, closed, st.fleaf, n', l[..n'], bm')
      ensures r in st.fleaf && Grown(cfg.mergeRange, t0, old(st.T()), segs, m0, r, st.fleaf[r], segs')
      ensures closed ==> Keyed(t0) && JustClosed(cfg, t0, st.T(), segs', n')
      ensures closed ==> Finished(cfg, t0, st.T(), path', tail, r, segs', out, l[..n'], bm')
      ensures !closed ==> ServedWith(cfg, t0, st.T(), rk, path, segs', M(), out, l[..n'], bm')
      ensures !closed ==> n' + 2 <= l.Length && st.fchild == old(st.fchild)
      ensures Slots(st.fleaf) < Slots(old(st.fleaf))
    {
      hide Opened, ServedWith, Finished, Slots, Batch, InSubtree, JustClosed, Keyed, Shares, Handed, HandedOk, Decided,
           Grown, Last;
      ghost var t := st.T();
      ghost var f0, a0 := st.fleaf, l[..n];
      path', tail := path, [];
      closed := n + st.fleaf[r] + p + 1 >= l.Length || n + st.fleaf[r] + p >= cfg.okAddrs;
      bm', n', segs' := ServeAll(l, bm, r, n, t0, rk, path, segs, m0, out);
      DecidedAll(cfg, t0, n, f0, r, p, a0, bm, l[..n'], bm');
      GrownAll(cfg.mergeRange, t0, t, segs, m0, r, segs');
      if closed {
        ghost var a := l[..n'];
        path', tail := CloseFull(r, t0, rk, path, segs', out, a, bm');
        assert l[..n'] == a;
        FullClosed(cfg, t0, st.T(), path[1], segs', n');
      }
    }

    // Closes a full group: routers that have become exhausted are counted.
    method CloseFull(r: Addr, ghost t0: Tree, ghost rk: map<Addr, nat>, ghost path: seq<Addr>, ghost segs: seq<Seg>,
                     ghost out: seq<Addr>,
                     ghost a: seq<Addr>, ghost bm: set<nat>)
      returns (ghost path': seq<Addr>, ghost tail: seq<Addr>)
      requires ServedWith(cfg, t0, st.T(), rk, path, segs, M(), out, a, bm) && |path| > 0 && r == Last(path)
      modifies st
      ensures Finished(cfg, t0, st.T(), path', tail, r, segs, out, a, bm)
      ensures st.fleaf == old(st.fleaf)
    {
      ghost var t := st.T();
      ServedBasics(cfg, t0, t, path, segs, M(), out);
      path', tail := RecBackPropagate(r, rk, path);
      CloseBack(cfg, t0, t, st.T(), rk, path, segs, M(), out, path', tail);
      BackingBasics(t, st.T(), rk, path, path', tail);
    }

    // Moves up from a served router without free children to its parent, which becomes the potential
    // closest router if it can be merged. Closes the group at the root.
    method MoveUpFrom(r: Addr, ghost t0: Tree, ghost rk: map<Addr, nat>, ghost path: seq<Addr>, ghost segs: seq<Seg>,
                      ghost out: seq<Addr>, ghost a: seq<Addr>, ghost bm: set<nat>)
      returns (closed: bool, r': Addr, ghost path': seq<Addr>)
      requires Checked(cfg) && ServedWith(cfg, t0, st.T(), rk, path, segs, M(), out, a, bm) && |path| > 0
          && r == Last(path)
      requires r in st.fchild && st.fchild[r] == 0
      modifies this, st
      ensures closed ==> Finished(cfg, t0, st.T(), path', [], r', segs, out, a, bm)
      ensures closed ==> Keyed(t0) && JustClosed(cfg, t0, st.T(), segs, |a|)
      ensures !closed ==> AtStart(cfg, t0, st.T(), rk, path', r', segs, M(), out, a, bm)
      ensures st.fleaf == old(st.fleaf) && Slots(st.fchild) < Slots(old(st.fchild))
      ensures r in st.parent && st.parent[r] == Some(r') && r' in st.parent && closed == st.parent[r'].None?
      ensures t0.hops.Keys == t0.parent.Keys
          && M() == (if old(M()).cr.Some? && Joins(cfg.mergeRange, t0, segs, r') then old(M()).(pcr := Some(r'))
                     else old(M()))
    {
      hide AtStart, ServedWith, Finished, Slots, ChildLinks, LeafLinks, Ranked, Propagate, NextUp, JustClosed, Keyed,
           Chain;
      ghost var t, m := st.T(), M();
      ServedKeyed(cfg, t0, t, rk, path, segs, m, out, a, bm);
      MoveBasics(cfg, t0, t, rk, path, r, segs, m, out, a, bm);
      MoveUp(cfg, t0, t, rk, path, r, segs, m, out, a, bm);
      ServedCloser(cfg, t0, t, rk, path, segs, m, out, a, bm, st.parent[r].value);
      if st.parent[st.parent[r].value].None? {
        RootOnly(t0, t, rk, path, r);
        RootClosed(cfg, t0, t, rk, path, r, segs, m, out, a, bm);
      }
      r', path' := st.parent[r].value, path[..|path| - 1];
      if cr.Some? && IsMergeable(r') {
        pcr := Some(r');
      }
      var p := BackPropagate(r);
      closed := st.parent[r'].None?;
    }

    // Moves on from a served router: down to its first free child, or else up.
    method MoveOn(r: Addr, ghost t0: Tree, ghost rk: map<Addr, nat>, ghost path: seq<Addr>, ghost segs: seq<Seg>,
                  ghost out: seq<Addr>, ghost a: seq<Addr>, ghost bm: set<nat>)
      returns (closed: bool, r': Addr, ghost path': seq<Addr>)
      requires Checked(cfg) && ServedWith(cfg, t0, st.T(), rk, path, segs, M(), out, a, bm) && |path| > 0
          && r == Last(path)
      modifies this, st
      ensures closed ==> Finished(cfg, t0, st.T(), path', [], r', segs, out, a, bm)
      ensures closed ==> Keyed(t0) && JustClosed(cfg, t0, st.T(), segs, |a|)
      ensures !closed ==> AtStart(cfg, t0, st.T(), rk, path', r', segs, M(), out, a, bm)
      ensures st.fleaf == old(st.fleaf)
      ensures Slots(st.fchild) < Slots(old(st.fchild)) ||
              (st.fchild == old(st.fchild) && t0.parent.Keys - Visited(path') < t0.parent.Keys - Visited(path))
      ensures r in old(st.fchild) && r in st.parent
      ensures old(st.fchild)[r] > 0 ==>
              !closed && st.T() == old(st.T()) && M() == old(M()) && FirstFreeIs(old(st.T()), r, r')
      ensures old(st.fchild)[r] == 0 ==> st.parent[r] == Some(r') && r' in st.parent && closed == st.parent[r'].None?
    {
      hide AtStart, ServedWith, Finished, Slots, Visited, ChildLinks, LeafLinks, Ranked, Propagate, NextUp,
           JustClosed, Keyed;
      ghost var t, m := st.T(), M();
      ServedKeyed(cfg, t0, t, rk, path, segs, m, out, a, bm);
      MoveBasics(cfg, t0, t, rk, path, r, segs, m, out, a, bm);
      var c := st.GetFreeRouter(r);
      if st.fchild[r] > 0 && c != [] {
        MoveDown(cfg, t0, t, rk, path, r, segs, m, out, a, bm);
        closed, r', path' := false, c[0], path + [c[0]];
      } else {
        closed, r', path' := MoveUpFrom(r, t0, rk, path, segs, out, a, bm);
      }
    }

    // Builds one group from router `r0` on, until it is closed. `r` is where the next start is
    // searched, and the list holds the group.
    method FillGroup(l: array<Addr>, r0: Addr, ghost t0: Tree, ghost rk: map<Addr, nat>, ghost path0: seq<Addr>,
                     ghost out: seq<Addr>)
      returns (r: Addr, n: nat, bm: set<nat>, ghost path: seq<Addr>, ghost tail: seq<Addr>, ghost segs: seq<Seg>)
      requires l.Length == Capacity(cfg) && AtStart(cfg, t0, st.T(), rk, path0, r0, [], M(), out, [], {})
      modifies this, l, st
      ensures n <= l.Length && Finished(cfg, t0, st.T(), path, tail, r, segs, out, l[..n], bm)
      ensures Slots(st.fleaf) < Slots(old(st.fleaf))
      ensures LastBatch(cfg, t0, l[..n], bm) && Keyed(t0) && JustClosed(cfg, t0, st.T(), segs, n)
      ensures !cfg.splitNodes && Unsplit(cfg, t0.leaf, old(st.fleaf)) ==> Unsplit(cfg, t0.leaf, st.fleaf)
    {
      hide AtStart, ServedWith, Finished, Slots, Visited, LastBatch, Decided, Unsplit, ResetAt, MergeOver, JustClosed,
           Keyed, MovedUp;
      AtStartBasics(cfg, t0, st.T(), rk, path0, r0, [], M(), out, [], {});
      r, n, bm := r0, 0, {};
      path, tail, segs := path0, [], [];
      var closed := false;
      assert l[..n] == [];
      while !closed
        invariant Checked(cfg) && n <= l.Length
        invariant !closed ==> n + 2 <= l.Length && AtStart(cfg, t0, st.T(), rk, path, r, segs, M(), out, l[..n], bm)
        invariant closed ==> Finished(cfg, t0, st.T(), path, tail, r, segs, out, l[..n], bm)
        invariant !closed && n == 0 ==> st.fleaf == old(st.fleaf)
        invariant closed ==> Keyed(t0) && JustClosed(cfg, t0, st.T(), segs, n)
        invariant closed || n > 0 ==> Slots(st.fleaf) < Slots(old(st.fleaf))
        invariant (n > 0 ==> LastBatch(cfg, t0, l[..n], bm)) && (!closed ==> n < cfg.okAddrs)
        invariant !cfg.splitNodes && Unsplit(cfg, t0.leaf, old(st.fleaf)) ==> Unsplit(cfg, t0.leaf, st.fleaf)
        decreases !closed, Slots(st.fleaf), Slots(st.fchild), t0.parent.Keys - Visited(path)
      {
        ghost var at := path;
        AtStartBasics(cfg, t0, st.T(), rk, path, r, segs, M(), out, l[..n], bm);
        ghost var p := if ResetAt(cfg.mergeRange, st.hops, M(), r).cr.None? then 1 else 0;
        ghost var n0, f0, a0, bm0 := n, st.fleaf, l[..n], bm;
        closed, bm, n, path, tail, segs := ServeLeaves(l, bm, r, n, t0, rk, path, segs, out);
        DecidedKeeps(cfg, t0, n0, f0, r, p, a0, bm0, closed, st.fleaf, n, l[..n], bm);
        if !closed {
          ghost var a := l[..n];
          ServedNonEmpty(cfg, t0, st.T(), rk, at, segs, M(), out, a, bm);
          closed, r, path := MoveOn(r, t0, rk, at, segs, out, a, bm);
          tail := [];
          assert l[..n] == a;
        }
      }
      FinishedNonEmpty(cfg, t0, st.T(), path, tail, r, segs, out, l[..n], bm);
    }
  }

  lemma FinishedNonEmpty(cfg: Config, t0: Tree, t: Tree, path: seq<Addr>, tail: seq<Addr>, r: Addr, segs: seq<Seg>,
                         out: seq<Addr>, a: seq<Addr>, bm: set<nat>)
    requires Finished(cfg, t0, t, path, tail, r, segs, out, a, bm)
    ensures a != []
  {
    EmptyGroup(segs);
  }

  lemma BackingBasics(t: Tree, t': Tree, rk: map<Addr, nat>, whole: seq<Addr>, path: seq<Addr>, tail: seq<Addr>)
    requires Backing(t, t', rk, whole, path, tail, None)
    ensures path + tail == whole && t'.fleaf == t.fleaf
  {
  }

  lemma EmptyGroup(segs: seq<Seg>)
    ensures |Flat(segs)| == 0 <==> segs == []
  {
  }

  // The parent at which an exhausted router `r` is counted.
  ghost function NextUp(t: Tree, r: Addr): Option<Addr>
    requires r in t.parent && r in t.fleaf && r in t.fchild
  {
    if t.fleaf[r] > 0 || t.fchild[r] > 0 then None else t.parent[r]
  }

  ghost function Propagate(t: Tree, r: Addr): Tree
    requires r in t.parent && r in t.fleaf && r in t.fchild
  {
    match NextUp(t, r)
    case Some(p) => if p in t.fchild && t.fchild[p] > 0 then Count(t, p) else t
    case None => t
  }

  // Propagation has come from the end of `whole` to the end of `path`; `q` is propagated next.
  ghost predicate Backing(t0: Tree, t: Tree, rk: map<Addr, nat>, whole: seq<Addr>, path: seq<Addr>, tail: seq<Addr>,
                          q: Option<Addr>) {
    && Linked(t) && Ranked(t.parent, rk) && SameTree(t0, t) && t.fleaf == t0.fleaf
    && Chain(t, path) && Tail(t, path, tail) && path + tail == whole
    && Consumed(t, if q.Some? then q.value else t.root)
    && (q.Some? ==> q.value == Last(path))
  }

  lemma BackStart(t: Tree, rk: map<Addr, nat>, path: seq<Addr>)
    requires Linked(t) && Ranked(t.parent, rk) && Chain(t, path) && Consumed(t, Last(path))
    ensures Backing(t, t, rk, path, path, [], Some(Last(path)))
  {
  }

  lemma BackStop(t0: Tree, t: Tree, rk: map<Addr, nat>, whole: seq<Addr>, path: seq<Addr>, tail: seq<Addr>, a: Addr)
    requires Backing(t0, t, rk, whole, path, tail, Some(a))
    ensures Linked(t) && a in t.parent && |path| > 0
    ensures NextUp(t, a).None? ==> Backing(t0, t, rk, whole, path, tail, None)
  {
    if NextUp(t, a).None? { NotExhausted(t, path); }
  }

  lemma BackUp(t0: Tree, t: Tree, rk: map<Addr, nat>, whole: seq<Addr>, path: seq<Addr>, tail: seq<Addr>, a: Addr)
    requires Backing(t0, t, rk, whole, path, tail, Some(a)) && a in t.parent && Linked(t)
    requires NextUp(t, a).Some?
    ensures |path| > 1
    ensures Backing(t0, Propagate(t, a), rk, whole, path[..|path| - 1], [a] + tail, NextUp(t, a))
  {
    hide ChildLinks, LeafLinks, Ranked, Chain, Consumed, Tail;
    Propagated(t, rk, path, tail);
    Regroup(path, tail);
  }

  lemma Regroup(path: seq<Addr>, tail: seq<Addr>)
    requires |path| > 0
    ensures path[..|path| - 1] + ([Last(path)] + tail) == path + tail
  {
  }

  lemma NotExhausted(t: Tree, path: seq<Addr>)
    requires Linked(t) && Chain(t, path) && Consumed(t, Last(path))
    requires Last(path) in t.parent && (t.parent[Last(path)].Some? ==> !Exhausted(t, Last(path)))
    ensures Consumed(t, t.root)
  {
    if |path| > 1 { ChainParent(t, path, |path| - 2); }
    NoException(t, Last(path));
  }

  lemma LastParent(t: Tree, path: seq<Addr>)
    requires Linked(t) && Chain(t, path) && t.parent[Last(path)].Some?
    ensures |path| > 1 && t.parent[Last(path)] == Some(path[|path| - 2]) && Last(path) in t.parent
  {
    if |path| > 1 { ChainParent(t, path, |path| - 2); }
  }

  lemma Propagated(t: Tree, rk: map<Addr, nat>, path: seq<Addr>, tail: seq<Addr>)
    requires Linked(t) && Ranked(t.parent, rk) && Chain(t, path) && Tail(t, path, tail)
    requires Consumed(t, Last(path)) && Exhausted(t, Last(path)) && t.parent[Last(path)].Some?
    ensures |path| > 1 && t.parent[Last(path)] == Some(path[|path| - 2]) && t.fchild[path[|path| - 2]] > 0
    ensures var p := path[|path| - 2];
            var t' := Count(t, p);
            && Linked(t') && SameTree(t, t') && Chain(t', path[..|path| - 1]) && Consumed(t', p)
            && Tail(t', path[..|path| - 1], [Last(path)] + tail)
  {
    hide ChildLinks, LeafLinks, Ranked, Chain, Consumed;
    LastParent(t, path);
    CountKeeps(t, rk, path);
    var p, q := path[|path| - 2], path[..|path| - 1];
    var longer := [Last(path)] + tail;
    var t' := Count(t, p);
    forall i | 0 <= i < |longer| ensures Spent(t', longer[i], Before(q, longer, i)) {
      if i > 0 { assert Spent(t, tail[i - 1], Before(path, tail, i - 1)); }
    }
  }
}
