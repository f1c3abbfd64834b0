# MEADcast in Dafny

MEADcast is a sender-centric multicast protocol for IPv6. A sender discovers the MEADcast routers on
the routes to its receivers, keeps them in a topology tree, and packs receivers into headers that name
routers and, behind each router, the receivers it serves. Routers take these headers apart hop by hop
and turn them into unicast packets, so that receivers only ever see unicast.

This project models both halves, the sender and the router patch for the Linux kernel, and proves that
they agree.

| file | contents |
|---|---|
| `Base`, `Forest` | addresses and lists; the topology tree as a value, and what makes it well-formed |
| `Lists`, `TreeOps`, `Store` | counted lists, the elementary changes to the tree, and the class that holds the sender's records |
| `Header` | the data header: encoding, and the segments that a router reads |
| `Consumption`, `Packing`, `Grouping`, `Partition` | greedy grouping: ordered consumption, merging, the traversal, the whole run |
| `MergeExample`, `StartSearch` | runs that merge beyond the merge range; when the search for a start ends |
| `Topology`, `Rx` | what one discovery response changes |
| `Pruning`, `Reduction`, `Reset` | which routers serve too little, their removal, and the return to an ungrouped tree |
| `Network`, `OrderExample`, `Discovery`, `Phase` | the real routing tree, what the sender may believe about it, discovery itself, and what a whole phase of it finds |
| `Checksum`, `Plane` | UDP checksums, and the router's data plane |
| `Transmit`, `Delivery`, `EndToEnd` | what the sender transmits, and where it arrives |
| `Sender` | the sender as an event-driven whole |

Main results:

- `Sender.Start` and `Sender.DxLoop`: whatever the order of discovery responses and timeouts, the tree
  stays rooted, free of cycles and in possession of every receiver exactly once, and the published group
  addresses every receiver exactly once. The event loop needs for this that a router does not change its
  hop count within a phase and that no response carries the sender's own address; `Topology.CycleExample`
  shows why, and genuine responses always meet it. When all responses are genuine, as they are in a network
  whose routes have less than 64 routers (`Sender.RoutersHonest`), what is sent for the published group
  reaches every receiver exactly once, as a unicast packet with intact payload, and nobody else, for any
  settings of the routers; and whenever all probes of a phase have been answered, in any interleaving, the
  tree that is grouped at its end is the routing tree.
- `Partition.GreedyGrouping`: grouping terminates on every reduced tree and partitions the receivers.
  `Partition.HeadersFilled` says in numbers how full every header is, with and without splitting, and
  `Packing.JoinExactly` exactly which routers share an entry.
- `Reduction.ReducedExactly`: although the tree changes under the recursion, which routers reduction removes
  and what the others end up with is a function of the tree before it (`Pruning.Final`).
- `EndToEnd.GroupDelivered`: the group-level statement of delivery. It also says exactly which packets
  arrive with checksum 0, which a receiver has to discard.
- `Network.FeedSound`, `Network.FeedComplete`, `Network.FeedExactly`, `Phase.PhaseCompletes`,
  `OrderExample.OrderMatters`: what discovery achieves in any order and in rising order, exactly which
  sequences of reports keep the tree a union of routes, and one that does not.
- `Plane.Skb.MdDataRcv`, `Plane.Conserved`: the router's one-pass scan refines its simple specification,
  and the receivers pending behind it are those pending before it, exactly when something is marked for
  delivery and every marked router has receivers or gets a replica all the same; what the sender makes is
  always such a packet (`Plane.ConservedWhole`). `Plane.ReceivedWhich` says for which segments there is a
  replica and for which there are unicast packets.
- `Discovery.ProbeTravels`: running the handlers of all routers on a route on a probe yields exactly the
  answers that the sender's side of the proofs relies on.

Where the code does not meet what one would expect, there is an example and an exact condition:

| expectation | example | exactly when |
|---|---|---|
| receivers are within the merge range of their router entry | `MergeExample.MergeFar`, `MergeExample.MergeStrands` | `Packing.FarStep`, step by step; `Packing.FarRouter` for the router being served |
| the search for a start ends | `StartSearch.StuckExample` | `StartSearch.SearchEnds` |
| hop counts rise strictly | `Topology.EqualHops` | `Topology.StrictExactly` |
| a response finds a position on the path of its receiver | `Topology.NoPosition` | `Rx.GetPathPos`, `Topology.FoundExactly` |
| parent pointers form no cycle | `Topology.CycleExample` | `Topology.UpdateAcyclic` |
| the tree is a union of reported routes | `OrderExample.OrderMatters` | `Network.CompleteExactly`, `Network.FeedExactly` |
| the sender's checksum is not 0 | `Checksum.ZeroExample` | `Checksum.SenderCheck`, `EndToEnd.GroupDelivered` |
| a discovery answer tells the true distance | `Discovery.FarAnswer` | `Discovery.ProbeAnswers` |
| a router conserves receivers | `Plane.EmptyExample`, `Plane.UnmarkedExample` | `Plane.Conserved` |

Reading hints. A pointer to a router or receiver record is its address, and class `Nodes.Store` keeps the
fields of the records in maps from addresses, so a record is live exactly while its address is indexed. A
pointer to a list cell is the part of the list that starts there. `rk` is a ghost rank that certifies that
parent pointers are acyclic. The gotos of `greedy_grouping` have become methods: `FillGroup` is the loop
through label `start`, `ServeLeaves` with its helpers the part that adds leaves, `MoveOn` the part that
goes down or up, and `NextGroup` is label `next` with the search for the next start. A bitmap is the set of
the positions whose bit is set, position i being bit 31 - i.

Where the code and the prose of the repository differ, the code is followed: the comment of
`set_txg_router` names `should_use_parent_as_closest`, but the code takes the parent router that
`greedy_grouping` remembers in `pcr`; the comment of `back_propagate` speaks of the parent's free leaves,
but the code lowers the counter of free child routers.

## Model

| member | source | states |
|---|---|---|
| Lists.RmChild | src/mdc_sender/src/list.c:51-79 | unlinks one cell that holds the value (the only one of a duplicate-free list), lowers both counters but not below 0, and changes nothing when the value is absent |
| Lists.GetFree | src/mdc_sender/src/list.c:81-92 | the list from its first free cell on, and nothing when no element is free or the counters do not fit the list |
| Nodes.Store.constructor | src/mdc_sender/src/group.c:40-62 | a new group knows only the sender as root, without parent, children, leaves and hops |
| Nodes.Store.CreateRouter | src/mdc_sender/src/tree.c:73-97 | a new record has no parent, empty lists, zero counters and hop count 0; all others are unchanged |
| Nodes.Store.AddRouter | src/mdc_sender/src/list.h:28-32 | the child goes in front, counts as free and gets the parent; nothing else changes |
| Nodes.Store.AddLeaf | src/mdc_sender/src/list.h:34-38 | the receiver goes in front, counts as free and gets the parent; nothing else changes |
| Nodes.Store.RmRouter | src/mdc_sender/src/list.h:45-51 | the child leaves the list, if it is in it, and loses its parent in any case; nothing else changes |
| Nodes.Store.RmLeaf | src/mdc_sender/src/list.h:53-59 | the receiver leaves the list, if it is in it, and loses its parent in any case; nothing else changes |
| Nodes.Store.AddRouters | src/mdc_sender/src/list.c:29-49 | all given routers go in front in order, get the parent and are counted; an empty list changes nothing |
| Nodes.Store.AddLeaves | src/mdc_sender/src/list.c:29-49 | the same for receivers |
| Nodes.Store.GetFreeRouter | src/mdc_sender/src/list.h:72-76 | the free child routers, as the end of the child list; nothing when the counter is too large |
| Nodes.Store.GetFreeLeaf | src/mdc_sender/src/list.h:66-70 | the free leaves, as the end of the leaf list; nothing when the counter is too large |
| Header.RoundTrip | src/mdc_sender/src/tx.c:63-82 | a router's reading of an encoded header gives back exactly the segments, in order, and all routers are marked for delivery |
| Header.DecodeFrom | src/linux-6.5.y.patch:456-495 | reading from any segment boundary gives the remaining segments |
| Header.SegAtOffset | src/linux-6.5.y.patch:383-400 | the segment that starts at a router's position ends at the next router or at the end of the list |
| Header.LengthAgrees | src/mdc_sender/src/core.c:20-30 | for up to 32 entries the 8-bit fields hold count and length, and the length a router derives is the size the sender wrote, 16 bytes and 16 for each entry (section 4.4 of RFC 8200) |
| Header.NewData | src/mdc_sender/src/tx.c:63-82 | a new header has counted no hops, is no packet of discovery, carries the entries in order, and is to be delivered at all its routers |
| Consumption.TakeKeeps | src/mdc_sender/src/tree.c:415-434 | handing out leaves of the current router keeps the ordered-consumption invariant and the chain of first free children |
| Consumption.CountConsumed | src/mdc_sender/src/tree.c:292-304 | counting the first free child, once exhausted, keeps the invariant that exactly the exhausted subtrees lie in front of the free children |
| Consumption.CountKeeps | src/mdc_sender/src/tree.c:292-304 | counting the exhausted end of the chain leaves a chain that ends at its parent |
| Consumption.ChainDescend | src/mdc_sender/src/tree.c:524-527 | the first free child continues the chain and is not exhausted |
| Consumption.NothingLeft | src/mdc_sender/src/tree.c:544-547 | once the root has no free child, every router of the tree is exhausted |
| Packing.PlaceAbove | src/mdc_sender/src/tree.c:371-411 | when hop counts rise strictly, the router chosen by merging is above the router being served and above the whole segment so far |
| Packing.ExtendFlat | src/mdc_sender/src/tree.c:404-408 | writing the entry at the remembered position and the leaves behind the list encodes exactly the extended segment |
| Packing.AddOpening | src/mdc_sender/src/tree.c:389-392 | a new segment is sound and lies below the same child of the root |
| Packing.AddMerging | src/mdc_sender/src/tree.c:394-402 | a merged segment is sound: its entry and all its routers are within the merge range of its first router, and its entry is above all its receivers |
| Packing.JoinExactly | src/mdc_sender/src/tree.c:371-411 | in terms of hop counts and the open group: serving a router extends the last segment, instead of opening one, if and only if statistics are kept and the router is within the merge range of the first router and of the entry of that segment |
| Packing.CloserExactly | src/mdc_sender/src/tree.c:529-533 | a router becomes the potential closest router under the same condition |
| Packing.PlaceClosest | src/mdc_sender/src/tree.c:371-411 | the entry chosen is the closest to the sender of the entry so far, the potential closest router and the served router, and stays unless another is closer |
| Packing.AscendKeeps | src/mdc_sender/src/tree.c:529-536 | moving up, with the parent as potential closest router, keeps the open group sound |
| Packing.DescendKeeps | src/mdc_sender/src/tree.c:497-498 | moving down keeps the open group sound |
| Packing.MergeBound | src/mdc_sender/src/tree.c:327-331 | every receiver's router is within twice the merge range of the segment's entry, and is the entry itself when the range is 0 |
| Packing.FarRouter | src/mdc_sender/src/tree.c:394-402 | a mergeable router gets an entry beyond the merge range if and only if it takes over the potential closest router and that is more than the range closer to the sender |
| Packing.FarSegment | src/mdc_sender/src/tree.c:327-331 | in a finished segment, some receiver is beyond the range of the entry if and only if the largest hop count exceeds that of the entry by more than the range |
| Packing.FarStep | src/mdc_sender/src/tree.c:371-411 | after a merge step some receiver of the segment is beyond the range of the entry if and only if, before the step, the entry that will be chosen is too close to the sender for the segment's farthest router or for the served one: the potential closest router, the served router, or the entry so far |
| MergeExample.MergeFar | src/mdc_sender/src/tree.c:529-536 | a well-formed reduced tree and a run on it with merge range 1 in which a router is served behind an entry 2 hops away |
| MergeExample.MergeStrands | src/mdc_sender/src/tree.c:394-399 | on the same tree with merge range 2: every router is within the range when it is served, but the last one becomes the entry, 3 hops away from one served before |
| Grouping.EmitMore | src/mdc_sender/src/tree.c:423-433 | handing out leaves emits exactly those in front of the remaining free ones, without repetition |
| StartSearch.StartStuck | src/mdc_sender/src/tree.c:276-279 | a search whose descent meets no free leaves continues at a router whose search is the same |
| StartSearch.SearchEnds | src/mdc_sender/src/tree.c:255-289 | the search ends if and only if its first descent from a router with something free meets free leaves, or nothing is free up to the root |
| StartSearch.GroupingMeets | src/mdc_sender/src/tree.c:255-289 | that is always so during grouping, as `reduce_tree` and the bounds of `src/mdc_sender/src/argp.c:192-197` leave no bare router |
| StartSearch.StuckExample | src/mdc_sender/src/tree.c:276-279 | on an unreduced tree with a bare router it never ends |
| Grouping.UnsplitKeeps | src/mdc_sender/src/tree.c:500-522 | without splitting, a router whose leaves fit into a group hands them out all at once |
| Grouping.DecidedMeans | src/mdc_sender/src/tree.c:500-522 | what a decision comes to in numbers: closed or open, entries, and leaves left |
| Grouping.DecidedKeeps | src/mdc_sender/src/tree.c:500-522 | each decision about a router's leaves keeps the group short of `ok_addrs` while it is open, and records which receivers came last |
| Grouping.Placing | src/mdc_sender/src/tree.c:371-411 | the space reserved for a router entry is the offset that `set_txg_router` returns, and the writes are in bounds |
| Grouping.FreeEndDown | src/mdc_sender/src/tree.c:268-274 | a descent along first free children from a chain extends that chain |
| Grouping.Grouper.Descend | src/mdc_sender/src/tree.c:263-274 | finds the end of the descent and the last router on it with free leaves |
| Grouping.Grouper.GetStart | src/mdc_sender/src/tree.c:255-289 | terminates under the consumption invariant; finds a router with free leaves and no free child at the end of a chain, and nothing exactly when the root has no free child |
| Grouping.Grouper.SetTxgRouter | src/mdc_sender/src/tree.c:371-411 | statistics, entry, bit and offset change as the merge step prescribes; all other entries stay |
| Grouping.Grouper.Add2Txg | src/mdc_sender/src/tree.c:415-434 | the list grows by the entry, if any, and the first free leaves in order, which are then no longer free |
| Grouping.Grouper.CopyFree | src/mdc_sender/src/tree.c:424-430 | copies the first free leaves in order behind the list |
| Grouping.Grouper.FinishTxg | src/mdc_sender/src/tree.c:452-466 | prepends the encoded list and forgets the merging statistics |
| Grouping.Grouper.BackPropagate | src/mdc_sender/src/tree.c:292-304 | lowers the parent's counter exactly for an exhausted router, and names the router to continue with |
| Grouping.Grouper.RecBackPropagate | src/mdc_sender/src/tree.c:306-310 | counts every exhausted router at the end of the chain once, and restores the consumption invariant for the whole tree |
| Grouping.Grouper.OpenAt | src/mdc_sender/src/tree.c:492-498 | drops the statistics exactly when the router cannot be merged, and reserves an entry exactly when none can be shared; in terms of the open group, that is `Packing.JoinExactly` |
| Grouping.Grouper.Append | src/mdc_sender/src/tree.c:507-519 | the list encodes the extended group, every guarantee for groups holds for it, and what was added belongs to one router |
| Grouping.Grouper.ServeSome | src/mdc_sender/src/tree.c:505-509 | a partly served router closes a sound group, and its other leaves remain free |
| Grouping.Grouper.ServeAll | src/mdc_sender/src/tree.c:513-519 | a completely served router leaves a sound open group |
| Grouping.Grouper.ServeLeaves | src/mdc_sender/src/tree.c:500-522 | in numbers, for every case of capacity, `ok_addrs` and `split_nodes`: whether the group is closed, how many entries it then has and which leaves stay free; the receivers share the last segment if and only if the router is within the merge range of its first router and of its entry; a closed group is sound, an open one has room for another router with a receiver |
| Grouping.Grouper.MoveUpFrom | src/mdc_sender/src/tree.c:529-543 | goes to the parent, which becomes the potential closest router if and only if it is within the merge range of the first router and of the entry of the last segment, while statistics are kept, and closes the group exactly at the root, when nothing below the root's child is left |
| Grouping.Grouper.MoveOn | src/mdc_sender/src/tree.c:524-543 | goes to the first free child if there is one, and otherwise up; the termination measure decreases |
| Grouping.Grouper.FillGroup | src/mdc_sender/src/tree.c:490-543 | builds one sound group within its capacity, closes it only for a reason, emits its receivers, and leaves less free than before |
| Partition.GroupSize | src/mdc_sender/src/tree.c:371-411 | a group has at least two entries, and the first is a router |
| Partition.NewHeader | src/mdc_sender/src/tree.c:452-466 | a finished group is a header with all guarantees, from which its segments can be read |
| Partition.AddsAllOrNone | src/mdc_sender/src/tree.c:500-522 | a new header holds all or none of the receivers of a router that is never split |
| Partition.ExhaustedBelow | src/mdc_sender/src/tree.c:292-304 | below an exhausted router nothing is free |
| Partition.ReasonShows | src/mdc_sender/src/tree.c:500-543 | a group is finished only when it is full or large enough, when every receiver below its child of the root is addressed, or, unless nodes are split, when the receivers left at some router below it do not fit, but would fit into a group of their own |
| Partition.HeadersFilled | src/mdc_sender/src/tree.c:500-543 | when nodes are split, every header has at least one entry less than it can have, or at least `ok_addrs`, or everything below its child of the root is addressed; when they are not, a smaller one leaves some router whose receivers did not fit but are fewer than the capacity |
| Partition.Exactly | src/mdc_sender/src/tree.c:549-558 | when nothing below the root is free, headers and root leaves together hold every receiver exactly once |
| Partition.NextGroup | src/mdc_sender/src/tree.c:544-546 | one group is finished and the next start found; fewer leaves are free |
| Partition.ServeRoot | src/mdc_sender/src/tree.c:549-558 | the unicast list is the root's free leaves in order, none of which stays free |
| Partition.GreedyGrouping | src/mdc_sender/src/tree.c:468-563 | terminates on every reduced tree; headers and unicast list hold every receiver exactly once; every header has 2 to min(max_addrs, 32) entries, marks exactly its routers, starts with one, stays below one child of the root, has sound segments, was shorter than `ok_addrs` before its last router, and was finished for a reason; routers that fit are not split unless allowed; all counters end at 0 |
| Rx.GetPathPos | src/mdc_sender/src/tree.c:189-211 | the first node on the receiver's path whose parent is at most the given hops away; without any, exactly when every router on the path is too far, the program stops at a missing record |
| Rx.Adopt | src/mdc_sender/src/tree.c:145-172 | the node leaves its parent and becomes the first child or leaf of the other router |
| Rx.Insert | src/mdc_sender/src/tree.c:174-187 | a new router takes the place of a node, which becomes its child or leaf |
| Rx.UpdateTopo | src/mdc_sender/src/rx.c:31-96 | new, attached and detached routers, and the sender's own address, all lead to the same update of the tree, whatever the hop counts; unknown receivers and responses from a receiver's address are refused without change; without a position the program stops; routers are counted when they are attached |
| Topology.PathPosFacts | src/mdc_sender/src/tree.c:201-206 | the position found lies on the receiver's path, its parent is near enough, and the node itself, if a router, is too far |
| Topology.FoundExactly | src/mdc_sender/src/tree.c:201-206 | there is a position if and only if some router on the receiver's path is near enough or is the reported one; always, while the sender is 0 hops away |
| Topology.NoPosition | src/mdc_sender/src/tree.c:201-208 | after a response with the sender's own address, a response with fewer hops finds no position for a receiver at the root |
| Topology.UpdateLinks | src/mdc_sender/src/rx.c:63-93 | exactly which parent pointers and hop counts a response changes |
| Topology.RespondLists | src/mdc_sender/src/rx.c:63-93 | exactly which lists a response changes: the node leaves its parent, the reported router is put first among the children there if it is new or detached, and gets the node in front |
| Topology.UpdateRootLinks | src/mdc_sender/src/rx.c:81-92 | what a response with the sender's own address changes: the sender's hop count, and one node that moves to it; all lists and receivers stay consistent |
| Topology.UpdateRootKeeps | src/mdc_sender/src/rx.c:81-92 | such a response closes no cycle and keeps all lists, counters and receivers |
| Topology.UpdateKeeps | src/mdc_sender/src/rx.c:31-96 | with fixed hop counts a response keeps the tree linked, rooted, acyclic, counted, complete in its receivers, and weakly ordered by hops |
| Topology.MoveAcyclic | src/mdc_sender/src/tree.c:159-162 | moving a router below another keeps parent pointers acyclic if and only if the other is not below it |
| Topology.UpdateAcyclic | src/mdc_sender/src/rx.c:82-92 | for any reported hop count, a response closes a cycle if and only if the reported router is attached below the router at which the path is cut |
| Topology.CycleExample | src/mdc_sender/src/rx.c:82-92 | such a response exists |
| Topology.EqualHops | src/mdc_sender/src/tree.c:202-203 | hop counts need not rise strictly along an edge: reports of a new router with the hop count of the receiver's router |
| Topology.StrictExactly | src/mdc_sender/src/rx.c:63-93 | for any hop count, a response keeps hop counts strictly rising if and only if it fits between the parent and the children of a router that is attached already, or else exceeds that of the router it is put below |
| Rx.LateHops | src/mdc_sender/src/rx.c:64-69 | inserting a router before its hop count is set gives the same tree as afterwards |
| Reduction.FreeRouter | src/mdc_sender/src/tree.c:99-126 | the router leaves its parent and the index, and its lists are handed over |
| Reduction.CutRouter | src/mdc_sender/src/tree.c:128-143 | children and receivers of the removed router move in front of its parent's lists |
| Reduction.CutKeeps | src/mdc_sender/src/tree.c:128-143 | removing a router keeps the tree well-formed, every receiver in it, and the ancestor relation of the others |
| Reduction.ReduceTree | src/mdc_sender/src/tree.c:221-248 | although the child list changes under the loop, every router of the subtree is reduced exactly once, after all routers below it; each router that stays is kept for a reason; each removed one was too light when its turn came; and what stays, with which lists, is the function of the tree before that `Pruning` defines |
| Reduction.ReducedExactly | src/mdc_sender/src/tree.c:221-248 | a router of the tree is removed if and only if, with what its removed children leave it, it has less than `min_routers` children and less than `min_leafs` receivers; the others have exactly what is left to them, in order |
| Pruning.AfterSame | src/mdc_sender/src/tree.c:228-237 | what a router is left with depends only on the lists of the routers below it |
| Reduction.VisitsOnce | src/mdc_sender/src/tree.c:228-237 | an order in which no router comes before one below it lists no router twice |
| Reduction.ReducedRoot | src/mdc_sender/src/tree.c:239-247 | after reduction every router of the tree serves at least `min_routers` routers or `min_leafs` receivers, so none is bare |
| Reduction.CutsGone | src/mdc_sender/src/tree.c:119-120 | exactly the removed routers leave the index |
| Reduction.ShrunkTrans | src/mdc_sender/src/tree.c:221-248 | what successive removals preserve adds up |
| Reduction.StrictShrunk | src/mdc_sender/src/tree.c:221-248 | hop counts that rise strictly still do after reduction |
| Reset.ResetRouter | src/mdc_sender/src/tree.c:581-594 | receivers return to the root one by one, and the router leaves its parent with cleared counters and hops |
| Reset.RecResetTree | src/mdc_sender/src/tree.c:565-596 | exactly the routers of the subtree are cleared, although each call changes the list the caller walks |
| Reset.ResetTree | src/mdc_sender/src/tree.c:565-596 | the root holds every receiver exactly once and free, all other routers are detached, empty and still indexed, and the next discovery phase can start |
| Network.UpdateSound | src/mdc_sender/src/rx.c:31-96 | a genuine response keeps every believed link a true ancestor link with true hop counts |
| Network.FeedSound | src/mdc_sender/src/rx.c:98-136 | the same for any sequence of genuine responses in any order, and hop counts rise strictly |
| Network.SoundStrict | src/mdc_sender/src/tree.c:202-203 | in a sound tree hop counts rise strictly, as merging needs it |
| Network.SoundAnc | src/mdc_sender/src/rx.c:63-93 | every ancestor in the sender's tree is a true ancestor |
| Network.SoundShrunk | src/mdc_sender/src/tree.c:221-248 | reduction leaves every believed link true |
| Network.SoundRestart | src/mdc_sender/src/tree.c:565-596 | so does reset |
| Network.UpdateComplete | src/mdc_sender/src/rx.c:63-93 | with rising reports per receiver the tree is exactly the union of the reported routes, whether routers are new, attached or left detached |
| Network.CompleteExactly | src/mdc_sender/src/rx.c:63-93 | a genuine report keeps the tree a union of routes if and only if it is the next of its route, repeats an earlier one, or its router is attached already |
| Network.FeedComplete | src/mdc_sender/src/rx.c:63-93 | the same for whole sequences, in any interleaving between receivers |
| Network.FeedExactly | src/mdc_sender/src/rx.c:63-93 | for any sequence of genuine responses: the tree is a union of routes after each of them if and only if each is the next of its route, repeats an earlier one, or is of a router that has been reported before |
| Network.CompleteStart | src/mdc_sender/src/tree.c:565-596 | the tree after reset is complete for no reports |
| Network.CompleteEnd | src/mdc_sender/src/rx.c:63-93 | once every route is reported, receivers hang at their last router and the tree equals the routing tree |
| OrderExample.OrderMatters | src/mdc_sender/src/rx.c:63-93 | an order of eight genuine reports, complete for every receiver, after which a router is outside its true parent |
| OrderExample.Repaired | src/mdc_sender/src/rx.c:63-93 | one of these reports again restores the routing tree |
| Discovery.SendDcvr | src/mdc_sender/src/tx.c:84-107 | one probe per receiver, in order, addressed to it, with no hops counted and a right length |
| Discovery.MdDcvRcv | src/linux-6.5.y.patch:301-325 | a valid request is counted and answered once, from a copy that turns around; an invalid one is left alone |
| Discovery.MdRcv | src/linux-6.5.y.patch:271-299 | requests and data go their ways; a router that is switched off, and any other routing type, leave the packet alone |
| Discovery.RequestExactly | src/linux-6.5.y.patch:309-316 | a router answers exactly the headers that agree with those of the sender's probes, apart from hops, length, address and unused fields |
| Discovery.OnlyProbes | src/linux-6.5.y.patch:309-316 | so it answers neither an answer nor data |
| Discovery.ProbeTravels | src/linux-6.5.y.patch:271-325 | running the handlers of the enabled routers of a route one after the other on a probe yields exactly one answer each, and passes on the probe with the hops counted |
| Discovery.RspOkExactly | src/mdc_sender/src/rx.c:115-124 | the sender accepts exactly what agrees with the answers to its probes and has counted some hop |
| Discovery.ProbeAnswers | src/linux-6.5.y.patch:509-564 | the answers to a probe come from the routers of the route in rising order, and tell the truth if and only if the router is less than 64 hops away; the sender refuses that of every 64th router |
| Discovery.FarAnswer | src/linux-6.5.y.patch:319-320 | a network in which an answer passes the checks of the sender with a wrong hop count, because the 6-bit field has wrapped around |
| Discovery.HeardTruth | src/mdc_sender/src/rx.c:115-133 | what passes the sender's checks from the answers to one probe are exactly the true reports of the route, in order |
| Discovery.TruthRises | src/linux-6.5.y.patch:319-320 | the true reports of a route are rising and make all of it known |
| Discovery.ProbeCompletes | src/mdc_sender/src/rx.c:115-133 | one probe completes the part of the tree for a receiver whose routers are less than 64 hops away |
| Phase.OutstandingRise | src/mdc_sender/src/rx.c:115-133 | reports that climb the route of each receiver to its end, interleaved in any way, are rising and make every route known |
| Phase.PhaseCompletes | src/mdc_sender/src/rx.c:115-133 | when all routes have been reported so in a phase, with or without repetitions, the tree is the routing tree |
| Phase.ProbesAnswered | src/linux-6.5.y.patch:319-320 | the answers to one probe per receiver, whose routers are less than 64 hops away, report all routes so |
| Checksum.NetChecksumAdd | src/mdc_sender/src/checksum.c:22-34 | the sum of big-endian words, odd lengths included, without overflow of 32 bits up to 131070 bytes |
| Checksum.NetChecksumFinish | src/mdc_sender/src/checksum.c:36-41 | folding terminates and keeps the value modulo 65535, 0 only for 0 |
| Checksum.NetChecksumTcpudp | src/mdc_sender/src/checksum.c:43-53 | the complement of the reduced sum over segment, addresses, protocol and length, for up to 65535 bytes |
| Checksum.SummedWhole | src/mdc_sender/src/checksum.c:43-53 | adding the parts up is summing one sequence of bytes that starts with the pseudo-header (section 8.1 of RFC 8200) |
| Checksum.SenderCheck | src/mdc_sender/src/tx.c:153-157 | over as many bytes as bytes 4 and 5 of the payload say, with the checksum field cleared: the stored checksum is valid; it is 0 exactly when the total is a multiple of 65535 |
| Checksum.ZeroExample | src/mdc_sender/src/tx.c:153-157 | a segment of 8 bytes, by its length field, for which the sender computes 0, which it does not replace |
| Checksum.Resum | src/mdc_sender/src/checksum.c:36-53 | when the length covers the checksum field, summing again with the stored checksum gives 0xFFFF if and only if it is valid (section 1 of RFC 1071) |
| Checksum.WordsBytes | src/linux-6.5.y.patch:368-369 | words and bytes of an address have the same sum |
| Checksum.CsumPartial | src/linux-6.5.y.patch:368-368 | adding words to a 32-bit ones'-complement sum keeps it right modulo 65535 |
| Checksum.CsumSub | src/linux-6.5.y.patch:369-369 | subtraction undoes addition modulo 65535 |
| Checksum.CsumFold | src/linux-6.5.y.patch:370-370 | the folded complement cancels the sum modulo 65535 |
| Checksum.UpdateCheck | src/linux-6.5.y.patch:425-430 | the one checksum other than 0 that makes up for the new destination |
| Checksum.UpdateValid | src/linux-6.5.y.patch:368-374 | a valid checksum stays valid for the new destination, and equals the recomputed one with 0 replaced by 0xFFFF (section 3 of RFC 1624, section 8.1 of RFC 8200) |
| Plane.Skb.M2u | src/linux-6.5.y.patch:346-381 | the packet becomes a unicast packet for the receiver, without header, with the remaining length and an updated checksum |
| Plane.Skb.MdDataFwd | src/linux-6.5.y.patch:383-436 | a segment becomes one unicast packet per receiver in order, or one replica, depending on its length and on whether the router is this one; an empty segment sends one packet to the entry behind the router |
| Plane.Skb.MdDataRcv | src/linux-6.5.y.patch:438-507 | the one-pass scan sends exactly what serving every marked router up to the next router prescribes, in order, whatever other marks there are and also for empty segments; a short list without marks is sent to every entry; packets of discovery are refused unchanged |
| Plane.ScanMark | src/linux-6.5.y.patch:471-490 | reaching the next marked router completes the one before |
| Plane.ScanSkip | src/linux-6.5.y.patch:456-469 | receivers and unmarked routers only fix the end of the open segment |
| Plane.ScanEnd | src/linux-6.5.y.patch:497-503 | what is left at the end is the last marked router with its receivers |
| Plane.Conserved | src/linux-6.5.y.patch:438-507 | for every packet that is read within bounds: the receivers pending after a router are those pending before it, in order, if and only if something is marked for delivery, and every marked router has receivers, or gets a replica because replicas have no minimum and it is another router |
| Plane.EmptyExample | src/linux-6.5.y.patch:400-419 | a header with an empty segment, after which the pending receivers are not the same |
| Plane.UnmarkedExample | src/linux-6.5.y.patch:497-503 | a packet without marks, which a router sends to both entries of its list |
| Plane.ConservedWhole | src/linux-6.5.y.patch:438-507 | headers as the sender makes them are always conserved |
| Plane.ReceivedWhole | src/linux-6.5.y.patch:438-507 | for headers as the sender makes them, what a router sends is the simple specification |
| Plane.ReceivedOutline | src/linux-6.5.y.patch:383-436 | for every packet that is read within bounds, headers and destinations of what is sent, in order: for a segment with enough receivers whose router is another one, one packet with a header and that one mark, to its first receiver; otherwise one without header per receiver; an empty segment goes to the entry behind its router, and a short list without marks to every entry |
| Plane.ReceivedWhich | src/linux-6.5.y.patch:399-436 | there is a replica for a marked segment if and only if it has enough receivers and its router is another one, and a packet without header for a receiver if and only if it is one of a marked segment without replica |
| Plane.MadeSplit | src/linux-6.5.y.patch:383-436 | every packet sent is well-formed with a valid checksum other than 0; a replica has one marked router and an unchanged router bitmap and address list |
| Transmit.TxMdc | src/mdc_sender/src/tx.c:128-169 | one packet per header of at least two entries, in order, from the sender to the first receiver of its first router, with the header, the payload and the total length, and with the checksum computed over the length that the payload states |
| Transmit.TxUni | src/mdc_sender/src/tx.c:171-217 | one packet per unicast receiver, in order, whatever its next header, from the sender to that receiver with unchanged payload and no MEADcast header: UDP with the checksum computed over the length that the payload states, anything else with unchanged checksum field |
| Transmit.DstsAre | src/mdc_sender/src/tx.c:171-217 | so the destinations of what is sent are exactly the unicast receivers, in order |
| Transmit.HeaderFits | src/mdc_sender/src/tx.c:109-122 | every header of a group fits into the space reserved in front of the payload |
| Delivery.RouteTail | src/linux-6.5.y.patch:327-344 | the route from the next router on is the rest of the route |
| Delivery.DeliverReplica | src/linux-6.5.y.patch:400-419 | a replica reaches its router, and its receivers get one unicast packet each |
| Delivery.Deliver | src/linux-6.5.y.patch:438-507 | a packet whose segments lie below the first router of its route reaches exactly its pending receivers |
| EndToEnd.HeaderWellFormed | src/linux-6.5.y.patch:438-507 | headers from grouping meet every demand of the router: marks within routers, no empty segment, at most 32 entries, a right length |
| EndToEnd.SegmentRoute | src/mdc_sender/src/tree.c:371-411 | in a sound tree a segment's router and its child of the root lie on the true route to the segment's first receiver |
| EndToEnd.FirstRouter | src/mdc_sender/src/tree.c:538-540 | the first router on the route to a group's first receiver is above every router of the group |
| EndToEnd.HeaderReachable | src/linux-6.5.y.patch:456-503 | every segment can be served from the first router on the route of its packet |
| EndToEnd.HeaderDelivered | src/linux-6.5.y.patch:438-507 | the packet for one header reaches exactly the receivers of its segments |
| EndToEnd.GroupDelivered | README.md:17-18 | everything sent for a group arrives as unicast, once per receiver and nowhere else, for any router settings; a checksum is 0 on arrival if and only if the packet is for a unicast receiver for which the sender computes 0 |
| Sender.Sender.constructor | src/mdc_sender/src/group.c:40-62 | a new sender is valid and has no receivers |
| Sender.Sender.Join | src/mdc_sender/src/group.c:65-87 | at any time, the receiver is added to the root and the list, unless its address is known, which changes nothing |
| Sender.Sender.InitTxg | src/mdc_sender/src/group.c:104-125 | the first published group serves every receiver by unicast; without receivers nothing is published |
| Sender.Sender.RxDcvr | src/mdc_sender/src/rx.c:98-136 | a response that passes the checks updates the tree, any other changes nothing; after any response lists, counters and receivers are intact, and parent pointers are acyclic if and only if no reported router is moved below itself; for a response with an unchanged hop count that does not carry the sender's address, validity is kept, and soundness when it is genuine |
| Sender.Sender.ToutHandler | src/mdc_sender/src/discover.c:137-175 | the tree is reduced, grouped and reset, the published group addresses and, in a sound state, reaches every receiver, and the sender is ready for the next phase |
| Sender.GroupReaches | src/mdc_sender/src/tx.c:219-231 | a group of sound headers that addresses every receiver reaches every receiver, for all router settings and payloads, and when a checksum is 0 |
| Sender.RecordedFixed | src/mdc_sender/src/rx.c:82-82 | responses that agree within a phase never change the hop count of an attached router |
| Sender.RecordedNext | src/mdc_sender/src/rx.c:82-92 | within a phase every attached router owes its hop count to a response of that phase |
| Sender.HonestSteadfast | src/linux-6.5.y.patch:319-320 | genuine responses never contradict each other within a phase |
| Sender.RoutersHonest | src/linux-6.5.y.patch:509-564 | when all responses are answers of routers to probes, and no route has 64 routers, they are genuine |
| Sender.JoinAll | src/mdc_sender/src/main.c:26-30 | all receivers join, unless one is named twice or has the sender's own address |
| Sender.DxLoop | src/mdc_sender/src/discover.c:177-207 | validity, and in a real network delivery by the published group, hold after any sequence of events; the log of the run shows for every event what it did to tree and group |
| Sender.RunFeeds | src/mdc_sender/src/discover.c:189-196 | within a phase the tree is the one at its start after all that was told since |
| Sender.AnsweredRouted | src/mdc_sender/src/discover.c:177-207 | once all probes of the current phase have been answered, the tree is the routing tree |
| Sender.Start | src/mdc_sender/src/main.c:15-38 | the program starts exactly when there are receivers, none is named twice, and none has the sender's own address; from then on the published group reaches every receiver exactly once, and whenever all probes of a phase have been answered, the tree is the routing tree |

## Left out

- Nodes.Store: router and receiver records live in maps keyed by address instead of one heap object each, so aliasing of two pointers to one record is address equality, and memory that is freed twice or never is not modelled. The counters `nchild` and `nleaf` are the lengths of the lists; the counters `fchild` and `fleaf` are modelled as such.
- Grouping.Grouper.SetTxgRouter: the 32-bit bitmap is a set of positions, so shifts and byte order of the bit fields do not appear; both ends use the same layout.
- Checksum.CsumPartial: the kernel's own routine is not part of this model; 16-bit words are added one by one with end-around carry, which agrees with it modulo 65535.
- Checksum.SenderCheck: payloads shorter than a UDP header, and those whose length field points beyond the data, are excluded: the code would read and write behind the payload. A payload that is not UDP is treated like one by `tx_mdc`, and so it is here.
- Plane.Skb.MdDataRcv: headers with which the code reads outside of the address list are excluded: more entries than the bitmap or the list has, a marked router as the last entry, or no mark at all in a list that is empty or not below the minimum for replicas. Other lengths than the list's own would put the UDP segment elsewhere and are excluded as well.
- Sender.DxLoop: assumes that a router does not change its hop count within a phase and that no response carries the sender's own address. One such response is covered by `Sender.Sender.RxDcvr`; but the first kind can close a cycle (`Topology.CycleExample`), so that walks along parent pointers need not end, and the second gives the sender a distance to itself, so that later responses can find no position and stop the program (`Rx.GetPathPos`).
- Discovery.MdDcvRcv: a router answers with one address, which is taken to be the one it recognizes as its own in data headers.
- Delivery.Deliver: route lookups follow a tree of MEADcast routers, and unicast packets are taken to reach their destination; hop limits, loss, reordering and routers that are switched on or off during a transmission are not modelled.
- Ports, the rewriting of the UDP destination port, TCP, and authentication of responses.
- Sockets, the TUN device, epoll, timers and threads: only their effects remain, as events and as one assignment of the published group.
- Allocation failure and the contents of the Judy array, which is a map; the old group is leaked by the code.
- `should_use_parent_as_closest`, which the code never calls, printing, the built-in tests, and the scripts that build topologies.
