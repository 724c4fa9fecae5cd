# A verified model of the DAG-Rider consensus engine

DAG-Rider is a Byzantine atomic broadcast protocol: validators broadcast vertices that point to vertices
of earlier rounds, and each of them orders the growing graph on its own, four rounds to a wave. This
project models the engine of `src/consensus` with what it needs of `src/model`, and proves what the
protocol is for, the total order of the logs of different validators: what holds of them in every run, and
exactly when one log is a prefix of another.

`dafny verify dfyconfig.toml` checks everything.

## How the model is laid out

| file | content |
|---|---|
| `orders.dfy`, `quorums.dfy` | ascending enumeration and sorting of keys; quorum sizes and intersections |
| `vertices.dfy`, `graphs.dfy`, `links.dfy` | vertices, the round-indexed graph as a value and what an insertion does to it, edges, paths and links |
| `enumeration.dfy` | the orders in which a round's hash map may be iterated |
| `search.dfy`, `dag.dfy` | what the path search finds and when it ends, on any graph; the `Dag` class: insertion, queries, the stack search |
| `ordering.dfy`, `weakedges.dfy`, `node.dfy` | leaders, commits, delivery, created vertices and one loop iteration as functions of a node's state |
| `consensus.dfy`, `committee.dfy` | the `State`, `Consensus` and `Committee` classes, each method proved against those functions |
| `agreement.dfy`, `guard.dfy` | agreement between any two views of one network; what the receive guard gives |
| `system.dfy`, `totalorder.dfy` | many nodes over one network, the inductive invariant, and what holds in every run |
| `aswritten.dfy`, `selector.dfy`, `schedule.dfy` | where the code departs from its purpose, and exactly when; the leader schedule |
| `fullgraph.dfy`, `counterexamples.dfy`, `cycles.dfy`, `forks.dfy` | the inputs on which it does |

## What a run is

Members that are not faulty run iterations of `run` on arbitrary batches: any broadcast vertices, in any
order, any number of times or never, and any blocks; and each iteration may meet the vertices of a round in
any order. What an iteration hands to the broadcaster joins the network. Faulty members may broadcast
anything a reliable broadcast lets through: vertices that are authentic, one per sender and round, with a
quorum of parents of the previous round. Their parents need not exist, and may be of any round. These are
assumptions about the broadcast primitive, and only about faulty senders; for members that run this code the
same facts and more are proved (`TotalOrder.RoundProgress`, `TotalOrder.BroadcastWellFormed`). Every commit
is recorded with its node's graph at that moment, the order in which the node iterated it, and the sequence
it delivered; since each commit recomputes the whole log, whole logs are compared.

A vertex is *linked* to another when the search says so (`Searches.Linked`); on views of a network that is
independent of the view and of the order of iteration (`Ordering.ViewLinked`, `Links.ViewsAgree`). Every
path on which rounds go down is a link, and where vertices lie above their parents, as all those of members
running this code do, there are no others (`Links.ReachLeads`, `Links.LeadsReach`).

The receive guard enforces none of these assumptions. What it does give is stated for every vertex it
accepts. Whether searches end, on any graph in any order of iteration: exactly when none comes back to a
vertex it expanded (`Searches.SearchableIff`), and after an insertion into a graph on which they did end
exactly when none comes back to the new vertex (`Searches.InsertSearchableIff`; `Cycles.SecondReturns` and
`Cycles.OrderDecidesSearch` are inputs on both sides). Whether the graph stays sound, so that the search finds all paths:
`Graphs.InsertSoundIff`. Whether the vertex is linked to a leader that was committed before:
`Guards.GuardLinkedIff` when it arrives, `Guards.GuardStoredIff` and `Guards.StoredLinkedIff` once it is
stored (`Counterexamples.GuardAdmitsOrphans`, `Counterexamples.StoringCutsOff`).

## Where the code departs from its purpose

* **Delivery test.** Line 148 of `src/consensus/consensus.cpp` asks for a path from the vertex to the
  leader, which selects the leader's descendants. `Config.orientation` is `Written` for that test and
  `Causal` for the leader's causal history. The total-order results are for `Causal`. For `Written` the
  logs do fork, in a run without faults (`Forks.WrittenLogsFork`), and `AsWritten.WrittenPrefixIff` says
  exactly when they agree. `Consensus.OrderVertices` implements both.
* **Order within a round.** A round is a hash map, so a pass delivers the vertices of one round in an
  unspecified order, which may differ between nodes. For `Causal`, the later log starts with the very
  vertices of the earlier one, pass by pass, and continues it unchanged exactly when the two orders agree on
  every two vertices that one pass delivers from one round (`TotalOrder.LogsAgreeIff`). Orders that never
  contradict each other, such as the order of the keys, suffice (`TotalOrder.LogsNeverFork`); orders that do
  make logs fork, in a run without faults (`Forks.OrdersForkLogs`). Nothing else in a run depends on these
  orders: `Ordering.PassIgnoresOrder`, `WeakEdges.CreatedIgnoresOrder`.
* **Parent selector.** Line 88 of `src/consensus/dag.cpp` ignores its argument and always follows all
  parents. `Config.edges` is `All` for that and `Strong` for what the argument says. Every theorem holds for
  both; the inputs of `Forks` and `Cycles` are for `All`, the code as it stands. For a wave of vertices that
  this code created the difference is exactly the votes of those that list the leader as a weak parent
  (`Selectors.VotersIff`). With strong parents alone every search would end, on every graph
  (`Searches.StrongEnds`).
* **Skipped round.** `setWeakEdges` starts at `round - 3`, so a vertex of `round - 2` may be left to the
  node's next vertex: `WeakEdges.CreatedLinksSkippedIff` and `Counterexamples.SkippedRoundWaits`. The next
  vertex does link it: `TotalOrder.HeldLinkedSoon`.
* **Replaced vertices.** An insertion can replace a vertex that others have as a parent, and can close a
  cycle, from which the search never ends (`Cycles.GuardAdmitsCycle`). `Graphs.InsertClosedIff` and
  `Searches.InsertSearchableIff` say exactly when it does neither.
* **Newest leader.** The delivery test is strict, so a commit never delivers its newest leader
  (`TotalOrder.NewestLeaderWaits`).

## Model

| member | source | states |
|---|---|---|
| Orders.Ascending | src/consensus/consensus.cpp:144-146 | iterating an ordered map meets exactly its keys |
| Orders.AscendingIncreasing | src/consensus/consensus.cpp:144-146 | iterating an ordered map meets its keys in strictly ascending order |
| Orders.Sorted | src/consensus/consensus.cpp:163-164 | sorting the committee's keys yields a non-decreasing rearrangement of the same multiset |
| Orders.SortIsCanonical | src/consensus/consensus.cpp:163-164 | the sorted keys do not depend on the order in which they were listed |
| Vertices.Vertex.GetStrongParents | src/model/vertex.cpp:72-80 | the loop returns exactly the parents whose claimed round is the previous one |
| Vertices.Genesis | src/model/vertex.cpp:60-66 | one parentless round-1 vertex for each key, in the order of the keys |
| Committees.Committee.QuorumThreshold | src/model/committee.cpp:34 | the committee's threshold is the node's quorum and equals the size minus the tolerated faults |
| Committees.Committee.GetNodesKeys | src/model/committee.cpp:94-100 | one key per validator, in any order, none missing; distinct when the validators' keys are |
| Quorums.QuorumArithmetic | src/consensus/state.cpp:8 | for every n, the integer 2n/3+1 is n minus the tolerated faults, and two of them exceed n by at least one more than those |
| Quorums.QuorumsShare | src/consensus/state.cpp:8 | any two quorums of one committee share more members than there can be faults |
| Graphs.InsertKeepsPopulation | src/consensus/dag.cpp:13 | no insertion, even into an occupied slot, makes any round lose an owner |
| Graphs.InsertClosedIff | src/consensus/consensus.cpp:55-59 | a guarded insertion keeps every parent resolvable exactly when it replaces nothing, or the same digest, or a digest no stored vertex lists |
| Graphs.InsertSoundIff | src/consensus/consensus.cpp:55-59 | a guarded insertion keeps the graph sound (parents stored, digests unique, vertices above their parents) exactly when it replaces no parent, the vertex lies above its parents, and no vertex that stays has its digest |
| Links.ReachIffPath | src/consensus/dag.cpp:77-101 | a link is the same as a non-empty path of parent edges |
| Links.LeadsTrans | src/consensus/dag.cpp:77-101 | links compose, although each search prunes at the round of its own target |
| Links.ReachLeads | src/consensus/dag.cpp:77-101 | every path on which rounds go down is a link |
| Links.LeadsReach | src/consensus/dag.cpp:77-101 | where vertices lie above their parents, links are exactly the paths: the pruning loses none |
| Links.ViewsAgree | src/consensus/dag.cpp:61-101 | two closed views that hold a vertex agree on all of its links, and both hold whatever it is linked to |
| Links.InsertKeepsLinks | src/consensus/consensus.cpp:55-59 | a guarded insertion of a broadcast vertex changes no link of a stored vertex |
| Dags.Dag.constructor | src/consensus/dag.cpp:5-11 | only round 1 is populated; each owner of a root vertex has the last root vertex with that owner |
| Dags.Dag.InsertVertex | src/consensus/dag.cpp:13 | the slot of the vertex's round and owner now holds it and nothing else changed |
| Dags.Dag.ContainsVertices | src/consensus/dag.cpp:15-26 | true exactly when every listed digest is stored at its claimed round |
| Dags.Dag.GetVertices | src/consensus/dag.cpp:28-37 | exactly the digests stored in the round, each at that round |
| Dags.Dag.IsQuorumReachedForRound | src/consensus/dag.cpp:39-42 | true exactly when vertices of the round are held from at least a quorum of distinct senders |
| Dags.Dag.IsLinkedWithOthersInRound | src/consensus/dag.cpp:44-55 | true exactly when at least a quorum of members have a stored vertex of the round that the search links to the given one; where digests are unique, with every such vertex counted, whatever parents it lists |
| Dags.Dag.IsStronglyLinked | src/consensus/dag.cpp:57-59 | the answer of the search over the configured edges; on a sound graph, true exactly when a path of them leads from the newest to the oldest vertex |
| Dags.Dag.IsLinked | src/consensus/dag.cpp:61-63 | the same over all parents, also when the newest vertex is not stored |
| Dags.Dag.GetVertex | src/consensus/dag.cpp:65-75 | the stored vertex of that digest and round that iteration meets before all others, in any order of iteration; none exactly when none is stored there |
| Dags.Dag.IsLinkedInternal | src/consensus/dag.cpp:77-101 | on any graph iterated in any order, for any two vertices, if chains of expansions are bounded then the search ends, and answers whether one of them comes to a vertex that lists the target |
| Dags.Dag.PushParents | src/consensus/dag.cpp:88-97 | the inner loop finds the target exactly when it is listed, and otherwise pushes exactly what the listed parents above the target's round look up |
| Dags.Expand | src/consensus/dag.cpp:84-98 | replacing the popped vertex by what it pushes changes neither what can be found nor that the search ends, and makes the stack lighter |
| Dags.PopShrinks | src/consensus/dag.cpp:84-98 | although the stack may grow, its weight goes down when fewer than b vertices of lower height take the place of one |
| Searches.LinkedLeads | src/consensus/dag.cpp:65-101 | where digests are unique, the answer of the search does not depend on the order of iteration |
| Searches.LookupIff | src/consensus/dag.cpp:65-75 | a look-up finds a vertex exactly when it is stored with that digest and round and iteration meets it before all others that are |
| Searches.LinkersVoters | src/consensus/dag.cpp:44-55 | where digests are unique, the owners counted are exactly those of the stored vertices of the round that are linked to the given one |
| Searches.PushedSteps | src/consensus/dag.cpp:88-97 | where digests are unique, a vertex pushes exactly its stored parents above the target's round |
| Searches.SoundLinked | src/consensus/dag.cpp:77-101 | on a sound graph every search ends, and answers whether a path leads to the target, in spite of its pruning |
| Searches.SearchNeverEnds | src/consensus/dag.cpp:84-98 | where chains are unbounded and the target is not to be found, no number of pops empties the stack, in whatever order parents are pushed |
| Searches.SearchMayGoOn | src/consensus/dag.cpp:84-98 | wherever chains are unbounded, some order of pushing parents goes on for any number of pops |
| Searches.SearchableIff | src/consensus/dag.cpp:77-101 | on every graph and in every order of iteration, all searches between stored vertices end exactly when none comes back to a vertex it expanded |
| Searches.InsertSearchableIff | src/consensus/consensus.cpp:55-59 | if searches end on a graph in every order of iteration, then after any insertion, and in any order, they end exactly when none comes back to the new vertex |
| Searches.DescendingSearchable | src/consensus/dag.cpp:84-98 | searches end if each stored vertex lies above the parents it lists, stored or not |
| Searches.RankedSearchable | src/consensus/dag.cpp:84-98 | searches end if some ranking puts each stored vertex above its stored parents |
| Searches.StrongEnds | src/consensus/dag.cpp:57-59 | searches that follow strong parents only end on every graph |
| Searches.SearchableEnds | src/consensus/consensus.cpp:93-103 | if searches between stored vertices end, so do those from a vertex that is not stored |
| Ordering.LeaderKeyIff | src/consensus/consensus.cpp:160-166 | a wave elects a key exactly when it is in the committee and 4(w-1)+1 modulo the size of the committee of its keys are smaller |
| Ordering.WaveLeaderIff | src/consensus/consensus.cpp:159-175 | a vertex is returned as the leader exactly when it is stored in the first round of the wave for the elected key, and none exactly when none is |
| Ordering.CommitsIff | src/consensus/consensus.cpp:105-120 | where digests are unique, a wave commits exactly when its leader is stored and a quorum of members has stored vertices in its last round that are linked to it |
| Ordering.WalkIff | src/consensus/consensus.cpp:122-134 | on any graph, the loop yields exactly the chain in which each leader is followed by the highest leader of the waves walked that it is linked to, and the last is linked to none |
| Ordering.RowSeqElements | src/consensus/consensus.cpp:144-146 | the inner iteration visits each vertex of a round once, in the order in which the round is iterated |
| Ordering.GraphSeqElements | src/consensus/consensus.cpp:144-146 | the nested iteration visits each stored vertex above round 0 once, by round |
| Ordering.PassElements | src/consensus/consensus.cpp:144-154 | the filtering loop keeps exactly the new vertices that pass the test, in the order visited |
| Ordering.PassIgnoresOrder | src/consensus/consensus.cpp:144-154 | which vertices a pass delivers does not depend on the order in which it visits them |
| Ordering.LeaderPassIs | src/consensus/consensus.cpp:144-154 | a leader's pass is the ordered enumeration of the stored undelivered vertices that pass its test |
| Ordering.ExactDelivery | src/consensus/consensus.cpp:136-157 | the output holds exactly the stored vertices that pass some leader's test, none twice |
| Ordering.CausalDelivery | src/consensus/consensus.cpp:136-157 | whatever a delivered vertex is linked to is delivered strictly earlier, within a pass and across passes |
| Ordering.PassSegment | src/consensus/consensus.cpp:140-155 | the output is cut into passes: the part added for a leader holds, in order, exactly what that leader and no older one delivers |
| Ordering.ViewLinked | src/consensus/dag.cpp:57-101 | what a view's search answers does not depend on the view or on its order of iteration, and the view holds whatever it finds linked |
| Ordering.NewAtAgrees | src/consensus/consensus.cpp:136-157 | two views that hold the same leaders deliver the same vertices in the pass of each |
| Ordering.DeliveryEqualIff | src/consensus/consensus.cpp:136-157 | two views that hold the same leaders deliver the same sequence for them exactly when their orders agree on every two vertices that one pass delivers from one round |
| Ordering.DeliveryExtends | src/consensus/consensus.cpp:136-157 | committing newer leaders on top only appends to the output |
| Ordering.WalkChained | src/consensus/consensus.cpp:122-134 | each leader to commit is linked to the next older one |
| Ordering.WalkAgrees | src/consensus/consensus.cpp:122-134 | from a leader that two views hold, the walk finds the same earlier leaders in both |
| Agreement.StrongQuorum | src/consensus/consensus.cpp:83-84 | the strong parents of a well-formed vertex past round 1 whose parents are held come from a quorum of distinct members |
| Agreement.CommitBindsLater | src/consensus/consensus.cpp:111-114 | once one view meets the commit rule, every well-formed vertex of a later round is linked to the leader in every view that holds it or just its parents |
| Agreement.WalkMeetsCommit | src/consensus/consensus.cpp:122-134 | the walk from any later leader in any view passes through a committed leader and then finds what the committing view found |
| Agreement.ChainAgreement | src/consensus/consensus.cpp:105-134 | the leaders committed at a wave are exactly the part up to that wave of what any view commits then or later |
| Agreement.ViewTotalOrderIff | src/consensus/consensus.cpp:105-157 | for any two views and iteration orders, the later output starts with the vertices of the earlier one, delivered in the passes of the same leaders, and extends it exactly when the orders agree within each pass and round |
| Agreement.ViewTotalOrder | src/consensus/consensus.cpp:105-157 | for any two views whose iteration orders never contradict each other, the output of an earlier committed wave is a prefix of the output of a later one |
| Guards.GuardLinkedIff | src/consensus/consensus.cpp:56-58 | after a commit, the search finds a vertex of a later round that passes the receive guard, and is not stored yet, linked to the leader exactly when one of its parents is of a later round too, or is the leader, or is linked to it |
| Guards.GuardStoredIff | src/consensus/consensus.cpp:56-58 | the same once it is stored, if all vertices lie above their parents, or if it replaces no listed parent and its digest is new |
| Guards.StoredLinkedIff | src/consensus/consensus.cpp:56-58 | once any vertex with a digest of its own is stored, the search from it finds exactly what it would find without the vertex it replaced |
| WeakEdges.CreatedIs | src/consensus/consensus.cpp:75-103 | a created vertex has the whole previous round as strong parents, weak parents only from three rounds down, all stored, and no redundant one |
| WeakEdges.CreatedLinksAll | src/consensus/consensus.cpp:83-103 | a created vertex is linked to everything held of the previous round and of the rounds at least three below |
| WeakEdges.CreatedLinksSkippedIff | src/consensus/consensus.cpp:93-103 | a vertex two rounds below is linked exactly when a stored vertex of the previous round has it as a parent |
| WeakEdges.WeakEdgeNeeded | src/consensus/consensus.cpp:93-103 | removing any weak parent of a created vertex loses its target |
| WeakEdges.WeakRoundIs | src/consensus/consensus.cpp:95-101 | one round of the loop adds exactly the vertices not linked when the round began, although the tested vertex changes meanwhile |
| WeakEdges.CreatedIgnoresOrder | src/consensus/consensus.cpp:93-103 | the created vertex does not depend on the order in which rounds are iterated |
| Nodes.InsertFromNet | src/consensus/consensus.cpp:55-59 | inserting a broadcast vertex adds just that vertex and keeps the graph a view |
| Nodes.ReceiveKeeps | src/consensus/consensus.cpp:55-60 | receiving any batch keeps the graph a view, removes nothing, adds only batch vertices up to the current round, and lets no cycle arise |
| Nodes.ReceiveHolds | src/consensus/consensus.cpp:55-60 | whatever the batch, a vertex is stored afterwards exactly when it passed the guard in its turn and no later one that passed took its slot, or it was stored and none did |
| Nodes.ReceiveStores | src/consensus/consensus.cpp:55-60 | of a batch of broadcast vertices exactly those are stored that are not above the node's round and whose parents were held or are such vertices earlier in the batch |
| Nodes.ReceiveAccepts | src/consensus/consensus.cpp:55-60 | a broadcast vertex not above the node's round whose parents are held is stored, wherever it stands in its batch; a batch in causal order is stored whole |
| Nodes.ReceiveSearchable | src/consensus/consensus.cpp:55-60 | after any batch of vertices that lie above the parents they list, searches end |
| Nodes.RankedGrows | src/consensus/consensus.cpp:55-59 | a vertex received after its parents ranks above them, whatever rounds it claims for them |
| Nodes.BlocksConserved | src/consensus/consensus.cpp:75-82 | an iteration's queued blocks, in order, are those still queued followed by the one in the vertex sent |
| Nodes.AdvancesIff | src/consensus/consensus.cpp:62-71 | a node enters the next round, and broadcasts, exactly when a block is queued, new or left over, and a quorum of members has vertices of its round once the batch is in; otherwise only the batch and the blocks are taken in |
| Nodes.CommitsWhen | src/consensus/consensus.cpp:62-68 | an iteration commits exactly when it advances out of the last round of a wave that meets the commit rule; it then decides that wave and outputs what the chain from its leader delivers |
| Nodes.SentIs | src/consensus/consensus.cpp:69-91 | the vertex broadcast is the node's own, of the round it enters, with the whole round it leaves as strong parents, and linked to all it holds at least two rounds below that one |
| ConsensusNode.State.constructor | src/consensus/state.cpp:5-12 | round 1, the quorum of the genesis size, the genesis digests marked delivered, the genesis vertices as round 1 |
| ConsensusNode.Consensus.constructor | src/consensus/consensus.cpp:28-40 | the node starts in the initial state of the system model |
| ConsensusNode.Consensus.GetRoundForWave | src/consensus/consensus.cpp:177-179 | round r of 4 of a wave is that wave's r-th round, and ends a wave exactly when r is 4 |
| ConsensusNode.Consensus.GetWaveVertexLeader | src/consensus/consensus.cpp:159-175 | exactly the stored vertex of round 4w-3 whose owner has as many smaller keys in the committee as 4w-3 leaves over when divided by its size; none exactly when none is stored |
| ConsensusNode.Consensus.GetLeadersToCommit | src/consensus/consensus.cpp:122-134 | the loop computes the specified chain of stored leaders: from each to the highest leader it is linked to, down to one that is linked to none |
| ConsensusNode.Consensus.DeliverPass | src/consensus/consensus.cpp:144-154 | the nested loops append exactly the leader's specified pass and mark its digests |
| ConsensusNode.Consensus.DeliveryTest | src/consensus/consensus.cpp:148 | the link test, with its arguments as written or the other way round |
| ConsensusNode.Consensus.OrderVertices | src/consensus/consensus.cpp:136-157 | popping leaders from the back computes the specified output, oldest leader first |
| ConsensusNode.Consensus.GetOrderedVertices | src/consensus/consensus.cpp:105-120 | where digests are unique, decides the wave exactly when a quorum of members has vertices in its last round linked to its leader, and then outputs what the leader's chain delivers; otherwise decides and outputs nothing |
| ConsensusNode.Consensus.SetWeakEdges | src/consensus/consensus.cpp:93-103 | the descending loop computes the specified weak edges although the vertex changes under it |
| ConsensusNode.Consensus.CreateNewVertex | src/consensus/consensus.cpp:75-91 | takes the block queued last and returns the specified vertex; does nothing without blocks |
| ConsensusNode.Consensus.ReceiveAll | src/consensus/consensus.cpp:55-60 | after any batch, each slot that some vertex of the batch passed the guard for, when its turn came, holds the last of these, and every other slot what it held |
| ConsensusNode.Consensus.RunIteration | src/consensus/consensus.cpp:44-72 | for any batch, enters the next round and broadcasts exactly when a block is queued, new or left over, and a quorum of members has vertices of the round; state, vertex and output are those of the specified step |
| Selectors.CreatedSpaced | src/consensus/consensus.cpp:75-103 | each parent of a created vertex is of the round before or at least three rounds below |
| Selectors.VotersIff | src/consensus/dag.cpp:44-59 | in a wave of such vertices, the votes that following all parents counts are those that following strong ones counts and besides just those of vertices that list the leader as a weak parent |
| Systems.InitInv | src/consensus/consensus.cpp:22-24 | the invariant holds when every node holds the genesis vertices |
| Systems.CreatedWellFormed | src/consensus/consensus.cpp:62-91 | what a node broadcasts has a quorum of strong parents, resolvable parents below it, and an authentic digest |
| Systems.IterateKeeps | src/consensus/consensus.cpp:44-91 | what an iteration broadcasts fills a slot of the network nobody used, and leaves its node in order |
| Systems.RunInv | src/consensus/consensus.cpp:42-91 | the system invariant holds in every state of every run |
| Systems.IterationsEnd | src/consensus/consensus.cpp:55-71 | in every reachable state, at every node and for every batch of broadcast vertices, the searches of the next iteration end, in whatever order rounds are iterated |
| Systems.RunHistory | src/consensus/consensus.cpp:62-70 | each node commits waves in increasing order, at most once each, and its decided wave is the last one |
| TotalOrder.LogsAgreeIff | src/consensus/consensus.cpp:105-157 | in every run, of any two recorded commits the log of the later wave starts with exactly the vertices of the earlier one's, each in the pass of the same leader, and extends that log exactly when the two iteration orders agree within each pass and round |
| TotalOrder.LogsNeverFork | src/consensus/consensus.cpp:105-157 | in every run, of any two recorded commits whose iteration orders do not contradict each other the log of the earlier wave is a prefix of the log of the later one |
| TotalOrder.NodeLogGrows | src/consensus/consensus.cpp:62-71 | at one node, each later commit is of a later wave, its log starts with the vertices of the earlier one, and extends it under the same exact condition |
| TotalOrder.ChainsNeverFork | src/consensus/consensus.cpp:122-134 | in every run, of any two recorded commits the earlier wave's leaders are exactly the older part of the later one's |
| TotalOrder.CommitSeenByAll | src/consensus/dag.cpp:44-55 | after any commit, every node sees each vertex it holds of a later wave linked to that leader |
| TotalOrder.RoundProgress | src/consensus/consensus.cpp:56-71 | each round a node left holds a quorum there, nothing stored is above its round, and it has broadcast exactly one vertex for each round it entered |
| TotalOrder.EachIteration | src/consensus/consensus.cpp:42-91 | in every run, what each iteration stores, whether it advances, what it broadcasts, whether it commits and what it records, each exactly |
| TotalOrder.BroadcastWellFormed | src/consensus/consensus.cpp:62-91 | every broadcast vertex has a digest of its own; if it is of a member running this code or any node holds it, its parents were broadcast, a quorum of distinct senders among the strong ones; in the first case each parent is of the round before or at least three rounds below |
| TotalOrder.GraphsGrow | src/consensus/consensus.cpp:55-71 | over any run, a node keeps every vertex it stored, no round of it loses an owner, and its round never goes down |
| TotalOrder.HeldIsDelivered | src/consensus/consensus.cpp:75-103 | what a node holds when it creates a vertex, except of the skipped round, is in the log of every later commit of a leader linked to that vertex |
| TotalOrder.HeldLinkedSoon | src/consensus/consensus.cpp:83-103 | whatever a node holds when it creates a vertex is linked by that vertex or by the node's next one |
| TotalOrder.AllHeldIsDelivered | src/consensus/consensus.cpp:75-103 | whatever a node holds when it creates a vertex is in the log of every later commit of a leader linked to that vertex and to the node's next one |
| TotalOrder.DeliversHistory | src/consensus/consensus.cpp:136-157 | a commit delivers all that any of its leaders is linked to, and all that a path of falling rounds leads to |
| TotalOrder.CausalOrder | src/consensus/consensus.cpp:136-157 | in every recorded log, all that a vertex is linked to, each ancestor along a path of falling rounds included, comes strictly before it |
| TotalOrder.NewestLeaderWaits | src/consensus/consensus.cpp:144-152 | a commit delivers every leader it brings along except the newest |
| Schedule.LeaderIgnoresListing | src/consensus/consensus.cpp:159-166 | the elected key does not depend on the order in which the committee lists its keys |
| Schedule.SameLeaderIff | src/consensus/consensus.cpp:159-166 | two waves elect the same key exactly when the committee size divides four times their distance |
| Schedule.FourElectOne | src/consensus/consensus.cpp:159-166 | with four members every wave elects the same key |
| Schedule.OddScheduleIsFair | src/consensus/consensus.cpp:159-166 | with an odd committee any n consecutive waves elect every key exactly once |
| AsWritten.OnePass | src/consensus/consensus.cpp:136-157 | with the test as written, along a chain of leaders only the oldest leader's pass delivers anything |
| AsWritten.WrittenLogIs | src/consensus/consensus.cpp:136-157 | with the test as written, a commit outputs exactly the stored descendants of the oldest leader, by round and then as the round is iterated |
| AsWritten.WrittenPrefixIff | src/consensus/consensus.cpp:105-157 | with the test as written, outputs agree exactly when the later view holds the earlier view's descendants of the oldest leader in the same order and its further ones come after them |
| AsWritten.WrittenRunsAgreeIff | src/consensus/consensus.cpp:105-157 | the same for any two commits recorded in a run |
| Forks.WrittenLogsFork | src/consensus/consensus.cpp:148 | a run of four members without faults in which two commits of one wave, with the test as written, have logs of which neither extends the other |
| Forks.OrdersForkLogs | src/consensus/consensus.cpp:146 | a run without faults in which two nodes with the same graph, the test turned round, have such logs because one of them received round 2 in another order and iterates it so |
| Counterexamples.GuardLetsParentsVanish | src/consensus/consensus.cpp:56-58 | a second vertex of a sender passes the guard and leaves a stored vertex without its parent |
| Counterexamples.GuardAdmitsOrphans | src/consensus/consensus.cpp:56-58 | a vertex without parents passes the guard and is not linked to a committed leader |
| Counterexamples.StoringCutsOff | src/consensus/consensus.cpp:56-58 | an accepted vertex that the search finds linked to the committed leader until it is stored, and not afterwards, since it replaces the parent it leans on |
| Counterexamples.SameDigestCutsOff | src/consensus/consensus.cpp:56-58 | another that replaces no listed parent, only a vertex of its own digest |
| Cycles.GuardAdmitsCycle | src/consensus/consensus.cpp:55-59 | three vertices that pass the guard one after the other and leave a cycle, from which no search for a genesis vertex ever empties its stack, in any order of iteration |
| Cycles.SecondReturns | src/consensus/consensus.cpp:55-59 | before the last of them is inserted all searches end; after it one comes back to it |
| Cycles.OrderDecidesSearch | src/consensus/dag.cpp:65-75 | two vertices of one digest that pass the guard, on which searches end in one order of iteration and not in the other |
| Counterexamples.SkippedRoundWaits | src/consensus/consensus.cpp:94 | a well-formed graph on which a created vertex is not linked to a vertex held of the skipped round |

## Left out

- `src/network`, `src/node`, `src/vertex`: sockets, coroutines, futures and start-up; a run abstracts them as a growing set of broadcast vertices from which every node, the sender included, may receive.
- `src/transaction`: grouping transactions into blocks; blocks are opaque content here.
- `src/consensus/communication.hpp`: the loops that drain the queues never return, since `receive` blocks; each iteration of the model consumes a finite batch instead.
- BLAKE3, ed25519, JSON and CBOR: a digest is the content it is taken of, so equal digests mean equal content; as in the code it covers the strong parents only. Keys are numbers in the order in which their bytes compare.
- Which order the hash map iterates in: each commit and each iteration has an arbitrary one as a parameter, the same for all passes of that iteration, since the map does not change in between.
- Machine words: rounds and waves are naturals. The code's `currentRound` and waves are 32-bit and its rounds 64-bit, and the previous-round test wraps around only for a parent claimed at the greatest 64-bit round.
- Vertices are values: the code copies them everywhere and changes one only in a local variable of `createNewVertex`, so no aliasing is lost. Leaders are values too, while the code keeps a pointer into an object that lives for one iteration only.
- Liveness: vertices of future rounds are dropped, since the buffer is local, so nothing about eventual delivery is claimed.
- Dags.Dag.IsLinkedInternal: asks that chains of expansions be bounded. Where they are not, some order of pushing parents goes on for ever (`Searches.SearchMayGoOn`), and every order does if the target is not to be found (`Searches.SearchNeverEnds`); if it could be found, the order of the digests decides, which is not modelled.
- ConsensusNode.Consensus.RunIteration: asks, if the iteration goes on to search, that searches between stored vertices end. No batch of broadcast vertices violates that in any run (`Systems.IterationsEnd`), and no batch whatever of vertices that lie above the parents they list (`Nodes.ReceiveSearchable`); the guard alone does not ensure it (`Cycles.GuardAdmitsCycle`), and where it fails the loop itself may never return.
- `State::setVertexAsDelivered`: nothing calls it, and nothing reads the digests it would add to.
- Printing, bucket hashing and the demo programs.
