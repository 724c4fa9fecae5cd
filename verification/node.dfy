/** One iteration of a node's main loop as a function of its state, the batch of vertices it drained
    and the batch of blocks it drained (src/consensus/consensus.cpp:42-91). */
module Nodes {
  import opened Orders
  import opened Vertices
  import opened Graphs
  import opened Links
  import opened Quorums
  import opened Enumerations
  import opened Searches
  import opened Ordering
  import opened WeakEdges
  import opened Agreement

  datatype Node = Node(id: Key, round: Round, graph: Graph, blocks: seq<Block>, decidedWave: Wave)

  /** What an iteration leaves behind: the new state, the vertex handed to the broadcaster, and the
      delivered sequence when a wave was committed. */
  datatype Effect = Effect(node: Node, sent: Option<Vertex>, committed: Option<seq<Vertex>>)

  ghost function GenesisRow(keys: seq<Key>): map<Key, Vertex> {
    map k | k in keys :: GenesisVertex(k)
  }

  ghost function GenesisVertices(keys: seq<Key>): set<Vertex> {
    set k | k in keys :: GenesisVertex(k)
  }

  ghost function InitialNode(cfg: Config, id: Key): Node {
    Node(id, 1, map[1 := GenesisRow(cfg.keys)], [], 0)
  }

  /** The guard on a received vertex. */
  ghost predicate Accepts(g: Graph, round: Round, v: Vertex) {
    v.round <= round && Resolves(Stored(g), v.parents)
  }

  ghost function Receive(g: Graph, round: Round, buffer: seq<Vertex>): Graph {
    if buffer == [] then g
    else
      var before := Receive(g, round, buffer[..|buffer| - 1]);
      var v := buffer[|buffer| - 1];
      if Accepts(before, round, v) then Insert(before, v) else before
  }

  ghost predicate QuorumReached(g: Graph, r: Round, q: nat) {
    r in g && |g[r]| >= q
  }

  /** `order` is how the node's hash maps happen to be iterated once the batch is in. */
  ghost function Iterate(cfg: Config, n: Node, buffer: seq<Vertex>, newBlocks: seq<Block>, order: Enumeration): Effect
    requires cfg.keys != [] && n.round > 0 && Enumerates(order, Receive(n.graph, n.round, buffer))
  {
    var g := Receive(n.graph, n.round, buffer);
    var blocks := n.blocks + newBlocks;
    if blocks != [] && QuorumReached(g, n.round, cfg.Quorum()) then
      var w := n.round / MAX_WAVE;
      var committed := if n.round % MAX_WAVE == 0 then Ordered(cfg, g, order, w) else None;
      var created := CreatedVertex(g, order, n.id, n.round + 1, blocks[|blocks| - 1]);
      Effect(Node(n.id, n.round + 1, g, blocks[..|blocks| - 1], if committed.Some? then w else n.decidedWave),
             Some(created), committed)
    else
      Effect(Node(n.id, n.round, g, blocks, n.decidedWave), None, None)
  }

  // ------------------------------------------------- receiving

  /** A vertex of the network never takes the slot of a different one. */
  lemma InsertFromNet(cfg: Config, net: set<Vertex>, g: Graph, v: Vertex)
    requires NetOk(cfg, net) && Part(g, net) && v in net && Resolves(Stored(g), v.parents)
    ensures Part(Insert(g, v), net) && Stored(Insert(g, v)) == Stored(g) + {v}
    ensures forall r :: Row(g, r).Keys <= Row(Insert(g, v), r).Keys
  {
    forall d | Displaces(g, v, d) ensures d == v {
      assert v.round in g && v.owner in g[v.round];
      assert d in Stored(g);
      assert d in net && v in net;
    }
    InsertStored(g, v);
    InsertClosed(Stored(g), v);
    InsertSlots(g, v);
  }

  /** Some ranking puts each stored vertex above its parents. */
  ghost predicate Ranked(s: set<Vertex>) {
    exists rank: map<Vertex, nat> :: Ranks(s, rank)
  }

  lemma {:induction false} Bounded(s: set<Vertex>, rank: map<Vertex, nat>) returns (top: nat)
    requires s <= rank.Keys
    ensures forall u | u in s :: rank[u] < top
    decreases |s|
  {
    if s == {} {
      top := 0;
    } else {
      var u :| u in s;
      var rest := Bounded(s - {u}, rank);
      top := if rest <= rank[u] then rank[u] + 1 else rest;
    }
  }

  /** A vertex whose parents are held goes on top, whatever rounds it claims for them. */
  lemma RankedGrows(s: set<Vertex>, net: set<Vertex>, v: Vertex)
    requires Ranked(s) && View(s, net) && v in net && Resolves(s, v.parents)
    ensures Ranked(s + {v})
  {
    var rank: map<Vertex, nat> :| Ranks(s, rank);
    if v in s {
      assert s + {v} == s;
    } else {
      var top := Bounded(s, rank);
      var more := rank[v := top];
      forall u, p | u in s + {v} && p in s + {v} && p.hash in u.parents && u.parents[p.hash] == p.round
        ensures more[p] < more[u]
      {
        assert Resolves(s, u.parents) && Provides(s, p.hash, u.parents[p.hash]);
        assert p in s;
      }
      assert Ranks(s + {v}, more);
    }
  }

  /** Receiving any batch of broadcast vertices, in any order and with repetitions, only adds vertices
      of the network, none above the node's round, and keeps the graph a view without cycles. */
  lemma {:induction false} ReceiveKeeps(cfg: Config, net: set<Vertex>, g: Graph, round: Round, buffer: seq<Vertex>)
    requires NetOk(cfg, net) && Part(g, net) && forall v | v in buffer :: v in net
    ensures Part(Receive(g, round, buffer), net)
    ensures Ranked(Stored(g)) ==> Ranked(Stored(Receive(g, round, buffer)))
    ensures Stored(g) <= Stored(Receive(g, round, buffer))
    ensures forall v | v in Stored(Receive(g, round, buffer)) :: v in Stored(g) || (v in buffer && v.round <= round)
    ensures forall r :: Row(g, r).Keys <= Row(Receive(g, round, buffer), r).Keys
  {
    hide Stored, View, NetOk, SlotsOk, Resolves, Insert, Ranked;
    if buffer != [] {
      var before, v := buffer[..|buffer| - 1], buffer[|buffer| - 1];
      ReceiveKeeps(cfg, net, g, round, before);
      var mid := Receive(g, round, before);
      if Accepts(mid, round, v) {
        InsertFromNet(cfg, net, mid, v);
        if Ranked(Stored(mid)) {
          RankedGrows(Stored(mid), net, v);
        }
      }
    }
  }

  /** Receiving keeps vertices in their slots, whatever the batch holds. */
  lemma {:induction false} ReceiveSlots(g: Graph, round: Round, buffer: seq<Vertex>)
    requires SlotsOk(g)
    ensures SlotsOk(Receive(g, round, buffer))
    ensures forall r :: Row(g, r).Keys <= Row(Receive(g, round, buffer), r).Keys
  {
    hide SlotsOk, Insert, Accepts;
    if buffer != [] {
      var before, v := buffer[..|buffer| - 1], buffer[|buffer| - 1];
      ReceiveSlots(g, round, before);
      var mid := Receive(g, round, before);
      InsertSlots(mid, v);
      forall r ensures Row(mid, r).Keys <= Row(Insert(mid, v), r).Keys { InsertKeepsPopulation(mid, v, r); }
    }
  }

  /** When its turn comes, `buffer[i]` is not above the node's round and its parents are held. */
  ghost predicate PassesGuard(g: Graph, round: Round, buffer: seq<Vertex>, i: nat)
    requires i < |buffer|
  {
    buffer[i].round <= round && Resolves(Stored(Receive(g, round, buffer[..i])), buffer[i].parents)
  }

  ghost predicate SameSlot(u: Vertex, v: Vertex) {
    u.round == v.round && u.owner == v.owner
  }

  /** None of the batch from `from` on that passes the guard takes the slot of `v`. */
  ghost predicate SlotLeft(g: Graph, round: Round, buffer: seq<Vertex>, from: nat, v: Vertex) {
    forall j | from <= j < |buffer| && PassesGuard(g, round, buffer, j) :: !SameSlot(buffer[j], v)
  }

  /** Some vertex of the batch that passes the guard is `v`, and no later one takes its slot. */
  ghost predicate PutLast(g: Graph, round: Round, buffer: seq<Vertex>, v: Vertex) {
    exists i: nat ::
      i < |buffer| && buffer[i] == v && PassesGuard(g, round, buffer, i) && SlotLeft(g, round, buffer, i + 1, v)
  }

  lemma PutLastStep(g: Graph, round: Round, buffer: seq<Vertex>, v: Vertex)
    requires buffer != []
    ensures var n := |buffer| - 1;
            var put := PassesGuard(g, round, buffer, n);
            && (SlotLeft(g, round, buffer, 0, v) <==>
                  SlotLeft(g, round, buffer[..n], 0, v) && !(put && SameSlot(buffer[n], v)))
            && (PutLast(g, round, buffer, v) <==>
                  (put && buffer[n] == v) ||
                  (PutLast(g, round, buffer[..n], v) && !(put && SameSlot(buffer[n], v))))
  {
    hide Resolves, Receive;
    var n := |buffer| - 1;
    var before := buffer[..n];
    forall i: nat | i < n ensures PassesGuard(g, round, buffer, i) <==> PassesGuard(g, round, before, i) {
      assert buffer[..i] == before[..i];
    }
    forall i: nat | i <= n
      ensures SlotLeft(g, round, buffer, i, v) <==>
              SlotLeft(g, round, before, i, v) && !(PassesGuard(g, round, buffer, n) && SameSlot(buffer[n], v))
    {
    }
    if PassesGuard(g, round, buffer, n) && buffer[n] == v {
      assert SlotLeft(g, round, buffer, n + 1, v);
    }
    if PutLast(g, round, before, v) {
      var i: nat :| i < n && before[i] == v && PassesGuard(g, round, before, i) && SlotLeft(g, round, before, i + 1, v);
      assert buffer[i] == v;
    }
    if PutLast(g, round, buffer, v) {
      var i: nat :| i <= n && buffer[i] == v && PassesGuard(g, round, buffer, i)
        && SlotLeft(g, round, buffer, i + 1, v);
      assert i < n ==> before[i] == v;
    }
  }

  /** What any batch leaves, exactly: each slot that some vertex of the batch passed the guard for has the
      last of these, and the others are as they were. */
  lemma {:induction false} ReceiveHolds(g: Graph, round: Round, buffer: seq<Vertex>, v: Vertex)
    requires SlotsOk(g)
    ensures v in Stored(Receive(g, round, buffer)) <==>
            (v in Stored(g) && SlotLeft(g, round, buffer, 0, v)) || PutLast(g, round, buffer, v)
  {
    hide Stored, Insert, Resolves, SlotsOk, PutLast, SlotLeft;
    if buffer == [] {
      NothingPut(g, round, v);
    } else {
      var before, u := buffer[..|buffer| - 1], buffer[|buffer| - 1];
      var mid := Receive(g, round, before);
      ReceiveHolds(g, round, before, v);
      ReceiveSlots(g, round, before);
      PutLastStep(g, round, buffer, v);
      InsertHolds(mid, u, v);
      if v in Stored(mid) {
        DisplacesIff(mid, u, v);
      }
      var put := PassesGuard(g, round, buffer, |buffer| - 1);
      assert put <==> Accepts(mid, round, u);
      assert Receive(g, round, buffer) == if put then Insert(mid, u) else mid;
    }
  }

  lemma DisplacesIff(g: Graph, u: Vertex, v: Vertex)
    requires SlotsOk(g) && v in Stored(g)
    ensures Displaces(g, u, v) <==> SameSlot(u, v)
  {
    StoredHolds(g, v);
  }

  lemma NothingPut(g: Graph, round: Round, v: Vertex)
    ensures SlotLeft(g, round, [], 0, v) && !PutLast(g, round, [], v)
  {
  }

  /** A vertex of the batch that is not above the node's round and whose parents are each held at the start,
      or are themselves such vertices earlier in the batch. */
  ghost predicate Grounded(s: set<Vertex>, round: Round, buffer: seq<Vertex>, i: nat)
    requires i < |buffer|
    decreases i
  {
    && buffer[i].round <= round
    && forall h | h in buffer[i].parents ::
         || Provides(s, h, buffer[i].parents[h])
         || exists j: nat ::
              j < i && Grounded(s, round, buffer, j) && buffer[j].hash == h && buffer[j].round == buffer[i].parents[h]
  }

  ghost function GroundedPart(s: set<Vertex>, round: Round, buffer: seq<Vertex>, n: nat): set<Vertex>
    requires n <= |buffer|
  {
    set i: nat | i < n && Grounded(s, round, buffer, i) :: buffer[i]
  }

  /** What a batch of broadcast vertices adds, exactly. */
  lemma {:induction false} ReceiveStores(cfg: Config, net: set<Vertex>, g: Graph, round: Round, buffer: seq<Vertex>,
                                         n: nat)
    requires NetOk(cfg, net) && Part(g, net) && (forall v | v in buffer :: v in net) && n <= |buffer|
    ensures Stored(Receive(g, round, buffer[..n])) == Stored(g) + GroundedPart(Stored(g), round, buffer, n)
  {
    hide Stored, View, NetOk, SlotsOk, Insert, Provides;
    if n > 0 {
      var before, v := buffer[..n - 1], buffer[n - 1];
      ReceiveStores(cfg, net, g, round, buffer, n - 1);
      assert buffer[..n][..n - 1] == before;
      var mid := Receive(g, round, before);
      ReceiveKeeps(cfg, net, g, round, before);
      GroundedIff(Stored(g), round, buffer, n - 1);
      if Accepts(mid, round, v) {
        InsertFromNet(cfg, net, mid, v);
      }
    }
  }

  lemma GroundedIff(s: set<Vertex>, round: Round, buffer: seq<Vertex>, i: nat)
    requires i < |buffer|
    ensures Grounded(s, round, buffer, i) <==>
            buffer[i].round <= round && Resolves(s + GroundedPart(s, round, buffer, i), buffer[i].parents)
  {
    var added := GroundedPart(s, round, buffer, i);
    forall h | h in buffer[i].parents
      ensures Provides(s + added, h, buffer[i].parents[h]) <==>
              || Provides(s, h, buffer[i].parents[h])
              || exists j: nat ::
                   j < i && Grounded(s, round, buffer, j) && buffer[j].hash == h
                     && buffer[j].round == buffer[i].parents[h]
    {
      if j: nat :| j < i && Grounded(s, round, buffer, j) && buffer[j].hash == h
                     && buffer[j].round == buffer[i].parents[h]
      {
        assert buffer[j] in added;
      }
    }
  }

  /** So a vertex not above the node's round whose parents are held is stored, wherever in the batch it
      stands, and a batch in causal order is stored whole. */
  lemma {:induction false} ReceiveAccepts(cfg: Config, net: set<Vertex>, g: Graph, round: Round, buffer: seq<Vertex>)
    requires NetOk(cfg, net) && Part(g, net) && forall v | v in buffer :: v in net
    ensures forall v | v in buffer && v.round <= round && Resolves(Stored(g), v.parents) ::
              v in Stored(Receive(g, round, buffer))
    ensures (forall i: nat | i < |buffer| ::
               buffer[i].round <= round && Resolves(Stored(g) + Elements(buffer[..i]), buffer[i].parents)) ==>
              Stored(Receive(g, round, buffer)) == Stored(g) + Elements(buffer)
  {
    hide Stored, View, NetOk, SlotsOk, Receive, Provides;
    var s := Stored(g);
    ReceiveStores(cfg, net, g, round, buffer, |buffer|);
    assert buffer[..|buffer|] == buffer;
    forall v | v in buffer && v.round <= round && Resolves(s, v.parents)
      ensures v in Stored(Receive(g, round, buffer))
    {
      var i: nat :| i < |buffer| && buffer[i] == v;
      assert Grounded(s, round, buffer, i);
    }
    if forall i: nat | i < |buffer| ::
         buffer[i].round <= round && Resolves(s + Elements(buffer[..i]), buffer[i].parents)
    {
      CausalGrounded(s, round, buffer, |buffer|);
    }
  }

  lemma {:induction false} CausalGrounded(s: set<Vertex>, round: Round, buffer: seq<Vertex>, n: nat)
    requires n <= |buffer|
    requires forall i: nat | i < n ::
               buffer[i].round <= round && Resolves(s + Elements(buffer[..i]), buffer[i].parents)
    ensures GroundedPart(s, round, buffer, n) == Elements(buffer[..n])
  {
    hide Grounded, Resolves;
    if n > 0 {
      CausalGrounded(s, round, buffer, n - 1);
      GroundedIff(s, round, buffer, n - 1);
      assert buffer[..n] == buffer[..n - 1] + [buffer[n - 1]];
      assert Elements(buffer[..n]) == Elements(buffer[..n - 1]) + {buffer[n - 1]};
      assert GroundedPart(s, round, buffer, n) == GroundedPart(s, round, buffer, n - 1) + {buffer[n - 1]};
    }
  }

  /** Whatever a batch holds, as long as each of its vertices lies above the parents it lists, the searches
      that follow end. The guard could check that on the vertex alone, but does not. */
  lemma {:induction false} ReceiveSearchable(g: Graph, round: Round, buffer: seq<Vertex>, en: Enumeration)
    requires SlotsOk(g) && Descending(Stored(g)) && forall v | v in buffer :: Descends(v)
    ensures Descending(Stored(Receive(g, round, buffer)))
    ensures Searchable(Receive(g, round, buffer), en)
    decreases |buffer|
  {
    hide SlotsOk, Stored, Insert, Accepts, Descends, Searchable, Ends;
    ReceiveSlots(g, round, buffer);
    if buffer != [] {
      var before, v := buffer[..|buffer| - 1], buffer[|buffer| - 1];
      ReceiveSearchable(g, round, before, en);
      ReceiveSlots(g, round, before);
      var mid := Receive(g, round, before);
      forall u | u in Stored(Insert(mid, v)) ensures Descends(u) {
        InsertHolds(mid, v, u);
        assert u in Stored(mid) ==> Descends(u);
      }
    }
    DescendingSearchable(Receive(g, round, buffer), en);
  }

  // ------------------------------------------------- advancing

  /** A block is waiting, new or not, and a quorum of members has vertices of the node's round in `g`. */
  ghost predicate Ready(cfg: Config, n: Node, newBlocks: seq<Block>, g: Graph) {
    n.blocks + newBlocks != [] && |HeldOwners(g, n.round)| >= QuorumSize(|cfg.keys|)
  }

  /** A node advances, and broadcasts, exactly when it is ready once the batch is in. Otherwise it keeps
      the batch and its blocks and nothing else happens. */
  lemma AdvancesIff(cfg: Config, n: Node, buffer: seq<Vertex>, newBlocks: seq<Block>, order: Enumeration)
    requires cfg.keys != [] && n.round > 0 && Enumerates(order, Receive(n.graph, n.round, buffer)) && SlotsOk(n.graph)
    ensures var e, g := Iterate(cfg, n, buffer, newBlocks, order), Receive(n.graph, n.round, buffer);
            && (e.node.round == n.round + 1 <==> Ready(cfg, n, newBlocks, g))
            && (e.sent.Some? <==> Ready(cfg, n, newBlocks, g))
            && (!Ready(cfg, n, newBlocks, g) ==>
                  e.node == n.(graph := g, blocks := n.blocks + newBlocks) && e.committed.None?)
            && e.node.id == n.id && e.node.graph == g
  {
    hide Receive, Ordered, Stored, CreatedVertex, Enumerates, SlotsOk, HeldOwners;
    ReceiveSlots(n.graph, n.round, buffer);
    HeldOwnersSize(Receive(n.graph, n.round, buffer), n.round);
  }

  /** `log` is what the chain of leaders that starts with the leader of wave `w` delivers. */
  ghost predicate LogOf(cfg: Config, g: Graph, en: Enumeration, w: Wave, log: seq<Vertex>)
    requires cfg.keys != [] && w > 0 && Enumerates(en, g)
  {
    exists leader, cs ::
      && IsLeader(cfg.keys, Stored(g), w, leader) && IsWalk(cfg, g, en, w - 1, leader, cs)
      && log == OrderVertices(g, en, cfg.orientation, cs)
  }

  lemma OrderedLog(cfg: Config, g: Graph, en: Enumeration, w: Wave)
    requires ConfigOk(cfg) && w > 0 && SlotsOk(g) && Enumerates(en, g) && HashUnique(Stored(g))
    ensures Ordered(cfg, g, en, w).Some? <==> CommitRule(cfg, Stored(g), w)
    ensures Ordered(cfg, g, en, w).Some? ==> LogOf(cfg, g, en, w, Ordered(cfg, g, en, w).value)
  {
    hide CommitRule, IsLeader, IsWalk, WaveLeader, Linkers, Stored, SlotsOk, Enumerates, HashUnique, OrderVertices,
      LeadersToCommit;
    CommitsIff(cfg, g, en, w);
    if Commits(cfg, g, en, w) {
      var leader := WaveLeader(cfg.keys, g, w).value;
      WaveLeaderIff(cfg.keys, g, w);
      assert WaveLeader(cfg.keys, g, w) == Some(leader);
      WalkIff(cfg, g, en, w - 1, leader, LeadersToCommit(cfg, g, en, w - 1, leader));
    }
  }

  /** A node commits exactly when it advances out of the last round of a wave that meets the commit rule in
      its graph, and then decides that wave and delivers what the wave's leaders bring along. */
  lemma CommitsWhen(cfg: Config, n: Node, buffer: seq<Vertex>, newBlocks: seq<Block>, order: Enumeration)
    requires ConfigOk(cfg) && n.round > 0 && Enumerates(order, Receive(n.graph, n.round, buffer)) && SlotsOk(n.graph)
    requires HashUnique(Stored(Receive(n.graph, n.round, buffer)))
    ensures var e, g, w := Iterate(cfg, n, buffer, newBlocks, order), Receive(n.graph, n.round, buffer), n.round / 4;
            && (e.committed.Some? <==>
                  Ready(cfg, n, newBlocks, g) && n.round % 4 == 0 && CommitRule(cfg, Stored(g), w))
            && e.node.decidedWave == (if e.committed.Some? then w else n.decidedWave)
            && (e.committed.Some? ==> LogOf(cfg, g, order, w, e.committed.value))
  {
    hide Receive, Ordered, Stored, CreatedVertex, Enumerates, SlotsOk, Ready, CommitRule, HashUnique, LogOf;
    AdvancesIff(cfg, n, buffer, newBlocks, order);
    ReceiveSlots(n.graph, n.round, buffer);
    if n.round % 4 == 0 {
      OrderedLog(cfg, Receive(n.graph, n.round, buffer), order, n.round / 4);
    }
  }

  /** What it broadcasts: its own vertex of the round it enters, with the block queued last, on top of the
      whole round it leaves. */
  lemma SentIs(cfg: Config, n: Node, buffer: seq<Vertex>, newBlocks: seq<Block>, order: Enumeration)
    requires cfg.keys != [] && n.round > 0 && Enumerates(order, Receive(n.graph, n.round, buffer)) && SlotsOk(n.graph)
    requires HashUnique(Stored(Receive(n.graph, n.round, buffer)))
    ensures var e, g := Iterate(cfg, n, buffer, newBlocks, order), Receive(n.graph, n.round, buffer);
            e.sent.Some? ==>
              && var v := e.sent.value;
              && v.owner == n.id && v.round == n.round + 1 && v.StrongParents() == Offered(g, n.round)
              && Attachable(Stored(g), v)
              && (forall u | u in Stored(g) && 1 <= u.round && u.round + 2 <= n.round :: Leads(Stored(g), v, u, All))
  {
    hide Receive, Ordered, Stored, CreatedVertex, Enumerates, SlotsOk, HashUnique, Offered, Attachable, Leads;
    var g, blocks := Receive(n.graph, n.round, buffer), n.blocks + newBlocks;
    ReceiveSlots(n.graph, n.round, buffer);
    if Iterate(cfg, n, buffer, newBlocks, order).sent.Some? {
      CreatedIs(g, order, n.id, n.round + 1, blocks[|blocks| - 1]);
    }
  }

  /** No block is lost or proposed twice: what was queued is queued still or is in the vertex sent, and
      the vertex takes the block queued last. */
  lemma BlocksConserved(cfg: Config, n: Node, buffer: seq<Vertex>, newBlocks: seq<Block>, order: Enumeration)
    requires cfg.keys != [] && n.round > 0 && Enumerates(order, Receive(n.graph, n.round, buffer))
    ensures var e := Iterate(cfg, n, buffer, newBlocks, order);
            && n.blocks + newBlocks == e.node.blocks + (if e.sent.Some? then [e.sent.value.block] else [])
            && (e.sent.Some? <==> e.node.round == n.round + 1)
  {
    hide Receive, Ordered, Stored, CreatedVertex, Enumerates;
    var g := Receive(n.graph, n.round, buffer);
    var e := Iterate(cfg, n, buffer, newBlocks, order);
    var blocks := n.blocks + newBlocks;
    if e.sent.Some? {
      CreatedContent(g, order, n.id, n.round + 1, blocks[|blocks| - 1]);
    }
  }
}
