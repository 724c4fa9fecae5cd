/** The `State` and `Consensus` classes (src/consensus/state.cpp, src/consensus/consensus.cpp). */
module ConsensusNode {
  import opened Orders
  import opened Vertices
  import opened Graphs
  import opened Quorums
  import opened Enumerations
  import opened Searches
  import opened Ordering
  import opened WeakEdges
  import opened Nodes
  import opened Dags

  class State {
    var currentRound: Round
    var deliveredVertices: set<VertexHash>
    const dag: Dag

    constructor (genesisVertices: seq<Vertex>, edges: Edges)
      ensures fresh(dag) && dag.minQuorum == QuorumSize(|genesisVertices|) && dag.edges == edges
      ensures currentRound == 1 && deliveredVertices == Hashes(genesisVertices)
      ensures dag.graph.Keys == {1}
      ensures forall v | v in genesisVertices :: v.owner in dag.graph[1]
      ensures forall k | k in dag.graph[1] ::
                exists i :: 0 <= i < |genesisVertices| && genesisVertices[i].owner == k
                  && dag.graph[1][k] == genesisVertices[i]
    {
      currentRound := 1;
      dag := new Dag(genesisVertices, 2 * |genesisVertices| / 3 + 1, edges);
      var delivered: set<VertexHash> := {};
      for i := 0 to |genesisVertices|
        invariant delivered == Hashes(genesisVertices[..i])
      {
        delivered := delivered + {genesisVertices[i].hash};
      }
      deliveredVertices := delivered;
      assert genesisVertices[..|genesisVertices|] == genesisVertices;
    }
  }

  lemma {:induction false} PassGrows(g: Graph, en: Enumeration, o: Orientation, leader: Vertex, vs: seq<Vertex>,
                                     v: Vertex, delivered: set<VertexHash>)
    ensures var out := Pass(g, en, o, leader, vs, delivered);
            Pass(g, en, o, leader, vs + [v], delivered) ==
            if v.hash !in delivered + Hashes(out) && Delivers(g, en, o, leader, v) then out + [v] else out
  {
    assert (vs + [v])[..|vs|] == vs;
  }

  lemma HashesGrow(q: seq<Vertex>, v: Vertex)
    ensures Hashes(q + [v]) == Hashes(q) + {v.hash}
  {
    assert forall u :: u in q + [v] <==> u in q || u == v;
  }

  lemma HashesConcat(p: seq<Vertex>, q: seq<Vertex>)
    ensures Hashes(p + q) == Hashes(p) + Hashes(q)
  {
    assert forall u :: u in p + q <==> u in p || u in q;
  }

  lemma ConcatAssociates<T>(a: seq<T>, b: seq<T>, c: seq<T>)
    ensures (a + b) + c == a + (b + c)
  {
  }

  lemma RowSeqGrows(row: map<Key, Vertex>, ks: seq<Key>, j: nat)
    requires j < |ks| && forall k | k in ks :: k in row
    ensures RowSeq(row, ks[..j + 1]) == RowSeq(row, ks[..j]) + [row[ks[j]]]
  {
  }

  class Consensus {
    const nodeId: Key
    const committee: seq<Key>
    const orientation: Orientation
    const state: State
    var decidedWave: Wave
    var blocksToPropose: seq<Block>

    ghost predicate Valid(cfg: Config)
      reads this, state, state.dag
    {
      && cfg.keys != [] && committee == cfg.keys && orientation == cfg.orientation
      && state.dag.minQuorum == cfg.Quorum() && state.dag.edges == cfg.edges
      && state.currentRound > 0 && SlotsOk(state.dag.graph)
    }

    /** The node's state as a value. */
    ghost function AsNode(): Node
      reads this, state, state.dag
    {
      Node(nodeId, state.currentRound, state.dag.graph, blocksToPropose, decidedWave)
    }

    constructor (nodeId: Key, committee: seq<Key>, genesisVertices: seq<Vertex>, edges: Edges, orientation: Orientation)
      requires committee != []
      requires |genesisVertices| == |committee|
      requires forall i | 0 <= i < |committee| :: genesisVertices[i] == GenesisVertex(committee[i])
      ensures fresh(state) && fresh(state.dag)
      ensures forall faulty :: Valid(Config(committee, faulty, edges, orientation))
      ensures forall faulty :: AsNode() == InitialNode(Config(committee, faulty, edges, orientation), nodeId)
    {
      this.nodeId := nodeId;
      this.committee := committee;
      this.orientation := orientation;
      this.state := new State(genesisVertices, edges);
      this.decidedWave := 0;
      this.blocksToPropose := [];
      new;
      assert forall k | k in committee :: GenesisVertex(k) in genesisVertices by {
        forall k | k in committee ensures GenesisVertex(k) in genesisVertices {
          var i :| 0 <= i < |committee| && committee[i] == k;
          assert genesisVertices[i] == GenesisVertex(k);
        }
      }
      assert state.dag.graph[1] == GenesisRow(committee);
      assert state.dag.graph == map[1 := GenesisRow(committee)];
    }

    function GetRoundForWave(wave: Wave, round: Round): (r: Round)
      requires wave > 0
      ensures 1 <= round <= MAX_WAVE ==> (r - 1) / MAX_WAVE == wave - 1 && (r - 1) % MAX_WAVE == round - 1
      ensures 1 <= round <= MAX_WAVE ==> (IsLastRoundInWave(r) <==> round == MAX_WAVE)
    {
      RoundForWave(wave, round)
    }

    static predicate IsLastRoundInWave(round: Round) {
      round % MAX_WAVE == 0
    }

    method GetWaveVertexLeader(wave: Wave) returns (leader: Option<Vertex>)
      requires wave > 0 && committee != []
      ensures leader == WaveLeader(committee, state.dag.graph, wave)
      ensures SlotsOk(state.dag.graph) && Distinct(committee) ==>
                && (forall l :: leader == Some(l) <==> IsLeader(committee, Stored(state.dag.graph), wave, l))
                && (leader.None? <==> forall l :: !IsLeader(committee, Stored(state.dag.graph), wave, l))
    {
      hide Elected, Stored, SlotsOk, Sorted, IsLeader;
      if SlotsOk(state.dag.graph) && Distinct(committee) {
        WaveLeaderIff(committee, state.dag.graph, wave);
      }
      var firstRoundOfWave := GetRoundForWave(wave, 1);
      var coin := firstRoundOfWave;
      var keys := Sorted(committee);
      var key := keys[coin % |committee|];
      var g := state.dag.graph;
      if firstRoundOfWave in g && key in g[firstRoundOfWave] {
        leader := Some(g[firstRoundOfWave][key]);
      } else {
        leader := None;
      }
    }

    method GetLeadersToCommit(ghost cfg: Config, order: Enumeration, fromWave: Wave, currentLeader: Vertex)
      returns (toCommit: seq<Vertex>)
      requires Valid(cfg) && Enumerates(order, state.dag.graph) && Searchable(state.dag.graph, order)
      requires currentLeader in Stored(state.dag.graph)
      ensures toCommit == LeadersToCommit(cfg, state.dag.graph, order, fromWave, currentLeader)
      ensures forall l | l in toCommit :: l in Stored(state.dag.graph)
      ensures ConfigOk(cfg) ==> IsWalk(cfg, state.dag.graph, order, fromWave, currentLeader, toCommit)
    {
      hide Linked, SlotsOk, Stored, WaveLeader, LeadersBelow, Ends, IsWalk, IsLeader, Enumerates;
      ghost var g := state.dag.graph;
      toCommit := [currentLeader];
      var leader := currentLeader;
      var wave := fromWave;
      while wave > 0
        invariant leader in Stored(g)
        invariant forall l | l in toCommit :: l in Stored(g)
        invariant toCommit + LeadersBelow(cfg, g, order, wave, leader) ==
                  LeadersToCommit(cfg, g, order, fromWave, currentLeader)
      {
        WalkOnce(cfg, g, order, wave, leader);
        var prevLeader := GetWaveVertexLeader(wave);
        if prevLeader.Some? {
          WaveLeaderIs(committee, g, wave);
          var linked := state.dag.IsStronglyLinked(order, leader, prevLeader.value);
          if linked {
            ConcatAssociates(toCommit, [prevLeader.value], LeadersBelow(cfg, g, order, wave - 1, prevLeader.value));
            toCommit := toCommit + [prevLeader.value];
            leader := prevLeader.value;
          }
        }
        wave := wave - 1;
      }
      WalkOnce(cfg, g, order, 0, leader);
      if ConfigOk(cfg) {
        WalkIff(cfg, g, order, fromWave, currentLeader, toCommit);
      }
    }

    /** The two inner loops of `orderVertices`: one leader's pass over the graph, iterated in `order`. */
    method DeliverPass(order: Enumeration, leader: Vertex, ordered: seq<Vertex>, delivered: set<VertexHash>)
      returns (orderedVertices: seq<Vertex>, deliveredVertices: set<VertexHash>)
      requires Enumerates(order, state.dag.graph)
      requires Searchable(state.dag.graph, order) && leader in Stored(state.dag.graph)
      requires delivered == Hashes(ordered)
      ensures orderedVertices == ordered + LeaderPass(state.dag.graph, order, orientation, leader, Hashes(ordered))
      ensures deliveredVertices == Hashes(orderedVertices)
    {
      hide Stored, Delivers, Pass, Hashes, Ascending, GraphSeq, Ends, Searchable;
      var graph := state.dag.graph;
      EmptyPass(graph, order, orientation, leader, delivered);
      orderedVertices, deliveredVertices := ordered, delivered;
      var rounds := Ascending(graph.Keys);
      assert forall r | r in rounds :: r in graph;
      for i := 0 to |rounds|
        invariant orderedVertices == ordered + Pass(graph, order, orientation, leader,
                  GraphSeq(graph, order, rounds[..i]), delivered)
        invariant deliveredVertices == Hashes(orderedVertices)
      {
        var round := rounds[i];
        ghost var done := GraphSeq(graph, order, rounds[..i]);
        GraphSeqGrows(graph, order, rounds, i);
        if round > 0 {
          var vertices := graph[round];
          var keys := order[round];
          assert forall k | k in keys :: k in vertices;
          assert done + RowSeq(vertices, keys[..0]) == done;
          for j := 0 to |keys|
            invariant orderedVertices == ordered + Pass(graph, order, orientation, leader,
                      done + RowSeq(vertices, keys[..j]), delivered)
            invariant deliveredVertices == Hashes(orderedVertices)
          {
            assert keys[j] in vertices;
            var vertex := vertices[keys[j]];
            ghost var visited := done + RowSeq(vertices, keys[..j]);
            RowSeqGrows(vertices, keys, j);
            assert done + RowSeq(vertices, keys[..j + 1]) == visited + [vertex];
            PassGrows(graph, order, orientation, leader, visited, vertex, delivered);
            HashesConcat(ordered, Pass(graph, order, orientation, leader, visited, delivered));
            if vertex.hash !in deliveredVertices {
              var linked := DeliveryTest(order, round, keys[j], leader);
              if linked {
                HashesGrow(orderedVertices, vertex);
                orderedVertices := orderedVertices + [vertex];
                deliveredVertices := deliveredVertices + {vertex.hash};
              }
            }
          }
          assert keys[..|keys|] == keys;
        } else {
          assert done + [] == done;
        }
      }
      assert rounds[..|rounds|] == rounds;
    }

    /** The link test of `orderVertices`, with its arguments in the order that `orientation` says. */
    method DeliveryTest(order: Enumeration, round: Round, key: Key, leader: Vertex) returns (linked: bool)
      requires Enumerates(order, state.dag.graph) && Searchable(state.dag.graph, order)
      requires leader in Stored(state.dag.graph)
      requires round in state.dag.graph && key in state.dag.graph[round]
      ensures linked <==> Delivers(state.dag.graph, order, orientation, leader, state.dag.graph[round][key])
    {
      hide Linked, Ends;
      var vertex := state.dag.graph[round][key];
      assert vertex in Stored(state.dag.graph);
      if orientation.Written? {
        linked := state.dag.IsLinked(order, vertex, leader);
      } else {
        linked := state.dag.IsLinked(order, leader, vertex);
      }
    }

    method OrderVertices(order: Enumeration, leadersToCommit: seq<Vertex>) returns (orderedVertices: seq<Vertex>)
      requires Enumerates(order, state.dag.graph) && Searchable(state.dag.graph, order)
      requires forall l | l in leadersToCommit :: l in Stored(state.dag.graph)
      ensures orderedVertices == Ordering.OrderVertices(state.dag.graph, order, orientation, leadersToCommit)
    {
      hide Searchable, LeaderPass, Enumerates;
      var leaders := leadersToCommit;
      orderedVertices := [];
      var deliveredVertices: set<VertexHash> := {};
      while leaders != []
        invariant |leaders| <= |leadersToCommit| && leaders == leadersToCommit[..|leaders|]
        invariant orderedVertices == Ordering.OrderVertices(state.dag.graph, order, orientation,
                  leadersToCommit[|leaders|..])
        invariant deliveredVertices == Hashes(orderedVertices)
      {
        var leader := leaders[|leaders| - 1];
        assert leader == leadersToCommit[|leaders| - 1];
        assert leadersToCommit[|leaders| - 1..] == [leader] + leadersToCommit[|leaders|..];
        leaders := leaders[..|leaders| - 1];
        orderedVertices, deliveredVertices := DeliverPass(order, leader, orderedVertices, deliveredVertices);
      }
    }

    method GetOrderedVertices(ghost cfg: Config, order: Enumeration, wave: Wave) returns (ordered: seq<Vertex>)
      requires Valid(cfg) && wave > 0 && Enumerates(order, state.dag.graph) && Searchable(state.dag.graph, order)
      modifies this`decidedWave
      ensures var committed := Ordered(cfg, state.dag.graph, order, wave);
              && ordered == (if committed.Some? then committed.value else [])
              && decidedWave == if committed.Some? then wave else old(decidedWave)
      ensures ConfigOk(cfg) && HashUnique(Stored(state.dag.graph)) ==>
                if CommitRule(cfg, Stored(state.dag.graph), wave)
                then decidedWave == wave && LogOf(cfg, state.dag.graph, order, wave, ordered)
                else decidedWave == old(decidedWave) && ordered == []
    {
      hide Linked, SlotsOk, Stored, Ordering.OrderVertices, WaveLeader, LeadersToCommit, Linkers, Enumerates,
        Searchable, IsLeader, IsWalk, HashUnique, CommitRule, LogOf, ConfigOk, Distinct;
      if ConfigOk(cfg) && HashUnique(Stored(state.dag.graph)) {
        OrderedLog(cfg, state.dag.graph, order, wave);
      }
      var leader := GetWaveVertexLeader(wave);
      if leader.None? {
        return [];
      }
      WaveLeaderIs(committee, state.dag.graph, wave);
      var round := GetRoundForWave(wave, MAX_WAVE);
      RowEnds(state.dag.graph, order, leader.value, round, state.dag.edges);
      var linked := state.dag.IsLinkedWithOthersInRound(order, leader.value, round);
      if !linked {
        return [];
      }
      var leadersToCommit := GetLeadersToCommit(cfg, order, wave - 1, leader.value);
      decidedWave := wave;
      ordered := OrderVertices(order, leadersToCommit);
    }

    method SetWeakEdges(order: Enumeration, vertex: Vertex, round: Round) returns (grown: Vertex)
      requires SlotsOk(state.dag.graph) && Enumerates(order, state.dag.graph) && Searchable(state.dag.graph, order)
      requires round > 2
      ensures grown == WeakFrom(state.dag.graph, order, vertex, round - 3)
    {
      hide Linked, SlotsOk, Stored, Searchable, Ends;
      var graph := state.dag.graph;
      grown := vertex;
      var r := round - 3;
      while r > 0
        invariant WeakFrom(graph, order, grown, r) == WeakFrom(graph, order, vertex, round - 3)
      {
        ghost var start := grown;
        if r in graph {
          var vertices := graph[r];
          var keys := order[r];
          assert Lists(keys, vertices.Keys);
          ghost var line := Line(graph, order, r);
          for j := 0 to |keys|
            invariant WeakRound(graph, order, grown, line[j..], r) == WeakRound(graph, order, start, line, r)
          {
            assert keys[j] in keys && keys[j] in vertices;
            var v := vertices[keys[j]];
            assert line[j..][0] == v && line[j..][1..] == line[j + 1..];
            SlotStored(graph, r, keys[j]);
            SearchableEnds(graph, order, grown, v, All);
            var linked := state.dag.IsLinked(order, grown, v);
            if !linked {
              grown := grown.AddParent(v.hash, r);
            }
          }
        } else {
          LineMissing(graph, order, r);
        }
        r := r - 1;
      }
    }

    method CreateNewVertex(order: Enumeration, round: Round) returns (vertex: Option<Vertex>)
      requires SlotsOk(state.dag.graph) && Enumerates(order, state.dag.graph) && Searchable(state.dag.graph, order)
      requires round > 0
      modifies this`blocksToPropose
      ensures old(blocksToPropose) == [] ==> vertex == None && blocksToPropose == []
      ensures var blocks := old(blocksToPropose);
              blocks != [] ==>
                && vertex == Some(CreatedVertex(state.dag.graph, order, nodeId, round, blocks[|blocks| - 1]))
                && blocksToPropose == blocks[..|blocks| - 1]
    {
      hide Stored, Offered, WeakFrom, SlotsOk, Enumerates, Searchable;
      if blocksToPropose == [] {
        return None;
      }
      var block := blocksToPropose[|blocksToPropose| - 1];
      blocksToPropose := blocksToPropose[..|blocksToPropose| - 1];
      var parents := state.dag.GetVertices(round - 1);
      var created := NewVertex(nodeId, round, block, parents);
      if round > 2 {
        created := SetWeakEdges(order, created, round);
      }
      vertex := Some(created);
    }

    /** One iteration of `run`: drain `buffer` and `blocks`, insert, and advance when possible. What is
        sent to the output and to the broadcaster is returned. The batch may hold any vertices at all;
        if the iteration goes on to search the graph, searches must end there. */
    method RunIteration(ghost cfg: Config, buffer: seq<Vertex>, blocks: seq<Block>, order: Enumeration)
      returns (output: seq<Vertex>, broadcast: Option<Vertex>)
      requires Valid(cfg)
      requires Enumerates(order, Receive(state.dag.graph, state.currentRound, buffer))
      requires var g := Receive(state.dag.graph, state.currentRound, buffer);
               blocksToPropose + blocks != [] && QuorumReached(g, state.currentRound, cfg.Quorum()) ==>
                 Searchable(g, order)
      modifies this, state, state.dag
      ensures Valid(cfg)
      ensures var effect := Iterate(cfg, old(AsNode()), buffer, blocks, order);
              && AsNode() == effect.node
              && broadcast == effect.sent
              && output == if effect.committed.Some? then effect.committed.value else []
      ensures state.currentRound == old(state.currentRound) + 1 <==>
              old(blocksToPropose) + blocks != []
              && |HeldOwners(state.dag.graph, old(state.currentRound))| >= QuorumSize(|committee|)
      ensures broadcast.Some? <==> state.currentRound != old(state.currentRound)
    {
      hide SlotsOk, Stored, Ordered, CreatedVertex, Searchable, Enumerates, HeldOwners, CommitRule, LogOf, HashUnique;
      output, broadcast := [], None;
      blocksToPropose := blocksToPropose + blocks;
      ReceiveAll(buffer);
      ReceiveSlots(old(state.dag.graph), state.currentRound, buffer);
      if blocksToPropose != [] {
        HeldOwnersSize(state.dag.graph, state.currentRound);
        var reached := state.dag.IsQuorumReachedForRound(state.currentRound);
        if reached {
          if IsLastRoundInWave(state.currentRound) {
            output := GetOrderedVertices(cfg, order, state.currentRound / MAX_WAVE);
          }
          state.currentRound := state.currentRound + 1;
          broadcast := CreateNewVertex(order, state.currentRound);
        }
      }
    }

    /** The insertion loop of `run`, for any batch. */
    method ReceiveAll(buffer: seq<Vertex>)
      requires SlotsOk(state.dag.graph)
      modifies state.dag
      ensures state.dag.graph == Receive(old(state.dag.graph), state.currentRound, buffer)
      ensures SlotsOk(state.dag.graph)
      ensures forall v :: v in Stored(state.dag.graph) <==>
                || (v in Stored(old(state.dag.graph))
                    && SlotLeft(old(state.dag.graph), state.currentRound, buffer, 0, v))
                || PutLast(old(state.dag.graph), state.currentRound, buffer, v)
    {
      hide Stored, Insert, Resolves, SlotsOk, SlotLeft, PutLast;
      ghost var start := state.dag.graph;
      for i := 0 to |buffer|
        invariant state.dag.graph == Receive(start, state.currentRound, buffer[..i])
        invariant SlotsOk(state.dag.graph)
      {
        var vertex := buffer[i];
        assert buffer[..i + 1][..i] == buffer[..i];
        InsertSlots(state.dag.graph, vertex);
        if vertex.round <= state.currentRound {
          var contained := state.dag.ContainsVertices(vertex.parents);
          if contained {
            state.dag.InsertVertex(vertex);
          }
        }
      }
      assert buffer[..|buffer|] == buffer;
      forall v ensures v in Stored(state.dag.graph) <==>
                       || (v in Stored(start) && SlotLeft(start, state.currentRound, buffer, 0, v))
                       || PutLast(start, state.currentRound, buffer, v)
      {
        ReceiveHolds(start, state.currentRound, buffer, v);
      }
    }
  }

  lemma EmptyPass(g: Graph, en: Enumeration, o: Orientation, leader: Vertex, delivered: set<VertexHash>)
    requires Enumerates(en, g)
    ensures GraphSeq(g, en, []) == [] && Pass(g, en, o, leader, [], delivered) == []
  {
  }

  lemma SlotStored(g: Graph, r: Round, k: Key)
    requires SlotsOk(g) && r in g && k in g[r]
    ensures g[r][k] in Stored(g) && g[r][k].round == r
  {
  }

  lemma RowEnds(g: Graph, en: Enumeration, v: Vertex, r: Round, e: Edges)
    requires Searchable(g, en) && v in Stored(g)
    ensures forall k | k in Row(g, r) && Row(g, r)[k].round > v.round :: Ends(g, en, Row(g, r)[k], v, e)
  {
    hide Ends;
    forall k | k in Row(g, r) && Row(g, r)[k].round > v.round ensures Ends(g, en, Row(g, r)[k], v, e) {
      assert r in g && k in g[r] && g[r][k] in Stored(g);
    }
  }
}
