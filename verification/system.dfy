/** Any number of nodes over one network: nodes run iterations of the main loop on arbitrary batches of
    what was broadcast so far; faulty members broadcast what a reliable broadcast lets through. */
module Systems {
  import opened Vertices
  import opened Graphs
  import opened Links
  import opened Quorums
  import opened Enumerations
  import opened Searches
  import opened Ordering
  import opened WeakEdges
  import opened Selectors
  import opened Agreement
  import opened Nodes

  /** A committed wave as its node saw it: the graph at that moment, the order in which the node iterated
      its rounds, and the sequence delivered. */
  datatype Commit = Commit(node: Key, wave: Wave, view: Graph, order: Enumeration, log: seq<Vertex>)

  datatype System = System(nodes: map<Key, Node>, net: set<Vertex>, history: seq<Commit>)

  datatype Action = Run(who: Key, buffer: seq<Vertex>, blocks: seq<Block>, order: Enumeration) | Misbehave(v: Vertex)

  ghost predicate Init(cfg: Config, s: System) {
    && s.nodes.Keys == Members(cfg) - cfg.faulty
    && (forall k | k in s.nodes :: s.nodes[k] == InitialNode(cfg, k))
    && s.net == GenesisVertices(cfg.keys)
    && s.history == []
  }

  ghost function Sent(e: Effect): set<Vertex> {
    if e.sent.Some? then {e.sent.value} else {}
  }

  ghost function Recorded(n: Node, g: Graph, order: Enumeration, e: Effect): seq<Commit> {
    if e.committed.Some? then [Commit(n.id, n.round / MAX_WAVE, g, order, e.committed.value)] else []
  }

  /** The batch may hold any broadcast vertices, in any order, repeated or not; the rest is lost. The
      hash maps may be iterated in any order. */
  ghost predicate NextRun(cfg: Config, s: System, who: Key, buffer: seq<Vertex>, blocks: seq<Block>, order: Enumeration,
                          t: System)
    requires cfg.keys != []
  {
    && who in s.nodes && s.nodes[who].round > 0
    && (forall v | v in buffer :: v in s.net)
    && var n := s.nodes[who];
       var g := Receive(n.graph, n.round, buffer);
       && Enumerates(order, g)
       && var e := Iterate(cfg, n, buffer, blocks, order);
          t == System(s.nodes[who := e.node], s.net + Sent(e), s.history + Recorded(n, g, order, e))
  }

  /** What is assumed of the broadcast primitive about faulty senders: a vertex is authentic, is the only
      one of its sender and round, and lists a quorum of strong parents. Parents need not exist, and may be
      of any round. */
  ghost predicate NextMisbehave(cfg: Config, s: System, v: Vertex, t: System) {
    && v.owner in cfg.faulty && v.round > 1
    && WellFormed(cfg, v)
    && (forall u | u in s.net :: u.round != v.round || u.owner != v.owner)
    && t == s.(net := s.net + {v})
  }

  ghost predicate Next(cfg: Config, s: System, a: Action, t: System)
    requires cfg.keys != []
  {
    match a
    case Run(who, buffer, blocks, order) => NextRun(cfg, s, who, buffer, blocks, order, t)
    case Misbehave(v) => NextMisbehave(cfg, s, v, t)
  }

  ghost predicate IsRun(cfg: Config, run: seq<System>, actions: seq<Action>)
    requires cfg.keys != []
  {
    && |run| == |actions| + 1 && Init(cfg, run[0])
    && forall i | 0 <= i < |actions| :: Next(cfg, run[i], actions[i], run[i + 1])
  }

  // ------------------------------------------------- the invariant

  ghost predicate HasEmitted(net: set<Vertex>, k: Key, r: Round) {
    exists v :: v in net && v.owner == k && v.round == r
  }

  ghost predicate NodeOk(cfg: Config, net: set<Vertex>, k: Key, n: Node) {
    && n.id == k && n.round > 0
    && Part(n.graph, net) && Ranked(Stored(n.graph))
    && (forall r | 1 <= r < n.round :: |Row(n.graph, r)| >= cfg.Quorum())
    && (forall v | v in Stored(n.graph) :: v.round <= n.round)
    && (forall v | v in net && v.owner == k :: v.round <= n.round)
    && (forall r | 1 <= r <= n.round :: HasEmitted(net, k, r))
  }

  ghost predicate CommitOk(cfg: Config, net: set<Vertex>, c: Commit)
    requires cfg.keys != []
  {
    && c.wave > 0 && ViewOk(c.view, c.order, net)
    && Ordered(cfg, c.view, c.order, c.wave) == Some(c.log)
  }

  /** Members that run this code broadcast a vertex only after its parents, and list lower rounds only. */
  ghost predicate HonestResolve(cfg: Config, net: set<Vertex>) {
    forall v {:trigger Resolves(net, v.parents)} | v in net && v.owner !in cfg.faulty ::
      Resolves(net, v.parents) && Descends(v) && Spaced(v)
  }

  ghost predicate Inv(cfg: Config, s: System)
    requires cfg.keys != []
  {
    && NetOk(cfg, s.net) && HonestResolve(cfg, s.net)
    && s.nodes.Keys <= Members(cfg) - cfg.faulty
    && (forall k | k in s.nodes :: NodeOk(cfg, s.net, k, s.nodes[k]))
    && (forall c | c in s.history :: CommitOk(cfg, s.net, c))
  }

  lemma GenesisIs(cfg: Config, v: Vertex)
    ensures v in GenesisVertices(cfg.keys) <==> v.owner in Members(cfg) && v == GenesisVertex(v.owner)
  {
  }

  /** The genesis vertices list no parents, so nothing can be wrong with those. */
  lemma NoParents(s: set<Vertex>)
    requires forall v | v in s :: v.parents == map[]
    ensures Closed(s) && Descending(s) && Ranked(s)
  {
    assert Ranks(s, map v | v in s :: 0);
  }

  lemma InitNet(cfg: Config)
    requires ConfigOk(cfg)
    ensures NetOk(cfg, GenesisVertices(cfg.keys)) && HonestResolve(cfg, GenesisVertices(cfg.keys))
    ensures Closed(GenesisVertices(cfg.keys)) && Ranked(GenesisVertices(cfg.keys))
  {
    hide Ranked;
    var net := GenesisVertices(cfg.keys);
    forall v ensures v in net <==> v.owner in Members(cfg) && v == GenesisVertex(v.owner) { GenesisIs(cfg, v); }
    forall v | v in net ensures WellFormed(cfg, v) && Descends(v) && Spaced(v) {}
    NoParents(net);
    assert forall v | v in net :: Resolves(net, v.parents);
  }

  lemma InitGraph(cfg: Config)
    requires ConfigOk(cfg)
    ensures Stored(InitialNode(cfg, 0).graph) == GenesisVertices(cfg.keys)
    ensures Part(InitialNode(cfg, 0).graph, GenesisVertices(cfg.keys))
  {
    hide Closed, Ranked, HonestResolve, NetOk;
    var net, g := GenesisVertices(cfg.keys), InitialNode(cfg, 0).graph;
    forall v ensures v in net <==> v.owner in Members(cfg) && v == GenesisVertex(v.owner) { GenesisIs(cfg, v); }
    forall v ensures v in Stored(g) <==> v in net { StoredHolds(g, v); }
    InitNet(cfg);
    NetUnique(cfg, net);
  }

  lemma InitInv(cfg: Config, s: System)
    requires ConfigOk(cfg) && Init(cfg, s)
    ensures Inv(cfg, s)
  {
    hide NetOk, Part, Ranked, HonestResolve, Stored;
    InitNet(cfg);
    InitGraph(cfg);
    forall v ensures v in s.net <==> v.owner in Members(cfg) && v == GenesisVertex(v.owner) { GenesisIs(cfg, v); }
    forall k | k in s.nodes ensures NodeOk(cfg, s.net, k, s.nodes[k]) {
      assert GenesisVertex(k) in s.net;
      assert s.nodes[k].graph == InitialNode(cfg, 0).graph;
      assert HasEmitted(s.net, k, 1);
    }
  }

  // ------------------------------------------------- a growing network

  /** A well-formed vertex for a slot nobody used yet can join. */
  lemma NetGrows(cfg: Config, net: set<Vertex>, x: Vertex)
    requires NetOk(cfg, net) && WellFormed(cfg, x)
    requires forall u | u in net :: u.round != x.round || u.owner != x.owner
    ensures NetOk(cfg, net + {x})
  {
    hide WellFormed;
    forall v | v in net + {x} ensures WellFormed(cfg, v) {}
  }

  lemma HonestGrows(cfg: Config, net: set<Vertex>, x: Vertex)
    requires HonestResolve(cfg, net)
    requires x.owner in cfg.faulty || (Resolves(net, x.parents) && Descends(x) && Spaced(x))
    ensures HonestResolve(cfg, net + {x})
  {
    hide Resolves;
    forall v | v in net + {x} && v.owner !in cfg.faulty
      ensures Resolves(net + {x}, v.parents) && Descends(v) && Spaced(v)
    {
      ResolvesMono(net, net + {x}, v.parents);
    }
  }

  lemma PartGrows(cfg: Config, net: set<Vertex>, grown: set<Vertex>, g: Graph)
    requires NetOk(cfg, grown) && net <= grown && Part(g, net)
    ensures Part(g, grown)
  {
    NetUnique(cfg, grown);
  }

  lemma CommitsKept(cfg: Config, net: set<Vertex>, grown: set<Vertex>, history: seq<Commit>)
    requires cfg.keys != [] && NetOk(cfg, grown) && net <= grown
    requires forall c | c in history :: CommitOk(cfg, net, c)
    ensures forall c | c in history :: CommitOk(cfg, grown, c)
  {
    forall c | c in history ensures CommitOk(cfg, grown, c) { PartGrows(cfg, net, grown, c.view); }
  }

  /** A node is untouched by vertices of other senders. */
  lemma NodeKept(cfg: Config, net: set<Vertex>, grown: set<Vertex>, k: Key, n: Node)
    requires NetOk(cfg, grown) && net <= grown && NodeOk(cfg, net, k, n)
    requires forall v | v in grown && v !in net :: v.owner != k
    ensures NodeOk(cfg, grown, k, n)
  {
    PartGrows(cfg, net, grown, n.graph);
    forall r | 1 <= r <= n.round ensures HasEmitted(grown, k, r) {
      assert HasEmitted(net, k, r);
    }
  }

  // ------------------------------------------------- steps keep the invariant

  lemma MisbehaveKeeps(cfg: Config, s: System, v: Vertex, t: System)
    requires ConfigOk(cfg) && Inv(cfg, s) && NextMisbehave(cfg, s, v, t)
    ensures Inv(cfg, t)
  {
    hide WellFormed, ViewOk, Ordered;
    NetGrows(cfg, s.net, v);
    HonestGrows(cfg, s.net, v);
    forall k | k in t.nodes ensures NodeOk(cfg, t.net, k, t.nodes[k]) { NodeKept(cfg, s.net, t.net, k, s.nodes[k]); }
    CommitsKept(cfg, s.net, t.net, s.history);
  }

  lemma OfferedSize(g: Graph, r: Round)
    requires SlotsOk(g) && HashUnique(Stored(g))
    ensures |Offered(g, r)| == |Row(g, r)|
  {
    var row := Row(g, r);
    var digest: Key -> VertexHash := (k: Key) => if k in row then row[k].hash else Digest(0, 0, Block([]), map[]);
    forall j, k | j in row.Keys && k in row.Keys && digest(j) == digest(k) ensures j == k {
      assert r in g && row[j] in Stored(g) && row[k] in Stored(g);
    }
    ImageSize<Key, VertexHash>(digest, row.Keys);
    assert Image<Key, VertexHash>(digest, row.Keys) == Offered(g, r).Keys;
    assert |row.Keys| == |row| && |Offered(g, r).Keys| == |Offered(g, r)|;
  }

  /** What a running node broadcasts is well formed, and its parents were broadcast: by quorum, it has
      enough strong parents. */
  lemma CreatedWellFormed(cfg: Config, net: set<Vertex>, g: Graph, en: Enumeration, k: Key, round: Round, block: Block)
    requires ConfigOk(cfg) && NetOk(cfg, net) && ViewOk(g, en, net) && k in Members(cfg)
    requires round > 1 && |Row(g, round - 1)| >= cfg.Quorum()
    ensures WellFormed(cfg, CreatedVertex(g, en, k, round, block))
    ensures var x := CreatedVertex(g, en, k, round, block); Resolves(net, x.parents) && Descends(x) && Spaced(x)
  {
    hide CreatedVertex, Irredundant, Offered, Stored, Enumerates;
    ViewCoherent(g, en, net);
    CreatedIs(g, en, k, round, block);
    OfferedSize(g, round - 1);
    CreatedSpaced(g, en, k, round, block);
    ResolvesMono(Stored(g), net, CreatedVertex(g, en, k, round, block).parents);
  }

  /** The node that ran, after its batch was received. */
  lemma ReceivedNode(cfg: Config, net: set<Vertex>, k: Key, n: Node, buffer: seq<Vertex>, blocks: seq<Block>,
                     wave: Wave)
    requires ConfigOk(cfg) && NetOk(cfg, net) && NodeOk(cfg, net, k, n)
    requires forall v | v in buffer :: v in net
    ensures NodeOk(cfg, net, k, Node(k, n.round, Receive(n.graph, n.round, buffer), blocks, wave))
  {
    hide ViewOk, Receive, Stored;
    var g := Receive(n.graph, n.round, buffer);
    ReceiveKeeps(cfg, net, n.graph, n.round, buffer);
    forall r | 1 <= r < n.round ensures |Row(g, r)| >= cfg.Quorum() { KeySubset(Row(n.graph, r), Row(g, r)); }
  }

  lemma AdvancedNode(cfg: Config, net: set<Vertex>, k: Key, n: Node, x: Vertex, blocks: seq<Block>, wave: Wave)
    requires NetOk(cfg, net + {x}) && NodeOk(cfg, net, k, n)
    requires QuorumReached(n.graph, n.round, cfg.Quorum())
    requires x.owner == k && x.round == n.round + 1
    ensures NodeOk(cfg, net + {x}, k, Node(k, n.round + 1, n.graph, blocks, wave))
  {
    hide ViewOk, Stored, NetOk;
    var grown := net + {x};
    PartGrows(cfg, net, grown, n.graph);
    forall r | 1 <= r <= n.round + 1 ensures HasEmitted(grown, k, r) {
      if r <= n.round {
        assert HasEmitted(net, k, r);
      } else {
        assert x in grown;
      }
    }
  }

  lemma NodeFacts(cfg: Config, net: set<Vertex>, k: Key, n: Node)
    requires NodeOk(cfg, net, k, n)
    ensures n.id == k && n.round > 0 && Part(n.graph, net)
    ensures forall v | v in net && v.owner == k :: v.round <= n.round
  {
  }

  /** What an iteration broadcasts can join the network, and leaves its node in order. */
  lemma IterateKeeps(cfg: Config, net: set<Vertex>, who: Key, n: Node, buffer: seq<Vertex>, blocks: seq<Block>,
                     order: Enumeration)
    requires ConfigOk(cfg) && NetOk(cfg, net) && HonestResolve(cfg, net) && NodeOk(cfg, net, who, n)
    requires who in Members(cfg)
    requires (forall v | v in buffer :: v in net) && Enumerates(order, Receive(n.graph, n.round, buffer))
    ensures var e := Iterate(cfg, n, buffer, blocks, order);
            && NetOk(cfg, net + Sent(e)) && HonestResolve(cfg, net + Sent(e)) && NodeOk(cfg, net + Sent(e), who, e.node)
            && (forall v | v in Sent(e) :: v.owner == who)
  {
    hide WellFormed, ViewOk, Ordered, NetOk, NodeOk, Receive, CreatedVertex, Enumerates, HonestResolve;
    NodeFacts(cfg, net, who, n);
    var g := Receive(n.graph, n.round, buffer);
    var e := Iterate(cfg, n, buffer, blocks, order);
    var received := Node(who, n.round, g, e.node.blocks, e.node.decidedWave);
    ReceivedNode(cfg, net, who, n, buffer, e.node.blocks, e.node.decidedWave);
    if e.sent.Some? {
      var all := n.blocks + blocks;
      var x := CreatedVertex(g, order, who, n.round + 1, all[|all| - 1]);
      CreatedJoins(cfg, net, who, received, order, all[|all| - 1]);
      AdvancedNode(cfg, net, who, received, x, e.node.blocks, e.node.decidedWave);
      assert Sent(e) == {x};
    } else {
      assert net + Sent(e) == net;
    }
  }

  lemma CreatedJoins(cfg: Config, net: set<Vertex>, k: Key, n: Node, order: Enumeration, block: Block)
    requires ConfigOk(cfg) && NetOk(cfg, net) && HonestResolve(cfg, net) && NodeOk(cfg, net, k, n) && k in Members(cfg)
    requires QuorumReached(n.graph, n.round, cfg.Quorum()) && Enumerates(order, n.graph)
    ensures var x := CreatedVertex(n.graph, order, k, n.round + 1, block);
            NetOk(cfg, net + {x}) && HonestResolve(cfg, net + {x}) && x.owner == k && x.round == n.round + 1
  {
    hide WellFormed, View, NetOk, CreatedVertex, Irredundant, Stored, Enumerates, HonestResolve, Resolves;
    var x := CreatedVertex(n.graph, order, k, n.round + 1, block);
    ViewCoherent(n.graph, order, net);
    CreatedIs(n.graph, order, k, n.round + 1, block);
    CreatedWellFormed(cfg, net, n.graph, order, k, n.round + 1, block);
    NetGrows(cfg, net, x);
    HonestGrows(cfg, net, x);
  }

  lemma RecordedOk(cfg: Config, net: set<Vertex>, who: Key, n: Node, buffer: seq<Vertex>, blocks: seq<Block>,
                   order: Enumeration)
    requires ConfigOk(cfg) && NetOk(cfg, net) && NodeOk(cfg, net, who, n)
    requires (forall v | v in buffer :: v in net) && Enumerates(order, Receive(n.graph, n.round, buffer))
    ensures forall c | c in Recorded(n, Receive(n.graph, n.round, buffer), order,
            Iterate(cfg, n, buffer, blocks, order)) :: CommitOk(cfg, net, c)
  {
    hide View, Ordered, NetOk, Receive, CreatedVertex, Enumerates;
    ReceiveKeeps(cfg, net, n.graph, n.round, buffer);
  }

  lemma RunKeeps(cfg: Config, s: System, who: Key, buffer: seq<Vertex>, blocks: seq<Block>, order: Enumeration,
                 t: System)
    requires ConfigOk(cfg) && Inv(cfg, s) && NextRun(cfg, s, who, buffer, blocks, order, t)
    ensures Inv(cfg, t)
  {
    hide NetOk, HonestResolve, NodeOk, Receive, Iterate, Recorded, CommitOk, Sent, Enumerates;
    var n := s.nodes[who];
    IterateKeeps(cfg, s.net, who, n, buffer, blocks, order);
    forall k | k in t.nodes && k != who ensures NodeOk(cfg, t.net, k, t.nodes[k]) {
      NodeKept(cfg, s.net, t.net, k, s.nodes[k]);
    }
    RecordedOk(cfg, s.net, who, n, buffer, blocks, order);
    CommitsKept(cfg, s.net, t.net, t.history);
  }

  /** The system invariant holds throughout every run. */
  lemma {:induction false} RunInv(cfg: Config, run: seq<System>, actions: seq<Action>, i: nat)
    requires ConfigOk(cfg) && IsRun(cfg, run, actions) && i < |run|
    ensures Inv(cfg, run[i])
  {
    hide Inv, Init, NextRun, NextMisbehave;
    if i == 0 {
      InitInv(cfg, run[0]);
    } else {
      RunInv(cfg, run, actions, i - 1);
      assert Next(cfg, run[i - 1], actions[i - 1], run[i]);
      match actions[i - 1]
      case Run(who, buffer, blocks, order) => RunKeeps(cfg, run[i - 1], who, buffer, blocks, order, run[i]);
      case Misbehave(v) => MisbehaveKeeps(cfg, run[i - 1], v, run[i]);
    }
  }

  /** What the class asks before an iteration holds at every node in every state of every run, for every
      batch of broadcast vertices: the searches it starts end. */
  lemma IterationsEnd(cfg: Config, run: seq<System>, actions: seq<Action>, i: nat, k: Key, buffer: seq<Vertex>,
                      order: Enumeration)
    requires ConfigOk(cfg) && IsRun(cfg, run, actions) && i < |run| && k in run[i].nodes
    requires forall v | v in buffer :: v in run[i].net
    ensures SlotsOk(run[i].nodes[k].graph)
    ensures Searchable(Receive(run[i].nodes[k].graph, run[i].nodes[k].round, buffer), order)
  {
    hide IsRun, NetOk, Stored, Receive, Searchable;
    RunInv(cfg, run, actions, i);
    var n := run[i].nodes[k];
    assert NodeOk(cfg, run[i].net, k, n);
    ReceiveKeeps(cfg, run[i].net, n.graph, n.round, buffer);
    var g := Receive(n.graph, n.round, buffer);
    var rank: map<Vertex, nat> :| Ranks(Stored(g), rank);
    RankedSearchable(g, order, rank);
  }

  // ------------------------------------------------- the history

  ghost predicate HasCommitted(history: seq<Commit>, k: Key, w: Wave) {
    exists p :: 0 <= p < |history| && history[p].node == k && history[p].wave == w
  }

  /** Each node commits waves in increasing order, once each, all of them over by now, and its decided
      wave is the last of them. */
  ghost predicate HistoryOk(s: System) {
    && (forall p | 0 <= p < |s.history| ::
          && s.history[p].node in s.nodes
          && s.history[p].wave <= s.nodes[s.history[p].node].decidedWave
          && MAX_WAVE * s.history[p].wave < s.nodes[s.history[p].node].round)
    && (forall p, q | 0 <= p < q < |s.history| && s.history[p].node == s.history[q].node ::
          s.history[p].wave < s.history[q].wave)
    && (forall k | k in s.nodes :: s.nodes[k].decidedWave == 0 || HasCommitted(s.history, k, s.nodes[k].decidedWave))
  }

  lemma RunKeepsHistory(cfg: Config, s: System, who: Key, buffer: seq<Vertex>, blocks: seq<Block>, order: Enumeration,
                        t: System)
    requires cfg.keys != [] && HistoryOk(s) && NextRun(cfg, s, who, buffer, blocks, order, t) && s.nodes[who].id == who
    ensures HistoryOk(t)
  {
    hide Receive, Ordered, CreatedVertex, HasCommitted, Enumerates, QuorumReached;
    var n := s.nodes[who];
    var e := Iterate(cfg, n, buffer, blocks, order);
    forall k, w | HasCommitted(s.history, k, w) ensures HasCommitted(t.history, k, w) {
      HasCommittedGrows(s.history, Recorded(n, Receive(n.graph, n.round, buffer), order, e), k, w);
    }
    if e.committed.Some? {
      assert MAX_WAVE * (n.round / MAX_WAVE) == n.round;
      HasCommittedLast(t.history);
    } else {
      assert t.history == s.history;
    }
  }

  lemma HasCommittedGrows(history: seq<Commit>, more: seq<Commit>, k: Key, w: Wave)
    requires HasCommitted(history, k, w)
    ensures HasCommitted(history + more, k, w)
  {
    var p :| 0 <= p < |history| && history[p].node == k && history[p].wave == w;
    assert (history + more)[p] == history[p];
  }

  lemma HasCommittedLast(history: seq<Commit>)
    requires history != []
    ensures HasCommitted(history, history[|history| - 1].node, history[|history| - 1].wave)
  {
  }

  lemma {:induction false} RunHistory(cfg: Config, run: seq<System>, actions: seq<Action>, i: nat)
    requires ConfigOk(cfg) && IsRun(cfg, run, actions) && i < |run|
    ensures HistoryOk(run[i])
  {
    hide HistoryOk, NextRun, NodeOk, NetOk, CommitOk;
    if i == 0 {
      InitHistory(cfg, run[0]);
    } else {
      RunHistory(cfg, run, actions, i - 1);
      RunInv(cfg, run, actions, i - 1);
      assert Next(cfg, run[i - 1], actions[i - 1], run[i]);
      match actions[i - 1]
      case Run(who, buffer, blocks, order) =>
        RunnerIs(cfg, run[i - 1], who, buffer, blocks, order, run[i]);
        RunKeepsHistory(cfg, run[i - 1], who, buffer, blocks, order, run[i]);
      case Misbehave(v) => MisbehaveKeepsHistory(run[i - 1], run[i]);
    }
  }

  lemma InitHistory(cfg: Config, s: System)
    requires Init(cfg, s)
    ensures HistoryOk(s)
  {
  }

  lemma MisbehaveKeepsHistory(s: System, t: System)
    requires HistoryOk(s) && t.nodes == s.nodes && t.history == s.history
    ensures HistoryOk(t)
  {
  }

  lemma RunnerIs(cfg: Config, s: System, who: Key, buffer: seq<Vertex>, blocks: seq<Block>, order: Enumeration,
                 t: System)
    requires cfg.keys != [] && Inv(cfg, s) && NextRun(cfg, s, who, buffer, blocks, order, t)
    ensures who in s.nodes && s.nodes[who].id == who
  {
    NodeFacts(cfg, s.net, who, s.nodes[who]);
  }
}
