/** Inputs on which logs fork: with the delivery test as written, in a whole run; and, with either
    orientation of the test, for no other reason than the order in which two nodes iterate a round. */
module Forks {
  import opened Orders
  import opened Vertices
  import opened Graphs
  import opened Links
  import opened Enumerations
  import opened Searches
  import opened Ordering
  import opened WeakEdges
  import opened Agreement
  import opened Nodes
  import opened Systems
  import opened AsWritten
  import opened FullGraphs

  // ------------------------------------------------- one iteration at each node, round by round

  ghost function Batch(r: Round, ks: seq<Key>): seq<Vertex>
    requires r > 0
  {
    seq(|ks|, i requires 0 <= i < |ks| => FullVertex(r, ks[i]))
  }

  /** All rounds below `r`, and of round `r` the vertices of `ks`. */
  ghost function PartGraph(r: Round, ks: set<Key>): Graph
    requires r > 1
  {
    if ks == {} then FullGraph(r - 1) else FullGraph(r - 1)[r := PartRow(r, ks)]
  }

  ghost function PartRow(r: Round, ks: set<Key>): map<Key, Vertex>
    requires r > 0
  {
    map k | k in ks :: FullVertex(r, k)
  }

  lemma PartRowStep(r: Round, ks: set<Key>, k: Key)
    requires r > 0
    ensures PartRow(r, ks)[k := FullVertex(r, k)] == PartRow(r, ks + {k}) && PartRow(r, {}) == map[]
  {
    hide FullVertex;
  }

  lemma Overwrite(g: Graph, r: Round, a: map<Key, Vertex>, b: map<Key, Vertex>)
    ensures g[r := a][r := b] == g[r := b]
  {
  }

  lemma PartStep(r: Round, ks: set<Key>, k: Key)
    requires r > 1
    ensures Insert(PartGraph(r, ks), FullVertex(r, k)) == PartGraph(r, ks + {k})
  {
    hide FullVertex, FullRow, PartRow;
    FullVertexIs(r, k);
    PartRowStep(r, ks, k);
    assert k in ks + {k};
    var g := FullGraph(r - 1);
    assert r !in g;
    Overwrite(g, r, PartRow(r, ks), PartRow(r, ks + {k}));
  }

  lemma PartHolds(r: Round, ks: set<Key>)
    requires r > 1
    ensures HasRow(Stored(PartGraph(r, ks)), r - 1)
  {
    hide FullVertex;
    var g, q := PartGraph(r, ks), r - 1;
    assert q in g && g[q] == FullRow(q);
    forall j: Key | j < 4 ensures FullVertex(q, j) in Stored(g) { assert j in g[q] && g[q][j] == FullVertex(q, j); }
  }

  /** A node that holds all rounds below `r` and receives part of round `r`. */
  lemma {:induction false} ReceivePart(r: Round, ks: seq<Key>)
    requires r > 1
    ensures Receive(FullGraph(r - 1), r, Batch(r, ks)) == PartGraph(r, Elements(ks))
    decreases |ks|
  {
    hide FullVertex, FullGraph, PartGraph, Insert, Stored, HasRow, Resolves;
    if ks == [] {
      assert Batch(r, ks) == [] && Elements(ks) == {};
      NoPart(r);
    } else {
      var init, k := ks[..|ks| - 1], ks[|ks| - 1];
      ReceivePart(r, init);
      assert Batch(r, ks)[..|ks| - 1] == Batch(r, init);
      assert ks == init + [k];
      assert Elements(ks) == Elements(init) + {k};
      var before, v := PartGraph(r, Elements(init)), FullVertex(r, k);
      PartHolds(r, Elements(init));
      FullResolves(Stored(before), r, k);
      FullVertexIs(r, k);
      PartStep(r, Elements(init), k);
    }
  }

  lemma NoPart(r: Round)
    requires r > 1
    ensures PartGraph(r, {}) == FullGraph(r - 1)
  {
  }

  lemma WholePart(r: Round)
    requires r > 1
    ensures PartGraph(r, {0, 1, 2, 3}) == FullGraph(r)
    ensures PartGraph(r, {1, 2, 3}) == LateGraph(r)
  {
    hide FullVertex;
    var all, most: set<Key> := {0, 1, 2, 3}, {1, 2, 3};
    assert 1 in all && 1 in most;
    assert PartRow(r, all) == FullRow(r) && PartRow(r, most) == FullRow(r) - {0};
    OneMoreRound(r);
    assert LateGraph(r) == FullGraph(r - 1)[r := FullRow(r)][r := PartRow(r, most)];
  }

  lemma OneMoreRound(r: Round)
    requires r > 1
    ensures FullGraph(r) == FullGraph(r - 1)[r := FullRow(r)]
  {
    hide FullRow;
  }

  const EVERYBODY: seq<Key> := [0, 1, 2, 3]

  /** What a node holds when it enters round `r`, and the batch it then receives. */
  ghost function HeldOnEntry(r: Round): Graph
    requires r > 0
  {
    FullGraph(if r == 1 then 1 else r - 1)
  }

  const CAUSAL: Config := FOUR.(orientation := Causal)

  /** With the test turned round, member 1 receives round 2 in another order than everybody else. */
  ghost function Arrival(cfg: Config, r: Round, k: Key): seq<Key> {
    if cfg == CAUSAL && r == 2 && k == 1 then [2, 1, 0, 3] else EVERYBODY
  }

  /** And so that member iterates round 2 in that order from then on. */
  ghost function OrderOf(cfg: Config, k: Key, g: Graph): Enumeration {
    if cfg == CAUSAL && k == 1 && 2 in g then KeyOrder(g)[2 := [2, 1, 0, 3]] else KeyOrder(g)
  }

  lemma OrderOfFull(cfg: Config, k: Key, r: Round)
    requires r > 0
    ensures Enumerates(OrderOf(cfg, k, FullGraph(r)), FullGraph(r))
  {
    hide FullVertex, Ascending;
    var g := FullGraph(r);
    KeyOrderEnumerates(g);
    if 2 in g {
      assert g[2].Keys == {0, 1, 2, 3};
      assert Lists([2, 1, 0, 3], g[2].Keys);
    }
  }

  ghost function RoundBatch(cfg: Config, r: Round, k: Key): seq<Vertex>
    requires r > 0
  {
    if r == 1 then [] else Batch(r, Arrival(cfg, r, k))
  }

  lemma ReceiveRound(cfg: Config, r: Round, k: Key)
    requires r > 0
    ensures Receive(HeldOnEntry(r), r, RoundBatch(cfg, r, k)) == FullGraph(r)
  {
    hide FullGraph, PartGraph;
    if r > 1 {
      ReceivePart(r, Arrival(cfg, r, k));
      WholePart(r);
      assert Elements(Arrival(cfg, r, k)) == {0, 1, 2, 3};
    }
  }

  lemma OfferedFull(r: Round)
    requires r > 0
    ensures Offered(FullGraph(r), r) == FullParents(r)
  {
    hide FullVertex;
    var row := Row(FullGraph(r), r);
    assert row == FullRow(r);
    forall h ensures h in Digests(row) <==> h in FullParents(r) {
      if h in Digests(row) {
        var k :| k in row && row[k].hash == h;
        assert k == 0 || k == 1 || k == 2 || k == 3;
      }
      if h in FullParents(r) {
        assert row[0].hash == h || row[1].hash == h || row[2].hash == h || row[3].hash == h;
      }
    }
  }

  /** On the full graph a node creates the full vertex of the next round: there is nothing to link weakly. */
  lemma CreatedFull(r: Round, en: Enumeration, k: Key)
    requires r >= 1 && Enumerates(en, FullGraph(r)) && k < 4
    ensures CreatedVertex(FullGraph(r), en, k, r + 1, Block([])) == FullVertex(r + 1, k)
  {
    hide FullGraph, WeakFrom, Stored, Enumerates, FullParents;
    OfferedFull(r);
    var g, x := FullGraph(r), FullVertex(r + 1, k);
    assert x == NewVertex(k, r + 1, Block([]), FullParents(r));
    if r > 1 {
      NothingWeak(r, en, k);
    }
  }

  lemma NothingWeak(r: Round, en: Enumeration, k: Key)
    requires r >= 2 && Enumerates(en, FullGraph(r)) && k < 4
    ensures WeakFrom(FullGraph(r), en, FullVertex(r + 1, k), r - 2) == FullVertex(r + 1, k)
  {
    hide FullGraph, FullVertex, Stored, Enumerates, Reach, Leads, NetOk, Closed, Descending;
    var g, x := FullGraph(r), FullVertex(r + 1, k);
    FullViews(r);
    FullRowsHeld(r, r);
    FullResolves(Stored(g), r + 1, k);
    FullVertexIs(r + 1, k);
    forall v | v in Stored(g) && 1 <= v.round <= r - 2 ensures Leads(Stored(g), x, v, All) {
      FullHolds(r, v);
      forall p: Round, i: Key | v.round <= p < r + 1 && i < 4 ensures FullVertex(p, i) in Stored(g) {
        FullRowsHeld(r, p);
      }
      FullReach(Stored(g), r + 1, k, v.round, v.owner);
      ReachLeads(Stored(g), x, v, All);
    }
    AddsNothing(g, en, x, r - 2);
  }

  // ------------------------------------------------- the runs

  /** What a member commits when it leaves round 4 of the full graph. */
  ghost function FirstCommit(cfg: Config, k: Key): Commit
    requires cfg.keys != []
  {
    var g, en := FullGraph(4), OrderOf(cfg, k, FullGraph(4));
    OrderOfFull(cfg, k, 4);
    var log := Ordered(cfg, g, en, 1);
    Commit(k, 1, g, en, if log.Some? then log.value else [])
  }

  ghost function Decided(r: Round, m: nat, k: Key): Wave {
    if r > 4 || (r == 4 && k < m) then 1 else 0
  }

  ghost function NodeAt(r: Round, m: nat, k: Key): Node
    requires r > 0
  {
    if k < m then Node(k, r + 1, FullGraph(r), [], Decided(r, m, k))
    else Node(k, r, HeldOnEntry(r), [], Decided(r, m, k))
  }

  ghost function HistoryAt(cfg: Config, r: Round, m: nat): seq<Commit>
    requires cfg.keys != []
  {
    if r < 4 then [] else seq(if r == 4 then m else 4, k requires k >= 0 => FirstCommit(cfg, k))
  }

  /** Members 0 to `m - 1` have left round `r`, the others are in it. */
  ghost function StateAt(cfg: Config, r: Round, m: nat): System
    requires cfg.keys != [] && r > 0
  {
    System(map k: Key | 0 <= k < 4 :: NodeAt(r, m, k), Stored(FullGraph(r)) + Firsts(r + 1, m), HistoryAt(cfg, r, m))
  }

  ghost function Firsts(r: Round, m: nat): set<Vertex>
    requires r > 0
  {
    set k: Key | 0 <= k < m :: FullVertex(r, k)
  }

  lemma StartsThere(cfg: Config)
    requires cfg == FOUR || cfg == CAUSAL
    ensures Init(cfg, StateAt(cfg, 1, 0))
  {
    hide Stored, FullGraph;
    var s := StateAt(cfg, 1, 0);
    assert forall k: Key :: k in FOUR.keys <==> k < 4;
    assert FullGraph(1) == map[1 := GenesisRow(FOUR.keys)] by { FirstGraph(); }
    forall k | k in s.nodes ensures s.nodes[k] == InitialNode(cfg, k) {}
    forall v ensures v in s.net <==> v in GenesisVertices(FOUR.keys) {
      FullHolds(1, v);
      GenesisIs(FOUR, v);
    }
  }

  lemma FirstGraph()
    ensures FullGraph(1) == map[1 := GenesisRow(FOUR.keys)]
  {
    assert forall k: Key :: k in FOUR.keys <==> k < 4;
    assert FullRow(1) == GenesisRow(FOUR.keys);
    assert FullGraph(1) == map[1 := FullRow(1)];
  }

  lemma NextRoundStarts(cfg: Config, r: Round)
    requires cfg.keys != [] && r > 0
    ensures StateAt(cfg, r, 4) == StateAt(cfg, r + 1, 0)
  {
    hide FullVertex, Stored, FullGraph, FirstCommit;
    var s, t := StateAt(cfg, r, 4), StateAt(cfg, r + 1, 0);
    assert s.nodes == t.nodes && s.history == t.history;
    forall v ensures v in s.net <==> v in t.net {
      FullHolds(r, v);
      FullHolds(r + 1, v);
      var q := r + 1;
      if v in t.net && v.round == q {
        assert v == FullVertex(q, v.owner);
      }
      forall k: Key | k < 4 ensures FullVertex(q, k).round == q && FullVertex(q, k).owner == k { FullVertexIs(q, k); }
    }
  }

  ghost function Move(cfg: Config, r: Round, k: Key): Action
    requires r > 0
  {
    Run(k, RoundBatch(cfg, r, k), [Block([])], OrderOf(cfg, k, FullGraph(r)))
  }

  lemma BatchBroadcast(r: Round, ks: seq<Key>)
    requires r > 0 && forall k | k in ks :: k < 4
    ensures forall v | v in Batch(r, ks) :: v in Stored(FullGraph(r))
  {
    hide FullVertex, Stored, FullGraph;
    FullRowsHeld(r, r);
    forall v | v in Batch(r, ks) ensures v in Stored(FullGraph(r)) {
      var i :| 0 <= i < |ks| && v == FullVertex(r, ks[i]);
      assert ks[i] in ks;
    }
  }

  lemma FullRowSize(r: Round)
    requires r > 0
    ensures r in FullGraph(r) && FullGraph(r)[r] == FullRow(r) && |FullRow(r)| == 4
    ensures r > 1 ==> r in LateGraph(r) && |LateGraph(r)[r]| == 3
  {
    hide FullVertex;
    assert FullRow(r).Keys == {0, 1, 2, 3} && (FullRow(r) - {0}).Keys == {1, 2, 3};
    assert |FullRow(r).Keys| == 4 && |(FullRow(r) - {0}).Keys| == 3;
  }

  /** An iteration that receives one block and finds a quorum. */
  lemma Advances(cfg: Config, n: Node, buffer: seq<Vertex>, block: Block, order: Enumeration, g: Graph)
    requires cfg.keys != [] && n.round > 0 && n.blocks == []
    requires Receive(n.graph, n.round, buffer) == g && Enumerates(order, g) && QuorumReached(g, n.round, cfg.Quorum())
    ensures var committed := if n.round % MAX_WAVE == 0 then Ordered(cfg, g, order, n.round / MAX_WAVE) else None;
            Iterate(cfg, n, buffer, [block], order) ==
            Effect(Node(n.id, n.round + 1, g, [], if committed.Some? then n.round / MAX_WAVE else n.decidedWave),
                   Some(CreatedVertex(g, order, n.id, n.round + 1, block)), committed)
  {
    hide Receive, Ordered, CreatedVertex, Enumerates, QuorumReached;
    assert n.blocks + [block] == [block] && [block][..0] == [];
  }

  lemma FourQuorum(cfg: Config)
    requires cfg == FOUR || cfg == CAUSAL
    ensures cfg.Quorum() == 3
  {
  }

  /** What an iteration in round `r` does at a node that receives all of it. */
  lemma FullIterate(cfg: Config, r: Round, k: Key)
    requires (cfg == FOUR || cfg == CAUSAL) && 1 <= r <= 7 && k < 4
    ensures Enumerates(OrderOf(cfg, k, FullGraph(r)), FullGraph(r))
    ensures Receive(HeldOnEntry(r), r, RoundBatch(cfg, r, k)) == FullGraph(r)
    ensures Iterate(cfg, NodeAt(r, k, k), RoundBatch(cfg, r, k), [Block([])], OrderOf(cfg, k, FullGraph(r))) ==
            Effect(NodeAt(r, k + 1, k), Some(FullVertex(r + 1, k)),
                   if r == 4 then Some(FirstCommit(cfg, k).log) else None)
  {
    hide FullGraph, FullVertex, FullRow, HeldOnEntry, RoundBatch, Receive, CreatedVertex, Enumerates, OrderOf,
      OrderVertices, LeadersToCommit, Commits, Iterate, LateGraph, Quorums.QuorumSize;
    var en := OrderOf(cfg, k, FullGraph(r));
    OrderOfFull(cfg, k, r);
    ReceiveRound(cfg, r, k);
    FullRowSize(r);
    FourQuorum(cfg);
    Advances(cfg, NodeAt(r, k, k), RoundBatch(cfg, r, k), Block([]), en, FullGraph(r));
    CreatedFull(r, en, k);
    assert r % MAX_WAVE == 0 <==> r == 4;
    if r == 4 {
      FourCommits(4, FullGraph(4), en, 1);
      SameCommits(cfg, FullGraph(4), en, 1);
    }
  }

  /** The commit rule does not look at the orientation. */
  lemma SameCommits(cfg: Config, g: Graph, en: Enumeration, w: Wave)
    requires (cfg == FOUR || cfg == CAUSAL) && w > 0
    ensures Commits(cfg, g, en, w) <==> Commits(FOUR, g, en, w)
  {
  }

  lemma FullMove(cfg: Config, r: Round, m: Key)
    requires (cfg == FOUR || cfg == CAUSAL) && 1 <= r <= 7 && m < 4
    ensures Next(cfg, StateAt(cfg, r, m), Move(cfg, r, m), StateAt(cfg, r, m + 1))
  {
    hide FullGraph, FullVertex, HeldOnEntry, Receive, Iterate, Enumerates, OrderOf, Stored, FirstCommit, HistoryAt,
      Batch, Firsts, Recorded;
    var s, t := StateAt(cfg, r, m), StateAt(cfg, r, m + 1);
    FullIterate(cfg, r, m);
    if r > 1 {
      BatchBroadcast(r, Arrival(cfg, r, m));
    }
    assert s.nodes[m := NodeAt(r, m + 1, m)] == t.nodes;
    FirstsGrow(r + 1, m);
    var e := Iterate(cfg, NodeAt(r, m, m), RoundBatch(cfg, r, m), [Block([])], OrderOf(cfg, m, FullGraph(r)));
    FirstRecorded(cfg, r, m, e);
  }

  lemma FirstsGrow(r: Round, m: Key)
    requires r > 0
    ensures Firsts(r, m) + {FullVertex(r, m)} == Firsts(r, m + 1)
  {
    hide FullVertex;
  }

  lemma FirstRecorded(cfg: Config, r: Round, m: Key, e: Effect)
    requires cfg.keys != [] && 1 <= r <= 7 && m < 4
    requires e.committed == if r == 4 then Some(FirstCommit(cfg, m).log) else None
    ensures HistoryAt(cfg, r, m) + Recorded(NodeAt(r, m, m), FullGraph(r), OrderOf(cfg, m, FullGraph(r)), e) ==
            HistoryAt(cfg, r, m + 1)
  {
    hide FullGraph, OrderOf, Ordered, HeldOnEntry;
  }

  lemma LastReceive(w: Wave, ks: seq<Key>, g: Graph)
    requires w > 0 && ((ks == EVERYBODY && g == FullGraph(4 * w)) || (ks == [1, 2, 3] && g == LateGraph(4 * w)))
    ensures Receive(FullGraph(4 * w - 1), 4 * w, Batch(4 * w, ks)) == g && QuorumReached(g, 4 * w, 3)
  {
    hide FullGraph, LateGraph, FullVertex, PartGraph, FullRow, Receive;
    ReceivePart(4 * w, ks);
    WholePart(4 * w);
    FullRowSize(4 * w);
    assert Elements(ks) == if ks == EVERYBODY then {0, 1, 2, 3} else {1, 2, 3};
  }

  lemma IsStep(cfg: Config, s: System, who: Key, buffer: seq<Vertex>, blocks: seq<Block>, order: Enumeration, g: Graph)
    returns (t: System)
    requires cfg.keys != [] && who in s.nodes && s.nodes[who].round > 0 && forall v | v in buffer :: v in s.net
    requires g == Receive(s.nodes[who].graph, s.nodes[who].round, buffer) && Enumerates(order, g)
    ensures Next(cfg, s, Run(who, buffer, blocks, order), t)
    ensures t.history == s.history + Recorded(s.nodes[who], g, order, Iterate(cfg, s.nodes[who], buffer, blocks, order))
    ensures s.net <= t.net && forall j | j in s.nodes && j != who :: j in t.nodes && t.nodes[j] == s.nodes[j]
  {
    hide Receive, Iterate, Enumerates, Recorded;
    var n := s.nodes[who];
    var e := Iterate(cfg, n, buffer, blocks, order);
    t := System(s.nodes[who := e.node], s.net + Sent(e), s.history + Recorded(n, g, order, e));
  }

  /** In the last round of wave `w` a node that receives a quorum commits; what it holds is `g`. */
  lemma LastMove(cfg: Config, s: System, k: Key, w: Wave, ks: seq<Key>, g: Graph, en: Enumeration) returns (t: System)
    requires (cfg == FOUR || cfg == CAUSAL) && w > 0 && Enumerates(en, g)
    requires k < 4 && k in s.nodes && s.nodes[k] == NodeAt(4 * w, 0, k) && StateAt(cfg, 4 * w, 0).net <= s.net
    requires (ks == EVERYBODY && g == FullGraph(4 * w)) || (ks == [1, 2, 3] && g == LateGraph(4 * w))
    ensures Next(cfg, s, Run(k, Batch(4 * w, ks), [Block([])], en), t)
    ensures Commits(cfg, g, en, w)
    ensures t.history == s.history + [Commit(k, w, g, en, Ordered(cfg, g, en, w).value)]
    ensures s.net <= t.net && forall j | j in s.nodes && j != k :: j in t.nodes && t.nodes[j] == s.nodes[j]
  {
    hide FullGraph, LateGraph, Batch, Stored, Enumerates, CreatedVertex, OrderVertices, Commits, Receive, Iterate,
      LeadersToCommit, Quorums.QuorumSize, QuorumReached, Next, WaveLeader, HistoryAt;
    var n := s.nodes[k];
    assert n == Node(k, 4 * w, FullGraph(4 * w - 1), [], Decided(4 * w, 0, k));
    LastReceive(w, ks, g);
    BatchBroadcast(4 * w, ks);
    FourCommits(4 * w, g, en, w);
    SameCommits(cfg, g, en, w);
    FourQuorum(cfg);
    Advances(cfg, n, Batch(4 * w, ks), Block([]), en, g);
    t := IsStep(cfg, s, k, Batch(4 * w, ks), [Block([])], en, g);
  }

  /** The first iterations: round after round, each member in turn. */
  ghost function Prologue(cfg: Config, i: nat): System
    requires cfg.keys != []
  {
    StateAt(cfg, 1 + i / 4, i % 4)
  }

  lemma PrologueStep(cfg: Config, i: nat)
    requires (cfg == FOUR || cfg == CAUSAL) && i < 28
    ensures Next(cfg, Prologue(cfg, i), Move(cfg, 1 + i / 4, i % 4), Prologue(cfg, i + 1))
  {
    hide StateAt, Next, Move;
    FullMove(cfg, 1 + i / 4, i % 4);
    if i % 4 == 3 {
      NextRoundStarts(cfg, 1 + i / 4);
    }
  }

  /** Up to wave `w`'s last round everybody receives everything; then members 0 and 1 receive what `ks`
      and `ls` say and iterate their rounds as `en` and `em` say. */
  lemma TwoCommits(cfg: Config, w: Wave, ks: seq<Key>, g: Graph, en: Enumeration, ls: seq<Key>, h: Graph,
                   em: Enumeration)
    returns (run: seq<System>, actions: seq<Action>)
    requires (cfg == FOUR || cfg == CAUSAL) && 1 <= w <= 2 && Enumerates(en, g) && Enumerates(em, h)
    requires (ks == EVERYBODY && g == FullGraph(4 * w)) || (ks == [1, 2, 3] && g == LateGraph(4 * w))
    requires (ls == EVERYBODY && h == FullGraph(4 * w)) || (ls == [1, 2, 3] && h == LateGraph(4 * w))
    ensures IsRun(cfg, run, actions) && Commits(cfg, g, en, w) && Commits(cfg, h, em, w)
    ensures Commit(0, w, g, en, Ordered(cfg, g, en, w).value) in run[|actions|].history
    ensures Commit(1, w, h, em, Ordered(cfg, h, em, w).value) in run[|actions|].history
  {
    hide StateAt, Next, Move, FullGraph, LateGraph, FullVertex, Commits, Ordered, Enumerates, Init, Batch;
    var n := 16 * w - 4;
    var start := Prologue(cfg, n);
    LastState(cfg, w);
    var mid := LastMove(cfg, start, 0, w, ks, g, en);
    var end := LastMove(cfg, mid, 1, w, ls, h, em);
    run := seq(n + 1, i requires 0 <= i <= n => Prologue(cfg, i)) + [mid, end];
    actions := seq(n, i requires 0 <= i < n => Move(cfg, 1 + i / 4, i % 4)) +
      [Run(0, Batch(4 * w, ks), [Block([])], en), Run(1, Batch(4 * w, ls), [Block([])], em)];
    StartsThere(cfg);
    forall i | 0 <= i < |actions| ensures Next(cfg, run[i], actions[i], run[i + 1]) {
      if i < n {
        PrologueStep(cfg, i);
      }
    }
  }

  lemma LastState(cfg: Config, w: Wave)
    requires cfg.keys != [] && w > 0
    ensures var s := Prologue(cfg, 16 * w - 4);
            s == StateAt(cfg, 4 * w, 0) && forall k: Key | k < 4 :: k in s.nodes && s.nodes[k] == NodeAt(4 * w, 0, k)
  {
    assert 1 + (16 * w - 4) / 4 == 4 * w && (16 * w - 4) % 4 == 0;
  }

  // ------------------------------------------------- the test as written

  /** With the delivery test as written, total order fails in a run of four members that all run this
      code, receive only what was broadcast and iterate their rounds by ascending key: two of them commit
      the same wave, and neither log is a prefix of the other. */
  lemma WrittenLogsFork() returns (run: seq<System>, actions: seq<Action>, c: Commit, d: Commit)
    ensures ConfigOk(FOUR) && FOUR.orientation.Written? && FOUR.faulty == {} && IsRun(FOUR, run, actions)
    ensures c in run[|actions|].history && d in run[|actions|].history && c.node != d.node && c.wave == d.wave
    ensures Compatible(c.order, d.order)
    ensures !(c.log <= d.log) && !(d.log <= c.log)
  {
    hide FullGraph, LateGraph, Commits, OrderVertices, LeadersToCommit, Enumerates, Compatible, KeyOrder, IsRun;
    var g, h := LateGraph(4), FullGraph(4);
    KeyOrderEnumerates(g);
    KeyOrderEnumerates(h);
    run, actions := TwoCommits(FOUR, 1, [1, 2, 3], g, KeyOrder(g), EVERYBODY, h, KeyOrder(h));
    LogsApart();
    c := Commit(0, 1, g, KeyOrder(g), Ordered(FOUR, g, KeyOrder(g), 1).value);
    d := Commit(1, 1, h, KeyOrder(h), Ordered(FOUR, h, KeyOrder(h), 1).value);
    KeyOrdersCompatible(g, h);
  }

  /** What the two views of round 4 output as written. */
  lemma LogsApart()
    ensures ConfigOk(FOUR)
    ensures var g, h := LateGraph(4), FullGraph(4);
            && Enumerates(KeyOrder(g), g) && Enumerates(KeyOrder(h), h)
            && Commits(FOUR, g, KeyOrder(g), 1) && Commits(FOUR, h, KeyOrder(h), 1)
            && var a, b := Ordered(FOUR, g, KeyOrder(g), 1).value, Ordered(FOUR, h, KeyOrder(h), 1).value;
               !(a <= b) && !(b <= a)
  {
    hide HeldDescendant, Commits, Ordered, NetOk, Part, FullVertex, FullGraph, LateGraph, Oldest, Enumerates, KeyOrder,
      Before, Stored;
    var net, g, h := Stored(FullGraph(4)), LateGraph(4), FullGraph(4);
    FullViews(4);
    KeyOrderEnumerates(g);
    KeyOrderEnumerates(h);
    FourOldest(g, KeyOrder(g));
    FourOldest(h, KeyOrder(h));
    WrittenPrefixIff(FOUR, net, g, KeyOrder(g), 1, h, KeyOrder(h), 1);
    WrittenPrefixIff(FOUR, net, h, KeyOrder(h), 1, g, KeyOrder(g), 1);
    var missed, last := FullVertex(4, 0), FullVertex(4, 1);
    FourDescends(h, 0);
    FourDescends(h, 1);
    FourDescends(g, 1);
    FullVertexIs(4, 0);
    FullHolds(4, missed);
    assert missed !in Stored(g);
    assert HeldDescendant(g, FullVertex(1, 1), last) && HeldDescendant(h, FullVertex(1, 1), missed);
    FirstByKey(h);
  }

  lemma FirstByKey(h: Graph)
    requires h == FullGraph(4)
    ensures !Before(KeyOrder(h), FullVertex(4, 1), FullVertex(4, 0))
  {
    hide FullVertex, Ascending;
    FullVertexIs(4, 0);
    FullVertexIs(4, 1);
    AscendingIncreasing(h[4].Keys);
  }

  lemma FourOldest(g: Graph, en: Enumeration)
    requires (g == FullGraph(4) || g == LateGraph(4)) && Enumerates(en, g)
    ensures Commits(FOUR, g, en, 1) && Oldest(FOUR, g, en, 1) == FullVertex(1, 1)
  {
    hide Linkers, FullGraph, LateGraph, FullVertex, Enumerates;
    FourCommits(4, g, en, 1);
    FourLeader(4, g, 1);
  }

  /** The vertices of round 4 that a node holds descend from the leader of wave 1. */
  lemma FourDescends(g: Graph, k: Key)
    requires (g == FullGraph(4) && k < 4) || (g == LateGraph(4) && 1 <= k < 4)
    ensures HeldDescendant(g, FullVertex(1, 1), FullVertex(4, k))
  {
    hide Leads, FullVertex, Stored, FullGraph, LateGraph;
    FullVertexIs(4, k);
    FullHolds(4, FullVertex(4, k));
    FullLeads(4, g, 4, k, 1, 1);
  }

  // ------------------------------------------------- two orders of one round

  lemma EightChain(en: Enumeration)
    requires Enumerates(en, FullGraph(8))
    ensures Commits(CAUSAL, FullGraph(8), en, 2)
    ensures CommittedLeaders(CAUSAL, FullGraph(8), en, 2) == [FullVertex(5, 1), FullVertex(1, 1)]
  {
    hide Linkers, FullGraph, FullVertex, Linked, Stored, WaveLeader, Enumerates;
    var g := FullGraph(8);
    FourCommits(8, g, en, 2);
    FourLeader(8, g, 2);
    FourLeader(8, g, 1);
    FullRowsHeld(8, 5);
    FullLinked(8, g, en, 5, 1, 1, 1);
    WalkOnce(CAUSAL, g, en, 1, FullVertex(5, 1));
    WalkOnce(CAUSAL, g, en, 0, FullVertex(1, 1));
  }

  /** The second leader delivers all of round 2. */
  lemma EightNew(en: Enumeration, k: Key)
    requires k < 4 && Enumerates(en, FullGraph(8))
    ensures NewAt(FullGraph(8), en, Causal, [FullVertex(5, 1), FullVertex(1, 1)], 0, FullVertex(2, k))
  {
    hide FullGraph, FullVertex, Found, Stored, Enumerates;
    FullVertexIs(2, k);
    FullVertexIs(1, 1);
    FullRowsHeld(8, 5);
    FullLinked(8, FullGraph(8), en, 5, 1, 2, k);
  }

  lemma EightFork(en: Enumeration, em: Enumeration, j: Key, k: Key)
    requires Enumerates(en, FullGraph(8)) && Enumerates(em, FullGraph(8)) && j < 4 && k < 4
    requires 2 in en && 2 in em && Precedes(en[2], j, k) && Precedes(em[2], k, j)
    ensures ConfigOk(CAUSAL) && Commits(CAUSAL, FullGraph(8), en, 2) && Commits(CAUSAL, FullGraph(8), em, 2)
    ensures !(Ordered(CAUSAL, FullGraph(8), en, 2).value <= Ordered(CAUSAL, FullGraph(8), em, 2).value)
  {
    hide FullGraph, FullVertex, Ordered, Commits, NewAt, NetOk, Part, Stored, Precedes, Enumerates, CommittedLeaders,
      Before, WellFormed;
    var g, net := FullGraph(8), Stored(FullGraph(8));
    FullViews(8);
    SameNet(net);
    EightChain(en);
    EightChain(em);
    EightNew(en, j);
    EightNew(en, k);
    OneRound(en, em, j, k);
    var newer := ViewTotalOrderIff(CAUSAL, net, g, en, 2, g, em, 2);
    NotSame(g, en, [FullVertex(5, 1), FullVertex(1, 1)], em, FullVertex(2, j), FullVertex(2, k));
  }

  lemma NotSame(g: Graph, en: Enumeration, leaders: seq<Vertex>, em: Enumeration, u: Vertex, v: Vertex)
    requires NewAt(g, en, Causal, leaders, 0, u) && NewAt(g, en, Causal, leaders, 0, v) && u.round == v.round
    requires Before(en, u, v) && !Before(em, u, v)
    ensures !SameOrders(g, en, Causal, leaders, em)
  {
  }

  lemma SameNet(net: set<Vertex>)
    requires NetOk(FOUR, net)
    ensures NetOk(CAUSAL, net) && ConfigOk(CAUSAL)
  {
    assert Distinct(FOUR.keys);
    forall v | v in net ensures WellFormed(CAUSAL, v) { assert WellFormed(FOUR, v); }
  }

  lemma OneRound(en: Enumeration, em: Enumeration, j: Key, k: Key)
    requires Enumerates(en, FullGraph(8)) && Enumerates(em, FullGraph(8))
    requires 2 in en && 2 in em && Precedes(en[2], j, k) && Precedes(em[2], k, j)
    ensures FullVertex(2, j).round == FullVertex(2, k).round == 2
    ensures Before(en, FullVertex(2, j), FullVertex(2, k)) && !Before(em, FullVertex(2, j), FullVertex(2, k))
  {
    hide FullGraph, FullVertex, Enumerates;
    EnumeratesProper(em, FullGraph(8));
    FullVertexIs(2, j);
    FullVertexIs(2, k);
    BeforeOneWay(em, FullVertex(2, k), FullVertex(2, j));
  }

  /** The orders of iteration alone make logs fork, even with the delivery test turned round: in a run in
      which all four members receive everything, member 1 receives round 2 in another order than the
      others and from then on iterates it in that order, where they iterate it by ascending key. */
  lemma OrdersForkLogs() returns (run: seq<System>, actions: seq<Action>, c: Commit, d: Commit)
    ensures ConfigOk(CAUSAL) && CAUSAL.orientation.Causal? && CAUSAL.faulty == {} && IsRun(CAUSAL, run, actions)
    ensures c in run[|actions|].history && d in run[|actions|].history && c.node != d.node && c.wave == d.wave
    ensures c.view == d.view
    ensures forall r | r in c.order && r != 2 :: r in d.order && d.order[r] == c.order[r]
    ensures !(c.log <= d.log) && !(d.log <= c.log)
  {
    hide FullGraph, OrderOf, OrderVertices, LeadersToCommit, Commits, FullVertex, IsRun, Enumerates, Precedes;
    var g := FullGraph(8);
    var en, em := OrderOf(CAUSAL, 0, g), OrderOf(CAUSAL, 1, g);
    EightOrders();
    EightFork(en, em, 0, 2);
    EightFork(em, en, 2, 0);
    run, actions := TwoCommits(CAUSAL, 2, EVERYBODY, g, en, EVERYBODY, g, em);
    c := Commit(0, 2, g, en, Ordered(CAUSAL, g, en, 2).value);
    d := Commit(1, 2, g, em, Ordered(CAUSAL, g, em, 2).value);
  }

  lemma EightOrders()
    ensures var g := FullGraph(8);
            var en, em := OrderOf(CAUSAL, 0, g), OrderOf(CAUSAL, 1, g);
            && Enumerates(en, g) && Enumerates(em, g) && 2 in en && 2 in em
            && Precedes(em[2], 2, 0) && Precedes(en[2], 0, 2)
            && forall r | r in en && r != 2 :: r in em && em[r] == en[r]
  {
    hide FullGraph, Ascending, FullVertex, FullRow, Enumerates;
    var g := FullGraph(8);
    EightSecondRow();
    var en, em := OrderOf(CAUSAL, 0, g), OrderOf(CAUSAL, 1, g);
    OrderOfFull(CAUSAL, 0, 8);
    OrderOfFull(CAUSAL, 1, 8);
    assert Precedes(em[2], 2, 0) by { assert em[2][0] == 2 && em[2][2] == 0; }
    assert Precedes(en[2], 0, 2) by { KeyOrderSecond(g); }
  }

  lemma EightSecondRow()
    ensures 2 in FullGraph(8) && FullGraph(8)[2].Keys == {0, 1, 2, 3}
  {
  }

  lemma KeyOrderSecond(g: Graph)
    requires 2 in g && g[2].Keys == {0, 1, 2, 3}
    ensures Precedes(KeyOrder(g)[2], 0, 2)
  {
    hide Ascending;
    var q := KeyOrder(g)[2];
    AscendingIncreasing(g[2].Keys);
    assert 0 in q && 2 in q;
    var i :| 0 <= i < |q| && q[i] == 0;
    var j :| 0 <= j < |q| && q[j] == 2;
    assert i < j;
  }
}
