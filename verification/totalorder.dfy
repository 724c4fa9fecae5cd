/** What holds in every run of the system. */
module TotalOrder {
  import opened Vertices
  import opened Graphs
  import opened Links
  import opened Enumerations
  import opened Searches
  import opened Ordering
  import opened WeakEdges
  import opened Selectors
  import opened Agreement
  import opened Nodes
  import opened Systems

  /** Total order, exactly: whatever two nodes committed during a run, at whatever time, from whatever
      part of the vertices and iterating their rounds in whatever orders, the log of the later wave starts
      with the very vertices of the log of the earlier one, each delivered in the pass of the same
      leader. It continues the earlier log itself exactly when the two orders agree on every two vertices
      that one pass delivers from one round. */
  lemma LogsAgreeIff(cfg: Config, run: seq<System>, actions: seq<Action>, i: nat, c: Commit, d: Commit)
    returns (newer: seq<Vertex>)
    requires ConfigOk(cfg) && cfg.orientation.Causal? && IsRun(cfg, run, actions) && i < |run|
    requires c in run[i].history && d in run[i].history && c.wave <= d.wave
    ensures c.wave > 0 && Commits(cfg, c.view, c.order, c.wave) && Commits(cfg, d.view, d.order, d.wave)
    ensures |c.log| <= |d.log| && forall v :: v in c.log <==> v in d.log[..|c.log|]
    ensures var cs := CommittedLeaders(cfg, c.view, c.order, c.wave);
            var ds := CommittedLeaders(cfg, d.view, d.order, d.wave);
            && ds == newer + cs
            && (forall j: nat, v :: NewAt(c.view, c.order, Causal, cs, j, v) <==>
                                    NewAt(d.view, d.order, Causal, ds, |newer| + j, v))
            && (c.log <= d.log <==> SameOrders(c.view, c.order, Causal, cs, d.order))
  {
    hide IsRun, NetOk, ViewOk, Enumerates, Commits, CommittedLeaders, NewAt, SameOrders;
    RunInv(cfg, run, actions, i);
    assert CommitOk(cfg, run[i].net, c) && CommitOk(cfg, run[i].net, d);
    newer := ViewTotalOrderIff(cfg, run[i].net, c.view, c.order, c.wave, d.view, d.order, d.wave);
  }

  /** Total order: when the two nodes never iterate a round in contradictory orders, say both by key, the
      log of the earlier wave is a prefix of the log of the later one. */
  lemma LogsNeverFork(cfg: Config, run: seq<System>, actions: seq<Action>, i: nat, c: Commit, d: Commit)
    requires ConfigOk(cfg) && cfg.orientation.Causal? && IsRun(cfg, run, actions) && i < |run|
    requires c in run[i].history && d in run[i].history && c.wave <= d.wave && Compatible(c.order, d.order)
    ensures c.log <= d.log
  {
    hide IsRun, NetOk, OrderVertices, ViewOk, Enumerates, Compatible, Commits;
    RunInv(cfg, run, actions, i);
    assert CommitOk(cfg, run[i].net, c) && CommitOk(cfg, run[i].net, d);
    ViewTotalOrder(cfg, run[i].net, c.view, c.order, c.wave, d.view, d.order, d.wave);
  }

  /** Log monotonicity: at one node, what is output later extends what was output earlier, in the same sense. */
  lemma NodeLogGrows(cfg: Config, run: seq<System>, actions: seq<Action>, i: nat, p: nat, q: nat)
    requires ConfigOk(cfg) && cfg.orientation.Causal? && IsRun(cfg, run, actions) && i < |run|
    requires p < q < |run[i].history| && run[i].history[p].node == run[i].history[q].node
    ensures var c, d := run[i].history[p], run[i].history[q];
            && 0 < c.wave < d.wave && Commits(cfg, c.view, c.order, c.wave)
            && |c.log| <= |d.log| && (forall v :: v in c.log <==> v in d.log[..|c.log|])
            && var cs := CommittedLeaders(cfg, c.view, c.order, c.wave);
               c.log <= d.log <==> SameOrders(c.view, c.order, Causal, cs, d.order)
  {
    hide IsRun, SameOrders, NewAt, Commits, CommittedLeaders;
    RunHistory(cfg, run, actions, i);
    var newer := LogsAgreeIff(cfg, run, actions, i, run[i].history[p], run[i].history[q]);
  }

  /** The leaders committed for a wave are, at every node, the older part of those of any later commit. */
  lemma ChainsNeverFork(cfg: Config, run: seq<System>, actions: seq<Action>, i: nat, c: Commit, d: Commit)
    returns (newer: seq<Vertex>)
    requires ConfigOk(cfg) && IsRun(cfg, run, actions) && i < |run|
    requires c in run[i].history && d in run[i].history && c.wave <= d.wave
    ensures c.wave > 0 && Commits(cfg, c.view, c.order, c.wave) && Commits(cfg, d.view, d.order, d.wave)
    ensures CommittedLeaders(cfg, d.view, d.order, d.wave) == newer + CommittedLeaders(cfg, c.view, c.order, c.wave)
    ensures forall l | l in newer :: l.round > RoundForWave(c.wave, MAX_WAVE)
    ensures forall l | l in CommittedLeaders(cfg, c.view, c.order, c.wave) :: l.round <= RoundForWave(c.wave, 1)
  {
    hide IsRun, NetOk, ViewOk, Commits, CommittedLeaders;
    RunInv(cfg, run, actions, i);
    assert CommitOk(cfg, run[i].net, c) && CommitOk(cfg, run[i].net, d);
    newer := ChainAgreement(cfg, run[i].net, c.view, c.order, c.wave, d.view, d.order, d.wave);
  }

  /** Once any node has committed a wave, every node sees every vertex it holds of a later wave linked
      to that wave's leader, in whatever order it iterates its rounds. */
  lemma CommitSeenByAll(cfg: Config, run: seq<System>, actions: seq<Action>, i: nat, c: Commit, k: Key, v: Vertex,
                        order: Enumeration)
    requires ConfigOk(cfg) && IsRun(cfg, run, actions) && i < |run|
    requires c in run[i].history && k in run[i].nodes && Enumerates(order, run[i].nodes[k].graph)
    requires v in Stored(run[i].nodes[k].graph) && v.round > MAX_WAVE * c.wave
    ensures c.wave > 0 && WaveLeader(cfg.keys, c.view, c.wave).Some?
    ensures Linked(run[i].nodes[k].graph, order, v, WaveLeader(cfg.keys, c.view, c.wave).value, cfg.edges)
  {
    hide IsRun, NetOk, Leads, Linked, Linkers, Enumerates, View, Stored, WaveLeader, Ordered, Bound, Ranked;
    RunInv(cfg, run, actions, i);
    var net, g := run[i].net, run[i].nodes[k].graph;
    assert CommitOk(cfg, net, c) && NodeOk(cfg, net, k, run[i].nodes[k]);
    CommitCommits(cfg, net, c);
    var leader := WaveLeader(cfg.keys, c.view, c.wave).value;
    CommitBinds(cfg, net, c.view, c.order, c.wave);
    StoredHeld(cfg, net, Stored(g), v);
    CommitBindsLater(cfg, net, c.view, c.order, leader, RoundForWave(c.wave, MAX_WAVE), Stored(g), v);
    ViewHolds(g, order, net, v);
    ViewLinked(g, order, net, v, leader, cfg.edges);
  }

  lemma CommitCommits(cfg: Config, net: set<Vertex>, c: Commit)
    requires cfg.keys != [] && CommitOk(cfg, net, c)
    ensures c.wave > 0 && Commits(cfg, c.view, c.order, c.wave) && WaveLeader(cfg.keys, c.view, c.wave).Some?
    ensures Enumerates(c.order, c.view)
    ensures c.log == OrderVertices(c.view, c.order, cfg.orientation, CommittedLeaders(cfg, c.view, c.order, c.wave))
  {
  }

  /** Round progress: each round a node has left holds a quorum there, nothing it stores is above its
      round, and the vertices broadcast in its name are exactly one for each round it has entered. */
  lemma RoundProgress(cfg: Config, run: seq<System>, actions: seq<Action>, i: nat, k: Key)
    requires ConfigOk(cfg) && IsRun(cfg, run, actions) && i < |run| && k in run[i].nodes
    ensures var n := run[i].nodes[k];
            && (forall r | 1 <= r < n.round :: |Row(n.graph, r)| >= cfg.Quorum())
            && (forall v | v in Stored(n.graph) :: 1 <= v.round <= n.round && v in run[i].net)
            && (forall r: Round :: 1 <= r <= n.round <==> HasEmitted(run[i].net, k, r))
            && (forall u, v | u in run[i].net && v in run[i].net && u.owner == v.owner == k && u.round == v.round ::
               u == v)
  {
    hide IsRun;
    RunInv(cfg, run, actions, i);
    var n := run[i].nodes[k];
    assert NodeOk(cfg, run[i].net, k, n);
    forall v | v in run[i].net ensures v.round >= 1 {
      assert WellFormed(cfg, v);
    }
  }

  /** One vertex joins the network: of the node `n`, for the round after its own, on top of that whole round,
      with the block it queued last. */
  ghost predicate SendsOne(net: set<Vertex>, n: Node, blocks: seq<Block>, m: Node, grown: set<Vertex>) {
    exists x ::
      && x !in net && grown == net + {x} && x.owner == n.id && x.round == n.round + 1
      && x.StrongParents() == Offered(m.graph, n.round) && n.blocks + blocks == m.blocks + [x.block]
  }

  /** The node decides wave `w`, and its log is recorded. */
  ghost predicate CommitsOne(cfg: Config, history: seq<Commit>, m: Node, order: Enumeration, w: Wave,
                             grown: seq<Commit>)
    requires cfg.keys != [] && w > 0 && Enumerates(order, m.graph)
  {
    && m.decidedWave == w
    && exists log :: LogOf(cfg, m.graph, order, w, log) && grown == history + [Commit(m.id, w, m.graph, order, log)]
  }

  /** What each iteration of each run does, exactly. What it stores are the vertices of its batch that are
      not above its round and whose parents were held or came earlier in the batch. It advances just when a
      block is waiting and a quorum of members has vertices of its round there, and then broadcasts on top of
      that round. It commits just when it leaves a wave that meets the commit rule. */
  lemma EachIteration(cfg: Config, run: seq<System>, actions: seq<Action>, i: nat)
    requires ConfigOk(cfg) && IsRun(cfg, run, actions) && i < |actions| && actions[i].Run?
    ensures var a, s, t := actions[i], run[i], run[i + 1];
            && a.who in s.nodes && a.who in t.nodes && s.nodes[a.who].round > 0
            && var n, m := s.nodes[a.who], t.nodes[a.who];
            && Stored(m.graph) ==
               Stored(n.graph) + GroundedPart(Stored(n.graph), n.round, a.buffer, |a.buffer|)
            && Enumerates(a.order, m.graph)
            && var w, ready := n.round / 4, Ready(cfg, n, a.blocks, m.graph);
            && m.round == (if ready then n.round + 1 else n.round)
            && (if ready then SendsOne(s.net, n, a.blocks, m, t.net)
                else t.net == s.net && m.blocks == n.blocks + a.blocks)
            && (if ready && n.round % 4 == 0 && CommitRule(cfg, Stored(m.graph), w)
                then CommitsOne(cfg, s.history, m, a.order, w, t.history)
                else t.history == s.history && m.decidedWave == n.decidedWave)
  {
    hide IsRun, Receive, Iterate, NetOk, Part, Stored, Enumerates, CommitRule, LogOf, Ready, GroundedPart, Offered,
      CreatedVertex, HashUnique, Leads, Attachable, NodeOk, View, SlotsOk;
    StepOf(cfg, run, actions, i);
    RunInv(cfg, run, actions, i);
    var a, s, t := actions[i], run[i], run[i + 1];
    var n, m := s.nodes[a.who], t.nodes[a.who];
    NodeIs(cfg, s.net, a.who, n, a.buffer);
    assert a.buffer[..|a.buffer|] == a.buffer;
    ReceiveStores(cfg, s.net, n.graph, n.round, a.buffer, |a.buffer|);
    AdvancesIff(cfg, n, a.buffer, a.blocks, a.order);
    CommitsWhen(cfg, n, a.buffer, a.blocks, a.order);
    SentIs(cfg, n, a.buffer, a.blocks, a.order);
    BlocksConserved(cfg, n, a.buffer, a.blocks, a.order);
    var e := Iterate(cfg, n, a.buffer, a.blocks, a.order);
    if e.sent.Some? {
      assert e.sent.value !in s.net;
      assert t.net == s.net + {e.sent.value};
      assert SendsOne(s.net, n, a.blocks, m, t.net);
    }
  }

  lemma NodeIs(cfg: Config, net: set<Vertex>, k: Key, n: Node, buffer: seq<Vertex>)
    requires NetOk(cfg, net) && NodeOk(cfg, net, k, n) && forall v | v in buffer :: v in net
    ensures n.id == k && Part(n.graph, net) && SlotsOk(n.graph)
    ensures HashUnique(Stored(Receive(n.graph, n.round, buffer)))
    ensures forall v | v in net && v.owner == k :: v.round <= n.round
  {
    hide Stored, NetOk, Receive;
    ReceiveKeeps(cfg, net, n.graph, n.round, buffer);
    NetUnique(cfg, net);
  }

  /** Digests identify the vertices broadcast. If a vertex was sent by a member that runs this code, or if
      some node holds it, then each of its parents was broadcast at the round it claims, and past round 1
      its strong parents come from a quorum of distinct members; in the first case each parent is of the
      round before or at least three rounds below. */
  lemma BroadcastWellFormed(cfg: Config, run: seq<System>, actions: seq<Action>, i: nat, v: Vertex)
    requires ConfigOk(cfg) && IsRun(cfg, run, actions) && i < |run| && v in run[i].net
    ensures forall u | u in run[i].net && u.hash == v.hash :: u == v
    ensures v.owner !in cfg.faulty ==> Descends(v) && Spaced(v)
    ensures v.owner !in cfg.faulty || (exists k :: k in run[i].nodes && v in Stored(run[i].nodes[k].graph)) ==>
              && Resolves(run[i].net, v.parents)
              && (v.round > 1 ==> StrongOwners(v) <= Members(cfg) && |StrongOwners(v)| >= cfg.Quorum())
  {
    hide IsRun, Resolves;
    RunInv(cfg, run, actions, i);
    var net := run[i].net;
    assert WellFormed(cfg, v);
    NetUnique(cfg, net);
    if k :| k in run[i].nodes && v in Stored(run[i].nodes[k].graph) {
      assert NodeOk(cfg, net, k, run[i].nodes[k]);
      ClosedAt(Stored(run[i].nodes[k].graph), v);
      ResolvesMono(Stored(run[i].nodes[k].graph), net, v.parents);
    }
    if Resolves(net, v.parents) && v.round > 1 {
      StrongQuorum(cfg, net, net, v);
    }
  }

  lemma {:induction false} NetKept(cfg: Config, run: seq<System>, actions: seq<Action>, i: nat, j: nat)
    requires cfg.keys != [] && IsRun(cfg, run, actions) && i <= j < |run|
    ensures run[i].net <= run[j].net
    decreases j
  {
    if i < j {
      NetKept(cfg, run, actions, i, j - 1);
      assert Next(cfg, run[j - 1], actions[j - 1], run[j]);
    }
  }

  /** A node never forgets: whatever it stored it still stores, no round loses an owner, and its round
      never goes down. */
  lemma {:induction false} GraphsGrow(cfg: Config, run: seq<System>, actions: seq<Action>, i: nat, j: nat, k: Key)
    requires ConfigOk(cfg) && IsRun(cfg, run, actions) && i <= j < |run| && k in run[i].nodes
    ensures k in run[j].nodes
    ensures var m, n := run[i].nodes[k], run[j].nodes[k];
            && Stored(m.graph) <= Stored(n.graph) && m.round <= n.round
            && forall r :: Row(m.graph, r).Keys <= Row(n.graph, r).Keys
    decreases j
  {
    hide Inv, Stored, Row, NextRun;
    if i < j {
      GraphsGrow(cfg, run, actions, i, j - 1, k);
      RunInv(cfg, run, actions, j - 1);
      assert Next(cfg, run[j - 1], actions[j - 1], run[j]);
      if actions[j - 1].Run? {
        StepGrows(cfg, run[j - 1], actions[j - 1], run[j], k);
      }
    }
  }

  lemma StepGrows(cfg: Config, s: System, a: Action, t: System, k: Key)
    requires cfg.keys != [] && Inv(cfg, s) && a.Run? && NextRun(cfg, s, a.who, a.buffer, a.blocks, a.order, t)
    requires k in s.nodes
    ensures k in t.nodes
    ensures var m, n := s.nodes[k], t.nodes[k];
            && Stored(m.graph) <= Stored(n.graph) && m.round <= n.round
            && forall r :: Row(m.graph, r).Keys <= Row(n.graph, r).Keys
  {
    hide NetOk, Stored, Row, Receive, Enumerates, Ordered, CreatedVertex, CommitOk;
    if k == a.who {
      assert NodeOk(cfg, s.net, k, s.nodes[k]);
      ReceiveKeeps(cfg, s.net, s.nodes[k].graph, s.nodes[k].round, a.buffer);
    }
  }

  /** At step `i`, some node broadcasts `x`. */
  ghost predicate Broadcasts(cfg: Config, run: seq<System>, actions: seq<Action>, i: nat, x: Vertex)
    requires cfg.keys != []
  {
    && i < |actions| && |run| == |actions| + 1 && actions[i].Run? && actions[i].who in run[i].nodes
    && var n := run[i].nodes[actions[i].who];
       && n.round > 0 && Enumerates(actions[i].order, Receive(n.graph, n.round, actions[i].buffer))
       && Iterate(cfg, n, actions[i].buffer, actions[i].blocks, actions[i].order).sent == Some(x)
  }

  /** What that node holds when it creates `x`. */
  ghost function HoldsAt(cfg: Config, run: seq<System>, actions: seq<Action>, i: nat, x: Vertex): set<Vertex>
    requires cfg.keys != [] && Broadcasts(cfg, run, actions, i, x)
  {
    var n := run[i].nodes[actions[i].who];
    Stored(Receive(n.graph, n.round, actions[i].buffer))
  }

  /** What the creator of `x` holds, of the previous round or of a round at least three below. */
  lemma HeldLinked(cfg: Config, run: seq<System>, actions: seq<Action>, i: nat, j: nat, x: Vertex, u: Vertex)
    requires ConfigOk(cfg) && IsRun(cfg, run, actions) && i < j < |run| && Broadcasts(cfg, run, actions, i, x)
    requires u in HoldsAt(cfg, run, actions, i, x) && (u.round + 1 == x.round || u.round + 3 <= x.round)
    ensures Leads(run[j].net, x, u, All) && x in run[j].net && u in run[j].net
  {
    hide Leads, Receive, CreatedVertex, NetOk, Stored, SlotsOk, View, Ordered, Enumerates, Irredundant, Ranked;
    var a, net := actions[i], run[i].net;
    var n := run[i].nodes[a.who];
    RunInv(cfg, run, actions, i);
    RunInv(cfg, run, actions, j);
    NetKept(cfg, run, actions, i + 1, j);
    assert NodeOk(cfg, net, a.who, n);
    StepOf(cfg, run, actions, i);
    ReceiveKeeps(cfg, net, n.graph, n.round, a.buffer);
    var g, all := Receive(n.graph, n.round, a.buffer), n.blocks + a.blocks;
    ViewCoherent(g, a.order, net);
    assert x == CreatedVertex(g, a.order, n.id, n.round + 1, all[|all| - 1]);
    StoredHeld(cfg, net, Stored(g), u);
    CreatedIs(g, a.order, n.id, n.round + 1, all[|all| - 1]);
    CreatedLinksAll(g, a.order, n.id, n.round + 1, all[|all| - 1], u);
    PartHolds(Stored(g), net, u);
    PartGrows(cfg, net, run[j].net, g);
    ViewLeads(Stored(g), run[j].net, x, u, All);
  }

  /** Inclusion: what a node holds when it creates a vertex `x`, of the previous round or of a round at
      least three below, is delivered by every later commit of a leader that is `x` or linked to `x`. */
  lemma HeldIsDelivered(cfg: Config, run: seq<System>, actions: seq<Action>, i: nat, j: nat, u: Vertex, x: Vertex,
                        l: Vertex, c: Commit)
    requires ConfigOk(cfg) && cfg.orientation.Causal? && IsRun(cfg, run, actions) && i < j < |run|
    requires Broadcasts(cfg, run, actions, i, x) && u in HoldsAt(cfg, run, actions, i, x)
    requires u.round + 1 == x.round || u.round + 3 <= x.round
    requires c in run[j].history && c.wave > 0 && Commits(cfg, c.view, c.order, c.wave)
    requires l in CommittedLeaders(cfg, c.view, c.order, c.wave) && (l == x || Leads(run[j].net, l, x, All))
    ensures u in c.log
  {
    hide Leads, Broadcasts, HoldsAt, NetOk, ViewOk, Commits, CommittedLeaders, Ordered, IsRun, Enumerates;
    HeldLinked(cfg, run, actions, i, j, x, u);
    RunInv(cfg, run, actions, j);
    assert CommitOk(cfg, run[j].net, c);
    ThroughVertex(cfg, run[j].net, c, l, x, u);
    DeliversHistory(cfg, run[j].net, c, l, u);
  }

  /** A committed leader is linked to what those it is linked to are linked to. */
  lemma ThroughVertex(cfg: Config, net: set<Vertex>, c: Commit, l: Vertex, x: Vertex, u: Vertex)
    requires ConfigOk(cfg) && NetOk(cfg, net) && CommitOk(cfg, net, c) && Commits(cfg, c.view, c.order, c.wave)
    requires l in CommittedLeaders(cfg, c.view, c.order, c.wave) && x in net && u in net
    requires (l == x || Leads(net, l, x, All)) && Leads(net, x, u, All)
    ensures Leads(net, l, u, All)
  {
    hide Leads, Linked, Linkers, Ordered, LeadersBelow, WaveLeader, Enumerates, Stored, SlotsOk, NetOk, View;
    if l != x {
      var g := c.view;
      LeaderHeld(cfg, net, c, l);
      ViewHolds(g, c.order, net, l);
      ViewLinked(g, c.order, net, l, x, All);
      ViewHolds(g, c.order, net, x);
      ViewLinked(g, c.order, net, x, u, All);
      ViewCoherent(g, c.order, net);
      LeadsTrans(Stored(g), l, x, u, All);
      ViewLinked(g, c.order, net, l, u, All);
    }
  }

  lemma LeaderHeld(cfg: Config, net: set<Vertex>, c: Commit, l: Vertex)
    requires ConfigOk(cfg) && CommitOk(cfg, net, c) && Commits(cfg, c.view, c.order, c.wave)
    requires l in CommittedLeaders(cfg, c.view, c.order, c.wave)
    ensures l in Stored(c.view)
  {
    hide Linkers, LeadersBelow, WaveLeader, Enumerates, Stored, SlotsOk, View, Ordered;
    WaveLeaderIs(cfg.keys, c.view, c.wave);
    CommonChain(cfg, net, c.view, c.order, c.view, c.order, c.wave);
  }

  /** The round that `x` skips is linked by the node's next vertex `y`, so what a node holds when it
      creates `x` is linked, all of it, by `x` or by `y`. */
  lemma HeldLinkedSoon(cfg: Config, run: seq<System>, actions: seq<Action>, i: nat, m: nat, j: nat, x: Vertex,
                       y: Vertex, u: Vertex)
    requires ConfigOk(cfg) && IsRun(cfg, run, actions) && i < m < j < |run|
    requires Broadcasts(cfg, run, actions, i, x) && Broadcasts(cfg, run, actions, m, y)
    requires actions[i].who == actions[m].who && y.round == x.round + 1
    requires u in HoldsAt(cfg, run, actions, i, x)
    ensures Leads(run[j].net, x, u, All) || Leads(run[j].net, y, u, All)
    ensures x in run[j].net && y in run[j].net && u in run[j].net
  {
    hide Leads, HoldsAt, IsRun, Iterate, Receive, Enumerates;
    HeldBelow(cfg, run, actions, i, x, u);
    Sends(cfg, run, actions, i, j, x);
    Sends(cfg, run, actions, m, j, y);
    if u.round + 1 == x.round {
      HeldLinked(cfg, run, actions, i, j, x, u);
    } else {
      HeldLonger(cfg, run, actions, i, x, m, y, u);
      HeldLinked(cfg, run, actions, m, j, y, u);
    }
  }

  lemma Sends(cfg: Config, run: seq<System>, actions: seq<Action>, i: nat, j: nat, x: Vertex)
    requires cfg.keys != [] && IsRun(cfg, run, actions) && i < j < |run| && Broadcasts(cfg, run, actions, i, x)
    ensures x in run[j].net
  {
    hide Receive, Iterate, Enumerates;
    StepOf(cfg, run, actions, i);
    NetKept(cfg, run, actions, i + 1, j);
  }

  lemma HeldBelow(cfg: Config, run: seq<System>, actions: seq<Action>, i: nat, x: Vertex, u: Vertex)
    requires ConfigOk(cfg) && IsRun(cfg, run, actions) && Broadcasts(cfg, run, actions, i, x)
    requires u in HoldsAt(cfg, run, actions, i, x)
    ensures u.round < x.round
  {
    hide IsRun, Receive, NetOk, Part, Stored, CreatedVertex, Ordered, Enumerates, Irredundant;
    RunInv(cfg, run, actions, i);
    var a := actions[i];
    var n := run[i].nodes[a.who];
    assert NodeOk(cfg, run[i].net, a.who, n);
    StepOf(cfg, run, actions, i);
    ReceiveKeeps(cfg, run[i].net, n.graph, n.round, a.buffer);
    var all := n.blocks + a.blocks;
    CreatedContent(Receive(n.graph, n.round, a.buffer), a.order, n.id, n.round + 1, all[|all| - 1]);
  }

  lemma StepOf(cfg: Config, run: seq<System>, actions: seq<Action>, i: nat)
    requires cfg.keys != [] && IsRun(cfg, run, actions) && i < |actions|
    ensures |run| == |actions| + 1 && Next(cfg, run[i], actions[i], run[i + 1])
  {
  }

  lemma HeldLonger(cfg: Config, run: seq<System>, actions: seq<Action>, i: nat, x: Vertex, m: nat, y: Vertex, u: Vertex)
    requires ConfigOk(cfg) && IsRun(cfg, run, actions) && i < m
    requires Broadcasts(cfg, run, actions, i, x) && Broadcasts(cfg, run, actions, m, y)
    requires actions[i].who == actions[m].who
    requires u in HoldsAt(cfg, run, actions, i, x)
    ensures u in HoldsAt(cfg, run, actions, m, y)
  {
    hide IsRun, Receive, NetOk, Part, Stored, CreatedVertex, Ordered, Enumerates;
    var k := actions[i].who;
    RunInv(cfg, run, actions, m);
    StepOf(cfg, run, actions, i);
    GraphsGrow(cfg, run, actions, i + 1, m, k);
    StepOf(cfg, run, actions, m);
    var n := run[m].nodes[k];
    assert NodeOk(cfg, run[m].net, k, n);
    ReceiveKeeps(cfg, run[m].net, n.graph, n.round, actions[m].buffer);
  }

  /** Inclusion without a gap: whatever a node holds when it creates `x` is delivered by every later
      commit of a leader linked to the node's next vertex and to `x`. */
  lemma AllHeldIsDelivered(cfg: Config, run: seq<System>, actions: seq<Action>, i: nat, m: nat, j: nat, u: Vertex,
                           x: Vertex, y: Vertex, l: Vertex, c: Commit)
    requires ConfigOk(cfg) && cfg.orientation.Causal? && IsRun(cfg, run, actions) && i < m < j < |run|
    requires Broadcasts(cfg, run, actions, i, x) && Broadcasts(cfg, run, actions, m, y)
    requires actions[i].who == actions[m].who && y.round == x.round + 1
    requires u in HoldsAt(cfg, run, actions, i, x)
    requires c in run[j].history && c.wave > 0 && Commits(cfg, c.view, c.order, c.wave)
    requires l in CommittedLeaders(cfg, c.view, c.order, c.wave)
    requires (l == x || Leads(run[j].net, l, x, All)) && (l == y || Leads(run[j].net, l, y, All))
    ensures u in c.log
  {
    hide Leads, Broadcasts, HoldsAt, NetOk, ViewOk, Commits, CommittedLeaders, Ordered, IsRun, Enumerates;
    HeldLinkedSoon(cfg, run, actions, i, m, j, x, y, u);
    var z := if Leads(run[j].net, x, u, All) then x else y;
    RunInv(cfg, run, actions, j);
    assert CommitOk(cfg, run[j].net, c);
    ThroughVertex(cfg, run[j].net, c, l, z, u);
    DeliversHistory(cfg, run[j].net, c, l, u);
  }

  /** A commit delivers all that any of its leaders is linked to: the whole causal history of that leader,
      where vertices lie above their parents. */
  lemma DeliversHistory(cfg: Config, net: set<Vertex>, c: Commit, l: Vertex, u: Vertex)
    requires ConfigOk(cfg) && cfg.orientation.Causal? && NetOk(cfg, net) && CommitOk(cfg, net, c)
    requires Commits(cfg, c.view, c.order, c.wave) && l in CommittedLeaders(cfg, c.view, c.order, c.wave)
    requires u in net && (Leads(net, l, u, All) || Reach(net, l, u, All))
    ensures u in c.log
  {
    hide Leads, Linked, Linkers, Ordering.OrderVertices, LeadersBelow, WaveLeader, Enumerates, View, SlotsOk, Stored;
    LeaderHeld(cfg, net, c, l);
    NetUnique(cfg, net);
    if Reach(net, l, u, All) {
      ReachLeads(net, l, u, All);
    }
    ViewHolds(c.view, c.order, net, l);
    ViewLinked(c.view, c.order, net, l, u, All);
    assert WellFormed(cfg, u);
    assert Delivers(c.view, c.order, Causal, l, u);
    ViewCoherent(c.view, c.order, net);
    CommitCommits(cfg, net, c);
    ExactDelivery(c.view, c.order, Causal, CommittedLeaders(cfg, c.view, c.order, c.wave));
  }

  /** Causal order: whatever a delivered vertex is linked to was delivered before it, every ancestor along
      a path on which rounds go down included. */
  lemma CausalOrder(cfg: Config, run: seq<System>, actions: seq<Action>, i: nat, c: Commit, p: nat, a: Vertex)
    returns (q: nat)
    requires ConfigOk(cfg) && cfg.orientation.Causal? && IsRun(cfg, run, actions) && i < |run|
    requires c in run[i].history && p < |c.log| && a in run[i].net
    requires Leads(run[i].net, c.log[p], a, All) || Reach(run[i].net, c.log[p], a, All)
    ensures q < p && c.log[q] == a
  {
    hide Leads, Linked, Linkers, Ordering.OrderVertices, LeadersBelow, WaveLeader, IsRun, Enumerates, View, SlotsOk;
    RunInv(cfg, run, actions, i);
    var net := run[i].net;
    assert CommitOk(cfg, net, c);
    CommitCommits(cfg, net, c);
    NetUnique(cfg, net);
    if Reach(net, c.log[p], a, All) {
      ReachLeads(net, c.log[p], a, All);
    }
    var leaders := CommittedLeaders(cfg, c.view, c.order, c.wave);
    ViewCoherent(c.view, c.order, net);
    ExactDelivery(c.view, c.order, Causal, leaders);
    assert c.log[p] in c.log;
    ViewHolds(c.view, c.order, net, c.log[p]);
    ViewLinked(c.view, c.order, net, c.log[p], a, All);
    forall v | v in Stored(c.view) ensures v.round > 0 {
      ViewHolds(c.view, c.order, net, v);
      assert WellFormed(cfg, v);
    }
    forall l | l in leaders ensures l in Stored(c.view) { LeaderHeld(cfg, net, c, l); }
    q := CausalDelivery(c.view, c.order, leaders, p, a);
  }

  /** A commit delivers every leader it brings along except the newest, which waits for a later wave. */
  lemma NewestLeaderWaits(cfg: Config, run: seq<System>, actions: seq<Action>, i: nat, c: Commit)
    requires ConfigOk(cfg) && cfg.orientation.Causal? && IsRun(cfg, run, actions) && i < |run| && c in run[i].history
    ensures c.wave > 0 && Commits(cfg, c.view, c.order, c.wave)
    ensures forall l | l in CommittedLeaders(cfg, c.view, c.order, c.wave) ::
              l in c.log <==> l != WaveLeader(cfg.keys, c.view, c.wave).value
  {
    hide IsRun, NetOk, ViewOk, CommittedLeaders, WaveLeader, Linkers, OrderVertices, Enumerates;
    RunInv(cfg, run, actions, i);
    assert CommitOk(cfg, run[i].net, c);
    NewestIsTop(cfg, run[i].net, c);
    forall l | l in CommittedLeaders(cfg, c.view, c.order, c.wave) && l != WaveLeader(cfg.keys, c.view, c.wave).value
      ensures l in c.log
    {
      OlderLeaderDelivered(cfg, run[i].net, c, l);
    }
  }

  lemma OlderLeaderDelivered(cfg: Config, net: set<Vertex>, c: Commit, l: Vertex)
    requires ConfigOk(cfg) && cfg.orientation.Causal? && NetOk(cfg, net) && CommitOk(cfg, net, c)
    requires Commits(cfg, c.view, c.order, c.wave)
    requires l in CommittedLeaders(cfg, c.view, c.order, c.wave) && l != WaveLeader(cfg.keys, c.view, c.wave).value
    ensures l in c.log
  {
    hide Leads, Linked, Linkers, Ordered, LeadersBelow, WaveLeader, Stored, NetOk, Enumerates, SlotsOk, View;
    var leaders := CommittedLeaders(cfg, c.view, c.order, c.wave);
    var newest := WaveLeader(cfg.keys, c.view, c.wave).value;
    WaveLeaderIs(cfg.keys, c.view, c.wave);
    ViewCoherent(c.view, c.order, net);
    WalkChained(cfg, c.view, c.order, c.wave - 1, newest);
    var k :| 0 <= k < |leaders| && leaders[k] == l;
    ChainLeads(Stored(c.view), leaders, k, cfg.edges);
    ViewHolds(c.view, c.order, net, newest);
    ViewHolds(c.view, c.order, net, l);
    ViewLinked(c.view, c.order, net, newest, l, All);
    DeliversHistory(cfg, net, c, newest, l);
  }

  lemma NewestIsTop(cfg: Config, net: set<Vertex>, c: Commit)
    requires ConfigOk(cfg) && cfg.orientation.Causal? && NetOk(cfg, net) && CommitOk(cfg, net, c)
    requires Commits(cfg, c.view, c.order, c.wave)
    ensures WaveLeader(cfg.keys, c.view, c.wave).value !in c.log
  {
    hide Linkers, Ordering.OrderVertices, LeadersBelow, WaveLeader, Stored, Enumerates, Found, View;
    var leaders := CommittedLeaders(cfg, c.view, c.order, c.wave);
    var newest := WaveLeader(cfg.keys, c.view, c.wave).value;
    WaveLeaderIs(cfg.keys, c.view, c.wave);
    CommonChain(cfg, net, c.view, c.order, c.view, c.order, c.wave);
    ViewCoherent(c.view, c.order, net);
    ExactDelivery(c.view, c.order, Causal, leaders);
    forall l | l in leaders ensures !Delivers(c.view, c.order, Causal, l, newest) { assert l.round <= newest.round; }
  }
}
