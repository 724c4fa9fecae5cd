/** Agreement between views: a wave committed in one view is committed, with the same earlier leaders
    and the same vertices delivered for each, in every other view that commits that wave or a later one;
    and exactly when the sequences agree. */
module Agreement {
  import opened Orders
  import opened Vertices
  import opened Graphs
  import opened Links
  import opened Quorums
  import opened Ordering
  import opened Enumerations
  import opened Searches

  ghost function Members(cfg: Config): set<Key> {
    Elements(cfg.keys)
  }

  /** What holds of every vertex that was ever broadcast. That its parents were broadcast too is not part
      of it, nor that they are of lower rounds: what a node holds has its parents by the receive guard. */
  ghost predicate WellFormed(cfg: Config, v: Vertex) {
    && v.owner in Members(cfg) && v.round >= 1
    && v.hash.owner == v.owner && v.hash.round == v.round
    && (v.round == 1 ==> v.parents == map[])
    && (v.round > 1 ==> |v.StrongParents()| >= cfg.Quorum())
  }

  ghost predicate OnePerSlot(net: set<Vertex>) {
    forall u, v {:trigger u in net, v in net} | u in net && v in net && u.round == v.round && u.owner == v.owner ::
      u == v
  }

  ghost predicate NetOk(cfg: Config, net: set<Vertex>) {
    && (forall v {:trigger WellFormed(cfg, v)} | v in net :: WellFormed(cfg, v))
    && OnePerSlot(net)
  }

  lemma NetUnique(cfg: Config, net: set<Vertex>)
    requires NetOk(cfg, net)
    ensures HashUnique(net)
  {
    forall v | v in net ensures v.hash.owner == v.owner && v.hash.round == v.round {
      assert WellFormed(cfg, v);
    }
  }

  /** The owners of the strong parents of `v`. */
  ghost function StrongOwners(v: Vertex): set<Key> {
    set h | h in v.StrongParents().Keys :: h.owner
  }

  /** A well-formed vertex, stored or not, whose parents the part `s` of the network holds. */
  ghost predicate Held(cfg: Config, net: set<Vertex>, s: set<Vertex>, v: Vertex) {
    NetOk(cfg, net) && s <= net && WellFormed(cfg, v) && Resolves(s, v.parents)
  }

  lemma StoredHeld(cfg: Config, net: set<Vertex>, s: set<Vertex>, v: Vertex)
    requires NetOk(cfg, net) && View(s, net) && v in s
    ensures Held(cfg, net, s, v)
  {
    assert WellFormed(cfg, v);
  }

  lemma StrongParent(s: set<Vertex>, v: Vertex, h: VertexHash) returns (p: Vertex)
    requires Resolves(s, v.parents) && h in v.StrongParents()
    ensures Edge(s, v, p, Strong) && p.hash == h && p.round == v.round - 1
  {
    assert Provides(s, h, v.parents[h]);
    p :| p in s && p.hash == h && p.round == v.parents[h];
  }

  lemma StrongOwnerHas(cfg: Config, net: set<Vertex>, s: set<Vertex>, v: Vertex, k: Key) returns (p: Vertex)
    requires Held(cfg, net, s, v) && k in StrongOwners(v)
    ensures Edge(s, v, p, Strong) && p.owner == k && p.round == v.round - 1
  {
    var h :| h in v.StrongParents().Keys && h.owner == k;
    p := StrongParent(s, v, h);
    assert WellFormed(cfg, p);
  }

  lemma OneParentPerOwner(cfg: Config, net: set<Vertex>, s: set<Vertex>, v: Vertex, g: VertexHash, h: VertexHash)
    requires Held(cfg, net, s, v)
    requires g in v.StrongParents() && h in v.StrongParents() && g.owner == h.owner
    ensures g == h
  {
    var p := StrongParent(s, v, g);
    var q := StrongParent(s, v, h);
    assert WellFormed(cfg, p) && WellFormed(cfg, q);
    assert p in net && q in net && p.owner == q.owner && p.round == q.round;
  }

  /** Past round 1, strong parents come from a quorum of distinct members. */
  lemma StrongQuorum(cfg: Config, net: set<Vertex>, s: set<Vertex>, v: Vertex)
    requires ConfigOk(cfg) && Held(cfg, net, s, v) && v.round > 1
    ensures StrongOwners(v) <= Members(cfg) && |StrongOwners(v)| >= cfg.Quorum()
    ensures |Members(cfg)| == |cfg.keys|
  {
    DistinctSize(cfg.keys);
    forall k | k in StrongOwners(v) ensures k in Members(cfg) {
      var p := StrongOwnerHas(cfg, net, s, v, k);
      assert WellFormed(cfg, p);
    }
    StrongOwnersSize(cfg, net, s, v);
  }

  lemma StrongOwnersSize(cfg: Config, net: set<Vertex>, s: set<Vertex>, v: Vertex)
    requires Held(cfg, net, s, v)
    ensures |StrongOwners(v)| == |v.StrongParents()|
  {
    hide Held;
    var owner := (h: VertexHash) => h.owner;
    var hs := v.StrongParents().Keys;
    forall g, h | g in hs && h in hs && owner(g) == owner(h) ensures g == h {
      OneParentPerOwner(cfg, net, s, v, g, h);
    }
    ImageSize(owner, hs);
    assert Image(owner, hs) == StrongOwners(v);
    assert |hs| == |v.StrongParents()|;
  }

  // ------------------------------------------------- a commit binds every later vertex

  lemma LinkerIs(g: Graph, en: Enumeration, net: set<Vertex>, leader: Vertex, r: Round, e: Edges, k: Key)
    returns (u: Vertex)
    requires ViewOk(g, en, net) && k in Linkers(g, en, leader, r, e)
    ensures u in net && u.owner == k && u.round == r && Leads(net, u, leader, e)
  {
    hide Linked, Leads;
    u := Row(g, r)[k];
    assert r in g && k in g[r];
    assert u in Stored(g);
    ViewLinked(g, en, net, u, leader, e);
  }

  lemma LinkersAreMembers(cfg: Config, g: Graph, en: Enumeration, net: set<Vertex>, leader: Vertex, r: Round)
    requires NetOk(cfg, net) && ViewOk(g, en, net)
    ensures Linkers(g, en, leader, r, cfg.edges) <= Members(cfg)
  {
    hide ViewOk, Linkers;
    forall k | k in Linkers(g, en, leader, r, cfg.edges) ensures k in Members(cfg) {
      var u := LinkerIs(g, en, net, leader, r, cfg.edges, k);
      assert WellFormed(cfg, u);
    }
  }

  lemma StrongEdgeIsEdge(s: set<Vertex>, u: Vertex, p: Vertex, e: Edges)
    requires Edge(s, u, p, Strong)
    ensures Edge(s, u, p, e)
  {
  }

  /** The commit rule, met in the view `g` by enough vertices of round `r`. */
  ghost predicate Bound(cfg: Config, net: set<Vertex>, g: Graph, en: Enumeration, leader: Vertex, r: Round) {
    ViewOk(g, en, net) && r >= 1 && |Linkers(g, en, leader, r, cfg.edges)| >= cfg.Quorum()
  }

  /** Right after the quorum's round, two quorums meet. */
  lemma MeetsLinker(cfg: Config, net: set<Vertex>, g: Graph, en: Enumeration, leader: Vertex, r: Round, s: set<Vertex>,
                    v: Vertex)
    returns (p: Vertex)
    requires ConfigOk(cfg) && Bound(cfg, net, g, en, leader, r) && Held(cfg, net, s, v) && v.round == r + 1
    ensures Edge(s, v, p, Strong) && p in net && Leads(net, p, leader, cfg.edges)
  {
    hide Leads, ViewOk, Linkers, StrongOwners;
    StrongQuorum(cfg, net, s, v);
    LinkersAreMembers(cfg, g, en, net, leader, r);
    QuorumsShare(Members(cfg), StrongOwners(v), Linkers(g, en, leader, r, cfg.edges));
    var k :| k in StrongOwners(v) * Linkers(g, en, leader, r, cfg.edges);
    p := StrongOwnerHas(cfg, net, s, v, k);
    var u := LinkerIs(g, en, net, leader, r, cfg.edges, k);
    assert p in net && u == p;
  }

  lemma SomeStrongParent(cfg: Config, net: set<Vertex>, s: set<Vertex>, v: Vertex) returns (p: Vertex)
    requires ConfigOk(cfg) && Held(cfg, net, s, v) && v.round > 1
    ensures Edge(s, v, p, Strong) && p in s && p.round == v.round - 1
  {
    StrongQuorum(cfg, net, s, v);
    var k :| k in StrongOwners(v);
    p := StrongOwnerHas(cfg, net, s, v, k);
  }

  lemma PartHolds(s: set<Vertex>, net: set<Vertex>, p: Vertex)
    requires View(s, net) && p in s
    ensures p in net && Resolves(s, p.parents)
  {
  }

  /** If a quorum of one view's round-`r` vertices is linked to a leader, every well-formed vertex of a
      later round is linked to it in every view that holds the vertex, or just its parents. */
  lemma {:induction false} CommitBindsLater(cfg: Config, net: set<Vertex>, g: Graph, en: Enumeration, leader: Vertex,
                                            r: Round, s: set<Vertex>, v: Vertex)
    requires ConfigOk(cfg) && Bound(cfg, net, g, en, leader, r) && View(s, net) && Held(cfg, net, s, v) && v.round > r
    ensures Leads(s, v, leader, cfg.edges)
    decreases v.round
  {
    hide Leads, View, Bound, NetOk, WellFormed;
    var p: Vertex;
    if v.round == r + 1 {
      p := MeetsLinker(cfg, net, g, en, leader, r, s, v);
      PartHolds(s, net, p);
      ViewLeads(s, net, p, leader, cfg.edges);
    } else {
      p := SomeStrongParent(cfg, net, s, v) by { BoundRound(cfg, net, g, en, leader, r); }
      StoredHeld(cfg, net, s, p);
      CommitBindsLater(cfg, net, g, en, leader, r, s, p);
    }
    StrongEdgeIsEdge(s, v, p, cfg.edges);
    TargetBelow(s, p, leader, cfg.edges);
    LeadsBy(s, v, p, leader, cfg.edges);
  }

  lemma BoundRound(cfg: Config, net: set<Vertex>, g: Graph, en: Enumeration, leader: Vertex, r: Round)
    requires Bound(cfg, net, g, en, leader, r)
    ensures r >= 1
  {
  }

  lemma CommitBinds(cfg: Config, net: set<Vertex>, g: Graph, en: Enumeration, w: Wave)
    requires cfg.keys != [] && NetOk(cfg, net) && ViewOk(g, en, net) && w > 0 && Commits(cfg, g, en, w)
    ensures Bound(cfg, net, g, en, WaveLeader(cfg.keys, g, w).value, RoundForWave(w, MAX_WAVE))
    ensures WaveLeader(cfg.keys, g, w).value in Stored(g)
    ensures WaveLeader(cfg.keys, g, w).value.round == RoundForWave(w, 1)
  {
    WaveLeaderIs(cfg.keys, g, w);
  }

  // ------------------------------------------------- the chain of committed leaders

  lemma LeaderUnique(cfg: Config, net: set<Vertex>, g: Graph, en: Enumeration, h: Graph, em: Enumeration, w: Wave)
    requires cfg.keys != [] && NetOk(cfg, net) && ViewOk(g, en, net) && ViewOk(h, em, net) && w > 0
    requires WaveLeader(cfg.keys, g, w).Some? && WaveLeader(cfg.keys, h, w).Some?
    ensures WaveLeader(cfg.keys, g, w) == WaveLeader(cfg.keys, h, w)
  {
    WaveLeaderIs(cfg.keys, g, w);
    WaveLeaderIs(cfg.keys, h, w);
  }

  /** The leader of a committed wave, and the earlier leaders it brings along, are held by every view
      that holds a vertex of a later wave; that view's walk finds the same ones. */
  lemma LaterHoldsCommit(cfg: Config, net: set<Vertex>, g: Graph, en: Enumeration, w: Wave, h: Graph, em: Enumeration,
                         leader: Vertex)
    requires ConfigOk(cfg) && NetOk(cfg, net) && ViewOk(g, en, net) && ViewOk(h, em, net)
    requires w > 0 && Commits(cfg, g, en, w)
    requires leader in Stored(h) && leader.round > RoundForWave(w, MAX_WAVE)
    ensures WaveLeader(cfg.keys, h, w) == WaveLeader(cfg.keys, g, w)
    ensures var committed := WaveLeader(cfg.keys, g, w).value;
            Linked(h, em, leader, committed, cfg.edges) && committed in Stored(g) && committed in Stored(h)
  {
    hide Leads, Linked, NetOk, Linkers, View, Enumerates, Stored, WaveLeader, Bound;
    var committed := WaveLeader(cfg.keys, g, w).value;
    WaveLeaderIs(cfg.keys, g, w);
    CommitBinds(cfg, net, g, en, w);
    StoredHeld(cfg, net, Stored(h), leader);
    CommitBindsLater(cfg, net, g, en, committed, RoundForWave(w, MAX_WAVE), Stored(h), leader);
    ViewHolds(g, en, net, committed);
    ViewHolds(h, em, net, leader);
    ViewLinked(h, em, net, leader, committed, cfg.edges);
    WaveLeaderFound(cfg.keys, h, w, committed);
  }

  /** Both views hold all that a committed wave brings along. */
  lemma CommonChain(cfg: Config, net: set<Vertex>, g: Graph, en: Enumeration, h: Graph, em: Enumeration, w: Wave)
    requires ConfigOk(cfg) && ViewOk(g, en, net) && ViewOk(h, em, net) && w > 0 && Commits(cfg, g, en, w)
    requires WaveLeader(cfg.keys, g, w).value in Stored(h)
    ensures var leader := WaveLeader(cfg.keys, g, w).value;
            LeadersToCommit(cfg, h, em, w - 1, leader) == CommittedLeaders(cfg, g, en, w)
    ensures forall l | l in CommittedLeaders(cfg, g, en, w) ::
              l in Stored(g) && l in Stored(h) && l.round <= RoundForWave(w, 1)
  {
    hide Linkers, View, Stored, WaveLeader, LeadersBelow;
    var leader := WaveLeader(cfg.keys, g, w).value;
    WaveLeaderIs(cfg.keys, g, w);
    WalkAgrees(cfg, g, en, h, em, net, w - 1, leader);
    WalkRounds(cfg, g, en, w - 1, leader);
  }

  /** The walk at the committed wave itself. */
  lemma WalkFindsCommit(cfg: Config, net: set<Vertex>, g: Graph, en: Enumeration, w: Wave, h: Graph, em: Enumeration,
                        leader: Vertex)
    requires ConfigOk(cfg) && NetOk(cfg, net) && ViewOk(g, en, net) && ViewOk(h, em, net)
    requires w > 0 && Commits(cfg, g, en, w)
    requires leader in Stored(h) && leader.round > RoundForWave(w, MAX_WAVE)
    ensures WaveLeader(cfg.keys, g, w).value in Stored(h)
    ensures LeadersBelow(cfg, h, em, w, leader) == CommittedLeaders(cfg, g, en, w)
  {
    hide Linked, NetOk, View, SlotsOk, Stored, Linkers, WaveLeader, CommittedLeaders, LeadersBelow;
    LaterHoldsCommit(cfg, net, g, en, w, h, em, leader);
    CommonChain(cfg, net, g, en, h, em, w);
    WalkOnce(cfg, h, em, w, leader);
  }

  /** Walking down from any later leader passes through a committed leader, and from there on finds
      what the committing view found. */
  lemma {:induction false} WalkMeetsCommit(cfg: Config, net: set<Vertex>, g: Graph, en: Enumeration, w: Wave, h: Graph,
                                           em: Enumeration, from: Wave, leader: Vertex)
    returns (newer: seq<Vertex>)
    requires ConfigOk(cfg) && NetOk(cfg, net) && ViewOk(g, en, net) && ViewOk(h, em, net)
    requires 0 < w <= from && Commits(cfg, g, en, w)
    requires leader in Stored(h) && leader.round > RoundForWave(from, MAX_WAVE)
    ensures WaveLeader(cfg.keys, g, w).value in Stored(h)
    ensures LeadersBelow(cfg, h, em, from, leader) == newer + CommittedLeaders(cfg, g, en, w)
    ensures forall l | l in newer :: l.round > RoundForWave(w, MAX_WAVE)
    decreases from
  {
    hide Linked, NetOk, View, SlotsOk, Stored, Linkers, WaveLeader, CommittedLeaders, LeadersBelow;
    if from == w {
      WalkFindsCommit(cfg, net, g, en, w, h, em, leader);
      newer := [];
    } else {
      WalkOnce(cfg, h, em, from, leader);
      WaveLeaderIs(cfg.keys, h, from);
      var prev := WaveLeader(cfg.keys, h, from);
      if prev.Some? && Linked(h, em, leader, prev.value, cfg.edges) {
        var rest := WalkMeetsCommit(cfg, net, g, en, w, h, em, from - 1, prev.value);
        newer := [prev.value] + rest;
      } else {
        newer := WalkMeetsCommit(cfg, net, g, en, w, h, em, from - 1, leader);
      }
    }
  }

  /** The walk finds leaders of earlier rounds only. */
  lemma {:induction false} WalkRounds(cfg: Config, g: Graph, en: Enumeration, w: Wave, leader: Vertex)
    requires cfg.keys != [] && SlotsOk(g)
    ensures forall l | l in LeadersBelow(cfg, g, en, w, leader) :: w > 0 && l.round <= RoundForWave(w, 1)
  {
    hide Linked;
    if w > 0 {
      WaveLeaderIs(cfg.keys, g, w);
      var prev := WaveLeader(cfg.keys, g, w);
      WalkRounds(cfg, g, en, w - 1, leader);
      if prev.Some? {
        WalkRounds(cfg, g, en, w - 1, prev.value);
      }
    }
  }

  /** The leaders a committed wave brings along. */
  ghost function CommittedLeaders(cfg: Config, g: Graph, en: Enumeration, w: Wave): seq<Vertex>
    requires cfg.keys != [] && w > 0 && Commits(cfg, g, en, w)
  {
    LeadersToCommit(cfg, g, en, w - 1, WaveLeader(cfg.keys, g, w).value)
  }

  /** Commit-chain agreement: what one view commits at wave `w` is exactly the part up to wave `w` of
      what any other view commits at `w` or later; no leader is skipped or added. */
  lemma ChainAgreement(cfg: Config, net: set<Vertex>, g: Graph, en: Enumeration, w: Wave, h: Graph, em: Enumeration,
                       w': Wave)
    returns (newer: seq<Vertex>)
    requires ConfigOk(cfg) && NetOk(cfg, net) && ViewOk(g, en, net) && ViewOk(h, em, net)
    requires 0 < w <= w' && Commits(cfg, g, en, w) && Commits(cfg, h, em, w')
    ensures CommittedLeaders(cfg, h, em, w') == newer + CommittedLeaders(cfg, g, en, w)
    ensures forall l | l in newer :: l.round > RoundForWave(w, MAX_WAVE)
    ensures forall l | l in CommittedLeaders(cfg, g, en, w) ::
              l in Stored(g) && l in Stored(h) && l.round <= RoundForWave(w, 1)
  {
    hide NetOk, View, Stored, WaveLeader;
    var leader := WaveLeader(cfg.keys, h, w').value;
    WaveLeaderIs(cfg.keys, h, w');
    if w == w' {
      LeaderUnique(cfg, net, g, en, h, em, w);
      newer := [];
    } else {
      var rest := WalkMeetsCommit(cfg, net, g, en, w, h, em, w' - 1, leader);
      newer := [leader] + rest;
    }
    CommonChain(cfg, net, g, en, h, em, w);
  }

  lemma {:induction false} NewAtShift(g: Graph, en: Enumeration, o: Orientation, newer: seq<Vertex>,
                                      leaders: seq<Vertex>, i: nat, v: Vertex)
    ensures NewAt(g, en, o, leaders, i, v) <==> NewAt(g, en, o, newer + leaders, |newer| + i, v)
    decreases |newer|
  {
    hide NewAt;
    if newer == [] {
      assert newer + leaders == leaders;
    } else {
      assert (newer + leaders)[1..] == newer[1..] + leaders;
      NewAtShift(g, en, o, newer[1..], leaders, i, v);
      NewAtTail(g, en, o, newer + leaders, |newer| - 1 + i, v);
    }
  }

  /** Total order between two views, however each of them iterates its rounds. What the earlier commit
      delivers in the pass of a leader, the later one delivers in the pass of the same leader, and the
      later output starts with exactly the vertices of the earlier one. The earlier output is a prefix
      exactly when the two orders agree on every two vertices that one pass delivers from one round. */
  lemma ViewTotalOrderIff(cfg: Config, net: set<Vertex>, g: Graph, en: Enumeration, w: Wave, h: Graph, em: Enumeration,
                          w': Wave)
    returns (newer: seq<Vertex>)
    requires ConfigOk(cfg) && cfg.orientation.Causal? && NetOk(cfg, net) && ViewOk(g, en, net) && ViewOk(h, em, net)
    requires 0 < w <= w' && Commits(cfg, g, en, w) && Commits(cfg, h, em, w')
    ensures CommittedLeaders(cfg, h, em, w') == newer + CommittedLeaders(cfg, g, en, w)
    ensures forall i: nat, v :: NewAt(g, en, Causal, CommittedLeaders(cfg, g, en, w), i, v) <==>
                                NewAt(h, em, Causal, CommittedLeaders(cfg, h, em, w'), |newer| + i, v)
    ensures var a, b := Ordered(cfg, g, en, w).value, Ordered(cfg, h, em, w').value;
            && |a| <= |b| && (forall v :: v in a <==> v in b[..|a|])
            && (a <= b <==> SameOrders(g, en, Causal, CommittedLeaders(cfg, g, en, w), em))
  {
    hide OrderVertices, NetOk, View, SlotsOk, Commits, Enumerates, Stored, SameOrders, NewAt, CommittedLeaders;
    newer := ChainAgreement(cfg, net, g, en, w, h, em, w');
    var leaders := CommittedLeaders(cfg, g, en, w);
    forall i: nat, v
      ensures NewAt(g, en, Causal, leaders, i, v) <==> NewAt(h, em, Causal, newer + leaders, |newer| + i, v)
    {
      NewAtAgrees(g, en, h, em, net, leaders, i, v);
      NewAtShift(h, em, Causal, newer, leaders, i, v);
    }
    DeliveryContent(g, en, h, em, net, leaders);
    DeliveryEqualIff(g, en, h, em, net, leaders);
    DeliveryExtends(h, em, Causal, newer, leaders);
    OrderedIs(cfg, g, en, w);
    OrderedIs(cfg, h, em, w');
    SameStart(OrderVertices(g, en, Causal, leaders), OrderVertices(h, em, Causal, leaders),
              OrderVertices(h, em, Causal, newer + leaders));
  }

  lemma OrderedIs(cfg: Config, g: Graph, en: Enumeration, w: Wave)
    requires cfg.keys != [] && w > 0 && Commits(cfg, g, en, w) && Enumerates(en, g)
    ensures Ordered(cfg, g, en, w) == Some(OrderVertices(g, en, cfg.orientation, CommittedLeaders(cfg, g, en, w)))
  {
  }

  lemma SameStart<T>(a: seq<T>, c: seq<T>, b: seq<T>)
    requires |a| == |c| && c <= b
    ensures b[..|a|] == c && (a <= b <==> a == c)
  {
  }

  /** In particular, orders that never contradict each other never make outputs fork. */
  lemma ViewTotalOrder(cfg: Config, net: set<Vertex>, g: Graph, en: Enumeration, w: Wave, h: Graph, em: Enumeration,
                       w': Wave)
    requires ConfigOk(cfg) && cfg.orientation.Causal? && NetOk(cfg, net) && ViewOk(g, en, net) && ViewOk(h, em, net)
    requires Compatible(en, em)
    requires 0 < w <= w' && Commits(cfg, g, en, w) && Commits(cfg, h, em, w')
    ensures Ordered(cfg, g, en, w).value <= Ordered(cfg, h, em, w').value
  {
    hide OrderVertices, NetOk, ViewOk, Commits, Enumerates, Compatible, Stored, SameOrders, NewAt;
    var newer := ViewTotalOrderIff(cfg, net, g, en, w, h, em, w');
    newer := ChainAgreement(cfg, net, g, en, w, h, em, w');
    CompatibleOrders(g, en, h, em, net, CommittedLeaders(cfg, g, en, w));
  }
}
