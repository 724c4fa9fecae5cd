/** The ordering layer as functions of one node's graph: who leads a wave, which leaders a committed
    wave brings along, and in which order vertices are delivered (src/consensus/consensus.cpp:105-179). */
module Ordering {
  import opened Orders
  import opened Vertices
  import opened Graphs
  import opened Links
  import opened Quorums
  import opened Enumerations
  import opened Searches

  const MAX_WAVE: nat := 4

  type Wave = nat

  /** Which way the delivery test looks. `Written` is the test in the code, which asks for a path from
      the vertex down to the leader; `Causal` asks for a path from the leader down to the vertex. */
  datatype Orientation = Written | Causal

  /** What all nodes share. `faulty` lists the members that need not run this code. */
  datatype Config = Config(keys: seq<Key>, faulty: set<Key>, edges: Edges, orientation: Orientation) {
    function Quorum(): nat {
      QuorumSize(|keys|)
    }
  }

  ghost predicate ConfigOk(cfg: Config) {
    cfg.keys != [] && Distinct(cfg.keys)
  }

  function RoundForWave(w: Wave, r: Round): Round
    requires w > 0
  {
    MAX_WAVE * (w - 1) + r
  }

  function LeaderKey(keys: seq<Key>, w: Wave): Key
    requires keys != [] && w > 0
  {
    Sorted(keys)[RoundForWave(w, 1) % |keys|]
  }

  function WaveLeader(keys: seq<Key>, g: Graph, w: Wave): Option<Vertex>
    requires keys != [] && w > 0
  {
    var r := RoundForWave(w, 1);
    var k := LeaderKey(keys, w);
    if k in Row(g, r) then Some(Row(g, r)[k]) else None
  }

  lemma WaveLeaderIs(keys: seq<Key>, g: Graph, w: Wave)
    requires keys != [] && w > 0 && SlotsOk(g)
    ensures var l := WaveLeader(keys, g, w);
            l.Some? ==>
              l.value in Stored(g) && l.value.round == RoundForWave(w, 1) && l.value.owner == LeaderKey(keys, w)
  {
    var l := WaveLeader(keys, g, w);
    if l.Some? {
      StoredHolds(g, l.value);
    }
  }

  lemma WaveLeaderFound(keys: seq<Key>, g: Graph, w: Wave, v: Vertex)
    requires keys != [] && w > 0 && SlotsOk(g)
    requires v in Stored(g) && v.round == RoundForWave(w, 1) && v.owner == LeaderKey(keys, w)
    ensures WaveLeader(keys, g, w) == Some(v)
  {
    StoredHolds(g, v);
  }

  // ------------------------------------------------- who leads

  ghost function Smaller(keys: seq<Key>, k: Key): set<Key> {
    set j | j in keys && j < k
  }

  /** The member that a wave elects, said without sorting: as many members have smaller keys as the wave's
      first round leaves over when divided by the committee's size. */
  ghost predicate Elected(keys: seq<Key>, k: Key, w: Wave)
    requires keys != [] && w > 0
  {
    k in keys && |Smaller(keys, k)| == (4 * (w - 1) + 1) % |keys|
  }

  /** As many members of a sorted committee have smaller keys than the one at `i` as come before it. */
  lemma SmallerKeys(keys: seq<Key>, i: nat)
    requires Distinct(keys) && i < |keys|
    ensures Sorted(keys)[i] in keys && |Smaller(keys, Sorted(keys)[i])| == i
  {
    hide Sorted;
    var q := Sorted(keys);
    SortKeepsDistinct(keys);
    assert forall j :: j in keys <==> j in multiset(keys);
    assert forall j :: j in q <==> j in multiset(q);
    assert q[i] in q;
    var smaller := Smaller(keys, q[i]);
    forall j ensures j in smaller <==> j in q[..i] {
      if j in smaller {
        var n :| 0 <= n < |q| && q[n] == j;
        assert q[..i][n] == j;
      }
    }
    assert smaller == Elements(q[..i]);
    DistinctSize(q[..i]);
  }

  /** The elected key, exactly. */
  lemma LeaderKeyIff(keys: seq<Key>, w: Wave, k: Key)
    requires keys != [] && Distinct(keys) && w > 0
    ensures k == LeaderKey(keys, w) <==> Elected(keys, k, w)
  {
    hide Sorted, Smaller;
    var q := Sorted(keys);
    SmallerKeys(keys, RoundForWave(w, 1) % |keys|);
    if Elected(keys, k, w) {
      assert k in multiset(keys);
      assert k in multiset(q);
      assert k in q;
      var i :| 0 <= i < |q| && q[i] == k;
      SmallerKeys(keys, i);
    }
  }

  /** A stored vertex of the wave's first round, of the elected member. */
  ghost predicate IsLeader(keys: seq<Key>, s: set<Vertex>, w: Wave, l: Vertex)
    requires keys != [] && w > 0
  {
    l in s && l.round == 4 * w - 3 && Elected(keys, l.owner, w)
  }

  /** The wave's leader, exactly: none is returned just when none is stored. */
  lemma WaveLeaderIff(keys: seq<Key>, g: Graph, w: Wave)
    requires keys != [] && Distinct(keys) && w > 0 && SlotsOk(g)
    ensures forall l :: WaveLeader(keys, g, w) == Some(l) <==> IsLeader(keys, Stored(g), w, l)
    ensures WaveLeader(keys, g, w).None? <==> forall l :: !IsLeader(keys, Stored(g), w, l)
  {
    hide WaveLeader, LeaderKey, Elected, Stored, SlotsOk;
    WaveLeaderIs(keys, g, w);
    forall l ensures WaveLeader(keys, g, w) == Some(l) <==> IsLeader(keys, Stored(g), w, l) {
      LeaderKeyIff(keys, w, l.owner);
      if IsLeader(keys, Stored(g), w, l) {
        WaveLeaderFound(keys, g, w, l);
      }
    }
    var l := WaveLeader(keys, g, w);
    assert l.Some? ==> l == Some(l.value);
  }

  // ------------------------------------------------- leaders to commit

  /** The leaders of waves `w`, `w-1`, .., 1 that are committed together with `leader`, newest first. */
  ghost function LeadersBelow(cfg: Config, g: Graph, en: Enumeration, w: Wave, leader: Vertex): seq<Vertex>
    requires cfg.keys != []
  {
    if w == 0 then []
    else
      var prev := WaveLeader(cfg.keys, g, w);
      if prev.Some? && Linked(g, en, leader, prev.value, cfg.edges) then
        [prev.value] + LeadersBelow(cfg, g, en, w - 1, prev.value)
      else
        LeadersBelow(cfg, g, en, w - 1, leader)
  }

  /** One turn of the loop. */
  lemma WalkOnce(cfg: Config, g: Graph, en: Enumeration, w: Wave, leader: Vertex)
    requires cfg.keys != []
    ensures w == 0 ==> LeadersBelow(cfg, g, en, w, leader) == []
    ensures w > 0 ==>
              var prev := WaveLeader(cfg.keys, g, w);
              LeadersBelow(cfg, g, en, w, leader) ==
              if prev.Some? && Linked(g, en, leader, prev.value, cfg.edges)
              then [prev.value] + LeadersBelow(cfg, g, en, w - 1, prev.value)
              else LeadersBelow(cfg, g, en, w - 1, leader)
  {
  }

  ghost function LeadersToCommit(cfg: Config, g: Graph, en: Enumeration, fromWave: Wave, leader: Vertex): seq<Vertex>
    requires cfg.keys != []
  {
    [leader] + LeadersBelow(cfg, g, en, fromWave, leader)
  }

  /** Enough vertices of the wave's last round are linked to the wave's leader. */
  ghost predicate Commits(cfg: Config, g: Graph, en: Enumeration, w: Wave)
    requires cfg.keys != [] && w > 0
  {
    var leader := WaveLeader(cfg.keys, g, w);
    leader.Some? && |Linkers(g, en, leader.value, RoundForWave(w, MAX_WAVE), cfg.edges)| >= cfg.Quorum()
  }

  /** The rule by which a wave commits: a quorum of members has vertices in the wave's last round that are
      linked to the wave's leader. */
  ghost predicate CommitRule(cfg: Config, s: set<Vertex>, w: Wave)
    requires cfg.keys != [] && w > 0
  {
    exists l :: IsLeader(cfg.keys, s, w, l) && |Voters(s, l, 4 * w, cfg.edges)| >= cfg.Quorum()
  }

  /** Where digests are unique, a wave commits exactly when the rule is met. */
  lemma CommitsIff(cfg: Config, g: Graph, en: Enumeration, w: Wave)
    requires ConfigOk(cfg) && w > 0 && SlotsOk(g) && Enumerates(en, g) && HashUnique(Stored(g))
    ensures Commits(cfg, g, en, w) <==> CommitRule(cfg, Stored(g), w)
  {
    hide IsLeader, WaveLeader, Stored, SlotsOk, Enumerates, HashUnique, Voters, Linkers;
    WaveLeaderIff(cfg.keys, g, w);
    forall l ensures Linkers(g, en, l, 4 * w, cfg.edges) == Voters(Stored(g), l, 4 * w, cfg.edges) {
      LinkersVoters(g, en, l, 4 * w, cfg.edges);
    }
    var leader := WaveLeader(cfg.keys, g, w);
    if l :| IsLeader(cfg.keys, Stored(g), w, l) && |Voters(Stored(g), l, 4 * w, cfg.edges)| >= cfg.Quorum() {
      assert leader == Some(l);
    }
    if leader.Some? {
      assert leader == Some(leader.value);
      assert IsLeader(cfg.keys, Stored(g), w, leader.value);
    }
  }

  // ------------------------------------------------- which leaders are committed together

  /** `v` is the leader of one of the waves 1, .., `w`, and `from` is linked to it. */
  ghost predicate Candidate(cfg: Config, g: Graph, en: Enumeration, w: Wave, from: Vertex, v: Vertex)
    requires cfg.keys != []
  {
    Linked(g, en, from, v, cfg.edges) && exists x: Wave :: 0 < x <= w && IsLeader(cfg.keys, Stored(g), x, v)
  }

  /** `next` is the highest of them. */
  ghost predicate NextLeader(cfg: Config, g: Graph, en: Enumeration, w: Wave, from: Vertex, next: Vertex)
    requires cfg.keys != []
  {
    && Candidate(cfg, g, en, w, from, next)
    && forall v | Candidate(cfg, g, en, w, from, v) :: v.round <= next.round
  }

  ghost predicate NoneBelow(cfg: Config, g: Graph, en: Enumeration, w: Wave, from: Vertex)
    requires cfg.keys != []
  {
    forall v :: !Candidate(cfg, g, en, w, from, v)
  }

  /** The chain of leaders, said without the loop: each is the highest leader that the one before it is
      linked to, and the last is linked to none. */
  ghost predicate IsWalk(cfg: Config, g: Graph, en: Enumeration, w: Wave, leader: Vertex, cs: seq<Vertex>)
    requires cfg.keys != []
  {
    && cs != [] && cs[0] == leader
    && (forall i | 0 <= i < |cs| - 1 :: NextLeader(cfg, g, en, w, cs[i], cs[i + 1]))
    && NoneBelow(cfg, g, en, w, cs[|cs| - 1])
  }

  lemma CandidateRound(cfg: Config, g: Graph, en: Enumeration, w: Wave, from: Vertex, v: Vertex)
    requires cfg.keys != [] && Candidate(cfg, g, en, w, from, v)
    ensures w > 0 && v.round <= 4 * w - 3 && v.round < from.round
  {
  }

  /** From a vertex not linked to the leader of wave `w`, that wave makes no difference. */
  lemma CandidateBelow(cfg: Config, g: Graph, en: Enumeration, w: Wave, from: Vertex)
    requires ConfigOk(cfg) && SlotsOk(g) && w > 0
    requires var l := WaveLeader(cfg.keys, g, w);
             from.round <= 4 * w - 3 || l.None? || !Linked(g, en, from, l.value, cfg.edges)
    ensures forall v :: Candidate(cfg, g, en, w, from, v) <==> Candidate(cfg, g, en, w - 1, from, v)
  {
    hide Found, WaveLeader, Stored, SlotsOk, Elected;
    WaveLeaderIff(cfg.keys, g, w);
    forall v ensures Candidate(cfg, g, en, w, from, v) <==> Candidate(cfg, g, en, w - 1, from, v) {
      if Candidate(cfg, g, en, w, from, v) {
        var x: Wave :| 0 < x <= w && IsLeader(cfg.keys, Stored(g), x, v);
        assert IsLeader(cfg.keys, Stored(g), x, v);
      }
    }
  }

  lemma NextBelow(cfg: Config, g: Graph, en: Enumeration, w: Wave, from: Vertex, next: Vertex)
    requires cfg.keys != [] && w > 0
    requires forall v :: Candidate(cfg, g, en, w, from, v) <==> Candidate(cfg, g, en, w - 1, from, v)
    ensures NextLeader(cfg, g, en, w, from, next) <==> NextLeader(cfg, g, en, w - 1, from, next)
  {
    hide Candidate;
  }

  /** A walk through the waves below `w` is one through the waves up to `w`, unless it starts at a vertex
      linked to the leader of wave `w`. */
  lemma WalkBelow(cfg: Config, g: Graph, en: Enumeration, w: Wave, leader: Vertex, cs: seq<Vertex>)
    requires ConfigOk(cfg) && SlotsOk(g) && w > 0 && IsWalk(cfg, g, en, w - 1, leader, cs)
    requires var l := WaveLeader(cfg.keys, g, w);
             leader.round <= 4 * w - 3 || l.None? || !Linked(g, en, leader, l.value, cfg.edges)
    ensures IsWalk(cfg, g, en, w, leader, cs)
  {
    hide Candidate, NextLeader, WaveLeader, Linked, SlotsOk, Stored;
    forall i | 0 <= i < |cs|
      ensures forall v :: Candidate(cfg, g, en, w, cs[i], v) <==> Candidate(cfg, g, en, w - 1, cs[i], v)
    {
      if i > 0 {
        assert NextLeader(cfg, g, en, w - 1, cs[i - 1], cs[i - 1 + 1]);
        NextIs(cfg, g, en, w - 1, cs[i - 1], cs[i]);
        CandidateRound(cfg, g, en, w - 1, cs[i - 1], cs[i]);
      }
      CandidateBelow(cfg, g, en, w, cs[i]);
    }
    forall i | 0 <= i < |cs| - 1 ensures NextLeader(cfg, g, en, w, cs[i], cs[i + 1]) {
      NextBelow(cfg, g, en, w, cs[i], cs[i + 1]);
    }
  }

  lemma NextIs(cfg: Config, g: Graph, en: Enumeration, w: Wave, from: Vertex, next: Vertex)
    requires cfg.keys != [] && NextLeader(cfg, g, en, w, from, next)
    ensures Candidate(cfg, g, en, w, from, next)
  {
  }

  /** Linked to it, the leader of wave `w` is the highest. */
  lemma TopLeader(cfg: Config, g: Graph, en: Enumeration, w: Wave, from: Vertex)
    requires ConfigOk(cfg) && SlotsOk(g) && w > 0
    requires var l := WaveLeader(cfg.keys, g, w); l.Some? && Linked(g, en, from, l.value, cfg.edges)
    ensures NextLeader(cfg, g, en, w, from, WaveLeader(cfg.keys, g, w).value)
  {
    hide Candidate, WaveLeader, Linked, SlotsOk, Stored, Elected;
    var l := WaveLeader(cfg.keys, g, w).value;
    WaveLeaderIff(cfg.keys, g, w);
    assert WaveLeader(cfg.keys, g, w) == Some(l);
    assert IsLeader(cfg.keys, Stored(g), w, l);
    LeaderCandidate(cfg, g, en, w, from, l);
    forall v | Candidate(cfg, g, en, w, from, v) ensures v.round <= l.round { CandidateRound(cfg, g, en, w, from, v); }
  }

  lemma LeaderCandidate(cfg: Config, g: Graph, en: Enumeration, w: Wave, from: Vertex, l: Vertex)
    requires cfg.keys != [] && w > 0 && IsLeader(cfg.keys, Stored(g), w, l) && Linked(g, en, from, l, cfg.edges)
    ensures Candidate(cfg, g, en, w, from, l)
  {
  }

  lemma NoWaves(cfg: Config, g: Graph, en: Enumeration, from: Vertex)
    requires cfg.keys != []
    ensures NoneBelow(cfg, g, en, 0, from)
  {
  }

  lemma WalkGrows(cfg: Config, g: Graph, en: Enumeration, w: Wave, leader: Vertex, cs: seq<Vertex>)
    requires cfg.keys != [] && cs != [] && IsWalk(cfg, g, en, w, cs[0], cs) && NextLeader(cfg, g, en, w, leader, cs[0])
    ensures IsWalk(cfg, g, en, w, leader, [leader] + cs)
  {
    hide NoneBelow, NextLeader;
    var ds := [leader] + cs;
    forall i | 0 <= i < |ds| - 1 ensures NextLeader(cfg, g, en, w, ds[i], ds[i + 1]) {
      if i > 0 {
        assert NextLeader(cfg, g, en, w, cs[i - 1], cs[i - 1 + 1]);
      }
    }
  }

  lemma {:induction false} LoopWalks(cfg: Config, g: Graph, en: Enumeration, w: Wave, leader: Vertex)
    requires ConfigOk(cfg) && SlotsOk(g)
    ensures IsWalk(cfg, g, en, w, leader, LeadersToCommit(cfg, g, en, w, leader))
    decreases w
  {
    hide NoneBelow, NextLeader, WaveLeader, Linked, SlotsOk, Stored;
    if w == 0 {
      NoWaves(cfg, g, en, leader);
    } else {
      hide IsWalk;
      var prev := WaveLeader(cfg.keys, g, w);
      if prev.Some? && Linked(g, en, leader, prev.value, cfg.edges) {
        var rest := LeadersToCommit(cfg, g, en, w - 1, prev.value);
        LoopWalks(cfg, g, en, w - 1, prev.value);
        WaveLeaderIs(cfg.keys, g, w);
        WalkBelow(cfg, g, en, w, prev.value, rest);
        TopLeader(cfg, g, en, w, leader);
        WalkGrows(cfg, g, en, w, leader, rest);
      } else {
        LoopWalks(cfg, g, en, w - 1, leader);
        WalkBelow(cfg, g, en, w, leader, LeadersToCommit(cfg, g, en, w - 1, leader));
      }
    }
  }

  lemma NextUnique(cfg: Config, g: Graph, en: Enumeration, w: Wave, from: Vertex, a: Vertex, b: Vertex)
    requires ConfigOk(cfg) && SlotsOk(g) && NextLeader(cfg, g, en, w, from, a) && NextLeader(cfg, g, en, w, from, b)
    ensures a == b
  {
    hide Linked, SlotsOk, Stored, Elected, WaveLeader;
    var x: Wave :| 0 < x <= w && IsLeader(cfg.keys, Stored(g), x, a);
    var y: Wave :| 0 < y <= w && IsLeader(cfg.keys, Stored(g), y, b);
    assert a.round == b.round && x == y;
    WaveLeaderIff(cfg.keys, g, x);
    assert WaveLeader(cfg.keys, g, x) == Some(a) && WaveLeader(cfg.keys, g, x) == Some(b);
  }

  lemma {:induction false} WalkUnique(cfg: Config, g: Graph, en: Enumeration, w: Wave, leader: Vertex, cs: seq<Vertex>,
                                      ds: seq<Vertex>)
    requires ConfigOk(cfg) && SlotsOk(g) && IsWalk(cfg, g, en, w, leader, cs) && IsWalk(cfg, g, en, w, leader, ds)
    ensures cs == ds
    decreases |cs|
  {
    hide Candidate, NextLeader, SlotsOk;
    if |cs| > 1 && |ds| > 1 {
      assert NextLeader(cfg, g, en, w, cs[0], cs[0 + 1]) && NextLeader(cfg, g, en, w, ds[0], ds[0 + 1]);
      NextUnique(cfg, g, en, w, leader, cs[1], ds[1]);
      WalkTail(cfg, g, en, w, leader, cs);
      WalkTail(cfg, g, en, w, leader, ds);
      WalkUnique(cfg, g, en, w, cs[1], cs[1..], ds[1..]);
      assert cs == [leader] + cs[1..] && ds == [leader] + ds[1..];
    } else if |cs| > 1 {
      assert NextLeader(cfg, g, en, w, cs[0], cs[0 + 1]);
      NextIs(cfg, g, en, w, leader, cs[1]);
    } else if |ds| > 1 {
      assert NextLeader(cfg, g, en, w, ds[0], ds[0 + 1]);
      NextIs(cfg, g, en, w, leader, ds[1]);
    }
  }

  lemma WalkTail(cfg: Config, g: Graph, en: Enumeration, w: Wave, leader: Vertex, cs: seq<Vertex>)
    requires cfg.keys != [] && IsWalk(cfg, g, en, w, leader, cs) && |cs| > 1
    ensures IsWalk(cfg, g, en, w, cs[1], cs[1..])
  {
    hide Candidate, NextLeader;
    var rest := cs[1..];
    forall i | 0 <= i < |rest| - 1 ensures NextLeader(cfg, g, en, w, rest[i], rest[i + 1]) {
      assert NextLeader(cfg, g, en, w, cs[i + 1], cs[i + 1 + 1]);
    }
  }

  /** The loop takes the highest linked leader each time, and stops only when there is none left. */
  lemma WalkIff(cfg: Config, g: Graph, en: Enumeration, w: Wave, leader: Vertex, cs: seq<Vertex>)
    requires ConfigOk(cfg) && SlotsOk(g)
    ensures cs == LeadersToCommit(cfg, g, en, w, leader) <==> IsWalk(cfg, g, en, w, leader, cs)
  {
    hide IsWalk, LeadersToCommit, SlotsOk;
    LoopWalks(cfg, g, en, w, leader);
    if IsWalk(cfg, g, en, w, leader, cs) {
      WalkUnique(cfg, g, en, w, leader, cs, LeadersToCommit(cfg, g, en, w, leader));
    }
  }

  // ------------------------------------------------- delivery

  function RowSeq(row: map<Key, Vertex>, ks: seq<Key>): (q: seq<Vertex>)
    requires forall k | k in ks :: k in row
  {
    seq(|ks|, i requires 0 <= i < |ks| => row[ks[i]])
  }

  /** The vertices of the rounds `rs`, round by round, leaving round 0 out. */
  ghost function GraphSeq(g: Graph, en: Enumeration, rs: seq<Round>): seq<Vertex>
    requires Enumerates(en, g) && forall r | r in rs :: r in g
  {
    if rs == [] then []
    else
      var init := rs[..|rs| - 1];
      var r := rs[|rs| - 1];
      GraphSeq(g, en, init) + if r > 0 then assert Lists(en[r], g[r].Keys); RowSeq(g[r], en[r]) else []
  }

  lemma GraphSeqGrows(g: Graph, en: Enumeration, rs: seq<Round>, i: nat)
    requires Enumerates(en, g) && i < |rs| && forall r | r in rs :: r in g
    ensures Lists(en[rs[i]], g[rs[i]].Keys)
    ensures GraphSeq(g, en, rs[..i + 1]) ==
            GraphSeq(g, en, rs[..i]) + if rs[i] > 0 then RowSeq(g[rs[i]], en[rs[i]]) else []
  {
    assert rs[..i + 1][..i] == rs[..i];
  }

  /** The delivery test for one vertex in the pass of one leader. */
  ghost predicate Delivers(g: Graph, en: Enumeration, o: Orientation, leader: Vertex, v: Vertex) {
    if o.Causal? then Linked(g, en, leader, v, All) else Linked(g, en, v, leader, All)
  }

  ghost function Hashes(q: seq<Vertex>): set<VertexHash> {
    set v | v in q :: v.hash
  }

  /** What the pass of one leader adds when it visits `vs` in order. */
  ghost function Pass(g: Graph, en: Enumeration, o: Orientation, leader: Vertex, vs: seq<Vertex>,
                      delivered: set<VertexHash>): seq<Vertex>
  {
    if vs == [] then []
    else
      var out := Pass(g, en, o, leader, vs[..|vs| - 1], delivered);
      var v := vs[|vs| - 1];
      if v.hash !in delivered + Hashes(out) && Delivers(g, en, o, leader, v) then out + [v] else out
  }

  ghost function LeaderPass(g: Graph, en: Enumeration, o: Orientation, leader: Vertex,
                            delivered: set<VertexHash>): seq<Vertex>
    requires Enumerates(en, g)
  {
    Pass(g, en, o, leader, GraphSeq(g, en, Ascending(g.Keys)), delivered)
  }

  /** The delivered sequence for `leaders`, newest first: the oldest leader's pass comes first. */
  ghost function OrderVertices(g: Graph, en: Enumeration, o: Orientation, leaders: seq<Vertex>): seq<Vertex>
    requires Enumerates(en, g)
  {
    if leaders == [] then []
    else
      var earlier := OrderVertices(g, en, o, leaders[1..]);
      earlier + LeaderPass(g, en, o, leaders[0], Hashes(earlier))
  }

  /** What a node outputs for a wave, or nothing when the wave does not commit. */
  ghost function Ordered(cfg: Config, g: Graph, en: Enumeration, w: Wave): Option<seq<Vertex>>
    requires cfg.keys != [] && w > 0 && Enumerates(en, g)
  {
    if Commits(cfg, g, en, w) then
      var leader := WaveLeader(cfg.keys, g, w).value;
      Some(OrderVertices(g, en, cfg.orientation, LeadersToCommit(cfg, g, en, w - 1, leader)))
    else None
  }

  // ------------------------------------------------- the order of one pass

  lemma RowSeqElements(g: Graph, en: Enumeration, r: Round)
    requires SlotsOk(g) && Enumerates(en, g) && r in g
    ensures r in en && Lists(en[r], g[r].Keys)
    ensures var row := RowSeq(g[r], en[r]);
            InOrder(en, row) && forall v :: v in row <==> Holds(g, v) && v.round == r
  {
    assert Lists(en[r], g[r].Keys);
    var ks := en[r];
    var row := RowSeq(g[r], ks);
    assert forall i | 0 <= i < |ks| :: ks[i] in g[r] && row[i] == g[r][ks[i]];
    forall v | Holds(g, v) && v.round == r ensures v in row {
      assert v.owner in ks;
      var i :| 0 <= i < |ks| && ks[i] == v.owner;
      assert row[i] == v;
    }
    forall v | v in row ensures Holds(g, v) && v.round == r {
      var i :| 0 <= i < |row| && row[i] == v;
      assert ks[i] in g[r];
    }
    forall i, j | 0 <= i < j < |row| ensures Before(en, row[i], row[j]) {
      assert row[i].owner == ks[i] && row[j].owner == ks[j];
      assert Precedes(en[r], ks[i], ks[j]);
    }
  }

  lemma {:induction false} GraphSeqElements(g: Graph, en: Enumeration, rs: seq<Round>)
    requires SlotsOk(g) && Enumerates(en, g) && Increasing(rs) && forall r | r in rs :: r in g
    ensures InOrder(en, GraphSeq(g, en, rs))
    ensures forall v :: v in GraphSeq(g, en, rs) <==> Holds(g, v) && v.round in rs && v.round > 0
  {
    hide Enumerates, Precedes;
    if rs != [] {
      var init, r := rs[..|rs| - 1], rs[|rs| - 1];
      GraphSeqElements(g, en, init);
      assert forall x :: x in rs <==> x in init || x == r;
      if r > 0 {
        RowSeqElements(g, en, r);
        var before, row := GraphSeq(g, en, init), RowSeq(g[r], en[r]);
        forall x, y | x in before && y in row ensures Before(en, x, y) {
          var i :| 0 <= i < |init| && init[i] == x.round;
          assert rs[i] < rs[|rs| - 1];
        }
        InOrderConcat(en, before, row);
        assert forall v :: v in before + row <==> v in before || v in row;
      }
    }
  }

  /** A pass holds exactly the visited vertices that are new and pass the test; visiting in order
      delivers in order. */
  lemma {:induction false} PassElements(g: Graph, en: Enumeration, o: Orientation, leader: Vertex, vs: seq<Vertex>,
                                        delivered: set<VertexHash>)
    requires Distinct(vs) && HashUnique(Elements(vs))
    ensures forall v :: v in Pass(g, en, o, leader, vs, delivered) <==>
                        v in vs && v.hash !in delivered && Delivers(g, en, o, leader, v)
    ensures InOrder(en, vs) ==> InOrder(en, Pass(g, en, o, leader, vs, delivered))
  {
    hide Before, Delivers;
    if vs != [] {
      var init, v := vs[..|vs| - 1], vs[|vs| - 1];
      assert forall x :: x in vs <==> x in init || x == v;
      assert Elements(init) <= Elements(vs);
      PassElements(g, en, o, leader, init, delivered);
      var out := Pass(g, en, o, leader, init, delivered);
      forall u | u in init ensures u.hash != v.hash && (InOrder(en, vs) ==> Before(en, u, v)) {
        var i :| 0 <= i < |init| && init[i] == u;
        assert vs[i] != vs[|vs| - 1];
        assert u in Elements(vs) && v in Elements(vs);
      }
      assert v.hash !in Hashes(out);
      if InOrder(en, vs) {
        InOrderConcat(en, out, [v]);
      }
    }
  }

  /** In whatever order a pass visits the vertices, it delivers the same ones. */
  lemma PassIgnoresOrder(g: Graph, en: Enumeration, o: Orientation, leader: Vertex, vs: seq<Vertex>, ws: seq<Vertex>,
                         delivered: set<VertexHash>)
    requires Distinct(vs) && Distinct(ws) && Elements(vs) == Elements(ws) && HashUnique(Elements(vs))
    ensures Elements(Pass(g, en, o, leader, vs, delivered)) == Elements(Pass(g, en, o, leader, ws, delivered))
  {
    hide Delivers;
    PassElements(g, en, o, leader, vs, delivered);
    PassElements(g, en, o, leader, ws, delivered);
    assert forall v :: v in vs <==> v in Elements(vs);
    assert forall v :: v in ws <==> v in Elements(ws);
  }

  /** The pass of one leader over a whole graph, said without the loop. */
  lemma LeaderPassIs(g: Graph, en: Enumeration, o: Orientation, leader: Vertex, delivered: set<VertexHash>)
    requires SlotsOk(g) && HashUnique(Stored(g)) && Enumerates(en, g)
    ensures InOrder(en, LeaderPass(g, en, o, leader, delivered))
    ensures forall v :: v in LeaderPass(g, en, o, leader, delivered) <==>
                        v in Stored(g) && v.round > 0 && v.hash !in delivered && Delivers(g, en, o, leader, v)
  {
    hide Before, Delivers, Enumerates;
    var rs := Ascending(g.Keys);
    AscendingIncreasing(g.Keys);
    assert forall r | r in rs :: r in g;
    GraphSeqElements(g, en, rs);
    forall v ensures v in Stored(g) <==> Holds(g, v) { StoredHolds(g, v); }
    EnumeratesProper(en, g);
    InOrderDistinct(en, GraphSeq(g, en, rs));
    PassElements(g, en, o, leader, GraphSeq(g, en, rs), delivered);
  }

  // ------------------------------------------------- the delivered sequence

  /** Exact delivery: the stored vertices that pass some leader's test, and no digest twice. */
  lemma {:induction false} ExactDelivery(g: Graph, en: Enumeration, o: Orientation, leaders: seq<Vertex>)
    requires SlotsOk(g) && HashUnique(Stored(g)) && Enumerates(en, g)
    ensures forall v :: v in OrderVertices(g, en, o, leaders) <==>
                        v in Stored(g) && v.round > 0 && exists l :: l in leaders && Delivers(g, en, o, l, v)
    ensures forall i, j | 0 <= i < j < |OrderVertices(g, en, o, leaders)| ::
              OrderVertices(g, en, o, leaders)[i].hash != OrderVertices(g, en, o, leaders)[j].hash
  {
    hide Delivers, Enumerates, Stored, SlotsOk, LeaderPass;
    if leaders != [] {
      var rest := leaders[1..];
      assert forall l :: l in leaders <==> l == leaders[0] || l in rest;
      ExactDelivery(g, en, o, rest);
      var earlier := OrderVertices(g, en, o, rest);
      LeaderPassIs(g, en, o, leaders[0], Hashes(earlier));
      var pass := LeaderPass(g, en, o, leaders[0], Hashes(earlier));
      var whole := OrderVertices(g, en, o, leaders);
      assert whole == earlier + pass;
      forall v ensures v in whole <==>
                       v in Stored(g) && v.round > 0 && exists l :: l in leaders && Delivers(g, en, o, l, v) {
        assert v in whole <==> v in earlier || v in pass;
        if v in Stored(g) && v.hash in Hashes(earlier) {
          var u :| u in earlier && u.hash == v.hash;
          assert u == v;
        }
      }
      EnumeratesProper(en, g);
      InOrderDistinct(en, pass);
      forall i, j | 0 <= i < j < |whole| ensures whole[i].hash != whole[j].hash {
        if i < |earlier| <= j {
          assert whole[i] in earlier && whole[j] in pass;
        } else if |earlier| <= i {
          assert pass[i - |earlier|] != pass[j - |earlier|];
          assert pass[i - |earlier|] in pass && pass[j - |earlier|] in pass;
        }
      }
    }
  }

  /** Causal delivery: whatever a delivered vertex is linked to is delivered strictly earlier. */
  lemma {:induction false} CausalDelivery(g: Graph, en: Enumeration, leaders: seq<Vertex>, j: nat, a: Vertex)
    returns (i: nat)
    requires SlotsOk(g) && Coherent(Stored(g)) && Enumerates(en, g) && forall v | v in Stored(g) :: v.round > 0
    requires forall l | l in leaders :: l in Stored(g)
    requires j < |OrderVertices(g, en, Causal, leaders)| && a in Stored(g)
    requires Leads(Stored(g), OrderVertices(g, en, Causal, leaders)[j], a, All)
    ensures i < j && OrderVertices(g, en, Causal, leaders)[i] == a
  {
    hide Leads, Closed, HashUnique, Stored, LeaderPass, Linked, Enumerates, SlotsOk;
    var s := Stored(g);
    var earlier := OrderVertices(g, en, Causal, leaders[1..]);
    if j < |earlier| {
      i := CausalDelivery(g, en, leaders[1..], j, a);
    } else {
      var pass := LeaderPass(g, en, Causal, leaders[0], Hashes(earlier));
      LeaderPassIs(g, en, Causal, leaders[0], Hashes(earlier));
      var v := pass[j - |earlier|];
      assert v in pass;
      LinkedLeads(g, en, leaders[0], v, All);
      ClosedAt(s, leaders[0]);
      LeadsTrans(s, leaders[0], v, a, All);
      TargetBelow(s, v, a, All);
      LinkedLeads(g, en, leaders[0], a, All);
      if a.hash in Hashes(earlier) {
        i := DeliveredEarlier(g, en, leaders[1..], a);
      } else {
        assert a in pass;
        var k :| 0 <= k < |pass| && pass[k] == a;
        assert j - |earlier| < k ==> Before(en, v, a);
        i := |earlier| + k;
      }
    }
  }

  lemma DeliveredEarlier(g: Graph, en: Enumeration, leaders: seq<Vertex>, a: Vertex) returns (i: nat)
    requires SlotsOk(g) && HashUnique(Stored(g)) && Enumerates(en, g) && a in Stored(g)
    requires a.hash in Hashes(OrderVertices(g, en, Causal, leaders))
    ensures i < |OrderVertices(g, en, Causal, leaders)| && OrderVertices(g, en, Causal, leaders)[i] == a
  {
    hide Enumerates, Delivers;
    var earlier := OrderVertices(g, en, Causal, leaders);
    var u :| u in earlier && u.hash == a.hash;
    ExactDelivery(g, en, Causal, leaders);
    i :| 0 <= i < |earlier| && earlier[i] == u;
  }

  // ------------------------------------------------- one pass among the others

  /** The pass of the `i`-th leader is the one that delivers `v`: it passes that leader's test and no
      older one's. */
  ghost predicate NewAt(g: Graph, en: Enumeration, o: Orientation, leaders: seq<Vertex>, i: nat, v: Vertex) {
    && i < |leaders| && v in Stored(g) && v.round > 0 && Delivers(g, en, o, leaders[i], v)
    && forall j | i < j < |leaders| :: !Delivers(g, en, o, leaders[j], v)
  }

  lemma NewAtTail(g: Graph, en: Enumeration, o: Orientation, leaders: seq<Vertex>, i: nat, v: Vertex)
    requires leaders != []
    ensures NewAt(g, en, o, leaders[1..], i, v) <==> NewAt(g, en, o, leaders, i + 1, v)
  {
    hide Delivers, Stored;
    var rest := leaders[1..];
    if NewAt(g, en, o, rest, i, v) {
      forall j | i + 1 < j < |leaders| ensures !Delivers(g, en, o, leaders[j], v) {
        assert !Delivers(g, en, o, rest[j - 1], v);
      }
    }
    if NewAt(g, en, o, leaders, i + 1, v) {
      forall j | i < j < |rest| ensures !Delivers(g, en, o, rest[j], v) {
        assert !Delivers(g, en, o, leaders[j + 1], v);
      }
    }
  }

  lemma PassIsNew(g: Graph, en: Enumeration, o: Orientation, leaders: seq<Vertex>)
    requires SlotsOk(g) && HashUnique(Stored(g)) && Enumerates(en, g) && leaders != []
    ensures var pass := LeaderPass(g, en, o, leaders[0], Hashes(OrderVertices(g, en, o, leaders[1..])));
            InOrder(en, pass) && forall v :: v in pass <==> NewAt(g, en, o, leaders, 0, v)
  {
    hide Delivers, Stored, SlotsOk, Enumerates, LeaderPass, Before;
    var rest := leaders[1..];
    var earlier := OrderVertices(g, en, o, rest);
    ExactDelivery(g, en, o, rest);
    LeaderPassIs(g, en, o, leaders[0], Hashes(earlier));
    forall v | v in Stored(g) && v.round > 0
      ensures v.hash in Hashes(earlier) <==> exists j :: 0 < j < |leaders| && Delivers(g, en, o, leaders[j], v)
    {
      if v.hash in Hashes(earlier) {
        var u :| u in earlier && u.hash == v.hash;
        var l :| l in rest && Delivers(g, en, o, l, u);
        var k :| 0 <= k < |rest| && rest[k] == l;
        assert leaders[k + 1] == l;
      }
      if j :| 0 < j < |leaders| && Delivers(g, en, o, leaders[j], v) {
        assert rest[j - 1] in rest;
        assert v in earlier;
      }
    }
  }

  /** The output is cut into passes: the part added for the `i`-th leader holds what is new there, by
      round and then as the round is iterated, and starts where the older leaders' output ends. */
  lemma PassSegment(g: Graph, en: Enumeration, o: Orientation, leaders: seq<Vertex>, i: nat) returns (pass: seq<Vertex>)
    requires SlotsOk(g) && HashUnique(Stored(g)) && Enumerates(en, g) && i < |leaders|
    ensures OrderVertices(g, en, o, leaders[i..]) == OrderVertices(g, en, o, leaders[i + 1..]) + pass
    ensures OrderVertices(g, en, o, leaders[i..]) <= OrderVertices(g, en, o, leaders)
    ensures InOrder(en, pass) && forall v :: v in pass <==> NewAt(g, en, o, leaders, i, v)
    decreases i
  {
    hide SlotsOk, Enumerates, Stored, Delivers, LeaderPass, NewAt;
    if i == 0 {
      assert leaders[0..] == leaders;
      PassIsNew(g, en, o, leaders);
      pass := LeaderPass(g, en, o, leaders[0], Hashes(OrderVertices(g, en, o, leaders[1..])));
    } else {
      var rest := leaders[1..];
      assert rest[i - 1..] == leaders[i..] && rest[i..] == leaders[i + 1..];
      pass := PassSegment(g, en, o, rest, i - 1);
      forall v ensures v in pass <==> NewAt(g, en, o, leaders, i, v) { NewAtTail(g, en, o, leaders, i - 1, v); }
    }
  }

  // ------------------------------------------------- chains of leaders

  /** Each leader is linked to the next older one. */
  ghost predicate Chained(s: set<Vertex>, leaders: seq<Vertex>, e: Edges) {
    forall i | 0 <= i < |leaders| - 1 :: Leads(s, leaders[i], leaders[i + 1], e)
  }

  lemma {:induction false} WalkChained(cfg: Config, g: Graph, en: Enumeration, w: Wave, leader: Vertex)
    requires cfg.keys != [] && SlotsOk(g) && Enumerates(en, g) && Coherent(Stored(g)) && leader in Stored(g)
    ensures Chained(Stored(g), LeadersToCommit(cfg, g, en, w, leader), cfg.edges)
    ensures forall l | l in LeadersToCommit(cfg, g, en, w, leader) :: l in Stored(g)
  {
    hide Leads, Linked, Stored, WaveLeader, SlotsOk, Closed, HashUnique, Enumerates;
    if w > 0 {
      var prev := WaveLeader(cfg.keys, g, w);
      WaveLeaderIs(cfg.keys, g, w);
      if prev.Some? && Linked(g, en, leader, prev.value, cfg.edges) {
        LinkedLeads(g, en, leader, prev.value, cfg.edges);
        WalkChained(cfg, g, en, w - 1, prev.value);
        var rest := LeadersToCommit(cfg, g, en, w - 1, prev.value);
        assert LeadersToCommit(cfg, g, en, w, leader) == [leader] + rest;
      } else {
        WalkChained(cfg, g, en, w - 1, leader);
      }
    }
  }

  lemma ChainTail(s: set<Vertex>, leaders: seq<Vertex>, e: Edges)
    requires leaders != [] && Chained(s, leaders, e)
    ensures Chained(s, leaders[1..], e)
  {
    hide Leads;
    var rest := leaders[1..];
    forall i | 0 <= i < |rest| - 1 ensures Leads(s, rest[i], rest[i + 1], e) {
      assert Leads(s, leaders[i + 1], leaders[i + 2], e);
    }
  }

  /** The newest leader is linked to every older one. */
  lemma {:induction false} ChainLeads(s: set<Vertex>, leaders: seq<Vertex>, k: nat, e: Edges)
    requires Coherent(s) && 0 < k < |leaders| && Chained(s, leaders, e) && forall l | l in leaders :: l in s
    ensures Leads(s, leaders[0], leaders[k], All)
  {
    hide Leads, Closed, HashUnique;
    assert Leads(s, leaders[k - 1], leaders[k], e);
    LeadsAll(s, leaders[k - 1], leaders[k], e);
    if k > 1 {
      ChainLeads(s, leaders, k - 1, e);
      ClosedAt(s, leaders[0]);
      LeadsTrans(s, leaders[0], leaders[k - 1], leaders[k], All);
    }
  }

  // ------------------------------------------------- several views

  /** The graph of one node, seen as a part of everything that was broadcast. */
  ghost predicate Part(g: Graph, net: set<Vertex>) {
    SlotsOk(g) && View(Stored(g), net)
  }

  /** The same, iterated in some order. */
  ghost predicate ViewOk(g: Graph, en: Enumeration, net: set<Vertex>) {
    Part(g, net) && Enumerates(en, g)
  }

  lemma ViewCoherent(g: Graph, en: Enumeration, net: set<Vertex>)
    requires ViewOk(g, en, net)
    ensures Coherent(Stored(g))
  {
  }

  /** What a view's search answers does not depend on the view or its order of iteration. */
  lemma ViewLinked(g: Graph, en: Enumeration, net: set<Vertex>, u: Vertex, v: Vertex, e: Edges)
    requires ViewOk(g, en, net) && Resolves(Stored(g), u.parents)
    ensures Linked(g, en, u, v, e) <==> Leads(net, u, v, e)
    ensures Linked(g, en, u, v, e) <==> Leads(Stored(g), u, v, e)
    ensures Leads(net, u, v, e) && v in net ==> v in Stored(g)
  {
    hide Linked, Leads, Stored, SlotsOk, Enumerates;
    LinkedLeads(g, en, u, v, e);
    ViewLeads(Stored(g), net, u, v, e);
    if Leads(net, u, v, e) && v in net {
      LeadsDown(Stored(g), net, u, v, e);
    }
  }

  lemma ViewHolds(g: Graph, en: Enumeration, net: set<Vertex>, v: Vertex)
    requires ViewOk(g, en, net) && v in Stored(g)
    ensures v in net && Resolves(Stored(g), v.parents)
  {
  }

  /** Two views that hold a leader agree on what it delivers. */
  lemma DeliversAgrees(g: Graph, en: Enumeration, h: Graph, em: Enumeration, net: set<Vertex>, l: Vertex, v: Vertex)
    requires ViewOk(g, en, net) && ViewOk(h, em, net) && l in Stored(g) && l in Stored(h)
    ensures v in Stored(g) && Delivers(g, en, Causal, l, v) ==> v in Stored(h) && Delivers(h, em, Causal, l, v)
  {
    hide Leads, Linked, ViewOk, Stored;
    ViewHolds(g, en, net, l);
    ViewHolds(h, em, net, l);
    ViewLinked(g, en, net, l, v, All);
    ViewLinked(h, em, net, l, v, All);
    if v in Stored(g) {
      ViewHolds(g, en, net, v);
    }
  }

  /** They deliver the same vertices in the pass of each leader, whatever orders they iterate in. */
  lemma NewAtAgrees(g: Graph, en: Enumeration, h: Graph, em: Enumeration, net: set<Vertex>, leaders: seq<Vertex>,
                    i: nat, v: Vertex)
    requires ViewOk(g, en, net) && ViewOk(h, em, net)
    requires forall l | l in leaders :: l in Stored(g) && l in Stored(h)
    ensures NewAt(g, en, Causal, leaders, i, v) <==> NewAt(h, em, Causal, leaders, i, v)
  {
    hide Delivers, ViewOk, Stored;
    if i < |leaders| {
      forall j | i <= j < |leaders|
        ensures v in Stored(g) && Delivers(g, en, Causal, leaders[j], v) <==>
                v in Stored(h) && Delivers(h, em, Causal, leaders[j], v)
      {
        DeliversAgrees(g, en, h, em, net, leaders[j], v);
        DeliversAgrees(h, em, g, en, net, leaders[j], v);
      }
    }
  }

  /** The two orders agree on every two vertices that one pass delivers from one round. */
  ghost predicate SameOrders(g: Graph, en: Enumeration, o: Orientation, leaders: seq<Vertex>, em: Enumeration) {
    forall i: nat, u, v | NewAt(g, en, o, leaders, i, u) && NewAt(g, en, o, leaders, i, v) && u.round == v.round
      && Before(en, u, v) ::
      Before(em, u, v)
  }

  lemma SameOrdersSplit(g: Graph, en: Enumeration, o: Orientation, leaders: seq<Vertex>, em: Enumeration)
    requires leaders != []
    ensures SameOrders(g, en, o, leaders, em) <==>
            && SameOrders(g, en, o, leaders[1..], em)
            && forall u, v | NewAt(g, en, o, leaders, 0, u) && NewAt(g, en, o, leaders, 0, v) && u.round == v.round
               && Before(en, u, v) ::
                 Before(em, u, v)
  {
    hide NewAt, Before;
    var rest := leaders[1..];
    forall i: nat, v ensures NewAt(g, en, o, rest, i, v) <==> NewAt(g, en, o, leaders, i + 1, v) {
      NewAtTail(g, en, o, leaders, i, v);
    }
    if SameOrders(g, en, o, leaders, em) {
      forall i: nat, u, v | NewAt(g, en, o, rest, i, u) && NewAt(g, en, o, rest, i, v) && u.round == v.round
        && Before(en, u, v)
        ensures Before(em, u, v)
      {
        assert NewAt(g, en, o, leaders, i + 1, u) && NewAt(g, en, o, leaders, i + 1, v);
      }
    }
    if SameOrders(g, en, o, rest, em) &&
       forall u, v | NewAt(g, en, o, leaders, 0, u) && NewAt(g, en, o, leaders, 0, v) && u.round == v.round
         && Before(en, u, v) :: Before(em, u, v)
    {
      forall i: nat, u, v | NewAt(g, en, o, leaders, i, u) && NewAt(g, en, o, leaders, i, v) && u.round == v.round
        && Before(en, u, v)
        ensures Before(em, u, v)
      {
        if i > 0 {
          assert NewAt(g, en, o, rest, i - 1, u) && NewAt(g, en, o, rest, i - 1, v);
        }
      }
    }
  }

  /** What two views that hold the leaders deliver for them: the same vertices, and the same number. */
  lemma DeliveryContent(g: Graph, en: Enumeration, h: Graph, em: Enumeration, net: set<Vertex>, leaders: seq<Vertex>)
    requires ViewOk(g, en, net) && ViewOk(h, em, net)
    requires forall l | l in leaders :: l in Stored(g) && l in Stored(h)
    ensures var a, b := OrderVertices(g, en, Causal, leaders), OrderVertices(h, em, Causal, leaders);
            |a| == |b| && forall v :: v in a <==> v in b
  {
    hide Delivers, Enumerates, Closed, Descending, Stored;
    var a, b := OrderVertices(g, en, Causal, leaders), OrderVertices(h, em, Causal, leaders);
    ExactDelivery(g, en, Causal, leaders);
    ExactDelivery(h, em, Causal, leaders);
    forall v ensures v in a <==> v in b {
      forall l | l in leaders
        ensures v in Stored(g) && Delivers(g, en, Causal, l, v) <==> v in Stored(h) && Delivers(h, em, Causal, l, v)
      {
        DeliversAgrees(g, en, h, em, net, l, v);
        DeliversAgrees(h, em, g, en, net, l, v);
      }
    }
    DistinctSize(a);
    DistinctSize(b);
    assert Elements(a) == Elements(b);
  }

  /** And it is the same sequence exactly when their orders agree on every two vertices that one pass
      delivers from one round. */
  lemma {:induction false} DeliveryEqualIff(g: Graph, en: Enumeration, h: Graph, em: Enumeration, net: set<Vertex>,
                                            leaders: seq<Vertex>)
    requires ViewOk(g, en, net) && ViewOk(h, em, net)
    requires forall l | l in leaders :: l in Stored(g) && l in Stored(h)
    ensures OrderVertices(g, en, Causal, leaders) == OrderVertices(h, em, Causal, leaders) <==>
            SameOrders(g, en, Causal, leaders, em)
    decreases |leaders|
  {
    hide NewAt, Before, Enumerates, View, Stored, SlotsOk, LeaderPass, SameOrders;
    if leaders == [] {
      NoOrders(g, en, em);
    } else {
      var rest := leaders[1..];
      DeliveryEqualIff(g, en, h, em, net, rest);
      DeliveryContent(g, en, h, em, net, rest);
      SameOrdersSplit(g, en, Causal, leaders, em);
      PassesAgreeIff(g, en, h, em, net, leaders);
      var a, b := OrderVertices(g, en, Causal, rest), OrderVertices(h, em, Causal, rest);
      ConcatEqual(a, LeaderPass(g, en, Causal, leaders[0], Hashes(a)), b,
        LeaderPass(h, em, Causal, leaders[0], Hashes(b)));
    }
  }

  lemma ConcatEqual<T>(a: seq<T>, p: seq<T>, b: seq<T>, q: seq<T>)
    requires |a| == |b|
    ensures a + p == b + q <==> a == b && p == q
  {
    if a + p == b + q {
      assert a == (a + p)[..|a|] && b == (b + q)[..|b|];
      assert p == (a + p)[|a|..] && q == (b + q)[|b|..];
    }
  }

  lemma NoOrders(g: Graph, en: Enumeration, em: Enumeration)
    ensures SameOrders(g, en, Causal, [], em)
  {
  }

  lemma PassesAgreeIff(g: Graph, en: Enumeration, h: Graph, em: Enumeration, net: set<Vertex>, leaders: seq<Vertex>)
    requires ViewOk(g, en, net) && ViewOk(h, em, net) && leaders != []
    requires forall l | l in leaders :: l in Stored(g) && l in Stored(h)
    ensures LeaderPass(g, en, Causal, leaders[0], Hashes(OrderVertices(g, en, Causal, leaders[1..]))) ==
            LeaderPass(h, em, Causal, leaders[0], Hashes(OrderVertices(h, em, Causal, leaders[1..]))) <==>
            forall u, v | NewAt(g, en, Causal, leaders, 0, u) && NewAt(g, en, Causal, leaders, 0, v)
              && u.round == v.round && Before(en, u, v) ::
              Before(em, u, v)
  {
    hide NewAt, Before, Enumerates, Stored, SlotsOk, LeaderPass, OrderVertices, Closed, Descending;
    PassIsNew(g, en, Causal, leaders);
    PassIsNew(h, em, Causal, leaders);
    forall v ensures NewAt(g, en, Causal, leaders, 0, v) <==> NewAt(h, em, Causal, leaders, 0, v) {
      NewAtAgrees(g, en, h, em, net, leaders, 0, v);
    }
    EnumeratesProper(en, g);
    EnumeratesProper(em, h);
    SameElements(en, LeaderPass(g, en, Causal, leaders[0], Hashes(OrderVertices(g, en, Causal, leaders[1..]))),
                 em, LeaderPass(h, em, Causal, leaders[0], Hashes(OrderVertices(h, em, Causal, leaders[1..]))));
  }

  /** Orders that never contradict each other agree in particular where it matters. */
  lemma CompatibleOrders(g: Graph, en: Enumeration, h: Graph, em: Enumeration, net: set<Vertex>, leaders: seq<Vertex>)
    requires ViewOk(g, en, net) && ViewOk(h, em, net) && Compatible(en, em)
    requires forall l | l in leaders :: l in Stored(g) && l in Stored(h)
    ensures SameOrders(g, en, Causal, leaders, em)
  {
    hide Delivers;
    forall i: nat, u, v | NewAt(g, en, Causal, leaders, i, u) && NewAt(g, en, Causal, leaders, i, v)
      && u.round == v.round && Before(en, u, v)
      ensures Before(em, u, v)
    {
      NewAtAgrees(g, en, h, em, net, leaders, i, u);
      NewAtAgrees(g, en, h, em, net, leaders, i, v);
      StoredHolds(h, u);
      StoredHolds(h, v);
      assert Lists(em[u.round], h[u.round].Keys);
      assert Precedes(en[u.round], u.owner, v.owner);
    }
  }

  /** Delivering more leaders, newest first, extends the sequence. */
  lemma {:induction false} DeliveryExtends(g: Graph, en: Enumeration, o: Orientation, newer: seq<Vertex>,
                                           leaders: seq<Vertex>)
    requires Enumerates(en, g)
    ensures OrderVertices(g, en, o, leaders) <= OrderVertices(g, en, o, newer + leaders)
  {
    hide Enumerates;
    if newer == [] {
      assert newer + leaders == leaders;
    } else {
      assert (newer + leaders)[1..] == newer[1..] + leaders;
      DeliveryExtends(g, en, o, newer[1..], leaders);
    }
  }

  /** The walk down from a leader that two views hold finds the same earlier leaders in both. */
  lemma {:induction false} WalkAgrees(cfg: Config, g: Graph, en: Enumeration, h: Graph, em: Enumeration,
                                      net: set<Vertex>, w: Wave, leader: Vertex)
    requires cfg.keys != [] && ViewOk(g, en, net) && ViewOk(h, em, net)
    requires leader in Stored(g) && leader in Stored(h)
    ensures LeadersBelow(cfg, g, en, w, leader) == LeadersBelow(cfg, h, em, w, leader)
    ensures forall l | l in LeadersBelow(cfg, g, en, w, leader) :: l in Stored(g) && l in Stored(h)
  {
    hide Linked, ViewOk, Stored;
    if w > 0 {
      WalkStep(cfg, g, en, h, em, net, w, leader);
      WalkStep(cfg, h, em, g, en, net, w, leader);
      var p := WaveLeader(cfg.keys, g, w);
      if p.Some? && Linked(g, en, leader, p.value, cfg.edges) {
        WalkAgrees(cfg, g, en, h, em, net, w - 1, p.value);
      } else {
        WalkAgrees(cfg, g, en, h, em, net, w - 1, leader);
      }
    }
  }

  /** A leader that one view links to is the other view's leader too, and linked there. */
  lemma WalkStep(cfg: Config, g: Graph, en: Enumeration, h: Graph, em: Enumeration, net: set<Vertex>, w: Wave,
                 leader: Vertex)
    requires cfg.keys != [] && w > 0 && ViewOk(g, en, net) && ViewOk(h, em, net)
    requires leader in Stored(g) && leader in Stored(h)
    ensures var p := WaveLeader(cfg.keys, g, w);
            p.Some? && Linked(g, en, leader, p.value, cfg.edges) ==>
            && WaveLeader(cfg.keys, h, w) == p && Linked(h, em, leader, p.value, cfg.edges)
            && p.value in Stored(g) && p.value in Stored(h)
  {
    hide Linked, Leads, View, Stored, WaveLeader, Enumerates;
    var p := WaveLeader(cfg.keys, g, w);
    if p.Some? {
      WaveLeaderIs(cfg.keys, g, w);
      ViewHolds(g, en, net, leader);
      ViewHolds(h, em, net, leader);
      ViewHolds(g, en, net, p.value);
      ViewLinked(g, en, net, leader, p.value, cfg.edges);
      ViewLinked(h, em, net, leader, p.value, cfg.edges);
      if Linked(g, en, leader, p.value, cfg.edges) {
        WaveLeaderFound(cfg.keys, h, w, p.value);
      }
    }
  }
}
