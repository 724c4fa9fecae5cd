/** Concrete graphs on which the code falls short of its purpose. */
module Counterexamples {
  import opened Orders
  import opened Vertices
  import opened Graphs
  import opened Links
  import opened Quorums
  import opened Enumerations
  import opened Searches
  import opened Ordering
  import opened WeakEdges
  import opened Agreement
  import opened Guards
  import opened FullGraphs

  // ------------------------------------------------- a replaced vertex

  /** The receive guard lets a second vertex of a sender replace the first, and the graph then lists
      parents it no longer holds. */
  lemma GuardLetsParentsVanish()
    ensures var g, v := FullGraph(2), NewVertex(0, 1, Block([[1]]), map[]);
            && SlotsOk(g) && Sound(Stored(g))
            && v.round <= 2 && Resolves(Stored(g), v.parents)
            && !Closed(Stored(Insert(g, v)))
  {
    hide FullVertex, FullGraph, Insert, Stored, WellFormed, Closed, SlotsOk, HashUnique, Resolves;
    var g, v := FullGraph(2), NewVertex(0, 1, Block([[1]]), map[]);
    FullViews(2);
    var lost, child := FullVertex(1, 0), FullVertex(2, 0);
    FullVertexIs(1, 0);
    FullVertexIs(2, 0);
    FullHolds(2, lost);
    FullHolds(2, child);
    GenesisDigest(0);
    InsertHolds(g, v, child);
    FullSlot(2, 1, 0);
    assert Displaces(g, v, lost);
    assert lost.hash in FullParents(1);
    LostParent(g, v, lost, child);
    NoParents(Stored(g));
  }

  lemma NoParents(s: set<Vertex>)
    ensures Resolves(s, map[])
  {
  }

  lemma GenesisDigest(k: Key)
    ensures FullVertex(1, k).hash == Digest(k, 1, Block([]), map[])
  {
  }

  /** The receive guard lets in a vertex without parents. Right after a commit, such a vertex of a later
      round is stored although it is not linked to the committed leader: it leans on nothing. */
  lemma GuardAdmitsOrphans(en: Enumeration, em: Enumeration)
    requires Enumerates(en, FullGraph(4)) && Enumerates(em, Insert(FullGraph(4), NewVertex(0, 5, Block([]), map[])))
    ensures var g, v := FullGraph(4), NewVertex(0, 5, Block([]), map[]);
            && NetOk(FOUR, Stored(g)) && ViewOk(g, en, Stored(g)) && Commits(FOUR, g, en, 1)
            && v.round <= 5 && Resolves(Stored(g), v.parents)
            && v in Stored(Insert(g, v)) && v.round > RoundForWave(1, MAX_WAVE)
            && !Linked(Insert(g, v), em, v, WaveLeader(FOUR.keys, g, 1).value, FOUR.edges)
  {
    hide NetOk, Part, Commits, FullGraph, Insert, Stored, WaveLeader, Enumerates, Linked, SlotsOk;
    var g, v := FullGraph(4), NewVertex(0, 5, Block([]), map[]);
    FullViews(4);
    FourCommits(4, g, en, 1);
    NoParents(Stored(g));
    FullHolds(4, v);
    InsertHolds(g, v, v);
    GuardStoredIff(FOUR, Stored(g), g, en, 1, v, em) by { CommitBinds(FOUR, Stored(g), g, en, 1); }
  }

  /** A vertex that leans on the very one it replaces. */
  ghost function Usurper(): Vertex {
    NewVertex(0, 5, Block([[7]]), map[FullVertex(5, 0).hash := 5])
  }

  lemma UsurperIs()
    ensures var g, v, d := FullGraph(5), Usurper(), FullVertex(5, 0);
            && d in Stored(g) && Displaces(g, v, d) && d.round == 5 && v.hash.block != d.hash.block
            && Resolves(Stored(g), v.parents) && v.Parents(All) == map[d.hash := 5]
            && forall u | u in Stored(g) :: u.hash.block == Block([])
  {
    hide FullVertex, FullGraph, Stored;
    var g, v, d := FullGraph(5), Usurper(), FullVertex(5, 0);
    FullBlock(5, 0);
    FullVertexIs(5, 0);
    FullHolds(5, d);
    FullSlot(5, 5, 0);
    assert Provides(Stored(g), d.hash, 5);
    forall u | u in Stored(g) ensures u.hash.block == Block([]) {
      FullHolds(5, u);
      FullBlock(u.round, u.owner);
    }
  }

  lemma FullBlock(r: Round, k: Key)
    requires r > 0
    ensures FullVertex(r, k).hash.block == Block([])
  {
  }

  /** Storing a vertex can cut it off. This one passes the guard, and when it arrives the search finds it
      linked to the committed leader, through its parent; but it takes that parent's slot, and once it is
      stored the search finds nothing. It neither lies above its parents nor leaves them in place, so
      `GuardStoredIff` says nothing of it; `StoredLinkedIff` does. */
  lemma StoringCutsOff(en: Enumeration, em: Enumeration)
    requires Enumerates(en, FullGraph(5)) && Enumerates(em, Insert(FullGraph(5), Usurper()))
    ensures var g, v := FullGraph(5), Usurper();
            && NetOk(FOUR, Stored(g)) && ViewOk(g, en, Stored(g)) && Commits(FOUR, g, en, 1)
            && v.round <= 5 && Resolves(Stored(g), v.parents) && v.round > RoundForWave(1, MAX_WAVE)
            && var l := WaveLeader(FOUR.keys, g, 1).value;
               && LeansOn(Stored(g), v, 1, l, All) && Linked(g, en, v, l, All)
               && !Linked(Insert(g, v), em, v, l, All)
  {
    hide NetOk, Part, Commits, FullGraph, Insert, Stored, WaveLeader, Enumerates, Linked, Leads, FullVertex, Usurper,
      Displaces, SlotsOk;
    var g, v, d := FullGraph(5), Usurper(), FullVertex(5, 0);
    FullViews(5);
    FourCommits(5, g, en, 1);
    FourLeader(5, g, 1);
    var l := FullVertex(1, 1);
    FullVertexIs(1, 1);
    FullVertexIs(5, 0);
    UsurperIs();
    FullHolds(5, l);
    assert v.round == 5 by { UsurperRound(); }
    CommitBinds(FOUR, Stored(g), g, en, 1) by { assert ViewOk(g, en, Stored(g)); }
    assert LeansOn(Stored(g), v, 1, l, All);
    GuardLinkedIff(FOUR, Stored(g), g, en, 1, v);
    UsurperAlone(l);
    StoredLinkedIff(g, em, v, l, All) by { PartIs(g, Stored(g)); }
  }

  lemma UsurperRound()
    ensures Usurper().round == 5
  {
  }

  lemma PartIs(g: Graph, net: set<Vertex>)
    requires Part(g, net)
    ensures SlotsOk(g) && HashUnique(Stored(g))
  {
  }

  lemma UsurperAlone(l: Vertex)
    requires l in Stored(FullGraph(5)) && l.round == 1
    ensures OwnDigest(FullGraph(5), Usurper()) && !Leads(Kept(FullGraph(5), Usurper()), Usurper(), l, All)
  {
    hide FullGraph, Stored, Leads, FullVertex, Usurper, Displaces, Closed, NetOk;
    var g, v, d := FullGraph(5), Usurper(), FullVertex(5, 0);
    UsurperIs();
    FullViews(5);
    LeadsStep(Kept(g, v), v, l, All);
    forall p ensures !Steps(Kept(g, v), v, p, l, All) {
      if p in Stored(g) && p.hash == d.hash {
        assert p == d;
      }
    }
    assert l != d;
  }

  // ------------------------------------------------- a digest used twice

  /** A committee of one, whose vertices form a chain. */
  const ONE: Config := Config([0], {}, All, Written)

  ghost function LoneVertex(r: Round): Vertex
    requires r > 0
  {
    if r == 1 then GenesisVertex(0) else NewVertex(0, r, Block([]), map[LoneVertex(r - 1).hash := r - 1])
  }

  lemma LoneIs(r: Round)
    requires r > 0
    ensures var v := LoneVertex(r);
            && v.round == v.hash.round == r && v.owner == v.hash.owner == 0
            && v.parents == if r == 1 then map[] else map[LoneVertex(r - 1).hash := r - 1]
  {
  }

  ghost function LoneGraph(top: Round): Graph {
    map r: Round | 1 <= r <= top :: map[0 := LoneVertex(r)]
  }

  lemma LoneHolds(top: Round, v: Vertex)
    ensures SlotsOk(LoneGraph(top))
    ensures v in Stored(LoneGraph(top)) <==> 1 <= v.round <= top && v == LoneVertex(v.round)
  {
    hide LoneVertex;
    forall r: Round | r > 0 ensures LoneVertex(r).round == r && LoneVertex(r).owner == 0 { LoneIs(r); }
    StoredHolds(LoneGraph(top), v);
  }

  lemma LoneWellFormed(top: Round, v: Vertex)
    requires v in Stored(LoneGraph(top))
    ensures WellFormed(ONE, v) && Resolves(Stored(LoneGraph(top)), v.parents)
  {
    hide LoneVertex, LoneGraph, Stored;
    LoneHolds(top, v);
    LoneIs(v.round);
    assert ONE.keys[0] == 0;
    if v.round > 1 {
      var p := LoneVertex(v.round - 1);
      LoneIs(v.round - 1);
      LoneHolds(top, p);
      assert v.StrongParents() == v.parents && v.parents.Keys == {p.hash};
      assert |v.parents.Keys| == |v.parents|;
    }
  }

  lemma LoneView(top: Round)
    ensures NetOk(ONE, Stored(LoneGraph(top))) && Part(LoneGraph(top), Stored(LoneGraph(top)))
    ensures ConfigOk(ONE)
  {
    hide LoneVertex, LoneGraph, Stored, SlotsOk, WellFormed, Resolves;
    var net := Stored(LoneGraph(top));
    LoneHolds(top, GenesisVertex(0));
    forall v | v in net
      ensures v.round > 0 && WellFormed(ONE, v) && Resolves(net, v.parents) && v == LoneVertex(v.round)
    {
      LoneHolds(top, v);
      LoneWellFormed(top, v);
    }
    NetUnique(ONE, net) by { assert OnePerSlot(net); }
  }

  lemma {:induction false} LoneLeads(top: Round, r: Round)
    requires 1 < r <= top
    ensures Leads(Stored(LoneGraph(top)), LoneVertex(r), LoneVertex(1), All)
  {
    hide LoneVertex, LoneGraph, Stored, Leads;
    var s := Stored(LoneGraph(top));
    LoneIs(r);
    LoneIs(r - 1);
    LoneIs(1);
    LoneHolds(top, LoneVertex(r - 1));
    if r == 2 {
      LeadsStep(s, LoneVertex(2), LoneVertex(1), All);
    } else {
      LoneLeads(top, r - 1);
      LeadsBy(s, LoneVertex(r), LoneVertex(r - 1), LoneVertex(1), All);
    }
  }

  lemma LoneCommits(en: Enumeration)
    requires Enumerates(en, LoneGraph(6))
    ensures Commits(ONE, LoneGraph(6), en, 1) && WaveLeader(ONE.keys, LoneGraph(6), 1) == Some(LoneVertex(1))
  {
    hide LoneVertex, Stored, Linked, Leads, NetOk, Closed, Enumerates;
    var g, l := LoneGraph(6), LoneVertex(1);
    assert Sorted([0]) == [0];
    LoneView(6);
    LoneIs(4);
    LoneHolds(6, LoneVertex(4));
    LoneLeads(6, 4);
    LinkedLeads(g, en, LoneVertex(4), l, All);
    assert 0 in Linkers(g, en, l, 4, All);
    assert {0} <= Linkers(g, en, l, 4, All);
    SubsetSize({0}, Linkers(g, en, l, 4, All));
  }

  /** The round-5 vertex once more, listing the round-6 vertex on top of it. */
  ghost function Impostor(): Vertex {
    Vertex(LoneVertex(5).hash, 0, 5, Block([]), map[LoneVertex(6).hash := 6])
  }

  lemma ImpostorIs()
    ensures var g, v := LoneGraph(6), Impostor();
            && v.round == 5 && v.Parents(All) == v.parents == map[LoneVertex(6).hash := 6]
            && v.hash == LoneVertex(5).hash && LoneVertex(5) in Stored(g) && Displaces(g, v, LoneVertex(5))
            && LoneVertex(6) in Stored(g) && Resolves(Stored(g), v.parents)
  {
    hide LoneVertex, Stored;
    LoneIs(5);
    LoneIs(6);
    LoneHolds(6, LoneVertex(5));
    LoneHolds(6, LoneVertex(6));
    assert Provides(Stored(LoneGraph(6)), LoneVertex(6).hash, 6);
  }

  /** A vertex that replaces one of its own digest can be cut off by that, although it replaces no parent:
      those that list the digest now list it, and lead back to it. So `GuardStoredIff` asks that the digest
      be new; `StoredLinkedIff` covers this case too. */
  lemma SameDigestCutsOff(en: Enumeration, em: Enumeration)
    requires Enumerates(en, LoneGraph(6)) && Enumerates(em, Insert(LoneGraph(6), Impostor()))
    ensures var g, v := LoneGraph(6), Impostor();
            && ConfigOk(ONE) && NetOk(ONE, Stored(g)) && ViewOk(g, en, Stored(g)) && Commits(ONE, g, en, 1)
            && v.round <= 6 && Resolves(Stored(g), v.parents) && v.round > RoundForWave(1, MAX_WAVE)
            && LosesNoParent(g, v) && OwnDigest(g, v)
            && var l := WaveLeader(ONE.keys, g, 1).value;
               LeansOn(Stored(g), v, 1, l, All) && !Linked(Insert(g, v), em, v, l, All)
  {
    hide LoneVertex, LoneGraph, Stored, Linked, Leads, NetOk, View, Commits, Enumerates, Impostor, Displaces, SlotsOk,
      WaveLeader;
    var g, v, l := LoneGraph(6), Impostor(), LoneVertex(1);
    LoneView(6);
    LoneCommits(en);
    ImpostorIs();
    LoneIs(6);
    assert LeansOn(Stored(g), v, 1, l, All);
    ImpostorAlone();
    StoredLinkedIff(g, em, v, l, All) by { PartIs(g, Stored(g)); }
  }

  lemma OneReplaced(g: Graph, v: Vertex, d: Vertex)
    requires Displaces(g, v, d)
    ensures forall u :: Displaces(g, v, u) <==> u == d
  {
  }

  lemma ImpostorAlone()
    ensures var g, v := LoneGraph(6), Impostor();
            LosesNoParent(g, v) && OwnDigest(g, v) && !Leads(Kept(g, v), v, LoneVertex(1), All)
  {
    hide LoneVertex, LoneGraph, Stored, Leads, NetOk, Closed, Impostor, Displaces, SlotsOk;
    var g, v, l := LoneGraph(6), Impostor(), LoneVertex(1);
    var s := Kept(g, v);
    LoneView(6);
    ImpostorIs();
    OneReplaced(g, v, LoneVertex(5));
    LoneIs(1);
    LoneIs(5);
    LoneIs(6);
    LoneHolds(6, l);
    LeadsStep(s, v, l, All);
    LeadsStep(s, LoneVertex(6), l, All);
    forall p ensures !Steps(s, LoneVertex(6), p, l, All) {
      if p in Stored(g) && p.hash == LoneVertex(5).hash {
        assert p == LoneVertex(5);
      }
    }
    forall p | Steps(s, v, p, l, All) ensures p == LoneVertex(6) {}
  }

  // ------------------------------------------------- the skipped round

  /** A round-3 vertex of a node that held only three vertices of round 2. */
  ghost function ThinVertex(k: Key): Vertex {
    NewVertex(k, 3, Block([]), map[FullVertex(2, 0).hash := 2, FullVertex(2, 1).hash := 2, FullVertex(2, 2).hash := 2])
  }

  /** Round 2 is complete by now, but no vertex of round 3 knows member 3's. */
  ghost function ThinGraph(): Graph {
    Insert(Insert(Insert(FullGraph(2), ThinVertex(0)), ThinVertex(1)), ThinVertex(2))
  }

  lemma ThinRow()
    ensures 3 in ThinGraph() && ThinGraph()[3].Keys == {0, 1, 2}
  {
    assert ThinGraph()[3] == map[0 := ThinVertex(0), 1 := ThinVertex(1), 2 := ThinVertex(2)];
  }

  lemma ThinHolds(v: Vertex)
    ensures SlotsOk(ThinGraph())
    ensures v in Stored(ThinGraph()) <==> v in Stored(FullGraph(2)) || (v.owner < 3 && v == ThinVertex(v.owner))
  {
    hide FullVertex, FullGraph, Insert, Stored, SlotsOk;
    FullHolds(2, v);
    var g0 := FullGraph(2);
    forall k: Key ensures k !in Row(g0, 3) { FullSlot(2, 3, k); }
    InsertFresh(g0, ThinVertex(0));
    var g1 := Insert(g0, ThinVertex(0));
    InsertFresh(g1, ThinVertex(1));
    var g2 := Insert(g1, ThinVertex(1));
    InsertFresh(g2, ThinVertex(2));
  }

  lemma ThinWellFormed(v: Vertex)
    requires v in Stored(ThinGraph())
    ensures WellFormed(FOUR, v) && Resolves(Stored(ThinGraph()), v.parents)
  {
    hide Stored, FullVertex, FullGraph, ThinGraph;
    var net, small := Stored(ThinGraph()), Stored(FullGraph(2));
    forall u | u in small ensures u in net { ThinHolds(u); }
    ThinHolds(v);
    if v in small {
      FullWellFormed(2, v);
      ResolvesMono(small, net, v.parents);
    } else {
      FullRowsHeld(2, 2);
      forall k: Key | k < 4
        ensures FullVertex(2, k) in net && FullVertex(2, k).round == 2 && FullVertex(2, k).hash.owner == k
      {
        FullVertexIs(2, k);
      }
      assert FOUR.keys[v.owner] == v.owner;
      ThinStrong(v.owner);
    }
  }

  lemma ThinRound(v: Vertex)
    requires v in Stored(ThinGraph())
    ensures v.round < 4
  {
    hide Stored, FullVertex, FullGraph, ThinGraph;
    ThinHolds(v);
    FullHolds(2, v);
  }

  lemma ThinStrong(k: Key)
    ensures |ThinVertex(k).StrongParents()| == 3
  {
    hide FullVertex;
    FullVertexIs(2, 0);
    FullVertexIs(2, 1);
    FullVertexIs(2, 2);
    var v := ThinVertex(k);
    assert v.StrongParents() == v.parents;
    assert v.parents.Keys == {FullVertex(2, 0).hash, FullVertex(2, 1).hash, FullVertex(2, 2).hash};
    assert |v.parents.Keys| == 3;
  }

  lemma SlotsGiveOne(g: Graph)
    requires SlotsOk(g)
    ensures OnePerSlot(Stored(g))
  {
    forall u, w | u in Stored(g) && w in Stored(g) && u.round == w.round && u.owner == w.owner ensures u == w {
      StoredHolds(g, u);
      StoredHolds(g, w);
    }
  }

  lemma ThinKnowsThree(p: Vertex)
    requires p in Stored(ThinGraph()) && p.round == 3
    ensures FullVertex(2, 3).hash !in p.parents
  {
    hide Stored, FullVertex, ThinGraph, FullGraph;
    ThinHolds(p);
    FullHolds(2, p);
    FullVertexIs(2, 0);
    FullVertexIs(2, 1);
    FullVertexIs(2, 2);
    FullVertexIs(2, 3);
  }

  /** A node on a well-formed graph, with a quorum in round 3, creates a round-4 vertex that is not
      linked to a round-2 vertex it holds: that one has to wait for the node's next vertex. */
  lemma SkippedRoundWaits(en: Enumeration, owner: Key, block: Block)
    requires Enumerates(en, ThinGraph())
    ensures var g, v := ThinGraph(), FullVertex(2, 3);
            && NetOk(FOUR, Stored(g)) && ViewOk(g, en, Stored(g)) && |g[3]| >= FOUR.Quorum()
            && v in Stored(g) && !Leads(Stored(g), CreatedVertex(g, en, owner, 4, block), v, All)
  {
    hide Leads, Stored, FullVertex, FullGraph, ThinGraph, CreatedVertex, WellFormed, SlotsOk, OnePerSlot, Resolves,
      Enumerates;
    var g, v := ThinGraph(), FullVertex(2, 3);
    var s := Stored(g);
    ThinHolds(v);
    ThinRow();
    assert |g[3].Keys| == |g[3]| == 3;
    FullRowsHeld(2, 2);
    forall u | u in s ensures WellFormed(FOUR, u) && Resolves(s, u.parents) && u.round < 4 {
      ThinWellFormed(u);
      ThinRound(u);
    }
    SlotsGiveOne(g);
    FullVertexIs(2, 3);
    NetUnique(FOUR, s);
    CreatedLinksSkippedIff(g, en, owner, 4, block, v);
    forall p | p in s && p.round + 1 == 4 ensures !Edge(s, p, v, All) { ThinKnowsThree(p); }
  }
}
