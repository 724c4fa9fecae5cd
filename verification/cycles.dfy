/** Searches that never end: what the receive guard lets in. */
module Cycles {
  import opened Vertices
  import opened Graphs
  import opened Links
  import opened Enumerations
  import opened Searches
  import opened Nodes
  import opened FullGraphs

  // ------------------------------------------------- a replaced vertex closes a cycle

  /** Member 0's first vertex of round 2, and member 1's on top of it. */
  const FIRST: Vertex := NewVertex(0, 2, Block([]), map[])
  const ONTOP: Vertex := NewVertex(1, 2, Block([[1]]), map[FIRST.hash := 2])

  /** Member 0's second vertex, under the digest of the first and on top of member 1's. */
  const SECOND: Vertex := Vertex(FIRST.hash, 0, 2, Block([]), map[ONTOP.hash := 2])

  /** What a node in round 2 that holds the genesis vertices receives of the three. */
  ghost function CyclicGraph(): Graph {
    Receive(FullGraph(1), 2, [FIRST, ONTOP, SECOND])
  }

  lemma ReceiveOne(g: Graph, round: Round, buffer: seq<Vertex>, v: Vertex)
    ensures var before := Receive(g, round, buffer);
            Receive(g, round, buffer + [v]) == if Accepts(before, round, v) then Insert(before, v) else before
  {
    assert (buffer + [v])[..|buffer|] == buffer;
  }

  ghost function BeforeSecond(): Graph {
    Insert(Insert(FullGraph(1), FIRST), ONTOP)
  }

  lemma BeforeSecondHolds(v: Vertex)
    ensures SlotsOk(Insert(FullGraph(1), FIRST)) && FIRST in Stored(Insert(FullGraph(1), FIRST))
    ensures SlotsOk(BeforeSecond()) && 2 in BeforeSecond() && BeforeSecond()[2].Keys == {0, 1}
    ensures v in Stored(BeforeSecond()) <==> v in Stored(FullGraph(1)) || v == FIRST || v == ONTOP
  {
    hide Stored, FullGraph, Insert, SlotsOk;
    var g0 := FullGraph(1);
    FullHolds(1, v);
    forall k: Key ensures k !in Row(g0, 2) { FullSlot(1, 2, k); }
    InsertFresh(g0, FIRST);
    InsertSlots(g0, FIRST);
    InsertFresh(Insert(g0, FIRST), ONTOP);
    InsertSlots(Insert(g0, FIRST), ONTOP);
  }

  /** All three pass the guard. */
  lemma CyclicIs()
    ensures CyclicGraph() == Insert(BeforeSecond(), SECOND)
  {
    hide Stored, FullGraph, Insert, Accepts, SlotsOk, Receive;
    var g0 := FullGraph(1);
    BeforeSecondHolds(FIRST);
    BeforeSecondHolds(ONTOP);
    ReceiveOne(g0, 2, [], FIRST);
    ReceiveOne(g0, 2, [FIRST], ONTOP);
    ReceiveOne(g0, 2, [FIRST, ONTOP], SECOND);
    assert [] + [FIRST] == [FIRST] && [FIRST] + [ONTOP] == [FIRST, ONTOP]
           && [FIRST, ONTOP] + [SECOND] == [FIRST, ONTOP, SECOND];
    ReceiveNone(g0);
    GuardPasses(g0, FIRST, FIRST);
    GuardPasses(Insert(g0, FIRST), FIRST, ONTOP);
    GuardPasses(BeforeSecond(), ONTOP, SECOND);
  }

  lemma CyclicHolds(v: Vertex)
    ensures SlotsOk(CyclicGraph())
    ensures v in Stored(CyclicGraph()) <==> v in Stored(FullGraph(1)) || v == ONTOP || v == SECOND
  {
    hide Stored, FullGraph, Insert, SlotsOk, CyclicGraph, BeforeSecond;
    CyclicIs();
    BeforeSecondHolds(v);
    BeforeSecondHolds(FIRST);
    InsertSlots(BeforeSecond(), SECOND);
    InsertHolds(BeforeSecond(), SECOND, v);
    FullHolds(1, v);
    TakesTheSlot(BeforeSecond());
  }

  lemma TakesTheSlot(g: Graph)
    requires SlotsOk(g) && FIRST in Stored(g)
    ensures forall d :: Displaces(g, SECOND, d) <==> d == FIRST
  {
    StoredHolds(g, FIRST);
  }

  lemma ReceiveNone(g: Graph)
    ensures Receive(g, 2, []) == g
  {
  }

  /** A vertex of round 2 with the one parent `p`, or none, passes the guard where `p` is stored. */
  lemma GuardPasses(g: Graph, p: Vertex, v: Vertex)
    requires v.round == 2 && p.round == 2
    requires v.parents == map[] || (v.parents == map[p.hash := 2] && p in Stored(g))
    ensures Accepts(g, 2, v)
  {
    if v.parents != map[] {
      assert Provides(Stored(g), p.hash, 2);
    }
  }

  /** From either of the two vertices, the search comes to the other and to nothing else. */
  lemma CyclePushes(em: Enumeration, u: Vertex, v: Vertex)
    requires Enumerates(em, CyclicGraph()) && (u == ONTOP || u == SECOND) && v in Stored(FullGraph(1))
    ensures !Hits(u, v, All) && Pushed(CyclicGraph(), em, u, v, All) == {if u == ONTOP then SECOND else ONTOP}
  {
    hide Stored, FullGraph, CyclicGraph, SlotsOk, Enumerates;
    var g, h, w := CyclicGraph(), if u == ONTOP then FIRST.hash else ONTOP.hash, if u == ONTOP then SECOND else ONTOP;
    assert u.parents == map[h := 2] && u.Parents(All) == u.parents;
    FullHolds(1, v);
    FullVertexIs(1, v.owner);
    assert v.hash != h && v.round == 1;
    CyclicHolds(w);
    LookupIs(g, em, h, 2);
    LookupProvides(g, em, h, 2);
    assert Provides(Stored(g), h, 2);
    var found := Lookup(g, em, h, 2).value;
    CyclicHolds(found);
    FullHolds(1, found);
    assert found == w;
    assert PushedBy(g, em, u, h, v, All) == Some(w);
  }

  lemma {:induction false} CycleGoesOn(em: Enumeration, u: Vertex, v: Vertex, n: nat)
    requires Enumerates(em, CyclicGraph()) && (u == ONTOP || u == SECOND) && v in Stored(FullGraph(1))
    ensures Deep(CyclicGraph(), em, u, v, All, n) && !FoundWithin(CyclicGraph(), em, u, v, All, n)
    decreases n
  {
    hide Hits, Pushed, CyclicGraph, Stored, FullGraph, Enumerates;
    CyclePushes(em, u, v);
    if n > 0 {
      CycleGoesOn(em, if u == ONTOP then SECOND else ONTOP, v, n - 1);
    }
  }

  /** The receive guard lets a cycle in: member 0's second vertex passes it, replaces the first, and is
      then its own ancestor. From there a search for a genesis vertex never ends, in whatever order
      rounds are iterated and parents pushed: after any number of pops the stack is not empty, and the
      vertex on top does not list the target. */
  lemma GuardAdmitsCycle(em: Enumeration, v: Vertex)
    requires Enumerates(em, CyclicGraph()) && v in Stored(FullGraph(1))
    ensures SlotsOk(CyclicGraph()) && SECOND in Stored(CyclicGraph()) && v in Stored(CyclicGraph())
    ensures SECOND.round > v.round
    ensures !Descends(SECOND) && !Sound(Stored(CyclicGraph())) && !Searchable(CyclicGraph(), em)
    ensures forall stacks | IsSearch(CyclicGraph(), em, SECOND, v, All, stacks) ::
              var s := stacks[|stacks| - 1]; s != [] && !Hits(s[|s| - 1], v, All)
  {
    hide Deep, FoundWithin, CyclicGraph, FullGraph, Closed, HashUnique, Stored, Enumerates;
    var g := CyclicGraph();
    CyclicHolds(v);
    CyclicHolds(SECOND);
    FullHolds(1, v);
    forall n: nat ensures Deep(g, em, SECOND, v, All, n) && !FoundWithin(g, em, SECOND, v, All, n) {
      CycleGoesOn(em, SECOND, v, n);
    }
    assert !Ends(g, em, SECOND, v, All) && !Found(g, em, SECOND, v, All);
    forall stacks | IsSearch(g, em, SECOND, v, All, stacks)
      ensures var s := stacks[|stacks| - 1]; s != [] && !Hits(s[|s| - 1], v, All)
    {
      SearchNeverEnds(g, em, SECOND, v, All, stacks);
    }
    assert ONTOP.hash in SECOND.parents && SECOND.parents[ONTOP.hash] == SECOND.round;
  }

  /** Before that last insertion every search ends, although a vertex there does not lie above its parent. */
  lemma BeforeSecondEnds(en: Enumeration)
    ensures Searchable(BeforeSecond(), en) && SearchableFor(BeforeSecond(), en, SECOND)
    ensures !Descending(Stored(BeforeSecond()))
  {
    hide FullGraph, Stored, BeforeSecond, Ends, SlotsOk;
    var g := BeforeSecond();
    var rank: map<Vertex, nat> := map u | u in Stored(g) :: if u == ONTOP then 1 else 0;
    BeforeSecondHolds(ONTOP);
    forall u, p | u in Stored(g) && p in Stored(g) && p.hash in u.parents && u.parents[p.hash] == p.round
      ensures rank[p] < rank[u]
    {
      BeforeSecondHolds(u);
      BeforeSecondHolds(p);
      FullHolds(1, u);
      FullVertexIs(1, u.owner);
    }
    assert Ranks(Stored(g), rank);
    RankedSearchable(g, en, rank);
    assert FIRST.hash in ONTOP.parents && ONTOP.parents[FIRST.hash] == ONTOP.round;
    assert !Descends(ONTOP);
  }

  /** So the insertion is what breaks it, and as `InsertSearchableIff` says, because the search comes back
      to the inserted vertex. */
  lemma SecondReturns(em: Enumeration, v: Vertex)
    requires Enumerates(em, Insert(BeforeSecond(), SECOND)) && v in Stored(FullGraph(1))
    ensures forall en | Enumerates(en, BeforeSecond()) ::
            Searchable(BeforeSecond(), en) && SearchableFor(BeforeSecond(), en, SECOND)
    ensures v in Stored(BeforeSecond()) && v.round < SECOND.round
    ensures Returns(Insert(BeforeSecond(), SECOND), em, SECOND, v, All)
    ensures !Searchable(Insert(BeforeSecond(), SECOND), em)
  {
    hide FullGraph, Stored, BeforeSecond, CyclicGraph, Insert, Searchable, SearchableFor, Enumerates, Pushed, Hits,
      SlotsOk;
    var t := Insert(BeforeSecond(), SECOND);
    CyclicIs();
    forall en ensures Searchable(BeforeSecond(), en) && SearchableFor(BeforeSecond(), en, SECOND) {
      BeforeSecondEnds(en);
    }
    BeforeSecondHolds(v);
    FullHolds(1, v);
    CyclePushes(em, SECOND, v);
    CyclePushes(em, ONTOP, v);
    assert Comes(t, em, SECOND, SECOND, v, All, 0);
    assert Comes(t, em, ONTOP, SECOND, v, All, 1);
    assert Comes(t, em, SECOND, SECOND, v, All, 2);
    InsertSearchableIff(BeforeSecond(), SECOND, em);
  }

  // ------------------------------------------------- two vertices of one digest

  /** Member 1's vertex, and one of member 2 that goes by its digest and lists it. */
  const ORIGINAL: Vertex := NewVertex(1, 2, Block([]), map[])
  const TWIN: Vertex := Vertex(ORIGINAL.hash, 2, 2, Block([]), map[ORIGINAL.hash := 2])

  ghost function TwinGraph(): Graph {
    Receive(FullGraph(1), 2, [ORIGINAL, TWIN])
  }

  /** Both pass the guard. */
  lemma TwinHolds(v: Vertex)
    ensures SlotsOk(TwinGraph())
    ensures v in Stored(TwinGraph()) <==> v in Stored(FullGraph(1)) || v == ORIGINAL || v == TWIN
    ensures Row(TwinGraph(), 2) == map[1 := ORIGINAL, 2 := TWIN]
  {
    hide Stored, FullGraph, Insert, SlotsOk, Receive, Accepts;
    var g0 := FullGraph(1);
    FullHolds(1, v);
    forall k: Key ensures k !in Row(g0, 2) { FullSlot(1, 2, k); }
    InsertFresh(g0, ORIGINAL);
    var g1 := Insert(g0, ORIGINAL);
    TwoRows(g0);
    InsertFresh(g1, TWIN);
    ReceiveOne(g0, 2, [], ORIGINAL);
    ReceiveOne(g0, 2, [ORIGINAL], TWIN);
    assert [] + [ORIGINAL] == [ORIGINAL] && [ORIGINAL] + [TWIN] == [ORIGINAL, TWIN];
    ReceiveNone(g0);
    GuardPasses(g0, ORIGINAL, ORIGINAL);
    GuardPasses(g1, ORIGINAL, TWIN);
  }

  lemma TwoRows(g: Graph)
    requires forall k: Key :: k !in Row(g, 2)
    ensures Row(Insert(g, ORIGINAL), 2) == map[1 := ORIGINAL]
    ensures Row(Insert(Insert(g, ORIGINAL), TWIN), 2) == map[1 := ORIGINAL, 2 := TWIN]
  {
    assert Row(g, 2) == map[];
  }

  /** Which of the two a look-up finds is up to the order of iteration. */
  lemma TwinLookup(em: Enumeration)
    requires 2 in em
    ensures em[2] == [1, 2] ==> Lookup(TwinGraph(), em, ORIGINAL.hash, 2) == Some(ORIGINAL)
    ensures em[2] == [2, 1] ==> Lookup(TwinGraph(), em, ORIGINAL.hash, 2) == Some(TWIN)
  {
    hide TwinGraph;
    TwinHolds(TWIN);
  }

  /** A node that meets member 1 first ends its searches. One that meets member 2 first is handed the vertex
      it is looking from, and never ends the search from there. */
  lemma OrderDecidesSearch(em: Enumeration, v: Vertex)
    requires Enumerates(em, TwinGraph()) && 2 in em && v in Stored(FullGraph(1))
    ensures TWIN in Stored(TwinGraph()) && v in Stored(TwinGraph()) && TWIN.round > v.round
    ensures em[2] == [1, 2] ==> Searchable(TwinGraph(), em)
    ensures em[2] == [2, 1] ==> Returns(TwinGraph(), em, TWIN, v, All) && !Searchable(TwinGraph(), em)
  {
    hide TwinGraph, Stored, FullGraph, Lookup, SlotsOk, Enumerates, Ends;
    var g := TwinGraph();
    TwinHolds(TWIN);
    TwinHolds(v);
    FullHolds(1, v);
    FullVertexIs(1, v.owner);
    TwinLookup(em);
    if em[2] == [1, 2] {
      TwinEnds(em);
    }
    if em[2] == [2, 1] {
      assert v.hash != ORIGINAL.hash;
      assert PushedBy(g, em, TWIN, ORIGINAL.hash, v, All) == Some(TWIN);
      assert TWIN in Pushed(g, em, TWIN, v, All) && !Hits(TWIN, v, All);
      assert Comes(g, em, TWIN, TWIN, v, All, 0);
      assert Comes(g, em, TWIN, TWIN, v, All, 1);
      ReturnsEndless(g, em, TWIN, v, All);
    }
  }

  lemma TwinEnds(em: Enumeration)
    requires 2 in em && Lookup(TwinGraph(), em, ORIGINAL.hash, 2) == Some(ORIGINAL)
    ensures Searchable(TwinGraph(), em)
  {
    hide TwinGraph, Stored, FullGraph, Lookup, Ends, SlotsOk;
    var g := TwinGraph();
    var rank: Vertex -> nat := (x: Vertex) => if x == TWIN then 1 else 0;
    forall u, v, e | u in Stored(g) ensures Ends(g, em, u, v, e) {
      forall x, p | x in Stored(g) && p in Pushed(g, em, x, v, e) ensures rank(p) < rank(x) {
        TwinHolds(x);
        FullHolds(1, x);
        FullVertexIs(1, x.owner);
        var h :| h in x.Parents(e).Keys && PushedBy(g, em, x, h, v, e).Some? && PushedBy(g, em, x, h, v, e).value == p;
        assert x == TWIN && h == ORIGINAL.hash && p == ORIGINAL;
      }
      GradedEnds(g, em, u, v, e, rank);
    }
  }
}
