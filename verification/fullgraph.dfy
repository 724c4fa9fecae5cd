/** The graphs of a four-member committee in which every vertex has the whole previous round as parents. */
module FullGraphs {
  import opened Orders
  import opened Vertices
  import opened Graphs
  import opened Links
  import opened Quorums
  import opened Enumerations
  import opened Searches
  import opened Ordering
  import opened Agreement

  const FOUR: Config := Config([0, 1, 2, 3], {}, All, Written)

  /** Member `k`'s vertex in the graph in which every vertex has the whole previous round as parents. */
  ghost function FullVertex(r: Round, k: Key): Vertex
    requires r > 0
    decreases r, 0
  {
    if r == 1 then GenesisVertex(k) else NewVertex(k, r, Block([]), FullParents(r - 1))
  }

  ghost function FullParents(r: Round): map<VertexHash, Round>
    requires r > 0
    decreases r, 1
  {
    map[FullVertex(r, 0).hash := r, FullVertex(r, 1).hash := r, FullVertex(r, 2).hash := r, FullVertex(r, 3).hash := r]
  }

  lemma FullVertexIs(r: Round, k: Key)
    requires r > 0
    ensures var v := FullVertex(r, k);
            && v.round == r && v.owner == k && v.hash.round == r && v.hash.owner == k
            && v.parents == if r == 1 then map[] else FullParents(r - 1)
  {
  }

  ghost function FullRow(r: Round): map<Key, Vertex>
    requires r > 0
  {
    map k: Key | 0 <= k < 4 :: FullVertex(r, k)
  }

  ghost function FullGraph(top: Round): Graph {
    map r: Round | 1 <= r <= top :: FullRow(r)
  }

  /** The same graph at a node that missed member 0's vertex of the last round. */
  ghost function LateGraph(top: Round): Graph
    requires top > 0
  {
    FullGraph(top)[top := FullRow(top) - {0}]
  }

  lemma FullSlot(top: Round, r: Round, k: Key)
    requires top >= 1
    ensures SlotsOk(FullGraph(top)) && SlotsOk(LateGraph(top))
    ensures k in Row(FullGraph(top), r) <==> 1 <= r <= top && k < 4
    ensures k in Row(FullGraph(top), r) ==> Row(FullGraph(top), r)[k] == FullVertex(r, k)
    ensures k in Row(LateGraph(top), r) <==> k in Row(FullGraph(top), r) && (r == top ==> k != 0)
    ensures k in Row(LateGraph(top), r) ==> Row(LateGraph(top), r)[k] == FullVertex(r, k)
  {
    hide FullVertex;
    forall q: Round, j: Key | q > 0 ensures FullVertex(q, j).round == q && FullVertex(q, j).owner == j {
      FullVertexIs(q, j);
    }
  }

  lemma FullHolds(top: Round, v: Vertex)
    requires top >= 1
    ensures SlotsOk(FullGraph(top)) && SlotsOk(LateGraph(top))
    ensures v in Stored(FullGraph(top)) <==> 1 <= v.round <= top && v.owner < 4 && v == FullVertex(v.round, v.owner)
    ensures v in Stored(LateGraph(top)) <==> v in Stored(FullGraph(top)) && (v.round == top ==> v.owner != 0)
  {
    hide FullVertex, FullGraph, LateGraph, SlotsOk;
    FullSlot(top, v.round, v.owner);
    StoredHolds(FullGraph(top), v);
    StoredHolds(LateGraph(top), v);
  }

  ghost predicate HasRow(s: set<Vertex>, r: Round)
    requires r > 0
  {
    forall j: Key | j < 4 :: FullVertex(r, j) in s
  }

  /** A set that holds a full vertex's whole previous round resolves its parents. */
  lemma FullResolves(s: set<Vertex>, r: Round, k: Key)
    requires r > 0 && (r > 1 ==> HasRow(s, r - 1))
    ensures Attachable(s, FullVertex(r, k))
  {
    var v := FullVertex(r, k);
    FullVertexIs(r, k);
    forall h | h in v.parents ensures Provides(s, h, v.parents[h]) && v.parents[h] < r {
      var j: Key :| j < 4 && h == FullVertex(r - 1, j).hash;
      FullVertexIs(r - 1, j);
    }
  }

  lemma FourDistinct(a: VertexHash, b: VertexHash, c: VertexHash, d: VertexHash, r: Round)
    requires a.owner == 0 && b.owner == 1 && c.owner == 2 && d.owner == 3
    ensures |map[a := r, b := r, c := r, d := r]| == 4
  {
    var m := map[a := r, b := r, c := r, d := r];
    assert m.Keys == {a, b, c, d};
    assert |m.Keys| == 4;
  }

  lemma FourStrongParents(r: Round, k: Key)
    requires r > 1
    ensures |FullVertex(r, k).StrongParents()| == 4
  {
    hide FullVertex;
    FullVertexIs(r, k);
    FullVertexIs(r - 1, 0);
    FullVertexIs(r - 1, 1);
    FullVertexIs(r - 1, 2);
    FullVertexIs(r - 1, 3);
    var v := FullVertex(r, k);
    assert v.StrongParents() == v.parents;
    FourDistinct(FullVertex(r - 1, 0).hash, FullVertex(r - 1, 1).hash, FullVertex(r - 1, 2).hash,
      FullVertex(r - 1, 3).hash, r - 1);
  }

  lemma FullRowsHeld(top: Round, r: Round)
    requires 1 <= r <= top
    ensures HasRow(Stored(FullGraph(top)), r)
    ensures r < top ==> HasRow(Stored(LateGraph(top)), r)
  {
    forall j: Key | j < 4
      ensures FullVertex(r, j) in Stored(FullGraph(top))
      ensures r < top ==> FullVertex(r, j) in Stored(LateGraph(top))
    {
      FullVertexIs(r, j);
      FullHolds(top, FullVertex(r, j));
    }
  }

  lemma FullWellFormed(top: Round, v: Vertex)
    requires top >= 1 && v in Stored(FullGraph(top))
    ensures WellFormed(FOUR, v) && Descends(v)
    ensures Resolves(Stored(FullGraph(top)), v.parents) && Resolves(Stored(LateGraph(top)), v.parents)
  {
    hide Stored, FullVertex, FullGraph, LateGraph, HasRow, Attachable;
    FullHolds(top, v);
    FullVertexIs(v.round, v.owner);
    if v.round > 1 {
      FourStrongParents(v.round, v.owner);
      FullRowsHeld(top, v.round - 1);
    }
    FullResolves(Stored(FullGraph(top)), v.round, v.owner);
    FullResolves(Stored(LateGraph(top)), v.round, v.owner);
    AttachableIs(Stored(FullGraph(top)), v);
    AttachableIs(Stored(LateGraph(top)), v);
    assert FOUR.keys[v.owner] == v.owner;
  }

  lemma AttachableIs(s: set<Vertex>, v: Vertex)
    requires Attachable(s, v)
    ensures Descends(v) && Resolves(s, v.parents)
  {
  }

  /** Both graphs are honest views of one well-formed network. */
  lemma FullViews(top: Round)
    requires top >= 1
    ensures ConfigOk(FOUR) && NetOk(FOUR, Stored(FullGraph(top)))
    ensures Part(FullGraph(top), Stored(FullGraph(top))) && Part(LateGraph(top), Stored(FullGraph(top)))
    ensures Descending(Stored(FullGraph(top))) && Descending(Stored(LateGraph(top)))
  {
    hide Stored, FullVertex, FullGraph, LateGraph, SlotsOk, Resolves, Descends;
    var net, late := Stored(FullGraph(top)), Stored(LateGraph(top));
    FullHolds(top, FullVertex(1, 0));
    forall v
      ensures v in net ==> v.round > 0 && v == FullVertex(v.round, v.owner)
      ensures v in late ==> v in net
    {
      FullHolds(top, v);
    }
    forall v | v in net
      ensures WellFormed(FOUR, v) && Resolves(net, v.parents) && Resolves(late, v.parents) && Descends(v)
    {
      FullWellFormed(top, v);
    }
  }

  /** Everything leads to everything of a lower round. */
  lemma {:induction false} FullReach(s: set<Vertex>, r: Round, k: Key, q: Round, j: Key)
    requires r > q >= 1 && j < 4
    requires forall p: Round, i: Key | q <= p < r && i < 4 :: FullVertex(p, i) in s
    ensures Reach(s, FullVertex(r, k), FullVertex(q, j), All)
    decreases r
  {
    FullVertexIs(r, k);
    FullVertexIs(r - 1, j);
    assert FullVertex(r - 1, j) in s;
    assert Edge(s, FullVertex(r, k), FullVertex(r - 1, j), All);
    if r - 1 > q {
      FullReach(s, r - 1, j, q, j);
    }
    ReachStep(s, FullVertex(r, k), FullVertex(r - 1, j), FullVertex(q, j), All);
  }

  /** Links in either graph, up to its last round. */
  lemma FullLeads(top: Round, g: Graph, r: Round, k: Key, q: Round, j: Key)
    requires top >= 1 && (g == FullGraph(top) || g == LateGraph(top))
    requires 1 <= q < r <= top && j < 4 && FullVertex(r, k) in Stored(g)
    ensures FullVertex(q, j) in Stored(g)
    ensures Leads(Stored(g), FullVertex(r, k), FullVertex(q, j), All)
  {
    hide Reach, Leads, FullVertex, Stored, FullGraph, LateGraph, NetOk, Closed, Descending;
    FullViews(top);
    forall p: Round, i: Key | q <= p < r && i < 4 ensures FullVertex(p, i) in Stored(g) { FullRowsHeld(top, p); }
    FullReach(Stored(g), r, k, q, j);
    ReachLeads(Stored(g), FullVertex(r, k), FullVertex(q, j), All);
  }

  lemma FullLinked(top: Round, g: Graph, en: Enumeration, r: Round, k: Key, q: Round, j: Key)
    requires top >= 1 && (g == FullGraph(top) || g == LateGraph(top)) && Enumerates(en, g)
    requires 1 <= q < r <= top && j < 4 && FullVertex(r, k) in Stored(g)
    ensures FullVertex(q, j) in Stored(g)
    ensures Linked(g, en, FullVertex(r, k), FullVertex(q, j), All)
  {
    hide Leads, Linked, FullVertex, Stored, FullGraph, LateGraph, NetOk, Closed, Descending, Enumerates;
    FullViews(top);
    FullLeads(top, g, r, k, q, j);
    LinkedLeads(g, en, FullVertex(r, k), FullVertex(q, j), All);
  }

  /** Every wave elects member 1, so its leader is that member's vertex. */
  lemma FourLeader(top: Round, g: Graph, w: Wave)
    requires top >= 1 && (g == FullGraph(top) || g == LateGraph(top))
    requires w > 0 && RoundForWave(w, 1) < top
    ensures WaveLeader(FOUR.keys, g, w) == Some(FullVertex(RoundForWave(w, 1), 1))
  {
    hide Sorted, FullVertex;
    hide FullGraph, LateGraph, SlotsOk;
    FourKey(w);
    FullSlot(top, RoundForWave(w, 1), 1);
  }

  lemma FourKey(w: Wave)
    requires w > 0
    ensures LeaderKey(FOUR.keys, w) == 1
  {
    hide Sorted;
    FourSorted();
    assert RoundForWave(w, 1) % 4 == 1;
  }

  lemma FourSorted()
    ensures Sorted([0, 1, 2, 3]) == [0, 1, 2, 3]
  {
    hide Sorted;
    SortedUnique(Sorted([0, 1, 2, 3]), [0, 1, 2, 3]);
  }

  /** A wave whose rounds are all there commits. */
  lemma FourCommits(top: Round, g: Graph, en: Enumeration, w: Wave)
    requires w > 0 && Enumerates(en, g)
    requires (g == FullGraph(top) && top >= 4 * w) || (g == LateGraph(4 * w) && top == 4 * w)
    ensures Commits(FOUR, g, en, w)
  {
    hide Linked, FullVertex, Stored, WaveLeader, FullGraph, LateGraph, Enumerates;
    var last, l := 4 * w, FullVertex(RoundForWave(w, 1), 1);
    FourLeader(top, g, w);
    forall k: Key | k in {1, 2, 3} ensures k in Linkers(g, en, l, last, All) {
      FullSlot(top, last, k);
      FullVertexIs(last, k);
      FullHolds(top, FullVertex(last, k));
      FullLinked(top, g, en, last, k, RoundForWave(w, 1), 1);
    }
    SubsetSize({1, 2, 3}, Linkers(g, en, l, last, All));
  }
}
