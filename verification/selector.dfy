/** What the ignored argument of the path search is worth (src/consensus/dag.cpp:57-63, :88): when following
    all parents instead of strong ones changes the votes of a wave. */
module Selectors {
  import opened Vertices
  import opened Graphs
  import opened Links
  import opened Enumerations
  import opened Searches
  import opened Ordering
  import opened WeakEdges

  /** Each parent that `v` lists is of the round before, or at least three rounds below. */
  ghost predicate Spaced(v: Vertex) {
    forall h | h in v.parents :: v.IsPreviousRound(v.parents[h]) || v.parents[h] + 3 <= v.round
  }

  /** So it is with all vertices this code creates. */
  lemma CreatedSpaced(g: Graph, en: Enumeration, owner: Key, round: Round, block: Block)
    requires SlotsOk(g) && HashUnique(Stored(g)) && Enumerates(en, g) && round > 0
    ensures Spaced(CreatedVertex(g, en, owner, round, block))
  {
    hide Stored, SlotsOk, CreatedVertex, Offered, Irredundant, Leads, Attachable;
    CreatedIs(g, en, owner, round, block);
    var x := CreatedVertex(g, en, owner, round, block);
    forall h | h in x.parents ensures x.IsPreviousRound(x.parents[h]) || x.parents[h] + 3 <= x.round {
      assert !x.IsPreviousRound(x.parents[h]) ==> x.IsWeakParent(h);
    }
  }

  /** Up to two rounds above the target, only strong parents matter. */
  lemma {:induction false} NearStrong(s: set<Vertex>, u: Vertex, l: Vertex)
    requires Coherent(s) && l in s && u in s && l.round < u.round <= l.round + 2
    requires forall v | v in s && l.round < v.round <= l.round + 2 :: Spaced(v)
    ensures Leads(s, u, l, All) <==> Leads(s, u, l, Strong)
    decreases u.round
  {
    hide Leads, Closed, HashUnique;
    LeadsStep(s, u, l, All);
    LeadsStep(s, u, l, Strong);
    if Hits(u, l, All) {
      ClosedAt(s, u);
      ListedIs(s, u, l, All);
    }
    forall p ensures Steps(s, u, p, l, All) <==> Steps(s, u, p, l, Strong)
             ensures Steps(s, u, p, l, All) ==> (Leads(s, p, l, All) <==> Leads(s, p, l, Strong))
    {
      if Steps(s, u, p, l, All) {
        NearStrong(s, p, l);
      }
    }
  }

  /** Three rounds above, as the voters of a wave are, one weak edge may lead straight to the target. */
  lemma VoterIs(s: set<Vertex>, u: Vertex, l: Vertex)
    requires Coherent(s) && l in s && u in s && u.round == l.round + 3
    requires forall v | v in s && l.round < v.round <= l.round + 3 :: Spaced(v)
    ensures Leads(s, u, l, All) <==> Leads(s, u, l, Strong) || u.IsWeakParent(l.hash)
  {
    hide Leads, Closed, HashUnique;
    LeadsStep(s, u, l, All);
    LeadsStep(s, u, l, Strong);
    if Hits(u, l, All) {
      ClosedAt(s, u);
      ListedIs(s, u, l, All);
    }
    forall p ensures Steps(s, u, p, l, All) <==> Steps(s, u, p, l, Strong)
             ensures Steps(s, u, p, l, All) ==> (Leads(s, p, l, All) <==> Leads(s, p, l, Strong))
    {
      if Steps(s, u, p, l, All) {
        NearStrong(s, p, l);
      }
    }
  }

  /** The voters of a wave whose vertices this code created: following all parents counts those that
      following strong parents counts, and besides just those that list the leader as a weak parent. */
  lemma VotersIff(g: Graph, en: Enumeration, w: Wave, l: Vertex)
    requires SlotsOk(g) && Enumerates(en, g) && Coherent(Stored(g)) && w > 0
    requires l in Stored(g) && l.round == RoundForWave(w, 1)
    requires forall v | v in Stored(g) && RoundForWave(w, 1) < v.round <= RoundForWave(w, MAX_WAVE) :: Spaced(v)
    ensures var last := RoundForWave(w, MAX_WAVE);
            Linkers(g, en, l, last, All) ==
            Linkers(g, en, l, last, Strong) + set k | k in Row(g, last) && Row(g, last)[k].IsWeakParent(l.hash)
  {
    hide Leads, Linked, Closed, HashUnique, Spaced, Enumerates;
    var last := RoundForWave(w, MAX_WAVE);
    forall k | k in Row(g, last)
      ensures var u := Row(g, last)[k]; Linked(g, en, u, l, All) <==>
              Linked(g, en, u, l, Strong) || u.IsWeakParent(l.hash)
    {
      var u := Row(g, last)[k];
      assert last in g && k in g[last] && u in Stored(g);
      LinkedLeads(g, en, u, l, All);
      LinkedLeads(g, en, u, l, Strong);
      VoterIs(Stored(g), u, l);
    }
  }
}
