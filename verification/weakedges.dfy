/** The vertex a node creates for a round, and its weak edges (src/consensus/consensus.cpp:75-103). */
module WeakEdges {
  import opened Vertices
  import opened Graphs
  import opened Links
  import opened Enumerations
  import opened Searches
  import opened Ordering

  /** The vertices of one round as it is iterated. */
  ghost function Line(g: Graph, en: Enumeration, r: Round): seq<Vertex>
    requires Enumerates(en, g)
  {
    if r in g then assert Lists(en[r], g[r].Keys); RowSeq(g[r], en[r]) else []
  }

  /** One round of the weak-edge loop: each vertex not yet linked becomes a parent. */
  ghost function WeakRound(g: Graph, en: Enumeration, x: Vertex, vs: seq<Vertex>, r: Round): Vertex
    decreases |vs|
  {
    if vs == [] then x
    else WeakRound(g, en, if Linked(g, en, x, vs[0], All) then x else x.AddParent(vs[0].hash, r), vs[1..], r)
  }

  /** The weak-edge loop from round `r` down to round 1. */
  ghost function WeakFrom(g: Graph, en: Enumeration, x: Vertex, r: Round): Vertex
    requires Enumerates(en, g)
    decreases r
  {
    if r == 0 then x
    else WeakFrom(g, en, WeakRound(g, en, x, Line(g, en, r), r), r - 1)
  }

  /** The vertex broadcast for `round` by a node that holds `g`. */
  ghost function CreatedVertex(g: Graph, en: Enumeration, owner: Key, round: Round, block: Block): Vertex
    requires round > 0 && Enumerates(en, g)
  {
    var x := NewVertex(owner, round, block, Offered(g, round - 1));
    if round > 2 then WeakFrom(g, en, x, round - 3) else x
  }

  lemma {:induction false} WeakRoundContent(g: Graph, en: Enumeration, x: Vertex, vs: seq<Vertex>, r: Round)
    ensures var y := WeakRound(g, en, x, vs, r); y.owner == x.owner && y.round == x.round && y.block == x.block
    decreases |vs|
  {
    hide Linked;
    if vs != [] {
      WeakRoundContent(g, en, if Linked(g, en, x, vs[0], All) then x else x.AddParent(vs[0].hash, r), vs[1..], r);
    }
  }

  lemma {:induction false} WeakFromContent(g: Graph, en: Enumeration, x: Vertex, r: Round)
    requires Enumerates(en, g)
    ensures var y := WeakFrom(g, en, x, r); y.owner == x.owner && y.round == x.round && y.block == x.block
    decreases r
  {
    hide Enumerates, Line;
    if r > 0 {
      WeakRoundContent(g, en, x, Line(g, en, r), r);
      WeakFromContent(g, en, WeakRound(g, en, x, Line(g, en, r), r), r - 1);
    }
  }

  /** On any graph. */
  lemma CreatedContent(g: Graph, en: Enumeration, owner: Key, round: Round, block: Block)
    requires round > 0 && Enumerates(en, g)
    ensures var x := CreatedVertex(g, en, owner, round, block); x.owner == owner && x.round == round && x.block == block
  {
    hide Enumerates, Offered;
    if round > 2 {
      WeakFromContent(g, en, NewVertex(owner, round, block, Offered(g, round - 1)), round - 3);
    }
  }

  // ------------------------------------------------- what the loop keeps

  ghost predicate Grown(x: Vertex, y: Vertex) {
    && y.owner == x.owner && y.round == x.round && y.block == x.block && y.hash == x.hash
    && forall h | h in x.parents :: h in y.parents && y.parents[h] == x.parents[h]
  }

  /** `x` has only useful weak edges: none leads to a vertex that another parent already leads to. */
  ghost predicate Irredundant(s: set<Vertex>, strong: map<VertexHash, Round>, x: Vertex) {
    forall w, p | Edge(s, x, w, All) && Edge(s, x, p, All) && w.hash !in strong && p != w :: !Leads(s, p, w, All)
  }

  ghost predicate WeakWithin(strong: map<VertexHash, Round>, x: Vertex, low: Round, high: Round) {
    forall h | h in x.parents && h !in strong :: low <= x.parents[h] <= high
  }

  /** The loop invariant: `x0` plus irredundant weak edges to rounds `low..high`. */
  ghost predicate Partial(s: set<Vertex>, x0: Vertex, x: Vertex, low: Round, high: Round) {
    && Grown(x0, x) && Attachable(s, x)
    && WeakWithin(x0.parents, x, low, high)
    && Irredundant(s, x0.parents, x)
  }

  /** More parents, no fewer links. */
  lemma GrownLeads(s: set<Vertex>, x: Vertex, y: Vertex, v: Vertex)
    requires Grown(x, y) && Leads(s, x, v, All)
    ensures Leads(s, y, v, All)
  {
    hide Leads;
    LeadsStep(s, x, v, All);
    LeadsStep(s, y, v, All);
    if !Hits(x, v, All) {
      var p :| Steps(s, x, p, v, All) && Leads(s, p, v, All);
      assert Steps(s, y, p, v, All);
    }
  }

  lemma AddWeak(s: set<Vertex>, x0: Vertex, x: Vertex, v: Vertex, low: Round, high: Round)
    requires HashUnique(s) && Partial(s, x0, x, low, high) && v in s
    requires 1 <= v.round <= low && v.round <= high < x.round
    requires !Leads(s, x, v, All)
    ensures Partial(s, x0, x.AddParent(v.hash, v.round), v.round, high)
    ensures Leads(s, x.AddParent(v.hash, v.round), v, All)
    ensures Grown(x, x.AddParent(v.hash, v.round))
  {
    hide Leads, Resolves;
    var y := x.AddParent(v.hash, v.round);
    LeadsStep(s, x, v, All);
    LeadsStep(s, y, v, All);
    forall p | Edge(s, y, p, All) ensures p == v || Edge(s, x, p, All) {
      if p.hash == v.hash { assert p == v; }
    }
    forall w, p | Edge(s, y, w, All) && Edge(s, y, p, All) && w.hash !in x0.parents && p != w
      ensures !Leads(s, p, w, All)
    {
      LeadsStep(s, p, w, All);
      if w == v {
        assert Leads(s, p, v, All) ==> Steps(s, x, p, v, All);
      }
    }
    AddResolves(s, x, v);
  }

  lemma AddResolves(s: set<Vertex>, x: Vertex, v: Vertex)
    requires Attachable(s, x) && v in s && v.round < x.round
    ensures Attachable(s, x.AddParent(v.hash, v.round))
  {
    var y := x.AddParent(v.hash, v.round);
    forall h | h in y.parents ensures Provides(s, h, y.parents[h]) {
      if h != v.hash { assert Provides(s, h, x.parents[h]); }
    }
  }

  lemma {:induction false} WeakRoundKeeps(g: Graph, en: Enumeration, x0: Vertex, x: Vertex, vs: seq<Vertex>, r: Round,
                                          low: Round, high: Round)
    requires SlotsOk(g) && HashUnique(Stored(g)) && Enumerates(en, g) && Partial(Stored(g), x0, x, low, high)
    requires 1 <= r <= low && r <= high < x.round
    requires forall v | v in vs :: v in Stored(g) && v.round == r
    ensures var y := WeakRound(g, en, x, vs, r);
            && Partial(Stored(g), x0, y, r, high) && Grown(x, y)
            && forall v | v in vs :: Leads(Stored(g), y, v, All)
    decreases |vs|
  {
    hide Leads, Linked, Irredundant, HashUnique, Attachable, SlotsOk, Stored;
    if vs != [] {
      var s := Stored(g);
      var v := vs[0];
      LinkedLeads(g, en, x, v, All);
      var next := if Linked(g, en, x, v, All) then x else x.AddParent(v.hash, r);
      if !Leads(s, x, v, All) {
        AddWeak(s, x0, x, v, low, high);
      }
      WeakRoundKeeps(g, en, x0, next, vs[1..], r, r, high);
      var y := WeakRound(g, en, x, vs, r);
      GrownLeads(s, next, y, v);
      forall u | u in vs ensures Leads(s, y, u, All) {
        assert u == v || u in vs[1..];
      }
    }
  }

  lemma LineMissing(g: Graph, en: Enumeration, r: Round)
    requires Enumerates(en, g) && r !in g
    ensures Line(g, en, r) == []
  {
  }

  lemma LineElements(g: Graph, en: Enumeration, r: Round, v: Vertex)
    requires SlotsOk(g) && Enumerates(en, g)
    ensures v in Line(g, en, r) <==> v in Stored(g) && v.round == r
  {
    StoredHolds(g, v);
    if r in g {
      RowSeqElements(g, en, r);
    }
  }

  lemma {:induction false} WeakFromKeeps(g: Graph, en: Enumeration, x0: Vertex, x: Vertex, r: Round, low: Round,
                                         high: Round)
    requires SlotsOk(g) && HashUnique(Stored(g)) && Enumerates(en, g) && Partial(Stored(g), x0, x, low, high)
    requires r <= low && r <= high < x.round
    ensures var y := WeakFrom(g, en, x, r);
            && Partial(Stored(g), x0, y, 0, high) && Grown(x, y)
            && forall v | v in Stored(g) && 1 <= v.round <= r :: Leads(Stored(g), y, v, All)
    decreases r
  {
    hide Leads, Irredundant, HashUnique, Attachable, Stored, SlotsOk, Line, Enumerates;
    var s := Stored(g);
    if r > 0 {
      forall v ensures v in Line(g, en, r) <==> v in s && v.round == r { LineElements(g, en, r, v); }
      WeakRoundKeeps(g, en, x0, x, Line(g, en, r), r, low, high);
      var next := WeakRound(g, en, x, Line(g, en, r), r);
      WeakFromKeeps(g, en, x0, next, r - 1, r, high);
      var y := WeakFrom(g, en, x, r);
      forall v | v in s && 1 <= v.round <= r ensures Leads(s, y, v, All) {
        if v.round == r {
          GrownLeads(s, next, y, v);
        }
      }
    }
  }

  // ------------------------------------------------- the loop does not depend on the iteration order

  /** The vertices of `vs` that `x` is not linked to. */
  ghost function Unlinked(s: set<Vertex>, x: Vertex, vs: seq<Vertex>): set<VertexHash> {
    set v | v in vs && !Leads(s, x, v, All) :: v.hash
  }

  ghost function WithParents(x: Vertex, hs: set<VertexHash>, r: Round): Vertex {
    x.(parents := x.parents + map h | h in hs :: r)
  }

  /** A parent of one round does not lead to other vertices of that round. */
  lemma AddSibling(s: set<Vertex>, x: Vertex, v: Vertex, u: Vertex)
    requires HashUnique(s) && v in s && u in s && v.round == u.round < x.round && v.hash !in x.parents
    ensures Leads(s, x.AddParent(v.hash, v.round), u, All) <==> u == v || Leads(s, x, u, All)
  {
    hide Leads;
    var y := x.AddParent(v.hash, v.round);
    LeadsStep(s, x, u, All);
    LeadsStep(s, y, u, All);
    forall p ensures Steps(s, y, p, u, All) <==> Steps(s, x, p, u, All) {}
    assert Hits(y, u, All) <==> u == v || Hits(x, u, All);
  }

  lemma UnlinkedIsNew(s: set<Vertex>, x: Vertex, v: Vertex)
    requires v.round < x.round && !Leads(s, x, v, All)
    ensures v.hash !in x.parents
  {
    LeadsStep(s, x, v, All);
  }

  lemma AddOne(x: Vertex, h: VertexHash, hs: set<VertexHash>, r: Round)
    ensures WithParents(x, {}, r) == x
    ensures WithParents(x.AddParent(h, r), hs, r) == WithParents(x, hs + {h}, r)
  {
    assert x.parents + map[] == x.parents;
    assert x.parents[h := r] + (map k | k in hs :: r) == x.parents + map k | k in hs + {h} :: r;
  }

  lemma UnlinkedStep(s: set<Vertex>, x: Vertex, vs: seq<Vertex>, r: Round)
    requires HashUnique(s) && r < x.round && vs != []
    requires forall v | v in vs :: v in s && v.round == r
    ensures Leads(s, x, vs[0], All) ==> Unlinked(s, x, vs) == Unlinked(s, x, vs[1..])
    ensures !Leads(s, x, vs[0], All) ==>
              Unlinked(s, x, vs) == Unlinked(s, x.AddParent(vs[0].hash, r), vs[1..]) + {vs[0].hash}
  {
    hide Leads, HashUnique, Attachable;
    var v, rest := vs[0], vs[1..];
    forall u ensures u in vs <==> u == v || u in rest {}
    if !Leads(s, x, v, All) {
      UnlinkedIsNew(s, x, v);
      forall u | u in rest ensures Leads(s, x.AddParent(v.hash, r), u, All) <==> u == v || Leads(s, x, u, All) {
        AddSibling(s, x, v, u);
      }
    }
  }

  /** One round adds exactly what was not linked when the round began, although the vertex changes while
      the loop goes on testing it. */
  lemma {:induction false} WeakRoundIs(g: Graph, en: Enumeration, x: Vertex, vs: seq<Vertex>, r: Round)
    requires SlotsOk(g) && HashUnique(Stored(g)) && Enumerates(en, g) && Attachable(Stored(g), x) && r < x.round
    requires forall v | v in vs :: v in Stored(g) && v.round == r
    ensures WeakRound(g, en, x, vs, r) == WithParents(x, Unlinked(Stored(g), x, vs), r)
    ensures Attachable(Stored(g), WeakRound(g, en, x, vs, r)) && WeakRound(g, en, x, vs, r).round == x.round
    decreases |vs|
  {
    hide Leads, Linked, HashUnique, Attachable, SlotsOk, Stored, WithParents, Unlinked;
    var s := Stored(g);
    if vs == [] {
      NoneUnlinked(s, x);
      AddOne(x, x.hash, {}, r);
    } else {
      var v, rest := vs[0], vs[1..];
      LinkedLeads(g, en, x, v, All);
      UnlinkedStep(s, x, vs, r);
      if Linked(g, en, x, v, All) {
        WeakRoundIs(g, en, x, rest, r);
      } else {
        var next := x.AddParent(v.hash, r);
        AddResolves(s, x, v);
        WeakRoundIs(g, en, next, rest, r);
        AddOne(x, v.hash, Unlinked(s, next, rest), r);
      }
    }
  }

  lemma NoneUnlinked(s: set<Vertex>, x: Vertex)
    ensures Unlinked(s, x, []) == {}
  {
  }

  lemma {:induction false} WeakFromIgnoresOrder(g: Graph, en: Enumeration, em: Enumeration, x: Vertex, r: Round)
    requires SlotsOk(g) && HashUnique(Stored(g)) && Enumerates(en, g) && Enumerates(em, g)
    requires Attachable(Stored(g), x) && r < x.round
    ensures WeakFrom(g, en, x, r) == WeakFrom(g, em, x, r)
    decreases r
  {
    hide Leads, Linked, HashUnique, Attachable, SlotsOk, Stored, Line, Enumerates;
    if r > 0 {
      var a, b := Line(g, en, r), Line(g, em, r);
      forall v ensures v in a <==> v in Stored(g) && v.round == r
               ensures v in b <==> v in Stored(g) && v.round == r
      {
        LineElements(g, en, r, v);
        LineElements(g, em, r, v);
      }
      WeakRoundIs(g, en, x, a, r);
      WeakRoundIs(g, em, x, b, r);
      assert Unlinked(Stored(g), x, a) == Unlinked(Stored(g), x, b);
      WeakFromIgnoresOrder(g, en, em, WeakRound(g, en, x, a, r), r - 1);
    }
  }

  /** In whatever order a node iterates its rounds, it creates the same vertex. */
  lemma CreatedIgnoresOrder(g: Graph, en: Enumeration, em: Enumeration, owner: Key, round: Round, block: Block)
    requires SlotsOk(g) && HashUnique(Stored(g)) && Enumerates(en, g) && Enumerates(em, g) && round > 0
    ensures CreatedVertex(g, en, owner, round, block) == CreatedVertex(g, em, owner, round, block)
  {
    OfferedAttachable(g, round);
    if round > 2 {
      WeakFromIgnoresOrder(g, en, em, NewVertex(owner, round, block, Offered(g, round - 1)), round - 3);
    }
  }

  /** Where everything of the rounds up to `r` is linked already, the loop adds nothing. */
  lemma {:induction false} AddsNothing(g: Graph, en: Enumeration, x: Vertex, r: Round)
    requires SlotsOk(g) && HashUnique(Stored(g)) && Enumerates(en, g) && Attachable(Stored(g), x) && r < x.round
    requires forall v | v in Stored(g) && 1 <= v.round <= r :: Leads(Stored(g), x, v, All)
    ensures WeakFrom(g, en, x, r) == x
    decreases r
  {
    hide Leads, Linked, HashUnique, Attachable, SlotsOk, Stored, Line, Enumerates, WithParents;
    if r > 0 {
      forall v ensures v in Line(g, en, r) <==> v in Stored(g) && v.round == r { LineElements(g, en, r, v); }
      WeakRoundIs(g, en, x, Line(g, en, r), r);
      assert Unlinked(Stored(g), x, Line(g, en, r)) == {};
      AddOne(x, x.hash, {}, r);
      AddsNothing(g, en, x, r - 1);
    }
  }

  // ------------------------------------------------- the created vertex

  lemma OfferedAttachable(g: Graph, round: Round)
    requires SlotsOk(g) && round > 0
    ensures Resolves(Stored(g), Offered(g, round - 1))
  {
    var offered := Offered(g, round - 1);
    forall h | h in offered ensures Provides(Stored(g), h, offered[h]) {
      var k :| k in Row(g, round - 1) && Row(g, round - 1)[k].hash == h;
      assert round - 1 in g && k in g[round - 1];
      assert g[round - 1][k] in Stored(g);
    }
  }

  /** The created vertex: the whole previous round as strong parents, and irredundant weak edges to
      rounds up to `round - 3`. */
  lemma CreatedIs(g: Graph, en: Enumeration, owner: Key, round: Round, block: Block)
    requires SlotsOk(g) && HashUnique(Stored(g)) && Enumerates(en, g) && round > 0
    ensures var x := CreatedVertex(g, en, owner, round, block);
            && x.owner == owner && x.round == round && x.block == block
            && x.hash == Digest(owner, round, block, Offered(g, round - 1))
            && Attachable(Stored(g), x)
            && x.StrongParents() == Offered(g, round - 1)
            && (forall h | x.IsWeakParent(h) :: x.parents[h] + 3 <= round)
            && Irredundant(Stored(g), Offered(g, round - 1), x)
            && (forall v | v in Stored(g) && 1 <= v.round && v.round + 3 <= round :: Leads(Stored(g), x, v, All))
  {
    hide Leads, HashUnique, Stored, SlotsOk, Offered, Irredundant, Attachable, Enumerates;
    var strong := Offered(g, round - 1);
    var x0 := NewVertex(owner, round, block, strong);
    StrongOnly(g, owner, round, block);
    var x := CreatedVertex(g, en, owner, round, block);
    if round > 2 {
      WeakFromKeeps(g, en, x0, x0, round - 3, round - 3, round - 3);
    }
    StrongStay(x0, x, if round > 2 then round - 3 else 0);
  }

  /** Before the loop, the parents are the previous round. */
  lemma StrongOnly(g: Graph, owner: Key, round: Round, block: Block)
    requires SlotsOk(g) && round > 0
    ensures var x0 := NewVertex(owner, round, block, Offered(g, round - 1));
            && Partial(Stored(g), x0, x0, round, round)
            && Partial(Stored(g), x0, x0, if round > 2 then round - 3 else 0, if round > 2 then round - 3 else 0)
            && x0.StrongParents() == x0.parents
  {
    OfferedAttachable(g, round);
  }

  /** Weak edges lie further down, so they do not count as strong parents. */
  lemma StrongStay(x0: Vertex, x: Vertex, high: Round)
    requires Grown(x0, x) && x0.StrongParents() == x0.parents && WeakWithin(x0.parents, x, 0, high)
    requires x.round > high + 1 || x.parents == x0.parents
    ensures x.StrongParents() == x0.parents
    ensures x.round == high + 3 || x.parents == x0.parents ==>
            forall h | x.IsWeakParent(h) :: x.parents[h] + 3 <= x.round
  {
  }

  /** Weak-edge completeness: a node's new vertex is linked to every vertex it holds of the previous
      round and of rounds 1 to `round - 3`. */
  lemma CreatedLinksAll(g: Graph, en: Enumeration, owner: Key, round: Round, block: Block, v: Vertex)
    requires SlotsOk(g) && HashUnique(Stored(g)) && Enumerates(en, g) && round > 0
    requires v in Stored(g) && 1 <= v.round && (v.round + 3 <= round || v.round + 1 == round)
    ensures Leads(Stored(g), CreatedVertex(g, en, owner, round, block), v, All)
  {
    hide Leads, Irredundant, CreatedVertex;
    CreatedIs(g, en, owner, round, block);
    if v.round + 1 == round {
      var x := CreatedVertex(g, en, owner, round, block);
      StoredHolds(g, v);
      assert v.hash in Digests(Row(g, v.round));
      assert v.hash in x.StrongParents();
      LeadsStep(Stored(g), x, v, All);
    }
  }

  /** The round in between is skipped by the loop: a vertex of round `round - 2` is linked exactly when
      some vertex held of the previous round has it as a parent. A node holds nothing of the round it
      creates a vertex for, so parents of higher rounds make no difference here. */
  lemma CreatedLinksSkippedIff(g: Graph, en: Enumeration, owner: Key, round: Round, block: Block, v: Vertex)
    requires SlotsOk(g) && Coherent(Stored(g)) && Enumerates(en, g) && round > 2
    requires Descending(Stored(g)) || forall u | u in Stored(g) :: u.round < round
    requires v in Stored(g) && v.round + 2 == round
    ensures Leads(Stored(g), CreatedVertex(g, en, owner, round, block), v, All) <==>
            exists p :: p in Stored(g) && p.round + 1 == round && Edge(Stored(g), p, v, All)
  {
    hide Leads, CreatedVertex, Irredundant, Closed;
    var s, x := Stored(g), CreatedVertex(g, en, owner, round, block);
    CreatedIs(g, en, owner, round, block);
    if n: nat :| LeadsWithin(s, x, v, All, n) && Leads(s, x, v, All) {
      assert !Hits(x, v, All) by {
        if Hits(x, v, All) { ListedIs(s, x, v, All); }
        NotOwnParent(x, v);
      }
      var p :| Steps(s, x, p, v, All) && LeadsWithin(s, p, v, All, n - 1);
      assert p.round + 1 == round by { assert !x.IsPreviousRound(p.round) ==> x.IsWeakParent(p.hash); }
      var q := LastStep(s, p, v, round, n - 1);
    }
    if Leads(s, x, v, All) {
      SomeLength(s, x, v);
    }
    if p :| p in s && p.round + 1 == round && Edge(s, p, v, All) {
      CreatedLinksAll(g, en, owner, round, block, p);
      assert Hits(p, v, All);
      LeadsStep(s, p, v, All);
      LeadsTrans(s, x, p, v, All);
    }
  }

  lemma SomeLength(s: set<Vertex>, x: Vertex, v: Vertex)
    requires Leads(s, x, v, All)
    ensures exists n: nat :: LeadsWithin(s, x, v, All, n)
  {
  }

  /** Parents are of the previous round or at least three rounds below. */
  lemma NotOwnParent(x: Vertex, v: Vertex)
    requires forall h | x.IsWeakParent(h) :: x.parents[h] + 3 <= x.round
    requires v.hash in x.parents ==> x.parents[v.hash] == v.round
    requires v.round + 2 == x.round
    ensures !Hits(x, v, All)
  {
    if v.hash in x.parents {
      assert !x.IsPreviousRound(v.round);
      assert x.IsWeakParent(v.hash);
    }
  }

  /** From a vertex of round `round - 1`, a search for one of the round below stays in that round. */
  lemma {:induction false} LastStep(s: set<Vertex>, p: Vertex, v: Vertex, round: Round, n: nat) returns (q: Vertex)
    requires Coherent(s) && (Descending(s) || forall u | u in s :: u.round < round)
    requires p in s && p.round + 1 == round && v in s && v.round + 2 == round && LeadsWithin(s, p, v, All, n)
    ensures q in s && q.round + 1 == round && Edge(s, q, v, All)
    decreases n
  {
    if Hits(p, v, All) {
      assert Resolves(s, p.parents) && Provides(s, v.hash, p.parents[v.hash]);
      q := p;
    } else {
      var u :| Steps(s, p, u, v, All) && LeadsWithin(s, u, v, All, n - 1);
      assert Descending(s) ==> Descends(p);
      q := LastStep(s, u, v, round, n - 1);
    }
  }

  /** Weak-edge irredundancy: without a weak edge, its target is out of reach. */
  lemma WeakEdgeNeeded(g: Graph, en: Enumeration, owner: Key, round: Round, block: Block, h: VertexHash, w: Vertex)
    requires SlotsOk(g) && HashUnique(Stored(g)) && Enumerates(en, g) && round > 0
    requires CreatedVertex(g, en, owner, round, block).IsWeakParent(h) && w in Stored(g) && w.hash == h
    ensures var x := CreatedVertex(g, en, owner, round, block);
            Leads(Stored(g), x, w, All) && !Leads(Stored(g), x.(parents := x.parents - {h}), w, All)
  {
    hide Stored, SlotsOk, CreatedVertex, Offered, Irredundant, Leads;
    var s, x := Stored(g), CreatedVertex(g, en, owner, round, block);
    CreatedIs(g, en, owner, round, block);
    var e := ParentEdge(s, x, h, All);
    LeadsStep(s, x, w, All);
    assert h !in x.StrongParents();
    WithoutEdge(s, x, w, Offered(g, round - 1));
  }

  lemma WithoutEdge(s: set<Vertex>, x: Vertex, w: Vertex, strong: map<VertexHash, Round>)
    requires Irredundant(s, strong, x) && Edge(s, x, w, All) && w.hash !in strong && Descends(x)
    ensures !Leads(s, x.(parents := x.parents - {w.hash}), w, All)
  {
    hide Leads;
    var y := x.(parents := x.parents - {w.hash});
    LeadsStep(s, y, w, All);
    forall p | Steps(s, y, p, w, All) ensures !Leads(s, p, w, All) {
      assert Edge(s, x, p, All) && p != w;
    }
  }
}
