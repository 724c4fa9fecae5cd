/** What the receive guard lets through (src/consensus/consensus.cpp:56-58): exactly when an accepted vertex
    is linked to a leader that was committed before, when it arrives and once it is stored. */
module Guards {
  import opened Vertices
  import opened Graphs
  import opened Links
  import opened Enumerations
  import opened Searches
  import opened Ordering
  import opened Agreement

  /** Some parent of `v` is of a round after wave `w`, or is the leader `l`, or is linked to it: what a
      node can check before it stores `v`, looking no further for parents of later rounds. */
  ghost predicate LeansOn(s: set<Vertex>, v: Vertex, w: Wave, l: Vertex, e: Edges)
    requires w > 0
  {
    exists p :: p in s && p.hash in v.Parents(e) && v.parents[p.hash] == p.round
                && (p.round > RoundForWave(w, MAX_WAVE) || p == l || Leads(s, p, l, e))
  }

  lemma LeansOnLeads(cfg: Config, net: set<Vertex>, g: Graph, en: Enumeration, w: Wave, v: Vertex)
    requires ConfigOk(cfg) && NetOk(cfg, net) && ViewOk(g, en, net) && w > 0 && Commits(cfg, g, en, w)
    requires Resolves(Stored(g), v.parents) && v.round > RoundForWave(w, MAX_WAVE)
    ensures var l := WaveLeader(cfg.keys, g, w).value;
            Leads(Stored(g), v, l, cfg.edges) <==> LeansOn(Stored(g), v, w, l, cfg.edges)
  {
    hide Leads, NetOk, Linkers, View, Bound, WaveLeader, Stored, SlotsOk, Enumerates, Resolves;
    var s, l, e := Stored(g), WaveLeader(cfg.keys, g, w).value, cfg.edges;
    CommitBinds(cfg, net, g, en, w);
    LeadsStep(s, v, l, e);
    if Leads(s, v, l, e) {
      if Hits(v, l, e) {
        ListedIs(s, v, l, e) by { ViewCoherent(g, en, net); }
      } else {
        var p :| Steps(s, v, p, l, e) && Leads(s, p, l, e);
      }
    }
    if p :| p in s && p.hash in v.Parents(e) && v.parents[p.hash] == p.round
            && (p.round > RoundForWave(w, MAX_WAVE) || p == l || Leads(s, p, l, e)) {
      if p != l {
        if p.round > RoundForWave(w, MAX_WAVE) {
          StoredHeld(cfg, net, s, p);
          CommitBindsLater(cfg, net, g, en, l, RoundForWave(w, MAX_WAVE), s, p);
        }
        LeadsBy(s, v, p, l, e);
      }
    }
  }

  /** After a commit, a vertex of a later round that the receive guard accepts need not be well formed.
      Exactly if one of its parents leads there does the search find it linked to the committed leader,
      before it is stored. */
  lemma GuardLinkedIff(cfg: Config, net: set<Vertex>, g: Graph, en: Enumeration, w: Wave, v: Vertex)
    requires ConfigOk(cfg) && NetOk(cfg, net) && ViewOk(g, en, net) && w > 0 && Commits(cfg, g, en, w)
    requires Resolves(Stored(g), v.parents) && v.round > RoundForWave(w, MAX_WAVE)
    ensures var l := WaveLeader(cfg.keys, g, w).value;
            Linked(g, en, v, l, cfg.edges) <==> LeansOn(Stored(g), v, w, l, cfg.edges)
  {
    hide Linked, Leads, LeansOn, NetOk, Linkers, Stored, WaveLeader;
    LeansOnLeads(cfg, net, g, en, w, v);
    ViewLinked(g, en, net, v, WaveLeader(cfg.keys, g, w).value, cfg.edges);
  }

  lemma {:induction false} KeptLeads(s: set<Vertex>, v: Vertex, u: Vertex, l: Vertex, e: Edges, n: nat)
    requires LeadsWithin(s + {v}, u, l, e, n) && u.round > l.round && v.round > l.round
    ensures Leads(s, u, l, e) || Leads(s, v, l, e)
    decreases n
  {
    hide Leads, Hits;
    LeadsStep(s, u, l, e);
    if !Hits(u, l, e) {
      var p :| Steps(s + {v}, u, p, l, e) && LeadsWithin(s + {v}, p, l, e, n - 1);
      KeptLeads(s, v, p, l, e, n - 1);
      if p in s && Leads(s, p, l, e) {
        assert Steps(s, u, p, l, e);
      }
    }
  }

  lemma {:induction false} LeadsWithinMore(s: set<Vertex>, t: set<Vertex>, u: Vertex, l: Vertex, e: Edges, n: nat)
    requires s <= t && LeadsWithin(s, u, l, e, n)
    ensures LeadsWithin(t, u, l, e, n)
    decreases n
  {
    if !Hits(u, l, e) {
      var p :| Steps(s, u, p, l, e) && LeadsWithin(s, p, l, e, n - 1);
      assert Steps(t, u, p, l, e);
      LeadsWithinMore(s, t, p, l, e, n - 1);
    }
  }

  /** Once a vertex with a digest of its own is stored, over another one or not, the search from it finds
      what it finds in the graph without the vertex it replaced: coming back to the new vertex is of no
      help. A node can run that search before it stores the vertex. */
  lemma StoredLinkedIff(g: Graph, em: Enumeration, v: Vertex, l: Vertex, e: Edges)
    requires SlotsOk(g) && HashUnique(Stored(g)) && OwnDigest(g, v) && Enumerates(em, Insert(g, v))
    ensures Linked(Insert(g, v), em, v, l, e) <==> Leads(Kept(g, v), v, l, e)
  {
    hide Linked, Stored, SlotsOk, Enumerates, Insert, Kept, OwnDigest, HashUnique, LeadsWithin;
    var t, s := Insert(g, v), Kept(g, v);
    OwnDigestUnique(g, v);
    InsertSlots(g, v);
    LinkedLeads(t, em, v, l, e);
    if n: nat :| v.round > l.round && LeadsWithin(s + {v}, v, l, e, n) {
      KeptLeads(s, v, v, l, e, n);
    }
    if n: nat :| LeadsWithin(s, v, l, e, n) {
      LeadsWithinMore(s, s + {v}, v, l, e, n);
    }
  }

  /** No other stored vertex has the digest of `v`. */
  ghost predicate FreshDigest(g: Graph, v: Vertex) {
    forall u | u in Stored(g) && u.hash == v.hash :: u == v
  }

  lemma {:induction false} ReplacedNotMet(g: Graph, v: Vertex, u: Vertex, l: Vertex, e: Edges, n: nat)
    requires LosesNoParent(g, v) && FreshDigest(g, v)
    requires u in Kept(g, v) + {v} && LeadsWithin(Stored(g), u, l, e, n)
    ensures LeadsWithin(Kept(g, v) + {v}, u, l, e, n)
    decreases n
  {
    hide Stored, Displaces;
    if !Hits(u, l, e) {
      var p :| Steps(Stored(g), u, p, l, e) && LeadsWithin(Stored(g), p, l, e, n - 1);
      NotReplaced(g, v, u, p, e);
      assert Steps(Kept(g, v) + {v}, u, p, l, e);
      ReplacedNotMet(g, v, p, l, e, n - 1);
    }
  }

  lemma NotReplaced(g: Graph, v: Vertex, u: Vertex, p: Vertex, e: Edges)
    requires LosesNoParent(g, v) && FreshDigest(g, v) && u in Kept(g, v) + {v}
    requires p in Stored(g) && p.hash in u.Parents(e) && u.parents[p.hash] == p.round
    ensures p in Kept(g, v) + {v}
  {
  }

  /** Vertices below their children never look at a round as high as that of `v`. */
  lemma PushedUnder(g: Graph, em: Enumeration, v: Vertex, u: Vertex, l: Vertex, e: Edges, p: Vertex)
    requires SlotsOk(g) && HashUnique(Stored(g)) && Enumerates(em, Insert(g, v)) && Descends(u) && u.round <= v.round
    ensures p in Pushed(Insert(g, v), em, u, l, e) <==> Steps(Stored(g), u, p, l, e)
  {
    hide SlotsOk, Enumerates, Stored, Lookup, Insert, Pushed;
    var t := Insert(g, v);
    InsertSlots(g, v);
    if p in Pushed(t, em, u, l, e) {
      PushedStored(t, em, u, l, e, p);
      PushedClaim(t, em, u, l, e, p);
      LowerStays(g, v, p);
      PushedNotTarget(t, em, u, l, e, p);
    }
    if Steps(Stored(g), u, p, l, e) {
      LowerStays(g, v, p);
      assert Provides(Stored(t), p.hash, p.round);
      LookupProvides(t, em, p.hash, p.round);
      LookupIs(t, em, p.hash, p.round);
      var q := Lookup(t, em, p.hash, p.round).value;
      LowerStays(g, v, q);
      assert q == p;
      PushedOf(t, em, u, l, e, p);
    }
  }

  lemma PushedNotTarget(g: Graph, en: Enumeration, u: Vertex, l: Vertex, e: Edges, p: Vertex)
    requires p in Pushed(g, en, u, l, e)
    ensures p.hash != l.hash
  {
    var h :| h in u.Parents(e).Keys && PushedBy(g, en, u, h, l, e).Some? && PushedBy(g, en, u, h, l, e).value == p;
    LookupIs(g, en, h, u.Parents(e)[h]);
  }

  lemma PushedOf(g: Graph, en: Enumeration, u: Vertex, l: Vertex, e: Edges, p: Vertex)
    requires p.hash in u.Parents(e) && p.hash != l.hash && p.round > l.round && u.parents[p.hash] == p.round
    requires Lookup(g, en, p.hash, p.round) == Some(p)
    ensures p in Pushed(g, en, u, l, e)
  {
    assert PushedBy(g, en, u, p.hash, l, e) == Some(p);
  }

  lemma {:induction false} FoundUnder(g: Graph, em: Enumeration, v: Vertex, u: Vertex, l: Vertex, e: Edges, n: nat)
    requires SlotsOk(g) && HashUnique(Stored(g)) && Descending(Stored(g)) && Enumerates(em, Insert(g, v))
    requires Descends(u) && u.round <= v.round
    ensures FoundWithin(Insert(g, v), em, u, l, e, n) <==> LeadsWithin(Stored(g), u, l, e, n)
    decreases n
  {
    hide SlotsOk, Enumerates, Stored, Insert, Pushed, Hits, HashUnique, Descends;
    forall p ensures p in Pushed(Insert(g, v), em, u, l, e) <==> Steps(Stored(g), u, p, l, e) {
      PushedUnder(g, em, v, u, l, e, p);
    }
    if n > 0 {
      var m := n - 1;
      forall p | Steps(Stored(g), u, p, l, e)
        ensures FoundWithin(Insert(g, v), em, p, l, e, m) <==> LeadsWithin(Stored(g), p, l, e, m)
      {
        StepDescends(g, u, p, l, e);
        FoundUnder(g, em, v, p, l, e, m);
      }
    }
  }

  lemma StepDescends(g: Graph, u: Vertex, p: Vertex, l: Vertex, e: Edges)
    requires Descending(Stored(g)) && Descends(u) && Steps(Stored(g), u, p, l, e)
    ensures Descends(p) && p.round < u.round
  {
    hide Stored;
    assert Descends(p);
  }

  /** What makes storing `v` harmless to the search from `v`: either everything lies above its parents, or
      `v` replaces no vertex that is listed as a parent, nor any of its own digest. */
  ghost predicate StoredSafely(g: Graph, v: Vertex) {
    (Descending(Stored(g)) && Descends(v)) || (LosesNoParent(g, v) && FreshDigest(g, v))
  }

  lemma StoredSame(g: Graph, em: Enumeration, v: Vertex, l: Vertex, e: Edges)
    requires SlotsOk(g) && HashUnique(Stored(g)) && StoredSafely(g, v) && Enumerates(em, Insert(g, v))
    ensures Linked(Insert(g, v), em, v, l, e) <==> Leads(Stored(g), v, l, e)
  {
    hide Stored, SlotsOk, Enumerates, Insert, LosesNoParent, HashUnique, LeadsWithin, FoundWithin, Displaces;
    if Descending(Stored(g)) && Descends(v) {
      forall n: nat ensures FoundWithin(Insert(g, v), em, v, l, e, n) <==> LeadsWithin(Stored(g), v, l, e, n) {
        FoundUnder(g, em, v, v, l, e, n);
      }
    } else {
      StoredLinkedIff(g, em, v, l, e);
      if n: nat :| LeadsWithin(Stored(g), v, l, e, n) {
        ReplacedNotMet(g, v, v, l, e, n);
        if v.round > l.round {
          KeptLeads(Kept(g, v), v, v, l, e, n);
        }
      }
      if n: nat :| LeadsWithin(Kept(g, v), v, l, e, n) {
        LeadsWithinMore(Kept(g, v), Stored(g), v, l, e, n);
      }
    }
  }

  /** Such a vertex is linked to the committed leader once it is stored exactly if one of its parents leads
      there, in whatever order the rounds are iterated then. */
  lemma GuardStoredIff(cfg: Config, net: set<Vertex>, g: Graph, en: Enumeration, w: Wave, v: Vertex, em: Enumeration)
    requires ConfigOk(cfg) && NetOk(cfg, net) && ViewOk(g, en, net) && w > 0 && Commits(cfg, g, en, w)
    requires Resolves(Stored(g), v.parents) && v.round > RoundForWave(w, MAX_WAVE)
    requires StoredSafely(g, v) && Enumerates(em, Insert(g, v))
    ensures var l := WaveLeader(cfg.keys, g, w).value;
            Linked(Insert(g, v), em, v, l, cfg.edges) <==> LeansOn(Stored(g), v, w, l, cfg.edges)
  {
    hide Linked, Leads, LeansOn, NetOk, Linkers, Stored, SlotsOk, Insert, StoredSafely, Resolves, WaveLeader,
      HashUnique;
    LeansOnLeads(cfg, net, g, en, w, v);
    ViewCoherent(g, en, net);
    StoredSame(g, em, v, WaveLeader(cfg.keys, g, w).value, cfg.edges);
  }
}
