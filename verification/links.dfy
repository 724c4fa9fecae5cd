/** Links between vertices: parent edges, paths, and the links that the path search follows. */
module Links {
  import opened Vertices
  import opened Graphs

  /** `p` is a stored parent of `u`, at the round `u` claims for it. */
  ghost predicate Edge(s: set<Vertex>, u: Vertex, p: Vertex, e: Edges) {
    p in s && p.hash in u.Parents(e) && u.parents[p.hash] == p.round && p.round < u.round
  }

  /** A non-empty chain of edges leads from `u` to `v`. */
  ghost predicate Reach(s: set<Vertex>, u: Vertex, v: Vertex, e: Edges)
    decreases u.round
  {
    exists p :: Edge(s, u, p, e) && (p == v || Reach(s, p, v, e))
  }

  /** The same, said with the whole path in hand. */
  ghost predicate IsPath(s: set<Vertex>, path: seq<Vertex>, u: Vertex, v: Vertex, e: Edges) {
    && |path| >= 2 && path[0] == u && path[|path| - 1] == v
    && forall i | 0 <= i < |path| - 1 :: Edge(s, path[i], path[i + 1], e)
  }

  lemma {:induction false} ReachHasPath(s: set<Vertex>, u: Vertex, v: Vertex, e: Edges) returns (path: seq<Vertex>)
    requires Reach(s, u, v, e)
    ensures IsPath(s, path, u, v, e)
    decreases u.round
  {
    var p :| Edge(s, u, p, e) && (p == v || Reach(s, p, v, e));
    if p == v {
      path := [u, v];
    } else {
      var rest := ReachHasPath(s, p, v, e);
      path := [u] + rest;
      forall i | 0 <= i < |path| - 1 ensures Edge(s, path[i], path[i + 1], e) {
        if i > 0 {
          assert Edge(s, rest[i - 1], rest[i], e);
        }
      }
    }
  }

  lemma {:induction false} PathReaches(s: set<Vertex>, path: seq<Vertex>, u: Vertex, v: Vertex, e: Edges)
    requires IsPath(s, path, u, v, e)
    ensures Reach(s, u, v, e)
    decreases |path|
  {
    assert Edge(s, path[0], path[1], e);
    if |path| > 2 {
      var rest := path[1..];
      forall i | 0 <= i < |rest| - 1 ensures Edge(s, rest[i], rest[i + 1], e) {
        assert Edge(s, path[i + 1], path[i + 2], e);
      }
      PathReaches(s, rest, path[1], v, e);
    }
  }

  lemma ReachIffPath(s: set<Vertex>, u: Vertex, v: Vertex, e: Edges)
    ensures Reach(s, u, v, e) <==> exists path :: IsPath(s, path, u, v, e)
  {
    if Reach(s, u, v, e) {
      var path := ReachHasPath(s, u, v, e);
    }
    if path :| IsPath(s, path, u, v, e) {
      PathReaches(s, path, u, v, e);
    }
  }

  lemma ReachStep(s: set<Vertex>, u: Vertex, p: Vertex, v: Vertex, e: Edges)
    requires Edge(s, u, p, e) && (p == v || Reach(s, p, v, e))
    ensures Reach(s, u, v, e)
  {
  }

  lemma {:induction false} ReachDown(s: set<Vertex>, u: Vertex, v: Vertex, e: Edges)
    requires Reach(s, u, v, e)
    ensures v in s && v.round < u.round
    decreases u.round
  {
    var p :| Edge(s, u, p, e) && (p == v || Reach(s, p, v, e));
    if p != v {
      ReachDown(s, p, v, e);
    }
  }

  // ------------------------------------------------- links as the search follows them

  /** The target is among the parents of `u`, so expanding `u` ends a search for it. */
  predicate Hits(u: Vertex, v: Vertex, e: Edges) {
    v.hash in u.Parents(e)
  }

  /** A search for `v` goes on from `u` to its stored parent `p`, which lies above `v`. */
  ghost predicate Steps(s: set<Vertex>, u: Vertex, p: Vertex, v: Vertex, e: Edges) {
    && p in s && p.hash in u.Parents(e) && u.parents[p.hash] == p.round
    && p.hash != v.hash && p.round > v.round
  }

  ghost predicate LeadsWithin(s: set<Vertex>, u: Vertex, v: Vertex, e: Edges, n: nat)
    decreases n
  {
    Hits(u, v, e) || (n > 0 && exists p :: Steps(s, u, p, v, e) && LeadsWithin(s, p, v, e, n - 1))
  }

  /** `u` is linked to `v`: some chain of such steps comes to a vertex that lists `v`. Nothing is assumed
      about the rounds that the vertices on the way claim for their parents. */
  ghost predicate Leads(s: set<Vertex>, u: Vertex, v: Vertex, e: Edges) {
    u.round > v.round && exists n: nat :: LeadsWithin(s, u, v, e, n)
  }

  /** The owners of the vertices of round `r` that are linked to `v`. */
  ghost function Voters(s: set<Vertex>, v: Vertex, r: Round, e: Edges): set<Key> {
    set u | u in s && u.round == r && Leads(s, u, v, e) :: u.owner
  }

  lemma LeadsStep(s: set<Vertex>, u: Vertex, v: Vertex, e: Edges)
    ensures Leads(s, u, v, e) <==>
            u.round > v.round && (Hits(u, v, e) || exists p :: Steps(s, u, p, v, e) && Leads(s, p, v, e))
  {
    hide Hits;
    if u.round > v.round {
      if Hits(u, v, e) {
        assert LeadsWithin(s, u, v, e, 0);
      }
      if p :| Steps(s, u, p, v, e) && Leads(s, p, v, e) {
        var n: nat :| LeadsWithin(s, p, v, e, n);
        assert LeadsWithin(s, u, v, e, n + 1);
      }
      if Leads(s, u, v, e) && !Hits(u, v, e) {
        var n: nat :| LeadsWithin(s, u, v, e, n);
        var p :| Steps(s, u, p, v, e) && LeadsWithin(s, p, v, e, n - 1);
        assert Leads(s, p, v, e);
      }
    }
  }

  lemma LeadsBy(s: set<Vertex>, u: Vertex, p: Vertex, v: Vertex, e: Edges)
    requires p in s && p.hash in u.Parents(e) && u.parents[p.hash] == p.round && u.round > v.round && Leads(s, p, v, e)
    ensures Leads(s, u, v, e)
  {
    LeadsStep(s, u, v, e);
  }

  /** A link over strong edges is a link. */
  lemma {:induction false} LeadsWithinAll(s: set<Vertex>, u: Vertex, v: Vertex, e: Edges, n: nat)
    requires LeadsWithin(s, u, v, e, n)
    ensures LeadsWithin(s, u, v, All, n)
    decreases n
  {
    if !Hits(u, v, e) {
      var p :| Steps(s, u, p, v, e) && LeadsWithin(s, p, v, e, n - 1);
      assert Steps(s, u, p, v, All);
      LeadsWithinAll(s, p, v, e, n - 1);
    }
  }

  lemma LeadsAll(s: set<Vertex>, u: Vertex, v: Vertex, e: Edges)
    requires Leads(s, u, v, e)
    ensures Leads(s, u, v, All)
  {
    var n: nat :| LeadsWithin(s, u, v, e, n);
    LeadsWithinAll(s, u, v, e, n);
  }

  /** Links compose, although a search for the lower target prunes less than one for the upper. */
  lemma {:induction false} LeadsWithinTrans(s: set<Vertex>, u: Vertex, v: Vertex, w: Vertex, e: Edges, n: nat)
    requires Coherent(s) && Resolves(s, u.parents) && v in s && w in s
    requires u.round > v.round && LeadsWithin(s, u, v, e, n) && Leads(s, v, w, e)
    ensures Leads(s, u, w, e)
    decreases n
  {
    hide Closed, Leads;
    LeadsStep(s, u, w, e);
    if Hits(u, v, e) {
      assert Provides(s, v.hash, u.parents[v.hash]);
      TargetBelow(s, v, w, e);
      LeadsBy(s, u, v, w, e);
    } else {
      var p :| Steps(s, u, p, v, e) && LeadsWithin(s, p, v, e, n - 1);
      TargetBelow(s, v, w, e);
      assert Resolves(s, p.parents) by { ClosedAt(s, p); }
      LeadsWithinTrans(s, p, v, w, e, n - 1);
      LeadsBy(s, u, p, w, e);
    }
  }

  lemma TargetBelow(s: set<Vertex>, u: Vertex, v: Vertex, e: Edges)
    requires Leads(s, u, v, e)
    ensures u.round > v.round
  {
  }

  lemma ClosedAt(s: set<Vertex>, u: Vertex)
    requires Closed(s) && u in s
    ensures Resolves(s, u.parents)
  {
  }

  lemma LeadsTrans(s: set<Vertex>, u: Vertex, v: Vertex, w: Vertex, e: Edges)
    requires Coherent(s) && Resolves(s, u.parents) && v in s && w in s
    requires Leads(s, u, v, e) && Leads(s, v, w, e)
    ensures Leads(s, u, w, e)
  {
    var n: nat :| LeadsWithin(s, u, v, e, n);
    LeadsWithinTrans(s, u, v, w, e, n);
  }

  /** A path along which rounds go down is a link. */
  lemma {:induction false} ReachLeads(s: set<Vertex>, u: Vertex, v: Vertex, e: Edges)
    requires HashUnique(s) && v in s && Reach(s, u, v, e)
    ensures Leads(s, u, v, e)
    decreases u.round
  {
    var p :| Edge(s, u, p, e) && (p == v || Reach(s, p, v, e));
    ReachDown(s, u, v, e);
    LeadsStep(s, u, v, e);
    if p != v {
      ReachLeads(s, p, v, e);
      LeadsBy(s, u, p, v, e);
    }
  }

  /** Where vertices lie above their parents, links are just the paths: the pruning loses none. */
  lemma {:induction false} LeadsReach(s: set<Vertex>, u: Vertex, v: Vertex, e: Edges)
    requires Sound(s) && Attachable(s, u) && v in s
    ensures Leads(s, u, v, e) <==> Reach(s, u, v, e)
    decreases u.round
  {
    hide Closed, Descending, Leads;
    if Reach(s, u, v, e) {
      ReachLeads(s, u, v, e);
    }
    if Leads(s, u, v, e) {
      LeadsStep(s, u, v, e);
      if Hits(u, v, e) {
        var p := ParentEdge(s, u, v.hash, e);
        assert p == v;
      } else {
        var p :| Steps(s, u, p, v, e) && Leads(s, p, v, e);
        StoredAttachable(s, p);
        LeadsReach(s, p, v, e);
        assert Edge(s, u, p, e);
      }
    }
  }

  /** Where digests are unique, whoever lists a stored vertex and resolves lists it at its round. */
  lemma ListedIs(s: set<Vertex>, v: Vertex, l: Vertex, e: Edges)
    requires HashUnique(s) && l in s && Resolves(s, v.parents) && Hits(v, l, e)
    ensures v.parents[l.hash] == l.round
  {
    assert Provides(s, l.hash, v.parents[l.hash]);
  }

  // ------------------------------------------------- several views

  /** A part of a whole with unique digests that holds the parents of all it holds. */
  ghost predicate View(s: set<Vertex>, whole: set<Vertex>) {
    s <= whole && Closed(s) && HashUnique(whole)
  }

  lemma ViewSteps(s: set<Vertex>, whole: set<Vertex>, u: Vertex, p: Vertex, v: Vertex, e: Edges)
    requires View(s, whole) && Resolves(s, u.parents)
    ensures Steps(s, u, p, v, e) <==> Steps(whole, u, p, v, e)
    ensures Steps(s, u, p, v, e) ==> Resolves(s, p.parents)
  {
    if Steps(whole, u, p, v, e) {
      assert Provides(s, p.hash, u.parents[p.hash]);
      var q :| q in s && q.hash == p.hash && q.round == u.parents[p.hash];
      assert q == p;
    }
  }

  lemma {:induction false} ViewLeadsWithin(s: set<Vertex>, whole: set<Vertex>, u: Vertex, v: Vertex, e: Edges, n: nat)
    requires View(s, whole) && Resolves(s, u.parents)
    ensures LeadsWithin(s, u, v, e, n) <==> LeadsWithin(whole, u, v, e, n)
    decreases n
  {
    hide Steps, View, Hits, Resolves;
    forall p
      ensures Steps(s, u, p, v, e) <==> Steps(whole, u, p, v, e)
      ensures n > 0 && Steps(s, u, p, v, e) ==> (LeadsWithin(s, p, v, e, n - 1) <==> LeadsWithin(whole, p, v, e, n - 1))
    {
      ViewSteps(s, whole, u, p, v, e);
      if n > 0 && Steps(s, u, p, v, e) {
        ViewLeadsWithin(s, whole, p, v, e, n - 1);
      }
    }
  }

  /** Every view that resolves the parents of `u` sees exactly the links of `u` in the whole. */
  lemma ViewLeads(s: set<Vertex>, whole: set<Vertex>, u: Vertex, v: Vertex, e: Edges)
    requires View(s, whole) && Resolves(s, u.parents)
    ensures Leads(s, u, v, e) <==> Leads(whole, u, v, e)
  {
    hide View, Resolves, LeadsWithin;
    forall n: nat ensures LeadsWithin(s, u, v, e, n) <==> LeadsWithin(whole, u, v, e, n) {
      ViewLeadsWithin(s, whole, u, v, e, n);
    }
  }

  lemma {:induction false} LeadsWithinDown(s: set<Vertex>, whole: set<Vertex>, u: Vertex, v: Vertex, e: Edges, n: nat)
    requires View(s, whole) && Resolves(s, u.parents) && v in whole && LeadsWithin(s, u, v, e, n)
    ensures v in s
    decreases n
  {
    if Hits(u, v, e) {
      assert Provides(s, v.hash, u.parents[v.hash]);
    } else {
      var p :| Steps(s, u, p, v, e) && LeadsWithin(s, p, v, e, n - 1);
      ViewSteps(s, whole, u, p, v, e);
      LeadsWithinDown(s, whole, p, v, e, n - 1);
    }
  }

  /** A view holds whatever it sees linked. */
  lemma LeadsDown(s: set<Vertex>, whole: set<Vertex>, u: Vertex, v: Vertex, e: Edges)
    requires View(s, whole) && Resolves(s, u.parents) && v in whole && Leads(s, u, v, e)
    ensures v in s
  {
    var n: nat :| LeadsWithin(s, u, v, e, n);
    LeadsWithinDown(s, whole, u, v, e, n);
  }

  /** Two views agree on the links of a vertex they both hold, and both hold whatever it is linked to. */
  lemma ViewsAgree(s: set<Vertex>, t: set<Vertex>, whole: set<Vertex>, u: Vertex, v: Vertex, e: Edges)
    requires View(s, whole) && View(t, whole) && u in s && u in t && v in whole
    ensures Leads(s, u, v, e) <==> Leads(t, u, v, e)
    ensures Leads(s, u, v, e) ==> v in s && v in t
  {
    hide Leads;
    ViewLeads(s, whole, u, v, e);
    ViewLeads(t, whole, u, v, e);
    if Leads(s, u, v, e) {
      LeadsDown(s, whole, u, v, e);
      LeadsDown(t, whole, u, v, e);
    }
  }

  /** A guarded insertion of a vertex of the whole never changes an earlier answer. */
  lemma InsertKeepsLinks(g: Graph, x: Vertex, whole: set<Vertex>, u: Vertex, v: Vertex, e: Edges)
    requires SlotsOk(g) && View(Stored(g), whole) && u in Stored(g) && v in whole
    requires x in whole && Resolves(Stored(g), x.parents)
    requires forall d | Displaces(g, x, d) :: d == x
    ensures View(Stored(Insert(g, x)), whole)
    ensures Stored(Insert(g, x)) == Stored(g) + {x}
    ensures Leads(Stored(Insert(g, x)), u, v, e) <==> Leads(Stored(g), u, v, e)
  {
    hide Leads;
    var s, t := Stored(g), Stored(Insert(g, x));
    InsertStored(g, x);
    InsertClosed(s, x);
    ViewsAgree(s, t, whole, u, v, e);
  }

  lemma InsertStored(g: Graph, x: Vertex)
    requires SlotsOk(g)
    requires forall d | Displaces(g, x, d) :: d == x
    ensures Stored(Insert(g, x)) == Stored(g) + {x}
  {
    forall y ensures y in Stored(Insert(g, x)) <==> y in Stored(g) + {x} { InsertHolds(g, x, y); }
  }

  lemma InsertClosed(s: set<Vertex>, x: Vertex)
    requires Closed(s) && Resolves(s, x.parents)
    ensures Closed(s + {x})
  {
    ResolvesMono(s, s + {x}, x.parents);
    forall u | u in s ensures Resolves(s + {x}, u.parents) { ResolvesMono(s, s + {x}, u.parents); }
  }

  lemma ResolvesMono(s: set<Vertex>, t: set<Vertex>, parents: map<VertexHash, Round>)
    requires s <= t && Resolves(s, parents)
    ensures Resolves(t, parents)
  {
    forall h | h in parents ensures Provides(t, h, parents[h]) {
      assert Provides(s, h, parents[h]);
    }
  }

  /** A resolved parent is an edge. */
  lemma ParentEdge(s: set<Vertex>, u: Vertex, h: VertexHash, e: Edges) returns (p: Vertex)
    requires Attachable(s, u) && h in u.Parents(e)
    ensures Edge(s, u, p, e) && p.hash == h
  {
    assert Provides(s, h, u.parents[h]);
    p :| p in s && p.hash == h && p.round == u.parents[h];
  }
}
