/** What the path search of src/consensus/dag.cpp:77-101 does on any graph whatsoever and in any order of
    iteration: what it finds, when it ends, and that on a sound graph it finds the paths. */
module Searches {
  import opened Orders
  import opened Vertices
  import opened Graphs
  import opened Links
  import opened Enumerations

  function FirstWith(row: map<Key, Vertex>, ks: seq<Key>, h: VertexHash): Option<Vertex> {
    if ks == [] then None
    else if ks[0] in row && row[ks[0]].hash == h then Some(row[ks[0]])
    else FirstWith(row, ks[1..], h)
  }

  /** The first vertex with the digest `h` that iterating round `r` meets. */
  function Lookup(g: Graph, en: Enumeration, h: VertexHash, r: Round): Option<Vertex> {
    FirstWith(Row(g, r), if r in en then en[r] else [], h)
  }

  lemma {:induction false} FirstWithIs(row: map<Key, Vertex>, ks: seq<Key>, h: VertexHash)
    ensures FirstWith(row, ks, h).None? <==> forall k | k in ks && k in row :: row[k].hash != h
    ensures FirstWith(row, ks, h).Some? ==>
              exists k :: k in ks && k in row && row[k] == FirstWith(row, ks, h).value && row[k].hash == h
  {
    if ks != [] {
      assert forall k :: k in ks <==> k == ks[0] || k in ks[1..];
      FirstWithIs(row, ks[1..], h);
    }
  }

  lemma LookupIs(g: Graph, en: Enumeration, h: VertexHash, r: Round)
    ensures Lookup(g, en, h, r).Some? ==> Lookup(g, en, h, r).value in Stored(g) && Lookup(g, en, h, r).value.hash == h
    ensures Lookup(g, en, h, r).Some? && SlotsOk(g) ==> Lookup(g, en, h, r).value.round == r
  {
    var row, ks := Row(g, r), if r in en then en[r] else [];
    FirstWithIs(row, ks, h);
    if Lookup(g, en, h, r).Some? {
      var k :| k in ks && k in row && row[k] == Lookup(g, en, h, r).value && row[k].hash == h;
      assert r in g && k in g[r];
    }
  }

  /** With vertices in their slots, a look-up finds something exactly when the digest is stored there. */
  lemma LookupProvides(g: Graph, en: Enumeration, h: VertexHash, r: Round)
    requires SlotsOk(g) && Enumerates(en, g)
    ensures Lookup(g, en, h, r).Some? <==> Provides(Stored(g), h, r)
  {
    LookupIs(g, en, h, r);
    if p :| p in Stored(g) && p.hash == h && p.round == r {
      StoredHolds(g, p);
      assert Lists(en[r], g[r].Keys) && p.owner in en[r];
      FirstWithIs(g[r], en[r], h);
    }
    if Lookup(g, en, h, r).Some? {
      assert Provides(Stored(g), h, r);
    }
  }

  /** `v` has the digest `h` at round `r`, and iteration meets it before all others that do. */
  ghost predicate IsFirst(s: set<Vertex>, en: Enumeration, h: VertexHash, r: Round, v: Vertex) {
    && v in s && v.hash == h && v.round == r
    && forall u | u in s && u.hash == h && u.round == r && u != v :: Before(en, v, u)
  }

  lemma {:induction false} FirstWithAt(row: map<Key, Vertex>, ks: seq<Key>, h: VertexHash) returns (i: nat)
    requires FirstWith(row, ks, h).Some?
    ensures i < |ks| && ks[i] in row && row[ks[i]] == FirstWith(row, ks, h).value
    ensures forall j | 0 <= j < i && ks[j] in row :: row[ks[j]].hash != h
  {
    if ks[0] in row && row[ks[0]].hash == h {
      i := 0;
    } else {
      i := FirstWithAt(row, ks[1..], h);
      i := i + 1;
    }
  }

  /** What a look-up finds, exactly. */
  lemma LookupIff(g: Graph, en: Enumeration, h: VertexHash, r: Round, v: Vertex)
    requires SlotsOk(g) && Enumerates(en, g)
    ensures Lookup(g, en, h, r) == Some(v) <==> IsFirst(Stored(g), en, h, r, v)
  {
    hide FirstWith, Stored, Enumerates, Before;
    LookupProvides(g, en, h, r);
    if Lookup(g, en, h, r).Some? {
      LookupFirst(g, en, h, r);
      var w := Lookup(g, en, h, r).value;
      if IsFirst(Stored(g), en, h, r, v) && v != w {
        EnumeratesProper(en, g);
        BeforeOneWay(en, v, w);
      }
    }
    if IsFirst(Stored(g), en, h, r, v) {
      assert Provides(Stored(g), h, r);
    }
  }

  lemma LookupFirst(g: Graph, en: Enumeration, h: VertexHash, r: Round)
    requires SlotsOk(g) && Enumerates(en, g) && Lookup(g, en, h, r).Some?
    ensures IsFirst(Stored(g), en, h, r, Lookup(g, en, h, r).value)
  {
    hide FirstWith, Stored;
    LookupIs(g, en, h, r);
    var v, row, ks := Lookup(g, en, h, r).value, Row(g, r), if r in en then en[r] else [];
    var i := FirstWithAt(row, ks, h);
    StoredHolds(g, v);
    forall u | u in Stored(g) && u.hash == h && u.round == r && u != v ensures Before(en, v, u) {
      StoredHolds(g, u);
      assert Lists(en[r], g[r].Keys) && u.owner in ks;
      var j :| 0 <= j < |ks| && ks[j] == u.owner;
      assert i < j;
      assert Precedes(en[r], v.owner, u.owner);
    }
  }

  // ------------------------------------------------- what the search finds

  /** What the parent `h` of `u` puts on the stack when `v` is searched for. */
  function PushedBy(g: Graph, en: Enumeration, u: Vertex, h: VertexHash, v: Vertex, e: Edges): Option<Vertex>
    requires h in u.Parents(e)
  {
    if h != v.hash && u.Parents(e)[h] > v.round then Lookup(g, en, h, u.Parents(e)[h]) else None
  }

  /** All that expanding `u` puts on the stack. */
  ghost function Pushed(g: Graph, en: Enumeration, u: Vertex, v: Vertex, e: Edges): set<Vertex> {
    set h | h in u.Parents(e).Keys && PushedBy(g, en, u, h, v, e).Some? :: PushedBy(g, en, u, h, v, e).value
  }

  ghost predicate FoundWithin(g: Graph, en: Enumeration, u: Vertex, v: Vertex, e: Edges, n: nat)
    decreases n
  {
    Hits(u, v, e) || (n > 0 && exists p :: p in Pushed(g, en, u, v, e) && FoundWithin(g, en, p, v, e, n - 1))
  }

  /** Some chain of expansions from `u` comes to a vertex that has `v` among its parents. */
  ghost predicate Found(g: Graph, en: Enumeration, u: Vertex, v: Vertex, e: Edges) {
    exists n: nat :: FoundWithin(g, en, u, v, e, n)
  }

  /** The answer of the search. */
  ghost predicate Linked(g: Graph, en: Enumeration, newest: Vertex, oldest: Vertex, e: Edges) {
    newest.round > oldest.round && Found(g, en, newest, oldest, e)
  }

  lemma FoundStep(g: Graph, en: Enumeration, u: Vertex, v: Vertex, e: Edges)
    ensures Found(g, en, u, v, e) <==> Hits(u, v, e) || exists p :: p in Pushed(g, en, u, v, e) && Found(g, en, p, v, e)
  {
    if Hits(u, v, e) {
      assert FoundWithin(g, en, u, v, e, 0);
    }
    if p :| p in Pushed(g, en, u, v, e) && Found(g, en, p, v, e) {
      var n: nat :| FoundWithin(g, en, p, v, e, n);
      assert FoundWithin(g, en, u, v, e, n + 1);
    }
    if Found(g, en, u, v, e) && !Hits(u, v, e) {
      var n: nat :| FoundWithin(g, en, u, v, e, n);
      var p :| p in Pushed(g, en, u, v, e) && FoundWithin(g, en, p, v, e, n - 1);
      assert Found(g, en, p, v, e);
    }
  }

  // ------------------------------------------------- when the search ends

  /** A chain of `n` expansions starts at `u`, none of which ends the search. */
  ghost predicate Deep(g: Graph, en: Enumeration, u: Vertex, v: Vertex, e: Edges, n: nat)
    decreases n
  {
    n == 0 || (!Hits(u, v, e) && exists p :: p in Pushed(g, en, u, v, e) && Deep(g, en, p, v, e, n - 1))
  }

  /** The chains of expansions from `u` are bounded in length. */
  ghost predicate Ends(g: Graph, en: Enumeration, u: Vertex, v: Vertex, e: Edges) {
    exists n: nat :: !Deep(g, en, u, v, e, n)
  }

  lemma {:induction false} DeepMono(g: Graph, en: Enumeration, u: Vertex, v: Vertex, e: Edges, m: nat, n: nat)
    requires m <= n && Deep(g, en, u, v, e, n)
    ensures Deep(g, en, u, v, e, m)
    decreases n
  {
    hide Hits, Pushed;
    if m > 0 {
      var p :| p in Pushed(g, en, u, v, e) && Deep(g, en, p, v, e, n - 1);
      DeepMono(g, en, p, v, e, m - 1, n - 1);
    }
  }

  /** The least bound, where there is one. */
  ghost function Height(g: Graph, en: Enumeration, u: Vertex, v: Vertex, e: Edges): (n: nat)
    ensures Ends(g, en, u, v, e) ==> n > 0 && !Deep(g, en, u, v, e, n) && Deep(g, en, u, v, e, n - 1)
  {
    if Ends(g, en, u, v, e) then
      var n: nat :| !Deep(g, en, u, v, e, n);
      Least(g, en, u, v, e, n)
    else 0
  }

  ghost function Least(g: Graph, en: Enumeration, u: Vertex, v: Vertex, e: Edges, n: nat): (m: nat)
    requires !Deep(g, en, u, v, e, n)
    ensures m > 0 && !Deep(g, en, u, v, e, m) && Deep(g, en, u, v, e, m - 1)
  {
    if Deep(g, en, u, v, e, n - 1) then n else Least(g, en, u, v, e, n - 1)
  }

  /** Whatever an expansion pushes ends too, within less. */
  lemma PushedLower(g: Graph, en: Enumeration, u: Vertex, v: Vertex, e: Edges, p: Vertex)
    requires Ends(g, en, u, v, e) && !Hits(u, v, e) && p in Pushed(g, en, u, v, e)
    ensures Ends(g, en, p, v, e) && Height(g, en, p, v, e) < Height(g, en, u, v, e)
  {
    hide Hits, Pushed, Height;
    var n := Height(g, en, u, v, e);
    NotDeeper(g, en, u, v, e, p, n);
    var h := Height(g, en, p, v, e);
    if h >= n {
      DeepMono(g, en, p, v, e, n - 1, h - 1);
    }
  }

  lemma NotDeeper(g: Graph, en: Enumeration, u: Vertex, v: Vertex, e: Edges, p: Vertex, n: nat)
    requires n > 0 && !Deep(g, en, u, v, e, n) && !Hits(u, v, e) && p in Pushed(g, en, u, v, e)
    ensures !Deep(g, en, p, v, e, n - 1)
  {
  }

  /** One pop of the stack when the popped vertex does not end the search: its parents are pushed, in
      an order that the parent map decides. */
  ghost predicate Step(g: Graph, en: Enumeration, v: Vertex, e: Edges, s: seq<Vertex>, t: seq<Vertex>) {
    && s != [] && |t| >= |s| - 1 && !Hits(s[|s| - 1], v, e)
    && t[..|s| - 1] == s[..|s| - 1]
    && Elements(t[|s| - 1..]) == Pushed(g, en, s[|s| - 1], v, e)
  }

  ghost predicate IsSearch(g: Graph, en: Enumeration, u: Vertex, v: Vertex, e: Edges, stacks: seq<seq<Vertex>>) {
    && stacks != [] && stacks[0] == [u]
    && forall i | 0 <= i < |stacks| - 1 :: Step(g, en, v, e, stacks[i], stacks[i + 1])
  }

  lemma {:induction false} CommonBound(g: Graph, en: Enumeration, ps: set<Vertex>, v: Vertex, e: Edges) returns (n: nat)
    requires forall p | p in ps :: Ends(g, en, p, v, e)
    ensures forall p | p in ps :: !Deep(g, en, p, v, e, n)
    decreases |ps|
  {
    if ps == {} {
      n := 0;
    } else {
      var p :| p in ps;
      var rest := CommonBound(g, en, ps - {p}, v, e);
      var own := Height(g, en, p, v, e);
      n := if rest < own then own else rest;
      forall q | q in ps ensures !Deep(g, en, q, v, e, n) {
        if Deep(g, en, q, v, e, n) {
          DeepMono(g, en, q, v, e, if q == p then own else rest, n);
          assert false;
        }
      }
    }
  }

  lemma DeepChild(g: Graph, en: Enumeration, u: Vertex, v: Vertex, e: Edges, n: nat) returns (p: Vertex)
    requires Deep(g, en, u, v, e, n + 1)
    ensures !Hits(u, v, e) && p in Pushed(g, en, u, v, e) && Deep(g, en, p, v, e, n)
  {
    p :| p in Pushed(g, en, u, v, e) && Deep(g, en, p, v, e, n);
  }

  /** A vertex with unbounded chains pushes one with unbounded chains. */
  lemma EndlessChild(g: Graph, en: Enumeration, u: Vertex, v: Vertex, e: Edges) returns (p: Vertex)
    requires !Ends(g, en, u, v, e)
    ensures !Hits(u, v, e) && p in Pushed(g, en, u, v, e) && !Ends(g, en, p, v, e)
  {
    hide Hits, Pushed, Height, Deep;
    var q := DeepChild(g, en, u, v, e, 0);
    if forall q | q in Pushed(g, en, u, v, e) :: Ends(g, en, q, v, e) {
      var n := CommonBound(g, en, Pushed(g, en, u, v, e), v, e);
      q := DeepChild(g, en, u, v, e, n);
    }
    p :| p in Pushed(g, en, u, v, e) && !Ends(g, en, p, v, e);
  }

  lemma {:induction false} EndlessStays(g: Graph, en: Enumeration, u: Vertex, v: Vertex, e: Edges,
                                        stacks: seq<seq<Vertex>>)
    requires !Ends(g, en, u, v, e) && IsSearch(g, en, u, v, e, stacks)
    ensures exists x :: x in stacks[|stacks| - 1] && !Ends(g, en, x, v, e)
    decreases |stacks|
  {
    if |stacks| == 1 {
      assert u in stacks[0];
    } else {
      var init := stacks[..|stacks| - 1];
      assert forall i | 0 <= i < |init| :: init[i] == stacks[i];
      EndlessStays(g, en, u, v, e, init);
      var s, t := stacks[|stacks| - 2], stacks[|stacks| - 1];
      assert Step(g, en, v, e, stacks[|stacks| - 2], stacks[|stacks| - 2 + 1]);
      var x :| x in s && !Ends(g, en, x, v, e);
      var i :| 0 <= i < |s| && s[i] == x;
      if i < |s| - 1 {
        assert t[i] == t[..|s| - 1][i] == x;
      } else {
        var p := EndlessChild(g, en, x, v, e);
        assert p in t[|s| - 1..];
      }
    }
  }

  lemma {:induction false} UnfoundStays(g: Graph, en: Enumeration, u: Vertex, v: Vertex, e: Edges,
                                        stacks: seq<seq<Vertex>>)
    requires !Found(g, en, u, v, e) && IsSearch(g, en, u, v, e, stacks)
    ensures forall x | x in stacks[|stacks| - 1] :: !Found(g, en, x, v, e)
    decreases |stacks|
  {
    if |stacks| > 1 {
      var init := stacks[..|stacks| - 1];
      assert forall i | 0 <= i < |init| :: init[i] == stacks[i];
      UnfoundStays(g, en, u, v, e, init);
      var s, t := stacks[|stacks| - 2], stacks[|stacks| - 1];
      assert Step(g, en, v, e, stacks[|stacks| - 2], stacks[|stacks| - 2 + 1]);
      var top := s[|s| - 1];
      FoundStep(g, en, top, v, e);
      forall x | x in t ensures !Found(g, en, x, v, e) {
        var i :| 0 <= i < |t| && t[i] == x;
        if i < |s| - 1 {
          assert s[i] == t[..|s| - 1][i];
        } else {
          assert t[|s| - 1..][i - (|s| - 1)] == x;
          assert x in Elements(t[|s| - 1..]);
        }
      }
    }
  }

  /** A search whose chains are unbounded and whose target is not to be found never comes to an end, in
      whatever order parents are pushed: after any number of pops the stack is not empty and the vertex
      on top does not end the search either. */
  lemma SearchNeverEnds(g: Graph, en: Enumeration, u: Vertex, v: Vertex, e: Edges, stacks: seq<seq<Vertex>>)
    requires !Ends(g, en, u, v, e) && !Found(g, en, u, v, e) && IsSearch(g, en, u, v, e, stacks)
    ensures var s := stacks[|stacks| - 1]; s != [] && !Hits(s[|s| - 1], v, e)
  {
    EndlessStays(g, en, u, v, e, stacks);
    UnfoundStays(g, en, u, v, e, stacks);
    var s := stacks[|stacks| - 1];
    var x :| x in s && !Ends(g, en, x, v, e);
    assert s[|s| - 1] in s;
    FoundStep(g, en, s[|s| - 1], v, e);
  }

  /** Some enumeration of a finite set that ends with a given element. */
  lemma {:induction false} EnumerateLast(ps: set<Vertex>, last: Vertex) returns (q: seq<Vertex>)
    requires last in ps
    ensures Elements(q) == ps && q != [] && q[|q| - 1] == last
    decreases |ps|
  {
    if ps == {last} {
      q := [last];
    } else {
      var x :| x in ps && x != last;
      var rest := EnumerateLast(ps - {x}, last);
      q := [x] + rest;
      assert forall y :: y in q <==> y == x || y in rest;
      forall y ensures y in Elements(q) <==> y in ps {
        assert y in Elements(rest) <==> y in ps - {x};
      }
    }
  }

  /** Conversely, whenever chains are unbounded some order of pushing goes on for ever, even when the
      target could be found: so `Ends` is exactly what every order needs in order to come to an end. */
  lemma {:induction false} SearchMayGoOn(g: Graph, en: Enumeration, u: Vertex, v: Vertex, e: Edges, n: nat)
    returns (stacks: seq<seq<Vertex>>)
    requires !Ends(g, en, u, v, e)
    ensures IsSearch(g, en, u, v, e, stacks) && |stacks| == n + 1
    ensures var s := stacks[n]; s != [] && !Ends(g, en, s[|s| - 1], v, e)
  {
    if n == 0 {
      stacks := [[u]];
    } else {
      var init := SearchMayGoOn(g, en, u, v, e, n - 1);
      var s := init[n - 1];
      var top := s[|s| - 1];
      var p := EndlessChild(g, en, top, v, e);
      var q := EnumerateLast(Pushed(g, en, top, v, e), p);
      var t := s[..|s| - 1] + q;
      assert t[..|s| - 1] == s[..|s| - 1] && t[|s| - 1..] == q;
      stacks := init + [t];
      forall i | 0 <= i < |stacks| - 1 ensures Step(g, en, v, e, stacks[i], stacks[i + 1]) {
        if i < n - 1 {
          assert Step(g, en, v, e, init[i], init[i + 1]);
        }
      }
    }
  }

  lemma EndsFromPushed(g: Graph, en: Enumeration, u: Vertex, v: Vertex, e: Edges)
    requires forall p | p in Pushed(g, en, u, v, e) :: Ends(g, en, p, v, e)
    ensures Ends(g, en, u, v, e)
  {
    hide Hits, Pushed;
    var n := CommonBound(g, en, Pushed(g, en, u, v, e), v, e);
    assert !Deep(g, en, u, v, e, n + 1);
  }

  // ------------------------------------------------- whole graphs

  /** Every search between stored vertices ends. */
  ghost predicate Searchable(g: Graph, en: Enumeration) {
    forall u, v, e | u in Stored(g) && v in Stored(g) && u.round > v.round :: Ends(g, en, u, v, e)
  }

  lemma PushedStored(g: Graph, en: Enumeration, u: Vertex, v: Vertex, e: Edges, p: Vertex)
    requires p in Pushed(g, en, u, v, e)
    ensures p in Stored(g) && (SlotsOk(g) ==> p.round > v.round)
  {
    var h :| h in u.Parents(e).Keys && PushedBy(g, en, u, h, v, e).Some? && PushedBy(g, en, u, h, v, e).value == p;
    LookupIs(g, en, h, u.Parents(e)[h]);
  }

  /** Then so does every search that starts from a vertex not stored, whatever parents it lists. */
  lemma SearchableEnds(g: Graph, en: Enumeration, u: Vertex, v: Vertex, e: Edges)
    requires SlotsOk(g) && Searchable(g, en) && v in Stored(g)
    ensures Ends(g, en, u, v, e)
  {
    hide Pushed, Ends, SlotsOk, Stored;
    forall p | p in Pushed(g, en, u, v, e) ensures Ends(g, en, p, v, e) { PushedStored(g, en, u, v, e, p); }
    EndsFromPushed(g, en, u, v, e);
  }

  /** The owners whose vertex of round `r` is linked to `v`. */
  ghost function Linkers(g: Graph, en: Enumeration, v: Vertex, r: Round, e: Edges): set<Key> {
    set k | k in Row(g, r) && Linked(g, en, Row(g, r)[k], v, e)
  }

  // ------------------------------------------------- what makes searches end

  /** Every expansion of a stored vertex goes down in rank. */
  ghost predicate Graded(g: Graph, en: Enumeration, v: Vertex, e: Edges, rank: Vertex -> nat) {
    forall u, p | u in Stored(g) && p in Pushed(g, en, u, v, e) :: rank(p) < rank(u)
  }

  lemma {:induction false} GradedDepth(g: Graph, en: Enumeration, u: Vertex, v: Vertex, e: Edges, rank: Vertex -> nat,
                                       n: nat)
    requires u in Stored(g) && Graded(g, en, v, e, rank) && Deep(g, en, u, v, e, n)
    ensures n <= rank(u)
    decreases n
  {
    hide Hits, Pushed, Stored;
    if n > 0 {
      var p :| p in Pushed(g, en, u, v, e) && Deep(g, en, p, v, e, n - 1);
      PushedStored(g, en, u, v, e, p);
      GradedDepth(g, en, p, v, e, rank, n - 1);
    }
  }

  /** Then searches for `v` end, wherever they start. */
  lemma GradedEnds(g: Graph, en: Enumeration, u: Vertex, v: Vertex, e: Edges, rank: Vertex -> nat)
    requires Graded(g, en, v, e, rank)
    ensures Ends(g, en, u, v, e)
  {
    hide Deep, Graded, Pushed, Stored;
    forall p | p in Pushed(g, en, u, v, e) ensures Ends(g, en, p, v, e) {
      PushedStored(g, en, u, v, e, p);
      if Deep(g, en, p, v, e, rank(p) + 1) {
        GradedDepth(g, en, p, v, e, rank, rank(p) + 1);
      }
    }
    EndsFromPushed(g, en, u, v, e);
  }

  lemma PushedClaim(g: Graph, en: Enumeration, u: Vertex, v: Vertex, e: Edges, p: Vertex)
    requires SlotsOk(g) && p in Pushed(g, en, u, v, e)
    ensures p.hash in u.Parents(e) && u.parents[p.hash] == p.round
  {
    hide SlotsOk, Stored;
    var h :| h in u.Parents(e).Keys && PushedBy(g, en, u, h, v, e).Some? && PushedBy(g, en, u, h, v, e).value == p;
    LookupIs(g, en, h, u.Parents(e)[h]);
  }

  /** For searches to end it is enough that stored vertices lie above the parents they list: those need
      not be stored, and digests need not be unique. */
  lemma DescendingSearchable(g: Graph, en: Enumeration)
    requires SlotsOk(g) && Descending(Stored(g))
    ensures Searchable(g, en)
    ensures forall u, v, e :: Ends(g, en, u, v, e)
  {
    hide Ends, SlotsOk, Stored, Pushed;
    var rank := (x: Vertex) => x.round;
    forall u, v, e ensures Ends(g, en, u, v, e) {
      forall x, p | x in Stored(g) && p in Pushed(g, en, x, v, e) ensures rank(p) < rank(x) {
        PushedClaim(g, en, x, v, e, p);
        assert Descends(x);
      }
      GradedEnds(g, en, u, v, e, rank);
    }
  }

  /** Were strong parents alone followed, as the argument of `isStronglyLinked` says, searches would end
      on every graph. */
  lemma StrongEnds(g: Graph, en: Enumeration, u: Vertex, v: Vertex)
    requires SlotsOk(g)
    ensures Ends(g, en, u, v, Strong)
  {
    hide Ends, SlotsOk, Stored, Pushed;
    var rank := (x: Vertex) => x.round;
    forall x, p | x in Stored(g) && p in Pushed(g, en, x, v, Strong) ensures rank(p) < rank(x) {
      PushedClaim(g, en, x, v, Strong, p);
    }
    GradedEnds(g, en, u, v, Strong, rank);
  }

  /** A ranking of the stored vertices by which each is above those of its parents that are stored: the
      order in which a node came to hold them, for one. */
  ghost predicate Ranks(s: set<Vertex>, rank: map<Vertex, nat>) {
    && s <= rank.Keys
    && forall u, p | u in s && p in s && p.hash in u.parents && u.parents[p.hash] == p.round :: rank[p] < rank[u]
  }

  lemma RankedSearchable(g: Graph, en: Enumeration, rank: map<Vertex, nat>)
    requires SlotsOk(g) && Ranks(Stored(g), rank)
    ensures Searchable(g, en)
    ensures forall u, v, e :: Ends(g, en, u, v, e)
  {
    hide Ends, SlotsOk, Stored, Pushed;
    var height: Vertex -> nat := (x: Vertex) => if x in rank then rank[x] else 0;
    forall u, v, e ensures Ends(g, en, u, v, e) {
      forall x, p | x in Stored(g) && p in Pushed(g, en, x, v, e) ensures height(p) < height(x) {
        PushedClaim(g, en, x, v, e, p);
        PushedStored(g, en, x, v, e, p);
      }
      GradedEnds(g, en, u, v, e, height);
    }
  }

  // ------------------------------------------------- exactly when searches end

  /** The search for `w` comes from `u` to `v` by `n` expansions, none of which ends it. */
  ghost predicate Comes(g: Graph, en: Enumeration, u: Vertex, v: Vertex, w: Vertex, e: Edges, n: nat)
    decreases n
  {
    if n == 0 then u == v
    else !Hits(u, w, e) && exists p :: p in Pushed(g, en, u, w, e) && Comes(g, en, p, v, w, e, n - 1)
  }

  /** The search for `w` comes back to `v`. */
  ghost predicate Returns(g: Graph, en: Enumeration, v: Vertex, w: Vertex, e: Edges) {
    exists n: nat :: n > 0 && Comes(g, en, v, v, w, e, n)
  }

  lemma {:induction false} ComesLower(g: Graph, en: Enumeration, u: Vertex, v: Vertex, w: Vertex, e: Edges, n: nat)
    requires Comes(g, en, u, v, w, e, n) && Ends(g, en, u, w, e)
    ensures Height(g, en, v, w, e) + n <= Height(g, en, u, w, e)
    decreases n
  {
    hide Hits, Pushed, Ends, Height;
    if n > 0 {
      var p :| p in Pushed(g, en, u, w, e) && Comes(g, en, p, v, w, e, n - 1);
      PushedLower(g, en, u, w, e, p);
      ComesLower(g, en, p, v, w, e, n - 1);
    }
  }

  /** A search that comes back does not end. */
  lemma ReturnsEndless(g: Graph, en: Enumeration, v: Vertex, w: Vertex, e: Edges)
    requires Returns(g, en, v, w, e)
    ensures !Ends(g, en, v, w, e)
  {
    hide Comes, Ends, Height;
    var n: nat :| n > 0 && Comes(g, en, v, v, w, e, n);
    if Ends(g, en, v, w, e) {
      ComesLower(g, en, v, v, w, e, n);
    }
  }

  lemma {:induction false} ComesOn(g: Graph, en: Enumeration, u: Vertex, v: Vertex, p: Vertex, w: Vertex, e: Edges,
                                   n: nat)
    requires Comes(g, en, u, v, w, e, n) && !Hits(v, w, e) && p in Pushed(g, en, v, w, e)
    ensures Comes(g, en, u, p, w, e, n + 1)
    decreases n
  {
    hide Hits, Pushed;
    if n == 0 {
      assert Comes(g, en, p, p, w, e, 0);
    } else {
      var q :| q in Pushed(g, en, u, w, e) && Comes(g, en, q, v, w, e, n - 1);
      ComesOn(g, en, q, v, p, w, e, n - 1);
    }
  }

  /** The search comes from `x` to `u` in one expansion or more. */
  ghost predicate Arrives(g: Graph, en: Enumeration, x: Vertex, u: Vertex, w: Vertex, e: Edges) {
    exists n: nat :: n > 0 && Comes(g, en, x, u, w, e, n)
  }

  lemma ArrivesOn(g: Graph, en: Enumeration, x: Vertex, u: Vertex, p: Vertex, w: Vertex, e: Edges)
    requires x == u || Arrives(g, en, x, u, w, e)
    requires !Hits(u, w, e) && p in Pushed(g, en, u, w, e)
    ensures Arrives(g, en, x, p, w, e)
  {
    hide Hits, Pushed, Comes;
    if x == u {
      assert Comes(g, en, u, u, w, e, 0) by { ComesZero(g, en, u, w, e); }
      ComesOn(g, en, u, u, p, w, e, 0);
    } else {
      var n: nat :| n > 0 && Comes(g, en, x, u, w, e, n);
      ComesOn(g, en, x, u, p, w, e, n);
    }
  }

  lemma ComesZero(g: Graph, en: Enumeration, u: Vertex, w: Vertex, e: Edges)
    ensures Comes(g, en, u, u, w, e, 0)
  {
  }

  /** Since only finitely many vertices are stored, a search that does not end comes back somewhere. */
  lemma {:induction false} EndlessReturns(g: Graph, en: Enumeration, u: Vertex, w: Vertex, e: Edges, seen: set<Vertex>)
    returns (x: Vertex)
    requires SlotsOk(g) && u in Stored(g) && u.round > w.round && !Ends(g, en, u, w, e) && u !in seen
    requires forall y | y in seen :: y in Stored(g) && y.round > w.round && Arrives(g, en, y, u, w, e)
    ensures x in Stored(g) && x.round > w.round && Returns(g, en, x, w, e)
    decreases Stored(g) - seen
  {
    hide Hits, Pushed, Ends, Stored, SlotsOk, Comes;
    var p := EndlessChild(g, en, u, w, e);
    PushedStored(g, en, u, w, e, p);
    forall y | y in seen + {u} ensures Arrives(g, en, y, p, w, e) { ArrivesOn(g, en, y, u, p, w, e); }
    if p in seen + {u} {
      x := p;
    } else {
      x := EndlessReturns(g, en, p, w, e, seen + {u});
    }
  }

  /** On every graph, in every order of iteration: all searches between stored vertices end exactly when
      none of them comes back to a vertex it has expanded. */
  lemma SearchableIff(g: Graph, en: Enumeration)
    requires SlotsOk(g)
    ensures Searchable(g, en) <==>
            forall x, w, e | x in Stored(g) && w in Stored(g) && x.round > w.round :: !Returns(g, en, x, w, e)
  {
    hide Ends, Stored, SlotsOk, Returns;
    if x, w, e :| x in Stored(g) && w in Stored(g) && x.round > w.round && Returns(g, en, x, w, e) {
      ReturnsEndless(g, en, x, w, e);
    }
    if u, w, e :| u in Stored(g) && w in Stored(g) && u.round > w.round && !Ends(g, en, u, w, e) {
      var x := EndlessReturns(g, en, u, w, e, {});
    }
  }

  // ------------------------------------------------- what an insertion does to that

  /** Searches for `v`, which need not be stored, end too. */
  ghost predicate SearchableFor(g: Graph, en: Enumeration, v: Vertex) {
    forall u, e | u in Stored(g) && u.round > v.round :: Ends(g, en, u, v, e)
  }

  /** The keys other than `k`, in the same order. */
  ghost function Without(ks: seq<Key>, k: Key): (q: seq<Key>)
    ensures forall j {:trigger j in q} :: j in q <==> j in ks && j != k
  {
    if ks == [] then [] else (if ks[0] == k then [] else [ks[0]]) + Without(ks[1..], k)
  }

  lemma {:induction false} WithoutDistinct(ks: seq<Key>, k: Key)
    requires Distinct(ks)
    ensures Distinct(Without(ks, k))
  {
    if ks != [] {
      var tail := Without(ks[1..], k);
      WithoutDistinct(ks[1..], k);
      assert ks[0] !in ks[1..];
      DistinctConcat([ks[0]], tail);
      assert [] + tail == tail;
    }
  }

  /** The order in which the graph before the insertion of `v` is iterated if the rest stays in place and
      the owner of `v`, if it was there, comes last. */
  ghost function OrderBefore(g: Graph, v: Vertex, em: Enumeration): Enumeration
    requires Enumerates(em, Insert(g, v))
  {
    map r | r in g ::
      if r == v.round then Without(em[r], v.owner) + if v.owner in g[r] then [v.owner] else [] else em[r]
  }

  lemma OrderBeforeEnumerates(g: Graph, v: Vertex, em: Enumeration)
    requires Enumerates(em, Insert(g, v))
    ensures Enumerates(OrderBefore(g, v, em), g)
  {
    hide Without;
    forall r | r in g ensures Lists(OrderBefore(g, v, em)[r], g[r].Keys) {
      assert Lists(em[r], Insert(g, v)[r].Keys);
      if r == v.round {
        WithoutDistinct(em[r], v.owner);
        DistinctConcat(Without(em[r], v.owner), [v.owner]);
        assert Without(em[r], v.owner) + [] == Without(em[r], v.owner);
      }
    }
  }

  lemma {:induction false} FirstOther(row: map<Key, Vertex>, v: Vertex, ks: seq<Key>, rest: seq<Key>, h: VertexHash)
    requires var found := FirstWith(row[v.owner := v], ks, h); found.Some? && found.value != v
    requires v.owner in row ==> row[v.owner].owner == v.owner
    ensures FirstWith(row, Without(ks, v.owner) + rest, h) == FirstWith(row[v.owner := v], ks, h)
    decreases |ks|
  {
    var k, tail := ks[0], Without(ks[1..], v.owner);
    if k == v.owner {
      FirstOther(row, v, ks[1..], rest, h);
      assert Without(ks, v.owner) == tail;
    } else {
      assert Without(ks, v.owner) + rest == [k] + (tail + rest);
      if !(k in row && row[k].hash == h) {
        FirstOther(row, v, ks[1..], rest, h);
      }
    }
  }

  /** A look-up that does not find `v` found the same before `v` was inserted. */
  lemma LookupBefore(g: Graph, v: Vertex, em: Enumeration, h: VertexHash, r: Round)
    requires SlotsOk(g) && Enumerates(em, Insert(g, v))
    requires Lookup(Insert(g, v), em, h, r).Some? && Lookup(Insert(g, v), em, h, r).value != v
    ensures Lookup(g, OrderBefore(g, v, em), h, r) == Lookup(Insert(g, v), em, h, r)
  {
    hide Without, FirstWith;
    if r == v.round {
      var rest := if v.owner in Row(g, r) then [v.owner] else [];
      FirstOther(Row(g, r), v, em[r], rest, h);
      if r !in g {
        OnlyOne(v, em[r], h);
      }
    }
  }

  lemma {:induction false} OnlyOne(v: Vertex, ks: seq<Key>, h: VertexHash)
    ensures FirstWith(map[v.owner := v], ks, h).Some? ==> FirstWith(map[v.owner := v], ks, h).value == v
  {
    if ks != [] {
      OnlyOne(v, ks[1..], h);
    }
  }

  lemma PushedBefore(g: Graph, v: Vertex, em: Enumeration, u: Vertex, w: Vertex, e: Edges, p: Vertex)
    requires SlotsOk(g) && Enumerates(em, Insert(g, v)) && p in Pushed(Insert(g, v), em, u, w, e) && p != v
    ensures p in Pushed(g, OrderBefore(g, v, em), u, w, e)
  {
    hide Enumerates, SlotsOk, Insert, OrderBefore, Lookup;
    var t, en := Insert(g, v), OrderBefore(g, v, em);
    var h :| h in u.Parents(e).Keys && PushedBy(t, em, u, h, w, e).Some? && PushedBy(t, em, u, h, w, e).value == p;
    LookupBefore(g, v, em, h, u.Parents(e)[h]);
    assert PushedBy(g, en, u, h, w, e) == Some(p);
  }

  /** A search either passes through the new vertex or was there before. */
  lemma {:induction false} ComesBefore(g: Graph, v: Vertex, em: Enumeration, x: Vertex, y: Vertex, w: Vertex, e: Edges,
                                       n: nat)
    returns (i: nat)
    requires SlotsOk(g) && Enumerates(em, Insert(g, v)) && Comes(Insert(g, v), em, x, y, w, e, n)
    ensures i <= n + 1
    ensures i <= n ==> Comes(Insert(g, v), em, x, v, w, e, i) && Comes(Insert(g, v), em, v, y, w, e, n - i)
    ensures i > n ==> Comes(g, OrderBefore(g, v, em), x, y, w, e, n) && x != v
    decreases n
  {
    hide Hits, Pushed, Enumerates, SlotsOk, Insert, OrderBefore;
    if x == v {
      i := 0;
    } else if n == 0 {
      i := 1;
    } else {
      var p :| p in Pushed(Insert(g, v), em, x, w, e) && Comes(Insert(g, v), em, p, y, w, e, n - 1);
      var j := ComesBefore(g, v, em, p, y, w, e, n - 1);
      i := j + 1;
      if j > n - 1 {
        PushedBefore(g, v, em, x, w, e, p);
      }
    }
  }

  lemma {:induction false} ComesConcat(g: Graph, en: Enumeration, x: Vertex, y: Vertex, z: Vertex, w: Vertex, e: Edges,
                                       m: nat, n: nat)
    requires Comes(g, en, x, y, w, e, m) && Comes(g, en, y, z, w, e, n)
    ensures Comes(g, en, x, z, w, e, m + n)
    decreases m
  {
    hide Hits, Pushed;
    if m > 0 {
      var p :| p in Pushed(g, en, x, w, e) && Comes(g, en, p, y, w, e, m - 1);
      ComesConcat(g, en, p, y, z, w, e, m - 1, n);
    }
  }

  lemma {:induction false} ComesAbove(g: Graph, en: Enumeration, x: Vertex, y: Vertex, w: Vertex, e: Edges, n: nat)
    requires SlotsOk(g) && Comes(g, en, x, y, w, e, n) && x.round > w.round
    ensures y.round > w.round
    decreases n
  {
    hide Hits, Pushed, SlotsOk, Stored;
    if n > 0 {
      var p :| p in Pushed(g, en, x, w, e) && Comes(g, en, p, y, w, e, n - 1);
      PushedStored(g, en, x, w, e, p);
      ComesAbove(g, en, p, y, w, e, n - 1);
    }
  }

  /** A search that comes back after the insertion comes back to the new vertex. */
  lemma ReturnsThrough(g: Graph, v: Vertex, em: Enumeration, x: Vertex, w: Vertex, e: Edges)
    requires SlotsOk(g) && SlotsOk(Insert(g, v)) && Enumerates(em, Insert(g, v))
    requires x.round > w.round && Returns(Insert(g, v), em, x, w, e)
    requires x != v ==> Ends(g, OrderBefore(g, v, em), x, w, e)
    ensures v.round > w.round && Returns(Insert(g, v), em, v, w, e)
  {
    hide Comes, Ends, Enumerates, SlotsOk, Insert, OrderBefore;
    var t := Insert(g, v);
    var n: nat :| n > 0 && Comes(t, em, x, x, w, e, n);
    var i := ComesBefore(g, v, em, x, x, w, e, n);
    if i <= n {
      ComesAbove(t, em, x, v, w, e, i);
      ComesConcat(t, em, v, x, v, w, e, n - i, i);
    } else {
      assert Returns(g, OrderBefore(g, v, em), x, w, e);
      ReturnsEndless(g, OrderBefore(g, v, em), x, w, e);
    }
  }

  /** What an insertion does to termination, exactly. If all searches end on a graph, however it is
      iterated, then after any vertex is inserted, over another one or not, they still end exactly when
      none of them comes back to the new vertex. */
  lemma InsertSearchableIff(g: Graph, v: Vertex, em: Enumeration)
    requires SlotsOk(g) && Enumerates(em, Insert(g, v))
    requires forall en | Enumerates(en, g) :: Searchable(g, en) && SearchableFor(g, en, v)
    ensures Searchable(Insert(g, v), em) <==>
            forall w, e | w in Stored(g) && w.round < v.round :: !Returns(Insert(g, v), em, v, w, e)
  {
    hide Ends, Stored, SlotsOk, Returns, Enumerates, Insert, OrderBefore, Searchable, SearchableFor;
    var t, en := Insert(g, v), OrderBefore(g, v, em);
    InsertSlots(g, v);
    OrderBeforeEnumerates(g, v, em);
    SearchableIff(t, em);
    forall u ensures u in Stored(t) <==> u == v || (u in Stored(g) && !Displaces(g, v, u)) { InsertHolds(g, v, u); }
    forall w: Vertex | w.round < v.round ensures w in Stored(g) <==> w in Stored(t) { LowerStays(g, v, w); }
    forall x, w, e | x in Stored(t) && w in Stored(t) && x.round > w.round && Returns(t, em, x, w, e)
      ensures w in Stored(g) && w.round < v.round && Returns(t, em, v, w, e)
    {
      EndedBefore(g, en, v, x, w, e);
      ReturnsThrough(g, v, em, x, w, e);
    }
  }

  lemma EndedBefore(g: Graph, en: Enumeration, v: Vertex, x: Vertex, w: Vertex, e: Edges)
    requires Searchable(g, en) && SearchableFor(g, en, v)
    requires (x == v || x in Stored(g)) && (w == v || w in Stored(g)) && x.round > w.round
    ensures x != v ==> Ends(g, en, x, w, e)
  {
  }

  lemma LowerStays(g: Graph, v: Vertex, w: Vertex)
    requires SlotsOk(g) && w.round < v.round
    ensures w in Stored(g) <==> w in Stored(Insert(g, v))
  {
    InsertHolds(g, v, w);
  }

  // ------------------------------------------------- unique digests

  /** Where digests are unique, a vertex pushes exactly its stored parents above the target, in whatever
      order rounds are iterated. */
  lemma PushedSteps(g: Graph, en: Enumeration, u: Vertex, v: Vertex, e: Edges, p: Vertex)
    requires SlotsOk(g) && Enumerates(en, g) && HashUnique(Stored(g))
    ensures p in Pushed(g, en, u, v, e) <==> Steps(Stored(g), u, p, v, e)
  {
    hide SlotsOk, Stored, Enumerates, Lookup;
    if p in Pushed(g, en, u, v, e) {
      var h :| h in u.Parents(e).Keys && PushedBy(g, en, u, h, v, e).Some? && PushedBy(g, en, u, h, v, e).value == p;
      LookupIs(g, en, h, u.parents[h]);
    }
    if Steps(Stored(g), u, p, v, e) {
      LookupIs(g, en, p.hash, p.round);
      LookupProvides(g, en, p.hash, p.round);
      assert Provides(Stored(g), p.hash, p.round);
      assert PushedBy(g, en, u, p.hash, v, e) == Some(p);
    }
  }

  lemma {:induction false} FoundLeads(g: Graph, en: Enumeration, u: Vertex, v: Vertex, e: Edges, n: nat)
    requires SlotsOk(g) && Enumerates(en, g) && HashUnique(Stored(g))
    ensures FoundWithin(g, en, u, v, e, n) <==> LeadsWithin(Stored(g), u, v, e, n)
    decreases n
  {
    hide Hits, Pushed, Steps, Enumerates, SlotsOk, Stored, HashUnique;
    forall p ensures p in Pushed(g, en, u, v, e) <==> Steps(Stored(g), u, p, v, e) { PushedSteps(g, en, u, v, e, p); }
    if n > 0 {
      var m := n - 1;
      forall p ensures FoundWithin(g, en, p, v, e, m) <==> LeadsWithin(Stored(g), p, v, e, m) {
        FoundLeads(g, en, p, v, e, m);
      }
    }
  }

  lemma LinkedLeads(g: Graph, en: Enumeration, u: Vertex, v: Vertex, e: Edges)
    requires SlotsOk(g) && Enumerates(en, g) && HashUnique(Stored(g))
    ensures Linked(g, en, u, v, e) <==> Leads(Stored(g), u, v, e)
  {
    hide FoundWithin, LeadsWithin, Enumerates, SlotsOk, Stored, HashUnique;
    forall n: nat ensures FoundWithin(g, en, u, v, e, n) <==> LeadsWithin(Stored(g), u, v, e, n) {
      FoundLeads(g, en, u, v, e, n);
    }
  }

  /** Slots being in order, the row's linked vertices are all stored ones of that round that are linked. */
  lemma LinkersAre(g: Graph, en: Enumeration, v: Vertex, r: Round, e: Edges)
    requires SlotsOk(g)
    ensures Linkers(g, en, v, r, e) == set u | u in Stored(g) && u.round == r && Linked(g, en, u, v, e) :: u.owner
  {
    hide Linked;
    forall u ensures u in Stored(g) && u.round == r <==> u.owner in Row(g, r) && Row(g, r)[u.owner] == u {
      StoredHolds(g, u);
    }
    forall k | k in Linkers(g, en, v, r, e) ensures Row(g, r)[k] in Stored(g) && Row(g, r)[k].owner == k {
      assert r in g && k in g[r];
    }
  }

  /** Where digests are unique, the count misses no linked vertex of the round and adds none. */
  lemma LinkersVoters(g: Graph, en: Enumeration, v: Vertex, r: Round, e: Edges)
    requires SlotsOk(g) && Enumerates(en, g) && HashUnique(Stored(g))
    ensures Linkers(g, en, v, r, e) == Voters(Stored(g), v, r, e)
  {
    hide Linked, Leads, SlotsOk, Enumerates, Stored, HashUnique;
    LinkersAre(g, en, v, r, e);
    forall u ensures Linked(g, en, u, v, e) <==> Leads(Stored(g), u, v, e) { LinkedLeads(g, en, u, v, e); }
  }

  /** On a sound graph every search for a stored vertex ends, and answers whether a path leads there. */
  lemma SoundLinked(g: Graph, en: Enumeration, u: Vertex, v: Vertex, e: Edges)
    requires SlotsOk(g) && Enumerates(en, g) && Sound(Stored(g)) && Attachable(Stored(g), u) && v in Stored(g)
    ensures Ends(g, en, u, v, e)
    ensures Linked(g, en, u, v, e) <==> Reach(Stored(g), u, v, e)
  {
    DescendingSearchable(g, en);
    LinkedLeads(g, en, u, v, e);
    LeadsReach(Stored(g), u, v, e);
  }
}
