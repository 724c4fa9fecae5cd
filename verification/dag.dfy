/** The `Dag` class of src/consensus/dag.cpp: the graph, its queries and its path search. */
module Dags {
  import opened Orders
  import opened Vertices
  import opened Graphs
  import opened Links
  import opened Quorums
  import opened Enumerations
  import opened Searches

  // ------------------------------------------------- why the search ends

  /** Exceeds the number of parents of every vertex of `s`. */
  ghost function Branching(s: set<Vertex>): (b: nat)
    ensures b >= 1
  {
    1 + |set v, h | v in s && h in v.parents.Keys :: h|
  }

  lemma BranchingBounds(s: set<Vertex>, v: Vertex)
    requires v in s
    ensures |v.parents| < Branching(s)
  {
    var all := set u, h | u in s && h in u.parents.Keys :: h;
    assert v.parents.Keys <= all;
    SubsetSize(v.parents.Keys, all);
    assert |v.parents.Keys| == |v.parents|;
  }

  /** `n` times `q`. */
  ghost function Copies(n: nat, q: nat): nat {
    if n == 0 then 0 else q + Copies(n - 1, q)
  }

  lemma {:induction false} CopiesMono(m: nat, n: nat, q: nat)
    requires m < n && q >= 1
    ensures Copies(m, q) < Copies(n, q)
  {
    if m < n - 1 {
      CopiesMono(m, n - 1, q);
    }
  }

  ghost function Power(b: nat, r: nat): (p: nat)
    requires b >= 1
    ensures p >= 1
  {
    if r == 0 then 1 else
      CopiesMono(0, b, Power(b, r - 1));
      Copies(b, Power(b, r - 1))
  }

  lemma {:induction false} PowerMono(b: nat, r: nat, t: nat)
    requires b >= 1 && r <= t
    ensures Power(b, r) <= Power(b, t)
  {
    if r < t {
      PowerMono(b, r, t - 1);
      var q := Power(b, t - 1);
      if b > 1 {
        CopiesMono(1, b, q);
      }
      assert Copies(1, q) == q;
    }
  }

  /** An upper bound on the pops that a stack still costs, from how long the search goes on below each
      of its vertices. */
  ghost function Weight(heights: seq<nat>, b: nat): nat
    requires b >= 1
  {
    if heights == [] then 0
    else Weight(heights[..|heights| - 1], b) + Power(b, heights[|heights| - 1])
  }

  lemma WeightPush(heights: seq<nat>, n: nat, b: nat)
    requires b >= 1
    ensures Weight(heights + [n], b) == Weight(heights, b) + Power(b, n)
  {
    assert (heights + [n])[..|heights|] == heights;
  }

  lemma {:induction false} WeightPushAll(heights: seq<nat>, pushed: seq<nat>, n: nat, b: nat)
    requires b >= 1 && forall m | m in pushed :: m <= n
    ensures Weight(heights + pushed, b) <= Weight(heights, b) + Copies(|pushed|, Power(b, n))
    decreases |pushed|
  {
    if pushed == [] {
      assert heights + pushed == heights;
    } else {
      var init, m := pushed[..|pushed| - 1], pushed[|pushed| - 1];
      assert pushed == init + [m] && heights + pushed == (heights + init) + [m];
      assert m in pushed && forall k | k in init :: k in pushed;
      WeightPushAll(heights, init, n, b);
      WeightPush(heights + init, m, b);
      PowerMono(b, m, n);
    }
  }

  /** Replacing the top of the stack by fewer than `b` vertices below which the search is shorter makes
      the stack lighter. */
  lemma PopShrinks(heights: seq<nat>, n: nat, pushed: seq<nat>, b: nat)
    requires |pushed| < b && forall m | m in pushed :: m < n
    ensures Weight(heights + pushed, b) < Weight(heights + [n], b)
  {
    WeightPush(heights, n, b);
    if pushed == [] {
      assert heights + pushed == heights;
    } else {
      assert pushed[0] in pushed;
      WeightPushAll(heights, pushed, n - 1, b);
      CopiesMono(|pushed|, b, Power(b, n - 1));
    }
  }

  // ------------------------------------------------- what is on the stack

  ghost function Heights(g: Graph, en: Enumeration, stack: seq<Vertex>, v: Vertex, e: Edges): (q: seq<nat>)
    ensures |q| == |stack| && forall i | 0 <= i < |stack| :: q[i] == Height(g, en, stack[i], v, e)
  {
    seq(|stack|, i requires 0 <= i < |stack| => Height(g, en, stack[i], v, e))
  }

  lemma HeightsConcat(g: Graph, en: Enumeration, a: seq<Vertex>, b: seq<Vertex>, v: Vertex, e: Edges)
    ensures Heights(g, en, a + b, v, e) == Heights(g, en, a, v, e) + Heights(g, en, b, v, e)
  {
  }

  /** From every vertex on the stack the search ends, and none has as many as `b` parents. */
  ghost predicate Pending(g: Graph, en: Enumeration, stack: seq<Vertex>, v: Vertex, e: Edges, b: nat) {
    forall u | u in stack :: Ends(g, en, u, v, e) && |u.parents| < b
  }

  ghost predicate SomeFound(g: Graph, en: Enumeration, stack: seq<Vertex>, v: Vertex, e: Edges) {
    exists u :: u in stack && Found(g, en, u, v, e)
  }

  lemma ParentsWithin(u: Vertex, e: Edges)
    ensures |u.Parents(e)| <= |u.parents|
  {
    SubsetSize(u.Parents(e).Keys, u.parents.Keys);
    assert |u.Parents(e).Keys| == |u.Parents(e)| && |u.parents.Keys| == |u.parents|;
  }

  lemma SplitTop(stack: seq<Vertex>)
    requires stack != []
    ensures stack == stack[..|stack| - 1] + [stack[|stack| - 1]]
  {
  }

  /** Expanding the top of the stack changes neither what can be found nor that the search ends, and
      brings the end nearer. */
  lemma Expand(g: Graph, en: Enumeration, rest: seq<Vertex>, u: Vertex, pushed: seq<Vertex>, v: Vertex, e: Edges,
               b: nat)
    requires Pending(g, en, rest + [u], v, e, b) && !Hits(u, v, e)
    requires Elements(pushed) == Pushed(g, en, u, v, e) && |pushed| <= |u.Parents(e)|
    requires forall p | p in Stored(g) :: |p.parents| < b
    ensures Pending(g, en, rest + pushed, v, e, b)
    ensures SomeFound(g, en, rest + [u], v, e) <==> SomeFound(g, en, rest + pushed, v, e)
    ensures b >= 1 && Weight(Heights(g, en, rest + pushed, v, e), b) < Weight(Heights(g, en, rest + [u], v, e), b)
  {
    hide Ends, Found, Height, Hits, Pushed, Stored, Weight, Heights;
    FoundStep(g, en, u, v, e);
    assert u in rest + [u];
    forall p | p in pushed
      ensures Ends(g, en, p, v, e) && Height(g, en, p, v, e) < Height(g, en, u, v, e) && |p.parents| < b
    {
      assert p in Elements(pushed);
      PushedLower(g, en, u, v, e, p);
      PushedStored(g, en, u, v, e, p);
    }
    forall p | p in rest ensures Ends(g, en, p, v, e) && |p.parents| < b { assert p in rest + [u]; }
    SameFound(g, en, rest, u, pushed, v, e);
    ParentsWithin(u, e);
    HeightsConcat(g, en, rest, pushed, v, e);
    HeightsConcat(g, en, rest, [u], v, e);
    var n, below := Height(g, en, u, v, e), Heights(g, en, pushed, v, e);
    forall m | m in below ensures m < n {
      var i :| 0 <= i < |below| && below[i] == m;
      assert pushed[i] in pushed;
    }
    assert Heights(g, en, [u], v, e) == [n];
    PopShrinks(Heights(g, en, rest, v, e), n, below, b);
  }

  lemma SameFound(g: Graph, en: Enumeration, rest: seq<Vertex>, u: Vertex, pushed: seq<Vertex>, v: Vertex, e: Edges)
    requires Found(g, en, u, v, e) <==> exists p :: p in Elements(pushed) && Found(g, en, p, v, e)
    ensures SomeFound(g, en, rest + [u], v, e) <==> SomeFound(g, en, rest + pushed, v, e)
  {
    hide Found;
    assert forall x :: x in rest + [u] <==> x in rest || x == u;
    assert forall x :: x in rest + pushed <==> x in rest || x in Elements(pushed);
  }

  class Dag {
    var graph: Graph
    const minQuorum: nat
    /** What `isStronglyLinked` follows: `All` as the code stands, `Strong` as its argument says. */
    const edges: Edges

    constructor (root: seq<Vertex>, minQuorum: nat, edges: Edges)
      ensures this.minQuorum == minQuorum && this.edges == edges
      ensures graph.Keys == {1}
      ensures forall v | v in root :: v.owner in graph[1]
      ensures forall k | k in graph[1] ::
                exists i :: 0 <= i < |root| && root[i].owner == k && graph[1][k] == root[i]
                            && forall j | i < j < |root| :: root[j].owner != k
    {
      this.minQuorum := minQuorum;
      this.edges := edges;
      var genesis: map<Key, Vertex> := map[];
      for n := 0 to |root|
        invariant forall v | v in root[..n] :: v.owner in genesis
        invariant forall k | k in genesis ::
                    exists i :: 0 <= i < n && root[i].owner == k && genesis[k] == root[i]
                                && forall j | i < j < n :: root[j].owner != k
      {
        genesis := genesis[root[n].owner := root[n]];
      }
      graph := map[1 := genesis];
      assert root[..|root|] == root;
    }

    method InsertVertex(vertex: Vertex)
      modifies this
      ensures graph == Insert(old(graph), vertex)
    {
      if vertex.round !in graph {
        graph := graph[vertex.round := map[]];
      }
      var row: map<Key, Vertex> := graph[vertex.round];
      graph := graph[vertex.round := row[vertex.owner := vertex]];
    }

    method GetVertex(order: Enumeration, hash: VertexHash, round: Round) returns (found: Option<Vertex>)
      requires Enumerates(order, graph)
      ensures found == Lookup(graph, order, hash, round)
      ensures SlotsOk(graph) ==> (found.Some? <==> Provides(Stored(graph), hash, round))
      ensures found.Some? ==> found.value in Stored(graph) && found.value.hash == hash
      ensures SlotsOk(graph) ==> forall v :: found == Some(v) <==> IsFirst(Stored(graph), order, hash, round, v)
    {
      hide IsFirst;
      LookupIs(graph, order, hash, round);
      if SlotsOk(graph) {
        forall v ensures Lookup(graph, order, hash, round) == Some(v) <==>
                         IsFirst(Stored(graph), order, hash, round, v)
        {
          LookupIff(graph, order, hash, round, v);
        }
        LookupProvides(graph, order, hash, round);
      }
      if round in graph {
        var row := graph[round];
        var keys := order[round];
        assert Lists(keys, row.Keys);
        for i := 0 to |keys|
          invariant Lookup(graph, order, hash, round) == FirstWith(row, keys[i..], hash)
        {
          assert keys[i] in keys && keys[i] in row && keys[i..][1..] == keys[i + 1..];
          if row[keys[i]].hash == hash {
            return Some(row[keys[i]]);
          }
        }
      }
      found := None;
    }

    method ContainsVertices(vertices: map<VertexHash, Round>) returns (contained: bool)
      requires SlotsOk(graph)
      ensures contained <==> Resolves(Stored(graph), vertices)
    {
      var todo := vertices.Keys;
      while todo != {}
        invariant todo <= vertices.Keys
        invariant forall h | h in vertices && h !in todo :: Provides(Stored(graph), h, vertices[h])
      {
        var h :| h in todo;
        var found := ContainsVertex(h, vertices[h]);
        if !found {
          return false;
        }
        todo := todo - {h};
      }
      return true;
    }

    /** Whether some vertex of the round has the digest, which no order of iteration can change. */
    method ContainsVertex(hash: VertexHash, round: Round) returns (found: bool)
      requires SlotsOk(graph)
      ensures found <==> Provides(Stored(graph), hash, round)
    {
      forall p ensures p in Stored(graph) <==> Holds(graph, p) { StoredHolds(graph, p); }
      if round in graph {
        var row := graph[round];
        var todo := row.Keys;
        while todo != {}
          invariant todo <= row.Keys
          invariant forall k | k in row && k !in todo :: row[k].hash != hash
        {
          var k :| k in todo;
          if row[k].hash == hash {
            assert row[k] in Stored(graph);
            return true;
          }
          todo := todo - {k};
        }
      }
      return false;
    }

    method GetVertices(round: Round) returns (result: map<VertexHash, Round>)
      requires SlotsOk(graph)
      ensures result == Offered(graph, round)
    {
      result := map[];
      if round in graph {
        var row := graph[round];
        var todo := row.Keys;
        while todo != {}
          invariant todo <= row.Keys
          invariant forall h :: h in result ==> h in Digests(row) && result[h] == round
          invariant forall k | k in row && k !in todo :: row[k].hash in result
        {
          var k :| k in todo;
          result := result[row[k].hash := row[k].round];
          todo := todo - {k};
        }
        assert result.Keys == Digests(row);
      }
    }

    /** Slots being in order, the row's size counts the vertices held of the round, one per owner. */
    method IsQuorumReachedForRound(round: Round) returns (reached: bool)
      requires SlotsOk(graph)
      ensures reached <==> round in graph && |HeldOwners(graph, round)| >= minQuorum
    {
      HeldOwnersSize(graph, round);
      reached := round in graph && |graph[round]| >= minQuorum;
    }

    method IsLinkedWithOthersInRound(order: Enumeration, vertex: Vertex, round: Round) returns (linked: bool)
      requires Enumerates(order, graph)
      requires forall k | k in Row(graph, round) && Row(graph, round)[k].round > vertex.round ::
                 Ends(graph, order, Row(graph, round)[k], vertex, edges)
      ensures linked <==> |Linkers(graph, order, vertex, round, edges)| >= minQuorum
      ensures SlotsOk(graph) && HashUnique(Stored(graph)) ==>
                (linked <==> |Voters(Stored(graph), vertex, round, edges)| >= minQuorum)
    {
      hide Linked, Ends, Enumerates, Voters, HashUnique;
      if SlotsOk(graph) && HashUnique(Stored(graph)) {
        LinkersVoters(graph, order, vertex, round, edges);
      }
      var weight := 0;
      ghost var counted: set<Key> := {};
      if round in graph {
        var row := graph[round];
        var todo := row.Keys;
        while todo != {}
          invariant todo <= row.Keys
          invariant counted <= row.Keys - todo && weight == |counted|
          invariant forall k | k in row && k !in todo :: k in counted <==> Linked(graph, order, row[k], vertex, edges)
        {
          var k :| k in todo;
          assert k in Row(graph, round) && Row(graph, round)[k] == row[k];
          var l := IsStronglyLinked(order, row[k], vertex);
          if l {
            weight := weight + 1;
            counted := counted + {k};
          }
          todo := todo - {k};
        }
      }
      assert counted == Linkers(graph, order, vertex, round, edges);
      linked := weight >= minQuorum;
    }

    method IsStronglyLinked(order: Enumeration, newest: Vertex, oldest: Vertex) returns (linked: bool)
      requires Enumerates(order, graph) && (newest.round > oldest.round ==> Ends(graph, order, newest, oldest, edges))
      ensures linked <==> Linked(graph, order, newest, oldest, edges)
      ensures SlotsOk(graph) && Sound(Stored(graph)) && Attachable(Stored(graph), newest) && oldest in Stored(graph) ==>
                && (linked <==> Reach(Stored(graph), newest, oldest, edges))
                && (linked <==> exists path :: IsPath(Stored(graph), path, newest, oldest, edges))
    {
      linked := IsLinkedInternal(order, newest, oldest, edges);
      LinkedIsPath(graph, order, newest, oldest, edges);
    }

    method IsLinked(order: Enumeration, newest: Vertex, oldest: Vertex) returns (linked: bool)
      requires Enumerates(order, graph) && (newest.round > oldest.round ==> Ends(graph, order, newest, oldest, All))
      ensures linked <==> Linked(graph, order, newest, oldest, All)
      ensures SlotsOk(graph) && Sound(Stored(graph)) && Attachable(Stored(graph), newest) && oldest in Stored(graph) ==>
                && (linked <==> Reach(Stored(graph), newest, oldest, All))
                && (linked <==> exists path :: IsPath(Stored(graph), path, newest, oldest, All))
    {
      linked := IsLinkedInternal(order, newest, oldest, All);
      LinkedIsPath(graph, order, newest, oldest, All);
    }

    /** The search with an explicit stack, no visited set, and pruning below the target's round. It asks
        only that the chains of expansions be bounded: any graph, any target, any starting vertex. `order` is how the
        rounds happen to be iterated, which matters only where a round holds a digest twice. */
    method IsLinkedInternal(order: Enumeration, newest: Vertex, oldest: Vertex, e: Edges) returns (linked: bool)
      requires Enumerates(order, graph) && (newest.round > oldest.round ==> Ends(graph, order, newest, oldest, e))
      ensures linked <==> Linked(graph, order, newest, oldest, e)
    {
      hide Ends, Found, Hits, Pushed, Stored, Enumerates, Height, Heights, Weight, Branching;
      if newest.round > oldest.round {
        ghost var all := Stored(graph) + {newest};
        ghost var b := Branching(all);
        forall p | p in all ensures |p.parents| < b { BranchingBounds(all, p); }
        var vertexStack := [newest];
        while vertexStack != []
          invariant Pending(graph, order, vertexStack, oldest, e, b)
          invariant Found(graph, order, newest, oldest, e) <==> SomeFound(graph, order, vertexStack, oldest, e)
          decreases Weight(Heights(graph, order, vertexStack, oldest, e), b)
        {
          SplitTop(vertexStack);
          var vertex := vertexStack[|vertexStack| - 1];
          vertexStack := vertexStack[..|vertexStack| - 1];
          ghost var rest := vertexStack;
          var parents := vertex.parents;
          if e.Strong? {
            parents := vertex.GetStrongParents();
          }
          var found;
          found, vertexStack := PushParents(order, vertex, parents, oldest, vertexStack, e);
          if found {
            FoundStep(graph, order, vertex, oldest, e);
            assert vertex in rest + [vertex];
            return true;
          }
          Expand(graph, order, rest, vertex, vertexStack[|rest|..], oldest, e, b);
        }
      }
      return false;
    }

    /** The inner loop of the search: look at each parent of the popped vertex. */
    method PushParents(order: Enumeration, vertex: Vertex, parents: map<VertexHash, Round>, oldest: Vertex,
                       stack: seq<Vertex>, e: Edges)
      returns (found: bool, vertexStack: seq<Vertex>)
      requires Enumerates(order, graph) && parents == vertex.Parents(e)
      ensures found <==> Hits(vertex, oldest, e)
      ensures !found ==>
                && stack <= vertexStack && |vertexStack| <= |stack| + |parents|
                && vertexStack == stack + vertexStack[|stack|..]
                && Elements(vertexStack[|stack|..]) == Pushed(graph, order, vertex, oldest, e)
    {
      hide Lookup, Stored, SlotsOk, Provides, Enumerates, Pushed, PushedBy;
      vertexStack := stack;
      ghost var pushed: seq<Vertex> := [];
      var todo := parents.Keys;
      assert |parents.Keys| == |parents|;
      while todo != {}
        invariant todo <= parents.Keys
        invariant oldest.hash in parents ==> oldest.hash in todo
        invariant vertexStack == stack + pushed && |pushed| + |todo| <= |parents|
        invariant forall p | p in pushed :: p in Pushed(graph, order, vertex, oldest, e)
        invariant forall h | h in parents && h !in todo && PushedBy(graph, order, vertex, h, oldest, e).Some? ::
                    PushedBy(graph, order, vertex, h, oldest, e).value in pushed
      {
        var parentHash :| parentHash in todo;
        var round := parents[parentHash];
        todo := todo - {parentHash};
        PushedByIs(graph, order, vertex, parentHash, oldest, e);
        if parentHash == oldest.hash {
          return true, vertexStack;
        } else if round > oldest.round {
          var parentVertex := GetVertex(order, parentHash, round);
          if parentVertex.Some? {
            vertexStack := vertexStack + [parentVertex.value];
            pushed := pushed + [parentVertex.value];
          }
        }
      }
      assert vertexStack[|stack|..] == pushed;
      PushedAll(graph, order, vertex, oldest, e, pushed);
      found := false;
    }
  }

  lemma PushedByIs(g: Graph, en: Enumeration, u: Vertex, h: VertexHash, v: Vertex, e: Edges)
    requires h in u.Parents(e)
    ensures var r := u.Parents(e)[h];
            PushedBy(g, en, u, h, v, e) == if h != v.hash && r > v.round then Lookup(g, en, h, r) else None
    ensures PushedBy(g, en, u, h, v, e).Some? ==> PushedBy(g, en, u, h, v, e).value in Pushed(g, en, u, v, e)
  {
  }

  lemma PushedAll(g: Graph, en: Enumeration, u: Vertex, v: Vertex, e: Edges, pushed: seq<Vertex>)
    requires forall p | p in pushed :: p in Pushed(g, en, u, v, e)
    requires forall h | h in u.Parents(e) && PushedBy(g, en, u, h, v, e).Some? ::
             PushedBy(g, en, u, h, v, e).value in pushed
    ensures Elements(pushed) == Pushed(g, en, u, v, e)
  {
  }

  lemma LinkedIsPath(g: Graph, en: Enumeration, newest: Vertex, oldest: Vertex, e: Edges)
    requires Enumerates(en, g)
    ensures SlotsOk(g) && Sound(Stored(g)) && Attachable(Stored(g), newest) && oldest in Stored(g) ==>
              && (Linked(g, en, newest, oldest, e) <==> Reach(Stored(g), newest, oldest, e))
              && (Linked(g, en, newest, oldest, e) <==> exists path :: IsPath(Stored(g), path, newest, oldest, e))
  {
    if SlotsOk(g) && Sound(Stored(g)) && Attachable(Stored(g), newest) && oldest in Stored(g) {
      SoundLinked(g, en, newest, oldest, e);
      ReachIffPath(Stored(g), newest, oldest, e);
    }
  }
}
