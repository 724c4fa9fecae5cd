/** Orders in which the rounds of a graph may be iterated. Each round is a hash map, so the order within
    it is unspecified: it is a parameter here, and may differ from node to node and from time to time. */
module Enumerations {
  import opened Orders
  import opened Vertices
  import opened Graphs

  /** For each round, the order in which iteration meets the owners. */
  type Enumeration = map<Round, seq<Key>>

  ghost predicate Lists(ks: seq<Key>, keys: set<Key>) {
    Distinct(ks) && forall k {:trigger k in ks} :: k in ks <==> k in keys
  }

  /** Iterating `g` in the order `en` meets every vertex once. */
  ghost predicate Enumerates(en: Enumeration, g: Graph) {
    en.Keys == g.Keys && forall r | r in g :: Lists(en[r], g[r].Keys)
  }

  /** One enumeration that always exists: by ascending key. */
  function KeyOrder(g: Graph): Enumeration {
    map r | r in g :: Ascending(g[r].Keys)
  }

  lemma IncreasingDistinct(q: seq<nat>)
    requires Increasing(q)
    ensures Distinct(q)
  {
  }

  lemma KeyOrderEnumerates(g: Graph)
    ensures Enumerates(KeyOrder(g), g)
  {
    hide Ascending;
    forall r | r in g ensures Lists(KeyOrder(g)[r], g[r].Keys) {
      AscendingIncreasing(g[r].Keys);
      IncreasingDistinct(KeyOrder(g)[r]);
    }
  }

  ghost predicate Precedes<T>(q: seq<T>, x: T, y: T) {
    exists i, j :: 0 <= i < j < |q| && q[i] == x && q[j] == y
  }

  /** The order of one pass over a graph: by round, then as the round is iterated. */
  ghost predicate Before(en: Enumeration, a: Vertex, b: Vertex) {
    a.round < b.round || (a.round == b.round && a.round in en && Precedes(en[a.round], a.owner, b.owner))
  }

  ghost predicate InOrder(en: Enumeration, q: seq<Vertex>) {
    forall i, j | 0 <= i < j < |q| :: Before(en, q[i], q[j])
  }

  ghost predicate Proper(en: Enumeration) {
    forall r | r in en :: Distinct(en[r])
  }

  lemma EnumeratesProper(en: Enumeration, g: Graph)
    requires Enumerates(en, g)
    ensures Proper(en)
  {
    forall r | r in en ensures Distinct(en[r]) { assert Lists(en[r], g[r].Keys); }
  }

  lemma BeforeOneWay(en: Enumeration, a: Vertex, b: Vertex)
    requires Proper(en) && Before(en, a, b)
    ensures !Before(en, b, a)
  {
  }

  lemma InOrderDistinct(en: Enumeration, q: seq<Vertex>)
    requires Proper(en) && InOrder(en, q)
    ensures Distinct(q)
  {
    forall i, j | 0 <= i < j < |q| ensures q[i] != q[j] { BeforeOneWay(en, q[i], q[j]); }
  }

  /** Wherever both list two owners of one round, they list them in the same order. */
  ghost predicate Compatible(en: Enumeration, em: Enumeration) {
    forall r, j, k {:trigger Precedes(en[r], j, k)} |
      r in en && r in em && Precedes(en[r], j, k) && j in em[r] && k in em[r] :: Precedes(em[r], j, k)
  }

  /** Nodes that iterate by ascending key never contradict each other. */
  lemma KeyOrdersCompatible(g: Graph, h: Graph)
    ensures Compatible(KeyOrder(g), KeyOrder(h))
  {
    hide Ascending;
    var en, em := KeyOrder(g), KeyOrder(h);
    forall r, j, k | r in en && r in em && Precedes(en[r], j, k) && j in em[r] && k in em[r]
      ensures Precedes(em[r], j, k)
    {
      AscendingIncreasing(g[r].Keys);
      AscendingIncreasing(h[r].Keys);
      var p :| 0 <= p < |em[r]| && em[r][p] == j;
      var q :| 0 <= q < |em[r]| && em[r][q] == k;
      assert em[r][p] < em[r][q];
    }
  }

  // ------------------------------------------------- sequences in order

  lemma InOrderConcat(en: Enumeration, a: seq<Vertex>, b: seq<Vertex>)
    requires InOrder(en, a) && InOrder(en, b)
    requires forall x, y | x in a && y in b :: Before(en, x, y)
    ensures InOrder(en, a + b)
  {
    hide Before;
    var c := a + b;
    forall i, j | 0 <= i < j < |c| ensures Before(en, c[i], c[j]) {
      if i < |a| <= j {
        assert c[i] in a && c[j] in b;
      }
    }
  }

  /** In a sequence that is in order, whatever is ordered one way is not met the other way round. */
  lemma BeforeIsEarlier(en: Enumeration, q: seq<Vertex>, i: nat, j: nat)
    requires Proper(en) && InOrder(en, q) && i < |q| && j < |q| && Before(en, q[i], q[j])
    ensures i < j
  {
    BeforeOneWay(en, q[i], q[j]);
  }

  /** What decides whether a sequence in one order begins a sequence in another. */
  ghost predicate Begins(en: Enumeration, a: seq<Vertex>, em: Enumeration, b: seq<Vertex>) {
    && (forall x | x in a :: x in b)
    && (forall x, y | x in a && y in a && Before(en, x, y) :: Before(em, x, y))
    && (forall x, y | x in b && x !in a && y in a :: Before(em, y, x))
  }

  /** Which of two sequences extends the other is decided by their elements and the two orders. */
  lemma {:induction false} PrefixByElements(en: Enumeration, a: seq<Vertex>, em: Enumeration, b: seq<Vertex>)
    requires Proper(en) && Proper(em) && InOrder(en, a) && InOrder(em, b)
    ensures a <= b <==> Begins(en, a, em, b)
  {
    hide Before;
    if a <= b {
      assert forall k | 0 <= k < |a| :: a[k] == b[k];
      forall x | x in a ensures x in b {
        var i :| 0 <= i < |a| && a[i] == x;
        assert b[i] == x;
      }
      forall x, y | x in a && y in a && Before(en, x, y) ensures Before(em, x, y) {
        var i :| 0 <= i < |a| && a[i] == x;
        var j :| 0 <= j < |a| && a[j] == y;
        BeforeIsEarlier(en, a, i, j);
        assert Before(em, b[i], b[j]);
      }
      forall x, y | x in b && x !in a && y in a ensures Before(em, y, x) {
        var i :| 0 <= i < |b| && b[i] == x;
        var j :| 0 <= j < |a| && a[j] == y;
        assert b[j] == y && j < i;
        assert Before(em, b[j], b[i]);
      }
    }
    if Begins(en, a, em, b) {
      ElementsGivePrefix(en, a, em, b);
    }
  }

  lemma HeadsAgree(en: Enumeration, a: seq<Vertex>, em: Enumeration, b: seq<Vertex>)
    requires Proper(em) && InOrder(en, a) && InOrder(em, b) && a != [] && Begins(en, a, em, b)
    ensures b != [] && b[0] == a[0]
  {
    hide Before;
    assert a[0] in b;
    assert b[0] == a[0] || Before(em, a[0], b[0]) by {
      assert b[0] in b && a[0] in a;
      if b[0] in a {
        var m :| 0 <= m < |a| && a[m] == b[0];
        if m > 0 {
          assert Before(en, a[0], a[m]);
        }
      }
    }
    var i :| 0 <= i < |b| && b[i] == a[0];
    if b[0] != a[0] {
      BeforeIsEarlier(em, b, i, 0);
    }
  }

  lemma {:induction false} ElementsGivePrefix(en: Enumeration, a: seq<Vertex>, em: Enumeration, b: seq<Vertex>)
    requires Proper(en) && Proper(em) && InOrder(en, a) && InOrder(em, b) && Begins(en, a, em, b)
    ensures a <= b
    decreases |a|
  {
    hide Before;
    if a != [] {
      HeadsAgree(en, a, em, b);
      var s, t := a[1..], b[1..];
      InOrderDistinct(en, a);
      InOrderDistinct(em, b);
      forall x ensures x in s <==> x in a && x != a[0]
               ensures x in t <==> x in b && x != b[0]
      {
        TailElements(a, x);
        TailElements(b, x);
      }
      InOrderTail(en, a);
      InOrderTail(em, b);
      ElementsGivePrefix(en, s, em, t);
      assert a == [a[0]] + s;
      assert b == [b[0]] + t;
    }
  }

  lemma TailElements<T>(q: seq<T>, x: T)
    requires q != [] && Distinct(q)
    ensures x in q[1..] <==> x in q && x != q[0]
  {
    assert q == [q[0]] + q[1..];
  }

  lemma InOrderTail(en: Enumeration, q: seq<Vertex>)
    requires q != [] && InOrder(en, q)
    ensures InOrder(en, q[1..])
  {
    hide Before;
    var t := q[1..];
    forall i, j | 0 <= i < j < |t| ensures Before(en, t[i], t[j]) { assert Before(en, q[i + 1], q[j + 1]); }
  }

  /** Two orders of the same elements give the same sequence exactly when they agree on all pairs from
      one round. */
  lemma SameElements(en: Enumeration, a: seq<Vertex>, em: Enumeration, b: seq<Vertex>)
    requires Proper(en) && Proper(em) && InOrder(en, a) && InOrder(em, b)
    requires forall x :: x in a <==> x in b
    ensures |a| == |b|
    ensures a == b <==> forall x, y | x in a && y in a && x.round == y.round && Before(en, x, y) :: Before(em, x, y)
  {
    InOrderDistinct(en, a);
    InOrderDistinct(em, b);
    DistinctSize(a);
    DistinctSize(b);
    assert Elements(a) == Elements(b);
    PrefixByElements(en, a, em, b);
    if a == b {
      assert a <= b;
    } else if forall x, y | x in a && y in a && x.round == y.round && Before(en, x, y) :: Before(em, x, y) {
      forall x, y | x in a && y in a && Before(en, x, y) ensures Before(em, x, y) {
        if x.round == y.round {
          assert Before(em, x, y);
        }
      }
      assert Begins(en, a, em, b);
    }
  }
}
