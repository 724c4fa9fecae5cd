/** Finite sets and sequences of keys in ascending order: the iteration order of the source's
    ordered maps, and the order in which `std::sort` leaves the committee's keys. */
module Orders {

  ghost predicate Increasing(q: seq<nat>) {
    forall i, j | 0 <= i < j < |q| :: q[i] < q[j]
  }

  ghost predicate NonDecreasing(q: seq<nat>) {
    forall i, j | 0 <= i < j < |q| :: q[i] <= q[j]
  }

  ghost predicate Distinct<T>(q: seq<T>) {
    forall i, j | 0 <= i < j < |q| :: q[i] != q[j]
  }

  lemma {:induction false} MinExists(s: set<nat>, bound: nat)
    requires bound in s
    ensures exists m :: m in s && forall x | x in s :: m <= x
    decreases bound
  {
    if y :| y in s && y < bound {
      MinExists(s, y);
    } else {
      assert bound in s && forall x | x in s :: bound <= x;
    }
  }

  function Min(s: set<nat>): (m: nat)
    requires s != {}
    ensures m in s && forall x | x in s :: m <= x
  {
    assert exists m :: m in s && forall x | x in s :: m <= x by {
      var bound :| bound in s;
      MinExists(s, bound);
    }
    var m :| m in s && forall x | x in s :: m <= x;
    m
  }

  /** The elements of a finite set, least first. */
  function Ascending(s: set<nat>): (q: seq<nat>)
    ensures forall x {:trigger x in q} :: x in q <==> x in s
  {
    if s == {} then []
    else
      var m := Min(s);
      [m] + Ascending(s - {m})
  }

  lemma {:induction false} AscendingIncreasing(s: set<nat>)
    ensures Increasing(Ascending(s))
  {
    if s != {} {
      var m := Min(s);
      var q := Ascending(s - {m});
      AscendingIncreasing(s - {m});
      assert Ascending(s) == [m] + q;
      forall i, j | 0 <= i < j < |[m] + q| ensures ([m] + q)[i] < ([m] + q)[j] {
        assert q[j - 1] in q;
      }
    }
  }

  /** One insertion into an already sorted sequence. */
  function InsertSorted(x: nat, q: seq<nat>): (r: seq<nat>)
    ensures multiset(r) == multiset(q) + multiset{x}
    ensures |r| == |q| + 1
  {
    if q == [] then [x]
    else if x <= q[0] then [x] + q
    else
      assert q == [q[0]] + q[1..];
      [q[0]] + InsertSorted(x, q[1..])
  }

  lemma ConsNonDecreasing(x: nat, q: seq<nat>)
    requires NonDecreasing(q) && (q != [] ==> x <= q[0])
    ensures NonDecreasing([x] + q)
  {
  }

  lemma {:induction false} InsertKeepsSorted(x: nat, q: seq<nat>)
    requires NonDecreasing(q)
    ensures NonDecreasing(InsertSorted(x, q))
    ensures InsertSorted(x, q)[0] == x || (q != [] && InsertSorted(x, q)[0] == q[0])
  {
    if q != [] && x > q[0] {
      InsertKeepsSorted(x, q[1..]);
      ConsNonDecreasing(q[0], InsertSorted(x, q[1..]));
    } else {
      ConsNonDecreasing(x, q);
    }
  }

  /** The sorted rearrangement of `q`. */
  function Sorted(q: seq<nat>): (r: seq<nat>)
    ensures multiset(r) == multiset(q)
    ensures |r| == |q|
    ensures NonDecreasing(r)
  {
    if q == [] then []
    else
      assert q == [q[0]] + q[1..];
      InsertKeepsSorted(q[0], Sorted(q[1..]));
      InsertSorted(q[0], Sorted(q[1..]))
  }

  lemma SortedHead(a: seq<nat>, b: seq<nat>)
    requires NonDecreasing(a) && NonDecreasing(b) && multiset(a) == multiset(b) && a != [] && b != []
    ensures a[0] == b[0]
  {
    assert a[0] in multiset(b) && b[0] in multiset(a);
  }

  lemma SameTail(a: seq<nat>, b: seq<nat>)
    requires multiset(a) == multiset(b) && a != [] && b != [] && a[0] == b[0]
    ensures multiset(a[1..]) == multiset(b[1..])
  {
    assert a == [a[0]] + a[1..] && b == [b[0]] + b[1..];
    assert multiset(a[1..]) == multiset(a) - multiset{a[0]};
    assert multiset(b[1..]) == multiset(b) - multiset{b[0]};
  }

  /** A sorted sequence is determined by its multiset. */
  lemma {:induction false} SortedUnique(a: seq<nat>, b: seq<nat>)
    requires NonDecreasing(a) && NonDecreasing(b) && multiset(a) == multiset(b)
    ensures a == b
  {
    assert |multiset(a)| == |a| && |multiset(b)| == |b|;
    if a != [] {
      SortedHead(a, b);
      SameTail(a, b);
      SortedUnique(a[1..], b[1..]);
      assert a == [a[0]] + a[1..] && b == [b[0]] + b[1..];
    }
  }

  /** Sorting forgets the order in which the keys were listed. */
  lemma SortIsCanonical(a: seq<nat>, b: seq<nat>)
    requires multiset(a) == multiset(b)
    ensures Sorted(a) == Sorted(b)
  {
    SortedUnique(Sorted(a), Sorted(b));
  }

  lemma {:induction false} DistinctCount<T>(q: seq<T>, x: T)
    requires Distinct(q)
    ensures multiset(q)[x] <= 1
  {
    if q != [] {
      DistinctCount(q[1..], x);
      assert q == [q[0]] + q[1..];
      if x == q[0] {
        assert x !in q[1..];
      }
    }
  }

  lemma CountTwice<T>(q: seq<T>, i: nat, j: nat)
    requires i < j < |q| && q[i] == q[j]
    ensures multiset(q)[q[i]] >= 2
  {
    var a, b := q[..j], q[j..];
    assert q == a + b;
    assert multiset(q) == multiset(a) + multiset(b);
    assert a[i] in multiset(a) && b[0] in multiset(b);
  }

  lemma SortKeepsDistinct(q: seq<nat>)
    requires Distinct(q)
    ensures Distinct(Sorted(q))
  {
    var r := Sorted(q);
    forall i, j | 0 <= i < j < |r| ensures r[i] != r[j] {
      DistinctCount(q, r[i]);
      if r[i] == r[j] {
        CountTwice(r, i, j);
        assert false;
      }
    }
  }

  lemma DistinctConcat<T>(a: seq<T>, b: seq<T>)
    requires Distinct(a) && Distinct(b) && forall x | x in a :: x !in b
    ensures Distinct(a + b)
  {
    var c := a + b;
    forall i, j | 0 <= i < j < |c| ensures c[i] != c[j] {
      if i < |a| <= j {
        assert c[i] in a && c[j] in b;
      }
    }
  }

  ghost function Elements<T>(q: seq<T>): set<T> {
    set x | x in q
  }

  lemma {:induction false} DistinctSize<T>(q: seq<T>)
    requires Distinct(q)
    ensures |Elements(q)| == |q|
  {
    if q != [] {
      DistinctSize(q[1..]);
      assert Elements(q) == {q[0]} + Elements(q[1..]);
      assert q[0] !in q[1..];
    }
  }
}
