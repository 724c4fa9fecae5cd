/** The leader schedule: the coin is the wave's first round, taken modulo the committee's size. */
module Schedule {
  import opened Orders
  import opened Vertices
  import opened Quorums
  import opened Ordering

  /** The elected key does not depend on the order in which the committee lists its keys. */
  lemma LeaderIgnoresListing(a: seq<Key>, b: seq<Key>, w: Wave)
    requires a != [] && multiset(a) == multiset(b) && w > 0
    ensures b != [] && LeaderKey(a, w) == LeaderKey(b, w)
  {
    assert |multiset(a)| == |a| && |multiset(b)| == |b|;
    SortIsCanonical(a, b);
  }

  lemma MulMono(n: nat, a: int, b: int)
    requires a <= b
    ensures n * a <= n * b
  {
    assert n * (b - a) >= 0;
    assert n * (b - a) == n * b - n * a;
  }

  lemma DivUnique(n: nat, p: int, t: nat, q: int, r: nat)
    requires t < n && r < n && n * p + t == n * q + r
    ensures p == q && t == r
  {
    if p > q {
      MulMono(n, q + 1, p);
    } else if p < q {
      MulMono(n, p + 1, q);
    }
  }

  /** The remainder is determined by any way of writing a number as a multiple plus less than `n`. */
  lemma Remainder(n: nat, x: nat, q: int, r: nat)
    requires r < n && x == n * q + r
    ensures x % n == r
  {
    DivUnique(n, x / n, x % n, q, r);
  }

  lemma EqualRemainders(x: nat, y: nat, n: nat)
    requires n > 0 && x <= y
    ensures x % n == y % n <==> (y - x) % n == 0
  {
    var p, q := x / n, y / n;
    if (y - x) % n == 0 {
      var k := (y - x) / n;
      assert n * (p + k) == n * p + n * k;
      Remainder(n, y, p + k, x % n);
    }
    if x % n == y % n {
      assert n * (q - p) == n * q - n * p;
      Remainder(n, y - x, q - p, 0);
    }
  }

  lemma DistinctIndices(q: seq<Key>, i: nat, j: nat)
    requires Distinct(q) && i < |q| && j < |q|
    ensures q[i] == q[j] <==> i == j
  {
  }

  /** Two waves elect the same key exactly when the committee's size divides four times their distance. */
  lemma SameLeaderIff(keys: seq<Key>, v: Wave, w: Wave)
    requires keys != [] && Distinct(keys) && 0 < v <= w
    ensures LeaderKey(keys, v) == LeaderKey(keys, w) <==> MAX_WAVE * (w - v) % |keys| == 0
  {
    hide Distinct, NonDecreasing, Sorted;
    SortKeepsDistinct(keys);
    var x, y := RoundForWave(v, 1), RoundForWave(w, 1);
    assert y - x == MAX_WAVE * (w - v);
    EqualRemainders(x, y, |keys|);
    DistinctIndices(Sorted(keys), x % |keys|, y % |keys|);
  }

  /** A committee of four, like the one shipped, elects the same key in every wave. */
  lemma FourElectOne(keys: seq<Key>, v: Wave, w: Wave)
    requires Distinct(keys) && |keys| == 4 && 0 < v <= w
    ensures LeaderKey(keys, v) == LeaderKey(keys, w)
  {
    SameLeaderIff(keys, v, w);
  }

  lemma OddProduct(n: nat, m: nat)
    requires n % 2 == 1 && m % 2 == 1
    ensures n * m % 2 == 1
  {
    var a, b := n / 2, m / 2;
    assert n * m == (2 * a + 1) * (2 * b + 1) == 2 * (2 * a * b + a + b) + 1;
  }

  lemma OddHalves(d: nat, n: nat)
    requires n % 2 == 1 && 2 * d % n == 0
    ensures d % n == 0
  {
    var m := 2 * d / n;
    assert 2 * d == n * m;
    if m % 2 == 1 {
      OddProduct(n, m);
      assert false;
    }
    var half := m / 2;
    assert n * m == n * (2 * half) == 2 * (n * half);
    Remainder(n, d, half, 0);
  }

  /** With an odd committee, nearby waves elect different keys. */
  lemma OddScheduleRotates(keys: seq<Key>, v: Wave, w: Wave)
    requires Distinct(keys) && |keys| % 2 == 1 && 0 < v < w < v + |keys|
    ensures LeaderKey(keys, v) != LeaderKey(keys, w)
  {
    if LeaderKey(keys, v) == LeaderKey(keys, w) {
      SameLeaderIff(keys, v, w);
      OddHalves(2 * (w - v), |keys|);
      OddHalves(w - v, |keys|);
      Remainder(|keys|, w - v, 0, w - v);
      assert false;
    }
  }

  function Waves(start: Wave, n: nat): (ws: set<Wave>)
    ensures forall w :: w in ws <==> start <= w < start + n
    ensures |ws| == n
  {
    if n == 0 then {} else Waves(start, n - 1) + {start + n - 1}
  }

  lemma FullSubset<T>(a: set<T>, b: set<T>)
    requires a <= b && |a| == |b|
    ensures a == b
  {
    assert b == a + (b - a);
    assert |b| == |a| + |b - a|;
  }

  lemma LeaderIsMember(keys: seq<Key>, w: Wave)
    requires keys != [] && w > 0
    ensures LeaderKey(keys, w) in keys
  {
    assert LeaderKey(keys, w) in multiset(Sorted(keys));
  }

  /** With an odd committee, any `n` consecutive waves elect every key exactly once. */
  lemma OddScheduleIsFair(keys: seq<Key>, start: Wave, k: Key)
    requires Distinct(keys) && |keys| % 2 == 1 && start > 0 && k in keys
    ensures exists w :: start <= w < start + |keys| && LeaderKey(keys, w) == k
    ensures forall v, w | start <= v < w < start + |keys| :: LeaderKey(keys, v) != LeaderKey(keys, w)
  {
    hide LeaderKey;
    var waves := Waves(start, |keys|);
    var elect: Wave -> Key := (w: Wave) => if w > 0 then LeaderKey(keys, w) else 0;
    forall v, w | start <= v < w < start + |keys| ensures LeaderKey(keys, v) != LeaderKey(keys, w) {
      OddScheduleRotates(keys, v, w);
    }
    ImageSize<Wave, Key>(elect, waves);
    var elected := Image<Wave, Key>(elect, waves);
    forall x | x in elected ensures x in Elements(keys) {
      var w :| w in waves && elect(w) == x;
      LeaderIsMember(keys, w);
    }
    DistinctSize(keys);
    FullSubset(elected, Elements(keys));
    assert k in elected;
  }
}
