/** Quorum sizes and what two quorums share. */
module Quorums {
  /** `2n/3 + 1` in integer arithmetic, as the node state and the committee compute it. */
  function QuorumSize(n: nat): nat {
    2 * n / 3 + 1
  }

  /** The most faults an n-member committee tolerates. */
  function Faults(n: nat): nat
    requires n >= 1
  {
    (n - 1) / 3
  }

  lemma QuorumArithmetic(n: nat)
    requires n >= 1
    ensures QuorumSize(n) == n - Faults(n)
    ensures 2 * QuorumSize(n) - n >= Faults(n) + 1
  {
  }

  lemma UnionSize<T>(a: set<T>, b: set<T>)
    ensures |a + b| + |a * b| == |a| + |b|
  {
    assert a + b == a + (b - a) && b == (b - a) + a * b;
    assert |a + b| == |a| + |b - a| && |b| == |b - a| + |a * b|;
  }

  lemma SubsetSize<T>(a: set<T>, b: set<T>)
    requires a <= b
    ensures |a| <= |b|
  {
    assert b == a + (b - a);
    assert |b| == |a| + |b - a|;
  }

  /** Two quorums have more members in common than there can be faults. */
  lemma QuorumsShare<T>(members: set<T>, a: set<T>, b: set<T>)
    requires a <= members && b <= members
    requires |a| >= QuorumSize(|members|) && |b| >= QuorumSize(|members|)
    ensures members != {} && |a * b| >= Faults(|members|) + 1
    ensures a * b != {}
  {
    SubsetSize(a, members);
    QuorumArithmetic(|members|);
    UnionSize(a, b);
    SubsetSize(a + b, members);
  }

  ghost function Image<S(!new), T>(f: S -> T, a: set<S>): set<T> {
    set x | x in a :: f(x)
  }

  /** An injective image is as large as its source. */
  lemma {:induction false} ImageSize<S(!new), T>(f: S -> T, a: set<S>)
    requires forall x, y | x in a && y in a && f(x) == f(y) :: x == y
    ensures |Image(f, a)| == |a|
  {
    if a != {} {
      var x :| x in a;
      var rest := a - {x};
      ImageSize(f, rest);
      assert Image(f, a) == Image(f, rest) + {f(x)};
      assert f(x) !in Image(f, rest);
    }
  }
}
