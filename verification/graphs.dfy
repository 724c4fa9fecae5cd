/** The values a round-indexed vertex graph takes (`graph` in src/consensus/dag.hpp), and what
    inserting into it does. */
module Graphs {
  import opened Vertices
  import opened Quorums

  type Graph = map<Round, map<Key, Vertex>>

  /** Every vertex sits in the slot of its own round and owner. */
  ghost predicate SlotsOk(g: Graph) {
    forall r, k | r in g && k in g[r] :: g[r][k].round == r && g[r][k].owner == k
  }

  ghost predicate Holds(g: Graph, v: Vertex) {
    v.round in g && v.owner in g[v.round] && g[v.round][v.owner] == v
  }

  ghost function Stored(g: Graph): set<Vertex> {
    set r, k | r in g && k in g[r] :: g[r][k]
  }

  lemma StoredHolds(g: Graph, v: Vertex)
    requires SlotsOk(g)
    ensures v in Stored(g) <==> Holds(g, v)
  {
    if v in Stored(g) {
      var r, k :| r in g && k in g[r] && g[r][k] == v;
    }
    if Holds(g, v) {
      assert v.round in g && v.owner in g[v.round];
    }
  }

  function Row(g: Graph, r: Round): map<Key, Vertex> {
    if r in g then g[r] else map[]
  }

  function Insert(g: Graph, v: Vertex): Graph {
    g[v.round := Row(g, v.round)[v.owner := v]]
  }

  /** Whether some vertex of `s` has the digest `h` at round `r`. */
  ghost predicate Provides(s: set<Vertex>, h: VertexHash, r: Round) {
    exists p :: p in s && p.hash == h && p.round == r
  }

  ghost predicate Resolves(s: set<Vertex>, parents: map<VertexHash, Round>) {
    forall h {:trigger Provides(s, h, parents[h])} | h in parents :: Provides(s, h, parents[h])
  }

  ghost predicate Closed(s: set<Vertex>) {
    forall v {:trigger Resolves(s, v.parents)} | v in s :: Resolves(s, v.parents)
  }

  ghost predicate HashUnique(s: set<Vertex>) {
    forall u, v {:trigger u in s, v in s} | u in s && v in s && u.hash == v.hash :: u == v
  }

  ghost predicate Descends(v: Vertex) {
    forall h | h in v.parents :: v.parents[h] < v.round
  }

  ghost predicate Descending(s: set<Vertex>) {
    forall v {:trigger Descends(v)} | v in s :: Descends(v)
  }

  /** Parents can be looked up, and in one way only. */
  ghost predicate Coherent(s: set<Vertex>) {
    Closed(s) && HashUnique(s)
  }

  /** What a path search needs of the stored vertices in order to find all paths. */
  ghost predicate Sound(s: set<Vertex>) {
    Coherent(s) && Descending(s)
  }

  /** A vertex, stored or not, whose parents are all stored below it. */
  ghost predicate Attachable(s: set<Vertex>, v: Vertex) {
    Resolves(s, v.parents) && Descends(v)
  }

  lemma StoredAttachable(s: set<Vertex>, u: Vertex)
    requires Sound(s) && u in s
    ensures Attachable(s, u)
  {
  }

  ghost function Digests(row: map<Key, Vertex>): set<VertexHash> {
    set k | k in row :: row[k].hash
  }

  /** The parent map offered by a round: the digest of each of its vertices, at that round. */
  ghost function Offered(g: Graph, r: Round): map<VertexHash, Round> {
    map h | h in Digests(Row(g, r)) :: r
  }

  /** The senders of whom a vertex of round `r` is held. */
  ghost function HeldOwners(g: Graph, r: Round): set<Key> {
    set v | v in Stored(g) && v.round == r :: v.owner
  }

  lemma HeldOwnersSize(g: Graph, r: Round)
    requires SlotsOk(g)
    ensures HeldOwners(g, r) == Row(g, r).Keys && |HeldOwners(g, r)| == |Row(g, r)|
  {
    forall k ensures k in HeldOwners(g, r) <==> k in Row(g, r).Keys {
      if k in HeldOwners(g, r) {
        var v :| v in Stored(g) && v.round == r && v.owner == k;
        StoredHolds(g, v);
      }
      if k in Row(g, r).Keys {
        assert r in g && k in g[r] && g[r][k] in Stored(g);
      }
    }
    assert |Row(g, r).Keys| == |Row(g, r)|;
  }

  // ------------------------------------------------------------------ insertion

  /** What the slot of `v` held before, if anything. */
  ghost predicate Displaces(g: Graph, v: Vertex, d: Vertex) {
    v.owner in Row(g, v.round) && Row(g, v.round)[v.owner] == d
  }

  lemma InsertSlots(g: Graph, v: Vertex)
    requires SlotsOk(g)
    ensures SlotsOk(Insert(g, v))
    ensures Insert(g, v).Keys == g.Keys + {v.round}
    ensures forall r | r in g :: g[r].Keys <= Insert(g, v)[r].Keys
    ensures forall r | r in Insert(g, v) && r != v.round :: r in g && Insert(g, v)[r] == g[r]
    ensures Insert(g, v)[v.round].Keys == Row(g, v.round).Keys + {v.owner}
  {
  }

  lemma InsertHolds(g: Graph, v: Vertex, u: Vertex)
    requires SlotsOk(g)
    ensures u in Stored(Insert(g, v)) <==> u == v || (u in Stored(g) && !Displaces(g, v, u))
  {
    InsertSlots(g, v);
    StoredHolds(g, u);
    StoredHolds(Insert(g, v), u);
  }

  /** Filling a free slot. */
  lemma InsertFresh(g: Graph, v: Vertex)
    requires SlotsOk(g) && v.owner !in Row(g, v.round)
    ensures SlotsOk(Insert(g, v)) && Stored(Insert(g, v)) == Stored(g) + {v}
    ensures Row(Insert(g, v), v.round).Keys == Row(g, v.round).Keys + {v.owner}
  {
    InsertSlots(g, v);
    forall u ensures u in Stored(Insert(g, v)) <==> u in Stored(g) + {v} { InsertHolds(g, v, u); }
  }

  /** A round never loses an owner, even when a vertex takes the slot of another. */
  lemma InsertKeepsPopulation(g: Graph, v: Vertex, r: Round)
    ensures Row(g, r).Keys <= Row(Insert(g, v), r).Keys
    ensures |Row(g, r)| <= |Row(Insert(g, v), r)|
  {
    KeySubset(Row(g, r), Row(Insert(g, v), r));
  }

  lemma KeySubset(a: map<Key, Vertex>, b: map<Key, Vertex>)
    requires a.Keys <= b.Keys
    ensures |a| <= |b|
  {
    SubsetSize(a.Keys, b.Keys);
    assert |a.Keys| == |a| && |b.Keys| == |b|;
  }

  /** A digest that a stored vertex lists, and whose vertex was replaced, is gone. */
  lemma LostParent(g: Graph, v: Vertex, d: Vertex, u: Vertex)
    requires SlotsOk(g) && HashUnique(Stored(g))
    requires Displaces(g, v, d) && d.hash != v.hash
    requires u in Stored(Insert(g, v)) && d.hash in u.parents && u.parents[d.hash] == d.round
    ensures !Closed(Stored(Insert(g, v)))
  {
    var t := Stored(Insert(g, v));
    assert d in Stored(g) by { assert v.round in g && v.owner in g[v.round]; }
    forall p | p in t ensures p.hash != d.hash { InsertHolds(g, v, p); }
    assert !Provides(t, d.hash, d.round);
    assert !Resolves(t, u.parents);
  }

  /** Neither `v` nor any vertex it leaves in place has a vertex as parent that `v` replaces. */
  ghost predicate LosesNoParent(g: Graph, v: Vertex) {
    forall d, u | Displaces(g, v, d) && d.hash != v.hash && u in Stored(g) + {v} && u != d ::
      d.hash in u.parents ==> u.parents[d.hash] != d.round
  }

  /** The guard on received vertices (parents stored at their claimed rounds) is not enough to keep
      the graph closed: it stays closed exactly when the slot was free, or the digest there does not
      change, or no vertex stored afterwards lists the lost digest as a parent. */
  lemma InsertClosedIff(g: Graph, v: Vertex)
    requires SlotsOk(g) && Closed(Stored(g)) && HashUnique(Stored(g))
    requires Resolves(Stored(g), v.parents)
    ensures Closed(Stored(Insert(g, v))) <==> LosesNoParent(g, v)
  {
    hide Closed, Stored, HashUnique, Resolves, SlotsOk;
    if LosesNoParent(g, v) {
      NothingLost(g, v);
    } else {
      var d, u :| Displaces(g, v, d) && d.hash != v.hash && u in Stored(g) + {v} && u != d
                  && d.hash in u.parents && u.parents[d.hash] == d.round;
      InsertHolds(g, v, u);
      LostParent(g, v, d, u);
    }
  }

  lemma NothingLost(g: Graph, v: Vertex)
    requires SlotsOk(g) && Closed(Stored(g)) && Resolves(Stored(g), v.parents) && LosesNoParent(g, v)
    ensures Closed(Stored(Insert(g, v)))
  {
    hide LosesNoParent, Stored, SlotsOk, Displaces;
    var s, t := Stored(g), Stored(Insert(g, v));
    InsertHolds(g, v, v);
    forall u | u in t ensures Resolves(t, u.parents) {
      InsertHolds(g, v, u);
      forall h | h in u.parents ensures Provides(t, h, u.parents[h]) {
        assert Resolves(s, u.parents) && Provides(s, h, u.parents[h]);
        var p :| p in s && p.hash == h && p.round == u.parents[h];
        InsertHolds(g, v, p);
        if p !in t {
          StandsIn(g, v, p, u);
        }
      }
    }
  }

  /** A replaced vertex that is still listed as a parent has handed its digest on. */
  lemma StandsIn(g: Graph, v: Vertex, d: Vertex, u: Vertex)
    requires SlotsOk(g) && LosesNoParent(g, v) && Displaces(g, v, d)
    requires u == v || (u in Stored(g) && !Displaces(g, v, u))
    requires d.hash in u.parents && u.parents[d.hash] == d.round
    ensures d.hash == v.hash && d.round == v.round
  {
  }

  /** What is stored besides the vertex that `v` replaces. */
  ghost function Kept(g: Graph, v: Vertex): set<Vertex> {
    set u | u in Stored(g) && !Displaces(g, v, u)
  }

  /** Only the vertex that `v` replaces has the digest of `v`. */
  ghost predicate OwnDigest(g: Graph, v: Vertex) {
    forall u | u in Stored(g) && u.hash == v.hash :: u == v || Displaces(g, v, u)
  }

  /** What a guarded insertion needs for every later search to stay exact and to end: it loses no
      parent, the new vertex lies above its parents, and its digest is its own. All three can be
      checked before the insertion. */
  lemma InsertSoundIff(g: Graph, v: Vertex)
    requires SlotsOk(g) && Sound(Stored(g)) && Resolves(Stored(g), v.parents)
    ensures Sound(Stored(Insert(g, v))) <==> LosesNoParent(g, v) && Descends(v) && OwnDigest(g, v)
  {
    hide LosesNoParent, Closed, Stored, Descends, OwnDigest;
    var s, t := Stored(g), Stored(Insert(g, v));
    InsertClosedIff(g, v);
    OwnDigestUnique(g, v);
    forall u ensures u in t <==> u == v || (u in s && !Displaces(g, v, u)) { InsertHolds(g, v, u); }
    assert v in t;
  }

  lemma OwnDigestUnique(g: Graph, v: Vertex)
    requires SlotsOk(g) && HashUnique(Stored(g))
    ensures Stored(Insert(g, v)) == Kept(g, v) + {v}
    ensures HashUnique(Stored(Insert(g, v))) <==> OwnDigest(g, v)
  {
    hide Stored, SlotsOk;
    var s, t := Stored(g), Stored(Insert(g, v));
    forall u ensures u in t <==> u == v || u in Kept(g, v) { InsertHolds(g, v, u); }
    if OwnDigest(g, v) {
      forall u, w | u in t && w in t && u.hash == w.hash ensures u == w {
        if u != v && w != v {
          assert u in s && w in s;
        }
      }
    } else {
      var u :| u in s && u.hash == v.hash && u != v && !Displaces(g, v, u);
      assert u in t && v in t;
    }
  }
}
