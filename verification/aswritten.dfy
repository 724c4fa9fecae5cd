/** The delivery test as it is written looks from the vertex down to the leader, so a pass delivers the
    leader's descendants. This module says what that order does, and exactly when it still agrees. */
module AsWritten {
  import opened Vertices
  import opened Graphs
  import opened Links
  import opened Enumerations
  import opened Searches
  import opened Ordering
  import opened Agreement
  import opened Systems

  /** Along a chain, only the oldest leader's pass delivers anything. */
  lemma {:induction false} OnePass(g: Graph, en: Enumeration, leaders: seq<Vertex>, e: Edges)
    requires SlotsOk(g) && Coherent(Stored(g)) && Enumerates(en, g)
    requires leaders != [] && Chained(Stored(g), leaders, e) && forall l | l in leaders :: l in Stored(g)
    ensures OrderVertices(g, en, Written, leaders) == LeaderPass(g, en, Written, leaders[|leaders| - 1], {})
  {
    hide Leads, Linked, Stored, SlotsOk, LeaderPass, Enumerates, Closed, Chained;
    var s, oldest := Stored(g), leaders[|leaders| - 1];
    var rest := leaders[1..];
    var pass := LeaderPass(g, en, Written, oldest, {});
    if rest == [] {
      assert OrderVertices(g, en, Written, rest) == [] && Hashes([]) == {};
      assert [] + pass == pass;
    } else {
      ChainTail(s, leaders, e);
      OnePass(g, en, rest, e);
      LeaderPassIs(g, en, Written, oldest, {});
      var newest := LeaderPass(g, en, Written, leaders[0], Hashes(pass));
      LeaderPassIs(g, en, Written, leaders[0], Hashes(pass));
      ChainLeads(s, leaders, |leaders| - 1, e);
      forall v | v in s && Delivers(g, en, Written, leaders[0], v) ensures Delivers(g, en, Written, oldest, v) {
        LinkedLeads(g, en, v, leaders[0], All);
        ClosedAt(s, v);
        LeadsTrans(s, v, leaders[0], oldest, All);
        LinkedLeads(g, en, v, oldest, All);
      }
      EmptyOrNot(newest);
      assert newest == [];
    }
  }

  lemma EmptyOrNot<T>(q: seq<T>)
    ensures q == [] || exists x :: x in q
  {
    if q != [] {
      assert q[0] in q;
    }
  }

  /** The oldest leader that a committed wave brings along. */
  ghost function Oldest(cfg: Config, g: Graph, en: Enumeration, w: Wave): Vertex
    requires cfg.keys != [] && w > 0 && Commits(cfg, g, en, w)
  {
    var leaders := CommittedLeaders(cfg, g, en, w);
    leaders[|leaders| - 1]
  }

  ghost predicate HeldDescendant(g: Graph, l: Vertex, v: Vertex) {
    v in Stored(g) && v.round > 0 && Leads(Stored(g), v, l, All)
  }

  /** As written, a commit outputs the stored descendants of the oldest leader it brings along, by round
      and then as the round is iterated, and nothing else; the passes of all newer leaders are empty. */
  lemma WrittenLogIs(cfg: Config, net: set<Vertex>, g: Graph, en: Enumeration, w: Wave)
    requires ConfigOk(cfg) && cfg.orientation.Written? && NetOk(cfg, net) && ViewOk(g, en, net)
    requires w > 0 && Commits(cfg, g, en, w)
    ensures var log := Ordered(cfg, g, en, w).value;
            InOrder(en, log) && forall v :: v in log <==> HeldDescendant(g, Oldest(cfg, g, en, w), v)
  {
    hide Leads, Linked, Stored, SlotsOk, LeaderPass, WaveLeader, Linkers, LeadersBelow, View, Closed, NetOk,
      OrderVertices, InOrder, Enumerates;
    WaveLeaderIs(cfg.keys, g, w);
    CommonChain(cfg, net, g, en, g, en, w);
    var leaders, l := CommittedLeaders(cfg, g, en, w), Oldest(cfg, g, en, w);
    ViewCoherent(g, en, net);
    WalkChained(cfg, g, en, w - 1, WaveLeader(cfg.keys, g, w).value);
    OnePass(g, en, leaders, cfg.edges);
    LeaderPassIs(g, en, Written, l, {});
    forall v ensures Delivers(g, en, Written, l, v) <==> Leads(Stored(g), v, l, All) { LinkedLeads(g, en, v, l, All); }
  }

  /** The view `h` holds every descendant of `l` that `g` holds, is iterated in an order that agrees on
      those, and whatever more of them it holds comes after all of those. */
  ghost predicate WrittenAgree(g: Graph, en: Enumeration, h: Graph, em: Enumeration, l: Vertex) {
    && (forall v | HeldDescendant(g, l, v) :: v in Stored(h))
    && (forall u, v | HeldDescendant(g, l, u) && HeldDescendant(g, l, v) && Before(en, u, v) :: Before(em, u, v))
    && (forall u, v | HeldDescendant(g, l, u) && HeldDescendant(h, l, v) && v !in Stored(g) :: Before(em, u, v))
  }

  /** As written, the output of an earlier commit is a prefix of that of a later one exactly when the two
      views and orders agree so on the descendants of the oldest leader, which is the same for both. */
  lemma WrittenPrefixIff(cfg: Config, net: set<Vertex>, g: Graph, en: Enumeration, w: Wave, h: Graph, em: Enumeration,
                         w': Wave)
    requires ConfigOk(cfg) && cfg.orientation.Written? && NetOk(cfg, net) && ViewOk(g, en, net) && ViewOk(h, em, net)
    requires 0 < w <= w' && Commits(cfg, g, en, w) && Commits(cfg, h, em, w')
    ensures Oldest(cfg, g, en, w) == Oldest(cfg, h, em, w')
    ensures Ordered(cfg, g, en, w).value <= Ordered(cfg, h, em, w').value <==>
            WrittenAgree(g, en, h, em, Oldest(cfg, g, en, w))
  {
    hide Stored, OrderVertices, WaveLeader, LeadersBelow, Part, Commits, HeldDescendant, Before, Enumerates, NetOk;
    var newer := ChainAgreement(cfg, net, g, en, w, h, em, w');
    var leaders, l := CommittedLeaders(cfg, g, en, w), Oldest(cfg, g, en, w);
    assert l == Oldest(cfg, h, em, w') && l in leaders;
    WrittenLogIs(cfg, net, g, en, w);
    WrittenLogIs(cfg, net, h, em, w');
    EnumeratesProper(en, g);
    EnumeratesProper(em, h);
    PrefixByElements(en, Ordered(cfg, g, en, w).value, em, Ordered(cfg, h, em, w').value);
    forall v ensures HeldDescendant(g, l, v) ==> (v in Stored(h) <==> HeldDescendant(h, l, v))
             ensures HeldDescendant(h, l, v) ==> (v in Stored(g) <==> HeldDescendant(g, l, v))
             ensures HeldDescendant(g, l, v) ==> v in Stored(g)
    {
      DescentAgrees(g, h, net, l, v);
      DescentAgrees(h, g, net, l, v);
    }
  }

  lemma DescentAgrees(g: Graph, h: Graph, net: set<Vertex>, l: Vertex, v: Vertex)
    requires Part(g, net) && Part(h, net) && (l in Stored(g) || l in Stored(h))
    ensures HeldDescendant(g, l, v) ==> v in Stored(g) && (v in Stored(h) <==> HeldDescendant(h, l, v))
  {
    if v in Stored(g) && v in Stored(h) {
      ViewsAgree(Stored(g), Stored(h), net, v, l, All);
    }
  }

  /** The same for what was committed during any run. */
  lemma WrittenRunsAgreeIff(cfg: Config, run: seq<System>, actions: seq<Action>, i: nat, c: Commit, d: Commit)
    requires ConfigOk(cfg) && cfg.orientation.Written? && IsRun(cfg, run, actions) && i < |run|
    requires c in run[i].history && d in run[i].history && c.wave <= d.wave
    ensures c.wave > 0 && Commits(cfg, c.view, c.order, c.wave)
    ensures c.log <= d.log <==> WrittenAgree(c.view, c.order, d.view, d.order, Oldest(cfg, c.view, c.order, c.wave))
  {
    hide IsRun, NetOk, ViewOk, Commits, Oldest, WrittenAgree, Enumerates;
    RunInv(cfg, run, actions, i);
    assert CommitOk(cfg, run[i].net, c) && CommitOk(cfg, run[i].net, d);
    WrittenPrefixIff(cfg, run[i].net, c.view, c.order, c.wave, d.view, d.order, d.wave);
  }
}
