/**
 * Engines that join while a bundle is on its way: the network grows by one connection at a time, and copies of
 * the bundle arrive in between.
 */
module Joining {
  import opened Flooding
  import opened Bundles
  import opened Communicators

  /** A copy arrives, or an engine joins a host. */
  datatype NetEvent = Arrives(copy: (Node, Node)) | JoinsAt(c: Node, h: Node)

  ghost function Grown(t: Tree, c: Node, h: Node): Tree
    requires h in t.rank
  {
    Tree(t.root, t.host[c := h], t.rank[c := t.rank[h] + 1])
  }

  /**
   * Where a run leads. The bundle is promised to the engines that were there at its launch, and to those that
   * joined an engine it is promised to before that one handled it.
   */
  datatype Growth = Growth(possible: bool, t: Tree, s: Flight, promised: set<Node>)
  {
    ghost predicate CanArrive(m: (Node, Node)) {
      possible && m in s.copies && m.1 in s.handled
    }

    ghost predicate CanJoin(c: Node, h: Node) {
      possible && c !in t.rank && c !in t.host && h in t.rank && h in s.handled
    }

    ghost function Next(e: NetEvent): Growth {
      match e
      case Arrives(m) => if CanArrive(m) then this.(s := Arrived(t, s, m)) else this.(possible := false)
      case JoinsAt(c, h) =>
        if CanJoin(c, h) then
          var more := if h in promised && s.handled[h] == 0 then {c} else {};
          Growth(true, Grown(t, c, h), s.(handled := s.handled[c := 0]), promised + more)
        else this.(possible := false)
    }
  }

  ghost function GrownBy(t: Tree, origin: Node, run: seq<NetEvent>): Growth {
    if run == [] then Growth(true, t, Launched(t, origin), t.rank.Keys)
    else GrownBy(t, origin, run[..|run| - 1]).Next(run[|run| - 1])
  }

  /** Seen from the origin: copies travel outwards, to engines the bundle is promised to. */
  ghost predicate OnItsWay(g: Growth) {
    && g.t.Valid() && (forall x :: x in g.s.handled <==> x in g.t.rank)
    && (forall x :: x in g.promised ==> x in g.t.rank)
    && g.t.root in g.promised && g.t.root in g.s.handled && g.s.handled[g.t.root] == 1
    && (forall x, y :: (x, y) in g.s.copies ==> y in g.t.host && g.t.host[y] == x && y in g.promised)
    && (forall y :: y in g.t.host ==> PromisedAt(g, y))
  }

  /**
   * An engine it is promised to has what its host handled, in hand or on the way; any other has nothing, and
   * joined a host that is no better off, or was too late.
   */
  ghost predicate PromisedAt(g: Growth, y: Node) {
    && y in g.t.host && y in g.s.handled && g.t.host[y] in g.s.handled
    && if y in g.promised then g.t.host[y] in g.promised && Shared(g.t, g.s, y)
       else g.s.handled[y] == 0 && (g.t.host[y] in g.promised ==> g.s.handled[g.t.host[y]] >= 1)
  }

  lemma {:induction false} PromisedOnce(g: Growth, x: Node)
    requires OnItsWay(g) && x in g.t.rank
    ensures x in g.s.handled && g.s.handled[x] <= if x in g.promised then 1 else 0
    ensures g.s.copies == multiset{} && x in g.promised ==> g.s.handled[x] == 1
    decreases g.t.rank[x]
  {
    if x != g.t.root {
      assert PromisedAt(g, x);
      if x in g.promised {
        PromisedOnce(g, g.t.host[x]);
      }
    }
  }

  lemma GrownValid(t: Tree, c: Node, h: Node)
    requires t.Valid() && c !in t.rank && h in t.rank
    ensures Grown(t, c, h).Valid()
  {
    var t' := Grown(t, c, h);
    forall x | x in t'.host
      ensures x in t'.rank && t'.host[x] in t'.rank && t'.rank[t'.host[x]] < t'.rank[x]
    {
      if x != c {
        assert x in t.host && t.host[x] != c;
      }
    }
  }

  lemma JoinKeepsWay(g: Growth, c: Node, h: Node)
    requires OnItsWay(g) && g.CanJoin(c, h)
    ensures OnItsWay(g.Next(JoinsAt(c, h)))
  {
    var g' := g.Next(JoinsAt(c, h));
    GrownValid(g.t, c, h);
    forall y | y in g'.t.host ensures PromisedAt(g', y) {
      if y == c {
        assert (h, c) !in g.s.copies;
      } else {
        assert PromisedAt(g, y);
        assert g.t.host[y] != c;
      }
    }
  }

  lemma ArrivalKeepsWay(g: Growth, m: (Node, Node))
    requires OnItsWay(g) && g.CanArrive(m)
    ensures OnItsWay(g.Next(Arrives(m)))
  {
    var (x, y) := m;
    assert (x, y) in g.s.copies && PromisedAt(g, y);
    var g' := g.Next(Arrives(m));
    var spawn := ToAllBut(g.t, y, {x});
    forall a, b | (a, b) in g'.s.copies
      ensures b in g.t.host && g.t.host[b] == a && b in g.promised
    {
      if (a, b) !in g.s.copies {
        assert (a, b) in spawn && PromisedAt(g, b);
        PromisedOnce(g, x);
      }
    }
    forall z | z in g.t.host ensures PromisedAt(g', z) {
      ArrivalKeepsShare(g, m, z);
    }
  }

  lemma ArrivalKeepsShare(g: Growth, m: (Node, Node), z: Node)
    requires OnItsWay(g) && g.CanArrive(m) && z in g.t.host
    ensures PromisedAt(g.Next(Arrives(m)), z)
  {
    var (x, y) := m;
    assert (x, y) in g.s.copies && PromisedAt(g, y) && PromisedAt(g, z);
    SpawnCounts(g.t, y, {x}, z);
    if g.t.host[z] == y {
      assert g.t.Linked(y, z);
      PromisedOnce(g, y);
    }
  }

  lemma LaunchOnItsWay(t: Tree)
    requires t.Valid()
    ensures OnItsWay(GrownBy(t, t.root, []))
  {
    var g := GrownBy(t, t.root, []);
    LaunchedOutward(t);
    forall y | y in t.host ensures PromisedAt(g, y) {
      assert Shared(t, g.s, y);
    }
  }

  lemma {:induction false} RunsStayOnTheirWay(t: Tree, run: seq<NetEvent>)
    requires t.Valid() && GrownBy(t, t.root, run).possible
    ensures OnItsWay(GrownBy(t, t.root, run))
  {
    if run == [] {
      LaunchOnItsWay(t);
    } else {
      var g := GrownBy(t, t.root, run[..|run| - 1]);
      RunsStayOnTheirWay(t, run[..|run| - 1]);
      match run[|run| - 1]
      case Arrives(m) => ArrivalKeepsWay(g, m);
      case JoinsAt(c, h) => JoinKeepsWay(g, c, h);
    }
  }

  // ----- what holds whoever launches the bundle

  /** The same run, seen from another engine. */
  ghost predicate SameGrowth(g: Growth, g': Growth) {
    && SameLinks(g.t, g'.t) && g.s == g'.s && g.promised == g'.promised && g.possible == g'.possible
    && (forall x :: x in g.t.host ==> x in g.t.rank) && (forall x :: x in g'.t.host ==> x in g'.t.rank)
  }

  lemma GrownSame(t: Tree, t': Tree, c: Node, h: Node)
    requires SameLinks(t, t') && c !in t.rank && c !in t.host && c !in t'.host && h in t.rank && h in t'.rank
    ensures SameLinks(Grown(t, c, h), Grown(t', c, h))
  {
    var u, u' := Grown(t, c, h), Grown(t', c, h);
    forall x, y ensures u.Linked(x, y) <==> u'.Linked(x, y) {
      assert t.Linked(x, y) <==> t'.Linked(x, y);
    }
  }

  lemma NextSame(g: Growth, g': Growth, e: NetEvent)
    requires SameGrowth(g, g')
    ensures SameGrowth(g.Next(e), g'.Next(e))
  {
    match e
    case Arrives(m) =>
      if g.CanArrive(m) {
        SpawnSame(g.t, g'.t, m.1, {m.0});
      }
    case JoinsAt(c, h) =>
      if g.CanJoin(c, h) {
        GrownSame(g.t, g'.t, c, h);
      }
  }

  lemma {:induction false} GrownBySame(t: Tree, t': Tree, origin: Node, run: seq<NetEvent>)
    requires t.Valid() && t'.Valid() && SameLinks(t, t')
    ensures SameGrowth(GrownBy(t, origin, run), GrownBy(t', origin, run))
  {
    if run == [] {
      FlownSame(t, t', origin, []);
      assert t.rank.Keys == t'.rank.Keys by {
        forall x ensures x in t.rank.Keys <==> x in t'.rank.Keys {}
      }
    } else {
      GrownBySame(t, t', origin, run[..|run| - 1]);
      NextSame(GrownBy(t, origin, run[..|run| - 1]), GrownBy(t', origin, run[..|run| - 1]), run[|run| - 1]);
    }
  }

  /**
   * Flooding in a growing network: wherever a bundle starts, however its copies arrive and whoever joins
   * meanwhile, no engine handles it twice and no copy returns to its origin; and when none is in flight any
   * more, exactly the engines it is promised to have handled it, once each.
   */
  lemma FloodingReachesThePromised(t: Tree, origin: Node, run: seq<NetEvent>)
    requires t.Valid() && origin in t.rank && GrownBy(t, origin, run).possible
    ensures var g := GrownBy(t, origin, run);
      && (forall x :: x in g.t.rank ==> x in g.s.handled && g.s.handled[x] <= if x in g.promised then 1 else 0)
      && (forall x :: (x, origin) !in g.s.copies)
      && (g.s.copies == multiset{} ==> forall x :: x in g.t.rank && x in g.promised ==> g.s.handled[x] == 1)
  {
    var t' := SeenFrom(t, origin);
    GrownBySame(t, t', origin, run);
    RunsStayOnTheirWay(t', run);
    RootStays(t', run);
    var g, g' := GrownBy(t, origin, run), GrownBy(t', origin, run);
    forall x | x in g.t.rank
      ensures x in g.s.handled && g.s.handled[x] <= if x in g.promised then 1 else 0
      ensures g.s.copies == multiset{} && x in g.promised ==> g.s.handled[x] == 1
    {
      PromisedOnce(g', x);
    }
  }

  lemma {:induction false} RootStays(t: Tree, run: seq<NetEvent>)
    ensures GrownBy(t, t.root, run).t.root == t.root
  {
    if run != [] {
      RootStays(t, run[..|run| - 1]);
    }
  }

  // ----- what a communicator sends

  /** The copies a communicator at node `x` has sent, from its state before and after a bundle. */
  ghost function Copies(x: Node, s: Desk, s': Desk, fb: FrameBundle): set<(Node, Node)> {
    set c | c in s.conns && c in s.bundles && c in s'.bundles && s'.bundles[c] == s.bundles[c] + [fb] :: (x, c)
  }

  /**
   * A communicator whose connections are those of its node forwards as flooding does: its own bundles to all
   * neighbours, and a bundle from one of them to all the others.
   */
  lemma ForwardsLikeFlooding(t: Tree, x: Node, s: Desk, h: Handled)
    requires Formed(s) && forall c :: c in s.conns <==> c in t.rank && t.Linked(x, c)
    ensures Copies(x, s, Passed(s, h), h.fb) == ToAllBut(t, x, if h.local then {} else {h.from})
  {
    PassedPlainly(s, h);
    var s' := Passed(s, h);
    forall c | c in s.conns
      ensures c in s.bundles && c in s'.bundles
      ensures s'.bundles[c] == s.bundles[c] + [h.fb] <==> h.local || c != h.from
    {
      assert |s.bundles[c] + [h.fb]| == |s.bundles[c]| + 1;
    }
  }

  // ----- joiners

  lemma {:induction false} PromisesStand(t: Tree, origin: Node, run: seq<NetEvent>, more: seq<NetEvent>)
    requires GrownBy(t, origin, run + more).possible
    ensures GrownBy(t, origin, run).possible
    ensures GrownBy(t, origin, run).promised <= GrownBy(t, origin, run + more).promised
    ensures forall x :: x in GrownBy(t, origin, run).t.rank ==> x in GrownBy(t, origin, run + more).t.rank
  {
    if more == [] {
      assert run + more == run;
    } else {
      assert (run + more)[..|run + more| - 1] == run + more[..|more| - 1];
      PromisesStand(t, origin, run, more[..|more| - 1]);
    }
  }

  /** Nothing a communicator has handled lies above its horizon. */
  lemma {:induction false} HandledBelowHorizon(hs: seq<Handled>, initial: int, k: nat)
    requires k < |hs|
    ensures hs[k].fb.frame <= Horizon(hs, initial)
  {
    if k < |hs| - 1 {
      HandledBelowHorizon(hs[..|hs| - 1], initial, k);
    }
  }

  /** What a communicator has handled tells whether the bundle for frame `f` was among it. */
  ghost predicate TellsOf(hs: seq<Handled>, f: int, handled: nat) {
    handled > 0 ==> exists k :: 0 <= k < |hs| && hs[k].fb.frame == f
  }

  /**
   * A joiner gets every bundle above its host's horizon exactly once, also one that is on its way when it joins:
   * its host has not handled it yet, so passes it on when it does. It can be neither missed nor doubled.
   */
  lemma JoinerMidFlight(t: Tree, origin: Node, before: seq<NetEvent>, c: Node, h: Node, after: seq<NetEvent>,
                        s: Desk, conn: Conn, f: int)
    requires t.Valid() && origin in t.rank && GrownBy(t, origin, before + [JoinsAt(c, h)] + after).possible
    requires h in GrownBy(t, origin, before).promised && h in GrownBy(t, origin, before).s.handled
    requires Sound(s) && conn in s.joiners && s.joiners[conn].since <= |s.handled| && s.joiners[conn].start <= f
    requires TellsOf(s.handled[..s.joiners[conn].since], f, GrownBy(t, origin, before).s.handled[h])
    ensures var g := GrownBy(t, origin, before + [JoinsAt(c, h)] + after);
      && c in g.promised && c in g.s.handled && g.s.handled[c] <= 1
      && (g.s.copies == multiset{} ==> g.s.handled[c] == 1)
  {
    var g0, hs := GrownBy(t, origin, before), s.handled[..s.joiners[conn].since];
    var joined := before + [JoinsAt(c, h)];
    assert JoiningAt(s, conn);
    if g0.s.handled[h] > 0 {
      var k :| 0 <= k < |hs| && hs[k].fb.frame == f;
      HandledBelowHorizon(hs, s.initial, k);
    }
    PromisesStand(t, origin, joined, after);
    assert joined[..|joined| - 1] == before;
    PromisesStand(t, origin, before, [JoinsAt(c, h)]);
    FloodingReachesThePromised(t, origin, joined + after);
  }
}
