/**
 * Forwarding in a network of engines. A client connects to the one host it joins, so the connections form a
 * tree; every engine passes a bundle on to all its connections but the one it came from.
 */
module Flooding {

  type Node = int

  /** Who joined whom: every engine but the first has one host, which was there before it. */
  datatype Tree = Tree(root: Node, host: map<Node, Node>, rank: map<Node, nat>)
  {
    ghost predicate Valid() {
      && root in rank && root !in host
      && (forall x :: x in rank ==> x == root || x in host)
      && (forall x :: x in host ==> x in rank && host[x] in rank && rank[host[x]] < rank[x])
    }

    ghost predicate Linked(x: Node, y: Node) {
      (x in host && host[x] == y) || (y in host && host[y] == x)
    }

    /** `x` hangs below `top`, or is it. */
    ghost predicate Below(x: Node, top: Node)
      requires Valid() && x in rank
      decreases rank[x]
    {
      x == top || (x in host && Below(host[x], top))
    }
  }

  /** The same connections, seen from another engine. */
  ghost predicate SameLinks(t: Tree, t': Tree) {
    && (forall x :: x in t.rank <==> x in t'.rank)
    && (forall x, y :: t.Linked(x, y) <==> t'.Linked(x, y))
  }

  /** Turning the link between the root and one of its clients around. */
  lemma TurnOne(t: Tree, c: Node) returns (t': Tree)
    requires t.Valid() && c in t.host && t.host[c] == t.root
    ensures t'.Valid() && t'.root == c && SameLinks(t, t')
  {
    var far := t.rank[c] + 1;
    var host := map x | x in t.rank && x != c :: if x == t.root then c else t.host[x];
    var rank := map x | x in t.rank :: if t.Below(x, c) then t.rank[x] else t.rank[x] + far;
    t' := Tree(c, host, rank);
    RootNotBelow(t, c);
    forall x | x in host
      ensures x in rank && host[x] in rank && rank[host[x]] < rank[x]
    {
      if x != t.root {
        assert t.Below(x, c) <==> t.Below(t.host[x], c);
      }
    }
    forall x, y
      ensures t.Linked(x, y) <==> t'.Linked(x, y)
    {
    }
  }

  lemma {:induction false} RootNotBelow(t: Tree, c: Node)
    requires t.Valid() && c in t.host
    ensures !t.Below(t.root, c)
  {
  }

  /** A tree of connections can be looked at from any of its engines. */
  lemma {:induction false} SeenFrom(t: Tree, origin: Node) returns (t': Tree)
    requires t.Valid() && origin in t.rank
    ensures t'.Valid() && t'.root == origin && SameLinks(t, t')
    decreases t.rank[origin]
  {
    if origin == t.root {
      t' := t;
    } else {
      var h := t.host[origin];
      var t1 := SeenFrom(t, h);
      assert t.Linked(origin, h);
      assert t1.Linked(origin, h);
      t' := TurnOne(t1, origin);
    }
  }

  // ----- one bundle on its way

  /** How often each engine has handled the bundle, and the copies in flight, in no order. */
  datatype Flight = Flight(handled: map<Node, nat>, copies: multiset<(Node, Node)>)

  ghost function ToAllBut(t: Tree, x: Node, except: set<Node>): set<(Node, Node)> {
    set y | y in t.rank && t.Linked(x, y) && y !in except :: (x, y)
  }

  ghost function Launched(t: Tree, origin: Node): Flight {
    Flight(map x | x in t.rank :: if x == origin then 1 else 0, multiset(ToAllBut(t, origin, {})))
  }

  /** A copy arrives: the receiver handles the bundle and passes it on, but not back. */
  ghost function Arrived(t: Tree, s: Flight, m: (Node, Node)): Flight
    requires m in s.copies && m.1 in s.handled
  {
    Flight(s.handled[m.1 := s.handled[m.1] + 1], s.copies - multiset{m} + multiset(ToAllBut(t, m.1, {m.0})))
  }

  /** Where a run of arrivals leads; `possible` if each of them is of a copy in flight. */
  datatype Course = Course(possible: bool, s: Flight)

  ghost function Flown(t: Tree, origin: Node, run: seq<(Node, Node)>): Course {
    if run == [] then Course(true, Launched(t, origin))
    else
      var before, m := Flown(t, origin, run[..|run| - 1]), run[|run| - 1];
      if before.possible && m in before.s.copies && m.1 in before.s.handled then Course(true, Arrived(t, before.s, m))
      else Course(false, before.s)
  }

  /** Seen from the origin: copies only travel outwards, and each engine's share is what its host handled. */
  ghost predicate Outward(t: Tree, s: Flight) {
    && (forall x :: x in s.handled <==> x in t.rank)
    && t.root in s.handled && s.handled[t.root] == 1
    && (forall x, y :: (x, y) in s.copies ==> y in t.host && t.host[y] == x)
    && (forall y :: y in t.host ==> Shared(t, s, y))
  }

  ghost predicate Shared(t: Tree, s: Flight, y: Node) {
    && y in t.host && y in s.handled && t.host[y] in s.handled
    && s.handled[y] + s.copies[(t.host[y], y)] == s.handled[t.host[y]]
  }

  lemma SpawnCounts(t: Tree, x: Node, except: set<Node>, y: Node)
    ensures multiset(ToAllBut(t, x, except))[(x, y)] == if y in t.rank && t.Linked(x, y) && y !in except then 1 else 0
    ensures forall z, w :: z != x ==> multiset(ToAllBut(t, x, except))[(z, w)] == 0
  {
    assert (x, y) in ToAllBut(t, x, except) <==> y in t.rank && t.Linked(x, y) && y !in except;
  }

  lemma LaunchedOutward(t: Tree)
    requires t.Valid()
    ensures Outward(t, Launched(t, t.root))
  {
    var s := Launched(t, t.root);
    forall x, y | (x, y) in s.copies
      ensures y in t.host && t.host[y] == x
    {
      assert (x, y) in ToAllBut(t, t.root, {});
    }
    forall y | y in t.host
      ensures Shared(t, s, y)
    {
      var h := t.host[y];
      SpawnCounts(t, t.root, {}, y);
      if h == t.root {
        assert t.Linked(t.root, y);
      }
    }
  }

  lemma ArrivedOutward(t: Tree, s: Flight, m: (Node, Node))
    requires t.Valid() && Outward(t, s) && m in s.copies
    ensures m.1 in s.handled && Outward(t, Arrived(t, s, m))
  {
    var (x, y) := m;
    assert (x, y) in s.copies;
    var s' := Arrived(t, s, m);
    var spawn := ToAllBut(t, y, {x});
    forall a, b | (a, b) in s'.copies
      ensures b in t.host && t.host[b] == a
    {
      if (a, b) !in s.copies {
        assert (a, b) in spawn;
      }
    }
    forall z | z in t.host
      ensures Shared(t, s', z)
    {
      ArrivedShared(t, s, m, z);
    }
  }

  lemma ArrivedShared(t: Tree, s: Flight, m: (Node, Node), z: Node)
    requires t.Valid() && Outward(t, s) && m in s.copies && z in t.host && m.1 in s.handled
    ensures Shared(t, Arrived(t, s, m), z)
  {
    var (x, y) := m;
    assert (x, y) in s.copies && Shared(t, s, z);
    SpawnCounts(t, y, {x}, z);
    if t.host[z] == y {
      assert t.Linked(y, z);
    }
  }

  lemma {:induction false} RunsStayOutward(t: Tree, run: seq<(Node, Node)>)
    requires t.Valid() && Flown(t, t.root, run).possible
    ensures Outward(t, Flown(t, t.root, run).s)
  {
    if run == [] {
      LaunchedOutward(t);
    } else {
      var rest := run[..|run| - 1];
      RunsStayOutward(t, rest);
      ArrivedOutward(t, Flown(t, t.root, rest).s, run[|run| - 1]);
    }
  }

  lemma {:induction false} AtMostOnce(t: Tree, s: Flight, x: Node)
    requires t.Valid() && Outward(t, s) && x in t.rank
    ensures x in s.handled && s.handled[x] <= 1
    ensures s.copies == multiset{} ==> s.handled[x] == 1
    decreases t.rank[x]
  {
    if x != t.root {
      assert Shared(t, s, x);
      AtMostOnce(t, s, t.host[x]);
    }
  }

  // ----- what holds of any network and any origin

  lemma SpawnSame(t: Tree, t': Tree, x: Node, except: set<Node>)
    requires SameLinks(t, t')
    ensures ToAllBut(t, x, except) == ToAllBut(t', x, except)
  {
  }

  lemma {:induction false} FlownSame(t: Tree, t': Tree, origin: Node, run: seq<(Node, Node)>)
    requires SameLinks(t, t')
    ensures Flown(t, origin, run) == Flown(t', origin, run)
  {
    if run == [] {
      SpawnSame(t, t', origin, {});
      var m, m' := Launched(t, origin).handled, Launched(t', origin).handled;
      forall x | x in m ensures x in m' && m[x] == m'[x] {}
      forall x | x in m' ensures x in m {}
    } else {
      FlownSame(t, t', origin, run[..|run| - 1]);
      SpawnSame(t, t', run[|run| - 1].1, {run[|run| - 1].0});
    }
  }

  /**
   * Flooding: wherever a bundle starts and however its copies arrive, no engine handles it twice, no copy ever
   * returns to its origin, and when none is in flight any more every engine has handled it exactly once.
   */
  lemma FloodingReachesAllOnce(t: Tree, origin: Node, run: seq<(Node, Node)>)
    requires t.Valid() && origin in t.rank && Flown(t, origin, run).possible
    ensures var s := Flown(t, origin, run).s;
      && (forall x :: x in t.rank ==> x in s.handled && s.handled[x] <= 1)
      && (forall x :: (x, origin) !in s.copies)
      && origin in s.handled && s.handled[origin] == 1
      && (s.copies == multiset{} ==> forall x :: x in t.rank ==> s.handled[x] == 1)
  {
    var s := Flown(t, origin, run).s;
    var t' := SeenFrom(t, origin);
    FlownSame(t, t', origin, run);
    RunsStayOutward(t', run);
    forall x | x in t.rank
      ensures x in s.handled && s.handled[x] <= 1
      ensures s.copies == multiset{} ==> s.handled[x] == 1
    {
      AtMostOnce(t', s, x);
    }
  }
}
