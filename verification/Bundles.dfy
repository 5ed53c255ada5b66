/** Event bundles: core/event.go. */
module Bundles {
  import opened Collections
  import opened Membership

  type Event(!new)

  datatype AllEvents = AllEvents(game: seq<Event>, engine: seq<EngineEvent>)

  type Bundle = map<EngineId, AllEvents>

  datatype FrameBundle = FrameBundle(frame: int, bundle: Bundle)

  const NO_EVENTS := AllEvents([], [])

  /** Indexing a Go map with an absent key yields the zero value. */
  function Lookup(b: Bundle, id: EngineId): AllEvents {
    if id in b then b[id] else NO_EVENTS
  }

  ghost predicate SubBundle(b: Bundle, t: Bundle) {
    forall id :: id in b ==> id in t && b[id] == t[id]
  }

  ghost predicate Identified(b: Bundle) {
    forall id :: id in b ==> 0 <= id
  }

  // ----- ascending enumeration, the reference order

  ghost function Max(s: set<int>): (m: int)
    requires s != {}
    ensures m in s && forall k :: k in s ==> k <= m
  {
    var x := Pick(s);
    if s == {x} then x
    else
      var y := Max(s - {x});
      assert forall k :: k in s ==> k == x || k in s - {x};
      if x < y then y else x
  }

  ghost function Ascending(s: set<int>): seq<int>
    decreases |s|
  {
    if s == {} then [] else var m := Max(s); Ascending(s - {m}) + [m]
  }

  lemma {:induction false} AscendingEnumerates(s: set<int>)
    ensures |Ascending(s)| == |s|
    ensures forall k :: k in Ascending(s) <==> k in s
    ensures forall i, j :: 0 <= i < j < |s| ==> Ascending(s)[i] < Ascending(s)[j]
    decreases |s|
  {
    if s != {} {
      var m := Max(s);
      AscendingEnumerates(s - {m});
      var p := Ascending(s - {m});
      assert Ascending(s) == p + [m];
      forall i, j | 0 <= i < j < |s|
        ensures Ascending(s)[i] < Ascending(s)[j]
      {
        assert p[i] in p;
      }
    }
  }

  lemma AscendingSnoc(s: set<int>, m: int)
    requires forall k :: k in s ==> k < m
    ensures Ascending(s + {m}) == Ascending(s) + [m]
  {
    assert Max(s + {m}) == m;
    assert s + {m} - {m} == s;
  }

  // ----- what `each` computes, for any keys

  ghost predicate IsNextAbove(keys: set<int>, max: int, cur: int) {
    if exists k :: k in keys && k > max then
      cur in keys && cur > max && forall k :: k in keys && k > max ==> cur <= k
    else cur == -1
  }

  lemma {:induction false} NextAboveExists(keys: set<int>, max: int)
    ensures exists cur :: IsNextAbove(keys, max, cur)
    decreases |keys|
  {
    if keys == {} {
      assert IsNextAbove(keys, max, -1);
    } else {
      var x := Pick(keys);
      var rest := keys - {x};
      NextAboveExists(rest, max);
      var cur :| IsNextAbove(rest, max, cur);
      assert forall k :: k in keys ==> k == x || k in rest;
      if x > max && (!(exists k :: k in rest && k > max) || x < cur) {
        assert IsNextAbove(keys, max, x);
      } else {
        assert IsNextAbove(keys, max, cur);
      }
    }
  }

  /** The least key above `max`, or the sentinel -1. */
  ghost function NextAbove(keys: set<int>, max: int): (cur: int)
    ensures IsNextAbove(keys, max, cur)
  {
    NextAboveExists(keys, max);
    var cur :| IsNextAbove(keys, max, cur);
    cur
  }

  ghost function LastOr(order: seq<int>): int {
    if order == [] then -1 else order[|order| - 1]
  }

  ghost function EachOrder(keys: set<int>, n: nat): (order: seq<int>)
    ensures |order| == n
  {
    if n == 0 then []
    else var order := EachOrder(keys, n - 1); order + [NextAbove(keys, LastOr(order))]
  }

  ghost predicate AtMost(keys: set<int>, bound: int, s: set<int>) {
    forall k :: k in s <==> k in keys && k <= bound
  }

  lemma {:induction false} EachPrefix(keys: set<int>, n: nat) returns (s: set<int>)
    requires forall k :: k in keys ==> 0 <= k
    requires n <= |keys|
    ensures |s| == n && AtMost(keys, LastOr(EachOrder(keys, n)), s)
    ensures EachOrder(keys, n) == Ascending(s)
    decreases n
  {
    if n == 0 {
      s := {};
    } else {
      var p := EachPrefix(keys, n - 1);
      var last := LastOr(EachOrder(keys, n - 1));
      var cur := NextAbove(keys, last);
      MoreAbove(keys, last, p);
      s := p + {cur};
      AscendingSnoc(p, cur);
    }
  }

  lemma MoreAbove(keys: set<int>, bound: int, s: set<int>)
    requires AtMost(keys, bound, s) && |s| < |keys|
    ensures exists k :: k in keys && k > bound
    ensures var cur := NextAbove(keys, bound);
      cur in keys && cur > bound && AtMost(keys, cur, s + {cur}) && |s + {cur}| == |s| + 1
  {
    if forall k :: k in keys ==> k <= bound {
      SubsetSize(keys, s);
    }
  }

  lemma {:induction false} EachYields(keys: set<int>, n: nat, i: nat)
    requires i < n
    ensures EachOrder(keys, n)[i] == -1 || (EachOrder(keys, n)[i] in keys && EachOrder(keys, n)[i] >= 0)
    decreases n
  {
    var order := EachOrder(keys, n - 1);
    if i < n - 1 {
      EachYields(keys, n - 1, i);
    } else if n > 1 {
      EachYields(keys, n - 1, n - 2);
    }
  }

  lemma EachAscends(keys: set<int>)
    requires forall k :: k in keys ==> 0 <= k
    ensures EachOrder(keys, |keys|) == Ascending(keys)
  {
    var s := EachPrefix(keys, |keys|);
    SubsetSize(s, keys);
  }

  /** With a negative id among others, the sentinel leaks or a key is skipped. */
  lemma EachStumbles(keys: set<int>, bad: int, other: int)
    requires bad in keys && bad < 0 && other in keys && other != bad
    ensures EachOrder(keys, |keys|) != Ascending(keys)
  {
    AscendingEnumerates(keys);
    var order := EachOrder(keys, |keys|);
    if order == Ascending(keys) {
      EachMeets(keys, bad);
      EachMeets(keys, other);
      EachHead(keys, |keys|);
      assert false;
    }
  }

  lemma EachMeets(keys: set<int>, k: int)
    requires k in keys && EachOrder(keys, |keys|) == Ascending(keys)
    ensures k >= -1
  {
    AscendingEnumerates(keys);
    var i :| 0 <= i < |keys| && Ascending(keys)[i] == k;
    EachYields(keys, |keys|, i);
  }

  lemma EachOfSentinel(bad: int)
    requires bad < 0
    ensures EachOrder({bad}, 1) == [-1] && Ascending({bad}) == [bad]
  {
    assert EachOrder({bad}, 0) == [];
    assert NextAbove({bad}, -1) == -1;
    assert {bad} - {bad} == {};
    assert Ascending({}) == [];
    assert Max({bad}) == bad;
  }

  /**
   * `each` enumerates the keys in strictly ascending order exactly when every id is non-negative, but for
   * the one bundle whose only id happens to be the sentinel.
   */
  lemma EachIsAscending(keys: set<int>)
    ensures EachOrder(keys, |keys|) == Ascending(keys) <==> (forall k :: k in keys ==> 0 <= k) || keys == {-1}
  {
    if forall k :: k in keys ==> 0 <= k {
      EachAscends(keys);
    } else {
      var bad :| bad in keys && bad < 0;
      if other :| other in keys && other != bad {
        EachStumbles(keys, bad, other);
      } else {
        forall k | k in keys ensures k in {bad} {}
        EachOfSentinel(bad);
      }
    }
  }

  lemma {:induction false} EachHead(keys: set<int>, n: nat)
    requires 1 <= n
    ensures EachOrder(keys, n)[0] == NextAbove(keys, -1)
  {
    if n == 1 {
      assert EachOrder(keys, 0) == [];
    } else {
      EachHead(keys, n - 1);
    }
  }

  // ----- folds over an enumeration

  ghost function FoldEngine(b: Bundle, order: seq<EngineId>, members: set<EngineId>): set<EngineId> {
    if order == [] then members
    else AppliedAll(Lookup(b, order[|order| - 1]).engine, FoldEngine(b, order[..|order| - 1], members))
  }

  lemma FoldEngineSnoc(b: Bundle, order: seq<EngineId>, id: EngineId, members: set<EngineId>)
    ensures FoldEngine(b, order + [id], members) == AppliedAll(Lookup(b, id).engine, FoldEngine(b, order, members))
  {
    assert (order + [id])[..|order|] == order;
  }

  /** Some engine's events for the frame say that `id` joined. */
  ghost predicate SaysJoined(b: Bundle, id: EngineId) {
    exists k :: k in b && EngineJoined(id) in b[k].engine
  }

  ghost predicate JoinAmong(b: Bundle, ids: seq<EngineId>, id: EngineId) {
    exists k :: k in ids && EngineJoined(id) in Lookup(b, k).engine
  }

  lemma JoinAmongSnoc(b: Bundle, ids: seq<EngineId>, k: EngineId, id: EngineId)
    ensures JoinAmong(b, ids + [k], id) <==> JoinAmong(b, ids, id) || EngineJoined(id) in Lookup(b, k).engine
  {
    if JoinAmong(b, ids, id) {
      var j :| j in ids && EngineJoined(id) in Lookup(b, j).engine;
      assert j in ids + [k];
    }
    assert k in ids + [k];
  }

  lemma JoinAmongAll(b: Bundle, ids: seq<EngineId>, id: EngineId)
    requires forall k :: k in ids <==> k in b
    ensures JoinAmong(b, ids, id) <==> SaysJoined(b, id)
  {
    if SaysJoined(b, id) {
      var k :| k in b && EngineJoined(id) in b[k].engine;
      assert k in ids;
    }
  }

  lemma JoinAmongEach(b: Bundle, id: EngineId)
    requires Identified(b)
    ensures JoinAmong(b, EachOrder(b.Keys, |b|), id) <==> SaysJoined(b, id)
  {
    EachAscends(b.Keys);
    AscendingEnumerates(b.Keys);
    JoinAmongAll(b, Ascending(b.Keys), id);
  }

  /** An engine that nothing drops is a member afterwards iff it was one or is joined, in any order. */
  lemma {:induction false} FoldUndropped(b: Bundle, order: seq<EngineId>, members: set<EngineId>, id: EngineId)
    requires forall k :: k in order ==> EngineDropped(id) !in Lookup(b, k).engine
    ensures id in FoldEngine(b, order, members) <==> id in members || JoinAmong(b, order, id)
  {
    if order != [] {
      var rest, last := order[..|order| - 1], order[|order| - 1];
      assert order == rest + [last];
      FoldUndropped(b, rest, members, id);
      JoinAmongSnoc(b, rest, last, id);
      UndroppedMember(Lookup(b, last).engine, FoldEngine(b, rest, members), id);
    }
  }

  /** Ids without engine events do not matter to the membership fold. */
  lemma {:induction false} FoldEngineSkips(b: Bundle, t: Bundle, some: set<EngineId>, all: set<EngineId>,
                                           members: set<EngineId>)
    requires some <= all
    requires forall id :: id in some ==> Lookup(b, id).engine == Lookup(t, id).engine
    requires forall id :: id in all && id !in some ==> Lookup(t, id).engine == []
    ensures FoldEngine(b, Ascending(some), members) == FoldEngine(t, Ascending(all), members)
    decreases |all|
  {
    if all != {} {
      var m := Max(all);
      FoldEngineSnoc(t, Ascending(all - {m}), m, members);
      if m in some {
        assert Max(some) == m;
        FoldEngineSnoc(b, Ascending(some - {m}), m, members);
        FoldEngineSkips(b, t, some - {m}, all - {m}, members);
      } else {
        FoldEngineSkips(b, t, some, all - {m}, members);
      }
    }
  }

  lemma SameMap(a: Bundle, b: Bundle)
    requires forall k :: k in a <==> k in b
    requires forall k :: k in a ==> k in b && a[k] == b[k]
    ensures a == b
  {
    forall k | k in a ensures k in b && a[k] == b[k] {}
    forall k | k in b ensures k in a {}
  }

  // ----- the bundle object

  datatype Visit = Visit(id: EngineId, events: AllEvents)

  class EventBundle {
    var entries: Bundle

    constructor ()
      ensures entries == map[]
    {
      entries := map[];
    }

    constructor Of(entries: Bundle)
      ensures this.entries == entries
    {
      this.entries := entries;
    }

    /** `ok` is false where the source panics on an EngineId collision. */
    method AbsorbEventBundle(other: Bundle) returns (ok: bool)
      modifies this
      ensures ok <==> forall k :: k in other ==> k !in old(entries)
      ensures ok ==> entries == old(entries) + other
      ensures !ok ==> SubBundle(old(entries), entries)
    {
      var todo := other.Keys;
      while todo != {}
        invariant forall k :: k in todo ==> k in other
        invariant forall k :: k in entries <==> k in old(entries) || (k in other && k !in todo)
        invariant forall k :: k in old(entries) ==> entries[k] == old(entries)[k]
        invariant forall k :: k in other && k !in todo ==> k !in old(entries) && entries[k] == other[k]
        decreases |todo|
      {
        ghost var some := Pick(todo);
        var k :| k in todo;
        if k in entries {
          assert k in old(entries).Keys && k in other.Keys;
          return false;
        }
        entries := entries[k := other[k]];
        todo := todo - {k};
      }
      SameMap(entries, old(entries) + other);
      ok := true;
    }

    /** The calls the callback receives, in order. */
    method Each() returns (visits: seq<Visit>)
      ensures |visits| == |entries|
      ensures forall i :: 0 <= i < |visits| ==>
        var id := EachOrder(entries.Keys, |entries|)[i]; visits[i] == Visit(id, Lookup(entries, id))
      ensures Identified(entries) ==> Ascends(entries, visits)
    {
      visits := [];
      ghost var order: seq<EngineId> := [];
      var max := -1;
      ghost var keys := entries.Keys;
      var i := 0;
      while i < |entries|
        invariant 0 <= i <= |entries| && |visits| == i && max >= -1
        invariant order == EachOrder(keys, i) && max == LastOr(order)
        invariant forall j :: 0 <= j < i ==> visits[j] == Visit(order[j], Lookup(entries, order[j]))
      {
        var cur := -1;
        var todo := entries.Keys;
        while todo != {}
          invariant todo <= keys
          invariant IsNextAbove(keys - todo, max, cur)
          decreases |todo|
        {
          ghost var some := Pick(todo);
          var k :| k in todo;
          ghost var seen := keys - todo;
          todo := todo - {k};
          assert forall j :: j in keys - todo <==> j in seen || j == k;
          if k > max && (k < cur || cur == -1) {
            assert cur == -1 ==> forall j :: j in seen ==> j <= max;
            cur := k;
          }
        }
        assert keys - todo == keys;
        assert cur == NextAbove(keys, max);
        max := cur;
        order := order + [max];
        visits := visits + [Visit(max, if cur in entries then entries[cur] else AllEvents([], []))];
        i := i + 1;
      }
      if Identified(entries) {
        EachVisits(entries, visits);
      }
    }
  }

  /** Every key is visited, once, with its events, and in ascending order. */
  ghost predicate Ascends(b: Bundle, visits: seq<Visit>) {
    && (forall i, j :: 0 <= i < j < |visits| ==> visits[i].id < visits[j].id)
    && (forall i :: 0 <= i < |visits| ==> visits[i].id in b && visits[i].events == b[visits[i].id])
    && (forall k :: k in b ==> exists i :: 0 <= i < |visits| && visits[i].id == k)
  }

  lemma EachVisits(b: Bundle, visits: seq<Visit>)
    requires Identified(b) && |visits| == |b|
    requires forall i :: 0 <= i < |visits| ==>
      var id := EachOrder(b.Keys, |b|)[i]; visits[i] == Visit(id, Lookup(b, id))
    ensures Ascends(b, visits)
  {
    EachAscends(b.Keys);
    AscendingEnumerates(b.Keys);
    var order := Ascending(b.Keys);
    forall i | 0 <= i < |visits| ensures visits[i].id == order[i] && order[i] in b {
      assert order[i] in order;
    }
    forall k | k in b ensures exists i :: 0 <= i < |visits| && visits[i].id == k {
      var i :| 0 <= i < |order| && order[i] == k;
      assert visits[i].id == k;
    }
  }

  /** The scan a bootstrapping updater makes for its own arrival. */
  method ScanForJoin(bundle: Bundle, id: EngineId) returns (joined: bool)
    requires Identified(bundle)
    ensures joined <==> SaysJoined(bundle, id)
  {
    var entries := new EventBundle.Of(bundle);
    var visits := entries.Each();
    ghost var order := EachOrder(bundle.Keys, |bundle|);
    joined := false;
    var i := 0;
    while i < |visits|
      invariant i <= |visits| == |order|
      invariant joined <==> JoinAmong(bundle, order[..i], id)
    {
      JoinAmongSnoc(bundle, order[..i], order[i], id);
      assert order[..i + 1] == order[..i] + [order[i]];
      if EngineJoined(id) in visits[i].events.engine {
        joined := true;
      }
      i := i + 1;
    }
    assert order[..i] == order;
    JoinAmongEach(bundle, id);
  }
}
