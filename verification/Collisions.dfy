/**
 * Why no EngineId collision can happen: in a network of engines that flood their bundles, what arrives at one
 * engine never supplies an engine's events for a frame twice, and never its own.
 */
module Collisions {
  import opened Membership
  import opened Bundles
  import opened Replay
  import opened Agreement
  import opened Updaters
  import opened UpdaterRuns
  import opened Flooding

  /** The flights so far of every bundle that was sent, by the engine that sent it and its frame. */
  datatype Network = Network(tree: Tree, ids: map<Node, EngineId>, flights: map<(Node, int), seq<(Node, Node)>>)
  {
    ghost predicate Valid() {
      && tree.Valid() && (forall x :: x in tree.rank ==> x in ids && 0 <= ids[x])
      && (forall x, y :: x in tree.rank && y in tree.rank && ids[x] == ids[y] ==> x == y)
      && (forall k :: k in flights ==> k.0 in tree.rank && Flown(tree, k.0, flights[k]).possible)
    }

    /** How many copies of a bundle have arrived at `y`: the sender handles its own without one. */
    ghost function Arrivals(x: Node, f: int, y: Node): int {
      if (x, f) !in flights then 0
      else
        var s := Flown(tree, x, flights[(x, f)]).s;
        var handled: int := if y in s.handled then s.handled[y] else 0;
        if x == y then handled - 1 else handled
    }
  }

  datatype Parcel = Parcel(from: Node, fb: FrameBundle)

  /** A bundle has an entry of its sender, and no other. */
  ghost predicate Emitted(net: Network, p: Parcel) {
    p.from in net.tree.rank && p.from in net.ids && p.fb.bundle.Keys == {net.ids[p.from]}
  }

  ghost function Count(ps: seq<Parcel>, x: Node, f: int): nat {
    if ps == [] then 0
    else Count(ps[..|ps| - 1], x, f) + if ps[|ps| - 1].from == x && ps[|ps| - 1].fb.frame == f then 1 else 0
  }

  ghost function BundlesOf(ps: seq<Parcel>): (fbs: seq<FrameBundle>)
    ensures |fbs| == |ps| && forall i :: 0 <= i < |ps| ==> fbs[i] == ps[i].fb
  {
    if ps == [] then [] else BundlesOf(ps[..|ps| - 1]) + [ps[|ps| - 1].fb]
  }

  /** `ps` is what has arrived at `y`, in the order it arrived. */
  ghost predicate ArrivedAtNode(net: Network, y: Node, ps: seq<Parcel>) {
    && y in net.tree.rank && (forall p :: p in ps ==> Emitted(net, p))
    && forall x, f :: x in net.tree.rank ==> Count(ps, x, f) == net.Arrivals(x, f, y)
  }

  /** Flooding brings every bundle to an engine at most once, and to its sender never. */
  lemma ArrivesOnce(net: Network, x: Node, f: int, y: Node)
    requires net.Valid() && x in net.tree.rank && y in net.tree.rank
    ensures net.Arrivals(x, f, y) <= if x == y then 0 else 1
  {
    if (x, f) in net.flights {
      FloodingReachesAllOnce(net.tree, x, net.flights[(x, f)]);
    }
  }

  lemma {:induction false} TimesIsCount(net: Network, ps: seq<Parcel>, x: Node, f: int)
    requires net.Valid() && x in net.tree.rank && forall p :: p in ps ==> Emitted(net, p)
    ensures Times(BundlesOf(ps), f, net.ids[x]) == Count(ps, x, f)
  {
    if ps != [] {
      var rest, last := ps[..|ps| - 1], ps[|ps| - 1];
      assert ps == rest + [last] && last in ps;
      TimesIsCount(net, rest, x, f);
      assert net.ids[x] in last.fb.bundle <==> last.from == x;
      var fbs := BundlesOf(rest);
      assert (fbs + [last.fb])[..|fbs|] == fbs;
    }
  }

  lemma NamedBySender(net: Network, ps: seq<Parcel>, f: int, id: EngineId) returns (x: Node)
    requires forall p :: p in ps ==> Emitted(net, p)
    requires Times(BundlesOf(ps), f, id) > 0
    ensures x in net.tree.rank && x in net.ids && net.ids[x] == id
  {
    var i := TimesFound(BundlesOf(ps), f, id);
    assert ps[i] in ps;
    x := ps[i].from;
  }

  lemma TimesArrived(net: Network, y: Node, ps: seq<Parcel>, f: int, id: EngineId)
    requires net.Valid() && ArrivedAtNode(net, y, ps)
    ensures Times(BundlesOf(ps), f, id) <= if id == net.ids[y] then 0 else 1
  {
    if Times(BundlesOf(ps), f, id) > 0 {
      var x := NamedBySender(net, ps, f, id);
      TimesIsCount(net, ps, x, f);
      ArrivesOnce(net, x, f, y);
    }
  }

  /** What arrives at an engine is once per engine and frame, and never in its own name. */
  lemma ArrivalsNeverCollide(net: Network, y: Node, ps: seq<Parcel>)
    requires net.Valid() && ArrivedAtNode(net, y, ps)
    ensures OncePerEngine(BundlesOf(ps))
    ensures forall fb :: fb in BundlesOf(ps) ==> Foreign(fb, net.ids[y])
  {
    OnceByCount(BundlesOf(ps));
    forall f, id ensures OnceAt(BundlesOf(ps), f, id) {
      TimesArrived(net, y, ps, f, id);
    }
    forall fb | fb in BundlesOf(ps)
      ensures Foreign(fb, net.ids[y])
    {
      var i :| 0 <= i < |ps| && ps[i].fb == fb;
      assert ps[i] in ps;
      if net.ids[y] in fb.bundle {
        TimesArrived(net, y, ps, fb.frame, net.ids[y]);
        TimesSome(BundlesOf(ps), i, fb.frame, net.ids[y]);
      }
    }
  }

  lemma {:induction false} MergedTimes(fbs: seq<FrameBundle>, f: int, id: EngineId)
    ensures id in At(MergeAll(map[], fbs), f) <==> Times(fbs, f, id) > 0
  {
    if fbs != [] {
      MergedTimes(fbs[..|fbs| - 1], f, id);
    }
  }

  lemma BundlesOfAppend(a: seq<Parcel>, b: seq<Parcel>)
    ensures BundlesOf(a + b) == BundlesOf(a) + BundlesOf(b)
  {
  }

  /** Besides its own bundles, an updater was handed exactly `earlier`, in whatever order and groups. */
  ghost predicate Handed(h: History, id: EngineId, earlier: seq<FrameBundle>) {
    exists fbs :: h.delivered == MergeAll(map[], fbs) && SameOthers(fbs, earlier, id)
  }

  ghost predicate SameOthers(fbs: seq<FrameBundle>, earlier: seq<FrameBundle>, id: EngineId) {
    forall f, k :: k != id ==> Times(fbs, f, k) == Times(earlier, f, k)
  }

  lemma PartsAreOnce(before: seq<FrameBundle>, now: seq<FrameBundle>)
    requires OncePerEngine(before + now)
    ensures OncePerEngine(now)
    ensures forall fb, k :: fb in now && k in fb.bundle ==> Times(before, fb.frame, k) == 0
  {
    OnceByCount(before + now);
    OnceByCount(now);
    forall f, k ensures OnceAt(now, f, k) {
      assert OnceAt(before + now, f, k);
      TimesAppend(before, now, f, k);
    }
    forall fb, k | fb in now && k in fb.bundle
      ensures Times(before, fb.frame, k) == 0
    {
      var i :| 0 <= i < |now| && now[i] == fb;
      assert OnceAt(before + now, fb.frame, k);
      TimesAppend(before, now, fb.frame, k);
      TimesSome(now, i, fb.frame, k);
    }
  }

  lemma NotHandedBefore(h: History, id: EngineId, earlier: seq<FrameBundle>, f: int, k: EngineId)
    requires Handed(h, id, earlier) && k != id && Times(earlier, f, k) == 0
    ensures k !in At(h.delivered, f)
  {
    var fbs :| h.delivered == MergeAll(map[], fbs) && SameOthers(fbs, earlier, id);
    assert Times(fbs, f, k) == Times(earlier, f, k);
    MergedTimes(fbs, f, k);
  }

  /**
   * The collision panic is unreachable: if what arrives at an engine is handed to its updater group by group,
   * then each group is one the handler takes without panicking, as long as it is in bounds.
   */
  lemma CollisionsAreUnreachable(net: Network, y: Node, earlier: seq<Parcel>, group: seq<Parcel>, h: History, n: nat)
    requires net.Valid() && ArrivedAtNode(net, y, earlier + group) && Recorded(h)
    requires Handed(h, net.ids[y], BundlesOf(earlier))
    requires forall fb :: fb in BundlesOf(group) ==> fb.frame < h.start + n
    ensures Deliverable(h, n, net.ids[y], BundlesOf(group))
  {
    var id, before, now := net.ids[y], BundlesOf(earlier), BundlesOf(group);
    BundlesOfAppend(earlier, group);
    ArrivalsNeverCollide(net, y, earlier + group);
    assert forall fb :: fb in now ==> fb in before + now;
    PartsAreOnce(before, now);
    forall fb, k | fb in now && k in fb.bundle
      ensures k !in At(h.delivered, fb.frame)
    {
      assert Foreign(fb, id);
      NotHandedBefore(h, id, before, fb.frame, k);
    }
    OnceDeliveredIsDeliverable(h, n, id, now);
  }
}
