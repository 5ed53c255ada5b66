/** Where the theorems stop: inputs on which the code does not do what it is for, and exactly when it does. */
module Hypotheses {
  import opened Collections
  import opened Membership
  import opened Bundles
  import opened Replay
  import opened Agreement
  import opened Rewind
  import opened Updaters
  import opened Runs

  // ----- ungoverned engine events

  /** Two members on frame 1: `a` drops `b`, and `b`'s own events drop `a`. */
  function FeudA(b: EngineId): Bundle {
    map[1 := AllEvents([], [EngineDropped(b)])]
  }

  ghost function Feud(): Bundle {
    map[1 := AllEvents([], [EngineDropped(2)]), 2 := AllEvents([], [EngineDropped(1)])]
  }

  lemma FeudSteps(rules: Rules, game: State)
    ensures Step(rules, World({1, 2}, game), FeudA(2)).members == {1}
    ensures Step(rules, World({1, 2}, game), Feud()).members == {}
  {
    assert Ascending({}) == [];
    assert {1} - {1} == {} && {1, 2} - {2} == {1};
    assert Max({1}) == 1 && Max({1, 2}) == 2;
    assert Ascending({1}) == [] + [1];
    assert Ascending({1, 2}) == Ascending({1}) + [2];
    assert FeudA(2).Keys == {1} && Feud().Keys == {1, 2};
    OneEvent(EngineDropped(2), {1, 2});
    OneEvent(EngineDropped(1), {1});
    FoldEngineSnoc(FeudA(2), [], 1, {1, 2});
    FoldEngineSnoc(Feud(), [], 1, {1, 2});
    FoldEngineSnoc(Feud(), [1], 2, {1, 2});
    assert {1, 2} - {2} == {1} && {1} - {1} == {};
  }

  lemma OneEvent(e: EngineEvent, members: set<EngineId>)
    ensures AppliedAll([e], members) == Applied(e, members)
  {
    assert [e][..0] == [];
  }

  /**
   * If a dropped engine emits engine events itself, updaters can disagree about a final frame: the one that
   * has only the dropper's bundle finalises early. Both records are one step of a handler away from the start.
   */
  lemma UngovernedUpdatersDisagree(rules: Rules, game: State)
    ensures var o := Origin(rules, 0, World({1, 2}, game), false);
      exists h1, h2 ::
        && StepsTo(Unplayed(o), [FrameBundle(1, FeudA(2))], h1) && StepsTo(Unplayed(o), [FrameBundle(1, Feud())], h2)
        && h1.start == h2.start == 1 && h1.WorldAt(1).members != h2.WorldAt(1).members
    ensures SubBundle(FeudA(2), Feud())
  {
    var o := Origin(rules, 0, World({1, 2}, game), false);
    FeudSteps(rules, game);
    var h1 := OneStep(o, FeudA(2));
    var h2 := OneStep(o, Feud());
    assert 1 in h1.WorldAt(1).members && 1 !in h2.WorldAt(1).members;
  }

  /** A bundle that completes the first frame makes it final in one step. */
  lemma OneStep(o: Origin, b: Bundle) returns (h: History)
    requires !o.placeholder && Complete(Step(o.rules, o.world, b), b)
    ensures StepsTo(Unplayed(o), [FrameBundle(o.frame + 1, b)], h)
    ensures h.origin == o && h.start == o.frame + 1
    ensures h.WorldAt(o.frame + 1) == Step(o.rules, o.world, b)
  {
    h := Continued(Unplayed(o), b);
    ContinuedOnce(Unplayed(o), b);
  }

  // ----- exactly which tables are safe

  ghost predicate CompleteOn(members: set<EngineId>, b: Bundle) {
    forall id :: id in MembersAfter(members, b) ==> id in b
  }

  /** Whatever part of the frame's events is enough for completeness leaves the same members as all of them. */
  ghost predicate Indifferent(members: set<EngineId>, t: Bundle) {
    forall b :: SubBundle(b, t) && CompleteOn(members, b) ==> MembersAfter(members, b) == MembersAfter(members, t)
  }

  ghost predicate PartsSuffice(rules: Rules, w: World, t: Bundle) {
    forall b :: SubBundle(b, t) && Complete(Step(rules, w, b), b) ==> Step(rules, w, b) == Step(rules, w, t)
  }

  /** Only the members decide whether a part of a frame's events is enough; the game never does. */
  lemma PartIsEnoughExactly(rules: Rules, w: World, t: Bundle)
    ensures PartsSuffice(rules, w, t) <==> Indifferent(w.members, t)
  {
    forall b | SubBundle(b, t)
      ensures Complete(Step(rules, w, b), b) <==> CompleteOn(w.members, b)
      ensures CompleteOn(w.members, b) ==>
        (Step(rules, w, b) == Step(rules, w, t) <==> MembersAfter(w.members, b) == MembersAfter(w.members, t))
    {
      assert Step(rules, w, b).members == MembersAfter(w.members, b);
      if CompleteOn(w.members, b) {
        SameMembersSameStep(rules, w, b, t);
      }
    }
  }

  /** Governance is a way to be safe that can be read off the events; it is not the only one. */
  lemma GovernedIsIndifferent(rules: Rules, game: State, members: set<EngineId>, t: Bundle)
    requires GovernedStep(members, t)
    ensures Indifferent(members, t)
  {
    var w := World(members, game);
    forall b | SubBundle(b, t) && Complete(Step(rules, w, b), b)
      ensures Step(rules, w, b) == Step(rules, w, t)
    {
      PartIsEnough(rules, w, b, t);
    }
    PartIsEnoughExactly(rules, w, t);
  }

  function SelfDrop(id: EngineId): Bundle {
    map[id := AllEvents([], [EngineDropped(id)])]
  }

  /** An engine that drops itself is not governed, and does no harm. */
  lemma SelfDropIsHarmless(id: EngineId)
    ensures !GovernedStep({id}, SelfDrop(id)) && Indifferent({id}, SelfDrop(id))
  {
    var t := SelfDrop(id);
    assert EngineDropped(id) in t[id].engine;
    assert !NeverDropped(t, id);
    forall b | SubBundle(b, t)
      ensures CompleteOn({id}, b) ==> b == t
    {
      if id in b {
        SameBundle(b, t);
      } else {
        NothingIsIncomplete(id, b);
      }
    }
  }

  lemma NothingIsIncomplete(id: EngineId, b: Bundle)
    requires SubBundle(b, SelfDrop(id)) && id !in b
    ensures !CompleteOn({id}, b)
  {
    if b.Keys != {} {
      var k := Pick(b.Keys);
      assert false;
    }
    assert Ascending({}) == [];
    assert id in MembersAfter({id}, b);
  }

  lemma SameBundle(b: Bundle, t: Bundle)
    requires SubBundle(b, t) && forall k :: k in t ==> k in b
    ensures b == t
  {
    forall k | k in b ensures k in t && b[k] == t[k] {}
    forall k | k in t ensures k in b {}
  }

  // ----- runs that an updater can take

  /** The newest frame the engine has sent its own bundle for. */
  ghost function OwnFrame(groups: seq<seq<FrameBundle>>, id: EngineId, first: int): int {
    if groups == [] then first
    else
      var last := groups[|groups| - 1];
      if |last| == 1 && id in last[0].bundle then last[0].frame else OwnFrame(groups[..|groups| - 1], id, first)
  }

  /**
   * What comes next is a remote group, or a bundle of the updater's own engine, one frame after the other, if it
   * started the game. In a window of `n` slots it is in bounds.
   */
  ghost predicate Takes(h: History, before: seq<seq<FrameBundle>>, n: nat, id: EngineId, group: seq<FrameBundle>) {
    Deliverable(h, n, id, group) || TakesOwn(h, before, n, id, group)
  }

  ghost predicate TakesOwn(h: History, before: seq<seq<FrameBundle>>, n: nat, id: EngineId, group: seq<FrameBundle>) {
    && !h.origin.placeholder && |group| == 1 && group[0].bundle.Keys == {id}
    && LocalOk(h, id, OwnFrame(before, id, h.origin.frame), 0, n, group[0])
  }

  ghost predicate TakenAt(r: Run, n: nat, id: EngineId, i: int)
    requires 0 <= i < |r.groups| && |r.states| == |r.groups| + 1
  {
    Takes(r.states[i], r.groups[..i], n, id, r.groups[i])
  }

  /** A run of an updater with everything from the table. */
  ghost predicate OfTable(r: Run, o: Origin, table: Log, n: nat, id: EngineId) {
    && r.Valid() && r.origin == o && FromTable(r.Schedule(), table)
    && forall i :: 0 <= i < |r.groups| ==> TakenAt(r, n, id, i)
  }

  lemma RunNext(r: Run, o: Origin, table: Log, n: nat, id: EngineId, group: seq<FrameBundle>, h: History)
    returns (r': Run)
    requires OfTable(r, o, table, n, id) && FromTable(group, table)
    requires Takes(r.Last(), r.groups, n, id, group) && StepsTo(r.Last(), group, h)
    ensures r' == Run(o, r.groups + [group], r.states + [h])
    ensures OfTable(r', o, table, n, id) && r'.Last() == h
  {
    r' := Run(o, r.groups + [group], r.states + [h]);
    assert r'.groups[..|r.groups|] == r.groups;
    forall i | 0 <= i < |r'.groups|
      ensures LinkedAt(r'.groups, r'.states, i) && TakenAt(r', n, id, i)
    {
      if i < |r.groups| {
        assert LinkedAt(r.groups, r.states, i) && TakenAt(r, n, id, i);
        assert r'.groups[..i] == r.groups[..i];
      }
    }
  }

  /** The record after a part `b` of the events of the frame above the start. */
  ghost function Continued(h: History, b: Bundle): History
    requires h.origin.frame <= h.start
  {
    var f := h.start + 1;
    var h' := Deliver(h, FrameBundle(f, b));
    h'.(start := if CompleteOn(h.WorldAt(h.start).members, At(h'.used, f)) then f else h.start)
  }

  /** Nothing is known beyond the frame above the start. */
  ghost predicate AtEdge(h: History) {
    h.origin.frame <= h.start && h.global <= h.start + 1 && forall g :: h.start + 1 < g ==> g !in h.used
  }

  lemma ContinuedWorlds(h: History, b: Bundle)
    requires AtEdge(h)
    ensures var f, h1 := h.start + 1, Deliver(h, FrameBundle(h.start + 1, b));
      && At(h1.used, f) == b + At(h.used, f) && h1.global == f && h1.start == h.start && h1.origin == h.origin
      && Replayed(h.origin, h1.used, h.start) == h.WorldAt(h.start)
      && Replayed(h.origin, h1.used, f) == Step(h.origin.rules, h.WorldAt(h.start), At(h1.used, f))
      && (CompleteFrame(h.origin, h1.used, f) <==> CompleteOn(h.WorldAt(h.start).members, At(h1.used, f)))
  {
    var f, h1 := h.start + 1, Deliver(h, FrameBundle(h.start + 1, b));
    forall g | h.origin.frame < g <= h.start
      ensures (g in h.used <==> g in h1.used) && At(h.used, g) == At(h1.used, g)
    {
    }
    ReplayLocal(h.origin, h.used, h1.used, h.start);
    assert f in h1.used;
  }

  lemma ContinuedSteps(h: History, b: Bundle)
    requires AtEdge(h)
    ensures var f, h' := h.start + 1, Continued(h, b);
      && StepsTo(h, [FrameBundle(f, b)], h') && AtEdge(h') && f + 1 !in h'.used
      && At(h'.used, f) == b + At(h.used, f)
      && h'.WorldAt(h'.start) == if h'.start == f then Step(h.origin.rules, h.WorldAt(h.start), At(h'.used, f))
                                 else h.WorldAt(h.start)
  {
    var fb, h' := FrameBundle(h.start + 1, b), Continued(h, b);
    ContinuedWorlds(h, b);
    assert [fb][..0] == [] && DeliverAll(h, [fb]) == Deliver(DeliverAll(h, []), fb);
    assert CompleteUpTo(h.origin, h'.used, h.start, h.start);
  }

  /** A run that knows nothing above its newest final frame `f`. */
  ghost predicate Edge(r: Run, o: Origin, table: Log, n: nat, id: EngineId, f: int) {
    && OfTable(r, o, table, n, id) && AtEdge(r.Last()) && OwnFrame(r.groups, id, o.frame) <= f
    && r.Last().origin == o && r.Last().start == f && f + 1 !in r.Last().used
  }

  /** The updater's engine has a part in the frame only if it started the game. */
  ghost predicate FitsFrame(o: Origin, id: EngineId, t: Bundle) {
    Identified(t) && (id in t ==> !o.placeholder && 0 <= o.frame)
  }

  /** One step of such a run: the part of the next frame's events that is the engine's own, or one that is not. */
  lemma TakePart(r: Run, o: Origin, table: Log, n: nat, id: EngineId, b: Bundle) returns (r': Run)
    requires OfTable(r, o, table, n, id) && AtEdge(r.Last()) && r.Last().origin == o && 2 <= n
    requires SubBundle(b, At(table, r.Last().start + 1)) && FitsFrame(o, id, At(table, r.Last().start + 1))
    requires forall k :: k in b ==> k !in At(r.Last().used, r.Last().start + 1)
    requires id !in b || (b.Keys == {id} && OwnFrame(r.groups, id, o.frame) <= r.Last().start)
    ensures OfTable(r', o, table, n, id) && r'.Last() == Continued(r.Last(), b)
    ensures OwnFrame(r'.groups, id, o.frame)
         == if id in b then r.Last().start + 1 else OwnFrame(r.groups, id, o.frame)
  {
    var fb := FrameBundle(r.Last().start + 1, b);
    PartIsTaken(r.Last(), r.groups, n, id, b, At(table, fb.frame));
    ContinuedSteps(r.Last(), b);
    r' := RunNext(r, o, table, n, id, [fb], Continued(r.Last(), b));
    OwnFrameNext(r.groups, fb, id, o.frame);
  }

  lemma OneDeliverable(h: History, n: nat, id: EngineId, fb: FrameBundle)
    requires Foreign(fb, id) && Acceptable(h, n, fb)
    ensures Deliverable(h, n, id, [fb])
  {
    forall i | 0 <= i < |[fb]| ensures DeliverableAt(h, n, id, [fb], i) {
      assert [fb][..i] == [];
    }
  }

  lemma PartIsTaken(h: History, before: seq<seq<FrameBundle>>, n: nat, id: EngineId, b: Bundle, t: Bundle)
    requires h.origin.frame <= h.start && 2 <= n && SubBundle(b, t) && FitsFrame(h.origin, id, t)
    requires forall k :: k in b ==> k !in At(h.used, h.start + 1)
    requires id !in b || (b.Keys == {id} && OwnFrame(before, id, h.origin.frame) <= h.start)
    ensures Takes(h, before, n, id, [FrameBundle(h.start + 1, b)])
  {
    var fb := FrameBundle(h.start + 1, b);
    if id !in b {
      OneDeliverable(h, n, id, fb);
    } else {
      assert TakesOwn(h, before, n, id, [fb]);
    }
  }

  lemma OwnFrameNext(groups: seq<seq<FrameBundle>>, fb: FrameBundle, id: EngineId, first: int)
    ensures OwnFrame(groups + [[fb]], id, first) == if id in fb.bundle then fb.frame else OwnFrame(groups, id, first)
  {
    assert (groups + [[fb]])[..|groups|] == groups;
  }

  // ----- one frame, on a part of its events

  /** Of the events of two disjoint parts each member left by all was left by one of them. */
  lemma {:induction false} PartsCover(b: Bundle, p: Bundle, q: Bundle, order: seq<EngineId>, members: set<EngineId>)
    requires forall k :: k in order ==> PartedAt(b, p, q, k)
    ensures FoldEngine(b, order, members) <= FoldEngine(p, order, members) + FoldEngine(q, order, members)
  {
    if order != [] {
      var rest, last := order[..|order| - 1], order[|order| - 1];
      PartsCover(b, p, q, rest, members);
      assert PartedAt(b, p, q, last);
      var all, inP, inQ := FoldEngine(b, rest, members), FoldEngine(p, rest, members), FoldEngine(q, rest, members);
      if Lookup(q, last).engine == [] {
        AppliedWithin(Lookup(b, last).engine, all, inP, inQ);
      } else {
        AppliedWithin(Lookup(b, last).engine, all, inQ, inP);
      }
    }
  }

  ghost predicate PartedAt(b: Bundle, p: Bundle, q: Bundle, k: EngineId) {
    || (Lookup(p, k).engine == Lookup(b, k).engine && Lookup(q, k).engine == [])
    || (Lookup(q, k).engine == Lookup(b, k).engine && Lookup(p, k).engine == [])
  }

  lemma {:induction false} AppliedWithin(es: seq<EngineEvent>, all: set<EngineId>, some: set<EngineId>,
                                         rest: set<EngineId>)
    requires all <= some + rest
    ensures AppliedAll(es, all) <= AppliedAll(es, some) + rest
  {
    if es != [] {
      AppliedWithin(es[..|es| - 1], all, some, rest);
    }
  }

  ghost function OwnPart(b: Bundle, id: EngineId): Bundle
    requires id in b
  {
    map[id := b[id]]
  }

  /** If an engine's own events and those of the others each complete a frame, leaving the same members, all do. */
  lemma TwoParts(members: set<EngineId>, b: Bundle, id: EngineId)
    requires id in b
    requires CompleteOn(members, OwnPart(b, id)) && CompleteOn(members, b - {id})
    requires MembersAfter(members, OwnPart(b, id)) == MembersAfter(members, b - {id})
    ensures MembersAfter(members, b) == MembersAfter(members, b - {id})
  {
    var p, q := OwnPart(b, id), b - {id};
    PartSkips(members, b, p);
    PartSkips(members, b, q);
    forall k | k in Ascending(b.Keys) ensures PartedAt(b, p, q, k) {
      Parts(b, id, k);
    }
    PartsCover(b, p, q, Ascending(b.Keys), members);
    var left := MembersAfter(members, q);
    forall k ensures (k in left ==> k in p) && (k in left ==> k in q) {}
    NothingShared(p.Keys, q.Keys, left);
  }

  lemma PartSkips(members: set<EngineId>, b: Bundle, p: Bundle)
    requires SubBundle(p, b)
    ensures MembersAfter(members, p) == FoldEngine(p, Ascending(b.Keys), members)
  {
    assert p.Keys <= b.Keys by {
      forall k | k in p.Keys ensures k in b.Keys {}
    }
    FoldEngineSkips(p, p, p.Keys, b.Keys, members);
  }

  lemma Parts(b: Bundle, id: EngineId, k: EngineId)
    requires id in b
    ensures PartedAt(b, OwnPart(b, id), b - {id}, k)
  {
  }

  /** First a part that does not complete the frame, then the rest. */
  lemma TakeBoth(r: Run, o: Origin, table: Log, n: nat, id: EngineId, f: int, p: Bundle, q: Bundle) returns (r': Run)
    requires Edge(r, o, table, n, id, f) && 2 <= n && p.Keys !! q.Keys
    requires SubBundle(p, At(table, f + 1)) && SubBundle(q, At(table, f + 1))
    requires FitsFrame(o, id, At(table, f + 1))
    requires (id in p ==> p.Keys == {id}) && (id in q ==> q.Keys == {id})
    requires !CompleteOn(r.Last().WorldAt(f).members, p)
    requires CompleteOn(r.Last().WorldAt(f).members, q + p)
    ensures Edge(r', o, table, n, id, f + 1)
    ensures r'.Last().WorldAt(f + 1) == Step(o.rules, r.Last().WorldAt(f), q + p)
  {
    ContinuedTwice(r.Last(), p, q);
    var r1 := TakePart(r, o, table, n, id, p);
    r' := TakePart(r1, o, table, n, id, q);
  }

  lemma ContinuedTwice(h: History, p: Bundle, q: Bundle)
    requires AtEdge(h) && h.start + 1 !in h.used
    requires !CompleteOn(h.WorldAt(h.start).members, p) && CompleteOn(h.WorldAt(h.start).members, q + p)
    ensures var f, h1 := h.start + 1, Continued(h, p);
      && AtEdge(h1) && h1.start == h.start && h1.origin == h.origin && At(h1.used, f) == p
      && var h2 := Continued(h1, q);
      && AtEdge(h2) && h2.start == f && f + 1 !in h2.used
      && h2.WorldAt(f) == Step(h.origin.rules, h.WorldAt(h.start), q + p)
  {
    ContinuedFirst(h, p);
    ContinuedSteps(Continued(h, p), q);
  }

  lemma ContinuedFirst(h: History, p: Bundle)
    requires AtEdge(h) && h.start + 1 !in h.used && !CompleteOn(h.WorldAt(h.start).members, p)
    ensures var f, h1 := h.start + 1, Continued(h, p);
      && AtEdge(h1) && h1.start == h.start && h1.origin == h.origin && At(h1.used, f) == p
      && h1.WorldAt(h.start) == h.WorldAt(h.start)
  {
    assert p + map[] == p;
    ContinuedSteps(h, p);
  }

  /**
   * Takes the next frame's events, or as much of them as makes it final. If all of them would not leave the
   * members `s`, neither does what was taken.
   */
  lemma NextFrame(r: Run, o: Origin, table: Log, n: nat, id: EngineId, f: int, b: Bundle, s: set<EngineId>)
    returns (r': Run, c: Bundle)
    requires Edge(r, o, table, n, id, f) && 2 <= n
    requires SubBundle(b, At(table, f + 1)) && FitsFrame(o, id, At(table, f + 1))
    requires CompleteOn(r.Last().WorldAt(f).members, b)
    ensures Edge(r', o, table, n, id, f + 1) && SubBundle(c, b)
    ensures var w := r.Last().WorldAt(f);
      && CompleteOn(w.members, c) && r'.Last().WorldAt(f + 1) == Step(o.rules, w, c)
      && (MembersAfter(w.members, b) != s ==> MembersAfter(w.members, c) != s)
  {
    var m := r.Last().WorldAt(f).members;
    if id !in b || b == OwnPart(b, id) {
      c := b;
      r' := TakeWhole(r, o, table, n, id, f, b);
      return;
    }
    var own, others := OwnPart(b, id), b - {id};
    assert others + own == b == own + others;
    if !CompleteOn(m, own) {
      c := b;
      r' := TakeBoth(r, o, table, n, id, f, own, others);
    } else if MembersAfter(m, own) != s {
      c := own;
      r' := TakeWhole(r, o, table, n, id, f, own);
    } else if !CompleteOn(m, others) {
      c := b;
      r' := TakeBoth(r, o, table, n, id, f, others, own);
    } else {
      if MembersAfter(m, others) == s {
        TwoParts(m, b, id);
      }
      c := others;
      r' := TakeWhole(r, o, table, n, id, f, others);
    }
  }

  lemma TakeWhole(r: Run, o: Origin, table: Log, n: nat, id: EngineId, f: int, b: Bundle) returns (r': Run)
    requires Edge(r, o, table, n, id, f) && 2 <= n && (id in b ==> b.Keys == {id})
    requires SubBundle(b, At(table, f + 1)) && FitsFrame(o, id, At(table, f + 1))
    requires CompleteOn(r.Last().WorldAt(f).members, b)
    ensures Edge(r', o, table, n, id, f + 1)
    ensures r'.Last().WorldAt(f + 1) == Step(o.rules, r.Last().WorldAt(f), b)
  {
    ContinuedOnce(r.Last(), b);
    r' := TakePart(r, o, table, n, id, b);
  }

  lemma ContinuedOnce(h: History, b: Bundle)
    requires AtEdge(h) && h.start + 1 !in h.used && CompleteOn(h.WorldAt(h.start).members, b)
    ensures var f, h' := h.start + 1, Continued(h, b);
      && StepsTo(h, [FrameBundle(f, b)], h') && AtEdge(h') && h'.start == f && f + 1 !in h'.used
      && h'.WorldAt(f) == Step(h.origin.rules, h.WorldAt(h.start), b)
  {
    assert b + map[] == b;
    ContinuedSteps(h, b);
  }

  // ----- exactly when all final worlds are canonical

  ghost predicate CompleteAtTable(o: Origin, table: Log, g: int)
    requires o.frame <= g
  {
    Complete(Canonical(o, table, g), At(table, g))
  }

  /** All frames before `f` are complete on what there is for them. */
  ghost predicate Reachable(o: Origin, table: Log, f: int) {
    forall g :: o.frame < g < f ==> CompleteAtTable(o, table, g)
  }

  /** Every frame that can be reached, as all before it are complete, is safe. */
  ghost predicate Safe(o: Origin, table: Log) {
    forall f :: o.frame < f && Reachable(o, table, f) ==> SafeAt(o, table, f)
  }

  ghost predicate SafeAt(o: Origin, table: Log, f: int)
    requires o.frame < f
  {
    Indifferent(Canonical(o, table, f - 1).members, At(table, f))
  }

  ghost predicate AlwaysCanonical(o: Origin, table: Log, n: nat, id: EngineId) {
    forall r: Run, i: nat, f: int :: OfTable(r, o, table, n, id) && i <= |r.groups| ==>
      FinalAreCanonical(r, table, i, f)
  }

  ghost predicate FinalAreCanonical(r: Run, table: Log, i: nat, f: int) {
    && i < |r.states| && r.states[i].origin == r.origin
    && (r.origin.frame <= f <= r.states[i].start ==> r.states[i].WorldAt(f) == Canonical(r.origin, table, f))
  }

  /** A final frame of a safe table is canonical, and complete on the table as well. */
  lemma {:induction false} SafeIsCanonical(h: History, table: Log, f: int)
    requires Recorded(h) && Within(h.delivered, table) && Safe(h.origin, table) && Peopled(h.origin)
    requires h.origin.frame <= f <= h.start
    ensures h.WorldAt(f) == Canonical(h.origin, table, f)
    ensures h.origin.frame < f ==> CompleteAtTable(h.origin, table, f)
    ensures Reachable(h.origin, table, f + 1)
    decreases f - h.origin.frame
  {
    if h.origin.frame < f {
      SafeIsCanonical(h, table, f - 1);
      FinalFrame(h, f);
      assert RecordedAt(h, f) && SafeAt(h.origin, table, f);
      var w, b, t := h.WorldAt(f - 1), At(h.used, f), At(table, f);
      assert SubBundle(b, t);
      PartIsEnoughExactly(h.origin.rules, w, t);
      assert Step(h.origin.rules, w, b) == Step(h.origin.rules, w, t);
    }
  }

  ghost predicate SafeUpTo(o: Origin, table: Log, f: int) {
    forall g :: o.frame < g <= f ==> SafeAt(o, table, g)
  }

  /** The updater's engine has a part in the table only if it started the game. */
  ghost predicate Fits(o: Origin, id: EngineId, table: Log) {
    forall f :: FitsFrame(o, id, At(table, f))
  }

  /** A frame that can be reached is reached by a run that takes one frame after the other. */
  lemma {:induction false} FullRun(o: Origin, table: Log, f: int, n: nat, id: EngineId) returns (r: Run)
    requires o.frame <= f && Reachable(o, table, f + 1) && SafeUpTo(o, table, f) && 2 <= n
    requires forall g :: o.frame < g <= f ==> FitsFrame(o, id, At(table, g))
    ensures Edge(r, o, table, n, id, f) && r.Last().WorldAt(f) == Canonical(o, table, f)
    decreases f - o.frame
  {
    if f == o.frame {
      r := Run(o, [], [Unplayed(o)]);
    } else {
      var r0 := FullRun(o, table, f - 1, n, id);
      assert CompleteAtTable(o, table, f) && SafeAt(o, table, f);
      var w, t := Canonical(o, table, f - 1), At(table, f);
      PartIsEnoughExactly(o.rules, w, t);
      var c;
      r, c := NextFrame(r0, o, table, n, id, f - 1, t, {});
    }
  }

  /** On a table with an unsafe frame there is a run, always in bounds, that finalises it otherwise. */
  lemma UnsafeRun(o: Origin, table: Log, f: int, b: Bundle, n: nat, id: EngineId) returns (r: Run)
    requires o.frame < f && Reachable(o, table, f) && SafeUpTo(o, table, f - 1) && 2 <= n && Fits(o, id, table)
    requires SubBundle(b, At(table, f)) && CompleteOn(Canonical(o, table, f - 1).members, b)
    requires MembersAfter(Canonical(o, table, f - 1).members, b)
          != MembersAfter(Canonical(o, table, f - 1).members, At(table, f))
    ensures OfTable(r, o, table, n, id) && !FinalAreCanonical(r, table, |r.groups|, f)
  {
    forall g ensures FitsFrame(o, id, At(table, g)) {}
    var r0 := FullRun(o, table, f - 1, n, id);
    var c;
    r, c := NextFrame(r0, o, table, n, id, f - 1, b, MembersAfter(Canonical(o, table, f - 1).members, At(table, f)));
    assert r.Last() == r.states[|r.groups|];
  }

  lemma RunWithin(r: Run, table: Log, i: nat)
    requires r.Valid() && i <= |r.groups| && FromTable(r.Schedule(), table)
    ensures Recorded(r.states[i]) && r.states[i].origin == r.origin && Within(r.states[i].delivered, table)
  {
    RunSettles(r, i);
    ConcatPrefix(r.groups, i);
    MergeWithin(Concat(r.groups[..i]), table);
  }

  lemma {:induction false} FirstUnsafe(o: Origin, table: Log, f: int) returns (g: int)
    requires o.frame < f && Reachable(o, table, f) && !SafeAt(o, table, f)
    ensures o.frame < g && Reachable(o, table, g) && SafeUpTo(o, table, g - 1) && !SafeAt(o, table, g)
    decreases f - o.frame
  {
    if SafeUpTo(o, table, f - 1) {
      g := f;
    } else {
      var e :| o.frame < e <= f - 1 && !SafeAt(o, table, e);
      g := FirstUnsafe(o, table, e);
    }
  }

  lemma SafeAlwaysCanonical(o: Origin, table: Log, n: nat, id: EngineId)
    requires Peopled(o) && Safe(o, table)
    ensures AlwaysCanonical(o, table, n, id)
  {
    forall r: Run, i: nat, f: int | OfTable(r, o, table, n, id) && i <= |r.groups|
      ensures FinalAreCanonical(r, table, i, f)
    {
      RunWithin(r, table, i);
      if o.frame <= f <= r.states[i].start {
        SafeIsCanonical(r.states[i], table, f);
      }
    }
  }

  /**
   * Exactly on safe tables do all runs finalise the canonical worlds only: with the updater's own engine among
   * the players or not, and in a window of any size. A joiner is followed until it plays itself. Whether a table
   * is safe is a matter of its engine events alone.
   */
  lemma CanonicalExactly(o: Origin, table: Log, n: nat, id: EngineId)
    requires Peopled(o) && 2 <= n && Fits(o, id, table)
    ensures AlwaysCanonical(o, table, n, id) <==> Safe(o, table)
  {
    if Safe(o, table) {
      SafeAlwaysCanonical(o, table, n, id);
    } else {
      var f0 :| o.frame < f0 && Reachable(o, table, f0) && !SafeAt(o, table, f0);
      var f := FirstUnsafe(o, table, f0);
      var m, t := Canonical(o, table, f - 1).members, At(table, f);
      var b :| SubBundle(b, t) && CompleteOn(m, b) && MembersAfter(m, b) != MembersAfter(m, t);
      var r := UnsafeRun(o, table, f, b, n, id);
      assert !FinalAreCanonical(r, table, |r.groups|, f);
    }
  }

  // ----- exactly when a joiner has not passed the frame it joined on

  ghost predicate NeverPasses(o: Origin, table: Log, s: int, n: nat, id: EngineId) {
    forall r: Run, i: nat :: OfTable(r, o, table, n, id) && i <= |r.groups| ==> StartsBelow(r, i, s)
  }

  ghost predicate StartsBelow(r: Run, i: nat, s: int) {
    i < |r.states| && r.states[i].start < s
  }

  /** All members of the frame but the engine itself have supplied their events for it. */
  ghost predicate OthersSupplied(o: Origin, table: Log, s: int, id: EngineId)
    requires o.frame <= s
  {
    forall k :: k in Canonical(o, table, s).members && k != id ==> k in At(table, s)
  }

  /**
   * An engine that waits to begin on a frame, with everyone else there, finds it live in every run exactly if it
   * is a member of that frame: being joined by one of its events is not enough if another drops it again.
   */
  lemma JoinFrameExactly(o: Origin, table: Log, s: int, n: nat, id: EngineId)
    requires Governed(o, table) && Peopled(o) && o.frame < s && 2 <= n
    requires Reachable(o, table, s) && OthersSupplied(o, table, s, id)
    requires id !in At(table, s) && forall g :: o.frame < g <= s ==> FitsFrame(o, id, At(table, g))
    ensures NeverPasses(o, table, s, n, id) <==> id in Canonical(o, table, s).members
  {
    if id in Canonical(o, table, s).members {
      forall r: Run, i: nat | OfTable(r, o, table, n, id) && i <= |r.groups|
        ensures StartsBelow(r, i, s)
      {
        MemberIsAwaited(r, table, i, s, id);
      }
    } else {
      assert CompleteAtTable(o, table, s);
      GovernedIsSafe(o, table, s);
      var r := FullRun(o, table, s, n, id);
      assert r.Last() == r.states[|r.groups|];
      assert !StartsBelow(r, |r.groups|, s);
    }
  }

  lemma GovernedIsSafe(o: Origin, table: Log, s: int)
    requires Governed(o, table)
    ensures SafeUpTo(o, table, s)
  {
    forall f | o.frame < f <= s ensures SafeAt(o, table, f) {
      assert GovernedAt(o, table, f);
      GovernedIsIndifferent(o.rules, o.world.game, Canonical(o, table, f - 1).members, At(table, f));
    }
  }

  lemma MemberIsAwaited(r: Run, table: Log, i: nat, s: int, id: EngineId)
    requires r.Valid() && i <= |r.groups| && FromTable(r.Schedule(), table)
    requires Governed(r.origin, table) && Peopled(r.origin) && r.origin.frame < s
    requires id in Canonical(r.origin, table, s).members && id !in At(table, s)
    ensures r.states[i].start < s
  {
    RunLawful(r, table, i);
    if s <= r.states[i].start {
      FinalIsCanonical(r.states[i], table, s);
      LawfulAt(r.states[i], table, s);
      JoinerBeginsAbove(r.states[i], id, s);
    }
  }

  /** The only member of a world joins an engine and drops it at once. */
  function JoinAndDrop(id: EngineId): Bundle {
    map[1 := AllEvents([], [EngineJoined(id), EngineDropped(id)])]
  }

  /**
   * Such an engine passes the frame it is to begin on at once: it takes the frame for its first, and its window
   * starts there. From there its first local bundle has nowhere to go.
   */
  lemma DroppedJoinerIsStuck(rules: Rules, game: State, id: EngineId, n: nat) returns (h: History)
    requires 1 < id && 2 <= n
    ensures var o, fb := Origin(rules, 0, World({1}, game), true), FrameBundle(1, JoinAndDrop(id));
      && Deliverable(Unplayed(o), n, id, [fb]) && StepsTo(Unplayed(o), [fb], h)
      && SkipAfterAll(-1, 0, id, [fb]) == 1 == h.start
    ensures forall t: Timeline, global, to :: t.first == h.start ==> !FillersFit(t, id, 1, global, to)
  {
    var o, b := Origin(rules, 0, World({1}, game), true), JoinAndDrop(id);
    JoinAndDropMembers(id);
    var fb := FrameBundle(1, b);
    assert [fb][..0] == [];
    h := Continued(Unplayed(o), b);
    ContinuedOnce(Unplayed(o), b);
    OneDeliverable(Unplayed(o), n, id, fb);
    assert EngineJoined(id) in b[1].engine;
  }

  lemma JoinAndDropMembers(id: EngineId)
    requires 1 < id
    ensures MembersAfter({1}, JoinAndDrop(id)) == {1}
  {
    var b := JoinAndDrop(id);
    var es := b[1].engine;
    assert b.Keys == {1} && {1} - {1} == {} && Ascending({}) == [] && Max({1}) == 1;
    assert Ascending({1}) == [] + [1];
    FoldEngineSnoc(b, [], 1, {1});
    assert es[..1] == [EngineJoined(id)];
    OneEvent(EngineJoined(id), {1});
    assert {1} + {id} - {id} == {1};
  }

  // ----- the placeholder of a joiner

  /** One discarded bundle is enough to make the frame after the handed one final, unthought. */
  ghost predicate KeepsPlaceholder(r: Run, o: Origin, table: Log, n: nat, id: EngineId) {
    && OfTable(r, o, table, n, id) && r.Last().start == o.frame + 1 && Governed(o, table)
    && !FinalAreCanonical(r, table, |r.groups|, o.frame + 1)
  }

  /** All that was ever sent is one empty entry for the frame the joiner was handed. */
  ghost function Echo(o: Origin, j: EngineId): Log {
    map[o.frame := map[j := NO_EVENTS]]
  }

  /**
   * A joiner finalises canonical worlds only if the world it was handed has a member: without one, its
   * unthought placeholder counts as complete, and the first handler that advances keeps it.
   */
  lemma EmptyWorldKeepsPlaceholder(o: Origin, n: nat, id: EngineId, j: EngineId) returns (r: Run)
    requires o.placeholder && o.world.members == {} && o.rules.think(o.world.game) != o.world.game
    requires 0 <= j && j != id
    ensures KeepsPlaceholder(r, o, Echo(o, j), n, id)
  {
    var table, fb := Echo(o, j), FrameBundle(o.frame, map[j := NO_EVENTS]);
    OneDeliverable(Unplayed(o), n, id, fb);
    var h := DiscardAdvances(o, fb);
    r := RunNext(Run(o, [], [Unplayed(o)]), o, table, n, id, [fb], h);
    NothingThinks(o, table);
    forall g | o.frame < g ensures GovernedAt(o, table, g) {}
  }

  lemma DiscardAdvances(o: Origin, fb: FrameBundle) returns (h: History)
    requires o.placeholder && o.world.members == {} && fb.frame == o.frame
    ensures StepsTo(Unplayed(o), [fb], h) && h.start == o.frame + 1
    ensures h.origin == o && h.WorldAt(o.frame + 1) == o.world
  {
    h := Deliver(Unplayed(o), fb).(start := o.frame + 1);
    assert [fb][..0] == [] && DeliverAll(Unplayed(o), [fb]) == Deliver(DeliverAll(Unplayed(o), []), fb);
    assert CompleteUpTo(o, h.used, o.frame, o.frame) && CompleteFrame(o, h.used, o.frame + 1);
  }

  lemma NothingThinks(o: Origin, table: Log)
    requires o.world.members == {} && At(table, o.frame + 1) == map[]
    ensures Canonical(o, table, o.frame + 1).game == o.rules.think(o.world.game)
  {
    var empty: Bundle := map[];
    assert empty.Keys == {} && Ascending({}) == [];
    assert Replayed(Plain(o), table, o.frame) == o.world;
    assert Canonical(o, table, o.frame + 1) == Step(o.rules, o.world, empty);
  }

  /** For a game whose thinking changes it, exactly a world with members makes a joiner faithful. */
  lemma JoinerFaithfulExactly(o: Origin, n: nat, id: EngineId)
    requires o.placeholder && o.rules.think(o.world.game) != o.world.game
    ensures JoinerFaithful(o, n, id) <==> o.world.members != {}
  {
    if o.world.members != {} {
      forall table | Governed(o, table) ensures AlwaysCanonical(o, table, n, id) {
        forall r: Run, i: nat, f: int | OfTable(r, o, table, n, id) && i <= |r.groups|
          ensures FinalAreCanonical(r, table, i, f)
        {
          RunLawful(r, table, i);
          if o.frame <= f <= r.states[i].start {
            FinalIsCanonical(r.states[i], table, f);
          }
        }
      }
    } else {
      var j := if id == 0 then 1 else 0;
      var r := EmptyWorldKeepsPlaceholder(o, n, id, j);
      assert !AlwaysCanonical(o, Echo(o, j), n, id);
    }
  }

  ghost predicate JoinerFaithful(o: Origin, n: nat, id: EngineId) {
    forall table :: Governed(o, table) ==> AlwaysCanonical(o, table, n, id)
  }
}
