/** Packing local events into frames by the clock: core/bundler.go. */
module Bundlers {
  import opened Membership
  import opened Bundles

  /** Integer division as the source's language has it: towards zero. */
  function Quotient(a: int, b: int): int
    requires 0 < b
  {
    if 0 <= a then a / b else -((-a) / b)
  }

  lemma QuotientRises(a: int, b: int, f: int)
    requires 0 < f && a <= b
    ensures Quotient(a, f) <= Quotient(b, f)
  {
    if 0 <= a {
      DivRises(a, b, f);
    } else if b < 0 {
      DivRises(-b, -a, f);
    } else {
      DivRises(0, -a, f);
      DivRises(0, b, f);
      assert 0 / f == 0;
    }
  }

  lemma DivRises(a: nat, b: nat, f: nat)
    requires 0 < f && a <= b
    ensures a / f <= b / f
  {
    var p, q := a / f, b / f;
    assert p * f <= a && b < q * f + f;
    if q < p {
      TimesRises(q + 1, p, f);
      assert false;
    }
  }

  lemma {:induction false} TimesRises(x: int, y: int, f: nat)
    requires x <= y
    ensures x * f <= y * f
    decreases y - x
  {
    if x < y {
      TimesRises(x, y - 1, f);
      assert y * f == (y - 1) * f + f;
    }
  }

  /**
   * A clock that shows `c` has left frame `f` behind. Frames are `frameMs` long; before zero they end where they
   * begin after it, as rounding is towards zero, so frame 0 is twice as long but for one.
   */
  ghost predicate Over(f: int, c: int, frameMs: int) {
    if 0 <= c then (f + 1) * frameMs <= c else f * frameMs < c
  }

  lemma OverExactly(f: int, c: int, frameMs: int)
    requires 0 < frameMs
    ensures f < Quotient(c, frameMs) <==> Over(f, c, frameMs)
  {
    var q := Quotient(c, frameMs);
    QuotientBounds(c, frameMs);
    if f < q {
      TimesRises(f + 1, q, frameMs);
    } else {
      TimesRises(q, f, frameMs);
    }
    assert (f + 1) * frameMs == f * frameMs + frameMs;
  }

  /** Rounding towards zero, by multiplication. */
  lemma QuotientBounds(c: int, frameMs: int)
    requires 0 < frameMs
    ensures var q := Quotient(c, frameMs);
      if 0 <= c then q * frameMs <= c < q * frameMs + frameMs else c <= q * frameMs < c + frameMs
  {
    if c < 0 {
      var e := (-c) / frameMs;
      assert e * frameMs <= -c < e * frameMs + frameMs;
      assert (-e) * frameMs == -(e * frameMs);
    }
  }

  // ----- the log of what was emitted

  ghost function GameEvents(id: EngineId, fbs: seq<FrameBundle>): seq<Event> {
    if fbs == [] then [] else GameEvents(id, fbs[..|fbs| - 1]) + Lookup(fbs[|fbs| - 1].bundle, id).game
  }

  ghost function EngineEvents(id: EngineId, fbs: seq<FrameBundle>): seq<EngineEvent> {
    if fbs == [] then [] else EngineEvents(id, fbs[..|fbs| - 1]) + Lookup(fbs[|fbs| - 1].bundle, id).engine
  }

  /** One bundle a frame from `first` on, each with an entry of this engine alone. */
  ghost predicate Consecutive(id: EngineId, first: int, fbs: seq<FrameBundle>) {
    forall k :: 0 <= k < |fbs| ==> fbs[k].frame == first + k && fbs[k].bundle.Keys == {id}
  }

  ghost function Latest(clocks: seq<int>, f: int, first: int): int
    requires 0 < f
  {
    if clocks == [] then first
    else
      var before, now := Latest(clocks[..|clocks| - 1], f, first), Quotient(clocks[|clocks| - 1], f);
      if before < now then now else before
  }

  /** The latest frame is one the clock showed at a tick, or the first, and no tick showed a later one. */
  lemma {:induction false} LatestIsMax(clocks: seq<int>, f: int, first: int)
    requires 0 < f
    ensures first <= Latest(clocks, f, first)
    ensures forall c :: c in clocks ==> Quotient(c, f) <= Latest(clocks, f, first)
    ensures Latest(clocks, f, first) == first || exists c :: c in clocks && Latest(clocks, f, first) == Quotient(c, f)
  {
    if clocks != [] {
      var rest, last := clocks[..|clocks| - 1], clocks[|clocks| - 1];
      assert clocks == rest + [last];
      LatestIsMax(rest, f, first);
      if Latest(clocks, f, first) == Quotient(last, f) {
        assert last in clocks;
      } else if Latest(rest, f, first) != first {
        var c :| c in rest && Latest(rest, f, first) == Quotient(c, f);
        assert c in clocks;
      }
    }
  }

  /** The frames [from, to): all pending events go with the first of them. */
  ghost function Closed(id: EngineId, from: int, to: int, pending: AllEvents): seq<FrameBundle>
    decreases to - from
  {
    if to <= from then []
    else
      var events := if to - 1 == from then pending else NO_EVENTS;
      Closed(id, from, to - 1, pending) + [FrameBundle(to - 1, map[id := events])]
  }

  lemma ClosedNext(id: EngineId, before: seq<FrameBundle>, from: int, to: int, pending: AllEvents)
    requires from <= to
    ensures var events := if to == from then pending else NO_EVENTS;
      before + Closed(id, from, to + 1, pending)
      == before + Closed(id, from, to, pending) + [FrameBundle(to, map[id := events])]
  {
  }

  /** One bundle a frame from `from` on, all pending events in the first. */
  ghost predicate Closes(id: EngineId, from: int, fbs: seq<FrameBundle>, pending: AllEvents) {
    forall k :: 0 <= k < |fbs| ==>
      fbs[k] == FrameBundle(from + k, map[id := if k == 0 then pending else AllEvents([], [])])
  }

  lemma {:induction false} ClosedCloses(id: EngineId, from: int, end: int, pending: AllEvents)
    requires from <= end
    ensures |Closed(id, from, end, pending)| == end - from
    ensures Closes(id, from, Closed(id, from, end, pending), pending)
    decreases end - from
  {
    if from < end {
      ClosedCloses(id, from, end - 1, pending);
    }
  }

  lemma ClockCloses(before: int, after: int, c: int, frameMs: int)
    requires 0 < frameMs && after == if before < Quotient(c, frameMs) then Quotient(c, frameMs) else before
    ensures forall f :: before <= f ==> (f < after <==> Over(f, c, frameMs))
  {
    forall f | before <= f ensures f < after <==> Over(f, c, frameMs) {
      OverExactly(f, c, frameMs);
    }
  }

  class Bundler {
    const id: EngineId
    const frameMs: int
    var currentMs: int
    var currentFrame: int
    var currentEvents: seq<Event>
    var currentEngineEvents: seq<EngineEvent>
    var localBundles: seq<FrameBundle>

    ghost const began: int
    ghost const firstFrame: int
    ghost var received: seq<Event>
    ghost var receivedEngine: seq<EngineEvent>
    ghost var clocks: seq<int>

    /** Frames are consecutive without repeats, no event is lost or duplicated, and the frame is the clock's. */
    ghost predicate Valid()
      reads this
    {
      && 0 < frameMs && Packed() && firstFrame == Quotient(began, frameMs)
      && currentFrame == Latest(clocks, frameMs, firstFrame)
    }

    ghost predicate Packed()
      reads this
    {
      && currentFrame == firstFrame + |localBundles|
      && Consecutive(id, firstFrame, localBundles)
      && GameEvents(id, localBundles) + currentEvents == received
      && EngineEvents(id, localBundles) + currentEngineEvents == receivedEngine
    }

    ghost function Pending(): AllEvents
      reads this
    {
      AllEvents(currentEvents, currentEngineEvents)
    }

    constructor (id: EngineId, frameMs: int, currentMs: int)
      requires 0 < frameMs
      ensures Valid() && localBundles == [] && received == [] && receivedEngine == [] && clocks == []
      ensures this.currentMs == began == currentMs && currentFrame == firstFrame
      ensures this.id == id && this.frameMs == frameMs
      ensures 0 <= currentMs ==> firstFrame * frameMs <= currentMs < firstFrame * frameMs + frameMs
      ensures currentMs < 0 ==> currentMs <= firstFrame * frameMs < currentMs + frameMs
    {
      QuotientBounds(currentMs, frameMs);
      this.id, this.frameMs, this.currentMs := id, frameMs, currentMs;
      currentFrame, firstFrame := Quotient(currentMs, frameMs), Quotient(currentMs, frameMs);
      currentEvents, currentEngineEvents, localBundles := [], [], [];
      began, received, receivedEngine, clocks := currentMs, [], [], [];
    }

    method LocalEvent(e: Event)
      requires Valid()
      modifies `currentEvents, `received
      ensures Valid() && received == old(received) + [e] && currentEvents == old(currentEvents) + [e]
    {
      ghost var sent := GameEvents(id, localBundles);
      assert sent + (currentEvents + [e]) == (sent + currentEvents) + [e];
      currentEvents := currentEvents + [e];
      received := received + [e];
    }

    method LocalEngineEvent(e: EngineEvent)
      requires Valid()
      modifies `currentEngineEvents, `receivedEngine
      ensures Valid() && receivedEngine == old(receivedEngine) + [e]
      ensures currentEngineEvents == old(currentEngineEvents) + [e]
    {
      ghost var sent := EngineEvents(id, localBundles);
      assert sent + (currentEngineEvents + [e]) == (sent + currentEngineEvents) + [e];
      currentEngineEvents := currentEngineEvents + [e];
      receivedEngine := receivedEngine + [e];
    }

    method TimeDelta(delta: int)
      requires Valid()
      modifies `currentMs
      ensures Valid() && currentMs == old(currentMs) + delta
    {
      currentMs := currentMs + delta;
    }

    /** A tick closes every frame the clock has passed; the pending events go with the first of them. */
    method Tick()
      requires Valid()
      modifies `currentMs, `currentFrame, `currentEvents, `currentEngineEvents, `localBundles, `clocks
      ensures Valid() && currentMs == old(currentMs) + 1 && clocks == old(clocks) + [currentMs]
      ensures old(currentFrame) <= currentFrame
      ensures forall f :: old(currentFrame) <= f ==> (f < currentFrame <==> Over(f, currentMs, frameMs))
      ensures |localBundles| == |old(localBundles)| + (currentFrame - old(currentFrame))
      ensures localBundles[..|old(localBundles)|] == old(localBundles)
      ensures Closes(id, old(currentFrame), localBundles[|old(localBundles)|..],
                     AllEvents(old(currentEvents), old(currentEngineEvents)))
      ensures currentFrame == old(currentFrame) ==>
        currentEvents == old(currentEvents) && currentEngineEvents == old(currentEngineEvents)
      ensures currentFrame != old(currentFrame) ==> currentEvents == [] && currentEngineEvents == []
    {
      currentMs := currentMs + 1;
      CloseFrames(Quotient(currentMs, frameMs));
      ClockCloses(old(currentFrame), currentFrame, currentMs, frameMs);
      ClosedCloses(id, old(currentFrame), currentFrame, old(Pending()));
      clocks := clocks + [currentMs];
      assert clocks[..|clocks| - 1] == old(clocks);
    }

    /** The loop of the tick case. */
    method CloseFrames(nextFrame: int)
      requires Packed()
      modifies `currentFrame, `currentEvents, `currentEngineEvents, `localBundles
      ensures Packed()
      ensures currentFrame == if old(currentFrame) < nextFrame then nextFrame else old(currentFrame)
      ensures localBundles == old(localBundles) + Closed(id, old(currentFrame), currentFrame, old(Pending()))
      ensures Pending() == if currentFrame == old(currentFrame) then old(Pending()) else NO_EVENTS
    {
      while currentFrame < nextFrame
        invariant old(currentFrame) <= currentFrame && (currentFrame <= nextFrame || currentFrame == old(currentFrame))
        invariant Packed()
        invariant localBundles == old(localBundles) + Closed(id, old(currentFrame), currentFrame, old(Pending()))
        invariant Pending() == if currentFrame == old(currentFrame) then old(Pending()) else NO_EVENTS
      {
        CloseOne(old(localBundles), old(currentFrame), old(Pending()));
      }
    }

    /** One round of it, which began with the frame `from`. */
    method CloseOne(ghost before: seq<FrameBundle>, ghost from: int, ghost pending: AllEvents)
      requires Packed() && from <= currentFrame
      requires localBundles == before + Closed(id, from, currentFrame, pending)
      requires Pending() == if currentFrame == from then pending else NO_EVENTS
      modifies `currentFrame, `currentEvents, `currentEngineEvents, `localBundles
      ensures Packed() && currentFrame == old(currentFrame) + 1
      ensures localBundles == before + Closed(id, from, currentFrame, pending)
      ensures Pending() == NO_EVENTS
    {
      ClosedNext(id, before, from, currentFrame, pending);
      CloseFrame();
    }

    method CloseFrame()
      requires Packed()
      modifies `currentFrame, `currentEvents, `currentEngineEvents, `localBundles
      ensures Packed() && currentFrame == old(currentFrame) + 1 && Pending() == NO_EVENTS
      ensures localBundles == old(localBundles) + [FrameBundle(old(currentFrame), map[id := old(Pending())])]
    {
      EmitFrame();
      currentEvents := [];
      currentEngineEvents := [];
      currentFrame := currentFrame + 1;
    }

    /** Sends the current frame's bundle. */
    method EmitFrame()
      requires Packed()
      modifies `localBundles
      ensures localBundles == old(localBundles)
        + [FrameBundle(currentFrame, map[id := AllEvents(currentEvents, currentEngineEvents)])]
      ensures Consecutive(id, firstFrame, localBundles)
      ensures GameEvents(id, localBundles) + [] == received && EngineEvents(id, localBundles) + [] == receivedEngine
    {
      var fb := FrameBundle(currentFrame, map[id := AllEvents(currentEvents, currentEngineEvents)]);
      EmitOne(localBundles, fb);
      localBundles := localBundles + [fb];
    }

    lemma EmitOne(fbs: seq<FrameBundle>, fb: FrameBundle)
      ensures GameEvents(id, fbs + [fb]) == GameEvents(id, fbs) + Lookup(fb.bundle, id).game
      ensures EngineEvents(id, fbs + [fb]) == EngineEvents(id, fbs) + Lookup(fb.bundle, id).engine
      ensures GameEvents(id, fbs) + Lookup(fb.bundle, id).game + [] == GameEvents(id, fbs) + Lookup(fb.bundle, id).game
      ensures EngineEvents(id, fbs) + Lookup(fb.bundle, id).engine + []
           == EngineEvents(id, fbs) + Lookup(fb.bundle, id).engine
    {
      assert (fbs + [fb])[..|fbs|] == fbs;
    }
  }

  /** `n` ticks and no deltas. */
  ghost function Steady(c: int, n: nat): seq<int> {
    if n == 0 then [] else Steady(c, n - 1) + [c + n]
  }

  /** Without deltas the bundler emits what the clock says: `n` ticks from `c` close (c+n)/F - c/F frames. */
  lemma {:induction false} SteadyClockEmits(c: int, n: nat, f: int)
    requires 0 < f
    ensures Latest(Steady(c, n), f, Quotient(c, f)) == Quotient(c + n, f)
  {
    if n > 0 {
      SteadyClockEmits(c, n - 1, f);
      QuotientRises(c + n - 1, c + n, f);
      var clocks := Steady(c, n);
      assert clocks[..|clocks| - 1] == Steady(c, n - 1);
    }
  }

  /** So a bundler that began at `c` and whose clock no delta moved has sent what its clock has passed. */
  lemma SteadyBundlerEmits(b: Bundler, c: nat, n: nat)
    requires b.Valid() && b.clocks == Steady(c, n) && b.began == c
    ensures |b.localBundles| == (c + n) / b.frameMs - c / b.frameMs
  {
    SteadyClockEmits(c, n, b.frameMs);
  }

  /** A bundle for frame `f` has gone out. */
  ghost predicate Emitted(fbs: seq<FrameBundle>, f: int) {
    exists k :: 0 <= k < |fbs| && fbs[k].frame == f
  }

  ghost predicate SomeTickOver(clocks: seq<int>, f: int, frameMs: int) {
    exists k :: 0 <= k < |clocks| && Over(f, clocks[k], frameMs)
  }

  /**
   * However events, ticks and deltas come: a frame has been sent exactly if it is not before the one the bundler
   * began on and the clock has shown at some tick that it is over. It went out once, and the frame before it
   * earlier.
   */
  lemma FramesFollowTheClock(b: Bundler, f: int)
    requires b.Valid()
    ensures Emitted(b.localBundles, f) <==> b.firstFrame <= f && SomeTickOver(b.clocks, f, b.frameMs)
    ensures forall k :: 0 <= k < |b.localBundles| ==> b.localBundles[k].frame == b.firstFrame + k
    ensures if 0 <= b.began then b.firstFrame * b.frameMs <= b.began < b.firstFrame * b.frameMs + b.frameMs
            else b.began <= b.firstFrame * b.frameMs < b.began + b.frameMs
  {
    QuotientBounds(b.began, b.frameMs);
    LatestIsMax(b.clocks, b.frameMs, b.firstFrame);
    forall k | 0 <= k < |b.clocks| ensures f < Quotient(b.clocks[k], b.frameMs) <==> Over(f, b.clocks[k], b.frameMs) {
      OverExactly(f, b.clocks[k], b.frameMs);
    }
    if b.firstFrame <= f < b.currentFrame {
      assert b.localBundles[f - b.firstFrame].frame == f;
      var c :| c in b.clocks && b.currentFrame == Quotient(c, b.frameMs);
      var k :| 0 <= k < |b.clocks| && b.clocks[k] == c;
      assert Over(f, b.clocks[k], b.frameMs);
    }
  }
}
