/**
 * The window of an updater as a value, and the invariant that makes rewinding only as far as the oldest
 * dirty frame enough.
 */
module Rewind {
  import opened Membership
  import opened Bundles
  import opened Replay

  /** What the objects of one `FrameData` hold; `bound` tells a bundle object from a nil one. */
  datatype Slot = Slot(members: set<EngineId>, game: State, bundle: Bundle, bound: bool)
  {
    function Seen(): World { World(members, game) }

    ghost predicate Takes(events: Bundle) {
      bound && forall k :: k in events ==> k !in bundle
    }
  }

  datatype Timeline = Timeline(first: int, slots: seq<Slot>)
  {
    ghost predicate Has(f: int) {
      first <= f < first + |slots|
    }

    ghost function Of(f: int): Slot
      requires Has(f)
    {
      slots[f - first]
    }

    ghost function With(f: int, s: Slot): (t: Timeline)
      requires Has(f)
      ensures t.first == first && |t.slots| == |slots|
      ensures forall g :: Has(g) ==> t.Of(g) == if g == f then s else Of(g)
    {
      Timeline(first, slots[f - first := s])
    }

    ghost function Slid(): (t: Timeline)
      requires slots != []
      ensures t.first == first + 1 && |t.slots| == |slots|
      ensures forall g :: first < g < first + |slots| ==> t.Of(g) == Of(g)
      ensures t.Of(first + |slots|) == Of(first)
    {
      Timeline(first + 1, slots[1..] + [slots[0]])
    }
  }

  /** What a slot above every known frame still holds: the game that was final one window earlier. */
  ghost function Residue(o: Origin, used: Log, f: int): State {
    if o.frame <= f then Replayed(o, used, f).game else o.world.game
  }

  ghost predicate ThoughtAt(o: Origin, used: Log, t: Timeline, f: int)
    requires o.frame <= f && t.Has(f)
  {
    t.Of(f).Seen() == Replayed(o, used, f)
  }

  ghost predicate BundledAt(used: Log, t: Timeline, f: int)
    requires t.Has(f)
  {
    t.Of(f).bound && t.Of(f).bundle == At(used, f)
  }

  ghost predicate RestsAt(o: Origin, used: Log, t: Timeline, f: int)
    requires t.Has(f)
  {
    t.Of(f).game == Residue(o, used, f - |t.slots|)
  }

  /**
   * Below `dirty` the window shows the replay, whatever was recomputed when; up to `global` it has the
   * bundles; above that its games are left over from the frames that slid out.
   */
  ghost predicate Faithful(o: Origin, used: Log, t: Timeline, global: int, dirty: int) {
    && o.frame <= t.first < dirty <= global + 1 <= t.first + |t.slots|
    && (Unthought(o, used) ==> o.frame + 1 < dirty)
    && (forall f :: t.first <= f < dirty ==> ThoughtAt(o, used, t, f))
    && (forall f :: t.first < f <= global ==> BundledAt(used, t, f))
    && (forall f :: global < f < t.first + |t.slots| ==> RestsAt(o, used, t, f))
  }

  /** `initFrameData` opens the next frame with an empty bundle; it is dirty from the start. */
  lemma FaithfulInit(o: Origin, used: Log, t: Timeline, global: int, dirty: int, members: set<EngineId>)
    requires Faithful(o, used, t, global, dirty)
    requires t.Has(global + 1) && global + 1 !in used
    ensures Faithful(o, used, t.With(global + 1, Slot(members, t.Of(global + 1).game, map[], true)), global + 1, dirty)
  {
    var t' := t.With(global + 1, Slot(members, t.Of(global + 1).game, map[], true));
    forall f | t.first <= f < dirty ensures ThoughtAt(o, used, t', f) {
      assert ThoughtAt(o, used, t, f);
    }
    forall f | t.first < f <= global + 1 ensures BundledAt(used, t', f) {
      if f <= global { assert BundledAt(used, t, f); }
    }
    forall f | global + 1 < f < t.first + |t.slots| ensures RestsAt(o, used, t', f) {
      assert RestsAt(o, used, t, f);
    }
  }

  /** A bundle for `frame` spoils nothing below `frame`. */
  lemma FaithfulAbsorb(o: Origin, used: Log, t: Timeline, global: int, dirty: int, fb: FrameBundle)
    requires Faithful(o, used, t, global, dirty)
    requires t.first < fb.frame <= global
    requires forall id :: id in fb.bundle ==> id !in At(used, fb.frame)
    ensures Faithful(o, Merge(used, fb),
                     t.With(fb.frame, t.Of(fb.frame).(bundle := t.Of(fb.frame).bundle + fb.bundle)), global,
                     if fb.frame < dirty then fb.frame else dirty)
  {
    var used', dirty' := Merge(used, fb), if fb.frame < dirty then fb.frame else dirty;
    var t' := t.With(fb.frame, t.Of(fb.frame).(bundle := t.Of(fb.frame).bundle + fb.bundle));
    assert BundledAt(used, t, fb.frame);
    Commutes(At(used, fb.frame), fb.bundle);
    forall f | t.first <= f < dirty' ensures ThoughtAt(o, used', t', f) {
      assert ThoughtAt(o, used, t, f);
      ReplayLocal(o, used, used', f);
    }
    forall f | t.first < f <= global ensures BundledAt(used', t', f) {
      assert BundledAt(used, t, f);
    }
    forall f | global < f < t.first + |t.slots| ensures RestsAt(o, used', t', f) {
      assert RestsAt(o, used, t, f);
      if o.frame <= f - |t.slots| {
        ReplayLocal(o, used, used', f - |t.slots|);
      }
    }
  }

  lemma Commutes(a: Bundle, b: Bundle)
    requires forall id :: id in b ==> id !in a
    ensures a + b == b + a
  {
    forall id | id in a + b ensures id in b + a && (a + b)[id] == (b + a)[id] {}
    forall id | id in b + a ensures id in a + b {}
  }

  /** What is absorbed above the known frames is part of no frame yet. */
  lemma FaithfulBeyond(o: Origin, used: Log, t: Timeline, global: int, dirty: int, f: int, bundle: Bundle)
    requires Faithful(o, used, t, global, dirty)
    requires t.Has(f) && global < f
    ensures Faithful(o, used, t.With(f, t.Of(f).(bundle := bundle)), global, dirty)
  {
    var t' := t.With(f, t.Of(f).(bundle := bundle));
    forall g | t.first <= g < dirty ensures ThoughtAt(o, used, t', g) {
      assert ThoughtAt(o, used, t, g);
    }
    forall g | t.first < g <= global ensures BundledAt(used, t', g) {
      assert BundledAt(used, t, g);
    }
    forall g | global < g < t.first + |t.slots| ensures RestsAt(o, used, t', g) {
      assert RestsAt(o, used, t, g);
    }
  }

  /** Rethinking from further back is always allowed, but for the placeholder itself. */
  lemma FaithfulLower(o: Origin, used: Log, t: Timeline, global: int, dirty: int, dirty': int)
    requires Faithful(o, used, t, global, dirty) && t.first < dirty' <= dirty && dirty' in used
    requires o.frame < dirty'
    ensures Faithful(o, used, t, global, dirty')
  {
  }

  /** Stepping the first dirty frame from its predecessor makes it clean. */
  lemma FaithfulRethink(o: Origin, used: Log, t: Timeline, global: int, dirty: int)
    requires Faithful(o, used, t, global, dirty) && dirty <= global
    ensures var w := Step(o.rules, t.Of(dirty - 1).Seen(), t.Of(dirty).bundle);
      Faithful(o, used, t.With(dirty, Slot(w.members, w.game, t.Of(dirty).bundle, true)), global, dirty + 1)
  {
    var w := Step(o.rules, t.Of(dirty - 1).Seen(), t.Of(dirty).bundle);
    var t' := t.With(dirty, Slot(w.members, w.game, t.Of(dirty).bundle, true));
    assert ThoughtAt(o, used, t, dirty - 1) && BundledAt(used, t, dirty);
    forall f | t.first <= f < dirty + 1 ensures ThoughtAt(o, used, t', f) {
      if f < dirty { assert ThoughtAt(o, used, t, f); }
    }
    forall f | t.first < f <= global ensures BundledAt(used, t', f) {
      assert BundledAt(used, t, f);
    }
    forall f | global < f < t.first + |t.slots| ensures RestsAt(o, used, t', f) {
      assert RestsAt(o, used, t, f);
    }
  }

  /** Sliding recycles the slot of the old start. */
  lemma FaithfulSlide(o: Origin, used: Log, t: Timeline, global: int)
    requires Faithful(o, used, t, global, global + 1) && t.first < global
    ensures Faithful(o, used, t.Slid(), global, global + 1)
  {
    var t' := t.Slid();
    forall f | t'.first <= f < global + 1 ensures ThoughtAt(o, used, t', f) {
      assert ThoughtAt(o, used, t, f);
    }
    forall f | t'.first < f <= global ensures BundledAt(used, t', f) {
      assert BundledAt(used, t, f);
    }
    forall f | global < f < t'.first + |t'.slots| ensures RestsAt(o, used, t', f) {
      if f < t.first + |t.slots| {
        assert RestsAt(o, used, t, f);
      } else {
        assert ThoughtAt(o, used, t, t.first);
      }
    }
  }
}
