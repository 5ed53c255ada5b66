/**
 * What any number of updaters agree on. A `History` is what an updater has recorded; the handlers of
 * `Updater` keep `Settled` true of it, so the theorems here hold after any run of any updater.
 */
module Agreement {
  import opened Collections
  import opened Membership
  import opened Bundles
  import opened Replay

  /**
   * `delivered` is everything the updater was ever handed; `used` leaves out what arrived for frames that
   * were final already; `start` is the newest final frame and `global` the newest speculative one.
   */
  datatype History = History(origin: Origin, used: Log, delivered: Log, start: int, global: int)
  {
    ghost function WorldAt(f: int): World
      requires origin.frame <= f
    {
      Replayed(origin, used, f)
    }
  }

  ghost function FirstGlobal(o: Origin): int {
    if o.placeholder then o.frame + 1 else o.frame
  }

  ghost function Unplayed(o: Origin): History {
    History(o, map[], map[], o.frame, FirstGlobal(o))
  }

  ghost predicate Recorded(h: History) {
    && h.origin.frame <= h.start <= h.global && FirstGlobal(h.origin) <= h.global
    && (h.global in h.delivered || h.global == FirstGlobal(h.origin))
    && (forall f :: RecordedAt(h, f))
  }

  ghost predicate RecordedAt(h: History, f: int) {
    && (f in h.delivered ==> f <= h.global)
    && (f in h.used ==> h.origin.frame < f && f in h.delivered)
    && SubBundle(At(h.used, f), At(h.delivered, f))
    && (f in h.delivered && h.start < f ==> f in h.used && h.used[f] == h.delivered[f])
    && (h.origin.frame < f <= h.start ==> CompleteAt(h, f))
  }

  ghost predicate CompleteAt(h: History, f: int)
    requires h.origin.frame <= f
  {
    CompleteFrame(h.origin, h.used, f)
  }

  /** Between handlers nothing complete is left unfinalised. */
  ghost predicate Settled(h: History) {
    && Recorded(h)
    && (h.start < h.global ==> !CompleteAt(h, h.start + 1))
  }

  /** So it is between handlers, but for a joiner on a world without members before its first handler. */
  ghost predicate Rested(h: History) {
    Recorded(h) && (h == Unplayed(h.origin) || Settled(h))
  }

  /** A joiner was handed a world with at least one member. */
  ghost predicate Peopled(o: Origin) {
    o.placeholder ==> o.world.members != {}
  }

  /** Handing over one bundle: bundles for final frames are discarded. */
  ghost function Deliver(h: History, fb: FrameBundle): History {
    h.(used := if fb.frame <= h.start then h.used else Merge(h.used, fb),
       delivered := Merge(h.delivered, fb),
       global := if h.global < fb.frame then fb.frame else h.global)
  }

  lemma DeliverRecorded(h: History, fb: FrameBundle)
    requires Recorded(h)
    ensures Recorded(Deliver(h, fb))
  {
    var h' := Deliver(h, fb);
    assert RecordedAt(h, h.global) && RecordedAt(h, fb.frame);
    forall f
      ensures RecordedAt(h', f)
    {
      assert RecordedAt(h, f);
      if h.origin.frame < f <= h.start {
        forall g | h.origin.frame < g <= f
          ensures (g in h.used <==> g in h'.used) && At(h.used, g) == At(h'.used, g)
        {
        }
        ReplayLocal(h.origin, h.used, h'.used, f);
      }
    }
  }

  /** A bundle changes its own frame only, and no final one. */
  lemma DeliverTouches(h: History, fb: FrameBundle)
    ensures var used' := Deliver(h, fb).used;
      && (forall f :: f != fb.frame ==> At(used', f) == At(h.used, f))
      && (forall g :: g <= h.start ==> (g in h.used <==> g in used') && At(h.used, g) == At(used', g))
  {
  }

  lemma DeliverAt(h: History, fb: FrameBundle, g: int)
    requires h.start < fb.frame
    ensures var used' := Deliver(h, fb).used;
      && (g in used' <==> g in h.used || g == fb.frame)
      && At(used', g) == if g == fb.frame then fb.bundle + At(h.used, g) else At(h.used, g)
  {
  }

  ghost function DeliverAll(h: History, fbs: seq<FrameBundle>): (h': History)
    ensures h'.origin == h.origin && h'.start == h.start
  {
    if fbs == [] then h else Deliver(DeliverAll(h, fbs[..|fbs| - 1]), fbs[|fbs| - 1])
  }

  lemma {:induction false} DeliverAllRecorded(h: History, fbs: seq<FrameBundle>)
    requires Recorded(h)
    ensures Recorded(DeliverAll(h, fbs))
    ensures DeliverAll(h, fbs).delivered == MergeAll(h.delivered, fbs)
  {
    if fbs != [] {
      DeliverAllRecorded(h, fbs[..|fbs| - 1]);
      DeliverRecorded(DeliverAll(h, fbs[..|fbs| - 1]), fbs[|fbs| - 1]);
    }
  }

  /** Deliveries never touch a final frame. */
  lemma {:induction false} DeliverAllKeeps(h: History, fbs: seq<FrameBundle>)
    ensures forall g :: g <= h.start ==>
      (g in h.used <==> g in DeliverAll(h, fbs).used) && At(h.used, g) == At(DeliverAll(h, fbs).used, g)
  {
    if fbs != [] {
      DeliverAllKeeps(h, fbs[..|fbs| - 1]);
    }
  }

  /** Finality: no delivery changes a world that is final already. */
  lemma FinalWorldsStand(h: History, fbs: seq<FrameBundle>, f: int)
    requires h.origin.frame <= f <= h.start
    ensures DeliverAll(h, fbs).WorldAt(f) == h.WorldAt(f)
  {
    DeliverAllKeeps(h, fbs);
    ReplayLocal(h.origin, h.used, DeliverAll(h, fbs).used, f);
  }

  // ----- hypotheses

  /**
   * One fixed table says what every engine emits on every frame, engine events are governed, and a joiner was
   * handed a world with at least one member.
   */
  ghost predicate Lawful(h: History, table: Log) {
    && Within(h.delivered, table)
    && Governed(h.origin, table)
    && Peopled(h.origin)
  }

  ghost function Canonical(o: Origin, table: Log, f: int): World
    requires o.frame <= f
  {
    Replayed(Plain(o), table, f)
  }

  lemma NobodyComplete(w: World)
    requires Complete(w, map[])
    ensures w.members == {}
  {
    if w.members != {} {
      var id := Pick(w.members);
      assert false;
    }
  }

  lemma RestedSettles(h: History)
    requires Rested(h) && Peopled(h.origin)
    ensures Settled(h)
  {
    if h == Unplayed(h.origin) && h.start < h.global && CompleteAt(h, h.start + 1) {
      NobodyComplete(h.origin.world);
    }
  }

  /** The placeholder is never final: its frame can only be passed once some bundle for it was used. */
  lemma PlaceholderIsRethought(h: History)
    requires Recorded(h) && h.origin.placeholder && h.origin.frame < h.start
    requires h.origin.world.members != {}
    ensures h.origin.frame + 1 in h.used
  {
    var f := h.origin.frame + 1;
    assert RecordedAt(h, f);
    if f !in h.used {
      NobodyComplete(h.origin.world);
    }
  }

  lemma LawfulAt(h: History, table: Log, f: int)
    requires Recorded(h) && Lawful(h, table) && h.origin.frame < f
    ensures SubBundle(At(h.used, f), At(h.delivered, f)) && SubBundle(At(h.delivered, f), At(table, f))
    ensures SubBundle(At(h.used, f), At(table, f))
    ensures GovernedStep(Canonical(h.origin, table, f - 1).members, At(table, f))
  {
    assert RecordedAt(h, f) && GovernedAt(h.origin, table, f);
  }

  lemma FinalFrame(h: History, f: int)
    requires Recorded(h) && h.origin.frame < f <= h.start
    requires Peopled(h.origin)
    ensures h.WorldAt(f) == Step(h.origin.rules, h.WorldAt(f - 1), At(h.used, f))
    ensures Complete(h.WorldAt(f), At(h.used, f))
  {
    assert RecordedAt(h, f);
    if h.origin.placeholder {
      PlaceholderIsRethought(h);
    }
  }

  /** Every final world is the canonical one, whatever arrived, in whatever order, and whatever did not. */
  lemma {:induction false} FinalIsCanonical(h: History, table: Log, f: int)
    requires Recorded(h) && Lawful(h, table)
    requires h.origin.frame <= f <= h.start
    ensures h.WorldAt(f) == Canonical(h.origin, table, f)
    decreases f - h.origin.frame
  {
    if h.origin.frame < f {
      FinalIsCanonical(h, table, f - 1);
      FinalFrame(h, f);
      LawfulAt(h, table, f);
      PartIsEnough(h.origin.rules, h.WorldAt(f - 1), At(h.used, f), At(table, f));
    }
  }

  /**
   * Agreement: two updaters that began in the same world finalise the same worlds, even if they were handed
   * different parts of the table.
   */
  lemma FinalStatesAgree(h1: History, h2: History, table: Log, f: int)
    requires Recorded(h1) && Recorded(h2) && Lawful(h1, table) && Lawful(h2, table)
    requires Plain(h1.origin) == Plain(h2.origin)
    requires h1.origin.frame <= f <= h1.start && f <= h2.start
    ensures h1.WorldAt(f) == h2.WorldAt(f)
  {
    FinalIsCanonical(h1, table, f);
    FinalIsCanonical(h2, table, f);
  }

  /** A joiner finalises what its host finalises, from the frame it was handed on. */
  lemma JoinerAgreesWithHost(host: History, joiner: History, table: Log, b: int, f: int)
    requires Recorded(host) && Lawful(host, table) && Recorded(joiner) && Within(joiner.delivered, table)
    requires host.origin.frame <= b <= host.start && host.WorldAt(b).members != {}
    requires joiner.origin == Origin(host.origin.rules, b, host.WorldAt(b), true)
    requires b <= f <= joiner.start && f <= host.start
    ensures joiner.WorldAt(f) == host.WorldAt(f)
  {
    JoinerIsLawful(host, joiner, table, b);
    FinalIsCanonical(host, table, f);
    FinalIsCanonical(joiner, table, f);
    ReplayShift(Plain(host.origin), table, b, f);
  }

  lemma JoinerIsLawful(host: History, joiner: History, table: Log, b: int)
    requires Recorded(host) && Lawful(host, table) && Within(joiner.delivered, table)
    requires host.origin.frame <= b <= host.start && host.WorldAt(b).members != {}
    requires joiner.origin == Origin(host.origin.rules, b, host.WorldAt(b), true)
    ensures Lawful(joiner, table)
    ensures Plain(joiner.origin) == Origin(host.origin.rules, b, Replayed(Plain(host.origin), table, b), false)
  {
    FinalIsCanonical(host, table, b);
    forall f | b < f
      ensures GovernedAt(joiner.origin, table, f)
    {
      assert GovernedAt(host.origin, table, f);
      ReplayShift(Plain(host.origin), table, b, f - 1);
    }
  }

  // ----- the local engine

  /** While the local engine is a member of the newest final frame, that is no newer than its local frame. */
  lemma LocalStaysAhead(h: History, id: EngineId, local: int)
    requires Recorded(h) && h.origin.frame <= local
    requires h.origin.frame < h.start ==> id in h.WorldAt(h.start).members
    requires forall f :: id in At(h.used, f) ==> f <= local
    ensures h.start <= local
  {
    assert RecordedAt(h, h.start);
  }

  /** A frame is not final without an entry of each of its members: so a joiner has not passed one it is in. */
  lemma JoinerBeginsAbove(h: History, id: EngineId, f: int)
    requires Recorded(h) && h.origin.frame < f && id in h.WorldAt(f).members
    requires id !in At(h.used, f)
    ensures h.start < f
  {
    assert RecordedAt(h, f);
  }

  /** A frame whose events join an engine, and do not drop it, has it as a member. */
  lemma SeenJoinIsMember(h: History, id: EngineId, f: int)
    requires h.origin.frame < f && f in h.used
    requires SaysJoined(At(h.used, f), id) && NeverDropped(At(h.used, f), id)
    ensures id in h.WorldAt(f).members
  {
    StepMembers(h.origin.rules, h.WorldAt(f - 1), At(h.used, f), id);
  }

  // ----- progress

  /** Everything the engines emit for a frame has arrived, and all of its members are among them. */
  ghost predicate ArrivedAt(h: History, table: Log, f: int)
    requires h.origin.frame <= f
  {
    At(h.delivered, f) == At(table, f) && Complete(Canonical(h.origin, table, f), At(table, f))
  }

  /** A frame that has arrived is complete for the updater, whatever it holds beyond it. */
  lemma ArrivedIsComplete(h: History, table: Log)
    requires Recorded(h) && Lawful(h, table) && h.start < h.global && ArrivedAt(h, table, h.start + 1)
    ensures CompleteAt(h, h.start + 1)
  {
    var f := h.start + 1;
    FinalIsCanonical(h, table, h.start);
    SpeculativeFrame(h, f);
    if Unthought(h.origin, h.used) && f == h.origin.frame + 1 {
      NobodyArrived(h.origin, table);
      assert false;
    }
  }

  lemma NobodyArrived(o: Origin, table: Log)
    requires At(table, o.frame + 1) == map[]
    requires Complete(Canonical(o, table, o.frame + 1), At(table, o.frame + 1))
    ensures o.world.members == {}
  {
    var empty: Bundle := map[];
    assert empty.Keys == {} && Ascending({}) == [];
    assert Replayed(Plain(o), table, o.frame) == o.world;
    assert Canonical(o, table, o.frame + 1) == Step(o.rules, o.world, empty);
    NobodyComplete(Step(o.rules, o.world, empty));
  }

  /**
   * Progress: a settled updater has finalised a known frame exactly if every frame up to it has arrived, as far
   * as it matters: it never waits for anything it was already handed.
   */
  lemma ArrivedIsFinal(h: History, table: Log, f: int)
    requires Settled(h) && Lawful(h, table) && h.origin.frame <= f <= h.global
    requires forall g :: h.origin.frame < g <= f ==> ArrivedAt(h, table, g)
    ensures f <= h.start
  {
    if h.start < f {
      ArrivedIsComplete(h, table);
    }
  }

  /** With everything delivered, the start is exactly the newest frame up to which the table is complete. */
  lemma StartIsExact(h: History, table: Log, f: int)
    requires Settled(h) && Lawful(h, table) && h.origin.frame <= f <= h.global
    requires forall g :: h.origin.frame < g <= f ==> At(h.delivered, g) == At(table, g)
    ensures f <= h.start <==>
      forall g :: h.origin.frame < g <= f ==> Complete(Canonical(h.origin, table, g), At(table, g))
  {
    if f <= h.start {
      forall g | h.origin.frame < g <= f
        ensures Complete(Canonical(h.origin, table, g), At(table, g))
      {
        FinalIsCanonical(h, table, g);
        FinalFrame(h, g);
        LawfulAt(h, table, g);
      }
    } else {
      if forall g :: h.origin.frame < g <= f ==> Complete(Canonical(h.origin, table, g), At(table, g)) {
        ArrivedIsFinal(h, table, f);
      }
    }
  }

  // ----- confluence

  /** What was discarded never mattered: replaying everything delivered gives the updater's worlds. */
  lemma {:induction false} DiscardsNeverMatter(h: History, table: Log, f: int)
    requires Recorded(h) && Lawful(h, table) && h.origin.frame <= f
    ensures h.WorldAt(f) == Replayed(h.origin, h.delivered, f)
    decreases f - h.origin.frame
  {
    if h.origin.frame < f {
      DiscardsNeverMatter(h, table, f - 1);
      LawfulAt(h, table, f);
      if f <= h.start {
        FinalFrame(h, f);
        FinalIsCanonical(h, table, f - 1);
        PlaceholderGone(h);
        GovernedSub(h.WorldAt(f - 1).members, At(h.delivered, f), At(table, f));
        PartIsEnough(h.origin.rules, h.WorldAt(f - 1), At(h.used, f), At(h.delivered, f));
      } else {
        SpeculativeFrame(h, f);
      }
    }
  }

  lemma PlaceholderGone(h: History)
    requires Recorded(h) && h.origin.frame < h.start
    requires Peopled(h.origin)
    ensures !Unthought(h.origin, h.used) && !Unthought(h.origin, h.delivered)
  {
    if h.origin.placeholder {
      PlaceholderIsRethought(h);
      assert RecordedAt(h, h.origin.frame + 1);
    }
  }

  lemma SpeculativeFrame(h: History, f: int)
    requires Recorded(h) && h.start < f
    ensures f in h.used <==> f in h.delivered
    ensures At(h.used, f) == At(h.delivered, f)
  {
    assert RecordedAt(h, f);
  }

  /** Whether a frame is complete is decided by everything delivered, also where part of it was discarded. */
  lemma CompleteOnDelivered(h: History, table: Log, f: int)
    requires Recorded(h) && Lawful(h, table) && h.origin.frame < f <= h.start
    ensures Complete(Replayed(h.origin, h.delivered, f), At(h.delivered, f))
  {
    DiscardsNeverMatter(h, table, f);
    FinalFrame(h, f);
    LawfulAt(h, table, f);
  }

  lemma StartIsDetermined(h1: History, h2: History, table: Log)
    requires Settled(h1) && Settled(h2) && Lawful(h1, table) && Lawful(h2, table)
    requires h1.origin == h2.origin && h1.delivered == h2.delivered
    ensures h1.global == h2.global && h1.start >= h2.start
  {
    assert RecordedAt(h1, h2.global) && RecordedAt(h2, h1.global);
    if h1.start < h2.start {
      CompleteInBoth(h1, h2, table, h1.start + 1);
      assert false;
    }
  }

  /** A frame final in one updater is complete in another that was handed the same. */
  lemma CompleteInBoth(h1: History, h2: History, table: Log, f: int)
    requires Recorded(h1) && Recorded(h2) && Lawful(h1, table) && Lawful(h2, table)
    requires h1.origin == h2.origin && h1.delivered == h2.delivered
    requires h1.origin.frame < f && h1.start < f <= h2.start
    ensures CompleteAt(h1, f)
  {
    CompleteOnDelivered(h2, table, f);
    DiscardsNeverMatter(h1, table, f);
    SpeculativeFrame(h1, f);
  }

  /**
   * Confluence: two updaters that were handed the same bundles, in any orders and groups, are in the same
   * state, speculative frames included.
   */
  lemma Confluence(h1: History, h2: History, table: Log)
    requires Settled(h1) && Settled(h2) && Lawful(h1, table) && Lawful(h2, table)
    requires h1.origin == h2.origin && h1.delivered == h2.delivered
    ensures h1.start == h2.start && h1.global == h2.global
    ensures forall f :: h1.origin.frame <= f ==> h1.WorldAt(f) == h2.WorldAt(f)
    ensures forall f :: h1.start < f ==> At(h1.used, f) == At(h2.used, f)
  {
    StartIsDetermined(h1, h2, table);
    StartIsDetermined(h2, h1, table);
    forall f | h1.origin.frame <= f
      ensures h1.WorldAt(f) == h2.WorldAt(f)
    {
      DiscardsNeverMatter(h1, table, f);
      DiscardsNeverMatter(h2, table, f);
    }
    forall f | h1.start < f
      ensures At(h1.used, f) == At(h2.used, f)
    {
      SpeculativeFrame(h1, f);
      SpeculativeFrame(h2, f);
    }
  }

  // ----- the order of delivery leaves no trace

  /** No engine's events for a frame are delivered twice. */
  ghost predicate OncePerEngine(fbs: seq<FrameBundle>) {
    forall i, j, id ::
      0 <= i < j < |fbs| && fbs[i].frame == fbs[j].frame && id in fbs[i].bundle ==> id !in fbs[j].bundle
  }

  /** How many of the bundles have events of the engine for the frame. */
  ghost function Times(fbs: seq<FrameBundle>, f: int, id: EngineId): nat {
    if fbs == [] then 0
    else Times(fbs[..|fbs| - 1], f, id) + TimesIn(fbs[|fbs| - 1], f, id)
  }

  ghost function TimesIn(fb: FrameBundle, f: int, id: EngineId): nat {
    if fb.frame == f && id in fb.bundle then 1 else 0
  }

  ghost predicate OnceAt(fbs: seq<FrameBundle>, f: int, id: EngineId) {
    Times(fbs, f, id) <= 1
  }

  lemma {:induction false} TimesAppend(a: seq<FrameBundle>, b: seq<FrameBundle>, f: int, id: EngineId)
    ensures Times(a + b, f, id) == Times(a, f, id) + Times(b, f, id)
  {
    if b == [] {
      assert a + b == a;
    } else {
      TimesAppend(a, b[..|b| - 1], f, id);
      assert (a + b)[..|a + b| - 1] == a + b[..|b| - 1];
    }
  }

  lemma {:induction false} TimesSome(fbs: seq<FrameBundle>, i: nat, f: int, id: EngineId)
    requires i < |fbs|
    ensures TimesIn(fbs[i], f, id) <= Times(fbs, f, id)
  {
    if i < |fbs| - 1 {
      TimesSome(fbs[..|fbs| - 1], i, f, id);
    }
  }

  lemma {:induction false} TimesFound(fbs: seq<FrameBundle>, f: int, id: EngineId) returns (i: nat)
    requires Times(fbs, f, id) > 0
    ensures i < |fbs| && fbs[i].frame == f && id in fbs[i].bundle
  {
    if TimesIn(fbs[|fbs| - 1], f, id) == 1 {
      i := |fbs| - 1;
    } else {
      i := TimesFound(fbs[..|fbs| - 1], f, id);
    }
  }

  lemma {:induction false} OnceCounted(fbs: seq<FrameBundle>, f: int, id: EngineId)
    requires OncePerEngine(fbs)
    ensures Times(fbs, f, id) <= 1
  {
    if fbs != [] {
      var rest, last := fbs[..|fbs| - 1], fbs[|fbs| - 1];
      assert fbs == rest + [last];
      OnceCounted(rest, f, id);
      if Times(rest, f, id) > 0 {
        var i := TimesFound(rest, f, id);
        assert fbs[i] == rest[i] && fbs[|rest|] == last;
      }
    }
  }

  /** Once per engine and frame is a matter of how often each bundle occurs, not of the order. */
  lemma OnceByCount(fbs: seq<FrameBundle>)
    ensures OncePerEngine(fbs) <==> forall f, id :: OnceAt(fbs, f, id)
  {
    if OncePerEngine(fbs) {
      forall f, id ensures OnceAt(fbs, f, id) {
        OnceCounted(fbs, f, id);
      }
    }
    if forall f, id :: OnceAt(fbs, f, id) {
      forall i, j, id | 0 <= i < j < |fbs| && fbs[i].frame == fbs[j].frame && id in fbs[i].bundle
        ensures id !in fbs[j].bundle
      {
        var f := fbs[j].frame;
        TimesAppend(fbs[..j], fbs[j..], f, id);
        assert fbs == fbs[..j] + fbs[j..];
        assert OnceAt(fbs, f, id);
        TimesSome(fbs[..j], i, f, id);
        TimesSome(fbs[j..], 0, f, id);
        assert fbs[..j][i] == fbs[i] && fbs[j..][0] == fbs[j];
      }
      assert OncePerEngine(fbs);
    }
  }

  lemma TimesAround(b: seq<FrameBundle>, j: nat, f: int, id: EngineId)
    requires j < |b|
    ensures Times(b, f, id) == Times(b[..j] + b[j + 1..], f, id) + TimesIn(b[j], f, id)
  {
    var before, after := b[..j], b[j + 1..];
    assert b == (before + [b[j]]) + after;
    assert (before + [b[j]])[..j] == before;
    TimesAppend(before + [b[j]], after, f, id);
    TimesAppend(before, after, f, id);
  }

  lemma Around(b: seq<FrameBundle>, j: nat)
    requires j < |b|
    ensures multiset(b) == multiset(b[..j] + b[j + 1..]) + multiset{b[j]}
  {
    assert b == b[..j] + ([b[j]] + b[j + 1..]);
  }

  lemma {:induction false} TimesPermuted(a: seq<FrameBundle>, b: seq<FrameBundle>, f: int, id: EngineId)
    requires multiset(a) == multiset(b)
    ensures Times(a, f, id) == Times(b, f, id)
  {
    if a == [] {
      assert |multiset(b)| == 0;
    } else {
      var rest, last := a[..|a| - 1], a[|a| - 1];
      assert a == rest + [last];
      assert last in multiset(b);
      var j :| 0 <= j < |b| && b[j] == last;
      Around(b, j);
      assert multiset(rest) == multiset(a) - multiset{last};
      assert multiset(b[..j] + b[j + 1..]) == multiset(b) - multiset{last};
      TimesPermuted(rest, b[..j] + b[j + 1..], f, id);
      TimesAround(b, j, f, id);
    }
  }

  lemma OncePermuted(a: seq<FrameBundle>, b: seq<FrameBundle>)
    requires multiset(a) == multiset(b) && OncePerEngine(a)
    ensures OncePerEngine(b)
  {
    OnceByCount(a);
    OnceByCount(b);
    forall f, id ensures OnceAt(b, f, id) {
      assert OnceAt(a, f, id);
      TimesPermuted(a, b, f, id);
    }
  }

  ghost predicate Holds(b: Bundle, id: EngineId, events: AllEvents) {
    id in b && b[id] == events
  }

  ghost predicate Supplies(fbs: seq<FrameBundle>, f: int, id: EngineId, events: AllEvents) {
    exists fb :: fb in fbs && fb.frame == f && Holds(fb.bundle, id, events)
  }

  lemma {:induction false} MergeAllHolds(fbs: seq<FrameBundle>, f: int)
    requires OncePerEngine(fbs)
    ensures f in MergeAll(map[], fbs) <==> exists fb :: fb in fbs && fb.frame == f
    ensures forall id, events :: Holds(At(MergeAll(map[], fbs), f), id, events) <==> Supplies(fbs, f, id, events)
  {
    if fbs != [] {
      var rest, last := fbs[..|fbs| - 1], fbs[|fbs| - 1];
      assert fbs == rest + [last];
      MergeAllHolds(rest, f);
      var before, after := At(MergeAll(map[], rest), f), At(MergeAll(map[], fbs), f);
      if last.frame == f {
        assert after == last.bundle + before;
      }
      forall id, events
        ensures Holds(after, id, events) <==> Supplies(fbs, f, id, events)
      {
        SuppliesMore(rest, last, f, id, events);
        if last.frame == f && id in last.bundle {
          NotSuppliedBefore(rest, last, id);
          assert Holds(before, id, Lookup(before, id)) <==> id in before;
        }
      }
    }
  }

  lemma SuppliesMore(rest: seq<FrameBundle>, last: FrameBundle, f: int, id: EngineId, events: AllEvents)
    ensures Supplies(rest + [last], f, id, events)
      <==> Supplies(rest, f, id, events) || (last.frame == f && Holds(last.bundle, id, events))
  {
    assert forall fb :: fb in rest + [last] <==> fb in rest || fb == last;
  }

  lemma NotSuppliedBefore(rest: seq<FrameBundle>, last: FrameBundle, id: EngineId)
    requires OncePerEngine(rest + [last]) && id in last.bundle
    ensures forall fb :: fb in rest && fb.frame == last.frame ==> id !in fb.bundle
  {
    forall fb | fb in rest && fb.frame == last.frame
      ensures id !in fb.bundle
    {
      var i :| 0 <= i < |rest| && rest[i] == fb;
      assert (rest + [last])[i] == fb && (rest + [last])[|rest|] == last;
    }
  }

  /** Any two schedules of the same deliveries leave the same log. */
  lemma OrderLeavesNoTrace(fbs1: seq<FrameBundle>, fbs2: seq<FrameBundle>)
    requires OncePerEngine(fbs1) && OncePerEngine(fbs2)
    requires forall fb :: fb in fbs1 <==> fb in fbs2
    ensures MergeAll(map[], fbs1) == MergeAll(map[], fbs2)
  {
    var l1, l2 := MergeAll(map[], fbs1), MergeAll(map[], fbs2);
    forall f
      ensures f in l1 <==> f in l2
      ensures At(l1, f) == At(l2, f)
    {
      MergeAllHolds(fbs1, f);
      MergeAllHolds(fbs2, f);
      forall id, events
        ensures Supplies(fbs1, f, id, events) <==> Supplies(fbs2, f, id, events)
      {
      }
      SameEntries(At(l1, f), At(l2, f));
    }
    forall f | f in l1 ensures f in l2 && l1[f] == l2[f] {
      assert At(l1, f) == At(l2, f);
    }
    forall f | f in l2 ensures f in l1 {}
  }

  /** What was delivered over several handlers is what was delivered over their inputs laid end to end. */
  lemma {:induction false} MergeAllAppend(log: Log, a: seq<FrameBundle>, b: seq<FrameBundle>)
    ensures MergeAll(MergeAll(log, a), b) == MergeAll(log, a + b)
  {
    if b == [] {
      assert a + b == a;
    } else {
      MergeAllAppend(log, a, b[..|b| - 1]);
      assert (a + b)[..|a + b| - 1] == a + b[..|b| - 1];
    }
  }

  /** Confluence of schedules: only which bundles arrived matters, not when, nor in what groups. */
  lemma SchedulesConverge(h1: History, h2: History, table: Log, s1: seq<FrameBundle>, s2: seq<FrameBundle>)
    requires Settled(h1) && Settled(h2) && Lawful(h1, table) && Lawful(h2, table)
    requires h1.origin == h2.origin && OncePerEngine(s1) && OncePerEngine(s2)
    requires h1.delivered == MergeAll(map[], s1) && h2.delivered == MergeAll(map[], s2)
    requires forall fb :: fb in s1 <==> fb in s2
    ensures h1.start == h2.start && h1.global == h2.global
    ensures forall f :: h1.origin.frame <= f ==> h1.WorldAt(f) == h2.WorldAt(f)
    ensures forall f :: h1.start < f ==> At(h1.used, f) == At(h2.used, f)
  {
    OrderLeavesNoTrace(s1, s2);
    Confluence(h1, h2, table);
  }

  lemma SameEntries(b1: Bundle, b2: Bundle)
    requires forall id, events :: Holds(b1, id, events) <==> Holds(b2, id, events)
    ensures b1 == b2
  {
    forall id | id in b1 ensures id in b2 && b1[id] == b2[id] {
      assert Holds(b1, id, b1[id]);
    }
    forall id | id in b2 ensures id in b1 {
      assert Holds(b2, id, b2[id]);
    }
  }
}
