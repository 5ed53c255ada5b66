/**
 * The reference semantics: what a frame's world is, as a plain replay of the bundles from the first frame
 * on. Nothing here knows about windows, rewinding or arrival order.
 */
module Replay {
  import opened Collections
  import opened Membership
  import opened Bundles

  type State(!new)

  /** `Game.Think` and `Event.Apply` of an arbitrary deterministic game. */
  datatype Rules = Rules(think: State -> State, apply: (Event, State) -> State)

  datatype World = World(members: set<EngineId>, game: State)

  function ApplyAll(rules: Rules, es: seq<Event>, game: State): State {
    if es == [] then game else rules.apply(es[|es| - 1], ApplyAll(rules, es[..|es| - 1], game))
  }

  /** Only the events of members are applied, in the order of the ids. */
  ghost function FoldGame(rules: Rules, b: Bundle, order: seq<EngineId>, members: set<EngineId>, game: State): State {
    if order == [] then game
    else
      var last := order[|order| - 1];
      var before := FoldGame(rules, b, order[..|order| - 1], members, game);
      if last in members then ApplyAll(rules, Lookup(b, last).game, before) else before
  }

  lemma FoldGameSnoc(rules: Rules, b: Bundle, order: seq<EngineId>, id: EngineId, members: set<EngineId>, game: State)
    ensures FoldGame(rules, b, order + [id], members, game)
         == if id in members then ApplyAll(rules, Lookup(b, id).game, FoldGame(rules, b, order, members, game))
            else FoldGame(rules, b, order, members, game)
  {
    assert (order + [id])[..|order|] == order;
  }

  /** One frame: engine events in ascending id order, then the game events of the new members, then a think. */
  ghost function Step(rules: Rules, w: World, b: Bundle): World {
    var order := Ascending(b.Keys);
    var members := FoldEngine(b, order, w.members);
    World(members, rules.think(FoldGame(rules, b, order, members, w.game)))
  }

  /** Every engine of the frame's own, post-event, membership has supplied its events. */
  ghost predicate Complete(w: World, b: Bundle) {
    forall id :: id in w.members ==> id in b
  }

  // ----- logs of bundles

  type Log = map<int, Bundle>

  ghost function At(log: Log, f: int): Bundle {
    if f in log then log[f] else map[]
  }

  /** Adding a bundle; events already logged for an engine stay. */
  ghost function Merge(log: Log, fb: FrameBundle): Log {
    log[fb.frame := fb.bundle + At(log, fb.frame)]
  }

  ghost function MergeAll(log: Log, fbs: seq<FrameBundle>): Log {
    if fbs == [] then log else Merge(MergeAll(log, fbs[..|fbs| - 1]), fbs[|fbs| - 1])
  }

  /**
   * Where an updater begins: `Start` supplies a real world for `frame`. `Bootstrap` supplies the host's, and
   * fills the next frame with a copy of it that was never thought about: the placeholder.
   */
  datatype Origin = Origin(rules: Rules, frame: int, world: World, placeholder: bool)

  ghost predicate Unthought(o: Origin, log: Log) {
    o.placeholder && o.frame + 1 !in log
  }

  ghost function Replayed(o: Origin, log: Log, f: int): World
    requires o.frame <= f
    decreases f - o.frame
  {
    if f == o.frame || (f == o.frame + 1 && Unthought(o, log)) then o.world
    else Step(o.rules, Replayed(o, log, f - 1), At(log, f))
  }

  ghost predicate CompleteFrame(o: Origin, log: Log, f: int)
    requires o.frame <= f
  {
    Complete(Replayed(o, log, f), At(log, f))
  }

  /** A frame's world depends on no bundle above it. */
  lemma {:induction false} ReplayLocal(o: Origin, log: Log, log': Log, f: int)
    requires o.frame <= f
    requires forall g :: o.frame < g <= f ==> (g in log <==> g in log') && At(log, g) == At(log', g)
    ensures Replayed(o, log, f) == Replayed(o, log', f)
    decreases f - o.frame
  {
    if o.frame < f {
      ReplayLocal(o, log, log', f - 1);
      assert o.frame + 1 in log <==> o.frame + 1 in log';
    }
  }

  // ----- the canonical replay and its governance

  ghost function Plain(o: Origin): Origin {
    o.(placeholder := false)
  }

  ghost predicate NeverDropped(t: Bundle, id: EngineId) {
    forall k :: k in t ==> EngineDropped(id) !in t[k].engine
  }

  /** Whoever emits engine events on the frame is a member already and is not dropped on it. */
  ghost predicate GovernedStep(members: set<EngineId>, t: Bundle) {
    forall e :: e in t && t[e].engine != [] ==> e in members && NeverDropped(t, e)
  }

  ghost predicate GovernedAt(o: Origin, table: Log, f: int)
    requires o.frame < f
  {
    GovernedStep(Replayed(Plain(o), table, f - 1).members, At(table, f))
  }

  ghost predicate Governed(o: Origin, table: Log) {
    forall f :: o.frame < f ==> GovernedAt(o, table, f)
  }

  ghost predicate Within(log: Log, table: Log) {
    forall f :: f in log ==> SubBundle(log[f], At(table, f))
  }

  lemma GovernedSub(members: set<EngineId>, b: Bundle, t: Bundle)
    requires GovernedStep(members, t) && SubBundle(b, t)
    ensures GovernedStep(members, b)
  {
  }

  /** The rule the source states: only the host emits engine events. Added to it: the host is never dropped. */
  ghost predicate HostOnlyFrame(t: Bundle, host: EngineId) {
    forall k :: k in t ==> (k != host ==> t[k].engine == []) && EngineDropped(host) !in t[k].engine
  }

  ghost predicate HostOnly(table: Log, host: EngineId) {
    forall f :: f in table ==> HostOnlyFrame(table[f], host)
  }

  /** An engine that the frame's events do not drop is a member afterwards iff it was one or they join it. */
  lemma StepMembers(rules: Rules, w: World, b: Bundle, id: EngineId)
    requires NeverDropped(b, id)
    ensures id in Step(rules, w, b).members <==> id in w.members || SaysJoined(b, id)
  {
    var order := Ascending(b.Keys);
    AscendingEnumerates(b.Keys);
    FoldUndropped(b, order, w.members, id);
    JoinAmongAll(b, order, id);
  }

  lemma {:induction false} HostStays(o: Origin, table: Log, host: EngineId, f: int)
    requires HostOnly(table, host) && host in o.world.members && o.frame <= f
    ensures host in Replayed(Plain(o), table, f).members
    decreases f - o.frame
  {
    if o.frame < f {
      HostStays(o, table, host, f - 1);
      StepMembers(o.rules, Replayed(Plain(o), table, f - 1), At(table, f), host);
    }
  }

  lemma HostGoverns(o: Origin, table: Log, host: EngineId)
    requires HostOnly(table, host) && host in o.world.members
    ensures Governed(o, table)
  {
    forall f | o.frame < f
      ensures GovernedAt(o, table, f)
    {
      HostStays(o, table, host, f - 1);
      if f in table {
        assert HostOnlyFrame(table[f], host);
      }
    }
  }

  /** Replaying on from any frame of the canonical replay gives the same worlds. */
  lemma {:induction false} ReplayShift(o: Origin, table: Log, b: int, f: int)
    requires o.frame <= b <= f && !o.placeholder
    ensures Replayed(Origin(o.rules, b, Replayed(o, table, b), false), table, f) == Replayed(o, table, f)
    decreases f - b
  {
    if b < f {
      ReplayShift(o, table, b, f - 1);
    }
  }

  // ----- why a partial bundle can be enough

  /** Bundle entries of engines that are not members after the frame, and emit nothing, change nothing. */
  lemma {:induction false} FoldGameSkips(rules: Rules, b: Bundle, t: Bundle, some: set<EngineId>, all: set<EngineId>,
                                         members: set<EngineId>, game: State)
    requires forall id :: id in some ==> id in all && Lookup(b, id) == Lookup(t, id)
    requires forall id :: id in all && id !in some ==> id !in members
    ensures FoldGame(rules, b, Ascending(some), members, game) == FoldGame(rules, t, Ascending(all), members, game)
    decreases |all|
  {
    if all == {} {
      if some != {} {
        var x := Pick(some);
      }
    } else {
      var m := Max(all);
      FoldGameSnoc(rules, t, Ascending(all - {m}), m, members, game);
      if m in some {
        assert Max(some) == m;
        FoldGameSnoc(rules, b, Ascending(some - {m}), m, members, game);
        FoldGameSkips(rules, b, t, some - {m}, all - {m}, members, game);
      } else {
        FoldGameSkips(rules, b, t, some, all - {m}, members, game);
      }
    }
  }

  /** The members after a frame, and whether they have all supplied their events. */
  ghost function MembersAfter(members: set<EngineId>, b: Bundle): set<EngineId> {
    FoldEngine(b, Ascending(b.Keys), members)
  }

  /** A frame complete on part of its bundles steps as on all of them exactly if it has the same members then. */
  lemma SameMembersSameStep(rules: Rules, w: World, b: Bundle, t: Bundle)
    requires SubBundle(b, t) && Complete(Step(rules, w, b), b)
    ensures Step(rules, w, b) == Step(rules, w, t) <==> MembersAfter(w.members, b) == MembersAfter(w.members, t)
  {
    FoldGameSkips(rules, b, t, b.Keys, t.Keys, MembersAfter(w.members, b), w.game);
  }

  /**
   * A frame that is complete on part of its bundles steps as it would on all of them: the emitters of engine
   * events stay members, so completeness forces their events to be there, and everyone else missing is no
   * member afterwards.
   */
  lemma PartIsEnough(rules: Rules, w: World, b: Bundle, t: Bundle)
    requires SubBundle(b, t) && GovernedStep(w.members, t)
    requires Complete(Step(rules, w, b), b)
    ensures Step(rules, w, b) == Step(rules, w, t)
  {
    forall id | id in t && id !in b
      ensures t[id].engine == []
    {
      if t[id].engine != [] {
        StepMembers(rules, w, b, id);
      }
    }
    FoldEngineSkips(b, t, b.Keys, t.Keys, w.members);
    SameMembersSameStep(rules, w, b, t);
  }
}
