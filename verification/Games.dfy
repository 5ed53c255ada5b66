/** Game objects and the data of one frame: the mutable things the updater's window refers to. */
module Games {
  import opened Membership
  import opened Bundles
  import opened Replay
  import opened Rewind
  import opened Turns

  /** A game object; what its `Think` and the events' `Apply` do to it is given by the rules. */
  class Game {
    var state: State

    constructor (state: State)
      ensures this.state == state
    {
      this.state := state;
    }

    method Copy() returns (game: Game)
      ensures fresh(game) && game.state == state
    {
      game := new Game(state);
    }

    method OverwriteWith(game: Game)
      modifies this
      ensures state == old(game.state)
    {
      state := game.state;
    }

    method Apply(rules: Rules, e: Event)
      modifies this
      ensures state == rules.apply(e, old(state))
    {
      state := rules.apply(e, state);
    }

    method Think(rules: Rules)
      modifies this
      ensures state == rules.think(old(state))
    {
      state := rules.think(state);
    }
  }

  /** The zero value has three nils. */
  datatype FrameData = FrameData(info: EngineInfo, game: Game?, bundle: EventBundle?)

  ghost predicate Shows(d: FrameData, s: Slot)
    reads d.info.engines, d.game, d.bundle
  {
    && d.game != null && d.game.state == s.game
    && Members(d.info) == s.members
    && s.bound == (d.bundle != null)
    && s.bundle == if d.bundle == null then map[] else d.bundle.entries
  }

  method ApplyEngineEvents(es: seq<EngineEvent>, engines: EngineMap)
    modifies engines
    ensures engines.entries.Keys == AppliedAll(es, old(engines.entries.Keys))
  {
    var i := 0;
    while i < |es|
      invariant i <= |es|
      invariant engines.entries.Keys == AppliedAll(es[..i], old(engines.entries.Keys))
    {
      engines.Apply(es[i]);
      i := i + 1;
      assert es[..i][..i - 1] == es[..i - 1];
    }
    assert es[..i] == es;
  }

  method ApplyGameEvents(rules: Rules, es: seq<Event>, game: Game)
    modifies game
    ensures game.state == ApplyAll(rules, es, old(game.state))
  {
    var i := 0;
    while i < |es|
      invariant i <= |es|
      invariant game.state == ApplyAll(rules, es[..i], old(game.state))
    {
      game.Apply(rules, es[i]);
      i := i + 1;
      assert es[..i][..i - 1] == es[..i - 1];
    }
    assert es[..i] == es;
  }

  /** The engine events of all engines of a frame, in the order `EachEngine` calls back. */
  method EachEngine(bundle: EventBundle, engines: EngineMap)
    returns (ghost turns: seq<Turn>, ghost sets: seq<set<EngineId>>)
    requires Identified(bundle.entries)
    modifies engines
    ensures EngineTurns(bundle.entries, turns) && Changes(bundle.entries, turns, sets)
    ensures sets[0] == old(engines.entries.Keys) && engines.entries.Keys == sets[|turns|]
    ensures engines.entries.Keys
         == FoldEngine(bundle.entries, Ascending(bundle.entries.Keys), old(engines.entries.Keys))
  {
    var visits := bundle.Each();
    EachAscends(bundle.entries.Keys);
    turns, sets := EngineFoldInTurns(bundle.entries, bundle.entries.Keys, engines.entries.Keys);
    VisitEngines(visits, bundle.entries, EachOrder(bundle.entries.Keys, |bundle.entries|), engines);
  }

  /** The visits are those of the ids in that order. */
  ghost predicate VisitsOf(visits: seq<Visit>, entries: Bundle, order: seq<EngineId>) {
    |visits| == |order| && forall i :: 0 <= i < |visits| ==> visits[i] == Visit(order[i], Lookup(entries, order[i]))
  }

  method VisitEngines(visits: seq<Visit>, ghost entries: Bundle, ghost order: seq<EngineId>, engines: EngineMap)
    requires VisitsOf(visits, entries, order)
    modifies engines
    ensures engines.entries.Keys == FoldEngine(entries, order, old(engines.entries.Keys))
  {
    var i := 0;
    while i < |visits|
      invariant i <= |visits| == |order|
      invariant engines.entries.Keys == FoldEngine(entries, order[..i], old(engines.entries.Keys))
    {
      FoldEngineSnoc(entries, order[..i], order[i], old(engines.entries.Keys));
      assert order[..i + 1] == order[..i] + [order[i]];
      ApplyEngineEvents(visits[i].events.engine, engines);
      i := i + 1;
    }
    assert order[..i] == order;
  }

  /** The game events of the members among a frame's engines, in the order `Each` calls back. */
  method EachMember(rules: Rules, bundle: EventBundle, engines: EngineMap, game: Game)
    returns (ghost turns: seq<Turn>, ghost states: seq<State>)
    requires Identified(bundle.entries)
    modifies game
    ensures GameTurns(bundle.entries, engines.entries.Keys, turns) && Plays(rules, bundle.entries, turns, states)
    ensures states[0] == old(game.state) && game.state == states[|turns|]
    ensures game.state == FoldGame(rules, bundle.entries, Ascending(bundle.entries.Keys), engines.entries.Keys,
                                   old(game.state))
  {
    var visits := bundle.Each();
    EachAscends(bundle.entries.Keys);
    turns, states := GameFoldInTurns(rules, bundle.entries, bundle.entries.Keys, engines.entries.Keys, game.state);
    VisitMembers(rules, visits, bundle.entries, EachOrder(bundle.entries.Keys, |bundle.entries|), engines, game);
  }

  method VisitMembers(rules: Rules, visits: seq<Visit>, ghost entries: Bundle, ghost order: seq<EngineId>,
                      engines: EngineMap, game: Game)
    requires VisitsOf(visits, entries, order)
    modifies game
    ensures game.state == FoldGame(rules, entries, order, engines.entries.Keys, old(game.state))
  {
    ghost var members := engines.entries.Keys;
    var i := 0;
    while i < |visits|
      invariant i <= |visits| == |order|
      invariant game.state == FoldGame(rules, entries, order[..i], members, old(game.state))
    {
      FoldGameSnoc(rules, entries, order[..i], order[i], members, old(game.state));
      assert order[..i + 1] == order[..i] + [order[i]];
      if visits[i].id in engines.entries {
        ApplyGameEvents(rules, visits[i].events.game, game);
      }
      i := i + 1;
    }
    assert order[..i] == order;
  }

  /** Recomputes one frame's data in place from its predecessor's: the body of the rethink loop. */
  method Rethink(rules: Rules, prev: FrameData, data: FrameData, ghost before: Slot, ghost now: Slot)
    returns (data': FrameData)
    requires Shows(prev, before) && Shows(data, now)
    requires data.bundle != null && Identified(data.bundle.entries)
    requires prev.game != data.game
    modifies data.game
    ensures data'.game == data.game && data'.bundle == data.bundle
    ensures data'.info.engines != null && fresh(data'.info.engines)
    ensures data.bundle.entries == now.bundle
    ensures var w := Step(rules, before.Seen(), now.bundle); Shows(data', Slot(w.members, w.game, now.bundle, true))
  {
    data.game.OverwriteWith(prev.game);
    var newInfo := Copy(prev.info);
    data' := data.(info := newInfo);
    ghost var turns, sets := EachEngine(data.bundle, newInfo.engines);
    ghost var plays, states := EachMember(rules, data.bundle, newInfo.engines, data.game);
    if data'.info.engines != null {
      data'.game.Think(rules);
    }
  }

  /** The data with which a frame is opened: no events yet, and the predecessor's members. */
  method OpenFrame(prev: FrameData, data: FrameData, ghost before: Slot, ghost now: Slot) returns (data': FrameData)
    requires Shows(prev, before) && Shows(data, now)
    ensures data'.game == data.game
    ensures data'.bundle != null && fresh(data'.bundle)
    ensures data'.info.engines != null && fresh(data'.info.engines)
    ensures Shows(data', Slot(before.members, now.game, map[], true))
  {
    var bundle := new EventBundle();
    var info := Copy(prev.info);
    data' := data.(bundle := bundle, info := info);
  }
}
