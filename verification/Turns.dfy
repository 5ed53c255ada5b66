/**
 * A frame one event at a time: which events change a world, in which order, and where the game thinks. This is
 * said without the folds of the reference semantics, so it says what they compute.
 */
module Turns {
  import opened Membership
  import opened Bundles
  import opened Replay

  /** The event an engine put at an index of its list. */
  datatype Turn = Turn(id: EngineId, index: nat)
  {
    ghost predicate Before(t: Turn) {
      id < t.id || (id == t.id && index < t.index)
    }
  }

  /** By ascending id, and each engine's events as it listed them. */
  ghost predicate InOrder(ts: seq<Turn>) {
    forall j, k :: 0 <= j < k < |ts| ==> ts[j].Before(ts[k])
  }

  /** All engine events of the frame, in order. */
  ghost predicate EngineTurns(b: Bundle, ts: seq<Turn>) {
    InOrder(ts) && forall t :: t in ts <==> t.id in b && t.index < |b[t.id].engine|
  }

  /** The sets of members between them. */
  ghost predicate Changes(b: Bundle, ts: seq<Turn>, sets: seq<set<EngineId>>) {
    && |sets| == |ts| + 1
    && forall k :: 0 <= k < |ts| ==> ChangesAt(b, ts, sets, k)
  }

  ghost predicate ChangesAt(b: Bundle, ts: seq<Turn>, sets: seq<set<EngineId>>, k: int)
    requires 0 <= k < |ts| && |sets| == |ts| + 1
  {
    && ts[k].id in b && ts[k].index < |b[ts[k].id].engine|
    && match b[ts[k].id].engine[ts[k].index]
       case EngineJoined(id) => sets[k + 1] == sets[k] + {id}
       case EngineDropped(id) => sets[k + 1] == sets[k] - {id}
  }

  /** All game events of the frame that come from members, in order. */
  ghost predicate GameTurns(b: Bundle, members: set<EngineId>, ts: seq<Turn>) {
    InOrder(ts) && forall t :: t in ts <==> t.id in b && t.id in members && t.index < |b[t.id].game|
  }

  /** The states of the game between them. */
  ghost predicate Plays(rules: Rules, b: Bundle, ts: seq<Turn>, states: seq<State>) {
    && |states| == |ts| + 1
    && forall k :: 0 <= k < |ts| ==> PlaysAt(rules, b, ts, states, k)
  }

  ghost predicate PlaysAt(rules: Rules, b: Bundle, ts: seq<Turn>, states: seq<State>, k: int)
    requires 0 <= k < |ts| && |states| == |ts| + 1
  {
    && ts[k].id in b && ts[k].index < |b[ts[k].id].game|
    && states[k + 1] == rules.apply(b[ts[k].id].game[ts[k].index], states[k])
  }

  // ----- engine events

  ghost predicate EngineTurnsOf(b: Bundle, s: set<EngineId>, m: EngineId, n: nat, ts: seq<Turn>) {
    && InOrder(ts)
    && forall t :: t in ts <==> t.id in b && ((t.id in s && t.index < |b[t.id].engine|) || (t.id == m && t.index < n))
  }

  lemma OrderSnoc(ts: seq<Turn>, t: Turn)
    requires InOrder(ts) && forall s :: s in ts ==> s.Before(t)
    ensures InOrder(ts + [t])
    ensures forall s :: s in ts + [t] <==> s in ts || s == t
  {
    var all := ts + [t];
    forall j, k | 0 <= j < k < |all| ensures all[j].Before(all[k]) {
      assert all[j] in ts;
    }
  }

  lemma ChangesSnoc(b: Bundle, ts: seq<Turn>, sets: seq<set<EngineId>>, t: Turn)
    requires Changes(b, ts, sets) && t.id in b && t.index < |b[t.id].engine|
    ensures Changes(b, ts + [t], sets + [Applied(b[t.id].engine[t.index], sets[|ts|])])
  {
    var ts', sets' := ts + [t], sets + [Applied(b[t.id].engine[t.index], sets[|ts|])];
    forall k | 0 <= k < |ts'| ensures ChangesAt(b, ts', sets', k) {
      if k < |ts| {
        assert ChangesAt(b, ts, sets, k);
      }
    }
  }

  /** The first `n` events of one more engine. */
  lemma {:induction false} EngineTurnsMore(b: Bundle, s: set<EngineId>, m: EngineId, n: nat,
                                           ts: seq<Turn>, sets: seq<set<EngineId>>)
    returns (ts': seq<Turn>, sets': seq<set<EngineId>>)
    requires m in b && n <= |b[m].engine| && (forall k :: k in s ==> k < m)
    requires EngineTurnsOf(b, s, m, 0, ts) && Changes(b, ts, sets)
    ensures EngineTurnsOf(b, s, m, n, ts') && Changes(b, ts', sets') && sets'[0] == sets[0]
    ensures sets'[|ts'|] == AppliedAll(b[m].engine[..n], sets[|ts|])
  {
    if n == 0 {
      ts', sets' := ts, sets;
    } else {
      ts', sets' := EngineTurnsMore(b, s, m, n - 1, ts, sets);
      assert b[m].engine[..n][..n - 1] == b[m].engine[..n - 1];
      var t := Turn(m, n - 1);
      OrderSnoc(ts', t);
      ChangesSnoc(b, ts', sets', t);
      ts', sets' := ts' + [t], sets' + [Applied(b[m].engine[n - 1], sets'[|ts'|])];
    }
  }

  lemma {:induction false} EngineFoldInTurns(b: Bundle, s: set<EngineId>, members: set<EngineId>)
    returns (ts: seq<Turn>, sets: seq<set<EngineId>>)
    requires s <= b.Keys
    ensures InOrder(ts) && forall t :: t in ts <==> t.id in s && t.id in b && t.index < |b[t.id].engine|
    ensures Changes(b, ts, sets) && sets[0] == members && sets[|ts|] == FoldEngine(b, Ascending(s), members)
    decreases |s|
  {
    if s == {} {
      ts, sets := [], [members];
    } else {
      var m := Max(s);
      var rest := s - {m};
      ts, sets := EngineFoldInTurns(b, rest, members);
      FoldEngineSnoc(b, Ascending(rest), m, members);
      ts, sets := EngineTurnsMore(b, rest, m, |b[m].engine|, ts, sets);
      assert b[m].engine[..|b[m].engine|] == b[m].engine;
      assert forall k :: k in s <==> k in rest || k == m;
    }
  }

  // ----- game events

  ghost predicate GameTurnsOf(b: Bundle, s: set<EngineId>, members: set<EngineId>, m: EngineId, n: nat, ts: seq<Turn>) {
    && InOrder(ts)
    && forall t :: t in ts <==>
         t.id in b && t.id in members && ((t.id in s && t.index < |b[t.id].game|) || (t.id == m && t.index < n))
  }

  lemma PlaysSnoc(rules: Rules, b: Bundle, ts: seq<Turn>, states: seq<State>, t: Turn)
    requires Plays(rules, b, ts, states) && t.id in b && t.index < |b[t.id].game|
    ensures Plays(rules, b, ts + [t], states + [rules.apply(b[t.id].game[t.index], states[|ts|])])
  {
    var ts', states' := ts + [t], states + [rules.apply(b[t.id].game[t.index], states[|ts|])];
    forall k | 0 <= k < |ts'| ensures PlaysAt(rules, b, ts', states', k) {
      if k < |ts| {
        assert PlaysAt(rules, b, ts, states, k);
      }
    }
  }

  lemma {:induction false} GameTurnsMore(rules: Rules, b: Bundle, s: set<EngineId>, members: set<EngineId>, m: EngineId,
                                         n: nat, ts: seq<Turn>, states: seq<State>)
    returns (ts': seq<Turn>, states': seq<State>)
    requires m in b && m in members && n <= |b[m].game| && (forall k :: k in s ==> k < m)
    requires GameTurnsOf(b, s, members, m, 0, ts) && Plays(rules, b, ts, states)
    ensures GameTurnsOf(b, s, members, m, n, ts') && Plays(rules, b, ts', states') && states'[0] == states[0]
    ensures states'[|ts'|] == ApplyAll(rules, b[m].game[..n], states[|ts|])
  {
    if n == 0 {
      ts', states' := ts, states;
    } else {
      ts', states' := GameTurnsMore(rules, b, s, members, m, n - 1, ts, states);
      assert b[m].game[..n][..n - 1] == b[m].game[..n - 1];
      var t := Turn(m, n - 1);
      OrderSnoc(ts', t);
      PlaysSnoc(rules, b, ts', states', t);
      ts', states' := ts' + [t], states' + [rules.apply(b[m].game[n - 1], states'[|ts'|])];
    }
  }

  lemma {:induction false} GameFoldInTurns(rules: Rules, b: Bundle, s: set<EngineId>, members: set<EngineId>,
                                           game: State)
    returns (ts: seq<Turn>, states: seq<State>)
    requires s <= b.Keys
    ensures InOrder(ts)
    ensures forall t :: t in ts <==> t.id in s && t.id in b && t.id in members && t.index < |b[t.id].game|
    ensures Plays(rules, b, ts, states) && states[0] == game
    ensures states[|ts|] == FoldGame(rules, b, Ascending(s), members, game)
    decreases |s|
  {
    if s == {} {
      ts, states := [], [game];
    } else {
      var m := Max(s);
      var rest := s - {m};
      ts, states := GameFoldInTurns(rules, b, rest, members, game);
      FoldGameSnoc(rules, b, Ascending(rest), m, members, game);
      assert forall k :: k in s <==> k in rest || k == m;
      if m in members {
        ts, states := GameTurnsMore(rules, b, rest, members, m, |b[m].game|, ts, states);
        assert b[m].game[..|b[m].game|] == b[m].game;
      }
    }
  }

  // ----- the frame

  /**
   * The step of a frame: all engine events, in order, change the members one by one; then all game events of those
   * who are members now, in order, change the game one by one; then the game thinks, once.
   */
  lemma StepInTurns(rules: Rules, w: World, b: Bundle)
    returns (engine: seq<Turn>, sets: seq<set<EngineId>>, game: seq<Turn>, states: seq<State>)
    ensures EngineTurns(b, engine) && Changes(b, engine, sets) && sets[0] == w.members
    ensures Step(rules, w, b).members == sets[|engine|]
    ensures GameTurns(b, sets[|engine|], game) && Plays(rules, b, game, states) && states[0] == w.game
    ensures Step(rules, w, b).game == rules.think(states[|game|])
  {
    engine, sets := EngineFoldInTurns(b, b.Keys, w.members);
    game, states := GameFoldInTurns(rules, b, b.Keys, sets[|engine|], w.game);
  }

  /** Every frame of a replay but the first, and an unthought placeholder, is such a step. */
  lemma ReplayInTurns(o: Origin, log: Log, f: int)
    returns (engine: seq<Turn>, sets: seq<set<EngineId>>, game: seq<Turn>, states: seq<State>)
    requires o.frame < f && (o.placeholder && f == o.frame + 1 ==> f in log)
    ensures var b, before, now := At(log, f), Replayed(o, log, f - 1), Replayed(o, log, f);
      && EngineTurns(b, engine) && Changes(b, engine, sets)
      && sets[0] == before.members && now.members == sets[|engine|]
      && GameTurns(b, sets[|engine|], game) && Plays(o.rules, b, game, states)
      && states[0] == before.game && now.game == o.rules.think(states[|game|])
  {
    engine, sets, game, states := StepInTurns(o.rules, Replayed(o, log, f - 1), At(log, f));
  }

  /** There is only one such order: it says which events there are, how many, and which comes when. */
  lemma {:induction false} OneOrder(ts: seq<Turn>, us: seq<Turn>)
    requires InOrder(ts) && InOrder(us) && forall t :: t in ts <==> t in us
    ensures ts == us
  {
    if ts == [] {
      SomeTurn(us);
    } else {
      assert ts[0] in us;
      LastOfAll(ts);
      LastOfAll(us);
      var t, u := ts[|ts| - 1], us[|us| - 1];
      assert t in us && u in ts;
      assert t == u;
      OneOrder(ts[..|ts| - 1], us[..|us| - 1]);
      assert ts == ts[..|ts| - 1] + [t] && us == us[..|us| - 1] + [t];
    }
  }

  lemma SomeTurn(ts: seq<Turn>)
    ensures ts != [] ==> exists t :: t in ts
  {
    if ts != [] {
      assert ts[0] in ts;
    }
  }

  lemma LastOfAll(ts: seq<Turn>)
    requires InOrder(ts) && ts != []
    ensures var rest, last := ts[..|ts| - 1], ts[|ts| - 1];
      && InOrder(rest) && (forall t :: t in rest ==> t.Before(last))
      && (forall t :: t in rest <==> t in ts && t != last)
  {
    assert ts == ts[..|ts| - 1] + [ts[|ts| - 1]];
  }

  lemma {:induction false} SameChanges(b: Bundle, ts: seq<Turn>, sets: seq<set<EngineId>>, sets': seq<set<EngineId>>)
    requires Changes(b, ts, sets) && Changes(b, ts, sets') && sets[0] == sets'[0]
    ensures sets[|ts|] == sets'[|ts|]
  {
    if ts != [] {
      var n := |ts| - 1;
      var ts0, sets0, sets0' := ts[..n], sets[..n + 1], sets'[..n + 1];
      forall k | 0 <= k < n ensures ChangesAt(b, ts0, sets0, k) && ChangesAt(b, ts0, sets0', k) {
        assert ChangesAt(b, ts, sets, k) && ChangesAt(b, ts, sets', k);
      }
      SameChanges(b, ts0, sets0, sets0');
      assert ChangesAt(b, ts, sets, n) && ChangesAt(b, ts, sets', n);
    }
  }

  lemma {:induction false} SamePlays(rules: Rules, b: Bundle, ts: seq<Turn>, states: seq<State>, states': seq<State>)
    requires Plays(rules, b, ts, states) && Plays(rules, b, ts, states') && states[0] == states'[0]
    ensures states[|ts|] == states'[|ts|]
  {
    if ts != [] {
      var n := |ts| - 1;
      var ts0, states0, states0' := ts[..n], states[..n + 1], states'[..n + 1];
      forall k | 0 <= k < n ensures PlaysAt(rules, b, ts0, states0, k) && PlaysAt(rules, b, ts0, states0', k) {
        assert PlaysAt(rules, b, ts, states, k) && PlaysAt(rules, b, ts, states', k);
      }
      SamePlays(rules, b, ts0, states0, states0');
      assert PlaysAt(rules, b, ts, states, n) && PlaysAt(rules, b, ts, states', n);
    }
  }

  /** So whoever goes through the events in that order ends in the step of the frame. */
  lemma TurnsGiveStep(rules: Rules, w: World, b: Bundle, engine: seq<Turn>, sets: seq<set<EngineId>>,
                      game: seq<Turn>, states: seq<State>)
    requires EngineTurns(b, engine) && Changes(b, engine, sets) && sets[0] == w.members
    requires GameTurns(b, sets[|engine|], game) && Plays(rules, b, game, states) && states[0] == w.game
    ensures Step(rules, w, b) == World(sets[|engine|], rules.think(states[|game|]))
  {
    var engine', sets', game', states' := StepInTurns(rules, w, b);
    OneOrder(engine, engine');
    SameChanges(b, engine, sets, sets');
    OneOrder(game, game');
    SamePlays(rules, b, game, states, states');
  }
}
