/** Engine membership: the part of core/engine.go that a frame replays. */
module Membership {
  import opened Collections

  type EngineId = int

  /** The two engine events the engine knows. */
  datatype EngineEvent = EngineJoined(id: EngineId) | EngineDropped(id: EngineId)

  function Applied(e: EngineEvent, members: set<EngineId>): set<EngineId> {
    match e
    case EngineJoined(id) => members + {id}
    case EngineDropped(id) => members - {id}
  }

  /** Left fold of `Applied`, unrolled at its last event as the loops are. */
  function AppliedAll(es: seq<EngineEvent>, members: set<EngineId>): set<EngineId> {
    if es == [] then members else Applied(es[|es| - 1], AppliedAll(es[..|es| - 1], members))
  }

  /** An engine no event drops is a member afterwards iff it was one before or some event joins it. */
  lemma {:induction false} UndroppedMember(es: seq<EngineEvent>, members: set<EngineId>, id: EngineId)
    requires EngineDropped(id) !in es
    ensures id in AppliedAll(es, members) <==> id in members || EngineJoined(id) in es
  {
    if es != [] {
      UndroppedMember(es[..|es| - 1], members, id);
      assert es == es[..|es| - 1] + [es[|es| - 1]];
    }
  }

  /** The mutable map behind `EngineInfo.Engines`. */
  class EngineMap {
    var entries: map<EngineId, bool>

    constructor ()
      ensures entries == map[]
    {
      entries := map[];
    }

    method Apply(e: EngineEvent)
      modifies this
      ensures entries.Keys == Applied(e, old(entries.Keys))
      ensures forall k :: k in entries ==> entries[k] == if e == EngineJoined(k) then true else old(entries[k])
    {
      match e
      case EngineJoined(id) => entries := entries[id := true];
      case EngineDropped(id) => entries := entries - {id};
    }
  }

  /** A struct that holds a map: copying the struct shares the map, and a nil map is `null`. */
  datatype EngineInfo = EngineInfo(engines: EngineMap?)

  ghost function Members(info: EngineInfo): set<EngineId>
    reads info.engines
  {
    if info.engines == null then {} else info.engines.entries.Keys
  }

  /** The copy never shares its map, and its map is never nil, even when the original's is. */
  method Copy(info: EngineInfo) returns (info2: EngineInfo)
    ensures info2.engines != null && fresh(info2.engines)
    ensures Members(info2) == Members(info)
    ensures info.engines != null ==> info2.engines.entries == info.engines.entries
  {
    var engines := new EngineMap();
    if info.engines != null {
      ghost var original := info.engines.entries;
      var todo := info.engines.entries.Keys;
      while todo != {}
        invariant info.engines.entries == original && fresh(engines)
        invariant forall k :: k in todo ==> k in original
        invariant forall k :: k in engines.entries <==> k in original && k !in todo
        invariant forall k :: k in engines.entries ==> engines.entries[k] == original[k]
        decreases |todo|
      {
        ghost var some := Pick(todo);
        var k :| k in todo;
        engines.entries := engines.entries[k := info.engines.entries[k]];
        todo := todo - {k};
      }
      forall k | k in original ensures k in engines.entries && engines.entries[k] == original[k] {}
      forall k | k in engines.entries ensures k in original {}
    }
    info2 := EngineInfo(engines);
  }
}
