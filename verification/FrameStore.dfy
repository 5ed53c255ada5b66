/** The updater's window with the objects its slots refer to. */
module FrameStores {
  import opened Collections
  import opened Membership
  import opened Bundles
  import opened Replay
  import opened Rewind
  import opened Games
  import opened Window
  import opened Outbox

  /** No two slots share a game object or a bundle object. */
  ghost predicate Apart(c: seq<FrameData>) {
    && (forall i, j :: 0 <= i < j < |c| ==> c[i].game != c[j].game)
    && (forall i, j :: 0 <= i < j < |c| && c[i].bundle != null ==> c[i].bundle != c[j].bundle)
  }

  ghost function Objects(x: object?): (s: set<object>) {
    if x == null then {} else {x}
  }

  ghost predicate Owned(d: FrameData, repr: set<object>) {
    && d.game != null && d.game in repr
    && (d.bundle != null ==> d.bundle in repr)
    && (d.info.engines != null ==> d.info.engines in repr)
  }

  /** Both ways to begin put a copy of one game into every slot. */
  method FillWithCopies(window: DataWindow<FrameData>, game: Game)
    returns (ghost cells: seq<Game>, ghost owned: set<object>)
    requires window.Valid()
    modifies window.data, window`contents
    ensures window.Valid()
    ensures |cells| == window.data.Length
    ensures (forall x :: x in owned ==> fresh(x)) && (forall k :: 0 <= k < |cells| ==> cells[k] in owned)
    ensures forall k :: 0 <= k < |cells| ==> fresh(cells[k]) && cells[k].state == game.state
    ensures forall i, j :: 0 <= i < j < |cells| ==> cells[i] != cells[j]
    ensures forall k :: 0 <= k < |cells| ==> window.contents[k] == old(window.contents)[k].(game := cells[k])
  {
    cells, owned := [], {};
    var i := window.Start();
    while i < window.End()
      invariant (forall x :: x in owned ==> fresh(x)) && (forall k :: 0 <= k < |cells| ==> cells[k] in owned)
      invariant window.Valid() && i == window.first + |cells| <= window.End()
      invariant forall k :: 0 <= k < |cells| ==> fresh(cells[k]) && cells[k].state == game.state
      invariant forall j, k :: 0 <= j < k < |cells| ==> cells[j] != cells[k]
      invariant forall k :: 0 <= k < |cells| ==> window.contents[k] == old(window.contents)[k].(game := cells[k])
      invariant forall k :: |cells| <= k < window.data.Length ==> window.contents[k] == old(window.contents)[k]
    {
      var futureData := window.Get(i);
      var copy := game.Copy();
      window.Set(i, futureData.(game := copy));
      cells, owned := cells + [copy], owned + {copy};
      i := i + 1;
    }
  }

  /** The window of `Start`: every slot has its own copy of the game, the first one included. */
  method StartWindow(n: nat, frame: int, data: FrameData)
    returns (window: DataWindow<FrameData>, ghost games: seq<Game>, ghost owned: set<object>)
    requires 2 <= n && data.game != null
    ensures fresh(window) && fresh(window.data) && window.Valid() && window.first == frame
    ensures |window.contents| == n == |games|
    ensures forall x :: x in owned ==> fresh(x)
    ensures forall k :: 0 <= k < n ==>
      games[k] in owned && Shows(window.contents[k], StartLine(n, frame, data).slots[k])
    ensures window.contents[0] == data.(game := games[0])
    ensures forall k :: 1 <= k < n ==> window.contents[k] == FrameData(EngineInfo(null), games[k], null)
    ensures Apart(window.contents)
  {
    window := new DataWindow<FrameData>(n, frame, FrameData(EngineInfo(null), null, null));
    window.Set(frame, data);
    games, owned := FillWithCopies(window, data.game);
  }

  ghost function StartLine(n: nat, frame: int, data: FrameData): (t: Timeline)
    requires data.game != null
    reads data.info.engines, data.game, data.bundle
    ensures t.first == frame && |t.slots| == n
  {
    var bundle := if data.bundle == null then map[] else data.bundle.entries;
    var first := Slot(Members(data.info), data.game.state, bundle, data.bundle != null);
    var blank := Slot({}, data.game.state, map[], false);
    Timeline(frame, seq(n, k => if k == 0 then first else blank))
  }

  datatype BootstrapFrame = BootstrapFrame(frame: int, game: Game, info: EngineInfo)

  /** An empty entry for every engine, so that the joiner's first frame counts as complete. */
  method DummyBundle(info: EngineInfo) returns (bundle: EventBundle)
    ensures fresh(bundle) && bundle.entries == DummyEntries(Members(info))
  {
    bundle := new EventBundle();
    if info.engines != null {
      ghost var members := info.engines.entries.Keys;
      var todo := info.engines.entries.Keys;
      while todo != {}
        invariant forall k :: k in todo ==> k in members
        invariant forall k :: k in bundle.entries <==> k in members && k !in todo
        invariant forall k :: k in bundle.entries ==> bundle.entries[k] == NO_EVENTS
        decreases |todo|
      {
        ghost var some := Pick(todo);
        var k :| k in todo;
        bundle.entries := bundle.entries[k := AllEvents([], [])];
        todo := todo - {k};
      }
      forall k | k in members ensures k in bundle.entries {}
      forall k | k in bundle.entries
        ensures k in DummyEntries(members) && bundle.entries[k] == DummyEntries(members)[k]
      {
      }
      forall k | k in DummyEntries(members) ensures k in bundle.entries {}
    }
  }

  ghost function DummyEntries(members: set<EngineId>): Bundle {
    map k | k in members :: NO_EVENTS
  }

  /** The host's frame, and a placeholder for the next one. */
  method PlaceBoot(window: DataWindow<FrameData>, boot: BootstrapFrame, dummyBundles: EventBundle)
    returns (first: FrameData, second: FrameData)
    requires window.Valid() && window.first == boot.frame && 2 <= window.data.Length
    modifies window.data, window`contents
    ensures window.Valid() && window.contents == old(window.contents)[0 := first][1 := second]
    ensures first.game != null && first == FrameData(boot.info, first.game, dummyBundles)
    ensures second.game != null && second.bundle != null && second.info == boot.info
    ensures fresh(first.game) && fresh(second.game) && fresh(second.bundle) && first.game != second.game
    ensures first.game.state == second.game.state == boot.game.state && second.bundle.entries == map[]
  {
    var game := boot.game.Copy();
    first := FrameData(boot.info, game, dummyBundles);
    window.Set(boot.frame, first);
    var bundle := new EventBundle();
    var placeholder := boot.game.Copy();
    second := FrameData(boot.info, placeholder, bundle);
    window.Set(boot.frame + 1, second);
  }

  /** The window of `Bootstrap`: two frames filled in, blanks after them. */
  method BootWindow(n: nat, boot: BootstrapFrame)
    returns (window: DataWindow<FrameData>, ghost games: seq<Game>, ghost owned: set<object>)
    requires 2 <= n
    ensures fresh(window) && fresh(window.data) && window.Valid() && window.first == boot.frame
    ensures |window.contents| == n == |games|
    ensures forall x :: x in owned ==> fresh(x)
    ensures forall k :: 0 <= k < n ==> games[k] in owned && Shows(window.contents[k], BootLine(n, boot).slots[k])
    ensures forall k :: 0 <= k < n ==> window.contents[k].game == games[k]
    ensures forall k :: 0 <= k < n ==> window.contents[k].bundle == null || window.contents[k].bundle in owned
    ensures forall k :: 0 <= k < n ==> window.contents[k].info.engines == null || window.contents[k].info == boot.info
    ensures PlacedBoot(window.contents, boot)
    ensures Apart(window.contents)
  {
    window := new DataWindow<FrameData>(n, boot.frame, FrameData(EngineInfo(null), null, null));
    var dummyBundles := DummyBundle(boot.info);
    games, owned := FillWithCopies(window, boot.game);
    var first, second := PlaceBoot(window, boot, dummyBundles);
    games := games[0 := first.game][1 := second.game];
    owned := owned + {first.game, second.game, dummyBundles, second.bundle};
  }

  /**
   * The host's members on two frames, an empty entry for each of them on the first and none on the second; nothing
   * but a game on later ones, and the host's state on all.
   */
  ghost predicate PlacedBoot(c: seq<FrameData>, boot: BootstrapFrame)
    requires 2 <= |c|
    reads set d | d in c && d.game != null :: d.game, set d | d in c && d.bundle != null :: d.bundle
    reads boot.game, boot.info.engines
  {
    && (forall k :: 0 <= k < |c| ==> c[k].game != null && c[k].game.state == boot.game.state)
    && c[0].info == c[1].info == boot.info && c[0].bundle != null && c[1].bundle != null
    && (forall k :: k in c[0].bundle.entries <==> k in Members(boot.info))
    && (forall k :: k in c[0].bundle.entries ==> c[0].bundle.entries[k] == AllEvents([], []))
    && c[1].bundle.entries == map[]
    && (forall k :: 2 <= k < |c| ==> c[k].info.engines == null && c[k].bundle == null)
  }

  ghost function BootLine(n: nat, boot: BootstrapFrame): (t: Timeline)
    reads boot.info.engines, boot.game
    ensures t.first == boot.frame && |t.slots| == n
  {
    var members, state := Members(boot.info), boot.game.state;
    var first := Slot(members, state, DummyEntries(members), true);
    var placeholder := Slot(members, state, map[], true);
    var blank := Slot({}, state, map[], false);
    Timeline(boot.frame, seq(n, k => if k == 0 then first else if k == 1 then placeholder else blank))
  }

  /** `data_window`, and in ghost state what the objects it reaches hold. */
  class FrameStore {
    const rules: Rules
    const window: DataWindow<FrameData>

    ghost const base: int
    ghost const cells: Cells
    ghost var line: Timeline
    ghost var repr: set<object>

    /** The objects behind the window hold what `line` says, and no two slots share any that is written to. */
    ghost predicate Intact()
      reads this, repr
    {
      && Framed()
      && (forall k :: 0 <= k < |line.slots| ==> IntactSlot(k))
    }

    ghost predicate Framed()
      reads this, repr
    {
      && this in repr && window in repr && window.data in repr
      && window.Valid() && base <= window.first
      && line.first == window.first && 2 <= |line.slots| == window.data.Length
      && cells.first == base && 1 + |cells.others| == |line.slots|
      && Apart(window.contents)
    }

    ghost predicate IntactSlot(k: int)
      requires window.Valid() && 0 <= k < |line.slots| == window.data.Length
      requires window in repr && window.data in repr
      reads this, repr
    {
      && Owned(window.contents[k], repr)
      && Shows(window.contents[k], line.slots[k])
      && window.contents[k].game == cells.Of(line.first + k)
    }

    constructor Start(rules: Rules, n: nat, frame: int, data: FrameData)
      requires 2 <= n && data.game != null
      ensures Intact() && this.rules == rules && base == frame
      ensures line == StartLine(n, frame, data)
      ensures window.first == frame && |window.contents| == n
      ensures window.contents[0].info == data.info && window.contents[0].bundle == data.bundle
      ensures forall k :: 0 <= k < n ==>
        var game := window.contents[k].game; game != null && fresh(game) && game.state == data.game.state
      ensures forall k :: 1 <= k < n ==> window.contents[k].info.engines == null && window.contents[k].bundle == null
      ensures forall x :: x in repr ==> fresh(x) || x == data.bundle || x == data.info.engines
    {
      this.rules := rules;
      var w, games, owned := StartWindow(n, frame, data);
      window := w;
      base := frame;
      line := StartLine(n, frame, data);
      cells := Cells(frame, games[0], games[1..]);
      repr := {this, w, w.data} + owned + Objects(data.bundle) + Objects(data.info.engines);
    }

    constructor Bootstrap(rules: Rules, n: nat, boot: BootstrapFrame)
      requires 2 <= n
      ensures Intact() && this.rules == rules && base == boot.frame
      ensures line == BootLine(n, boot)
      ensures window.first == boot.frame && |window.contents| == n && PlacedBoot(window.contents, boot)
      ensures forall x :: x in repr ==> fresh(x) || x == boot.info.engines
    {
      this.rules := rules;
      var w, games, owned := BootWindow(n, boot);
      window := w;
      base := boot.frame;
      line := BootLine(n, boot);
      cells := Cells(boot.frame, games[0], games[1..]);
      repr := {this, w, w.data} + owned + Objects(boot.info.engines);
    }

    /** `data_window.Set` for a slot whose objects may have been written to since the matching `Get`. */
    method Put(frame: int, data: FrameData, ghost slot: Slot)
      requires Framed() && window.InBounds(frame) && Shows(data, slot)
      requires forall k :: 0 <= k < |line.slots| && k != frame - line.first ==> IntactSlot(k)
      requires data.game == window.contents[frame - line.first].game == cells.Of(frame) && data.game in repr
      requires data.bundle != window.contents[frame - line.first].bundle ==> data.bundle != null && data.bundle !in repr
      requires data.bundle == window.contents[frame - line.first].bundle && data.bundle != null ==> data.bundle in repr
      modifies this`line, this`repr, window.data, window`contents
      ensures Intact()
      ensures line == old(line).With(frame, slot) && window.contents == old(window.contents)[frame - line.first := data]
      ensures forall x :: x in repr ==> x in old(repr) || x == data.bundle || x == data.info.engines
      ensures Objects(data.bundle) + Objects(data.info.engines) <= old(repr) ==> repr == old(repr)
    {
      window.Set(frame, data);
      line := line.With(frame, slot);
      repr := repr + Objects(data.bundle) + Objects(data.info.engines);
      forall k | 0 <= k < |line.slots| ensures IntactSlot(k) {
        if k != frame - line.first {
          assert old(IntactSlot(k));
        }
      }
      assert Apart(window.contents) by {
        forall k | 0 <= k < |line.slots| && k != frame - line.first
          ensures window.contents[k].bundle == null || window.contents[k].bundle in old(repr)
        {
          assert old(IntactSlot(k));
        }
      }
    }

    method InitFrameData(frame: int)
      requires Intact()
      requires line.first < frame ==> line.Has(frame)
      modifies repr
      ensures Intact() && forall x :: x in repr ==> x in old(repr) || fresh(x)
      ensures frame <= old(line).first ==> line == old(line)
      ensures old(line).first < frame ==>
        line == old(line).With(frame, Slot(old(line).Of(frame - 1).members, old(line).Of(frame).game, map[], true))
    {
      if frame - 1 < window.Start() {
        return;
      }
      OpenAt(frame);
    }

    method OpenAt(frame: int)
      requires Intact() && window.InBounds(frame) && window.first < frame
      modifies repr
      ensures Intact() && forall x :: x in repr ==> x in old(repr) || fresh(x)
      ensures line == old(line).With(frame,
                                     Slot(old(line).Of(frame - 1).members, old(line).Of(frame).game, map[], true))
    {
      ghost var i := frame - line.first;
      assert IntactSlot(i) && IntactSlot(i - 1);
      ghost var slot := Slot(line.Of(frame - 1).members, line.Of(frame).game, map[], true);
      var prev := window.Get(frame - 1);
      var data := window.Get(frame);
      data := OpenFrame(prev, data, line.Of(frame - 1), line.Of(frame));
      forall k | 0 <= k < |line.slots| && k != i ensures IntactSlot(k) {
        assert old(IntactSlot(k));
      }
      Put(frame, data, slot);
    }

    /**
     * Get, absorb and set, as every handler does for the frame of a bundle. `ok` is false where the source
     * panics: on a slot that never had a bundle, and on an EngineId collision.
     */
    method AbsorbAt(frame: int, bundle: Bundle) returns (ok: bool)
      requires Intact() && window.InBounds(frame)
      modifies repr
      ensures repr == old(repr) && ok == old(line).Of(frame).Takes(bundle)
      ensures ok ==> Intact()
      ensures ok ==> line == old(line).With(frame, old(line).Of(frame).(bundle := old(line).Of(frame).bundle + bundle))
    {
      ghost var i := frame - line.first;
      assert IntactSlot(i);
      var data := window.Get(frame);
      if data.bundle == null {
        return false;
      }
      ok := data.bundle.AbsorbEventBundle(bundle);
      if ok {
        forall k | 0 <= k < |line.slots| && k != i ensures IntactSlot(k) {
          assert old(IntactSlot(k));
        }
        Put(frame, data, line.Of(frame).(bundle := line.Of(frame).bundle + bundle));
      }
    }

    /** One round of the rethink loop; the two games are never the same object. */
    method RethinkAt(frame: int, prev: FrameData) returns (data: FrameData)
      requires Intact() && window.InBounds(frame) && window.first < frame
      requires prev == window.contents[frame - 1 - window.first]
      requires line.Of(frame).bound && Identified(line.Of(frame).bundle)
      modifies repr
      ensures Intact() && forall x :: x in repr ==> x in old(repr) || fresh(x)
      ensures window.InBounds(frame) && data == window.contents[frame - line.first]
      ensures var w := Step(rules, old(line).Of(frame - 1).Seen(), old(line).Of(frame).bundle);
        line == old(line).With(frame, Slot(w.members, w.game, old(line).Of(frame).bundle, true))
    {
      ghost var i := frame - line.first;
      assert IntactSlot(i) && IntactSlot(i - 1);
      data := window.Get(frame);
      data := Rethink(rules, prev, data, line.Of(frame - 1), line.Of(frame));
      forall k | 0 <= k < |line.slots| && k != i ensures IntactSlot(k) {
        assert old(IntactSlot(k));
      }
      ghost var w := Step(rules, line.Of(frame - 1).Seen(), line.Of(frame).bundle);
      Put(frame, data, Slot(w.members, w.game, line.Of(frame).bundle, true));
    }

    method Slide()
      requires Intact()
      modifies repr
      ensures Intact() && repr == old(repr)
      ensures line == old(line).Slid() && window.first == old(window.first) + 1
    {
      window.Advance();
      line := line.Slid();
      assert cells.Of(line.first - 1 + |line.slots|) == cells.Of(line.first - 1);
      forall k | 0 <= k < |line.slots| ensures IntactSlot(k) {
        ghost var was := if k < |line.slots| - 1 then k + 1 else 0;
        assert old(IntactSlot(was));
      }
    }

    /** Advances past the start and reads the frame that is final now. */
    method TakeNext() returns (data: FrameData, world: World)
      requires Intact()
      modifies repr
      ensures Intact() && repr == old(repr) && line == old(line).Slid()
      ensures data.game == cells.Of(line.first) && world == line.slots[0].Seen()
    {
      assert IntactSlot(1);
      data := window.Get(window.Start() + 1);
      var members := {};
      if data.info.engines != null {
        members := data.info.engines.entries.Keys;
      }
      world := World(members, data.game.state);
      Slide();
    }
  }
}
