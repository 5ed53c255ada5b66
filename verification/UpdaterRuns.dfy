/** What holds of updater objects between any two handlers, whatever ran before. */
module UpdaterRuns {
  import opened Membership
  import opened Bundles
  import opened Replay
  import opened Agreement
  import opened Rewind
  import opened Outbox
  import opened Updaters
  import opened Turns

  /**
   * Rollback refines replay: every frame's objects, final or speculative, hold what a replay from the first
   * frame on gives, so each is the step of its predecessor with its own bundle. Only the placeholder of a
   * joiner is no step.
   */
  lemma WindowShowsReplay(u: Updater, f: int)
    requires u.Valid() && u.frames.line.first <= f <= u.globalFrame
    ensures u.frames.window.InBounds(f)
    ensures var d := u.frames.window.contents[f - u.frames.line.first];
      && d.game != null && World(Members(d.info), d.game.state) == Replayed(u.origin, u.used, f)
      && (u.frames.line.first < f ==> d.bundle != null && d.bundle.entries == At(u.used, f))
  {
    assert u.frames.IntactSlot(f - u.frames.line.first);
    assert ThoughtAt(u.origin, u.used, u.frames.line, f);
    if u.frames.line.first < f {
      assert BundledAt(u.used, u.frames.line, f);
    }
  }

  lemma EachFrameIsAStep(u: Updater, f: int)
    requires u.Valid() && u.frames.line.first < f <= u.globalFrame
    requires Unthought(u.origin, u.used) ==> f != u.origin.frame + 1
    ensures u.frames.window.InBounds(f) && u.frames.window.InBounds(f - 1)
    ensures var c, i := u.frames.window.contents, f - u.frames.line.first;
      && c[i - 1].game != null && c[i].game != null && c[i].bundle != null
      && World(Members(c[i].info), c[i].game.state)
        == Step(u.origin.rules, World(Members(c[i - 1].info), c[i - 1].game.state), c[i].bundle.entries)
  {
    WindowShowsReplay(u, f - 1);
    WindowShowsReplay(u, f);
  }

  /**
   * The same one event at a time, on the objects of any live frame and whatever arrived: from the members and the
   * game of the frame before, its own bundle's engine events make its members, and the game events of those its
   * game, which then thinks once.
   */
  lemma LiveFrameInTurns(u: Updater, f: int)
    returns (engine: seq<Turn>, sets: seq<set<EngineId>>, game: seq<Turn>, states: seq<State>)
    requires u.Valid() && u.frames.line.first < f <= u.globalFrame
    requires u.origin.placeholder && f == u.origin.frame + 1 ==> f in u.used
    ensures u.frames.window.InBounds(f) && u.frames.window.InBounds(f - 1)
    ensures var before, now := u.frames.window.contents[f - 1 - u.frames.line.first],
                               u.frames.window.contents[f - u.frames.line.first];
      && before.game != null && now.game != null && now.bundle != null
      && EngineTurns(now.bundle.entries, engine) && Changes(now.bundle.entries, engine, sets)
      && sets[0] == Members(before.info) && Members(now.info) == sets[|engine|]
      && GameTurns(now.bundle.entries, Members(now.info), game)
      && Plays(u.origin.rules, now.bundle.entries, game, states)
      && states[0] == before.game.state && now.game.state == u.origin.rules.think(states[|game|])
  {
    WindowShowsReplay(u, f - 1);
    WindowShowsReplay(u, f);
    engine, sets, game, states := ReplayInTurns(u.origin, u.used, f);
  }

  /** What the window is stopped by: someone is a member of the frame above the start and not in its bundle. */
  lemma WaitsForSomeone(u: Updater)
    requires u.Valid() && u.frames.line.first < u.globalFrame
    requires u.origin.placeholder ==> u.origin.world.members != {}
    ensures u.frames.window.InBounds(u.frames.line.first + 1)
    ensures var next := u.frames.window.contents[1];
      next.bundle != null && exists k :: k in Members(next.info) && k !in next.bundle.entries
  {
    RestedSettles(u.Hist());
    WindowShowsReplay(u, u.frames.line.first + 1);
  }

  /** What it has slid past: nobody is a member of a final frame whose events were not used for it. */
  lemma FinalHasEveryone(u: Updater, f: int, k: EngineId)
    requires u.Valid() && u.origin.frame < f <= u.frames.line.first && k in Replayed(u.origin, u.used, f).members
    ensures f in u.used && k in u.used[f]
  {
    assert RecordedAt(u.Hist(), f);
  }

  /** An updater begins on the world it was given. */
  lemma BeginsOnItsWorld(u: Updater)
    requires u.Valid() && u.frames.line.first == u.origin.frame
    ensures var first := u.frames.window.contents[0];
      first.game != null && first.game.state == u.origin.world.game && Members(first.info) == u.origin.world.members
  {
    WindowShowsReplay(u, u.origin.frame);
  }

  /** Every access of the handlers is in bounds. */
  lemma CursorsInBounds(u: Updater)
    requires u.Valid()
    ensures u.frames.window.Start() <= u.globalFrame < u.frames.window.End()
    ensures u.frames.window.Start() < u.oldestDirtyFrame == u.globalFrame + 1
    ensures u.frames.window.InBounds(u.oldestDirtyFrame - 1)
  {
    assert u.frames.IntactSlot(0);
  }

  /**
   * The object exposed for a final frame holds that frame's game until the frame one window later is known:
   * only then is its slot written to.
   */
  lemma ExposedUntilRecycled(u: Updater, f: int)
    requires u.Valid() && u.origin.frame <= f <= u.frames.line.first && u.globalFrame < f + u.frames.window.data.Length
    ensures u.frames.cells.Of(f).state == Replayed(u.origin, u.used, f).game
  {
    var n := u.frames.window.data.Length;
    if f == u.frames.line.first {
      assert u.frames.IntactSlot(0) && ThoughtAt(u.origin, u.used, u.frames.line, f);
    } else {
      var q := f + n;
      assert u.frames.IntactSlot(q - u.frames.line.first) && RestsAt(u.origin, u.used, u.frames.line, q);
      assert u.frames.cells.Of(f + n) == u.frames.cells.Of(f);
    }
  }

  /** Within one window, different frames never share a game object. */
  lemma GamesApart(u: Updater, f: int, g: int)
    requires u.Valid() && u.frames.window.InBounds(f) && u.frames.window.InBounds(g) && f != g
    ensures u.frames.cells.Of(f) != u.frames.cells.Of(g)
  {
    assert u.frames.IntactSlot(f - u.frames.line.first) && u.frames.IntactSlot(g - u.frames.line.first);
  }

  /** Offers frame `f`, with its object and its canonical world. */
  ghost predicate OfferedAs(s: Sent, cells: Cells, o: Origin, table: Log, f: int)
    requires o.frame <= f
  {
    s == Offered(f, cells.Of(f), Canonical(o, table, f))
  }

  ghost predicate CanonicalOffers(sent: seq<Sent>, cells: Cells, o: Origin, table: Log, start: int) {
    && |OffersIn(sent)| == start - o.frame
    && forall k :: 0 <= k < |OffersIn(sent)| ==> OfferedAs(OffersIn(sent)[k], cells, o, table, o.frame + 1 + k)
  }

  lemma OfferIsCanonical(h: History, cells: Cells, table: Log, k: nat)
    requires Recorded(h) && Lawful(h, table) && k < h.start - h.origin.frame
    ensures var offers := Offers(h.origin, h.used, cells, h.origin.frame, h.start);
      && |offers| == h.start - h.origin.frame
      && OfferedAs(offers[k], cells, h.origin, table, h.origin.frame + 1 + k)
  {
    var f := h.origin.frame + 1 + k;
    OffersListed(h.origin, h.used, cells, h.origin.frame, h.start, k);
    FinalIsCanonical(h, table, f);
    assert Offer(h.origin, h.used, cells, f) == Offered(f, cells.Of(f), Canonical(h.origin, table, f));
  }

  lemma OffersAreCanonical(h: History, l: Ledger, table: Log)
    requires Recorded(h) && Lawful(h, table)
    requires OffersIn(l.sent) == Offers(h.origin, h.used, l.cells, h.origin.frame, h.start)
    ensures CanonicalOffers(l.sent, l.cells, h.origin, table, h.start)
  {
    if h.origin.frame < h.start {
      OfferIsCanonical(h, l.cells, table, 0);
    }
    forall k | 0 <= k < |OffersIn(l.sent)|
      ensures OfferedAs(OffersIn(l.sent)[k], l.cells, h.origin, table, h.origin.frame + 1 + k)
    {
      OfferIsCanonical(h, l.cells, table, k);
    }
  }

  /** What the books of a hosting updater say about its offers. */
  lemma BooksOffer(h: History, l: Ledger)
    requires h.origin.frame <= h.start && Balanced(h.origin, h.used, h.start, l) && l.hosting
    ensures OffersIn(l.sent) == Offers(h.origin, h.used, l.cells, h.origin.frame, h.start)
    ensures Preceded(l.id, l.sent)
  {
  }

  /**
   * The frames offered are exactly the final ones, each once, in order, with their canonical worlds; and
   * those of which the local engine is a member only after its own bundle for them was sent.
   */
  lemma OffersAreFinalFrames(u: Updater, table: Log)
    requires u.Valid() && u.hosting && Lawful(u.Hist(), table)
    ensures CanonicalOffers(u.sent, u.frames.cells, u.origin, table, u.frames.line.first)
    ensures Preceded(u.id, u.sent)
  {
    BooksOffer(u.Hist(), u.Books());
    OffersAreCanonical(u.Hist(), u.Books(), table);
  }

  /** Agreement of two updater objects on every frame final in both. */
  lemma UpdatersAgree(u: Updater, v: Updater, table: Log, f: int)
    requires u.Valid() && v.Valid() && Lawful(u.Hist(), table) && Lawful(v.Hist(), table)
    requires Plain(u.origin) == Plain(v.origin)
    requires u.origin.frame <= f <= u.frames.line.first && f <= v.frames.line.first
    requires u.globalFrame < f + u.frames.window.data.Length && v.globalFrame < f + v.frames.window.data.Length
    ensures u.frames.cells.Of(f).state == v.frames.cells.Of(f).state == Canonical(u.origin, table, f).game
  {
    ExposedUntilRecycled(u, f);
    ExposedUntilRecycled(v, f);
    FinalIsCanonical(u.Hist(), table, f);
    FinalIsCanonical(v.Hist(), table, f);
  }

  /** Confluence of two updater objects, down to the states in their windows. */
  lemma UpdatersConverge(u: Updater, v: Updater, table: Log, f: int)
    requires u.Valid() && v.Valid() && Lawful(u.Hist(), table) && Lawful(v.Hist(), table)
    requires u.origin == v.origin && u.delivered == v.delivered
    ensures u.frames.line.first == v.frames.line.first && u.globalFrame == v.globalFrame
    ensures u.frames.line.first <= f <= u.globalFrame ==>
      && u.frames.window.InBounds(f) && v.frames.window.InBounds(f)
      && u.frames.line.Of(f).Seen() == v.frames.line.Of(f).Seen()
      && (u.frames.line.first < f ==> u.frames.line.Of(f).bundle == v.frames.line.Of(f).bundle)
  {
    RestedSettles(u.Hist());
    RestedSettles(v.Hist());
    Confluence(u.Hist(), v.Hist(), table);
    if u.frames.line.first <= f <= u.globalFrame {
      assert ThoughtAt(u.origin, u.used, u.frames.line, f) && ThoughtAt(v.origin, v.used, v.frames.line, f);
      assert u.Hist().WorldAt(f) == v.Hist().WorldAt(f);
      if u.frames.line.first < f {
        assert BundledAt(u.used, u.frames.line, f) && BundledAt(v.used, v.frames.line, f);
      }
    }
  }

  /** While the local engine is a member of the newest final frame, its next local bundle is above that. */
  lemma NextLocalIsAboveStart(u: Updater, fb: FrameBundle)
    requires u.Valid() && u.skipToFrame == 0 && u.localFrame < fb.frame
    requires u.origin.frame < u.frames.line.first ==> u.id in u.Hist().WorldAt(u.frames.line.first).members
    ensures u.frames.line.first < fb.frame
  {
    forall f | u.id in At(u.used, f) ensures f <= u.localFrame {
      assert LocalAt(u.used, u.id, u.localFrame, u.skipToFrame, f);
    }
    LocalStaysAhead(u.Hist(), u.id, u.localFrame);
  }

  /** A joiner has not finalised the frame on which it saw its join, as long as it is a member of it. */
  lemma JoinerHasNotPassedItsFrame(u: Updater)
    requires u.Valid() && u.skipToFrame != 0 && u.skipToFrame != -1
    ensures u.origin.frame < u.skipToFrame <= u.globalFrame && SaysJoined(At(u.used, u.skipToFrame), u.id)
    ensures u.id in u.Hist().WorldAt(u.skipToFrame).members ==> u.frames.line.first < u.skipToFrame
    ensures NeverDropped(At(u.used, u.skipToFrame), u.id) ==> u.id in u.Hist().WorldAt(u.skipToFrame).members
  {
    MissedAreFree(u.Hist(), u.Books(), u.localFrame, u.skipToFrame);
  }

  /** What is delivered once per engine and frame, in bounds, never makes the handlers panic. */
  lemma OnceDeliveredIsDeliverable(h: History, n: nat, id: EngineId, group: seq<FrameBundle>)
    requires Recorded(h) && OncePerEngine(group)
    requires forall fb :: fb in group ==> Foreign(fb, id) && fb.frame < h.start + n
    requires forall fb, k :: fb in group && k in fb.bundle ==> k !in At(h.delivered, fb.frame)
    ensures Deliverable(h, n, id, group)
  {
    forall i | 0 <= i < |group|
      ensures DeliverableAt(h, n, id, group, i)
    {
      var fb := group[i];
      assert fb in group;
      forall k | k in fb.bundle && h.start < fb.frame
        ensures k !in At(DeliverAll(h, group[..i]).used, fb.frame)
      {
        UsedWhence(h, group[..i], fb.frame, k);
        assert RecordedAt(h, fb.frame);
        forall j | 0 <= j < i && group[j].frame == fb.frame
          ensures k !in group[j].bundle
        {
        }
      }
    }
  }

  lemma {:induction false} UsedWhence(h: History, fbs: seq<FrameBundle>, f: int, k: EngineId)
    ensures k in At(DeliverAll(h, fbs).used, f) ==>
      k in At(h.used, f) || exists j :: 0 <= j < |fbs| && fbs[j].frame == f && k in fbs[j].bundle
  {
    if fbs != [] {
      var rest := fbs[..|fbs| - 1];
      UsedWhence(h, rest, f, k);
      assert fbs[|fbs| - 1] == fbs[|fbs| - 1];
      if j :| 0 <= j < |rest| && rest[j].frame == f && k in rest[j].bundle {
        assert fbs[j] == rest[j];
      }
    }
  }
}
