/** The rollback state machine: core/updater.go. */
module Updaters {
  import opened Collections
  import opened Membership
  import opened Bundles
  import opened Replay
  import opened Agreement
  import opened Rewind
  import opened Games
  import opened FrameStores
  import opened Sweep
  import opened Outbox

  /**
   * What every handler keeps of an updater's record: it is at rest and its books are balanced; events of the
   * local engine are there only up to its newest local frame; and a joiner that waits for its first local
   * bundle has supplied none, and was told of its join on the frame it is to begin on.
   */
  ghost predicate Kept(h: History, l: Ledger, local: int, skip: int) {
    && Rested(h) && Balanced(h.origin, h.used, h.start, l)
    && (forall f :: NamedAt(h.used, f))
    && h.origin.frame <= local
    && (forall f :: LocalAt(h.used, l.id, local, skip, f))
    && (skip != 0 ==> 0 <= h.origin.frame)
    && (skip != 0 && skip != -1 ==> h.origin.frame < skip <= h.global && JoinSeen(h.used, skip, l.id))
  }

  ghost predicate JoinSeen(used: Log, f: int, id: EngineId) {
    f in used && SaysJoined(used[f], id)
  }

  ghost predicate NamedAt(used: Log, f: int) {
    Identified(At(used, f))
  }

  ghost predicate LocalAt(used: Log, id: EngineId, local: int, skip: int, f: int) {
    id in At(used, f) ==> f <= local && skip == 0
  }

  /** The loop over the ids of a frame's own membership. */
  method AllPresent(data: FrameData) returns (allPresent: bool)
    requires data.bundle != null
    ensures allPresent <==> forall k :: k in Members(data.info) ==> k in data.bundle.entries
  {
    allPresent := true;
    if data.info.engines != null {
      var todo := data.info.engines.entries.Keys;
      while todo != {}
        invariant forall k :: k in todo ==> k in data.info.engines.entries
        invariant allPresent <==> forall k :: k in data.info.engines.entries && k !in todo ==> k in data.bundle.entries
        decreases |todo|
      {
        ghost var some := Pick(todo);
        var k :| k in todo;
        if k !in data.bundle.entries {
          allPresent := false;
        }
        todo := todo - {k};
      }
    }
  }

  class Updater {
    const id: EngineId
    const hosting: bool
    const frames: FrameStore

    var skipToFrame: int
    var localFrame: int
    var globalFrame: int
    var oldestDirtyFrame: int
    var finalRequests: seq<Waiter>
    var sent: seq<Sent>
    var replies: seq<Reply>

    ghost const origin: Origin
    ghost var used: Log
    ghost var delivered: Log
    ghost var asked: multiset<Waiter>

    ghost function Hist(): History
      reads this, frames
    {
      History(origin, used, delivered, frames.line.first, globalFrame)
    }

    ghost function Books(): Ledger
      reads this
    {
      Ledger(id, hosting, frames.cells, sent, replies, finalRequests, asked)
    }

    /** Between handlers. */
    ghost predicate Valid()
      reads this, frames, frames.repr
    {
      && Ready() && oldestDirtyFrame == globalFrame + 1
      && frames.rules == origin.rules && frames.base == origin.frame
      && Kept(Hist(), Books(), localFrame, skipToFrame)
    }

    /** In the middle of a handler: every frame below `oldestDirtyFrame` is clean. */
    ghost predicate Ready()
      reads this, frames, frames.repr
    {
      && this !in frames.repr && frames.Intact()
      && Faithful(origin, used, frames.line, globalFrame, oldestDirtyFrame)
    }

    constructor Start(rules: Rules, id: EngineId, maxFrames: nat, hosting: bool, frame: int, data: FrameData)
      requires 1 <= maxFrames && data.game != null
      ensures Valid() && Hist() == Unplayed(origin) && skipToFrame == 0 && localFrame == globalFrame == frame
      ensures this.id == id && this.hosting == hosting && sent == [] && replies == [] && finalRequests == []
      ensures fresh(frames) && forall x :: x in frames.repr ==> fresh(x) || x == data.bundle || x == data.info.engines
      ensures origin == Origin(rules, frame, World(Members(data.info), data.game.state), false)
      ensures frames.line.first == frame && |frames.line.slots| == maxFrames + 1
    {
      this.id, this.hosting := id, hosting;
      frames := new FrameStore.Start(rules, maxFrames + 1, frame, data);
      skipToFrame, localFrame, globalFrame, oldestDirtyFrame := 0, frame, frame, frame + 1;
      finalRequests, sent, replies, asked := [], [], [], multiset{};
      origin := Origin(rules, frame, World(Members(data.info), data.game.state), false);
      used, delivered := map[], map[];
      new;
      BalancedAtFirst(origin, Books());
      FaithfulStart(origin, frames.line, data);
    }

    constructor Bootstrap(rules: Rules, id: EngineId, maxFrames: nat, hosting: bool, boot: BootstrapFrame)
      requires 1 <= maxFrames && 0 <= boot.frame
      ensures Valid() && Hist() == Unplayed(origin) && skipToFrame == -1
      ensures localFrame == globalFrame == boot.frame + 1
      ensures this.id == id && this.hosting == hosting && sent == [] && replies == [] && finalRequests == []
      ensures fresh(frames) && forall x :: x in frames.repr ==> fresh(x) || x == boot.info.engines
      ensures origin == Origin(rules, boot.frame, World(Members(boot.info), boot.game.state), true)
      ensures frames.line.first == boot.frame && |frames.line.slots| == maxFrames + 1
    {
      this.id, this.hosting := id, hosting;
      frames := new FrameStore.Bootstrap(rules, maxFrames + 1, boot);
      skipToFrame, localFrame, globalFrame, oldestDirtyFrame := -1, boot.frame + 1, boot.frame + 1, boot.frame + 2;
      finalRequests, sent, replies, asked := [], [], [], multiset{};
      origin := Origin(rules, boot.frame, World(Members(boot.info), boot.game.state), true);
      used, delivered := map[], map[];
      new;
      BalancedAtFirst(origin, Books());
      FaithfulBoot(origin, frames.line, boot);
    }

    method FulfillFinalRequests()
      requires frames.Intact()
      modifies `finalRequests, `replies
      ensures finalRequests == Swept(old(finalRequests), frames.line.first, 0).1
      ensures replies == old(replies) + Answers(Swept(old(finalRequests), frames.line.first, 0).0, frames.line.first,
                                                frames.cells.Of(frames.line.first), frames.line.slots[0].game)
      ensures AnswersTo(frames.window.first, frames.window.contents[0].game, old(replies), replies)
      ensures multiset(old(finalRequests))
           == multiset(finalRequests) + multiset(Addressees(replies[|old(replies)|..]))
      ensures Distinct(old(finalRequests)) ==> forall w :: w in finalRequests ==> w.frame != frames.window.first
    {
      assert frames.IntactSlot(0);
      var start := frames.window.Start();
      ghost var done: seq<Waiter>, all := [], Swept(finalRequests, start, 0);
      var i := 0;
      while i < |finalRequests|
        invariant i <= |finalRequests| + 1
        invariant all.0 == done + Swept(finalRequests, start, i).0 && all.1 == Swept(finalRequests, start, i).1
        invariant replies == old(replies) + Answers(done, start, frames.cells.Of(start), frames.line.slots[0].game)
        decreases |finalRequests| + 1 - i
      {
        if finalRequests[i].frame == start {
          var data := frames.window.Get(start);
          replies := replies + [Reply(finalRequests[i], start, data.game, data.game.state)];
          done := done + [finalRequests[i]];
          finalRequests := finalRequests[i := finalRequests[|finalRequests| - 1]];
          finalRequests := finalRequests[..|finalRequests| - 1];
        }
        i := i + 1;
      }
      assert all.0 == done;
      FulfilledPlainly(old(finalRequests), start, frames.cells.Of(start), old(replies));
    }

    method RethinkOne(frame: int, prev: FrameData) returns (data: FrameData)
      requires frames.Intact() && frames.rules == origin.rules && this !in frames.repr
      requires Faithful(origin, used, frames.line, globalFrame, frame) && frame <= globalFrame
      requires prev == frames.window.contents[frame - 1 - frames.line.first]
      requires Identified(At(used, frame))
      modifies frames.repr
      ensures frames.Intact() && frames.line.first == old(frames.line.first)
      ensures forall x :: x in frames.repr ==> x in old(frames.repr) || fresh(x)
      ensures Faithful(origin, used, frames.line, globalFrame, frame + 1)
      ensures data == frames.window.contents[frame - frames.line.first]
    {
      assert BundledAt(used, frames.line, frame);
      FaithfulRethink(origin, used, frames.line, globalFrame, frame);
      data := frames.RethinkAt(frame, prev);
    }

    /** Rethinks the dirty frames, oldest first. */
    method RethinkDirty()
      requires frames.Intact() && frames.rules == origin.rules && this !in frames.repr
      requires Faithful(origin, used, frames.line, globalFrame, oldestDirtyFrame)
      requires forall f :: NamedAt(used, f)
      modifies `oldestDirtyFrame, frames.repr
      ensures frames.Intact() && oldestDirtyFrame == globalFrame + 1
      ensures Faithful(origin, used, frames.line, globalFrame, globalFrame + 1)
      ensures forall x :: x in frames.repr ==> x in old(frames.repr) || fresh(x)
      ensures frames.line.first == old(frames.line.first)
    {
      var prev := frames.window.Get(oldestDirtyFrame - 1);
      var frame := oldestDirtyFrame;
      while frame <= globalFrame
        invariant frames.Intact() && this !in frames.repr
        invariant forall x :: x in frames.repr ==> x in old(frames.repr) || fresh(x)
        invariant frames.line.first == old(frames.line.first) < frame <= globalFrame + 1
        invariant Faithful(origin, used, frames.line, globalFrame, frame)
        invariant prev == frames.window.contents[frame - 1 - frames.line.first]
      {
        assert NamedAt(used, frame);
        prev := RethinkOne(frame, prev);
        frame := frame + 1;
      }
      oldestDirtyFrame := globalFrame + 1;
    }

    /** Slides past every frame that is complete, offering it and answering who waits for it. */
    method SlideComplete()
      requires frames.Intact() && this !in frames.repr && origin.frame <= frames.line.first
      requires Faithful(origin, used, frames.line, globalFrame, globalFrame + 1)
      modifies `finalRequests, `sent, `replies, frames.repr
      ensures frames.Intact() && frames.repr == old(frames.repr)
      ensures Faithful(origin, used, frames.line, globalFrame, globalFrame + 1)
      ensures old(frames.line.first) <= frames.line.first
      ensures CompleteUpTo(origin, used, old(frames.line.first), frames.line.first)
      ensures origin.frame <= frames.line.first < globalFrame ==> !CompleteFrame(origin, used, frames.line.first + 1)
      ensures Books() == Advanced(origin, used, old(frames.line.first), frames.line.first, old(Books()))
    {
      ghost var first, books, repr := frames.line.first, Books(), frames.repr;
      while frames.window.Start() < globalFrame
        invariant frames.Intact() && frames.repr == repr
        invariant Faithful(origin, used, frames.line, globalFrame, globalFrame + 1)
        invariant first <= frames.line.first
        invariant CompleteUpTo(origin, used, first, frames.line.first)
        invariant Books() == Advanced(origin, used, first, frames.line.first, books)
        decreases globalFrame - frames.line.first
      {
        var allPresent := NextComplete();
        if !allPresent {
          break;
        }
        SlideNext(first, books);
      }
    }

    method SlideNext(ghost a: int, ghost books: Ledger)
      requires frames.Intact() && this !in frames.repr && frames.line.first < globalFrame
      requires Faithful(origin, used, frames.line, globalFrame, globalFrame + 1)
      requires origin.frame <= a <= frames.line.first && CompleteFrame(origin, used, frames.line.first + 1)
      requires CompleteUpTo(origin, used, a, frames.line.first)
      requires Books() == Advanced(origin, used, a, frames.line.first, books)
      modifies `finalRequests, `sent, `replies, frames.repr
      ensures frames.Intact() && frames.repr == old(frames.repr)
      ensures frames.line.first == old(frames.line.first) + 1
      ensures Faithful(origin, used, frames.line, globalFrame, globalFrame + 1)
      ensures CompleteUpTo(origin, used, a, frames.line.first)
      ensures Books() == Advanced(origin, used, a, frames.line.first, books)
    {
      SlideOne();
    }

    /** Rethinks what is dirty, then slides as far as it can. */
    method Advance()
      requires frames.Intact() && frames.rules == origin.rules && this !in frames.repr
      requires Faithful(origin, used, frames.line, globalFrame, oldestDirtyFrame)
      requires forall f :: NamedAt(used, f)
      modifies `oldestDirtyFrame, `finalRequests, `sent, `replies, frames.repr
      ensures frames.Intact() && oldestDirtyFrame == globalFrame + 1
      ensures forall x :: x in frames.repr ==> x in old(frames.repr) || fresh(x)
      ensures Faithful(origin, used, frames.line, globalFrame, globalFrame + 1)
      ensures SlidesTo(origin, used, old(frames.line.first), globalFrame, frames.line.first)
      ensures Books() == Advanced(origin, used, old(frames.line.first), frames.line.first, old(Books()))
    {
      RethinkDirty();
      SlideComplete();
    }

    method NextComplete() returns (allPresent: bool)
      requires frames.Intact() && origin.frame <= frames.line.first < globalFrame
      requires Faithful(origin, used, frames.line, globalFrame, globalFrame + 1)
      ensures allPresent <==> CompleteFrame(origin, used, frames.line.first + 1)
    {
      ghost var f := frames.line.first + 1;
      assert frames.IntactSlot(1) && BundledAt(used, frames.line, f) && ThoughtAt(origin, used, frames.line, f);
      var data := frames.window.Get(frames.window.Start() + 1);
      allPresent := AllPresent(data);
    }

    method SlideStore() returns (data: FrameData, world: World)
      requires frames.Intact() && this !in frames.repr && frames.line.first < globalFrame
      requires Faithful(origin, used, frames.line, globalFrame, globalFrame + 1)
      modifies frames.repr
      ensures frames.Intact() && frames.repr == old(frames.repr)
      ensures frames.line.first == old(frames.line.first) + 1
      ensures Faithful(origin, used, frames.line, globalFrame, globalFrame + 1)
      ensures data.game == frames.cells.Of(frames.line.first)
      ensures frames.line.slots[0].Seen() == world == Replayed(origin, used, frames.line.first)
    {
      FaithfulSlide(origin, used, frames.line, globalFrame);
      data, world := frames.TakeNext();
      assert ThoughtAt(origin, used, frames.line, frames.line.first);
    }

    method SlideOne()
      requires frames.Intact() && this !in frames.repr && frames.line.first < globalFrame
      requires Faithful(origin, used, frames.line, globalFrame, globalFrame + 1)
      modifies `finalRequests, `sent, `replies, frames.repr
      ensures frames.Intact() && frames.repr == old(frames.repr)
      ensures frames.line.first == old(frames.line.first) + 1
      ensures Faithful(origin, used, frames.line, globalFrame, globalFrame + 1)
      ensures Books() == SlidLedger(origin, used, old(frames.line.first), old(Books()))
    {
      var data, world := SlideStore();
      if hosting {
        sent := sent + [Offered(frames.window.Start(), data.game, world)];
      }
      AnswerWaiting();
    }

    method AnswerWaiting()
      requires frames.Intact()
      modifies `finalRequests, `replies
      ensures finalRequests == Swept(old(finalRequests), frames.line.first, 0).1
      ensures replies == old(replies) + Answers(Swept(old(finalRequests), frames.line.first, 0).0, frames.line.first,
                                                frames.cells.Of(frames.line.first), frames.line.slots[0].game)
    {
      FulfillFinalRequests();
    }

    /** `initFrameData` for every frame after `globalFrame`, up to `to`. */
    method InitFrames(from: int, to: int)
      requires Ready() && from == globalFrame + 1
      requires to < frames.line.first + frames.window.data.Length && forall f :: f in used ==> f <= globalFrame
      modifies frames.repr
      ensures frames.Intact() && frames.line.first == old(frames.line.first)
      ensures forall x :: x in frames.repr ==> x in old(frames.repr) || fresh(x)
      ensures Faithful(origin, used, frames.line, if globalFrame < to then to else globalFrame, oldestDirtyFrame)
    {
      var frame := from;
      while frame <= to
        invariant frames.Intact() && this !in frames.repr && frames.line.first == old(frames.line.first)
        invariant forall x :: x in frames.repr ==> x in old(frames.repr) || fresh(x)
        invariant from <= frame && (frame <= to + 1 || frame == from)
        invariant Faithful(origin, used, frames.line, frame - 1, oldestDirtyFrame)
      {
        InitOne(frame);
        frame := frame + 1;
      }
    }

    method InitOne(frame: int)
      requires frames.Intact() && this !in frames.repr && frames.line.Has(frame) && frame !in used
      requires Faithful(origin, used, frames.line, frame - 1, oldestDirtyFrame)
      modifies frames.repr
      ensures frames.Intact() && frames.line.first == old(frames.line.first)
      ensures forall x :: x in frames.repr ==> x in old(frames.repr) || fresh(x)
      ensures Faithful(origin, used, frames.line, frame, oldestDirtyFrame)
    {
      FaithfulInit(origin, used, frames.line, frame - 1, oldestDirtyFrame, frames.line.Of(frame - 1).members);
      frames.InitFrameData(frame);
    }

    /** The part of both handlers that every bundle above the start goes through. */
    method Take(from: int, fb: FrameBundle)
      requires Ready() && from == globalFrame + 1
      requires forall f :: f in used ==> f <= globalFrame
      requires frames.line.first < fb.frame < frames.line.first + frames.window.data.Length
      requires forall k :: k in fb.bundle ==> k !in At(used, fb.frame)
      modifies `globalFrame, `oldestDirtyFrame, `used, `delivered, frames.repr
      ensures Ready()
      ensures forall x :: x in frames.repr ==> x in old(frames.repr) || fresh(x)
      ensures Hist() == Deliver(old(Hist()), fb)
      ensures forall f :: f in used ==> f <= globalFrame
    {
      InitFrames(from, fb.frame);
      if globalFrame < fb.frame {
        globalFrame := fb.frame;
      }
      FaithfulAbsorb(origin, used, frames.line, globalFrame, oldestDirtyFrame, fb);
      assert BundledAt(used, frames.line, fb.frame);
      if fb.frame < oldestDirtyFrame {
        oldestDirtyFrame := fb.frame;
      }
      var ok := frames.AbsorbAt(fb.frame, fb.bundle);
      assert ok;
      used, delivered := Merge(used, fb), Merge(delivered, fb);
    }

    /** One bundle of a remote group. */
    method TakeRemote(fb: FrameBundle)
      requires Ready()
      requires forall f :: f in used ==> f <= globalFrame
      requires Identified(fb.bundle) && Acceptable(Hist(), frames.window.data.Length, fb)
      modifies `globalFrame, `oldestDirtyFrame, `skipToFrame, `used, `delivered, frames.repr
      ensures Ready()
      ensures forall x :: x in frames.repr ==> x in old(frames.repr) || fresh(x)
      ensures Hist() == Deliver(old(Hist()), fb)
      ensures forall f :: f in used ==> f <= globalFrame
      ensures used == old(used) || used == Merge(old(used), fb)
      ensures skipToFrame == SkipAfter(old(skipToFrame), frames.line.first, id, fb)
    {
      if fb.frame <= frames.window.Start() {
        delivered := Merge(delivered, fb);
        return;
      }
      if skipToFrame == -1 {
        var joined := ScanForJoin(fb.bundle, id);
        if joined {
          skipToFrame := fb.frame;
        }
      }
      Take(globalFrame + 1, fb);
    }

    /** The select case for a group of remote bundles. */
    method RemoteGroup(group: seq<FrameBundle>)
      requires Valid() && Deliverable(Hist(), frames.window.data.Length, id, group)
      modifies this, frames.repr
      ensures Valid() && localFrame == old(localFrame)
      ensures forall x :: x in frames.repr ==> x in old(frames.repr) || fresh(x)
      ensures StepsTo(old(Hist()), group, Hist())
      ensures skipToFrame == SkipAfterAll(old(skipToFrame), old(frames.line.first), id, group)
      ensures Books() == Advanced(origin, used, old(frames.line.first), frames.line.first, old(Books()))
    {
      UsedBelowGlobal(Hist());
      ghost var h, l, local, skip, n := Hist(), Books(), localFrame, skipToFrame, frames.window.data.Length;
      TakeGroupAndAdvance(group);
      RemoteKept(h, l, local, skip, n, group, Hist());
    }

    method TakeGroupAndAdvance(group: seq<FrameBundle>)
      requires Ready() && frames.rules == origin.rules
      requires forall f :: f in used ==> f <= globalFrame
      requires forall f :: NamedAt(used, f)
      requires Deliverable(Hist(), frames.window.data.Length, id, group)
      modifies `globalFrame, `oldestDirtyFrame, `skipToFrame, `used, `delivered, `finalRequests, `sent, `replies,
        frames.repr
      ensures Ready() && oldestDirtyFrame == globalFrame + 1
      ensures forall x :: x in frames.repr ==> x in old(frames.repr) || fresh(x)
      ensures StepsTo(old(Hist()), group, Hist())
      ensures skipToFrame == SkipAfterAll(old(skipToFrame), old(frames.line.first), id, group)
      ensures Books() == Advanced(origin, used, old(frames.line.first), frames.line.first, old(Books()))
    {
      TakeGroup(group);
      Advance();
    }

    method TakeGroup(group: seq<FrameBundle>)
      requires Ready()
      requires forall f :: f in used ==> f <= globalFrame
      requires forall f :: NamedAt(used, f)
      requires Deliverable(Hist(), frames.window.data.Length, id, group)
      modifies `globalFrame, `oldestDirtyFrame, `skipToFrame, `used, `delivered, frames.repr
      ensures Ready()
      ensures forall x :: x in frames.repr ==> x in old(frames.repr) || fresh(x)
      ensures Hist() == DeliverAll(old(Hist()), group)
      ensures forall f :: NamedAt(used, f)
      ensures skipToFrame == SkipAfterAll(old(skipToFrame), frames.line.first, id, group)
    {
      var i := 0;
      while i < |group|
        invariant i <= |group|
        invariant Ready()
        invariant forall x :: x in frames.repr ==> x in old(frames.repr) || fresh(x)
        invariant Hist() == DeliverAll(old(Hist()), group[..i])
        invariant forall f :: f in used ==> f <= globalFrame
        invariant forall f :: NamedAt(used, f)
        invariant skipToFrame == SkipAfterAll(old(skipToFrame), frames.line.first, id, group[..i])
      {
        assert group[..i + 1][..i] == group[..i];
        assert DeliverableAt(old(Hist()), frames.window.data.Length, id, group, i);
        ghost var before := used;
        TakeRemote(group[i]);
        IdentifiedMerge(before, group[i]);
        i := i + 1;
      }
      assert group[..i] == group;
    }

    /**
     * The select case for a local bundle. It fails where the source panics: on a joiner's first bundle, if the
     * frame it joined on has left the window, or a filler hits a slot that cannot take it.
     */
    method LocalBundle(fb: FrameBundle) returns (ok: bool)
      requires Valid()
      requires !Ignored(skipToFrame, fb) ==> LocalOk(Hist(), id, localFrame, skipToFrame, frames.window.data.Length, fb)
      modifies this, frames.repr
      ensures ok == (Ignored(old(skipToFrame), fb)
                     || FillersFit(old(frames.line), id, old(skipToFrame), old(globalFrame), fb.frame))
      ensures ok ==> Valid()
      ensures forall x :: x in frames.repr ==> x in old(frames.repr) || fresh(x)
      ensures 0 < old(skipToFrame) <= fb.frame ==>
        (ok <==> old(frames.line.first) < old(skipToFrame)
                 && HasRoom(old(frames.line), id, old(globalFrame), fb.frame))
      ensures old(skipToFrame) == 0 ==> ok
      ensures old(skipToFrame) == -1 || fb.frame < old(skipToFrame) ==>
        ok && unchanged(this) && unchanged(frames, frames.window, frames.window.data)
      ensures ok && old(skipToFrame) != -1 && old(skipToFrame) <= fb.frame ==>
        && skipToFrame == 0 && localFrame == fb.frame && Says(id, old(skipToFrame), fb, old(sent), sent)
        && fb.frame in delivered
        && forall k :: k in fb.bundle ==> k in delivered[fb.frame] && delivered[fb.frame][k] == fb.bundle[k]
      ensures ok && !Ignored(old(skipToFrame), fb) ==>
        && localFrame == fb.frame && skipToFrame == 0
        && StepsTo(old(Hist()), LocalBundles(id, old(skipToFrame), old(globalFrame), fb), Hist())
        && Books() == Advanced(origin, used, old(frames.line.first), frames.line.first,
                               Announcing(old(Books()), LocalBroadcasts(id, old(skipToFrame), fb)))
    {
      if skipToFrame == -1 || fb.frame < skipToFrame {
        return true;
      }
      ghost var h, l, local, skip, n := Hist(), Books(), localFrame, skipToFrame, frames.window.data.Length;
      RoomIsFit(frames.line, id, globalFrame, fb.frame);
      ok := TakeOwn(fb);
      if ok {
        LocalInTerms(h, l, local, skip, n, fb, Hist(), Books());
      }
    }

    method TakeOwn(fb: FrameBundle) returns (ok: bool)
      requires Valid() && !Ignored(skipToFrame, fb)
      requires LocalOk(Hist(), id, localFrame, skipToFrame, frames.window.data.Length, fb)
      modifies this, frames.repr
      ensures ok == FillersFit(old(frames.line), id, old(skipToFrame), old(globalFrame), fb.frame)
      ensures ok ==> Valid() && localFrame == fb.frame && skipToFrame == 0
      ensures forall x :: x in frames.repr ==> x in old(frames.repr) || fresh(x)
      ensures ok ==> StepsTo(old(Hist()), LocalBundles(id, old(skipToFrame), old(globalFrame), fb), Hist())
      ensures ok ==> Books() == Advanced(origin, used, old(frames.line.first), frames.line.first,
                                         Announcing(old(Books()), LocalBroadcasts(id, old(skipToFrame), fb)))
    {
      UsedBelowGlobal(Hist());
      LocalKept(Hist(), Books(), localFrame, skipToFrame, frames.window.data.Length, fb);
      if skipToFrame != 0 {
        MissedAreFree(Hist(), Books(), localFrame, skipToFrame);
      }
      ok := TakeLocalAndAdvance(fb);
    }

    /** The select case for a request for a final state. */
    method RequestFinal(req: Waiter)
      requires Valid()
      modifies `finalRequests, `replies, `asked
      ensures Valid()
      ensures Books() == Requested(origin, used, frames.line.first, old(Books()), req)
      ensures asked == old(asked) + multiset{req}
      ensures TakesRequest(frames.window.first, frames.window.contents[0].game, req, old(finalRequests), finalRequests,
                           old(replies), replies)
    {
      KeptRequest(Hist(), Books(), localFrame, skipToFrame, req);
      TakeRequest(req);
    }

    method TakeRequest(req: Waiter)
      requires Ready()
      modifies `finalRequests, `replies, `asked
      ensures Ready() && Hist() == old(Hist()) && asked == old(asked) + multiset{req}
      ensures Books() == Requested(origin, used, frames.line.first, old(Books()), req)
      ensures TakesRequest(frames.window.first, frames.window.contents[0].game, req, old(finalRequests), finalRequests,
                           old(replies), replies)
    {
      assert ThoughtAt(origin, used, frames.line, frames.line.first);
      AnswerOrKeep(req);
    }

    method AnswerOrKeep(req: Waiter)
      requires frames.Intact() && this !in frames.repr && origin.frame <= frames.line.first
      requires frames.line.slots[0].game == Replayed(origin, used, frames.line.first).game
      modifies `finalRequests, `replies, `asked
      ensures Books() == Requested(origin, used, frames.line.first, old(Books()), req)
      ensures asked == old(asked) + multiset{req}
      ensures TakesRequest(frames.window.first, frames.window.contents[0].game, req, old(finalRequests), finalRequests,
                           old(replies), replies)
    {
      assert frames.IntactSlot(0);
      var start := frames.window.Start();
      assert replies + [] == replies && finalRequests + [] == finalRequests;
      if req.frame < 0 || req.frame == start {
        var data := frames.window.Get(start);
        replies := replies + [Reply(req, start, data.game, data.game.state)];
      } else if req.frame < start {
        replies := replies + [NoReply(req)];
      } else {
        finalRequests := finalRequests + [req];
      }
      asked := asked + multiset{req};
    }

    method TakeLocalAndAdvance(fb: FrameBundle) returns (ok: bool)
      requires Ready() && frames.rules == origin.rules
      requires forall f :: f in used ==> f <= globalFrame
      requires forall f :: NamedAt(used, f)
      requires !Ignored(skipToFrame, fb) && LocalOk(Hist(), id, localFrame, skipToFrame, frames.window.data.Length, fb)
      requires skipToFrame != 0 ==> 0 < skipToFrame && FreeFrom(Hist(), id, skipToFrame)
      modifies `globalFrame, `localFrame, `oldestDirtyFrame, `skipToFrame, `used, `delivered,
        `finalRequests, `sent, `replies, frames.repr
      ensures ok == FillersFit(old(frames.line), id, old(skipToFrame), old(globalFrame), fb.frame)
      ensures forall x :: x in frames.repr ==> x in old(frames.repr) || fresh(x)
      ensures ok ==> Ready() && oldestDirtyFrame == globalFrame + 1
      ensures ok ==> localFrame == fb.frame && skipToFrame == 0
      ensures ok ==> Hist() == DeliverAll(old(Hist()), LocalBundles(id, old(skipToFrame), old(globalFrame), fb))
                               .(start := frames.line.first)
      ensures ok ==> SlidesTo(origin, used, old(frames.line.first), globalFrame, frames.line.first)
      ensures ok ==> Books() == Advanced(origin, used, old(frames.line.first), frames.line.first,
                                  Announcing(old(Books()), LocalBroadcasts(id, old(skipToFrame), fb)))
    {
      ok := TakeLocals(fb);
      if ok {
        Advance();
      }
    }

    method TakeLocals(fb: FrameBundle) returns (ok: bool)
      requires Ready()
      requires forall f :: f in used ==> f <= globalFrame
      requires forall f :: NamedAt(used, f)
      requires !Ignored(skipToFrame, fb) && LocalOk(Hist(), id, localFrame, skipToFrame, frames.window.data.Length, fb)
      requires skipToFrame != 0 ==> 0 < skipToFrame && FreeFrom(Hist(), id, skipToFrame)
      modifies `globalFrame, `localFrame, `oldestDirtyFrame, `skipToFrame, `used, `delivered, `sent, frames.repr
      ensures ok == FillersFit(old(frames.line), id, old(skipToFrame), old(globalFrame), fb.frame)
      ensures forall x :: x in frames.repr ==> x in old(frames.repr) || fresh(x)
      ensures ok ==> Ready() && localFrame == fb.frame && skipToFrame == 0
      ensures ok ==> forall f :: NamedAt(used, f)
      ensures ok ==> Hist() == DeliverAll(old(Hist()), LocalBundles(id, old(skipToFrame), old(globalFrame), fb))
      ensures ok ==> Books() == Announcing(old(Books()), LocalBroadcasts(id, old(skipToFrame), fb))
    {
      LocalBundlesSnoc(Hist(), Books(), skipToFrame, fb);
      ok := true;
      if skipToFrame > 0 {
        if skipToFrame <= frames.window.Start() {
          return false;
        }
        ok := BeginAtSkip(fb);
      }
      if ok {
        TakeLocal(fb);
      }
    }

    method TakeLocal(fb: FrameBundle)
      requires Ready() && skipToFrame == 0
      requires forall f :: f in used ==> f <= globalFrame
      requires forall f :: NamedAt(used, f)
      requires 0 <= frames.line.first < fb.frame < frames.line.first + frames.window.data.Length
      requires Identified(fb.bundle) && forall k :: k in fb.bundle ==> k !in At(used, fb.frame)
      modifies `globalFrame, `localFrame, `oldestDirtyFrame, `used, `delivered, `sent, frames.repr
      ensures Ready() && localFrame == fb.frame
      ensures forall x :: x in frames.repr ==> x in old(frames.repr) || fresh(x)
      ensures forall f :: NamedAt(used, f)
      ensures Hist() == Deliver(old(Hist()), fb)
      ensures Books() == old(Books()).(sent := old(sent) + [Broadcast(fb)])
    {
      localFrame := fb.frame;
      var start := globalFrame + 1;
      if start < skipToFrame {
        start := skipToFrame;
      }
      IdentifiedMerge(used, fb);
      Take(start, fb);
      sent := sent + [Broadcast(fb)];
    }

    /** The joiner's branch of the handler. */
    method BeginAtSkip(fb: FrameBundle) returns (ok: bool)
      requires Ready()
      requires forall f :: f in used ==> f <= globalFrame
      requires forall f :: NamedAt(used, f)
      requires 0 <= id && 0 < skipToFrame <= fb.frame < frames.line.first + frames.window.data.Length
      requires FreeFrom(Hist(), id, skipToFrame) && frames.line.first < skipToFrame
      modifies `oldestDirtyFrame, `skipToFrame, `used, `delivered, `sent, frames.repr
      ensures ok == FillersFit(old(frames.line), id, old(skipToFrame), globalFrame, fb.frame)
      ensures frames.repr == old(frames.repr)
      ensures ok ==> Ready() && skipToFrame == 0
      ensures ok ==> (Hist(), Books()) == Filled(old(Hist()), old(Books()), old(skipToFrame), fb.frame)
      ensures ok ==> forall f :: f in used ==> f <= globalFrame
      ensures ok ==> forall f :: NamedAt(used, f)
      ensures ok ==> At(used, fb.frame) == old(At(used, fb.frame))
    {
      ghost var h' := Filled(Hist(), Books(), skipToFrame, fb.frame).0;
      forall f ensures NamedAt(h'.used, f) && (f in h'.used ==> f <= globalFrame) {
        FilledNamed(Hist(), Books(), skipToFrame, fb.frame, f);
      }
      FilledAside(Hist(), Books(), skipToFrame, fb.frame, fb.frame);
      if skipToFrame < oldestDirtyFrame {
        FaithfulLower(origin, used, frames.line, globalFrame, oldestDirtyFrame, skipToFrame);
        oldestDirtyFrame := skipToFrame;
      }
      ok := FillMissed(fb.frame);
      if ok {
        skipToFrame := 0;
      }
    }

    /** An empty local entry for every frame from the one the engine joined on; each is broadcast. */
    method FillMissed(to: int) returns (ok: bool)
      requires Ready() && FreeFrom(Hist(), id, skipToFrame) && frames.line.first < skipToFrame
      requires 0 <= id && 0 < skipToFrame <= to <= frames.line.first + frames.window.data.Length
      requires oldestDirtyFrame <= skipToFrame
      modifies `used, `delivered, `sent, frames.repr
      ensures ok == FillersFit(old(frames.line), id, skipToFrame, globalFrame, to)
      ensures frames.repr == old(frames.repr)
      ensures ok ==> Ready() && (Hist(), Books()) == Filled(old(Hist()), old(Books()), skipToFrame, to)
    {
      ghost var h, l, from, line := Hist(), Books(), skipToFrame, frames.line;
      var frame := skipToFrame;
      while frame < to
        invariant from <= frame <= to
        invariant Ready() && frames.repr == old(frames.repr) && SameAbove(line, frames.line, frame - 1)
        invariant FillersFit(line, id, from, globalFrame, frame)
        invariant (Hist(), Books()) == Filled(h, l, from, frame)
      {
        ok := FillNext(frame, h, l, from, line);
        if !ok {
          return;
        }
        frame := frame + 1;
      }
      ok := true;
    }

    method FillNext(frame: int, ghost h: History, ghost l: Ledger, ghost from: int, ghost line: Timeline)
      returns (ok: bool)
      requires Ready() && (Hist(), Books()) == Filled(h, l, from, frame)
      requires 0 <= id && 0 < from <= frame && FreeFrom(h, id, from)
      requires frames.line.first < from && frame < frames.line.first + frames.window.data.Length
      requires SameAbove(line, frames.line, frame - 1) && FillersFit(line, id, from, globalFrame, frame)
      requires oldestDirtyFrame <= frame
      modifies `used, `delivered, `sent, frames.repr
      ensures frames.repr == old(frames.repr)
      ensures ok == FillersFit(line, id, from, globalFrame, frame + 1)
      ensures ok ==> Ready() && (Hist(), Books()) == Filled(h, l, from, frame + 1)
      ensures ok ==> SameAbove(line, frames.line, frame)
    {
      FilledAside(h, l, from, frame, frame);
      assert Silent(h.used, id, frame);
      assert FillerFits(line, id, frame) == FillerFits(frames.line, id, frame);
      ok := FillOne(FrameBundle(frame, EmptyEntry(id)));
    }

    method FillOne(fb: FrameBundle) returns (ok: bool)
      requires Ready() && frames.line.Has(fb.frame)
      requires frames.line.first < fb.frame && oldestDirtyFrame <= fb.frame
      requires fb.frame <= globalFrame ==> forall k :: k in fb.bundle ==> k !in At(used, fb.frame)
      modifies `used, `delivered, `sent, frames.repr
      ensures frames.repr == old(frames.repr)
      ensures ok <==> fb.frame <= globalFrame || old(frames.line).Of(fb.frame).Takes(fb.bundle)
      ensures ok ==> Ready()
      ensures ok ==> Hist() == if fb.frame <= globalFrame then Deliver(old(Hist()), fb) else old(Hist())
      ensures ok ==> sent == old(sent) + [Broadcast(fb)]
      ensures ok ==> SameAbove(old(frames.line), frames.line, fb.frame)
    {
      ghost var slot := frames.line.Of(fb.frame);
      slot := slot.(bundle := slot.bundle + fb.bundle);
      if fb.frame <= globalFrame {
        FaithfulAbsorb(origin, used, frames.line, globalFrame, oldestDirtyFrame, fb);
        assert BundledAt(used, frames.line, fb.frame);
      } else {
        FaithfulBeyond(origin, used, frames.line, globalFrame, oldestDirtyFrame, fb.frame, slot.bundle);
      }
      ok := frames.AbsorbAt(fb.frame, fb.bundle);
      if ok {
        sent := sent + [Broadcast(fb)];
        if fb.frame <= globalFrame {
          used, delivered := Merge(used, fb), Merge(delivered, fb);
        }
      }
    }
  }

  /** The new replies are all the object of the start frame, with what it holds, to those they were asked by. */
  ghost predicate AnswersTo(start: int, game: Game?, before: seq<Reply>, after: seq<Reply>)
    reads game
  {
    && |before| <= |after| && after[..|before|] == before
    && forall k :: |before| <= k < |after| ==>
         && after[k].Reply? && after[k].frame == start && after[k].game == game && after[k].state == after[k].game.state
         && (after[k].to.frame < 0 || after[k].to.frame == start)
  }

  /**
   * Who asks for the newest final frame gets the object of the start frame with what it holds, who asks for an
   * earlier one the empty response, and who asks for a later one is kept.
   */
  ghost predicate TakesRequest(start: int, game: Game?, req: Waiter, pending: seq<Waiter>, pending': seq<Waiter>,
                               replies: seq<Reply>, replies': seq<Reply>)
    reads game
  {
    if req.frame < 0 || req.frame == start then
      && pending' == pending && |replies'| == |replies| + 1
      && AnswersTo(start, game, replies, replies') && replies'[|replies|].to == req
    else if req.frame < start then
      pending' == pending && replies' == replies + [NoReply(req)]
    else
      pending' == pending + [req] && replies' == replies
  }

  lemma FulfilledPlainly(ws: seq<Waiter>, start: int, game: Game, before: seq<Reply>)
    ensures var (served, left) := Swept(ws, start, 0);
      var after := before + Answers(served, start, game, game.state);
      && AnswersTo(start, game, before, after)
      && multiset(ws) == multiset(left) + multiset(Addressees(after[|before|..]))
      && (Distinct(ws) ==> forall w :: w in left ==> w.frame != start)
  {
    var (served, left) := Swept(ws, start, 0);
    var answers := Answers(served, start, game, game.state);
    AnswersWhat(served, start, game, game.state);
    AddresseesOfAnswers(served, start, game, game.state);
    SweepConserves(ws, start, 0);
    SweptWaited(ws, start, 0);
    assert (before + answers)[|before|..] == answers;
    forall k | 0 <= k < |served| ensures served[k].frame == start {
      assert served[k] in served;
    }
    if Distinct(ws) {
      DistinctMissesNobody(ws, start);
    }
  }

  /** A joiner's first frame is known, and it has supplied nothing for any frame. */
  ghost predicate FreeFrom(h: History, id: EngineId, skip: int) {
    h.origin.frame < skip <= h.global && skip in h.used && forall f :: Silent(h.used, id, f)
  }

  ghost predicate Silent(used: Log, id: EngineId, f: int) {
    id !in At(used, f)
  }

  /**
   * A joiner's first frame must be live still, and above the known frames a filler must find a slot with a bundle,
   * and without an entry of the engine.
   */
  ghost predicate FillersFit(t: Timeline, id: EngineId, skip: int, global: int, to: int) {
    skip > 0 ==> t.first < skip && forall f :: global < f < to ==> FillerFits(t, id, f)
  }

  ghost predicate FillerFits(t: Timeline, id: EngineId, f: int) {
    t.Has(f) && t.Of(f).Takes(EmptyEntry(id))
  }

  /** Every frame between has a bundle, also if a stale one, without an entry of the engine. */
  ghost predicate HasRoom(t: Timeline, id: EngineId, a: int, b: int) {
    forall f :: a < f < b ==> RoomAt(t, id, f)
  }

  ghost predicate RoomAt(t: Timeline, id: EngineId, f: int) {
    t.first <= f < t.first + |t.slots| && t.slots[f - t.first].bound && id !in t.slots[f - t.first].bundle
  }

  lemma RoomIsFit(t: Timeline, id: EngineId, global: int, to: int)
    ensures HasRoom(t, id, global, to) <==> forall f :: global < f < to ==> FillerFits(t, id, f)
  {
    forall f ensures FillerFits(t, id, f) <==> RoomAt(t, id, f) {
      assert id in EmptyEntry(id);
    }
  }

  ghost predicate SameAbove(t: Timeline, t': Timeline, f: int) {
    && t'.first == t.first && |t'.slots| == |t.slots|
    && forall g :: f < g && t.Has(g) ==> t'.Of(g) == t.Of(g)
  }

  /** Fillers above the known frames are broadcast, but lost when their frames are opened. */
  ghost function KeptBelow(global: int, to: int): int {
    if to <= global + 1 then to else global + 1
  }

  /** The records after the fillers for the frames of [a, b), one by one. */
  ghost function Filled(h: History, l: Ledger, a: int, b: int): (r: (History, Ledger))
    ensures r.0.origin == h.origin && r.0.start == h.start && r.0.global == h.global && r.1.id == l.id
    decreases b - a
  {
    if b <= a then (h, l)
    else
      var (h', l') := Filled(h, l, a, b - 1);
      var fb := FrameBundle(b - 1, EmptyEntry(l.id));
      (if b - 1 <= h.global then Deliver(h', fb) else h', l'.(sent := l'.sent + [Broadcast(fb)]))
  }

  lemma {:induction false} FilledAside(h: History, l: Ledger, a: int, b: int, f: int)
    requires b <= f
    ensures At(Filled(h, l, a, b).0.used, f) == At(h.used, f)
    decreases b - a
  {
    if a < b {
      FilledAside(h, l, a, b - 1, f);
    }
  }

  lemma {:induction false} FilledIs(h: History, l: Ledger, a: int, b: int)
    requires a <= h.global + 1
    ensures Filled(h, l, a, b)
         == (DeliverAll(h, Fillers(l.id, a, KeptBelow(h.global, b))), Announcing(l, Fillers(l.id, a, b)))
    decreases b - a
  {
    if b <= a {
      assert l.sent + [] == l.sent;
    } else {
      FilledIs(h, l, a, b - 1);
      var fbs, fb := Fillers(l.id, a, b - 1), FrameBundle(b - 1, EmptyEntry(l.id));
      AnnouncingSnoc(l, fbs, fb);
      if b - 1 <= h.global {
        assert (fbs + [fb])[..|fbs + [fb]| - 1] == fbs;
        assert DeliverAll(h, fbs + [fb]) == Deliver(DeliverAll(h, fbs), fb);
      }
    }
  }

  /** While bootstrapping, and before the frame to begin on, local bundles are dropped. */
  ghost predicate Ignored(skip: int, fb: FrameBundle) {
    skip == -1 || fb.frame < skip
  }

  /** What the handler relies on: the bundle is in bounds and new. */
  ghost predicate LocalOk(h: History, id: EngineId, local: int, skip: int, n: nat, fb: FrameBundle) {
    && 0 <= id && Identified(fb.bundle) && 0 <= h.start && fb.frame < h.start + n
    && (forall k :: k in fb.bundle ==> k !in At(h.used, fb.frame))
    && (skip == 0 ==> local < fb.frame && h.start < fb.frame)
  }

  /** The fillers that stay. */
  ghost function Missed(id: EngineId, skip: int, global: int, frame: int): seq<FrameBundle> {
    if skip > 0 then Fillers(id, skip, KeptBelow(global, frame)) else []
  }

  /** Everything one local bundle makes the updater take. */
  ghost function LocalBundles(id: EngineId, skip: int, global: int, fb: FrameBundle): seq<FrameBundle> {
    Missed(id, skip, global, fb.frame) + [fb]
  }

  /** Everything it makes the updater broadcast. */
  ghost function LocalBroadcasts(id: EngineId, skip: int, fb: FrameBundle): seq<FrameBundle> {
    (if skip > 0 then Fillers(id, skip, fb.frame) else []) + [fb]
  }

  ghost function Announcing(l: Ledger, fbs: seq<FrameBundle>): Ledger {
    l.(sent := l.sent + Broadcasts(fbs))
  }

  /** In bounds, and from engines that have not yet supplied events for the frame. */
  ghost predicate Acceptable(h: History, n: nat, fb: FrameBundle) {
    h.start < fb.frame ==> fb.frame < h.start + n && forall k :: k in fb.bundle ==> k !in At(h.used, fb.frame)
  }

  /** A bootstrapping updater learns its first frame from the bundle that says it joined. */
  ghost function SkipAfter(skip: int, start: int, id: EngineId, fb: FrameBundle): int {
    if skip == -1 && start < fb.frame && SaysJoined(fb.bundle, id) then fb.frame else skip
  }

  /** How far `Advance` slides: past complete frames only, and past all of them. */
  ghost predicate SlidesTo(o: Origin, used: Log, start: int, global: int, b: int) {
    && o.frame <= start <= b <= global
    && CompleteUpTo(o, used, start, b)
    && (b < global ==> !CompleteFrame(o, used, b + 1))
  }

  /** What a handler that takes in `fbs` makes of the record. */
  ghost predicate StepsTo(h: History, fbs: seq<FrameBundle>, h': History) {
    && h' == DeliverAll(h, fbs).(start := h'.start)
    && SlidesTo(h'.origin, h'.used, h.start, h'.global, h'.start)
  }

  /** Each bundle of the group is acceptable when its turn comes; none speaks for the local engine. */
  ghost predicate Deliverable(h: History, n: nat, id: EngineId, group: seq<FrameBundle>) {
    forall i :: 0 <= i < |group| ==> DeliverableAt(h, n, id, group, i)
  }

  ghost predicate DeliverableAt(h: History, n: nat, id: EngineId, group: seq<FrameBundle>, i: int)
    requires 0 <= i < |group|
  {
    Foreign(group[i], id) && Acceptable(DeliverAll(h, group[..i]), n, group[i])
  }

  ghost predicate Foreign(fb: FrameBundle, id: EngineId) {
    Identified(fb.bundle) && id !in fb.bundle
  }

  ghost function SkipAfterAll(skip: int, start: int, id: EngineId, group: seq<FrameBundle>): int {
    if group == [] then skip
    else SkipAfter(SkipAfterAll(skip, start, id, group[..|group| - 1]), start, id, group[|group| - 1])
  }

  lemma {:induction false} DeliverAllGrows(h: History, group: seq<FrameBundle>)
    ensures h.global <= DeliverAll(h, group).global
    ensures forall f :: f in h.used ==> f in DeliverAll(h, group).used
  {
    if group != [] {
      DeliverAllGrows(h, group[..|group| - 1]);
    }
  }

  lemma DeliverableBefore(h: History, n: nat, id: EngineId, group: seq<FrameBundle>)
    requires group != [] && Deliverable(h, n, id, group)
    ensures Deliverable(h, n, id, group[..|group| - 1])
    ensures DeliverableAt(h, n, id, group, |group| - 1)
  {
    var rest := group[..|group| - 1];
    forall i | 0 <= i < |rest|
      ensures DeliverableAt(h, n, id, rest, i)
    {
      assert DeliverableAt(h, n, id, group, i) && rest[..i] == group[..i] && rest[i] == group[i];
    }
  }

  /** A bundle that says so goes into the log with nothing in its way, and stays there. */
  lemma JoinStaysSeen(h: History, n: nat, id: EngineId, fb: FrameBundle, f: int)
    requires Acceptable(h, n, fb)
    requires JoinSeen(h.used, f, id) || (h.start < fb.frame == f && SaysJoined(fb.bundle, id))
    ensures JoinSeen(Deliver(h, fb).used, f, id)
  {
    var before, after := At(h.used, f), At(Deliver(h, fb).used, f);
    if JoinSeen(h.used, f, id) {
      var k :| k in before && EngineJoined(id) in before[k].engine;
      assert k in after && after[k] == before[k];
    } else {
      var k :| k in fb.bundle && EngineJoined(id) in fb.bundle[k].engine;
      assert k in after && after[k] == fb.bundle[k];
    }
  }

  /** The frame a joiner is to begin on is one whose recorded events say that it joined. */
  lemma {:induction false} SkipIsSeen(h: History, n: nat, skip: int, id: EngineId, group: seq<FrameBundle>)
    requires Deliverable(h, n, id, group)
    requires skip != 0 && skip != -1 ==> JoinSeen(h.used, skip, id)
    ensures var s, h' := SkipAfterAll(skip, h.start, id, group), DeliverAll(h, group);
      && (s != 0 && s != -1 ==> JoinSeen(h'.used, s, id))
      && (s == skip || (skip == -1 && h.start < s <= h'.global))
  {
    if group != [] {
      var rest, last := group[..|group| - 1], group[|group| - 1];
      DeliverableBefore(h, n, id, group);
      SkipIsSeen(h, n, skip, id, rest);
      var s := SkipAfterAll(skip, h.start, id, group);
      if s != 0 && s != -1 {
        JoinStaysSeen(DeliverAll(h, rest), n, id, last, s);
      }
    }
  }

  lemma {:induction false} RemotesKeepLocal(h: History, id: EngineId, group: seq<FrameBundle>)
    requires forall fb :: fb in group ==> Foreign(fb, id)
    ensures forall f :: id in At(DeliverAll(h, group).used, f) ==> id in At(h.used, f)
  {
    if group != [] {
      RemotesKeepLocal(h, id, group[..|group| - 1]);
      assert Foreign(group[|group| - 1], id);
    }
  }

  lemma IdentifiedMerge(used: Log, fb: FrameBundle)
    requires Identified(fb.bundle) && forall f :: NamedAt(used, f)
    ensures forall f :: NamedAt(Merge(used, fb), f)
  {
    forall f ensures NamedAt(Merge(used, fb), f) {
      assert NamedAt(used, f);
    }
  }

  lemma {:induction false} RemotesIdentified(h: History, group: seq<FrameBundle>)
    requires forall f :: NamedAt(h.used, f)
    requires forall fb :: fb in group ==> Identified(fb.bundle)
    ensures forall f :: NamedAt(DeliverAll(h, group).used, f)
  {
    if group != [] {
      RemotesIdentified(h, group[..|group| - 1]);
      IdentifiedMerge(DeliverAll(h, group[..|group| - 1]).used, group[|group| - 1]);
    }
  }

  lemma UsedBelowGlobal(h: History)
    requires Recorded(h)
    ensures forall f :: f in h.used ==> f <= h.global
  {
    forall f | f in h.used ensures f <= h.global {
      assert RecordedAt(h, f);
    }
  }

  lemma RemoteKeptAt(h: History, l: Ledger, local: int, skip: int, n: nat, group: seq<FrameBundle>, b: int)
    requires Kept(h, l, local, skip) && Deliverable(h, n, l.id, group)
    requires SlidesTo(h.origin, DeliverAll(h, group).used, h.start, DeliverAll(h, group).global, b)
    ensures var h' := DeliverAll(h, group);
      Kept(h'.(start := b), Advanced(h.origin, h'.used, h.start, b, l), local, SkipAfterAll(skip, h.start, l.id, group))
  {
    var h' := DeliverAll(h, group);
    forall fb | fb in group ensures Foreign(fb, l.id) {
      var i :| 0 <= i < |group| && group[i] == fb;
      assert DeliverableAt(h, n, l.id, group, i);
    }
    DeliverAllRecorded(h, group);
    AdvanceSettles(h', b);
    RemoteGroupBalanced(h, group, l);
    SlidesBalanced(h.origin, h'.used, h.start, b, l);
    AdvancedKeeps(h.origin, h'.used, h.start, b, l);
    RemotesIdentified(h, group);
    RemotesKeepLocal(h, l.id, group);
    SkipIsSeen(h, n, skip, l.id, group);
    DeliverAllGrows(h, group);
    forall f ensures LocalAt(h'.used, l.id, local, SkipAfterAll(skip, h.start, l.id, group), f) {
      assert LocalAt(h.used, l.id, local, skip, f);
    }
  }

  /** A remote group keeps the record, whatever is in it and however far it lets the window slide. */
  lemma RemoteKept(h: History, l: Ledger, local: int, skip: int, n: nat, group: seq<FrameBundle>, h': History)
    requires Kept(h, l, local, skip) && Deliverable(h, n, l.id, group) && StepsTo(h, group, h')
    ensures Kept(h', Advanced(h.origin, h'.used, h.start, h'.start, l), local, SkipAfterAll(skip, h.start, l.id, group))
  {
    RemoteKeptAt(h, l, local, skip, n, group, h'.start);
  }

  lemma LocalBundlesSnoc(h: History, l: Ledger, skip: int, fb: FrameBundle)
    requires skip <= h.global + 1
    ensures var (h', l') := if skip > 0 then Filled(h, l, skip, fb.frame) else (h, l);
      && DeliverAll(h, LocalBundles(l.id, skip, h.global, fb)) == Deliver(h', fb)
      && Announcing(l, LocalBroadcasts(l.id, skip, fb)) == l'.(sent := l'.sent + [Broadcast(fb)])
  {
    var fbs, missed := LocalBundles(l.id, skip, h.global, fb), Missed(l.id, skip, h.global, fb.frame);
    assert fbs[..|fbs| - 1] == missed;
    FilledIs(h, l, skip, fb.frame);
    AnnouncingSnoc(l, if skip > 0 then Fillers(l.id, skip, fb.frame) else [], fb);
  }

  /** Fillers name only the engine itself, and no frame above the known ones is recorded for them. */
  lemma {:induction false} FilledNamed(h: History, l: Ledger, a: int, b: int, f: int)
    requires 0 <= l.id && NamedAt(h.used, f)
    requires f in h.used ==> f <= h.global
    ensures NamedAt(Filled(h, l, a, b).0.used, f)
    ensures f in Filled(h, l, a, b).0.used ==> f <= h.global
    decreases b - a
  {
    if a < b {
      FilledNamed(h, l, a, b - 1, f);
    }
  }

  lemma KeptRequest(h: History, l: Ledger, local: int, skip: int, req: Waiter)
    requires Kept(h, l, local, skip)
    ensures Kept(h, Requested(h.origin, h.used, h.start, l, req), local, skip)
  {
    BalancedRequest(h.origin, h.used, h.start, l, req);
  }

  /**
   * A joiner has supplied nothing yet, and while it is a member of the frame it joined on, that is still live. It
   * is one unless the same frame's events drop it again.
   */
  lemma MissedAreFree(h: History, l: Ledger, local: int, skip: int)
    requires Kept(h, l, local, skip) && skip != 0 && skip != -1
    ensures FreeFrom(h, l.id, skip)
    ensures l.id in h.WorldAt(skip).members ==> h.start < skip
    ensures NeverDropped(At(h.used, skip), l.id) ==> l.id in h.WorldAt(skip).members
  {
    forall f ensures Silent(h.used, l.id, f) {
      assert LocalAt(h.used, l.id, local, skip, f);
    }
    assert Silent(h.used, l.id, skip);
    if l.id in h.WorldAt(skip).members {
      JoinerBeginsAbove(h, l.id, skip);
    }
    if NeverDropped(At(h.used, skip), l.id) {
      SeenJoinIsMember(h, l.id, skip);
    }
  }

  lemma BalancedDeliver(h: History, fb: FrameBundle, l: Ledger)
    requires h.origin.frame <= h.start && Balanced(h.origin, h.used, h.start, l)
    ensures Balanced(h.origin, Deliver(h, fb).used, h.start, l.(sent := l.sent + [Broadcast(fb)]))
  {
    DeliverTouches(h, fb);
    BalancedBroadcast(h.origin, h.used, Deliver(h, fb).used, h.start, l, fb);
  }

  lemma AnnouncingSnoc(l: Ledger, rest: seq<FrameBundle>, fb: FrameBundle)
    ensures Announcing(l, rest + [fb]) == l.(sent := Announcing(l, rest).sent + [Broadcast(fb)])
    ensures Announcing(l, []) == l
  {
    var fbs := rest + [fb];
    assert fbs[..|fbs| - 1] == rest;
    assert l.sent + (Broadcasts(rest) + [Broadcast(fb)]) == l.sent + Broadcasts(rest) + [Broadcast(fb)];
    assert l.sent + [] == l.sent;
  }

  /** Local entries appear on the frames of the local bundles only. */
  lemma {:induction false} LocalsWhere(h: History, id: EngineId, fbs: seq<FrameBundle>, to: int)
    requires forall fb :: fb in fbs ==> fb.frame <= to
    ensures forall f :: id in At(DeliverAll(h, fbs).used, f) ==> id in At(h.used, f) || f <= to
  {
    if fbs != [] {
      LocalsWhere(h, id, fbs[..|fbs| - 1], to);
      assert fbs[|fbs| - 1] in fbs;
    }
  }

  lemma {:induction false} FilledBalanced(h: History, l: Ledger, a: int, b: int)
    requires h.origin.frame <= h.start && Balanced(h.origin, h.used, h.start, l)
    ensures var (h', l') := Filled(h, l, a, b); Balanced(h.origin, h'.used, h.start, l')
    decreases b - a
  {
    if a < b {
      FilledBalanced(h, l, a, b - 1);
      var (h', l') := Filled(h, l, a, b - 1);
      FillerBalanced(h', FrameBundle(b - 1, EmptyEntry(l.id)), l');
    }
  }

  lemma FillerBalanced(h: History, fb: FrameBundle, l: Ledger)
    requires h.origin.frame <= h.start && Balanced(h.origin, h.used, h.start, l)
    ensures var l' := l.(sent := l.sent + [Broadcast(fb)]);
      Balanced(h.origin, Deliver(h, fb).used, h.start, l') && Balanced(h.origin, h.used, h.start, l')
  {
    BalancedDeliver(h, fb, l);
    BalancedBroadcast(h.origin, h.used, h.used, h.start, l, fb);
  }

  /** What a local bundle makes the updater take and broadcast keeps the books balanced. */
  lemma LocalBalanced(h: History, l: Ledger, skip: int, fb: FrameBundle)
    requires h.origin.frame <= h.start && Balanced(h.origin, h.used, h.start, l)
    requires skip <= h.global + 1
    ensures Balanced(h.origin, DeliverAll(h, LocalBundles(l.id, skip, h.global, fb)).used, h.start,
                     Announcing(l, LocalBroadcasts(l.id, skip, fb)))
  {
    LocalBundlesSnoc(h, l, skip, fb);
    if skip > 0 {
      FilledBalanced(h, l, skip, fb.frame);
      var (h', l') := Filled(h, l, skip, fb.frame);
      BalancedDeliver(h', fb, l');
    } else {
      BalancedDeliver(h, fb, l);
    }
  }

  lemma LocalBundlesFrames(id: EngineId, skip: int, global: int, fb: FrameBundle)
    requires 0 <= id && Identified(fb.bundle)
    ensures forall x :: x in LocalBundles(id, skip, global, fb) ==> x.frame <= fb.frame && Identified(x.bundle)
  {
    var b := KeptBelow(global, fb.frame);
    FillersListed(id, skip, b);
    forall x | x in Fillers(id, skip, b)
      ensures x.frame <= fb.frame && Identified(x.bundle)
    {
      var k :| 0 <= k < |Fillers(id, skip, b)| && Fillers(id, skip, b)[k] == x;
    }
  }

  lemma LocalKeptAt(h: History, l: Ledger, local: int, skip: int, n: nat, fb: FrameBundle, b: int)
    requires Kept(h, l, local, skip) && !Ignored(skip, fb) && LocalOk(h, l.id, local, skip, n, fb)
    requires var h' := DeliverAll(h, LocalBundles(l.id, skip, h.global, fb));
      SlidesTo(h.origin, h'.used, h.start, h'.global, b)
    ensures var h' := DeliverAll(h, LocalBundles(l.id, skip, h.global, fb));
      Kept(h'.(start := b), Advanced(h.origin, h'.used, h.start, b, Announcing(l, LocalBroadcasts(l.id, skip, fb))),
           fb.frame, 0)
  {
    var fbs := LocalBundles(l.id, skip, h.global, fb);
    var h', l' := DeliverAll(h, fbs), Announcing(l, LocalBroadcasts(l.id, skip, fb));
    LocalBundlesFrames(l.id, skip, h.global, fb);
    DeliverAllRecorded(h, fbs);
    AdvanceSettles(h', b);
    LocalBalanced(h, l, skip, fb);
    SlidesBalanced(h.origin, h'.used, h.start, b, l');
    AdvancedKeeps(h.origin, h'.used, h.start, b, l');
    RemotesIdentified(h, fbs);
    LocalsWhere(h, l.id, fbs, fb.frame);
    forall f ensures LocalAt(h'.used, l.id, fb.frame, 0, f) {
      assert LocalAt(h.used, l.id, local, skip, f);
    }
  }

  /** A local bundle keeps the record, the first one of a joiner included. */
  lemma LocalKept(h: History, l: Ledger, local: int, skip: int, n: nat, fb: FrameBundle)
    requires Kept(h, l, local, skip) && !Ignored(skip, fb) && LocalOk(h, l.id, local, skip, n, fb)
    ensures var h', l' := DeliverAll(h, LocalBundles(l.id, skip, h.global, fb)),
                          Announcing(l, LocalBroadcasts(l.id, skip, fb));
      forall b :: SlidesTo(h.origin, h'.used, h.start, h'.global, b) ==>
        Kept(h'.(start := b), Advanced(h.origin, h'.used, h.start, b, l'), fb.frame, 0)
  {
    var h', l' := DeliverAll(h, LocalBundles(l.id, skip, h.global, fb)),
                  Announcing(l, LocalBroadcasts(l.id, skip, fb));
    forall b | SlidesTo(h.origin, h'.used, h.start, h'.global, b)
      ensures Kept(h'.(start := b), Advanced(h.origin, h'.used, h.start, b, l'), fb.frame, 0)
    {
      LocalKeptAt(h, l, local, skip, n, fb, b);
    }
  }

  lemma LocalInTerms(h: History, l: Ledger, local: int, skip: int, n: nat, fb: FrameBundle, h': History, l': Ledger)
    requires Kept(h, l, local, skip) && !Ignored(skip, fb) && LocalOk(h, l.id, local, skip, n, fb)
    requires h'.origin == h.origin && (skip > 0 ==> h.start < skip)
    requires StepsTo(h, LocalBundles(l.id, skip, h.global, fb), h')
    requires l' == Advanced(h.origin, h'.used, h.start, h'.start, Announcing(l, LocalBroadcasts(l.id, skip, fb)))
    ensures Says(l.id, skip, fb, l.sent, l'.sent) && fb.frame in h'.delivered
    ensures forall k :: k in fb.bundle ==> k in h'.delivered[fb.frame] && h'.delivered[fb.frame][k] == fb.bundle[k]
  {
    if skip != 0 {
      MissedAreFree(h, l, local, skip);
    }
    LocalPlainly(h, l, skip, fb, h', l');
  }

  lemma LocalPlainly(h: History, l: Ledger, skip: int, fb: FrameBundle, h': History, l': Ledger)
    requires h.origin.frame <= h.start <= h'.start && h'.origin == h.origin && skip <= h.global + 1
    requires Recorded(h) && (h.start < fb.frame ==> forall k :: k in fb.bundle ==> k !in At(h.used, fb.frame))
    requires skip > 0 ==> FreeFrom(h, l.id, skip) && h.start < skip <= fb.frame
    requires skip <= 0 ==> h.start < fb.frame
    requires h'.delivered == DeliverAll(h, LocalBundles(l.id, skip, h.global, fb)).delivered
    requires l' == Advanced(h.origin, h'.used, h.start, h'.start, Announcing(l, LocalBroadcasts(l.id, skip, fb)))
    ensures Says(l.id, skip, fb, l.sent, l'.sent) && fb.frame in h'.delivered
    ensures forall k :: k in fb.bundle ==> k in h'.delivered[fb.frame] && h'.delivered[fb.frame][k] == fb.bundle[k]
  {
    var said := Announcing(l, LocalBroadcasts(l.id, skip, fb));
    AdvancedSends(h.origin, h'.used, h.start, h'.start, said);
    SaysSo(l.id, skip, fb, l.sent, if l.hosting then Offers(h.origin, h'.used, l.cells, h.start, h'.start) else []);
    var h0 := if skip > 0 then Filled(h, l, skip, fb.frame).0 else h;
    LocalBundlesSnoc(h, l, skip, fb);
    if skip > 0 {
      FilledAsideDelivered(h, l, skip, fb.frame, fb.frame);
    }
    assert RecordedAt(h, fb.frame);
  }

  lemma {:induction false} FilledAsideDelivered(h: History, l: Ledger, a: int, b: int, f: int)
    requires b <= f
    ensures At(Filled(h, l, a, b).0.delivered, f) == At(h.delivered, f)
    decreases b - a
  {
    if a < b {
      FilledAsideDelivered(h, l, a, b - 1, f);
    }
  }

  lemma RemoteGroupBalanced(h: History, group: seq<FrameBundle>, l: Ledger)
    requires h.origin.frame <= h.start && Balanced(h.origin, h.used, h.start, l)
    requires forall fb :: fb in group ==> Foreign(fb, l.id)
    ensures Balanced(h.origin, DeliverAll(h, group).used, h.start, l)
  {
    DeliverAllKeeps(h, group);
    RemotesKeepLocal(h, l.id, group);
    BalancedAbsorb(h.origin, h.used, DeliverAll(h, group).used, h.start, l);
  }

  ghost predicate CompleteUpTo(o: Origin, used: Log, a: int, b: int)
    requires o.frame <= a
    decreases b - a
  {
    a < b ==> CompleteUpTo(o, used, a, b - 1) && CompleteFrame(o, used, b)
  }

  lemma {:induction false} SlidesRecorded(h: History, b: int)
    requires Recorded(h) && h.start <= b <= h.global && CompleteUpTo(h.origin, h.used, h.start, b)
    ensures Recorded(h.(start := b))
    decreases b - h.start
  {
    if h.start < b {
      SlidesRecorded(h, b - 1);
      RecordedSlide(h.(start := b - 1));
    }
  }

  lemma RecordedSlide(h: History)
    requires Recorded(h) && h.start < h.global && CompleteAt(h, h.start + 1)
    ensures Recorded(h.(start := h.start + 1))
  {
    var h' := h.(start := h.start + 1);
    forall f ensures RecordedAt(h', f) {
      assert RecordedAt(h, f);
    }
  }

  lemma {:induction false} SlidesBalanced(o: Origin, used: Log, a: int, b: int, l: Ledger)
    requires o.frame <= a <= b && Balanced(o, used, a, l) && CompleteUpTo(o, used, a, b)
    ensures Balanced(o, used, b, Advanced(o, used, a, b, l))
    decreases b - a
  {
    if a < b {
      SlidesBalanced(o, used, a, b - 1, l);
      BalancedSlide(o, used, b - 1, Advanced(o, used, a, b - 1, l));
    }
  }

  /** What `Advance` leaves behind is settled. */
  lemma AdvanceSettles(h: History, b: int)
    requires Recorded(h) && h.start <= b <= h.global && CompleteUpTo(h.origin, h.used, h.start, b)
    requires b < h.global ==> !CompleteFrame(h.origin, h.used, b + 1)
    ensures Settled(h.(start := b))
  {
    SlidesRecorded(h, b);
  }

  lemma BalancedAtFirst(o: Origin, l: Ledger)
    requires l.sent == [] && l.replies == [] && l.pending == [] && l.asked == multiset{}
    ensures Balanced(o, map[], o.frame, l)
  {
  }

  lemma FaithfulStart(o: Origin, t: Timeline, data: FrameData)
    requires data.game != null && 2 <= |t.slots| && t == StartLine(|t.slots|, o.frame, data)
    requires o == Origin(o.rules, t.first, World(Members(data.info), data.game.state), false)
    ensures Faithful(o, map[], t, o.frame, o.frame + 1)
  {
  }

  lemma FaithfulBoot(o: Origin, t: Timeline, boot: BootstrapFrame)
    requires 2 <= |t.slots| && t == BootLine(|t.slots|, boot)
    requires o == Origin(o.rules, t.first, World(Members(boot.info), boot.game.state), true)
    ensures Faithful(o, map[], t, o.frame + 1, o.frame + 2)
  {
  }
}
