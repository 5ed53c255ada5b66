/**
 * What one round of an updater's select loop does, in plain terms: which entries its record has afterwards, how far
 * the window slid, and what was sent and answered. This is said without the functions that the handlers are
 * specified by, so it says what those compute.
 */
module Rounds {
  import opened Membership
  import opened Bundles
  import opened Replay
  import opened Agreement
  import opened Sweep
  import opened Outbox
  import opened Updaters

  /** After `fbs` came in: above the old start there is an entry exactly if there was one or one of them has it. */
  ghost predicate Absorbs(h: History, fbs: seq<FrameBundle>, h': History) {
    && h'.origin == h.origin
    && (forall f, k, e :: h.start < f ==> AbsorbsAt(h, fbs, h', f, k, e))
    && (forall f :: f <= h.start ==> At(h'.used, f) == At(h.used, f))
    && h.global <= h'.global && (forall fb :: fb in fbs ==> fb.frame <= h'.global)
    && (h'.global == h.global || exists fb :: fb in fbs && fb.frame == h'.global)
  }

  ghost predicate AbsorbsAt(h: History, fbs: seq<FrameBundle>, h': History, f: int, k: EngineId, e: AllEvents) {
    Holds(At(h'.used, f), k, e) <==> Holds(At(h.used, f), k, e) || Supplies(fbs, f, k, e)
  }

  /** Everyone who is a member of the frame after its own events has an entry for it. */
  ghost predicate Full(h: History, f: int)
    requires h.origin.frame <= f
  {
    forall k :: k in h.WorldAt(f).members ==> k in At(h.used, f)
  }

  /** The window slides past full frames, and is stopped by a frame that is not, or by the newest. */
  ghost predicate Slides(h: History, h': History) {
    && h'.origin.frame <= h.start <= h'.start <= h'.global
    && (forall f :: h.start < f <= h'.start ==> Full(h', f))
    && (h'.start < h'.global ==> !Full(h', h'.start + 1))
  }

  // ----- entries

  ghost predicate NewAt(h: History, fbs: seq<FrameBundle>, i: int)
    requires 0 <= i < |fbs|
  {
    h.start < fbs[i].frame ==> forall k :: k in fbs[i].bundle ==> k !in At(DeliverAll(h, fbs[..i]).used, fbs[i].frame)
  }

  ghost predicate AllNew(h: History, fbs: seq<FrameBundle>) {
    forall i :: 0 <= i < |fbs| ==> NewAt(h, fbs, i)
  }

  lemma AllNewBefore(h: History, fbs: seq<FrameBundle>)
    requires fbs != [] && AllNew(h, fbs)
    ensures AllNew(h, fbs[..|fbs| - 1]) && NewAt(h, fbs, |fbs| - 1)
  {
    var rest := fbs[..|fbs| - 1];
    forall i | 0 <= i < |rest| ensures NewAt(h, rest, i) {
      assert NewAt(h, fbs, i) && rest[..i] == fbs[..i];
    }
  }

  lemma {:induction false} UsedExactly(h: History, fbs: seq<FrameBundle>, f: int, k: EngineId, e: AllEvents)
    requires AllNew(h, fbs) && h.start < f
    ensures AbsorbsAt(h, fbs, DeliverAll(h, fbs), f, k, e)
  {
    if fbs != [] {
      var rest, last := fbs[..|fbs| - 1], fbs[|fbs| - 1];
      assert fbs == rest + [last];
      AllNewBefore(h, fbs);
      UsedExactly(h, rest, f, k, e);
      SuppliesMore(rest, last, f, k, e);
    }
  }

  lemma {:induction false} GlobalExactly(h: History, fbs: seq<FrameBundle>)
    ensures var g := DeliverAll(h, fbs).global;
      && h.global <= g && (forall fb :: fb in fbs ==> fb.frame <= g)
      && (g == h.global || exists fb :: fb in fbs && fb.frame == g)
  {
    if fbs != [] {
      var rest, last := fbs[..|fbs| - 1], fbs[|fbs| - 1];
      assert fbs == rest + [last];
      GlobalExactly(h, rest);
    }
  }

  lemma {:induction false} CompleteIsFull(h: History, a: int, b: int, f: int)
    requires h.origin.frame <= a && CompleteUpTo(h.origin, h.used, a, b) && a < f <= b
    ensures Full(h, f)
    decreases b - a
  {
    if f < b {
      CompleteIsFull(h, a, b - 1, f);
    }
  }

  lemma StepsPlainly(h: History, fbs: seq<FrameBundle>, h': History)
    requires StepsTo(h, fbs, h') && AllNew(h, fbs) && h'.origin == h.origin
    ensures Absorbs(h, fbs, h') && Slides(h, h')
  {
    forall f, k, e | h.start < f ensures AbsorbsAt(h, fbs, h', f, k, e) {
      UsedExactly(h, fbs, f, k, e);
    }
    DeliverAllKeeps(h, fbs);
    GlobalExactly(h, fbs);
    forall f | h.start < f <= h'.start ensures Full(h', f) {
      CompleteIsFull(h', h.start, h'.start, f);
    }
  }

  lemma DeliverableIsNew(h: History, n: nat, id: EngineId, group: seq<FrameBundle>)
    requires Deliverable(h, n, id, group)
    ensures AllNew(h, group)
  {
    forall i | 0 <= i < |group| ensures NewAt(h, group, i) {
      assert DeliverableAt(h, n, id, group, i);
    }
  }

  // ----- the bundles of the local engine

  /**
   * The fillers that stay and the bundle itself: an empty entry for each known frame from the one to begin on, as
   * far as the bundle.
   */
  ghost predicate OwnBundles(id: EngineId, skip: int, global: int, fb: FrameBundle, fbs: seq<FrameBundle>) {
    var n := if skip <= 0 then 0 else if fb.frame <= global then fb.frame - skip else global + 1 - skip;
    && 0 <= n && |fbs| == n + 1 && fbs[n] == fb
    && forall i :: 0 <= i < n ==> fbs[i] == FrameBundle(skip + i, map[id := AllEvents([], [])])
  }

  lemma OwnBundlesAre(id: EngineId, skip: int, global: int, fb: FrameBundle)
    requires skip <= global + 1 && skip <= fb.frame
    ensures OwnBundles(id, skip, global, fb, LocalBundles(id, skip, global, fb))
  {
    FillersListed(id, skip, KeptBelow(global, fb.frame));
  }

  lemma {:induction false} OthersUntouched(h: History, fbs: seq<FrameBundle>, f: int)
    requires forall fb :: fb in fbs ==> fb.frame != f
    ensures At(DeliverAll(h, fbs).used, f) == At(h.used, f)
  {
    if fbs != [] {
      assert fbs[|fbs| - 1] in fbs;
      OthersUntouched(h, fbs[..|fbs| - 1], f);
    }
  }

  lemma OwnBundlesNew(h: History, id: EngineId, skip: int, fb: FrameBundle, fbs: seq<FrameBundle>)
    requires OwnBundles(id, skip, h.global, fb, fbs) && skip <= fb.frame
    requires skip > 0 ==> FreeFrom(h, id, skip)
    requires forall k :: k in fb.bundle ==> k !in At(h.used, fb.frame)
    ensures AllNew(h, fbs)
  {
    forall i | 0 <= i < |fbs| ensures NewAt(h, fbs, i) {
      forall x | x in fbs[..i] ensures x.frame != fbs[i].frame {
        var j :| 0 <= j < i && fbs[j] == x;
      }
      OthersUntouched(h, fbs[..i], fbs[i].frame);
      if i < |fbs| - 1 {
        assert Silent(h.used, id, fbs[i].frame);
      }
    }
  }

  /** What the local case does to the record. */
  ghost predicate TakesOwn(id: EngineId, skip: int, fb: FrameBundle, h: History, h': History) {
    exists fbs :: OwnBundles(id, skip, h.global, fb, fbs) && Absorbs(h, fbs, h') && Slides(h, h')
  }

  lemma OwnPlainly(h: History, id: EngineId, skip: int, fb: FrameBundle, h': History)
    requires skip <= fb.frame && skip <= h.global + 1 && h'.origin == h.origin
    requires skip > 0 ==> FreeFrom(h, id, skip)
    requires forall k :: k in fb.bundle ==> k !in At(h.used, fb.frame)
    requires StepsTo(h, LocalBundles(id, skip, h.global, fb), h')
    ensures TakesOwn(id, skip, fb, h, h')
  {
    var fbs := LocalBundles(id, skip, h.global, fb);
    OwnBundlesAre(id, skip, h.global, fb);
    OwnBundlesNew(h, id, skip, fb, fbs);
    StepsPlainly(h, fbs, h');
  }

  // ----- the frame a joiner begins on

  /** The bundle is for a frame above the start, and some engine's events in it say that this one joined. */
  ghost predicate TellsJoin(id: EngineId, start: int, fb: FrameBundle) {
    start < fb.frame && exists k :: k in fb.bundle && EngineJoined(id) in fb.bundle[k].engine
  }

  /** A bootstrapping updater begins on the frame of the first bundle that tells it so; nobody else learns anything. */
  ghost predicate Learns(id: EngineId, start: int, group: seq<FrameBundle>, skip: int, skip': int) {
    if skip != -1 || forall fb :: fb in group ==> !TellsJoin(id, start, fb) then skip' == skip
    else exists i :: 0 <= i < |group| && FirstToTell(id, start, group, i) && skip' == group[i].frame
  }

  ghost predicate FirstToTell(id: EngineId, start: int, group: seq<FrameBundle>, i: int)
    requires 0 <= i < |group|
  {
    TellsJoin(id, start, group[i]) && forall fb :: fb in group[..i] ==> !TellsJoin(id, start, fb)
  }

  lemma {:induction false} LearnsExactly(id: EngineId, start: int, group: seq<FrameBundle>, skip: int)
    requires -1 <= start
    ensures Learns(id, start, group, skip, SkipAfterAll(skip, start, id, group))
  {
    if group != [] {
      var rest, last := group[..|group| - 1], group[|group| - 1];
      assert group == rest + [last];
      LearnsExactly(id, start, rest, skip);
      if skip == -1 {
        if forall fb :: fb in rest ==> !TellsJoin(id, start, fb) {
          if TellsJoin(id, start, last) {
            assert FirstToTell(id, start, group, |group| - 1);
          }
        } else {
          var i :| 0 <= i < |rest| && FirstToTell(id, start, rest, i)
            && SkipAfterAll(skip, start, id, rest) == rest[i].frame;
          assert group[..i] == rest[..i] && FirstToTell(id, start, group, i);
        }
      }
    }
  }

  lemma LearnsWhenTold(id: EngineId, start: int, group: seq<FrameBundle>, skip: int, skip': int)
    requires -1 <= start && Learns(id, start, group, skip, skip')
    ensures skip' == -1 <==> skip == -1 && forall fb :: fb in group ==> !TellsJoin(id, start, fb)
  {
  }

  // ----- the books

  /** What the local case sends and answers: the fillers and the bundle, then what became final. */
  ghost predicate OwnBooks(skip: int, fb: FrameBundle, h: History, h': History, l: Ledger, l': Ledger)
    requires h'.origin.frame <= h.start
  {
    var n := if 0 < skip <= fb.frame then fb.frame - skip + 1 else 1;
    && Says(l.id, skip, fb, l.sent, l'.sent) && |l.sent| + n <= |l'.sent|
    && Finalises(h'.origin, h'.used, h.start, h'.start, l.(sent := l'.sent[..|l.sent| + n]), l')
  }

  lemma OwnBooksKept(l: Ledger, skip: int, fb: FrameBundle, h: History, h': History, l': Ledger)
    requires h'.origin.frame <= h.start <= h'.start
    requires l' == Advanced(h'.origin, h'.used, h.start, h'.start, Announcing(l, LocalBroadcasts(l.id, skip, fb)))
    ensures OwnBooks(skip, fb, h, h', l, l')
  {
    var said := Announcing(l, LocalBroadcasts(l.id, skip, fb));
    var offers := if l.hosting then Offers(h'.origin, h'.used, l.cells, h.start, h'.start) else [];
    AdvancedFinalises(h'.origin, h'.used, h.start, h'.start, said);
    AdvancedSends(h'.origin, h'.used, h.start, h'.start, said);
    SaysSo(l.id, skip, fb, l.sent, offers);
    SaidFirst(l, skip, fb, offers);
  }

  lemma SaidFirst(l: Ledger, skip: int, fb: FrameBundle, offers: seq<Sent>)
    ensures var said := Announcing(l, LocalBroadcasts(l.id, skip, fb));
      var n := if 0 < skip <= fb.frame then fb.frame - skip + 1 else 1;
      |said.sent| == |l.sent| + n && said == l.(sent := (said.sent + offers)[..|l.sent| + n])
  {
    var said := Announcing(l, LocalBroadcasts(l.id, skip, fb));
    FillersListed(l.id, skip, fb.frame);
    BroadcastsWhat(LocalBroadcasts(l.id, skip, fb));
    assert (said.sent + offers)[..|said.sent|] == said.sent;
  }

  /** What a request gets, and what is kept of it. */
  ghost predicate RequestBooks(h: History, w: Waiter, l: Ledger, l': Ledger)
    requires h.origin.frame <= h.start
  {
    var l1 := l.(asked := l.asked + multiset{w});
    if w.frame < 0 || w.frame == h.start then
      l' == l1.(replies := l.replies + [Reply(w, h.start, l.cells.Of(h.start), h.WorldAt(h.start).game)])
    else if w.frame < h.start then l' == l1.(replies := l.replies + [NoReply(w)])
    else l' == l1.(pending := l.pending + [w])
  }

  lemma RequestPlainly(h: History, w: Waiter, l: Ledger)
    requires h.origin.frame <= h.start
    ensures RequestBooks(h, w, l, Requested(h.origin, h.used, h.start, l, w))
  {
    assert l.replies + [] == l.replies && l.pending + [] == l.pending;
  }
}
