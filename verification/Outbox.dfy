/** What an updater sends: bundles to broadcast, final frames on offer, and replies to state requests. */
module Outbox {
  import opened Membership
  import opened Bundles
  import opened Replay
  import opened Games
  import opened Sweep

  /** The two channels to the communicator, as one log: both are unbuffered and served by one loop. */
  datatype Sent = Broadcast(fb: FrameBundle) | Offered(frame: int, game: Game, world: World)

  /** A final frame's game object with what it held when it was sent, or the empty response. */
  datatype Reply = Reply(to: Waiter, frame: int, game: Game, state: State) | NoReply(to: Waiter)

  /** Which object holds a frame's game: the slots are reused in turn. */
  datatype Cells = Cells(first: int, game: Game, others: seq<Game>)
  {
    ghost function Of(f: int): Game
      decreases f - first
    {
      if f <= first then game
      else if f <= first + |others| then others[f - first - 1]
      else Of(f - 1 - |others|)
    }
  }

  // ----- offers

  ghost function Offer(o: Origin, used: Log, cells: Cells, f: int): Sent
    requires o.frame <= f
  {
    Offered(f, cells.Of(f), Replayed(o, used, f))
  }

  /** The offers of the frames in (a, b], ascending. */
  ghost function Offers(o: Origin, used: Log, cells: Cells, a: int, b: int): (s: seq<Sent>)
    requires o.frame <= a
    ensures forall x :: x in s ==> x.Offered?
    decreases b - a
  {
    if b <= a then [] else Offers(o, used, cells, a, b - 1) + [Offer(o, used, cells, b)]
  }

  ghost function OffersIn(sent: seq<Sent>): seq<Sent> {
    if sent == [] then []
    else OffersIn(sent[..|sent| - 1]) + if sent[|sent| - 1].Offered? then [sent[|sent| - 1]] else []
  }

  lemma {:induction false} OffersInAppend(a: seq<Sent>, b: seq<Sent>)
    ensures OffersIn(a + b) == OffersIn(a) + OffersIn(b)
  {
    if b == [] {
      assert a + b == a;
    } else {
      OffersInAppend(a, b[..|b| - 1]);
      assert (a + b)[..|a + b| - 1] == a + b[..|b| - 1];
    }
  }

  lemma {:induction false} OffersInBroadcasts(s: seq<Sent>)
    requires forall x :: x in s ==> x.Broadcast?
    ensures OffersIn(s) == []
  {
    if s != [] {
      OffersInBroadcasts(s[..|s| - 1]);
      assert s[|s| - 1] in s;
    }
  }

  lemma {:induction false} OffersJoin(o: Origin, used: Log, cells: Cells, a: int, b: int, c: int)
    requires o.frame <= a <= b <= c
    ensures Offers(o, used, cells, a, c) == Offers(o, used, cells, a, b) + Offers(o, used, cells, b, c)
    decreases c - b
  {
    if b < c {
      OffersJoin(o, used, cells, a, b, c - 1);
    }
  }

  /** Offers made earlier stay right: later bundles do not change final frames. */
  lemma {:induction false} OffersKeep(o: Origin, used: Log, used': Log, cells: Cells, a: int, b: int)
    requires o.frame <= a
    requires forall g :: o.frame < g <= b ==> (g in used <==> g in used') && At(used, g) == At(used', g)
    ensures Offers(o, used, cells, a, b) == Offers(o, used', cells, a, b)
    decreases b - a
  {
    if a < b {
      OffersKeep(o, used, used', cells, a, b - 1);
      ReplayLocal(o, used, used', b);
    }
  }

  lemma {:induction false} OffersListed(o: Origin, used: Log, cells: Cells, a: int, b: int, k: int)
    requires o.frame <= a <= b && 0 <= k < b - a
    ensures |Offers(o, used, cells, a, b)| == b - a
    ensures Offers(o, used, cells, a, b)[k] == Offer(o, used, cells, a + 1 + k)
    decreases b - a
  {
    if k < b - 1 - a {
      OffersListed(o, used, cells, a, b - 1, k);
    } else if a < b - 1 {
      OffersListed(o, used, cells, a, b - 1, 0);
    }
  }

  // ----- broadcast before offer

  ghost predicate Announced(sent: seq<Sent>, f: int) {
    exists s :: s in sent && s.Broadcast? && s.fb.frame == f
  }

  /** A frame of which the local engine is a member is only offered after the local bundle for it was sent. */
  ghost predicate Preceded(id: EngineId, sent: seq<Sent>) {
    forall i :: 0 <= i < |sent| ==> PrecededAt(id, sent, i)
  }

  ghost predicate PrecededAt(id: EngineId, sent: seq<Sent>, i: int)
    requires 0 <= i < |sent|
  {
    sent[i].Offered? && id in sent[i].world.members ==> Announced(sent[..i], sent[i].frame)
  }

  lemma AnnouncedMore(a: seq<Sent>, b: seq<Sent>, f: int)
    requires Announced(a, f) || Announced(b, f)
    ensures Announced(a + b, f)
  {
    if Announced(a, f) {
      var s :| s in a && s.Broadcast? && s.fb.frame == f;
      assert s in a + b;
    } else {
      var s :| s in b && s.Broadcast? && s.fb.frame == f;
      assert s in a + b;
    }
  }

  lemma PrecededMore(id: EngineId, a: seq<Sent>, b: seq<Sent>)
    requires Preceded(id, a)
    requires forall x :: x in b && x.Offered? && id in x.world.members ==> Announced(a, x.frame)
    ensures Preceded(id, a + b)
  {
    var c := a + b;
    forall i | 0 <= i < |c|
      ensures PrecededAt(id, c, i)
    {
      if i < |a| {
        assert PrecededAt(id, a, i) && c[..i] == a[..i];
      } else if c[i].Offered? && id in c[i].world.members {
        assert c[i] == b[i - |a|];
        assert c[..i] == a + b[..i - |a|];
        AnnouncedMore(a, b[..i - |a|], c[i].frame);
      }
    }
  }

  // ----- the bundles a joiner sends for the frames it missed

  /** The dummy bundle: the engine was there and did nothing. */
  function EmptyEntry(id: EngineId): Bundle {
    map[id := NO_EVENTS]
  }

  ghost function Fillers(id: EngineId, a: int, b: int): seq<FrameBundle>
    decreases b - a
  {
    if b <= a then [] else Fillers(id, a, b - 1) + [FrameBundle(b - 1, EmptyEntry(id))]
  }

  /** Exactly one for each frame of [a, b), in ascending order. */
  lemma {:induction false} FillersListed(id: EngineId, a: int, b: int)
    ensures |Fillers(id, a, b)| == if a < b then b - a else 0
    ensures forall k :: 0 <= k < b - a ==> Fillers(id, a, b)[k] == FrameBundle(a + k, EmptyEntry(id))
    decreases b - a
  {
    if a < b {
      FillersListed(id, a, b - 1);
    }
  }

  ghost function Broadcasts(fbs: seq<FrameBundle>): seq<Sent> {
    if fbs == [] then [] else Broadcasts(fbs[..|fbs| - 1]) + [Broadcast(fbs[|fbs| - 1])]
  }

  /**
   * What a local bundle makes an updater send, in plain terms: an empty entry for each frame from the one it is to
   * begin on, ascending, then the bundle, and nothing else but offers.
   */
  ghost predicate Says(id: EngineId, skip: int, fb: FrameBundle, before: seq<Sent>, after: seq<Sent>) {
    var n := if 0 < skip <= fb.frame then fb.frame - skip else 0;
    && |before| + n < |after| && after[..|before|] == before
    && (forall k :: |before| <= k < |before| + n ==>
          after[k] == Broadcast(FrameBundle(skip + k - |before|, map[id := AllEvents([], [])])))
    && after[|before| + n] == Broadcast(fb)
    && (forall k :: |before| + n < k < |after| ==> after[k].Offered?)
  }

  lemma {:induction false} BroadcastsWhat(fbs: seq<FrameBundle>)
    ensures |Broadcasts(fbs)| == |fbs|
    ensures forall k :: 0 <= k < |fbs| ==> Broadcasts(fbs)[k] == Broadcast(fbs[k])
  {
    if fbs != [] {
      BroadcastsWhat(fbs[..|fbs| - 1]);
    }
  }

  lemma SaidWhat(id: EngineId, skip: int, fb: FrameBundle)
    ensures var n := if 0 < skip <= fb.frame then fb.frame - skip else 0;
      var said := Broadcasts((if skip > 0 then Fillers(id, skip, fb.frame) else []) + [fb]);
      && |said| == n + 1 && said[n] == Broadcast(fb)
      && forall k :: 0 <= k < n ==> said[k] == Broadcast(FrameBundle(skip + k, map[id := AllEvents([], [])]))
  {
    var fillers := if skip > 0 then Fillers(id, skip, fb.frame) else [];
    FillersListed(id, skip, fb.frame);
    BroadcastsWhat(fillers + [fb]);
    forall k | 0 <= k < |fillers| ensures (fillers + [fb])[k] == FrameBundle(skip + k, EmptyEntry(id)) {}
  }

  lemma InThree(a: seq<Sent>, b: seq<Sent>, c: seq<Sent>)
    ensures (a + b + c)[..|a|] == a
    ensures forall k :: |a| <= k < |a| + |b| ==> (a + b + c)[k] == b[k - |a|]
    ensures forall k :: |a| + |b| <= k < |a + b + c| ==> (a + b + c)[k] in c
  {
    forall k | |a| + |b| <= k < |a + b + c| ensures (a + b + c)[k] in c {
      assert (a + b + c)[k] == c[k - |a| - |b|];
    }
  }

  /** The fillers, the bundle, and any offers. */
  lemma SaysSo(id: EngineId, skip: int, fb: FrameBundle, before: seq<Sent>, offers: seq<Sent>)
    requires forall x :: x in offers ==> x.Offered?
    ensures var fillers := if skip > 0 then Fillers(id, skip, fb.frame) else [];
      Says(id, skip, fb, before, before + Broadcasts(fillers + [fb]) + offers)
  {
    SaidWhat(id, skip, fb);
    InThree(before, Broadcasts((if skip > 0 then Fillers(id, skip, fb.frame) else []) + [fb]), offers);
  }

  // ----- final state requests

  ghost function Answers(ws: seq<Waiter>, frame: int, game: Game, state: State): seq<Reply> {
    if ws == [] then [] else Answers(ws[..|ws| - 1], frame, game, state) + [Reply(ws[|ws| - 1], frame, game, state)]
  }

  /** Who still waits after the frames in (a, b] became final one by one. */
  ghost function LeftAfter(ws: seq<Waiter>, a: int, b: int): seq<Waiter>
    decreases b - a
  {
    if b <= a then ws else Swept(LeftAfter(ws, a, b - 1), b, 0).1
  }

  ghost function Served(o: Origin, used: Log, cells: Cells, ws: seq<Waiter>, a: int, b: int): seq<Reply>
    requires o.frame <= a
    decreases b - a
  {
    if b <= a then []
    else
      var served := Swept(LeftAfter(ws, a, b - 1), b, 0).0;
      Served(o, used, cells, ws, a, b - 1) + Answers(served, b, cells.Of(b), Replayed(o, used, b).game)
  }

  ghost function Addressees(replies: seq<Reply>): (ws: seq<Waiter>)
    ensures |ws| == |replies|
  {
    if replies == [] then [] else Addressees(replies[..|replies| - 1]) + [replies[|replies| - 1].to]
  }

  lemma {:induction false} AddresseesAppend(a: seq<Reply>, b: seq<Reply>)
    ensures Addressees(a + b) == Addressees(a) + Addressees(b)
  {
    if b == [] {
      assert a + b == a;
    } else {
      AddresseesAppend(a, b[..|b| - 1]);
      assert (a + b)[..|a + b| - 1] == a + b[..|b| - 1];
    }
  }

  lemma {:induction false} AddresseesOfAnswers(ws: seq<Waiter>, frame: int, game: Game, state: State)
    ensures Addressees(Answers(ws, frame, game, state)) == ws
  {
    if ws != [] {
      AddresseesOfAnswers(ws[..|ws| - 1], frame, game, state);
    }
  }

  /** Served and still waiting together are those who waited: nobody is lost, nobody is served twice. */
  lemma {:induction false} ServedConserves(o: Origin, used: Log, cells: Cells, ws: seq<Waiter>, a: int, b: int)
    requires o.frame <= a
    ensures multiset(Addressees(Served(o, used, cells, ws, a, b))) + multiset(LeftAfter(ws, a, b)) == multiset(ws)
    decreases b - a
  {
    if a < b {
      ServedConserves(o, used, cells, ws, a, b - 1);
      var left := LeftAfter(ws, a, b - 1);
      SweepConserves(left, b, 0);
      var served := Swept(left, b, 0).0;
      var answers := Answers(served, b, cells.Of(b), Replayed(o, used, b).game);
      AddresseesAppend(Served(o, used, cells, ws, a, b - 1), answers);
      AddresseesOfAnswers(served, b, cells.Of(b), Replayed(o, used, b).game);
      assert multiset(Addressees(Served(o, used, cells, ws, a, b - 1)) + served)
          == multiset(Addressees(Served(o, used, cells, ws, a, b - 1))) + multiset(served);
    }
  }

  /**
   * Every reply carries the game of the frame asked for, as it is final; the empty response is for those who ask
   * for a frame before the start.
   */
  ghost predicate FinalReply(o: Origin, used: Log, cells: Cells, start: int, r: Reply)
  {
    match r
    case Reply(to, frame, game, state) =>
      && o.frame <= frame <= start && game == cells.Of(frame)
      && state == Replayed(o, used, frame).game && (0 <= to.frame ==> to.frame == frame)
    case NoReply(to) => 0 <= to.frame < start
  }

  lemma {:induction false} AnswersFinal(o: Origin, used: Log, cells: Cells, start: int, ws: seq<Waiter>, f: int)
    requires o.frame <= f <= start
    requires forall w :: w in ws ==> w.frame == f
    ensures forall r :: r in Answers(ws, f, cells.Of(f), Replayed(o, used, f).game) ==>
      FinalReply(o, used, cells, start, r)
  {
    if ws != [] {
      AnswersFinal(o, used, cells, start, ws[..|ws| - 1], f);
      assert ws[|ws| - 1] in ws;
    }
  }

  lemma {:induction false} ServedFinal(o: Origin, used: Log, cells: Cells, ws: seq<Waiter>, a: int, b: int, start: int)
    requires o.frame <= a && b <= start
    ensures forall r :: r in Served(o, used, cells, ws, a, b) ==> FinalReply(o, used, cells, start, r)
    decreases b - a
  {
    if a < b {
      ServedFinal(o, used, cells, ws, a, b - 1, start);
      SweptWaited(LeftAfter(ws, a, b - 1), b, 0);
      AnswersFinal(o, used, cells, start, Swept(LeftAfter(ws, a, b - 1), b, 0).0, b);
    }
  }

  lemma FinalReplyKeeps(o: Origin, used: Log, used': Log, cells: Cells, start: int, start': int, r: Reply)
    requires start <= start' && FinalReply(o, used, cells, start, r)
    requires forall g :: o.frame < g <= start ==> (g in used <==> g in used') && At(used, g) == At(used', g)
    ensures FinalReply(o, used', cells, start', r)
  {
    if r.Reply? {
      ReplayLocal(o, used, used', r.frame);
    }
  }

  /** Requests for pairwise different frames above `a`: when `b` is final, those up to `b` have been served. */
  lemma {:induction false} NobodyPassedOver(ws: seq<Waiter>, a: int, b: int)
    requires Distinct(ws) && forall w :: w in ws ==> a < w.frame
    ensures Distinct(LeftAfter(ws, a, b))
    ensures forall w :: w in LeftAfter(ws, a, b) ==> w in ws && a < w.frame && b < w.frame
    decreases b - a
  {
    if a < b {
      NobodyPassedOver(ws, a, b - 1);
      var left := LeftAfter(ws, a, b - 1);
      DistinctMissesNobody(left, b);
      forall w | w in Swept(left, b, 0).1
        ensures w in ws && b < w.frame
      {
        LeftWasThere(left, b, w);
      }
    }
  }

  lemma {:induction false} LeftWaited(ws: seq<Waiter>, a: int, b: int, w: Waiter)
    requires w in LeftAfter(ws, a, b)
    ensures w in ws
    decreases b - a
  {
    if a < b {
      LeftWasThere(LeftAfter(ws, a, b - 1), b, w);
      LeftWaited(ws, a, b - 1, w);
    }
  }

  /** Who waits for a frame that is final already is never served again. */
  lemma {:induction false} PassedOverForever(ws: seq<Waiter>, a: int, b: int, w: Waiter)
    requires w in ws && w.frame <= a
    ensures w in LeftAfter(ws, a, b)
    decreases b - a
  {
    if a < b {
      PassedOverForever(ws, a, b - 1, w);
      OthersStay(LeftAfter(ws, a, b - 1), b, w);
    }
  }

  /** Of two that wait for one frame the second never hears, however far the window slides. */
  lemma {:induction false} SecondNeverHears(w1: int, w2: int, f: int, b: int)
    requires f <= b
    ensures LeftAfter([Waiter(w1, f), Waiter(w2, f)], f - 1, b) == [Waiter(w2, f)]
    decreases b - f
  {
    var ws := [Waiter(w1, f), Waiter(w2, f)];
    if f == b {
      assert LeftAfter(ws, f - 1, f - 1) == ws;
      SecondIsPassedOver(w1, w2, f);
    } else {
      SecondNeverHears(w1, w2, f, b - 1);
      assert Swept([Waiter(w2, f)], b, 1) == ([], [Waiter(w2, f)]);
    }
  }

  // ----- the books of an updater, kept over whole runs

  datatype Ledger = Ledger(id: EngineId, hosting: bool, cells: Cells, sent: seq<Sent>, replies: seq<Reply>,
                           pending: seq<Waiter>, asked: multiset<Waiter>)

  ghost predicate Agrees(o: Origin, used: Log, used': Log, start: int) {
    forall g :: o.frame < g <= start ==> (g in used <==> g in used') && At(used, g) == At(used', g)
  }

  /**
   * The offers so far are exactly the final frames, in order, with their worlds; the local engine's own
   * bundles were sent before; and every request is answered once with a final game, or pending.
   */
  ghost predicate Balanced(o: Origin, used: Log, start: int, l: Ledger)
    requires o.frame <= start
  {
    && OffersIn(l.sent) == (if l.hosting then Offers(o, used, l.cells, o.frame, start) else [])
    && Preceded(l.id, l.sent)
    && (forall f :: SelfAnnounced(l.id, used, l.sent, f))
    && multiset(Addressees(l.replies)) + multiset(l.pending) == l.asked
    && (forall r :: r in l.replies ==> FinalReply(o, used, l.cells, start, r))
  }

  ghost predicate SelfAnnounced(id: EngineId, used: Log, sent: seq<Sent>, f: int) {
    id in At(used, f) ==> Announced(sent, f)
  }

  lemma BalancedAbsorb(o: Origin, used: Log, used': Log, start: int, l: Ledger)
    requires o.frame <= start && Balanced(o, used, start, l) && Agrees(o, used, used', start)
    requires forall f :: l.id in At(used', f) ==> l.id in At(used, f)
    ensures Balanced(o, used', start, l)
  {
    OffersKeep(o, used, used', l.cells, o.frame, start);
    forall r | r in l.replies ensures FinalReply(o, used', l.cells, start, r) {
      FinalReplyKeeps(o, used, used', l.cells, start, start, r);
    }
    forall f ensures SelfAnnounced(l.id, used', l.sent, f) {
      assert SelfAnnounced(l.id, used, l.sent, f);
    }
  }

  lemma BalancedBroadcast(o: Origin, used: Log, used': Log, start: int, l: Ledger, fb: FrameBundle)
    requires o.frame <= start && Balanced(o, used, start, l) && Agrees(o, used, used', start)
    requires forall f :: f != fb.frame ==> At(used', f) == At(used, f)
    ensures Balanced(o, used', start, l.(sent := l.sent + [Broadcast(fb)]))
  {
    OffersKeep(o, used, used', l.cells, o.frame, start);
    OffersInAppend(l.sent, [Broadcast(fb)]);
    OffersInBroadcasts([Broadcast(fb)]);
    PrecededMore(l.id, l.sent, [Broadcast(fb)]);
    forall r | r in l.replies ensures FinalReply(o, used', l.cells, start, r) {
      FinalReplyKeeps(o, used, used', l.cells, start, start, r);
    }
    forall f ensures SelfAnnounced(l.id, used', l.sent + [Broadcast(fb)], f) {
      assert SelfAnnounced(l.id, used, l.sent, f);
      if l.id in At(used', f) {
        if f == fb.frame {
          assert [Broadcast(fb)][0] in [Broadcast(fb)];
        }
        AnnouncedMore(l.sent, [Broadcast(fb)], f);
      }
    }
  }

  ghost function OfferIf(hosting: bool, s: Sent): seq<Sent> {
    if hosting then [s] else []
  }

  /** One more frame is final: offered if hosting, and handed to those who wait for it. */
  ghost function SlidLedger(o: Origin, used: Log, start: int, l: Ledger): Ledger
    requires o.frame <= start
  {
    var f := start + 1;
    var (served, left) := Swept(l.pending, f, 0);
    l.(sent := l.sent + OfferIf(l.hosting, Offer(o, used, l.cells, f)),
       replies := l.replies + Answers(served, f, l.cells.Of(f), Replayed(o, used, f).game),
       pending := left)
  }

  lemma SlideOffers(o: Origin, used: Log, start: int, l: Ledger)
    requires o.frame <= start
    requires OffersIn(l.sent) == if l.hosting then Offers(o, used, l.cells, o.frame, start) else []
    ensures OffersIn(l.sent + OfferIf(l.hosting, Offer(o, used, l.cells, start + 1)))
         == if l.hosting then Offers(o, used, l.cells, o.frame, start + 1) else []
  {
    var offer := Offer(o, used, l.cells, start + 1);
    if l.hosting {
      OffersInSnoc(l.sent, offer);
    } else {
      assert l.sent + [] == l.sent;
    }
  }

  lemma OffersInSnoc(sent: seq<Sent>, s: Sent)
    requires s.Offered?
    ensures OffersIn(sent + [s]) == OffersIn(sent) + [s]
  {
    assert (sent + [s])[..|sent|] == sent;
  }

  /** The frame slid past is complete, so the engine's own bundle for it was broadcast before the offer. */
  lemma SlideAnnounced(o: Origin, used: Log, start: int, l: Ledger)
    requires o.frame <= start && Balanced(o, used, start, l)
    requires Complete(Replayed(o, used, start + 1), At(used, start + 1))
    ensures var sent' := SlidLedger(o, used, start, l).sent;
      Preceded(l.id, sent') && forall f :: SelfAnnounced(l.id, used, sent', f)
  {
    var more := OfferIf(l.hosting, Offer(o, used, l.cells, start + 1));
    assert SelfAnnounced(l.id, used, l.sent, start + 1);
    PrecededMore(l.id, l.sent, more);
    forall f ensures SelfAnnounced(l.id, used, l.sent + more, f) {
      assert SelfAnnounced(l.id, used, l.sent, f);
      SelfAnnouncedMore(l.id, used, l.sent, more, f);
    }
  }

  lemma SelfAnnouncedMore(id: EngineId, used: Log, a: seq<Sent>, b: seq<Sent>, f: int)
    requires SelfAnnounced(id, used, a, f)
    ensures SelfAnnounced(id, used, a + b, f)
  {
    if id in At(used, f) {
      AnnouncedMore(a, b, f);
    }
  }

  lemma SlideReplies(o: Origin, used: Log, start: int, l: Ledger)
    requires o.frame <= start && Balanced(o, used, start, l)
    ensures var l' := SlidLedger(o, used, start, l);
      && multiset(Addressees(l'.replies)) + multiset(l'.pending) == l.asked
      && (forall r :: r in l'.replies ==> FinalReply(o, used, l.cells, start + 1, r))
  {
    var f, l' := start + 1, SlidLedger(o, used, start, l);
    var served := Swept(l.pending, f, 0).0;
    var answers := Answers(served, f, l.cells.Of(f), Replayed(o, used, f).game);
    SweepConserves(l.pending, f, 0);
    SweptWaited(l.pending, f, 0);
    AddresseesAppend(l.replies, answers);
    AddresseesOfAnswers(served, f, l.cells.Of(f), Replayed(o, used, f).game);
    assert multiset(Addressees(l.replies) + served) == multiset(Addressees(l.replies)) + multiset(served);
    AnswersFinal(o, used, l.cells, f, served, f);
    forall r | r in l'.replies ensures FinalReply(o, used, l.cells, f, r) {
      if r in l.replies {
        FinalReplyKeeps(o, used, used, l.cells, start, f, r);
      }
    }
  }

  lemma BalancedSlide(o: Origin, used: Log, start: int, l: Ledger)
    requires o.frame <= start && Balanced(o, used, start, l)
    requires Complete(Replayed(o, used, start + 1), At(used, start + 1))
    ensures Balanced(o, used, start + 1, SlidLedger(o, used, start, l))
  {
    SlideOffers(o, used, start, l);
    SlideAnnounced(o, used, start, l);
    SlideReplies(o, used, start, l);
  }

  /** The frames in (a, b] become final one by one. */
  ghost function Advanced(o: Origin, used: Log, a: int, b: int, l: Ledger): Ledger
    requires o.frame <= a
    decreases b - a
  {
    if b <= a then l else SlidLedger(o, used, b - 1, Advanced(o, used, a, b - 1, l))
  }

  lemma {:induction false} AdvancedKeeps(o: Origin, used: Log, a: int, b: int, l: Ledger)
    requires o.frame <= a
    ensures var l' := Advanced(o, used, a, b, l);
      && l'.hosting == l.hosting && l'.cells == l.cells && l'.id == l.id && l'.asked == l.asked
      && l'.pending == LeftAfter(l.pending, a, b)
    decreases b - a
  {
    if a < b {
      AdvancedKeeps(o, used, a, b - 1, l);
    }
  }

  /** What goes out while the frames in (a, b] become final: their offers, and the answers to who waited for them. */
  lemma {:induction false} AdvancedSends(o: Origin, used: Log, a: int, b: int, l: Ledger)
    requires o.frame <= a
    ensures var l' := Advanced(o, used, a, b, l);
      && l'.sent == l.sent + (if l.hosting then Offers(o, used, l.cells, a, b) else [])
      && l'.replies == l.replies + Served(o, used, l.cells, l.pending, a, b)
    decreases b - a
  {
    if a < b {
      AdvancedSends(o, used, a, b - 1, l);
      AdvancedKeeps(o, used, a, b - 1, l);
      var m := Advanced(o, used, a, b - 1, l);
      var offers := if l.hosting then Offers(o, used, l.cells, a, b - 1) else [];
      var offer := OfferIf(l.hosting, Offer(o, used, l.cells, b));
      assert l.sent + (offers + offer) == m.sent + offer;
      var answers := Answers(Swept(m.pending, b, 0).0, b, l.cells.Of(b), Replayed(o, used, b).game);
      assert l.replies + (Served(o, used, l.cells, l.pending, a, b - 1) + answers) == m.replies + answers;
    }
  }

  // ----- taking a request

  /** The reply a request for a final state gets at once, if it gets one. */
  ghost function AtOnce(o: Origin, used: Log, start: int, l: Ledger, w: Waiter): seq<Reply>
    requires o.frame <= start
  {
    if w.frame < 0 || w.frame == start then [Reply(w, start, l.cells.Of(start), Replayed(o, used, start).game)]
    else if w.frame < start then [NoReply(w)]
    else []
  }

  ghost function Requested(o: Origin, used: Log, start: int, l: Ledger, w: Waiter): Ledger
    requires o.frame <= start
  {
    var reply := AtOnce(o, used, start, l, w);
    l.(replies := l.replies + reply, pending := l.pending + if reply == [] then [w] else [],
       asked := l.asked + multiset{w})
  }

  lemma RequestConserves(replies: seq<Reply>, pending: seq<Waiter>, reply: Reply)
    ensures multiset(Addressees(replies + [reply])) + multiset(pending)
         == multiset(Addressees(replies)) + multiset(pending) + multiset{reply.to}
    ensures multiset(Addressees(replies)) + multiset(pending + [reply.to])
         == multiset(Addressees(replies)) + multiset(pending) + multiset{reply.to}
    ensures replies + [] == replies && pending + [] == pending
  {
    AddresseesAppend(replies, [reply]);
    assert [reply][..0] == [];
    assert Addressees([reply]) == [reply.to];
    assert multiset(Addressees(replies) + [reply.to]) == multiset(Addressees(replies)) + multiset{reply.to};
  }

  lemma RequestReplies(o: Origin, used: Log, start: int, l: Ledger, w: Waiter)
    requires o.frame <= start && forall r :: r in l.replies ==> FinalReply(o, used, l.cells, start, r)
    ensures forall r :: r in Requested(o, used, start, l, w).replies ==> FinalReply(o, used, l.cells, start, r)
  {
    var more := AtOnce(o, used, start, l, w);
    forall r | r in l.replies + more ensures FinalReply(o, used, l.cells, start, r) {
      assert r in l.replies || r in more;
    }
  }

  lemma RequestAccounted(o: Origin, used: Log, start: int, l: Ledger, w: Waiter)
    requires o.frame <= start && multiset(Addressees(l.replies)) + multiset(l.pending) == l.asked
    ensures var l' := Requested(o, used, start, l, w);
      multiset(Addressees(l'.replies)) + multiset(l'.pending) == l'.asked
  {
    var reply := AtOnce(o, used, start, l, w);
    RequestConserves(l.replies, l.pending, if reply == [] then NoReply(w) else reply[0]);
  }

  lemma BalancedRequest(o: Origin, used: Log, start: int, l: Ledger, w: Waiter)
    requires o.frame <= start && Balanced(o, used, start, l)
    ensures Balanced(o, used, start, Requested(o, used, start, l, w))
  {
    RequestAccounted(o, used, start, l, w);
    RequestReplies(o, used, start, l, w);
  }

  // ----- nobody is passed over, if no two wait for the same frame

  ghost predicate Prompt(pending: seq<Waiter>, start: int) {
    Distinct(pending) && forall w :: w in pending ==> start < w.frame
  }

  /**
   * With pairwise different frames pending, the window never slides past a waiter: whoever waits for a frame
   * that became final has been answered, and whoever is left still waits for a later one.
   */
  lemma PromptKept(o: Origin, used: Log, a: int, b: int, l: Ledger)
    requires o.frame <= a <= b && Prompt(l.pending, a)
    ensures var l' := Advanced(o, used, a, b, l);
      && Prompt(l'.pending, b)
      && l'.replies == l.replies + Served(o, used, l.cells, l.pending, a, b)
      && (forall w :: w in l.pending && w.frame <= b ==> w in Addressees(Served(o, used, l.cells, l.pending, a, b)))
  {
    AdvancedSends(o, used, a, b, l);
    AdvancedKeeps(o, used, a, b, l);
    NobodyPassedOver(l.pending, a, b);
    ServedConserves(o, used, l.cells, l.pending, a, b);
    var served := Served(o, used, l.cells, l.pending, a, b);
    forall w | w in l.pending && w.frame <= b
      ensures w in Addressees(served)
    {
      assert w in multiset(l.pending);
    }
  }

  lemma PromptRequest(o: Origin, used: Log, start: int, l: Ledger, w: Waiter)
    requires o.frame <= start && Prompt(l.pending, start)
    requires 0 <= w.frame ==> forall x :: x in l.pending ==> x.frame != w.frame
    ensures Prompt(Requested(o, used, start, l, w).pending, start)
  {
  }

  lemma {:induction false} AddresseeFound(replies: seq<Reply>, w: Waiter) returns (k: nat)
    requires w in Addressees(replies)
    ensures k < |replies| && replies[k].to == w
  {
    if replies[|replies| - 1].to == w {
      k := |replies| - 1;
    } else {
      k := AddresseeFound(replies[..|replies| - 1], w);
    }
  }

  /**
   * With balanced books and different frames pending, whoever asked for a frame that is final, or for the newest
   * final one, has been answered: with the object and the state of that frame, and with the empty response only if
   * it asked for a frame below the start.
   */
  lemma EveryoneIsAnswered(o: Origin, used: Log, start: int, l: Ledger, w: Waiter) returns (k: nat)
    requires o.frame <= start && Balanced(o, used, start, l) && Prompt(l.pending, start)
    requires w in l.asked && w.frame <= start
    ensures k < |l.replies| && l.replies[k].to == w
    ensures w.frame < 0 || w.frame == start ==> l.replies[k].Reply?
    ensures l.replies[k].Reply? ==>
      var r := l.replies[k];
      && o.frame <= r.frame <= start && (0 <= w.frame ==> r.frame == w.frame)
      && r.game == l.cells.Of(r.frame) && r.state == Replayed(o, used, r.frame).game
  {
    assert w in multiset(Addressees(l.replies)) || w in multiset(l.pending);
    k := AddresseeFound(l.replies, w);
    assert FinalReply(o, used, l.cells, start, l.replies[k]);
  }

  // ----- the same in plain terms

  /** What goes out while the frames in (a, b] become final, from the books before and after. */
  ghost predicate Finalises(o: Origin, used: Log, a: int, b: int, l: Ledger, l': Ledger)
    requires o.frame <= a
  {
    && l'.id == l.id && l'.hosting == l.hosting && l'.cells == l.cells && l'.asked == l.asked
    && OffersOf(o, used, a, b, l, l') && AnswersOf(o, used, a, b, l, l')
  }

  /** A host offers each of them, in order, with its object and its world, and nothing else; others offer nothing. */
  ghost predicate OffersOf(o: Origin, used: Log, a: int, b: int, l: Ledger, l': Ledger)
    requires o.frame <= a
  {
    && |l.sent| <= |l'.sent| == |l.sent| + (if l.hosting then b - a else 0) && l'.sent[..|l.sent|] == l.sent
    && forall k :: |l.sent| <= k < |l'.sent| ==>
         var f := a + 1 + k - |l.sent|; l'.sent[k] == Offered(f, l.cells.Of(f), Replayed(o, used, f))
  }

  /**
   * Every new reply is to someone who waited for one of them, with its object and its state; whoever is not
   * answered still waits, and with different frames waited for nobody is left who waits for one of them.
   */
  ghost predicate AnswersOf(o: Origin, used: Log, a: int, b: int, l: Ledger, l': Ledger)
    requires o.frame <= a
  {
    && |l.replies| <= |l'.replies| && l'.replies[..|l.replies|] == l.replies
    && (forall k :: |l.replies| <= k < |l'.replies| ==> AnswerAt(o, used, a, b, l.cells, l'.replies[k]))
    && multiset(l.pending) == multiset(l'.pending) + multiset(Addressees(l'.replies[|l.replies|..]))
    && (Distinct(l.pending) ==> forall w :: w in l'.pending ==> w.frame <= a || b < w.frame)
  }

  ghost predicate AnswerAt(o: Origin, used: Log, a: int, b: int, cells: Cells, r: Reply)
    requires o.frame <= a
  {
    && r.Reply? && a < r.to.frame == r.frame <= b
    && r.game == cells.Of(r.frame) && r.state == Replayed(o, used, r.frame).game
  }

  lemma {:induction false} AnswersWhat(ws: seq<Waiter>, frame: int, game: Game, state: State)
    ensures |Answers(ws, frame, game, state)| == |ws|
    ensures forall k :: 0 <= k < |ws| ==> Answers(ws, frame, game, state)[k] == Reply(ws[k], frame, game, state)
  {
    if ws != [] {
      AnswersWhat(ws[..|ws| - 1], frame, game, state);
    }
  }

  lemma {:induction false} ServedWhat(o: Origin, used: Log, cells: Cells, ws: seq<Waiter>, a: int, b: int)
    requires o.frame <= a
    ensures forall k :: 0 <= k < |Served(o, used, cells, ws, a, b)| ==>
      AnswerAt(o, used, a, b, cells, Served(o, used, cells, ws, a, b)[k])
    decreases b - a
  {
    if a < b {
      ServedWhat(o, used, cells, ws, a, b - 1);
      var served := Swept(LeftAfter(ws, a, b - 1), b, 0).0;
      SweptWaited(LeftAfter(ws, a, b - 1), b, 0);
      AnswersWhat(served, b, cells.Of(b), Replayed(o, used, b).game);
      forall k | 0 <= k < |served| ensures served[k].frame == b {
        assert served[k] in served;
      }
    }
  }

  lemma AdvancedFinalises(o: Origin, used: Log, a: int, b: int, l: Ledger)
    requires o.frame <= a <= b
    ensures Finalises(o, used, a, b, l, Advanced(o, used, a, b, l))
  {
    AdvancedKeeps(o, used, a, b, l);
    AdvancedSends(o, used, a, b, l);
    AdvancedOffers(o, used, a, b, l);
    AdvancedAnswers(o, used, a, b, l);
  }

  lemma AdvancedOffers(o: Origin, used: Log, a: int, b: int, l: Ledger)
    requires o.frame <= a <= b
    ensures OffersOf(o, used, a, b, l, Advanced(o, used, a, b, l))
  {
    var l' := Advanced(o, used, a, b, l);
    AdvancedSends(o, used, a, b, l);
    if l.hosting {
      if a < b {
        OffersListed(o, used, l.cells, a, b, 0);
      }
      forall k | |l.sent| <= k < |l'.sent|
        ensures l'.sent[k] == Offer(o, used, l.cells, a + 1 + k - |l.sent|)
      {
        OffersListed(o, used, l.cells, a, b, k - |l.sent|);
      }
    } else {
      assert l.sent + [] == l.sent;
    }
  }

  lemma AdvancedAnswers(o: Origin, used: Log, a: int, b: int, l: Ledger)
    requires o.frame <= a <= b
    ensures AnswersOf(o, used, a, b, l, Advanced(o, used, a, b, l))
  {
    var l', served := Advanced(o, used, a, b, l), Served(o, used, l.cells, l.pending, a, b);
    AdvancedKeeps(o, used, a, b, l);
    AdvancedSends(o, used, a, b, l);
    ServedConserves(o, used, l.cells, l.pending, a, b);
    ServedWhat(o, used, l.cells, l.pending, a, b);
    assert l'.replies[|l.replies|..] == served;
    if Distinct(l.pending) {
      forall w | w in l'.pending ensures w.frame <= a || b < w.frame {
        NotSlidPast(l.pending, a, b, w);
      }
    }
  }

  lemma {:induction false} NotSlidPast(ws: seq<Waiter>, a: int, b: int, w: Waiter)
    requires Distinct(ws) && w in LeftAfter(ws, a, b)
    ensures Distinct(LeftAfter(ws, a, b)) && (w.frame <= a || b < w.frame)
    decreases b - a
  {
    if a < b {
      LeftWasThere(LeftAfter(ws, a, b - 1), b, w);
      NotSlidPast(ws, a, b - 1, w);
      DistinctMissesNobody(LeftAfter(ws, a, b - 1), b);
    }
  }

  /** Whoever waits alone for a frame is answered with it as soon as it is final. */
  lemma WaiterIsAnswered(o: Origin, used: Log, a: int, b: int, l: Ledger, l': Ledger, w: Waiter) returns (k: nat)
    requires o.frame <= a && Finalises(o, used, a, b, l, l') && Distinct(l.pending)
    requires w in l.pending && a < w.frame <= b
    ensures |l.replies| <= k < |l'.replies|
    ensures l'.replies[k] == Reply(w, w.frame, l.cells.Of(w.frame), Replayed(o, used, w.frame).game)
  {
    assert w in multiset(l.pending);
    k := AddresseeFound(l'.replies[|l.replies|..], w);
    k := k + |l.replies|;
    assert AnswerAt(o, used, a, b, l.cells, l'.replies[k]);
  }
}
