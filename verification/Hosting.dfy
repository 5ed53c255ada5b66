/**
 * A host: its updater and its communicator together. The two channels between them are unbuffered, so the
 * communicator's loop takes what the updater sends in the order it was sent, with arrivals and new
 * connections anywhere in between.
 */
module Hosting {
  import opened Membership
  import opened Bundles
  import opened Replay
  import opened Agreement
  import opened Outbox
  import opened Updaters
  import opened UpdaterRuns
  import opened Runs
  import opened Communicators

  datatype CommEvent =
    | Joins(conn: Conn, id: EngineId)
    | Local(fb: FrameBundle)
    | FromRemote(fb: FrameBundle, from: Conn)
    | Final(frame: int, world: World)

  function Noted(s: Sent): CommEvent {
    match s
    case Broadcast(fb) => Local(fb)
    case Offered(frame, _, world) => Final(frame, world)
  }

  function NotedAll(sent: seq<Sent>): seq<CommEvent> {
    if sent == [] then [] else NotedAll(sent[..|sent| - 1]) + [Noted(sent[|sent| - 1])]
  }

  /** The part of a run that came from the updater. */
  ghost function OfUpdater(script: seq<CommEvent>): seq<CommEvent> {
    if script == [] then []
    else
      var last := script[|script| - 1];
      OfUpdater(script[..|script| - 1]) + if last.Local? || last.Final? then [last] else []
  }

  ghost predicate Said(es: seq<CommEvent>, f: int) {
    exists e :: e in es && e.Local? && e.fb.frame == f
  }

  ghost function LastFinal(es: seq<CommEvent>, base: int): int {
    if es == [] then base
    else if es[|es| - 1].Final? then es[|es| - 1].frame
    else LastFinal(es[..|es| - 1], base)
  }

  /** Final frames come one after the other, each after a local bundle for it. */
  ghost predicate Orderly(es: seq<CommEvent>, base: int) {
    es != [] ==>
      var rest, last := es[..|es| - 1], es[|es| - 1];
      Orderly(rest, base) && (last.Final? ==> last.frame == LastFinal(rest, base) + 1 && Said(rest, last.frame))
  }

  lemma SaidMore(es: seq<CommEvent>, e: CommEvent, f: int)
    ensures Said(es + [e], f) <==> Said(es, f) || (e.Local? && e.fb.frame == f)
  {
    assert forall x :: x in es + [e] <==> x in es || x == e;
  }

  /** Arrivals and new connections in between change nothing about the order. */
  lemma {:induction false} InterleavingStaysOrderly(script: seq<CommEvent>, base: int)
    requires Orderly(OfUpdater(script), base)
    ensures Orderly(script, base) && LastFinal(script, base) == LastFinal(OfUpdater(script), base)
    ensures forall f :: Said(script, f) <==> Said(OfUpdater(script), f)
  {
    if script != [] {
      var rest, last := script[..|script| - 1], script[|script| - 1];
      assert script == rest + [last];
      if last.Local? || last.Final? {
        var es := OfUpdater(script);
        assert es[..|es| - 1] == OfUpdater(rest);
        InterleavingStaysOrderly(rest, base);
        forall f ensures Said(script, f) <==> Said(es, f) {
          SaidMore(rest, last, f);
          SaidMore(OfUpdater(rest), last, f);
        }
      } else {
        assert OfUpdater(script) == OfUpdater(rest);
        InterleavingStaysOrderly(rest, base);
        forall f ensures Said(script, f) <==> Said(OfUpdater(script), f) {
          SaidMore(rest, last, f);
        }
      }
    }
  }

  lemma {:induction false} AnnouncedIsSaid(sent: seq<Sent>, f: int)
    requires Announced(sent, f)
    ensures Said(NotedAll(sent), f)
  {
    var rest, last := sent[..|sent| - 1], sent[|sent| - 1];
    SaidMore(NotedAll(rest), Noted(last), f);
    if !(last.Broadcast? && last.fb.frame == f) {
      var s :| s in sent && s.Broadcast? && s.fb.frame == f;
      assert sent == rest + [last];
      assert s in rest;
      AnnouncedIsSaid(rest, f);
    }
  }

  lemma PrecededBefore(id: EngineId, sent: seq<Sent>)
    requires sent != [] && Preceded(id, sent)
    ensures var rest, last := sent[..|sent| - 1], sent[|sent| - 1];
      Preceded(id, rest) && (last.Offered? && id in last.world.members ==> Announced(rest, last.frame))
  {
    var rest := sent[..|sent| - 1];
    forall i | 0 <= i < |rest|
      ensures PrecededAt(id, rest, i)
    {
      assert PrecededAt(id, sent, i) && sent[..i] == rest[..i];
    }
    assert PrecededAt(id, sent, |sent| - 1);
  }

  /** From consecutive offers, each preceded by the local bundle of its frame, follows the order. */
  lemma {:induction false} OffersAreOrderly(id: EngineId, sent: seq<Sent>, base: int)
    requires Preceded(id, sent)
    requires forall s :: s in sent && s.Offered? ==> id in s.world.members
    requires forall k :: 0 <= k < |OffersIn(sent)| ==>
      OffersIn(sent)[k].Offered? && OffersIn(sent)[k].frame == base + 1 + k
    ensures Orderly(NotedAll(sent), base)
    ensures LastFinal(NotedAll(sent), base) == base + |OffersIn(sent)|
  {
    if sent != [] {
      var rest, last := sent[..|sent| - 1], sent[|sent| - 1];
      PrecededBefore(id, sent);
      assert forall k :: 0 <= k < |OffersIn(rest)| ==> OffersIn(rest)[k] == OffersIn(sent)[k];
      OffersAreOrderly(id, rest, base);
      var es := NotedAll(sent);
      assert es[..|es| - 1] == NotedAll(rest);
      if last.Offered? {
        assert OffersIn(sent)[|OffersIn(rest)|] == last;
        AnnouncedIsSaid(rest, last.frame);
      }
    }
  }

  /** The host began the game as a member, alone emits engine events, and is never dropped. */
  ghost predicate IsHost(h: History, l: Ledger, table: Log) {
    && l.hosting && !h.origin.placeholder && l.id in h.origin.world.members
    && HostOnly(table, l.id) && Within(h.delivered, table)
  }

  lemma HostOffersAreCanonical(h: History, l: Ledger, table: Log)
    requires Recorded(h) && IsHost(h, l, table)
    requires OffersIn(l.sent) == Offers(h.origin, h.used, l.cells, h.origin.frame, h.start)
    ensures CanonicalOffers(l.sent, l.cells, h.origin, table, h.start)
  {
    HostIsLawful(h, table, l.id);
    OffersAreCanonical(h, l, table);
  }

  /** What a hosting updater has sent is in order, after any run. */
  lemma HostSendsInOrder(h: History, l: Ledger, table: Log)
    requires Recorded(h) && IsHost(h, l, table) && Preceded(l.id, l.sent)
    requires OffersIn(l.sent) == Offers(h.origin, h.used, l.cells, h.origin.frame, h.start)
    ensures Orderly(NotedAll(l.sent), h.origin.frame)
    ensures LastFinal(NotedAll(l.sent), h.origin.frame) == h.start
    ensures CanonicalOffers(l.sent, l.cells, h.origin, table, h.start)
  {
    HostOffersAreCanonical(h, l, table);
    HostOffersAreOrderly(l.sent, l.cells, h.origin, table, l.id, h.start);
  }

  lemma HostIsLawful(h: History, table: Log, host: EngineId)
    requires !h.origin.placeholder && host in h.origin.world.members
    requires HostOnly(table, host) && Within(h.delivered, table)
    ensures Lawful(h, table)
  {
    HostGoverns(h.origin, table, host);
  }

  lemma HostOffersAreOrderly(sent: seq<Sent>, cells: Cells, o: Origin, table: Log, host: EngineId, start: int)
    requires HostOnly(table, host) && host in o.world.members && Preceded(host, sent)
    requires CanonicalOffers(sent, cells, o, table, start)
    ensures Orderly(NotedAll(sent), o.frame)
    ensures LastFinal(NotedAll(sent), o.frame) == start
  {
    forall s | s in sent && s.Offered?
      ensures host in s.world.members
    {
      var k := OfferIsListed(sent, s);
      assert OfferedAs(OffersIn(sent)[k], cells, o, table, o.frame + 1 + k);
      HostStays(o, table, host, o.frame + 1 + k);
    }
    forall k | 0 <= k < |OffersIn(sent)|
      ensures OffersIn(sent)[k].Offered? && OffersIn(sent)[k].frame == o.frame + 1 + k
    {
      assert OfferedAs(OffersIn(sent)[k], cells, o, table, o.frame + 1 + k);
    }
    OffersAreOrderly(host, sent, o.frame);
  }

  lemma {:induction false} OfferIsListed(sent: seq<Sent>, s: Sent) returns (k: nat)
    requires s in sent && s.Offered?
    ensures k < |OffersIn(sent)| && OffersIn(sent)[k] == s
  {
    var rest, last := sent[..|sent| - 1], sent[|sent| - 1];
    assert sent == rest + [last];
    if s == last {
      k := |OffersIn(rest)|;
    } else {
      k := OfferIsListed(rest, s);
    }
  }

  /** Who joins, in order. */
  ghost function Joiners(script: seq<CommEvent>): seq<Conn> {
    if script == [] then []
    else
      var last := script[|script| - 1];
      Joiners(script[..|script| - 1]) + if last.Joins? then [last.conn] else []
  }

  /** Connections are new when they are announced. */
  ghost predicate NewConns(script: seq<CommEvent>, conns: seq<Conn>) {
    Different(conns + Joiners(script))
  }

  lemma {:induction false} JoinersAppend(a: seq<CommEvent>, b: seq<CommEvent>)
    ensures Joiners(a + b) == Joiners(a) + Joiners(b)
  {
    if b == [] {
      assert a + b == a;
    } else {
      JoinersAppend(a, b[..|b| - 1]);
      assert (a + b)[..|a + b| - 1] == a + b[..|b| - 1];
    }
  }

  /** Everything said is within the horizon, and the worlds are those of the finals so far. */
  ghost predicate Tracks(s: Desk, done: seq<CommEvent>, base: int) {
    && s.offered == LastFinal(done, base)
    && (forall f :: Said(done, f) ==> f <= s.horizon)
    && (forall e :: e in done && e.Final? ==>
      e.frame <= s.offered && e.frame in s.worlds && s.worlds[e.frame] == e.world)
  }

  ghost function After(s: Desk, e: CommEvent): Desk {
    match e
    case Joins(conn, id) => Greeted(s, conn, id)
    case Local(fb) => Passed(s, Handled(fb, true, 0))
    case FromRemote(fb, from) => Passed(s, Handled(fb, false, from))
    case Final(frame, world) => FrameOffered(s, frame, world)
  }

  lemma TracksNext(s: Desk, done: seq<CommEvent>, e: CommEvent, base: int)
    requires Tracks(s, done, base) && Orderly(done + [e], base)
    ensures Tracks(After(s, e), done + [e], base)
    ensures e.Final? ==> e.frame == s.offered + 1 && e.frame <= s.horizon
  {
    var es := done + [e];
    assert es[..|es| - 1] == done;
    forall f | Said(es, f) ensures f <= After(s, e).horizon {
      SaidMore(done, e, f);
    }
    assert forall x :: x in es <==> x in done || x == e;
  }

  lemma AfterSound(s: Desk, e: CommEvent)
    requires Sound(s) && (e.Joins? ==> e.conn !in s.conns)
    requires e.Final? ==> e.frame == s.offered + 1 && e.frame <= s.horizon
    ensures Sound(After(s, e))
  {
    match e
    case Joins(conn, id) => GreetedSound(s, conn, id);
    case Local(fb) => PassedSound(s, Handled(fb, true, 0));
    case FromRemote(fb, from) => PassedSound(s, Handled(fb, false, from));
    case Final(frame, world) => OfferedSound(s, frame, world);
  }

  lemma NextInScript(script: seq<CommEvent>, i: nat, conns: seq<Conn>, base: int)
    requires i < |script| && Orderly(script, base) && NewConns(script[i..], conns)
    ensures script[..i + 1] == script[..i] + [script[i]] && Orderly(script[..i] + [script[i]], base)
    ensures script[i].Joins? ==> script[i].conn !in conns
    ensures NewConns(script[i + 1..], ConnsAfter(conns, script[i]))
  {
    OrderlyPrefix(script, i + 1, base);
    assert script[..i + 1] == script[..i] + [script[i]];
    NewConnsNext(script[i..], conns);
    assert script[i..][1..] == script[i + 1..];
  }

  /** The select loop of the communicator over any run of a host. */
  method Serve(c: Communicator, script: seq<CommEvent>, ghost base: int)
    requires c.Valid() && Sound(c.State()) && c.offered == base && c.worlds == map[]
    requires Orderly(OfUpdater(script), base) && NewConns(script, c.conns)
    modifies c
    ensures c.Valid() && Sound(c.State()) && Tracks(c.State(), script, base)
  {
    InterleavingStaysOrderly(script, base);
    var i := 0;
    assert script[..i] == [];
    while i < |script|
      invariant i <= |script| && c.Valid() && Sound(c.State()) && Tracks(c.State(), script[..i], base)
      invariant NewConns(script[i..], c.conns)
    {
      NextInScript(script, i, c.conns, base);
      ServeOne(c, script[i], script[..i], base);
      i := i + 1;
    }
    assert script[..i] == script;
  }

  method ServeOne(c: Communicator, e: CommEvent, ghost done: seq<CommEvent>, ghost base: int)
    requires c.Valid() && Sound(c.State()) && Tracks(c.State(), done, base) && Orderly(done + [e], base)
    requires e.Joins? ==> e.conn !in c.conns
    modifies c
    ensures c.Valid() && Sound(c.State()) && Tracks(c.State(), done + [e], base)
    ensures c.conns == ConnsAfter(old(c.conns), e)
  {
    TracksNext(c.State(), done, e, base);
    AfterSound(c.State(), e);
    match e
    case Joins(conn, id) => c.NewConn(conn, id);
    case Local(fb) => c.Broadcast(fb);
    case FromRemote(fb, from) => c.FanIn(fb, from);
    case Final(frame, world) => c.BootstrapFrame(frame, world);
  }

  ghost function ConnsAfter(conns: seq<Conn>, e: CommEvent): seq<Conn> {
    if e.Joins? then conns + [e.conn] else conns
  }

  lemma NewConnsNext(script: seq<CommEvent>, conns: seq<Conn>)
    requires script != [] && NewConns(script, conns)
    ensures NewConns(script[1..], ConnsAfter(conns, script[0]))
    ensures script[0].Joins? ==> script[0].conn !in conns
  {
    var first := script[0];
    JoinersAppend([first], script[1..]);
    assert script == [first] + script[1..] && [first][..0] == [];
    assert conns + Joiners(script) == ConnsAfter(conns, first) + Joiners(script[1..]);
    if first.Joins? {
      assert (conns + Joiners(script))[|conns|] == first.conn;
      forall i | 0 <= i < |conns| ensures conns[i] != first.conn {
        assert (conns + Joiners(script))[i] == conns[i];
      }
    }
  }

  lemma {:induction false} OrderlyPrefix(es: seq<CommEvent>, k: nat, base: int)
    requires Orderly(es, base) && k <= |es|
    ensures Orderly(es[..k], base)
  {
    if k < |es| {
      var rest := es[..|es| - 1];
      OrderlyPrefix(rest, k, base);
      assert rest[..k] == es[..k];
    } else {
      assert es[..k] == es;
    }
  }

  /** A run of a host is in order, whatever comes in between, and its last final frame is the updater's start. */
  lemma ScriptIsOrderly(h: History, l: Ledger, table: Log, script: seq<CommEvent>)
    requires Recorded(h) && Balanced(h.origin, h.used, h.start, l) && IsHost(h, l, table)
    requires OfUpdater(script) == NotedAll(l.sent)
    ensures CanonicalOffers(l.sent, l.cells, h.origin, table, h.start)
    ensures Orderly(script, h.origin.frame) && LastFinal(script, h.origin.frame) == h.start
  {
    BooksOffer(h, l);
    HostSendsInOrder(h, l, table);
    InterleavingStaysOrderly(script, h.origin.frame);
  }

  /** The one bootstrap frame a joiner has been sent, if its start is final: that of its start. */
  ghost predicate Bootstrapped(s: Desk, conn: Conn, o: Origin, table: Log, start: int) {
    && conn in s.joiners && conn in s.data && s.data[conn] != [] && o.frame < s.joiners[conn].start
    && s.data[conn][0].Initial? && s.data[conn][0].horizon == s.joiners[conn].start
    && s.data[conn][1..] == if s.joiners[conn].start <= start
                            then [Boot(s.joiners[conn].start, Canonical(o, table, s.joiners[conn].start))] else []
  }

  lemma JoinerIsBootstrapped(sent: seq<Sent>, cells: Cells, o: Origin, table: Log, start: int, s: Desk,
                             script: seq<CommEvent>, conn: Conn)
    requires CanonicalOffers(sent, cells, o, table, start) && LastFinal(script, o.frame) == start
    requires OfUpdater(script) == NotedAll(sent) && Sound(s) && Tracks(s, script, o.frame)
    requires conn in s.joiners && o.frame <= s.initial
    ensures Bootstrapped(s, conn, o, table, start)
  {
    OneBootstrapFrame(s, conn);
    StartsLate(s, conn);
    if s.joiners[conn].start <= start {
      WorldOfStart(sent, cells, o, table, start, s, script, s.joiners[conn].start);
    }
  }

  /**
   * A host bootstraps its joiners: after any run of updater and communicator together, every joiner whose
   * start is final has been sent exactly one bootstrap frame, with the canonical world of its start.
   */
  lemma JoinersAreBootstrapped(h: History, l: Ledger, table: Log, s: Desk, script: seq<CommEvent>, conn: Conn)
    requires Recorded(h) && Balanced(h.origin, h.used, h.start, l) && IsHost(h, l, table)
    requires OfUpdater(script) == NotedAll(l.sent) && Sound(s) && Tracks(s, script, h.origin.frame)
    requires conn in s.joiners && h.origin.frame <= s.initial
    ensures Bootstrapped(s, conn, h.origin, table, h.start)
  {
    ScriptIsOrderly(h, l, table, script);
    JoinerIsBootstrapped(l.sent, l.cells, h.origin, table, h.start, s, script, conn);
  }

  /** The world kept for an offered frame is the canonical one. */
  lemma WorldOfStart(sent: seq<Sent>, cells: Cells, o: Origin, table: Log, start: int, s: Desk,
                     script: seq<CommEvent>, f: int)
    requires CanonicalOffers(sent, cells, o, table, start) && o.frame < f <= start
    requires OfUpdater(script) == NotedAll(sent) && Tracks(s, script, o.frame)
    ensures f in s.worlds && s.worlds[f] == Canonical(o, table, f)
  {
    var k := f - o.frame - 1;
    var offer := OffersIn(sent)[k];
    assert OfferedAs(offer, cells, o, table, f);
    OfferIsSent(sent, k);
    NotedIn(sent, offer);
    UpdaterEventsIn(script, Noted(offer));
  }

  /** The same of a host's updater and communicator as they stand between handlers. */
  lemma HostBootstrapsItsJoiners(u: Updater, c: Communicator, table: Log, script: seq<CommEvent>, conn: Conn)
    requires u.Valid() && IsHost(u.Hist(), u.Books(), table) && Sound(c.State())
    requires OfUpdater(script) == NotedAll(u.sent) && Tracks(c.State(), script, u.origin.frame)
    requires conn in c.joiners && u.origin.frame <= c.initial
    ensures Bootstrapped(c.State(), conn, u.origin, table, u.frames.line.first)
  {
    JoinersAreBootstrapped(u.Hist(), u.Books(), table, c.State(), script, conn);
  }

  lemma {:induction false} HorizonRises(hs: seq<Handled>, initial: int)
    ensures initial <= Horizon(hs, initial)
  {
    if hs != [] {
      HorizonRises(hs[..|hs| - 1], initial);
    }
  }

  lemma StartsLate(s: Desk, conn: Conn)
    requires Sound(s) && conn in s.joiners
    ensures s.initial < s.joiners[conn].start
  {
    assert JoiningAt(s, conn);
    HorizonRises(s.handled[..s.since[conn]], s.initial);
  }

  lemma {:induction false} OfferIsSent(sent: seq<Sent>, k: nat)
    requires k < |OffersIn(sent)|
    ensures OffersIn(sent)[k] in sent
  {
    var rest := sent[..|sent| - 1];
    if k < |OffersIn(rest)| {
      OfferIsSent(rest, k);
      assert OffersIn(sent)[k] == OffersIn(rest)[k];
    }
  }

  lemma {:induction false} NotedIn(sent: seq<Sent>, s: Sent)
    requires s in sent
    ensures Noted(s) in NotedAll(sent)
  {
    var rest, last := sent[..|sent| - 1], sent[|sent| - 1];
    assert sent == rest + [last];
    if s in rest {
      NotedIn(rest, s);
    }
  }

  lemma {:induction false} UpdaterEventsIn(script: seq<CommEvent>, e: CommEvent)
    requires e in OfUpdater(script)
    ensures e in script
  {
    var rest, last := script[..|script| - 1], script[|script| - 1];
    assert script == rest + [last];
    if e in OfUpdater(rest) {
      UpdaterEventsIn(rest, e);
    }
  }

  // ----- the joiner's record

  lemma MergeAboveLast(fbs: seq<FrameBundle>, start: int)
    requires fbs != []
    ensures var before, last := MergeAll(map[], Above(fbs[..|fbs| - 1], start)), fbs[|fbs| - 1];
      MergeAll(map[], Above(fbs, start)) == if start < last.frame then Merge(before, last) else before
  {
    var above, last := Above(fbs[..|fbs| - 1], start), fbs[|fbs| - 1];
    if start < last.frame {
      assert Above(fbs, start) == above + [last];
      assert (above + [last])[..|above|] == above;
    } else {
      assert Above(fbs, start) == above + [] == above;
    }
  }

  /** What an updater records of what it is given at first is what lies above its start. */
  lemma {:induction false} RecordsAbove(o: Origin, fbs: seq<FrameBundle>)
    ensures DeliverAll(Unplayed(o), fbs).used == MergeAll(map[], Above(fbs, o.frame))
  {
    if fbs != [] {
      var rest, last := fbs[..|fbs| - 1], fbs[|fbs| - 1];
      RecordsAbove(o, rest);
      MergeAboveLast(fbs, o.frame);
    }
  }

  lemma {:induction false} TimesAbove(fbs: seq<FrameBundle>, start: int, f: int, id: EngineId)
    ensures Times(Above(fbs, start), f, id) == if start < f then Times(fbs, f, id) else 0
  {
    if fbs != [] {
      var rest, last := fbs[..|fbs| - 1], fbs[|fbs| - 1];
      TimesAbove(rest, start, f, id);
      var above := Above(rest, start);
      assert (above + [last])[..|above|] == above && above + [] == above;
    }
  }

  lemma OnceAbove(fbs: seq<FrameBundle>, start: int)
    requires OncePerEngine(fbs)
    ensures OncePerEngine(Above(fbs, start))
  {
    OnceByCount(fbs);
    OnceByCount(Above(fbs, start));
    forall f, id ensures OnceAt(Above(fbs, start), f, id) {
      assert OnceAt(fbs, f, id);
      TimesAbove(fbs, start, f, id);
    }
  }

  /** What lies at or below a frame has no part in the frames above it. */
  lemma {:induction false} MergeAbove(fbs: seq<FrameBundle>, start: int, f: int)
    requires start < f
    ensures At(MergeAll(map[], fbs), f) == At(MergeAll(map[], Above(fbs, start)), f)
  {
    if fbs != [] {
      var rest, last := fbs[..|fbs| - 1], fbs[|fbs| - 1];
      MergeAbove(rest, start, f);
      MergeAboveLast(fbs, start);
    }
  }

  /** Two schedules with the same bundles above a frame record the same above it. */
  lemma SameAboveSameRecord(a: seq<FrameBundle>, b: seq<FrameBundle>, start: int, f: int)
    requires start < f && OncePerEngine(b)
    requires multiset(Above(a, start)) == multiset(Above(b, start))
    ensures At(MergeAll(map[], a), f) == At(MergeAll(map[], Above(b, start)), f)
  {
    var a', b' := Above(a, start), Above(b, start);
    MergeAbove(a, start, f);
    OnceAbove(b, start);
    OncePermuted(b', a');
    forall fb ensures fb in a' <==> fb in b' {
      assert fb in multiset(a') <==> fb in multiset(b');
    }
    OrderLeavesNoTrace(a', b');
  }

  /** What a joiner is given with its own bundles has the same bundles above its start as what the host handled. */
  lemma GivenWithOwn(s: Desk, c: Conn, incoming: seq<Incoming>, taken: nat, own: seq<FrameBundle>,
                     all: seq<FrameBundle>)
    requires Sound(s) && c in s.joiners && taken <= |incoming|
    requires c in s.bundles && multiset(BundlesIn(incoming)) == multiset(s.bundles[c])
    requires var start := s.joiners[c].start;
      multiset(all) == multiset(Collected(incoming, taken, start) + BundlesIn(incoming[taken..]) + own)
    ensures var start := s.joiners[c].start;
      multiset(Above(all, start)) == multiset(Above(Meant(s.handled, c) + own, start))
  {
    var start := s.joiners[c].start;
    var given := Collected(incoming, taken, start) + BundlesIn(incoming[taken..]);
    AbovePermuted(all, given + own, start);
    AboveAppend(given, own, start);
    AboveAppend(Meant(s.handled, c), own, start);
    JoinerIsGivenEverything(s, c, incoming, taken);
  }

  /**
   * From registration to record: however its bundles arrive, before or after the bootstrap frame, and over
   * whatever handlers, for every frame above its start a joiner's updater has been handed exactly what its host's
   * communicator ever handled, but for its own, and its own. For the frames that are not final it has all of it
   * in its window.
   */
  lemma JoinerRecordsEverything(s: Desk, c: Conn, incoming: seq<Incoming>, taken: nat, own: seq<FrameBundle>, r: Run,
                                f: int)
    requires Sound(s) && c in s.joiners && taken <= |incoming|
    requires c in s.bundles && multiset(BundlesIn(incoming)) == multiset(s.bundles[c])
    requires OncePerEngine(Meant(s.handled, c) + own)
    requires r.Valid() && r.origin.frame == s.joiners[c].start < f
    requires multiset(r.Schedule())
          == multiset(Collected(incoming, taken, r.origin.frame) + BundlesIn(incoming[taken..]) + own)
    ensures At(r.Last().delivered, f) == At(MergeAll(map[], Above(Meant(s.handled, c) + own, r.origin.frame)), f)
    ensures r.Last().start < f ==> At(r.Last().used, f) == At(r.Last().delivered, f)
  {
    RunSettles(r, |r.groups|);
    assert r.groups[..|r.groups|] == r.groups;
    GivenWithOwn(s, c, incoming, taken, own, r.Schedule());
    SameAboveSameRecord(r.Schedule(), Meant(s.handled, c) + own, r.origin.frame, f);
    if r.Last().start < f {
      SpeculativeFrame(r.Last(), f);
    }
  }

  /** The communicator handled a bundle for frame `f`, not from that connection, with these events. */
  ghost predicate HandledWith(hs: seq<Handled>, c: Conn, f: int, k: EngineId, e: AllEvents) {
    exists h :: h in hs && h.fb.frame == f && (h.local || h.from != c) && k in h.fb.bundle && h.fb.bundle[k] == e
  }

  lemma {:induction false} MeantSupplies(hs: seq<Handled>, c: Conn, f: int, k: EngineId, e: AllEvents)
    ensures Supplies(Meant(hs, c), f, k, e) <==> HandledWith(hs, c, f, k, e)
  {
    if hs != [] {
      var rest, last := hs[..|hs| - 1], hs[|hs| - 1];
      assert hs == rest + [last];
      MeantSupplies(rest, c, f, k, e);
      if last.local || last.from != c {
        SuppliesMore(Meant(rest, c), last.fb, f, k, e);
      } else {
        assert Meant(hs, c) == Meant(rest, c) + [] == Meant(rest, c);
      }
    }
  }

  /** The same entry by entry: a joiner's updater has one exactly if its host handled it, or it is its own. */
  lemma JoinerHoldsExactly(s: Desk, c: Conn, incoming: seq<Incoming>, taken: nat, own: seq<FrameBundle>, r: Run,
                           f: int, k: EngineId, e: AllEvents)
    requires Sound(s) && c in s.joiners && taken <= |incoming|
    requires c in s.bundles && multiset(BundlesIn(incoming)) == multiset(s.bundles[c])
    requires OncePerEngine(Meant(s.handled, c) + own)
    requires r.Valid() && r.origin.frame == s.joiners[c].start < f
    requires multiset(r.Schedule())
          == multiset(Collected(incoming, taken, r.origin.frame) + BundlesIn(incoming[taken..]) + own)
    ensures Holds(At(r.Last().delivered, f), k, e) <==> HandledWith(s.handled, c, f, k, e) || Supplies(own, f, k, e)
  {
    var all := Meant(s.handled, c) + own;
    JoinerRecordsEverything(s, c, incoming, taken, own, r, f);
    MergeAbove(all, r.origin.frame, f);
    MergeAllHolds(all, f);
    MeantSupplies(s.handled, c, f, k, e);
    assert forall fb :: fb in all <==> fb in Meant(s.handled, c) || fb in own;
  }
}
