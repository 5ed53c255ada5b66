/** A host from its start: both objects constructed, and run over any inputs, arrivals and connections. */
module HostRuns {
  import opened Membership
  import opened Bundles
  import opened Replay
  import opened Agreement
  import opened Games
  import opened FrameStores
  import opened Outbox
  import opened Updaters
  import opened UpdaterRuns
  import opened Runs
  import opened Communicators
  import opened Hosting
  import opened Driving

  // ----- arrivals and new connections between the sends of an updater

  function Between(arrivals: seq<seq<CommEvent>>, k: nat): seq<CommEvent> {
    if k < |arrivals| then arrivals[k] else []
  }

  /** The sends in order, with the k-th arrivals before the k-th of them. */
  function Woven(sends: seq<CommEvent>, arrivals: seq<seq<CommEvent>>): seq<CommEvent> {
    if sends == [] then Between(arrivals, 0)
    else Woven(sends[..|sends| - 1], arrivals) + [sends[|sends| - 1]] + Between(arrivals, |sends|)
  }

  ghost function Flat(arrivals: seq<seq<CommEvent>>): seq<CommEvent> {
    if arrivals == [] then [] else Flat(arrivals[..|arrivals| - 1]) + arrivals[|arrivals| - 1]
  }

  ghost predicate FromOutside(es: seq<CommEvent>) {
    forall e :: e in es ==> e.Joins? || e.FromRemote?
  }

  lemma {:induction false} OutsideIsNotUpdater(es: seq<CommEvent>)
    requires FromOutside(es)
    ensures OfUpdater(es) == []
  {
    if es != [] {
      var rest, last := es[..|es| - 1], es[|es| - 1];
      assert es == rest + [last] && last in es;
      OutsideIsNotUpdater(rest);
    }
  }

  lemma {:induction false} OfUpdaterAppend(a: seq<CommEvent>, b: seq<CommEvent>)
    ensures OfUpdater(a + b) == OfUpdater(a) + OfUpdater(b)
  {
    if b == [] {
      assert a + b == a;
    } else {
      OfUpdaterAppend(a, b[..|b| - 1]);
      assert (a + b)[..|a + b| - 1] == a + b[..|b| - 1];
    }
  }

  lemma {:induction false} WovenSends(sends: seq<CommEvent>, arrivals: seq<seq<CommEvent>>)
    requires forall e :: e in sends ==> e.Local? || e.Final?
    requires forall es :: es in arrivals ==> FromOutside(es)
    ensures OfUpdater(Woven(sends, arrivals)) == sends
  {
    var more := Between(arrivals, |sends|);
    OutsideIsNotUpdater(more);
    if sends == [] {
      assert Woven(sends, arrivals) == more;
    } else {
      var rest, last := sends[..|sends| - 1], sends[|sends| - 1];
      assert sends == rest + [last] && last in sends;
      WovenSends(rest, arrivals);
      var woven := Woven(rest, arrivals) + [last];
      OfUpdaterAppend(woven, more);
      assert woven[..|woven| - 1] == Woven(rest, arrivals);
      assert OfUpdater(woven) == rest + [last];
      assert OfUpdater(woven + more) == OfUpdater(woven) + [];
    }
  }

  ghost function UpTo(arrivals: seq<seq<CommEvent>>, k: nat): seq<seq<CommEvent>> {
    if k <= |arrivals| then arrivals[..k] else arrivals
  }

  lemma {:induction false} WovenJoins(sends: seq<CommEvent>, arrivals: seq<seq<CommEvent>>)
    requires forall e :: e in sends ==> e.Local? || e.Final?
    ensures Joiners(Woven(sends, arrivals)) == Joiners(Flat(UpTo(arrivals, |sends| + 1)))
  {
    var n := |sends|;
    FlatNext(arrivals, n);
    if n == 0 {
      assert Flat(UpTo(arrivals, 0)) == [] && [] + Between(arrivals, 0) == Between(arrivals, 0);
    } else {
      var rest, last := sends[..n - 1], sends[n - 1];
      assert last in sends;
      WovenJoins(rest, arrivals);
      var woven := Woven(rest, arrivals) + [last];
      JoinersAppend(woven, Between(arrivals, n));
      JoinersAppend(Flat(UpTo(arrivals, n)), Between(arrivals, n));
      assert woven[..|woven| - 1] == Woven(rest, arrivals);
      assert Joiners(woven) == Joiners(Woven(rest, arrivals)) + [];
    }
  }

  lemma FlatNext(arrivals: seq<seq<CommEvent>>, k: nat)
    ensures Flat(UpTo(arrivals, k + 1)) == Flat(UpTo(arrivals, k)) + Between(arrivals, k)
  {
    if k < |arrivals| {
      assert arrivals[..k + 1][..k] == arrivals[..k];
    } else if k == |arrivals| {
      assert arrivals[..k] == arrivals;
    }
  }

  lemma {:induction false} JoinersPrefix(arrivals: seq<seq<CommEvent>>, k: nat)
    requires k <= |arrivals|
    ensures Joiners(Flat(arrivals[..k])) <= Joiners(Flat(arrivals))
    decreases |arrivals| - k
  {
    if k < |arrivals| {
      JoinersPrefix(arrivals, k + 1);
      assert arrivals[..k + 1][..k] == arrivals[..k];
      JoinersAppend(Flat(arrivals[..k]), arrivals[k]);
    } else {
      assert arrivals[..k] == arrivals;
    }
  }

  /** Connections that are new in the arrivals are so however these are woven in. */
  lemma WovenIsNew(sends: seq<CommEvent>, arrivals: seq<seq<CommEvent>>)
    requires forall e :: e in sends ==> e.Local? || e.Final?
    requires NewConns(Flat(arrivals), [])
    ensures NewConns(Woven(sends, arrivals), [])
  {
    WovenJoins(sends, arrivals);
    if |sends| < |arrivals| {
      JoinersPrefix(arrivals, |sends| + 1);
    }
    assert [] + Joiners(Flat(arrivals)) == Joiners(Flat(arrivals));
    assert [] + Joiners(Woven(sends, arrivals)) == Joiners(Woven(sends, arrivals));
  }

  lemma {:induction false} NotedSends(sent: seq<Sent>)
    ensures forall e :: e in NotedAll(sent) ==> e.Local? || e.Final?
  {
    if sent != [] {
      NotedSends(sent[..|sent| - 1]);
    }
  }

  // ----- a host's game

  ghost predicate AllFrom(inputs: seq<Input>, table: Log) {
    FromTable(Concat(AllGiven(inputs)), table)
  }

  /** What a driven updater was handed all comes from the table its inputs come from. */
  lemma DrivenWithin(p: Phase, inputs: seq<Input>, groups: seq<seq<FrameBundle>>, states: seq<History>, p': Phase,
                     table: Log)
    requires Driven(p, inputs, groups, states, p') && p.skip == 0 && AllFrom(inputs, table)
    requires p.h == Unplayed(p.h.origin)
    ensures p'.h.origin == p.h.origin && Within(p'.h.delivered, table)
  {
    RunSettles(Run(p.h.origin, groups, states), |groups|);
    assert groups[..|groups|] == groups;
    MergeWithin(Concat(groups), table);
  }

  ghost function HostOrigin(rules: Rules, frame: int, data: FrameData): Origin
    requires data.game != null
    reads data.game, data.info.engines
  {
    Origin(rules, frame, World(Members(data.info), data.game.state), false)
  }

  /** A host's updater from its start. */
  method HostUpdater(rules: Rules, id: EngineId, maxFrames: nat, frame: int, data: FrameData, inputs: seq<Input>,
                     ghost table: Log)
    returns (u: Updater)
    requires 1 <= maxFrames && data.game != null && id in Members(data.info)
    requires HostOnly(table, id) && AllFrom(inputs, table)
    requires Feasible(Phase(Unplayed(HostOrigin(rules, frame, data)), frame, 0), id, maxFrames + 1, inputs)
    modifies Objects(data.bundle), Objects(data.info.engines)
    ensures fresh(u) && u.Valid() && IsHost(u.Hist(), u.Books(), table)
    ensures u.origin == old(HostOrigin(rules, frame, data))
    ensures u.asked == Asked(inputs)
    ensures RequestsApart(inputs, []) ==> Prompt(u.finalRequests, u.frames.line.first)
  {
    u := new Updater.Start(rules, id, maxFrames, true, frame, data);
    ghost var p, l := PhaseOf(u), u.Books();
    var ok;
    ghost var t;
    ok, t := Drive(u, inputs);
    HostDriven(p, l, inputs, t, u.Books(), table);
  }

  /** What its run makes of a host that was just started. */
  lemma HostDriven(p: Phase, l: Ledger, inputs: seq<Input>, t: Trace, l': Ledger, table: Log)
    requires Tells(t, p, inputs) && t.done == |inputs| && Heard(l, p.h.start, inputs, l', t.p.h.start)
    requires p.skip == 0 && AllFrom(inputs, table) && p.h == Unplayed(p.h.origin)
    requires l.asked == multiset{} && l.pending == []
    ensures t.p.h.origin == p.h.origin && l'.id == l.id
    ensures Within(t.p.h.delivered, table) && l'.asked == Asked(inputs)
    ensures RequestsApart(inputs, []) ==> Prompt(l'.pending, t.p.h.start)
  {
    assert inputs[..t.done] == inputs;
    DrivenWithin(p, inputs, t.groups, t.states, t.p, table);
  }

  /** A host's communicator, fed with what its updater sends and what comes in between. */
  method HostDesk(sent: seq<Sent>, frame: int, arrivals: seq<seq<CommEvent>>) returns (c: Communicator)
    requires Orderly(NotedAll(sent), frame)
    requires (forall es :: es in arrivals ==> FromOutside(es)) && NewConns(Flat(arrivals), [])
    ensures fresh(c) && Sound(c.State()) && c.initial == frame
    ensures OfUpdater(Woven(NotedAll(sent), arrivals)) == NotedAll(sent)
    ensures Tracks(c.State(), Woven(NotedAll(sent), arrivals), frame)
  {
    var script := Woven(NotedAll(sent), arrivals);
    NotedSends(sent);
    WovenSends(NotedAll(sent), arrivals);
    WovenIsNew(NotedAll(sent), arrivals);
    c := new Communicator([], frame, frame);
    Serve(c, script, frame);
  }

  /** What a host has sent is in order. */
  lemma HostIsOrderly(h: History, l: Ledger, table: Log)
    requires Recorded(h) && Balanced(h.origin, h.used, h.start, l) && IsHost(h, l, table)
    ensures Orderly(NotedAll(l.sent), h.origin.frame)
  {
    BooksOffer(h, l);
    HostSendsInOrder(h, l, table);
  }

  /**
   * A host's game: however its inputs come, and whatever arrives and connects in between, every joiner whose
   * start is final has its one bootstrap frame, with the canonical world.
   */
  method HostGame(rules: Rules, id: EngineId, maxFrames: nat, frame: int, data: FrameData, inputs: seq<Input>,
                  arrivals: seq<seq<CommEvent>>, ghost table: Log)
    returns (u: Updater, c: Communicator)
    requires 1 <= maxFrames && data.game != null && id in Members(data.info)
    requires HostOnly(table, id) && AllFrom(inputs, table)
    requires Feasible(Phase(Unplayed(HostOrigin(rules, frame, data)), frame, 0), id, maxFrames + 1, inputs)
    requires (forall es :: es in arrivals ==> FromOutside(es)) && NewConns(Flat(arrivals), [])
    modifies Objects(data.bundle), Objects(data.info.engines)
    ensures fresh(u) && u.Valid() && fresh(c) && Sound(c.State())
    ensures u.origin == old(HostOrigin(rules, frame, data))
    ensures forall conn :: conn in c.joiners ==>
      Bootstrapped(c.State(), conn, u.origin, table, u.frames.line.first)
  {
    u := HostUpdater(rules, id, maxFrames, frame, data, inputs, table);
    c := DeskOf(u, frame, arrivals, table);
  }

  /** The communicator of a host whose updater has run. */
  method DeskOf(u: Updater, frame: int, arrivals: seq<seq<CommEvent>>, ghost table: Log)
    returns (c: Communicator)
    requires frame == u.origin.frame && u.Valid() && IsHost(u.Hist(), u.Books(), table)
    requires (forall es :: es in arrivals ==> FromOutside(es)) && NewConns(Flat(arrivals), [])
    ensures u.Valid() && fresh(c) && Sound(c.State())
    ensures forall conn :: conn in c.joiners ==>
      Bootstrapped(c.State(), conn, u.origin, table, u.frames.line.first)
  {
    HostIsOrderly(u.Hist(), u.Books(), table);
    c := HostDesk(u.sent, frame, arrivals);
    HostBootstrapsAll(u, c, table, Woven(NotedAll(u.sent), arrivals));
  }

  lemma HostBootstrapsAll(u: Updater, c: Communicator, table: Log, script: seq<CommEvent>)
    requires u.Valid() && IsHost(u.Hist(), u.Books(), table) && Sound(c.State())
    requires OfUpdater(script) == NotedAll(u.sent) && Tracks(c.State(), script, u.origin.frame)
    requires u.origin.frame <= c.initial
    ensures forall conn :: conn in c.joiners ==>
      Bootstrapped(c.State(), conn, u.origin, table, u.frames.line.first)
  {
    forall conn | conn in c.joiners
      ensures Bootstrapped(c.State(), conn, u.origin, table, u.frames.line.first)
    {
      HostBootstrapsItsJoiners(u, c, table, script, conn);
    }
  }
}
