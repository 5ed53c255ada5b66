/** Connections, forwarding and the hand-off to joiners: core/communicator.go. */
module Communicators {
  import opened Membership
  import opened Bundles
  import opened Replay
  import opened Sweep

  type Conn = int

  /** What `SendData` carries: the frame and id a joiner will have, and later the frame it starts from. */
  datatype Data = Initial(horizon: int, id: EngineId) | Boot(frame: int, world: World)

  /** A bundle the communicator took in: from its own updater, or from a connection. */
  datatype Handled = Handled(fb: FrameBundle, local: bool, from: Conn)

  ghost predicate MeantFor(h: Handled, conn: Conn) {
    h.local || h.from != conn
  }

  /** The bundles a connection that is there for all of `hs` must be sent. */
  ghost function Meant(hs: seq<Handled>, conn: Conn): seq<FrameBundle> {
    if hs == [] then []
    else Meant(hs[..|hs| - 1], conn) + if MeantFor(hs[|hs| - 1], conn) then [hs[|hs| - 1].fb] else []
  }

  ghost function Horizon(hs: seq<Handled>, initial: int): int {
    if hs == [] then initial
    else var h := Horizon(hs[..|hs| - 1], initial); if h < hs[|hs| - 1].fb.frame then hs[|hs| - 1].fb.frame else h
  }

  ghost function Above(fbs: seq<FrameBundle>, f: int): seq<FrameBundle> {
    if fbs == [] then []
    else Above(fbs[..|fbs| - 1], f) + if f < fbs[|fbs| - 1].frame then [fbs[|fbs| - 1]] else []
  }

  ghost predicate NoRepeats(ws: seq<Waiter>) {
    forall i, j :: 0 <= i < j < |ws| ==> ws[i].who != ws[j].who
  }

  ghost predicate Different(conns: seq<Conn>) {
    forall i, j :: 0 <= i < j < |conns| ==> conns[i] != conns[j]
  }

  /** A joiner: the frame it starts on, and how much had been handled when it was registered. */
  datatype Registration = Registration(start: int, since: nat)

  /**
   * The communicator's state, with its history: what it handled, how much of that before each connection was
   * there, who joined, and the newest frame offered to it with the worlds of all of them.
   */
  datatype Desk = Desk(horizon: int, conns: seq<Conn>, bootstraps: seq<Waiter>, data: map<Conn, seq<Data>>,
                       bundles: map<Conn, seq<FrameBundle>>, initial: int, handled: seq<Handled>,
                       since: map<Conn, nat>, joiners: map<Conn, Registration>, offered: int, worlds: map<int, World>)

  /** What the loops over connections need: every connection has its logs, and no joiner waits twice. */
  ghost predicate Formed(s: Desk) {
    && Different(s.conns) && NoRepeats(s.bootstraps)
    && (forall c :: c in s.conns ==> KnownAt(s, c))
    && (forall w :: w in s.bootstraps ==> KnownAt(s, w.who))
  }

  ghost predicate KnownAt(s: Desk, c: Conn) {
    c in s.conns && c in s.since && c in s.bundles && c in s.data
  }

  /** What a host's communicator promises its joiners. */
  ghost predicate Sound(s: Desk) {
    && Formed(s) && s.horizon == Horizon(s.handled, s.initial) && s.offered <= s.horizon
    && (forall c :: c in s.conns ==> ServedAt(s, c))
    && (forall c :: c in s.joiners ==> JoiningAt(s, c))
    && (forall w :: w in s.bootstraps ==> WaitingAt(s, w))
  }

  /** A connection has been sent everything handled since it is there, but for what came from it. */
  ghost predicate ServedAt(s: Desk, c: Conn) {
    KnownAt(s, c) && s.since[c] <= |s.handled| && s.bundles[c] == Meant(s.handled[s.since[c]..], c)
  }

  /** A joiner was told its start, and has its one bootstrap frame iff that frame has been offered. */
  ghost predicate JoiningAt(s: Desk, c: Conn) {
    && c in s.joiners && KnownAt(s, c) && s.joiners[c].since == s.since[c] <= |s.handled|
    && s.joiners[c].start == Horizon(s.handled[..s.since[c]], s.initial) + 1
    && |s.data[c]| >= 1 && s.data[c][0].Initial? && s.data[c][0].horizon == s.joiners[c].start
    && (if s.joiners[c].start <= s.offered
        then s.joiners[c].start in s.worlds
          && s.data[c][1..] == [Boot(s.joiners[c].start, s.worlds[s.joiners[c].start])]
        else |s.data[c]| == 1 && Waiter(c, s.joiners[c].start) in s.bootstraps)
  }

  /** Every entry of the list is a joiner's, also one that was left behind. */
  ghost predicate WaitingAt(s: Desk, w: Waiter) {
    w.who in s.joiners && w.frame == s.joiners[w.who].start && KnownAt(s, w.who)
  }

  // ----- the select cases as steps

  ghost function Greeted(s: Desk, conn: Conn, id: EngineId): Desk {
    s.(conns := s.conns + [conn],
       bootstraps := s.bootstraps + [Waiter(conn, s.horizon + 1)],
       data := s.data[conn := [Initial(s.horizon + 1, id)]],
       bundles := s.bundles[conn := []],
       since := s.since[conn := |s.handled|],
       joiners := s.joiners[conn := Registration(s.horizon + 1, |s.handled|)])
  }

  ghost function SentTo(s: Desk, h: Handled, conns: seq<Conn>): map<Conn, seq<FrameBundle>> {
    map c | c in s.bundles :: s.bundles[c] + if c in conns && MeantFor(h, c) then [h.fb] else []
  }

  ghost function Passed(s: Desk, h: Handled): Desk {
    s.(horizon := if s.horizon < h.fb.frame then h.fb.frame else s.horizon,
       bundles := SentTo(s, h, s.conns), handled := s.handled + [h])
  }

  ghost function Handed(s: Desk, frame: int, world: World, ws: seq<Waiter>): map<Conn, seq<Data>> {
    map c | c in s.data :: s.data[c] + if Waiter(c, frame) in ws then [Boot(frame, world)] else []
  }

  ghost function FrameOffered(s: Desk, frame: int, world: World): Desk {
    s.(data := Handed(s, frame, world, s.bootstraps), bootstraps := Swept(s.bootstraps, frame, 0).1,
       offered := frame, worlds := s.worlds[frame := world])
  }

  lemma HorizonPrefix(hs: seq<Handled>, h: Handled, k: nat, initial: int)
    requires k <= |hs|
    ensures (hs + [h])[..k] == hs[..k]
    ensures (hs + [h])[k..] == hs[k..] + [h]
    ensures Horizon(hs + [h], initial) == if Horizon(hs, initial) < h.fb.frame then h.fb.frame else Horizon(hs, initial)
  {
    assert (hs + [h])[..|hs|] == hs;
  }

  lemma MeantSnoc(hs: seq<Handled>, h: Handled, c: Conn)
    ensures Meant(hs + [h], c) == Meant(hs, c) + if MeantFor(h, c) then [h.fb] else []
  {
    assert (hs + [h])[..|hs|] == hs;
  }

  lemma GreetedFormed(s: Desk, conn: Conn, id: EngineId)
    requires Formed(s) && conn !in s.conns
    ensures Formed(Greeted(s, conn, id))
  {
    var s' := Greeted(s, conn, id);
    forall c | c in s'.conns ensures KnownAt(s', c) {
      assert c != conn ==> KnownAt(s, c);
    }
    forall w | w in s'.bootstraps ensures KnownAt(s', w.who) {
      assert w in s.bootstraps ==> KnownAt(s, w.who);
    }
    forall i | 0 <= i < |s.bootstraps| ensures s.bootstraps[i].who != conn {
      assert KnownAt(s, s.bootstraps[i].who);
    }
  }

  lemma PassedFormed(s: Desk, h: Handled)
    requires Formed(s)
    ensures Formed(Passed(s, h))
  {
    var s' := Passed(s, h);
    forall c | c in s'.conns ensures KnownAt(s', c) {
      assert KnownAt(s, c);
    }
    forall w | w in s'.bootstraps ensures KnownAt(s', w.who) {
      assert KnownAt(s, w.who);
    }
  }

  lemma OfferedFormed(s: Desk, frame: int, world: World)
    requires Formed(s)
    ensures Formed(FrameOffered(s, frame, world))
  {
    var s' := FrameOffered(s, frame, world);
    SweptNoRepeats(s.bootstraps, frame, 0);
    forall c | c in s'.conns ensures KnownAt(s', c) {
      assert KnownAt(s, c);
    }
    forall w | w in s'.bootstraps ensures KnownAt(s', w.who) {
      LeftWasThere(s.bootstraps, frame, w);
      assert KnownAt(s, w.who);
    }
  }

  lemma GreetedSound(s: Desk, conn: Conn, id: EngineId)
    requires Sound(s) && conn !in s.conns
    ensures Sound(Greeted(s, conn, id))
  {
    var s' := Greeted(s, conn, id);
    GreetedFormed(s, conn, id);
    assert s.handled[..|s.handled|] == s.handled && s.handled[|s.handled|..] == [];
    forall c | c in s'.conns ensures ServedAt(s', c) {
      assert c != conn ==> ServedAt(s, c);
    }
    forall w | w in s'.bootstraps ensures WaitingAt(s', w) {
      assert w in s.bootstraps ==> WaitingAt(s, w);
    }
    forall c | c in s'.joiners ensures JoiningAt(s', c) {
      if c == conn {
        assert s'.bootstraps[|s.bootstraps|] == Waiter(conn, s.horizon + 1);
      } else {
        assert JoiningAt(s, c);
        assert forall w :: w in s.bootstraps ==> w in s'.bootstraps;
      }
    }
  }

  lemma PassedSound(s: Desk, h: Handled)
    requires Sound(s)
    ensures Sound(Passed(s, h))
  {
    var s' := Passed(s, h);
    PassedFormed(s, h);
    HorizonPrefix(s.handled, h, |s.handled|, s.initial);
    forall c | c in s'.conns ensures ServedAt(s', c) {
      assert ServedAt(s, c);
      HorizonPrefix(s.handled, h, s.since[c], s.initial);
      MeantSnoc(s.handled[s.since[c]..], h, c);
    }
    forall c | c in s'.joiners ensures JoiningAt(s', c) {
      assert JoiningAt(s, c);
      HorizonPrefix(s.handled, h, s.since[c], s.initial);
    }
    forall w | w in s'.bootstraps ensures WaitingAt(s', w) {
      assert WaitingAt(s, w);
    }
  }

  lemma {:induction false} SweptNoRepeats(ws: seq<Waiter>, frame: int, i: nat)
    requires i <= |ws| + 1 && NoRepeats(ws)
    ensures NoRepeats(Swept(ws, frame, i).1)
    decreases |ws| + 1 - i
  {
    if i < |ws| {
      if ws[i].frame == frame {
        SweptNoRepeats(SwapRemoved(ws, i), frame, i + 1);
      } else {
        SweptNoRepeats(ws, frame, i + 1);
      }
    }
  }

  /**
   * Offering the next frame, when no bundle beyond its reach is missing: each joiner that starts on it gets
   * it, once, also if the list still has an entry that an earlier pass left behind.
   */
  lemma OfferedSound(s: Desk, frame: int, world: World)
    requires Sound(s) && frame == s.offered + 1 && frame <= s.horizon
    ensures Sound(FrameOffered(s, frame, world))
  {
    var s' := FrameOffered(s, frame, world);
    OfferedFormed(s, frame, world);
    forall w | w in s'.bootstraps ensures WaitingAt(s', w) {
      LeftWasThere(s.bootstraps, frame, w);
      assert WaitingAt(s, w);
    }
    forall c | c in s'.conns ensures ServedAt(s', c) {
      assert ServedAt(s, c);
    }
    forall c | c in s'.joiners ensures JoiningAt(s', c) {
      assert JoiningAt(s, c);
      var start := s.joiners[c].start;
      if Waiter(c, frame) in s.bootstraps {
        assert WaitingAt(s, Waiter(c, frame));
      }
      if start > frame {
        OthersStay(s.bootstraps, frame, Waiter(c, start));
      }
      if start <= s.offered {
        assert s'.data[c] == s.data[c] + [];
      }
    }
  }

  // ----- the same in plain terms

  /** A bundle goes to every connection, but not back to where it came from. */
  lemma PassedPlainly(s: Desk, h: Handled)
    requires Formed(s)
    ensures var s' := Passed(s, h);
      && (forall c :: c in s.conns ==>
            && c in s.bundles && c in s'.bundles
            && s'.bundles[c] == if !h.local && c == h.from then s.bundles[c] else s.bundles[c] + [h.fb])
      && (forall c :: c in s.bundles && c !in s.conns ==> c in s'.bundles && s'.bundles[c] == s.bundles[c])
  {
    var s' := Passed(s, h);
    forall c | c in s.bundles ensures s.bundles[c] + [] == s.bundles[c] {}
    forall c | c in s.conns ensures c in s.bundles {
      assert KnownAt(s, c);
    }
  }

  lemma OfferedPlainly(s: Desk, frame: int, world: World)
    ensures var s' := FrameOffered(s, frame, world);
      && (forall c :: c in s.data ==>
            && c in s'.data
            && s'.data[c] == if Waiter(c, frame) in s.bootstraps then s.data[c] + [Boot(frame, world)] else s.data[c])
      && (forall w :: multiset(s'.bootstraps)[w] <= multiset(s.bootstraps)[w])
      && (forall w: Waiter :: w.frame != frame ==> multiset(s'.bootstraps)[w] == multiset(s.bootstraps)[w])
      && ((exists w :: w in s.bootstraps && w.frame == frame) ==> |s'.bootstraps| < |s.bootstraps|)
  {
    var (served, left) := Swept(s.bootstraps, frame, 0);
    SweepConserves(s.bootstraps, frame, 0);
    SweptWaited(s.bootstraps, frame, 0);
    forall w: Waiter | w.frame != frame ensures multiset(served)[w] == 0 {
      assert w !in served;
    }
    forall c | c in s.data ensures s.data[c] + [] == s.data[c] {}
    if w :| w in s.bootstraps && w.frame == frame {
      SomeoneIsServed(s.bootstraps, frame, 0, w);
      SweptShorter(s.bootstraps, frame, 0);
    }
  }

  lemma {:induction false} SomeoneIsServed(ws: seq<Waiter>, frame: int, i: nat, w: Waiter)
    requires i <= |ws| && w in ws[i..] && w.frame == frame
    ensures Swept(ws, frame, i).0 != []
    decreases |ws| - i
  {
    if ws[i].frame != frame {
      assert ws[i..] == [ws[i]] + ws[i + 1..];
      SomeoneIsServed(ws, frame, i + 1, w);
    }
  }

  lemma {:induction false} SweptShorter(ws: seq<Waiter>, frame: int, i: nat)
    requires i <= |ws| + 1
    ensures |Swept(ws, frame, i).0| + |Swept(ws, frame, i).1| == |ws|
    decreases |ws| + 1 - i
  {
    if i < |ws| {
      if ws[i].frame == frame {
        SweptShorter(SwapRemoved(ws, i), frame, i + 1);
      } else {
        SweptShorter(ws, frame, i + 1);
      }
    }
  }

  /** The horizon is the greatest frame handled so far, or what it began with. */
  lemma {:induction false} HorizonIsMax(hs: seq<Handled>, initial: int)
    ensures initial <= Horizon(hs, initial) && forall h :: h in hs ==> h.fb.frame <= Horizon(hs, initial)
    ensures Horizon(hs, initial) == initial || exists h :: h in hs && h.fb.frame == Horizon(hs, initial)
  {
    if hs != [] {
      HorizonIsMax(hs[..|hs| - 1], initial);
      assert hs == hs[..|hs| - 1] + [hs[|hs| - 1]];
    }
  }

  /** How often a bundle was handled that did not come from the connection. */
  ghost function Handlings(hs: seq<Handled>, c: Conn, fb: FrameBundle): nat {
    if hs == [] then 0
    else
      var last := hs[|hs| - 1];
      Handlings(hs[..|hs| - 1], c, fb) + if last.fb == fb && (last.local || last.from != c) then 1 else 0
  }

  lemma {:induction false} MeantCounts(hs: seq<Handled>, c: Conn, fb: FrameBundle)
    ensures multiset(Meant(hs, c))[fb] == Handlings(hs, c, fb)
  {
    if hs != [] {
      MeantCounts(hs[..|hs| - 1], c, fb);
    }
  }

  class Communicator {
    var horizon: int
    var conns: seq<Conn>
    var bootstraps: seq<Waiter>

    /** What was sent to each connection; data arrives in order, bundles in any. */
    var data: map<Conn, seq<Data>>
    var bundles: map<Conn, seq<FrameBundle>>
    var rawRemoteBundles: seq<FrameBundle>

    ghost const initial: int
    ghost var handled: seq<Handled>
    ghost var since: map<Conn, nat>
    ghost var joiners: map<Conn, Registration>
    ghost var offered: int
    ghost var worlds: map<int, World>

    ghost function State(): Desk
      reads this
    {
      Desk(horizon, conns, bootstraps, data, bundles, initial, handled, since, joiners, offered, worlds)
    }

    ghost predicate Valid()
      reads this
    {
      Formed(State())
    }

    /** `Start`: a client begins with the connection to its host, a host with none. */
    constructor (hostConns: seq<Conn>, initial: int, ghost base: int)
      requires |hostConns| <= 1
      ensures Valid() && (base <= initial ==> Sound(State()))
      ensures horizon == this.initial == initial && conns == hostConns && handled == [] && rawRemoteBundles == []
      ensures bootstraps == [] && joiners == map[] && offered == base && worlds == map[]
    {
      horizon := initial;
      conns := hostConns;
      bootstraps, rawRemoteBundles := [], [];
      data := map c | c in hostConns :: [];
      bundles := map c | c in hostConns :: [];
      this.initial := initial;
      handled, joiners, offered, worlds := [], map[], base, map[];
      since := map c | c in hostConns :: 0;
    }

    /** The select case for a new connection. */
    method NewConn(conn: Conn, id: EngineId)
      requires Valid() && conn !in conns
      modifies this
      ensures Valid() && State() == Greeted(old(State()), conn, id)
      ensures conns == old(conns) + [conn] && bootstraps == old(bootstraps) + [Waiter(conn, old(horizon) + 1)]
      ensures conn in data && data[conn] == [Initial(old(horizon) + 1, id)] && conn in bundles && bundles[conn] == []
      ensures forall c :: c in old(data) && c != conn ==> c in data && data[c] == old(data)[c]
      ensures forall c :: c in old(bundles) && c != conn ==> c in bundles && bundles[c] == old(bundles)[c]
      ensures horizon == old(horizon) && rawRemoteBundles == old(rawRemoteBundles)
    {
      Register(conn, id);
    }

    method Register(conn: Conn, id: EngineId)
      requires Valid() && conn !in conns
      modifies `conns, `bootstraps, `data, `bundles, `since, `joiners
      ensures Valid() && State() == Greeted(old(State()), conn, id)
    {
      ghost var s := State();
      data := data[conn := [Initial(horizon + 1, id)]];
      bundles := bundles[conn := []];
      conns := conns + [conn];
      bootstraps := bootstraps + [Waiter(conn, horizon + 1)];
      since := since[conn := |handled|];
      joiners := joiners[conn := Registration(horizon + 1, |handled|)];
      assert State() == Greeted(s, conn, id);
      GreetedFormed(s, conn, id);
    }

    /** The loop over the connections: to all of them, but not back to where the bundle came from. */
    method SendBundle(h: Handled, ghost s: Desk)
      requires Formed(s) && conns == s.conns && bundles == s.bundles
      modifies `bundles
      ensures bundles == SentTo(s, h, conns)
    {
      var i := 0;
      NobodyYet(s, h);
      while i < |conns|
        invariant i <= |conns| && bundles == SentTo(s, h, conns[..i])
      {
        var conn := conns[i];
        assert KnownAt(s, conn);
        SentOne(s, h, i);
        if h.local || conn != h.from {
          bundles := bundles[conn := bundles[conn] + [h.fb]];
        }
        i := i + 1;
      }
      assert conns[..i] == conns;
    }

    /** What both bundle cases do with the horizon and the connections. */
    method PassOn(h: Handled)
      requires Valid()
      modifies `horizon, `bundles, `handled
      ensures Valid() && State() == Passed(old(State()), h)
    {
      ghost var s := State();
      RecordAndSend(h);
      PassedFormed(s, h);
    }

    method RecordAndSend(h: Handled)
      requires Valid()
      modifies `horizon, `bundles, `handled
      ensures State() == Passed(old(State()), h)
    {
      ghost var s := State();
      if h.fb.frame > horizon {
        horizon := h.fb.frame;
      }
      SendBundle(h, s);
      handled := handled + [h];
    }

    /** The select case for a bundle from the updater. */
    method Broadcast(fb: FrameBundle)
      requires Valid()
      modifies `horizon, `bundles, `handled
      ensures Valid() && State() == Passed(old(State()), Handled(fb, true, 0))
      ensures forall c :: c in conns ==> c in old(bundles) && c in bundles && bundles[c] == old(bundles)[c] + [fb]
      ensures forall c :: c in old(bundles) && c !in conns ==> c in bundles && bundles[c] == old(bundles)[c]
      ensures horizon == if old(horizon) < fb.frame then fb.frame else old(horizon)
    {
      ghost var s := State();
      PassOn(Handled(fb, true, 0));
      PassedPlainly(s, Handled(fb, true, 0));
    }

    /** The select case for a bundle from a connection. */
    method FanIn(fb: FrameBundle, from: Conn)
      requires Valid()
      modifies `horizon, `bundles, `handled, `rawRemoteBundles
      ensures Valid() && State() == Passed(old(State()), Handled(fb, false, from))
      ensures forall c :: c in conns ==>
        c in old(bundles) && c in bundles && bundles[c] == if c == from then old(bundles)[c] else old(bundles)[c] + [fb]
      ensures forall c :: c in old(bundles) && c !in conns ==> c in bundles && bundles[c] == old(bundles)[c]
      ensures horizon == if old(horizon) < fb.frame then fb.frame else old(horizon)
      ensures rawRemoteBundles == old(rawRemoteBundles) + [fb]
    {
      ghost var s := State();
      rawRemoteBundles := rawRemoteBundles + [fb];
      PassOn(Handled(fb, false, from));
      PassedPlainly(s, Handled(fb, false, from));
    }

    /** The select case for a finished frame: send it, then sweep the list. */
    method BootstrapFrame(frame: int, world: World)
      requires Valid()
      modifies this
      ensures Valid() && State() == FrameOffered(old(State()), frame, world)
      ensures forall c :: c in old(data) ==>
        && c in data
        && data[c] == if Waiter(c, frame) in old(bootstraps) then old(data)[c] + [Boot(frame, world)] else old(data)[c]
      ensures forall w :: multiset(bootstraps)[w] <= multiset(old(bootstraps))[w]
      ensures forall w: Waiter :: w.frame != frame ==> multiset(bootstraps)[w] == multiset(old(bootstraps))[w]
      ensures (exists w :: w in old(bootstraps) && w.frame == frame) ==> |bootstraps| < |old(bootstraps)|
      ensures conns == old(conns) && bundles == old(bundles) && horizon == old(horizon)
    {
      ghost var s := State();
      OfferFrame(frame, world);
      OfferedPlainly(s, frame, world);
    }

    method OfferFrame(frame: int, world: World)
      requires Valid()
      modifies `data, `bootstraps, `offered, `worlds
      ensures Valid() && State() == FrameOffered(old(State()), frame, world)
    {
      OfferedFormed(State(), frame, world);
      SendFrame(frame, world);
      SweepBootstraps(frame);
      offered, worlds := frame, worlds[frame := world];
    }

    method SendFrame(frame: int, world: World)
      requires Valid()
      modifies `data
      ensures data == Handed(old(State()), frame, world, bootstraps)
    {
      ghost var s := State();
      var i := 0;
      NobodyHanded(s, frame, world);
      while i < |bootstraps|
        invariant i <= |bootstraps| && data == Handed(s, frame, world, bootstraps[..i])
      {
        var boot := bootstraps[i];
        assert KnownAt(s, boot.who);
        HandedOne(s, frame, world, i);
        if frame == boot.frame {
          data := data[boot.who := data[boot.who] + [Boot(frame, world)]];
        }
        i := i + 1;
      }
      assert bootstraps[..i] == bootstraps;
    }

    method SweepBootstraps(frame: int)
      modifies `bootstraps
      ensures bootstraps == Swept(old(bootstraps), frame, 0).1
    {
      ghost var left := Swept(bootstraps, frame, 0).1;
      var i := 0;
      while i < |bootstraps|
        invariant i <= |bootstraps| + 1 && Swept(bootstraps, frame, i).1 == left
        decreases |bootstraps| + 1 - i
      {
        if frame == bootstraps[i].frame {
          bootstraps := bootstraps[i := bootstraps[|bootstraps| - 1]];
          bootstraps := bootstraps[..|bootstraps| - 1];
        }
        i := i + 1;
      }
    }
  }

  // ----- the loops over connections, one entry at a time

  lemma NobodyYet(s: Desk, h: Handled)
    ensures SentTo(s, h, s.conns[..0]) == s.bundles
  {
    forall c | c in s.bundles ensures SentTo(s, h, [])[c] == s.bundles[c] {
      assert s.bundles[c] + [] == s.bundles[c];
    }
  }

  lemma SentOne(s: Desk, h: Handled, i: nat)
    requires Different(s.conns) && i < |s.conns| && s.conns[i] in s.bundles
    ensures var c, before := s.conns[i], SentTo(s, h, s.conns[..i]);
      SentTo(s, h, s.conns[..i + 1]) == if MeantFor(h, c) then before[c := before[c] + [h.fb]] else before
  {
    var c, before, after := s.conns[i], SentTo(s, h, s.conns[..i]), SentTo(s, h, s.conns[..i + 1]);
    assert forall x :: x in s.conns[..i + 1] <==> x in s.conns[..i] || x == c;
    assert before[c] == s.bundles[c] + [] == s.bundles[c];
    var next := if MeantFor(h, c) then before[c := before[c] + [h.fb]] else before;
    forall x | x in after ensures x in next && after[x] == next[x] {}
    forall x | x in next ensures x in after {}
  }

  lemma NobodyHanded(s: Desk, frame: int, world: World)
    ensures Handed(s, frame, world, s.bootstraps[..0]) == s.data
  {
    forall c | c in s.data ensures Handed(s, frame, world, [])[c] == s.data[c] {
      assert s.data[c] + [] == s.data[c];
    }
  }

  lemma HandedOne(s: Desk, frame: int, world: World, i: nat)
    requires NoRepeats(s.bootstraps) && i < |s.bootstraps| && s.bootstraps[i].who in s.data
    ensures var w, before := s.bootstraps[i], Handed(s, frame, world, s.bootstraps[..i]);
      Handed(s, frame, world, s.bootstraps[..i + 1])
        == if w.frame == frame then before[w.who := before[w.who] + [Boot(frame, world)]] else before
  {
    var w := s.bootstraps[i];
    var before, after := Handed(s, frame, world, s.bootstraps[..i]), Handed(s, frame, world, s.bootstraps[..i + 1]);
    assert forall x :: x in s.bootstraps[..i + 1] <==> x in s.bootstraps[..i] || x == w;
    assert before[w.who] == s.data[w.who] + [] == s.data[w.who];
    var next := if w.frame == frame then before[w.who := before[w.who] + [Boot(frame, world)]] else before;
    forall x | x in after ensures x in next && after[x] == next[x] {}
    forall x | x in next ensures x in after {}
  }

  // ----- the hand-off

  lemma {:induction false} AboveAppend(a: seq<FrameBundle>, b: seq<FrameBundle>, f: int)
    ensures Above(a + b, f) == Above(a, f) + Above(b, f)
  {
    if b == [] {
      assert a + b == a;
    } else {
      AboveAppend(a, b[..|b| - 1], f);
      assert (a + b)[..|a + b| - 1] == a + b[..|b| - 1];
    }
  }

  lemma {:induction false} NothingAboveHorizon(hs: seq<Handled>, initial: int, conn: Conn, f: int)
    requires Horizon(hs, initial) <= f
    ensures Above(Meant(hs, conn), f) == []
  {
    if hs != [] {
      NothingAboveHorizon(hs[..|hs| - 1], initial, conn, f);
      var last := if MeantFor(hs[|hs| - 1], conn) then [hs[|hs| - 1].fb] else [];
      AboveAppend(Meant(hs[..|hs| - 1], conn), last, f);
      assert last[..0] == [];
    }
  }

  lemma {:induction false} MeantAppend(a: seq<Handled>, b: seq<Handled>, conn: Conn)
    ensures Meant(a + b, conn) == Meant(a, conn) + Meant(b, conn)
  {
    if b == [] {
      assert a + b == a;
    } else {
      MeantAppend(a, b[..|b| - 1], conn);
      assert (a + b)[..|a + b| - 1] == a + b[..|b| - 1];
    }
  }

  /**
   * Nothing is missing for a joiner: of the bundles above any frame from the horizon at its registration on, it
   * has been sent all that the communicator ever handled, but for those that came from it; and none of them was
   * handled before it came.
   */
  lemma HandOffIsComplete(s: Desk, c: Conn, f: int)
    requires Sound(s) && c in s.joiners && s.joiners[c].start - 1 <= f
    ensures c in s.bundles && s.joiners[c].since <= |s.handled|
    ensures Above(Meant(s.handled[..s.joiners[c].since], c), f) == []
    ensures Above(s.bundles[c], f) == Above(Meant(s.handled, c), f)
  {
    assert JoiningAt(s, c) && ServedAt(s, c);
    var k := s.since[c];
    var before, after := s.handled[..k], s.handled[k..];
    assert s.handled == before + after;
    MeantAppend(before, after, c);
    AboveAppend(Meant(before, c), Meant(after, c), f);
    NothingAboveHorizon(before, s.initial, c, f);
  }

  /**
   * The same by counts: of every bundle above its start a joiner has been sent as many copies as the communicator
   * ever handled from elsewhere, and that was none before it came.
   */
  lemma JoinerIsSentEachBundle(s: Desk, c: Conn, fb: FrameBundle)
    requires Sound(s) && c in s.joiners && s.joiners[c].start <= fb.frame
    ensures c in s.bundles && s.joiners[c].since <= |s.handled|
    ensures multiset(s.bundles[c])[fb] == Handlings(s.handled, c, fb)
    ensures Handlings(s.handled[..s.joiners[c].since], c, fb) == 0
  {
    var f, before := fb.frame - 1, s.handled[..s.joiners[c].since];
    HandOffIsComplete(s, c, f);
    AboveCounts(s.bundles[c], f, fb);
    AboveCounts(Meant(s.handled, c), f, fb);
    AboveCounts(Meant(before, c), f, fb);
    MeantCounts(s.handled, c, fb);
    MeantCounts(before, c, fb);
  }

  /** Each joiner is sent one bootstrap frame, that of its start with the world offered for it, or none yet. */
  lemma OneBootstrapFrame(s: Desk, c: Conn)
    requires Sound(s) && c in s.joiners
    ensures c in s.data && s.data[c] != [] && s.data[c][0].Initial? && s.data[c][0].horizon == s.joiners[c].start
    ensures s.joiners[c].start <= s.offered ==>
      s.joiners[c].start in s.worlds && s.data[c][1..] == [Boot(s.joiners[c].start, s.worlds[s.joiners[c].start])]
    ensures s.offered < s.joiners[c].start ==> s.data[c][1..] == []
  {
    assert JoiningAt(s, c);
  }

  // ----- the joiner's side

  datatype Incoming = InBundle(fb: FrameBundle) | InData(data: Data)

  function BundleOf(x: Incoming): seq<FrameBundle> {
    if x.InBundle? then [x.fb] else []
  }

  ghost function BundlesIn(incoming: seq<Incoming>): seq<FrameBundle> {
    if incoming == [] then [] else BundlesIn(incoming[..|incoming| - 1]) + BundleOf(incoming[|incoming| - 1])
  }

  /** What the first `k` arrivals make `Join` forward. */
  ghost function Collected(incoming: seq<Incoming>, k: nat, f: int): seq<FrameBundle>
    requires k <= |incoming|
  {
    if k == 0 then []
    else
      var x := incoming[k - 1];
      if x.InBundle? && f < x.fb.frame then Collected(incoming, k - 1, f) + [x.fb] else Collected(incoming, k - 1, f)
  }

  lemma {:induction false} CollectedIsAbove(incoming: seq<Incoming>, k: nat, f: int)
    requires k <= |incoming|
    ensures Collected(incoming, k, f) == Above(BundlesIn(incoming[..k]), f)
  {
    if k > 0 {
      CollectedIsAbove(incoming, k - 1, f);
      var more := BundleOf(incoming[k - 1]);
      assert incoming[..k][..k - 1] == incoming[..k - 1];
      AboveAppend(BundlesIn(incoming[..k - 1]), more, f);
      assert more != [] ==> more[..0] == [];
    }
  }

  /** `taken` says how many arrivals it took; without a bootstrap frame among them, `Join` still waits. */
  datatype JoinResult = StillWaiting | Joined(boot: Data, taken: nat)

  /** Of the first `n` arrivals exactly the bundles above `f` were forwarded, in the order they came. */
  ghost predicate ForwardedFrom(incoming: seq<Incoming>, n: nat, f: int, forwarded: seq<FrameBundle>,
                                whence: seq<nat>)
  {
    && n <= |incoming| && |whence| == |forwarded|
    && (forall i, j :: 0 <= i < j < |whence| ==> whence[i] < whence[j])
    && (forall j :: 0 <= j < |whence| ==> whence[j] < n && incoming[whence[j]] == InBundle(forwarded[j]))
    && (forall k: nat :: k < n ==> (k in whence <==> incoming[k].InBundle? && f < incoming[k].fb.frame))
  }

  lemma ForwardedNext(incoming: seq<Incoming>, n: nat, f: int, forwarded: seq<FrameBundle>, whence: seq<nat>)
    requires ForwardedFrom(incoming, n, f, forwarded, whence) && n < |incoming|
    ensures if incoming[n].InBundle? && f < incoming[n].fb.frame
            then ForwardedFrom(incoming, n + 1, f, forwarded + [incoming[n].fb], whence + [n])
            else ForwardedFrom(incoming, n + 1, f, forwarded, whence)
  {
    assert forall k :: k in whence + [n] <==> k in whence || k == n;
    assert n !in whence;
  }

  /** `Join` after the initial data: collects bundles above the horizon until the bootstrap frame comes. */
  method Join(initial: Data, incoming: seq<Incoming>)
    returns (forwarded: seq<FrameBundle>, r: JoinResult, ghost whence: seq<nat>)
    requires initial.Initial?
    ensures r.StillWaiting? ==> forwarded == Collected(incoming, |incoming|, initial.horizon)
    ensures r.StillWaiting? ==> forall x :: x in incoming ==> x.InBundle?
    ensures r.Joined? ==> 0 < r.taken <= |incoming| && incoming[r.taken - 1] == InData(r.boot)
    ensures r.Joined? ==> r.taken <= |incoming| && forwarded == Collected(incoming, r.taken, initial.horizon)
    ensures r.Joined? ==> r.taken <= |incoming| && forall k :: 0 <= k < r.taken - 1 ==> incoming[k].InBundle?
    ensures ForwardedFrom(incoming, if r.Joined? then r.taken else |incoming|, initial.horizon, forwarded, whence)
  {
    forwarded, whence := [], [];
    var i := 0;
    while i < |incoming|
      invariant i <= |incoming| && forwarded == Collected(incoming, i, initial.horizon)
      invariant ForwardedFrom(incoming, i, initial.horizon, forwarded, whence)
      invariant forall k :: 0 <= k < i ==> incoming[k].InBundle?
    {
      ForwardedNext(incoming, i, initial.horizon, forwarded, whence);
      match incoming[i]
      case InData(data) =>
        return forwarded, Joined(data, i + 1), whence;
      case InBundle(fb) =>
        if fb.frame > initial.horizon {
          forwarded, whence := forwarded + [fb], whence + [i];
        }
      i := i + 1;
    }
    r := StillWaiting;
  }

  /**
   * However arrivals fall before or after the bootstrap frame, the bundles above its start that reach the
   * joiner's updater are those above it that it was sent.
   */
  lemma JoinForwardsEverythingAbove(incoming: seq<Incoming>, taken: nat, start: int)
    requires taken <= |incoming|
    ensures Above(Collected(incoming, taken, start) + BundlesIn(incoming[taken..]), start)
         == Above(BundlesIn(incoming), start)
  {
    CollectedIsAbove(incoming, taken, start);
    BundlesInSplit(incoming, taken);
    AboveAgain(BundlesIn(incoming[..taken]), BundlesIn(incoming[taken..]), start);
  }

  lemma BundlesInSplit(incoming: seq<Incoming>, k: nat)
    requires k <= |incoming|
    ensures BundlesIn(incoming) == BundlesIn(incoming[..k]) + BundlesIn(incoming[k..])
  {
    assert incoming == incoming[..k] + incoming[k..];
    BundlesInAppend(incoming[..k], incoming[k..]);
  }

  lemma AboveAgain(a: seq<FrameBundle>, b: seq<FrameBundle>, f: int)
    ensures Above(Above(a, f) + b, f) == Above(a + b, f)
  {
    AboveAppend(a, b, f);
    AboveAppend(Above(a, f), b, f);
    AboveTwice(a, f);
  }

  lemma BundlesInSnoc(incoming: seq<Incoming>, x: Incoming)
    ensures BundlesIn(incoming + [x]) == BundlesIn(incoming) + BundleOf(x)
  {
    assert (incoming + [x])[..|incoming|] == incoming;
  }

  lemma {:induction false} BundlesInAppend(a: seq<Incoming>, b: seq<Incoming>)
    ensures BundlesIn(a + b) == BundlesIn(a) + BundlesIn(b)
  {
    if b == [] {
      assert a + b == a;
    } else {
      var rest, last := b[..|b| - 1], b[|b| - 1];
      assert b == rest + [last] && a + b == (a + rest) + [last];
      BundlesInAppend(a, rest);
      BundlesInSnoc(rest, last);
      BundlesInSnoc(a + rest, last);
    }
  }

  lemma {:induction false} AboveTwice(fbs: seq<FrameBundle>, f: int)
    ensures Above(Above(fbs, f), f) == Above(fbs, f)
  {
    if fbs != [] {
      var rest, last := fbs[..|fbs| - 1], fbs[|fbs| - 1];
      AboveTwice(rest, f);
      AboveAppend(Above(rest, f), [last], f);
      assert [last][..0] == [] && Above(rest, f) + [] == Above(rest, f);
    }
  }

  lemma {:induction false} AboveCounts(fbs: seq<FrameBundle>, f: int, x: FrameBundle)
    ensures multiset(Above(fbs, f))[x] == if f < x.frame then multiset(fbs)[x] else 0
  {
    if fbs != [] {
      var rest, last := fbs[..|fbs| - 1], fbs[|fbs| - 1];
      assert fbs == rest + [last];
      AboveCounts(rest, f, x);
      assert Above(rest, f) + [] == Above(rest, f);
    }
  }

  /** What is above a frame does not depend on the order. */
  lemma AbovePermuted(a: seq<FrameBundle>, b: seq<FrameBundle>, f: int)
    requires multiset(a) == multiset(b)
    ensures multiset(Above(a, f)) == multiset(Above(b, f))
  {
    forall x ensures multiset(Above(a, f))[x] == multiset(Above(b, f))[x] {
      AboveCounts(a, f, x);
      AboveCounts(b, f, x);
    }
  }

  /**
   * The whole hand-off: if what a joiner receives is what it was sent, in any order, then of the bundles above
   * its start its updater is given exactly what the host's communicator ever handled, but for its own; some by
   * `Join`, the rest by its own communicator, and none twice.
   */
  lemma JoinerIsGivenEverything(s: Desk, c: Conn, incoming: seq<Incoming>, taken: nat)
    requires Sound(s) && c in s.joiners && taken <= |incoming|
    requires c in s.bundles && multiset(BundlesIn(incoming)) == multiset(s.bundles[c])
    ensures var start := s.joiners[c].start;
      multiset(Above(Collected(incoming, taken, start) + BundlesIn(incoming[taken..]), start))
        == multiset(Above(Meant(s.handled, c), start))
  {
    var start := s.joiners[c].start;
    JoinForwardsEverythingAbove(incoming, taken, start);
    AbovePermuted(BundlesIn(incoming), s.bundles[c], start);
    HandOffIsComplete(s, c, start);
  }

  /** The same by counts, for each bundle above its start. */
  lemma JoinerIsGivenEach(s: Desk, c: Conn, incoming: seq<Incoming>, taken: nat, fb: FrameBundle)
    requires Sound(s) && c in s.joiners && taken <= |incoming| && s.joiners[c].start < fb.frame
    requires c in s.bundles && multiset(BundlesIn(incoming)) == multiset(s.bundles[c])
    ensures var start := s.joiners[c].start;
      multiset(Collected(incoming, taken, start) + BundlesIn(incoming[taken..]))[fb] == Handlings(s.handled, c, fb)
  {
    var start := s.joiners[c].start;
    JoinerIsGivenEverything(s, c, incoming, taken);
    AboveCounts(Collected(incoming, taken, start) + BundlesIn(incoming[taken..]), start, fb);
    AboveCounts(Meant(s.handled, c), start, fb);
    MeantCounts(s.handled, c, fb);
  }
}
