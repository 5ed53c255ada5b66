/** Whole runs of an updater object: its select loop, over any inputs. */
module Driving {
  import opened Membership
  import opened Bundles
  import opened Replay
  import opened Agreement
  import opened Sweep
  import opened Outbox
  import opened Updaters
  import opened UpdaterRuns
  import opened Runs
  import opened Bundlers
  import opened Rounds

  /** What the select loop of an updater takes next. */
  datatype Input = Own(fb: FrameBundle) | Others(group: seq<FrameBundle>) | Request(w: Waiter)

  /** The part of an updater's state that what comes next depends on. */
  datatype Phase = Phase(h: History, local: int, skip: int)
  {
    ghost predicate Idle(x: Input) {
      x.Request? || (x.Own? && Ignored(skip, x.fb))
    }

    /** What a handler takes in before it advances. */
    ghost function Taken(id: EngineId, x: Input): seq<FrameBundle> {
      match x
      case Own(fb) => LocalBundles(id, skip, h.global, fb)
      case Others(group) => group
      case Request(_) => []
    }

    ghost function Groups(id: EngineId, x: Input): seq<seq<FrameBundle>> {
      if Idle(x) then [] else [Taken(id, x)]
    }

    /** In bounds, and once per engine and frame. */
    ghost predicate Allows(id: EngineId, n: nat, x: Input) {
      match x
      case Own(fb) => Ignored(skip, fb) || LocalOk(h, id, local, skip, n, fb)
      case Others(group) => Deliverable(h, n, id, group)
      case Request(_) => true
    }

    ghost predicate To(id: EngineId, x: Input, p: Phase) {
      if Idle(x) then p == this
      else
        && StepsTo(h, Taken(id, x), p.h)
        && p.local == (if x.Own? then x.fb.frame else local)
        && p.skip == if x.Others? then SkipAfterAll(skip, h.start, id, x.group) else 0
    }

    /** Where the source panics: a joiner's first frame has left the window, or its first bundle is too far ahead. */
    ghost predicate Stuck(x: Input) {
      x.Own? && 0 < skip <= x.fb.frame && (skip <= h.start || h.global + 1 < x.fb.frame)
    }

    /** The books after a handler that led to the record `h'`. */
    ghost function BooksAfter(l: Ledger, x: Input, h': History): Ledger
      requires h.origin.frame <= h.start
    {
      match x
      case Own(fb) =>
        if Ignored(skip, fb) then l
        else Advanced(h.origin, h'.used, h.start, h'.start, Announcing(l, LocalBroadcasts(l.id, skip, fb)))
      case Others(_) => Advanced(h.origin, h'.used, h.start, h'.start, l)
      case Request(w) => Requested(h.origin, h.used, h.start, l, w)
    }
  }

  /** Wherever the inputs so far have led, the next one is allowed. */
  ghost predicate Feasible(p: Phase, id: EngineId, n: nat, inputs: seq<Input>)
    decreases |inputs|
  {
    inputs != [] ==>
      && p.Allows(id, n, inputs[0])
      && forall p' :: p.To(id, inputs[0], p') ==> Feasible(p', id, n, inputs[1..])
  }

  lemma FeasibleNext(p: Phase, id: EngineId, n: nat, inputs: seq<Input>, i: nat)
    requires i < |inputs| && Feasible(p, id, n, inputs[i..])
    ensures p.Allows(id, n, inputs[i])
    ensures forall p' :: p.To(id, inputs[i], p') ==> Feasible(p', id, n, inputs[i + 1..])
  {
    assert inputs[i..][1..] == inputs[i + 1..];
  }

  ghost function PhaseOf(u: Updater): Phase
    reads u, u.frames
  {
    Phase(u.Hist(), u.localFrame, u.skipToFrame)
  }

  /** What a round does, in plain terms. */
  ghost predicate Round(id: EngineId, p: Phase, l: Ledger, x: Input, p': Phase, l': Ledger) {
    && p.h.origin.frame <= p.h.start && p'.h.origin == p.h.origin
    && match x
       case Own(fb) =>
         if p.skip == -1 || fb.frame < p.skip then p' == p && l' == l
         else
           && p'.skip == 0 && p'.local == fb.frame
           && TakesOwn(id, p.skip, fb, p.h, p'.h) && OwnBooks(p.skip, fb, p.h, p'.h, l, l')
       case Others(group) =>
         && p'.local == p.local && Learns(id, p.h.start, group, p.skip, p'.skip)
         && Absorbs(p.h, group, p'.h) && Slides(p.h, p'.h)
         && Finalises(p'.h.origin, p'.h.used, p.h.start, p'.h.start, l, l')
       case Request(w) => p' == p && RequestBooks(p.h, w, l, l')
  }

  /** What is known of an updater between its handlers. */
  ghost predicate Fit(id: EngineId, p: Phase, l: Ledger) {
    && l.id == id && p.h.origin.frame <= p.h.start <= p.h.global
    && (p.skip != 0 ==> 0 <= p.h.origin.frame)
    && (p.skip != 0 && p.skip != -1 ==> 0 < p.skip <= p.h.global && FreeFrom(p.h, id, p.skip))
  }

  lemma ValidIsFit(u: Updater)
    requires u.Valid()
    ensures Fit(u.id, PhaseOf(u), u.Books())
  {
    if u.skipToFrame != 0 && u.skipToFrame != -1 {
      MissedAreFree(u.Hist(), u.Books(), u.localFrame, u.skipToFrame);
    }
  }

  lemma RoundPlainly(id: EngineId, n: nat, p: Phase, l: Ledger, x: Input, p': Phase)
    requires Fit(id, p, l) && p.Allows(id, n, x) && p.To(id, x, p')
    ensures Round(id, p, l, x, p', p.BooksAfter(l, x, p'.h))
  {
    match x
    case Own(fb) =>
      if !Ignored(p.skip, fb) {
        OwnPlainly(p.h, id, p.skip, fb, p'.h);
        OwnBooksKept(l, p.skip, fb, p.h, p'.h, p.BooksAfter(l, x, p'.h));
      }
    case Others(group) =>
      DeliverableIsNew(p.h, n, id, group);
      StepsPlainly(p.h, group, p'.h);
      if p.skip == 0 {
        NeverSkips(p.h.start, id, group);
      } else {
        LearnsExactly(id, p.h.start, group, p.skip);
      }
      AdvancedFinalises(p'.h.origin, p'.h.used, p.h.start, p'.h.start, l);
    case Request(w) => RequestPlainly(p.h, w, l);
  }

  /** One round of the updater's select loop; `ok` is false where the source panics. */
  method DriveOne(u: Updater, x: Input) returns (ok: bool)
    requires u.Valid() && PhaseOf(u).Allows(u.id, u.frames.window.data.Length, x)
    modifies u, u.frames.repr
    ensures ok ==> u.Valid() && old(PhaseOf(u)).To(u.id, x, PhaseOf(u))
    ensures ok ==> u.Books() == old(PhaseOf(u)).BooksAfter(old(u.Books()), x, u.Hist())
    ensures ok ==> Round(u.id, old(PhaseOf(u)), old(u.Books()), x, PhaseOf(u), u.Books())
    ensures ok ==> Heard(old(u.Books()), old(u.frames.line.first), [x], u.Books(), u.frames.line.first)
    ensures !ok ==> old(PhaseOf(u)).Stuck(x)
    ensures forall o :: o in u.frames.repr ==> o in old(u.frames.repr) || fresh(o)
  {
    ghost var p, l := PhaseOf(u), u.Books();
    ValidIsFit(u);
    ok := Handle(u, x);
    if ok {
      RoundPlainly(u.id, u.frames.window.data.Length, p, l, x, PhaseOf(u));
      HeardOne(p, l, x, u.id, PhaseOf(u));
    }
  }

  method Handle(u: Updater, x: Input) returns (ok: bool)
    requires u.Valid() && PhaseOf(u).Allows(u.id, u.frames.window.data.Length, x)
    modifies u, u.frames.repr
    ensures ok ==> u.Valid() && old(PhaseOf(u)).To(u.id, x, PhaseOf(u))
    ensures ok ==> u.Books() == old(PhaseOf(u)).BooksAfter(old(u.Books()), x, u.Hist())
    ensures !ok ==> old(PhaseOf(u)).Stuck(x)
    ensures forall o :: o in u.frames.repr ==> o in old(u.frames.repr) || fresh(o)
  {
    ok := true;
    match x
    case Own(fb) => ok := HandleOwn(u, fb);
    case Others(group) => u.RemoteGroup(group);
    case Request(w) => HandleRequest(u, w);
  }

  method HandleOwn(u: Updater, fb: FrameBundle) returns (ok: bool)
    requires u.Valid() && PhaseOf(u).Allows(u.id, u.frames.window.data.Length, Own(fb))
    modifies u, u.frames.repr
    ensures ok ==> u.Valid() && old(PhaseOf(u)).To(u.id, Own(fb), PhaseOf(u))
    ensures ok ==> u.Books() == old(PhaseOf(u)).BooksAfter(old(u.Books()), Own(fb), u.Hist())
    ensures !ok ==> old(PhaseOf(u)).Stuck(Own(fb))
    ensures forall o :: o in u.frames.repr ==> o in old(u.frames.repr) || fresh(o)
  {
    ok := u.LocalBundle(fb);
  }

  method HandleRequest(u: Updater, w: Waiter)
    requires u.Valid()
    modifies u, u.frames.repr
    ensures u.Valid() && PhaseOf(u) == old(PhaseOf(u))
    ensures u.Books() == old(PhaseOf(u)).BooksAfter(old(u.Books()), Request(w), u.Hist())
    ensures u.frames.repr == old(u.frames.repr)
  {
    u.RequestFinal(w);
  }

  // ----- the record over a run

  /** What a started updater takes in. */
  ghost function Given(x: Input): seq<seq<FrameBundle>> {
    match x
    case Own(fb) => if fb.frame < 0 then [] else [[fb]]
    case Others(group) => [group]
    case Request(_) => []
  }

  ghost function AllGiven(inputs: seq<Input>): seq<seq<FrameBundle>> {
    if inputs == [] then [] else AllGiven(inputs[..|inputs| - 1]) + Given(inputs[|inputs| - 1])
  }

  /** A started updater's newest local frame is that of its newest local bundle. */
  ghost function LastOwn(inputs: seq<Input>, local: int): int {
    if inputs == [] then local
    else
      var last := inputs[|inputs| - 1];
      if last.Own? && 0 <= last.fb.frame then last.fb.frame else LastOwn(inputs[..|inputs| - 1], local)
  }

  /** `groups` and `states` tell of the phases from `p` to `p'` over the inputs. */
  ghost predicate Driven(p: Phase, inputs: seq<Input>, groups: seq<seq<FrameBundle>>, states: seq<History>, p': Phase) {
    && Linked(groups, states) && states[0] == p.h && states[|groups|] == p'.h
    && (p.skip == 0 ==> p'.skip == 0 && groups == AllGiven(inputs) && p'.local == LastOwn(inputs, p.local))
  }

  lemma {:induction false} NeverSkips(start: int, id: EngineId, group: seq<FrameBundle>)
    ensures SkipAfterAll(0, start, id, group) == 0
  {
    if group != [] {
      NeverSkips(start, id, group[..|group| - 1]);
    }
  }

  lemma LinkedNext(groups: seq<seq<FrameBundle>>, states: seq<History>, group: seq<FrameBundle>, h: History)
    requires Linked(groups, states) && StepsTo(states[|groups|], group, h)
    ensures Linked(groups + [group], states + [h])
  {
    var groups', states' := groups + [group], states + [h];
    forall i | 0 <= i < |groups'| ensures LinkedAt(groups', states', i) {
      if i < |groups| {
        assert LinkedAt(groups, states, i);
      }
    }
  }

  /** A started updater takes every input as it is. */
  lemma StartedTakes(p: Phase, id: EngineId, x: Input)
    requires p.skip == 0
    ensures p.Groups(id, x) == Given(x)
    ensures x.Others? ==> SkipAfterAll(0, p.h.start, id, x.group) == 0
  {
    match x
    case Own(fb) => assert [] + [fb] == [fb];
    case Others(group) => NeverSkips(p.h.start, id, group);
    case Request(_) =>
  }

  lemma DrivenNext(p: Phase, inputs: seq<Input>, groups: seq<seq<FrameBundle>>, states: seq<History>, p': Phase,
                   id: EngineId, x: Input, p'': Phase)
    requires Driven(p, inputs, groups, states, p') && p'.To(id, x, p'')
    ensures Driven(p, inputs + [x], groups + p'.Groups(id, x), states + if p'.Idle(x) then [] else [p''.h], p'')
  {
    if p'.Idle(x) {
      assert groups + [] == groups && states + [] == states;
    } else {
      LinkedNext(groups, states, p'.Taken(id, x), p''.h);
    }
    if p.skip == 0 {
      StartedTakes(p', id, x);
      GivenNext(inputs, x, p.local);
    }
  }

  lemma GivenNext(inputs: seq<Input>, x: Input, local: int)
    ensures AllGiven(inputs + [x]) == AllGiven(inputs) + Given(x)
    ensures LastOwn(inputs + [x], local) == if x.Own? && 0 <= x.fb.frame then x.fb.frame else LastOwn(inputs, local)
  {
    assert (inputs + [x])[..|inputs|] == inputs;
  }

  // ----- where local bundles come from

  /** The local bundles among the inputs. */
  ghost function OwnOf(inputs: seq<Input>): seq<FrameBundle> {
    if inputs == [] then []
    else
      var last := inputs[|inputs| - 1];
      OwnOf(inputs[..|inputs| - 1]) + if last.Own? then [last.fb] else []
  }

  /** A bundler's bundles are for one frame after the other, so the newest local frame counts them. */
  lemma {:induction false} LastOwnCounts(b: Bundler, inputs: seq<Input>, local: int)
    requires b.Valid() && 0 <= b.firstFrame && OwnOf(inputs) <= b.localBundles
    ensures LastOwn(inputs, local) == if OwnOf(inputs) == [] then local else b.firstFrame + |OwnOf(inputs)| - 1
  {
    if inputs != [] {
      var rest, last := inputs[..|inputs| - 1], inputs[|inputs| - 1];
      LastOwnCounts(b, rest, local);
      if last.Own? {
        assert OwnOf(inputs)[|OwnOf(rest)|] == last.fb == b.localBundles[|OwnOf(rest)|];
      }
    }
  }

  lemma OwnNext(inputs: seq<Input>, fb: FrameBundle, fbs: seq<FrameBundle>)
    requires OwnOf(inputs + [Own(fb)]) <= fbs
    ensures OwnOf(inputs) <= fbs && |OwnOf(inputs)| < |fbs| && fbs[|OwnOf(inputs)|] == fb
  {
    assert (inputs + [Own(fb)])[..|inputs|] == inputs;
    assert OwnOf(inputs + [Own(fb)]) == OwnOf(inputs) + [fb];
    assert OwnOf(inputs + [Own(fb)])[|OwnOf(inputs)|] == fb;
  }

  /**
   * The bundler supplies what a started updater relies on: if its local bundles so far, and the next one, are
   * those a bundler has sent, in order, and its engine is a member of the newest final frame, then the handler
   * may be given the next one as soon as that is in bounds.
   */
  lemma BundlerFeedsUpdater(u: Updater, b: Bundler, p: Phase, t: Trace, inputs: seq<Input>, fb: FrameBundle)
    requires u.Valid() && b.Valid() && u.id == b.id && 0 <= b.id && 0 <= p.h.origin.frame
    requires p.skip == 0 && p.local < b.firstFrame && 0 <= b.firstFrame
    requires Tells(t, p, inputs) && t.done == |inputs| && t.p == PhaseOf(u)
    requires OwnOf(inputs + [Own(fb)]) <= b.localBundles
    requires u.origin.frame < u.frames.line.first ==> u.id in u.Hist().WorldAt(u.frames.line.first).members
    requires u.origin.frame == p.h.origin.frame && fb.frame < u.frames.window.End()
    ensures PhaseOf(u).Allows(u.id, u.frames.window.data.Length, Own(fb)) && u.localFrame < fb.frame
  {
    assert inputs[..t.done] == inputs;
    OwnNext(inputs, fb, b.localBundles);
    LastOwnCounts(b, inputs, p.local);
    NextLocalIsAboveStart(u, fb);
    forall k | k in fb.bundle ensures k !in At(u.used, fb.frame) {
      assert k in fb.bundle.Keys && LocalAt(u.used, u.id, u.localFrame, u.skipToFrame, fb.frame);
    }
  }

  // ----- the requests over a run

  ghost function Asked(inputs: seq<Input>): multiset<Waiter> {
    if inputs == [] then multiset{}
    else
      var last := inputs[|inputs| - 1];
      Asked(inputs[..|inputs| - 1]) + if last.Request? then multiset{last.w} else multiset{}
  }

  /** No two requests are for one frame, unless both are for the newest final one. */
  ghost predicate RequestsApart(inputs: seq<Input>, pending: seq<Waiter>) {
    && (forall i, j :: 0 <= i < j < |inputs| && inputs[i].Request? && inputs[j].Request? && 0 <= inputs[j].w.frame
         ==> inputs[i].w.frame != inputs[j].w.frame)
    && (forall i, w :: 0 <= i < |inputs| && inputs[i].Request? && w in pending ==> inputs[i].w.frame != w.frame)
  }

  /** Nobody is forgotten, and with different frames pending nobody who asked waits for a final frame. */
  ghost predicate Heard(l: Ledger, start: int, inputs: seq<Input>, l': Ledger, start': int) {
    && l'.id == l.id && l'.asked == l.asked + Asked(inputs)
    && (forall w :: w in l'.pending ==> w in l.pending || Request(w) in inputs)
    && (RequestsApart(inputs, l.pending) && Prompt(l.pending, start) ==> Prompt(l'.pending, start'))
  }

  lemma HeardNext(l: Ledger, start: int, inputs: seq<Input>, p: Phase, l': Ledger, x: Input, id: EngineId, p': Phase)
    requires p.h.origin.frame <= p.h.start && Heard(l, start, inputs, l', p.h.start) && p.To(id, x, p')
    ensures Heard(l, start, inputs + [x], p.BooksAfter(l', x, p'.h), p'.h.start)
  {
    var l'' := p.BooksAfter(l', x, p'.h);
    if x.Request? {
      RequestHeard(l, start, inputs, p, l', x.w);
    } else {
      if !p.Idle(x) {
        var said := if x.Own? then Announcing(l', LocalBroadcasts(l'.id, p.skip, x.fb)) else l';
        AdvanceHeard(p.h.origin, p'.h.used, p.h.start, p'.h.start, said);
      }
      HeardOn(l, start, inputs, l', p.h.start, x, l'', p'.h.start);
    }
  }

  /** While frames become final nobody new waits, and nobody is passed over. */
  lemma AdvanceHeard(o: Origin, used: Log, a: int, b: int, l: Ledger)
    requires o.frame <= a <= b
    ensures StillHeard(l, a, Advanced(o, used, a, b, l), b)
  {
    var l' := Advanced(o, used, a, b, l);
    AdvancedKeeps(o, used, a, b, l);
    forall w | w in l'.pending ensures w in l.pending {
      LeftWaited(l.pending, a, b, w);
    }
    if Prompt(l.pending, a) {
      PromptKept(o, used, a, b, l);
    }
  }

  ghost predicate StillHeard(l: Ledger, a: int, l': Ledger, b: int) {
    && l'.id == l.id && l'.asked == l.asked && (forall w :: w in l'.pending ==> w in l.pending)
    && (Prompt(l.pending, a) ==> Prompt(l'.pending, b))
  }

  lemma HeardOn(l: Ledger, start: int, inputs: seq<Input>, l': Ledger, a: int, x: Input, l'': Ledger, b: int)
    requires Heard(l, start, inputs, l', a) && !x.Request? && StillHeard(l', a, l'', b)
    ensures Heard(l, start, inputs + [x], l'', b)
  {
    assert (inputs + [x])[..|inputs|] == inputs;
    assert forall y :: y in inputs ==> y in inputs + [x];
    if RequestsApart(inputs + [x], l.pending) {
      FewerApart(inputs, x, l.pending);
    }
  }

  lemma HeardOne(p: Phase, l: Ledger, x: Input, id: EngineId, p': Phase)
    requires p.h.origin.frame <= p.h.start && p.To(id, x, p')
    ensures Heard(l, p.h.start, [x], p.BooksAfter(l, x, p'.h), p'.h.start)
  {
    HeardNext(l, p.h.start, [], p, l, x, id, p');
    assert [] + [x] == [x];
  }

  lemma FewerApart(inputs: seq<Input>, x: Input, pending: seq<Waiter>)
    requires RequestsApart(inputs + [x], pending)
    ensures RequestsApart(inputs, pending)
  {
    var all := inputs + [x];
    forall i | 0 <= i < |inputs| ensures inputs[i] == all[i] {}
  }

  lemma RequestHeard(l: Ledger, start: int, inputs: seq<Input>, p: Phase, l': Ledger, w: Waiter)
    requires p.h.origin.frame <= p.h.start && Heard(l, start, inputs, l', p.h.start)
    ensures Heard(l, start, inputs + [Request(w)], Requested(p.h.origin, p.h.used, p.h.start, l', w), p.h.start)
  {
    var all := inputs + [Request(w)];
    assert all[..|inputs|] == inputs && all[|inputs|] == Request(w);
    if RequestsApart(all, l.pending) && Prompt(l.pending, start) {
      FewerApart(inputs, Request(w), l.pending);
      forall x | x in l'.pending && 0 <= w.frame
        ensures x.frame != w.frame
      {
        if x !in l.pending {
          var i :| 0 <= i < |inputs| && inputs[i] == Request(x);
          assert all[i] == Request(x);
        }
      }
      PromptRequest(p.h.origin, p.h.used, p.h.start, l', w);
    }
  }

  // ----- the loop

  /** How far a run got, and what it made of the updater: its record by handler, and all of it by input. */
  datatype Trace = Trace(done: nat, groups: seq<seq<FrameBundle>>, states: seq<History>, p: Phase,
                         phases: seq<Phase>, books: seq<Ledger>)

  /** Every input made the round it makes in plain terms. */
  ghost predicate Logged(t: Trace, id: EngineId, p: Phase, l: Ledger, inputs: seq<Input>) {
    && t.done <= |inputs| && |t.phases| == |t.books| == t.done + 1
    && t.phases[0] == p && t.books[0] == l && t.phases[t.done] == t.p
    && forall i :: 0 <= i < t.done ==> RoundAt(t, id, inputs, i)
  }

  ghost predicate RoundAt(t: Trace, id: EngineId, inputs: seq<Input>, i: int)
    requires 0 <= i < |inputs| && i + 1 < |t.phases| && i + 1 < |t.books|
  {
    Round(id, t.phases[i], t.books[i], inputs[i], t.phases[i + 1], t.books[i + 1])
  }

  lemma LoggedNext(t: Trace, id: EngineId, p: Phase, l: Ledger, inputs: seq<Input>, p': Phase, l': Ledger)
    requires Logged(t, id, p, l, inputs) && t.done < |inputs|
    requires Round(id, t.p, t.books[t.done], inputs[t.done], p', l')
    ensures var t' := Longer(t, id, inputs[t.done], p', l');
      Logged(t', id, p, l, inputs) && t'.books[t'.done] == l'
  {
    var t' := Longer(t, id, inputs[t.done], p', l');
    forall i | 0 <= i < t'.done ensures RoundAt(t', id, inputs, i) {
      if i < t.done {
        assert RoundAt(t, id, inputs, i);
      }
    }
  }

  ghost predicate Tells(t: Trace, p: Phase, inputs: seq<Input>) {
    t.done <= |inputs| && Driven(p, inputs[..t.done], t.groups, t.states, t.p)
  }

  ghost function Longer(t: Trace, id: EngineId, x: Input, p: Phase, l: Ledger): Trace {
    Trace(t.done + 1, t.groups + t.p.Groups(id, x), t.states + (if t.p.Idle(x) then [] else [p.h]), p,
          t.phases + [p], t.books + [l])
  }

  ghost predicate TellsAll(t: Trace, p: Phase, l: Ledger, inputs: seq<Input>, l': Ledger) {
    Tells(t, p, inputs) && Heard(l, p.h.start, inputs[..t.done], l', t.p.h.start)
  }

  lemma TellsMore(t: Trace, p: Phase, l: Ledger, inputs: seq<Input>, l': Ledger, id: EngineId, p': Phase, l'': Ledger)
    requires TellsAll(t, p, l, inputs, l') && t.done < |inputs| && t.p.To(id, inputs[t.done], p')
    requires t.p.h.origin.frame <= t.p.h.start
    ensures TellsAll(Longer(t, id, inputs[t.done], p', l''), p, l, inputs, t.p.BooksAfter(l', inputs[t.done], p'.h))
  {
    assert inputs[..t.done + 1] == inputs[..t.done] + [inputs[t.done]];
    DrivenNext(p, inputs[..t.done], t.groups, t.states, t.p, id, inputs[t.done], p');
    HeardNext(l, p.h.start, inputs[..t.done], t.p, l', inputs[t.done], id, p');
  }

  /**
   * The updater's select loop: whatever comes, it makes a run of its record, and forgets nobody who asks for a
   * state. It only ever stops short on a joiner's first local bundle.
   */
  method Drive(u: Updater, inputs: seq<Input>) returns (ok: bool, ghost t: Trace)
    requires u.Valid() && Feasible(PhaseOf(u), u.id, u.frames.window.data.Length, inputs)
    modifies u, u.frames.repr
    ensures Tells(t, old(PhaseOf(u)), inputs)
    ensures Logged(t, u.id, old(PhaseOf(u)), old(u.Books()), inputs)
    ensures ok ==> t.books[t.done] == u.Books()
    ensures ok ==> t.done == |inputs| && u.Valid() && t.p == PhaseOf(u)
    ensures ok ==> Heard(old(u.Books()), old(u.frames.line.first), inputs, u.Books(), u.frames.line.first)
    ensures !ok ==> t.done < |inputs| && t.p.Stuck(inputs[t.done])
    ensures old(u.skipToFrame) == 0 ==> ok
    ensures forall o :: o in u.frames.repr ==> o in old(u.frames.repr) || fresh(o)
  {
    ghost var p, l := PhaseOf(u), u.Books();
    t := Begun(p, l);
    BeginsReached(u, inputs);
    var i := 0;
    while i < |inputs|
      invariant i == t.done && Reached(u, t, p, l, inputs)
      invariant forall o :: o in u.frames.repr ==> o in old(u.frames.repr) || fresh(o)
    {
      ok, t := DriveNext(u, i, t, p, l, inputs);
      if !ok {
        return;
      }
      i := i + 1;
    }
    AllTold(u, t, p, l, inputs);
    ok := true;
  }

  ghost function Begun(p: Phase, l: Ledger): Trace {
    Trace(0, [], [p.h], p, [p], [l])
  }

  lemma BeginsReached(u: Updater, inputs: seq<Input>)
    requires u.Valid() && Feasible(PhaseOf(u), u.id, u.frames.window.data.Length, inputs)
    ensures Reached(u, Begun(PhaseOf(u), u.Books()), PhaseOf(u), u.Books(), inputs)
  {
    assert inputs[0..] == inputs;
  }

  lemma AllTold(u: Updater, t: Trace, p: Phase, l: Ledger, inputs: seq<Input>)
    requires Reached(u, t, p, l, inputs) && t.done == |inputs|
    ensures u.Valid() && t.p == PhaseOf(u) && Tells(t, p, inputs)
    ensures Logged(t, u.id, p, l, inputs) && t.books[t.done] == u.Books()
    ensures Heard(l, p.h.start, inputs, u.Books(), u.frames.line.first)
  {
    assert inputs[..t.done] == inputs;
  }

  ghost predicate Reached(u: Updater, t: Trace, p: Phase, l: Ledger, inputs: seq<Input>)
    reads u, u.frames, u.frames.repr
  {
    && u.Valid() && t.p == PhaseOf(u) && TellsAll(t, p, l, inputs, u.Books())
    && Logged(t, u.id, p, l, inputs) && t.books[t.done] == u.Books()
    && Feasible(t.p, u.id, u.frames.window.data.Length, inputs[t.done..])
  }

  method DriveNext(u: Updater, i: nat, ghost t: Trace, ghost p: Phase, ghost l: Ledger, inputs: seq<Input>)
    returns (ok: bool, ghost t': Trace)
    requires i == t.done < |inputs| && Reached(u, t, p, l, inputs)
    modifies u, u.frames.repr
    ensures ok ==> t'.done == t.done + 1 && Reached(u, t', p, l, inputs)
    ensures Tells(t', p, inputs) && Logged(t', u.id, p, l, inputs)
    ensures !ok ==> t' == t && t.p.Stuck(inputs[i])
    ensures forall o :: o in u.frames.repr ==> o in old(u.frames.repr) || fresh(o)
  {
    ghost var books := u.Books();
    FeasibleNext(t.p, u.id, u.frames.window.data.Length, inputs, i);
    ok := DriveOne(u, inputs[i]);
    t' := t;
    if ok {
      TellsMore(t, p, l, inputs, books, u.id, PhaseOf(u), u.Books());
      LoggedNext(t, u.id, p, l, inputs, PhaseOf(u), u.Books());
      t' := Longer(t, u.id, inputs[i], PhaseOf(u), u.Books());
    }
  }

  // ----- how a joiner begins

  lemma {:induction false} OnceBegun(t: Trace, id: EngineId, p: Phase, l: Ledger, inputs: seq<Input>, i: nat, j: nat)
    requires Logged(t, id, p, l, inputs) && i <= j <= t.done && t.phases[i].skip == 0
    ensures t.phases[j].skip == 0
    decreases j
  {
    if i < j {
      OnceBegun(t, id, p, l, inputs, i, j - 1);
      assert RoundAt(t, id, inputs, j - 1);
    }
  }

  lemma {:induction false} SentGrows(t: Trace, id: EngineId, p: Phase, l: Ledger, inputs: seq<Input>, i: nat, j: nat)
    requires Logged(t, id, p, l, inputs) && i <= j <= t.done
    ensures t.books[i].sent <= t.books[j].sent
    decreases j
  {
    if i < j {
      SentGrows(t, id, p, l, inputs, i, j - 1);
      assert RoundAt(t, id, inputs, j - 1);
      RoundSends(id, t.phases[j - 1], t.books[j - 1], inputs[j - 1], t.phases[j], t.books[j]);
    }
  }

  lemma RoundSends(id: EngineId, p: Phase, l: Ledger, x: Input, p': Phase, l': Ledger)
    requires Round(id, p, l, x, p', l')
    ensures l.sent <= l'.sent
  {
  }

  /** Some bundle that came in says that the engine joined, on a frame above the start at that time. */
  ghost predicate Told(t: Trace, id: EngineId, inputs: seq<Input>, i: int)
    requires 0 <= i < |inputs| && i < |t.phases|
  {
    inputs[i].Others? && exists fb :: fb in inputs[i].group && TellsJoin(id, t.phases[i].h.start, fb)
  }

  /** An updater that began bootstrapping has no frame to begin on exactly as long as it was not told of its join. */
  lemma {:induction false} WaitsUntilTold(t: Trace, id: EngineId, p: Phase, l: Ledger, inputs: seq<Input>, j: nat)
    requires Logged(t, id, p, l, inputs) && j <= t.done && p.skip == -1 && -1 <= p.h.origin.frame
    ensures t.phases[j].h.origin == p.h.origin
    ensures t.phases[j].skip == -1 <==> forall i :: 0 <= i < j ==> !Told(t, id, inputs, i)
  {
    if j > 0 {
      WaitsUntilTold(t, id, p, l, inputs, j - 1);
      assert RoundAt(t, id, inputs, j - 1);
      var p0, p1 := t.phases[j - 1], t.phases[j];
      if inputs[j - 1].Others? {
        LearnsWhenTold(id, p0.h.start, inputs[j - 1].group, p0.skip, p1.skip);
      }
      assert p1.skip == -1 <==> p0.skip == -1 && !Told(t, id, inputs, j - 1);
    }
  }

  /**
   * Which local bundles an updater takes: none while it is not told of its join, none for a frame before the one it
   * is to begin on, and every other one. That is recorded with all its entries, broadcast, and never undone; from
   * the first on it is bootstrapping no more.
   */
  lemma TakesOwnExactly(t: Trace, id: EngineId, p: Phase, l: Ledger, inputs: seq<Input>, i: nat)
    requires Logged(t, id, p, l, inputs) && i < t.done && inputs[i].Own?
    ensures var skip, fb := t.phases[i].skip, inputs[i].fb;
      if skip == -1 || fb.frame < skip then t.phases[i + 1] == t.phases[i] && t.books[i + 1] == t.books[i]
      else
        && (forall j :: i < j <= t.done ==> t.phases[j].skip == 0)
        && t.phases[i + 1].local == fb.frame && Broadcast(fb) in t.books[t.done].sent
        && (t.phases[i].h.start < fb.frame ==>
              forall k :: k in fb.bundle ==> Holds(At(t.phases[i + 1].h.used, fb.frame), k, fb.bundle[k]))
  {
    var p0, p1, fb := t.phases[i], t.phases[i + 1], inputs[i].fb;
    assert RoundAt(t, id, inputs, i);
    if p0.skip != -1 && p0.skip <= fb.frame {
      forall j | i < j <= t.done ensures t.phases[j].skip == 0 {
        OnceBegun(t, id, p, l, inputs, i + 1, j);
      }
      SentGrows(t, id, p, l, inputs, i + 1, t.done);
      OwnIsSaid(t.books[i].id, p0.skip, fb, t.books[i].sent, t.books[i + 1].sent, t.books[t.done].sent);
      if p0.h.start < fb.frame {
        forall k | k in fb.bundle ensures Holds(At(p1.h.used, fb.frame), k, fb.bundle[k]) {
          OwnIsHeld(id, p0.skip, fb, p0.h, p1.h, k);
        }
      }
    }
  }

  lemma OwnIsSaid(id: EngineId, skip: int, fb: FrameBundle, before: seq<Sent>, after: seq<Sent>, later: seq<Sent>)
    requires Says(id, skip, fb, before, after) && after <= later
    ensures Broadcast(fb) in later
  {
    var n := if 0 < skip <= fb.frame then fb.frame - skip else 0;
    assert later[|before| + n] == after[|before| + n];
  }

  lemma OwnIsHeld(id: EngineId, skip: int, fb: FrameBundle, h: History, h': History, k: EngineId)
    requires Rounds.TakesOwn(id, skip, fb, h, h') && h.start < fb.frame && k in fb.bundle
    ensures Holds(At(h'.used, fb.frame), k, fb.bundle[k])
  {
    var fbs :| OwnBundles(id, skip, h.global, fb, fbs) && Absorbs(h, fbs, h') && Slides(h, h');
    assert fb in fbs && Holds(fb.bundle, k, fb.bundle[k]);
    assert AbsorbsAt(h, fbs, h', fb.frame, k, fb.bundle[k]);
  }
}
