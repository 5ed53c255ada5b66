/**
 * Whole runs of one or two updaters: any sequence of handlers, each taking in a group of bundles that is a
 * remote group, or a local bundle with its fillers, or nothing.
 */
module Runs {
  import opened Bundles
  import opened Replay
  import opened Agreement
  import opened Updaters

  /** The record before and after each handler. */
  datatype Run = Run(origin: Origin, groups: seq<seq<FrameBundle>>, states: seq<History>)
  {
    ghost predicate Valid() {
      Linked(groups, states) && states[0] == Unplayed(origin)
    }

    ghost function Last(): History
      requires Valid()
    {
      states[|groups|]
    }

    /** Everything taken in, laid end to end. */
    ghost function Schedule(): seq<FrameBundle> {
      Concat(groups)
    }
  }

  ghost predicate Linked(groups: seq<seq<FrameBundle>>, states: seq<History>) {
    |states| == |groups| + 1 && forall i :: 0 <= i < |groups| ==> LinkedAt(groups, states, i)
  }

  ghost predicate LinkedAt(groups: seq<seq<FrameBundle>>, states: seq<History>, i: int)
    requires 0 <= i < |groups| && |states| == |groups| + 1
  {
    StepsTo(states[i], groups[i], states[i + 1])
  }

  ghost function Concat(groups: seq<seq<FrameBundle>>): seq<FrameBundle> {
    if groups == [] then [] else Concat(groups[..|groups| - 1]) + groups[|groups| - 1]
  }

  /** Everything comes from the one table of what each engine emits on each frame. */
  ghost predicate FromTable(fbs: seq<FrameBundle>, table: Log) {
    forall fb :: fb in fbs ==> SubBundle(fb.bundle, At(table, fb.frame))
  }

  lemma StepSettles(h: History, fbs: seq<FrameBundle>, h': History)
    requires Recorded(h) && StepsTo(h, fbs, h')
    ensures Settled(h') && h'.origin == h.origin && h.start <= h'.start && h.global <= h'.global
    ensures h'.delivered == MergeAll(h.delivered, fbs)
  {
    DeliverAllRecorded(h, fbs);
    AdvanceSettles(DeliverAll(h, fbs), h'.start);
    DeliverAllGrows(h, fbs);
  }

  /** After every handler the record is settled, and has all that was handed over, whatever was discarded. */
  lemma {:induction false} RunSettles(r: Run, i: nat)
    requires r.Valid() && i <= |r.groups|
    ensures Rested(r.states[i]) && r.states[i].origin == r.origin
    ensures i > 0 ==> Settled(r.states[i])
    ensures r.states[i].delivered == MergeAll(map[], Concat(r.groups[..i]))
  {
    if i > 0 {
      RunSettles(r, i - 1);
      assert LinkedAt(r.groups, r.states, i - 1);
      StepSettles(r.states[i - 1], r.groups[i - 1], r.states[i]);
      MergeAllAppend(map[], Concat(r.groups[..i - 1]), r.groups[i - 1]);
      assert r.groups[..i][..i - 1] == r.groups[..i - 1];
    }
  }

  /** Finality over a run: the start never falls back, and no later handler changes a final world. */
  lemma {:induction false} FinalStaysFinal(r: Run, i: nat, j: nat, f: int)
    requires r.Valid() && i <= j <= |r.groups|
    requires r.origin.frame <= f <= r.states[i].start
    ensures r.states[j].origin == r.origin == r.states[i].origin && r.states[i].start <= r.states[j].start
    ensures r.states[j].WorldAt(f) == r.states[i].WorldAt(f)
    decreases j
  {
    RunSettles(r, i);
    if i < j {
      FinalStaysFinal(r, i, j - 1, f);
      RunSettles(r, j - 1);
      assert LinkedAt(r.groups, r.states, j - 1);
      StepSettles(r.states[j - 1], r.groups[j - 1], r.states[j]);
      FinalWorldsStand(r.states[j - 1], r.groups[j - 1], f);
    }
  }

  lemma {:induction false} ConcatPrefix(groups: seq<seq<FrameBundle>>, i: nat)
    requires i <= |groups|
    ensures forall fb :: fb in Concat(groups[..i]) ==> fb in Concat(groups)
  {
    if i < |groups| {
      ConcatPrefix(groups[..|groups| - 1], i);
      assert groups[..|groups| - 1][..i] == groups[..i];
    } else {
      assert groups[..i] == groups;
    }
  }

  lemma {:induction false} MergeWithin(fbs: seq<FrameBundle>, table: Log)
    requires FromTable(fbs, table)
    ensures Within(MergeAll(map[], fbs), table)
  {
    if fbs != [] {
      var rest, last := fbs[..|fbs| - 1], fbs[|fbs| - 1];
      assert fbs == rest + [last];
      MergeWithin(rest, table);
    }
  }

  lemma RunLawful(r: Run, table: Log, i: nat)
    requires r.Valid() && i <= |r.groups| && FromTable(r.Schedule(), table)
    requires Governed(r.origin, table) && Peopled(r.origin)
    ensures Settled(r.states[i]) && Lawful(r.states[i], table) && r.states[i].origin == r.origin
  {
    RunSettles(r, i);
    RestedSettles(r.states[i]);
    ConcatPrefix(r.groups, i);
    MergeWithin(Concat(r.groups[..i]), table);
  }

  /**
   * Safety over runs: whatever an updater finalises, after whichever handlers, is what a replay of the whole
   * table gives.
   */
  lemma EveryFinalWorldIsCanonical(r: Run, table: Log, i: nat, f: int)
    requires r.Valid() && i <= |r.groups| && FromTable(r.Schedule(), table)
    requires Governed(r.origin, table) && Peopled(r.origin)
    requires r.origin.frame <= f <= r.states[i].start
    ensures r.states[i].origin == r.origin && r.states[i].WorldAt(f) == Canonical(r.origin, table, f)
  {
    RunLawful(r, table, i);
    FinalIsCanonical(r.states[i], table, f);
  }

  /** Two runs from the same world, on whatever parts of one table, never finalise a frame differently. */
  lemma RunsAgree(r: Run, q: Run, table: Log, i: nat, j: nat, f: int)
    requires r.Valid() && i <= |r.groups| && FromTable(r.Schedule(), table)
    requires Governed(r.origin, table) && Peopled(r.origin)
    requires q.Valid() && j <= |q.groups| && FromTable(q.Schedule(), table)
    requires Plain(q.origin) == Plain(r.origin) && Peopled(q.origin)
    requires r.origin.frame <= f <= r.states[i].start && f <= q.states[j].start
    ensures r.states[i].origin == r.origin && q.states[j].origin == q.origin
    ensures r.states[i].WorldAt(f) == q.states[j].WorldAt(f)
  {
    SameGovernance(r.origin, q.origin, table);
    EveryFinalWorldIsCanonical(r, table, i, f);
    EveryFinalWorldIsCanonical(q, table, j, f);
  }

  lemma SameGovernance(o: Origin, o': Origin, table: Log)
    requires Governed(o, table) && Plain(o') == Plain(o)
    ensures Governed(o', table)
  {
    forall f | o'.frame < f ensures GovernedAt(o', table, f) {
      assert GovernedAt(o, table, f);
    }
  }

  /**
   * Two runs that were handed the same bundles, in any order, cut into any groups, with any handlers in
   * between, end in the same state: same start, same newest frame, same worlds and bundles, also speculative
   * ones.
   */
  lemma RunsConverge(r: Run, q: Run, table: Log)
    requires r.Valid() && FromTable(r.Schedule(), table) && Governed(r.origin, table) && Peopled(r.origin)
    requires q.Valid() && q.origin == r.origin && OncePerEngine(r.Schedule()) && OncePerEngine(q.Schedule())
    requires forall fb :: fb in r.Schedule() <==> fb in q.Schedule()
    ensures r.Last().start == q.Last().start && r.Last().global == q.Last().global
    ensures r.Last().origin == q.Last().origin == r.origin
    ensures forall f :: r.origin.frame <= f ==> r.Last().WorldAt(f) == q.Last().WorldAt(f)
    ensures forall f :: r.Last().start < f ==> At(r.Last().used, f) == At(q.Last().used, f)
  {
    RunLawful(r, table, |r.groups|);
    RunLawful(q, table, |q.groups|);
    RunSettles(r, |r.groups|);
    RunSettles(q, |q.groups|);
    assert r.groups[..|r.groups|] == r.groups && q.groups[..|q.groups|] == q.groups;
    SchedulesConverge(r.Last(), q.Last(), table, r.Schedule(), q.Schedule());
  }
}
