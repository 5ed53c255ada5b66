/** How a joiner catches up: what its first local bundle does for the frames since it joined. */
module CatchUp {
  import opened Membership
  import opened Bundles
  import opened Replay
  import opened Agreement
  import opened Outbox
  import opened Updaters
  import opened Runs

  /** Fillers supply the known frames of [a, b), and no others. */
  lemma {:induction false} FilledWhere(h: History, l: Ledger, a: int, b: int, f: int)
    requires h.start < a
    ensures l.id in At(Filled(h, l, a, b).0.used, f) <==> l.id in At(h.used, f) || (a <= f < b && f <= h.global)
    decreases b - a
  {
    if a < b {
      FilledWhere(h, l, a, b - 1, f);
    }
  }

  ghost predicate Supplied(used: Log, id: EngineId, a: int, b: int) {
    forall f :: a <= f <= b ==> id in At(used, f)
  }

  /**
   * A joiner's first local bundle leaves every frame since it joined with an entry of its own exactly if the
   * bundle is at most one frame beyond the known ones. Further ahead, what was filled in is wiped when the
   * frames are opened.
   */
  lemma FillersArriveExactly(h: History, l: Ledger, skip: int, fb: FrameBundle)
    requires FreeFrom(h, l.id, skip) && h.start < skip && 0 < skip <= fb.frame && l.id in fb.bundle
    ensures var h' := DeliverAll(h, LocalBundles(l.id, skip, h.global, fb));
      Supplied(h'.used, l.id, skip, fb.frame) <==> fb.frame <= h.global + 1
  {
    var h' := DeliverAll(h, LocalBundles(l.id, skip, h.global, fb));
    forall f | skip <= f <= fb.frame
      ensures l.id in At(h'.used, f) <==> f <= h.global || f == fb.frame
    {
      LocalWhere(h, l, skip, fb, f);
    }
    if h.global + 1 < fb.frame {
      assert l.id !in At(h'.used, h.global + 1);
    }
  }

  lemma LocalWhere(h: History, l: Ledger, skip: int, fb: FrameBundle, f: int)
    requires FreeFrom(h, l.id, skip) && h.start < skip && 0 < skip <= fb.frame && l.id in fb.bundle
    requires skip <= f <= fb.frame
    ensures l.id in At(DeliverAll(h, LocalBundles(l.id, skip, h.global, fb)).used, f)
       <==> f <= h.global || f == fb.frame
  {
    var h' := Filled(h, l, skip, fb.frame).0;
    LocalBundlesSnoc(h, l, skip, fb);
    DeliverAt(h', fb, f);
    FilledWhere(h, l, skip, fb.frame, f);
    assert Silent(h.used, l.id, f);
  }

  /** Nothing but an entry of the engine itself supplies one. */
  lemma {:induction false} StaysUnsupplied(h: History, fbs: seq<FrameBundle>, id: EngineId, g: int)
    requires id !in At(h.used, g)
    requires forall fb :: fb in fbs && fb.frame == g ==> id !in fb.bundle
    ensures id !in At(DeliverAll(h, fbs).used, g)
  {
    if fbs != [] {
      var rest, last := fbs[..|fbs| - 1], fbs[|fbs| - 1];
      assert fbs == rest + [last];
      StaysUnsupplied(h, rest, id, g);
    }
  }

  ghost predicate NeverSupplied(groups: seq<seq<FrameBundle>>, id: EngineId, g: int) {
    forall k, fb :: 0 <= k < |groups| && fb in groups[k] && fb.frame == g ==> id !in fb.bundle
  }

  /**
   * An updater that has lost its own entry for a frame never gets past it: as no engine supplies a frame
   * twice, nothing makes up for it, and the frame waits as long as the engine is one of its members.
   */
  lemma {:induction false} LostFrameIsNeverFinal(r: Run, i: nat, j: nat, id: EngineId, g: int)
    requires r.Valid() && i <= j <= |r.groups| && r.origin.frame < g
    requires id !in At(r.states[i].used, g) && NeverSupplied(r.groups[i..], id, g)
    ensures id !in At(r.states[j].used, g) && r.states[j].origin == r.origin
    ensures id in r.states[j].WorldAt(g).members ==> r.states[j].start < g
    decreases j
  {
    RunSettles(r, j);
    if i < j {
      LostFrameIsNeverFinal(r, i, j - 1, id, g);
      assert LinkedAt(r.groups, r.states, j - 1);
      assert r.groups[i..][j - 1 - i] == r.groups[j - 1];
      StaysUnsupplied(r.states[j - 1], r.groups[j - 1], id, g);
    }
    assert RecordedAt(r.states[j], g);
  }
}
