/**
 * The swap-remove loop. The updater runs it over the final state requests and the communicator over the
 * bootstrapping connections: both lists hold who waits for which frame.
 */
module Sweep {

  datatype Waiter = Waiter(who: int, frame: int)

  /** What one pass from index `i` takes out, in order, and what it leaves. */
  function Swept(ws: seq<Waiter>, frame: int, i: nat): (r: (seq<Waiter>, seq<Waiter>))
    requires i <= |ws| + 1
    decreases |ws| + 1 - i
  {
    if i >= |ws| then ([], ws)
    else if ws[i].frame == frame then
      var (taken, left) := Swept(SwapRemoved(ws, i), frame, i + 1);
      ([ws[i]] + taken, left)
    else Swept(ws, frame, i + 1)
  }

  /** The last entry moves into the hole; the pass goes on behind it without looking at it. */
  function SwapRemoved(ws: seq<Waiter>, i: nat): (ws': seq<Waiter>)
    requires i < |ws|
    ensures |ws'| == |ws| - 1
  {
    ws[i := ws[|ws| - 1]][..|ws| - 1]
  }

  function Waiting(ws: seq<Waiter>, frame: int): nat {
    if ws == [] then 0 else Waiting(ws[..|ws| - 1], frame) + if ws[|ws| - 1].frame == frame then 1 else 0
  }

  lemma {:induction false} SwapRemovedConserves(ws: seq<Waiter>, i: nat)
    requires i < |ws|
    ensures multiset(ws) == multiset(SwapRemoved(ws, i)) + multiset{ws[i]}
  {
    var last := ws[|ws| - 1];
    var ws' := ws[i := last];
    assert ws == ws[..|ws| - 1] + [last];
    assert ws' == ws'[..|ws| - 1] + [last];
    assert multiset(ws') == multiset(ws) - multiset{ws[i]} + multiset{last};
  }

  /** Nobody is lost and nobody is served twice. */
  lemma {:induction false} SweepConserves(ws: seq<Waiter>, frame: int, i: nat)
    requires i <= |ws| + 1
    ensures multiset(Swept(ws, frame, i).0) + multiset(Swept(ws, frame, i).1) == multiset(ws)
    decreases |ws| + 1 - i
  {
    if i < |ws| {
      if ws[i].frame == frame {
        SweepConserves(SwapRemoved(ws, i), frame, i + 1);
        SwapRemovedConserves(ws, i);
        var taken := Swept(SwapRemoved(ws, i), frame, i + 1).0;
        assert multiset([ws[i]] + taken) == multiset{ws[i]} + multiset(taken);
      } else {
        SweepConserves(ws, frame, i + 1);
      }
    }
  }

  /** Only those who wait for the frame are served. */
  lemma {:induction false} SweptWaited(ws: seq<Waiter>, frame: int, i: nat)
    requires i <= |ws| + 1
    ensures forall w :: w in Swept(ws, frame, i).0 ==> w.frame == frame
    decreases |ws| + 1 - i
  {
    if i < |ws| {
      if ws[i].frame == frame {
        SweptWaited(SwapRemoved(ws, i), frame, i + 1);
      } else {
        SweptWaited(ws, frame, i + 1);
      }
    }
  }

  /** Whoever waits for another frame stays in the list. */
  lemma OthersStay(ws: seq<Waiter>, frame: int, w: Waiter)
    requires w in ws && w.frame != frame
    ensures w in Swept(ws, frame, 0).1
  {
    SweepConserves(ws, frame, 0);
    SweptWaited(ws, frame, 0);
    assert w in multiset(ws);
    assert w in multiset(Swept(ws, frame, 0).0) || w in multiset(Swept(ws, frame, 0).1);
  }

  // ----- exactly when the pass misses nobody

  ghost predicate MissesNobody(ws: seq<Waiter>, frame: int, i: nat)
    requires i <= |ws| + 1
  {
    forall w :: w in Swept(ws, frame, i).1 ==> w.frame != frame
  }

  /** Of the `n` that wait for the frame none stands among the last `n - 1`. */
  ghost predicate TailClear(ws: seq<Waiter>, frame: int, from: nat) {
    forall k :: from <= k < |ws| && ws[k].frame == frame ==> k + Waiting(ws, frame) <= |ws|
  }

  ghost predicate HeadClear(ws: seq<Waiter>, frame: int, i: nat) {
    forall k :: 0 <= k < i && k < |ws| ==> ws[k].frame != frame
  }

  lemma {:induction false} WaitingSplit(a: seq<Waiter>, b: seq<Waiter>, frame: int)
    ensures Waiting(a + b, frame) == Waiting(a, frame) + Waiting(b, frame)
  {
    if b == [] {
      assert a + b == a;
    } else {
      WaitingSplit(a, b[..|b| - 1], frame);
      assert (a + b)[..|a + b| - 1] == a + b[..|b| - 1];
    }
  }

  lemma WaitingOne(w: Waiter, frame: int)
    ensures Waiting([w], frame) == if w.frame == frame then 1 else 0
  {
    assert [w][..0] == [];
  }

  lemma {:induction false} WaitingSome(ws: seq<Waiter>, frame: int, k: nat)
    requires k < |ws| && ws[k].frame == frame
    ensures 1 <= Waiting(ws, frame)
    ensures k < |ws| - 1 && ws[|ws| - 1].frame == frame ==> 2 <= Waiting(ws, frame)
  {
    assert ws == ws[..k] + ([ws[k]] + ws[k + 1..]);
    WaitingSplit(ws[..k], [ws[k]] + ws[k + 1..], frame);
    WaitingSplit([ws[k]], ws[k + 1..], frame);
    WaitingOne(ws[k], frame);
  }

  lemma {:induction false} WaitingNone(ws: seq<Waiter>, frame: int)
    requires forall w :: w in ws ==> w.frame != frame
    ensures Waiting(ws, frame) == 0
  {
    if ws != [] {
      WaitingNone(ws[..|ws| - 1], frame);
    }
  }

  lemma WaitingAround(ws: seq<Waiter>, i: nat, frame: int)
    requires i < |ws|
    ensures Waiting(ws, frame) == Waiting(ws[..i], frame) + Waiting([ws[i]], frame) + Waiting(ws[i + 1..], frame)
  {
    assert ws == ws[..i] + ([ws[i]] + ws[i + 1..]);
    WaitingSplit(ws[..i], [ws[i]] + ws[i + 1..], frame);
    WaitingSplit([ws[i]], ws[i + 1..], frame);
  }

  lemma SwapRemovedParts(ws: seq<Waiter>, i: nat)
    requires i < |ws| - 1
    ensures SwapRemoved(ws, i)[..i] == ws[..i] && SwapRemoved(ws, i)[i] == ws[|ws| - 1]
    ensures ws[i + 1..] == SwapRemoved(ws, i)[i + 1..] + [ws[|ws| - 1]]
  {
  }

  lemma WaitingSwapRemoved(ws: seq<Waiter>, i: nat, frame: int)
    requires i < |ws| && ws[i].frame == frame
    ensures Waiting(SwapRemoved(ws, i), frame) == Waiting(ws, frame) - 1
  {
    var n, ws' := |ws|, SwapRemoved(ws, i);
    var last := ws[n - 1];
    WaitingAround(ws, i, frame);
    WaitingOne(ws[i], frame);
    if i < n - 1 {
      SwapRemovedParts(ws, i);
      WaitingAround(ws', i, frame);
      WaitingSplit(ws'[i + 1..], [last], frame);
    } else {
      assert ws' == ws[..i] && ws[i + 1..] == [];
    }
  }

  /** Entries the pass has moved behind itself are never looked at again. */
  lemma {:induction false} BehindStays(ws: seq<Waiter>, frame: int, i: nat, k: nat)
    requires k < i <= |ws| + 1 && k < |ws|
    ensures ws[k] in Swept(ws, frame, i).1
    decreases |ws| + 1 - i
  {
    if i < |ws| {
      if ws[i].frame == frame {
        BehindStays(SwapRemoved(ws, i), frame, i + 1, k);
      } else {
        BehindStays(ws, frame, i + 1, k);
      }
    }
  }

  lemma {:induction false} SweepExactFrom(ws: seq<Waiter>, frame: int, i: nat)
    requires i <= |ws| + 1 && HeadClear(ws, frame, i)
    ensures MissesNobody(ws, frame, i) <==> TailClear(ws, frame, i)
    decreases |ws| + 1 - i
  {
    var n := |ws|;
    if i >= n {
    } else if ws[i].frame != frame {
      SweepExactFrom(ws, frame, i + 1);
    } else {
      var ws' := SwapRemoved(ws, i);
      WaitingSwapRemoved(ws, i, frame);
      WaitingSome(ws, frame, i);
      if i < n - 1 && ws[n - 1].frame == frame {
        BehindStays(ws', frame, i + 1, i);
        assert ws'[i] == ws[n - 1];
        assert n - 1 + Waiting(ws, frame) > n;
      } else {
        SweepExactFrom(ws', frame, i + 1);
        assert forall k :: i < k < n - 1 ==> ws'[k] == ws[k];
        if i == n - 1 {
          assert ws' == ws[..n - 1];
          WaitingNone(ws', frame);
        } else {
          TailClearShift(ws, ws', frame, i);
        }
      }
    }
  }

  lemma TailClearShift(ws: seq<Waiter>, ws': seq<Waiter>, frame: int, i: nat)
    requires i < |ws| - 1 && |ws'| == |ws| - 1 && ws[i].frame == frame && ws[|ws| - 1].frame != frame
    requires HeadClear(ws', frame, i + 1)
    requires forall k :: i < k < |ws'| ==> ws'[k] == ws[k]
    requires Waiting(ws', frame) == Waiting(ws, frame) - 1
    ensures TailClear(ws, frame, i) <==> TailClear(ws', frame, i + 1)
  {
    if TailClear(ws', frame, i + 1) {
      if Waiting(ws', frame) > 0 {
        var k := WaitingFound(ws', frame);
      }
      assert i + Waiting(ws, frame) <= |ws|;
    }
  }

  lemma {:induction false} WaitingFound(ws: seq<Waiter>, frame: int) returns (k: nat)
    requires Waiting(ws, frame) > 0
    ensures k < |ws| && ws[k].frame == frame
  {
    if ws[|ws| - 1].frame == frame {
      k := |ws| - 1;
    } else {
      k := WaitingFound(ws[..|ws| - 1], frame);
    }
  }

  /**
   * The pass serves everyone who waits for the frame exactly if, with `n` of them waiting, none stands among
   * the last `n - 1` entries of the list. A single one is always served.
   */
  lemma SweepExact(ws: seq<Waiter>, frame: int)
    ensures MissesNobody(ws, frame, 0)
       <==> forall k :: 0 <= k < |ws| && ws[k].frame == frame ==> k <= |ws| - Waiting(ws, frame)
  {
    SweepExactFrom(ws, frame, 0);
  }

  /** Two that wait for one frame, and the second is passed over. */
  lemma SecondIsPassedOver(a: int, b: int, frame: int)
    ensures Swept([Waiter(a, frame), Waiter(b, frame)], frame, 0) == ([Waiter(a, frame)], [Waiter(b, frame)])
  {
    var ws := [Waiter(a, frame), Waiter(b, frame)];
    assert Swept([Waiter(b, frame)], frame, 1) == ([], [Waiter(b, frame)]);
    assert SwapRemoved(ws, 0) == [Waiter(b, frame)] && 0 + 1 == 1;
    assert [ws[0]] + [] == [Waiter(a, frame)];
  }

  // ----- lists without duplicates

  ghost predicate Distinct(ws: seq<Waiter>) {
    forall i, j :: 0 <= i < j < |ws| ==> ws[i].frame != ws[j].frame
  }

  lemma {:induction false} DistinctCounts(ws: seq<Waiter>, frame: int)
    requires Distinct(ws)
    ensures Waiting(ws, frame) <= 1
  {
    if ws != [] {
      var rest := ws[..|ws| - 1];
      DistinctCounts(rest, frame);
      if ws[|ws| - 1].frame == frame {
        WaitingNone(rest, frame);
      }
    }
  }

  lemma {:induction false} SweptDistinct(ws: seq<Waiter>, frame: int, i: nat)
    requires i <= |ws| + 1 && Distinct(ws)
    ensures Distinct(Swept(ws, frame, i).1)
    decreases |ws| + 1 - i
  {
    if i < |ws| {
      if ws[i].frame == frame {
        SweptDistinct(SwapRemoved(ws, i), frame, i + 1);
      } else {
        SweptDistinct(ws, frame, i + 1);
      }
    }
  }

  lemma DistinctMissesNobody(ws: seq<Waiter>, frame: int)
    requires Distinct(ws)
    ensures MissesNobody(ws, frame, 0) && Distinct(Swept(ws, frame, 0).1)
  {
    DistinctCounts(ws, frame);
    SweepExact(ws, frame);
    SweptDistinct(ws, frame, 0);
  }

  lemma LeftWasThere(ws: seq<Waiter>, frame: int, w: Waiter)
    requires w in Swept(ws, frame, 0).1
    ensures w in ws
  {
    SweepConserves(ws, frame, 0);
    assert w in multiset(Swept(ws, frame, 0).1);
    assert w in multiset(ws);
  }
}
