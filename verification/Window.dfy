/** The circular buffer of core/window_data.go. */
module Window {
  /** The place `k` steps on from `start` in a ring of `n`. */
  function Turned(start: nat, k: nat, n: nat): (index: nat)
    requires start < n && k < n
    ensures index < n
  {
    if start + k < n then start + k else start + k - n
  }

  class DataWindow<T> {
    var first: int
    var start: nat
    const data: array<T>

    /** The entries by position: entry `k` belongs to position `first + k`. */
    ghost var contents: seq<T>

    ghost predicate Valid()
      reads this, data
    {
      && start < data.Length == |contents|
      && forall pos :: InBounds(pos) ==> HoldsAt(pos)
    }

    ghost predicate HoldsAt(pos: int)
      requires start < data.Length == |contents| && InBounds(pos)
      reads this, data
    {
      data[Turned(start, pos - first, data.Length)] == contents[pos - first]
    }

    /** `make` fills the slice with the zero value. */
    constructor (n: nat, start: int, zero: T)
      requires 0 < n
      ensures Valid() && fresh(data)
      ensures data.Length == n && first == start
      ensures contents == seq(n, i => zero)
    {
      first := start;
      this.start := 0;
      data := new T[n](_ => zero);
      contents := seq(n, i => zero);
    }

    ghost predicate InBounds(pos: int)
      reads this
    {
      first <= pos < first + data.Length
    }

    function PosToIndex(pos: int): (index: nat)
      requires start < data.Length && InBounds(pos)
      reads this
      ensures index < data.Length
      ensures index == Turned(start, pos - first, data.Length)
      ensures index == start + (pos - first) || index == start + (pos - first) - data.Length
    {
      Wrap(start + (pos - first), data.Length);
      (start + (pos - first)) % data.Length
    }

    method Get(pos: int) returns (val: T)
      requires Valid() && InBounds(pos)
      ensures val == contents[pos - first]
    {
      assert HoldsAt(pos);
      var index := PosToIndex(pos);
      val := data[index];
    }

    method Set(pos: int, val: T)
      requires Valid() && InBounds(pos)
      modifies data, this`contents
      ensures Valid() && contents == old(contents)[pos - first := val]
    {
      var index := PosToIndex(pos);
      data[index] := val;
      contents := contents[pos - first := val];
      forall p | InBounds(p) ensures HoldsAt(p) {
        assert old(HoldsAt(p));
      }
    }

    function Start(): int
      reads this
    {
      first
    }

    function End(): int
      reads this
    {
      first + data.Length
    }

    /** The dropped entry stays in the buffer, as that of the new last position. */
    method Advance()
      requires Valid()
      modifies this
      ensures Valid() && first == old(first) + 1
      ensures contents == old(contents)[1..] + [old(contents)[0]]
    {
      first := first + 1;
      Wrap(start + 1, data.Length);
      start := (start + 1) % data.Length;
      contents := contents[1..] + [contents[0]];
      forall p | InBounds(p) ensures HoldsAt(p) {
        ghost var was := if p < first - 1 + data.Length then p else first - 1;
        assert old(HoldsAt(was));
      }
    }
  }

  lemma Wrap(k: nat, n: nat)
    requires 0 < n && k < 2 * n
    ensures k % n == if k < n then k else k - n
  {
    if k >= n {
      assert k == n + (k - n);
    }
  }

  /** Live positions never share a slot of the buffer. */
  lemma PositionsApart<T>(w: DataWindow<T>, pos: int, pos': int)
    requires w.Valid() && w.InBounds(pos) && w.InBounds(pos')
    ensures w.PosToIndex(pos) == w.PosToIndex(pos') <==> pos == pos'
  {
  }
}
