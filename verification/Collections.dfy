/** Choice and extensionality for sets and maps, stated once for every element type. */
module Collections {

  ghost function Pick<T>(s: set<T>): (x: T)
    requires s != {}
    ensures x in s
  {
    var x :| x in s;
    x
  }

  lemma SubsetSize<T>(a: set<T>, b: set<T>)
    requires a <= b
    ensures |a| <= |b|
    ensures |a| == |b| ==> a == b
  {
    assert b == a + (b - a);
  }

  lemma NothingShared<T>(a: set<T>, b: set<T>, s: set<T>)
    requires s <= a && s <= b && a !! b
    ensures s == {}
  {
    assert s <= a * b;
  }
}
