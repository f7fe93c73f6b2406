/** Facts about finite sets and lists. */
module Collections {

  function Elements<T>(s: seq<T>): set<T> {
    set x | x in s
  }

  lemma SubsetSize<T>(a: set<T>, b: set<T>)
    requires a <= b
    ensures |a| <= |b|
    ensures |a| == |b| ==> a == b
  {
    assert b == a + (b - a);
  }
}
