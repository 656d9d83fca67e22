/** Counting lemmas about finite sets. */
module Sets {

  lemma SubsetSize<T>(a: set<T>, b: set<T>)
    requires a <= b
    ensures |a| <= |b|
    ensures |a| == |b| ==> a == b
  {
    assert b == a + (b - a);
  }

  /** The integers from 0 up to `n`. */
  function Range(n: int): (r: set<int>)
    ensures forall k :: k in r <==> 0 <= k < n
    ensures |r| == if n <= 0 then 0 else n
    decreases n
  {
    if n <= 0 then {} else Range(n - 1) + {n - 1}
  }

  /** A set that maps one-to-one into the integers below `n` has at most `n` elements. */
  lemma {:induction false} InjectionBound<T>(a: set<T>, f: map<T, int>, n: int)
    requires forall x :: x in a ==> x in f && 0 <= f[x] < n
    requires forall x, y :: x in a && y in a && x != y ==> f[x] != f[y]
    ensures |a| <= if n <= 0 then 0 else n
  {
    var image := Image(a, f);
    SubsetSize(image, Range(n));
  }

  ghost function Image<T>(a: set<T>, f: map<T, int>): (r: set<int>)
    requires forall x :: x in a ==> x in f
    requires forall x, y :: x in a && y in a && x != y ==> f[x] != f[y]
    ensures |r| == |a|
    ensures forall k :: k in r <==> exists x :: x in a && f[x] == k
    decreases |a|
  {
    if a == {} then {} else
      var x :| x in a;
      Image(a - {x}, f) + {f[x]}
  }
}
