/** Sizes of finite sets. */
module Sets {
  lemma {:induction false} SubsetSize<T>(a: set<T>, b: set<T>)
    requires a <= b
    ensures |a| <= |b|
    decreases |a|
  {
    if x :| x in a {
      SubsetSize(a - {x}, b - {x});
    }
  }

  lemma OneMore<T>(s: set<T>, more: set<T>, x: T)
    requires x !in s && forall y :: y in more <==> y in s || y == x
    ensures |more| == |s| + 1
  {
    assert more == s + {x};
  }
}
