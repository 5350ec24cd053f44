// Sizes of finite sets.
module Sets {
  lemma {:induction false} SubsetSize<T>(a: set<T>, b: set<T>)
    requires a <= b
    ensures |a| <= |b|
  {
    if a != {} {
      var x :| x in a;
      SubsetSize(a - {x}, b - {x});
    }
  }

  lemma {:induction false} FullSubset<T>(a: set<T>, b: set<T>)
    requires a <= b && |a| == |b|
    ensures a == b
  {
    if b != {} {
      var x :| x in b;
      if x in a {
        FullSubset(a - {x}, b - {x});
      } else {
        SubsetSize(a, b - {x});
      }
    }
  }
}
