/** Sizes of sets. */
module Sets {
  lemma {:induction false} SubsetSize<T>(a: set<T>, b: set<T>)
    requires a <= b
    ensures |a| <= |b|
  {
    if a != {} {
      var x :| x in a;
      SubsetSize(a - {x}, b - {x});
    }
  }

  /** A function that never gives the same value twice cannot shrink a set. */
  lemma {:induction false} InjectiveSize<A, B>(a: set<A>, b: set<B>, f: map<A, B>)
    requires a <= f.Keys && (forall x :: x in a ==> f[x] in b) &&
        (forall x, y :: x in a && y in a && f[x] == f[y] ==> x == y)
    ensures |a| <= |b|
    decreases |a|
  {
    if a != {} {
      var x :| x in a;
      InjectiveSize(a - {x}, b - {f[x]}, f);
    }
  }
}
