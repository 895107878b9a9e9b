/** What several modules need of optional values and finite sets. */
module Options {
  datatype Option<+X> = None | Some(value: X)
}

module Collections {
  /** Go's map iteration yields the keys in any order: this is one of them. */
  method SomeElement<X(==)>(s: set<X>) returns (x: X)
    requires s != {}
    ensures x in s
  {
    assert (forall y :: y !in s) ==> s == {};
    x :| x in s;
  }

  lemma {:induction false} Fewer<X>(a: set<X>, b: set<X>)
    requires a <= b
    ensures |a| <= |b|
  {
    assert b == a + (b - a);
  }
}
