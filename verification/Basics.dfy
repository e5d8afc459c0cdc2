module Basics {
  datatype Option<+T> = None | Some(value: T)

  /** Clock units per second. */
  const SECOND: nat := 1000

  lemma {:induction false} SubsetSize<T>(a: set<T>, b: set<T>)
    requires a <= b
    ensures |a| <= |b|
    decreases a
  {
    if a != {} {
      var x :| x in a;
      SubsetSize(a - {x}, b - {x});
    }
  }
}
