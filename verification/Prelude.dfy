/** Shared helpers: Go's nil-or-value results, and finite-set counting. */
module Prelude {
  datatype Option<+T> = None | Some(value: T)

  /** A subset is no larger, and a subset of the same size is the whole set. */
  lemma {:induction false} SubsetSize<T>(a: set<T>, b: set<T>)
    requires a <= b
    ensures |a| <= |b|
    ensures |a| == |b| ==> a == b
  {
    if a != {} {
      var x :| x in a;
      SubsetSize(a - {x}, b - {x});
      if |a| == |b| {
        assert a == (a - {x}) + {x} && b == (b - {x}) + {x};
      }
    }
  }

  function Max(x: int, y: int): int {
    if x < y then y else x
  }
}
