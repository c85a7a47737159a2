/** Shared vocabulary. */
module Prelude {
  datatype Option<+T> = None | Some(value: T)

  /** Points in time; zero stands for one that has not come yet. Readings of the clock that mark an
      ending are required to be positive where it matters. */
  type Time = t: real | t >= 0.0 witness 0.0

  lemma {:induction false} SubsetSize<T>(a: set<T>, b: set<T>)
    requires a <= b
    ensures |a| <= |b|
  {
    if x :| x in a {
      SubsetSize(a - {x}, b - {x});
    }
  }

  lemma SmallerSet<T>(a: set<T>, b: set<T>)
    requires a < b
    ensures |a| < |b|
  {
    var x :| x in b && x !in a;
    SubsetSize(a, b - {x});
  }
}
