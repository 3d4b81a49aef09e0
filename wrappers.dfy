/** Option values for the source's None returns, and facts about sequences. */
module Wrappers {

  datatype Option<+T> = None | Some(value: T)

  /** True when no element occurs twice in `s`. */
  predicate NoDup<T(==)>(s: seq<T>)
  {
    forall i, j :: 0 <= i < j < |s| ==> s[i] != s[j]
  }

  /** `a` is an initial segment of `b`. */
  predicate IsPrefix<T(==)>(a: seq<T>, b: seq<T>)
  {
    |a| <= |b| && b[..|a|] == a
  }

  /** `a` is an initial segment of `b` and strictly shorter. */
  predicate StrictPrefix<T(==)>(a: seq<T>, b: seq<T>)
  {
    |a| < |b| && b[..|a|] == a
  }

  lemma NoDupSnoc<T>(s: seq<T>, x: T)
    requires NoDup(s) && x !in s
    ensures NoDup(s + [x])
  {
  }
}
