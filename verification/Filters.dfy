/** Leaving out the elements that do nothing. */
module Filters {

  function Kept<T>(keep: T -> bool, s: seq<T>): seq<T> {
    if s == [] then []
    else
      var rest := Kept(keep, s[..|s| - 1]);
      if keep(s[|s| - 1]) then rest + [s[|s| - 1]] else rest
  }

  /** Applying the elements in order gives the same without those that are left out. */
  lemma {:induction false} KeptApply<S(!new), T(!new)>(
      apply: (S, T) -> S, all: (S, seq<T>) -> S, keep: T -> bool, x: S, s: seq<T>)
    requires forall y: S, t: seq<T> {:trigger all(y, t)} ::
          all(y, t) == if t == [] then y else apply(all(y, t[..|t| - 1]), t[|t| - 1])
    requires forall y: S, a: T :: !keep(a) ==> apply(y, a) == y
    ensures all(x, Kept(keep, s)) == all(x, s)
  {
    if s != [] {
      var before := s[..|s| - 1];
      KeptApply(apply, all, keep, x, before);
      var kept := Kept(keep, s);
      if keep(s[|s| - 1]) {
        assert kept[..|kept| - 1] == Kept(keep, before);
      }
    }
  }
}
