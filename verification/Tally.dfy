/** Adding up a weight over a sequence; the order of the elements does not matter. */
module Tally {

  function Total<T>(w: T -> nat, s: seq<T>): nat {
    if s == [] then 0 else w(s[0]) + Total(w, s[1..])
  }

  lemma {:induction false} TotalSum<T>(w: T -> nat, s: seq<T>, t: seq<T>)
    ensures Total(w, s + t) == Total(w, s) + Total(w, t)
  {
    if s == [] {
      assert s + t == t;
    } else {
      TotalSum(w, s[1..], t);
      assert (s + t)[1..] == s[1..] + t;
    }
  }

  lemma {:induction false} TotalPermuted<T>(w: T -> nat, s: seq<T>, t: seq<T>)
    requires multiset(s) == multiset(t)
    ensures Total(w, s) == Total(w, t)
  {
    if s == [] {
      assert |multiset(t)| == |multiset(s)|;
    } else {
      assert s[0] in multiset(t);
      var i :| 0 <= i < |t| && t[i] == s[0];
      var rest := t[..i] + t[i + 1..];
      assert t == t[..i] + [t[i]] + t[i + 1..];
      assert s == [s[0]] + s[1..];
      assert multiset(t) == multiset(rest) + multiset{s[0]};
      Cancel(multiset(s[1..]), multiset(rest), s[0]);
      TotalPermuted(w, s[1..], rest);
      TotalSum(w, t[..i] + [t[i]], t[i + 1..]);
      TotalSum(w, t[..i], [t[i]]);
      TotalSum(w, t[..i], t[i + 1..]);
    }
  }

  lemma Cancel<T>(a: multiset<T>, b: multiset<T>, x: T)
    requires a + multiset{x} == b + multiset{x}
    ensures a == b
  {
    forall y ensures a[y] == b[y] {
      assert (a + multiset{x})[y] == (b + multiset{x})[y];
    }
  }
}
