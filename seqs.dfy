/** Order-preserving selection from a sequence, and the sub-sequence relation
    it establishes. */
module Seqs {

  lemma AppendAssoc<T>(a: seq<T>, b: seq<T>, c: seq<T>)
    ensures (a + b) + c == a + (b + c)
  {
  }

  /** The elements of s that satisfy keep, in their original order. */
  function Filter<T>(s: seq<T>, keep: T -> bool): seq<T>
    decreases |s|
  {
    if s == [] then []
    else if keep(s[|s| - 1]) then Filter(s[..|s| - 1], keep) + [s[|s| - 1]]
    else Filter(s[..|s| - 1], keep)
  }

  /** `a` is `s` with some elements left out, the rest in their order. */
  predicate Subsequence<T(==)>(a: seq<T>, s: seq<T>)
    decreases |s|
  {
    if a == [] then true
    else if s == [] then false
    else if a[|a| - 1] == s[|s| - 1] then Subsequence(a[..|a| - 1], s[..|s| - 1])
    else Subsequence(a, s[..|s| - 1])
  }

  lemma {:induction false} SubsequenceDropLast<T>(a: seq<T>, s: seq<T>)
    requires a != [] && Subsequence(a, s)
    ensures Subsequence(a[..|a| - 1], s)
    decreases |s|, 0
  {
    var a' := a[..|a| - 1];
    if a' != [] {
      var s' := s[..|s| - 1];
      if a[|a| - 1] == s[|s| - 1] {
        SubsequenceExtend(a', s', s[|s| - 1]);
        assert s' + [s[|s| - 1]] == s;
      } else {
        SubsequenceDropLast(a, s');
        SubsequenceExtend(a', s', s[|s| - 1]);
        assert s' + [s[|s| - 1]] == s;
      }
    }
  }

  lemma {:induction false} SubsequenceExtend<T>(a: seq<T>, s: seq<T>, e: T)
    requires Subsequence(a, s)
    ensures Subsequence(a, s + [e])
    decreases |s|, 1
  {
    assert (s + [e])[..|s|] == s;
    if a != [] && a[|a| - 1] == e {
      SubsequenceDropLast(a, s);
    }
  }

  /** What Filter keeps is a sub-sequence of its input. */
  lemma {:induction false} FilterSubsequence<T>(s: seq<T>, keep: T -> bool)
    ensures Subsequence(Filter(s, keep), s)
    decreases |s|
  {
    if s != [] {
      var n := |s| - 1;
      var rest := Filter(s[..n], keep);
      FilterSubsequence(s[..n], keep);
      if keep(s[n]) {
        assert (rest + [s[n]])[..|rest|] == rest;
      } else {
        assert Filter(s, keep) == rest;
        SubsequenceExtend(rest, s[..n], s[n]);
        assert s[..n] + [s[n]] == s;
      }
    }
  }

  /** Filter keeps exactly the elements that satisfy keep. */
  lemma {:induction false} FilterMember<T>(s: seq<T>, keep: T -> bool, e: T)
    ensures e in Filter(s, keep) <==> e in s && keep(e)
    decreases |s|
  {
    if s != [] {
      FilterMember(s[..|s| - 1], keep, e);
      assert s == s[..|s| - 1] + [s[|s| - 1]];
    }
  }
}
