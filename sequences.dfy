/** Order-preserving sub-lists, shared by the list filters of the model. */
module Sequences {
  /** s is s' with some elements left out, the rest kept in order. */
  predicate IsSubsequence<T(==)>(s: seq<T>, s': seq<T>)
    decreases |s'|
  {
    if |s| == 0 then true
    else if |s'| == 0 then false
    else if s[|s| - 1] == s'[|s'| - 1] then IsSubsequence(s[..|s| - 1], s'[..|s'| - 1])
    else IsSubsequence(s, s'[..|s'| - 1])
  }

  lemma {:induction false} SubsequenceOfLonger<T>(s: seq<T>, s': seq<T>, x: T)
    requires IsSubsequence(s, s')
    ensures IsSubsequence(s, s' + [x])
    decreases |s'|, 1
  {
    var t := s' + [x];
    assert t[..|t| - 1] == s';
    if |s| > 0 && s[|s| - 1] == x {
      SubsequenceDropLast(s, s');
    }
  }

  lemma {:induction false} SubsequenceDropLast<T>(s: seq<T>, s': seq<T>)
    requires |s| > 0 && IsSubsequence(s, s')
    ensures IsSubsequence(s[..|s| - 1], s')
    decreases |s'|, 0
  {
    if |s'| > 0 {
      if s[|s| - 1] == s'[|s'| - 1] {
        SubsequenceOfLonger(s[..|s| - 1], s'[..|s'| - 1], s'[|s'| - 1]);
        assert s'[..|s'| - 1] + [s'[|s'| - 1]] == s';
      } else {
        SubsequenceDropLast(s, s'[..|s'| - 1]);
        SubsequenceOfLonger(s[..|s| - 1], s'[..|s'| - 1], s'[|s'| - 1]);
        assert s'[..|s'| - 1] + [s'[|s'| - 1]] == s';
      }
    }
  }

  /** Appending the same element to both sides keeps the relation. */
  lemma SubsequenceBothLonger<T>(s: seq<T>, s': seq<T>, x: T)
    requires IsSubsequence(s, s')
    ensures IsSubsequence(s + [x], s' + [x])
  {
    assert (s + [x])[..|s|] == s;
    assert (s' + [x])[..|s'|] == s';
  }

  lemma AppendAssociative<T>(a: seq<T>, b: seq<T>, c: seq<T>)
    ensures (a + b) + c == a + (b + c)
  {
  }
}
