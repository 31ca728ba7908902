/** String helpers shared by the text-processing functions of the model. */
module Strings {

  predicate StartsWith(s: string, prefix: string) {
    |prefix| <= |s| && s[..|prefix|] == prefix
  }

  /** `s` holds no `c`. */
  predicate Excludes(s: string, c: char) {
    forall j :: 0 <= j < |s| ==> s[j] != c
  }

  /** Position of the first `c` in `s`, or |s| when there is none (`indexOf`, -1 read as |s|). */
  function IndexOf(s: string, c: char): (i: nat)
    ensures i <= |s|
    ensures i < |s| ==> s[i] == c
    ensures Excludes(s[..i], c)
  {
    if s == [] then 0
    else if s[0] == c then 0
    else
      var i := 1 + IndexOf(s[1..], c);
      assert forall j :: 1 <= j < i ==> s[..i][j] == s[1..][..i - 1][j - 1];
      i
  }

  /** The first `c` of `a + [c] + b` is the one right after `a` when `a` holds none. */
  lemma {:induction false} IndexOfAfter(a: string, c: char, b: string)
    requires Excludes(a, c)
    ensures IndexOf(a + [c] + b, c) == |a|
  {
    if a != [] {
      assert (a + [c] + b)[1..] == a[1..] + [c] + b;
      IndexOfAfter(a[1..], c, b);
    }
  }

  /** Taking n + 1 characters of `[c] + s` takes `c` and n characters of `s`. */
  lemma PrefixOfCons(c: char, s: string, n: nat)
    requires n <= |s|
    ensures ([c] + s)[..n + 1] == [c] + s[..n]
  {
    var lhs := ([c] + s)[..n + 1];
    var rhs := [c] + s[..n];
    assert |lhs| == |rhs|;
    forall i | 0 <= i < |lhs| ensures lhs[i] == rhs[i] {
      if i > 0 {
        assert lhs[i] == s[i - 1];
      }
    }
  }
}
