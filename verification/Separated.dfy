/** Joining two texts by a character the second one cannot contain. */
module Separated {

  predicate Free(s: string, sep: char) {
    forall i :: 0 <= i < |s| ==> s[i] != sep
  }

  predicate LastAt(s: string, n: nat, sep: char) {
    n < |s| && s[n] == sep && forall i :: n < i < |s| ==> s[i] != sep
  }

  lemma JoinedLastAt(a: string, b: string, sep: char)
    requires Free(b, sep)
    ensures LastAt(a + [sep] + b, |a|, sep)
  {
    forall i | |a| < i < |a + [sep] + b| ensures (a + [sep] + b)[i] != sep {
      assert (a + [sep] + b)[i] == b[i - |a| - 1];
    }
  }

  /** The joined text has one reading, even if the first part contains the separator. */
  lemma JoinInjective(a: string, b: string, c: string, d: string, sep: char)
    requires Free(b, sep) && Free(d, sep) && a + [sep] + b == c + [sep] + d
    ensures a == c && b == d
  {
    JoinedLastAt(a, b, sep);
    JoinedLastAt(c, d, sep);
    var s := a + [sep] + b;
    assert |a| == |c|;
    assert a == s[..|a|] && c == s[..|c|];
    assert b == s[|a| + 1..] && d == s[|c| + 1..];
  }
}
