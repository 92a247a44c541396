/** The part of Go's strings package that several components rely on. */
module GoStrings {

  predicate Contains(s: string, sub: string)
  {
    sub <= s || (s != "" && Contains(s[1..], sub))
  }

  lemma {:induction false} NeverStarts(s: string, sub: string)
    requires sub != "" && forall i :: 0 <= i <= |s| - |sub| ==> s[i] != sub[0]
    ensures !Contains(s, sub)
  {
    assert |sub| <= |s| ==> s[0] != sub[0];
    if s != "" {
      assert forall i :: 0 <= i < |s| - 1 ==> s[1..][i] == s[i + 1];
      NeverStarts(s[1..], sub);
    }
  }

  /** A string contains another exactly if it is that one with something before and something after it. */
  lemma {:induction false} ContainsExactly(s: string, sub: string)
    ensures Contains(s, sub) <==> exists before: string, after: string :: s == before + sub + after
  {
    if Contains(s, sub) {
      if sub <= s {
        assert s == "" + sub + s[|sub|..];
      } else {
        ContainsExactly(s[1..], sub);
        var before: string, after: string :| s[1..] == before + sub + after;
        assert s == ([s[0]] + before) + sub + after;
      }
    }
    if before: string, after: string :| s == before + sub + after {
      ContainsInside(before, sub, after);
    }
  }

  lemma {:induction false} ContainsInside(before: string, sub: string, after: string)
    ensures Contains(before + sub + after, sub)
  {
    var s := before + sub + after;
    if before == "" {
      assert s[..|sub|] == sub;
    } else {
      assert s[1..] == before[1..] + sub + after;
      ContainsInside(before[1..], sub, after);
    }
  }
}
