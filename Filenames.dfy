// `sanitize_filename`: deleting from a title the characters a filename may not contain,
// the class backslash, slash, star, question mark, colon, double quote, less, greater, bar.
module Filenames {

  /** The nine characters of the deleted character class. */
  predicate IsIllegal(c: char)
  {
    c == '\\' || c == '/' || c == '*' || c == '?' || c == ':' || c == '"' || c == '<' || c == '>' || c == '|'
  }

  predicate IsClean(s: string)
  {
    forall i :: 0 <= i < |s| ==> !IsIllegal(s[i])
  }

  /** The title with every illegal character deleted; never longer than the title and free of illegal characters. */
  function Sanitize(name: string): (r: string)
    ensures IsClean(r)
    ensures |r| <= |name|
  {
    if name == [] then []
    else if IsIllegal(name[0]) then Sanitize(name[1..])
    else [name[0]] + Sanitize(name[1..])
  }

  /** `r` can be obtained from `s` by deleting characters (order is kept). */
  predicate IsSubsequence(r: string, s: string)
    decreases |s|
  {
    r == [] || (s != [] && ((r[0] == s[0] && IsSubsequence(r[1..], s[1..])) || IsSubsequence(r, s[1..])))
  }

  /** Every legal character occurs in `r` exactly as often as in `s`. */
  predicate KeepsLegal(r: string, s: string)
  {
    forall c :: !IsIllegal(c) ==> multiset(r)[c] == multiset(s)[c]
  }

  /** Sanitizing deletes characters only, and keeps every legal one. */
  lemma {:induction false} SanitizeDeletesOnlyIllegal(s: string)
    ensures IsSubsequence(Sanitize(s), s)
    ensures KeepsLegal(Sanitize(s), s)
  {
    if s != [] {
      SanitizeDeletesOnlyIllegal(s[1..]);
      assert s == [s[0]] + s[1..];
      var r := Sanitize(s);
      if IsIllegal(s[0]) {
        SubsequenceSkip(r, s);
      } else {
        assert r[1..] == Sanitize(s[1..]);
      }
    }
  }

  lemma SubsequenceSkip(r: string, s: string)
    requires s != [] && IsSubsequence(r, s[1..])
    ensures IsSubsequence(r, s)
  {
  }

  lemma {:induction false} SubsequenceCounts(r: string, s: string)
    requires IsSubsequence(r, s)
    ensures multiset(r) <= multiset(s)
    decreases |s|
  {
    if r != [] {
      assert s == [s[0]] + s[1..];
      if r[0] == s[0] && IsSubsequence(r[1..], s[1..]) {
        SubsequenceCounts(r[1..], s[1..]);
        assert r == [r[0]] + r[1..];
      } else {
        SubsequenceCounts(r, s[1..]);
      }
    }
  }

  /**
   * The converse: any clean subsequence of `s` that keeps every legal character is `Sanitize(s)`.
   * Together with SanitizeDeletesOnlyIllegal, the result is exactly `s` with the nine characters deleted.
   */
  lemma {:induction false} SanitizeUnique(r: string, s: string)
    requires IsSubsequence(r, s) && IsClean(r) && KeepsLegal(r, s)
    ensures r == Sanitize(s)
    decreases |s|
  {
    if s == [] {
    } else {
      var c, t := s[0], s[1..];
      assert s == [c] + t;
      assert multiset(s) == multiset{c} + multiset(t);
      if IsIllegal(c) {
        assert r != [] ==> r[0] != c;
        assert IsSubsequence(r, t);
        SanitizeUnique(r, t);
      } else if r == [] {
        assert false;
      } else if r[0] == c && IsSubsequence(r[1..], t) {
        assert r == [c] + r[1..];
        assert multiset(r) == multiset{c} + multiset(r[1..]);
        assert IsClean(r[1..]) by {
          forall i | 0 <= i < |r[1..]| ensures !IsIllegal(r[1..][i]) {
            assert r[1..][i] == r[i + 1];
          }
        }
        SanitizeUnique(r[1..], t);
      } else {
        assert IsSubsequence(r, t);
        SubsequenceCounts(r, t);
        assert false;
      }
    }
  }

  /** Sanitizing leaves a title unchanged exactly when it has no illegal character. */
  lemma {:induction false} SanitizeIdentity(s: string)
    ensures Sanitize(s) == s <==> IsClean(s)
  {
    if s != [] {
      SanitizeIdentity(s[1..]);
      if IsClean(s) {
        assert IsClean(s[1..]) by {
          forall i | 0 <= i < |s[1..]| ensures !IsIllegal(s[1..][i]) {
            assert s[1..][i] == s[i + 1];
          }
        }
        assert s == [s[0]] + s[1..];
      }
    }
  }

  lemma SanitizeIdempotent(s: string)
    ensures Sanitize(Sanitize(s)) == Sanitize(s)
  {
    SanitizeIdentity(Sanitize(s));
  }

  /** Sanitizing works character by character, so it distributes over concatenation. */
  lemma {:induction false} SanitizeAppend(a: string, b: string)
    ensures Sanitize(a + b) == Sanitize(a) + Sanitize(b)
  {
    if a == [] {
      assert a + b == b;
    } else {
      assert (a + b)[0] == a[0];
      assert (a + b)[1..] == a[1..] + b;
      SanitizeAppend(a[1..], b);
    }
  }

  /** Clean text around removable pieces keeps only the clean text. */
  lemma SanitizeAround(a: string, b: string, c: string, d: string)
    requires IsClean(a) && IsClean(c) && Sanitize(b) == [] && Sanitize(d) == []
    ensures Sanitize(a + b + c + d) == a + c
  {
    SanitizeIdentity(a);
    SanitizeIdentity(c);
    SanitizeAppend(a, b);
    SanitizeAppend(a + b, c);
    SanitizeAppend(a + b + c, d);
    assert a + [] == a;
    assert a + c + [] == a + c;
  }

  lemma SanitizeExample()
    ensures Sanitize("Test: Video?") == "Test Video"
  {
    assert "Test: Video?" == "Test" + ":" + " Video" + "?";
    assert "Test Video" == "Test" + " Video";
    assert IsClean("Test") && IsClean(" Video") && Sanitize(":") == [] && Sanitize("?") == [];
    SanitizeAround("Test", ":", " Video", "?");
  }
}
