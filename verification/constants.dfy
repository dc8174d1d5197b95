/** The "empty suffix" test behind indentation chopping: the pattern `\n\s+$`, searched
    with `Matcher.find()`, in the three places that compile it. */
module Constants {
  import opened Platform

  /** Every character of t[lo..hi] is in the class `\s`. */
  predicate AllRegexSpace(t: string, lo: int, hi: int)
    requires 0 <= lo <= hi <= |t|
  {
    forall m :: lo <= m < hi ==> IsRegexSpace(t[m])
  }

  /** Where `$` matches in t without MULTILINE: at the end, before one final line
      terminator (but not between '\r' and '\n'), or before a final "\r\n". */
  predicate DollarAt(t: string, k: int)
  {
    || k == |t|
    || (0 < k + 1 == |t| && IsLineTerminator(t[k]) && !(t[k] == '\n' && k > 0 && t[k - 1] == '\r'))
    || (0 <= k && k + 2 == |t| && t[k] == '\r' && t[k + 1] == '\n')
  }

  /** `EMPTY_SUFFIX.matcher(t).find()`: some '\n' at j is followed by one or more `\s`
      characters that reach a position k where `$` matches. Without MULTILINE, `.` is
      absent from the pattern, so DOTALL changes nothing. */
  predicate FindsEmptySuffix(t: string)
  {
    exists j, k :: 0 <= j && j + 2 <= k <= |t| && t[j] == '\n' && AllRegexSpace(t, j + 1, k) && DollarAt(t, k)
  }

  /** A line terminator that `\s` does not cover. */
  predicate IsBareTerminator(c: char)
  {
    IsLineTerminator(c) && !IsRegexSpace(c)
  }

  /** The text with one final `\s`-less line terminator removed, if it has one. */
  function Trimmed(t: string): (u: string)
    ensures |u| <= |t| && u == t[..|u|]
  {
    if |t| > 0 && IsBareTerminator(t[|t| - 1]) then t[..|t| - 1] else t
  }

  /** The same test read off the end of the text: after dropping one bare final line
      terminator, the text ends in a '\n' followed by one or more `\s` characters. */
  predicate EndsInBlankTail(t: string)
  {
    var u := Trimmed(t);
    exists j :: 0 <= j && j + 2 <= |u| && u[j] == '\n' && AllRegexSpace(u, j + 1, |u|)
  }

  /** Scanning back from k over `\s` characters: is there a '\n' with at least one
      character after it? */
  function BlankTailFrom(u: string, k: int): bool
    requires 0 <= k <= |u|
    decreases k
  {
    if k == 0 then false
    else if u[k - 1] == '\n' && k < |u| then true
    else IsRegexSpace(u[k - 1]) && BlankTailFrom(u, k - 1)
  }

  /** The test computed without a search: drop a bare final terminator, then scan back. */
  predicate HasEmptySuffix(t: string)
  {
    var u := Trimmed(t);
    BlankTailFrom(u, |u|)
  }

  /** Below a blank stretch u[k..], the backward scan finds exactly the line breaks
      before k that start a blank tail of u. */
  lemma {:induction false} BlankTailFromMeaning(u: string, k: int)
    requires 0 <= k <= |u| && AllRegexSpace(u, k, |u|)
    decreases k
    ensures BlankTailFrom(u, k) <==>
            exists j :: 0 <= j < k && j + 2 <= |u| && u[j] == '\n' && AllRegexSpace(u, j + 1, |u|)
  {
    if k > 0 && !(u[k - 1] == '\n' && k < |u|) {
      if IsRegexSpace(u[k - 1]) {
        BlankTailFromMeaning(u, k - 1);
      } else {
        forall j | 0 <= j < k && j + 2 <= |u| && u[j] == '\n'
          ensures !AllRegexSpace(u, j + 1, |u|)
        {
          assert j != k - 1;
          assert !IsRegexSpace(u[k - 1]);
        }
      }
    }
  }

  /** The computed test is the search. */
  lemma HasEmptySuffixIff(t: string)
    ensures HasEmptySuffix(t) <==> FindsEmptySuffix(t)
  {
    var u := Trimmed(t);
    BlankTailFromMeaning(u, |u|);
    FindsEmptySuffixIff(t);
  }

  /** The search and the direct reading agree on every text. */
  lemma FindsEmptySuffixIff(t: string)
    ensures FindsEmptySuffix(t) <==> EndsInBlankTail(t)
  {
    var u := Trimmed(t);
    if FindsEmptySuffix(t) {
      var j, k :| 0 <= j && j + 2 <= k <= |t| && t[j] == '\n' && AllRegexSpace(t, j + 1, k) && DollarAt(t, k);
      if k == |t| {
        assert IsRegexSpace(t[k - 1]);
        assert u == t;
        assert AllRegexSpace(u, j + 1, |u|);
      } else if k + 1 == |t| && IsBareTerminator(t[k]) {
        assert u == t[..k];
        assert AllRegexSpace(u, j + 1, |u|);
      } else {
        // the final one or two characters are '\n' or '\r', which `\s` covers
        assert u == t;
        assert AllRegexSpace(u, j + 1, |u|);
      }
      assert u[j] == '\n';
    }
    if EndsInBlankTail(t) {
      var j :| 0 <= j && j + 2 <= |u| && u[j] == '\n' && AllRegexSpace(u, j + 1, |u|);
      assert t[j] == '\n';
      assert AllRegexSpace(t, j + 1, |u|);
      assert DollarAt(t, |u|);
    }
  }

  /** The search only succeeds on a text whose last character is blank: a `\s`
      character or a line terminator. */
  lemma FindsEmptySuffixEndsBlank(t: string)
    requires FindsEmptySuffix(t)
    ensures |t| >= 2
    ensures IsRegexSpace(t[|t| - 1]) || IsLineTerminator(t[|t| - 1])
  {
    FindsEmptySuffixIff(t);
    var u := Trimmed(t);
    var j :| 0 <= j && j + 2 <= |u| && u[j] == '\n' && AllRegexSpace(u, j + 1, |u|);
    assert IsRegexSpace(u[|u| - 1]);
  }
}
