/**
 * Character classes and stripping, as Python's `str` methods and regular
 * expressions and JavaScript's `String` methods and regular expressions
 * define them. The two languages disagree on what counts as whitespace, so
 * each has its own predicate.
 */
module Text {

  /** `str.isspace()`, which is also what `\s` matches in a Python `str` pattern
      and what `str.strip()` removes. */
  predicate IsPyWhitespace(c: char) {
    '\U{9}' <= c <= '\U{d}' || '\U{1c}' <= c <= '\U{20}' || c == '\U{85}' || c == '\U{a0}'
    || c == '\U{1680}' || '\U{2000}' <= c <= '\U{200a}' || c == '\U{2028}' || c == '\U{2029}'
    || c == '\U{202f}' || c == '\U{205f}' || c == '\U{3000}'
  }

  /** ECMAScript WhiteSpace and LineTerminator: what `\s` matches and what
      `String.prototype.trim` removes. */
  predicate IsJsWhitespace(c: char) {
    '\U{9}' <= c <= '\U{d}' || c == ' ' || c == '\U{a0}' || c == '\U{1680}'
    || '\U{2000}' <= c <= '\U{200a}' || c == '\U{2028}' || c == '\U{2029}'
    || c == '\U{202f}' || c == '\U{205f}' || c == '\U{3000}' || c == '\U{feff}'
  }

  /** Every character of `s` is in the class `ws` (vacuously true of ""). */
  predicate AllIn(s: string, ws: char -> bool) {
    forall i {:trigger ws(s[i])} :: 0 <= i < |s| ==> ws(s[i])
  }

  /** `s` with its leading run of `ws` characters removed. */
  function StripLeft(s: string, ws: char -> bool): (r: string)
    ensures |r| <= |s| && r == s[|s| - |r|..]
    ensures AllIn(s[..|s| - |r|], ws)
    ensures r == [] || !ws(r[0])
  {
    if s != [] && ws(s[0]) then
      var r := StripLeft(s[1..], ws);
      StripLeftStep(s, ws, r);
      r
    else
      assert s[..0] == [];
      s
  }

  /** One step of `StripLeft`: a leading `ws` character in front of what the
      recursive call dropped is dropped too. */
  lemma StripLeftStep(s: string, ws: char -> bool, r: string)
    requires s != [] && ws(s[0])
    requires |r| <= |s| - 1 && r == s[1..][|s| - 1 - |r|..]
    requires AllIn(s[1..][..|s| - 1 - |r|], ws)
    ensures r == s[|s| - |r|..]
    ensures AllIn(s[..|s| - |r|], ws)
  {
    var m := |s| - |r|;
    assert s[1..][m - 1..] == s[m..];
    forall i | 0 <= i < m
      ensures ws(s[..m][i])
    {
      if i > 0 {
        assert ws(s[1..][..m - 1][i - 1]);
        assert s[..m][i] == s[1..][..m - 1][i - 1];
      }
    }
  }

  /** `s` with its trailing run of `ws` characters removed. */
  function StripRight(s: string, ws: char -> bool): (r: string)
    ensures |r| <= |s| && r == s[..|r|]
    ensures AllIn(s[|r|..], ws)
    ensures r == [] || !ws(r[|r| - 1])
  {
    if s != [] && ws(s[|s| - 1]) then
      var r := StripRight(s[..|s| - 1], ws);
      StripRightStep(s, ws, r);
      r
    else
      assert s[|s|..] == [];
      s
  }

  /** One step of `StripRight`: a trailing `ws` character behind what the
      recursive call dropped is dropped too. */
  lemma StripRightStep(s: string, ws: char -> bool, r: string)
    requires s != [] && ws(s[|s| - 1])
    requires |r| <= |s| - 1 && r == s[..|s| - 1][..|r|]
    requires AllIn(s[..|s| - 1][|r|..], ws)
    ensures r == s[..|r|]
    ensures AllIn(s[|r|..], ws)
  {
    var n := |r|;
    assert s[..|s| - 1][..n] == s[..n];
    forall i | 0 <= i < |s| - n
      ensures ws(s[n..][i])
    {
      if i < |s| - 1 - n {
        assert ws(s[..|s| - 1][n..][i]);
        assert s[n..][i] == s[..|s| - 1][n..][i];
      }
    }
  }

  /** `str.strip()` / `String.prototype.trim` for the whitespace class `ws`:
      the contiguous middle of `s` left once the whitespace at both ends is
      gone. It is empty exactly when `s` is blank. */
  function Strip(s: string, ws: char -> bool): (r: string)
    ensures |r| <= |s|
    ensures r == [] <==> AllIn(s, ws)
    ensures r == [] || (!ws(r[0]) && !ws(r[|r| - 1]))
  {
    StripKeepsNonBlank(s, ws);
    StripRight(StripLeft(s, ws), ws)
  }

  /** A character that is not whitespace survives both strips. */
  lemma StripKeepsNonBlank(s: string, ws: char -> bool)
    ensures !AllIn(s, ws) ==> StripRight(StripLeft(s, ws), ws) != []
  {
    var l := StripLeft(s, ws);
    var r := StripRight(l, ws);
    if l == [] {
      assert s[..|s|] == s;
    }
  }

  /** The strip is the slice of `s` between its leading and its trailing
      runs of `ws` characters; `k` is where it starts. */
  lemma StripSlice(s: string, ws: char -> bool) returns (k: nat)
    ensures k + |Strip(s, ws)| <= |s|
    ensures Strip(s, ws) == s[k..k + |Strip(s, ws)|]
    ensures AllIn(s[..k], ws) && AllIn(s[k + |Strip(s, ws)|..], ws)
  {
    var l := StripLeft(s, ws);
    var r := StripRight(l, ws);
    k := |s| - |l|;
    SuffixSlices(s, k, |r|);
  }

  /** Slicing a suffix of `s` is slicing `s` further along. */
  lemma SuffixSlices(s: string, k: nat, n: nat)
    requires k + n <= |s|
    ensures s[k..][..n] == s[k..k + n] && s[k..][n..] == s[k + n..]
  {
  }

  /** Neither end of a strip is whitespace. */
  lemma StripEnds(s: string, ws: char -> bool)
    ensures var r := Strip(s, ws); r == [] || (!ws(r[0]) && !ws(r[|r| - 1]))
  {
  }

  /** Cutting a string at `i` and `j` and joining the three pieces gives it
      back. */
  lemma SplitThree(s: string, i: nat, j: nat)
    requires i <= j <= |s|
    ensures s == s[..i] + s[i..j] + s[j..]
  {
  }

  /** A string with no whitespace at either end is its own strip. */
  lemma StripUnpadded(s: string, ws: char -> bool)
    requires s == [] || (!ws(s[0]) && !ws(s[|s| - 1]))
    ensures Strip(s, ws) == s
  {
  }
}
