/**
 * The onboarding form's treatment of the tenant's name in the browser:
 * `name.replace(/\s+/g, ' ').trim()` followed by the test
 * `/^[\p{L}\s'-]+$/u`. Whether a character is a Unicode letter (`\p{L}`) is
 * the parameter `isLetter`.
 */
module JsNames {
  import opened Text

  /** `s.replace(/\s+/g, ' ')`: every maximal run of whitespace becomes a
      single space. */
  function Collapse(s: string): (r: string)
    decreases |s|
  {
    if s == [] then []
    else if IsJsWhitespace(s[0]) then [' '] + Collapse(StripLeft(s[1..], IsJsWhitespace))
    else [s[0]] + Collapse(s[1..])
  }

  /** The characters at `i` and `i + 1` are not both whitespace. */
  predicate NoDoubleBlankAt(s: string, i: int)
    requires 0 <= i < |s| - 1
  {
    !(IsJsWhitespace(s[i]) && IsJsWhitespace(s[i + 1]))
  }

  /** The character at `i` is a plain space if it is whitespace at all. */
  predicate SpaceIfBlankAt(s: string, i: int)
    requires 0 <= i < |s|
  {
    IsJsWhitespace(s[i]) ==> s[i] == ' '
  }

  /** No whitespace but single spaces, and no two of them side by side. */
  predicate Collapsed(s: string) {
    (forall i :: 0 <= i < |s| ==> SpaceIfBlankAt(s, i))
    && (forall i :: 0 <= i < |s| - 1 ==> NoDoubleBlankAt(s, i))
  }

  /** The characters of `s` that are not whitespace, in order. */
  function NonBlank(s: string): (r: string)
    ensures |r| <= |s|
  {
    if s == [] then [] else (if IsJsWhitespace(s[0]) then [] else [s[0]]) + NonBlank(s[1..])
  }

  /** The name as `validateName` stores it. */
  function NormaliseName(s: string): string {
    Strip(Collapse(s), IsJsWhitespace)
  }

  /** The stored name is collapsed, has no whitespace at either end, and
      keeps every other character of the input, in order. */
  lemma NormaliseNameShape(s: string)
    ensures Collapsed(NormaliseName(s))
    ensures NormaliseName(s) == [] || (!IsJsWhitespace(NormaliseName(s)[0]) && !IsJsWhitespace(NormaliseName(s)[|NormaliseName(s)| - 1]))
    ensures NonBlank(NormaliseName(s)) == NonBlank(s)
  {
    NormalisedIsCollapsed(s);
    NormalisedUnpadded(s);
    NormalisedKeepsNonBlank(s);
  }

  lemma NormalisedUnpadded(s: string)
    ensures var n := NormaliseName(s); n == [] || (!IsJsWhitespace(n[0]) && !IsJsWhitespace(n[|n| - 1]))
  {
    StripEnds(Collapse(s), IsJsWhitespace);
  }

  lemma NormalisedIsCollapsed(s: string)
    ensures Collapsed(NormaliseName(s))
  {
    CollapseIsCollapsed(s);
    StripKeepsCollapsed(Collapse(s));
  }

  lemma NormalisedKeepsNonBlank(s: string)
    ensures NonBlank(NormaliseName(s)) == NonBlank(s)
  {
    CollapseKeepsNonBlank(s);
    StripKeepsNonBlankChars(Collapse(s));
  }

  /** A character `/[\p{L}\s'-]/u` matches. */
  predicate IsNamePatternChar(c: char, isLetter: char -> bool) {
    isLetter(c) || IsJsWhitespace(c) || c == '\'' || c == '-'
  }

  /** Every character of `s` is one the name pattern matches. */
  predicate AllNameChars(s: string, isLetter: char -> bool) {
    forall i :: 0 <= i < |s| ==> IsNamePatternChar(s[i], isLetter)
  }

  /** `/^[\p{L}\s'-]+$/u.test(s)`. */
  predicate NamePatternTest(s: string, isLetter: char -> bool) {
    |s| > 0 && AllNameChars(s, isLetter)
  }

  lemma AllNameCharsAppend(a: string, b: string, isLetter: char -> bool)
    ensures AllNameChars(a + b, isLetter) <==> AllNameChars(a, isLetter) && AllNameChars(b, isLetter)
  {
    if AllNameChars(a, isLetter) && AllNameChars(b, isLetter) {
      forall i | 0 <= i < |a + b| ensures IsNamePatternChar((a + b)[i], isLetter) {
        if i >= |a| {
          assert (a + b)[i] == b[i - |a|];
        }
      }
    }
    if AllNameChars(a + b, isLetter) {
      forall i | 0 <= i < |a| ensures IsNamePatternChar(a[i], isLetter) {
        assert (a + b)[i] == a[i];
      }
      forall i | 0 <= i < |b| ensures IsNamePatternChar(b[i], isLetter) {
        assert (a + b)[|a| + i] == b[i];
      }
    }
  }

  lemma {:induction false} NonBlankAppend(a: string, b: string)
    ensures NonBlank(a + b) == NonBlank(a) + NonBlank(b)
  {
    if a != [] {
      assert (a + b)[1..] == a[1..] + b;
      NonBlankAppend(a[1..], b);
    } else {
      assert a + b == b;
    }
  }

  /** A blank string has no characters left once whitespace is dropped, and
      only a blank one. */
  lemma {:induction false} NonBlankEmptyIff(s: string)
    ensures NonBlank(s) == [] <==> AllIn(s, IsJsWhitespace)
  {
    if s != [] {
      NonBlankEmptyIff(s[1..]);
      if AllIn(s[1..], IsJsWhitespace) && IsJsWhitespace(s[0]) {
        forall i | 0 <= i < |s| ensures IsJsWhitespace(s[i]) {
          if i > 0 {
            assert s[i] == s[1..][i - 1];
          }
        }
      }
      if AllIn(s, IsJsWhitespace) {
        assert forall i :: 0 <= i < |s| - 1 ==> s[1..][i] == s[i + 1];
      }
    }
  }

  /** Dropping a leading run of whitespace drops no other character. */
  lemma StripLeftKeepsNonBlank(s: string)
    ensures NonBlank(StripLeft(s, IsJsWhitespace)) == NonBlank(s)
  {
    var r := StripLeft(s, IsJsWhitespace);
    var k := |s| - |r|;
    SplitAt(s, k);
    NonBlankAppend(s[..k], s[k..]);
    NonBlankEmptyIff(s[..k]);
  }

  /** Cutting a string at `k` and joining the pieces gives it back. */
  lemma SplitAt(s: string, k: nat)
    requires k <= |s|
    ensures s == s[..k] + s[k..]
  {
  }

  lemma {:induction false} CollapseKeepsNonBlank(s: string)
    ensures NonBlank(Collapse(s)) == NonBlank(s)
    decreases |s|
  {
    if s != [] {
      var rest := if IsJsWhitespace(s[0]) then StripLeft(s[1..], IsJsWhitespace) else s[1..];
      var head := if IsJsWhitespace(s[0]) then [' '] else [s[0]];
      assert Collapse(s) == head + Collapse(rest);
      CollapseKeepsNonBlank(rest);
      NonBlankAppend(head, Collapse(rest));
      if IsJsWhitespace(s[0]) {
        StripLeftKeepsNonBlank(s[1..]);
      }
    }
  }

  /** A single character followed by a collapsed string is collapsed when
      the character is not whitespace, or is a space and the string does not
      start with whitespace. */
  lemma ConsCollapsed(c: char, t: string)
    requires Collapsed(t)
    requires IsJsWhitespace(c) ==> c == ' ' && (t == [] || !IsJsWhitespace(t[0]))
    ensures Collapsed([c] + t)
  {
    var s := [c] + t;
    forall i | 0 <= i < |s| - 1 ensures NoDoubleBlankAt(s, i) {
      if i > 0 {
        assert NoDoubleBlankAt(t, i - 1);
        assert s[i] == t[i - 1] && s[i + 1] == t[i];
      }
    }
    forall i | 0 <= i < |s| ensures SpaceIfBlankAt(s, i) {
      if i > 0 {
        assert SpaceIfBlankAt(t, i - 1);
        assert s[i] == t[i - 1];
      }
    }
  }

  lemma {:induction false} CollapseIsCollapsed(s: string)
    ensures Collapsed(Collapse(s))
    ensures Collapse(s) == [] || IsJsWhitespace(Collapse(s)[0]) == IsJsWhitespace(s[0])
    decreases |s|
  {
    if s != [] {
      if IsJsWhitespace(s[0]) {
        var rest := StripLeft(s[1..], IsJsWhitespace);
        CollapseIsCollapsed(rest);
        var c := Collapse(rest);
        assert c == [] || !IsJsWhitespace(c[0]);
        ConsCollapsed(' ', c);
        assert Collapse(s) == [' '] + c;
      } else {
        CollapseIsCollapsed(s[1..]);
        ConsCollapsed(s[0], Collapse(s[1..]));
        assert Collapse(s) == [s[0]] + Collapse(s[1..]);
      }
    }
  }

  /** Any slice of a collapsed string is collapsed. */
  lemma SliceCollapsed(s: string, a: int, b: int)
    requires Collapsed(s) && 0 <= a <= b <= |s|
    ensures Collapsed(s[a..b])
  {
    var t := s[a..b];
    forall i | 0 <= i < |t| - 1 ensures NoDoubleBlankAt(t, i) {
      assert NoDoubleBlankAt(s, a + i);
      assert t[i] == s[a + i] && t[i + 1] == s[a + i + 1];
    }
    forall i | 0 <= i < |t| ensures SpaceIfBlankAt(t, i) {
      assert SpaceIfBlankAt(s, a + i);
      assert t[i] == s[a + i];
    }
  }

  /** Stripping keeps whatever is left collapsed. */
  lemma StripKeepsCollapsed(s: string)
    requires Collapsed(s)
    ensures Collapsed(Strip(s, IsJsWhitespace))
  {
    var k := StripSlice(s, IsJsWhitespace);
    SliceCollapsed(s, k, k + |Strip(s, IsJsWhitespace)|);
  }

  /** Whitespace on either side of `m` leaves no character behind. */
  lemma NonBlankOfPadded(a: string, m: string, b: string)
    requires AllIn(a, IsJsWhitespace) && AllIn(b, IsJsWhitespace)
    ensures NonBlank(a + m + b) == NonBlank(m)
  {
    NonBlankAppend(a + m, b);
    NonBlankAppend(a, m);
    NonBlankEmptyIff(a);
    NonBlankEmptyIff(b);
  }

  lemma StripKeepsNonBlankChars(s: string)
    ensures NonBlank(Strip(s, IsJsWhitespace)) == NonBlank(s)
  {
    var k := StripSlice(s, IsJsWhitespace);
    var r := Strip(s, IsJsWhitespace);
    SplitThree(s, k, k + |r|);
    NonBlankOfPadded(s[..k], r, s[k + |r|..]);
  }

  /** A string that does not start with whitespace has none to strip. */
  lemma StripLeftUnpadded(t: string)
    requires t == [] || !IsJsWhitespace(t[0])
    ensures StripLeft(t, IsJsWhitespace) == t
  {
  }

  /** A collapsed string is left alone by `replace(/\s+/g, ' ')`. */
  lemma {:induction false} CollapseOfCollapsed(s: string)
    requires Collapsed(s)
    ensures Collapse(s) == s
    decreases |s|
  {
    if s != [] {
      var t := s[1..];
      SliceCollapsed(s, 1, |s|);
      assert s[1..|s|] == t;
      CollapseOfCollapsed(t);
      assert s == [s[0]] + t;
      if IsJsWhitespace(s[0]) {
        assert SpaceIfBlankAt(s, 0);
        if t != [] {
          assert NoDoubleBlankAt(s, 0);
        }
        StripLeftUnpadded(t);
      }
    }
  }

  /** Normalising a name twice changes nothing more. */
  lemma NormaliseIdempotent(s: string)
    ensures NormaliseName(NormaliseName(s)) == NormaliseName(s)
  {
    var n := NormaliseName(s);
    NormaliseNameShape(s);
    CollapseOfCollapsed(n);
    StripUnpadded(n, IsJsWhitespace);
  }

  /** Whether every character is a name character does not depend on the
      whitespace, which always is one. */
  lemma {:induction false} PatternCharsIffNonBlank(s: string, isLetter: char -> bool)
    ensures AllNameChars(s, isLetter) <==> AllNameChars(NonBlank(s), isLetter)
  {
    if s != [] {
      PatternCharsIffNonBlank(s[1..], isLetter);
      var head := if IsJsWhitespace(s[0]) then [] else [s[0]];
      assert s == [s[0]] + s[1..];
      AllNameCharsAppend([s[0]], s[1..], isLetter);
      AllNameCharsAppend(head, NonBlank(s[1..]), isLetter);
    }
  }

  /** `validateName` flags a name exactly when it is blank or holds a
      character that is neither a letter, whitespace, `'` nor `-`; the
      normalisation before the test changes neither. */
  lemma NormalisedNameValid(s: string, isLetter: char -> bool)
    ensures NamePatternTest(NormaliseName(s), isLetter) <==>
              !AllIn(s, IsJsWhitespace) && AllNameChars(s, isLetter)
  {
    var n := NormaliseName(s);
    NormaliseNameShape(s);
    PatternCharsIffNonBlank(s, isLetter);
    PatternCharsIffNonBlank(n, isLetter);
    NonBlankEmptyIff(s);
    NonBlankEmptyIff(n);
  }
}
