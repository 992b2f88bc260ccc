/**
 * The words of the tenant's name: an independent description of what
 * `name.replace(/\s+/g, ' ').trim()` leaves, namely the maximal runs of
 * non-whitespace characters with one space between neighbours.
 */
module JsWords {
  import opened Text
  import opened JsNames

  /** No character of `w` is whitespace. */
  predicate IsWord(w: string) {
    w == [] || (!IsJsWhitespace(w[0]) && IsWord(w[1..]))
  }

  /** The leading run of characters of `s` that are not whitespace. */
  function FirstWord(s: string): (w: string)
    ensures |w| <= |s| && w == s[..|w|]
    ensures s != [] && !IsJsWhitespace(s[0]) ==> |w| > 0
  {
    if s == [] || IsJsWhitespace(s[0]) then [] else [s[0]] + FirstWord(s[1..])
  }

  /** The words of `s`: its maximal runs of characters that are not
      whitespace, in order. */
  function Words(s: string): seq<string>
    decreases |s|
  {
    var t := StripLeft(s, IsJsWhitespace);
    if t == [] then []
    else
      var w := FirstWord(t);
      [w] + Words(t[|w|..])
  }

  /** The words joined with one space between neighbours. */
  function JoinWithSpace(ws: seq<string>): string
    decreases |ws|
  {
    if ws == [] then []
    else if |ws| == 1 then ws[0]
    else ws[0] + [' '] + JoinWithSpace(ws[1..])
  }

  /** `FirstWord` takes a word, and stops only at whitespace or the end. */
  lemma {:induction false} FirstWordIsWord(s: string)
    ensures IsWord(FirstWord(s))
    ensures |FirstWord(s)| < |s| ==> IsJsWhitespace(s[|FirstWord(s)|])
  {
    if s != [] && !IsJsWhitespace(s[0]) {
      FirstWordIsWord(s[1..]);
      assert FirstWord(s)[1..] == FirstWord(s[1..]);
    }
  }

  /** Every word is non-empty and holds no whitespace. */
  lemma {:induction false} WordsAreWords(s: string)
    ensures forall i :: 0 <= i < |Words(s)| ==> |Words(s)[i]| > 0 && IsWord(Words(s)[i])
    decreases |s|
  {
    var t := StripLeft(s, IsJsWhitespace);
    if t != [] {
      var w := FirstWord(t);
      FirstWordIsWord(t);
      WordsAreWords(t[|w|..]);
      var ws := Words(s);
      assert ws == [w] + Words(t[|w|..]);
      forall i | 0 <= i < |ws| ensures |ws[i]| > 0 && IsWord(ws[i]) {
        if i > 0 {
          assert ws[i] == Words(t[|w|..])[i - 1];
        }
      }
    }
  }

  /** Leading whitespace does not change the words. */
  lemma WordsOfStripped(s: string)
    ensures Words(StripLeft(s, IsJsWhitespace)) == Words(s)
  {
    StripLeftUnpadded(StripLeft(s, IsJsWhitespace));
  }

  /** A string starting with a word: that word, then the words of the rest. */
  lemma WordsCons(t: string)
    requires t != [] && !IsJsWhitespace(t[0])
    ensures Words(t) == [FirstWord(t)] + Words(t[|FirstWord(t)|..])
  {
    StripLeftUnpadded(t);
  }

  /** A word at the front passes through `Collapse` unchanged. */
  lemma {:induction false} CollapseWord(w: string, r: string)
    requires IsWord(w)
    ensures Collapse(w + r) == w + Collapse(r)
    decreases |w|
  {
    if w != [] {
      assert (w + r)[0] == w[0];
      assert (w + r)[1..] == w[1..] + r;
      CollapseWord(w[1..], r);
      assert w == [w[0]] + w[1..];
    } else {
      assert w + r == r;
    }
  }

  /** A run of whitespace at the front becomes one space. */
  lemma CollapseBlankStart(s: string)
    requires s != [] && IsJsWhitespace(s[0])
    ensures Collapse(s) == [' '] + Collapse(StripLeft(s, IsJsWhitespace))
  {
  }

  /** Trailing whitespace after a non-blank tail goes, and nothing before it. */
  lemma {:induction false} StripRightAppend(a: string, c: string)
    requires StripRight(c, IsJsWhitespace) != []
    ensures StripRight(a + c, IsJsWhitespace) == a + StripRight(c, IsJsWhitespace)
    decreases |c|
  {
    var x := a + c;
    assert x[|x| - 1] == c[|c| - 1];
    if IsJsWhitespace(c[|c| - 1]) {
      assert x[..|x| - 1] == a + c[..|c| - 1];
      StripRightAppend(a, c[..|c| - 1]);
    }
  }

  /** The last character of a non-empty word is not whitespace. */
  lemma {:induction false} WordLast(w: string)
    requires IsWord(w) && w != []
    ensures !IsJsWhitespace(w[|w| - 1])
    decreases |w|
  {
    if |w| > 1 {
      WordLast(w[1..]);
      assert w[1..][|w| - 2] == w[|w| - 1];
    }
  }

  /** A word followed by one space strips to the word. */
  lemma StripWordSpace(w: string)
    requires IsWord(w) && w != []
    ensures Strip(w + [' '], IsJsWhitespace) == w
  {
    var x := w + [' '];
    WordLast(w);
    assert x[0] == w[0];
    StripLeftUnpadded(x);
    assert x[..|x| - 1] == w;
    assert StripRight(w, IsJsWhitespace) == w;
  }

  /** A word, a space and a string starting with a non-blank character: only
      the string's trailing whitespace is stripped. */
  lemma StripWordSpaceRest(w: string, c: string)
    requires IsWord(w) && w != []
    requires c != [] && !IsJsWhitespace(c[0])
    ensures Strip(w + [' '] + c, IsJsWhitespace) == w + [' '] + Strip(c, IsJsWhitespace)
  {
    var x := w + [' '] + c;
    assert x[0] == w[0];
    StripLeftUnpadded(x);
    StripLeftUnpadded(c);
    assert !AllIn(c, IsJsWhitespace);
    StripRightAppend(w + [' '], c);
  }

  /** The first word and what follows it make up the whole string. */
  lemma SplitAfterFirstWord(t: string)
    ensures t == FirstWord(t) + t[|FirstWord(t)|..]
  {
  }

  /** Concatenation is associative. */
  lemma ConcatAssoc(a: string, b: string, c: string)
    ensures a + (b + c) == (a + b) + c
  {
  }

  /** A space in front is stripped like any other leading whitespace. */
  lemma StripSpaceFront(c: string)
    ensures Strip([' '] + c, IsJsWhitespace) == Strip(c, IsJsWhitespace)
  {
    assert ([' '] + c)[1..] == c;
  }

  /** Joining a word in front of at least one more word puts one space
      between them. */
  lemma JoinCons(w: string, ws: seq<string>)
    requires ws != []
    ensures JoinWithSpace([w] + ws) == w + [' '] + JoinWithSpace(ws)
  {
    assert ([w] + ws)[1..] == ws;
  }

  /** A single word normalises to itself. */
  lemma NormaliseOneWord(t: string)
    requires t != [] && !IsJsWhitespace(t[0])
    requires FirstWord(t) == t
    ensures Strip(Collapse(t), IsJsWhitespace) == JoinWithSpace(Words(t))
  {
    FirstWordIsWord(t);
    WordsCons(t);
    assert t[|t|..] == [];
    assert Words(t) == [t];
    CollapseWord(t, []);
    assert t + [] == t;
    WordLast(t);
    StripUnpadded(t, IsJsWhitespace);
  }

  /** `Collapse` of a word followed by whitespace: the word and one space,
      then `Collapse` of what follows the whitespace. */
  lemma CollapseWordBlank(t: string)
    requires t != [] && !IsJsWhitespace(t[0])
    requires |FirstWord(t)| < |t|
    ensures Collapse(t) == FirstWord(t) + [' '] + Collapse(StripLeft(t[|FirstWord(t)|..], IsJsWhitespace))
  {
    var w := FirstWord(t);
    var rest := t[|w|..];
    FirstWordIsWord(t);
    SplitAfterFirstWord(t);
    CollapseWord(w, rest);
    CollapseBlankStart(rest);
    ConcatAssoc(w, [' '], Collapse(StripLeft(rest, IsJsWhitespace)));
  }

  /** The words of a word followed by whitespace: the word, then the words
      of what follows the whitespace. */
  lemma WordsWordBlank(t: string)
    requires t != [] && !IsJsWhitespace(t[0])
    ensures Words(t) == [FirstWord(t)] + Words(StripLeft(t[|FirstWord(t)|..], IsJsWhitespace))
  {
    WordsCons(t);
    WordsOfStripped(t[|FirstWord(t)|..]);
  }

  /** A word followed by nothing but whitespace normalises to the word. */
  lemma NormaliseWordThenBlank(t: string)
    requires t != [] && !IsJsWhitespace(t[0])
    requires |FirstWord(t)| < |t| && StripLeft(t[|FirstWord(t)|..], IsJsWhitespace) == []
    ensures Strip(Collapse(t), IsJsWhitespace) == JoinWithSpace(Words(t))
  {
    var w := FirstWord(t);
    FirstWordIsWord(t);
    CollapseWordBlank(t);
    WordsWordBlank(t);
    assert Collapse(t) == w + [' '];
    StripWordSpace(w);
  }

  /** A word, whitespace and more words: the first word, one space, and the
      normalised rest. */
  lemma NormaliseWordThenMore(t: string, u: string)
    requires t != [] && !IsJsWhitespace(t[0])
    requires |FirstWord(t)| < |t| && u == StripLeft(t[|FirstWord(t)|..], IsJsWhitespace) && u != []
    requires Strip(Collapse(u), IsJsWhitespace) == JoinWithSpace(Words(u))
    ensures Strip(Collapse(t), IsJsWhitespace) == JoinWithSpace(Words(t))
  {
    var w := FirstWord(t);
    FirstWordIsWord(t);
    CollapseWordBlank(t);
    WordsWordBlank(t);
    StripLeftUnpadded(u);
    WordsCons(u);
    JoinCons(w, Words(u));
    CollapseIsCollapsed(u);
    StripWordSpaceRest(w, Collapse(u));
  }

  /** The name as stored is its words with one space between neighbours,
      starting from an input that does not begin with whitespace. */
  lemma {:induction false} NormaliseAsWordsFrom(t: string)
    requires t == [] || !IsJsWhitespace(t[0])
    ensures Strip(Collapse(t), IsJsWhitespace) == JoinWithSpace(Words(t))
    decreases |t|
  {
    if t != [] {
      var w := FirstWord(t);
      if |w| == |t| {
        assert t[..|w|] == t;
        NormaliseOneWord(t);
      } else {
        var u := StripLeft(t[|w|..], IsJsWhitespace);
        if u == [] {
          NormaliseWordThenBlank(t);
        } else {
          NormaliseAsWordsFrom(u);
          NormaliseWordThenMore(t, u);
        }
      }
    }
  }

  /** `name.replace(/\s+/g, ' ').trim()` is the name's words joined by
      single spaces: every run of whitespace between two words becomes one
      space, and whitespace at either end disappears. */
  lemma NormaliseAsWords(s: string)
    ensures NormaliseName(s) == JoinWithSpace(Words(s))
  {
    if s == [] || !IsJsWhitespace(s[0]) {
      NormaliseAsWordsFrom(s);
    } else {
      var u := StripLeft(s, IsJsWhitespace);
      CollapseBlankStart(s);
      WordsOfStripped(s);
      StripLeftUnpadded(u);
      StripSpaceFront(Collapse(u));
      NormaliseAsWordsFrom(u);
    }
  }
}
