/**
  The client's character-by-character narration extractor as a pure state
  machine. Outside narration mode it slides a window over the last 14
  characters looking for `"narration": "`; inside it emits characters,
  drops a backslash and emits the next character verbatim, and leaves the
  mode at an unescaped double quote.
 */
module NarrationSpec {

  /** The parser's state: mode, sliding window, pending escape, emitted narration. */
  datatype ParserState = ParserState(parsing: bool, window: string, escape: bool, narration: string)

  const NarrationStartPattern: string := "\"narration\": \""
  const PatternLength: nat := 14

  const ResetState := ParserState(false, "", false, "")

  /** `s` ends with `w`. */
  predicate IsSuffix(w: string, s: string)
  {
    |w| <= |s| && s[|s| - |w|..] == w
  }

  /** The window after sliding in one more character: at most the last 14. */
  function Slide(window: string, c: char): (r: string)
    ensures |r| <= PatternLength
    ensures |window| + 1 >= PatternLength ==> |r| == PatternLength
    ensures |window| < PatternLength ==> r == window + [c]
    ensures IsSuffix(r, window + [c])
  {
    var w := window + [c];
    if |w| > PatternLength then w[|w| - PatternLength..] else w
  }

  /**
    One character. Narration only ever grows, by at most the one character,
    and only in narration mode.
   */
  function Step(st: ParserState, c: char): (r: ParserState)
    ensures |st.narration| <= |r.narration| <= |st.narration| + 1
    ensures r.narration[..|st.narration|] == st.narration
    ensures !st.parsing ==> r.narration == st.narration
    ensures r.narration != st.narration ==> r.narration == st.narration + [c]
  {
    if st.parsing then
      if st.escape then st.(narration := st.narration + [c], escape := false)
      else if c == '\\' then st.(escape := true)
      else if c == '"' then st.(parsing := false)
      else st.(narration := st.narration + [c])
    else
      var w := Slide(st.window, c);
      if w == NarrationStartPattern then st.(parsing := true, escape := false, window := "")
      else st.(window := w)
  }

  /**
    A whole string, one character at a time. The narration grows by at most
    one character per character fed.
   */
  function Feed(st: ParserState, s: string): (r: ParserState)
    ensures |st.narration| <= |r.narration| <= |st.narration| + |s|
    decreases |s|
  {
    if s == [] then st else Step(Feed(st, s[..|s| - 1]), s[|s| - 1])
  }

  /** Feeding text never takes back emitted narration: what was emitted stays a prefix. */
  lemma {:induction false} FeedNarrationGrows(st: ParserState, s: string)
    ensures Feed(st, s).narration[..|st.narration|] == st.narration
    decreases |s|
  {
    if s != [] {
      var prev := Feed(st, s[..|s| - 1]);
      FeedNarrationGrows(st, s[..|s| - 1]);
      var next := Step(prev, s[|s| - 1]);
      assert next.narration[..|prev.narration|] == prev.narration;
      assert next.narration[..|st.narration|] == next.narration[..|prev.narration|][..|st.narration|];
    }
  }

  /** Feeding `s + t` at once ends where feeding `s` and then `t` ends: token boundaries do not matter. */
  lemma {:induction false} FeedAppend(st: ParserState, s: string, t: string)
    ensures Feed(st, s + t) == Feed(Feed(st, s), t)
    decreases |t|
  {
    if t == [] {
      assert s + t == s;
    } else {
      var t0 := t[..|t| - 1];
      assert (s + t)[..|s + t| - 1] == s + t0;
      assert (s + t)[|s + t| - 1] == t[|t| - 1];
      FeedAppend(st, s, t0);
    }
  }

  /**
    The window never exceeds the pattern length, is empty in narration mode,
    and is always made of characters fed last (a suffix of everything fed).
    Which suffix it is, outside narration, is `FeedOutsideNarration`'s.
   */
  lemma {:induction false} WindowBounded(st: ParserState, s: string)
    requires |st.window| <= PatternLength && (st.parsing ==> st.window == "")
    ensures |Feed(st, s).window| <= PatternLength
    ensures Feed(st, s).parsing ==> Feed(st, s).window == ""
    ensures IsSuffix(Feed(st, s).window, st.window + s)
    decreases |s|
  {
    if s == [] {
      assert (st.window + s)[|st.window + s| - |st.window|..] == st.window;
    } else {
      var s0 := s[..|s| - 1];
      var c := s[|s| - 1];
      WindowBounded(st, s0);
      assert st.window + s == (st.window + s0) + [c];
      WindowStep(Feed(st, s0), c, st.window + s0);
    }
  }

  /** One step keeps the window bounded, cleared in narration mode, and a suffix of the input. */
  lemma WindowStep(prev: ParserState, c: char, fed: string)
    requires |prev.window| <= PatternLength && (prev.parsing ==> prev.window == "")
    requires IsSuffix(prev.window, fed)
    ensures var next := Step(prev, c);
      |next.window| <= PatternLength && (next.parsing ==> next.window == "") &&
      IsSuffix(next.window, fed + [c])
  {
    var next := Step(prev, c);
    EmptySuffix(fed + [c]);
    if !prev.parsing {
      var w := Slide(prev.window, c);
      SuffixSnoc(prev.window, fed, c);
      SuffixTransitive(w, prev.window + [c], fed + [c]);
      assert next.window == w || next.window == "";
    }
  }

  lemma EmptySuffix(s: string)
    ensures IsSuffix("", s)
  {
    assert s[|s|..] == [];
  }

  lemma SuffixSnoc(w: string, s: string, c: char)
    requires IsSuffix(w, s)
    ensures IsSuffix(w + [c], s + [c])
  {
    assert (s + [c])[|s + [c]| - |w + [c]|..] == s[|s| - |w|..] + [c];
  }

  lemma SuffixTransitive(a: string, b: string, c: string)
    requires IsSuffix(a, b) && IsSuffix(b, c)
    ensures IsSuffix(a, c)
  {
    assert c[|c| - |a|..] == c[|c| - |b|..][|b| - |a|..];
  }

  /** The last `PatternLength` characters of `s`, or all of `s` when it is shorter. */
  function Recent(s: string): (r: string)
    ensures |r| <= PatternLength && IsSuffix(r, s)
    ensures |s| >= PatternLength ==> |r| == PatternLength
    ensures |s| < PatternLength ==> r == s
  {
    if |s| > PatternLength then s[|s| - PatternLength..] else s
  }

  /** No prefix of `s` longer than `from` ends with the pattern. */
  predicate NoPatternAfter(s: string, from: nat)
  {
    forall k :: from < k <= |s| ==> !IsSuffix(NarrationStartPattern, s[..k])
  }

  /** Sliding a character into the recent characters gives the recent characters of the longer text. */
  lemma SlideRecent(s: string, c: char)
    ensures Slide(Recent(s), c) == Recent(s + [c])
  {
    if |s| > PatternLength {
      assert Recent(s) + [c] == s[|s| - PatternLength..] + [c];
      assert (s[|s| - PatternLength..] + [c])[1..] == (s + [c])[|s + [c]| - PatternLength..];
    }
  }

  /** The recent characters are the pattern exactly when the text ends with it. */
  lemma RecentIsPattern(s: string)
    ensures Recent(s) == NarrationStartPattern <==> IsSuffix(NarrationStartPattern, s)
  {
    PatternHasLength();
  }

  /**
    Outside narration mode, as long as the characters fed never complete the
    pattern, the parser only slides its window, which holds exactly the last
    `PatternLength` characters seen (all of them while fewer were seen).
   */
  lemma {:induction false} FeedOutsideNarration(st: ParserState, s: string)
    requires !st.parsing && |st.window| <= PatternLength
    requires NoPatternAfter(st.window + s, |st.window|)
    ensures Feed(st, s) == st.(window := Recent(st.window + s))
    decreases |s|
  {
    if s == [] {
      assert st.window + s == st.window;
    } else {
      var s0 := s[..|s| - 1];
      var c := s[|s| - 1];
      var x := st.window + s;
      assert x == (st.window + s0) + [c];
      forall k | |st.window| < k <= |st.window + s0|
        ensures !IsSuffix(NarrationStartPattern, (st.window + s0)[..k])
      {
        assert (st.window + s0)[..k] == x[..k];
      }
      FeedOutsideNarration(st, s0);
      SlideRecent(st.window + s0, c);
      RecentIsPattern(x);
      assert x[..|x|] == x;
    }
  }

  /**
    Over a text that has not completed the pattern, the next character
    enters narration mode, with the window cleared and nothing emitted,
    exactly when it completes the pattern; otherwise it only slides the
    window.
   */
  lemma FeedEntersNarration(st: ParserState, s: string, c: char)
    requires !st.parsing && |st.window| <= PatternLength
    requires NoPatternAfter(st.window + s, |st.window|)
    ensures IsSuffix(NarrationStartPattern, st.window + s + [c]) ==>
      Feed(st, s + [c]) == st.(parsing := true, escape := false, window := "")
    ensures !IsSuffix(NarrationStartPattern, st.window + s + [c]) ==>
      Feed(st, s + [c]) == st.(window := Recent(st.window + s + [c]))
  {
    assert (s + [c])[..|s + [c]| - 1] == s;
    FeedOutsideNarration(st, s);
    SlideRecent(st.window + s, c);
    RecentIsPattern(st.window + s + [c]);
  }

  /** The pattern opens with a double quote and is 14 characters long. */
  lemma PatternHasLength()
    ensures |NarrationStartPattern| == PatternLength
    ensures NarrationStartPattern[0] == '"'
  {
  }

  /**
    A window without a double quote cannot complete the pattern before the
    whole pattern has been fed: any match would start with a quote inside
    the window.
   */
  lemma QuoteFreeNoEarlyMatch(w: string, j: nat)
    requires '"' !in w && j < PatternLength
    ensures NoPatternAfter(w + NarrationStartPattern[..j], |w|)
  {
    PatternHasLength();
    var x := w + NarrationStartPattern[..j];
    forall k | |w| < k <= |x|
      ensures !IsSuffix(NarrationStartPattern, x[..k])
    {
      if IsSuffix(NarrationStartPattern, x[..k]) {
        assert false;
      }
    }
  }

  /** A text without a double quote never completes the pattern. */
  lemma QuoteFreeNoPattern(s: string)
    requires '"' !in s
    ensures NoPatternAfter(s, 0)
  {
    PatternHasLength();
    forall k | 0 < k <= |s|
      ensures !IsSuffix(NarrationStartPattern, s[..k])
    {
      if IsSuffix(NarrationStartPattern, s[..k]) {
        assert false;
      }
    }
  }

  /** The recent characters of a quote-free text are quote-free. */
  lemma RecentQuoteFree(s: string)
    requires '"' !in s
    ensures '"' !in Recent(s)
  {
    assert forall i :: 0 <= i < |Recent(s)| ==> Recent(s)[i] == s[|s| - |Recent(s)| + i];
  }

  /** Outside narration mode, a quote-free window followed by the pattern enters narration mode. */
  lemma FeedPattern(st: ParserState)
    requires !st.parsing && |st.window| <= PatternLength && '"' !in st.window
    ensures Feed(st, NarrationStartPattern) == st.(parsing := true, escape := false, window := "")
  {
    PatternHasLength();
    var p := NarrationStartPattern;
    var head := p[..PatternLength - 1];
    var c := p[PatternLength - 1];
    assert head + [c] == p;
    QuoteFreeNoEarlyMatch(st.window, PatternLength - 1);
    assert (st.window + head + [c])[|st.window + head + [c]| - PatternLength..] == p;
    FeedEntersNarration(st, head, c);
  }

  /** Narration mode is entered exactly when the characters so far end with the pattern. */
  lemma EnterNarration(st: ParserState, c: char)
    requires !st.parsing && |st.window| <= PatternLength
    ensures Step(st, c).parsing <==> IsSuffix(NarrationStartPattern, st.window + [c])
    ensures Step(st, c).parsing ==> Step(st, c).window == "" && !Step(st, c).escape
  {
    PatternHasLength();
    var w := st.window + [c];
    var slid := Slide(st.window, c);
    if |w| > PatternLength {
      assert slid == w[|w| - PatternLength..];
      assert IsSuffix(NarrationStartPattern, w) <==> slid == NarrationStartPattern;
    } else {
      assert slid == w;
      assert IsSuffix(NarrationStartPattern, w) <==> w == NarrationStartPattern;
    }
  }

  /** Inside narration mode a backslash is dropped and the character after it is emitted verbatim. */
  lemma EscapedCharacter(st: ParserState, c: char)
    requires st.parsing && !st.escape
    ensures Feed(st, ['\\', c]) == st.(narration := st.narration + [c])
  {
    assert ['\\', c][..1] == ['\\'];
    assert ['\\'][..0] == [];
  }

  /** Inside narration mode an unescaped double quote ends it and is not emitted. */
  lemma ClosingQuote(st: ParserState)
    requires st.parsing && !st.escape
    ensures Step(st, '"') == st.(parsing := false)
  {
  }

  // ---------------------------------------------------------------------------
  // Round trip with the string escaper

  /**
    A JSON-style escaping of only `"` and `\`. Other JSON escapes, such as
    `\n` for a newline, are not inverted by the extractor: it drops the
    backslash and emits the bare letter (see `EscapedCharacter`).
   */
  function Escape(n: string): (r: string)
    ensures |r| >= |n|
    decreases |n|
  {
    if n == [] then "" else Escape(n[..|n| - 1]) + EscapeChar(n[|n| - 1])
  }

  /** One character, with a backslash before `"` and `\`. */
  function EscapeChar(c: char): (r: string)
    ensures |r| >= 1 && r[|r| - 1] == c
  {
    if c == '"' || c == '\\' then ['\\', c] else [c]
  }

  /** The character that completes the pattern in the window enters narration mode. */
  lemma StepCompletes(st: ParserState, c: char)
    requires !st.parsing && st.window + [c] == NarrationStartPattern
    ensures Step(st, c) == st.(parsing := true, escape := false, window := "")
  {
    PatternHasLength();
    assert Slide(st.window, c) == st.window + [c];
  }

  /** Inside narration mode an ordinary character is emitted. */
  lemma PlainCharacter(st: ParserState, c: char)
    requires st.parsing && !st.escape && c != '"' && c != '\\'
    ensures Feed(st, [c]) == st.(narration := st.narration + [c])
  {
    assert [c][..0] == [];
  }

  lemma SnocAssoc(a: string, b: string, c: char)
    ensures a + b + [c] == a + (b + [c])
  {
  }

  /** In narration mode, one escaped character emits that character. */
  lemma FeedEscapedChar(st: ParserState, c: char)
    requires st.parsing && !st.escape
    ensures Feed(st, EscapeChar(c)) == st.(narration := st.narration + [c])
  {
    if c == '"' || c == '\\' {
      EscapedCharacter(st, c);
    } else {
      PlainCharacter(st, c);
    }
  }

  /** In narration mode, an escaped text emits exactly the original text. */
  lemma {:induction false} FeedEscaped(st: ParserState, n: string)
    requires st.parsing && !st.escape
    ensures Feed(st, Escape(n)) == st.(narration := st.narration + n)
    decreases |n|
  {
    if n != [] {
      var n0 := n[..|n| - 1];
      var c := n[|n| - 1];
      var mid := st.(narration := st.narration + n0);
      calc {
        Feed(st, Escape(n));
        Feed(st, Escape(n0) + EscapeChar(c));
        { FeedAppend(st, Escape(n0), EscapeChar(c)); }
        Feed(Feed(st, Escape(n0)), EscapeChar(c));
        { FeedEscaped(st, n0); }
        Feed(mid, EscapeChar(c));
        { FeedEscapedChar(mid, c); }
        mid.(narration := st.narration + n0 + [c]);
        { assert n == n0 + [c]; SnocAssoc(st.narration, n0, c); }
        st.(narration := st.narration + n);
      }
    }
  }

  /**
    The extractor inverts the escaper: outside narration mode, with no double
    quote in the window, a narration field `"narration": "<escaped n>"` emits
    exactly `n` and leaves the parser outside narration mode with the window
    cleared.
   */
  lemma NarrationRoundTrip(st: ParserState, n: string)
    requires !st.parsing && |st.window| <= PatternLength && '"' !in st.window
    ensures Feed(st, NarrationStartPattern + Escape(n) + "\"") ==
      ParserState(false, "", false, st.narration + n)
  {
    FeedPattern(st);
    var inMode := st.(parsing := true, escape := false, window := "");
    FeedAppend(st, NarrationStartPattern, Escape(n));
    FeedEscaped(inMode, n);
    FeedAppend(st, NarrationStartPattern + Escape(n), "\"");
    assert "\""[..0] == [];
  }

  /**
    A fresh parser fed an answer that opens with quote-free text (such as
    `{`) and then the narration field emits exactly the narration.
   */
  lemma AnswerNarrationRoundTrip(head: string, n: string)
    requires '"' !in head
    ensures Feed(ResetState, head + NarrationStartPattern + Escape(n) + "\"") ==
      ParserState(false, "", false, n)
  {
    QuoteFreeNoPattern(head);
    assert ResetState.window + head == head;
    FeedOutsideNarration(ResetState, head);
    var afterHead := ResetState.(window := Recent(head));
    RecentQuoteFree(head);
    var rest := NarrationStartPattern + Escape(n) + "\"";
    assert head + NarrationStartPattern + Escape(n) + "\"" == head + rest;
    FeedAppend(ResetState, head, rest);
    NarrationRoundTrip(afterHead, n);
  }
}
