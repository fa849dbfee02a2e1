/** Any layout of a list of tokens, with whitespace and comments between them, is
    lexed back to exactly these tokens, each on its line. */
module ProtoLayout {
  import opened Common
  import opened ProtoLexer
  import opened ProtoCutting
  import opened ProtoLexerProofs

  datatype Word = Word(value: string, kind: Kind)

  /** The word is a token by itself. */
  predicate Lexes(u: Unicode, w: Word)
  {
    IsTokenOf(u, w.value, w.kind, "")
  }

  /** Whitespace, and then any whitespace and comments. */
  predicate Separator(g: string)
  {
    g != "" && IsBlank(g[0]) && ClosedGap(g)
  }

  predicate Laid(u: Unicode, words: seq<Word>, gaps: seq<string>)
  {
    |words| == |gaps| && forall i :: 0 <= i < |words| ==> Lexes(u, words[i]) && Separator(gaps[i])
  }

  /** Every word with a separator behind it. */
  function Layout(words: seq<Word>, gaps: seq<string>): string
    requires |words| == |gaps|
  {
    if words == [] then "" else words[0].value + gaps[0] + Layout(words[1..], gaps[1..])
  }

  /** Where the words stand in a text that holds their layout from this offset on. */
  function SpansOf(text: string, at: nat, words: seq<Word>, gaps: seq<string>): (spans: seq<Span>)
    requires |words| == |gaps| && at <= |text| && text[at..] == Layout(words, gaps)
    ensures |spans| == |words|
    ensures forall i :: 0 <= i < |words| ==> spans[i].token.value == words[i].value && spans[i].token.kind == words[i].kind
    decreases |words|
  {
    if words == [] then []
    else
      LayoutSteps(text, at, words, gaps);
      [Span(Token(words[0].value, words[0].kind, 1 + Newlines(text[..at])), at)] +
      SpansOf(text, at + |words[0].value| + |gaps[0]|, words[1..], gaps[1..])
  }

  lemma {:induction false} LayoutSteps(text: string, at: nat, words: seq<Word>, gaps: seq<string>)
    requires |words| == |gaps| && words != [] && at <= |text| && text[at..] == Layout(words, gaps)
    ensures var m, n := at + |words[0].value|, at + |words[0].value| + |gaps[0]|;
      && n <= |text| && text[at..m] == words[0].value && text[m..n] == gaps[0] && text[n..] == Layout(words[1..], gaps[1..])
  {
    var w, g, rest := words[0].value, gaps[0], Layout(words[1..], gaps[1..]);
    var s := text[at..];
    assert s == w + g + rest;
    assert text[at..at + |w|] == s[..|w|] == w;
    assert text[at + |w|..at + |w| + |g|] == s[|w|..|w| + |g|] == g;
    assert text[at + |w| + |g|..] == s[|w| + |g|..] == rest;
  }

  lemma {:induction false} ClosedIsGap(s: string)
    requires ClosedGap(s)
    ensures IsGap(s)
    decreases |s|
  {
    if s != "" {
      if IsBlank(s[0]) {
        ClosedIsGap(s[1..]);
      } else if "//" <= s {
        assert s[1] == '/';
        ClosedIsGap(s[2 + ToLineEnd(s[2..])..]);
      } else {
        ClosedIsGap(s[FindClose(s[2..]).value + 4..]);
      }
    }
  }

  /** A word is still a token when whitespace follows it. */
  lemma LexesBefore(u: Unicode, w: Word, rest: string)
    requires Lexes(u, w) && rest != "" && IsBlank(rest[0])
    ensures IsTokenOf(u, w.value, w.kind, rest)
  {
  }

  lemma {:induction false} WordIsThere(u: Unicode, text: string, from: nat, at: nat, words: seq<Word>, gaps: seq<string>)
    requires Laid(u, words, gaps) && words != [] && from <= at <= |text| && text[at..] == Layout(words, gaps)
    requires ClosedGap(text[from..at])
    ensures Covered(ProtoLexicon(u), text, from, SpansOf(text, at, words, gaps)[0])
    ensures EndOf(SpansOf(text, at, words, gaps)[0]) == at + |words[0].value|
  {
    LayoutSteps(text, at, words, gaps);
    var m := at + |words[0].value|;
    assert text[m..][0] == text[m..m + |gaps[0]|][0] == gaps[0][0];
    LexesBefore(u, words[0], text[m..]);
  }

  lemma {:induction false} SpansStep(text: string, at: nat, words: seq<Word>, gaps: seq<string>, n: nat)
    requires |words| == |gaps| && words != [] && at <= |text| && text[at..] == Layout(words, gaps)
    requires n == at + |words[0].value| + |gaps[0]|
    ensures n <= |text| && text[n..] == Layout(words[1..], gaps[1..])
    ensures SpansOf(text, at, words, gaps)[1..] == SpansOf(text, n, words[1..], gaps[1..])
  {
    LayoutSteps(text, at, words, gaps);
  }

  /** A layout is covered by its words. */
  lemma {:induction false} LayoutCovers(u: Unicode, text: string, from: nat, at: nat, words: seq<Word>, gaps: seq<string>,
                                        spans: seq<Span>)
    requires Laid(u, words, gaps) && from <= at <= |text| && text[at..] == Layout(words, gaps)
    requires ClosedGap(text[from..at]) && spans == SpansOf(text, at, words, gaps)
    ensures Covers(ProtoLexicon(u), text, from, spans)
    decreases |words|
  {
    if words == [] {
      assert text[from..at] == text[from..];
      ClosedIsGap(text[from..]);
    } else {
      var m := at + |words[0].value|;
      var n := m + |gaps[0]|;
      LayoutSteps(text, at, words, gaps);
      SpansStep(text, at, words, gaps, n);
      WordIsThere(u, text, from, at, words, gaps);
      LayoutCovers(u, text, m, n, words[1..], gaps[1..], spans[1..]);
      CoversOneMore(ProtoLexicon(u), text, from, spans, m);
    }
  }

  lemma {:induction false} CoversOneMore(lex: Lexicon, text: string, from: nat, spans: seq<Span>, m: nat)
    requires from <= |text| && spans != [] && Covered(lex, text, from, spans[0]) && m == EndOf(spans[0])
    requires Covers(lex, text, m, spans[1..])
    ensures Covers(lex, text, from, spans)
  {
  }

  /** Lexing a layout behind any leading gap yields exactly its words. */
  lemma {:induction false} LayoutLexes(u: Unicode, lead: string, words: seq<Word>, gaps: seq<string>)
    requires ClosedGap(lead) && Laid(u, words, gaps)
    ensures var text := lead + Layout(words, gaps);
      text[|lead|..] == Layout(words, gaps) && Scan(u, text, 0, 1) == Ok(SpansOf(text, |lead|, words, gaps))
  {
    var text := lead + Layout(words, gaps);
    assert text[|lead|..] == Layout(words, gaps) && text[0..|lead|] == lead;
    LayoutCovers(u, text, 0, |lead|, words, gaps, SpansOf(text, |lead|, words, gaps));
    LexerIsExact(u, text, SpansOf(text, |lead|, words, gaps));
  }
}
