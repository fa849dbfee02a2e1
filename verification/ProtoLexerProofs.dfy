/** The Proto lexer loses nothing and invents nothing, and no other cutting of a
    text into tokens is possible. */
module ProtoLexerProofs {
  import opened Common
  import opened ProtoLexer
  import opened ProtoCutting

  // ------------------------------------------------------------------- faithfulness

  /** Whitespace and comments only; a line comment ends at a line feed or where
      the gap ends. */
  predicate IsGap(s: string)
    decreases |s|
  {
    s == "" || (IsBlank(s[0]) && IsGap(s[1..])) ||
    ("//" <= s && IsGap(s[2 + ToLineEnd(s[2..])..])) ||
    ("/*" <= s && FindClose(s[2..]).Some? && IsGap(s[FindClose(s[2..]).value + 4..]))
  }

  /** A gap before a token: every line comment in it has its line feed. */
  predicate ClosedGap(s: string)
    decreases |s|
  {
    s == "" || (IsBlank(s[0]) && ClosedGap(s[1..])) ||
    ("//" <= s && ToLineEnd(s[2..]) < |s[2..]| && ClosedGap(s[2 + ToLineEnd(s[2..])..])) ||
    ("/*" <= s && FindClose(s[2..]).Some? && ClosedGap(s[FindClose(s[2..]).value + 4..]))
  }

  /** The longest token of this kind at the front of a text. */
  predicate IsTokenOf(u: Unicode, value: string, kind: Kind, after: string)
  {
    value != "" &&
    match kind
    case Ident =>
      (IsAlpha(u, value[0]) || value[0] == '_') && (forall i :: 0 <= i < |value| ==> WordChar(u, value[i])) &&
      (after != "" ==> !WordChar(u, after[0]))
    case Number =>
      IsDigit(u, value[0]) && !IsAlpha(u, value[0]) && (forall i :: 0 <= i < |value| ==> IsAlnum(u, value[i])) &&
      (after != "" ==> !IsAlnum(u, after[0]))
    case Str => IsQuote(value[0]) && ToQuote(value[1..], value[0], false) == Some(|value| - 1)
    case Symbol =>
      |value| == 1 && !IsBlank(value[0]) && !IsQuote(value[0]) && !IsAlpha(u, value[0]) && value[0] != '_' &&
      !IsDigit(u, value[0]) && (value[0] == '/' ==> after == "" || (after[0] != '/' && after[0] != '*'))
  }

  /** The gaps and tokens of the Proto language. */
  function ProtoLexicon(u: Unicode): Lexicon
  {
    Lexicon((s: string) => ClosedGap(s), (s: string) => IsGap(s), (v, k, a) => IsTokenOf(u, v, k, a))
  }

  lemma ProtoIsSane(u: Unicode)
    ensures Sane(ProtoLexicon(u))
  {
    forall v, k, a | ProtoLexicon(u).token(v, k, a) ensures v != "" && !IsBlank(v[0]) {
      assert IsTokenOf(u, v, k, a);
    }
  }

  /** The lexer, from this offset of the text on, returns these spans. */
  predicate Scans(u: Unicode, text: string, i: nat, spans: seq<Span>)
    requires i <= |text|
  {
    ScanFrom(u, text, i) == Ok(spans)
  }

  /** The lexer, started at this offset of the text. */
  function ScanFrom(u: Unicode, text: string, i: nat): Result<seq<Span>, LexError>
    requires i <= |text|
  {
    Scan(u, text[i..], i, 1 + Newlines(text[..i]))
  }

  // ------------------------------------------------------------ gaps within a text

  lemma {:induction false} CloseInPrefix(s: string, t: string)
    requires FindClose(s).Some?
    ensures FindClose(s + t) == FindClose(s)
  {
    if s[0] == '*' && s[1] == '/' {
    } else {
      assert (s + t)[1..] == s[1..] + t;
      CloseInPrefix(s[1..], t);
    }
  }

  lemma {:induction false} LineEndInPrefix(s: string, t: string)
    requires ToLineEnd(s) < |s|
    ensures ToLineEnd(s + t) == ToLineEnd(s)
  {
    if s[0] != '\n' {
      assert (s + t)[1..] == s[1..] + t;
      LineEndInPrefix(s[1..], t);
    }
  }

  /** A skipped piece before a gap makes a longer gap. */
  lemma GapGrows(u: Unicode, s: string, n: nat, k: nat)
    requires s != "" && HeadOf(u, s) == Skip(n) && n <= k <= |s| && IsGap(s[n..k])
    ensures IsGap(s[..k])
  {
    if IsBlank(s[0]) {
      assert s[..k][1..] == s[1..k];
    } else if "//" <= s {
      CommentGap(s, n, k);
    } else {
      BlockGap(s, n, k);
    }
  }

  lemma BlockGap(s: string, n: nat, k: nat)
    requires "/*" <= s && FindClose(s[2..]).Some? && n == FindClose(s[2..]).value + 4 <= k <= |s| && IsGap(s[n..k])
    ensures IsGap(s[..k])
  {
    var g := s[..k];
    assert g[2..] == s[2..][..k - 2];
    CloseWithin(s[2..], n - 4, k - 2);
    assert g[0] == '/' && g[1] == '*' && "/*" <= g;
    assert g[n..] == s[n..k];
  }

  lemma {:induction false} CloseWithin(s: string, c: nat, m: nat)
    requires FindClose(s) == Some(c) && c + 2 <= m <= |s|
    ensures FindClose(s[..m]) == Some(c)
  {
    if c > 0 {
      assert s[..m][1..] == s[1..][..m - 1];
      CloseWithin(s[1..], c - 1, m - 1);
    }
  }

  lemma {:induction false} LineEndWithin(s: string, m: nat)
    requires m <= |s|
    ensures ToLineEnd(s[..m]) == if ToLineEnd(s) <= m then ToLineEnd(s) else m
  {
    if m > 0 && s[0] != '\n' {
      assert s[..m][1..] == s[1..][..m - 1];
      LineEndWithin(s[1..], m - 1);
    }
  }

  lemma CommentGap(s: string, n: nat, k: nat)
    requires "//" <= s && n == 2 + ToLineEnd(s[2..]) && n <= k <= |s| && IsGap(s[n..k])
    ensures IsGap(s[..k])
  {
    var g := s[..k];
    assert g[2..] == s[2..][..k - 2];
    LineEndWithin(s[2..], k - 2);
    assert g[0] == '/' && g[1] == '/' && "//" <= g;
    assert g[n..] == s[n..k];
  }

  lemma {:induction false} ToQuoteWithin(s: string, quote: char, escaped: bool, n: nat)
    requires ToQuote(s, quote, escaped) == Some(n)
    ensures n <= |s| && ToQuote(s[..n], quote, escaped) == Some(n)
  {
    if n > 1 {
      assert s[..n][1..] == s[1..][..n - 1];
      ToQuoteWithin(s[1..], quote, !escaped && s[0] == '\\', n - 1);
    } else {
      assert s[..n][0] == s[0];
    }
  }

  lemma {:induction false} WordIsToken(u: Unicode, s: string)
    requires s != "" && (IsAlpha(u, s[0]) || s[0] == '_')
    ensures var n := 1 + WordLength(u, s[1..]); n <= |s| && IsTokenOf(u, s[..n], Ident, s[n..])
  {
    var n := 1 + WordLength(u, s[1..]);
    assert s[n..] == s[1..][n - 1..];
    assert forall i :: 1 <= i < n ==> s[i] == s[1..][i - 1];
  }

  lemma {:induction false} NumberIsToken(u: Unicode, s: string)
    requires s != "" && IsDigit(u, s[0]) && !IsAlpha(u, s[0])
    ensures var n := 1 + AlnumLength(u, s[1..]); n <= |s| && IsTokenOf(u, s[..n], Number, s[n..])
  {
    var n := 1 + AlnumLength(u, s[1..]);
    assert s[n..] == s[1..][n - 1..];
    assert forall i :: 1 <= i < n ==> s[i] == s[1..][i - 1];
  }

  lemma StringIsToken(u: Unicode, s: string, m: nat)
    requires s != "" && IsQuote(s[0]) && ToQuote(s[1..], s[0], false) == Some(m)
    ensures m < |s| && IsTokenOf(u, s[..m + 1], Str, s[m + 1..])
  {
    ToQuoteWithin(s[1..], s[0], false, m);
    assert s[..m + 1][1..] == s[1..][..m];
  }

  lemma HeadIsToken(u: Unicode, s: string, n: nat, kind: Kind)
    requires s != "" && HeadOf(u, s) == Take(n, kind)
    ensures n <= |s| && IsTokenOf(u, s[..n], kind, s[n..])
  {
    match kind
    case Str => StringIsToken(u, s, n - 1);
    case Ident => WordIsToken(u, s);
    case Number => NumberIsToken(u, s);
    case Symbol => SymbolIsToken(u, s);
  }

  lemma SymbolIsToken(u: Unicode, s: string)
    requires s != "" && HeadOf(u, s) == Take(1, Symbol)
    ensures IsTokenOf(u, s[..1], Symbol, s[1..])
  {
    if s[0] == '/' && |s| > 1 {
      assert s[1..][0] == s[1];
      assert s[1] == '/' ==> "//" <= s;
      assert s[1] == '*' ==> "/*" <= s;
    }
  }

  lemma ClosedGapGrows(u: Unicode, s: string, n: nat, k: nat)
    requires s != "" && HeadOf(u, s) == Skip(n) && n <= k < |s| && !IsBlank(s[k]) && ClosedGap(s[n..k])
    ensures ClosedGap(s[..k])
  {
    if IsBlank(s[0]) {
      assert s[..k][1..] == s[1..k];
    } else if "//" <= s {
      ClosedLineComment(s, n, k);
    } else {
      ClosedBlockComment(s, n, k);
    }
  }

  lemma ClosedLineComment(s: string, n: nat, k: nat)
    requires "//" <= s && n == 2 + ToLineEnd(s[2..]) && n <= k < |s| && !IsBlank(s[k]) && ClosedGap(s[n..k])
    ensures ClosedGap(s[..k])
  {
    var g := s[..k];
    assert s[2..][n - 2] == s[n];
    assert g[2..] == s[2..][..k - 2];
    LineEndWithin(s[2..], k - 2);
    assert g[0] == '/' && g[1] == '/' && "//" <= g;
    assert g[n..] == s[n..k];
  }

  lemma ClosedBlockComment(s: string, n: nat, k: nat)
    requires "/*" <= s && FindClose(s[2..]).Some? && n == FindClose(s[2..]).value + 4 <= k < |s| && ClosedGap(s[n..k])
    ensures ClosedGap(s[..k])
  {
    var g, rest := s[..k], s[n..k];
    assert g[2..] == s[2..][..k - 2];
    CloseWithin(s[2..], n - 4, k - 2);
    assert g[0] == '/' && g[1] == '*' && "/*" <= g;
    assert g[n..] == rest;
    ClosedByBlock(g, n - 4, rest);
  }

  lemma {:induction false} ClosedByBlock(g: string, c: nat, rest: string)
    requires "/*" <= g && FindClose(g[2..]) == Some(c) && rest == g[c + 4..] && ClosedGap(rest)
    ensures ClosedGap(g)
  {
  }

  // ------------------------------------------------------------- one step of the scan

  lemma NewlinesAcross(text: string, i: nat, n: nat)
    requires i + n <= |text|
    ensures Newlines(text[..i + n]) == Newlines(text[..i]) + Newlines(text[i..][..n])
  {
    assert text[..i + n] == text[..i] + text[i..][..n];
    NewlinesSplit(text[..i], text[i..][..n]);
  }

  lemma {:induction false} ScanIs(u: Unicode, text: string, j: nat, s: string, line: nat)
    requires j <= |text| && s == text[j..] && line == 1 + Newlines(text[..j])
    ensures Scan(u, s, j, line) == ScanFrom(u, text, j)
  {
  }

  /** A skipped piece changes nothing. */
  lemma SkipStep(u: Unicode, text: string, i: nat, n: nat, j: nat)
    requires i < |text| && HeadOf(u, text[i..]) == Skip(n) && j == i + n
    ensures j <= |text| && ScanFrom(u, text, i) == ScanFrom(u, text, j)
  {
    var s, line := text[i..], 1 + Newlines(text[..i]);
    var rest, next := s[n..], line + Newlines(s[..n]);
    SkipTo(u, s, i, line, n, j, rest, next);
    assert rest == text[j..];
    NewlinesAcross(text, i, n);
    ScanIs(u, text, j, rest, next);
  }

  function SpanAt(text: string, i: nat, n: nat, kind: Kind): Span
    requires i + n <= |text|
  {
    Span(Token(text[i..i + n], kind, 1 + Newlines(text[..i])), i)
  }

  lemma TakeStep(u: Unicode, text: string, i: nat, n: nat, kind: Kind, j: nat)
    requires i < |text| && HeadOf(u, text[i..]) == Take(n, kind) && j == i + n
    ensures j <= |text| && ScanFrom(u, text, i) == Prepend(SpanAt(text, i, n, kind), ScanFrom(u, text, j))
  {
    var s, line := text[i..], 1 + Newlines(text[..i]);
    var rest, next := s[n..], line + Newlines(s[..n]);
    assert rest == text[j..] && s[..n] == text[i..j];
    TakeTo(u, s, i, line, n, kind, j, rest, next, SpanAt(text, i, n, kind));
    NewlinesAcross(text, i, n);
    ScanIs(u, text, j, rest, next);
  }

  /** The spans behind these n characters, and the spans from here. */
  lemma SkipScans(u: Unicode, text: string, i: nat, n: nat, j: nat, spans: seq<Span>)
    requires i < |text| && HeadOf(u, text[i..]) == Skip(n) && j == i + n
    ensures j <= |text| && (Scans(u, text, i, spans) <==> Scans(u, text, j, spans))
  {
    SkipStep(u, text, i, n, j);
  }

  lemma TakeScans(u: Unicode, text: string, i: nat, n: nat, kind: Kind, j: nat, spans: seq<Span>)
    requires i < |text| && HeadOf(u, text[i..]) == Take(n, kind) && j == i + n
    ensures j <= |text|
    ensures Scans(u, text, i, spans) <==>
      (spans != [] && spans[0] == SpanAt(text, i, n, kind) && Scans(u, text, j, spans[1..]))
  {
    TakeStep(u, text, i, n, kind, j);
    PrependIs(SpanAt(text, i, n, kind), ScanFrom(u, text, j), spans);
  }

  lemma PrependIs(span: Span, rest: Result<seq<Span>, LexError>, spans: seq<Span>)
    ensures Prepend(span, rest) == Ok(spans) <==> (spans != [] && spans[0] == span && rest == Ok(spans[1..]))
  {
    if spans != [] {
      assert spans == [spans[0]] + spans[1..];
    }
  }

  lemma ScansAtEnd(u: Unicode, text: string, spans: seq<Span>)
    ensures Scans(u, text, |text|, spans) <==> spans == []
  {
  }

  // ------------------------------------------------------ what is returned covers

  lemma SkipStartsGap(u: Unicode, text: string, i: nat, n: nat, j: nat)
    requires i < |text| && HeadOf(u, text[i..]) == Skip(n) && j == i + n
    ensures StartsGap(ProtoLexicon(u), text, i, n)
  {
    if IsGap(text[j..]) {
      LastGapGrows(u, text, i, n, j);
    }
    forall k | j <= k < |text| && !IsBlank(text[k]) && ClosedGap(text[j..k]) ensures ClosedGap(text[i..k]) {
      InnerGapGrows(u, text, i, n, j, k);
    }
  }

  lemma LastGapGrows(u: Unicode, text: string, i: nat, n: nat, j: nat)
    requires i < |text| && HeadOf(u, text[i..]) == Skip(n) && j == i + n && IsGap(text[j..])
    ensures IsGap(text[i..])
  {
    var s := text[i..];
    assert text[j..] == s[n..|s|] && s[..|s|] == s;
    GapGrows(u, s, n, |s|);
  }

  lemma InnerGapGrows(u: Unicode, text: string, i: nat, n: nat, j: nat, k: nat)
    requires i < |text| && HeadOf(u, text[i..]) == Skip(n) && j == i + n
    requires j <= k < |text| && !IsBlank(text[k]) && ClosedGap(text[j..k])
    ensures ClosedGap(text[i..k])
  {
    var s, m := text[i..], k - i;
    assert s[n..m] == text[j..k] && s[m] == text[k];
    ClosedGapGrows(u, s, n, m);
    assert s[..m] == text[i..k];
  }

  lemma TakenIsToken(u: Unicode, text: string, i: nat, n: nat, kind: Kind)
    requires i < |text| && HeadOf(u, text[i..]) == Take(n, kind)
    ensures i + n <= |text| && Covered(ProtoLexicon(u), text, i, SpanAt(text, i, n, kind))
    ensures EndOf(SpanAt(text, i, n, kind)) == i + n
  {
    ProtoIsSane(u);
    HeadIsToken(u, text[i..], n, kind);
    assert text[i..][n..] == text[i + n..] && text[i..][..n] == text[i..i + n];
    assert text[i..i] == "";
  }

  /** These tokens cover the text from this offset on. */
  predicate Cut(u: Unicode, text: string, i: nat, spans: seq<Span>)
    requires i <= |text|
  {
    Covers(ProtoLexicon(u), text, i, spans)
  }

  /** The spans that the lexer returns cover the text, with nothing but whitespace
      and comments between them and each token on its true line. */
  lemma {:induction false} ScanCovers(u: Unicode, text: string, i: nat, spans: seq<Span>)
    requires i <= |text| && Scans(u, text, i, spans)
    ensures Cut(u, text, i, spans)
    decreases |text| - i
  {
    if i == |text| {
      ScansAtEnd(u, text, spans);
      assert IsGap(text[i..]);
    } else {
      var h := HeadOf(u, text[i..]);
      if h.Skip? {
        var j := SkippedScans(u, text, i, spans);
        ScanCovers(u, text, j, spans);
        SkippedCovers(u, text, i, j - i, j, spans);
      } else {
        var j := TakenScans(u, text, i, spans);
        ScanCovers(u, text, j, spans[1..]);
        TakenCovers(u, text, i, j - i, h.kind, j, spans);
      }
    }
  }

  lemma SkippedScans(u: Unicode, text: string, i: nat, spans: seq<Span>) returns (j: nat)
    requires i < |text| && Scans(u, text, i, spans) && HeadOf(u, text[i..]).Skip?
    ensures i < j <= |text| && HeadOf(u, text[i..]) == Skip(j - i) && Scans(u, text, j, spans)
  {
    var h := HeadOf(u, text[i..]);
    j := i + h.length;
    SkipScans(u, text, i, h.length, j, spans);
  }

  lemma TakenScans(u: Unicode, text: string, i: nat, spans: seq<Span>) returns (j: nat)
    requires i < |text| && Scans(u, text, i, spans) && !HeadOf(u, text[i..]).Skip?
    ensures i < j <= |text| && HeadOf(u, text[i..]).Take? && HeadOf(u, text[i..]).length == j - i
    ensures spans != [] && spans[0] == SpanAt(text, i, j - i, HeadOf(u, text[i..]).kind) && Scans(u, text, j, spans[1..])
  {
    HeadGoesOn(u, text, i, spans);
    var h := HeadOf(u, text[i..]);
    j := i + h.length;
    TakeScans(u, text, i, h.length, h.kind, j, spans);
  }

  lemma HeadGoesOn(u: Unicode, text: string, i: nat, spans: seq<Span>)
    requires i < |text| && Scans(u, text, i, spans)
    ensures HeadOf(u, text[i..]).Skip? || HeadOf(u, text[i..]).Take?
  {
  }

  lemma SkippedCovers(u: Unicode, text: string, i: nat, n: nat, j: nat, spans: seq<Span>)
    requires i < |text| && HeadOf(u, text[i..]) == Skip(n) && j == i + n && Cut(u, text, j, spans)
    ensures Cut(u, text, i, spans)
  {
    SkipStartsGap(u, text, i, n, j);
    ProtoIsSane(u);
    AfterGap(ProtoLexicon(u), text, i, n, spans);
  }

  lemma TakenCovers(u: Unicode, text: string, i: nat, n: nat, kind: Kind, j: nat, spans: seq<Span>)
    requires i < |text| && HeadOf(u, text[i..]) == Take(n, kind) && j == i + n <= |text|
    requires spans != [] && spans[0] == SpanAt(text, i, n, kind) && Cut(u, text, j, spans[1..])
    ensures Cut(u, text, i, spans)
  {
    TakenIsToken(u, text, i, n, kind);
  }

  // ---------------------------------------------------------------------- failures

  /** An unterminated comment or string stands in the text at this line. */
  ghost predicate Open(u: Unicode, text: string, error: LexError)
  {
    exists i :: 0 <= i < |text| && OpenAt(text, i, error)
  }

  predicate OpenAt(text: string, i: nat, error: LexError)
    requires i < |text|
  {
    && error.line == 1 + Newlines(text[..i])
    && match error
       case UnterminatedComment(_) => "/*" <= text[i..] && FindClose(text[i..][2..]).None?
       case UnterminatedString(_) => IsQuote(text[i]) && ToQuote(text[i..][1..], text[i], false).None?
  }

  predicate Fails(u: Unicode, text: string, i: nat, error: LexError)
    requires i <= |text|
  {
    ScanFrom(u, text, i) == Err(error)
  }

  lemma SkipFails(u: Unicode, text: string, i: nat, n: nat, j: nat, error: LexError)
    requires i < |text| && HeadOf(u, text[i..]) == Skip(n) && Fails(u, text, i, error) && j == i + n
    ensures j <= |text| && Fails(u, text, j, error)
  {
    SkipStep(u, text, i, n, j);
  }

  lemma TakeFails(u: Unicode, text: string, i: nat, n: nat, kind: Kind, j: nat, error: LexError)
    requires i < |text| && HeadOf(u, text[i..]) == Take(n, kind) && Fails(u, text, i, error) && j == i + n
    ensures j <= |text| && Fails(u, text, j, error)
  {
    TakeStep(u, text, i, n, kind, j);
    assert ScanFrom(u, text, j).Err?;
  }

  lemma FailsHere(u: Unicode, text: string, i: nat, error: LexError)
    requires i < |text| && Fails(u, text, i, error) && !HeadOf(u, text[i..]).Skip? && !HeadOf(u, text[i..]).Take?
    ensures OpenAt(text, i, error)
  {
    assert text[i..][0] == text[i];
  }

  lemma {:induction false} ScanFails(u: Unicode, text: string, i: nat, error: LexError)
    requires i <= |text| && Fails(u, text, i, error)
    ensures Open(u, text, error)
    decreases |text| - i
  {
    if i < |text| {
      var h := HeadOf(u, text[i..]);
      if h.Skip? {
        var j := i + h.length;
        SkipFails(u, text, i, h.length, j, error);
        ScanFails(u, text, j, error);
      } else if h.Take? {
        var j := i + h.length;
        TakeFails(u, text, i, h.length, h.kind, j, error);
        ScanFails(u, text, j, error);
      } else {
        FailsHere(u, text, i, error);
      }
    }
  }

  /** The lexer ends on every text. It fails only on an unterminated comment or
      string; otherwise its tokens are placed and cover the text. */
  lemma {:induction false} LexerIsFaithful(u: Unicode, text: string)
    ensures var r := Scan(u, text, 0, 1);
      && (r.Err? ==> Open(u, text, r.error))
      && (r.Ok? ==> Covers(ProtoLexicon(u), text, 0, r.value) && Placed(text, r.value))
  {
    assert text[0..] == text && text[..0] == "";
    if Scan(u, text, 0, 1).Err? {
      ScanFails(u, text, 0, Scan(u, text, 0, 1).error);
    } else {
      ScanCovers(u, text, 0, Scan(u, text, 0, 1).value);
      ProtoIsSane(u);
      CoverPlaces(ProtoLexicon(u), text, 0, Scan(u, text, 0, 1).value);
    }
  }

  // ------------------------------------------------- covering determines the tokens

  lemma GapHead(u: Unicode, g: string, rest: string) returns (n: nat)
    requires g != "" && ClosedGap(g)
    ensures 0 < n <= |g| && HeadOf(u, g + rest) == Skip(n) && ClosedGap(g[n..])
  {
    var s := g + rest;
    if IsBlank(g[0]) {
      n := 1;
    } else if "//" <= g {
      assert g[0] == '/' && g[1] == '/' && !("/*" <= g);
      n := 2 + ToLineEnd(g[2..]);
      assert s[2..] == g[2..] + rest;
      LineEndInPrefix(g[2..], rest);
      assert "//" <= s;
    } else {
      n := FindClose(g[2..]).value + 4;
      assert s[2..] == g[2..] + rest;
      CloseInPrefix(g[2..], rest);
      assert "/*" <= s && !("//" <= s) by { assert s[1] == g[1] == '*'; }
    }
  }

  lemma LastGapHead(u: Unicode, s: string) returns (n: nat)
    requires s != "" && IsGap(s)
    ensures 0 < n <= |s| && HeadOf(u, s) == Skip(n) && IsGap(s[n..])
  {
    if IsBlank(s[0]) {
      n := 1;
    } else if "//" <= s {
      assert s[1] == '/';
      n := 2 + ToLineEnd(s[2..]);
    } else {
      n := FindClose(s[2..]).value + 4;
    }
  }

  lemma {:induction false} WordEnds(u: Unicode, s: string, rest: string)
    requires (forall i :: 0 <= i < |s| ==> WordChar(u, s[i])) && (rest != "" ==> !WordChar(u, rest[0]))
    ensures WordLength(u, s + rest) == |s|
  {
    if s == "" {
      assert s + rest == rest;
    } else {
      assert (s + rest)[1..] == s[1..] + rest;
      WordEnds(u, s[1..], rest);
    }
  }

  lemma {:induction false} AlnumEnds(u: Unicode, s: string, rest: string)
    requires (forall i :: 0 <= i < |s| ==> IsAlnum(u, s[i])) && (rest != "" ==> !IsAlnum(u, rest[0]))
    ensures AlnumLength(u, s + rest) == |s|
  {
    if s == "" {
      assert s + rest == rest;
    } else {
      assert (s + rest)[1..] == s[1..] + rest;
      AlnumEnds(u, s[1..], rest);
    }
  }

  lemma {:induction false} ToQuoteInPrefix(s: string, rest: string, quote: char, escaped: bool)
    requires ToQuote(s, quote, escaped).Some?
    ensures ToQuote(s + rest, quote, escaped) == ToQuote(s, quote, escaped)
  {
    assert (s + rest)[0] == s[0];
    if escaped || s[0] != quote {
      assert (s + rest)[1..] == s[1..] + rest;
      ToQuoteInPrefix(s[1..], rest, quote, !escaped && s[0] == '\\');
    }
  }

  /** No comment starts with a token. */
  lemma TokenIsNoComment(u: Unicode, v: string, kind: Kind, rest: string)
    requires IsTokenOf(u, v, kind, rest)
    ensures !("//" <= v + rest) && !("/*" <= v + rest)
  {
    var s := v + rest;
    assert s[0] == v[0];
    if s[0] == '/' {
      assert kind == Symbol;
      if |s| > 1 { assert s[1] == rest[0]; }
    }
  }

  /** A token in front is what the lexer takes. */
  lemma TokenHead(u: Unicode, v: string, kind: Kind, rest: string)
    requires IsTokenOf(u, v, kind, rest)
    ensures v + rest != "" && HeadOf(u, v + rest) == Take(|v|, kind)
  {
    var s := v + rest;
    assert s[0] == v[0] && s[1..] == v[1..] + rest;
    TokenIsNoComment(u, v, kind, rest);
    match kind
    case Ident => WordEnds(u, v[1..], rest);
    case Number => AlnumEnds(u, v[1..], rest);
    case Str => ToQuoteInPrefix(v[1..], rest, v[0], false);
    case Symbol =>
  }

  lemma FirstToken(u: Unicode, text: string, span: Span)
    requires TokenAt(ProtoLexicon(u), text, span)
    ensures var n := |span.token.value|;
      span.start < |text| && HeadOf(u, text[span.start..]) == Take(n, span.token.kind) &&
      span == SpanAt(text, span.start, n, span.token.kind)
  {
    var t := span.token;
    ProtoIsSane(u);
    TokenStarts(ProtoLexicon(u), text, span);
    assert IsTokenOf(u, t.value, t.kind, text[EndOf(span)..]);
    TokenHead(u, t.value, t.kind, text[EndOf(span)..]);
    assert text[span.start..] == t.value + text[EndOf(span)..];
  }

  lemma FirstGap(u: Unicode, text: string, i: nat, k: nat) returns (n: nat)
    requires i < k <= |text| && ProtoLexicon(u).gap(text[i..k])
    ensures 0 < n <= k - i && HeadOf(u, text[i..]) == Skip(n) && ProtoLexicon(u).gap(text[i + n..k])
  {
    assert ClosedGap(text[i..k]);
    assert text[i..k] + text[k..] == text[i..];
    n := GapHead(u, text[i..k], text[k..]);
    assert text[i..k][n..] == text[i + n..k];
  }

  lemma FirstLastGap(u: Unicode, text: string, i: nat) returns (n: nat)
    requires i < |text| && ProtoLexicon(u).lastGap(text[i..])
    ensures 0 < n <= |text| - i && HeadOf(u, text[i..]) == Skip(n) && ProtoLexicon(u).lastGap(text[i + n..])
  {
    assert IsGap(text[i..]);
    n := LastGapHead(u, text[i..]);
    assert text[i..][n..] == text[i + n..];
  }

  lemma CutRest(u: Unicode, text: string, i: nat, spans: seq<Span>, n: nat)
    requires i <= |text| && spans != [] && spans[0].start == i && n == |spans[0].token.value| && i + n <= |text|
    requires Cut(u, text, i, spans)
    ensures Cut(u, text, i + n, spans[1..])
  {
    assert EndOf(spans[0]) == i + n;
  }

  /** If the lexer returns `rest` from j on, it returns `spans` from i on. */
  predicate Resumes(u: Unicode, text: string, i: nat, j: nat, rest: seq<Span>, spans: seq<Span>)
    requires i <= |text| && j <= |text|
  {
    Scans(u, text, j, rest) ==> Scans(u, text, i, spans)
  }

  lemma Concluded(u: Unicode, text: string, i: nat, j: nat, rest: seq<Span>, spans: seq<Span>)
    requires i <= |text| && j <= |text| && Resumes(u, text, i, j, rest, spans) && Scans(u, text, j, rest)
    ensures Scans(u, text, i, spans)
  {
  }

  lemma LastGapCovers(u: Unicode, text: string, i: nat, spans: seq<Span>) returns (j: nat)
    requires i < |text| && spans == [] && Cut(u, text, i, spans)
    ensures i < j <= |text| && Cut(u, text, j, spans)
    ensures Resumes(u, text, i, j, spans, spans)
  {
    var n := FirstLastGap(u, text, i);
    j := i + n;
    SkipScans(u, text, i, n, j, spans);
  }

  lemma TokenCovers(u: Unicode, text: string, i: nat, spans: seq<Span>) returns (j: nat, rest: seq<Span>)
    requires i < |text| && spans != [] && spans[0].start == i && Cut(u, text, i, spans)
    ensures i < j <= |text| && Cut(u, text, j, rest)
    ensures Resumes(u, text, i, j, rest, spans)
  {
    var n := |spans[0].token.value|;
    j, rest := i + n, spans[1..];
    FirstToken(u, text, spans[0]);
    TakeScans(u, text, i, n, spans[0].token.kind, j, spans);
    CutRest(u, text, i, spans, n);
  }

  lemma GapCovers(u: Unicode, text: string, i: nat, spans: seq<Span>) returns (j: nat)
    requires i < |text| && spans != [] && spans[0].start != i && Cut(u, text, i, spans)
    ensures i < j <= |text| && Cut(u, text, j, spans)
    ensures Resumes(u, text, i, j, spans, spans)
  {
    j := GapBefore(u, text, i, spans);
    SkipScans(u, text, i, j - i, j, spans);
  }

  lemma GapBefore(u: Unicode, text: string, i: nat, spans: seq<Span>) returns (j: nat)
    requires i < |text| && spans != [] && spans[0].start != i && Cut(u, text, i, spans)
    ensures i < j <= |text| && HeadOf(u, text[i..]) == Skip(j - i) && Cut(u, text, j, spans)
  {
    ProtoIsSane(u);
    TokenStarts(ProtoLexicon(u), text, spans[0]);
    var n := FirstGap(u, text, i, spans[0].start);
    j := i + n;
  }

  lemma NothingLeft(u: Unicode, text: string, spans: seq<Span>)
    requires Cut(u, text, |text|, spans)
    ensures Scans(u, text, |text|, spans)
  {
    if spans != [] {
      ProtoIsSane(u);
      TokenStarts(ProtoLexicon(u), text, spans[0]);
    } else {
      ScansAtEnd(u, text, spans);
    }
  }

  /** Spans that cover a text are the ones the lexer returns. */
  lemma {:induction false} CoversScan(u: Unicode, text: string, i: nat, spans: seq<Span>)
    requires i <= |text| && Cut(u, text, i, spans)
    ensures Scans(u, text, i, spans)
    decreases |text| - i
  {
    if i == |text| {
      NothingLeft(u, text, spans);
    } else if spans == [] {
      var j := LastGapCovers(u, text, i, spans);
      CoversScan(u, text, j, spans);
      Concluded(u, text, i, j, spans, spans);
    } else if spans[0].start == i {
      var j, rest := TokenCovers(u, text, i, spans);
      CoversScan(u, text, j, rest);
      Concluded(u, text, i, j, rest, spans);
    } else {
      var j := GapCovers(u, text, i, spans);
      CoversScan(u, text, j, spans);
      Concluded(u, text, i, j, spans, spans);
    }
  }

  /** The lexer, exactly: it returns a list of tokens if and only if they cover the
      text, so nothing is lost, nothing invented, and no other cutting is possible. */
  lemma {:induction false} LexerIsExact(u: Unicode, text: string, spans: seq<Span>)
    ensures Scan(u, text, 0, 1) == Ok(spans) <==> Covers(ProtoLexicon(u), text, 0, spans)
  {
    assert text[0..] == text && text[..0] == "";
    if Scan(u, text, 0, 1) == Ok(spans) {
      ScanCovers(u, text, 0, spans);
    }
    if Covers(ProtoLexicon(u), text, 0, spans) {
      CoversScan(u, text, 0, spans);
    }
  }
}
