/** The hand-written Proto lexer (lex_proto in
    scripts/generate-api-rtapi-denominator.py). */
module ProtoLexer {
  import opened Common

  datatype Kind = Ident | Number | Str | Symbol

  datatype Token = Token(value: string, kind: Kind, line: nat)

  /** A token and the offset at which it starts. */
  datatype Span = Span(token: Token, start: nat)

  datatype LexError = UnterminatedComment(line: nat) | UnterminatedString(line: nat)

  /** What Unicode says of characters beyond ASCII: str.isalpha, str.isdigit, and
      whatever else str.isalnum admits. */
  datatype Unicode = Unicode(alpha: char -> bool, digit: char -> bool, numeric: char -> bool)

  predicate IsAlpha(u: Unicode, c: char)
  {
    'a' <= c <= 'z' || 'A' <= c <= 'Z' || (c >= '\U{80}' && u.alpha(c))
  }

  predicate IsDigit(u: Unicode, c: char)
  {
    '0' <= c <= '9' || (c >= '\U{80}' && u.digit(c))
  }

  predicate IsAlnum(u: Unicode, c: char)
  {
    IsAlpha(u, c) || IsDigit(u, c) || (c >= '\U{80}' && u.numeric(c))
  }

  predicate IsBlank(c: char)
  {
    c == ' ' || c == '\t' || c == '\r' || c == '\n'
  }

  predicate IsQuote(c: char)
  {
    c == '"' || c == '\''
  }

  predicate WordChar(u: Unicode, c: char)
  {
    IsAlnum(u, c) || c == '_'
  }

  function Newlines(s: string): nat
  {
    if s == "" then 0 else (if s[0] == '\n' then 1 else 0) + Newlines(s[1..])
  }

  lemma {:induction false} NewlinesSplit(a: string, b: string)
    ensures Newlines(a + b) == Newlines(a) + Newlines(b)
  {
    if a == "" {
      assert a + b == b;
    } else {
      assert (a + b)[1..] == a[1..] + b;
      NewlinesSplit(a[1..], b);
    }
  }

  // ------------------------------------------------------------- lengths from the front

  /** Up to the next line feed or the end. */
  function ToLineEnd(s: string): (n: nat)
    ensures n <= |s| && '\n' !in s[..n] && (n < |s| ==> s[n] == '\n')
  {
    if s == "" || s[0] == '\n' then 0 else 1 + ToLineEnd(s[1..])
  }

  /** Where the first end of a block comment starts. */
  function FindClose(s: string): (n: Option<nat>)
    ensures n.Some? ==> n.value + 2 <= |s| && s[n.value] == '*' && s[n.value + 1] == '/'
  {
    if |s| < 2 then None
    else if s[0] == '*' && s[1] == '/' then Some(0)
    else
      match FindClose(s[1..])
      case None => None
      case Some(n) => Some(n + 1)
  }

  /** The length of a string's rest with its closing quote. */
  function ToQuote(s: string, quote: char, escaped: bool): (n: Option<nat>)
    ensures n.Some? ==> 0 < n.value <= |s|
  {
    if s == "" then None
    else if !escaped && s[0] == quote then Some(1)
    else
      match ToQuote(s[1..], quote, !escaped && s[0] == '\\')
      case None => None
      case Some(n) => Some(n + 1)
  }

  function WordLength(u: Unicode, s: string): (n: nat)
    ensures n <= |s| && (forall i :: 0 <= i < n ==> WordChar(u, s[i])) && (n < |s| ==> !WordChar(u, s[n]))
  {
    if s == "" || !WordChar(u, s[0]) then 0 else 1 + WordLength(u, s[1..])
  }

  function AlnumLength(u: Unicode, s: string): (n: nat)
    ensures n <= |s| && (forall i :: 0 <= i < n ==> IsAlnum(u, s[i])) && (n < |s| ==> !IsAlnum(u, s[n]))
  {
    if s == "" || !IsAlnum(u, s[0]) then 0 else 1 + AlnumLength(u, s[1..])
  }

  // ----------------------------------------------------------------- one step at a time

  /** What stands at the front of a text: a piece of a gap, a token, or an
      unterminated comment or string. */
  datatype Head = Skip(length: nat) | Take(length: nat, kind: Kind) | OpenComment | OpenString

  function HeadOf(u: Unicode, s: string): (h: Head)
    requires s != ""
    ensures h.Skip? || h.Take? ==> 0 < h.length <= |s|
  {
    var c := s[0];
    if IsBlank(c) then Skip(1)
    else if "//" <= s then Skip(2 + ToLineEnd(s[2..]))
    else if "/*" <= s then
      match FindClose(s[2..])
      case None => OpenComment
      case Some(n) => Skip(n + 4)
    else if IsQuote(c) then
      match ToQuote(s[1..], c, false)
      case None => OpenString
      case Some(n) => Take(n + 1, Str)
    else if IsAlpha(u, c) || c == '_' then Take(1 + WordLength(u, s[1..]), Ident)
    else if IsDigit(u, c) then Take(1 + AlnumLength(u, s[1..]), Number)
    else Take(1, Symbol)
  }

  function Prepend(span: Span, rest: Result<seq<Span>, LexError>): Result<seq<Span>, LexError>
  {
    match rest
    case Err(error) => Err(error)
    case Ok(spans) => Ok([span] + spans)
  }

  /** The tokens of a text that starts at this offset and line of the source. */
  function Scan(u: Unicode, s: string, at: nat, line: nat): Result<seq<Span>, LexError>
    decreases |s|
  {
    if s == "" then Ok([])
    else
      match HeadOf(u, s)
      case OpenComment => Err(UnterminatedComment(line))
      case OpenString => Err(UnterminatedString(line))
      case Skip(n) => Scan(u, s[n..], at + n, line + Newlines(s[..n]))
      case Take(n, kind) =>
        Prepend(Span(Token(s[..n], kind, line), at), Scan(u, s[n..], at + n, line + Newlines(s[..n])))
  }

  function TokensOf(spans: seq<Span>): seq<Token>
  {
    seq(|spans|, i requires 0 <= i < |spans| => spans[i].token)
  }

  // --------------------------------------------------------------------- the program

  function Put(tokens: seq<Token>, rest: Result<seq<Span>, LexError>): Result<seq<Token>, LexError>
  {
    match rest
    case Err(error) => Err(error)
    case Ok(spans) => Ok(tokens + TokensOf(spans))
  }

  method SkipLineComment(text: string, from: nat) returns (i: nat)
    requires from <= |text|
    ensures from <= i <= |text| && i - from == ToLineEnd(text[from..])
  {
    i := from;
    while i < |text| && text[i] != '\n'
      invariant from <= i <= |text| && ToLineEnd(text[from..]) == i - from + ToLineEnd(text[i..])
    {
      assert text[i..][1..] == text[i + 1..];
      i := i + 1;
    }
  }

  method FindBlockEnd(text: string, from: nat) returns (end: Option<nat>)
    requires from <= |text|
    ensures end.Some? <==> FindClose(text[from..]).Some?
    ensures end.Some? ==> from <= end.value && end.value - from == FindClose(text[from..]).value
  {
    var i := from;
    ghost var rest := text[from..];
    while i + 2 <= |text|
      invariant from <= i <= |text| && rest == text[i..]
      invariant FindClose(text[from..]) == match FindClose(rest) case None => None case Some(n) => Some(i - from + n)
    {
      if text[i] == '*' && text[i + 1] == '/' {
        return Some(i);
      }
      rest := rest[1..];
      i := i + 1;
    }
    end := None;
  }

  /** The inner loop over a string literal: the offset after its closing quote. */
  method SkipString(text: string, from: nat, quote: char) returns (end: Option<nat>)
    requires from <= |text| && IsQuote(quote)
    ensures end.Some? <==> ToQuote(text[from..], quote, false).Some?
    ensures end.Some? ==> from < end.value <= |text| && end.value - from == ToQuote(text[from..], quote, false).value
  {
    var i, escaped := from, false;
    while i < |text|
      invariant from <= i <= |text|
      invariant ToQuote(text[from..], quote, false) ==
        match ToQuote(text[i..], quote, escaped) case None => None case Some(n) => Some(i - from + n)
    {
      assert text[i..][1..] == text[i + 1..];
      if escaped {
        escaped := false;
      } else if text[i] == '\\' {
        escaped := true;
      } else if text[i] == quote {
        return Some(i + 1);
      }
      i := i + 1;
    }
    end := None;
  }

  method SkipWord(u: Unicode, text: string, from: nat) returns (i: nat)
    requires from <= |text|
    ensures from <= i <= |text| && i - from == WordLength(u, text[from..])
  {
    i := from;
    while i < |text| && WordChar(u, text[i])
      invariant from <= i <= |text| && WordLength(u, text[from..]) == i - from + WordLength(u, text[i..])
    {
      assert text[i..][1..] == text[i + 1..];
      i := i + 1;
    }
  }

  method SkipAlnum(u: Unicode, text: string, from: nat) returns (i: nat)
    requires from <= |text|
    ensures from <= i <= |text| && i - from == AlnumLength(u, text[from..])
  {
    i := from;
    while i < |text| && IsAlnum(u, text[i])
      invariant from <= i <= |text| && AlnumLength(u, text[from..]) == i - from + AlnumLength(u, text[i..])
    {
      assert text[i..][1..] == text[i + 1..];
      i := i + 1;
    }
  }

  method CountNewlines(text: string, from: nat, to: nat) returns (n: nat)
    requires from <= to <= |text|
    ensures n == Newlines(text[from..to])
  {
    n := 0;
    for i := from to to
      invariant n == Newlines(text[from..i])
    {
      assert text[from..i + 1] == text[from..i] + [text[i]];
      NewlinesSplit(text[from..i], [text[i]]);
      if text[i] == '\n' {
        n := n + 1;
      }
    }
  }

  /** What is at this offset, found by the loops of the source. */
  method Look(u: Unicode, text: string, i: nat) returns (h: Head)
    requires i < |text|
    ensures h == HeadOf(u, text[i..])
  {
    var c := text[i];
    assert text[i..][0] == c;
    if IsBlank(c) {
      return Skip(1);
    }
    if c == '/' && i + 1 < |text| && (text[i + 1] == '/' || text[i + 1] == '*') {
      assert text[i..][2..] == text[i + 2..] && text[i..][1] == text[i + 1];
      if text[i + 1] == '/' {
        var end := SkipLineComment(text, i + 2);
        return Skip(end - i);
      }
      var end := FindBlockEnd(text, i + 2);
      return if end.None? then OpenComment else Skip(end.value + 2 - i);
    }
    assert text[i..][1..] == text[i + 1..];
    if IsQuote(c) {
      var end := SkipString(text, i + 1, c);
      return if end.None? then OpenString else Take(end.value - i, Str);
    }
    if IsAlpha(u, c) || c == '_' {
      var end := SkipWord(u, text, i + 1);
      return Take(end - i, Ident);
    }
    if IsDigit(u, c) {
      var end := SkipAlnum(u, text, i + 1);
      return Take(end - i, Number);
    }
    h := Take(1, Symbol);
  }

  /** lex_proto: it ends on every text. */
  method LexProto(u: Unicode, text: string) returns (r: Result<seq<Token>, LexError>)
    ensures r == Put([], Scan(u, text, 0, 1))
  {
    var tokens: seq<Token> := [];
    var i, line := 0, 1;
    ghost var whole, rest := Put([], Scan(u, text, 0, 1)), text;
    ghost var left := LexingStarts(u, text);
    while i < |text|
      invariant i <= |text| && rest == text[i..] && ScansAs(u, rest, i, line, left) && whole == Put(tokens, left)
    {
      var h := Look(u, text, i);
      if !h.Skip? && !h.Take? {
        LexingFails(u, rest, i, line, tokens, left, h);
        return Err(ErrorOf(h, line));
      }
      var j := i + h.length;
      var feeds := CountNewlines(text, i, j);
      var next := line + feeds;
      ghost var before, after := tokens, text[j..];
      PieceAndRest(text, i, j);
      if h.Take? {
        tokens := tokens + [Token(text[i..j], h.kind, line)];
      }
      left := LexingStep(u, rest, i, line, before, left, h, text[i..j], after, j, next, tokens);
      i, line, rest := j, next, after;
    }
    LexingEnd(u, rest, i, line, tokens, left);
    r := Ok(tokens);
  }

  lemma {:induction false} SkipTo(u: Unicode, s: string, i: nat, line: nat, n: nat, j: nat, rest: string, next: nat)
    requires s != "" && HeadOf(u, s) == Skip(n) && j == i + n && rest == s[n..] && next == line + Newlines(s[..n])
    ensures ScansAs(u, s, i, line, Scan(u, rest, j, next))
  {
  }

  predicate ScansAs(u: Unicode, s: string, i: nat, line: nat, r: Result<seq<Span>, LexError>)
  {
    Scan(u, s, i, line) == r
  }

  lemma {:induction false} TakeTo(u: Unicode, s: string, i: nat, line: nat, n: nat, kind: Kind, j: nat, rest: string, next: nat, span: Span)
    requires s != "" && HeadOf(u, s) == Take(n, kind) && j == i + n && rest == s[n..] && next == line + Newlines(s[..n])
    requires span == Span(Token(s[..n], kind, line), i)
    ensures Prepends(u, s, i, line, span, Scan(u, rest, j, next))
  {
  }

  predicate Prepends(u: Unicode, s: string, i: nat, line: nat, span: Span, rest: Result<seq<Span>, LexError>)
  {
    Scan(u, s, i, line) == Prepend(span, rest)
  }

  lemma LexingStarts(u: Unicode, text: string) returns (left: Result<seq<Span>, LexError>)
    ensures ScansAs(u, text, 0, 1, left) && Put([], left) == Put([], Scan(u, text, 0, 1))
  {
    left := Scan(u, text, 0, 1);
  }

  lemma {:induction false} LexingSkip(u: Unicode, s: string, i: nat, line: nat, left: Result<seq<Span>, LexError>,
                   rest: string, j: nat, feeds: nat, piece: string)
    requires s != "" && i < j && HeadOf(u, s) == Skip(j - i) && ScansAs(u, s, i, line, left)
    requires s == piece + rest && |piece| == j - i && feeds == line + Newlines(piece)
    ensures ScansAs(u, rest, j, feeds, left)
  {
    assert s[j - i..] == rest && s[..j - i] == piece;
    SkipTo(u, s, i, line, j - i, j, rest, feeds);
  }

  lemma LexingTake(u: Unicode, s: string, i: nat, line: nat, tokens: seq<Token>, left: Result<seq<Span>, LexError>,
                   rest: string, j: nat, feeds: nat, token: Token) returns (next: Result<seq<Span>, LexError>)
    requires s != "" && i < j && HeadOf(u, s) == Take(j - i, token.kind) && ScansAs(u, s, i, line, left)
    requires s == token.value + rest && |token.value| == j - i && feeds == line + Newlines(token.value) && token.line == line
    ensures ScansAs(u, rest, j, feeds, next) && Put(tokens, left) == Put(tokens + [token], next)
  {
    assert s[j - i..] == rest && s[..j - i] == token.value;
    var span := Span(token, i);
    next := Scan(u, rest, j, feeds);
    TakeTo(u, s, i, line, j - i, token.kind, j, rest, feeds, span);
    PutOne(tokens, span, next);
  }

  lemma LexingStep(u: Unicode, s: string, i: nat, line: nat, tokens: seq<Token>, left: Result<seq<Span>, LexError>, h: Head,
                   piece: string, rest: string, j: nat, feeds: nat, more: seq<Token>) returns (next: Result<seq<Span>, LexError>)
    requires s != "" && h == HeadOf(u, s) && ScansAs(u, s, i, line, left) && i < j && s == piece + rest && |piece| == j - i
    requires h == Skip(j - i) || (h.Take? && h.length == j - i)
    requires feeds == line + Newlines(piece)
    requires more == if h.Take? then tokens + [Token(piece, h.kind, line)] else tokens
    ensures ScansAs(u, rest, j, feeds, next) && Put(tokens, left) == Put(more, next)
  {
    if h.Take? {
      next := LexingTake(u, s, i, line, tokens, left, rest, j, feeds, Token(piece, h.kind, line));
    } else {
      LexingSkip(u, s, i, line, left, rest, j, feeds, piece);
      next := left;
    }
  }

  lemma LexingEnd(u: Unicode, rest: string, i: nat, line: nat, tokens: seq<Token>, left: Result<seq<Span>, LexError>)
    requires rest == "" && ScansAs(u, rest, i, line, left)
    ensures Put(tokens, left) == Ok(tokens)
  {
    assert tokens + TokensOf([]) == tokens;
  }

  function ErrorOf(h: Head, line: nat): LexError
  {
    if h.OpenComment? then UnterminatedComment(line) else UnterminatedString(line)
  }

  lemma LexingFails(u: Unicode, s: string, i: nat, line: nat, tokens: seq<Token>, left: Result<seq<Span>, LexError>, h: Head)
    requires s != "" && ScansAs(u, s, i, line, left) && h == HeadOf(u, s) && !h.Skip? && !h.Take?
    ensures Put(tokens, left) == Err(ErrorOf(h, line))
  {
  }

  lemma PieceAndRest(text: string, i: nat, j: nat)
    requires i <= j <= |text|
    ensures text[i..] == text[i..j] + text[j..]
  {
  }

  lemma PutOne(tokens: seq<Token>, span: Span, rest: Result<seq<Span>, LexError>)
    ensures Put(tokens, Prepend(span, rest)) == Put(tokens + [span.token], rest)
  {
    if rest.Ok? {
      assert TokensOf([span] + rest.value) == [span.token] + TokensOf(rest.value);
      assert tokens + ([span.token] + TokensOf(rest.value)) == (tokens + [span.token]) + TokensOf(rest.value);
    }
  }
}
