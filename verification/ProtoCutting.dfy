/** A text cut into gaps and tokens, whatever counts as a gap or a token. */
module ProtoCutting {
  import opened Common
  import opened ProtoLexer

  /** What may stand before a token and at the end, and when a value of this kind
      is a token before the given rest of the text. */
  datatype Lexicon = Lexicon(gap: string -> bool, lastGap: string -> bool, token: (string, Kind, string) -> bool)

  /** No token is empty or starts with whitespace. */
  ghost predicate Sane(lex: Lexicon)
  {
    lex.gap("") && forall v, k, a :: lex.token(v, k, a) ==> v != "" && !IsBlank(v[0])
  }

  function EndOf(span: Span): nat
  {
    span.start + |span.token.value|
  }

  /** The spans cut the text from this offset on into gaps and tokens: a gap before
      each token, the token where it says and on its true line, and a last gap. */
  predicate Covers(lex: Lexicon, text: string, at: nat, spans: seq<Span>)
    requires at <= |text|
    decreases |spans|
  {
    if spans == [] then lex.lastGap(text[at..])
    else Covered(lex, text, at, spans[0]) && Covers(lex, text, EndOf(spans[0]), spans[1..])
  }

  predicate Covered(lex: Lexicon, text: string, at: nat, span: Span)
  {
    at <= span.start && TokenAt(lex, text, span) && lex.gap(text[at..span.start])
  }

  predicate TokenAt(lex: Lexicon, text: string, span: Span)
  {
    && EndOf(span) <= |text| && text[span.start..EndOf(span)] == span.token.value
    && lex.token(span.token.value, span.token.kind, text[EndOf(span)..])
    && span.token.line == 1 + Newlines(text[..span.start])
  }

  lemma TokenStarts(lex: Lexicon, text: string, span: Span)
    requires Sane(lex) && TokenAt(lex, text, span)
    ensures span.start < EndOf(span) && !IsBlank(text[span.start])
  {
    assert text[span.start] == span.token.value[0];
  }

  /** These characters in front of a gap make a longer gap. */
  ghost predicate StartsGap(lex: Lexicon, text: string, i: nat, n: nat)
  {
    && i + n <= |text| && (lex.lastGap(text[i + n..]) ==> lex.lastGap(text[i..]))
    && forall k :: i + n <= k < |text| && !IsBlank(text[k]) && lex.gap(text[i + n..k]) ==> lex.gap(text[i..k])
  }

  lemma AfterGap(lex: Lexicon, text: string, i: nat, n: nat, spans: seq<Span>)
    requires Sane(lex) && StartsGap(lex, text, i, n) && Covers(lex, text, i + n, spans)
    ensures Covers(lex, text, i, spans)
  {
    if spans != [] {
      TokenStarts(lex, text, spans[0]);
    }
  }

  /** In offsets of the source: the tokens stand where they say, in order and
      without overlap, each on the line that its offset is on. */
  predicate Placed(text: string, spans: seq<Span>)
  {
    && (forall k :: 0 <= k < |spans| ==> PlacedOne(text, spans[k]))
    && (forall k :: 0 < k < |spans| ==> EndOf(spans[k - 1]) <= spans[k].start)
  }

  predicate PlacedOne(text: string, span: Span)
  {
    && span.start < EndOf(span) <= |text| && text[span.start..EndOf(span)] == span.token.value
    && span.token.line == 1 + Newlines(text[..span.start])
  }

  lemma {:induction false} CoverPlaces(lex: Lexicon, text: string, at: nat, spans: seq<Span>)
    requires Sane(lex) && at <= |text| && Covers(lex, text, at, spans)
    ensures Placed(text, spans) && (spans != [] ==> at <= spans[0].start)
    decreases |spans|
  {
    if spans != [] {
      TokenStarts(lex, text, spans[0]);
      CoverPlaces(lex, text, EndOf(spans[0]), spans[1..]);
      assert forall j :: 0 < j < |spans| ==> spans[j] == spans[1..][j - 1];
    }
  }
}
