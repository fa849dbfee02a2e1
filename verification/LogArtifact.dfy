/** An archive carried by a job log: the envelope that is printed and the strict
    parser that recovers it from a noisy log (scripts/emit-actions-log-artifact.py). */
module LogArtifact {
  import opened Common
  import opened Base64
  import opened LogText

  const MAX_BYTES := 2 * 1024 * 1024
  const LINE_WIDTH := 76

  const BEGIN_WORD := "TRNM_LOG_ARTIFACT_BEGIN"
  const END_WORD := "TRNM_LOG_ARTIFACT_END"
  const DATA_WORD := "TRNM_LOG_ARTIFACT_B64"

  /** The digest of an archive in hexadecimal, and the calendar's verdict on a
      timestamp of the right shape. */
  datatype Codec = Codec(digest: seq<Byte> -> string, calendar: string -> bool)

  predicate IsHex(s: string)
  {
    |s| == 64 && forall i :: 0 <= i < |s| ==> IsDigit(s[i]) || 'a' <= s[i] <= 'f'
  }

  ghost predicate DigestsAreHex(codec: Codec)
  {
    forall data :: IsHex(codec.digest(data))
  }

  predicate NameChar(c: char)
  {
    'A' <= c <= 'Z' || 'a' <= c <= 'z' || IsDigit(c) || c == '.' || c == '_' || c == '-'
  }

  /** validate_name. */
  predicate ValidName(name: string)
  {
    && 1 <= |name| <= 200 && (forall i :: 0 <= i < |name| ==> NameChar(name[i]))
    && name[0] != '.' && name[0] != '_' && name[0] != '-'
  }

  // --------------------------------------------------------------------- printing

  function Chunks(s: string): (chunks: seq<string>)
    ensures forall i :: 0 <= i < |chunks| ==> 1 <= |chunks[i]| <= LINE_WIDTH
    ensures forall i :: 0 <= i < |chunks| - 1 ==> |chunks[i]| == LINE_WIDTH
  {
    if s == "" then []
    else if |s| <= LINE_WIDTH then [s]
    else [s[..LINE_WIDTH]] + Chunks(s[LINE_WIDTH..])
  }

  function Concat(chunks: seq<string>): string
  {
    if chunks == [] then "" else chunks[0] + Concat(chunks[1..])
  }

  function Field(key: string, value: string): string
  {
    key + "=" + value
  }

  function BeginFields(name: string, sha: string, size: string): seq<string>
  {
    [BEGIN_WORD, Field("name", name), Field("sha256", sha), Field("size", size), Field("encoding", "base64")]
  }

  function EndFields(name: string, sha: string, size: string, lines: string): seq<string>
  {
    [END_WORD, Field("name", name), Field("sha256", sha), Field("size", size), Field("lines", lines)]
  }

  function DataLines(chunks: seq<string>): (lines: seq<string>)
    ensures |lines| == |chunks|
    ensures forall i :: 0 <= i < |lines| ==> lines[i] == DATA_WORD + " " + chunks[i]
  {
    seq(|chunks|, i requires 0 <= i < |chunks| => DATA_WORD + " " + chunks[i])
  }

  function Printed(name: string, sha: string, size: nat, chunks: seq<string>): seq<string>
  {
    [JoinFields(BeginFields(name, sha, Digits(size)))] + DataLines(chunks) +
    [JoinFields(EndFields(name, sha, Digits(size), Digits(|chunks|)))]
  }

  datatype EnvelopeError =
    | BadName | BadBound | EmptyArchive | TooLarge | NotCanonicalLine | NoEnvelope | MixedStyles
    | NotMonotonic | BadMarkers | IdentityMismatch | BadPayload | BadSize | BadDigest

  /** envelope: the lines of the printed text. */
  function Envelope(codec: Codec, data: seq<Byte>, name: string, maxBytes: int): Result<seq<string>, EnvelopeError>
  {
    if !ValidName(name) then Err(BadName)
    else if maxBytes <= 0 then Err(BadBound)
    else if data == [] then Err(EmptyArchive)
    else if |data| > maxBytes then Err(TooLarge)
    else
      Ok(Printed(name, codec.digest(data), |data|, Chunks(Encode(data))))
  }

  // --------------------------------------------------------- markers in a noisy log

  predicate StampShape(s: string)
  {
    && |s| == 28 && s[4] == '-' == s[7] && s[10] == 'T' && s[13] == ':' == s[16] && s[19] == '.' && s[27] == 'Z'
    && forall i :: 0 <= i < 27 && i !in {4, 7, 10, 13, 16, 19} ==> IsDigit(s[i])
  }

  /** One log line: not ours, a marker line with its timestamp if it has one, or
      a reserved token where none may be. */
  datatype Kind = Noise | Marker(body: string, stamp: Option<string>) | Bad

  predicate MarkerBody(s: string)
  {
    BEGIN_WORD + " " <= s || DATA_WORD + " " <= s || END_WORD + " " <= s
  }

  function KindOf(codec: Codec, line: string): Kind
  {
    if !HasToken(line) then Noise
    else if RESERVED <= line then
      if TokenOnlyFirst(line) then Marker(line, None) else Bad
    else if |line| > 29 && StampShape(line[..28]) && line[28] == ' ' && MarkerBody(line[29..]) then
      if codec.calendar(line[..28]) && TokenOnlyFirst(line[29..]) then Marker(line[29..], Some(line[..28])) else Bad
    else Bad
  }

  function StripBom(s: string): string
  {
    if s != "" && s[0] == '\U{feff}' then StripBom(s[1..]) else s
  }

  /** The line as the scanner looks at it. */
  function Scanned(source: seq<string>, i: nat): string
    requires i < |source|
  {
    if i == 0 then StripBom(source[0]) else source[i]
  }

  datatype Marked = Marked(body: string, index: nat, stamp: Option<string>)

  /** The marker lines among the first n lines, or nothing if one of them is bad. */
  function Gather(kinds: seq<Kind>, n: nat): Option<seq<Marked>>
    requires n <= |kinds|
  {
    if n == 0 then Some([])
    else
      match Gather(kinds, n - 1)
      case None => None
      case Some(marks) =>
        match kinds[n - 1]
        case Noise => Some(marks)
        case Marker(body, stamp) => Some(marks + [Marked(body, n - 1, stamp)])
        case Bad => None
  }

  /** How the scanner judges one line. */
  type Classifier = string -> Kind

  function Classify(codec: Codec): Classifier
  {
    line => KindOf(codec, line)
  }

  function Kinds(f: Classifier, source: seq<string>): (kinds: seq<Kind>)
    ensures |kinds| == |source|
  {
    seq(|source|, i requires 0 <= i < |source| => f(Scanned(source, i)))
  }

  function Collect(f: Classifier, source: seq<string>): Option<seq<Marked>>
  {
    Gather(Kinds(f, source), |source|)
  }

  predicate OneStyle(marks: seq<Marked>)
  {
    forall i, j :: 0 <= i < |marks| && 0 <= j < |marks| ==> marks[i].stamp.Some? == marks[j].stamp.Some?
  }

  predicate Precedes(one: Marked, two: Marked)
  {
    one.stamp.Some? && two.stamp.Some? ==> Before(one.stamp.value, two.stamp.value)
  }

  predicate Monotone(marks: seq<Marked>)
  {
    forall i, j {:trigger Precedes(marks[i], marks[j])} :: 0 <= i && j == i + 1 < |marks| ==> Precedes(marks[i], marks[j])
  }

  /** _canonical_marker_lines. */
  method CanonicalMarkerLines(f: Classifier, source: seq<string>) returns (r: Result<seq<Marked>, EnvelopeError>)
    ensures var all := Collect(f, source);
      && (r.Ok? <==> all.Some? && all.value != [] && OneStyle(all.value) && Monotone(all.value))
      && (r.Ok? ==> r.value == all.value)
  {
    var marks: seq<Marked> := [];
    ghost var kinds := Kinds(f, source);
    for i := 0 to |source|
      invariant Gather(kinds, i) == Some(marks)
    {
      var kind := f(Scanned(source, i));
      GatherOne(kinds, i, kind, marks);
      match kind {
        case Noise =>
        case Marker(body, stamp) =>
          marks := marks + [Marked(body, i, stamp)];
        case Bad =>
          NeverRecovers(kinds, i + 1, |source|);
          return Err(NotCanonicalLine);
      }
    }
    if marks == [] {
      return Err(NoEnvelope);
    }
    if !OneStyle(marks) {
      return Err(MixedStyles);
    }
    if !Monotone(marks) {
      return Err(NotMonotonic);
    }
    r := Ok(marks);
  }

  lemma GatherOne(kinds: seq<Kind>, i: nat, kind: Kind, marks: seq<Marked>)
    requires i < |kinds| && kinds[i] == kind && Gather(kinds, i) == Some(marks)
    ensures kind.Noise? ==> Gather(kinds, i + 1) == Some(marks)
    ensures kind.Marker? ==> Gather(kinds, i + 1) == Some(marks + [Marked(kind.body, i, kind.stamp)])
    ensures kind.Bad? ==> Gather(kinds, i + 1).None?
  {
  }

  lemma {:induction false} NeverRecovers(kinds: seq<Kind>, i: nat, n: nat)
    requires i <= n <= |kinds| && Gather(kinds, i).None?
    ensures Gather(kinds, n).None?
  {
    if i < n {
      NeverRecovers(kinds, i, n - 1);
    }
  }

  // --------------------------------------------------------------------- parsing

  datatype Header = Header(name: string, sha: string, size: string)

  predicate HeaderFields(f: seq<string>)
  {
    && |f| == 5 && "name=" <= f[1] && |f[1]| > 5
    && "sha256=" <= f[2] && IsHex(f[2][7..]) && "size=" <= f[3] && AllDigits(f[3][5..])
  }

  function HeaderOf(f: seq<string>): Header
    requires HeaderFields(f)
  {
    Header(f[1][5..], f[2][7..], f[3][5..])
  }

  function ParseBegin(line: string): Option<Header>
  {
    var f := Fields(line);
    if HeaderFields(f) && f[0] == BEGIN_WORD && f[4] == "encoding=base64" then Some(HeaderOf(f)) else None
  }

  function ParseEnd(line: string): Option<(Header, nat)>
  {
    var f := Fields(line);
    if HeaderFields(f) && f[0] == END_WORD && "lines=" <= f[4] && AllDigits(f[4][6..])
    then Some((HeaderOf(f), ParseNat(f[4][6..]))) else None
  }

  datatype Parsed = Parsed(data: seq<Byte>, name: string, sha: string, beginLine: nat, endLine: nat, stamped: bool)

  predicate Begins(body: string) { BEGIN_WORD + " " <= body }
  predicate Ends(body: string) { END_WORD + " " <= body }

  /** The unique begin marker is first, the unique end marker last, and the lines
      between them follow each other in the log. */
  predicate Framed(marks: seq<Marked>)
  {
    && |marks| >= 2 && Begins(marks[0].body) && Ends(marks[|marks| - 1].body)
    && (forall i :: 0 < i < |marks| ==> !Begins(marks[i].body))
    && (forall i :: 0 <= i < |marks| - 1 ==> !Ends(marks[i].body))
    && (forall i :: 0 <= i < |marks| ==> marks[i].index == marks[0].index + i)
  }

  predicate CanonicalChunks(chunks: seq<string>)
  {
    && chunks != [] && (forall i :: 0 <= i < |chunks| ==> 1 <= |chunks[i]| <= LINE_WIDTH)
    && (forall i :: 0 <= i < |chunks| - 1 ==> |chunks[i]| == LINE_WIDTH)
  }

  function Payload(marks: seq<Marked>): (chunks: Option<seq<string>>)
    requires |marks| >= 2
  {
    if forall i :: 0 < i < |marks| - 1 ==> DATA_WORD + " " <= marks[i].body
    then Some(seq(|marks| - 2, i requires 0 <= i < |marks| - 2 => marks[i + 1].body[22..]))
    else None
  }

  /** The payload between the two markers, checked against their header. */
  function ParsePayload(codec: Codec, marks: seq<Marked>, header: Header): Result<Parsed, EnvelopeError>
    requires |marks| >= 2 && AllDigits(header.size)
  {
    var chunks := Payload(marks);
    if chunks.None? || !CanonicalChunks(chunks.value) then Err(BadPayload)
    else
      var data := Decode(Concat(chunks.value));
      var size := ParseNat(header.size);
      if data.None? then Err(BadPayload)
      else if size <= 0 || size > MAX_BYTES || |data.value| != size then Err(BadSize)
      else if codec.digest(data.value) != header.sha then Err(BadDigest)
      else
        Ok(Parsed(data.value, header.name, header.sha, marks[0].index + 1, marks[|marks| - 1].index + 1, marks[0].stamp.Some?))
  }

  /** parse, after the marker lines have been found. */
  function ParseMarks(codec: Codec, marks: seq<Marked>): Result<Parsed, EnvelopeError>
    requires marks != []
  {
    if |marks| < 2 || !Framed(marks) then Err(BadMarkers)
    else
      match (ParseBegin(marks[0].body), ParseEnd(marks[|marks| - 1].body))
      case (Some(begin), Some((end, lines))) =>
        if begin != end then Err(IdentityMismatch)
        else if !ValidName(begin.name) then Err(BadName)
        else if lines != |marks| - 2 then Err(BadPayload)
        else ParsePayload(codec, marks, begin)
      case _ => Err(BadMarkers)
  }

  method Parse(codec: Codec, text: string) returns (r: Result<Parsed, EnvelopeError>)
    ensures r.Ok? <==> Recovered(codec, SplitLines(text)).Some?
    ensures r.Ok? ==> Recovered(codec, SplitLines(text)) == Some(r.value)
  {
    var marks := CanonicalMarkerLines(Classify(codec), SplitLines(text));
    if marks.Err? {
      return Err(marks.error);
    }
    r := ParseMarks(codec, marks.value);
  }

  /** What the parser recovers from the lines of a log. */
  function Recovered(codec: Codec, source: seq<string>): Option<Parsed>
  {
    match Collect(Classify(codec), source)
    case None => None
    case Some(marks) =>
      if marks == [] || !OneStyle(marks) || !Monotone(marks) then None
      else
        match ParseMarks(codec, marks)
        case Ok(parsed) => Some(parsed)
        case Err(_) => None
  }
}
