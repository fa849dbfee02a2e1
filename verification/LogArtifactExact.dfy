/** The envelope as literal text, and the logs that are accepted, exactly
    (scripts/emit-actions-log-artifact.py). */
module LogArtifactExact {
  import opened Common
  import opened Base64
  import opened LogText
  import opened LogArtifact
  import opened LogArtifactProofs

  // ------------------------------------------------------------- the lines, as text

  function BeginText(name: string, sha: string, size: string): string
  {
    "TRNM_LOG_ARTIFACT_BEGIN name=" + name + " sha256=" + sha + " size=" + size + " encoding=base64"
  }

  function EndText(name: string, sha: string, size: string, count: string): string
  {
    "TRNM_LOG_ARTIFACT_END name=" + name + " sha256=" + sha + " size=" + size + " lines=" + count
  }

  /** Line i of an envelope: its header, a piece of the payload, or its trailer. */
  function Body(name: string, sha: string, size: string, count: string, chunks: seq<string>, i: nat): string
    requires i < |chunks| + 2
  {
    if i == 0 then BeginText(name, sha, size)
    else if i == |chunks| + 1 then EndText(name, sha, size, count)
    else "TRNM_LOG_ARTIFACT_B64 " + chunks[i - 1]
  }

  lemma FiveWords(one: string, two: string, three: string, four: string, five: string)
    ensures JoinFields([one, two, three, four, five]) == one + " " + two + " " + three + " " + four + " " + five
  {
    JoinFive(one, two, three, four, five);
    var d := four + " " + five;
    assert three + " " + d == three + " " + four + " " + five;
    var c := three + " " + d;
    assert two + " " + c == two + " " + three + " " + d;
  }

  /** A header or a trailer, up to its last word. */
  lemma HeaderIsText(word: string, name: string, sha: string, size: string)
    ensures word + " " + Field("name", name) + " " + Field("sha256", sha) + " " + Field("size", size) ==
      word + " name=" + name + " sha256=" + sha + " size=" + size
  {
    assert word + " " + ("name=" + name) == word + " name=" + name;
    var a := word + " name=" + name;
    assert a + " " + ("sha256=" + sha) == a + " sha256=" + sha;
    var b := a + " sha256=" + sha;
    assert b + " " + ("size=" + size) == b + " size=" + size;
    assert "name" + "=" == "name=" && "sha256" + "=" == "sha256=" && "size" + "=" == "size=";
  }

  lemma BeginIsText(name: string, sha: string, size: string)
    ensures JoinFields(BeginFields(name, sha, size)) == BeginText(name, sha, size)
  {
    FiveWords(BEGIN_WORD, Field("name", name), Field("sha256", sha), Field("size", size), Field("encoding", "base64"));
    HeaderIsText(BEGIN_WORD, name, sha, size);
    assert "encoding" + "=" + "base64" == "encoding=base64";
    var b := BEGIN_WORD + " name=" + name + " sha256=" + sha + " size=" + size;
    assert b + " " + "encoding=base64" == b + " encoding=base64";
    assert BEGIN_WORD + " name=" == "TRNM_LOG_ARTIFACT_BEGIN name=";
  }

  lemma EndIsText(name: string, sha: string, size: string, count: string)
    ensures JoinFields(EndFields(name, sha, size, count)) == EndText(name, sha, size, count)
  {
    FiveWords(END_WORD, Field("name", name), Field("sha256", sha), Field("size", size), Field("lines", count));
    HeaderIsText(END_WORD, name, sha, size);
    assert "lines" + "=" == "lines=";
    var b := END_WORD + " name=" + name + " sha256=" + sha + " size=" + size;
    assert b + " " + ("lines=" + count) == b + " lines=" + count;
    assert END_WORD + " name=" == "TRNM_LOG_ARTIFACT_END name=";
  }

  lemma {:induction false} PrintedIsText(name: string, sha: string, size: nat, chunks: seq<string>, i: nat)
    requires i < |chunks| + 2
    ensures Printed(name, sha, size, chunks)[i] == Body(name, sha, Digits(size), Digits(|chunks|), chunks, i)
  {
    if i == 0 {
      BeginIsText(name, sha, Digits(size));
    } else if i == |chunks| + 1 {
      EndIsText(name, sha, Digits(size), Digits(|chunks|));
    } else {
      PrintedLine(name, sha, size, chunks, i - 1);
    }
  }

  /** The envelope is printed for a valid name and an archive within the bound, and for
      nothing else: header, payload in lines of 76 characters, trailer. */
  lemma {:induction false} EnvelopePrints(codec: Codec, data: seq<Byte>, name: string, maxBytes: int)
    ensures Envelope(codec, data, name, maxBytes).Ok? <==> ValidName(name) && 0 < |data| <= maxBytes
    ensures Envelope(codec, data, name, maxBytes).Ok? ==>
      var lines, chunks := Envelope(codec, data, name, maxBytes).value, Chunks(Encode(data));
      && |lines| == |chunks| + 2 && Concat(chunks) == Encode(data) && CanonicalChunks(chunks)
      && forall i :: 0 <= i < |lines| ==>
           lines[i] == Body(name, codec.digest(data), Digits(|data|), Digits(|chunks|), chunks, i)
  {
    if Envelope(codec, data, name, maxBytes).Ok? {
      var lines, chunks := Envelope(codec, data, name, maxBytes).value, Chunks(Encode(data));
      EncodeWholeQuanta(data);
      ChunksNonEmpty(Encode(data));
      ChunksConcat(Encode(data));
      forall i | 0 <= i < |lines|
        ensures lines[i] == Body(name, codec.digest(data), Digits(|data|), Digits(|chunks|), chunks, i)
      {
        PrintedIsText(name, codec.digest(data), |data|, chunks, i);
      }
    }
  }

  // ------------------------------------------------------------ fields of one line

  lemma {:induction false} JoinAgain(fields: seq<string>, c: char)
    requires fields != []
    ensures JoinFields([[c] + fields[0]] + fields[1..]) == [c] + JoinFields(fields)
    ensures JoinFields([""] + fields) == " " + JoinFields(fields)
  {
    assert ([[c] + fields[0]] + fields[1..])[1..] == fields[1..];
    assert ([""] + fields)[1..] == fields;
    if |fields| > 1 {
      assert JoinFields(fields) == fields[0] + " " + JoinFields(fields[1..]);
      assert [c] + (fields[0] + " " + JoinFields(fields[1..])) == [c] + fields[0] + " " + JoinFields(fields[1..]);
    }
  }

  lemma {:induction false} FieldsComeFrom(s: string)
    ensures JoinFields(Fields(s)) == s
  {
    if s != "" {
      FieldsComeFrom(s[1..]);
      JoinAgain(Fields(s[1..]), s[0]);
      assert s == [s[0]] + s[1..];
    }
  }

  lemma NoSpaces(name: string, sha: string, size: string)
    requires ValidName(name) && IsHex(sha) && AllDigits(size)
    ensures ' ' !in Field("name", name) && ' ' !in Field("sha256", sha) && ' ' !in Field("size", size)
  {
  }

  lemma SplitKey(key: string, field: string)
    requires key <= field
    ensures field == key + field[|key|..]
  {
  }

  /** The first four fields of a line that reads as a header with this identity. */
  lemma {:induction false} HeaderText(f: seq<string>, h: Header)
    requires HeaderFields(f) && HeaderOf(f) == h
    ensures f[1] == Field("name", h.name) && f[2] == Field("sha256", h.sha) && f[3] == Field("size", h.size)
  {
    SplitKey("name=", f[1]);
    SplitKey("sha256=", f[2]);
    SplitKey("size=", f[3]);
    assert "name" + "=" == "name=" && "sha256" + "=" == "sha256=" && "size" + "=" == "size=";
  }

  lemma {:induction false} BeginReadsText(line: string, h: Header)
    requires ParseBegin(line) == Some(h)
    ensures IsHex(h.sha) && AllDigits(h.size) && line == BeginText(h.name, h.sha, h.size)
  {
    var f := Fields(line);
    FieldsComeFrom(line);
    HeaderText(f, h);
    assert Field("encoding", "base64") == "encoding=base64";
    assert f == BeginFields(h.name, h.sha, h.size);
    BeginIsText(h.name, h.sha, h.size);
  }

  lemma {:induction false} TextReadsBegin(line: string, h: Header)
    requires ValidName(h.name) && IsHex(h.sha) && AllDigits(h.size) && line == BeginText(h.name, h.sha, h.size)
    ensures ParseBegin(line) == Some(h)
  {
    var f := BeginFields(h.name, h.sha, h.size);
    BeginIsText(h.name, h.sha, h.size);
    NoSpaces(h.name, h.sha, h.size);
    assert f[4] == "encoding=base64";
    assert ' ' !in f[4] && ' ' !in f[0];
    FieldsRoundTrip(f);
    HeaderReads(f, h.name, h.sha, h.size);
  }

  /** The line is the trailer of an envelope with this identity and so many lines. */
  predicate EndsAs(line: string, h: Header, count: string, n: nat)
  {
    AllDigits(count) && ParseNat(count) == n && line == EndText(h.name, h.sha, h.size, count)
  }

  lemma {:induction false} EndReadsText(line: string, h: Header, n: nat) returns (count: string)
    requires ParseEnd(line) == Some((h, n))
    ensures IsHex(h.sha) && AllDigits(h.size) && EndsAs(line, h, count, n)
  {
    var f := Fields(line);
    count := f[4][6..];
    FieldsComeFrom(line);
    HeaderText(f, h);
    SplitKey("lines=", f[4]);
    assert "lines" + "=" == "lines=";
    assert f == EndFields(h.name, h.sha, h.size, count);
    EndIsText(h.name, h.sha, h.size, count);
  }

  lemma {:induction false} TextReadsEnd(line: string, h: Header, count: string, n: nat)
    requires ValidName(h.name) && IsHex(h.sha) && AllDigits(h.size) && EndsAs(line, h, count, n)
    ensures ParseEnd(line) == Some((h, n))
  {
    var f := EndFields(h.name, h.sha, h.size, count);
    EndIsText(h.name, h.sha, h.size, count);
    NoSpaces(h.name, h.sha, h.size);
    assert f[4][..6] == "lines=" && f[4][6..] == count;
    assert ' ' !in f[4] && ' ' !in f[0];
    FieldsRoundTrip(f);
    HeaderReads(f, h.name, h.sha, h.size);
  }

  // ------------------------------------------------------------------ one log line

  /** The line shows this marker text, bare or behind this timestamp. */
  predicate Shows(codec: Codec, line: string, body: string, stamp: Option<string>)
  {
    TokenOnlyFirst(body) &&
    match stamp
    case None => line == body
    case Some(time) => line == time + " " + body && StampShape(time) && codec.calendar(time)
  }

  lemma {:induction false} MarkerShows(codec: Codec, line: string, body: string, stamp: Option<string>)
    requires KindOf(codec, line) == Marker(body, stamp)
    ensures Shows(codec, line, body, stamp)
  {
    if stamp.Some? {
      assert line == line[..28] + [line[28]] + line[29..];
    }
  }

  lemma {:induction false} ShownIsMarker(codec: Codec, line: string, body: string, stamp: Option<string>)
    requires Shows(codec, line, body, stamp) && MarkerBody(body)
    ensures KindOf(codec, line) == Marker(body, stamp)
  {
    TokenInBody(body);
    if stamp.Some? {
      var time := stamp.value;
      SuffixToken(time + " ", body);
      assert line == (time + " ") + body;
      assert line[0] == time[0] && IsDigit(time[0]) && RESERVED[0] == 'T';
      assert line[..28] == time && line[28] == ' ' && line[29..] == body;
    }
  }

  // --------------------------------------------------------- the accepted logs, exactly

  /** What an envelope says of its archive. */
  predicate Declares(codec: Codec, p: Parsed, size: string, count: string, chunks: seq<string>)
  {
    && ValidName(p.name) && IsHex(p.sha) && p.sha == codec.digest(p.data) && 0 < |p.data| <= MAX_BYTES
    && AllDigits(size) && ParseNat(size) == |p.data| && AllDigits(count) && ParseNat(count) == |chunks|
    && CanonicalChunks(chunks) && Decode(Concat(chunks)) == Some(p.data)
  }

  predicate Ordered(stamps: seq<string>)
  {
    forall i, j {:trigger Before(stamps[i], stamps[j])} :: 0 <= i && j == i + 1 < |stamps| ==> Before(stamps[i], stamps[j])
  }

  function StampAt(stamps: Option<seq<string>>, i: nat): Option<string>
    requires stamps.Some? ==> i < |stamps.value|
  {
    if stamps.Some? then Some(stamps.value[i]) else None
  }

  /** The log shows the envelope of this archive in one block of lines, all bare or all
      behind timestamps that do not fall, and no other line has the reserved token. */
  predicate HoldsEnvelope(codec: Codec, source: seq<string>, p: Parsed, size: string, count: string, chunks: seq<string>,
                          stamps: Option<seq<string>>)
  {
    && Declares(codec, p, size, count, chunks)
    && 0 < p.beginLine && p.endLine == p.beginLine + |chunks| + 1 <= |source|
    && p.stamped == stamps.Some? && (stamps.Some? ==> |stamps.value| == |chunks| + 2 && Ordered(stamps.value))
    && ShowsBlock(codec, source, p, size, count, chunks, stamps)
    && (forall i :: 0 <= i < |source| && !(p.beginLine <= i + 1 <= p.endLine) ==> !HasToken(Scanned(source, i)))
  }

  /** The lines of the block, from the header to the trailer. */
  predicate ShowsBlock(codec: Codec, source: seq<string>, p: Parsed, size: string, count: string, chunks: seq<string>,
                       stamps: Option<seq<string>>)
    requires 0 < p.beginLine && p.beginLine + |chunks| + 1 <= |source|
    requires stamps.Some? ==> |stamps.value| == |chunks| + 2
  {
    forall i :: 0 <= i < |chunks| + 2 ==> ShowsLine(codec, source, p, size, count, chunks, stamps, i)
  }

  predicate ShowsLine(codec: Codec, source: seq<string>, p: Parsed, size: string, count: string, chunks: seq<string>,
                      stamps: Option<seq<string>>, i: nat)
    requires 0 < p.beginLine && p.beginLine + |chunks| + 1 <= |source|
    requires i < |chunks| + 2 && (stamps.Some? ==> |stamps.value| == |chunks| + 2)
  {
    Shows(codec, Scanned(source, p.beginLine - 1 + i), Body(p.name, p.sha, size, count, chunks, i), StampAt(stamps, i))
  }

  // ------------------------------------------------------------------ what is accepted

  lemma {:induction false} MarkedLine(f: Classifier, source: seq<string>, marks: seq<Marked>, i: nat)
    requires Collect(f, source) == Some(marks) && |marks| >= 2 && Framed(marks) && i < |marks|
    ensures marks[i].index == marks[0].index + i < |source| && Marks(f, source, marks[i])
  {
    CollectSound(f, source);
    assert Marks(f, source, marks[i]);
  }

  lemma {:induction false} MarkedShows(codec: Codec, source: seq<string>, m: Marked)
    requires Marks(Classify(codec), source, m)
    ensures Shows(codec, Scanned(source, m.index), m.body, m.stamp)
  {
    MarkerShows(codec, Scanned(source, m.index), m.body, m.stamp);
  }

  function Stamps(marks: seq<Marked>): (stamps: seq<string>)
    requires forall i :: 0 <= i < |marks| ==> marks[i].stamp.Some?
    ensures |stamps| == |marks|
  {
    seq(|marks|, i requires 0 <= i < |marks| => marks[i].stamp.value)
  }

  predicate StampsAre(marks: seq<Marked>, stamps: Option<seq<string>>)
    requires stamps.Some? ==> |stamps.value| == |marks|
  {
    forall i :: 0 <= i < |marks| ==> marks[i].stamp == StampAt(stamps, i)
  }

  /** The one style of the markers. */
  lemma {:induction false} StyleOf(marks: seq<Marked>) returns (stamps: Option<seq<string>>)
    requires marks != [] && OneStyle(marks) && Monotone(marks)
    ensures stamps.Some? == marks[0].stamp.Some? && (stamps.Some? ==> |stamps.value| == |marks| && Ordered(stamps.value))
    ensures StampsAre(marks, stamps)
  {
    if marks[0].stamp.Some? {
      var times := Stamps(marks);
      forall i, j | 0 <= i && j == i + 1 < |times| ensures Before(times[i], times[j]) {
        assert Precedes(marks[i], marks[j]);
      }
      stamps := Some(times);
    } else {
      stamps := None;
    }
  }

  /** What the parser has checked of its two outer markers. */
  predicate HeaderChecked(codec: Codec, marks: seq<Marked>, p: Parsed, h: Header)
    requires |marks| >= 2
  {
    && ParseBegin(marks[0].body) == Some(h) && ParseEnd(marks[|marks| - 1].body) == Some((h, |marks| - 2))
    && ValidName(h.name) && AllDigits(h.size) && ParseNat(h.size) == |p.data| && 0 < |p.data| <= MAX_BYTES
    && codec.digest(p.data) == h.sha && p.name == h.name && p.sha == h.sha && p.stamped == marks[0].stamp.Some?
    && p.beginLine == marks[0].index + 1 && p.endLine == marks[|marks| - 1].index + 1
  }

  lemma {:induction false} ParsedHeader(codec: Codec, marks: seq<Marked>, p: Parsed) returns (h: Header)
    requires ParsesTo(codec, marks, p)
    ensures |marks| >= 2 && HeaderChecked(codec, marks, p, h)
  {
    h := ParseBegin(marks[0].body).value;
  }

  predicate BodiesAre(marks: seq<Marked>, name: string, sha: string, size: string, count: string, chunks: seq<string>)
  {
    |marks| == |chunks| + 2 &&
    forall i :: 0 <= i < |marks| ==> marks[i].body == Body(name, sha, size, count, chunks, i)
  }

  lemma {:induction false} ParsedText(codec: Codec, marks: seq<Marked>, p: Parsed, h: Header, chunks: seq<string>)
    returns (count: string)
    requires |marks| >= 2 && HeaderChecked(codec, marks, p, h) && Payload(marks) == Some(chunks)
    ensures IsHex(h.sha) && AllDigits(count) && ParseNat(count) == |chunks|
    ensures BodiesAre(marks, h.name, h.sha, h.size, count, chunks)
  {
    BeginReadsText(marks[0].body, h);
    count := EndReadsText(marks[|marks| - 1].body, h, |marks| - 2);
    forall i | 0 <= i < |marks| ensures marks[i].body == Body(h.name, h.sha, h.size, count, chunks, i) {
      if 0 < i < |marks| - 1 {
        PayloadLines(marks, i - 1);
      }
    }
  }

  lemma {:induction false} LineShows(codec: Codec, source: seq<string>, marks: seq<Marked>, p: Parsed, size: string,
                                     count: string, chunks: seq<string>, stamps: Option<seq<string>>, i: nat)
    requires i < |marks| == |chunks| + 2 && marks[i].index == p.beginLine - 1 + i
    requires marks[i].body == Body(p.name, p.sha, size, count, chunks, i)
    requires 0 < p.beginLine && p.beginLine + |chunks| + 1 <= |source| && (stamps.Some? ==> |stamps.value| == |marks|)
    requires marks[i].stamp == StampAt(stamps, i) && Marks(Classify(codec), source, marks[i])
    ensures ShowsLine(codec, source, p, size, count, chunks, stamps, i)
  {
    MarkedShows(codec, source, marks[i]);
  }

  lemma {:induction false} BlockShows(codec: Codec, source: seq<string>, marks: seq<Marked>, p: Parsed, size: string,
                                      count: string, chunks: seq<string>, stamps: Option<seq<string>>)
    requires Collect(Classify(codec), source) == Some(marks) && |marks| >= 2 && Framed(marks)
    requires BodiesAre(marks, p.name, p.sha, size, count, chunks) && p.beginLine == marks[0].index + 1
    requires p.beginLine + |chunks| + 1 <= |source| && (stamps.Some? ==> |stamps.value| == |marks|)
    requires StampsAre(marks, stamps)
    ensures ShowsBlock(codec, source, p, size, count, chunks, stamps)
  {
    forall i | 0 <= i < |chunks| + 2 ensures ShowsLine(codec, source, p, size, count, chunks, stamps, i) {
      MarkedLine(Classify(codec), source, marks, i);
      LineShows(codec, source, marks, p, size, count, chunks, stamps, i);
    }
  }

  lemma {:induction false} NoiseOutside(codec: Codec, source: seq<string>, first: int, last: int)
    requires forall i :: 0 <= i < |source| && !(first <= i + 1 <= last) ==> IsNoise(Classify(codec), source, i)
    ensures forall i :: 0 <= i < |source| && !(first <= i + 1 <= last) ==> !HasToken(Scanned(source, i))
  {
    forall i | 0 <= i < |source| && !(first <= i + 1 <= last) ensures !HasToken(Scanned(source, i)) {
      NoiseHasNoToken(codec, source, i);
    }
  }

  lemma {:induction false} AcceptedHolds(codec: Codec, source: seq<string>, p: Parsed)
    returns (size: string, count: string, chunks: seq<string>, stamps: Option<seq<string>>)
    requires Recovered(codec, source) == Some(p)
    ensures HoldsEnvelope(codec, source, p, size, count, chunks, stamps)
  {
    var marks := Collect(Classify(codec), source).value;
    assert ParsesTo(codec, marks, p);
    chunks := AcceptedPayload(codec, marks, p);
    var h := ParsedHeader(codec, marks, p);
    count := ParsedText(codec, marks, p, h, chunks);
    size := h.size;
    stamps := StyleOf(marks);
    BlockOfLines(Classify(codec), source, marks, p, chunks);
    BlockShows(codec, source, marks, p, size, count, chunks, stamps);
    NoiseOutside(codec, source, p.beginLine, p.endLine);
  }

  // --------------------------------------------------------------- what is not refused

  /** The markers of this envelope. */
  function MarksOf(p: Parsed, size: string, count: string, chunks: seq<string>, stamps: Option<seq<string>>): (marks: seq<Marked>)
    requires 0 < p.beginLine && (stamps.Some? ==> |stamps.value| == |chunks| + 2)
    ensures |marks| == |chunks| + 2
  {
    seq(|chunks| + 2, i requires 0 <= i < |chunks| + 2 =>
      Marked(Body(p.name, p.sha, size, count, chunks, i), p.beginLine - 1 + i, StampAt(stamps, i)))
  }

  lemma {:induction false} BodyIsMarker(name: string, sha: string, size: string, count: string, chunks: seq<string>, i: nat)
    requires i < |chunks| + 2
    ensures var body := Body(name, sha, size, count, chunks, i);
      && MarkerBody(body)
      && (i == 0 ==> BEGIN_WORD + " " <= body) && (i == |chunks| + 1 ==> END_WORD + " " <= body)
      && (0 < i <= |chunks| ==> body == DATA_WORD + " " + chunks[i - 1] && DATA_WORD + " " <= body && body[22..] == chunks[i - 1])
  {
    BeginIsText(name, sha, size);
    EndIsText(name, sha, size, count);
    JoinFive(BEGIN_WORD, Field("name", name), Field("sha256", sha), Field("size", size), Field("encoding", "base64"));
    JoinFive(END_WORD, Field("name", name), Field("sha256", sha), Field("size", size), Field("lines", count));
    assert DATA_WORD + " " == "TRNM_LOG_ARTIFACT_B64 ";
  }

  lemma {:induction false} BodiesFrame(name: string, sha: string, size: string, count: string, chunks: seq<string>, i: nat)
    requires i < |chunks| + 2
    ensures var body := Body(name, sha, size, count, chunks, i);
      (Begins(body) <==> i == 0) && (Ends(body) <==> i == |chunks| + 1)
  {
    var body := Body(name, sha, size, count, chunks, i);
    BodyIsMarker(name, sha, size, count, chunks, i);
    WordsDiffer(body, if i == 0 then BEGIN_WORD else if i == |chunks| + 1 then END_WORD else DATA_WORD);
  }

  lemma {:induction false} MarksFramed(p: Parsed, size: string, count: string, chunks: seq<string>, stamps: Option<seq<string>>)
    requires 0 < p.beginLine && (stamps.Some? ==> |stamps.value| == |chunks| + 2)
    ensures var marks := MarksOf(p, size, count, chunks, stamps); Framed(marks) && Payload(marks) == Some(chunks)
  {
    var marks := MarksOf(p, size, count, chunks, stamps);
    forall i | 0 <= i < |marks| ensures (Begins(marks[i].body) <==> i == 0) && (Ends(marks[i].body) <==> i == |marks| - 1) {
      BodiesFrame(p.name, p.sha, size, count, chunks, i);
    }
    MarksPayload(p, size, count, chunks, stamps, marks);
  }

  lemma {:induction false} MarksPayload(p: Parsed, size: string, count: string, chunks: seq<string>, stamps: Option<seq<string>>,
                                        marks: seq<Marked>)
    requires 0 < p.beginLine && (stamps.Some? ==> |stamps.value| == |chunks| + 2)
    requires marks == MarksOf(p, size, count, chunks, stamps)
    ensures Payload(marks) == Some(chunks)
  {
    forall i | 0 < i < |marks| - 1 ensures DATA_WORD + " " <= marks[i].body && marks[i].body[22..] == chunks[i - 1] {
      BodyIsMarker(p.name, p.sha, size, count, chunks, i);
    }
    assert Payload(marks).value == chunks;
  }

  lemma {:induction false} MarkStands(codec: Codec, source: seq<string>, m: Marked)
    requires m.index < |source| && Shows(codec, Scanned(source, m.index), m.body, m.stamp) && MarkerBody(m.body)
    ensures Marks(Classify(codec), source, m)
  {
    ShownIsMarker(codec, Scanned(source, m.index), m.body, m.stamp);
  }

  lemma {:induction false} MarkOfBlock(codec: Codec, source: seq<string>, p: Parsed, size: string, count: string,
                                       chunks: seq<string>, stamps: Option<seq<string>>, j: nat, m: Marked)
    requires 0 < p.beginLine && p.beginLine + |chunks| + 1 <= |source| && j < |chunks| + 2
    requires (stamps.Some? ==> |stamps.value| == |chunks| + 2) && ShowsLine(codec, source, p, size, count, chunks, stamps, j)
    requires m == MarksOf(p, size, count, chunks, stamps)[j]
    ensures m.index == p.beginLine - 1 + j && Marks(Classify(codec), source, m)
  {
    BodyIsMarker(p.name, p.sha, size, count, chunks, j);
    MarkStands(codec, source, m);
  }

  lemma {:induction false} NoiseAtLine(codec: Codec, source: seq<string>, i: nat)
    requires i < |source| && !HasToken(Scanned(source, i))
    ensures IsNoise(Classify(codec), source, i)
  {
  }

  lemma {:induction false} MarksCollected(codec: Codec, source: seq<string>, p: Parsed, size: string, count: string,
                                          chunks: seq<string>, stamps: Option<seq<string>>, marks: seq<Marked>)
    requires HoldsEnvelope(codec, source, p, size, count, chunks, stamps) && marks == MarksOf(p, size, count, chunks, stamps)
    ensures Collect(Classify(codec), source) == Some(marks)
  {
    var f, start := Classify(codec), p.beginLine - 1;
    forall i | 0 <= i < start || start + |marks| <= i < |source| ensures IsNoise(f, source, i) {
      NoiseAtLine(codec, source, i);
    }
    forall j | 0 <= j < |marks| ensures marks[j].index == start + j && Marks(f, source, marks[j]) {
      MarkOfBlock(codec, source, p, size, count, chunks, stamps, j, marks[j]);
    }
    CollectWhole(f, source, start, marks);
  }

  lemma {:induction false} MarksParse(codec: Codec, source: seq<string>, p: Parsed, size: string, count: string,
                                      chunks: seq<string>, stamps: Option<seq<string>>, marks: seq<Marked>)
    requires HoldsEnvelope(codec, source, p, size, count, chunks, stamps) && marks == MarksOf(p, size, count, chunks, stamps)
    ensures ParsesTo(codec, marks, p)
  {
    var h := Header(p.name, p.sha, size);
    MarksFramed(p, size, count, chunks, stamps);
    TextReadsBegin(marks[0].body, h);
    TextReadsEnd(marks[|chunks| + 1].body, h, count, |chunks|);
    PayloadOk(codec, marks, h, chunks, p);
    ParseMarksOk(codec, marks, h, p);
  }

  lemma {:induction false} MarksOrdered(p: Parsed, size: string, count: string, chunks: seq<string>, stamps: Option<seq<string>>)
    requires 0 < p.beginLine && (stamps.Some? ==> |stamps.value| == |chunks| + 2 && Ordered(stamps.value))
    ensures OneStyle(MarksOf(p, size, count, chunks, stamps)) && Monotone(MarksOf(p, size, count, chunks, stamps))
  {
  }

  /** A log is accepted, with this result, exactly if it shows the envelope of this
      archive whole: the same identity in header and trailer, the numbers of bytes and
      of lines that they name, and nothing else with the reserved token. */
  lemma {:induction false} AcceptanceIsExact(codec: Codec, source: seq<string>, p: Parsed)
    ensures Recovered(codec, source) == Some(p) <==>
      exists size, count, chunks, stamps :: HoldsEnvelope(codec, source, p, size, count, chunks, stamps)
  {
    if Recovered(codec, source) == Some(p) {
      var size, count, chunks, stamps := AcceptedHolds(codec, source, p);
      assert HoldsEnvelope(codec, source, p, size, count, chunks, stamps);
    }
    if exists size, count, chunks, stamps :: HoldsEnvelope(codec, source, p, size, count, chunks, stamps) {
      var size, count, chunks, stamps :| HoldsEnvelope(codec, source, p, size, count, chunks, stamps);
      var marks := MarksOf(p, size, count, chunks, stamps);
      MarksCollected(codec, source, p, size, count, chunks, stamps, marks);
      MarksOrdered(p, size, count, chunks, stamps);
      MarksParse(codec, source, p, size, count, chunks, stamps, marks);
      RecoveredOk(codec, source, marks, p);
    }
  }

  // -------------------------------------------------------------------- byte order marks

  /** Byte order marks before the first line do not matter. */
  lemma {:induction false} BomIsIgnored(codec: Codec, bom: string, source: seq<string>)
    requires source != [] && forall i :: 0 <= i < |bom| ==> bom[i] == '\U{feff}'
    ensures Recovered(codec, [bom + source[0]] + source[1..]) == Recovered(codec, source)
  {
    BomStripped(bom, source[0]);
    var marked := [bom + source[0]] + source[1..];
    forall i | 0 <= i < |source| ensures Scanned(marked, i) == Scanned(source, i) {}
    assert Kinds(Classify(codec), marked) == Kinds(Classify(codec), source);
  }

  lemma {:induction false} BomStripped(bom: string, line: string)
    requires forall i :: 0 <= i < |bom| ==> bom[i] == '\U{feff}'
    ensures StripBom(bom + line) == StripBom(line)
  {
    if bom == "" {
      assert bom + line == line;
    } else {
      BomStripped(bom[1..], line);
      assert (bom + line)[1..] == bom[1..] + line;
    }
  }
}
