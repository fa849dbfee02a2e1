/** The envelope comes back from any log that prints it whole, and nothing that is
    accepted differs from an envelope but in the unused bits of its last quantum. */
module LogArtifactProofs {
  import opened Common
  import opened Base64
  import opened LogText
  import opened LogArtifact

  // ------------------------------------------------------------------ marker lines

  predicate Printable(s: string)
  {
    forall i :: 0 <= i < |s| ==> ' ' <= s[i] <= '~'
  }

  lemma PrintableIsOneLine(s: string)
    requires Printable(s)
    ensures OneLine(s)
  {
  }

  /** A field value: printable, without a space, and free of the token. */
  predicate PlainField(s: string)
  {
    Printable(s) && ' ' !in s && !HasToken(s)
  }

  lemma NameIsPlain(name: string)
    requires ValidName(name) && !HasToken(name)
    ensures PlainField(name)
  {
  }

  lemma HexIsPlain(s: string)
    requires IsHex(s)
    ensures PlainField(s)
  {
    NoTokenWithout(s);
  }

  lemma DigitsArePlain(s: string)
    requires AllDigits(s)
    ensures PlainField(s)
  {
    NoTokenWithout(s);
  }

  lemma KeyIsPlain(key: string, value: string)
    requires PlainField(value) && PlainField(key)
    ensures PlainField(Field(key, value))
  {
    JoinHasNoToken(key, '=', value);
  }

  lemma PlainLine(word: string, one: string, two: string, three: string, four: string)
    requires Printable(word) && ' ' !in word && TokenOnlyFirst(word)
    requires PlainField(one) && PlainField(two) && PlainField(three) && PlainField(four)
    ensures var line := JoinFields([word, one, two, three, four]);
      TokenOnlyFirst(line) && Printable(line) && word + " " <= line && Fields(line) == [word, one, two, three, four]
  {
    FieldsRoundTrip([word, one, two, three, four]);
    var c := three + " " + four;
    var b := two + " " + c;
    var a := one + " " + b;
    JoinHasNoToken(three, ' ', four);
    JoinHasNoToken(two, ' ', c);
    JoinHasNoToken(one, ' ', b);
    JoinKeepsTokenFirst(word, ' ', a);
    JoinFive(word, one, two, three, four);
  }

  lemma JoinFive(word: string, one: string, two: string, three: string, four: string)
    ensures JoinFields([word, one, two, three, four]) == word + " " + (one + " " + (two + " " + (three + " " + four)))
  {
    assert JoinFields([three, four]) == three + " " + four;
    assert JoinFields([two, three, four]) == two + " " + (three + " " + four);
    assert JoinFields([one, two, three, four]) == one + " " + (two + " " + (three + " " + four));
  }

  lemma WordsAreFine()
    ensures TokenOnlyFirst(BEGIN_WORD) && TokenOnlyFirst(END_WORD) && TokenOnlyFirst(DATA_WORD)
    ensures Printable(BEGIN_WORD) && Printable(END_WORD) && Printable(DATA_WORD)
    ensures ' ' !in BEGIN_WORD && ' ' !in END_WORD
    ensures RESERVED <= BEGIN_WORD && RESERVED <= END_WORD && RESERVED <= DATA_WORD
    ensures BEGIN_WORD[18] == 'B' && BEGIN_WORD[19] == 'E' && END_WORD[18] == 'E' && DATA_WORD[18] == 'B' && DATA_WORD[19] == '6'
    ensures |BEGIN_WORD| == 23 && |END_WORD| == 21 && |DATA_WORD| == 21
  {
    WordStart(BEGIN_WORD);
    WordStart(END_WORD);
    WordStart(DATA_WORD);
  }

  /** A word of at most 23 characters that starts with the token has it only once. */
  lemma WordStart(word: string)
    requires RESERVED <= word && |word| <= 23
    ensures TokenOnlyFirst(word)
  {
    forall i | 1 <= i < |word| ensures !OccursAt(word, i) {
      if i <= 5 {
        assert word[i] == RESERVED[i] != 'T';
        if OccursAt(word, i) {
          OccurrenceChars(word, i);
        }
      }
    }
  }

  lemma KeysArePlain()
    ensures PlainField("name") && PlainField("sha256") && PlainField("size") && PlainField("encoding") &&
            PlainField("lines") && PlainField("base64")
  {
    NoTokenWithout("name");
    NoTokenWithout("sha256");
    NoTokenWithout("size");
    NoTokenWithout("encoding");
    NoTokenWithout("lines");
    NoTokenWithout("base64");
  }

  lemma BeginLine(name: string, sha: string, size: string)
    requires ValidName(name) && !HasToken(name) && IsHex(sha) && AllDigits(size)
    ensures var line := JoinFields(BeginFields(name, sha, size));
      && ParseBegin(line) == Some(Header(name, sha, size)) && BEGIN_WORD + " " <= line
      && TokenOnlyFirst(line) && Printable(line)
  {
    WordsAreFine();
    KeysArePlain();
    NameIsPlain(name);
    HexIsPlain(sha);
    DigitsArePlain(size);
    KeyIsPlain("name", name);
    KeyIsPlain("sha256", sha);
    KeyIsPlain("size", size);
    KeyIsPlain("encoding", "base64");
    PlainLine(BEGIN_WORD, Field("name", name), Field("sha256", sha), Field("size", size), Field("encoding", "base64"));
    HeaderReads(BeginFields(name, sha, size), name, sha, size);
    assert Field("encoding", "base64") == "encoding=base64";
  }

  lemma HeaderReads(f: seq<string>, name: string, sha: string, size: string)
    requires |f| == 5 && f[1] == Field("name", name) && f[2] == Field("sha256", sha) && f[3] == Field("size", size)
    requires name != "" && IsHex(sha) && AllDigits(size)
    ensures HeaderFields(f) && HeaderOf(f) == Header(name, sha, size)
  {
    assert f[1][..5] == "name=" && f[2][..7] == "sha256=" && f[3][..5] == "size=";
    assert f[1][5..] == name && f[2][7..] == sha && f[3][5..] == size;
  }

  lemma {:induction false} EndLine(name: string, sha: string, size: string, lines: nat)
    requires ValidName(name) && !HasToken(name) && IsHex(sha) && AllDigits(size)
    ensures var line := JoinFields(EndFields(name, sha, size, Digits(lines)));
      && ParseEnd(line) == Some((Header(name, sha, size), lines)) && END_WORD + " " <= line
      && TokenOnlyFirst(line) && Printable(line)
  {
    WordsAreFine();
    KeysArePlain();
    NameIsPlain(name);
    HexIsPlain(sha);
    DigitsArePlain(size);
    DigitsArePlain(Digits(lines));
    KeyIsPlain("name", name);
    KeyIsPlain("sha256", sha);
    KeyIsPlain("size", size);
    KeyIsPlain("lines", Digits(lines));
    var f := EndFields(name, sha, size, Digits(lines));
    PlainLine(END_WORD, Field("name", name), Field("sha256", sha), Field("size", size), Field("lines", Digits(lines)));
    HeaderReads(f, name, sha, size);
    assert f[4][..6] == "lines=" && f[4][6..] == Digits(lines);
    NatRoundTrip(lines);
  }

  predicate Base64Text(s: string)
  {
    forall i :: 0 <= i < |s| ==> Base64Char(s[i])
  }

  lemma DataLine(chunk: string)
    requires Base64Text(chunk)
    ensures var line := DATA_WORD + " " + chunk; TokenOnlyFirst(line) && Printable(line) && line[22..] == chunk
  {
    WordsAreFine();
    NoTokenWithout(chunk);
    JoinKeepsTokenFirst(DATA_WORD, ' ', chunk);
  }

  // -------------------------------------------------------------------- the chunks

  lemma {:induction false} ChunksConcat(s: string)
    ensures Concat(Chunks(s)) == s
  {
    if s == "" {
    } else if |s| <= LINE_WIDTH {
      assert Chunks(s)[1..] == [];
    } else {
      ChunksConcat(s[LINE_WIDTH..]);
      assert Chunks(s)[1..] == Chunks(s[LINE_WIDTH..]);
    }
  }

  lemma {:induction false} ChunksBase64(s: string)
    requires Base64Text(s)
    ensures forall i :: 0 <= i < |Chunks(s)| ==> Base64Text(Chunks(s)[i])
  {
    if |s| > LINE_WIDTH {
      ChunksBase64(s[LINE_WIDTH..]);
    }
  }

  /** There is only one way to cut a text into canonical chunks. */
  lemma {:induction false} ChunksAreUnique(chunks: seq<string>)
    requires CanonicalChunks(chunks)
    ensures Chunks(Concat(chunks)) == chunks
  {
    var rest := chunks[1..];
    if rest == [] {
      assert Concat(chunks) == chunks[0] + "" == chunks[0];
      assert chunks == [chunks[0]];
    } else {
      ChunksAreUnique(rest);
      var s := Concat(chunks);
      assert |Concat(rest)| >= 1 by { assert |rest[0]| >= 1; }
      assert s[..LINE_WIDTH] == chunks[0] && s[LINE_WIDTH..] == Concat(rest);
    }
  }

  lemma {:induction false} ConcatLength(chunks: seq<string>)
    requires CanonicalChunks(chunks)
    ensures |Concat(chunks)| == (|chunks| - 1) * LINE_WIDTH + |chunks[|chunks| - 1]|
  {
    if |chunks| > 1 {
      ConcatLength(chunks[1..]);
      assert chunks[1..][|chunks| - 2] == chunks[|chunks| - 1];
    } else {
      assert chunks[1..] == [];
    }
  }

  lemma {:induction false} ChunksNonEmpty(s: string)
    requires s != ""
    ensures CanonicalChunks(Chunks(s))
  {
  }

  // ------------------------------------------------------------------ a noisy log

  /** The envelope lines as they stand in the log: bare, or each behind a timestamp. */
  function Wrapped(bodies: seq<string>, stamps: Option<seq<string>>): seq<string>
    requires stamps.Some? ==> |stamps.value| == |bodies|
  {
    match stamps
    case None => bodies
    case Some(values) => seq(|bodies|, i requires 0 <= i < |bodies| => values[i] + " " + bodies[i])
  }

  predicate GoodStamps(codec: Codec, stamps: Option<seq<string>>, n: nat)
  {
    stamps.Some? ==>
      && |stamps.value| == n
      && (forall i :: 0 <= i < n ==> StampShape(stamps.value[i]) && codec.calendar(stamps.value[i]) && Printable(stamps.value[i]))
      && (forall i, j {:trigger Before(stamps.value[i], stamps.value[j])} :: 0 <= i && j == i + 1 < n ==> Before(stamps.value[i], stamps.value[j]))
  }

  predicate NoiseLines(lines: seq<string>)
  {
    forall i :: 0 <= i < |lines| ==> !HasToken(lines[i])
  }

  /** The marker lines that the scanner is to find. */
  function Expected(bodies: seq<string>, stamps: Option<seq<string>>, start: nat): seq<Marked>
    requires stamps.Some? ==> |stamps.value| == |bodies|
  {
    seq(|bodies|, i requires 0 <= i < |bodies| =>
      Marked(bodies[i], start + i, if stamps.Some? then Some(stamps.value[i]) else None))
  }

  predicate GoodBody(s: string)
  {
    TokenOnlyFirst(s) && Printable(s) && MarkerBody(s)
  }

  lemma TokenInBody(body: string)
    requires MarkerBody(body)
    ensures RESERVED <= body && HasToken(body) && |body| >= 22
  {
    WordsAreFine();
    assert body[0..18] == RESERVED;
    assert OccursAt(body, 0);
  }

  lemma {:induction false} BareKind(codec: Codec, body: string)
    requires GoodBody(body)
    ensures KindOf(codec, body) == Marker(body, None) && StripBom(body) == body
  {
    TokenInBody(body);
  }

  lemma {:induction false} StampedKind(codec: Codec, stamp: string, body: string)
    requires GoodBody(body) && StampShape(stamp) && codec.calendar(stamp)
    ensures KindOf(codec, stamp + " " + body) == Marker(body, Some(stamp)) && StripBom(stamp + " " + body) == stamp + " " + body
  {
    TokenInBody(body);
    var line := stamp + " " + body;
    SuffixToken(stamp + " ", body);
    assert line == (stamp + " ") + body;
    assert line[0] == stamp[0] && IsDigit(stamp[0]);
    assert line[..28] == stamp && line[28] == ' ' && line[29..] == body;
    assert RESERVED[0] == 'T';
  }

  lemma {:induction false} StripBomNoise(s: string)
    requires !HasToken(s)
    ensures !HasToken(StripBom(s))
  {
    if s != "" && s[0] == '\U{feff}' {
      assert s == [s[0]] + s[1..];
      if HasToken(s[1..]) {
        SuffixToken([s[0]], s[1..]);
      }
      StripBomNoise(s[1..]);
    }
  }

  lemma WrappedKind(codec: Codec, bodies: seq<string>, stamps: Option<seq<string>>, i: nat)
    requires i < |bodies| && GoodBody(bodies[i]) && GoodStamps(codec, stamps, |bodies|)
    ensures var line := Wrapped(bodies, stamps)[i];
      Classify(codec)(line) == Marker(bodies[i], if stamps.Some? then Some(stamps.value[i]) else None) && StripBom(line) == line
  {
    if stamps.Some? {
      StampedKind(codec, stamps.value[i], bodies[i]);
    } else {
      BareKind(codec, bodies[i]);
    }
  }

  lemma NoiseKind(codec: Codec, source: seq<string>, i: nat)
    requires i < |source| && !HasToken(source[i])
    ensures IsNoise(Classify(codec), source, i)
  {
    if i == 0 {
      StripBomNoise(source[0]);
    }
  }

  /** The line at this mark's index is a marker with its body and timestamp. */
  predicate Marks(f: Classifier, source: seq<string>, m: Marked)
  {
    m.index < |source| && f(Scanned(source, m.index)) == Marker(m.body, m.stamp)
  }

  predicate IsNoise(f: Classifier, source: seq<string>, i: nat)
  {
    i < |source| && f(Scanned(source, i)) == Noise
  }

  lemma {:induction false} GatherNothing(kinds: seq<Kind>, n: nat)
    requires n <= |kinds| && forall i :: 0 <= i < n ==> kinds[i] == Noise
    ensures Gather(kinds, n) == Some([])
  {
    if n > 0 {
      GatherNothing(kinds, n - 1);
    }
  }

  lemma {:induction false} GatherMarks(kinds: seq<Kind>, start: nat, found: seq<Marked>)
    requires start + |found| <= |kinds| && Gather(kinds, start) == Some([])
    requires forall j :: 0 <= j < |found| ==>
      found[j].index == start + j && kinds[start + j] == Marker(found[j].body, found[j].stamp)
    ensures Gather(kinds, start + |found|) == Some(found)
  {
    if found != [] {
      var last := found[|found| - 1];
      GatherMarks(kinds, start, found[..|found| - 1]);
      assert found[..|found| - 1] + [last] == found;
    }
  }

  lemma {:induction false} GatherNoMore(kinds: seq<Kind>, k: nat, n: nat, marks: seq<Marked>)
    requires k <= n <= |kinds| && Gather(kinds, k) == Some(marks)
    requires forall i :: k <= i < n ==> kinds[i] == Noise
    ensures Gather(kinds, n) == Some(marks)
  {
    if k < n {
      GatherNoMore(kinds, k, n - 1, marks);
    }
  }

  lemma WrappedMarks(codec: Codec, before: seq<string>, bodies: seq<string>, stamps: Option<seq<string>>,
                     after: seq<string>, j: nat)
    requires GoodStamps(codec, stamps, |bodies|) && j < |bodies| && GoodBody(bodies[j])
    ensures Marks(Classify(codec), before + Wrapped(bodies, stamps) + after, Expected(bodies, stamps, |before|)[j])
  {
    var source := before + Wrapped(bodies, stamps) + after;
    assert source[|before| + j] == Wrapped(bodies, stamps)[j];
    WrappedKind(codec, bodies, stamps, j);
  }

  lemma CollectWhole(f: Classifier, source: seq<string>, start: nat, found: seq<Marked>)
    requires start + |found| <= |source|
    requires forall i :: 0 <= i < start || start + |found| <= i < |source| ==> IsNoise(f, source, i)
    requires forall j :: 0 <= j < |found| ==> found[j].index == start + j && Marks(f, source, found[j])
    ensures Collect(f, source) == Some(found)
  {
    var kinds := Kinds(f, source);
    forall j | 0 <= j < |found| ensures kinds[start + j] == Marker(found[j].body, found[j].stamp) {
      assert Marks(f, source, found[j]);
    }
    forall i | 0 <= i < start || start + |found| <= i < |source| ensures kinds[i] == Noise {
      assert IsNoise(f, source, i);
    }
    GatherNothing(kinds, start);
    GatherMarks(kinds, start, found);
    GatherNoMore(kinds, start + |found|, |source|, found);
  }

  lemma NoiseAround(codec: Codec, before: seq<string>, raw: seq<string>, after: seq<string>, i: nat)
    requires NoiseLines(before) && NoiseLines(after)
    requires i < |before| || |before| + |raw| <= i < |before| + |raw| + |after|
    ensures IsNoise(Classify(codec), before + raw + after, i)
  {
    var source := before + raw + after;
    assert source[i] == if i < |before| then before[i] else after[i - |before| - |raw|];
    NoiseKind(codec, source, i);
  }

  /** The scanner passes over noise and collects the wrapped lines in order. */
  lemma CollectFinds(codec: Codec, before: seq<string>, bodies: seq<string>, stamps: Option<seq<string>>, after: seq<string>)
    requires NoiseLines(before) && NoiseLines(after) && GoodStamps(codec, stamps, |bodies|)
    requires forall i :: 0 <= i < |bodies| ==> GoodBody(bodies[i])
    ensures var source := before + Wrapped(bodies, stamps) + after;
      Collect(Classify(codec), source) == Some(Expected(bodies, stamps, |before|))
  {
    var raw, found := Wrapped(bodies, stamps), Expected(bodies, stamps, |before|);
    var source := before + raw + after;
    forall i | 0 <= i < |before| || |before| + |found| <= i < |source|
      ensures IsNoise(Classify(codec), source, i)
    {
      NoiseAround(codec, before, raw, after, i);
    }
    forall j | 0 <= j < |found| ensures found[j].index == |before| + j && Marks(Classify(codec), source, found[j]) {
      WrappedMarks(codec, before, bodies, stamps, after, j);
    }
    CollectWhole(Classify(codec), source, |before|, found);
  }

  // ------------------------------------------------------------------- round trip

  lemma WordsDiffer(body: string, word: string)
    requires word + " " <= body && (word == BEGIN_WORD || word == END_WORD || word == DATA_WORD)
    ensures word != BEGIN_WORD ==> !Begins(body)
    ensures word != END_WORD ==> !Ends(body)
  {
    WordsAreFine();
    assert body[18] == word[18];
    if word != END_WORD {
      assert (END_WORD + " ")[18] == 'E';
    }
    if word == END_WORD {
      assert (BEGIN_WORD + " ")[18] == 'B';
    }
    if word == DATA_WORD {
      assert body[19] == '6' && (BEGIN_WORD + " ")[19] == 'E';
    }
  }

  /** Chunks that decode to the data, with the header that belongs to it. */
  predicate Describes(codec: Codec, name: string, data: seq<Byte>, chunks: seq<string>)
  {
    && ValidName(name) && !HasToken(name) && IsHex(codec.digest(data)) && 0 < |data| <= MAX_BYTES
    && CanonicalChunks(chunks) && Decode(Concat(chunks)) == Some(data)
    && forall k :: 0 <= k < |chunks| ==> Base64Text(chunks[k])
  }

  lemma PrintedLine(name: string, sha: string, size: nat, chunks: seq<string>, i: nat)
    requires i < |chunks|
    ensures Printed(name, sha, size, chunks)[i + 1] == DATA_WORD + " " + chunks[i]
  {
  }

  lemma PrintedBody(name: string, sha: string, size: nat, chunks: seq<string>, i: nat)
    requires ValidName(name) && !HasToken(name) && IsHex(sha) && i < |chunks| + 2
    requires forall k :: 0 <= k < |chunks| ==> Base64Text(chunks[k])
    ensures GoodBody(Printed(name, sha, size, chunks)[i])
  {
    if i == 0 {
      BeginLine(name, sha, Digits(size));
    } else if i == |chunks| + 1 {
      EndLine(name, sha, Digits(size), |chunks|);
    } else {
      DataLine(chunks[i - 1]);
      PrintedLine(name, sha, size, chunks, i - 1);
    }
  }

  lemma PrintedPayload(name: string, sha: string, size: nat, chunks: seq<string>, stamps: Option<seq<string>>, start: nat)
    requires stamps.Some? ==> |stamps.value| == |chunks| + 2
    ensures Payload(Expected(Printed(name, sha, size, chunks), stamps, start)) == Some(chunks)
  {
    var marks := Expected(Printed(name, sha, size, chunks), stamps, start);
    forall i | 0 < i < |marks| - 1
      ensures DATA_WORD + " " <= marks[i].body && marks[i].body[22..] == chunks[i - 1]
    {
      PrintedLine(name, sha, size, chunks, i - 1);
    }
    assert Payload(marks).value == chunks;
  }

  lemma PrintedFramed(name: string, sha: string, size: nat, chunks: seq<string>, stamps: Option<seq<string>>, start: nat)
    requires ValidName(name) && !HasToken(name) && IsHex(sha)
    requires stamps.Some? ==> |stamps.value| == |chunks| + 2
    ensures Framed(Expected(Printed(name, sha, size, chunks), stamps, start))
  {
    var marks := Expected(Printed(name, sha, size, chunks), stamps, start);
    var last := |chunks| + 1;
    BeginLine(name, sha, Digits(size));
    EndLine(name, sha, Digits(size), |chunks|);
    WordsDiffer(marks[0].body, BEGIN_WORD);
    WordsDiffer(marks[last].body, END_WORD);
    forall i | 0 < i < last ensures !Begins(marks[i].body) && !Ends(marks[i].body) {
      PrintedLine(name, sha, size, chunks, i - 1);
      WordsDiffer(marks[i].body, DATA_WORD);
    }
  }

  lemma {:induction false} PayloadOk(codec: Codec, marks: seq<Marked>, h: Header, chunks: seq<string>, parsed: Parsed)
    requires |marks| >= 2 && AllDigits(h.size)
    requires Payload(marks) == Some(chunks) && CanonicalChunks(chunks) && Decode(Concat(chunks)) == Some(parsed.data)
    requires ParseNat(h.size) == |parsed.data| && 0 < |parsed.data| <= MAX_BYTES && codec.digest(parsed.data) == h.sha
    requires parsed.name == h.name && parsed.sha == h.sha && parsed.stamped == marks[0].stamp.Some?
    requires parsed.beginLine == marks[0].index + 1 && parsed.endLine == marks[|marks| - 1].index + 1
    ensures ParsePayload(codec, marks, h) == Ok(parsed)
  {
  }

  lemma ParseMarksOk(codec: Codec, marks: seq<Marked>, h: Header, parsed: Parsed)
    requires |marks| >= 2 && Framed(marks) && ValidName(h.name) && AllDigits(h.size)
    requires ParseBegin(marks[0].body) == Some(h) && ParseEnd(marks[|marks| - 1].body) == Some((h, |marks| - 2))
    requires ParsePayload(codec, marks, h) == Ok(parsed)
    ensures ParsesTo(codec, marks, parsed)
  {
  }

  predicate ParsesTo(codec: Codec, marks: seq<Marked>, parsed: Parsed)
  {
    marks != [] && ParseMarks(codec, marks) == Ok(parsed)
  }

  /** The parser returns this for a log with these lines. */
  predicate Yields(codec: Codec, source: seq<string>, parsed: Parsed)
  {
    Recovered(codec, source) == Some(parsed)
  }

  lemma RecoveredOk(codec: Codec, source: seq<string>, marks: seq<Marked>, parsed: Parsed)
    requires Collect(Classify(codec), source) == Some(marks) && OneStyle(marks) && Monotone(marks)
    requires ParsesTo(codec, marks, parsed)
    ensures Yields(codec, source, parsed)
  {
  }

  /** The header and the trailer of a printed envelope, where they stand. */
  lemma {:induction false} PrintedEnds(name: string, sha: string, size: nat, chunks: seq<string>, stamps: Option<seq<string>>, start: nat)
    requires ValidName(name) && !HasToken(name) && IsHex(sha) && (stamps.Some? ==> |stamps.value| == |chunks| + 2)
    ensures var marks := Expected(Printed(name, sha, size, chunks), stamps, start);
      && |marks| == |chunks| + 2 && marks[0].index == start && marks[|chunks| + 1].index == start + |chunks| + 1
      && marks[0].stamp.Some? == stamps.Some?
      && ParseBegin(marks[0].body) == Some(Header(name, sha, Digits(size)))
      && ParseEnd(marks[|chunks| + 1].body) == Some((Header(name, sha, Digits(size)), |chunks|))
  {
    BeginLine(name, sha, Digits(size));
    EndLine(name, sha, Digits(size), |chunks|);
    var marks := Expected(Printed(name, sha, size, chunks), stamps, start);
    assert marks[0].body == JoinFields(BeginFields(name, sha, Digits(size)));
    assert marks[|chunks| + 1].body == JoinFields(EndFields(name, sha, Digits(size), Digits(|chunks|)));
  }

  /** Reading back exactly the marker lines of an envelope. */
  lemma PrintedParses(codec: Codec, name: string, data: seq<Byte>, chunks: seq<string>, stamps: Option<seq<string>>, start: nat,
                      marks: seq<Marked>, parsed: Parsed)
    requires Describes(codec, name, data, chunks)
    requires stamps.Some? ==> |stamps.value| == |chunks| + 2
    requires marks == Expected(Printed(name, codec.digest(data), |data|, chunks), stamps, start)
    requires parsed == Parsed(data, name, codec.digest(data), start + 1, start + |chunks| + 2, stamps.Some?)
    ensures ParsesTo(codec, marks, parsed)
  {
    var sha, header := codec.digest(data), Header(name, codec.digest(data), Digits(|data|));
    PrintedEnds(name, sha, |data|, chunks, stamps, start);
    PrintedFramed(name, sha, |data|, chunks, stamps, start);
    PrintedPayload(name, sha, |data|, chunks, stamps, start);
    NatRoundTrip(|data|);
    PayloadOk(codec, marks, header, chunks, parsed);
    ParseMarksOk(codec, marks, header, parsed);
  }

  lemma ExpectedIsCanonical(codec: Codec, bodies: seq<string>, stamps: Option<seq<string>>, start: nat)
    requires GoodStamps(codec, stamps, |bodies|)
    ensures OneStyle(Expected(bodies, stamps, start)) && Monotone(Expected(bodies, stamps, start))
  {
  }

  predicate GoodBodies(bodies: seq<string>)
  {
    forall i :: 0 <= i < |bodies| ==> GoodBody(bodies[i])
  }

  lemma FoundAndParsed(codec: Codec, before: seq<string>, bodies: seq<string>, stamps: Option<seq<string>>,
                       after: seq<string>, marks: seq<Marked>, parsed: Parsed)
    requires NoiseLines(before) && NoiseLines(after) && GoodStamps(codec, stamps, |bodies|) && GoodBodies(bodies)
    requires marks == Expected(bodies, stamps, |before|) && ParsesTo(codec, marks, parsed)
    ensures Yields(codec, before + Wrapped(bodies, stamps) + after, parsed)
  {
    CollectFinds(codec, before, bodies, stamps, after);
    ExpectedIsCanonical(codec, bodies, stamps, |before|);
    RecoveredOk(codec, before + Wrapped(bodies, stamps) + after, marks, parsed);
  }

  lemma PrintedBodies(name: string, sha: string, size: nat, chunks: seq<string>)
    requires ValidName(name) && !HasToken(name) && IsHex(sha)
    requires forall k :: 0 <= k < |chunks| ==> Base64Text(chunks[k])
    ensures |Printed(name, sha, size, chunks)| == |chunks| + 2
    ensures GoodBodies(Printed(name, sha, size, chunks))
  {
    forall i | 0 <= i < |chunks| + 2 ensures GoodBody(Printed(name, sha, size, chunks)[i]) {
      PrintedBody(name, sha, size, chunks, i);
    }
  }

  /** What the parser should make of these chunks. */
  function Outcome(codec: Codec, name: string, data: seq<Byte>, chunks: seq<string>, start: nat, stamped: bool): Parsed
  {
    Parsed(data, name, codec.digest(data), start + 1, start + |chunks| + 2, stamped)
  }

  /** The log in which these chunks are printed whole yields this result. */
  predicate ComesBack(codec: Codec, name: string, data: seq<Byte>, chunks: seq<string>, before: seq<string>,
                      stamps: Option<seq<string>>, after: seq<string>)
    requires stamps.Some? ==> |stamps.value| == |chunks| + 2
  {
    Yields(codec, before + Wrapped(Printed(name, codec.digest(data), |data|, chunks), stamps) + after,
           Outcome(codec, name, data, chunks, |before|, stamps.Some?))
  }

  /** Any canonical chunks of the data come back, also those that differ from the
      printed ones in unused bits. */
  lemma DescribedRoundTrip(codec: Codec, name: string, data: seq<Byte>, chunks: seq<string>, before: seq<string>,
                           stamps: Option<seq<string>>, after: seq<string>)
    requires Describes(codec, name, data, chunks)
    requires NoiseLines(before) && NoiseLines(after) && GoodStamps(codec, stamps, |chunks| + 2)
    ensures ComesBack(codec, name, data, chunks, before, stamps, after)
  {
    var bodies := Printed(name, codec.digest(data), |data|, chunks);
    var marks, parsed := Expected(bodies, stamps, |before|), Outcome(codec, name, data, chunks, |before|, stamps.Some?);
    PrintedBodies(name, codec.digest(data), |data|, chunks);
    PrintedParses(codec, name, data, chunks, stamps, |before|, marks, parsed);
    FoundAndParsed(codec, before, bodies, stamps, after, marks, parsed);
  }

  lemma {:induction false} EnvelopeDescribes(codec: Codec, data: seq<Byte>, name: string)
    requires DigestsAreHex(codec) && ValidName(name) && !HasToken(name) && 0 < |data| <= MAX_BYTES
    ensures Describes(codec, name, data, Chunks(Encode(data)))
  {
    EncodeLength(data);
    EncodeAlphabet(data);
    ChunksBase64(Encode(data));
    ChunksNonEmpty(Encode(data));
    ChunksConcat(Encode(data));
    DecodeEncode(data);
  }

  /** Round trip: the parser returns the archive from any log in which the printed
      envelope stands whole, bare or with a monotone timestamp before every line,
      among lines that do not mention the reserved token. */
  lemma {:induction false} EnvelopeRoundTrip(codec: Codec, data: seq<Byte>, name: string, before: seq<string>, stamps: Option<seq<string>>,
                          after: seq<string>)
    requires DigestsAreHex(codec) && ValidName(name) && !HasToken(name) && 0 < |data| <= MAX_BYTES
    requires NoiseLines(before) && NoiseLines(after)
    requires GoodStamps(codec, stamps, |Chunks(Encode(data))| + 2)
    ensures ComesBack(codec, name, data, Chunks(Encode(data)), before, stamps, after)
  {
    EnvelopeDescribes(codec, data, name);
    DescribedRoundTrip(codec, name, data, Chunks(Encode(data)), before, stamps, after);
  }

  lemma SourceIsOneLine(codec: Codec, name: string, sha: string, size: nat, chunks: seq<string>, before: seq<string>,
                        stamps: Option<seq<string>>, after: seq<string>, i: nat)
    requires ValidName(name) && !HasToken(name) && IsHex(sha) && GoodStamps(codec, stamps, |chunks| + 2)
    requires forall k :: 0 <= k < |chunks| ==> Base64Text(chunks[k])
    requires forall k :: 0 <= k < |before| ==> OneLine(before[k])
    requires forall k :: 0 <= k < |after| ==> OneLine(after[k])
    requires i < |before| + |chunks| + 2 + |after|
    ensures OneLine((before + Wrapped(Printed(name, sha, size, chunks), stamps) + after)[i])
  {
    var raw := Wrapped(Printed(name, sha, size, chunks), stamps);
    var j := i - |before|;
    if 0 <= j < |raw| {
      WrappedIsOneLine(codec, name, sha, size, chunks, stamps, j);
      assert (before + raw + after)[i] == raw[j];
    }
  }

  lemma WrappedIsOneLine(codec: Codec, name: string, sha: string, size: nat, chunks: seq<string>, stamps: Option<seq<string>>,
                         j: nat)
    requires ValidName(name) && !HasToken(name) && IsHex(sha) && GoodStamps(codec, stamps, |chunks| + 2)
    requires forall k :: 0 <= k < |chunks| ==> Base64Text(chunks[k])
    requires j < |chunks| + 2
    ensures OneLine(Wrapped(Printed(name, sha, size, chunks), stamps)[j])
  {
    PrintedBody(name, sha, size, chunks, j);
    PrintableIsOneLine(Wrapped(Printed(name, sha, size, chunks), stamps)[j]);
  }

  /** The same for the text of the log, as long as no noise line holds a character
      that Python takes for the end of a line. */
  lemma {:induction false} TextRoundTrip(codec: Codec, data: seq<Byte>, name: string, before: seq<string>, stamps: Option<seq<string>>,
                      after: seq<string>)
    requires DigestsAreHex(codec) && ValidName(name) && !HasToken(name) && 0 < |data| <= MAX_BYTES
    requires NoiseLines(before) && NoiseLines(after)
    requires forall i :: 0 <= i < |before| ==> OneLine(before[i])
    requires forall i :: 0 <= i < |after| ==> OneLine(after[i])
    requires GoodStamps(codec, stamps, |Chunks(Encode(data))| + 2)
    ensures var bodies := Printed(name, codec.digest(data), |data|, Chunks(Encode(data)));
      var text := JoinLines(before + Wrapped(bodies, stamps) + after);
      && Recovered(codec, SplitLines(text)).Some?
      && Recovered(codec, SplitLines(text)).value.data == data && Recovered(codec, SplitLines(text)).value.name == name
  {
    var chunks := Chunks(Encode(data));
    var source := before + Wrapped(Printed(name, codec.digest(data), |data|, chunks), stamps) + after;
    EnvelopeDescribes(codec, data, name);
    forall i | 0 <= i < |source| ensures OneLine(source[i]) {
      SourceIsOneLine(codec, name, codec.digest(data), |data|, chunks, before, stamps, after, i);
    }
    LinesRoundTrip(source);
    DescribedRoundTrip(codec, name, data, chunks, before, stamps, after);
  }

  // ------------------------------------------------- a name with the reserved token

  lemma TokenInside(a: string, b: string, c: string)
    requires HasToken(b) && a != ""
    ensures !TokenOnlyFirst(a + b + c)
  {
    var i :| 0 <= i < |b| && OccursAt(b, i);
    var s := a + b + c;
    assert s[|a| + i..|a| + i + 18] == b[i..i + 18];
    assert OccursAt(s, |a| + i);
  }

  lemma BeginLineRepeatsToken(name: string, sha: string, size: string)
    requires HasToken(name)
    ensures var line := JoinFields(BeginFields(name, sha, size));
      RESERVED <= line && !TokenOnlyFirst(line) && HasToken(line) && |line| >= 23
  {
    WordsAreFine();
    var f := BeginFields(name, sha, size);
    var rest := JoinFields(f[2..]);
    var line := JoinFields(f);
    assert f[1..][1..] == f[2..] && JoinFields(f[1..]) == f[1] + " " + rest;
    assert line == BEGIN_WORD + " " + (f[1] + " " + rest);
    assert line == (BEGIN_WORD + " name=") + name + (" " + rest);
    TokenInside(BEGIN_WORD + " name=", name, " " + rest);
    assert line[0..18] == RESERVED;
    assert OccursAt(line, 0);
  }

  lemma BadBeginLine(codec: Codec, line: string, stamp: Option<string>)
    requires RESERVED <= line && !TokenOnlyFirst(line) && HasToken(line) && (stamp.Some? ==> StampShape(stamp.value))
    ensures var raw := if stamp.Some? then stamp.value + " " + line else line;
      KindOf(codec, raw) == Bad && StripBom(raw) == raw
  {
    if stamp.Some? {
      var raw := stamp.value + " " + line;
      SuffixToken(stamp.value + " ", line);
      assert raw == (stamp.value + " ") + line;
      assert raw[0] == stamp.value[0] && IsDigit(stamp.value[0]) && RESERVED[0] == 'T';
      assert raw[29..] == line;
    }
  }

  /** The name check admits names that contain the reserved token, and their
      envelopes are never read back, bare or with timestamps, alone or among
      other lines. */
  lemma {:induction false} TokenInNameNeverParses(codec: Codec, data: seq<Byte>, name: string, before: seq<string>,
                               stamps: Option<seq<string>>, after: seq<string>)
    requires HasToken(name) && GoodStamps(codec, stamps, |Chunks(Encode(data))| + 2)
    ensures Recovered(codec, before + Wrapped(Printed(name, codec.digest(data), |data|, Chunks(Encode(data))), stamps) + after) == None
  {
    var bodies := Printed(name, codec.digest(data), |data|, Chunks(Encode(data)));
    var source := before + Wrapped(bodies, stamps) + after;
    BeginLineIsBad(codec, name, codec.digest(data), |data|, Chunks(Encode(data)), stamps);
    assert source[|before|] == Wrapped(bodies, stamps)[0];
    BadLineStops(Classify(codec), source, |before|);
  }

  const TOKEN_NAME := "aTRNM_LOG_ARTIFACT_"

  lemma TokenNameIsAdmitted()
    ensures ValidName(TOKEN_NAME) && HasToken(TOKEN_NAME)
  {
    assert |TOKEN_NAME| == 19 && TOKEN_NAME[1..19] == RESERVED;
    assert OccursAt(TOKEN_NAME, 1);
  }

  /** Such a name exists: the emitter accepts it for any data, and no log that
      holds its envelope, bare or stamped, gives the data back. */
  lemma {:induction false} AcceptedNameIsLost(codec: Codec, data: seq<Byte>, before: seq<string>, stamps: Option<seq<string>>,
                                              after: seq<string>)
    requires GoodStamps(codec, stamps, |Chunks(Encode(data))| + 2)
    ensures ValidName(TOKEN_NAME) && HasToken(TOKEN_NAME)
    ensures Recovered(codec, before + Wrapped(Printed(TOKEN_NAME, codec.digest(data), |data|, Chunks(Encode(data))), stamps)
                             + after) == None
  {
    TokenNameIsAdmitted();
    TokenInNameNeverParses(codec, data, TOKEN_NAME, before, stamps, after);
  }

  lemma BeginLineIsBad(codec: Codec, name: string, sha: string, size: nat, chunks: seq<string>, stamps: Option<seq<string>>)
    requires HasToken(name) && GoodStamps(codec, stamps, |chunks| + 2)
    ensures var line := Wrapped(Printed(name, sha, size, chunks), stamps)[0];
      Classify(codec)(line) == Bad && StripBom(line) == line
  {
    BeginLineRepeatsToken(name, sha, Digits(size));
    BadBeginLine(codec, Printed(name, sha, size, chunks)[0], if stamps.Some? then Some(stamps.value[0]) else None);
  }

  lemma BadLineStops(f: Classifier, source: seq<string>, n: nat)
    requires n < |source| && f(Scanned(source, n)) == Bad
    ensures Collect(f, source).None?
  {
    var kinds := Kinds(f, source);
    assert kinds[n] == Bad && Gather(kinds, n + 1).None?;
    NeverRecovers(kinds, n + 1, |source|);
  }

  // ------------------------------------------------------- what is accepted at all

  lemma {:induction false} GatherSound(kinds: seq<Kind>, n: nat)
    requires n <= |kinds| && Gather(kinds, n).Some?
    ensures var marks := Gather(kinds, n).value;
      && (forall j :: 0 <= j < |marks| ==>
            marks[j].index < n && kinds[marks[j].index] == Marker(marks[j].body, marks[j].stamp))
      && (forall i :: 0 <= i < n ==> kinds[i] == Noise || exists j :: 0 <= j < |marks| && marks[j].index == i)
  {
    if n > 0 {
      GatherSound(kinds, n - 1);
      var before := Gather(kinds, n - 1).value;
      var marks := Gather(kinds, n).value;
      forall i | 0 <= i < n && kinds[i] != Noise
        ensures exists j :: 0 <= j < |marks| && marks[j].index == i
      {
        if i == n - 1 {
          assert marks[|marks| - 1].index == i;
        } else {
          var j :| 0 <= j < |before| && before[j].index == i;
          assert marks[j].index == i;
        }
      }
    }
  }

  /** The scanner misses no marker line and invents none. */
  lemma CollectSound(f: Classifier, source: seq<string>)
    requires Collect(f, source).Some?
    ensures var marks := Collect(f, source).value;
      && (forall j :: 0 <= j < |marks| ==> Marks(f, source, marks[j]))
      && (forall i :: 0 <= i < |source| ==> IsNoise(f, source, i) || exists j :: 0 <= j < |marks| && marks[j].index == i)
  {
    var kinds := Kinds(f, source);
    GatherSound(kinds, |source|);
    forall i | 0 <= i < |source| && !IsNoise(f, source, i)
      ensures exists j :: 0 <= j < |Collect(f, source).value| && Collect(f, source).value[j].index == i
    {
      assert kinds[i] != Noise;
    }
  }

  lemma DropFront(s: string, t: string, n: nat)
    requires SameButUnusedBits(s, t) && |t| >= n + 4
    ensures |s| == |t| && s[..n] == t[..n] && SameButUnusedBits(s[n..], t[n..])
  {
    if s != t {
      var m := |s| - 4;
      assert s[..n] == s[..m][..n] && t[..n] == t[..m][..n];
      assert s[n..][..m - n] == s[..m][n..] && t[n..][..m - n] == t[..m][n..];
      assert s[n..][m - n..] == s[m..] && t[n..][m - n..] == t[m..];
    }
  }

  /** Line by line, only the last chunk can differ, and only in unused bits. */
  lemma {:induction false} ChunksNear(s: string, t: string)
    requires SameButUnusedBits(s, t) && t != "" && |t| % 4 == 0
    ensures NearChunks(Chunks(s), Chunks(t))
    decreases |t|
  {
    if |t| > LINE_WIDTH {
      DropFront(s, t, LINE_WIDTH);
      ChunksNear(s[LINE_WIDTH..], t[LINE_WIDTH..]);
    }
  }

  /** One contiguous block of lines is an envelope of this data but for the unused
      bits of the last chunk, and no other line mentions the reserved token. */
  ghost predicate NearEnvelope(codec: Codec, source: seq<string>, p: Parsed, chunks: seq<string>)
  {
    && ValidName(p.name) && 0 < |p.data| <= MAX_BYTES && p.sha == codec.digest(p.data)
    && 0 < p.beginLine && p.endLine == p.beginLine + |chunks| + 1 <= |source|
    && NearChunks(chunks, Chunks(Encode(p.data)))
    && (forall i :: 0 <= i < |source| && !(p.beginLine <= i + 1 <= p.endLine) ==> !HasToken(Scanned(source, i)))
    && (forall i :: 0 <= i < |chunks| ==> Carries(Classify(codec), source, p.beginLine + i, DATA_WORD + " " + chunks[i]))
  }

  /** This line of the log is a marker line with this body. */
  predicate Carries(f: Classifier, source: seq<string>, i: nat, body: string)
  {
    i < |source| && f(Scanned(source, i)).Marker? && f(Scanned(source, i)).body == body
  }

  lemma NoiseHasNoToken(codec: Codec, source: seq<string>, i: nat)
    requires IsNoise(Classify(codec), source, i)
    ensures !HasToken(Scanned(source, i))
  {
  }

  lemma PayloadLines(marks: seq<Marked>, i: nat)
    requires |marks| >= 2 && Payload(marks).Some? && i < |marks| - 2
    ensures marks[i + 1].body == DATA_WORD + " " + Payload(marks).value[i]
  {
    var body := marks[i + 1].body;
    assert DATA_WORD + " " <= body;
    assert body == body[..22] + body[22..];
  }

  lemma AcceptedPayload(codec: Codec, marks: seq<Marked>, p: Parsed) returns (chunks: seq<string>)
    requires ParsesTo(codec, marks, p)
    ensures |marks| >= 2 && Framed(marks) && Payload(marks) == Some(chunks) && CanonicalChunks(chunks)
    ensures Decode(Concat(chunks)) == Some(p.data) && ValidName(p.name)
    ensures 0 < |p.data| <= MAX_BYTES && p.sha == codec.digest(p.data)
    ensures p.beginLine == marks[0].index + 1 && p.endLine == marks[|marks| - 1].index + 1
  {
    chunks := Payload(marks).value;
  }

  /** These chunks are those of the data but for unused bits. */
  ghost predicate NearChunks(chunks: seq<string>, canonical: seq<string>)
  {
    && |chunks| == |canonical| > 0 && (forall i :: 0 <= i < |chunks| - 1 ==> chunks[i] == canonical[i])
    && SameButUnusedBits(chunks[|chunks| - 1], canonical[|canonical| - 1])
  }

  lemma {:induction false} EncodeWholeQuanta(data: seq<Byte>)
    requires data != []
    ensures |Encode(data)| % 4 == 0 && Encode(data) != ""
  {
    EncodeLength(data);
    FourTimes((|data| + 2) / 3);
  }

  lemma FourTimes(n: nat)
    ensures n * 4 % 4 == 0
  {
  }

  lemma {:induction false} AcceptedChunks(chunks: seq<string>, data: seq<Byte>)
    requires CanonicalChunks(chunks) && Decode(Concat(chunks)) == Some(data) && data != []
    ensures NearChunks(chunks, Chunks(Encode(data)))
  {
    ChunksAreUnique(chunks);
    DecodesExactly(Concat(chunks), data);
    EncodeWholeQuanta(data);
    ChunksNear(Concat(chunks), Encode(data));
  }

  lemma OutsideIsNoise(f: Classifier, source: seq<string>, marks: seq<Marked>, i: nat)
    requires Collect(f, source) == Some(marks) && |marks| >= 2 && Framed(marks)
    requires i < |source| && !(marks[0].index <= i <= marks[|marks| - 1].index)
    ensures IsNoise(f, source, i)
  {
    CollectSound(f, source);
    forall j | 0 <= j < |marks| ensures marks[j].index != i {
      assert marks[j].index == marks[0].index + j;
    }
  }

  lemma InsideIsPayload(f: Classifier, source: seq<string>, marks: seq<Marked>, i: nat)
    requires Collect(f, source) == Some(marks) && |marks| >= 2 && Framed(marks)
    requires Payload(marks).Some? && i < |marks| - 2
    ensures Carries(f, source, marks[0].index + 1 + i, DATA_WORD + " " + Payload(marks).value[i])
  {
    CollectSound(f, source);
    assert marks[i + 1].index == marks[0].index + (i + 1);
    assert Marks(f, source, marks[i + 1]);
    PayloadLines(marks, i);
  }

  lemma LastIsInside(f: Classifier, source: seq<string>, marks: seq<Marked>)
    requires Collect(f, source) == Some(marks) && |marks| >= 2 && Framed(marks)
    ensures marks[|marks| - 1].index == marks[0].index + (|marks| - 1) < |source|
  {
    CollectSound(f, source);
    assert Marks(f, source, marks[|marks| - 1]);
  }

  lemma BlockOfLines(f: Classifier, source: seq<string>, marks: seq<Marked>, p: Parsed, chunks: seq<string>)
    requires Collect(f, source) == Some(marks) && |marks| >= 2 && Framed(marks) && Payload(marks) == Some(chunks)
    requires p.beginLine == marks[0].index + 1 && p.endLine == marks[|marks| - 1].index + 1
    ensures p.endLine == p.beginLine + |chunks| + 1 <= |source|
    ensures forall i :: 0 <= i < |source| && !(p.beginLine <= i + 1 <= p.endLine) ==> IsNoise(f, source, i)
    ensures forall i :: 0 <= i < |chunks| ==> Carries(f, source, p.beginLine + i, DATA_WORD + " " + chunks[i])
  {
    LastIsInside(f, source, marks);
    forall i | 0 <= i < |source| && !(p.beginLine <= i + 1 <= p.endLine) ensures IsNoise(f, source, i) {
      OutsideIsNoise(f, source, marks, i);
    }
    forall i | 0 <= i < |chunks| ensures Carries(f, source, p.beginLine + i, DATA_WORD + " " + chunks[i]) {
      InsideIsPayload(f, source, marks, i);
    }
  }

  lemma ParsedIsNear(codec: Codec, source: seq<string>, marks: seq<Marked>, p: Parsed) returns (chunks: seq<string>)
    requires Collect(Classify(codec), source) == Some(marks) && ParsesTo(codec, marks, p)
    ensures NearEnvelope(codec, source, p, chunks)
  {
    chunks := AcceptedPayload(codec, marks, p);
    AcceptedChunks(chunks, p.data);
    BlockOfLines(Classify(codec), source, marks, p, chunks);
    forall i | 0 <= i < |source| && !(p.beginLine <= i + 1 <= p.endLine) ensures !HasToken(Scanned(source, i)) {
      NoiseHasNoToken(codec, source, i);
    }
  }

  /** Whatever is accepted holds one contiguous envelope of the declared size and
      digest, and printing its data again gives the same payload lines except for
      the unused bits of the last base64 quantum. */
  lemma AcceptedIsNearCanonical(codec: Codec, source: seq<string>) returns (chunks: seq<string>)
    requires Recovered(codec, source).Some?
    ensures NearEnvelope(codec, source, Recovered(codec, source).value, chunks)
  {
    var marks := Collect(Classify(codec), source).value;
    var p := Recovered(codec, source).value;
    assert ParsesTo(codec, marks, p);
    chunks := ParsedIsNear(codec, source, marks, p);
  }
}
