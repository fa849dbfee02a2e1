/** Parsing printed declarations yields exactly the items that the trees stand for
    (scripts/generate-api-rtapi-denominator.py). */
module ProtoRoundTrip {
  import opened Common
  import LogText
  import opened ProtoLexer
  import opened ProtoCutting
  import opened ProtoLayout
  import opened ProtoLexerProofs
  import opened ProtoParser
  import opened ProtoPrinting
  import opened ProtoExpected
  import opened ProtoTermination

  // ------------------------------------------------------------- positions of words

  lemma StandsSplit(ts: seq<Token>, k: nat, a: seq<Word>, b: seq<Word>)
    requires Stands(ts, k, a + b)
    ensures Stands(ts, k, a) && Stands(ts, k + |a|, b)
  {
    forall j | 0 <= j < |a| ensures ts[k + j].value == a[j].value && ts[k + j].kind == a[j].kind {
      assert (a + b)[j] == a[j];
    }
    forall j | 0 <= j < |b| ensures ts[k + |a| + j].value == b[j].value && ts[k + |a| + j].kind == b[j].kind {
      assert (a + b)[|a| + j] == b[j];
    }
  }

  /** A list that is closed by these words, cut after its first part. */
  lemma StandsCut(ts: seq<Token>, k: nat, all: seq<Word>, a: seq<Word>, b: seq<Word>, close: seq<Word>)
    requires Stands(ts, k, all + close) && all == a + b
    ensures Stands(ts, k, a) && Stands(ts, k + |a|, b + close)
  {
    assert all + close == a + (b + close);
    StandsSplit(ts, k, a, b + close);
  }

  lemma StandsOne(ts: seq<Token>, k: nat, w: Word)
    requires Stands(ts, k, [w])
    ensures k < |ts| && ts[k].value == w.value && ts[k].kind == w.kind
  {
    assert ts[k + 0].value == [w][0].value;
  }

  lemma StandsValues(ts: seq<Token>, k: nat, words: seq<Word>)
    requires Stands(ts, k, words)
    ensures Values(ts[k..k + |words|]) == WordValues(words)
  {
  }

  // -------------------------------------------------------------------- statements

  lemma {:induction false} StatementStops(ts: seq<Token>, k: nat, stem: seq<Word>, d: Depth)
    requires Stands(ts, k, stem + [Sign(";")]) && Balanced(stem, d)
    ensures StatementEnd(ts, k, d) == k + |stem| + 1
    decreases |stem|
  {
    var words := stem + [Sign(";")];
    assert ts[k + 0].value == words[0].value;
    if stem != [] {
      assert words == [stem[0]] + (stem[1..] + [Sign(";")]);
      StandsSplit(ts, k, [stem[0]], stem[1..] + [Sign(";")]);
      StatementStops(ts, k + 1, stem[1..], Deeper(d, stem[0].value));
    }
  }

  lemma {:induction false} SkipStops(ts: seq<Token>, k: nat, stem: seq<Word>)
    requires Stands(ts, k, stem + [Sign(";")]) && Smooth(stem)
    ensures SkipEnd(ts, k, 0) == k + |stem| + 1
    decreases |stem|
  {
    var words := stem + [Sign(";")];
    assert ts[k + 0].value == words[0].value;
    if stem != [] {
      assert words == [stem[0]] + (stem[1..] + [Sign(";")]);
      StandsSplit(ts, k, [stem[0]], stem[1..] + [Sign(";")]);
      SkipStops(ts, k + 1, stem[1..]);
    }
  }

  lemma {:induction false} SkippableStops(ts: seq<Token>, k: nat, words: seq<Word>)
    requires Skippable(words) && Stands(ts, k, words)
    ensures k < |ts| && ts[k].value == words[0].value && words[0].value !in {"{", "}", ";"}
    ensures SkipEnd(ts, k, 0) == k + |words|
  {
    var stem := words[..|words| - 1];
    assert words == stem + [Sign(";")] && stem[0] == words[0];
    assert ts[k + 0].value == words[0].value;
    SkipStops(ts, k, stem);
  }

  // ------------------------------------------------------------------------ numbers

  lemma {:induction false} DigitsDigital(n: nat)
    ensures var s := LogText.Digits(n);
      && Digital(s, 10) && NumberOf(s, 10) == n && (n > 0 ==> s[0] != '0') && (n == 0 ==> s == "0")
  {
    var s := LogText.Digits(n);
    if n >= 10 {
      DigitsDigital(n / 10);
      var d := (48 + n % 10) as char;
      assert s == LogText.Digits(n / 10) + [d];
      assert s[..|s| - 1] == LogText.Digits(n / 10);
      assert DigitValue(d) == n % 10;
    } else {
      assert s[..0] == "" && DigitValue(s[0]) == n;
      assert NumberOf("", 10) == 0;
    }
  }

  lemma {:induction false} NumeralParses(n: nat)
    ensures ParseInt(LogText.Digits(n)) == Some(n)
  {
    DigitsDigital(n);
  }

  // ------------------------------------------------------------------------- fields

  lemma {:induction false} IndexAfter(a: seq<string>, v: string, b: seq<string>)
    requires forall j :: 0 <= j < |a| ==> a[j] != v
    ensures IndexOf(a + [v] + b, v) == |a|
  {
    if a == [] {
      assert (a + [v] + b)[0] == v;
    } else {
      assert (a + [v] + b)[1..] == a[1..] + [v] + b;
      IndexAfter(a[1..], v, b);
    }
  }

  function FrontValues(f: Field): seq<string>
  {
    WordValues(LabelWords(f) + f.typ)
  }

  lemma StemValues(f: Field)
    ensures WordValues(FieldStem(f)) == FrontValues(f) + [f.name] + ["="] + ([LogText.Digits(f.number)] + WordValues(f.tail))
  {
  }

  /** Where the values of a field statement stand. */
  lemma {:induction false} FieldValues(f: Field, values: seq<string>)
    requires FieldOk(f) && values == WordValues(FieldStem(f))
    ensures var equals := |FrontValues(f)| + 1;
      && equals + 1 < |values| && IndexOf(values, "=") == equals && values[equals + 1] == LogText.Digits(f.number)
      && values[..equals - 1] == FrontValues(f) && values[equals - 1] == f.name
  {
    StemValues(f);
    var front := FrontValues(f) + [f.name];
    FrontIsPlain(f);
    IndexAfter(front, "=", [LogText.Digits(f.number)] + WordValues(f.tail));
  }

  lemma {:induction false} FieldReads(f: Field, stmt: seq<Token>, message: string, oneof: Option<string>)
    requires FieldOk(f) && |stmt| == |FieldWords(f)| && Values(stmt) == WordValues(FieldWords(f))
    ensures FieldOf(stmt, message, oneof) ==
      Some(FieldItem(message + "." + f.name, JoinType(WordValues(f.typ)), f.number, f.fieldLabel, oneof,
                     stmt[0].line, stmt[|stmt| - 1].line))
  {
    var n := |FieldStem(f)|;
    var values := Values(stmt[..n]);
    assert Values(stmt)[n] == ";" && stmt[n].value == Values(stmt)[n];
    assert values == Values(stmt)[..n] == WordValues(FieldStem(f));
    FieldValues(f, values);
    NumeralParses(f.number);
    FrontIsPlain(f);
    LabelSplits(f);
  }

  lemma FrontIsPlain(f: Field)
    requires FieldOk(f)
    ensures forall j :: 0 <= j < |FrontValues(f) + [f.name]| ==> (FrontValues(f) + [f.name])[j] != "="
    ensures |FrontValues(f)| >= 1
  {
    var words := LabelWords(f) + f.typ;
    forall j | 0 <= j < |words| ensures words[j].value != "=" {
      if j >= |LabelWords(f)| { assert words[j] == f.typ[j - |LabelWords(f)|]; }
    }
  }

  lemma LabelSplits(f: Field)
    requires FieldOk(f)
    ensures FrontValues(f)[0] in LABELS <==> f.fieldLabel.Some?
    ensures f.fieldLabel.Some? ==> FrontValues(f)[0] == f.fieldLabel.value && FrontValues(f)[1..] == WordValues(f.typ)
    ensures f.fieldLabel.None? ==> FrontValues(f) == WordValues(f.typ)
  {
    if f.fieldLabel.Some? {
      assert LabelWords(f) == [Name(f.fieldLabel.value)];
      assert FrontValues(f)[1..] == WordValues(f.typ);
    } else {
      assert LabelWords(f) + f.typ == f.typ;
    }
  }

  lemma FieldStarts(ts: seq<Token>, k: nat, f: Field)
    requires FieldOk(f) && Stands(ts, k, FieldWords(f))
    ensures k < |ts| && ts[k].value !in MEMBER_KEYWORDS
  {
    assert ts[k + 0].value == FieldWords(f)[0].value;
    FirstWordOk(f);
  }

  lemma {:induction false} FieldStatement(ts: seq<Token>, k: nat, f: Field, message: string, oneof: Option<string>)
    requires FieldOk(f) && Stands(ts, k, FieldWords(f))
    ensures StatementEnd(ts, k, Flat) == k + |FieldWords(f)|
    ensures FieldOf(ts[k..k + |FieldWords(f)|], message, oneof) == Some(FieldItemOf(f, ts, k, message, oneof))
  {
    StatementStops(ts, k, FieldStem(f), Flat);
    StandsValues(ts, k, FieldWords(f));
    FieldReads(f, ts[k..k + |FieldWords(f)|], message, oneof);
  }

  /** A statement that is a field adds its item. */
  lemma {:induction false} StatementAdds(ts: seq<Token>, st: State, end: nat, message: string, oneof: Option<string>, item: Item)
    requires st.i < |ts| && ts[st.i].value != "}" && StatementEnd(ts, st.i, Flat) == end
    requires FieldOf(ts[st.i..end], message, oneof) == Some(item)
    ensures AfterStatement(ts, st, message, oneof) == st.(i := end, items := st.items + [item])
  {
  }

  lemma FieldParses(ts: seq<Token>, st: State, f: Field, message: string, oneof: Option<string>)
    requires FieldOk(f) && Stands(ts, st.i, FieldWords(f)) && st.i < |ts| && ts[st.i].value != "}"
    ensures AfterStatement(ts, st, message, oneof) ==
      st.(i := st.i + |FieldWords(f)|, items := st.items + [FieldItemOf(f, ts, st.i, message, oneof)])
  {
    FieldStatement(ts, st.i, f, message, oneof);
    StatementAdds(ts, st, st.i + |FieldWords(f)|, message, oneof, FieldItemOf(f, ts, st.i, message, oneof));
  }

  lemma FirstWordOk(f: Field)
    requires FieldOk(f)
    ensures FieldWords(f)[0].value !in MEMBER_KEYWORDS
  {
    if f.fieldLabel.Some? {
      assert FieldWords(f)[0] == Name(f.fieldLabel.value);
    } else {
      assert FieldWords(f)[0] == f.typ[0];
    }
  }

  /** Two advances of the cursor in a row are one. */
  lemma Advances(st: State, a: nat, one: seq<Item>, package: string, next: State, b: nat, rest: seq<Item>, last: string, after: State)
    requires next == st.(i := st.i + a, package := package, items := st.items + one)
    requires after == st.(i := st.i + (a + b), package := last, items := st.items + (one + rest))
    ensures after == next.(i := next.i + b, package := last, items := next.items + rest)
  {
    assert (st.items + one) + rest == st.items + (one + rest);
  }

  lemma AdvancesOn(st: State, a: nat, one: seq<Item>, package: string, next: State, b: nat, rest: seq<Item>, last: string,
                   sum: nat, all: seq<Item>, after: State)
    requires sum == a + b && all == one + rest
    requires next == st.(i := st.i + a, package := package, items := st.items + one)
    requires after == st.(i := st.i + sum, package := last, items := st.items + all)
    ensures after == next.(i := next.i + b, package := last, items := next.items + rest)
  {
    Advances(st, a, one, package, next, b, rest, last, after);
  }

  /** The body of a oneof, from here on, leaves this state. */
  predicate OneofEnds(ts: seq<Token>, st: State, message: string, name: string, after: State)
  {
    st.i < |ts| && OneofBody(ts, st, message, name) == after
  }

  predicate OneofGives(ts: seq<Token>, st: State, message: string, after: State)
  {
    st.i < |ts| && Oneof(ts, st, message) == Some(after)
  }

  lemma OneofStep(ts: seq<Token>, st: State, f: Field, message: string, name: string, next: State, after: State)
    requires FieldOk(f) && Stands(ts, st.i, FieldWords(f))
    requires next == AfterField(ts, st, f, message, name) && OneofEnds(ts, next, message, name, after)
    ensures OneofEnds(ts, st, message, name, after)
  {
    FieldStarts(ts, st.i, f);
    FieldParses(ts, st, f, message, Some(name));
  }

  function AfterField(ts: seq<Token>, st: State, f: Field, message: string, name: string): State
  {
    st.(i := st.i + |FieldWords(f)|, items := st.items + [FieldItemOf(f, ts, st.i, message, Some(name))])
  }

  function AfterFields(ts: seq<Token>, st: State, fields: seq<Field>, message: string, name: string): State
  {
    st.(i := st.i + |FieldsWords(fields)|, items := st.items + FieldsItems(fields, ts, st.i, message, Some(name)))
  }

  lemma NoFieldsParse(ts: seq<Token>, st: State, message: string, name: string)
    requires Stands(ts, st.i, [Sign("}")])
    ensures OneofEnds(ts, st, message, name, AfterFields(ts, st, [], message, name))
  {
    StandsOne(ts, st.i, Sign("}"));
    assert st.items + [] == st.items;
  }

  lemma {:induction false} FirstFieldWords(fields: seq<Field>)
    requires fields != []
    ensures FieldsWords(fields) == FieldWords(fields[0]) + FieldsWords(fields[1..])
  {
  }

  lemma {:induction false} FieldsLength(fields: seq<Field>)
    requires fields != []
    ensures |FieldsWords(fields)| == |FieldWords(fields[0])| + |FieldsWords(fields[1..])|
  {
    FirstFieldWords(fields);
  }

  lemma {:induction false} FirstField(fields: seq<Field>, ts: seq<Token>, k: nat, next: nat, message: string, oneof: Option<string>)
    requires fields != [] && next == k + |FieldWords(fields[0])|
    ensures FieldsItems(fields, ts, k, message, oneof) ==
      [FieldItemOf(fields[0], ts, k, message, oneof)] + FieldsItems(fields[1..], ts, next, message, oneof)
  {
  }

  /** The second state is the first after these tokens and these items. */
  predicate Moved(st: State, n: nat, items: seq<Item>, package: string, after: State)
  {
    after == st.(i := st.i + n, package := package, items := st.items + items)
  }

  lemma MovedTwice(st: State, a: nat, one: seq<Item>, package: string, next: State, b: nat, more: seq<Item>, last: string,
                   sum: nat, all: seq<Item>, after: State)
    requires sum == a + b && all == one + more && Moved(st, a, one, package, next) && Moved(st, sum, all, last, after)
    ensures Moved(next, b, more, last, after)
  {
    AdvancesOn(st, a, one, package, next, b, more, last, sum, all, after);
  }

  lemma {:induction false} FieldsMove(ts: seq<Token>, st: State, fields: seq<Field>, message: string, name: string, after: State)
    ensures after == AfterFields(ts, st, fields, message, name) <==>
      Moved(st, |FieldsWords(fields)|, FieldsItems(fields, ts, st.i, message, Some(name)), st.package, after)
  {
  }

  lemma {:induction false} FieldMoves(ts: seq<Token>, st: State, f: Field, message: string, name: string, next: State)
    requires next == AfterField(ts, st, f, message, name)
    ensures Moved(st, |FieldWords(f)|, [FieldItemOf(f, ts, st.i, message, Some(name))], st.package, next)
    ensures next.i == st.i + |FieldWords(f)| && next.package == st.package
  {
  }

  lemma {:induction false} MoreFields(ts: seq<Token>, st: State, fields: seq<Field>, message: string, name: string, next: State,
                                      after: State)
    requires fields != [] && next == AfterField(ts, st, fields[0], message, name)
    requires after == AfterFields(ts, st, fields, message, name)
    ensures after == AfterFields(ts, next, fields[1..], message, name)
  {
    FieldMoves(ts, st, fields[0], message, name, next);
    FieldsLength(fields);
    FirstField(fields, ts, st.i, next.i, message, Some(name));
    FieldsMove(ts, st, fields, message, name, after);
    FieldsMove(ts, next, fields[1..], message, name, after);
    MovedTwice(st, |FieldWords(fields[0])|, [FieldItemOf(fields[0], ts, st.i, message, Some(name))], st.package, next,
               |FieldsWords(fields[1..])|, FieldsItems(fields[1..], ts, next.i, message, Some(name)), st.package,
               |FieldsWords(fields)|, FieldsItems(fields, ts, st.i, message, Some(name)), after);
  }

  lemma {:induction false} OneofParses(ts: seq<Token>, st: State, fields: seq<Field>, message: string, name: string, after: State)
    requires Stands(ts, st.i, FieldsWords(fields) + [Sign("}")]) && FieldsOk(fields)
    requires after == AfterFields(ts, st, fields, message, name)
    ensures OneofEnds(ts, st, message, name, after)
    decreases |fields|
  {
    if fields == [] {
      assert FieldsWords(fields) + [Sign("}")] == [Sign("}")];
      NoFieldsParse(ts, st, message, name);
    } else {
      var f, rest := fields[0], fields[1..];
      var next := AfterField(ts, st, f, message, name);
      FirstFieldWords(fields);
      StandsCut(ts, st.i, FieldsWords(fields), FieldWords(f), FieldsWords(rest), [Sign("}")]);
      MoreFields(ts, st, fields, message, name, next, after);
      OneofParses(ts, next, rest, message, name, after);
      OneofStep(ts, st, f, message, name, next, after);
    }
  }

  // -------------------------------------------------------------------------- enums

  lemma ValueParses(ts: seq<Token>, st: State, v: EnumValue, full: string)
    requires ValueOk(v) && Stands(ts, st.i, ValueWords(v))
    ensures st.i < |ts| && ts[st.i].value == v.name
    ensures AfterEnumStatement(ts, st, full) ==
      st.(i := st.i + |ValueWords(v)|,
          items := st.items + [EnumValueItem(full + "." + v.name, v.number, LineAt(ts, st.i), LineAt(ts, st.i + |ValueWords(v)| - 1))])
  {
    var words := ValueWords(v);
    var end := st.i + |words|;
    StatementStops(ts, st.i, ValueStem(v), Flat);
    StandsValues(ts, st.i, words);
    assert ts[st.i + 0].value == words[0].value == v.name;
    var values := WordValues(words);
    assert values == [v.name] + ["="] + ([LogText.Digits(v.number)] + WordValues(v.tail + [Sign(";")]));
    IndexAfter([v.name], "=", [LogText.Digits(v.number)] + WordValues(v.tail + [Sign(";")]));
    NumeralParses(v.number);
    assert values[2] == LogText.Digits(v.number);
  }

  function ValueItem(v: EnumValue, ts: seq<Token>, k: nat, full: string): Item
  {
    EnumValueItem(full + "." + v.name, v.number, LineAt(ts, k), LineAt(ts, k + |ValueWords(v)| - 1))
  }

  /** The body of an enum, from here on, leaves this state. */
  predicate EnumEnds(ts: seq<Token>, st: State, full: string, after: State)
  {
    st.i < |ts| && EnumBody(ts, st, full) == after
  }

  function AfterValue(ts: seq<Token>, st: State, v: EnumValue, full: string): State
  {
    st.(i := st.i + |ValueWords(v)|, items := st.items + [ValueItem(v, ts, st.i, full)])
  }

  lemma ValueStep(ts: seq<Token>, st: State, v: EnumValue, full: string, next: State, after: State)
    requires ValueOk(v) && Stands(ts, st.i, ValueWords(v))
    requires next == AfterValue(ts, st, v, full) && EnumEnds(ts, next, full, after)
    ensures EnumEnds(ts, st, full, after)
  {
    ValueParses(ts, st, v, full);
  }

  function AfterValues(ts: seq<Token>, st: State, values: seq<EnumValue>, full: string): State
  {
    st.(i := st.i + |ValuesWords(values)|, items := st.items + ValuesItems(values, ts, st.i, full))
  }

  lemma NoValuesParse(ts: seq<Token>, st: State, full: string)
    requires Stands(ts, st.i, [Sign("}")])
    ensures EnumEnds(ts, st, full, AfterValues(ts, st, [], full))
  {
    StandsOne(ts, st.i, Sign("}"));
    assert st.items + [] == st.items;
  }

  lemma {:induction false} FirstValueWords(values: seq<EnumValue>)
    requires values != []
    ensures ValuesWords(values) == ValueWords(values[0]) + ValuesWords(values[1..])
  {
  }

  lemma {:induction false} FirstValue(values: seq<EnumValue>, ts: seq<Token>, k: nat, full: string)
    requires values != []
    ensures ValuesItems(values, ts, k, full) ==
      [ValueItem(values[0], ts, k, full)] + ValuesItems(values[1..], ts, k + |ValueWords(values[0])|, full)
  {
  }

  lemma {:induction false} MoreValues(ts: seq<Token>, st: State, values: seq<EnumValue>, full: string, next: State, after: State)
    requires values != [] && next == AfterValue(ts, st, values[0], full) && after == AfterValues(ts, st, values, full)
    ensures after == AfterValues(ts, next, values[1..], full)
  {
    FirstValueWords(values);
    FirstValue(values, ts, st.i, full);
    Advances(st, |ValueWords(values[0])|, [ValueItem(values[0], ts, st.i, full)], st.package, next,
             |ValuesWords(values[1..])|, ValuesItems(values[1..], ts, next.i, full), st.package, after);
  }

  lemma {:induction false} ValuesParse(ts: seq<Token>, st: State, values: seq<EnumValue>, full: string, after: State)
    requires Stands(ts, st.i, ValuesWords(values) + [Sign("}")]) && ValuesOk(values)
    requires after == AfterValues(ts, st, values, full)
    ensures EnumEnds(ts, st, full, after)
    decreases |values|
  {
    if values == [] {
      assert ValuesWords(values) + [Sign("}")] == [Sign("}")];
      NoValuesParse(ts, st, full);
    } else {
      var v, rest := values[0], values[1..];
      var next := AfterValue(ts, st, v, full);
      FirstValueWords(values);
      StandsCut(ts, st.i, ValuesWords(values), ValueWords(v), ValuesWords(rest), [Sign("}")]);
      MoreValues(ts, st, values, full, next, after);
      ValuesParse(ts, next, rest, full, after);
      ValueStep(ts, st, v, full, next, after);
    }
  }

  // ------------------------------------------------------------------ declarations

  /** The opening of a block and its closing brace stand where they were printed,
      and no semicolon follows. */
  lemma BlockOpens(ts: seq<Token>, k: nat, keyword: string, name: string, body: seq<Word>)
    requires Stands(ts, k, Block(keyword, name, body))
    ensures k < |ts| && ts[k].value == keyword && OpensBlock(ts, k) && ts[k + 1].value == name
    ensures Stands(ts, k + 3, body + [Sign("}")]) && k + 3 + |body| < |ts| && ts[k + 3 + |body|].value == "}"
    ensures |Block(keyword, name, body)| == |body| + 4
  {
    var head := [Name(keyword), Name(name), Sign("{")];
    assert Block(keyword, name, body) == head + (body + [Sign("}")]);
    StandsSplit(ts, k, head, body + [Sign("}")]);
    assert ts[k + 0].value == head[0].value && ts[k + 1].value == head[1].value && ts[k + 2].value == head[2].value;
    StandsSplit(ts, k + 3, body, [Sign("}")]);
    StandsOne(ts, k + 3 + |body|, Sign("}"));
  }

  predicate EnumGives(ts: seq<Token>, st: State, parent: string, after: State)
  {
    st.i < |ts| && Enum(ts, st, parent) == Some(after)
  }

  lemma EnumCloses(ts: seq<Token>, st: State, parent: string, name: string, full: string, body: State)
    requires st.i < |ts| && ts[st.i].value == "enum" && OpensBlock(ts, st.i) && ts[st.i + 1].value == name
    requires full == Qualified(st.package, parent, name) && body.i < |ts| && !At(ts, body.i + 1, ";")
    requires EnumEnds(ts, st.(i := st.i + 3, items := st.items + [EnumItem(full, ts[st.i].line, ts[st.i].line)]), full, body)
    ensures |st.items| < |body.items|
    ensures EnumGives(ts, st, parent,
      body.(i := body.i + 1, items := body.items[|st.items| := EnumItem(full, ts[st.i].line, ts[body.i].line)]))
  {
  }

  lemma {:induction false} EnumParses(ts: seq<Token>, st: State, parent: string, name: string, values: seq<EnumValue>)
    requires Stands(ts, st.i, Block("enum", name, ValuesWords(values))) && ValuesOk(values)
    requires !At(ts, st.i + |Block("enum", name, ValuesWords(values))|, ";")
    ensures var full := Qualified(st.package, parent, name);
      var n := |Block("enum", name, ValuesWords(values))|;
      EnumGives(ts, st, parent,
        st.(i := st.i + n, items := st.items + ([EnumItem(full, LineAt(ts, st.i), LineAt(ts, st.i + n - 1))] +
                                                ValuesItems(values, ts, st.i + 3, full))))
  {
    var body := ValuesWords(values);
    BlockOpens(ts, st.i, "enum", name, body);
    var full := Qualified(st.package, parent, name);
    var line := ts[st.i].line;
    var start := st.(i := st.i + 3, items := st.items + [EnumItem(full, line, line)]);
    var inside := AfterValues(ts, start, values, full);
    ValuesParse(ts, start, values, full, inside);
    EnumCloses(ts, st, parent, name, full, inside);
    Reslot(st.items, EnumItem(full, line, line), EnumItem(full, line, ts[st.i + 3 + |body|].line),
           ValuesItems(values, ts, st.i + 3, full));
  }

  /** The item that was added first gets its last line at the end. */
  lemma Reslot(before: seq<Item>, old1: Item, new1: Item, rest: seq<Item>)
    ensures ((before + [old1]) + rest)[|before| := new1] == before + ([new1] + rest)
  {
  }

  lemma OneofCloses(ts: seq<Token>, st: State, message: string, name: string, start: State, body: State, after: State)
    requires st.i < |ts| && ts[st.i].value == "oneof" && OpensBlock(ts, st.i) && ts[st.i + 1].value == name
    requires start == st.(i := st.i + 3) && OneofEnds(ts, start, message, name, body)
    requires body.i < |ts| && !At(ts, body.i + 1, ";") && after == body.(i := body.i + 1)
    ensures OneofGives(ts, st, message, after)
  {
  }

  lemma OneofDeclParses(ts: seq<Token>, st: State, message: string, name: string, fields: seq<Field>)
    requires Stands(ts, st.i, Block("oneof", name, FieldsWords(fields))) && FieldsOk(fields)
    requires !At(ts, st.i + |Block("oneof", name, FieldsWords(fields))|, ";")
    ensures OneofGives(ts, st, message,
      st.(i := st.i + |Block("oneof", name, FieldsWords(fields))|,
          items := st.items + FieldsItems(fields, ts, st.i + 3, message, Some(name))))
  {
    var body := FieldsWords(fields);
    BlockOpens(ts, st.i, "oneof", name, body);
    var start := st.(i := st.i + 3);
    var inside := AfterFields(ts, start, fields, message, name);
    OneofParses(ts, start, fields, message, name, inside);
    OneofCloses(ts, st, message, name, start, inside, inside.(i := inside.i + 1));
    AfterOneof(ts, st, message, name, fields, inside);
  }

  lemma AfterOneof(ts: seq<Token>, st: State, message: string, name: string, fields: seq<Field>, inside: State)
    requires inside == AfterFields(ts, st.(i := st.i + 3), fields, message, name)
    ensures inside.(i := inside.i + 1) ==
      st.(i := st.i + |Block("oneof", name, FieldsWords(fields))|,
          items := st.items + FieldsItems(fields, ts, st.i + 3, message, Some(name)))
  {
  }

  /** The state after a member of the message `full`. */
  function AfterMember(ts: seq<Token>, st: State, m: Member, full: string, parent: string): State
  {
    st.(i := st.i + |MemberWords(m)|, items := st.items + MemberItems(m, ts, st.i, st.package, full, parent))
  }

  /** One turn of the loop over the members of a message. */
  function NextMember(ts: seq<Token>, st: State, full: string, childParent: string): Option<State>
    requires st.i < |ts| && ts[st.i].value != "}"
  {
    var v := ts[st.i].value;
    if v == "message" then Message(ts, st, childParent)
    else if v == "enum" then Enum(ts, st, childParent)
    else if v == "oneof" then Oneof(ts, st, full)
    else if v in SKIPPED_IN_MESSAGE then Some(st.(i := SkipEnd(ts, st.i, 0)))
    else Some(AfterStatement(ts, st, full, None))
  }

  /** The body of a message, from here on, leaves this state. */
  predicate MessageEnds(ts: seq<Token>, st: State, full: string, childParent: string, after: State)
  {
    st.i < |ts| && MessageBody(ts, st, full, childParent) == Some(after)
  }

  predicate MessageGives(ts: seq<Token>, st: State, parent: string, after: State)
  {
    st.i < |ts| && Message(ts, st, parent) == Some(after)
  }

  /** The member at the cursor is read, which leaves this state. */
  predicate MemberGives(ts: seq<Token>, st: State, full: string, childParent: string, next: State)
  {
    st.i < |ts| && ts[st.i].value != "}" && NextMember(ts, st, full, childParent) == Some(next)
  }

  lemma BodyStep(ts: seq<Token>, st: State, full: string, childParent: string, next: State, after: State)
    requires MemberGives(ts, st, full, childParent, next) && MessageEnds(ts, next, full, childParent, after)
    ensures MessageEnds(ts, st, full, childParent, after)
  {
  }

  lemma FieldMemberParses(ts: seq<Token>, st: State, f: Field, full: string, parent: string, next: State)
    requires FieldOk(f) && Stands(ts, st.i, FieldWords(f)) && next == AfterMember(ts, st, FieldMember(f), full, parent)
    ensures MemberGives(ts, st, full, parent, next)
  {
    FieldStarts(ts, st.i, f);
    FieldParses(ts, st, f, full, None);
  }

  lemma SkippedMemberParses(ts: seq<Token>, st: State, words: seq<Word>, full: string, parent: string, next: State)
    requires MemberOk(SkippedMember(words)) && Stands(ts, st.i, words)
    requires next == AfterMember(ts, st, SkippedMember(words), full, parent)
    ensures MemberGives(ts, st, full, parent, next)
  {
    SkippableStops(ts, st.i, words);
    assert st.items + [] == st.items;
  }

  lemma {:induction false} EnumMemberGives(ts: seq<Token>, st: State, m: Member, full: string, parent: string, next: State)
    requires m.EnumMember? && MemberOk(m) && Stands(ts, st.i, MemberWords(m)) && !At(ts, st.i + |MemberWords(m)|, ";")
    requires next == AfterMember(ts, st, m, full, parent)
    ensures At(ts, st.i, "enum") && EnumGives(ts, st, parent, next)
  {
    BlockOpens(ts, st.i, "enum", m.name, ValuesWords(m.values));
    EnumParses(ts, st, parent, m.name, m.values);
  }

  lemma EnumIsMember(ts: seq<Token>, st: State, full: string, parent: string, next: State)
    requires At(ts, st.i, "enum") && EnumGives(ts, st, parent, next)
    ensures MemberGives(ts, st, full, parent, next)
  {
  }

  lemma {:induction false} OneofMemberGives(ts: seq<Token>, st: State, m: Member, full: string, parent: string, next: State)
    requires m.OneofMember? && MemberOk(m) && Stands(ts, st.i, MemberWords(m)) && !At(ts, st.i + |MemberWords(m)|, ";")
    requires next == AfterMember(ts, st, m, full, parent)
    ensures At(ts, st.i, "oneof") && OneofGives(ts, st, full, next)
  {
    BlockOpens(ts, st.i, "oneof", m.name, FieldsWords(m.fields));
    OneofDeclParses(ts, st, full, m.name, m.fields);
  }

  lemma OneofIsMember(ts: seq<Token>, st: State, full: string, parent: string, next: State)
    requires At(ts, st.i, "oneof") && OneofGives(ts, st, full, next)
    ensures MemberGives(ts, st, full, parent, next)
  {
  }

  lemma MessageIsMember(ts: seq<Token>, st: State, full: string, parent: string, next: State)
    requires At(ts, st.i, "message") && MessageGives(ts, st, parent, next)
    ensures MemberGives(ts, st, full, parent, next)
  {
  }

  /** No member starts with a semicolon. */
  lemma {:induction false} MemberStarts(ts: seq<Token>, k: nat, m: Member)
    requires MemberOk(m) && Stands(ts, k, MemberWords(m))
    ensures k < |ts| && ts[k].value != ";"
  {
    match m
    case FieldMember(f) => FieldStarts(ts, k, f);
    case OneofMember(name, fields) => BlockOpens(ts, k, "oneof", name, FieldsWords(fields));
    case MessageMember(name, members) => BlockOpens(ts, k, "message", name, MembersWords(members));
    case EnumMember(name, values) => BlockOpens(ts, k, "enum", name, ValuesWords(values));
    case SkippedMember(words) => SkippableStops(ts, k, words);
  }

  lemma {:induction false} RestStarts(ts: seq<Token>, k: nat, members: seq<Member>)
    requires MembersOk(members) && Stands(ts, k, MembersWords(members) + [Sign("}")])
    ensures !At(ts, k, ";")
  {
    if members == [] {
      assert MembersWords(members) + [Sign("}")] == [Sign("}")];
      StandsOne(ts, k, Sign("}"));
    } else {
      FirstMemberWords(members);
      StandsCut(ts, k, MembersWords(members), MemberWords(members[0]), MembersWords(members[1..]), [Sign("}")]);
      MemberStarts(ts, k, members[0]);
    }
  }

  lemma {:induction false} MemberParses(ts: seq<Token>, st: State, m: Member, full: string, parent: string, next: State)
    requires MemberOk(m) && Stands(ts, st.i, MemberWords(m)) && !At(ts, st.i + |MemberWords(m)|, ";")
    requires next == AfterMember(ts, st, m, full, parent)
    ensures MemberGives(ts, st, full, parent, next)
    decreases m
  {
    match m
    case FieldMember(f) => FieldMemberParses(ts, st, f, full, parent, next);
    case OneofMember(_, _) =>
      OneofMemberGives(ts, st, m, full, parent, next);
      OneofIsMember(ts, st, full, parent, next);
    case EnumMember(_, _) =>
      EnumMemberGives(ts, st, m, full, parent, next);
      EnumIsMember(ts, st, full, parent, next);
    case SkippedMember(words) => SkippedMemberParses(ts, st, words, full, parent, next);
    case MessageMember(_, _) =>
      MessageParses(ts, st, m, full, parent, next);
      MessageIsMember(ts, st, full, parent, next);
  }

  lemma MessageCloses(ts: seq<Token>, st: State, parent: string, name: string, full: string, start: State, body: State,
                      after: State)
    requires st.i < |ts| && ts[st.i].value == "message" && OpensBlock(ts, st.i) && ts[st.i + 1].value == name
    requires full == Qualified(st.package, parent, name) && body.i < |ts| && !At(ts, body.i + 1, ";")
    requires start == st.(i := st.i + 3, items := st.items + [MessageItem(full, ts[st.i].line, ts[st.i].line)])
    requires MessageEnds(ts, start, full, JoinDots([parent, name]), body) && |st.items| < |body.items|
    requires after == body.(i := body.i + 1, items := body.items[|st.items| := MessageItem(full, ts[st.i].line, ts[body.i].line)])
    ensures MessageGives(ts, st, parent, after)
  {
  }

  /** The items of a message are its own and those of its members. */
  lemma MessageAdds(ts: seq<Token>, st: State, m: Member, full: string, parent: string, first: Item, start: State, inside: State,
                    next: State)
    requires m.MessageMember? && st.i + |MemberWords(m)| <= |ts| && next == AfterMember(ts, st, m, full, parent)
    requires var symbol := Qualified(st.package, parent, m.name);
      && first == MessageItem(symbol, ts[st.i].line, ts[st.i].line)
      && start == st.(i := st.i + 3, items := st.items + [first])
      && inside == AfterMembers(ts, start, m.members, symbol, JoinDots([parent, m.name]))
    ensures inside.i < |ts| && |st.items| < |inside.items|
    ensures next == inside.(i := inside.i + 1,
      items := inside.items[|st.items| := MessageItem(Qualified(st.package, parent, m.name), ts[st.i].line, ts[inside.i].line)])
  {
    var symbol := Qualified(st.package, parent, m.name);
    var last := MessageItem(symbol, ts[st.i].line, ts[st.i + 3 + |MembersWords(m.members)|].line);
    Reslot(st.items, first, last, MembersItems(m.members, ts, st.i + 3, st.package, symbol, JoinDots([parent, m.name])));
  }

  /** parse_message on a printed message. */
  lemma {:induction false} MessageParses(ts: seq<Token>, st: State, m: Member, full: string, parent: string, next: State)
    requires m.MessageMember? && MemberOk(m) && Stands(ts, st.i, MemberWords(m)) && !At(ts, st.i + |MemberWords(m)|, ";")
    requires next == AfterMember(ts, st, m, full, parent)
    ensures At(ts, st.i, "message") && MessageGives(ts, st, parent, next)
    decreases m, 0
  {
    var symbol := Qualified(st.package, parent, m.name);
    BlockOpens(ts, st.i, "message", m.name, MembersWords(m.members));
    var first := MessageItem(symbol, ts[st.i].line, ts[st.i].line);
    var start := st.(i := st.i + 3, items := st.items + [first]);
    var inside := AfterMembers(ts, start, m.members, symbol, JoinDots([parent, m.name]));
    MembersParse(ts, start, m.members, symbol, JoinDots([parent, m.name]), inside);
    MessageAdds(ts, st, m, full, parent, first, start, inside, next);
    MessageCloses(ts, st, parent, m.name, symbol, start, inside, next);
  }

  function AfterMembers(ts: seq<Token>, st: State, members: seq<Member>, full: string, parent: string): State
  {
    st.(i := st.i + |MembersWords(members)|,
        items := st.items + MembersItems(members, ts, st.i, st.package, full, parent))
  }

  lemma NoMembersParse(ts: seq<Token>, st: State, full: string, parent: string)
    requires Stands(ts, st.i, [Sign("}")])
    ensures MessageEnds(ts, st, full, parent, AfterMembers(ts, st, [], full, parent))
  {
    StandsOne(ts, st.i, Sign("}"));
    assert st.items + [] == st.items;
  }

  lemma {:induction false} MembersMove(ts: seq<Token>, st: State, members: seq<Member>, full: string, parent: string, after: State)
    ensures after == AfterMembers(ts, st, members, full, parent) <==>
      Moved(st, |MembersWords(members)|, MembersItems(members, ts, st.i, st.package, full, parent), st.package, after)
  {
  }

  lemma {:induction false} MemberMoves(ts: seq<Token>, st: State, m: Member, full: string, parent: string, next: State)
    requires next == AfterMember(ts, st, m, full, parent)
    ensures Moved(st, |MemberWords(m)|, MemberItems(m, ts, st.i, st.package, full, parent), st.package, next)
    ensures next.i == st.i + |MemberWords(m)| && next.package == st.package
  {
  }

  lemma {:induction false} MoreMembers(ts: seq<Token>, st: State, members: seq<Member>, full: string, parent: string, next: State,
                                       after: State)
    requires members != [] && next == AfterMember(ts, st, members[0], full, parent)
    requires after == AfterMembers(ts, st, members, full, parent)
    ensures after == AfterMembers(ts, next, members[1..], full, parent)
  {
    MembersLength(members);
    FirstMember(ts, st.i, members, st.package, full, parent);
    MemberMoves(ts, st, members[0], full, parent, next);
    MembersMove(ts, st, members, full, parent, after);
    MembersMove(ts, next, members[1..], full, parent, after);
    MovedTwice(st, |MemberWords(members[0])|, MemberItems(members[0], ts, st.i, st.package, full, parent), st.package, next,
               |MembersWords(members[1..])|, MembersItems(members[1..], ts, next.i, st.package, full, parent), st.package,
               |MembersWords(members)|, MembersItems(members, ts, st.i, st.package, full, parent), after);
  }

  lemma {:induction false} MembersLength(members: seq<Member>)
    requires members != []
    ensures |MembersWords(members)| == |MemberWords(members[0])| + |MembersWords(members[1..])|
  {
    FirstMemberWords(members);
  }

  lemma {:induction false} FirstMember(ts: seq<Token>, k: nat, members: seq<Member>, package: string, full: string, parent: string)
    requires members != []
    ensures MembersItems(members, ts, k, package, full, parent) ==
      MemberItems(members[0], ts, k, package, full, parent) +
      MembersItems(members[1..], ts, k + |MemberWords(members[0])|, package, full, parent)
  {
  }

  lemma {:induction false} FirstMemberWords(members: seq<Member>)
    requires members != []
    ensures MembersWords(members) == MemberWords(members[0]) + MembersWords(members[1..])
  {
  }

  lemma {:induction false} MembersParse(ts: seq<Token>, st: State, members: seq<Member>, full: string, parent: string, after: State)
    requires MembersOk(members) && Stands(ts, st.i, MembersWords(members) + [Sign("}")])
    requires after == AfterMembers(ts, st, members, full, parent)
    ensures MessageEnds(ts, st, full, parent, after)
    decreases members
  {
    if members == [] {
      assert MembersWords(members) + [Sign("}")] == [Sign("}")];
      NoMembersParse(ts, st, full, parent);
    } else {
      var m, rest := members[0], members[1..];
      var next := AfterMember(ts, st, m, full, parent);
      FirstMemberWords(members);
      StandsCut(ts, st.i, MembersWords(members), MemberWords(m), MembersWords(rest), [Sign("}")]);
      RestStarts(ts, next.i, rest);
      MemberParses(ts, st, m, full, parent, next);
      MoreMembers(ts, st, members, full, parent, next, after);
      MembersParse(ts, next, rest, full, parent, after);
      BodyStep(ts, st, full, parent, next, after);
    }
  }

  // -------------------------------------------------------------------- whole files

  lemma {:induction false} PackageStops(ts: seq<Token>, k: nat, parts: seq<Word>)
    requires Stands(ts, k, parts + [Sign(";")]) && forall i :: 0 <= i < |parts| ==> parts[i].value != ";"
    ensures PackageEnd(ts, k) == k + |parts| < |ts|
    decreases |parts|
  {
    var words := parts + [Sign(";")];
    assert ts[k + 0].value == words[0].value;
    if parts != [] {
      assert words == [parts[0]] + (parts[1..] + [Sign(";")]);
      StandsSplit(ts, k, [parts[0]], parts[1..] + [Sign(";")]);
      PackageStops(ts, k + 1, parts[1..]);
    }
  }

  function AfterDecl(ts: seq<Token>, st: State, d: Decl): State
  {
    st.(i := st.i + |DeclWords(d)|, package := PackageAfter(d, st.package), items := st.items + DeclItems(d, ts, st.i, st.package))
  }

  /** The declaration at the cursor is read, which leaves this state. */
  predicate ReadsTo(ts: seq<Token>, st: State, after: State)
  {
    st.i < |ts| && ts[st.i].value !in {"service", "}", ";"} && NextDecl(ts, st) == Some(after)
  }

  lemma PackageParses(ts: seq<Token>, st: State, parts: seq<Word>, next: State)
    requires DeclOk(PackageDecl(parts)) && Stands(ts, st.i, DeclWords(PackageDecl(parts)))
    requires next == AfterDecl(ts, st, PackageDecl(parts))
    ensures ReadsTo(ts, st, next)
  {
    var rest := parts + [Sign(";")];
    assert DeclWords(PackageDecl(parts)) == [Name("package")] + rest;
    StandsSplit(ts, st.i, [Name("package")], rest);
    StandsOne(ts, st.i, Name("package"));
    PackageStops(ts, st.i + 1, parts);
    StandsSplit(ts, st.i + 1, parts, [Sign(";")]);
    StandsValues(ts, st.i + 1, parts);
    assert st.items + [] == st.items;
  }

  lemma SkippedMoves(ts: seq<Token>, st: State, words: seq<Word>)
    ensures AfterDecl(ts, st, PlainDecl(SkippedMember(words))) == st.(i := st.i + |words|)
  {
    assert st.items + [] == st.items;
  }

  lemma SkippedReads(ts: seq<Token>, st: State, next: State)
    requires st.i < |ts| && ts[st.i].value !in {"service", "}", ";", "package", "message", "enum"}
    requires next == st.(i := SkipEnd(ts, st.i, 0))
    ensures ReadsTo(ts, st, next)
  {
  }

  lemma SkippedDeclParses(ts: seq<Token>, st: State, words: seq<Word>, next: State)
    requires DeclOk(PlainDecl(SkippedMember(words))) && Stands(ts, st.i, words)
    requires next == AfterDecl(ts, st, PlainDecl(SkippedMember(words)))
    ensures ReadsTo(ts, st, next)
  {
    SkippableStops(ts, st.i, words);
    SkippedMoves(ts, st, words);
    SkippedReads(ts, st, next);
  }

  lemma MessageIsRead(ts: seq<Token>, st: State, after: State)
    requires At(ts, st.i, "message") && MessageGives(ts, st, "", after)
    ensures ReadsTo(ts, st, after)
  {
  }

  lemma EnumIsRead(ts: seq<Token>, st: State, after: State)
    requires At(ts, st.i, "enum") && EnumGives(ts, st, "", after)
    ensures ReadsTo(ts, st, after)
  {
  }

  lemma AfterPlain(ts: seq<Token>, st: State, m: Member)
    ensures AfterDecl(ts, st, PlainDecl(m)) == AfterMember(ts, st, m, "", "")
  {
  }

  lemma {:induction false} DeclParses(ts: seq<Token>, st: State, d: Decl, next: State)
    requires DeclOk(d) && Stands(ts, st.i, DeclWords(d)) && !At(ts, st.i + |DeclWords(d)|, ";")
    requires next == AfterDecl(ts, st, d)
    ensures ReadsTo(ts, st, next)
  {
    match d
    case PackageDecl(parts) => PackageParses(ts, st, parts, next);
    case PlainDecl(m) =>
      AfterPlain(ts, st, m);
      if m.SkippedMember? {
        SkippedDeclParses(ts, st, m.words, next);
      } else if m.MessageMember? {
        MessageParses(ts, st, m, "", "", next);
        MessageIsRead(ts, st, next);
      } else {
        EnumMemberGives(ts, st, m, "", "", next);
        EnumIsRead(ts, st, next);
      }
  }

  lemma {:induction false} DeclStarts(ts: seq<Token>, k: nat, d: Decl)
    requires DeclOk(d) && Stands(ts, k, DeclWords(d))
    ensures !At(ts, k, ";")
  {
    match d
    case PackageDecl(parts) =>
      assert ts[k + 0].value == DeclWords(d)[0].value == "package";
    case PlainDecl(m) =>
      if m.SkippedMember? {
        SkippableStops(ts, k, m.words);
      } else {
        MemberStarts(ts, k, m);
      }
  }

  lemma {:induction false} FileSplit(decls: seq<Decl>)
    requires decls != []
    ensures FileWords(decls) == DeclWords(decls[0]) + FileWords(decls[1..])
  {
  }

  lemma WordsSplit(ts: seq<Token>, k: nat, words: seq<Word>, a: seq<Word>, b: seq<Word>)
    requires Stands(ts, k, words) && words == a + b
    ensures Stands(ts, k, a) && Stands(ts, k + |a|, b)
  {
    StandsSplit(ts, k, a, b);
  }

  /** These declarations stand between the two positions, and no semicolon follows. */
  predicate DeclsStand(ts: seq<Token>, k: nat, decls: seq<Decl>, end: nat)
  {
    Stands(ts, k, FileWords(decls)) && end == k + |FileWords(decls)| && !At(ts, end, ";") && DeclsOk(decls)
  }

  lemma {:induction false} DeclsCut(ts: seq<Token>, k: nat, decls: seq<Decl>, end: nat, next: nat)
    requires decls != [] && DeclsStand(ts, k, decls, end) && next == k + |DeclWords(decls[0])|
    ensures Stands(ts, k, DeclWords(decls[0])) && DeclsStand(ts, next, decls[1..], end)
  {
    FileSplit(decls);
    WordsCut(ts, k, FileWords(decls), DeclWords(decls[0]), FileWords(decls[1..]), next, end);
    RestStands(ts, next, decls, decls[1..], end);
  }

  lemma WordsCut(ts: seq<Token>, k: nat, words: seq<Word>, a: seq<Word>, b: seq<Word>, next: nat, end: nat)
    requires Stands(ts, k, words) && words == a + b && next == k + |a| && end == k + |words|
    ensures Stands(ts, k, a) && Stands(ts, next, b) && end == next + |b|
  {
    WordsSplit(ts, k, words, a, b);
  }

  lemma {:induction false} RestStands(ts: seq<Token>, next: nat, decls: seq<Decl>, rest: seq<Decl>, end: nat)
    requires decls != [] && rest == decls[1..] && DeclsOk(decls) && Stands(ts, next, FileWords(rest))
    requires end == next + |FileWords(rest)| && !At(ts, end, ";")
    ensures DeclsStand(ts, next, rest, end)
  {
  }

  /** No list of declarations starts with a semicolon. */
  lemma {:induction false} DeclsStart(ts: seq<Token>, k: nat, decls: seq<Decl>, end: nat)
    requires DeclsStand(ts, k, decls, end)
    ensures !At(ts, k, ";")
  {
    if decls != [] {
      DeclsCut(ts, k, decls, end, k + |DeclWords(decls[0])|);
      DeclStarts(ts, k, decls[0]);
    }
  }

  /** Going on from the second state ends as going on from the first. */
  predicate SameEnd(ts: seq<Token>, st: State, after: State)
  {
    st.i <= |ts| && after.i <= |ts| && File(ts, st) == File(ts, after)
  }

  lemma DeclStep(ts: seq<Token>, st: State, next: State, after: State)
    requires ReadsTo(ts, st, next) && SameEnd(ts, next, after)
    ensures SameEnd(ts, st, after)
  {
  }

  function PackageAfterAll(decls: seq<Decl>, package: string): string
  {
    if decls == [] then package else PackageAfterAll(decls[1..], PackageAfter(decls[0], package))
  }

  /** The state after all these declarations. */
  function AfterDecls(ts: seq<Token>, st: State, decls: seq<Decl>): State
  {
    st.(i := st.i + |FileWords(decls)|, package := PackageAfterAll(decls, st.package),
        items := st.items + FileItems(decls, ts, st.i, st.package))
  }

  lemma {:induction false} FirstDecl(decls: seq<Decl>, ts: seq<Token>, k: nat, package: string)
    requires decls != []
    ensures FileItems(decls, ts, k, package) ==
      DeclItems(decls[0], ts, k, package) +
      FileItems(decls[1..], ts, k + |DeclWords(decls[0])|, PackageAfter(decls[0], package))
    ensures PackageAfterAll(decls, package) == PackageAfterAll(decls[1..], PackageAfter(decls[0], package))
  {
  }

  lemma {:induction false} DeclsLength(decls: seq<Decl>)
    requires decls != []
    ensures |FileWords(decls)| == |DeclWords(decls[0])| + |FileWords(decls[1..])|
  {
    FileSplit(decls);
  }

  lemma {:induction false} DeclsMove(ts: seq<Token>, st: State, decls: seq<Decl>, after: State)
    ensures after == AfterDecls(ts, st, decls) <==>
      Moved(st, |FileWords(decls)|, FileItems(decls, ts, st.i, st.package), PackageAfterAll(decls, st.package), after)
  {
  }

  lemma {:induction false} DeclMoves(ts: seq<Token>, st: State, d: Decl, next: State)
    requires next == AfterDecl(ts, st, d)
    ensures Moved(st, |DeclWords(d)|, DeclItems(d, ts, st.i, st.package), PackageAfter(d, st.package), next)
    ensures next.i == st.i + |DeclWords(d)| && next.package == PackageAfter(d, st.package)
  {
  }

  lemma {:induction false} ItemsInTurn(ts: seq<Token>, st: State, decls: seq<Decl>, next: State, first: seq<Item>, more: seq<Item>,
                                       all: seq<Item>)
    requires decls != [] && next.i == st.i + |DeclWords(decls[0])| && next.package == PackageAfter(decls[0], st.package)
    requires first == DeclItems(decls[0], ts, st.i, st.package) && more == FileItems(decls[1..], ts, next.i, next.package)
    requires all == FileItems(decls, ts, st.i, st.package)
    ensures all == first + more && PackageAfterAll(decls, st.package) == PackageAfterAll(decls[1..], next.package)
  {
    FirstDecl(decls, ts, st.i, st.package);
  }

  lemma {:induction false} MoreDecls(ts: seq<Token>, st: State, decls: seq<Decl>, next: State, after: State)
    requires decls != [] && next == AfterDecl(ts, st, decls[0]) && after == AfterDecls(ts, st, decls)
    ensures after == AfterDecls(ts, next, decls[1..])
  {
    DeclsLength(decls);
    DeclMoves(ts, st, decls[0], next);
    var first, more := DeclItems(decls[0], ts, st.i, st.package), FileItems(decls[1..], ts, next.i, next.package);
    var all, last := FileItems(decls, ts, st.i, st.package), PackageAfterAll(decls, st.package);
    ItemsInTurn(ts, st, decls, next, first, more, all);
    DeclsMove(ts, st, decls, after);
    DeclsMove(ts, next, decls[1..], after);
    MovedTwice(st, |DeclWords(decls[0])|, first, next.package, next, |FileWords(decls[1..])|, more, last, |FileWords(decls)|, all,
               after);
  }

  lemma {:induction false} DeclsParse(ts: seq<Token>, st: State, decls: seq<Decl>, end: nat, after: State)
    requires DeclsStand(ts, st.i, decls, end) && after == AfterDecls(ts, st, decls)
    ensures SameEnd(ts, st, after)
    decreases |decls|
  {
    if decls == [] {
      assert st.items + [] == st.items;
    } else {
      var next := AfterDecl(ts, st, decls[0]);
      DeclsCut(ts, st.i, decls, end, next.i);
      DeclsStart(ts, next.i, decls[1..], end);
      DeclParses(ts, st, decls[0], next);
      MoreDecls(ts, st, decls, next, after);
      DeclsParse(ts, next, decls[1..], end, after);
      DeclStep(ts, st, next, after);
    }
  }

  const Start := State(0, "", [], [])

  lemma MovedFromStart(n: nat, items: seq<Item>, package: string, after: State)
    requires after == State(n, package, items, [])
    ensures Moved(Start, n, items, package, after)
  {
    assert [] + items == items;
  }

  lemma {:induction false} AfterFirst(ts: seq<Token>, decls: seq<Decl>, items: seq<Item>, after: State)
    requires items == FileItems(decls, ts, 0, "") && after == State(|FileWords(decls)|, PackageAfterAll(decls, ""), items, [])
    ensures after == AfterDecls(ts, Start, decls)
  {
    MovedFromStart(|FileWords(decls)|, items, PackageAfterAll(decls, ""), after);
    DeclsMove(ts, Start, decls, after);
  }

  /** The end of a parse that starts with these declarations, whatever follows. */
  lemma {:induction false} DeclsFirst(ts: seq<Token>, decls: seq<Decl>, after: State)
    requires DeclsStand(ts, 0, decls, |FileWords(decls)|)
    requires after == State(|FileWords(decls)|, PackageAfterAll(decls, ""), FileItems(decls, ts, 0, ""), [])
    ensures SameEnd(ts, Start, after)
  {
    AfterFirst(ts, decls, FileItems(decls, ts, 0, ""), after);
    DeclsParse(ts, Start, decls, |FileWords(decls)|, after);
  }

  /** Whatever the text looks like: once its tokens are those of the declarations,
      they are parsed to the pre-order list of items, and no statement is left over. */
  lemma {:induction false} FileParses(ts: seq<Token>, decls: seq<Decl>)
    requires Stands(ts, 0, FileWords(decls)) && |FileWords(decls)| == |ts| && DeclsOk(decls)
    ensures File(ts, Start) == Parsed(ExpectedFile(decls, ts, 0, ""), [])
  {
    DeclsDeclare(decls);
    var items := FileAsExpected(decls, ts, 0, "");
    DeclsFirst(ts, decls, State(|FileWords(decls)|, PackageAfterAll(decls, ""), FileItems(decls, ts, 0, ""), []));
  }

  /** A closing brace after complete declarations makes the loop of parse turn for
      ever, whatever follows it. */
  lemma {:induction false} StrayBraceHangs(ts: seq<Token>, decls: seq<Decl>)
    requires Stands(ts, 0, FileWords(decls)) && At(ts, |FileWords(decls)|, "}") && DeclsOk(decls)
    ensures !Returns(ts, Start)
  {
    var after := State(|FileWords(decls)|, PackageAfterAll(decls, ""), FileItems(decls, ts, 0, ""), []);
    DeclsFirst(ts, decls, after);
    assert File(ts, after) == NeverReturns;
    ReturnsUnlessStuck(ts, Start);
  }

  /** For every list of declarations in the printed grammar and every layout of its
      words with whitespace and comments, lexing and parsing the text yields the
      pre-order list of items, and no statement is left over. */
  lemma {:induction false} PrintLexParse(u: Unicode, lead: string, decls: seq<Decl>, gaps: seq<string>)
    requires ClosedGap(lead) && Laid(u, FileWords(decls), gaps) && DeclsOk(decls)
    ensures var text := lead + Layout(FileWords(decls), gaps);
      && Scan(u, text, 0, 1).Ok?
      && var ts := TokensOf(Scan(u, text, 0, 1).value);
        File(ts, Start) == Parsed(ExpectedFile(decls, ts, 0, ""), [])
  {
    var words := FileWords(decls);
    var text := lead + Layout(words, gaps);
    LayoutLexes(u, lead, words, gaps);
    var spans := SpansOf(text, |lead|, words, gaps);
    var ts := TokensOf(spans);
    assert Stands(ts, 0, words) && |ts| == |words|;
    FileParses(ts, decls);
  }
}
