/** Trees printed with two-space indentation, and the agreement of the lexical
    checker with them (scripts/check-workflow-action-policy.py). */
module WorkflowPrinting {
  import opened Common
  import opened LogText
  import opened WorkflowKeys
  import opened WorkflowTrees
  import opened WorkflowDuplicates

  // ---------------------------------------------------------------------- printing

  function QuoteMark(q: Quote): string
  {
    match q
    case Bare => ""
    case Single => "'"
    case Double => "\""
  }

  function KeyText(e: Entry): string
  {
    QuoteMark(e.quote) + e.key + QuoteMark(e.quote)
  }

  function ValueText(node: Node): string
  {
    match node
    case Scalar(text) => " " + text
    case Block(_) => " |"
    case _ => ""
  }

  function KeyRaw(n: nat, item: bool, e: Entry): string
  {
    Spaces(n) + ((if item then "- " else "") + (KeyText(e) + (":" + ValueText(e.value))))
  }

  function PrintBlock(lines: seq<string>, n: nat): seq<string>
  {
    seq(|lines|, i requires 0 <= i < |lines| => Spaces(n + 2) + lines[i])
  }

  function PrintMapping(entries: seq<Entry>, n: nat): seq<string>
    decreases entries
  {
    if entries == [] then []
    else [KeyRaw(n, false, entries[0])] + PrintChild(entries[0].value, n) + PrintMapping(entries[1..], n)
  }

  function PrintChild(node: Node, n: nat): seq<string>
    decreases node
  {
    match node
    case Scalar(_) => []
    case Block(lines) => PrintBlock(lines, n)
    case Mapping(entries) => PrintMapping(entries, n + 2)
    case Sequence(items) => PrintItems(items, n + 2)
  }

  function PrintItems(items: seq<Node>, n: nat): seq<string>
    decreases items
  {
    if items == [] then [] else PrintItem(items[0], n) + PrintItems(items[1..], n)
  }

  function PrintItem(item: Node, n: nat): seq<string>
    decreases item
  {
    match item
    case Mapping(entries) =>
      if entries == [] then [Spaces(n) + "-"]
      else
        [KeyRaw(n, true, entries[0])] + PrintChild(entries[0].value, n + 2) + PrintMapping(entries[1..], n + 2)
    case Sequence(inner) => [Spaces(n) + "-"] + PrintItems(inner, n + 2)
    case Scalar(text) => [Spaces(n) + "- " + text]
    case Block(_) => [Spaces(n) + "- |"]
  }

  // ------------------------------------------------------------------ printable trees

  predicate KeyOk(e: Entry)
  {
    e.key != "" &&
    match e.quote
    case Bare => IdentStart(e.key[0]) && forall i :: 0 <= i < |e.key| ==> IdentChar(e.key[i])
    case Single => '\'' !in e.key
    case Double => '"' !in e.key
  }

  /** A plain value: it is not blank and does not start like a block marker. */
  predicate ValueOk(text: string)
  {
    text != "" && !IsSpace(text[0]) && text[0] != '>' && text[0] != '|'
  }

  /** Keys and values of the printed form; a scalar item has no colon, and a block
      scalar stands only below a key. */
  predicate PrintsWell(entries: seq<Entry>)
  {
    entries != [] ==> KeyOk(entries[0]) && ChildPrintsWell(entries[0].value) && PrintsWell(entries[1..])
  }

  predicate ChildPrintsWell(node: Node)
  {
    match node
    case Scalar(text) => ValueOk(text)
    case Block(_) => true
    case Mapping(entries) => PrintsWell(entries)
    case Sequence(items) => ItemsPrintWell(items)
  }

  predicate ItemsPrintWell(items: seq<Node>)
  {
    items != [] ==> ItemPrintsWell(items[0]) && ItemsPrintWell(items[1..])
  }

  predicate ItemPrintsWell(item: Node)
  {
    match item
    case Scalar(text) => ':' !in text
    case Block(_) => false
    case Mapping(entries) => PrintsWell(entries)
    case Sequence(inner) => ItemsPrintWell(inner)
  }

  // ---------------------------------------------------------------- reading it back

  lemma {:induction false} DropSpaces(n: nat, x: string)
    ensures DropSpace(Spaces(n) + x) == DropSpace(x)
  {
    if n > 0 {
      assert (Spaces(n) + x)[1..] == Spaces(n - 1) + x;
      DropSpaces(n - 1, x);
    } else {
      assert Spaces(0) + x == x;
    }
  }

  lemma {:induction false} IndentIs(n: nat, x: string)
    requires x != "" && x[0] != ' '
    ensures Indent(Spaces(n) + x) == n
  {
    if n > 0 {
      assert (Spaces(n) + x)[1..] == Spaces(n - 1) + x;
      IndentIs(n - 1, x);
    } else {
      assert Spaces(0) + x == x;
    }
  }

  /** Reading a line whose text starts right after the indentation. */
  lemma ReadIndented(n: nat, x: string)
    requires x != "" && !IsSpace(x[0]) && x[0] != '#'
    ensures Read(Spaces(n) + x) ==
      match MatchKey(x)
      case Some((item, key, value)) => Key(n, item, key, KindOf(value))
      case None => if "- " <= x then Dash(n) else Other(n)
  {
    var raw := Spaces(n) + x;
    DropSpaces(n, x);
    assert DropSpace(raw) == x;
    assert raw[..|raw| - |x|] == Spaces(n) && '\t' !in Spaces(n);
    IndentIs(n, x);
    assert raw[n..] == x;
  }

  lemma {:induction false} IdentIs(key: string, rest: string)
    requires forall i :: 0 <= i < |key| ==> IdentChar(key[i])
    requires rest != "" && !IdentChar(rest[0])
    ensures IdentLength(key + rest) == |key|
  {
    if key == "" {
      assert key + rest == rest;
    } else {
      assert (key + rest)[1..] == key[1..] + rest;
      IdentIs(key[1..], rest);
    }
  }

  lemma {:induction false} QuoteIs(key: string, q: char, rest: string)
    requires q !in key
    ensures QuoteAt(key + [q] + rest, q) == |key|
  {
    if key == "" {
      assert (key + [q] + rest)[0] == q;
    } else {
      assert (key + [q] + rest)[1..] == key[1..] + [q] + rest;
      QuoteIs(key[1..], q, rest);
    }
  }

  lemma ColonFollows(value: string)
    ensures AfterColon(":" + value) == Some(value)
  {
    assert (":" + value)[0] == ':' && (":" + value)[1..] == value;
  }

  lemma QuotedKeyRead(key: string, q: char, value: string)
    requires (q == '\'' || q == '"') && key != "" && q !in key
    ensures KeyAt([q] + key + [q] + (":" + value)) == Some((key, value))
  {
    var s := [q] + key + [q] + (":" + value);
    var n := |key|;
    assert s[1..] == key + [q] + (":" + value);
    QuoteIs(key, q, ":" + value);
    assert s[n + 2..] == ":" + value && s[1..n + 1] == key;
    ColonFollows(value);
  }

  lemma BareKeyRead(key: string, value: string)
    requires key != "" && IdentStart(key[0]) && forall i :: 0 <= i < |key| ==> IdentChar(key[i])
    ensures KeyAt(key + (":" + value)) == Some((key, value))
  {
    var s := key + (":" + value);
    IdentIs(key, ":" + value);
    assert s[0] == key[0];
    assert s[|key|..] == ":" + value && s[..|key|] == key;
    ColonFollows(value);
  }

  lemma KeyTextRead(e: Entry, value: string)
    requires KeyOk(e)
    ensures KeyAt(KeyText(e) + (":" + value)) == Some((e.key, value))
    ensures var s := KeyText(e) + (":" + value); s != "" && !IsSpace(s[0]) && s[0] != '#' && s[0] != '-'
  {
    match e.quote
    case Bare =>
      assert KeyText(e) == e.key;
      BareKeyRead(e.key, value);
    case Single =>
      assert KeyText(e) == ['\''] + e.key + ['\''];
      QuotedKeyRead(e.key, '\'', value);
    case Double =>
      assert KeyText(e) == ['"'] + e.key + ['"'];
      QuotedKeyRead(e.key, '"', value);
  }

  lemma {:induction false} EndKeepsFirst(s: string)
    requires s != "" && !IsSpace(s[0])
    ensures DropSpaceEnd(s) != "" && DropSpaceEnd(s)[0] == s[0]
  {
    if IsSpace(s[|s| - 1]) {
      EndKeepsFirst(s[..|s| - 1]);
    }
  }

  lemma ValueRead(node: Node)
    requires node.Scalar? ==> ValueOk(node.text)
    ensures KindOf(ValueText(node)) == ValueOf(node)
  {
    match node
    case Scalar(text) =>
      assert (" " + text)[1..] == text;
      assert DropSpace(" " + text) == text;
      EndKeepsFirst(text);
    case Block(_) =>
      assert " |"[1..] == "|";
      assert DropSpace(" |") == "|" && DropSpaceEnd("|") == "|";
      assert "|"[1..] == "";
    case _ =>
  }

  lemma KeyRawRead(n: nat, item: bool, e: Entry)
    requires KeyOk(e) && ChildPrintsWell(e.value)
    ensures Read(KeyRaw(n, item, e)) == Key(n, item, e.key, ValueOf(e.value))
  {
    var s := KeyText(e) + (":" + ValueText(e.value));
    var x := (if item then "- " else "") + s;
    KeyTextRead(e, ValueText(e.value));
    ValueRead(e.value);
    if item {
      assert x[0] == '-' && x[1] == ' ' && x[1..] == " " + s && (" " + s)[1..] == s;
      assert DropSpace(x[1..]) == s;
    } else {
      assert x == s;
    }
    ReadIndented(n, x);
  }

  lemma KeyHasColon(s: string)
    requires ':' !in s
    ensures KeyAt(s).None?
  {
    if s != "" {
      if s[0] == '\'' || s[0] == '"' {
        var n := QuoteAt(s[1..], s[0]);
        if 0 < n < |s| - 1 { NoColon(s[n + 2..]); }
      } else if IdentStart(s[0]) {
        NoColon(s[IdentLength(s)..]);
      }
    }
  }

  lemma {:induction false} DropSpaceSuffix(s: string, c: char)
    requires c !in s
    ensures c !in DropSpace(s)
  {
    if s != "" && IsSpace(s[0]) {
      DropSpaceSuffix(s[1..], c);
    }
  }

  lemma NoColon(s: string)
    requires ':' !in s
    ensures AfterColon(s).None?
  {
    DropSpaceSuffix(s, ':');
  }

  lemma DashRead(n: nat, text: string)
    requires ':' !in text
    ensures Read(Spaces(n) + "- " + text) == Dash(n)
  {
    var x := "- " + text;
    assert Spaces(n) + "- " + text == Spaces(n) + x;
    assert x[1..] == " " + text;
    DropSpaceSuffix(x[1..], ':');
    KeyHasColon(DropSpace(x[1..]));
    ReadIndented(n, x);
  }

  lemma LoneDashRead(n: nat)
    ensures Read(Spaces(n) + "-") == Other(n)
  {
    ReadIndented(n, "-");
  }

  // ------------------------------------------------------------------ whole trees

  lemma ReadsConcat(a: seq<string>, b: seq<string>)
    ensures Reads(a + b) == Reads(a) + Reads(b)
  {
  }

  lemma ReadsThree(first: string, a: seq<string>, b: seq<string>)
    ensures Reads([first] + a + b) == [Read(first)] + Reads(a) + Reads(b)
    ensures Reads([first] + b) == [Read(first)] + Reads(b)
  {
  }

  lemma {:induction false} MappingReads(entries: seq<Entry>, n: nat)
    requires PrintsWell(entries)
    ensures Reads(PrintMapping(entries, n)) == MappingLines(entries, n)
    decreases entries
  {
    if entries != [] {
      KeyRawRead(n, false, entries[0]);
      ChildReads(entries[0].value, n);
      MappingReads(entries[1..], n);
      ReadsThree(KeyRaw(n, false, entries[0]), PrintChild(entries[0].value, n), PrintMapping(entries[1..], n));
    }
  }

  lemma {:induction false} ChildReads(node: Node, n: nat)
    requires ChildPrintsWell(node)
    ensures Reads(PrintChild(node, n)) == ChildLines(node, n)
    decreases node
  {
    match node
    case Scalar(_) =>
    case Block(lines) =>
    case Mapping(entries) => MappingReads(entries, n + 2);
    case Sequence(items) => ItemsRead(items, n + 2);
  }

  lemma {:induction false} ItemsRead(items: seq<Node>, n: nat)
    requires ItemsPrintWell(items)
    ensures Reads(PrintItems(items, n)) == ItemLines(items, n)
    decreases items
  {
    if items != [] {
      ItemReads(items[0], n);
      ItemsRead(items[1..], n);
      ReadsConcat(PrintItem(items[0], n), PrintItems(items[1..], n));
    }
  }

  lemma {:induction false} ItemReads(item: Node, n: nat)
    requires ItemPrintsWell(item)
    ensures Reads(PrintItem(item, n)) == ItemLine(item, n)
    decreases item
  {
    match item
    case Mapping(entries) =>
      LoneDashRead(n);
      if entries != [] {
        KeyRawRead(n, true, entries[0]);
        ChildReads(entries[0].value, n + 2);
        MappingReads(entries[1..], n + 2);
        ReadsThree(KeyRaw(n, true, entries[0]), PrintChild(entries[0].value, n + 2), PrintMapping(entries[1..], n + 2));
      }
    case Sequence(inner) =>
      LoneDashRead(n);
      ItemsRead(inner, n + 2);
      ReadsThree(Spaces(n) + "-", [], PrintItems(inner, n + 2));
    case Scalar(text) => DashRead(n, text);
  }

  /** Exactly: for every printed tree the identities that the checker meets, and so
      its duplicate reports, tell whether a mapping that it sees repeats a key. */
  lemma {:induction false} CheckerAgreesWithTree(entries: seq<Entry>)
    requires PrintsWell(entries)
    ensures Unique(Run(Start, Reads(PrintMapping(entries, 0))).ids) <==> !SeenRepeat(Mapping(entries))
  {
    MappingReads(entries, 0);
    TreeMet(entries);
    MappingUnique(entries, [], 0, map[]);
  }

  /** So without a sequence item that opens with a block scalar the checker is
      exact, and with one it still never reports a key that is not repeated. */
  lemma {:induction false} CheckerIsExact(entries: seq<Entry>)
    requires PrintsWell(entries)
    ensures !Unique(Run(Start, Reads(PrintMapping(entries, 0))).ids) ==> HasRepeat(Mapping(entries))
    ensures !Hides(Mapping(entries)) ==>
      (!Unique(Run(Start, Reads(PrintMapping(entries, 0))).ids) <==> HasRepeat(Mapping(entries)))
  {
    CheckerAgreesWithTree(entries);
    SeenIsReal(Mapping(entries));
  }

  // ----------------------------------------------------------------- the root keys

  function Keys(entries: seq<Entry>): seq<string>
  {
    seq(|entries|, i requires 0 <= i < |entries| => entries[i].key)
  }

  lemma {:induction false} DeeperKeepsRoots(s: State, lines: seq<Line>)
    requires Deeper(lines, 0)
    ensures Run(s, lines).roots == s.roots
  {
    if lines != [] {
      DeeperKeepsRoots(s, lines[..|lines| - 1]);
    }
  }

  /** An entry of the root adds its key and nothing else. */
  lemma EntryRoots(s: State, e: Entry)
    requires Ready(s, 0, [])
    ensures var u := Run(Step(s, Key(0, false, e.key, ValueOf(e.value))), ChildLines(e.value, 0));
      Ready(u, 0, []) && u.roots == s.roots + [e.key]
  {
    var t := Step(s, Key(0, false, e.key, ValueOf(e.value)));
    KeyStep(s, 0, e.key, ValueOf(e.value), []);
    EntryMet(t, e.value, e.key, 0, []);
    match e.value {
      case Scalar(_) =>
      case Block(lines) => BlockLinesAreDeeper(lines, 0);
      case Mapping(inner) => MappingIsDeeper(inner, 2, 0);
      case Sequence(items) => ItemsAreDeeper(items, 2, 0);
    }
    DeeperKeepsRoots(t, ChildLines(e.value, 0));
  }

  lemma {:induction false} RootsMet(s: State, entries: seq<Entry>)
    requires Ready(s, 0, [])
    ensures Run(s, MappingLines(entries, 0)).roots == s.roots + Keys(entries)
    decreases entries
  {
    if entries != [] {
      var e := entries[0];
      var u := Run(Step(s, Key(0, false, e.key, ValueOf(e.value))), ChildLines(e.value, 0));
      EntryRoots(s, e);
      RootsMet(u, entries[1..]);
      MappingRun(s, entries, 0);
      assert Keys(entries) == [e.key] + Keys(entries[1..]);
    }
  }

  /** The whole verdict on a printed tree: it passes exactly when no line is
      indented with a tab, no mapping that is seen repeats a key, and the root has
      each required key once. */
  method CheckPrinted(entries: seq<Entry>) returns (failures: seq<Failure>)
    requires PrintsWell(entries)
    ensures HasDuplicates(failures) <==> SeenRepeat(Mapping(entries))
    ensures failures == [] <==>
      && !TabsIn(Reads(PrintMapping(entries, 0))) && !SeenRepeat(Mapping(entries))
      && (forall key :: key in REQUIRED_ROOT_KEYS ==> Times(Keys(entries), key) == 1)
  {
    CheckerAgreesWithTree(entries);
    MappingReads(entries, 0);
    RootsMet(Start, entries);
    assert [] + Keys(entries) == Keys(entries);
    failures := StructureFailures(PrintMapping(entries, 0));
  }

  const HIDDEN_STEP := Mapping([
    Entry("run", Bare, Block(["echo"])), Entry("name", Bare, Scalar("one")), Entry("name", Bare, Scalar("two"))])

  lemma {:induction false} OneItem(item: Node)
    ensures SeenAmong([item]) <==> !HidesKeys(item) && SeenRepeat(item)
    ensures ItemHasRepeat([item]) <==> HasRepeat(item)
  {
    assert [item][1..] == [] && !SeenAmong([]) && !ItemHasRepeat([]);
  }

  lemma OneEntry(e: Entry)
    ensures SeenBelow([e]) <==> SeenRepeat(e.value)
    ensures EntryHasRepeat([e]) <==> HasRepeat(e.value)
  {
    assert [e][1..] == [] && !SeenBelow([]) && !EntryHasRepeat([]);
  }

  lemma {:induction false} EntriesPrintWell(e: Entry, rest: seq<Entry>)
    requires KeyOk(e) && ChildPrintsWell(e.value) && PrintsWell(rest)
    ensures PrintsWell([e] + rest)
  {
    assert ([e] + rest)[1..] == rest;
  }

  lemma HiddenStepPrints()
    ensures PrintsWell([Entry("steps", Bare, Sequence([HIDDEN_STEP]))])
  {
    var one, two, three := HIDDEN_STEP.entries[0], HIDDEN_STEP.entries[1], HIDDEN_STEP.entries[2];
    var steps := Entry("steps", Bare, Sequence([HIDDEN_STEP]));
    assert KeyOk(one) && KeyOk(two) && KeyOk(three) && KeyOk(steps);
    assert "one"[0] == 'o' && "two"[0] == 't' && !IsSpace('o') && !IsSpace('t');
    EntriesPrintWell(three, []);
    EntriesPrintWell(two, [three]);
    EntriesPrintWell(one, [two, three]);
    assert [three] + [] == [three] && [two] + [three] == [two, three];
    assert HIDDEN_STEP.entries == [one] + [two, three];
    assert ItemPrintsWell(HIDDEN_STEP) && [HIDDEN_STEP][1..] == [];
    assert ItemsPrintWell([HIDDEN_STEP]);
    EntriesPrintWell(steps, []);
    assert [steps] + [] == [steps];
  }

  /** The property as it stands is false: in a step that opens with a block scalar
      a repeated key goes unreported. */
  lemma HiddenDuplicateIsMissed()
    ensures var entries := [Entry("steps", Bare, Sequence([HIDDEN_STEP]))];
      && PrintsWell(entries) && HasRepeat(Mapping(entries))
      && Unique(Run(Start, Reads(PrintMapping(entries, 0))).ids)
  {
    var e := Entry("steps", Bare, Sequence([HIDDEN_STEP]));
    HiddenStepPrints();
    assert HIDDEN_STEP.entries[1].key == HIDDEN_STEP.entries[2].key && HasRepeat(HIDDEN_STEP);
    assert HidesKeys(HIDDEN_STEP);
    OneItem(HIDDEN_STEP);
    OneEntry(e);
    assert !Repeats([e]);
    CheckerAgreesWithTree([e]);
  }
}
