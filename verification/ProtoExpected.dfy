/** The items that a reader of a Proto file expects, stated without the parser:
    symbols as dotted paths of the enclosing names, types as their own text
    (scripts/generate-api-rtapi-denominator.py). */
module ProtoExpected {
  import opened Common
  import LogText
  import opened ProtoLexer
  import opened ProtoLayout
  import opened ProtoParser
  import opened ProtoPrinting

  // --------------------------------------------------------------------- symbols

  /** The names with a dot between each two of them. */
  function Dotted(names: seq<string>): string
  {
    if names == [] then ""
    else if |names| == 1 then names[0]
    else Dotted(names[..|names| - 1]) + "." + names[|names| - 1]
  }

  function NonEmpty(names: seq<string>): (r: seq<string>)
    ensures forall i :: 0 <= i < |r| ==> r[i] != ""
  {
    if names == [] then []
    else NonEmpty(names[..|names| - 1]) + (if names[|names| - 1] == "" then [] else [names[|names| - 1]])
  }

  /** The symbol of a declaration: its package and the names on the way to it. */
  function Symbol(package: string, path: seq<string>): string
  {
    Dotted(NonEmpty([package] + path))
  }

  /** The text of these words, one directly after the other. */
  function Text(words: seq<Word>): string
  {
    if words == [] then "" else words[0].value + Text(words[1..])
  }

  // ----------------------------------------------------------------------- types

  const TIGHT_BEFORE: set<string> := {".", ">", ",", "<"}
  const TIGHT_AFTER: set<char> := {'.', '<', ','}

  /** The text of the last word that has one. */
  function LastText(words: seq<Word>): string
  {
    if words == [] then ""
    else if words[|words| - 1].value != "" then words[|words| - 1].value
    else LastText(words[..|words| - 1])
  }

  predicate EndsTight(text: string)
  {
    text == "" || text[|text| - 1] in TIGHT_AFTER
  }

  /** The text of a type: its words in order, with one blank between two of them
      unless a dot, a comma or an angle bracket keeps them together. */
  function TypeText(words: seq<Word>): string
  {
    if words == [] then ""
    else
      var before, last := words[..|words| - 1], words[|words| - 1].value;
      TypeText(before) + (if last in TIGHT_BEFORE || EndsTight(LastText(before)) then "" else " ") + last
  }

  lemma {:induction false} LastLetter(words: seq<Word>)
    ensures TypeText(words) == "" <==> LastText(words) == ""
    ensures EndsTight(TypeText(words)) <==> EndsTight(LastText(words))
  {
    if words != [] {
      LastLetter(words[..|words| - 1]);
    }
  }

  lemma JoinOneMore(parts: seq<string>, part: string, text: string)
    requires JoinType(parts) == text
    ensures JoinType(parts + [part]) == text + (if part in TIGHT_BEFORE || EndsTight(text) then "" else " ") + part
  {
    assert (parts + [part])[..|parts|] == parts;
  }

  lemma {:induction false} TypeIsText(words: seq<Word>)
    ensures JoinType(WordValues(words)) == TypeText(words)
  {
    if words != [] {
      var before, last := words[..|words| - 1], words[|words| - 1].value;
      TypeIsText(before);
      LastLetter(before);
      JoinOneMore(WordValues(before), last, TypeText(before));
      assert WordValues(words) == WordValues(before) + [last];
    }
  }

  /** The types that Proto has: a dotted name, or a map. */
  datatype ProtoType = NamedType(path: seq<string>) | MapType(key: string, value: seq<string>)

  function PathWords(path: seq<string>): seq<Word>
  {
    if path == [] then []
    else if |path| == 1 then [Name(path[0])]
    else PathWords(path[..|path| - 1]) + [Sign("."), Name(path[|path| - 1])]
  }

  function TypeWords(t: ProtoType): seq<Word>
  {
    match t
    case NamedType(path) => PathWords(path)
    case MapType(key, value) => [Name("map"), Sign("<"), Name(key), Sign(",")] + PathWords(value) + [Sign(">")]
  }

  function TypeName(t: ProtoType): string
  {
    match t
    case NamedType(path) => Dotted(path)
    case MapType(key, value) => "map<" + key + "," + Dotted(value) + ">"
  }

  /** A word of letters and the like. */
  predicate Identifier(s: string)
  {
    s != "" && s !in TIGHT_BEFORE && s[|s| - 1] !in TIGHT_AFTER
  }

  predicate Identifiers(path: seq<string>)
  {
    path != [] && forall i :: 0 <= i < |path| ==> Identifier(path[i])
  }

  predicate TypeOk(t: ProtoType)
  {
    match t
    case NamedType(path) => Identifiers(path)
    case MapType(key, value) => Identifier(key) && Identifiers(value)
  }

  lemma TypeOneMore(words: seq<Word>, last: Word)
    ensures TypeText(words + [last]) ==
      TypeText(words) + (if last.value in TIGHT_BEFORE || EndsTight(LastText(words)) then "" else " ") + last.value
    ensures LastText(words + [last]) == if last.value != "" then last.value else LastText(words)
  {
    assert (words + [last])[..|words|] == words;
  }

  /** These words have this text and this last word. */
  predicate Reads(words: seq<Word>, text: string, last: string)
  {
    TypeText(words) == text && LastText(words) == last
  }

  lemma {:induction false} ReadTight(words: seq<Word>, text: string, last: string, next: Word, longer: string)
    requires Reads(words, text, last) && next.value != "" && (next.value in TIGHT_BEFORE || EndsTight(last))
    requires longer == text + next.value
    ensures Reads(words + [next], longer, next.value)
  {
    TypeOneMore(words, next);
    assert text + "" == text;
  }

  lemma {:induction false} PathStep(words: seq<Word>, path: seq<string>, before: seq<string>, all: seq<Word>)
    requires |path| > 1 && before == path[..|path| - 1] && all == words + PathWords(before)
    ensures words + PathWords(path) == all + [Sign(".")] + [Name(path[|path| - 1])]
  {
    assert PathWords(path) == PathWords(before) + [Sign("."), Name(path[|path| - 1])];
  }

  lemma {:induction false} DottedStep(text: string, path: seq<string>, before: seq<string>)
    requires |path| > 1 && before == path[..|path| - 1]
    ensures text + Dotted(path) == text + Dotted(before) + "." + path[|path| - 1]
  {
    var d := Dotted(before);
    assert Dotted(path) == d + "." + path[|path| - 1];
    assert text + (d + "." + path[|path| - 1]) == text + d + "." + path[|path| - 1];
  }

  /** A dotted name after words that end tight adds exactly its own text. */
  lemma {:induction false} PathText(words: seq<Word>, text: string, last: string, path: seq<string>)
    requires Identifiers(path) && Reads(words, text, last) && EndsTight(last)
    ensures Reads(words + PathWords(path), text + Dotted(path), path[|path| - 1])
  {
    var name := path[|path| - 1];
    if |path| == 1 {
      ReadTight(words, text, last, Name(name), text + name);
    } else {
      var before := path[..|path| - 1];
      PathText(words, text, last, before);
      var all, sofar := words + PathWords(before), text + Dotted(before);
      ReadTight(all, sofar, before[|before| - 1], Sign("."), sofar + ".");
      ReadTight(all + [Sign(".")], sofar + ".", ".", Name(name), sofar + "." + name);
      PathStep(words, path, before, all);
      DottedStep(text, path, before);
    }
  }

  lemma {:induction false} MapText(key: string, words: seq<Word>)
    requires Identifier(key) && words == [Name("map"), Sign("<"), Name(key), Sign(",")]
    ensures Reads(words, "map<" + key + ",", ",")
  {
    var one, two, three := [Name("map")], [Name("map"), Sign("<")], [Name("map"), Sign("<"), Name(key)];
    assert [] + [Name("map")] == one && one + [Sign("<")] == two && two + [Name(key)] == three && three + [Sign(",")] == words;
    ReadTight([], "", "", Name("map"), "map");
    ReadTight(one, "map", "map", Sign("<"), "map<");
    ReadTight(two, "map<", "<", Name(key), "map<" + key);
    ReadTight(three, "map<" + key, key, Sign(","), "map<" + key + ",");
  }

  /** A field type is read as the name or the map that was written. */
  lemma {:induction false} TypeComesBack(t: ProtoType)
    requires TypeOk(t)
    ensures JoinType(WordValues(TypeWords(t))) == TypeName(t)
  {
    var words := TypeWords(t);
    TypeIsText(words);
    if t.NamedType? {
      PathText([], "", "", t.path);
      assert [] + PathWords(t.path) == words && "" + Dotted(t.path) == Dotted(t.path);
    } else {
      var head, text := [Name("map"), Sign("<"), Name(t.key), Sign(",")], "map<" + t.key + ",";
      MapText(t.key, head);
      PathText(head, text, ",", t.value);
      ReadTight(head + PathWords(t.value), text + Dotted(t.value), t.value[|t.value| - 1], Sign(">"), TypeName(t));
    }
  }

  // ----------------------------------------------------------------------- items

  function ExpectedField(f: Field, ts: seq<Token>, k: nat, message: string, oneof: Option<string>): Item
  {
    FieldItem(message + "." + f.name, TypeText(f.typ), f.number, f.fieldLabel, oneof,
              LineAt(ts, k), LineAt(ts, k + |FieldWords(f)| - 1))
  }

  function ExpectedFields(fields: seq<Field>, ts: seq<Token>, k: nat, message: string, oneof: Option<string>): seq<Item>
  {
    if fields == [] then []
    else
      [ExpectedField(fields[0], ts, k, message, oneof)] +
      ExpectedFields(fields[1..], ts, k + |FieldWords(fields[0])|, message, oneof)
  }

  function ExpectedValues(values: seq<EnumValue>, ts: seq<Token>, k: nat, symbol: string): seq<Item>
  {
    if values == [] then []
    else
      [EnumValueItem(symbol + "." + values[0].name, values[0].number, LineAt(ts, k), LineAt(ts, k + |ValueWords(values[0])| - 1))] +
      ExpectedValues(values[1..], ts, k + |ValueWords(values[0])|, symbol)
  }

  /** The items of a member inside these messages, pre-order, each with the lines of
      its first and its last token. */
  function ExpectedMember(m: Member, ts: seq<Token>, k: nat, package: string, path: seq<string>): seq<Item>
    decreases m
  {
    var first, last := LineAt(ts, k), LineAt(ts, k + |MemberWords(m)| - 1);
    match m
    case FieldMember(field) => [ExpectedField(field, ts, k, Symbol(package, path), None)]
    case OneofMember(name, fields) => ExpectedFields(fields, ts, k + 3, Symbol(package, path), Some(name))
    case MessageMember(name, members) =>
      [MessageItem(Symbol(package, path + [name]), first, last)] + ExpectedMembers(members, ts, k + 3, package, path + [name])
    case EnumMember(name, values) =>
      [EnumItem(Symbol(package, path + [name]), first, last)] + ExpectedValues(values, ts, k + 3, Symbol(package, path + [name]))
    case SkippedMember(_) => []
  }

  function ExpectedMembers(members: seq<Member>, ts: seq<Token>, k: nat, package: string, path: seq<string>): seq<Item>
    decreases members
  {
    if members == [] then []
    else
      ExpectedMember(members[0], ts, k, package, path) +
      ExpectedMembers(members[1..], ts, k + |MemberWords(members[0])|, package, path)
  }

  function ExpectedDecl(d: Decl, ts: seq<Token>, k: nat, package: string): seq<Item>
  {
    match d
    case PackageDecl(_) => []
    case PlainDecl(member) => ExpectedMember(member, ts, k, package, [])
  }

  /** A package declaration names the package of what follows it. */
  function ExpectedPackage(d: Decl, package: string): string
  {
    if d.PackageDecl? then Text(d.parts) else package
  }

  /** The items of a file whose text stands from token k on, in this package until
      another one is declared. */
  function ExpectedFile(decls: seq<Decl>, ts: seq<Token>, k: nat, package: string): seq<Item>
  {
    if decls == [] then []
    else
      ExpectedDecl(decls[0], ts, k, package) +
      ExpectedFile(decls[1..], ts, k + |DeclWords(decls[0])|,
                   ExpectedPackage(decls[0], package))
  }

  // ------------------------------------------------- what the parser's functions join

  function Glue(a: string, b: string): string
  {
    if a == "" then b else if b == "" then a else a + "." + b
  }

  lemma GlueInTurn(a: string, b: string, c: string)
    ensures Glue(Glue(a, b), c) == Glue(a, Glue(b, c))
  {
  }

  lemma {:induction false} JoinGlues(a: seq<string>, b: seq<string>)
    ensures JoinDots(a + b) == Glue(JoinDots(a), JoinDots(b))
    decreases |a|
  {
    if a == [] {
      assert a + b == b;
    } else {
      JoinGlues(a[1..], b);
      assert (a + b)[1..] == a[1..] + b;
      GlueInTurn(a[0], JoinDots(a[1..]), JoinDots(b));
    }
  }

  lemma JoinOne(s: string)
    ensures JoinDots([s]) == s
  {
    assert [s][1..] == [];
  }

  lemma {:induction false} DottedLast(names: seq<string>, last: string)
    requires last != "" && (Dotted(names) == "" <==> names == [])
    ensures Dotted(names + [last]) == Glue(Dotted(names), last) && Dotted(names + [last]) != ""
  {
    assert (names + [last])[..|names|] == names;
  }

  lemma {:induction false} JoinIsDotted(names: seq<string>)
    ensures JoinDots(names) == Dotted(NonEmpty(names))
    ensures Dotted(NonEmpty(names)) == "" <==> NonEmpty(names) == []
  {
    if names != [] {
      var before, last := names[..|names| - 1], names[|names| - 1];
      JoinIsDotted(before);
      JoinGlues(before, [last]);
      JoinOne(last);
      assert names == before + [last];
      var kept := NonEmpty(before);
      if last != "" {
        DottedLast(kept, last);
      } else {
        assert kept + [] == kept;
      }
    }
  }

  lemma {:induction false} ParentGrows(path: seq<string>, name: string)
    ensures JoinDots([JoinDots(path), name]) == JoinDots(path + [name])
  {
    JoinGlues(path, [name]);
    JoinGlues([JoinDots(path)], [name]);
    JoinOne(JoinDots(path));
    assert [JoinDots(path), name] == [JoinDots(path)] + [name];
  }

  lemma {:induction false} QualifiedIsSymbol(package: string, path: seq<string>, name: string)
    ensures Qualified(package, JoinDots(path), name) == Symbol(package, path + [name])
  {
    JoinIsDotted([package] + (path + [name]));
    JoinGlues([package], path + [name]);
    ParentGrows(path, name);
    JoinGlues([package], [JoinDots(path), name]);
    assert [package, JoinDots(path), name] == [package] + [JoinDots(path), name];
  }

  lemma FlattenLast(parts: seq<string>, last: string)
    ensures Flatten(parts + [last]) == Flatten(parts) + last
  {
    assert (parts + [last])[..|parts|] == parts;
  }

  lemma ThreeTexts(a: string, b: string, c: string)
    ensures (a + b) + c == a + (b + c)
  {
  }

  lemma {:induction false} FlattenOneMore(parts: seq<string>, rest: seq<string>)
    ensures Flatten(parts + rest) == Flatten(parts) + Flatten(rest)
    decreases |rest|
  {
    if rest == [] {
      assert parts + rest == parts;
    } else {
      var before, last := rest[..|rest| - 1], rest[|rest| - 1];
      FlattenOneMore(parts, before);
      assert parts + rest == (parts + before) + [last];
      FlattenLast(parts + before, last);
      ThreeTexts(Flatten(parts), Flatten(before), last);
    }
  }

  lemma {:induction false} FlattenIsText(words: seq<Word>)
    ensures Flatten(WordValues(words)) == Text(words)
  {
    if words != [] {
      FlattenIsText(words[1..]);
      FlattenOneMore([words[0].value], WordValues(words[1..]));
      assert WordValues(words) == [words[0].value] + WordValues(words[1..]);
      assert [words[0].value][..0] == [];
      assert Flatten([words[0].value]) == words[0].value;
    }
  }

  // ------------------------------------------- the parser's items are the expected ones

  predicate FieldItemIs(f: Field, ts: seq<Token>, k: nat, message: string, oneof: Option<string>, item: Item)
  {
    FieldItemOf(f, ts, k, message, oneof) == item && ExpectedField(f, ts, k, message, oneof) == item
  }

  lemma {:induction false} FieldAsExpected(f: Field, ts: seq<Token>, k: nat, message: string, oneof: Option<string>)
    ensures FieldItemIs(f, ts, k, message, oneof, ExpectedField(f, ts, k, message, oneof))
  {
    TypeIsText(f.typ);
  }

  predicate FieldsItemsAre(fields: seq<Field>, ts: seq<Token>, k: nat, message: string, oneof: Option<string>, items: seq<Item>)
  {
    FieldsItems(fields, ts, k, message, oneof) == items && ExpectedFields(fields, ts, k, message, oneof) == items
  }

  lemma {:induction false} OneMoreField(fields: seq<Field>, ts: seq<Token>, k: nat, message: string, oneof: Option<string>,
                                        rest: nat, item: Item, more: seq<Item>)
    requires fields != [] && rest == k + |FieldWords(fields[0])|
    requires FieldItemIs(fields[0], ts, k, message, oneof, item) && FieldsItemsAre(fields[1..], ts, rest, message, oneof, more)
    ensures FieldsItemsAre(fields, ts, k, message, oneof, [item] + more)
  {
  }

  lemma {:induction false} FieldsAsExpected(fields: seq<Field>, ts: seq<Token>, k: nat, message: string, oneof: Option<string>)
    returns (items: seq<Item>)
    ensures FieldsItemsAre(fields, ts, k, message, oneof, items)
  {
    if fields == [] {
      items := [];
    } else {
      var rest, first := k + |FieldWords(fields[0])|, ExpectedField(fields[0], ts, k, message, oneof);
      FieldAsExpected(fields[0], ts, k, message, oneof);
      var more := FieldsAsExpected(fields[1..], ts, rest, message, oneof);
      OneMoreField(fields, ts, k, message, oneof, rest, first, more);
      items := [first] + more;
    }
  }

  lemma {:induction false} ValuesAsExpected(values: seq<EnumValue>, ts: seq<Token>, k: nat, symbol: string)
    ensures ValuesItems(values, ts, k, symbol) == ExpectedValues(values, ts, k, symbol)
  {
    if values != [] {
      ValuesAsExpected(values[1..], ts, k + |ValueWords(values[0])|, symbol);
    }
  }

  lemma {:induction false} MemberAsExpected(m: Member, ts: seq<Token>, k: nat, package: string, path: seq<string>, full: string,
                                            parent: string)
    requires parent == JoinDots(path) && (m.FieldMember? || m.OneofMember? ==> full == Symbol(package, path))
    ensures MemberItems(m, ts, k, package, full, parent) == ExpectedMember(m, ts, k, package, path)
    decreases m
  {
    match m
    case FieldMember(field) => FieldAsExpected(field, ts, k, full, None);
    case OneofMember(name, fields) => var items := FieldsAsExpected(fields, ts, k + 3, full, Some(name));
    case MessageMember(name, members) =>
      QualifiedIsSymbol(package, path, name);
      ParentGrows(path, name);
      MembersAsExpected(members, ts, k + 3, package, path + [name]);
    case EnumMember(name, values) =>
      QualifiedIsSymbol(package, path, name);
      ValuesAsExpected(values, ts, k + 3, Symbol(package, path + [name]));
    case SkippedMember(_) =>
  }

  lemma {:induction false} MembersAsExpected(members: seq<Member>, ts: seq<Token>, k: nat, package: string, path: seq<string>)
    ensures MembersItems(members, ts, k, package, Symbol(package, path), JoinDots(path)) ==
      ExpectedMembers(members, ts, k, package, path)
    decreases members
  {
    if members != [] {
      MemberAsExpected(members[0], ts, k, package, path, Symbol(package, path), JoinDots(path));
      MembersAsExpected(members[1..], ts, k + |MemberWords(members[0])|, package, path);
    }
  }

  /** A declaration of a file is a package, a message, an enum or skipped. */
  predicate Declares(d: Decl)
  {
    d.PlainDecl? ==> d.member.MessageMember? || d.member.EnumMember? || d.member.SkippedMember?
  }

  predicate AllDeclare(decls: seq<Decl>)
  {
    forall i :: 0 <= i < |decls| ==> Declares(decls[i])
  }

  lemma {:induction false} DeclsDeclare(decls: seq<Decl>)
    requires DeclsOk(decls)
    ensures AllDeclare(decls)
  {
    if decls != [] {
      DeclsDeclare(decls[1..]);
    }
  }

  /** The items of the declaration for the parser's functions and as expected. */
  predicate DeclItemsAre(d: Decl, ts: seq<Token>, k: nat, package: string, next: string, items: seq<Item>)
  {
    && DeclItems(d, ts, k, package) == items && ExpectedDecl(d, ts, k, package) == items
    && PackageAfter(d, package) == next && ExpectedPackage(d, package) == next
  }

  predicate FileItemsAre(decls: seq<Decl>, ts: seq<Token>, k: nat, package: string, items: seq<Item>)
  {
    FileItems(decls, ts, k, package) == items && ExpectedFile(decls, ts, k, package) == items
  }

  lemma {:induction false} DeclAsExpected(d: Decl, ts: seq<Token>, k: nat, package: string) returns (items: seq<Item>, next: string)
    requires Declares(d)
    ensures DeclItemsAre(d, ts, k, package, next, items)
  {
    if d.PackageDecl? {
      FlattenIsText(d.parts);
      items, next := [], Text(d.parts);
    } else {
      assert JoinDots([]) == "";
      MemberAsExpected(d.member, ts, k, package, [], "", "");
      items, next := ExpectedMember(d.member, ts, k, package, []), package;
    }
  }

  lemma {:induction false} FileItemsUnfold(decls: seq<Decl>, ts: seq<Token>, k: nat, package: string)
    requires decls != []
    ensures FileItems(decls, ts, k, package) ==
      DeclItems(decls[0], ts, k, package) +
      FileItems(decls[1..], ts, k + |DeclWords(decls[0])|, PackageAfter(decls[0], package))
  {
  }

  lemma {:induction false} ExpectedFileUnfold(decls: seq<Decl>, ts: seq<Token>, k: nat, package: string)
    requires decls != []
    ensures ExpectedFile(decls, ts, k, package) ==
      ExpectedDecl(decls[0], ts, k, package) +
      ExpectedFile(decls[1..], ts, k + |DeclWords(decls[0])|, ExpectedPackage(decls[0], package))
  {
  }

  lemma {:induction false} FirstItems(decls: seq<Decl>, ts: seq<Token>, k: nat, package: string, rest: nat, next: string,
                                      items: seq<Item>, more: seq<Item>)
    requires decls != [] && rest == k + |DeclWords(decls[0])| && PackageAfter(decls[0], package) == next
    requires DeclItems(decls[0], ts, k, package) == items && FileItems(decls[1..], ts, rest, next) == more
    ensures FileItems(decls, ts, k, package) == items + more
  {
    FileItemsUnfold(decls, ts, k, package);
  }

  lemma {:induction false} FirstExpected(decls: seq<Decl>, ts: seq<Token>, k: nat, package: string, rest: nat, next: string,
                                         items: seq<Item>, more: seq<Item>)
    requires decls != [] && rest == k + |DeclWords(decls[0])|
    requires ExpectedPackage(decls[0], package) == next
    requires ExpectedDecl(decls[0], ts, k, package) == items && ExpectedFile(decls[1..], ts, rest, next) == more
    ensures ExpectedFile(decls, ts, k, package) == items + more
  {
    ExpectedFileUnfold(decls, ts, k, package);
  }

  lemma {:induction false} OneMoreDecl(decls: seq<Decl>, ts: seq<Token>, k: nat, package: string, rest: nat, next: string,
                                       items: seq<Item>, more: seq<Item>)
    requires decls != [] && rest == k + |DeclWords(decls[0])|
    requires DeclItemsAre(decls[0], ts, k, package, next, items) && FileItemsAre(decls[1..], ts, rest, next, more)
    ensures FileItemsAre(decls, ts, k, package, items + more)
  {
    FirstItems(decls, ts, k, package, rest, next, items, more);
    FirstExpected(decls, ts, k, package, rest, next, items, more);
  }

  lemma {:induction false} FileAsExpected(decls: seq<Decl>, ts: seq<Token>, k: nat, package: string) returns (items: seq<Item>)
    requires AllDeclare(decls)
    ensures FileItemsAre(decls, ts, k, package, items)
  {
    if decls == [] {
      items := [];
    } else {
      var rest := k + |DeclWords(decls[0])|;
      var first, next := DeclAsExpected(decls[0], ts, k, package);
      var more := FileAsExpected(decls[1..], ts, rest, next);
      OneMoreDecl(decls, ts, k, package, rest, next, first, more);
      items := first + more;
    }
  }
}
