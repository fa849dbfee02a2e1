/** Proto declarations as trees, printed as lists of tokens, and the items that a
    reader expects of them. */
module ProtoPrinting {
  import opened Common
  import LogText
  import opened ProtoLexer
  import opened ProtoLayout
  import opened ProtoParser

  /** A field: the type is a list of words, and the tail holds whatever stands
      between the number and the semicolon. */
  datatype Field = Field(fieldLabel: Option<string>, typ: seq<Word>, name: string, number: nat, tail: seq<Word>)

  datatype EnumValue = EnumValue(name: string, number: nat, tail: seq<Word>)

  datatype Member =
    | FieldMember(field: Field)
    | OneofMember(name: string, fields: seq<Field>)
    | MessageMember(name: string, members: seq<Member>)
    | EnumMember(name: string, values: seq<EnumValue>)
    | SkippedMember(words: seq<Word>)

  datatype Decl = PackageDecl(parts: seq<Word>) | PlainDecl(member: Member)

  // ---------------------------------------------------------------------- printing

  function Name(s: string): Word { Word(s, Ident) }
  function Sign(s: string): Word { Word(s, Symbol) }
  function Numeral(n: nat): Word { Word(LogText.Digits(n), Number) }

  function LabelWords(f: Field): seq<Word>
  {
    match f.fieldLabel case None => [] case Some(word) => [Name(word)]
  }

  /** A field statement without its semicolon. */
  function FieldStem(f: Field): seq<Word>
  {
    LabelWords(f) + f.typ + [Name(f.name), Sign("="), Numeral(f.number)] + f.tail
  }

  function FieldWords(f: Field): seq<Word>
  {
    FieldStem(f) + [Sign(";")]
  }

  function FieldsWords(fields: seq<Field>): seq<Word>
  {
    if fields == [] then [] else FieldWords(fields[0]) + FieldsWords(fields[1..])
  }

  function ValueStem(v: EnumValue): seq<Word>
  {
    [Name(v.name), Sign("="), Numeral(v.number)] + v.tail
  }

  function ValueWords(v: EnumValue): seq<Word>
  {
    ValueStem(v) + [Sign(";")]
  }

  function ValuesWords(values: seq<EnumValue>): seq<Word>
  {
    if values == [] then [] else ValueWords(values[0]) + ValuesWords(values[1..])
  }

  function Block(keyword: string, name: string, body: seq<Word>): seq<Word>
  {
    [Name(keyword), Name(name), Sign("{")] + body + [Sign("}")]
  }

  function MemberWords(m: Member): seq<Word>
    decreases m
  {
    match m
    case FieldMember(field) => FieldWords(field)
    case OneofMember(name, fields) => Block("oneof", name, FieldsWords(fields))
    case MessageMember(name, members) => Block("message", name, MembersWords(members))
    case EnumMember(name, values) => Block("enum", name, ValuesWords(values))
    case SkippedMember(words) => words
  }

  function MembersWords(members: seq<Member>): seq<Word>
    decreases members
  {
    if members == [] then [] else MemberWords(members[0]) + MembersWords(members[1..])
  }

  function DeclWords(d: Decl): seq<Word>
  {
    match d
    case PackageDecl(parts) => [Name("package")] + parts + [Sign(";")]
    case PlainDecl(member) => MemberWords(member)
  }

  function FileWords(decls: seq<Decl>): seq<Word>
  {
    if decls == [] then [] else DeclWords(decls[0]) + FileWords(decls[1..])
  }

  // --------------------------------------------------------------- the printed grammar

  /** A statement that ends at its semicolon and not before: brackets are closed. */
  predicate Balanced(words: seq<Word>, d: Depth)
    decreases |words|
  {
    if words == [] then d == Flat
    else
      var v := words[0].value;
      !(v == "}" && d.curly == 0) && !(v == ";" && Deeper(d, v) == Flat) && Balanced(words[1..], Deeper(d, v))
  }

  const MEMBER_KEYWORDS: set<string> :=
    {"message", "enum", "oneof", "option", "reserved", "extensions", "extend", "}", ";"}

  predicate Plain(words: seq<Word>)
  {
    forall i :: 0 <= i < |words| ==> words[i].value != "="
  }

  predicate FieldOk(f: Field)
  {
    && (f.fieldLabel.Some? ==> f.fieldLabel.value in LABELS) && f.typ != [] && Plain(f.typ) && f.name != "="
    && (f.fieldLabel.None? ==> f.typ[0].value !in MEMBER_KEYWORDS && f.typ[0].value !in LABELS)
    && Balanced(FieldStem(f), Flat)
  }

  predicate ValueOk(v: EnumValue)
  {
    v.name !in {"=", "option", "reserved", "}", ";"} && Balanced(ValueStem(v), Flat)
  }

  /** A declaration that is skipped up to its semicolon. */
  predicate Skippable(words: seq<Word>)
  {
    |words| >= 2 && words[|words| - 1] == Sign(";") && Smooth(words[..|words| - 1])
  }

  /** Words without a brace or a semicolon. */
  predicate Smooth(words: seq<Word>)
  {
    words != [] ==> words[0].value !in {"{", "}", ";"} && Smooth(words[1..])
  }

  predicate FieldsOk(fields: seq<Field>)
  {
    fields != [] ==> FieldOk(fields[0]) && FieldsOk(fields[1..])
  }

  predicate ValuesOk(values: seq<EnumValue>)
  {
    values != [] ==> ValueOk(values[0]) && ValuesOk(values[1..])
  }

  predicate MemberOk(m: Member)
    decreases m
  {
    match m
    case FieldMember(field) => FieldOk(field)
    case OneofMember(_, fields) => FieldsOk(fields)
    case MessageMember(_, members) => MembersOk(members)
    case EnumMember(_, values) => ValuesOk(values)
    case SkippedMember(words) => Skippable(words) && words[0].value in SKIPPED_IN_MESSAGE
  }

  predicate MembersOk(members: seq<Member>)
    decreases members
  {
    members != [] ==> MemberOk(members[0]) && MembersOk(members[1..])
  }

  predicate DeclOk(d: Decl)
  {
    match d
    case PackageDecl(parts) => forall i :: 0 <= i < |parts| ==> parts[i].value != ";"
    case PlainDecl(SkippedMember(words)) =>
      Skippable(words) && words[0].value !in {"package", "message", "enum", "service"}
    case PlainDecl(member) => (member.MessageMember? || member.EnumMember?) && MemberOk(member)
  }

  predicate DeclsOk(decls: seq<Decl>)
  {
    decls != [] ==> DeclOk(decls[0]) && DeclsOk(decls[1..])
  }

  // ------------------------------------------------------------- the expected items

  /** These words stand in the token list from position k on. */
  predicate Stands(ts: seq<Token>, k: nat, words: seq<Word>)
  {
    k + |words| <= |ts| && forall j :: 0 <= j < |words| ==> ts[k + j].value == words[j].value && ts[k + j].kind == words[j].kind
  }

  function WordValues(words: seq<Word>): (values: seq<string>)
    ensures |values| == |words|
  {
    seq(|words|, i requires 0 <= i < |words| => words[i].value)
  }

  function LineAt(ts: seq<Token>, k: int): nat
  {
    if 0 <= k < |ts| then ts[k].line else 0
  }

  function FieldItemOf(f: Field, ts: seq<Token>, k: nat, message: string, oneof: Option<string>): Item
  {
    FieldItem(message + "." + f.name, JoinType(WordValues(f.typ)), f.number, f.fieldLabel, oneof,
              LineAt(ts, k), LineAt(ts, k + |FieldWords(f)| - 1))
  }

  function FieldsItems(fields: seq<Field>, ts: seq<Token>, k: nat, message: string, oneof: Option<string>): seq<Item>
  {
    if fields == [] then []
    else [FieldItemOf(fields[0], ts, k, message, oneof)] + FieldsItems(fields[1..], ts, k + |FieldWords(fields[0])|, message, oneof)
  }

  function ValuesItems(values: seq<EnumValue>, ts: seq<Token>, k: nat, full: string): seq<Item>
  {
    if values == [] then []
    else
      [EnumValueItem(full + "." + values[0].name, values[0].number, LineAt(ts, k), LineAt(ts, k + |ValueWords(values[0])| - 1))] +
      ValuesItems(values[1..], ts, k + |ValueWords(values[0])|, full)
  }

  /** The items of a member of the message `full`, whose nested declarations have
      this parent; pre-order, each with the lines of its first and last token. */
  function MemberItems(m: Member, ts: seq<Token>, k: nat, package: string, full: string, parent: string): seq<Item>
    decreases m
  {
    var last := LineAt(ts, k + |MemberWords(m)| - 1);
    match m
    case FieldMember(field) => [FieldItemOf(field, ts, k, full, None)]
    case OneofMember(name, fields) => FieldsItems(fields, ts, k + 3, full, Some(name))
    case MessageMember(name, members) =>
      var symbol := Qualified(package, parent, name);
      [MessageItem(symbol, LineAt(ts, k), last)] + MembersItems(members, ts, k + 3, package, symbol, JoinDots([parent, name]))
    case EnumMember(name, values) =>
      var symbol := Qualified(package, parent, name);
      [EnumItem(symbol, LineAt(ts, k), last)] + ValuesItems(values, ts, k + 3, symbol)
    case SkippedMember(_) => []
  }

  function MembersItems(members: seq<Member>, ts: seq<Token>, k: nat, package: string, full: string, parent: string): seq<Item>
    decreases members
  {
    if members == [] then []
    else
      MemberItems(members[0], ts, k, package, full, parent) +
      MembersItems(members[1..], ts, k + |MemberWords(members[0])|, package, full, parent)
  }

  function DeclItems(d: Decl, ts: seq<Token>, k: nat, package: string): seq<Item>
  {
    match d
    case PackageDecl(_) => []
    case PlainDecl(member) => MemberItems(member, ts, k, package, "", "")
  }

  /** A package declaration changes the package of what follows it. */
  function PackageAfter(d: Decl, package: string): string
  {
    match d
    case PackageDecl(parts) => Flatten(WordValues(parts))
    case PlainDecl(_) => package
  }

  function FileItems(decls: seq<Decl>, ts: seq<Token>, k: nat, package: string): seq<Item>
  {
    if decls == [] then []
    else
      DeclItems(decls[0], ts, k, package) +
      FileItems(decls[1..], ts, k + |DeclWords(decls[0])|, PackageAfter(decls[0], package))
  }
}
