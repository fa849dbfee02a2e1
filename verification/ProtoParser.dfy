/** The hand-written Proto parser (ProtoParser in
    scripts/generate-api-rtapi-denominator.py), without services.

    The functions say what each parsing method consumes and produces; the methods
    of the class are proved to do exactly that. */
module ProtoParser {
  import opened Common
  import opened ProtoLexer

  datatype Item =
    | MessageItem(symbol: string, start: nat, end: nat)
    | EnumItem(symbol: string, start: nat, end: nat)
    | EnumValueItem(symbol: string, number: int, start: nat, end: nat)
    | FieldItem(symbol: string, fieldType: string, number: int, fieldLabel: Option<string>, oneof: Option<string>,
                start: nat, end: nat)

  /** A statement that is left for a human to classify. */
  datatype Manual = Manual(kind: string, symbol: string, start: nat, end: nat, values: seq<string>)

  datatype State = State(i: nat, package: string, items: seq<Item>, manual: seq<Manual>)

  // ------------------------------------------------------------------ small helpers

  function JoinDots(parts: seq<string>): string
  {
    if parts == [] then ""
    else if parts[0] == "" then JoinDots(parts[1..])
    else
      var rest := JoinDots(parts[1..]);
      if rest == "" then parts[0] else parts[0] + "." + rest
  }

  /** qualified: package, parent and name, without the empty ones. */
  function Qualified(package: string, parent: string, name: string): string
  {
    JoinDots([package, parent, name])
  }

  function Values(tokens: seq<Token>): (values: seq<string>)
    ensures |values| == |tokens|
  {
    seq(|tokens|, k requires 0 <= k < |tokens| => tokens[k].value)
  }

  /** The position of the first such value; the length if there is none. */
  function IndexOf(values: seq<string>, v: string): (k: nat)
    ensures k <= |values| && (k < |values| ==> values[k] == v) && forall j :: 0 <= j < k ==> values[j] != v
  {
    if values == [] || values[0] == v then 0 else 1 + IndexOf(values[1..], v)
  }

  /** join_type. */
  function JoinType(parts: seq<string>): string
  {
    if parts == [] then ""
    else
      var before, part := JoinType(parts[..|parts| - 1]), parts[|parts| - 1];
      if part in {".", ">", ",", "<"} || before == "" || before[|before| - 1] in {'.', '<', ','} then before + part
      else before + " " + part
  }

  predicate Digital(s: string, base: nat)
  {
    s != "" && forall k :: 0 <= k < |s| ==> DigitValue(s[k]) < base
  }

  function DigitValue(c: char): nat
  {
    if '0' <= c <= '9' then c as int - 48
    else if 'a' <= c <= 'f' then c as int - 87
    else if 'A' <= c <= 'F' then c as int - 55
    else 99
  }

  function NumberOf(s: string, base: nat): nat
  {
    if s == "" then 0 else NumberOf(s[..|s| - 1], base) * base + DigitValue(s[|s| - 1])
  }

  /** int(s, 0) for what the lexer calls a number, in ASCII. */
  function ParseInt(s: string): Option<int>
  {
    if |s| > 2 && s[0] == '0' && s[1] in {'x', 'X'} then
      if Digital(s[2..], 16) then Some(NumberOf(s[2..], 16)) else None
    else if |s| > 2 && s[0] == '0' && s[1] in {'o', 'O'} then
      if Digital(s[2..], 8) then Some(NumberOf(s[2..], 8)) else None
    else if |s| > 2 && s[0] == '0' && s[1] in {'b', 'B'} then
      if Digital(s[2..], 2) then Some(NumberOf(s[2..], 2)) else None
    else if Digital(s, 10) && (s[0] != '0' || forall k :: 0 <= k < |s| ==> s[k] == '0') then Some(NumberOf(s, 10))
    else None
  }

  predicate At(ts: seq<Token>, i: nat, v: string)
  {
    i < |ts| && ts[i].value == v
  }

  // ---------------------------------------------------------- statements and skipping

  datatype Depth = Depth(square: nat, round: nat, angle: nat, curly: nat)

  function Less(n: nat): nat
  {
    if n == 0 then 0 else n - 1
  }

  function Deeper(d: Depth, v: string): Depth
  {
    if v == "[" then d.(square := d.square + 1)
    else if v == "]" then d.(square := Less(d.square))
    else if v == "(" then d.(round := d.round + 1)
    else if v == ")" then d.(round := Less(d.round))
    else if v == "<" then d.(angle := d.angle + 1)
    else if v == ">" then d.(angle := Less(d.angle))
    else if v == "{" then d.(curly := d.curly + 1)
    else if v == "}" then d.(curly := Less(d.curly))
    else d
  }

  const Flat := Depth(0, 0, 0, 0)

  /** collect_statement: where it stops. */
  function StatementEnd(ts: seq<Token>, i: nat, d: Depth): (end: nat)
    requires i <= |ts|
    ensures i <= end <= |ts| && (i < |ts| && (ts[i].value != "}" || d.curly > 0) ==> i < end)
    decreases |ts| - i
  {
    if i == |ts| || (ts[i].value == "}" && d.curly == 0) then i
    else
      var next := Deeper(d, ts[i].value);
      if ts[i].value == ";" && next == Flat then i + 1 else StatementEnd(ts, i + 1, next)
  }

  /** skip_declaration: where it stops. */
  function SkipEnd(ts: seq<Token>, i: nat, depth: nat): (end: nat)
    requires i <= |ts|
    ensures i <= end <= |ts| && (i < |ts| && (ts[i].value != "}" || depth > 0) ==> i < end)
    decreases |ts| - i
  {
    if i == |ts| then i
    else
      var v := ts[i].value;
      if v == "{" then SkipEnd(ts, i + 1, depth + 1)
      else if v == "}" then
        if depth == 0 then i
        else if depth == 1 then (if At(ts, i + 1, ";") then i + 2 else i + 1)
        else SkipEnd(ts, i + 1, depth - 1)
      else if v == ";" && depth == 0 then i + 1
      else SkipEnd(ts, i + 1, depth)
  }

  const LABELS: set<string> := {"optional", "required", "repeated"}

  /** parse_field. */
  function FieldOf(stmt: seq<Token>, message: string, oneof: Option<string>): Option<Item>
  {
    if stmt == [] || stmt[|stmt| - 1].value != ";" then None
    else
      var values := Values(stmt[..|stmt| - 1]);
      var equals := IndexOf(values, "=");
      if equals == |values| || equals < 2 || equals + 1 >= |values| then None
      else
        match ParseInt(values[equals + 1])
        case None => None
        case Some(number) =>
          var before := values[..equals - 1];
          var labelled := before[0] in LABELS;
          var parts := if labelled then before[1..] else before;
          if parts == [] then None
          else
            Some(FieldItem(message + "." + values[equals - 1], JoinType(parts), number,
                           if labelled then Some(before[0]) else None, oneof, stmt[0].line, stmt[|stmt| - 1].line))
  }

  function ManualOf(kind: string, symbol: string, stmt: seq<Token>): Manual
    requires stmt != []
  {
    Manual(kind, symbol, stmt[0].line, stmt[|stmt| - 1].line, Values(stmt))
  }

  /** One statement of a message or a oneof. */
  function AfterStatement(ts: seq<Token>, st: State, message: string, oneof: Option<string>): (r: State)
    requires st.i < |ts| && ts[st.i].value != "}"
    ensures st.i < r.i <= |ts| && r.package == st.package && |r.items| >= |st.items|
  {
    var end := StatementEnd(ts, st.i, Flat);
    var stmt := ts[st.i..end];
    match FieldOf(stmt, message, oneof)
    case Some(item) => st.(i := end, items := st.items + [item])
    case None =>
      var manual := match oneof
                    case None => ManualOf("message_statement", message, stmt)
                    case Some(name) => ManualOf("oneof_statement", message + "." + name, stmt);
      st.(i := end, manual := st.manual + [manual])
  }

  /** The position after an optional semicolon. */
  function Semicolon(ts: seq<Token>, i: nat): nat
  {
    if At(ts, i, ";") then i + 1 else i
  }

  // ------------------------------------------------------------------- declarations

  predicate OpensBlock(ts: seq<Token>, i: nat)
  {
    i + 2 < |ts| && ts[i + 1].kind == Ident && ts[i + 2].value == "{"
  }

  function OneofBody(ts: seq<Token>, st: State, message: string, name: string): (r: State)
    requires st.i <= |ts|
    ensures st.i <= r.i <= |ts| && r.package == st.package && |r.items| >= |st.items|
    decreases |ts| - st.i
  {
    if st.i == |ts| || ts[st.i].value == "}" then st
    else if ts[st.i].value == "option" then OneofBody(ts, st.(i := SkipEnd(ts, st.i, 0)), message, name)
    else OneofBody(ts, AfterStatement(ts, st, message, Some(name)), message, name)
  }

  /** parse_oneof; nothing when it raises an error. */
  function Oneof(ts: seq<Token>, st: State, message: string): (r: Option<State>)
    requires st.i < |ts|
    ensures r.Some? ==> st.i < r.value.i <= |ts| && r.value.package == st.package && |r.value.items| >= |st.items|
  {
    if ts[st.i].value != "oneof" || !OpensBlock(ts, st.i) then None
    else
      var body := OneofBody(ts, st.(i := st.i + 3), message, ts[st.i + 1].value);
      if body.i == |ts| then None else Some(body.(i := Semicolon(ts, body.i + 1)))
  }

  /** One statement of an enum. */
  function AfterEnumStatement(ts: seq<Token>, st: State, full: string): (r: State)
    requires st.i < |ts| && ts[st.i].value != "}"
    ensures st.i < r.i <= |ts| && r.package == st.package && |r.items| >= |st.items|
  {
    var end := StatementEnd(ts, st.i, Flat);
    var stmt := ts[st.i..end];
    var values := Values(stmt);
    var equals := IndexOf(values, "=");
    var number := if equals + 1 < |values| then ParseInt(values[equals + 1]) else None;
    if number.None? then st.(i := end, manual := st.manual + [ManualOf("enum_statement", full, stmt)])
    else
      st.(i := end, items := st.items + [EnumValueItem(full + "." + values[0], number.value, stmt[0].line, stmt[|stmt| - 1].line)])
  }

  function EnumBody(ts: seq<Token>, st: State, full: string): (r: State)
    requires st.i <= |ts|
    ensures st.i <= r.i <= |ts| && r.package == st.package && |r.items| >= |st.items|
    decreases |ts| - st.i
  {
    if st.i == |ts| || ts[st.i].value == "}" then st
    else if ts[st.i].value in {"option", "reserved"} then EnumBody(ts, st.(i := SkipEnd(ts, st.i, 0)), full)
    else EnumBody(ts, AfterEnumStatement(ts, st, full), full)
  }

  /** parse_enum. */
  function Enum(ts: seq<Token>, st: State, parent: string): (r: Option<State>)
    requires st.i < |ts|
    ensures r.Some? ==> st.i < r.value.i <= |ts| && r.value.package == st.package && |r.value.items| >= |st.items|
  {
    if ts[st.i].value != "enum" || !OpensBlock(ts, st.i) then None
    else
      var full := Qualified(st.package, parent, ts[st.i + 1].value);
      var line := ts[st.i].line;
      var body := EnumBody(ts, st.(i := st.i + 3, items := st.items + [EnumItem(full, line, line)]), full);
      if body.i == |ts| then None
      else
        Some(body.(i := Semicolon(ts, body.i + 1),
                   items := body.items[|st.items| := EnumItem(full, line, ts[body.i].line)]))
  }

  const SKIPPED_IN_MESSAGE: set<string> := {"option", "reserved", "extensions", "extend"}

  function MessageBody(ts: seq<Token>, st: State, full: string, childParent: string): (r: Option<State>)
    requires st.i <= |ts|
    ensures r.Some? ==> st.i <= r.value.i <= |ts| && r.value.package == st.package && |r.value.items| >= |st.items|
    decreases |ts| - st.i, 1
  {
    if st.i == |ts| || ts[st.i].value == "}" then Some(st)
    else
      var v := ts[st.i].value;
      var next :=
        if v == "message" then Message(ts, st, childParent)
        else if v == "enum" then Enum(ts, st, childParent)
        else if v == "oneof" then Oneof(ts, st, full)
        else if v in SKIPPED_IN_MESSAGE then Some(st.(i := SkipEnd(ts, st.i, 0)))
        else Some(AfterStatement(ts, st, full, None));
      if next.None? then None else MessageBody(ts, next.value, full, childParent)
  }

  /** parse_message. */
  function Message(ts: seq<Token>, st: State, parent: string): (r: Option<State>)
    requires st.i < |ts|
    ensures r.Some? ==> st.i < r.value.i <= |ts| && r.value.package == st.package && |r.value.items| >= |st.items|
    decreases |ts| - st.i, 0
  {
    if ts[st.i].value != "message" || !OpensBlock(ts, st.i) then None
    else
      var name := ts[st.i + 1].value;
      var full := Qualified(st.package, parent, name);
      var line := ts[st.i].line;
      match MessageBody(ts, st.(i := st.i + 3, items := st.items + [MessageItem(full, line, line)]), full, JoinDots([parent, name]))
      case None => None
      case Some(body) =>
        if body.i == |ts| then None
        else
          Some(body.(i := Semicolon(ts, body.i + 1),
                     items := body.items[|st.items| := MessageItem(full, line, ts[body.i].line)]))
  }

  /** Where the parts of a package name end. */
  function PackageEnd(ts: seq<Token>, i: nat): (end: nat)
    requires i <= |ts|
    ensures i <= end <= |ts|
    decreases |ts| - i
  {
    if i == |ts| || ts[i].value == ";" then i else PackageEnd(ts, i + 1)
  }

  function Flatten(parts: seq<string>): string
  {
    if parts == [] then "" else Flatten(parts[..|parts| - 1]) + parts[|parts| - 1]
  }

  function Package(ts: seq<Token>, st: State): (r: Option<State>)
    requires st.i < |ts|
    ensures r.Some? ==> st.i < r.value.i <= |ts|
  {
    var end := PackageEnd(ts, st.i + 1);
    if end == |ts| then None
    else Some(st.(i := end + 1, package := Flatten(Values(ts[st.i + 1..end]))))
  }

  /** The body of the loop of parse, except for services. At a closing brace
      skip_declaration steps back in front of it. */
  function NextDecl(ts: seq<Token>, st: State): (r: Option<State>)
    requires st.i < |ts|
    ensures r.Some? ==> st.i <= r.value.i <= |ts| && (ts[st.i].value != "}" ==> st.i < r.value.i)
  {
    var v := ts[st.i].value;
    if v == "package" then Package(ts, st)
    else if v == "message" then Message(ts, st, "")
    else if v == "enum" then Enum(ts, st, "")
    else Some(st.(i := SkipEnd(ts, st.i, 0)))
  }

  /** The loop of parse under way: still running, or ended. It is left at a
      service, because services are not modelled. */
  datatype Progress = Running(state: State) | Finished(items: seq<Item>, manual: seq<Manual>) | Raised | AtService

  /** The loop of parse after this many turns. */
  function AfterTurns(ts: seq<Token>, st: State, turns: nat): Progress
    requires st.i <= |ts|
    decreases turns
  {
    if turns == 0 then Running(st)
    else if st.i == |ts| then Finished(st.items, st.manual)
    else if ts[st.i].value == "service" then AtService
    else
      match NextDecl(ts, st)
      case None => Raised
      case Some(next) => AfterTurns(ts, next, turns - 1)
  }

  /** How the whole parse ends, if it does; ProtoTermination relates this to the
      turns of the loop. */
  datatype Outcome = Parsed(items: seq<Item>, manual: seq<Manual>) | ContractError | NeverReturns | MeetsService

  function File(ts: seq<Token>, st: State): Outcome
    requires st.i <= |ts|
    decreases |ts| - st.i
  {
    if st.i == |ts| then Parsed(st.items, st.manual)
    else if ts[st.i].value == "service" then MeetsService
    else if ts[st.i].value == "}" then NeverReturns
    else
      match NextDecl(ts, st)
      case None => ContractError
      case Some(next) => File(ts, next)
  }
}
