/** The parser object: a cursor over the tokens that collects items
    (ProtoParser in scripts/generate-api-rtapi-denominator.py). Every method is
    proved to do what its function in ProtoParser says. */
module ProtoParserClass {
  import opened Common
  import opened ProtoLexer
  import opened ProtoParser

  /** How a parsing method ends: in this state, or with an error. */
  predicate Ends(r: Option<State>, ok: bool, after: State)
  {
    if ok then r == Some(after) else r.None?
  }

  predicate OneofYields(ts: seq<Token>, st: State, message: string, ok: bool, after: State)
  {
    st.i < |ts| && Ends(Oneof(ts, st, message), ok, after)
  }

  predicate OneofBodyIs(ts: seq<Token>, st: State, message: string, name: string, body: State)
  {
    st.i <= |ts| && OneofBody(ts, st, message, name) == body
  }

  predicate EnumBodyIs(ts: seq<Token>, st: State, full: string, body: State)
  {
    st.i <= |ts| && EnumBody(ts, st, full) == body
  }

  predicate EnumYields(ts: seq<Token>, st: State, parent: string, ok: bool, after: State)
  {
    st.i < |ts| && Ends(Enum(ts, st, parent), ok, after)
  }

  predicate MessageYields(ts: seq<Token>, st: State, parent: string, ok: bool, after: State)
  {
    st.i < |ts| && Ends(Message(ts, st, parent), ok, after)
  }

  predicate BodyYields(ts: seq<Token>, st: State, full: string, childParent: string, ok: bool, after: State)
  {
    st.i <= |ts| && Ends(MessageBody(ts, st, full, childParent), ok, after)
  }

  lemma NoOneof(ts: seq<Token>, st: State, message: string, after: State)
    requires st.i < |ts| && !(At(ts, st.i, "oneof") && OpensBlock(ts, st.i))
    ensures OneofYields(ts, st, message, false, after)
  {
  }

  lemma OneofCloses(ts: seq<Token>, st: State, message: string, name: string, body: State, ok: bool, after: State)
    requires At(ts, st.i, "oneof") && OpensBlock(ts, st.i) && name == ts[st.i + 1].value
    requires OneofBodyIs(ts, st.(i := st.i + 3), message, name, body)
    requires ok == (body.i < |ts|) && (ok ==> after == body.(i := Semicolon(ts, body.i + 1)))
    ensures OneofYields(ts, st, message, ok, after)
  {
  }

  lemma NoEnum(ts: seq<Token>, st: State, parent: string, after: State)
    requires st.i < |ts| && !(At(ts, st.i, "enum") && OpensBlock(ts, st.i))
    ensures EnumYields(ts, st, parent, false, after)
  {
  }

  lemma EnumCloses(ts: seq<Token>, st: State, parent: string, name: string, full: string, body: State, ok: bool, after: State)
    requires At(ts, st.i, "enum") && OpensBlock(ts, st.i) && name == ts[st.i + 1].value && full == Qualified(st.package, parent, name)
    requires EnumBodyIs(ts, st.(i := st.i + 3, items := st.items + [EnumItem(full, ts[st.i].line, ts[st.i].line)]), full, body)
    requires |st.items| < |body.items| && ok == (body.i < |ts|)
    requires ok ==> after == body.(i := Semicolon(ts, body.i + 1),
                                   items := body.items[|st.items| := EnumItem(full, ts[st.i].line, ts[body.i].line)])
    ensures EnumYields(ts, st, parent, ok, after)
  {
  }

  lemma NoMessage(ts: seq<Token>, st: State, parent: string, after: State)
    requires st.i < |ts| && !(At(ts, st.i, "message") && OpensBlock(ts, st.i))
    ensures MessageYields(ts, st, parent, false, after)
  {
  }

  lemma MessageCloses(ts: seq<Token>, st: State, parent: string, name: string, full: string, inside: bool, body: State,
                      ok: bool, after: State)
    requires At(ts, st.i, "message") && OpensBlock(ts, st.i) && name == ts[st.i + 1].value && full == Qualified(st.package, parent, name)
    requires BodyYields(ts, st.(i := st.i + 3, items := st.items + [MessageItem(full, ts[st.i].line, ts[st.i].line)]), full,
                      JoinDots([parent, name]), inside, body)
    requires ok == (inside && body.i < |ts|) && (inside ==> |st.items| < |body.items|)
    requires ok ==> after == body.(i := Semicolon(ts, body.i + 1),
                                   items := body.items[|st.items| := MessageItem(full, ts[st.i].line, ts[body.i].line)])
    ensures MessageYields(ts, st, parent, ok, after)
  {
  }

  lemma OnePartMore(ts: seq<Token>, start: nat, i: nat)
    requires start <= i < |ts|
    ensures Flatten(Values(ts[start..i + 1])) == Flatten(Values(ts[start..i])) + ts[i].value
  {
    assert Values(ts[start..i + 1])[..i - start] == Values(ts[start..i]);
  }

  /** One statement of the body of a oneof, and the state after it. */
  lemma {:induction false} OneofGoesOn(ts: seq<Token>, st: State, message: string, name: string, next: State, body: State)
    requires st.i < |ts| && ts[st.i].value != "}" && OneofBodyIs(ts, st, message, name, body)
    requires next == if ts[st.i].value == "option" then st.(i := SkipEnd(ts, st.i, 0))
                     else AfterStatement(ts, st, message, Some(name))
    ensures OneofBodyIs(ts, next, message, name, body)
  {
  }

  lemma OneofStarts(ts: seq<Token>, st: State, message: string, name: string) returns (body: State)
    requires st.i <= |ts|
    ensures OneofBodyIs(ts, st, message, name, body)
  {
    body := OneofBody(ts, st, message, name);
  }

  lemma OneofStops(ts: seq<Token>, st: State, message: string, name: string, body: State)
    requires OneofBodyIs(ts, st, message, name, body) && (st.i == |ts| || ts[st.i].value == "}")
    ensures body == st
  {
  }

  lemma {:induction false} EnumGoesOn(ts: seq<Token>, st: State, full: string, next: State, body: State)
    requires st.i < |ts| && ts[st.i].value != "}" && EnumBodyIs(ts, st, full, body)
    requires next == if ts[st.i].value in {"option", "reserved"} then st.(i := SkipEnd(ts, st.i, 0))
                     else AfterEnumStatement(ts, st, full)
    ensures EnumBodyIs(ts, next, full, body)
  {
  }

  class Parser {
    const tokens: seq<Token>
    var i: nat
    var package: string
    var items: seq<Item>
    var manual: seq<Manual>

    /** The fields as a value. */
    function View(): State
      reads this
    {
      State(i, package, items, manual)
    }

    predicate Valid()
      reads this
    {
      i <= |tokens|
    }

    constructor (tokens: seq<Token>)
      ensures Valid() && this.tokens == tokens && View() == State(0, "", [], [])
    {
      this.tokens := tokens;
      i, package, items, manual := 0, "", [], [];
    }

    predicate Sees(v: string)
      reads this
    {
      At(tokens, i, v)
    }

    /** accept. */
    method Accept(v: string) returns (taken: bool)
      requires Valid()
      modifies this`i
      ensures Valid() && taken == old(Sees(v)) && i == if taken then old(i) + 1 else old(i)
    {
      taken := Sees(v);
      if taken {
        i := i + 1;
      }
    }

    /** expect(keyword), ident and expect("{"); false when one of them raises. */
    method Open(keyword: string) returns (ok: bool, line: nat, name: string)
      requires Valid() && i < |tokens|
      modifies this`i
      ensures ok <==> old(Sees(keyword)) && OpensBlock(tokens, old(i))
      ensures ok ==> Valid() && i == old(i) + 3 && line == tokens[old(i)].line && name == tokens[old(i) + 1].value
    {
      line, name := 0, "";
      if tokens[i].value != keyword || i + 1 >= |tokens| || tokens[i + 1].kind != Ident {
        return false, line, name;
      }
      line, name := tokens[i].line, tokens[i + 1].value;
      i := i + 2;
      ok := Accept("{");
    }

    /** collect_statement. */
    method CollectStatement() returns (stmt: seq<Token>)
      requires Valid() && i < |tokens| && tokens[i].value != "}"
      modifies this`i
      ensures Valid() && i == StatementEnd(tokens, old(i), Flat) && stmt == tokens[old(i)..i] && old(i) < i
    {
      var start, d := i, Flat;
      while i < |tokens|
        invariant start <= i <= |tokens| && StatementEnd(tokens, start, Flat) == StatementEnd(tokens, i, d)
      {
        var v := tokens[i].value;
        if v == "}" && d.curly == 0 {
          break;
        }
        d := Deeper(d, v);
        i := i + 1;
        if v == ";" && d == Flat {
          return tokens[start..i];
        }
      }
      stmt := tokens[start..i];
    }

    /** skip_declaration. */
    method SkipDeclaration()
      requires Valid() && i < |tokens|
      modifies this`i
      ensures Valid() && i == SkipEnd(tokens, old(i), 0)
    {
      ghost var start := i;
      var depth := 0;
      while i < |tokens|
        invariant start <= i <= |tokens| && SkipEnd(tokens, start, 0) == SkipEnd(tokens, i, depth)
      {
        var v := tokens[i].value;
        if v == "{" {
          depth := depth + 1;
        } else if v == "}" {
          if depth == 0 {
            return;
          }
          depth := depth - 1;
          if depth == 0 {
            i := i + 1;
            var _ := Accept(";");
            return;
          }
        } else if v == ";" && depth == 0 {
          i := i + 1;
          return;
        }
        i := i + 1;
      }
    }

    /** A field, or a statement to be classified by hand. */
    method ParseStatement(message: string, oneof: Option<string>)
      requires Valid() && i < |tokens| && tokens[i].value != "}"
      modifies this`i, this`items, this`manual
      ensures Valid() && View() == AfterStatement(tokens, old(View()), message, oneof)
    {
      var stmt := CollectStatement();
      var field := FieldOf(stmt, message, oneof);
      match field {
        case Some(item) =>
          items := items + [item];
        case None =>
          var entry := if oneof.None? then ManualOf("message_statement", message, stmt)
                       else ManualOf("oneof_statement", message + "." + oneof.value, stmt);
          manual := manual + [entry];
      }
    }

    /** parse_oneof. */
    method ParseOneof(message: string) returns (ok: bool)
      requires Valid() && i < |tokens|
      modifies this`i, this`items, this`manual
      ensures OneofYields(tokens, old(View()), message, ok, View()) && (ok ==> Valid() && i > old(i))
    {
      ghost var before := View();
      var line, name;
      ok, line, name := Open("oneof");
      if !ok {
        NoOneof(tokens, before, message, View());
        return false;
      }
      ghost var start := i;
      ghost var body := OneofStarts(tokens, View(), message, name);
      while i < |tokens| && tokens[i].value != "}"
        invariant Valid() && start <= i && OneofBodyIs(tokens, View(), message, name, body)
        decreases |tokens| - i
      {
        ghost var now := View();
        if tokens[i].value == "option" {
          SkipDeclaration();
        } else {
          ParseStatement(message, Some(name));
        }
        OneofGoesOn(tokens, now, message, name, View(), body);
      }
      OneofStops(tokens, View(), message, name, body);
      ok := i < |tokens|;
      if ok {
        i := i + 1;
        var _ := Accept(";");
      }
      OneofCloses(tokens, before, message, name, body, ok, View());
    }

    method ParseEnumStatement(full: string)
      requires Valid() && i < |tokens| && tokens[i].value != "}"
      modifies this`i, this`items, this`manual
      ensures Valid() && View() == AfterEnumStatement(tokens, old(View()), full)
    {
      var stmt := CollectStatement();
      var values := Values(stmt);
      var equals := IndexOf(values, "=");
      var number := if equals + 1 < |values| then ParseInt(values[equals + 1]) else None;
      if number.None? {
        manual := manual + [ManualOf("enum_statement", full, stmt)];
        return;
      }
      items := items + [EnumValueItem(full + "." + values[0], number.value, stmt[0].line, stmt[|stmt| - 1].line)];
    }

    /** parse_enum. */
    method ParseEnum(parent: string) returns (ok: bool)
      requires Valid() && i < |tokens|
      modifies this`i, this`items, this`manual
      ensures EnumYields(tokens, old(View()), parent, ok, View()) && (ok ==> Valid() && i > old(i))
    {
      ghost var before := View();
      var line, name;
      ok, line, name := Open("enum");
      if !ok {
        NoEnum(tokens, before, parent, View());
        return false;
      }
      var full, slot := Qualified(package, parent, name), |items|;
      items := items + [EnumItem(full, line, line)];
      ghost var start, body := i, EnumBody(tokens, View(), full);
      while i < |tokens| && tokens[i].value != "}"
        invariant Valid() && start <= i && EnumBodyIs(tokens, View(), full, body)
        invariant slot < |items| && package == old(package)
        decreases |tokens| - i
      {
        ghost var now := View();
        if tokens[i].value in {"option", "reserved"} {
          SkipDeclaration();
        } else {
          ParseEnumStatement(full);
        }
        EnumGoesOn(tokens, now, full, View(), body);
      }
      ok := i < |tokens|;
      if ok {
        items := items[slot := EnumItem(full, line, tokens[i].line)];
        i := i + 1;
        var _ := Accept(";");
      }
      EnumCloses(tokens, before, parent, name, full, body, ok, View());
    }

    /** The loop of parse_message over its members. */
    method ParseMembers(full: string, childParent: string) returns (ok: bool)
      requires Valid()
      modifies this`i, this`items, this`manual
      ensures BodyYields(tokens, old(View()), full, childParent, ok, View())
      ensures ok ==> Valid() && i >= old(i) && |items| >= |old(items)|
      decreases |tokens| - i, 1
    {
      ghost var start := View();
      while i < |tokens| && tokens[i].value != "}"
        invariant Valid() && old(i) <= i && package == old(package) && |items| >= |old(items)|
        invariant MessageBody(tokens, start, full, childParent) == MessageBody(tokens, View(), full, childParent)
        decreases |tokens| - i
      {
        var v := tokens[i].value;
        if v == "message" {
          ok := ParseMessage(childParent);
        } else if v == "enum" {
          ok := ParseEnum(childParent);
        } else if v == "oneof" {
          ok := ParseOneof(full);
        } else if v in SKIPPED_IN_MESSAGE {
          SkipDeclaration();
          ok := true;
        } else {
          ParseStatement(full, None);
          ok := true;
        }
        if !ok {
          return false;
        }
      }
      ok := true;
    }

    /** parse_message. */
    method ParseMessage(parent: string) returns (ok: bool)
      requires Valid() && i < |tokens|
      modifies this`i, this`items, this`manual
      ensures MessageYields(tokens, old(View()), parent, ok, View()) && (ok ==> Valid() && i > old(i))
      decreases |tokens| - i, 0
    {
      ghost var before := View();
      var line, name;
      ok, line, name := Open("message");
      if !ok {
        NoMessage(tokens, before, parent, View());
        return false;
      }
      var full, slot := Qualified(package, parent, name), |items|;
      items := items + [MessageItem(full, line, line)];
      var inside := ParseMembers(full, JoinDots([parent, name]));
      ghost var body := View();
      ok := inside && i < |tokens|;
      if ok {
        items := items[slot := MessageItem(full, line, tokens[i].line)];
        i := i + 1;
        var _ := Accept(";");
      }
      MessageCloses(tokens, before, parent, name, full, inside, body, ok, View());
    }

    /** parse_package. */
    method ParsePackage() returns (ok: bool)
      requires Valid() && i < |tokens|
      modifies this`i, this`package
      ensures ok == Package(tokens, old(View())).Some?
      ensures ok ==> Valid() && View() == Package(tokens, old(View())).value
    {
      i := i + 1;
      ghost var start := i;
      var name := "";
      assert Values(tokens[start..start]) == [];
      while i < |tokens| && tokens[i].value != ";"
        invariant start <= i <= |tokens| && PackageEnd(tokens, start) == PackageEnd(tokens, i)
        invariant name == Flatten(Values(tokens[start..i]))
      {
        OnePartMore(tokens, start, i);
        name := name + tokens[i].value;
        i := i + 1;
      }
      if i == |tokens| {
        return false;
      }
      i := i + 1;
      package := name;
      ok := true;
    }

    /** parse. A run that would never return is reported instead. */
    method Parse() returns (outcome: Outcome)
      requires Valid()
      modifies this
      ensures outcome == File(tokens, old(View()))
    {
      ghost var start := View();
      while i < |tokens|
        invariant Valid() && File(tokens, start) == File(tokens, View())
        decreases |tokens| - i
      {
        var v := tokens[i].value;
        var ok := true;
        if v == "service" {
          return MeetsService;
        } else if v == "}" {
          return NeverReturns;
        } else if v == "package" {
          ok := ParsePackage();
        } else if v == "message" {
          ok := ParseMessage("");
        } else if v == "enum" {
          ok := ParseEnum("");
        } else {
          SkipDeclaration();
        }
        if !ok {
          return ContractError;
        }
      }
      outcome := Parsed(items, manual);
    }
  }
}
