/** The one-pass lexical check of a workflow file for repeated mapping keys
    (workflow_structure_failures in scripts/check-workflow-action-policy.py). */
module WorkflowKeys {
  import opened Common
  import opened LogText

  // ------------------------------------------------------------------ reading a line

  datatype Value = Empty | Inline | BlockScalar

  /** What the checker sees in one line. A dash line starts a sequence item that
      is not a mapping; any other line has no key and no dash. */
  datatype Line =
    | Blank
    | Tabbed
    | Key(indent: nat, item: bool, key: string, value: Value)
    | Dash(indent: nat)
    | Other(indent: nat)

  /** Python's whitespace. */
  predicate IsSpace(c: char)
  {
    c == ' ' || '\t' <= c <= '\r' || '\U{1c}' <= c <= '\U{1f}' || c == '\U{85}' || c == '\U{a0}' || c == '\U{1680}' ||
    '\U{2000}' <= c <= '\U{200a}' || c == '\U{2028}' || c == '\U{2029}' || c == '\U{202f}' || c == '\U{205f}' || c == '\U{3000}'
  }

  /** lstrip(). */
  function DropSpace(s: string): (r: string)
    ensures |r| <= |s| && (r != "" ==> !IsSpace(r[0]))
  {
    if s != "" && IsSpace(s[0]) then DropSpace(s[1..]) else s
  }

  /** rstrip(). */
  function DropSpaceEnd(s: string): string
  {
    if s != "" && IsSpace(s[|s| - 1]) then DropSpaceEnd(s[..|s| - 1]) else s
  }

  function Strip(s: string): string
  {
    DropSpaceEnd(DropSpace(s))
  }

  /** The number of leading blanks. */
  function Indent(s: string): (n: nat)
    ensures n <= |s|
  {
    if s != "" && s[0] == ' ' then 1 + Indent(s[1..]) else 0
  }

  predicate IdentStart(c: char)
  {
    'A' <= c <= 'Z' || 'a' <= c <= 'z' || c == '_'
  }

  predicate IdentChar(c: char)
  {
    IdentStart(c) || IsDigit(c) || c == '-'
  }

  function IdentLength(s: string): (n: nat)
    ensures n <= |s|
  {
    if s != "" && IdentChar(s[0]) then 1 + IdentLength(s[1..]) else 0
  }

  /** The index of the next such quote. */
  function QuoteAt(s: string, q: char): (n: nat)
    ensures n <= |s| && (n < |s| ==> s[n] == q)
  {
    if s == "" || s[0] == q then 0 else 1 + QuoteAt(s[1..], q)
  }

  function AfterColon(s: string): Option<string>
  {
    var rest := DropSpace(s);
    if rest != "" && rest[0] == ':' then Some(rest[1..]) else None
  }

  /** A bare or quoted key with its colon: the unquoted key and the rest. */
  function KeyAt(s: string): Option<(string, string)>
  {
    if s == "" then None
    else if s[0] == '\'' || s[0] == '"' then
      var n := QuoteAt(s[1..], s[0]);
      if n == 0 || n == |s| - 1 then None
      else
        match AfterColon(s[n + 2..])
        case None => None
        case Some(value) => Some((s[1..n + 1], value))
    else if IdentStart(s[0]) then
      var n := IdentLength(s);
      match AfterColon(s[n..])
      case None => None
      case Some(value) => Some((s[..n], value))
    else None
  }

  /** MAPPING_KEY after the indentation: whether it is a sequence item, the key,
      and the value. */
  function MatchKey(s: string): Option<(bool, string, string)>
  {
    var item := |s| >= 2 && s[0] == '-' && IsSpace(s[1]);
    match KeyAt(if item then DropSpace(s[1..]) else s)
    case None => None
    case Some((key, value)) => Some((item, key, value))
  }

  /** BLOCK_SCALAR. */
  predicate IsBlockMarker(s: string)
  {
    s != "" && (s[0] == '>' || s[0] == '|') &&
    var digits := if |s| > 1 && '1' <= s[1] <= '9' then s[2..] else s[1..];
    var rest := if digits != "" && (digits[0] == '+' || digits[0] == '-') then digits[1..] else digits;
    rest == "" || (IsSpace(rest[0]) && DropSpace(rest) != "" && DropSpace(rest)[0] == '#')
  }

  function KindOf(value: string): Value
  {
    var text := Strip(value);
    if text == "" then Empty else if IsBlockMarker(text) then BlockScalar else Inline
  }

  function Read(raw: string): Line
  {
    var body := DropSpace(raw);
    if '\t' in raw[..|raw| - |body|] then Tabbed
    else if body == "" || body[0] == '#' then Blank
    else
      var n := Indent(raw);
      match MatchKey(raw[n..])
      case Some((item, key, value)) => Key(n, item, key, KindOf(value))
      case None => if "- " <= body then Dash(n) else Other(n)
  }

  // --------------------------------------------------------------------- the machine

  datatype Level = Level(indent: nat, token: string)

  /** The scope and the name of one key; two keys with one identity are duplicates. */
  datatype Id = Id(path: seq<string>, indent: nat, key: string)

  datatype State = State(
    stack: seq<Level>, counters: map<nat, nat>, block: Option<nat>, ids: seq<Id>, roots: seq<string>)

  const Start := State([], map[], None, [], [])

  function ItemToken(indent: nat, count: nat): string
  {
    "@" + Digits(indent) + ":" + Digits(count)
  }

  function Count(counters: map<nat, nat>, indent: nat): nat
  {
    if indent in counters then counters[indent] else 0
  }

  function Counted(counters: map<nat, nat>, indent: nat): map<nat, nat>
  {
    counters[indent := Count(counters, indent) + 1]
  }

  /** Leave the scopes that a line at this indentation is not inside of. */
  function Pop(stack: seq<Level>, indent: nat): (r: seq<Level>)
    ensures r <= stack
  {
    if stack != [] && stack[|stack| - 1].indent >= indent then Pop(stack[..|stack| - 1], indent) else stack
  }

  function Tokens(stack: seq<Level>): seq<string>
  {
    seq(|stack|, i requires 0 <= i < |stack| => stack[i].token)
  }

  predicate InBlock(s: State, indent: nat)
  {
    s.block.Some? && indent > s.block.value
  }

  function Step(s: State, line: Line): State
  {
    if line.Blank? || line.Tabbed? || InBlock(s, line.indent) then s
    else
      var n := line.indent;
      var stack := Pop(s.stack, n);
      match line
      case Other(_) => s.(stack := stack, block := None)
      case Dash(_) =>
        var counters := Counted(s.counters, n);
        s.(stack := stack + [Level(n, ItemToken(n, counters[n]))], counters := counters, block := None)
      case Key(_, item, key, value) =>
        var counters := if item then Counted(s.counters, n) else s.counters;
        var inside := if item then stack + [Level(n, ItemToken(n, counters[n]))] else stack;
        var keyIndent := if item then n + 2 else n;
        State(
          if value.Empty? then inside + [Level(keyIndent, key)] else inside, counters,
          if value.BlockScalar? then Some(n) else None,
          s.ids + [Id(Tokens(inside), keyIndent, key)],
          if !item && n == 0 then s.roots + [key] else s.roots)
  }

  function Run(s: State, lines: seq<Line>): State
  {
    if lines == [] then s else Step(Run(s, lines[..|lines| - 1]), lines[|lines| - 1])
  }

  function Reads(raws: seq<string>): (lines: seq<Line>)
    ensures |lines| == |raws|
  {
    seq(|raws|, i requires 0 <= i < |raws| => Read(raws[i]))
  }

  predicate Unique(ids: seq<Id>)
  {
    forall i, j :: 0 <= i < j < |ids| ==> ids[i] != ids[j]
  }

  // --------------------------------------------------------------------- the program

  const REQUIRED_ROOT_KEYS: seq<string> := ["name", "on", "jobs"]

  datatype Failure = TabIndentation(line: nat) | DuplicateKey(line: nat, key: string, first: nat) | RootKeyCount(key: string, found: nat)

  predicate HasTabs(failures: seq<Failure>)
  {
    exists i :: 0 <= i < |failures| && failures[i].TabIndentation?
  }

  predicate HasDuplicates(failures: seq<Failure>)
  {
    exists i :: 0 <= i < |failures| && failures[i].DuplicateKey?
  }

  lemma OneMore(failures: seq<Failure>, f: Failure)
    ensures HasTabs(failures + [f]) <==> HasTabs(failures) || f.TabIndentation?
    ensures HasDuplicates(failures + [f]) <==> HasDuplicates(failures) || f.DuplicateKey?
  {
    var more := failures + [f];
    assert more[|failures|] == f;
    if HasTabs(failures) {
      var i :| 0 <= i < |failures| && failures[i].TabIndentation?;
      assert more[i].TabIndentation?;
    }
    if HasDuplicates(failures) {
      var i :| 0 <= i < |failures| && failures[i].DuplicateKey?;
      assert more[i].DuplicateKey?;
    }
  }

  // ------------------------------------------------------------ what is reported where

  /** For each identity, in order, the number of the line that it is on. */
  function IdLines(lines: seq<Line>): (at: seq<nat>)
    ensures |at| == |Run(Start, lines).ids|
  {
    if lines == [] then []
    else
      var before := lines[..|lines| - 1];
      StepAddsOne(Run(Start, before), lines[|lines| - 1]);
      IdLines(before) + (if |Run(Start, lines).ids| > |Run(Start, before).ids| then [|lines|] else [])
  }

  lemma StepAddsOne(s: State, line: Line)
    ensures |Step(s, line).ids| == |s.ids| || |Step(s, line).ids| == |s.ids| + 1
  {
  }

  /** This identity was not met before. */
  predicate FirstAt(ids: seq<Id>, i: nat)
    requires i < |ids|
  {
    forall k :: 0 <= k < i ==> ids[k] != ids[i]
  }

  /** The identity of a key on line n is met again there, first met on line m. */
  predicate MetAgain(ids: seq<Id>, at: seq<nat>, n: nat, key: string, m: nat)
    requires |at| == |ids|
  {
    exists i, j :: 0 <= i < j < |ids| && ids[i] == ids[j] && FirstAt(ids, i) && at[j] == n && at[i] == m && ids[j].key == key
  }

  predicate FirstLine(ids: seq<Id>, at: seq<nat>, id: Id, m: nat)
    requires |at| == |ids|
  {
    exists i :: 0 <= i < |ids| && ids[i] == id && FirstAt(ids, i) && at[i] == m
  }

  lemma {:induction false} FirstAppend(ids: seq<Id>, id: Id, i: nat)
    requires i < |ids|
    ensures FirstAt(ids + [id], i) <==> FirstAt(ids, i)
  {
    var more := ids + [id];
    assert forall k :: 0 <= k < |ids| ==> more[k] == ids[k];
  }

  lemma {:induction false} MetAgainAppend(ids: seq<Id>, at: seq<nat>, id: Id, number: nat, n: nat, key: string, m: nat)
    requires |at| == |ids|
    ensures MetAgain(ids + [id], at + [number], n, key, m) <==>
      MetAgain(ids, at, n, key, m) || (n == number && key == id.key && FirstLine(ids, at, id, m))
  {
    var more, lines := ids + [id], at + [number];
    if MetAgain(more, lines, n, key, m) {
      var i, j :| 0 <= i < j < |more| && more[i] == more[j] && FirstAt(more, i) && lines[j] == n && lines[i] == m &&
        more[j].key == key;
      FirstAppend(ids, id, i);
    }
    if MetAgain(ids, at, n, key, m) {
      var i, j :| 0 <= i < j < |ids| && ids[i] == ids[j] && FirstAt(ids, i) && at[j] == n && at[i] == m && ids[j].key == key;
      FirstAppend(ids, id, i);
      assert more[i] == more[j] && lines[j] == n && lines[i] == m;
    }
    if n == number && key == id.key && FirstLine(ids, at, id, m) {
      var i :| 0 <= i < |ids| && ids[i] == id && FirstAt(ids, i) && at[i] == m;
      FirstAppend(ids, id, i);
      assert more[i] == more[|ids|] && lines[|ids|] == n && lines[i] == m;
    }
  }

  /** Every repeated key is reported with its line, its name and the first line. */
  ghost predicate Located(ids: seq<Id>, at: seq<nat>, firstSeen: map<Id, nat>, failures: seq<Failure>)
  {
    && |at| == |ids|
    && (forall id :: id in firstSeen ==> FirstLine(ids, at, id, firstSeen[id]))
    && (forall n, key, m :: DuplicateKey(n, key, m) in failures <==> MetAgain(ids, at, n, key, m))
  }

  lemma {:induction false} FirstLineUnique(ids: seq<Id>, at: seq<nat>, id: Id, m: nat, n: nat)
    requires |at| == |ids| && FirstLine(ids, at, id, m) && FirstLine(ids, at, id, n)
    ensures m == n
  {
    var i :| 0 <= i < |ids| && ids[i] == id && FirstAt(ids, i) && at[i] == m;
    var j :| 0 <= j < |ids| && ids[j] == id && FirstAt(ids, j) && at[j] == n;
    assert i == j;
  }

  lemma {:induction false} FirstLineKept(ids: seq<Id>, at: seq<nat>, id: Id, number: nat, other: Id, m: nat)
    requires |at| == |ids| && FirstLine(ids, at, other, m)
    ensures FirstLine(ids + [id], at + [number], other, m)
  {
    var i :| 0 <= i < |ids| && ids[i] == other && FirstAt(ids, i) && at[i] == m;
    FirstAppend(ids, id, i);
    assert (ids + [id])[i] == other && (at + [number])[i] == m;
  }

  /** A new identity. */
  lemma {:induction false} LocatedNew(ids: seq<Id>, at: seq<nat>, firstSeen: map<Id, nat>, failures: seq<Failure>, id: Id, number: nat)
    requires Located(ids, at, firstSeen, failures) && id !in ids && id !in firstSeen
    ensures Located(ids + [id], at + [number], firstSeen[id := number], failures)
  {
    var more, lines, seen := ids + [id], at + [number], firstSeen[id := number];
    forall other | other in seen ensures FirstLine(more, lines, other, seen[other]) {
      if other == id {
        assert more[|ids|] == id && FirstAt(more, |ids|) && lines[|ids|] == number;
      } else {
        FirstLineKept(ids, at, id, number, other, firstSeen[other]);
      }
    }
    forall n, key, m ensures DuplicateKey(n, key, m) in failures <==> MetAgain(more, lines, n, key, m) {
      MetAgainAppend(ids, at, id, number, n, key, m);
    }
  }

  /** An identity that was met before. */
  lemma {:induction false} LocatedAgain(ids: seq<Id>, at: seq<nat>, firstSeen: map<Id, nat>, failures: seq<Failure>, id: Id, number: nat)
    requires Located(ids, at, firstSeen, failures) && id in firstSeen
    ensures Located(ids + [id], at + [number], firstSeen, failures + [DuplicateKey(number, id.key, firstSeen[id])])
  {
    var more, lines, reported := ids + [id], at + [number], failures + [DuplicateKey(number, id.key, firstSeen[id])];
    forall other | other in firstSeen ensures FirstLine(more, lines, other, firstSeen[other]) {
      FirstLineKept(ids, at, id, number, other, firstSeen[other]);
    }
    forall n, key, m ensures DuplicateKey(n, key, m) in reported <==> MetAgain(more, lines, n, key, m) {
      MetAgainAppend(ids, at, id, number, n, key, m);
      if FirstLine(ids, at, id, m) {
        FirstLineUnique(ids, at, id, m, firstSeen[id]);
      }
    }
  }

  lemma {:induction false} LocatedTab(ids: seq<Id>, at: seq<nat>, firstSeen: map<Id, nat>, failures: seq<Failure>, f: Failure)
    requires Located(ids, at, firstSeen, failures) && !f.DuplicateKey?
    ensures Located(ids, at, firstSeen, failures + [f])
  {
  }

  /** The tabs are reported with their lines. */
  ghost predicate TabsLocated(raws: seq<string>, count: nat, failures: seq<Failure>)
    requires count <= |raws|
  {
    forall n: nat :: TabIndentation(n) in failures <==> 0 < n <= count && Read(raws[n - 1]).Tabbed?
  }

  lemma TabsNext(raws: seq<string>, count: nat, failures: seq<Failure>, failures': seq<Failure>)
    requires count < |raws| && TabsLocated(raws, count, failures)
    requires if Read(raws[count]).Tabbed? then failures' == failures + [TabIndentation(count + 1)] else SameTabs(failures, failures')
    ensures TabsLocated(raws, count + 1, failures')
  {
  }

  method PopStack(stack: seq<Level>, indent: nat) returns (rest: seq<Level>)
    ensures rest == Pop(stack, indent)
  {
    rest := stack;
    while rest != [] && rest[|rest| - 1].indent >= indent
      invariant Pop(rest, indent) == Pop(stack, indent)
    {
      rest := rest[..|rest| - 1];
    }
  }

  /** The line of each identity met so far, and what was reported. */
  ghost predicate Reported(s: State, firstSeen: map<Id, nat>, failures: seq<Failure>)
  {
    && (forall id :: id in firstSeen <==> id in s.ids)
    && (HasDuplicates(failures) <==> !Unique(s.ids))
    && (forall i :: 0 <= i < |failures| ==> !failures[i].RootKeyCount?)
  }

  /** Both of what was reported: that, and where. */
  ghost predicate ReportedAt(s: State, at: seq<nat>, firstSeen: map<Id, nat>, failures: seq<Failure>)
  {
    Reported(s, firstSeen, failures) && Located(s.ids, at, firstSeen, failures)
  }

  /** The lines of the identities after one more line. */
  function LinesAfter(s: State, line: Line, at: seq<nat>, number: nat): seq<nat>
  {
    if |Step(s, line).ids| > |s.ids| then at + [number] else at
  }

  /** The tabs that were reported stay the ones that were reported. */
  ghost predicate SameTabs(failures: seq<Failure>, failures': seq<Failure>)
  {
    && (HasTabs(failures') <==> HasTabs(failures))
    && forall n :: TabIndentation(n) in failures' <==> TabIndentation(n) in failures
  }

  /** One key line outside a block scalar. */
  method VisitKey(line: Line, number: nat, stack: seq<Level>, counters: map<nat, nat>, roots: seq<string>,
                  firstSeen: map<Id, nat>, failures: seq<Failure>, ghost s: State, ghost at: seq<nat>)
    returns (stack': seq<Level>, counters': map<nat, nat>, block': Option<nat>, roots': seq<string>,
             firstSeen': map<Id, nat>, failures': seq<Failure>)
    requires line.Key? && !InBlock(s, line.indent) && stack == Pop(s.stack, line.indent)
    requires counters == s.counters && roots == s.roots && ReportedAt(s, at, firstSeen, failures)
    ensures var t := Step(s, line);
      && stack' == t.stack && counters' == t.counters && block' == t.block && roots' == t.roots
      && ReportedAt(t, LinesAfter(s, line, at, number), firstSeen', failures') && SameTabs(failures, failures')
  {
    stack', counters', roots', firstSeen', failures' := stack, counters, roots, firstSeen, failures;
    var keyIndent := line.indent;
    if line.item {
      counters' := Counted(counters, line.indent);
      stack' := stack + [Level(line.indent, ItemToken(line.indent, counters'[line.indent]))];
      keyIndent := line.indent + 2;
    } else if line.indent == 0 {
      roots' := roots + [line.key];
    }
    var identity := Id(Tokens(stack'), keyIndent, line.key);
    UniqueAppend(s.ids, identity);
    if identity in firstSeen {
      OneMore(failures, DuplicateKey(number, line.key, firstSeen[identity]));
      LocatedAgain(s.ids, at, firstSeen, failures, identity, number);
      failures' := failures + [DuplicateKey(number, line.key, firstSeen[identity])];
    } else {
      LocatedNew(s.ids, at, firstSeen, failures, identity, number);
      firstSeen' := firstSeen[identity := number];
    }
    if line.value.Empty? {
      stack' := stack' + [Level(keyIndent, line.key)];
    }
    block' := if line.value.BlockScalar? then Some(line.indent) else None;
  }

  /** One line that is not blank and has no tab in its indentation. */
  method VisitLine(line: Line, number: nat, stack: seq<Level>, counters: map<nat, nat>, block: Option<nat>,
                   roots: seq<string>, firstSeen: map<Id, nat>, failures: seq<Failure>, ghost s: State, ghost at: seq<nat>)
    returns (stack': seq<Level>, counters': map<nat, nat>, block': Option<nat>, roots': seq<string>,
             firstSeen': map<Id, nat>, failures': seq<Failure>)
    requires !line.Blank? && !line.Tabbed?
    requires State(stack, counters, block, s.ids, roots) == s && ReportedAt(s, at, firstSeen, failures)
    ensures var t := Step(s, line);
      && stack' == t.stack && counters' == t.counters && block' == t.block && roots' == t.roots
      && ReportedAt(t, LinesAfter(s, line, at, number), firstSeen', failures') && SameTabs(failures, failures')
  {
    counters', roots', firstSeen', failures' := counters, roots, firstSeen, failures;
    if block.Some? && line.indent > block.value {
      return stack, counters, block, roots, firstSeen, failures;
    }
    stack' := PopStack(stack, line.indent);
    block' := None;
    if line.Key? {
      stack', counters', block', roots', firstSeen', failures' :=
        VisitKey(line, number, stack', counters, roots, firstSeen, failures, s, at);
    } else if line.Dash? {
      counters' := Counted(counters, line.indent);
      stack' := stack' + [Level(line.indent, ItemToken(line.indent, counters'[line.indent]))];
    }
  }

  /** The loop over the lines. */
  method ScanLines(raws: seq<string>) returns (failures: seq<Failure>, roots: seq<string>)
    ensures HasTabs(failures) <==> TabsIn(Reads(raws))
    ensures HasDuplicates(failures) <==> !Unique(Run(Start, Reads(raws)).ids)
    ensures forall i :: 0 <= i < |failures| ==> !failures[i].RootKeyCount?
    ensures roots == Run(Start, Reads(raws)).roots
    ensures TabsLocated(raws, |raws|, failures)
    ensures forall n, key, m :: DuplicateKey(n, key, m) in failures <==>
      MetAgain(Run(Start, Reads(raws)).ids, IdLines(Reads(raws)), n, key, m)
  {
    failures, roots := [], [];
    var stack: seq<Level> := [];
    var counters: map<nat, nat> := map[];
    var firstSeen: map<Id, nat> := map[];
    var block: Option<nat> := None;
    ghost var s, at := Start, [];
    for n := 0 to |raws|
      invariant s == Run(Start, Reads(raws[..n])) && at == IdLines(Reads(raws[..n]))
      invariant stack == s.stack && counters == s.counters && block == s.block && roots == s.roots
      invariant ReportedAt(s, at, firstSeen, failures) && TabsLocated(raws, n, failures)
      invariant HasTabs(failures) <==> TabsIn(Reads(raws[..n]))
    {
      var line := Read(raws[n]);
      ReadsAppend(raws, n);
      ghost var before := failures;
      if line.Tabbed? {
        TabReported(s, firstSeen, failures, n + 1);
        LocatedTab(s.ids, at, firstSeen, failures, TabIndentation(n + 1));
        failures := failures + [TabIndentation(n + 1)];
      } else if !line.Blank? {
        stack, counters, block, roots, firstSeen, failures :=
          VisitLine(line, n + 1, stack, counters, block, roots, firstSeen, failures, s, at);
      }
      TabsNext(raws, n, before, failures);
      if !line.Blank? && !line.Tabbed? {
        at := LinesAfter(s, line, at, n + 1);
        s := Step(s, line);
      }
    }
    assert raws[..|raws|] == raws;
  }

  lemma TabReported(s: State, firstSeen: map<Id, nat>, failures: seq<Failure>, number: nat)
    requires Reported(s, firstSeen, failures)
    ensures Reported(s, firstSeen, failures + [TabIndentation(number)]) && HasTabs(failures + [TabIndentation(number)])
  {
    OneMore(failures, TabIndentation(number));
  }

  lemma ReadsAppend(raws: seq<string>, n: nat)
    requires n < |raws|
    ensures Run(Start, Reads(raws[..n + 1])) == Step(Run(Start, Reads(raws[..n])), Read(raws[n]))
    ensures TabsIn(Reads(raws[..n + 1])) <==> TabsIn(Reads(raws[..n])) || Read(raws[n]).Tabbed?
    ensures IdLines(Reads(raws[..n + 1])) ==
      LinesAfter(Run(Start, Reads(raws[..n])), Read(raws[n]), IdLines(Reads(raws[..n])), n + 1)
  {
    var lines, more := Reads(raws[..n]), Reads(raws[..n + 1]);
    assert more == lines + [Read(raws[n])];
    assert more[..n] == lines;
    TabsAppend(lines, Read(raws[n]));
  }

  predicate TabsIn(lines: seq<Line>)
  {
    exists i :: 0 <= i < |lines| && lines[i].Tabbed?
  }

  lemma TabsAppend(lines: seq<Line>, line: Line)
    ensures TabsIn(lines + [line]) <==> TabsIn(lines) || line.Tabbed?
  {
    var more := lines + [line];
    assert more[|lines|] == line;
    if TabsIn(lines) {
      var i :| 0 <= i < |lines| && lines[i].Tabbed?;
      assert more[i].Tabbed?;
    }
  }

  lemma UniqueAppend(ids: seq<Id>, id: Id)
    ensures Unique(ids + [id]) <==> Unique(ids) && id !in ids
  {
    var more := ids + [id];
    assert forall i :: 0 <= i < |ids| ==> more[i] == ids[i];
    assert more[|ids|] == id;
  }

  function Times(roots: seq<string>, key: string): nat
  {
    multiset(roots)[key]
  }

  /** workflow_structure_failures for the lines of a text: every tab with its line,
      every repeated key with its line, its name and the line where it was first met,
      and every required root key that is not there exactly once. */
  method StructureFailures(raws: seq<string>) returns (failures: seq<Failure>)
    ensures forall n: nat :: TabIndentation(n) in failures <==> 0 < n <= |raws| && Read(raws[n - 1]).Tabbed?
    ensures forall n, key, m :: DuplicateKey(n, key, m) in failures <==>
      MetAgain(Run(Start, Reads(raws)).ids, IdLines(Reads(raws)), n, key, m)
    ensures forall key, k :: RootKeyCount(key, k) in failures <==>
      key in REQUIRED_ROOT_KEYS && k == Times(Run(Start, Reads(raws)).roots, key) && k != 1
    ensures HasDuplicates(failures) <==> !Unique(Run(Start, Reads(raws)).ids)
    ensures failures == [] <==>
      && !TabsIn(Reads(raws))
      && Unique(Run(Start, Reads(raws)).ids)
      && (forall key :: key in REQUIRED_ROOT_KEYS ==> Times(Run(Start, Reads(raws)).roots, key) == 1)
  {
    var scanned, roots := ScanLines(raws);
    failures := scanned;
    for i := 0 to |REQUIRED_ROOT_KEYS|
      invariant scanned <= failures && (HasDuplicates(failures) <==> HasDuplicates(scanned))
      invariant failures == [] <==> scanned == [] && forall k :: 0 <= k < i ==> Times(roots, REQUIRED_ROOT_KEYS[k]) == 1
      invariant forall f :: f in failures && !f.RootKeyCount? <==> f in scanned
      invariant forall key, k :: RootKeyCount(key, k) in failures <==>
        key in REQUIRED_ROOT_KEYS[..i] && k == Times(roots, key) && k != 1
    {
      var key := REQUIRED_ROOT_KEYS[i];
      if Times(roots, key) != 1 {
        OneMore(failures, RootKeyCount(key, Times(roots, key)));
        failures := failures + [RootKeyCount(key, Times(roots, key))];
      }
    }
    assert scanned == [] <==> !HasTabs(scanned) && !HasDuplicates(scanned) by {
      if scanned != [] {
        assert scanned[0].TabIndentation? || scanned[0].DuplicateKey?;
      }
    }
  }
}
