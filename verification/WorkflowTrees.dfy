/** Printed trees of mappings and sequences, and what the one-pass checker meets
    in them (scripts/check-workflow-action-policy.py). */
module WorkflowTrees {
  import opened Common
  import opened LogText
  import opened WorkflowKeys

  /** A key is written bare or between quotes. */
  datatype Quote = Bare | Single | Double

  datatype Entry = Entry(key: string, quote: Quote, value: Node)

  /** A block scalar is a list of raw lines that are printed below its marker. */
  datatype Node =
    | Scalar(text: string)
    | Block(lines: seq<string>)
    | Mapping(entries: seq<Entry>)
    | Sequence(items: seq<Node>)

  function Spaces(n: nat): (s: string)
    ensures |s| == n && forall i :: 0 <= i < n ==> s[i] == ' '
  {
    seq(n, i => ' ')
  }

  // ------------------------------------------------------------- what a tree repeats

  /** Two entries of one mapping have the same key. */
  predicate Repeats(entries: seq<Entry>)
  {
    exists i, j :: 0 <= i < j < |entries| && entries[i].key == entries[j].key
  }

  /** Some mapping of the tree repeats a key. */
  predicate HasRepeat(node: Node)
  {
    match node
    case Scalar(_) => false
    case Block(_) => false
    case Mapping(entries) => Repeats(entries) || EntryHasRepeat(entries)
    case Sequence(items) => ItemHasRepeat(items)
  }

  predicate EntryHasRepeat(entries: seq<Entry>)
  {
    entries != [] && (HasRepeat(entries[0].value) || EntryHasRepeat(entries[1..]))
  }

  predicate ItemHasRepeat(items: seq<Node>)
  {
    items != [] && (HasRepeat(items[0]) || ItemHasRepeat(items[1..]))
  }

  // -------------------------------------------------------------- the lines of a tree

  function ValueOf(node: Node): Value
  {
    match node
    case Scalar(_) => Inline
    case Block(_) => BlockScalar
    case _ => Empty
  }

  /** The lines of a block scalar under a line with this indentation. */
  function BlockLines(lines: seq<string>, n: nat): (r: seq<Line>)
    ensures |r| == |lines|
  {
    seq(|lines|, i requires 0 <= i < |lines| => Read(Spaces(n + 2) + lines[i]))
  }

  function MappingLines(entries: seq<Entry>, n: nat): seq<Line>
    decreases entries
  {
    if entries == [] then []
    else
      [Key(n, false, entries[0].key, ValueOf(entries[0].value))] + ChildLines(entries[0].value, n) +
      MappingLines(entries[1..], n)
  }

  /** The lines below a key at this indentation. */
  function ChildLines(node: Node, n: nat): seq<Line>
    decreases node
  {
    match node
    case Scalar(_) => []
    case Block(lines) => BlockLines(lines, n)
    case Mapping(entries) => MappingLines(entries, n + 2)
    case Sequence(items) => ItemLines(items, n + 2)
  }

  function ItemLines(items: seq<Node>, n: nat): seq<Line>
    decreases items
  {
    if items == [] then [] else ItemLine(items[0], n) + ItemLines(items[1..], n)
  }

  /** A mapping item has its first key behind the dash; a nested sequence follows
      a dash alone. */
  function ItemLine(item: Node, n: nat): seq<Line>
    decreases item
  {
    match item
    case Mapping(entries) =>
      if entries == [] then [Other(n)]
      else
        [Key(n, true, entries[0].key, ValueOf(entries[0].value))] + ChildLines(entries[0].value, n + 2) +
        MappingLines(entries[1..], n + 2)
    case Sequence(inner) => [Other(n)] + ItemLines(inner, n + 2)
    case _ => [Dash(n)]
  }

  // ------------------------------------------------------- the identities of a tree

  function WalkMapping(entries: seq<Entry>, path: seq<string>, n: nat, c: map<nat, nat>): (seq<Id>, map<nat, nat>)
    decreases entries, 0
  {
    if entries == [] then ([], c)
    else
      var (below, c1) := WalkChild(entries[0].value, path + [entries[0].key], n, c);
      var (rest, c2) := WalkMapping(entries[1..], path, n, c1);
      ([Id(path, n, entries[0].key)] + below + rest, c2)
  }

  function WalkChild(node: Node, path: seq<string>, n: nat, c: map<nat, nat>): (seq<Id>, map<nat, nat>)
    decreases node
  {
    match node
    case Mapping(entries) => WalkMapping(entries, path, n + 2, c)
    case Sequence(items) => WalkItems(items, path, n + 2, c)
    case _ => ([], c)
  }

  function WalkItems(items: seq<Node>, path: seq<string>, n: nat, c: map<nat, nat>): (seq<Id>, map<nat, nat>)
    decreases items
  {
    if items == [] then ([], c)
    else
      var (first, c1) := WalkItem(items[0], path, n, c);
      var (rest, c2) := WalkItems(items[1..], path, n, c1);
      (first + rest, c2)
  }

  function WalkItem(item: Node, path: seq<string>, n: nat, c: map<nat, nat>): (seq<Id>, map<nat, nat>)
    decreases item
  {
    match item
    case Mapping(entries) =>
      if entries == [] then ([], c)
      else
        var c1 := Counted(c, n);
        var inside := path + [ItemToken(n, c1[n])];
        if entries[0].value.Block? then ([Id(inside, n + 2, entries[0].key)], c1)
        else WalkMapping(entries, inside, n + 2, c1)
    case Sequence(inner) => WalkItems(inner, path, n + 2, c)
    case _ => ([], Counted(c, n))
  }

  // ---------------------------------------------------------- the machine on a tree

  lemma {:induction false} RunAppend(s: State, a: seq<Line>, b: seq<Line>)
    ensures Run(s, a + b) == Run(Run(s, a), b)
    decreases |b|
  {
    if b == [] {
      assert a + b == a;
    } else {
      RunAppend(s, a, b[..|b| - 1]);
      assert (a + b)[..|a + b| - 1] == a + b[..|b| - 1];
    }
  }

  lemma {:induction false} RunOne(s: State, line: Line)
    ensures Run(s, [line]) == Step(s, line)
  {
    assert [line][..0] == [];
    assert Run(s, []) == s;
  }

  lemma {:induction false} PopDeeper(stack: seq<Level>, m: nat, n: nat)
    requires m <= n
    ensures Pop(Pop(stack, n), m) == Pop(stack, m)
  {
    if stack != [] && stack[|stack| - 1].indent >= n {
      PopDeeper(stack[..|stack| - 1], m, n);
    }
  }

  /** A line at indentation n returns to these scopes, and is in no block scalar. */
  predicate Ready(s: State, n: nat, base: seq<Level>)
  {
    Pop(s.stack, n) == base && !InBlock(s, n)
  }

  /** The scopes are what is left for a line at indentation n. */
  predicate Settled(base: seq<Level>, n: nat)
  {
    base == [] || base[|base| - 1].indent < n
  }

  lemma {:induction false} SettledPop(base: seq<Level>, n: nat)
    requires Settled(base, n)
    ensures Pop(base, n) == base
  {
  }

  lemma {:induction false} PopSettles(stack: seq<Level>, n: nat)
    ensures Settled(Pop(stack, n), n)
  {
    if stack != [] && stack[|stack| - 1].indent >= n {
      PopSettles(stack[..|stack| - 1], n);
    }
  }

  /** Only lines deeper than the block marker, or blank ones: all are skipped. */
  predicate Deeper(lines: seq<Line>, n: nat)
  {
    forall i :: 0 <= i < |lines| ==> lines[i].Blank? || lines[i].Tabbed? || lines[i].indent > n
  }

  lemma {:induction false} RunSkips(s: State, lines: seq<Line>)
    requires s.block.Some? && Deeper(lines, s.block.value)
    ensures Run(s, lines) == s
  {
    if lines != [] {
      RunSkips(s, lines[..|lines| - 1]);
    }
  }

  lemma {:induction false} IndentOfSpaces(n: nat, text: string)
    ensures Indent(Spaces(n) + text) >= n
  {
    if n > 0 {
      assert (Spaces(n) + text)[1..] == Spaces(n - 1) + text;
      IndentOfSpaces(n - 1, text);
    }
  }

  lemma BlockLinesAreDeeper(lines: seq<string>, n: nat)
    ensures Deeper(BlockLines(lines, n), n)
  {
    forall i | 0 <= i < |lines|
      ensures var line := BlockLines(lines, n)[i]; line.Blank? || line.Tabbed? || line.indent > n
    {
      IndentOfSpaces(n + 2, lines[i]);
    }
  }

  lemma DeeperAppend(a: seq<Line>, b: seq<Line>, n: nat)
    requires Deeper(a, n) && Deeper(b, n)
    ensures Deeper(a + b, n)
  {
  }

  lemma {:induction false} MappingIsDeeper(entries: seq<Entry>, n: nat, m: nat)
    requires m < n
    ensures Deeper(MappingLines(entries, n), m)
    decreases entries
  {
    if entries != [] {
      ChildIsDeeper(entries[0].value, n, m);
      MappingIsDeeper(entries[1..], n, m);
      DeeperAppend([Key(n, false, entries[0].key, ValueOf(entries[0].value))], ChildLines(entries[0].value, n), m);
    }
  }

  lemma {:induction false} ChildIsDeeper(node: Node, n: nat, m: nat)
    requires m < n
    ensures Deeper(ChildLines(node, n), m)
    decreases node
  {
    match node
    case Scalar(_) =>
    case Block(lines) => BlockLinesAreDeeper(lines, n);
    case Mapping(entries) => MappingIsDeeper(entries, n + 2, m);
    case Sequence(items) => ItemsAreDeeper(items, n + 2, m);
  }

  lemma {:induction false} ItemsAreDeeper(items: seq<Node>, n: nat, m: nat)
    requires m < n
    ensures Deeper(ItemLines(items, n), m)
    decreases items
  {
    if items != [] {
      ItemIsDeeper(items[0], n, m);
      ItemsAreDeeper(items[1..], n, m);
    }
  }

  lemma {:induction false} ItemIsDeeper(item: Node, n: nat, m: nat)
    requires m < n
    ensures Deeper(ItemLine(item, n), m)
    decreases item
  {
    match item
    case Mapping(entries) =>
      if entries != [] {
        ChildIsDeeper(entries[0].value, n + 2, m);
        MappingIsDeeper(entries[1..], n + 2, m);
      }
    case Sequence(inner) => ItemsAreDeeper(inner, n + 2, m);
    case _ =>
  }

  /** The machine has met these identities, is at these counters, and is ready for
      a line at indentation n. */
  predicate Met(s: State, t: State, walk: (seq<Id>, map<nat, nat>), n: nat, base: seq<Level>)
  {
    Ready(t, n, base) && t.ids == s.ids + walk.0 && t.counters == walk.1
  }

  lemma {:induction false} ReadyAbove(t: State, n: nat, m: nat, inner: seq<Level>, base: seq<Level>)
    requires Ready(t, m, inner) && n <= m && Pop(inner, n) == base
    ensures Ready(t, n, base)
  {
    PopDeeper(t.stack, n, m);
  }

  /** The line of an entry of a mapping. */
  lemma KeyStep(s: State, n: nat, key: string, value: Value, base: seq<Level>)
    requires Ready(s, n, base)
    ensures var t := Step(s, Key(n, false, key, value));
      && t.ids == s.ids + [Id(Tokens(base), n, key)] && t.counters == s.counters
      && t.stack == (if value.Empty? then base + [Level(n, key)] else base)
      && t.block == (if value.BlockScalar? then Some(n) else None)
  {
  }

  /** The line of a mapping item with its first key. */
  lemma ItemKeyStep(s: State, n: nat, key: string, value: Value, base: seq<Level>)
    requires Ready(s, n, base)
    ensures var t := Step(s, Key(n, true, key, value));
      var c := Counted(s.counters, n);
      var inside := base + [Level(n, ItemToken(n, c[n]))];
      && t.ids == s.ids + [Id(Tokens(inside), n + 2, key)] && t.counters == c
      && t.stack == (if value.Empty? then inside + [Level(n + 2, key)] else inside)
      && t.block == (if value.BlockScalar? then Some(n) else None)
  {
  }

  lemma MetAfter(s: State, t: State, u: State, id: Id, below: (seq<Id>, map<nat, nat>), n: nat, base: seq<Level>)
    requires t.ids == s.ids + [id] && Met(t, u, below, n, base)
    ensures Met(s, u, ([id] + below.0, below.1), n, base)
  {
    assert s.ids + [id] + below.0 == s.ids + ([id] + below.0);
  }

  lemma MetCompose(s: State, t: State, u: State, one: (seq<Id>, map<nat, nat>), two: (seq<Id>, map<nat, nat>),
                   n: nat, base: seq<Level>)
    requires Met(s, t, one, n, base) && Met(t, u, two, n, base)
    ensures Met(s, u, (one.0 + two.0, two.1), n, base)
  {
    assert s.ids + one.0 + two.0 == s.ids + (one.0 + two.0);
  }

  lemma {:induction false} MappingRun(s: State, entries: seq<Entry>, n: nat)
    requires entries != []
    ensures var first := Key(n, false, entries[0].key, ValueOf(entries[0].value));
      Run(s, MappingLines(entries, n)) ==
        Run(Run(Step(s, first), ChildLines(entries[0].value, n)), MappingLines(entries[1..], n))
  {
    var first := Key(n, false, entries[0].key, ValueOf(entries[0].value));
    RunOne(s, first);
    RunAppend(s, [first], ChildLines(entries[0].value, n));
    RunAppend(s, [first] + ChildLines(entries[0].value, n), MappingLines(entries[1..], n));
  }

  lemma {:induction false} MappingWalk(entries: seq<Entry>, path: seq<string>, n: nat, c: map<nat, nat>)
    requires entries != []
    ensures var below := WalkChild(entries[0].value, path + [entries[0].key], n, c);
      var rest := WalkMapping(entries[1..], path, n, below.1);
      WalkMapping(entries, path, n, c) == ([Id(path, n, entries[0].key)] + below.0 + rest.0, rest.1)
  {
  }

  lemma {:induction false} MappingMet(s: State, entries: seq<Entry>, n: nat, base: seq<Level>)
    requires Ready(s, n, base)
    ensures Met(s, Run(s, MappingLines(entries, n)), WalkMapping(entries, Tokens(base), n, s.counters), n, base)
    decreases entries, 1
  {
    if entries == [] {
      assert Run(s, []) == s;
    } else {
      var e, first := entries[0], Key(n, false, entries[0].key, ValueOf(entries[0].value));
      KeyStep(s, n, e.key, first.value, base);
      PopSettles(s.stack, n);
      RestMet(s, Step(s, first), entries, n, base);
      MappingRun(s, entries, n);
    }
  }

  /** After the line of its first key, the rest of a mapping. */
  lemma {:induction false} RestMet(s: State, t: State, entries: seq<Entry>, n: nat, base: seq<Level>)
    requires entries != [] && Settled(base, n) && t.ids == s.ids + [Id(Tokens(base), n, entries[0].key)]
    requires t.stack == (if ValueOf(entries[0].value).Empty? then base + [Level(n, entries[0].key)] else base)
    requires t.block == (if entries[0].value.Block? then Some(n) else None)
    ensures Met(s, Run(Run(t, ChildLines(entries[0].value, n)), MappingLines(entries[1..], n)),
                WalkMapping(entries, Tokens(base), n, t.counters), n, base)
    decreases entries, 0
  {
    var e, rest := entries[0], entries[1..];
    EntryMet(t, e.value, e.key, n, base);
    var u := Run(t, ChildLines(e.value, n));
    var id, below := Id(Tokens(base), n, e.key), WalkChild(e.value, Tokens(base) + [e.key], n, t.counters);
    MetAfter(s, t, u, id, below, n, base);
    MappingMet(u, rest, n, base);
    MetCompose(s, u, Run(u, MappingLines(rest, n)), ([id] + below.0, below.1), WalkMapping(rest, Tokens(base), n, below.1), n, base);
    MappingWalk(entries, Tokens(base), n, t.counters);
  }

  /** What stands below one key. */
  lemma {:induction false} EntryMet(t: State, value: Node, key: string, n: nat, base: seq<Level>)
    requires Settled(base, n) && t.stack == (if ValueOf(value).Empty? then base + [Level(n, key)] else base)
    requires t.block == (if value.Block? then Some(n) else None)
    ensures Met(t, Run(t, ChildLines(value, n)), WalkChild(value, Tokens(base) + [key], n, t.counters), n, base)
    decreases value
  {
    SettledPop(base, n);
    match value
    case Scalar(_) =>
      assert Run(t, []) == t;
    case Block(lines) =>
      BlockLinesAreDeeper(lines, n);
      RunSkips(t, BlockLines(lines, n));
    case Mapping(entries) =>
      var inner := base + [Level(n, key)];
      InnerIsReady(t, base, Level(n, key));
      MappingMet(t, entries, n + 2, inner);
      ReadyAbove(Run(t, MappingLines(entries, n + 2)), n, n + 2, inner, base);
    case Sequence(items) =>
      var inner := base + [Level(n, key)];
      InnerIsReady(t, base, Level(n, key));
      ItemsMet(t, items, n + 2, inner);
      ReadyAbove(Run(t, ItemLines(items, n + 2)), n, n + 2, inner, base);
  }

  lemma {:induction false} InnerIsReady(t: State, base: seq<Level>, l: Level)
    requires Settled(base, l.indent) && t.stack == base + [l] && t.block == None
    ensures Ready(t, l.indent + 2, base + [l]) && Settled(base + [l], l.indent + 2)
    ensures Tokens(base + [l]) == Tokens(base) + [l.token]
    ensures Pop(base + [l], l.indent) == base
  {
    SettledPop(base + [l], l.indent + 2);
    SettledPop(base, l.indent);
    assert (base + [l])[..|base|] == base;
    assert (base + [l])[|base|] == l;
  }

  lemma {:induction false} ItemsMet(s: State, items: seq<Node>, n: nat, base: seq<Level>)
    requires Ready(s, n, base) && Settled(base, n)
    ensures Met(s, Run(s, ItemLines(items, n)), WalkItems(items, Tokens(base), n, s.counters), n, base)
    decreases items
  {
    if items == [] {
      assert Run(s, []) == s;
    } else {
      ItemMet(s, items[0], n, base);
      var u := Run(s, ItemLine(items[0], n));
      ItemsMet(u, items[1..], n, base);
      RunAppend(s, ItemLine(items[0], n), ItemLines(items[1..], n));
      MetCompose(s, u, Run(u, ItemLines(items[1..], n)), WalkItem(items[0], Tokens(base), n, s.counters),
                 WalkItems(items[1..], Tokens(base), n, u.counters), n, base);
    }
  }

  lemma {:induction false} ItemMet(s: State, item: Node, n: nat, base: seq<Level>)
    requires Ready(s, n, base) && Settled(base, n)
    ensures Met(s, Run(s, ItemLine(item, n)), WalkItem(item, Tokens(base), n, s.counters), n, base)
    decreases item
  {
    match item
    case Mapping(entries) =>
      if entries == [] { LoneDash(s, n, base); } else { MappingItemMet(s, entries, n, base); }
    case Sequence(inner) =>
      LoneDash(s, n, base);
      var t := Step(s, Other(n));
      RunAppend(s, [Other(n)], ItemLines(inner, n + 2));
      SettledPop(base, n + 2);
      SettledPop(base, n);
      ItemsMet(t, inner, n + 2, base);
      ReadyAbove(Run(t, ItemLines(inner, n + 2)), n, n + 2, base, base);
    case _ =>
      ScalarItem(s, n, base);
  }

  lemma {:induction false} LoneDash(s: State, n: nat, base: seq<Level>)
    requires Ready(s, n, base) && Settled(base, n)
    ensures Run(s, [Other(n)]) == Step(s, Other(n)) && Step(s, Other(n)) == s.(stack := base, block := None)
    ensures Ready(Step(s, Other(n)), n, base) && Ready(Step(s, Other(n)), n + 2, base)
  {
    RunOne(s, Other(n));
    SettledPop(base, n);
    SettledPop(base, n + 2);
  }

  lemma {:induction false} ScalarItem(s: State, n: nat, base: seq<Level>)
    requires Ready(s, n, base) && Settled(base, n)
    ensures Met(s, Run(s, [Dash(n)]), ([], Counted(s.counters, n)), n, base)
  {
    RunOne(s, Dash(n));
    ItemScopes(base, n, ItemToken(n, Counted(s.counters, n)[n]));
    assert s.ids + [] == s.ids;
  }

  lemma {:induction false} ItemRun(s: State, entries: seq<Entry>, n: nat)
    requires entries != []
    ensures var first := Key(n, true, entries[0].key, ValueOf(entries[0].value));
      var rest := ChildLines(entries[0].value, n + 2) + MappingLines(entries[1..], n + 2);
      && Run(s, ItemLine(Mapping(entries), n)) == Run(Step(s, first), rest)
      && Run(Step(s, first), rest) ==
           Run(Run(Step(s, first), ChildLines(entries[0].value, n + 2)), MappingLines(entries[1..], n + 2))
  {
    var first := Key(n, true, entries[0].key, ValueOf(entries[0].value));
    var rest := ChildLines(entries[0].value, n + 2) + MappingLines(entries[1..], n + 2);
    RunOne(s, first);
    RunAppend(s, [first], rest);
    RunAppend(Step(s, first), ChildLines(entries[0].value, n + 2), MappingLines(entries[1..], n + 2));
    assert ItemLine(Mapping(entries), n) == [first] + rest;
  }

  /** The scopes of an item, and back out of them. */
  lemma ItemScopes(base: seq<Level>, n: nat, token: string)
    requires Settled(base, n)
    ensures Tokens(base + [Level(n, token)]) == Tokens(base) + [token]
    ensures Pop(base + [Level(n, token)], n) == base && Settled(base + [Level(n, token)], n + 2)
  {
    var l := Level(n, token);
    assert (base + [l])[..|base|] == base && (base + [l])[|base|] == l;
    SettledPop(base, n);
  }

  /** The first key of an item has a block scalar: the rest is skipped. */
  lemma {:induction false} HiddenItemMet(s: State, entries: seq<Entry>, n: nat, base: seq<Level>)
    requires entries != [] && entries[0].value.Block? && Ready(s, n, base) && Settled(base, n)
    ensures Met(s, Run(s, ItemLine(Mapping(entries), n)), WalkItem(Mapping(entries), Tokens(base), n, s.counters), n, base)
  {
    var e := entries[0];
    var first := Key(n, true, e.key, BlockScalar);
    var token := ItemToken(n, Counted(s.counters, n)[n]);
    var rest := ChildLines(e.value, n + 2) + MappingLines(entries[1..], n + 2);
    ItemRun(s, entries, n);
    ItemKeyStep(s, n, e.key, BlockScalar, base);
    ItemScopes(base, n, token);
    ChildIsDeeper(e.value, n + 2, n);
    MappingIsDeeper(entries[1..], n + 2, n);
    DeeperAppend(ChildLines(e.value, n + 2), MappingLines(entries[1..], n + 2), n);
    RunSkips(Step(s, first), rest);
  }

  lemma {:induction false} ItemWalk(entries: seq<Entry>, path: seq<string>, n: nat, c: map<nat, nat>)
    requires entries != [] && !entries[0].value.Block?
    ensures WalkItem(Mapping(entries), path, n, c) ==
      WalkMapping(entries, path + [ItemToken(n, Counted(c, n)[n])], n + 2, Counted(c, n))
  {
  }

  /** Otherwise the item is a mapping like any other, inside its own scope. */
  lemma {:induction false} MappingItemMet(s: State, entries: seq<Entry>, n: nat, base: seq<Level>)
    requires entries != [] && Ready(s, n, base) && Settled(base, n)
    ensures Met(s, Run(s, ItemLine(Mapping(entries), n)), WalkItem(Mapping(entries), Tokens(base), n, s.counters), n, base)
    decreases entries, 2
  {
    var e := entries[0];
    if e.value.Block? {
      HiddenItemMet(s, entries, n, base);
    } else {
      var first := Key(n, true, e.key, ValueOf(e.value));
      var inside := base + [Level(n, ItemToken(n, Counted(s.counters, n)[n]))];
      ItemKeyStep(s, n, e.key, first.value, base);
      ItemScopes(base, n, ItemToken(n, Counted(s.counters, n)[n]));
      RestMet(s, Step(s, first), entries, n + 2, inside);
      ItemRun(s, entries, n);
      ItemWalk(entries, Tokens(base), n, s.counters);
      ReadyAbove(Run(s, ItemLine(Mapping(entries), n)), n, n + 2, inside, base);
    }
  }

  /** On a printed root mapping the machine meets exactly the identities of the tree. */
  lemma {:induction false} TreeMet(entries: seq<Entry>)
    ensures Run(Start, MappingLines(entries, 0)).ids == WalkMapping(entries, [], 0, map[]).0
  {
    MappingMet(Start, entries, 0, []);
    assert Tokens([]) == [];
    assert [] + WalkMapping(entries, [], 0, map[]).0 == WalkMapping(entries, [], 0, map[]).0;
  }
}
