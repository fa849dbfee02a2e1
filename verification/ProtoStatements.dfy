/** What becomes of one Proto statement: it is read exactly if it has the shape of a
    field or of an enum value, and otherwise it is kept whole for a human
    (scripts/generate-api-rtapi-denominator.py). */
module ProtoStatements {
  import opened Common
  import opened ProtoLexer
  import opened ProtoParser

  // ------------------------------------------------------------------------- fields

  function LabelPart(fieldLabel: Option<string>): seq<string>
  {
    if fieldLabel.Some? then [fieldLabel.value] else []
  }

  /** The words of a field: an optional label, a type, a name, and after the first
      equals sign a number; anything may follow before the semicolon. */
  predicate FieldShape(values: seq<string>, fieldLabel: Option<string>, typ: seq<string>, name: string, number: string,
                       tail: seq<string>)
  {
    && values == LabelPart(fieldLabel) + typ + [name, "=", number] + tail + [";"]
    && typ != [] && "=" !in LabelPart(fieldLabel) + typ + [name]
    && (fieldLabel.Some? ==> fieldLabel.value in LABELS) && (fieldLabel.None? ==> typ[0] !in LABELS)
    && ParseInt(number).Some?
  }

  lemma {:induction false} FirstEquals(values: seq<string>, k: nat)
    requires k < |values| && values[k] == "=" && "=" !in values[..k]
    ensures IndexOf(values, "=") == k
  {
    if k > 0 {
      assert values[0] in values[..k];
      assert values[1..][..k - 1] == values[..k][1..];
      FirstEquals(values[1..], k - 1);
    }
  }

  /** The item that a statement of this shape is. */
  function ShapedField(stmt: seq<Token>, fieldLabel: Option<string>, typ: seq<string>, name: string, number: string,
                       message: string, oneof: Option<string>): Item
    requires stmt != [] && ParseInt(number).Some?
  {
    FieldItem(message + "." + name, JoinType(typ), ParseInt(number).value, fieldLabel, oneof, stmt[0].line,
              stmt[|stmt| - 1].line)
  }

  /** The words before the name and the name, and where the equals sign is. */
  predicate FieldCut(values: seq<string>, before: seq<string>, name: string, number: string, tail: seq<string>)
  {
    values == before + [name, "=", number] + tail && "=" !in before + [name]
  }

  lemma {:induction false} CutIsFound(values: seq<string>, before: seq<string>, name: string, number: string, tail: seq<string>)
    requires FieldCut(values, before, name, number, tail)
    ensures var k := IndexOf(values, "=");
      k == |before| + 1 && k + 1 < |values| && values[..k - 1] == before && values[k - 1] == name && values[k + 1] == number
  {
    var k := |before| + 1;
    assert values[..k] == before + [name];
    FirstEquals(values, k);
    assert values[..k - 1] == before;
  }

  lemma {:induction false} CutIsMade(values: seq<string>, k: nat) returns (before: seq<string>, name: string, number: string, tail: seq<string>)
    requires k == IndexOf(values, "=") && 0 < k && k + 1 < |values|
    ensures before == values[..k - 1] && name == values[k - 1] && number == values[k + 1]
    ensures FieldCut(values, before, name, number, tail)
  {
    before, name, number, tail := values[..k - 1], values[k - 1], values[k + 1], values[k + 2..];
    assert values == before + [name, "=", number] + tail;
    assert before + [name] == values[..k];
  }

  lemma {:induction false} LabelSplits(before: seq<string>, fieldLabel: Option<string>, typ: seq<string>)
    requires typ != [] && (fieldLabel.Some? ==> fieldLabel.value in LABELS) && (fieldLabel.None? ==> typ[0] !in LABELS)
    requires before == LabelPart(fieldLabel) + typ
    ensures before != [] && (before[0] in LABELS <==> fieldLabel.Some?)
    ensures (if before[0] in LABELS then before[1..] else before) == typ
    ensures before[0] in LABELS ==> fieldLabel == Some(before[0])
  {
  }

  /** The words of a statement without its semicolon. */
  lemma {:induction false} WithoutSemicolon(stmt: seq<Token>, inner: seq<string>)
    requires Values(stmt) == inner + [";"]
    ensures stmt != [] && stmt[|stmt| - 1].value == ";" && Values(stmt[..|stmt| - 1]) == inner
  {
    assert Values(stmt)[|stmt| - 1] == ";";
    assert Values(stmt[..|stmt| - 1]) == Values(stmt)[..|stmt| - 1];
  }

  lemma {:induction false} ShapeIsRead(stmt: seq<Token>, message: string, oneof: Option<string>, fieldLabel: Option<string>,
                                       typ: seq<string>, name: string, number: string, tail: seq<string>)
    requires FieldShape(Values(stmt), fieldLabel, typ, name, number, tail)
    ensures stmt != [] &&
      FieldOf(stmt, message, oneof) == Some(ShapedField(stmt, fieldLabel, typ, name, number, message, oneof))
  {
    var before := LabelPart(fieldLabel) + typ;
    var inner := before + [name, "=", number] + tail;
    WithoutSemicolon(stmt, inner);
    CutIsFound(inner, before, name, number, tail);
    LabelSplits(before, fieldLabel, typ);
  }

  lemma {:induction false} ReadHasShape(stmt: seq<Token>, message: string, oneof: Option<string>)
    returns (fieldLabel: Option<string>, typ: seq<string>, name: string, number: string, tail: seq<string>)
    requires FieldOf(stmt, message, oneof).Some?
    ensures FieldShape(Values(stmt), fieldLabel, typ, name, number, tail)
  {
    var inner := Values(stmt[..|stmt| - 1]);
    var before;
    before, name, number, tail := CutIsMade(inner, IndexOf(inner, "="));
    assert Values(stmt) == inner + [";"];
    if before[0] in LABELS {
      fieldLabel, typ := Some(before[0]), before[1..];
      assert before == LabelPart(fieldLabel) + typ;
    } else {
      fieldLabel, typ := None, before;
      assert before == LabelPart(fieldLabel) + typ;
    }
  }

  /** A statement is read as a field exactly if its words have that shape. */
  lemma {:induction false} FieldIsExact(stmt: seq<Token>, message: string, oneof: Option<string>, item: Item)
    ensures FieldOf(stmt, message, oneof) == Some(item) <==>
      exists fieldLabel, typ, name, number, tail :: FieldShape(Values(stmt), fieldLabel, typ, name, number, tail) && stmt != [] &&
        item == ShapedField(stmt, fieldLabel, typ, name, number, message, oneof)
  {
    if FieldOf(stmt, message, oneof) == Some(item) {
      var fieldLabel, typ, name, number, tail := ReadHasShape(stmt, message, oneof);
      ShapeIsRead(stmt, message, oneof, fieldLabel, typ, name, number, tail);
    }
    if fieldLabel, typ, name, number, tail :|
         FieldShape(Values(stmt), fieldLabel, typ, name, number, tail) && stmt != [] &&
         item == ShapedField(stmt, fieldLabel, typ, name, number, message, oneof) {
      ShapeIsRead(stmt, message, oneof, fieldLabel, typ, name, number, tail);
    }
  }

  // ------------------------------------------------------------ nothing is dropped

  /** A statement becomes one item, or it is kept with its place and all its words. */
  lemma StatementIsKept(ts: seq<Token>, st: State, message: string, oneof: Option<string>)
    requires st.i < |ts| && ts[st.i].value != "}"
    ensures var next := AfterStatement(ts, st, message, oneof);
      var stmt := ts[st.i..next.i];
      && stmt != [] && next.package == st.package
      && match FieldOf(stmt, message, oneof)
         case Some(item) => next.items == st.items + [item] && next.manual == st.manual
         case None =>
           && next.items == st.items && |next.manual| == |st.manual| + 1 && next.manual[..|st.manual|] == st.manual
           && var kept := next.manual[|st.manual|];
           && kept.values == Values(stmt) && kept.start == stmt[0].line && kept.end == stmt[|stmt| - 1].line
           && kept.kind == (if oneof.None? then "message_statement" else "oneof_statement")
           && kept.symbol == (if oneof.None? then message else message + "." + oneof.value)
  {
  }

  /** The words of an enum value: a name, and after the first equals sign a number. */
  predicate ValueShape(values: seq<string>, number: string)
  {
    var k := IndexOf(values, "=");
    k + 1 < |values| && values[k + 1] == number && ParseInt(number).Some?
  }

  /** The same of a statement of an enum. */
  lemma {:induction false} EnumStatementIsKept(ts: seq<Token>, st: State, full: string)
    requires st.i < |ts| && ts[st.i].value != "}"
    ensures var next := AfterEnumStatement(ts, st, full);
      var stmt := ts[st.i..next.i];
      && stmt != [] && next.package == st.package
      && (if exists number :: ValueShape(Values(stmt), number) then
            && next.manual == st.manual && |next.items| == |st.items| + 1 && next.items[..|st.items|] == st.items
            && next.items[|st.items|].EnumValueItem?
            && next.items[|st.items|].symbol == full + "." + stmt[0].value
            && (forall number :: ValueShape(Values(stmt), number) ==>
                  ParseInt(number) == Some(next.items[|st.items|].number))
            && next.items[|st.items|].start == stmt[0].line && next.items[|st.items|].end == stmt[|stmt| - 1].line
          else
            && next.items == st.items && next.manual == st.manual + [Manual("enum_statement", full, stmt[0].line,
                                                                            stmt[|stmt| - 1].line, Values(stmt))])
  {
    var end := StatementEnd(ts, st.i, Flat);
    var stmt := ts[st.i..end];
    var values := Values(stmt);
    var k := IndexOf(values, "=");
    if k + 1 < |values| && ParseInt(values[k + 1]).Some? {
      assert ValueShape(values, values[k + 1]);
    }
  }

  // ------------------------------------------------------------------------ numbers

  const DIGITS := "0123456789abcdef"

  /** The digits of n in this base, the most significant first. */
  function DigitsIn(n: nat, base: nat): string
    requires 2 <= base <= 16
    decreases n
  {
    if n < base then [DIGITS[n]] else DigitsIn(n / base, base) + [DIGITS[n % base]]
  }

  lemma DigitIsValue(d: nat)
    requires d < 16
    ensures DigitValue(DIGITS[d]) == d
  {
    if d < 8 {
    } else {
    }
  }

  /** The text is a number of this base and value; no text at all has the value 0. */
  predicate Reads(s: string, base: nat, n: nat)
  {
    (s == "" || Digital(s, base)) && NumberOf(s, base) == n
  }

  lemma {:induction false} OneMoreDigit(s: string, c: char, base: nat, q: nat, n: nat)
    requires DigitValue(c) < base && Reads(s, base, q) && n == q * base + DigitValue(c)
    ensures Reads(s + [c], base, n)
  {
    assert (s + [c])[..|s|] == s;
  }

  lemma Whole(n: nat, base: nat, q: nat, d: nat)
    requires 2 <= base && q == n / base && d == n % base
    ensures q * base + d == n && (n >= base ==> q < n) && d < base
  {
  }

  lemma {:induction false} LastDigit(n: nat, base: nat, q: nat, d: nat)
    requires 2 <= base <= 16 && q == n / base && d == n % base && d < 16
    ensures DigitsIn(n, base) == (if n < base then "" else DigitsIn(q, base)) + [DIGITS[d]]
  {
    if n < base {
      assert "" + [DIGITS[d]] == [DIGITS[d]];
    }
  }

  lemma {:induction false} DigitsComeBack(n: nat, base: nat)
    requires 2 <= base <= 16
    ensures Reads(DigitsIn(n, base), base, n) && DigitsIn(n, base) != ""
    decreases n
  {
    var q, d := n / base, n % base;
    Whole(n, base, q, d);
    DigitIsValue(d);
    LastDigit(n, base, q, d);
    if n < base {
      OneMoreDigit("", DIGITS[d], base, 0, n);
    } else {
      DigitsComeBack(q, base);
      OneMoreDigit(DigitsIn(q, base), DIGITS[d], base, q, n);
    }
  }

  /** A number with a prefix is read in the base that the prefix names. */
  lemma {:induction false} PrefixedIsRead(prefix: string, s: string, base: nat, n: nat)
    requires Digital(s, base) && NumberOf(s, base) == n
    requires (prefix in {"0x", "0X"} && base == 16) || (prefix in {"0o", "0O"} && base == 8) || (prefix in {"0b", "0B"} && base == 2)
    ensures ParseInt(prefix + s) == Some(n)
  {
    assert (prefix + s)[2..] == s && (prefix + s)[0] == prefix[0] && (prefix + s)[1] == prefix[1];
  }

  lemma {:induction false} NumbersAreRead(n: nat, prefix: string)
    ensures prefix in {"0x", "0X"} ==> ParseInt(prefix + DigitsIn(n, 16)) == Some(n)
    ensures prefix in {"0o", "0O"} ==> ParseInt(prefix + DigitsIn(n, 8)) == Some(n)
    ensures prefix in {"0b", "0B"} ==> ParseInt(prefix + DigitsIn(n, 2)) == Some(n)
    ensures ParseInt(DigitsIn(n, 10)) == Some(n)
  {
    var base := if prefix in {"0x", "0X"} then 16 else if prefix in {"0o", "0O"} then 8 else 2;
    DigitsComeBack(n, base);
    if prefix in {"0x", "0X", "0o", "0O", "0b", "0B"} {
      PrefixedIsRead(prefix, DigitsIn(n, base), base, n);
    }
    DigitsComeBack(n, 10);
    DecimalIsRead(n, DigitsIn(n, 10));
  }

  lemma {:induction false} DecimalIsRead(n: nat, s: string)
    requires s == DigitsIn(n, 10) && Digital(s, 10) && NumberOf(s, 10) == n
    ensures ParseInt(s) == Some(n)
  {
    LeadingDigit(n);
    assert |s| > 1 ==> '0' <= s[1] <= '9';
  }

  lemma {:induction false} LeadingDigit(n: nat)
    ensures n > 0 ==> DigitsIn(n, 10)[0] != '0'
    ensures n == 0 ==> DigitsIn(n, 10) == "0"
    ensures forall k :: 0 <= k < |DigitsIn(n, 10)| ==> '0' <= DigitsIn(n, 10)[k] <= '9'
  {
    DecimalDigit(n % 10);
    if n >= 10 {
      LeadingDigit(n / 10);
    }
  }

  lemma DecimalDigit(d: nat)
    requires d < 10
    ensures '0' <= DIGITS[d] <= '9' && (d > 0 ==> DIGITS[d] != '0')
  {
  }
}
