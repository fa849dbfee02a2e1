/** Lines, fields, numbers and tokens of a text log, as Python's str methods see them. */
module LogText {
  import opened Common

  // --------------------------------------------------------------- fields of a line

  /** str.split(" "). */
  function Fields(s: string): (fields: seq<string>)
    ensures fields != []
  {
    if s == "" then [""]
    else if s[0] == ' ' then [""] + Fields(s[1..])
    else
      var rest := Fields(s[1..]);
      [[s[0]] + rest[0]] + rest[1..]
  }

  function JoinFields(fields: seq<string>): string
    requires fields != []
  {
    if |fields| == 1 then fields[0] else fields[0] + " " + JoinFields(fields[1..])
  }

  lemma {:induction false} FirstField(f: string, rest: string)
    requires ' ' !in f
    ensures Fields(f + " " + rest) == [f] + Fields(rest)
    ensures Fields(f) == [f]
  {
    if f == "" {
      assert (f + " " + rest)[1..] == rest;
    } else {
      FirstField(f[1..], rest);
      assert (f + " " + rest)[1..] == f[1..] + " " + rest;
      assert [f[0]] + f[1..] == f;
    }
  }

  lemma {:induction false} FieldsRoundTrip(fields: seq<string>)
    requires fields != [] && forall i :: 0 <= i < |fields| ==> ' ' !in fields[i]
    ensures Fields(JoinFields(fields)) == fields
  {
    if |fields| == 1 {
      FirstField(fields[0], "");
      assert fields == [fields[0]];
    } else {
      FieldsRoundTrip(fields[1..]);
      FirstField(fields[0], JoinFields(fields[1..]));
    }
  }

  // ------------------------------------------------------------------------ numbers

  predicate IsDigit(c: char)
  {
    '0' <= c <= '9'
  }

  predicate AllDigits(s: string)
  {
    s != "" && forall i :: 0 <= i < |s| ==> IsDigit(s[i])
  }

  function Digits(n: nat): (s: string)
    ensures AllDigits(s)
  {
    if n < 10 then [(48 + n) as char] else Digits(n / 10) + [(48 + n % 10) as char]
  }

  function ParseNat(s: string): nat
    requires AllDigits(s)
  {
    if |s| == 1 then s[0] as int - 48 else 10 * ParseNat(s[..|s| - 1]) + (s[|s| - 1] as int - 48)
  }

  lemma {:induction false} NatRoundTrip(n: nat)
    ensures ParseNat(Digits(n)) == n
  {
    if n >= 10 {
      NatRoundTrip(n / 10);
      var s := Digits(n);
      assert s[..|s| - 1] == Digits(n / 10);
    }
  }

  // -------------------------------------------------------------------------- lines

  predicate IsBoundary(c: char)
  {
    c == '\n' || c == '\r' || '\U{0b}' <= c <= '\U{0c}' || '\U{1c}' <= c <= '\U{1e}' || c == '\U{85}' ||
    c == '\U{2028}' || c == '\U{2029}'
  }

  /** The characters that end a line. */
  const LINE_BREAKS: set<char> :=
    {'\n', '\r', '\U{0b}', '\U{0c}', '\U{1c}', '\U{1d}', '\U{1e}', '\U{85}', '\U{2028}', '\U{2029}'}

  predicate OneLine(s: string)
  {
    forall i :: 0 <= i < |s| ==> s[i] !in LINE_BREAKS
  }

  /** The text up to the first boundary, and the text after it. */
  function TakeLine(s: string): (r: (string, string))
    ensures s != "" ==> |r.1| < |s|
  {
    if s == "" then ("", "")
    else if s[0] == '\r' && |s| > 1 && s[1] == '\n' then ("", s[2..])
    else if IsBoundary(s[0]) then ("", s[1..])
    else
      var (line, rest) := TakeLine(s[1..]);
      ([s[0]] + line, rest)
  }

  /** str.splitlines(). */
  function SplitLines(s: string): seq<string>
    decreases |s|
  {
    if s == "" then []
    else
      var (line, rest) := TakeLine(s);
      [line] + SplitLines(rest)
  }

  /** Every line with what ends it. */
  function Ended(lines: seq<string>, ends: seq<string>): string
    requires |lines| == |ends|
  {
    if lines == [] then "" else lines[0] + ends[0] + Ended(lines[1..], ends[1..])
  }

  /** A line break: one of the characters, or a carriage return with a line feed. */
  predicate EndsLine(end: string)
  {
    end == "\r\n" || (|end| == 1 && end[0] in LINE_BREAKS)
  }

  /** A carriage return alone does not stand before an empty line with a line feed. */
  predicate Apart(lines: seq<string>, ends: seq<string>)
    requires |lines| == |ends|
  {
    forall i, j {:trigger ends[i], lines[j]} :: 0 <= i && j == i + 1 < |lines| && ends[i] == "\r" && lines[j] == "" ==>
      ends[j] != "\n"
  }

  lemma {:induction false} TakeEndedLine(line: string, end: string, rest: string)
    requires OneLine(line) && EndsLine(end) && (end == "\r" && rest != "" ==> rest[0] != '\n')
    ensures TakeLine(line + end + rest) == (line, rest)
  {
    var s := line + end + rest;
    if line == "" {
      assert s == end + rest && s[|end|..] == rest;
    } else {
      assert s[0] == line[0];
      assert s[1..] == line[1..] + end + rest;
      TakeEndedLine(line[1..], end, rest);
      assert [line[0]] + line[1..] == line;
    }
  }

  lemma {:induction false} EndedStart(lines: seq<string>, ends: seq<string>)
    requires |lines| == |ends| && lines != [] && OneLine(lines[0]) && EndsLine(ends[0])
    ensures Ended(lines, ends) != "" && (Ended(lines, ends)[0] == '\n' ==> lines[0] == "" && ends[0] == "\n")
  {
    var s := lines[0] + ends[0] + Ended(lines[1..], ends[1..]);
    if lines[0] == "" {
      assert s[0] == ends[0][0];
      assert ends[0][0] == '\n' ==> ends[0] == "\n";
    } else {
      assert s[0] == lines[0][0];
    }
  }

  /** A text is split at every line break, of whatever kind, and nowhere else. */
  lemma {:induction false} LinesAreSplit(lines: seq<string>, ends: seq<string>)
    requires |lines| == |ends| && (forall i :: 0 <= i < |lines| ==> OneLine(lines[i]) && EndsLine(ends[i])) && Apart(lines, ends)
    ensures SplitLines(Ended(lines, ends)) == lines
  {
    if lines != [] {
      var rest := Ended(lines[1..], ends[1..]);
      if |lines| > 1 {
        EndedStart(lines[1..], ends[1..]);
      }
      EndedStart(lines, ends);
      TakeEndedLine(lines[0], ends[0], rest);
      LinesAreSplit(lines[1..], ends[1..]);
      assert lines == [lines[0]] + lines[1..];
    }
  }

  /** Every line with its line feed. */
  function JoinLines(lines: seq<string>): string
  {
    if lines == [] then "" else lines[0] + "\n" + JoinLines(lines[1..])
  }

  lemma {:induction false} TakeFirstLine(line: string, rest: string)
    requires OneLine(line)
    ensures TakeLine(line + "\n" + rest) == (line, rest)
  {
    var s := line + "\n" + rest;
    if line == "" {
      assert s[0] == '\n' && s[1..] == rest;
    } else {
      assert s[0] == line[0] && !IsBoundary(line[0]);
      assert s[1..] == line[1..] + "\n" + rest;
      TakeFirstLine(line[1..], rest);
      assert [line[0]] + line[1..] == line;
    }
  }

  lemma {:induction false} LinesRoundTrip(lines: seq<string>)
    requires forall i :: 0 <= i < |lines| ==> OneLine(lines[i])
    ensures SplitLines(JoinLines(lines)) == lines
  {
    if lines != [] {
      TakeFirstLine(lines[0], JoinLines(lines[1..]));
      LinesRoundTrip(lines[1..]);
      assert JoinLines(lines) != "" by { assert |JoinLines(lines)| >= 1; }
      assert lines == [lines[0]] + lines[1..];
    }
  }

  // ------------------------------------------------------------------------- tokens

  const RESERVED := "TRNM_LOG_ARTIFACT_"

  predicate OccursAt(s: string, i: int)
  {
    0 <= i <= |s| - 18 && s[i..i + 18] == RESERVED
  }

  predicate HasToken(s: string)
  {
    exists i :: 0 <= i < |s| && OccursAt(s, i)
  }

  /** str.count(RESERVED) == 1 for a text that starts with the token; occurrences
      of this token cannot overlap. */
  predicate TokenOnlyFirst(s: string)
  {
    forall i :: 1 <= i < |s| ==> !OccursAt(s, i)
  }

  lemma OccurrenceChars(s: string, i: int)
    requires OccursAt(s, i)
    ensures s[i] == 'T' && s[i + 4] == '_' && forall k :: i <= k < i + 18 ==> s[k] == '_' || 'A' <= s[k] <= 'Z'
  {
    var t := s[i..i + 18];
    assert |RESERVED| == 18;
    assert t[0] == 'T' && t[4] == '_';
    forall k | i <= k < i + 18 ensures s[k] == '_' || 'A' <= s[k] <= 'Z' {
      assert t[k - i] == s[k];
    }
  }

  /** The token lies on one side of a character that it does not have. */
  lemma OccursOnOneSide(a: string, sep: char, b: string, i: int)
    requires sep != '_' && !('A' <= sep <= 'Z') && OccursAt(a + [sep] + b, i)
    ensures OccursAt(a, i) || (i > |a| && OccursAt(b, i - |a| - 1))
  {
    var s := a + [sep] + b;
    OccurrenceChars(s, i);
    assert s[|a|] == sep;
    if i <= |a| - 18 {
      assert s[i..i + 18] == a[i..i + 18];
    } else {
      assert s[i..i + 18] == b[i - |a| - 1..i - |a| - 1 + 18];
    }
  }

  lemma NoTokenWithout(s: string)
    requires 'T' !in s || '_' !in s
    ensures !HasToken(s)
  {
    if i :| 0 <= i < |s| && OccursAt(s, i) {
      OccurrenceChars(s, i);
    }
  }

  lemma JoinHasNoToken(a: string, sep: char, b: string)
    requires sep != '_' && !('A' <= sep <= 'Z') && !HasToken(a) && !HasToken(b)
    ensures !HasToken(a + [sep] + b)
  {
    if i :| 0 <= i < |a + [sep] + b| && OccursAt(a + [sep] + b, i) {
      OccursOnOneSide(a, sep, b, i);
    }
  }

  lemma JoinKeepsTokenFirst(a: string, sep: char, b: string)
    requires sep != '_' && !('A' <= sep <= 'Z') && TokenOnlyFirst(a) && !HasToken(b)
    ensures TokenOnlyFirst(a + [sep] + b)
  {
    forall i | 1 <= i < |a + [sep] + b| ensures !OccursAt(a + [sep] + b, i) {
      if OccursAt(a + [sep] + b, i) {
        OccursOnOneSide(a, sep, b, i);
      }
    }
  }

  lemma SuffixToken(a: string, b: string)
    requires HasToken(b)
    ensures HasToken(a + b)
  {
    var i :| 0 <= i < |b| && OccursAt(b, i);
    assert (a + b)[|a| + i..|a| + i + 18] == b[i..i + 18];
    assert OccursAt(a + b, |a| + i);
  }
}
