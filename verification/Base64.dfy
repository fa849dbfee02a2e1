/** Base64 with padding (section 4 of RFC 4648), decoded the way Python's
    validating decoder does: the alphabet and the padding are checked, the unused
    bits of the last quantum (section 3.5 of RFC 4648) are not. */
module Base64 {
  import opened Common

  type Byte = b: int | 0 <= b < 256
  type Sextet = v: int | 0 <= v < 64

  // ---------------------------------------------------------------- the alphabet

  function CharOf(v: Sextet): char
  {
    if v < 26 then (65 + v) as char
    else if v < 52 then (71 + v) as char
    else if v < 62 then (v - 4) as char
    else if v == 62 then '+' else '/'
  }

  /** Table 1 of RFC 4648: the capital letters, the small ones, the digits, and two signs. */
  lemma AlphabetIsStandard(v: Sextet)
    ensures v < 26 ==> CharOf(v) as int - 'A' as int == v
    ensures 26 <= v < 52 ==> CharOf(v) as int - 'a' as int == v - 26
    ensures 52 <= v < 62 ==> CharOf(v) as int - '0' as int == v - 52
    ensures CharOf(62) == '+' && CharOf(63) == '/'
  {
  }

  predicate InAlphabet(c: char)
  {
    'A' <= c <= 'Z' || 'a' <= c <= 'z' || '0' <= c <= '9' || c == '+' || c == '/'
  }

  function ValueOf(c: char): Sextet
    requires InAlphabet(c)
  {
    if 'A' <= c <= 'Z' then c as int - 65
    else if 'a' <= c <= 'z' then c as int - 71
    else if '0' <= c <= '9' then c as int + 4
    else if c == '+' then 62 else 63
  }

  lemma CharRoundTrip(v: Sextet)
    ensures InAlphabet(CharOf(v)) && ValueOf(CharOf(v)) == v
  {
  }

  lemma ValueRoundTrip(c: char)
    requires InAlphabet(c)
    ensures CharOf(ValueOf(c)) == c
  {
  }

  // ------------------------------------------------------------------ one quantum

  /** Three bytes as four sextets; the bits run from the most significant. */
  function First(x: Byte): Sextet { x / 4 }
  function Second(x: Byte, y: Byte): Sextet { x % 4 * 16 + y / 16 }
  function Third(y: Byte, z: Byte): Sextet { y % 16 * 4 + z / 64 }
  function Fourth(z: Byte): Sextet { z % 64 }

  function High(a: Sextet, b: Sextet): Byte { a * 4 + b / 16 }
  function Middle(b: Sextet, c: Sextet): Byte { b % 16 * 16 + c / 4 }
  function Low(c: Sextet, d: Sextet): Byte { c % 4 * 64 + d }

  lemma BytesRoundTrip(x: Byte, y: Byte, z: Byte)
    ensures High(First(x), Second(x, y)) == x
    ensures Middle(Second(x, y), Third(y, z)) == y
    ensures Low(Third(y, z), Fourth(z)) == z
  {
  }

  lemma SextetsRoundTrip(a: Sextet, b: Sextet, c: Sextet, d: Sextet)
    ensures First(High(a, b)) == a
    ensures Second(High(a, b), Middle(b, c)) == b
    ensures Third(Middle(b, c), Low(c, d)) == c
    ensures Fourth(Low(c, d)) == d
    ensures Second(High(a, b), 0) == b / 16 * 16
    ensures Third(Middle(b, c), 0) == c / 4 * 4
  {
  }

  /** The four sextets are the digits of the 24-bit number that the bytes write. */
  lemma SextetsAreDigits(x: Byte, y: Byte, z: Byte)
    ensures 65536 * x + 256 * y + z == 262144 * First(x) + 4096 * Second(x, y) + 64 * Third(y, z) + Fourth(z)
  {
  }

  function Quantum(x: Byte, y: Byte, z: Byte): string
  {
    [CharOf(First(x)), CharOf(Second(x, y)), CharOf(Third(y, z)), CharOf(Fourth(z))]
  }

  function QuantumOfTwo(x: Byte, y: Byte): string
  {
    [CharOf(First(x)), CharOf(Second(x, y)), CharOf(Third(y, 0)), '=']
  }

  function QuantumOfOne(x: Byte): string
  {
    [CharOf(First(x)), CharOf(Second(x, 0)), '=', '=']
  }

  // ------------------------------------------------------------------- whole texts

  function Encode(data: seq<Byte>): string
  {
    if data == [] then ""
    else if |data| == 1 then QuantumOfOne(data[0])
    else if |data| == 2 then QuantumOfTwo(data[0], data[1])
    else Quantum(data[0], data[1], data[2]) + Encode(data[3..])
  }

  /** A last quantum of one or two bytes, or one of three. */
  function DecodeQuantum(s: string, last: bool): Option<seq<Byte>>
    requires |s| == 4
  {
    if !InAlphabet(s[0]) || !InAlphabet(s[1]) then None
    else
      var a, b := ValueOf(s[0]), ValueOf(s[1]);
      if last && s[2] == '=' && s[3] == '=' then Some([High(a, b)])
      else if !InAlphabet(s[2]) then None
      else
        var c := ValueOf(s[2]);
        if last && s[3] == '=' then Some([High(a, b), Middle(b, c)])
        else if !InAlphabet(s[3]) then None
        else Some([High(a, b), Middle(b, c), Low(c, ValueOf(s[3]))])
  }

  function Decode(s: string): Option<seq<Byte>>
  {
    if s == "" then Some([])
    else if |s| < 4 then None
    else
      match DecodeQuantum(s[..4], |s| == 4)
      case None => None
      case Some(bytes) =>
        match Decode(s[4..])
        case None => None
        case Some(rest) => Some(bytes + rest)
  }

  lemma {:induction false} EncodeLength(data: seq<Byte>)
    ensures |Encode(data)| == (|data| + 2) / 3 * 4
  {
    if |data| >= 3 {
      EncodeLength(data[3..]);
      assert (|data| + 2) / 3 == (|data| - 3 + 2) / 3 + 1;
      EncodeLong(data);
    } else {
      EncodeShort(data);
    }
  }

  lemma {:induction false} EncodeLong(data: seq<Byte>)
    requires |data| >= 3
    ensures Encode(data) == Quantum(data[0], data[1], data[2]) + Encode(data[3..])
  {
  }

  lemma {:induction false} EncodeShort(data: seq<Byte>)
    requires |data| <= 2
    ensures |data| == 0 ==> Encode(data) == ""
    ensures |data| == 1 ==> Encode(data) == QuantumOfOne(data[0])
    ensures |data| == 2 ==> Encode(data) == QuantumOfTwo(data[0], data[1])
  {
  }

  predicate Base64Char(c: char)
  {
    InAlphabet(c) || c == '='
  }

  lemma CharIsBase64(v: Sextet)
    ensures Base64Char(CharOf(v)) && CharOf(v) != '='
  {
  }

  lemma QuantumIsBase64(x: Byte, y: Byte, z: Byte)
    ensures forall i :: 0 <= i < 4 ==> Base64Char(Quantum(x, y, z)[i])
  {
    CharIsBase64(First(x));
    CharIsBase64(Second(x, y));
    CharIsBase64(Third(y, z));
    CharIsBase64(Fourth(z));
  }

  lemma {:induction false} EncodeAlphabet(data: seq<Byte>)
    ensures forall i :: 0 <= i < |Encode(data)| ==> Base64Char(Encode(data)[i])
  {
    if |data| == 1 {
      CharIsBase64(First(data[0]));
      CharIsBase64(Second(data[0], 0));
    } else if |data| == 2 {
      CharIsBase64(First(data[0]));
      CharIsBase64(Second(data[0], data[1]));
      CharIsBase64(Third(data[1], 0));
    } else if |data| >= 3 {
      QuantumIsBase64(data[0], data[1], data[2]);
      EncodeAlphabet(data[3..]);
    }
  }

  /** Reading back four, three, and two sextets. */
  lemma CharsDecode(a: Sextet, b: Sextet, c: Sextet, d: Sextet, last: bool)
    ensures DecodeQuantum([CharOf(a), CharOf(b), CharOf(c), CharOf(d)], last) == Some([High(a, b), Middle(b, c), Low(c, d)])
    ensures DecodeQuantum([CharOf(a), CharOf(b), CharOf(c), '='], true) == Some([High(a, b), Middle(b, c)])
  {
    CharRoundTrip(a);
    CharRoundTrip(b);
    CharRoundTrip(c);
    CharRoundTrip(d);
    CharIsBase64(c);
    CharIsBase64(d);
  }

  lemma PairDecodes(a: Sextet, b: Sextet)
    ensures DecodeQuantum([CharOf(a), CharOf(b), '=', '='], true) == Some([High(a, b)])
  {
    CharRoundTrip(a);
    CharRoundTrip(b);
  }

  lemma ByteRoundTrip(x: Byte)
    ensures High(First(x), Second(x, 0)) == x
  {
  }

  lemma QuantumDecodes(x: Byte, y: Byte, z: Byte, last: bool)
    ensures DecodeQuantum(Quantum(x, y, z), last) == Some([x, y, z])
  {
    CharsDecode(First(x), Second(x, y), Third(y, z), Fourth(z), last);
    BytesRoundTrip(x, y, z);
  }

  lemma TwoBytesDecode(x: Byte, y: Byte)
    ensures DecodeQuantum(QuantumOfTwo(x, y), true) == Some([x, y])
  {
    CharsDecode(First(x), Second(x, y), Third(y, 0), 0, true);
    BytesRoundTrip(x, y, 0);
  }

  lemma OneByteDecodes(x: Byte)
    ensures DecodeQuantum(QuantumOfOne(x), true) == Some([x])
  {
    PairDecodes(First(x), Second(x, 0));
    ByteRoundTrip(x);
  }

  lemma {:induction false} DecodeUnfolds(q: string, s: string)
    requires |q| == 4 && DecodeQuantum(q, s == "").Some? && Decode(s).Some?
    ensures Decode(q + s) == Some(DecodeQuantum(q, s == "").value + Decode(s).value)
  {
    assert (q + s)[..4] == q && (q + s)[4..] == s;
  }

  lemma SplitThree(data: seq<Byte>)
    requires |data| >= 3
    ensures data == [data[0], data[1], data[2]] + data[3..]
  {
  }

  lemma ShortIs(data: seq<Byte>)
    ensures |data| == 1 ==> data == [data[0]]
    ensures |data| == 2 ==> data == [data[0], data[1]]
  {
  }

  predicate DecodesTo(s: string, data: seq<Byte>)
  {
    Decode(s) == Some(data)
  }

  lemma {:induction false} ShortDecodes(data: seq<Byte>)
    requires |data| <= 2
    ensures DecodesTo(Encode(data), data)
  {
    EncodeShort(data);
    if |data| == 1 {
      OneDecodes(data[0]);
      ShortIs(data);
    } else if |data| == 2 {
      TwoDecode(data[0], data[1]);
      ShortIs(data);
    }
  }

  lemma OneDecodes(x: Byte)
    ensures DecodesTo(QuantumOfOne(x), [x])
  {
    OneByteDecodes(x);
    LastQuantumDecodes(QuantumOfOne(x), [x]);
  }

  lemma TwoDecode(x: Byte, y: Byte)
    ensures DecodesTo(QuantumOfTwo(x, y), [x, y])
  {
    TwoBytesDecode(x, y);
    LastQuantumDecodes(QuantumOfTwo(x, y), [x, y]);
  }

  /** Decoding inverts encoding. */
  lemma {:induction false} DecodeEncode(data: seq<Byte>)
    ensures Decode(Encode(data)) == Some(data)
  {
    if |data| <= 2 {
      ShortDecodes(data);
    } else {
      DecodeEncode(data[3..]);
      EncodeLength(data[3..]);
      var rest := Encode(data[3..]);
      QuantumDecodes(data[0], data[1], data[2], rest == "");
      DecodeUnfolds(Quantum(data[0], data[1], data[2]), rest);
      SplitThree(data);
    }
  }

  // ---------------------------------------------------------------- near-canonical

  /** A quantum that is `t` but for the bits that padding leaves unused. */
  predicate SameQuantum(s: string, t: string)
    requires |s| == |t| == 4
  {
    s == t ||
    (s[2..] == "==" == t[2..] && s[0] == t[0] && InAlphabet(s[1]) && InAlphabet(t[1]) && ValueOf(s[1]) / 16 == ValueOf(t[1]) / 16) ||
    (s[3] == '=' == t[3] && s[..2] == t[..2] && InAlphabet(s[2]) && InAlphabet(t[2]) && ValueOf(s[2]) / 4 == ValueOf(t[2]) / 4)
  }

  /** The same text but for the unused bits of the last quantum. */
  predicate SameButUnusedBits(s: string, t: string)
  {
    s == t ||
    (|s| == |t| >= 4 && s[..|s| - 4] == t[..|t| - 4] && SameQuantum(s[|s| - 4..], t[|t| - 4..]))
  }

  lemma ThreeBytesBack(s: string, a: Sextet, b: Sextet, c: Sextet, d: Sextet)
    requires s == [CharOf(a), CharOf(b), CharOf(c), CharOf(d)]
    ensures Quantum(High(a, b), Middle(b, c), Low(c, d)) == s
    ensures Encode([High(a, b), Middle(b, c), Low(c, d)]) == s
  {
    SextetsRoundTrip(a, b, c, d);
    var bytes: seq<Byte> := [High(a, b), Middle(b, c), Low(c, d)];
    assert Encode(bytes) == Quantum(bytes[0], bytes[1], bytes[2]) + Encode(bytes[3..]);
  }

  lemma TwoBytesBack(s: string, a: Sextet, b: Sextet, c: Sextet)
    requires s == [CharOf(a), CharOf(b), CharOf(c), '=']
    ensures |Encode([High(a, b), Middle(b, c)])| == 4 && SameQuantum(s, Encode([High(a, b), Middle(b, c)]))
  {
    SextetsRoundTrip(a, b, c, 0);
    CharRoundTrip(c);
    CharRoundTrip(c / 4 * 4);
    assert Encode([High(a, b), Middle(b, c)]) == [CharOf(a), CharOf(b), CharOf(c / 4 * 4), '='];
  }

  lemma PairRoundTrip(a: Sextet, b: Sextet)
    ensures First(High(a, b)) == a && Second(High(a, b), 0) == b / 16 * 16 && b / 16 * 16 / 16 == b / 16
  {
  }

  lemma OneByteBack(s: string, a: Sextet, b: Sextet)
    requires s == [CharOf(a), CharOf(b), '=', '=']
    ensures |Encode([High(a, b)])| == 4 && SameQuantum(s, Encode([High(a, b)]))
  {
    PairRoundTrip(a, b);
    CharRoundTrip(b);
    CharRoundTrip(b / 16 * 16);
    var bytes: seq<Byte> := [High(a, b)];
    assert Encode(bytes) == QuantumOfOne(bytes[0]);
  }

  lemma DecodedQuantum(s: string, last: bool)
    requires |s| == 4 && DecodeQuantum(s, last).Some?
    ensures var bytes := DecodeQuantum(s, last).value;
      && 1 <= |bytes| <= 3 && (!last ==> |bytes| == 3) && |Encode(bytes)| == 4 && SameQuantum(s, Encode(bytes))
      && (|bytes| == 3 ==> s == Encode(bytes) == Quantum(bytes[0], bytes[1], bytes[2]))
  {
    ValueRoundTrip(s[0]);
    ValueRoundTrip(s[1]);
    var bytes := DecodeQuantum(s, last).value;
    if |bytes| == 1 {
      OneByteBack(s, ValueOf(s[0]), ValueOf(s[1]));
    } else {
      ValueRoundTrip(s[2]);
      if |bytes| == 2 {
        TwoBytesBack(s, ValueOf(s[0]), ValueOf(s[1]), ValueOf(s[2]));
      } else {
        ValueRoundTrip(s[3]);
        ThreeBytesBack(s, ValueOf(s[0]), ValueOf(s[1]), ValueOf(s[2]), ValueOf(s[3]));
      }
    }
  }

  lemma {:induction false} EncodePrepends(bytes: seq<Byte>, rest: seq<Byte>)
    requires |bytes| == 3
    ensures Encode(bytes + rest) == Quantum(bytes[0], bytes[1], bytes[2]) + Encode(rest)
  {
    assert (bytes + rest)[3..] == rest;
  }

  /** What decodes is the canonical encoding of its value, unused bits apart. */
  lemma {:induction false} DecodedIsNearCanonical(s: string)
    requires Decode(s).Some?
    ensures SameButUnusedBits(s, Encode(Decode(s).value))
  {
    if s != "" {
      DecodedQuantum(s[..4], |s| == 4);
      var bytes := DecodeQuantum(s[..4], |s| == 4).value;
      var rest := Decode(s[4..]).value;
      if |s| == 4 {
        assert s[..4] == s && bytes + [] == bytes;
      } else {
        DecodedIsNearCanonical(s[4..]);
        EncodePrepends(bytes, rest);
        assert s == s[..4] + s[4..];
        PrependQuantum(s[..4], s[4..], Encode(rest));
      }
    }
  }

  lemma PrependQuantum(q: string, s: string, t: string)
    requires |q| == 4 && SameButUnusedBits(s, t)
    ensures SameButUnusedBits(q + s, q + t)
  {
    if s != t {
      var n := |s|;
      assert (q + s)[..n] == q + s[..n - 4] && (q + t)[..n] == q + t[..n - 4];
      assert (q + s)[n..] == s[n - 4..] && (q + t)[n..] == t[n - 4..];
    }
  }

  lemma NearOneDecodes(s: string, x: Byte)
    requires |s| == 4 && SameQuantum(s, QuantumOfOne(x))
    ensures DecodeQuantum(s, true) == Some([x])
  {
    NearOneParts(s, x);
    CharRoundTrip(First(x));
    HighIgnores(First(x), ValueOf(s[1]), Second(x, 0));
    ByteRoundTrip(x);
  }

  lemma NearOneParts(s: string, x: Byte)
    requires |s| == 4 && SameQuantum(s, QuantumOfOne(x))
    ensures s[0] == CharOf(First(x)) && InAlphabet(s[1]) && ValueOf(s[1]) / 16 == Second(x, 0) / 16
    ensures s[2] == '=' && s[3] == '='
  {
    CharRoundTrip(Second(x, 0));
    var t := QuantumOfOne(x);
    assert t[2..] == "==" && t[2] == '=';
    assert !InAlphabet('=');
    assert s[2..] == "==" && s[2] == s[2..][0] && s[3] == s[2..][1];
  }

  lemma HighIgnores(a: Sextet, b: Sextet, c: Sextet)
    requires b / 16 == c / 16
    ensures High(a, b) == High(a, c)
  {
  }

  lemma NearTwoDecodes(s: string, x: Byte, y: Byte)
    requires |s| == 4 && SameQuantum(s, QuantumOfTwo(x, y))
    ensures DecodeQuantum(s, true) == Some([x, y])
  {
    NearTwoParts(s, x, y);
    CharRoundTrip(First(x));
    CharRoundTrip(Second(x, y));
    MiddleIgnores(Second(x, y), ValueOf(s[2]), Third(y, 0));
    BytesRoundTrip(x, y, 0);
  }

  lemma NearTwoParts(s: string, x: Byte, y: Byte)
    requires |s| == 4 && SameQuantum(s, QuantumOfTwo(x, y))
    ensures s[0] == CharOf(First(x)) && s[1] == CharOf(Second(x, y)) && s[3] == '='
    ensures InAlphabet(s[2]) && ValueOf(s[2]) / 4 == Third(y, 0) / 4 && s[2] != '='
  {
    CharRoundTrip(Third(y, 0));
    CharIsBase64(Third(y, 0));
    var t := QuantumOfTwo(x, y);
    assert t[2..][0] == t[2];
    assert s[..2] == t[..2] && s[0] == s[..2][0] && s[1] == s[..2][1] && t[0] == t[..2][0] && t[1] == t[..2][1];
  }

  lemma MiddleIgnores(b: Sextet, c: Sextet, d: Sextet)
    requires c / 4 == d / 4
    ensures Middle(b, c) == Middle(b, d)
  {
  }

  lemma NearThree(s: string, x: Byte, y: Byte, z: Byte)
    requires |s| == 4 && SameQuantum(s, Quantum(x, y, z))
    ensures s == Quantum(x, y, z)
  {
    CharIsBase64(Third(y, z));
    CharIsBase64(Fourth(z));
    var t := Quantum(x, y, z);
    assert t[2..][0] == t[2];
  }

  lemma WholeQuantum(s: string, t: string)
    requires |t| == 4 && SameButUnusedBits(s, t)
    ensures |s| == 4 && SameQuantum(s, t)
  {
    if s != t {
      assert s[|s| - 4..] == s && t[|t| - 4..] == t;
    }
  }

  lemma {:induction false} LastQuantumDecodes(s: string, bytes: seq<Byte>)
    requires |s| == 4 && DecodeQuantum(s, true) == Some(bytes)
    ensures Decode(s) == Some(bytes)
  {
    DecodeUnfolds(s, "");
    assert s + "" == s && bytes + [] == bytes;
  }

  /** And every text that is canonical but for unused bits decodes to that value. */
  lemma {:induction false} NearCanonicalDecodes(s: string, data: seq<Byte>)
    requires SameButUnusedBits(s, Encode(data))
    ensures Decode(s) == Some(data)
    decreases |data|
  {
    if |data| <= 2 {
      NearShortDecodes(s, data);
    } else {
      var q, rest := Quantum(data[0], data[1], data[2]), Encode(data[3..]);
      EncodeLength(data[3..]);
      QuantumDecodes(data[0], data[1], data[2], rest == "");
      SplitQuantum(s, q, rest, data[0], data[1], data[2]);
      NearCanonicalDecodes(s[4..], data[3..]);
      DecodeUnfolds(q, s[4..]);
      SplitThree(data);
    }
  }

  lemma {:induction false} NearShortDecodes(s: string, data: seq<Byte>)
    requires |data| <= 2 && SameButUnusedBits(s, Encode(data))
    ensures Decode(s) == Some(data)
  {
    if |data| == 1 {
      WholeQuantum(s, QuantumOfOne(data[0]));
      NearOneDecodes(s, data[0]);
      LastQuantumDecodes(s, [data[0]]);
      ShortIs(data);
    } else if |data| == 2 {
      WholeQuantum(s, QuantumOfTwo(data[0], data[1]));
      NearTwoDecodes(s, data[0], data[1]);
      LastQuantumDecodes(s, [data[0], data[1]]);
      ShortIs(data);
    }
  }

  lemma SplitQuantum(s: string, q: string, rest: string, x: Byte, y: Byte, z: Byte)
    requires q == Quantum(x, y, z) && SameButUnusedBits(s, q + rest) && (rest == "" || |rest| >= 4)
    ensures |s| == 4 + |rest| && s == q + s[4..] && SameButUnusedBits(s[4..], rest)
  {
    if rest == "" {
      assert q + rest == q;
      WholeQuantum(s, q);
      NearThree(s, x, y, z);
    } else {
      DropQuantum(s, q + rest);
      assert (q + rest)[4..] == rest && (q + rest)[..4] == q;
    }
  }

  lemma DropQuantum(s: string, t: string)
    requires SameButUnusedBits(s, t) && |t| >= 8
    ensures |s| == |t| && s[..4] == t[..4] && SameButUnusedBits(s[4..], t[4..])
  {
    if s != t {
      var n := |s| - 4;
      assert s[..4] == s[..n][..4] && t[..4] == t[..n][..4];
      assert s[4..][..n - 4] == s[..n][4..] && t[4..][..n - 4] == t[..n][4..];
      assert s[4..][n - 4..] == s[n..] && t[4..][n - 4..] == t[n..];
    }
  }

  /** A text is accepted for some data exactly when it is the encoding of the data
      but for the unused bits of the last quantum. */
  lemma {:induction false} DecodesExactly(s: string, data: seq<Byte>)
    ensures Decode(s) == Some(data) <==> SameButUnusedBits(s, Encode(data))
  {
    if Decode(s) == Some(data) {
      DecodedIsNearCanonical(s);
    }
    if SameButUnusedBits(s, Encode(data)) {
      NearCanonicalDecodes(s, data);
    }
  }
}
