/** Base64 as section 4 of RFC 4648 defines it, and the lenient decoder of QByteArray::fromBase64. */
module Base64 {
  import opened Sequences
  import opened Agents
  import Text

  type Sextet = x: int | 0 <= x < 64

  function Symbol(d: Sextet): char {
    if d < 26 then 'A' + d as char
    else if d < 52 then 'a' + (d - 26) as char
    else if d < 62 then '0' + (d - 52) as char
    else if d == 62 then '+' else '/'
  }

  /** -1 for a character outside the alphabet. */
  function SextetOf(c: char): int {
    if 'A' <= c <= 'Z' then (c - 'A') as int
    else if 'a' <= c <= 'z' then (c - 'a') as int + 26
    else if '0' <= c <= '9' then (c - '0') as int + 52
    else if c == '+' then 62
    else if c == '/' then 63
    else -1
  }

  lemma {:induction false} SymbolReads(d: Sextet)
    ensures SextetOf(Symbol(d)) == d
  {
    if d < 26 {
      assert 'A' <= Symbol(d) <= 'Z';
    } else if d < 52 {
      assert 'a' <= Symbol(d) <= 'z';
    } else if d < 62 {
      assert '0' <= Symbol(d) <= '9';
    }
  }

  function Encode(data: seq<byte>): string {
    if data == [] then ""
    else if |data| == 1 then [Symbol(data[0] / 4), Symbol(data[0] % 4 * 16), '=', '=']
    else if |data| == 2 then
      [Symbol(data[0] / 4), Symbol(data[0] % 4 * 16 + data[1] / 16), Symbol(data[1] % 16 * 4), '=']
    else
      [Symbol(data[0] / 4), Symbol(data[0] % 4 * 16 + data[1] / 16), Symbol(data[1] % 16 * 4 + data[2] / 64),
       Symbol(data[2] % 64)] + Encode(data[3..])
  }

  /** Bits that are read but make no byte yet: none, two, four or six. */
  datatype Pending = Pending(value: int, bits: int)

  function Power(bits: int): int {
    if bits == 0 then 1 else if bits == 2 then 4 else if bits == 4 then 16 else 64
  }

  predicate PendingOk(p: Pending) {
    (p.bits == 0 || p.bits == 2 || p.bits == 4 || p.bits == 6) && 0 <= p.value < Power(p.bits)
  }

  /** With at least two bits pending, six more complete a byte. */
  lemma {:induction false} FeedFits(p: Pending, d: Sextet)
    requires PendingOk(p) && p.bits != 0
    ensures var value := p.value * 64 + d;
            0 <= value / Power(p.bits - 2) < 256 && 0 <= value % Power(p.bits - 2) < Power(p.bits - 2)
  {
  }

  /** Six more bits: the byte they complete, if any, and what stays pending. */
  function Feed(p: Pending, d: Sextet): (r: (seq<byte>, Pending))
    requires PendingOk(p)
    ensures PendingOk(r.1)
  {
    if p.bits == 0 then ([], Pending(d, 6))
    else
      var bits := p.bits + 6 - 8;
      var value := p.value * 64 + d;
      FeedFits(p, d);
      ([value / Power(bits)], Pending(value % Power(bits), bits))
  }

  /** Characters outside the alphabet, padding included, are skipped. */
  function DecodeFrom(p: Pending, s: string): seq<byte>
    requires PendingOk(p)
    decreases |s|
  {
    if s == "" then []
    else if SextetOf(s[0]) == -1 then DecodeFrom(p, s[1..])
    else
      var r := Feed(p, SextetOf(s[0]));
      r.0 + DecodeFrom(r.1, s[1..])
  }

  const NOTHING := Pending(0, 0)

  function Decode(s: string): seq<byte> {
    DecodeFrom(NOTHING, s)
  }

  /** One turn of the decoder's loop, with `data` decoded so far. */
  lemma {:induction false} DecodeStep(data: seq<byte>, p: Pending, s: string, i: nat)
    requires PendingOk(p) && i < |s|
    ensures SextetOf(s[i]) == -1 ==> DecodeFrom(p, s[i..]) == DecodeFrom(p, s[i + 1..])
    ensures 0 <= SextetOf(s[i]) < 64 ==>
              var r := Feed(p, SextetOf(s[i]));
              data + DecodeFrom(p, s[i..]) == (data + r.0) + DecodeFrom(r.1, s[i + 1..])
  {
    assert s[i..][1..] == s[i + 1..];
    if 0 <= SextetOf(s[i]) < 64 {
      var r := Feed(p, SextetOf(s[i]));
      Associate(data, r.0, DecodeFrom(r.1, s[i + 1..]));
    }
  }

  method DecodeBase64(s: string) returns (data: seq<byte>)
    ensures data == Decode(s)
  {
    data := [];
    var pending := NOTHING;
    for i := 0 to |s|
      invariant PendingOk(pending)
      invariant data + DecodeFrom(pending, s[i..]) == Decode(s)
    {
      DecodeStep(data, pending, s, i);
      var d := SextetOf(s[i]);
      if d != -1 {
        var r := Feed(pending, d);
        data, pending := data + r.0, r.1;
      }
    }
  }

  lemma {:induction false} DecodeSymbol(p: Pending, d: Sextet, rest: string)
    requires PendingOk(p)
    ensures DecodeFrom(p, [Symbol(d)] + rest) == Feed(p, d).0 + DecodeFrom(Feed(p, d).1, rest)
  {
    SymbolReads(d);
    assert ([Symbol(d)] + rest)[1..] == rest;
  }

  lemma {:induction false} DecodePadding(p: Pending)
    requires PendingOk(p)
    ensures DecodeFrom(p, "=") == [] && DecodeFrom(p, "==") == []
  {
    assert "="[1..] == "" && "=="[1..] == "=";
  }

  /** The first sextet and a half make the first byte. */
  lemma {:induction false} FirstByte(a: byte, low: Sextet, rest: string)
    requires low < 16
    ensures DecodeFrom(NOTHING, [Symbol(a / 4)] + ([Symbol(a % 4 * 16 + low)] + rest))
            == [a] + DecodeFrom(Pending(low, 4), rest)
  {
    var d := a % 4 * 16 + low;
    DecodeSymbol(NOTHING, a / 4, [Symbol(d)] + rest);
    DecodeSymbol(Pending(a / 4, 6), d, rest);
    assert a / 4 * 4 + d / 16 == a && d % 16 == low;
  }

  lemma {:induction false} SecondByte(b: byte, low: Sextet, rest: string)
    requires low < 4
    ensures DecodeFrom(Pending(b / 16, 4), [Symbol(b % 16 * 4 + low)] + rest)
            == [b] + DecodeFrom(Pending(low, 2), rest)
  {
    var d := b % 16 * 4 + low;
    DecodeSymbol(Pending(b / 16, 4), d, rest);
    assert b / 16 * 16 + d / 4 == b && d % 4 == low;
  }

  lemma {:induction false} ThirdByte(c: byte, rest: string)
    ensures DecodeFrom(Pending(c / 64, 2), [Symbol(c % 64)] + rest) == [c] + DecodeFrom(NOTHING, rest)
  {
    DecodeSymbol(Pending(c / 64, 2), c % 64, rest);
  }

  lemma {:induction false} DecodeEncode(data: seq<byte>)
    ensures Decode(Encode(data)) == data
  {
    if |data| == 1 {
      DecodeOne(data[0]);
    } else if |data| == 2 {
      DecodeTwo(data[0], data[1]);
    } else if |data| > 2 {
      DecodeThree(data[0], data[1], data[2], Encode(data[3..]));
      DecodeEncode(data[3..]);
      assert data == [data[0], data[1], data[2]] + data[3..];
    }
  }

  lemma {:induction false} DecodeOne(a: byte)
    ensures Decode([Symbol(a / 4), Symbol(a % 4 * 16), '=', '=']) == [a]
  {
    assert [Symbol(a / 4), Symbol(a % 4 * 16), '=', '='] == [Symbol(a / 4)] + ([Symbol(a % 4 * 16 + 0)] + "==");
    FirstByte(a, 0, "==");
    DecodePadding(Pending(0, 4));
  }

  lemma {:induction false} DecodeTwo(a: byte, b: byte)
    ensures Decode([Symbol(a / 4), Symbol(a % 4 * 16 + b / 16), Symbol(b % 16 * 4), '=']) == [a, b]
  {
    var tail := [Symbol(b % 16 * 4 + 0)] + "=";
    assert [Symbol(a / 4), Symbol(a % 4 * 16 + b / 16), Symbol(b % 16 * 4), '=']
        == [Symbol(a / 4)] + ([Symbol(a % 4 * 16 + b / 16)] + tail);
    FirstByte(a, b / 16, tail);
    SecondByte(b, 0, "=");
    DecodePadding(Pending(0, 2));
  }

  lemma {:induction false} DecodeThree(a: byte, b: byte, c: byte, rest: string)
    ensures Decode([Symbol(a / 4), Symbol(a % 4 * 16 + b / 16), Symbol(b % 16 * 4 + c / 64), Symbol(c % 64)] + rest)
            == [a, b, c] + Decode(rest)
  {
    var last := [Symbol(c % 64)] + rest;
    var tail := [Symbol(b % 16 * 4 + c / 64)] + last;
    assert [Symbol(a / 4), Symbol(a % 4 * 16 + b / 16), Symbol(b % 16 * 4 + c / 64), Symbol(c % 64)] + rest
        == [Symbol(a / 4)] + ([Symbol(a % 4 * 16 + b / 16)] + tail);
    FirstByte(a, b / 16, tail);
    SecondByte(b, c / 64, last);
    ThirdByte(c, rest);
    Associate([a], [b], [c] + Decode(rest));
    Associate([a, b], [c], Decode(rest));
  }

  /** Encoded text holds no separator of the settings format. */
  lemma {:induction false} EncodedHasNoSeparator(data: seq<byte>)
    ensures ',' !in Encode(data) && ';' !in Encode(data)
  {
    forall d: Sextet ensures Symbol(d) != ',' && Symbol(d) != ';' {
    }
    if |data| > 2 {
      EncodedHasNoSeparator(data[3..]);
    }
  }

  // ---- by the table of the standard -----------------------------------------------------------------------

  const UPPER := "ABCDEFGHIJKLMNOPQRSTUVWXYZ"
  const LOWER := "abcdefghijklmnopqrstuvwxyz"
  const OTHERS := "0123456789+/"

  /** Table 1 of the standard. */
  const TABLE := UPPER + LOWER + OTHERS

  /** The value of a character is its position in the table. */
  function ValueOf(c: char): nat {
    Text.IndexOf(TABLE, c)
  }

  lemma {:induction false} UpperInTable(d: nat)
    requires d < 26
    ensures |UPPER| == 26 && UPPER[d] == Symbol(d)
  {
  }

  lemma {:induction false} LowerInTable(d: nat)
    requires 26 <= d < 52
    ensures |LOWER| == 26 && LOWER[d - 26] == Symbol(d)
  {
  }

  lemma {:induction false} OtherInTable(d: nat)
    requires 52 <= d < 64
    ensures |OTHERS| == 12 && OTHERS[d - 52] == Symbol(d)
  {
  }

  lemma {:induction false} SymbolInTable(d: nat)
    requires d < 64
    ensures |TABLE| == 64 && TABLE[d] == Symbol(d)
  {
    assert |UPPER| == 26 && |LOWER| == 26 && |OTHERS| == 12;
    if d < 26 { UpperInTable(d); } else if d < 52 { LowerInTable(d); } else { OtherInTable(d); }
  }

  lemma {:induction false} SymbolValue(d: Sextet)
    ensures ValueOf(Symbol(d)) == d
  {
    SymbolInTable(d);
    SymbolReads(d);
    forall j: nat | j < d ensures TABLE[j] != Symbol(d) {
      SymbolInTable(j);
      SymbolReads(j);
    }
    Text.IndexOfFirst(TABLE, Symbol(d), d);
  }

  /** The 24 bits that four characters stand for. */
  function Bits(s: string): nat
    requires |s| > 3
  {
    ValueOf(s[0]) * 262_144 + ValueOf(s[1]) * 4_096 + ValueOf(s[2]) * 64 + ValueOf(s[3])
  }

  function Number24(x: int, y: int, z: int): int {
    x * 65_536 + y * 256 + z
  }

  /** A text in groups of four characters. */
  function CharGroups(s: string): seq<int> {
    if |s| < 4 then [] else [Bits(s)] + CharGroups(s[4..])
  }

  /** Data in groups of three bytes; one or two bytes at the end are left out. */
  function ByteGroups(data: seq<byte>): seq<int> {
    if |data| < 3 then [] else [Number24(data[0], data[1], data[2])] + ByteGroups(data[3..])
  }

  lemma {:induction false} Regroup(x: byte, y: byte, z: byte)
    ensures x / 4 * 262_144 + (x % 4 * 16 + y / 16) * 4_096 + (y % 16 * 4 + z / 64) * 64 + z % 64 == Number24(x, y, z)
  {
    var xh: int, xl: int, yh: int, yl: int := x / 4, x % 4, y / 16, y % 16;
    assert x == xh * 4 + xl && y == yh * 16 + yl;
  }

  lemma {:induction false} GroupBits(x: byte, y: byte, z: byte, rest: string)
    ensures Bits([Symbol(x / 4), Symbol(x % 4 * 16 + y / 16), Symbol(y % 16 * 4 + z / 64), Symbol(z % 64)] + rest)
            == Number24(x, y, z)
  {
    SymbolValue(x / 4);
    SymbolValue(x % 4 * 16 + y / 16);
    SymbolValue(y % 16 * 4 + z / 64);
    SymbolValue(z % 64);
    Regroup(x, y, z);
  }

  /** Each three bytes become the four characters whose values in the table hold the same 24 bits. */
  lemma {:induction false} WholeGroupsEncode(data: seq<byte>)
    ensures ByteGroups(data) <= CharGroups(Encode(data))
  {
    if |data| > 2 {
      GroupBits(data[0], data[1], data[2], Encode(data[3..]));
      EncodeHead(data);
      WholeGroupsEncode(data[3..]);
      assert Encode(data)[4..] == Encode(data[3..]);
    }
  }

  lemma {:induction false} EncodeHead(data: seq<byte>)
    requires |data| > 2
    ensures |Encode(data)| == |Encode(data[3..])| + 4 && Encode(data) == Encode(data)[..4] + Encode(data[3..])
  {
  }

  /** The encoding of one or two bytes: zero bits fill them up, and padding follows. */
  predicate PadsEnd(s: string, data: seq<byte>)
    requires |s| == 4
  {
    && s[3] == '='
    && (|data| == 1 ==> s[2] == '=' && ValueOf(s[0]) * 64 + ValueOf(s[1]) == data[0] as int * 16)
    && (|data| == 2 ==>
          ValueOf(s[0]) * 4_096 + ValueOf(s[1]) * 64 + ValueOf(s[2]) == Number24(0, data[0], data[1]) * 4)
  }

  lemma {:induction false} OneBytePads(x: byte)
    ensures |Encode([x])| == 4 && PadsEnd(Encode([x]), [x])
  {
    SymbolValue(x / 4);
    SymbolValue(x % 4 * 16);
    assert x / 4 * 64 + x % 4 * 16 == x as int * 16;
  }

  lemma {:induction false} TwoBytesPad(x: byte, y: byte)
    ensures |Encode([x, y])| == 4 && PadsEnd(Encode([x, y]), [x, y])
  {
    SymbolValue(x / 4);
    SymbolValue(x % 4 * 16 + y / 16);
    SymbolValue(y % 16 * 4);
    Regroup(x, y, 0);
  }

  /** The encoding ends with that of the one or two bytes behind the whole groups, if there are any. */
  lemma {:induction false} EndEncodes(data: seq<byte>)
    ensures var n, k := |data| / 3, |data| / 3 * 4;
            && |Encode(data)| == (if |data| % 3 == 0 then k else k + 4)
            && (|data| % 3 != 0 ==> PadsEnd(Encode(data)[k..], data[n * 3..]))
  {
    if |data| == 1 {
      OneBytePads(data[0]);
      assert data == [data[0]];
    } else if |data| == 2 {
      TwoBytesPad(data[0], data[1]);
      assert data == [data[0], data[1]];
    } else if |data| > 2 {
      EndEncodes(data[3..]);
      EncodeHead(data);
      SameEnd(data, Encode(data), Encode(data[3..]));
    }
  }

  lemma {:induction false} SameEnd(data: seq<byte>, s: string, rest: string)
    requires |data| > 2 && |s| == |rest| + 4 && s == s[..4] + rest && |rest| >= |data[3..]| / 3 * 4
    ensures s[|data| / 3 * 4..] == rest[|data[3..]| / 3 * 4..]
    ensures data[|data| / 3 * 3..] == data[3..][|data[3..]| / 3 * 3..]
  {
    assert |data| / 3 == |data[3..]| / 3 + 1;
  }
}
