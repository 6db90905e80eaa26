/** Standard Base64 with padding (section 4 of RFC 4648), as the Go decoder reads it. */
module Base64 {
  import opened Arith
  import opened Wrappers

  type Byte = n: int | 0 <= n < 256

  function Letter(i: int): char
    requires 0 <= i < 64
  {
    if i < 26 then ('A' as int + i) as char
    else if i < 52 then ('a' as int + i - 26) as char
    else if i < 62 then ('0' as int + i - 52) as char
    else if i == 62 then '+' else '/'
  }

  function Value(c: char): Option<int> {
    if 'A' <= c <= 'Z' then Some(c as int - 'A' as int)
    else if 'a' <= c <= 'z' then Some(c as int - 'a' as int + 26)
    else if '0' <= c <= '9' then Some(c as int - '0' as int + 52)
    else if c == '+' then Some(62)
    else if c == '/' then Some(63)
    else None
  }

  lemma LetterValue(i: int)
    requires 0 <= i < 64
    ensures Value(Letter(i)) == Some(i) && Letter(i) != '='
  {
  }

  predicate IsCode(c: char) {
    Value(c).Some? || c == '='
  }

  function Encode(b: seq<Byte>): (s: string)
    ensures forall i | 0 <= i < |s| :: IsCode(s[i])
    ensures s == "" <==> b == []
  {
    if b == [] then ""
    else if |b| == 1 then [Letter(b[0] / 4), Letter(b[0] % 4 * 16), '=', '=']
    else if |b| == 2 then [Letter(b[0] / 4), Letter(b[0] % 4 * 16 + b[1] / 16), Letter(b[1] % 16 * 4), '=']
    else
      [Letter(b[0] / 4), Letter(b[0] % 4 * 16 + b[1] / 16), Letter(b[1] % 16 * 4 + b[2] / 64), Letter(b[2] % 64)]
      + Encode(b[3..])
  }

  /** The decoder skips line ends wherever they stand. */
  function WithoutLineEnds(s: string): string {
    if s == "" then "" else (if s[0] == '\r' || s[0] == '\n' then "" else [s[0]]) + WithoutLineEnds(s[1..])
  }

  function First(a: int, b: int): Byte
    requires 0 <= a < 64 && 0 <= b < 64
  {
    a * 4 + b / 16
  }

  function Second(b: int, c: int): Byte
    requires 0 <= b < 64 && 0 <= c < 64
  {
    b % 16 * 16 + c / 4
  }

  function Third(c: int, d: int): Byte
    requires 0 <= c < 64 && 0 <= d < 64
  {
    c % 4 * 64 + d
  }

  /** Quadruples of letters, of which only the last may end in one or two padding characters. */
  function DecodeQuads(s: string): Option<seq<Byte>> {
    if s == "" then Some([])
    else if |s| < 4 || Value(s[0]).None? || Value(s[1]).None? then None
    else
      var a, b := Value(s[0]).value, Value(s[1]).value;
      if s[2] == '=' then (if s[3] == '=' && |s| == 4 then Some([First(a, b)]) else None)
      else if Value(s[2]).None? then None
      else
        var c := Value(s[2]).value;
        if s[3] == '=' then (if |s| == 4 then Some([First(a, b), Second(b, c)]) else None)
        else if Value(s[3]).None? then None
        else
          var d := Value(s[3]).value;
          var rest := DecodeQuads(s[4..]);
          if rest.None? then None else Some([First(a, b), Second(b, c), Third(c, d)] + rest.value)
  }

  function Decode(s: string): Option<seq<Byte>> {
    DecodeQuads(WithoutLineEnds(s))
  }

  lemma ByteParts(x: Byte, y: Byte, z: Byte)
    ensures First(x / 4, x % 4 * 16) == First(x / 4, x % 4 * 16 + y / 16) == x
    ensures Second(x % 4 * 16 + y / 16, y % 16 * 4) == y
    ensures Second(x % 4 * 16 + y / 16, y % 16 * 4 + z / 64) == y
    ensures Third(y % 16 * 4 + z / 64, z % 64) == z
  {
  }

  lemma {:induction false} NoLineEnds(s: string)
    requires forall i | 0 <= i < |s| :: IsCode(s[i])
    ensures WithoutLineEnds(s) == s
  {
    if s != "" {
      NoLineEnds(s[1..]);
    }
  }

  lemma QuadDecodes(a: int, b: int, c: int, d: int, tail: string)
    requires 0 <= a < 64 && 0 <= b < 64 && 0 <= c < 64 && 0 <= d < 64
    requires DecodeQuads(tail).Some?
    ensures DecodeQuads([Letter(a), Letter(b), Letter(c), Letter(d)] + tail)
         == Some([First(a, b), Second(b, c), Third(c, d)] + DecodeQuads(tail).value)
  {
    LetterValue(a);
    LetterValue(b);
    LetterValue(c);
    LetterValue(d);
    assert ([Letter(a), Letter(b), Letter(c), Letter(d)] + tail)[4..] == tail;
  }

  lemma PaddedDecodes(a: int, b: int, c: int)
    requires 0 <= a < 64 && 0 <= b < 64 && 0 <= c < 64
    ensures DecodeQuads([Letter(a), Letter(b), '=', '=']) == Some([First(a, b)])
    ensures DecodeQuads([Letter(a), Letter(b), Letter(c), '=']) == Some([First(a, b), Second(b, c)])
  {
    LetterValue(a);
    LetterValue(b);
    LetterValue(c);
  }

  lemma OneByte(x: Byte)
    ensures DecodeQuads(Encode([x])) == Some([x])
  {
    ByteParts(x, 0, 0);
    PaddedDecodes(x / 4, x % 4 * 16, 0);
  }

  lemma TwoBytes(x: Byte, y: Byte)
    ensures DecodeQuads(Encode([x, y])) == Some([x, y])
  {
    ByteParts(x, y, 0);
    PaddedDecodes(x / 4, x % 4 * 16 + y / 16, y % 16 * 4);
  }

  lemma ThreeBytes(x: Byte, y: Byte, z: Byte, rest: seq<Byte>)
    requires DecodeQuads(Encode(rest)) == Some(rest)
    ensures DecodeQuads(Encode([x, y, z] + rest)) == Some([x, y, z] + rest)
  {
    assert ([x, y, z] + rest)[3..] == rest;
    ByteParts(x, y, z);
    QuadRanges(x, y, z);
    var a, b, c, d := x / 4, x % 4 * 16 + y / 16, y % 16 * 4 + z / 64, z % 64;
    QuadDecodes(a, b, c, d, Encode(rest));
    assert Encode([x, y, z] + rest) == [Letter(a), Letter(b), Letter(c), Letter(d)] + Encode(rest);
  }

  lemma QuadRanges(x: Byte, y: Byte, z: Byte)
    ensures 0 <= x / 4 < 64 && 0 <= x % 4 * 16 + y / 16 < 64 && 0 <= y % 16 * 4 + z / 64 < 64 && 0 <= z % 64 < 64
  {
  }

  lemma {:induction false} DecodeEncoded(b: seq<Byte>)
    ensures DecodeQuads(Encode(b)) == Some(b)
    decreases |b|
  {
    if |b| == 1 {
      OneByte(b[0]);
      assert b == [b[0]];
    } else if |b| == 2 {
      TwoBytes(b[0], b[1]);
      assert b == [b[0], b[1]];
    } else if |b| > 2 {
      DecodeEncoded(b[3..]);
      ThreeBytes(b[0], b[1], b[2], b[3..]);
      assert b == [b[0], b[1], b[2]] + b[3..];
    }
  }

  /** Decoding gives back exactly the bytes encoded. */
  lemma RoundTrip(b: seq<Byte>)
    ensures Decode(Encode(b)) == Some(b)
  {
    NoLineEnds(Encode(b));
    DecodeEncoded(b);
  }

  /** Test vectors of section 10 of the standard, and one with its last two letters. */
  lemma Vectors()
    ensures Encode([102]) == "Zg==" && Encode([102, 111]) == "Zm8=" && Encode([102, 111, 111]) == "Zm9v"
    ensures Encode([251, 239, 255]) == "++//"
  {
    assert Encode([102, 111, 111]) == "Zm9v" + Encode([102, 111, 111][3..]);
    assert Encode([251, 239, 255]) == "++//" + Encode([251, 239, 255][3..]);
  }
}
