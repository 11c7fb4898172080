/**
 * Base64, section 4 of RFC 4648: the standard alphabet with `=` padding,
 * as produced by Node's `Buffer.toString("base64")`.
 */
module Base64 {

  import opened Wrappers
  import opened Utf8

  /** The character for a 6-bit value (Table 1 of RFC 4648). */
  function Symbol(v: int): (c: char)
    requires 0 <= v < 64
    ensures IsSymbol(c) && SymbolValue(c) == v
  {
    if v < 26 then ('A' as int + v) as char
    else if v < 52 then ('a' as int + (v - 26)) as char
    else if v < 62 then ('0' as int + (v - 52)) as char
    else if v == 62 then '+'
    else '/'
  }

  predicate IsSymbol(c: char) {
    ('A' <= c <= 'Z') || ('a' <= c <= 'z') || ('0' <= c <= '9') || c == '+' || c == '/'
  }

  /** The 6-bit value of an alphabet character. */
  function SymbolValue(c: char): (v: int)
    requires IsSymbol(c)
    ensures 0 <= v < 64
  {
    if 'A' <= c <= 'Z' then c as int - 'A' as int
    else if 'a' <= c <= 'z' then c as int - 'a' as int + 26
    else if '0' <= c <= '9' then c as int - '0' as int + 52
    else if c == '+' then 62
    else 63
  }

  /** Four characters for a full 24-bit group. */
  function EncodeGroup(b0: byte, b1: byte, b2: byte): string {
    [Symbol(b0 / 4), Symbol((b0 % 4) * 16 + b1 / 16), Symbol((b1 % 16) * 4 + b2 / 64), Symbol(b2 % 64)]
  }

  /** A final group of two bytes, padded with one `=`. */
  function EncodeLastTwo(b0: byte, b1: byte): string {
    [Symbol(b0 / 4), Symbol((b0 % 4) * 16 + b1 / 16), Symbol((b1 % 16) * 4), '=']
  }

  /** A final group of one byte, padded with two `=`. */
  function EncodeLastOne(b0: byte): string {
    [Symbol(b0 / 4), Symbol((b0 % 4) * 16), '=', '=']
  }

  /** The encoding of a byte sequence: full groups, then a final group of one
      or two bytes padded with `=` to four characters. */
  function Encode(b: seq<byte>): (r: string)
    ensures |r| % 4 == 0
    decreases |b|
  {
    if |b| >= 3 then EncodeGroup(b[0], b[1], b[2]) + Encode(b[3..])
    else if |b| == 2 then EncodeLastTwo(b[0], b[1])
    else if |b| == 1 then EncodeLastOne(b[0])
    else ""
  }

  /** Decodes one group of four characters into one to three bytes. */
  function DecodeGroup(q: string): Option<seq<byte>>
    requires |q| == 4
  {
    if !IsSymbol(q[0]) || !IsSymbol(q[1]) then None
    else
      var v0, v1 := SymbolValue(q[0]), SymbolValue(q[1]);
      var b0 := v0 * 4 + v1 / 16;
      if q[2] == '=' && q[3] == '=' then
        if v1 % 16 == 0 then Some([b0]) else None
      else if !IsSymbol(q[2]) then None
      else
        var v2 := SymbolValue(q[2]);
        var b1 := (v1 % 16) * 16 + v2 / 4;
        if q[3] == '=' then
          if v2 % 4 == 0 then Some([b0, b1]) else None
        else if !IsSymbol(q[3]) then None
        else Some([b0, b1, (v2 % 4) * 64 + SymbolValue(q[3])])
  }

  /** Strict decoding: None for a length not a multiple of four, a character
      outside the alphabet, padding anywhere but at the end, or non-zero pad bits. */
  function Decode(s: string): Option<seq<byte>>
    decreases |s|
  {
    if s == [] then Some([])
    else if |s| < 4 then None
    else match DecodeGroup(s[..4])
      case None => None
      case Some(g) =>
        if |g| < 3 && |s| > 4 then None
        else match Decode(s[4..])
          case None => None
          case Some(rest) => Some(g + rest)
  }

  lemma DecodeEncodeGroup(b0: byte, b1: byte, b2: byte)
    ensures DecodeGroup(EncodeGroup(b0, b1, b2)) == Some([b0, b1, b2])
  {
    var v1 := (b0 % 4) * 16 + b1 / 16;
    var v2 := (b1 % 16) * 4 + b2 / 64;
    assert v1 / 16 == b0 % 4 && v1 % 16 == b1 / 16;
    assert v2 / 4 == b1 % 16 && v2 % 4 == b2 / 64;
  }

  /** A final group of two bytes decodes back to them. */
  lemma DecodeEncodeTwo(b0: byte, b1: byte)
    ensures Decode(Encode([b0, b1])) == Some([b0, b1])
  {
    var s := Encode([b0, b1]);
    var v1 := (b0 % 4) * 16 + b1 / 16;
    var v2 := (b1 % 16) * 4;
    assert v1 / 16 == b0 % 4 && v1 % 16 == b1 / 16;
    assert v2 / 4 == b1 % 16 && v2 % 4 == 0;
    assert s == EncodeLastTwo(b0, b1) == [Symbol(b0 / 4), Symbol(v1), Symbol(v2), '='];
    assert s[..4] == s && s[4..] == [];
    assert DecodeGroup(s) == Some([b0, b1]);
    assert Decode(s[4..]) == Some([]);
    assert [b0, b1] + [] == [b0, b1];
  }

  /** A final group of one byte decodes back to it. */
  lemma DecodeEncodeOne(b0: byte)
    ensures Decode(Encode([b0])) == Some([b0])
  {
    var s := Encode([b0]);
    assert s == EncodeLastOne(b0);
    assert s[..4] == s && s[4..] == [];
    assert DecodeGroup(s) == Some([b0]);
    assert Decode(s[4..]) == Some([]);
    assert [b0] + [] == [b0];
  }

  /** Decoding inverts encoding (round trip). */
  lemma {:induction false} DecodeEncode(b: seq<byte>)
    ensures Decode(Encode(b)) == Some(b)
    decreases |b|
  {
    if |b| >= 3 {
      var s := Encode(b);
      DecodeEncodeGroup(b[0], b[1], b[2]);
      assert s[..4] == EncodeGroup(b[0], b[1], b[2]);
      assert s[4..] == Encode(b[3..]);
      DecodeEncode(b[3..]);
      assert [b[0], b[1], b[2]] + b[3..] == b;
    } else if |b| == 2 {
      assert b == [b[0], b[1]];
      DecodeEncodeTwo(b[0], b[1]);
    } else if |b| == 1 {
      assert b == [b[0]];
      DecodeEncodeOne(b[0]);
    }
  }

  /** Every character of an encoding is in the alphabet or is padding. */
  lemma {:induction false} EncodeAlphabet(b: seq<byte>)
    ensures forall i :: 0 <= i < |Encode(b)| ==> IsSymbol(Encode(b)[i]) || Encode(b)[i] == '='
    decreases |b|
  {
    if |b| >= 3 {
      EncodeAlphabet(b[3..]);
    }
  }
}
