/**
 * The application/x-www-form-urlencoded format of the WHATWG URL Standard
 * (section 5), as `URLSearchParams` writes and reads it: names and values are
 * UTF-8 encoded, bytes outside `A-Z a-z 0-9 * - . _` are percent-encoded with
 * upper-case hex digits, a space becomes `+`, and pairs are joined by `&`.
 */
module FormUrlEncoded {

  import opened Wrappers
  import opened Utf8
  import Js

  type Pair = (string, string)

  /** Bytes that the serializer writes as themselves. */
  predicate IsUnreserved(b: byte) {
    ('A' as int <= b <= 'Z' as int) || ('a' as int <= b <= 'z' as int) || ('0' as int <= b <= '9' as int)
    || b == '*' as int || b == '-' as int || b == '.' as int || b == '_' as int
  }

  function HexDigit(v: int): (c: char)
    requires 0 <= v < 16
    ensures IsHex(c as int) && HexValue(c as int) == v
  {
    if v < 10 then ('0' as int + v) as char else ('A' as int + (v - 10)) as char
  }

  predicate IsHex(b: int) {
    ('0' as int <= b <= '9' as int) || ('A' as int <= b <= 'F' as int) || ('a' as int <= b <= 'f' as int)
  }

  function HexValue(b: int): (v: int)
    requires IsHex(b)
    ensures 0 <= v < 16
  {
    if '0' as int <= b <= '9' as int then b - '0' as int
    else if 'A' as int <= b <= 'F' as int then b - 'A' as int + 10
    else b - 'a' as int + 10
  }

  /** The text written for one byte. */
  function EncodeByte(b: byte): (r: string)
    ensures forall i :: 0 <= i < |r| ==> r[i] as int < 0x80 && r[i] != '&' && r[i] != '='
  {
    if b == 0x20 then "+"
    else if IsUnreserved(b) then [b as char]
    else ['%', HexDigit(b / 16), HexDigit(b % 16)]
  }

  function EncodeBytes(bs: seq<byte>): (r: string)
    ensures forall i :: 0 <= i < |r| ==> r[i] as int < 0x80 && r[i] != '&' && r[i] != '='
    decreases |bs|
  {
    if bs == [] then "" else EncodeByte(bs[0]) + EncodeBytes(bs[1..])
  }

  /** The encoding of one name or value. */
  function EncodeComponent(s: string): string {
    EncodeBytes(Utf8.Encode(s))
  }

  function EncodePair(p: Pair): (r: string)
    ensures '&' !in r
  {
    EncodeComponent(p.0) + "=" + EncodeComponent(p.1)
  }

  /** Every pair encoded, in order. */
  function EncodePairs(pairs: seq<Pair>): (r: seq<string>)
    ensures |r| == |pairs| && forall i :: 0 <= i < |pairs| ==> r[i] == EncodePair(pairs[i])
    decreases |pairs|
  {
    if pairs == [] then [] else [EncodePair(pairs[0])] + EncodePairs(pairs[1..])
  }

  /** `new URLSearchParams(pairs).toString()`. */
  function Serialize(pairs: seq<Pair>): string {
    Js.Join(EncodePairs(pairs), "&")
  }

  /** The parser's first step: every `+` byte becomes a space. */
  function PlusToSpace(bs: seq<byte>): (r: seq<byte>)
    ensures |r| == |bs|
    ensures forall i :: 0 <= i < |bs| ==> r[i] == if bs[i] == '+' as int then 0x20 else bs[i]
  {
    seq(|bs|, i requires 0 <= i < |bs| => if bs[i] == '+' as int then 0x20 else bs[i])
  }

  /** Percent-decoding (section 1.3 of the URL Standard): `%` followed by two
      hex digits stands for that byte; any other byte, including a lone `%`,
      stands for itself. */
  function PercentDecode(bs: seq<byte>): seq<byte>
    decreases |bs|
  {
    if bs == [] then []
    else if bs[0] == '%' as int && |bs| >= 3 && IsHex(bs[1]) && IsHex(bs[2]) then
      [HexValue(bs[1]) * 16 + HexValue(bs[2])] + PercentDecode(bs[3..])
    else [bs[0]] + PercentDecode(bs[1..])
  }

  /** Decodes one name or value; None when the bytes are not UTF-8 (where the
      standard substitutes U+FFFD). */
  function DecodeComponent(s: string): Option<string> {
    Utf8.Decode(PercentDecode(PlusToSpace(Utf8.Encode(s))))
  }

  /** One `&`-separated piece: the name runs up to the first `=`; without
      one, the whole piece is the name and the value is empty. */
  function ParsePair(piece: string): Option<Pair> {
    var (name, value) :=
      if '=' in piece then
        var k := Js.IndexOf(piece, '=');
        (piece[..k], piece[k + 1..])
      else (piece, "");
    match (DecodeComponent(name), DecodeComponent(value))
    case (Some(n), Some(v)) => Some((n, v))
    case _ => None
  }

  function ParsePieces(pieces: seq<string>): Option<seq<Pair>>
    decreases |pieces|
  {
    if pieces == [] then Some([])
    else
      match ParsePieces(pieces[1..])
      case None => None
      case Some(rest) =>
        if pieces[0] == "" then Some(rest)
        else match ParsePair(pieces[0])
          case None => None
          case Some(p) => Some([p] + rest)
  }

  /** The urlencoded parser: split on `&`, skip empty pieces, decode each. */
  function Parse(query: string): Option<seq<Pair>> {
    ParsePieces(Js.Split(query, '&'))
  }

  /** `searchParams.get(name)`: the value of the first pair with that name,
      or null. */
  function Get(pairs: seq<Pair>, name: string): (r: Option<string>)
    ensures r.None? <==> forall i :: 0 <= i < |pairs| ==> pairs[i].0 != name
    ensures r.Some? ==> exists k :: 0 <= k < |pairs| && pairs[k] == (name, r.value)
                          && forall i :: 0 <= i < k ==> pairs[i].0 != name
    decreases |pairs|
  {
    if pairs == [] then None
    else if pairs[0].0 == name then Some(pairs[0].1)
    else
      var r := Get(pairs[1..], name);
      if r.Some? then
        var k :| 0 <= k < |pairs[1..]| && pairs[1..][k] == (name, r.value)
                 && forall i :: 0 <= i < k ==> pairs[1..][i].0 != name;
        assert pairs[k + 1] == (name, r.value);
        r
      else r
  }

  // ---- encodeURIComponent -------------------------------------------------

  /** Bytes that `encodeURIComponent` leaves as they are. */
  predicate IsUriUnreserved(b: byte) {
    ('A' as int <= b <= 'Z' as int) || ('a' as int <= b <= 'z' as int) || ('0' as int <= b <= '9' as int)
    || b == '-' as int || b == '_' as int || b == '.' as int || b == '!' as int
    || b == '~' as int || b == '*' as int || b == '\'' as int || b == '(' as int || b == ')' as int
  }

  /** The text `encodeURIComponent` writes for one byte. */
  function UriEncodeByte(b: byte): (r: string)
    ensures forall i :: 0 <= i < |r| ==> r[i] as int < 0x80 && r[i] !in "/?#&=+ "
  {
    if IsUriUnreserved(b) then [b as char] else ['%', HexDigit(b / 16), HexDigit(b % 16)]
  }

  function UriEncodeBytes(bs: seq<byte>): (r: string)
    ensures forall i :: 0 <= i < |r| ==> r[i] as int < 0x80 && r[i] !in "/?#&=+ "
    decreases |bs|
  {
    if bs == [] then "" else UriEncodeByte(bs[0]) + UriEncodeBytes(bs[1..])
  }

  /** `encodeURIComponent(s)`: the UTF-8 bytes of `s`, each outside the
      unreserved set written as `%XX`; the result is ASCII and holds none of
      the characters that would end a path segment or start a query. */
  function EncodeUriComponent(s: string): (r: string)
    ensures forall i :: 0 <= i < |r| ==> r[i] as int < 0x80 && r[i] !in "/?#&=+ "
  {
    UriEncodeBytes(Utf8.Encode(s))
  }

  /** The byte string of one byte's `encodeURIComponent` text. */
  function UriTokenBytes(b: byte): seq<byte> {
    if IsUriUnreserved(b) then [b]
    else ['%' as int, HexDigit(b / 16) as int, HexDigit(b % 16) as int]
  }

  lemma UriEncodeByteBytes(b: byte)
    ensures Utf8.Encode(UriEncodeByte(b)) == UriTokenBytes(b)
  {
    var t := UriEncodeByte(b);
    Utf8.EncodeAscii(t);
  }

  lemma UriEncodeBytesStep(bs: seq<byte>)
    requires bs != []
    ensures Utf8.Encode(UriEncodeBytes(bs)) == UriTokenBytes(bs[0]) + Utf8.Encode(UriEncodeBytes(bs[1..]))
  {
    var head, tail := UriEncodeByte(bs[0]), UriEncodeBytes(bs[1..]);
    assert UriEncodeBytes(bs) == head + tail;
    Utf8.EncodeAppend(head, tail);
    UriEncodeByteBytes(bs[0]);
  }

  /** One encoded byte decodes back to that byte, whatever follows it. */
  lemma DecodeUriToken(b: byte, rest: seq<byte>)
    ensures PercentDecode(UriTokenBytes(b) + rest) == [b] + PercentDecode(rest)
  {
    var t := UriTokenBytes(b);
    if IsUriUnreserved(b) {
      assert (t + rest)[1..] == rest;
    } else {
      assert (t + rest)[3..] == rest;
    }
  }

  /** Percent-decoding an encoded component gives back its UTF-8 bytes. */
  lemma {:induction false} DecodeUriEncodeBytes(bs: seq<byte>)
    ensures PercentDecode(Utf8.Encode(UriEncodeBytes(bs))) == bs
    decreases |bs|
  {
    if bs != [] {
      var rest := Utf8.Encode(UriEncodeBytes(bs[1..]));
      UriEncodeBytesStep(bs);
      DecodeUriToken(bs[0], rest);
      DecodeUriEncodeBytes(bs[1..]);
      assert [bs[0]] + bs[1..] == bs;
    }
  }

  /** `decodeURIComponent(encodeURIComponent(s)) == s`. */
  lemma DecodeEncodeUriComponent(s: string)
    ensures Utf8.Decode(PercentDecode(Utf8.Encode(EncodeUriComponent(s)))) == Some(s)
  {
    DecodeUriEncodeBytes(Utf8.Encode(s));
    Utf8.DecodeEncode(s);
  }

  // ---- Round trip ---------------------------------------------------------

  /** The byte string of one byte's encoding (its text is ASCII). */
  function TokenBytes(b: byte): seq<byte> {
    if b == 0x20 then ['+' as int]
    else if IsUnreserved(b) then [b]
    else ['%' as int, HexDigit(b / 16) as int, HexDigit(b % 16) as int]
  }

  lemma EncodeByteBytes(b: byte)
    ensures Utf8.Encode(EncodeByte(b)) == TokenBytes(b)
  {
    var t := EncodeByte(b);
    Utf8.EncodeAscii(t);
  }

  lemma PlusToSpaceAppend(x: seq<byte>, y: seq<byte>)
    ensures PlusToSpace(x + y) == PlusToSpace(x) + PlusToSpace(y)
  {
  }

  /** One encoded byte decodes back to that byte, whatever follows it. */
  lemma DecodeToken(b: byte, rest: seq<byte>)
    ensures PercentDecode(PlusToSpace(TokenBytes(b)) + rest) == [b] + PercentDecode(rest)
  {
    var t := PlusToSpace(TokenBytes(b));
    if b == 0x20 {
      assert t == [0x20];
      assert (t + rest)[1..] == rest;
    } else if IsUnreserved(b) {
      assert t == [b];
      assert (t + rest)[1..] == rest;
    } else {
      assert t == ['%' as int, HexDigit(b / 16) as int, HexDigit(b % 16) as int];
      assert (t + rest)[3..] == rest;
    }
  }

  lemma EncodeBytesStep(bs: seq<byte>)
    requires bs != []
    ensures PlusToSpace(Utf8.Encode(EncodeBytes(bs)))
         == PlusToSpace(TokenBytes(bs[0])) + PlusToSpace(Utf8.Encode(EncodeBytes(bs[1..])))
  {
    var head, tail := EncodeByte(bs[0]), EncodeBytes(bs[1..]);
    assert EncodeBytes(bs) == head + tail;
    Utf8.EncodeAppend(head, tail);
    EncodeByteBytes(bs[0]);
    PlusToSpaceAppend(TokenBytes(bs[0]), Utf8.Encode(tail));
  }

  lemma {:induction false} DecodeEncodeBytes(bs: seq<byte>)
    ensures PercentDecode(PlusToSpace(Utf8.Encode(EncodeBytes(bs)))) == bs
    decreases |bs|
  {
    if bs != [] {
      var rest := PlusToSpace(Utf8.Encode(EncodeBytes(bs[1..])));
      EncodeBytesStep(bs);
      DecodeToken(bs[0], rest);
      DecodeEncodeBytes(bs[1..]);
      assert [bs[0]] + bs[1..] == bs;
    }
  }

  /** Decoding a component inverts encoding it. */
  lemma DecodeEncodeComponent(s: string)
    ensures DecodeComponent(EncodeComponent(s)) == Some(s)
  {
    DecodeEncodeBytes(Utf8.Encode(s));
    Utf8.DecodeEncode(s);
  }

  lemma ParseEncodedPair(p: Pair)
    ensures ParsePair(EncodePair(p)) == Some(p)
  {
    var n, v := EncodeComponent(p.0), EncodeComponent(p.1);
    var piece := EncodePair(p);
    assert piece[|n|] == '=';
    assert '=' !in piece[..|n|] by { assert piece[..|n|] == n; }
    Js.IndexOfAt(piece, '=', |n|);
    assert piece[..|n|] == n && piece[|n| + 1..] == v;
    DecodeEncodeComponent(p.0);
    DecodeEncodeComponent(p.1);
  }

  /** A non-empty piece that parses adds its pair in front. */
  lemma ParsePiecesCons(piece: string, rest: seq<string>, p: Pair, ps: seq<Pair>)
    requires piece != "" && ParsePair(piece) == Some(p) && ParsePieces(rest) == Some(ps)
    ensures ParsePieces([piece] + rest) == Some([p] + ps)
  {
    assert ([piece] + rest)[1..] == rest;
  }

  lemma {:induction false} ParseEncodedPieces(pairs: seq<Pair>)
    ensures ParsePieces(EncodePairs(pairs)) == Some(pairs)
    decreases |pairs|
  {
    if pairs != [] {
      var head := EncodePair(pairs[0]);
      assert EncodePairs(pairs) == [head] + EncodePairs(pairs[1..]);
      ParseEncodedPieces(pairs[1..]);
      ParseEncodedPair(pairs[0]);
      assert head != "" by { assert head[|EncodeComponent(pairs[0].0)|] == '='; }
      ParsePiecesCons(head, EncodePairs(pairs[1..]), pairs[0], pairs[1..]);
      assert [pairs[0]] + pairs[1..] == pairs;
    }
  }

  /** Form-decoding a serialized list of pairs gives back exactly those pairs,
      in order (round trip of `URLSearchParams`). */
  lemma ParseSerialize(pairs: seq<Pair>)
    ensures Parse(Serialize(pairs)) == Some(pairs)
  {
    var pieces := EncodePairs(pairs);
    if pairs == [] {
      assert Serialize(pairs) == "";
      assert Js.Split("", '&') == [""];
    } else {
      Js.SplitJoin(pieces, '&');
      ParseEncodedPieces(pairs);
    }
  }
}
