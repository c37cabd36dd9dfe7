/** The `application/x-www-form-urlencoded` serializer that `URLSearchParams.toString()`
    applies to the pairs api.ts appends: every name and value is UTF-8 encoded, a space
    byte becomes `+`, the bytes of `*-._`, digits and ASCII letters stay as they are and
    every other byte becomes `%XX` with upper-case hex digits; pairs are written
    `name=value` and joined by `&`.

    Beside it stands a strict parser for the same format, and the serializer is proved
    to lose nothing: parsing what it writes gives back the pairs. */
module FormEncoding {
  import opened Common

  newtype byte = x: int | 0 <= x < 256

  type Pair = (string, string)

  // ----- UTF-8 -----

  /** The UTF-8 bytes of one Unicode scalar value. */
  function Utf8(c: char): (bs: seq<byte>)
    ensures 1 <= |bs| <= 4
  {
    var cp := c as int;
    if cp < 0x80 then [cp as byte]
    else if cp < 0x800 then [(0xC0 + cp / 64) as byte, (0x80 + cp % 64) as byte]
    else if cp < 0x1_0000 then
      [(0xE0 + cp / 4096) as byte, (0x80 + cp / 64 % 64) as byte, (0x80 + cp % 64) as byte]
    else
      [(0xF0 + cp / 262144) as byte, (0x80 + cp / 4096 % 64) as byte,
       (0x80 + cp / 64 % 64) as byte, (0x80 + cp % 64) as byte]
  }

  function Utf8String(s: string): seq<byte> {
    if s == [] then [] else Utf8(s[0]) + Utf8String(s[1..])
  }

  /** How many bytes a sequence starting with lead byte `b` has; 0 if `b` cannot lead. */
  function SequenceLength(b: byte): nat {
    if b < 0x80 then 1
    else if 0xC0 <= b < 0xE0 then 2
    else if 0xE0 <= b < 0xF0 then 3
    else if 0xF0 <= b < 0xF8 then 4
    else 0
  }

  predicate IsContinuation(b: byte) {
    0x80 <= b < 0xC0
  }

  /** The code point carried by one complete sequence. */
  function CodePoint(bs: seq<byte>): int
    requires 1 <= |bs| <= 4 && |bs| == SequenceLength(bs[0])
  {
    if |bs| == 1 then bs[0] as int
    else if |bs| == 2 then (bs[0] as int - 0xC0) * 64 + (bs[1] as int - 0x80)
    else if |bs| == 3 then
      (bs[0] as int - 0xE0) * 4096 + (bs[1] as int - 0x80) * 64 + (bs[2] as int - 0x80)
    else
      (bs[0] as int - 0xF0) * 262144 + (bs[1] as int - 0x80) * 4096
      + (bs[2] as int - 0x80) * 64 + (bs[3] as int - 0x80)
  }

  predicate IsScalar(cp: int) {
    (0 <= cp < 0xD800) || (0xE000 <= cp < 0x11_0000)
  }

  function Prepend<T>(x: T, rest: Option<seq<T>>): (r: Option<seq<T>>)
    ensures r.Some? <==> rest.Some?
    ensures r.Some? ==> r.value == [x] + rest.value
  {
    match rest
    case None => None
    case Some(xs) => Some([x] + xs)
  }

  /** A strict UTF-8 decoder: None on a malformed sequence. */
  function DecodeUtf8(bs: seq<byte>): Option<string>
    decreases |bs|
  {
    if bs == [] then Some("")
    else
      var n := SequenceLength(bs[0]);
      if n == 0 || |bs| < n then None
      else if exists k :: 1 <= k < n && !IsContinuation(bs[k]) then None
      else
        var cp := CodePoint(bs[..n]);
        if !IsScalar(cp) then None
        else Prepend(cp as char, DecodeUtf8(bs[n..]))
  }

  lemma Utf8Shape(c: char)
    ensures SequenceLength(Utf8(c)[0]) == |Utf8(c)|
    ensures forall k :: 1 <= k < |Utf8(c)| ==> IsContinuation(Utf8(c)[k])
    ensures CodePoint(Utf8(c)) == c as int
  {
    var cp := c as int;
    assert cp == cp / 64 * 64 + cp % 64;
    assert cp / 64 == cp / 4096 * 64 + cp / 64 % 64;
    assert cp / 4096 == cp / 262144 * 64 + cp / 4096 % 64;
  }

  /** Decoding the bytes of one character in front of more bytes yields that character
      in front of whatever the rest decodes to. */
  lemma DecodeUtf8Char(c: char, rest: seq<byte>)
    ensures DecodeUtf8(Utf8(c) + rest) == Prepend(c, DecodeUtf8(rest))
  {
    var bs := Utf8(c) + rest;
    var n := |Utf8(c)|;
    Utf8Shape(c);
    assert bs[..n] == Utf8(c);
    assert bs[n..] == rest;
    assert forall k :: 1 <= k < n ==> bs[k] == Utf8(c)[k];
  }

  lemma {:induction false} DecodeUtf8RoundTrip(s: string)
    ensures DecodeUtf8(Utf8String(s)) == Some(s)
  {
    if s != [] {
      DecodeUtf8RoundTrip(s[1..]);
      DecodeUtf8Char(s[0], Utf8String(s[1..]));
      assert [s[0]] + s[1..] == s;
    }
  }

  // ----- percent-encoding of bytes -----

  /** The bytes the serializer leaves as they are. */
  predicate Unreserved(b: byte) {
    b == 0x2A || b == 0x2D || b == 0x2E || (0x30 <= b <= 0x39)
    || (0x41 <= b <= 0x5A) || b == 0x5F || (0x61 <= b <= 0x7A)
  }

  function HexDigit(d: int): (c: char)
    requires 0 <= d < 16
  {
    "0123456789ABCDEF"[d]
  }

  function HexValue(c: char): Option<int> {
    if '0' <= c <= '9' then Some(c as int - '0' as int)
    else if 'A' <= c <= 'F' then Some(c as int - 'A' as int + 10)
    else if 'a' <= c <= 'f' then Some(c as int - 'a' as int + 10)
    else None
  }

  lemma HexValueOfDigit(d: int)
    requires 0 <= d < 16
    ensures HexValue(HexDigit(d)) == Some(d)
  {
  }

  function EscapeByte(b: byte): string {
    if b == 0x20 then "+"
    else if Unreserved(b) then [b as int as char]
    else ['%', HexDigit(b as int / 16), HexDigit(b as int % 16)]
  }

  function EscapeBytes(bs: seq<byte>): string {
    if bs == [] then "" else EscapeByte(bs[0]) + EscapeBytes(bs[1..])
  }

  /** One name or one value as the serializer writes it. */
  function EncodeComponent(s: string): string {
    EscapeBytes(Utf8String(s))
  }

  /** Reads `+`, `%XX` and the unreserved ASCII characters back as bytes. */
  function UnescapeBytes(t: string): Option<seq<byte>>
    decreases |t|
  {
    if t == [] then Some([])
    else if t[0] == '+' then Prepend(0x20 as byte, UnescapeBytes(t[1..]))
    else if t[0] == '%' then
      if |t| < 3 then None
      else
        match (HexValue(t[1]), HexValue(t[2]))
        case (Some(h), Some(l)) =>
          if 0 <= h < 16 && 0 <= l < 16 then Prepend((h * 16 + l) as byte, UnescapeBytes(t[3..]))
          else None
        case _ => None
    else if t[0] as int < 0x80 && Unreserved(t[0] as int as byte) then
      Prepend(t[0] as int as byte, UnescapeBytes(t[1..]))
    else None
  }

  lemma UnescapeByte(b: byte, rest: string)
    ensures UnescapeBytes(EscapeByte(b) + rest) == Prepend(b, UnescapeBytes(rest))
  {
    var t := EscapeByte(b) + rest;
    if b == 0x20 {
      assert t[1..] == rest;
    } else if Unreserved(b) {
      assert t[1..] == rest;
    } else {
      HexValueOfDigit(b as int / 16);
      HexValueOfDigit(b as int % 16);
      assert t[3..] == rest;
    }
  }

  lemma {:induction false} UnescapeRoundTrip(bs: seq<byte>)
    ensures UnescapeBytes(EscapeBytes(bs)) == Some(bs)
  {
    if bs != [] {
      UnescapeRoundTrip(bs[1..]);
      UnescapeByte(bs[0], EscapeBytes(bs[1..]));
      assert [bs[0]] + bs[1..] == bs;
    }
  }

  function DecodeComponent(t: string): Option<string> {
    match UnescapeBytes(t)
    case None => None
    case Some(bs) => DecodeUtf8(bs)
  }

  /** Decoding an encoded name or value gives back the original string. */
  lemma ComponentRoundTrip(s: string)
    ensures DecodeComponent(EncodeComponent(s)) == Some(s)
  {
    UnescapeRoundTrip(Utf8String(s));
    DecodeUtf8RoundTrip(s);
  }

  /** `s` contains neither of the two delimiters of the format. */
  predicate NoDelimiter(s: string) {
    forall i :: 0 <= i < |s| ==> s[i] != '&' && s[i] != '='
  }

  lemma {:induction false} EscapeBytesNoDelimiter(bs: seq<byte>)
    ensures NoDelimiter(EscapeBytes(bs))
  {
    if bs != [] {
      EscapeBytesNoDelimiter(bs[1..]);
      var head := EscapeByte(bs[0]);
      assert NoDelimiter(head);
      assert EscapeBytes(bs) == head + EscapeBytes(bs[1..]);
    }
  }

  // ----- pairs -----

  function SerializePair(p: Pair): string {
    EncodeComponent(p.0) + "=" + EncodeComponent(p.1)
  }

  /** `params.toString()` for the pairs appended to `params`, in order. */
  function Serialize(ps: seq<Pair>): string {
    if ps == [] then ""
    else if |ps| == 1 then SerializePair(ps[0])
    else SerializePair(ps[0]) + "&" + Serialize(ps[1..])
  }

  /** Splits `s` at every occurrence of `sep`. */
  function SplitOn(s: string, sep: char): (parts: seq<string>)
    ensures |parts| >= 1
    decreases |s|
  {
    if s == [] then [""]
    else
      var rest := SplitOn(s[1..], sep);
      if s[0] == sep then [""] + rest else [[s[0]] + rest[0]] + rest[1..]
  }

  /** Splits `s` at its first `sep`; without one, the second part is empty. */
  function SplitFirst(s: string, sep: char): (string, string)
    decreases |s|
  {
    if s == [] then ("", "")
    else if s[0] == sep then ("", s[1..])
    else
      var (a, b) := SplitFirst(s[1..], sep);
      ([s[0]] + a, b)
  }

  lemma {:induction false} SplitOnClean(a: string, sep: char)
    requires forall i :: 0 <= i < |a| ==> a[i] != sep
    ensures SplitOn(a, sep) == [a]
  {
    if a != [] {
      SplitOnClean(a[1..], sep);
      assert [a[0]] + a[1..] == a;
    }
  }

  lemma {:induction false} SplitOnJoin(a: string, sep: char, b: string)
    requires forall i :: 0 <= i < |a| ==> a[i] != sep
    ensures SplitOn(a + [sep] + b, sep) == [a] + SplitOn(b, sep)
  {
    var s := a + [sep] + b;
    if a == [] {
      assert s[1..] == b;
    } else {
      SplitOnJoin(a[1..], sep, b);
      assert s[1..] == a[1..] + [sep] + b;
      assert [a[0]] + a[1..] == a;
    }
  }

  lemma {:induction false} SplitFirstJoin(a: string, sep: char, b: string)
    requires forall i :: 0 <= i < |a| ==> a[i] != sep
    ensures SplitFirst(a + [sep] + b, sep) == (a, b)
  {
    var s := a + [sep] + b;
    if a == [] {
      assert s[1..] == b;
    } else {
      SplitFirstJoin(a[1..], sep, b);
      assert s[1..] == a[1..] + [sep] + b;
      assert [a[0]] + a[1..] == a;
    }
  }

  function ParsePair(piece: string): Option<Pair> {
    var (n, v) := SplitFirst(piece, '=');
    match (DecodeComponent(n), DecodeComponent(v))
    case (Some(name), Some(value)) => Some((name, value))
    case _ => None
  }

  function ParsePieces(pieces: seq<string>): Option<seq<Pair>> {
    if pieces == [] then Some([])
    else
      match ParsePair(pieces[0])
      case None => None
      case Some(p) => Prepend(p, ParsePieces(pieces[1..]))
  }

  /** The reading of a form-encoded string back into its pairs. */
  function Parse(s: string): Option<seq<Pair>> {
    if s == "" then Some([]) else ParsePieces(SplitOn(s, '&'))
  }

  lemma PairRoundTrip(p: Pair)
    ensures ParsePair(SerializePair(p)) == Some(p)
  {
    var n := EncodeComponent(p.0);
    EscapeBytesNoDelimiter(Utf8String(p.0));
    SplitFirstJoin(n, '=', EncodeComponent(p.1));
    assert SerializePair(p) == n + ['='] + EncodeComponent(p.1);
    ComponentRoundTrip(p.0);
    ComponentRoundTrip(p.1);
  }

  lemma {:induction false} SplitSerialized(ps: seq<Pair>)
    requires ps != []
    ensures SplitOn(Serialize(ps), '&') == seq(|ps|, i requires 0 <= i < |ps| => SerializePair(ps[i]))
  {
    var head := SerializePair(ps[0]);
    EscapeBytesNoDelimiter(Utf8String(ps[0].0));
    EscapeBytesNoDelimiter(Utf8String(ps[0].1));
    assert forall i :: 0 <= i < |head| ==> head[i] != '&';
    if |ps| == 1 {
      SplitOnClean(head, '&');
    } else {
      SplitSerialized(ps[1..]);
      SplitOnJoin(head, '&', Serialize(ps[1..]));
      assert Serialize(ps) == head + ['&'] + Serialize(ps[1..]);
    }
  }

  lemma {:induction false} ParsePiecesRoundTrip(ps: seq<Pair>)
    ensures ParsePieces(seq(|ps|, i requires 0 <= i < |ps| => SerializePair(ps[i]))) == Some(ps)
  {
    var pieces := seq(|ps|, i requires 0 <= i < |ps| => SerializePair(ps[i]));
    if ps != [] {
      PairRoundTrip(ps[0]);
      ParsePiecesRoundTrip(ps[1..]);
      assert pieces[1..] == seq(|ps[1..]|, i requires 0 <= i < |ps[1..]| => SerializePair(ps[1..][i]));
      assert [ps[0]] + ps[1..] == ps;
    }
  }

  /** The serializer is lossless: parsing what it writes yields the same pairs in the
      same order. */
  lemma SerializeRoundTrip(ps: seq<Pair>)
    ensures Parse(Serialize(ps)) == Some(ps)
  {
    if ps != [] {
      assert |SerializePair(ps[0])| >= 1;
      assert Serialize(ps) != "";
      SplitSerialized(ps);
      ParsePiecesRoundTrip(ps);
    }
  }
}
