/**
 * `encodeURIComponent`, as ECMAScript defines it: unreserved characters are
 * kept, every other character is replaced by the percent-escapes of its
 * UTF-8 bytes, with upper-case hexadecimal digits. Dafny characters are
 * Unicode scalar values, so the surrogate case (a URIError) cannot arise.
 * A decoder is given as the encoder's inverse.
 */
module UriComponent {
  import opened Wrappers

  type Byte = x: int | 0 <= x < 256
  type Nibble = x: int | 0 <= x < 16
  type Sextet = x: int | 0 <= x < 64

  /** The characters `encodeURIComponent` leaves as they are. */
  predicate IsUnreserved(c: char) {
    || ('A' <= c <= 'Z') || ('a' <= c <= 'z') || ('0' <= c <= '9')
    || c == '-' || c == '_' || c == '.' || c == '!' || c == '~'
    || c == '*' || c == '\'' || c == '(' || c == ')'
  }

  function HexChar(d: Nibble): char {
    if d < 10 then ('0' as int + d) as char else ('A' as int + d - 10) as char
  }

  /** The value of a hexadecimal digit of either case. */
  function HexValue(c: char): Option<Nibble> {
    if '0' <= c <= '9' then Some(c as int - '0' as int)
    else if 'A' <= c <= 'F' then Some(c as int - 'A' as int + 10)
    else if 'a' <= c <= 'f' then Some(c as int - 'a' as int + 10)
    else None
  }

  /** One escaped byte, `%XY`. */
  function Escape(b: Byte): string {
    ['%', HexChar(b / 16), HexChar(b % 16)]
  }

  /** The escapes of a byte sequence; they hold only hexadecimal digits and `%`. */
  function EscapeAll(bs: seq<Byte>): (r: string)
    ensures |r| == 3 * |bs|
    ensures forall i :: 0 <= i < |r| ==> IsUnreserved(r[i]) || r[i] == '%'
    decreases |bs|
  {
    if bs == [] then "" else Escape(bs[0]) + EscapeAll(bs[1..])
  }

  /** The UTF-8 encoding of a scalar value. */
  function Utf8(c: char): seq<Byte> {
    var cp := c as int;
    if cp < 0x80 then [cp]
    else if cp < 0x800 then
      [0xC0 + cp / 64, 0x80 + cp % 64]
    else if cp < 0x10000 then
      var q := cp / 64;
      [0xE0 + q / 64, 0x80 + q % 64, 0x80 + cp % 64]
    else
      var q := cp / 64;
      var q2 := q / 64;
      [0xF0 + q2 / 64, 0x80 + q2 % 64, 0x80 + q % 64, 0x80 + cp % 64]
  }

  function EncodeChar(c: char): string {
    if IsUnreserved(c) then [c] else EscapeAll(Utf8(c))
  }

  /**
   * `encodeURIComponent(s)`. The result holds only unreserved characters and
   * `%`, so it never holds a character that separates URL components or query
   * parameters (`&`, `=`, `#`, `?`, `/`, white space).
   */
  function Encode(s: string): (r: string)
    ensures forall i :: 0 <= i < |r| ==> IsUnreserved(r[i]) || r[i] == '%'
    decreases |s|
  {
    if s == [] then "" else EncodeChar(s[0]) + Encode(s[1..])
  }

  /** The encoding of a string is the concatenation of the encodings of its parts. */
  lemma {:induction false} EncodeAppend(a: string, b: string)
    ensures Encode(a + b) == Encode(a) + Encode(b)
    decreases |a|
  {
    if a != [] {
      assert (a + b)[1..] == a[1..] + b;
      EncodeAppend(a[1..], b);
    } else {
      assert a + b == b;
    }
  }

  /** Reads one escaped byte `%XY` from the front of `s`. */
  function ReadByte(s: string): (r: Option<(Byte, string)>)
    ensures r.Some? ==> |r.value.1| < |s|
  {
    if |s| >= 3 && s[0] == '%' && HexValue(s[1]).Some? && HexValue(s[2]).Some? then
      Some((HexValue(s[1]).value * 16 + HexValue(s[2]).value, s[3..]))
    else None
  }

  /** Reads one escaped UTF-8 continuation byte and gives its six payload bits. */
  function ReadContinuation(s: string): (r: Option<(Sextet, string)>)
    ensures r.Some? ==> |r.value.1| < |s|
  {
    match ReadByte(s)
    case Some((b, rest)) => if 0x80 <= b < 0xC0 then Some((b - 0x80, rest)) else None
    case None => None
  }

  /** Reads the escaped UTF-8 sequence of one scalar value. */
  function ReadScalar(s: string): (r: Option<(int, string)>)
    ensures r.Some? ==> |r.value.1| < |s|
  {
    match ReadByte(s)
    case None => None
    case Some((b0, r0)) =>
      if b0 < 0x80 then Some((b0, r0))
      else if 0xC0 <= b0 < 0xE0 then
        match ReadContinuation(r0)
        case None => None
        case Some((p1, r1)) => Some(((b0 - 0xC0) * 64 + p1, r1))
      else if 0xE0 <= b0 < 0xF0 then
        match ReadContinuation(r0)
        case None => None
        case Some((p1, r1)) =>
          match ReadContinuation(r1)
          case None => None
          case Some((p2, r2)) => Some((((b0 - 0xE0) * 64 + p1) * 64 + p2, r2))
      else if 0xF0 <= b0 < 0xF8 then
        match ReadContinuation(r0)
        case None => None
        case Some((p1, r1)) =>
          match ReadContinuation(r1)
          case None => None
          case Some((p2, r2)) =>
            match ReadContinuation(r2)
            case None => None
            case Some((p3, r3)) => Some(((((b0 - 0xF0) * 64 + p1) * 64 + p2) * 64 + p3, r3))
      else None
  }

  predicate IsScalar(cp: int) {
    (0 <= cp < 0xD800) || (0xE000 <= cp < 0x110000)
  }

  /** Reads one character of an encoded string. */
  function DecodeChar(s: string): (r: Option<(char, string)>)
    requires s != []
    ensures r.Some? ==> |r.value.1| < |s|
  {
    if s[0] != '%' then Some((s[0], s[1..]))
    else
      match ReadScalar(s)
      case None => None
      case Some((cp, rest)) => if IsScalar(cp) then Some((cp as char, rest)) else None
  }

  /** `decodeURIComponent`, up to its rejection of overlong UTF-8 forms. */
  function Decode(s: string): Option<string>
    decreases |s|
  {
    if s == [] then Some("")
    else
      match DecodeChar(s)
      case None => None
      case Some((c, rest)) =>
        match Decode(rest)
        case None => None
        case Some(t) => Some([c] + t)
  }

  lemma ReadEscape(b: Byte, rest: string)
    ensures ReadByte(Escape(b) + rest) == Some((b, rest))
  {
    var s := Escape(b) + rest;
    assert s[0] == '%' && s[1] == HexChar(b / 16) && s[2] == HexChar(b % 16);
    assert s[3..] == rest;
  }

  lemma ReadEscapedContinuation(p: Sextet, rest: string)
    ensures ReadContinuation(Escape(0x80 + p) + rest) == Some((p, rest))
  {
    ReadEscape(0x80 + p, rest);
  }

  lemma EscapeAllCons(bs: seq<Byte>, rest: string)
    requires |bs| > 0
    ensures EscapeAll(bs) + rest == Escape(bs[0]) + (EscapeAll(bs[1..]) + rest)
  {
  }

  lemma ReadTwo(b0: Byte, p1: Sextet, rest: string)
    requires 0xC0 <= b0 < 0xE0
    ensures ReadScalar(Escape(b0) + (Escape(0x80 + p1) + rest)) == Some(((b0 - 0xC0) * 64 + p1, rest))
  {
    ReadEscape(b0, Escape(0x80 + p1) + rest);
    ReadEscapedContinuation(p1, rest);
  }

  lemma ReadThree(b0: Byte, p1: Sextet, p2: Sextet, rest: string)
    requires 0xE0 <= b0 < 0xF0
    ensures ReadScalar(Escape(b0) + (Escape(0x80 + p1) + (Escape(0x80 + p2) + rest)))
      == Some((((b0 - 0xE0) * 64 + p1) * 64 + p2, rest))
  {
    ReadEscape(b0, Escape(0x80 + p1) + (Escape(0x80 + p2) + rest));
    ReadEscapedContinuation(p1, Escape(0x80 + p2) + rest);
    ReadEscapedContinuation(p2, rest);
  }

  lemma ReadFour(b0: Byte, p1: Sextet, p2: Sextet, p3: Sextet, rest: string)
    requires 0xF0 <= b0 < 0xF8
    ensures ReadScalar(Escape(b0) + (Escape(0x80 + p1) + (Escape(0x80 + p2) + (Escape(0x80 + p3) + rest))))
      == Some(((((b0 - 0xF0) * 64 + p1) * 64 + p2) * 64 + p3, rest))
  {
    ReadEscape(b0, Escape(0x80 + p1) + (Escape(0x80 + p2) + (Escape(0x80 + p3) + rest)));
    ReadEscapedContinuation(p1, Escape(0x80 + p2) + (Escape(0x80 + p3) + rest));
    ReadEscapedContinuation(p2, Escape(0x80 + p3) + rest);
    ReadEscapedContinuation(p3, rest);
  }

  lemma ReadUtf8Two(c: char, rest: string)
    requires 0x80 <= c as int < 0x800
    ensures ReadScalar(EscapeAll(Utf8(c)) + rest) == Some((c as int, rest))
  {
    var cp := c as int;
    var bs := Utf8(c);
    assert bs == [0xC0 + cp / 64, 0x80 + cp % 64];
    EscapeAllCons(bs, rest);
    EscapeAllCons(bs[1..], rest);
    ReadTwo(bs[0], cp % 64, rest);
  }

  lemma EscapeThree(b0: Byte, b1: Byte, b2: Byte, rest: string)
    ensures EscapeAll([b0, b1, b2]) + rest == Escape(b0) + (Escape(b1) + (Escape(b2) + rest))
  {
    assert [b0, b1, b2][1..] == [b1, b2];
    assert [b1, b2][1..] == [b2];
    assert EscapeAll([b2]) == Escape(b2) + EscapeAll([]);
    assert EscapeAll([b1, b2]) == Escape(b1) + Escape(b2);
    assert EscapeAll([b0, b1, b2]) == Escape(b0) + (Escape(b1) + Escape(b2));
  }

  lemma EscapeFour(b0: Byte, b1: Byte, b2: Byte, b3: Byte, rest: string)
    ensures EscapeAll([b0, b1, b2, b3]) + rest == Escape(b0) + (Escape(b1) + (Escape(b2) + (Escape(b3) + rest)))
  {
    assert [b0, b1, b2, b3][1..] == [b1, b2, b3];
    EscapeThree(b1, b2, b3, rest);
  }

  /** The three-byte split of a code point below 0x10000 puts it back together. */
  lemma SplitThree(cp: int)
    requires 0x800 <= cp < 0x10000
    ensures 0 <= cp / 64 / 64 < 16
    ensures (cp / 64 / 64 * 64 + cp / 64 % 64) * 64 + cp % 64 == cp
  {
    var q := cp / 64;
    assert q * 64 + cp % 64 == cp;
    assert q / 64 * 64 + q % 64 == q;
    assert q < 1024;
  }

  /** The four-byte split of a scalar value from 0x10000 on puts it back together. */
  lemma SplitFour(cp: int)
    requires 0x10000 <= cp < 0x110000
    ensures 0 <= cp / 64 / 64 / 64 < 8
    ensures ((cp / 64 / 64 / 64 * 64 + cp / 64 / 64 % 64) * 64 + cp / 64 % 64) * 64 + cp % 64 == cp
  {
    var q := cp / 64;
    var q2 := q / 64;
    assert q * 64 + cp % 64 == cp;
    assert q2 * 64 + q % 64 == q;
    assert q2 / 64 * 64 + q2 % 64 == q2;
    assert q < 0x4400;
    assert q2 < 0x110;
  }

  lemma ReadUtf8Three(c: char, rest: string)
    requires 0x800 <= c as int < 0x10000
    ensures ReadScalar(EscapeAll(Utf8(c)) + rest) == Some((c as int, rest))
  {
    var cp := c as int;
    SplitThree(cp);
    var a, b, d := cp / 64 / 64, cp / 64 % 64, cp % 64;
    assert Utf8(c) == [0xE0 + a, 0x80 + b, 0x80 + d];
    EscapeThree(0xE0 + a, 0x80 + b, 0x80 + d, rest);
    ReadThree(0xE0 + a, b, d, rest);
    assert ((0xE0 + a - 0xE0) * 64 + b) * 64 + d == cp;
  }

  lemma Utf8Four(c: char)
    requires 0x10000 <= c as int
    ensures var cp := c as int;
      Utf8(c) == [0xF0 + cp / 64 / 64 / 64, 0x80 + cp / 64 / 64 % 64, 0x80 + cp / 64 % 64, 0x80 + cp % 64]
  {
  }

  lemma ReadUtf8Four(c: char, rest: string)
    requires 0x10000 <= c as int
    ensures ReadScalar(EscapeAll(Utf8(c)) + rest) == Some((c as int, rest))
  {
    var cp := c as int;
    SplitFour(cp);
    var a, b, d, e := cp / 64 / 64 / 64, cp / 64 / 64 % 64, cp / 64 % 64, cp % 64;
    Utf8Four(c);
    EscapeFour(0xF0 + a, 0x80 + b, 0x80 + d, 0x80 + e, rest);
    ReadFour(0xF0 + a, b, d, e, rest);
  }

  /** Decoding the escapes of the UTF-8 form of `c` gives back `c`. */
  lemma ReadUtf8(c: char, rest: string)
    ensures ReadScalar(EscapeAll(Utf8(c)) + rest) == Some((c as int, rest))
  {
    var cp := c as int;
    if cp < 0x80 {
      EscapeAllCons(Utf8(c), rest);
      ReadEscape(cp, rest);
    } else if cp < 0x800 {
      ReadUtf8Two(c, rest);
    } else if cp < 0x10000 {
      ReadUtf8Three(c, rest);
    } else {
      ReadUtf8Four(c, rest);
    }
  }

  lemma DecodeEncodedChar(c: char, rest: string)
    ensures EncodeChar(c) + rest != []
    ensures DecodeChar(EncodeChar(c) + rest) == Some((c, rest))
  {
    if IsUnreserved(c) {
      assert (EncodeChar(c) + rest)[1..] == rest;
    } else {
      var bs := Utf8(c);
      ReadUtf8(c, rest);
    }
  }

  /** Decoding undoes encoding, so two different strings never encode alike. */
  lemma {:induction false} DecodeEncode(s: string)
    ensures Decode(Encode(s)) == Some(s)
    decreases |s|
  {
    if s != [] {
      DecodeEncodedChar(s[0], Encode(s[1..]));
      DecodeEncode(s[1..]);
      assert [s[0]] + s[1..] == s;
    }
  }

  lemma EncodeInjective(a: string, b: string)
    requires Encode(a) == Encode(b)
    ensures a == b
  {
    DecodeEncode(a);
    DecodeEncode(b);
  }
}
