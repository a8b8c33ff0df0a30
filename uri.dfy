/** `encodeURIComponent` and `decodeURIComponent` (ECMA-262, URI Handling
    Functions, section 19.2.6): a string is written as UTF-8 (RFC 3629)
    and every byte of a character outside the unescaped set becomes a
    percent-encoded octet `%XY` (section 2.1 of RFC 3986), with upper-case
    hexadecimal digits. A Dafny `char` is a Unicode scalar value, so the
    lone surrogates on which the JavaScript function throws cannot occur. */
module UriComponent {
  import opened Common

  type Byte = b: int | 0 <= b < 256

  /** The characters `encodeURIComponent` leaves alone: letters, digits
      and the marks `- _ . ! ~ * ' ( )`. */
  predicate IsUnescaped(c: char) {
    || 'A' <= c <= 'Z'
    || 'a' <= c <= 'z'
    || '0' <= c <= '9'
    || c in "-_.!~*'()"
  }

  /** The characters an encoded string is made of. */
  predicate InEncodedAlphabet(c: char) {
    IsUnescaped(c) || c == '%'
  }

  /** UTF-8 encoding of one scalar value (RFC 3629, section 3). */
  function Utf8(c: char): (bs: seq<Byte>)
    ensures 1 <= |bs| <= 4
    ensures |bs| == 1 <==> c as int < 0x80
    ensures |bs| == 2 <==> 0x80 <= c as int < 0x800
    ensures |bs| == 3 <==> 0x800 <= c as int < 0x10000
  {
    var cp := c as int;
    // six payload bits at a time, from the low end
    var q0, c0 := cp / 64, cp % 64;
    var q1, c1 := q0 / 64, q0 % 64;
    var q2, c2 := q1 / 64, q1 % 64;
    if cp < 0x80 then [cp]
    else if cp < 0x800 then [0xC0 + q0, 0x80 + c0]
    else if cp < 0x10000 then [0xE0 + q1, 0x80 + c1, 0x80 + c0]
    else [0xF0 + q2, 0x80 + c2, 0x80 + c1, 0x80 + c0]
  }

  /** Upper-case hexadecimal digit of a nibble. */
  function HexDigit(n: int): (c: char)
    requires 0 <= n < 16
    ensures IsUnescaped(c)
  {
    if n < 10 then ('0' as int + n) as char else ('A' as int + n - 10) as char
  }

  /** Value of a hexadecimal digit of either case. */
  function HexValue(c: char): (r: Option<int>)
    ensures r.Some? ==> 0 <= r.value < 16
  {
    if '0' <= c <= '9' then Some(c as int - '0' as int)
    else if 'A' <= c <= 'F' then Some(c as int - 'A' as int + 10)
    else if 'a' <= c <= 'f' then Some(c as int - 'a' as int + 10)
    else None
  }

  function PercentByte(b: Byte): string {
    ['%', HexDigit(b / 16), HexDigit(b % 16)]
  }

  function PercentBytes(bs: seq<Byte>): (t: string)
    ensures |t| == 3 * |bs|
  {
    if bs == [] then [] else PercentByte(bs[0]) + PercentBytes(bs[1..])
  }

  function EncodeChar(c: char): string {
    if IsUnescaped(c) then [c] else PercentBytes(Utf8(c))
  }

  /** `encodeURIComponent(s)`. */
  function Encode(s: string): string {
    if s == [] then [] else EncodeChar(s[0]) + Encode(s[1..])
  }

  /** Reads one `%XY` octet from the front of `t`. */
  function ReadByte(t: string): (r: Option<(Byte, string)>)
    ensures r.Some? ==> |t| >= 3 && r.value.1 == t[3..]
  {
    if |t| >= 3 && t[0] == '%' && HexValue(t[1]).Some? && HexValue(t[2]).Some? then
      Some((HexValue(t[1]).value * 16 + HexValue(t[2]).value, t[3..]))
    else
      None
  }

  /** Reads one UTF-8 continuation octet `10xxxxxx` and gives its six payload bits. */
  function ReadContinuation(t: string): (r: Option<(int, string)>)
    ensures r.Some? ==> 0 <= r.value.0 < 64 && |r.value.1| + 3 == |t|
  {
    match ReadByte(t)
    case None => None
    case Some((b, rest)) => if 0x80 <= b < 0xC0 then Some((b - 0x80, rest)) else None
  }

  /** Decodes the escaped UTF-8 sequence at the front of `t`; None where
      `decodeURIComponent` throws a URIError (a malformed octet, a bad lead
      or continuation byte, an overlong form, a surrogate, a value above
      U+10FFFF). */
  function DecodeEscape(t: string): (r: Option<(char, string)>)
    ensures r.Some? ==> |r.value.1| < |t|
  {
    match ReadByte(t)
    case None => None
    case Some((b0, t1)) =>
      if b0 < 0x80 then Some((b0 as char, t1))
      else if 0xC0 <= b0 < 0xE0 then
        match ReadContinuation(t1)
        case None => None
        case Some((c1, t2)) =>
          var cp := (b0 - 0xC0) * 64 + c1;
          if cp < 0x80 then None else Some((cp as char, t2))
      else if 0xE0 <= b0 < 0xF0 then
        match ReadContinuation(t1)
        case None => None
        case Some((c1, t2)) =>
          match ReadContinuation(t2)
          case None => None
          case Some((c2, t3)) =>
            var cp := (b0 - 0xE0) * 4096 + c1 * 64 + c2;
            if cp < 0x800 || 0xD800 <= cp < 0xE000 then None else Some((cp as char, t3))
      else if 0xF0 <= b0 < 0xF8 then
        match ReadContinuation(t1)
        case None => None
        case Some((c1, t2)) =>
          match ReadContinuation(t2)
          case None => None
          case Some((c2, t3)) =>
            match ReadContinuation(t3)
            case None => None
            case Some((c3, t4)) =>
              var cp := (b0 - 0xF0) * 262144 + c1 * 4096 + c2 * 64 + c3;
              if cp < 0x10000 || 0x110000 <= cp then None else Some((cp as char, t4))
      else None
  }

  /** `decodeURIComponent(t)`; None where it throws a URIError. */
  function Decode(t: string): Option<string>
    decreases |t|
  {
    if t == [] then Some([])
    else if t[0] != '%' then
      match Decode(t[1..])
      case None => None
      case Some(s) => Some([t[0]] + s)
    else
      match DecodeEscape(t)
      case None => None
      case Some((c, rest)) =>
        match Decode(rest)
        case None => None
        case Some(s) => Some([c] + s)
  }

  lemma ReadPercentByte(b: Byte, rest: string)
    ensures ReadByte(PercentByte(b) + rest) == Some((b, rest))
  {
    var t := PercentByte(b) + rest;
    assert t[0] == '%' && t[1] == HexDigit(b / 16) && t[2] == HexDigit(b % 16);
    assert t[3..] == rest;
  }

  lemma ReadPercentContinuation(b: Byte, rest: string)
    requires 0x80 <= b < 0xC0
    ensures ReadContinuation(PercentByte(b) + rest) == Some((b - 0x80, rest))
  {
    ReadPercentByte(b, rest);
  }

  lemma PercentBytesFront(bs: seq<Byte>, rest: string)
    requires bs != []
    ensures PercentBytes(bs) + rest == PercentByte(bs[0]) + (PercentBytes(bs[1..]) + rest)
  {
  }

  lemma DecodeEscapeOne(c: char, rest: string)
    requires c as int < 0x80
    ensures DecodeEscape(PercentBytes(Utf8(c)) + rest) == Some((c, rest))
  {
    var bs := Utf8(c);
    PercentBytesFront(bs, rest);
    assert bs[1..] == [];
    ReadPercentByte(bs[0], rest);
  }

  // Reading back two, three and four escaped octets.

  lemma ReadTwoOctets(b0: Byte, b1: Byte, rest: string)
    requires 0xC0 <= b0 < 0xE0 && 0x80 <= b1 < 0xC0
    requires 0x80 <= (b0 - 0xC0) * 64 + (b1 - 0x80)
    ensures DecodeEscape(PercentByte(b0) + (PercentByte(b1) + rest))
         == Some((((b0 - 0xC0) * 64 + (b1 - 0x80)) as char, rest))
  {
    ReadPercentByte(b0, PercentByte(b1) + rest);
    ReadPercentContinuation(b1, rest);
  }

  lemma ReadThreeOctets(b0: Byte, b1: Byte, b2: Byte, rest: string)
    requires 0xE0 <= b0 < 0xF0 && 0x80 <= b1 < 0xC0 && 0x80 <= b2 < 0xC0
    requires var cp := (b0 - 0xE0) * 4096 + (b1 - 0x80) * 64 + (b2 - 0x80);
             0x800 <= cp && !(0xD800 <= cp < 0xE000)
    ensures DecodeEscape(PercentByte(b0) + (PercentByte(b1) + (PercentByte(b2) + rest)))
         == Some((((b0 - 0xE0) * 4096 + (b1 - 0x80) * 64 + (b2 - 0x80)) as char, rest))
  {
    ReadPercentByte(b0, PercentByte(b1) + (PercentByte(b2) + rest));
    ReadPercentContinuation(b1, PercentByte(b2) + rest);
    ReadPercentContinuation(b2, rest);
  }

  lemma ReadFourOctets(b0: Byte, b1: Byte, b2: Byte, b3: Byte, rest: string)
    requires 0xF0 <= b0 < 0xF8 && 0x80 <= b1 < 0xC0 && 0x80 <= b2 < 0xC0 && 0x80 <= b3 < 0xC0
    requires var cp := (b0 - 0xF0) * 262144 + (b1 - 0x80) * 4096 + (b2 - 0x80) * 64 + (b3 - 0x80);
             0x10000 <= cp < 0x110000
    ensures DecodeEscape(PercentByte(b0) + (PercentByte(b1) + (PercentByte(b2) + (PercentByte(b3) + rest))))
         == Some((((b0 - 0xF0) * 262144 + (b1 - 0x80) * 4096 + (b2 - 0x80) * 64 + (b3 - 0x80)) as char, rest))
  {
    var t3 := PercentByte(b3) + rest;
    var t2 := PercentByte(b2) + t3;
    ReadPercentByte(b0, PercentByte(b1) + t2);
    ReadPercentContinuation(b1, t2);
    ReadPercentContinuation(b2, t3);
    ReadPercentContinuation(b3, rest);
  }

  lemma DecodeEscapeTwo(c: char, rest: string)
    requires 0x80 <= c as int < 0x800
    ensures DecodeEscape(PercentBytes(Utf8(c)) + rest) == Some((c, rest))
  {
    var cp := c as int;
    var q0, c0 := cp / 64, cp % 64;
    var b0, b1 := 0xC0 + q0, 0x80 + c0;
    assert Utf8(c) == [b0, b1];
    assert PercentBytes([b0, b1]) + rest == PercentByte(b0) + (PercentByte(b1) + rest) by {
      PercentBytesFront([b0, b1], rest);
      PercentBytesFront([b1], rest);
      assert [b0, b1][1..] == [b1] && [b1][1..] == [];
    }
    assert (b0 - 0xC0) * 64 + (b1 - 0x80) == cp;
    ReadTwoOctets(b0, b1, rest);
  }

  lemma DecodeEscapeThree(c: char, rest: string)
    requires 0x800 <= c as int < 0x10000
    ensures DecodeEscape(PercentBytes(Utf8(c)) + rest) == Some((c, rest))
  {
    var cp := c as int;
    var q0, c0 := cp / 64, cp % 64;
    var q1, c1 := q0 / 64, q0 % 64;
    var b0, b1, b2 := 0xE0 + q1, 0x80 + c1, 0x80 + c0;
    assert Utf8(c) == [b0, b1, b2];
    assert PercentBytes([b0, b1, b2]) + rest
        == PercentByte(b0) + (PercentByte(b1) + (PercentByte(b2) + rest)) by {
      PercentBytesFront([b0, b1, b2], rest);
      PercentBytesFront([b1, b2], rest);
      PercentBytesFront([b2], rest);
      assert [b0, b1, b2][1..] == [b1, b2] && [b1, b2][1..] == [b2] && [b2][1..] == [];
    }
    assert (b0 - 0xE0) * 4096 + (b1 - 0x80) * 64 + (b2 - 0x80) == cp by {
      assert cp == q0 * 64 + c0 && q0 == q1 * 64 + c1;
    }
    ReadThreeOctets(b0, b1, b2, rest);
  }

  lemma Utf8Four(c: char) returns (b0: Byte, b1: Byte, b2: Byte, b3: Byte)
    requires 0x10000 <= c as int
    ensures Utf8(c) == [b0, b1, b2, b3]
    ensures 0xF0 <= b0 < 0xF8 && 0x80 <= b1 < 0xC0 && 0x80 <= b2 < 0xC0 && 0x80 <= b3 < 0xC0
    ensures (b0 - 0xF0) * 262144 + (b1 - 0x80) * 4096 + (b2 - 0x80) * 64 + (b3 - 0x80) == c as int
  {
    var cp := c as int;
    var q0, c0 := cp / 64, cp % 64;
    var q1, c1 := q0 / 64, q0 % 64;
    var q2, c2 := q1 / 64, q1 % 64;
    b0, b1, b2, b3 := 0xF0 + q2, 0x80 + c2, 0x80 + c1, 0x80 + c0;
    assert cp == q0 * 64 + c0 && q0 == q1 * 64 + c1 && q1 == q2 * 64 + c2;
  }

  lemma PercentFour(b0: Byte, b1: Byte, b2: Byte, b3: Byte, rest: string)
    ensures PercentBytes([b0, b1, b2, b3]) + rest
         == PercentByte(b0) + (PercentByte(b1) + (PercentByte(b2) + (PercentByte(b3) + rest)))
  {
    PercentBytesFront([b0, b1, b2, b3], rest);
    PercentBytesFront([b1, b2, b3], rest);
    PercentBytesFront([b2, b3], rest);
    PercentBytesFront([b3], rest);
    assert [b0, b1, b2, b3][1..] == [b1, b2, b3] && [b1, b2, b3][1..] == [b2, b3];
    assert [b2, b3][1..] == [b3] && [b3][1..] == [];
  }

  lemma DecodeEscapeFour(c: char, rest: string)
    requires 0x10000 <= c as int
    ensures DecodeEscape(PercentBytes(Utf8(c)) + rest) == Some((c, rest))
  {
    var b0, b1, b2, b3 := Utf8Four(c);
    PercentFour(b0, b1, b2, b3, rest);
    ReadFourOctets(b0, b1, b2, b3, rest);
  }

  /** The escape sequence written for a character reads back as that character. */
  lemma DecodeEscapeChar(c: char, rest: string)
    requires !IsUnescaped(c)
    ensures DecodeEscape(EncodeChar(c) + rest) == Some((c, rest))
  {
    var cp := c as int;
    if cp < 0x80 {
      DecodeEscapeOne(c, rest);
    } else if cp < 0x800 {
      DecodeEscapeTwo(c, rest);
    } else if cp < 0x10000 {
      DecodeEscapeThree(c, rest);
    } else {
      DecodeEscapeFour(c, rest);
    }
  }

  /** `decodeURIComponent(encodeURIComponent(s)) === s` for every string. */
  lemma {:induction false} DecodeEncode(s: string)
    ensures Decode(Encode(s)) == Some(s)
  {
    if s != [] {
      var c, rest := s[0], Encode(s[1..]);
      var t := EncodeChar(c) + rest;
      assert Encode(s) == t;
      DecodeEncode(s[1..]);
      if IsUnescaped(c) {
        assert t[0] == c && t[1..] == rest;
      } else {
        assert t[0] == '%';
        DecodeEscapeChar(c, rest);
      }
      assert [c] + s[1..] == s;
    }
  }

  lemma {:induction false} PercentBytesAlphabet(bs: seq<Byte>)
    ensures forall i :: 0 <= i < |PercentBytes(bs)| ==> InEncodedAlphabet(PercentBytes(bs)[i])
  {
    if bs != [] {
      PercentBytesAlphabet(bs[1..]);
    }
  }

  /** The encoded text is made only of unescaped characters and `%`. */
  lemma {:induction false} EncodeAlphabet(s: string)
    ensures forall i :: 0 <= i < |Encode(s)| ==> InEncodedAlphabet(Encode(s)[i])
  {
    if s != [] {
      EncodeAlphabet(s[1..]);
      if !IsUnescaped(s[0]) {
        PercentBytesAlphabet(Utf8(s[0]));
      }
      var a, b := EncodeChar(s[0]), Encode(s[1..]);
      assert forall i :: 0 <= i < |a| ==> InEncodedAlphabet(a[i]);
      assert forall i :: 0 <= i < |a + b| ==> (a + b)[i] == (if i < |a| then a[i] else b[i - |a|]);
    }
  }

  /** Hence the encoded text holds no character that ends or splits a URI
      query parameter: no space, line feed, `&`, `=`, `+`, `?`, `#` or `/`. */
  lemma EncodeHasNoDelimiters(s: string)
    ensures forall i :: 0 <= i < |Encode(s)| ==> Encode(s)[i] !in " \n&=+?#/"
  {
    EncodeAlphabet(s);
  }

  /** The rupee sign U+20B9 is the three octets E2 82 B9. */
  lemma EncodeRupeeSign()
    ensures Encode("\U{20B9}") == "%E2%82%B9"
  {
    assert Utf8('\U{20B9}') == [0xE2, 0x82, 0xB9];
  }
}
