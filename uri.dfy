/**
 * JavaScript's `encodeURI` and `decodeURI` on strings of Unicode scalar
 * values. `encodeURI` writes every character outside its URI set as the
 * `%XY` escapes of the character's UTF-8 bytes, with upper-case hex digits;
 * `decodeURI` reads them back, leaves escapes of the reserved characters as
 * they are, and throws a `URIError` on a malformed escape.
 */
module Uri {
  import opened Wrappers

  /** The characters `encodeURI` keeps: letters, digits, the marks `-_.!~*'()` and the reserved `;/?:@&=+$,#`. */
  predicate UriKept(c: char) {
    ('a' <= c <= 'z') || ('A' <= c <= 'Z') || ('0' <= c <= '9') || c in "-_.!~*'();/?:@&=+$,#"
  }

  /** The reserved characters, whose escapes `decodeURI` leaves escaped. */
  predicate UriReserved(c: char) {
    c in ";/?:@&=+$,#"
  }

  /** The UTF-8 encoding of a scalar value, one to four bytes. */
  function Utf8(c: char): (bs: seq<nat>)
    ensures 1 <= |bs| <= 4
    ensures forall i :: 0 <= i < |bs| ==> bs[i] < 256
    ensures |bs| == 1 <==> c as int < 0x80
  {
    var n := c as int;
    if n < 0x80 then [n]
    else if n < 0x800 then [0xC0 + n / 64, 0x80 + n % 64]
    else if n < 0x10000 then [0xE0 + n / 64 / 64, 0x80 + n / 64 % 64, 0x80 + n % 64]
    else [0xF0 + n / 64 / 64 / 64, 0x80 + n / 64 / 64 % 64, 0x80 + n / 64 % 64, 0x80 + n % 64]
  }

  function HexDigit(d: nat): (c: char)
    requires d < 16
  {
    if d < 10 then ('0' as int + d) as char else ('A' as int + d - 10) as char
  }

  /** The value of a hex digit of either case. */
  function HexValue(c: char): (v: Option<nat>)
    ensures v.Some? ==> v.value < 16
  {
    if '0' <= c <= '9' then Some(c as int - '0' as int)
    else if 'A' <= c <= 'F' then Some(c as int - 'A' as int + 10)
    else if 'a' <= c <= 'f' then Some(c as int - 'a' as int + 10)
    else None
  }

  lemma HexValueOfDigit(d: nat)
    requires d < 16
    ensures HexValue(HexDigit(d)) == Some(d)
  {
  }

  /** `%XY` for each byte. */
  function Escapes(bs: seq<nat>): (r: string)
    requires forall i :: 0 <= i < |bs| ==> bs[i] < 256
    ensures |r| == 3 * |bs|
  {
    if bs == [] then [] else ['%', HexDigit(bs[0] / 16), HexDigit(bs[0] % 16)] + Escapes(bs[1..])
  }

  function EncodeChar(c: char): (r: string)
    ensures UriKept(c) ==> r == [c]
    ensures !UriKept(c) ==> 3 <= |r| && r[0] == '%'
  {
    if UriKept(c) then [c] else Escapes(Utf8(c))
  }

  /** `encodeURI(s)`. */
  function EncodeUri(s: string): (r: string)
    ensures |r| >= |s|
  {
    if s == [] then [] else EncodeChar(s[0]) + EncodeUri(s[1..])
  }

  /** Encoding distributes over concatenation. */
  lemma {:induction false} EncodeUriAppend(a: string, b: string)
    ensures EncodeUri(a + b) == EncodeUri(a) + EncodeUri(b)
  {
    if a == [] {
      assert a + b == b;
    } else {
      assert (a + b)[0] == a[0];
      assert (a + b)[1..] == a[1..] + b;
      EncodeUriAppend(a[1..], b);
    }
  }

  /** A string is unchanged by `encodeURI` exactly when all of its characters are in the URI set. */
  lemma {:induction false} EncodeUriUnchanged(s: string)
    ensures EncodeUri(s) == s <==> forall i :: 0 <= i < |s| ==> UriKept(s[i])
  {
    if s != [] {
      EncodeUriUnchanged(s[1..]);
      if UriKept(s[0]) {
        assert s == [s[0]] + s[1..];
        assert forall i :: 1 <= i < |s| ==> s[i] == s[1..][i - 1];
      } else {
        assert |EncodeUri(s)| >= 3 + |s| - 1;
      }
    }
  }

  /** The byte of the escape `%XY` at `k`. */
  function EscapeAt(s: string, k: nat): (b: Option<nat>)
    ensures b.Some? ==> b.value < 256 && k + 3 <= |s|
  {
    if k + 3 <= |s| && s[k] == '%' && HexValue(s[k + 1]).Some? && HexValue(s[k + 2]).Some? then
      Some(16 * HexValue(s[k + 1]).value + HexValue(s[k + 2]).value)
    else None
  }

  /** The six payload bits of a continuation byte escaped at `k`, when there is one. */
  function Continuation(s: string, k: nat): (v: Option<nat>)
    ensures v.Some? ==> v.value < 64 && k + 3 <= |s|
  {
    match EscapeAt(s, k)
    case Some(b) => if 0x80 <= b < 0xC0 then Some(b - 0x80) else None
    case None => None
  }

  /** The scalar value `cp` read from `used` characters, unless it is overlong, a surrogate or too large. */
  function Scalar(cp: int, least: int, used: nat): (r: Option<(string, nat)>)
    ensures r.Some? ==> r.value.1 == used
  {
    if 0 <= least <= cp < 0x110000 && !(0xD800 <= cp < 0xE000) then Some(([cp as char], used)) else None
  }

  /**
   * One escaped character at the start of `s`: the text it decodes to and
   * the number of characters it takes, or `None` where `decodeURI` throws.
   */
  function DecodeEscape(s: string): (r: Option<(string, nat)>)
    ensures r.Some? ==> 3 <= r.value.1 <= |s|
  {
    match EscapeAt(s, 0)
    case None => None
    case Some(b0) =>
      if b0 < 0x80 then
        Some((if UriReserved(b0 as char) then s[..3] else [b0 as char], 3))
      else if 0xC0 <= b0 < 0xE0 then
        match Continuation(s, 3)
        case Some(c1) => Scalar((b0 - 0xC0) * 64 + c1, 0x80, 6)
        case None => None
      else if 0xE0 <= b0 < 0xF0 then
        match (Continuation(s, 3), Continuation(s, 6))
        case (Some(c1), Some(c2)) => Scalar((b0 - 0xE0) * 4096 + c1 * 64 + c2, 0x800, 9)
        case _ => None
      else if 0xF0 <= b0 < 0xF8 then
        match (Continuation(s, 3), Continuation(s, 6), Continuation(s, 9))
        case (Some(c1), Some(c2), Some(c3)) =>
          Scalar((b0 - 0xF0) * 262144 + c1 * 4096 + c2 * 64 + c3, 0x10000, 12)
        case _ => None
      else None
  }

  function Prepend(p: string, o: Option<string>): Option<string> {
    match o
    case None => None
    case Some(x) => Some(p + x)
  }

  /** `decodeURI(s)`; `None` where it throws a `URIError`. */
  function DecodeUri(s: string): (r: Option<string>)
    decreases |s|
  {
    if s == [] then Some([])
    else if s[0] != '%' then Prepend([s[0]], DecodeUri(s[1..]))
    else
      match DecodeEscape(s)
      case None => None
      case Some(piece) => Prepend(piece.0, DecodeUri(s[piece.1..]))
  }

  lemma EscapeAtOf(b: nat, rest: string)
    requires b < 256
    ensures EscapeAt(['%', HexDigit(b / 16), HexDigit(b % 16)] + rest, 0) == Some(b)
  {
    HexValueOfDigit(b / 16);
    HexValueOfDigit(b % 16);
  }

  /** The escape at position `3 * i` of `Escapes(bs)` is that of byte `i`. */
  lemma {:induction false} EscapeAtIndex(bs: seq<nat>, i: nat, rest: string)
    requires forall j :: 0 <= j < |bs| ==> bs[j] < 256
    requires i < |bs|
    ensures EscapeAt(Escapes(bs) + rest, 3 * i) == Some(bs[i])
  {
    var head := ['%', HexDigit(bs[0] / 16), HexDigit(bs[0] % 16)];
    var s := Escapes(bs) + rest;
    assert s == head + (Escapes(bs[1..]) + rest);
    if i == 0 {
      EscapeAtOf(bs[0], Escapes(bs[1..]) + rest);
    } else {
      EscapeAtIndex(bs[1..], i - 1, rest);
      assert EscapeAt(s, 3 * i) == EscapeAt(Escapes(bs[1..]) + rest, 3 * (i - 1));
    }
  }

  /** The escapes of a character that `encodeURI` does not keep decode back to that character. */
  lemma DecodeEncodedChar(c: char, rest: string)
    requires !UriKept(c)
    ensures DecodeEscape(EncodeChar(c) + rest) == Some(([c], |EncodeChar(c)|))
  {
    var n := c as int;
    if n < 0x80 {
      EscapeAtIndex(Utf8(c), 0, rest);
      assert !UriReserved(c);
    } else if n < 0x800 {
      DecodeTwoOf(c, rest);
    } else if n < 0x10000 {
      DecodeThreeOf(c, rest);
    } else {
      DecodeFourOf(c, rest);
    }
  }

  /** Six-bit groups spell the number they were taken from. */
  lemma Payload(n: nat)
    ensures (n / 64 / 64) * 4096 + (n / 64 % 64) * 64 + n % 64 == n
    ensures (n / 64 / 64 / 64) * 262144 + (n / 64 / 64 % 64) * 4096 + (n / 64 % 64) * 64 + n % 64 == n
  {
    var q1 := n / 64;
    var q2 := q1 / 64;
    assert q2 == (q2 / 64) * 64 + q2 % 64;
    assert q1 == q2 * 64 + q1 % 64;
    assert n == q1 * 64 + n % 64;
  }

  lemma DecodeTwoOf(c: char, rest: string)
    requires 0x80 <= c as int < 0x800
    ensures DecodeEscape(Escapes(Utf8(c)) + rest) == Some(([c], 6))
  {
    var n := c as int;
    var bs := Utf8(c);
    EscapeAtIndex(bs, 0, rest);
    EscapeAtIndex(bs, 1, rest);
    DecodeTwoBytes(Escapes(bs) + rest, bs[0], bs[1]);
  }

  lemma DecodeThreeOf(c: char, rest: string)
    requires 0x800 <= c as int < 0x10000
    ensures DecodeEscape(Escapes(Utf8(c)) + rest) == Some(([c], 9))
  {
    var n := c as int;
    var bs := Utf8(c);
    EscapeAtIndex(bs, 0, rest);
    EscapeAtIndex(bs, 1, rest);
    EscapeAtIndex(bs, 2, rest);
    DecodeThreeBytes(Escapes(bs) + rest, bs[0], bs[1], bs[2]);
    Payload(n);
  }

  lemma DecodeFourOf(c: char, rest: string)
    requires 0x10000 <= c as int
    ensures DecodeEscape(Escapes(Utf8(c)) + rest) == Some(([c], 12))
  {
    var n := c as int;
    var bs := Utf8(c);
    EscapeAtIndex(bs, 0, rest);
    EscapeAtIndex(bs, 1, rest);
    EscapeAtIndex(bs, 2, rest);
    EscapeAtIndex(bs, 3, rest);
    DecodeFourBytes(Escapes(bs) + rest, bs[0], bs[1], bs[2], bs[3]);
    Payload(n);
  }

  lemma DecodeTwoBytes(s: string, b0: nat, b1: nat)
    requires EscapeAt(s, 0) == Some(b0) && EscapeAt(s, 3) == Some(b1)
    requires 0xC0 <= b0 < 0xE0 && 0x80 <= b1 < 0xC0
    ensures DecodeEscape(s) == Scalar((b0 - 0xC0) * 64 + (b1 - 0x80), 0x80, 6)
  {
    assert Continuation(s, 3) == Some(b1 - 0x80);
  }

  lemma DecodeThreeBytes(s: string, b0: nat, b1: nat, b2: nat)
    requires EscapeAt(s, 0) == Some(b0) && EscapeAt(s, 3) == Some(b1) && EscapeAt(s, 6) == Some(b2)
    requires 0xE0 <= b0 < 0xF0 && 0x80 <= b1 < 0xC0 && 0x80 <= b2 < 0xC0
    ensures DecodeEscape(s) == Scalar((b0 - 0xE0) * 4096 + (b1 - 0x80) * 64 + (b2 - 0x80), 0x800, 9)
  {
    assert Continuation(s, 3) == Some(b1 - 0x80);
    assert Continuation(s, 6) == Some(b2 - 0x80);
  }

  lemma DecodeFourBytes(s: string, b0: nat, b1: nat, b2: nat, b3: nat)
    requires EscapeAt(s, 0) == Some(b0) && EscapeAt(s, 3) == Some(b1)
    requires EscapeAt(s, 6) == Some(b2) && EscapeAt(s, 9) == Some(b3)
    requires 0xF0 <= b0 < 0xF8 && 0x80 <= b1 < 0xC0 && 0x80 <= b2 < 0xC0 && 0x80 <= b3 < 0xC0
    ensures DecodeEscape(s)
      == Scalar((b0 - 0xF0) * 262144 + (b1 - 0x80) * 4096 + (b2 - 0x80) * 64 + (b3 - 0x80), 0x10000, 12)
  {
    assert Continuation(s, 3) == Some(b1 - 0x80);
    assert Continuation(s, 6) == Some(b2 - 0x80);
    assert Continuation(s, 9) == Some(b3 - 0x80);
  }

  /** `decodeURI(encodeURI(s)) == s`. */
  lemma {:induction false} DecodeEncodeUri(s: string)
    ensures DecodeUri(EncodeUri(s)) == Some(s)
  {
    if s != [] {
      var head := EncodeChar(s[0]);
      var tail := EncodeUri(s[1..]);
      DecodeEncodeUri(s[1..]);
      assert EncodeUri(s) == head + tail;
      if UriKept(s[0]) {
        assert (head + tail)[1..] == tail;
      } else {
        DecodeEncodedChar(s[0], tail);
        assert (head + tail)[|head|..] == tail;
      }
      assert s == [s[0]] + s[1..];
    }
  }
}
