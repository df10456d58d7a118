/**
 * ECMAScript `encodeURIComponent`: every character outside the unreserved
 * set A-Z a-z 0-9 - _ . ! ~ * ' ( ) becomes the percent-escaped bytes of its
 * UTF-8 encoding (section 2.1 of RFC 3986, upper-case hex digits).
 * A decoder is defined beside it so that the round trip can be stated.
 *
 * A Dafny `char` is a Unicode scalar value, so the lone surrogates on
 * which `encodeURIComponent` throws a URIError cannot occur.
 */
module PercentEncoding {
  import opened Common

  type Byte = b: int | 0 <= b < 256

  /** The characters `encodeURIComponent` leaves as they are. */
  predicate Unreserved(c: char)
  {
    || ('A' <= c <= 'Z') || ('a' <= c <= 'z') || ('0' <= c <= '9')
    || c == '-' || c == '_' || c == '.' || c == '!' || c == '~'
    || c == '*' || c == '\'' || c == '(' || c == ')'
  }

  /** The UTF-8 encoding of one scalar value (section 3 of RFC 3629). */
  function Utf8(c: char): (bytes: seq<Byte>)
    ensures 1 <= |bytes| <= 4
    ensures (|bytes| == 1) == ((c as int) < 0x80)
  {
    var n := c as int;
    if n < 0x80 then [n]
    else if n < 0x800 then [0xC0 + n / 0x40, 0x80 + n % 0x40]
    else if n < 0x1_0000 then [0xE0 + n / 0x1000, 0x80 + (n / 0x40) % 0x40, 0x80 + n % 0x40]
    else [0xF0 + n / 0x4_0000, 0x80 + (n / 0x1000) % 0x40, 0x80 + (n / 0x40) % 0x40, 0x80 + n % 0x40]
  }

  function Utf8Encode(s: string): seq<Byte>
  {
    if s == [] then [] else Utf8(s[0]) + Utf8Encode(s[1..])
  }

  const HexDigits: string := "0123456789ABCDEF"

  function HexDigit(d: nat): char
    requires d < 16
  {
    HexDigits[d]
  }

  /** `%` followed by the two upper-case hex digits of `b`. */
  function Escape(b: Byte): string
  {
    ['%', HexDigit(b / 16), HexDigit(b % 16)]
  }

  function EscapeAll(bs: seq<Byte>): string
  {
    if bs == [] then "" else Escape(bs[0]) + EscapeAll(bs[1..])
  }

  function EncodeChar(c: char): string
  {
    if Unreserved(c) then [c] else EscapeAll(Utf8(c))
  }

  /** `encodeURIComponent(s)`. Its output holds only unreserved characters and `%`,
      so never a `&` or a `=`, and text made of unreserved characters only passes unchanged. */
  function EncodeURIComponent(s: string): (r: string)
    ensures forall i | 0 <= i < |r| :: Unreserved(r[i]) || r[i] == '%'
    ensures '&' !in r && '=' !in r
    ensures (forall i | 0 <= i < |s| :: Unreserved(s[i])) ==> r == s
  {
    if s == [] then ""
    else
      var head := EncodeChar(s[0]);
      var tail := EncodeURIComponent(s[1..]);
      assert forall i | 0 <= i < |head| :: Unreserved(head[i]) || head[i] == '%' by {
        if !Unreserved(s[0]) { EscapeAllAlphabet(Utf8(s[0])); }
      }
      assert forall i | 0 <= i < |head + tail| :: Unreserved((head + tail)[i]) || (head + tail)[i] == '%' by {
        forall i | 0 <= i < |head + tail|
          ensures Unreserved((head + tail)[i]) || (head + tail)[i] == '%'
        {
          if i < |head| { assert (head + tail)[i] == head[i]; } else { assert (head + tail)[i] == tail[i - |head|]; }
        }
      }
      head + tail
  }

  lemma {:induction false} EscapeAllAlphabet(bs: seq<Byte>)
    ensures forall i | 0 <= i < |EscapeAll(bs)| :: Unreserved(EscapeAll(bs)[i]) || EscapeAll(bs)[i] == '%'
  {
    if bs != [] {
      EscapeAllAlphabet(bs[1..]);
      var e, t := Escape(bs[0]), EscapeAll(bs[1..]);
      assert forall i | 0 <= i < 16 :: Unreserved(HexDigits[i]);
      forall i | 0 <= i < |e + t| ensures Unreserved((e + t)[i]) || (e + t)[i] == '%' {
        if i >= |e| { assert (e + t)[i] == t[i - |e|]; }
      }
    }
  }

  // ---- decoding, the partner of the encoder ----

  function HexValue(c: char): (v: Option<nat>)
    ensures v.Some? ==> v.value < 16
  {
    if '0' <= c <= '9' then Some(c as int - '0' as int)
    else if 'A' <= c <= 'F' then Some(c as int - 'A' as int + 10)
    else if 'a' <= c <= 'f' then Some(c as int - 'a' as int + 10)
    else None
  }

  function PrependTo<T>(p: seq<T>, o: Option<seq<T>>): Option<seq<T>>
  {
    match o
    case None => None
    case Some(x) => Some(p + x)
  }

  /** Turns `%XX` escapes and ASCII characters back into bytes; None on a broken escape
      or a character that an encoder never emits. */
  function Unescape(s: string): Option<seq<Byte>>
    decreases |s|
  {
    if s == [] then Some([])
    else if s[0] == '%' then
      if |s| < 3 then None
      else
        match (HexValue(s[1]), HexValue(s[2]))
        case (Some(h), Some(l)) => PrependTo([h * 16 + l], Unescape(s[3..]))
        case _ => None
    else if (s[0] as int) < 0x80 then PrependTo([s[0] as int], Unescape(s[1..]))
    else None
  }

  predicate IsContinuation(b: Byte)
  {
    0x80 <= b < 0xC0
  }

  /** The six payload bits of a continuation byte. */
  function Payload(b: Byte): int
  {
    b as int - 0x80
  }

  /** UTF-8 decoding; None on a malformed, overlong or surrogate sequence. */
  function Utf8Decode(bs: seq<Byte>): Option<string>
    decreases |bs|
  {
    if bs == [] then Some("")
    else
      var b0 := bs[0] as int;
      if b0 < 0x80 then PrependTo([b0 as char], Utf8Decode(bs[1..]))
      else if 0xC0 <= b0 < 0xE0 && |bs| >= 2 && IsContinuation(bs[1]) then
        var n := (b0 - 0xC0) * 0x40 + Payload(bs[1]);
        if n < 0x80 then None
        else PrependTo([n as char], Utf8Decode(bs[2..]))
      else if 0xE0 <= b0 < 0xF0 && |bs| >= 3 && IsContinuation(bs[1]) && IsContinuation(bs[2]) then
        var n := (b0 - 0xE0) * 0x1000 + Payload(bs[1]) * 0x40 + Payload(bs[2]);
        if n < 0x800 || 0xD800 <= n < 0xE000 then None
        else PrependTo([n as char], Utf8Decode(bs[3..]))
      else if 0xF0 <= b0 < 0xF8 && |bs| >= 4
              && IsContinuation(bs[1]) && IsContinuation(bs[2]) && IsContinuation(bs[3]) then
        var n := (b0 - 0xF0) * 0x4_0000 + Payload(bs[1]) * 0x1000 + Payload(bs[2]) * 0x40 + Payload(bs[3]);
        if n < 0x1_0000 || n >= 0x11_0000 then None
        else PrependTo([n as char], Utf8Decode(bs[4..]))
      else None
  }

  /** `decodeURIComponent(s)`, None where it would throw. */
  function DecodeURIComponent(s: string): Option<string>
  {
    match Unescape(s)
    case None => None
    case Some(bs) => Utf8Decode(bs)
  }

  lemma HexDigitValue(d: nat)
    requires d < 16
    ensures HexValue(HexDigit(d)) == Some(d)
  {
  }

  lemma UnescapeEscape(b: Byte, rest: string)
    ensures Unescape(Escape(b) + rest) == PrependTo([b], Unescape(rest))
  {
    var s := Escape(b) + rest;
    assert s[0] == '%' && s[1] == HexDigit(b / 16) && s[2] == HexDigit(b % 16) && s[3..] == rest;
    HexDigitValue(b / 16);
    HexDigitValue(b % 16);
  }

  lemma {:induction false} UnescapeEscapeAll(bs: seq<Byte>, rest: string)
    ensures Unescape(EscapeAll(bs) + rest) == PrependTo(bs, Unescape(rest))
  {
    if bs == [] {
      assert EscapeAll(bs) + rest == rest;
      match Unescape(rest) {
        case None =>
        case Some(x) => assert bs + x == x;
      }
    } else {
      var t := EscapeAll(bs[1..]) + rest;
      assert EscapeAll(bs) + rest == Escape(bs[0]) + t;
      UnescapeEscape(bs[0], t);
      UnescapeEscapeAll(bs[1..], rest);
      PrependToTwice([bs[0]], bs[1..], Unescape(rest));
      assert [bs[0]] + bs[1..] == bs;
    }
  }

  lemma PrependToTwice<T>(a: seq<T>, b: seq<T>, o: Option<seq<T>>)
    ensures PrependTo(a, PrependTo(b, o)) == PrependTo(a + b, o)
  {
    match o {
      case None =>
      case Some(x) => assert a + (b + x) == (a + b) + x;
    }
  }

  lemma {:induction false} UnescapeEncode(s: string)
    ensures Unescape(EncodeURIComponent(s)) == Some(Utf8Encode(s))
  {
    if s != [] {
      var c := s[0];
      var t := EncodeURIComponent(s[1..]);
      UnescapeEncode(s[1..]);
      if Unreserved(c) {
        var e := [c] + t;
        assert EncodeURIComponent(s) == e;
        assert e[0] == c && e[1..] == t;
        assert Utf8(c) == [c as int];
      } else {
        UnescapeEscapeAll(Utf8(c), t);
      }
    }
  }

  /** (n / 64) / 64 == n / 4096, and so on one level up. */
  lemma DivSixtyFour(n: nat)
    ensures (n / 0x40) / 0x40 == n / 0x1000
    ensures (n / 0x1000) / 0x40 == n / 0x4_0000
  {
    var q, r := n / 0x1000, n % 0x1000;
    assert n == q * 0x1000 + r;
    assert n / 0x40 == q * 0x40 + r / 0x40;
    var q2, r2 := n / 0x4_0000, n % 0x4_0000;
    assert n == q2 * 0x4_0000 + r2;
    assert n / 0x1000 == q2 * 0x40 + r2 / 0x1000;
  }

  lemma Utf8DecodeChar(c: char, rest: seq<Byte>)
    ensures Utf8Decode(Utf8(c) + rest) == PrependTo([c], Utf8Decode(rest))
  {
    var n := c as int;
    var bs := Utf8(c) + rest;
    DivSixtyFour(n);
    if n < 0x80 {
      assert bs[1..] == rest;
    } else if n < 0x800 {
      assert bs[2..] == rest;
      assert (bs[0] as int - 0xC0) * 0x40 + Payload(bs[1]) == n;
    } else if n < 0x1_0000 {
      assert bs[3..] == rest;
      assert (bs[0] as int - 0xE0) * 0x1000 + Payload(bs[1]) * 0x40 + Payload(bs[2]) == n;
    } else {
      assert bs[4..] == rest;
      assert (bs[0] as int - 0xF0) * 0x4_0000 + Payload(bs[1]) * 0x1000 + Payload(bs[2]) * 0x40 + Payload(bs[3]) == n;
    }
  }

  lemma {:induction false} Utf8RoundTrip(s: string)
    ensures Utf8Decode(Utf8Encode(s)) == Some(s)
  {
    if s != [] {
      Utf8RoundTrip(s[1..]);
      Utf8DecodeChar(s[0], Utf8Encode(s[1..]));
      assert [s[0]] + s[1..] == s;
    }
  }

  /** Decoding undoes `encodeURIComponent` on every string. */
  lemma DecodeEncode(s: string)
    ensures DecodeURIComponent(EncodeURIComponent(s)) == Some(s)
  {
    UnescapeEncode(s);
    Utf8RoundTrip(s);
  }
}
