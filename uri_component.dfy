/** `encodeURIComponent`: every character outside the unreserved set
    `A-Z a-z 0-9 - _ . ! ~ * ' ( )` becomes the percent-escapes of its UTF-8
    bytes, in upper-case hexadecimal. The decoder here is the partner the
    encoding is proved against: decoding an encoding gives the text back. */
module UriComponent {
  import opened Wrappers

  /** The characters `encodeURIComponent` leaves as they are. */
  predicate IsUnreserved(c: char) {
    ('A' <= c <= 'Z') || ('a' <= c <= 'z') || ('0' <= c <= '9') ||
    c == '-' || c == '_' || c == '.' || c == '!' || c == '~' || c == '*' ||
    c == '\'' || c == '(' || c == ')'
  }

  predicate IsHexDigit(c: char) {
    ('0' <= c <= '9') || ('A' <= c <= 'F') || ('a' <= c <= 'f')
  }

  function HexDigit(d: nat): (c: char)
    requires d < 16
    ensures IsHexDigit(c) && !('a' <= c <= 'f')
  {
    if d < 10 then ('0' as int + d) as char else ('A' as int + d - 10) as char
  }

  function HexValue(c: char): (d: nat)
    requires IsHexDigit(c)
    ensures d < 16
  {
    if '0' <= c <= '9' then c as int - '0' as int
    else if 'A' <= c <= 'F' then c as int - 'A' as int + 10
    else c as int - 'a' as int + 10
  }

  lemma {:induction false} HexValueOfDigit(d: nat)
    requires d < 16
    ensures HexValue(HexDigit(d)) == d
  {
  }

  /** The UTF-8 bytes of a Unicode scalar value. */
  function Utf8(n: nat): (bytes: seq<nat>)
    requires n <= 0x10FFFF
    ensures 1 <= |bytes| <= 4
    ensures forall i :: 0 <= i < |bytes| ==> bytes[i] < 256
  {
    if n < 0x80 then [n]
    else if n < 0x800 then [0xC0 + n / 64, 0x80 + n % 64]
    else if n < 0x10000 then [0xE0 + n / 4096, 0x80 + (n / 64) % 64, 0x80 + n % 64]
    else [0xF0 + n / 262144, 0x80 + (n / 4096) % 64, 0x80 + (n / 64) % 64, 0x80 + n % 64]
  }

  /** `%XY` for one byte. */
  function Escape(b: nat): (s: string)
    requires b < 256
    ensures |s| == 3 && s[0] == '%' && IsHexDigit(s[1]) && IsHexDigit(s[2])
  {
    ['%', HexDigit(b / 16), HexDigit(b % 16)]
  }

  /** `%XY` for every byte. */
  function PercentBytes(bytes: seq<nat>): (s: string)
    requires forall i :: 0 <= i < |bytes| ==> bytes[i] < 256
    ensures |s| == 3 * |bytes|
    ensures forall i :: 0 <= i < |s| ==> s[i] == '%' || IsHexDigit(s[i])
  {
    if bytes == [] then "" else Escape(bytes[0]) + PercentBytes(bytes[1..])
  }

  /** One character, encoded. */
  function EncodeChar(c: char): (s: string)
    ensures 1 <= |s| <= 12
  {
    if IsUnreserved(c) then [c] else PercentBytes(Utf8(c as int))
  }

  /** `encodeURIComponent(s)`. */
  function Encode(s: string): (r: string)
    ensures |s| <= |r|
  {
    if s == [] then "" else EncodeChar(s[0]) + Encode(s[1..])
  }

  /** What an encoding can contain: unreserved characters, `%` and hexadecimal
      digits. In particular no `&`, `=` or `,`. */
  lemma {:induction false} EncodedAlphabet(s: string)
    ensures forall i :: 0 <= i < |Encode(s)| ==>
      IsUnreserved(Encode(s)[i]) || Encode(s)[i] == '%' || IsHexDigit(Encode(s)[i])
  {
    if s != [] {
      EncodedAlphabet(s[1..]);
      var e := EncodeChar(s[0]);
      var r := Encode(s);
      assert r == e + Encode(s[1..]);
      forall i | 0 <= i < |r|
        ensures IsUnreserved(r[i]) || r[i] == '%' || IsHexDigit(r[i])
      {
        if i >= |e| {
          assert r[i] == Encode(s[1..])[i - |e|];
        }
      }
    }
  }

  // ---------------------------------------------------------------------------
  // Decoding
  // ---------------------------------------------------------------------------

  /** The byte escaped as `%XY` at the front of `s`, if there is one. */
  function ReadEscape(s: string): Option<nat> {
    if 3 <= |s| && s[0] == '%' && IsHexDigit(s[1]) && IsHexDigit(s[2])
    then Some(16 * HexValue(s[1]) + HexValue(s[2]))
    else None
  }

  /** The byte escaped as the `k`-th `%XY` of `s`, if there is one. */
  function ByteAt(s: string, k: nat): Option<nat> {
    if k == 0 then ReadEscape(s)
    else if 3 <= |s| then ByteAt(s[3..], k - 1)
    else None
  }

  predicate IsContinuation(b: Option<nat>) {
    b.Some? && 0x80 <= b.value < 0xC0
  }

  predicate IsScalar(n: int) {
    0 <= n < 0xD800 || 0xE000 <= n <= 0x10FFFF
  }

  /** The first character of an encoded string and the number of characters
      it took, if the string starts with a well-formed encoding. */
  function DecodeFirst(s: string): Option<(char, nat)>
    requires s != []
  {
    if s[0] != '%' then Some((s[0], 1))
    else
      var b0 := ByteAt(s, 0);
      if b0.None? then None
      else if b0.value < 0x80 then Some((b0.value as char, 3))
      else if 0xC0 <= b0.value < 0xE0 && IsContinuation(ByteAt(s, 1)) then
        var n := (b0.value - 0xC0) * 64 + (ByteAt(s, 1).value - 0x80);
        if IsScalar(n) then Some((n as char, 6)) else None
      else if 0xE0 <= b0.value < 0xF0 && IsContinuation(ByteAt(s, 1)) && IsContinuation(ByteAt(s, 2)) then
        var n := (b0.value - 0xE0) * 4096 + (ByteAt(s, 1).value - 0x80) * 64 + (ByteAt(s, 2).value - 0x80);
        if IsScalar(n) then Some((n as char, 9)) else None
      else if 0xF0 <= b0.value < 0xF8 && IsContinuation(ByteAt(s, 1)) && IsContinuation(ByteAt(s, 2))
              && IsContinuation(ByteAt(s, 3)) then
        var n := (b0.value - 0xF0) * 262144 + (ByteAt(s, 1).value - 0x80) * 4096
                 + (ByteAt(s, 2).value - 0x80) * 64 + (ByteAt(s, 3).value - 0x80);
        if IsScalar(n) then Some((n as char, 12)) else None
      else None
  }

  /** `decodeURIComponent(s)`, `None` where it would throw. */
  function Decode(s: string): Option<string>
    decreases |s|
  {
    if s == [] then Some("")
    else match DecodeFirst(s)
      case None => None
      case Some((c, k)) =>
        if 1 <= k <= |s| then
          match Decode(s[k..])
          case None => None
          case Some(rest) => Some([c] + rest)
        else None
  }

  /** An escaped byte reads back as the byte. */
  lemma {:induction false} ReadEscapeOf(b: nat, rest: string)
    requires b < 256
    ensures ReadEscape(Escape(b) + rest) == Some(b)
    ensures (Escape(b) + rest)[3..] == rest
  {
    HexValueOfDigit(b / 16);
    HexValueOfDigit(b % 16);
  }

  /** The bytes of `PercentBytes(bytes)` read back one by one. */
  lemma {:induction false} ByteAtPercent(bytes: seq<nat>, rest: string, k: nat)
    requires forall i :: 0 <= i < |bytes| ==> bytes[i] < 256
    requires k < |bytes|
    ensures ByteAt(PercentBytes(bytes) + rest, k) == Some(bytes[k])
  {
    var t := PercentBytes(bytes[1..]) + rest;
    assert PercentBytes(bytes) + rest == Escape(bytes[0]) + t;
    ReadEscapeOf(bytes[0], t);
    if k > 0 {
      ByteAtPercent(bytes[1..], rest, k - 1);
    }
  }

  lemma {:induction false} Split3(n: nat)
    ensures n / 64 == (n / 4096) * 64 + (n / 64) % 64
    ensures n == (n / 4096) * 4096 + ((n / 64) % 64) * 64 + n % 64
  {
    assert n / 4096 == (n / 64) / 64;
  }

  lemma {:induction false} Split4(n: nat)
    ensures n == (n / 262144) * 262144 + ((n / 4096) % 64) * 4096 + ((n / 64) % 64) * 64 + n % 64
  {
    Split3(n);
    assert n / 262144 == (n / 4096) / 64;
  }

  /** The escapes of a two-byte character decode to it. */
  lemma {:induction false} DecodeTwoBytes(n: nat, rest: string)
    requires 0x80 <= n < 0x800
    ensures DecodeFirst(PercentBytes(Utf8(n)) + rest) == Some((n as char, 6))
  {
    var bytes := Utf8(n);
    ByteAtPercent(bytes, rest, 0);
    ByteAtPercent(bytes, rest, 1);
    assert (PercentBytes(bytes) + rest)[0] == '%';
    assert (n / 64) * 64 + n % 64 == n;
  }

  /** The escapes of a three-byte character decode to it. */
  lemma {:induction false} DecodeThreeBytes(n: nat, rest: string)
    requires 0x800 <= n < 0x10000 && IsScalar(n)
    ensures DecodeFirst(PercentBytes(Utf8(n)) + rest) == Some((n as char, 9))
  {
    var bytes := Utf8(n);
    ByteAtPercent(bytes, rest, 0);
    ByteAtPercent(bytes, rest, 1);
    ByteAtPercent(bytes, rest, 2);
    assert (PercentBytes(bytes) + rest)[0] == '%';
    Split3(n);
  }

  /** The escapes of a four-byte character decode to it. */
  lemma {:induction false} DecodeFourBytes(n: nat, rest: string)
    requires 0x10000 <= n <= 0x10FFFF
    ensures DecodeFirst(PercentBytes(Utf8(n)) + rest) == Some((n as char, 12))
  {
    var bytes := Utf8(n);
    ByteAtPercent(bytes, rest, 0);
    ByteAtPercent(bytes, rest, 1);
    ByteAtPercent(bytes, rest, 2);
    ByteAtPercent(bytes, rest, 3);
    assert (PercentBytes(bytes) + rest)[0] == '%';
    Split4(n);
  }

  /** Decoding the escapes of a character's UTF-8 bytes gives the character. */
  lemma {:induction false} DecodeFirstEscaped(c: char, rest: string)
    ensures var e := PercentBytes(Utf8(c as int));
      DecodeFirst(e + rest) == Some((c, |e|))
  {
    var n := c as int;
    if n < 0x80 {
      ByteAtPercent(Utf8(n), rest, 0);
      assert (PercentBytes(Utf8(n)) + rest)[0] == '%';
    } else if n < 0x800 {
      DecodeTwoBytes(n, rest);
    } else if n < 0x10000 {
      DecodeThreeBytes(n, rest);
    } else {
      DecodeFourBytes(n, rest);
    }
  }

  /** Decoding the encoding of one character gives the character, whatever
      follows. */
  lemma {:induction false} DecodeFirstEncoded(c: char, rest: string)
    ensures DecodeFirst(EncodeChar(c) + rest) == Some((c, |EncodeChar(c)|))
  {
    if IsUnreserved(c) {
      assert (EncodeChar(c) + rest)[0] == c;
    } else {
      DecodeFirstEscaped(c, rest);
    }
  }

  /** `decodeURIComponent(encodeURIComponent(s)) == s`. */
  lemma {:induction false} DecodeEncode(s: string)
    ensures Decode(Encode(s)) == Some(s)
  {
    if s != [] {
      var e := EncodeChar(s[0]);
      var t := Encode(s[1..]);
      assert Encode(s) == e + t;
      DecodeFirstEncoded(s[0], t);
      assert (e + t)[|e|..] == t;
      DecodeEncode(s[1..]);
      assert s == [s[0]] + s[1..];
    }
  }

  /** Two texts with the same encoding are the same text. */
  lemma {:induction false} EncodeInjective(a: string, b: string)
    requires Encode(a) == Encode(b)
    ensures a == b
  {
    DecodeEncode(a);
    DecodeEncode(b);
  }
}
