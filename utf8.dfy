/**
 * `str.encode('utf-8')`, `bytes.decode('utf-8')` and `bytes.decode('ascii')`
 * (strict error handling), following section 3 of RFC 3629.
 *
 * A `char` here is a Unicode scalar value, so encoding never fails; decoding
 * refuses truncated sequences, stray continuation bytes, overlong forms,
 * surrogates and values above U+10FFFF.
 */
module Utf8 {
  import opened Wrappers
  import opened Base64

  predicate IsCont(b: int) { 0x80 <= b < 0xC0 }

  /** The bytes of one character. */
  function EncodeChar(c: char): (r: seq<Byte>)
    ensures 1 <= |r| <= 4
    ensures (c as int < 128) <==> (r == [c as int])
    ensures c as int >= 128 ==> forall k :: 0 <= k < |r| ==> r[k] >= 128
  {
    var n := c as int;
    if n < 0x80 then [n]
    else if n < 0x800 then [0xC0 + n / 64, 0x80 + n % 64]
    else if n < 0x10000 then [0xE0 + n / 4096, 0x80 + (n / 64) % 64, 0x80 + n % 64]
    else [0xF0 + n / 262144, 0x80 + (n / 4096) % 64, 0x80 + (n / 64) % 64, 0x80 + n % 64]
  }

  /** `s.encode('utf-8')`. */
  function Encode(s: string): (r: seq<Byte>)
    ensures |r| >= |s|
    decreases |s|
  {
    if s == [] then [] else EncodeChar(s[0]) + Encode(s[1..])
  }

  /** The character at the front of `b` and how many bytes it takes, if they form one. */
  function DecodeChar(b: seq<Byte>): (r: Option<(char, nat)>)
    requires |b| > 0
    ensures r.Some? ==> 1 <= r.value.1 <= |b| && r.value.1 <= 4
  {
    var b0: int := b[0];
    if b0 < 0x80 then Some((b0 as char, 1))
    else if 0xC2 <= b0 < 0xE0 then
      if |b| >= 2 && IsCont(b[1]) then Some((((b0 - 0xC0) * 64 + (b[1] as int - 0x80)) as char, 2)) else None
    else if 0xE0 <= b0 < 0xF0 then
      if |b| >= 3 && IsCont(b[1]) && IsCont(b[2]) then
        var n := (b0 - 0xE0) * 4096 + (b[1] as int - 0x80) * 64 + (b[2] as int - 0x80);
        if n < 0x800 || 0xD800 <= n < 0xE000 then None else Some((n as char, 3))
      else None
    else if 0xF0 <= b0 < 0xF5 then
      if |b| >= 4 && IsCont(b[1]) && IsCont(b[2]) && IsCont(b[3]) then
        var n := (b0 - 0xF0) * 262144 + (b[1] as int - 0x80) * 4096 + (b[2] as int - 0x80) * 64 + (b[3] as int - 0x80);
        if n < 0x10000 || n >= 0x110000 then None else Some((n as char, 4))
      else None
    else None
  }

  /** `b.decode('utf-8')`; `None` where Python raises `UnicodeDecodeError`. */
  function Decode(b: seq<Byte>): Option<string>
    decreases |b|
  {
    if b == [] then Some([])
    else match DecodeChar(b)
      case None => None
      case Some((c, k)) =>
        match Decode(b[k..])
        case None => None
        case Some(rest) => Some([c] + rest)
  }

  /** `b.decode('ascii')`: every byte below 128 becomes the character with that code. */
  function AsciiDecode(b: seq<Byte>): (r: Option<string>)
    ensures r.Some? <==> forall k :: 0 <= k < |b| ==> b[k] < 128
    ensures r.Some? ==> |r.value| == |b| && forall k :: 0 <= k < |b| ==> r.value[k] as int == b[k]
  {
    if forall k :: 0 <= k < |b| ==> b[k] < 128 then
      Some(seq(|b|, k requires 0 <= k < |b| => b[k] as char))
    else None
  }

  /** The encoding of an ASCII string is its sequence of character codes. */
  lemma {:induction false} EncodeAscii(s: string)
    requires IsAsciiString(s)
    ensures |Encode(s)| == |s|
    ensures forall k :: 0 <= k < |s| ==> Encode(s)[k] == s[k] as int
    decreases |s|
  {
    if s != [] {
      EncodeAscii(s[1..]);
    }
  }

  /** A non-ASCII character leaves at least one byte of 128 or more in the encoding. */
  lemma {:induction false} EncodeNonAscii(s: string, i: nat)
    requires i < |s| && s[i] as int >= 128
    ensures exists k :: 0 <= k < |Encode(s)| && Encode(s)[k] >= 128
    decreases |s|
  {
    if i == 0 {
      assert Encode(s)[0] == EncodeChar(s[0])[0];
    } else {
      EncodeNonAscii(s[1..], i - 1);
      var k :| 0 <= k < |Encode(s[1..])| && Encode(s[1..])[k] >= 128;
      var e := EncodeChar(s[0]);
      assert Encode(s)[|e| + k] == Encode(s[1..])[k];
    }
  }

  lemma DecodeTwo(c: char)
    requires 0x80 <= c as int < 0x800
    ensures DecodeChar(EncodeChar(c)) == Some((c, 2))
  {
  }

  lemma DecodeThree(c: char)
    requires 0x800 <= c as int < 0x10000
    ensures DecodeChar(EncodeChar(c)) == Some((c, 3))
  {
    var n := c as int;
    assert (n / 4096) * 4096 + ((n / 64) % 64) * 64 + n % 64 == n;
  }

  lemma DecodeFour(c: char)
    requires 0x10000 <= c as int
    ensures DecodeChar(EncodeChar(c)) == Some((c, 4))
  {
    var n := c as int;
    assert (n / 262144) * 262144 + ((n / 4096) % 64) * 4096 + ((n / 64) % 64) * 64 + n % 64 == n;
  }

  /** The first character's bytes decode to that character, whatever follows. */
  lemma DecodeCharEncoded(c: char, rest: seq<Byte>)
    ensures DecodeChar(EncodeChar(c) + rest) == Some((c, |EncodeChar(c)|))
  {
    var e := EncodeChar(c);
    var n := c as int;
    if n < 0x80 {
    } else if n < 0x800 {
      DecodeTwo(c);
    } else if n < 0x10000 {
      DecodeThree(c);
    } else {
      DecodeFour(c);
    }
    assert (e + rest)[..|e|] == e;
    assert forall k :: 0 <= k < |e| ==> (e + rest)[k] == e[k];
  }

  /** Decoding undoes encoding (RFC 3629, section 3). */
  lemma {:induction false} DecodeEncode(s: string)
    ensures Decode(Encode(s)) == Some(s)
    decreases |s|
  {
    if s != [] {
      var e := EncodeChar(s[0]);
      DecodeCharEncoded(s[0], Encode(s[1..]));
      assert (e + Encode(s[1..]))[|e|..] == Encode(s[1..]);
      DecodeEncode(s[1..]);
      assert [s[0]] + s[1..] == s;
    }
  }
}
