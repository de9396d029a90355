/**
 * The base64url helpers of common.py: the URL- and filename-safe alphabet of
 * section 5 of RFC 4648, with the padding stripped when encoding and put
 * back when decoding.
 */
module Codec {
  import opened Wrappers
  import opened Text
  import opened Base64
  import Utf8

  /** `x.replace('+', '-').replace('/', '_')`. */
  function ToUrl(x: string): string {
    Replace(Replace(x, '+', '-'), '/', '_')
  }

  /** `x.replace('-', '+').replace('_', '/')`. */
  function FromUrl(x: string): string {
    Replace(Replace(x, '-', '+'), '_', '/')
  }

  /** One of the 64 characters of the URL-safe alphabet. */
  predicate IsUrlChar(c: char) {
    ('A' <= c <= 'Z') || ('a' <= c <= 'z') || ('0' <= c <= '9') || c == '-' || c == '_'
  }

  /** The padding that makes a length a multiple of four, as `'=' * (-n % 4)` writes it. */
  function Padding(n: nat): (r: string)
    ensures (n + |r|) % 4 == 0 && |r| < 4
  {
    Repeat('=', PadCount(n))
  }

  /** `base64.b64encode(b).decode('utf-8')` turned URL-safe and stripped of `=`. */
  function EncodeUrlsafeBytes(b: seq<Byte>): string {
    RStrip(ToUrl(B64Encode(b)), '=')
  }

  /** `encode_urlsafe_base64(data_string)`. */
  function EncodeUrlsafeBase64(s: string): string {
    EncodeUrlsafeBytes(Utf8.Encode(s))
  }

  /** `decode_base64_string(base64_str)`; `None` on every error the source catches. */
  function DecodeBase64String(s: string): Option<string> {
    var clean := FromUrl(Strip(s));
    var padded := clean + Padding(|clean|);
    match B64Decode(padded)
    case Failure(_) => None
    case Success(bytes) => Utf8.AsciiDecode(bytes)
  }

  /** The decoding of one token segment as `regenerate_api_token` does it: pad, translate, decode. */
  function DecodeSegment(seg: string): Result<seq<Byte>, DecodeError> {
    B64Decode(FromUrl(seg + Padding(|seg|)))
  }

  /** Translating to the URL-safe alphabet keeps every other character. */
  lemma ToUrlChars(x: string)
    ensures |ToUrl(x)| == |x|
    ensures forall k :: 0 <= k < |x| ==>
      ToUrl(x)[k] == (if x[k] == '+' then '-' else if x[k] == '/' then '_' else x[k])
  {
  }

  lemma FromUrlChars(x: string)
    ensures |FromUrl(x)| == |x|
    ensures forall k :: 0 <= k < |x| ==>
      FromUrl(x)[k] == (if x[k] == '-' then '+' else if x[k] == '_' then '/' else x[k])
  {
  }

  /** Stripping `=` from a text that does not end in `=`, followed by `=` only, leaves the text. */
  lemma RStripPadding(x: string, n: nat)
    requires x == [] || x[|x| - 1] != '='
    ensures RStrip(x + Repeat('=', n), '=') == x
  {
    var s := x + Repeat('=', n);
    assert s[..|x|] == x;
  }

  /** The URL-safe encoding is the unpadded standard encoding with `+` and `/` translated. */
  lemma EncodeUrlsafeUnpadded(b: seq<Byte>)
    ensures EncodeUrlsafeBytes(b) == ToUrl(Unpadded(b))
  {
    var u := Unpadded(b);
    var pads := Repeat('=', PadCount(|u|));
    assert B64Encode(b) == u + pads;
    ToUrlChars(u + pads);
    ToUrlChars(u);
    assert ToUrl(u + pads) == ToUrl(u) + pads;
    assert |u| > 0 ==> IsStdChar(u[|u| - 1]);
    RStripPadding(ToUrl(u), PadCount(|u|));
  }

  /** `encode_urlsafe_base64` uses only `A-Z a-z 0-9 - _`: never `+`, `/` or `=`. */
  lemma EncodeUrlsafeAlphabet(b: seq<Byte>)
    ensures forall k :: 0 <= k < |EncodeUrlsafeBytes(b)| ==> IsUrlChar(EncodeUrlsafeBytes(b)[k])
  {
    EncodeUrlsafeUnpadded(b);
    ToUrlChars(Unpadded(b));
  }

  /** Translating back and re-padding an unpadded URL-safe encoding gives the standard encoding. */
  lemma RestorePadding(b: seq<Byte>)
    ensures FromUrl(EncodeUrlsafeBytes(b) + Padding(|EncodeUrlsafeBytes(b)|)) == B64Encode(b)
    ensures FromUrl(EncodeUrlsafeBytes(b)) + Padding(|EncodeUrlsafeBytes(b)|) == B64Encode(b)
  {
    var u := Unpadded(b);
    EncodeUrlsafeUnpadded(b);
    ToUrlChars(u);
    var e := ToUrl(u);
    var pads := Padding(|e|);
    FromUrlChars(e + pads);
    FromUrlChars(e);
    assert FromUrl(e + pads) == u + pads;
    assert FromUrl(e) == u;
  }

  /** A segment produced by the encoder decodes back to its bytes. */
  lemma DecodeSegmentEncoded(b: seq<Byte>)
    ensures DecodeSegment(EncodeUrlsafeBytes(b)) == Success(b)
  {
    RestorePadding(b);
    DecodeEncode(b);
  }

  /** An encoder output has nothing for `strip()` to remove. */
  lemma StripEncoded(b: seq<Byte>)
    ensures Strip(EncodeUrlsafeBytes(b)) == EncodeUrlsafeBytes(b)
  {
    var e := EncodeUrlsafeBytes(b);
    EncodeUrlsafeAlphabet(b);
    assert forall k :: 0 <= k < |e| ==> !IsSpace(e[k]) by {
      forall k | 0 <= k < |e| ensures !IsSpace(e[k]) {
        assert IsUrlChar(e[k]);
      }
    }
    StripNoSpace(e);
  }

  /** On an encoder output, `decode_base64_string` comes down to the ASCII decoding of the encoded bytes. */
  lemma DecodeEncoded(b: seq<Byte>)
    ensures DecodeBase64String(EncodeUrlsafeBytes(b)) == Utf8.AsciiDecode(b)
  {
    var e := EncodeUrlsafeBytes(b);
    StripEncoded(b);
    RestorePadding(b);
    DecodeEncode(b);
    assert FromUrl(Strip(e)) + Padding(|FromUrl(Strip(e))|) == B64Encode(b);
  }

  /** `decode_base64_string(encode_urlsafe_base64(s)) == s` for every ASCII string. */
  lemma DecodeEncodeAscii(s: string)
    requires IsAsciiString(s)
    ensures DecodeBase64String(EncodeUrlsafeBase64(s)) == Some(s)
  {
    var b := Utf8.Encode(s);
    DecodeEncoded(b);
    Utf8.EncodeAscii(s);
    assert Utf8.AsciiDecode(b).value == s;
  }

  /** A string with a non-ASCII character survives encoding but not decoding. */
  lemma DecodeEncodeNonAscii(s: string, i: nat)
    requires i < |s| && s[i] as int >= 128
    ensures DecodeBase64String(EncodeUrlsafeBase64(s)) == None
  {
    var b := Utf8.Encode(s);
    DecodeEncoded(b);
    Utf8.EncodeNonAscii(s, i);
  }

  /** A decoded result is always ASCII text. */
  lemma DecodedIsAscii(s: string)
    ensures DecodeBase64String(s).Some? ==> IsAsciiString(DecodeBase64String(s).value)
  {
  }

  /** Input that is not ASCII once stripped is refused (Python raises `ValueError`, which is caught). */
  lemma DecodeNonAsciiInput(s: string, i: nat)
    requires i < |Strip(s)| && Strip(s)[i] as int >= 128
    ensures DecodeBase64String(s) == None
  {
    var clean := FromUrl(Strip(s));
    FromUrlChars(Strip(s));
    assert (clean + Padding(|clean|))[i] == clean[i];
  }

  /** The number of alphabet characters in a text: the ones the decoder consumes. */
  function DataCount(s: string): (n: nat)
    ensures n <= |s|
    decreases |s|
  {
    if s == [] then 0 else (if IsStdChar(s[0]) then 1 else 0) + DataCount(s[1..])
  }

  /** The decoder state after the alphabet characters of `s` have been fed in from `st`. */
  function FeedAll(s: string, st: A2bState): (r: A2bState)
    requires st.Valid()
    ensures r.Valid() && r.quadPos == (st.quadPos + DataCount(s)) % 4
    decreases |s|
  {
    if s == [] then st
    else FeedAll(s[1..], if IsStdChar(s[0]) then Feed(st, SextetOf(s[0])) else st)
  }

  /** The scan of a text without `=` only feeds its alphabet characters. */
  lemma {:induction false} ScanNoPad(s: string, t: string, st: A2bState)
    requires st.Valid() && '=' !in s
    ensures Scan(s + t, st) == Scan(t, FeedAll(s, st))
    decreases |s|
  {
    if s == [] {
      assert s + t == t;
    } else {
      assert (s + t)[1..] == s[1..] + t;
      var next := if IsStdChar(s[0]) then Feed(st, SextetOf(s[0])) else st;
      assert Scan(s + t, st) == Scan(s[1..] + t, next);
      ScanNoPad(s[1..], t, next);
    }
  }

  /** Padding after a lone data character never completes the group. */
  lemma {:induction false} ScanPadsAfterOne(n: nat, st: A2bState)
    requires st.Valid() && st.quadPos == 1
    ensures Scan(Repeat('=', n), st) == Failure(OneCharTooMany)
    decreases n
  {
    if n > 0 {
      assert Repeat('=', n)[1..] == Repeat('=', n - 1);
      ScanPadsAfterOne(n - 1, st);
    }
  }

  /** A cleaned input without `=` whose alphabet characters number 1 more than a multiple of 4 is refused. */
  lemma DecodeOneTooMany(s: string)
    requires '=' !in FromUrl(Strip(s)) && DataCount(FromUrl(Strip(s))) % 4 == 1
    ensures DecodeBase64String(s) == None
  {
    var clean := FromUrl(Strip(s));
    var pads := Padding(|clean|);
    if IsAsciiString(clean + pads) {
      ScanNoPad(clean, pads, Start);
      ScanPadsAfterOne(|pads|, FeedAll(clean, Start));
    }
  }
}
