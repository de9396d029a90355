/**
 * The base64 alphabet of section 4 of RFC 4648 as Python's `base64.b64encode`
 * and `base64.b64decode` (non-validating) apply it.
 *
 * Encoding packs three bytes into four sextets and pads the last group with
 * `=`. Decoding follows CPython's `binascii.a2b_base64` without strict mode:
 * characters outside the alphabet are skipped, a run of `=` that completes
 * a group stops the scan, and a scan that ends inside a group is an error.
 */
module Base64 {
  import opened Wrappers

  type Byte = b: int | 0 <= b < 256
  type Sextet = v: int | 0 <= v < 64

  /** One of the 64 characters of the standard alphabet. */
  predicate IsStdChar(c: char) {
    ('A' <= c <= 'Z') || ('a' <= c <= 'z') || ('0' <= c <= '9') || c == '+' || c == '/'
  }

  predicate IsAsciiString(s: string) {
    forall k :: 0 <= k < |s| ==> s[k] as int < 128
  }

  /** The character that encodes a sextet (Table 1 of RFC 4648). */
  function SextetChar(v: Sextet): (c: char)
    ensures IsStdChar(c)
  {
    if v < 26 then (65 + v) as char
    else if v < 52 then (97 + v - 26) as char
    else if v < 62 then (48 + v - 52) as char
    else if v == 62 then '+'
    else '/'
  }

  /** The sextet a character of the alphabet stands for. */
  function SextetOf(c: char): (v: Sextet)
    requires IsStdChar(c)
    ensures SextetChar(v) == c
  {
    if 'A' <= c <= 'Z' then c as int - 65
    else if 'a' <= c <= 'z' then c as int - 97 + 26
    else if '0' <= c <= '9' then c as int - 48 + 52
    else if c == '+' then 62
    else 63
  }

  lemma SextetRoundTrip(v: Sextet)
    ensures SextetOf(SextetChar(v)) == v
  {
  }

  /** Four characters for three bytes. */
  function Quad(b0: Byte, b1: Byte, b2: Byte): string {
    [SextetChar(b0 / 4), SextetChar((b0 % 4) * 16 + b1 / 16),
     SextetChar((b1 % 16) * 4 + b2 / 64), SextetChar(b2 % 64)]
  }

  /** The encoding without its padding. */
  function Unpadded(b: seq<Byte>): (s: string)
    ensures forall k :: 0 <= k < |s| ==> IsStdChar(s[k])
    ensures |s| == (4 * |b| + 2) / 3
    decreases |b|
  {
    if |b| == 0 then []
    else if |b| == 1 then [SextetChar(b[0] / 4), SextetChar((b[0] % 4) * 16)]
    else if |b| == 2 then
      [SextetChar(b[0] / 4), SextetChar((b[0] % 4) * 16 + b[1] / 16), SextetChar((b[1] % 16) * 4)]
    else Quad(b[0], b[1], b[2]) + Unpadded(b[3..])
  }

  /** How many `=` make a length a multiple of four. */
  function PadCount(n: nat): (p: nat)
    ensures p < 4 && (n + p) % 4 == 0
  {
    (4 - n % 4) % 4
  }

  /** `base64.b64encode(b)`. */
  function B64Encode(b: seq<Byte>): (s: string)
    ensures |s| % 4 == 0
    ensures forall k :: 0 <= k < |s| ==> IsStdChar(s[k]) || s[k] == '='
  {
    var u := Unpadded(b);
    u + seq(PadCount(|u|), k => '=')
  }

  /** Where `a2b_base64` stands after a prefix of its input. */
  datatype A2bState = A2bState(quadPos: int, leftChar: int, pads: nat, out: seq<Byte>) {
    /** The bits left over from the current group fit the slot they will fill. */
    predicate Valid() {
      && 0 <= quadPos < 4
      && 0 <= leftChar < [1, 64, 16, 4][quadPos]
    }
  }

  const Start := A2bState(0, 0, 0, [])

  datatype DecodeError =
    | NonAsciiInput     // `ValueError`: a `str` argument must be ASCII
    | OneCharTooMany    // `binascii.Error`: data characters are 1 more than a multiple of 4
    | IncorrectPadding  // `binascii.Error`: the last group is unfinished

  /** One data character moves the group on; every fourth one completes three bytes. */
  function Feed(st: A2bState, v: Sextet): (r: A2bState)
    requires st.Valid()
    ensures r.Valid() && r.quadPos == (st.quadPos + 1) % 4 && r.pads == 0
    ensures |r.out| == |st.out| + (if st.quadPos == 0 then 0 else 1) && r.out[..|st.out|] == st.out
  {
    if st.quadPos == 0 then A2bState(1, v, 0, st.out)
    else if st.quadPos == 1 then A2bState(2, v % 16, 0, st.out + [st.leftChar * 4 + v / 16])
    else if st.quadPos == 2 then A2bState(3, v % 4, 0, st.out + [st.leftChar * 16 + v / 4])
    else A2bState(0, 0, 0, st.out + [st.leftChar * 64 + v])
  }

  /** The end of the input: a finished group is success, anything else an error. */
  function Finish(st: A2bState): Result<seq<Byte>, DecodeError> {
    if st.quadPos == 0 then Success(st.out)
    else if st.quadPos == 1 then Failure(OneCharTooMany)
    else Failure(IncorrectPadding)
  }

  /** The scan of `a2b_base64` over the rest of the input. */
  function Scan(s: string, st: A2bState): (r: Result<seq<Byte>, DecodeError>)
    requires st.Valid()
    ensures r.Failure? ==> r.error != NonAsciiInput
    decreases |s|
  {
    if s == [] then Finish(st)
    else if s[0] == '=' then
      if st.quadPos >= 2 && st.quadPos + st.pads + 1 >= 4 then Success(st.out)
      else Scan(s[1..], if st.quadPos >= 2 then st.(pads := st.pads + 1) else st)
    else if IsStdChar(s[0]) then Scan(s[1..], Feed(st, SextetOf(s[0])))
    else Scan(s[1..], st)
  }

  /** `base64.b64decode(s)` on a `str`, without `validate`. */
  function B64Decode(s: string): (r: Result<seq<Byte>, DecodeError>)
    ensures r == Failure(NonAsciiInput) <==> !IsAsciiString(s)
  {
    if IsAsciiString(s) then Scan(s, Start) else Failure(NonAsciiInput)
  }

  /** A data character at the front of the input feeds its sextet into the group. */
  lemma ScanData(c: char, rest: string, st: A2bState)
    requires IsStdChar(c) && st.Valid()
    ensures Scan([c] + rest, st) == Scan(rest, Feed(st, SextetOf(c)))
  {
    assert ([c] + rest)[1..] == rest;
  }

  /** The three bytes come back out of the four sextets that encode them. */
  lemma QuadBytes(b0: Byte, b1: Byte, b2: Byte)
    ensures (b0 / 4) * 4 + ((b0 % 4) * 16 + b1 / 16) / 16 == b0
    ensures (((b0 % 4) * 16 + b1 / 16) % 16) * 16 + ((b1 % 16) * 4 + b2 / 64) / 4 == b1
    ensures (((b1 % 16) * 4 + b2 / 64) % 4) * 64 + b2 % 64 == b2
  {
  }

  /** A whole group decodes to the three bytes it encodes and leaves the scan at a group boundary. */
  lemma ScanQuad(b0: Byte, b1: Byte, b2: Byte, rest: string, out: seq<Byte>, pads: nat)
    ensures Scan(Quad(b0, b1, b2) + rest, A2bState(0, 0, pads, out))
         == Scan(rest, A2bState(0, 0, 0, out + [b0, b1, b2]))
  {
    var v0, v1, v2, v3 := b0 / 4, (b0 % 4) * 16 + b1 / 16, (b1 % 16) * 4 + b2 / 64, b2 % 64;
    var c0, c1, c2, c3 := SextetChar(v0), SextetChar(v1), SextetChar(v2), SextetChar(v3);
    SextetRoundTrip(v0); SextetRoundTrip(v1); SextetRoundTrip(v2); SextetRoundTrip(v3);
    var st0 := A2bState(0, 0, pads, out);
    var st1 := Feed(st0, v0);
    var st2 := Feed(st1, v1);
    var st3 := Feed(st2, v2);
    assert Quad(b0, b1, b2) + rest == [c0] + ([c1] + ([c2] + ([c3] + rest)));
    ScanData(c0, [c1] + ([c2] + ([c3] + rest)), st0);
    ScanData(c1, [c2] + ([c3] + rest), st1);
    ScanData(c2, [c3] + rest, st2);
    ScanData(c3, rest, st3);
    FeedQuad(b0, b1, b2, out, pads);
  }

  /** Feeding the four sextets of a group yields its three bytes. */
  lemma FeedQuad(b0: Byte, b1: Byte, b2: Byte, out: seq<Byte>, pads: nat)
    ensures var v0, v1, v2, v3 := b0 / 4, (b0 % 4) * 16 + b1 / 16, (b1 % 16) * 4 + b2 / 64, b2 % 64;
      Feed(Feed(Feed(Feed(A2bState(0, 0, pads, out), v0), v1), v2), v3) == A2bState(0, 0, 0, out + [b0, b1, b2])
  {
    QuadBytes(b0, b1, b2);
  }

  /** One trailing byte: two data characters and `==`. */
  lemma ScanTail1(b: seq<Byte>, out: seq<Byte>, pads: nat)
    requires |b| == 1
    ensures Scan(B64Encode(b), A2bState(0, 0, pads, out)) == Success(out + b)
  {
    var st := A2bState(0, 0, pads, out);
    var v0, v1 := b[0] / 4, (b[0] % 4) * 16;
    SextetRoundTrip(v0); SextetRoundTrip(v1);
    var st1 := Feed(st, v0);
    var st2 := Feed(st1, v1);
    assert B64Encode(b) == [SextetChar(v0)] + ([SextetChar(v1)] + ['=', '=']);
    ScanData(SextetChar(v0), [SextetChar(v1)] + ['=', '='], st);
    ScanData(SextetChar(v1), ['=', '='], st1);
    assert st2.out == out + b;
    assert ['=', '='][1..] == ['='];
    assert Scan(['=', '='], st2) == Scan(['='], st2.(pads := 1));
  }

  /** Two trailing bytes: three data characters and `=`. */
  lemma ScanTail2(b: seq<Byte>, out: seq<Byte>, pads: nat)
    requires |b| == 2
    ensures Scan(B64Encode(b), A2bState(0, 0, pads, out)) == Success(out + b)
  {
    var st := A2bState(0, 0, pads, out);
    var v0, v1, v2 := b[0] / 4, (b[0] % 4) * 16 + b[1] / 16, (b[1] % 16) * 4;
    SextetRoundTrip(v0); SextetRoundTrip(v1); SextetRoundTrip(v2);
    var st1 := Feed(st, v0);
    var st2 := Feed(st1, v1);
    var st3 := Feed(st2, v2);
    assert B64Encode(b) == [SextetChar(v0)] + ([SextetChar(v1)] + ([SextetChar(v2)] + ['=']));
    ScanData(SextetChar(v0), [SextetChar(v1)] + ([SextetChar(v2)] + ['=']), st);
    ScanData(SextetChar(v1), [SextetChar(v2)] + ['='], st1);
    ScanData(SextetChar(v2), ['='], st2);
    assert st3.out == out + b;
  }

  /** The encoding of three bytes or more starts with the group of the first three. */
  lemma EncodeGroup(b: seq<Byte>)
    requires |b| >= 3
    ensures B64Encode(b) == Quad(b[0], b[1], b[2]) + B64Encode(b[3..])
  {
    var q, u := Quad(b[0], b[1], b[2]), Unpadded(b[3..]);
    assert Unpadded(b) == q + u;
    PadCountGroup(|u|);
    var pad := seq(PadCount(|u|), k => '=');
    assert B64Encode(b) == (q + u) + pad;
    assert B64Encode(b[3..]) == u + pad;
    assert (q + u) + pad == q + (u + pad);
  }

  lemma PadCountGroup(n: nat)
    ensures PadCount(n + 4) == PadCount(n)
  {
  }

  /** The encoding of `b`, scanned from a group boundary, appends exactly `b`. */
  lemma {:induction false} ScanEncoded(b: seq<Byte>, out: seq<Byte>, pads: nat)
    ensures Scan(B64Encode(b), A2bState(0, 0, pads, out)) == Success(out + b)
    decreases |b|
  {
    if |b| == 0 {
      assert out + b == out;
    } else if |b| == 1 {
      ScanTail1(b, out, pads);
    } else if |b| == 2 {
      ScanTail2(b, out, pads);
    } else {
      ScanEncoded(b[3..], out + b[..3], 0);
      ScanGroup(b, out, pads);
    }
  }

  /** The step of `ScanEncoded`: after the first group the scan goes on as for the rest of the bytes. */
  lemma ScanGroup(b: seq<Byte>, out: seq<Byte>, pads: nat)
    requires |b| >= 3
    requires Scan(B64Encode(b[3..]), A2bState(0, 0, 0, out + b[..3])) == Success(out + b[..3] + b[3..])
    ensures Scan(B64Encode(b), A2bState(0, 0, pads, out)) == Success(out + b)
  {
    EncodeGroup(b);
    assert [b[0], b[1], b[2]] == b[..3];
    ScanQuad(b[0], b[1], b[2], B64Encode(b[3..]), out, pads);
    assert b[..3] + b[3..] == b;
    assert (out + b[..3]) + b[3..] == out + (b[..3] + b[3..]);
  }

  /** Decoding undoes encoding, for every byte string (RFC 4648, section 4). */
  lemma DecodeEncode(b: seq<Byte>)
    ensures B64Decode(B64Encode(b)) == Success(b)
  {
    var s := B64Encode(b);
    assert IsAsciiString(s) by {
      forall k | 0 <= k < |s| ensures s[k] as int < 128 {
        assert IsStdChar(s[k]) || s[k] == '=';
      }
    }
    ScanEncoded(b, [], 0);
    assert [] + b == b;
  }
}
