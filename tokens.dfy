/**
 * The request-signing tokens of common.py: `generate_auth_token` mints a
 * compact JWS (section 7.1 of RFC 7515) with the HS256 header (section 3.2
 * of RFC 7518), `iat`/`exp` claims (sections 4.1.6 and 4.1.4 of RFC 7519)
 * and MD5 digests (RFC 1321) of the salted query, body and webdriver flag;
 * `regenerate_api_token` reads the salts and the secret out of the payload
 * of an existing token and mints a new one for another URL.
 *
 * MD5, HMAC-SHA256 (RFC 2104) and the JSON serialiser are not modelled;
 * they are the fields of `Primitives`, and the properties that depend on
 * what they return say so in their preconditions.
 */
module Tokens {
  import opened Wrappers
  import opened Text
  import opened JsonModel
  import opened Base64
  import opened Codec
  import Utf8

  datatype Primitives = Primitives(
    md5Hex: seq<Byte> -> string,                       // `hashlib.md5(b).hexdigest()`
    hmacSha256: (seq<Byte>, seq<Byte>) -> seq<Byte>,   // `hmac.new(key, msg, hashlib.sha256).digest()`
    dumps: Json -> string,                             // `json.dumps(j, separators=(',', ':'))`
    loads: string -> Option<Json>)                     // `json.loads(text)`; `None` is `JSONDecodeError`

  /** What the real primitives guarantee and the token shape relies on. */
  ghost predicate Serialises(p: Primitives) {
    && p.dumps(HeaderObject) == HeaderText
    && (forall j :: p.dumps(j) != [])
    && (forall key, msg :: |p.hmacSha256(key, msg)| == 32)
  }

  const HeaderObject := JObj([("typ", JStr("JWT")), ("alg", JStr("HS256"))])

  /** The compact serialisation of `HeaderObject`. */
  const HeaderText := "{\"typ\":\"JWT\",\"alg\":\"HS256\"}"

  /** `calculate_md5_hash(text)`: the digest of the UTF-8 bytes. */
  function Md5(p: Primitives, text: string): string {
    p.md5Hex(Utf8.Encode(text))
  }

  /** The claims of a minted token, in insertion order; `hb` only for a non-empty body. */
  function Claims(nowMs: int, queryHash: string, webdriverHash: string, bodyHash: Option<string>): (j: Json)
    ensures j.JObj?
  {
    var iat := nowMs as real / 1000.0;
    JObj([("iat", JNum(iat)), ("exp", JNum(iat + 120.0)), ("hq", JStr(queryHash)), ("wb", JStr(webdriverHash))]
         + (if bodyHash.Some? then [("hb", JStr(bodyHash.value))] else []))
  }

  /** The claims `generate_auth_token` puts in the payload for these inputs at time `nowMs`. */
  function MintedClaims(p: Primitives, salt1: string, salt2: string, query: string, body: string, nowMs: int): Json {
    Claims(nowMs, Md5(p, salt1 + query + salt2), Md5(p, salt1 + "false" + salt2),
           if body != "" then Some(Md5(p, salt1 + body + salt2)) else None)
  }

  datatype GenError =
    | BadSecret       // `binascii.Error` from decoding the secret: the function returns `None`
    | SecretNotAscii  // `ValueError` from decoding a non-ASCII secret: not caught here

  /** `generate_auth_token(salt1, salt2, base64_secret, query_string, request_body)` at time `nowMs`. */
  function GenerateAuthToken(p: Primitives, salt1: string, salt2: string, secret: string,
                             query: string, body: string, nowMs: int): (r: Result<string, GenError>)
    ensures r.Success? <==> B64Decode(secret).Success?
    ensures r.Failure? ==> (r.error == SecretNotAscii <==> !IsAsciiString(secret))
  {
    match B64Decode(secret)
    case Failure(e) => Failure(if e == NonAsciiInput then SecretNotAscii else BadSecret)
    case Success(key) =>
      var header := EncodeUrlsafeBase64(p.dumps(HeaderObject));
      var payload := EncodeUrlsafeBase64(p.dumps(MintedClaims(p, salt1, salt2, query, body, nowMs)));
      var unsigned := header + "." + payload;
      Success(unsigned + "." + EncodeUrlsafeBytes(p.hmacSha256(key, Utf8.Encode(unsigned))))
  }

  /** The text after the first `?` of a URL, or nothing when it has none. */
  function QueryString(url: string): (q: string)
    ensures '?' !in url ==> q == ""
    ensures '?' in url ==> exists i :: 0 <= i < |url| && url[i] == '?' && '?' !in url[..i] && q == url[i + 1..]
  {
    if '?' in url then url[IndexOf(url, '?') + 1..] else ""
  }

  datatype RegenError =
    | WrongPartCount(parts: nat)     // the token does not split into three `.`-parts
    | PayloadUndecodable             // base64, UTF-8 or JSON decoding of the payload failed
    | PayloadNotObject               // the payload is JSON but not an object (`.get` raises)
    | MissingSecretMaterial          // `s1`, `s2` or `s3` is missing or not a string
    | GenerationFailed(e: GenError)  // `generate_auth_token` failed or raised

  /** The payload of a token as `regenerate_api_token` reads it. */
  function ReadPayload(p: Primitives, segment: string): Result<Json, RegenError> {
    match DecodeSegment(segment)
    case Failure(_) => Failure(PayloadUndecodable)
    case Success(bytes) =>
      match Utf8.Decode(bytes)
      case None => Failure(PayloadUndecodable)
      case Some(text) =>
        match p.loads(text)
        case None => Failure(PayloadUndecodable)
        case Some(j) => Success(j)
  }

  /** The salts and the secret, when the payload holds all three as strings. */
  function SecretMaterial(payload: Json): (r: Option<(string, string, string)>)
    ensures r.Some? <==> payload.JObj? && Get(payload, "s1").Some? && Get(payload, "s1").value.JStr?
                         && Get(payload, "s2").Some? && Get(payload, "s2").value.JStr?
                         && Get(payload, "s3").Some? && Get(payload, "s3").value.JStr?
  {
    match (Get(payload, "s1"), Get(payload, "s2"), Get(payload, "s3"))
    case (Some(JStr(s1)), Some(JStr(s2)), Some(JStr(s3))) => Some((s1, s2, s3))
    case _ => None
  }

  /** `regenerate_api_token(auth_token, url, options_body)` at time `nowMs`; every failure is `None` in the source. */
  function RegenerateApiToken(p: Primitives, authToken: string, url: string, body: string, nowMs: int)
    : (r: Result<string, RegenError>)
    ensures |Split(authToken, '.')| != 3 ==> r == Failure(WrongPartCount(|Split(authToken, '.')|))
  {
    var parts := Split(authToken, '.');
    if |parts| != 3 then Failure(WrongPartCount(|parts|))
    else
      match ReadPayload(p, parts[1])
      case Failure(e) => Failure(e)
      case Success(payload) =>
        if !payload.JObj? then Failure(PayloadNotObject)
        else
          match SecretMaterial(payload)
          case None => Failure(MissingSecretMaterial)
          case Some((s1, s2, s3)) =>
            match GenerateAuthToken(p, s1, s2, s3, QueryString(url), body, nowMs)
            case Failure(e) => Failure(GenerationFailed(e))
            case Success(t) => Success(t)
  }

  /**
   * `regenerate_api_token` succeeds exactly when the token has three parts,
   * its payload carries string `s1`, `s2`, `s3`, and `s3` decodes; the new
   * token is then `generate_auth_token(s1, s2, s3, q, body)` for the query
   * `q` of the URL.
   */
  lemma RegenerateIsGenerate(p: Primitives, authToken: string, url: string, body: string, nowMs: int)
    ensures var parts := Split(authToken, '.');
            var r := RegenerateApiToken(p, authToken, url, body, nowMs);
            r.Success? <==> (|parts| == 3 && ReadPayload(p, parts[1]).Success?
                             && SecretMaterial(ReadPayload(p, parts[1]).value).Some?
                             && B64Decode(SecretMaterial(ReadPayload(p, parts[1]).value).value.2).Success?)
    ensures var parts := Split(authToken, '.');
            var r := RegenerateApiToken(p, authToken, url, body, nowMs);
            r.Success? ==>
              var m := SecretMaterial(ReadPayload(p, parts[1]).value).value;
              GenerateAuthToken(p, m.0, m.1, m.2, QueryString(url), body, nowMs) == Success(r.value)
  {
  }

  /** A page token from which `regenerate_api_token` can mint new tokens. */
  predicate Regenerable(p: Primitives, authToken: string) {
    RegenerateApiToken(p, authToken, "", "", 0).Success?
  }

  /**
   * Whether regeneration succeeds depends on the page token alone: not on
   * the URL, the request body or the time the new token is for.
   */
  lemma RegenerableAnyRequest(p: Primitives, authToken: string, url: string, body: string, nowMs: int)
    ensures RegenerateApiToken(p, authToken, url, body, nowMs).Success? == Regenerable(p, authToken)
  {
  }

  /** The encoding of a non-empty text is non-empty and never contains `.`. */
  lemma SegmentFacts(s: string)
    ensures s != [] ==> EncodeUrlsafeBase64(s) != []
    ensures '.' !in EncodeUrlsafeBase64(s)
  {
    var b := Utf8.Encode(s);
    EncodeUrlsafeUnpadded(b);
    ToUrlChars(Unpadded(b));
    EncodeUrlsafeAlphabet(b);
  }

  lemma SignatureFacts(sig: seq<Byte>)
    ensures sig != [] ==> EncodeUrlsafeBytes(sig) != []
    ensures '.' !in EncodeUrlsafeBytes(sig)
  {
    EncodeUrlsafeUnpadded(sig);
    ToUrlChars(Unpadded(sig));
    EncodeUrlsafeAlphabet(sig);
  }

  /**
   * A minted token is three non-empty `.`-separated segments: the encoded
   * constant header `{"typ":"JWT","alg":"HS256"}`, the encoded claims and
   * the encoded signature of the first two.
   */
  lemma TokenShape(p: Primitives, salt1: string, salt2: string, secret: string,
                   query: string, body: string, nowMs: int)
    requires Serialises(p)
    requires GenerateAuthToken(p, salt1, salt2, secret, query, body, nowMs).Success?
    ensures var parts := Split(GenerateAuthToken(p, salt1, salt2, secret, query, body, nowMs).value, '.');
            && |parts| == 3
            && parts[0] == EncodeUrlsafeBase64(HeaderText)
            && parts[1] == EncodeUrlsafeBase64(p.dumps(MintedClaims(p, salt1, salt2, query, body, nowMs)))
            && parts[2] == EncodeUrlsafeBytes(p.hmacSha256(B64Decode(secret).value, Utf8.Encode(parts[0] + "." + parts[1])))
            && parts[0] != [] && parts[1] != [] && parts[2] != []
  {
    var key := B64Decode(secret).value;
    var claims := p.dumps(MintedClaims(p, salt1, salt2, query, body, nowMs));
    var header := EncodeUrlsafeBase64(p.dumps(HeaderObject));
    var payload := EncodeUrlsafeBase64(claims);
    var sig := p.hmacSha256(key, Utf8.Encode(header + "." + payload));
    assert GenerateAuthToken(p, salt1, salt2, secret, query, body, nowMs).value
        == header + "." + payload + "." + EncodeUrlsafeBytes(sig);
    assert claims != [] && |sig| == 32;
    ThreeSegments(p.dumps(HeaderObject), claims, sig);
  }

  /** Two encoded texts and an encoded signature, joined by `.`, split back into those three non-empty segments. */
  lemma ThreeSegments(header: string, claims: string, sig: seq<Byte>)
    requires header != [] && claims != [] && sig != []
    ensures var parts := Split(EncodeUrlsafeBase64(header) + "." + EncodeUrlsafeBase64(claims) + "." + EncodeUrlsafeBytes(sig), '.');
            && parts == [EncodeUrlsafeBase64(header), EncodeUrlsafeBase64(claims), EncodeUrlsafeBytes(sig)]
            && parts[0] != [] && parts[1] != [] && parts[2] != []
  {
    SegmentFacts(header);
    SegmentFacts(claims);
    SignatureFacts(sig);
    DotJoined(EncodeUrlsafeBase64(header), EncodeUrlsafeBase64(claims), EncodeUrlsafeBytes(sig));
  }

  lemma DotJoined(x: string, y: string, z: string)
    requires '.' !in x && '.' !in y && '.' !in z
    ensures Split(x + "." + y + "." + z, '.') == [x, y, z]
  {
    SplitThree(x, y, z, '.');
  }

  /** The four fixed claims, looked up one by one. */
  lemma FixedClaims(iat: real, queryHash: string, webdriverHash: string)
    ensures var base := [("iat", JNum(iat)), ("exp", JNum(iat + 120.0)), ("hq", JStr(queryHash)), ("wb", JStr(webdriverHash))];
            && Lookup(base, "iat") == Some(JNum(iat))
            && Lookup(base, "exp") == Some(JNum(iat + 120.0))
            && Lookup(base, "hq") == Some(JStr(queryHash))
            && Lookup(base, "wb") == Some(JStr(webdriverHash))
  {
    var base := [("iat", JNum(iat)), ("exp", JNum(iat + 120.0)), ("hq", JStr(queryHash)), ("wb", JStr(webdriverHash))];
    assert base[..3] == base[..|base| - 1] && base[..2] == base[..3][..2] && base[..1] == base[..2][..1];
    assert Lookup(base, "hq") == Lookup(base[..3], "hq");
    assert Lookup(base, "exp") == Lookup(base[..3], "exp") == Lookup(base[..2], "exp");
    assert Lookup(base, "iat") == Lookup(base[..3], "iat") == Lookup(base[..2], "iat") == Lookup(base[..1], "iat");
  }

  /** The claim names: `iat, exp, hq, wb` in that order, then `hb` exactly when there is a body hash. */
  lemma ClaimsKeys(nowMs: int, queryHash: string, webdriverHash: string, bodyHash: Option<string>)
    ensures var j := Claims(nowMs, queryHash, webdriverHash, bodyHash);
            && Keys(j.fields) == ["iat", "exp", "hq", "wb"] + (if bodyHash.Some? then ["hb"] else [])
            && Get(j, "s1") == None && Get(j, "s2") == None && Get(j, "s3") == None
  {
    var j := Claims(nowMs, queryHash, webdriverHash, bodyHash);
    var names := ["iat", "exp", "hq", "wb"] + (if bodyHash.Some? then ["hb"] else []);
    assert Keys(j.fields) == names;
    forall k | 0 <= k < |j.fields| ensures j.fields[k].0 != "s1" && j.fields[k].0 != "s2" && j.fields[k].0 != "s3" {
      assert j.fields[k].0 == names[k];
      assert names[k][0] != 's';
    }
    LookupSpec(j.fields, "s1");
    LookupSpec(j.fields, "s2");
    LookupSpec(j.fields, "s3");
  }

  /** `exp` is `iat` plus 120 seconds, and each hash sits under its own name. */
  lemma ClaimsValues(nowMs: int, queryHash: string, webdriverHash: string, bodyHash: Option<string>)
    ensures var j := Claims(nowMs, queryHash, webdriverHash, bodyHash);
            && Get(j, "iat") == Some(JNum(nowMs as real / 1000.0))
            && Get(j, "exp") == Some(JNum(nowMs as real / 1000.0 + 120.0))
            && Get(j, "hq") == Some(JStr(queryHash))
            && Get(j, "wb") == Some(JStr(webdriverHash))
            && Get(j, "hb") == (if bodyHash.Some? then Some(JStr(bodyHash.value)) else None)
  {
    var iat := nowMs as real / 1000.0;
    var j := Claims(nowMs, queryHash, webdriverHash, bodyHash);
    var base := [("iat", JNum(iat)), ("exp", JNum(iat + 120.0)), ("hq", JStr(queryHash)), ("wb", JStr(webdriverHash))];
    FixedClaims(iat, queryHash, webdriverHash);
    if bodyHash.Some? {
      assert j.fields == base + [("hb", JStr(bodyHash.value))];
      assert j.fields[..4] == base;
    } else {
      assert j.fields == base;
      forall k | 0 <= k < |base| ensures base[k].0 != "hb" {
        assert base[k].0[0] != 'h' || base[k].0[1] != 'b';
      }
      LookupSpec(base, "hb");
    }
  }

  /** The claims of a minted token hash the salted query, webdriver flag and body, as `generate_auth_token` promises. */
  lemma ClaimsContent(p: Primitives, salt1: string, salt2: string, query: string, body: string, nowMs: int)
    ensures var j := MintedClaims(p, salt1, salt2, query, body, nowMs);
            && Keys(j.fields) == ["iat", "exp", "hq", "wb"] + (if body != "" then ["hb"] else [])
            && Get(j, "exp") == Some(JNum(nowMs as real / 1000.0 + 120.0))
            && Get(j, "hq") == Some(JStr(Md5(p, salt1 + query + salt2)))
            && Get(j, "wb") == Some(JStr(Md5(p, salt1 + "false" + salt2)))
            && Get(j, "hb") == (if body != "" then Some(JStr(Md5(p, salt1 + body + salt2))) else None)
            && Get(j, "s1") == None && Get(j, "s2") == None && Get(j, "s3") == None
  {
    var bodyHash := if body != "" then Some(Md5(p, salt1 + body + salt2)) else None;
    ClaimsKeys(nowMs, Md5(p, salt1 + query + salt2), Md5(p, salt1 + "false" + salt2), bodyHash);
    ClaimsValues(nowMs, Md5(p, salt1 + query + salt2), Md5(p, salt1 + "false" + salt2), bodyHash);
  }

  /**
   * A minted token carries no `s1`/`s2`/`s3`, so it cannot itself be
   * regenerated: callers must keep regenerating from the page's token.
   */
  lemma MintedNotRegenerable(p: Primitives, salt1: string, salt2: string, secret: string,
                             query: string, body: string, nowMs: int,
                             url: string, body2: string, nowMs2: int)
    requires Serialises(p)
    requires GenerateAuthToken(p, salt1, salt2, secret, query, body, nowMs).Success?
    requires var j := MintedClaims(p, salt1, salt2, query, body, nowMs); p.loads(p.dumps(j)) == Some(j)
    ensures RegenerateApiToken(p, GenerateAuthToken(p, salt1, salt2, secret, query, body, nowMs).value,
                               url, body2, nowMs2) == Failure(MissingSecretMaterial)
  {
    var t := GenerateAuthToken(p, salt1, salt2, secret, query, body, nowMs).value;
    var j := MintedClaims(p, salt1, salt2, query, body, nowMs);
    MintedPayload(p, salt1, salt2, secret, query, body, nowMs);
    ClaimsContent(p, salt1, salt2, query, body, nowMs);
    assert SecretMaterial(j).None?;
  }

  /** The payload segment of a minted token reads back as its claims. */
  lemma MintedPayload(p: Primitives, salt1: string, salt2: string, secret: string,
                      query: string, body: string, nowMs: int)
    requires Serialises(p)
    requires GenerateAuthToken(p, salt1, salt2, secret, query, body, nowMs).Success?
    requires var j := MintedClaims(p, salt1, salt2, query, body, nowMs); p.loads(p.dumps(j)) == Some(j)
    ensures var parts := Split(GenerateAuthToken(p, salt1, salt2, secret, query, body, nowMs).value, '.');
      |parts| == 3 && ReadPayload(p, parts[1]) == Success(MintedClaims(p, salt1, salt2, query, body, nowMs))
  {
    var j := MintedClaims(p, salt1, salt2, query, body, nowMs);
    TokenShape(p, salt1, salt2, secret, query, body, nowMs);
    DecodeSegmentEncoded(Utf8.Encode(p.dumps(j)));
    Utf8.DecodeEncode(p.dumps(j));
  }
}
