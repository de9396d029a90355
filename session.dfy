/**
 * Session bootstrap: the fixed-pattern searches of common.py's
 * `get_authentication_token` and the bounded retry around it
 * (`get_initial_tokens` in the two listing scrapers, the `while retry < 3`
 * loop in scrape_builders.py).
 *
 * The browser that renders the page and collects its cookies is an oracle:
 * `render(k)` is what the `k`-th rendering returns.
 */
module Session {
  import opened Wrappers
  import opened Text

  /**
   * A regular expression of the shape `prefix([^stops]+)` optionally
   * followed by the closing character `closer` (which is one of `stops`).
   */
  datatype Pattern = Pattern(prefix: string, stops: seq<char>, closer: Option<char>)

  /** `__apiToken" value="([^"]+)"` */
  const ApiTokenPattern := Pattern("__apiToken\" value=\"", ['"'], Some('"'))
  /** `"encrypted_input":"([^"]+)"` */
  const EncryptedInputPattern := Pattern("\"encrypted_input\":\"", ['"'], Some('"'))
  /** `/buy/([^/?]+)` */
  const BuyPattern := Pattern("/buy/", ['/', '?'], None)
  /** `/rent/([^/?]+)` */
  const RentPattern := Pattern("/rent/", ['/', '?'], None)

  /**
   * The regular expression matches at `i` with group `g`: the prefix, then
   * a non-empty run of non-stop characters that the greedy `+` cannot
   * extend, then the closer if there is one.
   */
  predicate IsMatch(s: string, pat: Pattern, i: nat, g: string) {
    var j := i + |pat.prefix|;
    && OccursAt(s, pat.prefix, i)
    && g != [] && j + |g| <= |s| && s[j..j + |g|] == g
    && (forall k :: 0 <= k < |g| ==> g[k] !in pat.stops)
    && (match pat.closer
        case Some(c) => j + |g| < |s| && s[j + |g|] == c
        case None => j + |g| == |s| || s[j + |g|] in pat.stops)
  }

  /** The length of the longest run of non-stop characters at `j`. */
  function RunLength(s: string, stops: seq<char>, j: nat): (n: nat)
    requires j <= |s|
    ensures j + n <= |s|
    ensures forall k :: j <= k < j + n ==> s[k] !in stops
    ensures j + n == |s| || s[j + n] in stops
    decreases |s| - j
  {
    if j == |s| || s[j] in stops then 0 else 1 + RunLength(s, stops, j + 1)
  }

  /** A group that satisfies `IsMatch` is the longest run at its position. */
  lemma MatchIsRun(s: string, pat: Pattern, i: nat, g: string)
    requires pat.closer.Some? ==> pat.closer.value in pat.stops
    requires IsMatch(s, pat, i, g)
    ensures g == s[i + |pat.prefix|..i + |pat.prefix| + RunLength(s, pat.stops, i + |pat.prefix|)]
  {
  }

  /** The group of the match at `i`, if the expression matches there. */
  function MatchAt(s: string, pat: Pattern, i: nat): (r: Option<string>)
    requires pat.closer.Some? ==> pat.closer.value in pat.stops
    ensures r.Some? ==> IsMatch(s, pat, i, r.value)
    ensures r.None? ==> forall g :: !IsMatch(s, pat, i, g)
  {
    if !OccursAt(s, pat.prefix, i) then None
    else
      var j := i + |pat.prefix|;
      var n := RunLength(s, pat.stops, j);
      var closed := match pat.closer
                     case Some(c) => j + n < |s| && s[j + n] == c
                     case None => true;
      if n == 0 || !closed then
        assert forall g :: IsMatch(s, pat, i, g) ==> g == s[j..j + n] by {
          forall g | IsMatch(s, pat, i, g) ensures g == s[j..j + n] {
            MatchIsRun(s, pat, i, g);
          }
        }
        None
      else Some(s[j..j + n])
  }

  /** `re.search(pattern, s).group(1)` from position `i` on. */
  function SearchFrom(s: string, pat: Pattern, i: nat): (r: Option<string>)
    requires pat.closer.Some? ==> pat.closer.value in pat.stops
    ensures r.Some? ==> exists m :: i <= m <= |s| && IsMatch(s, pat, m, r.value)
                                    && forall k, g :: i <= k < m ==> !IsMatch(s, pat, k, g)
    ensures r.None? ==> forall k, g :: i <= k <= |s| ==> !IsMatch(s, pat, k, g)
    decreases |s| + 1 - i
  {
    if i > |s| then None
    else
      match MatchAt(s, pat, i)
      case Some(g) => Some(g)
      case None => SearchFrom(s, pat, i + 1)
  }

  /** `re.search(pattern, s).group(1)`: the group of the leftmost match, or `None` when nothing matches. */
  function Search(s: string, pat: Pattern): (r: Option<string>)
    requires pat.closer.Some? ==> pat.closer.value in pat.stops
    ensures r.Some? ==> exists m: nat :: m <= |s| && IsMatch(s, pat, m, r.value)
                                         && forall k: nat, g :: k < m ==> !IsMatch(s, pat, k, g)
    ensures r.None? ==> forall k: nat, g :: k <= |s| ==> !IsMatch(s, pat, k, g)
  {
    SearchFrom(s, pat, 0)
  }

  /** What the browser hands back: the page source and its cookies (a name-to-value dict). */
  datatype RenderOutcome = Rendered(html: string, cookies: seq<(string, string)>) | RenderFailed

  datatype AuthTriple = AuthTriple(apiToken: string, encryptedInput: string, cookies: seq<(string, string)>)

  const NoTokens := AuthTriple("", "", [])

  /** `auth_token and cookies and encrypted_input` */
  predicate Truthy(t: AuthTriple) {
    t.apiToken != [] && t.encryptedInput != [] && t.cookies != []
  }

  /** `get_authentication_token(url, proxies)` given what the browser returned for `url`. */
  function GetAuthenticationToken(page: RenderOutcome): (t: AuthTriple)
    ensures t == NoTokens || (page.Rendered? && t.cookies == page.cookies && t.apiToken != [] && t.encryptedInput != [])
  {
    match page
    case RenderFailed => NoTokens
    case Rendered(html, cookies) =>
      match (Search(html, ApiTokenPattern), Search(html, EncryptedInputPattern))
      case (Some(token), Some(input)) => AuthTriple(token, input, cookies)
      case _ => NoTokens
  }

  /**
   * The api token is the leftmost `__apiToken" value="…"` group and the
   * encrypted input the leftmost `"encrypted_input":"…"` group; when either
   * marker is missing (or the browser failed) the result is `("", "", [])`.
   */
  lemma AuthTokenFromMarkers(page: RenderOutcome)
    ensures page.RenderFailed? ==> GetAuthenticationToken(page) == NoTokens
    ensures page.Rendered? ==>
      var token := Search(page.html, ApiTokenPattern);
      var input := Search(page.html, EncryptedInputPattern);
      && (token.None? || input.None? ==> GetAuthenticationToken(page) == NoTokens)
      && (token.Some? && input.Some? ==>
            GetAuthenticationToken(page) == AuthTriple(token.value, input.value, page.cookies)
            && (exists m: nat :: IsMatch(page.html, ApiTokenPattern, m, token.value)
                                 && forall k: nat, g :: k < m ==> !IsMatch(page.html, ApiTokenPattern, k, g)))
  {
  }

  /** A page with both markers fails the truthiness test only for want of cookies. */
  lemma FoundTokensTruthy(page: RenderOutcome)
    requires GetAuthenticationToken(page) != NoTokens
    ensures Truthy(GetAuthenticationToken(page)) <==> page.cookies != []
  {
  }

  /** What successive calls of `get_authentication_token` return, given what successive renderings return. */
  function Triples(render: nat -> RenderOutcome): nat -> AuthTriple {
    (k: nat) => GetAuthenticationToken(render(k))
  }

  /**
   * `get_initial_tokens`: up to `attempts` calls of
   * `get_authentication_token`, the first being call number `start`, until
   * one yields a truthy triple; `tokens(k)` is what call `k` returns. The
   * result is the triple (or `None`, for `(None, None, None)`) and the number
   * of calls made. The source uses 2 attempts (scrape_resale_props.py,
   * scrape_rental_props.py) and 3 (scrape_builders.py).
   */
  function Bootstrap(tokens: nat -> AuthTriple, start: nat, attempts: nat): (res: (Option<AuthTriple>, nat))
    ensures res.1 <= attempts
    ensures res.0.Some? ==> res.1 >= 1 && Truthy(res.0.value) && res.0.value == tokens(start + res.1 - 1)
    ensures res.0.None? ==> res.1 == attempts
    ensures forall k :: start <= k < start + res.1 - 1 ==> !Truthy(tokens(k))
    ensures res.0.None? && attempts > 0 ==> !Truthy(tokens(start + attempts - 1))
    decreases attempts
  {
    if attempts == 0 then (None, 0)
    else if Truthy(tokens(start)) then (Some(tokens(start)), 1)
    else
      var rest := Bootstrap(tokens, start + 1, attempts - 1);
      (rest.0, rest.1 + 1)
  }

  /** The attempt loop of `get_initial_tokens` and of scrape_builders.py's `while retry < 3`. */
  method InitialTokens(tokens: nat -> AuthTriple, start: nat, maxAttempts: nat)
    returns (r: Option<AuthTriple>, used: nat)
    ensures (r, used) == Bootstrap(tokens, start, maxAttempts)
  {
    used := 0;
    while used < maxAttempts
      invariant used <= maxAttempts
      invariant Bootstrap(tokens, start, maxAttempts).0 == Bootstrap(tokens, start + used, maxAttempts - used).0
      invariant Bootstrap(tokens, start, maxAttempts).1 == Bootstrap(tokens, start + used, maxAttempts - used).1 + used
    {
      var t := tokens(start + used);
      used := used + 1;
      if Truthy(t) {
        return Some(t), used;
      }
    }
    r := None;
  }
}
