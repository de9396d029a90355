# 99acres scrapers: a Dafny model

This project models the sequential core of three scrapers for the 99acres property site:

- **Token pipeline (`common.py`).**
  - The base64url codec: `encode_urlsafe_base64` and `decode_base64_string`, using the URL- and filename-safe alphabet of section 5 of RFC 4648.
  - `generate_auth_token` mints a compact JWS (section 7.1 of RFC 7515). It carries the HS256 header, `iat`/`exp` claims and MD5 digests of the salted query, webdriver flag and body.
  - `regenerate_api_token` reads the salts and secret out of an existing token's payload and mints a new token for another URL.
  - The two marker searches of `get_authentication_token`.
- **Builder directory (`scrape_builders.py`).**
  - The brace scan that cuts the embedded JSON out of a page script.
  - `append_builder_data`, which flattens builder cards.
  - The range of extra listing pages.
  - The three-attempt session bootstrap for each builder.
  - The `props_remaining` count-down over the project-search API.
- **Listing crawls (`scrape_resale_props.py`, `scrape_rental_props.py`).**
  - `get_initial_tokens`.
  - The `process_city` loop: batches of five pages, classification of failed pages, the `total_new_props` latch, one retry of the failed pages after a fresh bootstrap, and the end test.
  - The in-place `RESALE` filter.
  - The `prop_obj` record mapping.

The two listing scrapers are one model (`Listings`, `Records`), parameterised by the site. The site fixes the city pattern (`/buy/` or `/rent/`) and the page bound of the end test (10 or 5). The `RESALE` filter exists only for resale.

What the network, the browser and the clock return are parameters, indexed by call number:

- `Session.Triples` / `Listings.Env.bootstrap`: what the k-th bootstrap returns.
- `Listings.Env.net`: what the k-th page request returns.
- `Builders.ProcessCity`'s `api`: what the k-th project-search request returns.
- `nowMs`: the time, in milliseconds.

MD5, HMAC-SHA256 and the JSON serialiser are function-valued fields of `Tokens.Primitives`. The properties that need something of them (the header serialises to `{"typ":"JWT","alg":"HS256"}`, `loads` inverts `dumps` on the claims, the signature has 32 bytes) state it in their preconditions.

The base64 decoder is Python's non-validating `b64decode` (CPython's `binascii.a2b_base64`), modelled exactly rather than restricted to alphabet input:

- characters outside the alphabet are skipped;
- a run of `=` that completes a group ends the scan;
- a scan that ends inside a group is an error.

So `decode_base64_string` and `regenerate_api_token` are total, as in the source, where every error is caught and turned into `None`.

An exception that no handler catches is a `Wrappers.Crash`. An `Option`/`Result` stands for each `None` return. Loops that the source runs as `while True` or `while props_remaining > 0` take a round budget (`fuel`), and running out of it is a separate outcome.

## Model

| member | source | states |
|---|---|---|
| Base64.B64Encode | common.py:77 | `base64.b64encode`: the length is a multiple of 4 and every character is in the standard alphabet or is `=` |
| Base64.Unpadded | common.py:77 | the encoding without padding has `ceil(4n/3)` characters, all from the standard alphabet |
| Base64.SextetOf | common.py:65 | the sextet a character of the alphabet decodes to is the one that encodes back to it |
| Base64.SextetRoundTrip | common.py:65 | encoding a sextet as a character and decoding it gives the sextet back |
| Base64.Feed | common.py:65 | one data character moves the group position on by one mod 4 and only appends to the output, one byte on every character after the first of a group |
| Base64.Scan | common.py:65 | the `a2b_base64` scan never reports a non-ASCII error (that check comes before the scan) |
| Base64.B64Decode | common.py:65 | `base64.b64decode` on a `str` fails with the non-ASCII error exactly when the text has a character of 128 or more |
| Base64.ScanQuad | common.py:65 | a four-character group scanned at a group boundary appends the three bytes it encodes and leaves the scan at a boundary |
| Base64.ScanTail1 | common.py:65 | the last group of one byte (`xx==`) decodes to that byte |
| Base64.ScanTail2 | common.py:65 | the last group of two bytes (`xxx=`) decodes to those bytes |
| Base64.EncodeGroup | common.py:77 | the encoding of three bytes or more starts with the group of the first three, followed by the encoding of the rest |
| Base64.ScanEncoded | common.py:65 | scanning the encoding of `b` from a group boundary appends exactly `b` |
| Base64.DecodeEncode | common.py:65-77 | `b64decode(b64encode(b)) == b` for every byte string |
| Utf8.EncodeChar | common.py:77 | one character is 1 to 4 bytes, a single byte equal to its code exactly when it is ASCII, and only bytes of 128 or more otherwise |
| Utf8.Encode | common.py:77 | `str.encode('utf-8')` has at least one byte per character |
| Utf8.DecodeChar | common.py:152 | a decoded character takes 1 to 4 bytes of the input |
| Utf8.AsciiDecode | common.py:66 | `bytes.decode('ascii')` succeeds exactly when every byte is below 128, and then maps each byte to the character with that code |
| Utf8.EncodeAscii | common.py:77 | the encoding of an ASCII string is its sequence of character codes |
| Utf8.EncodeNonAscii | common.py:77 | a non-ASCII character leaves a byte of 128 or more in the encoding |
| Utf8.DecodeTwo | common.py:152 | a two-byte character decodes back to itself |
| Utf8.DecodeThree | common.py:152 | a three-byte character decodes back to itself |
| Utf8.DecodeFour | common.py:152 | a four-byte character decodes back to itself |
| Utf8.DecodeCharEncoded | common.py:152 | the bytes of a character decode to that character, whatever follows them |
| Utf8.DecodeEncode | common.py:130-152 | `s.encode('utf-8').decode('utf-8') == s` |
| Codec.Padding | common.py:60-62 | the padding brings the length to a multiple of four and is shorter than four |
| Codec.ToUrlChars | common.py:77 | `replace('+', '-').replace('/', '_')` keeps the length and translates exactly `+` and `/` |
| Codec.FromUrlChars | common.py:59 | `replace('-', '+').replace('_', '/')` keeps the length and translates exactly `-` and `_` |
| Codec.RStripPadding | common.py:77 | `rstrip('=')` removes exactly the appended padding from a text that does not end in `=` |
| Codec.EncodeUrlsafeUnpadded | common.py:75-77 | `encode_urlsafe_base64` is the unpadded standard encoding with `+` and `/` translated |
| Codec.EncodeUrlsafeAlphabet | common.py:75-77 | `encode_urlsafe_base64` uses only `A-Z a-z 0-9 - _`: never `+`, `/` or `=` |
| Codec.RestorePadding | common.py:58-62 | translating an unpadded URL-safe encoding back and re-padding it gives the standard encoding |
| Codec.DecodeSegmentEncoded | common.py:150-152 | a token segment made by the encoder decodes back to its bytes |
| Codec.StripEncoded | common.py:58 | `strip()` leaves an encoder output unchanged |
| Codec.DecodeEncoded | common.py:54-77 | on an encoder output, `decode_base64_string` is the ASCII decoding of the encoded bytes |
| Codec.DecodeEncodeAscii | common.py:54-77 | `decode_base64_string(encode_urlsafe_base64(s)) == s` for every ASCII string `s` |
| Codec.DecodeEncodeNonAscii | common.py:54-77 | a string with a non-ASCII character round-trips to `None`: its UTF-8 bytes are not ASCII |
| Codec.DecodedIsAscii | common.py:66-67 | a result of `decode_base64_string` is always ASCII text |
| Codec.DecodeNonAsciiInput | common.py:64-73 | input that is not ASCII once stripped gives `None` (the `ValueError` is caught) and does not raise |
| Codec.DataCount | common.py:65 | the number of alphabet characters is at most the length |
| Codec.FeedAll | common.py:65 | feeding the alphabet characters of a text moves the group position on by their number, mod 4 |
| Codec.ScanNoPad | common.py:65 | a text without `=` only feeds its alphabet characters into the scan |
| Codec.ScanPadsAfterOne | common.py:65 | padding after a lone data character is the "1 more than a multiple of 4" error |
| Codec.DecodeOneTooMany | common.py:60-70 | a cleaned input without `=` whose alphabet characters number 1 mod 4 gives `None` |
| Text.ReplaceUndo | common.py:59 | replacing back undoes `s.replace(a, b)` when `b` does not occur in `s`, and afterwards no `a` is left |
| Text.RStrip | common.py:77 | `rstrip(c)` is a prefix that does not end in `c`, and only `c`s were removed |
| Text.LStripSpace | common.py:58 | the left strip is a suffix that does not start with white space |
| Text.RStripSpace | common.py:58 | the right strip is a prefix that does not end with white space |
| Text.StripNoSpace | common.py:58 | `strip()` leaves a text without white space unchanged |
| Text.IndexOf | common.py:166 | the first occurrence of a character |
| Text.Split | common.py:146 | `split(sep)` gives at least one part, and no part contains `sep` |
| Text.JoinSplit | common.py:146 | joining the parts of `split(sep)` with `sep` gives the text back |
| Text.SplitFirst | common.py:146 | splitting a separator-free head, the separator and a rest gives the head followed by the parts of the rest |
| Text.SplitThree | common.py:146-147 | three separator-free texts joined by the separator split back into exactly those three |
| Text.Find | scrape_builders.py:29 | `s.find(p)` is the first index where `p` occurs, or -1 when it occurs nowhere |
| Text.FindFrom | scrape_builders.py:29 | the search from an index finds the first occurrence at or after it |
| JsonModel.LookupSpec | common.py:155-157 | a lookup finds a value exactly when some member has the key, and what it finds is bound to that key |
| JsonModel.KeysLookup | common.py:118-125 | a name is among the member names exactly when looking it up finds a value |
| JsonModel.Iter | scrape_resale_props.py:130 | `for x in v` is defined exactly on lists, dicts and strings, and yields a list's items |
| JsonModel.Len | scrape_builders.py:227-228 | `len(v)` is defined exactly where iteration is, and counts what it yields |
| JsonModel.RemoveKey | scrape_builders.py:75 | `d.pop(k, None)`: the key is gone and every other member stays |
| JsonModel.SetKey | scrape_builders.py:249 | `d[k] = v`: the key maps to `v`, the members are exactly the other old members and `(k, v)`, and every other key reads as before |
| JsonModel.IterDistinctKeys | scrape_builders.py:72 | iterating a dict that `json.loads` built (no repeated key) yields each of its keys once, exactly the keys a lookup finds |
| JsonModel.NumberValue | scrape_resale_props.py:170 | only numbers and booleans compare with numbers, and a number stands for itself |
| JsonModel.Subscript | scrape_builders.py:203 | `d[k]` succeeds exactly on a dict with the key; a dict without it is `KeyError` |
| Session.RunLength | common.py:30 | the run of non-stop characters is maximal: it is followed by a stop character or the end |
| Session.MatchIsRun | common.py:30 | a match's group is the whole maximal run after the prefix |
| Session.MatchAt | common.py:30 | the group at a position is found exactly when the pattern matches there |
| Session.SearchFrom | common.py:30 | `re.search` from a position finds the leftmost match at or after it, and `None` only when there is no match |
| Session.Search | common.py:30-44 | `re.search(...).group(1)` is the group of the leftmost match, and `None` when nothing matches |
| Session.GetAuthenticationToken | common.py:17-52 | the result is `("", "", [])`, or non-empty token and input with the browser's cookies |
| Session.AuthTokenFromMarkers | common.py:29-46 | the api token and the encrypted input are the leftmost marker groups; a missing marker or a failed render gives `("", "", [])` |
| Session.FoundTokensTruthy | common.py:46 | with both markers found, the triple is truthy exactly when there are cookies |
| Session.Bootstrap | scrape_resale_props.py:70-78 | at most `attempts` calls; the triple is the first truthy one and every earlier call was falsy; `None` only after all attempts failed |
| Session.InitialTokens | scrape_resale_props.py:70-78 | the attempt loop returns exactly what `Bootstrap` specifies |
| Tokens.Claims | common.py:116-125 | the payload is a dict |
| Tokens.GenerateAuthToken | common.py:87-142 | minting succeeds exactly when the secret decodes; the failure is the uncaught `ValueError` exactly when the secret is not ASCII |
| Tokens.QueryString | common.py:166 | the query is the text after the first `?`, or empty when there is none |
| Tokens.SecretMaterial | common.py:155-163 | the salts and the secret are read exactly when the payload is a dict with string `s1`, `s2` and `s3` |
| Tokens.RegenerateApiToken | common.py:144-186 | a token that does not split into three parts is refused with the part count |
| Tokens.RegenerateIsGenerate | common.py:144-186 | regeneration succeeds exactly when there are three parts, the payload decodes, it has string `s1`/`s2`/`s3`, and `s3` decodes; it then equals `generate_auth_token(s1, s2, s3, q, body)` for the URL's query `q` |
| Tokens.RegenerableAnyRequest | common.py:144-186 | whether regeneration succeeds depends on the page token alone, not on the URL, body or time |
| Tokens.SegmentFacts | common.py:129-130 | an encoded non-empty text is non-empty and has no `.` |
| Tokens.SignatureFacts | common.py:137 | an encoded non-empty signature is non-empty and has no `.` |
| Tokens.TokenShape | common.py:128-142 | a minted token splits on `.` into exactly three non-empty parts: the encoded compact header `{"typ":"JWT","alg":"HS256"}`, the encoded claims, and the encoded HMAC-SHA256, keyed with the decoded secret, of the first two parts joined by `.` |
| Tokens.ThreeSegments | common.py:142-147 | the three encoded segments joined by `.` split back into those segments |
| Tokens.FixedClaims | common.py:118-123 | each of `iat`, `exp`, `hq`, `wb` is found under its own name |
| Tokens.ClaimsKeys | common.py:118-125 | the claim names are `iat, exp, hq, wb` in that order, then `hb` exactly when there is a body hash; there is no `s1`/`s2`/`s3` |
| Tokens.ClaimsValues | common.py:116-125 | `iat` is the time in seconds, `exp = iat + 120`, and each hash is under its own name; `hb` exists only with a body |
| Tokens.ClaimsContent | common.py:95-125 | `hq = md5(salt1+query+salt2)`, `wb = md5(salt1+"false"+salt2)`, and `hb = md5(salt1+body+salt2)` exactly when the body is non-empty |
| Tokens.MintedPayload | common.py:128-152 | the payload segment of a minted token decodes back to its claims |
| Tokens.MintedNotRegenerable | common.py:116-163 | a minted token has no `s1`/`s2`/`s3`, so regenerating from it always fails |
| Braces.LastClose | scrape_builders.py:35-46 | `json_end` is one past a `}` that brings the depth back to 0, or 0 |
| Braces.LastCloseIsLast | scrape_builders.py:39-46 | no later `}` brings the depth back to 0 |
| Braces.ScanBraces | scrape_builders.py:35-46 | the stack scan finishes exactly when no prefix closes more braces than it opens, and then cuts at `LastClose`; otherwise it names the `}` that pops the empty stack |
| Braces.DepthStep | scrape_builders.py:40-44 | only `{` and `}` change the depth, by one each |
| Braces.LastCloseStep | scrape_builders.py:45-46 | one more character moves `json_end` only when it is a `}` that closes the outermost brace |
| Braces.NestedStep | scrape_builders.py:39-44 | a character after which the depth stays non-negative keeps the prefix nested |
| Braces.NotNested | scrape_builders.py:43-44 | a prefix with negative depth makes the text not nested |
| Braces.KeptIsBalanced | scrape_builders.py:39-48 | the kept prefix has as many `{` as `}`, and no prefix of it closes more than it opens |
| Builders.GetJsonFromScript | scrape_builders.py:20-59 | no script is `IndexError`; it succeeds exactly when the brace scan does not underflow; the result is the parse of the stripped kept prefix, or `{}` when that does not parse |
| Builders.CardData | scrape_builders.py:73-76 | a card contributes a dict without `subCards` |
| Builders.AddCardAfter | scrape_builders.py:72-76 | adding a card depends only on the card, not on what was gathered before |
| Builders.AppendBuilderData | scrape_builders.py:68-76 | `append_builder_data` only appends: the old list, then the flattened cards, or the crash of the walk |
| Builders.FlattenedFailure | scrape_builders.py:72-76 | a card that raises makes the whole walk raise |
| Builders.FlattenedShape | scrape_builders.py:72-76 | at most one item per card; each is a dict without `subCards` that some card carried as truthy `data` |
| Builders.FlattenedConcat | scrape_builders.py:72-76 | the cards' order is kept: walking two runs gives the first run's data, then the second's |
| Builders.NoComponentsNothingAppended | scrape_builders.py:69-70 | with no or empty `components`, nothing is appended |
| Builders.ListingPages | scrape_builders.py:117 | the extra pages are exactly `2 .. end_page - 1`, in increasing order |
| Builders.RequestedPages | scrape_builders.py:111-117 | page `pg` is requested exactly when `2 <= pg` and `10 * pg < resultCount` |
| Builders.ReadProjects | scrape_builders.py:223-246 | a read page has `len(newProjects) + len(secondaryNewProjects)` items; a `KeyError` is exactly a missing `newProjects`, or a missing `secondaryNewProjects` after a sized `newProjects` |
| Builders.BuilderProjects | scrape_builders.py:203-247 | the count-down collects the pages' items in order and counts the pages read; only a refused token ends it early; every round before the last leaves projects outstanding; a normal end is a non-positive count, a `KeyError`, an empty page, or enough projects; running out of rounds means every round was spent with projects still outstanding and the token still regenerable |
| Builders.ScrapedRecord | scrape_builders.py:249 | the stored record is the builder with `scraped_properties` set to `properties`: its members are exactly the builder's other members and that list, and every other key reads as it did in the builder |
| Builders.BuilderTokens | scrape_builders.py:167-182 | a builder without `builderId` is a `KeyError` before any bootstrap; otherwise it gets the first usable triple of at most three bootstraps, or none |
| Builders.BuilderRecord | scrape_builders.py:203-250 | a builder with a triple is never skipped; it crashes exactly when `projectCount.total.value` is missing or not a number; a recorded builder's record is the builder with `scraped_properties` set, nothing else added or changed, and that list is the items of the requests its count-down made, up to where that count-down stops; `Abandoned` exactly when projects are outstanding and the token cannot be regenerated; `RoundsSpent` only with a regenerable token and every round short of the declared count |
| Builders.ScrapeBuilders | scrape_builders.py:166-250 | builder `a` used exactly the bootstraps `Bootstrap` gives from the running total, at most three; every builder before the one the walk stopped at was recorded exactly when it got a triple; the records follow the builders' order, each is its builder with only `scraped_properties` set, and that list is the items of its own count-down, which stops where the count-down rule says; every record is the record of one of the city's builders; a finished walk saw every builder; a crash is a missing `builderId` at the builder reached, or a builder with a triple and no numeric declared count; `Abandoned` and `RoundsSpent` come from the last builder, which got a triple, with an unregenerable token or an exhausted budget |
| Builders.ReadListingPage | scrape_builders.py:102-106 | a listing page is read without raising exactly when its JSON yields `builderSrp.pageData` and that page's cards walk; then `pageData` is the one the page's script gives and the builders gain exactly its flattened cards, each a dict without `subCards` |
| Builders.ReadExtraPages | scrape_builders.py:157-163 | the extra pages are read in order: the k-th `pageData` gathered is the one the k-th reply gives; the loop succeeds exactly when every reply reads, and otherwise stops at the first that does not; what was gathered is the flattened cards of every `pageData` read, in order |
| Builders.GatheredEach | scrape_builders.py:157-163 | when the pages together were gathered without raising, each page's card walk did not raise |
| Builders.ReadFirstPage | scrape_builders.py:101-112 | the first page goes through exactly when it was fetched, its status is not 400 to 599, its `pageData` and cards read and `basicDetails.resultCount` gives `end_page`; then `end_page` is that ceiling and the builders are the page's flattened cards |
| Builders.ExtraPagesRead | scrape_builders.py:117-163 | when each page of `2 .. end_page - 1` was fetched and its reply gave a `pageData` whose cards walk, every page of that range reads |
| Builders.FetchExtraPages | scrape_builders.py:117-163 | the extra pages all go through exactly when each page of the range is fetched and reads; then after the first page's `pageData` come, for each extra page in order, the `pageData` that page gives, and the builders are the flattened cards of all of them |
| Builders.ReadCity | scrape_builders.py:101-163 | the listing pages go through exactly when the first page does and every extra page of its range is fetched and reads; then `end_page`, the extra pages and each page's `pageData` are the ones those pages give, and the builders are their flattened cards in page order |
| Builders.ProcessCity | scrape_builders.py:61-250 | the extra pages are exactly `2 .. end_page - 1`; the city gets through its listing pages exactly when the first page is fetched with a status `raise_for_status` accepts and reads, and every extra page is fetched and reads, and otherwise it raises with no results; then `end_page` is the ceiling of the first page's `resultCount` over 10, the builders are the flattened cards of the first page's `pageData` and then of each extra page's, and the walk over them ends as `ScrapeBuilders` describes, each record being its builder with only `scraped_properties` set |
| Listings.FetchPages | scrape_resale_props.py:113-118 | one outcome per page requested |
| Listings.FetchPagesAt | scrape_resale_props.py:113-118 | the i-th outcome is the i-th page fetched as the i-th request |
| Listings.BatchPages | scrape_resale_props.py:113-117 | a batch is the five pages `page, page+1, …, page+4` |
| Listings.PageRun | scrape_resale_props.py:116 | `page + i for i in range(n)`: `n` pages, the i-th being `page + i` |
| Listings.ReadPage | scrape_resale_props.py:121-146 | a page is failed exactly when it raised, is `None` or is not 200; it breaks the loop exactly when it is 200 and undecodable |
| Listings.DecodedRun | scrape_resale_props.py:140-144 | the loop reads every response before the first undecodable one, and stops there |
| Listings.ClassifyBatch | scrape_resale_props.py:119-146 | the batch loop computes `Classify`, the reading of every response up to the first undecodable one |
| Listings.ReadAllFailed | scrape_resale_props.py:121-124 | a page is in `failed_pgs` exactly when its outcome failed |
| Listings.ReadAllFailedOrdered | scrape_resale_props.py:119-124 | `failed_pgs` is strictly increasing and inside the batch |
| Listings.ReadAllKeepsResults | scrape_resale_props.py:130-131 | the batch loop only appends to `results[city_name]` |
| Listings.ReadAllLatch | scrape_resale_props.py:133-134 | once `total_new_props` is not 0, the batch loop leaves it alone |
| Listings.ReadAllTotalSource | scrape_resale_props.py:133-134 | the total is the old one, or the `count` of a page read in this batch |
| Listings.RetryItems | scrape_resale_props.py:160-168 | a failed retry adds nothing; only a decoded body can raise |
| Listings.RetryFailed | scrape_resale_props.py:160-168 | the retry loop computes `RetryAll`: the retried pages' items appended in order, or the first uncaught error |
| Listings.RetryAllFailure | scrape_resale_props.py:160-168 | an error in a retried page is the loop's error |
| Listings.RetryAllExtends | scrape_resale_props.py:166 | the retry only appends to the results |
| Listings.EndTest | scrape_resale_props.py:170-173 | the end test raises exactly when the total is not a number; otherwise the round goes on with `page + 5` |
| Listings.AfterBatch | scrape_resale_props.py:112-146 | the batch loop does not move the page or bootstrap |
| Listings.RoundProgress | scrape_resale_props.py:112-173 | a round that does not raise only appends to the results and keeps a non-zero total; it moves on by 5 pages unless it breaks, where it keeps the page; it requests its batch plus at most five retries; it bootstraps at most twice; its requests are exactly the batch, then, if it goes on, the batch's failed pages |
| Listings.BatchProgress | scrape_resale_props.py:113-146 | the batch loop only appends, keeps a non-zero total, requests its five pages, and fails at most five |
| Listings.RecoverProgress | scrape_resale_props.py:148-173 | the retry and the end test only append, keep the total and bootstrap at most twice; a round that goes on has requested exactly the failed pages once more, in order, and a round that breaks has requested nothing more |
| Listings.FailedBound | scrape_resale_props.py:119-124 | a strictly increasing list inside a range is no longer than the range |
| Listings.RoundBreaks | scrape_resale_props.py:148-154 | a round breaks exactly when some page failed and the fresh two-attempt bootstrap got nothing |
| Listings.CrawlAdvances | scrape_resale_props.py:112-173 | every pass of the `while True` body advances in the sense of `RoundProgress` |
| Listings.RoundsProgress | scrape_resale_props.py:107-173 | over all rounds, `results[city_name]` only grows and a non-zero total never changes |
| Listings.AsWrittenNeverFinishes | scrape_resale_props.py:112-173 | as written, a crawl never ends because of the end test: it breaks, raises or runs out of rounds |
| Listings.FinishedMeansEnd | scrape_resale_props.py:170-171 | with the end test heeded, a finished crawl met it: all announced listings collected, or past the page bound |
| Listings.RoundEndTest | scrape_resale_props.py:170-171 | a pass that goes on carries the end test of the state it hands on |
| Listings.ReadAllEmpty | scrape_resale_props.py:130-134 | pages with no listings and a count of 0 change nothing while the total is 0 |
| Listings.EmptyRound | scrape_resale_props.py:112-173 | on a city whose pages are all empty, a round requests its five pages, moves on by five, and the end test holds |
| Listings.EmptyCityRounds | scrape_resale_props.py:112-173 | every round on the empty city from a total of 0 is the one `EmptyRound` describes |
| Listings.EmptyRounds | scrape_resale_props.py:112-173 | such a body, as written, runs every round it is given (page `1 + 5n` after `n` rounds), while heeding the end test finishes after one |
| Listings.AsWrittenIgnoresEnd | scrape_resale_props.py:170-173 | on the empty city the crawl as written requests five more pages on every round it is given, while the corrected crawl finishes after one round |
| Listings.EndCheck | scrape_resale_props.py:170-173 | the end test as statements computes `EndTest` |
| Listings.RecoverRound | scrape_resale_props.py:148-173 | the recovery (fresh bootstrap, retry of the failed pages, end test) computes `Recover` |
| Listings.CityRound | scrape_resale_props.py:113-173 | one pass of the loop body computes `Round` |
| Listings.CrawlStep | scrape_resale_props.py:112-173 | one pass gives either the crawl's outcome or the state from which the rest of the crawl goes on |
| Listings.CrawlRounds | scrape_resale_props.py:112-173 | the `while True` loop computes `Rounds` for the round budget |
| Listings.StartCity | scrape_resale_props.py:83-107 | a city is crawled exactly when the URL names it, the two-attempt bootstrap gets a truthy triple, and the `city` parameter is non-empty |
| Listings.ProcessCity | scrape_resale_props.py:81-173 | a skipped city leaves the dict unchanged; otherwise only the city's entry changes, to the results of the crawl that starts at page 1 from the entry's previous list |
| Listings.ProcessCityKeeps | scrape_resale_props.py:107-166 | a crawl that does not raise keeps the city's previous listings at the head of its list |
| Records.IsResale | scrape_resale_props.py:264-265 | the test raises exactly for a non-dict, or for a truthy `SECONDARY_TAGS` that is not a list, string or dict; a listing it keeps has a truthy `SECONDARY_TAGS` |
| Records.FilterResale | scrape_resale_props.py:260-267 | the backward `del props[i]` loop computes `Kept`, raising where that does |
| Records.KeptStep | scrape_resale_props.py:263-266 | one step of the backward loop: the verdict on `props[i]` in front of what the tail keeps |
| Records.KeptSuffixFailure | scrape_resale_props.py:263-266 | an error in the tail is the filter's error |
| Records.KeptIsResale | scrape_resale_props.py:260-267 | every survivor has `"RESALE"` in a truthy `SECONDARY_TAGS`; survivors keep their relative order; every listing that has it survives |
| Records.SubDict | scrape_resale_props.py:292 | `prop.get(key, {})` is used only as a dict |
| Records.MediaUrls | scrape_resale_props.py:300-303 | two lists give their concatenation; the `media` comprehension gets its URLs exactly for two lists or two strings, and any other pair raises, at the `+` or at the iteration of the sum |
| Records.BhkFlags | scrape_resale_props.py:369-373 | `has_Nbhk` holds exactly when `BEDROOM_NUM` is the string `'N'`, so at most one of them holds |
| Records.MapProp | scrape_resale_props.py:287-392 | a missing `BEDROOM_NUM` raises; a record has `price.max_price = MIN_PRICE` and `price.min_price = MAX_PRICE`; `has_5bhk_plus` is false; at most one `has_Nbhk`, for the string `BEDROOM_NUM` |
| Records.MapPropSucceeds | scrape_resale_props.py:287-303 | a well-formed listing maps without raising, and its media are `PROPERTY_IMAGES` then `THUMBNAIL_IMAGES`, null counting as none |
| Records.MediaOfListing | scrape_resale_props.py:302 | two image lists, each present or absent, give the concatenated media |
| Records.Dicts | scrape_resale_props.py:284-286 | the dicts of a city's listings |
| Records.OneRecordPerDict | scrape_resale_props.py:283-393 | non-dicts are skipped and each dict yields exactly one record, in order |
| Records.MapRecords | scrape_resale_props.py:283-393 | the loop over a city's listings computes `MapListings` |
| Records.MapListingsFailure | scrape_resale_props.py:283-393 | a listing that raises makes the loop raise |
| Records.AllRecordsCount | scrape_resale_props.py:278-393 | `final_json_format` has one record per dict, over all cities |
| Records.FinalRecords | scrape_resale_props.py:278-393 | the loop over the cities computes `AllRecords`: the cities' records, city after city |
| Records.AllRecordsFailure | scrape_resale_props.py:278-393 | a city whose mapping raises makes the whole mapping raise |

## Left out

- The browser automation (`get_cookies.py`) is not part of this model. `Session.GetAuthenticationToken` takes what the browser returned, and a failed render stands for the caught exception.
- Networking, the rate limiter, `asyncio.sleep` and concurrency are out. Responses are parameters indexed by request number, and `asyncio.gather` results are taken in page order. The request headers, the query parameters and `encrypted_input`/cookies are not modelled; each request's outcome is whatever the parameter says.
- MD5, HMAC-SHA256, `json.dumps` and `json.loads` are parameters (`Tokens.Primitives`), not implementations.
- Tokens.GenerateAuthToken: the `None` returns for a failed hash (common.py:98-100, 112-114) and a failed HMAC (common.py:138-140) are not modelled, because the primitives are total functions.
- Tokens.Claims: `round(time.time(), 3)` is replaced by an integer number of milliseconds, and the floating-point seconds by exact rationals.
- Builders.EndPage: `math.ceil(total / 10)` is computed on exact rationals, not floats.
- HTML parsing and XPath are out. `Builders.HtmlPage.script` is the text of the first script holding the marker.
- The `city` query parameter (`parse_qs`) is an input of `Listings.StartCity`.
- Calls with the wrong number of arguments are modelled as intended rather than as the `TypeError` they raise: `get_initial_tokens(url)` (scrape_resale_props.py:95, 151; scrape_rental_props.py:93) and `get_authentication_token(ref_url)` (scrape_builders.py:173).
- Builders.BuilderProjects: the `NameError` for the undefined `page` at scrape_builders.py:216 is not modelled; the intended `return None` is (`TokenRefused`).
- Builders.ProcessCity: `asyncio.gather` over responses that were already awaited (scrape_builders.py:152-155) raises `TypeError` once one extra listing page is requested. The model reads the responses as intended.
- Records.MapProp: `bed_num` is unbound when the first dict has a truthy `BEDROOM_NUM`, which raises `UnboundLocalError` (scrape_resale_props.py:287-288, 374; scrape_rental_props.py:274-275, 361). The model binds it to 0, so `has_5bhk_plus` is false.
- The constant fields of `prop_obj` (`"country": "India"`, the `None`s, the fixed alias and so on) are not in `Records.Listing`.
- The builder record mapping in scrape_builders.py's `main` (lines 344-450) is out: it calls `.keys()` on a list and raises before mapping anything.
- The `main` functions are left out: the city and URL lists, the `[1:2]` and `[0:1]` slices, prints, and file writes. So is the outer `for tag` loop around the `RESALE` filter: `Records.FilterResale` filters one city's list.
- Listings.CrawlRounds and Builders.BuilderProjects: the unbounded `while` loops run for at most `fuel` rounds, and `RoundsSpent` / `OutOfRounds` report a budget that ran out. A crawl that would go on forever is one that runs out of every budget.
- When a crawl raises, the model returns the crash without the listings gathered so far. In the source they stay in the caller's dict, but the script stops.

## Findings

| source | as written | input that shows it | evidently intended | confidence | as-written member | corrected member |
|---|---|---|---|---|---|---|
| scrape_resale_props.py:170-173 | `reached_end` is set when all announced listings are collected or `page > 10`, but never read; `while True` is left only by the `break` after a failed re-bootstrap | a city whose pages all answer 200 with no properties and `count` 0, so no page fails: the crawl requests pages 1-5, 6-10, 11-15, … without end | leave the loop once `reached_end` is set | high, not executed | Listings.AsWrittenIgnoresEnd | Listings.FinishedMeansEnd |
| scrape_rental_props.py:166-169 | the same unread `reached_end`, with the bound `page > 5` | the same empty city | leave the loop once `reached_end` is set | high, not executed | Listings.AsWrittenIgnoresEnd | Listings.FinishedMeansEnd |

The corrected crawl is `Listings.Rounds` and `Listings.ProcessCity` with `heedEnd` set. `Listings.AsWrittenIgnoresEnd` proves, for either site on the empty city, that the crawl as written runs every round it is given, while the corrected crawl finishes after the first round.
