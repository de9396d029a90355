/**
 * scrape_builders.py: the builder directory of one city. The first
 * listing page and the extra listing pages embed their data as JSON in a
 * script; the builder cards found there are flattened into one list; then,
 * for each builder, the project-search API is paged until the builder's
 * declared project count is used up.
 *
 * What the network returns is given: `first` and `listing(pg)` are the
 * listing pages (the text of their first script containing the marker,
 * after HTML parsing), `tokens(k)` is what the `k`-th session bootstrap
 * returns, and `api(k)` the `k`-th project-search reply (`None` when the
 * request raised).
 */
module Builders {
  import opened Wrappers
  import opened Text
  import opened JsonModel
  import opened Braces
  import Http
  import Session
  import Tokens

  /* ---------- get_json_from_html ---------- */

  const Marker := "window.__initialData__="

  /** Where the JSON text starts: just past the first marker; at 22 (`-1 + 23`) when the marker is missing. */
  function JsonStart(script: string): nat {
    Find(script, Marker) + |Marker|
  }

  /** `script_content[json_start_index:].strip()` */
  function RawJson(script: string): string {
    Strip(Drop(script, JsonStart(script)))
  }

  /**
   * `get_json_from_html` given the text of the first script that contains
   * the marker (`None`: there is none, and `script_elements[0]` raises
   * `IndexError`). The JSON text is cut one past the last `}` that closes
   * the outermost brace; an unbalanced `}` raises `IndexError`; text that
   * does not parse gives the empty dict.
   */
  method GetJsonFromScript(loads: string -> Option<Json>, script: Option<string>) returns (r: Result<Json, Crash>)
    ensures r == ScriptJson(loads, script)
    ensures script.None? ==> r.Failure?
    ensures script.Some? ==> (r.Success? <==> Nested(RawJson(script.value)))
    ensures r.Success? ==>
      var raw := RawJson(script.value);
      var kept := Strip(raw[..LastClose(raw)]);
      r.value == (if loads(kept).Some? then loads(kept).value else JObj([]))
  {
    if script.None? {
      return Failure(Crash("IndexError: list index out of range"));
    }
    var raw := RawJson(script.value);
    var scan := ScanBraces(raw);
    if scan.Underflow? {
      return Failure(Crash("IndexError: pop from empty list"));
    }
    var kept := Strip(raw[..scan.end]);
    var data := JObj([]);
    var parsed := loads(kept);
    if parsed.Some? {
      data := parsed.value;
    }
    return Success(data);
  }

  /** What `get_json_from_html` gives for a page whose first marked script is `script`. */
  ghost function ScriptJson(loads: string -> Option<Json>, script: Option<string>): Result<Json, Crash> {
    match script
    case None => Failure(Crash("IndexError: list index out of range"))
    case Some(text) =>
      var raw := RawJson(text);
      if !Nested(raw) then Failure(Crash("IndexError: pop from empty list"))
      else
        var kept := Strip(raw[..LastClose(raw)]);
        Success(if loads(kept).Some? then loads(kept).value else JObj([]))
  }

  /* ---------- append_builder_data ---------- */

  /** The cards `append_builder_data` walks: `pageData["components"][0]["data"]["cards"]`, each step with its default. */
  function CardsOf(pageData: Json): Result<seq<Json>, Crash> {
    match DictGet(pageData, "components", JArr([]))
    case Failure(e) => Failure(e)
    case Success(components) =>
      if !Truthy(components) then Success([])
      else match First(components)
        case Failure(e) => Failure(e)
        case Success(first) =>
          match DictGet(first, "data", JObj([]))
          case Failure(e) => Failure(e)
          case Success(data) =>
            match DictGet(data, "cards", JArr([]))
            case Failure(e) => Failure(e)
            case Success(cards) =>
              match Iter(cards)
              case None => Failure(Crash("TypeError: object is not iterable"))
              case Some(cs) => Success(cs)
  }

  /** What one card contributes: its `data` without `subCards` if that is truthy, nothing otherwise. */
  function CardData(card: Json): (r: Result<Option<Json>, Crash>)
    ensures r.Success? && r.value.Some? ==>
      r.value.value.JObj? && Lookup(r.value.value.fields, "subCards").None?
  {
    match DictGet(card, "data", JObj([]))
    case Failure(e) => Failure(e)
    case Success(d) =>
      if !Truthy(d) then Success(None)
      else match d
        case JObj(fields) => Success(Some(JObj(RemoveKey(fields, "subCards"))))
        case JArr(_) => Failure(Crash("TypeError: pop expected at most 1 argument"))
        case _ => Failure(Crash("AttributeError: object has no attribute 'pop'"))
  }

  /** `builder_data` after one more card. */
  function AddCard(acc: seq<Json>, card: Json): Result<seq<Json>, Crash> {
    match CardData(card)
    case Failure(e) => Failure(e)
    case Success(None) => Success(acc)
    case Success(Some(d)) => Success(acc + [d])
  }

  /** Adding a card only looks at the card, not at what was gathered before. */
  lemma AddCardAfter(x: seq<Json>, y: seq<Json>, card: Json)
    ensures AddCard(x + y, card).Success? == AddCard(y, card).Success?
    ensures AddCard(y, card).Success? ==> AddCard(x + y, card) == Success(x + AddCard(y, card).value)
  {
    if CardData(card).Success? && CardData(card).value.Some? {
      assert x + y + [CardData(card).value.value] == x + (y + [CardData(card).value.value]);
    }
  }

  /** What the cards contribute, in order, or the crash of the first card that raises. */
  function Flattened(cards: seq<Json>): Result<seq<Json>, Crash>
    decreases |cards|
  {
    if cards == [] then Success([])
    else
      match Flattened(cards[..|cards| - 1])
      case Failure(e) => Failure(e)
      case Success(acc) => AddCard(acc, cards[|cards| - 1])
  }

  /** `append_builder_data(pageData, builder_data)`: returns the extended list, or the crash. */
  method AppendBuilderData(pageData: Json, builderData: seq<Json>) returns (r: Result<seq<Json>, Crash>)
    ensures r.Success? <==> CardsOf(pageData).Success? && Flattened(CardsOf(pageData).value).Success?
    ensures r.Success? ==> r.value == builderData + Flattened(CardsOf(pageData).value).value
  {
    var cards := CardsOf(pageData);
    if cards.Failure? {
      return Failure(cards.error);
    }
    var cs := cards.value;
    var acc := builderData;
    for i := 0 to |cs|
      invariant Flattened(cs[..i]).Success?
      invariant acc == builderData + Flattened(cs[..i]).value
    {
      assert cs[..i + 1][..i] == cs[..i];
      var cardData := CardData(cs[i]);
      AddCardAfter(builderData, Flattened(cs[..i]).value, cs[i]);
      if cardData.Failure? {
        FlattenedFailure(cs, i + 1);
        return Failure(cardData.error);
      }
      if cardData.value.Some? {
        acc := acc + [cardData.value.value];
      }
    }
    assert cs[..|cs|] == cs;
    return Success(acc);
  }

  /** A crash in a prefix of the cards is a crash of the whole walk. */
  lemma {:induction false} FlattenedFailure(cards: seq<Json>, n: nat)
    requires n <= |cards| && Flattened(cards[..n]).Failure?
    ensures Flattened(cards).Failure?
    decreases |cards| - n
  {
    if n < |cards| {
      assert cards[..n + 1][..n] == cards[..n];
      FlattenedFailure(cards, n + 1);
    } else {
      assert cards[..n] == cards;
    }
  }

  /**
   * Everything appended is a dict without `subCards` that some card carried
   * as its truthy `data`, and there is at most one item per card.
   */
  lemma {:induction false} FlattenedShape(cards: seq<Json>)
    requires Flattened(cards).Success?
    ensures |Flattened(cards).value| <= |cards|
    ensures forall d :: d in Flattened(cards).value ==>
      d.JObj? && Lookup(d.fields, "subCards").None? && exists c :: c in cards && CardData(c) == Success(Some(d))
    decreases |cards|
  {
    if cards != [] {
      var front := cards[..|cards| - 1];
      FlattenedShape(front);
      assert forall c :: c in front ==> c in cards;
    }
  }

  /** The walk keeps the cards' order: walking two runs of cards appends the first run's data, then the second's. */
  lemma {:induction false} FlattenedConcat(a: seq<Json>, b: seq<Json>)
    requires Flattened(a).Success? && Flattened(b).Success?
    ensures Flattened(a + b) == Success(Flattened(a).value + Flattened(b).value)
    decreases |b|
  {
    if b == [] {
      assert a + b == a;
      assert Flattened(a).value + [] == Flattened(a).value;
    } else {
      var front := b[..|b| - 1];
      assert (a + b)[..|a + b| - 1] == a + front;
      assert (a + b)[|a + b| - 1] == b[|b| - 1];
      assert Flattened(front).Success?;
      FlattenedConcat(a, front);
      AddCardAfter(Flattened(a).value, Flattened(front).value, b[|b| - 1]);
    }
  }

  /** With no (or empty) `components`, nothing is appended. */
  lemma NoComponentsNothingAppended(pageData: Json)
    requires pageData.JObj? && !Truthy(Lookup(pageData.fields, "components").GetOr(JArr([])))
    ensures CardsOf(pageData) == Success([]) && Flattened([]) == Success([])
  {
  }

  /* ---------- the listing-page range ---------- */

  /** `math.ceil(x)` */
  function Ceil(x: real): int {
    -((-x).Floor)
  }

  /** `math.ceil(basicDetails.get("resultCount", 0) / 10)` */
  function EndPage(basicDetails: Json): Result<int, Crash> {
    match DictGet(basicDetails, "resultCount", JNum(0.0))
    case Failure(e) => Failure(e)
    case Success(total) =>
      match NumberValue(total)
      case None => Failure(Crash("TypeError: unsupported operand type for /"))
      case Some(n) => Success(Ceil(n / 10.0))
  }

  /** The extra listing pages requested: `range(2, end_page)`, in order. */
  method ListingPages(endPage: int) returns (pages: seq<int>)
    ensures forall pg :: pg in pages <==> 2 <= pg < endPage
    ensures forall i, j :: 0 <= i < j < |pages| ==> pages[i] < pages[j]
  {
    pages := [];
    var pg := 2;
    while pg < endPage
      invariant 2 <= pg <= (if endPage < 2 then 2 else endPage)
      invariant forall q :: q in pages <==> 2 <= q < pg
      invariant |pages| == pg - 2
      invariant forall i :: 0 <= i < |pages| ==> pages[i] == i + 2
      decreases endPage - pg
    {
      pages := pages + [pg];
      pg := pg + 1;
    }
  }

  /** Page `pg` is requested exactly when `2 <= pg` and ten results per page before it do not cover the count. */
  lemma RequestedPages(resultCount: real, pg: int)
    ensures 2 <= pg < Ceil(resultCount / 10.0) <==> 2 <= pg && 10.0 * pg as real < resultCount
  {
    var x := resultCount / 10.0;
    assert (-x).Floor as real <= -x < (-x).Floor as real + 1.0;
    if pg < Ceil(x) {
      assert pg as real <= (-(-x).Floor - 1) as real;
    }
  }

  /* ---------- the per-builder project count-down ---------- */

  /** What one round of the `try` block makes of the reply (`None`: the request raised). */
  datatype Step =
    | Unchanged          // an exception other than `KeyError` was caught: nothing changes
    | Stop               // `KeyError`: `props_remaining = 0`
    | Page(items: seq<Json>)  // the page's `newProjects` then `secondaryNewProjects`

  function ReadProjects(reply: Option<Http.Body>): (s: Step)
    ensures s.Page? ==> reply.Some? && reply.value.Parsed? && reply.value.json.JObj?
    ensures s.Page? ==>
      var j := reply.value.json;
      var newProjects := Lookup(j.fields, "newProjects");
      var secondary := Lookup(j.fields, "secondaryNewProjects");
      && newProjects.Some? && secondary.Some?
      && Len(newProjects.value).Some? && Len(secondary.value).Some?
      && |s.items| == Len(newProjects.value).value + Len(secondary.value).value
    ensures s.Stop? <==>
      reply.Some? && reply.value.Parsed? && reply.value.json.JObj? &&
      var fields := reply.value.json.fields;
      (Lookup(fields, "newProjects").None? ||
       (Len(Lookup(fields, "newProjects").value).Some? && Lookup(fields, "secondaryNewProjects").None?))
  {
    match reply
    case None => Unchanged
    case Some(Malformed) => Unchanged
    case Some(Parsed(j)) =>
      match Subscript(j, "newProjects")
      case Failure(KeyMissing) => Stop
      case Failure(NotSubscriptable) => Unchanged
      case Success(first) =>
        match Iter(first)
        case None => Unchanged
        case Some(xs) =>
          match Subscript(j, "secondaryNewProjects")
          case Failure(KeyMissing) => Stop
          case Failure(NotSubscriptable) => Unchanged
          case Success(second) =>
            match Iter(second)
            case None => Unchanged
            case Some(ys) => Page(xs + ys)
  }

  /** The round ends the count-down whatever the count: a `KeyError`, or a page with no projects. */
  predicate IsStop(s: Step) {
    s.Stop? || (s.Page? && s.items == [])
  }

  /** What successive rounds make of successive replies. */
  function Steps(api: nat -> Option<Http.Body>): nat -> Step {
    (k: nat) => ReadProjects(api(k))
  }

  /** The projects gathered in rounds `lo .. hi - 1`, in order. */
  function Collected(steps: nat -> Step, lo: nat, hi: nat): seq<Json>
    requires lo <= hi
    decreases hi
  {
    if hi == lo then []
    else
      var s := steps(hi - 1);
      Collected(steps, lo, hi - 1) + (if s.Page? then s.items else [])
  }

  /** The number of rounds among `lo .. hi - 1` that read a page. */
  function PagesRead(steps: nat -> Step, lo: nat, hi: nat): nat
    requires lo <= hi
    decreases hi
  {
    if hi == lo then 0
    else PagesRead(steps, lo, hi - 1) + (if steps(hi - 1).Page? then 1 else 0)
  }

  /**
   * Where a count-down that ends normally stops: no earlier round read an
   * empty page or a `KeyError`, the projects before the last round fell
   * short of `declared`, and the last round stopped or reached it (no round
   * at all when `declared` is not positive).
   */
  ghost predicate CountedDown(declared: real, steps: nat -> Step, call0: nat, calls: nat) {
    && call0 <= calls
    && (forall k :: call0 <= k < calls - 1 ==> !IsStop(steps(k)))
    && (calls > call0 ==> (|Collected(steps, call0, calls - 1)| as real) < declared)
    && if calls == call0 then declared <= 0.0
       else IsStop(steps(calls - 1)) || |Collected(steps, call0, calls)| as real >= declared
  }

  /** Later rounds only add projects. */
  lemma {:induction false} CollectedGrows(steps: nat -> Step, lo: nat, mid: nat, hi: nat)
    requires lo <= mid <= hi
    ensures |Collected(steps, lo, mid)| <= |Collected(steps, lo, hi)|
    decreases hi
  {
    if mid < hi {
      CollectedGrows(steps, lo, mid, hi - 1);
    }
  }

  /** The stop rule fixes where a count-down ends: the replies decide it. */
  lemma CountedDownUnique(declared: real, steps: nat -> Step, call0: nat, c1: nat, c2: nat)
    requires CountedDown(declared, steps, call0, c1) && CountedDown(declared, steps, call0, c2)
    ensures c1 == c2
  {
    if c1 < c2 {
      CountedDownBefore(declared, steps, call0, c1, c2);
    } else if c2 < c1 {
      CountedDownBefore(declared, steps, call0, c2, c1);
    }
  }

  /** A count-down that stops at `c2` had not stopped at any earlier `c1`. */
  lemma CountedDownBefore(declared: real, steps: nat -> Step, call0: nat, c1: nat, c2: nat)
    requires CountedDown(declared, steps, call0, c2)
    requires call0 <= c1 < c2
    ensures !CountedDown(declared, steps, call0, c1)
  {
    CollectedGrows(steps, call0, c1, c2 - 1);
    if c1 > call0 {
      assert !IsStop(steps(c1 - 1));
    }
  }

  /**
   * A count-down that has not ended after `fuel` rounds: `declared` is
   * positive, no round read an empty page or a `KeyError`, and the projects
   * gathered still fall short of `declared`.
   */
  ghost predicate OutOfFuel(declared: real, steps: nat -> Step, call0: nat, fuel: nat) {
    && declared > 0.0
    && (forall k :: call0 <= k < call0 + fuel ==> !IsStop(steps(k)))
    && (|Collected(steps, call0, call0 + fuel)| as real) < declared
  }

  datatype ProjectsEnd =
    | Counted       // `props_remaining` is no longer positive
    | TokenRefused  // the token did not regenerate: `process_city` returns `None`
    | OutOfRounds   // the round budget ran out first

  /**
   * The `while props_remaining > 0` loop for one builder whose declared
   * project count is `declared`, its first request being number `call0`,
   * with at most `fuel` rounds; `steps(k)` is what round `k` makes of its
   * reply. Each round first regenerates the page token; `regenerates` says
   * whether that succeeds, which is the same in every round
   * (`Tokens.RegenerableAnyRequest`).
   */
  method BuilderProjects(regenerates: bool, declared: real,
                         steps: nat -> Step, call0: nat, fuel: nat)
    returns (end: ProjectsEnd, properties: seq<Json>, pg: nat, calls: nat)
    ensures call0 <= calls <= call0 + fuel
    ensures properties == Collected(steps, call0, calls)
    ensures pg == 1 + PagesRead(steps, call0, calls)
    ensures end == TokenRefused <==> declared > 0.0 && !regenerates
    ensures end == TokenRefused ==> calls == call0
    ensures end == OutOfRounds ==> calls == call0 + fuel && regenerates && OutOfFuel(declared, steps, call0, fuel)
    ensures forall k :: call0 <= k < calls - 1 ==> !IsStop(steps(k))
    ensures calls > call0 ==> (|Collected(steps, call0, calls - 1)| as real) < declared
    ensures end == Counted ==>
      if calls == call0 then declared <= 0.0
      else IsStop(steps(calls - 1)) || |properties| as real >= declared
    ensures end == Counted ==> CountedDown(declared, steps, call0, calls)
  {
    var remaining := declared;
    properties := [];
    pg := 1;
    calls := call0;
    ghost var stopped := false;
    while remaining > 0.0
      invariant call0 <= calls <= call0 + fuel
      invariant properties == Collected(steps, call0, calls)
      invariant pg == 1 + PagesRead(steps, call0, calls)
      invariant calls > call0 ==> regenerates
      invariant forall k :: call0 <= k < calls - 1 ==> !IsStop(steps(k))
      invariant calls > call0 ==> (|Collected(steps, call0, calls - 1)| as real) < declared
      invariant stopped <==> calls > call0 && IsStop(steps(calls - 1))
      invariant stopped ==> remaining == 0.0
      invariant !stopped ==> remaining == declared - |properties| as real
      decreases call0 + fuel - calls
    {
      if !regenerates {
        // `print(f"Failed to regenerate token for page {page}")` would raise
        // `NameError`; the intended `return None` is modelled
        return TokenRefused, properties, pg, calls;
      }
      if calls == call0 + fuel {
        return OutOfRounds, properties, pg, calls;
      }
      var step := steps(calls);
      ghost var before := properties;
      assert Collected(steps, call0, calls + 1) == properties + (if step.Page? then step.items else []);
      assert PagesRead(steps, call0, calls + 1) == PagesRead(steps, call0, calls) + (if step.Page? then 1 else 0);
      calls := calls + 1;
      stopped := IsStop(step);
      match step {
        case Unchanged =>
        case Stop =>
          remaining := 0.0;
        case Page(items) =>
          remaining := remaining - |items| as real;
          properties := properties + items;
          pg := pg + 1;
          if items == [] {
            remaining := 0.0;
          }
      }
    }
    end := Counted;
  }

  /* ---------- the walk over the builders ---------- */

  /** `result` is the dict `builder` after `data["scraped_properties"] = properties`, for a list `properties`. */
  predicate ScrapedFrom(result: Json, builder: Json) {
    && builder.JObj? && result.JObj?
    && Lookup(result.fields, "scraped_properties").Some?
    && Lookup(result.fields, "scraped_properties").value.JArr?
    && result.fields == SetKey(builder.fields, "scraped_properties", Lookup(result.fields, "scraped_properties").value)
  }

  /**
   * Storing the projects under `scraped_properties`: the record holds
   * exactly the builder's other members and the new list, and every other
   * key reads as it did in the builder.
   */
  lemma ScrapedRecord(data: Json, properties: seq<Json>)
    requires data.JObj?
    ensures var record := JObj(SetKey(data.fields, "scraped_properties", JArr(properties)));
      && ScrapedFrom(record, data)
      && Lookup(record.fields, "scraped_properties") == Some(JArr(properties))
      && (forall m :: m in record.fields <==> (m in data.fields && m.0 != "scraped_properties") || m == ("scraped_properties", JArr(properties)))
      && (forall key :: key != "scraped_properties" ==> Lookup(record.fields, key) == Lookup(data.fields, key))
  {
  }

  /** `data["projectCount"]["total"]["value"]`, as the `> 0` comparison reads it. */
  function DeclaredCount(data: Json): Result<real, Crash> {
    var count := Index(data, "projectCount");
    var count := if count.Success? then Index(count.value, "total") else count;
    var count := if count.Success? then Index(count.value, "value") else count;
    if count.Failure? then Failure(count.error)
    else match NumberValue(count.value)
      case None => Failure(Crash("TypeError: '>' not supported"))
      case Some(n) => Success(n)
  }

  datatype RunEnd =
    | Finished     // every builder was walked
    | Abandoned    // a token did not regenerate: `return None`
    | RoundsSpent  // a count-down ran out of rounds

  /** How the walk leaves one builder: with its record, skipped for want of tokens, or stopping the walk. */
  datatype BuilderEnd = Recorded(record: Json) | Skip | Halt(r: Result<RunEnd, Crash>)

  /** `data["builderId"]` and the `while retry < 3` loop, from bootstrap number `boot0`. */
  method BuilderTokens(data: Json, tokens: nat -> Session.AuthTriple, boot0: nat)
    returns (id: Result<Json, Crash>, triple: Option<Session.AuthTriple>, used: nat)
    ensures id == Index(data, "builderId")
    ensures id.Failure? ==> triple.None? && used == 0
    ensures id.Success? ==> (triple, used) == Session.Bootstrap(tokens, boot0, 3)
  {
    id, triple, used := Index(data, "builderId"), None, 0;
    if id.Success? {
      triple, used := Session.InitialTokens(tokens, boot0, 3);
    }
  }

  /**
   * The rest of one pass of the `for data in builder_data` loop, once the
   * builder has its triple: the count-down from request number `call0`, and
   * the record with its `scraped_properties`.
   */
  method BuilderRecord(p: Tokens.Primitives, data: Json, triple: Session.AuthTriple,
                       api: nat -> Option<Http.Body>, fuel: nat, call0: nat)
    returns (outcome: BuilderEnd, calls: nat)
    ensures !outcome.Skip?
    ensures outcome.Recorded? ==>
      && call0 <= calls
      && ScrapedFrom(outcome.record, data)
      && Lookup(outcome.record.fields, "scraped_properties") == Some(JArr(Collected(Steps(api), call0, calls)))
    ensures outcome.Recorded? ==>
      DeclaredCount(data).Success? && CountedDown(DeclaredCount(data).value, Steps(api), call0, calls)
    ensures outcome.Halt? ==> outcome.r != Success(Finished)
    ensures (outcome.Halt? && outcome.r.Failure?) <==> DeclaredCount(data).Failure?
    ensures outcome == Halt(Success(Abandoned)) <==>
      DeclaredCount(data).Success? && DeclaredCount(data).value > 0.0 && !Tokens.Regenerable(p, triple.apiToken)
    ensures outcome == Halt(Success(RoundsSpent)) ==>
      && calls == call0 + fuel && Tokens.Regenerable(p, triple.apiToken)
      && DeclaredCount(data).Success? && OutOfFuel(DeclaredCount(data).value, Steps(api), call0, fuel)
  {
    calls := call0;
    var declared := DeclaredCount(data);
    if declared.Failure? {
      return Halt(Failure(declared.error)), calls;
    }
    var regenerates := Tokens.Regenerable(p, triple.apiToken);
    var end, properties, _, next := BuilderProjects(regenerates, declared.value, Steps(api), call0, fuel);
    calls := next;
    if end == TokenRefused {
      return Halt(Success(Abandoned)), calls;
    }
    if end == OutOfRounds {
      return Halt(Success(RoundsSpent)), calls;
    }
    assert data.JObj?;  // `DeclaredCount` succeeded
    outcome := Recorded(JObj(SetKey(data.fields, "scraped_properties", JArr(properties))));
    ScrapedRecord(data, properties);
  }

  /** The sum of the bootstrap counts. */
  function Total(xs: seq<nat>): nat
    decreases |xs|
  {
    if xs == [] then 0 else Total(xs[..|xs| - 1]) + xs[|xs| - 1]
  }

  /** Builder `a` began its bootstraps where the earlier builders' left off, and used what `Bootstrap` says. */
  ghost predicate TriesFollow(tokens: nat -> Session.AuthTriple, tries: seq<nat>) {
    forall a :: 0 <= a < |tries| ==> tries[a] == Session.Bootstrap(tokens, Total(tries[..a]), 3).1
  }

  /** The triple builder `a` got from its bootstraps. */
  ghost function TripleOf(tokens: nat -> Session.AuthTriple, tries: seq<nat>, a: nat): Option<Session.AuthTriple>
    requires a <= |tries|
  {
    Session.Bootstrap(tokens, Total(tries[..a]), 3).0
  }

  /** The recorded builders come in order, each got a triple, and each record is its builder's. */
  ghost predicate KeptFollow(tokens: nat -> Session.AuthTriple, builders: seq<Json>, tries: seq<nat>,
                             kept: seq<nat>, results: seq<Json>) {
    && |kept| == |results|
    && (forall a, b :: 0 <= a < b < |kept| ==> kept[a] < kept[b])
    && forall a :: 0 <= a < |kept| ==>
      && kept[a] < |tries| && kept[a] < |builders|
      && TripleOf(tokens, tries, kept[a]).Some?
      && ScrapedFrom(results[a], builders[kept[a]])
  }

  /** Each record's `scraped_properties` is what its count-down collected from requests `spans[a] .. spans[a + 1] - 1`. */
  ghost predicate SpansFollow(api: nat -> Option<Http.Body>, results: seq<Json>, spans: seq<nat>) {
    && |spans| == |results| + 1 && spans[0] == 0
    && forall a :: 0 <= a < |results| ==>
      && spans[a] <= spans[a + 1]
      && results[a].JObj?
      && Lookup(results[a].fields, "scraped_properties") == Some(JArr(Collected(Steps(api), spans[a], spans[a + 1])))
  }

  /** The builders before `n` all have a `builderId`. */
  ghost predicate IdsFollow(builders: seq<Json>, n: nat)
    requires n <= |builders|
  {
    forall a :: 0 <= a < n ==> Index(builders[a], "builderId").Success?
  }

  /** Each recorded builder has a declared count, and its count-down stopped where the stop rule says. */
  ghost predicate CountsFollow(api: nat -> Option<Http.Body>, builders: seq<Json>, kept: seq<nat>, spans: seq<nat>) {
    && |spans| == |kept| + 1
    && forall a :: 0 <= a < |kept| ==>
      && kept[a] < |builders|
      && DeclaredCount(builders[kept[a]]).Success?
      && CountedDown(DeclaredCount(builders[kept[a]]).value, Steps(api), spans[a], spans[a + 1])
  }

  /** Recording builder `i` after the count-down of requests `spans[|kept|] .. next - 1`. */
  lemma CountStep(api: nat -> Option<Http.Body>, builders: seq<Json>, kept: seq<nat>, spans: seq<nat>, i: nat, next: nat)
    requires CountsFollow(api, builders, kept, spans) && i < |builders|
    requires DeclaredCount(builders[i]).Success?
    requires CountedDown(DeclaredCount(builders[i]).value, Steps(api), spans[|kept|], next)
    ensures CountsFollow(api, builders, kept + [i], spans + [next])
  {
    var kept', spans' := kept + [i], spans + [next];
    forall a | 0 <= a < |kept'|
      ensures kept'[a] < |builders| && DeclaredCount(builders[kept'[a]]).Success?
      ensures CountedDown(DeclaredCount(builders[kept'[a]]).value, Steps(api), spans'[a], spans'[a + 1])
    {
      if a == |kept| {
        assert kept'[a] == i && spans'[a] == spans[|kept|] && spans'[a + 1] == next;
      } else {
        assert kept'[a] == kept[a] && spans'[a] == spans[a] && spans'[a + 1] == spans[a + 1];
      }
    }
  }

  /** Builders before `n` that were not recorded got no triple. */
  ghost predicate SkippedFollow(tokens: nat -> Session.AuthTriple, tries: seq<nat>, kept: seq<nat>, n: nat)
    requires n <= |tries|
  {
    forall a :: 0 <= a < n && a !in kept ==> TripleOf(tokens, tries, a).None?
  }

  /** Appending a count keeps the earlier prefixes and adds to the sum. */
  lemma TriesStep(tries: seq<nat>, used: nat)
    ensures Total(tries + [used]) == Total(tries) + used
    ensures forall a :: 0 <= a <= |tries| ==> (tries + [used])[..a] == tries[..a]
  {
    assert (tries + [used])[..|tries|] == tries;
  }

  /** Appending a count leaves the triple every earlier builder got. */
  lemma TripleStep(tokens: nat -> Session.AuthTriple, tries: seq<nat>, used: nat, a: nat)
    requires a <= |tries|
    ensures TripleOf(tokens, tries + [used], a) == TripleOf(tokens, tries, a)
  {
    assert (tries + [used])[..a] == tries[..a];
  }

  /** One more builder's bootstraps keep every fact about the earlier builders. */
  lemma WalkStep(tokens: nat -> Session.AuthTriple, builders: seq<Json>, tries: seq<nat>,
                 kept: seq<nat>, results: seq<Json>, used: nat)
    requires TriesFollow(tokens, tries) && KeptFollow(tokens, builders, tries, kept, results)
    requires SkippedFollow(tokens, tries, kept, |tries|)
    requires used == Session.Bootstrap(tokens, Total(tries), 3).1
    ensures TriesFollow(tokens, tries + [used]) && KeptFollow(tokens, builders, tries + [used], kept, results)
    ensures SkippedFollow(tokens, tries + [used], kept, |tries|)
    ensures Total(tries + [used]) == Total(tries) + used
    ensures TripleOf(tokens, tries + [used], |tries|) == Session.Bootstrap(tokens, Total(tries), 3).0
  {
    TriesStep(tries, used);
    var tries' := tries + [used];
    forall a | 0 <= a < |tries'|
      ensures tries'[a] == Session.Bootstrap(tokens, Total(tries'[..a]), 3).1
    {
      if a < |tries| {
        assert tries'[a] == tries[a] && tries'[..a] == tries[..a];
      } else {
        assert tries'[..a] == tries;
      }
    }
    forall a | 0 <= a < |kept|
      ensures TripleOf(tokens, tries', kept[a]).Some?
    {
      TripleStep(tokens, tries, used, kept[a]);
    }
    forall a | 0 <= a < |tries| && a !in kept
      ensures TripleOf(tokens, tries', a).None?
    {
      TripleStep(tokens, tries, used, a);
    }
    assert tries'[..|tries|] == tries;
  }

  /** Recording builder `i` keeps the recorded builders in order and their spans contiguous. */
  lemma RecordStep(tokens: nat -> Session.AuthTriple, api: nat -> Option<Http.Body>, builders: seq<Json>,
                   tries: seq<nat>, kept: seq<nat>, results: seq<Json>, spans: seq<nat>,
                   i: nat, record: Json, next: nat)
    requires KeptFollow(tokens, builders, tries, kept, results) && SpansFollow(api, results, spans)
    requires i < |tries| && i < |builders| && forall a :: 0 <= a < |kept| ==> kept[a] < i
    requires TripleOf(tokens, tries, i).Some? && ScrapedFrom(record, builders[i])
    requires spans[|results|] <= next
    requires Lookup(record.fields, "scraped_properties") == Some(JArr(Collected(Steps(api), spans[|results|], next)))
    ensures KeptFollow(tokens, builders, tries, kept + [i], results + [record])
    ensures SpansFollow(api, results + [record], spans + [next])
  {
    KeptRecordStep(tokens, builders, tries, kept, results, i, record);
    SpanRecordStep(api, results, spans, record, next);
  }

  /** The kept half of `RecordStep`. */
  lemma KeptRecordStep(tokens: nat -> Session.AuthTriple, builders: seq<Json>, tries: seq<nat>,
                       kept: seq<nat>, results: seq<Json>, i: nat, record: Json)
    requires KeptFollow(tokens, builders, tries, kept, results)
    requires i < |tries| && i < |builders| && forall a :: 0 <= a < |kept| ==> kept[a] < i
    requires TripleOf(tokens, tries, i).Some? && ScrapedFrom(record, builders[i])
    ensures KeptFollow(tokens, builders, tries, kept + [i], results + [record])
  {
    var kept', results' := kept + [i], results + [record];
    forall a | 0 <= a < |kept'|
      ensures kept'[a] < |tries| && kept'[a] < |builders|
      ensures TripleOf(tokens, tries, kept'[a]).Some? && ScrapedFrom(results'[a], builders[kept'[a]])
    {
      if a == |kept| {
        assert kept'[a] == i && results'[a] == record;
      } else {
        assert kept'[a] == kept[a] && results'[a] == results[a];
      }
    }
  }

  /** The span half of `RecordStep`. */
  lemma SpanRecordStep(api: nat -> Option<Http.Body>, results: seq<Json>, spans: seq<nat>, record: Json, next: nat)
    requires SpansFollow(api, results, spans) && spans[|results|] <= next && record.JObj?
    requires Lookup(record.fields, "scraped_properties") == Some(JArr(Collected(Steps(api), spans[|results|], next)))
    ensures SpansFollow(api, results + [record], spans + [next])
  {
    var results', spans' := results + [record], spans + [next];
    forall a | 0 <= a < |results'|
      ensures spans'[a] <= spans'[a + 1] && results'[a].JObj?
      ensures Lookup(results'[a].fields, "scraped_properties") == Some(JArr(Collected(Steps(api), spans'[a], spans'[a + 1])))
    {
      if a == |results| {
        assert spans'[a] == spans[|results|] && spans'[a + 1] == next && results'[a] == record;
      } else {
        assert spans'[a] == spans[a] && spans'[a + 1] == spans[a + 1] && results'[a] == results[a];
      }
    }
  }

  /** A builder that got no triple extends the skipped ones. */
  lemma SkipStep(tokens: nat -> Session.AuthTriple, tries: seq<nat>, kept: seq<nat>, i: nat)
    requires i < |tries| && SkippedFollow(tokens, tries, kept, i) && TripleOf(tokens, tries, i).None?
    ensures SkippedFollow(tokens, tries, kept, i + 1)
  {
  }

  /** A recorded builder leaves the skipped ones as they were. */
  lemma KeepStep(tokens: nat -> Session.AuthTriple, tries: seq<nat>, kept: seq<nat>, i: nat)
    requires i < |tries| && SkippedFollow(tokens, tries, kept, i)
    ensures SkippedFollow(tokens, tries, kept + [i], i + 1)
  {
    forall a | 0 <= a < i + 1 && a !in kept + [i]
      ensures TripleOf(tokens, tries, a).None?
    {
      assert a !in kept;
    }
  }

  /** What holds after the first `i` builders: the loop invariant of the walk. */
  ghost predicate Walked(tokens: nat -> Session.AuthTriple, api: nat -> Option<Http.Body>, builders: seq<Json>,
                         i: nat, results: seq<Json>, bootstraps: nat,
                         kept: seq<nat>, tries: seq<nat>, spans: seq<nat>, calls: nat) {
    && i <= |builders| && |results| <= |tries| == i && bootstraps == Total(tries)
    && TriesFollow(tokens, tries) && (forall a :: 0 <= a < i ==> tries[a] <= 3)
    && KeptFollow(tokens, builders, tries, kept, results) && (forall a :: 0 <= a < |kept| ==> kept[a] < i)
    && SpansFollow(api, results, spans) && spans[|results|] == calls
    && SkippedFollow(tokens, tries, kept, i)
    && IdsFollow(builders, i) && CountsFollow(api, builders, kept, spans)
  }

  /** The last builder walked got a triple but was not recorded: the walk stopped at it. */
  ghost predicate HaltedAtLast(tokens: nat -> Session.AuthTriple, tries: seq<nat>, kept: seq<nat>) {
    0 < |tries| && |tries| - 1 !in kept && TripleOf(tokens, tries, |tries| - 1).Some?
  }

  /**
   * What the walk promises when it ends with `r`, the postcondition of
   * `ScrapeBuilders`: the walk saw builders `0 .. |tries| - 1`, each with
   * its `builderId` and the bootstraps `Bootstrap` gives from the running
   * total; each got a record (in `kept`) or no triple, except a last one
   * it stopped at (`HaltedAtLast`). Then, by how it ended:
   * - `Finished`: every builder was seen, and none stopped the walk;
   * - `Abandoned`: the last one's count is positive and its token does not regenerate;
   * - `RoundsSpent`: its token regenerates and its count-down is still short after `fuel` rounds;
   * - a crash: the next builder has no `builderId`, or the last one has no numeric count.
   */
  ghost predicate WalkDone(p: Tokens.Primitives, tokens: nat -> Session.AuthTriple, api: nat -> Option<Http.Body>,
                           fuel: nat, builders: seq<Json>, r: Result<RunEnd, Crash>, results: seq<Json>,
                           bootstraps: nat, kept: seq<nat>, tries: seq<nat>, spans: seq<nat>) {
    && |results| <= |tries| <= |builders| && bootstraps == Total(tries)
    && TriesFollow(tokens, tries) && (forall a :: 0 <= a < |tries| ==> tries[a] <= 3)
    && IdsFollow(builders, |tries|)
    && KeptFollow(tokens, builders, tries, kept, results)
    && SpansFollow(api, results, spans) && CountsFollow(api, builders, kept, spans)
    && SkippedFollow(tokens, tries, kept, if HaltedAtLast(tokens, tries, kept) then |tries| - 1 else |tries|)
    && (r == Success(Finished) ==> |tries| == |builders| && !HaltedAtLast(tokens, tries, kept))
    && (HaltedAtLast(tokens, tries, kept) ==> r != Success(Finished))
    && (r == Success(Abandoned) ==>
      && HaltedAtLast(tokens, tries, kept)
      && DeclaredCount(builders[|tries| - 1]).Success? && DeclaredCount(builders[|tries| - 1]).value > 0.0
      && !Tokens.Regenerable(p, TripleOf(tokens, tries, |tries| - 1).value.apiToken))
    && (r == Success(RoundsSpent) ==>
      && HaltedAtLast(tokens, tries, kept)
      && Tokens.Regenerable(p, TripleOf(tokens, tries, |tries| - 1).value.apiToken)
      && DeclaredCount(builders[|tries| - 1]).Success?
      && OutOfFuel(DeclaredCount(builders[|tries| - 1]).value, Steps(api), spans[|results|], fuel))
    && (r.Failure? ==>
      || (!HaltedAtLast(tokens, tries, kept) && |tries| < |builders| && Index(builders[|tries|], "builderId").Failure?)
      || (HaltedAtLast(tokens, tries, kept) && DeclaredCount(builders[|tries| - 1]).Failure?))
  }

  /** The state once builder `i` has had its bootstraps, before its count-down. */
  ghost predicate Bootstrapped(tokens: nat -> Session.AuthTriple, api: nat -> Option<Http.Body>, builders: seq<Json>,
                               i: nat, results: seq<Json>, bootstraps: nat,
                               kept: seq<nat>, tries: seq<nat>, spans: seq<nat>, calls: nat) {
    && i < |builders| && |results| <= i && |tries| == i + 1 && bootstraps == Total(tries)
    && TriesFollow(tokens, tries) && (forall a :: 0 <= a < i + 1 ==> tries[a] <= 3)
    && KeptFollow(tokens, builders, tries, kept, results) && (forall a :: 0 <= a < |kept| ==> kept[a] < i)
    && SpansFollow(api, results, spans) && spans[|results|] == calls
    && SkippedFollow(tokens, tries, kept, i)
    && IdsFollow(builders, i + 1) && CountsFollow(api, builders, kept, spans)
  }

  /** The bootstraps of builder `i` lead from `Walked` to `Bootstrapped`. */
  lemma BootstrapStep(tokens: nat -> Session.AuthTriple, api: nat -> Option<Http.Body>, builders: seq<Json>,
                      i: nat, results: seq<Json>, bootstraps: nat,
                      kept: seq<nat>, tries: seq<nat>, spans: seq<nat>, calls: nat, used: nat)
    requires i < |builders| && Walked(tokens, api, builders, i, results, bootstraps, kept, tries, spans, calls)
    requires used == Session.Bootstrap(tokens, bootstraps, 3).1
    requires Index(builders[i], "builderId").Success?
    ensures Bootstrapped(tokens, api, builders, i, results, bootstraps + used, kept, tries + [used], spans, calls)
    ensures TripleOf(tokens, tries + [used], i) == Session.Bootstrap(tokens, bootstraps, 3).0
  {
    WalkStep(tokens, builders, tries, kept, results, used);
    AtMostThree(tries, used);
    assert IdsFollow(builders, i + 1);
  }

  /** Appending a builder's bootstrap count, at most three, keeps every count at most three. */
  lemma AtMostThree(tries: seq<nat>, used: nat)
    requires (forall a :: 0 <= a < |tries| ==> tries[a] <= 3) && used <= 3
    ensures forall a :: 0 <= a < |tries| + 1 ==> (tries + [used])[a] <= 3
  {
  }

  /** A `builderId` failure stops the walk with everything so far. */
  lemma HaltBefore(p: Tokens.Primitives, tokens: nat -> Session.AuthTriple, api: nat -> Option<Http.Body>, fuel: nat,
                   builders: seq<Json>, i: nat, r: Result<RunEnd, Crash>, results: seq<Json>, bootstraps: nat,
                   kept: seq<nat>, tries: seq<nat>, spans: seq<nat>, calls: nat)
    requires i < |builders| && Walked(tokens, api, builders, i, results, bootstraps, kept, tries, spans, calls)
    requires r.Failure? && Index(builders[i], "builderId").Failure?
    ensures WalkDone(p, tokens, api, fuel, builders, r, results, bootstraps, kept, tries, spans)
  {
  }

  /** Builder `i` stopping the walk after its bootstraps. */
  lemma HaltAfter(p: Tokens.Primitives, tokens: nat -> Session.AuthTriple, api: nat -> Option<Http.Body>, fuel: nat,
                  builders: seq<Json>, i: nat, r: Result<RunEnd, Crash>, results: seq<Json>, bootstraps: nat,
                  kept: seq<nat>, tries: seq<nat>, spans: seq<nat>, calls: nat)
    requires Bootstrapped(tokens, api, builders, i, results, bootstraps, kept, tries, spans, calls)
    requires r != Success(Finished) && TripleOf(tokens, tries, i).Some?
    requires r == Success(Abandoned) ==>
      && DeclaredCount(builders[i]).Success? && DeclaredCount(builders[i]).value > 0.0
      && !Tokens.Regenerable(p, TripleOf(tokens, tries, i).value.apiToken)
    requires r == Success(RoundsSpent) ==>
      && Tokens.Regenerable(p, TripleOf(tokens, tries, i).value.apiToken)
      && DeclaredCount(builders[i]).Success? && OutOfFuel(DeclaredCount(builders[i]).value, Steps(api), calls, fuel)
    requires r.Failure? ==> DeclaredCount(builders[i]).Failure?
    ensures WalkDone(p, tokens, api, fuel, builders, r, results, bootstraps, kept, tries, spans)
  {
  }

  /** Builder `i` skipped for want of a triple. */
  lemma SkipAfter(tokens: nat -> Session.AuthTriple, api: nat -> Option<Http.Body>, builders: seq<Json>,
                  i: nat, results: seq<Json>, bootstraps: nat,
                  kept: seq<nat>, tries: seq<nat>, spans: seq<nat>, calls: nat)
    requires Bootstrapped(tokens, api, builders, i, results, bootstraps, kept, tries, spans, calls)
    requires TripleOf(tokens, tries, i).None?
    ensures Walked(tokens, api, builders, i + 1, results, bootstraps, kept, tries, spans, calls)
  {
    SkipStep(tokens, tries, kept, i);
  }

  /** Builder `i` recorded with the projects of requests `calls .. next - 1`. */
  lemma RecordAfter(tokens: nat -> Session.AuthTriple, api: nat -> Option<Http.Body>, builders: seq<Json>,
                    i: nat, results: seq<Json>, bootstraps: nat,
                    kept: seq<nat>, tries: seq<nat>, spans: seq<nat>, calls: nat, record: Json, next: nat)
    requires Bootstrapped(tokens, api, builders, i, results, bootstraps, kept, tries, spans, calls)
    requires TripleOf(tokens, tries, i).Some? && ScrapedFrom(record, builders[i]) && calls <= next
    requires Lookup(record.fields, "scraped_properties") == Some(JArr(Collected(Steps(api), calls, next)))
    requires DeclaredCount(builders[i]).Success? && CountedDown(DeclaredCount(builders[i]).value, Steps(api), calls, next)
    ensures Walked(tokens, api, builders, i + 1, results + [record], bootstraps, kept + [i], tries, spans + [next], next)
  {
    KeepStep(tokens, tries, kept, i);
    RecordStep(tokens, api, builders, tries, kept, results, spans, i, record, next);
    CountStep(api, builders, kept, spans, i, next);
    assert (spans + [next])[|results| + 1] == next;
    forall a | 0 <= a < |kept| + 1
      ensures (kept + [i])[a] < i + 1
    {
    }
  }

  /**
   * What follows the bootstraps of builder `i`: a skip when it got no
   * triple, else the count-down and the record; `halt` is set when the walk
   * stops there.
   */
  method FinishBuilder(p: Tokens.Primitives, builders: seq<Json>, tokens: nat -> Session.AuthTriple,
                       api: nat -> Option<Http.Body>, fuel: nat, i: nat,
                       results0: seq<Json>, bootstraps: nat, ghost kept0: seq<nat>, ghost tries: seq<nat>,
                       ghost spans0: seq<nat>, calls0: nat, triple: Option<Session.AuthTriple>)
    returns (halt: Option<Result<RunEnd, Crash>>, results: seq<Json>,
             ghost kept: seq<nat>, ghost spans: seq<nat>, calls: nat)
    requires Bootstrapped(tokens, api, builders, i, results0, bootstraps, kept0, tries, spans0, calls0)
    requires TripleOf(tokens, tries, i) == triple
    ensures halt.None? ==> Walked(tokens, api, builders, i + 1, results, bootstraps, kept, tries, spans, calls)
    ensures halt.Some? ==> halt.value != Success(Finished)
    ensures halt.Some? ==> WalkDone(p, tokens, api, fuel, builders, halt.value, results, bootstraps, kept, tries, spans)
  {
    results, kept, spans, calls := results0, kept0, spans0, calls0;
    if triple.None? {
      SkipAfter(tokens, api, builders, i, results, bootstraps, kept, tries, spans, calls);
      return None, results, kept, spans, calls;
    }
    var outcome, next := BuilderRecord(p, builders[i], triple.value, api, fuel, calls);
    if outcome.Halt? {
      HaltAfter(p, tokens, api, fuel, builders, i, outcome.r, results, bootstraps, kept, tries, spans, calls);
      return Some(outcome.r), results, kept, spans, calls;
    }
    RecordAfter(tokens, api, builders, i, results, bootstraps, kept, tries, spans, calls, outcome.record, next);
    halt := None;
    results, kept, spans, calls := results + [outcome.record], kept + [i], spans + [next], next;
  }

  /** One pass of the `for data in builder_data` loop, on builder `i`; `halt` is set when the walk stops there. */
  method WalkBuilder(p: Tokens.Primitives, builders: seq<Json>, tokens: nat -> Session.AuthTriple,
                     api: nat -> Option<Http.Body>, fuel: nat, i: nat,
                     results0: seq<Json>, bootstraps0: nat, ghost kept0: seq<nat>, ghost tries0: seq<nat>,
                     ghost spans0: seq<nat>, calls0: nat)
    returns (halt: Option<Result<RunEnd, Crash>>, results: seq<Json>, bootstraps: nat,
             ghost kept: seq<nat>, ghost tries: seq<nat>, ghost spans: seq<nat>, calls: nat)
    requires i < |builders| && Walked(tokens, api, builders, i, results0, bootstraps0, kept0, tries0, spans0, calls0)
    ensures halt.None? ==> Walked(tokens, api, builders, i + 1, results, bootstraps, kept, tries, spans, calls)
    ensures halt.Some? ==> halt.value != Success(Finished)
    ensures halt.Some? ==> WalkDone(p, tokens, api, fuel, builders, halt.value, results, bootstraps, kept, tries, spans)
  {
    results, bootstraps, kept, tries, spans, calls := results0, bootstraps0, kept0, tries0, spans0, calls0;
    var id, triple, used := BuilderTokens(builders[i], tokens, bootstraps);
    if id.Failure? {
      HaltBefore(p, tokens, api, fuel, builders, i, Failure(id.error), results, bootstraps, kept, tries, spans, calls);
      return Some(Failure(id.error)), results, bootstraps, kept, tries, spans, calls;
    }
    BootstrapStep(tokens, api, builders, i, results, bootstraps, kept, tries, spans, calls, used);
    tries := tries + [used];
    bootstraps := bootstraps + used;
    halt, results, kept, spans, calls :=
      FinishBuilder(p, builders, tokens, api, fuel, i, results, bootstraps, kept, tries, spans, calls, triple);
  }

  /**
   * The `for data in builder_data` loop. `tokens(k)` is what bootstrap `k`
   * returns and `api(k)` the reply to project-search request `k`; `fuel`
   * bounds each count-down. The ghost `tries[a]` is the number of
   * bootstraps builder `a` used, `kept` the builders recorded, and builder
   * `kept[a]`'s count-down made requests `spans[a] .. spans[a + 1] - 1`.
   */
  method ScrapeBuilders(p: Tokens.Primitives, builders: seq<Json>, tokens: nat -> Session.AuthTriple,
                        api: nat -> Option<Http.Body>, fuel: nat)
    returns (r: Result<RunEnd, Crash>, results: seq<Json>, bootstraps: nat,
             ghost kept: seq<nat>, ghost tries: seq<nat>, ghost spans: seq<nat>)
    ensures WalkDone(p, tokens, api, fuel, builders, r, results, bootstraps, kept, tries, spans)
    ensures forall x :: x in results ==> exists b :: b in builders && ScrapedFrom(x, b)
  {
    results, bootstraps, kept, tries, spans := [], 0, [], [], [0];
    var calls := 0;
    for i: nat := 0 to |builders|
      invariant Walked(tokens, api, builders, i, results, bootstraps, kept, tries, spans, calls)
    {
      var halt;
      halt, results, bootstraps, kept, tries, spans, calls :=
        WalkBuilder(p, builders, tokens, api, fuel, i, results, bootstraps, kept, tries, spans, calls);
      if halt.Some? {
        RecordsOfBuilders(tokens, builders, tries, kept, results);
        return halt.value, results, bootstraps, kept, tries, spans;
      }
    }
    r := Success(Finished);
    RecordsOfBuilders(tokens, builders, tries, kept, results);
  }

  /* ---------- process_city ---------- */

  /** A listing page as the scraper sees it: its status, and the text of its first script holding the marker. */
  datatype HtmlPage = HtmlPage(status: int, script: Option<string>)

  /** `first_pg_data.get("builderSrp", {}).get("pageData", {})` */
  function PageDataOf(doc: Json): Result<Json, Crash> {
    match DictGet(doc, "builderSrp", JObj([]))
    case Failure(e) => Failure(e)
    case Success(srp) => DictGet(srp, "pageData", JObj([]))
  }

  /** The `pageData` of a listing page: its page JSON, then `PageDataOf`. */
  ghost function PageDataFrom(loads: string -> Option<Json>, page: HtmlPage): Result<Json, Crash> {
    match ScriptJson(loads, page.script)
    case Failure(e) => Failure(e)
    case Success(doc) => PageDataOf(doc)
  }

  /** `PageDataFrom` as a function of the page alone. */
  ghost function PageReader(loads: string -> Option<Json>): HtmlPage -> Result<Json, Crash> {
    page => PageDataFrom(loads, page)
  }

  /** `PageReader` applies `PageDataFrom`. */
  lemma ReaderApplies(loads: string -> Option<Json>, page: HtmlPage)
    ensures PageReader(loads)(page) == PageDataFrom(loads, page)
  {
  }

  /** Whether a listing page is read without raising: `read` finds its `pageData`, and its cards walk. */
  ghost predicate PageReads(read: HtmlPage -> Result<Json, Crash>, page: HtmlPage) {
    read(page).Success? && PageBuilders(read(page).value).Success?
  }

  /** The builders `append_builder_data` adds for one page's `pageData`. */
  function PageBuilders(pageData: Json): Result<seq<Json>, Crash> {
    match CardsOf(pageData)
    case Failure(e) => Failure(e)
    case Success(cards) => Flattened(cards)
  }

  /** The builders gathered from the `pageData` of successive pages, in order. */
  function Gathered(datas: seq<Json>): Result<seq<Json>, Crash>
    decreases |datas|
  {
    if datas == [] then Success([])
    else
      match Gathered(datas[..|datas| - 1])
      case Failure(e) => Failure(e)
      case Success(acc) =>
        match PageBuilders(datas[|datas| - 1])
        case Failure(e) => Failure(e)
        case Success(bs) => Success(acc + bs)
  }

  /** The page JSON of one listing page, and its `pageData`. */
  method ReadPageData(loads: string -> Option<Json>, page: HtmlPage) returns (r: Result<Json, Crash>)
    ensures r == PageDataFrom(loads, page)
  {
    var doc := GetJsonFromScript(loads, page.script);
    if doc.Failure? {
      return Failure(doc.error);
    }
    r := PageDataOf(doc.value);
  }

  /** The page JSON and card walk of one listing page, appended to `builders`. */
  method ReadListingPage(loads: string -> Option<Json>, page: HtmlPage, builders: seq<Json>)
    returns (r: Result<seq<Json>, Crash>, pageData: Json)
    ensures r.Success? <==> PageReads(PageReader(loads), page)
    ensures r.Success? ==> PageReader(loads)(page) == Success(pageData)
    ensures r.Success? ==> pageData.JObj? && PageBuilders(pageData).Success?
    ensures r.Success? ==> r.value == builders + PageBuilders(pageData).value
    ensures r.Success? ==> forall b :: b in r.value[|builders|..] ==> b.JObj? && Lookup(b.fields, "subCards").None?
  {
    pageData := JObj([]);
    var data := ReadPageData(loads, page);
    ReaderApplies(loads, page);
    if data.Failure? {
      return Failure(data.error), pageData;
    }
    pageData := data.value;
    r := AppendBuilderData(pageData, builders);
    if r.Success? {
      FlattenedShape(CardsOf(pageData).value);
      assert r.value[|builders|..] == Flattened(CardsOf(pageData).value).value;
    }
  }

  /** Reading one more page extends what was gathered. */
  lemma GatheredStep(datas: seq<Json>, d: Json)
    requires Gathered(datas).Success? && PageBuilders(d).Success?
    ensures Gathered(datas + [d]) == Success(Gathered(datas).value + PageBuilders(d).value)
  {
    assert (datas + [d])[..|datas|] == datas;
  }

  /** `datas` continues `datas0` with what `read` gives for the extra pages, one per page, in order. */
  ghost predicate DatasFollow(read: HtmlPage -> Result<Json, Crash>, replies: seq<HtmlPage>,
                              datas0: seq<Json>, datas: seq<Json>) {
    && |datas0| <= |datas| <= |datas0| + |replies| && datas[..|datas0|] == datas0
    && forall k :: |datas0| <= k < |datas| ==> read(replies[k - |datas0|]) == Success(datas[k])
  }

  /** One more page's `pageData` extends `DatasFollow`. */
  lemma DatasStep(read: HtmlPage -> Result<Json, Crash>, replies: seq<HtmlPage>, datas0: seq<Json>,
                  datas: seq<Json>, data: Json)
    requires DatasFollow(read, replies, datas0, datas) && |datas| < |datas0| + |replies|
    requires read(replies[|datas| - |datas0|]) == Success(data)
    ensures DatasFollow(read, replies, datas0, datas + [data])
  {
    var datas' := datas + [data];
    assert datas'[..|datas0|] == datas0;
    forall k | |datas0| <= k < |datas'|
      ensures read(replies[k - |datas0|]) == Success(datas'[k])
    {
      if k < |datas| {
        assert datas'[k] == datas[k];
      }
    }
  }

  /** Every builder gathered is a dict without `subCards`. */
  ghost predicate CardShaped(builders: seq<Json>) {
    forall b :: b in builders ==> b.JObj? && Lookup(b.fields, "subCards").None?
  }

  /**
   * The `append_builder_data` calls for the extra pages, in order. The
   * ghost `datas` gains the `pageData` of each page read; the first page
   * that does not read stops the loop.
   */
  method ReadExtraPages(loads: string -> Option<Json>, replies: seq<HtmlPage>, builders0: seq<Json>,
                        ghost datas0: seq<Json>)
    returns (r: Result<(), Crash>, builders: seq<Json>, ghost datas: seq<Json>)
    requires Gathered(datas0) == Success(builders0) && CardShaped(builders0)
    ensures DatasFollow(PageReader(loads), replies, datas0, datas)
    ensures r.Success? <==> |datas| == |datas0| + |replies|
    ensures r.Failure? ==> !PageReads(PageReader(loads), replies[|datas| - |datas0|])
    ensures Gathered(datas) == Success(builders) && CardShaped(builders)
  {
    builders, datas := builders0, datas0;
    assert datas0[..|datas0|] == datas0;
    for i := 0 to |replies|
      invariant |datas| == |datas0| + i && DatasFollow(PageReader(loads), replies, datas0, datas)
      invariant Gathered(datas) == Success(builders) && CardShaped(builders)
    {
      var read, data := ReadListingPage(loads, replies[i], builders);
      if read.Failure? {
        return Failure(read.error), builders, datas;
      }
      assert PageReader(loads)(replies[|datas| - |datas0|]) == Success(data);
      DatasStep(PageReader(loads), replies, datas0, datas, data);
      GatheredStep(datas, data);
      assert read.value == builders + read.value[|builders|..];
      builders := read.value;
      datas := datas + [data];
    }
    r := Success(());
  }

  /** Every page gathered without raising had a card walk that did not raise. */
  lemma {:induction false} GatheredEach(datas: seq<Json>, j: nat)
    requires Gathered(datas).Success? && j < |datas|
    ensures PageBuilders(datas[j]).Success?
    decreases |datas|
  {
    if j < |datas| - 1 {
      GatheredEach(datas[..|datas| - 1], j);
    }
  }

  /** `end_page`: the ceiling of the first page's `resultCount` over 10, read from the `pageData` `read` finds. */
  ghost function EndPageOf(read: HtmlPage -> Result<Json, Crash>, page: HtmlPage): Result<int, Crash> {
    match read(page)
    case Failure(e) => Failure(e)
    case Success(pageData) =>
      match DictGet(pageData, "basicDetails", JObj([]))
      case Failure(e) => Failure(e)
      case Success(basicDetails) => EndPage(basicDetails)
  }

  /** Listing page `pg` is fetched and read without raising. */
  ghost predicate ListingReads(read: HtmlPage -> Result<Json, Crash>, listing: int -> Option<HtmlPage>, pg: int) {
    listing(pg).Some? && PageReads(read, listing(pg).value)
  }

  /**
   * Whether `process_city` gets through every listing page without raising,
   * `read` giving each page's `pageData`: the first page is fetched with a
   * status `raise_for_status` accepts and is read, its `end_page` is
   * computed, and every page `2 .. end_page - 1` is fetched and read.
   */
  ghost predicate CityReads(read: HtmlPage -> Result<Json, Crash>, first: Option<HtmlPage>,
                            listing: int -> Option<HtmlPage>) {
    && first.Some? && !(400 <= first.value.status < 600)
    && PageReads(read, first.value)
    && EndPageOf(read, first.value).Success?
    && forall pg :: 2 <= pg < EndPageOf(read, first.value).value ==> ListingReads(read, listing, pg)
  }

  /** The extra pages fetched and read in full: every page of the range reads. */
  lemma ExtraPagesRead(read: HtmlPage -> Result<Json, Crash>, listing: int -> Option<HtmlPage>, endPage: int,
                       pages: seq<int>, replies: seq<HtmlPage>, datas: seq<Json>)
    requires forall pg :: pg in pages <==> 2 <= pg < endPage
    requires |replies| == |pages| && forall k :: 0 <= k < |pages| ==> listing(pages[k]) == Some(replies[k])
    requires |datas| == |replies| + 1
    requires forall k :: 0 <= k < |replies| ==> read(replies[k]) == Success(datas[k + 1]) && PageBuilders(datas[k + 1]).Success?
    ensures forall pg :: 2 <= pg < endPage ==> ListingReads(read, listing, pg)
  {
    forall pg | 2 <= pg < endPage
      ensures ListingReads(read, listing, pg)
    {
      assert pg in pages;
      var k :| 0 <= k < |pages| && pages[k] == pg;
      assert listing(pages[k]) == Some(replies[k]) && read(replies[k]) == Success(datas[k + 1]);
    }
  }

  /** The replies' `pageData`, one index at a time, after the first page's. */
  lemma FollowedReplies(read: HtmlPage -> Result<Json, Crash>, replies: seq<HtmlPage>, datas: seq<Json>)
    requires |datas| == |replies| + 1 && DatasFollow(read, replies, datas[..1], datas)
    ensures forall k :: 0 <= k < |replies| ==> read(replies[k]) == Success(datas[k + 1])
  {
    var n := |datas[..1]|;
    assert n == 1;
    forall k | 0 <= k < |replies|
      ensures read(replies[k]) == Success(datas[k + 1])
    {
      assert n <= k + 1 < |datas| && k + 1 - n == k;
    }
  }

  /** Every page of a gather that did not raise had a card walk that did not raise. */
  lemma GatheredAll(datas: seq<Json>)
    requires Gathered(datas).Success?
    ensures forall j :: 0 <= j < |datas| ==> PageBuilders(datas[j]).Success?
  {
    forall j | 0 <= j < |datas|
      ensures PageBuilders(datas[j]).Success?
    {
      GatheredEach(datas, j);
    }
  }

  /**
   * The first listing page of `process_city`: its request (a status of 400
   * to 599 makes `raise_for_status` raise), its flattened cards and
   * `end_page`. The ghost `pageData` is the page's `pageData`.
   */
  method ReadFirstPage(loads: string -> Option<Json>, first: Option<HtmlPage>)
    returns (r: Result<int, Crash>, builders: seq<Json>, ghost pageData: Json)
    ensures r.Success? <==>
      && first.Some? && !(400 <= first.value.status < 600)
      && PageReads(PageReader(loads), first.value) && EndPageOf(PageReader(loads), first.value).Success?
    ensures CardShaped(builders)
    ensures r.Success? ==>
      && EndPageOf(PageReader(loads), first.value) == r
      && PageReader(loads)(first.value) == Success(pageData)
      && Gathered([pageData]) == Success(builders)
  {
    builders, pageData := [], JObj([]);
    if first.None? {
      return Failure(Crash("the request for the first listing page raised")), builders, pageData;
    }
    if 400 <= first.value.status < 600 {
      return Failure(Crash("HTTPError from raise_for_status")), builders, pageData;
    }
    var firstRead, data := ReadListingPage(loads, first.value, builders);
    pageData := data;
    if firstRead.Failure? {
      return Failure(firstRead.error), builders, pageData;
    }
    builders := firstRead.value;
    GatheredStep([], data);
    assert [] + [data] == [data];
    var basicDetails := DictGet(data, "basicDetails", JObj([]));
    r := EndPage(basicDetails.value);
  }

  /**
   * The listing pages of `process_city`: the first page, its flattened
   * cards and `end_page`, then the extra pages `2 .. end_page - 1` and
   * their cards. The ghost `datas` holds the `pageData` of the first page,
   * then of each extra page.
   */
  method ReadCity(loads: string -> Option<Json>, first: Option<HtmlPage>, listing: int -> Option<HtmlPage>)
    returns (r: Result<(), Crash>, endPage: int, pages: seq<int>, builders: seq<Json>, ghost datas: seq<Json>)
    ensures r.Success? <==> CityReads(PageReader(loads), first, listing)
    ensures forall pg :: pg in pages <==> 2 <= pg < endPage
    ensures CardShaped(builders)
    ensures r.Success? ==>
      && EndPageOf(PageReader(loads), first.value) == Success(endPage)
      && |datas| == |pages| + 1
      && PageReader(loads)(first.value) == Success(datas[0])
      && (forall i :: 0 <= i < |pages| ==>
            ListingReads(PageReader(loads), listing, pages[i])
            && PageReader(loads)(listing(pages[i]).value) == Success(datas[i + 1]))
      && Gathered(datas) == Success(builders)
  {
    endPage, pages, datas := 0, [], [];
    var end;
    ghost var pageData;
    end, builders, pageData := ReadFirstPage(loads, first);
    if end.Failure? {
      return Failure(end.error), endPage, pages, builders, datas;
    }
    endPage := end.value;
    pages := ListingPages(endPage);
    r, builders, datas := FetchExtraPages(loads, listing, endPage, pages, builders, [pageData]);
  }

  /**
   * The requests for the extra listing pages `pages`, which are
   * `2 .. endPage - 1` in order, then their `append_builder_data` calls,
   * after the first page's: `datas0` holds the first page's `pageData`,
   * from which `builders0` was gathered.
   */
  method FetchExtraPages(loads: string -> Option<Json>, listing: int -> Option<HtmlPage>, endPage: int,
                         pages: seq<int>, builders0: seq<Json>, ghost datas0: seq<Json>)
    returns (r: Result<(), Crash>, builders: seq<Json>, ghost datas: seq<Json>)
    requires forall pg :: pg in pages <==> 2 <= pg < endPage
    requires |datas0| == 1 && Gathered(datas0) == Success(builders0) && CardShaped(builders0)
    ensures r.Success? <==> forall pg :: 2 <= pg < endPage ==> ListingReads(PageReader(loads), listing, pg)
    ensures CardShaped(builders)
    ensures r.Success? ==>
      && |datas| == |pages| + 1 && datas[0] == datas0[0]
      && (forall i :: 0 <= i < |pages| ==>
            ListingReads(PageReader(loads), listing, pages[i])
            && PageReader(loads)(listing(pages[i]).value) == Success(datas[i + 1]))
      && Gathered(datas) == Success(builders)
  {
    ghost var read := PageReader(loads);
    builders, datas := builders0, datas0;
    var replies: seq<HtmlPage> := [];
    for i := 0 to |pages|
      invariant |replies| == i
      invariant forall k :: 0 <= k < i ==> listing(pages[k]) == Some(replies[k])
    {
      var reply := listing(pages[i]);
      if reply.None? {
        assert pages[i] in pages && !ListingReads(read, listing, pages[i]);
        return Failure(Crash("a listing page request raised")), builders, datas;
      }
      replies := replies + [reply.value];
    }
    r, builders, datas := ReadExtraPages(loads, replies, builders, datas);
    if r.Failure? {
      ghost var j := |datas| - |datas0|;
      assert pages[j] in pages && listing(pages[j]) == Some(replies[j]) && !ListingReads(read, listing, pages[j]);
      return;
    }
    assert datas[..1] == datas0;
    FollowedReplies(read, replies, datas);
    GatheredAll(datas);
    ExtraPagesRead(read, listing, endPage, pages, replies, datas);
    forall i | 0 <= i < |pages|
      ensures ListingReads(read, listing, pages[i]) && read(listing(pages[i]).value) == Success(datas[i + 1])
    {
      assert pages[i] in pages && listing(pages[i]) == Some(replies[i]);
      assert read(replies[i]) == Success(datas[i + 1]);
    }
  }

  /** The walk over the city's builders, ending as `WalkDone` says. */
  method WalkCity(p: Tokens.Primitives, builders: seq<Json>, tokens: nat -> Session.AuthTriple,
                  api: nat -> Option<Http.Body>, fuel: nat)
    returns (r: Result<RunEnd, Crash>, results: seq<Json>,
             ghost bootstraps: nat, ghost kept: seq<nat>, ghost tries: seq<nat>, ghost spans: seq<nat>)
    ensures WalkDone(p, tokens, api, fuel, builders, r, results, bootstraps, kept, tries, spans)
    ensures forall x :: x in results ==> exists b :: b in builders && ScrapedFrom(x, b)
  {
    r, results, bootstraps, kept, tries, spans := ScrapeBuilders(p, builders, tokens, api, fuel);
  }

  /** Every record is the record of some builder. */
  lemma RecordsOfBuilders(tokens: nat -> Session.AuthTriple, builders: seq<Json>, tries: seq<nat>,
                          kept: seq<nat>, results: seq<Json>)
    requires KeptFollow(tokens, builders, tries, kept, results)
    ensures forall x :: x in results ==> exists b :: b in builders && ScrapedFrom(x, b)
  {
    forall x | x in results
      ensures exists b :: b in builders && ScrapedFrom(x, b)
    {
      var a :| 0 <= a < |results| && results[a] == x;
      assert builders[kept[a]] in builders;
    }
  }

  /**
   * `process_city` for the builder directory: the listing pages as
   * `ReadCity` reads them, then the walk over the builders. When a listing
   * page raises, nothing is walked; otherwise the walk ends with `r` in the
   * state `WalkDone` describes.
   */
  method ProcessCity(p: Tokens.Primitives, first: Option<HtmlPage>, listing: int -> Option<HtmlPage>,
                     tokens: nat -> Session.AuthTriple, api: nat -> Option<Http.Body>, fuel: nat)
    returns (r: Result<RunEnd, Crash>, endPage: int, pages: seq<int>, builders: seq<Json>, results: seq<Json>,
             ghost datas: seq<Json>,
             ghost bootstraps: nat, ghost kept: seq<nat>, ghost tries: seq<nat>, ghost spans: seq<nat>)
    ensures forall pg :: pg in pages <==> 2 <= pg < endPage
    ensures !CityReads(PageReader(p.loads), first, listing) ==> r.Failure? && results == []
    ensures CityReads(PageReader(p.loads), first, listing) ==>
      && EndPageOf(PageReader(p.loads), first.value) == Success(endPage)
      && |datas| == |pages| + 1
      && PageReader(p.loads)(first.value) == Success(datas[0])
      && (forall i :: 0 <= i < |pages| ==>
            ListingReads(PageReader(p.loads), listing, pages[i])
            && PageReader(p.loads)(listing(pages[i]).value) == Success(datas[i + 1]))
      && Gathered(datas) == Success(builders)
      && WalkDone(p, tokens, api, fuel, builders, r, results, bootstraps, kept, tries, spans)
    ensures CardShaped(builders)
    ensures forall x :: x in results ==> exists b :: b in builders && ScrapedFrom(x, b)
  {
    results, bootstraps, kept, tries, spans := [], 0, [], [], [0];
    var read;
    read, endPage, pages, builders, datas := ReadCity(p.loads, first, listing);
    if read.Failure? {
      return Failure(read.error), endPage, pages, builders, results, datas, bootstraps, kept, tries, spans;
    }
    r, results, bootstraps, kept, tries, spans := WalkCity(p, builders, tokens, api, fuel);
  }
}
