/**
 * `process_city` of scrape_resale_props.py and scrape_rental_props.py, which
 * differ only in the city pattern (`/buy/` or `/rent/`) and the page bound of
 * the end test (10 or 5). Pages are fetched in batches of five; failed pages
 * are retried once after a fresh session bootstrap; the crawl stops when that
 * bootstrap fails.
 *
 * The network is given (`Env`): what the `k`-th call of
 * `get_authentication_token` returns, whether a page token regenerates
 * (`regenerate_api_token` inside `fetch_page_data`), and what the `k`-th
 * page request comes back with. The two `asyncio.gather` calls are taken
 * in page order.
 */
module Listings {
  import opened Wrappers
  import opened JsonModel
  import opened Http
  import Session

  datatype Site = Resale | Rental

  function CityPattern(site: Site): Session.Pattern {
    if site == Resale then Session.BuyPattern else Session.RentPattern
  }

  /** The page bound of the end test: `page > 10` (resale), `page > 5` (rental). */
  function PageCeiling(site: Site): int {
    if site == Resale then 10 else 5
  }

  /** `pgs_per_reqs` */
  const PagesPerBatch: nat := 5

  /**
   * `bootstrap(k)`: what call `k` of `get_authentication_token` yields;
   * `regenerates(t)`: whether `regenerate_api_token(t, url, "")` succeeds,
   * which does not depend on the URL; `net(k, pg)`: what request `k`, for
   * page `pg`, comes back with.
   */
  datatype Env = Env(bootstrap: nat -> Session.AuthTriple, regenerates: string -> bool, net: (nat, int) -> PageOutcome)

  /** `fetch_page_data` for page `pg` as request `k`, with page token `token`: `None` when the token does not regenerate. */
  function Fetch(env: Env, token: string, k: nat, pg: int): PageOutcome {
    if env.regenerates(token) then env.net(k, pg) else NoResponse
  }

  /** One request per page of `pages`, numbered from `first`, gathered in page order. */
  function FetchPages(env: Env, token: string, first: nat, pages: seq<int>): (outs: seq<PageOutcome>)
    ensures |outs| == |pages|
    decreases |pages|
  {
    if pages == [] then [] else [Fetch(env, token, first, pages[0])] + FetchPages(env, token, first + 1, pages[1..])
  }

  lemma {:induction false} FetchPagesAt(env: Env, token: string, first: nat, pages: seq<int>, i: nat)
    requires i < |pages|
    ensures FetchPages(env, token, first, pages)[i] == Fetch(env, token, first + i, pages[i])
    decreases i
  {
    if i > 0 {
      FetchPagesAt(env, token, first + 1, pages[1..], i - 1);
    }
  }

  /** `page + i for i in range(pgs_per_reqs)` */
  function BatchPages(page: int): (pages: seq<int>)
    ensures |pages| == PagesPerBatch
    ensures forall i :: 0 <= i < PagesPerBatch ==> pages[i] == page + i
  {
    PageRun(page, PagesPerBatch)
  }

  /** `n` consecutive pages from `page`. */
  function PageRun(page: int, n: nat): (pages: seq<int>)
    ensures |pages| == n
    ensures forall i :: 0 <= i < n ==> pages[i] == page + i
    decreases n
  {
    if n == 0 then [] else [page] + PageRun(page + 1, n - 1)
  }

  /* ---------- the batch loop (lines 119-146 of the resale scraper) ---------- */

  /** What the batch loop makes of one response. */
  datatype Reading =
    | PageFailed                                   // appended to `failed_pgs`
    | Undecodable                                  // `json.JSONDecodeError`: the loop breaks
    | Ignored                                      // a caught `KeyError` or other exception
    | Read(props: seq<Json>, count: Option<Json>)  // `data["properties"]` and `data.get("count")`

  function ReadPage(o: PageOutcome): (rd: Reading)
    ensures rd.PageFailed? <==> Failed(o)
    ensures rd.Undecodable? <==> !Failed(o) && o.body.Malformed?
  {
    if Failed(o) then PageFailed
    else match o.body
      case Malformed => Undecodable
      case Parsed(data) =>
        if !data.JObj? then Ignored
        else match Lookup(data.fields, "properties")
          case None => Ignored
          case Some(ps) =>
            match Iter(ps)
            case None => Ignored
            case Some(items) => Read(items, Lookup(data.fields, "count"))
  }

  /** `failed_pgs`, `results[city_name]` and `total_new_props` as the batch loop leaves them. */
  datatype Batch = Batch(failed: seq<int>, results: seq<Json>, total: Json)

  /** The loop body for page `pg`; `total_new_props` is only taken while it equals 0. */
  function AddReading(b: Batch, pg: int, rd: Reading): Batch {
    match rd
    case PageFailed => b.(failed := b.failed + [pg])
    case Read(props, count) =>
      b.(results := b.results + props,
         total := if EqualsZero(b.total) && count.Some? then count.value else b.total)
    case _ => b
  }

  /** The loop over `outs`, the first being page `page`, with no break. */
  function ReadAll(outs: seq<PageOutcome>, page: int, b: Batch): Batch
    decreases |outs|
  {
    if outs == [] then b
    else AddReading(ReadAll(outs[..|outs| - 1], page, b), page + |outs| - 1, ReadPage(outs[|outs| - 1]))
  }

  /** How many responses the loop reads before the first undecodable one. */
  function DecodedRun(outs: seq<PageOutcome>): (n: nat)
    ensures n <= |outs|
    ensures forall i {:trigger ReadPage(outs[i])} :: 0 <= i < n ==> !ReadPage(outs[i]).Undecodable?
    ensures n < |outs| ==> ReadPage(outs[n]).Undecodable?
    decreases |outs|
  {
    if outs == [] || ReadPage(outs[0]).Undecodable? then 0 else 1 + DecodedRun(outs[1..])
  }

  /** The batch loop: every response up to the first undecodable one. */
  function Classify(outs: seq<PageOutcome>, page: int, b: Batch): Batch {
    ReadAll(outs[..DecodedRun(outs)], page, b)
  }

  method ClassifyBatch(outs: seq<PageOutcome>, page: int, b0: Batch) returns (b: Batch)
    ensures b == Classify(outs, page, b0)
  {
    b := b0;
    var i := 0;
    while i < |outs|
      invariant i <= DecodedRun(outs)
      invariant b == ReadAll(outs[..i], page, b0)
    {
      var rd := ReadPage(outs[i]);
      if rd.Undecodable? {
        break;
      }
      assert outs[..i + 1][..i] == outs[..i];
      if rd.PageFailed? {
        b := b.(failed := b.failed + [page + i]);
      } else if rd.Read? {
        b := b.(results := b.results + rd.props);
        if EqualsZero(b.total) && rd.count.Some? {
          b := b.(total := rd.count.value);
        }
      }
      i := i + 1;
    }
  }

  /** A page is listed as failed exactly when its outcome is an exception, `None` or a status other than 200. */
  lemma {:induction false} ReadAllFailed(outs: seq<PageOutcome>, page: int, b: Batch)
    ensures forall pg :: pg in ReadAll(outs, page, b).failed <==>
      pg in b.failed || exists i :: 0 <= i < |outs| && Failed(outs[i]) && pg == page + i
    decreases |outs|
  {
    if outs != [] {
      var front := outs[..|outs| - 1];
      ReadAllFailed(front, page, b);
      assert forall i :: 0 <= i < |front| ==> front[i] == outs[i];
    }
  }

  /** Strictly increasing and within `[lo, hi)`. */
  predicate AscendingWithin(f: seq<int>, lo: int, hi: int) {
    (forall i, j :: 0 <= i < j < |f| ==> f[i] < f[j]) && forall i :: 0 <= i < |f| ==> lo <= f[i] < hi
  }

  /** The failed pages are listed in increasing order, within the batch. */
  lemma {:induction false} ReadAllFailedOrdered(outs: seq<PageOutcome>, page: int, b: Batch)
    requires b.failed == []
    ensures AscendingWithin(ReadAll(outs, page, b).failed, page, page + |outs|)
    decreases |outs|
  {
    if outs != [] {
      var g := ReadAll(outs[..|outs| - 1], page, b).failed;
      ReadAllFailedOrdered(outs[..|outs| - 1], page, b);
      assert AscendingWithin(g, page, page + |outs| - 1);
      var f := ReadAll(outs, page, b).failed;
      if ReadPage(outs[|outs| - 1]).PageFailed? {
        assert f == g + [page + |outs| - 1];
      } else {
        assert f == g;
      }
    }
  }

  /** The batch loop only appends to the results. */
  lemma {:induction false} ReadAllKeepsResults(outs: seq<PageOutcome>, page: int, b: Batch)
    ensures var r := ReadAll(outs, page, b).results; |r| >= |b.results| && r[..|b.results|] == b.results
    decreases |outs|
  {
    if outs != [] {
      var front := ReadAll(outs[..|outs| - 1], page, b);
      ReadAllKeepsResults(outs[..|outs| - 1], page, b);
      var r := ReadAll(outs, page, b).results;
      assert r[..|front.results|] == front.results;
      assert r[..|b.results|] == front.results[..|b.results|];
    }
  }

  /** `total_new_props` is latched: once it is not 0, the batch loop leaves it alone. */
  lemma {:induction false} ReadAllLatch(outs: seq<PageOutcome>, page: int, b: Batch)
    requires !EqualsZero(b.total)
    ensures ReadAll(outs, page, b).total == b.total
    decreases |outs|
  {
    if outs != [] {
      ReadAllLatch(outs[..|outs| - 1], page, b);
    }
  }

  /** The total is the one it was, or the `count` of a page read in this batch. */
  lemma {:induction false} ReadAllTotalSource(outs: seq<PageOutcome>, page: int, b: Batch)
    ensures var t := ReadAll(outs, page, b).total;
      t == b.total || exists i :: 0 <= i < |outs| && ReadPage(outs[i]).Read? && ReadPage(outs[i]).count == Some(t)
    decreases |outs|
  {
    if outs != [] {
      var front := outs[..|outs| - 1];
      ReadAllTotalSource(front, page, b);
      assert forall i :: 0 <= i < |front| ==> front[i] == outs[i];
    }
  }

  /* ---------- the retry loop (lines 160-168 of the resale scraper) ---------- */

  /** What a retried page adds; a decoded body that is not a dict, or whose `properties` is not iterable, raises. */
  function RetryItems(o: PageOutcome): (r: Result<seq<Json>, Crash>)
    ensures Failed(o) ==> r == Success([])
    ensures r.Failure? ==> !Failed(o) && o.body.Parsed?
  {
    if Failed(o) then Success([])
    else match o.body
      case Malformed => Success([])
      case Parsed(data) =>
        if !data.JObj? then Failure(Crash("AttributeError: object has no attribute 'get'"))
        else match Iter(Lookup(data.fields, "properties").GetOr(JArr([])))
          case None => Failure(Crash("TypeError: object is not iterable"))
          case Some(items) => Success(items)
  }

  /** The retried pages' items appended to `results`, in order. */
  function RetryAll(outs: seq<PageOutcome>, results: seq<Json>): Result<seq<Json>, Crash>
    decreases |outs|
  {
    if outs == [] then Success(results)
    else
      match RetryAll(outs[..|outs| - 1], results)
      case Failure(e) => Failure(e)
      case Success(acc) =>
        match RetryItems(outs[|outs| - 1])
        case Failure(e) => Failure(e)
        case Success(items) => Success(acc + items)
  }

  method RetryFailed(outs: seq<PageOutcome>, results: seq<Json>) returns (r: Result<seq<Json>, Crash>)
    ensures r == RetryAll(outs, results)
  {
    var acc := results;
    for i := 0 to |outs|
      invariant RetryAll(outs[..i], results) == Success(acc)
    {
      assert outs[..i + 1][..i] == outs[..i];
      var items := RetryItems(outs[i]);
      if items.Failure? {
        RetryAllFailure(outs, i + 1, results);
        return Failure(items.error);
      }
      acc := acc + items.value;
    }
    assert outs[..|outs|] == outs;
    return Success(acc);
  }

  lemma {:induction false} RetryAllFailure(outs: seq<PageOutcome>, n: nat, results: seq<Json>)
    requires n <= |outs| && RetryAll(outs[..n], results).Failure?
    ensures RetryAll(outs, results) == RetryAll(outs[..n], results)
    decreases |outs| - n
  {
    if n < |outs| {
      assert outs[..n + 1][..n] == outs[..n];
      RetryAllFailure(outs, n + 1, results);
    } else {
      assert outs[..n] == outs;
    }
  }

  /** The retry only appends to the results. */
  lemma {:induction false} RetryAllExtends(outs: seq<PageOutcome>, results: seq<Json>)
    requires RetryAll(outs, results).Success?
    ensures var r := RetryAll(outs, results).value; |r| >= |results| && r[..|results|] == results
    decreases |outs|
  {
    if outs != [] {
      var front := outs[..|outs| - 1];
      RetryAllExtends(front, results);
      var acc := RetryAll(front, results).value;
      var r := RetryAll(outs, results).value;
      assert r[..|acc|] == acc;
      assert r[..|results|] == acc[..|results|];
    }
  }

  /* ---------- rounds (lines 112-173 of the resale scraper) ---------- */

  /**
   * `page`, `total_new_props` and `results[city_name]` between rounds, with
   * the pages requested so far (in request order) and the number of
   * bootstrap calls made.
   */
  datatype CityState = CityState(page: int, total: Json, results: seq<Json>, log: seq<int>, bootstraps: nat)

  /** How a round ends: on to the next batch (with the value `reached_end` got), or the `break` of line 154. */
  datatype Ending = Continue(reachedEnd: bool) | Break

  /** `s` begins with `prefix`. */
  predicate Extends<T(==)>(prefix: seq<T>, s: seq<T>) {
    |s| >= |prefix| && s[..|prefix|] == prefix
  }

  /**
   * Lines 170-173: `len(results) >= total_new_props or page > 10` (5 for
   * rentals), then `page += 5`. Comparing a length with a total that is not
   * a number raises `TypeError`.
   */
  function EndTest(site: Site, st: CityState): (r: Result<(CityState, Ending), Crash>)
    ensures r.Failure? <==> NumberValue(st.total).None?
    ensures r.Success? ==> r.value.1.Continue? && r.value.0.page == st.page + PagesPerBatch
  {
    match NumberValue(st.total)
    case None => Failure(Crash("TypeError: '>=' not supported between int and the total"))
    case Some(n) =>
      Success((st.(page := st.page + PagesPerBatch), Continue(|st.results| as real >= n || st.page > PageCeiling(site))))
  }

  /** The outcomes of the five requests of a round's batch. */
  function BatchOutcomes(env: Env, token: string, st: CityState): seq<PageOutcome> {
    FetchPages(env, token, |st.log|, BatchPages(st.page))
  }

  /** The batch loop of a round, from the round's state. */
  function RoundBatch(env: Env, token: string, st: CityState): Batch {
    Classify(BatchOutcomes(env, token, st), st.page, Batch([], st.results, st.total))
  }

  /** The state once the batch loop is done. */
  function AfterBatch(env: Env, token: string, st: CityState): (read: CityState)
    ensures read.page == st.page && read.bootstraps == st.bootstraps
  {
    var b := RoundBatch(env, token, st);
    st.(results := b.results, total := b.total, log := st.log + BatchPages(st.page))
  }

  /**
   * Lines 148-173, from the state `read` the batch loop left and its failed
   * pages: when some failed, a fresh bootstrap (two attempts) and one more
   * request for each failed page with the fresh token; then the end test.
   */
  function Recover(site: Site, env: Env, read: CityState, failed: seq<int>): Result<(CityState, Ending), Crash> {
    if failed == [] then EndTest(site, read)
    else
      var renewal := Session.Bootstrap(env.bootstrap, read.bootstraps, 2);
      var renewed := read.(bootstraps := read.bootstraps + renewal.1);
      if renewal.0.None? then Success((renewed, Break))
      else
        match RetryAll(FetchPages(env, renewal.0.value.apiToken, |read.log|, failed), read.results)
        case Failure(e) => Failure(e)
        case Success(rs) => EndTest(site, renewed.(results := rs, log := read.log + failed))
  }

  /** One pass of `while True`: five pages with the city's token, then the recovery of the failed ones and the end test. */
  function Round(site: Site, env: Env, token: string, st: CityState): Result<(CityState, Ending), Crash> {
    Recover(site, env, AfterBatch(env, token, st), RoundBatch(env, token, st).failed)
  }

  datatype CityEnd =
    | Skipped      // no city name, no initial tokens or no `city` query parameter
    | Stopped      // the re-bootstrap after a failed page failed
    | Finished     // the end test held
    | RoundsSpent  // `fuel` rounds ran

  /** The body of `while True`, as a function of the state a pass starts from. */
  type RoundFn = CityState -> Result<(CityState, Ending), Crash>

  function RoundOf(site: Site, env: Env, token: string): RoundFn {
    st => Round(site, env, token, st)
  }

  /**
   * Up to `fuel` passes of `round`. As written (`heedEnd` false) the loop
   * only leaves on `Break`: `reached_end` is set and never read. With
   * `heedEnd` it also leaves when the end test holds.
   */
  function Rounds(round: RoundFn, st: CityState, fuel: nat, heedEnd: bool): Result<(CityState, CityEnd), Crash>
    decreases fuel
  {
    if fuel == 0 then Success((st, RoundsSpent))
    else
      match round(st)
      case Failure(e) => Failure(e)
      case Success((next, ending)) =>
        if ending.Break? then Success((next, Stopped))
        else if heedEnd && ending.reachedEnd then Success((next, Finished))
        else Rounds(round, next, fuel - 1, heedEnd)
  }

  /**
   * A pass from `st` that did not raise only appended to the results, kept a
   * non-zero total, moved on by five pages unless it broke, requested the
   * batch and then at most five more pages, and bootstrapped at most twice.
   */
  predicate Advances(st: CityState, step: Result<(CityState, Ending), Crash>) {
    step.Success? ==>
      var (next, ending) := step.value;
      && Extends(st.results, next.results)
      && (!EqualsZero(st.total) ==> next.total == st.total)
      && (ending.Continue? ==> next.page == st.page + PagesPerBatch)
      && (ending.Break? ==> next.page == st.page)
      && Extends(st.log + BatchPages(st.page), next.log)
      && |next.log| <= |st.log| + 2 * PagesPerBatch
      && st.bootstraps <= next.bootstraps <= st.bootstraps + 2
  }

  lemma RoundProgress(site: Site, env: Env, token: string, st: CityState)
    ensures Advances(st, Round(site, env, token, st))
    ensures var step := Round(site, env, token, st);
      step.Success? ==>
        step.value.0.log == st.log + BatchPages(st.page)
                            + (if step.value.1.Continue? then RoundBatch(env, token, st).failed else [])
  {
    BatchProgress(env, token, st);
    RecoverProgress(site, env, AfterBatch(env, token, st), RoundBatch(env, token, st).failed);
  }

  /** The batch loop only appends, keeps a non-zero total, logs its five pages, and fails at most five. */
  lemma BatchProgress(env: Env, token: string, st: CityState)
    ensures var read := AfterBatch(env, token, st);
      && Extends(st.results, read.results)
      && (!EqualsZero(st.total) ==> read.total == st.total)
      && read.log == st.log + BatchPages(st.page)
      && |RoundBatch(env, token, st).failed| <= PagesPerBatch
  {
    var outs := BatchOutcomes(env, token, st);
    var b0 := Batch([], st.results, st.total);
    var n := DecodedRun(outs);
    ReadAllKeepsResults(outs[..n], st.page, b0);
    ReadAllFailedOrdered(outs[..n], st.page, b0);
    if !EqualsZero(st.total) {
      ReadAllLatch(outs[..n], st.page, b0);
    }
    FailedBound(RoundBatch(env, token, st).failed, st.page, st.page + n);
  }

  /** The retry of the failed pages and the end test only append, and request each failed page once more. */
  lemma RecoverProgress(site: Site, env: Env, read: CityState, failed: seq<int>)
    ensures var step := Recover(site, env, read, failed);
      step.Success? ==>
        var (next, ending) := step.value;
        && Extends(read.results, next.results)
        && next.total == read.total
        && (ending.Continue? ==> next.page == read.page + PagesPerBatch)
        && (ending.Break? ==> next.page == read.page)
        && (ending.Break? ==> next.log == read.log)
        && (ending.Continue? ==> next.log == read.log + failed)
        && read.bootstraps <= next.bootstraps <= read.bootstraps + 2
  {
    if failed != [] {
      var renewal := Session.Bootstrap(env.bootstrap, read.bootstraps, 2);
      if renewal.0.Some? {
        var retried := FetchPages(env, renewal.0.value.apiToken, |read.log|, failed);
        if RetryAll(retried, read.results).Success? {
          RetryAllExtends(retried, read.results);
        }
      }
    }
  }

  /** A strictly increasing sequence within `[lo, hi)` has at most `hi - lo` items. */
  lemma {:induction false} FailedBound(f: seq<int>, lo: int, hi: int)
    requires AscendingWithin(f, lo, hi)
    ensures |f| <= if hi < lo then 0 else hi - lo
    decreases |f|
  {
    if f != [] {
      assert AscendingWithin(f[1..], f[0] + 1, hi);
      FailedBound(f[1..], f[0] + 1, hi);
    }
  }

  lemma ExtendsTrans<T>(a: seq<T>, b: seq<T>, c: seq<T>)
    requires Extends(a, b) && Extends(b, c)
    ensures Extends(a, c)
  {
    assert c[..|a|] == c[..|b|][..|a|];
  }

  /**
   * A round breaks exactly when some page of its batch failed and the
   * re-bootstrap then yielded nothing; the check of line 152 tests the
   * city's first token, which is always truthy, so only the fresh cookies
   * and encrypted input decide.
   */
  lemma RoundBreaks(site: Site, env: Env, token: string, st: CityState)
    ensures (Round(site, env, token, st).Success? && Round(site, env, token, st).value.1.Break?) <==>
      RoundBatch(env, token, st).failed != [] && Session.Bootstrap(env.bootstrap, st.bootstraps, 2).0.None?
  {
  }

  /** Every pass of the crawl's own body advances. */
  lemma CrawlAdvances(site: Site, env: Env, token: string)
    ensures forall st :: Advances(st, RoundOf(site, env, token)(st))
  {
    forall st ensures Advances(st, RoundOf(site, env, token)(st)) {
      RoundProgress(site, env, token, st);
    }
  }

  /** Over all rounds of a body that advances: results only grow, and a non-zero total never changes. */
  lemma {:induction false} RoundsProgress(round: RoundFn, st: CityState, fuel: nat, heedEnd: bool)
    requires forall s :: Advances(s, round(s))
    requires Rounds(round, st, fuel, heedEnd).Success?
    ensures var last := Rounds(round, st, fuel, heedEnd).value.0;
      Extends(st.results, last.results) && (!EqualsZero(st.total) ==> last.total == st.total)
    decreases fuel
  {
    if fuel > 0 {
      assert Advances(st, round(st));
      var (next, ending) := round(st).value;
      if ending.Continue? && !(heedEnd && ending.reachedEnd) {
        RoundsProgress(round, next, fuel - 1, heedEnd);
        ExtendsTrans(st.results, next.results, Rounds(round, next, fuel - 1, heedEnd).value.0.results);
      }
    }
  }

  /** As written, a city's crawl never finishes: it stops on a failed re-bootstrap, raises, or runs out of rounds. */
  lemma {:induction false} AsWrittenNeverFinishes(round: RoundFn, st: CityState, fuel: nat)
    requires Rounds(round, st, fuel, false).Success?
    ensures Rounds(round, st, fuel, false).value.1 != Finished
    decreases fuel
  {
    if fuel > 0 {
      var (next, ending) := round(st).value;
      if ending.Continue? {
        AsWrittenNeverFinishes(round, next, fuel - 1);
      }
    }
  }

  /** With the end test heeded, a finished crawl met it: all announced listings collected, or past the page bound. */
  lemma {:induction false} FinishedMeansEnd(site: Site, round: RoundFn, st: CityState, fuel: nat)
    requires forall s :: EndTested(site, round(s))
    requires Rounds(round, st, fuel, true).Success?
    requires Rounds(round, st, fuel, true).value.1 == Finished
    ensures var last := Rounds(round, st, fuel, true).value.0;
      NumberValue(last.total).Some? &&
      (|last.results| as real >= NumberValue(last.total).value || last.page - PagesPerBatch > PageCeiling(site))
    decreases fuel
  {
    assert EndTested(site, round(st));
    var (next, ending) := round(st).value;
    if !ending.reachedEnd {
      FinishedMeansEnd(site, round, next, fuel - 1);
    }
  }

  /** A pass that went on carries in `reached_end` the end test on the state it hands on. */
  predicate EndTested(site: Site, step: Result<(CityState, Ending), Crash>) {
    step.Success? && step.value.1.Continue? ==>
      var (next, ending) := step.value;
      NumberValue(next.total).Some? &&
      (ending.reachedEnd <==> |next.results| as real >= NumberValue(next.total).value || next.page - PagesPerBatch > PageCeiling(site))
  }

  lemma RoundEndTest(site: Site, env: Env, token: string)
    ensures forall st :: EndTested(site, RoundOf(site, env, token)(st))
  {
  }

  /* ---------- a concrete city that shows the unused end test ---------- */

  /** Every page answers 200 with no listings and a count of 0. */
  const EmptyPage := Responded(200, Parsed(JObj([("properties", JArr([])), ("count", JNum(0.0))])))

  function EmptyCity(bootstrap: nat -> Session.AuthTriple): Env {
    Env(bootstrap, (t: string) => true, (k: nat, pg: int) => EmptyPage)
  }

  /** Reading only empty pages changes nothing while the total is 0. */
  lemma {:induction false} ReadAllEmpty(outs: seq<PageOutcome>, page: int, b: Batch)
    requires forall i :: 0 <= i < |outs| ==> outs[i] == EmptyPage
    requires b.total == JNum(0.0)
    ensures ReadAll(outs, page, b) == b
    decreases |outs|
  {
    if outs != [] {
      ReadAllEmpty(outs[..|outs| - 1], page, b);
    }
  }

  /** On the empty city a round requests its five pages, changes nothing else but the page, and reaches the end. */
  lemma EmptyRound(site: Site, bootstrap: nat -> Session.AuthTriple, token: string, st: CityState)
    requires st.total == JNum(0.0)
    ensures Round(site, EmptyCity(bootstrap), token, st) ==
      Success((st.(page := st.page + PagesPerBatch, log := st.log + BatchPages(st.page)), Continue(true)))
  {
    var outs := BatchOutcomes(EmptyCity(bootstrap), token, st);
    forall i | 0 <= i < |outs| ensures outs[i] == EmptyPage {
      FetchPagesAt(EmptyCity(bootstrap), token, |st.log|, BatchPages(st.page), i);
    }
    assert !ReadPage(EmptyPage).Undecodable?;
    assert DecodedRun(outs) == |outs|;
    assert outs[..DecodedRun(outs)] == outs;
    ReadAllEmpty(outs, st.page, Batch([], st.results, st.total));
  }

  /**
   * The unused `reached_end`: on the empty city the end test holds after the
   * first round, yet the crawl as written goes on for every round it is
   * given, while the crawl that heeds the end test finishes after one.
   */
  lemma AsWrittenIgnoresEnd(site: Site, bootstrap: nat -> Session.AuthTriple, token: string, st: CityState, fuel: nat)
    requires st.total == JNum(0.0) && fuel >= 1
    ensures var crawl := Rounds(RoundOf(site, EmptyCity(bootstrap), token), st, fuel, false);
      && crawl.Success? && crawl.value.1 == RoundsSpent
      && crawl.value.0.page == st.page + 5 * fuel
      && |crawl.value.0.log| == |st.log| + 5 * fuel
    ensures Rounds(RoundOf(site, EmptyCity(bootstrap), token), st, fuel, true) ==
      Success((st.(page := st.page + PagesPerBatch, log := st.log + BatchPages(st.page)), Finished))
  {
    EmptyCityRounds(site, bootstrap, token);
    EmptyRounds(RoundOf(site, EmptyCity(bootstrap), token), st, fuel);
  }

  /** Every round on the empty city, from a total of 0, is the one `EmptyRound` describes. */
  lemma EmptyCityRounds(site: Site, bootstrap: nat -> Session.AuthTriple, token: string)
    ensures forall s: CityState {:trigger RoundOf(site, EmptyCity(bootstrap), token)(s)} :: s.total == JNum(0.0) ==>
      RoundOf(site, EmptyCity(bootstrap), token)(s) ==
        Success((s.(page := s.page + PagesPerBatch, log := s.log + BatchPages(s.page)), Continue(true)))
  {
    forall s: CityState | s.total == JNum(0.0)
      ensures RoundOf(site, EmptyCity(bootstrap), token)(s) ==
        Success((s.(page := s.page + PagesPerBatch, log := s.log + BatchPages(s.page)), Continue(true)))
    {
      EmptyRound(site, bootstrap, token, s);
    }
  }

  /** A body that, from any state with a total of 0, only moves on by a batch and reaches the end runs every round it is given. */
  lemma {:induction false} EmptyRounds(round: RoundFn, st: CityState, fuel: nat)
    requires forall s: CityState {:trigger round(s)} :: s.total == JNum(0.0) ==>
      round(s) == Success((s.(page := s.page + PagesPerBatch, log := s.log + BatchPages(s.page)), Continue(true)))
    requires st.total == JNum(0.0)
    ensures var crawl := Rounds(round, st, fuel, false);
      && crawl.Success? && crawl.value.1 == RoundsSpent
      && crawl.value.0.page == st.page + 5 * fuel
      && |crawl.value.0.log| == |st.log| + 5 * fuel
    ensures fuel > 0 ==>
      Rounds(round, st, fuel, true) ==
        Success((st.(page := st.page + PagesPerBatch, log := st.log + BatchPages(st.page)), Finished))
    decreases fuel
  {
    if fuel > 0 {
      var next := st.(page := st.page + PagesPerBatch, log := st.log + BatchPages(st.page));
      EmptyRounds(round, next, fuel - 1);
    }
  }

  /* ---------- the methods ---------- */

  /** Lines 170-173. */
  method EndCheck(site: Site, st: CityState) returns (r: Result<(CityState, Ending), Crash>)
    ensures r == EndTest(site, st)
  {
    var total := NumberValue(st.total);
    if total.None? {
      return Failure(Crash("TypeError: '>=' not supported between int and the total"));
    }
    var reachedEnd := |st.results| as real >= total.value || st.page > PageCeiling(site);
    return Success((st.(page := st.page + PagesPerBatch), Continue(reachedEnd)));
  }

  /** Lines 148-173 of the `while True` body. */
  method RecoverRound(site: Site, env: Env, read: CityState, failed: seq<int>) returns (r: Result<(CityState, Ending), Crash>)
    ensures r == Recover(site, env, read, failed)
  {
    if failed == [] {
      r := EndCheck(site, read);
      return;
    }
    var renewal, used := Session.InitialTokens(env.bootstrap, read.bootstraps, 2);
    var renewed := read.(bootstraps := read.bootstraps + used);
    if renewal.None? {
      return Success((renewed, Break));
    }
    var retried := FetchPages(env, renewal.value.apiToken, |read.log|, failed);
    var extended := RetryFailed(retried, read.results);
    if extended.Failure? {
      return Failure(extended.error);
    }
    r := EndCheck(site, renewed.(results := extended.value, log := read.log + failed));
  }

  /** One pass of the `while True` body. */
  method CityRound(site: Site, env: Env, token: string, st: CityState) returns (r: Result<(CityState, Ending), Crash>)
    ensures r == Round(site, env, token, st)
  {
    var outs := FetchPages(env, token, |st.log|, BatchPages(st.page));
    var b := ClassifyBatch(outs, st.page, Batch([], st.results, st.total));
    var read := st.(results := b.results, total := b.total, log := st.log + BatchPages(st.page));
    r := RecoverRound(site, env, read, b.failed);
  }

  /**
   * `round` is the loop body of the crawl on `site`, `env` and `token`; the
   * equation is only used where a concrete round is computed.
   */
  ghost predicate IsRoundOf(round: RoundFn, site: Site, env: Env, token: string) {
    forall st {:trigger Round(site, env, token, st)} :: round(st) == Round(site, env, token, st)
  }

  /** One pass with `left` rounds to go: either the crawl's outcome, or the state the next pass starts from. */
  method CrawlStep(site: Site, env: Env, token: string, ghost round: RoundFn, st: CityState, left: nat, heedEnd: bool,
                   ghost goal: Result<(CityState, CityEnd), Crash>)
    returns (outcome: Option<Result<(CityState, CityEnd), Crash>>, next: CityState)
    requires IsRoundOf(round, site, env, token)
    requires left > 0 && goal == Rounds(round, st, left, heedEnd)
    ensures outcome.Some? ==> outcome.value == goal
    ensures outcome.None? ==> goal == Rounds(round, next, left - 1, heedEnd)
  {
    next := st;
    var step := CityRound(site, env, token, st);
    if step.Failure? {
      return Some(Failure(step.error)), next;
    }
    next := step.value.0;
    var ending := step.value.1;
    if ending.Break? {
      return Some(Success((next, Stopped))), next;
    }
    if heedEnd && ending.reachedEnd {
      return Some(Success((next, Finished))), next;
    }
    return None, next;
  }

  /** The `while True` loop, for at most `fuel` rounds; `round` is its body, as a function. */
  method CrawlRounds(site: Site, env: Env, token: string, ghost round: RoundFn, st0: CityState, fuel: nat, heedEnd: bool)
    returns (r: Result<(CityState, CityEnd), Crash>)
    requires IsRoundOf(round, site, env, token)
    ensures r == Rounds(round, st0, fuel, heedEnd)
  {
    var st := st0;
    var left: nat := fuel;
    var done: Option<Result<(CityState, CityEnd), Crash>> := None;
    ghost var goal := Rounds(round, st0, fuel, heedEnd);
    while left > 0 && done.None?
      invariant done.Some? ==> done.value == goal
      invariant done.None? ==> goal == Rounds(round, st, left, heedEnd)
    {
      done, st := CrawlStep(site, env, token, round, st, left, heedEnd, goal);
      left := left - 1;
    }
    r := if done.Some? then done.value else Success((st, RoundsSpent));
  }

  /**
   * Lines 83-107: the city name from the URL, the initial tokens (two
   * attempts), and the `city` query parameter, which must be non-empty;
   * `None` where `process_city` returns early.
   */
  function StartCity(site: Site, url: string, cityId: Option<string>, env: Env): (r: Option<(string, Session.AuthTriple, nat)>)
    ensures r.Some? ==> Session.Search(url, CityPattern(site)) == Some(r.value.0) && Session.Truthy(r.value.1)
                        && cityId.Some? && cityId.value != [] && 1 <= r.value.2 <= 2
    ensures r.None? ==> Session.Search(url, CityPattern(site)).None? || cityId.None? || cityId.value == []
                        || Session.Bootstrap(env.bootstrap, 0, 2).0.None?
  {
    match Session.Search(url, CityPattern(site))
    case None => None
    case Some(city) =>
      var renewal := Session.Bootstrap(env.bootstrap, 0, 2);
      if renewal.0.None? || cityId.None? || cityId.value == [] then None
      else Some((city, renewal.0.value, renewal.1))
  }

  /**
   * `process_city` for one search URL, `results` being the scraped-data dict
   * it adds to. `heedEnd` false is the source as written; true adds the
   * evidently intended exit on `reached_end`.
   */
  method ProcessCity(site: Site, url: string, cityId: Option<string>, results: map<string, seq<Json>>, env: Env, fuel: nat, heedEnd: bool)
    returns (r: Result<CityEnd, Crash>, updated: map<string, seq<Json>>)
    ensures match StartCity(site, url, cityId, env)
      case None => r == Success(Skipped) && updated == results
      case Some((city, triple, used)) =>
        var st0 := CityState(1, JNum(0.0), if city in results then results[city] else [], [], used);
        match Rounds(RoundOf(site, env, triple.apiToken), st0, fuel, heedEnd)
        case Failure(e) => r == Failure(e)
        case Success((last, end)) => r == Success(end) && updated == results[city := last.results]
  {
    updated := results;
    var name := Session.Search(url, CityPattern(site));
    if name.None? {
      return Success(Skipped), updated;
    }
    var triple, used := Session.InitialTokens(env.bootstrap, 0, 2);
    if triple.None? || cityId.None? || cityId.value == [] {
      return Success(Skipped), updated;
    }
    var city := name.value;
    var prior := if city in results then results[city] else [];
    var crawl := CrawlRounds(site, env, triple.value.apiToken, RoundOf(site, env, triple.value.apiToken),
                             CityState(1, JNum(0.0), prior, [], used), fuel, heedEnd);
    if crawl.Failure? {
      return Failure(crawl.error), updated;
    }
    updated := results[city := crawl.value.0.results];
    return Success(crawl.value.1), updated;
  }

  /** A crawl that did not raise keeps, at the head of the city's list, what the dict already held for the city. */
  lemma ProcessCityKeeps(site: Site, url: string, cityId: Option<string>, results: map<string, seq<Json>>, env: Env, fuel: nat, heedEnd: bool)
    requires StartCity(site, url, cityId, env).Some?
    ensures var (city, triple, used) := StartCity(site, url, cityId, env).value;
      var prior := if city in results then results[city] else [];
      var crawl := Rounds(RoundOf(site, env, triple.apiToken), CityState(1, JNum(0.0), prior, [], used), fuel, heedEnd);
      crawl.Success? ==> Extends(prior, crawl.value.0.results)
  {
    var (city, triple, used) := StartCity(site, url, cityId, env).value;
    var prior := if city in results then results[city] else [];
    var st0 := CityState(1, JNum(0.0), prior, [], used);
    if Rounds(RoundOf(site, env, triple.apiToken), st0, fuel, heedEnd).Success? {
      CrawlAdvances(site, env, triple.apiToken);
      RoundsProgress(RoundOf(site, env, triple.apiToken), st0, fuel, heedEnd);
    }
  }
}
