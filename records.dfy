/**
 * What the two listing scrapers do with the collected properties once every
 * city is crawled: the resale scraper keeps only the listings tagged
 * `RESALE` (deleting the others in place, from the back), and both map each
 * dict to an output record (`prop_obj`).
 */
module Records {
  import opened Wrappers
  import opened Text
  import opened JsonModel

  /* ---------- the RESALE filter (lines 260-267 of the resale scraper) ---------- */

  /**
   * `secondary_tag = prop.get("SECONDARY_TAGS")` and the test
   * `not secondary_tag or "RESALE" not in secondary_tag`, negated: whether
   * the listing stays. `in` means membership for a list, substring for a
   * string and key for a dict; on a truthy number or `True` it raises.
   */
  function IsResale(prop: Json): (r: Result<bool, Crash>)
    ensures r.Failure? <==> !prop.JObj? || (var tag := GetOrNull(prop, "SECONDARY_TAGS");
                                          Truthy(tag) && !(tag.JArr? || tag.JStr? || tag.JObj?))
    ensures r == Success(true) ==> prop.JObj? && Get(prop, "SECONDARY_TAGS").Some? && Truthy(Get(prop, "SECONDARY_TAGS").value)
  {
    if !prop.JObj? then Failure(Crash("AttributeError: object has no attribute 'get'"))
    else
      var tag := GetOrNull(prop, "SECONDARY_TAGS");
      if !Truthy(tag) then Success(false)
      else match tag
        case JArr(items) => Success(JStr("RESALE") in items)
        case JStr(s) => Success(Find(s, "RESALE") >= 0)
        case JObj(fields) => Success(Lookup(fields, "RESALE").Some?)
        case _ => Failure(Crash("TypeError: argument is not iterable"))
  }

  /**
   * The listings the filter keeps, in order. The loop runs from the last
   * index down, so the tail is examined before the head and a failure
   * there is the one raised.
   */
  function Kept(props: seq<Json>): Result<seq<Json>, Crash>
    decreases |props|
  {
    if props == [] then Success([])
    else
      match Kept(props[1..])
      case Failure(e) => Failure(e)
      case Success(rest) =>
        match IsResale(props[0])
        case Failure(e) => Failure(e)
        case Success(keep) => Success(if keep then [props[0]] + rest else rest)
  }

  /** The backward `del props[i]` loop. */
  method FilterResale(props0: seq<Json>) returns (r: Result<seq<Json>, Crash>)
    ensures r == Kept(props0)
  {
    var props := props0;
    var i: nat := |props0|;
    while i > 0
      invariant i <= |props0|
      invariant i <= |props|
      invariant props[..i] == props0[..i]
      invariant Kept(props0[i..]) == Success(props[i..])
    {
      i := i - 1;
      var keep := IsResale(props[i]);
      FilterStep(props0, props, i);
      if keep.Failure? {
        KeptSuffixFailure(props0, i);
        return Failure(keep.error);
      }
      if !keep.value {
        var tail := props[i + 1..];
        props := props[..i] + tail;
        assert props[i..] == tail;
      }
    }
    assert props0[0..] == props0;
    return Success(props);
  }

  /**
   * One pass of the backward loop, on index `i`: the listing there is the
   * original one, and what the filter keeps from `i` on is the listing
   * followed by the kept tail, or the kept tail alone.
   */
  lemma FilterStep(props0: seq<Json>, props: seq<Json>, i: nat)
    requires i < |props0| && i < |props|
    requires props[..i + 1] == props0[..i + 1]
    requires Kept(props0[i + 1..]) == Success(props[i + 1..])
    ensures props[i] == props0[i]
    ensures IsResale(props[i]).Failure? ==> Kept(props0[i..]).Failure?
    ensures IsResale(props[i]).Success? ==>
      Kept(props0[i..]) == Success(if IsResale(props[i]).value then props[i..] else props[i + 1..])
  {
    assert props[..i + 1][i] == props0[..i + 1][i];
    KeptStep(props0, i);
    assert props[i..] == [props[i]] + props[i + 1..];
  }

  /** One step of the backward loop: the verdict on `props[i]` in front of what the tail keeps. */
  lemma KeptStep(props: seq<Json>, i: nat)
    requires i < |props|
    ensures Kept(props[i..]) ==
      match Kept(props[i + 1..])
      case Failure(e) => Failure(e)
      case Success(rest) =>
        match IsResale(props[i])
        case Failure(e) => Failure(e)
        case Success(keep) => Success(if keep then [props[i]] + rest else rest)
  {
    assert props[i..][1..] == props[i + 1..];
  }

  /** A failure in the tail is the filter's failure. */
  lemma {:induction false} KeptSuffixFailure(props: seq<Json>, i: nat)
    requires i <= |props| && Kept(props[i..]).Failure?
    ensures Kept(props) == Kept(props[i..])
    decreases i
  {
    if i > 0 {
      assert props[i - 1..][1..] == props[i..];
      KeptSuffixFailure(props, i - 1);
    } else {
      assert props[0..] == props;
    }
  }

  /** `sub` is `xs` with some items left out, the rest in their order. */
  predicate Subsequence(sub: seq<Json>, xs: seq<Json>)
    decreases |xs|
  {
    if sub == [] then true
    else if xs == [] then false
    else (sub[0] == xs[0] && Subsequence(sub[1..], xs[1..])) || Subsequence(sub, xs[1..])
  }

  /**
   * After the filter every listing has a truthy `SECONDARY_TAGS` that holds
   * `RESALE`, the survivors keep their relative order, and a listing that
   * holds it is never removed.
   */
  lemma {:induction false} KeptIsResale(props: seq<Json>)
    requires Kept(props).Success?
    ensures forall p :: p in Kept(props).value ==> IsResale(p) == Success(true)
    ensures Subsequence(Kept(props).value, props)
    ensures forall p :: p in props && IsResale(p) == Success(true) ==> p in Kept(props).value
    ensures forall p :: p in props ==> IsResale(p).Success?
    decreases |props|
  {
    if props != [] {
      KeptIsResale(props[1..]);
      assert forall p :: p in props <==> p == props[0] || p in props[1..];
    }
  }

  /* ---------- the output record (lines 283-393 of the resale scraper) ---------- */

  /**
   * The fields of `prop_obj` that depend on the listing. The constant ones
   * (`"type": "IMAGE"`, `"country": "India"`, the `None`s and so on) are
   * left out; `media` holds the `url` of each media entry, `bhk[n - 1]` is
   * `has_{n}bhk`, and `coordinates` is the pair printed into
   * `POINT(lat lon)`, or `None`.
   */
  datatype Listing = Listing(
    description: Json, status: Json, latitude: Json, longitude: Json, photoUrl: Json,
    media: seq<Json>,
    priceMax: Json, priceMin: Json, sqftPrice: Json,
    projectType: Json, gated: Json, amenities: Json, area: Json, created: Json,
    name: Json, address: Json, floors: Json, id: Json,
    minPrice: Json, maxPrice: Json,
    coordinates: Option<(Json, Json)>, updated: Json,
    bhk: seq<bool>, bhkPlus: bool)

  /** `prop.get(key, {})`, as a dict: anything else fails on the `.get` that follows. */
  function SubDict(prop: Json, key: string): (r: Result<Json, Crash>)
    requires prop.JObj?
    ensures r.Success? ==> r.value.JObj?
  {
    var d := Lookup(prop.fields, key).GetOr(JObj([]));
    if d.JObj? then Success(d) else Failure(Crash("AttributeError: object has no attribute 'get'"))
  }

  /** `prop.get("SECONDARY_TAGS", [None])[0]` */
  function Status(prop: Json): Result<Json, Crash>
    requires prop.JObj?
  {
    match Lookup(prop.fields, "SECONDARY_TAGS")
    case None => Success(JNull)
    case Some(tags) => First(tags)
  }

  /** `prop.get(key, []) or []` */
  function Images(prop: Json, key: string): Json {
    var v := GetOrNull(prop, key);
    if Truthy(v) then v else JArr([])
  }

  /**
   * The URLs the `media` comprehension iterates: the two values joined with
   * `+` (two lists, or two strings), then iterated. Any other pair raises
   * `TypeError`, at the `+` or, for two numbers, at iterating their sum.
   */
  function MediaUrls(a: Json, b: Json): (r: Result<seq<Json>, Crash>)
    ensures a.JArr? && b.JArr? ==> r == Success(a.items + b.items)
    ensures r.Success? <==> (a.JArr? && b.JArr?) || (a.JStr? && b.JStr?)
  {
    match (a, b)
    case (JArr(x), JArr(y)) => Success(x + y)
    case (JStr(x), JStr(y)) => Success(Iter(JStr(x + y)).value)
    case _ => Failure(Crash("TypeError: unsupported operand types for +"))
  }

  /** The string `'n'` for the digit `n`. */
  function Digit(n: nat): Json
    requires n < 10
  {
    JStr([(('0' as int) + n) as char])
  }

  /** `prop.get("BEDROOM_NUM", 0) == 'n'` for n = 1 .. 5, as `has_1bhk` .. `has_5bhk`. */
  function BhkFlags(bedrooms: Json): (flags: seq<bool>)
    ensures |flags| == 5
    ensures forall n :: 1 <= n <= 5 ==> (flags[n - 1] <==> bedrooms == Digit(n))
    ensures forall i, j :: 0 <= i < j < 5 ==> !(flags[i] && flags[j])
  {
    seq(5, k requires 0 <= k < 5 => bedrooms == Digit(k + 1))
  }

  /**
   * `prop_obj` for one dict. `prop["BEDROOM_NUM"]` must exist (`KeyError`);
   * `bed_num` is only ever bound to 0, so `has_5bhk_plus` is false. The
   * nested record `price` takes `MIN_PRICE` as its maximum and `MAX_PRICE`
   * as its minimum; the top-level prices are taken as they are.
   */
  function MapProp(prop: Json): (r: Result<Listing, Crash>)
    requires prop.JObj?
    ensures Lookup(prop.fields, "BEDROOM_NUM").None? ==> r.Failure?
    ensures r.Success? ==>
      var rec := r.value;
      && rec.priceMax == rec.minPrice && rec.priceMin == rec.maxPrice
      && !rec.bhkPlus
      && |rec.bhk| == 5
      && (forall i, j :: 0 <= i < j < 5 ==> !(rec.bhk[i] && rec.bhk[j]))
      && (forall n :: 1 <= n <= 5 ==> (rec.bhk[n - 1] <==> Lookup(prop.fields, "BEDROOM_NUM") == Some(Digit(n))))
  {
    match Index(prop, "BEDROOM_NUM")
    case Failure(e) => Failure(e)
    case Success(bedrooms) =>
      match Status(prop)
      case Failure(e) => Failure(e)
      case Success(status) =>
        match SubDict(prop, "MAP_DETAILS")
        case Failure(e) => Failure(e)
        case Success(mapDetails) =>
          match MediaUrls(Images(prop, "PROPERTY_IMAGES"), Images(prop, "THUMBNAIL_IMAGES"))
          case Failure(e) => Failure(e)
          case Success(media) =>
            match SubDict(prop, "xid")
            case Failure(e) => Failure(e)
            case Success(xid) =>
              match SubDict(prop, "location")
              case Failure(e) => Failure(e)
              case Success(location) =>
                var lat := GetOrNull(mapDetails, "LATITUDE");
                var lon := GetOrNull(mapDetails, "LONGITUDE");
                Success(Listing(
                  description := GetOrNull(prop, "DESCRIPTION"),
                  status := status,
                  latitude := lat,
                  longitude := lon,
                  photoUrl := GetOrNull(prop, "PHOTO_URL"),
                  media := media,
                  priceMax := GetOrNull(prop, "MIN_PRICE"),
                  priceMin := GetOrNull(prop, "MAX_PRICE"),
                  sqftPrice := GetOrNull(prop, "PRICE_SQFT"),
                  projectType := GetOrNull(prop, "PROPERTY_TYPE"),
                  gated := GetOrNull(prop, "GATED"),
                  amenities := GetOrNull(xid, "AMENITIES"),
                  area := GetOrNull(prop, "SUPERBUILTUP_SQFT"),
                  created := GetOrNull(prop, "POSTING_DATE__U"),
                  name := GetOrNull(prop, "PROP_NAME"),
                  address := GetOrNull(location, "ADDRESS"),
                  floors := GetOrNull(prop, "TOTAL_FLOOR"),
                  id := GetOrNull(prop, "PROP_ID"),
                  minPrice := GetOrNull(prop, "MIN_PRICE"),
                  maxPrice := GetOrNull(prop, "MAX_PRICE"),
                  coordinates := if Truthy(GetOrNull(prop, "MAP_DETAILS")) then Some((lat, lon)) else None,
                  updated := GetOrNull(prop, "UPDATE_DATE__U"),
                  bhk := BhkFlags(bedrooms),
                  bhkPlus := false))
  }

  /** `x` is absent, `null` or a list. */
  predicate ListOrAbsent(prop: Json, key: string) {
    GetOrNull(prop, key).JNull? || GetOrNull(prop, key).JArr?
  }

  /** The items of a list, none for an absent key or `null`. */
  function ItemsOrNone(prop: Json, key: string): seq<Json> {
    var v := GetOrNull(prop, key);
    if v.JArr? then v.items else []
  }

  /** `x` is absent or a dict. */
  predicate DictOrAbsent(prop: Json, key: string)
    requires prop.JObj?
  {
    Lookup(prop.fields, key).None? || Lookup(prop.fields, key).value.JObj?
  }

  /**
   * A well-formed listing maps without raising, and its media are the
   * property images followed by the thumbnails, `null` counting as none.
   */
  lemma MapPropSucceeds(prop: Json)
    requires prop.JObj? && Lookup(prop.fields, "BEDROOM_NUM").Some?
    requires Lookup(prop.fields, "SECONDARY_TAGS").None? ||
             (Lookup(prop.fields, "SECONDARY_TAGS").value.JArr? && Lookup(prop.fields, "SECONDARY_TAGS").value.items != [])
    requires DictOrAbsent(prop, "MAP_DETAILS") && DictOrAbsent(prop, "xid") && DictOrAbsent(prop, "location")
    requires ListOrAbsent(prop, "PROPERTY_IMAGES") && ListOrAbsent(prop, "THUMBNAIL_IMAGES")
    ensures MapProp(prop).Success?
    ensures MapProp(prop).value.media == ItemsOrNone(prop, "PROPERTY_IMAGES") + ItemsOrNone(prop, "THUMBNAIL_IMAGES")
  {
    assert Index(prop, "BEDROOM_NUM").Success?;
    assert Status(prop).Success?;
    assert SubDict(prop, "MAP_DETAILS").Success? && SubDict(prop, "xid").Success? && SubDict(prop, "location").Success?;
    MediaOfListing(prop);
  }

  /** Both image lists present (or absent) give the concatenated media. */
  lemma MediaOfListing(prop: Json)
    requires prop.JObj?
    requires ListOrAbsent(prop, "PROPERTY_IMAGES") && ListOrAbsent(prop, "THUMBNAIL_IMAGES")
    ensures MediaUrls(Images(prop, "PROPERTY_IMAGES"), Images(prop, "THUMBNAIL_IMAGES"))
            == Success(ItemsOrNone(prop, "PROPERTY_IMAGES") + ItemsOrNone(prop, "THUMBNAIL_IMAGES"))
  {
    var photos, thumbs := Images(prop, "PROPERTY_IMAGES"), Images(prop, "THUMBNAIL_IMAGES");
    assert photos == JArr(ItemsOrNone(prop, "PROPERTY_IMAGES"));
    assert thumbs == JArr(ItemsOrNone(prop, "THUMBNAIL_IMAGES"));
  }

  /** The fields of the dicts among `props`, in order. */
  function Dicts(props: seq<Json>): (ds: seq<Json>)
    ensures forall k :: 0 <= k < |ds| ==> ds[k].JObj?
    decreases |props|
  {
    if props == [] then []
    else
      var rest := Dicts(props[..|props| - 1]);
      if props[|props| - 1].JObj? then rest + [props[|props| - 1]] else rest
  }

  /** The records of one city's listings: non-dicts are skipped, the first failure is raised. */
  function MapListings(props: seq<Json>): Result<seq<Listing>, Crash>
    decreases |props|
  {
    if props == [] then Success([])
    else
      match MapListings(props[..|props| - 1])
      case Failure(e) => Failure(e)
      case Success(done) =>
        var prop := props[|props| - 1];
        if !prop.JObj? then Success(done)
        else match MapProp(prop)
          case Failure(e) => Failure(e)
          case Success(rec) => Success(done + [rec])
  }

  /** Each dict yields exactly one record, in order. */
  lemma {:induction false} OneRecordPerDict(props: seq<Json>)
    requires MapListings(props).Success?
    ensures var recs := MapListings(props).value;
      |recs| == |Dicts(props)| && forall k :: 0 <= k < |recs| ==> MapProp(Dicts(props)[k]) == Success(recs[k])
    decreases |props|
  {
    if props != [] {
      OneRecordPerDict(props[..|props| - 1]);
    }
  }

  /** The `for prop in props` loop over one city's listings. */
  method MapRecords(props: seq<Json>) returns (r: Result<seq<Listing>, Crash>)
    ensures r == MapListings(props)
  {
    var records: seq<Listing> := [];
    for i := 0 to |props|
      invariant MapListings(props[..i]) == Success(records)
    {
      assert props[..i + 1][..i] == props[..i];
      var prop := props[i];
      if !prop.JObj? {
        continue;
      }
      var rec := MapProp(prop);
      if rec.Failure? {
        MapListingsFailure(props, i + 1);
        return Failure(rec.error);
      }
      records := records + [rec.value];
    }
    assert props[..|props|] == props;
    return Success(records);
  }

  lemma {:induction false} MapListingsFailure(props: seq<Json>, n: nat)
    requires n <= |props| && MapListings(props[..n]).Failure?
    ensures MapListings(props) == MapListings(props[..n])
    decreases |props| - n
  {
    if n < |props| {
      assert props[..n + 1][..n] == props[..n];
      MapListingsFailure(props, n + 1);
    } else {
      assert props[..n] == props;
    }
  }

  /** The number of dicts over all cities. */
  function DictCount(groups: seq<seq<Json>>): nat
    decreases |groups|
  {
    if groups == [] then 0 else DictCount(groups[..|groups| - 1]) + |Dicts(groups[|groups| - 1])|
  }

  /** `final_json_format`: the records of every city's listings, city after city. */
  function AllRecords(groups: seq<seq<Json>>): Result<seq<Listing>, Crash>
    decreases |groups|
  {
    if groups == [] then Success([])
    else
      match AllRecords(groups[..|groups| - 1])
      case Failure(e) => Failure(e)
      case Success(done) =>
        match MapListings(groups[|groups| - 1])
        case Failure(e) => Failure(e)
        case Success(recs) => Success(done + recs)
  }

  /** One record for each dict of each city. */
  lemma {:induction false} AllRecordsCount(groups: seq<seq<Json>>)
    requires AllRecords(groups).Success?
    ensures |AllRecords(groups).value| == DictCount(groups)
    decreases |groups|
  {
    if groups != [] {
      AllRecordsCount(groups[..|groups| - 1]);
      OneRecordPerDict(groups[|groups| - 1]);
    }
  }

  /** The `for tag in all_scraped_data.keys()` loop that builds `final_json_format`, the cities in dict order. */
  method FinalRecords(groups: seq<seq<Json>>) returns (r: Result<seq<Listing>, Crash>)
    ensures r == AllRecords(groups)
  {
    var all: seq<Listing> := [];
    for i := 0 to |groups|
      invariant AllRecords(groups[..i]) == Success(all)
    {
      assert groups[..i + 1][..i] == groups[..i];
      var recs := MapRecords(groups[i]);
      if recs.Failure? {
        AllRecordsFailure(groups, i + 1);
        return Failure(recs.error);
      }
      all := all + recs.value;
    }
    assert groups[..|groups|] == groups;
    return Success(all);
  }

  lemma {:induction false} AllRecordsFailure(groups: seq<seq<Json>>, n: nat)
    requires n <= |groups| && AllRecords(groups[..n]).Failure?
    ensures AllRecords(groups) == AllRecords(groups[..n])
    decreases |groups| - n
  {
    if n < |groups| {
      assert groups[..n + 1][..n] == groups[..n];
      AllRecordsFailure(groups, n + 1);
    } else {
      assert groups[..n] == groups;
    }
  }
}
