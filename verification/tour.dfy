/**
 * The list aggregator (`GET /:type`): category validation, the result-cache
 * key, the upstream list call, per-item detail through the lazily filled
 * detail cache, the field merge, and the page cache.
 */
module TourRouter {
  import opened Js
  import opened Upstream

  // ---------------------------------------------------------------------
  // Categories and request parameters

  /** The keys of `apiMap`. */
  const Categories: seq<string> := ["event", "stay", "trip", "food", "cafe", "culture", "leisure", "shop"]

  /** The endpoint `apiMap` gives an own key; `None` is the 400 `invalid type`. */
  function ApiFor(category: string): (r: Option<string>)
    ensures r.Some? <==> category in Categories
    ensures category == "event" ==> r == Some(ApiBase + "/searchFestival2")
    ensures category == "stay" ==> r == Some(ApiBase + "/searchStay2")
    ensures category in Categories && category != "event" && category != "stay" ==> r == Some(AreaBasedListApi)
  {
    if category == "event" then Some(ApiBase + "/searchFestival2")
    else if category == "stay" then Some(ApiBase + "/searchStay2")
    else if category in Categories then Some(AreaBasedListApi)
    else None
  }

  /** The guard as the handler writes it, `if (!apiMap[type])`: an inherited
      member is a truthy function or object, so it passes too. */
  predicate PassesTypeGuardAsWritten(category: string)
  {
    category in Categories || category in ObjectPrototypeMembers
  }

  /** `GET /toString` is not a category, yet the handler's guard lets it
      through to the cache lookup and the list call instead of answering 400. */
  lemma InheritedNamePassesTypeGuard()
    ensures ApiFor("toString").None?
    ensures PassesTypeGuardAsWritten("toString")
  {
  }

  /** `const { numOfRows = 20, pageNo = 1 } = req.query`: the query string, or
      the numeric default when the parameter is absent. */
  function QueryOr(q: Option<string>, default: int): (v: Value)
    ensures q.Some? ==> v == Str(q.value)
    ensures q.None? ==> v == Num(default)
  {
    if q.Some? then Str(q.value) else Num(default)
  }

  /** The page-cache key `${type}_${pageNo}_${numOfRows}`. */
  function CacheKey(category: string, pageNo: Value, numOfRows: Value): string
  {
    category + "_" + ToJsString(pageNo) + "_" + ToJsString(numOfRows)
  }

  /** Two strings joined at an underscore split back at the first one. */
  lemma {:induction false} SplitAtFirstUnderscore(a: string, b: string, a': string, b': string)
    requires '_' !in a && '_' !in a'
    requires a + "_" + b == a' + "_" + b'
    ensures a == a' && b == b'
  {
    var k := a + "_" + b;
    if |a| < |a'| {
      UnderscoreEndsPrefix(a, b, a', b');
      assert false;
    } else if |a'| < |a| {
      UnderscoreEndsPrefix(a', b', a, b);
      assert false;
    } else {
      assert a == k[..|a|] == a';
      assert b == k[|a| + 1..] == b';
    }
  }

  lemma UnderscoreEndsPrefix(a: string, b: string, a': string, b': string)
    requires '_' !in a' && |a| < |a'|
    ensures a + "_" + b != a' + "_" + b'
  {
    assert (a + "_" + b)[|a|] == '_';
    assert (a' + "_" + b')[|a|] == a'[|a|];
  }

  /** The key determines the request it stands for, as long as the page
      number contains no underscore (category names never do). */
  lemma CacheKeyInjective(c: string, p: string, n: string, c': string, p': string, n': string)
    requires c in Categories && c' in Categories
    requires '_' !in p && '_' !in p'
    requires CacheKey(c, Str(p), Str(n)) == CacheKey(c', Str(p'), Str(n'))
    ensures c == c' && p == p' && n == n'
  {
    assert '_' !in c && '_' !in c';
    assert ToJsString(Str(p)) == p && ToJsString(Str(n)) == n;
    assert ToJsString(Str(p')) == p' && ToJsString(Str(n')) == n';
    assert CacheKey(c, Str(p), Str(n)) == c + "_" + (p + "_" + n);
    assert CacheKey(c', Str(p'), Str(n')) == c' + "_" + (p' + "_" + n');
    SplitAtFirstUnderscore(c, p + "_" + n, c', p' + "_" + n');
    SplitAtFirstUnderscore(p, n, p', n');
  }

  /** The list call's query parameters: the common ones, then the
      category-specific filter spread over them. */
  function ListParams(category: string, pageNo: Value, numOfRows: Value, today: string): map<string, Value>
  {
    BaseListParams(pageNo, numOfRows) + CategoryFilter(category, today)
  }

  /** The parameters every list call carries (`_type` is added by the list
      fetcher). */
  function BaseListParams(pageNo: Value, numOfRows: Value): map<string, Value>
  {
    map[
      "_type" := Str("json"),
      "numOfRows" := numOfRows,
      "pageNo" := pageNo,
      "MobileOS" := Str("ETC"),
      "MobileApp" := Str("AppTest"),
      "arrange" := Str("Q"),
      "areaCode" := Str("1")]
  }

  /** The conditional spreads: the event start date, or the content type
      (with the café sub-categories). */
  function CategoryFilter(category: string, today: string): map<string, Value>
  {
    if category == "event" then map["eventStartDate" := Str(today)]
    else if category == "trip" then map["contentTypeId" := Num(12)]
    else if category == "food" then map["contentTypeId" := Num(39)]
    else if category == "cafe" then
      map["contentTypeId" := Num(39)]["cat1" := Str("A05")]["cat2" := Str("A0502")]["cat3" := Str("A05020900")]
    else if category == "culture" then map["contentTypeId" := Num(14)]
    else if category == "leisure" then map["contentTypeId" := Num(28)]
    else if category == "shop" then map["contentTypeId" := Num(38)]
    else map[]
  }

  /** The content-type discriminator of each category (`stay` and `event`
      have none). */
  function ContentTypeIdFor(category: string): Option<int>
  {
    match category
    case "trip" => Some(12)
    case "food" => Some(39)
    case "cafe" => Some(39)
    case "culture" => Some(14)
    case "leisure" => Some(28)
    case "shop" => Some(38)
    case _ => None
  }

  const CommonListParams: set<string> := {"_type", "numOfRows", "pageNo", "MobileOS", "MobileApp", "arrange", "areaCode"}

  /**
   * Every list call carries the common parameters with the requested page,
   * and the category filter on top; nothing else is sent.
   */
  lemma ListParamsSpread(category: string, pageNo: Value, numOfRows: Value, today: string)
    ensures var p := ListParams(category, pageNo, numOfRows, today);
      var f := CategoryFilter(category, today);
      && p["numOfRows"] == numOfRows && p["pageNo"] == pageNo
      && p["_type"] == Str("json") && p["areaCode"] == Str("1") && p["arrange"] == Str("Q")
      && (forall k :: k in f ==> k in p && p[k] == f[k])
      && (forall k :: k in p && k !in CommonListParams ==> k in f)
  {
    CategoryFilterKeys(category, today);
    BaseAndFilter(pageNo, numOfRows, CategoryFilter(category, today));
  }

  lemma BaseAndFilter(pageNo: Value, numOfRows: Value, f: map<string, Value>)
    requires f.Keys <= FilterKeys
    ensures var p := BaseListParams(pageNo, numOfRows) + f;
      && p["numOfRows"] == numOfRows && p["pageNo"] == pageNo
      && p["_type"] == Str("json") && p["areaCode"] == Str("1") && p["arrange"] == Str("Q")
      && (forall k :: k in p && k !in CommonListParams ==> k in f)
  {
    BaseKeys(pageNo, numOfRows);
    FilterKeysApart();
  }

  lemma BaseKeys(pageNo: Value, numOfRows: Value)
    ensures BaseListParams(pageNo, numOfRows).Keys == CommonListParams
  {
  }

  /** No filter key overrides a page or format parameter. */
  lemma FilterKeysApart()
    ensures "numOfRows" !in FilterKeys && "pageNo" !in FilterKeys && "_type" !in FilterKeys
    ensures "areaCode" !in FilterKeys && "arrange" !in FilterKeys
  {
  }

  const FilterKeys: set<string> := {"contentTypeId", "eventStartDate", "cat1", "cat2", "cat3"}

  lemma CategoryFilterKeys(category: string, today: string)
    ensures CategoryFilter(category, today).Keys <= FilterKeys
  {
  }

  /** The filter of each category. */
  lemma CategoryFilterExact(category: string, today: string)
    requires category in Categories
    ensures var f := CategoryFilter(category, today);
      && ("contentTypeId" in f <==> ContentTypeIdFor(category).Some?)
      && ("contentTypeId" in f ==> f["contentTypeId"] == Num(ContentTypeIdFor(category).value))
      && ("eventStartDate" in f <==> category == "event")
      && ("eventStartDate" in f ==> f["eventStartDate"] == Str(today))
      && ("cat1" in f <==> category == "cafe")
      && (category == "cafe" ==> f["cat1"] == Str("A05") && f["cat2"] == Str("A0502") && f["cat3"] == Str("A05020900"))
  {
  }

  // ---------------------------------------------------------------------
  // getToday

  /** `String(x).padStart(2, '0')` */
  function Pad2(s: string): (r: string)
    decreases 2 - |s|
  {
    if |s| >= 2 then s else Pad2("0" + s)
  }

  /** `getToday` for the given calendar date: year, zero-padded month, zero-padded day. */
  function Today(year: nat, month: nat, day: nat): string
  {
    NatToString(year) + Pad2(NatToString(month)) + Pad2(NatToString(day))
  }

  /** A one- or two-digit number padded to two digits reads back as itself. */
  lemma {:induction false} Pad2Number(n: nat)
    requires n < 100
    ensures var p := Pad2(NatToString(n)); |p| == 2 && AllDigits(p) && DigitsValue(p) == n
  {
    NatToStringRoundTrip(n);
    if n < 10 {
      var s := NatToString(n);
      assert Pad2(s) == "0" + s;
      assert ("0" + s)[..1] == "0";
    } else {
      NatToStringLength(n, 2);
    }
  }

  /** For a four-digit year, `getToday` is an eight-digit `YYYYMMDD` string
      from which year, month and day read back. */
  lemma TodayFormat(year: nat, month: nat, day: nat)
    requires 1000 <= year <= 9999 && 1 <= month <= 12 && 1 <= day <= 31
    ensures var t := Today(year, month, day);
      && |t| == 8 && AllDigits(t)
      && DigitsValue(t[..4]) == year
      && DigitsValue(t[4..6]) == month
      && DigitsValue(t[6..]) == day
  {
    assert Pow10(1) == 10 && Pow10(2) == 100 && Pow10(3) == 1000 && Pow10(4) == 10000;
    NatToStringLength(year, 4);
    NatToStringRoundTrip(year);
    Pad2Number(month);
    Pad2Number(day);
    var y, m, d := NatToString(year), Pad2(NatToString(month)), Pad2(NatToString(day));
    var t := y + m + d;
    assert t[..4] == y && t[4..6] == m && t[6..] == d;
  }

  // ---------------------------------------------------------------------
  // Detail fetch and merge

  /** `fetchDetail`: the envelope's item, `{}` when absent or falsy, its first
      element when it is an array; a failed call yields `{}`. */
  function DetailOf(reply: Reply): Value
  {
    match reply
    case Failed(_) => Obj(map[])
    case Ok(data) => FirstIfArray(Or(ItemOf(data), Obj(map[])))
  }

  function ContentId(item: Value): Value
  {
    Get(item, "contentid")
  }

  /** An item that needs a detail lookup: readable (not nullish) and with a
      truthy `contentid`. */
  predicate NeedsDetail(item: Value)
  {
    !Nullish(item) && Truthy(ContentId(item))
  }

  /** The record of an item without `contentid`: the item with empty
      `overview` and `homepage`. */
  function WithoutDetail(item: Value): Value
  {
    Obj(Spread(item)["overview" := Str("")]["homepage" := Str("")])
  }

  /**
   * The record of an item with a `contentid` and the detail the cache gave.
   * A nullish detail (a cached `undefined` from an empty array) makes the
   * property reads throw; the handler's catch then builds the record from the
   * item's own images.
   */
  function Enrich(item: Value, detail: Value): Value
  {
    if Nullish(detail) then
      Obj(Spread(item)
        ["overview" := Str("")]
        ["homepage" := Str("")]
        ["firstimage" := Or(Get(item, "firstimage"), Str(""))]
        ["firstimage2" := Or(Get(item, "firstimage2"), Str(""))])
    else
      Obj(Spread(item)
        ["overview" := Or(Get(detail, "overview"), Str(""))]
        ["homepage" := Or(Get(detail, "homepage"), Str(""))]
        ["firstimage" := Or(Get(detail, "firstimage"), Or(Get(item, "firstimage"), Str("")))]
        ["firstimage2" := Or(Get(detail, "firstimage2"), Or(Get(item, "firstimage2"), Str("")))])
  }

  const MergedFields: set<string> := {"overview", "homepage", "firstimage", "firstimage2"}

  /**
   * The merge rule: `overview` and `homepage` are the detail's value when
   * truthy and `''` otherwise; each image is the detail's when truthy, else
   * the item's when truthy, else `''`; every other field of the item is kept
   * as it is, and no other field appears. A missing detail merges exactly like
   * an empty one.
   */
  lemma EnrichExact(item: Value, detail: Value)
    ensures var r := Enrich(item, detail);
      && r.Obj?
      && r.fields.Keys == Spread(item).Keys + MergedFields
      && (forall k :: k in Spread(item) && k !in MergedFields ==> r.fields[k] == Spread(item)[k])
      && r.fields["overview"] == (if Truthy(Get(detail, "overview")) then Get(detail, "overview") else Str(""))
      && r.fields["homepage"] == (if Truthy(Get(detail, "homepage")) then Get(detail, "homepage") else Str(""))
      && r.fields["firstimage"] == (if Truthy(Get(detail, "firstimage")) then Get(detail, "firstimage")
                                    else if Truthy(Get(item, "firstimage")) then Get(item, "firstimage")
                                    else Str(""))
      && r.fields["firstimage2"] == (if Truthy(Get(detail, "firstimage2")) then Get(detail, "firstimage2")
                                     else if Truthy(Get(item, "firstimage2")) then Get(item, "firstimage2")
                                     else Str(""))
    ensures Nullish(detail) ==> Enrich(item, detail) == Enrich(item, Obj(map[]))
  {
    EnrichKeeps(item, detail);
    EnrichMerged(item, detail);
    if Nullish(detail) {
      EnrichMissing(item, detail);
    }
  }

  lemma EnrichKeeps(item: Value, detail: Value)
    ensures var r := Enrich(item, detail);
      && r.Obj?
      && r.fields.Keys == Spread(item).Keys + MergedFields
      && (forall k :: k in Spread(item) && k !in MergedFields ==> r.fields[k] == Spread(item)[k])
  {
  }

  lemma EnrichMerged(item: Value, detail: Value)
    ensures var r := Enrich(item, detail);
      && r.Obj? && MergedFields <= r.fields.Keys
      && r.fields["overview"] == Or(Get(detail, "overview"), Str(""))
      && r.fields["homepage"] == Or(Get(detail, "homepage"), Str(""))
      && r.fields["firstimage"] == Or(Get(detail, "firstimage"), Or(Get(item, "firstimage"), Str("")))
      && r.fields["firstimage2"] == Or(Get(detail, "firstimage2"), Or(Get(item, "firstimage2"), Str("")))
  {
  }

  lemma EnrichMissing(item: Value, detail: Value)
    requires Nullish(detail)
    ensures Enrich(item, detail) == Enrich(item, Obj(map[]))
  {
  }

  // ---------------------------------------------------------------------
  // The detail cache

  /** The outcome of `fetchDetailCached`: the detail, the cache afterwards and
      the identifiers fetched (none or one). */
  datatype Lookup = Lookup(detail: Value, cache: map<Value, Value>, fetched: seq<Value>)

  /** `fetchDetailCached`: a hit returns the stored value and fetches nothing;
      a miss fetches once and stores exactly what `fetchDetail` returned. */
  function DetailLookup(cache: map<Value, Value>, id: Value, answer: Request -> Reply): (l: Lookup)
    ensures id in cache ==> l == Lookup(cache[id], cache, [])
    ensures id !in cache ==> l.fetched == [id] && l.detail == DetailOf(answer(DetailRequest(id)))
                             && l.cache == cache[id := l.detail]
  {
    if id in cache then Lookup(cache[id], cache, [])
    else
      var d := DetailOf(answer(DetailRequest(id)));
      Lookup(d, cache[id := d], [id])
  }

  /** Once looked up, an identifier is never fetched again and its value never
      changes, whatever the first fetch returned. */
  lemma DetailLookupSettles(cache: map<Value, Value>, id: Value, answer: Request -> Reply)
    ensures var l := DetailLookup(cache, id, answer);
      && DetailLookup(l.cache, id, answer) == Lookup(l.detail, l.cache, [])
      && (forall k :: k in cache ==> k in l.cache && l.cache[k] == cache[k])
  {
  }

  // ---------------------------------------------------------------------
  // mergeData

  /** One item's outcome: its record, or the `TypeError` of reading
      `item.contentid` on a null item, which rejects `Promise.all`. */
  datatype ItemOutcome = Merged(record: Value) | Threw

  datatype MergeState = MergeState(outcomes: seq<ItemOutcome>, cache: map<Value, Value>, fetched: seq<Value>)

  /** One item of `mergeData`: its outcome, the detail cache afterwards and
      the identifiers fetched for it. */
  datatype ItemStep = ItemStep(outcome: ItemOutcome, cache: map<Value, Value>, fetched: seq<Value>)

  function MergeOneSpec(cache: map<Value, Value>, item: Value, answer: Request -> Reply): ItemStep
  {
    if Nullish(item) then ItemStep(Threw, cache, [])
    else if !Truthy(ContentId(item)) then ItemStep(Merged(WithoutDetail(item)), cache, [])
    else
      var l := DetailLookup(cache, ContentId(item), answer);
      ItemStep(Merged(Enrich(item, l.detail)), l.cache, l.fetched)
  }

  function MergeItem(st: MergeState, item: Value, answer: Request -> Reply): MergeState
  {
    var s := MergeOneSpec(st.cache, item, answer);
    MergeState(st.outcomes + [s.outcome], s.cache, st.fetched + s.fetched)
  }

  /** `mergeData` run item by item in list order: outcomes, detail cache
      afterwards, identifiers fetched. */
  function MergeAll(items: seq<Value>, cache: map<Value, Value>, answer: Request -> Reply): MergeState
    decreases |items|
  {
    if items == [] then MergeState([], cache, [])
    else MergeItem(MergeAll(items[..|items| - 1], cache, answer), items[|items| - 1], answer)
  }

  /** The outcome an item has, given the detail cache. */
  function OutcomeWith(item: Value, cache: map<Value, Value>): ItemOutcome
  {
    if Nullish(item) then Threw
    else if !Truthy(ContentId(item)) then Merged(WithoutDetail(item))
    else Merged(Enrich(item, if ContentId(item) in cache then cache[ContentId(item)] else Undefined))
  }

  /** The identifiers a list needs details for. */
  ghost function IdsOf(items: seq<Value>): set<Value>
  {
    set x | x in items && NeedsDetail(x) :: ContentId(x)
  }

  lemma IdsOfSnoc(items: seq<Value>, x: Value)
    ensures IdsOf(items + [x]) == IdsOf(items) + (if NeedsDetail(x) then {ContentId(x)} else {})
  {
    assert forall y :: y in items + [x] <==> y in items || y == x;
  }

  /**
   * The detail cache after `mergeData`: old entries are untouched; the new
   * keys are exactly the needed identifiers that were missing; each new entry
   * is what `fetchDetail` returned for it. Each missing identifier is fetched
   * exactly once, and nothing else is fetched.
   */
  lemma MergeAllCache(items: seq<Value>, cache: map<Value, Value>, answer: Request -> Reply)
    ensures var st := MergeAll(items, cache, answer);
      && (forall k :: k in cache ==> k in st.cache && st.cache[k] == cache[k])
      && st.cache.Keys == cache.Keys + IdsOf(items)
      && (forall k :: k in st.cache && k !in cache ==> st.cache[k] == DetailOf(answer(DetailRequest(k))))
      && NoDuplicates(st.fetched)
      && (forall k :: k in st.fetched <==> k in IdsOf(items) && k !in cache)
  {
    MergeAllEntries(items, cache, answer);
    MergeAllFetched(items, cache, answer);
  }

  lemma MergeAllEntries(items: seq<Value>, cache: map<Value, Value>, answer: Request -> Reply)
    ensures var st := MergeAll(items, cache, answer);
      && (forall k :: k in cache ==> k in st.cache && st.cache[k] == cache[k])
      && st.cache.Keys == cache.Keys + IdsOf(items)
      && (forall k :: k in st.cache && k !in cache ==> st.cache[k] == DetailOf(answer(DetailRequest(k))))
  {
    MergeAllKeys(items, cache, answer);
    MergeAllValues(items, cache, answer);
  }

  lemma {:induction false} MergeAllKeys(items: seq<Value>, cache: map<Value, Value>, answer: Request -> Reply)
    ensures MergeAll(items, cache, answer).cache.Keys == cache.Keys + IdsOf(items)
    decreases |items|
  {
    if items != [] {
      var init, x := items[..|items| - 1], items[|items| - 1];
      MergeAllKeys(init, cache, answer);
      IdsOfSnoc(init, x);
      assert items == init + [x];
      MergeItemCache(MergeAll(init, cache, answer), x, answer);
    }
  }

  lemma {:induction false} MergeAllValues(items: seq<Value>, cache: map<Value, Value>, answer: Request -> Reply)
    ensures var st := MergeAll(items, cache, answer);
      && (forall k :: k in cache ==> k in st.cache && st.cache[k] == cache[k])
      && (forall k :: k in st.cache && k !in cache ==> st.cache[k] == DetailOf(answer(DetailRequest(k))))
    decreases |items|
  {
    if items != [] {
      var init, x := items[..|items| - 1], items[|items| - 1];
      MergeAllValues(init, cache, answer);
      MergeItemCache(MergeAll(init, cache, answer), x, answer);
    }
  }

  lemma {:induction false} MergeAllFetched(items: seq<Value>, cache: map<Value, Value>, answer: Request -> Reply)
    ensures var st := MergeAll(items, cache, answer);
      && NoDuplicates(st.fetched)
      && (forall k :: k in st.fetched <==> k in IdsOf(items) && k !in cache)
    decreases |items|
  {
    if items != [] {
      var init, x := items[..|items| - 1], items[|items| - 1];
      MergeAllFetched(init, cache, answer);
      MergeAllEntries(init, cache, answer);
      IdsOfSnoc(init, x);
      assert items == init + [x];
      MergeItemCache(MergeAll(init, cache, answer), x, answer);
    }
  }

  /** One step of `mergeData` on the cache: a needed identifier that is
      missing is fetched once and stored; otherwise nothing changes. */
  lemma MergeItemCache(st: MergeState, x: Value, answer: Request -> Reply)
    ensures var st' := MergeItem(st, x, answer);
      if NeedsDetail(x) && ContentId(x) !in st.cache then
        && st'.cache == st.cache[ContentId(x) := DetailOf(answer(DetailRequest(ContentId(x))))]
        && st'.fetched == st.fetched + [ContentId(x)]
      else st'.cache == st.cache && st'.fetched == st.fetched
  {
  }

  /** One step of `mergeData`: the item's outcome is appended, computed from
      the cache afterwards, which keeps every old entry and holds the item's
      identifier when it needs one. */
  lemma MergeItemStep(st: MergeState, x: Value, answer: Request -> Reply)
    ensures var st' := MergeItem(st, x, answer);
      && st'.outcomes == st.outcomes + [OutcomeWith(x, st'.cache)]
      && (forall k :: k in st.cache ==> k in st'.cache && st'.cache[k] == st.cache[k])
      && (NeedsDetail(x) ==> ContentId(x) in st'.cache)
  {
  }

  /** An outcome computed from a cache that already holds the item's
      identifier does not change as the cache grows. */
  lemma OutcomeStable(item: Value, c0: map<Value, Value>, c1: map<Value, Value>)
    requires NeedsDetail(item) ==> ContentId(item) in c0
    requires forall k :: k in c0 ==> k in c1 && c1[k] == c0[k]
    ensures OutcomeWith(item, c0) == OutcomeWith(item, c1)
  {
  }

  /** After `mergeData`, every identifier the list needed is cached. */
  lemma {:induction false} MergeAllCovers(items: seq<Value>, cache: map<Value, Value>, answer: Request -> Reply)
    ensures var st := MergeAll(items, cache, answer);
      forall i :: 0 <= i < |items| && NeedsDetail(items[i]) ==> ContentId(items[i]) in st.cache
    decreases |items|
  {
    if items != [] {
      var init, x := items[..|items| - 1], items[|items| - 1];
      MergeAllCovers(init, cache, answer);
      MergeItemStep(MergeAll(init, cache, answer), x, answer);
      assert forall i :: 0 <= i < |init| ==> items[i] == init[i];
    }
  }

  /**
   * `mergeData` keeps length and order: position i of the result depends only
   * on item i and the detail cache afterwards, not on the other items or on
   * when its detail arrived.
   */
  lemma {:induction false} MergeAllOutcomes(items: seq<Value>, cache: map<Value, Value>, answer: Request -> Reply)
    ensures var st := MergeAll(items, cache, answer);
      && |st.outcomes| == |items|
      && forall i :: 0 <= i < |items| ==> st.outcomes[i] == OutcomeWith(items[i], st.cache)
    decreases |items|
  {
    if items != [] {
      var init, x := items[..|items| - 1], items[|items| - 1];
      var st0 := MergeAll(init, cache, answer);
      var st := MergeItem(st0, x, answer);
      MergeAllOutcomes(init, cache, answer);
      MergeAllCovers(init, cache, answer);
      MergeItemStep(st0, x, answer);
      forall i | 0 <= i < |init|
        ensures st.outcomes[i] == OutcomeWith(items[i], st.cache)
      {
        assert items[i] == init[i];
        OutcomeStable(init[i], st0.cache, st.cache);
      }
    }
  }

  /** When every needed identifier is cached, `mergeData` fetches nothing and
      leaves the detail cache as it was. */
  lemma CachedListFetchesNothing(items: seq<Value>, cache: map<Value, Value>, answer: Request -> Reply)
    requires IdsOf(items) <= cache.Keys
    ensures MergeAll(items, cache, answer).fetched == []
    ensures MergeAll(items, cache, answer).cache == cache
  {
    MergeAllCache(items, cache, answer);
  }

  predicate AllMerged(outcomes: seq<ItemOutcome>)
  {
    forall i :: 0 <= i < |outcomes| ==> outcomes[i].Merged?
  }

  function Records(outcomes: seq<ItemOutcome>): (r: seq<Value>)
    requires AllMerged(outcomes)
    ensures |r| == |outcomes|
    ensures forall i :: 0 <= i < |r| ==> r[i] == outcomes[i].record
  {
    if outcomes == [] then [] else Records(outcomes[..|outcomes| - 1]) + [outcomes[|outcomes| - 1].record]
  }

  // ---------------------------------------------------------------------
  // The handler

  const InvalidType := Response(400, Obj(map["error" := Str("invalid type")]))
  const ApiFailure := Response(500, Obj(map["error" := Str("API 호출 실패")]))

  /** What one `GET /:type` returns, the two caches afterwards, and the
      upstream requests it made, in order. */
  datatype TourRun = TourRun(response: Response, detailCache: map<Value, Value>,
                             itemsCache: map<string, seq<Value>>, trace: seq<Request>)

  function ListRequest(category: string, pageNo: Value, numOfRows: Value, today: string): Request
    requires category in Categories
  {
    Request(ApiFor(category).value, ListParams(category, pageNo, numOfRows, today))
  }

  /** The part of the handler after a page-cache miss: the list call, the
      empty-list rule, `mergeData`, and storing the merged page. */
  function LoadPageSpec(category: string, pageNo: Value, numOfRows: Value, today: string,
                        detailCache: map<Value, Value>, itemsCache: map<string, seq<Value>>,
                        answer: Request -> Reply): TourRun
    requires category in Categories
  {
    var key := CacheKey(category, pageNo, numOfRows);
    var req := ListRequest(category, pageNo, numOfRows, today);
    match answer(req)
    case Failed(_) => TourRun(ApiFailure, detailCache, itemsCache, [req])
    case Ok(data) =>
      var items := NormaliseItems(ItemOf(data));
      if items == [] then TourRun(Response(200, Arr([])), detailCache, itemsCache, [req])
      else
        var page := MergePageSpec(key, items, detailCache, itemsCache, answer);
        page.(trace := [req] + page.trace)
  }

  /** `mergeData` over a non-empty list and the page store: a rejected
      `mergeData` is a 500 that stores nothing. */
  function MergePageSpec(key: string, items: seq<Value>, detailCache: map<Value, Value>,
                         itemsCache: map<string, seq<Value>>, answer: Request -> Reply): TourRun
  {
    var st := MergeAll(items, detailCache, answer);
    var trace := DetailRequests(st.fetched);
    if AllMerged(st.outcomes) then
      TourRun(Response(200, Arr(Records(st.outcomes))), st.cache, itemsCache[key := Records(st.outcomes)], trace)
    else TourRun(ApiFailure, st.cache, itemsCache, trace)
  }

  function HandleTypeSpec(category: string, pageNoQ: Option<string>, numOfRowsQ: Option<string>, today: string,
                          detailCache: map<Value, Value>, itemsCache: map<string, seq<Value>>,
                          answer: Request -> Reply): TourRun
  {
    if ApiFor(category).None? then TourRun(InvalidType, detailCache, itemsCache, [])
    else
      var pageNo, numOfRows := QueryOr(pageNoQ, 1), QueryOr(numOfRowsQ, 20);
      var key := CacheKey(category, pageNo, numOfRows);
      if key in itemsCache then TourRun(Response(200, Arr(itemsCache[key])), detailCache, itemsCache, [])
      else LoadPageSpec(category, pageNo, numOfRows, today, detailCache, itemsCache, answer)
  }

  /**
   * What each request does to the page cache and the upstream: an unknown
   * category is a 400 that touches nothing and fetches nothing; a cached page
   * is returned with no fetch; otherwise the list call comes first, and the
   * page cache changes only by storing a non-empty merged page under the
   * request's key, which is then the response. A failed list call is the
   * 500 with both caches unchanged and only the list call made, and a 500
   * never changes the page cache.
   */
  lemma HandleTypeEffects(category: string, pageNoQ: Option<string>, numOfRowsQ: Option<string>, today: string,
                          detailCache: map<Value, Value>, itemsCache: map<string, seq<Value>>,
                          answer: Request -> Reply)
    ensures var run := HandleTypeSpec(category, pageNoQ, numOfRowsQ, today, detailCache, itemsCache, answer);
      var key := CacheKey(category, QueryOr(pageNoQ, 1), QueryOr(numOfRowsQ, 20));
      && (category !in Categories ==> run == TourRun(InvalidType, detailCache, itemsCache, []))
      && (category in Categories && key in itemsCache ==>
            run == TourRun(Response(200, Arr(itemsCache[key])), detailCache, itemsCache, []))
      && (category in Categories && key !in itemsCache ==>
            |run.trace| >= 1 && run.trace[0] == ListRequest(category, QueryOr(pageNoQ, 1), QueryOr(numOfRowsQ, 20), today))
      && (category in Categories && key !in itemsCache &&
          answer(ListRequest(category, QueryOr(pageNoQ, 1), QueryOr(numOfRowsQ, 20), today)).Failed? ==>
            run == TourRun(ApiFailure, detailCache, itemsCache,
                           [ListRequest(category, QueryOr(pageNoQ, 1), QueryOr(numOfRowsQ, 20), today)]))
      && (run.itemsCache == itemsCache ||
            (key !in itemsCache && key in run.itemsCache && run.itemsCache == itemsCache[key := run.itemsCache[key]]
             && |run.itemsCache[key]| > 0 && run.response == Response(200, Arr(run.itemsCache[key]))))
      && (run.response.status == 500 ==> run.itemsCache == itemsCache)
  {
    var run := HandleTypeSpec(category, pageNoQ, numOfRowsQ, today, detailCache, itemsCache, answer);
    if category in Categories {
      var pageNo, numOfRows := QueryOr(pageNoQ, 1), QueryOr(numOfRowsQ, 20);
      var key := CacheKey(category, pageNo, numOfRows);
      if key !in itemsCache {
        var req := ListRequest(category, pageNo, numOfRows, today);
        if answer(req).Ok? {
          var items := NormaliseItems(ItemOf(answer(req).data));
          if items != [] {
            MergePageEffects(key, items, detailCache, itemsCache, answer);
          }
        }
      }
    }
  }

  /** `mergeData` returns one outcome per item. */
  lemma {:induction false} MergeAllLength(items: seq<Value>, cache: map<Value, Value>, answer: Request -> Reply)
    ensures |MergeAll(items, cache, answer).outcomes| == |items|
    decreases |items|
  {
    if items != [] {
      MergeAllLength(items[..|items| - 1], cache, answer);
    }
  }

  /** A non-empty list either leaves the page cache alone (a 500) or stores
      the non-empty page it returns under the key. */
  lemma MergePageEffects(key: string, items: seq<Value>, detailCache: map<Value, Value>,
                         itemsCache: map<string, seq<Value>>, answer: Request -> Reply)
    requires items != []
    ensures var run := MergePageSpec(key, items, detailCache, itemsCache, answer);
      && (run.itemsCache == itemsCache ||
            (key in run.itemsCache && run.itemsCache == itemsCache[key := run.itemsCache[key]]
             && |run.itemsCache[key]| > 0 && run.response == Response(200, Arr(run.itemsCache[key]))))
      && (run.response.status == 500 ==> run.itemsCache == itemsCache)
  {
    MergeAllLength(items, detailCache, answer);
  }

  /**
   * A fresh page: the response lists one record per upstream item, in the
   * upstream order, item i's record being its merge with the cached detail.
   */
  lemma HandleTypePage(category: string, pageNoQ: Option<string>, numOfRowsQ: Option<string>, today: string,
                       detailCache: map<Value, Value>, itemsCache: map<string, seq<Value>>,
                       answer: Request -> Reply)
    requires category in Categories
    requires CacheKey(category, QueryOr(pageNoQ, 1), QueryOr(numOfRowsQ, 20)) !in itemsCache
    requires answer(ListRequest(category, QueryOr(pageNoQ, 1), QueryOr(numOfRowsQ, 20), today)).Ok?
    ensures var run := HandleTypeSpec(category, pageNoQ, numOfRowsQ, today, detailCache, itemsCache, answer);
      var data := answer(ListRequest(category, QueryOr(pageNoQ, 1), QueryOr(numOfRowsQ, 20), today)).data;
      var items := NormaliseItems(ItemOf(data));
      run.response.status == 200 ==>
        && run.response.body.Arr?
        && |run.response.body.elems| == |items|
        && forall i :: 0 <= i < |items| ==>
             Merged(run.response.body.elems[i]) == OutcomeWith(items[i], run.detailCache)
  {
    var pageNo, numOfRows := QueryOr(pageNoQ, 1), QueryOr(numOfRowsQ, 20);
    var data := answer(ListRequest(category, pageNo, numOfRows, today)).data;
    var items := NormaliseItems(ItemOf(data));
    if items != [] {
      MergePageRecords(CacheKey(category, pageNo, numOfRows), items, detailCache, itemsCache, answer);
    }
  }

  /** A merged page lists item i's merge with the detail cache afterwards at
      position i. */
  lemma MergePageRecords(key: string, items: seq<Value>, detailCache: map<Value, Value>,
                         itemsCache: map<string, seq<Value>>, answer: Request -> Reply)
    ensures var run := MergePageSpec(key, items, detailCache, itemsCache, answer);
      run.response.status == 200 ==>
        && run.response.body.Arr?
        && |run.response.body.elems| == |items|
        && forall i :: 0 <= i < |items| ==>
             Merged(run.response.body.elems[i]) == OutcomeWith(items[i], run.detailCache)
  {
    var st := MergeAll(items, detailCache, answer);
    MergeAllOutcomes(items, detailCache, answer);
    if AllMerged(st.outcomes) {
      var r := Records(st.outcomes);
      forall i | 0 <= i < |items|
        ensures Merged(r[i]) == OutcomeWith(items[i], st.cache)
      {
        assert st.outcomes[i].Merged?;
      }
    }
  }

  /**
   * Repeating a request: a non-empty page that was returned is returned again
   * byte for byte with no upstream call; an empty page was not cached, so the
   * repeat asks the upstream list again.
   */
  lemma RepeatRequest(category: string, pageNoQ: Option<string>, numOfRowsQ: Option<string>, today: string,
                      detailCache: map<Value, Value>, itemsCache: map<string, seq<Value>>,
                      answer: Request -> Reply)
    requires category in Categories
    ensures var r1 := HandleTypeSpec(category, pageNoQ, numOfRowsQ, today, detailCache, itemsCache, answer);
      var r2 := HandleTypeSpec(category, pageNoQ, numOfRowsQ, today, r1.detailCache, r1.itemsCache, answer);
      var key := CacheKey(category, QueryOr(pageNoQ, 1), QueryOr(numOfRowsQ, 20));
      && (r1.response.status == 200 && r1.response.body != Arr([]) ==>
            r2 == TourRun(r1.response, r1.detailCache, r1.itemsCache, []))
      && (key !in itemsCache && r1.response == Response(200, Arr([])) ==>
            r2.trace == r1.trace == [ListRequest(category, QueryOr(pageNoQ, 1), QueryOr(numOfRowsQ, 20), today)])
  {
    HandleTypeEffects(category, pageNoQ, numOfRowsQ, today, detailCache, itemsCache, answer);
    var r1 := HandleTypeSpec(category, pageNoQ, numOfRowsQ, today, detailCache, itemsCache, answer);
    var key := CacheKey(category, QueryOr(pageNoQ, 1), QueryOr(numOfRowsQ, 20));
    if key !in itemsCache && r1.response.status == 200 {
      var req := ListRequest(category, QueryOr(pageNoQ, 1), QueryOr(numOfRowsQ, 20), today);
      var items := NormaliseItems(ItemOf(answer(req).data));
      if items != [] {
        MergeAllOutcomes(items, detailCache, answer);
      }
    }
  }

  // ---------------------------------------------------------------------
  // The service and its two process-wide caches

  class TourService {
    var detailCache: map<Value, Value>
    var itemsCache: map<string, seq<Value>>

    constructor ()
      ensures detailCache == map[] && itemsCache == map[]
    {
      detailCache := map[];
      itemsCache := map[];
    }

    /** `fetchDetail`: one upstream call, normalised; never fails. */
    method FetchDetail(net: Network, id: Value) returns (detail: Value)
      modifies net
      ensures detail == DetailOf(net.answer(DetailRequest(id)))
      ensures net.trace == old(net.trace) + [DetailRequest(id)]
    {
      var reply := net.Get(DetailRequest(id));
      match reply
      case Failed(_) =>
        detail := Obj(map[]);
      case Ok(data) =>
        detail := Or(ItemOf(data), Obj(map[]));
        if detail.Arr? {
          detail := FirstIfArray(detail);
        }
    }

    method FetchDetailCached(net: Network, id: Value) returns (detail: Value)
      modifies this`detailCache, net
      ensures var l := DetailLookup(old(detailCache), id, net.answer);
        && detail == l.detail && detailCache == l.cache
        && net.trace == old(net.trace) + DetailRequests(l.fetched)
    {
      if id in detailCache {
        return detailCache[id];
      }
      detail := FetchDetail(net, id);
      detailCache := detailCache[id := detail];
    }

    method MergeData(net: Network, items: seq<Value>) returns (outcomes: seq<ItemOutcome>)
      modifies this`detailCache, net
      ensures var st := MergeAll(items, old(detailCache), net.answer);
        && outcomes == st.outcomes && detailCache == st.cache
        && net.trace == old(net.trace) + DetailRequests(st.fetched)
    {
      outcomes := [];
      var i := 0;
      while i < |items|
        invariant 0 <= i <= |items|
        invariant var st := MergeAll(items[..i], old(detailCache), net.answer);
          && outcomes == st.outcomes && detailCache == st.cache
          && net.trace == old(net.trace) + DetailRequests(st.fetched)
      {
        ghost var st := MergeAll(items[..i], old(detailCache), net.answer);
        ghost var step := MergeOneSpec(detailCache, items[i], net.answer);
        assert items[..i + 1][..i] == items[..i];
        assert MergeAll(items[..i + 1], old(detailCache), net.answer)
            == MergeState(st.outcomes + [step.outcome], step.cache, st.fetched + step.fetched);
        var outcome := MergeOne(net, items[i]);
        outcomes := outcomes + [outcome];
        DetailRequestsAppend(st.fetched, step.fetched);
        AppendAssociates(old(net.trace), DetailRequests(st.fetched), DetailRequests(step.fetched));
        i := i + 1;
      }
      assert items[..i] == items;
    }

    /** The callback `mergeData` maps over the items. */
    method MergeOne(net: Network, item: Value) returns (outcome: ItemOutcome)
      modifies this`detailCache, net
      ensures var s := MergeOneSpec(old(detailCache), item, net.answer);
        && outcome == s.outcome && detailCache == s.cache
        && net.trace == old(net.trace) + DetailRequests(s.fetched)
    {
      if Nullish(item) {
        return Threw;
      }
      if !Truthy(ContentId(item)) {
        return Merged(WithoutDetail(item));
      }
      var detail := FetchDetailCached(net, ContentId(item));
      outcome := Merged(Enrich(item, detail));
    }

    method LoadPage(net: Network, category: string, pageNo: Value, numOfRows: Value, today: string)
      returns (response: Response)
      requires category in Categories
      modifies this, net
      ensures var run := LoadPageSpec(category, pageNo, numOfRows, today, old(detailCache), old(itemsCache), net.answer);
        && response == run.response
        && detailCache == run.detailCache && itemsCache == run.itemsCache
        && net.trace == old(net.trace) + run.trace
    {
      var key := CacheKey(category, pageNo, numOfRows);
      var req := ListRequest(category, pageNo, numOfRows, today);
      var reply := net.Get(req);
      if reply.Failed? {
        return ApiFailure;
      }
      var items := NormaliseItems(ItemOf(reply.data));
      if items == [] {
        return Response(200, Arr([]));
      }
      ghost var page := MergePageSpec(key, items, detailCache, itemsCache, net.answer);
      response := MergePage(net, key, items);
      AppendAssociates(old(net.trace), [req], page.trace);
    }

    method MergePage(net: Network, key: string, items: seq<Value>) returns (response: Response)
      modifies this, net
      ensures var run := MergePageSpec(key, items, old(detailCache), old(itemsCache), net.answer);
        && response == run.response
        && detailCache == run.detailCache && itemsCache == run.itemsCache
        && net.trace == old(net.trace) + run.trace
    {
      var outcomes := MergeData(net, items);
      if !AllMerged(outcomes) {
        return ApiFailure;
      }
      var merged := Records(outcomes);
      itemsCache := itemsCache[key := merged];
      response := Response(200, Arr(merged));
    }

    /** `GET /:type` with query `pageNo`, `numOfRows`, on the day `today`. */
    method HandleType(net: Network, category: string, pageNoQ: Option<string>, numOfRowsQ: Option<string>, today: string)
      returns (response: Response)
      modifies this, net
      ensures var run := HandleTypeSpec(category, pageNoQ, numOfRowsQ, today, old(detailCache), old(itemsCache), net.answer);
        && response == run.response
        && detailCache == run.detailCache && itemsCache == run.itemsCache
        && net.trace == old(net.trace) + run.trace
    {
      var api := ApiFor(category);
      if api.None? {
        return InvalidType;
      }
      var pageNo, numOfRows := QueryOr(pageNoQ, 1), QueryOr(numOfRowsQ, 20);
      var key := CacheKey(category, pageNo, numOfRows);
      if key in itemsCache {
        return Response(200, Arr(itemsCache[key]));
      }
      response := LoadPage(net, category, pageNo, numOfRows, today);
    }
  }
}
