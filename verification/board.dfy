/**
 * The community board's request helpers: the two tour-style sanitizers, the
 * paging defaults and sort keys of the board listing, the payload of a new
 * post (pin flag, spot fallback, coordinates, board number) and the image
 * list edit of the edit handler.
 */
module BoardRouter {
  import opened Js

  // ---------------------------------------------------------------------
  // Tour styles

  /** The literal list of the module-level sanitizer. */
  const LegacyTourStyles: seq<string> := [
    "맛집탐방", "카페투어", "사진/인스타", "힐링/산책", "온천·스파", "호캉스",
    "문화·역사", "전시·공연·축제", "쇼핑", "야경감상", "드라이브", "등산·트레킹",
    "바다·서핑", "캠핑·글램핑", "액티브·레저", "아이와 함께", "반려동물 동반", "당일치기"]

  /** `LIST.includes(s)`: a string equal to one of the listed styles. */
  predicate Listed(v: Value)
  {
    v.Str? && v.s in LegacyTourStyles
  }

  function KeepListed(s: seq<Value>): (r: seq<Value>)
    ensures |r| <= |s|
    ensures forall v :: v in r ==> Listed(v)
  {
    if s == [] then []
    else if Listed(s[|s| - 1]) then KeepListed(s[..|s| - 1]) + [s[|s| - 1]]
    else KeepListed(s[..|s| - 1])
  }

  /** The module-level sanitizer (the one the edit handler calls): a plain
      filter against the literal list. */
  function SanitizeTourStyleLegacy(input: Value): seq<Value>
  {
    if input.Arr? then KeepListed(input.elems) else []
  }

  /** The filter keeps order: filtering a concatenation is concatenating the
      filtered parts. */
  lemma {:induction false} KeepListedAppend(a: seq<Value>, b: seq<Value>)
    ensures KeepListed(a + b) == KeepListed(a) + KeepListed(b)
    decreases |b|
  {
    if b != [] {
      var b', x := b[..|b| - 1], b[|b| - 1];
      assert (a + b)[..|a + b| - 1] == a + b';
      assert (a + b)[|a + b| - 1] == x;
      KeepListedAppend(a, b');
      if Listed(x) {
        assert KeepListed(a + b) == KeepListed(a + b') + [x];
        assert KeepListed(b) == KeepListed(b') + [x];
      } else {
        assert KeepListed(a + b) == KeepListed(a + b');
        assert KeepListed(b) == KeepListed(b');
      }
    } else {
      assert a + b == a;
    }
  }

  /**
   * The module-level sanitizer keeps exactly the listed strings, each as
   * often as it occurs and in input order: it neither trims, nor removes
   * repeats, nor caps the count; a non-array gives nothing.
   */
  lemma {:induction false} LegacySanitizerExact(input: Value)
    ensures !input.Arr? ==> SanitizeTourStyleLegacy(input) == []
    ensures input.Arr? ==> forall v :: v in SanitizeTourStyleLegacy(input) <==> v in input.elems && Listed(v)
    ensures input.Arr? && (forall i :: 0 <= i < |input.elems| ==> Listed(input.elems[i])) ==>
              SanitizeTourStyleLegacy(input) == input.elems
  {
    if input.Arr? {
      KeepListedMembers(input.elems);
      KeepListedAll(input.elems);
    }
  }

  lemma {:induction false} KeepListedMembers(s: seq<Value>)
    ensures forall v :: v in KeepListed(s) <==> v in s && Listed(v)
  {
    if s != [] {
      var init := s[..|s| - 1];
      assert s == init + [s[|s| - 1]];
      KeepListedMembers(init);
    }
  }

  lemma {:induction false} KeepListedAll(s: seq<Value>)
    ensures (forall i :: 0 <= i < |s| ==> Listed(s[i])) ==> KeepListed(s) == s
  {
    if s != [] {
      var init := s[..|s| - 1];
      assert s == init + [s[|s| - 1]];
      KeepListedAll(init);
    }
  }

  /** Most styles a post keeps. */
  const MaxTourStyles := 5

  /** `arr.map(String).map(s => s.trim())` */
  function Candidates(arr: seq<Value>): (r: seq<string>)
    ensures |r| == |arr|
    ensures forall i :: 0 <= i < |arr| ==> r[i] == Trim(ToJsString(arr[i]))
  {
    if arr == [] then [] else Candidates(arr[..|arr| - 1]) + [Trim(ToJsString(arr[|arr| - 1]))]
  }

  /** `.filter(s => ALLOWED.has(s))` */
  function KeepAllowed(s: seq<string>, allowed: set<string>): (r: seq<string>)
    ensures forall x :: x in r ==> x in allowed && x in s
  {
    if s == [] then []
    else if s[|s| - 1] in allowed then KeepAllowed(s[..|s| - 1], allowed) + [s[|s| - 1]]
    else KeepAllowed(s[..|s| - 1], allowed)
  }

  /** The allow-list filter works element by element: it distributes over
      concatenation, so the kept strings keep their input order. */
  lemma {:induction false} KeepAllowedAppend(a: seq<string>, b: seq<string>, allowed: set<string>)
    ensures KeepAllowed(a + b, allowed) == KeepAllowed(a, allowed) + KeepAllowed(b, allowed)
    decreases |b|
  {
    if b != [] {
      var b', x := b[..|b| - 1], b[|b| - 1];
      assert (a + b)[..|a + b| - 1] == a + b';
      assert (a + b)[|a + b| - 1] == x;
      KeepAllowedAppend(a, b', allowed);
    } else {
      assert a + b == a;
    }
  }

  lemma {:induction false} KeepAllowedMembers(s: seq<string>, allowed: set<string>)
    ensures forall x :: x in KeepAllowed(s, allowed) <==> x in s && x in allowed
  {
    if s != [] {
      var init := s[..|s| - 1];
      assert s == init + [s[|s| - 1]];
      KeepAllowedMembers(init, allowed);
    }
  }

  predicate NoRepeats(s: seq<string>)
  {
    forall i, j :: 0 <= i < j < |s| ==> s[i] != s[j]
  }

  /** Where `x` first occurs in `s`. */
  function FirstIndex(s: seq<string>, x: string): (i: nat)
    requires x in s
    ensures i < |s| && s[i] == x && x !in s[..i]
  {
    if s[0] == x then 0
    else
      var k := FirstIndex(s[1..], x);
      assert s[1..][..k] == s[1..k + 1];
      assert s[..k + 1] == [s[0]] + s[1..k + 1];
      1 + k
  }

  lemma FirstIndexUnique(s: seq<string>, x: string, i: nat)
    requires i < |s| && s[i] == x && x !in s[..i]
    ensures FirstIndex(s, x) == i
  {
  }

  /** `Array.from(new Set(s))`: a set keeps the insertion order of its first
      insertion and ignores later ones. */
  function Dedupe(s: seq<string>): (r: seq<string>)
    ensures forall x :: x in r <==> x in s
    ensures NoRepeats(r)
  {
    if s == [] then []
    else
      var init := s[..|s| - 1];
      assert s == init + [s[|s| - 1]];
      var d := Dedupe(init);
      if s[|s| - 1] in d then d else d + [s[|s| - 1]]
  }

  /** The deduplicated strings are in the order of their first occurrences
      in the input. */
  lemma {:induction false} DedupeOrder(s: seq<string>)
    ensures forall x :: x in Dedupe(s) ==> x in s
    ensures forall i, j :: 0 <= i < j < |Dedupe(s)| ==> FirstIndex(s, Dedupe(s)[i]) < FirstIndex(s, Dedupe(s)[j])
  {
    if s != [] {
      var init, x := s[..|s| - 1], s[|s| - 1];
      assert s == init + [x];
      DedupeOrder(init);
      var d := Dedupe(init);
      forall y | y in init
        ensures FirstIndex(s, y) == FirstIndex(init, y)
      {
        var k := FirstIndex(init, y);
        assert s[..k] == init[..k];
        FirstIndexUnique(s, y, k);
      }
      if x !in d {
        assert x !in s[..|s| - 1];
        FirstIndexUnique(s, x, |s| - 1);
        forall i | 0 <= i < |d|
          ensures FirstIndex(s, d[i]) < FirstIndex(s, x)
        {
          assert d[i] in init;
        }
      }
    }
  }

  /** `s.slice(0, n)` */
  function Take(s: seq<string>, n: nat): (r: seq<string>)
    ensures |r| <= n && |r| <= |s| && r == s[..|r|]
    ensures |s| <= n ==> r == s
    ensures |s| > n ==> |r| == n
  {
    if |s| <= n then s else s[..n]
  }

  /** The strings eligible for a post: the array's elements as strings,
      trimmed, that the allow-list names. */
  function Eligible(input: Value, allowed: set<string>): seq<string>
  {
    KeepAllowed(Candidates(if input.Arr? then input.elems else []), allowed)
  }

  /** The sanitizer of the create handler: allow-listed trimmed strings,
      without repeats, at most five. */
  function SanitizeTourStyle(input: Value, allowed: set<string>): seq<string>
  {
    Take(Dedupe(Eligible(input, allowed)), MaxTourStyles)
  }

  /**
   * The create handler's sanitizer: a non-array gives nothing; every output
   * string is allowed and eligible; no string repeats; there are at most
   * five, and they are the leading distinct eligible strings.
   */
  lemma SanitizeTourStyleBasics(input: Value, allowed: set<string>)
    ensures var r := SanitizeTourStyle(input, allowed);
      && (!input.Arr? ==> r == [])
      && |r| <= MaxTourStyles
      && NoRepeats(r)
      && r == Dedupe(Eligible(input, allowed))[..|r|]
      && (forall x :: x in r ==> x in allowed && x in Eligible(input, allowed))
  {
    var d := Dedupe(Eligible(input, allowed));
    var r := SanitizeTourStyle(input, allowed);
    assert forall i :: 0 <= i < |r| ==> r[i] == d[i];
    assert forall x :: x in r ==> x in d;
  }

  /** Every output string is the trimmed `String` of some input element. */
  lemma SanitizeTourStyleOrigin(input: Value, allowed: set<string>)
    requires input.Arr?
    ensures forall x :: x in SanitizeTourStyle(input, allowed) ==>
              exists i :: 0 <= i < |input.elems| && x == Trim(ToJsString(input.elems[i]))
  {
    var c := Candidates(input.elems);
    SanitizeTourStyleBasics(input, allowed);
    forall x | x in SanitizeTourStyle(input, allowed)
      ensures exists i :: 0 <= i < |input.elems| && x == Trim(ToJsString(input.elems[i]))
    {
      assert x in c;
      var i :| 0 <= i < |c| && c[i] == x;
    }
  }

  /** The output keeps the order in which the strings first occur among the
      eligible ones. */
  lemma SanitizeTourStyleOrder(input: Value, allowed: set<string>)
    ensures var e := Eligible(input, allowed);
      var r := SanitizeTourStyle(input, allowed);
      && (forall x :: x in r ==> x in e)
      && forall i, j :: 0 <= i < j < |r| ==> FirstIndex(e, r[i]) < FirstIndex(e, r[j])
  {
    var e := Eligible(input, allowed);
    var d := Dedupe(e);
    var r := SanitizeTourStyle(input, allowed);
    DedupeOrder(e);
    SanitizeTourStyleBasics(input, allowed);
    forall i, j | 0 <= i < j < |r|
      ensures FirstIndex(e, r[i]) < FirstIndex(e, r[j])
    {
      assert r[i] == d[i] && r[j] == d[j];
    }
  }

  /** With five or fewer distinct eligible strings, none is lost. */
  lemma SanitizeTourStyleComplete(input: Value, allowed: set<string>)
    requires |Dedupe(Eligible(input, allowed))| <= MaxTourStyles
    ensures forall x :: x in Eligible(input, allowed) ==> x in SanitizeTourStyle(input, allowed)
  {
  }

  // ---------------------------------------------------------------------
  // Listing parameters

  /** `skip` and `limit` of the listing: `Number(q)`, with NaN replaced by 0
      and 10 respectively. */
  method PageWindow(skipQ: Value, limitQ: Value) returns (skip: int, limit: int)
    ensures ToNumber(skipQ).Some? ==> skip == ToNumber(skipQ).value
    ensures ToNumber(skipQ).None? ==> skip == 0
    ensures ToNumber(limitQ).Some? ==> limit == ToNumber(limitQ).value
    ensures ToNumber(limitQ).None? ==> limit == 10
  {
    var s := ToNumber(skipQ);
    var l := ToNumber(limitQ);
    if s.None? {
      skip := 0;
    } else {
      skip := s.value;
    }
    if l.None? {
      limit := 10;
    } else {
      limit := l.value;
    }
  }

  /** One key of a sort specification and its direction (1 or -1). */
  datatype SortKey = SortKey(field: string, direction: int)

  const PinnedFirst := SortKey("pinTop", -1)

  /** `sort = req.query.sort || 'desc'` as a destructuring default: the
      default applies only when the parameter is absent. */
  function SortParam(sortQ: Value): (v: Value)
    ensures sortQ.Undefined? ==> v == Str("desc")
    ensures !sortQ.Undefined? ==> v == sortQ
  {
    if sortQ.Undefined? then Or(sortQ, Str("desc")) else sortQ
  }

  predicate KnownSort(sort: Value)
  {
    sort == Str("asc") || sort == Str("desc") || sort == Str("view") || sort == Str("good")
  }

  /**
   * The `switch (sort)`: every specification puts pinned posts first and ends
   * with `_id` as the tie-break, no field occurs twice, and an unknown key
   * sorts by newest `_id`.
   */
  method SortFieldFor(sort: Value) returns (keys: seq<SortKey>)
    ensures 2 <= |keys| <= 3 && keys[0] == PinnedFirst && keys[|keys| - 1].field == "_id"
    ensures forall i, j :: 0 <= i < j < |keys| ==> keys[i].field != keys[j].field
    ensures forall i :: 0 <= i < |keys| ==> keys[i].direction == 1 || keys[i].direction == -1
    ensures sort == Str("asc") ==> keys == [PinnedFirst, SortKey("_id", 1)]
    ensures sort == Str("desc") ==> keys == [PinnedFirst, SortKey("created", -1), SortKey("_id", -1)]
    ensures sort == Str("view") ==> keys == [PinnedFirst, SortKey("hitCount", -1), SortKey("_id", -1)]
    ensures sort == Str("good") ==> keys == [PinnedFirst, SortKey("good", -1), SortKey("_id", -1)]
    ensures !KnownSort(sort) ==> keys == [PinnedFirst, SortKey("_id", -1)]
  {
    if sort == Str("asc") {
      keys := [PinnedFirst, SortKey("_id", 1)];
    } else if sort == Str("desc") {
      keys := [PinnedFirst, SortKey("created", -1), SortKey("_id", -1)];
    } else if sort == Str("view") {
      keys := [PinnedFirst, SortKey("hitCount", -1), SortKey("_id", -1)];
    } else if sort == Str("good") {
      keys := [PinnedFirst, SortKey("good", -1), SortKey("_id", -1)];
    } else {
      keys := [PinnedFirst, SortKey("_id", -1)];
    }
  }

  /** The listing's sort from its query parameter: absent means newest
      first by creation, while a present but empty or unknown value falls to
      the `_id` default. */
  method SortOption(sortQ: Value) returns (keys: seq<SortKey>)
    ensures |keys| >= 2 && keys[0] == PinnedFirst
    ensures sortQ.Undefined? ==> keys == [PinnedFirst, SortKey("created", -1), SortKey("_id", -1)]
    ensures !sortQ.Undefined? && !KnownSort(sortQ) ==> keys == [PinnedFirst, SortKey("_id", -1)]
    ensures keys[|keys| - 1].field == "_id"
  {
    keys := SortFieldFor(SortParam(sortQ));
  }

  // ---------------------------------------------------------------------
  // A new post

  /** The pin flag a post is stored with. */
  function PinTopOf(body: map<string, Value>): Value
  {
    if "pinTop" in body && body["pinTop"].Bool? then body["pinTop"] else Bool(false)
  }

  /** `body.pinTop` stays when it is a boolean and becomes `false`
      otherwise; every other field is untouched. */
  method DefaultPinTop(body: map<string, Value>) returns (body': map<string, Value>)
    ensures body' == body["pinTop" := PinTopOf(body)]
    ensures "pinTop" in body' && body'["pinTop"].Bool?
    ensures "pinTop" in body && body["pinTop"].Bool? ==> body'["pinTop"] == body["pinTop"]
    ensures !("pinTop" in body && body["pinTop"].Bool?) ==> body'["pinTop"] == Bool(false)
    ensures body'.Keys == body.Keys + {"pinTop"}
    ensures forall k :: k in body && k != "pinTop" ==> body'[k] == body[k]
  {
    body' := body;
    if "pinTop" in body && body["pinTop"].Bool? {
      body' := body'["pinTop" := body["pinTop"]];
    } else {
      body' := body'["pinTop" := Bool(false)];
    }
  }

  /** A destructuring default: `x = d` applies only to `undefined`. */
  function DefaultIfUndefined(v: Value, d: Value): Value
  {
    if v.Undefined? then d else v
  }

  /** The spot a post uses: the `spot` field when it is truthy, else one
      built from an object `tourSpot` of the board, else the falsy `spot`. */
  function EffectiveSpot(spot: Value, tourSpot: Value): (r: Value)
    ensures Truthy(spot) ==> r == spot
    ensures !Truthy(spot) && !(Truthy(tourSpot) && (tourSpot.Obj? || tourSpot.Arr?)) ==> r == spot
  {
    if !Truthy(spot) && Truthy(tourSpot) && (tourSpot.Obj? || tourSpot.Arr?) then
      Obj(map[
        "lat" := Get(tourSpot, "lat"),
        "lng" := Get(tourSpot, "lng"),
        "address" := DefaultIfUndefined(Get(tourSpot, "address"), Str("")),
        "roadAddress" := DefaultIfUndefined(Get(tourSpot, "roadAddress"), Str("")),
        "borough" := DefaultIfUndefined(Get(tourSpot, "borough"), Str("")),
        "placeName" := DefaultIfUndefined(Get(tourSpot, "placeName"), Str(""))])
    else spot
  }

  /** The handler's `spot`, reassigned to the fallback when needed. */
  method PostSpot(spot: Value, board: map<string, Value>) returns (s: Value)
    ensures s == EffectiveSpot(spot, Get(Obj(board), "tourSpot"))
  {
    s := spot;
    if !Truthy(s) && "tourSpot" in board && Truthy(board["tourSpot"])
       && (board["tourSpot"].Obj? || board["tourSpot"].Arr?) {
      s := EffectiveSpot(s, board["tourSpot"]);
    }
  }

  /** `hasValidLatLng` */
  predicate ValidLatLng(spot: Value)
  {
    Truthy(spot) && IsFiniteNumber(Get(spot, "lat")) && IsFiniteNumber(Get(spot, "lng"))
  }

  /** The stored `tourSpot`: four text fields defaulting to `''` and a
      GeoJSON point. */
  function TourSpotFor(spot: Value): Value
    requires ValidLatLng(spot)
  {
    Obj(map[
      "address" := Or(Get(spot, "address"), Str("")),
      "roadAddress" := Or(Get(spot, "roadAddress"), Str("")),
      "placeName" := Or(Get(spot, "placeName"), Str("")),
      "borough" := Or(Get(spot, "borough"), Str("")),
      "location" := Obj(map[
        "type" := Str("Point"),
        "coordinates" := Arr([Num(ToNumber(Get(spot, "lng")).value), Num(ToNumber(Get(spot, "lat")).value)])])])
  }

  /** The text fields of a stored spot. */
  const SpotTextFields: set<string> := {"address", "roadAddress", "placeName", "borough"}

  /**
   * A stored spot is a GeoJSON point whose coordinates are longitude first,
   * then latitude, both as numbers; every text field is a truthy value of
   * the spot or else `''`.
   */
  lemma TourSpotShape(spot: Value, f: string)
    requires ValidLatLng(spot)
    ensures var t := TourSpotFor(spot);
      && t.Obj? && t.fields.Keys == SpotTextFields + {"location"}
      && t.fields["location"] == Obj(map["type" := Str("Point"),
           "coordinates" := Arr([Num(ToNumber(Get(spot, "lng")).value), Num(ToNumber(Get(spot, "lat")).value)])])
      && (f in SpotTextFields ==>
            (Truthy(Get(spot, f)) ==> t.fields[f] == Get(spot, f))
            && (!Truthy(Get(spot, f)) ==> t.fields[f] == Str("")))
  {
  }

  /** A fallback spot built from `tourSpot` is usable exactly when its
      latitude and longitude convert to finite numbers, and its missing text
      fields end up as `''` in the stored spot. */
  lemma FallbackSpot(tourSpot: Value, f: string)
    requires Truthy(tourSpot) && (tourSpot.Obj? || tourSpot.Arr?)
    ensures ValidLatLng(EffectiveSpot(Undefined, tourSpot)) <==>
              IsFiniteNumber(Get(tourSpot, "lat")) && IsFiniteNumber(Get(tourSpot, "lng"))
    ensures f in SpotTextFields && Get(tourSpot, f).Undefined? && ValidLatLng(EffectiveSpot(Undefined, tourSpot)) ==>
              TourSpotFor(EffectiveSpot(Undefined, tourSpot)).fields[f] == Str("")
  {
    var r := EffectiveSpot(Undefined, tourSpot);
    FallbackSpotFields(tourSpot, f);
    if f in SpotTextFields && Get(tourSpot, f).Undefined? && ValidLatLng(r) {
      TourSpotShape(r, f);
    }
  }

  /** The fallback spot copies `lat` and `lng` and defaults each missing
      text field to `''`. */
  lemma FallbackSpotFields(tourSpot: Value, f: string)
    requires Truthy(tourSpot) && (tourSpot.Obj? || tourSpot.Arr?)
    ensures var r := EffectiveSpot(Undefined, tourSpot);
      && Truthy(r)
      && Get(r, "lat") == Get(tourSpot, "lat") && Get(r, "lng") == Get(tourSpot, "lng")
      && (f in SpotTextFields ==> Get(r, f) == DefaultIfUndefined(Get(tourSpot, f), Str("")))
  {
  }

  /** `latest ? latest.numBrd + 1 : 1` */
  function NextBoardNumber(latest: Option<int>): int
  {
    if latest.Some? then latest.value + 1 else 1
  }

  /** When `latest` is the highest existing number (or there is none), the
      new number is above every existing one, and 1 on an empty board. */
  lemma NextBoardNumberFresh(numbers: set<int>, latest: Option<int>)
    requires latest.None? ==> numbers == {}
    requires latest.Some? ==> latest.value in numbers && forall n :: n in numbers ==> n <= latest.value
    ensures forall n :: n in numbers ==> n < NextBoardNumber(latest)
    ensures NextBoardNumber(latest) !in numbers
    ensures numbers == {} ==> NextBoardNumber(latest) == 1
  {
  }

  function Strs(s: seq<string>): (r: seq<Value>)
    ensures |r| == |s| && forall i :: 0 <= i < |s| ==> r[i] == Str(s[i])
  {
    if s == [] then [] else Strs(s[..|s| - 1]) + [Str(s[|s| - 1])]
  }

  /** The document a new post is created from. */
  function NewPost(body: map<string, Value>, spot: Value, latest: Option<int>, allowed: set<string>): map<string, Value>
  {
    var s := EffectiveSpot(spot, Get(Obj(body), "tourSpot"));
    var payload := body["pinTop" := PinTopOf(body)]["numBrd" := Num(NextBoardNumber(latest))]
                       ["tourStyle" := Arr(Strs(SanitizeTourStyle(Get(Obj(body), "tourStyle"), allowed)))];
    if ValidLatLng(s) then payload["tourSpot" := TourSpotFor(s)] else payload
  }

  /**
   * The new post holds the board fields, the pin flag forced to a boolean,
   * the next board number, the sanitized styles, and the stored spot when
   * the effective spot has finite coordinates (the board's own `tourSpot`
   * passes through otherwise).
   */
  lemma NewPostShape(body: map<string, Value>, spot: Value, latest: Option<int>, allowed: set<string>)
    ensures var payload := NewPost(body, spot, latest, allowed);
      && payload.Keys >= body.Keys + {"pinTop", "numBrd", "tourStyle"}
      && payload["pinTop"].Bool?
      && ("pinTop" in body && body["pinTop"].Bool? ==> payload["pinTop"] == body["pinTop"])
      && payload["numBrd"] == Num(NextBoardNumber(latest))
      && payload["tourStyle"] == Arr(Strs(SanitizeTourStyle(Get(Obj(body), "tourStyle"), allowed)))
    ensures var payload := NewPost(body, spot, latest, allowed);
      var s := EffectiveSpot(spot, Get(Obj(body), "tourSpot"));
      && (ValidLatLng(s) ==> "tourSpot" in payload && payload["tourSpot"] == TourSpotFor(s))
      && (!ValidLatLng(s) ==> ("tourSpot" in payload <==> "tourSpot" in body))
      && (!ValidLatLng(s) && "tourSpot" in body ==> payload["tourSpot"] == body["tourSpot"])
    ensures var payload := NewPost(body, spot, latest, allowed);
      forall k :: k in body && k !in {"pinTop", "numBrd", "tourStyle", "tourSpot"} ==> payload[k] == body[k]
  {
  }

  /** The create handler's document, built step by step. */
  method NewPostPayload(body: map<string, Value>, spot: Value, latest: Option<int>, allowed: set<string>)
    returns (payload: map<string, Value>)
    ensures payload == NewPost(body, spot, latest, allowed)
  {
    var board := DefaultPinTop(body);
    assert Get(Obj(board), "tourSpot") == Get(Obj(body), "tourSpot");
    assert Get(Obj(board), "tourStyle") == Get(Obj(body), "tourStyle");
    var s := PostSpot(spot, board);
    var newNum := NextBoardNumber(latest);
    var tourStyle := SanitizeTourStyle(Get(Obj(board), "tourStyle"), allowed);
    payload := board["numBrd" := Num(newNum)]["tourStyle" := Arr(Strs(tourStyle))];
    payload := AttachSpot(payload, s);
  }

  /** `if (hasValidLatLng) payload.tourSpot = {...}` */
  method AttachSpot(payload: map<string, Value>, s: Value) returns (payload': map<string, Value>)
    ensures ValidLatLng(s) ==> payload' == payload["tourSpot" := TourSpotFor(s)]
    ensures !ValidLatLng(s) ==> payload' == payload
  {
    payload' := payload;
    if ValidLatLng(s) {
      payload' := payload'["tourSpot" := TourSpotFor(s)];
    }
  }

  // ---------------------------------------------------------------------
  // Images of a post

  /** A stored image; `id` is the string of its `_id`, when it has one. */
  datatype Image = Image(id: Option<string>, originalFileName: string, saveFileName: string, path: string)

  /** An uploaded file: its client-side name and its stored name. */
  datatype Upload = Upload(originalName: string, fileName: string)

  /** The images of this request's uploads, in upload order. */
  function NewImages(files: seq<Upload>, baseUrl: string): (r: seq<Image>)
    ensures |r| == |files|
    ensures forall i :: 0 <= i < |files| ==>
              r[i].saveFileName == files[i].fileName && r[i].originalFileName == files[i].originalName
              && r[i].path == baseUrl + "/uploads/" + files[i].fileName
  {
    if files == [] then []
    else
      var f := files[|files| - 1];
      NewImages(files[..|files| - 1], baseUrl) + [Image(None, f.originalName, f.fileName, baseUrl + "/uploads/" + f.fileName)]
  }

  /** `img._id?.toString()` */
  function IdValue(img: Image): Value
  {
    if img.id.Some? then Str(img.id.value) else Undefined
  }

  /** An image named by the delete list through its id, its stored file name
      or its path. */
  predicate Deleted(img: Image, toDelete: seq<Value>)
  {
    IdValue(img) in toDelete || Str(img.saveFileName) in toDelete || Str(img.path) in toDelete
  }

  function KeptImages(images: seq<Image>, toDelete: seq<Value>): (r: seq<Image>)
    ensures |r| <= |images|
  {
    if images == [] then []
    else
      var init := KeptImages(images[..|images| - 1], toDelete);
      if Deleted(images[|images| - 1], toDelete) then init else init + [images[|images| - 1]]
  }

  /** The filter keeps order: filtering a concatenation is concatenating the
      filtered parts. */
  lemma {:induction false} KeptImagesAppend(a: seq<Image>, b: seq<Image>, toDelete: seq<Value>)
    ensures KeptImages(a + b, toDelete) == KeptImages(a, toDelete) + KeptImages(b, toDelete)
    decreases |b|
  {
    if b != [] {
      var b', x := b[..|b| - 1], b[|b| - 1];
      assert (a + b)[..|a + b| - 1] == a + b';
      assert (a + b)[|a + b| - 1] == x;
      KeptImagesAppend(a, b', toDelete);
      if Deleted(x, toDelete) {
        assert KeptImages(a + b, toDelete) == KeptImages(a + b', toDelete);
        assert KeptImages(b, toDelete) == KeptImages(b', toDelete);
      } else {
        assert KeptImages(a + b, toDelete) == KeptImages(a + b', toDelete) + [x];
        assert KeptImages(b, toDelete) == KeptImages(b', toDelete) + [x];
      }
    } else {
      assert a + b == a;
    }
  }

  /** An image survives exactly when none of its three names is in the
      delete list; with nothing deleted the list is unchanged. */
  lemma {:induction false} KeptImagesExact(images: seq<Image>, toDelete: seq<Value>)
    ensures forall img :: img in KeptImages(images, toDelete) <==> img in images && !Deleted(img, toDelete)
    ensures (forall i :: 0 <= i < |images| ==> !Deleted(images[i], toDelete)) ==> KeptImages(images, toDelete) == images
  {
    if images != [] {
      var init := images[..|images| - 1];
      assert images == init + [images[|images| - 1]];
      KeptImagesExact(init, toDelete);
    }
  }

  /** The image list after an edit: the deletions (only when the list is
      non-empty), then the new images appended. */
  function EditedImages(images: seq<Image>, toDelete: seq<Value>, newImgs: seq<Image>): seq<Image>
  {
    (if |toDelete| > 0 then KeptImages(images, toDelete) else images) + newImgs
  }

  /**
   * After an edit, an old image is present exactly when none of its names
   * was in the delete list; the new images follow all kept ones, in upload
   * order, and are never filtered.
   */
  lemma EditedImagesSpec(images: seq<Image>, toDelete: seq<Value>, newImgs: seq<Image>)
    ensures var r := EditedImages(images, toDelete, newImgs);
      && |r| >= |newImgs|
      && r[|r| - |newImgs|..] == newImgs
      && r[..|r| - |newImgs|] == KeptImages(images, toDelete)
      && forall img :: img in r[..|r| - |newImgs|] <==> img in images && !Deleted(img, toDelete)
  {
    KeptImagesExact(images, toDelete);
    if |toDelete| == 0 {
      forall i | 0 <= i < |images|
        ensures !Deleted(images[i], toDelete)
      {
      }
    }
    var r := EditedImages(images, toDelete, newImgs);
    assert r[..|r| - |newImgs|] == KeptImages(images, toDelete);
  }

  /** The image documents of all posts, by board number. */
  class ImageStore {
    var docs: map<int, seq<Image>>

    constructor ()
      ensures docs == map[]
    {
      docs := map[];
    }

    /** The image part of the edit handler, behind its 404 gate: when the
        board update found no post (`boardFound` false) the answer is 404 and
        no image document changes; otherwise, without a document one is
        created only when there are new images, and an existing document's
        list is filtered and extended in place; the answer is 200. */
    method EditImages(boardFound: bool, numBrd: int, toDelete: seq<Value>, newImgs: seq<Image>) returns (status: nat)
      modifies this
      ensures status == (if boardFound then 200 else 404)
      ensures !boardFound ==> docs == old(docs)
      ensures boardFound && numBrd !in old(docs) && newImgs == [] ==> docs == old(docs)
      ensures boardFound && numBrd !in old(docs) && newImgs != [] ==> docs == old(docs)[numBrd := newImgs]
      ensures boardFound && numBrd in old(docs) ==>
                docs == old(docs)[numBrd := EditedImages(old(docs)[numBrd], toDelete, newImgs)]
    {
      if !boardFound {
        return 404;
      }
      status := 200;
      if numBrd !in docs {
        if |newImgs| > 0 {
          docs := docs[numBrd := newImgs];
        }
      } else {
        var images := docs[numBrd];
        if |toDelete| > 0 {
          images := KeptImages(images, toDelete);
        }
        if |newImgs| > 0 {
          images := images + newImgs;
        } else {
          assert images + newImgs == images;
        }
        docs := docs[numBrd := images];
      }
    }
  }
}
