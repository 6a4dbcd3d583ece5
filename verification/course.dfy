/**
 * The course aggregator (`GET /course`): the course list, then per course an
 * overview and a list of places, then per place a detail merged onto the raw
 * place, with a course cache and a place cache. Every step after the course
 * list degrades to a placeholder instead of failing the request.
 */
module CourseRouter {
  import opened Js
  import opened Upstream

  /** The upstream content type of a travel course. */
  const CourseContentTypeId := 25

  /** `req.query.numOfRows || 20` */
  function RowsParam(numOfRowsQ: Option<string>): (v: Value)
    ensures numOfRowsQ.Some? && numOfRowsQ.value != "" ==> v == Str(numOfRowsQ.value)
    ensures numOfRowsQ.None? || numOfRowsQ.value == "" ==> v == Num(20)
  {
    if numOfRowsQ.Some? && numOfRowsQ.value != "" then Str(numOfRowsQ.value) else Num(20)
  }

  /** The course list: first page, Seoul, courses only. */
  function CourseListRequest(numOfRowsQ: Option<string>): Request
  {
    Request(AreaBasedListApi, map[
      "_type" := Str("json"),
      "pageNo" := Num(1),
      "MobileOS" := Str("ETC"),
      "MobileApp" := Str("AppTest"),
      "arrange" := Str("Q"),
      "areaCode" := Str("1"),
      "contentTypeId" := Num(CourseContentTypeId),
      "numOfRows" := RowsParam(numOfRowsQ)])
  }

  /** The places of one course (`detailInfo2`). */
  function PlacesRequest(contentId: Value): Request
  {
    Request(DetailInfoApi, map[
      "contentId" := contentId,
      "contentTypeId" := Num(CourseContentTypeId),
      "_type" := Str("json"),
      "MobileOS" := Str("ETC"),
      "MobileApp" := Str("AppTest")])
  }

  /** The overview: `item?.overview ?? null` of the (first) detail item; a
      failed call leaves it `null`. */
  function OverviewOf(reply: Reply): Value
  {
    match reply
    case Failed(_) => Null
    case Ok(data) => Coalesce(Get(FirstIfArray(ItemOf(data)), "overview"), Null)
  }

  /** A failed overview call leaves `overview` null; when the detail item is
      an array its first element is used; a present overview is kept as it
      is, even when falsy. */
  lemma OverviewDegrades(reply: Reply)
    ensures reply.Failed? ==> OverviewOf(reply) == Null
    ensures reply.Ok? && ItemOf(reply.data).Arr? && ItemOf(reply.data).elems != [] ==>
              OverviewOf(reply) == Coalesce(Get(ItemOf(reply.data).elems[0], "overview"), Null)
    ensures reply.Ok? && !Nullish(Get(FirstIfArray(ItemOf(reply.data)), "overview")) ==>
              OverviewOf(reply) == Get(FirstIfArray(ItemOf(reply.data)), "overview")
    ensures !Nullish(OverviewOf(reply)) || OverviewOf(reply) == Null
  {
  }

  /** The place list of a course; a failed call leaves it empty. */
  function PlacesOf(reply: Reply): seq<Value>
  {
    match reply
    case Failed(_) => []
    case Ok(data) => NormaliseCourseItems(ItemOf(data))
  }

  // ---------------------------------------------------------------------
  // Places

  function SubId(place: Value): Value
  {
    Get(place, "subcontentid")
  }

  /** A place that gets a record: readable (not nullish) and with a truthy
      `subcontentid`. */
  predicate HasSubId(place: Value)
  {
    !Nullish(place) && Truthy(SubId(place))
  }

  /** The detail fields a place record takes over from its detail. */
  const PlaceDetailFields: set<string> := {"mapx", "mapy", "tel", "homepage", "firstimage", "addr1", "addr2"}

  /** `detail?.field ?? null` for the first (or only) detail item. */
  function PlaceField(reply: Reply, field: string): Value
    requires reply.Ok?
  {
    Coalesce(Get(FirstIfArray(ItemOf(reply.data)), field), Null)
  }

  /** The record stored for a place after its detail call: the raw place with
      the seven detail fields on success, a plain copy on failure. */
  function MergedPlace(place: Value, reply: Reply): Value
  {
    match reply
    case Failed(_) => Obj(Spread(place))
    case Ok(_) =>
      Obj(map k | k in Spread(place).Keys + PlaceDetailFields ::
            if k in PlaceDetailFields then PlaceField(reply, k) else Spread(place)[k])
  }

  /**
   * The place merge: after a successful call each of the seven fields is the
   * detail's value unless that is null or undefined (an empty string or 0 is
   * kept), else `null`, and every other raw field is kept; after a failed
   * call the record is the raw place alone, with no null detail fields added.
   */
  lemma MergedPlaceExact(place: Value, reply: Reply, f: string)
    ensures MergedPlace(place, reply).Obj?
    ensures reply.Failed? ==> MergedPlace(place, reply).fields == Spread(place)
    ensures reply.Ok? ==> MergedPlace(place, reply).fields.Keys == Spread(place).Keys + PlaceDetailFields
    ensures reply.Ok? && f in Spread(place) && f !in PlaceDetailFields ==>
              MergedPlace(place, reply).fields[f] == Spread(place)[f]
    ensures reply.Ok? && f in PlaceDetailFields ==>
              var d := Get(FirstIfArray(ItemOf(reply.data)), f);
              MergedPlace(place, reply).fields[f] == if Nullish(d) then Null else d
  {
  }

  /** Place records in list order (`None` for a place filtered out), the
      place cache afterwards, and the sub-identifiers fetched. */
  datatype PlaceState = PlaceState(outcomes: seq<Option<Value>>, cache: map<Value, Value>, fetched: seq<Value>)

  /** What the callback does for one place: its outcome, the place cache
      afterwards, and the sub-identifier it fetched, if any. */
  datatype PlaceStep = PlaceStep(outcome: Option<Value>, cache: map<Value, Value>, fetched: seq<Value>)

  function PlaceOneSpec(cache: map<Value, Value>, place: Value, answer: Request -> Reply): PlaceStep
  {
    if !HasSubId(place) then PlaceStep(None, cache, [])
    else if SubId(place) in cache then PlaceStep(Some(cache[SubId(place)]), cache, [])
    else
      var v := MergedPlace(place, answer(DetailRequest(SubId(place))));
      PlaceStep(Some(v), cache[SubId(place) := v], [SubId(place)])
  }

  function PlaceItem(st: PlaceState, place: Value, answer: Request -> Reply): PlaceState
  {
    var s := PlaceOneSpec(st.cache, place, answer);
    PlaceState(st.outcomes + [s.outcome], s.cache, st.fetched + s.fetched)
  }

  function PlacesAll(places: seq<Value>, cache: map<Value, Value>, answer: Request -> Reply): PlaceState
    decreases |places|
  {
    if places == [] then PlaceState([], cache, [])
    else PlaceItem(PlacesAll(places[..|places| - 1], cache, answer), places[|places| - 1], answer)
  }

  ghost function SubIdsOf(places: seq<Value>): set<Value>
  {
    set p | p in places && HasSubId(p) :: SubId(p)
  }

  lemma SubIdsOfSnoc(places: seq<Value>, p: Value)
    ensures SubIdsOf(places + [p]) == SubIdsOf(places) + (if HasSubId(p) then {SubId(p)} else {})
  {
    assert forall y :: y in places + [p] <==> y in places || y == p;
  }

  /**
   * The place cache after one course's places: old entries are untouched
   * (a place whose detail call failed stays cached as its raw copy for good),
   * the new keys are exactly the missing sub-identifiers, and each of them
   * was fetched exactly once.
   */
  lemma PlacesAllCache(places: seq<Value>, cache: map<Value, Value>, answer: Request -> Reply)
    ensures var st := PlacesAll(places, cache, answer);
      && (forall k :: k in cache ==> k in st.cache && st.cache[k] == cache[k])
      && st.cache.Keys == cache.Keys + SubIdsOf(places)
      && NoDuplicates(st.fetched)
      && (forall k :: k in st.fetched <==> k in SubIdsOf(places) && k !in cache)
  {
    PlacesAllKeeps(places, cache, answer);
    PlacesAllKeys(places, cache, answer);
    PlacesAllFetched(places, cache, answer);
  }

  /** One place on the cache: a missing sub-identifier is fetched once and
      stored; otherwise nothing changes. */
  lemma PlaceItemCache(st: PlaceState, place: Value, answer: Request -> Reply)
    ensures var st' := PlaceItem(st, place, answer);
      if HasSubId(place) && SubId(place) !in st.cache then
        && st'.cache == st.cache[SubId(place) := MergedPlace(place, answer(DetailRequest(SubId(place))))]
        && st'.fetched == st.fetched + [SubId(place)]
      else st'.cache == st.cache && st'.fetched == st.fetched
  {
  }

  lemma {:induction false} PlacesAllKeeps(places: seq<Value>, cache: map<Value, Value>, answer: Request -> Reply)
    ensures var st := PlacesAll(places, cache, answer);
      forall k :: k in cache ==> k in st.cache && st.cache[k] == cache[k]
    decreases |places|
  {
    if places != [] {
      var init, p := places[..|places| - 1], places[|places| - 1];
      PlacesAllKeeps(init, cache, answer);
      PlaceItemCache(PlacesAll(init, cache, answer), p, answer);
    }
  }

  lemma {:induction false} PlacesAllKeys(places: seq<Value>, cache: map<Value, Value>, answer: Request -> Reply)
    ensures PlacesAll(places, cache, answer).cache.Keys == cache.Keys + SubIdsOf(places)
    decreases |places|
  {
    if places != [] {
      var init, p := places[..|places| - 1], places[|places| - 1];
      assert places == init + [p];
      PlacesAllKeys(init, cache, answer);
      SubIdsOfSnoc(init, p);
      PlaceItemCache(PlacesAll(init, cache, answer), p, answer);
    }
  }

  lemma {:induction false} PlacesAllFetched(places: seq<Value>, cache: map<Value, Value>, answer: Request -> Reply)
    ensures var st := PlacesAll(places, cache, answer);
      && NoDuplicates(st.fetched)
      && (forall k :: k in st.fetched <==> k in SubIdsOf(places) && k !in cache)
    decreases |places|
  {
    if places != [] {
      var init, p := places[..|places| - 1], places[|places| - 1];
      assert places == init + [p];
      PlacesAllFetched(init, cache, answer);
      PlacesAllKeys(init, cache, answer);
      SubIdsOfSnoc(init, p);
      PlaceItemCache(PlacesAll(init, cache, answer), p, answer);
    }
  }

  /** Each new place-cache entry is the merge of a place of the list carrying
      that sub-identifier with the detail fetched for it. */
  lemma {:induction false} PlacesAllNewEntries(places: seq<Value>, cache: map<Value, Value>, answer: Request -> Reply)
    ensures var st := PlacesAll(places, cache, answer);
      forall k :: k in st.cache && k !in cache ==>
        exists p :: p in places && HasSubId(p) && SubId(p) == k
                    && st.cache[k] == MergedPlace(p, answer(DetailRequest(k)))
    decreases |places|
  {
    if places != [] {
      var init, p := places[..|places| - 1], places[|places| - 1];
      assert places == init + [p];
      PlacesAllNewEntries(init, cache, answer);
      var st0 := PlacesAll(init, cache, answer);
      var st := PlacesAll(places, cache, answer);
      assert st == PlaceItem(st0, p, answer);
      PlaceItemCache(st0, p, answer);
      forall k | k in st.cache && k !in cache
        ensures exists q :: q in places && HasSubId(q) && SubId(q) == k
                            && st.cache[k] == MergedPlace(q, answer(DetailRequest(k)))
      {
        if k in st0.cache && st.cache[k] == st0.cache[k] {
          var q :| q in init && HasSubId(q) && SubId(q) == k
                   && st0.cache[k] == MergedPlace(q, answer(DetailRequest(k)));
          assert q in places;
        } else {
          assert p in places;
        }
      }
    }
  }

  /**
   * Places keep their list order: place j yields nothing when it is nullish
   * or has no `subcontentid`, and otherwise exactly the cached record of its
   * sub-identifier, so a later place with a cached sub-identifier gets the
   * stored record unchanged.
   */
  lemma {:induction false} PlacesAllOutcomes(places: seq<Value>, cache: map<Value, Value>, answer: Request -> Reply)
    ensures var st := PlacesAll(places, cache, answer);
      && |st.outcomes| == |places|
      && (forall j :: 0 <= j < |places| && HasSubId(places[j]) ==> SubId(places[j]) in st.cache)
      && forall j :: 0 <= j < |places| ==>
           st.outcomes[j] == if HasSubId(places[j]) then Some(st.cache[SubId(places[j])]) else None
    decreases |places|
  {
    if places != [] {
      var init, p := places[..|places| - 1], places[|places| - 1];
      PlacesAllOutcomes(init, cache, answer);
      var st0 := PlacesAll(init, cache, answer);
      var st := PlacesAll(places, cache, answer);
      assert st == PlaceItem(st0, p, answer);
      PlaceItemCache(st0, p, answer);
      forall j | 0 <= j < |places|
        ensures HasSubId(places[j]) ==> SubId(places[j]) in st.cache
        ensures st.outcomes[j] == if HasSubId(places[j]) then Some(st.cache[SubId(places[j])]) else None
      {
        if j < |init| {
          assert places[j] == init[j] && st.outcomes[j] == st0.outcomes[j];
        } else {
          assert places[j] == p;
        }
      }
    }
  }

  /** The records that survive `allSettled` and `filter(Boolean)`, in order. */
  function Kept(outcomes: seq<Option<Value>>): (r: seq<Value>)
    ensures |r| <= |outcomes|
  {
    if outcomes == [] then []
    else
      var init := Kept(outcomes[..|outcomes| - 1]);
      match outcomes[|outcomes| - 1]
      case Some(v) => init + [v]
      case None => init
  }

  /** `Kept` works element by element: it distributes over concatenation,
      so survivors keep their input order and a dropped outcome shifts
      nothing else. */
  lemma {:induction false} KeptAppend(a: seq<Option<Value>>, b: seq<Option<Value>>)
    ensures Kept(a + b) == Kept(a) + Kept(b)
    decreases |b|
  {
    if b != [] {
      var b', x := b[..|b| - 1], b[|b| - 1];
      assert (a + b)[..|a + b| - 1] == a + b';
      assert (a + b)[|a + b| - 1] == x;
      KeptAppend(a, b');
    } else {
      assert a + b == a;
    }
  }

  /** A record survives exactly when some outcome holds it. */
  lemma {:induction false} KeptMembers(outcomes: seq<Option<Value>>)
    ensures forall v :: v in Kept(outcomes) <==> Some(v) in outcomes
  {
    if outcomes != [] {
      var init := outcomes[..|outcomes| - 1];
      assert outcomes == init + [outcomes[|outcomes| - 1]];
      KeptMembers(init);
    }
  }

  /** With nothing filtered out, `Kept` is the records one for one. */
  lemma {:induction false} KeptAll(outcomes: seq<Option<Value>>)
    requires forall i :: 0 <= i < |outcomes| ==> outcomes[i].Some?
    ensures |Kept(outcomes)| == |outcomes|
    ensures forall i :: 0 <= i < |outcomes| ==> Kept(outcomes)[i] == outcomes[i].value
  {
    if outcomes != [] {
      KeptAll(outcomes[..|outcomes| - 1]);
    }
  }

  // ---------------------------------------------------------------------
  // Courses

  /** `{ contentid, contenttypeid, title, firstimage, overview, places }` */
  function CourseRecord(course: Value, overview: Value, places: seq<Value>): Value
  {
    Obj(map[
      "contentid" := Get(course, "contentid"),
      "contenttypeid" := Get(course, "contenttypeid"),
      "title" := Get(course, "title"),
      "firstimage" := Get(course, "firstimage"),
      "overview" := overview,
      "places" := Arr(places)])
  }

  /** What one course of the list does: its record (`None` when reading its
      fields throws), both caches afterwards, and the upstream requests it
      made, in order. */
  datatype CourseStep = CourseStep(record: Option<Value>, courseCache: map<Value, Value>,
                                   placeCache: map<Value, Value>, requests: seq<Request>)

  /** A course that is not in the course cache: overview, places, place
      details, record. */
  function BuildCourse(course: Value, placeCache: map<Value, Value>, answer: Request -> Reply): (Value, PlaceState)
  {
    var id := Get(course, "contentid");
    var overview := OverviewOf(answer(DetailRequest(id)));
    var ps := PlacesAll(PlacesOf(answer(PlacesRequest(id))), placeCache, answer);
    (CourseRecord(course, overview, Kept(ps.outcomes)), ps)
  }

  function StepCourse(course: Value, courseCache: map<Value, Value>, placeCache: map<Value, Value>,
                      answer: Request -> Reply): CourseStep
  {
    if Nullish(course) then CourseStep(None, courseCache, placeCache, [])
    else
      var id := Get(course, "contentid");
      if id in courseCache then CourseStep(Some(courseCache[id]), courseCache, placeCache, [])
      else
        var (record, ps) := BuildCourse(course, placeCache, answer);
        CourseStep(Some(record), courseCache[id := record], ps.cache,
                   [DetailRequest(id), PlacesRequest(id)] + DetailRequests(ps.fetched))
  }

  /** A course missing from the course cache is built and then cached. */
  lemma StepUncachedCourse(course: Value, courseCache: map<Value, Value>, placeCache: map<Value, Value>,
                           answer: Request -> Reply)
    requires !Nullish(course) && Get(course, "contentid") !in courseCache
    ensures var built := BuildCourse(course, placeCache, answer);
      var id := Get(course, "contentid");
      StepCourse(course, courseCache, placeCache, answer)
        == CourseStep(Some(built.0), courseCache[id := built.0], built.1.cache,
                      [DetailRequest(id), PlacesRequest(id)] + DetailRequests(built.1.fetched))
  {
  }

  /** Course records in list order, both caches afterwards, and the upstream
      requests made. */
  datatype CourseState = CourseState(records: seq<Option<Value>>, courseCache: map<Value, Value>,
                                     placeCache: map<Value, Value>, trace: seq<Request>)

  function CourseAll(courses: seq<Value>, courseCache: map<Value, Value>, placeCache: map<Value, Value>,
                     answer: Request -> Reply): CourseState
    decreases |courses|
  {
    if courses == [] then CourseState([], courseCache, placeCache, [])
    else
      var st := CourseAll(courses[..|courses| - 1], courseCache, placeCache, answer);
      var step := StepCourse(courses[|courses| - 1], st.courseCache, st.placeCache, answer);
      CourseState(st.records + [step.record], step.courseCache, step.placeCache, st.trace + step.requests)
  }

  /**
   * A cached course is returned verbatim with no upstream call; an uncached
   * one makes the overview call, then the places call, then one detail call
   * per uncached place, is stored in the course cache under its
   * `contentid`, and never evicts a place-cache entry.
   */
  lemma StepCourseEffects(course: Value, courseCache: map<Value, Value>, placeCache: map<Value, Value>,
                          answer: Request -> Reply)
    requires !Nullish(course)
    ensures var id := Get(course, "contentid");
      var s := StepCourse(course, courseCache, placeCache, answer);
      && (id in courseCache ==> s == CourseStep(Some(courseCache[id]), courseCache, placeCache, []))
      && (id !in courseCache ==>
            && s.record == Some(s.courseCache[id])
            && s.courseCache == courseCache[id := s.courseCache[id]]
            && |s.requests| >= 2 && s.requests[..2] == [DetailRequest(id), PlacesRequest(id)]
            && (forall r :: r in s.requests[2..] ==> r.endpoint == DetailCommonApi)
            && (forall k :: k in placeCache ==> k in s.placeCache && s.placeCache[k] == placeCache[k])
            && s.courseCache[id].Obj?
            && s.courseCache[id].fields["contentid"] == id
            && s.courseCache[id].fields["overview"] == OverviewOf(answer(DetailRequest(id))))
  {
    var id := Get(course, "contentid");
    if id !in courseCache {
      var built := BuildCourse(course, placeCache, answer);
      StepUncachedCourse(course, courseCache, placeCache, answer);
      UncachedRequests(id, built.1.fetched);
      PlacesAllKeeps(PlacesOf(answer(PlacesRequest(id))), placeCache, answer);
    }
  }

  /** The requests of an uncached course: the overview and places calls,
      then only detail calls. */
  lemma UncachedRequests(id: Value, fetched: seq<Value>)
    ensures var requests := [DetailRequest(id), PlacesRequest(id)] + DetailRequests(fetched);
      && |requests| >= 2 && requests[..2] == [DetailRequest(id), PlacesRequest(id)]
      && forall r :: r in requests[2..] ==> r.endpoint == DetailCommonApi
  {
    var requests := [DetailRequest(id), PlacesRequest(id)] + DetailRequests(fetched);
    assert requests[2..] == DetailRequests(fetched);
  }

  /** When the places call of an uncached course fails, its record keeps the
      overview the other call gave and has `places: []`, the place cache is
      unchanged and no detail call follows. */
  lemma PlacesFailure(course: Value, courseCache: map<Value, Value>, placeCache: map<Value, Value>,
                      answer: Request -> Reply)
    requires !Nullish(course) && Get(course, "contentid") !in courseCache
    requires answer(PlacesRequest(Get(course, "contentid"))).Failed?
    ensures var s := StepCourse(course, courseCache, placeCache, answer);
      var id := Get(course, "contentid");
      && s.record == Some(CourseRecord(course, OverviewOf(answer(DetailRequest(id))), []))
      && s.placeCache == placeCache
      && s.courseCache == courseCache[id := s.record.value]
      && s.requests == [DetailRequest(id), PlacesRequest(id)]
  {
    assert PlacesAll([], placeCache, answer) == PlaceState([], placeCache, []);
  }

  /** When both calls of an uncached course fail, its record is the degraded
      `{..., overview: null, places: []}` and nothing else is fetched. */
  lemma DegradedCourse(course: Value, courseCache: map<Value, Value>, placeCache: map<Value, Value>,
                       answer: Request -> Reply)
    requires !Nullish(course) && Get(course, "contentid") !in courseCache
    requires answer(DetailRequest(Get(course, "contentid"))).Failed?
    requires answer(PlacesRequest(Get(course, "contentid"))).Failed?
    ensures var s := StepCourse(course, courseCache, placeCache, answer);
      && s.record == Some(CourseRecord(course, Null, []))
      && s.placeCache == placeCache
      && s.requests == [DetailRequest(Get(course, "contentid")), PlacesRequest(Get(course, "contentid"))]
  {
    PlacesFailure(course, courseCache, placeCache, answer);
  }

  ghost function CourseIdsOf(courses: seq<Value>): set<Value>
  {
    set c | c in courses && !Nullish(c) :: Get(c, "contentid")
  }

  lemma CourseIdsOfSnoc(courses: seq<Value>, c: Value)
    ensures CourseIdsOf(courses + [c]) == CourseIdsOf(courses) + (if !Nullish(c) then {Get(c, "contentid")} else {})
  {
    assert forall y :: y in courses + [c] <==> y in courses || y == c;
  }

  /** One course on the caches: old entries of both are kept; a readable
      course ends with its identifier in the course cache and yields exactly
      that entry; a nullish one yields nothing and changes nothing. */
  lemma StepCourseCaches(course: Value, courseCache: map<Value, Value>, placeCache: map<Value, Value>,
                         answer: Request -> Reply)
    ensures var s := StepCourse(course, courseCache, placeCache, answer);
      var id := Get(course, "contentid");
      && (forall k :: k in courseCache ==> k in s.courseCache && s.courseCache[k] == courseCache[k])
      && (forall k :: k in placeCache ==> k in s.placeCache && s.placeCache[k] == placeCache[k])
      && (Nullish(course) ==> s.record.None? && s.courseCache == courseCache)
      && (!Nullish(course) ==>
            && s.courseCache.Keys == courseCache.Keys + {id}
            && s.record == Some(s.courseCache[id]))
  {
    var id := Get(course, "contentid");
    if !Nullish(course) && id !in courseCache {
      var built := BuildCourse(course, placeCache, answer);
      StepUncachedCourse(course, courseCache, placeCache, answer);
      PlacesAllKeeps(PlacesOf(answer(PlacesRequest(id))), placeCache, answer);
      assert courseCache[id := built.0].Keys == courseCache.Keys + {id};
    }
  }

  /** Old entries of both caches are never overwritten, and every course
      identifier of the list ends up in the course cache, degraded or not. */
  lemma CourseAllCaches(courses: seq<Value>, courseCache: map<Value, Value>,
                        placeCache: map<Value, Value>, answer: Request -> Reply)
    ensures var st := CourseAll(courses, courseCache, placeCache, answer);
      && (forall k :: k in courseCache ==> k in st.courseCache && st.courseCache[k] == courseCache[k])
      && st.courseCache.Keys == courseCache.Keys + CourseIdsOf(courses)
      && (forall k :: k in placeCache ==> k in st.placeCache && st.placeCache[k] == placeCache[k])
  {
    CourseAllKeeps(courses, courseCache, placeCache, answer);
    CourseAllKeys(courses, courseCache, placeCache, answer);
  }

  lemma {:induction false} CourseAllKeeps(courses: seq<Value>, courseCache: map<Value, Value>,
                                         placeCache: map<Value, Value>, answer: Request -> Reply)
    ensures var st := CourseAll(courses, courseCache, placeCache, answer);
      && (forall k :: k in courseCache ==> k in st.courseCache && st.courseCache[k] == courseCache[k])
      && (forall k :: k in placeCache ==> k in st.placeCache && st.placeCache[k] == placeCache[k])
    decreases |courses|
  {
    if courses != [] {
      var init, c := courses[..|courses| - 1], courses[|courses| - 1];
      CourseAllKeeps(init, courseCache, placeCache, answer);
      var st0 := CourseAll(init, courseCache, placeCache, answer);
      StepCourseCaches(c, st0.courseCache, st0.placeCache, answer);
    }
  }

  lemma {:induction false} CourseAllKeys(courses: seq<Value>, courseCache: map<Value, Value>,
                                        placeCache: map<Value, Value>, answer: Request -> Reply)
    ensures CourseAll(courses, courseCache, placeCache, answer).courseCache.Keys == courseCache.Keys + CourseIdsOf(courses)
    decreases |courses|
  {
    if courses != [] {
      var init, c := courses[..|courses| - 1], courses[|courses| - 1];
      assert courses == init + [c];
      CourseAllKeys(init, courseCache, placeCache, answer);
      CourseIdsOfSnoc(init, c);
      var st0 := CourseAll(init, courseCache, placeCache, answer);
      StepCourseCaches(c, st0.courseCache, st0.placeCache, answer);
    }
  }

  /** A course's record, read from a course cache that already holds its
      identifier, does not change as the cache grows. */
  lemma RecordStable(course: Value, c0: map<Value, Value>, c1: map<Value, Value>)
    requires !Nullish(course) ==> Get(course, "contentid") in c0
    requires forall k :: k in c0 ==> k in c1 && c1[k] == c0[k]
    ensures !Nullish(course) ==> Get(course, "contentid") in c1 && c1[Get(course, "contentid")] == c0[Get(course, "contentid")]
  {
  }

  /**
   * Every course yields its record in its own position: a nullish course
   * (whose destructuring throws) yields nothing, every other course yields
   * exactly what the course cache holds for its identifier afterwards.
   */
  lemma {:induction false} CourseAllRecords(courses: seq<Value>, courseCache: map<Value, Value>,
                                           placeCache: map<Value, Value>, answer: Request -> Reply)
    ensures var st := CourseAll(courses, courseCache, placeCache, answer);
      && |st.records| == |courses|
      && (forall i :: 0 <= i < |courses| && !Nullish(courses[i]) ==> Get(courses[i], "contentid") in st.courseCache)
      && forall i :: 0 <= i < |courses| ==>
           st.records[i] == if Nullish(courses[i]) then None else Some(st.courseCache[Get(courses[i], "contentid")])
    decreases |courses|
  {
    if courses != [] {
      var init, c := courses[..|courses| - 1], courses[|courses| - 1];
      CourseAllRecords(init, courseCache, placeCache, answer);
      var st0 := CourseAll(init, courseCache, placeCache, answer);
      var st := CourseAll(courses, courseCache, placeCache, answer);
      var step := StepCourse(c, st0.courseCache, st0.placeCache, answer);
      assert st.records == st0.records + [step.record] && st.courseCache == step.courseCache;
      StepCourseCaches(c, st0.courseCache, st0.placeCache, answer);
      forall i | 0 <= i < |courses|
        ensures !Nullish(courses[i]) ==> Get(courses[i], "contentid") in st.courseCache
        ensures st.records[i] == if Nullish(courses[i]) then None else Some(st.courseCache[Get(courses[i], "contentid")])
      {
        if i < |init| {
          assert courses[i] == init[i] && st.records[i] == st0.records[i];
          RecordStable(init[i], st0.courseCache, st.courseCache);
        } else {
          assert courses[i] == c && st.records[i] == step.record;
        }
      }
    }
  }

  /** When every course of the list is cached, the courses make no upstream
      call and change no cache. */
  lemma {:induction false} CachedCoursesFetchNothing(courses: seq<Value>, courseCache: map<Value, Value>,
                                                    placeCache: map<Value, Value>, answer: Request -> Reply)
    requires CourseIdsOf(courses) <= courseCache.Keys
    ensures var st := CourseAll(courses, courseCache, placeCache, answer);
      st.trace == [] && st.courseCache == courseCache && st.placeCache == placeCache
    decreases |courses|
  {
    if courses != [] {
      var init, c := courses[..|courses| - 1], courses[|courses| - 1];
      assert courses == init + [c];
      CourseIdsOfSnoc(init, c);
      CachedCoursesFetchNothing(init, courseCache, placeCache, answer);
    }
  }

  // ---------------------------------------------------------------------
  // The handler

  const CourseFailureMessage := "API 호출 실패"

  datatype CourseRun = CourseRun(response: Response, courseCache: map<Value, Value>,
                                 placeCache: map<Value, Value>, trace: seq<Request>)

  function HandleCourseSpec(numOfRowsQ: Option<string>, courseCache: map<Value, Value>,
                            placeCache: map<Value, Value>, answer: Request -> Reply): CourseRun
  {
    var req := CourseListRequest(numOfRowsQ);
    match answer(req)
    case Failed(msg) =>
      CourseRun(Response(500, Obj(map["error" := Str(CourseFailureMessage), "details" := Str(msg)])),
                courseCache, placeCache, [req])
    case Ok(data) =>
      var st := CourseAll(NormaliseCourseItems(ItemOf(data)), courseCache, placeCache, answer);
      CourseRun(Response(200, Arr(Kept(st.records))), st.courseCache, st.placeCache, [req] + st.trace)
  }

  /**
   * Only a failed course-list call makes the request fail, with a 500 that
   * leaves both caches as they were; otherwise the response is 200 and,
   * when no course of the list is nullish, lists one record per course in
   * list order, each being the course cache's record for that course.
   */
  lemma HandleCourseOutcome(numOfRowsQ: Option<string>, courseCache: map<Value, Value>,
                            placeCache: map<Value, Value>, answer: Request -> Reply)
    ensures var run := HandleCourseSpec(numOfRowsQ, courseCache, placeCache, answer);
      var reply := answer(CourseListRequest(numOfRowsQ));
      && (run.response.status == 500 <==> reply.Failed?)
      && (reply.Failed? ==> run.courseCache == courseCache && run.placeCache == placeCache
                            && run.trace == [CourseListRequest(numOfRowsQ)])
      && (reply.Ok? ==> run.response.status == 200 && run.response.body.Arr? && run.trace[0] == CourseListRequest(numOfRowsQ))
      && (reply.Ok? ==>
            var courses := NormaliseCourseItems(ItemOf(reply.data));
            (forall i :: 0 <= i < |courses| ==> !Nullish(courses[i])) ==>
              && |run.response.body.elems| == |courses|
              && (forall i :: 0 <= i < |courses| ==> Get(courses[i], "contentid") in run.courseCache)
              && forall i :: 0 <= i < |courses| ==>
                   run.response.body.elems[i] == run.courseCache[Get(courses[i], "contentid")])
  {
    var req := CourseListRequest(numOfRowsQ);
    if answer(req).Ok? {
      var courses := NormaliseCourseItems(ItemOf(answer(req).data));
      var st := CourseAll(courses, courseCache, placeCache, answer);
      assert HandleCourseSpec(numOfRowsQ, courseCache, placeCache, answer)
          == CourseRun(Response(200, Arr(Kept(st.records))), st.courseCache, st.placeCache, [req] + st.trace);
      if forall i :: 0 <= i < |courses| ==> !Nullish(courses[i]) {
        ListedCourses(courses, courseCache, placeCache, answer);
      }
    }
  }

  /** With no nullish course, the kept records are the course cache's
      entries for the courses, one for one. */
  lemma ListedCourses(courses: seq<Value>, courseCache: map<Value, Value>,
                      placeCache: map<Value, Value>, answer: Request -> Reply)
    requires forall i :: 0 <= i < |courses| ==> !Nullish(courses[i])
    ensures var st := CourseAll(courses, courseCache, placeCache, answer);
      && |Kept(st.records)| == |courses|
      && (forall i :: 0 <= i < |courses| ==> Get(courses[i], "contentid") in st.courseCache)
      && forall i :: 0 <= i < |courses| ==> Kept(st.records)[i] == st.courseCache[Get(courses[i], "contentid")]
  {
    CourseAllRecords(courses, courseCache, placeCache, answer);
    KeptAll(CourseAll(courses, courseCache, placeCache, answer).records);
  }

  /** After a successful request, the same request (with the upstream
      unchanged) makes only the course-list call and returns the same
      response. */
  lemma RepeatCourseRequest(numOfRowsQ: Option<string>, courseCache: map<Value, Value>,
                            placeCache: map<Value, Value>, answer: Request -> Reply)
    ensures var r1 := HandleCourseSpec(numOfRowsQ, courseCache, placeCache, answer);
      var r2 := HandleCourseSpec(numOfRowsQ, r1.courseCache, r1.placeCache, answer);
      r1.response.status == 200 ==>
        r2 == CourseRun(r1.response, r1.courseCache, r1.placeCache, [CourseListRequest(numOfRowsQ)])
  {
    var req := CourseListRequest(numOfRowsQ);
    if answer(req).Ok? {
      var courses := NormaliseCourseItems(ItemOf(answer(req).data));
      var st1 := CourseAll(courses, courseCache, placeCache, answer);
      CoursesAgain(courses, courseCache, placeCache, answer);
      assert [req] + [] == [req];
    }
  }

  /** Running a course list a second time, on the caches the first run left,
      fetches nothing and yields the same records and caches. */
  lemma CoursesAgain(courses: seq<Value>, courseCache: map<Value, Value>,
                     placeCache: map<Value, Value>, answer: Request -> Reply)
    ensures var st1 := CourseAll(courses, courseCache, placeCache, answer);
      CourseAll(courses, st1.courseCache, st1.placeCache, answer)
        == CourseState(st1.records, st1.courseCache, st1.placeCache, [])
  {
    var st1 := CourseAll(courses, courseCache, placeCache, answer);
    CourseAllCaches(courses, courseCache, placeCache, answer);
    CourseAllRecords(courses, courseCache, placeCache, answer);
    CourseAllRecords(courses, st1.courseCache, st1.placeCache, answer);
    CachedCoursesFetchNothing(courses, st1.courseCache, st1.placeCache, answer);
    var st2 := CourseAll(courses, st1.courseCache, st1.placeCache, answer);
    assert st2.records == st1.records;
  }

  // ---------------------------------------------------------------------
  // The service and its two process-wide caches

  class CourseService {
    var courseCache: map<Value, Value>
    var placeCache: map<Value, Value>

    constructor ()
      ensures courseCache == map[] && placeCache == map[]
    {
      courseCache := map[];
      placeCache := map[];
    }

    /** Each place of one course, in list order, through the place cache. */
    method FetchPlaces(net: Network, places: seq<Value>) returns (outcomes: seq<Option<Value>>)
      modifies this`placeCache, net
      ensures var st := PlacesAll(places, old(placeCache), net.answer);
        && outcomes == st.outcomes && placeCache == st.cache
        && net.trace == old(net.trace) + DetailRequests(st.fetched)
    {
      outcomes := [];
      var j := 0;
      while j < |places|
        invariant 0 <= j <= |places|
        invariant var st := PlacesAll(places[..j], old(placeCache), net.answer);
          && outcomes == st.outcomes && placeCache == st.cache
          && net.trace == old(net.trace) + DetailRequests(st.fetched)
      {
        ghost var st := PlacesAll(places[..j], old(placeCache), net.answer);
        ghost var step := PlaceOneSpec(placeCache, places[j], net.answer);
        assert places[..j + 1][..j] == places[..j];
        assert PlacesAll(places[..j + 1], old(placeCache), net.answer)
            == PlaceState(st.outcomes + [step.outcome], step.cache, st.fetched + step.fetched);
        var outcome := PlaceOne(net, places[j]);
        outcomes := outcomes + [outcome];
        DetailRequestsAppend(st.fetched, step.fetched);
        AppendAssociates(old(net.trace), DetailRequests(st.fetched), DetailRequests(step.fetched));
        j := j + 1;
      }
      assert places[..j] == places;
    }

    /** The callback run for one place. */
    method PlaceOne(net: Network, place: Value) returns (outcome: Option<Value>)
      modifies this`placeCache, net
      ensures var s := PlaceOneSpec(old(placeCache), place, net.answer);
        && outcome == s.outcome && placeCache == s.cache
        && net.trace == old(net.trace) + DetailRequests(s.fetched)
    {
      if Nullish(place) || !Truthy(SubId(place)) {
        return None;
      }
      var sid := SubId(place);
      if sid in placeCache {
        return Some(placeCache[sid]);
      }
      var reply := net.Get(DetailRequest(sid));
      var merged := MergedPlace(place, reply);
      placeCache := placeCache[sid := merged];
      outcome := Some(merged);
    }

    /** The record of a course that is not cached yet: overview, places, place
        details. */
    method BuildRecord(net: Network, course: Value) returns (record: Value)
      modifies this`placeCache, net
      ensures var (r, ps) := BuildCourse(course, old(placeCache), net.answer);
        var id := Get(course, "contentid");
        && record == r && placeCache == ps.cache
        && net.trace == old(net.trace) + [DetailRequest(id), PlacesRequest(id)] + DetailRequests(ps.fetched)
    {
      var id := Get(course, "contentid");
      var overview := Null;
      var overviewReply := net.Get(DetailRequest(id));
      if overviewReply.Ok? {
        overview := OverviewOf(overviewReply);
      }
      var places := [];
      var placesReply := net.Get(PlacesRequest(id));
      if placesReply.Ok? {
        places := NormaliseCourseItems(ItemOf(placesReply.data));
      }
      assert overview == OverviewOf(net.answer(DetailRequest(id)));
      assert places == PlacesOf(net.answer(PlacesRequest(id)));
      ghost var before := net.trace;
      assert before == old(net.trace) + [DetailRequest(id), PlacesRequest(id)];
      var outcomes := FetchPlaces(net, places);
      record := CourseRecord(course, overview, Kept(outcomes));
    }

    /** One course of the list: `None` when reading its fields throws. */
    method ProcessCourse(net: Network, course: Value) returns (record: Option<Value>)
      modifies this, net
      ensures var s := StepCourse(course, old(courseCache), old(placeCache), net.answer);
        && record == s.record && courseCache == s.courseCache && placeCache == s.placeCache
        && net.trace == old(net.trace) + s.requests
    {
      if Nullish(course) {
        return None;
      }
      var id := Get(course, "contentid");
      if id in courseCache {
        return Some(courseCache[id]);
      }
      ghost var built := BuildCourse(course, placeCache, net.answer);
      var courseData := BuildRecord(net, course);
      StepUncachedCourse(course, old(courseCache), old(placeCache), net.answer);
      AppendAssociates(old(net.trace), [DetailRequest(id), PlacesRequest(id)], DetailRequests(built.1.fetched));
      courseCache := courseCache[id := courseData];
      record := Some(courseData);
    }

    /** Every course of the list, in list order. */
    method ProcessCourses(net: Network, courses: seq<Value>) returns (records: seq<Option<Value>>)
      modifies this, net
      ensures var st := CourseAll(courses, old(courseCache), old(placeCache), net.answer);
        && records == st.records && courseCache == st.courseCache && placeCache == st.placeCache
        && net.trace == old(net.trace) + st.trace
    {
      records := [];
      var i := 0;
      while i < |courses|
        invariant 0 <= i <= |courses|
        invariant var st := CourseAll(courses[..i], old(courseCache), old(placeCache), net.answer);
          && records == st.records && courseCache == st.courseCache && placeCache == st.placeCache
          && net.trace == old(net.trace) + st.trace
      {
        ghost var st := CourseAll(courses[..i], old(courseCache), old(placeCache), net.answer);
        ghost var step := StepCourse(courses[i], st.courseCache, st.placeCache, net.answer);
        assert courses[..i + 1][..i] == courses[..i];
        assert CourseAll(courses[..i + 1], old(courseCache), old(placeCache), net.answer)
            == CourseState(st.records + [step.record], step.courseCache, step.placeCache, st.trace + step.requests);
        ghost var before := net.trace;
        var record := ProcessCourse(net, courses[i]);
        assert net.trace == before + step.requests;
        AppendAssociates(old(net.trace), st.trace, step.requests);
        records := records + [record];
        i := i + 1;
      }
      assert courses[..i] == courses;
    }

    /** `GET /course` with query `numOfRows`. */
    method HandleCourse(net: Network, numOfRowsQ: Option<string>) returns (response: Response)
      modifies this, net
      ensures var run := HandleCourseSpec(numOfRowsQ, old(courseCache), old(placeCache), net.answer);
        && response == run.response
        && courseCache == run.courseCache && placeCache == run.placeCache
        && net.trace == old(net.trace) + run.trace
    {
      var req := CourseListRequest(numOfRowsQ);
      var listReply := net.Get(req);
      if listReply.Failed? {
        return Response(500, Obj(map["error" := Str(CourseFailureMessage), "details" := Str(listReply.message)]));
      }
      var courses := NormaliseCourseItems(ItemOf(listReply.data));
      var records := ProcessCourses(net, courses);
      response := Response(200, Arr(Kept(records)));
    }
  }
}
