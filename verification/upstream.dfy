/**
 * The third-party tourism API as both aggregators use it: requests, replies,
 * the network as an oracle that records every request it is asked, and the
 * normalisation of the `response.body.items.item` envelope.
 */
module Upstream {
  import opened Js

  /** Base of every endpoint the aggregators call. */
  const ApiBase := "http://apis.data.go.kr/B551011/KorService2"
  const DetailCommonApi := ApiBase + "/detailCommon2"
  const DetailInfoApi := ApiBase + "/detailInfo2"
  const AreaBasedListApi := ApiBase + "/areaBasedList2"

  /** Caps of the two fan-out limiters (list-item details, place details).
      The model runs each fan-out sequentially, in index order. */
  const ListDetailConcurrency := 20
  const PlaceDetailConcurrency := 10

  /** One GET: the endpoint and its query parameters (the service credential
      every call carries is left out). */
  datatype Request = Request(endpoint: string, params: map<string, Value>)

  /** A parsed response body, or a rejected call (timeout, transport error or
      an error status) with its message. */
  datatype Reply = Ok(data: Value) | Failed(message: string)

  /** What a router sends back: an HTTP status and a JSON body. */
  datatype Response = Response(status: nat, body: Value)

  /** The per-identifier detail call (`detailCommon2`) shared by the list
      aggregator and both levels of the course aggregator. */
  function DetailRequest(contentId: Value): (r: Request)
    ensures r.endpoint == DetailCommonApi
    ensures "contentId" in r.params && r.params["contentId"] == contentId
  {
    Request(DetailCommonApi, map[
      "contentId" := contentId,
      "_type" := Str("json"),
      "MobileOS" := Str("ETC"),
      "MobileApp" := Str("AppTest")])
  }

  /** Detail requests for a sequence of identifiers, in the same order. */
  function DetailRequests(ids: seq<Value>): (r: seq<Request>)
    ensures |r| == |ids|
    ensures forall i :: 0 <= i < |ids| ==> r[i] == DetailRequest(ids[i])
  {
    if ids == [] then [] else DetailRequests(ids[..|ids| - 1]) + [DetailRequest(ids[|ids| - 1])]
  }

  /** The requests for two runs of identifiers, one after the other. */
  lemma DetailRequestsAppend(a: seq<Value>, b: seq<Value>)
    ensures DetailRequests(a + b) == DetailRequests(a) + DetailRequests(b)
  {
    var whole, parts := DetailRequests(a + b), DetailRequests(a) + DetailRequests(b);
    forall i | 0 <= i < |whole|
      ensures whole[i] == parts[i]
    {
      if i < |a| {
        assert (a + b)[i] == a[i];
      } else {
        assert (a + b)[i] == b[i - |a|];
      }
    }
  }

  /** Concatenating request traces is associative. */
  lemma AppendAssociates(a: seq<Request>, b: seq<Request>, c: seq<Request>)
    ensures a + (b + c) == (a + b) + c
  {
  }

  /**
   * The upstream service. `answer` fixes what the service replies to each
   * request; `trace` is every request made so far, in order.
   */
  class Network {
    const answer: Request -> Reply
    var trace: seq<Request>

    constructor (answer: Request -> Reply)
      ensures this.answer == answer && trace == []
    {
      this.answer := answer;
      trace := [];
    }

    method Get(req: Request) returns (r: Reply)
      modifies this
      ensures trace == old(trace) + [req]
      ensures r == answer(req)
    {
      r := answer(req);
      trace := trace + [req];
    }
  }

  /** No identifier occurs twice: each one was fetched at most once. */
  predicate NoDuplicates(s: seq<Value>)
  {
    forall i, j :: 0 <= i < j < |s| ==> s[i] != s[j]
  }

  /** `data?.response?.body?.items?.item` */
  function ItemOf(data: Value): Value
  {
    Get(Get(Get(Get(data, "response"), "body"), "items"), "item")
  }

  /** The list aggregator's form: `item || []`, then wrap a non-array. */
  function NormaliseItems(item: Value): seq<Value>
  {
    var x := Or(item, Arr([]));
    if x.Arr? then x.elems else [x]
  }

  /** `[...].filter(Boolean)` */
  function KeepTruthy(s: seq<Value>): (r: seq<Value>)
    ensures forall v :: v in r ==> Truthy(v)
  {
    if s == [] then []
    else if Truthy(s[|s| - 1]) then KeepTruthy(s[..|s| - 1]) + [s[|s| - 1]]
    else KeepTruthy(s[..|s| - 1])
  }

  /** `filter(Boolean)` works element by element: it distributes over
      concatenation, so the truthy values keep their input order. */
  lemma {:induction false} KeepTruthyAppend(a: seq<Value>, b: seq<Value>)
    ensures KeepTruthy(a + b) == KeepTruthy(a) + KeepTruthy(b)
    decreases |b|
  {
    if b != [] {
      var b', x := b[..|b| - 1], b[|b| - 1];
      assert (a + b)[..|a + b| - 1] == a + b';
      assert (a + b)[|a + b| - 1] == x;
      KeepTruthyAppend(a, b');
    } else {
      assert a + b == a;
    }
  }

  /** A value survives exactly when it is in the input and truthy. */
  lemma {:induction false} KeepTruthyMembers(s: seq<Value>)
    ensures forall v :: v in KeepTruthy(s) <==> v in s && Truthy(v)
  {
    if s != [] {
      var init := s[..|s| - 1];
      assert s == init + [s[|s| - 1]];
      KeepTruthyMembers(init);
    }
  }

  /** The course aggregator's form: an array is kept, anything else is
      wrapped and then dropped when falsy. */
  function NormaliseCourseItems(item: Value): seq<Value>
  {
    if item.Arr? then item.elems else KeepTruthy([item])
  }

  /**
   * Both envelope normalisations are one function: an array comes back
   * unchanged, a truthy non-array becomes a one-element sequence, and a falsy
   * or absent value becomes the empty sequence.
   */
  lemma NormalisationsAgree(item: Value)
    ensures NormaliseItems(item) == NormaliseCourseItems(item)
    ensures item.Arr? ==> NormaliseItems(item) == item.elems
    ensures !item.Arr? && Truthy(item) ==> NormaliseItems(item) == [item]
    ensures !Truthy(item) ==> NormaliseItems(item) == []
  {
    assert KeepTruthy([item]) == if Truthy(item) then [item] else [];
  }

  /** `if (Array.isArray(x)) x = x[0]` (undefined for an empty array). */
  function FirstIfArray(v: Value): (r: Value)
    ensures !v.Arr? ==> r == v
    ensures v.Arr? && v.elems != [] ==> r == v.elems[0]
    ensures v.Arr? && v.elems == [] ==> r == Undefined
  {
    if v.Arr? then (if v.elems == [] then Undefined else v.elems[0]) else v
  }
}
