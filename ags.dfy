/**
 * The Platform's mock Assignment and Grade Services store
 * (routes/platform-routes.js): an array of line items that the handlers
 * filter, append to, merge into and splice, and a score map whose entries
 * keep their insertion order, scanned by the results handler.
 */
module Ags {
  import opened Js

  /** The reply of an AGS handler. A handler that throws gets the framework's
      500 page, whose body is not modelled (None). */
  datatype Reply = Reply(status: nat, body: Option<Json>)

  const NotFoundBody: Json := JObj(map["error" := JStr("Line item not found")])

  // ---------------------------------------------------------------------------
  // Line items

  /** `${issuer}/lti/ags/${contextId}/lineitems/${n}` */
  function LineItemUrl(issuer: string, contextId: string, n: nat): string
  {
    issuer + "/lti/ags/" + contextId + "/lineitems/" + NatToDecimal(n)
  }

  const MockContext := "3d536dd2cf504f31b94d3670706a98a4"

  /** The two line items the store starts with, numbered 1 and 2 in the
      mock context, as the ids a create would have given them. */
  function InitialLineItems(issuer: string): (items: seq<Obj>)
    ensures |items| == 2
    ensures forall i :: 0 <= i < |items| ==> "id" in items[i] && items[i]["id"] == JStr(LineItemUrl(issuer, MockContext, i + 1))
  {
    [map[
       "id" := JStr(LineItemUrl(issuer, MockContext, 1)),
       "scoreMaximum" := JNum(100),
       "label" := JStr("Midterm Exam"),
       "resourceId" := JStr("midterm-exam"),
       "tag" := JStr("exam"),
       "resourceLinkId" := JStr("resource-link-1"),
       "startDateTime" := JStr("2024-03-01T09:00:00Z"),
       "endDateTime" := JStr("2024-03-01T11:00:00Z")],
     map[
       "id" := JStr(LineItemUrl(issuer, MockContext, 2)),
       "scoreMaximum" := JNum(50),
       "label" := JStr("Quiz 1"),
       "resourceId" := JStr("quiz-1"),
       "tag" := JStr("quiz"),
       "resourceLinkId" := JStr("resource-link-2")]]
  }

  /** `item[k] === v` for a filter `v` that is applied only when truthy. */
  predicate PassesFilter(item: Obj, k: string, v: Option<string>)
  {
    !TruthyStr(v) || StrictEqualsStr(Field(item, k), v)
  }

  /** `items.filter(item => item[k] === v)` when `v` is truthy, else `items`. */
  function FilterField(items: seq<Obj>, k: string, v: Option<string>): (r: seq<Obj>)
    ensures |r| <= |items|
  {
    if items == [] then []
    else (if PassesFilter(items[0], k, v) then [items[0]] else []) + FilterField(items[1..], k, v)
  }

  /** The three optional filters of the list handler. */
  datatype ListQuery = ListQuery(resourceId: Option<string>, resourceLinkId: Option<string>,
                                 tag: Option<string>, limit: Option<string>)

  predicate Matches(item: Obj, q: ListQuery)
  {
    && PassesFilter(item, "resourceId", q.resourceId)
    && PassesFilter(item, "resourceLinkId", q.resourceLinkId)
    && PassesFilter(item, "tag", q.tag)
  }

  /** The items passing all three filters at once, in store order. */
  function Matching(items: seq<Obj>, q: ListQuery): (r: seq<Obj>)
    ensures |r| <= |items|
  {
    if items == [] then []
    else (if Matches(items[0], q) then [items[0]] else []) + Matching(items[1..], q)
  }

  /** A member of `Matching` is an item of the store that passes every filter,
      and every such item is a member. */
  lemma {:induction false} MatchingMembers(items: seq<Obj>, q: ListQuery, x: Obj)
    ensures x in Matching(items, q) <==> x in items && Matches(x, q)
  {
    if items != [] {
      MatchingMembers(items[1..], q, x);
      assert items == [items[0]] + items[1..];
    }
  }

  /** Applying the filters one after another is filtering by all of them. */
  lemma {:induction false} FiltersCompose(items: seq<Obj>, q: ListQuery)
    ensures FilterField(FilterField(FilterField(items, "resourceId", q.resourceId),
                                    "resourceLinkId", q.resourceLinkId), "tag", q.tag)
         == Matching(items, q)
  {
    if items != [] {
      FiltersCompose(items[1..], q);
      var a := FilterField(items, "resourceId", q.resourceId);
      var b := FilterField(a, "resourceLinkId", q.resourceLinkId);
      if PassesFilter(items[0], "resourceId", q.resourceId) {
        assert a[0] == items[0] && a[1..] == FilterField(items[1..], "resourceId", q.resourceId);
        if PassesFilter(items[0], "resourceLinkId", q.resourceLinkId) {
          assert b[0] == items[0] && b[1..] == FilterField(a[1..], "resourceLinkId", q.resourceLinkId);
        } else {
          assert b == FilterField(a[1..], "resourceLinkId", q.resourceLinkId);
        }
      } else {
        assert a == FilterField(items[1..], "resourceId", q.resourceId);
      }
    }
  }

  /** The outcome of `items.find(item => item.id.endsWith(key))`: the first
      match, none, or a TypeError thrown at an item whose `id` is not a string. */
  datatype Lookup = Found(index: nat) | Missing | IdNotString

  predicate HasStringId(item: Obj)
  {
    "id" in item && item["id"].JStr?
  }

  predicate IdEndsWith(item: Obj, key: string)
  {
    HasStringId(item) && EndsWith(item["id"].s, key)
  }

  /** Every item before index `n` has a string id that does not end with `key`. */
  predicate PassedOver(items: seq<Obj>, key: string, n: nat)
    requires n <= |items|
  {
    forall j :: 0 <= j < n ==> HasStringId(items[j]) && !IdEndsWith(items[j], key)
  }

  function FindFrom(items: seq<Obj>, key: string, i: nat): (r: Lookup)
    requires i <= |items| && PassedOver(items, key, i)
    ensures r.Found? ==> r.index < |items| && IdEndsWith(items[r.index], key) && PassedOver(items, key, r.index)
    ensures r.Missing? ==> PassedOver(items, key, |items|)
    ensures r.IdNotString? ==> exists j :: 0 <= j < |items| && !HasStringId(items[j]) && PassedOver(items, key, j)
    decreases |items| - i
  {
    if i == |items| then Missing
    else if !HasStringId(items[i]) then IdNotString
    else if EndsWith(items[i]["id"].s, key) then Found(i)
    else FindFrom(items, key, i + 1)
  }

  /** The lookup of the get, update and delete handlers. */
  function FindBySuffix(items: seq<Obj>, key: string): (r: Lookup)
    ensures r.Found? ==> r.index < |items| && IdEndsWith(items[r.index], key) && PassedOver(items, key, r.index)
    ensures r.Missing? ==> PassedOver(items, key, |items|)
    ensures r.IdNotString? ==> exists j :: 0 <= j < |items| && !HasStringId(items[j]) && PassedOver(items, key, j)
  {
    FindFrom(items, key, 0)
  }

  /** The lookup answers Found exactly at the first item whose id ends with
      the key, when every item before it has a string id. */
  lemma FindBySuffixFirst(items: seq<Obj>, key: string, i: nat)
    requires i < |items| && IdEndsWith(items[i], key) && PassedOver(items, key, i)
    ensures FindBySuffix(items, key) == Found(i)
  {
  }

  /** The item a create appends: the generated id, then the request body's
      properties, which win over the generated id. */
  function NewLineItem(issuer: string, contextId: string, count: nat, body: Obj): (item: Obj)
    ensures item.Keys == body.Keys + {"id"}
    ensures "id" !in body ==> item["id"] == JStr(LineItemUrl(issuer, contextId, count + 1))
    ensures forall k :: k in body ==> item[k] == body[k]
  {
    map["id" := JStr(LineItemUrl(issuer, contextId, count + 1))] + body
  }

  /** `items.splice(i, 1)` */
  function RemoveAt<T>(items: seq<T>, i: nat): (r: seq<T>)
    requires i < |items|
    ensures |r| == |items| - 1
    ensures forall j :: 0 <= j < i ==> r[j] == items[j]
    ensures forall j :: i <= j < |r| ==> r[j] == items[j + 1]
  {
    items[..i] + items[i + 1..]
  }

  /** The id of a created item comes from the array's length, so after a
      delete of any item but the last, a create hands out the id the last
      item already has. */
  lemma CreateAfterDeleteRepeatsId(issuer: string, contextId: string, items: seq<Obj>, i: nat, body: Obj)
    requires 2 <= |items| && i < |items| - 1
    requires "id" in items[|items| - 1] && items[|items| - 1]["id"] == JStr(LineItemUrl(issuer, contextId, |items|))
    requires "id" !in body
    ensures var rest := RemoveAt(items, i);
      NewLineItem(issuer, contextId, |rest|, body)["id"] == rest[|rest| - 1]["id"]
  {
    var rest := RemoveAt(items, i);
    assert rest[|rest| - 1] == items[|items| - 1];
  }

  // ---------------------------------------------------------------------------
  // Scores

  /** A `Map` as its entries in insertion order. */
  type Entries = seq<(string, Obj)>

  predicate DistinctKeys(m: Entries)
  {
    forall i, j :: 0 <= i < j < |m| ==> m[i].0 != m[j].0
  }

  predicate HasKey(m: Entries, k: string)
  {
    exists i :: 0 <= i < |m| && m[i].0 == k
  }

  /** `m.set(k, v)`: an existing entry keeps its place and takes the new
      value; a new key is appended. */
  function MapSet(m: Entries, k: string, v: Obj): (r: Entries)
    ensures |r| == if HasKey(m, k) then |m| else |m| + 1
  {
    if m == [] then [(k, v)]
    else if m[0].0 == k then [(k, v)] + m[1..]
    else
      assert HasKey(m, k) <==> HasKey(m[1..], k) by {
        if HasKey(m, k) { var i :| 0 <= i < |m| && m[i].0 == k; assert m[1..][i - 1].0 == k; }
        if HasKey(m[1..], k) { var i :| 0 <= i < |m| - 1 && m[1..][i].0 == k; assert m[i + 1].0 == k; }
      }
      [m[0]] + MapSet(m[1..], k, v)
  }

  /** After `set`, the key holds the new value exactly once, every other
      entry is unchanged and in place, and keys stay distinct. */
  lemma MapSetSpec(m: Entries, k: string, v: Obj)
    requires DistinctKeys(m)
    ensures DistinctKeys(MapSet(m, k, v))
    ensures (k, v) in MapSet(m, k, v)
    ensures forall e :: e in m && e.0 != k ==> e in MapSet(m, k, v)
    ensures forall e :: e in MapSet(m, k, v) ==> e == (k, v) || (e in m && e.0 != k)
  {
    MapSetEntries(m, k, v);
    MapSetDistinct(m, k, v);
  }

  /** The entries after `set`: the new one, and every old one with another key. */
  lemma {:induction false} MapSetEntries(m: Entries, k: string, v: Obj)
    requires DistinctKeys(m)
    ensures (k, v) in MapSet(m, k, v)
    ensures forall e :: e in m && e.0 != k ==> e in MapSet(m, k, v)
    ensures forall e :: e in MapSet(m, k, v) ==> e == (k, v) || (e in m && e.0 != k)
  {
    if m != [] && m[0].0 != k {
      MapSetEntries(m[1..], k, v);
      var r := MapSet(m, k, v);
      assert r == [m[0]] + MapSet(m[1..], k, v);
      forall e | e in m && e.0 != k ensures e in r {
        if e != m[0] { assert e in m[1..]; }
      }
    } else if m != [] {
      var r := MapSet(m, k, v);
      forall e | e in m && e.0 != k ensures e in r {
        assert e != m[0];
        assert e in m[1..];
      }
      forall e | e in r ensures e == (k, v) || (e in m && e.0 != k) {
        if e != (k, v) {
          var i :| 1 <= i < |r| && r[i] == e;
          assert e == m[i];
          assert m[i].0 != m[0].0;
        }
      }
    }
  }

  /** `set` keeps the keys distinct. */
  lemma {:induction false} MapSetDistinct(m: Entries, k: string, v: Obj)
    requires DistinctKeys(m)
    ensures DistinctKeys(MapSet(m, k, v))
  {
    if m != [] && m[0].0 != k {
      MapSetDistinct(m[1..], k, v);
      MapSetEntries(m[1..], k, v);
      var r := MapSet(m, k, v);
      assert r == [m[0]] + MapSet(m[1..], k, v);
      forall i, j | 0 <= i < j < |r| ensures r[i].0 != r[j].0 {
        if i == 0 {
          assert r[j] in MapSet(m[1..], k, v);
          if r[j] != (k, v) {
            var j' :| 0 <= j' < |m[1..]| && m[1..][j'] == r[j];
            assert m[j' + 1] == r[j];
          }
        }
      }
    }
  }

  /** `${lineItemId}-${userId}`: the key a score is stored under. */
  function ScoreKey(lineItemId: string, body: Obj): string
  {
    lineItemId + "-" + OptString(Field(body, "userId"))
  }

  /** The stored score: the submitted fields, with the time of submission and
      the progress values filled in when absent or empty. */
  function ScoreOf(body: Obj, nowIso: string): (score: Obj)
    ensures Field(score, "userId") == Field(body, "userId")
    ensures Field(score, "scoreGiven") == Field(body, "scoreGiven")
    ensures Field(score, "scoreMaximum") == Field(body, "scoreMaximum")
    ensures Field(score, "comment") == Field(body, "comment")
    ensures Field(score, "timestamp") == Some(OrElse(Field(body, "timestamp"), JStr(nowIso)))
    ensures Field(score, "activityProgress") == Some(OrElse(Field(body, "activityProgress"), JStr("Completed")))
    ensures Field(score, "gradingProgress") == Some(OrElse(Field(body, "gradingProgress"), JStr("FullyGraded")))
  {
    var withUser := WithField(map[], "userId", Field(body, "userId"));
    var withGiven := WithField(withUser, "scoreGiven", Field(body, "scoreGiven"));
    var withMaximum := WithField(withGiven, "scoreMaximum", Field(body, "scoreMaximum"));
    var withComment := WithField(withMaximum, "comment", Field(body, "comment"));
    withComment["timestamp" := OrElse(Field(body, "timestamp"), JStr(nowIso))]
               ["activityProgress" := OrElse(Field(body, "activityProgress"), JStr("Completed"))]
               ["gradingProgress" := OrElse(Field(body, "gradingProgress"), JStr("FullyGraded"))]
  }

  /** The results handler's test, as written: the key starts with the line
      item id from the path. */
  predicate KeyStartsWith(key: string, lineItemId: string)
  {
    StartsWith(key, lineItemId)
  }

  /** The intended test: the score was stored under this line item, that is,
      its key is the line item id, `-`, and the score's own user id. */
  predicate StoredUnder(key: string, score: Obj, lineItemId: string)
  {
    key == lineItemId + "-" + OptString(Field(score, "userId"))
  }

  /** `!userId || score.userId === userId` */
  predicate UserMatches(score: Obj, userId: Option<string>)
  {
    !TruthyStr(userId) || StrictEqualsStr(Field(score, "userId"), userId)
  }

  /** One result record of the results handler. */
  function ResultOf(issuer: string, contextId: string, lineItemId: string, key: string, score: Obj): (r: Obj)
    ensures Field(r, "id") == Some(JStr("result-" + key))
    ensures Field(r, "userId") == Field(score, "userId")
    ensures Field(r, "resultScore") == Field(score, "scoreGiven")
    ensures Field(r, "resultMaximum") == Field(score, "scoreMaximum")
  {
    var base := map["id" := JStr("result-" + key),
                    "scoreOf" := JStr(issuer + "/lti/ags/" + contextId + "/lineitems/" + lineItemId)];
    var withUser := WithField(base, "userId", Field(score, "userId"));
    var withScore := WithField(withUser, "resultScore", Field(score, "scoreGiven"));
    var withMaximum := WithField(withScore, "resultMaximum", Field(score, "scoreMaximum"));
    var withComment := WithField(withMaximum, "comment", Field(score, "comment"));
    WithField(withComment, "timestamp", Field(score, "timestamp"))
  }

  /** The results of the scan, as written, over the entries `m`. */
  function ResultsAsWritten(issuer: string, contextId: string, lineItemId: string, userId: Option<string>,
                            m: Entries): (r: seq<Obj>)
    ensures |r| <= |m|
  {
    if m == [] then []
    else
      var last := m[|m| - 1];
      ResultsAsWritten(issuer, contextId, lineItemId, userId, m[..|m| - 1]) +
        (if KeyStartsWith(last.0, lineItemId) && UserMatches(last.1, userId)
         then [ResultOf(issuer, contextId, lineItemId, last.0, last.1)] else [])
  }

  /** The results of the scan with the intended test, over the entries `m`. */
  function ResultsFor(issuer: string, contextId: string, lineItemId: string, userId: Option<string>,
                      m: Entries): (r: seq<Obj>)
    ensures |r| <= |m|
  {
    if m == [] then []
    else
      var last := m[|m| - 1];
      ResultsFor(issuer, contextId, lineItemId, userId, m[..|m| - 1]) +
        (if StoredUnder(last.0, last.1, lineItemId) && UserMatches(last.1, userId)
         then [ResultOf(issuer, contextId, lineItemId, last.0, last.1)] else [])
  }

  /** Scanning one more entry appends its result exactly when it passes
      the test. */
  lemma ResultsForNext(issuer: string, contextId: string, lineItemId: string, userId: Option<string>,
                       m: Entries, i: nat)
    requires i < |m|
    ensures ResultsFor(issuer, contextId, lineItemId, userId, m[..i + 1]) ==
      ResultsFor(issuer, contextId, lineItemId, userId, m[..i]) +
        (if StoredUnder(m[i].0, m[i].1, lineItemId) && UserMatches(m[i].1, userId)
         then [ResultOf(issuer, contextId, lineItemId, m[i].0, m[i].1)] else [])
  {
    assert m[..i + 1][..i] == m[..i];
  }

  /** With the prefix test, a score submitted to line item "10" is reported
      among the results of line item "1". */
  lemma PrefixMatchesOtherLineItem(issuer: string, contextId: string)
    ensures var score := map["userId" := JStr("u")];
      var m := [(ScoreKey("10", score), score)];
      && |ResultsAsWritten(issuer, contextId, "1", None, m)| == 1
      && ResultsFor(issuer, contextId, "1", None, m) == []
  {
    var score := map["userId" := JStr("u")];
    var key := ScoreKey("10", score);
    assert key == "10-u";
    assert KeyStartsWith(key, "1");
    assert key != "1-u";
  }

  /** A score appears in the results of line item L exactly when it was
      stored under L and matches the user filter; each result names its key. */
  lemma {:induction false} ResultsForMembers(issuer: string, contextId: string, lineItemId: string,
                                             userId: Option<string>, m: Entries, i: nat)
    requires i < |m|
    requires StoredUnder(m[i].0, m[i].1, lineItemId) && UserMatches(m[i].1, userId)
    ensures ResultOf(issuer, contextId, lineItemId, m[i].0, m[i].1) in ResultsFor(issuer, contextId, lineItemId, userId, m)
  {
    if i < |m| - 1 {
      ResultsForMembers(issuer, contextId, lineItemId, userId, m[..|m| - 1], i);
    }
  }

  lemma {:induction false} ResultsForSound(issuer: string, contextId: string, lineItemId: string,
                                           userId: Option<string>, m: Entries, r: Obj)
    requires r in ResultsFor(issuer, contextId, lineItemId, userId, m)
    ensures exists i :: (0 <= i < |m| && StoredUnder(m[i].0, m[i].1, lineItemId) && UserMatches(m[i].1, userId)
                         && r == ResultOf(issuer, contextId, lineItemId, m[i].0, m[i].1))
  {
    var prefix := ResultsFor(issuer, contextId, lineItemId, userId, m[..|m| - 1]);
    if r in prefix {
      ResultsForSound(issuer, contextId, lineItemId, userId, m[..|m| - 1], r);
      var i :| 0 <= i < |m| - 1 && StoredUnder(m[..|m| - 1][i].0, m[..|m| - 1][i].1, lineItemId)
        && UserMatches(m[..|m| - 1][i].1, userId)
        && r == ResultOf(issuer, contextId, lineItemId, m[..|m| - 1][i].0, m[..|m| - 1][i].1);
      assert m[..|m| - 1][i] == m[i];
    } else {
      assert r == ResultOf(issuer, contextId, lineItemId, m[|m| - 1].0, m[|m| - 1].1);
    }
  }

  /** A key built for line item L' by the score handler passes the intended
      test for L exactly when L' is L. */
  lemma StoredUnderScoreKey(lineItemId: string, other: string, body: Obj, nowIso: string)
    ensures StoredUnder(ScoreKey(other, body), ScoreOf(body, nowIso), lineItemId) <==> other == lineItemId
  {
    var u := OptString(Field(body, "userId"));
    if other + "-" + u == lineItemId + "-" + u {
      assert |other| == |lineItemId|;
      assert other == (other + "-" + u)[..|other|];
      assert lineItemId == (lineItemId + "-" + u)[..|lineItemId|];
    }
  }

  class AgsStore {
    const issuer: string
    /** `mockLineItems` */
    var lineItems: seq<Obj>
    /** `mockScores`, as its entries in insertion order. */
    var scores: Entries

    predicate Valid()
      reads this
    {
      DistinctKeys(scores)
    }

    constructor(issuer: string)
      ensures this.issuer == issuer && Valid()
      ensures lineItems == InitialLineItems(issuer) && scores == []
    {
      this.issuer := issuer;
      lineItems := InitialLineItems(issuer);
      scores := [];
    }

    /** GET /lti/ags/:contextId/lineitems: the items passing the truthy
        filters, cut to `parseInt(limit)` (10 by default). */
    function ListLineItems(q: ListQuery): (r: seq<Obj>)
      reads this
      ensures r == Take(Matching(lineItems, q), LimitArg(q.limit))
    {
      FiltersCompose(lineItems, q);
      Take(FilterField(FilterField(FilterField(lineItems, "resourceId", q.resourceId),
                                   "resourceLinkId", q.resourceLinkId), "tag", q.tag),
           LimitArg(q.limit))
    }

    /** GET /lti/ags/:contextId/lineitems/:lineItemId */
    function GetLineItem(key: string): (reply: Reply)
      reads this
      ensures FindBySuffix(lineItems, key).Found? ==>
        reply == Reply(200, Some(JObj(lineItems[FindBySuffix(lineItems, key).index])))
      ensures FindBySuffix(lineItems, key).Missing? ==> reply == Reply(404, Some(NotFoundBody))
      ensures FindBySuffix(lineItems, key).IdNotString? ==> reply == Reply(500, None)
    {
      match FindBySuffix(lineItems, key)
      case Found(i) => Reply(200, Some(JObj(lineItems[i])))
      case Missing => Reply(404, Some(NotFoundBody))
      case IdNotString => Reply(500, None)
    }

    /** POST /lti/ags/:contextId/lineitems: appends the new item and returns it. */
    method CreateLineItem(contextId: string, body: Obj) returns (reply: Reply)
      modifies this`lineItems
      ensures lineItems == old(lineItems) + [NewLineItem(issuer, contextId, |old(lineItems)|, body)]
      ensures reply == Reply(201, Some(JObj(NewLineItem(issuer, contextId, |old(lineItems)|, body))))
    {
      var item := NewLineItem(issuer, contextId, |lineItems|, body);
      lineItems := lineItems + [item];
      reply := Reply(201, Some(JObj(item)));
    }

    /** PUT /lti/ags/:contextId/lineitems/:lineItemId: merges the body into the
        first item whose id ends with the key; no other item changes. */
    method UpdateLineItem(key: string, body: Obj) returns (reply: Reply)
      modifies this`lineItems
      ensures match FindBySuffix(old(lineItems), key)
        case Found(i) =>
          && lineItems == old(lineItems)[i := old(lineItems)[i] + body]
          && reply == Reply(200, Some(JObj(old(lineItems)[i] + body)))
        case Missing => lineItems == old(lineItems) && reply == Reply(404, Some(NotFoundBody))
        case IdNotString => lineItems == old(lineItems) && reply == Reply(500, None)
    {
      match FindBySuffix(lineItems, key)
      case Found(i) =>
        lineItems := lineItems[i := lineItems[i] + body];
        reply := Reply(200, Some(JObj(lineItems[i])));
      case Missing =>
        reply := Reply(404, Some(NotFoundBody));
      case IdNotString =>
        reply := Reply(500, None);
    }

    /** DELETE /lti/ags/:contextId/lineitems/:lineItemId: splices out exactly
        the first item whose id ends with the key. */
    method DeleteLineItem(key: string) returns (reply: Reply)
      modifies this`lineItems
      ensures match FindBySuffix(old(lineItems), key)
        case Found(i) => lineItems == RemoveAt(old(lineItems), i) && reply == Reply(204, None)
        case Missing => lineItems == old(lineItems) && reply == Reply(404, Some(NotFoundBody))
        case IdNotString => lineItems == old(lineItems) && reply == Reply(500, None)
    {
      match FindBySuffix(lineItems, key)
      case Found(i) =>
        lineItems := RemoveAt(lineItems, i);
        reply := Reply(204, None);
      case Missing =>
        reply := Reply(404, Some(NotFoundBody));
      case IdNotString =>
        reply := Reply(500, None);
    }

    /** POST /lti/ags/:contextId/lineitems/:lineItemId/scores: stores the
        score under `${lineItemId}-${userId}`, replacing an earlier one. */
    method SubmitScore(lineItemId: string, body: Obj, nowIso: string) returns (reply: Reply)
      requires Valid()
      modifies this`scores
      ensures Valid()
      ensures scores == MapSet(old(scores), ScoreKey(lineItemId, body), ScoreOf(body, nowIso))
      ensures reply == Reply(201, Some(JObj(map["message" := JStr("Score submitted successfully")])))
    {
      MapSetSpec(scores, ScoreKey(lineItemId, body), ScoreOf(body, nowIso));
      scores := MapSet(scores, ScoreKey(lineItemId, body), ScoreOf(body, nowIso));
      reply := Reply(201, Some(JObj(map["message" := JStr("Score submitted successfully")])));
    }

    /** GET /lti/ags/:contextId/lineitems/:lineItemId/results: scans the
        scores in insertion order and reports those of the line item (and
        user, when given), cut to `parseInt(limit)`. */
    method Results(contextId: string, lineItemId: string, userId: Option<string>, limit: Option<string>)
      returns (results: seq<Obj>)
      ensures results == Take(ResultsFor(issuer, contextId, lineItemId, userId, scores), LimitArg(limit))
    {
      var all := ScanScores(scores, contextId, lineItemId, userId);
      results := Take(all, LimitArg(limit));
    }

    /** The scan of the results handler over the stored entries, in
        insertion order. */
    method ScanScores(entries: Entries, contextId: string, lineItemId: string, userId: Option<string>)
      returns (acc: seq<Obj>)
      ensures acc == ResultsFor(issuer, contextId, lineItemId, userId, entries)
    {
      acc := [];
      var i := 0;
      while i < |entries|
        invariant 0 <= i <= |entries|
        invariant acc == ResultsFor(issuer, contextId, lineItemId, userId, entries[..i])
      {
        var (key, score) := entries[i];
        ResultsForNext(issuer, contextId, lineItemId, userId, entries, i);
        if StoredUnder(key, score, lineItemId) && UserMatches(score, userId) {
          acc := acc + [ResultOf(issuer, contextId, lineItemId, key, score)];
        }
        i := i + 1;
      }
      assert entries[..i] == entries;
    }
  }
}
