/**
 * Posting and listing internships (app/api/internships/route.ts).
 *
 * POST copies the request body, minus its `userData` member, into a new
 * record whose poster fields come from `userData`, and appends the record
 * to the collection. GET builds a query from two URL parameters, keeps the
 * matching records and orders them newest first.
 */
module Internships {
  import opened Wrappers
  import opened Documents

  /**
   * A document value: a scalar, an array or an object. A parsed request
   * body holds no `Date` scalar, since JSON has no date type; stored
   * records may.
   */
  datatype Json = Scalar(value: Value) | Array(items: seq<Json>) | Object(members: map<string, Json>)

  /** A stored posting: its id, its fields and its creation time (ms since the epoch, UTC). */
  datatype Internship = Internship(id: ObjectId, fields: map<string, Json>, createdAt: int)

  // ---------------------------------------------------------------------
  // POST
  // ---------------------------------------------------------------------

  /** `userData.<key>`: the member when `userData` is an object holding it, and undefined otherwise. */
  function Member(userData: Json, key: string): (r: Option<Json>)
    ensures r.Some? <==> userData.Object? && key in userData.members
    ensures r.Some? ==> r.value == userData.members[key]
  {
    if userData.Object? && key in userData.members then Some(userData.members[key]) else None
  }

  /** Sets `key` to `v`; an undefined `v` leaves the path unset. */
  function Override(fields: map<string, Json>, key: string, v: Option<Json>): (r: map<string, Json>)
    ensures v.Some? ==> key in r && r[key] == v.value
    ensures v.None? ==> key !in r
    ensures forall k :: k != key ==> (k in r <==> k in fields) && (k in r ==> r[k] == fields[k])
  {
    if v.Some? then fields[key := v.value] else fields - {key}
  }

  /**
   * The record POST builds from `body`, or None when reading `userData`'s
   * members throws because `userData` is absent or null.
   */
  function NewPosting(body: map<string, Json>, id: ObjectId, now: int): (r: Option<Internship>)
    ensures r.None? <==> "userData" !in body || body["userData"] == Scalar(Null)
    ensures r.Some? ==> r.value.id == id && r.value.createdAt == now && "userData" !in r.value.fields
  {
    if "userData" !in body || body["userData"] == Scalar(Null) then None
    else
      var userData := body["userData"];
      var payload := body - {"userData"};
      var withPoster := Override(payload, "postedBy", Member(userData, "username"));
      var withName := Override(withPoster, "organizationName", Member(userData, "organizationName"));
      var withId := Override(withName, "organizationId", Member(userData, "organizationId"));
      Some(Internship(id, withId, now))
  }

  /** The fields POST takes from `userData` rather than from the payload. */
  const PosterFields: set<string> := {"postedBy", "organizationName", "organizationId"}

  /**
   * Lines 14-22: the record keeps every payload member except `userData`;
   * postedBy, organizationName and organizationId come from `userData`
   * (username, organizationName, organizationId), whatever the payload
   * said; a member `userData` lacks leaves that field unset.
   */
  lemma PostingFields(body: map<string, Json>, id: ObjectId, now: int)
    ensures NewPosting(body, id, now).None? <==> "userData" !in body || body["userData"] == Scalar(Null)
    ensures var p := NewPosting(body, id, now);
            p.Some? ==>
              && p.value.id == id && p.value.createdAt == now
              && "userData" !in p.value.fields
              && Member(body["userData"], "username") == (if "postedBy" in p.value.fields then Some(p.value.fields["postedBy"]) else None)
              && Member(body["userData"], "organizationName")
                 == (if "organizationName" in p.value.fields then Some(p.value.fields["organizationName"]) else None)
              && Member(body["userData"], "organizationId")
                 == (if "organizationId" in p.value.fields then Some(p.value.fields["organizationId"]) else None)
              && (forall k :: k != "userData" && k !in PosterFields ==>
                    (k in p.value.fields <==> k in body) && (k in body ==> p.value.fields[k] == body[k]))
  {
  }

  /** The internships collection. */
  class InternshipStore {
    var records: seq<Internship>

    constructor ()
      ensures records == []
    {
      records := [];
    }

    /**
     * `POST /api/internships`. `id` and `now` are what the store assigns;
     * `accepted` is whether the store accepts the record on save.
     */
    method Post(body: map<string, Json>, id: ObjectId, now: int, accepted: bool) returns (status: int, created: Option<Internship>)
      modifies this
      ensures var p := NewPosting(body, id, now);
              if p.Some? && accepted then
                records == old(records) + [p.value] && status == 201 && created == p
              else
                records == old(records) && status == 500 && created == None
    {
      var posting := NewPosting(body, id, now);
      if posting.None? || !accepted {
        return 500, None;
      }
      records := records + [posting.value];
      return 201, posting;
    }
  }

  // ---------------------------------------------------------------------
  // GET
  // ---------------------------------------------------------------------

  /** The query GET sends: an optional organizationId and an optional earliest deadline. */
  datatype Query = Query(organizationId: Option<string>, deadlineFrom: Option<int>)

  const DayMs: int := 86400000

  /** `today.setUTCHours(0, 0, 0, 0)`: the last UTC midnight at or before `now`. */
  function StartOfUtcDay(now: int): (r: int)
    ensures r <= now < r + DayMs
    ensures r % DayMs == 0
  {
    now - now % DayMs
  }

  /**
   * Lines 47-60: the organization filter only for a non-empty parameter,
   * the deadline filter only for `hideExpired` exactly "true".
   */
  function BuildQuery(organizationId: Option<string>, hideExpired: Option<string>, now: int): (q: Query)
    ensures q.organizationId.Some? <==> organizationId.Some? && organizationId.value != ""
    ensures q.organizationId.Some? ==> q.organizationId == organizationId
    ensures q.deadlineFrom.Some? <==> hideExpired == Some("true")
    ensures q.deadlineFrom.Some? ==> q.deadlineFrom.value == StartOfUtcDay(now)
  {
    Query(if organizationId.Some? && organizationId.value != "" then organizationId else None,
          if hideExpired == Some("true") then Some(StartOfUtcDay(now)) else None)
  }

  /** `{ organizationId, applicationDeadline: { $gte } }`: a Date comparison matches only Date fields. */
  predicate Matches(r: Internship, q: Query)
    ensures q.organizationId.None? && q.deadlineFrom.None? ==> Matches(r, q)
    ensures Matches(r, q) && q.deadlineFrom.Some? ==> "applicationDeadline" in r.fields
    ensures Matches(r, q) && q.organizationId.Some? ==>
              "organizationId" in r.fields && r.fields["organizationId"] == Scalar(Str(q.organizationId.value))
  {
    && (q.organizationId.None? ||
        ("organizationId" in r.fields && r.fields["organizationId"] == Scalar(Str(q.organizationId.value))))
    && (q.deadlineFrom.None? ||
        ("applicationDeadline" in r.fields && r.fields["applicationDeadline"].Scalar?
         && r.fields["applicationDeadline"].value.Date?
         && r.fields["applicationDeadline"].value.ms >= q.deadlineFrom.value))
  }

  /** `find(q)`: the matching records in collection order. */
  function Select(rs: seq<Internship>, q: Query): (r: seq<Internship>)
    ensures forall x :: x in r <==> x in rs && Matches(x, q)
    ensures forall x :: multiset(r)[x] == if Matches(x, q) then multiset(rs)[x] else 0
    ensures multiset(r) <= multiset(rs)
  {
    if rs == [] then []
    else
      assert rs == [rs[0]] + rs[1..];
      (if Matches(rs[0], q) then [rs[0]] else []) + Select(rs[1..], q)
  }

  ghost predicate NewestFirst(s: seq<Internship>)
  {
    forall i, j :: 0 <= i < j < |s| ==> s[i].createdAt >= s[j].createdAt
  }

  /** Places `x` before the first record no newer than it. */
  function Insert(x: Internship, s: seq<Internship>): (r: seq<Internship>)
    requires NewestFirst(s)
    ensures NewestFirst(r)
    ensures multiset(r) == multiset(s) + multiset{x}
    ensures |r| == |s| + 1
    ensures r[0] == x || (s != [] && r[0] == s[0])
  {
    if s == [] || x.createdAt >= s[0].createdAt then [x] + s
    else
      assert s == [s[0]] + s[1..];
      [s[0]] + Insert(x, s[1..])
  }

  /** `.sort({ createdAt: -1 })`, keeping collection order among records created at the same time. */
  function SortNewestFirst(s: seq<Internship>): (r: seq<Internship>)
    ensures NewestFirst(r)
    ensures multiset(r) == multiset(s)
  {
    if s == [] then []
    else
      assert s == [s[0]] + s[1..];
      Insert(s[0], SortNewestFirst(s[1..]))
  }

  /** `GET /api/internships`: the listed records. */
  function List(records: seq<Internship>, organizationId: Option<string>, hideExpired: Option<string>, now: int)
    : (r: seq<Internship>)
    ensures NewestFirst(r)
    ensures forall x :: multiset(r)[x] ==
              if Matches(x, BuildQuery(organizationId, hideExpired, now)) then multiset(records)[x] else 0
  {
    SortNewestFirst(Select(records, BuildQuery(organizationId, hideExpired, now)))
  }

  // ---------------------------------------------------------------------
  // What the listing promises.
  // ---------------------------------------------------------------------

  /**
   * Lines 47-65: the listing holds records of the collection, each at most
   * as often as stored, exactly those matching the query, newest first.
   */
  lemma ListSelectsAndOrders(records: seq<Internship>, organizationId: Option<string>, hideExpired: Option<string>, now: int)
    ensures var l := List(records, organizationId, hideExpired, now);
            var q := BuildQuery(organizationId, hideExpired, now);
            && multiset(l) <= multiset(records)
            && (forall x :: x in l <==> x in records && Matches(x, q))
            && NewestFirst(l)
  {
    var q := BuildQuery(organizationId, hideExpired, now);
    var l := List(records, organizationId, hideExpired, now);
    forall x
      ensures x in l <==> x in records && Matches(x, q)
    {
      calc {
        x in l;
        multiset(l)[x] > 0;
        multiset(Select(records, q))[x] > 0;
        x in Select(records, q);
      }
    }
  }

  /**
   * Lines 48-53: an absent or empty organizationId and any hideExpired
   * other than "true" list the whole collection.
   */
  lemma NoFilterListsAll(records: seq<Internship>, organizationId: Option<string>, hideExpired: Option<string>, now: int)
    requires organizationId.None? || organizationId == Some("")
    requires hideExpired != Some("true")
    ensures multiset(List(records, organizationId, hideExpired, now)) == multiset(records)
  {
    var q := BuildQuery(organizationId, hideExpired, now);
    SelectAll(records, q);
  }

  lemma {:induction false} SelectAll(rs: seq<Internship>, q: Query)
    requires forall x :: x in rs ==> Matches(x, q)
    ensures Select(rs, q) == rs
  {
    if rs != [] {
      SelectAll(rs[1..], q);
      assert rs == [rs[0]] + rs[1..];
    }
  }

  /**
   * Lines 56-60: with hideExpired, a record whose deadline falls on the
   * current UTC day or later is kept, and one whose deadline falls on an
   * earlier day is dropped.
   */
  lemma DeadlineByUtcDay(r: Internship, organizationId: Option<string>, now: int, deadline: int)
    requires "applicationDeadline" in r.fields && r.fields["applicationDeadline"] == Scalar(Date(deadline))
    ensures var q := BuildQuery(organizationId, Some("true"), now);
            && (StartOfUtcDay(deadline) >= StartOfUtcDay(now) ==>
                  (Matches(r, q) <==> Matches(r, BuildQuery(organizationId, None, now))))
            && (StartOfUtcDay(deadline) < StartOfUtcDay(now) ==> !Matches(r, q))
  {
    var d := StartOfUtcDay(deadline);
    assert d <= deadline;
    if d < StartOfUtcDay(now) {
      assert (StartOfUtcDay(now) - d) % DayMs == 0;
      assert deadline < d + DayMs <= StartOfUtcDay(now);
    }
  }

  /**
   * Lines 14-22 and 47-53: a posting, with or without an
   * applicationDeadline, appears in the unfiltered listing once stored.
   */
  lemma PostedIsListed(records: seq<Internship>, body: map<string, Json>, id: ObjectId, now: int,
                       organizationId: Option<string>, hideExpired: Option<string>, today: int)
    requires NewPosting(body, id, now).Some?
    requires organizationId.None? || organizationId == Some("")
    requires hideExpired != Some("true")
    ensures var p := NewPosting(body, id, now).value;
            p in List(records + [p], organizationId, hideExpired, today)
  {
    var p := NewPosting(body, id, now).value;
    NoFilterListsAll(records + [p], organizationId, hideExpired, today);
    assert p in multiset(records + [p]);
  }

  /** Lines 56-60: with hideExpired, a record whose applicationDeadline is absent or not a date is dropped. */
  /**
   * Lines 47-53: a non-empty organizationId parameter lists only records
   * whose organizationId is exactly that string; without hideExpired it
   * lists every such record.
   */
  lemma OrganizationFilter(records: seq<Internship>, org: string, hideExpired: Option<string>, now: int)
    requires org != ""
    ensures forall x :: x in List(records, Some(org), hideExpired, now) ==>
              "organizationId" in x.fields && x.fields["organizationId"] == Scalar(Str(org))
    ensures hideExpired != Some("true") ==>
              forall x :: x in List(records, Some(org), hideExpired, now) <==>
                x in records && "organizationId" in x.fields && x.fields["organizationId"] == Scalar(Str(org))
  {
    ListSelectsAndOrders(records, Some(org), hideExpired, now);
  }

  lemma NoDeadlineHidden(r: Internship, organizationId: Option<string>, now: int)
    requires "applicationDeadline" !in r.fields || !r.fields["applicationDeadline"].Scalar?
             || !r.fields["applicationDeadline"].value.Date?
    ensures !Matches(r, BuildQuery(organizationId, Some("true"), now))
  {
  }

  /** Lines 62-63: three postings created one after another are listed newest first. */
  lemma NewestFirstExample(a: Internship, b: Internship, c: Internship)
    requires a.createdAt < b.createdAt < c.createdAt
    ensures List([a, b, c], None, None, 0) == [c, b, a]
  {
    var q := BuildQuery(None, None, 0);
    SelectAll([a, b, c], q);
    SortTwo(b, c);
    InsertOldest(a, c, b);
    assert [a, b, c][1..] == [b, c];
  }

  /** Helper for the example above: two records sort newer first. */
  lemma SortTwo(b: Internship, c: Internship)
    requires b.createdAt < c.createdAt
    ensures SortNewestFirst([b, c]) == [c, b]
  {
    assert [b, c][1..] == [c] && [c][1..] == [];
    assert SortNewestFirst([c]) == [c];
  }

  /** Helper for the example above: the oldest record goes last. */
  lemma InsertOldest(a: Internship, c: Internship, b: Internship)
    requires a.createdAt < b.createdAt < c.createdAt
    ensures NewestFirst([c, b]) && Insert(a, [c, b]) == [c, b, a]
  {
    assert [c, b][1..] == [b];
    assert Insert(a, [b]) == [b, a];
  }
}
