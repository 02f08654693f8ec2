/** The Eventbrite client: authenticated GETs that fail on any status but
    200, a per-client venue cache, and the organisation event listing that
    follows continuation tokens and normalises each event into one record.
    The remote API is a fixed function from request to reply, so a repeated
    request gets the same reply; every request sent is appended to `log`. */
module Eventbrite {
  import opened Wrappers
  import opened Text
  import opened Json
  import opened Http

  const Base := "https://www.eventbriteapi.com/v3"

  datatype Request =
    | VenueReq(venueId: string)
    | EventsReq(orgId: string, status: string, pageSize: int, continuation: Option<Json>)

  datatype Reply = Reply(status: int, text: string, body: Option<Json>)

  function Url(req: Request): string
  {
    match req
    case VenueReq(id) => Base + "/venues/" + id + "/"
    case EventsReq(org, _, _, _) => Base + "/organizations/" + org + "/events/"
  }

  /** `_get`: a `RuntimeError` unless the status is 200, then the JSON body. */
  function Decode(req: Request, rep: Reply): (r: Result<Json>)
    ensures rep.status != 200 ==> r.Err?
    ensures r.Ok? <==> rep.status == 200 && rep.body.Some?
    ensures r.Ok? ==> r.value == rep.body.value
  {
    if rep.status != 200 then
      Err("Eventbrite HTTP " + IntToString(rep.status) + " on " + Url(req) + ": " + Truncate(rep.text, 300))
    else if rep.body.None? then Err("JSONDecodeError")
    else Ok(rep.body.value)
  }

  /** One normalised event of `fetch_org_events`. */
  datatype EbEvent = EbEvent(
    externalEventId: string, title: Json, startsAt: Json, endsAt: Json,
    venueId: Option<string>, venueName: Json, city: Json, country: Json,
    url: Json, currency: Json, status: Json, raw: Json)

  /** `x or {}` followed by `.get(key)`. */
  function Sub(j: Json, key: string): Json
  {
    GetOrNull(j, key)
  }

  /** `self.get_venue(id) or {}`, as the remote API answers it. */
  function VenueOf(api: Request -> Reply, id: string): Result<Json>
  {
    if id == "" then Ok(JObj([]))
    else match Decode(VenueReq(id), api(VenueReq(id)))
      case Err(e) => Err(e)
      case Ok(d) => Ok(if Truthy(d) then d else JObj([]))
  }

  /** The record built for one event, given the venue dictionary `v`
      (`None` when the event has no `venue_id`). */
  function Record(ev: Json, v: Option<Json>): (r: EbEvent)
    ensures r.raw == ev
    ensures r.externalEventId == (if Truthy(Sub(ev, "id")) then PyStr(Sub(ev, "id")) else "")
    ensures !Truthy(r.title) ==> r.title == JStr("")
    ensures v.None? ==> r.venueId.None? && r.venueName == JNull && r.city == JNull && r.country == JNull
  {
    var vid := Sub(ev, "venue_id");
    var title := Sub(Sub(ev, "name"), "text");
    var addr := if v.Some? then Sub(v.value, "address") else JNull;
    EbEvent(
      if Truthy(Sub(ev, "id")) then PyStr(Sub(ev, "id")) else "",
      if Truthy(title) then title else JStr(""),
      Sub(Sub(ev, "start"), "utc"), Sub(Sub(ev, "end"), "utc"),
      if v.Some? then Some(PyStr(vid)) else None,
      if v.Some? then Sub(v.value, "name") else JNull,
      Sub(addr, "city"), Sub(addr, "country"),
      Sub(ev, "url"), Sub(ev, "currency"), Sub(ev, "status"), ev)
  }

  /** The record of one event, looking its venue up when it has one; a
      failed venue lookup fails the whole listing. */
  function Normalize(api: Request -> Reply, ev: Json): (r: Result<EbEvent>)
    ensures !Truthy(Sub(ev, "venue_id")) ==> r == Ok(Record(ev, None))
    ensures r.Err? ==> Truthy(Sub(ev, "venue_id")) && VenueOf(api, PyStr(Sub(ev, "venue_id"))).Err?
  {
    var vid := Sub(ev, "venue_id");
    if !Truthy(vid) then Ok(Record(ev, None))
    else match VenueOf(api, PyStr(vid))
      case Err(e) => Err(e)
      case Ok(v) => Ok(Record(ev, Some(v)))
  }

  /** The records of a page's events, in order, or the first failure. */
  function NormalizeAll(api: Request -> Reply, evs: seq<Json>): Result<seq<EbEvent>>
  {
    Collect(seq(|evs|, i requires 0 <= i < |evs| => Normalize(api, evs[i])))
  }

  /** One record per event, in the events' order, when no venue lookup
      fails. */
  lemma NormalizeAllPointwise(api: Request -> Reply, evs: seq<Json>)
    ensures NormalizeAll(api, evs).Ok? <==> forall i :: 0 <= i < |evs| ==> Normalize(api, evs[i]).Ok?
    ensures NormalizeAll(api, evs).Ok? ==>
              |NormalizeAll(api, evs).value| == |evs| &&
              forall i :: 0 <= i < |evs| ==> Normalize(api, evs[i]) == Ok(NormalizeAll(api, evs).value[i])
  {
    var rs := seq(|evs|, i requires 0 <= i < |evs| => Normalize(api, evs[i]));
    assert forall i :: 0 <= i < |evs| ==> rs[i] == Normalize(api, evs[i]);
    CollectAllOk(rs);
  }

  function EventsOf(data: Json): seq<Json>
  {
    var evs := Sub(data, "events");
    if evs.JArr? then evs.items else []
  }

  /** The continuation token sent with the next page request, if paging
      goes on: `has_more_items` is truthy and a token was returned. */
  function NextToken(data: Json): (r: Option<Json>)
    ensures r.Some? ==> Truthy(r.value) && Truthy(Sub(Sub(data, "pagination"), "has_more_items"))
    ensures r.None? <==> !Truthy(Sub(Sub(data, "pagination"), "has_more_items"))
                         || !Truthy(Sub(Sub(data, "pagination"), "continuation"))
  {
    var pag := Sub(data, "pagination");
    var token := Sub(pag, "continuation");
    if Truthy(Sub(pag, "has_more_items")) && Truthy(token) then Some(token) else None
  }

  /** What one page request yields: its records and the next token. */
  datatype Page = Page(recs: seq<EbEvent>, next: Option<Json>)

  function PageStep(api: Request -> Reply, req: Request): Result<Page>
  {
    match Decode(req, api(req))
    case Err(e) => Err(e)
    case Ok(data) =>
      match NormalizeAll(api, EventsOf(data))
      case Err(e) => Err(e)
      case Ok(recs) => Ok(Page(recs, NextToken(data)))
  }

  /** The page request as the remote API answers it. */
  function Pages(api: Request -> Reply): Request -> Result<Page>
  {
    req => PageStep(api, req)
  }

  /** `pages` answers every page request as the remote API does. */
  ghost predicate Serves(api: Request -> Reply, pages: Request -> Result<Page>)
  {
    forall req {:trigger PageStep(api, req)} :: PageStep(api, req) == pages(req)
  }

  lemma SomeServer(api: Request -> Reply) returns (pages: Request -> Result<Page>)
    ensures Serves(api, pages)
  {
    pages := Pages(api);
  }

  const PageLimit := "page limit reached"

  function Prepend(recs: seq<EbEvent>, r: Result<seq<EbEvent>>): (q: Result<seq<EbEvent>>)
    ensures r.Ok? <==> q.Ok?
    ensures q.Ok? ==> q.value == recs + r.value
    ensures q.Err? ==> q.error == r.error
  {
    match r
    case Err(e) => Err(e)
    case Ok(more) => Ok(recs + more)
  }

  /** The listing from the request carrying `cont` on. At most `fuel` more
      pages are requested; the source has no such bound. */
  function OrgEvents(pages: Request -> Result<Page>, org: string, status: string, size: int, cont: Option<Json>, fuel: nat)
    : Result<seq<EbEvent>>
    decreases fuel
  {
    if fuel == 0 then Err(PageLimit)
    else
      match pages(EventsReq(org, status, size, cont))
      case Err(e) => Err(e)
      case Ok(page) =>
        if page.next.None? then Ok(page.recs)
        else Prepend(page.recs, OrgEvents(pages, org, status, size, page.next, fuel - 1))
  }

  /** The event-page requests the listing sends from `cont` on. */
  function OrgRequests(pages: Request -> Result<Page>, org: string, status: string, size: int, cont: Option<Json>, fuel: nat)
    : (reqs: seq<Request>)
    ensures |reqs| <= fuel
    ensures fuel > 0 ==> |reqs| > 0 && reqs[0] == EventsReq(org, status, size, cont)
    ensures forall k :: 0 <= k < |reqs| ==> reqs[k].EventsReq?
    decreases fuel
  {
    if fuel == 0 then []
    else
      var req := EventsReq(org, status, size, cont);
      var step := pages(req);
      if step.Err? || step.value.next.None? then [req]
      else [req] + OrgRequests(pages, org, status, size, step.value.next, fuel - 1)
  }

  /** One step of the listing: the first page, then the rest. */
  lemma OrgStep(pages: Request -> Result<Page>, org: string, status: string, size: int, cont: Option<Json>, fuel: nat)
    requires fuel > 0
    ensures var req := EventsReq(org, status, size, cont);
      var step := pages(req);
      && OrgEvents(pages, org, status, size, cont, fuel)
         == (if step.Err? then Err(step.error)
             else if step.value.next.None? then Ok(step.value.recs)
             else Prepend(step.value.recs, OrgEvents(pages, org, status, size, step.value.next, fuel - 1)))
      && OrgRequests(pages, org, status, size, cont, fuel)
         == [req] + (if step.Err? || step.value.next.None? then []
                     else OrgRequests(pages, org, status, size, step.value.next, fuel - 1))
  {
  }

  /** The listing depends only on the pages' answers. */
  lemma {:induction false} ListingAgrees(p: Request -> Result<Page>, q: Request -> Result<Page>, org: string,
                                         status: string, size: int, cont: Option<Json>, fuel: nat)
    requires forall req :: p(req) == q(req)
    ensures OrgEvents(p, org, status, size, cont, fuel) == OrgEvents(q, org, status, size, cont, fuel)
    ensures OrgRequests(p, org, status, size, cont, fuel) == OrgRequests(q, org, status, size, cont, fuel)
    decreases fuel
  {
    if fuel > 0 {
      var step := p(EventsReq(org, status, size, cont));
      if step.Ok? && step.value.next.Some? {
        ListingAgrees(p, q, org, status, size, step.value.next, fuel - 1);
      }
    }
  }

  /** A page function that serves the API yields the API's own listing. */
  lemma ServedListing(api: Request -> Reply, pages: Request -> Result<Page>, org: string, status: string,
                      size: int, fuel: nat)
    requires Serves(api, pages)
    ensures OrgEvents(pages, org, status, size, None, fuel) == OrgEvents(Pages(api), org, status, size, None, fuel)
    ensures OrgRequests(pages, org, status, size, None, fuel) == OrgRequests(Pages(api), org, status, size, None, fuel)
  {
    forall req
      ensures pages(req) == Pages(api)(req)
    {
      assert PageStep(api, req) == pages(req);
    }
    ListingAgrees(pages, Pages(api), org, status, size, None, fuel);
  }

  lemma AppendAssoc(a: seq<Request>, b: seq<Request>, c: seq<Request>)
    ensures a + (b + c) == (a + b) + c
  {
  }

  lemma PrependNil(r: Result<seq<EbEvent>>)
    ensures Prepend([], r) == r
  {
    if r.Ok? {
      assert [] + r.value == r.value;
    }
  }

  lemma PrependTwice(a: seq<EbEvent>, b: seq<EbEvent>, r: Result<seq<EbEvent>>)
    ensures Prepend(a, Prepend(b, r)) == Prepend(a + b, r)
  {
    if r.Ok? {
      assert a + (b + r.value) == (a + b) + r.value;
    }
  }

  /** Request `b` follows request `a`: `a`'s page returned a token and `b`
      carries it as its continuation parameter. */
  predicate Link(pages: Request -> Result<Page>, a: Request, b: Request)
  {
    a.EventsReq? && b.EventsReq? && pages(a).Ok? &&
    b == a.(continuation := pages(a).value.next) && b.continuation.Some?
  }

  predicate Chained(pages: Request -> Result<Page>, reqs: seq<Request>)
  {
    forall k :: 0 <= k < |reqs| - 1 ==> Link(pages, reqs[k], reqs[k + 1])
  }

  lemma ChainedCons(pages: Request -> Result<Page>, a: Request, t: seq<Request>)
    requires Chained(pages, t) && (t != [] ==> Link(pages, a, t[0]))
    ensures Chained(pages, [a] + t)
  {
    var s := [a] + t;
    forall k | 0 <= k < |s| - 1
      ensures Link(pages, s[k], s[k + 1])
    {
      if k > 0 {
        assert s[k] == t[k - 1] && s[k + 1] == t[k];
      }
    }
  }

  /** The continuation parameter of each page request is the token the
      previous page returned, and it is present exactly then: every request
      after the first carries a truthy token taken from the page before. */
  lemma {:induction false} ContinuationChain(pages: Request -> Result<Page>, org: string, status: string, size: int,
                                             cont: Option<Json>, fuel: nat)
    ensures Chained(pages, OrgRequests(pages, org, status, size, cont, fuel))
    decreases fuel
  {
    if fuel > 0 {
      var req := EventsReq(org, status, size, cont);
      var step := pages(req);
      if step.Ok? && step.value.next.Some? {
        var tail := OrgRequests(pages, org, status, size, step.value.next, fuel - 1);
        ContinuationChain(pages, org, status, size, step.value.next, fuel - 1);
        ChainedCons(pages, req, tail);
      }
    }
  }

  /** The first request carries no continuation. */
  lemma FirstRequestHasNoContinuation(pages: Request -> Result<Page>, org: string, status: string, size: int, fuel: nat)
    requires fuel > 0
    ensures OrgRequests(pages, org, status, size, None, fuel)[0].continuation.None?
  {
  }

  /** A listing that succeeds stopped on a page that returned no next
      token, and every page before it returned one. */
  lemma {:induction false} ListingStopsWithoutToken(pages: Request -> Result<Page>, org: string, status: string, size: int,
                                                    cont: Option<Json>, fuel: nat)
    requires OrgEvents(pages, org, status, size, cont, fuel).Ok?
    ensures var reqs := OrgRequests(pages, org, status, size, cont, fuel);
      |reqs| > 0 && pages(reqs[|reqs| - 1]).Ok? && pages(reqs[|reqs| - 1]).value.next.None?
    decreases fuel
  {
    var req := EventsReq(org, status, size, cont);
    var step := pages(req);
    var reqs := OrgRequests(pages, org, status, size, cont, fuel);
    assert fuel > 0 && step.Ok?;
    if step.value.next.None? {
      assert reqs == [req];
    } else {
      var tail := OrgRequests(pages, org, status, size, step.value.next, fuel - 1);
      assert OrgEvents(pages, org, status, size, step.value.next, fuel - 1).Ok?;
      ListingStopsWithoutToken(pages, org, status, size, step.value.next, fuel - 1);
      assert reqs == [req] + tail;
      assert reqs[|reqs| - 1] == tail[|tail| - 1];
    }
  }

  class EventbriteClient {
    const api: Request -> Reply
    var venueCache: map<string, Json>
    /** Every request sent, and the event-page requests among them. */
    ghost var log: seq<Request>
    ghost var pageLog: seq<Request>

    /** Every cached venue is what the API answers for it. */
    predicate Valid()
      reads this
    {
      forall id :: id in venueCache ==> id != "" && Decode(VenueReq(id), api(VenueReq(id))) == Ok(venueCache[id])
    }

    constructor (api: Request -> Reply)
      ensures Valid() && this.api == api && venueCache == map[] && log == [] && pageLog == []
    {
      this.api := api;
      venueCache := map[];
      log := [];
      pageLog := [];
    }

    method Get(req: Request) returns (r: Result<Json>)
      modifies this
      ensures r == Decode(req, api(req))
      ensures log == old(log) + [req] && venueCache == old(venueCache)
      ensures pageLog == old(pageLog) + (if req.EventsReq? then [req] else [])
    {
      log := log + [req];
      if req.EventsReq? {
        pageLog := pageLog + [req];
      }
      r := Decode(req, api(req));
    }

    /** `get_venue`: `None` for an empty id and the cached value on a hit,
        both without a request; on a miss one request, whose result is
        cached when it succeeds. */
    method GetVenue(id: string) returns (r: Result<Option<Json>>)
      requires Valid()
      modifies this
      ensures Valid()
      ensures id == "" ==> r == Ok(None) && log == old(log) && venueCache == old(venueCache)
      ensures id in old(venueCache) ==> r == Ok(Some(old(venueCache)[id])) && log == old(log) && venueCache == old(venueCache)
      ensures id != "" && id !in old(venueCache) ==>
                log == old(log) + [VenueReq(id)] &&
                venueCache == (if r.Ok? && r.value.Some? then old(venueCache)[id := r.value.value] else old(venueCache))
      ensures pageLog == old(pageLog)
      ensures id != "" ==> r == (match Decode(VenueReq(id), api(VenueReq(id)))
                                 case Ok(d) => Ok(Some(d))
                                 case Err(e) => Err(e))
    {
      if id == "" {
        return Ok(None);
      }
      if id in venueCache {
        return Ok(Some(venueCache[id]));
      }
      var data := Get(VenueReq(id));
      if data.Err? {
        return Err(data.error);
      }
      venueCache := venueCache[id := data.value];
      r := Ok(Some(data.value));
    }

    /** The record of one event, with its venue looked up through the cache. */
    method NormalizeEvent(ev: Json) returns (r: Result<EbEvent>)
      requires Valid()
      modifies this
      ensures Valid()
      ensures r == Normalize(api, ev)
      ensures pageLog == old(pageLog)
    {
      var vid := Sub(ev, "venue_id");
      if !Truthy(vid) {
        return Ok(Record(ev, None));
      }
      var v := GetVenue(PyStr(vid));
      if v.Err? {
        return Err(v.error);
      }
      var d := if v.value.Some? && Truthy(v.value.value) then v.value.value else JObj([]);
      r := Ok(Record(ev, Some(d)));
    }

    /** `fetch_org_events`: pages through the organisation's events,
        following continuation tokens, and returns one record per event in
        page order; any failed request fails the whole listing. `fuel`
        bounds the pages requested. */
    method FetchOrgEvents(org: string, status: string, size: int, fuel: nat) returns (r: Result<seq<EbEvent>>)
      requires Valid()
      modifies this
      ensures Valid()
      ensures r == OrgEvents(Pages(api), org, status, size, None, fuel)
      ensures pageLog == old(pageLog) + OrgRequests(Pages(api), org, status, size, None, fuel)
    {
      ghost var pages := SomeServer(api);
      ghost var all := OrgRequests(pages, org, status, size, None, fuel);
      ghost var total := OrgEvents(pages, org, status, size, None, fuel);
      var out: seq<EbEvent> := [];
      var cont: Option<Json> := None;
      var left := fuel;
      var done := false;
      r := Err(PageLimit);
      PrependNil(total);
      while left > 0 && !done
        invariant Valid()
        invariant !done ==> total == Prepend(out, OrgEvents(pages, org, status, size, cont, left))
        invariant !done ==> old(pageLog) + all == pageLog + OrgRequests(pages, org, status, size, cont, left)
        invariant done ==> r == total && pageLog == old(pageLog) + all
        invariant !done ==> r == Err(PageLimit)
        decreases left, !done
      {
        ghost var log0 := pageLog;
        var recs, next, err := ListingStep(pages, org, status, size, cont, left);
        if err.Some? {
          r, done := Err(err.value), true;
        } else if next.None? {
          r, done := Ok(out + recs), true;
        } else {
          AppendAssoc(log0, [EventsReq(org, status, size, cont)], OrgRequests(pages, org, status, size, next, left - 1));
          PrependTwice(out, recs, OrgEvents(pages, org, status, size, next, left - 1));
          out := out + recs;
          cont := next;
          left := left - 1;
        }
      }
      ServedListing(api, pages, org, status, size, fuel);
    }

    /** One pass of the listing loop, stated as one step of the listing. */
    method ListingStep(ghost pages: Request -> Result<Page>, org: string, status: string, size: int,
                       cont: Option<Json>, left: nat)
      returns (recs: seq<EbEvent>, next: Option<Json>, err: Option<string>)
      requires Valid() && left > 0 && Serves(api, pages)
      modifies this
      ensures Valid()
      ensures pageLog == old(pageLog) + [EventsReq(org, status, size, cont)]
      ensures err.Some? ==> OrgEvents(pages, org, status, size, cont, left) == Err(err.value)
                            && OrgRequests(pages, org, status, size, cont, left) == [EventsReq(org, status, size, cont)]
      ensures err.None? && next.None? ==>
                OrgEvents(pages, org, status, size, cont, left) == Ok(recs)
                && OrgRequests(pages, org, status, size, cont, left) == [EventsReq(org, status, size, cont)]
      ensures err.None? && next.Some? ==>
                OrgEvents(pages, org, status, size, cont, left)
                == Prepend(recs, OrgEvents(pages, org, status, size, next, left - 1))
                && OrgRequests(pages, org, status, size, cont, left)
                == [EventsReq(org, status, size, cont)] + OrgRequests(pages, org, status, size, next, left - 1)
    {
      var req := EventsReq(org, status, size, cont);
      var page := FetchPage(req);
      OrgStep(pages, org, status, size, cont, left);
      if page.Err? {
        return [], None, Some(page.error);
      }
      return page.value.recs, page.value.next, None;
    }

    /** One pass of the listing loop: the page request, then its events'
        records. */
    method FetchPage(req: Request) returns (r: Result<Page>)
      requires Valid() && req.EventsReq?
      modifies this
      ensures Valid()
      ensures r == PageStep(api, req)
      ensures pageLog == old(pageLog) + [req]
    {
      var d := Get(req);
      if d.Err? {
        return Err(d.error);
      }
      var recs := NormalizeEvents(EventsOf(d.value));
      if recs.Err? {
        return Err(recs.error);
      }
      r := Ok(Page(recs.value, NextToken(d.value)));
    }

    /** The `for ev in events` loop: one record per event, venues looked up
        through the cache, stopping at the first failure. */
    method NormalizeEvents(evs: seq<Json>) returns (r: Result<seq<EbEvent>>)
      requires Valid()
      modifies this
      ensures Valid()
      ensures r == NormalizeAll(api, evs)
      ensures pageLog == old(pageLog)
    {
      var recs: seq<EbEvent> := [];
      for i := 0 to |evs|
        invariant Valid()
        invariant |recs| == i && forall k :: 0 <= k < i ==> Normalize(api, evs[k]) == Ok(recs[k])
        invariant pageLog == old(pageLog)
      {
        ghost var recs0 := recs;
        var rec := NormalizeEvent(evs[i]);
        if rec.Err? {
          CollectFirstErr(seq(|evs|, k requires 0 <= k < |evs| => Normalize(api, evs[k])), i);
          return Err(rec.error);
        }
        recs := recs + [rec.value];
        assert forall k :: 0 <= k < i ==> recs[k] == recs0[k];
      }
      ghost var rs := seq(|evs|, k requires 0 <= k < |evs| => Normalize(api, evs[k]));
      assert forall k :: 0 <= k < |evs| ==> rs[k] == Ok(recs[k]);
      CollectAllOk(rs);
      assert Collect(rs).value == recs;
      r := Ok(recs);
    }
  }
}
