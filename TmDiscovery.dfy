/** The Ticketmaster Discovery collectors: the catalog page request with its
    429 retry, sequential paging with its three stopping rules, time
    windows over a date range, and de-duplication of events by id across
    windows. Both collector modules share the page request and the paging
    loop; they differ only in defaults and in one dead status check. Times
    are UTC instants in whole seconds. */
module TmDiscovery {
  import opened Wrappers
  import opened Text
  import opened Json
  import opened Http

  // ---------------------------------------------------------------------
  // Page request

  const TooMany429Events := "Too many 429 responses from Ticketmaster"

  datatype CatalogRun = CatalogRun(result: Result<Json>, gets: nat, sleeps: seq<nat>)

  /** The page request from attempt `attempt` on. `badRequestCheck` is the
      explicit 400 test that one of the two modules makes after
      `raise_for_status()`. */
  function CatalogFrom(out: nat -> ApiOutcome, maxRetries: int, badRequestCheck: bool, attempt: nat): CatalogRun
    decreases maxRetries + 1 - attempt
  {
    if attempt > maxRetries then CatalogRun(Err(TooMany429Events), attempt, [])
    else match out(attempt)
      case ApiRaised(e) => CatalogRun(Err(e), attempt + 1, [])
      case ApiResponse(st, ra, text, body) =>
        if st == 429 && attempt < maxRetries then
          var rest := CatalogFrom(out, maxRetries, badRequestCheck, attempt + 1);
          rest.(sleeps := [RetryDelay(ra, attempt)] + rest.sleeps)
        else if RaisesForStatus(st) then CatalogRun(Err("HTTPError " + IntToString(st)), attempt + 1, [])
        else if badRequestCheck && st == 400 then CatalogRun(Err("400 Bad Request"), attempt + 1, [])
        else if body.None? then CatalogRun(Err("JSONDecodeError"), attempt + 1, [])
        else CatalogRun(Ok(body.value), attempt + 1, [])
  }

  /** `fetch_events_page`: retries a 429 while attempts remain, sleeping the
      `Retry-After` delay or 2^attempt, and otherwise raises for error
      statuses and returns the decoded body. */
  method FetchEventsPage(out: nat -> ApiOutcome, maxRetries: int, badRequestCheck: bool)
    returns (r: Result<Json>, gets: nat, sleeps: seq<nat>)
    ensures CatalogRun(r, gets, sleeps) == CatalogFrom(out, maxRetries, badRequestCheck, 0)
  {
    var attempt: nat := 0;
    sleeps := [];
    while attempt <= maxRetries
      invariant CatalogFrom(out, maxRetries, badRequestCheck, 0)
                == var rest := CatalogFrom(out, maxRetries, badRequestCheck, attempt);
                   rest.(sleeps := sleeps + rest.sleeps)
      decreases maxRetries + 1 - attempt
    {
      match out(attempt)
      case ApiRaised(e) =>
        return Err(e), attempt + 1, sleeps;
      case ApiResponse(st, ra, text, body) =>
        var next: nat := attempt + 1;
        if st == 429 && attempt < maxRetries {
          sleeps := sleeps + [RetryDelay(ra, attempt)];
          attempt := attempt + 1;
          continue;
        }
        if RaisesForStatus(st) {
          return Err("HTTPError " + IntToString(st)), attempt + 1, sleeps;
        }
        if badRequestCheck && st == 400 {
          return Err("400 Bad Request"), next, sleeps;
        }
        if body.None? {
          return Err("JSONDecodeError"), attempt + 1, sleeps;
        }
        return Ok(body.value), attempt + 1, sleeps;
    }
    return Err(TooMany429Events), attempt, sleeps;
  }

  /** The explicit 400 test is dead code: `raise_for_status()` has already
      raised for every 4xx, so both modules' requests behave alike. */
  lemma {:induction false} BadRequestCheckIsDead(out: nat -> ApiOutcome, maxRetries: int, attempt: nat)
    ensures CatalogFrom(out, maxRetries, true, attempt) == CatalogFrom(out, maxRetries, false, attempt)
    decreases maxRetries + 1 - attempt
  {
    if attempt <= maxRetries && out(attempt).ApiResponse? && out(attempt).status == 429 && attempt < maxRetries {
      BadRequestCheckIsDead(out, maxRetries, attempt + 1);
    }
  }

  /** For any `max_retries_429` >= 0 the "Too many 429" raise is unreachable:
      a 429 on the last attempt is raised by `raise_for_status()`, so that
      message can only come from a request that itself raised it. */
  lemma {:induction false} TooMany429EventsUnreachable(out: nat -> ApiOutcome, maxRetries: int, b: bool, attempt: nat)
    requires attempt <= maxRetries
    ensures CatalogFrom(out, maxRetries, b, attempt).result == Err(TooMany429Events) ==>
              exists a :: attempt <= a <= maxRetries && out(a) == ApiRaised(TooMany429Events)
    ensures CatalogFrom(out, maxRetries, b, attempt).gets <= maxRetries + 1
    decreases maxRetries + 1 - attempt
  {
    match out(attempt)
    case ApiRaised(e) =>
      if e == TooMany429Events {
        assert out(attempt) == ApiRaised(TooMany429Events);
      }
    case ApiResponse(st, ra, text, body) =>
      if st == 429 && attempt < maxRetries {
        TooMany429EventsUnreachable(out, maxRetries, b, attempt + 1);
      } else if RaisesForStatus(st) {
        assert ("HTTPError " + IntToString(st))[0] == 'H' && TooMany429Events[0] == 'T';
      } else if b && st == 400 {
      } else if body.None? {
        assert "JSONDecodeError" != TooMany429Events;
      }
  }

  // ---------------------------------------------------------------------
  // Paging

  /** What paging reads from one page: its events and `page.totalPages`. */
  datatype PageData = PageData(events: seq<Json>, totalPages: Option<int>)

  /** `data.get("_embedded") or {}`, then `.get("events") or []`, and
      `(data.get("page") or {}).get("totalPages")`. */
  function PageOf(data: Json): PageData
  {
    var embedded := GetOrNull(data, "_embedded");
    var events := if Truthy(embedded) then GetOrNull(embedded, "events") else JNull;
    var info := GetOrNull(data, "page");
    var total := if Truthy(info) then GetOrNull(info, "totalPages") else JNull;
    PageData(if events.JArr? then events.items else [],
             if total.JNum? then Some(total.n) else None)
  }

  /** Whether paging goes on to page `p+1` after page `p`: more pages are
      announced, or no count is given and the page was not empty; and the
      hard cap is not reached. */
  predicate Continues(d: PageData, p: nat, cap: int)
  {
    (if d.totalPages.Some? then p + 1 < d.totalPages.value else |d.events| > 0) && p + 1 < cap
  }

  /** A page request's outcome as paging reads it. */
  function ReadPage(r: Result<Json>): (d: Result<PageData>)
    ensures d.Ok? <==> r.Ok?
    ensures r.Err? ==> d.error == r.error
    ensures r.Ok? ==> d.value == PageOf(r.value)
  {
    match r
    case Ok(data) => Ok(PageOf(data))
    case Err(e) => Err(e)
  }

  /** Events of the pages among `0..n-1` that were read, in page order. */
  function EventsUpTo(pages: nat -> Result<PageData>, n: nat): seq<Json>
  {
    if n == 0 then []
    else EventsUpTo(pages, n - 1) + (if pages(n - 1).Ok? then pages(n - 1).value.events else [])
  }

  /** The paging from page `p` on: the events of the pages read and the
      error that stopped it, if any. */
  function PagesFrom(fetch: nat -> Result<PageData>, p: nat, cap: int): (seq<Json>, Option<string>)
    requires p < cap
    decreases cap - p
  {
    match fetch(p)
    case Err(e) => ([], Some(e))
    case Ok(d) =>
      if Continues(d, p, cap) then
        var rest := PagesFrom(fetch, p + 1, cap);
        (d.events + rest.0, rest.1)
      else (d.events, None)
  }

  /** The whole paging: nothing with a cap of 0 or less. */
  function Paged(fetch: nat -> Result<PageData>, cap: int): (seq<Json>, Option<string>)
  {
    if cap <= 0 then ([], None) else PagesFrom(fetch, 0, cap)
  }

  /** `iter_events_in_window` / `iter_all_events`: requests pages 0, 1, 2, …
      in order and yields their events, until a page count is reached, the
      hard cap is reached, or a page without count is empty. `fetch(p)` is
      what `fetch_events_page` gives for page `p`, read by `ReadPage`; an
      error ends the iteration with the events yielded so far. */
  method CollectPages(fetch: nat -> Result<PageData>, cap: int) returns (out: seq<Json>, fetched: nat, err: Option<string>)
    ensures cap <= 0 ==> fetched == 0 && out == [] && err.None?
    ensures cap > 0 ==> 1 <= fetched <= cap
    ensures forall p :: 0 <= p < fetched - 1 ==> fetch(p).Ok? && Continues(fetch(p).value, p, cap)
    ensures err.None? && fetched > 0 ==>
              fetch(fetched - 1).Ok? && !Continues(fetch(fetched - 1).value, fetched - 1, cap)
    ensures err.Some? ==> fetched > 0 && fetch(fetched - 1) == Err(err.value)
    ensures err.None? ==> out == EventsUpTo(fetch, fetched)
    ensures err.Some? ==> out == EventsUpTo(fetch, fetched - 1)
    ensures (out, err) == Paged(fetch, cap)
  {
    var page: nat := 0;
    var going := cap > 0;
    out := [];
    if going {
      var all := PagesFrom(fetch, 0, cap);
      assert [] + all.0 == all.0;
    }
    while going
      invariant going ==> page < cap
      invariant cap <= 0 ==> page == 0
      invariant cap > 0 ==> page <= cap
      invariant forall p :: 0 <= p < page ==> fetch(p).Ok?
      invariant forall p :: 0 <= p < page - 1 ==> Continues(fetch(p).value, p, cap)
      invariant page == 0 ==> going == (cap > 0)
      invariant page > 0 ==> going == Continues(fetch(page - 1).value, page - 1, cap)
      invariant out == EventsUpTo(fetch, page)
      invariant going ==> Paged(fetch, cap) == (out + PagesFrom(fetch, page, cap).0, PagesFrom(fetch, page, cap).1)
      invariant !going ==> Paged(fetch, cap) == (out, None)
      decreases cap - page
    {
      var r := fetch(page);
      if r.Err? {
        assert out + [] == out;
        return out, page + 1, Some(r.error);
      }
      var d := r.value;
      if Continues(d, page, cap) {
        var rest := PagesFrom(fetch, page + 1, cap);
        assert out + (d.events + rest.0) == (out + d.events) + rest.0;
      }
      out := out + d.events;
      going := Continues(d, page, cap);
      page := page + 1;
    }
    return out, page, None;
  }

  // ---------------------------------------------------------------------
  // Windows

  const SecondsPerDay := 86400

  /** `days` days in seconds. */
  function DaySeconds(days: int): (r: int)
    ensures days > 0 ==> r > 0
  {
    days * SecondsPerDay
  }

  datatype Window = Window(start: int, end: int)

  /** The windows from `start` to `end`: `step` seconds each, the last
      cut at `end`. */
  function Windows(start: int, end: int, step: int): seq<Window>
    requires step > 0
    decreases end - start
  {
    if end <= start then []
    else if start + step < end then [Window(start, start + step)] + Windows(start + step, end, step)
    else [Window(start, end)]
  }

  /** `build_windows`: consecutive windows of at most `step_days` days from
      `start` to `end`. The source loops forever unless `step_days` > 0. */
  method BuildWindows(start: int, end: int, stepDays: int) returns (ws: seq<Window>)
    requires stepDays > 0
    ensures Tiles(ws, start, end, DaySeconds(stepDays))
    ensures ws == Windows(start, end, DaySeconds(stepDays))
  {
    ws := [];
    var step := DaySeconds(stepDays);
    var cur := start;
    while cur < end
      invariant start <= cur
      invariant ws + Windows(cur, end, step) == Windows(start, end, step)
      decreases end - cur
    {
      var nxt := if cur + step < end then cur + step else end;
      WindowsFirst(cur, end, step);
      Regroup(ws, [Window(cur, nxt)], Windows(nxt, end, step));
      ws := ws + [Window(cur, nxt)];
      cur := nxt;
    }
    assert ws + [] == ws;
    WindowsTile(start, end, step);
  }

  /** The first window of a non-empty range, then the rest. */
  lemma WindowsFirst(cur: int, end: int, step: int)
    requires step > 0 && cur < end
    ensures var nxt := if cur + step < end then cur + step else end;
            Windows(cur, end, step) == [Window(cur, nxt)] + Windows(nxt, end, step)
  {
    if cur + step >= end {
      assert [Window(cur, end)] + [] == [Window(cur, end)];
    }
  }

  lemma Regroup<T>(a: seq<T>, b: seq<T>, c: seq<T>)
    ensures a + (b + c) == (a + b) + c
  {
  }

  /** Windows that tile `start`..`end`: none exactly when the range is
      empty, the first starting at `start` and the last ending at `end`,
      each starting where the one before ended, none longer than `step`,
      and all but the last exactly `step` long. */
  predicate Tiles(ws: seq<Window>, start: int, end: int, step: int)
  {
    (end <= start <==> ws == [])
    && (ws != [] ==> ws[0].start == start && ws[|ws| - 1].end == end)
    && (forall i :: 0 <= i < |ws| - 1 ==> ws[i].end == ws[i + 1].start)
    && (forall i :: 0 <= i < |ws| ==> ws[i].start < ws[i].end <= ws[i].start + step)
    && (forall i :: 0 <= i < |ws| - 1 ==> ws[i].end == ws[i].start + step)
  }

  lemma {:induction false} WindowsTile(start: int, end: int, step: int)
    requires step > 0
    ensures Tiles(Windows(start, end, step), start, end, step)
    decreases end - start
  {
    if start < end && start + step < end {
      var ws := Windows(start, end, step);
      var rest := Windows(start + step, end, step);
      WindowsTile(start + step, end, step);
      assert ws == [Window(start, start + step)] + rest;
      assert rest != [] && rest[0].start == start + step;
      forall i | 1 <= i < |ws|
        ensures ws[i] == rest[i - 1]
      {
      }
    }
  }

  /** The default end of the range: `now` plus 30 days per month ahead. */
  function DefaultEnd(now: int, monthsAhead: int): (r: int)
    ensures monthsAhead >= 0 ==> r >= now
    ensures r - now == DaySeconds(30 * monthsAhead)
  {
    now + DaySeconds(30 * monthsAhead)
  }

  // ---------------------------------------------------------------------
  // De-duplication by id

  /** `e.get("id")`. */
  function IdOf(e: Json): Json { GetOrNull(e, "id") }

  /** The ids of a sequence of events. */
  function IdsOf(d: seq<Json>): set<Json>
  {
    if d == [] then {} else IdsOf(d[..|d| - 1]) + {IdOf(d[|d| - 1])}
  }

  lemma {:induction false} IdsOfMember(d: seq<Json>, x: Json)
    ensures x in IdsOf(d) <==> exists k :: 0 <= k < |d| && IdOf(d[k]) == x
  {
    if d != [] {
      var p := d[..|d| - 1];
      IdsOfMember(p, x);
      if x in IdsOf(p) {
        var k :| 0 <= k < |p| && IdOf(p[k]) == x;
        assert d[k] == p[k];
      }
      if exists k :: 0 <= k < |d| && IdOf(d[k]) == x {
        var k :| 0 <= k < |d| && IdOf(d[k]) == x;
        if k < |p| {
          assert p[k] == d[k];
        }
      }
    }
  }

  lemma IdsOfSnoc(d: seq<Json>, e: Json)
    ensures IdsOf(d + [e]) == IdsOf(d) + {IdOf(e)}
  {
    assert (d + [e])[..|d|] == d;
  }

  /** The events the stream de-duplication yields for `s`, as a function
      of the stream so far: an event is dropped when its id is falsy or was
      already yielded. */
  function Dedupe(s: seq<Json>): seq<Json>
  {
    if s == [] then []
    else
      var d := Dedupe(s[..|s| - 1]);
      var e := s[|s| - 1];
      if !Truthy(IdOf(e)) || IdOf(e) in IdsOf(d) then d else d + [e]
  }

  /** Some event of `s` carries the truthy id `x`. */
  predicate TruthyIdIn(s: seq<Json>, x: Json)
  {
    exists j :: 0 <= j < |s| && Truthy(IdOf(s[j])) && IdOf(s[j]) == x
  }

  lemma TruthyIdInSnoc(p: seq<Json>, e: Json, x: Json)
    ensures TruthyIdIn(p + [e], x) <==> TruthyIdIn(p, x) || (Truthy(IdOf(e)) && IdOf(e) == x)
  {
    var s := p + [e];
    if TruthyIdIn(s, x) {
      var j :| 0 <= j < |s| && Truthy(IdOf(s[j])) && IdOf(s[j]) == x;
      if j < |p| {
        assert p[j] == s[j];
      }
    }
    if TruthyIdIn(p, x) {
      var j :| 0 <= j < |p| && Truthy(IdOf(p[j])) && IdOf(p[j]) == x;
      assert s[j] == p[j];
    }
    if Truthy(IdOf(e)) && IdOf(e) == x {
      assert s[|p|] == e;
    }
  }

  /** The yielded ids are exactly the truthy ids of the stream. */
  lemma {:induction false} DedupeIds(s: seq<Json>)
    ensures forall x :: x in IdsOf(Dedupe(s)) <==> TruthyIdIn(s, x)
  {
    if s != [] {
      var p := s[..|s| - 1];
      var e := s[|s| - 1];
      var d := Dedupe(p);
      DedupeIds(p);
      assert s == p + [e];
      if Truthy(IdOf(e)) && IdOf(e) !in IdsOf(d) {
        IdsOfSnoc(d, e);
      }
      forall x
        ensures x in IdsOf(Dedupe(s)) <==> TruthyIdIn(s, x)
      {
        TruthyIdInSnoc(p, e, x);
      }
    }
  }

  /** No id is yielded twice, and every yielded event has a truthy id. */
  lemma {:induction false} DedupeDistinct(s: seq<Json>)
    ensures forall k, l :: 0 <= k < l < |Dedupe(s)| ==> IdOf(Dedupe(s)[k]) != IdOf(Dedupe(s)[l])
    ensures forall k :: 0 <= k < |Dedupe(s)| ==> Truthy(IdOf(Dedupe(s)[k]))
  {
    if s != [] {
      var p := s[..|s| - 1];
      var e := s[|s| - 1];
      var d := Dedupe(p);
      DedupeDistinct(p);
      if Truthy(IdOf(e)) && IdOf(e) !in IdsOf(d) {
        forall k | 0 <= k < |d|
          ensures IdOf(d[k]) != IdOf(e)
        {
          IdsOfMember(d, IdOf(d[k]));
        }
      }
    }
  }

  /** Every yielded event comes from the stream. */
  lemma {:induction false} DedupeFromStream(s: seq<Json>)
    ensures forall k :: 0 <= k < |Dedupe(s)| ==> Dedupe(s)[k] in s
  {
    if s != [] {
      var p := s[..|s| - 1];
      var d := Dedupe(p);
      DedupeFromStream(p);
      forall k | 0 <= k < |Dedupe(s)|
        ensures Dedupe(s)[k] in s
      {
        if k < |d| {
          assert Dedupe(s)[k] == d[k];
          assert d[k] in p;
        }
      }
    }
  }

  /** The first event carrying each truthy id is the one yielded. */
  lemma {:induction false} DedupeKeepsFirst(s: seq<Json>)
    ensures forall j :: (0 <= j < |s| && Truthy(IdOf(s[j])) &&
                         forall i :: 0 <= i < j ==> IdOf(s[i]) != IdOf(s[j])) ==> s[j] in Dedupe(s)
  {
    if s != [] {
      var p := s[..|s| - 1];
      var e := s[|s| - 1];
      var d := Dedupe(p);
      DedupeKeepsFirst(p);
      forall j | 0 <= j < |s| && Truthy(IdOf(s[j])) && (forall i :: 0 <= i < j ==> IdOf(s[i]) != IdOf(s[j]))
        ensures s[j] in Dedupe(s)
      {
        if j < |p| {
          assert p[j] == s[j];
          assert s[j] in d;
        } else {
          assert IdOf(e) !in IdsOf(d) by {
            DedupeIds(p);
          }
        }
      }
    }
  }

  /** Events are yielded as the stream goes: what was yielded for a prefix
      of the stream stays a prefix of what is yielded for all of it. */
  lemma {:induction false} DedupePrefix(s: seq<Json>, n: nat)
    requires n <= |s|
    ensures Dedupe(s[..n]) <= Dedupe(s)
    decreases |s|
  {
    if n < |s| {
      var p := s[..|s| - 1];
      assert p[..n] == s[..n];
      DedupePrefix(p, n);
    } else {
      assert s[..n] == s;
    }
  }

  /** The de-duplication of `iter_all_events_windowed`, keeping the ids
      already yielded in a set. */
  method DedupeById(events: seq<Json>) returns (out: seq<Json>)
    ensures out == Dedupe(events)
  {
    var seen: set<Json> := {};
    out := [];
    for i := 0 to |events|
      invariant out == Dedupe(events[..i])
      invariant seen == IdsOf(out)
    {
      assert events[..i + 1][..i] == events[..i];
      var e := events[i];
      var eid := IdOf(e);
      if !Truthy(eid) {
        continue;
      }
      if eid in seen {
        continue;
      }
      IdsOfSnoc(out, e);
      seen := seen + {eid};
      out := out + [e];
    }
    assert events[..|events|] == events;
  }

  /** The pages of window `win`, as paging reads them. */
  function WindowPages(fetch: (Window, nat) -> Result<Json>, win: Window): nat -> Result<PageData>
  {
    (p: nat) => ReadPage(fetch(win, p))
  }

  /** The events the windows' paging yields, window after window, before
      de-duplication, and the error that stopped it, if any. */
  function WindowedRaw(fetch: (Window, nat) -> Result<Json>, ws: seq<Window>, cap: int): (seq<Json>, Option<string>)
  {
    if ws == [] then ([], None)
    else
      var first := Paged(WindowPages(fetch, ws[0]), cap);
      if first.1.Some? then first
      else
        var rest := WindowedRaw(fetch, ws[1..], cap);
        (first.0 + rest.0, rest.1)
  }

  /** The windows' paging from the `w`-th window on: that window's paging,
      then, unless it failed, the paging of the windows after it. */
  lemma WindowedRawAt(fetch: (Window, nat) -> Result<Json>, ws: seq<Window>, w: nat, cap: int)
    requires w < |ws|
    ensures var first := Paged(WindowPages(fetch, ws[w]), cap);
            var rest := WindowedRaw(fetch, ws[w + 1..], cap);
            WindowedRaw(fetch, ws[w..], cap) == if first.1.Some? then first else (first.0 + rest.0, rest.1)
  {
    assert ws[w..][0] == ws[w] && ws[w..][1..] == ws[w + 1..];
  }

  /** `iter_all_events_windowed`: the windows of the range (the end
      defaulting to 30·`months_ahead` days after `now`), each paged in turn,
      the events de-duplicated by id across windows. `fetch(w, p)` is page
      `p` of window `w`; an error ends the iteration. */
  method IterAllEventsWindowed(fetch: (Window, nat) -> Result<Json>, now: int, start: Option<int>,
                               end: Option<int>, monthsAhead: int, stepDays: int, cap: int)
    returns (out: seq<Json>, err: Option<string>)
    requires stepDays > 0
    ensures var raw := WindowedRaw(fetch, Windows(start.GetOr(now), end.GetOr(DefaultEnd(now, monthsAhead)), DaySeconds(stepDays)),
                                  cap);
            out == Dedupe(raw.0) && err == raw.1
  {
    var s := start.GetOr(now);
    var e := if end.Some? then end.value else DefaultEnd(now, monthsAhead);
    var windows := BuildWindows(s, e, stepDays);
    var stream: seq<Json> := [];
    err := None;
    var w := 0;
    assert windows[0..] == windows;
    assert stream + WindowedRaw(fetch, windows, cap).0 == WindowedRaw(fetch, windows, cap).0;
    while w < |windows|
      invariant 0 <= w <= |windows|
      invariant WindowedRaw(fetch, windows, cap)
                  == (stream + WindowedRaw(fetch, windows[w..], cap).0, WindowedRaw(fetch, windows[w..], cap).1)
    {
      var win := windows[w];
      WindowedRawAt(fetch, windows, w, cap);
      var evs, fetched, werr := CollectPages(WindowPages(fetch, win), cap);
      if werr.Some? {
        stream := stream + evs;
        err := werr;
        break;
      }
      Regroup(stream, evs, WindowedRaw(fetch, windows[w + 1..], cap).0);
      stream := stream + evs;
      w := w + 1;
    }
    if err.None? {
      assert stream + [] == stream;
    }
    out := DedupeById(stream);
  }
}
