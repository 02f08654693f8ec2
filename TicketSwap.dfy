/** The TicketSwap scraper: event links taken from the Italy location page,
    the event id read off an event URL, the schema.org event found among a
    page's JSON-LD scripts, and the event record built from a page with its
    fallbacks. HTML parsing is not modelled: a location page is the list of
    its anchors' `href` values and an event page is its JSON-LD scripts,
    already decoded, plus the text of its `<title>`. */
module TicketSwap {
  import opened Wrappers
  import opened Text
  import opened Json

  const Base := "https://www.ticketswap.com"
  const LocationItaly := "https://www.ticketswap.com/location/italy/10896"

  // ---------------------------------------------------------------------
  // Character-level helpers

  /** `s.split(c)[0]`: everything before the first `c`. */
  function Before(s: string, c: char): (r: string)
    ensures IsPrefix(r, s) && c !in r
    ensures c !in s ==> r == s
    ensures |r| < |s| ==> s[|r|] == c
  {
    if |s| == 0 then ""
    else if s[0] == c then ""
    else [s[0]] + Before(s[1..], c)
  }

  /** The part of `s` from its first `c` on, or "" when there is none. */
  function From(s: string, c: char): (r: string)
    ensures IsSuffix(r, s)
    ensures |r| > 0 ==> r[0] == c
    ensures c !in s ==> r == ""
    decreases |s|
  {
    if |s| == 0 then ""
    else if s[0] == c then s
    else From(s[1..], c)
  }

  /** `s.replace(a, b)` for single characters. */
  function Replace(s: string, a: char, b: char): (r: string)
    ensures |r| == |s|
    ensures forall k :: 0 <= k < |s| ==> r[k] == (if s[k] == a then b else s[k])
  {
    seq(|s|, k requires 0 <= k < |s| => if s[k] == a then b else s[k])
  }

  predicate IsLetter(c: char) { IsUpper(c) || IsLowerLetter(c) }

  /** Where the "://" after a scheme of letters begins, if `u` has one. */
  function SchemeEnd(u: string): (r: Option<nat>)
    ensures r.Some? ==> 0 < r.value && r.value + 3 <= |u| && u[r.value..r.value + 3] == "://"
  {
    var k := |LetterRun(u)|;
    if 0 < k && k + 3 <= |u| && u[k..k + 3] == "://" then Some(k) else None
  }

  function LetterRun(u: string): (r: string)
    ensures IsPrefix(r, u)
  {
    if |u| > 0 && IsLetter(u[0]) then [u[0]] + LetterRun(u[1..]) else ""
  }

  // ---------------------------------------------------------------------
  // Event ids

  /** `urlparse(url).path`: the query and fragment cut off, then the scheme
      and the network location. */
  function UrlPath(url: string): string
  {
    var u := Before(Before(url, '#'), '?');
    match SchemeEnd(u)
    case Some(k) => From(u[k + 3..], '/')
    case None => if IsPrefix("//", u) then From(u[2..], '/') else u
  }

  predicate IsHex(c: char) { IsDigit(c) || 'a' <= c <= 'f' || 'A' <= c <= 'F' }

  /** The positions of the four dashes of a UUID. */
  predicate IsDashPos(k: int) { k == 8 || k == 13 || k == 18 || k == 23 }

  /** An 8-4-4-4-12 hexadecimal UUID, letters in either case. */
  predicate IsUuid(u: string)
  {
    |u| == 36 &&
    forall k :: 0 <= k < 36 ==> (IsDashPos(k) ==> u[k] == '-') && (!IsDashPos(k) ==> IsHex(u[k]))
  }

  lemma UuidHasNoSlash(u: string)
    requires IsUuid(u)
    ensures '/' !in u && u[0] != '/' && u[35] != '/'
  {
    assert !IsDashPos(0) && !IsDashPos(35);
  }

  /** The id of an event given its URL path: the trailing UUID when the path
      ends with "/" and one, else the path trimmed of "/" with every "/"
      turned into "_". Either way the id holds no "/". */
  function EventIdFromPath(path: string): (r: string)
    ensures IsUuid(r) || r == Replace(LStripAny(RStripAny(path, {'/'}), {'/'}), '/', '_')
    ensures '/' !in r
  {
    var p := LStripAny(RStripAny(path, {'/'}), {'/'});
    var s := "/" + p;
    if |s| >= 37 && s[|s| - 37] == '/' && IsUuid(s[|s| - 36..]) then
      UuidHasNoSlash(s[|s| - 36..]);
      s[|s| - 36..]
    else Replace(p, '/', '_')
  }

  /** `_event_id_from_url`. */
  function EventIdFromUrl(url: string): string
  {
    EventIdFromPath(UrlPath(url))
  }

  /** Stripping "/" from both ends of a path ending in "/" and a UUID leaves
      the UUID at its end, preceded by "/" unless nothing else is left. */
  lemma StripKeepsUuid(prefix: string, u: string)
    requires IsUuid(u)
    ensures var p := LStripAny(RStripAny(prefix + "/" + u, {'/'}), {'/'});
      |p| >= 36 && p[|p| - 36..] == u && (|p| == 36 || p[|p| - 37] == '/')
  {
    var t := prefix + "/" + u;
    UuidHasNoSlash(u);
    assert t[|t| - 1] == u[35];
    assert RStripAny(t, {'/'}) == t;
    var p := LStripAny(t, {'/'});
    assert t[|prefix| + 1] == u[0];
    assert |p| >= 36;
    assert t[|t| - |p|..] == p;
    assert p[|p| - 36..] == t[|t| - 36..] == u;
    if |p| > 36 {
      assert p[|p| - 37] == t[|t| - 37];
    }
  }

  /** A path ending in "/" and a UUID yields that UUID, whatever comes
      before. */
  lemma UuidPathYieldsUuid(prefix: string, u: string)
    requires IsUuid(u)
    ensures EventIdFromPath(prefix + "/" + u) == u
  {
    StripKeepsUuid(prefix, u);
    var p := LStripAny(RStripAny(prefix + "/" + u, {'/'}), {'/'});
    SlashUuidTail(p, u);
  }

  /** A trimmed path ending in a UUID that stands alone or after "/" still
      ends in "/" and the UUID once a "/" is put in front of it. */
  lemma SlashUuidTail(p: string, u: string)
    requires |u| == 36 && |p| >= 36 && p[|p| - 36..] == u && (|p| == 36 || p[|p| - 37] == '/')
    ensures var s := "/" + p; |s| >= 37 && s[|s| - 37] == '/' && s[|s| - 36..] == u
  {
    var s := "/" + p;
    assert s[|s| - 36..] == p[|p| - 36..];
    if |p| > 36 {
      assert s[|s| - 37] == p[|p| - 37];
    }
  }

  // ---------------------------------------------------------------------
  // Event links of the location page

  /** `urljoin(BASE, href)` for the forms an anchor takes: absolute,
      scheme-relative, absolute path or relative path. */
  function JoinBase(href: string): string
  {
    if SchemeEnd(href).Some? then href
    else if IsPrefix("//", href) then "https:" + href
    else if IsPrefix("/", href) then Base + href
    else if href == "" then Base
    else Base + "/" + href
  }

  /** The absolute link with its query and any trailing "/" removed. */
  function CleanLink(href: string): (r: string)
    ensures '?' !in r
    ensures |r| > 0 ==> r[|r| - 1] != '/'
  {
    RStripAny(Before(JoinBase(href), '?'), {'/'})
  }

  predicate IsEventHref(href: string) { Contains(href, "/event/") }

  /** The distinct event links among `hrefs`. */
  function LinkSet(hrefs: seq<string>): set<string>
  {
    set h | h in hrefs && IsEventHref(h) :: CleanLink(h)
  }

  lemma LinkSetStep(hrefs: seq<string>, i: nat)
    requires i < |hrefs|
    ensures LinkSet(hrefs[..i + 1])
            == LinkSet(hrefs[..i]) + (if IsEventHref(hrefs[i]) then {CleanLink(hrefs[i])} else {})
  {
    assert hrefs[..i + 1] == hrefs[..i] + [hrefs[i]];
  }

  /** Strictly increasing in Python's string order, hence without repeats. */
  predicate StrictlySorted(s: seq<string>)
  {
    forall i, j :: 0 <= i < j < |s| ==> StrLess(s[i], s[j])
  }

  lemma StrictlySortedDistinct(s: seq<string>)
    requires StrictlySorted(s)
    ensures forall i, j :: 0 <= i < j < |s| ==> s[i] != s[j]
  {
    forall i, j | 0 <= i < j < |s|
      ensures s[i] != s[j]
    {
      StrLessIrreflexive(s[i]);
    }
  }

  /** `x` placed into the sorted list `s`. */
  function InsertLink(x: string, s: seq<string>): (r: seq<string>)
    ensures |r| == |s| + 1
    ensures forall y :: y in r <==> y == x || y in s
  {
    if s == [] then [x]
    else if StrLess(x, s[0]) then [x] + s
    else [s[0]] + InsertLink(x, s[1..])
  }

  lemma {:induction false} InsertLinkSorted(x: string, s: seq<string>)
    requires StrictlySorted(s) && x !in s
    ensures StrictlySorted(InsertLink(x, s))
  {
    if s != [] {
      StrLessTotal(x, s[0]);
      if StrLess(x, s[0]) {
        var r := [x] + s;
        forall i, j | 0 <= i < j < |r|
          ensures StrLess(r[i], r[j])
        {
          if i == 0 && j > 1 {
            StrLessTransitive(x, s[0], s[j - 1]);
          }
        }
      } else {
        InsertLinkSorted(x, s[1..]);
        var t := InsertLink(x, s[1..]);
        var r := [s[0]] + t;
        forall i, j | 0 <= i < j < |r|
          ensures StrLess(r[i], r[j])
        {
          if i == 0 {
            assert r[j] in t;
            assert r[j] == x || r[j] in s[1..];
          }
        }
      }
    }
  }

  /** `sorted(links)`: the members of `links` in increasing order. */
  method SortLinks(links: set<string>) returns (r: seq<string>)
    ensures StrictlySorted(r)
    ensures forall x :: x in r <==> x in links
  {
    r := [];
    var rest := links;
    while rest != {}
      invariant StrictlySorted(r)
      invariant forall x :: x in links <==> x in r || x in rest
      invariant forall x :: x in r ==> x !in rest
      decreases |rest|
    {
      var x :| x in rest;
      InsertLinkSorted(x, r);
      r := InsertLink(x, r);
      rest := rest - {x};
    }
  }

  /** `_extract_event_links_from_location`: every `href` containing
      "/event/", made absolute and cleaned, collected in a set and returned
      sorted. */
  method ExtractEventLinks(hrefs: seq<string>) returns (links: seq<string>)
    ensures StrictlySorted(links)
    ensures forall x :: x in links <==> x in LinkSet(hrefs)
  {
    var found: set<string> := {};
    for i := 0 to |hrefs|
      invariant found == LinkSet(hrefs[..i])
    {
      LinkSetStep(hrefs, i);
      if IsEventHref(hrefs[i]) {
        found := found + {CleanLink(hrefs[i])};
      }
    }
    assert hrefs[..|hrefs|] == hrefs;
    links := SortLinks(found);
  }

  // ---------------------------------------------------------------------
  // The JSON-LD event

  /** The dictionaries a decoded script offers: itself, or the items of a
      list. */
  function Candidates(data: Json): seq<Json>
  {
    match data
    case JObj(_) => [data]
    case JArr(items) => items
    case _ => []
  }

  /** `obj.get("@type") or obj.get("['@type']") or ""`. */
  function TypeOf(obj: Json): Json
  {
    var a := GetOrNull(obj, "@type");
    if Truthy(a) then a
    else
      var b := GetOrNull(obj, "['@type']");
      if Truthy(b) then b else JStr("")
  }

  /** A dictionary whose type is a list holding "Event" or a value whose
      text is "event" in any case. */
  predicate IsEventObj(obj: Json)
  {
    obj.JObj? &&
    match TypeOf(obj)
    case JArr(ts) => JStr("Event") in ts
    case t => Lower(PyStr(t)) == "event"
  }

  function FirstEvent(objs: seq<Json>): (r: Option<Json>)
    ensures r.Some? ==> r.value in objs && IsEventObj(r.value)
    ensures r.None? <==> forall k :: 0 <= k < |objs| ==> !IsEventObj(objs[k])
  {
    if |objs| == 0 then None
    else if IsEventObj(objs[0]) then Some(objs[0])
    else FirstEvent(objs[1..])
  }

  /** `_parse_jsonld_event`: a script is `None` when it is blank or not
      JSON; the first event dictionary over the scripts in order. */
  function ParseJsonLd(scripts: seq<Option<Json>>): Option<Json>
  {
    if |scripts| == 0 then None
    else
      var here := if scripts[0].Some? then FirstEvent(Candidates(scripts[0].value)) else None;
      if here.Some? then here else ParseJsonLd(scripts[1..])
  }

  /** The JSON-LD event is the first event dictionary of the first script
      holding one, and there is none exactly when no script holds one. */
  lemma {:induction false} ParseJsonLdFirst(scripts: seq<Option<Json>>)
    ensures ParseJsonLd(scripts).None? <==>
              forall i :: 0 <= i < |scripts| && scripts[i].Some? ==> FirstEvent(Candidates(scripts[i].value)).None?
    ensures ParseJsonLd(scripts).Some? ==>
              exists i :: 0 <= i < |scripts| && scripts[i].Some? &&
                (forall k :: 0 <= k < i && scripts[k].Some? ==> FirstEvent(Candidates(scripts[k].value)).None?) &&
                ParseJsonLd(scripts) == FirstEvent(Candidates(scripts[i].value))
  {
    if |scripts| > 0 {
      ParseJsonLdFirst(scripts[1..]);
      var here := if scripts[0].Some? then FirstEvent(Candidates(scripts[0].value)) else None;
      if here.None? {
        assert forall i :: 1 <= i < |scripts| ==> scripts[i] == scripts[1..][i - 1];
        if ParseJsonLd(scripts).Some? {
          var i :| 0 <= i < |scripts[1..]| && scripts[1..][i].Some? &&
                   (forall k :: 0 <= k < i && scripts[1..][k].Some? ==> FirstEvent(Candidates(scripts[1..][k].value)).None?) &&
                   ParseJsonLd(scripts[1..]) == FirstEvent(Candidates(scripts[1..][i].value));
          assert 0 <= i + 1 < |scripts| && scripts[i + 1].Some?;
        }
      }
    }
  }

  // ---------------------------------------------------------------------
  // The event record of a page

  datatype Page = Page(scripts: seq<Option<Json>>, titleTag: Option<string>)

  datatype TicketSwapEvent = TicketSwapEvent(
    externalEventId: string, title: string, url: string, startsAtIso: Option<string>,
    venueName: Json, city: Json, country: Json, imageUrl: Option<string>, raw: Json)

  /** `d.get(key) or fallback`. */
  function GetOr(d: Json, key: string, fallback: Json): (r: Json)
    ensures Truthy(GetOrNull(d, key)) ==> r == GetOrNull(d, key)
    ensures !Truthy(GetOrNull(d, key)) ==> r == fallback
  {
    var v := GetOrNull(d, key);
    if Truthy(v) then v else fallback
  }

  /** The title taken from the `<title>` text: its part before the first
      "|", stripped, or the whole text when that part is blank; `None` for a
      blank or missing tag. */
  function TitleFromTag(tag: Option<string>): (r: Option<string>)
    ensures r.Some? ==> r.value != ""
    ensures r.None? <==> tag.None? || Strip(tag.value) == ""
  {
    var t := if tag.Some? then Strip(tag.value) else "";
    if t == "" then None
    else
      var head := Strip(Before(t, '|'));
      Some(if head != "" then head else t)
  }

  function ImageOf(image: Json): Option<string>
  {
    match image
    case JStr(s) => Some(s)
    case JArr(items) => if |items| > 0 && items[0].JStr? then Some(items[0].s) else None
    case _ => None
  }

  /** The JSON-LD event of a page, or an empty dictionary. */
  function LdData(page: Page): Json
  {
    var ld := ParseJsonLd(page.scripts);
    if ld.Some? then ld.value else JObj([])
  }

  /** The title: the JSON-LD name when truthy, else the `<title>` text. */
  function TitleOf(page: Page): Option<string>
  {
    var name := GetOrNull(LdData(page), "name");
    if Truthy(name) then Some(PyStr(name)) else TitleFromTag(page.titleTag)
  }

  /** `_build_event_from_page`: `None` when neither the JSON-LD name nor the
      `<title>` gives a title. */
  function BuildEvent(url: string, page: Page): (r: Option<TicketSwapEvent>)
    ensures r.Some? ==> r.value.externalEventId == EventIdFromUrl(url) && r.value.url == url && r.value.title != ""
  {
    var ld := ParseJsonLd(page.scripts);
    var data := LdData(page);
    var starts := GetOr(data, "startDate", GetOrNull(data, "start_date"));
    var loc := GetOrNull(data, "location");
    var addr := if loc.JObj? then GetOrNull(loc, "address") else JNull;
    var title := TitleOf(page);
    var raw := JObj([Field("source_url", JStr(url))] + (if ld.Some? then [Field("jsonld", ld.value)] else []));
    if title.None? || title.value == "" then None
    else Some(TicketSwapEvent(
      EventIdFromUrl(url), title.value, url,
      if Truthy(starts) then Some(PyStr(starts)) else None,
      if loc.JObj? then GetOr(loc, "name", JNull) else JNull,
      if addr.JObj? then GetOr(addr, "addressLocality", JNull) else JNull,
      if addr.JObj? then GetOr(addr, "addressCountry", JStr("IT")) else JStr("IT"),
      ImageOf(GetOrNull(data, "image")),
      raw))
  }

  /** The page gives no event exactly when the JSON-LD event has no truthy
      name and the `<title>` is blank or missing; otherwise the title is the
      name, or the `<title>` text when there is no name. */
  lemma BuildEventTitle(url: string, page: Page)
    ensures var name := GetOrNull(LdData(page), "name");
      && (BuildEvent(url, page).None? <==> !Truthy(name) && TitleFromTag(page.titleTag).None?)
      && (BuildEvent(url, page).Some? ==>
            BuildEvent(url, page).value.title == (if Truthy(name) then PyStr(name) else TitleFromTag(page.titleTag).value))
  {
  }

  /** Without a location dictionary the venue and city are `None` and the
      country is "IT". */
  lemma BuildEventCountryDefault(url: string, page: Page)
    requires BuildEvent(url, page).Some? && !GetOrNull(LdData(page), "location").JObj?
    ensures BuildEvent(url, page).value.country == JStr("IT")
    ensures BuildEvent(url, page).value.venueName == JNull && BuildEvent(url, page).value.city == JNull
  {
  }

  // ---------------------------------------------------------------------
  // fetch_events

  /** The event built from the page at `link`, when it could be fetched. */
  function EventAt(fetch: string -> Option<Page>, link: string): Option<TicketSwapEvent>
  {
    var page := fetch(link);
    if page.Some? then BuildEvent(link, page.value) else None
  }

  function Events(fetch: string -> Option<Page>): string -> Option<TicketSwapEvent>
  {
    link => EventAt(fetch, link)
  }

  /** The events `ev` gives for `links`, in link order. */
  function Built(ev: string -> Option<TicketSwapEvent>, links: seq<string>): (r: seq<TicketSwapEvent>)
    ensures |r| <= |links|
  {
    if |links| == 0 then []
    else (if ev(links[0]).Some? then [ev(links[0]).value] else []) + Built(ev, links[1..])
  }

  lemma {:induction false} BuiltConcat(ev: string -> Option<TicketSwapEvent>, a: seq<string>, b: seq<string>)
    ensures Built(ev, a + b) == Built(ev, a) + Built(ev, b)
  {
    if |a| > 0 {
      assert (a + b)[1..] == a[1..] + b;
      BuiltConcat(ev, a[1..], b);
    } else {
      assert a + b == b;
    }
  }

  /** Two ways of building events that agree on every link agree on every
      list of links. */
  lemma {:induction false} BuiltAgrees(ev: string -> Option<TicketSwapEvent>, ev2: string -> Option<TicketSwapEvent>,
                                       links: seq<string>)
    requires forall l :: ev(l) == ev2(l)
    ensures Built(ev, links) == Built(ev2, links)
  {
    if |links| > 0 {
      BuiltAgrees(ev, ev2, links[1..]);
    }
  }

  /** The first `n` items, none when `n` is not positive: what a loop that
      stops as soon as it holds `n` items keeps. */
  function UpTo(xs: seq<TicketSwapEvent>, n: int): (r: seq<TicketSwapEvent>)
    ensures |r| == if n <= 0 then 0 else if n < |xs| then n else |xs|
    ensures r <= xs
  {
    if n <= 0 then [] else if n < |xs| then xs[..n] else xs
  }

  /** `fetch_events`: the location page, then each event link in order,
      skipping pages whose request fails, until `limit` events are built. A
      failed location request fails the call. */
  method FetchEvents(location: Result<seq<string>>, fetch: string -> Option<Page>, limit: int)
    returns (r: Result<seq<TicketSwapEvent>>, links: seq<string>)
    ensures location.Err? ==> r == Err(location.error)
    ensures location.Ok? ==>
              && StrictlySorted(links) && (forall x :: x in links <==> x in LinkSet(location.value))
              && r == Ok(UpTo(Built(Events(fetch), links), limit))
  {
    if location.Err? {
      return Err(location.error), [];
    }
    links := ExtractEventLinks(location.value);
    var out := FetchPages(links, fetch, limit);
    r := Ok(out);
  }

  ghost predicate Yields(fetch: string -> Option<Page>, ev: string -> Option<TicketSwapEvent>)
  {
    forall l {:trigger EventAt(fetch, l)} :: EventAt(fetch, l) == ev(l)
  }

  lemma SomeYield(fetch: string -> Option<Page>) returns (ev: string -> Option<TicketSwapEvent>)
    ensures Yields(fetch, ev)
  {
    ev := Events(fetch);
  }

  /** The `for ev_url in links` loop: at most `limit` events, and those are
      the first `limit` that the links' pages yield. */
  method FetchPages(links: seq<string>, fetch: string -> Option<Page>, limit: int)
    returns (out: seq<TicketSwapEvent>)
    ensures out == UpTo(Built(Events(fetch), links), limit)
  {
    ghost var ev := SomeYield(fetch);
    out := [];
    var i := 0;
    while i < |links|
      invariant 0 <= i <= |links|
      invariant out == Built(ev, links[..i])
      invariant |out| <= (if limit < 0 then 0 else limit)
      decreases |links| - i
    {
      if |out| >= limit {
        break;
      }
      var obj := FetchEvent(fetch, links[i]);
      assert obj == ev(links[i]);
      BuiltStep(ev, links, i);
      if obj.Some? {
        out := out + [obj.value];
      }
      i := i + 1;
    }
    TakeBuilt(ev, links, i, limit);
    YieldsBuilt(fetch, ev, links);
  }

  /** One pass of the loop: the event page, then the event built from it; a
      page whose request fails yields nothing. */
  method FetchEvent(fetch: string -> Option<Page>, link: string) returns (obj: Option<TicketSwapEvent>)
    ensures obj == EventAt(fetch, link)
    ensures obj.Some? ==> obj.value.url == link && obj.value.externalEventId == EventIdFromUrl(link)
  {
    var page := fetch(link);
    if page.None? {
      return None;
    }
    obj := BuildEvent(link, page.value);
  }

  lemma BuiltStep(ev: string -> Option<TicketSwapEvent>, links: seq<string>, i: nat)
    requires i < |links|
    ensures Built(ev, links[..i + 1])
            == Built(ev, links[..i]) + (if ev(links[i]).Some? then [ev(links[i]).value] else [])
  {
    BuiltConcat(ev, links[..i], [links[i]]);
    assert links[..i + 1] == links[..i] + [links[i]];
  }

  lemma YieldsBuilt(fetch: string -> Option<Page>, ev: string -> Option<TicketSwapEvent>, links: seq<string>)
    requires Yields(fetch, ev)
    ensures Built(ev, links) == Built(Events(fetch), links)
  {
    forall l
      ensures ev(l) == Events(fetch)(l)
    {
      assert EventAt(fetch, l) == ev(l);
    }
    BuiltAgrees(ev, Events(fetch), links);
  }

  /** Where the loop stops: every link was tried, or `limit` events were
      built and the remaining links could only add more. */
  lemma TakeBuilt(ev: string -> Option<TicketSwapEvent>, links: seq<string>, i: nat, limit: int)
    requires i <= |links|
    requires |Built(ev, links[..i])| <= (if limit < 0 then 0 else limit)
    requires i == |links| || |Built(ev, links[..i])| >= limit
    ensures Built(ev, links[..i]) == UpTo(Built(ev, links), limit)
  {
    BuiltConcat(ev, links[..i], links[i..]);
    assert links[..i] + links[i..] == links;
  }
}
