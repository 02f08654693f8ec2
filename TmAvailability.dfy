/** The scraper-side Ticketmaster checks: a single-shot page check with its
    mapping wrapper, and a price request that retries 429 answers but lets
    request and JSON errors propagate. */
module TmAvailability {
  import opened Wrappers
  import opened Text
  import opened Json
  import opened TmSignals
  import opened TmPriceExtract
  import opened TmResaleFetch
  import opened Http

  /** The dictionary returned by the page check. */
  datatype PageCheck = PageCheck(
    ok: bool, availability: Avail, statusCode: Option<int>, finalUrl: Option<string>, reason: Option<string>)

  /** This module's positive words: the resale module's list without
      "rivendita" and "resale". */
  const ScraperPositives: seq<string> := ["acquista", "buy tickets", "aggiungi al carrello", "on sale", "in vendita"]

  /** `check_ticketmaster_page_availability`: one GET, no retry. */
  function CheckPage(o: PageOutcome): (r: PageCheck)
    ensures o.PageRaised? ==> !r.ok && r.statusCode.None? && r.finalUrl.None?
    ensures o.PageResponse? ==> r.statusCode == Some(o.status) && r.finalUrl == Some(o.url)
    ensures o.PageResponse? && o.status == 404 ==> r.ok && r.availability == Unknown
    ensures o.PageResponse? && o.status != 404 && o.status >= 400 ==> !r.ok && r.availability == Unknown
    ensures o.PageResponse? && o.status < 400 ==>
              r.ok && (r.availability == Unavailable <==> ContainsAny(Lower(o.text), Negatives))
              && (r.availability == Available <==>
                    !ContainsAny(Lower(o.text), Negatives) && ContainsAny(Lower(o.text), ScraperPositives))
    ensures !r.ok ==> r.availability == Unknown
  {
    match o
    case PageRaised(e) => PageCheck(false, Unknown, None, None, Some(e))
    case PageResponse(st, url, text) =>
      var t := Lower(text);
      if st == 404 then PageCheck(true, Unknown, Some(404), Some(url), Some("page_404_invalid_url"))
      else if st == 401 || st == 403 || st == 429 then
        PageCheck(false, Unknown, Some(st), Some(url), Some("HTTP " + IntToString(st) + " (probabile anti-bot)"))
      else if st >= 400 then PageCheck(false, Unknown, Some(st), Some(url), Some("HTTP " + IntToString(st)))
      else if ContainsAny(t, Negatives) then PageCheck(true, Unavailable, Some(st), Some(url), Some("negative_keyword"))
      else if ContainsAny(t, ScraperPositives) then PageCheck(true, Available, Some(st), Some(url), Some("positive_keyword"))
      else PageCheck(true, Unknown, Some(st), Some(url), Some("no_strong_signals"))
  }

  lemma {:induction false} ContainsNeedsRoom(s: string, sub: string)
    requires Contains(s, sub)
    ensures |sub| <= |s|
    decreases |s|
  {
    if !IsPrefix(sub, s) {
      ContainsNeedsRoom(s[1..], sub);
    }
  }

  lemma ResaleWordIsLowered()
    ensures Lower("resale") == "resale"
  {
    assert IsLowered("resale");
    LowerOfLowered("resale");
  }

  lemma ResaleWordHasNoOtherKeyword()
    ensures !ContainsAny("resale", Negatives) && !ContainsAny("resale", ScraperPositives)
  {
    var w := "resale";
    assert |w| == 6;
    forall k | k in Negatives ensures !Contains(w, k) {
      if Contains(w, k) { ContainsNeedsRoom(w, k); }
    }
    forall k | k in ScraperPositives ensures !Contains(w, k) {
      if Contains(w, k) { ContainsNeedsRoom(w, k); }
    }
  }

  /** The two page classifiers disagree on a resale-only page: the resale
      command's classifier calls the page "resale" available, this check
      calls it unknown. */
  lemma ClassifiersDifferOnResale()
    ensures CheckPage(PageResponse(200, "u", "resale")).availability == Unknown
    ensures PageResult(200, "u", "resale").availability == Available
  {
    ResaleWordIsLowered();
    ResaleWordHasNoOtherKeyword();
    assert Contains("resale", "resale") by { assert IsPrefix("resale", "resale"); }
    assert ContainsAny("resale", Positives) by { assert Positives[6] == "resale"; }
  }

  /** The call as made; `session` says whether a `session=` keyword is
      passed, which this function does not accept. */
  datatype PageCall = PageCall(url: string, session: bool)

  /** Invoking the page check: a `session=` keyword raises TypeError before
      any request is made. */
  function InvokeCheckPage(call: PageCall, o: PageOutcome): (r: Result<PageCheck>)
    ensures r.Err? <==> call.session
    ensures r.Ok? ==> r.value == CheckPage(o)
  {
    if call.session then Err("TypeError: unexpected keyword argument 'session'") else Ok(CheckPage(o))
  }

  /** The dictionary returned by the mapping wrapper. */
  datatype MappingCheck = MappingCheck(
    ok: bool, tmId: string, url: string, finalUrl: Option<string>, availability: Avail,
    statusCode: Option<int>, urlInvalid: bool, reason: Option<string>)

  /** `check_ticketmaster_mapping_availability`. */
  function CheckMapping(tmId: string, url: string, o: PageOutcome): (r: MappingCheck)
    ensures r.urlInvalid <==>
              CheckPage(o).statusCode == Some(404)
              || Contains(CheckPage(o).reason.GetOr(""), "page_404_invalid_url")
    ensures r.ok == CheckPage(o).ok && r.availability == CheckPage(o).availability
    ensures r.tmId == tmId && r.url == url
  {
    var res := CheckPage(o);
    MappingCheck(res.ok, tmId, url, res.finalUrl, res.availability, res.statusCode,
                 res.statusCode == Some(404) || Contains(res.reason.GetOr(""), "page_404_invalid_url"),
                 res.reason)
  }

  /** Every 404 page is flagged as an invalid URL. */
  lemma NotFoundFlagged(tmId: string, url: string, o: PageOutcome)
    requires o.PageResponse? && o.status == 404
    ensures CheckMapping(tmId, url, o).urlInvalid && CheckMapping(tmId, url, o).ok
  {
  }

  // ---------------------------------------------------------------------
  // Price request without exception handling

  /** The dictionary returned by the scraper's price request; the currency
      is the raw payload value. */
  datatype ScraperPrices = ScraperPrices(
    ok: bool, statusCode: Option<int>, availability: Avail,
    minPrice: Option<int>, maxPrice: Option<int>, currency: Option<Json>, reason: Option<string>)

  datatype ScraperRun = ScraperRun(result: Result<ScraperPrices>, gets: nat, sleeps: seq<nat>)

  function ScraperFailed(status: Option<int>, reason: string): Result<ScraperPrices>
  {
    Ok(ScraperPrices(false, status, Unknown, None, None, None, Some(reason)))
  }

  function ScraperFrom(out: nat -> ApiOutcome, maxRetries: int, attempt: nat, lastStatus: Option<int>): ScraperRun
    decreases maxRetries + 1 - attempt
  {
    if attempt > maxRetries then ScraperRun(ScraperFailed(lastStatus, TooMany429), attempt, [])
    else match out(attempt)
      case ApiRaised(e) => ScraperRun(Err(e), attempt + 1, [])
      case ApiResponse(st, ra, text, body) =>
        if st == 429 && attempt < maxRetries then
          var rest := ScraperFrom(out, maxRetries, attempt + 1, Some(st));
          rest.(sleeps := [RetryDelay(ra, attempt)] + rest.sleeps)
        else if st == 404 then
          ScraperRun(ScraperFailed(Some(404), "EU mfxapi: event_id non trovato (probabile ID non compatibile)"), attempt + 1, [])
        else if st == 401 || st == 403 then
          ScraperRun(ScraperFailed(Some(st), "EU mfxapi: non autorizzato (" + IntToString(st) + "). Controllare apikey/permessi."), attempt + 1, [])
        else if st >= 400 then
          ScraperRun(ScraperFailed(Some(st), "EU mfxapi errore HTTP " + IntToString(st) + ": " + Truncate(text, 600)), attempt + 1, [])
        else if body.None? then ScraperRun(Err("JSONDecodeError"), attempt + 1, [])
        else
          var data := body.value;
          var lo := Extreme(CandidatesScraper(data), true);
          var hi := Extreme(CandidatesScraper(data), false);
          ScraperRun(Ok(ScraperPrices(true, Some(st), GuessFromPrices(data, lo, hi), lo, hi,
                                      LastCurrency(CandidatesScraper(data)), None)), attempt + 1, [])
  }

  /** The scraper's `fetch_tm_eu_prices`. */
  method FetchPricesScraper(out: nat -> ApiOutcome, maxRetries: int)
    returns (r: Result<ScraperPrices>, gets: nat, sleeps: seq<nat>)
    ensures ScraperRun(r, gets, sleeps) == ScraperFrom(out, maxRetries, 0, None)
  {
    var lastStatus: Option<int> := None;
    var attempt: nat := 0;
    sleeps := [];
    while attempt <= maxRetries
      invariant ScraperFrom(out, maxRetries, 0, None)
                == var rest := ScraperFrom(out, maxRetries, attempt, lastStatus); rest.(sleeps := sleeps + rest.sleeps)
      decreases maxRetries + 1 - attempt
    {
      match out(attempt)
      case ApiRaised(e) =>
        return Err(e), attempt + 1, sleeps;
      case ApiResponse(st, ra, text, body) =>
        lastStatus := Some(st);
        if st == 429 && attempt < maxRetries {
          sleeps := sleeps + [RetryDelay(ra, attempt)];
          attempt := attempt + 1;
          continue;
        }
        if st == 404 {
          return ScraperFailed(Some(404), "EU mfxapi: event_id non trovato (probabile ID non compatibile)"), attempt + 1, sleeps;
        }
        if st == 401 || st == 403 {
          return ScraperFailed(Some(st), "EU mfxapi: non autorizzato (" + IntToString(st) + "). Controllare apikey/permessi."), attempt + 1, sleeps;
        }
        if st >= 400 {
          return ScraperFailed(Some(st), "EU mfxapi errore HTTP " + IntToString(st) + ": " + Truncate(text, 600)), attempt + 1, sleeps;
        }
        if body.None? {
          return Err("JSONDecodeError"), attempt + 1, sleeps;
        }
        var e := ExtractScraper(body.value);
        var data := body.value;
        r := Ok(ScraperPrices(true, Some(st), GuessFromPrices(data, e.minPrice, e.maxPrice),
                              e.minPrice, e.maxPrice, e.currency, None));
        return r, attempt + 1, sleeps;
    }
    return ScraperFailed(lastStatus, TooMany429), attempt, sleeps;
  }

  /** The scraper's "Troppi 429" dictionary is unreachable for any
      `max_retries_429` >= 0, and request or JSON errors are raised to the
      caller rather than reported in the dictionary. */
  lemma {:induction false} ScraperTooManyUnreachable(out: nat -> ApiOutcome, maxRetries: int, attempt: nat, ls: Option<int>)
    requires attempt <= maxRetries
    ensures var r := ScraperFrom(out, maxRetries, attempt, ls).result;
            r.Ok? ==> r.value.reason != Some(TooMany429)
    ensures (exists j :: attempt <= j <= maxRetries && out(j).ApiRaised?
                         && forall i :: attempt <= i < j ==> out(i).ApiResponse? && out(i).status == 429)
            ==> ScraperFrom(out, maxRetries, attempt, ls).result.Err?
    decreases maxRetries + 1 - attempt
  {
    assert TooMany429[0] == 'T';
    match out(attempt)
    case ApiRaised(e) =>
    case ApiResponse(st, ra, text, body) =>
      if st == 429 && attempt < maxRetries {
        ScraperTooManyUnreachable(out, maxRetries, attempt + 1, Some(st));
      } else if st == 404 {
        assert "EU mfxapi: event_id non trovato (probabile ID non compatibile)" != TooMany429;
      } else if st == 401 || st == 403 {
        assert ("EU mfxapi: non autorizzato (" + IntToString(st) + "). Controllare apikey/permessi.")[0] == 'E';
      } else if st >= 400 {
        assert ("EU mfxapi errore HTTP " + IntToString(st) + ": " + Truncate(text, 600))[0] == 'E';
      }
  }
}
