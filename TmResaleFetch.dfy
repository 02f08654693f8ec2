/** The two retrying requests of the Ticketmaster resale command: the
    event-page probe, which retries blocked, rate-limited and 5xx answers
    and exceptions with exponential backoff, and the EU price request, which
    retries 429 answers honouring a delay-seconds `Retry-After` (section
    10.2.3 of RFC 9110). The network is a function from the attempt number
    to what that attempt's GET produced. */
module TmResaleFetch {
  import opened Wrappers
  import opened Text
  import opened Json
  import opened TmSignals
  import opened TmPriceExtract
  import opened Http

  /** What one GET of the event page produced. */
  datatype PageOutcome =
    | PageRaised(error: string)
    | PageResponse(status: int, url: string, text: string)

  /** Blocked, rate-limited or server error: retried while attempts remain. */
  predicate Retryable(status: int)
  {
    status == 403 || status == 429 || (500 <= status <= 599)
  }

  /** The attempt is retried when attempts remain (the status and final URL
      of a response are remembered). */
  predicate RetriedOutcome(o: PageOutcome)
  {
    o.PageRaised? || Retryable(o.status)
  }

  function Failed(status: Option<int>, url: Option<string>, reason: string): HtmlResult
  {
    HtmlResult(false, Unknown, false, status, url, Some(reason))
  }

  const Fallthrough := "unexpected_fallthrough"

  /** A probe run: its result and the number of GETs it made. */
  datatype ProbeRun = ProbeRun(result: HtmlResult, gets: nat)

  /** The probe from attempt `attempt` on, `lastStatus`/`lastUrl` being the
      status and final URL of the latest earlier response. */
  function ProbeFrom(out: nat -> PageOutcome, maxRetries: int, attempt: nat,
                     lastStatus: Option<int>, lastUrl: Option<string>): ProbeRun
    decreases maxRetries + 1 - attempt
  {
    if attempt > maxRetries then ProbeRun(Failed(lastStatus, lastUrl, Fallthrough), attempt)
    else match out(attempt)
      case PageRaised(e) =>
        if attempt < maxRetries then ProbeFrom(out, maxRetries, attempt + 1, lastStatus, lastUrl)
        else ProbeRun(Failed(lastStatus, lastUrl, "exception: " + e), attempt + 1)
      case PageResponse(st, url, text) =>
        if st == 404 then
          ProbeRun(HtmlResult(true, Unknown, false, Some(404), Some(url), Some("page_404_invalid_url")), attempt + 1)
        else if Retryable(st) then
          if attempt < maxRetries then ProbeFrom(out, maxRetries, attempt + 1, Some(st), Some(url))
          else ProbeRun(Failed(Some(st), Some(url), "HTTP " + IntToString(st) + " (blocked/rate/5xx)"), attempt + 1)
        else if st >= 400 then
          ProbeRun(Failed(Some(st), Some(url), "HTTP " + IntToString(st)), attempt + 1)
        else ProbeRun(PageResult(st, url, text), attempt + 1)
  }

  /** `check_ticketmaster_page_availability` of the resale command. */
  method ProbePage(out: nat -> PageOutcome, maxRetries: int) returns (r: HtmlResult, gets: nat)
    ensures ProbeRun(r, gets) == ProbeFrom(out, maxRetries, 0, None, None)
    ensures maxRetries >= 0 ==> 1 <= gets <= maxRetries + 1
    ensures maxRetries < 0 ==> gets == 0
  {
    var lastStatus: Option<int> := None;
    var lastUrl: Option<string> := None;
    var attempt: nat := 0;
    ProbeGetsBounded(out, maxRetries, 0, None, None);
    while attempt <= maxRetries
      invariant ProbeFrom(out, maxRetries, attempt, lastStatus, lastUrl) == ProbeFrom(out, maxRetries, 0, None, None)
      invariant maxRetries >= 0 ==> attempt <= maxRetries
      invariant attempt > 0 ==> maxRetries >= attempt
      decreases maxRetries + 1 - attempt
    {
      match out(attempt)
      case PageRaised(e) =>
        if attempt < maxRetries {
          // sleep 2^attempt seconds plus jitter
          attempt := attempt + 1;
          continue;
        }
        return Failed(lastStatus, lastUrl, "exception: " + e), attempt + 1;
      case PageResponse(st, url, text) =>
        lastStatus, lastUrl := Some(st), Some(url);
        if st == 404 {
          return HtmlResult(true, Unknown, false, Some(404), lastUrl, Some("page_404_invalid_url")), attempt + 1;
        }
        if Retryable(st) {
          if attempt < maxRetries {
            attempt := attempt + 1;
            continue;
          }
          return Failed(Some(st), lastUrl, "HTTP " + IntToString(st) + " (blocked/rate/5xx)"), attempt + 1;
        }
        if st >= 400 {
          return Failed(Some(st), lastUrl, "HTTP " + IntToString(st)), attempt + 1;
        }
        return PageResult(st, url, text), attempt + 1;
    }
    return Failed(lastStatus, lastUrl, Fallthrough), attempt;
  }

  lemma {:induction false} ProbeGetsBounded(out: nat -> PageOutcome, maxRetries: int, attempt: nat,
                                            ls: Option<int>, lu: Option<string>)
    requires attempt <= maxRetries || attempt == 0
    ensures maxRetries >= 0 ==> attempt + 1 <= ProbeFrom(out, maxRetries, attempt, ls, lu).gets <= maxRetries + 1
    ensures maxRetries < 0 ==> ProbeFrom(out, maxRetries, attempt, ls, lu).gets == 0
    decreases maxRetries + 1 - attempt
  {
    if attempt < maxRetries {
      ProbeGetsBounded(out, maxRetries, attempt + 1, ls, lu);
      match out(attempt)
      case PageRaised(_) =>
      case PageResponse(st, url, _) =>
        ProbeGetsBounded(out, maxRetries, attempt + 1, Some(st), Some(url));
    }
  }

  /** "unexpected_fallthrough" is reached exactly when `max_retries` < 0: for
      any other bound the last attempt always returns. */
  lemma {:induction false} FallthroughOnlyWithoutAttempts(out: nat -> PageOutcome, maxRetries: int, attempt: nat,
                                                          ls: Option<int>, lu: Option<string>)
    requires attempt <= maxRetries || attempt == 0
    ensures ProbeFrom(out, maxRetries, attempt, ls, lu).result.reason == Some(Fallthrough) <==> maxRetries < 0
    decreases maxRetries + 1 - attempt
  {
    if 0 <= maxRetries {
      match out(attempt)
      case PageRaised(e) =>
        if attempt < maxRetries {
          FallthroughOnlyWithoutAttempts(out, maxRetries, attempt + 1, ls, lu);
        } else {
          assert ("exception: " + e)[0] == 'e' && Fallthrough[0] == 'u';
        }
      case PageResponse(st, url, _) =>
        if st != 404 && Retryable(st) {
          if attempt < maxRetries {
            FallthroughOnlyWithoutAttempts(out, maxRetries, attempt + 1, Some(st), Some(url));
          } else {
            assert ("HTTP " + IntToString(st) + " (blocked/rate/5xx)")[0] == 'H' && Fallthrough[0] == 'u';
          }
        } else if st != 404 && st >= 400 {
          assert ("HTTP " + IntToString(st))[0] == 'H' && Fallthrough[0] == 'u';
        }
    }
  }

  /** Retried attempts only postpone the decision: when every attempt before
      `k` was retried, the probe is decided from attempt `k` on, with the
      status and URL of the latest earlier response remembered. */
  lemma {:induction false} ProbeSkipsRetried(out: nat -> PageOutcome, maxRetries: int, k: nat,
                                             ls: Option<int>, lu: Option<string>, attempt: nat)
    requires attempt <= k <= maxRetries
    requires forall j :: attempt <= j < k ==> RetriedOutcome(out(j))
    ensures exists s, u :: ProbeFrom(out, maxRetries, attempt, ls, lu) == ProbeFrom(out, maxRetries, k, s, u)
    decreases k - attempt
  {
    if attempt == k {
      assert ProbeFrom(out, maxRetries, attempt, ls, lu) == ProbeFrom(out, maxRetries, k, ls, lu);
    } else {
      match out(attempt)
      case PageRaised(_) =>
        ProbeSkipsRetried(out, maxRetries, k, ls, lu, attempt + 1);
      case PageResponse(st, url, _) =>
        ProbeSkipsRetried(out, maxRetries, k, Some(st), Some(url), attempt + 1);
    }
  }

  /** A 404 on attempt `k`, after only retried attempts, returns at once:
      ok, availability unknown, not resale, and `k+1` GETs in all. */
  lemma NotFoundStopsProbe(out: nat -> PageOutcome, maxRetries: int, k: nat)
    requires k <= maxRetries
    requires forall j :: 0 <= j < k ==> RetriedOutcome(out(j))
    requires out(k).PageResponse? && out(k).status == 404
    ensures var run := ProbeFrom(out, maxRetries, 0, None, None);
            run.gets == k + 1 && run.result.ok && run.result.availability == Unknown
            && !run.result.isResale && run.result.statusCode == Some(404)
            && run.result.reason == Some("page_404_invalid_url")
  {
    ProbeSkipsRetried(out, maxRetries, k, None, None, 0);
  }

  /** A client error other than 403/404/429 on attempt `k`, after only
      retried attempts, fails at once without further retries. */
  lemma ClientErrorStopsProbe(out: nat -> PageOutcome, maxRetries: int, k: nat)
    requires k <= maxRetries
    requires forall j :: 0 <= j < k ==> RetriedOutcome(out(j))
    requires out(k).PageResponse? && out(k).status >= 400 && out(k).status != 404 && !Retryable(out(k).status)
    ensures var run := ProbeFrom(out, maxRetries, 0, None, None);
            run.gets == k + 1 && !run.result.ok && run.result.statusCode == Some(out(k).status)
  {
    ProbeSkipsRetried(out, maxRetries, k, None, None, 0);
  }

  /** When every attempt is retried, the probe makes all `max_retries+1`
      GETs and fails. */
  lemma AlwaysRetriedFails(out: nat -> PageOutcome, maxRetries: int)
    requires maxRetries >= 0
    requires forall j :: 0 <= j <= maxRetries ==> RetriedOutcome(out(j))
    ensures var run := ProbeFrom(out, maxRetries, 0, None, None);
            run.gets == maxRetries + 1 && !run.result.ok && run.result.availability == Unknown
  {
    ProbeSkipsRetried(out, maxRetries, maxRetries, None, None, 0);
  }

  // ---------------------------------------------------------------------
  // EU price request

  function PriceFailed(status: Option<int>, reason: string): PriceResult
  {
    PriceResult(false, status, Unknown, None, None, None, Some(reason))
  }

  const TooMany429 := "Troppi 429 (rate limit) su EU mfxapi"

  /** A price-request run: its result, the number of GETs and the sleeps
      between them. */
  datatype PriceRun = PriceRun(result: PriceResult, gets: nat, sleeps: seq<nat>)

  /** The successful result for a decoded payload. */
  function PricesFromPayload(status: int, data: Json): PriceResult
  {
    var lo := Extreme(CandidatesResale(data), true);
    var hi := Extreme(CandidatesResale(data), false);
    var cur := LastCurrency(CandidatesResale(data));
    PriceResult(true, Some(status), GuessFromPrices(data, lo, hi), lo, hi,
                if cur.Some? then Some(PyStr(cur.value)) else None, None)
  }

  function PriceFrom(out: nat -> ApiOutcome, maxRetries: int, attempt: nat, lastStatus: Option<int>): PriceRun
    decreases maxRetries + 1 - attempt
  {
    if attempt > maxRetries then PriceRun(PriceFailed(lastStatus, TooMany429), attempt, [])
    else match out(attempt)
      case ApiRaised(e) => PriceRun(PriceFailed(None, "mfxapi exception: " + e), attempt + 1, [])
      case ApiResponse(st, ra, text, body) =>
        if st == 429 && attempt < maxRetries then
          var rest := PriceFrom(out, maxRetries, attempt + 1, Some(st));
          rest.(sleeps := [RetryDelay(ra, attempt)] + rest.sleeps)
        else if st == 404 then
          PriceRun(PriceFailed(Some(404), "EU mfxapi: event_id non trovato (probabile ID non compatibile)"), attempt + 1, [])
        else if st == 401 || st == 403 then
          PriceRun(PriceFailed(Some(st), "EU mfxapi: non autorizzato (" + IntToString(st) + "). Controllare apikey/permessi."), attempt + 1, [])
        else if st >= 400 then
          PriceRun(PriceFailed(Some(st), "EU mfxapi errore HTTP " + IntToString(st) + ": " + Truncate(text, 600)), attempt + 1, [])
        else if body.None? then
          PriceRun(PriceFailed(Some(st), "EU mfxapi JSON parse error"), attempt + 1, [])
        else PriceRun(PricesFromPayload(st, body.value), attempt + 1, [])
  }

  /** `fetch_tm_eu_prices` of the resale command. */
  method FetchPrices(out: nat -> ApiOutcome, maxRetries: int) returns (r: PriceResult, gets: nat, sleeps: seq<nat>)
    ensures PriceRun(r, gets, sleeps) == PriceFrom(out, maxRetries, 0, None)
  {
    var lastStatus: Option<int> := None;
    var attempt: nat := 0;
    sleeps := [];
    while attempt <= maxRetries
      invariant PriceFrom(out, maxRetries, 0, None)
                == var rest := PriceFrom(out, maxRetries, attempt, lastStatus); rest.(sleeps := sleeps + rest.sleeps)
      decreases maxRetries + 1 - attempt
    {
      match out(attempt)
      case ApiRaised(e) =>
        return PriceFailed(None, "mfxapi exception: " + e), attempt + 1, sleeps;
      case ApiResponse(st, ra, text, body) =>
        lastStatus := Some(st);
        if st == 429 && attempt < maxRetries {
          sleeps := sleeps + [RetryDelay(ra, attempt)];
          attempt := attempt + 1;
          continue;
        }
        if st == 404 {
          return PriceFailed(Some(404), "EU mfxapi: event_id non trovato (probabile ID non compatibile)"), attempt + 1, sleeps;
        }
        if st == 401 || st == 403 {
          return PriceFailed(Some(st), "EU mfxapi: non autorizzato (" + IntToString(st) + "). Controllare apikey/permessi."), attempt + 1, sleeps;
        }
        if st >= 400 {
          return PriceFailed(Some(st), "EU mfxapi errore HTTP " + IntToString(st) + ": " + Truncate(text, 600)), attempt + 1, sleeps;
        }
        if body.None? {
          return PriceFailed(Some(st), "EU mfxapi JSON parse error"), attempt + 1, sleeps;
        }
        var lo, hi, cur := ExtractResale(body.value);
        r := PriceResult(true, Some(st), GuessFromPrices(body.value, lo, hi), lo, hi, cur, None);
        return r, attempt + 1, sleeps;
    }
    return PriceFailed(lastStatus, TooMany429), attempt, sleeps;
  }

  /** For any `max_retries_429` >= 0 the "Troppi 429" result is unreachable:
      a 429 on the last attempt is reported as a generic HTTP error. */
  lemma {:induction false} TooMany429Unreachable(out: nat -> ApiOutcome, maxRetries: int, attempt: nat, ls: Option<int>)
    requires attempt <= maxRetries
    ensures PriceFrom(out, maxRetries, attempt, ls).result.reason != Some(TooMany429)
    decreases maxRetries + 1 - attempt
  {
    assert TooMany429[0] == 'T';
    match out(attempt)
    case ApiRaised(e) =>
      assert ("mfxapi exception: " + e)[0] == 'm';
    case ApiResponse(st, ra, text, body) =>
      if st == 429 && attempt < maxRetries {
        TooMany429Unreachable(out, maxRetries, attempt + 1, Some(st));
      } else if st == 404 {
        assert "EU mfxapi: event_id non trovato (probabile ID non compatibile)" != TooMany429;
      } else if st == 401 || st == 403 {
        assert ("EU mfxapi: non autorizzato (" + IntToString(st) + "). Controllare apikey/permessi.")[0] == 'E';
      } else if st >= 400 {
        assert ("EU mfxapi errore HTTP " + IntToString(st) + ": " + Truncate(text, 600))[0] == 'E';
      } else if body.None? {
        assert "EU mfxapi JSON parse error"[0] == 'E';
      }
  }

  /** A run of 429 answers sleeps once per retried attempt, for the
      `Retry-After` delay or 2^attempt, and a 429 on the last attempt ends
      the run as a failed HTTP 429 after `max_retries_429+1` GETs. */
  lemma {:induction false} All429Exhausts(out: nat -> ApiOutcome, maxRetries: int, attempt: nat, ls: Option<int>)
    requires attempt <= maxRetries
    requires forall j :: attempt <= j <= maxRetries ==> out(j).ApiResponse? && out(j).status == 429
    ensures var run := PriceFrom(out, maxRetries, attempt, ls);
            run.gets == maxRetries + 1 && !run.result.ok && run.result.statusCode == Some(429)
            && |run.sleeps| == maxRetries - attempt
            && forall j :: 0 <= j < |run.sleeps| ==> run.sleeps[j] == RetryDelay(out(attempt + j).retryAfter, attempt + j)
    decreases maxRetries + 1 - attempt
  {
    if attempt < maxRetries {
      All429Exhausts(out, maxRetries, attempt + 1, Some(429));
    }
  }

  /** A request exception ends the run at once, without retrying. */
  lemma ExceptionNotRetried(out: nat -> ApiOutcome, maxRetries: int)
    requires maxRetries >= 0 && out(0).ApiRaised?
    ensures var run := PriceFrom(out, maxRetries, 0, None);
            run.gets == 1 && run.sleeps == [] && !run.result.ok && run.result.statusCode == None
  {
  }
}
