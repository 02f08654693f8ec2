/** Availability signals of the Ticketmaster resale monitor: the verdict
    guessed from the EU price payload, the keyword verdict on the event page,
    resale detection, request headers and the merge of page and price
    signals. */
module TmSignals {
  import opened Wrappers
  import opened Text
  import opened Json

  /** The four availability values. */
  datatype Avail = Available | Limited | Unavailable | Unknown

  /** Which signal decided a merged verdict. */
  datatype Source = Html | Mfxapi | Mixed

  /** Outcome of the event-page probe. */
  datatype HtmlResult = HtmlResult(
    ok: bool,
    availability: Avail,
    isResale: bool,
    statusCode: Option<int>,
    finalUrl: Option<string>,
    reason: Option<string>)

  /** Outcome of the EU price request. */
  datatype PriceResult = PriceResult(
    ok: bool,
    statusCode: Option<int>,
    availability: Avail,
    minPrice: Option<int>,
    maxPrice: Option<int>,
    currency: Option<string>,
    reason: Option<string>)

  /** Page and price signals merged into one verdict. */
  datatype Combined = Combined(
    ok: bool,
    availability: Avail,
    isResale: bool,
    minPrice: Option<int>,
    maxPrice: Option<int>,
    currency: Option<string>,
    source: Source,
    reason: Option<string>)

  // ---------------------------------------------------------------------
  // Verdict from the price payload

  /** Keys of the price payload consulted, in this order. */
  const StatusKeys: seq<string> := ["availability", "status", "onSale", "onsale", "available"]

  /** Verdict of one lowercased status value; `None` when it says nothing.
      Sold-out words are tested before "limit", and both before "avail",
      so "unavailable" is unavailable. */
  function KeyVerdict(s: string): Option<Avail>
  {
    if Contains(s, "sold") || Contains(s, "unavail") || s in ["false", "0", "no"] then Some(Unavailable)
    else if Contains(s, "limit") then Some(Limited)
    else if Contains(s, "avail") || s in ["true", "1", "yes"] then Some(Available)
    else None
  }

  /** Verdict of payload key `key`: `str(data.get(key)).lower()` when the key
      is present. */
  function ValueVerdict(data: Json, key: string): Option<Avail>
  {
    if Has(data, key) then KeyVerdict(Lower(PyStr(GetOrNull(data, key)))) else None
  }

  function GuessFrom(data: Json, keys: seq<string>, hasPrice: bool): Avail
  {
    if |keys| == 0 then (if hasPrice then Limited else Unknown)
    else match ValueVerdict(data, keys[0])
      case Some(v) => v
      case None => GuessFrom(data, keys[1..], hasPrice)
  }

  /** Key `keys[i]` is the first key whose value decides. */
  predicate FirstDecisive(data: Json, keys: seq<string>, i: nat)
  {
    i < |keys| && ValueVerdict(data, keys[i]).Some?
    && forall j :: 0 <= j < i ==> ValueVerdict(data, keys[j]).None?
  }

  /** The verdict guessed from a price payload and the extracted prices. */
  function GuessFromPrices(data: Json, minPrice: Option<int>, maxPrice: Option<int>): (r: Avail)
    ensures r == Unknown ==> minPrice.None? && maxPrice.None?
  {
    GuessNeverUnknownWithPrice(data, StatusKeys, minPrice.Some? || maxPrice.Some?);
    GuessFrom(data, StatusKeys, minPrice.Some? || maxPrice.Some?)
  }

  lemma {:induction false} GuessNeverUnknownWithPrice(data: Json, keys: seq<string>, hasPrice: bool)
    ensures hasPrice ==> GuessFrom(data, keys, hasPrice) != Unknown
    decreases |keys|
  {
    if |keys| > 0 && ValueVerdict(data, keys[0]).None? {
      GuessNeverUnknownWithPrice(data, keys[1..], hasPrice);
    }
  }

  /** The first decisive key decides, whatever the later keys and prices say. */
  lemma {:induction false} GuessFirstDecisiveWins(data: Json, keys: seq<string>, hasPrice: bool, i: nat)
    requires FirstDecisive(data, keys, i)
    ensures GuessFrom(data, keys, hasPrice) == ValueVerdict(data, keys[i]).value
    decreases i
  {
    if i > 0 {
      assert ValueVerdict(data, keys[0]).None?;
      assert FirstDecisive(data, keys[1..], i - 1) by {
        forall j | 0 <= j < i - 1 ensures ValueVerdict(data, keys[1..][j]).None? {
          assert keys[1..][j] == keys[j + 1];
        }
      }
      GuessFirstDecisiveWins(data, keys[1..], hasPrice, i - 1);
    }
  }

  /** With no decisive key, any extracted price gives "limited", none gives
      "unknown". */
  lemma {:induction false} GuessWithoutDecisiveKey(data: Json, keys: seq<string>, hasPrice: bool)
    requires forall j :: 0 <= j < |keys| ==> ValueVerdict(data, keys[j]).None?
    ensures GuessFrom(data, keys, hasPrice) == if hasPrice then Limited else Unknown
    decreases |keys|
  {
    if |keys| > 0 {
      assert forall j :: 0 <= j < |keys| - 1 ==> keys[1..][j] == keys[j + 1];
      GuessWithoutDecisiveKey(data, keys[1..], hasPrice);
    }
  }

  /** A payload that is not a dictionary is judged by its prices alone. */
  lemma NonDictGuess(data: Json, minPrice: Option<int>, maxPrice: Option<int>)
    requires !data.JObj?
    ensures GuessFromPrices(data, minPrice, maxPrice)
            == if minPrice.Some? || maxPrice.Some? then Limited else Unknown
  {
    GuessWithoutDecisiveKey(data, StatusKeys, minPrice.Some? || maxPrice.Some?);
  }

  // ---------------------------------------------------------------------
  // Verdict from the event page

  const Negatives: seq<string> :=
    ["sold out", "esaurito", "non disponibile", "tickets not available", "no tickets available"]

  const Positives: seq<string> :=
    ["acquista", "buy tickets", "aggiungi al carrello", "on sale", "in vendita", "rivendita", "resale"]

  /** `t[i..]` starts with `lit`. */
  predicate LitAt(t: string, i: nat, lit: string)
  {
    i + |lit| <= |t| && t[i..i + |lit|] == lit
  }

  /** First index at or after `i` that is not whitespace: where a greedy
      `\s*` stops. */
  function SkipSpaces(t: string, i: nat): (j: nat)
    ensures i <= j
    ensures j <= |t| || j == i
    decreases |t| - i
  {
    if i < |t| && IsSpace(t[i]) then SkipSpaces(t, i + 1) else i
  }

  /** `\s*:\s*true` matches at `i`. */
  predicate ColonTrueAt(t: string, i: nat)
  {
    var j := SkipSpaces(t, i);
    j < |t| && t[j] == ':' && LitAt(t, SkipSpaces(t, j + 1), "true")
  }

  /** `"isresale"\s*:\s*true` matches at `i`. */
  predicate QuotedFlagAt(t: string, i: nat)
  {
    LitAt(t, i, "\"isresale\"") && ColonTrueAt(t, i + 10)
  }

  /** `\bisresale\b\s*:\s*true` matches at `i` (the second `\b` is implied by
      the whitespace or colon that must follow). */
  predicate BareFlagAt(t: string, i: nat)
  {
    (i == 0 || (i - 1 < |t| && !IsWordChar(t[i - 1]))) && LitAt(t, i, "isresale") && ColonTrueAt(t, i + 8)
  }

  /** Resale detection on page text: a resale word, or an `isresale: true`
      flag matched case-insensitively. */
  predicate DetectResale(text: string)
  {
    var t := Lower(text);
    Contains(text, "rivendita") || Contains(text, "resale")
    || (exists i: nat | i < |t| :: QuotedFlagAt(t, i))
    || (exists i: nat | i < |t| :: BareFlagAt(t, i))
  }

  /** On lowercased text the two flag patterns add nothing: every match
      contains the word "resale", so resale detection is plain substring
      search. */
  lemma DetectResaleIsWordSearch(t: string)
    requires IsLowered(t)
    ensures DetectResale(t) <==> Contains(t, "rivendita") || Contains(t, "resale")
  {
    LowerOfLowered(t);
    if i: nat :| i < |t| && QuotedFlagAt(t, i) {
      QuotedFlagHasResale(t, i);
    }
    if i: nat :| i < |t| && BareFlagAt(t, i) {
      BareFlagHasResale(t, i);
    }
  }

  lemma QuotedFlagHasResale(t: string, i: nat)
    requires LitAt(t, i, "\"isresale\"")
    ensures Contains(t, "resale")
  {
    assert t[i + 3..i + 9] == t[i..i + 10][3..9] == "\"isresale\""[3..9] == "resale";
    ContainsAt(t, "resale", i + 3);
  }

  lemma BareFlagHasResale(t: string, i: nat)
    requires LitAt(t, i, "isresale")
    ensures Contains(t, "resale")
  {
    assert t[i + 2..i + 8] == t[i..i + 8][2..8] == "isresale"[2..8] == "resale";
    ContainsAt(t, "resale", i + 2);
  }

  /** Keyword verdict and reason for a 2xx page whose lowercased text is
      `t`: negative words first, then positive words. */
  function PageVerdict(t: string): (Avail, string)
  {
    if ContainsAny(t, Negatives) then (Unavailable, "negative_keyword")
    else if ContainsAny(t, Positives) then (Available, "positive_keyword")
    else (Unknown, "no_strong_signals")
  }

  /** The result of the probe for a page with status `status` < 400. */
  function PageResult(status: int, finalUrl: string, text: string): (r: HtmlResult)
    ensures r.ok && r.statusCode == Some(status)
    ensures r.isResale == DetectResale(Lower(text))
    ensures r.availability == Unavailable <==> ContainsAny(Lower(text), Negatives)
    ensures r.availability == Unknown <==>
              !ContainsAny(Lower(text), Negatives) && !ContainsAny(Lower(text), Positives)
  {
    var t := Lower(text);
    var (a, why) := PageVerdict(t);
    HtmlResult(true, a, DetectResale(t), Some(status), Some(finalUrl), Some(why))
  }

  /** A resale page with no negative word is judged available, because the
      resale words are themselves positive keywords. */
  lemma ResalePageIsAvailable(text: string)
    requires DetectResale(Lower(text)) && !ContainsAny(Lower(text), Negatives)
    ensures PageResult(200, "", text).availability == Available
    ensures PageResult(200, "", text).isResale
  {
    var t := Lower(text);
    assert IsLowered(t);
    DetectResaleIsWordSearch(t);
    if Contains(t, "rivendita") {
      assert Positives[5] == "rivendita";
    } else {
      assert Positives[6] == "resale";
    }
  }

  // ---------------------------------------------------------------------
  // Request headers

  const UaPool: seq<string> := [
    "Mozilla/5.0 (X11; Linux x86_64) AppleWebKit/537.36 (KHTML, like Gecko) Chrome/122.0.0.0 Safari/537.36",
    "Mozilla/5.0 (Windows NT 10.0; Win64; x64) AppleWebKit/537.36 (KHTML, like Gecko) Chrome/122.0.0.0 Safari/537.36",
    "Mozilla/5.0 (Macintosh; Intel Mac OS X 13_6) AppleWebKit/605.1.15 (KHTML, like Gecko) Version/17.2 Safari/605.1.15"
  ]

  datatype Headers = Headers(
    userAgent: string, accept: string, acceptLanguage: string,
    referer: string, connection: string, upgradeInsecureRequests: string)

  /** The pool entry attempt `attempt` uses. */
  function UaIndex(attempt: nat): (r: nat)
    ensures r < |UaPool|
  {
    attempt % |UaPool|
  }

  /** Browser-like headers for attempt `attempt`. */
  function BuildHeaders(attempt: nat): (r: Headers)
    ensures r.userAgent == UaPool[UaIndex(attempt)]
  {
    Headers(
      UaPool[UaIndex(attempt)],
      "text/html,application/xhtml+xml,application/xml;q=0.9,image/avif,image/webp,*/*;q=0.8",
      "it-IT,it;q=0.9,en-US;q=0.8,en;q=0.7",
      "https://www.ticketmaster.it/",
      "keep-alive",
      "1")
  }

  /** The user agent rotates with period three: any three consecutive
      attempts use the three agents of the pool, and attempt k+3 repeats
      attempt k. */
  lemma HeadersRotate(k: nat)
    ensures BuildHeaders(k + 3) == BuildHeaders(k)
    ensures {UaIndex(k), UaIndex(k + 1), UaIndex(k + 2)} == {0, 1, 2}
  {
    var r := k % 3;
    assert UaIndex(k + 3) == UaIndex(k);
    assert UaIndex(k + 1) == (r + 1) % 3 && UaIndex(k + 2) == (r + 2) % 3;
  }

  // ---------------------------------------------------------------------
  // Merge

  /** Python's `a or b` on optional strings. */
  function OrReason(a: Option<string>, b: Option<string>): Option<string>
  {
    if a.Some? && a.value != "" then a else b
  }

  predicate Decisive(a: Avail) { a == Available || a == Unavailable }

  /** Page and price signals merged: a decisive page verdict first, then a
      known price verdict, then any page verdict, else unknown. */
  function Merge(h: HtmlResult, p: PriceResult): (r: Combined)
    ensures r.ok == (h.ok || p.ok)
    ensures r.isResale == h.isResale
    ensures !p.ok ==> r.minPrice.None? && r.maxPrice.None? && r.currency.None?
    ensures p.ok ==> r.minPrice == p.minPrice && r.maxPrice == p.maxPrice && r.currency == p.currency
    ensures h.ok && Decisive(h.availability) ==> r.source == Html && r.availability == h.availability
    ensures r.source == Mfxapi <==>
              !(h.ok && Decisive(h.availability)) && p.ok && p.availability != Unknown
    ensures r.source == Mfxapi ==> r.availability == p.availability
    ensures r.source == Html <==> h.ok && !(r.source == Mfxapi)
    ensures r.source == Html ==> r.availability == h.availability
    ensures r.source == Mixed ==> r.availability == Unknown && !h.ok
    ensures r.availability == Unknown <==>
              !(h.ok && h.availability != Unknown) && !(p.ok && p.availability != Unknown)
  {
    var base := Combined(
      h.ok || p.ok, Unknown, h.isResale,
      if p.ok then p.minPrice else None,
      if p.ok then p.maxPrice else None,
      if p.ok then p.currency else None,
      Mixed, OrReason(h.reason, p.reason));
    if h.ok && Decisive(h.availability) then base.(availability := h.availability, source := Html)
    else if p.ok && p.availability != Unknown then base.(availability := p.availability, source := Mfxapi)
    else if h.ok then base.(availability := h.availability, source := Html)
    else base
  }
}
