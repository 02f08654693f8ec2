# Tixy ticket alerts, marketplace and validators — a Dafny model

Tixy is a Django back end for a ticket marketplace. It ingests events from
Ticketmaster, Eventbrite and TicketSwap into a catalogue of venues, events,
performances and platform mappings. It probes Ticketmaster pages and price
endpoints for availability and resale, and it e-mails users who follow an
event or hold a paid monitoring subscription when tickets come back. Around
that pipeline sit the marketplace (listings, orders, checkout with fees, PRO
subscriptions), the upload task that parses ticket PDFs, and the validators
for PDF and image metadata.

This project models that core in Dafny, one module per source file:

| module | source file |
|---|---|
| `TmSignals`, `TmPriceExtract`, `TmResaleFetch` | `core/api/management/commands/ticketmaster_resale.py` |
| `TmAvailability` | `core/api/scrapers/ticketmaster_availability.py` |
| `TmDiscovery`, `Calendar`, `JsonCanon` | `core/api/scrapers/ticketmaster_new.py` and `core/api/scrapers/ticketmaster.py` |
| `Eventbrite` | `core/api/scrapers/eventbrite.py` |
| `TicketSwap` | `core/api/scrapers/ticketswap.py` |
| `ScrubTmNew`, `Catalog`, `Slugs` | `core/api/management/commands/scrub_ticketmaster_new.py` |
| `ScrubEventbrite` | `core/api/management/commands/scrub_eventbrite.py` |
| `ScrubPortals` | `core/api/management/commands/scrub_portals.py` |
| `SeedMockData` | `core/api/management/commands/seed_mock_data.py` |
| `ScanTicketmasterPro`, `Alerts` | `core/api/management/commands/scan_ticketmaster_pro.py` |
| `ScanPaidAlerts`, `Alerts` | `core/api/management/commands/scan_paid_alerts.py` |
| `ScanFreeAlerts` | `core/api/management/commands/scan_free_alerts.py` |
| `ScanTicketmasterResale` | `core/api/management/commands/scan_ticketmaster_resale.py` |
| `Views` | `core/api/views.py` |
| `Serializers` | `core/api/serializers.py` |
| `Models` | `core/api/models.py` |
| `Tasks` | `core/api/tasks.py` |
| `Validators`, `Validation`, `FileValidators` | `core/api/validators.py`, `core/api/validation.py`, `core/api/file_validators.py` |
| `Filters`, `Admin` | `core/api/filters.py`, `core/api/admin.py` |
| `Wrappers`, `Text`, `Json`, `Http` | shared helpers: Option/Result, ASCII text, JSON values, HTTP outcomes |

How the model is built:

- **Outside effects are parameters.** The network is a function from the
  attempt number (or the request) to an outcome: an exception, or a status
  with headers and a body. A mail send is a delivered-or-raised outcome. The
  clock is a `now` parameter. The database is a store class whose fields are
  maps keyed by the natural key of each table.
- **Imperative code stays imperative.** Retry loops, paging loops, record
  loops with counters, and the objects the source updates in place are
  methods with loop invariants and `modifies` clauses. Their `ensures` ties
  the result and the new state to a specification function. The properties
  the source promises are lemmas about those functions.
- **Pure code becomes functions.** Decision tables, key builders and parsers
  are functions with named results, plus lemmas.
- **Counters** of the commands are multisets of counter names.
- **Money** is integer cents, and Decimal quantisation is half-even rounding.

Behaviours the model exhibits as written (no correction needed):

- The page-preview fee and the checkout fee can differ by a cent, because
  the preview rounds each fee term separately (`Views.PreviewAndCheckoutDiffer`).
- The "too many 429" results of the price fetchers and catalogue fetchers
  cannot be reached. The 400 check in the new Ticketmaster catalogue fetch is
  dead code.
- A new time-to-be-decided performance keeps the status UNKNOWN in the
  store. Its TIME_TBD status is set only on the object in memory.

## Model

| member | source | states |
|---|---|---|
| TmSignals.GuessFromPrices | core/api/management/commands/ticketmaster_resale.py:255-270 | the verdict is unknown only when the payload decides nothing and neither a minimum nor a maximum price was found |
| TmSignals.GuessNeverUnknownWithPrice | core/api/management/commands/ticketmaster_resale.py:255-270 | with a price found the verdict is never unknown |
| TmSignals.GuessFirstDecisiveWins | core/api/management/commands/ticketmaster_resale.py:257-265 | the first of availability, status, onSale, onsale, available whose value decides gives the verdict, whatever later keys and prices say |
| TmSignals.GuessWithoutDecisiveKey | core/api/management/commands/ticketmaster_resale.py:267-270 | when no key decides, the verdict is limited with a price and unknown without one |
| TmSignals.NonDictGuess | core/api/management/commands/ticketmaster_resale.py:255-270 | a payload that is not a dictionary is judged by its prices alone |
| TmSignals.DetectResaleIsWordSearch | core/api/management/commands/ticketmaster_resale.py:314-322 | on lower-cased text resale is detected exactly when "rivendita" or "resale" occurs; the two flag patterns add nothing |
| TmSignals.QuotedFlagHasResale | core/api/management/commands/ticketmaster_resale.py:318-319 | a text matching the quoted isresale flag contains "resale" |
| TmSignals.BareFlagHasResale | core/api/management/commands/ticketmaster_resale.py:320-321 | a text matching the bare isresale flag contains "resale" |
| TmSignals.SkipSpaces | core/api/management/commands/ticketmaster_resale.py:318-321 | skipping blanks moves forward and stays within the text |
| TmSignals.PageResult | core/api/management/commands/ticketmaster_resale.py:384-417 | a page below 400 gives an ok result with its status; resale as detected on the lower-cased text; unavailable exactly when a negative phrase occurs; unknown exactly when neither a negative nor a positive phrase occurs |
| TmSignals.ResalePageIsAvailable | core/api/management/commands/ticketmaster_resale.py:384-406 | a resale page without a negative phrase is available and marked resale |
| TmSignals.UaIndex | core/api/management/commands/ticketmaster_resale.py:303 | the user agent index lies within the pool |
| TmSignals.BuildHeaders | core/api/management/commands/ticketmaster_resale.py:302-311 | attempt k uses pool entry k mod 3 as its user agent |
| TmSignals.HeadersRotate | core/api/management/commands/ticketmaster_resale.py:302-311 | the headers repeat every three attempts, and three consecutive attempts use all three user agents |
| TmSignals.Merge | core/api/management/commands/ticketmaster_resale.py:450-479 | ok when either probe is ok; resale from the page; prices only from an ok price probe; a decisive page verdict wins, else a known price verdict, else any page verdict, else unknown from neither; unknown exactly when neither ok probe knows |
| TmPriceExtract.FlattenMember | core/api/management/commands/ticketmaster_resale.py:205-212 | everything a nested walk yields comes from one of its parts |
| TmPriceExtract.DictItems | core/api/management/commands/ticketmaster_resale.py:198-203 | only dictionaries are taken from a price list |
| TmPriceExtract.Filter | core/api/management/commands/ticketmaster_resale.py:214-221 | the walk keeps exactly the objects that pass the test, never more than it saw |
| TmPriceExtract.WalkYieldsDicts | core/api/management/commands/ticketmaster_resale.py:205-212 | the walk yields only dictionaries, and a dictionary first of all itself |
| TmPriceExtract.CandidatesResale | core/api/management/commands/ticketmaster_resale.py:192-221 | a payload that is not a dictionary has no candidates; every candidate is a dictionary |
| TmPriceExtract.ItemCopiesScraper | core/api/scrapers/ticketmaster_availability.py:151-161 | a list item is added once for each price pair it has a key of, plus once for "value", and only when it has one of those keys |
| TmPriceExtract.CandidatesScraper | core/api/scrapers/ticketmaster_availability.py:140-177 | a payload that is not a dictionary has no candidates |
| TmPriceExtract.ScraperWalkNarrower | core/api/scrapers/ticketmaster_availability.py:175-177 | the scraper's walk keeps only what the resale command's keeps, and drops an object with only "value" that the command keeps |
| TmPriceExtract.StepWithinBounds | core/api/management/commands/ticketmaster_resale.py:233-250 | the running minimum (maximum) after some feeds of one candidate is at most (at least) every feed parsed and the previous extreme, and is one of them; it is unset exactly when nothing has parsed yet |
| TmPriceExtract.ExtremeUnsetIffNothingParsed | core/api/management/commands/ticketmaster_resale.py:233-252 | the extracted minimum (maximum) is unset exactly when no price key of any candidate parsed |
| TmPriceExtract.ExtremeBoundsAllFeeds | core/api/management/commands/ticketmaster_resale.py:233-252 | the extracted minimum is at most, and the maximum at least, every price parsed |
| TmPriceExtract.ExtremeIsSomeFeed | core/api/management/commands/ticketmaster_resale.py:233-252 | the extracted minimum (maximum), when set, is one of the prices parsed |
| TmPriceExtract.FindCurrency | core/api/management/commands/ticketmaster_resale.py:234-237 | the currency of a candidate is its first truthy currency, currencyCode or cur value |
| TmPriceExtract.FoldOne | core/api/management/commands/ticketmaster_resale.py:233-250 | one candidate updates the minimum and maximum from its feeds and replaces the currency when it has one |
| TmPriceExtract.FoldSide | core/api/management/commands/ticketmaster_resale.py:238-250 | one side of a candidate's feeds updates the running extreme as specified |
| TmPriceExtract.Fold | core/api/management/commands/ticketmaster_resale.py:233-252 | the candidate loop gives the extreme of all feeds on each side and the currency of the last candidate that has one |
| TmPriceExtract.ExtractResale | core/api/management/commands/ticketmaster_resale.py:192-252 | the resale extractor returns the extremes of its candidates and the text of the last currency; a non-dictionary gives nothing |
| TmPriceExtract.ExtractScraper | core/api/scrapers/ticketmaster_availability.py:140-210 | the scraper's extractor returns the extremes of its candidates and the raw last currency; a non-dictionary gives nothing |
| TmResaleFetch.ProbePage | core/api/management/commands/ticketmaster_resale.py:325-442 | the retry loop gives the result of the attempt-by-attempt specification and makes between 1 and max_retries+1 requests (none with a negative budget) |
| TmResaleFetch.ProbeGetsBounded | core/api/management/commands/ticketmaster_resale.py:337-442 | from attempt k the probe makes between k+1 and max_retries+1 requests |
| TmResaleFetch.FallthroughOnlyWithoutAttempts | core/api/management/commands/ticketmaster_resale.py:436-442 | the "unexpected_fallthrough" result is reached exactly when the retry budget is negative |
| TmResaleFetch.ProbeSkipsRetried | core/api/management/commands/ticketmaster_resale.py:359-363 | attempts that are retried only carry the last status and URL forward |
| TmResaleFetch.NotFoundStopsProbe | core/api/management/commands/ticketmaster_resale.py:348-357 | a 404 after retried attempts ends the probe at once: ok, unknown, not resale, reason "page_404_invalid_url" |
| TmResaleFetch.ClientErrorStopsProbe | core/api/management/commands/ticketmaster_resale.py:374-383 | another 4xx that is not retried ends the probe at once as a failure with its status |
| TmResaleFetch.AlwaysRetriedFails | core/api/management/commands/ticketmaster_resale.py:359-372 | when every attempt is blocked, rate-limited or a server error, all max_retries+1 requests are made and the probe fails with unknown |
| TmResaleFetch.FetchPrices | core/api/management/commands/ticketmaster_resale.py:72-189 | the 429 retry loop gives the result, request count and sleeps of the attempt-by-attempt specification |
| TmResaleFetch.TooMany429Unreachable | core/api/management/commands/ticketmaster_resale.py:180-189 | the "Troppi 429" result after the loop is never returned: the last attempt always returns from inside the loop |
| TmResaleFetch.All429Exhausts | core/api/management/commands/ticketmaster_resale.py:110-114 | when every answer is 429, all max_retries+1 requests are made, the run fails with status 429, and the sleeps are Retry-After when it is digits, else 2^attempt |
| TmResaleFetch.ExceptionNotRetried | core/api/management/commands/ticketmaster_resale.py:92-104 | a request exception ends the run at once without retry or sleep, as a failure with no status |
| TmAvailability.CheckPage | core/api/scrapers/ticketmaster_availability.py:242-280 | an exception gives a failure with no status; a 404 is ok and unknown; any other status from 400 fails as unknown; below 400 the page is unavailable exactly when a negative phrase occurs and available exactly when none does and a positive one does |
| TmAvailability.ClassifiersDifferOnResale | core/api/scrapers/ticketmaster_availability.py:269-277 | the scraper and the resale command disagree on a page that only says "resale": unknown for one, available for the other |
| TmAvailability.InvokeCheckPage | core/api/scrapers/ticketmaster_availability.py:242 | a call passing a session fails with a TypeError; any other call gives the page check |
| TmAvailability.CheckMapping | core/api/scrapers/ticketmaster_availability.py:283-301 | the URL is flagged invalid exactly when the status is 404 or the reason mentions page_404_invalid_url; ok and availability are the page check's |
| TmAvailability.NotFoundFlagged | core/api/scrapers/ticketmaster_availability.py:283-301 | every 404 page is flagged as an invalid URL and counts as ok |
| TmAvailability.FetchPricesScraper | core/api/scrapers/ticketmaster_availability.py:19-137 | the 429 retry loop gives the result, request count and sleeps of the attempt-by-attempt specification |
| TmAvailability.ScraperTooManyUnreachable | core/api/scrapers/ticketmaster_availability.py:128-137 | the "Troppi 429" result is never returned, and a request that raises after only 429 answers propagates the error |
| TmDiscovery.FetchEventsPage | core/api/scrapers/ticketmaster_new.py:75-123 | the retry loop gives the result, request count and sleeps of the attempt-by-attempt specification: a 429 is retried after Retry-After (when digits) or 2^attempt seconds while attempts remain; an error status raises; otherwise the decoded body is returned |
| TmDiscovery.BadRequestCheckIsDead | core/api/scrapers/ticketmaster_new.py:117-119 | the explicit 400 test after raise_for_status never changes the outcome, so both collector modules fetch alike |
| TmDiscovery.TooMany429EventsUnreachable | core/api/scrapers/ticketmaster_new.py:107-123 | "Too many 429 responses" is never raised by the loop itself (only a request that raises it), and at most max_retries+1 requests are made |
| TmDiscovery.ReadPage | core/api/scrapers/ticketmaster_new.py:161-168 | a page read succeeds exactly when its request did; a failure keeps the error; a success gives the events and page count of the body |
| TmDiscovery.CollectPages | core/api/scrapers/ticketmaster_new.py:126-174 | paging stops at once with a cap of 0 or less; otherwise it reads 1 to cap pages in order, going on after a page exactly when more pages are announced (or, with no count, the page was not empty) and the cap is not reached; an error stops at the failing page; the events yielded are those of the pages read, in order; events and error equal the recursive paging specification's |
| TmDiscovery.BuildWindows | core/api/scrapers/ticketmaster_new.py:177-200 | no window exactly when the end is not after the start; otherwise the windows run from start to end, each starting where the previous ended, each non-empty and at most step_days long, all but the last exactly step_days long; the windows equal the recursive window specification's |
| TmDiscovery.WindowsTile | core/api/scrapers/ticketmaster_new.py:177-200 | the window specification tiles the range: no window exactly when it is empty, the first at the start and the last at the end, each starting where the previous ended, none longer than the step and all but the last exactly one step long |
| TmDiscovery.DefaultEnd | core/api/scrapers/ticketmaster_new.py:224-226 | the default end is 30 days per month ahead after now |
| TmDiscovery.IdsOfMember | core/api/scrapers/ticketmaster_new.py:242-247 | an id is among those of a list exactly when some event of the list carries it |
| TmDiscovery.DedupeIds | core/api/scrapers/ticketmaster_new.py:242-248 | the ids yielded are exactly the truthy ids of the stream |
| TmDiscovery.DedupeDistinct | core/api/scrapers/ticketmaster_new.py:242-248 | no id is yielded twice, and every event yielded has a truthy id |
| TmDiscovery.DedupeFromStream | core/api/scrapers/ticketmaster_new.py:242-248 | every event yielded comes from the stream |
| TmDiscovery.DedupeKeepsFirst | core/api/scrapers/ticketmaster_new.py:242-248 | the first event carrying each truthy id is yielded |
| TmDiscovery.DedupePrefix | core/api/scrapers/ticketmaster_new.py:231-248 | what is yielded for a prefix of the stream is a prefix of what is yielded for all of it |
| TmDiscovery.DedupeById | core/api/scrapers/ticketmaster_new.py:231-248 | the de-duplicating loop with its seen set yields the de-duplicated stream |
| TmDiscovery.IterAllEventsWindowed | core/api/scrapers/ticketmaster_new.py:203-248 | the events yielded are the de-duplication by id of the events paged window after window over the windows from the start (default now) to the end (default now plus 30 days per month ahead), stopping at the first window whose paging fails, and the error is that window's |
| TmDiscovery.WindowedRawAt | core/api/scrapers/ticketmaster_new.py:231-248 | the events paged from the w-th window on are that window's pages, then the following windows' unless paging failed |
| Calendar.BeforeIsStrictTotalOrder | core/api/scrapers/ticketmaster_new.py:190 | comparing date-times is a strict total order |
| Calendar.IsoZ | core/api/scrapers/ticketmaster_new.py:40-49 | the text is 20 characters ending in "Z" |
| Calendar.IsoZIgnoresZoneTagAndMicros | core/api/scrapers/ticketmaster_new.py:46-48 | a naive time is taken as UTC and microseconds are dropped |
| Calendar.ReplaceZ | core/api/scrapers/ticketmaster_new.py:56 | a text without "Z" is left as it is |
| Calendar.ParseDtUtc | core/api/scrapers/ticketmaster_new.py:53-56 | a missing or empty text reads as no date, and only it; a date read is a valid calendar value |
| Calendar.ParseIsoDate | core/api/management/commands/scrub_ticketmaster_new.py:284 | a date read from a text is a valid day at midnight; only a 10-character text can be read |
| Calendar.IsoZRoundTrip | core/api/scrapers/ticketmaster_new.py:40-56 | what iso_z writes, parse_dt_utc reads back, microseconds aside |
| JsonCanon.Insert | core/api/scrapers/ticketmaster_new.py:63 | inserting a field adds exactly that field and puts it first or keeps the first |
| JsonCanon.InsertSorted | core/api/scrapers/ticketmaster_new.py:63 | inserting a field with a new key into a key-sorted list keeps it sorted |
| JsonCanon.SortFields | core/api/scrapers/ticketmaster_new.py:63 | sorting the fields keeps exactly the same fields |
| JsonCanon.SortFieldsSorted | core/api/scrapers/ticketmaster_new.py:63 | the fields of a dictionary come out in strictly increasing key order |
| JsonCanon.SortedUnique | core/api/scrapers/ticketmaster_new.py:63 | two key-sorted lists of the same fields are the same list |
| JsonCanon.EscapeChar | core/api/scrapers/ticketmaster_new.py:63 | a character is escaped exactly when it is a quote, a backslash or a control character |
| JsonCanon.Quote | core/api/scrapers/ticketmaster_new.py:63 | a JSON string is quoted and at least as long as its text |
| JsonCanon.KeyOrderIrrelevant | core/api/scrapers/ticketmaster_new.py:59-66 | two dictionaries with the same fields in any order give the same checksum text |
| JsonCanon.CanonicalKeysSorted | core/api/scrapers/ticketmaster_new.py:63 | the canonical form of a dictionary has its keys sorted and the same number of fields |
| JsonCanon.KeysCons | core/api/scrapers/ticketmaster_new.py:63 | the keys of a dictionary are its first key and the keys of the rest |
| JsonCanon.SortedHeadApart | core/api/scrapers/ticketmaster_new.py:63 | in a key-sorted list the first key is the least and does not repeat |
| JsonCanon.SortedSameKeys | core/api/scrapers/ticketmaster_new.py:63 | two key-sorted lists with the same set of keys list the same keys at every position |
| JsonCanon.PermutedKeys | core/api/scrapers/ticketmaster_new.py:63 | reordering a dictionary's fields keeps its set of keys |
| JsonCanon.SameCanonical | core/api/scrapers/ticketmaster_new.py:59-66 | two payloads that differ only in the key order of their dictionaries, at any depth, have the same canonical form |
| JsonCanon.CanonicalFieldwise | core/api/scrapers/ticketmaster_new.py:63 | dictionaries whose sorted fields agree key by key and canonical value by canonical value have the same canonical form |
| JsonCanon.SameChecksum | core/api/scrapers/ticketmaster_new.py:59-66 | two payloads that differ only in the key order of their dictionaries, at any depth, get the same checksum text |
| Eventbrite.Decode | core/api/scrapers/eventbrite.py:19-24 | any status but 200 raises; the body is returned exactly when the status is 200 and the body decodes |
| Eventbrite.Record | core/api/scrapers/eventbrite.py:57-80 | the record keeps the raw event; the id is the text of a truthy id, else ""; an untruthy title becomes ""; without a venue the venue id, name, city and country are empty |
| Eventbrite.Normalize | core/api/scrapers/eventbrite.py:56-80 | an event without a truthy venue id needs no lookup; a record fails only when the venue lookup for its venue id fails |
| Eventbrite.NormalizeAllPointwise | core/api/scrapers/eventbrite.py:56-80 | a page's records succeed exactly when every event's does, and are those records in event order |
| Eventbrite.NextToken | core/api/scrapers/eventbrite.py:82-87 | the listing goes on exactly when the page says there are more items and gives a truthy continuation token |
| Eventbrite.SomeServer | core/api/scrapers/eventbrite.py:47-87 | the remote API's answers can always be served as page answers |
| Eventbrite.Prepend | core/api/scrapers/eventbrite.py:56-80 | a page's records are put before those of the later pages; an error passes through |
| Eventbrite.OrgRequests | core/api/scrapers/eventbrite.py:47-87 | the listing sends at most the fuel bound of event-page requests, the first one for the first page |
| Eventbrite.OrgStep | core/api/scrapers/eventbrite.py:47-87 | the listing is the first page's records followed, while a continuation is given, by the listing from that continuation; an error ends it |
| Eventbrite.ListingAgrees | core/api/scrapers/eventbrite.py:47-87 | the listing depends only on the pages' answers |
| Eventbrite.ServedListing | core/api/scrapers/eventbrite.py:47-87 | any page function serving the API gives the API's own listing and requests |
| Eventbrite.PrependTwice | core/api/scrapers/eventbrite.py:56-80 | putting two groups of records in front one after the other is putting them in front together |
| Eventbrite.ContinuationChain | core/api/scrapers/eventbrite.py:48-53 | each request after the first carries the continuation token of the page before it |
| Eventbrite.FirstRequestHasNoContinuation | core/api/scrapers/eventbrite.py:45-51 | the first request carries no continuation |
| Eventbrite.ListingStopsWithoutToken | core/api/scrapers/eventbrite.py:82-87 | a listing that succeeds ends with a page that gives no way to go on |
| Eventbrite.EventbriteClient.constructor | core/api/scrapers/eventbrite.py:10-17 | a new client has an empty venue cache and has sent nothing |
| Eventbrite.EventbriteClient.Get | core/api/scrapers/eventbrite.py:19-24 | one request is sent and logged; the result is the decoded answer; the cache is untouched |
| Eventbrite.EventbriteClient.GetVenue | core/api/scrapers/eventbrite.py:26-33 | an empty id gives no venue and sends nothing; a cached id is answered from the cache; any other id is fetched once and cached when it decodes |
| Eventbrite.EventbriteClient.NormalizeEvent | core/api/scrapers/eventbrite.py:56-80 | the record of an event, with its venue looked up through the cache, is the one the specification gives |
| Eventbrite.EventbriteClient.FetchOrgEvents | core/api/scrapers/eventbrite.py:35-89 | the listing returned and the page requests sent are those of the specification from no continuation |
| Eventbrite.EventbriteClient.ListingStep | core/api/scrapers/eventbrite.py:47-87 | one pass of the loop sends one page request and is one step of the listing |
| Eventbrite.EventbriteClient.FetchPage | core/api/scrapers/eventbrite.py:53-54 | one page request sent and read as the specification reads it |
| Eventbrite.EventbriteClient.NormalizeEvents | core/api/scrapers/eventbrite.py:56-80 | the records of a page's events, in order, or the first failure |
| TicketSwap.Before | core/api/scrapers/ticketswap.py:60 | the part before the first separator is a prefix of the text without the separator, the whole text when there is none |
| Text.RStripAny | core/api/scrapers/ticketswap.py:60 | stripping trailing slashes leaves a prefix that does not end in a slash, and only slashes were removed |
| Text.LStripAny | core/api/scrapers/ticketswap.py:99 | stripping leading slashes leaves a suffix that does not start with a slash, and only slashes were removed |
| TicketSwap.Replace | core/api/scrapers/ticketswap.py:105 | replacing a character keeps the length and changes exactly that character |
| TicketSwap.UuidHasNoSlash | core/api/scrapers/ticketswap.py:101 | a UUID contains no slash |
| TicketSwap.EventIdFromPath | core/api/scrapers/ticketswap.py:99-105 | the id is a UUID or the stripped path with "/" replaced by "_", and never contains "/" |
| TicketSwap.StripKeepsUuid | core/api/scrapers/ticketswap.py:99-101 | stripping the slashes of a path ending in "/" and a UUID keeps the UUID at its end after a "/" |
| TicketSwap.UuidPathYieldsUuid | core/api/scrapers/ticketswap.py:99-103 | a path ending in "/" and a UUID yields that UUID as the event id |
| TicketSwap.CleanLink | core/api/scrapers/ticketswap.py:59-60 | a cleaned link has no query and does not end in "/" |
| TicketSwap.LinkSetStep | core/api/scrapers/ticketswap.py:56-60 | each anchor adds its cleaned link exactly when its href contains "/event/" |
| TicketSwap.StrictlySortedDistinct | core/api/scrapers/ticketswap.py:61 | a sorted set of links has no repeats |
| TicketSwap.InsertLink | core/api/scrapers/ticketswap.py:61 | inserting a link adds exactly that link |
| TicketSwap.InsertLinkSorted | core/api/scrapers/ticketswap.py:61 | inserting a new link into a sorted list keeps it sorted |
| TicketSwap.SortLinks | core/api/scrapers/ticketswap.py:61 | the sorted links are strictly increasing and exactly the links of the set |
| TicketSwap.ExtractEventLinks | core/api/scrapers/ticketswap.py:53-61 | the links returned are strictly increasing and exactly the cleaned event links of the page |
| TicketSwap.FirstEvent | core/api/scrapers/ticketswap.py:81-91 | the object returned is the first candidate typed Event, and none exactly when no candidate is |
| TicketSwap.ParseJsonLdFirst | core/api/scrapers/ticketswap.py:63-92 | the JSON-LD event is that of the first decodable script that has one, and none exactly when no script has one |
| TicketSwap.GetOr | core/api/scrapers/ticketswap.py:124 | a truthy value is kept, anything else replaced by the fallback |
| TicketSwap.TitleFromTag | core/api/scrapers/ticketswap.py:141-145 | the page title gives a title exactly when it is present and not blank, and the title is never empty |
| TicketSwap.BuildEvent | core/api/scrapers/ticketswap.py:107-160 | an event built carries the id read from its URL, its URL and a non-empty title |
| TicketSwap.BuildEventTitle | core/api/scrapers/ticketswap.py:121-148 | no event exactly when neither the JSON-LD name nor the page title gives a title; the JSON-LD name wins when truthy |
| TicketSwap.BuildEventCountryDefault | core/api/scrapers/ticketswap.py:132-138 | without a location object the country is IT and venue and city are empty |
| TicketSwap.Built | core/api/scrapers/ticketswap.py:172-179 | there are never more events than links |
| TicketSwap.BuiltConcat | core/api/scrapers/ticketswap.py:172-179 | the events of two runs of links are those of each run, one after the other |
| TicketSwap.BuiltAgrees | core/api/scrapers/ticketswap.py:172-179 | the events depend only on what each link gives |
| TicketSwap.UpTo | core/api/scrapers/ticketswap.py:173-174 | the events kept under the limit: a prefix of the built events, as many as the limit allows and none for a limit of zero or less |
| TicketSwap.FetchEvents | core/api/scrapers/ticketswap.py:162-184 | a failing location page raises; otherwise the links are sorted and exactly the page's event links, and the events are those the links give, in link order, cut to the limit |
| TicketSwap.SomeYield | core/api/scrapers/ticketswap.py:175-182 | what each link gives can always be named as a function |
| TicketSwap.FetchPages | core/api/scrapers/ticketswap.py:171-184 | the loop collects the events the links give, in order, stopping at the limit and skipping failed pages |
| TicketSwap.FetchEvent | core/api/scrapers/ticketswap.py:175-182 | one link's event is the one built from its page, carrying that URL and its id |
| TicketSwap.TakeBuilt | core/api/scrapers/ticketswap.py:172-174 | stopping once the limit is reached gives the events cut to the limit |
| ScrubTmNew.BumpIf | core/api/management/commands/scrub_ticketmaster_new.py:223-258 | one counter is bumped exactly when the condition holds, and nothing else |
| ScrubTmNew.AddressLine | core/api/management/commands/scrub_ticketmaster_new.py:190 | reading the venue address line raises exactly when an address is present but not a dictionary |
| ScrubTmNew.LocalDay | core/api/management/commands/scrub_ticketmaster_new.py:282-286 | no placeholder day exactly when the local date is missing or empty; otherwise the date parsed, at midnight |
| ScrubTmNew.PlanPerf | core/api/management/commands/scrub_ticketmaster_new.py:278-293 | a UTC start is used as it is; without one a local date gives a midnight placeholder, an unparsable one fails, and no date means no performance |
| ScrubTmNew.UpsertPerf | core/api/management/commands/scrub_ticketmaster_new.py:295-325 | a new performance is stored with status UNKNOWN and counted; an existing one keeps its status; a placeholder is marked time_tbd; a timed existing one is left as it is |
| ScrubTmNew.MapCounts | core/api/management/commands/scrub_ticketmaster_new.py:248-274 | a mapping counts as created or as unchanged exactly in those cases, and bumps no other counter |
| ScrubTmNew.EventCounts | core/api/management/commands/scrub_ticketmaster_new.py:213-224 | the event counts as created exactly when its canonical hash was not stored yet |
| ScrubTmNew.PerfStep | core/api/management/commands/scrub_ticketmaster_new.py:278-327 | the performance step counts the record processed, adds exactly its performance key, marks placeholders time_tbd, and counts a new performance (and its time_tbd mark) once |
| ScrubTmNew.Read | core/api/management/commands/scrub_ticketmaster_new.py:142-170 | the fields of a record: its id and canonical hash; venue name defaulting to "Sconosciuto", city to "", country to the option; the venue key, event slug seed, address, local day and checksum of the raw record |
| ScrubTmNew.Rows | core/api/management/commands/scrub_ticketmaster_new.py:185-274 | staging a record adds its venue key, stores its event under its hash with the slug chosen, and writes its mapping with the new checksum and scan time, touching no performance |
| ScrubTmNew.ImportCountsOnce | core/api/management/commands/scrub_ticketmaster_new.py:182-331 | each record is counted exactly once, as processed or failed; a failed one leaves the tables as they were |
| ScrubTmNew.ImportFailsWhen | core/api/management/commands/scrub_ticketmaster_new.py:182-331 | a record fails exactly when its address is not a dictionary or its placeholder local date does not parse |
| ScrubTmNew.ImportMapsRecord | core/api/management/commands/scrub_ticketmaster_new.py:211-274 | a committed record has its mapping with the new checksum and scan time, and its event with the slug chosen |
| ScrubTmNew.ImportStagesRows | core/api/management/commands/scrub_ticketmaster_new.py:184-274 | a committed record's venues, events and mappings are the staged rows |
| ScrubTmNew.ImportKeepsSlugsDistinct | core/api/management/commands/scrub_ticketmaster_new.py:71-83 | with the first free slug, importing keeps every event slug distinct |
| ScrubTmNew.PlaceholderPerformance | core/api/management/commands/scrub_ticketmaster_new.py:282-316 | a record with only a local date commits a midnight performance marked time_tbd and counts the placeholder; a new one is UNKNOWN and counted as marked |
| ScrubTmNew.NoDateNoPerformance | core/api/management/commands/scrub_ticketmaster_new.py:289-293 | a record with no date at all still commits its venue and mapping and counts as processed, adding no performance |
| ScrubTmNew.Feb30IsNoDate | core/api/management/commands/scrub_ticketmaster_new.py:284 | "2026-02-30" is not a date |
| ScrubTmNew.RolledBackRecordStillCounted | core/api/management/commands/scrub_ticketmaster_new.py:223-224 | as written, a new event counted inside a block that then rolls back stays counted as created though nothing was kept |
| ScrubTmNew.SecondImportUnchanged | core/api/management/commands/scrub_ticketmaster_new.py:248-274 | importing the same record again creates nothing and counts its mapping unchanged |
| ScrubTmNew.RepeatCounts | core/api/management/commands/scrub_ticketmaster_new.py:223-325 | a record whose event, mapping and performance all exist creates nothing and counts the mapping unchanged |
| ScrubTmNew.ImportOne | core/api/management/commands/scrub_ticketmaster_new.py:182-331 | the slug chosen is the first free one, and the tables and counts after the record are those the specification gives |
| ScrubTmNew.Considered | core/api/management/commands/scrub_ticketmaster_new.py:138-140 | the records considered are a prefix of the stream: all with a limit of 0, else at most the limit |
| ScrubTmNew.DatesParseAll | core/api/management/commands/scrub_ticketmaster_new.py:150-152 | the run survives the dates exactly when every record has no id or a dateTime that is absent, empty or parses |
| ScrubTmNew.NoParseStops | core/api/management/commands/scrub_ticketmaster_new.py:152 | a record with an unparsable dateTime stops the whole run |
| ScrubTmNew.RunSpecAt | core/api/management/commands/scrub_ticketmaster_new.py:142-331 | the loop from the i-th record on is that record's visit, then the rest unless it stopped the run |
| ScrubTmNew.RunStopsAtBadDate | core/api/management/commands/scrub_ticketmaster_new.py:150-152 | a record with an id whose dateTime does not parse stops the run at once, leaving the tables and counters as they were and the records after it unvisited |
| ScrubTmNew.VisitSpecFacts | core/api/management/commands/scrub_ticketmaster_new.py:142-331 | one record stops the run exactly when its dateTime does not parse, and then changes and counts nothing; otherwise it is counted once as processed or failed when it has an id; a dry run writes nothing and fails nothing; slugs that were distinct stay distinct |
| ScrubTmNew.RunSpecFacts | core/api/management/commands/scrub_ticketmaster_new.py:137-349 | the fold stops exactly when some considered record's dateTime does not parse; otherwise every record with an id is counted once as processed or failed; a dry run writes nothing and fails nothing; slugs that were distinct stay distinct |
| ScrubTmNew.Visit | core/api/management/commands/scrub_ticketmaster_new.py:142-331 | the tables, counters and stop of one record are those of the per-record specification: a record without id is skipped; an unparsable dateTime stops the run and changes nothing; a dry run counts it processed and writes nothing; otherwise it is imported with the first free slug; slugs that were distinct stay distinct |
| ScrubTmNew.Run | core/api/management/commands/scrub_ticketmaster_new.py:137-349 | the tables, counters and stop after the loop are the fold of the per-record specification over the records considered (all with limit 0, else the first limit), stopping at the first unparsable dateTime; the run ends normally exactly when every considered dateTime parses, and then each considered record with an id is counted once as processed or failed; a dry run changes nothing; slugs that were distinct stay distinct |
| ScrubTmNew.Handle | core/api/management/commands/scrub_ticketmaster_new.py:85-349 | the tables, counters and stop are the fold of the per-record specification over the records considered, with the country option stripped and upper-cased (default "IT"), and carry the run's guarantees |
| Catalog.OrElse | core/api/management/commands/scrub_ticketmaster_new.py:146-162 | Python's "x or default": a non-empty value is kept, else the default |
| Catalog.Store.constructor | core/api/management/commands/scrub_ticketmaster_new.py:184 | a new store holds the given tables |
| Catalog.Store.Commit | core/api/management/commands/scrub_ticketmaster_new.py:184-327 | committing a block writes exactly the given tables |
| Catalog.VenueKey | core/api/management/commands/scrub_ticketmaster_new.py:164 | the venue key is never empty, and is the slug of venue-city-country when that is not empty |
| Catalog.EventNorm | core/api/management/commands/scrub_ticketmaster_new.py:165 | the normalised event name is never empty |
| Catalog.EventHash | core/api/management/commands/scrub_ticketmaster_new.py:167 | the canonical hash starts with the platform name and a colon |
| Catalog.EventHashInjective | core/api/management/commands/scrub_ticketmaster_new.py:167 | different ids of one platform give different canonical keys |
| Catalog.NewVenue | core/api/management/commands/scrub_ticketmaster_new.py:186-196 | a new venue has the name given, and a city, normalised city and country exactly when they are not empty |
| Catalog.RefreshVenue | core/api/management/commands/scrub_ticketmaster_new.py:198-209 | refreshing replaces name, city and country by the non-empty values given and keeps everything else |
| Catalog.RefreshVenueIdempotent | core/api/management/commands/scrub_ticketmaster_new.py:198-209 | refreshing twice with the same values is refreshing once |
| Catalog.NewVenueIsFresh | core/api/management/commands/scrub_ticketmaster_new.py:186-209 | a venue just created is not changed by the refresh that follows |
| Catalog.RefreshEvent | core/api/management/commands/scrub_ticketmaster_new.py:226-238 | refreshing sets the slug, keeps state and source, and renames only with a non-empty name |
| Catalog.EventChangedIffRefreshDiffers | core/api/management/commands/scrub_ticketmaster_new.py:226-237 | the event is written exactly when the refresh changes it |
| Catalog.OtherSlugs | core/api/management/commands/scrub_ticketmaster_new.py:76-78 | the slugs of the other events are among all slugs, all of them when the event is new |
| Catalog.StoreEventKeepsSlugsDistinct | core/api/management/commands/scrub_ticketmaster_new.py:212-238 | storing an event whose slug no other event has keeps slugs distinct |
| Catalog.SlugFor | core/api/management/commands/scrub_ticketmaster_new.py:71-83 | the slug is the first free candidate among all slugs, or among the other events' slugs when one event is excluded |
| Catalog.UpsertMapping | core/api/management/commands/scrub_ticketmaster_new.py:248-274 | a mapping is created exactly when there was none; it is unchanged exactly when the checksum matches, and then only the scan time moves; otherwise it points at the event with the new snapshot, the URL kept when the new one is empty |
| Catalog.RescanIsUnchanged | core/api/management/commands/scrub_ticketmaster_new.py:260-263 | upserting the same record again leaves the mapping unchanged but for the scan time |
| Slugs.KeepWordSpaceDash | core/api/management/commands/scrub_ticketmaster_new.py:164 | dropping the characters that are not word characters, blanks or dashes never lengthens the text and keeps only those |
| Slugs.DashRuns | core/api/management/commands/scrub_ticketmaster_new.py:164 | collapsing blank and dash runs gives no double dash and no blank |
| Slugs.DjangoSlugify | core/api/management/commands/scrub_ticketmaster_new.py:164-165 | a slug has only lower-case letters, digits, "_" and "-", no double dash, and does not start or end with "-" or "_" |
| Slugs.DjangoSlugifyIdempotent | core/api/management/commands/scrub_ticketmaster_new.py:164-165 | slugifying a slug changes nothing |
| Slugs.SlugBase | core/api/management/commands/scrub_ticketmaster_new.py:72 | the base is never empty and does not start or end with "-": the stripped base, else "evento" |
| Slugs.Candidate | core/api/management/commands/scrub_ticketmaster_new.py:81 | each candidate extends the base by a dash and a number |
| Slugs.CandidateInjective | core/api/management/commands/scrub_ticketmaster_new.py:81 | different numbers give different candidates |
| Slugs.FirstFreeUnique | core/api/management/commands/scrub_ticketmaster_new.py:71-83 | at most one slug is the first free one |
| Slugs.TriesDistinct | core/api/management/commands/scrub_ticketmaster_new.py:80-82 | two different steps try two different slugs |
| Slugs.TriedFresh | core/api/management/commands/scrub_ticketmaster_new.py:80-82 | no slug is tried twice, so the search ends |
| Slugs.UniqueSlug | core/api/management/commands/scrub_ticketmaster_new.py:71-83 | the slug returned is not taken and is the first free one: the base, else base-2, base-3, … |
| Slugs.FirstFree | core/api/management/commands/scrub_ticketmaster_new.py:73-83 | the search returns the first untaken candidate |
| ScrubEventbrite.TextOr | core/api/management/commands/scrub_eventbrite.py:72-79 | a missing or falsy field gives the default, a non-empty text is kept |
| ScrubEventbrite.StartOf | core/api/management/commands/scrub_eventbrite.py:18-21 | a missing or empty start is no start; otherwise the start is the parsed instant or the parse error |
| ScrubEventbrite.Read | core/api/management/commands/scrub_eventbrite.py:71-89 | the fields of a record: its id and canonical hash; venue name defaulting to "Sconosciuto", city and country to ""; the venue key, normalised name, slug seed, URL and checksum of the raw record |
| ScrubEventbrite.VenueWrites | core/api/management/commands/scrub_eventbrite.py:122-134 | the venue is saved exactly when the refresh changes it, and then "aggiornato_il" is written last; each of name, city and country is written exactly when given non-empty and different |
| ScrubEventbrite.EventRow | core/api/management/commands/scrub_eventbrite.py:137-160 | a new event is created planned with the record's slug and name and counted created; an existing one takes the non-empty slug and is counted updated exactly when it changed |
| ScrubEventbrite.Import | core/api/management/commands/scrub_eventbrite.py:108-198 | importing stores the venue and the event, adds exactly the record's mapping with its checksum and scan time, adds exactly its performance when it has a start, and counts a created mapping or event exactly when it was new |
| ScrubEventbrite.UnchangedIsSkipped | core/api/management/commands/scrub_eventbrite.py:103-106 | a record whose checksum is stored only moves its mapping's scan time and is counted skipped |
| ScrubEventbrite.ChangedIsImported | core/api/management/commands/scrub_eventbrite.py:108-198 | a record whose checksum is new is imported: venue, event and mapping stored, mapping pointing at the event with the new snapshot; created counts exactly when new |
| ScrubEventbrite.SecondVisitSkips | core/api/management/commands/scrub_eventbrite.py:103-106 | a record imported once is skipped the second time |
| ScrubEventbrite.SlugsCanCollide | core/api/management/commands/scrub_eventbrite.py:85-87 | two ids sharing their first eight characters get different hashes but the same slug |
| ScrubEventbrite.ChecksumSeesKeyOrder | core/api/management/commands/scrub_eventbrite.py:89 | the checksum of the raw text changes with the order of keys, unlike a canonical checksum |
| ScrubEventbrite.Process | core/api/management/commands/scrub_eventbrite.py:97-198 | the tables and counts after a record are those the specification gives, and the record's mapping holds its checksum |
| ScrubEventbrite.OutcomeMaps | core/api/management/commands/scrub_eventbrite.py:97-198 | whether skipped or imported, a record keeps every mapping and leaves its own mapping holding its checksum |
| ScrubEventbrite.RunSpecAt | core/api/management/commands/scrub_eventbrite.py:70-198 | the loop from the i-th record on is that record's visit, then the rest unless it stopped the command |
| ScrubEventbrite.VisitSpecFacts | core/api/management/commands/scrub_eventbrite.py:70-198 | one record stops the command exactly when its start does not parse, and then changes and counts nothing; a dry run writes and counts nothing; mappings are never removed and a processed record is mapped |
| ScrubEventbrite.RunStopsIff | core/api/management/commands/scrub_eventbrite.py:70-198 | the fold ends normally exactly when every record's start parses |
| ScrubEventbrite.RunDry | core/api/management/commands/scrub_eventbrite.py:91-96 | a dry run writes and counts nothing, whatever the records |
| ScrubEventbrite.RunMaps | core/api/management/commands/scrub_eventbrite.py:97-198 | mappings are never removed, and a run that is neither dry nor stopped maps every record |
| ScrubEventbrite.RunSpecFacts | core/api/management/commands/scrub_eventbrite.py:70-198 | the fold ends normally exactly when every start parses; a dry run changes and counts nothing; mappings only grow, and a complete run maps every record |
| ScrubEventbrite.Visit | core/api/management/commands/scrub_eventbrite.py:70-198 | the tables, counters and stop of one record are those of the per-record specification: an unparsable start stops the command and changes nothing; a dry run writes nothing; otherwise the record is skipped when its checksum is stored, else imported; its mapping then holds the checksum of its raw payload |
| ScrubEventbrite.Run | core/api/management/commands/scrub_eventbrite.py:70-198 | the tables, counters and stop after the loop are the fold of the per-record specification over the records, stopping at the first unparsable start; it ends normally exactly when every start parses, and then every record is mapped; a dry run changes nothing; mappings are never removed |
| ScrubEventbrite.Handle | core/api/management/commands/scrub_eventbrite.py:33-204 | without a token nothing is fetched or changed; a fetch error stops the command unchanged; otherwise the tables, counters and stop are the fold of the per-record specification over the first limit records (Python slice), which ends normally exactly when their starts parse; a dry run changes nothing |
| ScrubPortals.Kept | core/api/management/commands/scrub_portals.py:62-66 | the events kept are a prefix of the stream: all with limit 0, the first limit with a positive limit, and one with a negative limit because the test comes after the append |
| ScrubPortals.Collect | core/api/management/commands/scrub_portals.py:62-66 | the collection loop keeps exactly the events the specification gives |
| ScrubPortals.NegativeLimitKeepsOne | core/api/management/commands/scrub_portals.py:63-66 | a negative limit keeps the first event, where the streaming command keeps none |
| ScrubPortals.IdText | core/api/management/commands/scrub_portals.py:97 | an id present is its own text in the hash |
| ScrubPortals.Read | core/api/management/commands/scrub_portals.py:81-100 | the fields of a record: mapping key and canonical hash from the id text; venue name defaulting to "Sconosciuto", city and country to ""; venue key, normalised name, slug seed, address line and checksum of the raw record |
| ScrubPortals.SameRowsAsStreamingImport | core/api/management/commands/scrub_portals.py:95-100 | a record with an id gets the same hash, mapping key and slug seed as in the streaming command |
| ScrubPortals.WriteMapping | core/api/management/commands/scrub_portals.py:159-181 | a mapping always takes the event, scan time, snapshot and checksum; the URL is kept only when the new one is empty and a mapping existed |
| ScrubPortals.WriteIgnoresChecksum | core/api/management/commands/scrub_portals.py:173-181 | the mapping is rewritten whatever the checksum, so it differs from the checksum-aware upsert when the checksum matches but the event moved |
| ScrubPortals.Rows | core/api/management/commands/scrub_portals.py:108-181 | staging adds or refreshes exactly the record's venue, event (with the slug given) and mapping, and no performance |
| ScrubPortals.ImportRecord | core/api/management/commands/scrub_portals.py:108-198 | a record fails exactly when its address is not a dictionary, leaving the tables as they were; otherwise it stages its rows, counts created events and mappings exactly when new, counts a skipped performance exactly when there is no start, and otherwise adds its ONSALE performance once |
| ScrubPortals.ImportMapsRecord | core/api/management/commands/scrub_portals.py:129-181 | an imported record's mapping points at its event with its checksum and scan time, and the event has the slug chosen |
| ScrubPortals.ImportKeepsSlugsDistinct | core/api/management/commands/scrub_portals.py:29-46 | with the first free slug among the other events, importing keeps every event slug distinct |
| ScrubPortals.NoDateTimeSkipsPerformance | core/api/management/commands/scrub_portals.py:183-189 | a record without dateTime still stores its venue, event and mapping, adds no performance and counts one skipped |
| ScrubPortals.RescanOnlyMovesScanTime | core/api/management/commands/scrub_portals.py:108-198 | importing the same record again creates nothing and only moves its mapping's scan time |
| ScrubPortals.ImportOne | core/api/management/commands/scrub_portals.py:108-198 | the slug chosen is the first free one among the other events, the result is the specification's, and a failure changes nothing |
| ScrubPortals.ImportChecked | core/api/management/commands/scrub_portals.py:108-198 | a record succeeds exactly when its address is usable; slugs that were distinct stay distinct; mappings only grow; a success maps the record and counts a skipped performance exactly when there is no start |
| ScrubPortals.Visit | core/api/management/commands/scrub_portals.py:80-198 | the tables, counters and stop of one record are those of the per-record specification: an unparsable dateTime or an unusable address stops the command and changes nothing; a dry run writes nothing; otherwise it is imported with the first free slug, mapped, and counted a skipped performance exactly when it has no start; slugs that were distinct stay distinct |
| ScrubPortals.RunSpecAt | core/api/management/commands/scrub_portals.py:80-198 | the loop from the i-th event on is that event's visit, then the rest unless it stopped the command |
| ScrubPortals.VisitSpecFacts | core/api/management/commands/scrub_portals.py:80-198 | one record raises exactly when its dateTime does not parse or, outside a dry run, its address is unusable, and then changes nothing; a dry run writes nothing; slugs that were distinct stay distinct; mappings only grow; an imported record is mapped and counts one skipped performance exactly when it has no start |
| ScrubPortals.RecordsOkAll | core/api/management/commands/scrub_portals.py:80-198 | the run goes through exactly when every record goes through |
| ScrubPortals.RecordStops | core/api/management/commands/scrub_portals.py:80-198 | one record that raises stops the run |
| ScrubPortals.MapKeysOfAll | core/api/management/commands/scrub_portals.py:160-162 | every record's mapping key is among the keys of the run |
| ScrubPortals.NoStartCount | core/api/management/commands/scrub_portals.py:184-185 | the skipped performances are at most the records |
| ScrubPortals.RunStopsIff | core/api/management/commands/scrub_portals.py:80-198 | the fold ends normally exactly when every record goes through |
| ScrubPortals.RunDry | core/api/management/commands/scrub_portals.py:102-106 | a dry run writes and counts nothing |
| ScrubPortals.RunSlugs | core/api/management/commands/scrub_portals.py:29-46 | event slugs that were distinct stay distinct over the whole run |
| ScrubPortals.RunKeepsMappings | core/api/management/commands/scrub_portals.py:159-181 | mappings are never removed |
| ScrubPortals.RunMapsAll | core/api/management/commands/scrub_portals.py:159-181 | a run that is neither dry nor stopped maps every event |
| ScrubPortals.RunCountsSkipped | core/api/management/commands/scrub_portals.py:183-188 | a complete run counts one skipped performance per event without a start |
| ScrubPortals.RunFacts | core/api/management/commands/scrub_portals.py:80-198 | the fold ends normally exactly when every record goes through; a dry run changes and counts nothing; slugs that were distinct stay distinct; a complete run maps every event and counts the events without a start as skipped performances |
| ScrubPortals.Run | core/api/management/commands/scrub_portals.py:80-198 | the tables, counters and stop after the loop are the fold of the per-record specification over the events, stopping at the first record that raises; it ends normally exactly when every record goes through, and then every record is mapped and the skipped count is the records without start; a dry run changes nothing; slugs that were distinct stay distinct |
| ScrubPortals.Handle | core/api/management/commands/scrub_portals.py:48-208 | a source other than ticketmaster only warns and changes nothing; otherwise the events fetched are those kept by the limit, and the tables, counters and stop are the fold of the per-record specification over them, ending normally exactly when each goes through |
| SeedMockData.Prepare | core/api/management/commands/seed_mock_data.py:24 | the prepared text is lower case and starts and ends with no white space |
| SeedMockData.DropPunctuation | core/api/management/commands/seed_mock_data.py:25 | dropping punctuation never lengthens the text |
| SeedMockData.DropPunctuationKeeps | core/api/management/commands/seed_mock_data.py:25 | after dropping, only word characters, white space and dashes are left, lower case stays lower case, and a text of those only is unchanged |
| SeedMockData.SqueezeStart | core/api/management/commands/seed_mock_data.py:26 | a white space run at the start becomes the replacement, any other first character is kept |
| SeedMockData.SqueezeLeavesOnlyD | core/api/management/commands/seed_mock_data.py:26 | the only white space left is the replacement |
| SeedMockData.SqueezeLowered | core/api/management/commands/seed_mock_data.py:26 | lower case stays lower case |
| SeedMockData.SqueezeSlugChars | core/api/management/commands/seed_mock_data.py:26 | kept characters stay kept characters or become the replacement |
| SeedMockData.SqueezeKeepsLast | core/api/management/commands/seed_mock_data.py:26 | a text ending in a non-space character keeps it last |
| SeedMockData.SqueezeNoDouble | core/api/management/commands/seed_mock_data.py:32 | with a blank as replacement no two white space characters are left side by side |
| SeedMockData.SqueezeFixed | core/api/management/commands/seed_mock_data.py:26 | a text whose white space is single replacements is left as it is |
| SeedMockData.SqueezeDashesStep | core/api/management/commands/seed_mock_data.py:27 | the first character is kept and the rest squeezed after its dash run |
| SeedMockData.SqueezeDashesNoDouble | core/api/management/commands/seed_mock_data.py:27 | no two dashes are left side by side |
| SeedMockData.SqueezeDashesLowered | core/api/management/commands/seed_mock_data.py:27 | lower case stays lower case |
| SeedMockData.SqueezeDashesWords | core/api/management/commands/seed_mock_data.py:27 | word-or-dash characters stay word-or-dash characters |
| SeedMockData.SqueezeDashesFixed | core/api/management/commands/seed_mock_data.py:27 | a text without double dashes is left as it is |
| SeedMockData.DashedWords | core/api/management/commands/seed_mock_data.py:25-26 | turning the white space of a text of kept characters into dashes leaves only word characters and dashes |
| SeedMockData.DashedShape | core/api/management/commands/seed_mock_data.py:24-27 | the three substitutions give a lower-case text of word characters and single dashes |
| SeedMockData.SlugBodyShape | core/api/management/commands/seed_mock_data.py:23-27 | the slug body is lower case, of word characters and dashes, with no double dash |
| SeedMockData.CutShape | core/api/management/commands/seed_mock_data.py:28 | cutting at 250 keeps those properties |
| SeedMockData.SlugifyShape | core/api/management/commands/seed_mock_data.py:23-28 | a slug is never empty, at most 250 characters, lower case, of word characters and single dashes |
| SeedMockData.Slugify | core/api/management/commands/seed_mock_data.py:23-28 | a slug is never empty and has at most 250 characters |
| SeedMockData.FallbackShape | core/api/management/commands/seed_mock_data.py:28 | the fallback "slug" has the shape of a slug |
| SeedMockData.PrepareOfBare | core/api/management/commands/seed_mock_data.py:24 | a lower-case text without white space at its ends is prepared to itself |
| SeedMockData.DashedFixed | core/api/management/commands/seed_mock_data.py:25-27 | the substitutions leave a text of word characters and single dashes as it is |
| SeedMockData.SlugOfSlug | core/api/management/commands/seed_mock_data.py:23-28 | a text shaped like a slug is its own slug |
| SeedMockData.SlugifyIdempotent | core/api/management/commands/seed_mock_data.py:23-28 | slugifying a slug changes nothing |
| SeedMockData.SpacedShape | core/api/management/commands/seed_mock_data.py:30-33 | squeezing a prepared text with blanks gives a normal text |
| SeedMockData.NormalizeShape | core/api/management/commands/seed_mock_data.py:30-33 | a normalised text is lower case, with single blanks and none at its ends |
| SeedMockData.NormalOfNormal | core/api/management/commands/seed_mock_data.py:30-33 | a normal text is its own normalisation |
| SeedMockData.NormalizeIdempotent | core/api/management/commands/seed_mock_data.py:30-33 | normalising twice is normalising once |
| SeedMockData.PartTexts | core/api/management/commands/seed_mock_data.py:36 | each part gives one text |
| SeedMockData.BarAt | core/api/management/commands/seed_mock_data.py:36 | the first bar is inside the text |
| SeedMockData.BarAtJoin | core/api/management/commands/seed_mock_data.py:36 | joining a bar-free text to another puts the first bar right after it |
| SeedMockData.SplitAtBar | core/api/management/commands/seed_mock_data.py:36 | two bar-free heads joined to the same text are the same pair |
| SeedMockData.JoinInjective | core/api/management/commands/seed_mock_data.py:36 | lists of equal length of bar-free parts joined with bars to the same text are the same list |
| SeedMockData.HashTextSeparates | core/api/management/commands/seed_mock_data.py:35-37 | for bar-free parts, two lists hash the same exactly when their parts agree |
| SeedMockData.BarInPartCollides | core/api/management/commands/seed_mock_data.py:35-37 | a bar inside a part lets two different lists hash the same |
| SeedMockData.CompleteEvent | core/api/management/commands/seed_mock_data.py:142-150 | an existing event takes the hash and the normalised name only where they are empty, and is saved exactly when one was empty |
| SeedMockData.CompleteEventOnce | core/api/management/commands/seed_mock_data.py:142-150 | completing an event twice saves nothing the second time |
| SeedMockData.UpsertListing | core/api/management/commands/seed_mock_data.py:213-227 | the listing always ends with the flag given; an existing one changes only its flag and is saved exactly when the flag differed |
| SeedMockData.ReseedSavesNothing | core/api/management/commands/seed_mock_data.py:213-227 | seeding a listing again with the same flag writes nothing |
| SeedMockData.SeedStore.constructor | core/api/management/commands/seed_mock_data.py:126 | a new store holds the given events and listings |
| SeedMockData.SeedStore.CreateEvent | core/api/management/commands/seed_mock_data.py:122-151 | the event stored under the slug of the name is new with its normalised name and hash, or the existing one completed; listings are untouched |
| SeedMockData.SeedStore.MkListing | core/api/management/commands/seed_mock_data.py:213-227 | the listing stored under its key is the upsert of the one there, and events are untouched |
| ScanTicketmasterPro.CounterOf | core/api/management/commands/scan_ticketmaster_pro.py:195-315 | every outcome bumps one outcome counter, never "processed" |
| ScanTicketmasterPro.GateOf | core/api/management/commands/scan_ticketmaster_pro.py:210-231 | the probe is reached exactly when the monitor has a performance without internal tickets and with a Ticketmaster URL, and then with that URL; otherwise it stops at no performance, internal tickets or no mapping |
| ScanTicketmasterPro.EmailedExactly | core/api/management/commands/scan_ticketmaster_pro.py:205-332 | as written, a mail is recorded exactly when the gate passes, no session is passed, the page is available, no SENT notification has today's key, the user wants mail, it is not a dry run, and one of the allowed attempts delivers |
| ScanTicketmasterPro.SessionKeywordBlocksAlerts | core/api/management/commands/scan_ticketmaster_pro.py:234-242 | as written, passing the session keyword makes every monitor that reaches the probe end as a Ticketmaster error, so no alert is ever sent |
| ScanTicketmasterPro.IntendedProbeDecides | core/api/management/commands/scan_ticketmaster_pro.py:244-273 | with the probe called as intended, a failed page is a Ticketmaster error with a heavy pause exactly on 403 or 429, an unavailable page is skipped, and an available one is deduplicated exactly when today's key was SENT |
| ScanTicketmasterPro.DryRunSendsNothing | core/api/management/commands/scan_ticketmaster_pro.py:299-303 | a dry run neither sends nor fails a mail |
| ScanTicketmasterPro.SentKeyStops | core/api/management/commands/scan_ticketmaster_pro.py:266-273 | a monitor whose key for today was SENT reaches neither the preference check nor the send |
| ScanTicketmasterPro.OneMailPerDay | core/api/management/commands/scan_ticketmaster_pro.py:50-52 | after one mail for a performance and user, no other monitor of the same pair gets a mail that day |
| ScanTicketmasterPro.ProStore.constructor | core/api/management/commands/scan_ticketmaster_pro.py:323 | a new store holds the given notifications and scan times |
| ScanTicketmasterPro.ProcessMonitor | core/api/management/commands/scan_ticketmaster_pro.py:209-335 | the outcome is the specification's; a SENT notification is appended exactly when a mail was delivered; the mapping used has its scan time touched exactly when the probe was reached |
| ScanTicketmasterPro.Notify | core/api/management/commands/scan_ticketmaster_pro.py:247-332 | after the probe, the outcome is the specification's and a notification is appended exactly on a delivered mail |
| ScanTicketmasterPro.EmailedKeyWasFree | core/api/management/commands/scan_ticketmaster_pro.py:266-268 | a mail is recorded only under a key that had no SENT notification |
| ScanTicketmasterPro.Step | core/api/management/commands/scan_ticketmaster_pro.py:205-341 | one monitor leaves the notifications and scan times, and bumps the counter, that the eligibility chain gives for the old notifications: the SENT notification of today's key appended exactly when a mail went out, the mapping's scan time set to now exactly when the probe was reached; at most one SENT under a new key; a dry run or a session sends nothing |
| ScanTicketmasterPro.Handle | core/api/management/commands/scan_ticketmaster_pro.py:140-350 | a negative limit aborts the slice and changes nothing; otherwise the monitors picked are the first limit active paid ones, and the notifications, scan times and counters are the fold of the per-monitor step over them; each is processed once and counted once more; SENT keys stay fresh and distinct; a dry run or a session sends nothing |
| ScanTicketmasterPro.RunSpecAt | core/api/management/commands/scan_ticketmaster_pro.py:205-341 | the loop from the i-th monitor on is that monitor's step, then the rest |
| ScanTicketmasterPro.RunMonitors | core/api/management/commands/scan_ticketmaster_pro.py:205-341 | the notifications, scan times and counters after the loop are the fold of the per-monitor step over the monitors picked |
| ScanTicketmasterPro.RunCounts | core/api/management/commands/scan_ticketmaster_pro.py:205-341 | the fold counts every monitor once as processed and once more |
| ScanTicketmasterPro.RunFresh | core/api/management/commands/scan_ticketmaster_pro.py:266-330 | the fold appends only SENT notifications, each under a key with no SENT before and no two under one key |
| ScanTicketmasterPro.RunQuiet | core/api/management/commands/scan_ticketmaster_pro.py:234-303 | with the session keyword or in a dry run the fold records nothing and fails no mail; with the session keyword it notifies nobody |
| ScanTicketmasterPro.NewKeyKeepsDistinct | core/api/management/commands/scan_ticketmaster_pro.py:266-330 | appending a SENT notification under a new key keeps the keys distinct |
| ScanPaidAlerts.CounterOf | core/api/management/commands/scan_paid_alerts.py:157-278 | every outcome bumps one counter besides "processed", and that counter is "notified" exactly for a dry run, an opted-out user, a sent mail or a mail that raised |
| ScanPaidAlerts.UrlToProbe | core/api/management/commands/scan_paid_alerts.py:170-190 | the probe is reached exactly when the monitor has a performance without internal tickets and with a Ticketmaster URL, and then with that URL |
| ScanPaidAlerts.SessionKeywordAbortsRun | core/api/management/commands/scan_paid_alerts.py:193 | as written, passing the session keyword raises exactly for a monitor that reaches the probe, ending the run; the others stop earlier |
| ScanPaidAlerts.IntendedDecide | core/api/management/commands/scan_paid_alerts.py:193-279 | with the probe called as intended nothing raises; a mail is recorded exactly when the page is available, no notification has today's key, it is not a dry run, the user wants mail and the mail goes out; a heavy pause follows exactly a failed page with 403 or 429 |
| ScanPaidAlerts.NotifiedWithoutMail | core/api/management/commands/scan_paid_alerts.py:254-278 | an available, undeduplicated monitor counts as notified even when the user opted out or the mail raised, and then no mail is recorded |
| ScanPaidAlerts.AnyRecordDedupes | core/api/management/commands/scan_paid_alerts.py:220-227 | any notification with today's key, whatever its status, stops the monitor before the mail |
| ScanPaidAlerts.PaidStore.constructor | core/api/management/commands/scan_paid_alerts.py:266 | a new store holds the given notifications |
| ScanPaidAlerts.ProcessMonitor | core/api/management/commands/scan_paid_alerts.py:166-279 | the outcome or the exception is the specification's, and a SENT notification is appended exactly when the mail went out |
| ScanPaidAlerts.Notify | core/api/management/commands/scan_paid_alerts.py:197-279 | after the probe, the outcome is the specification's and a notification is appended exactly on a mail sent |
| ScanPaidAlerts.NewKeyKeepsFresh | core/api/management/commands/scan_paid_alerts.py:220-273 | appending a SENT notification under a new key keeps the keys distinct |
| ScanPaidAlerts.StepFacts | core/api/management/commands/scan_paid_alerts.py:166-279 | one monitor raises exactly when the probe is reached with the session keyword; otherwise it bumps one counter besides "processed"; it appends nothing or one SENT notification under a key no notification carries; a dry run or a session appends nothing |
| ScanPaidAlerts.StepRaises | core/api/management/commands/scan_paid_alerts.py:193 | one monitor raises exactly when it reaches the probe with the session keyword |
| ScanPaidAlerts.RunSpecAt | core/api/management/commands/scan_paid_alerts.py:166-279 | the run over the monitors from the i-th on is the i-th monitor's step followed by the run over the rest, or stops at it when it raises |
| ScanPaidAlerts.RunAbortsHead | core/api/management/commands/scan_paid_alerts.py:166-279 | the run raises exactly when its first monitor raises or the run over the rest does |
| ScanPaidAlerts.Step | core/api/management/commands/scan_paid_alerts.py:166-279 | the new notifications and the counter or exception are the step specification's for the old notifications |
| ScanPaidAlerts.RunAbortsIff | core/api/management/commands/scan_paid_alerts.py:166-279 | the loop ends with an exception exactly when one of the monitors raises |
| ScanPaidAlerts.RunCounts | core/api/management/commands/scan_paid_alerts.py:166-279 | a run that does not raise counts every monitor once as processed and once more |
| ScanPaidAlerts.RunFresh | core/api/management/commands/scan_paid_alerts.py:166-279 | the run appends only SENT notifications under keys no earlier notification carries, and nothing with the session keyword or in a dry run |
| ScanPaidAlerts.RunMonitors | core/api/management/commands/scan_paid_alerts.py:166-279 | the new notifications, the counters and the exception are the run specification's over the monitors picked |
| ScanPaidAlerts.Handle | core/api/management/commands/scan_paid_alerts.py:110-286 | the monitors picked are the first limit active paid ones; the new notifications, counters and exception are the run specification's over them; the run aborts exactly when one of them raises; otherwise each is counted once as processed and once more; keys stay distinct; a dry run or a session sends nothing; a negative limit raises before anything changes |
| Alerts.HasSentAppend | core/api/management/commands/scan_ticketmaster_pro.py:266-330 | appending a notification adds exactly its key to the keys found, among SENT ones only when it is SENT |
| Alerts.ActiveUntilEnd | core/api/management/commands/scan_paid_alerts.py:31-41 | a subscription is active exactly when its flag is set and it has no end or has not ended, and one active later was active earlier |
| Alerts.PaidRows | core/api/management/commands/scan_paid_alerts.py:127-141 | the rows of the paid query keep their order and all have an active paid subscription that has not ended |
| Alerts.ActiveRows | core/api/management/commands/scan_paid_alerts.py:147-153 | the active rows are at most the rows |
| Alerts.Select | core/api/management/commands/scan_paid_alerts.py:147-153 | a negative limit makes the slice raise; otherwise the monitors picked are those of the selection loop over the first limit*5 rows |
| Alerts.SelectFrom | core/api/management/commands/scan_paid_alerts.py:148-153 | the selection loop appends each active row and stops at the limit, as the specification gives |
| Alerts.SelectedAll | core/api/management/commands/scan_paid_alerts.py:148-153 | a loop that went through the whole window picked what the specification gives |
| Alerts.SelectStep | core/api/management/commands/scan_paid_alerts.py:149-153 | one row of the loop either completes the pick at the limit or keeps the loop invariant |
| Alerts.PicksStep | core/api/management/commands/scan_paid_alerts.py:149-153 | the pick from a row on is that row when active, followed by the pick from the next row unless the limit was reached |
| Alerts.PicksAreFirstActive | core/api/management/commands/scan_paid_alerts.py:148-153 | the loop picks the first active rows of the window, up to the limit |
| Alerts.SelectTakesFirstActive | core/api/management/commands/scan_paid_alerts.py:148-153 | the selection is the first limit active rows among the first limit*5 |
| Alerts.ActiveRowsOfPaid | core/api/management/commands/scan_paid_alerts.py:127-153 | rows that pass the query's filter all pass the active check |
| Alerts.PaidSelectionIsPrefix | core/api/management/commands/scan_paid_alerts.py:127-153 | the monitors selected are the first limit rows of the paid query, the window of limit*5 never being short |
| Alerts.FirstCandidate | core/api/management/commands/scan_paid_alerts.py:52-58 | the row found is a Ticketmaster row whose URL is not "", and there is none exactly when no row is |
| Alerts.FirstCandidateIsEarliest | core/api/management/commands/scan_paid_alerts.py:52-58 | the row found is the earliest matching row |
| Alerts.MappingPrefersPerformance | core/api/management/commands/scan_ticketmaster_pro.py:55-80 | the performance mapping is used exactly when its first row has a URL; otherwise the event mapping's; the URL returned is never empty and belongs to the row named; there is none exactly when neither has one |
| Alerts.DayIso | core/api/management/commands/scan_ticketmaster_pro.py:51 | the ISO day is ten characters |
| Alerts.SplitAfterDigits | core/api/management/commands/scan_ticketmaster_pro.py:52 | two digit runs each followed by a non-digit split the same way |
| Alerts.ConcatAt | core/api/management/commands/scan_ticketmaster_pro.py:52 | two equal concatenations agree at the seam |
| Alerts.NatToStringInjective | core/api/management/commands/scan_ticketmaster_pro.py:52 | different numbers have different texts |
| Alerts.DayIsoInjective | core/api/management/commands/scan_ticketmaster_pro.py:51 | the ISO day determines the date |
| Alerts.DayKeyInjective | core/api/management/commands/scan_ticketmaster_pro.py:50-52 | two dedupe keys of one platform and reason are equal exactly when performance, user and day are |
| Alerts.CancelPrefix | core/api/management/commands/scan_ticketmaster_pro.py:52 | a common prefix cancels |
| Alerts.ResumeAfterFailure | core/api/management/commands/scan_ticketmaster_pro.py:106-120 | a failed call hands the send to the next call with the error kept and the backoff slept |
| Alerts.SendWithRetry | core/api/management/commands/scan_ticketmaster_pro.py:100-121 | the send returns what the retry specification gives: outcome, last error, calls and waits |
| Alerts.SendRunShape | core/api/management/commands/scan_ticketmaster_pro.py:100-121 | the send succeeds exactly when one of the allowed calls delivers; it stops at the first delivery; every earlier call raised; it makes at most the allowed calls; after the k-th failure it sleeps base times k |
| Alerts.AllFailReportsLast | core/api/management/commands/scan_ticketmaster_pro.py:116-121 | when every call fails, the send fails after all calls and reports the last call's error |
| ScanFreeAlerts.ListingCountPositive | core/api/management/commands/scan_free_alerts.py:32-37 | the listing count is positive exactly when some active listing of the event has not expired, and never exceeds the listings |
| ScanFreeAlerts.ResaleCountPositive | core/api/management/commands/scan_free_alerts.py:39-43 | the resale count is positive exactly when some resale of the event is available and published |
| ScanFreeAlerts.AvailabilityMeans | core/api/management/commands/scan_free_alerts.py:147-148 | an event has availability exactly when it has a live listing or an open resale |
| ScanFreeAlerts.FloorDiv | core/api/management/commands/scan_free_alerts.py:53 | Python's floor division: the quotient is the floor of the exact quotient, for either sign of the divisor |
| ScanFreeAlerts.FreeKey | core/api/management/commands/scan_free_alerts.py:48-54 | the key fails exactly when the window is 0 minutes, a division by zero |
| ScanFreeAlerts.BucketIsWindow | core/api/management/commands/scan_free_alerts.py:53 | with N > 0 the bucket of an instant is the N-minute window holding it |
| ScanFreeAlerts.SignChar | core/api/management/commands/scan_free_alerts.py:54 | an integer's text starts with "-" exactly when it is negative |
| ScanFreeAlerts.IntToStringInjective | core/api/management/commands/scan_free_alerts.py:54 | different integers have different texts |
| ScanFreeAlerts.KeyTextInjective | core/api/management/commands/scan_free_alerts.py:54 | two keys of one window length are equal exactly when user, event and bucket are |
| ScanFreeAlerts.SameWindowSameKey | core/api/management/commands/scan_free_alerts.py:48-54 | two instants give the same key for a user and event exactly when they fall in the same window |
| ScanFreeAlerts.NewestMonitor | core/api/management/commands/scan_free_alerts.py:72-79 | the monitor reused is the user's monitor for the event with the largest id, and there is none exactly when the user has no monitor for it |
| ScanFreeAlerts.NewestFreeSub | core/api/management/commands/scan_free_alerts.py:82-90 | the subscription used is the user's active free one that started last, and there is none exactly when the user has no active free subscription |
| ScanFreeAlerts.NextId | core/api/management/commands/scan_free_alerts.py:92 | a new monitor gets an id larger than every existing one |
| ScanFreeAlerts.MonitorForOnce | core/api/management/commands/scan_free_alerts.py:67-92 | there is no monitor exactly when the user has none for the event and no active free subscription; monitors only grow, by one new one only when none existed; asking again returns the same monitor and creates nothing |
| ScanFreeAlerts.CountersOf | core/api/management/commands/scan_free_alerts.py:150-238 | an unavailable event bumps nothing; any other outcome bumps "hits" and exactly one more counter |
| ScanFreeAlerts.RecordOnlyAfterMail | core/api/management/commands/scan_free_alerts.py:190-226 | a notification is recorded exactly when a mail went out, SENT under the follow's key and a key that had none, never in a dry run and never after a mail that raised |
| ScanFreeAlerts.MailedExactly | core/api/management/commands/scan_free_alerts.py:143-228 | a mail is sent exactly when the event has availability, the user wants mail, a monitor exists or is created, the window is not 0, no SENT notification has the key, it is not a dry run and the mail goes out |
| ScanFreeAlerts.OneMailPerWindow | core/api/management/commands/scan_free_alerts.py:190-216 | after a mail, the same user and event get no other mail, dry-run send or failed send in the same window |
| ScanFreeAlerts.FreeStore.constructor | core/api/management/commands/scan_free_alerts.py:92 | a new store holds the given monitors and notifications |
| ScanFreeAlerts.GetOrCreateMonitor | core/api/management/commands/scan_free_alerts.py:67-92 | the monitor returned and the monitors after are the specification's, and the notifications are untouched |
| ScanFreeAlerts.ProcessFollow | core/api/management/commands/scan_free_alerts.py:143-238 | the outcome and the monitors are the specification's, and the notification is appended exactly when there is one |
| ScanFreeAlerts.ExtendsTrans | core/api/management/commands/scan_free_alerts.py:92 | growing the monitors twice grows them |
| ScanFreeAlerts.DecideSummary | core/api/management/commands/scan_free_alerts.py:143-238 | a follow fails only with a 0-minute window; it is unavailable exactly when the event has no availability; monitors only grow; a notification recorded is SENT under a new key; a dry run records none |
| ScanFreeAlerts.StepFacts | core/api/management/commands/scan_free_alerts.py:143-238 | one follow fails only with a 0-minute window; otherwise it bumps "hits" exactly when its event is available, plus one counter; monitors only grow; at most one SENT notification is appended, under a new monitor and key; a dry run appends none |
| ScanFreeAlerts.Step | core/api/management/commands/scan_free_alerts.py:143-238 | the new monitors and notifications and the counters or exception are the step specification's for the old tables |
| ScanFreeAlerts.RunSpecAt | core/api/management/commands/scan_free_alerts.py:143-238 | the run from the i-th follow on is that follow's step followed by the run over the rest, or stops at it when it raises |
| ScanFreeAlerts.RunCounts | core/api/management/commands/scan_free_alerts.py:143-238 | the run ends early only with a 0-minute window; "hits" is half the counters; a run that does not stop counts as hits exactly the follows whose event is available |
| ScanFreeAlerts.RunGrows | core/api/management/commands/scan_free_alerts.py:143-238 | the run only grows the monitors and appends only SENT notifications under new monitor and key pairs, none in a dry run |
| ScanFreeAlerts.FreshSendsAppend | core/api/management/commands/scan_free_alerts.py:192-226 | appending a SENT notification under a new monitor and key keeps them distinct |
| ScanFreeAlerts.RunOnce | core/api/management/commands/scan_free_alerts.py:123-244 | a negative limit aborts the slice and changes nothing; otherwise the new tables, counters and exception are the run specification's over the first limit follows; with a window other than 0 the run ends normally; then "hits" counts the follows whose event is available; monitors only grow; SENT keys stay distinct; a dry run sends nothing |
| ScanFreeAlerts.RunBatch | core/api/management/commands/scan_free_alerts.py:143-238 | the new monitors and notifications, the counters and the exception are the run specification's over the follows selected |
| ScanFreeAlerts.AvailableCountSnoc | core/api/management/commands/scan_free_alerts.py:147-158 | adding a follow adds one hit exactly when its event is available |
| ScanTicketmasterResale.Hex | core/api/management/commands/scan_ticketmaster_resale.py:23-24 | a number is written with exactly the width asked, in lower-case hex digits |
| ScanTicketmasterResale.Pow16 | core/api/management/commands/scan_ticketmaster_resale.py:23-24 | a power of sixteen is positive |
| ScanTicketmasterResale.HexDigitValue | core/api/management/commands/scan_ticketmaster_resale.py:23-24 | each hex digit reads back as its value |
| ScanTicketmasterResale.UnhexHex | core/api/management/commands/scan_ticketmaster_resale.py:23-24 | reading back a number written in hex gives the number, when it fits the width |
| ScanTicketmasterResale.Digest | core/api/management/commands/scan_ticketmaster_resale.py:23-24 | the digest is hex text of fixed length per character |
| ScanTicketmasterResale.DigestInjective | core/api/management/commands/scan_ticketmaster_resale.py:23-24 | equal digests come from equal texts |
| ScanTicketmasterResale.DigestIsBare | core/api/management/commands/scan_ticketmaster_resale.py:172 | a digest has no surrounding white space, so stripping it when read back changes nothing |
| ScanTicketmasterResale.SafeDict | core/api/management/commands/scan_ticketmaster_resale.py:27-28 | a dictionary stays, anything else reads as the empty dictionary |
| ScanTicketmasterResale.Put | core/api/management/commands/scan_ticketmaster_resale.py:186-199 | after setting a key it reads the new value, and every other key reads as before |
| ScanTicketmasterResale.FirstEmail | core/api/management/commands/scan_ticketmaster_resale.py:40-58 | an address is found exactly when some path leads to a text holding "@", and the one returned holds "@" |
| ScanTicketmasterResale.StripKeepsAt | core/api/management/commands/scan_ticketmaster_resale.py:57 | stripping keeps the "@" |
| ScanTicketmasterResale.StripLeftKeeps | core/api/management/commands/scan_ticketmaster_resale.py:57 | stripping the left keeps every non-space character, shifted |
| ScanTicketmasterResale.StripRightKeeps | core/api/management/commands/scan_ticketmaster_resale.py:57 | stripping the right keeps every non-space character in place |
| ScanTicketmasterResale.WalkPath | core/api/management/commands/scan_ticketmaster_resale.py:46-55 | the walk of one path succeeds exactly when every attribute exists and is not None, and ends at the value the specification gives |
| ScanTicketmasterResale.RecipientOf | core/api/management/commands/scan_ticketmaster_resale.py:31-58 | the recipient is the specification's, and holds "@" |
| ScanTicketmasterResale.SubscriptionAddressWins | core/api/management/commands/scan_ticketmaster_resale.py:40-57 | the address of the subscription's user, when it holds "@", is the one used, stripped |
| ScanTicketmasterResale.RecipientExists | core/api/management/commands/scan_ticketmaster_resale.py:31-58 | there is a recipient exactly when one of the four paths leads to a text with "@", and it is never empty |
| ScanTicketmasterResale.MonitorsFor | core/api/management/commands/scan_ticketmaster_resale.py:62-76 | a mapping without event has no monitors; otherwise the monitors are exactly those of the event, directly or through one of its performances |
| ScanTicketmasterResale.SignalText | core/api/management/commands/scan_ticketmaster_resale.py:169 | the text digested is never empty |
| ScanTicketmasterResale.Classify | core/api/management/commands/scan_ticketmaster_resale.py:169-219 | a mapping is skipped exactly when the stored checksum equals the new one; otherwise a dry run only counts it, a save that raises counts an error, and a saved one is found exactly for an available resale |
| ScanTicketmasterResale.ChecksumReadsBack | core/api/management/commands/scan_ticketmaster_resale.py:172-199 | a bare non-empty checksum stored next to any probe entry reads back |
| ScanTicketmasterResale.StoredChecksumReadsBack | core/api/management/commands/scan_ticketmaster_resale.py:172-199 | the next scan reads back the checksum this one stored |
| ScanTicketmasterResale.RescanSkipsIffSameSignals | core/api/management/commands/scan_ticketmaster_resale.py:169-183 | after a save, the next scan is skipped exactly when verdict, resale flag and URL are the same |
| ScanTicketmasterResale.MonitorStep | core/api/management/commands/scan_ticketmaster_resale.py:230-282 | a monitor gets a notification exactly when it has a recipient and no SENT one under its key; it counts as mailed only with mail on and SENT; it is FAILED exactly when mail is on and the send raised |
| ScanTicketmasterResale.NotifyAll | core/api/management/commands/scan_ticketmaster_resale.py:230-282 | the monitor loop only appends to the notifications, one record per notification created |
| ScanTicketmasterResale.NotifyAllShape | core/api/management/commands/scan_ticketmaster_resale.py:230-282 | the monitors' notifications are appended under new keys, one per created count, mails never exceed creations, creations and dedupes never exceed the monitors, and with mail off nothing is mailed |
| ScanTicketmasterResale.NumText | core/api/management/commands/scan_ticketmaster_resale.py:254 | a known price is written as a whole float, ending in ".0"; an unknown one as "None" |
| ScanTicketmasterResale.MessageHeadline | core/api/management/commands/scan_ticketmaster_resale.py:245-255 | the mail body opens with the headline, a blank line and the line "URL: " with the probed URL, and goes on past them |
| ScanTicketmasterResale.ProbeOf | core/api/management/commands/scan_ticketmaster_resale.py:165-169 | the probed URL is the page's final URL when there is a non-empty one, otherwise the mapping's URL |
| ScanTicketmasterResale.FreshRecordsAppend | core/api/management/commands/scan_ticketmaster_resale.py:275-281 | appending a notification under a key without a SENT one keeps the SENT keys fresh |
| ScanTicketmasterResale.FreshRecordsTrans | core/api/management/commands/scan_ticketmaster_resale.py:230-282 | freshness holds across two steps |
| ScanTicketmasterResale.FailedRecordDoesNotDedupe | core/api/management/commands/scan_ticketmaster_resale.py:239 | a FAILED notification does not stop the next attempt: only SENT does |
| ScanTicketmasterResale.SentRecordDedupes | core/api/management/commands/scan_ticketmaster_resale.py:239-243 | with a SENT notification under its key a monitor is never notified again |
| ScanTicketmasterResale.ResaleStore.constructor | core/api/management/commands/scan_ticketmaster_resale.py:114 | a new store holds the given snapshots, scan times and notifications |
| ScanTicketmasterResale.Consider | core/api/management/commands/scan_ticketmaster_resale.py:231-282 | the checks and the send for one monitor give the specification's outcome |
| ScanTicketmasterResale.NotifyMonitors | core/api/management/commands/scan_ticketmaster_resale.py:230-282 | the notifications and counts after the monitors are the specification's, and snapshots and scan times are untouched |
| ScanTicketmasterResale.TallyCounts | core/api/management/commands/scan_ticketmaster_resale.py:298-301 | the monitor counts land in created, emails and deduped, and in no other counter |
| ScanTicketmasterResale.ProbeRow | core/api/management/commands/scan_ticketmaster_resale.py:138-163 | the probe of a mapping is the page check, then the prices when enabled and the id is not blank, merged |
| ScanTicketmasterResale.ProcessRow | core/api/management/commands/scan_ticketmaster_resale.py:134-289 | the probe and the visit are the specification's; the snapshot is rewritten only by a save; the scan time moves on a save or a skip outside dry runs; the notifications are those of the monitors of a found resale |
| ScanTicketmasterResale.Apply | core/api/management/commands/scan_ticketmaster_resale.py:175-286 | the visit is the specification's, and snapshots, scan times and notifications follow it |
| ScanTicketmasterResale.NotifyNone | core/api/management/commands/scan_ticketmaster_resale.py:227-229 | with no monitors nothing is recorded or counted |
| ScanTicketmasterResale.Step | core/api/management/commands/scan_ticketmaster_resale.py:133-296 | the new snapshots, scan times and notifications and the counters are the step specification's for the old tables |
| ScanTicketmasterResale.StepFacts | core/api/management/commands/scan_ticketmaster_resale.py:133-296 | each mapping counts once as updated, skipped or error; found never exceeds updated, mails never exceed notifications; notifications grow by those created under fresh keys; a dry run changes nothing; with mail off nothing is mailed |
| ScanTicketmasterResale.StepCounts | core/api/management/commands/scan_ticketmaster_resale.py:133-296 | one mapping is counted once as updated, skipped or error; found only when updated; mails only for records created, none with no_email |
| ScanTicketmasterResale.StepRecords | core/api/management/commands/scan_ticketmaster_resale.py:230-282 | one mapping appends one notification per creation, each under a key without a SENT record; a dry run changes nothing |
| ScanTicketmasterResale.RunSpecAt | core/api/management/commands/scan_ticketmaster_resale.py:133-296 | the run from the i-th mapping on is that mapping's step followed by the run over the rest |
| ScanTicketmasterResale.ProbesOf | core/api/management/commands/scan_ticketmaster_resale.py:138-169 | there is one probe per mapping scanned |
| ScanTicketmasterResale.ProbesOfAt | core/api/management/commands/scan_ticketmaster_resale.py:138-169 | the i-th probe is the i-th mapping's page check and price fetch, merged |
| ScanTicketmasterResale.RunFacts | core/api/management/commands/scan_ticketmaster_resale.py:133-296 | over a run each mapping counts once as updated, skipped or error; found never exceeds updated, mails never exceed notifications; with mail off nothing is mailed |
| ScanTicketmasterResale.RunRecords | core/api/management/commands/scan_ticketmaster_resale.py:133-296 | over a run the notifications grow by one per notification created, each under a key without a SENT record, after the old ones; a dry run changes nothing |
| ScanTicketmasterResale.RunLength | core/api/management/commands/scan_ticketmaster_resale.py:230-282 | over a run the notifications grow by exactly the notifications created |
| ScanTicketmasterResale.RunFreshRecords | core/api/management/commands/scan_ticketmaster_resale.py:238-281 | over a run every notification added is under a key without an earlier SENT record |
| ScanTicketmasterResale.RunDryKeeps | core/api/management/commands/scan_ticketmaster_resale.py:175-215 | a dry run leaves snapshots, scan times and notifications as they were |
| ScanTicketmasterResale.RunRows | core/api/management/commands/scan_ticketmaster_resale.py:133-296 | the new tables and the counters are the run specification's over the mappings scanned, each probed as its page and price API answer |
| ScanTicketmasterResale.Advance | core/api/management/commands/scan_ticketmaster_resale.py:133-296 | one pass of the loop scans the i-th mapping and keeps the rest of the run equal to what it was |
| ScanTicketmasterResale.RunSpecNext | core/api/management/commands/scan_ticketmaster_resale.py:133-296 | one step of the loop, with its counters joined, leaves what the run will end with unchanged |
| ScanTicketmasterResale.VisitTally | core/api/management/commands/scan_ticketmaster_resale.py:175-296 | the visit and the monitors' counts together count the mapping once |
| ScanTicketmasterResale.TicketmasterOf | core/api/management/commands/scan_ticketmaster_resale.py:109 | the platform found is one named ticketmaster in any case, and there is none exactly when no platform has that name |
| ScanTicketmasterResale.Queue | core/api/management/commands/scan_ticketmaster_resale.py:114-118 | the mappings scanned belong to the platform and have a non-empty URL |
| ScanTicketmasterResale.Handle | core/api/management/commands/scan_ticketmaster_resale.py:95-301 | without the platform the command does nothing; a negative limit aborts the slice and changes nothing; otherwise the first limit mappings are scanned, the new tables and counters are the run specification's over them, each mapping is counted once, and notifications grow only by those created, under fresh keys |
| ScanTicketmasterResale.FailedSendNotRetried | core/api/management/commands/scan_ticketmaster_resale.py:169-183 | after a found resale is saved, a later scan with the same signals is skipped and notifies nobody, even those whose mail failed |
| Views.RoundDivNearestEven | core/api/views.py:748 | quantizing to the cent gives the nearest cent, and on an exact half the even one (the default rounding of `Decimal.quantize`) |
| Views.RoundDivExact | core/api/views.py:653 | quantizing an amount already in whole cents leaves it unchanged |
| Views.ParseInt | core/api/views.py:635 | only a non-empty text can be read as an integer |
| Views.ParseIntRoundTrip | core/api/views.py:635 | `int` reads back every integer that `str` wrote, negative ones included |
| Views.PyInt | core/api/views.py:635 | a missing quantity reads as the default 1; a JSON integer reads as itself; a JSON float is cut toward zero to the whole number next to it (2.7 reads as 2, -2.7 as -2); null, a list or an object is refused as invalid |
| Views.ParseDecimal | core/api/views.py:586 | a decimal read from a text has fewer fraction digits than the text has characters (its value is stated by Views.ParseDecimalValue) |
| Views.ParseUnsigned | core/api/views.py:586 | an unsigned decimal read from a text is non-negative and has fewer fraction digits than the text has characters |
| Views.ParseDecimalValue | core/api/views.py:586 | whole digits, a point and fraction digits read as the number they write: units = whole·10^scale + fraction with scale the number of fraction digits; a leading '+' reads the same and a leading '-' negates the units |
| Views.ParseDecimalSign | core/api/views.py:586 | a body with no sign reads as its unsigned value; a '+' before it keeps that value and a '-' negates its units, keeping the scale |
| Views.DigitsConcat | core/api/views.py:586 | the digits of two texts together are worth the first shifted by the length of the second, plus the second |
| Views.ParseDecimalOfNat | core/api/views.py:586 | a whole number written out reads back as itself with no fraction digits |
| Views.FeeOf | core/api/views.py:583-594 | a missing or null fee is no fee; a JSON integer is that fee; a JSON float is the decimal of equal value that its `repr` writes, with at least one fraction digit; a boolean, list or object is a fee that `Decimal` refuses |
| Views.FloatFee | core/api/views.py:590-592 | `Decimal(str(f))` of a float is a fee of the same value with at least one fraction digit (2.5 is 25/10, 3.0 is 30/10) |
| Views.FloatTextReadsBack | core/api/views.py:590-592 | the text `str` writes for a float reads back under `Decimal` as exactly that decimal, a whole float gaining one zero fraction digit |
| Views.PointedDigits | core/api/views.py:590-592 | digits with a point before the last k of them, with or without a leading '-', read back as the number they write with scale k |
| Views.ListingCheck | core/api/views.py:645-649 | the locked listing passes exactly when it is active and holds at least the quantity asked |
| Views.Reserve | core/api/views.py:663-670 | the quantity drops by exactly the amount ordered; a listing left at zero takes the closing status, any other keeps its status; id, seller, price and currency are kept |
| Views.CreatedOrderIsChecked | core/api/views.py:632-676 | an order is created only for an existing active listing holding the quantity, which is at least 1 and the one read from the request; it carries the listing's price and currency, the buyer, and total = unit price × quantity |
| Views.RefusalCauses | core/api/views.py:634-649 | an unreadable quantity, a quantity below 1, a missing listing and a quantity above the stock each give their own refusal, checked in that order |
| Views.Market.constructor | core/api/views.py:615-622 | a new market holds the given listings and orders |
| Views.Market.CreateOrder | core/api/views.py:632-676 | a created order never asks for more than the listing held; the listing is reserved (sold at zero) and the order appended; a refusal changes nothing |
| Views.Market.StartCheckout | core/api/views.py:731-768 | a started checkout reserves the quantity on the listing (status RESERVED at zero) and appends the pending order; a refusal changes nothing |
| Views.OrdersNeverOversell | core/api/views.py:632-676 | over any sequence of orders on one listing, the quantities granted plus what is left equal the starting stock, and the listing is SOLD exactly when nothing is left |
| Views.CheckoutAmounts | core/api/views.py:740-756 | subtotal = unit price × quantity; the commission is the exact percentage plus flat fee rounded once, half to even, to the cent; total = subtotal + commission; the order's total price is the subtotal |
| Views.CheckoutStartsIffAvailable | core/api/views.py:731-738 | checkout starts exactly when the listing exists, is active and holds the quantity |
| Views.CheckoutReservesLikeOrder | core/api/views.py:663-670 | checkout and order creation take the same quantity off the listing; an order empties the listing into SOLD, a checkout into RESERVED |
| Views.PreviewOf | core/api/views.py:559-596 | a breakdown is given only for an active listing, a quantity from 1 to the stock, at the listing's unit price |
| Views.PreviewIgnoresInvalidFee | core/api/views.py:583-594 | a fee that `Decimal` refuses is skipped, as if no fee had been sent |
| Views.PreviewTermsNearest | core/api/views.py:586-592 | each fee term of the preview is rounded on its own to the nearest cent; a flat fee already in cents is kept |
| Views.PreviewRefusesLikeOrder | core/api/views.py:566-578 | the preview refuses exactly when ordering the same quantity of the same listing would, for the same reason |
| Views.PreviewAndCheckoutDiffer | core/api/views.py:579-596 | rounding each fee term on its own (preview) and rounding their sum once (checkout) can differ by a cent: 0.5% of 1.00 plus 0.01 gives 0.01 in the preview and 0.02 at checkout |
| Views.ReadOnlyUnlessStaff | core/api/views.py:72-77 | a non-staff requester may use exactly GET, HEAD and OPTIONS; staff may use every method |
| Views.SelfOrStaffOnly | core/api/views.py:80-83 | an anonymous requester never passes; a non-staff member passes exactly for their own user |
| Views.DeniedSummaryCrashes | core/api/views.py:788-796 | an anonymous request without an e-mail for an existing order ends in an AttributeError, not a 403 |
| Views.SummaryVisibleIff | core/api/views.py:788-796 | the summary is shown exactly when the order exists and the requester is staff, its buyer, or gives the buyer's e-mail; it is refused with 403 exactly when the order exists and none of those holds; outside the refusal, the code as written agrees |
| Views.SummaryAsWritten | core/api/views.py:788-796 | as written, the summary is granted exactly when the order exists and the requester may see it, fails with AttributeError exactly when the order exists and the requester may not, and is never a 403 |
| Views.SummaryEmailIgnoresCase | core/api/views.py:794-795 | the e-mail match ignores letter case |
| Serializers.NormalizeEmail | core/api/serializers.py:85 | the normalised e-mail is lower case and no longer than the input |
| Serializers.NormalizeIdempotent | core/api/serializers.py:85 | normalising a normalised e-mail changes nothing |
| Serializers.RegistrationAcceptedIff | core/api/serializers.py:80-89 | registration passes exactly when terms and privacy are accepted and the normalised e-mail is not registered yet; the e-mail kept is normalised |
| Serializers.SecondRegistrationRefused | core/api/serializers.py:85-87 | once an e-mail is registered, any spelling that normalises to it is refused with "email already registered" |
| Serializers.MonitorNeedsTarget | core/api/serializers.py:263-268 | a new monitor passes exactly when it names an event or a performance; an update may inherit either from the stored monitor |
| Serializers.ReviewAcceptedIff | core/api/serializers.py:315-338 | a review passes exactly when the rating, if given, is 1..5 and a given order belongs to the buyer (given, else stored, else the signed-in user) and to the given seller; the buyer given is kept, and with none given or stored the signed-in user is filled in |
| Serializers.OrderCheckAccepted | core/api/serializers.py:392-406 | an accepted order has quantity at least 1 (default 1), a positive unit price, total = unit price × quantity, a quantity within the listing's, and currency EUR when neither a currency nor a listing is given |
| Serializers.CheckoutAcceptedIff | core/api/serializers.py:482-496 | `validate` accepts the cleaned values exactly when the listing is active and holds the quantity, terms and privacy are accepted, and a password is given whenever an account is to be created |
| Serializers.TextErrors | core/api/serializers.py:468-475 | a text field reports at most one error, under its own name, and none exactly when it is present or optional, not blank unless blanks are allowed, within its length and valid after stripping |
| Serializers.FieldErrors | core/api/serializers.py:465-480 | the field checks report no error exactly when the listing exists, the quantity is at least 1, the e-mail and both names are given and not blank, the names fit 100 characters and the phone 20, a given password is not blank, both consents are given, and each given fee is not null and its text is a number with at most two decimal places and at most 5 (percentage) or 10 (flat) digits in all |
| Serializers.CheckoutStart | core/api/serializers.py:465-496 | a refused checkout request always carries at least one error |
| Serializers.CheckoutStartAcceptedIff | core/api/serializers.py:465-496 | a checkout request is accepted exactly when every field check passes (fees included), the listing is active and holds the quantity, both consents are true, and a password is given whenever an account is to be made |
| Serializers.BlankPasswordRefused | core/api/serializers.py:475 | a blank password is refused by its field check even when no account is to be made |
| Serializers.PrecisionErrors | core/api/serializers.py:479-480 | a decimal's precision check reports at most one error, under the field's name, and none exactly when the digits in all, after the point and before it fit the field |
| Serializers.DecimalTextErrors | core/api/serializers.py:479-480 | a decimal text reports at most one error, under the field's name, and none exactly when it has at most 1000 characters, `Decimal` reads it and the value fits the field's precision |
| Serializers.DecimalErrors | core/api/serializers.py:479-480 | an optional decimal field reports at most one error, under its name, and none exactly when it is absent, or not null and its stripped text is accepted |
| Serializers.BadFeeRefused | core/api/serializers.py:479 | a percentage fee "abc" refuses the checkout with "A valid number is required.", and "1.234" with "Ensure that there are no more than 2 decimal places." |
| Serializers.NotANumberRefused | core/api/serializers.py:479 | the fee text "abc" reports exactly "A valid number is required." |
| Serializers.ThreePlacesRefused | core/api/serializers.py:479 | the fee text "1.234" reports exactly that two decimal places is the most |
| Serializers.FloatFlatFeeAccepted | core/api/serializers.py:480 | a flat fee posted as the JSON float 2.5 passes its field check |
| Serializers.LongNameRefused | core/api/serializers.py:470-471 | a first or last name longer than 100 characters is refused |
| Serializers.ValidCheckoutStarts | core/api/serializers.py:482-496 | every request the checkout validator accepts, on the same listing state, starts a checkout |
| Serializers.RFind | core/api/serializers.py:363 | the index of the last occurrence of the character, or -1 when there is none |
| Serializers.SplitExt | core/api/serializers.py:363 | the extension is empty or a suffix of the name starting with its only "." |
| Serializers.TicketFileAcceptedByUpload | core/api/serializers.py:359-366 | every file the ticket upload accepts (at most 2 MB, extension ".pdf" in any case) the PDF upload accepts as well |
| Serializers.UploadRulesDiffer | core/api/serializers.py:740-746 | the two uploads disagree: a file named ".pdf" is refused by one and accepted by the other, and an oversized text file is refused for its size by one and for its type by the other |
| Serializers.ExpiryFallbacks | core/api/serializers.py:639-653 | the expiry is the subscription's own expiry, else its end date, else its start plus 30 days per plan month (30 days with no plan), and none without a start or without a subscription |
| Serializers.OneMonthPlanIsDefault | core/api/serializers.py:646-653 | a one-month plan expires when the 30-day default would |
| Serializers.StatusMovesForward | core/api/serializers.py:668-682 | as time passes a closed monitor stays closed and an expired one becomes at most closed |
| Serializers.StatusNamesDistinct | core/api/serializers.py:668-691 | each status has its own name and label; a monitor is active exactly when it has sent an alert and neither the event nor the subscription is past |
| Serializers.ProItemOf | core/api/serializers.py:603-710 | the item's expiry and activation come from the subscription, its status and label from the status rule applied to its event date, and its title is never empty |
| Serializers.ProItemSources | core/api/serializers.py:604-703 | the event id is the monitor's event when it has one; the event date is the performance's start when it has one; a monitor with neither has no event id and no date |
| Serializers.ChangeNameRule | core/api/serializers.py:945-973 | an unreadable or missing start falls back to the delivery method (PDF or E_TICKET); with a known start, a name change required later was required earlier too |
| Serializers.SoldCount | core/api/serializers.py:939-940 | the sold count never exceeds the number of sub-items |
| Serializers.AllSoldCount | core/api/serializers.py:939-940 | when every sub-item is sold the count is the number of sub-items |
| Serializers.FullySoldCases | core/api/serializers.py:942-943 | a listing with no quantity is fully sold; so is one whose sub-items are all sold and at least as many as the quantity |
| Serializers.MarkCheckCases | core/api/serializers.py:980-990 | anyone but staff or the seller is refused "not allowed"; staff marking one sub-item of the listing passes; the same id twice fails the count check |
| Serializers.MatchingOne | core/api/serializers.py:986-988 | without repeated rows, ids naming one sub-item match one row when it belongs to the listing and none otherwise |
| Serializers.MarkAll | core/api/serializers.py:996-1002 | marking never adds or removes a sub-item |
| Serializers.MarkAllEffect | core/api/serializers.py:996-1002 | after marking, a sub-item is sold exactly when it was sold before or was asked for |
| Serializers.FlipsCountUnsold | core/api/serializers.py:996-1002 | the count returned is the number of distinct asked sub-items that were unsold |
| Serializers.MarkAgainFlipsNone | core/api/serializers.py:992-1006 | marking the same sub-items again flips none and changes nothing |
| Serializers.MarkSoldSummary | core/api/serializers.py:992-1006 | the count returned is at most the number of ids asked, and 0 when all of them were already sold |
| Serializers.Inventory.constructor | core/api/serializers.py:976-1006 | a new inventory holds the given sold flags, sale times and listing status |
| Serializers.Inventory.MarkSold | core/api/serializers.py:992-1006 | every asked unsold sub-item becomes sold, stamped now, and is counted once; other sale times are kept; the listing turns SOLD when the sold sub-items reach its quantity, else keeps its status |
| Models.NormalizeEmail | core/api/models.py:16 | an address without "@" (after stripping) is returned as given; otherwise the result keeps an "@" and the stripped length, with only the part after the last "@" lower-cased |
| Models.NormalizeSplits | core/api/models.py:16 | the normalised address is the stripped local part, "@", and the lower-cased domain after the last "@" |
| Models.NormalizeEmailIdempotent | core/api/models.py:16 | normalising an already normalised address changes nothing |
| Models.NormalizeSplitFixed | core/api/models.py:16 | with an "@" present, the normalised address is its own normalisation |
| Models.NormalizedIsFixed | core/api/models.py:16 | an address whose domain is lower case and has no surrounding blanks is already normal |
| Models.CreateUser | core/api/models.py:13-20 | creation fails with "Email obbligatoria" exactly when the e-mail is missing or empty; otherwise the user gets the normalised e-mail, the given password and the staff/superuser flags passed in |
| Models.CreateSuperuser | core/api/models.py:22-25 | fails exactly when `create_user` would; staff and superuser default to true and stay true unless passed false |
| Models.OtpExpiresOnce | core/api/models.py:75-82 | a code accepted at some time was accepted at every earlier time |
| Models.OtpBoundary | core/api/models.py:75-82 | the stored code is accepted up to ten minutes after creation inclusive and refused one microsecond later; any other code is never accepted |
| Models.UserProfile.constructor | core/api/models.py:27 | a new profile has no code and no creation time |
| Models.UserProfile.GenerateOtp | core/api/models.py:68-73 | stores and returns the drawn number as six decimal digits, stamped with now; the new code is valid at exactly the times up to ten minutes later |
| Models.SixDigits | core/api/models.py:70 | a number from 100000 to 999999 is written with six digits |
| Models.Basename | core/api/models.py:268 | the base name is a suffix of the path with no "/"; a path without "/" is its own base name |
| Models.SafeName | core/api/models.py:269 | the sanitised name has the same length, keeps every letter, digit, ".", "_" and "-" in place and puts "_" for every other character |
| Models.SafeNameIdempotent | core/api/models.py:269 | sanitising a sanitised name changes nothing |
| Models.SavedFieldsIdempotent | core/api/models.py:266-272 | saving a second time leaves the name and validity flag as the first save left them |
| Models.Biglietto.constructor | core/api/models.py:257-264 | a new ticket has no file name, the given upload path and is not valid |
| Models.Biglietto.Save | core/api/models.py:266-272 | the upload path is kept; a missing or empty name, with an upload path present, is filled with the sanitised base name of that path and the ticket is marked not valid; otherwise nothing changes |
| Models.BigliettoPath | core/api/models.py:254-255 | the storage path starts "uploads/" and ends with the file name |
| Models.BigliettoPathRoundTrip | core/api/models.py:254-255 | the year and month read back from the path are those of the upload time, and the base name of the path is the file name |
| Tasks.NamesAsWritten | core/api/tasks.py:76-80 | every name listed, as the loop is written, is non-empty and at most 120 characters |
| Tasks.CollectNamesAsWritten | core/api/tasks.py:76-80 | the loop over the name matches collects what the function for the code as written gives |
| Tasks.AsWrittenIsIntendedForShortNames | core/api/tasks.py:76-80 | when no stripped match is longer than 120 characters, the loop as written lists exactly the names the intended test lists |
| Tasks.LongNameListedTwice | core/api/tasks.py:78-80 | as written, a name longer than 120 characters found twice is listed twice: the membership test compares the uncut name with the cut ones |
| Tasks.Names | core/api/tasks.py:76-80 | the names listed have no repeats, and each is non-empty and at most 120 characters |
| Tasks.NamesListMatches | core/api/tasks.py:76-80 | every non-blank match is listed, stripped and cut to 120 characters |
| Tasks.NamesGrow | core/api/tasks.py:76-80 | one more match keeps every name already listed and lists its own |
| Tasks.NamesFromMatches | core/api/tasks.py:76-80 | every name listed is the stripped, cut form of some match |
| Tasks.NamesOnlyAdd | core/api/tasks.py:76-80 | one more match adds at most its own cut form |
| Tasks.PriceCents | core/api/tasks.py:82-89 | a price is read only from 1 to 4 digits, a separator and 2 digits |
| Tasks.PriceRoundTrip | core/api/tasks.py:82-89 | every amount below 10000 euros, written with a point and two cent digits, reads back as the same number of cents |
| Tasks.PriceOfParts | core/api/tasks.py:82-89 | euro digits, a point and two cent digits read as 100 × euros + cents |
| Tasks.CommaIsPoint | core/api/tasks.py:85 | a comma and a point before the cents read the same |
| Tasks.Prices | core/api/tasks.py:83-89 | there are never more prices than price matches; every price is that of some match, and every match that reads as a price gives one |
| Tasks.PricesConcat | core/api/tasks.py:83-89 | the prices of two runs of matches are those of the first followed by those of the second, so prices keep the matches' order |
| Tasks.PricesOne | core/api/tasks.py:83-89 | one match gives its price, or nothing when it does not read as one |
| Tasks.Extracted | core/api/tasks.py:94 | the names returned are the first ten of the names as the loop is written, the prices the first ten of the prices read |
| Tasks.ExtractedIntended | core/api/tasks.py:94 | with the intended membership test the names returned are the first ten of the intended names and have no repeats; the prices are those returned as written |
| Tasks.ExtractedShape | core/api/tasks.py:143-144 | the names stored are null or 1 to 10 non-empty names of at most 120 characters, distinct whenever no match is longer than 120 characters; the prices stored are null or 1 to 10 prices |
| Tasks.PageCodes | core/api/tasks.py:112-118 | each code kept is on its page and has non-empty data and a type ("CODE" when the decoder gives none) |
| Tasks.FirstReadIsFirst | core/api/tasks.py:110-119 | the symbols used for a page are those of the first rotation, in the order 0, 90, 180, 270, at which the decoder found any |
| Tasks.FirstRotationWins | core/api/tasks.py:110-119 | when the unrotated page decodes to something, the other rotations are not tried |
| Tasks.ScanPages | core/api/tasks.py:106-121 | every code found is on a page from 1 to the page count and has non-empty data |
| Tasks.ScanCodes | core/api/tasks.py:97-123 | the codes returned are those of the pages scanned in order, none without the rendering libraries |
| Tasks.RaisedStaysRaised | core/api/tasks.py:106-121 | once the decoder raises, later pages add nothing: the codes found so far are returned |
| Tasks.AddCodeGrows | core/api/tasks.py:155-169 | one get-or-create keeps every existing sub-item and counts only the ones it creates for this ticket |
| Tasks.AddCodeKeeps | core/api/tasks.py:155-169 | one get-or-create keeps every key and leaves a sub-item under the hash of the stripped code |
| Tasks.AddCodesEffect | core/api/tasks.py:155-169 | the loop keeps every existing sub-item unchanged, and the created count is the number of new sub-items of this ticket |
| Tasks.AddCodesCovers | core/api/tasks.py:155-169 | after the loop every code has a sub-item under the hash of its stripped text |
| Tasks.AddCodesLoop | core/api/tasks.py:155-169 | the loop computes the fold of get-or-create over the codes |
| Tasks.ParsedEffect | core/api/tasks.py:155-185 | parsing keeps every existing sub-item, covers every code, adds the fallback sub-item when no code created one, and leaves the ticket at least one sub-item whenever anything was created |
| Tasks.ParseFailureRecorded | core/api/tasks.py:201-205 | an unreadable file or a fault marks the upload ERROR with the error text cut to 500 characters, changes nothing else, and re-raises |
| Tasks.ParseStep | core/api/tasks.py:126-205 | the task completes exactly when the file is readable and nothing raises; the seal code is never changed |
| Tasks.ParseSuccessRecorded | core/api/tasks.py:130-185 | a readable file completes; the file hash is set only when missing; names and prices are stored, null when empty; old sub-items are kept and every code has one |
| Tasks.ParseCounts | core/api/tasks.py:188-199 | the ticket's count, the found and selectable counts are the number of its sub-items; it is valid and the upload READY exactly when that is positive, else ERROR with "Nessun biglietto identificato" |
| Tasks.FirstParseReady | core/api/tasks.py:171-199 | a parse of a readable file whose fallback sub-item key (hash of the file hash and "_0") is not taken yet always leaves the upload READY; this includes a first parse on a ticket with no sub-items |
| Tasks.UploadJob.constructor | core/api/tasks.py:128-129 | a new job holds the ticket, its hash, seal code, sub-items and upload status, with nothing extracted yet |
| Tasks.UploadJob.Store | core/api/tasks.py:191-199 | the stored ticket and upload fields are exactly the given state |
| Tasks.UploadJob.Parse | core/api/tasks.py:126-205 | the ticket and upload are left in the state the parsing step gives from the old state, and the parse ends as that step says |
| Validators.DateProblemOf | core/api/validators.py:53-68 | no problem exactly when the dates are consistent; "no dates" exactly when both are missing; a creation date in the future is reported before any other test; a modification before the creation is reported only for dates not in the future |
| Validators.DateCheck | core/api/validators.py:53-68 | the dates pass exactly when they are consistent; a failure carries the file kind followed by the message of the first test that fails; nothing raises |
| Validators.AcceptedDatesInOrder | core/api/validators.py:53-68 | accepted creation and modification dates are in time order, and neither is later than now |
| Validators.ParsePdfDate | core/api/validators.py:71-80 | a missing or empty value reads as no date; a date read comes from a value starting "D:" and fourteen digits, and is a valid calendar value |
| Validators.PdfDigits | core/api/validators.py:78 | `%Y%m%d%H%M%S` writes fourteen characters |
| Validators.PdfDateRoundTrip | core/api/validators.py:71-80 | "D:" followed by the fourteen digits of a valid date, with anything after them, reads back as that date |
| Validators.ShortPdfDateIsNone | core/api/validators.py:75-77 | a value too short for "D:" and fourteen digits reads as no date |
| Validators.NumField | core/api/validators.py:106 | a `strptime` number field is one or two digits not followed by another digit, with a value inside the range its pattern admits |
| Validators.DayField | core/api/validators.py:106 | a `%d` field is one or two digits, or a space and a digit, with a value from 1 to 31 |
| Validators.SpaceEnd | core/api/validators.py:106 | the format's space consumes exactly the run of white space that follows |
| Validators.StrptimeExif | core/api/validators.py:106 | a text `strptime` reads has month 1..12, day 1..31, hour below 24, minute below 60 and second at most 61 |
| Validators.TimeFrom | core/api/validators.py:106 | the time part keeps the date read before it and reads an hour, minute and second within their patterns |
| Validators.ParseExifData | core/api/validators.py:100-109 | a missing or empty value, or one that is not 19 characters long or has no ":", reads as no date; a date read is what `strptime` reads and a valid calendar value |
| Validators.ShortFieldsRead | core/api/validators.py:106 | one-digit fields and a run of spaces are accepted: "2024:1:5    9:07:03" reads as 5 January 2024, 09:07:03 |
| Validators.ExifText | core/api/validators.py:106 | the EXIF date layout has 19 characters |
| Validators.ExifRoundTrip | core/api/validators.py:100-109 | the EXIF text of a valid date reads back as that date |
| Validators.FirstConfident | core/api/validators.py:30-32 | no type is found exactly when no guess has a non-empty type with confidence strictly between 0.85 and 1.00 |
| Validators.FirstConfidentIsFirst | core/api/validators.py:30-32 | the type found is that of a confident guess with no confident guess before it |
| Validators.FindMime | core/api/validators.py:20-34 | the loop returns the type of the first confident guess, and nothing when there is none |
| Validators.AllowedKind | core/api/validators.py:13-18 | exactly the four allowed MIME types have a kind; the kind is "PDF" exactly for "application/pdf" and "Image" for the rest |
| Validators.FileType | core/api/validators.py:36-41 | a kind comes back exactly for an allowed type; otherwise the refusal names the type after "Formato file non ammesso : ", `None` included |
| Validators.PdfValidation | core/api/validators.py:82-96 | a reader error is refused with its message; a readable PDF is accepted exactly when its XMP creation and modification dates are consistent; nothing raises |
| Validators.LastDate | core/api/validators.py:120-128 | with no entry carrying one of the tags, no date is found |
| Validators.LastDateFrom | core/api/validators.py:123-128 | a date found is the one parsed from an entry with one of the tags, after which no entry carries such a tag |
| Validators.LastDateAt | core/api/validators.py:123-128 | the date is the one parsed from the last entry with one of the tags, even when it does not parse |
| Validators.ScanExif | core/api/validators.py:120-128 | the loop ends with the creation date of the last "DateTimeOriginal" entry and the modification date of the last "DateTime" or "DateTimeDigitized" entry |
| Validators.ImageVerdict | core/api/validators.py:111-137 | a reader error and an image without EXIF are refused with their messages; an image is accepted exactly when it has EXIF entries whose dates are consistent; nothing raises |
| Validators.ImageValidation | core/api/validators.py:111-137 | the method decides what `ImageVerdict` decides |
| Validators.ValidationProcess | core/api/validators.py:43-51 | the method decides what `Outcome` decides: a failure inside puremagic, then the file type, then the checks of that kind |
| Validators.OutcomeAccepts | core/api/validators.py:43-51 | a file is accepted exactly when its first confident type is allowed and the dates of that kind are consistent; the last "File non ammesso" branch is never taken and nothing raises |
| Validators.Outcome | core/api/validators.py:43-51 | a failure inside puremagic is refused as "File non accettato"; an accepted file has a confident type guess; no exception escapes |
| Validation.DateCheck | core/api/validation.py:7-16 | the dates pass exactly when they are consistent (at least one present, none in the future, modification not before creation); a failure carries this module's message for the first test that fails; nothing raises |
| Validation.DateChecksAgree | core/api/validation.py:7-16 | this check and the one of `validators.py` accept the same dates and fail on the same first test, each with its own message |
| Validation.ParsePdfDate | core/api/validation.py:18-25 | a missing or empty value reads as no date; a date read is a valid calendar value; the only error is the `ValueError` of `strptime` |
| Validation.ParsersAgree | core/api/validation.py:18-25 | where this parser returns, it returns what the parser of `validators.py` returns; it raises exactly where that one swallows an invalid calendar value and gives `None` |
| Validation.PdfValidation | core/api/validation.py:27-38 | a reader error is refused with its message after "Errore nella validazione della data del file: "; a date that is no calendar value escapes as `ValueError`; otherwise the date check decides |
| Validation.PdfValidationVersusValidators | core/api/validation.py:27-38 | a document whose dates parse is accepted here exactly when `validators.py` accepts it |
| FileValidators.FileType | core/api/file_validators.py:10-28 | a MIME type is accepted exactly when it is one of the four allowed ones, giving its kind; any other is refused with "Formato file non ammesso" |
| FileValidators.ControlloData | core/api/file_validators.py:40-42 | as written, the check raises a `TypeError` for every input and never accepts |
| FileValidators.ControlloDataIntended | core/api/file_validators.py:40-52 | with `creato is None`, the check accepts exactly when the dates are consistent and never raises |
| FileValidators.ValidazionePdf | core/api/file_validators.py:66-80 | a reader error is refused with its message after "Errore durante la lettura del PDF: "; a readable PDF reaches the date check, whose `TypeError` is not caught |
| FileValidators.ValidazioneImage | core/api/file_validators.py:95-121 | a reader error and an image without EXIF are refused with their messages; with EXIF entries the date check's `TypeError` becomes "Errore nei metadati EXIF: " plus its text |
| FileValidators.ValidationProcess | core/api/file_validators.py:30-38 | "application/pdf" is checked as a PDF, any "image/" type as an image, anything else is refused with "File non ammesso"; no file is ever accepted |
| FileValidators.IntendedPdfCheck | core/api/file_validators.py:40-77 | a readable PDF makes the check as written raise, while the intended check gives what the PDF validation of `validation.py` gives |
| FileValidators.ConsistentPdfStillRaises | core/api/file_validators.py:40-52 | a PDF whose creation and modification dates are in order and in the past passes the intended check and makes the check as written raise |
| Filters.DayToken | core/api/filters.py:14 | a day field that `%d` reads is between 1 and 31 |
| Filters.MonthToken | core/api/filters.py:14 | a month field that `%m` reads is between 1 and 12 |
| Filters.ParseDmy | core/api/filters.py:14 | a date read in the "gg/mm/aaaa" form is a valid calendar date at midnight |
| Filters.ParseDate | core/api/filters.py:16 | Django's `parse_date` reads only texts of 8 to 10 characters; a date it reads is valid; a well-formed text naming no calendar day raises `ValueError` |
| Filters.ParseDateAny | core/api/filters.py:8-16 | a missing or blank text gives no date; a date found is a valid calendar date |
| Filters.DmyText | core/api/filters.py:12-14 | the "gg/mm/aaaa" form has ten characters |
| Filters.DmyRoundTrip | core/api/filters.py:8-14 | a date written in the UI's "gg/mm/aaaa" form is read back as that date |
| Filters.IsoDateText | core/api/filters.py:12-16 | the "yyyy-mm-dd" form has ten characters |
| Filters.IsoFields | core/api/filters.py:16 | `parse_date` of "yyyy-mm-dd" gives that day when it exists and raises `ValueError` otherwise |
| Filters.IsoReachesParseDate | core/api/filters.py:13-16 | an ISO text fails the "gg/mm/aaaa" form and reaches `parse_date` |
| Filters.IsoRoundTrip | core/api/filters.py:8-16 | a date written "yyyy-mm-dd" is read back as that date |
| Filters.InvalidIsoDateRaises | core/api/filters.py:13-16 | a well-formed ISO text naming no calendar day, such as February 30th, makes the parse raise `ValueError`, which is not caught |
| Filters.NoDmyWithout | core/api/filters.py:14 | a text with no "/" at index 1 or 2 is not in the "gg/mm/aaaa" form |
| Filters.FilterQ | core/api/filters.py:31-41 | a blank query leaves the rows as they are; otherwise a row is kept exactly when the event name, its normalised name, the main artist, the venue or the city contains the query, ignoring case |
| Filters.FilterEventsQ | core/api/filters.py:64-72 | a blank query leaves the events as they are; otherwise an event is kept exactly when its name, normalised name or main artist contains the query, ignoring case |
| Filters.FilterDateFrom | core/api/filters.py:43-45 | without a date the rows are unchanged; a parse error propagates; with a date, a row is kept exactly when it has a start whose day is not before that date |
| Filters.FilterDateTo | core/api/filters.py:47-49 | without a date the rows are unchanged; a parse error propagates; with a date, a row is kept exactly when it has a start whose day is not after that date |
| Filters.SameDayBounds | core/api/filters.py:43-49 | the same date as lower and upper bound keeps exactly the rows starting on that day |
| Admin.Shorten | core/api/admin.py:17-21 | an empty or missing text gives ""; a text of at most `n` characters comes back unchanged; a longer one becomes its first `n` characters followed by "…" |
| Admin.ShortenStable | core/api/admin.py:17-21 | shortening an already shortened text, allowing one more character for the ellipsis, changes nothing |
| Admin.Target | core/api/admin.py:176-182 | the label starts "PERF #" when the monitor has a performance, else "EVENT #" when it has an event, and is "-" exactly when it has neither |
| Admin.TargetNamesItsRow | core/api/admin.py:176-182 | the number in the label is the id of the performance, else of the event, that the monitor points at |
| Http.Pow2 | core/api/scrapers/ticketmaster.py:60 | a power of two is at least one |
| Http.RetryDelay | core/api/scrapers/ticketmaster.py:59-60 | a Retry-After of digits is waited as given; otherwise the wait is two to the attempt, at least one second |
| Http.Truncate | core/api/scrapers/eventbrite.py:23 | Python's s[:n] is a prefix of at most n characters, the whole text when it is short |

## Left out

- Network, HTML and JSON decoding: HTTP calls are outcomes passed in, indexed by attempt or by request. BeautifulSoup parsing and regular-expression matching are inputs: the texts, links, JSON-LD scripts and regex matches they would produce.
- Sleeps, random jitter and the float arithmetic of pause lengths: only the pause class (normal or heavy) and the backoff sequence are modelled.
- The Django ORM, `transaction.atomic`, `select_for_update` and `get_or_create`: tables are maps in a store object. An atomic block is one state update, and concurrent runs are not modelled.
- sha256 and `json.dumps`: a hash is an injective canonical text (or a hash function passed in), so distinct inputs never collide.
- The schema in `core/api/models.py` is stale against its users. Record shapes follow the places that use them.
- `datetime.fromisoformat` is modelled only for the forms the sources produce: an ISO date, or a date and time with an explicit UTC offset after "Z" is replaced.
- Formatting of years before 1000 is platform dependent and is not modelled.
- Python's `lower()`, `upper()` and `\s` are modelled on ASCII only, with no Unicode case folding. `\w` is ASCII too, except in the mock-data `slugify`, which also admits the Latin-1 letters. `\d` and `int()` take only the ASCII digits, while Python's also take other Unicode decimal digits.
- Decimal NaN, Infinity, exponent forms and underscores between digits are not modelled. A fee text in one of those forms reads as not a number.
- The user account created during checkout is left out. Checkout is modelled from the listing reservation on.
- Celery retry policy is left out, and so are the libraries that read PDFs and images and decode barcodes (pikepdf, PIL, pdf2image, pyzbar, python-magic, puremagic). They are producers of raw date strings, codes and MIME types passed in.
- Console output, progress lines and the summary text of the commands are left out. The counters they print are modelled.
- The `while True` loop mode of the free-alert scan is left out. One `_run_once` is modelled.
- Exceptions other than those named in the model (for instance a database error inside a record) are not modelled.
- `core/api/scrapers/scraper_ticketone.py`, `core/api/signals.py`, `core/api/filesystem.py`, the URL, swagger, celery and utils modules, and the thin CRUD viewsets and plain model serializers are not part of this model.
- Eventbrite.OrgEvents: the continuation loop has no bound in the source. The model requests at most `fuel` pages and reports a page-limit error beyond that.
- Eventbrite.EventbriteClient.FetchOrgEvents: same fuel bound as the function it is specified by.
- TmPriceExtract.ExtractResale: only JSON integers and digit texts are read as prices (cents or whole units as the payload gives them). A JSON float such as `45.0` or `45.5`, or a text such as `"45.50"`, is not read, although `float()` reads it. The order of prices with fractions is therefore not captured.
- TmPriceExtract.ExtractScraper: same integer-only prices as ExtractResale.
- Validators.ParseExifData: `timezone.make_aware` is not modelled. The date read is compared with `now` as a naive wall-clock time, which matches the source only when the current time zone is UTC. The project's settings module is not part of this model.
- FileValidators.ValidazioneImage: same naive EXIF date as Validators.ParseExifData.
- Filters.FilterDateFrom: the `starts_at_utc__date` lookups (here and in Filters.FilterDateTo) take the date in the current time zone. The model takes the UTC date, which matches only when that zone is UTC.
- Filters.ParseDate: this is the regular-expression `parse_date`. Django 4 and later first try `date.fromisoformat`, and on Python 3.11 and later that also accepts forms such as "20240310" and "2024W10". The 8-to-10-character bound holds only for the regex path.
- ScrubTmNew.Run: the stream of discovered events is a finished sequence. An error the discovery generator raises after some records were committed, leaving those commits in place, is not expressed.
- ScrubTmNew.Handle: same finished event sequence as ScrubTmNew.Run.
- ScrubPortals.Handle: same finished event sequence. A generator error part-way through a portal is not expressed.
- ScanTicketmasterResale.ProbeEntry: the `html` and `prices` sub-dictionaries of the stored probe are left out. `scanned_at` is stored as the clock value, not its ISO text. Nothing in the model reads these back.
- Views.ParseDecimal: its own contract only bounds the scale. The number it reads is stated by the lemmas Views.ParseDecimalValue, Views.ParseDecimalSign and Views.ParseDecimalOfNat.
- Json.PyRepr: quotes and backslashes inside strings are not escaped the way Python's `repr` escapes them.
- JSON floats: a JSON float is held as the shortest decimal its `repr` writes, in plain notation. Binary rounding of the parsed float, and the exponent form `repr` uses below 1e-4 and from 1e16 on, are not modelled.
- Views.FeeOf: a float is read through the plain-notation text described under JSON floats above.
- Views.PyInt: a float is the exact decimal described under JSON floats above, so the binary rounding of very large floats before `int()` cuts them is not modelled.
- ScanTicketmasterResale.NumText: a price is a whole float written as "45.0". A fractional price is not read (see TmPriceExtract.ExtractResale), and the exponent form `repr` uses from 1e16 on is not modelled.
- Slugs.DjangoSlugify: the Unicode NFKD normalisation and ASCII folding that `slugify` applies first are not modelled. The model lower-cases and filters the characters as given, so an accented letter is dropped where Django keeps its base letter ("Città" gives "citt", not "citta"). The same holds for Catalog.VenueKey, Catalog.EventNorm and the slugs the importers ScrubTmNew, ScrubEventbrite and ScrubPortals derive from them. On ASCII text the model matches.
- ScrubTmNew.Handle: the `Piattaforma` row is fetched or created with `get_or_create` before the records are visited, dry run or not. The platform table is not modelled, so "a dry run changes nothing" holds only for the modelled tables (places, events, performances and mappings).
- ScrubEventbrite.Handle: same platform row as ScrubTmNew.Handle. It is created after the token check and before the dry-run branch, so a dry run with a token does write it.
- ScrubEventbrite.RunDry: holds for the modelled tables only. The platform row written before the loop is not modelled.
- ScrubEventbrite.RunSpecFacts: same modelled-tables scope as ScrubEventbrite.RunDry.
- ScrubPortals.Handle: same platform row as ScrubTmNew.Handle, created for the source before its events are visited, dry run or not.
- ScrubPortals.RunDry: holds for the modelled tables only, as ScrubEventbrite.RunDry.
- ScrubPortals.RunFacts: same modelled-tables scope as ScrubPortals.RunDry.
- TmDiscovery.BuildWindows: with `step_days` of 0 or less and an end after the start, the source loops forever, and `--step-days 0` is accepted by the option parser of `scrub_ticketmaster_new`. The model requires a positive step and does not express the hang.
- TicketSwap.JoinBase: `.` and `..` segments of a relative link are not resolved the way `urljoin` resolves them. Event links on the location page are absolute paths.

## Findings

| source | as written | input that shows it | evidently intended | confidence | as-written member | corrected member |
|---|---|---|---|---|---|---|
| core/api/management/commands/scan_ticketmaster_pro.py:235 | the probe is called with `session=`, a keyword the single-shot page check does not accept, so it raises TypeError; that is counted as a Ticketmaster error and no alert is ever sent | any monitor with a performance, no internal tickets and a Ticketmaster URL | call the probe without `session=` and let its verdict decide | high, not executed | ScanTicketmasterPro.SessionKeywordBlocksAlerts | ScanTicketmasterPro.IntendedProbeDecides |
| core/api/management/commands/scan_paid_alerts.py:193 | the same `session=` call, outside any try, so the first monitor that reaches the probe ends the whole run with TypeError | any monitor with a performance, no internal tickets and a Ticketmaster URL | call the probe without `session=` | high, not executed | ScanPaidAlerts.SessionKeywordAbortsRun | ScanPaidAlerts.IntendedDecide |
| core/api/file_validators.py:42 | `creato in None` raises TypeError for every input, so the metadata date check never accepts a file | a PDF whose creation date is before its modification date, both before now | `creato is None` | high, not executed | FileValidators.ConsistentPdfStillRaises | FileValidators.ControlloDataIntended |
| core/api/views.py:796 | the refusal raises `permissions.PermissionDenied`, which the permissions module does not define, so a refused request ends in AttributeError (a 500) instead of a 403 | an anonymous request for an existing order without an e-mail parameter | raise `exceptions.PermissionDenied` | medium, not executed | Views.DeniedSummaryCrashes | Views.SummaryVisibleIff |
| core/api/tasks.py:79-80 | the membership test compares the uncut name with the stored names, which are cut to 120 characters, so a long name is listed once per match | two matches of the same 121-character name | compare the cut name | high, not executed | Tasks.LongNameListedTwice | Tasks.Names |
