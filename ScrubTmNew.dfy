/** The streaming Ticketmaster import (`scrub_ticketmaster_new`): each
    record upserts its venue, its event (with a collision-free slug), its
    platform mapping with change detection, and a performance, falling back
    to a midnight placeholder flagged "time_tbd" when only the local date
    is known. Each record runs in its own atomic block: a failure rolls its
    writes back, counts as failed and the loop goes on. A record is given
    with its JSON fields already read; `raw` is the whole payload. */
module ScrubTmNew {
  import opened Wrappers
  import opened Text
  import opened Json
  import opened Calendar
  import opened JsonCanon
  import opened Slugs
  import opened Catalog

  const Platform := "ticketmaster"

  /** The first entry of `_embedded.venues` (all fields absent when there
      is none). `address` is absent when the key is missing. */
  datatype TmVenue = TmVenue(name: Option<string>, city: Option<string>, countryCode: Option<string>,
                             address: Option<Json>, timezone: Json)

  datatype TmItem = TmItem(id: Option<string>, name: Option<string>, url: Option<string>,
                           dateTime: Option<string>, localDate: Option<string>, venue: TmVenue, raw: Json)

  /** The counters of the final summary, one name per local counter of
      the command; a tally holds each counter as many times as it was
      bumped. */
  datatype Counter = CreatedEvt | CreatedPerf | CreatedMap | UpdatedEvt | UpdatedPerf | UpdatedMap
                   | SkippedUnchangedMap | PlaceholderMidnight | TimeTbdMarked | Processed | Failed

  type Tally = multiset<Counter>

  /** One bump of `c` when `b` holds. */
  function BumpIf(b: bool, c: Counter): (r: Tally)
    ensures r[c] == (if b then 1 else 0) && |r| == r[c]
  {
    if b then multiset{c} else multiset{}
  }

  /** `(options["country"] or "IT").upper().strip()`. */
  function CountryOption(c: Option<string>): string
  {
    Strip(Upper(OrElse(c, "IT")))
  }

  /** Records with a falsy id are skipped. */
  predicate HasId(it: TmItem) { it.id.Some? && it.id.value != "" }

  /** `v0.get("address", {}).get("line1")`, evaluated for the venue
      defaults whether or not the venue exists: it raises AttributeError
      when the address is present but not a dictionary. */
  function AddressLine(a: Option<Json>): (r: Result<Json>)
    ensures r.Err? <==> a.Some? && !a.value.JObj?
  {
    match a
    case None => Ok(JNull)
    case Some(j) => if j.JObj? then Ok(GetOrNull(j, "line1")) else Err("AttributeError")
  }

  // ---------------------------------------------------------------------
  // Performances

  datatype PerfPlan = At(start: DateTime) | Midnight(start: DateTime) | NoStart | BadDate

  /** `localDate` as the fallback start reads it: absent when missing or
      empty, otherwise the result of parsing it as a calendar date. */
  function LocalDay(localDate: Option<string>): (r: Option<Result<DateTime>>)
    ensures r.None? <==> OrElse(localDate, "") == ""
    ensures r.Some? ==> r.value == ParseIsoDate(localDate.value)
    ensures r.Some? && r.value.Ok? ==> r.value.value.hour == 0 && r.value.value.minute == 0 && r.value.value.second == 0
  {
    if OrElse(localDate, "") == "" then None else Some(ParseIsoDate(localDate.value))
  }

  /** The performance start: the UTC `dateTime` when present; otherwise
      the local day at 00:00 UTC as a placeholder; with neither, none. An
      unparsable local day raises. */
  function PlanPerf(starts: Option<DateTime>, day: Option<Result<DateTime>>): (r: PerfPlan)
    ensures starts.Some? ==> r == At(starts.value)
    ensures r.NoStart? <==> starts.None? && day.None?
    ensures r.Midnight? <==> starts.None? && day.Some? && day.value.Ok?
    ensures r.Midnight? ==> day.value.value == r.start
    ensures r.BadDate? <==> starts.None? && day.Some? && day.value.Err?
  {
    if starts.Some? then At(starts.value)
    else match day
      case None => NoStart
      case Some(Ok(d)) => Midnight(d)
      case Some(Err(_)) => BadDate
  }

  /** A performance's `get_or_create` and flagging: a new one is stored
      with status "UNKNOWN" and availability "time_tbd" for a placeholder
      ("sconosciuta" otherwise); the status "TIME_TBD" is set on the object
      but never saved. An existing one is only re-flagged "time_tbd". */
  function UpsertPerf(prev: Option<Perf>, tbd: bool): (r: (Perf, Tally))
    ensures prev.None? ==> r.0.status == "UNKNOWN" && r.1[CreatedPerf] == 1
    ensures prev.Some? ==> r.0.status == prev.value.status && r.1[CreatedPerf] == 0
    ensures tbd ==> r.0.availability == "time_tbd"
    ensures !tbd && prev.Some? ==> r.0 == prev.value && r.1 == multiset{}
  {
    match prev
    case None =>
      (Perf("UNKNOWN", if tbd then "time_tbd" else "sconosciuta", "EUR"),
       multiset{CreatedPerf} + BumpIf(tbd, TimeTbdMarked))
    case Some(p) =>
      if tbd && p.availability != "time_tbd" then (p.(availability := "time_tbd"), multiset{UpdatedPerf})
      else (p, multiset{})
  }

  // ---------------------------------------------------------------------
  // One record

  /** What importing one record does to the tables and the counters, given
      the slug chosen for its event. On failure the tables are as before,
      while the counters bumped before the failure stay bumped. */
  datatype Step = Step(state: Tables, counts: Tally, ok: bool)

  function MapCounts(c: MapCase): (r: Tally)
    ensures r[Processed] == 0 && r[Failed] == 0 && r[CreatedEvt] == 0 && r[CreatedPerf] == 0
    ensures r[PlaceholderMidnight] == 0 && r[TimeTbdMarked] == 0
    ensures r[CreatedMap] == (if c == MapCreated then 1 else 0)
    ensures r[SkippedUnchangedMap] == (if c == MapUnchanged then 1 else 0)
  {
    match c
    case MapCreated => multiset{CreatedMap}
    case MapUnchanged => multiset{SkippedUnchangedMap}
    case MapRewritten => multiset{UpdatedMap}
  }

  function EventCounts(events: map<string, Event>, h: string, name: string, slug: string): (r: Tally)
    ensures r[Processed] == 0 && r[Failed] == 0 && r[CreatedMap] == 0 && r[CreatedPerf] == 0
    ensures r[SkippedUnchangedMap] == 0 && r[PlaceholderMidnight] == 0 && r[TimeTbdMarked] == 0
    ensures r[CreatedEvt] == (if h in events then 0 else 1)
  {
    if h !in events then multiset{CreatedEvt}
    else if EventChanged(events[h], name, slug) then multiset{UpdatedEvt}
    else multiset{}
  }

  function PerfStep(t: Tables, c: Tally, k: PerfKey, tbd: bool): (r: Step)
    ensures r.ok && r.counts[Processed] == c[Processed] + 1 && r.counts[Failed] == c[Failed]
    ensures r.state == t.(perfs := r.state.perfs) && k in r.state.perfs && r.state.perfs.Keys == t.perfs.Keys + {k}
    ensures tbd ==> r.state.perfs[k].availability == "time_tbd"
    ensures k !in t.perfs ==> r.state.perfs[k].status == "UNKNOWN" && r.counts[CreatedPerf] == c[CreatedPerf] + 1
                              && r.counts[TimeTbdMarked] == c[TimeTbdMarked] + (if tbd then 1 else 0)
    ensures k in t.perfs ==> r.counts[CreatedPerf] == c[CreatedPerf]
    ensures r.counts[CreatedEvt] == c[CreatedEvt] && r.counts[CreatedMap] == c[CreatedMap]
    ensures r.counts[SkippedUnchangedMap] == c[SkippedUnchangedMap] && r.counts[PlaceholderMidnight] == c[PlaceholderMidnight]
  {
    var u := UpsertPerf(if k in t.perfs then Some(t.perfs[k]) else None, tbd);
    Step(t.(perfs := t.perfs[k := u.0]), c + u.1 + multiset{Processed}, true)
  }

  /** What one record contributes, read with the command's fallbacks: a
      missing name or url is "", a missing venue name "Sconosciuto", a
      missing venue country the country option. */
  datatype Fields = Fields(id: string, name: string, url: string,
                           venueName: string, city: string, cityNorm: string, country: string, venueKey: string,
                           address: Result<Json>, timezone: Json,
                           hash: string, norm: string, seed: string,
                           localDay: Option<Result<DateTime>>, raw: Json, checksum: string)

  function Read(it: TmItem, country: string): (f: Fields)
    requires HasId(it)
    ensures f.id == it.id.value && f.hash == EventHash(Platform, f.id)
    ensures f.venueName == OrElse(it.venue.name, "Sconosciuto") && f.venueName != ""
    ensures f.city == OrElse(it.venue.city, "") && f.country == OrElse(it.venue.countryCode, country)
    ensures f.cityNorm == DjangoSlugify(f.city)
    ensures f.venueKey == VenueKey(f.venueName, f.city, f.country)
    ensures f.name == OrElse(it.name, "") && f.norm == EventNorm(f.name) && f.seed == SlugSeed(f.norm, f.id)
    ensures f.address == AddressLine(it.venue.address) && f.localDay == LocalDay(it.localDate)
    ensures f.raw == it.raw && f.checksum == Checksum(it.raw)
  {
    var vname, city, cc := OrElse(it.venue.name, "Sconosciuto"), OrElse(it.venue.city, ""), OrElse(it.venue.countryCode, country);
    var name := OrElse(it.name, "");
    var norm := EventNorm(name);
    Fields(it.id.value, name, OrElse(it.url, ""), vname, city, DjangoSlugify(city), cc, VenueKey(vname, city, cc),
           AddressLine(it.venue.address), it.venue.timezone,
           EventHash(Platform, it.id.value), norm, SlugSeed(norm, it.id.value),
           LocalDay(it.localDate), it.raw, Checksum(it.raw))
  }

  /** The venue, event and mapping rows of a record, staged. */
  function Rows(t: Tables, f: Fields, now: int, slug: string): (r: Tables)
    requires f.address.Ok?
    ensures r.perfs == t.perfs
    ensures r.venues.Keys == t.venues.Keys + {f.venueKey}
    ensures f.hash in r.events && r.events == t.events[f.hash := r.events[f.hash]] && r.events[f.hash].slug == slug
    ensures MapKey(Platform, f.id) in r.mappings && r.mappings.Keys == t.mappings.Keys + {MapKey(Platform, f.id)}
    ensures r.mappings[MapKey(Platform, f.id)].checksum == f.checksum && r.mappings[MapKey(Platform, f.id)].lastScan == now
  {
    var venue := if f.venueKey in t.venues then RefreshVenue(t.venues[f.venueKey], f.venueName, f.city, f.country)
                 else NewVenue(f.venueName, f.address.value, f.city, f.cityNorm, f.country, f.timezone);
    var ev := if f.hash in t.events then RefreshEvent(t.events[f.hash], f.name, f.norm, slug)
              else NewEvent(slug, f.name, f.norm, Platform);
    var mk := MapKey(Platform, f.id);
    var up := UpsertMapping(if mk in t.mappings then Some(t.mappings[mk]) else None, f.hash, f.url, now, f.raw, f.checksum);
    Tables(t.venues[f.venueKey := venue], t.events[f.hash := ev], t.mappings[mk := up.0], t.perfs)
  }

  /** The mapping case the upsert of a record takes. */
  function MapCaseOf(t: Tables, f: Fields): MapCase
  {
    var mk := MapKey(Platform, f.id);
    UpsertMapping(if mk in t.mappings then Some(t.mappings[mk]) else None, f.hash, f.url, 0, f.raw, f.checksum).1
  }

  function ImportRecord(t: Tables, f: Fields, starts: Option<DateTime>, now: int, slug: string): Step
  {
    if f.address.Err? then Step(t, multiset{Failed}, false)
    else
      var c := EventCounts(t.events, f.hash, f.name, slug) + MapCounts(MapCaseOf(t, f));
      var t1 := Rows(t, f, now, slug);
      match PlanPerf(starts, f.localDay)
      case BadDate => Step(t, c + multiset{Failed}, false)
      case NoStart => Step(t1, c + multiset{Processed}, true)
      case At(s) => PerfStep(t1, c, PerfKey(f.hash, f.venueKey, s), false)
      case Midnight(s) => PerfStep(t1, c + multiset{PlaceholderMidnight}, PerfKey(f.hash, f.venueKey, s), true)
  }

  /** Each record counts exactly once, as processed or as failed, and a
      failed record leaves the tables as they were. */
  lemma ImportCountsOnce(t: Tables, f: Fields, starts: Option<DateTime>, now: int, slug: string)
    ensures var r := ImportRecord(t, f, starts, now, slug);
            r.counts[Processed] + r.counts[Failed] == 1
            && (r.ok <==> r.counts[Processed] == 1)
            && (!r.ok ==> r.state == t)
  {
  }

  /** A record fails exactly when its venue address is not a dictionary
      (see `AddressLine`), or when it has no `dateTime` and its `localDate`
      does not parse. */
  lemma ImportFailsWhen(t: Tables, f: Fields, starts: Option<DateTime>, now: int, slug: string)
    ensures !ImportRecord(t, f, starts, now, slug).ok <==>
              f.address.Err? || (starts.None? && f.localDay.Some? && f.localDay.value.Err?)
  {
    var plan := PlanPerf(starts, f.localDay);
    assert plan.BadDate? <==> starts.None? && f.localDay.Some? && f.localDay.value.Err?;
  }

  /** A committed record leaves its mapping holding the payload's checksum
      and the scan time, and its event under the canonical hash of its id
      with the chosen slug. */
  lemma ImportMapsRecord(t: Tables, f: Fields, starts: Option<DateTime>, now: int, slug: string)
    ensures var r := ImportRecord(t, f, starts, now, slug);
            r.ok ==> var mk := MapKey(Platform, f.id);
                     mk in r.state.mappings && r.state.mappings[mk].checksum == f.checksum
                     && r.state.mappings[mk].lastScan == now
                     && f.hash in r.state.events && r.state.events[f.hash].slug == slug
  {
    var r := ImportRecord(t, f, starts, now, slug);
    if r.ok {
      var t1 := Rows(t, f, now, slug);
      assert r.state.mappings == t1.mappings && r.state.events == t1.events;
    }
  }

  /** A committed record's venues, events and mappings are the staged rows. */
  lemma ImportStagesRows(t: Tables, f: Fields, starts: Option<DateTime>, now: int, slug: string)
    ensures var r := ImportRecord(t, f, starts, now, slug);
            r.ok ==> f.address.Ok? && r.state.(perfs := t.perfs) == Rows(t, f, now, slug)
  {
  }

  /** A committed record whose slug is the first free one keeps the event
      slugs distinct. */
  lemma ImportKeepsSlugsDistinct(t: Tables, f: Fields, starts: Option<DateTime>, now: int, slug: string)
    requires SlugsDistinct(t.events)
    requires IsFirstFree(SlugBase(f.seed), OtherSlugs(t.events, f.hash), slug)
    ensures SlugsDistinct(ImportRecord(t, f, starts, now, slug).state.events)
  {
    var r := ImportRecord(t, f, starts, now, slug);
    ImportStagesRows(t, f, starts, now, slug);
    if r.ok {
      var e := r.state.events[f.hash];
      StoreEventKeepsSlugsDistinct(t.events, f.hash, e);
    }
  }

  /** Without `dateTime`, a record with a valid `localDate` gets a
      performance at that day's midnight flagged "time_tbd"; when it is
      new its stored status is "UNKNOWN", not "TIME_TBD". */
  lemma PlaceholderPerformance(t: Tables, f: Fields, now: int, slug: string, d: DateTime)
    requires f.address.Ok?
    requires f.localDay == Some(Ok(d))
    ensures var r := ImportRecord(t, f, None, now, slug);
            var k := PerfKey(f.hash, f.venueKey, d);
            r.ok && k in r.state.perfs && r.state.perfs[k].availability == "time_tbd"
            && r.counts[PlaceholderMidnight] == 1
            && (k !in t.perfs ==> r.state.perfs[k].status == "UNKNOWN" && r.counts[TimeTbdMarked] == 1)
  {
    assert PlanPerf(None, f.localDay) == Midnight(d);
  }

  /** A record with no `dateTime` and no `localDate` still stores its
      venue, event and mapping, counts as processed and adds no
      performance. */
  lemma NoDateNoPerformance(t: Tables, f: Fields, now: int, slug: string)
    requires f.address.Ok?
    requires f.localDay.None?
    ensures var r := ImportRecord(t, f, None, now, slug);
            r.ok && r.state.perfs == t.perfs && r.counts[Processed] == 1
            && MapKey(Platform, f.id) in r.state.mappings && f.venueKey in r.state.venues
  {
  }

  lemma Feb30IsNoDate()
    ensures ParseIsoDate("2026-02-30").Err?
  {
    var s := "2026-02-30";
    assert s[5..7] == "02" && "02"[..1] == "0" && "0"[..0] == "";
    assert s[8..10] == "30" && "30"[..1] == "3" && "3"[..0] == "";
    assert DigitsValue("02") == 2 && DigitsValue("30") == 30;
    assert Calendar.Field(s, 5, 2) == Some(2) && Calendar.Field(s, 8, 2) == Some(30);
  }

  /** Counters are not rolled back with the tables: a new event whose
      `localDate` is not a date is counted as created and as failed, while
      nothing is stored. */
  lemma RolledBackRecordStillCounted(t: Tables, f: Fields, now: int, slug: string)
    requires f.address.Ok? && f.hash !in t.events
    requires f.localDay == LocalDay(Some("2026-02-30"))
    ensures var r := ImportRecord(t, f, None, now, slug);
            !r.ok && r.state == t && r.counts[CreatedEvt] == 1 && r.counts[Failed] == 1
  {
    Feb30IsNoDate();
    assert PlanPerf(None, f.localDay) == BadDate;
  }

  /** Importing the same record again is recognised by its checksum: no
      event, mapping or performance is created the second time, and the
      mapping counts as unchanged. */
  lemma SecondImportUnchanged(t: Tables, f: Fields, starts: Option<DateTime>, t1: int, t2: int, s1: string, s2: string)
    requires ImportRecord(t, f, starts, t1, s1).ok
    ensures var r1 := ImportRecord(t, f, starts, t1, s1);
            var r2 := ImportRecord(r1.state, f, starts, t2, s2);
            r2.ok && r2.counts[CreatedEvt] == 0 && r2.counts[CreatedMap] == 0 && r2.counts[CreatedPerf] == 0
            && r2.counts[SkippedUnchangedMap] == 1
  {
    var r1 := ImportRecord(t, f, starts, t1, s1);
    var plan := PlanPerf(starts, f.localDay);
    assert f.address.Ok? && f.hash in r1.state.events && MapCaseOf(r1.state, f) == MapUnchanged by {
      ImportStagesRows(t, f, starts, t1, s1);
    }
    assert !plan.BadDate? by { ImportFailsWhen(t, f, starts, t1, s1); }
    if plan.At? || plan.Midnight? {
      assert PerfKey(f.hash, f.venueKey, plan.start) in r1.state.perfs;
    }
    RepeatCounts(r1.state, f, starts, t2, s2);
  }

  /** A record whose event, mapping and performance are already stored
      creates nothing and finds its mapping unchanged. */
  lemma RepeatCounts(t: Tables, f: Fields, starts: Option<DateTime>, now: int, slug: string)
    requires f.address.Ok? && f.hash in t.events && MapCaseOf(t, f) == MapUnchanged
    requires !PlanPerf(starts, f.localDay).BadDate?
    requires var plan := PlanPerf(starts, f.localDay);
             plan.At? || plan.Midnight? ==> PerfKey(f.hash, f.venueKey, plan.start) in t.perfs
    ensures var r := ImportRecord(t, f, starts, now, slug);
            r.ok && r.counts[CreatedEvt] == 0 && r.counts[CreatedMap] == 0 && r.counts[CreatedPerf] == 0
            && r.counts[SkippedUnchangedMap] == 1
  {
    assert Rows(t, f, now, slug).perfs == t.perfs;
  }

  // ---------------------------------------------------------------------
  // The command

  /** One record inside its atomic block: the slug is searched for, the
      rows are staged in the order the command writes them, and they are
      committed only when nothing raised. */
  method ImportOne(db: Store, it: TmItem, country: string, starts: Option<DateTime>, now: int)
    returns (counts: Tally, ok: bool, slug: string)
    requires HasId(it)
    modifies db
    ensures IsFirstFree(SlugBase(Read(it, country).seed), OtherSlugs(old(db.events), Read(it, country).hash), slug)
    ensures Step(db.State(), counts, ok) == ImportRecord(old(db.State()), Read(it, country), starts, now, slug)
  {
    var t := db.State();
    var f := Read(it, country);
    var onCreate := SlugFor(db, f.seed, None);
    if f.hash in db.events {
      slug := SlugFor(db, f.seed, Some(f.hash));
    } else {
      slug := onCreate;
    }
    var r := ImportRecord(t, f, starts, now, slug);
    counts, ok := r.counts, r.ok;
    ImportCountsOnce(t, f, starts, now, slug);
    if ok {
      db.Commit(r.state);
    }
  }

  /** The records `handle` looks at: the first `limit` of them when
      `limit` is non-zero (none when it is negative), all otherwise. */
  function Considered(items: seq<TmItem>, limit: int): (r: seq<TmItem>)
    ensures IsPrefixSeq(r, items)
    ensures limit == 0 ==> r == items
    ensures limit != 0 ==> |r| == (if limit < 0 then 0 else if limit < |items| then limit else |items|)
  {
    if limit == 0 then items
    else if limit < 0 then []
    else if limit < |items| then items[..limit]
    else items
  }

  predicate IsPrefixSeq(a: seq<TmItem>, b: seq<TmItem>) { |a| <= |b| && b[..|a|] == a }

  /** The record does not stop the run: it has no id, or its `dateTime`
      is absent, empty or parses. */
  predicate DateOk(it: TmItem)
  {
    !HasId(it) || ParseDtUtc(it.dateTime).Ok?
  }

  /** No record of `items` stops the run. */
  predicate DatesParse(items: seq<TmItem>)
  {
    items == [] || (DateOk(items[0]) && DatesParse(items[1..]))
  }

  lemma {:induction false} DatesParseAll(items: seq<TmItem>)
    ensures DatesParse(items) <==> forall k :: 0 <= k < |items| ==> DateOk(items[k])
  {
    if items != [] {
      var p := items[1..];
      DatesParseAll(p);
      assert forall k :: 0 <= k < |p| ==> p[k] == items[k + 1];
      if forall k :: 0 <= k < |p| ==> DateOk(p[k]) {
        assert DateOk(items[0]) ==> forall k :: 0 <= k < |items| ==> DateOk(items[k]) by {
          forall k | 0 <= k < |items| && DateOk(items[0]) ensures DateOk(items[k]) {
            if k > 0 { assert items[k] == p[k - 1]; }
          }
        }
      }
    }
  }

  /** A record that stops the run makes every longer prefix fail too. */
  lemma NoParseStops(items: seq<TmItem>, i: nat)
    requires i < |items| && !DateOk(items[i])
    ensures !DatesParse(items)
  {
    DatesParseAll(items);
  }

  /** The records with an id. */
  function IdCount(items: seq<TmItem>): nat
  {
    if items == [] then 0 else (if HasId(items[0]) then 1 else 0) + IdCount(items[1..])
  }

  /** What one record of the loop leaves: the tables, the counters it
      bumped, and the error that stops the run, if any. */
  datatype Visited = Visited(state: Tables, counts: Tally, abort: Option<string>)

  /** One record of the loop. A record without an id is skipped; one whose
      `dateTime` does not parse stops the run (that parse is outside the
      per-record guard); in a dry run nothing is written and the record
      counts as processed; otherwise it is imported in its own atomic
      block, its event taking the first free slug. */
  ghost function VisitSpec(t: Tables, it: TmItem, country: string, dryRun: bool, now: int): Visited
  {
    if !HasId(it) then Visited(t, multiset{}, None)
    else match ParseDtUtc(it.dateTime)
      case Err(e) => Visited(t, multiset{}, Some(e))
      case Ok(starts) =>
        if dryRun then Visited(t, multiset{Processed}, None)
        else
          var f := Read(it, country);
          var r := ImportRecord(t, f, starts, now, FirstFreeSlug(SlugBase(f.seed), OtherSlugs(t.events, f.hash)));
          Visited(r.state, r.counts, None)
  }

  /** The counters `sum` added in front of what follows. */
  function After(sum: Tally, v: Visited): Visited
  {
    Visited(v.state, sum + v.counts, v.abort)
  }

  /** The loop over `items`: each record visited in turn from the tables
      the one before left, until one stops the run. */
  ghost function RunSpec(t: Tables, items: seq<TmItem>, country: string, dryRun: bool, now: int): Visited
    decreases |items|
  {
    if items == [] then Visited(t, multiset{}, None)
    else
      var v := VisitSpec(t, items[0], country, dryRun, now);
      if v.abort.Some? then v
      else After(v.counts, RunSpec(v.state, items[1..], country, dryRun, now))
  }

  /** The loop from record `i` on: record `i`, then the rest unless it
      stopped the run. */
  lemma RunSpecAt(t: Tables, items: seq<TmItem>, i: nat, country: string, dryRun: bool, now: int)
    requires i < |items|
    ensures var v := VisitSpec(t, items[i], country, dryRun, now);
            RunSpec(t, items[i..], country, dryRun, now)
              == if v.abort.Some? then v else After(v.counts, RunSpec(v.state, items[i + 1..], country, dryRun, now))
  {
    assert items[i..][0] == items[i] && items[i..][1..] == items[i + 1..];
  }

  lemma AfterAfter(a: Tally, b: Tally, v: Visited)
    ensures After(a, After(b, v)) == After(a + b, v)
  {
    assert a + (b + v.counts) == (a + b) + v.counts;
  }

  /** A record that stops the run leaves the tables and counters alone and
      hides every record after it. */
  lemma RunStopsAtBadDate(t: Tables, items: seq<TmItem>, country: string, dryRun: bool, now: int)
    requires items != [] && HasId(items[0]) && ParseDtUtc(items[0].dateTime).Err?
    ensures RunSpec(t, items, country, dryRun, now) == Visited(t, multiset{}, Some(ParseDtUtc(items[0].dateTime).error))
  {
  }

  /** One visit stops the run exactly when the record's date does not
      parse, and then changes and counts nothing; otherwise it counts the
      record once when it has an id. A dry run writes nothing and fails
      nothing; slugs stay distinct. */
  lemma VisitSpecFacts(t: Tables, it: TmItem, country: string, dryRun: bool, now: int)
    ensures var v := VisitSpec(t, it, country, dryRun, now);
            (v.abort.None? <==> DateOk(it))
            && (v.abort.Some? ==> v.state == t && v.counts == multiset{})
            && (v.abort.None? ==> v.counts[Processed] + v.counts[Failed] == (if HasId(it) then 1 else 0))
            && (dryRun ==> v.state == t && v.counts[Failed] == 0)
            && (SlugsDistinct(t.events) ==> SlugsDistinct(v.state.events))
  {
    if HasId(it) && ParseDtUtc(it.dateTime).Ok? && !dryRun {
      var f := Read(it, country);
      var starts := ParseDtUtc(it.dateTime).value;
      var slug := FirstFreeSlug(SlugBase(f.seed), OtherSlugs(t.events, f.hash));
      ImportCountsOnce(t, f, starts, now, slug);
      if SlugsDistinct(t.events) {
        ImportKeepsSlugsDistinct(t, f, starts, now, slug);
      }
    }
  }

  /** The run stops exactly when some record's date does not parse; when
      it does not stop, every record with an id is counted once as
      processed or failed. A dry run writes nothing and fails nothing, and
      the event slugs stay distinct. */
  lemma {:induction false} RunSpecFacts(t: Tables, items: seq<TmItem>, country: string, dryRun: bool, now: int)
    ensures var r := RunSpec(t, items, country, dryRun, now);
            (r.abort.None? <==> DatesParse(items))
            && (r.abort.None? ==> r.counts[Processed] + r.counts[Failed] == IdCount(items))
            && (dryRun ==> r.state == t && r.counts[Failed] == 0)
            && (SlugsDistinct(t.events) ==> SlugsDistinct(r.state.events))
    decreases |items|
  {
    if items != [] {
      var v := VisitSpec(t, items[0], country, dryRun, now);
      VisitSpecFacts(t, items[0], country, dryRun, now);
      if v.abort.None? {
        RunSpecFacts(v.state, items[1..], country, dryRun, now);
      }
    }
  }

  /** The record's visit, as the loop body runs it. */
  method Visit(db: Store, it: TmItem, country: string, dryRun: bool, now: int)
    returns (counts: Tally, abort: Option<string>)
    modifies db
    ensures Visited(db.State(), counts, abort) == VisitSpec(old(db.State()), it, country, dryRun, now)
    ensures old(SlugsDistinct(db.events)) ==> SlugsDistinct(db.events)
    ensures abort.None? <==> DateOk(it)
    ensures abort.None? ==> counts[Processed] + counts[Failed] == (if HasId(it) then 1 else 0)
    ensures dryRun ==> unchanged(db) && counts[Failed] == 0
    ensures !HasId(it) ==> unchanged(db) && counts == multiset{}
  {
    counts, abort := multiset{}, None;
    if !HasId(it) {
      return;
    }
    var starts := ParseDtUtc(it.dateTime);
    if starts.Err? {
      abort := Some(starts.error);
      return;
    }
    if dryRun {
      counts := multiset{Processed};
      return;
    }
    ghost var t := db.State();
    var f := Read(it, country);
    var ok, slug;
    counts, ok, slug := ImportOne(db, it, country, starts.value, now);
    FirstFreeUnique(SlugBase(f.seed), OtherSlugs(t.events, f.hash), slug, FirstFreeSlug(SlugBase(f.seed), OtherSlugs(t.events, f.hash)));
    ImportCountsOnce(t, f, starts.value, now, slug);
    if SlugsDistinct(t.events) {
      ImportKeepsSlugsDistinct(t, f, starts.value, now, slug);
    }
  }

  /** The loop of `handle` for a normalised country: the records considered
      are walked in order until one stops the run. */
  method Run(db: Store, items: seq<TmItem>, dryRun: bool, limit: int, country: string, now: int)
    returns (sum: Tally, abort: Option<string>)
    modifies db
    ensures Visited(db.State(), sum, abort) == RunSpec(old(db.State()), Considered(items, limit), country, dryRun, now)
    ensures old(SlugsDistinct(db.events)) ==> SlugsDistinct(db.events)
    ensures dryRun ==> unchanged(db) && sum[Failed] == 0
    ensures abort.None? ==> sum[Processed] + sum[Failed] == IdCount(Considered(items, limit))
    ensures abort.None? <==> DatesParse(Considered(items, limit))
  {
    var considered := Considered(items, limit);
    ghost var t0 := db.State();
    sum, abort := multiset{}, None;
    var i := 0;
    while i < |considered|
      invariant 0 <= i <= |considered|
      invariant RunSpec(t0, considered, country, dryRun, now) == After(sum, RunSpec(db.State(), considered[i..], country, dryRun, now))
      invariant dryRun ==> unchanged(db)
      invariant abort.None?
    {
      RunSpecAt(db.State(), considered, i, country, dryRun, now);
      var c;
      c, abort := Visit(db, considered[i], country, dryRun, now);
      if abort.Some? {
        assert sum + c == sum;
        assert Visited(db.State(), sum, abort) == RunSpec(t0, considered, country, dryRun, now);
        RunSpecFacts(t0, considered, country, dryRun, now);
        return;
      }
      AfterAfter(sum, c, RunSpec(db.State(), considered[i + 1..], country, dryRun, now));
      sum := sum + c;
      i := i + 1;
    }
    assert sum + multiset{} == sum;
    RunSpecFacts(t0, considered, country, dryRun, now);
  }

  /** `handle`: the country option is normalised and the records are
      imported; the summary of the counters is written either way. */
  method Handle(db: Store, items: seq<TmItem>, dryRun: bool, limit: int, countryOpt: Option<string>, now: int)
    returns (sum: Tally, abort: Option<string>)
    modifies db
    ensures Visited(db.State(), sum, abort) == RunSpec(old(db.State()), Considered(items, limit), CountryOption(countryOpt), dryRun, now)
    ensures old(SlugsDistinct(db.events)) ==> SlugsDistinct(db.events)
    ensures dryRun ==> unchanged(db) && sum[Failed] == 0
    ensures abort.None? ==> sum[Processed] + sum[Failed] == IdCount(Considered(items, limit))
    ensures abort.None? <==> DatesParse(Considered(items, limit))
  {
    sum, abort := Run(db, items, dryRun, limit, CountryOption(countryOpt), now);
  }
}
