/** The first portal scrub (`scrub_portals`): for the "ticketmaster"
    source it keeps up to `limit` events of the Discovery stream and, for
    each, upserts the venue, the event (with a collision-free slug), the
    platform mapping and, when the record has a `dateTime`, a performance.
    Unlike the streaming import, the mapping is rewritten on every visit
    (there is no change detection), a record without `dateTime` gets no
    performance, and nothing guards a record: an error stops the command.
    A record is read through the same `TmItem` as the streaming import. */
module ScrubPortals {
  import opened Wrappers
  import opened Text
  import opened Json
  import opened Calendar
  import opened Slugs
  import opened Catalog
  import T = ScrubTmNew

  const Platform := "ticketmaster"

  /** `(options["source"] or "").lower().strip()`. */
  function SourceOption(s: Option<string>): string
  {
    Strip(Lower(OrElse(s, "")))
  }

  /** The counters of the final summary. */
  datatype Counter = CreatedEvt | CreatedPerf | CreatedMap | SkippedPerf

  type Tally = multiset<Counter>

  // ---------------------------------------------------------------------
  // Collecting the stream

  /** The events the collection loop keeps: all of them when `limit` is 0;
      otherwise the loop stops right after appending the `limit`-th, and as
      the first index is 1 a negative limit stops it after the first. */
  function Kept(stream: seq<T.TmItem>, limit: int): (r: seq<T.TmItem>)
    ensures |r| <= |stream| && r == stream[..|r|]
    ensures limit == 0 ==> r == stream
    ensures limit > 0 ==> |r| == (if limit < |stream| then limit else |stream|)
    ensures limit < 0 ==> |r| == (if stream == [] then 0 else 1)
  {
    if limit == 0 then stream
    else
      var n := if limit < 0 then 1 else limit;
      stream[..if n < |stream| then n else |stream|]
  }

  /** The collection loop, appending each event before testing the limit. */
  method Collect(stream: seq<T.TmItem>, limit: int) returns (events: seq<T.TmItem>)
    ensures events == Kept(stream, limit)
  {
    events := [];
    var i := 0;
    while i < |stream|
      invariant 0 <= i <= |stream| && events == stream[..i]
      invariant limit != 0 && i > 0 ==> i < limit
    {
      events := events + [stream[i]];
      i := i + 1;
      if limit != 0 && i >= limit {
        assert i == (if limit < 0 then 1 else limit);
        return;
      }
    }
  }

  /** A negative limit keeps one event here, where the streaming import
      considers none. */
  lemma NegativeLimitKeepsOne(stream: seq<T.TmItem>, limit: int)
    requires limit < 0 && stream != []
    ensures Kept(stream, limit) == [stream[0]]
    ensures T.Considered(stream, limit) == []
  {
  }

  // ---------------------------------------------------------------------
  // One record

  /** `str(tm_id)` in the canonical hash: a missing id is "None". */
  function IdText(id: Option<string>): (r: string)
    ensures id.Some? ==> r == id.value
  {
    if id.Some? then id.value else "None"
  }

  /** What one record contributes, read with the command's fallbacks: a
      missing name, url, city or country is "", a missing venue name
      "Sconosciuto"; the mapping checksum is taken over `str(e)`. */
  datatype Fields = Fields(mapKey: MapKey, name: string, url: string,
                           venueName: string, city: string, cityNorm: string, country: string, venueKey: string,
                           address: Result<Json>, timezone: Json,
                           hash: string, norm: string, seed: string, raw: Json, checksum: string)

  function Read(it: T.TmItem): (f: Fields)
    ensures f.mapKey == MapKey(Platform, IdText(it.id)) && f.hash == EventHash(Platform, IdText(it.id))
    ensures f.venueName == OrElse(it.venue.name, "Sconosciuto") && f.venueName != ""
    ensures f.city == OrElse(it.venue.city, "") && f.country == OrElse(it.venue.countryCode, "")
    ensures f.venueKey == VenueKey(f.venueName, f.city, f.country)
    ensures f.name == OrElse(it.name, "") && f.norm == EventNorm(f.name)
    ensures f.seed == SlugSeed(f.norm, OrElse(it.id, ""))
    ensures f.address == T.AddressLine(it.venue.address)
    ensures f.raw == it.raw && f.checksum == PyStr(it.raw)
  {
    var vname, city, cc := OrElse(it.venue.name, "Sconosciuto"), OrElse(it.venue.city, ""), OrElse(it.venue.countryCode, "");
    var name := OrElse(it.name, "");
    var norm := EventNorm(name);
    Fields(MapKey(Platform, IdText(it.id)), name, OrElse(it.url, ""),
           vname, city, DjangoSlugify(city), cc, VenueKey(vname, city, cc),
           T.AddressLine(it.venue.address), it.venue.timezone,
           EventHash(Platform, IdText(it.id)), norm, SlugSeed(norm, OrElse(it.id, "")),
           it.raw, PyStr(it.raw))
  }

  /** A record with an id names the same event and the same mapping here
      as in the streaming import, so either command finds what the other
      stored. */
  lemma SameRowsAsStreamingImport(it: T.TmItem, country: string)
    requires T.HasId(it)
    ensures Read(it).hash == T.Read(it, country).hash
    ensures Read(it).mapKey == MapKey(T.Platform, T.Read(it, country).id)
    ensures Read(it).seed == T.Read(it, country).seed
  {
  }

  /** The mapping write: a new mapping is created; an existing one is
      rewritten whatever its checksum, pointing at the record's event and
      keeping its url only when the new one is empty. */
  function WriteMapping(prev: Option<Mapping>, event: string, url: string, now: int, raw: Json, checksum: string): (r: Mapping)
    ensures r.event == event && r.lastScan == now && r.snapshot == raw && r.checksum == checksum
    ensures r.url == (if url == "" && prev.Some? then prev.value.url else url)
  {
    match prev
    case None => Mapping(event, url, now, raw, checksum)
    case Some(m) => Mapping(event, if url != "" then url else m.url, now, raw, checksum)
  }

  /** Where the change-detecting upsert rewrites a mapping, this write
      stores the same; where that upsert finds the checksum unchanged and
      only moves the scan time, this write still replaces the event,
      snapshot and url. */
  lemma WriteIgnoresChecksum(prev: Option<Mapping>, event: string, url: string, now: int, raw: Json, checksum: string)
    ensures var u := UpsertMapping(prev, event, url, now, raw, checksum);
            u.1 != MapUnchanged ==> WriteMapping(prev, event, url, now, raw, checksum) == u.0
    ensures var u := UpsertMapping(prev, event, url, now, raw, checksum);
            u.1 == MapUnchanged && prev.value.event != event ==>
              WriteMapping(prev, event, url, now, raw, checksum) != u.0
  {
  }

  /** The venue, event and mapping rows of a record, staged. */
  function Rows(t: Tables, f: Fields, now: int, slug: string): (r: Tables)
    requires f.address.Ok? && f.venueName != ""
    ensures r.perfs == t.perfs
    ensures f.venueKey in r.venues && r.venues == t.venues[f.venueKey := r.venues[f.venueKey]] && r.venues[f.venueKey].name == f.venueName
    ensures f.venueKey in t.venues ==> r.venues[f.venueKey] == RefreshVenue(t.venues[f.venueKey], f.venueName, f.city, f.country)
    ensures f.hash in r.events && r.events == t.events[f.hash := r.events[f.hash]] && r.events[f.hash].slug == slug
    ensures f.hash in t.events ==> r.events[f.hash] == RefreshEvent(t.events[f.hash], f.name, f.norm, slug)
    ensures f.mapKey in r.mappings && r.mappings == t.mappings[f.mapKey := r.mappings[f.mapKey]]
    ensures r.mappings[f.mapKey] == WriteMapping(if f.mapKey in t.mappings then Some(t.mappings[f.mapKey]) else None,
                                                f.hash, f.url, now, f.raw, f.checksum)
  {
    var venue := if f.venueKey in t.venues then RefreshVenue(t.venues[f.venueKey], f.venueName, f.city, f.country)
                 else NewVenue(f.venueName, f.address.value, f.city, f.cityNorm, f.country, f.timezone);
    var ev := if f.hash in t.events then RefreshEvent(t.events[f.hash], f.name, f.norm, slug)
              else NewEvent(slug, f.name, f.norm, Platform);
    var m := WriteMapping(if f.mapKey in t.mappings then Some(t.mappings[f.mapKey]) else None,
                          f.hash, f.url, now, f.raw, f.checksum);
    Tables(t.venues[f.venueKey := venue], t.events[f.hash := ev], t.mappings[f.mapKey := m], t.perfs)
  }

  /** What importing one record does; `ok` is false when it raises, which
      rolls the record back and stops the command. */
  datatype Step = Step(state: Tables, counts: Tally, ok: bool)

  function ImportRecord(t: Tables, f: Fields, starts: Option<DateTime>, now: int, slug: string): (r: Step)
    requires f.venueName != ""
    ensures !r.ok <==> f.address.Err?
    ensures !r.ok ==> r.state == t
    ensures r.ok ==> r.state.(perfs := t.perfs) == Rows(t, f, now, slug)
    ensures r.counts[CreatedEvt] == (if r.ok && f.hash !in t.events then 1 else 0)
    ensures r.counts[CreatedMap] == (if r.ok && f.mapKey !in t.mappings then 1 else 0)
    ensures r.counts[SkippedPerf] == (if r.ok && starts.None? then 1 else 0)
    ensures starts.None? ==> r.state.perfs == t.perfs && r.counts[CreatedPerf] == 0
    ensures r.ok && starts.Some? ==>
              var k := PerfKey(f.hash, f.venueKey, starts.value);
              r.state.perfs == (if k in t.perfs then t.perfs else t.perfs[k := Perf("ONSALE", "sconosciuta", "EUR")])
              && r.counts[CreatedPerf] == (if k in t.perfs then 0 else 1)
  {
    if f.address.Err? then Step(t, multiset{}, false)
    else
      var c := (if f.hash in t.events then multiset{} else multiset{CreatedEvt})
             + (if f.mapKey in t.mappings then multiset{} else multiset{CreatedMap});
      var t1 := Rows(t, f, now, slug);
      if starts.None? then Step(t1, c + multiset{SkippedPerf}, true)
      else
        var k := PerfKey(f.hash, f.venueKey, starts.value);
        if k in t1.perfs then Step(t1, c, true)
        else Step(t1.(perfs := t1.perfs[k := Perf("ONSALE", "sconosciuta", "EUR")]), c + multiset{CreatedPerf}, true)
  }

  /** A committed record leaves its mapping pointing at its event with
      the scan time and the checksum of this payload, whatever was stored
      before. */
  lemma ImportMapsRecord(t: Tables, f: Fields, starts: Option<DateTime>, now: int, slug: string)
    requires f.venueName != ""
    ensures var r := ImportRecord(t, f, starts, now, slug);
            r.ok ==> f.mapKey in r.state.mappings && f.hash in r.state.events
                     && r.state.mappings[f.mapKey].event == f.hash
                     && r.state.mappings[f.mapKey].lastScan == now
                     && r.state.mappings[f.mapKey].checksum == f.checksum
                     && r.state.events[f.hash].slug == slug
                     && r.state.mappings.Keys == t.mappings.Keys + {f.mapKey}
  {
    var r := ImportRecord(t, f, starts, now, slug);
    if r.ok {
      assert r.state.mappings == Rows(t, f, now, slug).mappings;
      assert r.state.events == Rows(t, f, now, slug).events;
    }
  }

  /** A committed record whose slug is the first free one keeps the event
      slugs distinct. */
  lemma ImportKeepsSlugsDistinct(t: Tables, f: Fields, starts: Option<DateTime>, now: int, slug: string)
    requires f.venueName != ""
    requires SlugsDistinct(t.events)
    requires IsFirstFree(SlugBase(f.seed), OtherSlugs(t.events, f.hash), slug)
    ensures SlugsDistinct(ImportRecord(t, f, starts, now, slug).state.events)
  {
    var r := ImportRecord(t, f, starts, now, slug);
    if r.ok {
      assert r.state.events == Rows(t, f, now, slug).events;
      StoreEventKeepsSlugsDistinct(t.events, f.hash, r.state.events[f.hash]);
    }
  }

  /** A record without `dateTime` still stores its venue, event and
      mapping, adds no performance and is counted as skipped. */
  lemma NoDateTimeSkipsPerformance(t: Tables, f: Fields, now: int, slug: string)
    requires f.venueName != "" && f.address.Ok?
    ensures var r := ImportRecord(t, f, None, now, slug);
            r.ok && r.state.perfs == t.perfs && r.counts[CreatedPerf] == 0
            && r.counts[SkippedPerf] == 1
            && f.venueKey in r.state.venues && f.hash in r.state.events && f.mapKey in r.state.mappings
  {
    var r := ImportRecord(t, f, None, now, slug);
    assert r.state == Rows(t, f, now, slug);
  }

  /** A second visit of the same record, with the slug the first left it,
      creates nothing and changes nothing but the mapping's scan time: the
      rewrite without change detection stores what was already there. */
  lemma RescanOnlyMovesScanTime(t: Tables, f: Fields, starts: Option<DateTime>, t1: int, t2: int, slug: string)
    requires f.venueName != ""
    requires ImportRecord(t, f, starts, t1, slug).ok
    ensures var s1 := ImportRecord(t, f, starts, t1, slug).state;
            var r2 := ImportRecord(s1, f, starts, t2, slug);
            r2.ok && r2.counts[CreatedEvt] == 0 && r2.counts[CreatedMap] == 0 && r2.counts[CreatedPerf] == 0
            && r2.state == s1.(mappings := s1.mappings[f.mapKey := s1.mappings[f.mapKey].(lastScan := t2)])
  {
    var s1 := ImportRecord(t, f, starts, t1, slug).state;
    var r2 := ImportRecord(s1, f, starts, t2, slug);
    ImportMapsRecord(t, f, starts, t1, slug);
    var v1 := s1.venues[f.venueKey];
    RefreshVenueIdempotent(if f.venueKey in t.venues then t.venues[f.venueKey] else v1, f.venueName, f.city, f.country);
    assert RefreshVenue(v1, f.venueName, f.city, f.country) == v1;
    var e1 := s1.events[f.hash];
    assert RefreshEvent(e1, f.name, f.norm, slug) == e1;
    assert r2.state.venues == s1.venues;
    assert r2.state.events == s1.events;
    if starts.Some? {
      assert PerfKey(f.hash, f.venueKey, starts.value) in s1.perfs;
    }
  }

  // ---------------------------------------------------------------------
  // The command

  /** A record that does not raise: its `dateTime` is absent, empty or
      parses, and, outside a dry run, its venue address is absent or a
      dictionary. */
  predicate RecordOk(it: T.TmItem, dryRun: bool)
  {
    ParseDtUtc(it.dateTime).Ok? && (dryRun || T.AddressLine(it.venue.address).Ok?)
  }

  /** One record inside its atomic block: the slug for a new event is
      searched for first, the one excluding the event itself when it
      exists, and the rows are committed only when nothing raised. */
  method ImportOne(db: Store, it: T.TmItem, starts: Option<DateTime>, now: int)
    returns (counts: Tally, ok: bool, slug: string)
    modifies db
    ensures IsFirstFree(SlugBase(Read(it).seed), OtherSlugs(old(db.events), Read(it).hash), slug)
    ensures Step(db.State(), counts, ok) == ImportRecord(old(db.State()), Read(it), starts, now, slug)
    ensures !ok ==> unchanged(db)
  {
    var t := db.State();
    var f := Read(it);
    var onCreate := SlugFor(db, f.seed, None);
    if f.hash in db.events {
      slug := SlugFor(db, f.seed, Some(f.hash));
    } else {
      slug := onCreate;
    }
    var r := ImportRecord(t, f, starts, now, slug);
    counts, ok := r.counts, r.ok;
    if ok {
      db.Commit(r.state);
    }
  }

  /** The import of one record, with what the loop needs to know of it:
      the slugs stay distinct, a rolled-back record changes nothing, and a
      committed one has its mapping stored and counts a skipped
      performance when it has no start. */
  method ImportChecked(db: Store, it: T.TmItem, starts: Option<DateTime>, now: int) returns (r: (bool, Tally))
    modifies db
    ensures old(SlugsDistinct(db.events)) ==> SlugsDistinct(db.events)
    ensures r.0 <==> T.AddressLine(it.venue.address).Ok?
    ensures !r.0 ==> unchanged(db)
    ensures old(db.mappings).Keys <= db.mappings.Keys
    ensures r.0 ==> MapKey(Platform, IdText(it.id)) in db.mappings
                    && r.1[SkippedPerf] == (if starts.None? then 1 else 0)
  {
    ghost var t := db.State();
    var f := Read(it);
    var counts, ok, slug := ImportOne(db, it, starts, now);
    if SlugsDistinct(t.events) {
      ImportKeepsSlugsDistinct(t, f, starts, now, slug);
    }
    ImportMapsRecord(t, f, starts, now, slug);
    r := (ok, counts);
  }

  /** What one record of the loop leaves: the tables, the counters it
      bumped, and the error that stops the command, if any. */
  datatype Visited = Visited(state: Tables, counts: Tally, abort: Option<string>)

  /** One record of the loop: its `dateTime` is parsed first, so a bad
      one stops the command even in a dry run; a dry run writes nothing;
      otherwise the record is imported with the first free slug, and an
      error rolls it back and stops the command. */
  ghost function VisitSpec(t: Tables, it: T.TmItem, dryRun: bool, now: int): Visited
  {
    match ParseDtUtc(it.dateTime)
    case Err(e) => Visited(t, multiset{}, Some(e))
    case Ok(starts) =>
      if dryRun then Visited(t, multiset{}, None)
      else
        var f := Read(it);
        var r := ImportRecord(t, f, starts, now, FirstFreeSlug(SlugBase(f.seed), OtherSlugs(t.events, f.hash)));
        if r.ok then Visited(r.state, r.counts, None)
        else Visited(t, multiset{}, Some(T.AddressLine(it.venue.address).error))
  }

  /** The counters `sum` added in front of what follows. */
  function After(sum: Tally, v: Visited): Visited
  {
    Visited(v.state, sum + v.counts, v.abort)
  }

  /** The loop over `events`: each record visited in turn from the tables
      the one before left, until one raises. */
  ghost function RunSpec(t: Tables, events: seq<T.TmItem>, dryRun: bool, now: int): Visited
    decreases |events|
  {
    if events == [] then Visited(t, multiset{}, None)
    else
      var v := VisitSpec(t, events[0], dryRun, now);
      if v.abort.Some? then v else After(v.counts, RunSpec(v.state, events[1..], dryRun, now))
  }

  lemma RunSpecAt(t: Tables, events: seq<T.TmItem>, i: nat, dryRun: bool, now: int)
    requires i < |events|
    ensures var v := VisitSpec(t, events[i], dryRun, now);
            RunSpec(t, events[i..], dryRun, now)
              == if v.abort.Some? then v else After(v.counts, RunSpec(v.state, events[i + 1..], dryRun, now))
  {
    assert events[i..][0] == events[i] && events[i..][1..] == events[i + 1..];
  }

  lemma AfterAfter(a: Tally, b: Tally, v: Visited)
    ensures After(a, After(b, v)) == After(a + b, v)
  {
    assert a + (b + v.counts) == (a + b) + v.counts;
  }

  /** The record has no start: its `dateTime` is absent or empty. */
  predicate NoStart(it: T.TmItem)
  {
    it.dateTime.None? || it.dateTime.value == ""
  }

  /** One visit raises exactly when the record is not `RecordOk`, and then
      changes and counts nothing; a dry run writes and counts nothing; the
      slugs stay distinct; mappings are never removed, and an imported
      record is mapped and counts a skipped performance when it has no
      start. */
  lemma VisitSpecFacts(t: Tables, it: T.TmItem, dryRun: bool, now: int)
    ensures var v := VisitSpec(t, it, dryRun, now);
            (v.abort.None? <==> RecordOk(it, dryRun))
            && (v.abort.Some? || dryRun ==> v.state == t && v.counts == multiset{})
            && (SlugsDistinct(t.events) ==> SlugsDistinct(v.state.events))
            && v.state.mappings.Keys >= t.mappings.Keys
            && (!dryRun && v.abort.None? ==>
                  MapKey(Platform, IdText(it.id)) in v.state.mappings
                  && v.counts[SkippedPerf] == (if NoStart(it) then 1 else 0))
  {
    var starts := ParseDtUtc(it.dateTime);
    if starts.Ok? && !dryRun {
      var f := Read(it);
      var slug := FirstFreeSlug(SlugBase(f.seed), OtherSlugs(t.events, f.hash));
      ImportMapsRecord(t, f, starts.value, now, slug);
      if SlugsDistinct(t.events) {
        ImportKeepsSlugsDistinct(t, f, starts.value, now, slug);
      }
      assert starts.value.None? <==> NoStart(it);
    }
  }

  /** The record's visit, as the loop body runs it. */
  method Visit(db: Store, it: T.TmItem, dryRun: bool, now: int)
    returns (counts: Tally, abort: Option<string>)
    modifies db
    ensures Visited(db.State(), counts, abort) == VisitSpec(old(db.State()), it, dryRun, now)
    ensures old(SlugsDistinct(db.events)) ==> SlugsDistinct(db.events)
    ensures abort.None? <==> RecordOk(it, dryRun)
    ensures dryRun || abort.Some? ==> unchanged(db) && counts == multiset{}
    ensures old(db.mappings).Keys <= db.mappings.Keys
    ensures !dryRun && abort.None? ==>
              MapKey(Platform, IdText(it.id)) in db.mappings
              && counts[SkippedPerf] == (if NoStart(it) then 1 else 0)
  {
    VisitSpecFacts(db.State(), it, dryRun, now);
    counts, abort := multiset{}, None;
    var starts := ParseDtUtc(it.dateTime);
    if starts.Err? {
      abort := Some(starts.error);
      return;
    }
    if dryRun {
      return;
    }
    ghost var t := db.State();
    var f := Read(it);
    var c, ok, slug := ImportOne(db, it, starts.value, now);
    FirstFreeUnique(SlugBase(f.seed), OtherSlugs(t.events, f.hash), slug, FirstFreeSlug(SlugBase(f.seed), OtherSlugs(t.events, f.hash)));
    if ok {
      counts := c;
    } else {
      abort := Some(T.AddressLine(it.venue.address).error);
    }
  }

  /** No record of `events` raises. */
  predicate RecordsOk(events: seq<T.TmItem>, dryRun: bool)
  {
    events == [] || (RecordOk(events[0], dryRun) && RecordsOk(events[1..], dryRun))
  }

  lemma {:induction false} RecordsOkAll(events: seq<T.TmItem>, dryRun: bool)
    ensures RecordsOk(events, dryRun) <==> forall k :: 0 <= k < |events| ==> RecordOk(events[k], dryRun)
  {
    if events != [] {
      var p := events[1..];
      RecordsOkAll(p, dryRun);
      if RecordOk(events[0], dryRun) && RecordsOk(p, dryRun) {
        forall k | 0 < k < |events| ensures RecordOk(events[k], dryRun) {
          assert events[k] == p[k - 1];
        }
      }
      if forall k :: 0 <= k < |events| ==> RecordOk(events[k], dryRun) {
        forall k | 0 <= k < |p| ensures RecordOk(p[k], dryRun) {
          assert p[k] == events[k + 1];
        }
      }
    }
  }

  /** A record that raises stops the command. */
  lemma RecordStops(events: seq<T.TmItem>, i: nat, dryRun: bool)
    requires i < |events| && !RecordOk(events[i], dryRun)
    ensures !RecordsOk(events, dryRun)
  {
    RecordsOkAll(events, dryRun);
  }

  /** The mapping keys of `events`. */
  function MapKeysOf(events: seq<T.TmItem>): set<MapKey>
  {
    if events == [] then {}
    else {MapKey(Platform, IdText(events[0].id))} + MapKeysOf(events[1..])
  }

  lemma {:induction false} MapKeysOfAll(events: seq<T.TmItem>)
    ensures forall k :: 0 <= k < |events| ==> MapKey(Platform, IdText(events[k].id)) in MapKeysOf(events)
  {
    if events != [] {
      var p := events[1..];
      MapKeysOfAll(p);
      forall k | 0 < k < |events| ensures MapKey(Platform, IdText(events[k].id)) in MapKeysOf(events) {
        assert events[k] == p[k - 1];
      }
    }
  }

  /** The records without a start, each counted as a skipped performance. */
  function NoStartCount(events: seq<T.TmItem>): (r: nat)
    ensures r <= |events|
  {
    if events == [] then 0
    else (if NoStart(events[0]) then 1 else 0) + NoStartCount(events[1..])
  }

  /** The run raises exactly when some record is not `RecordOk`. */
  lemma {:induction false} RunStopsIff(t: Tables, events: seq<T.TmItem>, dryRun: bool, now: int)
    ensures RunSpec(t, events, dryRun, now).abort.None? <==> RecordsOk(events, dryRun)
    decreases |events|
  {
    if events != [] {
      var v := VisitSpec(t, events[0], dryRun, now);
      VisitSpecFacts(t, events[0], dryRun, now);
      if v.abort.None? {
        RunStopsIff(v.state, events[1..], dryRun, now);
      }
    }
  }

  /** A dry run writes and counts nothing. */
  lemma {:induction false} RunDry(t: Tables, events: seq<T.TmItem>, now: int)
    ensures RunSpec(t, events, true, now) == Visited(t, multiset{}, RunSpec(t, events, true, now).abort)
    decreases |events|
  {
    if events != [] {
      var v := VisitSpec(t, events[0], true, now);
      VisitSpecFacts(t, events[0], true, now);
      if v.abort.None? {
        RunDry(t, events[1..], now);
        assert v.counts + multiset{} == v.counts;
      }
    }
  }

  /** The event slugs stay distinct. */
  lemma {:induction false} RunSlugs(t: Tables, events: seq<T.TmItem>, dryRun: bool, now: int)
    requires SlugsDistinct(t.events)
    ensures SlugsDistinct(RunSpec(t, events, dryRun, now).state.events)
    decreases |events|
  {
    if events != [] {
      var v := VisitSpec(t, events[0], dryRun, now);
      VisitSpecFacts(t, events[0], dryRun, now);
      if v.abort.None? {
        RunSlugs(v.state, events[1..], dryRun, now);
      }
    }
  }

  /** Mappings are never removed. */
  lemma {:induction false} RunKeepsMappings(t: Tables, events: seq<T.TmItem>, dryRun: bool, now: int)
    ensures RunSpec(t, events, dryRun, now).state.mappings.Keys >= t.mappings.Keys
    decreases |events|
  {
    if events != [] {
      var v := VisitSpec(t, events[0], dryRun, now);
      VisitSpecFacts(t, events[0], dryRun, now);
      if v.abort.None? {
        RunKeepsMappings(v.state, events[1..], dryRun, now);
      }
    }
  }

  /** A run that is not dry and not stopped maps every record. */
  lemma {:induction false} RunMapsAll(t: Tables, events: seq<T.TmItem>, now: int)
    ensures var r := RunSpec(t, events, false, now);
            r.abort.None? ==> MapKeysOf(events) <= r.state.mappings.Keys
    decreases |events|
  {
    if events != [] {
      var v := VisitSpec(t, events[0], false, now);
      VisitSpecFacts(t, events[0], false, now);
      if v.abort.None? {
        RunMapsAll(v.state, events[1..], now);
        RunKeepsMappings(v.state, events[1..], false, now);
      }
    }
  }

  /** A visit that is not dry and not stopped counts one skipped
      performance when the record has no start. */
  lemma VisitCountsSkipped(t: Tables, it: T.TmItem, now: int)
    ensures var v := VisitSpec(t, it, false, now);
            v.abort.None? ==> v.counts[SkippedPerf] == (if NoStart(it) then 1 else 0)
  {
    VisitSpecFacts(t, it, false, now);
  }

  /** A run that is not dry and not stopped counts one skipped performance
      per record without a start. */
  lemma {:induction false} RunCountsSkipped(t: Tables, events: seq<T.TmItem>, now: int)
    ensures var r := RunSpec(t, events, false, now);
            r.abort.None? ==> r.counts[SkippedPerf] == NoStartCount(events)
    decreases |events|
  {
    if events == [] {
      assert RunSpec(t, events, false, now) == Visited(t, multiset{}, None);
    } else {
      var v := VisitSpec(t, events[0], false, now);
      VisitCountsSkipped(t, events[0], now);
      if v.abort.None? {
        var rest := RunSpec(v.state, events[1..], false, now);
        RunCountsSkipped(v.state, events[1..], now);
        var r := RunSpec(t, events, false, now);
        assert r == After(v.counts, rest);
        if r.abort.None? {
          assert rest.counts[SkippedPerf] == NoStartCount(events[1..]);
          assert v.counts[SkippedPerf] == (if NoStart(events[0]) then 1 else 0);
          assert r.counts[SkippedPerf] == v.counts[SkippedPerf] + rest.counts[SkippedPerf];
          assert NoStartCount(events) == (if NoStart(events[0]) then 1 else 0) + NoStartCount(events[1..]);
        }
      }
    }
  }

  /** The import loop over the kept events, walked in order until one
      raises. */
  method Run(db: Store, events: seq<T.TmItem>, dryRun: bool, now: int)
    returns (sum: Tally, abort: Option<string>)
    modifies db
    ensures Visited(db.State(), sum, abort) == RunSpec(old(db.State()), events, dryRun, now)
    ensures old(SlugsDistinct(db.events)) ==> SlugsDistinct(db.events)
    ensures abort.None? <==> RecordsOk(events, dryRun)
    ensures dryRun ==> unchanged(db) && sum == multiset{}
    ensures !dryRun && abort.None? ==>
              sum[SkippedPerf] == NoStartCount(events)
              && MapKeysOf(events) <= db.mappings.Keys
  {
    ghost var t0 := db.State();
    sum, abort := multiset{}, None;
    var i := 0;
    while i < |events|
      invariant 0 <= i <= |events|
      invariant RunSpec(t0, events, dryRun, now) == After(sum, RunSpec(db.State(), events[i..], dryRun, now))
      invariant dryRun ==> unchanged(db)
      invariant abort.None?
    {
      RunSpecAt(db.State(), events, i, dryRun, now);
      var c;
      c, abort := Visit(db, events[i], dryRun, now);
      if abort.Some? {
        assert sum + c == sum;
        assert Visited(db.State(), sum, abort) == RunSpec(t0, events, dryRun, now);
        RunFacts(t0, events, dryRun, now);
        return;
      }
      AfterAfter(sum, c, RunSpec(db.State(), events[i + 1..], dryRun, now));
      sum := sum + c;
      i := i + 1;
    }
    assert sum + multiset{} == sum;
    RunFacts(t0, events, dryRun, now);
  }

  lemma RunFacts(t: Tables, events: seq<T.TmItem>, dryRun: bool, now: int)
    ensures var r := RunSpec(t, events, dryRun, now);
            (r.abort.None? <==> RecordsOk(events, dryRun))
            && (dryRun ==> r.state == t && r.counts == multiset{})
            && (SlugsDistinct(t.events) ==> SlugsDistinct(r.state.events))
            && (!dryRun && r.abort.None? ==>
                  MapKeysOf(events) <= r.state.mappings.Keys && r.counts[SkippedPerf] == NoStartCount(events))
  {
    RunStopsIff(t, events, dryRun, now);
    if dryRun {
      RunDry(t, events, now);
    }
    if SlugsDistinct(t.events) {
      RunSlugs(t, events, dryRun, now);
    }
    if !dryRun {
      RunMapsAll(t, events, now);
      RunCountsSkipped(t, events, now);
    }
  }

  /** `handle`: for the "ticketmaster" source the kept events are imported;
      any other source only writes a warning. */
  method Handle(db: Store, sourceOpt: Option<string>, stream: seq<T.TmItem>, dryRun: bool, limit: int, now: int)
    returns (sum: Tally, fetched: nat, abort: Option<string>)
    modifies db
    ensures old(SlugsDistinct(db.events)) ==> SlugsDistinct(db.events)
    ensures SourceOption(sourceOpt) != Platform ==>
              unchanged(db) && sum == multiset{} && fetched == 0 && abort.None?
    ensures SourceOption(sourceOpt) == Platform ==>
              fetched == |Kept(stream, limit)| && (abort.None? <==> RecordsOk(Kept(stream, limit), dryRun))
              && Visited(db.State(), sum, abort) == RunSpec(old(db.State()), Kept(stream, limit), dryRun, now)
    ensures dryRun ==> unchanged(db)
  {
    sum, fetched, abort := multiset{}, 0, None;
    if SourceOption(sourceOpt) != Platform {
      return;
    }
    var events := Collect(stream, limit);
    fetched := |events|;
    sum, abort := Run(db, events, dryRun, now);
  }
}
