/** The Eventbrite import (`scrub_eventbrite`): the records an
    organization's listing yields are upserted as venue, event, performance
    and platform mapping. A record whose stored mapping already carries its
    checksum is skipped, with only the mapping's scan time refreshed. The
    checksum is taken over `str()` of the payload, so it depends on the
    order of the payload's keys. */
module ScrubEventbrite {
  import opened Wrappers
  import opened Text
  import opened Json
  import opened Calendar
  import opened Slugs
  import opened Catalog
  import opened Eventbrite
  import JsonCanon

  const Platform := "eventbrite"

  /** The counters of the final summary. */
  datatype Counter = CreatedEvt | CreatedPerf | CreatedMap | SkippedSameChecksum | UpdatedExisting

  type Tally = multiset<Counter>

  // ---------------------------------------------------------------------
  // Reading a record

  /** `e.get(key) or d` on a value of the record, as text. */
  function TextOr(j: Json, d: string): (r: string)
    ensures !Truthy(j) ==> r == d
    ensures j.JStr? && j.s != "" ==> r == j.s
  {
    if Truthy(j) then PyStr(j) else d
  }

  /** `parse_dt_utc(e.get("starts_at_iso"))`: a falsy value is no start; a
      string is parsed and raises `ValueError` when it is no date-time; any
      other value has no `replace` and raises `AttributeError`. */
  function StartOf(j: Json): (r: Result<Option<DateTime>>)
    ensures !Truthy(j) ==> r == Ok(None)
    ensures j.JStr? && j.s != "" ==> r == ParseDtUtc(Some(j.s))
  {
    if !Truthy(j) then Ok(None)
    else if j.JStr? then ParseDtUtc(Some(j.s))
    else Err("AttributeError")
  }

  /** What one record contributes, with the command's fallbacks. */
  datatype Fields = Fields(id: string, name: string, url: string,
                           venueName: string, city: string, country: string, venueKey: string,
                           norm: string, hash: string, slug: string, raw: Json, checksum: string)

  /** The text whose sha256 is the record's checksum: `str()` of its raw
      payload. */
  function RawChecksum(raw: Json): string
  {
    PyStr(raw)
  }

  function Read(e: EbEvent): (f: Fields)
    ensures f.id == e.externalEventId && f.hash == EventHash(Platform, f.id)
    ensures f.venueName == TextOr(e.venueName, "Sconosciuto") && f.venueName != ""
    ensures f.city == TextOr(e.city, "") && f.country == TextOr(e.country, "")
    ensures f.venueKey == VenueKey(f.venueName, f.city, f.country)
    ensures f.name == TextOr(e.title, "") && f.norm == EventNorm(f.name) && f.slug == SlugSeed(f.norm, f.id)
    ensures f.url == TextOr(e.url, "") && f.raw == e.raw && f.checksum == RawChecksum(e.raw)
  {
    var vname, city, country := TextOr(e.venueName, "Sconosciuto"), TextOr(e.city, ""), TextOr(e.country, "");
    var name := TextOr(e.title, "");
    var norm := EventNorm(name);
    Fields(e.externalEventId, name, TextOr(e.url, ""), vname, city, country, VenueKey(vname, city, country),
           norm, EventHash(Platform, e.externalEventId), SlugSeed(norm, e.externalEventId), e.raw, RawChecksum(e.raw))
  }

  // ---------------------------------------------------------------------
  // The writes of one record

  /** The `update_fields` of the venue save: the fields whose non-empty new
      value differs from the stored one, then "aggiornato_il"; empty when
      nothing differs, and then the venue is not saved. */
  function VenueWrites(v: Venue, name: string, city: string, country: string): (r: seq<string>)
    ensures r == [] <==> RefreshVenue(v, name, city, country) == v
    ensures r != [] ==> r[|r| - 1] == "aggiornato_il"
    ensures "nome" in r <==> name != "" && v.name != name
    ensures "citta" in r <==> city != "" && v.city != Some(city)
    ensures "stato_iso" in r <==> country != "" && v.country != Some(country)
  {
    var a := (if name != "" && v.name != name then ["nome"] else [])
             + (if city != "" && v.city != Some(city) then ["citta"] else [])
             + (if country != "" && v.country != Some(country) then ["stato_iso"] else []);
    if a == [] then [] else a + ["aggiornato_il"]
  }

  /** The event after `get_or_create` and the refresh: a new event gets
      the record's slug; an existing one takes a non-empty new name and a
      non-empty slug. The slug is never checked against other events. */
  function EventRow(events: map<string, Event>, f: Fields): (r: (Event, Tally))
    ensures f.hash !in events ==> r.0 == NewEvent(f.slug, f.name, f.norm, Platform) && r.1 == multiset{CreatedEvt}
    ensures f.hash in events && f.slug != "" ==> r.0.slug == f.slug
    ensures f.hash in events ==> r.1 == (if r.0 != events[f.hash] then multiset{UpdatedExisting} else multiset{})
  {
    if f.hash !in events then (NewEvent(f.slug, f.name, f.norm, Platform), multiset{CreatedEvt})
    else
      var e := events[f.hash];
      var slug := if f.slug != "" then f.slug else e.slug;
      EventChangedIffRefreshDiffers(e, f.name, f.norm, slug);
      (RefreshEvent(e, f.name, f.norm, slug), if EventChanged(e, f.name, slug) then multiset{UpdatedExisting} else multiset{})
  }

  /** The atomic block of a record whose checksum is new: venue, event,
      a performance when the start parsed, then the mapping. */
  function Import(t: Tables, f: Fields, start: Option<DateTime>, now: int): (r: (Tables, Tally))
    ensures var mk := MapKey(Platform, f.id);
            mk in r.0.mappings && r.0.mappings.Keys == t.mappings.Keys + {mk}
            && r.0.mappings[mk].checksum == f.checksum && r.0.mappings[mk].lastScan == now
    ensures var mk := MapKey(Platform, f.id);
            mk in t.mappings && t.mappings[mk].checksum != f.checksum ==>
              r.0.mappings[mk].event == f.hash && r.0.mappings[mk].snapshot == f.raw
    ensures f.venueKey in r.0.venues && f.hash in r.0.events
    ensures start.None? ==> r.0.perfs == t.perfs
    ensures start.Some? ==> r.0.perfs.Keys == t.perfs.Keys + {PerfKey(f.hash, f.venueKey, start.value)}
    ensures r.1[SkippedSameChecksum] == 0
    ensures r.1[CreatedMap] == (if MapKey(Platform, f.id) in t.mappings then 0 else 1)
    ensures r.1[CreatedEvt] == (if f.hash in t.events then 0 else 1)
  {
    var venue := if f.venueKey in t.venues then RefreshVenue(t.venues[f.venueKey], f.venueName, f.city, f.country)
                 else NewVenue(f.venueName, JNull, f.city, DjangoSlugify(f.city), f.country, JNull);
    var ev := EventRow(t.events, f);
    var pk := if start.Some? then Some(PerfKey(f.hash, f.venueKey, start.value)) else None;
    var newPerf := pk.Some? && pk.value !in t.perfs;
    var perfs := if newPerf then t.perfs[pk.value := Perf("ONSALE", "sconosciuta", "EUR")] else t.perfs;
    var mk := MapKey(Platform, f.id);
    var up := UpsertMapping(if mk in t.mappings then Some(t.mappings[mk]) else None, f.hash, f.url, now, f.raw, f.checksum);
    (Tables(t.venues[f.venueKey := venue], t.events[f.hash := ev.0], t.mappings[mk := up.0], perfs),
     ev.1 + (if newPerf then multiset{CreatedPerf} else multiset{}) + (if up.1 == MapCreated then multiset{CreatedMap} else multiset{}))
  }

  /** The stored mapping of a record carries the record's checksum. */
  predicate Unchanged(t: Tables, f: Fields)
  {
    MapKey(Platform, f.id) in t.mappings && t.mappings[MapKey(Platform, f.id)].checksum == f.checksum
  }

  /** What one record (outside a dry run) does: skip an unchanged record,
      touching only its mapping's scan time, or import it. */
  function Outcome(t: Tables, f: Fields, start: Option<DateTime>, now: int): (r: (Tables, Tally))
  {
    if Unchanged(t, f) then
      var mk := MapKey(Platform, f.id);
      (t.(mappings := t.mappings[mk := t.mappings[mk].(lastScan := now)]), multiset{SkippedSameChecksum})
    else Import(t, f, start, now)
  }

  /** An unchanged record is skipped whole: venue, event and performances
      stay as they are, and of its mapping only the scan time moves. */
  lemma UnchangedIsSkipped(t: Tables, f: Fields, start: Option<DateTime>, now: int)
    requires Unchanged(t, f)
    ensures var r := Outcome(t, f, start, now);
            r.1 == multiset{SkippedSameChecksum}
            && r.0.venues == t.venues && r.0.events == t.events && r.0.perfs == t.perfs
            && r.0.mappings.Keys == t.mappings.Keys
            && r.0.mappings[MapKey(Platform, f.id)] == t.mappings[MapKey(Platform, f.id)].(lastScan := now)
            && forall k :: k in t.mappings && k != MapKey(Platform, f.id) ==> r.0.mappings[k] == t.mappings[k]
  {
  }

  /** A record with a new checksum is written whole: its venue, its event,
      its mapping with the new checksum, and a performance exactly when its
      start parsed. Nothing is skipped and the mapping is never taken for
      unchanged. */
  lemma ChangedIsImported(t: Tables, f: Fields, start: Option<DateTime>, now: int)
    requires !Unchanged(t, f)
    ensures var r := Outcome(t, f, start, now);
            var mk := MapKey(Platform, f.id);
            r.1[SkippedSameChecksum] == 0
            && f.venueKey in r.0.venues && f.hash in r.0.events
            && mk in r.0.mappings && r.0.mappings[mk].checksum == f.checksum
            && r.0.mappings[mk].event == f.hash && r.0.mappings[mk].lastScan == now && r.0.mappings[mk].snapshot == f.raw
            && (start.None? ==> r.0.perfs == t.perfs)
            && (start.Some? ==> r.0.perfs.Keys == t.perfs.Keys + {PerfKey(f.hash, f.venueKey, start.value)})
            && (r.1[CreatedMap] == 1 <==> mk !in t.mappings)
            && (r.1[CreatedEvt] == 1 <==> f.hash !in t.events)
  {
    var mk := MapKey(Platform, f.id);
    assert Outcome(t, f, start, now) == Import(t, f, start, now);
    if mk !in t.mappings {
      assert Import(t, f, start, now).0.mappings[mk] == Mapping(f.hash, f.url, now, f.raw, f.checksum);
    }
  }

  /** Importing a record and then seeing it again skips it: change
      detection recognises its own writes. */
  lemma SecondVisitSkips(t: Tables, f: Fields, start: Option<DateTime>, t1: int, t2: int)
    ensures Unchanged(Outcome(t, f, start, t1).0, f)
    ensures Outcome(Outcome(t, f, start, t1).0, f, start, t2).1 == multiset{SkippedSameChecksum}
  {
  }

  /** The event slug comes from the name and the first eight characters of
      the id alone, with no search for a free one: two different events
      can be given the same slug. */
  lemma SlugsCanCollide(name: string, a: string, b: string)
    requires |a| >= 8 && |b| >= 8 && a[..8] == b[..8] && a != b
    ensures EventHash(Platform, a) != EventHash(Platform, b)
    ensures SlugSeed(EventNorm(name), a) == SlugSeed(EventNorm(name), b)
  {
    if EventHash(Platform, a) == EventHash(Platform, b) {
      EventHashInjective(Platform, a, b);
    }
  }

  /** Unlike the canonical checksum of the Ticketmaster import, `str()`
      tells apart two payloads that differ only in key order, so such a
      payload is imported again instead of skipped. */
  lemma ChecksumSeesKeyOrder()
    ensures var x, y := Field("a", JNum(1)), Field("b", JNum(2));
            RawChecksum(JObj([x, y])) != RawChecksum(JObj([y, x]))
            && JsonCanon.Checksum(JObj([x, y])) == JsonCanon.Checksum(JObj([y, x]))
  {
    var x, y := Field("a", JNum(1)), Field("b", JNum(2));
    assert RawChecksum(JObj([x, y]))[2] == 'a';
    assert RawChecksum(JObj([y, x]))[2] == 'b';
    JsonCanon.KeyOrderIrrelevant([x, y], [y, x]);
  }

  // ---------------------------------------------------------------------
  // The command

  /** One record outside a dry run: the existing mapping is looked up by
      platform and id; an unchanged record only has its scan time touched,
      any other is written in one atomic block. */
  method Process(db: Store, f: Fields, start: Option<DateTime>, now: int) returns (counts: Tally)
    modifies db
    ensures (db.State(), counts) == Outcome(old(db.State()), f, start, now)
    ensures db.mappings.Keys >= old(db.mappings.Keys) && MapKey(Platform, f.id) in db.mappings
    ensures db.mappings[MapKey(Platform, f.id)].checksum == f.checksum
  {
    var t := db.State();
    var r := Outcome(t, f, start, now);
    if Unchanged(t, f) {
      UnchangedIsSkipped(t, f, start, now);
    } else {
      ChangedIsImported(t, f, start, now);
    }
    db.Commit(r.0);
    counts := r.1;
  }

  /** What one record of the loop leaves: the tables, the counters it
      bumped, and the error that stops the run, if any. */
  datatype Visited = Visited(state: Tables, counts: Tally, abort: Option<string>)

  /** One record of the loop. Its start is parsed first, outside any
      guard, so a bad date stops the run even in a dry run; a dry run
      writes nothing; otherwise the record is processed. */
  function VisitSpec(t: Tables, e: EbEvent, dryRun: bool, now: int): Visited
  {
    match StartOf(e.startsAt)
    case Err(x) => Visited(t, multiset{}, Some(x))
    case Ok(start) =>
      if dryRun then Visited(t, multiset{}, None)
      else var r := Outcome(t, Read(e), start, now); Visited(r.0, r.1, None)
  }

  /** The counters `sum` added in front of what follows. */
  function After(sum: Tally, v: Visited): Visited
  {
    Visited(v.state, sum + v.counts, v.abort)
  }

  /** The loop over `evs`: each record visited in turn from the tables the
      one before left, until a start fails to parse. */
  function RunSpec(t: Tables, evs: seq<EbEvent>, dryRun: bool, now: int): Visited
    decreases |evs|
  {
    if evs == [] then Visited(t, multiset{}, None)
    else
      var v := VisitSpec(t, evs[0], dryRun, now);
      if v.abort.Some? then v else After(v.counts, RunSpec(v.state, evs[1..], dryRun, now))
  }

  lemma RunSpecAt(t: Tables, evs: seq<EbEvent>, i: nat, dryRun: bool, now: int)
    requires i < |evs|
    ensures var v := VisitSpec(t, evs[i], dryRun, now);
            RunSpec(t, evs[i..], dryRun, now)
              == if v.abort.Some? then v else After(v.counts, RunSpec(v.state, evs[i + 1..], dryRun, now))
  {
    assert evs[i..][0] == evs[i] && evs[i..][1..] == evs[i + 1..];
  }

  lemma AfterAfter(a: Tally, b: Tally, v: Visited)
    ensures After(a, After(b, v)) == After(a + b, v)
  {
    assert a + (b + v.counts) == (a + b) + v.counts;
  }

  /** Every record of `evs` has a start that parses or is absent. */
  predicate StartsParse(evs: seq<EbEvent>)
  {
    forall k :: 0 <= k < |evs| ==> StartOf(evs[k].startsAt).Ok?
  }

  /** A processed record keeps every mapping and maps itself, with the
      checksum of its raw payload. */
  lemma OutcomeMaps(t: Tables, f: Fields, start: Option<DateTime>, now: int)
    ensures var r := Outcome(t, f, start, now).0;
            r.mappings.Keys >= t.mappings.Keys && MapKey(Platform, f.id) in r.mappings
            && r.mappings[MapKey(Platform, f.id)].checksum == f.checksum
  {
    if Unchanged(t, f) {
      UnchangedIsSkipped(t, f, start, now);
    } else {
      ChangedIsImported(t, f, start, now);
    }
  }

  /** One visit stops exactly when the start does not parse, and then
      changes and counts nothing; a dry run writes and counts nothing;
      mappings are never removed, and a processed record is mapped. */
  lemma VisitSpecFacts(t: Tables, e: EbEvent, dryRun: bool, now: int)
    ensures var v := VisitSpec(t, e, dryRun, now);
            (v.abort.None? <==> StartOf(e.startsAt).Ok?)
            && (v.abort.Some? || dryRun ==> v.state == t && v.counts == multiset{})
            && v.state.mappings.Keys >= t.mappings.Keys
            && (!dryRun && v.abort.None? ==> MapKey(Platform, e.externalEventId) in v.state.mappings)
  {
    if StartOf(e.startsAt).Ok? && !dryRun {
      OutcomeMaps(t, Read(e), StartOf(e.startsAt).value, now);
    }
  }

  lemma StartsParseCons(evs: seq<EbEvent>)
    requires evs != []
    ensures StartsParse(evs) <==> StartOf(evs[0].startsAt).Ok? && StartsParse(evs[1..])
  {
    var rest := evs[1..];
    if StartOf(evs[0].startsAt).Ok? && StartsParse(rest) {
      forall k | 0 < k < |evs| ensures StartOf(evs[k].startsAt).Ok? {
        assert evs[k] == rest[k - 1];
      }
    }
  }

  /** The run stops exactly when some start does not parse. */
  lemma {:induction false} RunStopsIff(t: Tables, evs: seq<EbEvent>, dryRun: bool, now: int)
    ensures RunSpec(t, evs, dryRun, now).abort.None? <==> StartsParse(evs)
    decreases |evs|
  {
    if evs != [] {
      var v := VisitSpec(t, evs[0], dryRun, now);
      VisitSpecFacts(t, evs[0], dryRun, now);
      if v.abort.None? {
        var rest := evs[1..];
        RunStopsIff(v.state, rest, dryRun, now);
        StartsParseCons(evs);
      }
    }
  }

  /** A dry run writes and counts nothing. */
  lemma {:induction false} RunDry(t: Tables, evs: seq<EbEvent>, now: int)
    ensures RunSpec(t, evs, true, now) == Visited(t, multiset{}, RunSpec(t, evs, true, now).abort)
    decreases |evs|
  {
    if evs != [] {
      var v := VisitSpec(t, evs[0], true, now);
      VisitSpecFacts(t, evs[0], true, now);
      if v.abort.None? {
        RunDry(t, evs[1..], now);
        assert v.counts + multiset{} == v.counts;
      }
    }
  }

  /** Mappings are never removed, and a run that is not dry and not
      stopped maps every record. */
  lemma {:induction false} RunMaps(t: Tables, evs: seq<EbEvent>, dryRun: bool, now: int)
    ensures var r := RunSpec(t, evs, dryRun, now);
            r.state.mappings.Keys >= t.mappings.Keys
            && (!dryRun && r.abort.None? ==>
                  forall k :: 0 <= k < |evs| ==> MapKey(Platform, evs[k].externalEventId) in r.state.mappings)
    decreases |evs|
  {
    if evs != [] {
      var v := VisitSpec(t, evs[0], dryRun, now);
      VisitSpecFacts(t, evs[0], dryRun, now);
      if v.abort.None? {
        var rest := evs[1..];
        var r := RunSpec(v.state, rest, dryRun, now);
        assert RunSpec(t, evs, dryRun, now).state == r.state;
        assert RunSpec(t, evs, dryRun, now).abort == r.abort;
        RunMaps(v.state, rest, dryRun, now);
        if !dryRun && r.abort.None? {
          forall k | 0 < k < |evs|
            ensures MapKey(Platform, evs[k].externalEventId) in r.state.mappings
          {
            assert evs[k] == rest[k - 1];
          }
        }
      }
    }
  }

  lemma RunSpecFacts(t: Tables, evs: seq<EbEvent>, dryRun: bool, now: int)
    ensures var r := RunSpec(t, evs, dryRun, now);
            (r.abort.None? <==> StartsParse(evs))
            && (dryRun ==> r.state == t && r.counts == multiset{})
            && r.state.mappings.Keys >= t.mappings.Keys
            && (!dryRun && r.abort.None? ==>
                  forall k :: 0 <= k < |evs| ==> MapKey(Platform, evs[k].externalEventId) in r.state.mappings)
  {
    RunStopsIff(t, evs, dryRun, now);
    if dryRun {
      RunDry(t, evs, now);
    }
    RunMaps(t, evs, dryRun, now);
  }

  /** The record's visit, as the loop body runs it. */
  method Visit(db: Store, e: EbEvent, dryRun: bool, now: int) returns (counts: Tally, abort: Option<string>)
    modifies db
    ensures Visited(db.State(), counts, abort) == VisitSpec(old(db.State()), e, dryRun, now)
    ensures abort.None? <==> StartOf(e.startsAt).Ok?
    ensures dryRun || abort.Some? ==> unchanged(db) && counts == multiset{}
    ensures db.mappings.Keys >= old(db.mappings.Keys)
    ensures !dryRun && abort.None? ==> MapKey(Platform, e.externalEventId) in db.mappings
                                       && db.mappings[MapKey(Platform, e.externalEventId)].checksum == RawChecksum(e.raw)
  {
    counts, abort := multiset{}, None;
    var start := StartOf(e.startsAt);
    if start.Err? {
      abort := Some(start.error);
      return;
    }
    if dryRun {
      return;
    }
    counts := Process(db, Read(e), start.value, now);
  }

  /** The loop of `handle` over the records kept: each is visited in
      order until a start fails to parse. */
  method Run(db: Store, evs: seq<EbEvent>, dryRun: bool, now: int) returns (sum: Tally, abort: Option<string>)
    modifies db
    ensures Visited(db.State(), sum, abort) == RunSpec(old(db.State()), evs, dryRun, now)
    ensures abort.None? <==> StartsParse(evs)
    ensures dryRun ==> unchanged(db) && sum == multiset{}
    ensures db.mappings.Keys >= old(db.mappings.Keys)
    ensures !dryRun && abort.None? ==> forall k :: 0 <= k < |evs| ==> MapKey(Platform, evs[k].externalEventId) in db.mappings
  {
    ghost var t0 := db.State();
    sum, abort := multiset{}, None;
    var i := 0;
    while i < |evs|
      invariant 0 <= i <= |evs|
      invariant RunSpec(t0, evs, dryRun, now) == After(sum, RunSpec(db.State(), evs[i..], dryRun, now))
      invariant dryRun ==> unchanged(db)
      invariant abort.None?
    {
      RunSpecAt(db.State(), evs, i, dryRun, now);
      var c;
      c, abort := Visit(db, evs[i], dryRun, now);
      if abort.Some? {
        assert sum + c == sum;
        assert Visited(db.State(), sum, abort) == RunSpec(t0, evs, dryRun, now);
        RunSpecFacts(t0, evs, dryRun, now);
        return;
      }
      AfterAfter(sum, c, RunSpec(db.State(), evs[i + 1..], dryRun, now));
      sum := sum + c;
      i := i + 1;
    }
    assert sum + multiset{} == sum;
    RunSpecFacts(t0, evs, dryRun, now);
  }

  /** `handle`: without a token nothing is fetched or written; otherwise
      the listing is fetched (a failed fetch raises) and cut to `limit`
      records with Python's slice, and the records are imported. */
  method Handle(db: Store, token: Option<string>, fetch: Result<seq<EbEvent>>, dryRun: bool, limit: int, now: int)
    returns (sum: Tally, fetched: bool, abort: Option<string>)
    modifies db
    ensures Strip(OrElse(token, "")) == "" ==> !fetched && abort.None? && sum == multiset{} && unchanged(db)
    ensures Strip(OrElse(token, "")) != "" ==> fetched
    ensures fetched && fetch.Err? ==> abort == Some(fetch.error) && unchanged(db)
    ensures fetched && fetch.Ok? ==> Visited(db.State(), sum, abort) == RunSpec(old(db.State()), Take(fetch.value, limit), dryRun, now)
    ensures fetched && fetch.Ok? ==> (abort.None? <==> StartsParse(Take(fetch.value, limit)))
    ensures dryRun ==> unchanged(db)
  {
    sum, fetched, abort := multiset{}, false, None;
    if Strip(OrElse(token, "")) == "" {
      return;
    }
    fetched := true;
    if fetch.Err? {
      abort := Some(fetch.error);
      return;
    }
    var evs := Take(fetch.value, limit);
    sum, abort := Run(db, evs, dryRun, now);
  }
}
