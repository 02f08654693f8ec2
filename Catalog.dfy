/** The catalogue tables the ingestion commands write: venues (`Luoghi`)
    keyed by their normalised name, events (`Evento`) keyed by their
    canonical hash, platform mappings (`EventoPiattaforma`) keyed by
    platform and external id, and performances keyed by event, venue and
    start. The canonical hash is kept as the text that is hashed. */
module Catalog {
  import opened Wrappers
  import opened Text
  import opened Json
  import opened Calendar
  import opened Slugs

  /** Python's `x or d` on an optional string. */
  function OrElse(x: Option<string>, d: string): (r: string)
    ensures x.Some? && x.value != "" ==> r == x.value
    ensures x.None? || x.value == "" ==> r == d
  {
    if x.Some? && x.value != "" then x.value else d
  }

  datatype Venue = Venue(name: string, address: Json, city: Option<string>, cityNorm: Option<string>,
                         country: Option<string>, timezone: Json)

  datatype Event = Event(slug: string, name: string, normName: string, state: string, source: string)

  datatype Mapping = Mapping(event: string, url: string, lastScan: int, snapshot: Json, checksum: string)

  datatype MapKey = MapKey(platform: string, id: string)

  datatype PerfKey = PerfKey(event: string, venue: string, start: DateTime)

  datatype Perf = Perf(status: string, availability: string, currency: string)

  datatype Tables = Tables(venues: map<string, Venue>, events: map<string, Event>,
                           mappings: map<MapKey, Mapping>, perfs: map<PerfKey, Perf>)

  /** The database the commands write to. */
  class Store {
    var venues: map<string, Venue>
    var events: map<string, Event>
    var mappings: map<MapKey, Mapping>
    var perfs: map<PerfKey, Perf>

    function State(): Tables
      reads this
    {
      Tables(venues, events, mappings, perfs)
    }

    constructor (t: Tables)
      ensures State() == t
    {
      venues, events, mappings, perfs := t.venues, t.events, t.mappings, t.perfs;
    }

    /** Writes a whole new state, as the commit of one atomic block does. */
    method Commit(t: Tables)
      modifies this
      ensures State() == t
    {
      venues, events, mappings, perfs := t.venues, t.events, t.mappings, t.perfs;
    }
  }

  // ---------------------------------------------------------------------
  // Keys

  /** `slugify(f"{venue}-{city}-{country}") or slugify(venue) or "luogo"`. */
  function VenueKey(name: string, city: string, country: string): (r: string)
    ensures r != ""
    ensures DjangoSlugify(name + "-" + city + "-" + country) != "" ==> r == DjangoSlugify(name + "-" + city + "-" + country)
  {
    var a := DjangoSlugify(name + "-" + city + "-" + country);
    if a != "" then a
    else
      var b := DjangoSlugify(name);
      if b != "" then b else "luogo"
  }

  /** `slugify(name) or "evento"`. */
  function EventNorm(name: string): (r: string)
    ensures r != ""
  {
    var a := DjangoSlugify(name);
    if a != "" then a else "evento"
  }

  /** The text whose sha256 is the event's canonical hash: one hash per
      platform and external id. */
  function EventHash(platform: string, id: string): (r: string)
    ensures IsPrefix(platform + ":", r)
  {
    platform + ":" + id
  }

  lemma EventHashInjective(platform: string, a: string, b: string)
    requires EventHash(platform, a) == EventHash(platform, b)
    ensures a == b
  {
    assert a == EventHash(platform, a)[|platform| + 1..];
    assert b == EventHash(platform, b)[|platform| + 1..];
  }

  /** `f"{norm}-{id[:8]}".strip("-")`: the slug an event is given. */
  function SlugSeed(norm: string, id: string): string
  {
    StripAny(norm + "-" + id[..if |id| < 8 then |id| else 8], {'-'})
  }

  // ---------------------------------------------------------------------
  // Rows as the commands build and refresh them

  /** A venue as `get_or_create` makes it: empty city and country stored
      as null, the city stored with its normalised form `cityNorm` when
      present. */
  function NewVenue(name: string, address: Json, city: string, cityNorm: string, country: string, timezone: Json): (r: Venue)
    ensures r.name == name
    ensures r.city.Some? <==> city != ""
    ensures r.cityNorm.Some? <==> city != ""
    ensures r.country.Some? <==> country != ""
  {
    Venue(name, address,
          if city != "" then Some(city) else None,
          if city != "" then Some(cityNorm) else None,
          if country != "" then Some(country) else None,
          timezone)
  }

  /** An existing venue after the refresh: name, city and country take the
      new value when it is non-empty and keep the stored one otherwise. */
  function RefreshVenue(v: Venue, name: string, city: string, country: string): (r: Venue)
    ensures r.address == v.address && r.cityNorm == v.cityNorm && r.timezone == v.timezone
    ensures r.name == (if name != "" then name else v.name)
    ensures r.city == (if city != "" then Some(city) else v.city)
    ensures r.country == (if country != "" then Some(country) else v.country)
  {
    v.(name := if name != "" then name else v.name,
       city := if city != "" then Some(city) else v.city,
       country := if country != "" then Some(country) else v.country)
  }

  /** Refreshing twice with the same values is refreshing once. */
  lemma RefreshVenueIdempotent(v: Venue, name: string, city: string, country: string)
    ensures RefreshVenue(RefreshVenue(v, name, city, country), name, city, country) == RefreshVenue(v, name, city, country)
  {
  }

  /** A just-created venue needs no refresh: the refresh finds nothing to
      change. */
  lemma NewVenueIsFresh(name: string, address: Json, city: string, cityNorm: string, country: string, timezone: Json)
    requires name != ""
    ensures RefreshVenue(NewVenue(name, address, city, cityNorm, country, timezone), name, city, country)
            == NewVenue(name, address, city, cityNorm, country, timezone)
  {
  }

  function NewEvent(slug: string, name: string, norm: string, source: string): Event
  {
    Event(slug, name, norm, "pianificato", source)
  }

  /** An existing event after the refresh: a non-empty new name replaces
      the stored one together with its normalised form; the slug is the
      one given. */
  function RefreshEvent(e: Event, name: string, norm: string, slug: string): (r: Event)
    ensures r.slug == slug && r.state == e.state && r.source == e.source
    ensures name != "" ==> r.name == name
    ensures name == "" ==> r.name == e.name && r.normName == e.normName
  {
    if name != "" && e.name != name then e.(name := name, normName := norm, slug := slug)
    else e.(slug := slug)
  }

  /** Whether the refresh writes the event: its name or its slug differs. */
  predicate EventChanged(e: Event, name: string, slug: string)
  {
    (name != "" && e.name != name) || e.slug != slug
  }

  lemma EventChangedIffRefreshDiffers(e: Event, name: string, norm: string, slug: string)
    ensures EventChanged(e, name, slug) <==> RefreshEvent(e, name, norm, slug) != e
  {
  }

  // ---------------------------------------------------------------------
  // Slugs of the stored events

  function AllSlugs(events: map<string, Event>): set<string>
  {
    set k | k in events :: events[k].slug
  }

  /** The slugs of every event but the one stored under `h`. */
  function OtherSlugs(events: map<string, Event>, h: string): (r: set<string>)
    ensures r <= AllSlugs(events)
    ensures h !in events ==> r == AllSlugs(events)
  {
    set k | k in events && k != h :: events[k].slug
  }

  /** No two events share a slug. The schema does not enforce it (`Evento.slug`
      has no unique constraint); the slug search of the importers keeps it
      when it already holds. */
  ghost predicate SlugsDistinct(events: map<string, Event>)
  {
    forall h1, h2 :: h1 in events && h2 in events && h1 != h2 ==> events[h1].slug != events[h2].slug
  }

  /** Storing an event under `h` with a slug no other event has keeps the
      slugs distinct. */
  lemma StoreEventKeepsSlugsDistinct(events: map<string, Event>, h: string, e: Event)
    requires SlugsDistinct(events)
    requires e.slug !in OtherSlugs(events, h)
    ensures SlugsDistinct(events[h := e])
  {
    var ev := events[h := e];
    forall h1, h2 | h1 in ev && h2 in ev && h1 != h2
      ensures ev[h1].slug != ev[h2].slug
    {
      if h1 == h {
        assert ev[h2].slug in OtherSlugs(events, h);
      } else if h2 == h {
        assert ev[h1].slug in OtherSlugs(events, h);
      }
    }
  }

  /** `unique_slug` over the stored events, leaving out the event stored
      under `exclude` when given. */
  method SlugFor(db: Store, seed: string, exclude: Option<string>) returns (slug: string)
    ensures exclude.None? ==> IsFirstFree(SlugBase(seed), AllSlugs(db.events), slug)
    ensures exclude.Some? ==> IsFirstFree(SlugBase(seed), OtherSlugs(db.events, exclude.value), slug)
  {
    var taken := if exclude.Some? then OtherSlugs(db.events, exclude.value) else AllSlugs(db.events);
    slug := UniqueSlug(seed, taken);
  }

  // ---------------------------------------------------------------------
  // Mappings

  datatype MapCase = MapCreated | MapUnchanged | MapRewritten

  /** The mapping upsert with change detection: a missing mapping is
      created; one whose stored checksum equals the new one only gets its
      scan time; any other is rewritten, keeping its url when the new url is
      empty. */
  function UpsertMapping(prev: Option<Mapping>, event: string, url: string, now: int, raw: Json, checksum: string)
    : (r: (Mapping, MapCase))
    ensures r.0.lastScan == now && r.0.checksum == checksum
    ensures r.1 == MapCreated <==> prev.None?
    ensures r.1 == MapUnchanged <==> prev.Some? && prev.value.checksum == checksum
    ensures r.1 == MapUnchanged ==> r.0 == prev.value.(lastScan := now)
    ensures r.1 != MapUnchanged ==> r.0.event == event && r.0.snapshot == raw
    ensures r.1 == MapRewritten ==> r.0.url == (if url != "" then url else prev.value.url)
  {
    match prev
    case None => (Mapping(event, url, now, raw, checksum), MapCreated)
    case Some(m) =>
      if m.checksum == checksum then (m.(lastScan := now), MapUnchanged)
      else (Mapping(event, if url != "" then url else m.url, now, raw, checksum), MapRewritten)
  }

  /** A second scan of an unchanged payload is recognised as unchanged and
      writes nothing but the scan time. */
  lemma RescanIsUnchanged(prev: Option<Mapping>, event: string, url: string, t1: int, t2: int, raw: Json, checksum: string)
    ensures var m := UpsertMapping(prev, event, url, t1, raw, checksum).0;
            UpsertMapping(Some(m), event, url, t2, raw, checksum) == (m.(lastScan := t2), MapUnchanged)
  {
  }
}
