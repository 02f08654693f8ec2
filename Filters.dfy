/** The search filters of the catalogue API: a free-text filter over
    event, artist, venue and city names, and date bounds typed either as
    the UI's "dd/mm/yyyy" or as ISO "yyyy-mm-dd". A queryset is the
    sequence of rows it would return, a filter the rows it keeps in order;
    `icontains` is substring search after ASCII lower-casing. */
module Filters {
  import opened Wrappers
  import opened Text
  import opened Calendar

  // ---------------------------------------------------------------------
  // _parse_date_any

  /** `strptime`'s `%d`: "01".."31", a digit 1-9, or a space and a digit. */
  function DayToken(t: string): (r: Option<nat>)
    ensures r.Some? ==> 1 <= r.value <= 31
  {
    if |t| == 2 && IsDigit(t[0]) && IsDigit(t[1]) && 1 <= DigitsValue(t) <= 31 then Some(DigitsValue(t))
    else if |t| == 1 && IsDigit(t[0]) && t[0] != '0' then Some(DigitOf(t[0]))
    else if |t| == 2 && t[0] == ' ' && IsDigit(t[1]) && t[1] != '0' then Some(DigitOf(t[1]))
    else None
  }

  /** `strptime`'s `%m`: "01".."12" or a digit 1-9. */
  function MonthToken(t: string): (r: Option<nat>)
    ensures r.Some? ==> 1 <= r.value <= 12
  {
    if |t| == 2 && IsDigit(t[0]) && IsDigit(t[1]) && 1 <= DigitsValue(t) <= 12 then Some(DigitsValue(t))
    else if |t| == 1 && IsDigit(t[0]) && t[0] != '0' then Some(DigitOf(t[0]))
    else None
  }

  /** The fields when `t` is a day of `dl` characters, "/", a month of `ml`
      characters, "/" and four year digits, and nothing else. */
  function DmyAt(t: string, dl: nat, ml: nat): Option<DateTime>
  {
    if |t| != dl + ml + 6 || t[dl] != '/' || t[dl + ml + 1] != '/' then None
    else
      var d, m, y := DayToken(t[..dl]), MonthToken(t[dl + 1..dl + 1 + ml]), t[dl + ml + 2..];
      if d.None? || m.None? || !IsDigits(y) then None
      else Some(DateTime(DigitsValue(y), m.value, d.value, 0, 0, 0))
  }

  /** `datetime.strptime(s, "%d/%m/%Y").date()`, `None` where it raises
      `ValueError`. Day and month tokens hold no "/", so the two slashes
      fix where each field ends. */
  function ParseDmy(t: string): (r: Option<DateTime>)
    ensures r.Some? ==> Valid(r.value) && r.value.hour == 0 && r.value.minute == 0 && r.value.second == 0
  {
    var c := if DmyAt(t, 2, 2).Some? then DmyAt(t, 2, 2)
             else if DmyAt(t, 2, 1).Some? then DmyAt(t, 2, 1)
             else if DmyAt(t, 1, 2).Some? then DmyAt(t, 1, 2)
             else DmyAt(t, 1, 1);
    if c.Some? && Valid(c.value) then c else None
  }

  /** A one- or two-digit field of `parse_date`'s pattern. */
  function ShortField(t: string): Option<nat>
  {
    if 1 <= |t| <= 2 && IsDigits(t) then Some(DigitsValue(t)) else None
  }

  /** Django's `parse_date`: `\d{4}-\d{1,2}-\d{1,2}` matching the whole
      text gives that date, or raises `ValueError` when it is no calendar
      date; other text gives `None`. */
  function ParseDate(t: string): (r: Result<Option<DateTime>>)
    ensures r.Ok? && r.value.Some? ==> Valid(r.value.value)
    ensures r.Err? ==> r.error == "ValueError"
    ensures |t| < 8 || |t| > 10 ==> r == Ok(None)
  {
    if |t| < 8 || |t| > 10 || !IsDigits(t[..4]) || t[4] != '-' then Ok(None)
    else
      var rest := t[5..];
      var ml := if |rest| >= 2 && rest[1] == '-' then 1 else 2;
      if ml >= |rest| || rest[ml] != '-' then Ok(None)
      else
        var m, d := ShortField(rest[..ml]), ShortField(rest[ml + 1..]);
        if m.None? || d.None? then Ok(None)
        else
          var dt := DateTime(DigitsValue(t[..4]), m.value, d.value, 0, 0, 0);
          if Valid(dt) then Ok(Some(dt)) else Err("ValueError")
  }

  /** `_parse_date_any`: blank input after stripping is `None`; then the
      UI form, then Django's ISO form, whose `ValueError` propagates. */
  function ParseDateAny(s: Option<string>): (r: Result<Option<DateTime>>)
    ensures Query(s) == "" ==> r == Ok(None)
    ensures r.Ok? && r.value.Some? ==> Valid(r.value.value)
  {
    var t := Query(s);
    if t == "" then Ok(None)
    else if ParseDmy(t).Some? then Ok(ParseDmy(t))
    else ParseDate(t)
  }

  /** What `strftime("%d/%m/%Y")` writes, the form the UI sends. */
  function DmyText(dt: DateTime): (r: string)
    requires Valid(dt)
    ensures |r| == 10
  {
    Fixed(dt.day, 2) + "/" + Fixed(dt.month, 2) + "/" + Fixed(dt.year, 4)
  }

  /** A date the UI writes is read back as that date. */
  lemma DmyRoundTrip(dt: DateTime)
    requires Valid(dt) && dt.hour == 0 && dt.minute == 0 && dt.second == 0
    ensures ParseDateAny(Some(DmyText(dt))) == Ok(Some(dt))
  {
    var t := DmyText(dt);
    FixedValue(dt.day, 2);
    FixedValue(dt.month, 2);
    FixedValue(dt.year, 4);
    assert t[..2] == Fixed(dt.day, 2);
    assert t[3..5] == Fixed(dt.month, 2);
    assert t[6..] == Fixed(dt.year, 4);
    assert DmyAt(t, 2, 2) == Some(dt);
    assert Strip(t) == t by {
      assert IsDigit(t[0]) && IsDigit(t[9]);
      StripKeeps(t);
    }
  }

  /** "yyyy-mm-dd" with zero-padded fields. */
  function IsoDateText(y: nat, m: nat, d: nat): (r: string)
    ensures |r| == 10
  {
    Fixed(y, 4) + "-" + Fixed(m, 2) + "-" + Fixed(d, 2)
  }

  /** `parse_date` reads the three fields of such a text, and raises when
      they make no calendar date. */
  lemma IsoFields(y: nat, m: nat, d: nat)
    requires y < 10000 && m < 100 && d < 100
    ensures ParseDate(IsoDateText(y, m, d))
            == if Valid(DateTime(y, m, d, 0, 0, 0)) then Ok(Some(DateTime(y, m, d, 0, 0, 0))) else Err("ValueError")
  {
    var t := IsoDateText(y, m, d);
    FixedValue(d, 2);
    FixedValue(m, 2);
    FixedValue(y, 4);
    assert t[..4] == Fixed(y, 4);
    assert t[5..][..2] == Fixed(m, 2);
    assert t[5..][3..] == Fixed(d, 2);
  }

  /** Such a text reaches `parse_date`: it strips to itself and is not in
      the UI form. */
  lemma IsoReachesParseDate(y: nat, m: nat, d: nat)
    ensures ParseDateAny(Some(IsoDateText(y, m, d))) == ParseDate(IsoDateText(y, m, d))
  {
    var t := IsoDateText(y, m, d);
    assert ParseDmy(t).None? by {
      assert t[2] != '/' && t[1] != '/';
      NoDmyWithout(t);
    }
    assert Strip(t) == t by {
      assert IsDigit(t[0]) && IsDigit(t[9]);
      StripKeeps(t);
    }
  }

  /** An ISO date in the "yyyy-mm-dd" form is read back as that date. */
  lemma IsoRoundTrip(dt: DateTime)
    requires Valid(dt) && dt.hour == 0 && dt.minute == 0 && dt.second == 0
    ensures ParseDateAny(Some(IsoDateText(dt.year, dt.month, dt.day))) == Ok(Some(dt))
  {
    IsoFields(dt.year, dt.month, dt.day);
    IsoReachesParseDate(dt.year, dt.month, dt.day);
  }

  /** Fields that make no calendar date, such as "2026-02-30", raise
      `ValueError` out of the filter. */
  lemma InvalidIsoDateRaises(y: nat, m: nat, d: nat)
    requires y < 10000 && m < 100 && d < 100 && !Valid(DateTime(y, m, d, 0, 0, 0))
    ensures ParseDateAny(Some(IsoDateText(y, m, d))) == Err("ValueError")
  {
    IsoFields(y, m, d);
    IsoReachesParseDate(y, m, d);
  }

  /** Without a "/" at index 1 or 2 the text is not in the UI form. */
  lemma NoDmyWithout(t: string)
    requires |t| > 2 && t[1] != '/' && t[2] != '/'
    ensures ParseDmy(t).None?
  {
  }

  /** Text that starts and ends with a non-space is its own strip. */
  lemma StripKeeps(t: string)
    requires |t| > 0 && !IsSpace(t[0]) && !IsSpace(t[|t| - 1])
    ensures Strip(t) == t
  {
  }

  // ---------------------------------------------------------------------
  // The filters

  /** A performance row with the names the free-text filter looks at. */
  datatype PerfRow = PerfRow(eventName: string, eventNameNorm: string, artist: Option<string>,
                             venueName: string, city: Option<string>, start: Option<DateTime>)

  /** An event row. */
  datatype EventRow = EventRow(name: string, nameNorm: string, artist: Option<string>)

  /** `qs.filter(...)`: the rows that satisfy `keep`, in order. */
  function Where<T(!new)>(xs: seq<T>, keep: T -> bool): (r: seq<T>)
    ensures |r| <= |xs|
    ensures forall x :: x in r <==> x in xs && keep(x)
    ensures (forall i :: 0 <= i < |xs| ==> keep(xs[i])) ==> r == xs
  {
    if xs == [] then []
    else (if keep(xs[0]) then [xs[0]] else []) + Where(xs[1..], keep)
  }

  /** `field__icontains=v` on an optional field: no match on NULL. */
  predicate IContains(field: Option<string>, v: string)
  {
    field.Some? && Contains(Lower(field.value), Lower(v))
  }

  predicate PerfMatches(p: PerfRow, v: string)
  {
    IContains(Some(p.eventName), v) || IContains(Some(p.eventNameNorm), v) || IContains(p.artist, v)
    || IContains(Some(p.venueName), v) || IContains(p.city, v)
  }

  /** `(value or "").strip()`. */
  function Query(value: Option<string>): string
  {
    Strip(if value.Some? then value.value else "")
  }

  /** `PerformanceSearchFilter.filter_q`: blank text returns the queryset
      unchanged; otherwise the rows where one of the five names contains
      the stripped text. */
  function FilterQ(qs: seq<PerfRow>, value: Option<string>): (r: seq<PerfRow>)
    ensures Query(value) == "" ==> r == qs
    ensures forall p :: p in r <==> p in qs && (Query(value) == "" || PerfMatches(p, Query(value)))
  {
    var v := Query(value);
    if v == "" then qs else Where(qs, p => PerfMatches(p, v))
  }

  predicate EventMatches(e: EventRow, v: string)
  {
    IContains(Some(e.name), v) || IContains(Some(e.nameNorm), v) || IContains(e.artist, v)
  }

  /** `EventSearchFilter.filter_q`. */
  function FilterEventsQ(qs: seq<EventRow>, value: Option<string>): (r: seq<EventRow>)
    ensures Query(value) == "" ==> r == qs
    ensures forall e :: e in r <==> e in qs && (Query(value) == "" || EventMatches(e, Query(value)))
  {
    var v := Query(value);
    if v == "" then qs else Where(qs, e => EventMatches(e, v))
  }

  /** The calendar day of a time. */
  function Day(dt: DateTime): DateTime { DateTime(dt.year, dt.month, dt.day, 0, 0, 0) }

  /** `filter_date_from`: with a date, the rows starting on that day or
      later; without one, the queryset unchanged. */
  function FilterDateFrom(qs: seq<PerfRow>, value: Option<string>): (r: Result<seq<PerfRow>>)
    ensures ParseDateAny(value) == Ok(None) ==> r == Ok(qs)
    ensures r.Err? <==> ParseDateAny(value).Err?
    ensures r.Ok? && ParseDateAny(value).value.Some? ==>
              forall p :: p in r.value <==> p in qs && p.start.Some?
                                            && !Before(Day(p.start.value), ParseDateAny(value).value.value)
  {
    var d := ParseDateAny(value);
    if d.Err? then Err(d.error)
    else if d.value.None? then Ok(qs)
    else Ok(Where(qs, (p: PerfRow) => p.start.Some? && !Before(Day(p.start.value), d.value.value)))
  }

  /** `filter_date_to`: with a date, the rows starting on that day or
      earlier. */
  function FilterDateTo(qs: seq<PerfRow>, value: Option<string>): (r: Result<seq<PerfRow>>)
    ensures ParseDateAny(value) == Ok(None) ==> r == Ok(qs)
    ensures r.Err? <==> ParseDateAny(value).Err?
    ensures r.Ok? && ParseDateAny(value).value.Some? ==>
              forall p :: p in r.value <==> p in qs && p.start.Some?
                                            && !Before(ParseDateAny(value).value.value, Day(p.start.value))
  {
    var d := ParseDateAny(value);
    if d.Err? then Err(d.error)
    else if d.value.None? then Ok(qs)
    else Ok(Where(qs, (p: PerfRow) => p.start.Some? && !Before(d.value.value, Day(p.start.value))))
  }

  /** Bounding both ends by the same date keeps exactly the rows of that
      day. */
  lemma SameDayBounds(qs: seq<PerfRow>, value: Option<string>)
    requires ParseDateAny(value).Ok? && ParseDateAny(value).value.Some?
    ensures var lo := FilterDateFrom(qs, value).value;
            forall p :: p in FilterDateTo(lo, value).value <==>
                          p in qs && p.start.Some? && Day(p.start.value) == ParseDateAny(value).value.value
  {
    var d := ParseDateAny(value).value.value;
    forall p: PerfRow | p.start.Some?
      ensures (!Before(Day(p.start.value), d) && !Before(d, Day(p.start.value))) <==> Day(p.start.value) == d
    {
      BeforeIsStrictTotalOrder(Day(p.start.value), d, d);
    }
  }
}
