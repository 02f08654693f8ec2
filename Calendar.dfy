/** Calendar date-times in UTC, as the collectors format them for the
    Discovery API and parse them back, and as the upload validators compare
    them. A value holds the broken-down UTC fields; microseconds are kept
    apart because every formatter here drops them. */
module Calendar {
  import opened Wrappers
  import opened Text

  datatype DateTime = DateTime(year: int, month: int, day: int, hour: int, minute: int, second: int)

  predicate IsLeap(y: int)
  {
    y % 4 == 0 && (y % 100 != 0 || y % 400 == 0)
  }

  function DaysInMonth(y: int, m: int): (r: int)
    requires 1 <= m <= 12
    ensures 28 <= r <= 31
    ensures m == 2 ==> (r == 29 <==> IsLeap(y))
    ensures m != 2 ==> (r == 30 <==> m in {4, 6, 9, 11})
  {
    if m == 2 then (if IsLeap(y) then 29 else 28)
    else if m in {4, 6, 9, 11} then 30
    else 31
  }

  /** The values Python's `datetime` accepts. */
  predicate Valid(dt: DateTime)
  {
    1 <= dt.year <= 9999 && 1 <= dt.month <= 12 && 1 <= dt.day <= DaysInMonth(dt.year, dt.month)
    && 0 <= dt.hour < 24 && 0 <= dt.minute < 60 && 0 <= dt.second < 60
  }

  /** `a < b` on date-times of the same zone: field by field. */
  predicate Before(a: DateTime, b: DateTime)
  {
    if a.year != b.year then a.year < b.year
    else if a.month != b.month then a.month < b.month
    else if a.day != b.day then a.day < b.day
    else if a.hour != b.hour then a.hour < b.hour
    else if a.minute != b.minute then a.minute < b.minute
    else a.second < b.second
  }

  lemma BeforeIsStrictTotalOrder(a: DateTime, b: DateTime, c: DateTime)
    ensures !Before(a, a)
    ensures Before(a, b) && Before(b, c) ==> Before(a, c)
    ensures a != b ==> (Before(a, b) <==> !Before(b, a))
  {
  }

  // ---------------------------------------------------------------------
  // Fixed-width decimal fields

  function Pow10(w: nat): (r: nat)
    ensures r >= 1
  {
    if w == 0 then 1 else 10 * Pow10(w - 1)
  }

  /** `n` in exactly `w` decimal digits, zero padded (`%02d`-style). */
  function Fixed(n: nat, w: nat): (r: string)
    ensures |r| == w
    ensures forall i :: 0 <= i < |r| ==> IsDigit(r[i])
  {
    if w == 0 then "" else Fixed(n / 10, w - 1) + [DigitChar(n % 10)]
  }

  lemma {:induction false} FixedValue(n: nat, w: nat)
    requires n < Pow10(w)
    ensures DigitsValue(Fixed(n, w)) == n
  {
    if w > 0 {
      var r := Fixed(n, w);
      assert n / 10 < Pow10(w - 1);
      FixedValue(n / 10, w - 1);
      assert r[..|r| - 1] == Fixed(n / 10, w - 1);
    }
  }

  /** The number written with `n` digits at `s[i..i+n]`, if they are all
      digits. */
  function Field(s: string, i: nat, n: nat): (r: Option<nat>)
    requires i + n <= |s|
    ensures r.Some? <==> forall k :: i <= k < i + n ==> IsDigit(s[k])
  {
    if forall k :: i <= k < i + n ==> IsDigit(s[k]) then Some(DigitsValue(s[i..i + n])) else None
  }

  // ---------------------------------------------------------------------
  // ISO 8601 in UTC

  /** A `datetime`: naive ones are read as UTC; aware ones are in UTC. */
  datatype Stamp = Naive(dt: DateTime, micro: nat) | Utc(dt: DateTime, micro: nat)

  /** `YYYY-MM-DDTHH:MM:SS`. */
  function Body(dt: DateTime): (r: string)
    requires Valid(dt)
    ensures |r| == 19
  {
    Fixed(dt.year, 4) + "-" + Fixed(dt.month, 2) + "-" + Fixed(dt.day, 2) + "T"
    + Fixed(dt.hour, 2) + ":" + Fixed(dt.minute, 2) + ":" + Fixed(dt.second, 2)
  }

  /** `iso_z`: `YYYY-MM-DDTHH:MM:SSZ`, without microseconds. */
  function IsoZ(t: Stamp): (r: string)
    requires Valid(t.dt)
    ensures |r| == 20 && r[|r| - 1] == 'Z'
  {
    Body(t.dt) + "Z"
  }

  /** A naive stamp formats as the UTC stamp with the same fields, and the
      microseconds never show. */
  lemma IsoZIgnoresZoneTagAndMicros(dt: DateTime, m1: nat, m2: nat)
    requires Valid(dt)
    ensures IsoZ(Naive(dt, m1)) == IsoZ(Utc(dt, m2))
  {
  }

  /** `s.replace("Z", "+00:00")`. */
  function ReplaceZ(s: string): (r: string)
    ensures (forall i :: 0 <= i < |s| ==> s[i] != 'Z') ==> r == s
  {
    if s == [] then []
    else ReplaceZ(s[..|s| - 1]) + (if s[|s| - 1] == 'Z' then "+00:00" else [s[|s| - 1]])
  }

  lemma {:induction false} ReplaceZAppend(a: string, b: string)
    ensures ReplaceZ(a + b) == ReplaceZ(a) + ReplaceZ(b)
    decreases |b|
  {
    if b != [] {
      var b' := b[..|b| - 1];
      assert (a + b)[..|a + b| - 1] == a + b';
      ReplaceZAppend(a, b');
    } else {
      assert a + b == a;
    }
  }

  /** `parse_dt_utc`: a missing or empty string gives `None`; otherwise
      `datetime.fromisoformat` of the string with "Z" spelled "+00:00",
      which raises `ValueError` on anything but a valid date-time. */
  function ParseDtUtc(s: Option<string>): (r: Result<Option<DateTime>>)
    ensures (s.None? || s.value == "") <==> r == Ok(None)
    ensures r.Ok? && r.value.Some? ==> Valid(r.value.value)
  {
    if s.None? || s.value == "" then Ok(None)
    else
      var t := ReplaceZ(s.value);
      if |t| != 25 || t[4] != '-' || t[7] != '-' || t[10] != 'T' || t[13] != ':' || t[16] != ':'
         || t[19..] != "+00:00" then Err("ValueError")
      else
        var y, mo, d := Field(t, 0, 4), Field(t, 5, 2), Field(t, 8, 2);
        var h, mi, se := Field(t, 11, 2), Field(t, 14, 2), Field(t, 17, 2);
        if y.None? || mo.None? || d.None? || h.None? || mi.None? || se.None? then Err("ValueError")
        else
          var dt := DateTime(y.value, mo.value, d.value, h.value, mi.value, se.value);
          if Valid(dt) then Ok(Some(dt)) else Err("ValueError")
  }

  /** `datetime.fromisoformat(s)` for a calendar date "YYYY-MM-DD": that
      day at midnight; anything else raises `ValueError`. */
  function ParseIsoDate(s: string): (r: Result<DateTime>)
    ensures r.Ok? ==> Valid(r.value) && r.value.hour == 0 && r.value.minute == 0 && r.value.second == 0
    ensures |s| != 10 ==> r.Err?
  {
    if |s| != 10 || s[4] != '-' || s[7] != '-' then Err("ValueError")
    else
      var y, mo, d := Field(s, 0, 4), Field(s, 5, 2), Field(s, 8, 2);
      if y.None? || mo.None? || d.None? then Err("ValueError")
      else
        var dt := DateTime(y.value, mo.value, d.value, 0, 0, 0);
        if Valid(dt) then Ok(dt) else Err("ValueError")
  }

  lemma BodyHasNoZ(dt: DateTime)
    requires Valid(dt)
    ensures forall i :: 0 <= i < |Body(dt)| ==> Body(dt)[i] != 'Z'
  {
  }

  lemma BodyLayout(dt: DateTime)
    requires Valid(dt)
    ensures var u := Body(dt) + "+00:00";
      u[0..4] == Fixed(dt.year, 4) && u[5..7] == Fixed(dt.month, 2) && u[8..10] == Fixed(dt.day, 2)
      && u[11..13] == Fixed(dt.hour, 2) && u[14..16] == Fixed(dt.minute, 2) && u[17..19] == Fixed(dt.second, 2)
      && u[4] == '-' && u[7] == '-' && u[10] == 'T' && u[13] == ':' && u[16] == ':' && u[19..] == "+00:00"
  {
  }

  /** What `iso_z` writes, `parse_dt_utc` reads back, microseconds aside. */
  lemma IsoZRoundTrip(t: Stamp)
    requires Valid(t.dt)
    ensures ParseDtUtc(Some(IsoZ(t))) == Ok(Some(t.dt))
  {
    var dt := t.dt;
    var u := Body(dt) + "+00:00";
    BodyHasNoZ(dt);
    ReplaceZAppend(Body(dt), "Z");
    assert ReplaceZ("Z") == ReplaceZ("") + "+00:00";
    assert ReplaceZ(IsoZ(t)) == u;
    BodyLayout(dt);
    FixedValue(dt.year, 4);
    FixedValue(dt.month, 2);
    FixedValue(dt.day, 2);
    FixedValue(dt.hour, 2);
    FixedValue(dt.minute, 2);
    FixedValue(dt.second, 2);
  }
}
