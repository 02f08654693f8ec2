/** The Ticketmaster resale scan: every Ticketmaster mapping is probed, a
    checksum of the merged verdict decides whether anything changed since
    the last scan, the snapshot is rewritten, and when a resale is found
    every monitor of the event with a reachable e-mail address gets one
    notification per checksum, recorded SENT or FAILED. */
module ScanTicketmasterResale {
  import opened Wrappers
  import opened Text
  import opened Json
  import opened Http
  import opened TmSignals
  import TmResaleFetch
  import opened Alerts

  // ---------------------------------------------------------------------
  // The digest

  const HexDigits := "0123456789abcdef"

  predicate IsHex(c: char) { c in HexDigits }

  /** `n` written with exactly `width` lower-case hex digits (the low ones). */
  function Hex(n: nat, width: nat): (r: string)
    ensures |r| == width && forall i :: 0 <= i < |r| ==> IsHex(r[i])
  {
    if width == 0 then "" else Hex(n / 16, width - 1) + [HexDigits[n % 16]]
  }

  function HexValue(c: char): nat
  {
    if '0' <= c <= '9' then c as int - '0' as int
    else if 'a' <= c <= 'f' then c as int - 'a' as int + 10
    else 0
  }

  /** The number a string of hex digits denotes. */
  function Unhex(s: string): nat
  {
    if s == [] then 0 else Unhex(s[..|s| - 1]) * 16 + HexValue(s[|s| - 1])
  }

  function Pow16(w: nat): (r: nat)
    ensures r > 0
  {
    if w == 0 then 1 else 16 * Pow16(w - 1)
  }

  lemma HexDigitValue(d: nat)
    requires d < 16
    ensures HexValue(HexDigits[d]) == d
  {
  }

  /** `Unhex` inverts `Hex` on numbers that fit the width. */
  lemma {:induction false} UnhexHex(n: nat, w: nat)
    requires n < Pow16(w)
    ensures Unhex(Hex(n, w)) == n
  {
    if w > 0 {
      var q, d := n / 16, n % 16;
      assert n == 16 * q + d;
      assert q < Pow16(w - 1);
      var h := Hex(n, w);
      assert h[..|h| - 1] == Hex(q, w - 1) && h[|h| - 1] == HexDigits[d];
      UnhexHex(q, w - 1);
      HexDigitValue(d);
    }
  }

  /** The stand-in for the SHA-256 hex digest: every character's code point
      as six hex digits. Like the digest it is a string of hex digits, and
      it is injective (SHA-256 collisions are not modelled). */
  function Digest(s: string): (r: string)
    ensures |r| == 6 * |s|
    ensures forall i :: 0 <= i < |r| ==> IsHex(r[i])
  {
    if s == [] then "" else Hex(s[0] as int, 6) + Digest(s[1..])
  }

  /** Equal digests come from equal texts. */
  lemma {:induction false} DigestInjective(a: string, b: string)
    requires Digest(a) == Digest(b)
    ensures a == b
  {
    if a != [] {
      var da, db := Digest(a), Digest(b);
      assert da[..6] == Hex(a[0] as int, 6) && db[..6] == Hex(b[0] as int, 6);
      assert da[6..] == Digest(a[1..]) && db[6..] == Digest(b[1..]);
      assert Pow16(6) == 0x100_0000;
      UnhexHex(a[0] as int, 6);
      UnhexHex(b[0] as int, 6);
      DigestInjective(a[1..], b[1..]);
    }
  }

  /** A digest has no surrounding white space. */
  lemma DigestIsBare(s: string)
    requires s != []
    ensures Strip(Digest(s)) == Digest(s)
  {
    var d := Digest(s);
    assert IsHex(d[0]) && IsHex(d[|d| - 1]);
    StripOfBare(d);
  }

  // ---------------------------------------------------------------------
  // Snapshot

  /** `_safe_dict`: a dictionary stays, anything else reads as `{}`. */
  function SafeDict(j: Json): (r: Json)
    ensures r.JObj?
    ensures j.JObj? ==> r == j
  {
    if j.JObj? then j else JObj([])
  }

  /** `d[key] = v` on the fields of a dictionary: an existing key keeps its
      place, a new one goes last. */
  function Put(fields: seq<Field>, key: string, v: Json): (r: seq<Field>)
    ensures Lookup(r, key) == Some(v)
    ensures forall k :: k != key ==> Lookup(r, k) == Lookup(fields, k)
  {
    if fields == [] then [Field(key, v)]
    else if fields[0].key == key then [Field(key, v)] + fields[1..]
    else [fields[0]] + Put(fields[1..], key, v)
  }

  /** The checksum stored by the previous scan: `str(x or "").strip()`. */
  function PrevChecksum(snapshot: Json): string
  {
    var v := Get(SafeDict(snapshot), "resale_checksum");
    if v.Some? && Truthy(v.value) then Strip(PyStr(v.value)) else ""
  }

  function AvailName(a: Avail): string
  {
    match a
    case Available => "available"
    case Limited => "limited"
    case Unavailable => "unavailable"
    case Unknown => "unknown"
  }

  function SourceName(s: Source): string
  {
    match s
    case Html => "html"
    case Mfxapi => "mfxapi"
    case Mixed => "mixed"
  }

  function PyBool(b: bool): string { if b then "True" else "False" }

  function OptNum(n: Option<int>): Json { if n.Some? then JNum(n.value) else JNull }

  function OptStr(s: Option<string>): Json { if s.Some? then JStr(s.value) else JNull }

  /** The `resale_probe` entry written into the snapshot. */
  function ProbeEntry(c: Combined, now: int): Json
  {
    JObj([Field("ok", JBool(c.ok)), Field("availability", JStr(AvailName(c.availability))),
          Field("is_resale", JBool(c.isResale)), Field("min_price", OptNum(c.minPrice)),
          Field("max_price", OptNum(c.maxPrice)), Field("currency", OptStr(c.currency)),
          Field("source", JStr(SourceName(c.source))), Field("reason", OptStr(c.reason)),
          Field("scanned_at", JNum(now))])
  }

  // ---------------------------------------------------------------------
  // Records

  /** An `EventoPiattaforma` row. */
  datatype Row = Row(id: nat, platform: nat, url: Option<string>, externalId: Option<string>,
                     eventId: Option<nat>, snapshot: Json)

  /** A `Piattaforma` row. */
  datatype Platform = Platform(id: nat, name: string)

  /** An attribute value as `hasattr`/`getattr` see it. */
  datatype Value = VNone | VStr(s: string) | VObj(attrs: map<string, Value>)

  /** A `Monitoraggio`: the event it watches, the event of the performance
      it watches, and the object the e-mail lookup walks. */
  datatype ResaleMonitor = ResaleMonitor(id: nat, eventId: Option<nat>, perfEventId: Option<nat>, obj: Value)

  // ---------------------------------------------------------------------
  // Recipient

  /** The attribute paths tried for the e-mail address, in this order. */
  const EmailPaths: seq<seq<string>> :=
    [["abbonamento", "utente", "email"], ["abbonamento", "user", "email"], ["utente", "email"], ["user", "email"]]

  /** The value at the end of `path`, or None when an attribute is missing
      or some value on the way is None. */
  function Walk(cur: Value, path: seq<string>): Option<Value>
    decreases |path|
  {
    if path == [] then Some(cur)
    else if !cur.VObj? || path[0] !in cur.attrs then None
    else if cur.attrs[path[0]].VNone? then None
    else Walk(cur.attrs[path[0]], path[1..])
  }

  /** `path` leads to a string holding "@". */
  predicate EmailAt(obj: Value, path: seq<string>)
  {
    var v := Walk(obj, path);
    v.Some? && v.value.VStr? && '@' in v.value.s
  }

  /** The stripped address at the first path in `paths` that has one. */
  function FirstEmail(obj: Value, paths: seq<seq<string>>): (r: Option<string>)
    ensures r.Some? <==> exists i :: 0 <= i < |paths| && EmailAt(obj, paths[i])
    ensures r.Some? ==> '@' in r.value
  {
    if paths == [] then None
    else if EmailAt(obj, paths[0]) then
      var s := Walk(obj, paths[0]).value.s;
      StripKeepsAt(s);
      Some(Strip(s))
    else
      var r := FirstEmail(obj, paths[1..]);
      assert forall i :: 1 <= i < |paths| ==> paths[1..][i - 1] == paths[i];
      r
  }

  lemma StripKeepsAt(s: string)
    requires '@' in s
    ensures '@' in Strip(s)
  {
    var i :| 0 <= i < |s| && s[i] == '@';
    StripLeftKeeps(s, i);
    var l := StripLeft(s);
    var j := i - (|s| - |l|);
    StripRightKeeps(l, j);
  }

  lemma {:induction false} StripLeftKeeps(s: string, i: nat)
    requires i < |s| && !IsSpace(s[i])
    ensures |s| - |StripLeft(s)| <= i && StripLeft(s)[i - (|s| - |StripLeft(s)|)] == s[i]
  {
    if |s| > 0 && IsSpace(s[0]) {
      StripLeftKeeps(s[1..], i - 1);
    }
  }

  lemma {:induction false} StripRightKeeps(s: string, i: nat)
    requires i < |s| && !IsSpace(s[i])
    ensures i < |StripRight(s)| && StripRight(s)[i] == s[i]
  {
    if |s| > 0 && IsSpace(s[|s| - 1]) {
      StripRightKeeps(s[..|s| - 1], i);
    }
  }

  /** `_get_user_email_from_monitoraggio`. */
  function Recipient(m: ResaleMonitor): Option<string>
  {
    FirstEmail(m.obj, EmailPaths)
  }

  /** The walk of one path, attribute by attribute. */
  method WalkPath(obj: Value, path: seq<string>) returns (ok: bool, cur: Value)
    ensures ok <==> Walk(obj, path).Some?
    ensures ok ==> cur == Walk(obj, path).value
  {
    cur := obj;
    var i := 0;
    while i < |path|
      invariant 0 <= i <= |path|
      invariant Walk(obj, path) == Walk(cur, path[i..])
    {
      assert path[i..][1..] == path[i + 1..];
      if !cur.VObj? || path[i] !in cur.attrs {
        return false, cur;
      }
      cur := cur.attrs[path[i]];
      if cur.VNone? {
        return false, cur;
      }
      i := i + 1;
    }
    return true, cur;
  }

  /** The lookup as the source runs it: the paths in order, the first
      string with "@" wins, stripped. */
  method RecipientOf(m: ResaleMonitor) returns (r: Option<string>)
    ensures r == Recipient(m)
    ensures r.Some? ==> '@' in r.value
  {
    var k := 0;
    while k < |EmailPaths|
      invariant 0 <= k <= |EmailPaths|
      invariant FirstEmail(m.obj, EmailPaths) == FirstEmail(m.obj, EmailPaths[k..])
    {
      assert EmailPaths[k..][1..] == EmailPaths[k + 1..];
      var ok, cur := WalkPath(m.obj, EmailPaths[k]);
      if ok && cur.VStr? && '@' in cur.s {
        return Some(Strip(cur.s));
      }
      k := k + 1;
    }
    return None;
  }

  /** The subscription's user comes first: when it has an address, the
      monitor's own user is never consulted. */
  lemma SubscriptionAddressWins(m: ResaleMonitor, s: string)
    requires Walk(m.obj, ["abbonamento", "utente", "email"]) == Some(VStr(s)) && '@' in s
    ensures Recipient(m) == Some(Strip(s))
  {
  }

  /** There is a recipient exactly when some path ends in a string with
      "@", and the recipient is never empty. */
  lemma RecipientExists(m: ResaleMonitor)
    ensures Recipient(m).Some? <==> exists i :: 0 <= i < |EmailPaths| && EmailAt(m.obj, EmailPaths[i])
    ensures Recipient(m).Some? ==> Recipient(m).value != ""
  {
  }

  // ---------------------------------------------------------------------
  // Monitors of a mapping

  /** The monitor follows event `e`, directly or through a performance. */
  predicate Watches(m: ResaleMonitor, e: nat)
  {
    m.eventId == Some(e) || m.perfEventId == Some(e)
  }

  /** `_find_monitoraggi_for_evento_piattaforma`: nothing without an event
      (or with event id 0), else the monitors of the event in table order. */
  function MonitorsFor(mons: seq<ResaleMonitor>, e: Option<nat>): (r: seq<ResaleMonitor>)
    ensures |r| <= |mons|
    ensures e.None? || e.value == 0 ==> r == []
    ensures e.Some? && e.value != 0 ==> forall m :: m in r <==> m in mons && Watches(m, e.value)
  {
    if e.None? || e.value == 0 || mons == [] then []
    else
      var rest := MonitorsFor(mons[1..], e);
      assert forall m :: m in mons <==> m == mons[0] || m in mons[1..];
      if Watches(mons[0], e.value) then [mons[0]] + rest else rest
  }

  // ---------------------------------------------------------------------
  // One mapping

  datatype Settings = Settings(maxRetries: int, enablePrices: bool, dryRun: bool, noEmail: bool, now: int)

  /** What the outside world answers: page responses and price responses
      per mapping id, whether saving a mapping raises, and the outcome of
      the mail to a monitor for a mapping. */
  datatype World = World(
    page: nat -> (nat -> TmResaleFetch.PageOutcome),
    api: nat -> (nat -> ApiOutcome),
    saveRaises: nat -> bool,
    mail: (nat, nat) -> Mail)

  /** The retry budget of the price request (`max_retries_429` default). */
  const PriceRetries := 6

  const PricesSkipped := PriceResult(false, None, Unknown, None, None, None, Some("prices skipped"))

  function HtmlOf(t: Row, w: World, s: Settings): HtmlResult
  {
    TmResaleFetch.ProbeFrom(w.page(t.id), s.maxRetries, 0, None, None).result
  }

  /** Prices are fetched only when enabled and the platform id is not blank. */
  function PricesOf(t: Row, w: World, s: Settings): PriceResult
  {
    if s.enablePrices && Strip(t.externalId.GetOr("")) != "" then
      TmResaleFetch.PriceFrom(w.api(t.id), PriceRetries, 0, None).result
    else PricesSkipped
  }

  function Signals(t: Row, w: World, s: Settings): Combined
  {
    Merge(HtmlOf(t, w, s), PricesOf(t, w, s))
  }

  /** What a scan learns about a mapping: the merged verdict and the URL
      shown, `final_url or url`. */
  datatype Probe = Probe(c: Combined, url: string)

  /** The probed URL is the page's final URL after redirects when there is
      one, otherwise the mapping's own URL. */
  function ProbeOf(t: Row, w: World, s: Settings): (p: Probe)
    requires t.url.Some?
    ensures p.url == t.url.value || (HtmlOf(t, w, s).finalUrl == Some(p.url) && p.url != "")
  {
    var f := HtmlOf(t, w, s).finalUrl;
    Probe(Signals(t, w, s), if f.Some? && f.value != "" then f.value else t.url.value)
  }

  /** The text whose digest is the checksum. */
  function SignalText(p: Probe): (r: string)
    ensures r != []
  {
    AvailName(p.c.availability) + "|" + PyBool(p.c.isResale) + "|" + p.url
  }

  function Checksum(p: Probe): string
  {
    Digest(SignalText(p))
  }

  /** A resale that is available. */
  predicate IsFound(c: Combined)
  {
    c.isResale && c.availability == Available
  }

  /** What happens to one mapping. */
  datatype Visit =
    | Unchanged           // same checksum as the snapshot
    | DryRefresh(found: bool)
    | SaveRaised          // the transaction raised: `errors`
    | Saved(found: bool)

  /** The visit of a mapping: `same` when the checksum equals the stored
      one, `found` for an available resale, `raises` when saving raises. */
  function VisitOf(same: bool, found: bool, dryRun: bool, raises: bool): Visit
  {
    if same then Unchanged
    else if dryRun then DryRefresh(found)
    else if raises then SaveRaised
    else Saved(found)
  }

  /** The mapping with snapshot `snapshot` probed as `p`; `raises` says
      whether saving it raises. */
  function Classify(snapshot: Json, p: Probe, dryRun: bool, raises: bool): (v: Visit)
    ensures v.Unchanged? <==> PrevChecksum(snapshot) == Checksum(p)
    ensures v.DryRefresh? <==> !v.Unchanged? && dryRun
    ensures v.SaveRaised? <==> !v.Unchanged? && !dryRun && raises
    ensures (v.DryRefresh? || v.Saved?) ==> v.found == IsFound(p.c)
  {
    VisitOf(PrevChecksum(snapshot) == Checksum(p), IsFound(p.c), dryRun, raises)
  }

  /** The snapshot written by a scan that saves. */
  function NewSnapshot(snapshot: Json, p: Probe, now: int): Json
  {
    JObj(Put(Put(SafeDict(snapshot).fields, "resale_probe", ProbeEntry(p.c, now)),
             "resale_checksum", JStr(Checksum(p))))
  }

  /** A bare, non-empty checksum stored next to any probe entry reads back. */
  lemma ChecksumReadsBack(snapshot: Json, entry: Json, k: string)
    requires k != [] && Strip(k) == k
    ensures PrevChecksum(JObj(Put(Put(SafeDict(snapshot).fields, "resale_probe", entry), "resale_checksum", JStr(k)))) == k
  {
    var fields := Put(Put(SafeDict(snapshot).fields, "resale_probe", entry), "resale_checksum", JStr(k));
    assert Lookup(fields, "resale_checksum") == Some(JStr(k));
  }

  /** The next scan reads back the checksum this one stored. */
  lemma StoredChecksumReadsBack(snapshot: Json, p: Probe, now: int)
    ensures PrevChecksum(NewSnapshot(snapshot, p, now)) == Checksum(p)
  {
    DigestIsBare(SignalText(p));
    ChecksumReadsBack(snapshot, ProbeEntry(p.c, now), Checksum(p));
  }

  /** After a saving scan, the next scan of the mapping is skipped exactly
      when its signal text (verdict, resale flag and URL) is the same. */
  lemma RescanSkipsIffSameSignals(snapshot: Json, p1: Probe, p2: Probe, now: int, dryRun: bool, raises: bool)
    ensures Classify(NewSnapshot(snapshot, p1, now), p2, dryRun, raises).Unchanged?
            <==> SignalText(p2) == SignalText(p1)
  {
    StoredChecksumReadsBack(snapshot, p1, now);
    if Checksum(p2) == Checksum(p1) {
      DigestInjective(SignalText(p2), SignalText(p1));
    }
  }

  // ---------------------------------------------------------------------
  // Notifications of a found resale

  const Subject := "[Tixy] Ticketmaster: Rivendita disponibile"

  /** A price as the f-string writes it: the `repr` of a whole float,
      such as "45.0", or "None". */
  function NumText(n: Option<int>): (r: string)
    ensures n.Some? ==> |r| >= 3 && r[|r| - 2..] == ".0"
    ensures n.None? ==> r == "None"
  {
    if n.Some? then IntToString(n.value) + ".0" else "None"
  }

  /** The lines of the mail body: headline, blank line, URL, verdict,
      resale flag and, when a price is known, a price line. */
  function MessageLines(c: Combined, url: string): seq<string>
  {
    ["RIVENDITA DISPONIBILE su Ticketmaster", "", "URL: " + url,
     "Disponibilità: " + AvailName(c.availability), "Rivendita: " + PyBool(c.isResale)]
    + (if c.minPrice.Some? || c.maxPrice.Some? then
         [Strip("Prezzo: " + NumText(c.minPrice) + " - " + NumText(c.maxPrice) + " " + c.currency.GetOr(""))]
       else [])
  }

  /** The mail body: its lines joined by newlines. */
  function Message(c: Combined, url: string): string
  {
    Join("\n", MessageLines(c, url))
  }

  /** The mail body opens with the headline, a blank line and the URL line,
      and goes on past them. */
  lemma MessageHeadline(c: Combined, url: string)
    ensures var head := "RIVENDITA DISPONIBILE su Ticketmaster\n\nURL: " + url + "\n";
            var r := Message(c, url);
            |r| > |head| && r[..|head|] == head
  {
    var lines := MessageLines(c, url);
    assert lines[3] != "";
    JoinOpens("\n", lines);
    assert lines[0] + "\n" + lines[1] + "\n" + lines[2] + "\n"
        == "RIVENDITA DISPONIBILE su Ticketmaster\n\nURL: " + url + "\n";
  }

  /** Joined parts open with the first three, each followed by the
      separator, and go on past them when the fourth is not empty. */
  lemma JoinOpens(sep: string, parts: seq<string>)
    requires |parts| >= 4 && parts[3] != ""
    ensures var head := parts[0] + sep + parts[1] + sep + parts[2] + sep;
            var r := Join(sep, parts);
            |r| > |head| && r[..|head|] == head
  {
    assert parts[1..][1..] == parts[2..] && parts[2..][1..] == parts[3..];
    var tail := Join(sep, parts[3..]);
    assert |tail| > 0 by {
      if |parts| > 4 {
        assert tail == parts[3] + sep + Join(sep, parts[4..]);
      }
    }
    assert Join(sep, parts[2..]) == parts[2] + sep + tail;
    assert Join(sep, parts[1..]) == parts[1] + sep + Join(sep, parts[2..]);
    assert Join(sep, parts) == parts[0] + sep + Join(sep, parts[1..]);
    var head := parts[0] + sep + parts[1] + sep + parts[2] + sep;
    assert Join(sep, parts) == head + tail;
    assert (head + tail)[..|head|] == head;
  }

  function KeyOf(monitor: nat, checksum: string): string
  {
    "tm_resale:" + NatToString(monitor) + ":" + checksum
  }

  /** What happens for one monitor of a found resale. */
  datatype MonitorOutcome = NoRecipient | Deduped | Recorded(status: NoticeStatus, mailed: bool)

  /** A recipient is needed; only a SENT record under the key suppresses;
      the record is SENT unless the send raised, and with `no_email` it is
      SENT without any mail. */
  function MonitorStep(ns: seq<Notice>, m: ResaleMonitor, row: nat, checksum: string, w: World, s: Settings)
    : (o: MonitorOutcome)
    ensures o.Recorded? <==> Recipient(m).Some? && !HasSent(ns, KeyOf(m.id, checksum))
    ensures o.Recorded? && o.mailed ==> !s.noEmail && o.status == Sent
    ensures o.Recorded? && o.status == NoticeStatus.Failed <==>
              o.Recorded? && !s.noEmail && w.mail(row, m.id).MailRaised?
  {
    if Recipient(m).None? then NoRecipient
    else if HasSent(ns, KeyOf(m.id, checksum)) then Deduped
    else if s.noEmail then Recorded(Sent, false)
    else match w.mail(row, m.id)
      case Delivered => Recorded(Sent, true)
      case MailRaised(_) => Recorded(NoticeStatus.Failed, false)
  }

  /** The monitor counters of one mapping: `notif_created`, `emails_sent`
      and `notif_deduped`. */
  datatype Tally = Tally(created: nat, mailed: nat, deduped: nat)

  function Add(t: Tally, o: MonitorOutcome): Tally
  {
    match o
    case NoRecipient => t
    case Deduped => t.(deduped := t.deduped + 1)
    case Recorded(_, mailed) => Tally(t.created + 1, t.mailed + (if mailed then 1 else 0), t.deduped)
  }

  function RecordOf(o: MonitorOutcome, m: ResaleMonitor, checksum: string, msg: string): seq<Notice>
  {
    if o.Recorded? then [Notice(m.id, "email", KeyOf(m.id, checksum), o.status, None, msg)] else []
  }

  /** Every notification after `start` was recorded under a key that had no
      SENT notification before it. */
  predicate FreshRecords(start: seq<Notice>, ns: seq<Notice>)
  {
    |ns| >= |start| && ns[..|start|] == start
    && forall k :: |start| <= k < |ns| ==> !HasSent(ns[..k], ns[k].dedupeKey)
  }

  /** The loop over the monitors, from the end: the notifications after
      it and the counters it adds. */
  function NotifyAll(ns: seq<Notice>, mons: seq<ResaleMonitor>, row: nat, checksum: string, msg: string,
                     w: World, s: Settings): (r: (seq<Notice>, Tally))
    ensures |r.0| == |ns| + r.1.created && r.0[..|ns|] == ns
    decreases |mons|
  {
    if mons == [] then (ns, Tally(0, 0, 0))
    else
      var before := NotifyAll(ns, mons[..|mons| - 1], row, checksum, msg, w, s);
      var m := mons[|mons| - 1];
      var o := MonitorStep(before.0, m, row, checksum, w, s);
      (before.0 + RecordOf(o, m, checksum, msg), Add(before.1, o))
  }

  /** The monitor loop records only under keys without a SENT record, one
      record per `notif_created`, a mail only for a record, none with
      `no_email`, and touches each monitor at most once. */
  lemma {:induction false} NotifyAllShape(ns: seq<Notice>, mons: seq<ResaleMonitor>, row: nat, checksum: string,
                                          msg: string, w: World, s: Settings)
    ensures var r := NotifyAll(ns, mons, row, checksum, msg, w, s);
      FreshRecords(ns, r.0) && |r.0| == |ns| + r.1.created && r.1.mailed <= r.1.created
      && r.1.created + r.1.deduped <= |mons| && (s.noEmail ==> r.1.mailed == 0)
    decreases |mons|
  {
    if mons == [] {
      assert ns[..|ns|] == ns;
    } else {
      var before := NotifyAll(ns, mons[..|mons| - 1], row, checksum, msg, w, s);
      NotifyAllShape(ns, mons[..|mons| - 1], row, checksum, msg, w, s);
      var m := mons[|mons| - 1];
      var o := MonitorStep(before.0, m, row, checksum, w, s);
      FreshRecordsAppend(ns, before.0, RecordOf(o, m, checksum, msg));
    }
  }

  lemma FreshRecordsAppend(start: seq<Notice>, before: seq<Notice>, add: seq<Notice>)
    requires FreshRecords(start, before)
    requires |add| <= 1 && forall n :: n in add ==> !HasSent(before, n.dedupeKey)
    ensures FreshRecords(start, before + add)
  {
    var after := before + add;
    assert after[..|before|] == before;
    assert after[..|start|] == before[..|start|];
    forall k | |start| <= k < |before|
      ensures after[k] == before[k] && after[..k] == before[..k]
    {
    }
  }

  lemma {:induction false} FreshRecordsTrans(a: seq<Notice>, b: seq<Notice>, c: seq<Notice>)
    requires FreshRecords(a, b) && FreshRecords(b, c)
    ensures FreshRecords(a, c)
  {
    assert c[..|a|] == b[..|a|];
    forall k | |a| <= k < |b|
      ensures !HasSent(c[..k], c[k].dedupeKey)
    {
      assert c[k] == b[k] && c[..k] == b[..k];
    }
  }

  /** A FAILED record does not stop the next attempt: only SENT does. */
  lemma FailedRecordDoesNotDedupe(ns: seq<Notice>, n: Notice, m: ResaleMonitor, row: nat, checksum: string,
                                  w: World, s: Settings)
    requires n.status == NoticeStatus.Failed && Recipient(m).Some?
    requires !HasSent(ns, KeyOf(m.id, checksum))
    ensures MonitorStep(ns + [n], m, row, checksum, w, s).Recorded?
  {
    HasSentAppend(ns, n, KeyOf(m.id, checksum));
  }

  /** With a SENT record under its key a monitor is never recorded again. */
  lemma SentRecordDedupes(ns: seq<Notice>, m: ResaleMonitor, row: nat, checksum: string, w: World, s: Settings)
    requires HasSent(ns, KeyOf(m.id, checksum)) && Recipient(m).Some?
    ensures MonitorStep(ns, m, row, checksum, w, s) == Deduped
  {
  }

  // ---------------------------------------------------------------------
  // The store

  /** The tables the scan writes: the snapshot and last-scan time of each
      mapping, and the notifications. */
  class ResaleStore {
    var snapshots: map<nat, Json>
    var scannedAt: map<nat, int>
    var notices: seq<Notice>

    constructor(snapshots: map<nat, Json>, scannedAt: map<nat, int>, notices: seq<Notice>)
      ensures this.snapshots == snapshots && this.scannedAt == scannedAt && this.notices == notices
    {
      this.snapshots := snapshots;
      this.scannedAt := scannedAt;
      this.notices := notices;
    }
  }

  /** The checks for one monitor, and the send. */
  method Consider(ns: seq<Notice>, m: ResaleMonitor, row: nat, checksum: string, w: World, s: Settings)
    returns (o: MonitorOutcome)
    ensures o == MonitorStep(ns, m, row, checksum, w, s)
  {
    var recipient := RecipientOf(m);
    if recipient.None? {
      return NoRecipient;
    }
    if HasSent(ns, KeyOf(m.id, checksum)) {
      return Deduped;
    }
    var status := Sent;
    var mailed := false;
    if !s.noEmail {
      match w.mail(row, m.id)
      case Delivered =>
        mailed := true;
      case MailRaised(_) =>
        status := NoticeStatus.Failed;
    }
    return Recorded(status, mailed);
  }

  /** The loop over the monitors of a found resale. */
  method NotifyMonitors(db: ResaleStore, mons: seq<ResaleMonitor>, row: nat, checksum: string, msg: string,
                        w: World, s: Settings)
    returns (tally: Tally)
    modifies db
    ensures (db.notices, tally) == NotifyAll(old(db.notices), mons, row, checksum, msg, w, s)
    ensures db.snapshots == old(db.snapshots) && db.scannedAt == old(db.scannedAt)
  {
    ghost var start := db.notices;
    tally := Tally(0, 0, 0);
    var i := 0;
    while i < |mons|
      invariant 0 <= i <= |mons|
      invariant (db.notices, tally) == NotifyAll(start, mons[..i], row, checksum, msg, w, s)
      invariant db.snapshots == old(db.snapshots) && db.scannedAt == old(db.scannedAt)
    {
      assert mons[..i + 1][..i] == mons[..i];
      var m := mons[i];
      var o := Consider(db.notices, m, row, checksum, w, s);
      db.notices := db.notices + RecordOf(o, m, checksum, msg);
      tally := Add(tally, o);
      i := i + 1;
    }
    assert mons[..|mons|] == mons;
  }

  datatype Counter = Found | Updated | Skipped | Errors | EmailsSent | NotifCreated | NotifDeduped

  /** The counters one mapping adds, the monitor counters apart. */
  function VisitCounts(v: Visit): multiset<Counter>
  {
    match v
    case Unchanged => multiset{Skipped}
    case SaveRaised => multiset{Errors}
    case DryRefresh(found) => multiset{Updated} + (if found then multiset{Found} else multiset{})
    case Saved(found) => multiset{Updated} + (if found then multiset{Found} else multiset{})
  }

  function TallyCounts(t: Tally): (r: multiset<Counter>)
    ensures r[NotifCreated] == t.created && r[EmailsSent] == t.mailed && r[NotifDeduped] == t.deduped
    ensures r[Found] == r[Updated] == r[Skipped] == r[Errors] == 0
  {
    multiset{}[NotifCreated := t.created][EmailsSent := t.mailed][NotifDeduped := t.deduped]
  }

  /** The monitors notified when a saved mapping holds a resale. */
  function Notified(t: Row, mons: seq<ResaleMonitor>, v: Visit): seq<ResaleMonitor>
  {
    if v.Saved? && v.found then MonitorsFor(mons, t.eventId) else []
  }

  /** The probe of one mapping: page, then prices when enabled, merged. */
  method ProbeRow(t: Row, w: World, s: Settings) returns (p: Probe)
    requires t.url.Some?
    ensures p == ProbeOf(t, w, s)
  {
    var html, gets := TmResaleFetch.ProbePage(w.page(t.id), s.maxRetries);
    var prices := PricesSkipped;
    if s.enablePrices && Strip(t.externalId.GetOr("")) != "" {
      var sleeps;
      prices, gets, sleeps := TmResaleFetch.FetchPrices(w.api(t.id), PriceRetries);
    }
    var url := if html.finalUrl.Some? && html.finalUrl.value != "" then html.finalUrl.value else t.url.value;
    p := Probe(Merge(html, prices), url);
  }

  /** The snapshots after one mapping: rewritten only by a save. */
  function SnapshotsAfter(snaps: map<nat, Json>, id: nat, v: Visit, snap: Json): map<nat, Json>
  {
    if v.Saved? then snaps[id := snap] else snaps
  }

  /** The scan times after one mapping: set by a save, and by a skip
      outside a dry run. */
  function ScannedAfter(times: map<nat, int>, id: nat, v: Visit, s: Settings): map<nat, int>
  {
    if v.Saved? || (v.Unchanged? && !s.dryRun) then times[id := s.now] else times
  }

  /** One mapping, inside the per-mapping `try`. */
  method ProcessRow(db: ResaleStore, t: Row, mons: seq<ResaleMonitor>, w: World, s: Settings)
    returns (p: Probe, v: Visit, tally: Tally)
    requires t.url.Some?
    modifies db
    ensures p == ProbeOf(t, w, s)
    ensures v == Classify(t.snapshot, p, s.dryRun, w.saveRaises(t.id))
    ensures db.snapshots == SnapshotsAfter(old(db.snapshots), t.id, v, NewSnapshot(t.snapshot, p, s.now))
    ensures db.scannedAt == ScannedAfter(old(db.scannedAt), t.id, v, s)
    ensures (db.notices, tally)
            == NotifyAll(old(db.notices), Notified(t, mons, v), t.id, Checksum(p), Message(p.c, p.url), w, s)
  {
    p := ProbeRow(t, w, s);
    var checksum := Checksum(p);
    v, tally := Apply(db, t.id, t.eventId, PrevChecksum(t.snapshot) == checksum, IsFound(p.c),
                      checksum, Message(p.c, p.url), NewSnapshot(t.snapshot, p, s.now), mons, w, s);
  }

  /** The checksum comparison and what follows it: `same` when the checksum
      is the stored one, `found` for an available resale, `snap` the
      snapshot a save writes. */
  method Apply(db: ResaleStore, id: nat, eventId: Option<nat>, same: bool, found: bool, checksum: string,
               msg: string, snap: Json, mons: seq<ResaleMonitor>, w: World, s: Settings)
    returns (v: Visit, tally: Tally)
    modifies db
    ensures v == VisitOf(same, found, s.dryRun, w.saveRaises(id))
    ensures db.snapshots == SnapshotsAfter(old(db.snapshots), id, v, snap)
    ensures db.scannedAt == ScannedAfter(old(db.scannedAt), id, v, s)
    ensures (db.notices, tally)
            == NotifyAll(old(db.notices), if v.Saved? && found then MonitorsFor(mons, eventId) else [],
                         id, checksum, msg, w, s)
  {
    tally := Tally(0, 0, 0);
    NotifyNone(db.notices, id, checksum, msg, w, s);
    if same {
      if !s.dryRun {
        db.scannedAt := db.scannedAt[id := s.now];
      }
      return Unchanged, tally;
    }
    if s.dryRun {
      return DryRefresh(found), tally;
    }
    if w.saveRaises(id) {
      return SaveRaised, tally;
    }
    db.snapshots := db.snapshots[id := snap];
    db.scannedAt := db.scannedAt[id := s.now];
    v := Saved(found);
    if found {
      tally := NotifyMonitors(db, MonitorsFor(mons, eventId), id, checksum, msg, w, s);
    }
  }

  lemma NotifyNone(ns: seq<Notice>, row: nat, checksum: string, msg: string, w: World, s: Settings)
    ensures NotifyAll(ns, [], row, checksum, msg, w, s) == (ns, Tally(0, 0, 0))
  {
  }

  /** The three tables the scan writes. */
  datatype ResaleState = ResaleState(snapshots: map<nat, Json>, scannedAt: map<nat, int>, notices: seq<Notice>)

  /** One mapping probed as `p`, as the loop of `handle` sees it: the
      tables after it and the counters it adds. */
  function StepSpec(st: ResaleState, t: Row, p: Probe, mons: seq<ResaleMonitor>, w: World, s: Settings)
    : (ResaleState, multiset<Counter>)
  {
    var v := Classify(t.snapshot, p, s.dryRun, w.saveRaises(t.id));
    var (ns, tally) := NotifyAll(st.notices, Notified(t, mons, v), t.id, Checksum(p), Message(p.c, p.url), w, s);
    (ResaleState(SnapshotsAfter(st.snapshots, t.id, v, NewSnapshot(t.snapshot, p, s.now)),
                 ScannedAfter(st.scannedAt, t.id, v, s), ns),
     VisitCounts(v) + TallyCounts(tally))
  }

  /** One mapping as the loop of `handle` sees it. */
  method Step(db: ResaleStore, t: Row, mons: seq<ResaleMonitor>, w: World, s: Settings)
    returns (counts: multiset<Counter>)
    requires t.url.Some?
    modifies db
    ensures (ResaleState(db.snapshots, db.scannedAt, db.notices), counts)
            == StepSpec(ResaleState(old(db.snapshots), old(db.scannedAt), old(db.notices)), t, ProbeOf(t, w, s), mons, w, s)
  {
    var p, v, tally := ProcessRow(db, t, mons, w, s);
    counts := VisitCounts(v) + TallyCounts(tally);
  }

  /** One mapping is counted once as updated, skipped or an error, found
      only when updated; it sends mail only for records it creates, none
      with `no_email`; it appends one record per `notif_created`, each under
      a key without a SENT record; a dry run writes nothing. */
  lemma StepFacts(st: ResaleState, t: Row, p: Probe, mons: seq<ResaleMonitor>, w: World, s: Settings)
    ensures var (st1, c) := StepSpec(st, t, p, mons, w, s);
            c[Updated] + c[Skipped] + c[Errors] == 1
            && c[Found] <= c[Updated]
            && c[EmailsSent] <= c[NotifCreated]
            && |st1.notices| == |st.notices| + c[NotifCreated]
            && FreshRecords(st.notices, st1.notices)
            && (s.dryRun ==> st1 == st)
            && (s.noEmail ==> c[EmailsSent] == 0)
  {
    StepCounts(st, t, p, mons, w, s);
    StepRecords(st, t, p, mons, w, s);
  }

  /** The counters of one mapping: once updated, skipped or error; found
      only when updated; mail only for records created, none with
      `no_email`. */
  lemma StepCounts(st: ResaleState, t: Row, p: Probe, mons: seq<ResaleMonitor>, w: World, s: Settings)
    ensures var c := StepSpec(st, t, p, mons, w, s).1;
            c[Updated] + c[Skipped] + c[Errors] == 1
            && c[Found] <= c[Updated]
            && c[EmailsSent] <= c[NotifCreated]
            && (s.noEmail ==> c[EmailsSent] == 0)
  {
    var v := Classify(t.snapshot, p, s.dryRun, w.saveRaises(t.id));
    var (ns, tally) := NotifyAll(st.notices, Notified(t, mons, v), t.id, Checksum(p), Message(p.c, p.url), w, s);
    NotifyAllShape(st.notices, Notified(t, mons, v), t.id, Checksum(p), Message(p.c, p.url), w, s);
    VisitTally(v, tally);
  }

  /** The records of one mapping: one per `notif_created`, each under a key
      without a SENT record; a dry run writes nothing. */
  lemma StepRecords(st: ResaleState, t: Row, p: Probe, mons: seq<ResaleMonitor>, w: World, s: Settings)
    ensures var (st1, c) := StepSpec(st, t, p, mons, w, s);
            |st1.notices| == |st.notices| + c[NotifCreated]
            && FreshRecords(st.notices, st1.notices)
            && (s.dryRun ==> st1 == st)
  {
    var v := Classify(t.snapshot, p, s.dryRun, w.saveRaises(t.id));
    var (ns, tally) := NotifyAll(st.notices, Notified(t, mons, v), t.id, Checksum(p), Message(p.c, p.url), w, s);
    NotifyAllShape(st.notices, Notified(t, mons, v), t.id, Checksum(p), Message(p.c, p.url), w, s);
    VisitTally(v, tally);
    if s.dryRun {
      NotifyNone(st.notices, t.id, Checksum(p), Message(p.c, p.url), w, s);
    }
  }

  lemma VisitTally(v: Visit, tally: Tally)
    ensures var c := VisitCounts(v) + TallyCounts(tally);
      c[Updated] + c[Skipped] + c[Errors] == 1 && c[Found] <= c[Updated]
      && c[EmailsSent] == tally.mailed && c[NotifCreated] == tally.created
  {
  }

  /** Every mapping has a URL. */
  predicate AllHaveUrl(rows: seq<Row>)
  {
    forall i :: 0 <= i < |rows| ==> rows[i].url.Some?
  }

  /** The loop of `handle` over the mappings, the `i`-th probed as
      `ps[i]`: the tables after it and the counters it adds. */
  function RunSpec(st: ResaleState, rows: seq<Row>, ps: seq<Probe>, mons: seq<ResaleMonitor>, w: World, s: Settings)
    : (ResaleState, multiset<Counter>)
    requires |ps| == |rows|
    decreases |rows|
  {
    if rows == [] then (st, multiset{})
    else
      var (st1, c) := StepSpec(st, rows[0], ps[0], mons, w, s);
      var (st2, cs) := RunSpec(st1, rows[1..], ps[1..], mons, w, s);
      (st2, c + cs)
  }

  /** The probes of the mappings, in order. */
  function ProbesOf(rows: seq<Row>, w: World, s: Settings): (r: seq<Probe>)
    requires AllHaveUrl(rows)
    ensures |r| == |rows|
  {
    if rows == [] then [] else [ProbeOf(rows[0], w, s)] + ProbesOf(rows[1..], w, s)
  }

  /** The `i`-th probe is the `i`-th mapping's. */
  lemma {:induction false} ProbesOfAt(rows: seq<Row>, i: nat, w: World, s: Settings)
    requires AllHaveUrl(rows) && i < |rows|
    ensures ProbesOf(rows, w, s)[i] == ProbeOf(rows[i], w, s)
    decreases i
  {
    if i > 0 {
      ProbesOfAt(rows[1..], i - 1, w, s);
    }
  }

  lemma RunSpecAt(st: ResaleState, rows: seq<Row>, ps: seq<Probe>, i: nat, mons: seq<ResaleMonitor>, w: World, s: Settings)
    requires |ps| == |rows| && i < |rows|
    ensures var (st1, c) := StepSpec(st, rows[i], ps[i], mons, w, s);
            var (st2, cs) := RunSpec(st1, rows[i + 1..], ps[i + 1..], mons, w, s);
            RunSpec(st, rows[i..], ps[i..], mons, w, s) == (st2, c + cs)
  {
    assert rows[i..][0] == rows[i] && rows[i..][1..] == rows[i + 1..];
    assert ps[i..][0] == ps[i] && ps[i..][1..] == ps[i + 1..];
  }

  /** Over a run: each mapping is counted once as updated, skipped or an
      error; found never exceeds updated; mail only for records created,
      none with `no_email`. */
  lemma {:induction false} RunFacts(st: ResaleState, rows: seq<Row>, ps: seq<Probe>, mons: seq<ResaleMonitor>, w: World, s: Settings)
    requires |ps| == |rows|
    ensures var (st1, c) := RunSpec(st, rows, ps, mons, w, s);
            c[Updated] + c[Skipped] + c[Errors] == |rows|
            && c[Found] <= c[Updated]
            && c[EmailsSent] <= c[NotifCreated]
            && (s.noEmail ==> c[EmailsSent] == 0)
    decreases |rows|
  {
    if rows == [] {
      assert RunSpec(st, rows, ps, mons, w, s) == (st, multiset{});
    } else {
      var (st1, c) := StepSpec(st, rows[0], ps[0], mons, w, s);
      StepCounts(st, rows[0], ps[0], mons, w, s);
      RunFacts(st1, rows[1..], ps[1..], mons, w, s);
    }
  }

  /** Over a run: one record per `notif_created`, each under a key without
      a SENT record, appended after the old ones; a dry run writes
      nothing. */
  lemma RunRecords(st: ResaleState, rows: seq<Row>, ps: seq<Probe>, mons: seq<ResaleMonitor>, w: World, s: Settings)
    requires |ps| == |rows|
    ensures var (st1, c) := RunSpec(st, rows, ps, mons, w, s);
            |st1.notices| == |st.notices| + c[NotifCreated]
            && FreshRecords(st.notices, st1.notices)
            && (s.dryRun ==> st1 == st)
  {
    RunLength(st, rows, ps, mons, w, s);
    RunFreshRecords(st, rows, ps, mons, w, s);
    if s.dryRun {
      RunDryKeeps(st, rows, ps, mons, w, s);
    }
  }

  lemma {:induction false} RunLength(st: ResaleState, rows: seq<Row>, ps: seq<Probe>, mons: seq<ResaleMonitor>, w: World, s: Settings)
    requires |ps| == |rows|
    ensures var (st1, c) := RunSpec(st, rows, ps, mons, w, s);
            |st1.notices| == |st.notices| + c[NotifCreated]
    decreases |rows|
  {
    if rows != [] {
      var (st1, c) := StepSpec(st, rows[0], ps[0], mons, w, s);
      StepRecords(st, rows[0], ps[0], mons, w, s);
      RunLength(st1, rows[1..], ps[1..], mons, w, s);
    }
  }

  lemma {:induction false} RunFreshRecords(st: ResaleState, rows: seq<Row>, ps: seq<Probe>, mons: seq<ResaleMonitor>, w: World, s: Settings)
    requires |ps| == |rows|
    ensures FreshRecords(st.notices, RunSpec(st, rows, ps, mons, w, s).0.notices)
    decreases |rows|
  {
    if rows == [] {
      assert st.notices[..|st.notices|] == st.notices;
    } else {
      var (st1, c) := StepSpec(st, rows[0], ps[0], mons, w, s);
      StepRecords(st, rows[0], ps[0], mons, w, s);
      RunFreshRecords(st1, rows[1..], ps[1..], mons, w, s);
      FreshRecordsTrans(st.notices, st1.notices, RunSpec(st1, rows[1..], ps[1..], mons, w, s).0.notices);
    }
  }

  lemma {:induction false} RunDryKeeps(st: ResaleState, rows: seq<Row>, ps: seq<Probe>, mons: seq<ResaleMonitor>, w: World, s: Settings)
    requires |ps| == |rows| && s.dryRun
    ensures RunSpec(st, rows, ps, mons, w, s).0 == st
    decreases |rows|
  {
    if rows != [] {
      StepRecords(st, rows[0], ps[0], mons, w, s);
      RunDryKeeps(st, rows[1..], ps[1..], mons, w, s);
    }
  }

  // ---------------------------------------------------------------------
  // The command

  /** How a run ends. */
  datatype RunEnd = NoPlatform | Raised(error: string) | Done

  /** `Piattaforma.objects.filter(nome__iexact="ticketmaster").first()`. */
  function TicketmasterOf(ps: seq<Platform>): (r: Option<Platform>)
    ensures r.Some? ==> r.value in ps && Lower(r.value.name) == "ticketmaster"
    ensures r.None? ==> forall p :: p in ps ==> Lower(p.name) != "ticketmaster"
  {
    if ps == [] then None
    else if Lower(ps[0].name) == "ticketmaster" then Some(ps[0])
    else TicketmasterOf(ps[1..])
  }

  /** The mappings of the platform with a non-empty URL, in table order. */
  function Queue(table: seq<Row>, plat: nat): (r: seq<Row>)
    ensures |r| <= |table|
    ensures forall i :: 0 <= i < |r| ==> r[i].platform == plat && r[i].url.Some? && r[i].url.value != ""
  {
    if table == [] then []
    else
      var rest := Queue(table[1..], plat);
      var t := table[0];
      if t.platform == plat && t.url.Some? && t.url.value != "" then [t] + rest else rest
  }

  /** `handle`. `table` is the mapping table in descending id order. */
  method Handle(db: ResaleStore, platforms: seq<Platform>, table: seq<Row>, mons: seq<ResaleMonitor>,
                limit: int, maxRetries: int, enablePrices: bool, dryRun: bool, noEmail: bool, now: int,
                w: World)
    returns (end: RunEnd, scanned: seq<Row>, counts: multiset<Counter>)
    modifies db
    ensures end == NoPlatform <==> TicketmasterOf(platforms).None?
    ensures end.Raised? <==> TicketmasterOf(platforms).Some? && limit < 0
    ensures end.Raised? ==> end.error == NegativeSlice
    ensures end.Done? ==> scanned == Take(Queue(table, TicketmasterOf(platforms).value.id), limit)
    ensures end.Done? ==> (ResaleState(db.snapshots, db.scannedAt, db.notices), counts)
                          == RunSpec(ResaleState(old(db.snapshots), old(db.scannedAt), old(db.notices)), scanned,
                                     ProbesOf(scanned, w, Settings(maxRetries, enablePrices, dryRun, noEmail, now)), mons, w,
                                     Settings(maxRetries, enablePrices, dryRun, noEmail, now))
    ensures !end.Done? ==> scanned == [] && counts == multiset{} && unchanged(db)
    ensures counts[Updated] + counts[Skipped] + counts[Errors] == |scanned|
    ensures counts[Found] <= counts[Updated]
    ensures counts[EmailsSent] <= counts[NotifCreated]
    ensures |db.notices| == |old(db.notices)| + counts[NotifCreated]
    ensures FreshRecords(old(db.notices), db.notices)
    ensures dryRun ==> db.notices == old(db.notices) && db.snapshots == old(db.snapshots)
                       && db.scannedAt == old(db.scannedAt)
    ensures noEmail ==> counts[EmailsSent] == 0
  {
    counts := multiset{};
    scanned := [];
    assert db.notices[..|db.notices|] == db.notices;
    var plat := TicketmasterOf(platforms);
    if plat.None? {
      return NoPlatform, scanned, counts;
    }
    if limit < 0 {
      return Raised(NegativeSlice), scanned, counts;
    }
    end := Done;
    scanned := Take(Queue(table, plat.value.id), limit);
    var s := Settings(maxRetries, enablePrices, dryRun, noEmail, now);
    ghost var st := ResaleState(db.snapshots, db.scannedAt, db.notices);
    counts := RunRows(db, scanned, mons, w, s);
    RunFacts(st, scanned, ProbesOf(scanned, w, s), mons, w, s);
    RunRecords(st, scanned, ProbesOf(scanned, w, s), mons, w, s);
  }

  /** The loop of `handle` over the mappings scanned. */
  method RunRows(db: ResaleStore, rows: seq<Row>, mons: seq<ResaleMonitor>, w: World, s: Settings)
    returns (counts: multiset<Counter>)
    requires AllHaveUrl(rows)
    modifies db
    ensures (ResaleState(db.snapshots, db.scannedAt, db.notices), counts)
            == RunSpec(ResaleState(old(db.snapshots), old(db.scannedAt), old(db.notices)), rows, ProbesOf(rows, w, s),
                       mons, w, s)
  {
    counts := multiset{};
    ghost var st0 := ResaleState(db.snapshots, db.scannedAt, db.notices);
    ghost var ps := ProbesOf(rows, w, s);
    assert rows[0..] == rows && ps[0..] == ps;
    assert counts + RunSpec(st0, rows, ps, mons, w, s).1 == RunSpec(st0, rows, ps, mons, w, s).1;
    var i := 0;
    while i < |rows|
      invariant 0 <= i <= |rows|
      invariant RunSpec(st0, rows, ps, mons, w, s)
                  == Joined(RunSpec(ResaleState(db.snapshots, db.scannedAt, db.notices), rows[i..], ps[i..], mons, w, s),
                            counts)
    {
      counts := Advance(db, rows, ps, i, mons, w, s, counts);
      i := i + 1;
    }
    assert counts + multiset{} == counts;
  }

  /** The `i`-th pass of the loop of `handle`: what is left of the run
      after it, joined to the counters so far, is what it was before. */
  method Advance(db: ResaleStore, rows: seq<Row>, ghost ps: seq<Probe>, i: nat, mons: seq<ResaleMonitor>, w: World,
                 s: Settings, counts: multiset<Counter>)
    returns (counts': multiset<Counter>)
    requires AllHaveUrl(rows) && i < |rows| && ps == ProbesOf(rows, w, s)
    modifies db
    ensures Joined(RunSpec(ResaleState(old(db.snapshots), old(db.scannedAt), old(db.notices)), rows[i..], ps[i..], mons, w, s),
                   counts)
            == Joined(RunSpec(ResaleState(db.snapshots, db.scannedAt, db.notices), rows[i + 1..], ps[i + 1..], mons, w, s),
                      counts')
  {
    ghost var cur := ResaleState(db.snapshots, db.scannedAt, db.notices);
    ProbesOfAt(rows, i, w, s);
    var more := Step(db, rows[i], mons, w, s);
    RunSpecNext(cur, ResaleState(db.snapshots, db.scannedAt, db.notices), more, rows, ps, i, mons, w, s, counts);
    counts' := counts + more;
  }

  /** The rest of a run after counters `counts` were added. */
  function Joined(r: (ResaleState, multiset<Counter>), counts: multiset<Counter>): (ResaleState, multiset<Counter>)
  {
    (r.0, counts + r.1)
  }

  /** One step of the loop of `handle` keeps what the run will leave. */
  lemma RunSpecNext(cur: ResaleState, next: ResaleState, more: multiset<Counter>, rows: seq<Row>, ps: seq<Probe>,
                    i: nat, mons: seq<ResaleMonitor>, w: World, s: Settings, counts: multiset<Counter>)
    requires |ps| == |rows| && i < |rows|
    requires (next, more) == StepSpec(cur, rows[i], ps[i], mons, w, s)
    ensures Joined(RunSpec(cur, rows[i..], ps[i..], mons, w, s), counts)
            == Joined(RunSpec(next, rows[i + 1..], ps[i + 1..], mons, w, s), counts + more)
  {
    RunSpecAt(cur, rows, ps, i, mons, w, s);
    var rest := RunSpec(next, rows[i + 1..], ps[i + 1..], mons, w, s);
    assert counts + (more + rest.1) == (counts + more) + rest.1;
  }

  /** A failed send is not retried while the page reads the same: the
      saving scan stores the new checksum even though the mail raised, so
      the next scan with the same signal text skips the mapping and
      notifies no monitor. */
  lemma FailedSendNotRetried(t: Row, mons: seq<ResaleMonitor>, p1: Probe, p2: Probe, s: Settings, raises: bool)
    requires Classify(t.snapshot, p1, s.dryRun, raises) == Saved(true)
    requires SignalText(p2) == SignalText(p1)
    ensures Classify(NewSnapshot(t.snapshot, p1, s.now), p2, s.dryRun, raises) == Unchanged
    ensures Notified(t.(snapshot := NewSnapshot(t.snapshot, p1, s.now)), mons, Unchanged) == []
  {
    RescanSkipsIffSameSignals(t.snapshot, p1, p2, s.now, s.dryRun, raises);
  }
}
