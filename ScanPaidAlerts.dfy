/** The older paid back-in-stock scan (`scan_paid_alerts`). It follows the
    same chain as the PRO scan with these differences: the platform name is
    matched exactly; the probe call is outside any `try`, so its exception
    ends the whole run; any notification under the key, whatever its
    status, counts as a duplicate; the mail is tried once; `notified` is
    counted even when the send raised or the user opted out; and `sent_at`
    is the time the run started.

    `session` says whether the probe is called with the `session=` keyword
    the page check does not accept; the command as written passes it. */
module ScanPaidAlerts {
  import opened Wrappers
  import opened Calendar
  import opened TmSignals
  import opened TmResaleFetch
  import opened TmAvailability
  import opened Alerts

  /** How one monitor's checks ended. */
  datatype Outcome =
    | NoPerformance
    | HasInternal
    | NoMappingUrl
    | ProbeNotOk(status: Option<int>)
    | NotAvailable(availability: Avail)
    | Deduped
    | WouldNotify
    | EmailRaised(error: string)
    | EmailOptOut
    | Emailed

  /** The run's counters. */
  datatype Counter =
    | Done | Notified | SkipNoPerf | SkipInternal | SkipNoMapping | SkipNotAvail | SkipDeduped | SkipTmError

  /** The one counter besides `done` an outcome increments. */
  function CounterOf(o: Outcome): (c: Counter)
    ensures c != Done
    ensures c == Notified <==> o in {WouldNotify, EmailOptOut, Emailed} || o.EmailRaised?
  {
    match o
    case NoPerformance => SkipNoPerf
    case HasInternal => SkipInternal
    case NoMappingUrl => SkipNoMapping
    case ProbeNotOk(_) => SkipTmError
    case NotAvailable(_) => SkipNotAvail
    case Deduped => SkipDeduped
    case WouldNotify => Notified
    case EmailRaised(_) => Notified
    case EmailOptOut => Notified
    case Emailed => Notified
  }

  /** The pause after a monitor: none before the probe, the heavy cooldown
      after a 403 or 429, else the normal one. */
  function PauseAfter(o: Outcome): Pause
  {
    match o
    case NoPerformance => NoPause
    case HasInternal => NoPause
    case NoMappingUrl => NoPause
    case ProbeNotOk(st) => if st == Some(403) || st == Some(429) then HeavyPause else NormalPause
    case _ => NormalPause
  }

  /** The run's settings. */
  datatype Settings = Settings(dryRun: bool, session: bool, today: DateTime, now: int)

  predicate ValidSettings(s: Settings) { Valid(s.today) }

  /** What the outside world does for one monitor: the page GET, and the
      one `send_mail` attempt. */
  datatype World = World(probe: PageOutcome, mail: Mail)

  function KeyOf(m: Monitor, today: DateTime): string
    requires m.perf.Some? && Valid(today)
  {
    DayKey(m.perf.value.id, m.sub.user.id, "ticketmaster", "BACK_IN_STOCK", today)
  }

  /** The checks before the probe: the outcome they end in, or the URL. */
  function UrlToProbe(m: Monitor): (r: Result<string>)
    ensures r.Ok? <==> m.perf.Some? && !m.perf.value.hasInternal && MappingFor(m.perf.value, false).Some?
    ensures r.Ok? ==> r.value == MappingFor(m.perf.value, false).value.0
  {
    if m.perf.None? then Err("no performance")
    else if m.perf.value.hasInternal then Err("internal tickets")
    else match MappingFor(m.perf.value, false)
      case None => Err("no mapping")
      case Some(mapping) => Ok(mapping.0)
  }

  /** The chain for one monitor; an `Err` is the exception that ends the
      run. */
  function Decide(m: Monitor, notices: seq<Notice>, w: World, s: Settings): Result<Outcome>
    requires ValidSettings(s)
  {
    if m.perf.None? then Ok(NoPerformance)
    else if m.perf.value.hasInternal then Ok(HasInternal)
    else match UrlToProbe(m)
      case Err(_) => Ok(NoMappingUrl)
      case Ok(url) =>
        match InvokeCheckPage(PageCall(url, s.session), w.probe)
        case Err(e) => Err(e)
        case Ok(page) => Ok(AfterProbe(m, notices, page, w.mail, s))
  }

  /** The rest of the chain once the probe answered. */
  function AfterProbe(m: Monitor, notices: seq<Notice>, page: PageCheck, mail: Mail, s: Settings): Outcome
    requires m.perf.Some? && ValidSettings(s)
  {
    if !page.ok then ProbeNotOk(page.statusCode)
    else if page.availability != Available then NotAvailable(page.availability)
    else if HasKey(notices, KeyOf(m, s.today)) then Deduped
    else if s.dryRun then WouldNotify
    else if !m.sub.user.notifyEmail then EmailOptOut
    else if mail.MailRaised? then EmailRaised(mail.error)
    else Emailed
  }

  /** The SENT notification written after the mail went out. */
  function SentNotice(m: Monitor, s: Settings): Notice
    requires m.perf.Some? && ValidSettings(s) && UrlToProbe(m).Ok?
  {
    Notice(m.id, "email", KeyOf(m, s.today), Sent, Some(s.now), BackInStockMail(m, UrlToProbe(m).value))
  }

  /** As written: with the `session=` keyword every monitor that reaches
      the probe raises, and that exception ends the run. */
  lemma SessionKeywordAbortsRun(m: Monitor, notices: seq<Notice>, w: World, s: Settings)
    requires ValidSettings(s) && s.session
    ensures Decide(m, notices, w, s).Err? <==> UrlToProbe(m).Ok?
    ensures Decide(m, notices, w, s).Ok? ==> Decide(m, notices, w, s).value in {NoPerformance, HasInternal, NoMappingUrl}
  {
  }

  /** Without the keyword no monitor raises, and the mail goes out and is
      recorded exactly when every check passes: a performance without
      internal tickets and with an exactly named mapping, an ok and
      available page, no notification of any status under today's key, not
      a dry run, e-mail allowed, and a delivered mail. */
  lemma IntendedDecide(m: Monitor, notices: seq<Notice>, w: World, s: Settings)
    requires ValidSettings(s) && !s.session
    ensures Decide(m, notices, w, s).Ok?
    ensures Decide(m, notices, w, s) == Ok(Emailed) <==>
              UrlToProbe(m).Ok? && CheckPage(w.probe).ok && CheckPage(w.probe).availability == Available
              && !HasKey(notices, KeyOf(m, s.today)) && !s.dryRun && m.sub.user.notifyEmail && w.mail.Delivered?
    ensures var o := Decide(m, notices, w, s).value;
            PauseAfter(o) == HeavyPause <==> o.ProbeNotOk? && o.status in {Some(403), Some(429)}
  {
  }

  /** `notified` counts every monitor that passed the dedupe check, mailed
      or not: a raised send and an opted-out user count as notified and
      leave no record. */
  lemma NotifiedWithoutMail(m: Monitor, notices: seq<Notice>, w: World, s: Settings)
    requires ValidSettings(s) && !s.session && !s.dryRun
    requires UrlToProbe(m).Ok? && CheckPage(w.probe).ok && CheckPage(w.probe).availability == Available
    requires !HasKey(notices, KeyOf(m, s.today))
    ensures CounterOf(Decide(m, notices, w, s).value) == Notified
    ensures Decide(m, notices, w, s).value != Emailed <==> !m.sub.user.notifyEmail || w.mail.MailRaised?
  {
  }

  /** Any notification under today's key — a FAILED one too — stops the
      monitor before the mail. */
  lemma AnyRecordDedupes(m: Monitor, notices: seq<Notice>, w: World, s: Settings)
    requires ValidSettings(s) && m.perf.Some? && HasKey(notices, KeyOf(m, s.today))
    ensures Decide(m, notices, w, s).Ok? ==> Decide(m, notices, w, s).value !in {WouldNotify, EmailOptOut, Emailed}
    ensures Decide(m, notices, w, s).Ok? ==> !Decide(m, notices, w, s).value.EmailRaised?
  {
  }

  /** The notifications the scan writes. */
  class PaidStore {
    var notices: seq<Notice>

    constructor(notices: seq<Notice>)
      ensures this.notices == notices
    {
      this.notices := notices;
    }
  }

  /** One monitor: the outcome, or the exception that ends the run. */
  method ProcessMonitor(db: PaidStore, m: Monitor, w: World, s: Settings) returns (r: Result<Outcome>)
    requires ValidSettings(s)
    modifies db
    ensures r == Decide(m, old(db.notices), w, s)
    ensures db.notices == old(db.notices) + (if r == Ok(Emailed) then [SentNotice(m, s)] else [])
  {
    if m.perf.None? {
      return Ok(NoPerformance);
    }
    if m.perf.value.hasInternal {
      return Ok(HasInternal);
    }
    var url := UrlToProbe(m);
    if url.Err? {
      return Ok(NoMappingUrl);
    }
    var res := InvokeCheckPage(PageCall(url.value, s.session), w.probe);
    if res.Err? {
      return Err(res.error);
    }
    var o := Notify(db, m, url.value, res.value, w.mail, s);
    return Ok(o);
  }

  /** The checks after the probe, and the single send. */
  method Notify(db: PaidStore, m: Monitor, url: string, page: PageCheck, mail: Mail, s: Settings) returns (o: Outcome)
    requires m.perf.Some? && ValidSettings(s) && UrlToProbe(m) == Ok(url)
    modifies db
    ensures o == AfterProbe(m, old(db.notices), page, mail, s)
    ensures db.notices == old(db.notices) + (if o == Emailed then [SentNotice(m, s)] else [])
  {
    if !page.ok {
      return ProbeNotOk(page.statusCode);
    }
    if page.availability != Available {
      return NotAvailable(page.availability);
    }
    var key := KeyOf(m, s.today);
    if HasKey(db.notices, key) {
      return Deduped;
    }
    if s.dryRun {
      return WouldNotify;
    }
    if !m.sub.user.notifyEmail {
      return EmailOptOut;
    }
    if mail.MailRaised? {
      return EmailRaised(mail.error);
    }
    db.notices := db.notices + [Notice(m.id, "email", key, Sent, Some(s.now), BackInStockMail(m, url))];
    return Emailed;
  }

  /** `ns` extends `start` by SENT notifications only, each under a key no
      notification in `start` carries, no two under the same key. */
  predicate FreshSends(start: seq<Notice>, ns: seq<Notice>)
  {
    |ns| >= |start| && ns[..|start|] == start
    && (forall k :: |start| <= k < |ns| ==> ns[k].status == Sent && !HasKey(start, ns[k].dedupeKey))
    && (forall k, l :: |start| <= k < l < |ns| ==> ns[k].dedupeKey != ns[l].dedupeKey)
  }

  lemma NewKeyKeepsFresh(start: seq<Notice>, before: seq<Notice>, n: Notice)
    requires FreshSends(start, before)
    requires n.status == Sent && !HasKey(before, n.dedupeKey)
    ensures FreshSends(start, before + [n])
  {
    var after := before + [n];
    forall i | 0 <= i < |start| ensures start[i] == before[i] {
      assert before[..|start|][i] == before[i];
    }
    assert !HasKey(start, n.dedupeKey);
    forall k | |start| <= k < |before|
      ensures after[k].dedupeKey != n.dedupeKey
    {
      assert after[k] == before[k];
    }
    assert after[..|start|] == before[..|start|];
  }

  /** The probe of monitor `m` raises and ends the run. */
  predicate Aborts(session: bool, m: Monitor)
  {
    session && UrlToProbe(m).Ok?
  }

  /** One monitor as the loop sees it: the counter of its outcome or the
      exception that ends the run, and the SENT notification appended when
      the mail went out. */
  function StepSpec(notices: seq<Notice>, m: Monitor, w: World, s: Settings): (seq<Notice>, Result<Counter>)
    requires ValidSettings(s)
  {
    var r := Decide(m, notices, w, s);
    (notices + (if r == Ok(Emailed) then [SentNotice(m, s)] else []),
     if r.Err? then Err(r.error) else Ok(CounterOf(r.value)))
  }

  /** What the loop leaves: the notifications, the counters, and the
      exception that ended it, if any. */
  datatype Run = Run(notices: seq<Notice>, counts: multiset<Counter>, aborted: Option<string>)

  /** The loop over the monitors picked, the `k`-th seeing `world(from + k)`,
      until one raises: each adds "processed" and its own counter. */
  function RunSpec(notices: seq<Notice>, ms: seq<Monitor>, world: nat -> World, from: nat, s: Settings): Run
    requires ValidSettings(s)
    decreases |ms|
  {
    if ms == [] then Run(notices, multiset{}, None)
    else
      var (n1, r) := StepSpec(notices, ms[0], world(from), s);
      if r.Err? then Run(n1, multiset{}, Some(r.error))
      else
        var rest := RunSpec(n1, ms[1..], world, from + 1, s);
        Run(rest.notices, multiset{Done, r.value} + rest.counts, rest.aborted)
  }

  lemma RunSpecAt(notices: seq<Notice>, ms: seq<Monitor>, i: nat, world: nat -> World, s: Settings)
    requires ValidSettings(s) && i < |ms|
    ensures var (n1, r) := StepSpec(notices, ms[i], world(i), s);
            var rest := RunSpec(n1, ms[i + 1..], world, i + 1, s);
            RunSpec(notices, ms[i..], world, i, s)
              == if r.Err? then Run(n1, multiset{}, Some(r.error))
                 else Run(rest.notices, multiset{Done, r.value} + rest.counts, rest.aborted)
  {
    assert ms[i..][0] == ms[i] && ms[i..][1..] == ms[i + 1..];
  }

  /** One monitor as the loop sees it. */
  method Step(db: PaidStore, m: Monitor, w: World, s: Settings) returns (r: Result<Counter>)
    requires ValidSettings(s)
    modifies db
    ensures (db.notices, r) == StepSpec(old(db.notices), m, w, s)
    ensures r.Err? <==> Aborts(s.session, m)
    ensures r.Ok? ==> r.value != Done
    ensures (s.session || s.dryRun) ==> db.notices == old(db.notices)
  {
    ghost var before := db.notices;
    var o := ProcessMonitor(db, m, w, s);
    if s.session {
      SessionKeywordAbortsRun(m, before, w, s);
    } else {
      IntendedDecide(m, before, w, s);
    }
    if o.Err? {
      return Err(o.error);
    }
    return Ok(CounterOf(o.value));
  }

  /** One monitor raises exactly when `Aborts` says so; it never counts as
      "processed" on its own; it appends at most one SENT notification,
      under a key with none; with the session keyword or in a dry run it
      appends nothing. */
  lemma StepFacts(notices: seq<Notice>, m: Monitor, w: World, s: Settings)
    requires ValidSettings(s)
    ensures var (n1, r) := StepSpec(notices, m, w, s);
            (r.Err? <==> Aborts(s.session, m)) && (r.Ok? ==> r.value != Done)
            && (n1 == notices || (n1 == notices + [SentNotice(m, s)] && SentNotice(m, s).status == Sent
                                  && !HasKey(notices, SentNotice(m, s).dedupeKey)))
            && (s.session || s.dryRun ==> n1 == notices)
  {
    if s.session {
      SessionKeywordAbortsRun(m, notices, w, s);
    } else {
      IntendedDecide(m, notices, w, s);
    }
  }

  /** One monitor raises exactly when `Aborts` says so. */
  lemma StepRaises(notices: seq<Notice>, m: Monitor, w: World, s: Settings)
    requires ValidSettings(s)
    ensures StepSpec(notices, m, w, s).1.Err? <==> Aborts(s.session, m)
  {
    StepFacts(notices, m, w, s);
  }

  /** The run stops at its first monitor, or later, or not at all. */
  lemma RunAbortsHead(notices: seq<Notice>, ms: seq<Monitor>, world: nat -> World, from: nat, s: Settings)
    requires ValidSettings(s) && ms != []
    ensures var (n1, r) := StepSpec(notices, ms[0], world(from), s);
            (RunSpec(notices, ms, world, from, s).aborted.Some?
             <==> r.Err? || RunSpec(n1, ms[1..], world, from + 1, s).aborted.Some?)
  {
  }

  /** The run stops exactly at a monitor whose probe raises. */
  lemma {:induction false} RunAbortsIff(notices: seq<Notice>, ms: seq<Monitor>, world: nat -> World, from: nat, s: Settings)
    requires ValidSettings(s)
    ensures RunSpec(notices, ms, world, from, s).aborted.Some?
        <==> exists i :: 0 <= i < |ms| && Aborts(s.session, ms[i])
    decreases |ms|
  {
    if ms == [] {
      assert RunSpec(notices, ms, world, from, s) == Run(notices, multiset{}, None);
    } else {
      var n1 := StepSpec(notices, ms[0], world(from), s).0;
      var rest := ms[1..];
      RunAbortsHead(notices, ms, world, from, s);
      StepRaises(notices, ms[0], world(from), s);
      RunAbortsIff(n1, rest, world, from + 1, s);
      if exists i :: 0 <= i < |ms| && Aborts(s.session, ms[i]) {
        var i :| 0 <= i < |ms| && Aborts(s.session, ms[i]);
        if i > 0 {
          assert rest[i - 1] == ms[i];
        }
      }
      if exists i :: 0 <= i < |rest| && Aborts(s.session, rest[i]) {
        var i :| 0 <= i < |rest| && Aborts(s.session, rest[i]);
        assert ms[i + 1] == rest[i];
      }
    }
  }

  /** When the run does not stop, every monitor adds "processed" and one
      other counter. */
  lemma {:induction false} RunCounts(notices: seq<Notice>, ms: seq<Monitor>, world: nat -> World, from: nat, s: Settings)
    requires ValidSettings(s)
    ensures var r := RunSpec(notices, ms, world, from, s);
            r.aborted.None? ==> r.counts[Done] == |ms| && |r.counts| == 2 * |ms|
    decreases |ms|
  {
    if ms == [] {
      assert RunSpec(notices, ms, world, from, s) == Run(notices, multiset{}, None);
    } else {
      var (n1, c) := StepSpec(notices, ms[0], world(from), s);
      StepFacts(notices, ms[0], world(from), s);
      if c.Ok? {
        RunCounts(n1, ms[1..], world, from + 1, s);
      }
    }
  }

  /** The run appends SENT notifications only, each under a key no earlier
      notification carries, and with the session keyword or in a dry run
      nothing at all. */
  lemma {:induction false} RunFresh(start: seq<Notice>, notices: seq<Notice>, ms: seq<Monitor>, world: nat -> World, from: nat, s: Settings)
    requires ValidSettings(s) && FreshSends(start, notices)
    ensures FreshSends(start, RunSpec(notices, ms, world, from, s).notices)
    ensures s.session || s.dryRun ==> RunSpec(notices, ms, world, from, s).notices == notices
    decreases |ms|
  {
    if ms == [] {
      assert RunSpec(notices, ms, world, from, s) == Run(notices, multiset{}, None);
    } else {
      var (n1, c) := StepSpec(notices, ms[0], world(from), s);
      StepFacts(notices, ms[0], world(from), s);
      if n1 != notices {
        NewKeyKeepsFresh(start, notices, SentNotice(ms[0], s));
      }
      if c.Ok? {
        RunFresh(start, n1, ms[1..], world, from + 1, s);
      }
    }
  }

  /** `handle`: select the monitors, then run the chain on each until one
      raises. `qs` is the monitor table in the database's order. */
  method Handle(db: PaidStore, qs: seq<Monitor>, limit: int, dryRun: bool, session: bool, now: int,
                today: DateTime, world: nat -> World)
    returns (counts: multiset<Counter>, picked: seq<Monitor>, aborted: Option<string>)
    requires Valid(today)
    modifies db
    ensures limit < 0 ==> aborted == Some(NegativeSlice) && picked == [] && unchanged(db) && counts == multiset{}
    ensures limit >= 0 ==> picked == Picks(Take(PaidRows(qs, SubOf, now), limit * 5), SubOf, limit, now, 0)
                           && picked == Take(PaidRows(qs, SubOf, now), limit)
    ensures limit >= 0 ==> Run(db.notices, counts, aborted)
                             == RunSpec(old(db.notices), picked, world, 0, Settings(dryRun, session, today, now))
    ensures limit >= 0 ==> (aborted.Some? <==> exists i :: 0 <= i < |picked| && Aborts(session, picked[i]))
    ensures aborted.None? ==> counts[Done] == |picked| && |counts| == 2 * |picked|
    ensures FreshSends(old(db.notices), db.notices)
    ensures (session || dryRun) ==> db.notices == old(db.notices)
  {
    counts := multiset{};
    picked := [];
    var selected := Select(PaidRows(qs, SubOf, now), SubOf, limit, now);
    if selected.Err? {
      assert db.notices[..|db.notices|] == db.notices;
      return counts, picked, Some(selected.error);
    }
    picked := selected.value;
    PaidSelectionIsPrefix(qs, SubOf, limit, now);
    var s := Settings(dryRun, session, today, now);
    ghost var start := db.notices;
    counts, aborted := RunMonitors(db, picked, world, s);
    RunAbortsIff(start, picked, world, 0, s);
    RunCounts(start, picked, world, 0, s);
    assert start[..|start|] == start;
    RunFresh(start, start, picked, world, 0, s);
  }

  /** The loop of `handle` over the monitors picked. */
  method RunMonitors(db: PaidStore, picked: seq<Monitor>, world: nat -> World, s: Settings)
    returns (counts: multiset<Counter>, aborted: Option<string>)
    requires ValidSettings(s)
    modifies db
    ensures Run(db.notices, counts, aborted) == RunSpec(old(db.notices), picked, world, 0, s)
  {
    counts, aborted := multiset{}, None;
    ghost var n0 := db.notices;
    assert picked[0..] == picked;
    assert counts + RunSpec(n0, picked, world, 0, s).counts == RunSpec(n0, picked, world, 0, s).counts;
    var i := 0;
    while i < |picked|
      invariant 0 <= i <= |picked|
      invariant RunSpec(n0, picked, world, 0, s)
                  == (var r := RunSpec(db.notices, picked[i..], world, i, s); Run(r.notices, counts + r.counts, r.aborted))
    {
      RunSpecAt(db.notices, picked, i, world, s);
      var r := Step(db, picked[i], world(i), s);
      if r.Err? {
        assert counts + multiset{} == counts;
        aborted := Some(r.error);
        return;
      }
      assert counts + (multiset{Done, r.value} + RunSpec(db.notices, picked[i + 1..], world, i + 1, s).counts)
          == (counts + multiset{Done, r.value}) + RunSpec(db.notices, picked[i + 1..], world, i + 1, s).counts;
      counts := counts + multiset{Done, r.value};
      i := i + 1;
    }
    assert counts + multiset{} == counts;
  }
}
