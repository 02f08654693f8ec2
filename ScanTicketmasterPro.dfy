/** The PRO back-in-stock scan (`scan_ticketmaster_pro`): active paid
    monitors are selected, and each is taken through a fixed chain of
    checks — performance, internal tickets, Ticketmaster mapping, page
    probe, availability, today's SENT notification, the user's e-mail
    preference, dry run, the retried send — ending in exactly one outcome
    counter. A SENT notification is written only after a delivered mail.

    The probe is called with a `session=` keyword the page check does not
    accept; `session` below says whether that keyword is passed, so the
    command as written is `session == true`. */
module ScanTicketmasterPro {
  import opened Wrappers
  import opened Text
  import opened Calendar
  import opened TmSignals
  import opened TmResaleFetch
  import opened TmAvailability
  import opened Alerts

  // ---------------------------------------------------------------------
  // One monitor

  /** How one monitor's checks ended. */
  datatype Outcome =
    | NoPerformance
    | HasInternal
    | NoMappingUrl
    | ProbeRaised(error: string)
    | ProbeNotOk(status: Option<int>)
    | NotAvailable(availability: Avail)
    | AlreadySent
    | EmailOptOut
    | WouldEmail
    | SendFailed(error: string)
    | Emailed

  /** The entries of the `counters` dictionary. */
  datatype Counter =
    | Processed | Notified | SkipNoPerf | SkipInternal | SkipNoMapping | SkipNotAvail | SkipDedup
    | TmError | EmailFail | NoEmailPref

  /** The one outcome counter an outcome increments. */
  function CounterOf(o: Outcome): (c: Counter)
    ensures c != Processed
  {
    match o
    case NoPerformance => SkipNoPerf
    case HasInternal => SkipInternal
    case NoMappingUrl => SkipNoMapping
    case ProbeRaised(_) => TmError
    case ProbeNotOk(_) => TmError
    case NotAvailable(_) => SkipNotAvail
    case AlreadySent => SkipDedup
    case EmailOptOut => NoEmailPref
    case WouldEmail => Notified
    case SendFailed(_) => EmailFail
    case Emailed => Notified
  }

  /** The pause taken after a monitor: none before the probe, the heavy
      cooldown after a probe exception or a 403/429, else the normal one. */
  function PauseAfter(o: Outcome): Pause
  {
    match o
    case NoPerformance => NoPause
    case HasInternal => NoPause
    case NoMappingUrl => NoPause
    case ProbeRaised(_) => HeavyPause
    case ProbeNotOk(st) => if st == Some(403) || st == Some(429) then HeavyPause else NormalPause
    case _ => NormalPause
  }

  const Platform := "ticketmaster"
  const Reason := "BACK_IN_STOCK"

  /** The monitor's dedupe key for `today` (its performance must be set). */
  function KeyOf(m: Monitor, today: DateTime): string
    requires m.perf.Some? && Valid(today)
  {
    DayKey(m.perf.value.id, m.sub.user.id, Platform, Reason, today)
  }

  /** The per-monitor inputs from the outside world: what the page GET
      produced and what each `send_mail` attempt does. */
  datatype World = World(probe: PageOutcome, mails: nat -> Mail)

  /** The run's settings after clamping. */
  datatype Settings = Settings(retries: int, wait: real, dryRun: bool, session: bool, today: DateTime, now: int)

  predicate ValidSettings(s: Settings) { Valid(s.today) }

  /** The checks made before the probe: either the outcome they end in,
      or the URL to probe and the mapping row it came from. */
  datatype Gate = Stop(outcome: Outcome) | Go(url: string, row: LinkRef)

  function GateOf(m: Monitor): (g: Gate)
    ensures g.Go? <==> m.perf.Some? && !m.perf.value.hasInternal && MappingFor(m.perf.value, true).Some?
    ensures g.Go? ==> MappingFor(m.perf.value, true) == Some((g.url, g.row))
    ensures g.Stop? ==> g.outcome in {NoPerformance, HasInternal, NoMappingUrl}
  {
    if m.perf.None? then Stop(NoPerformance)
    else if m.perf.value.hasInternal then Stop(HasInternal)
    else
      match MappingFor(m.perf.value, true)
      case None => Stop(NoMappingUrl)
      case Some(mapping) => Go(mapping.0, mapping.1)
  }

  /** The chain of checks for one monitor, in the command's order. */
  function Decide(m: Monitor, notices: seq<Notice>, w: World, s: Settings): Outcome
    requires ValidSettings(s)
  {
    match GateOf(m)
    case Stop(o) => o
    case Go(url, _) =>
      match InvokeCheckPage(PageCall(url, s.session), w.probe)
      case Err(e) => ProbeRaised(e)
      case Ok(page) => AfterProbe(m, notices, page, w.mails, s)
  }

  /** The rest of the chain, once the probe returned. */
  function AfterProbe(m: Monitor, notices: seq<Notice>, page: PageCheck, mails: nat -> Mail, s: Settings): Outcome
    requires m.perf.Some? && ValidSettings(s)
  {
    if !page.ok then ProbeNotOk(page.statusCode)
    else if page.availability != Available then NotAvailable(page.availability)
    else if HasSent(notices, KeyOf(m, s.today)) then AlreadySent
    else if !m.sub.user.notifyEmail then EmailOptOut
    else if s.dryRun then WouldEmail
    else
      var run := SendFrom(mails, s.retries, s.wait, 0, "");
      if run.ok then Emailed else SendFailed(run.lastError)
  }

  /** The SENT notification written after a delivered mail. */
  function SentNotice(m: Monitor, s: Settings): Notice
    requires m.perf.Some? && ValidSettings(s) && MappingFor(m.perf.value, true).Some?
  {
    Notice(m.id, "email", KeyOf(m, s.today), Sent, Some(s.now), BackInStockMail(m, MappingFor(m.perf.value, true).value.0))
  }

  /** What `Decide` means: the mail goes out and is recorded exactly when
      every check passes — a performance without internal tickets, a
      mapping, a probe made without the `session=` keyword that answers ok
      and available, no SENT notification under today's key, e-mail
      allowed, not a dry run — and one of the allowed attempts delivers. */
  lemma EmailedExactly(m: Monitor, notices: seq<Notice>, w: World, s: Settings)
    requires ValidSettings(s)
    ensures Decide(m, notices, w, s) == Emailed <==>
              m.perf.Some? && !m.perf.value.hasInternal && MappingFor(m.perf.value, true).Some?
              && !s.session && CheckPage(w.probe).ok && CheckPage(w.probe).availability == Available
              && !HasSent(notices, KeyOf(m, s.today)) && m.sub.user.notifyEmail && !s.dryRun
              && (exists j :: 0 <= j < s.retries && w.mails(j).Delivered?)
  {
    SendRunShape(w.mails, s.retries, s.wait, 0, "");
  }

  /** The `session=` keyword makes every probe raise: no monitor ever gets
      past the probe, so the command as written never e-mails, never
      records a notification and counts every mapped monitor as `tm_error`. */
  lemma SessionKeywordBlocksAlerts(m: Monitor, notices: seq<Notice>, w: World, s: Settings)
    requires ValidSettings(s) && s.session
    ensures var o := Decide(m, notices, w, s);
            o.NoPerformance? || o.HasInternal? || o.NoMappingUrl? || o.ProbeRaised?
    ensures m.perf.Some? && !m.perf.value.hasInternal && MappingFor(m.perf.value, true).Some? ==>
              CounterOf(Decide(m, notices, w, s)) == TmError
  {
  }

  /** Without the keyword the probe's own verdict decides: a failed probe
      is a `tm_error` with the heavy cooldown exactly for 403 and 429, a
      probe that is not "available" skips the monitor, and an available
      one moves on to the dedupe check. */
  lemma IntendedProbeDecides(m: Monitor, notices: seq<Notice>, w: World, s: Settings)
    requires ValidSettings(s) && !s.session
    requires m.perf.Some? && !m.perf.value.hasInternal && MappingFor(m.perf.value, true).Some?
    ensures var o := Decide(m, notices, w, s);
            var res := CheckPage(w.probe);
            (!res.ok ==> o == ProbeNotOk(res.statusCode)
                         && (PauseAfter(o) == HeavyPause <==> res.statusCode in {Some(403), Some(429)}))
            && (res.ok && res.availability != Available ==> o == NotAvailable(res.availability))
            && (res.ok && res.availability == Available ==>
                  (o == AlreadySent <==> HasSent(notices, KeyOf(m, s.today))))
  {
  }

  /** A dry run reaches at most `WouldEmail`: no mail is sent, so none
      fails and none is recorded. */
  lemma DryRunSendsNothing(m: Monitor, notices: seq<Notice>, w: World, s: Settings)
    requires ValidSettings(s) && s.dryRun
    ensures var o := Decide(m, notices, w, s);
            !o.Emailed? && !o.SendFailed?
  {
  }

  /** A SENT notification under the monitor's key for today stops it at
      the dedupe check at the latest: no mail is even considered. */
  lemma SentKeyStops(m: Monitor, notices: seq<Notice>, w: World, s: Settings)
    requires ValidSettings(s) && m.perf.Some? && HasSent(notices, KeyOf(m, s.today))
    ensures var o := Decide(m, notices, w, s);
            !(o.Emailed? || o.SendFailed? || o.WouldEmail? || o.EmailOptOut?)
  {
  }

  /** Once a monitor's mail went out and was recorded, no monitor of the
      same user and performance is mailed again that day. */
  lemma OneMailPerDay(m: Monitor, m2: Monitor, notices: seq<Notice>, w: World, w2: World, s: Settings)
    requires ValidSettings(s)
    requires Decide(m, notices, w, s) == Emailed
    requires m2.perf.Some? && m2.perf.value.id == m.perf.value.id && m2.sub.user.id == m.sub.user.id
    ensures var o := Decide(m2, notices + [SentNotice(m, s)], w2, s);
            !(o.Emailed? || o.SendFailed? || o.WouldEmail? || o.EmailOptOut?)
  {
    EmailedKeyWasFree(m, notices, w, s);
    var n := SentNotice(m, s);
    assert n.status == Sent && n.dedupeKey == KeyOf(m2, s.today);
    HasSentAppend(notices, n, KeyOf(m2, s.today));
    SentKeyStops(m2, notices + [n], w2, s);
  }

  // ---------------------------------------------------------------------
  // The store and the command

  /** The rows the scan writes: notifications, and the last-scan time of
      the mapping rows. */
  datatype ProState = ProState(notices: seq<Notice>, scans: map<LinkRef, int>)

  class ProStore {
    var notices: seq<Notice>
    var scans: map<LinkRef, int>

    function State(): ProState
      reads this
    {
      ProState(notices, scans)
    }

    constructor(notices: seq<Notice>, scans: map<LinkRef, int>)
      ensures this.notices == notices && this.scans == scans
    {
      this.notices := notices;
      this.scans := scans;
    }
  }

  /** One monitor, inside the per-monitor `try`. */
  method ProcessMonitor(db: ProStore, m: Monitor, w: World, s: Settings) returns (o: Outcome)
    requires ValidSettings(s)
    modifies db
    ensures o == Decide(m, old(db.notices), w, s)
    ensures db.notices == old(db.notices) + (if o == Emailed then [SentNotice(m, s)] else [])
    ensures GateOf(m).Go? ==> db.scans == old(db.scans)[GateOf(m).row := s.now]
    ensures GateOf(m).Stop? ==> db.scans == old(db.scans)
  {
    var g := GateOf(m);
    if g.Stop? {
      return g.outcome;
    }
    var res := InvokeCheckPage(PageCall(g.url, s.session), w.probe);
    db.scans := db.scans[g.row := s.now];
    if res.Err? {
      return ProbeRaised(res.error);
    }
    o := Notify(db, m, g.url, res.value, w.mails, s);
  }

  /** The checks after the probe, and the send. */
  method Notify(db: ProStore, m: Monitor, url: string, page: PageCheck, mails: nat -> Mail, s: Settings)
    returns (o: Outcome)
    requires m.perf.Some? && ValidSettings(s) && MappingFor(m.perf.value, true).Some?
    requires url == MappingFor(m.perf.value, true).value.0
    modifies db
    ensures o == AfterProbe(m, old(db.notices), page, mails, s)
    ensures db.notices == old(db.notices) + (if o == Emailed then [SentNotice(m, s)] else [])
    ensures db.scans == old(db.scans)
  {
    if !page.ok {
      return ProbeNotOk(page.statusCode);
    }
    if page.availability != Available {
      return NotAvailable(page.availability);
    }
    var key := KeyOf(m, s.today);
    if HasSent(db.notices, key) {
      return AlreadySent;
    }
    if !m.sub.user.notifyEmail {
      return EmailOptOut;
    }
    if s.dryRun {
      return WouldEmail;
    }
    var ok, err, calls, waits := SendWithRetry(mails, s.retries, s.wait);
    if !ok {
      return SendFailed(err);
    }
    db.notices := db.notices + [Notice(m.id, "email", key, Sent, Some(s.now), BackInStockMail(m, url))];
    return Emailed;
  }

  /** A mail is recorded only under a key that had no SENT notification. */
  lemma EmailedKeyWasFree(m: Monitor, notices: seq<Notice>, w: World, s: Settings)
    requires ValidSettings(s) && Decide(m, notices, w, s) == Emailed
    ensures m.perf.Some? && MappingFor(m.perf.value, true).Some? && !HasSent(notices, KeyOf(m, s.today))
  {
  }

  /** One monitor as the loop of `handle` sees it: its outcome's counter,
      the SENT notification appended when a mail went out, and the scan
      time of its mapping row when the probe was reached. */
  function StepSpec(st: ProState, m: Monitor, w: World, s: Settings): (ProState, Counter)
    requires ValidSettings(s)
  {
    var o := Decide(m, st.notices, w, s);
    var g := GateOf(m);
    (ProState(st.notices + (if o == Emailed then [SentNotice(m, s)] else []),
              if g.Go? then st.scans[g.row := s.now] else st.scans),
     CounterOf(o))
  }

  /** The loop over the monitors picked, the `k`-th seeing `world(from + k)`:
      each adds "processed" and its own counter. */
  function RunSpec(st: ProState, ms: seq<Monitor>, world: nat -> World, from: nat, s: Settings)
    : (ProState, multiset<Counter>)
    requires ValidSettings(s)
    decreases |ms|
  {
    if ms == [] then (st, multiset{})
    else
      var (st1, c) := StepSpec(st, ms[0], world(from), s);
      var r := RunSpec(st1, ms[1..], world, from + 1, s);
      (r.0, multiset{Processed, c} + r.1)
  }

  lemma RunSpecAt(st: ProState, ms: seq<Monitor>, i: nat, world: nat -> World, s: Settings)
    requires ValidSettings(s) && i < |ms|
    ensures var (st1, c) := StepSpec(st, ms[i], world(i), s);
            var r := RunSpec(st1, ms[i + 1..], world, i + 1, s);
            RunSpec(st, ms[i..], world, i, s) == (r.0, multiset{Processed, c} + r.1)
  {
    assert ms[i..][0] == ms[i] && ms[i..][1..] == ms[i + 1..];
  }

  /** The settings `handle` runs with: at least one send attempt and half a
      second between attempts. */
  function SettingsOf(emailRetries: int, emailWait: real, dryRun: bool, session: bool, today: DateTime, now: int): Settings
  {
    Settings(if emailRetries < 1 then 1 else emailRetries, if emailWait < 0.5 then 0.5 else emailWait,
             dryRun, session, today, now)
  }

  /** One monitor as the loop of `handle` sees it: the counter it adds,
      and at most one new SENT notification under a key that had none. */
  method Step(db: ProStore, m: Monitor, w: World, s: Settings) returns (c: Counter)
    requires ValidSettings(s)
    modifies db
    ensures (db.State(), c) == StepSpec(old(db.State()), m, w, s)
    ensures c != Processed
    ensures db.notices == old(db.notices)
            || (exists n :: db.notices == old(db.notices) + [n] && n.status == Sent
                            && !HasSent(old(db.notices), n.dedupeKey))
    ensures (s.session || s.dryRun) ==> db.notices == old(db.notices) && c != EmailFail
    ensures s.session ==> c != Notified
  {
    ghost var before := db.notices;
    var o := ProcessMonitor(db, m, w, s);
    if s.session {
      SessionKeywordBlocksAlerts(m, before, w, s);
    }
    if s.dryRun {
      DryRunSendsNothing(m, before, w, s);
    }
    if o == Emailed {
      EmailedKeyWasFree(m, before, w, s);
      var n := SentNotice(m, s);
      assert n.status == Sent && n.dedupeKey == KeyOf(m, s.today);
      assert db.notices == before + [n];
    }
    c := CounterOf(o);
  }

  /** `handle`: select the monitors, then run the chain on each, counting.
      `qs` is the monitor table in `id` order; the query keeps the rows
      with a paid, active, unexpired subscription. */
  method Handle(db: ProStore, qs: seq<Monitor>, limit: int, emailRetries: int, emailWait: real,
                dryRun: bool, session: bool, now: int, today: DateTime, world: nat -> World)
    returns (counts: multiset<Counter>, picked: seq<Monitor>, aborted: Option<string>)
    requires Valid(today)
    modifies db
    ensures aborted.Some? <==> limit < 0
    ensures aborted.Some? ==> aborted.value == NegativeSlice && picked == [] && unchanged(db) && counts == multiset{}
    ensures aborted.None? ==> picked == Picks(Take(PaidRows(qs, SubOf, now), limit * 5), SubOf, limit, now, 0)
                              && picked == Take(PaidRows(qs, SubOf, now), limit)
    ensures aborted.None? ==>
              (db.State(), counts)
                == RunSpec(old(db.State()), picked, world, 0, SettingsOf(emailRetries, emailWait, dryRun, session, today, now))
    ensures counts[Processed] == |picked| && |counts| == 2 * |picked|
    ensures FreshSends(old(db.notices), db.notices)
    ensures (session || dryRun) ==> db.notices == old(db.notices) && counts[EmailFail] == 0
    ensures session ==> counts[Notified] == 0
  {
    counts := multiset{};
    picked := [];
    var selected := Select(PaidRows(qs, SubOf, now), SubOf, limit, now);
    if selected.Err? {
      assert db.notices[..|db.notices|] == db.notices;
      return counts, picked, Some(selected.error);
    }
    aborted := None;
    picked := selected.value;
    PaidSelectionIsPrefix(qs, SubOf, limit, now);
    var s := SettingsOf(emailRetries, emailWait, dryRun, session, today, now);
    ghost var st0 := db.State();
    counts := RunMonitors(db, picked, world, s);
    RunCounts(st0, picked, world, 0, s);
    RunFresh(st0.notices, st0, picked, world, 0, s);
    RunQuiet(st0, picked, world, 0, s);
  }

  /** The loop of `handle` over the monitors picked. */
  method RunMonitors(db: ProStore, picked: seq<Monitor>, world: nat -> World, s: Settings)
    returns (counts: multiset<Counter>)
    requires ValidSettings(s)
    modifies db
    ensures (db.State(), counts) == RunSpec(old(db.State()), picked, world, 0, s)
  {
    counts := multiset{};
    ghost var st0 := db.State();
    assert picked[0..] == picked;
    assert counts + RunSpec(st0, picked, world, 0, s).1 == RunSpec(st0, picked, world, 0, s).1;
    var i := 0;
    while i < |picked|
      invariant 0 <= i <= |picked|
      invariant RunSpec(st0, picked, world, 0, s)
                  == (var r := RunSpec(db.State(), picked[i..], world, i, s); (r.0, counts + r.1))
    {
      RunSpecAt(db.State(), picked, i, world, s);
      var c := Step(db, picked[i], world(i), s);
      assert counts + (multiset{Processed, c} + RunSpec(db.State(), picked[i + 1..], world, i + 1, s).1)
          == (counts + multiset{Processed, c}) + RunSpec(db.State(), picked[i + 1..], world, i + 1, s).1;
      counts := counts + multiset{Processed, c};
      i := i + 1;
    }
    assert counts + multiset{} == counts;
  }

  /** Each monitor adds "processed" and one other counter. */
  lemma {:induction false} RunCounts(st: ProState, ms: seq<Monitor>, world: nat -> World, from: nat, s: Settings)
    requires ValidSettings(s)
    ensures var r := RunSpec(st, ms, world, from, s);
            r.1[Processed] == |ms| && |r.1| == 2 * |ms|
    decreases |ms|
  {
    if ms != [] {
      var (st1, c) := StepSpec(st, ms[0], world(from), s);
      RunCounts(st1, ms[1..], world, from + 1, s);
    }
  }

  /** The run appends SENT notifications only, each under a key with none
      before and no two under the same key. */
  lemma {:induction false} RunFresh(start: seq<Notice>, st: ProState, ms: seq<Monitor>, world: nat -> World, from: nat, s: Settings)
    requires ValidSettings(s) && FreshSends(start, st.notices)
    ensures FreshSends(start, RunSpec(st, ms, world, from, s).0.notices)
    decreases |ms|
  {
    if ms != [] {
      var (st1, c) := StepSpec(st, ms[0], world(from), s);
      if Decide(ms[0], st.notices, world(from), s) == Emailed {
        EmailedKeyWasFree(ms[0], st.notices, world(from), s);
        var n := SentNotice(ms[0], s);
        assert n.status == Sent && n.dedupeKey == KeyOf(ms[0], s.today);
        NewKeyKeepsDistinct(start, st.notices, n);
      } else {
        assert st1.notices == st.notices;
      }
      RunFresh(start, st1, ms[1..], world, from + 1, s);
    }
  }

  /** With the session keyword or in a dry run nothing is recorded and no
      mail fails; with the session keyword nothing counts as notified. */
  lemma {:induction false} RunQuiet(st: ProState, ms: seq<Monitor>, world: nat -> World, from: nat, s: Settings)
    requires ValidSettings(s)
    ensures var r := RunSpec(st, ms, world, from, s);
            (s.session || s.dryRun ==> r.0.notices == st.notices && r.1[EmailFail] == 0)
            && (s.session ==> r.1[Notified] == 0)
    decreases |ms|
  {
    if ms != [] {
      var (st1, c) := StepSpec(st, ms[0], world(from), s);
      if s.session {
        SessionKeywordBlocksAlerts(ms[0], st.notices, world(from), s);
      }
      if s.dryRun {
        DryRunSendsNothing(ms[0], st.notices, world(from), s);
      }
      RunQuiet(st1, ms[1..], world, from + 1, s);
    }
  }

  /** `ns` extends `start` by SENT notifications only, each under a key
      with no SENT notification in `start` and no two under the same key. */
  predicate FreshSends(start: seq<Notice>, ns: seq<Notice>)
  {
    |ns| >= |start| && ns[..|start|] == start
    && (forall k :: |start| <= k < |ns| ==> ns[k].status == Sent && !HasSent(start, ns[k].dedupeKey))
    && (forall k, l :: |start| <= k < l < |ns| ==> ns[k].dedupeKey != ns[l].dedupeKey)
  }

  /** Appending a SENT notice under a key with no SENT notice keeps the new
      notices' keys distinct and fresh. */
  lemma NewKeyKeepsDistinct(start: seq<Notice>, before: seq<Notice>, n: Notice)
    requires FreshSends(start, before)
    requires n.status == Sent && !HasSent(before, n.dedupeKey)
    ensures FreshSends(start, before + [n])
  {
    var after := before + [n];
    forall i | 0 <= i < |start| ensures start[i] == before[i] {
      assert before[..|start|][i] == before[i];
    }
    assert !HasSent(start, n.dedupeKey);
    forall k | |start| <= k < |before|
      ensures after[k].dedupeKey != n.dedupeKey
    {
      assert after[k] == before[k];
    }
    assert after[..|start|] == before[..|start|];
  }
}
