/** The free-tier alert scan (`scan_free_alerts`). For each followed event
    with tickets on the platform itself (active unexpired listings or
    published resales), the follower is mailed at most once per N-minute
    bucket. The mail is sent and its SENT notification written inside one
    transaction, so a raised send leaves no record. The notification hangs
    off a monitor, which is reused or created from the user's free
    subscription. */
module ScanFreeAlerts {
  import opened Wrappers
  import opened Text
  import opened Json
  import opened Alerts

  // ---------------------------------------------------------------------
  // Availability on the platform

  /** A `Listing` as the count reads it: its performance's event, whether
      its status is ACTIVE, and its optional expiry. */
  datatype Listing = Listing(eventId: nat, active: bool, expiresAt: Option<int>)

  /** A `Rivendita`: its event, `disponibile`, and whether it is PUBLISHED. */
  datatype Resale = Resale(eventId: nat, available: bool, published: bool)

  predicate LiveListing(l: Listing, eventId: nat, now: int)
  {
    l.eventId == eventId && l.active && (l.expiresAt.None? || l.expiresAt.value > now)
  }

  predicate OpenResale(r: Resale, eventId: nat)
  {
    r.eventId == eventId && r.available && r.published
  }

  /** The first count of `availability_for_event`. */
  function ListingCount(ls: seq<Listing>, eventId: nat, now: int): nat
  {
    if ls == [] then 0
    else (if LiveListing(ls[0], eventId, now) then 1 else 0) + ListingCount(ls[1..], eventId, now)
  }

  /** The second count of `availability_for_event`. */
  function ResaleCount(rs: seq<Resale>, eventId: nat): nat
  {
    if rs == [] then 0
    else (if OpenResale(rs[0], eventId) then 1 else 0) + ResaleCount(rs[1..], eventId)
  }

  lemma {:induction false} ListingCountPositive(ls: seq<Listing>, eventId: nat, now: int)
    ensures ListingCount(ls, eventId, now) > 0 <==> exists i :: 0 <= i < |ls| && LiveListing(ls[i], eventId, now)
    ensures ListingCount(ls, eventId, now) <= |ls|
  {
    if ls != [] {
      ListingCountPositive(ls[1..], eventId, now);
      if exists i :: 0 <= i < |ls| && LiveListing(ls[i], eventId, now) {
        var i :| 0 <= i < |ls| && LiveListing(ls[i], eventId, now);
        if i > 0 { assert ls[1..][i - 1] == ls[i]; }
      }
      assert forall i :: 0 <= i < |ls[1..]| ==> ls[1..][i] == ls[i + 1];
    }
  }

  lemma {:induction false} ResaleCountPositive(rs: seq<Resale>, eventId: nat)
    ensures ResaleCount(rs, eventId) > 0 <==> exists i :: 0 <= i < |rs| && OpenResale(rs[i], eventId)
    ensures ResaleCount(rs, eventId) <= |rs|
  {
    if rs != [] {
      ResaleCountPositive(rs[1..], eventId);
      if exists i :: 0 <= i < |rs| && OpenResale(rs[i], eventId) {
        var i :| 0 <= i < |rs| && OpenResale(rs[i], eventId);
        if i > 0 { assert rs[1..][i - 1] == rs[i]; }
      }
      assert forall i :: 0 <= i < |rs[1..]| ==> rs[1..][i] == rs[i + 1];
    }
  }

  /** `has_availability`: either count is positive. */
  predicate HasAvailability(ls: seq<Listing>, rs: seq<Resale>, eventId: nat, now: int)
  {
    ListingCount(ls, eventId, now) > 0 || ResaleCount(rs, eventId) > 0
  }

  /** An event is available exactly when some listing of it is active and
      unexpired, or some resale of it is available and published. */
  lemma AvailabilityMeans(ls: seq<Listing>, rs: seq<Resale>, eventId: nat, now: int)
    ensures HasAvailability(ls, rs, eventId, now) <==>
              (exists i :: 0 <= i < |ls| && LiveListing(ls[i], eventId, now))
              || (exists i :: 0 <= i < |rs| && OpenResale(rs[i], eventId))
  {
    ListingCountPositive(ls, eventId, now);
    ResaleCountPositive(rs, eventId);
  }

  // ---------------------------------------------------------------------
  // The bucket key

  /** Python's `//` on integers: rounds toward minus infinity. */
  function FloorDiv(a: int, b: int): (q: int)
    requires b != 0
    ensures b > 0 ==> b * q <= a < b * q + b
    ensures b < 0 ==> b * q + b < a <= b * q
  {
    if b > 0 then a / b else (-a) / (-b)
  }

  /** `make_dedupe_key_free` at the Unix time `ts` (whole seconds):
      "FREE:{user}:{event}:{N}m:{ts // (N * 60)}"; N = 0 raises. */
  function FreeKey(userId: nat, eventId: nat, minutes: int, ts: int): (r: Result<string>)
    ensures r.Err? <==> minutes == 0
  {
    if minutes == 0 then Err("ZeroDivisionError: float floor division by zero")
    else Ok(KeyText(userId, eventId, minutes, FloorDiv(ts, minutes * 60)))
  }

  function KeyText(userId: nat, eventId: nat, minutes: int, bucket: int): string
  {
    "FREE:" + (NatToString(userId) + (":" + (NatToString(eventId) + ((":" + IntToString(minutes) + "m:") + IntToString(bucket)))))
  }

  /** With N > 0 the bucket of `ts` is the N-minute window holding it. */
  lemma BucketIsWindow(minutes: int, ts: int)
    requires minutes > 0
    ensures var b := FloorDiv(ts, minutes * 60);
            b * (minutes * 60) <= ts < (b + 1) * (minutes * 60)
  {
    var d := minutes * 60;
    var b := FloorDiv(ts, d);
    assert d * b <= ts < d * b + d;
    assert (b + 1) * d == b * d + d;
  }

  /** `str(n)` starts with '-' exactly when `n` is negative. */
  lemma SignChar(n: int)
    ensures IntToString(n) != [] && (IntToString(n)[0] == '-' <==> n < 0)
  {
    if n >= 0 {
      assert IsDigit(NatToString(n)[0]);
    }
  }

  /** `str` of an integer is one-to-one. */
  lemma IntToStringInjective(a: int, b: int)
    requires IntToString(a) == IntToString(b)
    ensures a == b
  {
    if a < 0 && b < 0 {
      CancelPrefix("-", NatToString(-a), NatToString(-b));
      NatToStringInjective(-a, -b);
    } else if a >= 0 && b >= 0 {
      NatToStringInjective(a, b);
    } else {
      SignChar(a);
      SignChar(b);
      assert false;
    }
  }

  /** For a fixed N, two keys are equal exactly when user, event and
      bucket are: one mail per user, event and window. */
  lemma KeyTextInjective(u1: nat, e1: nat, b1: int, u2: nat, e2: nat, b2: int, minutes: int)
    ensures KeyText(u1, e1, minutes, b1) == KeyText(u2, e2, minutes, b2) <==> u1 == u2 && e1 == e2 && b1 == b2
  {
    var mid := ":" + IntToString(minutes) + "m:";
    var v1 := mid + IntToString(b1);
    var v2 := mid + IntToString(b2);
    var t1 := ":" + (NatToString(e1) + v1);
    var t2 := ":" + (NatToString(e2) + v2);
    if KeyText(u1, e1, minutes, b1) == KeyText(u2, e2, minutes, b2) {
      CancelPrefix("FREE:", NatToString(u1) + t1, NatToString(u2) + t2);
      SplitAfterDigits(NatToString(u1), t1, NatToString(u2), t2);
      NatToStringInjective(u1, u2);
      CancelPrefix(":", NatToString(e1) + v1, NatToString(e2) + v2);
      SplitAfterDigits(NatToString(e1), v1, NatToString(e2), v2);
      NatToStringInjective(e1, e2);
      CancelPrefix(mid, IntToString(b1), IntToString(b2));
      IntToStringInjective(b1, b2);
    }
  }

  /** With N > 0, times in one N-minute window share the key and times in
      different windows do not. */
  lemma SameWindowSameKey(userId: nat, eventId: nat, minutes: int, t1: int, t2: int)
    requires minutes > 0
    ensures FreeKey(userId, eventId, minutes, t1) == FreeKey(userId, eventId, minutes, t2)
            <==> FloorDiv(t1, minutes * 60) == FloorDiv(t2, minutes * 60)
  {
    KeyTextInjective(userId, eventId, FloorDiv(t1, minutes * 60), userId, eventId, FloorDiv(t2, minutes * 60), minutes);
  }

  // ---------------------------------------------------------------------
  // The monitor a free notification hangs off

  /** A `Monitoraggio` row as this scan reads it: id, the subscription's
      user, the event, and the subscription. */
  datatype FreeMonitor = FreeMonitor(id: nat, userId: nat, eventId: nat, sub: Subscription)

  /** The newest (largest id) monitor of the user for the event. */
  function NewestMonitor(ms: seq<FreeMonitor>, userId: nat, eventId: nat): (r: Option<FreeMonitor>)
    ensures r.Some? ==> r.value in ms && r.value.userId == userId && r.value.eventId == eventId
    ensures r.Some? ==> forall i :: 0 <= i < |ms| && ms[i].userId == userId && ms[i].eventId == eventId ==> ms[i].id <= r.value.id
    ensures r.None? <==> forall i :: 0 <= i < |ms| ==> !(ms[i].userId == userId && ms[i].eventId == eventId)
  {
    if ms == [] then None
    else
      var rest := NewestMonitor(ms[1..], userId, eventId);
      assert forall i :: 0 < i < |ms| ==> ms[i] == ms[1..][i - 1];
      if ms[0].userId == userId && ms[0].eventId == eventId && (rest.None? || rest.value.id < ms[0].id) then Some(ms[0])
      else rest
  }

  /** A free subscription of the user: `attivo`, and no plan or a plan
      priced 0. */
  predicate FreeSub(ab: Subscription, userId: nat)
  {
    ab.user.id == userId && ab.active && (ab.plan.None? || ab.plan.value == 0)
  }

  /** The free subscription of the user started last (the earlier row on
      a tie). */
  function NewestFreeSub(subs: seq<Subscription>, userId: nat): (r: Option<Subscription>)
    ensures r.Some? ==> r.value in subs && FreeSub(r.value, userId)
    ensures r.Some? ==> forall i :: 0 <= i < |subs| && FreeSub(subs[i], userId) ==> subs[i].startsAt <= r.value.startsAt
    ensures r.None? <==> forall i :: 0 <= i < |subs| ==> !FreeSub(subs[i], userId)
  {
    if subs == [] then None
    else
      var rest := NewestFreeSub(subs[1..], userId);
      assert forall i :: 0 < i < |subs| ==> subs[i] == subs[1..][i - 1];
      if FreeSub(subs[0], userId) && (rest.None? || rest.value.startsAt <= subs[0].startsAt) then Some(subs[0])
      else rest
  }

  /** An id larger than every existing one: what the database assigns. */
  function NextId(ms: seq<FreeMonitor>): (r: nat)
    ensures forall i :: 0 <= i < |ms| ==> ms[i].id < r
  {
    if ms == [] then 1
    else
      var rest := NextId(ms[1..]);
      assert forall i :: 0 < i < |ms| ==> ms[i] == ms[1..][i - 1];
      if ms[0].id < rest then rest else ms[0].id + 1
  }

  /** `get_or_create_free_monitoraggio` on the monitor table `ms`: the
      monitor found or created, and the table after. */
  function MonitorFor(ms: seq<FreeMonitor>, subs: seq<Subscription>, userId: nat, eventId: nat)
    : (seq<FreeMonitor>, Option<FreeMonitor>)
  {
    match NewestMonitor(ms, userId, eventId)
    case Some(m) => (ms, Some(m))
    case None =>
      match NewestFreeSub(subs, userId)
      case None => (ms, None)
      case Some(ab) =>
        var m := FreeMonitor(NextId(ms), userId, eventId, ab);
        (ms + [m], Some(m))
  }

  /** A monitor is reused when one exists; otherwise one is created exactly
      when the user has a free subscription; and a second lookup finds the
      monitor the first one returned, creating nothing. */
  lemma MonitorForOnce(ms: seq<FreeMonitor>, subs: seq<Subscription>, userId: nat, eventId: nat)
    ensures var (ms1, m1) := MonitorFor(ms, subs, userId, eventId);
            (m1.None? <==> NewestMonitor(ms, userId, eventId).None? && NewestFreeSub(subs, userId).None?)
            && Extends(ms, ms1) && (ms1 == ms || (|ms1| == |ms| + 1 && NewestMonitor(ms, userId, eventId).None?))
            && (m1.Some? ==> m1.value.userId == userId && m1.value.eventId == eventId)
            && (m1.Some? ==> MonitorFor(ms1, subs, userId, eventId) == (ms1, m1))
  {
    var (ms1, m1) := MonitorFor(ms, subs, userId, eventId);
    assert ms[..|ms|] == ms;
    if NewestMonitor(ms, userId, eventId).None? && m1.Some? {
      var m := m1.value;
      assert ms1 == ms + [m];
      assert ms1[..|ms|] == ms;
      assert ms1[|ms|] == m;
    }
  }

  // ---------------------------------------------------------------------
  // One follow

  /** An `EventFollow`: its user, and its event's id and name. */
  datatype Follow = Follow(id: nat, user: User, eventId: nat, eventName: string)

  /** How one follow ended. */
  datatype Outcome = NotAvailable | OptedOut | NoMonitor | Duplicate | WouldSend | Mailed | SendRaised(error: string)

  datatype Counter = Hits | SentCount | Skipped | FailedCount

  /** The counters an outcome increments. */
  function CountersOf(o: Outcome): (r: multiset<Counter>)
    ensures o == NotAvailable <==> r == multiset{}
    ensures o != NotAvailable ==> r[Hits] == 1 && |r| == 2
  {
    match o
    case NotAvailable => multiset{}
    case OptedOut => multiset{Hits, Skipped}
    case NoMonitor => multiset{Hits, FailedCount}
    case Duplicate => multiset{Hits, Skipped}
    case WouldSend => multiset{Hits, SentCount}
    case Mailed => multiset{Hits, SentCount}
    case SendRaised(_) => multiset{Hits, FailedCount}
  }

  function Subject(f: Follow): string
  {
    "Tixy: biglietti disponibili per '" + f.eventName + "'"
  }

  /** The settings of one run. */
  datatype Settings = Settings(minutes: int, dryRun: bool, now: int)

  /** The platform's tables the run reads. */
  datatype Tables = Tables(listings: seq<Listing>, resales: seq<Resale>, subs: seq<Subscription>)

  /** The chain for one follow, given the monitor table: the outcome (an
      `Err` when the key computation raises and ends the run), the monitor
      table after the lookup, and the notification written, if any. */
  function Decide(f: Follow, ms: seq<FreeMonitor>, notices: seq<Notice>, t: Tables, mail: Mail, s: Settings)
    : (Result<Outcome>, seq<FreeMonitor>, Option<Notice>)
  {
    if !HasAvailability(t.listings, t.resales, f.eventId, s.now) then (Ok(NotAvailable), ms, None)
    else if !f.user.notifyEmail then (Ok(OptedOut), ms, None)
    else
      var (ms1, mon) := MonitorFor(ms, t.subs, f.user.id, f.eventId);
      if mon.None? then (Ok(NoMonitor), ms1, None)
      else match FreeKey(f.user.id, f.eventId, s.minutes, s.now)
        case Err(e) => (Err(e), ms1, None)
        case Ok(key) =>
          if HasSentFor(notices, mon.value.id, key) then (Ok(Duplicate), ms1, None)
          else if s.dryRun then (Ok(WouldSend), ms1, None)
          else if mail.MailRaised? then (Ok(SendRaised(mail.error)), ms1, None)
          else (Ok(Mailed), ms1, Some(Notice(mon.value.id, "email", key, Sent, None, Subject(f))))
  }

  /** A notification is written exactly when the mail went out; it is SENT,
      has no send time, and its (monitor, key) had no SENT notification. A
      dry run writes none, though it may still create the monitor. */
  lemma RecordOnlyAfterMail(f: Follow, ms: seq<FreeMonitor>, notices: seq<Notice>, t: Tables, mail: Mail, s: Settings)
    ensures var (r, ms1, n) := Decide(f, ms, notices, t, mail, s);
            (n.Some? <==> r == Ok(Mailed))
            && (n.Some? ==> n.value.status == Sent && n.value.sentAt.None?
                            && !HasSentFor(notices, n.value.monitor, n.value.dedupeKey)
                            && FreeKey(f.user.id, f.eventId, s.minutes, s.now) == Ok(n.value.dedupeKey))
            && (s.dryRun ==> n.None?)
            && (mail.MailRaised? ==> n.None?)
  {
  }

  /** The mail goes out exactly when the event is available, the user
      accepts e-mail, a monitor is found or created, N is not 0, no SENT
      notification exists for that monitor and key, it is not a dry run,
      and the send does not raise. */
  lemma MailedExactly(f: Follow, ms: seq<FreeMonitor>, notices: seq<Notice>, t: Tables, mail: Mail, s: Settings)
    ensures var (r, ms1, n) := Decide(f, ms, notices, t, mail, s);
            var mon := MonitorFor(ms, t.subs, f.user.id, f.eventId).1;
            r == Ok(Mailed) <==>
              HasAvailability(t.listings, t.resales, f.eventId, s.now) && f.user.notifyEmail && mon.Some?
              && s.minutes != 0
              && !HasSentFor(notices, mon.value.id, FreeKey(f.user.id, f.eventId, s.minutes, s.now).value)
              && !s.dryRun && mail.Delivered?
  {
  }

  /** Once a follow was mailed, the same user and event get nothing more
      in the same window: the next lookup finds the same monitor and the
      same key, which now has a SENT notification. */
  lemma OneMailPerWindow(f: Follow, ms: seq<FreeMonitor>, notices: seq<Notice>, t: Tables, mail: Mail, s: Settings,
                         f2: Follow, mail2: Mail, now2: int)
    requires Decide(f, ms, notices, t, mail, s).0 == Ok(Mailed)
    requires f2.user.id == f.user.id && f2.eventId == f.eventId && s.minutes > 0
    requires FloorDiv(now2, s.minutes * 60) == FloorDiv(s.now, s.minutes * 60)
    ensures var (_, ms1, n) := Decide(f, ms, notices, t, mail, s);
            var r2 := Decide(f2, ms1, notices + [n.value], t, mail2, s.(now := now2)).0;
            r2 != Ok(Mailed) && r2 != Ok(WouldSend) && !(r2.Ok? && r2.value.SendRaised?)
  {
    var (_, ms1, n) := Decide(f, ms, notices, t, mail, s);
    MonitorForOnce(ms, t.subs, f.user.id, f.eventId);
    SameWindowSameKey(f.user.id, f.eventId, s.minutes, s.now, now2);
    var mon := MonitorFor(ms, t.subs, f.user.id, f.eventId).1.value;
    var key := FreeKey(f.user.id, f.eventId, s.minutes, s.now).value;
    assert n.value == Notice(mon.id, "email", key, Sent, None, Subject(f));
    HasSentAppend(notices, n.value, key);
    assert HasSentFor(notices + [n.value], mon.id, key);
  }

  // ---------------------------------------------------------------------
  // The run

  class FreeStore {
    var monitors: seq<FreeMonitor>
    var notices: seq<Notice>

    constructor(monitors: seq<FreeMonitor>, notices: seq<Notice>)
      ensures this.monitors == monitors && this.notices == notices
    {
      this.monitors := monitors;
      this.notices := notices;
    }
  }

  /** `get_or_create_free_monitoraggio`. */
  method GetOrCreateMonitor(db: FreeStore, subs: seq<Subscription>, userId: nat, eventId: nat)
    returns (m: Option<FreeMonitor>)
    modifies db
    ensures (db.monitors, m) == MonitorFor(old(db.monitors), subs, userId, eventId)
    ensures db.notices == old(db.notices)
  {
    m := NewestMonitor(db.monitors, userId, eventId);
    if m.Some? {
      return;
    }
    var ab := NewestFreeSub(subs, userId);
    if ab.None? {
      return None;
    }
    var created := FreeMonitor(NextId(db.monitors), userId, eventId, ab.value);
    db.monitors := db.monitors + [created];
    m := Some(created);
  }

  /** One follow of `_run_once`. */
  method ProcessFollow(db: FreeStore, f: Follow, t: Tables, mail: Mail, s: Settings) returns (r: Result<Outcome>)
    modifies db
    ensures var (r0, ms1, n) := Decide(f, old(db.monitors), old(db.notices), t, mail, s);
            r == r0 && db.monitors == ms1
            && db.notices == old(db.notices) + (if n.Some? then [n.value] else [])
  {
    if !HasAvailability(t.listings, t.resales, f.eventId, s.now) {
      return Ok(NotAvailable);
    }
    if !f.user.notifyEmail {
      return Ok(OptedOut);
    }
    var mon := GetOrCreateMonitor(db, t.subs, f.user.id, f.eventId);
    if mon.None? {
      return Ok(NoMonitor);
    }
    var key := FreeKey(f.user.id, f.eventId, s.minutes, s.now);
    if key.Err? {
      return Err(key.error);
    }
    if HasSentFor(db.notices, mon.value.id, key.value) {
      return Ok(Duplicate);
    }
    if s.dryRun {
      return Ok(WouldSend);
    }
    if mail.MailRaised? {
      return Ok(SendRaised(mail.error));
    }
    db.notices := db.notices + [Notice(mon.value.id, "email", key.value, Sent, None, Subject(f))];
    return Ok(Mailed);
  }

  /** `ns` extends `start` by SENT notifications only, each for a
      (monitor, key) with no SENT notification before it. */
  predicate FreshSends(start: seq<Notice>, ns: seq<Notice>)
  {
    |ns| >= |start| && ns[..|start|] == start
    && forall k :: |start| <= k < |ns| ==> ns[k].status == Sent && !HasSentFor(ns[..k], ns[k].monitor, ns[k].dedupeKey)
  }

  /** `b` starts with `a`. */
  predicate Extends<T(==)>(a: seq<T>, b: seq<T>)
  {
    |b| >= |a| && b[..|a|] == a
  }

  lemma ExtendsTrans<T>(a: seq<T>, b: seq<T>, c: seq<T>)
    requires Extends(a, b) && Extends(b, c)
    ensures Extends(a, c)
  {
    assert c[..|a|] == c[..|b|][..|a|];
  }

  /** What the run's loop needs to know of one follow. */
  lemma DecideSummary(f: Follow, ms: seq<FreeMonitor>, notices: seq<Notice>, t: Tables, mail: Mail, s: Settings)
    ensures var (r, ms1, n) := Decide(f, ms, notices, t, mail, s);
            (r.Err? ==> s.minutes == 0)
            && (r.Ok? ==> (r.value == NotAvailable <==> !HasAvailability(t.listings, t.resales, f.eventId, s.now)))
            && Extends(ms, ms1)
            && (n.Some? ==> n.value.status == Sent && !HasSentFor(notices, n.value.monitor, n.value.dedupeKey))
            && (s.dryRun ==> n.None?)
  {
    assert ms[..|ms|] == ms;
    if HasAvailability(t.listings, t.resales, f.eventId, s.now) && f.user.notifyEmail {
      MonitorForOnce(ms, t.subs, f.user.id, f.eventId);
      var (ms1, mon) := MonitorFor(ms, t.subs, f.user.id, f.eventId);
      assert Extends(ms, ms1);
      if mon.Some? && s.minutes != 0 {
        var key := FreeKey(f.user.id, f.eventId, s.minutes, s.now).value;
        assert Decide(f, ms, notices, t, mail, s).2 ==
                 (if HasSentFor(notices, mon.value.id, key) || s.dryRun || mail.MailRaised? then None
                  else Some(Notice(mon.value.id, "email", key, Sent, None, Subject(f))));
      }
    }
  }

  /** The two tables the run writes. */
  datatype FreeState = FreeState(monitors: seq<FreeMonitor>, notices: seq<Notice>)

  /** One follow as the loop sees it: the tables after it, and its counters
      or the exception that ends the run. */
  function StepSpec(st: FreeState, f: Follow, t: Tables, mail: Mail, s: Settings): (FreeState, Result<multiset<Counter>>)
  {
    var (r, ms1, n) := Decide(f, st.monitors, st.notices, t, mail, s);
    (FreeState(ms1, st.notices + (if n.Some? then [n.value] else [])),
     if r.Err? then Err(r.error) else Ok(CountersOf(r.value)))
  }

  /** One follow fails only with a 0-minute window; otherwise it bumps
      "hits" exactly when its event is available, plus one counter; the
      monitors only grow; at most one SENT notification is appended, under a
      (monitor, key) with none; a dry run appends none. */
  lemma StepFacts(st: FreeState, f: Follow, t: Tables, mail: Mail, s: Settings)
    ensures var (st1, r) := StepSpec(st, f, t, mail, s);
            (r.Err? ==> s.minutes == 0)
            && (r.Ok? ==> r.value[Hits] * 2 == |r.value| && r.value[Hits] <= 1)
            && (r.Ok? ==> (r.value[Hits] == 1 <==> HasAvailability(t.listings, t.resales, f.eventId, s.now)))
            && Extends(st.monitors, st1.monitors)
            && (st1.notices == st.notices
                || (exists n :: st1.notices == st.notices + [n] && n.status == Sent
                                && !HasSentFor(st.notices, n.monitor, n.dedupeKey)))
            && (s.dryRun ==> st1.notices == st.notices)
  {
    var (r, ms1, n) := Decide(f, st.monitors, st.notices, t, mail, s);
    DecideSummary(f, st.monitors, st.notices, t, mail, s);
    if n.Some? {
      assert StepSpec(st, f, t, mail, s).0.notices == st.notices + [n.value];
    }
  }

  /** One follow as the loop sees it. */
  method Step(db: FreeStore, f: Follow, t: Tables, mail: Mail, s: Settings) returns (r: Result<multiset<Counter>>)
    modifies db
    ensures (FreeState(db.monitors, db.notices), r) == StepSpec(FreeState(old(db.monitors), old(db.notices)), f, t, mail, s)
  {
    var o := ProcessFollow(db, f, t, mail, s);
    if o.Err? {
      return Err(o.error);
    }
    return Ok(CountersOf(o.value));
  }

  /** What the loop leaves: the tables, the counters, and the exception
      that ended it, if any. */
  datatype Run = Run(state: FreeState, counts: multiset<Counter>, aborted: Option<string>)

  /** The loop over the follows, the `k`-th seeing `mails(from + k)`, until
      one raises. */
  function RunSpec(st: FreeState, fs: seq<Follow>, t: Tables, s: Settings, mails: nat -> Mail, from: nat): Run
    decreases |fs|
  {
    if fs == [] then Run(st, multiset{}, None)
    else
      var (st1, r) := StepSpec(st, fs[0], t, mails(from), s);
      if r.Err? then Run(st1, multiset{}, Some(r.error))
      else
        var rest := RunSpec(st1, fs[1..], t, s, mails, from + 1);
        Run(rest.state, r.value + rest.counts, rest.aborted)
  }

  lemma RunSpecAt(st: FreeState, fs: seq<Follow>, i: nat, t: Tables, s: Settings, mails: nat -> Mail)
    requires i < |fs|
    ensures var (st1, r) := StepSpec(st, fs[i], t, mails(i), s);
            var rest := RunSpec(st1, fs[i + 1..], t, s, mails, i + 1);
            RunSpec(st, fs[i..], t, s, mails, i)
              == if r.Err? then Run(st1, multiset{}, Some(r.error))
                 else Run(rest.state, r.value + rest.counts, rest.aborted)
  {
    assert fs[i..][0] == fs[i] && fs[i..][1..] == fs[i + 1..];
  }

  /** The run ends early only with a 0-minute window; "hits" is half the
      counters, and when the run does not stop it counts the follows whose
      event is available. */
  lemma {:induction false} RunCounts(st: FreeState, fs: seq<Follow>, t: Tables, s: Settings, mails: nat -> Mail, from: nat)
    ensures var r := RunSpec(st, fs, t, s, mails, from);
            (s.minutes != 0 ==> r.aborted.None?)
            && r.counts[Hits] * 2 == |r.counts|
            && (r.aborted.None? ==> r.counts[Hits] == AvailableCount(fs, t, s.now))
    decreases |fs|
  {
    if fs == [] {
      assert RunSpec(st, fs, t, s, mails, from) == Run(st, multiset{}, None);
    } else {
      var (st1, c) := StepSpec(st, fs[0], t, mails(from), s);
      StepFacts(st, fs[0], t, mails(from), s);
      if c.Ok? {
        RunCounts(st1, fs[1..], t, s, mails, from + 1);
      }
    }
  }

  /** The run only grows the monitors and appends only fresh SENT
      notifications, none in a dry run. */
  lemma {:induction false} RunGrows(start: seq<Notice>, st: FreeState, fs: seq<Follow>, t: Tables, s: Settings,
                                    mails: nat -> Mail, from: nat)
    requires FreshSends(start, st.notices)
    ensures var r := RunSpec(st, fs, t, s, mails, from);
            Extends(st.monitors, r.state.monitors) && FreshSends(start, r.state.notices)
            && (s.dryRun ==> r.state.notices == st.notices)
    decreases |fs|
  {
    if fs == [] {
      assert RunSpec(st, fs, t, s, mails, from) == Run(st, multiset{}, None);
      assert st.monitors[..|st.monitors|] == st.monitors;
    } else {
      var (st1, c) := StepSpec(st, fs[0], t, mails(from), s);
      StepFacts(st, fs[0], t, mails(from), s);
      if st1.notices != st.notices {
        var n :| st1.notices == st.notices + [n] && n.status == Sent && !HasSentFor(st.notices, n.monitor, n.dedupeKey);
        FreshSendsAppend(start, st.notices, n);
      }
      if c.Ok? {
        var r := RunSpec(st1, fs[1..], t, s, mails, from + 1);
        RunGrows(start, st1, fs[1..], t, s, mails, from + 1);
        ExtendsTrans(st.monitors, st1.monitors, r.state.monitors);
      }
    }
  }

  /** Appending a fresh SENT notice keeps `FreshSends`. */
  lemma FreshSendsAppend(start: seq<Notice>, before: seq<Notice>, n: Notice)
    requires FreshSends(start, before)
    requires n.status == Sent && !HasSentFor(before, n.monitor, n.dedupeKey)
    ensures FreshSends(start, before + [n])
  {
    var after := before + [n];
    assert after[..|before|] == before;
    assert after[..|start|] == before[..|start|];
    forall k | |start| <= k < |before|
      ensures after[k] == before[k] && after[..k] == before[..k]
    {
    }
  }

  /** `_run_once`: the first `limit` follows in id order, each through the
      chain; the run ends early when the key computation raises. */
  method RunOnce(db: FreeStore, follows: seq<Follow>, t: Tables, limit: int, minutes: int, dryRun: bool,
                 now: int, mails: nat -> Mail)
    returns (counts: multiset<Counter>, aborted: Option<string>)
    modifies db
    ensures limit < 0 ==> aborted == Some(NegativeSlice) && counts == multiset{} && unchanged(db)
    ensures limit >= 0 ==> Run(FreeState(db.monitors, db.notices), counts, aborted)
                             == RunSpec(FreeState(old(db.monitors), old(db.notices)), Take(follows, limit),
                                        t, Settings(minutes, dryRun, now), mails, 0)
    ensures minutes != 0 && limit >= 0 ==> aborted.None?
    ensures counts[Hits] * 2 == |counts|
    ensures aborted.None? ==> counts[Hits] == AvailableCount(Take(follows, limit), t, now)
    ensures Extends(old(db.monitors), db.monitors)
    ensures FreshSends(old(db.notices), db.notices)
    ensures dryRun ==> db.notices == old(db.notices)
  {
    assert db.notices[..|db.notices|] == db.notices;
    if limit < 0 {
      assert db.monitors[..|db.monitors|] == db.monitors;
      return multiset{}, Some(NegativeSlice);
    }
    var s := Settings(minutes, dryRun, now);
    ghost var st := FreeState(db.monitors, db.notices);
    counts, aborted := RunBatch(db, Take(follows, limit), t, s, mails);
    RunCounts(st, Take(follows, limit), t, s, mails, 0);
    RunGrows(st.notices, st, Take(follows, limit), t, s, mails, 0);
  }

  /** The loop of `_run_once` over the selected follows. */
  method RunBatch(db: FreeStore, batch: seq<Follow>, t: Tables, s: Settings, mails: nat -> Mail)
    returns (counts: multiset<Counter>, aborted: Option<string>)
    modifies db
    ensures Run(FreeState(db.monitors, db.notices), counts, aborted)
              == RunSpec(FreeState(old(db.monitors), old(db.notices)), batch, t, s, mails, 0)
  {
    counts, aborted := multiset{}, None;
    ghost var st0 := FreeState(db.monitors, db.notices);
    assert batch[0..] == batch;
    assert counts + RunSpec(st0, batch, t, s, mails, 0).counts == RunSpec(st0, batch, t, s, mails, 0).counts;
    var i := 0;
    while i < |batch|
      invariant 0 <= i <= |batch|
      invariant RunSpec(st0, batch, t, s, mails, 0)
                  == (var r := RunSpec(FreeState(db.monitors, db.notices), batch[i..], t, s, mails, i);
                      Run(r.state, counts + r.counts, r.aborted))
    {
      RunSpecAt(FreeState(db.monitors, db.notices), batch, i, t, s, mails);
      var r := Step(db, batch[i], t, mails(i), s);
      if r.Err? {
        assert counts + multiset{} == counts;
        aborted := Some(r.error);
        return;
      }
      ghost var rest := RunSpec(FreeState(db.monitors, db.notices), batch[i + 1..], t, s, mails, i + 1);
      assert counts + (r.value + rest.counts) == (counts + r.value) + rest.counts;
      counts := counts + r.value;
      i := i + 1;
    }
    assert counts + multiset{} == counts;
  }

  /** The number of follows whose event is available. */
  function AvailableCount(fs: seq<Follow>, t: Tables, now: int): nat
  {
    if fs == [] then 0
    else (if HasAvailability(t.listings, t.resales, fs[0].eventId, now) then 1 else 0)
         + AvailableCount(fs[1..], t, now)
  }

  /** Adding a follow at the end adds one hit exactly when its event is
      available. */
  lemma {:induction false} AvailableCountSnoc(fs: seq<Follow>, f: Follow, t: Tables, now: int)
    ensures AvailableCount(fs + [f], t, now)
            == AvailableCount(fs, t, now) + (if HasAvailability(t.listings, t.resales, f.eventId, now) then 1 else 0)
  {
    if fs != [] {
      assert (fs + [f])[1..] == fs[1..] + [f];
      AvailableCountSnoc(fs[1..], f, t, now);
    } else {
      assert ([f])[1..] == [];
    }
  }
}
