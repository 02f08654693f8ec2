/** What the alert scans share: the notification record they write and
    read back for deduplication, the outcome of one `send_mail` call, the
    subscription rule and monitor selection of the paid scans, the monitor
    and mapping records they read and the Ticketmaster URL lookup, their
    mail text and daily dedupe key, and the e-mail send retried with linear
    backoff. */
module Alerts {
  import opened Wrappers
  import opened Text
  import opened Calendar

  // ---------------------------------------------------------------------
  // Notifications

  datatype NoticeStatus = Sent | Failed

  /** A `Notifica` row: its monitor, channel, dedupe key, status, send time
      (None when the scan leaves `sent_at` unset) and message. */
  datatype Notice = Notice(monitor: nat, channel: string, dedupeKey: string, status: NoticeStatus,
                           sentAt: Option<int>, message: string)

  /** Some notification carries `key`, whatever its status. */
  predicate HasKey(ns: seq<Notice>, key: string)
  {
    exists i :: 0 <= i < |ns| && ns[i].dedupeKey == key
  }

  /** Some SENT notification carries `key`. */
  predicate HasSent(ns: seq<Notice>, key: string)
  {
    exists i :: 0 <= i < |ns| && ns[i].dedupeKey == key && ns[i].status == Sent
  }

  /** Some SENT notification of monitor `mon` carries `key`. */
  predicate HasSentFor(ns: seq<Notice>, mon: nat, key: string)
  {
    exists i :: 0 <= i < |ns| && ns[i].monitor == mon && ns[i].dedupeKey == key && ns[i].status == Sent
  }

  /** Appending a notification adds exactly its key to what is found. */
  lemma HasSentAppend(ns: seq<Notice>, n: Notice, key: string)
    ensures HasSent(ns + [n], key) <==> HasSent(ns, key) || (n.dedupeKey == key && n.status == Sent)
    ensures HasKey(ns + [n], key) <==> HasKey(ns, key) || n.dedupeKey == key
    ensures HasSentFor(ns + [n], n.monitor, key) <==>
              HasSentFor(ns, n.monitor, key) || (n.dedupeKey == key && n.status == Sent)
  {
    var ms := ns + [n];
    if HasSent(ns, key) {
      var i :| 0 <= i < |ns| && ns[i].dedupeKey == key && ns[i].status == Sent;
      assert ms[i] == ns[i];
    }
    if HasKey(ns, key) {
      var i :| 0 <= i < |ns| && ns[i].dedupeKey == key;
      assert ms[i] == ns[i];
    }
    if HasSentFor(ns, n.monitor, key) {
      var i :| 0 <= i < |ns| && ns[i].monitor == n.monitor && ns[i].dedupeKey == key && ns[i].status == Sent;
      assert ms[i] == ns[i];
    }
    assert ms[|ns|] == n;
  }

  /** One `send_mail` call: the mail went out, or the call raised. */
  datatype Mail = Delivered | MailRaised(error: string)

  // ---------------------------------------------------------------------
  // Subscriptions and monitor selection

  /** The user a subscription belongs to, as the scans read it. */
  datatype User = User(id: nat, email: string, firstName: string, notifyEmail: bool)

  /** An `Abbonamento`: `attivo`, the optional `data_fine` (a time), its
      `prezzo` in cents, the price of its plan (None when it has no plan),
      `data_inizio`, and its user. */
  datatype Subscription = Subscription(active: bool, endsAt: Option<int>, price: int, plan: Option<int>,
                                       startsAt: int, user: User)

  /** `_abbonamento_is_active`: false unless `attivo`; false when `data_fine`
      is set and earlier than `now`; else true. */
  predicate SubscriptionActive(ab: Subscription, now: int)
  {
    if !ab.active then false
    else if ab.endsAt.Some? && ab.endsAt.value < now then false
    else true
  }

  /** A subscription active at some time was active at every earlier time,
      and one that has ended stays ended: activity is `attivo` and not yet
      past `data_fine`. */
  lemma ActiveUntilEnd(ab: Subscription, t1: int, t2: int)
    requires t1 <= t2
    ensures SubscriptionActive(ab, t2) ==> SubscriptionActive(ab, t1)
    ensures SubscriptionActive(ab, t1) <==>
              ab.active && (ab.endsAt.None? || t1 <= ab.endsAt.value)
  {
  }

  /** The row filter of the paid scans' query: `attivo`, a positive
      `prezzo`, and `data_fine` unset or not before `now`. */
  predicate PaidRow(ab: Subscription, now: int)
  {
    ab.active && ab.price > 0 && (ab.endsAt.None? || ab.endsAt.value >= now)
  }

  /** The rows of `qs` the paid query returns, in order. */
  function PaidRows<M>(qs: seq<M>, sub: M -> Subscription, now: int): (r: seq<M>)
    ensures |r| <= |qs|
    ensures forall i :: 0 <= i < |r| ==> PaidRow(sub(r[i]), now)
  {
    if qs == [] then []
    else (if PaidRow(sub(qs[0]), now) then [qs[0]] else []) + PaidRows(qs[1..], sub, now)
  }

  /** What the selection loop keeps of `w` once `n` monitors are taken: an
      active one is taken, and the loop stops as soon as `n` reaches
      `limit` — tested after every row, taken or not. */
  function Picks<M>(w: seq<M>, sub: M -> Subscription, limit: int, now: int, n: nat): seq<M>
  {
    if w == [] then []
    else
      var take := SubscriptionActive(sub(w[0]), now);
      var n' := if take then n + 1 else n;
      (if take then [w[0]] else []) + (if n' >= limit then [] else Picks(w[1..], sub, limit, now, n'))
  }

  /** The active rows of `w`, in order. */
  function ActiveRows<M>(w: seq<M>, sub: M -> Subscription, now: int): (r: seq<M>)
    ensures |r| <= |w|
  {
    if w == [] then []
    else (if SubscriptionActive(sub(w[0]), now) then [w[0]] else []) + ActiveRows(w[1..], sub, now)
  }

  /** The message of a queryset sliced with a negative bound. */
  const NegativeSlice := "ValueError: Negative indexing is not supported."

  /** The selection loop over `qs[:limit * 5]`: active monitors appended,
      stopping when `limit` are taken. A negative `limit` makes the
      queryset slice raise. */
  method Select<M>(qs: seq<M>, sub: M -> Subscription, limit: int, now: int) returns (r: Result<seq<M>>)
    ensures r.Err? <==> limit < 0
    ensures r.Err? ==> r.error == NegativeSlice
    ensures r.Ok? ==> r.value == Picks(Take(qs, limit * 5), sub, limit, now, 0)
  {
    if limit < 0 {
      return Err(NegativeSlice);
    }
    var picked := SelectFrom(Take(qs, limit * 5), sub, limit, now);
    return Ok(picked);
  }

  /** The loop itself, over the window `w`. */
  method SelectFrom<M>(w: seq<M>, sub: M -> Subscription, limit: int, now: int) returns (picked: seq<M>)
    ensures picked == Picks(w, sub, limit, now, 0)
  {
    picked := [];
    var i := 0;
    assert w[i..] == w;
    while i < |w|
      invariant 0 <= i <= |w|
      invariant SelectedSoFar(w, i, sub, limit, now, picked)
      invariant i > 0 ==> |picked| < limit
      decreases |w| - i
    {
      var took := if SubscriptionActive(sub(w[i]), now) then [w[i]] else [];
      SelectStep(w, i, sub, limit, now, picked);
      picked := picked + took;
      if |picked| >= limit {
        return;
      }
      i := i + 1;
    }
    SelectedAll(w, sub, limit, now, picked);
  }

  /** What the selection loop keeps: the rows picked so far, followed by
      what the rest of the window gives, are the whole selection. */
  ghost predicate SelectedSoFar<M>(w: seq<M>, i: nat, sub: M -> Subscription, limit: int, now: int, picked: seq<M>)
    requires i <= |w|
  {
    picked + Picks(w[i..], sub, limit, now, |picked|) == Picks(w, sub, limit, now, 0)
  }

  lemma SelectedAll<M>(w: seq<M>, sub: M -> Subscription, limit: int, now: int, picked: seq<M>)
    requires SelectedSoFar(w, |w|, sub, limit, now, picked)
    ensures picked == Picks(w, sub, limit, now, 0)
  {
    assert Picks(w[|w|..], sub, limit, now, |picked|) == [];
    assert picked + [] == picked;
  }

  /** One row of the selection loop, appended to what `before` holds. */
  lemma SelectStep<M>(w: seq<M>, i: nat, sub: M -> Subscription, limit: int, now: int, before: seq<M>)
    requires i < |w| && SelectedSoFar(w, i, sub, limit, now, before)
    ensures var picked := before + (if SubscriptionActive(sub(w[i]), now) then [w[i]] else []);
            (|picked| >= limit ==> picked == Picks(w, sub, limit, now, 0))
            && (|picked| < limit ==> SelectedSoFar(w, i + 1, sub, limit, now, picked))
  {
    var took := if SubscriptionActive(sub(w[i]), now) then [w[i]] else [];
    PicksStep(w, i, sub, limit, now, |before|);
    ConcatAssoc(before, took, Picks(w[i + 1..], sub, limit, now, |before + took|));
    assert before + took + [] == before + took;
  }

  lemma ConcatAssoc<T>(a: seq<T>, b: seq<T>, c: seq<T>)
    ensures a + (b + c) == (a + b) + c
  {
  }

  /** One row of the selection loop. */
  lemma PicksStep<M>(w: seq<M>, i: nat, sub: M -> Subscription, limit: int, now: int, n: nat)
    requires i < |w|
    ensures var take := SubscriptionActive(sub(w[i]), now);
            var n' := if take then n + 1 else n;
            Picks(w[i..], sub, limit, now, n)
              == (if take then [w[i]] else []) + (if n' >= limit then [] else Picks(w[i + 1..], sub, limit, now, n'))
  {
    assert w[i..][0] == w[i] && w[i..][1..] == w[i + 1..];
  }

  /** With a positive limit the loop keeps the first `limit` active rows,
      counting from the `n` already taken. */
  lemma {:induction false} PicksAreFirstActive<M>(w: seq<M>, sub: M -> Subscription, limit: int, now: int, n: nat)
    requires n < limit
    ensures Picks(w, sub, limit, now, n) == Take(ActiveRows(w, sub, now), limit - n)
    decreases |w|
  {
    if w != [] {
      var take := SubscriptionActive(sub(w[0]), now);
      var n' := if take then n + 1 else n;
      var rest := ActiveRows(w[1..], sub, now);
      if n' < limit {
        PicksAreFirstActive(w[1..], sub, limit, now, n');
      }
      if take {
        assert ActiveRows(w, sub, now) == [w[0]] + rest;
        if n' >= limit {
          assert Take(ActiveRows(w, sub, now), limit - n) == [w[0]];
        } else {
          assert Take([w[0]] + rest, limit - n) == [w[0]] + Take(rest, limit - n');
        }
      } else {
        assert ActiveRows(w, sub, now) == rest;
      }
    }
  }

  /** The selection takes, in query order, the first `limit` active
      monitors among the first `5 * limit` rows. */
  lemma SelectTakesFirstActive<M>(qs: seq<M>, sub: M -> Subscription, limit: int, now: int)
    requires limit >= 0
    ensures Picks(Take(qs, limit * 5), sub, limit, now, 0) == Take(ActiveRows(Take(qs, limit * 5), sub, now), limit)
  {
    if limit >= 1 {
      PicksAreFirstActive(Take(qs, limit * 5), sub, limit, now, 0);
    }
  }

  /** Rows that all pass the query's filter all pass the active check. */
  lemma {:induction false} ActiveRowsOfPaid<M>(w: seq<M>, sub: M -> Subscription, now: int)
    requires forall i :: 0 <= i < |w| ==> PaidRow(sub(w[i]), now)
    ensures ActiveRows(w, sub, now) == w
    decreases |w|
  {
    if w != [] {
      assert SubscriptionActive(sub(w[0]), now);
      ActiveRowsOfPaid(w[1..], sub, now);
      assert [w[0]] + w[1..] == w;
    }
  }

  /** On the rows the paid query returns, the extra active check drops
      nothing: the selection is the first `limit` rows of the query. */
  lemma PaidSelectionIsPrefix<M>(qs: seq<M>, sub: M -> Subscription, limit: int, now: int)
    requires limit >= 0
    ensures Picks(Take(PaidRows(qs, sub, now), limit * 5), sub, limit, now, 0) == Take(PaidRows(qs, sub, now), limit)
  {
    var rows := PaidRows(qs, sub, now);
    var w := Take(rows, limit * 5);
    SelectTakesFirstActive(rows, sub, limit, now);
    assert forall i :: 0 <= i < |w| ==> w[i] == rows[i];
    ActiveRowsOfPaid(w, sub, now);
    assert Take(w, limit) == Take(rows, limit);
  }

  // ---------------------------------------------------------------------
  // Records

  /** A `PerformancePiattaforma` or `EventoPiattaforma` row: key, platform
      name and URL (None for NULL). Rows are given in the query's order,
      newest `aggiornato_il` first. */
  datatype Link = Link(pk: nat, platform: string, url: Option<string>)

  /** The mapping row whose URL is used, and from which table. */
  datatype LinkRef = PerfLink(pk: nat) | EventLink(pk: nat)

  /** A performance as the scan reads it: id, whether valid tickets or
      active listings already exist for it, its mapping rows and its
      event's, and the texts the mail shows. */
  datatype Perf = Perf(id: nat, hasInternal: bool, perfLinks: seq<Link>, eventLinks: seq<Link>,
                       title: Option<string>, venue: Option<string>, when: Option<string>)

  /** A monitor: id, subscription (with its user) and optional performance.
      The scans read `Monitoraggio.performance`, which the `models.py` of
      this repository does not declare; this is the scans' view. */
  datatype Monitor = Monitor(id: nat, sub: Subscription, perf: Option<Perf>)

  function SubOf(m: Monitor): Subscription { m.sub }

  // ---------------------------------------------------------------------
  // Mapping lookup

  /** `piattaforma__nome="ticketmaster"` — `__iexact` when `caseless` — and
      not `url=""` (a NULL URL passes the exclusion). */
  predicate Candidate(l: Link, caseless: bool)
  {
    (if caseless then Lower(l.platform) else l.platform) == "ticketmaster" && l.url != Some("")
  }

  /** `.first()` of the filtered rows. */
  function FirstCandidate(links: seq<Link>, caseless: bool): (r: Option<Link>)
    ensures r.Some? ==> Candidate(r.value, caseless) && r.value in links
    ensures r.None? <==> forall i :: 0 <= i < |links| ==> !Candidate(links[i], caseless)
  {
    if links == [] then None
    else if Candidate(links[0], caseless) then Some(links[0])
    else FirstCandidate(links[1..], caseless)
  }

  /** The row `.first()` returns is the earliest matching row. */
  lemma {:induction false} FirstCandidateIsEarliest(links: seq<Link>, caseless: bool)
    requires FirstCandidate(links, caseless).Some?
    ensures exists i :: 0 <= i < |links| && links[i] == FirstCandidate(links, caseless).value
                        && forall j :: 0 <= j < i ==> !Candidate(links[j], caseless)
  {
    if !Candidate(links[0], caseless) {
      var rest := links[1..];
      FirstCandidateIsEarliest(rest, caseless);
      var i :| 0 <= i < |rest| && rest[i] == FirstCandidate(rest, caseless).value
               && forall j :: 0 <= j < i ==> !Candidate(rest[j], caseless);
      assert links[i + 1] == rest[i];
      forall j | 0 <= j < i + 1 ensures !Candidate(links[j], caseless) {
        if j > 0 { assert links[j] == rest[j - 1]; }
      }
    } else {
      assert links[0] == FirstCandidate(links, caseless).value;
    }
  }

  /** `if pp and pp.url`: the first row counts only when its URL is set. */
  function UrlOf(l: Option<Link>): Option<string>
  {
    if l.Some? && l.value.url.Some? && l.value.url.value != "" then l.value.url else None
  }

  /** The mapping lookup of the paid scans: the newest performance row with
      a URL, else the newest event row with a URL, else none; with the URL,
      the row it came from. */
  function MappingFor(p: Perf, caseless: bool): (r: Option<(string, LinkRef)>)
  {
    var pp := FirstCandidate(p.perfLinks, caseless);
    if UrlOf(pp).Some? then Some((UrlOf(pp).value, PerfLink(pp.value.pk)))
    else
      var ep := FirstCandidate(p.eventLinks, caseless);
      if UrlOf(ep).Some? then Some((UrlOf(ep).value, EventLink(ep.value.pk)))
      else None
  }

  /** The performance's own mapping wins over the event's: the URL comes
      from the performance table exactly when the newest matching
      performance row has a URL, and is then that row's; a result always
      carries a non-empty URL of a Ticketmaster row; there is none only
      when neither newest matching row has a URL. */
  lemma MappingPrefersPerformance(p: Perf, caseless: bool)
    ensures var r := MappingFor(p, caseless);
            (r.Some? && r.value.1.PerfLink? <==> UrlOf(FirstCandidate(p.perfLinks, caseless)).Some?)
            && (r.Some? && r.value.1.PerfLink? ==>
                  exists i :: 0 <= i < |p.perfLinks| && p.perfLinks[i].pk == r.value.1.pk
                              && p.perfLinks[i].url == Some(r.value.0) && Candidate(p.perfLinks[i], caseless))
            && (r.Some? && r.value.1.EventLink? ==>
                  exists i :: 0 <= i < |p.eventLinks| && p.eventLinks[i].pk == r.value.1.pk
                              && p.eventLinks[i].url == Some(r.value.0) && Candidate(p.eventLinks[i], caseless))
            && (r.Some? ==> r.value.0 != "")
            && (r.None? <==> UrlOf(FirstCandidate(p.perfLinks, caseless)).None? && UrlOf(FirstCandidate(p.eventLinks, caseless)).None?)
  {
    var pp := FirstCandidate(p.perfLinks, caseless);
    var ep := FirstCandidate(p.eventLinks, caseless);
    if pp.Some? {
      var i :| 0 <= i < |p.perfLinks| && p.perfLinks[i] == pp.value;
    }
    if ep.Some? {
      var i :| 0 <= i < |p.eventLinks| && p.eventLinks[i] == ep.value;
    }
  }

  /** The pause taken after a monitor, shortest first. */
  datatype Pause = NoPause | NormalPause | HeavyPause

  /** The back-in-stock mail text of the paid scans. */
  function BackInStockMail(m: Monitor, url: string): string
    requires m.perf.Some?
  {
    var p := m.perf.value;
    "Ciao " + m.sub.user.firstName + ",\n\n"
    + "Sono tornati disponibili biglietti su Ticketmaster per:\n"
    + "- Evento: " + p.title.GetOr("Evento") + "\n"
    + "- Luogo: " + p.venue.GetOr("") + "\n"
    + "- Data: " + p.when.GetOr("—") + "\n\n"
    + "Link: " + url + "\n\n"
    + "— Tixy"
  }

  // ---------------------------------------------------------------------
  // The daily dedupe key of the paid scans

  /** `date.isoformat()`: YYYY-MM-DD. */
  function DayIso(d: DateTime): (r: string)
    requires Valid(d)
    ensures |r| == 10
  {
    Fixed(d.year, 4) + "-" + Fixed(d.month, 2) + "-" + Fixed(d.day, 2)
  }

  /** `_dedupe_key`: "{platform}:{reason}:perf:{perf}:user:{user}:{day}". */
  function DayKey(perfId: nat, userId: nat, platform: string, reason: string, day: DateTime): string
    requires Valid(day)
  {
    (platform + ":" + reason + ":perf:") + (NatToString(perfId) + (":user:" + (NatToString(userId) + (":" + DayIso(day)))))
  }

  /** Two digit strings followed by texts starting with a non-digit split
      the same way. */
  lemma SplitAfterDigits(a: string, b: string, c: string, e: string)
    requires IsDigits(a) && IsDigits(c)
    requires b != [] && !IsDigit(b[0]) && e != [] && !IsDigit(e[0])
    requires a + b == c + e
    ensures a == c && b == e
  {
    if |a| < |c| {
      ConcatAt(a, b, c, e);
      assert false;
    } else if |c| < |a| {
      ConcatAt(c, e, a, b);
      assert false;
    }
    assert a == (a + b)[..|a|];
    assert c == (c + e)[..|c|];
    assert b == (a + b)[|a|..];
    assert e == (c + e)[|c|..];
  }

  /** The character at `|x|` of two equal concatenations, seen from both
      sides. */
  lemma ConcatAt(x: string, y: string, z: string, w: string)
    ensures x + y == z + w && y != [] && |x| < |z| ==> y[0] == z[|x|]
  {
    if x + y == z + w && y != [] && |x| < |z| {
      assert (x + y)[|x|] == y[0];
      assert (z + w)[|x|] == z[|x|];
    }
  }

  /** `str(n)` is one-to-one. */
  lemma NatToStringInjective(m: nat, n: nat)
    requires NatToString(m) == NatToString(n)
    ensures m == n
  {
    NatToStringRoundTrip(m);
    NatToStringRoundTrip(n);
  }

  /** The ISO day determines the date. */
  lemma DayIsoInjective(d1: DateTime, d2: DateTime)
    requires Valid(d1) && Valid(d2) && DayIso(d1) == DayIso(d2)
    ensures d1.year == d2.year && d1.month == d2.month && d1.day == d2.day
  {
    var s1, s2 := DayIso(d1), DayIso(d2);
    assert Pow10(4) == 10000 && Pow10(2) == 100;
    assert s1[..4] == Fixed(d1.year, 4) && s2[..4] == Fixed(d2.year, 4);
    assert s1[5..7] == Fixed(d1.month, 2) && s2[5..7] == Fixed(d2.month, 2);
    assert s1[8..] == Fixed(d1.day, 2) && s2[8..] == Fixed(d2.day, 2);
    FixedValue(d1.year, 4);
    FixedValue(d2.year, 4);
    FixedValue(d1.month, 2);
    FixedValue(d2.month, 2);
    FixedValue(d1.day, 2);
    FixedValue(d2.day, 2);
  }

  /** One notification a day per performance, user, platform and reason:
      for a fixed platform and reason, two keys are equal exactly when the
      performance, the user and the day are. */
  lemma DayKeyInjective(p1: nat, u1: nat, d1: DateTime, p2: nat, u2: nat, d2: DateTime, platform: string, reason: string)
    requires Valid(d1) && Valid(d2)
    ensures DayKey(p1, u1, platform, reason, d1) == DayKey(p2, u2, platform, reason, d2) <==>
              p1 == p2 && u1 == u2 && d1.year == d2.year && d1.month == d2.month && d1.day == d2.day
  {
    var pre := platform + ":" + reason + ":perf:";
    var v1 := ":" + DayIso(d1);
    var v2 := ":" + DayIso(d2);
    var t1 := ":user:" + (NatToString(u1) + v1);
    var t2 := ":user:" + (NatToString(u2) + v2);
    if DayKey(p1, u1, platform, reason, d1) == DayKey(p2, u2, platform, reason, d2) {
      CancelPrefix(pre, NatToString(p1) + t1, NatToString(p2) + t2);
      SplitAfterDigits(NatToString(p1), t1, NatToString(p2), t2);
      NatToStringInjective(p1, p2);
      CancelPrefix(":user:", NatToString(u1) + v1, NatToString(u2) + v2);
      SplitAfterDigits(NatToString(u1), v1, NatToString(u2), v2);
      NatToStringInjective(u1, u2);
      CancelPrefix(":", DayIso(d1), DayIso(d2));
      DayIsoInjective(d1, d2);
    }
  }

  lemma CancelPrefix(p: string, x: string, y: string)
    requires p + x == p + y
    ensures x == y
  {
    assert x == (p + x)[|p|..];
    assert y == (p + y)[|p|..];
  }

  // ---------------------------------------------------------------------
  // E-mail send retried with linear backoff

  /** The retried send: whether a mail went out, the last error, how many
      `send_mail` calls were made and the seconds slept after each failed
      one. */
  datatype SendRun = SendRun(ok: bool, lastError: string, calls: nat, waits: seq<real>)

  /** The retried send from the `k`-th call (0-based) on: `n` calls at
      most; the first delivery ends it; a failure records its error and
      waits `base * (k + 1)` seconds. */
  function SendFrom(mails: nat -> Mail, n: int, base: real, k: nat, lastErr: string): SendRun
    decreases if k < n then n - k else 0
  {
    if k >= n then SendRun(false, lastErr, 0, [])
    else match mails(k)
      case Delivered => SendRun(true, "", 1, [])
      case MailRaised(e) =>
        var rest := SendFrom(mails, n, base, k + 1, e);
        SendRun(rest.ok, rest.lastError, rest.calls + 1, [Backoff(base, k)] + rest.waits)
  }

  /** The seconds slept after the failed `k`-th call (0-based). */
  function Backoff(base: real, k: nat): real { base * (k + 1) as real }

  /** The whole send, seen from the `k`-th call on, after the `waits`
      already slept. */
  function Resumed(r: SendRun, k: nat, waits: seq<real>): SendRun
  {
    SendRun(r.ok, r.lastError, r.calls + k, waits + r.waits)
  }

  lemma ResumeAfterFailure(mails: nat -> Mail, n: int, base: real, k: nat, lastErr: string, e: string, waits: seq<real>)
    requires k < n && mails(k) == MailRaised(e)
    ensures Resumed(SendFrom(mails, n, base, k, lastErr), k, waits)
            == Resumed(SendFrom(mails, n, base, k + 1, e), k + 1, waits + [Backoff(base, k)])
  {
    var rest := SendFrom(mails, n, base, k + 1, e);
    assert waits + ([Backoff(base, k)] + rest.waits) == (waits + [Backoff(base, k)]) + rest.waits;
  }

  /** `_send_email_with_retry`. */
  method SendWithRetry(mails: nat -> Mail, maxRetries: int, baseWait: real)
    returns (ok: bool, lastErr: string, calls: nat, waits: seq<real>)
    ensures SendRun(ok, lastErr, calls, waits) == SendFrom(mails, maxRetries, baseWait, 0, "")
  {
    lastErr := "";
    waits := [];
    var k: nat := 0;
    while k < maxRetries
      invariant SendFrom(mails, maxRetries, baseWait, 0, "") == Resumed(SendFrom(mails, maxRetries, baseWait, k, lastErr), k, waits)
      decreases maxRetries - k
    {
      match mails(k) {
        case Delivered =>
          return true, "", k + 1, waits;
        case MailRaised(e) =>
          ResumeAfterFailure(mails, maxRetries, baseWait, k, lastErr, e, waits);
          lastErr := e;
          waits := waits + [Backoff(baseWait, k)];
          k := k + 1;
      }
    }
    assert waits + [] == waits;
    return false, lastErr, k, waits;
  }

  /** The send delivers exactly when one of the first `n - k` remaining
      calls delivers; it makes at most that many calls, stops at the first
      delivery, and sleeps once after every failed call, `base` times the
      call's number. */
  lemma {:induction false} SendRunShape(mails: nat -> Mail, n: int, base: real, k: nat, lastErr: string)
    ensures var r := SendFrom(mails, n, base, k, lastErr);
            (r.ok <==> exists j :: k <= j < n && mails(j).Delivered?)
            && (k < n ==> r.calls <= n - k) && (k >= n ==> r.calls == 0)
            && (r.ok ==> mails(k + r.calls - 1).Delivered? && |r.waits| == r.calls - 1)
            && (!r.ok ==> |r.waits| == r.calls)
            && (forall j :: k <= j < k + r.calls - 1 ==> mails(j).MailRaised?)
            && (forall i :: 0 <= i < |r.waits| ==> r.waits[i] == Backoff(base, k + i))
    decreases if k < n then n - k else 0
  {
    if k < n {
      match mails(k)
      case Delivered =>
      case MailRaised(e) =>
        SendRunShape(mails, n, base, k + 1, e);
        var rest := SendFrom(mails, n, base, k + 1, e);
        var r := SendFrom(mails, n, base, k, lastErr);
        assert r.waits == [Backoff(base, k)] + rest.waits;
        if rest.ok {
          var j :| k + 1 <= j < n && mails(j).Delivered?;
        }
        if r.ok {
          var j :| k <= j < n && mails(j).Delivered?;
          assert j != k;
        }
    }
  }

  /** When every call fails, the send reports the last call's error. */
  lemma {:induction false} AllFailReportsLast(mails: nat -> Mail, n: int, base: real, k: nat, lastErr: string)
    requires k < n
    requires forall j :: k <= j < n ==> mails(j).MailRaised?
    ensures SendFrom(mails, n, base, k, lastErr).lastError == mails(n - 1).error
    ensures !SendFrom(mails, n, base, k, lastErr).ok && SendFrom(mails, n, base, k, lastErr).calls == n - k
    decreases n - k
  {
    if k + 1 < n {
      AllFailReportsLast(mails, n, base, k + 1, mails(k).error);
    }
  }
}
