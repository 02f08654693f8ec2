/** The two helpers of the admin site that compute text: `shorten`, which
    cuts long notification messages for the list view, and the monitor
    list's `target` column, which names the performance or event a monitor
    watches. */
module Admin {
  import opened Wrappers
  import opened Text

  /** The ellipsis `shorten` appends. */
  const Ellipsis: char := '\U{2026}'

  /** `shorten(text, n)`: "" for a missing or empty text, the text itself
      when it has at most `n` characters, else its first `n` characters
      (Python's slice, so a negative `n` counts from the end) and an
      ellipsis. */
  function Shorten(text: Option<string>, n: int): (r: string)
    ensures text.None? || text.value == "" ==> r == ""
    ensures text.Some? && |text.value| <= n ==> r == text.value
    ensures text.Some? && text.value != "" && |text.value| > n ==>
              |r| > 0 && r[|r| - 1] == Ellipsis && IsPrefix(r[..|r| - 1], text.value)
    ensures text.Some? && |text.value| > n >= 0 ==> |r| == n + 1
    ensures n >= 0 ==> |r| <= n + 1
  {
    if text.None? || text.value == "" then ""
    else
      var s := text.value;
      if |s| > n then Take(s, n) + [Ellipsis] else s
  }

  /** A shortened text is left alone by a second shortening with room for
      its ellipsis, so the list view can shorten what it already shortened. */
  lemma {:induction false} ShortenStable(text: Option<string>, n: int)
    requires n >= 0
    ensures Shorten(Some(Shorten(text, n)), n + 1) == Shorten(text, n)
  {
  }

  /** The performance a monitor points at, with the names its label shows. */
  datatype PerfRef = PerfRef(id: nat, eventName: string, venueName: string)

  /** The event a monitor points at. */
  datatype EventRef = EventRef(id: nat, eventName: string)

  /** A monitor row: its optional performance and event foreign keys. */
  datatype MonitorRow = MonitorRow(performance: Option<PerfRef>, event: Option<EventRef>)

  /** `if obj.performance_id:` — a NULL or zero key is false. */
  predicate HasPerformance(m: MonitorRow) { m.performance.Some? && m.performance.value.id != 0 }
  predicate HasEvent(m: MonitorRow) { m.event.Some? && m.event.value.id != 0 }

  /** `MonitoraggioAdmin.target`: the performance when set, else the event
      when set, else "-". */
  function Target(m: MonitorRow): (r: string)
    ensures HasPerformance(m) ==> IsPrefix("PERF #", r)
    ensures !HasPerformance(m) && HasEvent(m) ==> IsPrefix("EVENT #", r)
    ensures r == "-" <==> !HasPerformance(m) && !HasEvent(m)
  {
    if HasPerformance(m) then
      var p := m.performance.value;
      "PERF #" + NatToString(p.id) + " - " + p.eventName + " @ " + p.venueName
    else if HasEvent(m) then
      "EVENT #" + NatToString(m.event.value.id) + " - " + m.event.value.eventName
    else "-"
  }

  /** The longest run of digits `s` starts with. */
  function LeadingDigits(s: string): (r: string)
    ensures IsPrefix(r, s)
    ensures forall i :: 0 <= i < |r| ==> IsDigit(r[i])
  {
    if s != [] && IsDigit(s[0]) then [s[0]] + LeadingDigits(s[1..]) else []
  }

  /** The id a label names: the number after "PERF #" or "EVENT #". */
  function LabelId(s: string): Option<nat>
  {
    if IsPrefix("PERF #", s) then Some(DigitsValue(LeadingDigits(s[6..])))
    else if IsPrefix("EVENT #", s) then Some(DigitsValue(LeadingDigits(s[7..])))
    else None
  }

  lemma {:induction false} LeadingDigitsOf(d: string, rest: string)
    requires forall i :: 0 <= i < |d| ==> IsDigit(d[i])
    requires rest != [] && !IsDigit(rest[0])
    ensures LeadingDigits(d + rest) == d
  {
    if d != [] {
      assert (d + rest)[1..] == d[1..] + rest;
      LeadingDigitsOf(d[1..], rest);
    }
  }

  /** The label reads back as the row it was made from: the performance's
      id, else the event's id, and no id for "-". */
  lemma TargetNamesItsRow(m: MonitorRow)
    ensures LabelId(Target(m)) == if HasPerformance(m) then Some(m.performance.value.id)
                                  else if HasEvent(m) then Some(m.event.value.id)
                                  else None
  {
    var r := Target(m);
    if HasPerformance(m) {
      var p := m.performance.value;
      var d := NatToString(p.id);
      assert r[6..] == d + (" - " + p.eventName + " @ " + p.venueName);
      LeadingDigitsOf(d, " - " + p.eventName + " @ " + p.venueName);
      NatToStringRoundTrip(p.id);
    } else if HasEvent(m) {
      var e := m.event.value;
      var d := NatToString(e.id);
      assert r[7..] == d + (" - " + e.eventName);
      assert !IsPrefix("PERF #", r) by { assert r[0] == 'E'; }
      LeadingDigitsOf(d, " - " + e.eventName);
      NatToStringRoundTrip(e.id);
    }
  }
}
