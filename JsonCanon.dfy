/** The stable checksum of a payload: `json.dumps` with sorted keys and
    compact separators. The checksum is the canonical text that is hashed;
    the hash itself (SHA-256) is not modelled, so equal checksums here mean
    equal canonical texts. */
module JsonCanon {
  import opened Text
  import opened Json

  // ---------------------------------------------------------------------
  // Sorting the fields of a dictionary by key

  /** Keys strictly increasing from each field to the next. */
  predicate Sorted(fs: seq<Field>)
  {
    forall i :: 0 <= i < |fs| - 1 ==> StrLess(fs[i].key, fs[i + 1].key)
  }

  /** A Python dictionary: no key twice. */
  predicate DistinctKeys(fs: seq<Field>)
  {
    forall i, j :: 0 <= i < j < |fs| ==> fs[i].key != fs[j].key
  }

  lemma {:induction false} SortedHeadLeast(fs: seq<Field>)
    requires Sorted(fs)
    ensures forall i :: 0 < i < |fs| ==> StrLess(fs[0].key, fs[i].key)
  {
    if |fs| > 1 {
      SortedHeadLeast(fs[1..]);
      forall i | 1 < i < |fs|
        ensures StrLess(fs[0].key, fs[i].key)
      {
        assert fs[1..][i - 1] == fs[i];
        StrLessTransitive(fs[0].key, fs[1].key, fs[i].key);
      }
    }
  }

  function Insert(f: Field, fs: seq<Field>): (r: seq<Field>)
    ensures multiset(r) == multiset(fs) + multiset{f}
    ensures r[0] == f || (fs != [] && r[0] == fs[0])
  {
    if fs == [] then [f]
    else if StrLess(fs[0].key, f.key) then
      assert fs == [fs[0]] + fs[1..];
      [fs[0]] + Insert(f, fs[1..])
    else [f] + fs
  }

  lemma {:induction false} InsertSorted(f: Field, fs: seq<Field>)
    requires Sorted(fs)
    requires forall g :: g in fs ==> g.key != f.key
    ensures Sorted(Insert(f, fs))
  {
    if fs != [] {
      if StrLess(fs[0].key, f.key) {
        InsertSorted(f, fs[1..]);
      } else {
        StrLessTotal(fs[0].key, f.key);
      }
    }
  }

  /** `sorted(d.items())`: the fields in key order. */
  function SortFields(fs: seq<Field>): (r: seq<Field>)
    ensures multiset(r) == multiset(fs)
  {
    if fs == [] then []
    else
      assert fs == [fs[0]] + fs[1..];
      Insert(fs[0], SortFields(fs[1..]))
  }

  lemma {:induction false} SortFieldsSorted(fs: seq<Field>)
    requires DistinctKeys(fs)
    ensures Sorted(SortFields(fs))
  {
    if fs != [] {
      var t := SortFields(fs[1..]);
      SortFieldsSorted(fs[1..]);
      forall g | g in t
        ensures g.key != fs[0].key
      {
        assert g in multiset(fs[1..]);
        var k :| 0 <= k < |fs[1..]| && fs[1..][k] == g;
        assert fs[k + 1] == g;
      }
      InsertSorted(fs[0], t);
    }
  }

  /** Two key-sorted field lists with the same fields are the same list. */
  lemma {:induction false} SortedUnique(a: seq<Field>, b: seq<Field>)
    requires Sorted(a) && Sorted(b) && multiset(a) == multiset(b)
    ensures a == b
  {
    if a == [] {
      assert |multiset(b)| == 0;
    } else {
      assert a[0] in multiset(b);
      assert b != [];
      assert b[0] in multiset(a);
      var j :| 0 <= j < |b| && b[j] == a[0];
      var i :| 0 <= i < |a| && a[i] == b[0];
      SortedHeadLeast(a);
      SortedHeadLeast(b);
      if j > 0 {
        if i > 0 {
          StrLessTotal(a[0].key, b[0].key);
        } else {
          StrLessIrreflexive(a[0].key);
        }
        assert false;
      }
      assert b[0] == a[0];
      assert a == [a[0]] + a[1..];
      assert b == [b[0]] + b[1..];
      assert multiset(a) == multiset{a[0]} + multiset(a[1..]);
      assert multiset(b) == multiset{a[0]} + multiset(b[1..]);
      assert multiset(a[1..]) == multiset(a) - multiset{a[0]};
      assert multiset(b[1..]) == multiset(b) - multiset{a[0]};
      assert Sorted(a[1..]) by {
        forall k | 0 <= k < |a[1..]| - 1 ensures StrLess(a[1..][k].key, a[1..][k + 1].key) {
          assert a[1..][k] == a[k + 1] && a[1..][k + 1] == a[k + 2];
        }
      }
      assert Sorted(b[1..]) by {
        forall k | 0 <= k < |b[1..]| - 1 ensures StrLess(b[1..][k].key, b[1..][k + 1].key) {
          assert b[1..][k] == b[k + 1] && b[1..][k + 1] == b[k + 2];
        }
      }
      SortedUnique(a[1..], b[1..]);
    }
  }

  // ---------------------------------------------------------------------
  // Canonical value, text and checksum

  /** The value with every dictionary's fields in key order. */
  function Canonical(j: Json): Json
  {
    match j
    case JArr(items) => JArr(seq(|items|, i requires 0 <= i < |items| => Canonical(items[i])))
    case JObj(fields) =>
      var sorted := SortFields(fields);
      JObj(seq(|sorted|, i requires 0 <= i < |sorted| =>
             assert sorted[i] in multiset(fields);
             Field(sorted[i].key, Canonical(sorted[i].val))))
    case _ => j
  }

  function HexDigit(d: nat): (c: char)
    requires d < 16
  {
    if d < 10 then DigitChar(d) else ('a' as int + d - 10) as char
  }

  /** One character inside a JSON string with `ensure_ascii=False`. */
  function EscapeChar(c: char): (r: string)
    ensures |r| >= 1
    ensures (c == '"' || c == '\\' || c < ' ') <==> r[0] == '\\'
  {
    if c == '"' then "\\\""
    else if c == '\\' then "\\\\"
    else if c == '\n' then "\\n"
    else if c == '\r' then "\\r"
    else if c == '\t' then "\\t"
    else if c == '\U{0008}' then "\\b"
    else if c == '\U{000C}' then "\\f"
    else if c < ' ' then "\\u00" + [HexDigit(c as int / 16), HexDigit(c as int % 16)]
    else [c]
  }

  function Quote(s: string): (r: string)
    ensures |r| >= |s| + 2 && r[0] == '"' && r[|r| - 1] == '"'
  {
    "\"" + Escape(s) + "\""
  }

  function Escape(s: string): (r: string)
    ensures |r| >= |s|
  {
    if s == [] then [] else EscapeChar(s[0]) + Escape(s[1..])
  }

  /** `json.dumps(j, separators=(",", ":"), ensure_ascii=False)`. */
  function Dumps(j: Json): string
  {
    match j
    case JNull => "null"
    case JBool(b) => if b then "true" else "false"
    case JNum(n) => IntToString(n)
    case JFloat(u, k) => FloatText(u, k)
    case JStr(s) => Quote(s)
    case JArr(items) =>
      "[" + Join(",", seq(|items|, i requires 0 <= i < |items| => Dumps(items[i]))) + "]"
    case JObj(fields) =>
      "{" + Join(",", seq(|fields|, i requires 0 <= i < |fields| =>
                            Quote(fields[i].key) + ":" + Dumps(fields[i].val))) + "}"
  }

  /** `stable_checksum`: the text that is hashed. */
  function Checksum(j: Json): string
  {
    Dumps(Canonical(j))
  }

  /** Two dictionaries with the same items in any order get the same
      checksum. */
  lemma KeyOrderIrrelevant(a: seq<Field>, b: seq<Field>)
    requires DistinctKeys(a) && DistinctKeys(b) && multiset(a) == multiset(b)
    ensures Checksum(JObj(a)) == Checksum(JObj(b))
  {
    SortFieldsSorted(a);
    SortFieldsSorted(b);
    SortedUnique(SortFields(a), SortFields(b));
  }

  /** The canonical value of a dictionary lists its keys in order, so no two
      orderings of one dictionary are told apart. */
  lemma CanonicalKeysSorted(fs: seq<Field>)
    requires DistinctKeys(fs)
    ensures Canonical(JObj(fs)).JObj? && Sorted(Canonical(JObj(fs)).fields)
    ensures |Canonical(JObj(fs)).fields| == |fs|
  {
    SortFieldsSorted(fs);
    var sorted := SortFields(fs);
    assert |sorted| == |multiset(fs)| == |fs|;
  }

  // ---------------------------------------------------------------------
  // Key order at every depth

  /** The keys of a dictionary. */
  function Keys(fs: seq<Field>): set<string>
  {
    set i | 0 <= i < |fs| :: fs[i].key
  }

  /** `a` and `b` are the same value up to the order of the keys of their
      dictionaries, at every depth: the same scalars, arrays of the same
      length with the same items position by position, and dictionaries
      with the same keys whose values under each key are the same up to
      key order. */
  predicate SameUpToKeyOrder(a: Json, b: Json)
    decreases a
  {
    match a
    case JArr(xs) =>
      b.JArr? && |xs| == |b.items|
      && forall i :: 0 <= i < |xs| ==> SameUpToKeyOrder(xs[i], b.items[i])
    case JObj(fs) =>
      b.JObj? && DistinctKeys(fs) && DistinctKeys(b.fields) && Keys(fs) == Keys(b.fields)
      && forall i, j :: 0 <= i < |fs| && 0 <= j < |b.fields| && fs[i].key == b.fields[j].key
           ==> SameUpToKeyOrder(fs[i].val, b.fields[j].val)
    case _ => a == b
  }

  lemma KeysEmpty(fs: seq<Field>)
    ensures Keys(fs) == {} <==> fs == []
  {
    if fs != [] {
      assert fs[0].key in Keys(fs);
    }
  }

  lemma KeysCons(fs: seq<Field>)
    requires fs != []
    ensures Keys(fs) == {fs[0].key} + Keys(fs[1..])
  {
    forall k | k in Keys(fs) ensures k in {fs[0].key} + Keys(fs[1..]) {
      var i :| 0 <= i < |fs| && fs[i].key == k;
      if i > 0 {
        assert fs[1..][i - 1] == fs[i];
      }
    }
    forall k | k in Keys(fs[1..]) ensures k in Keys(fs) {
      var i :| 0 <= i < |fs[1..]| && fs[1..][i].key == k;
      assert fs[i + 1] == fs[1..][i];
    }
  }

  /** The head of a key-sorted list is its least key, listed once. */
  lemma SortedHeadApart(fs: seq<Field>)
    requires fs != [] && Sorted(fs)
    ensures Sorted(fs[1..])
    ensures fs[0].key !in Keys(fs[1..])
    ensures forall k :: k in Keys(fs) && k != fs[0].key ==> StrLess(fs[0].key, k)
  {
    SortedHeadLeast(fs);
    StrLessIrreflexive(fs[0].key);
    assert Sorted(fs[1..]) by {
      forall k | 0 <= k < |fs[1..]| - 1 ensures StrLess(fs[1..][k].key, fs[1..][k + 1].key) {
        assert fs[1..][k] == fs[k + 1] && fs[1..][k + 1] == fs[k + 2];
      }
    }
  }

  /** Two key-sorted lists with the same keys list them in the same order. */
  lemma {:induction false} SortedSameKeys(a: seq<Field>, b: seq<Field>)
    requires Sorted(a) && Sorted(b) && Keys(a) == Keys(b)
    ensures |a| == |b| && forall i :: 0 <= i < |a| ==> a[i].key == b[i].key
  {
    KeysEmpty(a);
    KeysEmpty(b);
    if a != [] {
      assert a[0].key in Keys(a);
      assert b != [];
      SortedHeadApart(a);
      SortedHeadApart(b);
      assert b[0].key in Keys(b);
      if a[0].key != b[0].key {
        StrLessTotal(a[0].key, b[0].key);
        assert false;
      }
      KeysCons(a);
      KeysCons(b);
      assert Keys(a[1..]) == Keys(a) - {a[0].key};
      assert Keys(b[1..]) == Keys(b) - {b[0].key};
      SortedSameKeys(a[1..], b[1..]);
      forall k | 0 <= k < |a| ensures a[k].key == b[k].key {
        if k > 0 {
          assert a[k] == a[1..][k - 1] && b[k] == b[1..][k - 1];
        }
      }
    }
  }

  /** A reordering of a list has the same keys. */
  lemma PermutedKeys(a: seq<Field>, b: seq<Field>)
    requires multiset(a) == multiset(b)
    ensures Keys(a) == Keys(b)
  {
    forall k | k in Keys(a) ensures k in Keys(b) {
      var i :| 0 <= i < |a| && a[i].key == k;
      var j := FieldAt(a[i], b);
    }
    forall k | k in Keys(b) ensures k in Keys(a) {
      var j :| 0 <= j < |b| && b[j].key == k;
      var i := FieldAt(b[j], a);
    }
  }

  /** A field of a list is at some index of it. */
  lemma FieldAt(f: Field, fs: seq<Field>) returns (k: nat)
    requires f in multiset(fs)
    ensures k < |fs| && fs[k] == f
  {
    k :| 0 <= k < |fs| && fs[k] == f;
  }

  /** Values that are the same up to key order, at every depth, have the
      same canonical value. */
  lemma {:induction false} SameCanonical(a: Json, b: Json)
    requires SameUpToKeyOrder(a, b)
    ensures Canonical(a) == Canonical(b)
    decreases a
  {
    match a
    case JArr(xs) =>
      forall i | 0 <= i < |xs| ensures Canonical(xs[i]) == Canonical(b.items[i]) {
        SameCanonical(xs[i], b.items[i]);
      }
    case JObj(fs) =>
      var gs := b.fields;
      var sf, sg := SortFields(fs), SortFields(gs);
      SortFieldsSorted(fs);
      SortFieldsSorted(gs);
      PermutedKeys(sf, fs);
      PermutedKeys(sg, gs);
      SortedSameKeys(sf, sg);
      forall i | 0 <= i < |sf| ensures Canonical(sf[i].val) == Canonical(sg[i].val) {
        var p := FieldAt(sf[i], fs);
        var q := FieldAt(sg[i], gs);
        SameCanonical(fs[p].val, gs[q].val);
      }
      CanonicalFieldwise(fs, gs);
    case _ =>
  }

  /** Dictionaries whose sorted fields agree key by key and canonical value
      by canonical value have the same canonical value. */
  lemma CanonicalFieldwise(fs: seq<Field>, gs: seq<Field>)
    requires |SortFields(fs)| == |SortFields(gs)|
    requires forall i :: 0 <= i < |SortFields(fs)| ==>
      SortFields(fs)[i].key == SortFields(gs)[i].key
      && Canonical(SortFields(fs)[i].val) == Canonical(SortFields(gs)[i].val)
    ensures Canonical(JObj(fs)) == Canonical(JObj(gs))
  {
    var cf, cg := Canonical(JObj(fs)).fields, Canonical(JObj(gs)).fields;
    assert |cf| == |cg|;
    forall i | 0 <= i < |cf| ensures cf[i] == cg[i] {
    }
  }

  /** Values that are the same up to key order, at every depth, get the
      same checksum. */
  lemma SameChecksum(a: Json, b: Json)
    requires SameUpToKeyOrder(a, b)
    ensures Checksum(a) == Checksum(b)
  {
    SameCanonical(a, b);
  }
}
