/** Slugs for the catalogue: Django's `slugify` as the ingestion commands
    apply it to names, cities and venues, and the suffix search
    `unique_slug` with which two of them keep `Evento.slug` free of
    collisions. Text is ASCII: Django's NFKD folding of accented letters is
    not modelled, such characters are dropped like any other symbol. */
module Slugs {
  import opened Text

  /** What the class `[-\s]` matches. */
  predicate IsSep(c: char) { c == '-' || IsSpace(c) }

  predicate IsSlugChar(c: char) { IsLowerLetter(c) || IsDigit(c) || c == '_' || c == '-' }

  predicate NoDoubleDash(s: string)
  {
    forall i :: 0 <= i < |s| - 1 ==> !(s[i] == '-' && s[i + 1] == '-')
  }

  /** `re.sub(r"[^\w\s-]", "", s)`. */
  function KeepWordSpaceDash(s: string): (r: string)
    ensures |r| <= |s|
    ensures forall i :: 0 <= i < |r| ==> IsWordChar(r[i]) || IsSep(r[i])
    ensures IsLowered(s) ==> IsLowered(r)
  {
    if s == [] then []
    else
      var p := KeepWordSpaceDash(s[..|s| - 1]);
      var c := s[|s| - 1];
      if IsWordChar(c) || IsSep(c) then p + [c] else p
  }

  /** `re.sub(r"[-\s]+", "-", s)`: every run of dashes and whitespace
      becomes one dash. */
  function DashRuns(s: string): (r: string)
    ensures |r| <= |s|
    ensures NoDoubleDash(r)
    ensures forall i :: 0 <= i < |r| ==> !IsSpace(r[i])
    ensures (forall i :: 0 <= i < |s| ==> IsSlugChar(s[i]) || IsSpace(s[i])) ==>
              forall i :: 0 <= i < |r| ==> IsSlugChar(r[i])
  {
    if s == [] then []
    else
      var p := DashRuns(s[..|s| - 1]);
      var c := s[|s| - 1];
      if IsSep(c) then (if |p| > 0 && p[|p| - 1] == '-' then p else p + "-")
      else p + [c]
  }

  /** Django's `slugify`: lower-cased, symbols dropped, runs of dashes and
      whitespace made one dash, dashes and underscores trimmed from both
      ends. */
  function DjangoSlugify(s: string): (r: string)
    ensures forall i :: 0 <= i < |r| ==> IsSlugChar(r[i])
    ensures NoDoubleDash(r)
    ensures |r| > 0 ==> r[0] != '-' && r[0] != '_' && r[|r| - 1] != '-' && r[|r| - 1] != '_'
  {
    var k := KeepWordSpaceDash(Lower(s));
    var d := DashRuns(k);
    assert forall i :: 0 <= i < |k| ==> IsSlugChar(k[i]) || IsSpace(k[i]);
    StripAny(d, {'-', '_'})
  }

  // ---------------------------------------------------------------------
  // DjangoSlugify applied to its own output changes nothing

  lemma {:induction false} KeepSlugChars(s: string)
    requires forall i :: 0 <= i < |s| ==> IsSlugChar(s[i])
    ensures KeepWordSpaceDash(s) == s
  {
    if s != [] {
      KeepSlugChars(s[..|s| - 1]);
      assert s == s[..|s| - 1] + [s[|s| - 1]];
    }
  }

  lemma {:induction false} DashRunsKeeps(s: string)
    requires NoDoubleDash(s)
    requires forall i :: 0 <= i < |s| ==> !IsSpace(s[i])
    ensures DashRuns(s) == s
  {
    if s != [] {
      var p := s[..|s| - 1];
      DashRunsKeeps(p);
      assert s == p + [s[|s| - 1]];
    }
  }

  lemma {:induction false} LStripNothing(s: string, cs: set<char>)
    requires |s| > 0 ==> s[0] !in cs
    ensures LStripAny(s, cs) == s
  {
  }

  lemma {:induction false} RStripNothing(s: string, cs: set<char>)
    requires |s| > 0 ==> s[|s| - 1] !in cs
    ensures RStripAny(s, cs) == s
  {
  }

  /** Slugifying a slug gives it back, so normalised names are stable
      when an import runs again over its own output. */
  lemma DjangoSlugifyIdempotent(s: string)
    ensures DjangoSlugify(DjangoSlugify(s)) == DjangoSlugify(s)
  {
    var r := DjangoSlugify(s);
    assert KeepWordSpaceDash(Lower(r)) == r by {
      assert Lower(r) == r;
      KeepSlugChars(r);
    }
    assert DashRuns(r) == r by { DashRunsKeeps(r); }
    assert StripAny(r, {'-', '_'}) == r by {
      LStripNothing(r, {'-', '_'});
      RStripNothing(r, {'-', '_'});
    }
  }

  // ---------------------------------------------------------------------
  // unique_slug

  /** The base `unique_slug` starts from: the given slug without leading
      and trailing dashes, or "evento" when nothing is left. */
  function SlugBase(base: string): (r: string)
    ensures r != "" && r[0] != '-' && r[|r| - 1] != '-'
    ensures StripAny(base, {'-'}) != "" ==> r == StripAny(base, {'-'})
  {
    var s := StripAny(base, {'-'});
    if s == "" then "evento" else s
  }

  /** The i-th candidate, `f"{base}-{i}"`. */
  function Candidate(b: string, i: nat): (r: string)
    ensures |r| > |b| + 1 && IsPrefix(b, r)
  {
    b + "-" + NatToString(i)
  }

  lemma CandidateInjective(b: string, i: nat, j: nat)
    requires Candidate(b, i) == Candidate(b, j)
    ensures i == j
  {
    assert NatToString(i) == Candidate(b, i)[|b| + 1..];
    assert NatToString(j) == Candidate(b, j)[|b| + 1..];
    NatToStringRoundTrip(i);
    NatToStringRoundTrip(j);
  }

  /** `s` is what the search must return for base `b` when `taken` holds
      the slugs of the other events: `b` itself when free, otherwise the
      candidate with the smallest index from 2 on that is free. */
  ghost predicate IsFirstFree(b: string, taken: set<string>, s: string)
  {
    (b !in taken && s == b)
    || (b in taken && exists k :: 2 <= k && s == Candidate(b, k) && s !in taken
                                  && forall j :: 2 <= j < k ==> Candidate(b, j) in taken)
  }

  /** At most one slug is the first free one. */
  lemma FirstFreeUnique(b: string, taken: set<string>, s1: string, s2: string)
    requires IsFirstFree(b, taken, s1) && IsFirstFree(b, taken, s2)
    ensures s1 == s2
  {
    if b in taken {
      var k1 :| 2 <= k1 && s1 == Candidate(b, k1) && s1 !in taken
                && forall j :: 2 <= j < k1 ==> Candidate(b, j) in taken;
      var k2 :| 2 <= k2 && s2 == Candidate(b, k2) && s2 !in taken
                && forall j :: 2 <= j < k2 ==> Candidate(b, j) in taken;
    }
  }

  /** The first free slug for base `b`, as a value: the one `IsFirstFree`
      singles out. */
  ghost function FirstFreeSlug(b: string, taken: set<string>): (s: string)
    ensures IsFirstFree(b, taken, s)
  {
    FreeExists(b, taken, 2);
    var s :| IsFirstFree(b, taken, s); s
  }

  /** The slug `unique_slug` tries at step `i` (counting from 2): the base,
      then base-2, base-3, ... */
  function Tries(b: string, i: nat): string
    requires i >= 2
  {
    if i == 2 then b else Candidate(b, i - 1)
  }

  /** The slugs tried before step `i`. */
  function Tried(b: string, i: nat): (r: set<string>)
    requires i >= 2
    decreases i
  {
    if i == 2 then {} else Tried(b, i - 1) + {Tries(b, i - 1)}
  }

  /** Two different steps try two different slugs. */
  lemma TriesDistinct(b: string, i: nat, j: nat)
    requires 2 <= j < i
    ensures Tries(b, i) != Tries(b, j)
  {
    if j > 2 && Tries(b, i) == Tries(b, j) {
      CandidateInjective(b, i - 1, j - 1);
    }
  }

  /** No slug is tried twice, so step `i` has tried `i - 2` slugs. */
  lemma {:induction false} TriedFresh(b: string, i: nat, n: nat)
    requires 2 <= n <= i
    ensures Tries(b, i) !in Tried(b, n) && |Tried(b, n)| == n - 2
    decreases n
  {
    if n > 2 {
      TriedFresh(b, i, n - 1);
      TriedFresh(b, n - 1, n - 1);
      TriesDistinct(b, i, n - 1);
    }
  }

  /** Every step before `i` is among the slugs tried before `i`. */
  lemma {:induction false} TriedHas(b: string, i: nat, k: nat)
    requires 2 <= k < i
    ensures Tries(b, k) in Tried(b, i)
    decreases i
  {
    if k < i - 1 {
      TriedHas(b, i - 1, k);
    }
  }

  /** When the slugs tried before step `i` are all taken, some slug is the
      first free one: each further step is taken and new, so at most
      |taken| of them can be taken. */
  lemma {:induction false} FreeExists(b: string, taken: set<string>, i: nat)
    requires 2 <= i && Tried(b, i) <= taken
    ensures exists s :: IsFirstFree(b, taken, s)
    decreases |taken| - (i - 2)
  {
    TriedFresh(b, i, i);
    SubsetCard(Tried(b, i), taken);
    if Tries(b, i) !in taken {
      if i == 2 {
        assert IsFirstFree(b, taken, b);
      } else {
        TriedHas(b, i, 2);
        forall j | 2 <= j < i - 1
          ensures Candidate(b, j) in taken
        {
          TriedHas(b, i, j + 1);
        }
        assert IsFirstFree(b, taken, Candidate(b, i - 1));
      }
    } else {
      TriedFresh(b, i + 1, i + 1);
      SubsetCard(Tried(b, i + 1), taken);
      FreeExists(b, taken, i + 1);
    }
  }

  /** `unique_slug`: tries the base, then base-2, base-3, ... until one is
      not among `taken`. Every tried slug is taken and distinct from those
      before it, so the search ends within |taken| + 1 tries. */
  method UniqueSlug(base: string, taken: set<string>) returns (slug: string)
    ensures slug !in taken
    ensures IsFirstFree(SlugBase(base), taken, slug)
  {
    slug := FirstFree(SlugBase(base), taken);
  }

  /** The search itself, from the cleaned base `b`. */
  method FirstFree(b: string, taken: set<string>) returns (slug: string)
    ensures slug !in taken
    ensures IsFirstFree(b, taken, slug)
  {
    slug := b;
    var i := 2;
    while slug in taken
      invariant 2 <= i && slug == Tries(b, i)
      invariant i > 2 ==> b in taken
      invariant forall j :: 2 <= j < i - 1 ==> Candidate(b, j) in taken
      invariant Tried(b, i) <= taken
      decreases |taken| - (i - 2)
    {
      assert Tried(b, i + 1) <= taken && i - 1 <= |taken| by {
        TriedFresh(b, i + 1, i + 1);
        SubsetCard(Tried(b, i + 1), taken);
      }
      slug := Candidate(b, i);
      i := i + 1;
    }
    if i > 2 {
      assert 2 <= i - 1 && slug == Candidate(b, i - 1);
    }
  }

  lemma SubsetCard(a: set<string>, b: set<string>)
    requires a <= b
    ensures |a| <= |b|
  {
    assert b == a + (b - a);
  }
}
