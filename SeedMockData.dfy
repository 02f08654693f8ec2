/** The mock-data seeder (`seed_mock_data`): its three text helpers
    (`slugify`, `normalize`, `unique_hash`) and the two rules by which it
    completes rows that already exist (an event's missing hash and
    normalised name, a listing's `is_top` flag). */
module SeedMockData {
  import opened Wrappers
  import opened Text

  /** Python's `\w` on the characters the model tells apart: the ASCII word
      characters and the letters of Latin-1. */
  predicate IsWord(c: char)
  {
    IsWordChar(c) || c == '\U{AA}' || c == '\U{B5}' || c == '\U{BA}'
    || ('\U{C0}' <= c <= '\U{FF}' && c != '\U{D7}' && c != '\U{F7}')
  }

  /** The characters `[\w\s-]` keeps. */
  predicate SlugChar(c: char) { IsWord(c) || IsSpace(c) || c == '-' }

  /** `(s or "").strip().lower()`. */
  function Prepare(s: Option<string>): (r: string)
    ensures IsLowered(r)
    ensures r != [] ==> !IsSpace(r[0]) && !IsSpace(r[|r| - 1])
  {
    var t := Strip(if s.Some? then s.value else "");
    assert t != [] ==> !IsSpace(LowerChar(t[0])) && !IsSpace(LowerChar(t[|t| - 1]));
    Lower(t)
  }

  /** `re.sub(r"[^\w\s-]", "", s)`: the characters of `s` that are word
      characters, white space or dashes, in order. */
  function DropPunctuation(s: string): (r: string)
    ensures |r| <= |s|
  {
    if s == [] then []
    else (if SlugChar(s[0]) then [s[0]] else []) + DropPunctuation(s[1..])
  }

  /** What is dropped is exactly what `[\w\s-]` refuses: what remains is
      made of kept characters, is lower-case when `s` is, and a text of
      kept characters loses nothing. */
  lemma {:induction false} DropPunctuationKeeps(s: string)
    ensures forall i :: 0 <= i < |DropPunctuation(s)| ==> SlugChar(DropPunctuation(s)[i])
    ensures IsLowered(s) ==> IsLowered(DropPunctuation(s))
    ensures (forall i :: 0 <= i < |s| ==> SlugChar(s[i])) ==> DropPunctuation(s) == s
  {
    if s != [] {
      DropPunctuationKeeps(s[1..]);
      var r, t := DropPunctuation(s), DropPunctuation(s[1..]);
      var h := if SlugChar(s[0]) then [s[0]] else [];
      assert r == h + t;
      if IsLowered(s) {
        assert forall i :: 0 <= i < |s[1..]| ==> s[1..][i] == s[i + 1];
        assert IsLowered(s[1..]);
      }
      forall i | 0 <= i < |r|
        ensures SlugChar(r[i]) && (IsLowered(s) ==> !IsUpper(r[i]))
      {
        if i >= |h| {
          assert r[i] == t[i - |h|];
        } else {
          assert h == [s[0]] && r[i] == s[0];
        }
      }
      if forall i :: 0 <= i < |s| ==> SlugChar(s[i]) {
        assert forall i :: 0 <= i < |s[1..]| ==> s[1..][i] == s[i + 1];
        assert s == [s[0]] + s[1..];
      }
    }
  }

  /** `re.sub(r"\s+", d, s)`: every run of white space becomes one `d`. */
  function SqueezeSpaces(s: string, d: char): (r: string)
    decreases |s|
  {
    if s == [] then []
    else if IsSpace(s[0]) then [d] + SqueezeSpaces(StripLeft(s[1..]), d)
    else [s[0]] + SqueezeSpaces(s[1..], d)
  }

  /** The squeezed text is empty only when `s` is, and starts with `d`
      exactly when `s` starts with white space. */
  lemma SqueezeStart(s: string, d: char)
    requires s != []
    ensures SqueezeSpaces(s, d) != [] && SqueezeSpaces(s, d)[0] == if IsSpace(s[0]) then d else s[0]
  {
  }

  /** The only white space left is `d`. */
  lemma {:induction false} SqueezeLeavesOnlyD(s: string, d: char)
    ensures forall i :: 0 <= i < |SqueezeSpaces(s, d)| ==>
              SqueezeSpaces(s, d)[i] == d || !IsSpace(SqueezeSpaces(s, d)[i])
    decreases |s|
  {
    if s != [] {
      var rest := if IsSpace(s[0]) then StripLeft(s[1..]) else s[1..];
      SqueezeLeavesOnlyD(rest, d);
      assert SqueezeSpaces(s, d)[1..] == SqueezeSpaces(rest, d);
    }
  }

  /** Lower case stays lower case. */
  lemma {:induction false} SqueezeLowered(s: string, d: char)
    requires IsLowered(s) && !IsUpper(d)
    ensures IsLowered(SqueezeSpaces(s, d))
    decreases |s|
  {
    if s != [] {
      var rest := if IsSpace(s[0]) then StripLeft(s[1..]) else s[1..];
      assert rest == s[|s| - |rest|..];
      SqueezeLowered(rest, d);
      assert SqueezeSpaces(s, d)[1..] == SqueezeSpaces(rest, d);
    }
  }

  /** Kept characters stay kept characters, or become `d`. */
  lemma {:induction false} SqueezeSlugChars(s: string, d: char)
    requires forall i :: 0 <= i < |s| ==> SlugChar(s[i])
    ensures forall i :: 0 <= i < |SqueezeSpaces(s, d)| ==>
              SqueezeSpaces(s, d)[i] == d || SlugChar(SqueezeSpaces(s, d)[i])
    decreases |s|
  {
    if s != [] {
      var rest := if IsSpace(s[0]) then StripLeft(s[1..]) else s[1..];
      assert rest == s[|s| - |rest|..];
      SqueezeSlugChars(rest, d);
      assert SqueezeSpaces(s, d)[1..] == SqueezeSpaces(rest, d);
    }
  }

  /** Stripping the start of a text ending in a non-space character
      keeps that character last. */
  lemma {:induction false} StripLeftKeepsLast(t: string)
    requires t != [] && !IsSpace(t[|t| - 1])
    ensures StripLeft(t) != [] && StripLeft(t)[|StripLeft(t)| - 1] == t[|t| - 1]
  {
    if IsSpace(t[0]) {
      StripLeftKeepsLast(t[1..]);
    }
  }

  /** A text ending in a non-space character keeps it last. */
  lemma {:induction false} SqueezeKeepsLast(s: string, d: char)
    requires s != [] && !IsSpace(s[|s| - 1])
    ensures SqueezeSpaces(s, d) != [] && SqueezeSpaces(s, d)[|SqueezeSpaces(s, d)| - 1] == s[|s| - 1]
    decreases |s|
  {
    if IsSpace(s[0]) {
      StripLeftKeepsLast(s[1..]);
      SqueezeKeepsLast(StripLeft(s[1..]), d);
    } else if |s| > 1 {
      SqueezeKeepsLast(s[1..], d);
    }
  }

  /** Squeezing with a space leaves no two white-space characters side by
      side. */
  lemma {:induction false} SqueezeNoDouble(s: string, d: char)
    requires IsSpace(d)
    ensures var r := SqueezeSpaces(s, d);
            forall i :: 0 <= i < |r| - 1 ==> !(IsSpace(r[i]) && IsSpace(r[i + 1]))
    decreases |s|
  {
    if s != [] {
      var rest := if IsSpace(s[0]) then StripLeft(s[1..]) else s[1..];
      SqueezeNoDouble(rest, d);
      var r := SqueezeSpaces(s, d);
      var tail := SqueezeSpaces(rest, d);
      assert r == [if IsSpace(s[0]) then d else s[0]] + tail;
      if rest != [] {
        SqueezeStart(rest, d);
      }
      forall i | 0 <= i < |r| - 1
        ensures !(IsSpace(r[i]) && IsSpace(r[i + 1]))
      {
        if i > 0 {
          assert r[i] == tail[i - 1] && r[i + 1] == tail[i];
        }
      }
    }
  }

  /** A text whose white space is single `d`s is left as it is. */
  lemma {:induction false} SqueezeFixed(s: string, d: char)
    requires forall i :: 0 <= i < |s| && IsSpace(s[i]) ==> s[i] == d
    requires forall i :: 0 <= i < |s| - 1 ==> !(IsSpace(s[i]) && IsSpace(s[i + 1]))
    ensures SqueezeSpaces(s, d) == s
    decreases |s|
  {
    if s != [] {
      if IsSpace(s[0]) {
        assert StripLeft(s[1..]) == s[1..];
      }
      SqueezeFixed(s[1..], d);
    }
  }

  /** `re.sub(r"-{2,}", "-", s)`: every run of dashes becomes one dash. */
  function SqueezeDashes(s: string): (r: string)
    decreases |s|
  {
    if s == [] then []
    else if s[0] == '-' then "-" + SqueezeDashes(LStripAny(s[1..], {'-'}))
    else [s[0]] + SqueezeDashes(s[1..])
  }

  /** What `SqueezeDashes` goes on with after the first character of a
      non-empty text: a suffix of it. */
  function DashRest(s: string): (r: string)
    requires s != []
    ensures |r| < |s| && r == s[|s| - |r|..]
  {
    if s[0] == '-' then LStripAny(s[1..], {'-'}) else s[1..]
  }

  /** The squeezed text starts with the first character of `s` and goes on
      with the squeeze of the rest. */
  lemma SqueezeDashesStep(s: string)
    requires s != []
    ensures var r := SqueezeDashes(s);
            r != [] && r[0] == s[0] && r[1..] == SqueezeDashes(DashRest(s))
  {
  }

  /** No two dashes are left side by side. */
  lemma {:induction false} SqueezeDashesNoDouble(s: string)
    ensures var r := SqueezeDashes(s);
            forall i :: 0 <= i < |r| - 1 ==> !(r[i] == '-' && r[i + 1] == '-')
    decreases |s|
  {
    if s != [] {
      var rest := DashRest(s);
      SqueezeDashesStep(s);
      SqueezeDashesNoDouble(rest);
      if rest != [] {
        SqueezeDashesStep(rest);
      }
    }
  }

  /** Lower case stays lower case. */
  lemma {:induction false} SqueezeDashesLowered(s: string)
    requires IsLowered(s)
    ensures IsLowered(SqueezeDashes(s))
    decreases |s|
  {
    if s != [] {
      var rest := DashRest(s);
      SqueezeDashesStep(s);
      SqueezeDashesLowered(rest);
    }
  }

  /** Word-or-dash characters stay word-or-dash characters. */
  lemma {:induction false} SqueezeDashesWords(s: string)
    requires forall i :: 0 <= i < |s| ==> IsWord(s[i]) || s[i] == '-'
    ensures var r := SqueezeDashes(s);
            forall i :: 0 <= i < |r| ==> IsWord(r[i]) || r[i] == '-'
    decreases |s|
  {
    if s != [] {
      var rest := DashRest(s);
      SqueezeDashesStep(s);
      SqueezeDashesWords(rest);
    }
  }

  lemma {:induction false} SqueezeDashesFixed(s: string)
    requires forall i :: 0 <= i < |s| - 1 ==> !(s[i] == '-' && s[i + 1] == '-')
    ensures SqueezeDashes(s) == s
    decreases |s|
  {
    if s != [] {
      if s[0] == '-' {
        assert LStripAny(s[1..], {'-'}) == s[1..];
      }
      SqueezeDashesFixed(s[1..]);
    }
  }

  /** The longest slug `slugify` returns. */
  const SlugMax := 250

  /** The slug before the cut: lowered, punctuation dropped, white space
      runs turned into dashes and dash runs squeezed. */
  function SlugBody(s: Option<string>): string
  {
    SqueezeDashes(SqueezeSpaces(DropPunctuation(Prepare(s)), '-'))
  }

  /** `slugify`: the slug body cut to 250 characters, and "slug" when
      nothing is left. */
  function Slugify(s: Option<string>): (r: string)
    ensures r != "" && |r| <= SlugMax
  {
    var d := SlugBody(s);
    if |d| == 0 then "slug" else d[..if |d| <= SlugMax then |d| else SlugMax]
  }

  /** Every character is a word character or a dash. */
  predicate WordsOrDashes(s: string) { forall i :: 0 <= i < |s| ==> IsWord(s[i]) || s[i] == '-' }

  /** No two dashes side by side. */
  predicate SingleDashes(s: string) { forall i :: 0 <= i < |s| - 1 ==> !(s[i] == '-' && s[i + 1] == '-') }

  /** Turning the white space of a text of kept characters into dashes
      leaves only word characters and dashes. */
  lemma DashedWords(a: string)
    requires forall i :: 0 <= i < |a| ==> SlugChar(a[i])
    ensures WordsOrDashes(SqueezeSpaces(a, '-'))
  {
    var b := SqueezeSpaces(a, '-');
    SqueezeLeavesOnlyD(a, '-');
    SqueezeSlugChars(a, '-');
    forall i | 0 <= i < |b|
      ensures IsWord(b[i]) || b[i] == '-'
    {
      assert b[i] == '-' || !IsSpace(b[i]);
      assert b[i] == '-' || SlugChar(b[i]);
    }
  }

  /** The slug made of a lowered text holds only word characters and single
      dashes, none of them upper case. */
  lemma DashedShape(p: string)
    requires IsLowered(p)
    ensures var d := SqueezeDashes(SqueezeSpaces(DropPunctuation(p), '-'));
            WordsOrDashes(d) && IsLowered(d) && SingleDashes(d)
  {
    var a := DropPunctuation(p);
    DropPunctuationKeeps(p);
    var b := SqueezeSpaces(a, '-');
    DashedWords(a);
    SqueezeLowered(a, '-');
    SqueezeDashesNoDouble(b);
    SqueezeDashesLowered(b);
    SqueezeDashesWords(b);
  }

  /** The slug body holds only word characters and single dashes, none of
      them upper case. */
  lemma SlugBodyShape(s: Option<string>)
    ensures var d := SlugBody(s);
            WordsOrDashes(d) && IsLowered(d) && SingleDashes(d)
  {
    DashedShape(Prepare(s));
  }

  /** A prefix keeps the character-wise properties of the slug body. */
  lemma CutShape(d: string, n: nat)
    requires n <= |d|
    requires WordsOrDashes(d) && IsLowered(d) && SingleDashes(d)
    ensures WordsOrDashes(d[..n]) && IsLowered(d[..n]) && SingleDashes(d[..n])
  {
  }

  /** A slug is never empty, has at most 250 characters, all of them word
      characters or dashes, none upper case, and no two dashes side by
      side. */
  lemma SlugifyShape(s: Option<string>)
    ensures var r := Slugify(s);
            r != "" && |r| <= SlugMax && WordsOrDashes(r) && IsLowered(r) && SingleDashes(r)
  {
    var d := SlugBody(s);
    if |d| != 0 {
      var n := if |d| <= SlugMax then |d| else SlugMax;
      SlugBodyShape(s);
      CutShape(d, n);
      assert Slugify(s) == d[..n];
    } else {
      assert Slugify(s) == "slug";
      FallbackShape();
    }
  }

  lemma FallbackShape()
    ensures WordsOrDashes("slug") && IsLowered("slug") && SingleDashes("slug")
  {
  }

  /** Preparing a lowered text with no white space at its ends changes
      nothing. */
  lemma PrepareOfBare(r: string)
    requires IsLowered(r)
    requires r != [] ==> !IsSpace(r[0]) && !IsSpace(r[|r| - 1])
    ensures Prepare(Some(r)) == r
  {
    if r != [] {
      StripOfBare(r);
    }
    LowerOfLowered(r);
  }

  /** Word characters and single dashes pass the three substitutions
      unchanged. */
  lemma DashedFixed(r: string)
    requires WordsOrDashes(r) && SingleDashes(r)
    ensures SqueezeDashes(SqueezeSpaces(DropPunctuation(r), '-')) == r
  {
    DropPunctuationKeeps(r);
    SqueezeFixed(r, '-');
    SqueezeDashesFixed(r);
  }

  /** A text shaped like a slug is its own slug. */
  lemma SlugOfSlug(r: string)
    requires r != "" && |r| <= SlugMax && WordsOrDashes(r) && IsLowered(r) && SingleDashes(r)
    ensures Slugify(Some(r)) == r
  {
    PrepareOfBare(r);
    DashedFixed(r);
    assert SlugBody(Some(r)) == r;
  }

  /** A slug is its own slug. */
  lemma SlugifyIdempotent(s: Option<string>)
    ensures Slugify(Some(Slugify(s))) == Slugify(s)
  {
    SlugifyShape(s);
    SlugOfSlug(Slugify(s));
  }

  /** `normalize`: stripped, lowered, and every run of white space turned
      into one space. */
  function Normalize(s: Option<string>): string
  {
    SqueezeSpaces(Prepare(s), ' ')
  }

  /** A text already normalised: no white space at either end, no white
      space but single spaces, and no upper-case letter. */
  predicate IsNormal(r: string)
  {
    (r != [] ==> !IsSpace(r[0]) && !IsSpace(r[|r| - 1]))
    && (forall i :: 0 <= i < |r| && IsSpace(r[i]) ==> r[i] == ' ')
    && (forall i :: 0 <= i < |r| - 1 ==> !(r[i] == ' ' && r[i + 1] == ' '))
    && IsLowered(r)
  }

  /** Squeezing a lowered text with no white space at its ends gives a
      normal text. */
  lemma SpacedShape(p: string)
    requires IsLowered(p)
    requires p != [] ==> !IsSpace(p[0]) && !IsSpace(p[|p| - 1])
    ensures IsNormal(SqueezeSpaces(p, ' '))
  {
    SqueezeLeavesOnlyD(p, ' ');
    SqueezeLowered(p, ' ');
    SqueezeNoDouble(p, ' ');
    if p != [] {
      SqueezeStart(p, ' ');
      SqueezeKeepsLast(p, ' ');
    }
  }

  /** A normalised text has no white space at either end, no white space
      but single spaces, and no upper-case letter. */
  lemma NormalizeShape(s: Option<string>)
    ensures IsNormal(Normalize(s))
  {
    SpacedShape(Prepare(s));
  }

  /** A normal text is its own normalisation. */
  lemma NormalOfNormal(r: string)
    requires IsNormal(r)
    ensures Normalize(Some(r)) == r
  {
    PrepareOfBare(r);
    SqueezeFixed(r, ' ');
  }

  /** A normalised text is its own normalisation. */
  lemma NormalizeIdempotent(s: Option<string>)
    ensures Normalize(Some(Normalize(s))) == Normalize(s)
  {
    NormalizeShape(s);
    NormalOfNormal(Normalize(s));
  }

  // ---------------------------------------------------------------------
  // unique_hash

  /** A part as `unique_hash` writes it: a missing or empty part is "". */
  function PartText(p: Option<string>): string
  {
    if p.Some? then p.value else ""
  }

  function PartTexts(parts: seq<Option<string>>): (r: seq<string>)
    ensures |r| == |parts|
  {
    seq(|parts|, i requires 0 <= i < |parts| => PartText(parts[i]))
  }

  /** The text whose sha256 `unique_hash` returns: the parts joined with
      "|". */
  function HashText(parts: seq<Option<string>>): string
  {
    Join("|", PartTexts(parts))
  }

  /** The position of the first "|" of `s`, or |s| when there is none. */
  function BarAt(s: string): (r: nat)
    ensures r <= |s|
  {
    if s == [] || s[0] == '|' then 0 else 1 + BarAt(s[1..])
  }

  lemma {:induction false} BarAtJoin(a: string, b: string)
    requires '|' !in a
    ensures BarAt(a + "|" + b) == |a|
  {
    if a != [] {
      assert (a + "|" + b)[1..] == a[1..] + "|" + b;
      BarAtJoin(a[1..], b);
    }
  }

  /** Two texts without "|" joined to the same text are the same pair. */
  lemma SplitAtBar(a: string, b: string, c: string, d: string)
    requires '|' !in a && '|' !in c
    requires a + "|" + b == c + "|" + d
    ensures a == c && b == d
  {
    var s := a + "|" + b;
    BarAtJoin(a, b);
    BarAtJoin(c, d);
    assert a == s[..|a|] && c == s[..|c|];
    assert b == s[|a| + 1..] && d == s[|c| + 1..];
  }

  lemma {:induction false} JoinInjective(xs: seq<string>, ys: seq<string>)
    requires |xs| == |ys|
    requires forall i :: 0 <= i < |xs| ==> '|' !in xs[i]
    requires forall i :: 0 <= i < |ys| ==> '|' !in ys[i]
    requires Join("|", xs) == Join("|", ys)
    ensures xs == ys
  {
    if |xs| > 1 {
      SplitAtBar(xs[0], Join("|", xs[1..]), ys[0], Join("|", ys[1..]));
      JoinInjective(xs[1..], ys[1..]);
      assert xs == [xs[0]] + xs[1..] && ys == [ys[0]] + ys[1..];
    }
  }

  /** As long as no part contains "|", two lists of the same length hash
      the same text exactly when they agree part by part, a missing part
      agreeing with an empty one. */
  lemma HashTextSeparates(a: seq<Option<string>>, b: seq<Option<string>>)
    requires |a| == |b|
    requires forall i :: 0 <= i < |a| ==> '|' !in PartText(a[i])
    requires forall i :: 0 <= i < |b| ==> '|' !in PartText(b[i])
    ensures HashText(a) == HashText(b) <==> forall i :: 0 <= i < |a| ==> PartText(a[i]) == PartText(b[i])
  {
    if HashText(a) == HashText(b) {
      JoinInjective(PartTexts(a), PartTexts(b));
      assert forall i :: 0 <= i < |a| ==> PartTexts(a)[i] == PartText(a[i]);
    }
    if forall i :: 0 <= i < |a| ==> PartText(a[i]) == PartText(b[i]) {
      assert PartTexts(a) == PartTexts(b);
    }
  }

  /** A "|" inside a part lets two different lists share a text. */
  lemma BarInPartCollides()
    ensures HashText([Some("a|b"), Some("c")]) == HashText([Some("a"), Some("b|c")])
  {
    assert PartTexts([Some("a|b"), Some("c")]) == ["a|b", "c"];
    assert PartTexts([Some("a"), Some("b|c")]) == ["a", "b|c"];
    assert Join("|", ["c"]) == "c" && Join("|", ["b|c"]) == "b|c";
  }

  // ---------------------------------------------------------------------
  // Completing existing rows

  /** The event fields `create_event` looks at; a NULL text is "". */
  datatype SeedEvent = SeedEvent(name: string, normName: string, hash: string)

  /** `create_event` on an event that exists: a missing hash and a missing
      normalised name are filled in; the second component says whether
      the event is saved. */
  function CompleteEvent(e: SeedEvent, hash: string, norm: string): (r: (SeedEvent, bool))
    ensures r.0.name == e.name
    ensures r.0.hash == (if e.hash == "" then hash else e.hash)
    ensures r.0.normName == (if e.normName == "" then norm else e.normName)
    ensures r.1 <==> e.hash == "" || e.normName == ""
  {
    var e1 := if e.hash == "" then e.(hash := hash) else e;
    var e2 := if e1.normName == "" then e1.(normName := norm) else e1;
    (e2, e.hash == "" || e.normName == "")
  }

  /** A completed event needs nothing more when the filled-in values are
      themselves non-empty. */
  lemma CompleteEventOnce(e: SeedEvent, hash: string, norm: string, hash2: string, norm2: string)
    requires hash != "" && norm != ""
    ensures var c := CompleteEvent(e, hash, norm).0;
            CompleteEvent(c, hash2, norm2) == (c, false)
  {
  }

  datatype ListingKey = ListingKey(seller: nat, performance: nat, seatCategory: string, section: string,
                                   row: string, seatFrom: int, seatTo: int)

  datatype Listing = Listing(qty: nat, priceEach: int, currency: string, deliveryMethod: string,
                             status: string, notes: string, isTop: bool)

  /** `mk_listing` given the stored row, if any: a new listing takes the
      defaults; an existing one keeps all its fields but `is_top`, which is
      written (and the row saved) only when it differs. */
  function UpsertListing(prev: Option<Listing>, qty: nat, price: int, deliveryMethod: string, top: bool): (r: (Listing, bool))
    ensures r.0.isTop == top
    ensures prev.Some? ==> r.0 == prev.value.(isTop := top)
    ensures r.1 <==> prev.Some? && prev.value.isTop != top
  {
    match prev
    case None => (Listing(qty, price, "EUR", deliveryMethod, "ACTIVE", "Mock demo", top), false)
    case Some(l) => if l.isTop != top then (l.(isTop := top), true) else (l, false)
  }

  /** Seeding a listing again with the same flag writes nothing. */
  lemma ReseedSavesNothing(prev: Option<Listing>, qty: nat, price: int, m: string, top: bool, qty2: nat, price2: int, m2: string)
    ensures var l := UpsertListing(prev, qty, price, m, top).0;
            UpsertListing(Some(l), qty2, price2, m2, top) == (l, false)
  {
  }

  /** The listing and event tables the seeder completes. */
  class SeedStore {
    var events: map<string, SeedEvent>
    var listings: map<ListingKey, Listing>

    constructor (events: map<string, SeedEvent>, listings: map<ListingKey, Listing>)
      ensures this.events == events && this.listings == listings
    {
      this.events, this.listings := events, listings;
    }

    /** `create_event`: the event is looked up by the slug of its name;
        a new one is stored with its normalised name and the hash of the
        normalised name and the artist and category ids. */
    method CreateEvent(name: string, artistId: string, categoryId: string) returns (ev: SeedEvent, saved: bool)
      modifies this
      ensures var slug := Slugify(Some(name));
              var norm := Normalize(Some(name));
              var hash := HashText([Some(norm), Some(artistId), Some(categoryId)]);
              events == old(events)[slug := ev]
              && (slug !in old(events) ==> ev == SeedEvent(name, norm, hash) && !saved)
              && (slug in old(events) ==> (ev, saved) == CompleteEvent(old(events)[slug], hash, norm))
      ensures listings == old(listings)
    {
      var slug := Slugify(Some(name));
      var norm := Normalize(Some(name));
      var hash := HashText([Some(norm), Some(artistId), Some(categoryId)]);
      if slug in events {
        ev, saved := CompleteEvent(events[slug], hash, norm).0, CompleteEvent(events[slug], hash, norm).1;
      } else {
        ev, saved := SeedEvent(name, norm, hash), false;
      }
      events := events[slug := ev];
    }

    /** `mk_listing`. */
    method MkListing(k: ListingKey, qty: nat, price: int, deliveryMethod: string, top: bool)
      returns (l: Listing, saved: bool)
      modifies this
      ensures (l, saved) == UpsertListing(if k in old(listings) then Some(old(listings)[k]) else None,
                                          qty, price, deliveryMethod, top)
      ensures listings == old(listings)[k := l]
      ensures events == old(events)
    {
      var u := UpsertListing(if k in listings then Some(listings[k]) else None, qty, price, deliveryMethod, top);
      l, saved := u.0, u.1;
      listings := listings[k := l];
    }
  }
}
