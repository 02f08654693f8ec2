/** The background parsing of an uploaded ticket PDF: the names and prices
    read from its text, the codes decoded from its pages, the sub-items
    (one per code, or one fallback) and the bookkeeping on the ticket and
    the upload. The text matches, page decoding and hashing are given. */
module Tasks {
  import opened Wrappers
  import opened Text
  import Http

  // ---------------------------------------------------------------------
  // Names and prices

  const NameWidth := 120
  const ListWidth := 10

  /** The names collected from the name matches as the loop is written:
      a stripped, non-empty match not in the list is appended cut to 120
      characters; the test is made on the uncut match. */
  function NamesAsWritten(matches: seq<string>): (out: seq<string>)
    ensures forall i :: 0 <= i < |out| ==> out[i] != "" && |out[i]| <= NameWidth
  {
    if matches == [] then []
    else
      var out := NamesAsWritten(matches[..|matches| - 1]);
      var n := Strip(matches[|matches| - 1]);
      if n != "" && n !in out then out + [Http.Truncate(n, NameWidth)] else out
  }

  /** The loop of `_try_extract_text_names_prices` over the name matches. */
  method CollectNamesAsWritten(matches: seq<string>) returns (out: seq<string>)
    ensures out == NamesAsWritten(matches)
  {
    out := [];
    var i := 0;
    while i < |matches|
      invariant 0 <= i <= |matches|
      invariant out == NamesAsWritten(matches[..i])
    {
      assert matches[..i + 1][..i] == matches[..i];
      var n := Strip(matches[i]);
      if n != "" && n !in out {
        out := out + [Http.Truncate(n, NameWidth)];
      }
      i := i + 1;
    }
    assert matches[..i] == matches;
  }

  /** As written, a name longer than 120 characters found twice is listed
      twice: the cut copy in the list never equals the uncut match. */
  lemma LongNameListedTwice(n: string)
    requires |n| > NameWidth && !IsSpace(n[0]) && !IsSpace(n[|n| - 1])
    ensures NamesAsWritten([n, n]) == [n[..NameWidth], n[..NameWidth]]
  {
    StripOfBare(n);
    assert [n, n][..1] == [n];
    assert [n][..0] == [];
    assert NamesAsWritten([n]) == [n[..NameWidth]];
    assert n != n[..NameWidth];
    assert n !in [n[..NameWidth]];
  }

  /** The names as intended: a name is appended unless its stored (cut)
      form is already in the list. */
  function Names(matches: seq<string>): (out: seq<string>)
    ensures NoDuplicates(out)
    ensures forall i :: 0 <= i < |out| ==> out[i] != "" && |out[i]| <= NameWidth
  {
    if matches == [] then []
    else
      var out := Names(matches[..|matches| - 1]);
      var n := Strip(matches[|matches| - 1]);
      var cut := Http.Truncate(n, NameWidth);
      if n != "" && cut !in out then out + [cut] else out
  }

  predicate NoDuplicates<T(==)>(xs: seq<T>) { forall i, j :: 0 <= i < j < |xs| ==> xs[i] != xs[j] }

  /** Every match is at most 120 characters once stripped. */
  predicate ShortMatches(matches: seq<string>)
  {
    forall i :: 0 <= i < |matches| ==> |Strip(matches[i])| <= NameWidth
  }

  /** When no stripped match is longer than 120 characters, the loop as
      written lists the names as intended, so without repeats. */
  lemma {:induction false} AsWrittenIsIntendedForShortNames(matches: seq<string>)
    requires ShortMatches(matches)
    ensures NamesAsWritten(matches) == Names(matches)
  {
    if matches != [] {
      var init := matches[..|matches| - 1];
      assert ShortMatches(init) by {
        forall i | 0 <= i < |init| ensures |Strip(init[i])| <= NameWidth {
          assert init[i] == matches[i];
        }
      }
      AsWrittenIsIntendedForShortNames(init);
      var n := Strip(matches[|matches| - 1]);
      assert Http.Truncate(n, NameWidth) == n;
    }
  }

  /** Every non-blank match is listed in its cut form. */
  lemma {:induction false} NamesListMatches(matches: seq<string>)
    ensures forall m :: m in matches && Strip(m) != "" ==> Http.Truncate(Strip(m), NameWidth) in Names(matches)
  {
    if matches != [] {
      var init := matches[..|matches| - 1];
      var last := matches[|matches| - 1];
      NamesListMatches(init);
      NamesGrow(matches);
      forall m | m in matches && Strip(m) != ""
        ensures Http.Truncate(Strip(m), NameWidth) in Names(matches)
      {
        if m != last {
          assert m in init by { assert matches == init + [last]; }
          assert Http.Truncate(Strip(m), NameWidth) in Names(init);
        }
      }
    }
  }

  /** One more match keeps the names there were and lists its own. */
  lemma NamesGrow(matches: seq<string>)
    requires matches != []
    ensures var n := Strip(matches[|matches| - 1]);
      (forall x :: x in Names(matches[..|matches| - 1]) ==> x in Names(matches))
      && (n != "" ==> Http.Truncate(n, NameWidth) in Names(matches))
  {
  }

  /** Every name listed is the cut form of a match. */
  lemma {:induction false} NamesFromMatches(matches: seq<string>)
    ensures forall n :: n in Names(matches) ==> exists m :: m in matches && n == Http.Truncate(Strip(m), NameWidth)
  {
    if matches != [] {
      var init := matches[..|matches| - 1];
      var last := matches[|matches| - 1];
      NamesFromMatches(init);
      NamesOnlyAdd(matches);
      forall n | n in Names(matches)
        ensures exists m :: m in matches && n == Http.Truncate(Strip(m), NameWidth)
      {
        if n in Names(init) {
          var m :| m in init && n == Http.Truncate(Strip(m), NameWidth);
          assert m in matches;
        } else {
          assert last in matches;
        }
      }
    }
  }

  /** One more match adds at most its own cut form. */
  lemma NamesOnlyAdd(matches: seq<string>)
    requires matches != []
    ensures forall x :: x in Names(matches) ==>
              x in Names(matches[..|matches| - 1]) || x == Http.Truncate(Strip(matches[|matches| - 1]), NameWidth)
  {
  }

  /** `float(raw.replace(",", "."))` rounded to cents, for the price
      matches `\d{1,4}[.,]\d{2}`; anything else gives `None`. */
  function PriceCents(raw: string): (r: Option<nat>)
    ensures r.Some? ==> 4 <= |raw| <= 7 && (raw[|raw| - 3] == '.' || raw[|raw| - 3] == ',')
  {
    var k := |raw| - 3;
    if |raw| < 4 || |raw| > 7 || !(raw[k] == '.' || raw[k] == ',') || !IsDigits(raw[..k]) || !IsDigits(raw[k + 1..]) then None
    else Some(DigitsValue(raw[..k]) * 100 + DigitsValue(raw[k + 1..]))
  }

  /** A price written as euros, a point and two cent digits. */
  function PriceText(cents: nat): string
  {
    NatToString(cents / 100) + "." + [DigitChar(cents % 100 / 10), DigitChar(cents % 10)]
  }

  /** Reading back a written price gives the price, for up to four euro
      digits. */
  lemma PriceRoundTrip(cents: nat)
    requires cents < 1000000
    ensures PriceCents(PriceText(cents)) == Some(cents)
  {
    var e := NatToString(cents / 100);
    NatToStringLength(cents / 100);
    NatToStringRoundTrip(cents / 100);
    var tail := [DigitChar(cents % 100 / 10), DigitChar(cents % 10)];
    TwoDigits(cents % 100 / 10, cents % 10);
    PriceOfParts(e, tail);
    assert PriceText(cents) == e + "." + tail;
    assert cents / 100 * 100 + (cents % 100 / 10) * 10 + cents % 10 == cents;
  }

  /** Two digit characters read back as their number. */
  lemma TwoDigits(a: nat, b: nat)
    requires a < 10 && b < 10
    ensures IsDigits([DigitChar(a), DigitChar(b)]) && DigitsValue([DigitChar(a), DigitChar(b)]) == a * 10 + b
  {
    var t := [DigitChar(a), DigitChar(b)];
    assert t[..1] == [DigitChar(a)];
    assert [DigitChar(a)][..0] == [];
    assert DigitsValue([DigitChar(a)]) == DigitOf(DigitChar(a)) == a;
    assert DigitOf(DigitChar(b)) == b;
  }

  /** Euro digits, a point and two cent digits read as a price. */
  lemma PriceOfParts(e: string, tail: string)
    requires IsDigits(e) && |e| <= 4 && IsDigits(tail) && |tail| == 2
    ensures PriceCents(e + "." + tail) == Some(DigitsValue(e) * 100 + DigitsValue(tail))
  {
    var t := e + "." + tail;
    var k := |t| - 3;
    assert k == |e| && 4 <= |t| <= 7;
    assert t[k] == '.';
    assert t[..k] == e;
    assert t[k + 1..] == tail;
    assert IsDigits(t[..k]) && IsDigits(t[k + 1..]);
  }

  lemma NatToStringLength(n: nat)
    requires n < 10000
    ensures |NatToString(n)| <= 4
  {
    NatToStringStep(n);
    NatToStringStep(n / 10);
    NatToStringStep(n / 10 / 10);
    NatToStringStep(n / 10 / 10 / 10);
  }

  lemma NatToStringStep(n: nat)
    ensures |NatToString(n)| == if n < 10 then 1 else |NatToString(n / 10)| + 1
  {
  }

  /** The prices collected from the price matches: every match, in order. */
  function Prices(matches: seq<string>): (out: seq<nat>)
    ensures |out| <= |matches|
    ensures forall x :: x in out ==> exists m :: m in matches && PriceCents(m) == Some(x)
    ensures forall m :: m in matches && PriceCents(m).Some? ==> PriceCents(m).value in out
  {
    if matches == [] then []
    else
      var out := Prices(matches[..|matches| - 1]);
      var p := PriceCents(matches[|matches| - 1]);
      if p.Some? then out + [p.value] else out
  }

  /** The prices of two runs of matches are those of the first, then those
      of the second: each match contributes its own price, in order. */
  lemma {:induction false} PricesConcat(a: seq<string>, b: seq<string>)
    ensures Prices(a + b) == Prices(a) + Prices(b)
    decreases |b|
  {
    if b == [] {
      assert a + b == a;
    } else {
      var init := b[..|b| - 1];
      assert (a + b)[..|a + b| - 1] == a + init;
      assert (a + b)[|a + b| - 1] == b[|b| - 1];
      PricesConcat(a, init);
    }
  }

  /** One match gives its price, or nothing when it does not read as one. */
  lemma PricesOne(m: string)
    ensures Prices([m]) == if PriceCents(m).Some? then [PriceCents(m).value] else []
  {
    assert [m][..0] == [];
  }

  /** The names and prices returned: the first ten of each list, names as
      the loop is written. */
  function Extracted(nameMatches: seq<string>, priceMatches: seq<string>): (r: (seq<string>, seq<nat>))
    ensures r.0 <= NamesAsWritten(nameMatches) && |r.0| == Min(|NamesAsWritten(nameMatches)|, ListWidth)
    ensures r.1 <= Prices(priceMatches) && |r.1| == Min(|Prices(priceMatches)|, ListWidth)
  {
    (Take(NamesAsWritten(nameMatches), ListWidth), Take(Prices(priceMatches), ListWidth))
  }

  function Min(a: int, b: int): int { if a < b then a else b }

  /** The names and prices as intended: the names without repeats. */
  function ExtractedIntended(nameMatches: seq<string>, priceMatches: seq<string>): (r: (seq<string>, seq<nat>))
    ensures r.0 <= Names(nameMatches) && |r.0| == Min(|Names(nameMatches)|, ListWidth) && NoDuplicates(r.0)
    ensures r.1 == Extracted(nameMatches, priceMatches).1
  {
    var names := Take(Names(nameMatches), ListWidth);
    assert forall i :: 0 <= i < |names| ==> names[i] == Names(nameMatches)[i];
    (names, Take(Prices(priceMatches), ListWidth))
  }

  /** Commas and points read the same. */
  lemma CommaIsPoint(a: string, b: string)
    requires |b| == 2
    ensures PriceCents(a + "," + b) == PriceCents(a + "." + b)
  {
    var x, y := a + "," + b, a + "." + b;
    assert x[..|x| - 3] == a == y[..|y| - 3];
    assert x[|x| - 2..] == b == y[|y| - 2..];
  }

  // ---------------------------------------------------------------------
  // Decoding codes

  /** What the barcode reader returns for one symbol: its type (possibly
      empty) and its data decoded from UTF-8. */
  datatype Symbol = Symbol(kind: string, data: string)

  /** A decoded code: page (from 1), type and raw text. */
  datatype Code = Code(page: nat, kind: string, raw: string)

  const Rotations: seq<nat> := [0, 90, 180, 270]

  /** The reader on one page turned by some rotation: the symbols found,
      or `None` when it raises. */
  type Reader = (nat, nat) -> Option<seq<Symbol>>

  /** The codes from the symbols of one page: those with data, the type
      defaulting to "CODE". */
  function PageCodes(page: nat, syms: seq<Symbol>): (r: seq<Code>)
    ensures |r| <= |syms|
    ensures forall c :: c in r ==> c.page == page && c.raw != "" && c.kind != ""
  {
    if syms == [] then []
    else
      var init := PageCodes(page, syms[..|syms| - 1]);
      var s := syms[|syms| - 1];
      if s.data != "" then init + [Code(page, if s.kind == "" then "CODE" else s.kind, s.data)] else init
  }

  /** Trying rotations from the `k`-th: the symbols of the first rotation
      that reads anything, no symbols when none does, `None` when the
      reader raises first. */
  function FirstRead(read: Reader, page: nat, k: nat): (r: Option<seq<Symbol>>)
    requires k <= |Rotations|
    decreases |Rotations| - k
  {
    if k == |Rotations| then Some([])
    else
      var syms := read(page, Rotations[k]);
      if syms.None? then None
      else if syms.value != [] then syms
      else FirstRead(read, page, k + 1)
  }

  /** Rotations stop at the first that reads anything: every earlier one
      read nothing. */
  lemma {:induction false} FirstReadIsFirst(read: Reader, page: nat, k: nat)
    requires k <= |Rotations|
    requires FirstRead(read, page, k).Some? && FirstRead(read, page, k).value != []
    ensures exists j :: k <= j < |Rotations| && read(page, Rotations[j]) == FirstRead(read, page, k)
              && forall i :: k <= i < j ==> read(page, Rotations[i]) == Some([])
    decreases |Rotations| - k
  {
    var syms := read(page, Rotations[k]);
    if syms.value == [] {
      FirstReadIsFirst(read, page, k + 1);
      var j :| k + 1 <= j < |Rotations| && read(page, Rotations[j]) == FirstRead(read, page, k + 1)
                && forall i :: k + 1 <= i < j ==> read(page, Rotations[i]) == Some([]);
      assert forall i :: k <= i < j ==> read(page, Rotations[i]) == Some([]);
    } else {
      assert read(page, Rotations[k]) == FirstRead(read, page, k);
    }
  }

  /** The scan of pages `1..n`: the codes found and whether the reader
      raised, which ends the scan with the codes found so far. */
  function ScanPages(read: Reader, n: nat): (r: (seq<Code>, bool))
    ensures forall c :: c in r.0 ==> 1 <= c.page <= n && c.raw != ""
  {
    if n == 0 then ([], false)
    else
      var (before, raised) := ScanPages(read, n - 1);
      if raised then (before, true)
      else
        var syms := FirstRead(read, n, 0);
        if syms.None? then (before, true) else (before + PageCodes(n, syms.value), false)
  }

  /** `_scan_qr_barcodes`: page by page, rotation by rotation until one
      reads something; an exception ends the scan keeping what was found. */
  method ScanCodes(pages: Option<nat>, read: Reader) returns (items: seq<Code>)
    ensures items == (if pages.None? then [] else ScanPages(read, pages.value).0)
  {
    items := [];
    if pages.None? {
      return;
    }
    var idx := 1;
    var raised := false;
    while idx <= pages.value && !raised
      invariant 1 <= idx <= pages.value + 1
      invariant (items, raised) == ScanPages(read, idx - 1)
      decreases pages.value + 1 - idx, if raised then 0 else 1
    {
      var r := 0;
      var found := false;
      while r < |Rotations| && !found && !raised
        invariant 0 <= r <= |Rotations|
        invariant !found && !raised ==> FirstRead(read, idx, 0) == FirstRead(read, idx, r)
        invariant raised ==> FirstRead(read, idx, 0).None? && items == ScanPages(read, idx - 1).0
        invariant found ==> FirstRead(read, idx, 0).Some?
                            && items == ScanPages(read, idx - 1).0 + PageCodes(idx, FirstRead(read, idx, 0).value)
        invariant !found && !raised ==> items == ScanPages(read, idx - 1).0
        decreases |Rotations| - r, if found || raised then 0 else 1
      {
        var dec := read(idx, Rotations[r]);
        if dec.None? {
          raised := true;
        } else if dec.value != [] {
          items := items + PageCodes(idx, dec.value);
          found := true;
        } else {
          r := r + 1;
        }
      }
      if !found && !raised {
        assert FirstRead(read, idx, 0) == Some([]);
        assert PageCodes(idx, []) == [];
        assert items == items + PageCodes(idx, []);
      }
      idx := idx + 1;
    }
    if raised {
      RaisedStaysRaised(read, idx - 1, pages.value);
    }
  }

  /** Once the reader raised, later pages add nothing. */
  lemma {:induction false} RaisedStaysRaised(read: Reader, m: nat, n: nat)
    requires m <= n && ScanPages(read, m).1
    ensures ScanPages(read, n) == ScanPages(read, m)
    decreases n - m
  {
    if m < n {
      RaisedStaysRaised(read, m, n - 1);
    }
  }

  /** A page that reads at the first rotation takes its codes from that
      rotation alone, whatever the others would read. */
  lemma FirstRotationWins(read: Reader, page: nat, syms: seq<Symbol>)
    requires read(page, 0) == Some(syms) && syms != []
    ensures FirstRead(read, page, 0) == Some(syms)
  {
  }

  // ---------------------------------------------------------------------
  // Parsing an upload

  /** A `TicketSubitem`: its ticket, holder and price, page, code type and
      raw code. */
  datatype Subitem = Subitem(ticket: nat, fullName: Option<string>, price: Option<nat>, page: Option<nat>,
                             kind: string, raw: string)

  datatype UploadStatus = Ready | Failed | Waiting(name: string)

  /** How the Celery task ends: done, or the exception it re-raises. */
  datatype TaskEnd = Done | Reraised(message: string)

  const MissingFile := "File PDF non presente"
  const NothingFound := "Nessun biglietto identificato"

  function FirstOr<T>(xs: Option<seq<T>>): Option<T>
  {
    if xs.Some? && xs.value != [] then Some(xs.value[0]) else None
  }

  /** A list stored as a JSON field: an empty one is stored as null. */
  function OrNull<T>(xs: seq<T>): Option<seq<T>> { if xs == [] then None else Some(xs) }

  /** Get-or-create of the sub-item of one code, keyed by the hash of the
      stripped code; an existing key is left as it is. */
  function AddCode(acc: (map<string, Subitem>, nat), c: Code, ticket: nat, name: Option<string>,
                   price: Option<nat>, hash: string -> string): (map<string, Subitem>, nat)
  {
    var raw := Strip(c.raw);
    var h := hash(raw);
    if h in acc.0 then acc
    else (acc.0[h := Subitem(ticket, name, price, Some(c.page), c.kind, raw)], acc.1 + 1)
  }

  function AddCodes(subs: map<string, Subitem>, codes: seq<Code>, ticket: nat, name: Option<string>,
                    price: Option<nat>, hash: string -> string): (map<string, Subitem>, nat)
  {
    if codes == [] then (subs, 0)
    else AddCode(AddCodes(subs, codes[..|codes| - 1], ticket, name, price, hash), codes[|codes| - 1], ticket, name, price, hash)
  }

  /** What keeping every existing sub-item, owning the new ones and
      counting the new keys means for a map grown from `subs`. */
  predicate Grown(subs: map<string, Subitem>, acc: (map<string, Subitem>, nat), ticket: nat)
  {
    subs.Keys <= acc.0.Keys
    && (forall h :: h in subs ==> acc.0[h] == subs[h])
    && (forall h :: h in acc.0 && h !in subs ==> acc.0[h].ticket == ticket)
    && (acc.1 == 0 <==> acc.0.Keys == subs.Keys)
  }

  lemma AddCodeGrows(subs: map<string, Subitem>, acc: (map<string, Subitem>, nat), c: Code, ticket: nat,
                     name: Option<string>, price: Option<nat>, hash: string -> string)
    requires Grown(subs, acc, ticket)
    ensures Grown(subs, AddCode(acc, c, ticket, name, price, hash), ticket)
  {
    var r := AddCode(acc, c, ticket, name, price, hash);
    if r != acc {
      assert hash(Strip(c.raw)) in r.0.Keys - subs.Keys;
    }
  }

  /** Get-or-create keeps every existing sub-item, and whatever it adds
      belongs to the ticket; it counts a creation exactly when the keys
      grow. */
  lemma {:induction false} AddCodesEffect(subs: map<string, Subitem>, codes: seq<Code>, ticket: nat, name: Option<string>,
                                          price: Option<nat>, hash: string -> string)
    ensures Grown(subs, AddCodes(subs, codes, ticket, name, price, hash), ticket)
  {
    if codes != [] {
      var init := codes[..|codes| - 1];
      AddCodesEffect(subs, init, ticket, name, price, hash);
      AddCodeGrows(subs, AddCodes(subs, init, ticket, name, price, hash), codes[|codes| - 1], ticket, name, price, hash);
    }
  }

  lemma AddCodeKeeps(acc: (map<string, Subitem>, nat), c: Code, ticket: nat, name: Option<string>,
                     price: Option<nat>, hash: string -> string)
    ensures acc.0.Keys <= AddCode(acc, c, ticket, name, price, hash).0.Keys
    ensures hash(Strip(c.raw)) in AddCode(acc, c, ticket, name, price, hash).0
  {
  }

  /** Every code ends up with a sub-item under its hash. */
  lemma {:induction false} AddCodesCovers(subs: map<string, Subitem>, codes: seq<Code>, ticket: nat, name: Option<string>,
                                          price: Option<nat>, hash: string -> string)
    ensures forall c :: c in codes ==> hash(Strip(c.raw)) in AddCodes(subs, codes, ticket, name, price, hash).0
  {
    if codes != [] {
      var init := codes[..|codes| - 1];
      var last := codes[|codes| - 1];
      AddCodesCovers(subs, init, ticket, name, price, hash);
      var before := AddCodes(subs, init, ticket, name, price, hash);
      AddCodeKeeps(before, last, ticket, name, price, hash);
      forall c | c in codes
        ensures hash(Strip(c.raw)) in AddCodes(subs, codes, ticket, name, price, hash).0
      {
        if c != last {
          assert c in init by { assert codes == init + [last]; }
        }
      }
    }
  }

  /** The loop creating the sub-items of the codes. */
  method AddCodesLoop(subs: map<string, Subitem>, codes: seq<Code>, ticket: nat, name: Option<string>,
                      price: Option<nat>, hash: string -> string) returns (after: map<string, Subitem>, created: nat)
    ensures (after, created) == AddCodes(subs, codes, ticket, name, price, hash)
  {
    after, created := subs, 0;
    var i := 0;
    while i < |codes|
      invariant 0 <= i <= |codes|
      invariant (after, created) == AddCodes(subs, codes[..i], ticket, name, price, hash)
    {
      assert codes[..i + 1][..i] == codes[..i];
      var raw := Strip(codes[i].raw);
      var h := hash(raw);
      if h !in after {
        after := after[h := Subitem(ticket, name, price, Some(codes[i].page), codes[i].kind, raw)];
        created := created + 1;
      }
      assert (after, created) == AddCode(AddCodes(subs, codes[..i], ticket, name, price, hash), codes[i], ticket, name, price, hash);
      i := i + 1;
    }
    assert codes[..i] == codes;
  }

  /** With no sub-item created, get-or-create of the fallback sub-item
      keyed by the hash of the file hash and "_0"; its code is the seal,
      or else the first 16 characters of the file hash. */
  function WithFallback(subs: map<string, Subitem>, created: nat, fileHash: string, ticket: nat, name: Option<string>,
                        price: Option<nat>, pages: nat, seal: Option<string>, hash: string -> string): map<string, Subitem>
  {
    var h := hash(fileHash + "_0");
    if created != 0 || h in subs then subs
    else
      var code := if seal.Some? && seal.value != "" then seal.value else Http.Truncate(fileHash, 16);
      subs[h := Subitem(ticket, name, price, if pages != 0 then Some(1) else None, "FALLBACK", code)]
  }

  /** All sub-items after parsing. */
  function Parsed(subs: map<string, Subitem>, codes: seq<Code>, fileHash: string, ticket: nat, name: Option<string>,
                  price: Option<nat>, pages: nat, seal: Option<string>, hash: string -> string): map<string, Subitem>
  {
    var (after, created) := AddCodes(subs, codes, ticket, name, price, hash);
    WithFallback(after, created, fileHash, ticket, name, price, pages, seal, hash)
  }

  /** The sub-items of one ticket. */
  function OwnedBy(subs: map<string, Subitem>, ticket: nat): set<string>
  {
    set h | h in subs && subs[h].ticket == ticket
  }

  /** Parsing keeps the sub-items there were, gives every code one, adds
      the fallback when no code made a new one, and whatever it adds
      belongs to the ticket, which then owns at least one sub-item. */
  lemma ParsedEffect(subs: map<string, Subitem>, codes: seq<Code>, fileHash: string, ticket: nat, name: Option<string>,
                     price: Option<nat>, pages: nat, seal: Option<string>, hash: string -> string)
    ensures var r := Parsed(subs, codes, fileHash, ticket, name, price, pages, seal, hash);
      (forall h :: h in subs ==> h in r && r[h] == subs[h])
      && (forall c :: c in codes ==> hash(Strip(c.raw)) in r)
      && (AddCodes(subs, codes, ticket, name, price, hash).0.Keys == subs.Keys ==> hash(fileHash + "_0") in r)
      && (r.Keys != subs.Keys ==> |OwnedBy(r, ticket)| > 0)
      && (hash(fileHash + "_0") !in subs ==> |OwnedBy(r, ticket)| > 0)
  {
    AddCodesEffect(subs, codes, ticket, name, price, hash);
    AddCodesCovers(subs, codes, ticket, name, price, hash);
    var r := Parsed(subs, codes, fileHash, ticket, name, price, pages, seal, hash);
    if r.Keys != subs.Keys {
      var h :| h in r && h !in subs;
      assert h in OwnedBy(r, ticket);
    }
  }

  /** The ticket's and its upload's fields the Celery task writes. */
  datatype JobState = JobState(hashFile: string, sealCode: Option<string>, pagesCount: nat,
                               names: Option<seq<string>>, prices: Option<seq<nat>>, ticketsFound: nat,
                               isValid: bool, subitems: map<string, Subitem>, status: UploadStatus,
                               foundCount: nat, selectableCount: nat, errorMessage: Option<string>)

  /** `parse_ticket_pdf` on the state `st` of ticket `ticket`. The file's
      bytes are `file` (`None` when the ticket has none), `fault` an
      exception raised while processing, `pages` what the PDF reader
      counts, `nameMatches`/`priceMatches` the text matches and `codes` the
      decoded codes. On an exception the transaction is rolled back, the
      upload alone records the error, cut to 500 characters, and the
      exception is raised again. */
  function ParseStep(st: JobState, ticket: nat, file: Option<string>, fault: Option<string>, pages: Option<nat>,
                     nameMatches: seq<string>, priceMatches: seq<string>, codes: seq<Code>,
                     hash: string -> string): (r: (JobState, TaskEnd))
    ensures r.1 == Done <==> file.Some? && fault.None?
    ensures r.0.sealCode == st.sealCode
  {
    if file.None? || fault.Some? then
      var msg := Http.Truncate(if file.None? then MissingFile else fault.value, 500);
      (st.(status := Failed, errorMessage := Some(msg)), Reraised(msg))
    else
      var hf := hash(file.value);
      var found := Extracted(nameMatches, priceMatches);
      var names, prices := OrNull(found.0), OrNull(found.1);
      var count := if pages.Some? then pages.value else 0;
      var parsed := Parsed(st.subitems, codes, hf, ticket, FirstOr(names), FirstOr(prices), count, st.sealCode, hash);
      var total := |OwnedBy(parsed, ticket)|;
      (JobState(if st.hashFile == "" then hf else st.hashFile, st.sealCode, count, names, prices, total, total > 0,
                parsed, if total > 0 then Ready else Failed, total, total,
                if total > 0 then None else Some(NothingFound)),
       Done)
  }

  /** A failed run re-raises the error, cut to 500 characters, and only
      the upload's status and message change. */
  lemma ParseFailureRecorded(st: JobState, ticket: nat, file: Option<string>, fault: Option<string>, pages: Option<nat>,
                             nameMatches: seq<string>, priceMatches: seq<string>, codes: seq<Code>, hash: string -> string)
    requires file.None? || fault.Some?
    ensures var (after, end) := ParseStep(st, ticket, file, fault, pages, nameMatches, priceMatches, codes, hash);
      end.Reraised? && |end.message| <= 500
      && Text.IsPrefix(end.message, if file.None? then MissingFile else fault.value)
      && after.status == Failed && after.errorMessage == Some(end.message)
      && after == st.(status := Failed, errorMessage := after.errorMessage)
  {
  }

  /** The names stored are null rather than empty, at most ten, each
      non-empty and of at most 120 characters, and distinct when no match
      is longer than that; the prices stored are null or one to ten. */
  lemma ExtractedShape(nameMatches: seq<string>, priceMatches: seq<string>)
    ensures var names := OrNull(Extracted(nameMatches, priceMatches).0);
      names.Some? ==> 0 < |names.value| <= ListWidth
                      && (forall i :: 0 <= i < |names.value| ==> names.value[i] != "" && |names.value[i]| <= NameWidth)
                      && (ShortMatches(nameMatches) ==> NoDuplicates(names.value))
    ensures var prices := OrNull(Extracted(nameMatches, priceMatches).1);
      prices.Some? ==> 0 < |prices.value| <= ListWidth
  {
    var found := Extracted(nameMatches, priceMatches).0;
    var all := NamesAsWritten(nameMatches);
    assert found == all[..|found|];
    assert forall i :: 0 <= i < |found| ==> found[i] == all[i];
    if ShortMatches(nameMatches) {
      AsWrittenIsIntendedForShortNames(nameMatches);
    }
  }

  /** A run that gets through keeps a file hash already set, stores the
      names and prices found, and keeps every sub-item there was while
      giving each code one. */
  lemma ParseSuccessRecorded(st: JobState, ticket: nat, file: Option<string>, fault: Option<string>, pages: Option<nat>,
                             nameMatches: seq<string>, priceMatches: seq<string>, codes: seq<Code>, hash: string -> string)
    requires file.Some? && fault.None?
    ensures var (after, end) := ParseStep(st, ticket, file, fault, pages, nameMatches, priceMatches, codes, hash);
      end == Done
      && (st.hashFile != "" ==> after.hashFile == st.hashFile)
      && (st.hashFile == "" ==> after.hashFile == hash(file.value))
      && after.names == OrNull(Extracted(nameMatches, priceMatches).0)
      && after.prices == OrNull(Extracted(nameMatches, priceMatches).1)
      && (forall h :: h in st.subitems ==> h in after.subitems && after.subitems[h] == st.subitems[h])
      && (forall c :: c in codes ==> hash(Strip(c.raw)) in after.subitems)
  {
    var found := Extracted(nameMatches, priceMatches);
    var count := if pages.Some? then pages.value else 0;
    ParsedEffect(st.subitems, codes, hash(file.value), ticket, FirstOr(OrNull(found.0)), FirstOr(OrNull(found.1)),
                 count, st.sealCode, hash);
  }

  /** After a run that gets through, the three counts are the number of the
      ticket's sub-items, and the upload is valid and ready exactly when
      there is one; otherwise it failed with "nothing found". */
  lemma ParseCounts(st: JobState, ticket: nat, file: Option<string>, fault: Option<string>, pages: Option<nat>,
                    nameMatches: seq<string>, priceMatches: seq<string>, codes: seq<Code>, hash: string -> string)
    requires file.Some? && fault.None?
    ensures var after := ParseStep(st, ticket, file, fault, pages, nameMatches, priceMatches, codes, hash).0;
      after.ticketsFound == |OwnedBy(after.subitems, ticket)|
      && after.foundCount == after.ticketsFound && after.selectableCount == after.ticketsFound
      && (after.isValid <==> after.ticketsFound > 0)
      && (after.status == Ready <==> after.ticketsFound > 0)
      && (after.status != Ready ==> after.status == Failed && after.errorMessage == Some(NothingFound))
      && (after.status == Ready ==> after.errorMessage.None?)
  {
  }

  /** A run on a file whose fallback sub-item does not exist yet leaves
      the upload ready: either a code or the fallback gives the ticket one.
      This covers the first run on a ticket with no sub-items. */
  lemma FirstParseReady(st: JobState, ticket: nat, file: Option<string>, pages: Option<nat>,
                        nameMatches: seq<string>, priceMatches: seq<string>, codes: seq<Code>, hash: string -> string)
    requires file.Some? && hash(hash(file.value) + "_0") !in st.subitems
    ensures ParseStep(st, ticket, file, None, pages, nameMatches, priceMatches, codes, hash).0.status == Ready
  {
    var found := Extracted(nameMatches, priceMatches);
    var count := if pages.Some? then pages.value else 0;
    ParsedEffect(st.subitems, codes, hash(file.value), ticket, FirstOr(OrNull(found.0)), FirstOr(OrNull(found.1)),
                 count, st.sealCode, hash);
  }

  /** The ticket and its upload while the Celery task runs. */
  class UploadJob {
    const ticket: nat
    /** The ticket's `hash_file`; empty when not set. */
    var hashFile: string
    var sealCode: Option<string>
    var pagesCount: nat
    var names: Option<seq<string>>
    var prices: Option<seq<nat>>
    var ticketsFound: nat
    var isValid: bool
    /** All sub-items, keyed by code hash. */
    var subitems: map<string, Subitem>
    var status: UploadStatus
    var foundCount: nat
    var selectableCount: nat
    var errorMessage: Option<string>

    constructor(ticket: nat, hashFile: string, sealCode: Option<string>, subitems: map<string, Subitem>, status: UploadStatus)
      ensures this.ticket == ticket
      ensures State() == JobState(hashFile, sealCode, 0, None, None, 0, false, subitems, status, 0, 0, None)
    {
      this.ticket := ticket;
      this.hashFile := hashFile;
      this.sealCode := sealCode;
      this.subitems := subitems;
      this.status := status;
      pagesCount := 0;
      names := None;
      prices := None;
      ticketsFound := 0;
      isValid := false;
      foundCount := 0;
      selectableCount := 0;
      errorMessage := None;
    }

    function State(): JobState
      reads this
    {
      JobState(hashFile, sealCode, pagesCount, names, prices, ticketsFound, isValid, subitems, status,
               foundCount, selectableCount, errorMessage)
    }

    /** Saves the ticket and the upload with the fields of `next`. */
    method Store(next: JobState)
      modifies this
      ensures State() == next
    {
      hashFile, sealCode, pagesCount, names, prices, ticketsFound := next.hashFile, next.sealCode, next.pagesCount,
        next.names, next.prices, next.ticketsFound;
      isValid, subitems, status, foundCount, selectableCount, errorMessage := next.isValid, next.subitems,
        next.status, next.foundCount, next.selectableCount, next.errorMessage;
    }

    /** `parse_ticket_pdf`, writing what `ParseStep` says. */
    method Parse(file: Option<string>, fault: Option<string>, pages: Option<nat>, nameMatches: seq<string>,
                 priceMatches: seq<string>, codes: seq<Code>, hash: string -> string) returns (end: TaskEnd)
      modifies this
      ensures (State(), end) == ParseStep(old(State()), ticket, file, fault, pages, nameMatches, priceMatches, codes, hash)
    {
      if file.None? || fault.Some? {
        var msg := Http.Truncate(if file.None? then MissingFile else fault.value, 500);
        Store(State().(status := Failed, errorMessage := Some(msg)));
        return Reraised(msg);
      }
      var hf := hash(file.value);
      var found := Extracted(nameMatches, priceMatches);
      var name, price := FirstOr(OrNull(found.0)), FirstOr(OrNull(found.1));
      var count := if pages.Some? then pages.value else 0;
      var after, created := AddCodesLoop(subitems, codes, ticket, name, price, hash);
      var parsed := WithFallback(after, created, hf, ticket, name, price, count, sealCode, hash);
      var total := |OwnedBy(parsed, ticket)|;
      assert parsed == Parsed(subitems, codes, hf, ticket, name, price, count, sealCode, hash);
      var next := JobState(if hashFile == "" then hf else hashFile, sealCode, count, OrNull(found.0),
                           OrNull(found.1), total, total > 0, parsed, if total > 0 then Ready else Failed,
                           total, total, if total > 0 then None else Some(NothingFound));
      assert (next, Done) == ParseStep(State(), ticket, file, fault, pages, nameMatches, priceMatches, codes, hash);
      Store(next);
      return Done;
    }
  }
}
