/** Minimum price, maximum price and currency extracted from a Ticketmaster
    EU price payload. Both copies of the extractor (the resale command's and
    the scraper's) gather candidate dictionaries differently and then fold
    the candidates with the same running minimum, maximum and currency. */
module TmPriceExtract {
  import opened Wrappers
  import opened Json

  /** `(min, max, currency)` as found; the currency is the raw payload value. */
  datatype Extracted = Extracted(minPrice: Option<int>, maxPrice: Option<int>, currency: Option<Json>)

  const ListKeys: seq<string> := ["prices", "priceRanges", "price_range", "offers", "levels"]
  const LowKeys: seq<string> := ["min", "minPrice", "min_value"]
  const HighKeys: seq<string> := ["max", "maxPrice", "max_value"]
  const CurrencyKeys: seq<string> := ["currency", "currencyCode", "cur"]

  function Flatten(ss: seq<seq<Json>>): seq<Json>
  {
    if |ss| == 0 then [] else ss[0] + Flatten(ss[1..])
  }

  lemma {:induction false} FlattenMember(ss: seq<seq<Json>>, x: Json)
    requires x in Flatten(ss)
    ensures exists i :: 0 <= i < |ss| && x in ss[i]
  {
    if x !in ss[0] {
      FlattenMember(ss[1..], x);
      var i :| 0 <= i < |ss| - 1 && x in ss[1..][i];
      assert x in ss[i + 1];
    }
  }

  // ---------------------------------------------------------------------
  // Candidate dictionaries

  /** The dictionaries among the items of `data[key]` when that is a list. */
  function DictItems(data: Json, key: string): (r: seq<Json>)
    ensures forall x :: x in r ==> x.JObj?
  {
    match GetOrNull(data, key)
    case JArr(items) => Filter(items, (x: Json) => x.JObj?)
    case _ => []
  }

  function Filter(s: seq<Json>, keep: Json -> bool): (r: seq<Json>)
    ensures forall x :: x in r <==> x in s && keep(x)
    ensures |r| <= |s|
  {
    if |s| == 0 then [] else (if keep(s[0]) then [s[0]] else []) + Filter(s[1..], keep)
  }

  /** The generator `walk`: every dictionary nested in `j`, in pre-order,
      `j` itself first when it is one. */
  function Walk(j: Json): seq<Json>
  {
    match j
    case JObj(fields) => [j] + Flatten(seq(|fields|, i requires 0 <= i < |fields| => Walk(fields[i].val)))
    case JArr(items) => Flatten(seq(|items|, i requires 0 <= i < |items| => Walk(items[i])))
    case _ => []
  }

  /** The walk yields only dictionaries, and starts with the payload itself
      when the payload is one. */
  lemma {:induction false} WalkYieldsDicts(j: Json)
    ensures forall x :: x in Walk(j) ==> x.JObj?
    ensures j.JObj? ==> |Walk(j)| > 0 && Walk(j)[0] == j
  {
    match j
    case JObj(fields) =>
      var ss := seq(|fields|, i requires 0 <= i < |fields| => Walk(fields[i].val));
      forall x | x in Flatten(ss) ensures x.JObj? {
        FlattenMember(ss, x);
        var i :| 0 <= i < |ss| && x in ss[i];
        WalkYieldsDicts(fields[i].val);
      }
    case JArr(items) =>
      var ss := seq(|items|, i requires 0 <= i < |items| => Walk(items[i]));
      forall x | x in Flatten(ss) ensures x.JObj? {
        FlattenMember(ss, x);
        var i :| 0 <= i < |ss| && x in ss[i];
        WalkYieldsDicts(items[i]);
      }
    case _ =>
  }

  /** Resale command: a list item is a candidate when it is a dictionary. */
  function ListCandidatesResale(data: Json): seq<Json>
  {
    DictItems(data, ListKeys[0]) + DictItems(data, ListKeys[1]) + DictItems(data, ListKeys[2])
    + DictItems(data, ListKeys[3]) + DictItems(data, ListKeys[4])
  }

  /** Resale command: a walked dictionary is a candidate when it has a
      min/max pair of any of the three spellings, or a `value`. */
  predicate WalkKeepResale(o: Json)
  {
    (Has(o, "min") && Has(o, "max")) || (Has(o, "minPrice") && Has(o, "maxPrice"))
    || (Has(o, "min_value") && Has(o, "max_value")) || Has(o, "value")
  }

  function CandidatesResale(data: Json): (r: seq<Json>)
    ensures !data.JObj? ==> r == []
    ensures forall x :: x in r ==> x.JObj?
  {
    WalkYieldsDicts(data);
    if !data.JObj? then []
    else ListCandidatesResale(data) + Filter(Walk(data), WalkKeepResale)
  }

  /** Scraper: a list item is appended once per min/max spelling of which it
      has either key, and once more when it has `value`. */
  function ItemCopiesScraper(it: Json): (r: seq<Json>)
    ensures forall x :: x in r ==> x == it
    ensures |r| > 0 <==> (exists k :: k in LowKeys + HighKeys + ["value"] && Has(it, k))
  {
    (if Has(it, "min") || Has(it, "max") then [it] else [])
    + (if Has(it, "minPrice") || Has(it, "maxPrice") then [it] else [])
    + (if Has(it, "min_value") || Has(it, "max_value") then [it] else [])
    + (if Has(it, "value") then [it] else [])
  }

  function ListCandidatesScraper(data: Json): seq<Json>
  {
    var items := DictItems(data, ListKeys[0]) + DictItems(data, ListKeys[1]) + DictItems(data, ListKeys[2])
                 + DictItems(data, ListKeys[3]) + DictItems(data, ListKeys[4]);
    Flatten(seq(|items|, i requires 0 <= i < |items| => ItemCopiesScraper(items[i])))
  }

  /** Scraper: a walked dictionary is a candidate only with both `min` and
      `max`, or both `minPrice` and `maxPrice`. */
  predicate WalkKeepScraper(o: Json)
  {
    (Has(o, "min") && Has(o, "max")) || (Has(o, "minPrice") && Has(o, "maxPrice"))
  }

  function CandidatesScraper(data: Json): (r: seq<Json>)
    ensures !data.JObj? ==> r == []
  {
    if !data.JObj? then []
    else ListCandidatesScraper(data) + Filter(Walk(data), WalkKeepScraper)
  }

  /** Every walked candidate of the scraper is also one of the resale
      command, but not conversely: a lone `value` or a `min_value`/`max_value`
      pair is kept only by the resale command. */
  lemma ScraperWalkNarrower(o: Json)
    ensures WalkKeepScraper(o) ==> WalkKeepResale(o)
    ensures WalkKeepResale(JObj([Field("value", JNum(5))])) && !WalkKeepScraper(JObj([Field("value", JNum(5))]))
  {
    var v := JObj([Field("value", JNum(5))]);
    assert v.fields[0].key == "value";
    assert !HasKey(v.fields, "min");
    assert !HasKey(v.fields, "minPrice");
  }

  // ---------------------------------------------------------------------
  // The fold

  /** `a` is at least as extreme as `b`: not larger for the minimum, not
      smaller for the maximum. */
  predicate AtLeastAsExtreme(a: int, b: int, low: bool)
  {
    if low then a <= b else a >= b
  }

  /** One step of a running extreme: `x` replaces `m` when `m` is unset or
      `x` is strictly more extreme; an unparseable `x` changes nothing. */
  function Pick(m: Option<int>, x: Option<int>, low: bool): Option<int>
  {
    if x.None? then m
    else if m.None? || (if low then x.value < m.value else x.value > m.value) then x
    else m
  }

  function Parse(it: Json, key: string): Option<int> { AsNumber(GetOrNull(it, key)) }

  /** The values a candidate feeds to the minimum (`low`) or the maximum: the
      three keys of that side of the pairs, in pair order, then `value`. */
  function Feeds(it: Json, low: bool): seq<Option<int>>
  {
    var keys := if low then LowKeys else HighKeys;
    [Parse(it, keys[0]), Parse(it, keys[1]), Parse(it, keys[2]), Parse(it, "value")]
  }

  /** The running extreme after the first `j` feeds of candidate `it`. */
  function StepWithin(m: Option<int>, it: Json, low: bool, j: nat): Option<int>
    requires j <= 4
  {
    if j == 0 then m else Pick(StepWithin(m, it, low, j - 1), Feeds(it, low)[j - 1], low)
  }

  /** The running extreme after all candidates. */
  function Extreme(cands: seq<Json>, low: bool): Option<int>
  {
    if |cands| == 0 then None else StepWithin(Extreme(cands[..|cands| - 1], low), cands[|cands| - 1], low, 4)
  }

  /** Some feed of some candidate parsed. */
  predicate AnyFeed(cands: seq<Json>, low: bool)
  {
    exists c, k :: 0 <= c < |cands| && 0 <= k < 4 && Feeds(cands[c], low)[k].Some?
  }

  lemma {:induction false} StepWithinBounds(m: Option<int>, it: Json, low: bool, j: nat)
    requires j <= 4
    ensures m.Some? ==> StepWithin(m, it, low, j).Some? && AtLeastAsExtreme(StepWithin(m, it, low, j).value, m.value, low)
    ensures forall k :: 0 <= k < j && Feeds(it, low)[k].Some? ==>
              StepWithin(m, it, low, j).Some? && AtLeastAsExtreme(StepWithin(m, it, low, j).value, Feeds(it, low)[k].value, low)
    ensures StepWithin(m, it, low, j).Some? ==>
              StepWithin(m, it, low, j) == m || exists k :: 0 <= k < j && Feeds(it, low)[k] == StepWithin(m, it, low, j)
    ensures StepWithin(m, it, low, j).None? <==> m.None? && forall k :: 0 <= k < j ==> Feeds(it, low)[k].None?
  {
    if j > 0 {
      StepWithinBounds(m, it, low, j - 1);
    }
  }

  /** The extracted minimum (maximum) is unset exactly when no feed of any
      candidate parsed. */
  lemma {:induction false} ExtremeUnsetIffNothingParsed(cands: seq<Json>, low: bool)
    ensures Extreme(cands, low).None? <==> !AnyFeed(cands, low)
  {
    if |cands| > 0 {
      var init := cands[..|cands| - 1];
      ExtremeUnsetIffNothingParsed(init, low);
      StepWithinBounds(Extreme(init, low), cands[|cands| - 1], low, 4);
      if AnyFeed(cands, low) {
        var c, k :| 0 <= c < |cands| && 0 <= k < 4 && Feeds(cands[c], low)[k].Some?;
        if c < |init| { assert init[c] == cands[c]; }
      }
      if AnyFeed(init, low) {
        var c, k :| 0 <= c < |init| && 0 <= k < 4 && Feeds(init[c], low)[k].Some?;
        assert init[c] == cands[c];
      }
    }
  }

  /** The extracted minimum (maximum) is at most (at least) every parsed
      feed of every candidate. */
  lemma {:induction false} ExtremeBoundsAllFeeds(cands: seq<Json>, low: bool, c: nat, k: nat)
    requires c < |cands| && k < 4 && Feeds(cands[c], low)[k].Some?
    ensures Extreme(cands, low).Some?
    ensures AtLeastAsExtreme(Extreme(cands, low).value, Feeds(cands[c], low)[k].value, low)
  {
    var init := cands[..|cands| - 1];
    var last := cands[|cands| - 1];
    var m := Extreme(init, low);
    assert Extreme(cands, low) == StepWithin(m, last, low, 4);
    if c < |init| {
      assert init[c] == cands[c];
      ExtremeBoundsAllFeeds(init, low, c, k);
      StepWithinBounds(m, last, low, 4);
    } else {
      StepWithinBounds(m, last, low, 4);
    }
  }

  /** The extracted minimum (maximum), when set, is one of the parsed feeds. */
  lemma {:induction false} ExtremeIsSomeFeed(cands: seq<Json>, low: bool)
    requires Extreme(cands, low).Some?
    ensures exists c, k :: 0 <= c < |cands| && 0 <= k < 4 && Feeds(cands[c], low)[k] == Extreme(cands, low)
  {
    var init := cands[..|cands| - 1];
    var last := cands[|cands| - 1];
    StepWithinBounds(Extreme(init, low), last, low, 4);
    var r := Extreme(cands, low);
    if r == Extreme(init, low) {
      ExtremeIsSomeFeed(init, low);
      var c, k :| 0 <= c < |init| && 0 <= k < 4 && Feeds(init[c], low)[k] == r;
      assert init[c] == cands[c];
    } else {
      var k :| 0 <= k < 4 && Feeds(last, low)[k] == r;
      assert Feeds(cands[|cands| - 1], low)[k] == r;
    }
  }

  /** The first truthy currency key of a candidate. */
  function CandidateCurrency(it: Json): Option<Json>
  {
    if Truthy(GetOrNull(it, CurrencyKeys[0])) then Some(GetOrNull(it, CurrencyKeys[0]))
    else if Truthy(GetOrNull(it, CurrencyKeys[1])) then Some(GetOrNull(it, CurrencyKeys[1]))
    else if Truthy(GetOrNull(it, CurrencyKeys[2])) then Some(GetOrNull(it, CurrencyKeys[2]))
    else None
  }

  /** The currency of the last candidate that has one. */
  function LastCurrency(cands: seq<Json>): Option<Json>
  {
    if |cands| == 0 then None
    else match CandidateCurrency(cands[|cands| - 1])
      case Some(c) => Some(c)
      case None => LastCurrency(cands[..|cands| - 1])
  }

  /** The first truthy currency key of candidate `it`, searched in order. */
  method FindCurrency(it: Json) returns (c: Option<Json>)
    ensures c == CandidateCurrency(it)
  {
    var k := 0;
    while k < |CurrencyKeys|
      invariant 0 <= k <= |CurrencyKeys|
      invariant forall m :: 0 <= m < k ==> !Truthy(GetOrNull(it, CurrencyKeys[m]))
    {
      if Truthy(GetOrNull(it, CurrencyKeys[k])) {
        break;
      }
      k := k + 1;
    }
    c := if k < |CurrencyKeys| then Some(GetOrNull(it, CurrencyKeys[k])) else None;
  }

  /** The body of the candidate loop for one candidate `it`. */
  method FoldOne(minV: Option<int>, maxV: Option<int>, curr: Option<Json>, it: Json)
    returns (minV': Option<int>, maxV': Option<int>, curr': Option<Json>)
    ensures minV' == StepWithin(minV, it, true, 4)
    ensures maxV' == StepWithin(maxV, it, false, 4)
    ensures curr' == if CandidateCurrency(it).Some? then CandidateCurrency(it) else curr
  {
    var c := FindCurrency(it);
    curr' := if c.Some? then c else curr;
    minV' := FoldSide(minV, it, true);
    maxV' := FoldSide(maxV, it, false);
  }

  /** One side of the pair loop followed by `value`: the running minimum
      (`low`) or maximum over the feeds of candidate `it`. */
  method FoldSide(m: Option<int>, it: Json, low: bool) returns (m': Option<int>)
    ensures m' == StepWithin(m, it, low, 4)
  {
    var keys := if low then LowKeys else HighKeys;
    m' := m;
    for j := 0 to 3
      invariant m' == StepWithin(m, it, low, j)
    {
      m' := Pick(m', Parse(it, keys[j]), low);
    }
    m' := Pick(m', Parse(it, "value"), low);
  }

  /** The candidate loop of the extractor: a running minimum over the
      min-like keys and `value`, a running maximum over the max-like keys
      and `value`, and the currency of the last candidate that has one. */
  method Fold(cands: seq<Json>) returns (e: Extracted)
    ensures e.minPrice == Extreme(cands, true)
    ensures e.maxPrice == Extreme(cands, false)
    ensures e.currency == LastCurrency(cands)
  {
    var minV: Option<int> := None;
    var maxV: Option<int> := None;
    var curr: Option<Json> := None;
    for i := 0 to |cands|
      invariant minV == Extreme(cands[..i], true)
      invariant maxV == Extreme(cands[..i], false)
      invariant curr == LastCurrency(cands[..i])
    {
      assert cands[..i + 1][..i] == cands[..i];
      minV, maxV, curr := FoldOne(minV, maxV, curr, cands[i]);
    }
    assert cands[..|cands|] == cands;
    e := Extracted(minV, maxV, curr);
  }

  /** `_extract_min_max_currency_from_prices_payload` of the resale command:
      the currency is rendered with `str()`. */
  method ExtractResale(data: Json) returns (minPrice: Option<int>, maxPrice: Option<int>, currency: Option<string>)
    ensures minPrice == Extreme(CandidatesResale(data), true)
    ensures maxPrice == Extreme(CandidatesResale(data), false)
    ensures currency.Some? <==> LastCurrency(CandidatesResale(data)).Some?
    ensures currency.Some? ==> currency.value == PyStr(LastCurrency(CandidatesResale(data)).value)
    ensures !data.JObj? ==> minPrice.None? && maxPrice.None? && currency.None?
  {
    var e := Fold(CandidatesResale(data));
    minPrice, maxPrice := e.minPrice, e.maxPrice;
    currency := if e.currency.Some? then Some(PyStr(e.currency.value)) else None;
  }

  /** The scraper's extractor: the currency is the raw payload value. */
  method ExtractScraper(data: Json) returns (e: Extracted)
    ensures e.minPrice == Extreme(CandidatesScraper(data), true)
    ensures e.maxPrice == Extreme(CandidatesScraper(data), false)
    ensures e.currency == LastCurrency(CandidatesScraper(data))
    ensures !data.JObj? ==> e == Extracted(None, None, None)
  {
    e := Fold(CandidatesScraper(data));
  }
}
