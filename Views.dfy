/** The marketplace endpoints: order creation and checkout, which check a
    listing and reserve quantity from it, the price preview, the
    permission classes and the access rule of the checkout summary.
    Prices are two-decimal amounts, held here in cents; a fee percentage
    that passed validation is held in hundredths of a percent. */
module Views {
  import opened Wrappers
  import opened Text
  import opened Json

  // ---------------------------------------------------------------------
  // Money

  /** `n / d` rounded to the nearest whole number, ties to the even one:
      how `Decimal.quantize` rounds under the default context. */
  function RoundDiv(n: int, d: nat): int
    requires d > 0
  {
    var q := n / d;
    var r := n % d;
    if 2 * r < d then q
    else if 2 * r > d then q + 1
    else if q % 2 == 0 then q else q + 1
  }

  /** The rounded quotient is at most half a unit from `n / d`, and when it
      is exactly half a unit away it is even; these two facts fix it. */
  lemma RoundDivNearestEven(n: int, d: nat)
    requires d > 0
    ensures 2 * Abs(n - RoundDiv(n, d) * d) <= d
    ensures 2 * Abs(n - RoundDiv(n, d) * d) == d ==> RoundDiv(n, d) % 2 == 0
  {
    var q := n / d;
    var r := n % d;
    assert n == q * d + r;
    assert (q + 1) * d == q * d + d;
  }

  /** An amount already in whole units is left as it is. */
  lemma RoundDivExact(k: int, d: nat)
    requires d > 0
    ensures RoundDiv(k * d, d) == k
  {
    var n := k * d;
    assert n == k * d + 0;
    LemmaDivUnique(n, d, k, 0);
  }

  lemma LemmaDivUnique(n: int, d: nat, q: int, r: int)
    requires d > 0 && 0 <= r < d && n == q * d + r
    ensures n / d == q && n % d == r
  {
    var q0 := n / d;
    var r0 := n % d;
    assert n == q0 * d + r0;
    MulMonotone(q0, q, d);
    MulMonotone(q, q0, d);
  }

  /** For `a < b`, `a * d` is at least `d` below `b * d`. */
  lemma MulMonotone(a: int, b: int, d: nat)
    ensures a < b ==> a * d <= b * d - d
  {
    if a < b {
      var k: nat := b - a - 1;
      assert b * d == a * d + d + k * d;
    }
  }

  // ---------------------------------------------------------------------
  // Request values

  /** Python's `int(s)` on a string already stripped: an optional sign and
      decimal digits. */
  function ParseInt(s: string): (r: Option<int>)
    ensures r.Some? ==> |s| > 0
  {
    if |s| > 0 && (s[0] == '-' || s[0] == '+') then
      if IsDigits(s[1..]) then var v: int := DigitsValue(s[1..]); Some(if s[0] == '-' then -v else v) else None
    else if IsDigits(s) then Some(DigitsValue(s))
    else None
  }

  /** `int(...)` reads back what `str(...)` wrote. */
  lemma ParseIntRoundTrip(n: int)
    ensures ParseInt(IntToString(n)) == Some(n)
  {
    if n < 0 {
      var d := NatToString(-n);
      var t := "-" + d;
      assert IntToString(n) == t;
      assert t[0] == '-' && t[1..] == d;
      NatToStringRoundTrip(-n);
      assert ParseInt(t) == Some(-(DigitsValue(d) as int));
    } else {
      var d := NatToString(n);
      assert IntToString(n) == d;
      assert IsDigit(d[0]);
      NatToStringRoundTrip(n);
      assert ParseInt(d) == Some(DigitsValue(d));
    }
  }

  /** `int(request.data.get(key, default))`: None when `int` raises
      `TypeError` or `ValueError`. */
  function PyInt(v: Option<Json>, default: int): (r: Option<int>)
    ensures v.None? ==> r == Some(default)
    ensures v.Some? && v.value.JNum? ==> r == Some(v.value.n)
    ensures v.Some? && v.value.JFloat? ==>
              var u, p := v.value.units, Pow10(v.value.scale);
              r.Some? && (0 <= u ==> r.value * p <= u < r.value * p + p)
              && (u < 0 ==> r.value * p - p < u <= r.value * p)
    ensures v.Some? && (v.value.JNull? || v.value.JArr? || v.value.JObj?) ==> r.None?
  {
    match v
    case None => Some(default)
    case Some(j) =>
      match j
      case JNum(n) => Some(n)
      case JFloat(u, k) => Some(if u >= 0 then u / Pow10(k) else -((-u) / Pow10(k)))
      case JBool(b) => Some(if b then 1 else 0)
      case JStr(s) => ParseInt(Strip(s))
      case _ => None
  }

  /** A decimal number `units / 10^scale`, as `Decimal` holds it. */
  datatype Dec = Dec(units: int, scale: nat)

  /** A fee as the preview reads it: absent, a number, or text that
      `Decimal` refuses. */
  datatype FeeIn = NoFee | FeeValue(d: Dec) | FeeInvalid

  predicate AllDigits(s: string) { forall i :: 0 <= i < |s| ==> IsDigit(s[i]) }

  function Pow10(n: nat): (r: nat)
    ensures r > 0
  {
    if n == 0 then 1 else 10 * Pow10(n - 1)
  }

  /** `Decimal(s)` for a stripped string of plain decimal notation: a sign,
      digits and an optional fraction, with at least one digit; the scale
      is the number of fraction digits. */
  function ParseDecimal(s: string): (r: Option<Dec>)
    ensures r.Some? ==> r.value.scale < |s|
  {
    var signed := |s| > 0 && (s[0] == '-' || s[0] == '+');
    var u := ParseUnsigned(if signed then s[1..] else s);
    if u.None? then None
    else Some(Dec(if signed && s[0] == '-' then -u.value.units else u.value.units, u.value.scale))
  }

  /** The unsigned part: digits with at most one point, at least one digit. */
  function ParseUnsigned(body: string): (r: Option<Dec>)
    ensures r.Some? ==> r.value.units >= 0 && r.value.scale < |body|
  {
    var k := DotAt(body, 0);
    var whole := body[..k];
    var frac := if k < |body| then body[k + 1..] else "";
    if (whole == "" && frac == "") || !AllDigits(whole + frac) then None
    else Some(Dec(DigitsValue(whole + frac), |frac|))
  }

  /** The index of the first '.' from `i`, or the length. */
  function DotAt(s: string, i: nat): (k: nat)
    requires i <= |s|
    ensures i <= k <= |s| && (k < |s| ==> s[k] == '.')
    decreases |s| - i
  {
    if i == |s| || s[i] == '.' then i else DotAt(s, i + 1)
  }

  /** A whole number written out reads back as itself. */
  lemma ParseDecimalOfNat(n: nat)
    ensures ParseDecimal(NatToString(n)) == Some(Dec(n, 0))
  {
    var s := NatToString(n);
    assert !(s[0] == '-' || s[0] == '+');
    assert DotAt(s, 0) == |s| by {
      assert forall j :: 0 <= j < |s| ==> s[j] != '.';
      DotAtNone(s, 0);
    }
    assert s[..|s|] + "" == s;
    NatToStringRoundTrip(n);
  }

  lemma {:induction false} DotAtNone(s: string, i: nat)
    requires i <= |s| && forall j :: 0 <= j < |s| ==> s[j] != '.'
    ensures DotAt(s, i) == |s|
    decreases |s| - i
  {
    if i < |s| {
      DotAtNone(s, i + 1);
    }
  }

  /** Whole digits, a point and fraction digits read as the number `v`
      they write, `units / 10^scale` with `v = whole * 10^scale + frac` and
      the scale the number of fraction digits; a '+' before them reads the
      same and a '-' negates the units. */
  lemma ParseDecimalValue(whole: string, frac: string, v: int)
    requires AllDigits(whole) && AllDigits(frac) && (whole != "" || frac != "")
    requires v == DigitsValue(whole) * Pow10(|frac|) + DigitsValue(frac)
    ensures AllDigits(whole + frac) && DigitsValue(whole + frac) == v
    ensures ParseDecimal(whole + "." + frac) == Some(Dec(v, |frac|))
    ensures ParseDecimal("+" + (whole + "." + frac)) == Some(Dec(v, |frac|))
    ensures ParseDecimal("-" + (whole + "." + frac)) == Some(Dec(-v, |frac|))
  {
    DigitsConcat(whole, frac);
    ParseDigitsBody(whole, frac, v);
  }

  /** The three readings of one body of digits and a point, for the value
      `v` of its digits. */
  lemma ParseDigitsBody(whole: string, frac: string, v: int)
    requires AllDigits(whole) && AllDigits(frac) && (whole != "" || frac != "")
    requires AllDigits(whole + frac) && v == DigitsValue(whole + frac)
    ensures ParseDecimal(whole + "." + frac) == Some(Dec(v, |frac|))
    ensures ParseDecimal("+" + (whole + "." + frac)) == Some(Dec(v, |frac|))
    ensures ParseDecimal("-" + (whole + "." + frac)) == Some(Dec(-v, |frac|))
  {
    ParseUnsignedValue(whole, frac);
    ParseDecimalSign(whole + "." + frac, v, |frac|);
  }

  /** A body without a sign reads as its unsigned value; a '+' before it
      keeps that value and a '-' negates its units, keeping the scale. */
  lemma ParseDecimalSign(body: string, v: int, scale: nat)
    requires |body| > 0 && body[0] != '-' && body[0] != '+'
    requires ParseUnsigned(body) == Some(Dec(v, scale))
    ensures ParseDecimal(body) == Some(Dec(v, scale))
    ensures ParseDecimal("+" + body) == Some(Dec(v, scale))
    ensures ParseDecimal("-" + body) == Some(Dec(-v, scale))
  {
    ParseDecimalSigned(body, v, scale, '+');
    ParseDecimalSigned(body, v, scale, '-');
  }

  lemma ParseDecimalSigned(body: string, v: int, scale: nat, sign: char)
    requires |body| > 0 && body[0] != '-' && body[0] != '+' && ParseUnsigned(body) == Some(Dec(v, scale))
    requires sign == '-' || sign == '+'
    ensures ParseDecimal([sign] + body) == Some(Dec(if sign == '-' then -v else v, scale))
  {
    var t := [sign] + body;
    assert t[0] == sign && t[1..] == body;
  }

  /** Whole digits, a point and fraction digits read as their digits
      together, with the fraction digits as the scale. */
  lemma ParseUnsignedValue(whole: string, frac: string)
    requires AllDigits(whole) && AllDigits(frac) && (whole != "" || frac != "")
    ensures (whole + "." + frac)[0] != '-' && (whole + "." + frac)[0] != '+'
    ensures AllDigits(whole + frac) && ParseUnsigned(whole + "." + frac) == Some(Dec(DigitsValue(whole + frac), |frac|))
  {
    var body := whole + "." + frac;
    assert body[0] != '-' && body[0] != '+' by {
      if whole != "" { assert body[0] == whole[0]; } else { assert body[0] == '.'; }
    }
    DigitsConcat(whole, frac);
    assert ParseUnsigned(body) == Some(Dec(DigitsValue(whole + frac), |frac|)) by {
      DotAtFirst(body, 0, |whole|);
      assert body[..|whole|] == whole && body[|whole| + 1..] == frac;
    }
  }

  lemma {:induction false} DotAtFirst(s: string, i: nat, k: nat)
    requires i <= k < |s| && s[k] == '.' && forall j :: i <= j < k ==> s[j] != '.'
    ensures DotAt(s, i) == k
    decreases k - i
  {
    if i < k {
      DotAtFirst(s, i + 1, k);
    }
  }

  /** The digits of `a` then `b` are worth `a` shifted by `|b|` places plus `b`. */
  lemma {:induction false} DigitsConcat(a: string, b: string)
    requires AllDigits(a) && AllDigits(b)
    ensures AllDigits(a + b)
    ensures DigitsValue(a + b) == DigitsValue(a) * Pow10(|b|) + DigitsValue(b)
    decreases |b|
  {
    if b == [] {
      assert a + b == a;
    } else {
      var init, ab := b[..|b| - 1], a + b;
      assert AllDigits(init);
      assert ab[..|ab| - 1] == a + init;
      assert ab[|ab| - 1] == b[|b| - 1];
      DigitsConcat(a, init);
      var va, vi, d := DigitsValue(a), DigitsValue(init), DigitOf(b[|b| - 1]);
      assert DigitsValue(ab) == DigitsValue(a + init) * 10 + d;
      assert DigitsValue(b) == vi * 10 + d;
      ShiftOnce(va, Pow10(|init|), vi);
    }
  }

  lemma ShiftOnce(x: int, p: int, y: int)
    ensures (x * p + y) * 10 == x * (10 * p) + y * 10
  {
  }

  /** `Decimal(str(x))` of a request value that is present: JSON numbers
      always parse, `True`/`False`, lists and dictionaries never do. */
  function FeeOf(v: Option<Json>): (r: FeeIn)
    ensures v.None? || v == Some(JNull) <==> r == NoFee
    ensures v.Some? && v.value.JNum? ==> r == FeeValue(Dec(v.value.n, 0))
    ensures v.Some? && v.value.JFloat? ==>
              r.FeeValue? && r.d.scale > 0
              && r.d.units * Pow10(v.value.scale) == v.value.units * Pow10(r.d.scale)
    ensures v.Some? && (v.value.JBool? || v.value.JArr? || v.value.JObj?) ==> r == FeeInvalid
  {
    match v
    case None => NoFee
    case Some(j) =>
      match j
      case JNull => NoFee
      case JNum(n) => FeeValue(Dec(n, 0))
      case JFloat(u, k) => FloatFee(u, k)
      case JStr(s) =>
        var d := ParseDecimal(Strip(s));
        if d.Some? then FeeValue(d.value) else FeeInvalid
      case _ => FeeInvalid
  }

  /** `Decimal(str(x))` of a float: `str` writes its `repr`. */
  function FloatFee(units: int, scale: nat): (r: FeeIn)
    ensures r.FeeValue? && r.d.scale > 0 && r.d.units * Pow10(scale) == units * Pow10(r.d.scale)
  {
    FloatTextReadsBack(units, scale);
    var d := ParseDecimal(FloatText(units, scale));
    if d.Some? then FeeValue(d.value) else FeeInvalid
  }

  /** `Decimal(str(x))` of a float reads back the decimal its `repr`
      writes, with at least one fraction digit. */
  lemma FloatTextReadsBack(units: int, scale: nat)
    ensures ParseDecimal(FloatText(units, scale))
            == Some(if scale == 0 then Dec(units * 10, 1) else Dec(units, scale))
  {
    if units < 0 {
      NegativeFloatReadsBack(units, scale);
    } else {
      var m, k := FloatDigits(units, scale), FloatScale(scale);
      PointedDigits(m, k);
      assert FloatText(units, scale) == PointedText(m, k);
    }
  }

  /** FloatTextReadsBack for a negative float. */
  lemma NegativeFloatReadsBack(units: int, scale: nat)
    requires units < 0
    ensures ParseDecimal(FloatText(units, scale))
            == Some(if scale == 0 then Dec(units * 10, 1) else Dec(units, scale))
  {
    var m, k := FloatDigits(units, scale), FloatScale(scale);
    var t := "-" + PointedText(m, k);
    assert FloatText(units, scale) == t;
    assert ParseDecimal(t) == Some(Dec(-(m as int), k)) by {
      PointedDigits(m, k);
    }
    assert Abs(units) == -units;
  }

  /** The digits of `m` with a point `k` places from the right read as
      `m / 10^k`, with or without a minus sign. */
  lemma PointedDigits(m: nat, k: nat)
    ensures ParseDecimal(PointedText(m, k)) == Some(Dec(m, k))
    ensures ParseDecimal("-" + PointedText(m, k)) == Some(Dec(-(m as int), k))
  {
    var digits := PadNat(m, k + 1);
    var whole, frac := digits[..|digits| - k], digits[|digits| - k..];
    PadNatValue(m, k + 1);
    assert whole + frac == digits;
    assert AllDigits(whole) && AllDigits(frac);
    ParseDigitsBody(whole, frac, m);
    assert PointedText(m, k) == whole + "." + frac;
  }

  /** Zeros put before the digits of `n` leave their value `n`. */
  lemma PadNatValue(n: nat, w: nat)
    ensures AllDigits(PadNat(n, w)) && DigitsValue(PadNat(n, w)) == n
  {
    var s := NatToString(n);
    NatToStringRoundTrip(n);
    if |s| < w {
      var z := seq(w - |s|, _ => '0');
      assert PadNat(n, w) == z + s;
      ZerosValue(w - |s|);
      DigitsConcat(z, s);
    }
  }

  lemma {:induction false} ZerosValue(n: nat)
    ensures AllDigits(seq(n, _ => '0')) && DigitsValue(seq(n, _ => '0')) == 0
  {
    if n > 0 {
      assert seq(n, _ => '0')[..n - 1] == seq(n - 1, _ => '0');
      ZerosValue(n - 1);
    }
  }

  // ---------------------------------------------------------------------
  // Listings and orders

  datatype ListingStatus = Active | Reserved | Sold | OtherStatus(name: string)

  /** A `Listing`: seller, status, quantity left, price per ticket in cents. */
  datatype Listing = Listing(id: nat, seller: nat, status: ListingStatus, qty: nat, priceEach: int,
                             currency: string)

  /** A PENDING `OrderTicket`; prices in cents. */
  datatype Order = Order(buyer: nat, listing: nat, qty: nat, unitPrice: int, totalPrice: int, currency: string)

  /** Why a request is answered 400 or 404. */
  datatype Refusal = QtyInvalid | QtyBelowOne | ListingNotFound | NotActive | ExceedsQty(available: nat)

  /** The checks on the locked listing. */
  function ListingCheck(l: Listing, qty: nat): (r: Option<Refusal>)
    ensures r.None? <==> l.status == Active && qty <= l.qty
  {
    if l.status != Active then Some(NotActive)
    else if qty > l.qty then Some(ExceedsQty(l.qty))
    else None
  }

  /** Taking `qty` from the listing: what is left stays, and a listing
      left with nothing gets status `soldOut`. */
  function Reserve(l: Listing, qty: nat, soldOut: ListingStatus): (r: Listing)
    requires qty <= l.qty
    ensures r.qty + qty == l.qty
    ensures r.status == (if r.qty == 0 then soldOut else l.status)
    ensures r.id == l.id && r.seller == l.seller && r.priceEach == l.priceEach && r.currency == l.currency
  {
    var remaining := l.qty - qty;
    if remaining > 0 then l.(qty := remaining) else l.(qty := 0, status := soldOut)
  }

  /** The answer of `OrderTicketViewSet.create`. */
  datatype Reply = Created(order: Order) | Refused(why: Refusal)

  /** `OrderTicketViewSet.create` on the listing table: the quantity, then
      the listing, its status and the quantity left. The total is the unit
      price times the quantity; quantizing a whole number of cents leaves
      it as it is (`RoundDivExact`). */
  function OrderReply(listings: map<nat, Listing>, buyer: nat, listingId: Option<nat>, qtyIn: Option<Json>)
    : (r: Reply)
  {
    var qty := PyInt(qtyIn, 1);
    if qty.None? then Refused(QtyInvalid)
    else if qty.value < 1 then Refused(QtyBelowOne)
    else if listingId.None? || listingId.value !in listings then Refused(ListingNotFound)
    else
      var l := listings[listingId.value];
      var check := ListingCheck(l, qty.value);
      if check.Some? then Refused(check.value)
      else Created(Order(buyer, listingId.value, qty.value, l.priceEach, l.priceEach * qty.value, l.currency))
  }

  /** A created order: an active listing with enough quantity, priced at
      the listing's price, for the quantity asked. */
  lemma CreatedOrderIsChecked(listings: map<nat, Listing>, buyer: nat, listingId: Option<nat>, qtyIn: Option<Json>)
    requires OrderReply(listings, buyer, listingId, qtyIn).Created?
    ensures var o := OrderReply(listings, buyer, listingId, qtyIn).order;
      listingId.Some? && listingId.value in listings && o.listing == listingId.value
      && var l := listings[listingId.value];
      l.status == Active && 1 <= o.qty <= l.qty && Some(o.qty as int) == PyInt(qtyIn, 1)
      && o.unitPrice == l.priceEach && o.currency == l.currency && o.buyer == buyer
      && o.totalPrice == o.unitPrice * o.qty
  {
  }

  /** Each refusal names its cause, in the order the checks run. */
  lemma RefusalCauses(listings: map<nat, Listing>, buyer: nat, listingId: Option<nat>, qtyIn: Option<Json>)
    ensures var r := OrderReply(listings, buyer, listingId, qtyIn);
      (r == Refused(QtyInvalid) <==> PyInt(qtyIn, 1).None?)
      && (r == Refused(QtyBelowOne) <==> PyInt(qtyIn, 1).Some? && PyInt(qtyIn, 1).value < 1)
      && (r == Refused(ListingNotFound) <==>
            PyInt(qtyIn, 1).Some? && PyInt(qtyIn, 1).value >= 1 && (listingId.None? || listingId.value !in listings))
      && (r.Refused? && r.why.ExceedsQty? ==>
            (listingId.Some? && listingId.value in listings
             && r.why.available == listings[listingId.value].qty < PyInt(qtyIn, 1).value))
  {
  }

  /** The listing table and the orders. */
  class Market {
    var listings: map<nat, Listing>
    var orders: seq<Order>

    constructor(listings: map<nat, Listing>, orders: seq<Order>)
      ensures this.listings == listings && this.orders == orders
    {
      this.listings := listings;
      this.orders := orders;
    }

    /** `OrderTicketViewSet.create`: in one transaction, the order is
        created and the quantity taken; a listing left with none is SOLD. */
    method CreateOrder(buyer: nat, listingId: Option<nat>, qtyIn: Option<Json>) returns (r: Reply)
      modifies this
      ensures r == OrderReply(old(listings), buyer, listingId, qtyIn)
      ensures r.Created? ==> r.order.listing in old(listings) && r.order.qty <= old(listings)[r.order.listing].qty
      ensures r.Created? ==> listings == old(listings)[r.order.listing := Reserve(old(listings)[r.order.listing], r.order.qty, Sold)]
                             && orders == old(orders) + [r.order]
      ensures r.Refused? ==> listings == old(listings) && orders == old(orders)
    {
      var qty := PyInt(qtyIn, 1);
      if qty.None? {
        return Refused(QtyInvalid);
      }
      if qty.value < 1 {
        return Refused(QtyBelowOne);
      }
      if listingId.None? || listingId.value !in listings {
        return Refused(ListingNotFound);
      }
      var l := listings[listingId.value];
      if l.status != Active {
        return Refused(NotActive);
      }
      if qty.value > l.qty {
        return Refused(ExceedsQty(l.qty));
      }
      var order := Order(buyer, listingId.value, qty.value, l.priceEach, l.priceEach * qty.value, l.currency);
      orders := orders + [order];
      listings := listings[listingId.value := Reserve(l, qty.value, Sold)];
      return Created(order);
    }

    /** `CheckoutStartView.post`, reservation part, for validated input:
        the same checks on the locked listing, the order priced at the
        subtotal, and a listing left with none is RESERVED. */
    method StartCheckout(buyer: nat, listingId: nat, qty: nat, feePercent: Option<int>, feeFlat: Option<int>)
      returns (r: CheckoutReply)
      modifies this
      ensures r == CheckoutOf(old(listings), buyer, listingId, qty, feePercent, feeFlat)
      ensures r.Started? ==> listingId in old(listings)
                             && listings == old(listings)[listingId := Reserve(old(listings)[listingId], qty, Reserved)]
                             && orders == old(orders) + [r.order]
      ensures r.CheckoutRefused? ==> listings == old(listings) && orders == old(orders)
    {
      if listingId !in listings {
        return CheckoutRefused(ListingNotFound);
      }
      var l := listings[listingId];
      if l.status != Active {
        return CheckoutRefused(NotActive);
      }
      if qty > l.qty {
        return CheckoutRefused(ExceedsQty(l.qty));
      }
      var subtotal := l.priceEach * qty;
      var commission := CheckoutCommission(subtotal, feePercent, feeFlat);
      var order := Order(buyer, listingId, qty, l.priceEach, subtotal, l.currency);
      orders := orders + [order];
      listings := listings[listingId := Reserve(l, qty, Reserved)];
      return Started(order, subtotal, commission, subtotal + commission);
    }
  }

  /** Successive orders never take more than the listing held: quantities
      granted plus quantity left is the starting quantity, and the listing
      is SOLD exactly when nothing is left. */
  lemma {:induction false} OrdersNeverOversell(l: Listing, qtys: seq<nat>)
    requires l.status == Active && l.qty > 0
    ensures var (final, granted) := OrderAll(l, qtys);
      Sum(granted) + final.qty == l.qty
      && (final.status == Sold <==> final.qty == 0)
      && (final.status == Active <==> final.qty > 0)
    decreases |qtys|
  {
    if qtys != [] {
      var (mid, g) := OrderAll(l, qtys[..|qtys| - 1]);
      OrdersNeverOversell(l, qtys[..|qtys| - 1]);
      var q := qtys[|qtys| - 1];
      if q >= 1 && ListingCheck(mid, q).None? {
        SumAppend(g, q);
      }
    }
  }

  /** Orders of `qtys` one after the other on listing `l`: the listing
      after them and the quantities granted. */
  function OrderAll(l: Listing, qtys: seq<nat>): (Listing, seq<nat>)
    decreases |qtys|
  {
    if qtys == [] then (l, [])
    else
      var (mid, granted) := OrderAll(l, qtys[..|qtys| - 1]);
      var q := qtys[|qtys| - 1];
      if q >= 1 && ListingCheck(mid, q).None? then (Reserve(mid, q, Sold), granted + [q]) else (mid, granted)
  }

  function Sum(xs: seq<nat>): nat
  {
    if xs == [] then 0 else Sum(xs[..|xs| - 1]) + xs[|xs| - 1]
  }

  lemma SumAppend(xs: seq<nat>, x: nat)
    ensures Sum(xs + [x]) == Sum(xs) + x
  {
    assert (xs + [x])[..|xs|] == xs;
  }

  // ---------------------------------------------------------------------
  // Checkout and preview amounts

  /** The answer of `CheckoutStartView.post`: the order and the subtotal,
      commission and total in cents. */
  datatype CheckoutReply =
    | Started(order: Order, subtotal: int, commission: int, total: int)
    | CheckoutRefused(why: Refusal)

  /** The checkout commission, in ten-thousandths of a cent before
      rounding: `subtotal * fee_percent / 100 + fee_flat`, the percentage
      in hundredths of a percent and the flat fee in cents. */
  function RawCommission(subtotal: int, feePercent: Option<int>, feeFlat: Option<int>): int
  {
    (if feePercent.Some? then subtotal * feePercent.value else 0)
    + (if feeFlat.Some? then feeFlat.value * 10000 else 0)
  }

  /** The checkout commission in cents: the exact sum quantized once. */
  function CheckoutCommission(subtotal: int, feePercent: Option<int>, feeFlat: Option<int>): int
  {
    RoundDiv(RawCommission(subtotal, feePercent, feeFlat), 10000)
  }

  /** `CheckoutStartView.post` on the listing table. The total is the
      subtotal plus the commission, both whole cents, so quantizing it
      leaves it as it is. */
  function CheckoutOf(listings: map<nat, Listing>, buyer: nat, listingId: nat, qty: nat,
                      feePercent: Option<int>, feeFlat: Option<int>): CheckoutReply
  {
    if listingId !in listings then CheckoutRefused(ListingNotFound)
    else
      var l := listings[listingId];
      var check := ListingCheck(l, qty);
      if check.Some? then CheckoutRefused(check.value)
      else
        var subtotal := l.priceEach * qty;
        var commission := CheckoutCommission(subtotal, feePercent, feeFlat);
        Started(Order(buyer, listingId, qty, l.priceEach, subtotal, l.currency), subtotal, commission,
                subtotal + commission)
  }

  /** A started checkout: the commission is within half a cent of the
      exact fee (ties to the even cent), the total adds up, and the order
      records the subtotal, not the total. */
  lemma CheckoutAmounts(listings: map<nat, Listing>, buyer: nat, listingId: nat, qty: nat,
                        feePercent: Option<int>, feeFlat: Option<int>)
    requires CheckoutOf(listings, buyer, listingId, qty, feePercent, feeFlat).Started?
    ensures var r := CheckoutOf(listings, buyer, listingId, qty, feePercent, feeFlat);
      var raw := RawCommission(r.subtotal, feePercent, feeFlat);
      listingId in listings && r.subtotal == listings[listingId].priceEach * qty
      && 2 * Abs(raw - r.commission * 10000) <= 10000
      && (2 * Abs(raw - r.commission * 10000) == 10000 ==> r.commission % 2 == 0)
      && r.total == r.subtotal + r.commission && r.order.totalPrice == r.subtotal
  {
    var r := CheckoutOf(listings, buyer, listingId, qty, feePercent, feeFlat);
    RoundDivNearestEven(RawCommission(r.subtotal, feePercent, feeFlat), 10000);
  }

  /** A checkout of an active listing with enough quantity is never
      refused, and refused ones change nothing. */
  lemma CheckoutStartsIffAvailable(listings: map<nat, Listing>, buyer: nat, listingId: nat, qty: nat,
                                   feePercent: Option<int>, feeFlat: Option<int>)
    ensures CheckoutOf(listings, buyer, listingId, qty, feePercent, feeFlat).Started? <==>
              listingId in listings && listings[listingId].status == Active && qty <= listings[listingId].qty
  {
  }

  /** An order and a checkout of the same request leave the listing with
      the same quantity; they differ only in the status a listing left with
      none gets. */
  lemma CheckoutReservesLikeOrder(l: Listing, qty: nat)
    requires qty <= l.qty
    ensures Reserve(l, qty, Reserved).qty == Reserve(l, qty, Sold).qty
    ensures Reserve(l, qty, Sold).status == Sold <==> qty == l.qty || l.status == Sold
    ensures qty == l.qty ==> Reserve(l, qty, Reserved).status == Reserved
  {
  }

  /** The price preview of a listing, in cents. */
  datatype Preview =
    | Breakdown(unit: int, qty: int, subtotal: int, commission: int, total: int)
    | PreviewRefused(why: Refusal)

  /** The percentage fee term of the preview, quantized on its own:
      `subtotal * (units / 10^scale) / 100` euros, in cents. */
  function PercentTerm(subtotal: int, fee: Dec): int
  {
    RoundDiv(subtotal * fee.units, 100 * Pow10(fee.scale))
  }

  /** The flat fee term of the preview, quantized on its own, in cents. */
  function FlatTerm(fee: Dec): int
  {
    RoundDiv(fee.units * 100, Pow10(fee.scale))
  }

  /** `ListingViewSet.preview`: each fee term is quantized on its own and a
      fee `Decimal` refuses is skipped; nothing is written. */
  function PreviewOf(l: Listing, qtyIn: Option<Json>, feePercent: FeeIn, feeFlat: FeeIn): (r: Preview)
    ensures r.Breakdown? ==> l.status == Active && 1 <= r.qty <= l.qty && r.unit == l.priceEach
  {
    var qty := PyInt(qtyIn, 1);
    if qty.None? then PreviewRefused(QtyInvalid)
    else if qty.value < 1 then PreviewRefused(QtyBelowOne)
    else
      var check := ListingCheck(l, qty.value);
      if check.Some? then PreviewRefused(check.value)
      else
        var subtotal := l.priceEach * qty.value;
        var commission := (if feePercent.FeeValue? then PercentTerm(subtotal, feePercent.d) else 0)
                          + (if feeFlat.FeeValue? then FlatTerm(feeFlat.d) else 0);
        Breakdown(l.priceEach, qty.value, subtotal, commission, subtotal + commission)
  }

  /** A fee `Decimal` refuses counts as no fee. */
  lemma PreviewIgnoresInvalidFee(l: Listing, qtyIn: Option<Json>, other: FeeIn)
    ensures PreviewOf(l, qtyIn, FeeInvalid, other) == PreviewOf(l, qtyIn, NoFee, other)
    ensures PreviewOf(l, qtyIn, other, FeeInvalid) == PreviewOf(l, qtyIn, other, NoFee)
  {
  }

  /** A flat fee given in whole cents is charged as given, and each term is
      within half a cent of the exact amount. */
  lemma PreviewTermsNearest(subtotal: int, fee: Dec, cents: int)
    ensures FlatTerm(Dec(cents, 2)) == cents
    ensures 2 * Abs(fee.units * 100 - FlatTerm(fee) * Pow10(fee.scale)) <= Pow10(fee.scale)
    ensures 2 * Abs(subtotal * fee.units - PercentTerm(subtotal, fee) * (100 * Pow10(fee.scale)))
              <= 100 * Pow10(fee.scale)
  {
    assert Pow10(2) == 100 by { assert Pow10(1) == 10; }
    RoundDivExact(cents, 100);
    RoundDivNearestEven(fee.units * 100, Pow10(fee.scale));
    RoundDivNearestEven(subtotal * fee.units, 100 * Pow10(fee.scale));
  }

  /** The preview refuses exactly what an order of the same quantity on
      the same listing refuses. */
  lemma PreviewRefusesLikeOrder(l: Listing, buyer: nat, qtyIn: Option<Json>, fp: FeeIn, ff: FeeIn)
    ensures PreviewOf(l, qtyIn, fp, ff).PreviewRefused? <==> OrderReply(map[l.id := l], buyer, Some(l.id), qtyIn).Refused?
    ensures PreviewOf(l, qtyIn, fp, ff).PreviewRefused? ==>
              PreviewOf(l, qtyIn, fp, ff).why == OrderReply(map[l.id := l], buyer, Some(l.id), qtyIn).why
  {
  }

  /** Preview and checkout can quote different commissions for the same
      fees: 0.5% of 1.00 plus 0.01 is 0.015, which rounds to 0.02 at once
      but to 0.00 + 0.01 term by term. */
  lemma PreviewAndCheckoutDiffer()
    ensures var l := Listing(1, 1, Active, 1, 100, "EUR");
      PreviewOf(l, None, FeeValue(Dec(5, 1)), FeeValue(Dec(1, 2))).commission == 1
      && CheckoutOf(map[1 := l], 1, 1, 1, Some(50), Some(1)).commission == 2
  {
    assert Pow10(1) == 10;
    assert Pow10(2) == 100;
    assert RoundDiv(500, 1000) == 0;
    assert RoundDiv(100, 100) == 1;
    assert RoundDiv(15000, 10000) == 2;
  }

  // ---------------------------------------------------------------------
  // Permissions

  /** Who sends the request. */
  datatype Requester = Anonymous | Member(id: nat, isStaff: bool)

  predicate IsStaff(who: Requester) { who.Member? && who.isStaff }

  const SafeMethods: set<string> := {"GET", "HEAD", "OPTIONS"}

  /** `IsAdminOrReadOnly.has_permission`. */
  predicate AdminOrReadOnly(verb: string, who: Requester)
  {
    verb in SafeMethods || IsStaff(who)
  }

  /** `IsAdminOrIsSelf.has_object_permission`, the object being user `obj`. */
  predicate AdminOrIsSelf(who: Requester, obj: nat)
  {
    IsStaff(who) || (who.Member? && who.id == obj)
  }

  /** Reading is open to all; anything else only to staff. */
  lemma ReadOnlyUnlessStaff(verb: string, who: Requester)
    ensures !IsStaff(who) ==> (AdminOrReadOnly(verb, who) <==> verb in {"GET", "HEAD", "OPTIONS"})
    ensures IsStaff(who) ==> AdminOrReadOnly(verb, who)
  {
  }

  /** A user record is open only to staff and to that user; never to an
      anonymous request. */
  lemma SelfOrStaffOnly(who: Requester, obj: nat)
    ensures who.Anonymous? ==> !AdminOrIsSelf(who, obj)
    ensures who.Member? && !who.isStaff ==> (AdminOrIsSelf(who, obj) <==> who.id == obj)
  {
  }

  // ---------------------------------------------------------------------
  // Checkout summary

  /** What the checkout summary answers. */
  datatype Access = OrderMissing | Granted | Forbidden | Crashed(error: string)

  const MissingPermissionDenied := "AttributeError: module 'rest_framework.permissions' has no attribute 'PermissionDenied'"

  /** Who may see an order's summary: staff, the buyer, or a request whose
      `email` parameter matches the buyer's e-mail ignoring case. */
  predicate MaySee(buyer: nat, buyerEmail: string, who: Requester, email: Option<string>)
  {
    (who.Member? && (who.isStaff || who.id == buyer))
    || (email.Some? && email.value != "" && Lower(buyerEmail) == Lower(email.value))
  }

  /** `CheckoutSummaryView.get_object` as written: the refusal names
      `PermissionDenied` on the permissions module, which does not define
      it, so a refused request fails with `AttributeError`. */
  function SummaryAsWritten(order: Option<(nat, string)>, who: Requester, email: Option<string>): (r: Access)
    ensures r == Granted <==> order.Some? && MaySee(order.value.0, order.value.1, who, email)
    ensures r.Crashed? <==> order.Some? && !MaySee(order.value.0, order.value.1, who, email)
    ensures r != Forbidden
  {
    if order.None? then OrderMissing
    else if MaySee(order.value.0, order.value.1, who, email) then Granted
    else Crashed(MissingPermissionDenied)
  }

  /** The refusal as intended: 403 (`exceptions.PermissionDenied`). */
  function SummaryAccess(order: Option<(nat, string)>, who: Requester, email: Option<string>): Access
  {
    if order.None? then OrderMissing
    else if MaySee(order.value.0, order.value.1, who, email) then Granted
    else Forbidden
  }

  /** As written, an anonymous request without the buyer's e-mail is a
      server error instead of a refusal. */
  lemma DeniedSummaryCrashes(buyer: nat, buyerEmail: string)
    ensures SummaryAsWritten(Some((buyer, buyerEmail)), Anonymous, None) == Crashed(MissingPermissionDenied)
  {
  }

  /** As intended, the summary is granted exactly to those who may see it
      and refused with 403 to everyone else. */
  lemma SummaryVisibleIff(order: Option<(nat, string)>, who: Requester, email: Option<string>)
    ensures SummaryAccess(order, who, email) == Granted <==> order.Some? && MaySee(order.value.0, order.value.1, who, email)
    ensures SummaryAccess(order, who, email) == Forbidden <==> order.Some? && !MaySee(order.value.0, order.value.1, who, email)
    ensures SummaryAccess(order, who, email) != Forbidden ==> SummaryAccess(order, who, email) == SummaryAsWritten(order, who, email)
  {
  }

  /** The e-mail match ignores case. */
  lemma SummaryEmailIgnoresCase(buyer: nat, buyerEmail: string, email: string)
    requires email != ""
    ensures MaySee(buyer, buyerEmail, Anonymous, Some(email)) <==> Lower(buyerEmail) == Lower(email)
  {
  }
}
