/** The validation rules and computed fields of the REST serializers:
    registration, reviews, orders, checkout, monitors and uploads; the PRO
    subscription item; whether a listing is sold out or needs a change of
    name; and marking a listing's tickets sold. Times are seconds; prices
    are cents. */
module Serializers {
  import opened Wrappers
  import opened Text
  import Json
  import Views

  /** What a `validate` method answers: the validated value, or the
      `ValidationError` it raises, as field and message. */
  datatype Checked<T> = Valid(value: T) | Invalid(field: string, message: string)

  // ---------------------------------------------------------------------
  // Registration

  /** `email.lower().strip()`. */
  function NormalizeEmail(email: string): (r: string)
    ensures IsLowered(r) && |r| <= |email|
  {
    var t := Lower(email);
    var r := Strip(t);
    InfixLowered(t, r);
    r
  }

  /** A piece of a lowered string is lowered. */
  lemma InfixLowered(t: string, r: string)
    requires IsLowered(t)
    requires r == Strip(t)
    ensures IsLowered(r)
  {
    var l := StripLeft(t);
    assert IsSuffix(l, t);
    assert forall i :: 0 <= i < |l| ==> l[i] == t[|t| - |l| + i];
    assert IsPrefix(r, l);
    assert forall i :: 0 <= i < |r| ==> r[i] == l[i];
  }

  /** `UserRegistrationSerializer.validate`: terms, then privacy, then the
      normalized e-mail must not be registered yet. */
  function RegistrationCheck(terms: bool, privacy: bool, email: string, registered: set<string>)
    : (r: Checked<string>)
  {
    if !terms then Invalid("accepted_terms", "terms must be accepted")
    else if !privacy then Invalid("accepted_privacy", "privacy must be accepted")
    else if NormalizeEmail(email) in registered then Invalid("email", "email already registered")
    else Valid(NormalizeEmail(email))
  }

  /** Normalizing twice changes nothing. */
  lemma NormalizeIdempotent(email: string)
    ensures NormalizeEmail(NormalizeEmail(email)) == NormalizeEmail(email)
  {
    var r := NormalizeEmail(email);
    LowerOfLowered(r);
    if |r| > 0 {
      StripOfBare(r);
    }
  }

  /** A registration is accepted exactly when both consents are given and
      the normalized e-mail is new; the stored e-mail is normalized. */
  lemma RegistrationAcceptedIff(terms: bool, privacy: bool, email: string, registered: set<string>)
    ensures RegistrationCheck(terms, privacy, email, registered).Valid? <==>
              terms && privacy && NormalizeEmail(email) !in registered
    ensures RegistrationCheck(terms, privacy, email, registered).Valid? ==>
              var e := RegistrationCheck(terms, privacy, email, registered).value;
              IsLowered(e) && NormalizeEmail(e) == e
  {
    NormalizeIdempotent(email);
  }

  /** Once an address is registered, the same address in any case or
      with surrounding blanks is refused. */
  lemma SecondRegistrationRefused(email: string, again: string, registered: set<string>)
    requires RegistrationCheck(true, true, email, registered).Valid?
    requires NormalizeEmail(again) == NormalizeEmail(email)
    ensures RegistrationCheck(true, true, again, registered + {RegistrationCheck(true, true, email, registered).value})
            == Invalid("email", "email already registered")
  {
  }

  // ---------------------------------------------------------------------
  // Monitors and reviews

  /** `MonitoraggioSerializer.validate`: the event and performance given,
      or else those of the monitor being updated; one must exist. */
  function MonitorCheck(event: Option<nat>, performance: Option<nat>, instance: Option<(Option<nat>, Option<nat>)>)
    : (r: Checked<()>)
  {
    var ev := if event.Some? then event else if instance.Some? then instance.value.0 else None;
    var perf := if performance.Some? then performance else if instance.Some? then instance.value.1 else None;
    if ev.None? && perf.None? then Invalid("", "provide event or performance") else Valid(())
  }

  /** A new monitor needs an event or a performance; an update may leave
      both out when the monitor already has one. */
  lemma MonitorNeedsTarget(event: Option<nat>, performance: Option<nat>, instance: Option<(Option<nat>, Option<nat>)>)
    ensures instance.None? ==> (MonitorCheck(event, performance, instance).Valid? <==> event.Some? || performance.Some?)
    ensures instance.Some? && (instance.value.0.Some? || instance.value.1.Some?) ==>
              MonitorCheck(None, None, instance).Valid?
  {
  }

  /** An order as a review sees it: its buyer and its listing's seller. */
  datatype OrderRef = OrderRef(buyer: Option<nat>, seller: nat)

  /** `RecensioneSerializer.validate`: the buyer defaults to the signed-in
      user; the rating lies in 1..5; a given order must be the buyer's and,
      when a seller is named, that seller's. The value is the buyer. */
  function ReviewCheck(order: Option<OrderRef>, seller: Option<nat>, buyer: Option<nat>, instanceBuyer: Option<nat>,
                       signedIn: Option<nat>, rating: Option<int>): (r: Checked<Option<nat>>)
  {
    var b := ReviewBuyer(buyer, instanceBuyer, signedIn);
    if rating.Some? && (rating.value < 1 || rating.value > 5) then Invalid("rating", "rating must be 1..5")
    else if order.Some? && order.value.buyer != b then Invalid("order", "numero d'ordine non corrispondente")
    else if order.Some? && seller.Some? && order.value.seller != seller.value then
      Invalid("order", "numero d'ordine non corrispondente")
    else Valid(b)
  }

  /** The buyer given, else the reviewed one's, else the signed-in user. */
  function ReviewBuyer(buyer: Option<nat>, instanceBuyer: Option<nat>, signedIn: Option<nat>): Option<nat>
  {
    if buyer.Some? then buyer else if instanceBuyer.Some? then instanceBuyer else signedIn
  }

  /** A review passes exactly when its rating is in range and its order,
      if any, matches the buyer and the named seller. */
  lemma ReviewAcceptedIff(order: Option<OrderRef>, seller: Option<nat>, buyer: Option<nat>, instanceBuyer: Option<nat>,
                          signedIn: Option<nat>, rating: Option<int>)
    ensures var r := ReviewCheck(order, seller, buyer, instanceBuyer, signedIn, rating);
      r.Valid? <==>
        (rating.None? || 1 <= rating.value <= 5)
        && (order.Some? ==> order.value.buyer == ReviewBuyer(buyer, instanceBuyer, signedIn)
                            && (seller.Some? ==> order.value.seller == seller.value))
    ensures var r := ReviewCheck(order, seller, buyer, instanceBuyer, signedIn, rating);
      r.Valid? ==> (buyer.Some? ==> r.value == buyer) && (buyer.None? && instanceBuyer.None? ==> r.value == signedIn)
  {
  }

  // ---------------------------------------------------------------------
  // Orders and checkout

  /** `OrderTicketSerializer.validate`: the quantity (default 1) and unit
      price must be positive and within the listing; the total is always
      recomputed and the currency defaults to the listing's or "EUR". */
  function OrderCheck(listing: Option<(nat, string)>, qty: Option<int>, unitPrice: Option<int>, currency: Option<string>)
    : (r: Checked<(int, string)>)
  {
    var q := if qty.Some? then qty.value else 1;
    if q <= 0 then Invalid("qty", "must be > 0")
    else if unitPrice.None? || unitPrice.value <= 0 then Invalid("unit_price", "must be > 0")
    else if listing.Some? && q > listing.value.0 then Invalid("qty", "exceeds listing qty")
    else Valid((unitPrice.value * q, if currency.Some? then currency.value else if listing.Some? then listing.value.1 else "EUR"))
  }

  /** An accepted order is for a positive quantity within the listing; its
      total is a positive multiple of the unit price, at least one unit. */
  lemma OrderCheckAccepted(listing: Option<(nat, string)>, qty: Option<int>, unitPrice: Option<int>, currency: Option<string>)
    requires OrderCheck(listing, qty, unitPrice, currency).Valid?
    ensures var (total, cur) := OrderCheck(listing, qty, unitPrice, currency).value;
      var q := if qty.Some? then qty.value else 1;
      unitPrice.Some? && 0 < unitPrice.value <= total && q >= 1 && total == unitPrice.value * q
      && (listing.Some? ==> q <= listing.value.0)
      && (currency.None? && listing.None? ==> cur == "EUR")
  {
    var q := if qty.Some? then qty.value else 1;
    assert unitPrice.value * q == unitPrice.value + unitPrice.value * (q - 1);
  }

  /** `CheckoutStartSerializer.validate`, after the field check that the
      quantity is at least 1. */
  function CheckoutCheck(status: Views.ListingStatus, available: nat, qty: int, terms: bool, privacy: bool,
                         createAccount: bool, password: Option<string>): (r: Checked<()>)
  {
    if qty < 1 then Invalid("qty", "Ensure this value is greater than or equal to 1.")
    else if status != Views.Active then Invalid("listing", "listing not active")
    else if qty > available then Invalid("qty", "exceeds listing qty (" + NatToString(available) + " available)")
    else if !terms then Invalid("accepted_terms", "terms must be accepted")
    else if !privacy then Invalid("accepted_privacy", "privacy must be accepted")
    else if createAccount && (password.None? || password.value == "") then
      Invalid("password", "required when create_account is true")
    else Valid(())
  }

  /** A checkout that passed validation is not refused when the listing is
      locked, provided the listing did not change in between. */
  lemma ValidCheckoutStarts(listings: map<nat, Views.Listing>, listingId: nat, buyer: nat, qty: nat, terms: bool,
                            privacy: bool, createAccount: bool, password: Option<string>,
                            feePercent: Option<int>, feeFlat: Option<int>)
    requires listingId in listings
    requires CheckoutCheck(listings[listingId].status, listings[listingId].qty, qty, terms, privacy,
                           createAccount, password).Valid?
    ensures Views.CheckoutOf(listings, buyer, listingId, qty, feePercent, feeFlat).Started?
  {
    Views.CheckoutStartsIffAvailable(listings, buyer, listingId, qty, feePercent, feeFlat);
  }

  /** Validation passes exactly for an active listing with enough tickets,
      both consents, and a password whenever an account is to be made. */
  lemma CheckoutAcceptedIff(status: Views.ListingStatus, available: nat, qty: int, terms: bool, privacy: bool,
                            createAccount: bool, password: Option<string>)
    ensures CheckoutCheck(status, available, qty, terms, privacy, createAccount, password).Valid? <==>
              1 <= qty <= available && status == Views.Active && terms && privacy
              && (createAccount ==> password.Some? && password.value != "")
  {
  }

  /** A checkout request as posted: each field present or missing. */
  datatype CheckoutRequest = CheckoutRequest(listing: Option<nat>, qty: Option<int>, email: Option<string>,
                                             firstName: Option<string>, lastName: Option<string>,
                                             phone: Option<string>, createAccount: bool, password: Option<string>,
                                             terms: Option<bool>, privacy: Option<bool>,
                                             feePercent: Option<Json.Json>, feeFlat: Option<Json.Json>)

  /** A text field as DRF's `CharField` checks it: a missing value is
      refused when the field is required; the value is stripped; a blank
      value is refused unless blanks are allowed; then the length bound and
      the field's own validator apply to the stripped text. */
  predicate TextOk(v: Option<string>, required: bool, allowBlank: bool, maxLength: Option<nat>, valid: string -> bool)
  {
    if v.None? then !required
    else
      var t := Strip(v.value);
      if t == "" then allowBlank
      else (maxLength.None? || |t| <= maxLength.value) && valid(t)
  }

  /** The error DRF reports for one text field, if any. */
  function TextErrors(name: string, v: Option<string>, required: bool, allowBlank: bool, maxLength: Option<nat>,
                      valid: string -> bool, invalid: string): (r: seq<(string, string)>)
    ensures |r| <= 1
    ensures r == [] <==> TextOk(v, required, allowBlank, maxLength, valid)
    ensures r != [] ==> r[0].0 == name
  {
    if v.None? then (if required then [(name, "This field is required.")] else [])
    else
      var t := Strip(v.value);
      if t == "" then (if allowBlank then [] else [(name, "This field may not be blank.")])
      else if maxLength.Some? && |t| > maxLength.value then
        [(name, "Ensure this field has no more than " + NatToString(maxLength.value) + " characters.")]
      else if !valid(t) then [(name, invalid)]
      else []
  }

  /** Any text: the validator of a plain `CharField`. */
  predicate AnyText(t: string) { true }

  /** The number of digits `Decimal.as_tuple()` lists for `d`. */
  function DigitCount(d: Views.Dec): (r: nat)
    ensures r >= 1
  {
    |NatToString(Json.Abs(d.units))|
  }

  /** A decimal as `DecimalField.validate_precision` measures it: the
      digits in all and before the point, a value below one counting its
      leading fraction zeros. */
  function TotalDigits(d: Views.Dec): nat
  {
    if DigitCount(d) > d.scale then DigitCount(d) else d.scale
  }

  function WholeDigits(d: Views.Dec): nat
  {
    if DigitCount(d) > d.scale then DigitCount(d) - d.scale else 0
  }

  /** `validate_precision` accepts `d`: no more digits in all, after the
      point and before it than the field allows. */
  predicate PrecisionOk(d: Views.Dec, maxDigits: nat, places: nat)
  {
    TotalDigits(d) <= maxDigits && d.scale <= places && WholeDigits(d) + places <= maxDigits
  }

  /** The error `validate_precision` reports, if any. */
  function PrecisionErrors(name: string, d: Views.Dec, maxDigits: nat, places: nat): (r: seq<(string, string)>)
    ensures |r| <= 1
    ensures r == [] <==> PrecisionOk(d, maxDigits, places)
    ensures r != [] ==> r[0].0 == name
  {
    if TotalDigits(d) > maxDigits then
      [(name, "Ensure that there are no more than " + NatToString(maxDigits) + " digits in total.")]
    else if d.scale > places then
      [(name, "Ensure that there are no more than " + NatToString(places) + " decimal places.")]
    else if WholeDigits(d) + places > maxDigits then
      [(name, "Ensure that there are no more than " + Json.IntToString(maxDigits - places)
              + " digits before the decimal point.")]
    else []
  }

  /** The stripped text of a posted decimal is accepted: at most 1000
      characters, read by `Decimal`, within the field's precision. */
  predicate DecimalTextOk(t: string, maxDigits: nat, places: nat)
  {
    |t| <= 1000 && Views.ParseDecimal(t).Some? && PrecisionOk(Views.ParseDecimal(t).value, maxDigits, places)
  }

  function DecimalTextErrors(name: string, t: string, maxDigits: nat, places: nat): (r: seq<(string, string)>)
    ensures |r| <= 1
    ensures r == [] <==> DecimalTextOk(t, maxDigits, places)
    ensures r != [] ==> r[0].0 == name
  {
    if |t| > 1000 then [(name, "String value too large.")]
    else
      var d := Views.ParseDecimal(t);
      if d.None? then [(name, "A valid number is required.")]
      else PrecisionErrors(name, d.value, maxDigits, places)
  }

  /** An optional `DecimalField(max_digits, decimal_places)` accepts the
      posted value: absent, or not null with a text `str` writes that the
      field accepts once stripped. */
  predicate DecimalOk(v: Option<Json.Json>, maxDigits: nat, places: nat)
  {
    v.None? || (v.value != Json.JNull && DecimalTextOk(Strip(Json.PyStr(v.value)), maxDigits, places))
  }

  /** The error DRF reports for one optional decimal field, if any. */
  function DecimalErrors(name: string, v: Option<Json.Json>, maxDigits: nat, places: nat): (r: seq<(string, string)>)
    ensures |r| <= 1
    ensures r == [] <==> DecimalOk(v, maxDigits, places)
    ensures r != [] ==> r[0].0 == name
  {
    if v.None? then []
    else if v.value == Json.JNull then [(name, "This field may not be null.")]
    else DecimalTextErrors(name, Strip(Json.PyStr(v.value)), maxDigits, places)
  }

  /** All the field checks pass: the listing exists, the quantity, both
      consents and the buyer's e-mail, first and last name are given; the
      names have at most 100 characters and the phone at most 20; a
      password, when given, is not blank; a fee, when given, is a number
      with at most two decimal places, up to 999.99 for the percentage and
      99999999.99 for the flat fee. `isEmail` is Django's e-mail
      validator. */
  predicate FieldsOk(req: CheckoutRequest, listings: map<nat, Views.Listing>, isEmail: string -> bool)
  {
    req.listing.Some? && req.listing.value in listings
    && req.qty.Some? && req.qty.value >= 1
    && TextOk(req.email, true, false, None, isEmail)
    && TextOk(req.firstName, true, false, Some(100), AnyText)
    && TextOk(req.lastName, true, false, Some(100), AnyText)
    && TextOk(req.phone, false, true, Some(20), AnyText)
    && TextOk(req.password, false, false, None, AnyText)
    && req.terms.Some? && req.privacy.Some?
    && DecimalOk(req.feePercent, 5, 2)
    && DecimalOk(req.feeFlat, 10, 2)
  }

  /** The errors of the field checks of `CheckoutStartSerializer`, one per
      failing field in declaration order; DRF reports them all together. */
  function FieldErrors(req: CheckoutRequest, listings: map<nat, Views.Listing>, isEmail: string -> bool)
    : (r: seq<(string, string)>)
    ensures r == [] <==> FieldsOk(req, listings, isEmail)
  {
    (if req.listing.None? then [("listing", "This field is required.")]
     else if req.listing.value !in listings then
       [("listing", "Invalid pk \"" + NatToString(req.listing.value) + "\" - object does not exist.")]
     else [])
    + (if req.qty.None? then [("qty", "This field is required.")]
       else if req.qty.value < 1 then [("qty", "Ensure this value is greater than or equal to 1.")]
       else [])
    + TextErrors("email", req.email, true, false, None, isEmail, "Enter a valid email address.")
    + TextErrors("first_name", req.firstName, true, false, Some(100), AnyText, "")
    + TextErrors("last_name", req.lastName, true, false, Some(100), AnyText, "")
    + TextErrors("phone_number", req.phone, false, true, Some(20), AnyText, "")
    + TextErrors("password", req.password, false, false, None, AnyText, "")
    + (if req.terms.None? then [("accepted_terms", "This field is required.")] else [])
    + (if req.privacy.None? then [("accepted_privacy", "This field is required.")] else [])
    + DecimalErrors("fee_percent", req.feePercent, 5, 2)
    + DecimalErrors("fee_flat", req.feeFlat, 10, 2)
  }

  /** The value a text field passes on: stripped. */
  function Cleaned(v: Option<string>): Option<string>
  {
    if v.Some? then Some(Strip(v.value)) else None
  }

  /** What a checkout request gets back: accepted, or the errors by field. */
  datatype StartVerdict = Accepted | Refused(errors: seq<(string, string)>)

  /** `CheckoutStartSerializer(data=...).is_valid()`: the field checks, and
      only when they all pass, `validate` on the cleaned values. */
  function CheckoutStart(req: CheckoutRequest, listings: map<nat, Views.Listing>, isEmail: string -> bool)
    : (r: StartVerdict)
    ensures r.Refused? ==> r.errors != []
  {
    var errs := FieldErrors(req, listings, isEmail);
    if errs != [] then Refused(errs)
    else
      var l := listings[req.listing.value];
      match CheckoutCheck(l.status, l.qty, req.qty.value, req.terms.value, req.privacy.value,
                          req.createAccount, Cleaned(req.password))
      case Valid(_) => Accepted
      case Invalid(f, m) => Refused([(f, m)])
  }

  /** A checkout request is accepted exactly when every field check passes
      and `validate` accepts the cleaned values: the listing is active and
      holds the quantity, both consents are given, and an account to be
      made has a password. */
  lemma CheckoutStartAcceptedIff(req: CheckoutRequest, listings: map<nat, Views.Listing>, isEmail: string -> bool)
    ensures CheckoutStart(req, listings, isEmail) == Accepted <==>
              FieldsOk(req, listings, isEmail)
              && var l := listings[req.listing.value];
              req.qty.value <= l.qty && l.status == Views.Active && req.terms.value && req.privacy.value
              && (req.createAccount ==> req.password.Some?)
  {
    if FieldsOk(req, listings, isEmail) {
      var l := listings[req.listing.value];
      CheckoutAcceptedIff(l.status, l.qty, req.qty.value, req.terms.value, req.privacy.value,
                          req.createAccount, Cleaned(req.password));
    }
  }

  /** A blank password is refused by its field check even when no account
      is to be made. */
  lemma BlankPasswordRefused(req: CheckoutRequest, listings: map<nat, Views.Listing>, isEmail: string -> bool)
    requires req.password.Some? && Strip(req.password.value) == ""
    ensures CheckoutStart(req, listings, isEmail).Refused?
    ensures ("password", "This field may not be blank.") in CheckoutStart(req, listings, isEmail).errors
  {
    var pw := TextErrors("password", req.password, false, false, None, AnyText, "");
    assert pw == [("password", "This field may not be blank.")];
    assert pw[0] in pw;
  }

  /** A percentage fee that `Decimal` cannot read, or one with more than
      two decimal places, is refused by its field check whatever the rest
      of the request. */
  lemma BadFeeRefused(req: CheckoutRequest, listings: map<nat, Views.Listing>, isEmail: string -> bool)
    requires req.feePercent == Some(Json.JStr("abc")) || req.feePercent == Some(Json.JStr("1.234"))
    ensures CheckoutStart(req, listings, isEmail).Refused?
    ensures req.feePercent == Some(Json.JStr("abc")) ==>
              ("fee_percent", "A valid number is required.") in CheckoutStart(req, listings, isEmail).errors
    ensures req.feePercent == Some(Json.JStr("1.234")) ==>
              ("fee_percent", "Ensure that there are no more than 2 decimal places.")
                in CheckoutStart(req, listings, isEmail).errors
  {
    var e := DecimalErrors("fee_percent", req.feePercent, 5, 2);
    if req.feePercent.value.s == "abc" {
      NotANumberRefused();
    } else {
      ThreePlacesRefused();
    }
    assert e[0] in e;
  }

  /** "abc" is not a number `Decimal` reads. */
  lemma NotANumberRefused()
    ensures DecimalErrors("fee_percent", Some(Json.JStr("abc")), 5, 2)
              == [("fee_percent", "A valid number is required.")]
  {
    StripOfBare("abc");
    LettersUnread();
  }

  lemma LettersUnread()
    ensures Views.ParseDecimal("abc").None?
  {
    var t := "abc";
    assert !Views.AllDigits(t) by { assert !IsDigit(t[0]); }
    assert Views.DotAt(t, 0) == 3 by {
      Views.DotAtNone(t, 0);
    }
    assert t[..3] + "" == t;
  }

  /** 1.234 has three decimal places, one more than a fee allows. */
  lemma ThreePlacesRefused()
    ensures DecimalErrors("fee_percent", Some(Json.JStr("1.234")), 5, 2)
              == [("fee_percent", "Ensure that there are no more than 2 decimal places.")]
  {
    StripOfBare("1.234");
    ThreePlacesRead();
    var d := Views.Dec(1234, 3);
    assert TotalDigits(d) <= 5 by {
      FourDigits();
    }
    assert NatToString(2) == "2";
    assert "Ensure that there are no more than " + "2" + " decimal places."
             == "Ensure that there are no more than 2 decimal places.";
    assert PrecisionErrors("fee_percent", d, 5, 2)
             == [("fee_percent", "Ensure that there are no more than 2 decimal places.")];
  }

  lemma ThreePlacesRead()
    ensures Views.ParseDecimal("1.234") == Some(Views.Dec(1234, 3))
  {
    assert DigitsValue("1") == 1;
    assert DigitsValue("234") == 234 by {
      assert "234"[..2] == "23" && "23"[..1] == "2";
    }
    assert Views.Pow10(3) == 1000;
    Views.ParseDecimalValue("1", "234", 1234);
    assert "1" + "." + "234" == "1.234";
  }

  lemma FourDigits()
    ensures DigitCount(Views.Dec(1234, 3)) == 4
  {
    assert NatToString(1234) == NatToString(123) + [DigitChar(4)];
    assert NatToString(123) == NatToString(12) + [DigitChar(3)];
    assert NatToString(12) == NatToString(1) + [DigitChar(2)];
  }

  /** The docstring's flat fee of 2.5, posted as a JSON number, passes its
      field check. */
  lemma FloatFlatFeeAccepted()
    ensures DecimalOk(Some(Json.JFloat(25, 1)), 10, 2)
  {
    var t := Json.FloatText(25, 1);
    assert Json.PyStr(Json.JFloat(25, 1)) == t;
    FloatFlatFeeText();
    Views.FloatTextReadsBack(25, 1);
    TwoDigitPrecision(25, 1, 10, 2);
    assert DecimalTextOk(t, 10, 2);
  }

  /** The float 2.5 is written "2.5", with nothing to strip. */
  lemma FloatFlatFeeText()
    ensures Strip(Json.FloatText(25, 1)) == Json.FloatText(25, 1)
  {
    FloatFlatFeeDigits();
    var t := "2.5";
    assert !IsSpace(t[0]) && !IsSpace(t[|t| - 1]);
    StripOfBare(t);
  }

  lemma FloatFlatFeeDigits()
    ensures Json.FloatText(25, 1) == "2.5"
  {
    assert NatToString(25) == "25" by {
      assert NatToString(2) == "2";
    }
    assert PadNat(25, 2) == "25";
    assert Json.PointedText(25, 1) == "2.5";
  }

  lemma TwoDigitPrecision(units: nat, scale: nat, maxDigits: nat, places: nat)
    requires 10 <= units < 100 && 1 <= scale <= 2 && scale <= places && places + 2 - scale <= maxDigits
    ensures PrecisionOk(Views.Dec(units, scale), maxDigits, places)
  {
    assert DigitCount(Views.Dec(units, scale)) == 2 by {
      assert NatToString(units) == NatToString(units / 10) + NatToString(units % 10);
    }
  }

  /** A first or last name longer than 100 characters after stripping is
      refused, whatever the rest of the request. */
  lemma LongNameRefused(req: CheckoutRequest, listings: map<nat, Views.Listing>, isEmail: string -> bool)
    requires (req.firstName.Some? && |Strip(req.firstName.value)| > 100)
             || (req.lastName.Some? && |Strip(req.lastName.value)| > 100)
    ensures CheckoutStart(req, listings, isEmail).Refused?
  {
  }

  // ---------------------------------------------------------------------
  // Uploads

  const MB := 1024 * 1024

  /** The index of the last `c` in `s`, or -1: Python's `str.rfind`. */
  function RFind(s: string, c: char): (r: int)
    ensures -1 <= r < |s|
    ensures r >= 0 ==> s[r] == c
    ensures forall j :: r < j < |s| ==> s[j] != c
  {
    if s == [] then -1
    else if s[|s| - 1] == c then |s| - 1
    else RFind(s[..|s| - 1], c)
  }

  /** The extension `os.path.splitext` gives: from the last dot of the last
      path component, unless everything before that dot in the component
      is dots. */
  function SplitExt(p: string): (r: string)
    ensures r == "" || (IsSuffix(r, p) && r[0] == '.' && forall j :: 1 <= j < |r| ==> r[j] != '.')
  {
    var sep := RFind(p, '/');
    var dot := RFind(p, '.');
    if dot > sep && exists i :: sep + 1 <= i < dot && p[i] != '.' then p[dot..] else ""
  }

  /** `BigliettoUploadSerializer.validate_path_file`: at most 2MB, then a
      ".pdf" extension in any case. */
  function TicketFileCheck(name: string, size: nat): (r: Checked<()>)
  {
    if size > 2 * MB then Invalid("path_file", "file too large (max 2MB)")
    else if Lower(SplitExt(name)) != ".pdf" then Invalid("path_file", "file must be PDF")
    else Valid(())
  }

  /** `TicketUploadPDFSerializer.validate_path_file`: a name ending in
      ".pdf" in any case, then at most 15MB. */
  function UploadPdfCheck(name: Option<string>, size: nat): (r: Checked<()>)
  {
    var n := Lower(if name.Some? then name.value else "");
    if !IsSuffix(".pdf", n) then Invalid("path_file", "file must be PDF")
    else if size > 15 * MB then Invalid("path_file", "file too large (max 15MB)")
    else Valid(())
  }

  /** A file the ticket upload accepts, the PDF upload accepts as well. */
  lemma TicketFileAcceptedByUpload(name: string, size: nat)
    requires TicketFileCheck(name, size).Valid?
    ensures UploadPdfCheck(Some(name), size).Valid?
  {
    var e := SplitExt(name);
    assert Lower(e) == ".pdf";
    LowerSuffix(e, name);
  }

  /** Lower-casing keeps a suffix a suffix. */
  lemma LowerSuffix(e: string, s: string)
    requires IsSuffix(e, s)
    ensures IsSuffix(Lower(e), Lower(s))
  {
    var n := Lower(s);
    forall j | 0 <= j < |e|
      ensures n[|n| - |e|..][j] == Lower(e)[j]
    {
      assert e[j] == s[|s| - |e| + j];
    }
  }

  /** The two rules differ: a file named ".pdf" (a hidden file with no
      extension) passes the PDF upload but not the ticket upload, and an
      oversized non-PDF gets a different complaint from each. */
  lemma UploadRulesDiffer()
    ensures TicketFileCheck(".pdf", 10) == Invalid("path_file", "file must be PDF")
    ensures UploadPdfCheck(Some(".pdf"), 10) == Valid(())
    ensures TicketFileCheck("a.txt", 20 * MB).message == "file too large (max 2MB)"
    ensures UploadPdfCheck(Some("a.txt"), 20 * MB).message == "file must be PDF"
  {
    assert RFind(".pdf", '.') == 0;
    assert SplitExt(".pdf") == "";
    assert Lower(".pdf") == ".pdf";
    assert Lower("a.txt") == "a.txt";
    assert !IsSuffix(".pdf", "a.txt") by { assert "a.txt"[1..] != ".pdf"; }
  }

  // ---------------------------------------------------------------------
  // PRO subscriptions

  const Day := 86400

  datatype Event = Event(id: nat, name: string)
  datatype Performance = Performance(startsAtUtc: Option<int>, event: Option<Event>)
  /** An `Abbonamento`: start, the optional `expires_at`, `data_fine`, the
      plan's `periodo_mesi`, and `attivo`. */
  datatype Subscription = Subscription(start: Option<int>, expiresAt: Option<int>, end: Option<int>,
                                       planMonths: Option<int>, active: bool)
  /** A `Monitoraggio` with its subscription and whether any of its
      notifications was SENT. */
  datatype Monitor = Monitor(id: nat, event: Option<Event>, performance: Option<Performance>, query: Option<string>,
                             subscription: Option<Subscription>, sentAlerts: bool)

  /** The PRO expiry: `expires_at`, else `data_fine`, else `periodo_mesi`
      months of 30 days from the start, else 30 days from the start. */
  function Expiry(sub: Option<Subscription>): (r: Option<int>)
  {
    if sub.None? then None
    else
      var ab := sub.value;
      if ab.expiresAt.Some? then ab.expiresAt
      else if ab.end.Some? then ab.end
      else if ab.planMonths.Some? && ab.planMonths.value != 0 && ab.start.Some? then
        Some(ab.start.value + 30 * ab.planMonths.value * Day)
      else if ab.start.Some? then Some(ab.start.value + 30 * Day)
      else None
  }

  /** Each fallback is used only when those before it are missing, and a
      computed expiry never precedes the start for a plan of whole months. */
  lemma ExpiryFallbacks(sub: Subscription)
    ensures sub.expiresAt.Some? ==> Expiry(Some(sub)) == sub.expiresAt
    ensures sub.expiresAt.None? && sub.end.Some? ==> Expiry(Some(sub)) == sub.end
    ensures sub.expiresAt.None? && sub.end.None? ==> (Expiry(Some(sub)).Some? <==> sub.start.Some?)
    ensures sub.expiresAt.None? && sub.end.None? && sub.start.Some? && (sub.planMonths.None? || sub.planMonths.value >= 0)
            ==> Expiry(Some(sub)).value >= sub.start.value + 30 * Day
    ensures Expiry(None) == None
  {
    if sub.expiresAt.None? && sub.end.None? && sub.start.Some? && sub.planMonths.Some? && sub.planMonths.value > 0 {
      var m := sub.planMonths.value;
      assert 30 * m * Day == 30 * Day + 30 * (m - 1) * Day;
    }
  }

  /** A one-month plan expires when the default would. */
  lemma OneMonthPlanIsDefault(start: int, active: bool)
    ensures Expiry(Some(Subscription(Some(start), None, None, Some(1), active)))
         == Expiry(Some(Subscription(Some(start), None, None, None, active)))
  {
  }

  datatype ProStatus = Closed | Expired | Running | Pending

  /** "closed" once the event date is past; else "expired" once the
      subscription is; else "active" when an alert was sent; else "pending". */
  function StatusOf(eventDate: Option<int>, expires: Option<int>, sentAlerts: bool, now: int): ProStatus
  {
    if eventDate.Some? && eventDate.value < now then Closed
    else if expires.Some? && expires.value < now then Expired
    else if sentAlerts then Running
    else Pending
  }

  function StatusName(s: ProStatus): string
  {
    match s
    case Closed => "closed"
    case Expired => "expired"
    case Running => "active"
    case Pending => "pending"
  }

  function StatusLabel(s: ProStatus): string
  {
    match s
    case Closed => "Chiuso"
    case Expired => "Scaduto"
    case Running => "Attivo"
    case Pending => "Pending"
  }

  /** Statuses only move forward in time: a closed item stays closed, and
      an expired one stays expired or becomes closed. */
  lemma StatusMovesForward(eventDate: Option<int>, expires: Option<int>, sentAlerts: bool, now: int, later: int)
    requires now <= later
    ensures StatusOf(eventDate, expires, sentAlerts, now) == Closed ==> StatusOf(eventDate, expires, sentAlerts, later) == Closed
    ensures StatusOf(eventDate, expires, sentAlerts, now) == Expired ==>
              StatusOf(eventDate, expires, sentAlerts, later) in {Expired, Closed}
  {
  }

  /** Names and labels tell the statuses apart, and "active" means an alert
      was sent while neither the event nor the subscription is over. */
  lemma StatusNamesDistinct(a: ProStatus, b: ProStatus, eventDate: Option<int>, expires: Option<int>, sentAlerts: bool, now: int)
    ensures StatusName(a) == StatusName(b) <==> a == b
    ensures StatusLabel(a) == StatusLabel(b) <==> a == b
    ensures StatusOf(eventDate, expires, sentAlerts, now) == Running <==>
              sentAlerts && !(eventDate.Some? && eventDate.value < now) && !(expires.Some? && expires.value < now)
  {
  }

  /** The item `ProSubscriptionItemSerializer` shows. */
  datatype ProItem = ProItem(id: nat, eventId: Option<nat>, title: string, eventDate: Option<int>,
                             activatedAt: Option<int>, expiresAt: Option<int>, status: string, statusLabel: string)

  /** `ProSubscriptionItemSerializer.to_representation`; `firstStart`
      gives the earliest performance start of an event. */
  function ProItemOf(m: Monitor, firstStart: nat -> Option<int>, now: int): (r: ProItem)
    ensures r.expiresAt == Expiry(m.subscription)
    ensures r.activatedAt == (if m.subscription.Some? then m.subscription.value.start else None)
    ensures r.status == StatusName(StatusOf(r.eventDate, r.expiresAt, m.sentAlerts, now))
    ensures r.statusLabel == StatusLabel(StatusOf(r.eventDate, r.expiresAt, m.sentAlerts, now))
    ensures r.title != ""
  {
    var ev := if m.performance.Some? && m.performance.value.event.Some? then m.performance.value.event else m.event;
    var title := if ev.Some? && ev.value.name != "" then ev.value.name
                 else if m.query.Some? && m.query.value != "" then m.query.value
                 else "Evento";
    var eventDate := if m.performance.Some? && m.performance.value.startsAtUtc.Some? then m.performance.value.startsAtUtc
                     else if ev.Some? then firstStart(ev.value.id)
                     else None;
    var expires := Expiry(m.subscription);
    var status := StatusOf(eventDate, expires, m.sentAlerts, now);
    var eventId := if m.event.Some? then Some(m.event.value.id)
                   else if m.performance.Some? && m.performance.value.event.Some? then Some(m.performance.value.event.value.id)
                   else None;
    ProItem(m.id, eventId, title, eventDate, if m.subscription.Some? then m.subscription.value.start else None,
            expires, StatusName(status), StatusLabel(status))
  }

  /** The item's event is the monitor's own when it has one, and the
      performance's date wins over the event's first performance. */
  lemma ProItemSources(m: Monitor, firstStart: nat -> Option<int>, now: int)
    ensures m.event.Some? ==> ProItemOf(m, firstStart, now).eventId == Some(m.event.value.id)
    ensures m.performance.Some? && m.performance.value.startsAtUtc.Some? ==>
              ProItemOf(m, firstStart, now).eventDate == m.performance.value.startsAtUtc
    ensures m.event.None? && m.performance.None? ==>
              (ProItemOf(m, firstStart, now).eventId.None? && ProItemOf(m, firstStart, now).eventDate.None?)
  {
  }

  // ---------------------------------------------------------------------
  // Listing cards

  /** A performance start as read from `starts_at_utc` or `starts_at`: a
      time, or a string that `fromisoformat` refuses. */
  datatype Start = StartAt(t: int) | Unreadable

  /** `get_change_name_required`: with a readable start, whether it is at
      least 24 hours away; otherwise whether delivery is PDF or E_TICKET. */
  function ChangeNameRequired(startsAtUtc: Option<Start>, startsAt: Option<Start>, delivery: string, now: int): bool
  {
    var start := if startsAtUtc.Some? then startsAtUtc else startsAt;
    if start.Some? && start.value.StartAt? then start.value.t - now >= 24 * 3600
    else delivery in {"PDF", "E_TICKET"}
  }

  /** The rule and its fallback, and the rule only turns off as the event
      approaches. */
  lemma ChangeNameRule(startsAtUtc: Option<Start>, startsAt: Option<Start>, delivery: string, now: int, later: int)
    requires now <= later
    ensures startsAtUtc == Some(Unreadable) ==> ChangeNameRequired(startsAtUtc, startsAt, delivery, now) == (delivery in {"PDF", "E_TICKET"})
    ensures startsAtUtc.None? && startsAt.None? ==> ChangeNameRequired(startsAtUtc, startsAt, delivery, now) == (delivery in {"PDF", "E_TICKET"})
    ensures (startsAtUtc.Some? && startsAtUtc.value.StartAt?) ==>
              ChangeNameRequired(startsAtUtc, startsAt, delivery, later) ==> ChangeNameRequired(startsAtUtc, startsAt, delivery, now)
  {
  }

  /** The number of `members` marked sold in `isSold`. */
  function SoldCount(isSold: map<nat, bool>, members: seq<nat>): (r: nat)
    ensures r <= |members|
  {
    if members == [] then 0
    else
      var m := members[|members| - 1];
      SoldCount(isSold, members[..|members| - 1]) + (if m in isSold && isSold[m] then 1 else 0)
  }

  function QtyOrZero(qty: Option<int>): int { if qty.Some? then qty.value else 0 }

  /** `get_is_fully_sold`: sold sub-items reach the quantity (or 0). */
  predicate FullySold(isSold: map<nat, bool>, members: seq<nat>, qty: Option<int>)
  {
    SoldCount(isSold, members) >= QtyOrZero(qty)
  }

  /** A listing with no quantity is always fully sold, and one with all
      its sub-items sold is fully sold when it has at least `qty` of them. */
  lemma {:induction false} FullySoldCases(isSold: map<nat, bool>, members: seq<nat>, qty: Option<int>)
    ensures QtyOrZero(qty) <= 0 ==> FullySold(isSold, members, qty)
    ensures (forall m :: m in members ==> m in isSold && isSold[m]) && |members| >= QtyOrZero(qty)
            ==> FullySold(isSold, members, qty)
  {
    if forall m :: m in members ==> m in isSold && isSold[m] {
      AllSoldCount(isSold, members);
    }
  }

  lemma {:induction false} AllSoldCount(isSold: map<nat, bool>, members: seq<nat>)
    requires forall m :: m in members ==> m in isSold && isSold[m]
    ensures SoldCount(isSold, members) == |members|
  {
    if members != [] {
      AllSoldCount(isSold, members[..|members| - 1]);
    }
  }

  // ---------------------------------------------------------------------
  // Marking tickets sold

  /** What `MarkListingSoldSerializer.validate` answers. */
  datatype MarkVerdict = MarkOk | ListingMissing | MarkRejected(message: string)

  /** A listing as marking sees it: seller, quantity, and its sub-items
      (one `ListingSubitem` row each). */
  datatype SaleListing = SaleListing(seller: nat, qty: Option<int>, members: seq<nat>)

  /** The sub-item rows of the listing whose id is asked for. */
  function Matching(members: seq<nat>, ids: seq<nat>): (r: nat)
  {
    if members == [] then 0
    else Matching(members[..|members| - 1], ids) + (if members[|members| - 1] in ids then 1 else 0)
  }

  /** `MarkListingSoldSerializer.validate`: at least one id, an existing
      listing, staff or its seller, and every id among its sub-items. */
  function MarkCheck(listing: Option<SaleListing>, who: Views.Requester, ids: seq<nat>): MarkVerdict
  {
    if ids == [] then MarkRejected("Ensure this field has at least 1 elements.")
    else if listing.None? then ListingMissing
    else if !(Views.IsStaff(who) || (who.Member? && who.id == listing.value.seller)) then MarkRejected("not allowed")
    else if Matching(listing.value.members, ids) != |ids| then MarkRejected("some subitems do not belong to this listing")
    else MarkOk
  }

  /** Only staff and the seller may mark, and repeating an id is refused,
      since the rows are counted once each. */
  lemma MarkCheckCases(l: SaleListing, who: Views.Requester, id: nat)
    ensures !Views.IsStaff(who) && !(who.Member? && who.id == l.seller) ==> MarkCheck(Some(l), who, [id]) == MarkRejected("not allowed")
    ensures Views.IsStaff(who) && id in l.members && NoDup(l.members) ==> MarkCheck(Some(l), who, [id]) == MarkOk
    ensures Views.IsStaff(who) && NoDup(l.members) ==> MarkCheck(Some(l), who, [id, id]) != MarkOk
  {
    if NoDup(l.members) {
      MatchingOne(l.members, [id], id);
      MatchingOne(l.members, [id, id], id);
    }
  }

  predicate NoDup(xs: seq<nat>) { forall i, j :: 0 <= i < j < |xs| ==> xs[i] != xs[j] }

  /** Without repeated rows, asking for the ids of one sub-item matches at
      most one row, and exactly one when it is there. */
  lemma {:induction false} MatchingOne(members: seq<nat>, ids: seq<nat>, id: nat)
    requires NoDup(members) && forall x :: x in ids ==> x == id
    ensures Matching(members, ids) == (if id in members && ids != [] then 1 else 0)
  {
    if members != [] {
      var init := members[..|members| - 1];
      assert NoDup(init);
      MatchingOne(init, ids, id);
      var last := members[|members| - 1];
      assert members == init + [last];
      if ids != [] {
        assert ids[0] in ids;
      }
      assert last in ids <==> last == id && ids != [];
      assert id in members <==> id in init || last == id;
      if last == id {
        assert id !in init by {
          forall j | 0 <= j < |init|
            ensures init[j] != id
          {
            assert members[j] == init[j];
          }
        }
      }
    }
  }

  /** `isSold` after marking `ids`, one after the other. */
  function MarkAll(isSold: map<nat, bool>, ids: seq<nat>): (r: map<nat, bool>)
    ensures r.Keys == isSold.Keys
  {
    if ids == [] then isSold
    else
      var before := MarkAll(isSold, ids[..|ids| - 1]);
      var id := ids[|ids| - 1];
      if id in before && !before[id] then before[id := true] else before
  }

  /** How many sub-items marking `ids` flips from unsold to sold. */
  function Flips(isSold: map<nat, bool>, ids: seq<nat>): nat
  {
    if ids == [] then 0
    else
      var before := MarkAll(isSold, ids[..|ids| - 1]);
      var id := ids[|ids| - 1];
      Flips(isSold, ids[..|ids| - 1]) + (if id in before && !before[id] then 1 else 0)
  }

  /** Marking sells every asked sub-item and touches no other. */
  lemma {:induction false} MarkAllEffect(isSold: map<nat, bool>, ids: seq<nat>)
    ensures forall k :: k in isSold ==> MarkAll(isSold, ids)[k] == (isSold[k] || k in ids)
  {
    if ids != [] {
      MarkAllEffect(isSold, ids[..|ids| - 1]);
    }
  }

  /** The asked sub-items that are unsold in `isSold`. */
  function UnsoldAsked(isSold: map<nat, bool>, ids: seq<nat>): set<nat>
  {
    set k | k in ids && k in isSold && !isSold[k]
  }

  lemma UnsoldAskedSnoc(isSold: map<nat, bool>, init: seq<nat>, id: nat)
    ensures UnsoldAsked(isSold, init + [id])
         == UnsoldAsked(isSold, init) + (if id in isSold && !isSold[id] then {id} else {})
  {
    var xs := init + [id];
    assert forall k :: k in xs <==> k in init || k == id;
  }

  /** The flips are the asked sub-items that were unsold, each counted once. */
  lemma {:induction false} FlipsCountUnsold(isSold: map<nat, bool>, ids: seq<nat>)
    ensures Flips(isSold, ids) == |UnsoldAsked(isSold, ids)|
  {
    if ids != [] {
      var init := ids[..|ids| - 1];
      var id := ids[|ids| - 1];
      FlipsCountUnsold(isSold, init);
      MarkAllEffect(isSold, init);
      var before := MarkAll(isSold, init);
      assert Flips(isSold, ids) == Flips(isSold, init) + (if id in before && !before[id] then 1 else 0);
      assert ids == init + [id];
      UnsoldAskedSnoc(isSold, init, id);
      if id in isSold && !isSold[id] && id !in init {
        assert id !in UnsoldAsked(isSold, init);
      } else if id in isSold && !isSold[id] {
        assert id in UnsoldAsked(isSold, init);
        assert UnsoldAsked(isSold, ids) == UnsoldAsked(isSold, init);
      }
    }
  }

  /** Marking the same sub-items again flips none and changes nothing. */
  lemma MarkAgainFlipsNone(isSold: map<nat, bool>, ids: seq<nat>)
    ensures Flips(MarkAll(isSold, ids), ids) == 0
    ensures MarkAll(MarkAll(isSold, ids), ids) == MarkAll(isSold, ids)
  {
    var once := MarkAll(isSold, ids);
    MarkAllEffect(isSold, ids);
    MarkAllEffect(once, ids);
    FlipsCountUnsold(once, ids);
    assert UnsoldAsked(once, ids) == {};
  }

  /** The sub-items of the listings: sold or not, and when. */
  class Inventory {
    var isSold: map<nat, bool>
    var soldAt: map<nat, int>
    var status: Views.ListingStatus

    constructor(isSold: map<nat, bool>, soldAt: map<nat, int>, status: Views.ListingStatus)
      ensures this.isSold == isSold && this.soldAt == soldAt && this.status == status
    {
      this.isSold := isSold;
      this.soldAt := soldAt;
      this.status := status;
    }

    /** `MarkListingSoldSerializer.create`: every unsold sub-item asked for
        is sold at `now` and counted; the listing becomes SOLD when its sold
        sub-items reach its quantity. */
    method MarkSold(listing: SaleListing, ids: seq<nat>, now: int) returns (updated: nat)
      modifies this
      ensures isSold == MarkAll(old(isSold), ids)
      ensures updated == Flips(old(isSold), ids)
      ensures forall k :: k in soldAt ==> k in old(soldAt) || (k in ids && k in old(isSold) && !old(isSold)[k])
      ensures forall k :: k in old(soldAt) && !(k in ids && k in old(isSold) && !old(isSold)[k]) ==>
                k in soldAt && soldAt[k] == old(soldAt)[k]
      ensures forall k :: k in ids && k in old(isSold) && !old(isSold)[k] ==> k in soldAt && soldAt[k] == now
      ensures status == (if FullySold(isSold, listing.members, listing.qty) then Views.Sold else old(status))
    {
      updated := 0;
      var i := 0;
      while i < |ids|
        invariant 0 <= i <= |ids|
        invariant status == old(status)
        invariant isSold == MarkAll(old(isSold), ids[..i])
        invariant updated == Flips(old(isSold), ids[..i])
        invariant forall k :: k in soldAt ==> k in old(soldAt) || (k in ids[..i] && k in old(isSold) && !old(isSold)[k])
        invariant forall k :: k in old(soldAt) && !(k in ids[..i] && k in old(isSold) && !old(isSold)[k]) ==>
                    k in soldAt && soldAt[k] == old(soldAt)[k]
        invariant forall k :: k in ids[..i] && k in old(isSold) && !old(isSold)[k] ==> k in soldAt && soldAt[k] == now
      {
        var id := ids[i];
        assert ids[..i + 1][..i] == ids[..i];
        MarkAllEffect(old(isSold), ids[..i]);
        if id in isSold && !isSold[id] {
          isSold := isSold[id := true];
          soldAt := soldAt[id := now];
          updated := updated + 1;
        }
        i := i + 1;
      }
      assert ids[..i] == ids;
      if SoldCount(isSold, listing.members) >= QtyOrZero(listing.qty) {
        status := Views.Sold;
      }
    }
  }

  /** After marking, the listing is SOLD when it is fully sold, and a
      sub-item already sold is neither counted nor re-stamped. */
  lemma MarkSoldSummary(isSold: map<nat, bool>, listing: SaleListing, ids: seq<nat>)
    ensures Flips(isSold, ids) <= |ids|
    ensures (forall k :: k in ids ==> k in isSold && isSold[k]) ==> Flips(isSold, ids) == 0
  {
    FlipsCountUnsold(isSold, ids);
    var s := UnsoldAsked(isSold, ids);
    assert s <= Elements(ids);
    SetOfSeqSize(ids);
    SubsetSize(s, Elements(ids));
  }

  function Elements(xs: seq<nat>): set<nat> { set k | k in xs }

  lemma {:induction false} SetOfSeqSize(xs: seq<nat>)
    ensures |Elements(xs)| <= |xs|
  {
    if xs != [] {
      var init := xs[..|xs| - 1];
      var x := xs[|xs| - 1];
      SetOfSeqSize(init);
      assert xs == init + [x];
      assert Elements(xs) == Elements(init) + {x};
      if x in Elements(init) {
        assert Elements(xs) == Elements(init);
      } else {
        assert |Elements(init) + {x}| == |Elements(init)| + 1;
      }
    }
  }

  lemma SubsetSize(a: set<nat>, b: set<nat>)
    requires a <= b
    ensures |a| <= |b|
  {
    assert b == a + (b - a);
  }
}
