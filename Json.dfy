/** Decoded JSON payloads as the Python code sees them after
    `response.json()`: dictionaries keep their insertion order, a number
    without fraction or exponent is an integer and any other a float, and
    `str()`/`float()`/truthiness follow Python. */
module Json {
  import opened Wrappers
  import opened Text

  datatype Json =
    | JNull
    | JBool(b: bool)
    | JNum(n: int)
      /** A float, held as the decimal `units / 10^scale` that its `repr`
          writes. */
    | JFloat(units: int, scale: nat)
    | JStr(s: string)
    | JArr(items: seq<Json>)
    | JObj(fields: seq<Field>)

  datatype Field = Field(key: string, val: Json)

  /** Python's `key in d` on the fields of a dictionary. */
  predicate HasKey(fields: seq<Field>, key: string)
  {
    exists i :: 0 <= i < |fields| && fields[i].key == key
  }

  /** Python's `d.get(key)`: the value of the first field named `key`. */
  function Lookup(fields: seq<Field>, key: string): (r: Option<Json>)
    ensures r.Some? <==> HasKey(fields, key)
    ensures r.Some? ==> exists i :: 0 <= i < |fields| && fields[i] == Field(key, r.value)
  {
    if |fields| == 0 then None
    else if fields[0].key == key then Some(fields[0].val)
    else
      var r := Lookup(fields[1..], key);
      assert r.Some? ==> fields[1..][0..] == fields[1..];
      assert HasKey(fields, key) ==> HasKey(fields[1..], key) by {
        if HasKey(fields, key) {
          var i :| 0 <= i < |fields| && fields[i].key == key;
          assert fields[1..][i - 1].key == key;
        }
      }
      r
  }

  predicate IsDict(j: Json) { j.JObj? }

  /** `key in j` for a dictionary `j`. */
  predicate Has(j: Json, key: string)
  {
    j.JObj? && HasKey(j.fields, key)
  }

  /** `j.get(key)` for a dictionary `j`; `None` for anything else. */
  function Get(j: Json, key: string): (r: Option<Json>)
    ensures r.Some? <==> Has(j, key)
  {
    if j.JObj? then Lookup(j.fields, key) else None
  }

  /** `j.get(key)` where a missing key reads as JSON `null`. */
  function GetOrNull(j: Json, key: string): Json
  {
    Get(j, key).GetOr(JNull)
  }

  /** Python truthiness of a decoded value. */
  predicate Truthy(j: Json)
  {
    match j
    case JNull => false
    case JBool(b) => b
    case JNum(n) => n != 0
    case JFloat(u, _) => u != 0
    case JStr(s) => s != ""
    case JArr(items) => items != []
    case JObj(fields) => fields != []
  }

  /** Python's `float(x)` where it does not raise: numbers, booleans and
      strings of decimal digits. */
  function AsNumber(j: Json): Option<int>
  {
    match j
    case JNum(n) => Some(n)
    case JBool(b) => Some(if b then 1 else 0)
    case JStr(s) => if IsDigits(Strip(s)) then Some(DigitsValue(Strip(s))) else None
    case _ => None
  }

  function IntToString(n: int): string
  {
    if n < 0 then "-" + NatToString(-n) else NatToString(n)
  }

  /** Python's `str(x)` of a decoded value. */
  function PyStr(j: Json): (r: string)
    ensures Truthy(j) ==> r != ""
  {
    match j
    case JStr(s) => s
    case _ => PyRepr(j)
  }

  /** Python's `repr(x)` of a decoded value (quotes are not escaped). */
  function PyRepr(j: Json): (r: string)
    ensures |r| > 0
  {
    match j
    case JNull => "None"
    case JBool(b) => if b then "True" else "False"
    case JNum(n) => IntToString(n)
    case JFloat(u, k) => FloatText(u, k)
    case JStr(s) => "'" + s + "'"
    case JArr(items) =>
      "[" + Join(", ", seq(|items|, i requires 0 <= i < |items| => PyRepr(items[i]))) + "]"
    case JObj(fields) =>
      "{" + Join(", ", seq(|fields|, i requires 0 <= i < |fields| =>
                             "'" + fields[i].key + "': " + PyRepr(fields[i].val))) + "}"
  }

  /** Python's `repr` of a float held as `units / 10^scale`, in plain
      decimal notation: the digits with at least one after the point and
      at least one before it. */
  function FloatText(units: int, scale: nat): (r: string)
    ensures |r| >= 3
  {
    (if units < 0 then "-" else "") + PointedText(FloatDigits(units, scale), FloatScale(scale))
  }

  /** The fraction digits a float's `repr` writes: at least one. */
  function FloatScale(scale: nat): (r: nat)
    ensures r > 0
  {
    if scale == 0 then 1 else scale
  }

  /** The magnitude of a float's units at that scale. */
  function FloatDigits(units: int, scale: nat): nat
  {
    if scale == 0 then Abs(units) * 10 else Abs(units)
  }

  /** The digits of `m` with a point `k` places from the right, zeros put
      before them so that at least one digit precedes the point. */
  function PointedText(m: nat, k: nat): (r: string)
    ensures |r| >= k + 2
  {
    var digits := PadNat(m, k + 1);
    digits[..|digits| - k] + "." + digits[|digits| - k..]
  }

  function Abs(n: int): (r: nat)
    ensures r == n || r == -n
  {
    if n < 0 then -n else n
  }
}
