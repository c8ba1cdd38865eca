/** A decoded JSON value as the client sees it after `response.json()`, and the
    two pieces of JavaScript semantics the client relies on: the `in` operator
    (which throws a TypeError on anything that is not an object) and truthiness. */
module Json {
  import opened Wrappers

  /** JSON numbers are modelled as integers; fractional numbers are not modelled.
      An object is its map from property names to values (decoding keeps the last
      of duplicated names, so a map is what the client receives). */
  datatype Json =
    | Null
    | Bool(b: bool)
    | Num(n: int)
    | Str(s: string)
    | Arr(items: seq<Json>)
    | Obj(fields: map<string, Json>)

  /** The property names the client probes with `in`. None of them is an own
      property of an array, nor inherited from Object.prototype or
      Array.prototype, so `in` answers from the decoded fields alone. */
  const ProbedKeys: set<string> := {"error", "issues", "data"}

  /** Arrays and objects are the JSON values on which `in` does not throw. */
  predicate IsObjectLike(v: Json)
  {
    v.Arr? || v.Obj?
  }

  /** `v` is an object holding the property `key`. */
  predicate HasKey(v: Json, key: string)
  {
    v.Obj? && key in v.fields
  }

  /** JavaScript `key in v`: `Ok(answer)`, or `Err(message)` for the TypeError
      the operator throws when `v` is not an object. */
  function In(key: string, v: Json): (r: Result<bool, string>)
    requires key in ProbedKeys
    ensures r.Ok? <==> IsObjectLike(v)
    ensures r.Ok? ==> (r.value <==> HasKey(v, key))
    ensures r.Err? ==> r.error == InTypeErrorMessage(key, v)
  {
    match v
    case Obj(fields) => Ok(key in fields)
    case Arr(_) => Ok(false)
    case _ => Err(InTypeErrorMessage(key, v))
  }

  const InTypeErrorPrefix: string := "Cannot use 'in' operator to search for '"

  /** The message of the TypeError thrown by `key in v`, in the V8 engine's wording:
      the key in quotes, then `v` rendered with JavaScript's string conversion. */
  function InTypeErrorMessage(key: string, v: Json): (m: string)
    ensures |m| == |InTypeErrorPrefix| + |key| + 5 + |PrimitiveToString(v)|
    ensures m[..|InTypeErrorPrefix|] == InTypeErrorPrefix
    ensures m[|InTypeErrorPrefix|..|InTypeErrorPrefix| + |key|] == key
    ensures m[|m| - |PrimitiveToString(v)|..] == PrimitiveToString(v)
  {
    InTypeErrorPrefix + key + "' in " + PrimitiveToString(v)
  }

  /** JavaScript `String(v)` for a primitive JSON value. Integers are written in
      full. JavaScript numbers are doubles, so the two agree only up to 2^53 in
      magnitude: above that `String` writes the shortest digits that read back
      to the same double, padded with zeros (2^64 gives "18446744073709552000"),
      and from 10^21 on it uses exponent form. Arrays and objects
      give "" here, where JavaScript gives their item list or "[object Object]":
      `In` never throws on them, so no message ever holds that text. */
  function PrimitiveToString(v: Json): (r: string)
    ensures v.Null? ==> r == "null"
    ensures v.Bool? ==> (r == "true" && v.b) || (r == "false" && !v.b)
    ensures v.Num? ==> r == IntToDecimal(v.n) && (r[0] == '-' <==> v.n < 0)
    ensures v.Str? ==> r == v.s
  {
    match v
    case Null => "null"
    case Bool(b) => if b then "true" else "false"
    case Num(n) => IntToDecimal(n)
    case Str(s) => s
    case Arr(_) => ""
    case Obj(_) => ""
  }

  /** JavaScript truthiness of a JSON value (`if (v)`, `v ? a : b`): the falsy
      JSON values are exactly null, false, 0 and the empty string. */
  predicate Truthy(v: Json)
    ensures !Truthy(v) <==> v == Null || v == Bool(false) || v == Num(0) || v == Str("")
  {
    match v
    case Null => false
    case Bool(b) => b
    case Num(n) => n != 0
    case Str(s) => s != ""
    case Arr(_) => true
    case Obj(_) => true
  }

  predicate IsDigit(c: char)
  {
    '0' <= c <= '9'
  }

  /** The decimal rendering of an integer, with a leading '-' when negative. */
  function IntToDecimal(n: int): (r: string)
    ensures n < 0 <==> (|r| > 0 && r[0] == '-')
    ensures n < 0 ==> forall i :: 1 <= i < |r| ==> IsDigit(r[i])
    ensures n >= 0 ==> forall i :: 0 <= i < |r| ==> IsDigit(r[i])
  {
    if n < 0 then "-" + NatToDecimal(-n) else NatToDecimal(n)
  }

  /** The number an optionally signed string of digits denotes. */
  function SignedDecimalValue(s: string): int
    requires |s| > 0 && s[0] == '-' ==> forall i :: 1 <= i < |s| ==> IsDigit(s[i])
    requires !(|s| > 0 && s[0] == '-') ==> forall i :: 0 <= i < |s| ==> IsDigit(s[i])
  {
    if |s| > 0 && s[0] == '-' then 0 - DecimalValue(s[1..]) else DecimalValue(s)
  }

  /** Reading back the rendering of any integer gives that integer. */
  lemma IntDecimalRoundTrip(n: int)
    ensures SignedDecimalValue(IntToDecimal(n)) == n
  {
    if n < 0 {
      assert IntToDecimal(n)[1..] == NatToDecimal(-n);
      DecimalRoundTrip(-n);
    } else {
      DecimalRoundTrip(n);
    }
  }

  /** The shortest decimal rendering of a natural number. */
  function NatToDecimal(n: nat): (r: string)
    ensures |r| >= 1
    ensures forall i :: 0 <= i < |r| ==> IsDigit(r[i])
    ensures |r| > 1 ==> r[0] != '0'
  {
    if n < 10 then [DigitChar(n)] else NatToDecimal(n / 10) + [DigitChar(n % 10)]
  }

  function DigitChar(d: nat): (c: char)
    requires d < 10
    ensures IsDigit(c)
  {
    "0123456789"[d]
  }

  /** The number a string of digits denotes: the inverse of NatToDecimal. */
  function DecimalValue(s: string): nat
    requires forall i :: 0 <= i < |s| ==> IsDigit(s[i])
  {
    if s == [] then 0 else 10 * DecimalValue(s[..|s| - 1]) + DigitValue(s[|s| - 1])
  }

  function DigitValue(c: char): (d: nat)
    requires IsDigit(c)
    ensures d < 10 && DigitChar(d) == c
  {
    (c as int - '0' as int)
  }

  /** Reading back the rendering of `n` gives `n`. */
  lemma {:induction false} DecimalRoundTrip(n: nat)
    ensures DecimalValue(NatToDecimal(n)) == n
  {
    var r := NatToDecimal(n);
    if n >= 10 {
      DecimalRoundTrip(n / 10);
      assert r[..|r| - 1] == NatToDecimal(n / 10);
      assert r[|r| - 1] == DigitChar(n % 10);
    }
  }
}
