/** JSON values as the Python server, the Python facade and the JavaScript bridge
    exchange them, and the two languages' views of those values: truthiness,
    property access, and the text `str()` / `String()` give an integer. */
module Json {
  import opened Wrappers

  /** A JSON document. Numbers are integers; objects are maps from key to value. */
  datatype Value =
    | Null
    | Bool(b: bool)
    | Num(n: int)
    | Str(s: string)
    | Arr(items: seq<Value>)
    | Obj(fields: map<string, Value>)

  /** A value handed to Python's `json.dumps(value, indent=...)`; the serialiser
      itself is not modelled, so the text is kept as the value it encodes and the
      indentation it was asked for. */
  datatype Serialized = Dumps(value: Value, indent: Option<nat>)

  /** Python's `if v:` on a decoded JSON value: None, False, 0, "", [] and {} are false. */
  predicate PyTruthy(v: Value)
  {
    match v
    case Null => false
    case Bool(b) => b
    case Num(n) => n != 0
    case Str(s) => s != ""
    case Arr(xs) => xs != []
    case Obj(m) => m != map[]
  }

  /** JavaScript's `if (v)`: unlike Python, an empty array or object is true. */
  predicate JsTruthy(v: Value)
  {
    match v
    case Null => false
    case Bool(b) => b
    case Num(n) => n != 0
    case Str(s) => s != ""
    case Arr(_) => true
    case Obj(_) => true
  }

  /** JavaScript truthiness of a property read that may be `undefined` (None). */
  predicate JsTruthyOpt(v: Option<Value>)
  {
    v.Some? && JsTruthy(v.value)
  }

  /** The JavaScript property read `v.key` on a non-null value: only objects have the
      keys read here, so anything else reads `undefined`. Reading a property of `null`
      throws in JavaScript; callers test for `Null` before calling. */
  function Prop(v: Value, key: string): (r: Option<Value>)
    ensures r.Some? <==> v.Obj? && key in v.fields
    ensures r.Some? ==> r.value == v.fields[key]
  {
    if v.Obj? && key in v.fields then Some(v.fields[key]) else None
  }

  /** Python's `dict.get(key, default)`. */
  function GetOr(m: map<string, Value>, key: string, default: Value): (r: Value)
    ensures key in m ==> r == m[key]
    ensures key !in m ==> r == default
  {
    if key in m then m[key] else default
  }

  /** The character of one decimal digit. */
  function DigitChar(d: nat): (c: char)
    requires d < 10
    ensures '0' <= c <= '9'
  {
    "0123456789"[d]
  }

  /** The value of one decimal digit character. */
  function DigitValue(c: char): (d: nat)
    requires '0' <= c <= '9'
    ensures d < 10
  {
    (c as int - '0' as int) as nat
  }

  predicate IsDigits(s: string)
  {
    forall i :: 0 <= i < |s| ==> '0' <= s[i] <= '9'
  }

  /** The decimal digits of a natural number, most significant first, as both
      Python's `str(n)` and JavaScript's `String(n)` write them. */
  function NatDigits(n: nat): (s: string)
    ensures |s| > 0 && IsDigits(s)
    ensures s[0] == '0' ==> n == 0
    decreases n
  {
    if n < 10 then [DigitChar(n)] else NatDigits(n / 10) + [DigitChar(n % 10)]
  }

  /** The number a string of decimal digits denotes (the reference for `NatDigits`). */
  function DigitsValue(s: string): (n: nat)
    requires IsDigits(s)
    decreases |s|
  {
    if s == [] then 0 else 10 * DigitsValue(s[..|s| - 1]) + DigitValue(s[|s| - 1])
  }

  /** Reading back the digits of `n` gives `n`. */
  lemma {:induction false} NatDigitsRoundTrip(n: nat)
    ensures DigitsValue(NatDigits(n)) == n
    decreases n
  {
    var s := NatDigits(n);
    if n >= 10 {
      NatDigitsRoundTrip(n / 10);
      assert s[..|s| - 1] == NatDigits(n / 10);
      assert DigitValue(s[|s| - 1]) == n % 10;
    } else {
      assert s[..|s| - 1] == [];
    }
  }

  /** Python's `str(i)` and JavaScript's `String(i)` for an integer. */
  function IntText(i: int): (s: string)
    ensures |s| > 0
  {
    if i < 0 then "-" + NatDigits(-i) else NatDigits(i)
  }

  /** Different integers print differently. */
  lemma IntTextInjective(i: int, j: int)
    requires IntText(i) == IntText(j)
    ensures i == j
  {
    var s := IntText(i);
    if i < 0 {
      assert s[0] == '-';
      assert j < 0;
      assert NatDigits(-i) == s[1..] == NatDigits(-j);
    } else {
      assert '0' <= s[0] <= '9';
      assert j >= 0;
    }
    NatDigitsRoundTrip(if i < 0 then -i else i);
    NatDigitsRoundTrip(if j < 0 then -j else j);
  }
}
