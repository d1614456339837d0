/**
 * Values shared by every part of the client: optional and fallible results,
 * the exceptions the client raises, and the JSON-like values that keyword
 * arguments, query parameters and records carry, with the three Python
 * behaviours of such values that the client relies on: truthiness, use in
 * integer arithmetic, and rendering inside an f-string.
 */
module Values {

  datatype Option<+T> = None | Some(value: T)

  datatype Result<+T, +E> = Ok(value: T) | Err(error: E)

  /** The exceptions the client can raise. TransportError stands for every
      failure of one HTTP round trip: an error status, a connection failure,
      a body that is not the expected JSON. */
  datatype Error = ValueError | TypeError | IndexError | TransportError

  /** A Python value as found in keyword arguments and decoded JSON. */
  datatype Value = Null | Bool(b: bool) | Int(i: int) | Str(s: string) | List(items: seq<Value>)

  /** Python truthiness, which decides `if cycle:`. */
  predicate Truthy(v: Value) {
    match v
    case Null => false
    case Bool(b) => b
    case Int(i) => i != 0
    case Str(s) => s != ""
    case List(items) => items != []
  }

  /** The integer a value stands for in Python arithmetic; `bool` is a
      subclass of `int`, every other kind raises TypeError when added to an
      integer. */
  function Numeric(v: Value): (n: Option<int>)
    ensures n.Some? <==> v.Bool? || v.Int?
    ensures v.Int? ==> n == Some(v.i)
  {
    match v
    case Bool(b) => Some(if b then 1 else 0)
    case Int(i) => Some(i)
    case _ => None
  }

  /** Python `==` on scalars: numbers compare by value across bool and int,
      values of other kinds are equal only when they are the same value. */
  predicate PyEquals(a: Value, b: Value) {
    if Numeric(a).Some? && Numeric(b).Some? then Numeric(a) == Numeric(b) else a == b
  }

  /** A Python `Optional[str]` as a value. */
  function OfOptional(o: Option<string>): Value {
    match o
    case None => Null
    case Some(s) => Str(s)
  }

  function DigitChar(d: nat): char
    requires d < 10
  {
    ('0' as int + d) as char
  }

  /** The number a string of decimal digits denotes. */
  function DecimalValue(s: string): nat
    requires forall k :: 0 <= k < |s| ==> '0' <= s[k] <= '9'
  {
    if s == [] then 0 else DecimalValue(s[..|s| - 1]) * 10 + (s[|s| - 1] as int - '0' as int)
  }

  /** The decimal digits of a natural number, as `str(n)` writes them: the
      string denotes `n` and has no leading zero. */
  function Digits(n: nat): (s: string)
    ensures |s| >= 1
    ensures forall k :: 0 <= k < |s| ==> '0' <= s[k] <= '9'
    ensures DecimalValue(s) == n
    ensures s[0] == '0' <==> n == 0
    ensures |s| > 1 ==> s[0] != '0'
  {
    if n < 10 then [DigitChar(n)]
    else
      var s := Digits(n / 10) + [DigitChar(n % 10)];
      assert s[..|s| - 1] == Digits(n / 10);
      s
  }

  /** Different numbers are written differently. */
  lemma DigitsInjective(m: nat, n: nat)
    requires Digits(m) == Digits(n)
    ensures m == n
  {
    assert DecimalValue(Digits(m)) == m && DecimalValue(Digits(n)) == n;
  }

  function Join(parts: seq<string>, sep: string): string {
    if parts == [] then ""
    else if |parts| == 1 then parts[0]
    else parts[0] + sep + Join(parts[1..], sep)
  }

  /** How a value is rendered inside an f-string (`str(v)`); list items are
      rendered with `repr`, which quotes strings. */
  function Format(v: Value): string
    decreases v
  {
    match v
    case Null => "None"
    case Bool(b) => if b then "True" else "False"
    case Int(i) => if i < 0 then "-" + Digits(-i) else Digits(i)
    case Str(s) => s
    case List(items) =>
      "[" + Join(seq(|items|, k requires 0 <= k < |items| =>
                   if items[k].Str? then "'" + items[k].s + "'" else Format(items[k])), ", ") + "]"
  }

  /** `kwargs.pop(key, default)`: the value taken out and the map left behind. */
  function Pop(m: map<string, Value>, key: string, default: Value): (r: (Value, map<string, Value>))
    ensures r.1 == m - {key}
    ensures key in m ==> r.0 == m[key]
    ensures key !in m ==> r.0 == default
  {
    (if key in m then m[key] else default, m - {key})
  }
}
