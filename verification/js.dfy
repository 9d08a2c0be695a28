/**
 * The fragment of JavaScript's value semantics the route and the tool rely on:
 * values produced by `JSON.parse` (plus `undefined` for a missing property),
 * truthiness, the nullish-coalescing operator `??`, property access and indexing.
 */
module Js {

  datatype Value =
    | Undefined
    | Null
    | Bool(b: bool)
    | Num(n: real)
    | Str(s: string)
    | Arr(items: seq<Value>)
    | Obj(fields: map<string, Value>)

  /** JavaScript truthiness: `undefined`, `null`, `false`, `0` and `""` are falsy. */
  predicate Truthy(v: Value) {
    match v
    case Undefined => false
    case Null => false
    case Bool(b) => b
    case Num(n) => n != 0.0
    case Str(s) => s != ""
    case Arr(_) => true
    case Obj(_) => true
  }

  /** `null` or `undefined`: the values `??` and `?.` treat as absent. */
  predicate Nullish(v: Value) {
    v.Undefined? || v.Null?
  }

  /** The engine's `TypeError` text for reading `key` of `null` or `undefined`. */
  function ReadOfNullishMessage(v: Value, key: string): string
    requires Nullish(v)
  {
    "Cannot read properties of " + (if v.Null? then "null" else "undefined") + " (reading '" + key + "')"
  }

  /** `v ?? d`. */
  function Coalesce(v: Value, d: Value): (r: Value)
    ensures Nullish(v) ==> r == d
    ensures !Nullish(v) ==> r == v
  {
    if Nullish(v) then d else v
  }

  /**
   * `v.key` for a named key (never an array index or `length`) on a value that is
   * not nullish; reading a property of `null`/`undefined` throws and is handled
   * by the caller. Only plain objects carry the named keys the model reads.
   */
  function Get(v: Value, key: string): Value
    requires !Nullish(v)
  {
    if v.Obj? && key in v.fields then v.fields[key] else Undefined
  }

  /** `v[i]` on a value that is not nullish. */
  function At(v: Value, i: nat): Value
    requires !Nullish(v)
  {
    match v
    case Arr(xs) => if i < |xs| then xs[i] else Undefined
    case Str(s) => if i < |s| then Str([s[i]]) else Undefined
    case Obj(f) => if DecimalString(i) in f then f[DecimalString(i)] else Undefined
    case _ => Undefined
  }

  /** `v.length` on a value that is not nullish. */
  function Length(v: Value): Value
    requires !Nullish(v)
  {
    match v
    case Arr(xs) => Num(|xs| as real)
    case Str(s) => Num(|s| as real)
    case Obj(f) => if "length" in f then f["length"] else Undefined
    case _ => Undefined
  }

  /** The text `String(n)` / `${n}` produces for a natural number. */
  function DecimalString(n: nat): (r: string)
    ensures |r| >= 1
    ensures forall i :: 0 <= i < |r| ==> '0' <= r[i] <= '9'
  {
    if n < 10 then [Digit(n)] else DecimalString(n / 10) + [Digit(n % 10)]
  }

  function Digit(d: nat): (c: char)
    requires d < 10
    ensures '0' <= c <= '9'
  {
    ['0', '1', '2', '3', '4', '5', '6', '7', '8', '9'][d]
  }

  /** Reads a decimal string back; the independent inverse of `DecimalString`. */
  function ParseDecimal(s: string): nat
    requires forall i :: 0 <= i < |s| ==> '0' <= s[i] <= '9'
  {
    if |s| == 0 then 0
    else ParseDecimal(s[..|s| - 1]) * 10 + ((s[|s| - 1] as int) - ('0' as int))
  }

  lemma DigitValue(d: nat)
    requires d < 10
    ensures (Digit(d) as int) - ('0' as int) == d
  {
  }

  /** Printing a status code and reading it back gives the code again. */
  lemma {:induction false} DecimalRoundTrip(n: nat)
    ensures ParseDecimal(DecimalString(n)) == n
  {
    var s := DecimalString(n);
    if n < 10 {
      DigitValue(n);
      assert s[..0] == [];
    } else {
      DecimalRoundTrip(n / 10);
      DigitValue(n % 10);
      assert s[..|s| - 1] == DecimalString(n / 10);
    }
  }
}
