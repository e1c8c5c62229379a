/** The JavaScript conversions the checks rely on: truthiness, conversion to text, conversion of numerals to
    numbers, and lower-casing of strings. */
module Coercions {
  import opened Values
  import opened Text

  predicate Truthy(v: Value) {
    match v
    case Null => false
    case Bool(b) => b
    case Num(t) => t != "0" && t != "NaN"
    case Big(n) => n != 0
    case Str(s) => s != ""
    case _ => true
  }

  /** The falsy values, each by itself. */
  lemma FalsyOnly(v: Value)
    ensures !Truthy(v) <==> v in {Null, Bool(false), Num("0"), Num("NaN"), Big(0), Str("")}
  {
  }

  /** The text JavaScript converts the value to. */
  function TextOf(v: Value): string {
    match v
    case Null => "null"
    case Bool(b) => if b then "true" else "false"
    case Num(t) => t
    case Big(n) => IntText(n)
    case Str(s) => s
    case Error => "Error"
    case Arr(items) => JoinedText(items)
    case Obj(_) => "[object Object]"
  }

  /** The texts of the items separated by commas, where a null item is the empty text. */
  function JoinedText(items: seq<Value>): string {
    if items == [] then ""
    else
      var head := if items[0].Null? then "" else TextOf(items[0]);
      if |items| == 1 then head else head + "," + JoinedText(items[1..])
  }

  /** The value converts to the number n, for values whose text is a canonical numeral. */
  predicate NumberIs(v: Value, n: nat) {
    CanonicalDecimal(TextOf(v)) && ValueOf(TextOf(v)) == n
  }

  /** A text in lower case; any other value as it is. */
  function Lowered(v: Value): Value {
    if v.Str? then Str(Lower(v.s)) else v
  }

  /** An object whose missing properties read as `undefined`. */
  type Record = map<string, Value>

  function Get(r: Record, key: string): Option<Value> {
    if key in r then Some(r[key]) else None
  }

  /** The property is there and not null. */
  predicate Given(r: Record, key: string) {
    key in r && !r[key].Null?
  }

  predicate TruthyAt(r: Record, key: string) {
    key in r && Truthy(r[key])
  }

  /** The named property of an object value. */
  function FieldOf(v: Value, key: string): Option<Value> {
    if v.Obj? && HasKey(v.fields, key) then Some(v.fields[IndexOf(v.fields, key)].value) else None
  }

  lemma FieldAt(fields: seq<Field>, i: nat)
    requires DistinctKeys(fields) && i < |fields|
    ensures FieldOf(Obj(fields), fields[i].key) == Some(fields[i].value)
  {
    assert HasKey(fields, fields[i].key);
  }

  /** The first of the two when it is truthy, otherwise the second. */
  function Either(a: Option<Value>, b: Option<Value>): Option<Value> {
    if a.Some? && Truthy(a.value) then a else b
  }
}
