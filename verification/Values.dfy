/** The JavaScript values the program passes around: JSON trees, BigInts and Error objects.  Strings
    are sequences of Unicode scalar values; a number is its printed token. */
module Values {

  datatype Value =
    | Null
    | Bool(b: bool)
    | Num(token: string)
    | Big(n: int)
    | Str(s: string)
    | Error
    | Arr(items: seq<Value>)
    | Obj(fields: seq<Field>)

  /** One own property; an object lists its properties in enumeration order. */
  datatype Field = Field(key: string, value: Value)

  datatype Option<+T> = None | Some(value: T)

  /** No two entries are equal. */
  predicate Distinct<T(==)>(s: seq<T>) {
    forall i, j | 0 <= i < j < |s| :: s[i] != s[j]
  }

  lemma {:induction false} CountOnce<T>(s: seq<T>, x: T)
    requires Distinct(s)
    ensures multiset(s)[x] == if x in s then 1 else 0
  {
    if s != [] {
      var k := |s| - 1;
      CountOnce(s[..k], x);
      assert s == s[..k] + [s[k]];
      assert x in s <==> x in s[..k] || x == s[k];
    }
  }

  /** The lower-case hexadecimal digit for n. */
  function HexChar(n: nat): char
    requires n < 16
  {
    if n < 10 then '0' + n as char else 'a' + (n - 10) as char
  }

  predicate DistinctKeys(fields: seq<Field>) {
    forall i, j | 0 <= i < j < |fields| :: fields[i].key != fields[j].key
  }

  predicate NumberChar(c: char) {
    '0' <= c <= '9' || c in "+-.eE"
  }

  /** The tokens JSON.stringify prints for finite numbers. */
  predicate NumberToken(t: string) {
    t != "" && ('0' <= t[0] <= '9' || t[0] == '-') && forall i | 0 <= i < |t| :: NumberChar(t[i])
  }

  /** A JSON value: no BigInt and no Error anywhere, and property names are distinct. */
  predicate IsJson(v: Value) {
    match v
    case Num(t) => NumberToken(t)
    case Big(_) => false
    case Error => false
    case Arr(items) => forall i | 0 <= i < |items| :: IsJson(items[i])
    case Obj(fields) => DistinctKeys(fields) && forall i | 0 <= i < |fields| :: IsJson(fields[i].value)
    case _ => true
  }

  predicate HasKey(fields: seq<Field>, key: string) {
    exists i | 0 <= i < |fields| :: fields[i].key == key
  }

  function IndexOf(fields: seq<Field>, key: string): (i: nat)
    requires HasKey(fields, key)
    ensures i < |fields| && fields[i].key == key
  {
    if fields[0].key == key then 0
    else
      assert HasKey(fields[1..], key) by {
        var i :| 0 <= i < |fields| && fields[i].key == key;
        assert fields[1..][i - 1].key == key;
      }
      1 + IndexOf(fields[1..], key)
  }

  /** The same JSON value up to the order of object keys, at every depth. */
  predicate Same(a: Value, b: Value)
    decreases a
  {
    match a
    case Arr(items) =>
      b.Arr? && |items| == |b.items| && forall i | 0 <= i < |items| :: Same(items[i], b.items[i])
    case Obj(fields) =>
      b.Obj? && |fields| == |b.fields| &&
      forall i | 0 <= i < |fields| ::
        HasKey(b.fields, fields[i].key) && Same(fields[i].value, b.fields[IndexOf(b.fields, fields[i].key)].value)
    case _ => a == b
  }
}
