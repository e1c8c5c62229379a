/** `canonicalJson`: the printed text determines the value up to key order, and nothing else. */
module CanonicalJson {
  import opened Values

  // ----- Key order: JavaScript compares strings by UTF-16 code units

  /** The order of scalar values by code units: surrogate pairs sort below U+E000 to U+FFFF. */
  function Rank(c: char): int {
    var n := c as int;
    if n < 0xE000 then n else if n > 0xFFFF then n - 0x2000 else n + 0x200000
  }

  predicate Less(x: string, y: string) {
    y != "" && (x == "" || Rank(x[0]) < Rank(y[0]) || (x[0] == y[0] && Less(x[1..], y[1..])))
  }

  lemma {:induction false} LessTotal(x: string, y: string)
    ensures x == y || Less(x, y) || Less(y, x)
  {
    if x != "" && y != "" && x[0] == y[0] {
      LessTotal(x[1..], y[1..]);
      assert x == [x[0]] + x[1..] && y == [y[0]] + y[1..];
    }
  }

  lemma {:induction false} LessTransitive(x: string, y: string, z: string)
    requires Less(x, y) && Less(y, z)
    ensures Less(x, z)
  {
    if x != "" && x[0] == y[0] == z[0] { LessTransitive(x[1..], y[1..], z[1..]); }
  }

  lemma {:induction false} LessIrreflexive(x: string)
    ensures !Less(x, x)
  {
    if x != "" { LessIrreflexive(x[1..]); }
  }

  predicate Increasing(keys: seq<string>) {
    forall i, j | 0 <= i < j < |keys| :: Less(keys[i], keys[j])
  }

  function Insert(key: string, sorted: seq<string>): (r: seq<string>)
    ensures |r| == |sorted| + 1
    ensures forall k :: k in r <==> k == key || k in sorted
  {
    if sorted == [] then [key]
    else if Less(key, sorted[0]) then [key] + sorted
    else
      assert sorted == [sorted[0]] + sorted[1..];
      [sorted[0]] + Insert(key, sorted[1..])
  }

  lemma {:induction false} InsertIncreasing(key: string, sorted: seq<string>)
    requires Increasing(sorted) && key !in sorted
    ensures Increasing(Insert(key, sorted))
  {
    if sorted != [] {
      var rest := sorted[1..];
      if Less(key, sorted[0]) {
        forall j | 0 < j < |sorted| ensures Less(key, sorted[j]) { LessTransitive(key, sorted[0], sorted[j]); }
      } else {
        LessTotal(key, sorted[0]);
        InsertIncreasing(key, rest);
        var r := Insert(key, rest);
        forall j | 0 <= j < |r| ensures Less(sorted[0], r[j]) {
          assert r[j] in r;
          if r[j] in rest { var m :| 0 <= m < |rest| && rest[m] == r[j]; assert sorted[m + 1] == r[j]; }
        }
      }
    }
  }

  /** The keys in UTF-16 code unit order. */
  function SortedKeys(fields: seq<Field>): (r: seq<string>)
    ensures |r| == |fields|
    ensures forall k :: k in r <==> HasKey(fields, k)
  {
    if fields == [] then []
    else
      var r := Insert(fields[0].key, SortedKeys(fields[1..]));
      assert forall k :: HasKey(fields, k) <==> k == fields[0].key || HasKey(fields[1..], k) by { HasKeySplit(fields); }
      r
  }

  lemma HasKeySplit(fields: seq<Field>)
    requires fields != []
    ensures forall k :: HasKey(fields, k) <==> k == fields[0].key || HasKey(fields[1..], k)
  {
    forall k ensures HasKey(fields, k) <==> k == fields[0].key || HasKey(fields[1..], k) {
      if HasKey(fields, k) && k != fields[0].key {
        var i :| 0 <= i < |fields| && fields[i].key == k;
        assert fields[1..][i - 1].key == k;
      }
      if HasKey(fields[1..], k) {
        var i :| 0 <= i < |fields[1..]| && fields[1..][i].key == k;
        assert fields[i + 1].key == k;
      }
    }
  }

  lemma {:induction false} SortedKeysIncreasing(fields: seq<Field>)
    requires DistinctKeys(fields)
    ensures Increasing(SortedKeys(fields))
  {
    if fields != [] {
      SortedKeysIncreasing(fields[1..]);
      InsertIncreasing(fields[0].key, SortedKeys(fields[1..]));
    }
  }

  /** Two increasing lists with the same members are the same list. */
  lemma {:induction false} IncreasingUnique(u: seq<string>, v: seq<string>)
    requires Increasing(u) && Increasing(v) && forall k :: k in u <==> k in v
    ensures u == v
  {
    if u == [] {
      FirstMember(v);
    } else {
      assert u[0] in u;
      var j :| 0 <= j < |v| && v[j] == u[0];
      assert v[0] in v;
      var i :| 0 <= i < |u| && u[i] == v[0];
      if u[0] != v[0] {
        LessTransitive(u[0], v[0], u[0]);
        LessIrreflexive(u[0]);
      }
      assert u == [u[0]] + u[1..] && v == [v[0]] + v[1..];
      forall k ensures k in u[1..] <==> k in v[1..] {
        TailMember(u, k);
        TailMember(v, k);
      }
      IncreasingUnique(u[1..], v[1..]);
    }
  }

  lemma FirstMember(v: seq<string>)
    ensures v != [] ==> exists k :: k in v
  {
    if v != [] { assert v[0] in v; }
  }

  lemma TailMember(u: seq<string>, k: string)
    requires u != [] && Increasing(u)
    ensures k in u[1..] <==> k in u && k != u[0]
  {
    if k in u[1..] {
      var i :| 0 <= i < |u[1..]| && u[1..][i] == k;
      assert Less(u[0], u[i + 1]);
      LessIrreflexive(k);
    }
    if k in u && k != u[0] {
      var i :| 0 <= i < |u| && u[i] == k;
      assert u[1..][i - 1] == k;
    }
  }

  // ----- Strings, section 7 of RFC 8259

  /** How JSON.stringify writes one character. */
  function Escape(c: char): (e: string)
    ensures e != ""
  {
    if c == '\"' then "\\\""
    else if c == '\\' then "\\\\"
    else if c == 8 as char then "\\b"
    else if c == 9 as char then "\\t"
    else if c == 10 as char then "\\n"
    else if c == 12 as char then "\\f"
    else if c == 13 as char then "\\r"
    else if c < 32 as char then ['\\', 'u', '0', '0', HexChar(c as int / 16), HexChar(c as int % 16)]
    else [c]
  }

  function EscapeAll(s: string): string {
    if s == "" then "" else Escape(s[0]) + EscapeAll(s[1..])
  }

  function Quote(s: string): string {
    "\"" + EscapeAll(s) + "\""
  }

  lemma HexCharInjective(m: nat, n: nat)
    requires m < 16 && n < 16 && HexChar(m) == HexChar(n)
    ensures m == n
  {
  }

  lemma EscapeInjective(c: char, d: char)
    requires |Escape(c)| == |Escape(d)| == 6 && Escape(c)[4] == Escape(d)[4] && Escape(c)[5] == Escape(d)[5]
    ensures c == d
  {
    hide HexChar;
    HexCharInjective(c as int / 16, d as int / 16);
    HexCharInjective(c as int % 16, d as int % 16);
  }

  /** No escape is a prefix of another. */
  lemma EscapePrefix(c: char, d: char, s: string, t: string)
    requires Escape(c) + s == Escape(d) + t
    ensures c == d && s == t
  {
    hide HexChar;
    var u := Escape(c) + s;
    assert u[0] == Escape(c)[0] == Escape(d)[0];
    if |Escape(c)| > 1 && |Escape(d)| > 1 {
      assert u[1] == Escape(c)[1] == Escape(d)[1];
      if |Escape(c)| > 2 && |Escape(d)| > 2 {
        assert u[4] == Escape(c)[4] == Escape(d)[4] && u[5] == Escape(c)[5] == Escape(d)[5];
        EscapeInjective(c, d);
      }
    }
    assert s == u[|Escape(c)|..] && t == u[|Escape(d)|..];
  }

  lemma QuoteFirst(x: string, s: string)
    ensures (EscapeAll(x) + "\"" + s)[0] == '\"' <==> x == ""
  {
    if x != "" { assert (EscapeAll(x) + "\"" + s)[0] == Escape(x[0])[0]; }
  }

  /** A quoted string ends at its own closing quote. */
  lemma {:induction false} QuoteReadable(x: string, y: string, s: string, t: string)
    requires EscapeAll(x) + "\"" + s == EscapeAll(y) + "\"" + t
    ensures x == y && s == t
  {
    hide Escape;
    var u := EscapeAll(x) + "\"" + s;
    if x == "" || y == "" {
      QuoteFirst(x, s);
      QuoteFirst(y, t);
      assert s == u[1..] && t == u[1..];
    } else {
      var s', t' := EscapeAll(x[1..]) + "\"" + s, EscapeAll(y[1..]) + "\"" + t;
      assert u == Escape(x[0]) + s' && u == Escape(y[0]) + t';
      EscapePrefix(x[0], y[0], s', t');
      QuoteReadable(x[1..], y[1..], s, t);
      assert x == [x[0]] + x[1..] && y == [y[0]] + y[1..];
    }
  }


  // ----- The printer

  function Join(parts: seq<string>): string {
    if parts == [] then "" else if |parts| == 1 then parts[0] else parts[0] + "," + Join(parts[1..])
  }

  function Canonical(v: Value): string
    requires IsJson(v)
    decreases v
  {
    match v
    case Null => "null"
    case Bool(b) => if b then "true" else "false"
    case Num(t) => t
    case Str(s) => Quote(s)
    case Arr(items) => "[" + Join(seq(|items|, i requires 0 <= i < |items| => Canonical(items[i]))) + "]"
    case Obj(fields) =>
      var keys := SortedKeys(fields);
      "{" + Join(seq(|keys|, i requires 0 <= i < |keys| =>
                   assert keys[i] in keys;
                   Quote(keys[i]) + ":" + Canonical(fields[IndexOf(fields, keys[i])].value))) + "}"
  }

  function ItemTexts(items: seq<Value>): (r: seq<string>)
    requires IsJson(Arr(items))
    ensures |r| == |items| && forall i | 0 <= i < |items| :: r[i] == Canonical(items[i])
  {
    seq(|items|, i requires 0 <= i < |items| => Canonical(items[i]))
  }

  function ValueAt(fields: seq<Field>, key: string): (v: Value)
    requires IsJson(Obj(fields)) && HasKey(fields, key)
    ensures IsJson(v)
  {
    fields[IndexOf(fields, key)].value
  }

  function MemberText(key: string, v: Value): string
    requires IsJson(v)
  {
    Quote(key) + ":" + Canonical(v)
  }

  function MemberTexts(fields: seq<Field>): (r: seq<string>)
    requires IsJson(Obj(fields))
    ensures |r| == |SortedKeys(fields)|
    ensures forall i | 0 <= i < |r| :: HasKey(fields, SortedKeys(fields)[i]) &&
              r[i] == MemberText(SortedKeys(fields)[i], ValueAt(fields, SortedKeys(fields)[i]))
  {
    var keys := SortedKeys(fields);
    seq(|keys|, i requires 0 <= i < |keys| => assert keys[i] in keys; MemberText(keys[i], ValueAt(fields, keys[i])))
  }

  lemma CanonicalArray(items: seq<Value>)
    requires IsJson(Arr(items))
    ensures Canonical(Arr(items)) == "[" + Join(ItemTexts(items)) + "]"
  {
    hide Join;
    assert ItemTexts(items) == seq(|items|, i requires 0 <= i < |items| => Canonical(items[i]));
  }

  lemma CanonicalObject(fields: seq<Field>)
    requires IsJson(Obj(fields))
    ensures Canonical(Obj(fields)) == "{" + Join(MemberTexts(fields)) + "}"
  {
    hide Join, Quote;
    var keys := SortedKeys(fields);
    assert MemberTexts(fields) == seq(|keys|, i requires 0 <= i < |keys| =>
      assert keys[i] in keys; Quote(keys[i]) + ":" + Canonical(fields[IndexOf(fields, keys[i])].value));
  }

  // ----- Unique readability

  predicate Delimiter(c: char) {
    c == ',' || c == ']' || c == '}'
  }

  /** What can follow a value inside a text, or nothing. */
  predicate Delimited(s: string) {
    s == "" || Delimiter(s[0])
  }

  /** Before a delimiter, `p` and `q` can only be read in one way. */
  ghost predicate Readable(p: string, q: string) {
    forall u, v | Delimited(u) && Delimited(v) && p + u == q + v :: p == q && u == v
  }

  predicate Opens(p: string) {
    p != "" && !Delimiter(p[0])
  }

  lemma NumberReadable(p: string, q: string)
    requires NumberToken(p) && NumberToken(q)
    ensures Readable(p, q)
  {
    forall u, v | Delimited(u) && Delimited(v) && p + u == q + v ensures p == q && u == v {
      NumberNoLonger(p, q, u, v);
      NumberNoLonger(q, p, v, u);
      assert p == (p + u)[..|p|] && q == (q + v)[..|q|];
      assert u == (p + u)[|p|..] && v == (q + v)[|q|..];
    }
  }

  lemma NumberNoLonger(p: string, q: string, u: string, v: string)
    requires NumberToken(p) && NumberToken(q) && Delimited(u) && p + u == q + v
    ensures |p| >= |q|
  {
    if |p| < |q| { LongerStartsWithNumber(p, q, u, v); }
  }

  lemma LongerStartsWithNumber(p: string, q: string, u: string, v: string)
    requires NumberToken(q) && p + u == q + v && |p| < |q|
    ensures u != "" && NumberChar(u[0])
  {
    assert u[0] == (p + u)[|p|] == (q + v)[|p|] == q[|p|];
  }

  lemma StringReadable(x: string, y: string)
    ensures Readable(Quote(x), Quote(y))
    ensures Quote(x) == Quote(y) ==> x == y
  {
    hide EscapeAll;
    forall u, v | Quote(x) + u == Quote(y) + v ensures Quote(x) == Quote(y) && u == v {
      QuoteSplit(x, y, u, v);
    }
    if Quote(x) == Quote(y) { assert Quote(x) + "" == Quote(y) + ""; QuoteSplit(x, y, "", ""); }
  }

  lemma QuoteSplit(x: string, y: string, u: string, v: string)
    requires Quote(x) + u == Quote(y) + v
    ensures x == y && u == v
  {
    hide EscapeAll;
    assert (Quote(x) + u)[1..] == EscapeAll(x) + "\"" + u;
    assert (Quote(y) + v)[1..] == EscapeAll(y) + "\"" + v;
    QuoteReadable(x, y, u, v);
  }

  lemma MemberReadable(k: string, a: Value, l: string, b: Value)
    requires IsJson(a) && IsJson(b) && Readable(Canonical(a), Canonical(b))
    ensures Readable(MemberText(k, a), MemberText(l, b))
    ensures MemberText(k, a) == MemberText(l, b) ==> k == l && Canonical(a) == Canonical(b)
  {
    hide Canonical, Quote, Delimited;
    var p, q := MemberText(k, a), MemberText(l, b);
    forall u, v | p + u == q + v
      ensures k == l
      ensures Delimited(u) && Delimited(v) ==> p == q && u == v
    {
      var r, t := ":" + (Canonical(a) + u), ":" + (Canonical(b) + v);
      assert p + u == Quote(k) + r && q + v == Quote(l) + t;
      QuoteSplit(k, l, r, t);
      assert r[1..] == Canonical(a) + u && t[1..] == Canonical(b) + v;
    }
    if p == q {
      assert p + "" == q + "";
      assert p[|Quote(k)| + 1..] == Canonical(a) && q[|Quote(l)| + 1..] == Canonical(b);
    }
  }

  /** Lists of readable parts, closed by a bracket, are readable. */
  lemma {:induction false} JoinReadable(p: seq<string>, q: seq<string>, close: char, u: string, v: string)
    requires Delimiter(close) && close != ','
    requires forall i | 0 <= i < |p| :: Opens(p[i])
    requires forall i | 0 <= i < |q| :: Opens(q[i])
    requires forall i | 0 <= i < |p| && i < |q| :: Readable(p[i], q[i])
    requires Join(p) + [close] + u == Join(q) + [close] + v
    ensures p == q && u == v
    decreases |p|
  {
    var text := Join(p) + [close] + u;
    JoinFirst(p, close, u);
    JoinFirst(q, close, v);
    if p == [] || q == [] {
      assert u == text[1..] && v == text[1..];
    } else {
      var s, t := Rest(p, close, u), Rest(q, close, v);
      assert text == p[0] + s && text == q[0] + t;
      assert Readable(p[0], q[0]);
      assert p == [p[0]] + p[1..] && q == [q[0]] + q[1..];
      if |p| == 1 || |q| == 1 {
        assert s[0] == t[0];
        assert u == s[1..] && v == t[1..];
      } else {
        assert s[1..] == Join(p[1..]) + [close] + u && t[1..] == Join(q[1..]) + [close] + v;
        JoinReadable(p[1..], q[1..], close, u, v);
      }
    }
  }

  /** What follows the first part. */
  function Rest(p: seq<string>, close: char, u: string): (r: string)
    requires p != []
    ensures r != ""
  {
    if |p| == 1 then [close] + u else "," + (Join(p[1..]) + [close] + u)
  }

  lemma JoinFirst(p: seq<string>, close: char, u: string)
    requires Delimiter(close) && close != ',' && forall i | 0 <= i < |p| :: Opens(p[i])
    ensures p != [] ==> Join(p) + [close] + u == p[0] + Rest(p, close, u) && Delimited(Rest(p, close, u))
    ensures Delimiter((Join(p) + [close] + u)[0]) <==> p == []
  {
    hide Rest;
    if p == [] {
      assert (Join(p) + [close] + u)[0] == close;
    } else {
      hide Join;
      JoinSplit(p, close, u);
      assert Opens(p[0]);
      assert (p[0] + Rest(p, close, u))[0] == p[0][0];
    }
  }

  lemma JoinSplit(p: seq<string>, close: char, u: string)
    requires Delimiter(close) && close != ',' && p != []
    ensures Join(p) + [close] + u == p[0] + Rest(p, close, u) && Delimited(Rest(p, close, u))
  {
    hide Join;
    JoinOne(p);
    if |p| == 1 {
      assert p[0] + [close] + u == p[0] + ([close] + u);
    } else {
      JoinMore(p);
      Regroup(p[0], Join(p[1..]), [close], u);
    }
  }

  lemma JoinOne(p: seq<string>)
    ensures |p| == 1 ==> Join(p) == p[0]
  {
  }

  lemma JoinMore(p: seq<string>)
    requires |p| > 1
    ensures Join(p) == p[0] + "," + Join(p[1..])
  {
  }

  lemma Regroup(a: string, b: string, c: string, d: string)
    ensures a + "," + b + c + d == a + ("," + (b + c + d))
  {
  }

  /** The first character tells what kind of value it is. */
  function Kind(c: char): nat {
    if c == 'n' then 0 else if c == 't' then 1 else if c == 'f' then 2 else if c == '\"' then 3
    else if c == '[' then 4 else if c == '{' then 5 else 6
  }

  function KindOf(v: Value): nat
    requires IsJson(v)
  {
    match v
    case Null => 0
    case Bool(b) => if b then 1 else 2
    case Str(_) => 3
    case Arr(_) => 4
    case Obj(_) => 5
    case Num(_) => 6
  }

  lemma CanonicalOpens(v: Value)
    requires IsJson(v)
    ensures Opens(Canonical(v)) && Kind(Canonical(v)[0]) == KindOf(v)
  {
    hide Join, EscapeAll;
    match v
    case Arr(items) => CanonicalArray(items);
    case Obj(fields) => CanonicalObject(fields);
    case _ =>
  }

  lemma MemberOpens(k: string, v: Value)
    requires IsJson(v)
    ensures Opens(MemberText(k, v))
  {
  }

  /** Texts of JSON values are uniquely readable, and equal texts mean equal values up to key order. */
  lemma {:induction false} CanonicalReadable(a: Value, b: Value)
    requires IsJson(a) && IsJson(b)
    ensures Readable(Canonical(a), Canonical(b))
    ensures Canonical(a) == Canonical(b) ==> Same(a, b)
    decreases a, 1
  {
    if KindOf(a) != KindOf(b) {
      KindsDiffer(a, b);
    } else {
      if a.Num? { NumberReadable(a.token, b.token); }
      else if a.Str? { StringReadable(a.s, b.s); }
      else if a.Arr? { ArrayReadable(a.items, b.items); }
      else if a.Obj? { ObjectReadable(a.fields, b.fields); }
      else { WordReadable(Canonical(a)); }
    }
  }

  lemma KindsDiffer(a: Value, b: Value)
    requires IsJson(a) && IsJson(b) && KindOf(a) != KindOf(b)
    ensures Readable(Canonical(a), Canonical(b)) && Canonical(a) != Canonical(b)
  {
    hide Canonical, KindOf, IsJson;
    CanonicalOpens(a);
    CanonicalOpens(b);
    forall u, v | Delimited(u) && Delimited(v) ensures Canonical(a) + u != Canonical(b) + v {
      assert (Canonical(a) + u)[0] == Canonical(a)[0] && (Canonical(b) + v)[0] == Canonical(b)[0];
    }
  }

  lemma WordReadable(p: string)
    ensures Readable(p, p)
  {
    forall u, v | Delimited(u) && Delimited(v) && p + u == p + v ensures u == v {
      assert u == (p + u)[|p|..] && v == (p + v)[|p|..];
    }
  }

  lemma Bracketed(open: char, p: seq<string>, q: seq<string>, close: char)
    requires Delimiter(close) && close != ','
    requires forall i | 0 <= i < |p| :: Opens(p[i])
    requires forall i | 0 <= i < |q| :: Opens(q[i])
    requires forall i | 0 <= i < |p| && i < |q| :: Readable(p[i], q[i])
    ensures var x, y := [open] + Join(p) + [close], [open] + Join(q) + [close];
            Readable(x, y) && (x == y ==> p == q)
  {
    hide Join, Delimited, Readable, Opens;
    var x, y := [open] + Join(p) + [close], [open] + Join(q) + [close];
    forall u, v | x + u == y + v ensures p == q && u == v { BracketSplit(open, p, q, close, u, v); }
    if x == y {
      assert x + "" == y + "";
      BracketSplit(open, p, q, close, "", "");
    }
    ReadableIf(x, y);
  }

  lemma ReadableIf(x: string, y: string)
    requires forall u, v | x + u == y + v :: x == y && u == v
    ensures Readable(x, y)
  {
  }

  lemma BracketSplit(open: char, p: seq<string>, q: seq<string>, close: char, u: string, v: string)
    requires Delimiter(close) && close != ','
    requires forall i | 0 <= i < |p| :: Opens(p[i])
    requires forall i | 0 <= i < |q| :: Opens(q[i])
    requires forall i | 0 <= i < |p| && i < |q| :: Readable(p[i], q[i])
    requires [open] + Join(p) + [close] + u == [open] + Join(q) + [close] + v
    ensures p == q && u == v
  {
    hide Join, Readable, Opens;
    assert ([open] + Join(p) + [close] + u)[1..] == Join(p) + [close] + u;
    assert ([open] + Join(q) + [close] + v)[1..] == Join(q) + [close] + v;
    JoinReadable(p, q, close, u, v);
  }

  lemma {:induction false} ArrayReadable(xs: seq<Value>, ys: seq<Value>)
    requires IsJson(Arr(xs)) && IsJson(Arr(ys))
    ensures Readable(Canonical(Arr(xs)), Canonical(Arr(ys)))
    ensures Canonical(Arr(xs)) == Canonical(Arr(ys)) ==> Same(Arr(xs), Arr(ys))
    decreases Arr(xs), 0
  {
    hide Canonical, Join, Readable, Opens;
    var p, q := ItemTexts(xs), ItemTexts(ys);
    CanonicalArray(xs);
    CanonicalArray(ys);
    forall i | 0 <= i < |p| ensures Opens(p[i]) { CanonicalOpens(xs[i]); }
    forall i | 0 <= i < |q| ensures Opens(q[i]) { CanonicalOpens(ys[i]); }
    forall i | 0 <= i < |xs| && i < |ys|
      ensures Readable(p[i], q[i]) && (p[i] == q[i] ==> Same(xs[i], ys[i]))
    {
      CanonicalReadable(xs[i], ys[i]);
    }
    Bracketed('[', p, q, ']');
  }

  lemma {:induction false} ObjectReadable(fs: seq<Field>, gs: seq<Field>)
    requires IsJson(Obj(fs)) && IsJson(Obj(gs))
    ensures Readable(Canonical(Obj(fs)), Canonical(Obj(gs)))
    ensures Canonical(Obj(fs)) == Canonical(Obj(gs)) ==> Same(Obj(fs), Obj(gs))
    decreases Obj(fs), 0
  {
    hide Canonical, Join, Readable, Opens, MemberText;
    var p, q := MemberTexts(fs), MemberTexts(gs);
    var ks, ls := SortedKeys(fs), SortedKeys(gs);
    CanonicalObject(fs);
    CanonicalObject(gs);
    forall i | 0 <= i < |p| ensures Opens(p[i]) { MemberOpens(ks[i], ValueAt(fs, ks[i])); }
    forall i | 0 <= i < |q| ensures Opens(q[i]) { MemberOpens(ls[i], ValueAt(gs, ls[i])); }
    forall i | 0 <= i < |p| && i < |q|
      ensures Readable(p[i], q[i])
      ensures p[i] == q[i] ==> ks[i] == ls[i] && Same(ValueAt(fs, ks[i]), ValueAt(gs, ls[i]))
    {
      var m, n := IndexOf(fs, ks[i]), IndexOf(gs, ls[i]);
      CanonicalReadable(fs[m].value, gs[n].value);
      MemberReadable(ks[i], fs[m].value, ls[i], gs[n].value);
    }
    Bracketed('{', p, q, '}');
    if p == q { SameMembers(fs, gs); }
  }

  /** Objects whose sorted keys agree and whose values agree key by key are the same up to order. */
  lemma SameMembers(fs: seq<Field>, gs: seq<Field>)
    requires IsJson(Obj(fs)) && IsJson(Obj(gs)) && |fs| == |gs|
    requires forall i | 0 <= i < |fs| ::
               var (k, l) := (SortedKeys(fs)[i], SortedKeys(gs)[i]);
               HasKey(fs, k) && HasKey(gs, l) && k == l && Same(ValueAt(fs, k), ValueAt(gs, l))
    ensures Same(Obj(fs), Obj(gs))
  {
    var ks := SortedKeys(fs);
    forall i | 0 <= i < |fs|
      ensures HasKey(gs, fs[i].key) && Same(fs[i].value, gs[IndexOf(gs, fs[i].key)].value)
    {
      assert HasKey(fs, fs[i].key);
      assert fs[i].key in ks;
      var m :| 0 <= m < |ks| && ks[m] == fs[i].key;
      assert IndexOf(fs, fs[i].key) == i;
    }
  }

  // ----- The other direction

  lemma {:induction false} SameCanonical(a: Value, b: Value)
    requires IsJson(a) && IsJson(b) && Same(a, b)
    ensures Canonical(a) == Canonical(b)
    decreases a
  {
    match a
    case Arr(xs) =>
      CanonicalArray(xs);
      CanonicalArray(b.items);
      forall i | 0 <= i < |xs| ensures ItemTexts(xs)[i] == ItemTexts(b.items)[i] { SameCanonical(xs[i], b.items[i]); }
      assert ItemTexts(xs) == ItemTexts(b.items);
    case Obj(fs) =>
      var gs := b.fields;
      SameKeys(fs, gs);
      CanonicalObject(fs);
      CanonicalObject(gs);
      var ks := SortedKeys(fs);
      forall i | 0 <= i < |ks| ensures MemberTexts(fs)[i] == MemberTexts(gs)[i] {
        var m := IndexOf(fs, ks[i]);
        SameCanonical(fs[m].value, gs[IndexOf(gs, ks[i])].value);
      }
      assert MemberTexts(fs) == MemberTexts(gs);
    case _ =>
  }

  lemma SameKeys(fs: seq<Field>, gs: seq<Field>)
    requires IsJson(Obj(fs)) && IsJson(Obj(gs)) && Same(Obj(fs), Obj(gs))
    ensures SortedKeys(fs) == SortedKeys(gs)
  {
    forall k | HasKey(fs, k) ensures HasKey(gs, k) {
      var i :| 0 <= i < |fs| && fs[i].key == k;
    }
    KeysCover(fs, gs);
    SortedKeysIncreasing(fs);
    SortedKeysIncreasing(gs);
    IncreasingUnique(SortedKeys(fs), SortedKeys(gs));
  }

  function KeySet(fs: seq<Field>): set<string> {
    set f | f in fs :: f.key
  }

  lemma {:induction false} KeySetSize(fs: seq<Field>)
    requires DistinctKeys(fs)
    ensures |KeySet(fs)| == |fs|
  {
    if fs != [] {
      KeySetSize(fs[1..]);
      assert KeySet(fs) == {fs[0].key} + KeySet(fs[1..]) by {
        assert forall f :: f in fs <==> f == fs[0] || f in fs[1..];
      }
    }
  }

  /** Equally many distinct keys, all of the first among the second, are the same keys. */
  lemma KeysCover(fs: seq<Field>, gs: seq<Field>)
    requires DistinctKeys(fs) && DistinctKeys(gs) && |fs| == |gs|
    requires forall k | HasKey(fs, k) :: HasKey(gs, k)
    ensures forall k | HasKey(gs, k) :: HasKey(fs, k)
  {
    KeySetSize(fs);
    KeySetSize(gs);
    KeySetMembers(fs);
    KeySetMembers(gs);
    var d := KeySet(gs) - KeySet(fs);
    assert KeySet(fs) <= KeySet(gs);
    assert KeySet(gs) == KeySet(fs) + d;
    assert |d| == 0;
  }

  lemma KeySetMembers(fs: seq<Field>)
    ensures forall k :: k in KeySet(fs) <==> HasKey(fs, k)
  {
    forall k ensures k in KeySet(fs) <==> HasKey(fs, k) {
      if k in KeySet(fs) { var f :| f in fs && f.key == k; }
      if HasKey(fs, k) { var i :| 0 <= i < |fs| && fs[i].key == k; assert fs[i] in fs; }
    }
  }

  /** The canonical text decides sameness up to key order, in both directions. */
  lemma CanonicalIff(a: Value, b: Value)
    requires IsJson(a) && IsJson(b)
    ensures Canonical(a) == Canonical(b) <==> Same(a, b)
  {
    CanonicalReadable(a, b);
    if Same(a, b) { SameCanonical(a, b); }
  }
}
