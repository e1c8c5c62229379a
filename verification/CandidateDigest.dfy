/** The candidate transaction digest: which candidates are identified, and which are not. */
module CandidateDigest {
  import opened Values
  import opened Text
  import opened CanonicalJson
  import KeccakSponge

  const DIGEST_VERSION := "compass-candidate-v1"

  function DigestFields(): seq<string> {
    ["chain_id", "account", "to", "value", "data", "tool_name", "args", "token", "spender", "amount",
     "max_fee_per_gas_wei", "max_priority_fee_per_gas_wei", "gas_limit", "estimated_gas_cost_wei"]
  }

  /** A candidate's fields; a missing entry is `undefined`. */
  type Candidate = map<string, Value>

  /** Every field is a JSON value or a BigInt. */
  predicate WellFormed(c: Candidate) {
    forall f | f in c :: IsJson(c[f]) || c[f].Big?
  }

  predicate Present(c: Candidate, f: string) {
    f in c && !c[f].Null?
  }

  function Normalized(v: Value): (r: Value)
    requires IsJson(v) || v.Big?
    ensures IsJson(r)
  {
    match v
    case Str(s) => if HexText(s) then Str(Lower(s)) else v
    case Big(n) => Str(IntText(n))
    case _ => v
  }

  function Ordered(c: Candidate, fields: seq<string>): seq<Field>
    requires WellFormed(c)
  {
    if fields == [] then []
    else if Present(c, fields[0]) then [Field(fields[0], Normalized(c[fields[0]]))] + Ordered(c, fields[1..])
    else Ordered(c, fields[1..])
  }

  function Covered(c: Candidate, fields: seq<string>): seq<string> {
    if fields == [] then []
    else if Present(c, fields[0]) then [fields[0]] + Covered(c, fields[1..])
    else Covered(c, fields[1..])
  }

  lemma FieldsDistinct()
    ensures Distinct(DigestFields())
  {
  }

  // ----- The ordered fields

  lemma {:induction false} OrderedKeys(c: Candidate, fields: seq<string>, f: string)
    requires WellFormed(c)
    ensures HasKey(Ordered(c, fields), f) <==> f in fields && Present(c, f)
    ensures f in Covered(c, fields) <==> f in fields && Present(c, f)
  {
    if fields != [] {
      OrderedKeys(c, fields[1..], f);
      assert f in fields <==> f == fields[0] || f in fields[1..];
      if Present(c, fields[0]) { HasKeySplit(Ordered(c, fields)); }
    }
  }

  lemma {:induction false} OrderedIsJson(c: Candidate, fields: seq<string>)
    requires WellFormed(c) && Distinct(fields)
    ensures IsJson(Obj(Ordered(c, fields)))
  {
    if fields != [] {
      var rest := Ordered(c, fields[1..]);
      OrderedIsJson(c, fields[1..]);
      forall i | 0 <= i < |rest| ensures rest[i].key != fields[0] {
        assert HasKey(rest, rest[i].key);
        OrderedKeys(c, fields[1..], rest[i].key);
        var m :| 0 <= m < |fields[1..]| && fields[1..][m] == rest[i].key;
        assert fields[m + 1] == rest[i].key;
      }
    }
  }

  lemma {:induction false} OrderedValue(c: Candidate, fields: seq<string>, f: string)
    requires WellFormed(c) && Distinct(fields) && HasKey(Ordered(c, fields), f)
    ensures Present(c, f) && Ordered(c, fields)[IndexOf(Ordered(c, fields), f)].value == Normalized(c[f])
  {
    OrderedKeys(c, fields, f);
    var all := Ordered(c, fields);
    if Present(c, fields[0]) {
      if f != fields[0] {
        HasKeySplit(all);
        OrderedValue(c, fields[1..], f);
        assert all[1..] == Ordered(c, fields[1..]);
      }
    } else {
      OrderedValue(c, fields[1..], f);
    }
  }

  /** The field is present in both, with the same normalised value, or absent from both. */
  predicate SameField(a: Candidate, b: Candidate, f: string)
    requires WellFormed(a) && WellFormed(b)
  {
    (Present(a, f) <==> Present(b, f)) && (Present(a, f) ==> Same(Normalized(a[f]), Normalized(b[f])))
  }

  predicate SameFields(a: Candidate, b: Candidate, fields: seq<string>)
    requires WellFormed(a) && WellFormed(b)
  {
    forall f | f in fields :: SameField(a, b, f)
  }

  lemma {:induction false} OrderedLength(a: Candidate, b: Candidate, fields: seq<string>)
    requires WellFormed(a) && WellFormed(b) && SameFields(a, b, fields)
    ensures |Ordered(a, fields)| == |Ordered(b, fields)|
  {
    if fields != [] {
      assert forall f | f in fields[1..] :: f in fields;
      assert fields[0] in fields;
      OrderedLength(a, b, fields[1..]);
    }
  }

  lemma OrderedSame(a: Candidate, b: Candidate, fields: seq<string>)
    requires WellFormed(a) && WellFormed(b) && Distinct(fields)
    ensures Same(Obj(Ordered(a, fields)), Obj(Ordered(b, fields))) <==> SameFields(a, b, fields)
  {
    hide Normalized, Present, Ordered, SameField;
    var x, y := Ordered(a, fields), Ordered(b, fields);
    if SameFields(a, b, fields) {
      OrderedLength(a, b, fields);
      forall i | 0 <= i < |x| ensures HasKey(y, x[i].key) && Same(x[i].value, y[IndexOf(y, x[i].key)].value) {
        OrderedAgree(a, b, fields, i);
      }
    }
    if Same(Obj(x), Obj(y)) {
      forall f | f in fields ensures SameField(a, b, f) {
        OrderedField(a, b, fields, f);
      }
    }
  }

  lemma OrderedField(a: Candidate, b: Candidate, fields: seq<string>, f: string)
    requires WellFormed(a) && WellFormed(b) && Distinct(fields) && f in fields
    requires Same(Obj(Ordered(a, fields)), Obj(Ordered(b, fields)))
    ensures SameField(a, b, f)
  {
    hide Normalized, Ordered;
    var x, y := Ordered(a, fields), Ordered(b, fields);
    OrderedIsJson(a, fields);
    OrderedIsJson(b, fields);
    SameKeys(x, y);
    OrderedKeys(a, fields, f);
    OrderedKeys(b, fields, f);
    SameHasKey(x, y, f);
    if Present(a, f) {
      OrderedValue(a, fields, f);
      OrderedValue(b, fields, f);
      var i := IndexOf(x, f);
      assert x[i].key == f;
    }
  }

  lemma SameHasKey(x: seq<Field>, y: seq<Field>, f: string)
    requires SortedKeys(x) == SortedKeys(y)
    ensures HasKey(x, f) <==> HasKey(y, f)
  {
    assert f in SortedKeys(x) <==> HasKey(x, f);
    assert f in SortedKeys(y) <==> HasKey(y, f);
  }

  lemma OrderedAgree(a: Candidate, b: Candidate, fields: seq<string>, i: nat)
    requires WellFormed(a) && WellFormed(b) && Distinct(fields) && SameFields(a, b, fields)
    requires i < |Ordered(a, fields)|
    ensures var (x, y) := (Ordered(a, fields), Ordered(b, fields));
            HasKey(y, x[i].key) && Same(x[i].value, y[IndexOf(y, x[i].key)].value)
  {
    hide Normalized, Present, Ordered;
    var x, f := Ordered(a, fields), Ordered(a, fields)[i].key;
    OrderedIsJson(a, fields);
    assert HasKey(x, f);
    assert IndexOf(x, f) == i;
    OrderedKeys(a, fields, f);
    OrderedKeys(b, fields, f);
    OrderedValue(a, fields, f);
    OrderedValue(b, fields, f);
  }

  // ----- The payload

  function PayloadValue(c: Candidate): Value
    requires WellFormed(c)
  {
    Obj([Field("digest_version", Str(DIGEST_VERSION)), Field("fields", Obj(Ordered(c, DigestFields())))])
  }

  lemma PayloadIsJson(c: Candidate)
    requires WellFormed(c)
    ensures IsJson(PayloadValue(c))
  {
    hide Ordered, DigestFields;
    FieldsDistinct();
    OrderedIsJson(c, DigestFields());
  }

  function Payload(c: Candidate): string
    requires WellFormed(c)
  {
    PayloadIsJson(c);
    Canonical(PayloadValue(c))
  }

  /** Two candidates have the same payload exactly when their normalised present fields are the same. */
  lemma PayloadIff(a: Candidate, b: Candidate)
    requires WellFormed(a) && WellFormed(b)
    ensures Payload(a) == Payload(b) <==> SameFields(a, b, DigestFields())
  {
    hide Ordered, DigestFields, Canonical, SameFields;
    PayloadIsJson(a);
    PayloadIsJson(b);
    FieldsDistinct();
    CanonicalIff(PayloadValue(a), PayloadValue(b));
    OrderedSame(a, b, DigestFields());
    WrappedSame(Obj(Ordered(a, DigestFields())), Obj(Ordered(b, DigestFields())));
  }

  lemma WrappedSame(u: Value, v: Value)
    ensures var head := Field("digest_version", Str(DIGEST_VERSION));
            Same(Obj([head, Field("fields", u)]), Obj([head, Field("fields", v)])) <==> Same(u, v)
  {
    var head := Field("digest_version", Str(DIGEST_VERSION));
    var x, y := [head, Field("fields", u)], [head, Field("fields", v)];
    assert x[1].key == "fields" && y[0].key == "digest_version" && y[1].key == "fields";
    assert HasKey(y, "digest_version") && HasKey(y, "fields");
    assert "digest_version"[0] != "fields"[0];
    assert IndexOf(y, "digest_version") == 0 && IndexOf(y, "fields") == 1;
  }

  /** Exactly which values of a field are identified: the same JSON, hexadecimal texts that differ in
      letter case, and a BigInt with its decimal text. */
  lemma NormalizedIff(u: Value, v: Value)
    requires (IsJson(u) || u.Big?) && (IsJson(v) || v.Big?)
    ensures Same(Normalized(u), Normalized(v)) <==>
              (!u.Big? && !v.Big? && Same(u, v)) ||
              (u.Str? && v.Str? && HexText(u.s) && HexText(v.s) && Lower(u.s) == Lower(v.s)) ||
              (u.Big? && v == Str(IntText(u.n))) || (v.Big? && u == Str(IntText(v.n))) ||
              (u.Big? && u == v)
  {
    hide IntText, Lower;
    if u.Big? { IntTextNotHex(u.n); }
    if v.Big? { IntTextNotHex(v.n); }
    if u.Big? && v.Big? { IntTextInjective(u.n, v.n); }
    if u.Str? && HexText(u.s) { LowerHex(u.s); }
    if v.Str? && HexText(v.s) { LowerHex(v.s); }
  }

  lemma IntTextNotHex(n: int)
    ensures !HexText(IntText(n)) && forall s: string :: HexText(s) ==> Lower(s) != IntText(n)
  {
    var t := IntText(n);
    if n >= 0 { DecimalRoundTrip(n); } else { DecimalRoundTrip(-n); }
    assert |t| > 1 ==> t[1] != 'x';
    forall s: string | HexText(s) ensures Lower(s) != t { assert Lower(s)[1] == 'x'; }
  }

  lemma IntTextInjective(m: int, n: int)
    ensures IntText(m) == IntText(n) <==> m == n
  {
    if IntText(m) == IntText(n) {
      DecimalRoundTrip(if m < 0 then -m else m);
      DecimalRoundTrip(if n < 0 then -n else n);
      if m < 0 && n < 0 { assert Decimal(-m) == IntText(m)[1..] && Decimal(-n) == IntText(n)[1..]; }
      assert m < 0 <==> IntText(m)[0] == '-';
      assert n < 0 <==> IntText(n)[0] == '-';
    }
  }

  lemma LowerHex(s: string)
    requires HexText(s)
    ensures HexText(Lower(s))
  {
  }

  // ----- The covered fields

  function PositionIn(fields: seq<string>, f: string): (i: nat)
    requires f in fields
    ensures i < |fields| && fields[i] == f
  {
    if fields[0] == f then 0 else 1 + PositionIn(fields[1..], f)
  }

  predicate Before(fields: seq<string>, f: string, g: string) {
    f in fields && g in fields && PositionIn(fields, f) < PositionIn(fields, g)
  }

  /** The entries of `r` appear in the order of `fields`, each once. */
  predicate InOrder(fields: seq<string>, r: seq<string>) {
    forall i, j | 0 <= i < j < |r| :: Before(fields, r[i], r[j])
  }

  lemma LaterPosition(fields: seq<string>, f: string)
    requires Distinct(fields) && fields != [] && f in fields[1..]
    ensures f in fields && f != fields[0] && PositionIn(fields, f) == 1 + PositionIn(fields[1..], f)
  {
    var m :| 0 <= m < |fields[1..]| && fields[1..][m] == f;
    assert fields[m + 1] == f;
  }

  /** `covered_fields` holds exactly the present fields, in the order of the field list, each once. */
  lemma {:induction false} CoveredSubsequence(c: Candidate, fields: seq<string>)
    requires Distinct(fields)
    ensures forall f :: f in Covered(c, fields) <==> f in fields && Present(c, f)
    ensures InOrder(fields, Covered(c, fields))
  {
    hide PositionIn, Present;
    if fields != [] {
      var rest, q := fields[1..], Covered(c, fields[1..]);
      CoveredSubsequence(c, rest);
      assert forall f :: f in fields <==> f == fields[0] || f in rest;
      forall i, j | 0 <= i < j < |q| ensures Before(fields, q[i], q[j]) {
        LaterPosition(fields, q[i]);
        LaterPosition(fields, q[j]);
        assert Before(rest, q[i], q[j]);
      }
      forall j | 0 <= j < |q| ensures Before(fields, fields[0], q[j]) {
        LaterPosition(fields, q[j]);
        FirstPosition(fields);
      }
    }
  }

  lemma FirstPosition(fields: seq<string>)
    requires fields != []
    ensures PositionIn(fields, fields[0]) == 0
  {
  }

  // ----- The program

  lemma OrderedAppend(c: Candidate, fields: seq<string>, f: string)
    requires WellFormed(c)
    ensures Ordered(c, fields + [f]) ==
            Ordered(c, fields) + (if Present(c, f) then [Field(f, Normalized(c[f]))] else [])
    ensures Covered(c, fields + [f]) == Covered(c, fields) + (if Present(c, f) then [f] else [])
  {
    if fields == [] {
      assert [] + [f] == [f];
    } else {
      OrderedAppend(c, fields[1..], f);
      assert (fields + [f])[1..] == fields[1..] + [f];
    }
  }

  method BuildCandidateTxDigest(c: Candidate) returns (digest: string, covered: seq<string>, version: string)
    requires WellFormed(c)
    ensures digest == Hash(Payload(c))
    ensures forall f :: f in covered <==> f in DigestFields() && Present(c, f)
    ensures InOrder(DigestFields(), covered)
    ensures version == DIGEST_VERSION
  {
    hide Ordered, Covered, Canonical, DigestFields, Normalized, Utf8;
    var fields := DigestFields();
    var ordered: seq<Field> := [];
    covered := [];
    assert Ordered(c, fields[..0]) == [] && Covered(c, fields[..0]) == [] by { EmptyFields(c, fields[..0]); }
    for i := 0 to |fields|
      invariant ordered == Ordered(c, fields[..i]) && covered == Covered(c, fields[..i])
    {
      var field := fields[i];
      assert fields[..i + 1] == fields[..i] + [field];
      OrderedAppend(c, fields[..i], field);
      if field in c && !c[field].Null? {
        var value := c[field];
        if value.Str? {
          ordered := ordered + [Field(field, if HexText(value.s) then Str(Lower(value.s)) else value)];
        } else if value.Big? {
          ordered := ordered + [Field(field, Str(IntText(value.n)))];
        } else {
          ordered := ordered + [Field(field, value)];
        }
        NormalizedIs(value);
        covered := covered + [field];
      }
    }
    assert fields[..|fields|] == fields;
    FieldsDistinct();
    CoveredSubsequence(c, fields);
    PayloadIsJson(c);
    var payload := Canonical(Obj([Field("digest_version", Str(DIGEST_VERSION)), Field("fields", Obj(ordered))]));
    digest := KeccakSponge.Keccak256(Utf8(payload));
    version := DIGEST_VERSION;
  }

  lemma EmptyFields(c: Candidate, fields: seq<string>)
    requires WellFormed(c) && fields == []
    ensures Ordered(c, fields) == [] && Covered(c, fields) == []
  {
  }

  lemma NormalizedIs(v: Value)
    requires IsJson(v) || v.Big?
    ensures v.Str? ==> Normalized(v) == if HexText(v.s) then Str(Lower(v.s)) else v
    ensures v.Big? ==> Normalized(v) == Str(IntText(v.n))
    ensures !v.Str? && !v.Big? ==> Normalized(v) == v
  {
  }
}
