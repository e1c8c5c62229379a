/** The two tree redactions: `stripSecrets` before the safety reviewer's context and `redactValue` before an error's
    details.  Which names are secret and which texts are sensitive are parameters. */
module Redaction {
  import opened Values
  import opened Text

  const MAX_DEPTH := 8

  const MARK := Str("[redacted]")
  const DEPTH_MARK := Str("[redacted-depth]")

  type Naming = string -> bool

  // ----- stripSecrets

  function Strip(secret: Naming, v: Value, depth: nat): Value {
    if depth > MAX_DEPTH then DEPTH_MARK
    else match v
      case Arr(items) => Arr(seq(|items|, i requires 0 <= i < |items| => Strip(secret, items[i], depth + 1)))
      case Big(n) => Str(IntText(n))
      case Obj(fields) =>
        Obj(seq(|fields|, i requires 0 <= i < |fields| =>
          Field(fields[i].key, if secret(fields[i].key) then MARK else Strip(secret, fields[i].value, depth + 1))))
      case Error => Obj([])
      case _ => v
  }

  method StripSecrets(secret: Naming, v: Value, depth: nat) returns (r: Value)
    ensures r == Strip(secret, v, depth)
    decreases v
  {
    if depth > MAX_DEPTH {
      return DEPTH_MARK;
    }
    match v
    case Arr(items) => {
      var mapped: seq<Value> := [];
      for i := 0 to |items|
        invariant |mapped| == i && forall k | 0 <= k < i :: mapped[k] == Strip(secret, items[k], depth + 1)
      {
        var entry := StripSecrets(secret, items[i], depth + 1);
        mapped := mapped + [entry];
      }
      r := Arr(mapped);
      assert mapped == Strip(secret, v, depth).items;
    }
    case Big(n) => r := Str(IntText(n));
    case Obj(fields) => {
      var out: seq<Field> := [];
      for i := 0 to |fields|
        invariant |out| == i
        invariant forall k | 0 <= k < i ::
          out[k] == Field(fields[k].key, if secret(fields[k].key) then MARK else Strip(secret, fields[k].value, depth + 1))
      {
        if secret(fields[i].key) {
          out := out + [Field(fields[i].key, MARK)];
        } else {
          var entry := StripSecrets(secret, fields[i].value, depth + 1);
          out := out + [Field(fields[i].key, entry)];
        }
      }
      r := Obj(out);
      assert out == Strip(secret, v, depth).fields;
    }
    case Error => r := Obj([]);
    case _ => r := v;
  }

  // ----- redactValue

  function Redact(secret: Naming, sensitive: Naming, v: Value, depth: nat): Value {
    if depth > MAX_DEPTH then MARK
    else match v
      case Error => MARK
      case Str(s) => if sensitive(s) then MARK else v
      case Arr(items) => Arr(seq(|items|, i requires 0 <= i < |items| => Redact(secret, sensitive, items[i], depth + 1)))
      case Obj(fields) =>
        Obj(seq(|fields|, i requires 0 <= i < |fields| =>
          Field(fields[i].key, if secret(fields[i].key) then MARK else Redact(secret, sensitive, fields[i].value, depth + 1))))
      case _ => v
  }

  method RedactValue(secret: Naming, sensitive: Naming, v: Value, depth: nat) returns (r: Value)
    ensures r == Redact(secret, sensitive, v, depth)
    decreases v
  {
    if depth > MAX_DEPTH {
      return MARK;
    }
    match v
    case Error => r := MARK;
    case Str(s) => r := if sensitive(s) then MARK else v;
    case Arr(items) => {
      var mapped: seq<Value> := [];
      for i := 0 to |items|
        invariant |mapped| == i && forall k | 0 <= k < i :: mapped[k] == Redact(secret, sensitive, items[k], depth + 1)
      {
        var entry := RedactValue(secret, sensitive, items[i], depth + 1);
        mapped := mapped + [entry];
      }
      r := Arr(mapped);
      assert mapped == Redact(secret, sensitive, v, depth).items;
    }
    case Obj(fields) => {
      var redacted: seq<Field> := [];
      for i := 0 to |fields|
        invariant |redacted| == i
        invariant forall k | 0 <= k < i ::
          redacted[k] == Field(fields[k].key, if secret(fields[k].key) then MARK else Redact(secret, sensitive, fields[k].value, depth + 1))
      {
        if secret(fields[i].key) {
          redacted := redacted + [Field(fields[i].key, MARK)];
        } else {
          var entry := RedactValue(secret, sensitive, fields[i].value, depth + 1);
          redacted := redacted + [Field(fields[i].key, entry)];
        }
      }
      r := Obj(redacted);
      assert redacted == Redact(secret, sensitive, v, depth).fields;
    }
    case _ => r := v;
  }

  // ----- Depth

  /** The tree has no value below `n` levels. */
  predicate Within(v: Value, n: nat) {
    match v
    case Arr(items) => forall i | 0 <= i < |items| :: n > 0 && Within(items[i], n - 1)
    case Obj(fields) => forall i | 0 <= i < |fields| :: n > 0 && Within(fields[i].value, n - 1)
    case _ => true
  }

  function Left(depth: nat): nat {
    if depth > 8 then 0 else 9 - depth
  }

  /** However deep the input, the output has at most nine levels below its root. */
  lemma {:induction false} StripBounded(secret: Naming, v: Value, depth: nat)
    ensures Within(Strip(secret, v, depth), Left(depth))
  {
    if depth <= MAX_DEPTH {
      if v.Arr? {
        forall i | 0 <= i < |v.items| ensures Within(Strip(secret, v.items[i], depth + 1), Left(depth + 1)) {
          StripBounded(secret, v.items[i], depth + 1);
        }
      } else if v.Obj? {
        forall i | 0 <= i < |v.fields| ensures Within(Strip(secret, v.fields[i].value, depth + 1), Left(depth + 1)) {
          StripBounded(secret, v.fields[i].value, depth + 1);
        }
      }
    }
  }

  lemma {:induction false} RedactBounded(secret: Naming, sensitive: Naming, v: Value, depth: nat)
    ensures Within(Redact(secret, sensitive, v, depth), Left(depth))
  {
    if depth <= MAX_DEPTH {
      if v.Arr? {
        forall i | 0 <= i < |v.items| ensures Within(Redact(secret, sensitive, v.items[i], depth + 1), Left(depth + 1)) {
          RedactBounded(secret, sensitive, v.items[i], depth + 1);
        }
      } else if v.Obj? {
        forall i | 0 <= i < |v.fields| ensures Within(Redact(secret, sensitive, v.fields[i].value, depth + 1), Left(depth + 1)) {
          RedactBounded(secret, sensitive, v.fields[i].value, depth + 1);
        }
      }
    }
  }

  // ----- Doing it twice

  lemma {:induction false} StripIdempotent(secret: Naming, v: Value, depth: nat)
    ensures Strip(secret, Strip(secret, v, depth), depth) == Strip(secret, v, depth)
  {
    if depth <= MAX_DEPTH {
      var once := Strip(secret, v, depth);
      var twice := Strip(secret, once, depth);
      if v.Arr? {
        forall i | 0 <= i < |v.items| ensures twice.items[i] == once.items[i] { StripIdempotent(secret, v.items[i], depth + 1); }
        assert twice.items == once.items;
      } else if v.Obj? {
        forall i | 0 <= i < |v.fields| ensures twice.fields[i] == once.fields[i] { StripIdempotent(secret, v.fields[i].value, depth + 1); }
        assert twice.fields == once.fields;
      } else if v.Error? {
        assert twice.fields == [];
      }
    }
  }

  lemma {:induction false} RedactIdempotent(secret: Naming, sensitive: Naming, v: Value, depth: nat)
    ensures Redact(secret, sensitive, Redact(secret, sensitive, v, depth), depth) == Redact(secret, sensitive, v, depth)
  {
    if depth <= MAX_DEPTH {
      var once := Redact(secret, sensitive, v, depth);
      var twice := Redact(secret, sensitive, once, depth);
      if v.Arr? {
        forall i | 0 <= i < |v.items| ensures twice.items[i] == once.items[i] {
          RedactIdempotent(secret, sensitive, v.items[i], depth + 1);
        }
        assert twice.items == once.items;
      } else if v.Obj? {
        forall i | 0 <= i < |v.fields| ensures twice.fields[i] == once.fields[i] {
          RedactIdempotent(secret, sensitive, v.fields[i].value, depth + 1);
        }
        assert twice.fields == once.fields;
      }
    }
  }

  // ----- What the output reveals

  predicate Nested(v: Value) {
    v.Arr? || v.Obj? || v.Error?
  }

  /** The two trees differ at most under secret names and below the depth limit; a BigInt is its numeral and an
      error is an empty object. */
  predicate SameShown(secret: Naming, a: Value, b: Value, depth: nat) {
    if depth > 8 then true
    else match a
      case Arr(items) =>
        b.Arr? && |items| == |b.items| && forall i | 0 <= i < |items| :: SameShown(secret, items[i], b.items[i], depth + 1)
      case Obj(fields) =>
        if b.Error? then fields == []
        else
          b.Obj? && |fields| == |b.fields| &&
          forall i | 0 <= i < |fields| ::
            fields[i].key == b.fields[i].key &&
            (secret(fields[i].key) || SameShown(secret, fields[i].value, b.fields[i].value, depth + 1))
      case Error => b.Error? || b == Obj([])
      case _ => !Nested(b) && Printed(a) == Printed(b)
  }

  function Printed(v: Value): Value {
    if v.Big? then Str(IntText(v.n)) else v
  }

  /** The output depends on nothing else, and on all of that: equal outputs exactly for such trees. */
  lemma {:induction false} StripReveals(secret: Naming, a: Value, b: Value, depth: nat)
    ensures Strip(secret, a, depth) == Strip(secret, b, depth) <==> SameShown(secret, a, b, depth)
    decreases a, 1
  {
    hide IntText;
    if depth <= MAX_DEPTH {
      var (x, y) := (Strip(secret, a, depth), Strip(secret, b, depth));
      if a.Arr? && b.Arr? {
        StripRevealsItems(secret, a, b, depth);
      } else if a.Obj? && b.Obj? {
        StripRevealsFields(secret, a, b, depth);
      }
    }
  }

  lemma {:induction false} StripRevealsItems(secret: Naming, a: Value, b: Value, depth: nat)
    requires a.Arr? && b.Arr? && depth <= MAX_DEPTH
    ensures Strip(secret, a, depth) == Strip(secret, b, depth) <==> SameShown(secret, a, b, depth)
    decreases a, 0
  {
    var (x, y) := (Strip(secret, a, depth), Strip(secret, b, depth));
    if |a.items| == |b.items| {
      forall i | 0 <= i < |a.items|
        ensures x.items[i] == y.items[i] <==> SameShown(secret, a.items[i], b.items[i], depth + 1)
      {
        StripReveals(secret, a.items[i], b.items[i], depth + 1);
      }
      assert x.items == y.items <==> forall i | 0 <= i < |a.items| :: x.items[i] == y.items[i];
    } else {
      assert |x.items| != |y.items|;
    }
  }

  lemma {:induction false} StripRevealsFields(secret: Naming, a: Value, b: Value, depth: nat)
    requires a.Obj? && b.Obj? && depth <= MAX_DEPTH
    ensures Strip(secret, a, depth) == Strip(secret, b, depth) <==> SameShown(secret, a, b, depth)
    decreases a, 0
  {
    var (x, y) := (Strip(secret, a, depth), Strip(secret, b, depth));
    if |a.fields| == |b.fields| {
      forall i | 0 <= i < |a.fields|
        ensures x.fields[i] == y.fields[i] <==>
                  a.fields[i].key == b.fields[i].key &&
                  (secret(a.fields[i].key) || SameShown(secret, a.fields[i].value, b.fields[i].value, depth + 1))
      {
        StripReveals(secret, a.fields[i].value, b.fields[i].value, depth + 1);
      }
      assert x.fields == y.fields <==> forall i | 0 <= i < |a.fields| :: x.fields[i] == y.fields[i];
    } else {
      assert |x.fields| != |y.fields|;
    }
  }

  /** The value is shown as the mark: an error, a sensitive text, or the mark itself. */
  predicate Marked(sensitive: Naming, v: Value) {
    v.Error? || v == MARK || (v.Str? && sensitive(v.s))
  }

  /** The two trees differ at most under secret names, below the depth limit, and between values shown as the mark. */
  predicate SameRedacted(secret: Naming, sensitive: Naming, a: Value, b: Value, depth: nat) {
    if depth > 8 then true
    else match a
      case Arr(items) =>
        b.Arr? && |items| == |b.items| && forall i | 0 <= i < |items| :: SameRedacted(secret, sensitive, items[i], b.items[i], depth + 1)
      case Obj(fields) =>
        b.Obj? && |fields| == |b.fields| &&
        forall i | 0 <= i < |fields| ::
          fields[i].key == b.fields[i].key &&
          (secret(fields[i].key) || SameRedacted(secret, sensitive, fields[i].value, b.fields[i].value, depth + 1))
      case _ => if Marked(sensitive, a) then Marked(sensitive, b) else a == b
  }

  lemma {:induction false} RedactReveals(secret: Naming, sensitive: Naming, a: Value, b: Value, depth: nat)
    ensures Redact(secret, sensitive, a, depth) == Redact(secret, sensitive, b, depth) <==> SameRedacted(secret, sensitive, a, b, depth)
    decreases a, 1
  {
    if depth <= MAX_DEPTH {
      if a.Arr? && b.Arr? {
        RedactRevealsItems(secret, sensitive, a, b, depth);
      } else if a.Obj? && b.Obj? {
        RedactRevealsFields(secret, sensitive, a, b, depth);
      }
    }
  }

  lemma {:induction false} RedactRevealsItems(secret: Naming, sensitive: Naming, a: Value, b: Value, depth: nat)
    requires a.Arr? && b.Arr? && depth <= MAX_DEPTH
    ensures Redact(secret, sensitive, a, depth) == Redact(secret, sensitive, b, depth) <==> SameRedacted(secret, sensitive, a, b, depth)
    decreases a, 0
  {
    var (x, y) := (Redact(secret, sensitive, a, depth), Redact(secret, sensitive, b, depth));
    if |a.items| == |b.items| {
      forall i | 0 <= i < |a.items|
        ensures x.items[i] == y.items[i] <==> SameRedacted(secret, sensitive, a.items[i], b.items[i], depth + 1)
      {
        RedactReveals(secret, sensitive, a.items[i], b.items[i], depth + 1);
      }
      assert x.items == y.items <==> forall i | 0 <= i < |a.items| :: x.items[i] == y.items[i];
    } else {
      assert |x.items| != |y.items|;
    }
  }

  lemma {:induction false} RedactRevealsFields(secret: Naming, sensitive: Naming, a: Value, b: Value, depth: nat)
    requires a.Obj? && b.Obj? && depth <= MAX_DEPTH
    ensures Redact(secret, sensitive, a, depth) == Redact(secret, sensitive, b, depth) <==> SameRedacted(secret, sensitive, a, b, depth)
    decreases a, 0
  {
    var (x, y) := (Redact(secret, sensitive, a, depth), Redact(secret, sensitive, b, depth));
    if |a.fields| == |b.fields| {
      forall i | 0 <= i < |a.fields|
        ensures x.fields[i] == y.fields[i] <==>
                  a.fields[i].key == b.fields[i].key &&
                  (secret(a.fields[i].key) || SameRedacted(secret, sensitive, a.fields[i].value, b.fields[i].value, depth + 1))
      {
        RedactReveals(secret, sensitive, a.fields[i].value, b.fields[i].value, depth + 1);
      }
      assert x.fields == y.fields <==> forall i | 0 <= i < |a.fields| :: x.fields[i] == y.fields[i];
    } else {
      assert |x.fields| != |y.fields|;
    }
  }
}
