/** Reading JSON as RFC 8259 lays it out, without white space, and what is read of a canonical text. */
module JsonReader {
  import opened Values
  import opened CanonicalJson
  import CandidateDigest

  // ----- Strings, section 7

  function HexValue(c: char): Option<nat> {
    if '0' <= c <= '9' then Some(c as int - '0' as int)
    else if 'a' <= c <= 'f' then Some(c as int - 'a' as int + 10)
    else if 'A' <= c <= 'F' then Some(c as int - 'A' as int + 10)
    else None
  }

  /** Four hexadecimal digits. */
  function UnitOf(s: string): Option<nat>
    requires |s| == 4
  {
    var (a, b, c, d) := (HexValue(s[0]), HexValue(s[1]), HexValue(s[2]), HexValue(s[3]));
    if a.None? || b.None? || c.None? || d.None? then None else Some(0x1000 * a.value + 0x100 * b.value + 0x10 * c.value + d.value)
  }

  /** The character that a letter after a backslash stands for. */
  function Escaped(c: char): Option<char> {
    if c == '\"' then Some('\"') else if c == '\\' then Some('\\') else if c == '/' then Some('/')
    else if c == 'b' then Some(0x08 as char) else if c == 'f' then Some(0x0C as char) else if c == 'n' then Some(0x0A as char)
    else if c == 'r' then Some(0x0D as char) else if c == 't' then Some(0x09 as char) else None
  }

  /** One character, written as itself or escaped; code units of surrogate pairs are not read. */
  function ReadChar(s: string): (r: Option<(char, string)>)
    ensures r.Some? ==> |r.value.1| < |s|
  {
    if s == "" || s[0] == '\"' || s[0] < 0x20 as char then None
    else if s[0] != '\\' then Some((s[0], s[1..]))
    else if |s| < 2 then None
    else if s[1] == 'u' then
      if |s| < 6 then None
      else
        var n := UnitOf(s[2..6]);
        if n.None? || 0xD800 <= n.value < 0xE000 || n.value > 0xFFFF then None else Some((n.value as char, s[6..]))
    else
      var c := Escaped(s[1]);
      if c.None? then None else Some((c.value, s[2..]))
  }

  /** A string after its opening quote, up to and with its closing one. */
  function ReadString(s: string): (r: Option<(string, string)>)
    ensures r.Some? ==> |r.value.1| < |s|
    decreases |s|
  {
    if s == "" then None
    else if s[0] == '\"' then Some(("", s[1..]))
    else
      var first := ReadChar(s);
      if first.None? then None
      else
        var rest := ReadString(first.value.1);
        if rest.None? then None else Some(([first.value.0] + rest.value.0, rest.value.1))
  }

  // ----- Values

  function NumberLength(s: string): (n: nat)
    ensures n <= |s|
  {
    if s != "" && NumberChar(s[0]) then 1 + NumberLength(s[1..]) else 0
  }

  function ReadNumber(s: string): (r: Option<(Value, string)>)
    ensures r.Some? ==> |r.value.1| < |s|
  {
    var n := NumberLength(s);
    if NumberToken(s[..n]) then Some((Num(s[..n]), s[n..])) else None
  }

  function ReadWord(s: string, word: string, v: Value): (r: Option<(Value, string)>)
    requires word != ""
    ensures r.Some? ==> |r.value.1| < |s|
  {
    if |s| >= |word| && s[..|word|] == word then Some((v, s[|word|..])) else None
  }

  /** The value at the start of the text, and what follows it. */
  function ReadValue(s: string): (r: Option<(Value, string)>)
    ensures r.Some? ==> |r.value.1| < |s|
    decreases |s|, 0
  {
    if s == "" then None
    else if s[0] == 'n' then ReadWord(s, "null", Null)
    else if s[0] == 't' then ReadWord(s, "true", Bool(true))
    else if s[0] == 'f' then ReadWord(s, "false", Bool(false))
    else if s[0] == '\"' then
      var text := ReadString(s[1..]);
      if text.None? then None else Some((Str(text.value.0), text.value.1))
    else if s[0] == '[' then
      if |s| > 1 && s[1] == ']' then Some((Arr([]), s[2..]))
      else
        var items := ReadItems(s[1..]);
        if items.None? then None else Some((Arr(items.value.0), items.value.1))
    else if s[0] == '{' then
      if |s| > 1 && s[1] == '}' then Some((Obj([]), s[2..]))
      else
        var members := ReadMembers(s[1..]);
        if members.None? then None else Some((Obj(members.value.0), members.value.1))
    else ReadNumber(s)
  }

  /** The values up to the closing bracket. */
  function ReadItems(s: string): (r: Option<(seq<Value>, string)>)
    ensures r.Some? ==> |r.value.1| < |s|
    decreases |s|, 1
  {
    var first := ReadValue(s);
    if first.None? || first.value.1 == "" then None
    else
      var (v, t) := first.value;
      if t[0] == ']' then Some(([v], t[1..]))
      else if t[0] != ',' then None
      else
        var rest := ReadItems(t[1..]);
        if rest.None? then None else Some(([v] + rest.value.0, rest.value.1))
  }

  /** One name, a colon and a value. */
  function ReadMember(s: string): (r: Option<(Field, string)>)
    ensures r.Some? ==> |r.value.1| < |s|
    decreases |s|, 1
  {
    if s == "" || s[0] != '\"' then None
    else
      var key := ReadString(s[1..]);
      if key.None? || key.value.1 == "" || key.value.1[0] != ':' then None
      else
        var v := ReadValue(key.value.1[1..]);
        if v.None? then None else Some((Field(key.value.0, v.value.0), v.value.1))
  }

  /** The members up to the closing brace. */
  function ReadMembers(s: string): (r: Option<(seq<Field>, string)>)
    ensures r.Some? ==> |r.value.1| < |s|
    decreases |s|, 2
  {
    var first := ReadMember(s);
    if first.None? || first.value.1 == "" then None
    else
      var (f, t) := first.value;
      if t[0] == '}' then Some(([f], t[1..]))
      else if t[0] != ',' then None
      else
        var rest := ReadMembers(t[1..]);
        if rest.None? then None else Some(([f] + rest.value.0, rest.value.1))
  }

  // ----- Reading what was written

  lemma HexRead(n: nat)
    requires n < 16
    ensures HexValue(HexChar(n)) == Some(n)
  {
  }

  lemma EscapeRead(c: char, t: string)
    ensures ReadChar(Escape(c) + t) == Some((c, t))
  {
    hide HexValue, HexChar;
    var (e, n) := (Escape(c), c as int);
    assert (e + t)[|e|..] == t;
    assert (e + t)[0] == e[0];
    if |e| > 1 { assert (e + t)[1] == e[1]; }
    if |e| == 6 {
      HexRead(n / 16);
      HexRead(n % 16);
      HexRead(0);
      HexZero();
      assert (e + t)[2..6] == e[2..];
    }
  }

  lemma HexZero()
    ensures HexChar(0) == '0'
  {
  }

  lemma {:induction false} StringRead(x: string, rest: string)
    ensures ReadString(EscapeAll(x) + "\"" + rest) == Some((x, rest))
  {
    hide Escape, ReadChar;
    var s := EscapeAll(x) + "\"" + rest;
    QuoteFirst(x, rest);
    if x == "" {
      assert s[1..] == rest;
    } else {
      var t := EscapeAll(x[1..]) + "\"" + rest;
      assert s == Escape(x[0]) + t;
      EscapeRead(x[0], t);
      StringRead(x[1..], rest);
      assert x == [x[0]] + x[1..];
    }
  }

  lemma {:induction false} NumberRead(t: string, rest: string)
    requires Delimited(rest) && forall i | 0 <= i < |t| :: NumberChar(t[i])
    ensures NumberLength(t + rest) == |t|
  {
    if t == "" {
      assert t + rest == rest;
    } else {
      NumberRead(t[1..], rest);
      assert (t + rest)[1..] == t[1..] + rest;
    }
  }

  /** Before a delimiter, the text reads as the value. */
  ghost predicate ReadsAs(text: string, v: Value) {
    forall u | Delimited(u) :: ReadValue(text + u) == Some((v, u))
  }

  /** The value with the keys of every object in the printer's order. */
  function Arranged(v: Value): Value
    requires IsJson(v)
    decreases v
  {
    match v
    case Arr(items) => Arr(seq(|items|, i requires 0 <= i < |items| => Arranged(items[i])))
    case Obj(fields) =>
      var keys := SortedKeys(fields);
      Obj(seq(|keys|, i requires 0 <= i < |keys| =>
            assert keys[i] in keys; Field(keys[i], Arranged(fields[IndexOf(fields, keys[i])].value))))
    case _ => v
  }

  lemma ItemRead(text: string, v: Value, rest: string)
    requires ReadsAs(text, v) && Delimited(rest) && rest != ""
    ensures var r := ReadItems(text + rest);
            && (rest[0] == ']' ==> r == Some(([v], rest[1..])))
            && (rest[0] == ',' && ReadItems(rest[1..]).Some? ==>
                  r == Some(([v] + ReadItems(rest[1..]).value.0, ReadItems(rest[1..]).value.1)))
  {
    hide ReadValue;
  }

  lemma {:induction false} ItemsRead(texts: seq<string>, items: seq<Value>, rest: string)
    requires |texts| == |items| > 0 && forall i | 0 <= i < |items| :: ReadsAs(texts[i], items[i])
    ensures ReadItems(Join(texts) + "]" + rest) == Some((items, rest))
    decreases |texts|
  {
    hide ReadItems, ReadsAs;
    if |texts| == 1 {
      ItemRead(texts[0], items[0], "]" + rest);
      assert Join(texts) + "]" + rest == texts[0] + ("]" + rest);
      assert items == [items[0]] && ("]" + rest)[1..] == rest;
    } else {
      var tail := Join(texts[1..]) + "]" + rest;
      ItemsRead(texts[1..], items[1..], rest);
      ItemRead(texts[0], items[0], "," + tail);
      assert Join(texts) + "]" + rest == texts[0] + ("," + tail);
      assert ("," + tail)[1..] == tail && items == [items[0]] + items[1..];
    }
  }

  lemma MemberRead(key: string, text: string, v: Value, u: string)
    requires ReadsAs(text, v) && Delimited(u)
    ensures ReadMember(Quote(key) + ":" + text + u) == Some((Field(key, v), u))
  {
    hide ReadValue, ReadString, EscapeAll;
    var s := Quote(key) + ":" + text + u;
    var after := ":" + (text + u);
    StringRead(key, after);
    assert s[1..] == EscapeAll(key) + "\"" + after;
    assert after[1..] == text + u;
  }

  /** Before a delimiter, the text reads as the member. */
  ghost predicate ReadsAsMember(text: string, f: Field) {
    forall u | Delimited(u) :: ReadMember(text + u) == Some((f, u))
  }

  lemma OneMemberRead(text: string, f: Field, rest: string)
    requires ReadsAsMember(text, f) && Delimited(rest) && rest != ""
    ensures var r := ReadMembers(text + rest);
            && (rest[0] == '}' ==> r == Some(([f], rest[1..])))
            && (rest[0] == ',' && ReadMembers(rest[1..]).Some? ==>
                  r == Some(([f] + ReadMembers(rest[1..]).value.0, ReadMembers(rest[1..]).value.1)))
  {
    hide ReadMember;
  }

  lemma {:induction false} MembersRead(texts: seq<string>, fields: seq<Field>, rest: string)
    requires |texts| == |fields| > 0 && forall i | 0 <= i < |fields| :: ReadsAsMember(texts[i], fields[i])
    ensures ReadMembers(Join(texts) + "}" + rest) == Some((fields, rest))
    decreases |texts|
  {
    hide ReadMembers, ReadsAsMember;
    if |texts| == 1 {
      OneMemberRead(texts[0], fields[0], "}" + rest);
      assert Join(texts) + "}" + rest == texts[0] + ("}" + rest);
      assert fields == [fields[0]] && ("}" + rest)[1..] == rest;
    } else {
      var tail := Join(texts[1..]) + "}" + rest;
      MembersRead(texts[1..], fields[1..], rest);
      OneMemberRead(texts[0], fields[0], "," + tail);
      assert Join(texts) + "}" + rest == texts[0] + ("," + tail);
      assert ("," + tail)[1..] == tail && fields == [fields[0]] + fields[1..];
    }
  }

  lemma WordRead(s: string, word: string, v: Value, rest: string)
    requires word != "" && s == word + rest
    ensures ReadWord(s, word, v) == Some((v, rest))
  {
    assert s[..|word|] == word && s[|word|..] == rest;
  }

  lemma NumRead(t: string)
    requires NumberToken(t)
    ensures ReadsAs(t, Num(t))
  {
    forall u | Delimited(u) ensures ReadValue(t + u) == Some((Num(t), u)) {
      NumberRead(t, u);
      assert (t + u)[..|t|] == t && (t + u)[|t|..] == u && (t + u)[0] == t[0];
    }
  }

  lemma StrRead(x: string)
    ensures ReadsAs(Quote(x), Str(x))
  {
    hide EscapeAll;
    forall u | Delimited(u) ensures ReadValue(Quote(x) + u) == Some((Str(x), u)) {
      StringRead(x, u);
      assert (Quote(x) + u)[1..] == EscapeAll(x) + "\"" + u;
    }
  }

  lemma SimpleRead()
    ensures ReadsAs("null", Null) && ReadsAs("true", Bool(true)) && ReadsAs("false", Bool(false))
  {
    forall u | Delimited(u)
      ensures ReadValue("null" + u) == Some((Null, u)) && ReadValue("true" + u) == Some((Bool(true), u))
      ensures ReadValue("false" + u) == Some((Bool(false), u))
    {
      WordRead("null" + u, "null", Null, u);
      WordRead("true" + u, "true", Bool(true), u);
      WordRead("false" + u, "false", Bool(false), u);
    }
  }

  /** A canonical text is read back as its value, with the keys of every object arranged. */
  lemma {:induction false} CanonicalRead(v: Value)
    requires IsJson(v)
    ensures ReadsAs(Canonical(v), Arranged(v))
    decreases v
  {
    match v
    case Num(t) => NumRead(t);
    case Str(x) => StrRead(x);
    case Arr(items) => ArrayRead(items);
    case Obj(fields) => ObjectRead(fields);
    case _ => SimpleRead();
  }

  lemma {:induction false} ArrayRead(items: seq<Value>)
    requires IsJson(Arr(items))
    ensures ReadsAs(Canonical(Arr(items)), Arranged(Arr(items)))
    decreases Arr(items), 0
  {
    hide Canonical, Join, ReadsAs;
    var (texts, read) := (ItemTexts(items), Arranged(Arr(items)).items);
    CanonicalArray(items);
    forall i | 0 <= i < |items| ensures ReadsAs(texts[i], read[i]) && Opens(texts[i]) {
      CanonicalRead(items[i]);
      CanonicalOpens(items[i]);
    }
    forall u | Delimited(u) ensures ReadValue("[" + Join(texts) + "]" + u) == Some((Arr(read), u)) {
      if items != [] { ItemsRead(texts, read, u); }
      ArrayFrom(texts, read, u);
    }
    ReadsIf("[" + Join(texts) + "]", Arr(read));
  }

  lemma ReadsIf(text: string, v: Value)
    requires forall u | Delimited(u) :: ReadValue(text + u) == Some((v, u))
    ensures ReadsAs(text, v)
  {
  }

  lemma ArrayFrom(texts: seq<string>, items: seq<Value>, u: string)
    requires |texts| == |items| && forall i | 0 <= i < |texts| :: Opens(texts[i])
    requires texts != [] ==> ReadItems(Join(texts) + "]" + u) == Some((items, u))
    ensures ReadValue("[" + Join(texts) + "]" + u) == Some((Arr(items), u))
  {
    hide ReadItems, Join;
    var s := "[" + Join(texts) + "]" + u;
    JoinFirst(texts, ']', u);
    assert s[1..] == Join(texts) + "]" + u;
    if texts == [] {
      EmptyJoin();
      assert s == "[]" + u && s[2..] == u;
    }
  }

  lemma EmptyJoin()
    ensures Join([]) == ""
  {
  }

  lemma ObjectFrom(texts: seq<string>, fields: seq<Field>, u: string)
    requires |texts| == |fields| && forall i | 0 <= i < |texts| :: Opens(texts[i])
    requires texts != [] ==> ReadMembers(Join(texts) + "}" + u) == Some((fields, u))
    ensures ReadValue("{" + Join(texts) + "}" + u) == Some((Obj(fields), u))
  {
    hide ReadMembers, Join;
    var s := "{" + Join(texts) + "}" + u;
    JoinFirst(texts, '}', u);
    assert s[1..] == Join(texts) + "}" + u;
    if texts == [] {
      EmptyJoin();
      assert s == "{}" + u && s[2..] == u;
    }
  }

  lemma {:induction false} ObjectRead(fields: seq<Field>)
    requires IsJson(Obj(fields))
    ensures ReadsAs(Canonical(Obj(fields)), Arranged(Obj(fields)))
    decreases Obj(fields), 0
  {
    hide Canonical, Join, ReadsAs, Quote;
    var (texts, keys, read) := (MemberTexts(fields), SortedKeys(fields), Arranged(Obj(fields)).fields);
    CanonicalObject(fields);
    forall i | 0 <= i < |keys| ensures ReadsAsMember(texts[i], read[i]) && Opens(texts[i]) {
      var m := IndexOf(fields, keys[i]);
      CanonicalRead(fields[m].value);
      MemberOpens(keys[i], fields[m].value);
      forall u | Delimited(u) ensures ReadMember(texts[i] + u) == Some((read[i], u)) {
        MemberRead(keys[i], Canonical(fields[m].value), read[i].value, u);
      }
    }
    forall u | Delimited(u) ensures ReadValue("{" + Join(texts) + "}" + u) == Some((Obj(read), u)) {
      if keys != [] { MembersRead(texts, read, u); }
      ObjectFrom(texts, read, u);
    }
    ReadsIf("{" + Join(texts) + "}", Obj(read));
  }

  // ----- The printer's order: UTF-16 code units, compared from the left

  /** The UTF-16 code units of one character: itself, or a surrogate pair. */
  function UnitsOfChar(c: char): seq<nat> {
    var n := c as int;
    if n < 0x10000 then [n] else [0xD800 + (n - 0x10000) / 0x400, 0xDC00 + (n - 0x10000) % 0x400]
  }

  function UnitsOfText(s: string): seq<nat> {
    if s == "" then [] else UnitsOfChar(s[0]) + UnitsOfText(s[1..])
  }

  predicate Before(u: seq<nat>, v: seq<nat>)
    decreases |u|
  {
    v != [] && (u == [] || u[0] < v[0] || (u[0] == v[0] && Before(u[1..], v[1..])))
  }

  lemma BeforeTails(a: seq<nat>, u: seq<nat>, v: seq<nat>)
    requires |a| == 1 || |a| == 2
    ensures Before(a + u, a + v) <==> Before(u, v)
  {
    assert (a + u)[1..] == a[1..] + u && (a + v)[1..] == a[1..] + v;
    if |a| == 1 {
      assert a[1..] + u == u && a[1..] + v == v;
    } else {
      assert (a[1..] + u)[1..] == u && (a[1..] + v)[1..] == v;
    }
  }

  lemma CharsBefore(c: char, d: char, u: seq<nat>, v: seq<nat>)
    requires c != d
    ensures Before(UnitsOfChar(c) + u, UnitsOfChar(d) + v) <==> Rank(c) < Rank(d)
  {
    var (a, b) := (UnitsOfChar(c) + u, UnitsOfChar(d) + v);
    assert a[0] == UnitsOfChar(c)[0] && b[0] == UnitsOfChar(d)[0];
    if c as int >= 0x10000 && d as int >= 0x10000 && a[0] == b[0] {
      assert a[1..][0] == UnitsOfChar(c)[1] && b[1..][0] == UnitsOfChar(d)[1];
    }
  }

  /** The printer's order is that of the code units. */
  lemma {:induction false} LessIsBefore(x: string, y: string)
    ensures Less(x, y) <==> Before(UnitsOfText(x), UnitsOfText(y))
  {
    hide UnitsOfChar, Rank;
    UnitsThere(x);
    UnitsThere(y);
    if x != "" && y != "" {
      if x[0] == y[0] {
        LessIsBefore(x[1..], y[1..]);
        CharUnits(x[0]);
        BeforeTails(UnitsOfChar(x[0]), UnitsOfText(x[1..]), UnitsOfText(y[1..]));
      } else {
        CharsBefore(x[0], y[0], UnitsOfText(x[1..]), UnitsOfText(y[1..]));
      }
    }
  }

  lemma CharUnits(c: char)
    ensures |UnitsOfChar(c)| == 1 || |UnitsOfChar(c)| == 2
  {
  }

  lemma UnitsThere(s: string)
    ensures UnitsOfText(s) == [] <==> s == ""
  {
  }

  // ----- The round trip

  /** The keys of every object, at every depth, come in the order of their code units. */
  predicate InOrder(v: Value) {
    match v
    case Arr(items) => forall i | 0 <= i < |items| :: InOrder(items[i])
    case Obj(fields) =>
      (forall i, j | 0 <= i < j < |fields| :: Before(UnitsOfText(fields[i].key), UnitsOfText(fields[j].key))) &&
      forall i | 0 <= i < |fields| :: InOrder(fields[i].value)
    case _ => true
  }

  lemma {:induction false} ArrangedFacts(v: Value)
    requires IsJson(v)
    ensures Same(v, Arranged(v)) && InOrder(Arranged(v))
    decreases v
  {
    match v
    case Arr(items) => forall i | 0 <= i < |items| ensures Same(items[i], Arranged(items[i])) && InOrder(Arranged(items[i])) { ArrangedFacts(items[i]); }
    case Obj(fields) =>
      forall i | 0 <= i < |fields| ensures Same(fields[i].value, Arranged(fields[i].value)) && InOrder(Arranged(fields[i].value)) {
        ArrangedFacts(fields[i].value);
      }
      ArrangedObject(fields);
    case _ =>
  }

  lemma ArrangedObject(fields: seq<Field>)
    requires IsJson(Obj(fields))
    requires forall i | 0 <= i < |fields| :: Same(fields[i].value, Arranged(fields[i].value)) && InOrder(Arranged(fields[i].value))
    ensures Same(Obj(fields), Arranged(Obj(fields))) && InOrder(Arranged(Obj(fields)))
  {
    hide Before, UnitsOfText, InOrder, Same;
    var (keys, read) := (SortedKeys(fields), Arranged(Obj(fields)).fields);
    SortedKeysIncreasing(fields);
    forall i, j | 0 <= i < j < |read| ensures Before(UnitsOfText(read[i].key), UnitsOfText(read[j].key)) {
      assert Less(keys[i], keys[j]);
      LessIsBefore(keys[i], keys[j]);
    }
    forall j | 0 <= j < |read| ensures InOrder(read[j].value) { assert keys[j] in keys; }
    ObjectInOrder(read);
    ArrangedSame(fields);
  }

  lemma ArrangedSame(fields: seq<Field>)
    requires IsJson(Obj(fields)) && forall i | 0 <= i < |fields| :: Same(fields[i].value, Arranged(fields[i].value))
    ensures Same(Obj(fields), Arranged(Obj(fields)))
  {
    var (keys, read) := (SortedKeys(fields), Arranged(Obj(fields)).fields);
    forall i | 0 <= i < |fields| ensures HasKey(read, fields[i].key) && Same(fields[i].value, read[IndexOf(read, fields[i].key)].value) {
      hide Same;
      assert HasKey(fields, fields[i].key) && fields[i].key in keys;
      var j :| 0 <= j < |keys| && keys[j] == fields[i].key;
      assert read[j].key == fields[i].key && HasKey(read, fields[i].key);
      var m := IndexOf(read, fields[i].key);
      assert keys[m] in keys && IndexOf(fields, keys[m]) == i;
    }
  }

  lemma ObjectInOrder(fields: seq<Field>)
    requires forall i, j | 0 <= i < j < |fields| :: Before(UnitsOfText(fields[i].key), UnitsOfText(fields[j].key))
    requires forall i | 0 <= i < |fields| :: InOrder(fields[i].value)
    ensures InOrder(Obj(fields))
  {
  }

  /** A canonical text is JSON text of the value, without anything after it: reading it gives back the same value,
      whose keys come in the order of their code units at every depth. */
  lemma CanonicalRoundTrip(v: Value)
    requires IsJson(v)
    ensures ReadValue(Canonical(v)) == Some((Arranged(v), "")) && Same(v, Arranged(v)) && InOrder(Arranged(v))
  {
    hide Canonical, ReadValue, Arranged, InOrder, Same;
    CanonicalRead(v);
    ArrangedFacts(v);
    assert Canonical(v) + "" == Canonical(v);
  }

  /** The payload of a candidate is JSON text of its version and its normalised present fields. */
  lemma PayloadRead(c: CandidateDigest.Candidate)
    requires CandidateDigest.WellFormed(c)
    ensures var r := ReadValue(CandidateDigest.Payload(c));
            r.Some? && r.value.1 == "" &&
            Same(Obj([Field("digest_version", Str("compass-candidate-v1")),
                      Field("fields", Obj(CandidateDigest.Ordered(c, CandidateDigest.DigestFields())))]), r.value.0)
  {
    hide Canonical, ReadValue, Arranged, InOrder, Same, CandidateDigest.DigestFields, CandidateDigest.Ordered;
    CandidateDigest.PayloadIsJson(c);
    CanonicalRoundTrip(CandidateDigest.PayloadValue(c));
  }

  /** The characters written with an escape, and how long it is. */
  lemma EscapesOnly(c: char)
    ensures Escape(c) == [c] <==> c >= 0x20 as char && c != '\"' && c != '\\'
    ensures |Escape(c)| == 2 <==> c == '\"' || c == '\\' || 0x08 as char <= c <= 0x0A as char || c == 0x0C as char || c == 0x0D as char
    ensures |Escape(c)| == 6 ==> forall i | 2 <= i < 6 :: Escape(c)[i] == HexChar(HexValue(Escape(c)[i]).value)
  {
    if |Escape(c)| == 6 {
      HexRead(c as int / 16);
      HexRead(c as int % 16);
      HexRead(0);
      HexZero();
    }
  }
}
