/** evaluatePolicy, and what the decision owes to the findings and to the snapshot. */
module PolicyDecision {
  import opened Values
  import opened Text
  import opened Coercions
  import opened ToolSemantics
  import opened Risk

  datatype Decision = Allow | Block(code: string)

  function BlockingFindings(resolution: Resolution, snapshot: Option<Snapshot>, e: Record): seq<Finding> {
    Assessed(resolution, snapshot, None, e).blocking
  }

  /** `audited` is whether the audit write, when there is a writer, succeeds. */
  function Evaluate(resolution: Resolution, snapshot: Option<Snapshot>, failure: Option<string>, e: Record, audited: bool): Decision {
    hide BlockingFindings;
    if resolution.Hidden? then Block(resolution.code)
    else if failure.Some? then Block(failure.value)
    else if snapshot.None? then Block("POLICY_RPC_READ_FAILED")
    else
      var blocking := BlockingFindings(resolution, snapshot, e);
      if blocking != [] then Block(blocking[0].code)
      else if !audited then Block("AUDIT_WRITE_FAILED")
      else Allow
  }

  // ----- First findings of a level

  /** The first finding of the level, in order. */
  function FirstAt(l: seq<Finding>, level: Level): Option<Finding> {
    if l == [] then None else if l[0].level == level then Some(l[0]) else FirstAt(l[1..], level)
  }

  /** The score is fixed by which levels occur. */
  lemma {:induction false} MaxScoreByLevel(l: seq<Finding>)
    ensures MaxScore(l) ==
              if FirstAt(l, Critical).Some? then 100 else if FirstAt(l, High).Some? then 70
              else if FirstAt(l, Medium).Some? then 35 else if FirstAt(l, Low).Some? then 10 else 0
  {
    if l != [] { MaxScoreByLevel(l[1..]); }
  }

  lemma {:induction false} BlockingFirst(l: seq<Finding>, level: Level)
    ensures FirstAt(Blocking(l), level) == if level.High? || level.Critical? then FirstAt(l, level) else None
    ensures forall f | f in Blocking(l) :: Blocks(f)
  {
    if l != [] {
      BlockingFirst(l[1..], level);
      if Blocks(l[0]) {
        assert Blocking(l)[1..] == Blocking(l[1..]);
      } else {
        assert Blocking(l) == Blocking(l[1..]);
      }
    }
  }

  // ----- The stable sort

  /** The findings of one level, in order. */
  function AtLevel(l: seq<Finding>, level: Level): seq<Finding> {
    if l == [] then [] else (if l[0].level == level then [l[0]] else []) + AtLevel(l[1..], level)
  }

  predicate Descending(l: seq<Finding>) {
    forall i, j | 0 <= i < j < |l| :: Score(l[i].level) >= Score(l[j].level)
  }

  lemma {:induction false} InsertPermutes(f: Finding, l: seq<Finding>)
    ensures multiset(Insert(f, l)) == multiset(l) + multiset{f}
  {
    if l != [] && Score(f.level) < Score(l[0].level) {
      InsertPermutes(f, l[1..]);
      assert l == [l[0]] + l[1..];
    }
  }

  lemma {:induction false} InsertOrders(f: Finding, l: seq<Finding>)
    requires Descending(l)
    ensures Descending(Insert(f, l))
  {
    if l != [] && Score(f.level) < Score(l[0].level) {
      var r := Insert(f, l[1..]);
      InsertOrders(f, l[1..]);
      InsertPermutes(f, l[1..]);
      forall i | 0 <= i < |r| ensures Score(l[0].level) >= Score(r[i].level) {
        assert r[i] in multiset(r);
        assert r[i] == f || r[i] in l[1..];
      }
    }
  }

  lemma {:induction false} InsertStable(f: Finding, l: seq<Finding>, level: Level)
    requires Descending(l)
    ensures AtLevel(Insert(f, l), level) == (if f.level == level then [f] else []) + AtLevel(l, level)
  {
    if l == [] || Score(f.level) >= Score(l[0].level) {
      assert ([f] + l)[1..] == l;
    } else {
      InsertStable(f, l[1..], level);
      assert ([l[0]] + Insert(f, l[1..]))[1..] == Insert(f, l[1..]);
      if f.level == level {
        assert l[0].level != level;
        assert AtLevel(l, level) == AtLevel(l[1..], level);
        assert AtLevel(Insert(f, l), level) == AtLevel(Insert(f, l[1..]), level);
      }
    }
  }

  lemma AtLevelStep(l: seq<Finding>, level: Level)
    requires l != []
    ensures AtLevel(l, level) == (if l[0].level == level then [l[0]] else []) + AtLevel(l[1..], level)
  {
  }

  lemma {:induction false} SortedOrders(l: seq<Finding>)
    ensures Descending(Sorted(l)) && multiset(Sorted(l)) == multiset(l)
  {
    hide Insert, Descending;
    if l == [] {
      SortedEmpty();
    } else {
      SortedOrders(l[1..]);
      InsertOrders(l[0], Sorted(l[1..]));
      InsertPermutes(l[0], Sorted(l[1..]));
      assert l == [l[0]] + l[1..];
    }
  }

  lemma SortedEmpty()
    ensures Sorted([]) == [] && Descending([])
  {
  }

  /** The sort permutes, orders by score, and keeps the order of findings of equal level. */
  lemma {:induction false} SortedStable(l: seq<Finding>, level: Level)
    ensures Descending(Sorted(l)) && multiset(Sorted(l)) == multiset(l)
    ensures AtLevel(Sorted(l), level) == AtLevel(l, level)
  {
    hide Insert, Descending, AtLevel;
    SortedOrders(l);
    if l == [] {
      SortedEmpty();
    } else {
      SortedOrders(l[1..]);
      SortedStable(l[1..], level);
      InsertStable(l[0], Sorted(l[1..]), level);
      AtLevelStep(l, level);
    }
  }

  lemma {:induction false} FirstOfLevel(l: seq<Finding>, level: Level)
    ensures FirstAt(l, level) == if AtLevel(l, level) == [] then None else Some(AtLevel(l, level)[0])
  {
    if l != [] { FirstOfLevel(l[1..], level); }
  }

  lemma SortedFirst(l: seq<Finding>, level: Level)
    ensures FirstAt(Sorted(l), level) == FirstAt(l, level)
  {
    SortedStable(l, level);
    FirstOfLevel(l, level);
    FirstOfLevel(Sorted(l), level);
  }

  // ----- Removing repeated codes

  function CodesOf(l: seq<Finding>): set<string> {
    set f | f in l :: f.code
  }

  /** One pass that keeps a finding when its code was not seen before. */
  function SeenPass(l: seq<Finding>, seen: set<string>): seq<Finding> {
    if l == [] then []
    else if l[0].code in seen then SeenPass(l[1..], seen)
    else [l[0]] + SeenPass(l[1..], seen + {l[0].code})
  }

  lemma {:induction false} DedupFromIsPass(l: seq<Finding>, i: nat)
    requires i <= |l|
    ensures DedupFrom(l, i) == SeenPass(l[i..], CodesOf(l[..i]))
    decreases |l| - i
  {
    if i < |l| {
      DedupFromIsPass(l, i + 1);
      assert l[i..][1..] == l[i + 1..];
      assert l[..i + 1] == l[..i] + [l[i]];
      assert CodesOf(l[..i + 1]) == CodesOf(l[..i]) + {l[i].code};
      CodesIff(l, i, l[i].code);
      if l[i].code in CodesOf(l[..i]) {
        assert CodesOf(l[..i + 1]) == CodesOf(l[..i]);
      }
    }
  }

  lemma CodesIff(l: seq<Finding>, i: nat, code: string)
    requires i < |l| && l[i].code == code
    ensures code in CodesOf(l[..i]) <==> FirstOfCode(l, code) < i
  {
    var first := FirstOfCode(l, code);
    if code in CodesOf(l[..i]) {
      var f :| f in l[..i] && f.code == code;
      var k :| 0 <= k < i && l[k] == f;
    }
    if first < i { assert l[..i][first] == l[first]; }
  }

  /** The quadratic search for an earlier finding of the same code is one pass with a set of seen codes. */
  lemma DedupIsPass(l: seq<Finding>)
    ensures Dedup(l) == SeenPass(l, {})
  {
    DedupFromIsPass(l, 0);
    assert l[0..] == l && l[..0] == [] && CodesOf([]) == {};
  }

  /** Findings of one code are of one level. */
  predicate LevelsByCode(l: seq<Finding>) {
    forall i, j | 0 <= i < |l| && 0 <= j < |l| :: l[i].code == l[j].code ==> l[i].level == l[j].level
  }

  lemma {:induction false} PassFirst(l: seq<Finding>, seen: set<string>, level: Level)
    requires LevelsByCode(l) && forall f | f in l && f.level == level :: f.code !in seen
    ensures FirstAt(SeenPass(l, seen), level) == FirstAt(l, level)
  {
    if l != [] {
      var rest := l[1..];
      assert forall f | f in rest :: f in l;
      if l[0].code in seen {
        PassFirst(rest, seen, level);
      } else if l[0].level != level {
        forall f | f in rest && f.level == level ensures f.code !in seen + {l[0].code} {
          var k :| 0 <= k < |l| && l[k] == f;
        }
        PassFirst(rest, seen + {l[0].code}, level);
      }
    }
  }

  /** Removing repeated codes keeps the first finding of every level. */
  lemma DedupFirst(l: seq<Finding>, level: Level)
    requires LevelsByCode(l)
    ensures FirstAt(Dedup(l), level) == FirstAt(l, level)
  {
    DedupIsPass(l);
    PassFirst(l, {}, level);
  }

  /** Neither the removal of repeated codes nor the sort changes whether there is a blocking finding, which
      is first at each level, or the maximum score. */
  lemma SummaryUnchanged(l: seq<Finding>)
    requires LevelsByCode(l)
    ensures MaxScore(Dedup(l)) == MaxScore(l) == MaxScore(Sorted(l))
    ensures Sorted(Blocking(Dedup(l))) == [] <==> Blocking(l) == []
  {
    hide FirstAt, Dedup, Sorted, MaxScore, Blocking;
    MaxScoreByLevel(l);
    MaxScoreByLevel(Dedup(l));
    MaxScoreByLevel(Sorted(l));
    forall level: Level
      ensures FirstAt(Dedup(l), level) == FirstAt(l, level) == FirstAt(Sorted(l), level)
    {
      DedupFirst(l, level);
      SortedFirst(l, level);
    }
    NoBlocking(l);
    NoBlocking(Dedup(l));
    SortedStable(Blocking(Dedup(l)), High);
    assert |multiset(Sorted(Blocking(Dedup(l))))| == |multiset(Blocking(Dedup(l)))|;
  }

  lemma {:induction false} NoBlocking(l: seq<Finding>)
    ensures Blocking(l) == [] <==> FirstAt(l, High).None? && FirstAt(l, Critical).None?
  {
    if l != [] { NoBlocking(l[1..]); }
  }

  // ----- The reported code

  /** The first of a descending list is the first of its highest level. */
  lemma TopIsFirst(l: seq<Finding>)
    requires l != [] && Descending(l) && forall f | f in l :: Blocks(f)
    ensures FirstAt(l, Critical).Some? || FirstAt(l, High).Some?
    ensures l[0] == if FirstAt(l, Critical).Some? then FirstAt(l, Critical).value else FirstAt(l, High).value
  {
    assert Blocks(l[0]);
    if l[0].level.High? { NoneAbove(l); }
  }

  lemma {:induction false} NoneAbove(l: seq<Finding>)
    requires forall f | f in l :: !f.level.Critical?
    ensures FirstAt(l, Critical).None?
  {
    if l != [] { NoneAbove(l[1..]); }
  }

  function LevelOf(code: string): Level {
    if code == "POLICY_RPC_CHAIN_MISMATCH" || code == "POLICY_UNLIMITED_APPROVAL_BLOCKED" then Critical else High
  }

  predicate Leveled(l: seq<Finding>) {
    forall f | f in l :: f.level == LevelOf(f.code)
  }

  lemma {:induction false} MissingLeveled(e: Record, names: seq<string>)
    ensures Leveled(Missing(e, names))
  {
    hide HasEvidence;
    if names != [] {
      MissingLeveled(e, names[1..]);
      assert "MISSING_REQUIRED_EVIDENCE"[0] == 'M' && "POLICY_RPC_CHAIN_MISMATCH"[0] == 'P';
      assert "POLICY_UNLIMITED_APPROVAL_BLOCKED"[0] == 'P';
    }
  }

  lemma LeveledSum(a: seq<Finding>, b: seq<Finding>)
    requires Leveled(a) && Leveled(b)
    ensures Leveled(a + b)
  {
  }

  lemma SimulationLeveled(m: Semantics, e: Record)
    ensures Leveled(SimulationFinding(m, e))
  {
    hide StatusOf;
    assert |"SIMULATION_UNAVAILABLE"| == 22 && |"SIMULATION_FAILED"| == 17;
    assert |"POLICY_RPC_CHAIN_MISMATCH"| == 25 && |"POLICY_UNLIMITED_APPROVAL_BLOCKED"| == 33;
  }

  lemma WhenLeveled(condition: bool, code: string, level: Level)
    requires level == LevelOf(code)
    ensures Leveled(When(condition, code, level))
  {
  }

  lemma AmountsLeveled(m: Semantics, s: Snapshot, e: Record)
    ensures Leveled(AmountFinding(m, s, e)) && Leveled(GasFinding(s, e)) && Leveled(ApprovalFindings(m, s, e))
  {
    hide AmountOf, AmountEvidence, AmountCap, CapOf, FindLimit, ApprovalText, TruthyAt, Lower, LowerField;
    assert |"POLICY_AMOUNT_OVER_CAP"| == 22 && |"POLICY_GAS_OVER_CAP"| == 19 && |"POLICY_SPENDER_NOT_ALLOWED"| == 26;
    assert |"POLICY_RPC_CHAIN_MISMATCH"| == 25 && |"POLICY_UNLIMITED_APPROVAL_BLOCKED"| == 33;
  }

  lemma ListCodes()
    ensures LevelOf("POLICY_RPC_CHAIN_MISMATCH") == Critical && LevelOf("POLICY_TOOL_NOT_ALLOWED") == High
    ensures LevelOf("POLICY_RECIPIENT_NOT_ALLOWED") == High && LevelOf("POLICY_TOKEN_NOT_ALLOWED") == High
    ensures LevelOf("POLICY_TYPED_DATA_NOT_ALLOWED") == High
  {
    assert |"POLICY_RPC_CHAIN_MISMATCH"| == 25 && |"POLICY_UNLIMITED_APPROVAL_BLOCKED"| == 33;
    assert |"POLICY_TOOL_NOT_ALLOWED"| == 23 && |"POLICY_RECIPIENT_NOT_ALLOWED"| == 28;
    assert |"POLICY_TOKEN_NOT_ALLOWED"| == 24 && |"POLICY_TYPED_DATA_NOT_ALLOWED"| == 29;
  }

  lemma ContextLeveled(m: Semantics, s: Snapshot, e: Record)
    ensures Leveled(ContextChecks(m, s, e))
  {
    hide Leveled, When, Missing, SimulationFinding, NumberIs, KeyOf, LevelOf;
    ListCodes();
    var a := When(Given(e, "chain_id") && !NumberIs(e["chain_id"], 10143), "POLICY_RPC_CHAIN_MISMATCH", Critical);
    var b := When(KeyOf(m.toolName) !in s.tools, "POLICY_TOOL_NOT_ALLOWED", High);
    WhenLeveled(Given(e, "chain_id") && !NumberIs(e["chain_id"], 10143), "POLICY_RPC_CHAIN_MISMATCH", Critical);
    WhenLeveled(KeyOf(m.toolName) !in s.tools, "POLICY_TOOL_NOT_ALLOWED", High);
    MissingLeveled(e, m.requiredFields);
    MissingLeveled(e, m.requiredEvidence);
    SimulationLeveled(m, e);
    LeveledSum(a, b);
    LeveledSum(a + b, Missing(e, m.requiredFields));
    LeveledSum(a + b + Missing(e, m.requiredFields), Missing(e, m.requiredEvidence));
    LeveledSum(a + b + Missing(e, m.requiredFields) + Missing(e, m.requiredEvidence), SimulationFinding(m, e));
  }

  lemma ChecksLeveled(m: Semantics, s: Snapshot, e: Record)
    ensures Leveled(Checks(m, s, e))
  {
    hide Leveled, When, ContextChecks, AmountFinding, GasFinding, ApprovalFindings, ListedIn, TruthyAt, LevelOf;
    ListCodes();
    var c := ContextChecks(m, s, e);
    var r := When(!ListedIn(e, "recipient", s.recipients), "POLICY_RECIPIENT_NOT_ALLOWED", High);
    var t := When(!ListedIn(e, "token", s.tokens), "POLICY_TOKEN_NOT_ALLOWED", High);
    var (a, g, p) := (AmountFinding(m, s, e), GasFinding(s, e), ApprovalFindings(m, s, e));
    var signs := m.toolClass == "signature" && !TruthyAt(e, "typed_data_rule_key");
    ContextLeveled(m, s, e);
    AmountsLeveled(m, s, e);
    WhenLeveled(!ListedIn(e, "recipient", s.recipients), "POLICY_RECIPIENT_NOT_ALLOWED", High);
    WhenLeveled(!ListedIn(e, "token", s.tokens), "POLICY_TOKEN_NOT_ALLOWED", High);
    WhenLeveled(signs, "POLICY_TYPED_DATA_NOT_ALLOWED", High);
    LeveledSum(c, r);
    LeveledSum(c + r, t);
    LeveledSum(c + r + t, a);
    LeveledSum(c + r + t + a, g);
    LeveledSum(c + r + t + a + g, p);
    LeveledSum(c + r + t + a + g + p, When(signs, "POLICY_TYPED_DATA_NOT_ALLOWED", High));
  }

  lemma LeveledFacts(l: seq<Finding>)
    requires Leveled(l)
    ensures LevelsByCode(l) && Blocking(l) == l
  {
    hide LevelOf;
    forall i, j | 0 <= i < |l| && 0 <= j < |l| && l[i].code == l[j].code ensures l[i].level == l[j].level {
      assert l[i] in l && l[j] in l;
    }
    forall f | f in l ensures Blocks(f) { LevelBlocks(f.code); }
    BlockingAll(l);
  }

  lemma LevelBlocks(code: string)
    ensures LevelOf(code) == High || LevelOf(code) == Critical
  {
  }

  lemma {:induction false} BlockingAll(l: seq<Finding>)
    requires forall f | f in l :: Blocks(f)
    ensures Blocking(l) == l
  {
    hide Blocks;
    if l != [] {
      var rest := l[1..];
      forall f | f in rest ensures Blocks(f) { assert f in l; }
      BlockingAll(rest);
      assert Blocks(l[0]);
      assert l == [l[0]] + rest;
    }
  }

  /** With a visible tool and a snapshot, the call is allowed exactly when no check finds anything; otherwise the
      reason is the first critical finding in check order, or the first finding when none is critical. */
  lemma ReportedCode(m: Semantics, name: string, s: Snapshot, e: Record, audited: bool)
    ensures var l := Checks(m, s, e);
            Evaluate(Visible(name, m), Some(s), None, e, audited) ==
            if l == [] then (if audited then Allow else Block("AUDIT_WRITE_FAILED"))
            else if FirstAt(l, Critical).Some? then Block(FirstAt(l, Critical).value.code)
            else Block(l[0].code)
  {
    hide Checks, Leveled, LevelsByCode, Dedup, Blocking, Sorted, FirstAt, MaxScore;
    var l := Checks(m, s, e);
    ChecksLeveled(m, s, e);
    LeveledFacts(l);
    var d := Dedup(l);
    assert [] + l == l;
    var b := BlockingFindings(Visible(name, m), Some(s), e);
    assert b == Sorted(Blocking(d));
    SummaryUnchanged(l);
    if l != [] {
      ReportedFirst(l);
    }
  }

  lemma ReportedFirst(l: seq<Finding>)
    requires l != [] && LevelsByCode(l) && Blocking(l) == l
    ensures var b := Sorted(Blocking(Dedup(l)));
            b != [] && b[0] == if FirstAt(l, Critical).Some? then FirstAt(l, Critical).value else l[0]
  {
    hide Dedup, Blocking, Sorted, LevelsByCode, Descending, Blocks, FirstAt;
    var b := Sorted(Blocking(Dedup(l)));
    SummaryUnchanged(l);
    SortedStable(Blocking(Dedup(l)), High);
    forall level: Level | level == High || level == Critical ensures FirstAt(b, level) == FirstAt(l, level) {
      DedupFirst(l, level);
      BlockingFirst(Dedup(l), level);
      SortedFirst(Blocking(Dedup(l)), level);
    }
    BlockingFirst(Dedup(l), High);
    forall f | f in b ensures Blocks(f) {
      assert f in multiset(b);
      assert f in multiset(Blocking(Dedup(l)));
    }
    TopIsFirst(b);
    BlockingFirst(l, High);
    if FirstAt(l, Critical).None? { FirstIsHigh(l); }
  }

  lemma FirstIsHigh(l: seq<Finding>)
    requires l != [] && Blocks(l[0]) && FirstAt(l, Critical).None?
    ensures FirstAt(l, High) == Some(l[0])
  {
  }
}
