/** Risk assessment of a call against a policy snapshot, its summary, and the policy decision. */
module Risk {
  import opened Values
  import opened Text
  import opened Coercions
  import opened ToolSemantics
  import PolicySnapshot

  type Snapshot = PolicySnapshot.Snapshot
  type SpenderLimit = PolicySnapshot.Limit<string, string>

  // ----- Findings

  datatype Level = Low | Medium | High | Critical

  datatype Finding = Finding(code: string, level: Level)

  function Score(level: Level): nat {
    match level case Low => 10 case Medium => 35 case High => 70 case Critical => 100
  }

  predicate Blocks(f: Finding) { f.level.High? || f.level.Critical? }

  function MaxScore(findings: seq<Finding>): (m: nat) {
    if findings == [] then 0
    else
      var rest := MaxScore(findings[1..]);
      if Score(findings[0].level) > rest then Score(findings[0].level) else rest
  }

  function Blocking(findings: seq<Finding>): seq<Finding> {
    if findings == [] then []
    else (if Blocks(findings[0]) then [findings[0]] else []) + Blocking(findings[1..])
  }

  /** Insertion keeps entries of equal score in their order. */
  function Insert(f: Finding, sorted: seq<Finding>): seq<Finding> {
    if sorted == [] || Score(f.level) >= Score(sorted[0].level) then [f] + sorted
    else [sorted[0]] + Insert(f, sorted[1..])
  }

  /** A stable sort, highest score first. */
  function Sorted(findings: seq<Finding>): seq<Finding> {
    if findings == [] then [] else Insert(findings[0], Sorted(findings[1..]))
  }

  datatype Summary = Summary(score: nat, reasons: seq<Finding>, blocking: seq<Finding>)

  function Summarize(reasons: seq<Finding>): Summary {
    Summary(MaxScore(reasons), reasons, Sorted(Blocking(reasons)))
  }

  /** The first entry of each code: those with no earlier entry of the same code. */
  function Dedup(reasons: seq<Finding>): seq<Finding> {
    DedupFrom(reasons, 0)
  }

  function DedupFrom(reasons: seq<Finding>, i: nat): seq<Finding>
    requires i <= |reasons|
    decreases |reasons| - i
  {
    if i == |reasons| then []
    else (if FirstOfCode(reasons, reasons[i].code) == i then [reasons[i]] else []) + DedupFrom(reasons, i + 1)
  }

  /** The position of the first finding of the code. */
  function FirstOfCode(reasons: seq<Finding>, code: string): (i: nat)
    requires exists k | 0 <= k < |reasons| :: reasons[k].code == code
    ensures i < |reasons| && reasons[i].code == code && forall k | 0 <= k < i :: reasons[k].code != code
  {
    if reasons[0].code == code then 0
    else
      assert exists k | 0 <= k < |reasons[1..]| :: reasons[1..][k].code == code by {
        var k :| 0 <= k < |reasons| && reasons[k].code == code;
        assert reasons[1..][k - 1].code == code;
      }
      1 + FirstOfCode(reasons[1..], code)
  }

  // ----- The checks

  /** The decimal numeral of 2^256 - 1. */
  const UINT256_MAX := "11579208923731619542" + "35709850086879078532" + "69984665640564039457" + "584007913129639935"

  /** amountBigInt; a number is read by its printed digits. */
  function AmountOf(v: Option<Value>): Option<nat> {
    match v
    case Some(Str(s)) =>
      if s == "uint256.max" then Some(MaxAmount()) else if CanonicalDecimal(s) then Some(ValueOf(s)) else None
    case Some(Num(t)) => if CanonicalDecimal(t) then Some(ValueOf(t)) else None
    case _ => None
  }

  /** The largest uint256; `MaxAmountText` proves that `UINT256_MAX` denotes it. */
  function MaxAmount(): nat {
    115792089237316195423570985008687907853269984665640564039457584007913129639935
  }

  predicate Optional(name: string) {
    name == "" || name[|name| - 1] == '?'
  }

  /** The name up to its first underscore. */
  function Stem(name: string): string {
    if name == "" || name[0] == '_' then "" else [name[0]] + Stem(name[1..])
  }

  predicate HasEvidence(e: Record, name: string) {
    if Optional(name) then true
    else if name == "amount" then Given(e, "amount") || Given(e, "amount_atomic") || Given(e, "amount_wei")
    else Given(e, name) || Given(e, Stem(name))
  }

  predicate Simulated(class_: string) {
    class_ == "transaction_execute" || class_ == "token_approval" || class_ == "signature" || class_ == "contract_write"
  }

  function StatusOf(simulation: Value): Option<Value> {
    FieldOf(simulation, "status")
  }

  /** The amount the caps are checked against: the atomic one, else the wei one, else the plain one. */
  function AmountEvidence(e: Record): Option<Value> {
    Either(Get(e, "amount_atomic"), Either(Get(e, "amount_wei"), Get(e, "amount")))
  }

  /** The text of the amount that an approval is checked by. */
  function ApprovalText(e: Record): string {
    var v := Either(Get(e, "amount_atomic"), Get(e, "amount"));
    if v.Some? then TextOf(v.value) else "undefined"
  }

  /** The value of a cap or limit, which validation leaves a numeral. */
  function CapOf(text: string): nat {
    if Digits(text) then ValueOf(text) else 0
  }

  function AmountCap(class_: string, s: Snapshot, e: Record): nat {
    CapOf(if class_ == "transaction_execute" && !TruthyAt(e, "token") then s.caps.native else s.caps.erc20)
  }

  function LowerField(e: Record, key: string): Option<Value> {
    if key in e then Some(Lowered(e[key])) else None
  }

  /** The first enabled entry for the token and spender. */
  function FindLimit(entries: seq<SpenderLimit>, token: Option<Value>, spender: Option<Value>): Option<SpenderLimit> {
    if entries == [] then None
    else if entries[0].enabled && token == Some(Str(entries[0].token)) && spender == Some(Str(entries[0].spender)) then Some(entries[0])
    else FindLimit(entries[1..], token, spender)
  }

  function When(condition: bool, code: string, level: Level): seq<Finding> {
    if condition then [Finding(code, level)] else []
  }

  predicate ListedIn(e: Record, key: string, list: seq<string>) {
    TruthyAt(e, key) ==> e[key].Str? && Lower(e[key].s) in list
  }

  function Missing(e: Record, names: seq<string>): seq<Finding> {
    if names == [] then []
    else When(!HasEvidence(e, names[0]), "MISSING_REQUIRED_EVIDENCE", High) + Missing(e, names[1..])
  }

  function SimulationFinding(m: Semantics, e: Record): seq<Finding> {
    if !Simulated(m.toolClass) && !m.requiresSimulation then []
    else if !TruthyAt(e, "simulation") then [Finding("SIMULATION_UNAVAILABLE", High)]
    else if StatusOf(e["simulation"]) == Some(Str("failed")) then [Finding("SIMULATION_FAILED", High)]
    else When(StatusOf(e["simulation"]) == Some(Str("unavailable")), "SIMULATION_UNAVAILABLE", High)
  }

  function AmountFinding(m: Semantics, s: Snapshot, e: Record): seq<Finding> {
    var amount := AmountOf(AmountEvidence(e));
    When(amount.Some? && amount.value > AmountCap(m.toolClass, s, e), "POLICY_AMOUNT_OVER_CAP", High)
  }

  function GasFinding(s: Snapshot, e: Record): seq<Finding> {
    var gas := AmountOf(Get(e, "estimated_gas_cost_wei"));
    When(TruthyAt(e, "estimated_gas_cost_wei") && gas.Some? && gas.value > CapOf(s.caps.gas), "POLICY_GAS_OVER_CAP", High)
  }

  function ApprovalFindings(m: Semantics, s: Snapshot, e: Record): seq<Finding> {
    if m.toolClass != "token_approval" then []
    else
      var text := ApprovalText(e);
      var limit := FindLimit(s.spenders, LowerField(e, "token"), LowerField(e, "spender"));
      var amount := AmountOf(AmountEvidence(e));
      When(Lower(text) == "uint256.max" || text == UINT256_MAX, "POLICY_UNLIMITED_APPROVAL_BLOCKED", Critical) +
      if limit.None? then [Finding("POLICY_SPENDER_NOT_ALLOWED", High)]
      else When(amount.Some? && amount.value > CapOf(limit.value.max), "POLICY_AMOUNT_OVER_CAP", High)
  }

  /** The key under which the policy lists a tool: Keccak of its name. */
  function KeyOf(name: string): string {
    Hash(name)
  }

  /** Every finding, in check order. */
  function Checks(m: Semantics, s: Snapshot, e: Record): seq<Finding> {
    ContextChecks(m, s, e) +
    When(!ListedIn(e, "recipient", s.recipients), "POLICY_RECIPIENT_NOT_ALLOWED", High) +
    When(!ListedIn(e, "token", s.tokens), "POLICY_TOKEN_NOT_ALLOWED", High) +
    AmountFinding(m, s, e) + GasFinding(s, e) + ApprovalFindings(m, s, e) +
    When(m.toolClass == "signature" && !TruthyAt(e, "typed_data_rule_key"), "POLICY_TYPED_DATA_NOT_ALLOWED", High)
  }

  function ContextChecks(m: Semantics, s: Snapshot, e: Record): seq<Finding> {
    When(Given(e, "chain_id") && !NumberIs(e["chain_id"], 10143), "POLICY_RPC_CHAIN_MISMATCH", Critical) +
    When(KeyOf(m.toolName) !in s.tools, "POLICY_TOOL_NOT_ALLOWED", High) +
    Missing(e, m.requiredFields) + Missing(e, m.requiredEvidence) +
    SimulationFinding(m, e)
  }

  function Assessed(resolution: Resolution, snapshot: Option<Snapshot>, failure: Option<string>, e: Record): Summary {
    var before := if failure.Some? then [Finding(failure.value, Critical)] else [];
    if resolution.Hidden? then Summarize(before + [Finding(resolution.code, Critical)])
    else if snapshot.None? then Summarize(before)
    else Summarize(Dedup(before + Checks(resolution.semantics, snapshot.value, e)))
  }

  // ----- The program

  method AddMissing(reasons: seq<Finding>, e: Record, names: seq<string>) returns (more: seq<Finding>)
    ensures more == reasons + Missing(e, names)
  {
    hide HasEvidence;
    more := reasons;
    for i := 0 to |names|
      invariant more + Missing(e, names[i..]) == reasons + Missing(e, names)
    {
      ghost var before := more;
      if !HasEvidence(e, names[i]) {
        more := more + [Finding("MISSING_REQUIRED_EVIDENCE", High)];
      }
      assert names[i..][1..] == names[i + 1..];
      assert more + Missing(e, names[i + 1..]) == before + Missing(e, names[i..]);
    }
    assert names[|names|..] == [];
  }

  method AssessRisk(resolution: Resolution, snapshot: Option<Snapshot>, failure: Option<string>, e: Record) returns (r: Summary)
    ensures r == Assessed(resolution, snapshot, failure, e)
  {
    hide Checks, Summarize, Dedup;
    var reasons: seq<Finding> := [];
    if failure.Some? {
      reasons := reasons + [Finding(failure.value, Critical)];
    }
    assert reasons == if failure.Some? then [Finding(failure.value, Critical)] else [];
    if resolution.Hidden? {
      reasons := reasons + [Finding(resolution.code, Critical)];
      return Summarize(reasons);
    }
    if snapshot.None? {
      return Summarize(reasons);
    }
    var found := ContextFindings(resolution.semantics, snapshot.value, e);
    found := ValueFindings(found, resolution.semantics, snapshot.value, e);
    r := Summarize(Dedup(reasons + found));
  }

  method ContextFindings(m: Semantics, s: Snapshot, e: Record) returns (reasons: seq<Finding>)
    ensures reasons == ContextChecks(m, s, e)
  {
    hide Missing, Hash, StatusOf, NumberIs, SimulationFinding;
    reasons := [];
    if Given(e, "chain_id") && !NumberIs(e["chain_id"], 10143) {
      reasons := reasons + [Finding("POLICY_RPC_CHAIN_MISMATCH", Critical)];
    }
    assert reasons == When(Given(e, "chain_id") && !NumberIs(e["chain_id"], 10143), "POLICY_RPC_CHAIN_MISMATCH", Critical);
    ghost var r0 := reasons;
    if KeyOf(m.toolName) !in s.tools {
      reasons := reasons + [Finding("POLICY_TOOL_NOT_ALLOWED", High)];
    }
    assert reasons == r0 + When(KeyOf(m.toolName) !in s.tools, "POLICY_TOOL_NOT_ALLOWED", High);
    reasons := AddMissing(reasons, e, m.requiredFields);
    reasons := AddMissing(reasons, e, m.requiredEvidence);
    var simulation := SimulationCheck(m, e);
    reasons := reasons + simulation;
  }

  method SimulationCheck(m: Semantics, e: Record) returns (reasons: seq<Finding>)
    ensures reasons == SimulationFinding(m, e)
  {
    hide StatusOf;
    reasons := [];
    if Simulated(m.toolClass) || m.requiresSimulation {
      if !TruthyAt(e, "simulation") {
        reasons := reasons + [Finding("SIMULATION_UNAVAILABLE", High)];
      } else if StatusOf(e["simulation"]) == Some(Str("failed")) {
        reasons := reasons + [Finding("SIMULATION_FAILED", High)];
      } else if StatusOf(e["simulation"]) == Some(Str("unavailable")) {
        reasons := reasons + [Finding("SIMULATION_UNAVAILABLE", High)];
      }
    }
  }

  method ValueFindings(before: seq<Finding>, m: Semantics, s: Snapshot, e: Record) returns (reasons: seq<Finding>)
    ensures before == ContextChecks(m, s, e) ==> reasons == Checks(m, s, e)
  {
    hide CapOf, AmountOf, FindLimit, Lower, Hash, ContextChecks, ApprovalText, AmountEvidence, ApprovalFindings, ListedIn, AmountCap;
    reasons := before;
    if !ListedIn(e, "recipient", s.recipients) {
      reasons := reasons + [Finding("POLICY_RECIPIENT_NOT_ALLOWED", High)];
    }
    assert reasons == before + When(!ListedIn(e, "recipient", s.recipients), "POLICY_RECIPIENT_NOT_ALLOWED", High);
    ghost var r0 := reasons;
    if !ListedIn(e, "token", s.tokens) {
      reasons := reasons + [Finding("POLICY_TOKEN_NOT_ALLOWED", High)];
    }
    assert reasons == r0 + When(!ListedIn(e, "token", s.tokens), "POLICY_TOKEN_NOT_ALLOWED", High);
    ghost var r1 := reasons;
    var amount := AmountOf(AmountEvidence(e));
    if amount.Some? {
      var cap := AmountCap(m.toolClass, s, e);
      if amount.value > cap {
        reasons := reasons + [Finding("POLICY_AMOUNT_OVER_CAP", High)];
      }
    }
    assert reasons == r1 + AmountFinding(m, s, e);
    ghost var r2 := reasons;
    if TruthyAt(e, "estimated_gas_cost_wei") {
      var gas := AmountOf(Get(e, "estimated_gas_cost_wei"));
      if gas.Some? && gas.value > CapOf(s.caps.gas) {
        reasons := reasons + [Finding("POLICY_GAS_OVER_CAP", High)];
      }
    }
    assert reasons == r2 + GasFinding(s, e);
    var approval := ApprovalCheck(m, s, e);
    reasons := reasons + approval;
    ghost var r3 := reasons;
    if m.toolClass == "signature" && !TruthyAt(e, "typed_data_rule_key") {
      reasons := reasons + [Finding("POLICY_TYPED_DATA_NOT_ALLOWED", High)];
    }
    assert reasons == r3 + When(m.toolClass == "signature" && !TruthyAt(e, "typed_data_rule_key"), "POLICY_TYPED_DATA_NOT_ALLOWED", High);
  }

  method ApprovalCheck(m: Semantics, s: Snapshot, e: Record) returns (reasons: seq<Finding>)
    ensures reasons == ApprovalFindings(m, s, e)
  {
    hide CapOf, AmountOf, FindLimit, Lower, ApprovalText, AmountEvidence, LowerField;
    reasons := [];
    if m.toolClass == "token_approval" {
      var text := ApprovalText(e);
      if Lower(text) == "uint256.max" || text == UINT256_MAX {
        reasons := reasons + [Finding("POLICY_UNLIMITED_APPROVAL_BLOCKED", Critical)];
      }
      ghost var r0 := reasons;
      var limit := FindLimit(s.spenders, LowerField(e, "token"), LowerField(e, "spender"));
      if limit.None? {
        reasons := reasons + [Finding("POLICY_SPENDER_NOT_ALLOWED", High)];
      } else {
        var amount := AmountOf(AmountEvidence(e));
        if amount.Some? && amount.value > CapOf(limit.value.max) {
          reasons := reasons + [Finding("POLICY_AMOUNT_OVER_CAP", High)];
        }
      }
      assert r0 == When(Lower(text) == "uint256.max" || text == UINT256_MAX, "POLICY_UNLIMITED_APPROVAL_BLOCKED", Critical);
    }
  }

  // ----- The largest uint256

  /** The value of five digits. */
  function Five(s: string, i: nat): nat
    requires i + 5 <= |s| && Digits(s)
  {
    10000 * ValueOfDigit(s[i]) + 1000 * ValueOfDigit(s[i + 1]) + 100 * ValueOfDigit(s[i + 2]) + 10 * ValueOfDigit(s[i + 3]) +
    ValueOfDigit(s[i + 4])
  }

  lemma FiveDigits(s: string)
    requires |s| == 5 && Digits(s)
    ensures ValueOf(s) == Five(s, 0)
  {
    var (a, b, c, d) := (s[..4], s[..3], s[..2], s[..1]);
    assert a[..3] == b && b[..2] == c && c[..1] == d && d[..0] == "";
    assert ValueOf(d) == ValueOfDigit(s[0]);
    assert ValueOf(c) == 10 * ValueOf(d) + ValueOfDigit(s[1]);
    assert ValueOf(b) == 10 * ValueOf(c) + ValueOfDigit(s[2]);
    assert ValueOf(a) == 10 * ValueOf(b) + ValueOfDigit(s[3]);
  }

  /** Five more digits at the end. */
  lemma MoreDigits(s: string, k: nat)
    requires k + 5 == |s| && Digits(s)
    ensures ValueOf(s) == 100000 * ValueOf(s[..k]) + Five(s, k)
  {
    hide ValueOf;
    var (head, tail) := (s[..k], s[k..]);
    assert s == head + tail;
    ValueOfConcat(head, tail);
    FiveDigits(tail);
    TenFive();
  }

  lemma TenFive()
    ensures Ten(5) == 100000
  {
    assert Ten(2) == 100;
    assert Ten(4) == 10000;
  }

  lemma TwentyDigits(s: string)
    requires |s| == 20 && Digits(s)
    ensures ValueOf(s) == 1000000000000000 * Five(s, 0) + 10000000000 * Five(s, 5) + 100000 * Five(s, 10) + Five(s, 15)
  {
    hide ValueOf;
    var (a, b, c) := (s[..15], s[..10], s[..5]);
    assert a[..10] == b && b[..5] == c;
    MoreDigits(s, 15);
    MoreDigits(a, 10);
    MoreDigits(b, 5);
    FiveDigits(c);
  }

  lemma FirstTwenty()
    ensures Digits("11579208923731619542") && ValueOf("11579208923731619542") == 11579208923731619542
  {
    var s := "11579208923731619542";
    assert Digits(s);
    hide ValueOf, Digits;
    assert Five(s, 0) == 11579;
    assert Five(s, 5) == 20892;
    assert Five(s, 10) == 37316;
    assert Five(s, 15) == 19542;
    hide Five;
    TwentyDigits(s);
  }

  lemma SecondTwenty()
    ensures Digits("35709850086879078532") && ValueOf("35709850086879078532") == 35709850086879078532
  {
    var s := "35709850086879078532";
    assert Digits(s);
    hide ValueOf, Digits;
    assert Five(s, 0) == 35709;
    assert Five(s, 5) == 85008;
    assert Five(s, 10) == 68790;
    assert Five(s, 15) == 78532;
    hide Five;
    TwentyDigits(s);
  }

  lemma ThirdTwenty()
    ensures Digits("69984665640564039457") && ValueOf("69984665640564039457") == 69984665640564039457
  {
    var s := "69984665640564039457";
    assert Digits(s);
    hide ValueOf, Digits;
    assert Five(s, 0) == 69984;
    assert Five(s, 5) == 66564;
    assert Five(s, 10) == 5640;
    assert Five(s, 15) == 39457;
    hide Five;
    TwentyDigits(s);
  }

  function Three(s: string): nat
    requires |s| >= 3 && Digits(s)
  {
    100 * ValueOfDigit(s[0]) + 10 * ValueOfDigit(s[1]) + ValueOfDigit(s[2])
  }

  lemma ThreeDigits(s: string)
    requires |s| == 3 && Digits(s)
    ensures ValueOf(s) == Three(s)
  {
    var (c, d) := (s[..2], s[..1]);
    assert c[..1] == d && d[..0] == "";
    assert ValueOf(d) == ValueOfDigit(s[0]);
    assert ValueOf(c) == 10 * ValueOf(d) + ValueOfDigit(s[1]);
  }

  lemma EighteenDigits(s: string)
    requires |s| == 18 && Digits(s)
    ensures ValueOf(s) == 1000000000000000 * Three(s) + 10000000000 * Five(s, 3) + 100000 * Five(s, 8) + Five(s, 13)
  {
    hide ValueOf;
    var (a, b, c) := (s[..13], s[..8], s[..3]);
    assert a[..8] == b && b[..3] == c;
    MoreDigits(s, 13);
    MoreDigits(a, 8);
    MoreDigits(b, 3);
    ThreeDigits(c);
  }

  lemma LastEighteen()
    ensures Digits("584007913129639935") && ValueOf("584007913129639935") == 584007913129639935
  {
    var s := "584007913129639935";
    assert Digits(s);
    hide ValueOf, Digits;
    assert Three(s) == 584;
    assert Five(s, 3) == 791;
    assert Five(s, 8) == 31296;
    assert Five(s, 13) == 39935;
    hide Three, Five;
    EighteenDigits(s);
  }

  lemma TenPowers()
    ensures Ten(18) == 1000000000000000000 && Ten(20) == 100000000000000000000
  {
    TenFive();
    assert Ten(2) == 100;
    assert Ten(4) == 10000;
    hide Ten;
    TenSum(4, 4);
    TenSum(5, 5);
    TenSum(8, 10);
    TenSum(10, 10);
  }

  /** The text of the largest uint256 is its canonical numeral. */
  lemma MaxAmountText()
    ensures CanonicalDecimal(UINT256_MAX) && ValueOf(UINT256_MAX) == MaxAmount()
  {
    var (a, b, c, d) := ("11579208923731619542", "35709850086879078532", "69984665640564039457", "584007913129639935");
    assert a[0] == '1';
    FirstTwenty();
    SecondTwenty();
    ThirdTwenty();
    LastEighteen();
    TenPowers();
    hide ValueOf, Ten;
    ValueOfConcat(a, b);
    ValueOfConcat(a + b, c);
    ValueOfConcat(a + b + c, d);
    assert UINT256_MAX == a + b + c + d;
  }
}
