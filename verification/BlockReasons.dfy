/** Which reason a blocked call is given, in terms of the call's evidence and the snapshot. */
module BlockReasons {
  import opened Values
  import opened Text
  import opened Coercions
  import opened ToolSemantics
  import opened Risk
  import opened PolicyDecision
  import GuardedForward
  import PolicySnapshot

  // ----- What can be wrong with a call

  predicate WrongChain(e: Record) {
    Given(e, "chain_id") && !NumberIs(e["chain_id"], 10143)
  }

  predicate UnlimitedApproval(m: Semantics, e: Record) {
    m.toolClass == "token_approval" && (Lower(ApprovalText(e)) == "uint256.max" || ApprovalText(e) == UINT256_MAX)
  }

  predicate SimulationNeeded(m: Semantics) {
    m.requiresSimulation || m.toolClass in {"transaction_execute", "token_approval", "signature", "contract_write"}
  }

  function Status(e: Record): Option<Value> {
    if TruthyAt(e, "simulation") then FieldOf(e["simulation"], "status") else Some(Str("unavailable"))
  }

  predicate OverCap(m: Semantics, s: Snapshot, e: Record) {
    var amount := AmountOf(AmountEvidence(e));
    amount.Some? && amount.value > AmountCap(m.toolClass, s, e)
  }

  predicate GasOverCap(s: Snapshot, e: Record) {
    var gas := AmountOf(Get(e, "estimated_gas_cost_wei"));
    TruthyAt(e, "estimated_gas_cost_wei") && gas.Some? && gas.value > CapOf(s.caps.gas)
  }

  function LimitIn(s: Snapshot, e: Record): Option<SpenderLimit> {
    FindLimit(s.spenders, LowerField(e, "token"), LowerField(e, "spender"))
  }

  predicate OverLimit(s: Snapshot, e: Record) {
    var amount := AmountOf(AmountEvidence(e));
    LimitIn(s, e).Some? && amount.Some? && amount.value > CapOf(LimitIn(s, e).value.max)
  }

  /** The reason of a block: the two critical ones first, whatever else is wrong, and the others in the order of the
      checks. */
  function Reason(m: Semantics, s: Snapshot, e: Record): Option<string> {
    hide Hash, NumberIs, HasEvidence, ListedIn;
    if WrongChain(e) then Some("POLICY_RPC_CHAIN_MISMATCH")
    else if UnlimitedApproval(m, e) then Some("POLICY_UNLIMITED_APPROVAL_BLOCKED")
    else if Hash(m.toolName) !in s.tools then Some("POLICY_TOOL_NOT_ALLOWED")
    else if exists n | n in m.requiredFields + m.requiredEvidence :: !HasEvidence(e, n) then Some("MISSING_REQUIRED_EVIDENCE")
    else if SimulationNeeded(m) && Status(e) == Some(Str("failed")) then Some("SIMULATION_FAILED")
    else if SimulationNeeded(m) && Status(e) == Some(Str("unavailable")) then Some("SIMULATION_UNAVAILABLE")
    else LaterReason(m, s, e)
  }

  function LaterReason(m: Semantics, s: Snapshot, e: Record): Option<string> {
    if !ListedIn(e, "recipient", s.recipients) then Some("POLICY_RECIPIENT_NOT_ALLOWED")
    else if !ListedIn(e, "token", s.tokens) then Some("POLICY_TOKEN_NOT_ALLOWED")
    else if OverCap(m, s, e) then Some("POLICY_AMOUNT_OVER_CAP")
    else if GasOverCap(s, e) then Some("POLICY_GAS_OVER_CAP")
    else if m.toolClass == "token_approval" && LimitIn(s, e).None? then Some("POLICY_SPENDER_NOT_ALLOWED")
    else if m.toolClass == "token_approval" && OverLimit(s, e) then Some("POLICY_AMOUNT_OVER_CAP")
    else if m.toolClass == "signature" && !TruthyAt(e, "typed_data_rule_key") then Some("POLICY_TYPED_DATA_NOT_ALLOWED")
    else None
  }

  // ----- First findings of joined lists

  function FirstCode(l: seq<Finding>): Option<string> {
    if l == [] then None else Some(l[0].code)
  }

  function Else<T>(a: Option<T>, b: Option<T>): Option<T> {
    if a.Some? then a else b
  }

  lemma {:induction false} FirstAtSum(a: seq<Finding>, b: seq<Finding>)
    ensures FirstAt(a + b, Critical) == Else(FirstAt(a, Critical), FirstAt(b, Critical))
    ensures FirstCode(a + b) == Else(FirstCode(a), FirstCode(b))
  {
    if a == [] {
      assert a + b == b;
    } else {
      FirstAtSum(a[1..], b);
      assert (a + b)[1..] == a[1..] + b;
    }
  }

  lemma {:induction false} MissingFirst(e: Record, names: seq<string>)
    ensures FirstAt(Missing(e, names), Critical) == None
    ensures FirstCode(Missing(e, names)) ==
            if exists n | n in names :: !HasEvidence(e, n) then Some("MISSING_REQUIRED_EVIDENCE") else None
  {
    hide HasEvidence;
    if names != [] {
      MissingFirst(e, names[1..]);
      FirstAtSum(When(!HasEvidence(e, names[0]), "MISSING_REQUIRED_EVIDENCE", High), Missing(e, names[1..]));
      assert forall n :: n in names <==> n == names[0] || n in names[1..];
    }
  }

  lemma SimulationFirst(m: Semantics, e: Record)
    ensures FirstAt(SimulationFinding(m, e), Critical) == None
    ensures FirstCode(SimulationFinding(m, e)) ==
            if SimulationNeeded(m) && Status(e) == Some(Str("failed")) then Some("SIMULATION_FAILED")
            else if SimulationNeeded(m) && Status(e) == Some(Str("unavailable")) then Some("SIMULATION_UNAVAILABLE") else None
  {
    hide FieldOf;
    assert |"failed"| == 6 && |"unavailable"| == 11;
  }

  lemma WhenFirst(condition: bool, code: string, level: Level)
    ensures FirstAt(When(condition, code, level), Critical) == if condition && level.Critical? then Some(Finding(code, level)) else None
    ensures FirstCode(When(condition, code, level)) == if condition then Some(code) else None
  {
  }

  function ContextReason(m: Semantics, s: Snapshot, e: Record): Option<string> {
    hide Hash, HasEvidence;
    if WrongChain(e) then Some("POLICY_RPC_CHAIN_MISMATCH")
    else if Hash(m.toolName) !in s.tools then Some("POLICY_TOOL_NOT_ALLOWED")
    else if exists n | n in m.requiredFields + m.requiredEvidence :: !HasEvidence(e, n) then Some("MISSING_REQUIRED_EVIDENCE")
    else if SimulationNeeded(m) && Status(e) == Some(Str("failed")) then Some("SIMULATION_FAILED")
    else if SimulationNeeded(m) && Status(e) == Some(Str("unavailable")) then Some("SIMULATION_UNAVAILABLE")
    else None
  }

  lemma ContextFirst(m: Semantics, s: Snapshot, e: Record)
    ensures FirstAt(ContextChecks(m, s, e), Critical) ==
            if WrongChain(e) then Some(Finding("POLICY_RPC_CHAIN_MISMATCH", Critical)) else None
    ensures FirstCode(ContextChecks(m, s, e)) == ContextReason(m, s, e)
  {
    hide FirstAt, FirstCode, When, Missing, SimulationFinding, HasEvidence, Hash, NumberIs, Status, SimulationNeeded;
    var (chain, tool) := (WrongChain(e), Hash(m.toolName) !in s.tools);
    var a := When(chain, "POLICY_RPC_CHAIN_MISMATCH", Critical);
    var b := When(tool, "POLICY_TOOL_NOT_ALLOWED", High);
    var (c, d, f) := (Missing(e, m.requiredFields), Missing(e, m.requiredEvidence), SimulationFinding(m, e));
    WhenFirst(chain, "POLICY_RPC_CHAIN_MISMATCH", Critical);
    WhenFirst(tool, "POLICY_TOOL_NOT_ALLOWED", High);
    MissingFirst(e, m.requiredFields);
    MissingFirst(e, m.requiredEvidence);
    SimulationFirst(m, e);
    FirstAtSum(a, b);
    FirstAtSum(a + b, c);
    FirstAtSum(a + b + c, d);
    FirstAtSum(a + b + c + d, f);
    assert forall n :: n in m.requiredFields + m.requiredEvidence <==> n in m.requiredFields || n in m.requiredEvidence;
  }

  lemma ApprovalFirst(m: Semantics, s: Snapshot, e: Record)
    ensures FirstAt(ApprovalFindings(m, s, e), Critical) ==
            if UnlimitedApproval(m, e) then Some(Finding("POLICY_UNLIMITED_APPROVAL_BLOCKED", Critical)) else None
    ensures FirstCode(ApprovalFindings(m, s, e)) ==
            if UnlimitedApproval(m, e) then Some("POLICY_UNLIMITED_APPROVAL_BLOCKED")
            else if m.toolClass == "token_approval" && LimitIn(s, e).None? then Some("POLICY_SPENDER_NOT_ALLOWED")
            else if m.toolClass == "token_approval" && OverLimit(s, e) then Some("POLICY_AMOUNT_OVER_CAP") else None
  {
    hide FindLimit, AmountOf, AmountEvidence, CapOf, ApprovalText, Lower, LowerField;
    if m.toolClass == "token_approval" {
      var unlimited := When(UnlimitedApproval(m, e), "POLICY_UNLIMITED_APPROVAL_BLOCKED", Critical);
      var rest := if LimitIn(s, e).None? then [Finding("POLICY_SPENDER_NOT_ALLOWED", High)]
                  else When(OverLimit(s, e), "POLICY_AMOUNT_OVER_CAP", High);
      assert ApprovalFindings(m, s, e) == unlimited + rest;
      FirstAtSum(unlimited, rest);
    }
  }

  lemma ChecksFirst(m: Semantics, s: Snapshot, e: Record)
    ensures FirstAt(Checks(m, s, e), Critical) ==
            if WrongChain(e) then Some(Finding("POLICY_RPC_CHAIN_MISMATCH", Critical))
            else if UnlimitedApproval(m, e) then Some(Finding("POLICY_UNLIMITED_APPROVAL_BLOCKED", Critical)) else None
    ensures !UnlimitedApproval(m, e) ==> FirstCode(Checks(m, s, e)) == Else(ContextReason(m, s, e), LaterReason(m, s, e))
  {
    hide FirstAt, FirstCode, When, ContextChecks, ApprovalFindings, ListedIn, TruthyAt, WrongChain, UnlimitedApproval, ContextReason,
      LimitIn, OverLimit, AmountOf, AmountEvidence, AmountCap, CapOf;
    var (r, t) := (!ListedIn(e, "recipient", s.recipients), !ListedIn(e, "token", s.tokens));
    var g := m.toolClass == "signature" && !TruthyAt(e, "typed_data_rule_key");
    var a := ContextChecks(m, s, e);
    var (b, c) := (When(r, "POLICY_RECIPIENT_NOT_ALLOWED", High), When(t, "POLICY_TOKEN_NOT_ALLOWED", High));
    var (d, f) := (When(OverCap(m, s, e), "POLICY_AMOUNT_OVER_CAP", High), When(GasOverCap(s, e), "POLICY_GAS_OVER_CAP", High));
    var (h, k) := (ApprovalFindings(m, s, e), When(g, "POLICY_TYPED_DATA_NOT_ALLOWED", High));
    assert AmountFinding(m, s, e) == d && GasFinding(s, e) == f;
    ContextFirst(m, s, e);
    ApprovalFirst(m, s, e);
    WhenFirst(r, "POLICY_RECIPIENT_NOT_ALLOWED", High);
    WhenFirst(t, "POLICY_TOKEN_NOT_ALLOWED", High);
    WhenFirst(OverCap(m, s, e), "POLICY_AMOUNT_OVER_CAP", High);
    WhenFirst(GasOverCap(s, e), "POLICY_GAS_OVER_CAP", High);
    WhenFirst(g, "POLICY_TYPED_DATA_NOT_ALLOWED", High);
    FirstAtSum(a, b);
    FirstAtSum(a + b, c);
    FirstAtSum(a + b + c, d);
    FirstAtSum(a + b + c + d, f);
    FirstAtSum(a + b + c + d + f, h);
    FirstAtSum(a + b + c + d + f + h, k);
  }

  /** The decision on a visible tool under a snapshot, and its reason, exactly. */
  lemma BlockedAs(m: Semantics, name: string, s: Snapshot, e: Record, audited: bool)
    ensures Evaluate(Visible(name, m), Some(s), None, e, audited) ==
            if Reason(m, s, e).Some? then Block(Reason(m, s, e).value) else if audited then Allow else Block("AUDIT_WRITE_FAILED")
  {
    hide Checks, FirstAt, Evaluate, LaterReason, WrongChain, UnlimitedApproval, Hash, HasEvidence, SimulationNeeded, Status;
    ReportedCode(m, name, s, e, audited);
    ChecksFirst(m, s, e);
    if Checks(m, s, e) == [] { NoFirst(Checks(m, s, e)); }
  }

  lemma NoFirst(l: seq<Finding>)
    requires l == []
    ensures FirstAt(l, Critical) == None
  {
  }

  /** The decision of the whole gate: the tool's resolution first, then the policy read, then the reason, the audit and
      the safety review. */
  lemma GateAs(r: Resolution, policy: PolicySnapshot.Result<Snapshot>, e: Record, audited: bool, reviewer: GuardedForward.Reviewer)
    ensures GuardedForward.Gate(r, policy, e, audited, reviewer) ==
            if r.Hidden? then Block(r.code)
            else if policy.Fail? then Block(policy.code)
            else if Reason(r.semantics, policy.value, e).Some? then Block(Reason(r.semantics, policy.value, e).value)
            else if !audited then Block("AUDIT_WRITE_FAILED")
            else if !reviewer.Replies? then Block("LLM_SAFETY_UNAVAILABLE")
            else if GuardedForward.SaidSafe(reviewer) then Allow else Block("LLM_SAFETY_BLOCKED")
  {
    hide BlockingFindings, Reason, Lower;
    if r.Visible? && policy.Ok? { BlockedAs(r.semantics, r.toolName, policy.value, e, audited); }
  }

  // ----- The summary of a failed read or a hidden tool

  lemma CriticalLeads(l: seq<Finding>)
    requires l != [] && l[0].level.Critical?
    ensures var b := Sorted(Blocking(l)); b != [] && b[0] == l[0]
  {
    hide Sorted, Blocking;
    BlockingKeepsFirst(l);
    var (kept, b) := (Blocking(l), Sorted(Blocking(l)));
    SortedFirst(kept, Critical);
    SortedStable(kept, Critical);
    FirstIs(kept);
    assert kept[0] in multiset(kept) && kept[0] in multiset(b);
    BlockingFirst(l, Critical);
    forall f | f in b ensures Blocks(f) { assert f in multiset(b) && f in multiset(kept); }
    TopIsFirst(b);
  }

  lemma BlockingKeepsFirst(l: seq<Finding>)
    requires l != [] && l[0].level.Critical?
    ensures Blocking(l) != [] && Blocking(l)[0] == l[0]
  {
  }

  lemma FirstIs(l: seq<Finding>)
    requires l != [] && l[0].level.Critical?
    ensures FirstAt(l, Critical) == Some(l[0])
  {
  }

  lemma DedupKeepsFirst(l: seq<Finding>)
    requires l != []
    ensures Dedup(l) != [] && Dedup(l)[0] == l[0]
  {
    hide DedupFrom;
    assert FirstOfCode(l, l[0].code) == 0;
    DedupStep(l);
  }

  lemma DedupStep(l: seq<Finding>)
    requires l != [] && FirstOfCode(l, l[0].code) == 0
    ensures DedupFrom(l, 0) == [l[0]] + DedupFrom(l, 1)
  {
  }

  /** A failed policy read leads the summary whatever else is found; without one, a hidden tool is the only finding, and
      without a snapshot there is none. */
  lemma AssessedAs(r: Resolution, snapshot: Option<Snapshot>, failure: Option<string>, e: Record)
    ensures var a := Assessed(r, snapshot, failure, e);
            && (failure.Some? ==> a.blocking != [] && a.blocking[0] == Finding(failure.value, Critical))
            && (failure.None? && r.Hidden? ==> a.reasons == [Finding(r.code, Critical)])
            && (failure.None? && r.Visible? && snapshot.None? ==> a.reasons == [])
  {
    hide Checks, Sorted, Blocking, Dedup, MaxScore;
    if failure.Some? {
      var before := [Finding(failure.value, Critical)];
      CriticalLeads(before);
      if r.Hidden? {
        CriticalLeads(before + [Finding(r.code, Critical)]);
      } else if snapshot.Some? {
        var l := before + Checks(r.semantics, snapshot.value, e);
        DedupKeepsFirst(l);
        CriticalLeads(Dedup(l));
      }
    }
  }
}
