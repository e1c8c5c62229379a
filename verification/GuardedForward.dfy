/** The ordered gate of a guarded call: resolution, policy, risk, review, then the keyed forward. */
module GuardedForward {
  import opened Values
  import opened Text
  import opened Coercions
  import opened ToolSemantics
  import opened PolicyDecision
  import opened PolicySnapshot
  import Risk
  import CanonicalJson
  import CandidateDigest

  // ----- The final safety review

  /** No client can be built, the client throws, or it replies; None is a reply whose verdict is not a string. */
  datatype Reviewer = Absent | Throws | Replies(verdict: Option<string>)

  datatype Review = Safe | Unsafe | Unavailable

  function FinalSafetyReview(r: Reviewer): Review {
    match r
    case Absent => Unavailable
    case Throws => Unavailable
    case Replies(v) => if v.Some? && Lower(v.value) == "safe" then Safe else Unsafe
  }

  function VetoCode(r: Review): string
    requires !r.Safe?
  {
    if r.Unavailable? then "LLM_SAFETY_UNAVAILABLE" else "LLM_SAFETY_BLOCKED"
  }

  // ----- The gate

  datatype Source = Supplied(snapshot: Snapshot) | SuppliedFailure(code: string) | Contract(t: Transport, config: Config) | Nowhere

  function PolicyFrom(source: Source): Result<Snapshot> {
    match source
    case Supplied(s) => Ok(s)
    case SuppliedFailure(code) => Fail(code)
    case Contract(t, config) => Fetched(t, config)
    case Nowhere => Fail("POLICY_CONTRACT_UNAVAILABLE")
  }

  function Decide(r: Resolution, policy: Result<Snapshot>, e: Record, audited: bool): Decision {
    match policy
    case Ok(s) => Evaluate(r, Some(s), None, e, audited)
    case Fail(code) => Evaluate(r, None, Some(code), e, audited)
  }

  /** The whole decision of one call, given what the environment answers. */
  function Gate(r: Resolution, policy: Result<Snapshot>, e: Record, audited: bool, reviewer: Reviewer): Decision {
    hide Decide;
    var decision := Decide(r, policy, e, audited);
    if decision.Block? then decision
    else
      var review := FinalSafetyReview(reviewer);
      if review.Safe? then Allow else Block(VetoCode(review))
  }

  predicate SaidSafe(reviewer: Reviewer) {
    reviewer.Replies? && reviewer.verdict.Some? && Lower(reviewer.verdict.value) == "safe"
  }

  /** The tool is visible, its policy was read, no check finds anything, the evaluation was audited and the
      safety reviewer replied that it is safe. */
  predicate Cleared(r: Resolution, policy: Result<Snapshot>, e: Record, audited: bool, reviewer: Reviewer) {
    hide Risk.Checks;
    r.Visible? && policy.Ok? && Risk.Checks(r.semantics, policy.value, e) == [] && audited && SaidSafe(reviewer)
  }

  lemma ClearedVisible(r: Resolution, policy: Result<Snapshot>, e: Record, audited: bool, reviewer: Reviewer)
    ensures Cleared(r, policy, e, audited, reviewer) ==> r.Visible?
  {
    hide Risk.Checks, SaidSafe;
  }

  /** A call passes the gate exactly when it is cleared on every count. */
  lemma GateIff(r: Resolution, policy: Result<Snapshot>, e: Record, audited: bool, reviewer: Reviewer)
    ensures Gate(r, policy, e, audited, reviewer) == Allow <==> Cleared(r, policy, e, audited, reviewer)
  {
    hide Risk.Checks, FirstAt, Lower;
    if r.Visible? && policy.Ok? { ReportedCode(r.semantics, r.toolName, policy.value, e, audited); }
  }

  /** Two runs that differ only in the safety reviewer: a deterministic block stays a block with the same code,
      what any safety reviewer lets through would pass one that always replies safe, and the two veto codes say
      which reply was given. */
  lemma VetoOnly(r: Resolution, policy: Result<Snapshot>, e: Record, audited: bool, one: Reviewer, two: Reviewer)
    ensures var decision := Decide(r, policy, e, audited);
            && (decision.Block? ==> Gate(r, policy, e, audited, one) == Gate(r, policy, e, audited, two) == decision)
            && (Gate(r, policy, e, audited, one).Allow? ==> Gate(r, policy, e, audited, Replies(Some("safe"))).Allow?)
            && (decision.Allow? ==>
                  (Gate(r, policy, e, audited, one) == Block("LLM_SAFETY_UNAVAILABLE") <==> !one.Replies?) &&
                  (Gate(r, policy, e, audited, one) == Block("LLM_SAFETY_BLOCKED") <==>
                     one.Replies? && !SaidSafe(one)))
  {
    hide Decide, Lower;
    SafeIsLower();
    assert |"LLM_SAFETY_UNAVAILABLE"| == 22 && |"LLM_SAFETY_BLOCKED"| == 18;
  }

  lemma SafeIsLower()
    ensures Lower("safe") == "safe"
  {
  }

  // ----- Digest and keys

  predicate DigestClass(class_: string) {
    class_ == "transaction_execute" || class_ == "token_approval" || class_ == "signature" || class_ == "contract_write"
  }

  predicate IdempotentClass(class_: string) {
    class_ == "transaction_execute" || class_ == "token_approval" || class_ == "contract_write"
  }

  predicate JsonRecord(e: Record) {
    forall k | k in e :: IsJson(e[k])
  }

  type Candidate = CandidateDigest.Candidate

  function Put(c: Candidate, field: string, v: Option<Value>): (r: Candidate)
    ensures CandidateDigest.WellFormed(c) && (v.Some? ==> IsJson(v.value)) ==> CandidateDigest.WellFormed(r)
  {
    if v.Some? then c[field := v.value] else c
  }

  function CandidateOf(name: string, args: Value, e: Record): Candidate {
    Costs(Effects(Put(Put(map[], "tool_name", Some(Str(name))), "args", Some(args)), e), e)
  }

  function Effects(c: Candidate, e: Record): Candidate {
    var d := Put(Put(c, "chain_id", Get(e, "chain_id")), "account", Either(Get(e, "account"), Get(e, "from")));
    var f := Put(Put(Put(d, "to", Either(Get(e, "to"), Get(e, "recipient"))), "value", Get(e, "value")), "data", Get(e, "data"));
    Put(Put(f, "token", Get(e, "token")), "spender", Get(e, "spender"))
  }

  function Costs(c: Candidate, e: Record): Candidate {
    Fees(Put(c, "amount", Either(Get(e, "amount"), Either(Get(e, "amount_atomic"), Get(e, "amount_wei")))), e)
  }

  function Fees(c: Candidate, e: Record): Candidate {
    var f := Put(Put(c, "max_fee_per_gas_wei", Get(e, "max_fee_per_gas_wei")), "max_priority_fee_per_gas_wei",
                 Get(e, "max_priority_fee_per_gas_wei"));
    Put(Put(f, "gas_limit", Get(e, "gas_limit")), "estimated_gas_cost_wei", Get(e, "estimated_gas_cost_wei"))
  }

  predicate JsonOption(v: Option<Value>) {
    v.Some? ==> IsJson(v.value)
  }

  lemma JsonGet(e: Record, key: string)
    requires JsonRecord(e)
    ensures JsonOption(Get(e, key))
  {
  }

  lemma CandidateWellFormed(name: string, args: Value, e: Record)
    requires IsJson(args) && JsonRecord(e)
    ensures CandidateDigest.WellFormed(CandidateOf(name, args, e))
  {
    hide IsJson, Put, CandidateDigest.WellFormed, JsonRecord, Effects, Costs;
    TextIsJson(name);
    EmptyWellFormed();
    EffectsWellFormed(Put(Put(map[], "tool_name", Some(Str(name))), "args", Some(args)), e);
    CostsWellFormed(Effects(Put(Put(map[], "tool_name", Some(Str(name))), "args", Some(args)), e), e);
  }

  lemma JsonEither(a: Option<Value>, b: Option<Value>)
    requires JsonOption(a) && JsonOption(b)
    ensures JsonOption(Either(a, b))
  {
  }

  lemma EffectsWellFormed(c: Candidate, e: Record)
    requires CandidateDigest.WellFormed(c) && JsonRecord(e)
    ensures CandidateDigest.WellFormed(Effects(c, e))
  {
    hide IsJson, Put, Get, Either, CandidateDigest.WellFormed, JsonRecord;
    forall key: string ensures JsonOption(Get(e, key)) { JsonGet(e, key); }
    JsonEither(Get(e, "account"), Get(e, "from"));
    JsonEither(Get(e, "to"), Get(e, "recipient"));
  }

  lemma CostsWellFormed(c: Candidate, e: Record)
    requires CandidateDigest.WellFormed(c) && JsonRecord(e)
    ensures CandidateDigest.WellFormed(Costs(c, e))
  {
    hide IsJson, Put, Get, Either, CandidateDigest.WellFormed, JsonRecord, Fees;
    JsonGet(e, "amount");
    JsonGet(e, "amount_atomic");
    JsonGet(e, "amount_wei");
    JsonEither(Get(e, "amount_atomic"), Get(e, "amount_wei"));
    JsonEither(Get(e, "amount"), Either(Get(e, "amount_atomic"), Get(e, "amount_wei")));
    FeesWellFormed(Put(c, "amount", Either(Get(e, "amount"), Either(Get(e, "amount_atomic"), Get(e, "amount_wei")))), e);
  }

  lemma FeesWellFormed(c: Candidate, e: Record)
    requires CandidateDigest.WellFormed(c) && JsonRecord(e)
    ensures CandidateDigest.WellFormed(Fees(c, e))
  {
    hide IsJson, Put, Get, CandidateDigest.WellFormed, JsonRecord;
    JsonGet(e, "max_fee_per_gas_wei");
    JsonGet(e, "max_priority_fee_per_gas_wei");
    JsonGet(e, "gas_limit");
    JsonGet(e, "estimated_gas_cost_wei");
  }

  lemma TextIsJson(s: string)
    ensures IsJson(Str(s))
  {
  }

  lemma EmptyWellFormed()
    ensures CandidateDigest.WellFormed(map[])
  {
  }

  function Digest(name: string, args: Value, e: Record): string
    requires IsJson(args) && JsonRecord(e)
  {
    CandidateWellFormed(name, args, e);
    Hash(CandidateDigest.Payload(CandidateOf(name, args, e)))
  }

  // ----- Policy updates

  /** A proposed bootstrap or update of the user's policy contract; `update` is plain JSON. */
  datatype PolicyUpdate = PolicyUpdate(
    kind: string, requester: string, current: Option<Snapshot>, update: Value, consent: Option<Value>, simulation: Option<Value>)

  function PolicyTool(kind: string): string {
    "compass_policy_" + kind
  }

  function UpdateCandidate(u: PolicyUpdate): Candidate
    requires IsJson(u.update)
  {
    map["chain_id" := Num("10143"), "account" := Str(u.requester), "tool_name" := Str(PolicyTool(u.kind)),
        "data" := Str(CanonicalJson.Canonical(u.update))]
  }

  /** A canonical text is never a hexadecimal text, so the digest keeps it as it is. */
  lemma CanonicalNotHex(v: Value)
    requires IsJson(v)
    ensures !HexText(CanonicalJson.Canonical(v))
  {
    var t := CanonicalJson.Canonical(v);
    match v
    case Num(token) => assert !NumberChar('x');
    case Str(s) => assert t[0] == '"';
    case Arr(items) => CanonicalJson.CanonicalArray(items);
    case Obj(fields) => CanonicalJson.CanonicalObject(fields);
    case _ =>
  }

  /** The requester as the digest sees it: a hexadecimal text in lower case. */
  function RequesterValue(u: PolicyUpdate): Value {
    CandidateDigest.Normalized(Str(u.requester))
  }

  lemma UpdateWellFormed(u: PolicyUpdate)
    requires IsJson(u.update)
    ensures CandidateDigest.WellFormed(UpdateCandidate(u))
  {
    TextIsJson(u.requester);
    TextIsJson(PolicyTool(u.kind));
  }

  lemma ToolField(u: PolicyUpdate, v: PolicyUpdate)
    requires IsJson(u.update) && IsJson(v.update)
    ensures CandidateDigest.SameField(UpdateCandidate(u), UpdateCandidate(v), "tool_name") <==> u.kind == v.kind
  {
    hide CanonicalJson.Canonical, Lower;
    var (s, t) := (PolicyTool(u.kind), PolicyTool(v.kind));
    assert s[0] == 'c' && t[0] == 'c';
    assert s[15..] == u.kind && t[15..] == v.kind;
  }

  lemma DataField(u: PolicyUpdate, v: PolicyUpdate)
    requires IsJson(u.update) && IsJson(v.update)
    ensures CandidateDigest.SameField(UpdateCandidate(u), UpdateCandidate(v), "data") <==> Same(u.update, v.update)
  {
    hide CanonicalJson.Canonical, Lower, HexText, PolicyTool;
    CanonicalNotHex(u.update);
    CanonicalNotHex(v.update);
    CanonicalJson.CanonicalIff(u.update, v.update);
  }

  lemma OtherFields(u: PolicyUpdate, v: PolicyUpdate, f: string)
    requires IsJson(u.update) && IsJson(v.update) && f != "data" && f != "tool_name" && f != "account"
    ensures CandidateDigest.SameField(UpdateCandidate(u), UpdateCandidate(v), f)
  {
    hide CanonicalJson.Canonical, Lower, HexText, PolicyTool;
  }

  lemma AccountField(u: PolicyUpdate, v: PolicyUpdate)
    requires IsJson(u.update) && IsJson(v.update)
    ensures CandidateDigest.SameField(UpdateCandidate(u), UpdateCandidate(v), "account") <==> RequesterValue(u) == RequesterValue(v)
  {
    hide CanonicalJson.Canonical, Lower, HexText, PolicyTool;
  }

  lemma UpdateFields()
    ensures var l := CandidateDigest.DigestFields(); "account" in l && "data" in l && "tool_name" in l
  {
    var l := CandidateDigest.DigestFields();
    assert l[1] == "account" && l[4] == "data" && l[5] == "tool_name";
  }

  /** Two policy updates are the same candidate exactly when kind and requester agree and the proposed contents
      are the same JSON up to key order. */
  lemma SameUpdateIff(u: PolicyUpdate, v: PolicyUpdate)
    requires IsJson(u.update) && IsJson(v.update)
    ensures CandidateDigest.SameFields(UpdateCandidate(u), UpdateCandidate(v), CandidateDigest.DigestFields()) <==>
              u.kind == v.kind && RequesterValue(u) == RequesterValue(v) && Same(u.update, v.update)
  {
    hide CandidateDigest.DigestFields, CandidateDigest.SameField, UpdateCandidate, RequesterValue, Same, IsJson;
    UpdateFields();
    UpdateWellFormed(u);
    UpdateWellFormed(v);
    ToolField(u, v);
    DataField(u, v);
    AccountField(u, v);
    forall f: string | f != "data" && f != "tool_name" && f != "account"
      ensures CandidateDigest.SameField(UpdateCandidate(u), UpdateCandidate(v), f)
    {
      OtherFields(u, v, f);
    }
  }

  predicate Names(consent: Value, key: string) {
    var v := FieldOf(consent, key);
    v.Some? && !v.value.Null? && v.value != Str("")
  }

  /** The consent identifies network, account, target, asset and maximum amount. */
  predicate ConsentGiven(consent: Option<Value>) {
    consent.Some? && (consent.value.Obj? || consent.value.Arr? || consent.value.Error?) &&
    Names(consent.value, "network") && Names(consent.value, "account") && Names(consent.value, "target") &&
    Names(consent.value, "asset") && Names(consent.value, "max_amount")
  }

  /** Consent is complete exactly when none of the five names is missing, null or the empty text. */
  lemma ConsentIff(consent: Option<Value>)
    ensures ConsentGiven(consent) <==>
              consent.Some? && forall k | k in {"network", "account", "target", "asset", "max_amount"} ::
                FieldOf(consent.value, k) !in {None, Some(Null), Some(Str(""))}
  {
    var names := {"network", "account", "target", "asset", "max_amount"};
    assert "network" in names && "account" in names && "target" in names && "asset" in names && "max_amount" in names;
    if consent.Some? {
      forall k | k in names ensures Names(consent.value, k) <==> FieldOf(consent.value, k) !in {None, Some(Null), Some(Str(""))} {}
      if forall k | k in names :: FieldOf(consent.value, k) !in {None, Some(Null), Some(Str(""))} { assert Names(consent.value, "network"); }
    }
  }

  datatype Prelude = Proceed | Stop(code: string) | Skip

  /** Authorisation, consent and simulation of a policy update. */
  function Authorize(u: PolicyUpdate): Prelude {
    if u.kind == "update" then
      if u.current.None? then Stop("USER_POLICY_UNRESOLVED")
      else if u.requester == "" || Lower(u.requester) != Lower(u.current.value.owner) then Stop("POLICY_OWNER_ONLY")
      else Permitted(u)
    else if u.kind == "bootstrap" then
      if u.current.Some? then Stop("POLICY_OWNER_ONLY")
      else if u.requester == "" then Stop("USER_POLICY_UNRESOLVED")
      else Permitted(u)
    else Stop("INTERNAL_ERROR")
  }

  function Permitted(u: PolicyUpdate): Prelude {
    if !ConsentGiven(u.consent) then Skip
    else if u.simulation.None? || !Truthy(u.simulation.value) then Stop("SIMULATION_UNAVAILABLE")
    else
      var status := FieldOf(u.simulation.value, "status");
      if status == Some(Str("success")) then Proceed
      else Stop(if status == Some(Str("failed")) then "SIMULATION_FAILED" else "SIMULATION_UNAVAILABLE")
  }

  /** Only the owner's update, or a first bootstrap, with full consent and a successful simulation proceeds. */
  lemma OwnerOnly(u: PolicyUpdate)
    ensures Authorize(u).Proceed? <==>
              && u.requester != "" && ConsentGiven(u.consent)
              && u.simulation.Some? && FieldOf(u.simulation.value, "status") == Some(Str("success"))
              && ((u.kind == "update" && u.current.Some? && Lower(u.requester) == Lower(u.current.value.owner)) ||
                  (u.kind == "bootstrap" && u.current.None?))
  {
    hide ConsentGiven, Lower;
    assert |"update"| == 6 && |"bootstrap"| == 9;
  }

  /** The requester may make this kind of change now. */
  predicate MayPropose(u: PolicyUpdate) {
    u.requester != "" &&
    ((u.kind == "update" && u.current.Some? && Lower(u.requester) == Lower(u.current.value.owner)) ||
     (u.kind == "bootstrap" && u.current.None?))
  }

  /** How a policy update stops: by its kind, its owner, its missing consent, or its simulation, in this order. */
  lemma StoppedAs(u: PolicyUpdate)
    ensures var (r, status) := (Authorize(u), if u.simulation.Some? then FieldOf(u.simulation.value, "status") else None);
            && (r == Stop("INTERNAL_ERROR") <==> u.kind != "update" && u.kind != "bootstrap")
            && (r == Stop("USER_POLICY_UNRESOLVED") <==>
                  u.current.None? && (u.kind == "update" || (u.kind == "bootstrap" && u.requester == "")))
            && (r == Stop("POLICY_OWNER_ONLY") <==> u.current.Some? && (u.kind == "bootstrap" || (u.kind == "update" && !MayPropose(u))))
            && (r == Skip <==> MayPropose(u) && !ConsentGiven(u.consent))
            && (r == Stop("SIMULATION_FAILED") <==> MayPropose(u) && ConsentGiven(u.consent) && status == Some(Str("failed")))
            && (r == Stop("SIMULATION_UNAVAILABLE") <==>
                  MayPropose(u) && ConsentGiven(u.consent) && status != Some(Str("failed")) && status != Some(Str("success")))
  {
    hide ConsentGiven, Lower;
    assert |"update"| == 6 && |"bootstrap"| == 9 && |"failed"| == 6 && |"success"| == 7;
    assert |"INTERNAL_ERROR"| == 14 && |"USER_POLICY_UNRESOLVED"| == 22 && |"POLICY_OWNER_ONLY"| == 17 && |"SIMULATION_FAILED"| == 17;
    assert |"SIMULATION_UNAVAILABLE"| == 22 && "POLICY_OWNER_ONLY"[0] == 'P' && "SIMULATION_FAILED"[0] == 'S';
    assert "failed"[0] != "success"[0] && "INTERNAL_ERROR"[0] == 'I';
    assert "USER_POLICY_UNRESOLVED"[0] == 'U' && "SIMULATION_UNAVAILABLE"[0] == 'S';
  }

  // ----- Keys

  function ToolKeyText(name: string, digest: string): string {
    "idem:" + name + ":" + digest
  }

  function PolicyKeyText(kind: string, requester: string, digest: string): string {
    "policy:" + kind + ":" + Lower(requester) + ":" + digest
  }

  /** Key texts of calls determine the tool and the digest. */
  lemma ToolKeyTextInjective(name: string, digest: string, name': string, digest': string)
    requires |digest| == |digest'| && ToolKeyText(name, digest) == ToolKeyText(name', digest')
    ensures name == name' && digest == digest'
  {
    var (s, t) := (ToolKeyText(name, digest), ToolKeyText(name', digest'));
    assert |s| == 6 + |name| + |digest| && |t| == 6 + |name'| + |digest'|;
    assert s[5..5 + |name|] == name && t[5..5 + |name'|] == name';
    assert s[6 + |name|..] == digest && t[6 + |name'|..] == digest';
  }

  /** Key texts of policy updates determine the kind, the requester up to case and the digest. */
  lemma PolicyKeyTextInjective(kind: string, r: string, digest: string, kind': string, r': string, digest': string)
    requires |digest| == |digest'| && PolicyKeyText(kind, r, digest) == PolicyKeyText(kind', r', digest')
    requires (kind == "update" || kind == "bootstrap") && (kind' == "update" || kind' == "bootstrap")
    ensures kind == kind' && Lower(r) == Lower(r') && digest == digest'
  {
    var (s, t) := (PolicyKeyText(kind, r, digest), PolicyKeyText(kind', r', digest'));
    var (n, n') := (|kind| + |r|, |kind'| + |r'|);
    assert |s| == 9 + n + |digest| && |t| == 9 + n' + |digest'|;
    assert s[7] == kind[0] && t[7] == kind'[0];
    assert "update"[0] != "bootstrap"[0];
    assert s[8 + |kind|..8 + n] == Lower(r) && t[8 + |kind'|..8 + n'] == Lower(r');
    assert s[9 + n..] == digest && t[9 + n'..] == digest';
  }

  /** The two families of key texts never meet. */
  lemma KeyFamiliesApart(name: string, digest: string, kind: string, requester: string, digest': string)
    ensures ToolKeyText(name, digest) != PolicyKeyText(kind, requester, digest')
  {
    assert ToolKeyText(name, digest)[0] == 'i';
    assert PolicyKeyText(kind, requester, digest')[0] == 'p';
  }
}
