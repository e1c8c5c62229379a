/** Every interleaving of guarded tool calls and policy updates that share one idempotency store.  A call runs
    to its next await in one step; the contract, the audit writer, the safety reviewer and the upstream answer
    as they like. */
module GuardedPipeline {
  import opened Values
  import opened Text
  import opened Coercions
  import opened ToolSemantics
  import opened GuardedForward
  import PolicySnapshot
  import CandidateDigest
  import Store = IdempotencyStore

  datatype Call =
    | ToolCall(name: string, schemaHash: string, args: Value, evidence: Record)
    | UpdateCall(u: PolicyUpdate)

  predicate ValidCall(call: Call) {
    match call
    case ToolCall(_, _, args, e) => IsJson(args) && JsonRecord(e)
    case UpdateCall(u) => IsJson(u.update)
  }

  /** The registry and the calls of a run. */
  datatype Setup = Setup(catalog: Catalog, calls: seq<Call>) {
    ghost predicate Valid() {
      forall c | 0 <= c < |calls| :: ValidCall(calls[c])
    }
  }

  function Resolution(x: Setup, call: Call): ToolSemantics.Resolution
    requires call.ToolCall?
  {
    ResolveCall(x.catalog, call.name, call.schemaHash)
  }

  // ----- Candidates and keys

  function CandidateFor(call: Call): CandidateDigest.Candidate
    requires ValidCall(call)
    ensures CandidateDigest.WellFormed(CandidateFor(call))
  {
    match call
    case ToolCall(name, _, args, e) => CandidateWellFormed(name, args, e); CandidateOf(name, args, e)
    case UpdateCall(u) => UpdateCandidate(u)
  }

  function PayloadOf(call: Call): string
    requires ValidCall(call)
  {
    CandidateDigest.Payload(CandidateFor(call))
  }

  function KeyText(call: Call): string
    requires ValidCall(call)
  {
    hide PayloadOf, Hash;
    var digest := Hash(PayloadOf(call));
    match call
    case ToolCall(name, _, _, _) => ToolKeyText(name, digest)
    case UpdateCall(u) => PolicyKeyText(u.kind, u.requester, digest)
  }

  function Key(call: Call): (k: string)
    requires ValidCall(call)
    ensures k != ""
  {
    hide KeyText;
    Hash(KeyText(call))
  }

  /** The call goes through the store: a policy update, or a visible tool of an idempotent class. */
  predicate Keyed(x: Setup, call: Call) {
    hide ResolveCall;
    call.UpdateCall? || (Resolution(x, call).Visible? && IdempotentClass(Resolution(x, call).semantics.toolClass))
  }

  // ----- The steps

  datatype Stage =
    | Fresh | Reading | Auditing | Reviewing | Storing | Forwarding
    | Reporting(value: Value, reused: bool)
    | Done(value: Value, reused: bool)
    | Blocked(code: string)
    | Threw(error: Value)
    | Skipped

  /** What the environment answered to the call so far. */
  datatype Trail = Trail(policy: Option<PolicySnapshot.Result<PolicySnapshot.Snapshot>>, audited: Option<bool>, reviewer: Option<Reviewer>)

  /** `invoked` lists the calls whose forward reached the upstream, in order. */
  datatype State = State(store: Store.State, stages: seq<Stage>, trails: seq<Trail>, invoked: seq<nat>)

  datatype Step =
    | Begin(call: nat)
    | PolicyRead(call: nat, result: PolicySnapshot.Result<PolicySnapshot.Snapshot>)
    | AuditWritten(call: nat, ok: bool)
    | Reviewed(call: nat, reviewer: Reviewer)
    | Invoke(promise: nat)
    | Answered(promise: nat, outcome: Store.Outcome)
    | Resumed(call: nat)
    | Direct(call: nat, outcome: Store.Outcome)
    | Reported(call: nat)

  function Initial(n: nat): State {
    State(Store.Initial(n), seq(n, _ => Fresh), seq(n, _ => Trail(None, None, None)), [])
  }

  predicate Sized(x: Setup, s: State) {
    |s.stages| == |s.trails| == |s.store.callers| == |x.calls|
  }

  predicate At(s: State, c: nat, stage: Stage) {
    c < |s.stages| && s.stages[c] == stage
  }

  predicate Enabled(x: Setup, s: State, step: Step)
    requires Sized(x, s)
  {
    match step
    case Begin(c) => At(s, c, Fresh)
    case PolicyRead(c, _) => At(s, c, Reading)
    case AuditWritten(c, _) => At(s, c, Auditing)
    case Reviewed(c, _) => At(s, c, Reviewing) && s.store.callers[c].Absent?
    case Invoke(p) => Store.Enabled(s.store, Store.Start(p))
    case Answered(p, o) => Store.Enabled(s.store, Store.Settle(p, o))
    case Resumed(c) => At(s, c, Storing) && Store.Enabled(s.store, Store.Resume(c))
    case Direct(c, _) => At(s, c, Forwarding)
    case Reported(c) => c < |s.stages| && s.stages[c].Reporting?
  }

  function Begun(x: Setup, call: Call): Stage {
    if call.ToolCall? then Reading
    else match Authorize(call.u)
      case Proceed => Reviewing
      case Stop(code) => Blocked(code)
      case Skip => Skipped
  }

  /** Findings, or a failed read, block at once; otherwise the evaluation is audited.  Only tool calls read. */
  function AfterRead(x: Setup, call: Call, result: PolicySnapshot.Result<PolicySnapshot.Snapshot>): Stage {
    hide Decide, ResolveCall;
    if call.UpdateCall? then Skipped
    else match Decide(Resolution(x, call), result, call.evidence, true)
      case Allow => Auditing
      case Block(code) => Blocked(code)
  }

  function AfterStore(caller: Store.Caller): Stage {
    match caller
    case Returned(_, reused, v) => Reporting(v, reused)
    case Raised(_, error) => Threw(error)
    case _ => Storing
  }

  function AfterDirect(o: Store.Outcome): Stage {
    match o case Fulfilled(v) => Reporting(v, false) case Threw(error) => Threw(error)
  }

  function KeyAt(x: Setup, c: nat): (k: string)
    requires x.Valid() && c < |x.calls|
    ensures k != ""
  {
    hide Key, ValidCall;
    Key(x.calls[c])
  }

  /** runOnce is entered with the call's key, and answers at once when the key's result is recorded. */
  function EnterStore(s: State, c: nat, key: string): State
    requires c < |s.stages| == |s.store.callers| && s.store.callers[c].Absent?
  {
    hide AfterStore, Store.Next;
    var store := Store.Next(s.store, Store.Enter(c, key));
    s.(store := store, stages := s.stages[c := AfterStore(store.callers[c])])
  }

  function AfterReview(x: Setup, s: State, c: nat, reviewer: Reviewer): State
    requires x.Valid() && Sized(x, s) && Enabled(x, s, Reviewed(c, reviewer))
  {
    hide KeyAt, Keyed, EnterStore, FinalSafetyReview, Setup.Valid;
    var t := s.(trails := s.trails[c := s.trails[c].(reviewer := Some(reviewer))]);
    var review := FinalSafetyReview(reviewer);
    if !review.Safe? then t.(stages := s.stages[c := Blocked(VetoCode(review))])
    else if Keyed(x, x.calls[c]) then EnterStore(t, c, KeyAt(x, c))
    else t.(invoked := s.invoked + [c], stages := s.stages[c := Forwarding])
  }

  function Next(x: Setup, s: State, step: Step): State
    requires x.Valid() && Sized(x, s) && Enabled(x, s, step)
  {
    hide Begun, AfterRead, AfterReview, AfterStore, AfterDirect, Setup.Valid, Store.Next;
    match step
    case Begin(c) => s.(stages := s.stages[c := Begun(x, x.calls[c])])
    case PolicyRead(c, result) =>
      s.(stages := s.stages[c := AfterRead(x, x.calls[c], result)], trails := s.trails[c := s.trails[c].(policy := Some(result))])
    case AuditWritten(c, ok) =>
      s.(stages := s.stages[c := if ok then Reviewing else Blocked("AUDIT_WRITE_FAILED")],
         trails := s.trails[c := s.trails[c].(audited := Some(ok))])
    case Reviewed(c, reviewer) => AfterReview(x, s, c, reviewer)
    case Invoke(p) => s.(store := Store.Next(s.store, Store.Start(p)), invoked := s.invoked + [s.store.promises[p].owner])
    case Answered(p, o) => s.(store := Store.Next(s.store, Store.Settle(p, o)))
    case Resumed(c) =>
      var store := Store.Next(s.store, Store.Resume(c));
      s.(store := store, stages := s.stages[c := AfterStore(store.callers[c])])
    case Direct(c, o) => s.(stages := s.stages[c := AfterDirect(o)])
    case Reported(c) => s.(stages := s.stages[c := Done(s.stages[c].value, s.stages[c].reused)])
  }

  lemma NextSized(x: Setup, s: State, step: Step)
    requires x.Valid() && Sized(x, s) && Enabled(x, s, step)
    ensures Sized(x, Next(x, s, step))
  {
    hide Begun, AfterRead, AfterStore, AfterDirect, KeyAt, Keyed, Setup.Valid, Store.Next;
  }

  /** A schedule picks a step each time; a step that cannot be taken changes nothing. */
  function Run(x: Setup, s: State, steps: seq<Step>): (t: State)
    requires x.Valid() && Sized(x, s)
    ensures Sized(x, t)
    decreases |steps|
  {
    hide Enabled, Next, Sized;
    if steps == [] then s
    else if Enabled(x, s, steps[0]) then
      NextSized(x, s, steps[0]);
      Run(x, Next(x, s, steps[0]), steps[1..])
    else Run(x, s, steps[1..])
  }
}
