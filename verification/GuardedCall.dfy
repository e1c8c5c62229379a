/** One guarded call run through without interruption, with its store as an object: the same gate and the same
    keys, stage by stage. */
module GuardedCall {
  import opened Values
  import opened Text
  import opened Coercions
  import opened ToolSemantics
  import opened GuardedForward
  import CandidateDigest
  import P = GuardedPipeline
  import S = IdempotencyStore

  /** How a call ends; Waits is a call that joins another one that is still running. */
  datatype Ending = Blocked(code: string) | Skipped | Allowed(value: Value, reused: bool) | Raised(error: Value) | Waits(promise: nat)

  function EndingOf(o: S.Outcome, reused: bool): Ending {
    match o case Fulfilled(v) => Allowed(v, reused) case Threw(e) => Raised(e)
  }

  /** The call ends with the upstream's own answer. */
  predicate Ends(answer: S.Outcome, ending: Ending) {
    match answer case Fulfilled(v) => ending == Allowed(v, false) case Threw(e) => ending == Raised(e)
  }

  /** What the store then holds under the key, and how the call ends: a key that is new is forwarded once and
      its answer recorded, a recorded one is never forwarded again. */
  ghost predicate RanOnce(before: S.Entries, after: S.Entries, key: string, answer: S.Outcome, ending: Ending, forwarded: bool) {
    && (forwarded <==> key !in before)
    && after == (if forwarded then before[key := S.Recorded(answer)] else before)
    && (forwarded ==> Ends(answer, ending))
    && (!forwarded ==> match before[key]
                       case Done(v) => ending == Allowed(v, true)
                       case Failed(e) => ending == Raised(e)
                       case Pending(p) => ending == Waits(p))
  }

  /** runOnce without interruption: `answer` is what the upstream gives if it is asked. */
  method RunOnce(store: S.Store, key: string, promise: nat, answer: S.Outcome) returns (ending: Ending, forwarded: bool)
    requires key != ""
    modifies store
    ensures RanOnce(old(store.entries), store.entries, key, answer, ending, forwarded)
  {
    forwarded := false;
    var reply := store.Begin(key, promise);
    match reply
    case BadKey => assert false;
    case Answer(o) => ending := EndingOf(o, true);
    case Awaits(p) => ending := Waits(p);
    case Owns(p) =>
      forwarded := true;
      var o := store.Finish(key, answer);
      ending := EndingOf(o, false);
  }

  method GuardedToolCall(catalog: Catalog, name: string, schemaHash: string, args: Value, e: Record, source: Source, audited: bool,
                         reviewer: Reviewer, store: S.Store, promise: nat, answer: S.Outcome)
    returns (ending: Ending, forwarded: bool)
    requires IsJson(args) && JsonRecord(e)
    modifies store
    ensures var (r, policy) := (ResolveCall(catalog, name, schemaHash), PolicyFrom(source));
            match Gate(r, policy, e, audited, reviewer)
            case Block(code) => ending == Blocked(code) && !forwarded && store.entries == old(store.entries)
            case Allow =>
              Cleared(r, policy, e, audited, reviewer) &&
              if r.semantics.toolClass in {"transaction_execute", "token_approval", "contract_write"} then
                RanOnce(old(store.entries), store.entries, P.Key(P.ToolCall(name, schemaHash, args, e)), answer, ending, forwarded)
              else forwarded && Ends(answer, ending) && store.entries == old(store.entries)
  {
    hide PolicyFrom, Decide, Digest, ToolKeyText, Hash, ResolveCall, RanOnce, Cleared, P.Key;
    forwarded := false;
    var resolution := ResolveCall(catalog, name, schemaHash);
    var policy := PolicyFrom(source);
    GateIff(resolution, policy, e, audited, reviewer);
    ClearedVisible(resolution, policy, e, audited, reviewer);
    var decision := Decide(resolution, policy, e, audited);
    if decision.Block? {
      return Blocked(decision.code), false;
    }
    var review := FinalSafetyReview(reviewer);
    if !review.Safe? {
      return Blocked(VetoCode(review)), false;
    }
    if IdempotentClass(resolution.semantics.toolClass) {
      var key := Hash(ToolKeyText(name, Digest(name, args, e)));
      KeyIs(P.ToolCall(name, schemaHash, args, e));
      ending, forwarded := RunOnce(store, key, promise, answer);
    } else {
      forwarded := true;
      ending := EndingOf(answer, false);
    }
  }

  function UpdateDigest(u: PolicyUpdate): string
    requires IsJson(u.update)
  {
    Hash(CandidateDigest.Payload(UpdateCandidate(u)))
  }

  /** The keys the program derives are the keys of the interleaved pipeline. */
  lemma KeyIs(call: P.Call)
    requires P.ValidCall(call)
    ensures P.Key(call) == Hash(match call
                                case ToolCall(name, _, args, e) => ToolKeyText(name, Digest(name, args, e))
                                case UpdateCall(u) => PolicyKeyText(u.kind, u.requester, UpdateDigest(u)))
  {
    hide Hash, CandidateDigest.Payload, CandidateOf, IsJson, JsonRecord, ToolKeyText, PolicyKeyText;
  }

  method GuardedPolicyUpdate(u: PolicyUpdate, reviewer: Reviewer, store: S.Store, promise: nat, answer: S.Outcome)
    returns (ending: Ending, forwarded: bool)
    requires IsJson(u.update)
    modifies store
    ensures match Authorize(u)
            case Stop(code) => ending == Blocked(code) && !forwarded && store.entries == old(store.entries)
            case Skip => ending == Skipped && !forwarded && store.entries == old(store.entries)
            case Proceed =>
              var review := FinalSafetyReview(reviewer);
              if review.Safe? then
                RanOnce(old(store.entries), store.entries, P.Key(P.UpdateCall(u)), answer, ending, forwarded)
              else ending == Blocked(VetoCode(review)) && !forwarded && store.entries == old(store.entries)
  {
    hide Hash, PolicyKeyText, UpdateDigest, RanOnce, ConsentGiven, Lower, P.Key;
    forwarded := false;
    if u.kind == "update" {
      if u.current.None? {
        return Blocked("USER_POLICY_UNRESOLVED"), false;
      }
      if u.requester == "" || Lower(u.requester) != Lower(u.current.value.owner) {
        return Blocked("POLICY_OWNER_ONLY"), false;
      }
    } else if u.kind == "bootstrap" {
      if u.current.Some? {
        return Blocked("POLICY_OWNER_ONLY"), false;
      }
      if u.requester == "" {
        return Blocked("USER_POLICY_UNRESOLVED"), false;
      }
    } else {
      return Blocked("INTERNAL_ERROR"), false;
    }
    if !ConsentGiven(u.consent) {
      return Skipped, false;
    }
    if u.simulation.None? || FieldOf(u.simulation.value, "status") != Some(Str("success")) {
      var failed := u.simulation.Some? && Truthy(u.simulation.value) && FieldOf(u.simulation.value, "status") == Some(Str("failed"));
      return Blocked(if failed then "SIMULATION_FAILED" else "SIMULATION_UNAVAILABLE"), false;
    }
    var review := FinalSafetyReview(reviewer);
    if !review.Safe? {
      return Blocked(VetoCode(review)), false;
    }
    KeyIs(P.UpdateCall(u));
    ending, forwarded := RunOnce(store, Hash(PolicyKeyText(u.kind, u.requester, UpdateDigest(u))), promise, answer);
  }
}
