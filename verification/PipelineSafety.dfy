/** What holds in every reachable state of the guarded pipeline. */
module PipelineSafety {
  import opened Values
  import opened Text
  import opened ToolSemantics
  import opened CallIdentity
  import opened GuardedForward
  import opened GuardedPipeline
  import CandidateDigest
  import PolicyDecision
  import PolicySnapshot
  import Store = IdempotencyStore

  // ----- The story of one call

  /** The call's own answers let it reach the safety reviewer. */
  predicate Reviewable(x: Setup, call: Call, trail: Trail) {
    hide Decide, Authorize, GuardedPipeline.Resolution;
    if call.UpdateCall? then Authorize(call.u).Proceed?
    else
      trail.policy.Some? && trail.audited == Some(true) &&
      Decide(GuardedPipeline.Resolution(x, call), trail.policy.value, call.evidence, true).Allow?
  }

  /** The call's own answers let it through the whole gate. */
  predicate Passed(x: Setup, call: Call, trail: Trail) {
    hide Reviewable;
    Reviewable(x, call, trail) && trail.reviewer.Some? && SaidSafe(trail.reviewer.value)
  }

  predicate PastReview(stage: Stage) {
    stage.Storing? || stage.Forwarding? || stage.Reporting? || stage.Done? || stage.Threw?
  }

  /** The caller in the store has ended as the stage says. */
  predicate Ended(keyed: bool, key: string, stage: Stage, caller: Store.Caller) {
    match stage
    case Storing => keyed && (caller.Owning? || caller.Waiting?) && caller.key == key
    case Forwarding => !keyed && caller.Absent?
    case Reporting(v, reused) => if keyed then caller == Store.Returned(key, reused, v) else caller.Absent? && !reused
    case Done(v, reused) => if keyed then caller == Store.Returned(key, reused, v) else caller.Absent? && !reused
    case Threw(error) => if keyed then caller == Store.Raised(key, error) else caller.Absent?
    case _ => caller.Absent?
  }

  function ReviewerOf(trail: Trail): Reviewer {
    if trail.reviewer.Some? then trail.reviewer.value else Absent
  }

  /** The block is the one that the same answers give when the call runs by itself. */
  predicate BlockedOk(x: Setup, call: Call, trail: Trail, code: string) {
    hide Gate, Authorize, GuardedPipeline.Resolution, FinalSafetyReview;
    if call.UpdateCall? then
      Authorize(call.u) == Stop(code) ||
      (Authorize(call.u).Proceed? && trail.reviewer.Some? && !FinalSafetyReview(trail.reviewer.value).Safe? &&
       code == VetoCode(FinalSafetyReview(trail.reviewer.value)))
    else
      trail.policy.Some? &&
      Gate(GuardedPipeline.Resolution(x, call), trail.policy.value, call.evidence, trail.audited != Some(false), ReviewerOf(trail)) ==
        PolicyDecision.Block(code)
  }

  ghost predicate Consistent(x: Setup, c: nat, stage: Stage, trail: Trail, caller: Store.Caller)
    requires x.Valid() && c < |x.calls|
  {
    hide Keyed, KeyAt, Reviewable, Passed, BlockedOk, Setup.Valid, Ended, PastReview, Decide, GuardedPipeline.Resolution, Authorize;
    var call := x.calls[c];
    && Ended(Keyed(x, call), KeyAt(x, c), stage, caller)
    && (PastReview(stage) ==> Passed(x, call, trail))
    && (stage.Reviewing? ==> Reviewable(x, call, trail))
    && (stage.Reading? || stage.Auditing? ==> call.ToolCall?)
    && (stage.Blocked? ==> BlockedOk(x, call, trail, stage.code))
    && (stage.Skipped? ==> call.UpdateCall? && Authorize(call.u).Skip?)
    && (stage.Auditing? ==>
          trail.policy.Some? && Decide(GuardedPipeline.Resolution(x, call), trail.policy.value, call.evidence, true).Allow?)
  }

  ghost predicate CallOk(x: Setup, s: State, c: nat)
    requires x.Valid() && Sized(x, s) && c < |x.calls|
  {
    hide Consistent, Setup.Valid;
    Consistent(x, c, s.stages[c], s.trails[c], s.store.callers[c])
  }

  // ----- The whole state

  predicate InvokedOk(s: State, c: nat) {
    c < |s.stages| && PastReview(s.stages[c])
  }

  /** The keys of the invoked calls that go through the store. */
  ghost function StartsOf(x: Setup, invoked: seq<nat>): seq<string>
    requires x.Valid()
  {
    hide Keyed, KeyAt, Setup.Valid;
    if invoked == [] then []
    else
      var (first, c) := (StartsOf(x, invoked[..|invoked| - 1]), invoked[|invoked| - 1]);
      if c < |x.calls| && Keyed(x, x.calls[c]) then first + [KeyAt(x, c)] else first
  }

  ghost predicate Inv(x: Setup, s: State)
    requires x.Valid()
  {
    hide CallOk, StartsOf, InvokedOk, Distinct, Store.Inv, Setup.Valid;
    && Sized(x, s) && Store.Inv(s.store)
    && (forall c | 0 <= c < |x.calls| :: CallOk(x, s, c))
    && (forall c | c in s.invoked :: InvokedOk(s, c))
    && StartsOf(x, s.invoked) == s.store.starts && Distinct(s.invoked)
  }

  lemma InvInitial(x: Setup)
    requires x.Valid()
    ensures Inv(x, Initial(|x.calls|))
  {
    hide Keyed, KeyAt, Reviewable, Passed, Decide, Store.Inv, Setup.Valid;
    Store.InvInitial(|x.calls|);
  }

  // ----- Steps of one call

  /** Only call `c` moved. */
  predicate OnlyCall(s: State, t: State, c: nat) {
    |s.stages| == |t.stages| && |s.trails| == |t.trails| && |s.store.callers| == |t.store.callers| &&
    (forall d | 0 <= d < |s.stages| && d != c :: s.stages[d] == t.stages[d]) &&
    (forall d | 0 <= d < |s.trails| && d != c :: s.trails[d] == t.trails[d]) &&
    (forall d | 0 <= d < |s.store.callers| && d != c :: s.store.callers[d] == t.store.callers[d])
  }

  lemma OthersOk(x: Setup, s: State, t: State, c: nat)
    requires x.Valid() && Inv(x, s) && OnlyCall(s, t, c) && c < |x.calls| && CallOk(x, t, c)
    ensures forall d | 0 <= d < |x.calls| :: CallOk(x, t, d)
    ensures (PastReview(s.stages[c]) ==> PastReview(t.stages[c])) ==> forall d | d in s.invoked :: InvokedOk(t, d)
  {
    hide Consistent, Setup.Valid, PastReview, StartsOf, Store.Inv, Distinct;
    forall d | 0 <= d < |x.calls| ensures CallOk(x, t, d) {
      assert CallOk(x, s, d);
    }
    if PastReview(s.stages[c]) ==> PastReview(t.stages[c]) {
      forall d | d in s.invoked ensures InvokedOk(t, d) { assert InvokedOk(s, d); }
    }
  }

  /** A move of one call that touches neither the store nor the upstream keeps everything, when its own story
      stays consistent. */
  lemma QuietStep(x: Setup, s: State, t: State, c: nat)
    requires x.Valid() && Inv(x, s) && OnlyCall(s, t, c) && c < |x.calls| && CallOk(x, t, c)
    requires t.store == s.store && t.invoked == s.invoked && (PastReview(s.stages[c]) ==> PastReview(t.stages[c]))
    ensures Inv(x, t)
  {
    hide CallOk, StartsOf, InvokedOk, Distinct, Store.Inv, Setup.Valid, PastReview, OnlyCall;
    OthersOk(x, s, t, c);
    SizedBy(x, s, t, c);
  }

  lemma SizedBy(x: Setup, s: State, t: State, c: nat)
    requires Sized(x, s) && OnlyCall(s, t, c)
    ensures Sized(x, t)
  {
  }

  lemma ReadBlocks(x: Setup, call: Call, trail: Trail, code: string)
    requires call.ToolCall? && trail.policy.Some?
    requires Decide(GuardedPipeline.Resolution(x, call), trail.policy.value, call.evidence, true) == PolicyDecision.Block(code)
    ensures BlockedOk(x, call, trail, code)
  {
    hide GuardedPipeline.Resolution, PolicyDecision.BlockingFindings;
  }

  lemma AuditBlocks(x: Setup, call: Call, trail: Trail)
    requires call.ToolCall? && trail.policy.Some? && trail.audited == Some(false)
    requires Decide(GuardedPipeline.Resolution(x, call), trail.policy.value, call.evidence, true).Allow?
    ensures BlockedOk(x, call, trail, "AUDIT_WRITE_FAILED")
  {
    hide GuardedPipeline.Resolution, PolicyDecision.BlockingFindings;
  }

  lemma ReviewBlocks(x: Setup, call: Call, trail: Trail)
    requires Reviewable(x, call, trail) && trail.reviewer.Some? && !FinalSafetyReview(trail.reviewer.value).Safe?
    ensures BlockedOk(x, call, trail, VetoCode(FinalSafetyReview(trail.reviewer.value)))
  {
    hide GuardedPipeline.Resolution, Decide, Authorize, FinalSafetyReview;
  }

  lemma BeginKeeps(x: Setup, s: State, c: nat)
    requires x.Valid() && Inv(x, s) && Enabled(x, s, Begin(c))
    ensures Inv(x, Next(x, s, Begin(c)))
  {
    hide StartsOf, InvokedOk, Distinct, Store.Inv, Setup.Valid, Keyed, KeyAt, Passed, Decide, Authorize, GuardedPipeline.Resolution;
    var t := Next(x, s, Begin(c));
    assert CallOk(x, s, c);
    QuietStep(x, s, t, c);
  }

  lemma PolicyReadKeeps(x: Setup, s: State, c: nat, result: PolicySnapshot.Result<PolicySnapshot.Snapshot>)
    requires x.Valid() && Inv(x, s) && Enabled(x, s, PolicyRead(c, result))
    ensures Inv(x, Next(x, s, PolicyRead(c, result)))
  {
    hide StartsOf, InvokedOk, Distinct, Store.Inv, Setup.Valid, Keyed, KeyAt, Passed, Decide, Authorize, GuardedPipeline.Resolution;
    var t := Next(x, s, PolicyRead(c, result));
    assert CallOk(x, s, c);
    if t.stages[c].Blocked? { ReadBlocks(x, x.calls[c], t.trails[c], t.stages[c].code); }
    QuietStep(x, s, t, c);
  }

  lemma AuditKeeps(x: Setup, s: State, c: nat, ok: bool)
    requires x.Valid() && Inv(x, s) && Enabled(x, s, AuditWritten(c, ok))
    ensures Inv(x, Next(x, s, AuditWritten(c, ok)))
  {
    hide StartsOf, InvokedOk, Distinct, Store.Inv, Setup.Valid, Keyed, KeyAt, Passed, Decide, Authorize, GuardedPipeline.Resolution;
    var t := Next(x, s, AuditWritten(c, ok));
    assert CallOk(x, s, c);
    if !ok { AuditBlocks(x, x.calls[c], t.trails[c]); }
    QuietStep(x, s, t, c);
  }

  lemma DirectKeeps(x: Setup, s: State, c: nat, o: Store.Outcome)
    requires x.Valid() && Inv(x, s) && Enabled(x, s, Direct(c, o))
    ensures Inv(x, Next(x, s, Direct(c, o)))
  {
    hide StartsOf, InvokedOk, Distinct, Store.Inv, Setup.Valid, Keyed, KeyAt, Passed, Reviewable, Decide, GuardedPipeline.Resolution;
    var t := Next(x, s, Direct(c, o));
    assert CallOk(x, s, c);
    QuietStep(x, s, t, c);
  }

  lemma ReportedKeeps(x: Setup, s: State, c: nat)
    requires x.Valid() && Inv(x, s) && Enabled(x, s, Reported(c))
    ensures Inv(x, Next(x, s, Reported(c)))
  {
    hide StartsOf, InvokedOk, Distinct, Store.Inv, Setup.Valid, Keyed, KeyAt, Passed, Reviewable, Decide, GuardedPipeline.Resolution;
    var t := Next(x, s, Reported(c));
    assert CallOk(x, s, c);
    QuietStep(x, s, t, c);
  }

  lemma SafeReview(reviewer: Reviewer)
    ensures FinalSafetyReview(reviewer).Safe? <==> SaidSafe(reviewer)
  {
    hide Lower;
  }

  /** What entering the store does for the caller. */
  lemma EnterEffect(s: Store.State, c: nat, key: string)
    requires Store.Inv(s) && Store.Enabled(s, Store.Enter(c, key)) && key != ""
    ensures var t := Store.Next(s, Store.Enter(c, key));
            && Store.Inv(t) && t.starts == s.starts && |t.callers| == |s.callers|
            && (forall d | 0 <= d < |s.callers| && d != c :: t.callers[d] == s.callers[d])
            && Ended(true, key, AfterStore(t.callers[c]), t.callers[c]) && PastReview(AfterStore(t.callers[c]))
  {
    hide Store.Inv;
    Store.NextKeeps(s, Store.Enter(c, key));
  }

  lemma ReviewableFrame(x: Setup, call: Call, trail: Trail, reviewer: Reviewer)
    ensures Reviewable(x, call, trail.(reviewer := Some(reviewer))) == Reviewable(x, call, trail)
  {
    hide Decide, Authorize, GuardedPipeline.Resolution;
  }

  lemma VetoKeeps(x: Setup, s: State, c: nat, reviewer: Reviewer)
    requires x.Valid() && Inv(x, s) && Enabled(x, s, Reviewed(c, reviewer)) && !FinalSafetyReview(reviewer).Safe?
    ensures Inv(x, Next(x, s, Reviewed(c, reviewer)))
  {
    hide StartsOf, InvokedOk, Distinct, Store.Inv, Setup.Valid, Keyed, KeyAt, Passed, Decide, Authorize, GuardedPipeline.Resolution,
      FinalSafetyReview, VetoCode;
    var t := Next(x, s, Reviewed(c, reviewer));
    assert CallOk(x, s, c);
    ReviewableFrame(x, x.calls[c], s.trails[c], reviewer);
    ReviewBlocks(x, x.calls[c], t.trails[c]);
    QuietStep(x, s, t, c);
  }

  lemma StoredKeeps(x: Setup, s: State, c: nat, reviewer: Reviewer)
    requires x.Valid() && Inv(x, s) && Enabled(x, s, Reviewed(c, reviewer))
    requires FinalSafetyReview(reviewer).Safe? && Keyed(x, x.calls[c])
    ensures Inv(x, Next(x, s, Reviewed(c, reviewer)))
  {
    hide StartsOf, InvokedOk, Distinct, Store.Inv, Store.Next, Setup.Valid, Keyed, KeyAt, Decide, Authorize, GuardedPipeline.Resolution,
      FinalSafetyReview, SaidSafe, Reviewable, AfterStore, Ended;
    var t := Next(x, s, Reviewed(c, reviewer));
    assert CallOk(x, s, c);
    assert s.store.callers[c].Absent?;
    SafeReview(reviewer);
    ReviewableFrame(x, x.calls[c], s.trails[c], reviewer);
    EnterEffect(s.store, c, KeyAt(x, c));
    assert CallOk(x, t, c);
    OthersOk(x, s, t, c);
  }

  lemma StartsOfAppend(x: Setup, invoked: seq<nat>, c: nat)
    requires x.Valid()
    ensures StartsOf(x, invoked + [c]) ==
            if c < |x.calls| && Keyed(x, x.calls[c]) then StartsOf(x, invoked) + [KeyAt(x, c)] else StartsOf(x, invoked)
  {
    hide Keyed, KeyAt, Setup.Valid;
    assert (invoked + [c])[..|invoked|] == invoked;
  }

  lemma ForwardedKeeps(x: Setup, s: State, c: nat, reviewer: Reviewer)
    requires x.Valid() && Inv(x, s) && Enabled(x, s, Reviewed(c, reviewer))
    requires FinalSafetyReview(reviewer).Safe? && !Keyed(x, x.calls[c])
    ensures Inv(x, Next(x, s, Reviewed(c, reviewer)))
  {
    hide StartsOf, Store.Inv, Setup.Valid, Keyed, KeyAt, Decide, Authorize, GuardedPipeline.Resolution,
      FinalSafetyReview, SaidSafe, Reviewable;
    var t := Next(x, s, Reviewed(c, reviewer));
    assert CallOk(x, s, c);
    SafeReview(reviewer);
    StartsOfAppend(x, s.invoked, c);
    assert !InvokedOk(s, c);
    ReviewableFrame(x, x.calls[c], s.trails[c], reviewer);
    assert CallOk(x, t, c);
    OthersOk(x, s, t, c);
  }

  lemma ReviewedKeeps(x: Setup, s: State, c: nat, reviewer: Reviewer)
    requires x.Valid() && Inv(x, s) && Enabled(x, s, Reviewed(c, reviewer))
    ensures Inv(x, Next(x, s, Reviewed(c, reviewer)))
  {
    assert c < |x.calls|;
    hide Inv, Next, Keyed, FinalSafetyReview, Setup.Valid;
    if !FinalSafetyReview(reviewer).Safe? {
      VetoKeeps(x, s, c, reviewer);
    } else if Keyed(x, x.calls[c]) {
      StoredKeeps(x, s, c, reviewer);
    } else {
      ForwardedKeeps(x, s, c, reviewer);
    }
  }

  // ----- Steps of the store

  /** The owner of a promise whose `fn` has not begun waits for it under its own key. */
  lemma QueuedOwner(s: Store.State, p: nat)
    requires Store.Inv(s) && Store.Enabled(s, Store.Start(p))
    ensures var owner := s.promises[p].owner;
            owner < |s.callers| && s.callers[owner] == Store.Owning(s.promises[p].key, p) && s.promises[p].key !in s.starts
  {
    assert Store.PromiseOk(s, p);
  }

  lemma KeyInStarts(x: Setup, invoked: seq<nat>, c: nat)
    requires x.Valid() && c in invoked && c < |x.calls| && Keyed(x, x.calls[c])
    ensures KeyAt(x, c) in StartsOf(x, invoked)
  {
    hide Keyed, KeyAt, Setup.Valid;
    var k := |invoked| - 1;
    if invoked[k] != c {
      assert c in invoked[..k];
      KeyInStarts(x, invoked[..k], c);
    }
  }

  lemma StartEffect(s: Store.State, p: nat)
    requires Store.Inv(s) && Store.Enabled(s, Store.Start(p))
    ensures var t := Store.Next(s, Store.Start(p));
            Store.Inv(t) && t.callers == s.callers && t.starts == s.starts + [s.promises[p].key]
  {
    hide Store.Inv;
    Store.NextKeeps(s, Store.Start(p));
  }

  /** The store moved without its callers. */
  lemma StoreStep(x: Setup, s: State, t: State)
    requires x.Valid() && Inv(x, s) && t.stages == s.stages && t.trails == s.trails && t.store.callers == s.store.callers
    ensures Sized(x, t) && forall c | 0 <= c < |x.calls| :: CallOk(x, t, c)
    ensures forall c | c in s.invoked :: InvokedOk(t, c)
  {
    hide StartsOf, Distinct, Store.Inv, Setup.Valid, Consistent, PastReview;
    forall c | 0 <= c < |x.calls| ensures CallOk(x, t, c) { assert CallOk(x, s, c); }
    forall c | c in s.invoked ensures InvokedOk(t, c) { assert InvokedOk(s, c); }
  }

  lemma InvokeKeeps(x: Setup, s: State, p: nat)
    requires x.Valid() && Inv(x, s) && Enabled(x, s, Invoke(p))
    ensures Inv(x, Next(x, s, Invoke(p)))
  {
    hide StartsOf, Store.Inv, Store.Next, Setup.Valid, Keyed, KeyAt, Passed, Reviewable, CallOk, Decide,
      GuardedPipeline.Resolution, PastReview;
    var t := Next(x, s, Invoke(p));
    var owner := s.store.promises[p].owner;
    QueuedOwner(s.store, p);
    StartEffect(s.store, p);
    OwnerStage(x, s, owner);
    StoreStep(x, s, t);
    StartsOfAppend(x, s.invoked, owner);
    if owner in s.invoked { KeyInStarts(x, s.invoked, owner); }
  }

  lemma OwnerStage(x: Setup, s: State, c: nat)
    requires x.Valid() && Inv(x, s) && c < |s.store.callers| && (s.store.callers[c].Owning? || s.store.callers[c].Waiting?)
    ensures c < |x.calls| && s.stages[c] == Storing && Keyed(x, x.calls[c]) && s.store.callers[c].key == KeyAt(x, c)
    ensures InvokedOk(s, c) && Passed(x, x.calls[c], s.trails[c])
  {
    hide StartsOf, Distinct, Store.Inv, Setup.Valid, Keyed, KeyAt, Passed, Reviewable, Decide, GuardedPipeline.Resolution;
    assert CallOk(x, s, c);
  }

  lemma AnsweredKeeps(x: Setup, s: State, p: nat, o: Store.Outcome)
    requires x.Valid() && Inv(x, s) && Enabled(x, s, Answered(p, o))
    ensures Inv(x, Next(x, s, Answered(p, o)))
  {
    hide StartsOf, Store.Inv, Setup.Valid, CallOk, Distinct, InvokedOk;
    Store.NextKeeps(s.store, Store.Settle(p, o));
    StoreStep(x, s, Next(x, s, Answered(p, o)));
  }

  lemma ResumeEffect(s: Store.State, c: nat)
    requires Store.Inv(s) && Store.Enabled(s, Store.Resume(c))
    ensures var t := Store.Next(s, Store.Resume(c));
            && Store.Inv(t) && t.starts == s.starts
            && (forall d | 0 <= d < |s.callers| && d != c :: t.callers[d] == s.callers[d])
            && Ended(true, s.callers[c].key, AfterStore(t.callers[c]), t.callers[c]) && PastReview(AfterStore(t.callers[c]))
  {
    hide Store.Inv;
    Store.NextKeeps(s, Store.Resume(c));
  }

  lemma ResumedKeeps(x: Setup, s: State, c: nat)
    requires x.Valid() && Inv(x, s) && Enabled(x, s, Resumed(c))
    ensures Inv(x, Next(x, s, Resumed(c)))
  {
    hide StartsOf, InvokedOk, Distinct, Store.Inv, Store.Next, Setup.Valid, Keyed, KeyAt, Decide, Authorize, GuardedPipeline.Resolution,
      Reviewable, Passed, AfterStore, Ended;
    var t := Next(x, s, Resumed(c));
    assert CallOk(x, s, c);
    OwnerStage(x, s, c);
    ResumeEffect(s.store, c);
    assert CallOk(x, t, c);
    OthersOk(x, s, t, c);
  }

  lemma NextKeeps(x: Setup, s: State, step: Step)
    requires x.Valid() && Inv(x, s) && Enabled(x, s, step)
    ensures Inv(x, Next(x, s, step))
  {
    hide Inv, Next, Enabled, Setup.Valid;
    match step
    case Begin(c) => BeginKeeps(x, s, c);
    case PolicyRead(c, result) => PolicyReadKeeps(x, s, c, result);
    case AuditWritten(c, ok) => AuditKeeps(x, s, c, ok);
    case Reviewed(c, reviewer) => ReviewedKeeps(x, s, c, reviewer);
    case Invoke(p) => InvokeKeeps(x, s, p);
    case Answered(p, o) => AnsweredKeeps(x, s, p, o);
    case Resumed(c) => ResumedKeeps(x, s, c);
    case Direct(c, o) => DirectKeeps(x, s, c, o);
    case Reported(c) => ReportedKeeps(x, s, c);
  }

  lemma {:induction false} RunKeeps(x: Setup, s: State, steps: seq<Step>)
    requires x.Valid() && Inv(x, s)
    ensures Inv(x, Run(x, s, steps))
    decreases |steps|
  {
    assert Sized(x, s);
    hide Inv, Next, Enabled, Setup.Valid, Sized;
    if steps != [] {
      if Enabled(x, s, steps[0]) {
        NextKeeps(x, s, steps[0]);
        NextSized(x, s, steps[0]);
        RunKeeps(x, Next(x, s, steps[0]), steps[1..]);
      } else {
        RunKeeps(x, s, steps[1..]);
      }
    }
  }

  lemma Reachable(x: Setup, steps: seq<Step>)
    requires x.Valid()
    ensures Sized(x, Initial(|x.calls|)) && Inv(x, Run(x, Initial(|x.calls|), steps))
  {
    hide Inv, Run, Setup.Valid;
    InvInitial(x);
    RunKeeps(x, Initial(|x.calls|), steps);
  }

  function After(x: Setup, steps: seq<Step>): (s: State)
    requires x.Valid()
    ensures Sized(x, s)
  {
    hide Run, Setup.Valid;
    Run(x, Initial(|x.calls|), steps)
  }

  // ----- Nothing reaches the upstream, or is reused, without clearance

  /** A call that may act: a tool call cleared on every count by its own answers, or a policy update that is
      authorised, consented and simulated and whose own safety reviewer said safe. */
  predicate MayAct(x: Setup, call: Call, trail: Trail) {
    hide Cleared, Authorize, SaidSafe, GuardedPipeline.Resolution;
    if call.UpdateCall? then Authorize(call.u).Proceed? && trail.reviewer.Some? && SaidSafe(trail.reviewer.value)
    else
      trail.policy.Some? && trail.reviewer.Some? &&
      Cleared(GuardedPipeline.Resolution(x, call), trail.policy.value, call.evidence, trail.audited == Some(true), trail.reviewer.value)
  }

  lemma PassedMayAct(x: Setup, call: Call, trail: Trail)
    requires Passed(x, call, trail)
    ensures MayAct(x, call, trail)
  {
    hide Decide, Authorize, GuardedPipeline.Resolution, FinalSafetyReview, Cleared, SaidSafe;
    if call.ToolCall? {
      SafeReview(trail.reviewer.value);
      GateIff(GuardedPipeline.Resolution(x, call), trail.policy.value, call.evidence, true, trail.reviewer.value);
    }
  }

  lemma ActsCleared(x: Setup, s: State, c: nat)
    requires x.Valid() && Inv(x, s) && c < |x.calls| && (c in s.invoked || PastReview(s.stages[c]))
    ensures PastReview(s.stages[c]) && MayAct(x, x.calls[c], s.trails[c])
  {
    hide StartsOf, Distinct, Store.Inv, Setup.Valid, Keyed, KeyAt, Passed, MayAct, PastReview, Ended, Reviewable, Decide,
      GuardedPipeline.Resolution;
    assert CallOk(x, s, c);
    if c in s.invoked { assert InvokedOk(s, c); }
    PassedMayAct(x, x.calls[c], s.trails[c]);
  }

  /** In every reachable state, each call that reached the upstream and each call that was given a result, its
      own or a reused one, was cleared by its own resolution, policy read, findings, audit and review; calls
      that ended in a block or were skipped never reached the upstream, and no call reached it twice. */
  lemma OnlyClearedCallsAct(x: Setup, steps: seq<Step>, c: nat)
    requires x.Valid() && c < |x.calls|
    ensures var s := After(x, steps);
            && (c in s.invoked ==> MayAct(x, x.calls[c], s.trails[c]))
            && (s.stages[c].Done? || s.stages[c].Reporting? ==> MayAct(x, x.calls[c], s.trails[c]))
            && (s.stages[c].Blocked? || s.stages[c].Skipped? ==> c !in s.invoked)
            && multiset(s.invoked)[c] <= 1
  {
    hide Inv, Run, Setup.Valid, MayAct;
    var s := After(x, steps);
    Reachable(x, steps);
    if c in s.invoked || PastReview(s.stages[c]) { ActsCleared(x, s, c); }
    InvokedOnce(x, s, c);
  }

  /** In every reachable state, a call that was blocked is blocked by its own answers, for the very reason the gate
      gives when the call runs by itself, and a skipped one is an update that lacks consent. */
  lemma BlockedByGate(x: Setup, steps: seq<Step>, c: nat)
    requires x.Valid() && c < |x.calls|
    ensures var s := After(x, steps);
            && (s.stages[c].Blocked? ==> BlockedOk(x, x.calls[c], s.trails[c], s.stages[c].code))
            && (s.stages[c].Skipped? ==> x.calls[c].UpdateCall? && Authorize(x.calls[c].u).Skip?)
  {
    hide Run, Setup.Valid, StartsOf, Distinct, Store.Inv, BlockedOk, Authorize, InvokedOk, Reviewable, Passed, Keyed, KeyAt, Decide,
      GuardedPipeline.Resolution;
    Reachable(x, steps);
    assert CallOk(x, After(x, steps), c);
  }

  lemma InvokedOnce(x: Setup, s: State, c: nat)
    requires x.Valid() && Inv(x, s)
    ensures multiset(s.invoked)[c] <= 1
  {
    hide StartsOf, InvokedOk, Store.Inv, Setup.Valid, CallOk;
    CountOnce(s.invoked, c);
  }

  // ----- One invocation for each candidate

  /** The same tool with the same arguments, effect and cost, or the same update by the same requester. */
  predicate SameCandidate(a: Call, b: Call) {
    hide SameCall, SameUpdate;
    if a.ToolCall? then b.ToolCall? && a.name == b.name && SameCall(a.name, a.args, a.evidence, b.name, b.args, b.evidence)
    else b.UpdateCall? && SameUpdate(a.u, b.u)
  }

  predicate SameUpdate(u: PolicyUpdate, v: PolicyUpdate) {
    u.kind == v.kind && SameForm(Str(u.requester), Str(v.requester)) && Same(u.update, v.update)
  }

  /** The calls that must reach the upstream at most once: transfers, approvals and contract writes, by the class
      the registry gives the tool, and policy updates. */
  predicate Once(x: Setup, call: Call) {
    call.UpdateCall? ||
    (call.name in x.catalog.registry &&
     x.catalog.registry[call.name].toolClass in {"transaction_execute", "token_approval", "contract_write"})
  }

  /** Every text this run hashes has a hash of its own. */
  ghost predicate CollisionFree(x: Setup)
    requires x.Valid()
  {
    forall a, b | 0 <= a < |x.calls| && 0 <= b < |x.calls| :: NoCollision(x.calls[a], x.calls[b])
  }

  predicate NoCollision(a: Call, b: Call)
    requires ValidCall(a) && ValidCall(b)
  {
    hide PayloadOf, Hash, KeyText, ValidCall;
    (Hash(PayloadOf(a)) == Hash(PayloadOf(b)) ==> PayloadOf(a) == PayloadOf(b)) &&
    (Hash(KeyText(a)) == Hash(KeyText(b)) ==> KeyText(a) == KeyText(b))
  }

  predicate KnownKind(call: Call) {
    call.UpdateCall? ==> call.u.kind == "update" || call.u.kind == "bootstrap"
  }

  lemma ToolPayloadSame(a: Call, b: Call)
    requires ValidCall(a) && ValidCall(b) && a.ToolCall? && b.ToolCall?
    ensures PayloadOf(a) == PayloadOf(b) <==> SameCall(a.name, a.args, a.evidence, b.name, b.args, b.evidence)
  {
    hide CandidateDigest.Payload, SameCall, CandidateOf, IsJson, JsonRecord, CandidateDigest.WellFormed;
    SameCallIff(a.name, a.args, a.evidence, b.name, b.args, b.evidence);
  }

  lemma UpdatePayloadSame(a: Call, b: Call)
    requires ValidCall(a) && ValidCall(b) && a.UpdateCall? && b.UpdateCall?
    ensures PayloadOf(a) == PayloadOf(b) <==> SameUpdate(a.u, b.u)
  {
    hide CandidateDigest.Payload, CandidateDigest.SameFields, CandidateDigest.WellFormed, IsJson, Same, UpdateCandidate, SameForm, RequesterValue,
      CandidateDigest.DigestFields;
    CandidateDigest.PayloadIff(CandidateFor(a), CandidateFor(b));
    SameUpdateIff(a.u, b.u);
    RequesterForm(a.u, b.u);
  }

  lemma RequesterForm(u: PolicyUpdate, v: PolicyUpdate)
    ensures RequesterValue(u) == RequesterValue(v) <==> SameForm(Str(u.requester), Str(v.requester))
    ensures SameForm(Str(u.requester), Str(v.requester)) ==> Lower(u.requester) == Lower(v.requester)
  {
    TextIsJson(u.requester);
    TextIsJson(v.requester);
    CandidateDigest.NormalizedIff(Str(u.requester), Str(v.requester));
    hide Lower, HexText;
  }

  lemma PayloadSame(a: Call, b: Call)
    requires ValidCall(a) && ValidCall(b) && (a.ToolCall? <==> b.ToolCall?)
    ensures SameCandidate(a, b) <==> PayloadOf(a) == PayloadOf(b) && (a.ToolCall? ==> a.name == b.name)
  {
    hide ValidCall, PayloadOf, SameCall, SameUpdate;
    if a.ToolCall? { ToolPayloadSame(a, b); } else { UpdatePayloadSame(a, b); }
  }

  /** The same candidate always gives the same key. */
  lemma SameKey(a: Call, b: Call)
    requires ValidCall(a) && ValidCall(b) && SameCandidate(a, b)
    ensures Key(a) == Key(b)
  {
    PayloadSame(a, b);
    hide ValidCall, PayloadOf, Hash, SameCall, ToolKeyText, PolicyKeyText, Lower, SameForm;
    if a.UpdateCall? {
      RequesterForm(a.u, b.u);
      PolicyKeySame(a.u.kind, a.u.requester, b.u.requester, Hash(PayloadOf(a)));
    }
  }

  /** Without collisions, two calls share a key exactly when they are the same candidate; in particular a tool
      call and a policy update never share one. */
  lemma KeyIff(a: Call, b: Call)
    requires ValidCall(a) && ValidCall(b) && NoCollision(a, b) && KnownKind(a) && KnownKind(b)
    ensures Key(a) == Key(b) <==> SameCandidate(a, b)
    ensures Key(a) == Key(b) ==> (a.ToolCall? <==> b.ToolCall?)
  {
    if SameCandidate(a, b) { SameKey(a, b); }
    if a.ToolCall? <==> b.ToolCall? { PayloadSame(a, b); }
    hide ValidCall, PayloadOf, Hash, SameCandidate, ToolKeyText, PolicyKeyText, Lower;
    var (p, q) := (Hash(PayloadOf(a)), Hash(PayloadOf(b)));
    if a.ToolCall? && b.ToolCall? {
      if Key(a) == Key(b) { ToolKeyTextInjective(a.name, p, b.name, q); }
    } else if a.UpdateCall? && b.UpdateCall? {
      if Key(a) == Key(b) { PolicyKeyTextInjective(a.u.kind, a.u.requester, p, b.u.kind, b.u.requester, q); }
    } else {
      DifferentKinds(a, b);
      if a.ToolCall? {
        KeyFamiliesApart(a.name, p, b.u.kind, b.u.requester, q);
      } else {
        KeyFamiliesApart(b.name, q, a.u.kind, a.u.requester, p);
      }
    }
  }

  lemma DifferentKinds(a: Call, b: Call)
    requires a.ToolCall? != b.ToolCall?
    ensures !SameCandidate(a, b)
  {
    hide SameCall, SameUpdate;
  }

  lemma PolicyKeySame(kind: string, r: string, r': string, digest: string)
    requires Lower(r) == Lower(r')
    ensures PolicyKeyText(kind, r, digest) == PolicyKeyText(kind, r', digest)
  {
  }

  lemma DistinctInvocations(x: Setup, invoked: seq<nat>, i: nat, j: nat)
    requires x.Valid() && i < j < |invoked| && invoked[i] < |x.calls| && invoked[j] < |x.calls|
    requires Keyed(x, x.calls[invoked[i]]) && Keyed(x, x.calls[invoked[j]]) && Distinct(StartsOf(x, invoked))
    ensures KeyAt(x, invoked[i]) != KeyAt(x, invoked[j])
  {
    hide Keyed, KeyAt, Setup.Valid;
    var k := |invoked| - 1;
    var first := StartsOf(x, invoked[..k]);
    if j == k {
      assert invoked[i] in invoked[..k];
      KeyInStarts(x, invoked[..k], invoked[i]);
      var m :| 0 <= m < |first| && first[m] == KeyAt(x, invoked[i]);
      assert StartsOf(x, invoked)[m] == first[m] && StartsOf(x, invoked)[|first|] == KeyAt(x, invoked[j]);
    } else {
      assert Distinct(first) by {
        forall m, n | 0 <= m < n < |first| ensures first[m] != first[n] {
          assert StartsOf(x, invoked)[m] == first[m] && StartsOf(x, invoked)[n] == first[n];
        }
      }
      DistinctInvocations(x, invoked[..k], i, j);
    }
  }

  lemma KeyedOnce(x: Setup, call: Call, trail: Trail)
    requires MayAct(x, call, trail)
    ensures Keyed(x, call) <==> Once(x, call)
  {
    hide Authorize, SaidSafe, ResolveCall;
    if call.ToolCall? {
      var r := GuardedPipeline.Resolution(x, call);
      assert r.Visible? by { hide Resolve; ClearedVisible(r, trail.policy.value, call.evidence, trail.audited == Some(true), trail.reviewer.value); }
      CallSemantics(x.catalog, call.name, call.schemaHash);
    }
  }

  /** In every reachable state the upstream was invoked at most once for each candidate of the calls that must reach
      it at most once: two invocations of transfers, approvals, contract writes or policy updates are never for the
      same tool with the same arguments, effect and cost, nor for the same update. */
  lemma OncePerCandidate(x: Setup, steps: seq<Step>, i: nat, j: nat)
    requires x.Valid() && i < j < |After(x, steps).invoked|
    ensures var (a, b) := (After(x, steps).invoked[i], After(x, steps).invoked[j]);
            && a < |x.calls| && b < |x.calls|
            && (Once(x, x.calls[a]) && Once(x, x.calls[b]) ==> !SameCandidate(x.calls[a], x.calls[b]))
  {
    var s := After(x, steps);
    Reachable(x, steps);
    hide CallOk, StartsOf, Distinct, Keyed, Once, MayAct, KeyAt, Setup.Valid, SameCandidate, After, PastReview, Run;
    assert s.invoked[i] in s.invoked && s.invoked[j] in s.invoked;
    assert InvokedOk(s, s.invoked[i]) && InvokedOk(s, s.invoked[j]);
    OnceKeyed(x, s, s.invoked[i]);
    OnceKeyed(x, s, s.invoked[j]);
    OnceInState(x, s, i, j);
  }

  lemma OnceKeyed(x: Setup, s: State, c: nat)
    requires x.Valid() && Inv(x, s) && c < |x.calls| && (c in s.invoked || PastReview(s.stages[c]))
    ensures Keyed(x, x.calls[c]) <==> Once(x, x.calls[c])
  {
    assert Sized(x, s);
    hide Inv, MayAct, Keyed, Once, PastReview, Setup.Valid;
    ActsCleared(x, s, c);
    KeyedOnce(x, x.calls[c], s.trails[c]);
  }

  lemma OnceInState(x: Setup, s: State, i: nat, j: nat)
    requires x.Valid() && Inv(x, s) && i < j < |s.invoked| && s.invoked[i] < |x.calls| && s.invoked[j] < |x.calls|
    ensures var (a, b) := (s.invoked[i], s.invoked[j]);
            Keyed(x, x.calls[a]) && Keyed(x, x.calls[b]) ==> !SameCandidate(x.calls[a], x.calls[b])
  {
    hide CallOk, StartsOf, InvokedOk, Distinct, Keyed, ValidCall, Key, SameCandidate;
    var (a, b) := (s.invoked[i], s.invoked[j]);
    if Keyed(x, x.calls[a]) && Keyed(x, x.calls[b]) && SameCandidate(x.calls[a], x.calls[b]) {
      SameKey(x.calls[a], x.calls[b]);
      assert Distinct(s.store.starts);
      DistinctInvocations(x, s.invoked, i, j);
      assert false;
    }
  }

  // ----- Shared results

  /** The call owns a promise whose `fn` was begun. */
  predicate OwnsBegun(s: Store.State, c: nat) {
    exists p | 0 <= p < |s.promises| :: s.promises[p].owner == c && !s.promises[p].status.Queued?
  }

  ghost predicate Owners(x: Setup, s: State)
    requires x.Valid()
  {
    hide Keyed, Setup.Valid, OwnsBegun;
    forall c | c in s.invoked && c < |x.calls| && Keyed(x, x.calls[c]) :: OwnsBegun(s.store, c)
  }

  lemma OwnsBegunStays(s: Store.State, step: Store.Step, c: nat)
    requires Store.Enabled(s, step) && OwnsBegun(s, c)
    ensures OwnsBegun(Store.Next(s, step), c)
  {
    var p :| 0 <= p < |s.promises| && s.promises[p].owner == c && !s.promises[p].status.Queued?;
    var t := Store.Next(s, step);
    assert t.promises[p].owner == c && !t.promises[p].status.Queued?;
  }

  lemma OwnersStay(x: Setup, s: State, t: State, step: Store.Step)
    requires x.Valid() && Owners(x, s) && Store.Enabled(s.store, step)
    requires t.store == Store.Next(s.store, step) && t.invoked == s.invoked
    ensures Owners(x, t)
  {
    hide Keyed, Setup.Valid, OwnsBegun, Store.Next, Store.Enabled;
    forall c | c in s.invoked && c < |x.calls| && Keyed(x, x.calls[c]) ensures OwnsBegun(t.store, c) {
      OwnsBegunStays(s.store, step, c);
    }
  }

  lemma OwnersInvoke(x: Setup, s: State, p: nat)
    requires x.Valid() && Owners(x, s) && Sized(x, s) && Enabled(x, s, Invoke(p))
    ensures Owners(x, Next(x, s, Invoke(p)))
  {
    hide Keyed, Setup.Valid;
    var t := Next(x, s, Invoke(p));
    assert t.store.promises[p].owner == s.store.promises[p].owner && !t.store.promises[p].status.Queued?;
    forall c | c in t.invoked && c < |x.calls| && Keyed(x, x.calls[c]) ensures OwnsBegun(t.store, c) {
      if c in s.invoked { OwnsBegunStays(s.store, Store.Start(p), c); }
    }
  }

  lemma OwnersReviewed(x: Setup, s: State, c: nat, reviewer: Reviewer)
    requires x.Valid() && Owners(x, s) && Sized(x, s) && Enabled(x, s, Reviewed(c, reviewer))
    ensures Owners(x, Next(x, s, Reviewed(c, reviewer)))
  {
    hide Keyed, Setup.Valid, OwnsBegun, Store.Next, KeyAt, AfterStore;
    var t := Next(x, s, Reviewed(c, reviewer));
    if FinalSafetyReview(reviewer).Safe? && Keyed(x, x.calls[c]) {
      OwnersStay(x, s, t, Store.Enter(c, KeyAt(x, c)));
    }
  }

  lemma OwnersKeep(x: Setup, s: State, step: Step)
    requires x.Valid() && Owners(x, s) && Sized(x, s) && Enabled(x, s, step)
    ensures Owners(x, Next(x, s, step))
  {
    hide Setup.Valid, OwnsBegun, Store.Next, KeyAt, AfterStore, Keyed, AfterReview, Begun, AfterRead, AfterDirect;
    match step
    case Reviewed(c, reviewer) => OwnersReviewed(x, s, c, reviewer);
    case Invoke(p) => OwnersInvoke(x, s, p);
    case Answered(p, o) => OwnersStay(x, s, Next(x, s, step), Store.Settle(p, o));
    case Resumed(c) => OwnersStay(x, s, Next(x, s, step), Store.Resume(c));
    case _ =>
  }

  lemma {:induction false} OwnersRun(x: Setup, s: State, steps: seq<Step>)
    requires x.Valid() && Sized(x, s) && Owners(x, s)
    ensures Owners(x, Run(x, s, steps))
    decreases |steps|
  {
    hide Owners, Next, Enabled, Setup.Valid, Sized;
    if steps != [] {
      if Enabled(x, s, steps[0]) {
        OwnersKeep(x, s, steps[0]);
        NextSized(x, s, steps[0]);
        OwnersRun(x, Next(x, s, steps[0]), steps[1..]);
      } else {
        OwnersRun(x, s, steps[1..]);
      }
    }
  }

  lemma KeyFromStarts(x: Setup, invoked: seq<nat>, key: string) returns (b: nat)
    requires x.Valid() && key in StartsOf(x, invoked)
    ensures b in invoked && b < |x.calls| && Keyed(x, x.calls[b]) && KeyAt(x, b) == key
  {
    hide Keyed, KeyAt, Setup.Valid;
    var k := |invoked| - 1;
    if key in StartsOf(x, invoked[..k]) {
      b := KeyFromStarts(x, invoked[..k], key);
      assert b in invoked;
    } else {
      b := invoked[k];
    }
  }

  /** A call that has a caller in the store goes through the store under its own key. */
  lemma CallerKey(x: Setup, s: State, c: nat)
    requires x.Valid() && Inv(x, s) && c < |s.store.callers| && !s.store.callers[c].Absent?
    ensures c < |x.calls| && Keyed(x, x.calls[c]) && PastReview(s.stages[c])
    ensures match s.store.callers[c]
            case Owning(k, _) => k == KeyAt(x, c)
            case Waiting(k, _) => k == KeyAt(x, c)
            case Returned(k, _, _) => k == KeyAt(x, c)
            case Raised(k, _) => k == KeyAt(x, c)
            case _ => false
  {
    hide StartsOf, Distinct, Store.Inv, Setup.Valid, Keyed, KeyAt, Passed, Reviewable, Decide, GuardedPipeline.Resolution;
    assert CallOk(x, s, c);
  }

  lemma PromiseKey(x: Setup, s: State, p: nat)
    requires x.Valid() && Inv(x, s) && p < |s.store.promises|
    ensures var a := s.store.promises[p].owner;
            a < |x.calls| && Keyed(x, x.calls[a]) && s.store.promises[p].key == KeyAt(x, a) && Store.PromiseOk(s.store, p)
  {
    hide StartsOf, Distinct, Setup.Valid, Keyed, KeyAt, CallOk, InvokedOk;
    assert Store.PromiseOk(s.store, p);
    CallerKey(x, s, s.store.promises[p].owner);
  }

  /** The owner of a promise whose `fn` was begun is the call that was invoked for its key. */
  lemma OwnerInvoked(x: Setup, s: State, p: nat)
    requires x.Valid() && Inv(x, s) && Owners(x, s) && p < |s.store.promises| && !s.store.promises[p].status.Queued?
    ensures s.store.promises[p].owner in s.invoked
  {
    hide StartsOf, Distinct, Setup.Valid, Keyed, KeyAt, CallOk, InvokedOk;
    PromiseKey(x, s, p);
    var b := KeyFromStarts(x, s.invoked, s.store.promises[p].key);
    assert OwnsBegun(s.store, b);
    var q :| 0 <= q < |s.store.promises| && s.store.promises[q].owner == b && !s.store.promises[q].status.Queued?;
    PromiseKey(x, s, q);
    assert p == q;
  }

  predicate AnsweredBy(s: Store.State, a: nat, v: Value) {
    exists p | 0 <= p < |s.promises| :: s.promises[p].owner == a && s.promises[p].status == Store.Settled(Store.Fulfilled(v))
  }

  predicate Ends(s: State, c: nat, v: Value, reused: bool) {
    At(s, c, Done(v, reused)) || At(s, c, Reporting(v, reused))
  }

  /** Call `a` was invoked, was cleared to be, was answered `v` by the upstream, and shares the key of `c`. */
  ghost predicate Provides(x: Setup, s: State, a: nat, c: nat, v: Value)
    requires x.Valid() && Sized(x, s) && c < |x.calls|
  {
    hide Once, KeyAt, Setup.Valid, MayAct;
    a in s.invoked && a < |x.calls| && Once(x, x.calls[a]) && KeyAt(x, a) == KeyAt(x, c) &&
    MayAct(x, x.calls[a], s.trails[a]) && AnsweredBy(s.store, a, v)
  }

  lemma ProviderInState(x: Setup, s: State, c: nat, v: Value, reused: bool) returns (a: nat)
    requires x.Valid() && Inv(x, s) && Owners(x, s) && c < |x.calls| && Keyed(x, x.calls[c]) && Ends(s, c, v, reused)
    ensures Provides(x, s, a, c, v) && (reused <==> a != c)
  {
    hide StartsOf, Distinct, Setup.Valid, Keyed, Once, KeyAt, CallOk, InvokedOk, MayAct, Owners, Store.PromiseOk, Store.Inv, Ends;
    EndsReturned(x, s, c, v, reused);
    var p := Store.AnswerPromise(s.store, c);
    a := s.store.promises[p].owner;
    PromiseKey(x, s, p);
    OwnerInvoked(x, s, p);
    ActsCleared(x, s, a);
    OnceKeyed(x, s, a);
  }

  lemma EndsReturned(x: Setup, s: State, c: nat, v: Value, reused: bool)
    requires x.Valid() && Inv(x, s) && c < |x.calls| && Keyed(x, x.calls[c]) && Ends(s, c, v, reused)
    ensures s.store.callers[c] == Store.Returned(KeyAt(x, c), reused, v)
  {
    hide StartsOf, Distinct, Store.Inv, Setup.Valid, Keyed, KeyAt, Passed, Reviewable, Decide, GuardedPipeline.Resolution;
    assert CallOk(x, s, c);
  }

  lemma ActsKnownKind(x: Setup, call: Call, trail: Trail)
    requires MayAct(x, call, trail)
    ensures KnownKind(call)
  {
    hide Cleared, SaidSafe, GuardedPipeline.Resolution, Authorize;
    if call.UpdateCall? { OwnerOnly(call.u); }
  }

  /** The result of `c` is the upstream's answer to one invoked and cleared call of the same key, `c` itself
      exactly when the result is not reused; and when hashes do not collide that call is for the same
      candidate, a policy update only ever for a policy update. */
  ghost predicate HasProvider(x: Setup, s: State, c: nat, v: Value, reused: bool)
    requires x.Valid() && Sized(x, s) && c < |x.calls|
  {
    hide Setup.Valid, SameCandidate;
    exists a: nat :: Provides(x, s, a, c, v) && (reused <==> a != c) && (CollisionFree(x) ==> SameSubject(x, a, c))
  }

  ghost predicate SameSubject(x: Setup, a: nat, c: nat)
    requires x.Valid() && c < |x.calls|
  {
    hide SameCandidate;
    a < |x.calls| && SameCandidate(x.calls[a], x.calls[c]) && (x.calls[a].ToolCall? <==> x.calls[c].ToolCall?)
  }

  /** In every reachable state, whatever a call got through the store has its provider, so different candidates
      never share a result and a tool call never gets the result of a policy update. */
  lemma ResultsAreOwn(x: Setup, steps: seq<Step>, c: nat, v: Value, reused: bool)
    requires x.Valid() && c < |x.calls| && Once(x, x.calls[c]) && Ends(After(x, steps), c, v, reused)
    ensures HasProvider(x, After(x, steps), c, v, reused)
  {
    hide Inv, Run, Keyed, Once, Setup.Valid, SameSubject, Provides, Ends, Owners, CollisionFree, PastReview;
    var s := After(x, steps);
    Reachable(x, steps);
    EndsPast(s, c, v, reused);
    OnceKeyed(x, s, c);
    OwnersInitial(x);
    OwnersRun(x, Initial(|x.calls|), steps);
    var a := ProviderInState(x, s, c, v, reused);
    if CollisionFree(x) { ProviderSame(x, s, a, c, v, reused); }
  }

  lemma EndsPast(s: State, c: nat, v: Value, reused: bool)
    requires Ends(s, c, v, reused)
    ensures c < |s.stages| && PastReview(s.stages[c])
  {
  }

  lemma OwnersInitial(x: Setup)
    requires x.Valid()
    ensures Sized(x, Initial(|x.calls|)) && Owners(x, Initial(|x.calls|))
  {
  }

  lemma ProviderSame(x: Setup, s: State, a: nat, c: nat, v: Value, reused: bool)
    requires x.Valid() && Inv(x, s) && c < |x.calls| && CollisionFree(x) && Provides(x, s, a, c, v) && Ends(s, c, v, reused)
    ensures SameSubject(x, a, c)
  {
    hide StartsOf, Distinct, Keyed, Once, CallOk, InvokedOk, MayAct, Key, NoCollision, SameCandidate, ValidCall, Store.Inv;
    ActsCleared(x, s, c);
    ActsKnownKind(x, x.calls[c], s.trails[c]);
    ActsKnownKind(x, x.calls[a], s.trails[a]);
    assert NoCollision(x.calls[a], x.calls[c]);
    KeyIff(x.calls[a], x.calls[c]);
  }

  /** Calls for the same candidate end alike: when one has a value, every other one that ended through the store
      has the same value, and of two at most one has it as its own; when one has an error, every other one that
      ended has the same error. */
  lemma SameCandidateSameEnd(x: Setup, steps: seq<Step>, c: nat, d: nat)
    requires x.Valid() && c < |x.calls| && d < |x.calls| && c != d && Once(x, x.calls[c]) && Once(x, x.calls[d])
    requires SameCandidate(x.calls[c], x.calls[d])
    ensures EndAlike(After(x, steps), c, d)
  {
    hide Inv, Run, SameCandidate, Keyed, Once, Key, ValidCall, PastReview;
    var s := After(x, steps);
    Reachable(x, steps);
    SameKey(x.calls[c], x.calls[d]);
    if HasEnded(s.stages[c]) && HasEnded(s.stages[d]) {
      EndedPast(s.stages[c]);
      EndedPast(s.stages[d]);
      OnceKeyed(x, s, c);
      OnceKeyed(x, s, d);
      SameEndInState(x, s, c, d);
    }
  }

  /** The value a call was given, while it is reported or after. */
  predicate GivenValue(stage: Stage) {
    stage.Done? || stage.Reporting?
  }

  predicate HasEnded(stage: Stage) {
    GivenValue(stage) || stage.Threw?
  }

  lemma EndedPast(stage: Stage)
    requires HasEnded(stage)
    ensures PastReview(stage)
  {
  }

  predicate EndAlike(s: State, c: nat, d: nat)
    requires c < |s.stages| && d < |s.stages|
  {
    var (p, q) := (s.stages[c], s.stages[d]);
    && (GivenValue(p) ==> !q.Threw? && (GivenValue(q) ==> p.value == q.value && (p.reused || q.reused)))
    && (p.Threw? ==> !GivenValue(q) && (q.Threw? ==> p.error == q.error))
  }

  lemma SameEndInState(x: Setup, s: State, c: nat, d: nat)
    requires x.Valid() && Inv(x, s) && c < |x.calls| && d < |x.calls| && c != d && Keyed(x, x.calls[c]) && Keyed(x, x.calls[d])
    requires KeyAt(x, c) == KeyAt(x, d)
    ensures EndAlike(s, c, d)
  {
    hide StartsOf, Distinct, Store.Inv, Setup.Valid, Keyed, KeyAt, Passed, Reviewable, Decide, GuardedPipeline.Resolution;
    assert CallOk(x, s, c) && CallOk(x, s, d);
    var (p, q) := (s.stages[c], s.stages[d]);
    if (GivenValue(p) || p.Threw?) && (GivenValue(q) || q.Threw?) { Store.AnswersAgree(s.store, KeyAt(x, c), c, d); }
  }
}
