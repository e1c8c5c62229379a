/** The guarded pipeline always moves on: no call is ever stuck, and no run takes more than eight steps for each
    call. */
module PipelineProgress {
  import opened Values
  import opened GuardedForward
  import opened GuardedPipeline
  import opened PipelineSafety
  import PolicySnapshot
  import Store = IdempotencyStore

  // ----- No call is stuck

  predicate Over(stage: Stage) {
    stage.Done? || stage.Blocked? || stage.Threw? || stage.Skipped?
  }

  /** The step is the call's own, or is the start or the answer of the promise that the call waits for. */
  predicate Serves(s: State, step: Step, c: nat) {
    match step
    case Invoke(p) => WaitsFor(s, c, p)
    case Answered(p, _) => WaitsFor(s, c, p)
    case Begin(d) => d == c
    case PolicyRead(d, _) => d == c
    case AuditWritten(d, _) => d == c
    case Reviewed(d, _) => d == c
    case Resumed(d) => d == c
    case Direct(d, _) => d == c
    case Reported(d) => d == c
  }

  predicate WaitsFor(s: State, c: nat, p: nat) {
    c < |s.store.callers| && (s.store.callers[c].Owning? || s.store.callers[c].Waiting?) && s.store.callers[c].promise == p
  }

  /** In every reachable state, some step that serves the call can be taken unless the call is over. */
  lemma CallNeverStuck(x: Setup, steps: seq<Step>, c: nat)
    requires x.Valid() && c < |x.calls| && !Over(After(x, steps).stages[c])
    ensures var s := After(x, steps); exists step :: Enabled(x, s, step) && Serves(s, step, c)
  {
    hide Inv, Run, Setup.Valid, Enabled, Serves;
    Reachable(x, steps);
    var step := ServingStep(x, After(x, steps), c);
  }

  lemma ServingStep(x: Setup, s: State, c: nat) returns (step: Step)
    requires x.Valid() && Inv(x, s) && c < |x.calls| && !Over(s.stages[c])
    ensures Enabled(x, s, step) && Serves(s, step, c)
  {
    hide StartsOf, Distinct, Store.Inv, Setup.Valid, Keyed, KeyAt, Passed, Reviewable, Decide, GuardedPipeline.Resolution;
    assert CallOk(x, s, c);
    match s.stages[c]
    case Fresh => step := Begin(c);
    case Reading => step := PolicyRead(c, PolicySnapshot.Fail("POLICY_RPC_READ_FAILED"));
    case Auditing => step := AuditWritten(c, true);
    case Reviewing => step := Reviewed(c, Absent);
    case Storing => step := StoreServes(s, c);
    case Forwarding => step := Direct(c, Store.Fulfilled(Null));
    case Reporting(_, _) => step := Reported(c);
  }

  lemma StoreServes(s: State, c: nat) returns (step: Step)
    requires Store.Inv(s.store) && At(s, c, Storing) && c < |s.store.callers|
    requires s.store.callers[c].Owning? || s.store.callers[c].Waiting?
    ensures step.Invoke? || step.Answered? || step.Resumed?
    ensures Serves(s, step, c)
    ensures match step
            case Invoke(p) => Store.Enabled(s.store, Store.Start(p))
            case Answered(p, o) => Store.Enabled(s.store, Store.Settle(p, o))
            case Resumed(d) => At(s, d, Storing) && Store.Enabled(s.store, Store.Resume(d))
            case _ => false
  {
    assert Store.CallerOk(s.store, c);
    var p := s.store.callers[c].promise;
    match s.store.promises[p].status
    case Queued => step := Invoke(p);
    case Running => step := Answered(p, Store.Fulfilled(Null));
    case Settled(_) => step := Resumed(c);
  }

  // ----- Every run ends

  function StageWork(stage: Stage): nat {
    match stage
    case Fresh => 8
    case Reading => 7
    case Auditing => 6
    case Reviewing => 5
    case Storing => 2
    case Forwarding => 2
    case Reporting(_, _) => 1
    case _ => 0
  }

  function StagesWork(stages: seq<Stage>): nat {
    if stages == [] then 0 else StageWork(stages[|stages| - 1]) + StagesWork(stages[..|stages| - 1])
  }

  function Work(s: State): nat {
    StagesWork(s.stages) + Store.PromisesWork(s.store.promises)
  }

  lemma {:induction false} StagesWorkUpdate(stages: seq<Stage>, c: nat, stage: Stage)
    requires c < |stages|
    ensures StagesWork(stages[c := stage]) == StagesWork(stages) - StageWork(stages[c]) + StageWork(stage)
  {
    var k := |stages| - 1;
    if c == k {
      assert stages[c := stage][..k] == stages[..k];
    } else {
      assert stages[c := stage][..k] == stages[..k][c := stage];
      StagesWorkUpdate(stages[..k], c, stage);
    }
  }

  /** A step that only moves one call to a later stage. */
  lemma StageStep(s: State, t: State, c: nat)
    requires c < |s.stages| == |t.stages| && t.stages == s.stages[c := t.stages[c]] && t.store.promises == s.store.promises
    requires StageWork(t.stages[c]) < StageWork(s.stages[c])
    ensures Work(t) < Work(s)
  {
    hide StageWork, Store.PromisesWork;
    StagesWorkUpdate(s.stages, c, t.stages[c]);
  }

  lemma StoreAfterEnter(s: Store.State, c: nat, key: string)
    requires Store.Enabled(s, Store.Enter(c, key))
    ensures var t := Store.Next(s, Store.Enter(c, key));
            StageWork(AfterStore(t.callers[c])) <= 2 && Store.PromisesWork(t.promises) <= Store.PromisesWork(s.promises) + 2
  {
    hide Store.PromisesWork;
    var t := Store.Next(s, Store.Enter(c, key));
    if |t.promises| > |s.promises| { Store.AddedWork(s.promises, Store.Promise(key, c, Store.Queued)); }
  }

  lemma ReviewedAdvances(x: Setup, s: State, c: nat, reviewer: Reviewer)
    requires x.Valid() && Sized(x, s) && Enabled(x, s, Reviewed(c, reviewer))
    ensures Work(Next(x, s, Reviewed(c, reviewer))) < Work(s)
  {
    hide Setup.Valid, Keyed, KeyAt, FinalSafetyReview, VetoCode, Store.Next, Store.PromisesWork, AfterStore;
    var t := Next(x, s, Reviewed(c, reviewer));
    assert t.stages == s.stages[c := t.stages[c]];
    StagesWorkUpdate(s.stages, c, t.stages[c]);
    if FinalSafetyReview(reviewer).Safe? && Keyed(x, x.calls[c]) { StoreAfterEnter(s.store, c, KeyAt(x, c)); }
  }

  lemma ResumedAfter(s: Store.State, c: nat)
    requires Store.Enabled(s, Store.Resume(c))
    ensures var t := Store.Next(s, Store.Resume(c)); t.promises == s.promises && StageWork(AfterStore(t.callers[c])) <= 1
  {
  }

  lemma EveryStepAdvances(x: Setup, s: State, step: Step)
    requires x.Valid() && Sized(x, s) && Enabled(x, s, step)
    ensures Work(Next(x, s, step)) < Work(s)
  {
    hide Setup.Valid, Store.PromisesWork, Keyed, KeyAt, AfterReview, Decide, Authorize, GuardedPipeline.Resolution, StagesWork, Store.Next;
    var t := Next(x, s, step);
    match step
    case Begin(c) => StageStep(s, t, c);
    case PolicyRead(c, _) => StageStep(s, t, c);
    case AuditWritten(c, _) => StageStep(s, t, c);
    case Reviewed(c, reviewer) => ReviewedAdvances(x, s, c, reviewer);
    case Invoke(p) => StartWork(s.store, p);
    case Answered(p, o) => SettleWork(s.store, p, o);
    case Resumed(c) =>
      ResumedAfter(s.store, c);
      StageStep(s, t, c);
    case Direct(c, _) => StageStep(s, t, c);
    case Reported(c) => StageStep(s, t, c);
  }

  lemma StartWork(s: Store.State, p: nat)
    requires Store.Enabled(s, Store.Start(p))
    ensures Store.PromisesWork(Store.Next(s, Store.Start(p)).promises) < Store.PromisesWork(s.promises)
  {
    hide Store.PromisesWork;
    Store.UpdatedWork(s.promises, p, Store.Running);
  }

  lemma SettleWork(s: Store.State, p: nat, o: Store.Outcome)
    requires Store.Enabled(s, Store.Settle(p, o))
    ensures Store.PromisesWork(Store.Next(s, Store.Settle(p, o)).promises) < Store.PromisesWork(s.promises)
  {
    hide Store.PromisesWork;
    Store.UpdatedWork(s.promises, p, Store.Settled(o));
  }

  function Taken(x: Setup, s: State, steps: seq<Step>): nat
    requires x.Valid() && Sized(x, s)
    decreases |steps|
  {
    hide Enabled, Next, Sized;
    if steps == [] then 0
    else if Enabled(x, s, steps[0]) then
      NextSized(x, s, steps[0]);
      1 + Taken(x, Next(x, s, steps[0]), steps[1..])
    else Taken(x, s, steps[1..])
  }

  lemma {:induction false} TakenBound(x: Setup, s: State, steps: seq<Step>)
    requires x.Valid() && Sized(x, s)
    ensures Taken(x, s, steps) + Work(Run(x, s, steps)) <= Work(s)
    decreases |steps|
  {
    hide Work, Next, Enabled, Sized, Setup.Valid;
    if steps != [] {
      if Enabled(x, s, steps[0]) {
        NextSized(x, s, steps[0]);
        EveryStepAdvances(x, s, steps[0]);
        TakenBound(x, Next(x, s, steps[0]), steps[1..]);
      } else {
        TakenBound(x, s, steps[1..]);
      }
    }
  }

  lemma {:induction false} FreshWork(n: nat)
    ensures StagesWork(seq(n, _ => Fresh)) == 8 * n
  {
    if n > 0 {
      FreshWork(n - 1);
      assert seq(n, _ => Fresh)[..n - 1] == seq(n - 1, _ => Fresh);
    }
  }

  lemma InitialSized(x: Setup)
    ensures Sized(x, Initial(|x.calls|)) && Work(Initial(|x.calls|)) == 8 * |x.calls|
  {
    FreshWork(|x.calls|);
  }

  /** No schedule takes more than eight steps for each call, whatever the environment answers. */
  lemma PipelineRunsEnd(x: Setup, steps: seq<Step>)
    requires x.Valid()
    ensures Sized(x, Initial(|x.calls|)) && Taken(x, Initial(|x.calls|), steps) <= 8 * |x.calls|
  {
    hide Taken, Run, Work, Sized, Setup.Valid;
    InitialSized(x);
    TakenBound(x, Initial(|x.calls|), steps);
  }
}
