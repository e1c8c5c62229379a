/** The idempotency store.  `runOnce` awaits once, so it is two atomic segments: the class below has one
    method for each, and the step machine interleaves them over any number of callers. */
module IdempotencyStore {
  import opened Values

  datatype Outcome = Fulfilled(value: Value) | Threw(error: Value)

  datatype Entry = Pending(promise: nat) | Done(result: Value) | Failed(error: Value)

  /** What the segment before the await does: refuse the key, answer at once, await another call's
      promise, or own a new promise. */
  datatype Reply = BadKey | Answer(outcome: Outcome) | Awaits(promise: nat) | Owns(promise: nat)

  type Entries = map<string, Entry>

  function Lookup(entries: Entries, key: string, promise: nat): Reply {
    if key == "" then BadKey
    else if key !in entries then Owns(promise)
    else match entries[key]
      case Pending(p) => Awaits(p)
      case Done(v) => Answer(Fulfilled(v))
      case Failed(e) => Answer(Threw(e))
  }

  function Entered(entries: Entries, key: string, promise: nat): Entries {
    if key == "" || key in entries then entries else entries[key := Pending(promise)]
  }

  function Recorded(o: Outcome): Entry {
    match o case Fulfilled(v) => Done(v) case Threw(e) => Failed(e)
  }

  class Store {
    var entries: Entries

    constructor ()
      ensures entries == map[]
    {
      entries := map[];
    }

    /** `runOnce` up to its await; `promise` is the promise that a first call would create. */
    method Begin(key: string, promise: nat) returns (reply: Reply)
      modifies this
      ensures reply == Lookup(old(entries), key, promise)
      ensures entries == Entered(old(entries), key, promise)
    {
      if key == "" {
        return BadKey;
      }
      if key in entries {
        var existing := entries[key];
        if existing.Pending? {
          return Awaits(existing.promise);
        }
        if existing.Done? {
          return Answer(Fulfilled(existing.result));
        }
        return Answer(Threw(existing.error));
      }
      entries := entries[key := Pending(promise)];
      reply := Owns(promise);
    }

    /** The owner's segment after the await: the result or the error is stored, then handed on. */
    method Finish(key: string, settled: Outcome) returns (outcome: Outcome)
      modifies this
      ensures entries == old(entries)[key := Recorded(settled)]
      ensures outcome == settled
    {
      if settled.Fulfilled? {
        entries := entries[key := Done(settled.value)];
      } else {
        entries := entries[key := Failed(settled.error)];
      }
      outcome := settled;
    }
  }

  // ----- Interleaved callers

  /** A promise made by `Promise.resolve().then(fn)`: `fn` has not begun, is running, or has settled. */
  datatype Status = Queued | Running | Settled(outcome: Outcome)

  datatype Promise = Promise(key: string, owner: nat, status: Status)

  datatype Caller =
    | Absent
    | Refused
    | Owning(key: string, promise: nat)
    | Waiting(key: string, promise: nat)
    | Returned(key: string, reused: bool, value: Value)
    | Raised(key: string, error: Value)

  /** `starts` lists the keys whose `fn` was begun, in order. */
  datatype State = State(entries: Entries, promises: seq<Promise>, callers: seq<Caller>, starts: seq<string>)

  datatype Step =
    | Enter(caller: nat, key: string)
    | Start(promise: nat)
    | Settle(promise: nat, outcome: Outcome)
    | Resume(caller: nat)

  function Initial(callers: nat): State {
    State(map[], [], seq(callers, _ => Absent), [])
  }

  predicate Enabled(s: State, step: Step) {
    match step
    case Enter(c, _) => c < |s.callers| && s.callers[c].Absent?
    case Start(p) => p < |s.promises| && s.promises[p].status.Queued?
    case Settle(p, _) => p < |s.promises| && s.promises[p].status.Running?
    case Resume(c) =>
      c < |s.callers| && (s.callers[c].Owning? || s.callers[c].Waiting?) &&
      s.callers[c].promise < |s.promises| && s.promises[s.callers[c].promise].status.Settled?
  }

  function Ended(key: string, reused: bool, o: Outcome): Caller {
    match o case Fulfilled(v) => Returned(key, reused, v) case Threw(e) => Raised(key, e)
  }

  function Next(s: State, step: Step): (t: State)
    requires Enabled(s, step)
    ensures |t.callers| == |s.callers|
  {
    match step
    case Enter(c, key) =>
      var made := |s.promises|;
      var t := s.(entries := Entered(s.entries, key, made));
      (match Lookup(s.entries, key, made)
       case BadKey => t.(callers := s.callers[c := Refused])
       case Answer(o) => t.(callers := s.callers[c := Ended(key, true, o)])
       case Awaits(p) => t.(callers := s.callers[c := Waiting(key, p)])
       case Owns(p) => t.(callers := s.callers[c := Owning(key, p)], promises := s.promises + [Promise(key, c, Queued)]))
    case Start(p) =>
      s.(promises := s.promises[p := s.promises[p].(status := Running)], starts := s.starts + [s.promises[p].key])
    case Settle(p, o) =>
      s.(promises := s.promises[p := s.promises[p].(status := Settled(o))])
    case Resume(c) =>
      var caller := s.callers[c];
      var o := s.promises[caller.promise].status.outcome;
      var t := s.(callers := s.callers[c := Ended(caller.key, caller.Waiting?, o)]);
      if caller.Owning? then t.(entries := s.entries[caller.key := Recorded(o)]) else t
  }

  /** A schedule picks a step each time; a step that cannot be taken changes nothing. */
  function Run(s: State, steps: seq<Step>): State
    decreases |steps|
  {
    if steps == [] then s
    else Run(if Enabled(s, steps[0]) then Next(s, steps[0]) else s, steps[1..])
  }

  // ----- What every step keeps

  predicate MadeFor(s: State, p: nat, key: string) {
    p < |s.promises| && s.promises[p].key == key
  }

  /** The map entry, the promise and its owner tell one story. */
  predicate PromiseOk(s: State, p: nat)
    requires p < |s.promises|
  {
    var (key, owner, status) := (s.promises[p].key, s.promises[p].owner, s.promises[p].status);
    owner < |s.callers| && key in s.entries && key != "" && (status.Queued? <==> key !in s.starts) &&
    match s.entries[key]
    case Pending(q) => q == p && s.callers[owner] == Owning(key, p)
    case Done(v) => status == Settled(Fulfilled(v)) && s.callers[owner] == Returned(key, false, v)
    case Failed(e) => status == Settled(Threw(e)) && s.callers[owner] == Raised(key, e)
  }

  predicate HasOutcome(s: State, p: nat, key: string, o: Outcome) {
    MadeFor(s, p, key) && s.promises[p].status == Settled(o)
  }

  ghost predicate CallerOk(s: State, c: nat)
    requires c < |s.callers|
  {
    match s.callers[c]
    case Owning(k, p) => MadeFor(s, p, k) && s.promises[p].owner == c
    case Waiting(k, p) => MadeFor(s, p, k) && s.promises[p].owner != c
    case Returned(k, reused, v) => exists p: nat :: HasOutcome(s, p, k, Fulfilled(v)) && (reused <==> s.promises[p].owner != c)
    case Raised(k, e) => exists p: nat :: HasOutcome(s, p, k, Threw(e))
    case _ => true
  }

  predicate OnePromise(s: State) {
    forall p, q | 0 <= p < q < |s.promises| :: s.promises[p].key != s.promises[q].key
  }

  ghost predicate Backed(s: State, key: string) {
    exists p: nat :: MadeFor(s, p, key)
  }

  ghost predicate Inv(s: State) {
    && (forall p | 0 <= p < |s.promises| :: PromiseOk(s, p))
    && (forall c | 0 <= c < |s.callers| :: CallerOk(s, c))
    && OnePromise(s) && Distinct(s.starts)
    && (forall k | k in s.entries :: Backed(s, k))
    && (forall k | k in s.starts :: Backed(s, k))
  }

  lemma InvInitial(n: nat)
    ensures Inv(Initial(n))
  {
  }

  /** Promises stay, with their key and owner, and keep their outcome once settled. */
  predicate Extends(s: State, t: State) {
    |s.promises| <= |t.promises| && |s.callers| == |t.callers| &&
    forall p | 0 <= p < |s.promises| ::
      t.promises[p].key == s.promises[p].key && t.promises[p].owner == s.promises[p].owner &&
      (s.promises[p].status.Settled? ==> t.promises[p].status == s.promises[p].status)
  }

  lemma CallerStays(s: State, t: State, c: nat)
    requires Extends(s, t) && c < |s.callers| && s.callers[c] == t.callers[c] && CallerOk(s, c)
    ensures CallerOk(t, c)
  {
    match s.callers[c]
    case Returned(k, reused, v) =>
      var p: nat :| HasOutcome(s, p, k, Fulfilled(v)) && (reused <==> s.promises[p].owner != c);
      assert HasOutcome(t, p, k, Fulfilled(v));
    case Raised(k, e) =>
      var p: nat :| HasOutcome(s, p, k, Threw(e));
      assert HasOutcome(t, p, k, Threw(e));
    case _ =>
  }

  lemma BackedStays(s: State, t: State, key: string)
    requires Extends(s, t) && Backed(s, key)
    ensures Backed(t, key)
  {
    var p: nat :| MadeFor(s, p, key);
    assert MadeFor(t, p, key);
  }

  /** The one promise made for a key that is in the map. */
  lemma PromiseOf(s: State, key: string) returns (p: nat)
    requires Inv(s) && key in s.entries
    ensures MadeFor(s, p, key) && PromiseOk(s, p)
  {
    assert Backed(s, key);
    p :| MadeFor(s, p, key);
  }

  lemma EnterKeeps(s: State, c: nat, key: string)
    requires Inv(s) && Enabled(s, Enter(c, key))
    ensures Inv(Next(s, Enter(c, key)))
  {
    hide PromiseOk, CallerOk, Backed;
    var t := Next(s, Enter(c, key));
    forall p | 0 <= p < |t.promises| ensures PromiseOk(t, p) { EnterPromise(s, c, key, p); }
    forall d | 0 <= d < |t.callers| ensures CallerOk(t, d) {
      if d == c { EnterCaller(s, c, key); } else { CallerStays(s, t, d); }
    }
    forall k | k in t.entries ensures Backed(t, k) {
      if k in s.entries { BackedStays(s, t, k); } else { EnterBacked(s, c, key); }
    }
    forall k | k in t.starts ensures Backed(t, k) { BackedStays(s, t, k); }
    EnterOne(s, c, key);
  }

  lemma EnterBacked(s: State, c: nat, key: string)
    requires Enabled(s, Enter(c, key)) && key != "" && key !in s.entries
    ensures Backed(Next(s, Enter(c, key)), key)
  {
    assert MadeFor(Next(s, Enter(c, key)), |s.promises|, key);
  }

  lemma EnterOne(s: State, c: nat, key: string)
    requires Inv(s) && Enabled(s, Enter(c, key))
    ensures OnePromise(Next(s, Enter(c, key))) && Distinct(Next(s, Enter(c, key)).starts)
  {
    forall p | 0 <= p < |s.promises| ensures s.promises[p].key in s.entries { assert PromiseOk(s, p); }
  }

  lemma EnterPromise(s: State, c: nat, key: string, p: nat)
    requires Inv(s) && Enabled(s, Enter(c, key)) && p < |Next(s, Enter(c, key)).promises|
    ensures PromiseOk(Next(s, Enter(c, key)), p)
  {
    if p < |s.promises| {
      assert PromiseOk(s, p);
    } else if key in s.starts {
      assert Backed(s, key);
      var q: nat :| MadeFor(s, q, key);
      assert PromiseOk(s, q);
    }
  }

  lemma EnterCaller(s: State, c: nat, key: string)
    requires Inv(s) && Enabled(s, Enter(c, key))
    ensures CallerOk(Next(s, Enter(c, key)), c)
  {
    var t := Next(s, Enter(c, key));
    if key != "" && key in s.entries {
      var p := PromiseOf(s, key);
      match s.entries[key]
      case Pending(q) =>
      case Done(v) => assert HasOutcome(t, p, key, Fulfilled(v));
      case Failed(e) => assert HasOutcome(t, p, key, Threw(e));
    }
  }

  lemma StartKeeps(s: State, p: nat)
    requires Inv(s) && Enabled(s, Start(p))
    ensures Inv(Next(s, Start(p)))
  {
    hide CallerOk, Backed;
    var t := Next(s, Start(p));
    assert PromiseOk(s, p);
    forall q | 0 <= q < |t.promises| ensures PromiseOk(t, q) { assert PromiseOk(s, q); }
    forall d | 0 <= d < |t.callers| ensures CallerOk(t, d) { CallerStays(s, t, d); }
    forall k | k in t.entries ensures Backed(t, k) { BackedStays(s, t, k); }
    forall k | k in t.starts ensures Backed(t, k) { BackedStays(s, t, k); }
  }

  lemma SettleKeeps(s: State, p: nat, o: Outcome)
    requires Inv(s) && Enabled(s, Settle(p, o))
    ensures Inv(Next(s, Settle(p, o)))
  {
    hide CallerOk, Backed;
    var t := Next(s, Settle(p, o));
    forall q | 0 <= q < |t.promises| ensures PromiseOk(t, q) { assert PromiseOk(s, q); }
    forall d | 0 <= d < |t.callers| ensures CallerOk(t, d) { CallerStays(s, t, d); }
    forall k | k in t.entries ensures Backed(t, k) { BackedStays(s, t, k); }
    forall k | k in t.starts ensures Backed(t, k) { BackedStays(s, t, k); }
  }

  lemma ResumeKeeps(s: State, c: nat)
    requires Inv(s) && Enabled(s, Resume(c))
    ensures Inv(Next(s, Resume(c)))
  {
    hide CallerOk, Backed, PromiseOk;
    var t := Next(s, Resume(c));
    forall q | 0 <= q < |t.promises| ensures PromiseOk(t, q) { ResumePromise(s, c, q); }
    forall d | 0 <= d < |t.callers| ensures CallerOk(t, d) {
      if d == c { ResumeCaller(s, c); } else { CallerStays(s, t, d); }
    }
    forall k | k in t.entries ensures Backed(t, k) { ResumeBacked(s, c, k); }
    forall k | k in t.starts ensures Backed(t, k) { BackedStays(s, t, k); }
  }

  lemma ResumePromise(s: State, c: nat, q: nat)
    requires Inv(s) && Enabled(s, Resume(c)) && q < |s.promises|
    ensures PromiseOk(Next(s, Resume(c)), q)
  {
    assert PromiseOk(s, q) && CallerOk(s, c) && PromiseOk(s, s.callers[c].promise);
  }

  lemma ResumeCaller(s: State, c: nat)
    requires Inv(s) && Enabled(s, Resume(c))
    ensures CallerOk(Next(s, Resume(c)), c)
  {
    assert CallerOk(s, c);
    var p := s.callers[c].promise;
    assert HasOutcome(Next(s, Resume(c)), p, s.callers[c].key, s.promises[p].status.outcome);
  }

  lemma ResumeBacked(s: State, c: nat, k: string)
    requires Inv(s) && Enabled(s, Resume(c)) && k in Next(s, Resume(c)).entries
    ensures Backed(Next(s, Resume(c)), k)
  {
    var t := Next(s, Resume(c));
    if k in s.entries {
      BackedStays(s, t, k);
    } else {
      assert CallerOk(s, c);
      assert MadeFor(t, s.callers[c].promise, k);
    }
  }

  lemma NextKeeps(s: State, step: Step)
    requires Inv(s) && Enabled(s, step)
    ensures Inv(Next(s, step))
  {
    hide Inv, Next, Enabled;
    match step
    case Enter(c, key) => EnterKeeps(s, c, key);
    case Start(p) => StartKeeps(s, p);
    case Settle(p, o) => SettleKeeps(s, p, o);
    case Resume(c) => ResumeKeeps(s, c);
  }

  lemma {:induction false} RunKeeps(s: State, steps: seq<Step>)
    requires Inv(s)
    ensures Inv(Run(s, steps))
    decreases |steps|
  {
    hide Inv, Next, Enabled;
    if steps != [] {
      if Enabled(s, steps[0]) {
        NextKeeps(s, steps[0]);
        RunKeeps(Next(s, steps[0]), steps[1..]);
      } else {
        RunKeeps(s, steps[1..]);
      }
    }
  }

  // ----- What every run shows

  /** In every interleaving of any number of callers, `fn` is begun at most once for each key. */
  lemma AtMostOneStart(n: nat, steps: seq<Step>)
    ensures Distinct(Run(Initial(n), steps).starts)
  {
    hide Run;
    RunKeeps(Initial(n), steps);
  }

  function OutcomeOf(c: Caller): Outcome
    requires c.Returned? || c.Raised?
  {
    if c.Returned? then Fulfilled(c.value) else Threw(c.error)
  }

  predicate Answered(c: Caller, key: string) {
    (c.Returned? || c.Raised?) && c.key == key
  }

  /** Any two answered callers of a key got the same value or the same error, and of two that returned a
      value at most one was told that it was not reused. */
  lemma SameAnswer(n: nat, steps: seq<Step>, key: string, c: nat, d: nat)
    requires var s := Run(Initial(n), steps);
             c < |s.callers| && d < |s.callers| && Answered(s.callers[c], key) && Answered(s.callers[d], key)
    ensures var s := Run(Initial(n), steps);
            && OutcomeOf(s.callers[c]) == OutcomeOf(s.callers[d])
            && (s.callers[c].Returned? && c != d ==> s.callers[c].reused || s.callers[d].reused)
  {
    hide Run;
    RunKeeps(Initial(n), steps);
    AnswersAgree(Run(Initial(n), steps), key, c, d);
  }

  lemma AnswerPromise(s: State, c: nat) returns (p: nat)
    requires Inv(s) && c < |s.callers| && (s.callers[c].Returned? || s.callers[c].Raised?)
    ensures HasOutcome(s, p, s.callers[c].key, OutcomeOf(s.callers[c])) && PromiseOk(s, p)
    ensures s.callers[c].Returned? ==> (s.callers[c].reused <==> s.promises[p].owner != c)
  {
    assert CallerOk(s, c);
    match s.callers[c]
    case Returned(k, reused, v) => p :| HasOutcome(s, p, k, Fulfilled(v)) && (reused <==> s.promises[p].owner != c);
    case Raised(k, e) => p :| HasOutcome(s, p, k, Threw(e));
  }

  lemma AnswersAgree(s: State, key: string, c: nat, d: nat)
    requires Inv(s) && c < |s.callers| && d < |s.callers| && Answered(s.callers[c], key) && Answered(s.callers[d], key)
    ensures OutcomeOf(s.callers[c]) == OutcomeOf(s.callers[d])
    ensures s.callers[c].Returned? && c != d ==> s.callers[c].reused || s.callers[d].reused
  {
    var p := AnswerPromise(s, c);
    var q := AnswerPromise(s, d);
    assert p == q;
  }

  /** When some caller of a key returned a value, its first caller is still to resume or exactly one caller
      was told that the value is its own. */
  lemma OneNotReused(n: nat, steps: seq<Step>, key: string, c: nat)
    requires var s := Run(Initial(n), steps);
             c < |s.callers| && s.callers[c].Returned? && s.callers[c].key == key
    ensures var s := Run(Initial(n), steps);
            exists d | 0 <= d < |s.callers| ::
              (s.callers[d].Owning? && s.callers[d].key == key) ||
              (s.callers[d] == Returned(key, false, s.callers[c].value) &&
               forall e | 0 <= e < |s.callers| && e != d :: !(s.callers[e].Returned? && s.callers[e].key == key && !s.callers[e].reused))
  {
    hide Run;
    RunKeeps(Initial(n), steps);
    var s := Run(Initial(n), steps);
    var p := AnswerPromise(s, c);
    var d := s.promises[p].owner;
    if !s.callers[d].Owning? {
      forall e | 0 <= e < |s.callers| && e != d
        ensures !(s.callers[e].Returned? && s.callers[e].key == key && !s.callers[e].reused)
      {
        if s.callers[e].Returned? && s.callers[e].key == key { AnswersAgree(s, key, d, e); }
      }
    }
  }

  predicate Concluded(s: State, key: string) {
    key in s.entries && !s.entries[key].Pending?
  }

  lemma NextKeepsConcluded(s: State, step: Step, key: string)
    requires Inv(s) && Enabled(s, step) && Concluded(s, key)
    ensures Concluded(Next(s, step), key) && Next(s, step).entries[key] == s.entries[key]
  {
    if step.Resume? {
      var caller := s.callers[step.caller];
      assert CallerOk(s, step.caller);
      assert PromiseOk(s, caller.promise);
    }
  }

  lemma {:induction false} ConcludedStays(s: State, steps: seq<Step>, key: string)
    requires Inv(s) && Concluded(s, key)
    ensures key in Run(s, steps).entries && Run(s, steps).entries[key] == s.entries[key]
    decreases |steps|
  {
    hide Inv, Next, Enabled;
    if steps != [] {
      if Enabled(s, steps[0]) {
        NextKeeps(s, steps[0]);
        NextKeepsConcluded(s, steps[0], key);
        ConcludedStays(Next(s, steps[0]), steps[1..], key);
      } else {
        ConcludedStays(s, steps[1..], key);
      }
    }
  }

  lemma {:induction false} RunSplit(s: State, first: seq<Step>, later: seq<Step>)
    ensures Run(s, first + later) == Run(Run(s, first), later)
    decreases |first|
  {
    hide Next, Enabled;
    if first == [] {
      assert first + later == later;
    } else {
      assert (first + later)[1..] == first[1..] + later;
      RunSplit(if Enabled(s, first[0]) then Next(s, first[0]) else s, first[1..], later);
    }
  }

  /** Once a key's result or failure is recorded it never changes and `fn` was begun for it exactly once,
      whatever is called afterwards: a failed key is never run again. */
  lemma RecordedForGood(n: nat, steps: seq<Step>, later: seq<Step>, key: string)
    requires Concluded(Run(Initial(n), steps), key)
    ensures var (s, t) := (Run(Initial(n), steps), Run(Initial(n), steps + later));
            && key in t.entries && t.entries[key] == s.entries[key]
            && key in s.starts && multiset(t.starts)[key] == 1
  {
    hide Run, Inv;
    var s := Run(Initial(n), steps);
    InvInitial(n);
    RunKeeps(Initial(n), steps);
    RunKeeps(Initial(n), steps + later);
    RunSplit(Initial(n), steps, later);
    ConcludedStays(s, later, key);
    StartedOnce(s, key);
    StartedOnce(Run(s, later), key);
  }

  lemma StartedOnce(s: State, key: string)
    requires Inv(s) && Concluded(s, key)
    ensures key in s.starts && multiset(s.starts)[key] == 1
  {
    var p := PromiseOf(s, key);
    CountOnce(s.starts, key);
  }

  // ----- No caller is left behind

  function CallerWork(c: Caller): nat {
    match c
    case Absent => 4
    case Owning(_, _) => 1
    case Waiting(_, _) => 1
    case _ => 0
  }

  function CallersWork(callers: seq<Caller>): nat {
    if callers == [] then 0 else CallerWork(callers[|callers| - 1]) + CallersWork(callers[..|callers| - 1])
  }

  function PromisesWork(promises: seq<Promise>): nat {
    if promises == [] then 0
    else
      var last := promises[|promises| - 1].status;
      (if last.Queued? then 2 else if last.Running? then 1 else 0) + PromisesWork(promises[..|promises| - 1])
  }

  function Work(s: State): nat {
    CallersWork(s.callers) + PromisesWork(s.promises)
  }

  lemma {:induction false} CallersWorkUpdate(callers: seq<Caller>, c: nat, d: Caller)
    requires c < |callers|
    ensures CallersWork(callers[c := d]) == CallersWork(callers) - CallerWork(callers[c]) + CallerWork(d)
  {
    var k := |callers| - 1;
    if c == k {
      assert callers[c := d][..k] == callers[..k];
    } else {
      assert callers[c := d][..k] == callers[..k][c := d];
      CallersWorkUpdate(callers[..k], c, d);
    }
  }

  lemma {:induction false} PromisesWorkUpdate(promises: seq<Promise>, p: nat, q: Promise)
    requires p < |promises|
    ensures PromisesWork(promises[p := q]) ==
              PromisesWork(promises) - PromisesWork([promises[p]]) + PromisesWork([q])
  {
    var k := |promises| - 1;
    if p == k {
      assert promises[p := q][..k] == promises[..k];
    } else {
      assert promises[p := q][..k] == promises[..k][p := q];
      PromisesWorkUpdate(promises[..k], p, q);
    }
  }

  lemma EveryStepAdvances(s: State, step: Step)
    requires Enabled(s, step)
    ensures Work(Next(s, step)) < Work(s)
  {
    hide CallersWork, PromisesWork;
    match step
    case Enter(c, key) =>
      var t := Next(s, step);
      CallersWorkUpdate(s.callers, c, t.callers[c]);
      assert t.callers == s.callers[c := t.callers[c]];
      if |t.promises| > |s.promises| { AddedWork(s.promises, Promise(key, c, Queued)); }
    case Start(p) => UpdatedWork(s.promises, p, Running);
    case Settle(p, o) => UpdatedWork(s.promises, p, Settled(o));
    case Resume(c) => CallersWorkUpdate(s.callers, c, Next(s, step).callers[c]);
  }

  lemma AddedWork(promises: seq<Promise>, q: Promise)
    requires q.status.Queued?
    ensures PromisesWork(promises + [q]) == PromisesWork(promises) + 2
  {
    assert (promises + [q])[..|promises|] == promises;
  }

  lemma UpdatedWork(promises: seq<Promise>, p: nat, status: Status)
    requires p < |promises|
    requires (promises[p].status.Queued? && status.Running?) || (promises[p].status.Running? && status.Settled?)
    ensures PromisesWork(promises[p := promises[p].(status := status)]) == PromisesWork(promises) - 1
  {
    var q := promises[p].(status := status);
    PromisesWorkUpdate(promises, p, q);
    assert PromisesWork([promises[p]]) == PromisesWork([q]) + 1;
  }

  function Taken(s: State, steps: seq<Step>): nat
    decreases |steps|
  {
    if steps == [] then 0
    else if Enabled(s, steps[0]) then 1 + Taken(Next(s, steps[0]), steps[1..])
    else Taken(s, steps[1..])
  }

  lemma {:induction false} TakenBound(s: State, steps: seq<Step>)
    ensures Taken(s, steps) + Work(Run(s, steps)) <= Work(s)
    decreases |steps|
  {
    hide Work, Next, Enabled;
    if steps != [] {
      if Enabled(s, steps[0]) {
        EveryStepAdvances(s, steps[0]);
        TakenBound(Next(s, steps[0]), steps[1..]);
      } else {
        TakenBound(s, steps[1..]);
      }
    }
  }

  lemma {:induction false} InitialWork(n: nat)
    ensures CallersWork(seq(n, _ => Absent)) == 4 * n
  {
    if n > 0 {
      InitialWork(n - 1);
      assert seq(n, _ => Absent)[..n - 1] == seq(n - 1, _ => Absent);
    }
  }

  /** No schedule takes more than four steps for each caller. */
  lemma RunsEnd(n: nat, steps: seq<Step>)
    ensures Taken(Initial(n), steps) <= 4 * n
  {
    hide Run, Taken;
    TakenBound(Initial(n), steps);
    InitialWork(n);
  }

  /** In every reachable state, a caller that has entered and has no answer yet is not stuck: a step other
      than a new call can be taken. */
  lemma NeverStuck(n: nat, steps: seq<Step>, c: nat)
    requires var s := Run(Initial(n), steps); c < |s.callers| && (s.callers[c].Owning? || s.callers[c].Waiting?)
    ensures var s := Run(Initial(n), steps);
            exists step :: Enabled(s, step) && !step.Enter?
  {
    hide Run;
    RunKeeps(Initial(n), steps);
    var s := Run(Initial(n), steps);
    assert CallerOk(s, c);
    var p := s.callers[c].promise;
    var step := match s.promises[p].status
      case Queued => Start(p)
      case Running => Settle(p, Fulfilled(Null))
      case Settled(_) => Resume(c);
    assert Enabled(s, step);
  }
}
