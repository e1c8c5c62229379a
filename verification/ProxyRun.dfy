/** The proxy's guarded runner and the interceptor it serves: what a host may conclude when its call is forwarded. */
module ProxyRun {
  import opened Values
  import opened Text
  import opened Coercions
  import opened ToolSemantics
  import opened PolicyDecision
  import opened PolicySnapshot
  import opened GuardedForward
  import opened ActionCoverage
  import opened CoverageSafety
  import opened AmountGaps
  import opened HostTools
  import opened RequiredArguments
  import opened SimulationEvidence
  import GuardedCall
  import PolicyOrder
  import Risk
  import P = GuardedPipeline
  import S = IdempotencyStore

  // ----- What the runner hands to coverToolCall

  predicate MutationTool(name: string) {
    name == "send_transaction" || name == "transfer_token" || name == "approve_token" || name == "sign_typed_data"
  }

  /** The first of the two that is there and not null. */
  function OrElse(a: Option<Value>, b: Option<Value>): Option<Value> {
    if a.Some? && !a.value.Null? then a else b
  }

  function TargetOf(args: Record): Value {
    var v := OrElse(Get(args, "to"), OrElse(Get(args, "recipient"), OrElse(Get(args, "recipientAddress"), Get(args, "spender"))));
    if v.Some? && !v.value.Null? then v.value else Str("n/a")
  }

  function MaxAmountOf(args: Record): string {
    var v := OrElse(Get(args, "value"), Get(args, "amount"));
    if v.Some? && !v.value.Null? then TextOf(v.value) else "0"
  }

  /** The consent that the runner writes for a mutation; `signer` is the configured account. */
  function BuiltConsent(args: Record, signer: Option<string>): seq<Field> {
    [Field("network", Str("monad-testnet")), Field("account", Str(if signer.Some? then signer.value else "upstream")),
     Field("target", TargetOf(args)), Field("asset", Str(if TruthyAt(args, "token") then "ERC20" else "MON")),
     Field("max_amount", Str(MaxAmountOf(args)))]
  }

  /** The inner report of the built simulation; the runner gives no fee. */
  function Report(node: NodeAnswers): Value {
    hide BuildSimulation;
    var built := BuildSimulation(node, NoFee);
    var inner := FieldOf(built, "simulation");
    if inner.Some? && !inner.value.Null? then inner.value else built
  }

  const MONAD_CONTEXT := Context(Some(Num("10143")), None, None)

  function SimulationFor(name: string, node: NodeAnswers): Option<Value> {
    if MutationTool(name) then Some(Report(node)) else None
  }

  function ConsentFor(name: string, args: seq<Field>, signer: Option<string>): Option<Value> {
    if MutationTool(name) then Some(Obj(BuiltConsent(ArgsOf(args), signer))) else None
  }

  /** The evidence of the runner's call. */
  function RunEvidence(c: Catalog, name: string, args: seq<Field>, node: NodeAnswers): Record {
    hide Evidence;
    Evidence(SemanticsOf(c, name), args, MONAD_CONTEXT, SimulationFor(name, node))
  }

  function RunCovered(c: Catalog, name: string, args: seq<Field>, t: Transport, config: Config, node: NodeAnswers,
                      signer: Option<string>, reviewer: Reviewer): Covered {
    hide Cover;
    Cover(c, name, args, MONAD_CONTEXT, Contract(t, config), SimulationFor(name, node), ConsentFor(name, args, signer), true, reviewer)
  }

  /** The consent the runner writes is complete exactly when no configured account, target or amount is the empty
      text, so the consent gate never stops the runner's mutations otherwise. */
  lemma BuiltConsentIff(args: Record, signer: Option<string>)
    ensures ConsentGiven(Some(Obj(BuiltConsent(args, signer)))) <==>
              signer != Some("") && TargetOf(args) != Str("") && MaxAmountOf(args) != ""
  {
    hide TargetOf, MaxAmountOf, Truthy;
    var l := BuiltConsent(args, signer);
    TargetNotNull(args);
    assert l[0].key == "network" && l[1].key == "account" && l[2].key == "target" && l[3].key == "asset" && l[4].key == "max_amount";
    assert "network"[0] != "account"[0];
    assert |"network"| == 7 && |"account"| == 7 && |"target"| == 6 && |"asset"| == 5 && |"max_amount"| == 10;
    FieldAt(l, 0);
    FieldAt(l, 1);
    FieldAt(l, 2);
    FieldAt(l, 3);
    FieldAt(l, 4);
  }

  /** On the runner's path a call is skipped exactly when its tool transfers, approves, signs or writes to a contract and
      either the runner writes no consent, because the name is none of its four, or the consent lacks one of account,
      target and amount. */
  lemma RunSkippedIff(c: Catalog, name: string, args: seq<Field>, t: Transport, config: Config, node: NodeAnswers, signer: Option<string>,
                      reviewer: Reviewer)
    ensures RunCovered(c, name, args, t, config, node, signer, reviewer) == ConsentMissing <==>
              name in c.registry && c.registry[name].toolClass in {"transaction_execute", "token_approval", "signature", "contract_write"} &&
              (name !in {"send_transaction", "transfer_token", "approve_token", "sign_typed_data"} ||
               signer == Some("") || TargetOf(ArgsOf(args)) == Str("") || MaxAmountOf(ArgsOf(args)) == "")
  {
    hide Cover, ArgsOf, BuiltConsent, Names, TargetOf, MaxAmountOf;
    SkippedIff(c, name, args, MONAD_CONTEXT, Contract(t, config), SimulationFor(name, node), ConsentFor(name, args, signer), true, reviewer);
    BuiltConsentIff(ArgsOf(args), signer);
    ConsentIff(ConsentFor(name, args, signer));
  }

  /** The consent is for the recipient that is checked, when its target is truthy. */
  lemma ConsentTarget(args: Record)
    requires Truthy(TargetOf(args)) && RecipientGiven(args)
    ensures TargetOf(args) == Recipient(args)
  {
    NullFalsy();
    hide Truthy;
  }

  lemma NullFalsy()
    ensures !Truthy(Null)
  {
  }

  /** The consent's maximum is the transfer's own amount exactly unless both `amount` and `value` are given with different
      texts: the consent reads `value` first, the checks `amount`. */
  lemma ConsentAmountIff(args: Record)
    requires Given(args, AmountKey(args))
    ensures MaxAmountOf(args) == TextOf(args[AmountKey(args)]) <==>
              (Given(args, "amount") && Given(args, "value") ==> TextOf(args["amount"]) == TextOf(args["value"]))
  {
    hide TextOf;
  }

  lemma TargetNotNull(args: Record)
    ensures !TargetOf(args).Null?
  {
  }

  /** The contract reads are accepted, and the call's tool and evidence meet them. */
  predicate MeetsContract(c: Catalog, name: string, args: seq<Field>, t: Transport, config: Config, node: NodeAnswers) {
    hide RunEvidence, MeetsRaw, Acceptable, RawOf;
    name in c.registry && Readable(t) && Acceptable(RawOf(t).value, config) &&
    MeetsRaw(c.registry[name], RunEvidence(c, name, args, node), RawOf(t).value)
  }

  lemma RunForwarded(c: Catalog, name: string, args: seq<Field>, t: Transport, config: Config, node: NodeAnswers, signer: Option<string>,
                     reviewer: Reviewer)
    requires RunCovered(c, name, args, t, config, node, signer, reviewer) == Gated(Allow)
    ensures MeetsContract(c, name, args, t, config, node)
  {
    hide Cover, Evidence, MeetsRaw, Readable, Acceptable, RawOf, ConsentFor, SimulationFor;
    ForwardedCall(c, name, args, MONAD_CONTEXT, t, config, SimulationFor(name, node), ConsentFor(name, args, signer), true, reviewer);
  }

  // ----- Simulation and gas on the runner's path

  lemma ReportIs(node: NodeAnswers)
    ensures Report(node) == StatusReport(StatusFor(node, NoFee)) && Truthy(Report(node)) && GasCostOf(Some(Report(node))) == None
    ensures Risk.StatusOf(Report(node)) == Some(Str(StatusFor(node, NoFee)))
  {
    hide BuildSimulation, StatusFor;
    CostIff(node, NoFee);
    ReportFields(StatusFor(node, NoFee));
  }

  /** The gas cost the call is checked by: the host's own argument. */
  function GasArgument(args: Record): Option<nat> {
    if TruthyAt(args, "estimated_gas_cost_wei") then Risk.AmountOf(Some(args["estimated_gas_cost_wei"])) else None
  }

  lemma GasIsArgument(c: Catalog, name: string, args: seq<Field>, node: NodeAnswers)
    requires name in c.registry && ComparesArguments(c.registry[name])
    ensures Get(RunEvidence(c, name, args, node), "estimated_gas_cost_wei") == Get(ArgsOf(args), "estimated_gas_cost_wei")
  {
    hide Evidence, ComparesArguments, Report, ArgsOf, FieldOf, MutationTool;
    ReportIs(node);
    GasFacts(c.registry[name], args, MONAD_CONTEXT, SimulationFor(name, node));
  }

  /** The same contract with another gas cap. */
  function WithGasCap(t: Transport, g: nat): Transport {
    if t.caps.Some? then t.(caps := Some(t.caps.value.(gas := Big(g)))) else t
  }

  lemma FetchedWithGasCap(t: Transport, config: Config, g: nat)
    requires Fetched(t, config).Ok?
    ensures var s := Fetched(t, config).value;
            Fetched(WithGasCap(t, g), config) == Ok(s.(caps := s.caps.(gas := IntText(g)))) && Risk.CapOf(IntText(g)) == g
  {
    hide All, Unique, HasNone, BadLimit, SpenderKey, MapSeq, Present, PresentLimits, CanonicalDecimal, ValueOf, IntText, Digits, Truthy,
      LowerHash, LowerAddress, NumberIs;
    GasText(g);
  }

  lemma GasText(g: nat)
    ensures CanonicalDecimal(IntText(g)) && TextOf(Big(g)) == IntText(g) && Risk.CapOf(IntText(g)) == g
  {
    DecimalRoundTrip(g);
    CanonicalDigits(IntText(g));
  }

  /** Only the gas check reads the gas cap. */
  lemma ChecksWithGasCap(m: Semantics, s: Snapshot, e: Record, cap: string)
    requires Risk.Checks(m, s, e) == []
    ensures var t := s.(caps := s.caps.(gas := cap));
            Risk.Checks(m, t, e) == [] <==> Risk.GasFinding(t, e) == []
  {
    hide Risk.Checks, Risk.ListedIn, Risk.AmountEvidence, Risk.AmountOf, Risk.CapOf, Risk.FindLimit, Risk.Missing, Risk.SimulationFinding,
      NumberIs, Risk.KeyOf, Risk.ApprovalText, Lower;
    var t := s.(caps := s.caps.(gas := cap));
    PolicyOrder.ChecksEmptyIff(m, s, e);
    PolicyOrder.ChecksEmptyIff(m, t, e);
  }

  lemma RunIff(c: Catalog, name: string, args: seq<Field>, t: Transport, config: Config, s: Snapshot, node: NodeAnswers,
               signer: Option<string>, reviewer: Reviewer)
    requires name in c.registry && Fetched(t, config) == Ok(s)
    ensures RunCovered(c, name, args, t, config, node, signer, reviewer) == Gated(Allow) <==>
              OtherwiseClear(c, name, ConsentFor(name, args, signer), true, reviewer) &&
              Risk.Checks(c.registry[name], s, RunEvidence(c, name, args, node)) == []
  {
    hide Cover, Evidence, ConsentFor, SimulationFor, Fetched, Risk.Checks, OtherwiseClear;
    CoverIff(c, name, args, MONAD_CONTEXT, Contract(t, config), s, SimulationFor(name, node), ConsentFor(name, args, signer), true, reviewer);
  }

  /** The runner's simulation never brings a gas cost, so the contract's gas cap binds nothing but the
      `estimated_gas_cost_wei` that the host itself puts among the arguments: an allowed call stays allowed under
      another gas cap exactly when that argument is not truthy, cannot be read, or is within the new cap. */
  lemma GasCapIff(c: Catalog, name: string, args: seq<Field>, t: Transport, config: Config, node: NodeAnswers, signer: Option<string>,
                  reviewer: Reviewer, g: nat)
    requires RunCovered(c, name, args, t, config, node, signer, reviewer) == Gated(Allow)
    requires name in c.registry && ComparesArguments(c.registry[name])
    ensures RunCovered(c, name, args, WithGasCap(t, g), config, node, signer, reviewer) == Gated(Allow) <==>
              (GasArgument(ArgsOf(args)).Some? ==> GasArgument(ArgsOf(args)).value <= g)
  {
    hide RunCovered, RunEvidence, ConsentFor, Fetched, WithGasCap, Risk.Checks, ArgsOf, ComparesArguments, Risk.AmountOf, Risk.CapOf,
      OtherwiseClear, Truthy, IntText;
    var (m, e) := (c.registry[name], RunEvidence(c, name, args, node));
    RunFetched(c, name, args, t, config, node, signer, reviewer);
    var s := Fetched(t, config).value;
    FetchedWithGasCap(t, config, g);
    RunIff(c, name, args, t, config, s, node, signer, reviewer);
    RunIff(c, name, args, WithGasCap(t, g), config, s.(caps := s.caps.(gas := IntText(g))), node, signer, reviewer);
    ChecksWithGasCap(m, s, e, IntText(g));
    GasIsArgument(c, name, args, node);
  }

  lemma RunFetched(c: Catalog, name: string, args: seq<Field>, t: Transport, config: Config, node: NodeAnswers, signer: Option<string>,
                   reviewer: Reviewer)
    requires RunCovered(c, name, args, t, config, node, signer, reviewer) == Gated(Allow)
    ensures Fetched(t, config).Ok?
  {
    RunForwarded(c, name, args, t, config, node, signer, reviewer);
    hide RunCovered, Fetched, Readable, Acceptable, RawOf, MeetsRaw;
    FetchedIff(t, config);
  }

  /** None of the runner's four mutations, where it transfers, approves or signs, is allowed unless the node accepted
      the call and estimated its gas. */
  lemma AllowedSimulated(c: Catalog, name: string, args: seq<Field>, t: Transport, config: Config, node: NodeAnswers, signer: Option<string>,
                         reviewer: Reviewer)
    requires RunCovered(c, name, args, t, config, node, signer, reviewer) == Gated(Allow)
    requires name in {"send_transaction", "transfer_token", "approve_token", "sign_typed_data"}
    requires name in c.registry && WriteClass(c.registry[name].toolClass)
    ensures Simulates(node)
  {
    hide Cover, ArgsOf, ConsentFor, Report, FieldOf, Truthy, WriteClass;
    ReportIs(node);
    ForwardedSimulated(c, name, args, MONAD_CONTEXT, Contract(t, config), SimulationFor(name, node), ConsentFor(name, args, signer), true,
                       reviewer);
    assert CheckedSimulation(c.registry[name].toolClass, ArgsOf(args), SimulationFor(name, node)) == Some(Report(node));
  }

  /** The runner gives no rule key, so it allows a signature only if the host's own arguments have one. */
  lemma AllowedSignature(c: Catalog, name: string, args: seq<Field>, t: Transport, config: Config, node: NodeAnswers, signer: Option<string>,
                         reviewer: Reviewer)
    requires RunCovered(c, name, args, t, config, node, signer, reviewer) == Gated(Allow)
    requires name in c.registry && c.registry[name].toolClass == "signature"
    requires "typed_data_rule_key" !in c.registry[name].requiredEvidence && "simulation" !in c.registry[name].requiredEvidence
    ensures TruthyAt(ArgsOf(args), "typed_data_rule_key")
  {
    hide Cover, ArgsOf, ConsentFor, SimulationFor, CheckedSimulation, Truthy, ConsentGiven;
    ForwardedSignature(c, name, args, MONAD_CONTEXT, Contract(t, config), SimulationFor(name, node), ConsentFor(name, args, signer), true,
                       reviewer);
  }

  // ----- The runner's evidence is JSON

  predicate JsonFields(fields: seq<Field>) {
    forall i | 0 <= i < |fields| :: IsJson(fields[i].value)
  }

  lemma {:induction false} ArgsJson(args: seq<Field>)
    requires JsonFields(args)
    ensures JsonRecord(ArgsOf(args))
  {
    hide IsJson;
    if args != [] { ArgsJson(args[..|args| - 1]); }
  }

  lemma SetJson(e: Record, key: string, v: Value)
    requires JsonRecord(e) && IsJson(v)
    ensures JsonRecord(e[key := v])
  {
  }

  lemma {:induction false} FlattenOneJson(e: Record, prefix: string, fields: seq<Field>)
    requires JsonRecord(e) && JsonFields(fields)
    ensures JsonRecord(FlattenOne(e, prefix, fields))
    decreases |fields|
  {
    hide IsJson;
    if fields != [] {
      var name := prefix + "." + fields[0].key;
      FlattenOneJson(if Given(e, name) then e else e[name := fields[0].value], prefix, fields[1..]);
    }
  }

  lemma {:induction false} FlattenJson(e: Record, args: seq<Field>)
    requires JsonRecord(e) && JsonFields(args)
    ensures JsonRecord(Flatten(e, args))
    decreases |args|
  {
    if args != [] {
      var v := args[0].value;
      assert IsJson(v) && (v.Obj? ==> JsonFields(v.fields));
      hide IsJson, FlattenOne;
      if v.Obj? { FlattenOneJson(e, args[0].key, v.fields); }
      FlattenJson(if v.Obj? then FlattenOne(e, args[0].key, v.fields) else e, args[1..]);
    }
  }

  lemma {:induction false} MarkJson(e: Record, names: seq<string>)
    requires JsonRecord(e)
    ensures JsonRecord(Mark(e, names))
    decreases |names|
  {
    hide Risk.Optional;
    if names != [] { MarkJson(if !Risk.Optional(names[0]) && !Given(e, names[0]) then e[names[0] := Bool(true)] else e, names[1..]); }
  }

  lemma LoweredJson(v: Value)
    requires IsJson(v)
    ensures IsJson(Lowered(v))
  {
  }

  lemma LowerJson(e: Record, args: Record, key: string)
    requires JsonRecord(e) && JsonRecord(args)
    ensures JsonRecord(SetLower(e, args, key))
  {
    if TruthyAt(args, key) { LoweredJson(args[key]); }
  }

  lemma TextJson(s: string)
    ensures IsJson(Str(s)) && IsJson(Bool(true)) && IsJson(Bool(false))
  {
  }

  lemma CoreJson(e: Record, args: Record)
    requires JsonRecord(e) && JsonRecord(args)
    ensures JsonRecord(TransferCore(e, args))
  {
    var recipient := RecipientOf(args);
    assert JsonOption(recipient);
    hide IsJson, TextOf, Truthy, RecipientOf, SetLower, Lowered;
    if recipient.Some? { LoweredJson(recipient.value); }
    LowerJson(if recipient.Some? && Truthy(recipient.value) then e["recipient" := Lowered(recipient.value)] else e, args, "token");
    forall s: string ensures IsJson(Str(s)) { TextJson(s); }
  }

  lemma TransferJson(e: Record, args: Record, simulation: Option<Value>)
    requires JsonRecord(e) && JsonRecord(args) && JsonOption(simulation)
    ensures JsonRecord(TransferEvidence(e, args, simulation))
  {
    hide IsJson, TextOf, Truthy, GasCostOf, TransferCore;
    CoreJson(e, args);
    forall s: string ensures IsJson(Str(s)) { TextJson(s); }
  }

  lemma ApprovalJson(e: Record, args: Record, simulation: Option<Value>)
    requires JsonRecord(e) && JsonRecord(args) && JsonOption(simulation)
    ensures JsonRecord(ApprovalEvidence(e, args, simulation))
  {
    hide IsJson, TextOf, Truthy, SetLower, Lower;
    LowerJson(e, args, "token");
    LowerJson(SetLower(e, args, "token"), args, "spender");
    forall s: string ensures IsJson(Str(s)) { TextJson(s); }
    TextJson("");
  }

  lemma ClassJson(class_: string, e: Record, args: Record, ctx: Context, simulation: Option<Value>)
    requires JsonRecord(e) && JsonRecord(args) && JsonOption(simulation) && JsonOption(ctx.typedDataRuleKey)
    ensures JsonRecord(ClassEvidence(class_, e, args, ctx, simulation))
  {
    hide IsJson, Truthy, SetLower, TransferEvidence, ApprovalEvidence;
    TransferJson(e, args, simulation);
    ApprovalJson(e, args, simulation);
    TextJson("");
    var marked := e["sanitized_address_or_account_context" := Bool(true)];
    LowerJson(marked, args, "token");
  }

  lemma ChainJson(args: Record)
    ensures ChainIdOf(args, MONAD_CONTEXT) == Num("10143") && IsJson(Num("10143")) && IsJson(Obj([Field("chain_id", Num("10143"))]))
  {
    assert CanonicalDecimal("10143");
  }

  /** A host's arguments, which are JSON, give evidence that is JSON, so the digest and the key are defined. */
  lemma EvidenceIsJson(c: Catalog, name: string, args: seq<Field>, node: NodeAnswers)
    requires IsJson(Obj(args))
    ensures JsonRecord(RunEvidence(c, name, args, node))
  {
    assert JsonFields(args);
    ArgsJson(args);
    ReportIs(node);
    ReportJson(StatusFor(node, NoFee));
    ChainJson(ArgsOf(args));
    hide IsJson, Flatten, Mark, ClassEvidence, Report, ArgsOf, ChainIdOf, StatusReport;
    var base := BaseEvidence(args, MONAD_CONTEXT);
    FlattenJson(base, args);
    if name in c.registry {
      var m := c.registry[name];
      MarkJson(Flatten(base, args), m.requiredEvidence);
      ClassJson(m.toolClass, Mark(Flatten(base, args), m.requiredEvidence), ArgsOf(args), MONAD_CONTEXT, SimulationFor(name, node));
    }
  }

  lemma ReportJson(status: string)
    ensures IsJson(StatusReport(status))
  {
    TextJson(status);
  }

  // ----- The runner, and a call seen from the host

  /** The key under which the store holds the runner's call. */
  function RunKey(c: Catalog, name: string, args: seq<Field>, node: NodeAnswers): string
    requires IsJson(Obj(args)) && name in c.registry
  {
    hide RunEvidence, P.Key;
    EvidenceIsJson(c, name, args, node);
    P.Key(P.ToolCall(name, c.registry[name].inputSchemaHash, Obj(args), RunEvidence(c, name, args, node)))
  }

  /** How the runner ends and what the store then holds: the store is touched only by an allowed call of an
      idempotent class, and the upstream is asked at most once for each of its keys. */
  ghost predicate RunEnds(c: Catalog, name: string, args: seq<Field>, covered: Covered, node: NodeAnswers, before: S.Entries,
                          after: S.Entries, answer: S.Outcome, ending: GuardedCall.Ending, asked: bool)
    requires IsJson(Obj(args))
  {
    hide RunKey;
    match covered
    case ConsentMissing => ending == GuardedCall.Skipped && !asked && after == before
    case Gated(Block(code)) => ending == GuardedCall.Blocked(code) && !asked && after == before
    case Gated(Allow) =>
      name in c.registry &&
      if c.registry[name].toolClass in {"transaction_execute", "token_approval", "contract_write"} then
        GuardedCall.RanOnce(before, after, RunKey(c, name, args, node), answer, ending, asked)
      else asked && GuardedCall.Ends(answer, ending) && after == before
  }

  method RunGuarded(c: Catalog, name: string, args: seq<Field>, t: Transport, config: Config, node: NodeAnswers, signer: Option<string>,
                    reviewer: Reviewer, store: S.Store, promise: nat, answer: S.Outcome)
    returns (ending: GuardedCall.Ending, asked: bool)
    requires IsJson(Obj(args))
    modifies store
    ensures RunEnds(c, name, args, RunCovered(c, name, args, t, config, node, signer, reviewer), node, old(store.entries), store.entries,
                    answer, ending, asked)
  {
    hide Evidence, IsJson, Gate, ConsentGiven, Hash, Digest, DigestClass, SimulationFor, ConsentFor, Cleared,
      GuardedCall.RanOnce, ResolveCall, PolicyFrom, P.Key;
    var m := SemanticsOf(c, name);
    if m.Some? && DigestClass(m.value.toolClass) && !ConsentGiven(ConsentFor(name, args, signer)) {
      return GuardedCall.Skipped, false;
    }
    var hash := if m.Some? then m.value.inputSchemaHash else "";
    EvidenceIsJson(c, name, args, node);
    CallSemantics(c, name, hash);
    ClearedVisible(ResolveCall(c, name, hash), PolicyFrom(Contract(t, config)), RunEvidence(c, name, args, node), true, reviewer);
    ending, asked := GuardedCall.GuardedToolCall(c, name, hash, Obj(args), RunEvidence(c, name, args, node), Contract(t, config), true, reviewer,
                                                 store, promise, answer);
  }

  /** What the interceptor is given; `joined` is how the promise of a running call with the same key settles. */
  function AnswerOf(ending: GuardedCall.Ending, joined: S.Outcome): RunnerAnswer {
    match ending
    case Blocked(code) => Refused(code)
    case Skipped => HostTools.Skipped
    case Allowed(v, _) => Passed(v)
    case Raised(_) => RunnerThrew
    case Waits(_) => (match joined case Fulfilled(v) => Passed(v) case Threw(_) => RunnerThrew)
  }

  /** Where a forwarded value comes from: from the upstream, asked by this very call, or from the store, which then
      held it under this call's key or had another call of that key running, whose promise was joined. */
  ghost predicate ComesFrom(key: Option<string>, before: S.Entries, after: S.Entries, answer: S.Outcome, joined: S.Outcome, v: Value, asked: bool) {
    match key
    case None => asked && answer == S.Fulfilled(v) && after == before
    case Some(k) =>
      if k !in before then asked && answer == S.Fulfilled(v) && after == before[k := S.Done(v)]
      else !asked && after == before && (before[k] == S.Done(v) || (before[k].Pending? && joined == S.Fulfilled(v)))
  }

  function KeyFor(c: Catalog, name: string, args: seq<Field>, node: NodeAnswers): Option<string>
    requires IsJson(Obj(args)) && name in c.registry
  {
    hide RunKey;
    if c.registry[name].toolClass in {"transaction_execute", "token_approval", "contract_write"} then Some(RunKey(c, name, args, node)) else None
  }

  /** What an allowed call comes to: the upstream's answer when it is asked, otherwise what the store recorded, or what the
      joined call comes to. */
  function OutcomeOf(key: Option<string>, before: S.Entries, answer: S.Outcome, joined: S.Outcome): S.Outcome {
    if key.None? || key.value !in before then answer
    else match before[key.value] case Done(v) => S.Fulfilled(v) case Failed(e) => S.Threw(e) case Pending(_) => joined
  }

  /** What the host is told of a call that reaches the runner. */
  function Told(covered: Covered, outcome: S.Outcome): Intercepted {
    match covered
    case ConsentMissing => Failed("MISSING_REQUIRED_EVIDENCE")
    case Gated(Block(code)) => Failed(code)
    case Gated(Allow) => (match outcome case Fulfilled(v) => Forwarded(v) case Threw(_) => Failed("UPSTREAM_ERROR"))
  }

  /** The runner's key in the store, where it has one. */
  function StoredKey(c: Catalog, name: string, args: seq<Field>, node: NodeAnswers): Option<string>
    requires IsJson(Obj(args))
  {
    hide KeyFor;
    if name in c.registry then KeyFor(c, name, args, node) else None
  }

  lemma RunTold(c: Catalog, name: string, args: seq<Field>, covered: Covered, node: NodeAnswers, before: S.Entries, after: S.Entries,
                answer: S.Outcome, joined: S.Outcome, ending: GuardedCall.Ending, asked: bool)
    requires IsJson(Obj(args)) && RunEnds(c, name, args, covered, node, before, after, answer, ending, asked)
    ensures var (runner, told) := (AnswerOf(ending, joined), Told(covered, OutcomeOf(StoredKey(c, name, args, node), before, answer, joined)));
            && (told == match runner
                        case Passed(v) => Forwarded(v)
                        case Refused(code) => Failed(code)
                        case Skipped => Failed("MISSING_REQUIRED_EVIDENCE")
                        case RunnerThrew => Failed("UPSTREAM_ERROR"))
            && (runner.Passed? ==>
                  covered == Gated(Allow) && name in c.registry &&
                  ComesFrom(KeyFor(c, name, args, node), before, after, answer, joined, runner.value, asked))
            && (!asked ==> after == before)
            && (asked ==> if answer.Fulfilled? then told == Forwarded(answer.value) else told == Failed("UPSTREAM_ERROR"))
  {
    hide RunKey, IsJson;
  }

  /** When a host's call is forwarded through the guarded runner, the tool was on the host's list, coverToolCall
      allowed the call, its tool and evidence meet the raw contract reads, and the value is the upstream's answer
      to this call or to one of the same key; the interceptor left its two audit events.  An upstream that was not
      asked leaves the store as it was, and one that was asked without result reads as an upstream error. */
  method HandleGuardedCall(i: CallInterceptor, name: string, args: Option<seq<Field>>, t: Transport, config: Config, node: NodeAnswers,
                           signer: Option<string>, reviewer: Reviewer, store: S.Store, promise: nat, answer: S.Outcome, joined: S.Outcome)
    returns (r: Intercepted, asked: bool)
    requires i.guarded && (args.Some? ==> IsJson(Obj(args.value)))
    modifies store, i`audit, i`handed
    ensures r.Forwarded? ==>
              args.Some? && MeetsContract(i.catalog, name, args.value, t, config, node) &&
              RunCovered(i.catalog, name, args.value, t, config, node, signer, reviewer) == Gated(Allow) &&
              ComesFrom(KeyFor(i.catalog, name, args.value, node), old(store.entries), store.entries, answer, joined, r.value, asked)
    ensures r.Forwarded? && WellKeyed(i.catalog) && NoMetaTools(i.catalog) && DistinctNames(i.inventory) ==>
              name in HostExposed(i.catalog, i.inventory, true)
    ensures args.Some? && i.PlanOf(name, true).Forward? && i.connected ==>
              r == Told(RunCovered(i.catalog, name, args.value, t, config, node, signer, reviewer),
                        OutcomeOf(StoredKey(i.catalog, name, args.value, node), old(store.entries), answer, joined))
    ensures !asked ==> store.entries == old(store.entries)
    ensures asked ==> if answer.Fulfilled? then r == Forwarded(answer.value) else r == Failed("UPSTREAM_ERROR")
    ensures |i.audit| == |old(i.audit)| + 2 && i.audit[..|old(i.audit)|] == old(i.audit)
    ensures r.Forwarded? <==> i.audit[|old(i.audit)| + 1] == FORWARDED
  {
    hide RunCovered, RunEvidence, MeetsRaw, Readable, Acceptable, PlanCall, HostExposed, WellKeyed, NoMetaTools, DistinctNames, RawOf, RunKey,
      IsJson, RunEnds, AnswerOf, Told, OutcomeOf, ComesFrom, KeyFor, StoredKey;
    asked := false;
    var runner := HostTools.Skipped;
    if args.Some? && i.PlanOf(name, true).Forward? && i.connected {
      var ending;
      ending, asked := RunGuarded(i.catalog, name, args.value, t, config, node, signer, reviewer, store, promise, answer);
      runner := AnswerOf(ending, joined);
      RunTold(i.catalog, name, args.value, RunCovered(i.catalog, name, args.value, t, config, node, signer, reviewer), node,
              old(store.entries), store.entries, answer, joined, ending, asked);
    }
    r := i.HandleUpstreamCall(name, args.Some?, runner, None);
    DistinctActions();
    if r.Forwarded? { RunForwarded(i.catalog, name, args.value, t, config, node, signer, reviewer); }
  }

  lemma DistinctActions()
    ensures "tool_call_forwarded" != "tool_call_blocked" && "tool_call_forwarded" != "upstream_error"
    ensures "tool_call_forwarded" != "upstream_unavailable"
  {
    assert |"tool_call_forwarded"| == 19 && |"tool_call_blocked"| == 17 && |"upstream_error"| == 14 && |"upstream_unavailable"| == 20;
  }
}
