/** What the rule key of a forwarded signature may be. */
module SignatureGap {
  import opened Values
  import opened Text
  import opened Coercions
  import opened ToolSemantics
  import opened PolicyDecision
  import opened PolicySnapshot
  import opened GuardedForward
  import opened ActionCoverage
  import opened CoverageSafety
  import opened AmountGaps
  import opened RequiredArguments
  import opened WalletTools
  import AmountWitness
  import PolicyOrder
  import Risk

  const RULE_KEY := "typed_data_rule_key"

  /** The second record differs from the first at most in its rule key, which is truthy. */
  ghost predicate RuleOnly(e: Record, e': Record) {
    TruthyAt(e', RULE_KEY) && forall k: string :: k != RULE_KEY ==> Get(e', k) == Get(e, k)
  }

  /** Nothing but the rule key's being truthy matters to the checks. */
  lemma RuleOnlyChecks(m: Semantics, s: Snapshot, r: seq<Rule<Option<string>>>, e: Record, e': Record)
    requires m.toolClass == "signature" && Risk.Checks(m, s, e) == [] && RuleOnly(e, e')
    ensures Risk.Checks(m, s.(rules := r), e') == []
  {
    var t := s.(rules := r);
    RuleOnlyNames(e, e');
    RuleOnlyGiven(e, e');
    hide Risk.Checks, Risk.ContextChecks, RuleOnly, Truthy, Risk.AmountOf, Risk.CapOf, NumberIs, Risk.KeyOf, Lower, FieldOf;
    PolicyOrder.ChecksEmptyIff(m, s, e);
    PolicyOrder.ChecksEmptyIff(m, t, e');
    PolicyOrder.ContextEmptyIff(m, s, e);
    PolicyOrder.ContextEmptyIff(m, t, e');
    assert |"signature"| == 9 && |"token_approval"| == 14;
  }

  lemma RuleOnlyNames(e: Record, e': Record)
    requires RuleOnly(e, e')
    ensures Get(e', "chain_id") == Get(e, "chain_id") && Get(e', "simulation") == Get(e, "simulation")
    ensures Get(e', "recipient") == Get(e, "recipient") && Get(e', "token") == Get(e, "token")
    ensures Get(e', "estimated_gas_cost_wei") == Get(e, "estimated_gas_cost_wei") && Risk.AmountEvidence(e') == Risk.AmountEvidence(e)
    ensures TruthyAt(e', RULE_KEY)
  {
    hide Truthy;
    assert |RULE_KEY| == 19 && |"chain_id"| == 8 && |"simulation"| == 10 && |"recipient"| == 9 && |"token"| == 5;
    assert |"estimated_gas_cost_wei"| == 22 && |"amount_atomic"| == 13 && |"amount_wei"| == 10 && |"amount"| == 6;
    assert Get(e', "amount_atomic") == Get(e, "amount_atomic") && Get(e', "amount_wei") == Get(e, "amount_wei");
    assert Get(e', "amount") == Get(e, "amount");
  }

  lemma RuleOnlyGiven(e: Record, e': Record)
    requires RuleOnly(e, e')
    ensures forall names :: PolicyOrder.AllGiven(e, names) ==> PolicyOrder.AllGiven(e', names)
  {
    forall n | Risk.HasEvidence(e, n) ensures Risk.HasEvidence(e', n) { RuleOnlyHas(e, e', n); }
  }

  lemma RuleOnlyHas(e: Record, e': Record, n: string)
    requires RuleOnly(e, e') && Risk.HasEvidence(e, n)
    ensures Risk.HasEvidence(e', n)
  {
    forall k: string | Given(e, k) ensures Given(e', k) {
      if k != RULE_KEY { assert Get(e', k) == Get(e, k); } else { LoweredNull(e'[RULE_KEY]); }
    }
  }

  lemma RuleReplaced(m: Semantics, args: seq<Field>, ctx: Context, simulation: Option<Value>, v: Value)
    requires m.toolClass == "signature" && "typed_data_rule_key" !in m.requiredEvidence
    requires Given(ArgsOf(args), RULE_KEY) && Fits(args, RULE_KEY, v) && Truthy(v)
    ensures RuleOnly(Evidence(Some(m), args, ctx, simulation), Evidence(Some(m), WithArgument(args, RULE_KEY, v), ctx, simulation))
  {
    hide Flatten, Mark, BaseEvidence, ArgsOf, SignatureEvidence, Truthy, FlatAt;
    var args' := WithArgument(args, RULE_KEY, v);
    assert |RULE_KEY| == 19 && |"chainId"| == 7 && |"chain_id"| == 8 && |"chain_evidence"| == 14;
    MarkedWith(m, args, ctx, RULE_KEY, v);
    assert ArgsOf(args')[RULE_KEY] == v && TruthyAt(ArgsOf(args'), RULE_KEY);
    SignatureFacts(m, args', ctx, simulation);
    SignatureStage(Marked(m, args, ctx), ArgsOf(args), ctx, simulation, v);
    assert |"signature"| == 9 && |"transaction_execute"| == 19 && |"token_approval"| == 14 && "signature"[0] != "read_only"[0];
    assert Evidence(Some(m), args, ctx, simulation) == SignatureEvidence(Marked(m, args, ctx), ArgsOf(args), ctx, simulation);
    assert Evidence(Some(m), args', ctx, simulation) ==
           SignatureEvidence(Marked(m, args, ctx)[RULE_KEY := v], ArgsOf(args)[RULE_KEY := v], ctx, simulation);
    var (e, e') := (Evidence(Some(m), args, ctx, simulation), Evidence(Some(m), args', ctx, simulation));
    assert TruthyAt(e', RULE_KEY);
    hide Evidence, Get, TruthyAt;
    assert forall k: string :: k != RULE_KEY ==> Get(e', k) == Get(e, k);
    assert RuleOnly(e, e');
  }

  lemma SignatureStage(before: Record, a: Record, ctx: Context, simulation: Option<Value>, v: Value)
    ensures var (e, e') := (SignatureEvidence(before, a, ctx, simulation),
                            SignatureEvidence(before[RULE_KEY := v], a[RULE_KEY := v], ctx, simulation));
            forall k: string :: k != RULE_KEY ==> Get(e', k) == Get(e, k)
  {
    hide Truthy;
    assert |RULE_KEY| == 19 && |"simulation"| == 10;
  }

  /** The rule key of a signature is compared with nothing: a forwarded one that has the argument stays forwarded with
      any other truthy value there, and whatever rules the policy lists. */
  lemma RuleKeyPasses(c: Catalog, name: string, args: seq<Field>, ctx: Context, s: Snapshot, r: seq<Rule<Option<string>>>,
                      simulation: Option<Value>, consent: Option<Value>, audited: bool, reviewer: Reviewer, v: Value)
    requires name in c.registry && c.registry[name].toolClass == "signature" && "typed_data_rule_key" !in c.registry[name].requiredEvidence
    requires Given(ArgsOf(args), RULE_KEY) && Fits(args, RULE_KEY, v) && Truthy(v)
    requires Cover(c, name, args, ctx, Supplied(s), simulation, consent, audited, reviewer) == Gated(Allow)
    ensures Cover(c, name, WithArgument(args, RULE_KEY, v), ctx, Supplied(s.(rules := r)), simulation, consent, audited, reviewer) ==
              Gated(Allow)
  {
    hide Cover, Evidence, Risk.Checks, RuleOnly, OtherwiseClear, ArgsOf, Truthy;
    var (m, args') := (c.registry[name], WithArgument(args, RULE_KEY, v));
    CoverIff(c, name, args, ctx, Supplied(s), s, simulation, consent, audited, reviewer);
    CoverIff(c, name, args', ctx, Supplied(s.(rules := r)), s.(rules := r), simulation, consent, audited, reviewer);
    RuleReplaced(m, args, ctx, simulation, v);
    RuleOnlyChecks(m, s, r, Evidence(Some(m), args, ctx, simulation), Evidence(Some(m), args', ctx, simulation));
  }

  // ----- A signature that no rule of the contract covers

  function SignArgs(): seq<Field> {
    [Field("domain", Str("d")), Field("types", Str("t")), Field("primaryType", Str("p")), Field("message", Str("m")),
     Field(RULE_KEY, Str("any"))]
  }

  function SignedEvidence(): Record {
    Evidence(Some(SignTool()), SignArgs(), AmountWitness.NO_CONTEXT, Some(AmountWitness.SIMULATION))
  }

  lemma SignArgsAre()
    ensures var a := ArgsOf(SignArgs());
            && a.Keys == {"domain", "types", "primaryType", "message", RULE_KEY}
            && (forall k | k in a :: Truthy(a[k])) && (forall k | k in a :: a[k].Str?)
  {
    var l := SignArgs();
    assert l[..4][..3] == l[..3] && l[..3][..2] == l[..2] && l[..2][..1] == l[..1] && l[..1][..0] == [] && l[..5] == l;
    hide Truthy;
    assert Truthy(Str("d")) && Truthy(Str("t")) && Truthy(Str("p")) && Truthy(Str("m")) && Truthy(Str("any")) by { TruthyTexts(); }
    assert ArgsOf(l[..1]) == map["domain" := Str("d")];
    assert ArgsOf(l[..2]) == ArgsOf(l[..1])["types" := Str("t")];
    assert ArgsOf(l[..3]) == ArgsOf(l[..2])["primaryType" := Str("p")];
    assert ArgsOf(l[..4]) == ArgsOf(l[..3])["message" := Str("m")];
    assert ArgsOf(l) == ArgsOf(l[..4])[RULE_KEY := Str("any")];
  }

  lemma TruthyTexts()
    ensures Truthy(Str("d")) && Truthy(Str("t")) && Truthy(Str("p")) && Truthy(Str("m")) && Truthy(Str("any"))
  {
  }

  lemma SignFieldGiven(field: string)
    requires field in SignTool().requiredFields
    ensures Risk.HasEvidence(SignedEvidence(), field)
  {
    var m := SignTool();
    WalletCompares(m);
    SignFields(field);
    SignArgsAre();
    ShortPlain(m, field);
    hide SignTool, Evidence, ArgsOf, GivenBy, Truthy, PlainField;
    assert field in ArgsOf(SignArgs());
    SuppliedIff(m, SignArgs(), AmountWitness.NO_CONTEXT, Some(AmountWitness.SIMULATION), field);
    UndottedGiven(SignArgs(), field);
  }

  lemma SignFields(field: string)
    requires field in SignTool().requiredFields
    ensures field in {"domain", "types", "primaryType", "message"} && 0 < |field| <= 11 && '_' !in field && Undotted(field)
    ensures field != "recipient" && field != "simulation" && field != "amount" && field[|field| - 1] != '?'
  {
    assert |"recipient"| == 9 && |"simulation"| == 10 && "domain"[0] != "amount"[0] && |"domain"| == 6;
  }

  lemma SignToolIs()
    ensures SignTool().toolClass == "signature" && SignTool().toolName == "sign_typed_data" && WalletTool(SignTool())
    ensures ComparesArguments(SignTool()) && "simulation" !in SignTool().requiredEvidence
    ensures "typed_data_rule_key" !in SignTool().requiredEvidence && "chain_id" !in SignTool().requiredEvidence
  {
    assert |"chain_id"| == 8;
    EvidenceNames(SignTool());
    WalletCompares(SignTool());
  }

  lemma SignLacks(key: string)
    requires key in {"recipient", "token", "amount", "amount_atomic", "amount_wei"}
    ensures Get(SignedEvidence(), key) == None
  {
    var (m, ctx, simulation) := (SignTool(), AmountWitness.NO_CONTEXT, Some(AmountWitness.SIMULATION));
    SignToolIs();
    SignArgsAre();
    Apart();
    hide SignTool, SignArgs, WalletTool, Flatten, Mark, BaseEvidence, ArgsOf, Truthy, ComparesArguments, Undotted;
    ComparedNames(m);
    UndottedNames();
    MarkedIsArgument(m, SignArgs(), ctx, key);
  }

  lemma SignHas()
    ensures var e := SignedEvidence();
            && TruthyAt(e, RULE_KEY) && Get(e, "simulation") == Some(AmountWitness.SIMULATION)
  {
    var (m, ctx, simulation) := (SignTool(), AmountWitness.NO_CONTEXT, Some(AmountWitness.SIMULATION));
    SignToolIs();
    SignArgsAre();
    AmountWitness.Status();
    hide SignTool, SignArgs, WalletTool, Evidence, ArgsOf, Truthy, ComparesArguments, FieldOf;
    SignatureFacts(m, SignArgs(), ctx, simulation);
    SimulationFacts(m, SignArgs(), ctx, simulation);
  }

  lemma SignChain()
    ensures var e := SignedEvidence();
            && Get(e, "estimated_gas_cost_wei") == None && Given(e, "chain_id") && NumberIs(e["chain_id"], 10143)
  {
    var (m, ctx, simulation) := (SignTool(), AmountWitness.NO_CONTEXT, Some(AmountWitness.SIMULATION));
    SignToolIs();
    SignArgsAre();
    Apart();
    AmountWitness.Status();
    hide SignTool, SignArgs, WalletTool, Evidence, ArgsOf, Truthy, ComparesArguments, NumberIs, FieldOf;
    GasFacts(m, SignArgs(), ctx, simulation);
    ChainFacts(m, SignArgs(), ctx, simulation);
  }

  lemma SignGiven()
    ensures PolicyOrder.AllGiven(SignedEvidence(), SignTool().requiredFields)
    ensures PolicyOrder.AllGiven(SignedEvidence(), SignTool().requiredEvidence)
  {
    hide SignTool, SignArgs, Evidence;
    RequiredEvidenceGiven(SignTool(), SignArgs(), AmountWitness.NO_CONTEXT, Some(AmountWitness.SIMULATION));
    hide SignedEvidence;
    SignedIs();
    forall n | n in SignTool().requiredFields ensures Risk.HasEvidence(SignedEvidence(), n) { SignFieldGiven(n); }
  }

  /** At a contract without rules, whose caps are zero, the checks find nothing. */
  lemma SignSilent(s: Snapshot)
    requires Risk.KeyOf("sign_typed_data") in s.tools
    ensures Risk.Checks(SignTool(), s, SignedEvidence()) == []
  {
    var (m, e) := (SignTool(), SignedEvidence());
    SignToolIs();
    AmountWitness.Status();
    hide SignTool, WalletTool, ComparesArguments, Evidence, SignedEvidence, Risk.Checks, Risk.ContextChecks, PolicyOrder.AllGiven, Risk.KeyOf,
      NumberIs, Truthy, FieldOf;
    SignGiven();
    SignHas();
    SignChain();
    SignLacks("recipient");
    SignLacks("token");
    SignLacks("amount");
    SignLacks("amount_atomic");
    SignLacks("amount_wei");
    PolicyOrder.ContextEmptyIff(m, s, e);
    PolicyOrder.ChecksEmptyIff(m, s, e);
    NothingFound(m, s, e);
  }

  lemma SignedIs()
    ensures SignedEvidence() == Evidence(Some(SignTool()), SignArgs(), AmountWitness.NO_CONTEXT, Some(AmountWitness.SIMULATION))
  {
  }

  lemma NothingFound(m: Semantics, s: Snapshot, e: Record)
    requires m.toolClass == "signature" && Get(e, "recipient") == None && Get(e, "token") == None
    requires Get(e, "amount") == None && Get(e, "amount_atomic") == None && Get(e, "amount_wei") == None
    requires Get(e, "estimated_gas_cost_wei") == None
    ensures Risk.ListedIn(e, "recipient", s.recipients) && Risk.ListedIn(e, "token", s.tokens)
    ensures Risk.AmountFinding(m, s, e) == [] && Risk.GasFinding(s, e) == [] && Risk.ApprovalFindings(m, s, e) == []
  {
    hide Truthy, Lower;
    Apart();
  }

  lemma NoRules()
    ensures AmountWitness.ZeroRaw("sign_typed_data").rules == []
  {
    hide Risk.KeyOf;
  }

  /** A signature with the rule key "any" is forwarded at a contract that lists no rule at all. */
  lemma UncoveredSignatureForwarded()
    ensures AmountWitness.ForwardedAtZero(SignTool(), SignArgs())
    ensures AmountWitness.ZeroRaw("sign_typed_data").rules == []
  {
    var m := SignTool();
    SignToolIs();
    NoRules();
    hide SignTool, SignArgs, WalletTool, ComparesArguments, AmountWitness.ZeroRaw, AmountWitness.Forwarded, Fetched, AmountWitness.ZeroContract, AmountWitness.ZeroConfig, RawOf, Acceptable, Risk.Checks,
      Evidence, Risk.KeyOf;
    AmountWitness.ZeroRead(m.toolName);
    AmountWitness.ZeroAcceptable(m.toolName);
    var s := AmountWitness.ZeroFetched(m.toolName);
    SignSilent(s);
    AmountWitness.ForwardedIff(m, SignArgs(), Contract(AmountWitness.ZeroContract(m.toolName), AmountWitness.ZeroConfig()), s);
  }

  /** The names that the arguments do not have, and those of the signature's branch. */
  lemma Apart()
    ensures {"recipient", "token", "amount", "amount_atomic", "amount_wei", "chainId", "estimated_gas_cost_wei"} !!
            {"domain", "types", "primaryType", "message", RULE_KEY, "simulation", "chain_id", "chain_evidence"}
    ensures "signature" != "transaction_execute" && "signature" != "token_approval" && "signature" != "read_only"
  {
    assert |"signature"| == 9 && |"transaction_execute"| == 19 && |"token_approval"| == 14 && "signature"[0] != "read_only"[0];
    assert |"recipient"| == 9 && |"token"| == 5 && |"amount"| == 6 && |"amount_atomic"| == 13 && |"amount_wei"| == 10 && |"chainId"| == 7;
    assert |"estimated_gas_cost_wei"| == 22 && |"domain"| == 6 && |"types"| == 5 && |"primaryType"| == 11 && |"message"| == 7;
    assert |RULE_KEY| == 19 && |"simulation"| == 10 && |"chain_id"| == 8 && |"chain_evidence"| == 14;
    assert "amount"[0] != "domain"[0] && "token"[1] != "types"[1] && "chainId"[0] != "message"[0] && "amount_wei"[0] != "simulation"[0];
  }
}
