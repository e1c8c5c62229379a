/** End to end: what a forwarded transfer or approval says about the raw contract reads. */
module CoverageSafety {
  import opened Values
  import opened Text
  import opened Coercions
  import opened ToolSemantics
  import opened PolicyDecision
  import opened PolicySnapshot
  import opened GuardedForward
  import opened ActionCoverage
  import Risk
  import PolicyOrder

  // ----- coverToolCall

  datatype Covered = ConsentMissing | Gated(decision: Decision)

  function SemanticsOf(c: Catalog, name: string): Option<Semantics> {
    if name in c.registry then Some(c.registry[name]) else None
  }

  function Cover(c: Catalog, name: string, args: seq<Field>, ctx: Context, source: Source, simulation: Option<Value>,
                 consent: Option<Value>, audited: bool, reviewer: Reviewer): Covered {
    hide Gate, PolicyFrom, Evidence, ConsentGiven, ResolveCall;
    var m := SemanticsOf(c, name);
    if m.Some? && DigestClass(m.value.toolClass) && !ConsentGiven(consent) then ConsentMissing
    else
      var hash := if m.Some? then m.value.inputSchemaHash else "";
      Gated(Gate(ResolveCall(c, name, hash), PolicyFrom(source), Evidence(m, args, ctx, simulation), audited, reviewer))
  }

  /** A call is skipped exactly when its tool transfers, approves, signs or writes to a contract and its consent lacks
      one of five names. */
  lemma SkippedIff(c: Catalog, name: string, args: seq<Field>, ctx: Context, source: Source, simulation: Option<Value>,
                   consent: Option<Value>, audited: bool, reviewer: Reviewer)
    ensures Cover(c, name, args, ctx, source, simulation, consent, audited, reviewer) == ConsentMissing <==>
              name in c.registry && c.registry[name].toolClass in {"transaction_execute", "token_approval", "signature", "contract_write"} &&
              (consent.None? || exists k | k in {"network", "account", "target", "asset", "max_amount"} ::
                 FieldOf(consent.value, k) in {None, Some(Null), Some(Str(""))})
  {
    hide Gate, ConsentGiven, FieldOf, Evidence, ResolveCall, PolicyFrom;
    ConsentIff(consent);
  }

  // ----- Which entries of the evidence come from where

  predicate Undotted(name: string) {
    '.' !in name
  }

  lemma {:induction false} FlattenOneKeeps(e: Record, prefix: string, fields: seq<Field>, key: string)
    requires Undotted(key)
    ensures Get(FlattenOne(e, prefix, fields), key) == Get(e, key)
    decreases |fields|
  {
    if fields != [] {
      var name := prefix + "." + fields[0].key;
      assert name[|prefix|] == '.';
      FlattenOneKeeps(if Given(e, name) then e else e[name := fields[0].value], prefix, fields[1..], key);
    }
  }

  lemma {:induction false} FlattenKeeps(e: Record, args: seq<Field>, key: string)
    requires Undotted(key)
    ensures Get(Flatten(e, args), key) == Get(e, key)
    decreases |args|
  {
    hide FlattenOne;
    if args != [] {
      if args[0].value.Obj? { FlattenOneKeeps(e, args[0].key, args[0].value.fields, key); }
      FlattenKeeps(if args[0].value.Obj? then FlattenOne(e, args[0].key, args[0].value.fields) else e, args[1..], key);
    }
  }

  lemma {:induction false} MarkKeeps(e: Record, names: seq<string>, key: string)
    requires key !in names
    ensures Get(Mark(e, names), key) == Get(e, key)
    decreases |names|
  {
    hide Risk.Optional;
    if names != [] {
      MarkKeeps(if !Risk.Optional(names[0]) && !Given(e, names[0]) then e[names[0] := Bool(true)] else e, names[1..], key);
    }
  }

  /** A plain name that the registry does not ask to mark reaches the class branch as the argument itself. */
  lemma MarkedIsArgument(m: Semantics, args: seq<Field>, ctx: Context, key: string)
    requires Undotted(key) && key !in m.requiredEvidence && key != "chain_id" && key != "chain_evidence"
    ensures Get(Mark(Flatten(BaseEvidence(args, ctx), args), m.requiredEvidence), key) == Get(ArgsOf(args), key)
  {
    hide Flatten, Mark, ChainIdOf, ArgsOf;
    FlattenKeeps(BaseEvidence(args, ctx), args, key);
    MarkKeeps(Flatten(BaseEvidence(args, ctx), args), m.requiredEvidence, key);
  }

  predicate ComparedName(key: string) {
    key == "amount_atomic" || key == "amount_wei" || key == "amount" || key == "token" || key == "spender" || key == "recipient" ||
    key == "estimated_gas_cost_wei"
  }

  /** The registry never asks to mark the fields that the checks compare. */
  predicate ComparesArguments(m: Semantics) {
    forall k | k in m.requiredEvidence :: !ComparedName(k)
  }

  /** The argument is given and its text is `amount`, as it is for a text or a number. */
  predicate AmountAt(args: Record, key: string, amount: string) {
    Given(args, key) && TextOf(args[key]) == amount && amount != ""
  }

  /** The argument a transfer takes its amount from. */
  function AmountKey(args: Record): string {
    if Given(args, "amount") then "amount" else "value"
  }

  /** The checked amount is the transfer's own argument: a native transfer has no truthy `amount_atomic` argument,
      which the checks would take instead. */
  predicate AmountTaken(args: Record) {
    TruthyAt(args, "token") || !TruthyAt(args, "amount_atomic")
  }

  /** What the amount checks read when the transfer's own argument has the given text. */
  function CheckedAmount(args: Record, amount: string): Option<Value> {
    if AmountTaken(args) then Some(Str(amount)) else Get(args, "amount_atomic")
  }

  /** The amount argument of a transfer has this text, which is not empty. */
  predicate TransferOf(args: Record, amount: string) {
    AmountAt(args, AmountKey(args), amount)
  }

  /** The transfer names a recipient, by one of the three names. */
  predicate RecipientGiven(args: Record) {
    TruthyAt(args, "to") || TruthyAt(args, "recipient") || TruthyAt(args, "recipientAddress")
  }

  /** `to` wins over `recipient`, and that over `recipientAddress`. */
  function Recipient(args: Record): (v: Value)
    requires RecipientGiven(args)
    ensures Truthy(v)
  {
    if TruthyAt(args, "to") then args["to"] else if TruthyAt(args, "recipient") then args["recipient"] else args["recipientAddress"]
  }

  lemma RecipientIs(args: Record)
    ensures RecipientGiven(args) <==> RecipientOf(args).Some? && Truthy(RecipientOf(args).value)
    ensures RecipientGiven(args) ==> RecipientOf(args) == Some(Recipient(args))
  {
    hide Truthy;
  }

  /** An approval with a token, a spender and an amount that are not empty. */
  predicate PlainApproval(args: Record, amount: string) {
    TruthyAt(args, "token") && TruthyAt(args, "spender") && AmountAt(args, "amount", amount)
  }

  lemma UndottedNames()
    ensures Undotted("amount_atomic") && Undotted("amount_wei") && Undotted("amount") && Undotted("token") && Undotted("spender")
    ensures Undotted("recipient")
  {
  }

  lemma ComparedNames(m: Semantics)
    requires ComparesArguments(m)
    ensures "amount_atomic" !in m.requiredEvidence && "amount_wei" !in m.requiredEvidence && "amount" !in m.requiredEvidence
    ensures "token" !in m.requiredEvidence && "spender" !in m.requiredEvidence && "recipient" !in m.requiredEvidence
    ensures "estimated_gas_cost_wei" !in m.requiredEvidence
  {
    assert ComparedName("amount_atomic") && ComparedName("amount_wei") && ComparedName("amount");
    assert ComparedName("token") && ComparedName("spender") && ComparedName("recipient") && ComparedName("estimated_gas_cost_wei");
  }

  /** The token argument as the evidence holds it. */
  function TokenOf(args: Record): Option<Value> {
    if TruthyAt(args, "token") then Some(Lowered(args["token"])) else Get(args, "token")
  }

  lemma TransferFacts(m: Semantics, args: seq<Field>, ctx: Context, simulation: Option<Value>, amount: string)
    requires m.toolClass == "transaction_execute" && ComparesArguments(m) && TransferOf(ArgsOf(args), amount)
    ensures var (a, e) := (ArgsOf(args), Evidence(Some(m), args, ctx, simulation));
            && (RecipientGiven(a) ==> Get(e, "recipient") == Some(Lowered(Recipient(a))))
            && Risk.AmountEvidence(e) == CheckedAmount(a, amount) && Get(e, "token") == TokenOf(a)
  {
    hide Flatten, Mark, BaseEvidence, ArgsOf, Lower, TextOf, TransferOf, CheckedAmount, Recipient, RecipientGiven, TransferEvidence, Risk.AmountEvidence;
    UndottedNames();
    ComparedNames(m);
    MarkedIsArgument(m, args, ctx, "token");
    MarkedIsArgument(m, args, ctx, "amount_atomic");
    TransferEntries(Mark(Flatten(BaseEvidence(args, ctx), args), m.requiredEvidence), ArgsOf(args), simulation, amount);
    ClassNames();
  }

  lemma ClassNames()
    ensures "transaction_execute" != "read_only" && "token_approval" != "read_only" && "token_approval" != "transaction_execute"
  {
    assert |"transaction_execute"| == 19 && |"read_only"| == 9 && |"token_approval"| == 14;
  }

  lemma TransferEntries(before: Record, a: Record, simulation: Option<Value>, amount: string)
    requires TransferOf(a, amount)
    requires Get(before, "token") == Get(a, "token") && Get(before, "amount_atomic") == Get(a, "amount_atomic")
    ensures var e := TransferEvidence(before, a, simulation);
            && (RecipientGiven(a) ==> Get(e, "recipient") == Some(Lowered(Recipient(a))))
            && Risk.AmountEvidence(e) == CheckedAmount(a, amount) && Get(e, "token") == TokenOf(a)
  {
    hide TransferCore, WithGas, TransferOf, Recipient, RecipientGiven, TokenOf, Risk.AmountEvidence, CheckedAmount, Lowered;
    CoreEntries(before, a, amount);
    GasKeeps(TransferCore(before, a), simulation);
  }

  lemma GasKeeps(e: Record, simulation: Option<Value>)
    ensures var f := WithGas(e, simulation);
            && Get(f, "recipient") == Get(e, "recipient") && Get(f, "token") == Get(e, "token")
            && Risk.AmountEvidence(f) == Risk.AmountEvidence(e)
  {
    hide TextOf, GasCostOf, Truthy;
    EntryNames();
    assert |"amount"| == 6 && |"simulation"| == 10 && |"estimated_gas_cost_wei"| == 22;
  }

  lemma CoreEntries(before: Record, a: Record, amount: string)
    requires TransferOf(a, amount)
    requires Get(before, "token") == Get(a, "token") && Get(before, "amount_atomic") == Get(a, "amount_atomic")
    ensures var e := TransferCore(before, a);
            && (RecipientGiven(a) ==> Get(e, "recipient") == Some(Lowered(Recipient(a))))
            && Risk.AmountEvidence(e) == CheckedAmount(a, amount) && Get(e, "token") == TokenOf(a)
  {
    hide Lower, TextOf, Lowered;
    EntryNames();
    RecipientIs(a);
    hide RecipientOf, Recipient, RecipientGiven;
    TransferAmountIs(a, amount);
    hide TransferAmount, TransferOf;
  }

  lemma TransferAmountIs(a: Record, amount: string)
    requires TransferOf(a, amount)
    ensures TransferAmount(a).Some? && !TransferAmount(a).value.Null? && TextOf(TransferAmount(a).value) == amount && amount != ""
  {
  }

  lemma EntryNames()
    ensures "recipient" != "token" && "recipient" != "amount_atomic" && "recipient" != "amount_wei" && "token" != "amount_atomic"
    ensures "token" != "amount_wei" && "amount_atomic" != "amount_wei" && "simulation" != "amount_wei" && "simulation" != "amount_atomic"
    ensures "simulation" != "token" && "simulation" != "recipient" && "estimated_gas_cost_wei" != "token"
    ensures "estimated_gas_cost_wei" != "recipient" && "estimated_gas_cost_wei" != "amount_atomic" && "estimated_gas_cost_wei" != "amount_wei"
  {
    assert |"recipient"| == 9 && |"token"| == 5 && |"amount_atomic"| == 13 && |"amount_wei"| == 10;
    assert |"simulation"| == 10 && |"estimated_gas_cost_wei"| == 22 && "simulation"[0] != "amount_wei"[0];
  }

  lemma ApprovalFacts(m: Semantics, args: seq<Field>, ctx: Context, simulation: Option<Value>, amount: string)
    requires m.toolClass == "token_approval" && ComparesArguments(m) && PlainApproval(ArgsOf(args), amount)
    ensures var (a, e) := (ArgsOf(args), Evidence(Some(m), args, ctx, simulation));
            && Get(e, "token") == Some(Lowered(a["token"])) && Get(e, "spender") == Some(Lowered(a["spender"]))
            && Get(e, "amount_atomic") == Some(Str(amount)) && Risk.AmountEvidence(e) == Some(Str(amount))
  {
    hide Flatten, Mark, BaseEvidence, ArgsOf, Lower, TextOf;
    ClassNames();
    ApprovalEntries(Mark(Flatten(BaseEvidence(args, ctx), args), m.requiredEvidence), ArgsOf(args), simulation, amount);
  }

  lemma ApprovalEntries(before: Record, a: Record, simulation: Option<Value>, amount: string)
    requires PlainApproval(a, amount)
    ensures var e := ApprovalEvidence(before, a, simulation);
            && Get(e, "token") == Some(Lowered(a["token"])) && Get(e, "spender") == Some(Lowered(a["spender"]))
            && Get(e, "amount_atomic") == Some(Str(amount)) && Risk.AmountEvidence(e) == Some(Str(amount))
  {
    hide Lower, TextOf;
    assert |"token"| == 5 && |"spender"| == 7 && |"amount_atomic"| == 13 && |"finite_amount_evidence"| == 22 && |"simulation"| == 10;
  }

  // ----- From the checks to the raw reads

  /** The value is text and equals an entry of the raw list up to letter case. */
  predicate OnRawList(values: seq<Value>, v: Value) {
    v.Str? && exists i | 0 <= i < |values| :: values[i].Str? && Lower(values[i].s) == Lower(v.s)
  }

  /** The raw number is a numeral and at least `v`; a uint256 is compared as the number it is. */
  predicate AtMostRaw(v: nat, cap: Value) {
    CanonicalDecimal(TextOf(cap)) && v <= ValueOf(TextOf(cap)) && (cap.Big? ==> v <= cap.n)
  }

  lemma ListedRaw(l: seq<string>, values: seq<Value>, v: Value)
    requires LowerOf(l, values) && v.Str? && Lower(v.s) in l
    ensures OnRawList(values, v)
  {
    hide Lower;
    var i :| 0 <= i < |l| && l[i] == Lower(v.s);
    assert values[i].Str?;
  }

  lemma CapRaw(v: nat, cap: Value)
    requires CanonicalDecimal(TextOf(cap)) && v <= Risk.CapOf(TextOf(cap))
    ensures AtMostRaw(v, cap)
  {
    hide ValueOf;
    if cap.Big? {
      if cap.n < 0 { NegativeText(cap.n); } else { DecimalRoundTrip(cap.n); }
    }
  }

  lemma NegativeText(n: int)
    requires n < 0
    ensures !CanonicalDecimal(IntText(n))
  {
    assert IntText(n)[0] == '-' && !Digit('-');
  }

  lemma CanonicalDigits(text: string)
    requires CanonicalDecimal(text)
    ensures Digits(text)
  {
  }

  lemma LowerTwice(text: string)
    ensures Lower(Lower(text)) == Lower(text)
  {
    LowerIdempotent(text);
  }

  lemma ListedText(e: Record, key: string, list: seq<string>, v: Value)
    requires Risk.ListedIn(e, key, list) && Get(e, key) == Some(Lowered(v)) && Truthy(v)
    ensures v.Str? && Lower(v.s) in list
  {
    if v.Str? { LowerTwice(v.s); }
  }

  lemma LoweredTruthy(v: Value)
    ensures Truthy(Lowered(v)) <==> Truthy(v)
  {
  }

  lemma AmountWithin(m: Semantics, s: Snapshot, e: Record, amount: string)
    requires Risk.AmountFinding(m, s, e) == [] && Risk.AmountEvidence(e) == Some(Str(amount)) && CanonicalDecimal(amount)
    ensures ValueOf(amount) <= Risk.AmountCap(m.toolClass, s, e)
  {
    hide Risk.AmountCap, Risk.AmountEvidence;
    assert CanonicalDecimal(amount) ==> Digit(amount[0]);
    assert "uint256.max"[0] == 'u';
  }

  /** The transfer's checks, in terms of the raw reads. */
  lemma TransferOnRaw(m: Semantics, s: Snapshot, raw: Raw, e: Record, a: Record, amount: string)
    requires m.toolClass == "transaction_execute" && Risk.Checks(m, s, e) == []
    requires Valid(s) && LowerOf(s.recipients, raw.recipients) && LowerOf(s.tokens, raw.tokens) && CapsOf(s.caps, raw.caps)
    requires RecipientGiven(a) && Get(e, "recipient") == Some(Lowered(Recipient(a))) && Get(e, "token") == TokenOf(a)
    requires Risk.AmountEvidence(e) == Some(Str(amount)) && CanonicalDecimal(amount)
    ensures OnRawList(raw.recipients, Recipient(a)) && (TruthyAt(a, "token") ==> OnRawList(raw.tokens, a["token"]))
    ensures AtMostRaw(ValueOf(amount), if TruthyAt(a, "token") then raw.caps.erc20 else raw.caps.native)
  {
    hide Lower, CanonicalDecimal, ValueOf, Risk.Checks, Risk.ContextChecks, Risk.ListedIn, Risk.AmountFinding, Risk.GasFinding,
      Risk.ApprovalFindings, OnRawList, LowerOf, Distinct, Risk.AmountEvidence, TextOf, AtMostRaw, Risk.CapOf, Lowered, Truthy, Recipient, RecipientGiven;
    PolicyOrder.ChecksEmptyIff(m, s, e);
    ListedText(e, "recipient", s.recipients, Recipient(a));
    ListedRaw(s.recipients, raw.recipients, Recipient(a));
    if TruthyAt(a, "token") {
      ListedText(e, "token", s.tokens, a["token"]);
      ListedRaw(s.tokens, raw.tokens, a["token"]);
      LoweredTruthy(a["token"]);
    }
    AmountWithin(m, s, e, amount);
    CanonicalDigits(amount);
    CapRaw(ValueOf(amount), if TruthyAt(a, "token") then raw.caps.erc20 else raw.caps.native);
  }

  /** When coverToolCall forwards a transfer that names a recipient and whose checked amount is its own amount
      argument, a canonical numeral as text or as a number, then consent was given, the recipient and the token,
      when there is one, are texts on the contract's own lists up to letter case, and the amount is at most the
      contract's cap for native or for token transfers. */
  lemma ForwardedTransfer(c: Catalog, name: string, args: seq<Field>, ctx: Context, t: Transport, config: Config,
                          simulation: Option<Value>, consent: Option<Value>, audited: bool, reviewer: Reviewer, amount: string)
    requires name in c.registry && c.registry[name].toolClass == "transaction_execute" && ComparesArguments(c.registry[name])
    requires RecipientGiven(ArgsOf(args)) && TransferOf(ArgsOf(args), amount) && AmountTaken(ArgsOf(args)) && CanonicalDecimal(amount)
    requires Cover(c, name, args, ctx, Contract(t, config), simulation, consent, audited, reviewer) == Gated(Allow)
    ensures ConsentGiven(consent) && Readable(t) && Acceptable(RawOf(t).value, config)
    ensures var (a, raw) := (ArgsOf(args), RawOf(t).value);
            && OnRawList(raw.recipients, Recipient(a)) && (TruthyAt(a, "token") ==> OnRawList(raw.tokens, a["token"]))
            && AtMostRaw(ValueOf(amount), if TruthyAt(a, "token") then raw.caps.erc20 else raw.caps.native)
  {
    hide Evidence, ConsentGiven, Gate, Fetched, Risk.Checks, RawOf, Acceptable, Valid, LowerOf, LimitsOf, CapsOf, CanonicalDecimal,
      OnRawList, AtMostRaw, ArgsOf, ValueOf, Lower, Resolve, SaidSafe, Risk.AmountEvidence, Get, ComparesArguments, RawVersion,
      ToolSemantics.ResolveCall, TextOf, TokenOf, Lowered, Recipient, RecipientGiven, TransferOf, Truthy;
    var (m, a) := (c.registry[name], ArgsOf(args));
    var (r, e) := (ResolveCall(c, name, m.inputSchemaHash), Evidence(Some(m), args, ctx, simulation));
    GateIff(r, PolicyFrom(Contract(t, config)), e, audited, reviewer);
    CallSemantics(c, name, m.inputSchemaHash);
    FetchedIff(t, config);
    TransferFacts(m, args, ctx, simulation, amount);
    TransferOnRaw(m, Fetched(t, config).value, RawOf(t).value, e, a, amount);
  }

  // ----- The registry's evidence names

  /** Every entry given before is given after. */
  ghost predicate StillGiven(e: Record, e': Record) {
    forall k: string :: Given(e, k) ==> Given(e', k)
  }

  lemma SetGiven(e: Record, e': Record, key: string, v: Value)
    requires StillGiven(e, e') && !v.Null?
    ensures StillGiven(e, e'[key := v])
  {
    var f' := e'[key := v];
    forall k: string | Given(e, k) ensures Given(f', k) { assert Given(e', k); }
  }

  lemma LoweredGiven(v: Value)
    requires Truthy(v)
    ensures !v.Null? && !Lowered(v).Null?
  {
  }

  lemma SetLowerGiven(e: Record, e': Record, args: Record, key: string)
    requires StillGiven(e, e')
    ensures StillGiven(e, SetLower(e', args, key))
  {
    hide StillGiven, Truthy, Lowered;
    if TruthyAt(args, key) {
      LoweredGiven(args[key]);
      SetGiven(e, e', key, Lowered(args[key]));
    }
  }

  lemma SetSimulationGiven(e: Record, e': Record, simulation: Option<Value>)
    requires StillGiven(e, e')
    ensures StillGiven(e, SetSimulation(e', simulation))
  {
    hide StillGiven, Truthy;
    if simulation.Some? && Truthy(simulation.value) {
      LoweredGiven(simulation.value);
      SetGiven(e, e', "simulation", simulation.value);
    }
  }

  lemma CoreGiven(e: Record, args: Record)
    ensures StillGiven(e, TransferCore(e, args))
  {
    hide StillGiven, Truthy, Lowered, TextOf, RecipientOf, TransferAmount, SetLower;
    SameGiven(e);
    var recipient := RecipientOf(args);
    if recipient.Some? && Truthy(recipient.value) {
      LoweredGiven(recipient.value);
      SetGiven(e, e, "recipient", Lowered(recipient.value));
    }
    var e1 := if recipient.Some? && Truthy(recipient.value) then e["recipient" := Lowered(recipient.value)] else e;
    SetLowerGiven(e, e1, args, "token");
    var (e2, amount) := (SetLower(e1, args, "token"), TransferAmount(args));
    if amount.Some? {
      SetGiven(e, e2, "amount_atomic", Str(TextOf(amount.value)));
      SetGiven(e, e2, "amount_wei", Str(TextOf(amount.value)));
    }
  }

  lemma TransferGiven(e: Record, args: Record, simulation: Option<Value>)
    ensures StillGiven(e, TransferEvidence(e, args, simulation))
  {
    hide StillGiven, Truthy, TextOf, TransferCore, GasCostOf, SetSimulation;
    CoreGiven(e, args);
    var (e3, gas) := (TransferCore(e, args), GasCostOf(simulation));
    SetSimulationGiven(e, e3, simulation);
    if gas.Some? { SetGiven(e, SetSimulation(e3, simulation), "estimated_gas_cost_wei", Str(TextOf(gas.value))); }
  }

  lemma SameGiven(e: Record)
    ensures StillGiven(e, e)
  {
  }

  lemma ClassGiven(class_: string, e: Record, args: Record, ctx: Context, simulation: Option<Value>)
    ensures StillGiven(e, ClassEvidence(class_, e, args, ctx, simulation))
  {
    hide StillGiven, Truthy, Lowered, TextOf, TransferEvidence, SetLower, SetSimulation, Lower;
    SameGiven(e);
    if class_ == "read_only" {
      SetGiven(e, e, "sanitized_address_or_account_context", Bool(true));
      SetLowerGiven(e, e["sanitized_address_or_account_context" := Bool(true)], args, "token");
    } else if class_ == "transaction_execute" {
      TransferGiven(e, args, simulation);
    } else if class_ == "token_approval" {
      SetLowerGiven(e, e, args, "token");
      SetLowerGiven(e, SetLower(e, args, "token"), args, "spender");
      var e1 := SetLower(SetLower(e, args, "token"), args, "spender");
      if Given(args, "amount") { SetGiven(e, e1, "amount_atomic", Str(TextOf(args["amount"]))); }
      var e2 := if Given(args, "amount") then e1["amount_atomic" := Str(TextOf(args["amount"]))] else e1;
      var finite := Bool(Lower(if "amount" in args then TextOf(args["amount"]) else "undefined") != "uint256.max");
      SetGiven(e, e2, "finite_amount_evidence", finite);
      SetSimulationGiven(e, e2["finite_amount_evidence" := finite], simulation);
    } else if class_ == "signature" {
      var rule := Either(ctx.typedDataRuleKey, Get(args, "typed_data_rule_key"));
      if rule.Some? && Truthy(rule.value) {
        LoweredGiven(rule.value);
        SetGiven(e, e, "typed_data_rule_key", rule.value);
      }
      SetSimulationGiven(e, SetIf(e, rule.Some? && Truthy(rule.value), "typed_data_rule_key", if rule.Some? then rule.value else Null), simulation);
    }
  }

  lemma {:induction false} MarkGives(e: Record, names: seq<string>)
    ensures StillGiven(e, Mark(e, names))
    ensures forall n | n in names && !Risk.Optional(n) :: Given(Mark(e, names), n)
    decreases |names|
  {
    hide Risk.Optional;
    if names != [] {
      var next := if !Risk.Optional(names[0]) && !Given(e, names[0]) then e[names[0] := Bool(true)] else e;
      MarkGives(next, names[1..]);
      forall n | n in names && !Risk.Optional(n) ensures Given(Mark(e, names), n) {
        assert n == names[0] || n in names[1..];
      }
    }
  }

  /** The evidence names that the registry requires never block: extraction itself gives each of them, whatever
      the call. */
  lemma RequiredEvidenceGiven(m: Semantics, args: seq<Field>, ctx: Context, simulation: Option<Value>)
    ensures PolicyOrder.AllGiven(Evidence(Some(m), args, ctx, simulation), m.requiredEvidence)
  {
    hide Flatten, Mark, BaseEvidence, ArgsOf, ClassEvidence, Risk.Optional;
    var flat := Flatten(BaseEvidence(args, ctx), args);
    MarkGives(flat, m.requiredEvidence);
    ClassGiven(m.toolClass, Mark(flat, m.requiredEvidence), ArgsOf(args), ctx, simulation);
  }

  // ----- Every forwarded call

  predicate KeyOnRaw(values: seq<Value>, key: string) {
    exists i | 0 <= i < |values| :: values[i].Str? && Lower(values[i].s) == key
  }

  lemma ToolListed(l: seq<string>, values: seq<Value>, key: string)
    requires LowerOf(l, values) && key in l
    ensures KeyOnRaw(values, key)
  {
    hide Lower;
    var i :| 0 <= i < |l| && l[i] == key;
    assert values[i].Str?;
  }

  /** The estimated gas cost, when it is given and readable, is at most the contract's gas cap. */
  predicate GasOnRaw(e: Record, raw: Raw) {
    var gas := Risk.AmountOf(Get(e, "estimated_gas_cost_wei"));
    TruthyAt(e, "estimated_gas_cost_wei") && gas.Some? ==> AtMostRaw(gas.value, raw.caps.gas)
  }

  lemma CallOnRaw(m: Semantics, s: Snapshot, raw: Raw, e: Record)
    requires Risk.Checks(m, s, e) == [] && Valid(s) && LowerOf(s.tools, raw.tools) && CapsOf(s.caps, raw.caps)
    ensures KeyOnRaw(raw.tools, Risk.KeyOf(m.toolName)) && GasOnRaw(e, raw)
    ensures (Given(e, "chain_id") ==> NumberIs(e["chain_id"], 10143)) && PolicyOrder.SimulationFine(m, e)
    ensures PolicyOrder.AllGiven(e, m.requiredFields) && PolicyOrder.AllGiven(e, m.requiredEvidence)
    ensures m.toolClass == "signature" ==> TruthyAt(e, "typed_data_rule_key")
  {
    hide Lower, CanonicalDecimal, Risk.Checks, Risk.ContextChecks, Risk.ListedIn, Risk.AmountFinding, Risk.ApprovalFindings, Risk.AmountOf,
      LowerOf, Distinct, TextOf, AtMostRaw, Risk.CapOf, OneLimitEach, Hash, PolicyOrder.AllGiven, PolicyOrder.SimulationFine, NumberIs;
    PolicyOrder.ChecksEmptyIff(m, s, e);
    PolicyOrder.ContextEmptyIff(m, s, e);
    ToolListed(s.tools, raw.tools, Risk.KeyOf(m.toolName));
    var gas := Risk.AmountOf(Get(e, "estimated_gas_cost_wei"));
    if TruthyAt(e, "estimated_gas_cost_wei") && gas.Some? { CapRaw(gas.value, raw.caps.gas); }
  }

  /** The call meets the raw reads: its tool's Keccak key is on the contract's tool list, the chain is right,
      everything the registry requires is given, the simulation did not fail where one is needed, the gas is
      within the cap, and a signature has its rule. */
  predicate MeetsRaw(m: Semantics, e: Record, raw: Raw) {
    hide Risk.KeyOf, KeyOnRaw, GasOnRaw, NumberIs, PolicyOrder.SimulationFine, PolicyOrder.AllGiven;
    && KeyOnRaw(raw.tools, Hash(m.toolName)) && GasOnRaw(e, raw)
    && (Given(e, "chain_id") ==> NumberIs(e["chain_id"], 10143)) && PolicyOrder.SimulationFine(m, e)
    && PolicyOrder.AllGiven(e, m.requiredFields) && PolicyOrder.AllGiven(e, m.requiredEvidence)
    && (m.toolClass == "signature" ==> TruthyAt(e, "typed_data_rule_key"))
  }

  /** Whatever its class, a call that coverToolCall forwards is for a registered tool and meets the contract's raw
      reads, with consent when it changes state. */
  lemma ForwardedCall(c: Catalog, name: string, args: seq<Field>, ctx: Context, t: Transport, config: Config, simulation: Option<Value>,
                      consent: Option<Value>, audited: bool, reviewer: Reviewer)
    requires Cover(c, name, args, ctx, Contract(t, config), simulation, consent, audited, reviewer) == Gated(Allow)
    ensures name in c.registry && Readable(t) && Acceptable(RawOf(t).value, config)
    ensures MeetsRaw(c.registry[name], Evidence(Some(c.registry[name]), args, ctx, simulation), RawOf(t).value)
    ensures DigestClass(c.registry[name].toolClass) ==> ConsentGiven(consent)
  {
    hide Evidence, ConsentGiven, Gate, Fetched, Risk.Checks, RawOf, Acceptable, Valid, LowerOf, LimitsOf, CapsOf, KeyOnRaw, GasOnRaw,
      Resolve, SaidSafe, RawVersion, ToolSemantics.ResolveCall, PolicyOrder.AllGiven, PolicyOrder.SimulationFine, NumberIs, Hash,
      TruthyAt, DigestClass;
    var m := SemanticsOf(c, name);
    var hash := if m.Some? then m.value.inputSchemaHash else "";
    var (r, e) := (ResolveCall(c, name, hash), Evidence(m, args, ctx, simulation));
    GateIff(r, PolicyFrom(Contract(t, config)), e, audited, reviewer);
    CallSemantics(c, name, hash);
    FetchedIff(t, config);
    CallOnRaw(m.value, Fetched(t, config).value, RawOf(t).value, e);
  }

  // ----- Approvals

  /** The contract has an enabled entry for the pair, up to letter case, whose limit is at least `v`. */
  predicate LimitOnRaw(values: seq<RawLimit>, token: Value, spender: Value, v: nat) {
    exists i | 0 <= i < |values| :: EntryFor(values[i], token, spender) && AtMostRaw(v, values[i].max)
  }

  predicate EntryFor(e: RawLimit, token: Value, spender: Value) {
    e.enabled && SameUpToCase(e.token, token) && SameUpToCase(e.spender, spender)
  }

  lemma LimitRaw(l: seq<Risk.SpenderLimit>, values: seq<RawLimit>, x: Risk.SpenderLimit, token: Value, spender: Value, v: nat)
    requires LimitsOf(l, values) && x in l && PairOf(x, token, spender)
    requires CanonicalDecimal(x.max) && v <= Risk.CapOf(x.max)
    ensures LimitOnRaw(values, token, spender, v)
  {
    hide Lower, TextOf, CanonicalDecimal, AtMostRaw, Risk.CapOf;
    var i :| 0 <= i < |l| && l[i] == x;
    assert LimitOf(l[i], values[i]);
    CapRaw(v, values[i].max);
  }

  /** The entry is enabled and is for the token and spender in lower case. */
  predicate PairOf(x: Risk.SpenderLimit, token: Value, spender: Value) {
    x.enabled && Lowered(token) == Str(x.token) && Lowered(spender) == Str(x.spender)
  }

  lemma LoweredTwice(v: Value)
    ensures Lowered(Lowered(v)) == Lowered(v)
  {
    if v.Str? { LowerTwice(v.s); }
  }

  lemma ApprovalLimit(m: Semantics, s: Snapshot, e: Record, token: Value, spender: Value, amount: string)
    requires m.toolClass == "token_approval" && OneLimitEach(s.spenders) && Risk.ApprovalFindings(m, s, e) == []
    requires Get(e, "token") == Some(Lowered(token)) && Get(e, "spender") == Some(Lowered(spender))
    requires Get(e, "amount_atomic") == Some(Str(amount)) && Risk.AmountEvidence(e) == Some(Str(amount)) && amount != ""
    ensures Lower(amount) != "uint256.max" && amount != Risk.UINT256_MAX
    ensures exists x :: x in s.spenders && PairOf(x, token, spender) &&
                        (CanonicalDecimal(amount) ==> ValueOf(amount) <= Risk.CapOf(x.max))
  {
    hide Lower, CanonicalDecimal, ValueOf, OneLimitEach, Risk.AmountEvidence, Risk.FindLimit, Risk.CapOf, Risk.AmountOf, Lowered;
    LoweredTwice(token);
    LoweredTwice(spender);
    ReadAmount(amount);
    var (k, u) := (Risk.LowerField(e, "token"), Risk.LowerField(e, "spender"));
    assert k == Some(Lowered(token)) && u == Some(Lowered(spender));
    var x := Risk.FindLimit(s.spenders, k, u).value;
    PolicyOrder.FindLimitIff(s.spenders, k, u, x);
  }

  lemma ReadAmount(amount: string)
    ensures CanonicalDecimal(amount) ==> Risk.AmountOf(Some(Str(amount))) == Some(ValueOf(amount))
    ensures !CanonicalDecimal(amount) && amount != "uint256.max" ==> Risk.AmountOf(Some(Str(amount))) == None
  {
    if CanonicalDecimal(amount) {
      assert Digit(amount[0]);
      assert "uint256.max"[0] == 'u';
    }
  }

  lemma NotMax(amount: string)
    requires CanonicalDecimal(amount) && amount != Risk.UINT256_MAX
    ensures ValueOf(amount) != Risk.MaxAmount()
  {
    hide ValueOf, CanonicalDecimal, Decimal;
    Risk.MaxAmountText();
    CanonicalDigits(amount);
    CanonicalDigits(Risk.UINT256_MAX);
    ValueRoundTrip(amount);
    ValueRoundTrip(Risk.UINT256_MAX);
  }

  /** The approval's checks, in terms of the raw reads. */
  lemma ApprovalOnRaw(m: Semantics, s: Snapshot, raw: Raw, e: Record, token: Value, spender: Value, amount: string)
    requires m.toolClass == "token_approval" && Risk.Checks(m, s, e) == []
    requires Valid(s) && LowerOf(s.tokens, raw.tokens) && CapsOf(s.caps, raw.caps) && LimitsOf(s.spenders, raw.spenders)
    requires Get(e, "token") == Some(Lowered(token)) && Get(e, "spender") == Some(Lowered(spender))
    requires Get(e, "amount_atomic") == Some(Str(amount)) && Risk.AmountEvidence(e) == Some(Str(amount))
    requires Truthy(token) && CanonicalDecimal(amount) && amount != ""
    ensures OnRawList(raw.tokens, token) && LimitOnRaw(raw.spenders, token, spender, ValueOf(amount))
    ensures AtMostRaw(ValueOf(amount), raw.caps.erc20) && ValueOf(amount) != Risk.MaxAmount()
  {
    hide Lower, CanonicalDecimal, ValueOf, Risk.Checks, Risk.ContextChecks, Risk.ListedIn, Risk.AmountFinding, Risk.GasFinding,
      Risk.ApprovalFindings, OnRawList, LowerOf, Distinct, Risk.AmountEvidence, TextOf, AtMostRaw, Risk.CapOf, OneLimitEach, LimitsOf,
      LimitOnRaw, Lowered, Truthy, PairOf;
    PolicyOrder.ChecksEmptyIff(m, s, e);
    ListedText(e, "token", s.tokens, token);
    ListedRaw(s.tokens, raw.tokens, token);
    AmountWithin(m, s, e, amount);
    CanonicalDigits(amount);
    ClassNames();
    CapRaw(ValueOf(amount), raw.caps.erc20);
    ApprovalLimit(m, s, e, token, spender, amount);
    NotMax(amount);
    var x :| x in s.spenders && PairOf(x, token, spender) && ValueOf(amount) <= Risk.CapOf(x.max);
    LimitRaw(s.spenders, raw.spenders, x, token, spender, ValueOf(amount));
  }

  /** When coverToolCall forwards an approval whose token, spender and amount are not empty and whose amount is a
      canonical numeral, as text or as a number, consent was given, the token is on the contract's list, the
      contract holds an enabled entry for the token and spender whose limit covers the amount, the amount is at
      most the token cap, and it is not 2^256 - 1. */
  lemma ForwardedApproval(c: Catalog, name: string, args: seq<Field>, ctx: Context, t: Transport, config: Config,
                          simulation: Option<Value>, consent: Option<Value>, audited: bool, reviewer: Reviewer, amount: string)
    requires name in c.registry && c.registry[name].toolClass == "token_approval" && ComparesArguments(c.registry[name])
    requires PlainApproval(ArgsOf(args), amount) && CanonicalDecimal(amount)
    requires Cover(c, name, args, ctx, Contract(t, config), simulation, consent, audited, reviewer) == Gated(Allow)
    ensures ConsentGiven(consent) && Readable(t) && Acceptable(RawOf(t).value, config)
    ensures var (a, raw) := (ArgsOf(args), RawOf(t).value);
            && OnRawList(raw.tokens, a["token"]) && LimitOnRaw(raw.spenders, a["token"], a["spender"], ValueOf(amount))
            && AtMostRaw(ValueOf(amount), raw.caps.erc20) && ValueOf(amount) != Risk.MaxAmount()
  {
    hide Evidence, ConsentGiven, Gate, Fetched, Risk.Checks, RawOf, Acceptable, Valid, LowerOf, LimitsOf, CapsOf, CanonicalDecimal,
      OnRawList, AtMostRaw, ArgsOf, ValueOf, Lower, Resolve, SaidSafe, Risk.AmountEvidence, Get, ComparesArguments, RawVersion,
      ToolSemantics.ResolveCall, LimitOnRaw, TextOf, Lowered;
    var (m, a) := (c.registry[name], ArgsOf(args));
    var (r, e) := (ResolveCall(c, name, m.inputSchemaHash), Evidence(Some(m), args, ctx, simulation));
    GateIff(r, PolicyFrom(Contract(t, config)), e, audited, reviewer);
    CallSemantics(c, name, m.inputSchemaHash);
    FetchedIff(t, config);
    ApprovalFacts(m, args, ctx, simulation, amount);
    ApprovalOnRaw(m, Fetched(t, config).value, RawOf(t).value, e, a["token"], a["spender"], amount);
  }
}
