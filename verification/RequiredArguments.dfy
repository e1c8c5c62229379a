/** What the arguments of a forwarded call hold: nothing that the checks ask for is made up on the way. */
module RequiredArguments {
  import opened Values
  import opened Text
  import opened Coercions
  import opened ToolSemantics
  import opened WalletTools
  import opened PolicyDecision
  import opened PolicySnapshot
  import opened GuardedForward
  import opened ActionCoverage
  import opened CoverageSafety
  import PolicyOrder
  import Risk

  // ----- Which names the evidence has

  /** Entry `j` of the object argument is not null and goes by the dotted name. */
  predicate NestedAt(f: Field, j: nat, name: string) {
    f.value.Obj? && j < |f.value.fields| && f.key + "." + f.value.fields[j].key == name && !f.value.fields[j].value.Null?
  }

  ghost predicate Nested(args: seq<Field>, name: string) {
    exists i, j: nat | 0 <= i < |args| :: NestedAt(args[i], j, name)
  }

  /** The arguments give the name: directly, or dotted as an entry one level down. */
  ghost predicate GivenBy(args: seq<Field>, name: string) {
    Given(ArgsOf(args), name) || Nested(args, name)
  }

  /** The names under which extraction itself may put something that is not an argument of that name. */
  predicate Extracted(name: string) {
    name in {"chain_id", "chain_evidence", "recipient", "amount_atomic", "amount_wei", "simulation", "estimated_gas_cost_wei",
             "finite_amount_evidence", "typed_data_rule_key", "sanitized_address_or_account_context"}
  }

  lemma {:induction false} FlattenOneGiven(e: Record, prefix: string, fields: seq<Field>, name: string)
    ensures Given(FlattenOne(e, prefix, fields), name) <==>
              Given(e, name) || exists j: nat :: NestedAt(Field(prefix, Obj(fields)), j, name)
    decreases |fields|
  {
    var f := Field(prefix, Obj(fields));
    if fields != [] {
      var (dotted, rest) := (prefix + "." + fields[0].key, Field(prefix, Obj(fields[1..])));
      FlattenOneGiven(if Given(e, dotted) then e else e[dotted := fields[0].value], prefix, fields[1..], name);
      if j: nat :| NestedAt(rest, j, name) { assert NestedAt(f, j + 1, name); }
      if j: nat :| NestedAt(f, j, name) {
        if j == 0 { assert dotted == name; } else { assert NestedAt(rest, j - 1, name); }
      }
      if dotted == name && !fields[0].value.Null? { assert NestedAt(f, 0, name); }
    }
  }

  lemma {:induction false} FlattenGiven(e: Record, args: seq<Field>, name: string)
    ensures Given(Flatten(e, args), name) <==> Given(e, name) || Nested(args, name)
    decreases |args|
  {
    hide FlattenOne, NestedAt;
    if args != [] {
      var f := args[0];
      if f.value.Obj? { FlattenOneGiven(e, f.key, f.value.fields, name); }
      assert f.value.Obj? ==> f == Field(f.key, Obj(f.value.fields));
      FlattenGiven(if f.value.Obj? then FlattenOne(e, f.key, f.value.fields) else e, args[1..], name);
      NestedSplit(args, name);
    }
  }

  lemma NestedSplit(args: seq<Field>, name: string)
    requires args != []
    ensures Nested(args, name) <==> (args[0].value.Obj? && exists j: nat :: NestedAt(args[0], j, name)) || Nested(args[1..], name)
  {
    if i, j: nat :| 0 <= i < |args| && NestedAt(args[i], j, name) {
      assert i > 0 ==> NestedAt(args[1..][i - 1], j, name);
    }
    if i, j: nat :| 0 <= i < |args[1..]| && NestedAt(args[1..][i], j, name) { assert NestedAt(args[i + 1], j, name); }
  }

  lemma {:induction false} MarkGivenIff(e: Record, names: seq<string>, name: string)
    requires name !in names
    ensures Given(Mark(e, names), name) <==> Given(e, name)
  {
    MarkKeeps(e, names, name);
  }

  lemma BaseGiven(args: seq<Field>, ctx: Context, name: string)
    requires name != "chain_id" && name != "chain_evidence"
    ensures Get(BaseEvidence(args, ctx), name) == Get(ArgsOf(args), name)
  {
    hide ChainIdOf, ArgsOf;
  }

  lemma LoweredNull(v: Value)
    ensures Lowered(v).Null? <==> v.Null?
    ensures Truthy(v) ==> !v.Null?
  {
  }

  lemma SetLowerGivenIff(e: Record, args: Record, key: string, name: string)
    requires TruthyAt(args, name) ==> Given(e, name)
    ensures Given(SetLower(e, args, key), name) <==> Given(e, name)
  {
    hide Lowered, Truthy;
    if TruthyAt(args, key) { LoweredNull(args[key]); }
  }

  lemma CoreGivenIff(e: Record, args: Record, name: string)
    requires !Extracted(name) && (TruthyAt(args, name) ==> Given(e, name))
    ensures Given(TransferCore(e, args), name) <==> Given(e, name)
  {
    hide Truthy, Lowered, SetLower, RecipientOf, TransferAmount, TextOf;
    var recipient := RecipientOf(args);
    var e1 := if recipient.Some? && Truthy(recipient.value) then e["recipient" := Lowered(recipient.value)] else e;
    assert Given(e1, name) <==> Given(e, name);
    SetLowerGivenIff(e1, args, "token", name);
  }

  lemma TransferGivenIff(e: Record, args: Record, simulation: Option<Value>, name: string)
    requires !Extracted(name) && (TruthyAt(args, name) ==> Given(e, name))
    ensures Given(TransferEvidence(e, args, simulation), name) <==> Given(e, name)
  {
    hide Truthy, TransferCore, TextOf, GasCostOf;
    CoreGivenIff(e, args, name);
  }

  lemma ApprovalGivenIff(e: Record, args: Record, simulation: Option<Value>, name: string)
    requires !Extracted(name) && (TruthyAt(args, name) ==> Given(e, name))
    ensures Given(ApprovalEvidence(e, args, simulation), name) <==> Given(e, name)
  {
    hide Truthy, SetLower, TextOf, Lower;
    SetLowerGivenIff(e, args, "token", name);
    SetLowerGivenIff(SetLower(e, args, "token"), args, "spender", name);
  }

  lemma ClassGivenIff(class_: string, e: Record, args: Record, ctx: Context, simulation: Option<Value>, name: string)
    requires !Extracted(name) && (TruthyAt(args, name) ==> Given(e, name))
    ensures Given(ClassEvidence(class_, e, args, ctx, simulation), name) <==> Given(e, name)
  {
    hide Truthy, SetLower, TransferEvidence, ApprovalEvidence;
    TransferGivenIff(e, args, simulation, name);
    ApprovalGivenIff(e, args, simulation, name);
    var marked := e["sanitized_address_or_account_context" := Bool(true)];
    assert Given(marked, name) <==> Given(e, name);
    SetLowerGivenIff(marked, args, "token", name);
  }

  /** A name that extraction does not fill itself is in the evidence exactly when the arguments give it. */
  lemma EvidenceGivenIff(m: Semantics, args: seq<Field>, ctx: Context, simulation: Option<Value>, name: string)
    requires !Extracted(name) && name !in m.requiredEvidence
    ensures Given(Evidence(Some(m), args, ctx, simulation), name) <==> GivenBy(args, name)
  {
    hide Flatten, Mark, BaseEvidence, ArgsOf, ClassEvidence, Nested, Truthy;
    var base := BaseEvidence(args, ctx);
    BaseGiven(args, ctx, name);
    FlattenGiven(base, args, name);
    MarkGivenIff(Flatten(base, args), m.requiredEvidence, name);
    if TruthyAt(ArgsOf(args), name) { LoweredNull(ArgsOf(args)[name]); }
    ClassGivenIff(m.toolClass, Mark(Flatten(base, args), m.requiredEvidence), ArgsOf(args), ctx, simulation, name);
  }

  lemma NestedDotted(f: Field, j: nat, name: string)
    requires NestedAt(f, j, name)
    ensures !Undotted(name)
  {
    assert name[|f.key|] == '.';
  }

  lemma UndottedGiven(args: seq<Field>, name: string)
    requires Undotted(name)
    ensures GivenBy(args, name) <==> Given(ArgsOf(args), name)
  {
    hide ArgsOf, NestedAt, Undotted;
    if Nested(args, name) {
      var i, j: nat :| 0 <= i < |args| && NestedAt(args[i], j, name);
      NestedDotted(args[i], j, name);
    }
  }

  // ----- What a required field asks of the arguments

  predicate Plain(m: Semantics, name: string) {
    !Extracted(name) && name !in m.requiredEvidence
  }

  /** The name and its part before an underscore are neither filled by extraction nor marked. */
  predicate PlainField(m: Semantics, name: string) {
    Plain(m, name) && forall k | 0 <= k < |name| && name[k] == '_' :: Plain(m, name[..k])
  }

  /** The arguments give an amount under one of the three names, or the value of a transfer. */
  predicate AmountSupplied(m: Semantics, args: Record) {
    Given(args, "amount") || Given(args, "amount_atomic") || Given(args, "amount_wei") ||
    (m.toolClass == "transaction_execute" && Given(args, "value"))
  }

  /** What a required field needs: nothing when it is optional, an amount for `amount`, and otherwise the argument of
      that name, or of its part before the first underscore. */
  ghost predicate Supplied(m: Semantics, args: seq<Field>, name: string) {
    if name == "" || name[|name| - 1] == '?' then true
    else if name == "amount" then AmountSupplied(m, ArgsOf(args))
    else GivenBy(args, name) || exists k | 0 <= k < |name| && name[k] == '_' && '_' !in name[..k] :: GivenBy(args, name[..k])
  }

  lemma {:induction false} StemWhole(name: string)
    requires '_' !in name
    ensures Risk.Stem(name) == name
  {
    if name != "" {
      StemWhole(name[1..]);
      assert name == [name[0]] + name[1..];
    }
  }

  lemma {:induction false} StemFirst(name: string, k: nat)
    requires k < |name| && name[k] == '_' && '_' !in name[..k]
    ensures Risk.Stem(name) == name[..k]
  {
    if k > 0 {
      assert name[0] == name[..k][0];
      assert name[1..][..k - 1] == name[..k][1..];
      StemFirst(name[1..], k - 1);
    }
  }

  lemma {:induction false} FirstUnderscore(name: string) returns (k: nat)
    requires '_' in name
    ensures k < |name| && name[k] == '_' && '_' !in name[..k]
  {
    if name[0] == '_' {
      k := 0;
    } else {
      k := FirstUnderscore(name[1..]);
      k := k + 1;
      assert name[..k] == [name[0]] + name[1..][..k - 1];
    }
  }

  lemma AmountNames(m: Semantics, args: seq<Field>, ctx: Context, simulation: Option<Value>)
    requires ComparesArguments(m)
    ensures var e := Evidence(Some(m), args, ctx, simulation);
            Given(e, "amount") || Given(e, "amount_atomic") || Given(e, "amount_wei") <==> AmountSupplied(m, ArgsOf(args))
  {
    var base := Mark(Flatten(BaseEvidence(args, ctx), args), m.requiredEvidence);
    ComparedNames(m);
    UndottedNames();
    hide Flatten, Mark, BaseEvidence, ArgsOf, ClassEvidence, ComparesArguments, Undotted;
    assert |"amount"| == 6 && |"amount_atomic"| == 13 && |"amount_wei"| == 10 && |"chain_id"| == 8 && |"chain_evidence"| == 14;
    MarkedIsArgument(m, args, ctx, "amount");
    MarkedIsArgument(m, args, ctx, "amount_atomic");
    MarkedIsArgument(m, args, ctx, "amount_wei");
    ClassAmounts(m.toolClass, base, ArgsOf(args), ctx, simulation);
  }

  predicate HasAmount(e: Record) {
    Given(e, "amount") || Given(e, "amount_atomic") || Given(e, "amount_wei")
  }

  lemma ClassAmounts(class_: string, e: Record, args: Record, ctx: Context, simulation: Option<Value>)
    requires Get(e, "amount") == Get(args, "amount")
    ensures HasAmount(ClassEvidence(class_, e, args, ctx, simulation)) <==>
              HasAmount(e) || (class_ == "transaction_execute" && Given(args, "value"))
  {
    hide TransferEvidence, ApprovalEvidence, SignatureEvidence, ReadEvidence, HasAmount;
    ClassNames();
    TransferAmounts(e, args, simulation);
    ApprovalAmounts(e, args, simulation);
    OtherAmounts(e, args, ctx, simulation);
    assert |"signature"| == 9 && |"transaction_execute"| == 19;
  }

  lemma OtherAmounts(e: Record, args: Record, ctx: Context, simulation: Option<Value>)
    ensures HasAmount(SignatureEvidence(e, args, ctx, simulation)) <==> HasAmount(e)
    ensures HasAmount(ReadEvidence(e, args)) <==> HasAmount(e)
  {
    hide Truthy, Lowered;
    assert |"amount"| == 6 && |"amount_atomic"| == 13 && |"amount_wei"| == 10 && |"token"| == 5 && |"typed_data_rule_key"| == 19;
    assert |"simulation"| == 10 && "simulation"[0] != "amount_wei"[0] && |"sanitized_address_or_account_context"| == 36;
  }

  lemma CoreAmounts(e: Record, args: Record)
    requires Get(e, "amount") == Get(args, "amount")
    ensures HasAmount(TransferCore(e, args)) <==> HasAmount(e) || Given(args, "value")
  {
    hide Truthy, Lowered, RecipientOf, TextOf;
    EntryNames();
    assert |"amount"| == 6 && |"amount_atomic"| == 13 && |"amount_wei"| == 10 && |"token"| == 5 && |"recipient"| == 9;
  }

  lemma TransferAmounts(e: Record, args: Record, simulation: Option<Value>)
    requires Get(e, "amount") == Get(args, "amount")
    ensures HasAmount(TransferEvidence(e, args, simulation)) <==> HasAmount(e) || Given(args, "value")
  {
    hide Truthy, TransferCore, TextOf, GasCostOf;
    CoreAmounts(e, args);
    EntryNames();
    assert |"amount"| == 6 && |"simulation"| == 10 && |"estimated_gas_cost_wei"| == 22;
  }

  lemma ApprovalAmounts(e: Record, args: Record, simulation: Option<Value>)
    requires Get(e, "amount") == Get(args, "amount")
    ensures HasAmount(ApprovalEvidence(e, args, simulation)) <==> HasAmount(e)
  {
    hide Truthy, Lowered, TextOf, Lower;
    assert |"amount"| == 6 && |"amount_atomic"| == 13 && |"amount_wei"| == 10 && |"token"| == 5 && |"spender"| == 7;
    assert |"simulation"| == 10 && "simulation"[0] != "amount_wei"[0] && |"finite_amount_evidence"| == 22;
  }

  /** The evidence satisfies a required field exactly when the arguments supply it. */
  lemma SuppliedIff(m: Semantics, args: seq<Field>, ctx: Context, simulation: Option<Value>, name: string)
    requires ComparesArguments(m) && PlainField(m, name)
    ensures Risk.HasEvidence(Evidence(Some(m), args, ctx, simulation), name) <==> Supplied(m, args, name)
  {
    hide Evidence, ArgsOf, GivenBy, Given, ComparesArguments, AmountSupplied, Plain;
    var e := Evidence(Some(m), args, ctx, simulation);
    AmountNames(m, args, ctx, simulation);
    assert Plain(m, name) ==> Given(e, name) == GivenBy(args, name) by { PlainGiven(m, args, ctx, simulation, name); }
    if '_' in name {
      var k := FirstUnderscore(name);
      StemFirst(name, k);
      assert Plain(m, name[..k]);
      PlainGiven(m, args, ctx, simulation, name[..k]);
      if i :| 0 <= i < |name| && name[i] == '_' && '_' !in name[..i] && GivenBy(args, name[..i]) { StemFirst(name, i); }
    } else {
      StemWhole(name);
    }
  }

  lemma PlainGiven(m: Semantics, args: seq<Field>, ctx: Context, simulation: Option<Value>, name: string)
    ensures Plain(m, name) ==> (Given(Evidence(Some(m), args, ctx, simulation), name) <==> GivenBy(args, name))
  {
    hide Evidence, GivenBy, Extracted;
    if Plain(m, name) { EvidenceGivenIff(m, args, ctx, simulation, name); }
  }

  // ----- Forwarded calls

  lemma ForwardedChecks(c: Catalog, name: string, args: seq<Field>, ctx: Context, source: Source, simulation: Option<Value>,
                        consent: Option<Value>, audited: bool, reviewer: Reviewer) returns (s: Snapshot)
    requires Cover(c, name, args, ctx, source, simulation, consent, audited, reviewer) == Gated(Allow)
    ensures name in c.registry && PolicyFrom(source) == Ok(s)
    ensures Risk.Checks(c.registry[name], s, Evidence(Some(c.registry[name]), args, ctx, simulation)) == []
  {
    hide Evidence, ConsentGiven, Gate, PolicyFrom, Risk.Checks, ToolSemantics.ResolveCall, Resolve, SaidSafe, DigestClass;
    var m := SemanticsOf(c, name);
    var hash := if m.Some? then m.value.inputSchemaHash else "";
    GateIff(ResolveCall(c, name, hash), PolicyFrom(source), Evidence(m, args, ctx, simulation), audited, reviewer);
    CallSemantics(c, name, hash);
    s := PolicyFrom(source).value;
  }

  /** A forwarded call's arguments supply every field that the registry requires, under any policy source. */
  lemma ForwardedSupplies(c: Catalog, name: string, args: seq<Field>, ctx: Context, source: Source, simulation: Option<Value>,
                          consent: Option<Value>, audited: bool, reviewer: Reviewer, field: string)
    requires Cover(c, name, args, ctx, source, simulation, consent, audited, reviewer) == Gated(Allow)
    requires name in c.registry && field in c.registry[name].requiredFields
    requires ComparesArguments(c.registry[name]) && PlainField(c.registry[name], field)
    ensures Supplied(c.registry[name], args, field)
  {
    hide Cover, Evidence, Risk.Checks, Supplied, ComparesArguments, PlainField, Risk.ContextChecks, Risk.HasEvidence, PolicyFrom;
    var m := c.registry[name];
    var e := Evidence(Some(m), args, ctx, simulation);
    var s := ForwardedChecks(c, name, args, ctx, source, simulation, consent, audited, reviewer);
    PolicyOrder.ChecksEmptyIff(m, s, e);
    PolicyOrder.ContextEmptyIff(m, s, e);
    SuppliedIff(m, args, ctx, simulation, field);
  }

  /** Under a plain name, such as `to`, the argument itself is there and not null. */
  lemma SuppliedPlainly(m: Semantics, args: seq<Field>, field: string)
    requires Supplied(m, args, field) && field != "" && field[|field| - 1] != '?' && field != "amount"
    requires '_' !in field && Undotted(field)
    ensures Given(ArgsOf(args), field)
  {
    hide ArgsOf, GivenBy, Undotted;
    UndottedGiven(args, field);
  }

  // ----- Signatures, simulations and gas

  /** The rule key of a signature is the context's or the call's own; extraction adds none. */
  lemma SignatureFacts(m: Semantics, args: seq<Field>, ctx: Context, simulation: Option<Value>)
    requires m.toolClass == "signature" && "typed_data_rule_key" !in m.requiredEvidence
    ensures TruthyAt(Evidence(Some(m), args, ctx, simulation), "typed_data_rule_key") <==>
              (ctx.typedDataRuleKey.Some? && Truthy(ctx.typedDataRuleKey.value)) || TruthyAt(ArgsOf(args), "typed_data_rule_key")
  {
    hide Flatten, Mark, BaseEvidence, ArgsOf, Truthy;
    var key := "typed_data_rule_key";
    assert |key| == 19 && |"simulation"| == 10 && |"chain_id"| == 8 && |"chain_evidence"| == 14;
    assert Undotted(key);
    assert |"signature"| == 9 && |"transaction_execute"| == 19 && |"token_approval"| == 14 && "signature"[0] != "read_only"[0];
    MarkedIsArgument(m, args, ctx, key);
  }

  predicate WriteClass(class_: string) {
    class_ in {"transaction_execute", "token_approval", "signature"}
  }

  /** The simulation that is checked: the one given to coverToolCall for a call that transfers, approves or signs,
      otherwise whatever the arguments hold under that name. */
  function CheckedSimulation(class_: string, args: Record, simulation: Option<Value>): Option<Value> {
    if WriteClass(class_) && simulation.Some? && Truthy(simulation.value) then simulation else Get(args, "simulation")
  }

  lemma SimulationFacts(m: Semantics, args: seq<Field>, ctx: Context, simulation: Option<Value>)
    requires "simulation" !in m.requiredEvidence || (WriteClass(m.toolClass) && simulation.Some? && Truthy(simulation.value))
    ensures Get(Evidence(Some(m), args, ctx, simulation), "simulation") == CheckedSimulation(m.toolClass, ArgsOf(args), simulation)
  {
    hide Flatten, Mark, BaseEvidence, ArgsOf, Truthy, ClassEvidence;
    var key := "simulation";
    assert |key| == 10 && |"chain_id"| == 8 && |"chain_evidence"| == 14;
    assert Undotted(key);
    if key !in m.requiredEvidence { MarkedIsArgument(m, args, ctx, key); }
    ClassSimulated(m.toolClass, Mark(Flatten(BaseEvidence(args, ctx), args), m.requiredEvidence), ArgsOf(args), ctx, simulation);
  }

  lemma ClassSimulated(class_: string, e: Record, args: Record, ctx: Context, simulation: Option<Value>)
    requires Get(e, "simulation") == Get(args, "simulation") || (WriteClass(class_) && simulation.Some? && Truthy(simulation.value))
    ensures Get(ClassEvidence(class_, e, args, ctx, simulation), "simulation") == CheckedSimulation(class_, args, simulation)
  {
    hide TextOf, Lowered, Truthy, TransferCore, GasCostOf, Lower, TransferEvidence, ApprovalEvidence;
    assert |"transaction_execute"| == 19 && |"read_only"| == 9 && |"token_approval"| == 14 && |"signature"| == 9;
    assert "signature"[0] != "read_only"[0];
    TransferSimulated(e, args, simulation);
    ApprovalSimulated(e, args, simulation);
    assert |"simulation"| == 10 && |"token"| == 5 && |"typed_data_rule_key"| == 19 && |"sanitized_address_or_account_context"| == 36;
  }

  lemma TransferSimulated(e: Record, args: Record, simulation: Option<Value>)
    ensures Get(TransferEvidence(e, args, simulation), "simulation") ==
            if simulation.Some? && Truthy(simulation.value) then simulation else Get(e, "simulation")
  {
    hide TextOf, Lowered, Truthy, RecipientOf, TransferAmount, GasCostOf;
    assert |"simulation"| == 10 && |"recipient"| == 9 && |"token"| == 5 && |"amount_atomic"| == 13;
    assert |"amount_wei"| == 10 && "amount_wei"[0] != "simulation"[0] && |"estimated_gas_cost_wei"| == 22;
  }

  lemma ApprovalSimulated(e: Record, args: Record, simulation: Option<Value>)
    ensures Get(ApprovalEvidence(e, args, simulation), "simulation") ==
            if simulation.Some? && Truthy(simulation.value) then simulation else Get(e, "simulation")
  {
    hide TextOf, Lowered, Truthy, Lower;
    assert |"simulation"| == 10 && |"token"| == 5 && |"spender"| == 7 && |"amount_atomic"| == 13 && |"finite_amount_evidence"| == 22;
  }

  /** The gas cost that is checked: for a transfer the simulation's, when it has one, otherwise the argument. */
  function CheckedGas(class_: string, args: Record, simulation: Option<Value>): Option<Value> {
    var cost := if simulation.Some? then FieldOf(simulation.value, "estimated_gas_cost_wei") else None;
    if class_ == "transaction_execute" && cost.Some? && Truthy(cost.value) then Some(Str(TextOf(cost.value)))
    else Get(args, "estimated_gas_cost_wei")
  }

  lemma GasFacts(m: Semantics, args: seq<Field>, ctx: Context, simulation: Option<Value>)
    requires ComparesArguments(m)
    ensures Get(Evidence(Some(m), args, ctx, simulation), "estimated_gas_cost_wei") == CheckedGas(m.toolClass, ArgsOf(args), simulation)
  {
    hide Flatten, Mark, BaseEvidence, ArgsOf, Truthy, ClassEvidence, ComparesArguments, FieldOf, TextOf;
    var key := "estimated_gas_cost_wei";
    assert |key| == 22 && |"chain_id"| == 8 && |"chain_evidence"| == 14;
    assert Undotted(key);
    ComparedNames(m);
    MarkedIsArgument(m, args, ctx, key);
    ClassGas(m.toolClass, Mark(Flatten(BaseEvidence(args, ctx), args), m.requiredEvidence), ArgsOf(args), ctx, simulation);
  }

  lemma ClassGas(class_: string, e: Record, args: Record, ctx: Context, simulation: Option<Value>)
    requires Get(e, "estimated_gas_cost_wei") == Get(args, "estimated_gas_cost_wei")
    ensures Get(ClassEvidence(class_, e, args, ctx, simulation), "estimated_gas_cost_wei") == CheckedGas(class_, args, simulation)
  {
    hide TextOf, Lowered, Truthy, FieldOf, Lower, TransferEvidence, ApprovalEvidence;
    ClassNames();
    TransferGas(e, args, simulation);
    ApprovalGas(e, args, simulation);
    assert |"estimated_gas_cost_wei"| == 22 && |"simulation"| == 10 && |"token"| == 5 && |"typed_data_rule_key"| == 19;
    assert |"sanitized_address_or_account_context"| == 36 && |"signature"| == 9 && |"transaction_execute"| == 19;
  }

  lemma TransferGas(e: Record, args: Record, simulation: Option<Value>)
    requires Get(e, "estimated_gas_cost_wei") == Get(args, "estimated_gas_cost_wei")
    ensures Get(TransferEvidence(e, args, simulation), "estimated_gas_cost_wei") == CheckedGas("transaction_execute", args, simulation)
  {
    hide TextOf, Lowered, Truthy, RecipientOf, TransferAmount, FieldOf;
    assert |"estimated_gas_cost_wei"| == 22 && |"simulation"| == 10 && |"recipient"| == 9 && |"token"| == 5 && |"amount_atomic"| == 13;
    assert |"amount_wei"| == 10;
  }

  lemma ApprovalGas(e: Record, args: Record, simulation: Option<Value>)
    ensures Get(ApprovalEvidence(e, args, simulation), "estimated_gas_cost_wei") == Get(e, "estimated_gas_cost_wei")
  {
    hide TextOf, Lowered, Truthy, Lower;
    assert |"estimated_gas_cost_wei"| == 22 && "estimated_gas_cost_wei"[0] != "finite_amount_evidence"[0];
    assert |"token"| == 5 && |"spender"| == 7 && |"simulation"| == 10 && |"amount_atomic"| == 13;
  }

  /** The simulation reports neither a failure nor that it is unavailable. */
  predicate Succeeded(simulation: Option<Value>) {
    simulation.Some? && Truthy(simulation.value) &&
    FieldOf(simulation.value, "status") != Some(Str("failed")) && FieldOf(simulation.value, "status") != Some(Str("unavailable"))
  }

  /** A forwarded transfer, approval, signature or contract write, or any call whose tool asks for one, has a
      simulation that succeeded: the one given to coverToolCall, or what the arguments hold in its place. */
  lemma ForwardedSimulated(c: Catalog, name: string, args: seq<Field>, ctx: Context, source: Source, simulation: Option<Value>,
                           consent: Option<Value>, audited: bool, reviewer: Reviewer)
    requires Cover(c, name, args, ctx, source, simulation, consent, audited, reviewer) == Gated(Allow)
    requires name in c.registry
    requires "simulation" !in c.registry[name].requiredEvidence ||
             (WriteClass(c.registry[name].toolClass) && simulation.Some? && Truthy(simulation.value))
    requires c.registry[name].requiresSimulation || WriteClass(c.registry[name].toolClass) || c.registry[name].toolClass == "contract_write"
    ensures Succeeded(CheckedSimulation(c.registry[name].toolClass, ArgsOf(args), simulation))
  {
    hide Cover, Evidence, Risk.Checks, Risk.ContextChecks, PolicyFrom, ArgsOf, CheckedSimulation, PolicyOrder.AllGiven, NumberIs, Risk.KeyOf,
      Truthy, FieldOf;
    var m := c.registry[name];
    var e := Evidence(Some(m), args, ctx, simulation);
    var s := ForwardedChecks(c, name, args, ctx, source, simulation, consent, audited, reviewer);
    PolicyOrder.ChecksEmptyIff(m, s, e);
    PolicyOrder.ContextEmptyIff(m, s, e);
    SimulationFacts(m, args, ctx, simulation);
  }

  /** A forwarded signature has a rule key of its own or of its context, consent, and a simulation that succeeded. */
  lemma ForwardedSignature(c: Catalog, name: string, args: seq<Field>, ctx: Context, source: Source, simulation: Option<Value>,
                           consent: Option<Value>, audited: bool, reviewer: Reviewer)
    requires Cover(c, name, args, ctx, source, simulation, consent, audited, reviewer) == Gated(Allow)
    requires name in c.registry && c.registry[name].toolClass == "signature"
    requires "typed_data_rule_key" !in c.registry[name].requiredEvidence && "simulation" !in c.registry[name].requiredEvidence
    ensures (ctx.typedDataRuleKey.Some? && Truthy(ctx.typedDataRuleKey.value)) || TruthyAt(ArgsOf(args), "typed_data_rule_key")
    ensures ConsentGiven(consent) && Succeeded(CheckedSimulation("signature", ArgsOf(args), simulation))
  {
    assert ConsentGiven(consent) by { hide Gate, ResolveCall, PolicyFrom, Evidence, ConsentGiven; }
    hide Cover, Evidence, Risk.Checks, PolicyFrom, ArgsOf, CheckedSimulation, Truthy, Risk.ContextChecks, ConsentGiven;
    var m := c.registry[name];
    var e := Evidence(Some(m), args, ctx, simulation);
    var s := ForwardedChecks(c, name, args, ctx, source, simulation, consent, audited, reviewer);
    PolicyOrder.ChecksEmptyIff(m, s, e);
    SignatureFacts(m, args, ctx, simulation);
    ForwardedSimulated(c, name, args, ctx, source, simulation, consent, audited, reviewer);
  }

  /** A forwarded call's gas cost, where it can be read, is at most the policy's gas cap. */
  lemma ForwardedGas(c: Catalog, name: string, args: seq<Field>, ctx: Context, source: Source, s: Snapshot, simulation: Option<Value>,
                     consent: Option<Value>, audited: bool, reviewer: Reviewer)
    requires Cover(c, name, args, ctx, source, simulation, consent, audited, reviewer) == Gated(Allow) && PolicyFrom(source) == Ok(s)
    requires name in c.registry && ComparesArguments(c.registry[name])
    ensures var gas := CheckedGas(c.registry[name].toolClass, ArgsOf(args), simulation);
            gas.Some? && Truthy(gas.value) && Risk.AmountOf(gas).Some? ==> Risk.AmountOf(gas).value <= Risk.CapOf(s.caps.gas)
  {
    hide Cover, Evidence, Risk.Checks, PolicyFrom, ArgsOf, CheckedGas, Truthy, Risk.ContextChecks, ComparesArguments, Risk.AmountOf, Risk.CapOf;
    var m := c.registry[name];
    var t := ForwardedChecks(c, name, args, ctx, source, simulation, consent, audited, reviewer);
    PolicyOrder.ChecksEmptyIff(m, s, Evidence(Some(m), args, ctx, simulation));
    GasFacts(m, args, ctx, simulation);
  }

  // ----- The chain

  /** The chain the call names: the context's, else the call's own argument. */
  function NamedChain(args: Record, ctx: Context): Option<Value> {
    if ctx.chainId.Some? && !ctx.chainId.value.Null? then ctx.chainId
    else if Given(args, "chainId") then Some(args["chainId"]) else None
  }

  lemma ChainFacts(m: Semantics, args: seq<Field>, ctx: Context, simulation: Option<Value>)
    requires "chain_id" !in m.requiredEvidence
    ensures var (e, chain) := (Evidence(Some(m), args, ctx, simulation), NamedChain(ArgsOf(args), ctx));
            Given(e, "chain_id") && (NumberIs(e["chain_id"], 10143) <==> chain.None? || NumberIs(chain.value, 10143))
  {
    var (base, key) := (BaseEvidence(args, ctx), "chain_id");
    hide Flatten, Mark, ArgsOf, ClassEvidence, AsNumber, NumberIs;
    assert |"chain_id"| == 8 && |"chain_evidence"| == 14;
    ChainIs(ArgsOf(args), ctx);
    assert '.' !in key;
    FlattenKeeps(base, args, key);
    MarkKeeps(Flatten(base, args), m.requiredEvidence, key);
    ClassChain(m.toolClass, Mark(Flatten(base, args), m.requiredEvidence), ArgsOf(args), ctx, simulation);
  }

  lemma ChainIs(args: Record, ctx: Context)
    ensures !ChainIdOf(args, ctx).Null?
    ensures NumberIs(ChainIdOf(args, ctx), 10143) <==> NamedChain(args, ctx).None? || NumberIs(NamedChain(args, ctx).value, 10143)
  {
    assert CanonicalDecimal("10143");
    Risk.FiveDigits("10143");
    assert !Digit("NaN"[0]);
    hide ValueOf, CanonicalDecimal;
  }

  lemma ClassChain(class_: string, e: Record, args: Record, ctx: Context, simulation: Option<Value>)
    ensures Get(ClassEvidence(class_, e, args, ctx, simulation), "chain_id") == Get(e, "chain_id")
  {
    hide TransferEvidence, ApprovalEvidence, Truthy, Lowered;
    TransferChain(e, args, simulation);
    ApprovalChain(e, args, simulation);
    assert |"chain_id"| == 8 && |"token"| == 5 && |"simulation"| == 10 && |"typed_data_rule_key"| == 19;
    assert |"sanitized_address_or_account_context"| == 36;
  }

  lemma TransferChain(e: Record, args: Record, simulation: Option<Value>)
    ensures Get(TransferEvidence(e, args, simulation), "chain_id") == Get(e, "chain_id")
  {
    hide Truthy, Lowered, TextOf, RecipientOf, TransferAmount, GasCostOf;
    assert |"chain_id"| == 8 && |"token"| == 5 && |"simulation"| == 10 && |"recipient"| == 9 && |"amount_atomic"| == 13;
    assert |"amount_wei"| == 10 && |"estimated_gas_cost_wei"| == 22;
  }

  lemma ApprovalChain(e: Record, args: Record, simulation: Option<Value>)
    ensures Get(ApprovalEvidence(e, args, simulation), "chain_id") == Get(e, "chain_id")
  {
    hide Truthy, Lowered, TextOf, Lower;
    assert |"chain_id"| == 8 && |"token"| == 5 && |"simulation"| == 10 && |"spender"| == 7 && |"amount_atomic"| == 13;
    assert |"finite_amount_evidence"| == 22;
  }

  /** A forwarded call that names a chain, in its context or else in its arguments, names Monad Testnet. */
  lemma ForwardedChain(c: Catalog, name: string, args: seq<Field>, ctx: Context, source: Source, simulation: Option<Value>,
                       consent: Option<Value>, audited: bool, reviewer: Reviewer)
    requires Cover(c, name, args, ctx, source, simulation, consent, audited, reviewer) == Gated(Allow)
    requires name in c.registry && "chain_id" !in c.registry[name].requiredEvidence
    ensures NamedChain(ArgsOf(args), ctx).Some? ==> NumberIs(NamedChain(ArgsOf(args), ctx).value, 10143)
  {
    hide Cover, Evidence, Risk.Checks, Risk.ContextChecks, PolicyFrom, ArgsOf, NamedChain, PolicyOrder.AllGiven, NumberIs, Risk.KeyOf,
      PolicyOrder.SimulationFine;
    var m := c.registry[name];
    var e := Evidence(Some(m), args, ctx, simulation);
    var s := ForwardedChecks(c, name, args, ctx, source, simulation, consent, audited, reviewer);
    PolicyOrder.ChecksEmptyIff(m, s, e);
    PolicyOrder.ContextEmptyIff(m, s, e);
    ChainFacts(m, args, ctx, simulation);
  }

  // ----- Reads

  /** A forwarded read of a token reads one that the policy lists. */
  lemma ForwardedRead(c: Catalog, name: string, args: seq<Field>, ctx: Context, source: Source, s: Snapshot, simulation: Option<Value>,
                      consent: Option<Value>, audited: bool, reviewer: Reviewer)
    requires Cover(c, name, args, ctx, source, simulation, consent, audited, reviewer) == Gated(Allow) && PolicyFrom(source) == Ok(s)
    requires name in c.registry && c.registry[name].toolClass == "read_only" && ComparesArguments(c.registry[name])
    requires TruthyAt(ArgsOf(args), "token")
    ensures ArgsOf(args)["token"].Str? && Lower(ArgsOf(args)["token"].s) in s.tokens
  {
    hide Cover, Evidence, Risk.Checks, PolicyFrom, ArgsOf, Truthy, Risk.ContextChecks, ComparesArguments, Lower, Lowered, Risk.ListedIn;
    var m := c.registry[name];
    var t := ForwardedChecks(c, name, args, ctx, source, simulation, consent, audited, reviewer);
    PolicyOrder.ChecksEmptyIff(m, s, Evidence(Some(m), args, ctx, simulation));
    ReadFacts(m, args, ctx, simulation);
    ListedText(Evidence(Some(m), args, ctx, simulation), "token", s.tokens, ArgsOf(args)["token"]);
  }

  lemma ReadFacts(m: Semantics, args: seq<Field>, ctx: Context, simulation: Option<Value>)
    requires m.toolClass == "read_only" && ComparesArguments(m)
    ensures Get(Evidence(Some(m), args, ctx, simulation), "token") == TokenOf(ArgsOf(args))
  {
    hide Flatten, Mark, BaseEvidence, ArgsOf, Truthy, Lowered, ComparesArguments;
    UndottedNames();
    ComparedNames(m);
    assert |"token"| == 5 && |"chain_id"| == 8 && |"chain_evidence"| == 14 && |"sanitized_address_or_account_context"| == 36;
    MarkedIsArgument(m, args, ctx, "token");
  }

  // ----- The wallet's own tools

  lemma WalletCompares(m: Semantics)
    requires WalletTool(m)
    ensures ComparesArguments(m) && "simulation" !in m.requiredEvidence && "typed_data_rule_key" !in m.requiredEvidence
  {
    EvidenceNames(m);
    hide WalletTool;
    assert |"simulation"| == 10 && |"typed_data_rule_key"| == 19 && "typed_data_rule_key"[0] == 't';
    forall k | k in m.requiredEvidence ensures !ComparedName(k) {
      if ComparedName(k) { ComparedShort(k); }
    }
  }

  lemma ComparedShort(key: string)
    requires ComparedName(key)
    ensures |key| <= 13 || (|key| == 22 && key[0] == 'e')
  {
  }

  lemma ExtractedShort(name: string)
    requires Extracted(name) && |name| <= 11
    ensures name == "recipient" || name == "simulation" || '_' in name
  {
    assert |"chain_evidence"| == 14 && |"amount_atomic"| == 13 && |"estimated_gas_cost_wei"| == 22 && |"finite_amount_evidence"| == 22;
    assert |"typed_data_rule_key"| == 19 && |"sanitized_address_or_account_context"| == 36;
    assert "chain_id"[5] == '_' && "amount_wei"[6] == '_';
  }

  lemma NoUnderscore(m: Semantics, name: string)
    requires '_' !in name && Plain(m, name)
    ensures PlainField(m, name)
  {
    hide Plain;
    forall k | 0 <= k < |name| ensures name[k] != '_' { assert name[k] in name; }
  }

  lemma ShortPlain(m: Semantics, name: string)
    requires WalletTool(m) && |name| <= 11 && '_' !in name && name != "recipient" && name != "simulation"
    ensures PlainField(m, name)
  {
    EvidenceNames(m);
    hide WalletTool, Extracted, PlainField;
    if Extracted(name) { ExtractedShort(name); }
    NoUnderscore(m, name);
  }

  /** A forwarded call of a wallet tool gives the field, where its name is short and plain. */
  lemma WalletField(c: Catalog, name: string, args: seq<Field>, ctx: Context, source: Source, simulation: Option<Value>,
                    consent: Option<Value>, audited: bool, reviewer: Reviewer, field: string)
    requires Cover(c, name, args, ctx, source, simulation, consent, audited, reviewer) == Gated(Allow)
    requires name in c.registry && WalletTool(c.registry[name]) && field in c.registry[name].requiredFields
    requires 0 < |field| <= 11 && '_' !in field && '?' !in field && '.' !in field && field != "recipient" && field != "simulation"
    ensures if field == "amount" then AmountSupplied(c.registry[name], ArgsOf(args)) else Given(ArgsOf(args), field)
  {
    hide Cover, ArgsOf, WalletTool, PlainField, GivenBy;
    var m := c.registry[name];
    WalletCompares(m);
    ShortPlain(m, field);
    ForwardedSupplies(c, name, args, ctx, source, simulation, consent, audited, reviewer, field);
    assert field[|field| - 1] in field;
    if field != "amount" { SuppliedPlainly(m, args, field); }
  }

  /** No forwarded call of a wallet tool lacks a field the wallet needs. */
  lemma WalletArguments(c: Catalog, name: string, args: seq<Field>, ctx: Context, source: Source, simulation: Option<Value>,
                        consent: Option<Value>, audited: bool, reviewer: Reviewer)
    requires Cover(c, name, args, ctx, source, simulation, consent, audited, reviewer) == Gated(Allow) && name in c.registry
    ensures var (m, a) := (c.registry[name], ArgsOf(args));
            && (m == SendTool() ==> Given(a, "to") && Given(a, "value"))
            && (m == TransferTool() ==> Given(a, "token") && Given(a, "to") && AmountSupplied(m, a))
            && (m == ApproveTool() ==> Given(a, "token") && Given(a, "spender") && AmountSupplied(m, a))
            && (m == SignTool() ==> Given(a, "domain") && Given(a, "types") && Given(a, "primaryType") && Given(a, "message"))
  {
    var m := c.registry[name];
    if WalletTool(m) {
      WalletFields(m);
      hide Cover, ArgsOf, WalletTool, SendTool, TransferTool, ApproveTool, SignTool, AmountSupplied;
      forall f | f in m.requiredFields && Needed(f)
        ensures if f == "amount" then AmountSupplied(m, ArgsOf(args)) else Given(ArgsOf(args), f)
      {
        NeededShort(f);
        WalletField(c, name, args, ctx, source, simulation, consent, audited, reviewer, f);
      }
      NeededNames();
    }
  }

  predicate Needed(field: string) {
    field in {"to", "value", "token", "amount", "spender", "domain", "types", "primaryType", "message"}
  }

  lemma NeededNames()
    ensures Needed("to") && Needed("value") && Needed("token") && Needed("amount") && Needed("spender") && Needed("domain") && Needed("types")
    ensures Needed("primaryType") && Needed("message")
    ensures "to" != "amount" && "value" != "amount" && "token" != "amount" && "spender" != "amount" && "domain" != "amount"
    ensures "types" != "amount" && "primaryType" != "amount" && "message" != "amount"
  {
    assert |"to"| == 2 && |"value"| == 5 && |"token"| == 5 && |"spender"| == 7 && |"types"| == 5 && |"primaryType"| == 11 && |"message"| == 7;
    assert |"amount"| == 6 && |"domain"| == 6 && "amount"[0] != "domain"[0];
  }

  lemma NeededShort(field: string)
    requires Needed(field)
    ensures 0 < |field| <= 11 && '_' !in field && '?' !in field && '.' !in field && field != "recipient" && field != "simulation"
  {
    assert |"recipient"| == 9 && |"simulation"| == 10;
  }

  lemma WalletFields(m: Semantics)
    requires WalletTool(m)
    ensures m == SendTool() ==> "to" in m.requiredFields && "value" in m.requiredFields
    ensures m == TransferTool() ==> "token" in m.requiredFields && "to" in m.requiredFields && "amount" in m.requiredFields
    ensures m == ApproveTool() ==> "token" in m.requiredFields && "spender" in m.requiredFields && "amount" in m.requiredFields
    ensures m == SignTool() ==> "domain" in m.requiredFields && "types" in m.requiredFields && "primaryType" in m.requiredFields
    ensures m == SignTool() ==> "message" in m.requiredFields
  {
    var (s, t, a, g) := (SendTool().requiredFields, TransferTool().requiredFields, ApproveTool().requiredFields, SignTool().requiredFields);
    assert s[0] == "to" && s[1] == "value" && t[0] == "token" && t[1] == "to" && t[2] == "amount";
    assert a[0] == "token" && a[1] == "spender" && a[2] == "amount";
    assert g[0] == "domain" && g[1] == "types" && g[2] == "primaryType" && g[3] == "message";
  }
}
