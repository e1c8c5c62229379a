/** From a tool call's arguments to the evidence the gate checks, behind the consent gate. */
module ActionCoverage {
  import opened Values
  import opened Text
  import opened Coercions
  import opened ToolSemantics
  import Risk

  datatype Context = Context(chainId: Option<Value>, account: Option<Value>, typedDataRuleKey: Option<Value>)

  /** The value as a number; texts that are not canonical numerals read as not a number. */
  function AsNumber(v: Value): Value {
    if CanonicalDecimal(TextOf(v)) then Num(TextOf(v)) else Num("NaN")
  }

  /** The arguments as a record; each name occurs once. */
  function ArgsOf(args: seq<Field>): Record {
    if args == [] then map[]
    else ArgsOf(args[..|args| - 1])[args[|args| - 1].key := args[|args| - 1].value]
  }

  function ChainIdOf(args: Record, ctx: Context): Value {
    if ctx.chainId.Some? && !ctx.chainId.value.Null? then AsNumber(ctx.chainId.value)
    else if Given(args, "chainId") then AsNumber(args["chainId"])
    else Num("10143")
  }

  /** Adds the entries of one nested object under dotted names. */
  function FlattenOne(e: Record, prefix: string, fields: seq<Field>): Record
    decreases |fields|
  {
    if fields == [] then e
    else
      var name := prefix + "." + fields[0].key;
      FlattenOne(if Given(e, name) then e else e[name := fields[0].value], prefix, fields[1..])
  }

  function Flatten(e: Record, args: seq<Field>): Record
    decreases |args|
  {
    if args == [] then e
    else Flatten(if args[0].value.Obj? then FlattenOne(e, args[0].key, args[0].value.fields) else e, args[1..])
  }

  /** Marks the required evidence names that nothing has filled. */
  function Mark(e: Record, names: seq<string>): Record
    decreases |names|
  {
    if names == [] then e
    else Mark(if !Risk.Optional(names[0]) && !Given(e, names[0]) then e[names[0] := Bool(true)] else e, names[1..])
  }

  function SetIf(e: Record, condition: bool, key: string, v: Value): Record {
    if condition then e[key := v] else e
  }

  /** Copies a truthy argument, in lower case when it is text. */
  function SetLower(e: Record, args: Record, key: string): Record {
    if TruthyAt(args, key) then e[key := Lowered(args[key])] else e
  }

  function SetSimulation(e: Record, simulation: Option<Value>): Record {
    SetIf(e, simulation.Some? && Truthy(simulation.value), "simulation", if simulation.Some? then simulation.value else Null)
  }

  /** The first truthy of the three names a recipient goes by. */
  function RecipientOf(args: Record): Option<Value> {
    Either(Get(args, "to"), Either(Get(args, "recipient"), Get(args, "recipientAddress")))
  }

  /** The amount argument, or the value argument when no amount is given. */
  function TransferAmount(args: Record): Option<Value> {
    if Given(args, "amount") then Some(args["amount"]) else Get(args, "value")
  }

  function GasCostOf(simulation: Option<Value>): Option<Value> {
    if simulation.Some? then FieldOf(simulation.value, "estimated_gas_cost_wei") else None
  }

  /** Recipient, token and amount of a transfer. */
  function TransferCore(e: Record, args: Record): Record {
    var recipient := RecipientOf(args);
    var e1 := if recipient.Some? && Truthy(recipient.value) then e["recipient" := Lowered(recipient.value)] else e;
    var e2 := SetLower(e1, args, "token");
    var amount := TransferAmount(args);
    if amount.Some? && !amount.value.Null? then
      e2[(if TruthyAt(args, "token") then "amount_atomic" else "amount_wei") := Str(TextOf(amount.value))]
    else e2
  }

  /** The simulation and, when it has one, its estimated gas cost. */
  function WithGas(e: Record, simulation: Option<Value>): Record {
    var gas := GasCostOf(simulation);
    var f := SetSimulation(e, simulation);
    if gas.Some? && Truthy(gas.value) then f["estimated_gas_cost_wei" := Str(TextOf(gas.value))] else f
  }

  function TransferEvidence(e: Record, args: Record, simulation: Option<Value>): Record {
    WithGas(TransferCore(e, args), simulation)
  }

  function ApprovalEvidence(e: Record, args: Record, simulation: Option<Value>): Record {
    var e1 := SetLower(SetLower(e, args, "token"), args, "spender");
    var e2 := if Given(args, "amount") then e1["amount_atomic" := Str(TextOf(args["amount"]))] else e1;
    var finite := Lower(if "amount" in args then TextOf(args["amount"]) else "undefined") != "uint256.max";
    SetSimulation(e2["finite_amount_evidence" := Bool(finite)], simulation)
  }

  function SignatureEvidence(e: Record, args: Record, ctx: Context, simulation: Option<Value>): Record {
    var rule := Either(ctx.typedDataRuleKey, Get(args, "typed_data_rule_key"));
    SetSimulation(SetIf(e, rule.Some? && Truthy(rule.value), "typed_data_rule_key", if rule.Some? then rule.value else Null), simulation)
  }

  function ReadEvidence(e: Record, args: Record): Record {
    SetLower(e["sanitized_address_or_account_context" := Bool(true)], args, "token")
  }

  function BaseEvidence(args: seq<Field>, ctx: Context): Record {
    var chain := ChainIdOf(ArgsOf(args), ctx);
    ArgsOf(args)["chain_id" := chain]["chain_evidence" := Obj([Field("chain_id", chain)])]
  }

  function ClassEvidence(class_: string, e: Record, args: Record, ctx: Context, simulation: Option<Value>): Record {
    if class_ == "read_only" then ReadEvidence(e, args)
    else if class_ == "transaction_execute" then TransferEvidence(e, args, simulation)
    else if class_ == "token_approval" then ApprovalEvidence(e, args, simulation)
    else if class_ == "signature" then SignatureEvidence(e, args, ctx, simulation)
    else e
  }

  function Evidence(m: Option<Semantics>, args: seq<Field>, ctx: Context, simulation: Option<Value>): Record {
    var base := Flatten(BaseEvidence(args, ctx), args);
    if m.None? then base
    else ClassEvidence(m.value.toolClass, Mark(base, m.value.requiredEvidence), ArgsOf(args), ctx, simulation)
  }

  // ----- The program

  method SpreadArgs(args: seq<Field>) returns (e: Record)
    ensures e == ArgsOf(args)
  {
    e := map[];
    for i := 0 to |args|
      invariant e == ArgsOf(args[..i])
    {
      assert args[..i + 1][..i] == args[..i];
      e := e[args[i].key := args[i].value];
    }
    assert args[..|args|] == args;
  }

  method FlattenInto(before: Record, prefix: string, fields: seq<Field>) returns (e: Record)
    ensures e == FlattenOne(before, prefix, fields)
  {
    e := before;
    for i := 0 to |fields|
      invariant FlattenOne(e, prefix, fields[i..]) == FlattenOne(before, prefix, fields)
    {
      assert fields[i..][1..] == fields[i + 1..];
      var name := prefix + "." + fields[i].key;
      if !Given(e, name) {
        e := e[name := fields[i].value];
      }
    }
  }

  method ExtractEvidence(m: Option<Semantics>, args: seq<Field>, ctx: Context, simulation: Option<Value>) returns (e: Record)
    ensures e == Evidence(m, args, ctx, simulation)
  {
    hide ClassEvidence, ChainIdOf, Risk.Optional;
    var given := SpreadArgs(args);
    var chain := ChainIdOf(given, ctx);
    e := given["chain_id" := chain]["chain_evidence" := Obj([Field("chain_id", chain)])];
    ghost var base := e;
    for i := 0 to |args|
      invariant Flatten(e, args[i..]) == Flatten(base, args)
    {
      assert args[i..][1..] == args[i + 1..];
      if args[i].value.Obj? {
        e := FlattenInto(e, args[i].key, args[i].value.fields);
      }
    }
    if m.None? {
      return;
    }
    var names := m.value.requiredEvidence;
    ghost var flat := e;
    for i := 0 to |names|
      invariant Mark(e, names[i..]) == Mark(flat, names)
    {
      assert names[i..][1..] == names[i + 1..];
      if !Risk.Optional(names[i]) && !Given(e, names[i]) {
        e := e[names[i] := Bool(true)];
      }
    }
    e := ClassFields(m.value.toolClass, e, given, ctx, simulation);
  }

  method ClassFields(class_: string, before: Record, args: Record, ctx: Context, simulation: Option<Value>) returns (e: Record)
    ensures e == ClassEvidence(class_, before, args, ctx, simulation)
  {
    hide TextOf, Lower, FieldOf;
    e := before;
    if class_ == "read_only" {
      e := e["sanitized_address_or_account_context" := Bool(true)];
      if TruthyAt(args, "token") {
        e := e["token" := Lowered(args["token"])];
      }
    } else if class_ == "transaction_execute" {
      e := TransferFields(e, args, simulation);
    } else if class_ == "token_approval" {
      e := ApprovalFields(e, args, simulation);
    } else if class_ == "signature" {
      var rule := Either(ctx.typedDataRuleKey, Get(args, "typed_data_rule_key"));
      if rule.Some? && Truthy(rule.value) {
        e := e["typed_data_rule_key" := rule.value];
      }
      if simulation.Some? && Truthy(simulation.value) {
        e := e["simulation" := simulation.value];
      }
    }
  }

  method TransferFields(before: Record, args: Record, simulation: Option<Value>) returns (e: Record)
    ensures e == TransferEvidence(before, args, simulation)
  {
    hide TextOf, Lower, FieldOf;
    e := before;
    var recipient := RecipientOf(args);
    if recipient.Some? && Truthy(recipient.value) {
      e := e["recipient" := Lowered(recipient.value)];
    }
    if TruthyAt(args, "token") {
      e := e["token" := Lowered(args["token"])];
    }
    var amount := TransferAmount(args);
    if amount.Some? && !amount.value.Null? {
      if TruthyAt(args, "token") {
        e := e["amount_atomic" := Str(TextOf(amount.value))];
      } else {
        e := e["amount_wei" := Str(TextOf(amount.value))];
      }
    }
    if simulation.Some? && Truthy(simulation.value) {
      e := e["simulation" := simulation.value];
    }
    var gas := GasCostOf(simulation);
    if gas.Some? && Truthy(gas.value) {
      e := e["estimated_gas_cost_wei" := Str(TextOf(gas.value))];
    }
  }

  method ApprovalFields(before: Record, args: Record, simulation: Option<Value>) returns (e: Record)
    ensures e == ApprovalEvidence(before, args, simulation)
  {
    hide TextOf, Lower, FieldOf;
    e := before;
    if TruthyAt(args, "token") {
      e := e["token" := Lowered(args["token"])];
    }
    if TruthyAt(args, "spender") {
      e := e["spender" := Lowered(args["spender"])];
    }
    if Given(args, "amount") {
      e := e["amount_atomic" := Str(TextOf(args["amount"]))];
    }
    var text := if "amount" in args then TextOf(args["amount"]) else "undefined";
    e := e["finite_amount_evidence" := Bool(Lower(text) != "uint256.max")];
    if simulation.Some? && Truthy(simulation.value) {
      e := e["simulation" := simulation.value];
    }
  }
}
