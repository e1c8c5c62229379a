/** What the amount of a forwarded call may be: exactly which amounts the caps and limits bind, end to end, and
    that an amount the program cannot read passes them all. */
module AmountGaps {
  import opened Values
  import opened Text
  import opened Coercions
  import opened ToolSemantics
  import opened PolicyDecision
  import opened PolicySnapshot
  import opened GuardedForward
  import opened ActionCoverage
  import opened CoverageSafety
  import opened PolicyOrder
  import Risk
  import WeiHex

  // ----- Replacing one argument

  /** The call's arguments with the named one replaced. */
  function WithArgument(args: seq<Field>, key: string, v: Value): (r: seq<Field>)
    ensures |r| == |args| && forall i | 0 <= i < |r| :: r[i] == if args[i].key == key then Field(key, v) else args[i]
  {
    seq(|args|, i requires 0 <= i < |args| => if args[i].key == key then Field(key, v) else args[i])
  }

  lemma {:induction false} ArgsOfWith(args: seq<Field>, key: string, v: Value)
    ensures ArgsOf(WithArgument(args, key, v)) == if key in ArgsOf(args) then ArgsOf(args)[key := v] else ArgsOf(args)
  {
    if args != [] {
      var k := |args| - 1;
      ArgsOfWith(args[..k], key, v);
      assert WithArgument(args, key, v)[..k] == WithArgument(args[..k], key, v);
    }
  }

  /** The named argument is not an object, whose entries would be flattened. */
  predicate FlatAt(args: seq<Field>, key: string) {
    forall i | 0 <= i < |args| :: args[i].key == key ==> !args[i].value.Obj?
  }

  lemma {:induction false} FlattenWith(e: Record, args: seq<Field>, key: string, v: Value)
    requires FlatAt(args, key) && !v.Obj?
    ensures Flatten(e, WithArgument(args, key, v)) == Flatten(e, args)
    decreases |args|
  {
    hide FlattenOne;
    if args != [] {
      assert WithArgument(args, key, v)[1..] == WithArgument(args[1..], key, v);
      assert forall i | 0 <= i < |args[1..]| :: args[1..][i] == args[i + 1];
      FlattenWith(if args[0].value.Obj? then FlattenOne(e, args[0].key, args[0].value.fields) else e, args[1..], key, v);
    }
  }

  lemma {:induction false} FlattenOneSet(e: Record, prefix: string, fields: seq<Field>, key: string, v: Value)
    requires Given(e, key) && !v.Null?
    ensures Given(FlattenOne(e, prefix, fields), key)
    ensures FlattenOne(e[key := v], prefix, fields) == FlattenOne(e, prefix, fields)[key := v]
    decreases |fields|
  {
    if fields != [] {
      var name := prefix + "." + fields[0].key;
      var next := if Given(e, name) then e else e[name := fields[0].value];
      FlattenOneSet(next, prefix, fields[1..], key, v);
      assert name != key ==> e[key := v][name := fields[0].value] == e[name := fields[0].value][key := v];
    }
  }

  lemma {:induction false} FlattenSet(e: Record, args: seq<Field>, key: string, v: Value)
    requires Given(e, key) && !v.Null?
    ensures Given(Flatten(e, args), key)
    ensures Flatten(e[key := v], args) == Flatten(e, args)[key := v]
    decreases |args|
  {
    hide FlattenOne;
    if args != [] {
      if args[0].value.Obj? {
        FlattenOneSet(e, args[0].key, args[0].value.fields, key, v);
        FlattenSet(FlattenOne(e, args[0].key, args[0].value.fields), args[1..], key, v);
      } else {
        FlattenSet(e, args[1..], key, v);
      }
    }
  }

  lemma {:induction false} MarkSet(e: Record, names: seq<string>, key: string, v: Value)
    requires Given(e, key) && !v.Null?
    ensures Given(Mark(e, names), key)
    ensures Mark(e[key := v], names) == Mark(e, names)[key := v]
    decreases |names|
  {
    hide Risk.Optional;
    if names != [] {
      var n := names[0];
      var next := if !Risk.Optional(n) && !Given(e, n) then e[n := Bool(true)] else e;
      MarkSet(next, names[1..], key, v);
      assert n != key ==> e[key := v][n := Bool(true)] == e[n := Bool(true)][key := v];
    }
  }

  function Marked(m: Semantics, args: seq<Field>, ctx: Context): Record {
    Mark(Flatten(BaseEvidence(args, ctx), args), m.requiredEvidence)
  }

  predicate Amounting(key: string) {
    key == "amount" || key == "value"
  }

  lemma MarkedWith(m: Semantics, args: seq<Field>, ctx: Context, key: string, v: Value)
    requires key != "chainId" && key != "chain_id" && key != "chain_evidence"
    requires Given(ArgsOf(args), key) && FlatAt(args, key) && !v.Obj? && !v.Null?
    ensures Marked(m, WithArgument(args, key, v), ctx) == Marked(m, args, ctx)[key := v]
    ensures ArgsOf(WithArgument(args, key, v)) == ArgsOf(args)[key := v]
  {
    hide Flatten, Mark, AsNumber, ArgsOf;
    var (base, args') := (BaseEvidence(args, ctx), WithArgument(args, key, v));
    ArgsOfWith(args, key, v);
    assert BaseEvidence(args', ctx) == base[key := v];
    FlattenWith(base[key := v], args, key, v);
    FlattenSet(base, args, key, v);
    MarkSet(Flatten(base, args), m.requiredEvidence, key, v);
  }

  // ----- The evidence changes in its amounts only

  predicate Carried(key: string) {
    Amounting(key) || key == "amount_atomic" || key == "amount_wei" || key == "finite_amount_evidence"
  }

  /** The second record differs from the first only in amount entries, and those are given. */
  ghost predicate AmountsOnly(e: Record, e': Record) {
    forall k: string :: AmountsOnlyAt(e, e', k)
  }

  predicate AmountsOnlyAt(e: Record, e': Record, k: string) {
    Get(e', k) == Get(e, k) || (Carried(k) && Given(e', k))
  }

  lemma SetAmount(e: Record, e': Record, key: string, v: Value)
    requires AmountsOnly(e, e') && Carried(key) && !v.Null?
    ensures AmountsOnly(e, e'[key := v])
  {
    var f' := e'[key := v];
    forall k: string ensures AmountsOnlyAt(e, f', k) { assert AmountsOnlyAt(e, e', k); }
  }

  lemma SetBoth(e: Record, e': Record, key: string, v: Value)
    requires AmountsOnly(e, e')
    ensures AmountsOnly(e[key := v], e'[key := v])
  {
    var (f, f') := (e[key := v], e'[key := v]);
    forall k: string ensures AmountsOnlyAt(f, f', k) { assert AmountsOnlyAt(e, e', k); }
  }

  /** An amount entry written in both, with texts of its own. */
  lemma SetEach(e: Record, e': Record, key: string, v: Value, v': Value)
    requires AmountsOnly(e, e') && Carried(key) && !v'.Null?
    ensures AmountsOnly(e[key := v], e'[key := v'])
  {
    SetBoth(e, e', key, v);
    SetAmount(e[key := v], e'[key := v], key, v');
    assert e'[key := v][key := v'] == e'[key := v'];
  }

  lemma SameRecord(e: Record)
    ensures AmountsOnly(e, e)
  {
  }

  lemma TransferArguments(a: Record, key: string, v: Value)
    requires Amounting(key) && key == AmountKey(a) && Given(a, key) && !v.Null?
    ensures var a' := a[key := v];
            && RecipientOf(a') == RecipientOf(a) && TruthyAt(a', "token") == TruthyAt(a, "token")
            && ("token" in a ==> a'["token"] == a["token"]) && TransferAmount(a') == Some(v) && TransferAmount(a) == Some(a[key])
  {
    hide Truthy;
    ArgumentNames();
  }

  lemma ArgumentNames()
    ensures "amount" != "value" && "amount" != "token" && "value" != "token" && "amount" != "to" && "value" != "to"
    ensures "amount" != "recipient" && "value" != "recipient" && "amount" != "recipientAddress" && "value" != "recipientAddress"
    ensures "amount" != "amount_atomic" && "value" != "amount_atomic" && "amount" != "spender" && "value" != "spender"
  {
    assert |"amount"| == 6 && |"value"| == 5 && |"token"| == 5 && "value"[0] != "token"[0] && |"spender"| == 7;
    assert |"to"| == 2 && |"recipient"| == 9 && |"recipientAddress"| == 16 && |"amount_atomic"| == 13;
  }

  lemma CoreStage(before: Record, a: Record, key: string, v: Value)
    requires Amounting(key) && key == AmountKey(a) && Given(a, key) && !v.Null?
    ensures AmountsOnly(TransferCore(before, a), TransferCore(before[key := v], a[key := v]))
  {
    hide AmountsOnly, Truthy, TextOf, Lowered, RecipientOf, TransferAmount, Carried;
    var (f, a') := (before[key := v], a[key := v]);
    TransferArguments(a, key, v);
    CarriedNames(key);
    SameRecord(before);
    SetAmount(before, before, key, v);
    var recipient := RecipientOf(a);
    var named := recipient.Some? && Truthy(recipient.value);
    if named { SetBoth(before, f, "recipient", Lowered(recipient.value)); }
    var e1 := if named then before["recipient" := Lowered(recipient.value)] else before;
    var f1 := if named then f["recipient" := Lowered(recipient.value)] else f;
    if TruthyAt(a, "token") { SetBoth(e1, f1, "token", Lowered(a["token"])); }
    var (e2, f2) := (SetLower(e1, a, "token"), SetLower(f1, a', "token"));
    var entry := if TruthyAt(a, "token") then "amount_atomic" else "amount_wei";
    SetEach(e2, f2, entry, Str(TextOf(a[key])), Str(TextOf(v)));
  }

  lemma TransferStage(before: Record, a: Record, simulation: Option<Value>, key: string, v: Value)
    requires Amounting(key) && key == AmountKey(a) && Given(a, key) && !v.Null?
    ensures AmountsOnly(TransferEvidence(before, a, simulation), TransferEvidence(before[key := v], a[key := v], simulation))
  {
    hide AmountsOnly, TransferCore, WithGas;
    CoreStage(before, a, key, v);
    AfterAmount(TransferCore(before, a), TransferCore(before[key := v], a[key := v]), simulation);
  }

  lemma CarriedNames(key: string)
    requires Amounting(key)
    ensures Carried(key) && Carried("amount_atomic") && Carried("amount_wei") && Carried("finite_amount_evidence")
  {
  }

  lemma AfterAmount(e: Record, e': Record, simulation: Option<Value>)
    requires AmountsOnly(e, e')
    ensures AmountsOnly(SetSimulation(e, simulation), SetSimulation(e', simulation))
    ensures AmountsOnly(WithGas(e, simulation), WithGas(e', simulation))
  {
    hide AmountsOnly, Truthy, TextOf, FieldOf;
    if simulation.Some? { SetBoth(e, e', "simulation", simulation.value); }
    var gas := GasCostOf(simulation);
    if gas.Some? { SetBoth(SetSimulation(e, simulation), SetSimulation(e', simulation), "estimated_gas_cost_wei", Str(TextOf(gas.value))); }
  }

  lemma ApprovalStage(before: Record, a: Record, simulation: Option<Value>, v: Value)
    requires Given(a, "amount") && !v.Null?
    ensures AmountsOnly(ApprovalEvidence(before, a, simulation), ApprovalEvidence(before["amount" := v], a["amount" := v], simulation))
  {
    hide AmountsOnly, Truthy, TextOf, Lowered, FieldOf, Carried, Lower;
    var (f, a') := (before["amount" := v], a["amount" := v]);
    CarriedNames("amount");
    ApprovalArguments(a, v);
    SameRecord(before);
    SetAmount(before, before, "amount", v);
    if TruthyAt(a, "token") { SetBoth(before, f, "token", Lowered(a["token"])); }
    var (e1, f1) := (SetLower(before, a, "token"), SetLower(f, a', "token"));
    if TruthyAt(a, "spender") { SetBoth(e1, f1, "spender", Lowered(a["spender"])); }
    var (e2, f2) := (SetLower(e1, a, "spender"), SetLower(f1, a', "spender"));
    SetEach(e2, f2, "amount_atomic", Str(TextOf(a["amount"])), Str(TextOf(v)));
    var (e3, f3) := (e2["amount_atomic" := Str(TextOf(a["amount"]))], f2["amount_atomic" := Str(TextOf(v))]);
    var (x, y) := (Bool(Lower(TextOf(a["amount"])) != "uint256.max"), Bool(Lower(TextOf(v)) != "uint256.max"));
    SetEach(e3, f3, "finite_amount_evidence", x, y);
    AfterAmount(e3["finite_amount_evidence" := x], f3["finite_amount_evidence" := y], simulation);
  }

  lemma ApprovalArguments(a: Record, v: Value)
    requires Given(a, "amount") && !v.Null?
    ensures var a' := a["amount" := v];
            && Given(a', "amount") && a'["amount"] == v && TruthyAt(a', "token") == TruthyAt(a, "token")
            && TruthyAt(a', "spender") == TruthyAt(a, "spender")
            && ("token" in a ==> a'["token"] == a["token"]) && ("spender" in a ==> a'["spender"] == a["spender"])
  {
    hide Truthy;
    assert |"amount"| == 6 && |"token"| == 5 && |"spender"| == 7;
  }

  // ----- The checks see the amounts only in the caps and limits

  /** The policies list the same tools, recipients, tokens and spender pairs and have the same gas cap; amount caps
      and spender limits may differ in any way. */
  predicate SameLists(s: Snapshot, t: Snapshot) {
    && s.tools == t.tools && s.recipients == t.recipients && s.tokens == t.tokens && s.caps.gas == t.caps.gas
    && SamePairs(s.spenders, t.spenders)
  }

  predicate SamePairs(l: seq<Risk.SpenderLimit>, r: seq<Risk.SpenderLimit>) {
    |l| == |r| && forall i | 0 <= i < |l| :: SamePair(l[i], r[i]) && l[i].enabled == r[i].enabled
  }

  lemma KeptUnlessCarried(e: Record, e': Record, k: string)
    requires AmountsOnly(e, e')
    ensures Given(e, k) ==> Given(e', k)
    ensures !Carried(k) ==> Get(e', k) == Get(e, k)
  {
    assert AmountsOnlyAt(e, e', k);
  }

  lemma EvidenceStays(e: Record, e': Record, names: seq<string>)
    requires AmountsOnly(e, e') && AllGiven(e, names)
    ensures AllGiven(e', names)
  {
    hide Risk.Optional, Risk.Stem, AmountsOnly, Carried;
    forall n | n in names ensures Risk.HasEvidence(e', n) {
      assert Risk.HasEvidence(e, n);
      KeptUnlessCarried(e, e', n);
      KeptUnlessCarried(e, e', Risk.Stem(n));
      KeptUnlessCarried(e, e', "amount");
      KeptUnlessCarried(e, e', "amount_atomic");
      KeptUnlessCarried(e, e', "amount_wei");
    }
  }

  lemma ComparedStay(e: Record, e': Record)
    requires AmountsOnly(e, e')
    ensures Get(e', "chain_id") == Get(e, "chain_id") && Get(e', "simulation") == Get(e, "simulation")
    ensures Get(e', "recipient") == Get(e, "recipient") && Get(e', "token") == Get(e, "token") && Get(e', "spender") == Get(e, "spender")
    ensures Get(e', "estimated_gas_cost_wei") == Get(e, "estimated_gas_cost_wei")
    ensures Get(e', "typed_data_rule_key") == Get(e, "typed_data_rule_key")
  {
    hide AmountsOnly;
    NotCarried();
    KeptUnlessCarried(e, e', "chain_id");
    KeptUnlessCarried(e, e', "simulation");
    KeptUnlessCarried(e, e', "recipient");
    KeptUnlessCarried(e, e', "token");
    KeptUnlessCarried(e, e', "spender");
    KeptUnlessCarried(e, e', "estimated_gas_cost_wei");
    KeptUnlessCarried(e, e', "typed_data_rule_key");
  }

  lemma NotCarried()
    ensures !Carried("chain_id") && !Carried("simulation") && !Carried("recipient") && !Carried("token") && !Carried("spender")
    ensures !Carried("estimated_gas_cost_wei") && !Carried("typed_data_rule_key")
  {
    assert "simulation"[0] == 's' && "amount_wei"[0] == 'a' && "token"[0] == 't' && "value"[0] == 'v';
    assert "estimated_gas_cost_wei"[0] == 'e' && "finite_amount_evidence"[0] == 'f';
  }

  /** A call without findings keeps having none when only its amount, the caps and the limits change, unless the
      amount checks find one. */
  lemma ChecksWithAmount(m: Semantics, s: Snapshot, t: Snapshot, e: Record, e': Record)
    requires AmountsOnly(e, e') && SameLists(s, t) && Risk.Checks(m, s, e) == []
    ensures Risk.Checks(m, t, e') == [] <==> Risk.AmountFinding(m, t, e') == [] && Risk.ApprovalFindings(m, t, e') == []
  {
    hide AmountsOnly, Risk.Checks, Risk.ContextChecks, Risk.AmountFinding, Risk.ApprovalFindings, Risk.AmountOf, Risk.CapOf, Lower,
      NumberIs, Hash, Risk.StatusOf, AllGiven, Truthy, SamePairs;
    ChecksEmptyIff(m, s, e);
    ChecksEmptyIff(m, t, e');
    ContextEmptyIff(m, s, e);
    ContextEmptyIff(m, t, e');
    ComparedStay(e, e');
    EvidenceStays(e, e', m.requiredFields);
    EvidenceStays(e, e', m.requiredEvidence);
  }

  // ----- Which amounts the caps and limits bind

  /** The amount cannot be read, or its value is at most the bound. */
  predicate BoundBy(amount: Option<Value>, bound: nat) {
    var n := Risk.AmountOf(amount);
    n.Some? ==> n.value <= bound
  }

  lemma AmountBound(m: Semantics, s: Snapshot, e: Record)
    ensures Risk.AmountFinding(m, s, e) == [] <==> BoundBy(Risk.AmountEvidence(e), Risk.AmountCap(m.toolClass, s, e))
  {
    hide Risk.AmountEvidence, Risk.AmountOf, Risk.AmountCap;
  }

  lemma {:induction false} FindSamePair(l: seq<Risk.SpenderLimit>, r: seq<Risk.SpenderLimit>, token: Option<Value>, spender: Option<Value>)
    requires SamePairs(l, r)
    ensures Risk.FindLimit(l, token, spender).Some? <==> Risk.FindLimit(r, token, spender).Some?
  {
    if l != [] {
      assert SamePair(l[0], r[0]) && l[0].enabled == r[0].enabled;
      assert SamePairs(l[1..], r[1..]) by {
        forall i | 0 <= i < |l[1..]| ensures SamePair(l[1..][i], r[1..][i]) && l[1..][i].enabled == r[1..][i].enabled {
          assert SamePair(l[i + 1], r[i + 1]) && l[i + 1].enabled == r[i + 1].enabled;
        }
      }
      FindSamePair(l[1..], r[1..], token, spender);
    }
  }

  predicate Unlimited(amount: string) {
    Lower(amount) == "uint256.max" || amount == Risk.UINT256_MAX
  }

  /** The limit of the entry for the call's token and spender. */
  function LimitFor(s: Snapshot, e: Record): Option<Risk.SpenderLimit> {
    Risk.FindLimit(s.spenders, Risk.LowerField(e, "token"), Risk.LowerField(e, "spender"))
  }

  lemma ApprovalBound(m: Semantics, s: Snapshot, t: Snapshot, e: Record, e': Record, amount: string)
    requires m.toolClass == "token_approval" && AmountsOnly(e, e') && SamePairs(s.spenders, t.spenders)
    requires Risk.ApprovalFindings(m, s, e) == [] && amount != ""
    requires Get(e', "amount_atomic") == Some(Str(amount)) && Risk.AmountEvidence(e') == Some(Str(amount))
    ensures LimitFor(t, e').Some?
    ensures Risk.ApprovalFindings(m, t, e') == [] <==> !Unlimited(amount) && BoundBy(Some(Str(amount)), Risk.CapOf(LimitFor(t, e').value.max))
  {
    hide AmountsOnly, SamePairs, Risk.FindLimit, Risk.AmountEvidence, Risk.AmountOf, Risk.CapOf, Lower;
    ComparedStay(e, e');
    FindSamePair(s.spenders, t.spenders, Risk.LowerField(e, "token"), Risk.LowerField(e, "spender"));
    assert Risk.LowerField(e', "token") == Risk.LowerField(e, "token") && Risk.LowerField(e', "spender") == Risk.LowerField(e, "spender");
  }

  // ----- End to end

  /** Everything about a call that neither its arguments nor the policy decide. */
  predicate OtherwiseClear(c: Catalog, name: string, consent: Option<Value>, audited: bool, reviewer: Reviewer) {
    hide ConsentGiven, ResolveCall, SaidSafe, DigestClass;
    name in c.registry && (DigestClass(c.registry[name].toolClass) ==> ConsentGiven(consent)) &&
    ResolveCall(c, name, c.registry[name].inputSchemaHash).Visible? && audited && SaidSafe(reviewer)
  }

  lemma CoverIff(c: Catalog, name: string, args: seq<Field>, ctx: Context, source: Source, s: Snapshot, simulation: Option<Value>,
                 consent: Option<Value>, audited: bool, reviewer: Reviewer)
    requires name in c.registry && PolicyFrom(source) == Ok(s)
    ensures Cover(c, name, args, ctx, source, simulation, consent, audited, reviewer) == Gated(Allow) <==>
              OtherwiseClear(c, name, consent, audited, reviewer) &&
              Risk.Checks(c.registry[name], s, Evidence(Some(c.registry[name]), args, ctx, simulation)) == []
  {
    hide Evidence, ConsentGiven, Gate, PolicyFrom, Risk.Checks, ToolSemantics.ResolveCall, Resolve, SaidSafe, DigestClass;
    var m := c.registry[name];
    GateIff(ResolveCall(c, name, m.inputSchemaHash), PolicyFrom(source), Evidence(Some(m), args, ctx, simulation), audited, reviewer);
    CallSemantics(c, name, m.inputSchemaHash);
  }

  /** The value may stand for the argument: it is not null, and neither it nor the argument is an object. */
  predicate Fits(args: seq<Field>, key: string, v: Value) {
    FlatAt(args, key) && !v.Obj? && !v.Null?
  }

  /** It may stand for an amount: its text is not empty either. */
  predicate Replaces(args: seq<Field>, key: string, v: Value) {
    Fits(args, key, v) && TextOf(v) != ""
  }

  lemma AmountsReplaced(m: Semantics, args: seq<Field>, ctx: Context, simulation: Option<Value>, v: Value)
    requires m.toolClass == "transaction_execute" && Given(ArgsOf(args), AmountKey(ArgsOf(args))) && Fits(args, AmountKey(ArgsOf(args)), v)
    ensures var args' := WithArgument(args, AmountKey(ArgsOf(args)), v);
            ArgsOf(args') == ArgsOf(args)[AmountKey(ArgsOf(args)) := v] &&
            AmountsOnly(Evidence(Some(m), args, ctx, simulation), Evidence(Some(m), args', ctx, simulation))
  {
    hide Flatten, Mark, BaseEvidence, ArgsOf, AmountsOnly, TransferEvidence, FlatAt, Truthy;
    var (a, key) := (ArgsOf(args), AmountKey(ArgsOf(args)));
    MarkedWith(m, args, ctx, key, v);
    TransferStage(Marked(m, args, ctx), a, simulation, key, v);
    ClassNames();
  }

  lemma TransferReplaced(m: Semantics, args: seq<Field>, ctx: Context, simulation: Option<Value>, v: Value)
    requires m.toolClass == "transaction_execute" && ComparesArguments(m) && Given(ArgsOf(args), AmountKey(ArgsOf(args)))
    requires Replaces(args, AmountKey(ArgsOf(args)), v)
    ensures var (a, args') := (ArgsOf(args), WithArgument(args, AmountKey(ArgsOf(args)), v));
            var (e, e') := (Evidence(Some(m), args, ctx, simulation), Evidence(Some(m), args', ctx, simulation));
            AmountsOnly(e, e') && Risk.AmountEvidence(e') == CheckedAmount(a, TextOf(v)) &&
            (TruthyAt(e', "token") <==> TruthyAt(a, "token"))
  {
    hide Evidence, ArgsOf, TextOf, AmountsOnly, Risk.AmountEvidence, FlatAt, Lowered, Truthy;
    var (a, key) := (ArgsOf(args), AmountKey(ArgsOf(args)));
    AmountsReplaced(m, args, ctx, simulation, v);
    ReplacedTransfer(a, key, v);
    TransferFacts(m, WithArgument(args, key, v), ctx, simulation, TextOf(v));
    ClassNames();
    if "token" in a { LoweredTruthy(a["token"]); }
  }

  lemma ReplacedTransfer(a: Record, key: string, v: Value)
    requires key == AmountKey(a) && Given(a, key) && !v.Null? && TextOf(v) != ""
    ensures TransferOf(a[key := v], TextOf(v)) && AmountTaken(a[key := v]) == AmountTaken(a)
    ensures Get(a[key := v], "token") == Get(a, "token") && Get(a[key := v], "amount_atomic") == Get(a, "amount_atomic")
  {
    hide TextOf, Truthy;
    ArgumentNames();
  }

  /** The cap a transfer is checked against. */
  function TransferCap(s: Snapshot, args: Record): nat {
    Risk.CapOf(if TruthyAt(args, "token") then s.caps.erc20 else s.caps.native)
  }

  /** Take any transfer that is forwarded, replace its amount by any value and the amount caps and spender limits
      by any others: it is still forwarded exactly when the checked amount cannot be read or is at most the new
      cap, where the checked amount is the new one if the token is truthy or `amount_atomic` is not, and
      otherwise `amount_atomic`. */
  lemma TransferBoundIff(c: Catalog, name: string, args: seq<Field>, ctx: Context, source: Source, s: Snapshot, source': Source, t: Snapshot,
                         simulation: Option<Value>, consent: Option<Value>, audited: bool, reviewer: Reviewer, v: Value)
    requires name in c.registry && c.registry[name].toolClass == "transaction_execute" && ComparesArguments(c.registry[name])
    requires Given(ArgsOf(args), AmountKey(ArgsOf(args))) && Replaces(args, AmountKey(ArgsOf(args)), v)
    requires PolicyFrom(source) == Ok(s) && PolicyFrom(source') == Ok(t) && SameLists(s, t)
    requires Cover(c, name, args, ctx, source, simulation, consent, audited, reviewer) == Gated(Allow)
    ensures var args' := WithArgument(args, AmountKey(ArgsOf(args)), v);
            Cover(c, name, args', ctx, source', simulation, consent, audited, reviewer) == Gated(Allow) <==>
              BoundBy(CheckedAmount(ArgsOf(args), TextOf(v)), TransferCap(t, ArgsOf(args)))
  {
    hide Cover, PolicyFrom, Risk.Checks, Evidence, AmountsOnly, SameLists, ArgsOf, TextOf, BoundBy, Risk.AmountFinding, Risk.AmountEvidence,
      Risk.CapOf, OtherwiseClear, ComparesArguments, Replaces, Truthy, CheckedAmount, AmountKey, Given;
    var (m, args') := (c.registry[name], WithArgument(args, AmountKey(ArgsOf(args)), v));
    var (e, e') := (Evidence(Some(m), args, ctx, simulation), Evidence(Some(m), args', ctx, simulation));
    CoverIff(c, name, args, ctx, source, s, simulation, consent, audited, reviewer);
    CoverIff(c, name, args', ctx, source', t, simulation, consent, audited, reviewer);
    TransferReplaced(m, args, ctx, simulation, v);
    ChecksWithAmount(m, s, t, e, e');
    ClassNames();
    AmountBound(m, t, e');
  }

  // ----- Which argument of a transfer is checked

  lemma OtherValue(before: Record, a: Record, v: Value)
    requires Given(a, "amount") && Given(a, "value") && !v.Null?
    ensures TransferCore(before["value" := v], a["value" := v]) == TransferCore(before, a)["value" := v]
  {
    hide Truthy, TextOf, Lowered, RecipientOf, TransferAmount;
    OtherArguments(a, v);
    ValueNames();
  }

  lemma OtherArguments(a: Record, v: Value)
    requires Given(a, "amount") && Given(a, "value") && !v.Null?
    ensures var a' := a["value" := v];
            && RecipientOf(a') == RecipientOf(a) && TransferAmount(a') == TransferAmount(a)
            && TruthyAt(a', "token") == TruthyAt(a, "token") && ("token" in a ==> a'["token"] == a["token"])
  {
    hide Truthy;
    ArgumentNames();
  }

  lemma ValueNames()
    ensures "value" != "recipient" && "value" != "token" && "value" != "amount_atomic" && "value" != "amount_wei"
  {
    assert |"value"| == 5 && |"amount_wei"| == 10 && |"recipient"| == 9 && |"amount_atomic"| == 13 && "value"[0] != "token"[0];
  }

  lemma GasOther(e: Record, simulation: Option<Value>, v: Value)
    ensures WithGas(e["value" := v], simulation) == WithGas(e, simulation)["value" := v]
  {
    hide TextOf, GasCostOf, Truthy;
    assert |"value"| == 5 && |"simulation"| == 10 && |"estimated_gas_cost_wei"| == 22;
  }

  lemma ValueReplaced(m: Semantics, args: seq<Field>, ctx: Context, simulation: Option<Value>, v: Value)
    requires m.toolClass == "transaction_execute" && Given(ArgsOf(args), "amount") && Given(ArgsOf(args), "value") && Fits(args, "value", v)
    ensures var (e, e') := (Evidence(Some(m), args, ctx, simulation), Evidence(Some(m), WithArgument(args, "value", v), ctx, simulation));
            AmountsOnly(e, e') && Risk.AmountEvidence(e') == Risk.AmountEvidence(e)
  {
    hide Flatten, Mark, BaseEvidence, ArgsOf, TransferCore, WithGas, FlatAt, AmountsOnly, Truthy;
    MarkedWith(m, args, ctx, "value", v);
    var (before, a) := (Marked(m, args, ctx), ArgsOf(args));
    OtherValue(before, a, v);
    GasOther(TransferCore(before, a), simulation, v);
    ClassNames();
    CarriedNames("value");
    var e := Evidence(Some(m), args, ctx, simulation);
    SameRecord(e);
    SetAmount(e, e, "value", v);
    ArgumentNames();
    assert |"value"| == 5 && |"amount_wei"| == 10;
  }

  /** The argument is the one whose amount the checks read. */
  predicate FieldChecked(a: Record, key: string) {
    key == AmountKey(a) && AmountTaken(a)
  }

  lemma UncheckedSame(m: Semantics, args: seq<Field>, ctx: Context, simulation: Option<Value>, key: string, v: Value)
    requires m.toolClass == "transaction_execute" && ComparesArguments(m)
    requires Amounting(key) && Given(ArgsOf(args), key) && Fits(args, key, v) && !FieldChecked(ArgsOf(args), key)
    ensures var (e, e') := (Evidence(Some(m), args, ctx, simulation), Evidence(Some(m), WithArgument(args, key, v), ctx, simulation));
            AmountsOnly(e, e') && Risk.AmountEvidence(e') == Risk.AmountEvidence(e)
  {
    hide Evidence, ArgsOf, TextOf, AmountsOnly, Risk.AmountEvidence, FlatAt, Truthy, ComparesArguments;
    var a := ArgsOf(args);
    if key == AmountKey(a) {
      AmountsReplaced(m, args, ctx, simulation, v);
      ArgumentNames();
      assert "amount_atomic" in a[key := v] && a[key := v]["amount_atomic"] == a["amount_atomic"];
      ShadowedAmount(m, args, ctx, simulation);
      ShadowedAmount(m, WithArgument(args, key, v), ctx, simulation);
    } else {
      ValueReplaced(m, args, ctx, simulation, v);
    }
  }

  lemma ShadowedAmount(m: Semantics, args: seq<Field>, ctx: Context, simulation: Option<Value>)
    requires m.toolClass == "transaction_execute" && ComparesArguments(m) && !AmountTaken(ArgsOf(args))
    ensures Risk.AmountEvidence(Evidence(Some(m), args, ctx, simulation)) == Some(ArgsOf(args)["amount_atomic"])
  {
    hide Flatten, Mark, BaseEvidence, ArgsOf, Truthy, TextOf, RecipientOf, Lowered, WithGas;
    UndottedNames();
    ComparedNames(m);
    EntryNames();
    ClassNames();
    MarkedIsArgument(m, args, ctx, "amount_atomic");
    GasKeeps(TransferCore(Mark(Flatten(BaseEvidence(args, ctx), args), m.requiredEvidence), ArgsOf(args)), simulation);
  }

  /** Exactly which argument of a transfer is checked: replacing `amount` or `value` always replaces the checked
      amount if and only if it is `amount`, or `value` where no `amount` is given, and the token is truthy or
      `amount_atomic` is not. */
  lemma FieldCheckedIff(m: Semantics, args: seq<Field>, ctx: Context, simulation: Option<Value>, key: string)
    requires m.toolClass == "transaction_execute" && ComparesArguments(m) && Amounting(key) && Given(ArgsOf(args), key) && FlatAt(args, key)
    ensures (forall v | Replaces(args, key, v) :: ChecksArgument(m, args, ctx, simulation, key, v)) <==> FieldChecked(ArgsOf(args), key)
  {
    hide Evidence, ArgsOf, FlatAt, Truthy, ComparesArguments, Risk.AmountEvidence, AmountsOnly;
    if FieldChecked(ArgsOf(args), key) {
      forall v | Replaces(args, key, v) ensures ChecksArgument(m, args, ctx, simulation, key, v) {
        TransferReplaced(m, args, ctx, simulation, v);
      }
    } else {
      assert Replaces(args, key, Str("1")) && Replaces(args, key, Str("2")) && "1"[0] != "2"[0];
      UncheckedSame(m, args, ctx, simulation, key, Str("1"));
      UncheckedSame(m, args, ctx, simulation, key, Str("2"));
      if ChecksArgument(m, args, ctx, simulation, key, Str("1")) {
        assert !ChecksArgument(m, args, ctx, simulation, key, Str("2"));
      }
    }
  }

  /** With this value for the argument, the checked amount is the value's text. */
  predicate ChecksArgument(m: Semantics, args: seq<Field>, ctx: Context, simulation: Option<Value>, key: string, v: Value) {
    hide Evidence;
    Risk.AmountEvidence(Evidence(Some(m), WithArgument(args, key, v), ctx, simulation)) == Some(Str(TextOf(v)))
  }

  /** So an argument that is not the checked one is bounded by nothing: a forwarded transfer stays forwarded
      whatever stands in it.  This is `value` wherever `amount` is given, and both of them in a native transfer
      that carries a truthy `amount_atomic`. */
  lemma UncheckedFieldPasses(c: Catalog, name: string, args: seq<Field>, ctx: Context, source: Source, s: Snapshot, simulation: Option<Value>,
                             consent: Option<Value>, audited: bool, reviewer: Reviewer, key: string, v: Value)
    requires name in c.registry && c.registry[name].toolClass == "transaction_execute" && ComparesArguments(c.registry[name])
    requires Amounting(key) && Given(ArgsOf(args), key) && Fits(args, key, v) && !FieldChecked(ArgsOf(args), key)
    requires PolicyFrom(source) == Ok(s) && Cover(c, name, args, ctx, source, simulation, consent, audited, reviewer) == Gated(Allow)
    ensures Cover(c, name, WithArgument(args, key, v), ctx, source, simulation, consent, audited, reviewer) == Gated(Allow)
  {
    hide Cover, PolicyFrom, Risk.Checks, Evidence, AmountsOnly, SameLists, ArgsOf, BoundBy, Risk.AmountFinding, Risk.AmountEvidence,
      Risk.CapOf, OtherwiseClear, ComparesArguments, Fits, Truthy, AmountKey, Given, FieldChecked, Risk.ContextChecks, Risk.GasFinding,
      Risk.ListedIn, Risk.ApprovalFindings;
    var (m, args') := (c.registry[name], WithArgument(args, key, v));
    var (e, e') := (Evidence(Some(m), args, ctx, simulation), Evidence(Some(m), args', ctx, simulation));
    CoverIff(c, name, args, ctx, source, s, simulation, consent, audited, reviewer);
    CoverIff(c, name, args', ctx, source, s, simulation, consent, audited, reviewer);
    UncheckedSame(m, args, ctx, simulation, key, v);
    SameListsSelf(s);
    ChecksWithAmount(m, s, s, e, e');
    ChecksEmptyIff(m, s, e);
    TransferNeedsNoLimit(m, s, e');
    AmountBound(m, s, e);
    AmountBound(m, s, e');
    ComparedStay(e, e');
    TokenAgrees(e, e');
  }

  lemma TransferNeedsNoLimit(m: Semantics, s: Snapshot, e: Record)
    requires m.toolClass == "transaction_execute"
    ensures Risk.ApprovalFindings(m, s, e) == []
  {
    ClassNames();
  }

  lemma TokenAgrees(e: Record, e': Record)
    requires Get(e', "token") == Get(e, "token")
    ensures TruthyAt(e', "token") == TruthyAt(e, "token")
  {
  }

  lemma SameListsSelf(s: Snapshot)
    ensures SameLists(s, s)
  {
  }

  lemma ApprovalReplaced(m: Semantics, args: seq<Field>, ctx: Context, simulation: Option<Value>, amount: string, v: Value)
    requires m.toolClass == "token_approval" && ComparesArguments(m) && PlainApproval(ArgsOf(args), amount) && Replaces(args, "amount", v)
    ensures var args' := WithArgument(args, "amount", v);
            var (e, e') := (Evidence(Some(m), args, ctx, simulation), Evidence(Some(m), args', ctx, simulation));
            AmountsOnly(e, e') && Get(e', "amount_atomic") == Some(Str(TextOf(v))) && Risk.AmountEvidence(e') == Some(Str(TextOf(v)))
  {
    hide Flatten, Mark, BaseEvidence, ArgsOf, TextOf, AmountsOnly, ApprovalEvidence, Risk.AmountEvidence, FlatAt, Lowered, Truthy;
    var a := ArgsOf(args);
    MarkedWith(m, args, ctx, "amount", v);
    ApprovalStage(Marked(m, args, ctx), a, simulation, v);
    ReplacedApproval(a, amount, v);
    ApprovalFacts(m, WithArgument(args, "amount", v), ctx, simulation, TextOf(v));
    ClassNames();
  }

  lemma ReplacedApproval(a: Record, amount: string, v: Value)
    requires PlainApproval(a, amount) && !v.Null? && TextOf(v) != ""
    ensures PlainApproval(a["amount" := v], TextOf(v))
  {
    hide TextOf, Truthy;
    ArgumentNames();
  }

  /** The limit that the policy sets for the call's token and spender. */
  function ApprovalLimitOf(t: Snapshot, m: Semantics, args: seq<Field>, ctx: Context, simulation: Option<Value>): Option<Risk.SpenderLimit> {
    LimitFor(t, Evidence(Some(m), args, ctx, simulation))
  }

  /** Take any approval that is forwarded, replace its amount by any value and the caps and limits by any others:
      it is still forwarded exactly when the new amount is not spelled as one of the two unlimited texts and
      cannot be read, or is at most the new token cap and the new limit. */
  lemma ApprovalBoundIff(c: Catalog, name: string, args: seq<Field>, ctx: Context, source: Source, s: Snapshot, source': Source, t: Snapshot,
                         simulation: Option<Value>, consent: Option<Value>, audited: bool, reviewer: Reviewer, amount: string, v: Value)
    requires name in c.registry && c.registry[name].toolClass == "token_approval" && ComparesArguments(c.registry[name])
    requires PlainApproval(ArgsOf(args), amount) && Replaces(args, "amount", v)
    requires PolicyFrom(source) == Ok(s) && PolicyFrom(source') == Ok(t) && SameLists(s, t)
    requires Cover(c, name, args, ctx, source, simulation, consent, audited, reviewer) == Gated(Allow)
    ensures var limit := ApprovalLimitOf(t, c.registry[name], WithArgument(args, "amount", v), ctx, simulation);
            limit.Some? &&
            (Cover(c, name, WithArgument(args, "amount", v), ctx, source', simulation, consent, audited, reviewer) == Gated(Allow) <==>
               !Unlimited(TextOf(v)) && BoundBy(Some(Str(TextOf(v))), Risk.CapOf(t.caps.erc20)) &&
               BoundBy(Some(Str(TextOf(v))), Risk.CapOf(limit.value.max)))
  {
    hide Cover, PolicyFrom, Risk.Checks, Evidence, AmountsOnly, SamePairs, ArgsOf, TextOf, BoundBy, Risk.AmountFinding, Risk.AmountEvidence,
      Risk.CapOf, OtherwiseClear, ComparesArguments, PlainApproval, Truthy, Unlimited, LimitFor, FlatAt, Risk.ApprovalFindings;
    var (m, args') := (c.registry[name], WithArgument(args, "amount", v));
    var (e, e') := (Evidence(Some(m), args, ctx, simulation), Evidence(Some(m), args', ctx, simulation));
    CoverIff(c, name, args, ctx, source, s, simulation, consent, audited, reviewer);
    CoverIff(c, name, args', ctx, source', t, simulation, consent, audited, reviewer);
    ApprovalReplaced(m, args, ctx, simulation, amount, v);
    ChecksWithAmount(m, s, t, e, e');
    ChecksEmptyIff(m, s, e);
    ClassNames();
    AmountBound(m, t, e');
    ApprovalBound(m, s, t, e, e', TextOf(v));
  }

  // ----- Amounts that cannot be read

  /** Neither a canonical numeral nor, up to case, `uint256.max`. */
  predicate Unreadable(text: string) {
    text != "" && !CanonicalDecimal(text) && Lower(text) != "uint256.max"
  }

  lemma LowerMax()
    ensures Lower("uint256.max") == "uint256.max"
  {
  }

  lemma UnreadableBound(text: string, bound: nat)
    requires Unreadable(text)
    ensures BoundBy(Some(Str(text)), bound) && !Unlimited(text)
  {
    hide Lower, CanonicalDecimal, Risk.AmountOf;
    Risk.MaxAmountText();
    LowerMax();
    ReadAmount(text);
  }

  /** A forwarded transfer whose amount argument is checked stays forwarded when that argument is replaced by any
      unreadable one, whatever the caps. */
  lemma UnreadableTransferPasses(c: Catalog, name: string, args: seq<Field>, ctx: Context, source: Source, s: Snapshot, source': Source,
                                 t: Snapshot, simulation: Option<Value>, consent: Option<Value>, audited: bool, reviewer: Reviewer, text: string)
    requires name in c.registry && c.registry[name].toolClass == "transaction_execute" && ComparesArguments(c.registry[name])
    requires Given(ArgsOf(args), AmountKey(ArgsOf(args))) && AmountTaken(ArgsOf(args))
    requires FlatAt(args, AmountKey(ArgsOf(args))) && Unreadable(text)
    requires PolicyFrom(source) == Ok(s) && PolicyFrom(source') == Ok(t) && SameLists(s, t)
    requires Cover(c, name, args, ctx, source, simulation, consent, audited, reviewer) == Gated(Allow)
    ensures var args' := WithArgument(args, AmountKey(ArgsOf(args)), Str(text));
            Cover(c, name, args', ctx, source', simulation, consent, audited, reviewer) == Gated(Allow)
  {
    hide Cover, PolicyFrom, SameLists, ArgsOf, BoundBy, FlatAt, ComparesArguments, Risk.CapOf, Lower, CanonicalDecimal, AmountKey, AmountTaken,
      Given;
    UnreadableBound(text, TransferCap(t, ArgsOf(args)));
    TransferBoundIff(c, name, args, ctx, source, s, source', t, simulation, consent, audited, reviewer, Str(text));
  }

  /** A forwarded approval stays forwarded when its amount is replaced by any unreadable one, whatever the caps and
      limits. */
  lemma UnreadableApprovalPasses(c: Catalog, name: string, args: seq<Field>, ctx: Context, source: Source, s: Snapshot, source': Source,
                                 t: Snapshot, simulation: Option<Value>, consent: Option<Value>, audited: bool, reviewer: Reviewer,
                                 amount: string, text: string)
    requires name in c.registry && c.registry[name].toolClass == "token_approval" && ComparesArguments(c.registry[name])
    requires PlainApproval(ArgsOf(args), amount) && FlatAt(args, "amount") && Unreadable(text)
    requires PolicyFrom(source) == Ok(s) && PolicyFrom(source') == Ok(t) && SameLists(s, t)
    requires Cover(c, name, args, ctx, source, simulation, consent, audited, reviewer) == Gated(Allow)
    ensures Cover(c, name, WithArgument(args, "amount", Str(text)), ctx, source', simulation, consent, audited, reviewer) == Gated(Allow)
  {
    hide Cover, PolicyFrom, SameLists, ArgsOf, BoundBy, PlainApproval, FlatAt, ComparesArguments, Risk.CapOf, Lower, CanonicalDecimal,
      Unlimited, ApprovalLimitOf;
    ApprovalBoundIff(c, name, args, ctx, source, s, source', t, simulation, consent, audited, reviewer, amount, Str(text));
    UnreadableBound(text, Risk.CapOf(t.caps.erc20));
    UnreadableBound(text, Risk.CapOf(ApprovalLimitOf(t, c.registry[name], WithArgument(args, "amount", Str(text)), ctx, simulation).value.max));
  }

  // ----- Two such amounts

  lemma FractionUnreadable()
    ensures Unreadable("1.5")
  {
    var text := "1.5";
    assert text[1] == '.' && !Digit('.');
    assert |Lower(text)| == 3 && |"uint256.max"| == 11;
  }

  /** n times the digit f */
  function Fs(n: nat): (s: string)
    ensures |s| == n && forall i | 0 <= i < n :: s[i] == 'f'
  {
    seq(n, _ => 'f')
  }

  function Sixteen(n: nat): nat {
    if n == 0 then 1 else 16 * Sixteen(n - 1)
  }

  lemma {:induction false} SixteenDouble(n: nat, m: nat)
    ensures Sixteen(n + m) == Sixteen(n) * Sixteen(m)
  {
    if n > 0 {
      SixteenDouble(n - 1, m);
      WeiHex.Regroup(16, Sixteen(n - 1), Sixteen(m));
    }
  }

  lemma {:induction false} FsValue(n: nat)
    ensures WeiHex.LowerHex(Fs(n)) && WeiHex.FromHex(Fs(n)) + 1 == Sixteen(n)
  {
    if n > 0 {
      FsValue(n - 1);
      assert Fs(n)[..n - 1] == Fs(n - 1);
    }
  }

  lemma SixteenTwice()
    ensures Sixteen(2) == 256
  {
  }

  lemma Sixteen64()
    ensures Sixteen(64) == Risk.MaxAmount() + 1
  {
    SixteenTwice();
    hide Sixteen;
    SixteenDouble(2, 2);
    SixteenDouble(4, 4);
    SixteenDouble(8, 8);
    SixteenDouble(16, 16);
    SixteenDouble(32, 32);
  }

  /** The unlimited amount spelled in hexadecimal is unreadable too. */
  lemma HexUnlimitedUnreadable()
    ensures Unreadable("0x" + Fs(64)) && WeiHex.LowerHex(Fs(64)) && WeiHex.FromHex(Fs(64)) == Risk.MaxAmount()
  {
    var text := "0x" + Fs(64);
    assert text[1] == 'x' && !Digit('x');
    assert |Lower(text)| == 66 && |"uint256.max"| == 11;
    FsValue(64);
    Sixteen64();
  }
}
