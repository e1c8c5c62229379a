/** Which tool calls the candidate digest identifies, in terms of the calls themselves. */
module CallIdentity {
  import opened Values
  import opened Text
  import opened Coercions
  import opened GuardedForward
  import CandidateDigest
  import CanonicalJson

  // ----- The same call

  /** Missing or null. */
  predicate Nothing(v: Option<Value>) {
    v.None? || v.value.Null?
  }

  /** The same JSON up to key order, or hexadecimal texts that differ in letter case only. */
  predicate SameForm(u: Value, v: Value) {
    Same(u, v) || (u.Str? && v.Str? && HexText(u.s) && HexText(v.s) && Lower(u.s) == Lower(v.s))
  }

  predicate Alike(u: Option<Value>, v: Option<Value>) {
    if Nothing(u) then Nothing(v) else !Nothing(v) && SameForm(u.value, v.value)
  }

  function AccountOf(e: Record): Option<Value> {
    if TruthyAt(e, "account") then Some(e["account"]) else Get(e, "from")
  }

  function TargetOf(e: Record): Option<Value> {
    if TruthyAt(e, "to") then Some(e["to"]) else Get(e, "recipient")
  }

  function AmountOf(e: Record): Option<Value> {
    if TruthyAt(e, "amount") then Some(e["amount"])
    else if TruthyAt(e, "amount_atomic") then Some(e["amount_atomic"]) else Get(e, "amount_wei")
  }

  /** Tool, arguments and everything that defines effect and cost are alike. */
  predicate SameCall(name: string, args: Value, e: Record, name': string, args': Value, e': Record) {
    && Alike(Some(Str(name)), Some(Str(name'))) && Alike(Some(args), Some(args'))
    && SameEffect(e, e') && SameCost(e, e')
  }

  predicate SameEffect(e: Record, e': Record) {
    && Alike(Get(e, "chain_id"), Get(e', "chain_id")) && Alike(AccountOf(e), AccountOf(e')) && Alike(TargetOf(e), TargetOf(e'))
    && Alike(Get(e, "value"), Get(e', "value")) && Alike(Get(e, "data"), Get(e', "data"))
    && Alike(Get(e, "token"), Get(e', "token")) && Alike(Get(e, "spender"), Get(e', "spender")) && Alike(AmountOf(e), AmountOf(e'))
  }

  predicate SameCost(e: Record, e': Record) {
    && Alike(Get(e, "max_fee_per_gas_wei"), Get(e', "max_fee_per_gas_wei"))
    && Alike(Get(e, "max_priority_fee_per_gas_wei"), Get(e', "max_priority_fee_per_gas_wei"))
    && Alike(Get(e, "gas_limit"), Get(e', "gas_limit")) && Alike(Get(e, "estimated_gas_cost_wei"), Get(e', "estimated_gas_cost_wei"))
  }

  /** Objects are alike exactly when they are the same up to key order. */
  lemma ObjectsAlike(u: Value, v: Value)
    requires u.Obj?
    ensures Alike(Some(u), Some(v)) <==> Same(u, v)
  {
  }

  // ----- What a call's candidate holds

  function Later(v: Option<Value>, before: Option<Value>): Option<Value> {
    if v.Some? then v else before
  }

  lemma PutEntry(c: Candidate, field: string, v: Option<Value>, f: string)
    ensures Get(Put(c, field, v), f) == if f == field then Later(v, Get(c, f)) else Get(c, f)
  {
  }

  lemma FeesEntry(c: Candidate, e: Record, f: string)
    ensures Get(Fees(c, e), f) ==
            if f == "estimated_gas_cost_wei" || f == "gas_limit" || f == "max_priority_fee_per_gas_wei" || f == "max_fee_per_gas_wei" then
              Later(Get(e, f), Get(c, f))
            else Get(c, f)
  {
    hide Put, Get;
    var c1 := Put(c, "max_fee_per_gas_wei", Get(e, "max_fee_per_gas_wei"));
    var c2 := Put(c1, "max_priority_fee_per_gas_wei", Get(e, "max_priority_fee_per_gas_wei"));
    var c3 := Put(c2, "gas_limit", Get(e, "gas_limit"));
    Apart();
    PutEntry(c, "max_fee_per_gas_wei", Get(e, "max_fee_per_gas_wei"), f);
    PutEntry(c1, "max_priority_fee_per_gas_wei", Get(e, "max_priority_fee_per_gas_wei"), f);
    PutEntry(c2, "gas_limit", Get(e, "gas_limit"), f);
    PutEntry(c3, "estimated_gas_cost_wei", Get(e, "estimated_gas_cost_wei"), f);
  }

  lemma CostsEntry(c: Candidate, e: Record, f: string)
    ensures Get(Costs(c, e), f) ==
            if f == "amount" then Later(AmountOf(e), Get(c, f)) else Get(Fees(c, e), f)
  {
    hide Put, Get, Fees;
    Apart();
    AmountIs(e);
    var c1 := Put(c, "amount", AmountOf(e));
    PutEntry(c, "amount", AmountOf(e), f);
    FeesEntry(c1, e, f);
    FeesEntry(c, e, f);
  }

  lemma AmountIs(e: Record)
    ensures Either(Get(e, "amount"), Either(Get(e, "amount_atomic"), Get(e, "amount_wei"))) == AmountOf(e)
    ensures Either(Get(e, "account"), Get(e, "from")) == AccountOf(e) && Either(Get(e, "to"), Get(e, "recipient")) == TargetOf(e)
  {
    hide Truthy;
  }

  lemma EffectsEntry(c: Candidate, e: Record, f: string)
    ensures Get(Effects(c, e), f) ==
            if f == "account" then Later(AccountOf(e), Get(c, f))
            else if f == "to" then Later(TargetOf(e), Get(c, f))
            else if f == "chain_id" || f == "value" || f == "data" || f == "token" || f == "spender" then Later(Get(e, f), Get(c, f))
            else Get(c, f)
  {
    hide Put, Get;
    Apart();
    AmountIs(e);
    var c1 := Put(c, "chain_id", Get(e, "chain_id"));
    var c2 := Put(c1, "account", AccountOf(e));
    var c3 := Put(c2, "to", TargetOf(e));
    var c4 := Put(c3, "value", Get(e, "value"));
    var c5 := Put(c4, "data", Get(e, "data"));
    var c6 := Put(c5, "token", Get(e, "token"));
    PutEntry(c, "chain_id", Get(e, "chain_id"), f);
    PutEntry(c1, "account", AccountOf(e), f);
    PutEntry(c2, "to", TargetOf(e), f);
    PutEntry(c3, "value", Get(e, "value"), f);
    PutEntry(c4, "data", Get(e, "data"), f);
    PutEntry(c5, "token", Get(e, "token"), f);
    PutEntry(c6, "spender", Get(e, "spender"), f);
  }

  /** The field names are different, so no entry replaces another. */
  lemma Apart()
    ensures Distinct(["chain_id", "account", "to", "value", "data", "tool_name", "args", "token", "spender", "amount",
                      "max_fee_per_gas_wei", "max_priority_fee_per_gas_wei", "gas_limit", "estimated_gas_cost_wei"])
  {
  }

  /** What the candidate of a call holds under each name. */
  function EntryOf(name: string, args: Value, e: Record, f: string): Option<Value> {
    if f == "tool_name" then Some(Str(name)) else if f == "args" then Some(args)
    else if f == "account" then AccountOf(e) else if f == "to" then TargetOf(e) else if f == "amount" then AmountOf(e)
    else if f == "chain_id" || f == "value" || f == "data" || f == "token" || f == "spender" || f == "gas_limit" ||
            f == "max_fee_per_gas_wei" || f == "max_priority_fee_per_gas_wei" || f == "estimated_gas_cost_wei" then Get(e, f)
    else None
  }

  lemma NameEntries(name: string, args: Value, f: string)
    ensures Get(Put(Put(map[], "tool_name", Some(Str(name))), "args", Some(args)), f) ==
            if f == "tool_name" then Some(Str(name)) else if f == "args" then Some(args) else None
  {
    Apart();
  }

  lemma CandidateEntry(name: string, args: Value, e: Record, f: string)
    ensures Get(CandidateOf(name, args, e), f) == EntryOf(name, args, e, f)
  {
    hide Put, Get, Effects, Costs, Fees, AmountOf, AccountOf, TargetOf;
    Apart();
    var c := Put(Put(map[], "tool_name", Some(Str(name))), "args", Some(args));
    NameEntries(name, args, f);
    EffectsEntry(c, e, f);
    CostsEntry(Effects(c, e), e, f);
    FeesEntry(Effects(c, e), e, f);
  }

  // ----- Equal payloads

  lemma FieldAlike(a: Candidate, b: Candidate, f: string)
    requires CandidateDigest.WellFormed(a) && CandidateDigest.WellFormed(b) && JsonOption(Get(a, f)) && JsonOption(Get(b, f))
    ensures CandidateDigest.SameField(a, b, f) <==> Alike(Get(a, f), Get(b, f))
  {
    hide CandidateDigest.Normalized, IsJson, Same, Lower, HexText;
    if CandidateDigest.Present(a, f) && CandidateDigest.Present(b, f) {
      JsonNotBig(a[f]);
      JsonNotBig(b[f]);
      CandidateDigest.NormalizedIff(a[f], b[f]);
    }
  }

  lemma JsonNotBig(v: Value)
    requires IsJson(v)
    ensures !v.Big?
  {
  }

  lemma EntryJson(name: string, args: Value, e: Record, f: string)
    requires IsJson(args) && JsonRecord(e)
    ensures JsonOption(EntryOf(name, args, e, f))
  {
    TextIsJson(name);
    hide IsJson, Truthy;
  }

  predicate AlikeAt(name: string, args: Value, e: Record, name': string, args': Value, e': Record, f: string) {
    hide EntryOf, Alike;
    Alike(EntryOf(name, args, e, f), EntryOf(name', args', e', f))
  }

  lemma NamedEntries(name: string, args: Value, e: Record)
    ensures EntryOf(name, args, e, "tool_name") == Some(Str(name)) && EntryOf(name, args, e, "args") == Some(args)
    ensures EntryOf(name, args, e, "account") == AccountOf(e) && EntryOf(name, args, e, "to") == TargetOf(e)
    ensures EntryOf(name, args, e, "amount") == AmountOf(e)
    ensures EntryOf(name, args, e, "chain_id") == Get(e, "chain_id") && EntryOf(name, args, e, "value") == Get(e, "value")
    ensures EntryOf(name, args, e, "data") == Get(e, "data") && EntryOf(name, args, e, "token") == Get(e, "token")
    ensures EntryOf(name, args, e, "spender") == Get(e, "spender") && EntryOf(name, args, e, "gas_limit") == Get(e, "gas_limit")
    ensures EntryOf(name, args, e, "max_fee_per_gas_wei") == Get(e, "max_fee_per_gas_wei")
    ensures EntryOf(name, args, e, "max_priority_fee_per_gas_wei") == Get(e, "max_priority_fee_per_gas_wei")
    ensures EntryOf(name, args, e, "estimated_gas_cost_wei") == Get(e, "estimated_gas_cost_wei")
  {
    hide AccountOf, TargetOf, AmountOf, Get;
    Apart();
    var l := ["chain_id", "account", "to", "value", "data", "tool_name", "args", "token", "spender", "amount",
              "max_fee_per_gas_wei", "max_priority_fee_per_gas_wei", "gas_limit", "estimated_gas_cost_wei"];
    assert l[0] == "chain_id" && l[1] == "account" && l[2] == "to" && l[3] == "value" && l[4] == "data" && l[5] == "tool_name";
    assert l[6] == "args" && l[7] == "token" && l[8] == "spender" && l[9] == "amount" && l[10] == "max_fee_per_gas_wei";
    assert l[11] == "max_priority_fee_per_gas_wei" && l[12] == "gas_limit" && l[13] == "estimated_gas_cost_wei";
  }

  predicate EachNamed(p: string -> bool) {
    && p("chain_id") && p("account") && p("to") && p("value") && p("data") && p("tool_name") && p("args") && p("token") && p("spender")
    && p("amount") && p("max_fee_per_gas_wei") && p("max_priority_fee_per_gas_wei") && p("gas_limit") && p("estimated_gas_cost_wei")
  }

  /** The digest covers these fourteen names. */
  lemma DigestNames(p: string -> bool)
    ensures (forall f | f in CandidateDigest.DigestFields() :: p(f)) <==> EachNamed(p)
  {
    var l := CandidateDigest.DigestFields();
    assert |l| == 14;
    assert l[0] == "chain_id" && l[1] == "account" && l[2] == "to" && l[3] == "value" && l[4] == "data" && l[5] == "tool_name";
    assert l[6] == "args" && l[7] == "token" && l[8] == "spender" && l[9] == "amount" && l[10] == "max_fee_per_gas_wei";
    assert l[11] == "max_priority_fee_per_gas_wei" && l[12] == "gas_limit" && l[13] == "estimated_gas_cost_wei";
    assert forall f | f in l :: exists i | 0 <= i < 14 :: l[i] == f;
    if forall f | f in l :: p(f) { assert forall i | 0 <= i < 14 :: l[i] in l && p(l[i]); }
  }

  lemma SameCallEach(name: string, args: Value, e: Record, name': string, args': Value, e': Record)
    ensures SameCall(name, args, e, name', args', e') <==> EachNamed(f => AlikeAt(name, args, e, name', args', e', f))
  {
    hide Alike, AccountOf, TargetOf, AmountOf, Get, EntryOf, SameEffect, SameCost;
    NamedEntries(name, args, e);
    NamedEntries(name', args', e');
    EffectEach(name, args, e, name', args', e');
    CostEach(name, args, e, name', args', e');
  }

  lemma EffectEach(name: string, args: Value, e: Record, name': string, args': Value, e': Record)
    ensures var p := f => AlikeAt(name, args, e, name', args', e', f);
            SameEffect(e, e') <==>
              p("chain_id") && p("account") && p("to") && p("value") && p("data") && p("token") && p("spender") && p("amount")
  {
    hide Alike, AccountOf, TargetOf, AmountOf, Get, EntryOf;
    NamedEntries(name, args, e);
    NamedEntries(name', args', e');
  }

  lemma CostEach(name: string, args: Value, e: Record, name': string, args': Value, e': Record)
    ensures var p := f => AlikeAt(name, args, e, name', args', e', f);
            SameCost(e, e') <==>
              p("max_fee_per_gas_wei") && p("max_priority_fee_per_gas_wei") && p("gas_limit") && p("estimated_gas_cost_wei")
  {
    hide Alike, AccountOf, TargetOf, AmountOf, Get, EntryOf;
    NamedEntries(name, args, e);
    NamedEntries(name', args', e');
  }

  lemma SameCallAt(name: string, args: Value, e: Record, name': string, args': Value, e': Record)
    ensures SameCall(name, args, e, name', args', e') <==>
              forall f | f in CandidateDigest.DigestFields() :: AlikeAt(name, args, e, name', args', e', f)
  {
    hide SameCall, AlikeAt, CandidateDigest.DigestFields, EachNamed;
    SameCallEach(name, args, e, name', args', e');
    DigestNames(f => AlikeAt(name, args, e, name', args', e', f));
  }

  /** Two tool calls have the same digest payload exactly when tool, arguments and everything in the evidence that
      defines effect and cost are alike. */
  lemma SameCallIff(name: string, args: Value, e: Record, name': string, args': Value, e': Record)
    requires IsJson(args) && JsonRecord(e) && IsJson(args') && JsonRecord(e')
    ensures CandidateDigest.WellFormed(CandidateOf(name, args, e)) && CandidateDigest.WellFormed(CandidateOf(name', args', e'))
    ensures CandidateDigest.Payload(CandidateOf(name, args, e)) == CandidateDigest.Payload(CandidateOf(name', args', e')) <==>
              SameCall(name, args, e, name', args', e')
  {
    hide CandidateOf, CandidateDigest.Payload, CandidateDigest.DigestFields, CandidateDigest.WellFormed, SameCall, EntryOf, Alike, Get,
      CandidateDigest.SameField, IsJson, JsonRecord;
    CandidateWellFormed(name, args, e);
    CandidateWellFormed(name', args', e');
    var (a, b) := (CandidateOf(name, args, e), CandidateOf(name', args', e'));
    CandidateDigest.PayloadIff(a, b);
    SameCallAt(name, args, e, name', args', e');
    forall f: string ensures CandidateDigest.SameField(a, b, f) <==> AlikeAt(name, args, e, name', args', e', f) {
      CandidateEntry(name, args, e, f);
      CandidateEntry(name', args', e', f);
      EntryJson(name, args, e, f);
      EntryJson(name', args', e', f);
      FieldAlike(a, b, f);
    }
  }

  /** A policy update is digested as the tool of its kind, on Monad Testnet, from the requester, with the proposed content
      as canonical text, and nothing else. */
  lemma UpdateEntries(u: PolicyUpdate, f: string)
    requires IsJson(u.update)
    ensures Get(UpdateCandidate(u), f) ==
            if f == "chain_id" then Some(Num("10143")) else if f == "account" then Some(Str(u.requester))
            else if f == "tool_name" then Some(Str("compass_policy_" + u.kind))
            else if f == "data" then Some(Str(CanonicalJson.Canonical(u.update))) else None
  {
    hide CanonicalJson.Canonical;
    assert |"chain_id"| == 8 && |"account"| == 7 && |"tool_name"| == 9 && |"data"| == 4;
  }
}
