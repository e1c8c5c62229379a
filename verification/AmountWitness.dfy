/** Concrete calls that coverToolCall forwards although the contract's every cap and limit is zero, and one whose
    decision flips with the order of two spender entries. */
module AmountWitness {
  import opened Values
  import opened Text
  import opened Coercions
  import opened ToolSemantics
  import opened WalletTools
  import opened PolicyDecision
  import opened PolicySource
  import opened PolicySnapshot
  import opened GuardedForward
  import opened ActionCoverage
  import opened CoverageSafety
  import opened AmountGaps
  import opened PolicyOrder
  import Risk
  import WeiHex

  // ----- The calls' registry

  function Registry(m: Semantics): Catalog {
    Catalog(map[m.toolName := m], {}, (name, schema) => Plain, schema => "unused")
  }

  // ----- A contract that allows nothing

  function Address(c: char): string {
    "0x" + seq(40, _ => c)
  }

  function Token(): string { Address('a') }

  function Other(): string { Address('b') }

  function SomeHash(): string {
    "0x" + seq(64, _ => '0')
  }

  function OneEntry<T>(x: T): Listing<T> {
    Listing(Some(1), (cursor, limit) => Page([x], cursor + 1))
  }

  function NoEntries<T>(): Listing<T> {
    Listing(Some(0), (cursor, limit) => Unreadable)
  }

  function ZeroCaps(): Caps<Value> {
    Caps(Big(0), Big(0), Big(0), Big(0))
  }

  function ZeroLimit(): RawLimit {
    Limit(Str(Token()), Str(Other()), Big(0), true)
  }

  function ZeroIdentity(): Identity {
    Identity(Str(SomeHash()), Big(1), Str(SomeHash()), Big(MONAD_TESTNET), Str(SomeHash()), false)
  }

  /** One tool, one recipient, one token and one spender entry; every cap and limit is zero. */
  function ZeroContract(tool: string): Transport {
    Transport(Some(MONAD_TESTNET), Some("0x60"), Some(ZeroIdentity()), Some(Str(Other())), Some(ZeroCaps()),
              Some(Flags(true, false, true, false)), OneEntry(Str(Risk.KeyOf(tool))), OneEntry(Str(Other())), OneEntry(Str(Token())),
              OneEntry(ZeroLimit()), NoEntries())
  }

  function ZeroRaw(tool: string): Raw {
    Raw(ZeroIdentity(), Str(Other()), ZeroCaps(), Flags(true, false, true, false), [Str(Risk.KeyOf(tool))], [Str(Other())], [Str(Token())],
        [ZeroLimit()], [])
  }

  function ZeroConfig(): Config {
    Config(Str(Other()), "", 1, None)
  }

  lemma OneEntryRead<T>(x: T)
    ensures All(OneEntry(x)) == Some([x])
  {
    var page := OneEntry(x).page;
    assert Paged(page, 1, 1) == Some([]);
    assert [x] + [] == [x];
  }

  lemma NoEntriesRead<T>()
    ensures All(NoEntries<T>()) == Some([])
  {
  }

  lemma ZeroRead(tool: string)
    ensures RawOf(ZeroContract(tool)) == Some(ZeroRaw(tool)) && Readable(ZeroContract(tool))
    ensures ZeroRaw(tool).caps == ZeroCaps() && ZeroRaw(tool).spenders == [ZeroLimit()]
  {
    hide Risk.KeyOf, Token, Other, SomeHash, All, OneEntry, NoEntries;
    OneEntryRead(Str(Risk.KeyOf(tool)));
    OneEntryRead(Str(Other()));
    OneEntryRead(Str(Token()));
    OneEntryRead(ZeroLimit());
    NoEntriesRead<RawRule>();
  }

  lemma AddressIs(c: char)
    requires c == 'a' || c == 'b'
    ensures HexOf(Str(Address(c)), 40) && Lower(Address(c)) == Address(c)
  {
    var s := Address(c);
    assert forall i | 2 <= i < 42 :: s[i] == c;
    assert |s| == 42 && s[0] == '0' && s[1] == 'x';
  }

  lemma SomeHashIs()
    ensures HexOf(Str(SomeHash()), 64)
  {
    var s := SomeHash();
    assert forall i | 2 <= i < 66 :: s[i] == '0';
    assert |s| == 66 && s[0] == '0' && s[1] == 'x';
  }

  lemma BigNumeral(n: nat)
    ensures CanonicalDecimal(TextOf(Big(n))) && ValueOf(TextOf(Big(n))) == n && NumberIs(Big(n), n)
  {
    DecimalRoundTrip(n);
  }

  lemma KeyIsHash(tool: string)
    ensures HexOf(Str(Risk.KeyOf(tool)), 64) && Lower(Risk.KeyOf(tool)) == Risk.KeyOf(tool)
  {
    hide Hash, Lower;
    HashIsHex(tool);
  }

  lemma ZeroAcceptable(tool: string)
    ensures Acceptable(ZeroRaw(tool), ZeroConfig())
  {
    hide Risk.KeyOf, Token, Other, SomeHash, HexOf, Lower, CanonicalDecimal, ValueOf, NumberIs, TextOf;
    KeyIsHash(tool);
    TokenIs();
    SomeHashIs();
    BigNumeral(0);
    BigNumeral(1);
    BigNumeral(MONAD_TESTNET);
    TruthyHash();
  }

  lemma TokenIs()
    ensures HexOf(Str(Token()), 40) && Lower(Token()) == Token() && HexOf(Str(Other()), 40) && Lower(Other()) == Other()
    ensures Truthy(Str(Token())) && Truthy(Str(Other()))
  {
    AddressIs('a');
    AddressIs('b');
  }

  lemma TruthyHash()
    ensures Truthy(Str(SomeHash()))
  {
  }

  /** What the checks need of a policy. */
  predicate ZeroLists(s: Snapshot, tool: string) {
    hide Risk.KeyOf;
    && Risk.KeyOf(tool) in s.tools && Other() in s.recipients && Token() in s.tokens
    && s.spenders == [Limit(Token(), Other(), "0", true)] && s.caps == Caps("0", "0", "0", "0")
  }

  lemma ZeroFetched(tool: string) returns (s: Snapshot)
    ensures Fetched(ZeroContract(tool), ZeroConfig()) == Ok(s) && ZeroLists(s, tool)
  {
    hide Risk.KeyOf, Token, Other, SomeHash, Lower, Fetched, Acceptable, RawOf, ZeroContract, Readable, Valid;
    ZeroRead(tool);
    ZeroAcceptable(tool);
    FetchedIff(ZeroContract(tool), ZeroConfig());
    s := Fetched(ZeroContract(tool), ZeroConfig()).value;
    TokenIs();
    KeyIsHash(tool);
    assert LowerOf(s.tools, [Str(Risk.KeyOf(tool))]) && s.tools[0] == Risk.KeyOf(tool);
    assert LowerOf(s.recipients, [Str(Other())]) && s.recipients[0] == Other();
    assert LowerOf(s.tokens, [Str(Token())]) && s.tokens[0] == Token();
    assert LimitOf(s.spenders[0], ZeroLimit());
    ZeroText();
  }

  lemma ZeroText()
    ensures TextOf(Big(0)) == "0"
  {
  }

  // ----- What every call shares

  const SIMULATION := Obj([Field("status", Str("success"))])

  const NO_CONTEXT := Context(None, None, None)

  function FullConsent(): Value {
    Obj([Field("network", Str("n")), Field("account", Str("a")), Field("target", Str("t")), Field("asset", Str("s")),
         Field("max_amount", Str("m"))])
  }

  function EvidenceOf(m: Semantics, args: seq<Field>): Record {
    Evidence(Some(m), args, NO_CONTEXT, Some(SIMULATION))
  }

  /** coverToolCall forwards the call under the policy source. */
  predicate Forwarded(m: Semantics, args: seq<Field>, source: Source) {
    hide Cover;
    Cover(Registry(m), m.toolName, args, NO_CONTEXT, source, Some(SIMULATION), Some(FullConsent()), true, Replies(Some("safe"))) ==
      Gated(Allow)
  }

  /** It forwards the call although the contract reads, which are acceptable, have zero for every cap and limit. */
  predicate ForwardedAtZero(m: Semantics, args: seq<Field>) {
    hide Forwarded, ZeroContract, ZeroRaw, RawOf, Acceptable;
    && RawOf(ZeroContract(m.toolName)) == Some(ZeroRaw(m.toolName)) && Acceptable(ZeroRaw(m.toolName), ZeroConfig())
    && Forwarded(m, args, Contract(ZeroContract(m.toolName), ZeroConfig()))
  }

  lemma ConsentFull()
    ensures ConsentGiven(Some(FullConsent()))
  {
    var l := FullConsent().fields;
    assert l[0].key == "network" && l[1].key == "account" && l[2].key == "target" && l[3].key == "asset" && l[4].key == "max_amount";
    assert "network"[0] != "account"[0];
    FieldAt(l, 0);
    FieldAt(l, 1);
    FieldAt(l, 2);
    FieldAt(l, 3);
    FieldAt(l, 4);
  }

  lemma Status()
    ensures Truthy(SIMULATION) && Risk.StatusOf(SIMULATION) == Some(Str("success"))
    ensures GasCostOf(Some(SIMULATION)) == None
    ensures Str("success") != Str("failed") && Str("success") != Str("unavailable")
  {
    FieldAt(SIMULATION.fields, 0);
    assert SIMULATION.fields[0].key == "status" && |"status"| == 6 && |"estimated_gas_cost_wei"| == 22;
    assert |"success"| == 7 && |"failed"| == 6 && |"unavailable"| == 11;
  }

  lemma ChainNumber()
    ensures NumberIs(Num("10143"), 10143)
  {
    var t := "10143";
    assert Digits(t) && CanonicalDecimal(t);
    Risk.FiveDigits(t);
  }

  lemma ToolNames()
    ensures SendTool().toolClass == "transaction_execute" && TransferTool().toolClass == "transaction_execute"
    ensures ApproveTool().toolClass == "token_approval" && ApproveTool().toolName == "approve_token"
    ensures SendTool().requiredFields == ["to", "value", "data?"] && TransferTool().requiredFields == ["token", "to", "amount"]
    ensures ApproveTool().requiredFields == ["token", "spender", "amount"]
  {
  }

  lemma Clear(m: Semantics)
    requires WalletTool(m)
    ensures OtherwiseClear(Registry(m), m.toolName, Some(FullConsent()), true, Replies(Some("safe")))
    ensures Registry(m).registry == map[m.toolName := m]
  {
    HashesMatch();
    ConsentFull();
    SafeIsLower();
    hide FullConsent, ConsentGiven, SendTool, TransferTool, ApproveTool, SignTool;
  }

  lemma HashesMatch()
    ensures SendTool().inputSchemaHash == TransferTool().inputSchemaHash == ApproveTool().inputSchemaHash == "registered"
    ensures SignTool().inputSchemaHash == "registered"
  {
  }

  lemma ForwardedIff(m: Semantics, args: seq<Field>, source: Source, s: Snapshot)
    requires WalletTool(m) && PolicyFrom(source) == Ok(s)
    ensures Forwarded(m, args, source) <==> Risk.Checks(m, s, EvidenceOf(m, args)) == []
  {
    hide Cover, Evidence, OtherwiseClear, Risk.Checks, WalletTool, FullConsent, SaidSafe, PolicyFrom, Registry;
    Clear(m);
    CoverIff(Registry(m), m.toolName, args, NO_CONTEXT, source, s, Some(SIMULATION), Some(FullConsent()), true, Replies(Some("safe")));
  }

  // ----- What the evidence of a call holds

  predicate Plainly(key: string) {
    key == "to" || key == "value" || key == "amount" || key == "chain_id" || key == "estimated_gas_cost_wei"
  }

  lemma ShortName(key: string)
    requires Plainly(key) || ComparedName(key)
    ensures |key| < 14 || (|key| == 22 && key[0] == 'e')
  {
  }

  lemma PlainNames(m: Semantics, key: string)
    requires WalletTool(m) && (Plainly(key) || ComparedName(key))
    ensures key !in m.requiredEvidence
  {
    EvidenceNames(m);
    hide WalletTool, Plainly, ComparedName;
    ShortName(key);
  }

  lemma ToolsCompareArguments(m: Semantics)
    requires WalletTool(m)
    ensures ComparesArguments(m)
  {
    hide WalletTool;
    forall k | k in m.requiredEvidence ensures !ComparedName(k) {
      if ComparedName(k) { PlainNames(m, k); }
    }
  }

  lemma ChainMarked(m: Semantics, args: seq<Field>)
    requires "chain_id" !in m.requiredEvidence && "chainId" !in ArgsOf(args)
    ensures Get(Marked(m, args, NO_CONTEXT), "chain_id") == Some(Num("10143"))
  {
    hide Flatten, Mark, ArgsOf;
    var base := BaseEvidence(args, NO_CONTEXT);
    assert |"chain_id"| == 8 && |"chain_evidence"| == 14;
    FlattenKeeps(base, args, "chain_id");
    MarkKeeps(Flatten(base, args), m.requiredEvidence, "chain_id");
  }

  lemma MarkedPlain(m: Semantics, args: seq<Field>)
    requires WalletTool(m) && "chainId" !in ArgsOf(args)
    ensures var before := Marked(m, args, NO_CONTEXT);
            && Get(before, "chain_id") == Some(Num("10143")) && Get(before, "to") == Get(ArgsOf(args), "to")
            && Get(before, "value") == Get(ArgsOf(args), "value") && Get(before, "amount") == Get(ArgsOf(args), "amount")
            && Get(before, "estimated_gas_cost_wei") == Get(ArgsOf(args), "estimated_gas_cost_wei")
  {
    hide Flatten, Mark, BaseEvidence, ArgsOf, WalletTool;
    PlainNames(m, "chain_id");
    PlainNames(m, "to");
    PlainNames(m, "value");
    PlainNames(m, "amount");
    PlainNames(m, "estimated_gas_cost_wei");
    assert |"to"| == 2 && |"value"| == 5 && |"amount"| == 6 && |"estimated_gas_cost_wei"| == 22 && |"chain_id"| == 8 && |"chain_evidence"| == 14;
    ChainMarked(m, args);
    MarkedIsArgument(m, args, NO_CONTEXT, "to");
    MarkedIsArgument(m, args, NO_CONTEXT, "value");
    MarkedIsArgument(m, args, NO_CONTEXT, "amount");
    MarkedIsArgument(m, args, NO_CONTEXT, "estimated_gas_cost_wei");
  }

  lemma PlainlyNames(key: string)
    requires Plainly(key)
    ensures key != "recipient" && key != "token" && key != "spender" && key != "simulation" && key != "amount_atomic" && key != "amount_wei"
    ensures key != "finite_amount_evidence"
  {
    assert |"recipient"| == 9 && |"token"| == 5 && |"spender"| == 7 && |"simulation"| == 10 && |"amount_atomic"| == 13 && |"amount_wei"| == 10;
    assert "finite_amount_evidence"[0] == 'f' && |"to"| == 2 && |"amount"| == 6 && |"chain_id"| == 8;
    assert |"value"| == 5 && "value"[0] == 'v' && "token"[0] == 't';
    assert |"estimated_gas_cost_wei"| == 22 && "estimated_gas_cost_wei"[0] == 'e';
  }

  lemma TransferKeepsPlain(before: Record, a: Record, key: string)
    requires Plainly(key)
    ensures Get(TransferEvidence(before, a, Some(SIMULATION)), key) == Get(before, key)
    ensures Get(TransferEvidence(before, a, Some(SIMULATION)), "simulation") == Some(SIMULATION)
  {
    hide Lowered, TextOf, Truthy, GasCostOf, RecipientOf, TransferAmount;
    Status();
    PlainlyNames(key);
  }

  lemma ApprovalKeepsPlain(before: Record, a: Record, key: string)
    requires Plainly(key)
    ensures Get(ApprovalEvidence(before, a, Some(SIMULATION)), key) == Get(before, key)
    ensures Get(ApprovalEvidence(before, a, Some(SIMULATION)), "simulation") == Some(SIMULATION)
  {
    hide Lowered, TextOf, Truthy, Lower;
    Status();
    PlainlyNames(key);
  }

  /** The evidence has the chain and the simulation, no gas estimate, and the three plain arguments as they are. */
  predicate Witnessed(e: Record, a: Record) {
    && Get(e, "chain_id") == Some(Num("10143")) && Get(e, "simulation") == Some(SIMULATION)
    && Get(e, "estimated_gas_cost_wei") == Get(a, "estimated_gas_cost_wei")
    && Get(e, "to") == Get(a, "to") && Get(e, "value") == Get(a, "value") && Get(e, "amount") == Get(a, "amount")
  }

  lemma TransferWitnessed(m: Semantics, args: seq<Field>)
    requires WalletTool(m) && m.toolClass == "transaction_execute" && "chainId" !in ArgsOf(args)
    ensures Witnessed(EvidenceOf(m, args), ArgsOf(args))
  {
    var before := Marked(m, args, NO_CONTEXT);
    hide Flatten, Mark, BaseEvidence, ArgsOf, TransferEvidence, WalletTool;
    MarkedPlain(m, args);
    TransferKeepsPlain(before, ArgsOf(args), "to");
    TransferKeepsPlain(before, ArgsOf(args), "value");
    TransferKeepsPlain(before, ArgsOf(args), "amount");
    TransferKeepsPlain(before, ArgsOf(args), "chain_id");
    TransferKeepsPlain(before, ArgsOf(args), "estimated_gas_cost_wei");
    ClassNames();
  }

  lemma ApprovalWitnessed(m: Semantics, args: seq<Field>)
    requires WalletTool(m) && m.toolClass == "token_approval" && "chainId" !in ArgsOf(args) && "recipient" !in ArgsOf(args)
    ensures Witnessed(EvidenceOf(m, args), ArgsOf(args)) && Get(EvidenceOf(m, args), "recipient") == None
  {
    var before := Marked(m, args, NO_CONTEXT);
    hide Flatten, Mark, BaseEvidence, ArgsOf, ApprovalEvidence, WalletTool;
    MarkedPlain(m, args);
    ApprovalKeepsPlain(before, ArgsOf(args), "to");
    ApprovalKeepsPlain(before, ArgsOf(args), "value");
    ApprovalKeepsPlain(before, ArgsOf(args), "amount");
    ApprovalKeepsPlain(before, ArgsOf(args), "chain_id");
    ApprovalKeepsPlain(before, ArgsOf(args), "estimated_gas_cost_wei");
    ApprovalNoRecipient(m, args);
    ClassNames();
  }

  lemma ApprovalNoRecipient(m: Semantics, args: seq<Field>)
    requires WalletTool(m) && "recipient" !in ArgsOf(args)
    ensures Get(ApprovalEvidence(Marked(m, args, NO_CONTEXT), ArgsOf(args), Some(SIMULATION)), "recipient") == None
  {
    hide Flatten, Mark, BaseEvidence, ArgsOf, TextOf, Lowered, WalletTool, Truthy, Lower;
    PlainNames(m, "recipient");
    UndottedNames();
    assert |"recipient"| == 9 && |"token"| == 5 && |"spender"| == 7 && |"amount_atomic"| == 13 && |"finite_amount_evidence"| == 22;
    assert |"simulation"| == 10 && |"chain_id"| == 8 && |"chain_evidence"| == 14;
    MarkedIsArgument(m, args, NO_CONTEXT, "recipient");
  }

  // ----- When the checks are silent

  lemma FieldsGiven(e: Record, a: string, b: string, c: string)
    requires Given(e, a) && Given(e, b) && (Given(e, c) || Risk.Optional(c))
    ensures AllGiven(e, [a, b, c])
  {
    forall n | n in [a, b, c] ensures Risk.HasEvidence(e, n) { assert n == a || n == b || n == c; }
  }

  lemma ContextSilent(m: Semantics, s: Snapshot, args: seq<Field>)
    requires Witnessed(EvidenceOf(m, args), ArgsOf(args)) && "estimated_gas_cost_wei" !in ArgsOf(args) && Risk.KeyOf(m.toolName) in s.tools
    requires AllGiven(EvidenceOf(m, args), m.requiredFields)
    ensures Risk.ContextChecks(m, s, EvidenceOf(m, args)) == [] && Risk.GasFinding(s, EvidenceOf(m, args)) == []
  {
    hide Evidence, ArgsOf, Risk.ContextChecks, Risk.KeyOf, AllGiven, Risk.StatusOf, NumberIs, Truthy, Risk.AmountOf, Risk.CapOf;
    RequiredEvidenceGiven(m, args, NO_CONTEXT, Some(SIMULATION));
    ContextEmptyIff(m, s, EvidenceOf(m, args));
    ChainNumber();
    Status();
  }

  /** The recipient and the token, where there is one, are the listed addresses. */
  predicate ListedAddresses(a: Record) {
    && RecipientGiven(a) && Recipient(a) == Str(Other())
    && (TruthyAt(a, "token") ==> a["token"] == Str(Token()))
  }

  lemma TransferSilent(m: Semantics, s: Snapshot, args: seq<Field>, amount: string)
    requires WalletTool(m) && m.toolClass == "transaction_execute" && ZeroLists(s, m.toolName)
    requires var a := ArgsOf(args); "chainId" !in a && "estimated_gas_cost_wei" !in a && ListedAddresses(a) && TransferOf(a, amount)
    requires AllGiven(EvidenceOf(m, args), m.requiredFields) && BoundBy(CheckedAmount(ArgsOf(args), amount), 0)
    ensures Risk.Checks(m, s, EvidenceOf(m, args)) == []
  {
    hide Evidence, ArgsOf, Risk.Checks, Risk.ContextChecks, Risk.AmountFinding, Risk.GasFinding, Risk.KeyOf, WalletTool, BoundBy, TextOf,
      Risk.AmountEvidence, AllGiven, Risk.CapOf, Lower, Token, Other, CheckedAmount, TransferOf, Lowered, RecipientGiven, Recipient, Truthy, Witnessed;
    var (a, e) := (ArgsOf(args), EvidenceOf(m, args));
    ToolsCompareArguments(m);
    TransferFacts(m, args, NO_CONTEXT, Some(SIMULATION), amount);
    TransferWitnessed(m, args);
    ContextSilent(m, s, args);
    AmountBound(m, s, e);
    ZeroCap();
    TransferLists(s, e, a);
    ChecksEmptyIff(m, s, e);
    ClassNames();
    NotSignature();
    TransferNeedsNoLimit(m, s, e);
  }

  lemma ZeroCap()
    ensures Risk.CapOf("0") == 0
  {
    assert "0"[..0] == "";
  }

  lemma NotSignature()
    ensures "signature" != "transaction_execute" && "signature" != "token_approval"
  {
    assert |"signature"| == 9 && |"transaction_execute"| == 19 && |"token_approval"| == 14;
  }

  lemma TransferLists(s: Snapshot, e: Record, a: Record)
    requires Other() in s.recipients && Token() in s.tokens && ListedAddresses(a)
    requires Get(e, "recipient") == Some(Lowered(Recipient(a))) && Get(e, "token") == TokenOf(a)
    ensures Risk.ListedIn(e, "recipient", s.recipients) && Risk.ListedIn(e, "token", s.tokens)
  {
    hide Token, Other, Lower, Recipient, RecipientGiven;
    TokenIs();
  }

  lemma ThreeArgs(a: Field, b: Field, c: Field)
    ensures ArgsOf([a, b, c]) == map[][a.key := a.value][b.key := b.value][c.key := c.value]
  {
    assert [a, b, c][..2] == [a, b] && [a, b][..1] == [a] && [a][..0] == [];
    assert ArgsOf([a]) == map[][a.key := a.value];
    assert ArgsOf([a, b]) == map[][a.key := a.value][b.key := b.value];
  }

  /** The checks are silent, so the call is forwarded at zero. */
  lemma TransferAtZero(m: Semantics, args: seq<Field>, amount: string)
    requires WalletTool(m) && m.toolClass == "transaction_execute"
    requires var a := ArgsOf(args); "chainId" !in a && "estimated_gas_cost_wei" !in a && ListedAddresses(a) && TransferOf(a, amount)
    requires AllGiven(EvidenceOf(m, args), m.requiredFields) && BoundBy(CheckedAmount(ArgsOf(args), amount), 0)
    ensures ForwardedAtZero(m, args)
  {
    hide EvidenceOf, ArgsOf, Risk.Checks, WalletTool, BoundBy, CheckedAmount, TransferOf, ListedAddresses, AllGiven, ZeroLists, ZeroContract,
      Forwarded, Fetched, ZeroConfig, ZeroRaw, RawOf, Acceptable;
    ZeroRead(m.toolName);
    ZeroAcceptable(m.toolName);
    var s := ZeroFetched(m.toolName);
    TransferSilent(m, s, args, amount);
    ForwardedIff(m, args, Contract(ZeroContract(m.toolName), ZeroConfig()), s);
  }

  // ----- Amounts that cannot be read

  function TransferArgs(text: string): seq<Field> {
    [Field("token", Str(Token())), Field("to", Str(Other())), Field("amount", Str(text))]
  }

  lemma TransferArgsAre(text: string)
    requires text != ""
    ensures var a := ArgsOf(TransferArgs(text));
            && Given(a, "token") && Given(a, "to") && Given(a, "amount") && TruthyAt(a, "token") && AmountTaken(a)
            && "chainId" !in a && "estimated_gas_cost_wei" !in a && ListedAddresses(a) && TransferOf(a, text)
  {
    hide Token, Other;
    var l := TransferArgs(text);
    ThreeArgs(l[0], l[1], l[2]);
    TokenIs();
    assert |"token"| == 5 && |"to"| == 2 && |"amount"| == 6 && |"chainId"| == 7 && |"estimated_gas_cost_wei"| == 22;
  }

  lemma TransferFieldsGiven(text: string)
    requires text != ""
    ensures AllGiven(EvidenceOf(TransferTool(), TransferArgs(text)), TransferTool().requiredFields)
  {
    var m := TransferTool();
    ToolNames();
    hide TransferTool, Evidence, TransferArgs, AllGiven, ArgsOf, ListedAddresses, TransferOf, Truthy, CheckedAmount, Lowered;
    var (e, a) := (EvidenceOf(m, TransferArgs(text)), ArgsOf(TransferArgs(text)));
    TransferArgsAre(text);
    ToolsCompareArguments(m);
    TransferWitnessed(m, TransferArgs(text));
    TransferFacts(m, TransferArgs(text), NO_CONTEXT, Some(SIMULATION), text);
    LoweredGiven(a["token"]);
    FieldsGiven(e, "token", "to", "amount");
  }

  /** A transfer of 1.5 is forwarded although both amount caps of the contract are zero: without the canonical
      amount the conclusion of `ForwardedTransfer` fails. */
  lemma FractionForwarded()
    ensures ForwardedAtZero(TransferTool(), TransferArgs("1.5"))
  {
    hide ZeroContract, ZeroRaw, ForwardedAtZero, TransferTool, EvidenceOf, TransferArgs, ArgsOf, AllGiven, ListedAddresses,
      TransferOf, BoundBy, Readable, Lower;
    ToolNames();
    TransferArgsAre("1.5");
    TransferFieldsGiven("1.5");
    FractionUnreadable();
    UnreadableBound("1.5", 0);
    TransferAtZero(TransferTool(), TransferArgs("1.5"), "1.5");
  }

  function ApproveArgs(text: string): seq<Field> {
    [Field("token", Str(Token())), Field("spender", Str(Other())), Field("amount", Str(text))]
  }

  lemma ApproveArgsAre(text: string)
    requires text != ""
    ensures var a := ArgsOf(ApproveArgs(text));
            && PlainApproval(a, text) && a["token"] == Str(Token()) && a["spender"] == Str(Other())
            && "chainId" !in a && "estimated_gas_cost_wei" !in a && "recipient" !in a
  {
    hide Token, Other;
    var l := ApproveArgs(text);
    ThreeArgs(l[0], l[1], l[2]);
    TokenIs();
    assert |"token"| == 5 && |"spender"| == 7 && |"amount"| == 6 && |"chainId"| == 7 && |"estimated_gas_cost_wei"| == 22;
    assert |"recipient"| == 9 && "chainId"[0] != "spender"[0];
  }

  /** What the approval's evidence holds. */
  lemma ApproveFacts(text: string)
    requires text != ""
    ensures var (m, e) := (ApproveTool(), EvidenceOf(ApproveTool(), ApproveArgs(text)));
            && Witnessed(e, ArgsOf(ApproveArgs(text))) && Get(e, "recipient") == None && Given(e, "amount")
            && Get(e, "token") == Some(Str(Token())) && Get(e, "spender") == Some(Str(Other()))
            && Get(e, "amount_atomic") == Some(Str(text)) && Risk.AmountEvidence(e) == Some(Str(text))
  {
    var m := ApproveTool();
    ToolNames();
    hide ApproveTool, Evidence, ApproveArgs, ArgsOf, Lower, Token, Other, Risk.AmountEvidence, TextOf, ComparesArguments;
    ApproveArgsAre(text);
    TokenIs();
    ToolsCompareArguments(m);
    ApprovalWitnessed(m, ApproveArgs(text));
    ApprovalFacts(m, ApproveArgs(text), NO_CONTEXT, Some(SIMULATION), text);
  }

  /** The approval's context is in order. */
  lemma ApproveContext(s: Snapshot, text: string)
    requires text != "" && Risk.KeyOf("approve_token") in s.tools
    ensures var (m, e) := (ApproveTool(), EvidenceOf(ApproveTool(), ApproveArgs(text)));
            Risk.ContextChecks(m, s, e) == [] && Risk.GasFinding(s, e) == []
  {
    var m := ApproveTool();
    ToolNames();
    hide ApproveTool, EvidenceOf, ApproveArgs, AllGiven, ArgsOf, Risk.ContextChecks, Risk.GasFinding, Risk.KeyOf, Token, Other, Risk.AmountEvidence, Truthy, Lower, Witnessed;
    ApproveArgsAre(text);
    ApproveFacts(text);
    FieldsGiven(EvidenceOf(m, ApproveArgs(text)), "token", "spender", "amount");
    ContextSilent(m, s, ApproveArgs(text));
  }

  /** The approval's checks are silent exactly when the amount checks are. */
  lemma ApproveSilentIff(s: Snapshot, text: string)
    requires text != "" && Risk.KeyOf("approve_token") in s.tools && Token() in s.tokens && s.spenders != []
    requires s.spenders[0].enabled && s.spenders[0].token == Token() && s.spenders[0].spender == Other() && !Unlimited(text)
    ensures Risk.Checks(ApproveTool(), s, EvidenceOf(ApproveTool(), ApproveArgs(text))) == [] <==>
              BoundBy(Some(Str(text)), Risk.CapOf(s.caps.erc20)) && BoundBy(Some(Str(text)), Risk.CapOf(s.spenders[0].max))
  {
    var m := ApproveTool();
    ToolNames();
    hide ApproveTool, EvidenceOf, ApproveArgs, Lower, Token, Other, Risk.ContextChecks, Risk.GasFinding, Risk.KeyOf, Risk.Checks,
      Risk.AmountEvidence, Risk.AmountOf, Risk.CapOf, Unlimited, Witnessed;
    var e := EvidenceOf(m, ApproveArgs(text));
    ApproveFacts(text);
    ApproveContext(s, text);
    TokenIs();
    ChecksEmptyIff(m, s, e);
    AmountBound(m, s, e);
    ClassNames();
    NotSignature();
    FirstLimit(m, s, e, text);
  }

  lemma FirstLimit(m: Semantics, s: Snapshot, e: Record, text: string)
    requires m.toolClass == "token_approval" && s.spenders != [] && text != "" && !Unlimited(text)
    requires s.spenders[0].enabled && s.spenders[0].token == Token() && s.spenders[0].spender == Other()
    requires Get(e, "token") == Some(Str(Token())) && Get(e, "spender") == Some(Str(Other()))
    requires Get(e, "amount_atomic") == Some(Str(text)) && Risk.AmountEvidence(e) == Some(Str(text))
    ensures Risk.ApprovalFindings(m, s, e) == [] <==> BoundBy(Some(Str(text)), Risk.CapOf(s.spenders[0].max))
  {
    hide Lower, Token, Other, Risk.AmountEvidence, Risk.AmountOf, Risk.CapOf;
    TokenIs();
  }

  lemma ApproveAtZero(text: string)
    requires text != "" && !Unlimited(text) && BoundBy(Some(Str(text)), 0)
    ensures ForwardedAtZero(ApproveTool(), ApproveArgs(text))
  {
    var m := ApproveTool();
    ToolNames();
    hide ZeroContract, ZeroRaw, Forwarded, ApproveTool, EvidenceOf, ApproveArgs, BoundBy, Readable, Lower, Risk.Checks, Risk.KeyOf,
      Risk.CapOf, Fetched, Token, Other, Unlimited, RawOf, Acceptable, ZeroConfig, ZeroCaps, ZeroLimit;
    ZeroRead(m.toolName);
    ZeroAcceptable(m.toolName);
    ZeroCap();
    var s := ZeroFetched(m.toolName);
    ApproveSilentIff(s, text);
    ForwardedIff(m, ApproveArgs(text), Contract(ZeroContract(m.toolName), ZeroConfig()), s);
  }

  /** An approval of 2^256 - 1, spelled in hexadecimal, is forwarded although the contract's token cap and spender
      limit are zero: without the canonical amount the conclusion of `ForwardedApproval` fails. */
  lemma HexUnlimitedForwarded()
    ensures ForwardedAtZero(ApproveTool(), ApproveArgs("0x" + Fs(64)))
  {
    hide ForwardedAtZero, BoundBy, Lower, Unlimited, ApproveTool, ApproveArgs, CanonicalDecimal;
    HexUnlimitedUnreadable();
    UnreadableBound("0x" + Fs(64), 0);
    ApproveAtZero("0x" + Fs(64));
  }

  // ----- Native transfers whose value is not the checked amount

  /** 10^30 */
  function Huge(): string {
    "1" + WeiHex.Zeros(30)
  }

  lemma HugeValue()
    ensures CanonicalDecimal(Huge()) && ValueOf(Huge()) == Ten(30)
  {
    hide Ten;
    WeiHex.ZerosValue(30);
    assert Digits("1") && "1"[..0] == "" && ValueOf("1") == 1;
    ValueOfConcat("1", WeiHex.Zeros(30));
    assert Huge()[0] == '1';
  }

  /** A native transfer of 10^30 with one more argument, which holds zero. */
  function SendArgs(other: string): seq<Field> {
    [Field("to", Str(Other())), Field("value", Str(Huge())), Field(other, Str("0"))]
  }

  function ValueArg(args: seq<Field>): Option<Value> {
    Get(ArgsOf(args), "value")
  }

  lemma SendArgsAre(other: string)
    requires other == "amount_atomic" || other == "amount"
    ensures var a := ArgsOf(SendArgs(other));
            && Given(a, "to") && Given(a, "value") && ValueArg(SendArgs(other)) == Some(Str(Huge())) && !TruthyAt(a, "token")
            && "chainId" !in a && "estimated_gas_cost_wei" !in a && ListedAddresses(a)
            && (other == "amount_atomic" ==> !AmountTaken(a) && Get(a, "amount_atomic") == Some(Str("0")) && TransferOf(a, Huge()))
            && (other == "amount" ==> AmountTaken(a) && TransferOf(a, "0"))
  {
    hide Other, WeiHex.Zeros;
    var l := SendArgs(other);
    ThreeArgs(l[0], l[1], l[2]);
    TokenIs();
    assert |"token"| == 5 && |"to"| == 2 && |"amount"| == 6 && |"chainId"| == 7 && |"estimated_gas_cost_wei"| == 22 && |"value"| == 5;
    assert |"amount_atomic"| == 13 && "value"[0] != "token"[0] && |"recipient"| == 9;
  }

  lemma SendFieldsGiven(other: string)
    requires other == "amount_atomic" || other == "amount"
    ensures AllGiven(EvidenceOf(SendTool(), SendArgs(other)), SendTool().requiredFields)
  {
    var m := SendTool();
    ToolNames();
    hide SendTool, Evidence, SendArgs, AllGiven, ArgsOf, ListedAddresses, TransferOf, AmountTaken, Truthy, Huge;
    SendArgsAre(other);
    TransferWitnessed(m, SendArgs(other));
    assert "data?"[4] == '?';
    FieldsGiven(EvidenceOf(m, SendArgs(other)), "to", "value", "data?");
  }

  lemma ZeroReads()
    ensures Risk.AmountOf(Some(Str("0"))) == Some(0)
  {
    assert "0"[..0] == "" && "uint256.max"[0] == 'u';
  }

  /** A native transfer of 10^30 is forwarded although the contract's native cap is zero, because it carries an
      `amount_atomic` of zero, which the checks read instead. */
  lemma ShadowedValueForwarded()
    ensures ForwardedAtZero(SendTool(), SendArgs("amount_atomic"))
    ensures CanonicalDecimal(Huge()) && ValueOf(Huge()) == Ten(30) && ValueArg(SendArgs("amount_atomic")) == Some(Str(Huge()))
  {
    hide ZeroContract, ZeroRaw, ForwardedAtZero, SendTool, EvidenceOf, SendArgs, ArgsOf, AllGiven, ListedAddresses, TransferOf, Readable, Huge,
      Ten, Risk.AmountOf, AmountTaken;
    ToolNames();
    HugeValue();
    SendArgsAre("amount_atomic");
    SendFieldsGiven("amount_atomic");
    ZeroReads();
    TransferAtZero(SendTool(), SendArgs("amount_atomic"), Huge());
  }

  /** So is one that carries an `amount` of zero, which the checks read before `value`. */
  lemma IgnoredValueForwarded()
    ensures ForwardedAtZero(SendTool(), SendArgs("amount"))
    ensures CanonicalDecimal(Huge()) && ValueOf(Huge()) == Ten(30) && ValueArg(SendArgs("amount")) == Some(Str(Huge()))
  {
    hide ZeroContract, ZeroRaw, ForwardedAtZero, SendTool, EvidenceOf, SendArgs, ArgsOf, AllGiven, ListedAddresses, TransferOf, Readable, Huge,
      Ten, Risk.AmountOf, AmountTaken;
    ToolNames();
    HugeValue();
    SendArgsAre("amount");
    SendFieldsGiven("amount");
    ZeroReads();
    TransferAtZero(SendTool(), SendArgs("amount"), "0");
  }

  // ----- An order that decides

  /** A supplied snapshot with two enabled entries for one pair. */
  function Supply(first: string, second: string): Snapshot {
    Snapshot(Other(), Other(), SomeHash(), SomeHash(), 1, SomeHash(), Caps("9", "9", "9", "9"), [Risk.KeyOf("approve_token")], [], [Token()],
             [Limit(Token(), Other(), first, true), Limit(Token(), Other(), second, true)], [])
  }

  lemma OneDigit(text: string, n: nat)
    requires |text| == 1 && Digits(text) && ValueOfDigit(text[0]) == n
    ensures CanonicalDecimal(text) && ValueOf(text) == n && Risk.CapOf(text) == n && Risk.AmountOf(Some(Str(text))) == Some(n)
    ensures !Unlimited(text)
  {
    assert text[..0] == "";
    assert |"uint256.max"| == 11 && |Lower(text)| == 1;
    MaxLength();
  }

  lemma MaxLength()
    ensures |Risk.UINT256_MAX| == 78
  {
  }

  /** An approval of 5 is forwarded or blocked by the order of two entries of a supplied snapshot. */
  lemma OrderDecides()
    ensures multiset(Supply("9", "0").spenders) == multiset(Supply("0", "9").spenders)
    ensures Forwarded(ApproveTool(), ApproveArgs("5"), Supplied(Supply("9", "0")))
    ensures !Forwarded(ApproveTool(), ApproveArgs("5"), Supplied(Supply("0", "9")))
  {
    SupplyLists("9", "0");
    SupplyLists("0", "9");
    hide Supply, Forwarded, ApproveTool, EvidenceOf, ApproveArgs, Lower, Risk.Checks, Risk.KeyOf, Risk.CapOf, Risk.AmountOf, Token, Other, Unlimited,
      ValueOf, CanonicalDecimal;
    OneDigit("5", 5);
    OneDigit("9", 9);
    OneDigit("0", 0);
    ApproveSilentIff(Supply("9", "0"), "5");
    ApproveSilentIff(Supply("0", "9"), "5");
    ForwardedIff(ApproveTool(), ApproveArgs("5"), Supplied(Supply("9", "0")), Supply("9", "0"));
    ForwardedIff(ApproveTool(), ApproveArgs("5"), Supplied(Supply("0", "9")), Supply("0", "9"));
  }

  lemma SupplyLists(first: string, second: string)
    ensures var s := Supply(first, second);
            && Risk.KeyOf("approve_token") in s.tools && Token() in s.tokens && s.caps.erc20 == "9"
            && s.spenders == [Limit(Token(), Other(), first, true), Limit(Token(), Other(), second, true)]
  {
    hide Risk.KeyOf, Token, Other, SomeHash;
  }
}
