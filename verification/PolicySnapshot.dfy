/** From raw contract reads to a validated policy snapshot, or the code of the check that failed. */
module PolicySnapshot {
  import opened Values
  import opened Text
  import opened Coercions
  import opened PolicySource

  datatype Result<T> = Ok(value: T) | Fail(code: string)

  // ----- What the contract answers

  datatype Identity = Identity(policyId: Value, version: Value, schema: Value, deploymentChain: Value,
                               contentHash: Value, frozen: bool)

  datatype Flags = Flags(blockUnlimited: bool, allowUnknown: bool, requireSimulation: bool, frozen: bool)

  datatype Caps<T> = Caps(native: T, erc20: T, gas: T, fee: T)

  datatype Limit<A, N> = Limit(token: A, spender: A, max: N, enabled: bool)

  datatype Rule<A> = Rule(domain: A, verifying: A, primary: A, enabled: bool)

  type RawLimit = Limit<Value, Value>
  type RawRule = Rule<Value>

  /** One fetch: None is a read that throws; the chain id is already parsed. */
  datatype Transport = Transport(
    chainId: Option<int>, code: Option<string>, identity: Option<Identity>, owner: Option<Value>,
    caps: Option<Caps<Value>>, flags: Option<Flags>,
    tools: Listing<Value>, recipients: Listing<Value>, tokens: Listing<Value>,
    spenders: Listing<RawLimit>, rules: Listing<RawRule>)

  datatype Config = Config(contract: Value, expectedSchema: string, minVersion: nat, maxVersion: Option<nat>)

  /** Everything the contract answered, before normalisation. */
  datatype Raw = Raw(identity: Identity, owner: Value, caps: Caps<Value>, flags: Flags,
                     tools: seq<Value>, recipients: seq<Value>, tokens: seq<Value>,
                     spenders: seq<RawLimit>, rules: seq<RawRule>)

  // ----- Normal forms

  /** 0x followed by exactly n hexadecimal digits, either case */
  predicate HexOf(v: Value, n: nat) {
    v.Str? && |v.s| == n + 2 && HexText(v.s)
  }

  function LowerAddress(v: Value): Option<string> {
    if HexOf(v, 40) then Some(Lower(v.s)) else None
  }

  function LowerHash(v: Value): Option<string> {
    if HexOf(v, 64) then Some(Lower(v.s)) else None
  }

  /** The value's text when it is a canonical numeral. */
  function DecimalText(v: Value): Option<string> {
    if CanonicalDecimal(TextOf(v)) then Some(TextOf(v)) else None
  }

  /** A normalised policy; None where the source stores null. */
  datatype Draft = Draft(
    deploymentChain: Value, contract: Option<string>, owner: Option<string>, schema: Option<string>,
    policyId: Option<string>, version: Option<string>, contentHash: Option<string>,
    flags: Flags, caps: Caps<Option<string>>,
    tools: seq<Option<string>>, recipients: seq<Option<string>>, tokens: seq<Option<string>>,
    spenders: seq<Limit<Option<string>, Option<string>>>, rules: seq<Rule<Option<string>>>)

  function MapSeq<A, B>(f: A -> B, s: seq<A>): (r: seq<B>)
    ensures |r| == |s| && forall i | 0 <= i < |s| :: r[i] == f(s[i])
  {
    seq(|s|, i requires 0 <= i < |s| => f(s[i]))
  }

  function NormalLimit(e: RawLimit): Limit<Option<string>, Option<string>> {
    Limit(LowerAddress(e.token), LowerAddress(e.spender), DecimalText(e.max), e.enabled)
  }

  function NormalRule(e: RawRule): Rule<Option<string>> {
    Rule(LowerHash(e.domain), LowerAddress(e.verifying), LowerHash(e.primary), e.enabled)
  }

  /** The contract's schema, or the expected one when it gives none. */
  function SchemaOf(raw: Raw, config: Config): Value {
    if Truthy(raw.identity.schema) then raw.identity.schema else Str(config.expectedSchema)
  }

  function Normalize(raw: Raw, config: Config): Draft {
    Draft(
      raw.identity.deploymentChain, LowerAddress(config.contract), LowerAddress(raw.owner),
      LowerHash(SchemaOf(raw, config)),
      LowerHash(raw.identity.policyId), DecimalText(raw.identity.version), LowerHash(raw.identity.contentHash),
      raw.flags.(frozen := raw.identity.frozen || raw.flags.frozen),
      Caps(DecimalText(raw.caps.native), DecimalText(raw.caps.erc20), DecimalText(raw.caps.gas), DecimalText(raw.caps.fee)),
      MapSeq(LowerHash, raw.tools), MapSeq(LowerAddress, raw.recipients), MapSeq(LowerAddress, raw.tokens),
      MapSeq(NormalLimit, raw.spenders), MapSeq(NormalRule, raw.rules))
  }

  // ----- Validation

  const MAX_TOOLS := 64
  const MAX_RECIPIENTS := 256
  const MAX_TOKENS := 128
  const MAX_SPENDERS := 256
  const MAX_RULES := 64

  /** The set of the entries is as large as the list. */
  predicate Unique<T(==)>(values: seq<T>) {
    |set v | v in values| == |values|
  }

  function OrNull(t: Option<string>): string {
    if t.Some? then t.value else "null"
  }

  function SpenderKey<N>(e: Limit<Option<string>, N>): string {
    OrNull(e.token) + ":" + OrNull(e.spender)
  }

  predicate HasNone(values: seq<Option<string>>) {
    exists i | 0 <= i < |values| :: values[i].None?
  }

  predicate BadLimit(e: Limit<Option<string>, Option<string>>) {
    e.token.None? || e.spender.None? || e.max.None?
  }

  /** A validated policy. */
  datatype Snapshot = Snapshot(
    contract: string, owner: string, schema: string, policyId: string, version: nat, contentHash: string,
    caps: Caps<string>, tools: seq<string>, recipients: seq<string>, tokens: seq<string>,
    spenders: seq<Limit<string, string>>, rules: seq<Rule<Option<string>>>)

  function VersionOf(d: Draft): nat {
    if d.version.Some? && Digits(d.version.value) then ValueOf(d.version.value) else 0
  }

  /** The code of the first check that fails. */
  function Rejection(d: Draft, config: Config): Option<string> {
    if !NumberIs(d.deploymentChain, MONAD_TESTNET) then Some("POLICY_RPC_CHAIN_MISMATCH")
    else if d.contract.None? || d.owner.None? || d.schema.None? || d.policyId.None? || d.contentHash.None? then
      Some("POLICY_SCHEMA_INVALID")
    else if config.expectedSchema != "" && d.schema.value != Lower(config.expectedSchema) then Some("POLICY_SCHEMA_INVALID")
    else if VersionOf(d) < config.minVersion || (config.maxVersion.Some? && VersionOf(d) > config.maxVersion.value) then
      Some("POLICY_VERSION_UNSUPPORTED")
    else if d.flags.frozen then Some("POLICY_FROZEN")
    else if !d.flags.blockUnlimited || d.flags.allowUnknown || !d.flags.requireSimulation then Some("POLICY_SCHEMA_INVALID")
    else if d.caps.native.None? || d.caps.erc20.None? || d.caps.gas.None? || d.caps.fee.None? then Some("POLICY_SCHEMA_INVALID")
    else if |d.tools| > MAX_TOOLS || |d.recipients| > MAX_RECIPIENTS || |d.tokens| > MAX_TOKENS ||
            |d.spenders| > MAX_SPENDERS || |d.rules| > MAX_RULES then Some("POLICY_SCHEMA_INVALID")
    else if HasNone(d.tools) || HasNone(d.recipients) || HasNone(d.tokens) then Some("POLICY_SCHEMA_INVALID")
    else if !Unique(d.tools) || !Unique(d.recipients) || !Unique(d.tokens) then Some("POLICY_SCHEMA_INVALID")
    else if !Unique(MapSeq(SpenderKey, d.spenders)) || exists i | 0 <= i < |d.spenders| :: BadLimit(d.spenders[i]) then
      Some("POLICY_SCHEMA_INVALID")
    else None
  }

  function Present(values: seq<Option<string>>): (r: seq<string>)
    requires !HasNone(values)
    ensures |r| == |values| && forall i | 0 <= i < |r| :: values[i] == Some(r[i])
  {
    seq(|values|, i requires 0 <= i < |values| => assert values[i].Some?; values[i].value)
  }

  function PresentLimit(e: Limit<Option<string>, Option<string>>): Limit<string, string>
    requires !BadLimit(e)
  {
    Limit(e.token.value, e.spender.value, e.max.value, e.enabled)
  }

  function PresentLimits(values: seq<Limit<Option<string>, Option<string>>>): (r: seq<Limit<string, string>>)
    requires forall i | 0 <= i < |values| :: !BadLimit(values[i])
    ensures |r| == |values|
    ensures forall i | 0 <= i < |r| :: r[i] == PresentLimit(values[i])
  {
    seq(|values|, i requires 0 <= i < |values| => PresentLimit(values[i]))
  }

  function Validate(d: Draft, config: Config): Result<Snapshot> {
    var rejected := Rejection(d, config);
    if rejected.Some? then Fail(rejected.value)
    else Ok(Snapshot(
      d.contract.value, d.owner.value, d.schema.value, d.policyId.value, VersionOf(d), d.contentHash.value,
      Caps(d.caps.native.value, d.caps.erc20.value, d.caps.gas.value, d.caps.fee.value),
      Present(d.tools), Present(d.recipients), Present(d.tokens), PresentLimits(d.spenders), d.rules))
  }

  // ----- Fetching

  predicate EmptyCode(code: string) {
    code == "" || code == "0x" || code == "0X"
  }

  function All<T>(listing: Listing<T>): Option<seq<T>> {
    if listing.count.None? then None else Paged(listing.page, 0, listing.count.value)
  }

  function RawOf(t: Transport): Option<Raw> {
    if t.identity.None? || t.owner.None? || t.caps.None? || t.flags.None? then None
    else
      var (tools, recipients, tokens, spenders, rules) := (All(t.tools), All(t.recipients), All(t.tokens), All(t.spenders), All(t.rules));
      if tools.None? || recipients.None? || tokens.None? || spenders.None? || rules.None? then None
      else Some(Raw(t.identity.value, t.owner.value, t.caps.value, t.flags.value, tools.value, recipients.value,
                    tokens.value, spenders.value, rules.value))
  }

  function Fetched(t: Transport, config: Config): Result<Snapshot> {
    if t.chainId.None? then Fail("POLICY_RPC_READ_FAILED")
    else if t.chainId.value != MONAD_TESTNET then Fail("POLICY_RPC_CHAIN_MISMATCH")
    else if t.code.None? then Fail("POLICY_RPC_READ_FAILED")
    else if EmptyCode(t.code.value) then Fail("POLICY_CONTRACT_STALE_OR_DEAD")
    else if RawOf(t).None? then Fail("POLICY_ABI_DECODE_FAILED")
    else Validate(Normalize(RawOf(t).value, config), config)
  }

  method FetchPolicySnapshot(t: Transport, config: Config) returns (r: Result<Snapshot>)
    ensures r == Fetched(t, config)
  {
    hide Validate, Normalize, Paged;
    if t.chainId.None? {
      return Fail("POLICY_RPC_READ_FAILED");
    }
    if t.chainId.value != MONAD_TESTNET {
      return Fail("POLICY_RPC_CHAIN_MISMATCH");
    }
    if t.code.None? {
      return Fail("POLICY_RPC_READ_FAILED");
    }
    if EmptyCode(t.code.value) {
      return Fail("POLICY_CONTRACT_STALE_OR_DEAD");
    }
    if t.identity.None? || t.owner.None? || t.caps.None? || t.flags.None? {
      return Fail("POLICY_ABI_DECODE_FAILED");
    }
    var tools, n0 := ReadPaged(t.tools);
    var recipients, n1 := ReadPaged(t.recipients);
    var tokens, n2 := ReadPaged(t.tokens);
    var spenders, n3 := ReadPaged(t.spenders);
    var rules, n4 := ReadPaged(t.rules);
    if tools.None? || recipients.None? || tokens.None? || spenders.None? || rules.None? {
      return Fail("POLICY_ABI_DECODE_FAILED");
    }
    var raw := Raw(t.identity.value, t.owner.value, t.caps.value, t.flags.value, tools.value, recipients.value,
                   tokens.value, spenders.value, rules.value);
    r := Validate(Normalize(raw, config), config);
  }

  // ----- Which raw reads are accepted

  /** The size of the set tells exactly whether entries repeat. */
  lemma {:induction false} UniqueIff<T>(s: seq<T>)
    ensures Unique(s) <==> Distinct(s)
  {
    var all := set v | v in s;
    if s != [] {
      var rest := s[1..];
      var few := set v | v in rest;
      assert all == few + {s[0]};
      UniqueIff(rest);
      SetOfSeq(rest);
      if s[0] in few {
        assert all == few;
        var k :| 0 <= k < |rest| && rest[k] == s[0];
        assert s[0] == s[k + 1];
      } else {
        assert Distinct(s) <==> Distinct(rest) by {
          if Distinct(s) { forall i, j | 0 <= i < j < |rest| ensures rest[i] != rest[j] { assert s[i + 1] != s[j + 1]; } }
          if Distinct(rest) { forall i, j | 0 <= i < j < |s| ensures s[i] != s[j] { assert s[j] == rest[j - 1] && s[j] in few; } }
        }
      }
    }
  }

  lemma {:induction false} SetOfSeq<T>(s: seq<T>)
    ensures |set v | v in s| <= |s|
  {
    if s != [] {
      assert (set v | v in s) == (set v | v in s[1..]) + {s[0]};
      SetOfSeq(s[1..]);
    }
  }

  predicate AllHex(values: seq<Value>, n: nat) {
    forall i | 0 <= i < |values| :: HexOf(values[i], n)
  }

  /** No two entries are the same text up to letter case. */
  predicate DistinctUpToCase(values: seq<Value>) {
    forall i, j | 0 <= i < j < |values| :: !SameUpToCase(values[i], values[j])
  }

  predicate SameUpToCase(a: Value, b: Value) {
    a.Str? && b.Str? && Lower(a.s) == Lower(b.s)
  }

  predicate GoodLimit(e: RawLimit) {
    HexOf(e.token, 40) && HexOf(e.spender, 40) && CanonicalDecimal(TextOf(e.max))
  }

  /** Every spender entry is well formed, and no two, enabled or not, are for the same token and spender. */
  predicate GoodLimits(entries: seq<RawLimit>) {
    (forall i | 0 <= i < |entries| :: GoodLimit(entries[i])) &&
    forall i, j | 0 <= i < j < |entries| ::
      !(SameUpToCase(entries[i].token, entries[j].token) && SameUpToCase(entries[i].spender, entries[j].spender))
  }

  function RawVersion(raw: Raw): nat {
    var t := TextOf(raw.identity.version);
    if CanonicalDecimal(t) then ValueOf(t) else 0
  }

  predicate GoodNames(raw: Raw, config: Config) {
    && HexOf(config.contract, 40) && HexOf(raw.owner, 40)
    && HexOf(SchemaOf(raw, config), 64) && HexOf(raw.identity.policyId, 64) && HexOf(raw.identity.contentHash, 64)
    && (config.expectedSchema != "" ==> Lower(SchemaOf(raw, config).s) == Lower(config.expectedSchema))
  }

  predicate VersionInBounds(raw: Raw, config: Config) {
    config.minVersion <= RawVersion(raw) && (config.maxVersion.Some? ==> RawVersion(raw) <= config.maxVersion.value)
  }

  predicate GoodFlags(raw: Raw) {
    raw.flags.blockUnlimited && !raw.flags.allowUnknown && raw.flags.requireSimulation
  }

  predicate GoodCaps(caps: Caps<Value>) {
    && CanonicalDecimal(TextOf(caps.native)) && CanonicalDecimal(TextOf(caps.erc20))
    && CanonicalDecimal(TextOf(caps.gas)) && CanonicalDecimal(TextOf(caps.fee))
  }

  predicate GoodList(values: seq<Value>, n: nat, bound: nat) {
    |values| <= bound && AllHex(values, n) && DistinctUpToCase(values)
  }

  predicate Acceptable(raw: Raw, config: Config) {
    && NumberIs(raw.identity.deploymentChain, 10143) && GoodNames(raw, config) && VersionInBounds(raw, config)
    && !raw.identity.frozen && !raw.flags.frozen && GoodFlags(raw) && GoodCaps(raw.caps)
    && GoodList(raw.tools, 64, 64) && GoodList(raw.recipients, 40, 256) && GoodList(raw.tokens, 40, 128)
    && GoodLimits(raw.spenders) && |raw.spenders| <= 256 && |raw.rules| <= 64
  }

  lemma HashListIff(values: seq<Value>, bound: nat)
    ensures var l := MapSeq(LowerHash, values);
            (|l| <= bound && !HasNone(l) && Unique(l)) <==> GoodList(values, 64, bound)
  {
    UniqueIff(MapSeq(LowerHash, values));
    NormalListIff(MapSeq(LowerHash, values), values, 64, bound);
  }

  lemma AddressListIff(values: seq<Value>, bound: nat)
    ensures var l := MapSeq(LowerAddress, values);
            (|l| <= bound && !HasNone(l) && Unique(l)) <==> GoodList(values, 40, bound)
  {
    UniqueIff(MapSeq(LowerAddress, values));
    NormalListIff(MapSeq(LowerAddress, values), values, 40, bound);
  }

  lemma NormalListIff(l: seq<Option<string>>, values: seq<Value>, n: nat, bound: nat)
    requires |l| == |values|
    requires forall i | 0 <= i < |l| :: l[i] == if HexOf(values[i], n) then Some(Lower(values[i].s)) else None
    ensures (|l| <= bound && !HasNone(l) && Distinct(l)) <==> GoodList(values, n, bound)
  {
    hide HexOf, Lower;
    if !HasNone(l) {
      forall i | 0 <= i < |values| ensures HexOf(values[i], n) && values[i].Str? && l[i] == Some(Lower(values[i].s)) {
        assert l[i].Some?;
        HexIsText(values[i], n);
      }
      forall i, j | 0 <= i < j < |l| ensures l[i] != l[j] <==> !SameUpToCase(values[i], values[j]) {}
    }
  }

  lemma HexIsText(v: Value, n: nat)
    requires HexOf(v, n)
    ensures v.Str? && |Lower(v.s)| == n + 2
  {
  }

  lemma SpenderKeysIff(entries: seq<RawLimit>)
    ensures var d := MapSeq(NormalLimit, entries);
            Unique(MapSeq(SpenderKey, d)) && !(exists i | 0 <= i < |d| :: BadLimit(d[i])) <==> GoodLimits(entries)
  {
    hide HexOf, Lower, CanonicalDecimal, SpenderKey, Unique, TextOf;
    var d := MapSeq(NormalLimit, entries);
    var keys := MapSeq(SpenderKey, d);
    UniqueIff(keys);
    forall i | 0 <= i < |d| ensures d[i] == NormalLimit(entries[i]) && (BadLimit(d[i]) <==> !GoodLimit(entries[i])) {}
    if forall i | 0 <= i < |entries| :: GoodLimit(entries[i]) {
      forall i, j | 0 <= i < j < |d|
        ensures keys[i] != keys[j] <==>
                  !(SameUpToCase(entries[i].token, entries[j].token) && SameUpToCase(entries[i].spender, entries[j].spender))
      {
        SameKeyIff(entries[i], entries[j]);
      }
    }
  }

  lemma SameKeyIff(a: RawLimit, b: RawLimit)
    requires GoodLimit(a) && GoodLimit(b)
    ensures SpenderKey(NormalLimit(a)) == SpenderKey(NormalLimit(b)) <==>
              SameUpToCase(a.token, b.token) && SameUpToCase(a.spender, b.spender)
  {
    hide HexOf, Lower, CanonicalDecimal;
    HexIsText(a.token, 40);
    HexIsText(a.spender, 40);
    HexIsText(b.token, 40);
    HexIsText(b.spender, 40);
    var (s, t) := (Lower(a.token.s), Lower(b.token.s));
    var (u, v) := (Lower(a.spender.s), Lower(b.spender.s));
    assert (s + ":" + u)[..42] == s && (t + ":" + v)[..42] == t;
    assert (s + ":" + u)[43..] == u && (t + ":" + v)[43..] == v;
  }

  lemma VersionAgrees(raw: Raw, config: Config)
    ensures VersionOf(Normalize(raw, config)) == RawVersion(raw)
  {
  }

  /** Validation of the normalised reads succeeds exactly on the raw reads that are acceptable. */
  lemma AcceptedIff(raw: Raw, config: Config)
    ensures Validate(Normalize(raw, config), config).Ok? <==> Acceptable(raw, config)
  {
    hide HexOf, Lower, CanonicalDecimal, Unique, TextOf, GoodList, GoodLimits, HasNone, MapSeq, BadLimit, NumberIs, VersionOf, RawVersion;
    VersionAgrees(raw, config);
    HashListIff(raw.tools, MAX_TOOLS);
    AddressListIff(raw.recipients, MAX_RECIPIENTS);
    AddressListIff(raw.tokens, MAX_TOKENS);
    SpenderKeysIff(raw.spenders);
  }

  /** The code says which check failed: the chain first, then the identity, the version, the freeze, the rest. */
  lemma RejectedAs(raw: Raw, config: Config)
    ensures var r := Validate(Normalize(raw, config), config);
            var chain := NumberIs(raw.identity.deploymentChain, 10143);
            && (r == Fail("POLICY_RPC_CHAIN_MISMATCH") <==> !chain)
            && (r == Fail("POLICY_VERSION_UNSUPPORTED") <==> chain && GoodNames(raw, config) && !VersionInBounds(raw, config))
            && (r == Fail("POLICY_FROZEN") <==>
                  chain && GoodNames(raw, config) && VersionInBounds(raw, config) && (raw.identity.frozen || raw.flags.frozen))
            && (r == Fail("POLICY_SCHEMA_INVALID") <==>
                  chain && (!GoodNames(raw, config) ||
                            (VersionInBounds(raw, config) && !raw.identity.frozen && !raw.flags.frozen && !Acceptable(raw, config))))
  {
    hide HexOf, Lower, CanonicalDecimal, Unique, TextOf, GoodList, GoodLimits, GoodCaps, HasNone, MapSeq, BadLimit, NumberIs,
      VersionOf, RawVersion;
    VersionAgrees(raw, config);
    AcceptedIff(raw, config);
    assert |"POLICY_RPC_CHAIN_MISMATCH"| == 25 && |"POLICY_SCHEMA_INVALID"| == 21;
    assert |"POLICY_VERSION_UNSUPPORTED"| == 26 && |"POLICY_FROZEN"| == 13;
  }

  // ----- What an accepted snapshot holds

  /** What validation leaves true of a snapshot: no list repeats an entry, no two spender entries share token
      and spender, and every amount is a canonical numeral. */
  predicate Valid(s: Snapshot) {
    && Distinct(s.tools) && Distinct(s.recipients) && Distinct(s.tokens)
    && CanonicalDecimal(s.caps.native) && CanonicalDecimal(s.caps.erc20) && CanonicalDecimal(s.caps.gas)
    && (forall i | 0 <= i < |s.spenders| :: CanonicalDecimal(s.spenders[i].max))
    && OneLimitEach(s.spenders)
  }

  predicate OneLimitEach(l: seq<Limit<string, string>>) {
    forall i, j | 0 <= i < j < |l| :: !SamePair(l[i], l[j])
  }

  predicate SamePair(a: Limit<string, string>, b: Limit<string, string>) {
    a.token == b.token && a.spender == b.spender
  }

  /** `l` is the raw list, each entry in lower case. */
  predicate LowerOf(l: seq<string>, values: seq<Value>) {
    |l| == |values| && forall i | 0 <= i < |l| :: values[i].Str? && l[i] == Lower(values[i].s)
  }

  predicate LimitOf(e: Limit<string, string>, raw: RawLimit) {
    raw.token.Str? && raw.spender.Str? && e == Limit(Lower(raw.token.s), Lower(raw.spender.s), TextOf(raw.max), raw.enabled)
  }

  predicate LimitsOf(l: seq<Limit<string, string>>, values: seq<RawLimit>) {
    |l| == |values| && forall i | 0 <= i < |l| :: LimitOf(l[i], values[i])
  }

  predicate CapsOf(caps: Caps<string>, raw: Caps<Value>) {
    caps == Caps(TextOf(raw.native), TextOf(raw.erc20), TextOf(raw.gas), TextOf(raw.fee))
  }

  /** Contract, owner, schema, policy and content hash are the raw ones in lower case. */
  predicate NamesOf(s: Snapshot, raw: Raw, config: Config) {
    && config.contract.Str? && s.contract == Lower(config.contract.s)
    && raw.owner.Str? && s.owner == Lower(raw.owner.s)
    && raw.identity.policyId.Str? && s.policyId == Lower(raw.identity.policyId.s)
    && raw.identity.contentHash.Str? && s.contentHash == Lower(raw.identity.contentHash.s)
    && SchemaOf(raw, config).Str? && s.schema == Lower(SchemaOf(raw, config).s)
  }

  lemma AcceptedNames(raw: Raw, config: Config)
    requires Validate(Normalize(raw, config), config).Ok?
    ensures NamesOf(Validate(Normalize(raw, config), config).value, raw, config)
  {
    hide Lower, CanonicalDecimal, Unique, TextOf, HasNone, BadLimit, NumberIs, VersionOf, SchemaOf, HexText, MapSeq, SpenderKey;
  }

  lemma LowerList(l: seq<string>, d: seq<Option<string>>, values: seq<Value>, n: nat)
    requires |d| == |values| == |l| && forall i | 0 <= i < |l| :: d[i] == Some(l[i])
    requires forall i | 0 <= i < |d| :: d[i] == if HexOf(values[i], n) then Some(Lower(values[i].s)) else None
    requires DistinctUpToCase(values)
    ensures LowerOf(l, values) && Distinct(l)
  {
    hide HexOf, Lower;
    forall i | 0 <= i < |l| ensures values[i].Str? && l[i] == Lower(values[i].s) {
      assert d[i].Some?;
      HexIsText(values[i], n);
    }
    forall i, j | 0 <= i < j < |l| ensures l[i] != l[j] { assert !SameUpToCase(values[i], values[j]); }
  }

  lemma LowerLimits(l: seq<Limit<string, string>>, values: seq<RawLimit>)
    requires |l| == |values| && GoodLimits(values)
    requires forall i | 0 <= i < |l| :: !BadLimit(NormalLimit(values[i])) && l[i] == PresentLimit(NormalLimit(values[i]))
    ensures LimitsOf(l, values) && OneLimitEach(l) && forall i | 0 <= i < |l| :: CanonicalDecimal(l[i].max)
  {
    hide HexOf, Lower, CanonicalDecimal, TextOf;
    forall i | 0 <= i < |l| ensures LimitOf(l[i], values[i]) && CanonicalDecimal(l[i].max) {
      assert GoodLimit(values[i]);
      HexIsText(values[i].token, 40);
      HexIsText(values[i].spender, 40);
    }
  }

  lemma AcceptedLists(raw: Raw, config: Config)
    requires Validate(Normalize(raw, config), config).Ok?
    ensures var s := Validate(Normalize(raw, config), config).value;
            && LowerOf(s.tools, raw.tools) && LowerOf(s.recipients, raw.recipients) && LowerOf(s.tokens, raw.tokens)
            && Distinct(s.tools) && Distinct(s.recipients) && Distinct(s.tokens)
  {
    hide HexOf, Lower, CanonicalDecimal, Unique, TextOf, HasNone, BadLimit, NumberIs, GoodLimits, DistinctUpToCase, LowerOf,
      Distinct, Rejection, AllHex;
    AcceptedIff(raw, config);
    var (d, s) := (Normalize(raw, config), Validate(Normalize(raw, config), config).value);
    LowerList(s.tools, d.tools, raw.tools, 64);
    LowerList(s.recipients, d.recipients, raw.recipients, 40);
    LowerList(s.tokens, d.tokens, raw.tokens, 40);
  }

  lemma AcceptedLimits(raw: Raw, config: Config)
    requires Validate(Normalize(raw, config), config).Ok?
    ensures var s := Validate(Normalize(raw, config), config).value;
            && LimitsOf(s.spenders, raw.spenders) && OneLimitEach(s.spenders)
            && forall i | 0 <= i < |s.spenders| :: CanonicalDecimal(s.spenders[i].max)
  {
    hide HexOf, Lower, CanonicalDecimal, Unique, TextOf, HasNone, NumberIs, GoodLimits, GoodList, OneLimitEach, LimitsOf,
      NormalLimit, PresentLimit, BadLimit;
    AcceptedIff(raw, config);
    var (d, s) := (Normalize(raw, config), Validate(Normalize(raw, config), config).value);
    forall i | 0 <= i < |s.spenders|
      ensures !BadLimit(NormalLimit(raw.spenders[i])) && s.spenders[i] == PresentLimit(NormalLimit(raw.spenders[i]))
    {
      assert d.spenders[i] == NormalLimit(raw.spenders[i]);
    }
    LowerLimits(s.spenders, raw.spenders);
  }

  predicate Readable(t: Transport) {
    t.chainId == Some(10143) && t.code.Some? && t.code.value !in {"", "0x", "0X"} && RawOf(t).Some?
  }

  /** A fetch succeeds exactly when every read is answered on the right chain and the answers are
      acceptable; the snapshot then holds the raw lists in lower case and the raw numbers as numerals. */
  lemma FetchedIff(t: Transport, config: Config)
    ensures Fetched(t, config).Ok? <==> Readable(t) && Acceptable(RawOf(t).value, config)
    ensures Fetched(t, config).Ok? ==>
              var (s, raw) := (Fetched(t, config).value, RawOf(t).value);
              && Valid(s) && s.version == RawVersion(raw) && CapsOf(s.caps, raw.caps) && NamesOf(s, raw, config)
              && LowerOf(s.tools, raw.tools) && LowerOf(s.recipients, raw.recipients) && LowerOf(s.tokens, raw.tokens)
              && LimitsOf(s.spenders, raw.spenders)
  {
    hide RawOf, Validate, Normalize, Acceptable, NamesOf, LowerOf, LimitsOf, CapsOf, Valid, RawVersion;
    if Readable(t) {
      var raw := RawOf(t).value;
      AcceptedIff(raw, config);
      if Fetched(t, config).Ok? { AcceptedValid(raw, config); }
    }
  }

  /** Which read stops a fetch: the chain first, then the code, then any of the contract's answers; what is read is
      refused with the codes of `RejectedAs`. */
  lemma UnreadAs(t: Transport, config: Config)
    requires !Readable(t)
    ensures var r := Fetched(t, config);
            && (r == Fail("POLICY_RPC_READ_FAILED") <==> t.chainId.None? || (t.chainId == Some(10143) && t.code.None?))
            && (r == Fail("POLICY_RPC_CHAIN_MISMATCH") <==> t.chainId.Some? && t.chainId != Some(10143))
            && (r == Fail("POLICY_CONTRACT_STALE_OR_DEAD") <==>
                  t.chainId == Some(10143) && t.code.Some? && t.code.value in {"", "0x", "0X"})
            && (r == Fail("POLICY_ABI_DECODE_FAILED") <==>
                  t.chainId == Some(10143) && t.code.Some? && t.code.value !in {"", "0x", "0X"})
  {
    hide RawOf, Validate, Normalize;
    assert |"POLICY_RPC_READ_FAILED"| == 22 && |"POLICY_RPC_CHAIN_MISMATCH"| == 25 && |"POLICY_CONTRACT_STALE_OR_DEAD"| == 29;
    assert |"POLICY_ABI_DECODE_FAILED"| == 24;
  }

  lemma AcceptedValid(raw: Raw, config: Config)
    requires Validate(Normalize(raw, config), config).Ok?
    ensures var s := Validate(Normalize(raw, config), config).value;
            && Valid(s) && s.version == RawVersion(raw) && CapsOf(s.caps, raw.caps) && NamesOf(s, raw, config)
            && LowerOf(s.tools, raw.tools) && LowerOf(s.recipients, raw.recipients) && LowerOf(s.tokens, raw.tokens)
            && LimitsOf(s.spenders, raw.spenders)
  {
    hide NamesOf, LowerOf, LimitsOf, CanonicalDecimal, TextOf, Distinct, OneLimitEach, GoodList, GoodLimits, HexOf, RawVersion, VersionOf, Rejection;
    AcceptedIff(raw, config);
    AcceptedLists(raw, config);
    AcceptedNames(raw, config);
    AcceptedLimits(raw, config);
    VersionAgrees(raw, config);
  }
}
