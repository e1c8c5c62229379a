# Compass guard: a verified model

Compass stands between an AI agent and a wallet. This project models the code that decides whether a tool call
may reach the wallet, and proves what that decision guarantees. It is written in Dafny and is checked with
`dafny verify dfyconfig.toml`.

| component | modules |
|---|---|
| Keccak-256, in place on 25 cells, against FIPS 202 on bits | `BigInts`, `Fips202`, `KeccakWords`, `Keccak`, `KeccakSponge`, `KeccakInverse` |
| Texts and their bytes, canonical JSON and its reader, the candidate digest | `Values`, `Text`, `TextBytes`, `CanonicalJson`, `JsonReader`, `CandidateDigest`, `CallIdentity` |
| The idempotency store, as a class and as interleaved callers | `IdempotencyStore` |
| Reading, normalising and validating the policy contract | `Coercions`, `PolicySource`, `PolicySnapshot` |
| Registry resolution, the wallet's tools, the host's tool list and the call interceptor | `ToolSemantics`, `WalletTools`, `HostTools` |
| Risk checks, their summary, the policy decision and its reasons | `Risk`, `PolicyDecision`, `PolicyOrder`, `BlockReasons` |
| Evidence, consent and the end-to-end results | `ActionCoverage`, `CoverageSafety`, `RequiredArguments`, `AmountGaps`, `AmountWitness`, `SignatureGap` |
| The guarded gate, one call at a time and interleaved | `GuardedForward`, `GuardedCall`, `GuardedPipeline`, `PipelineSafety`, `PipelineProgress` |
| The proxy's runner behind the interceptor, with its simulation | `SimulationEvidence`, `ProxyRun` |
| Redaction of context and error details; amounts in hexadecimal wei | `Redaction`, `WeiHex` |

How the model is laid out:

- **Keccak.** `Fips202` writes sections 3.2, 3.3, 4 and 5.1 of FIPS 202 on bits: rho follows the walk of section
  3.2.2 and iota the shift register of section 3.2.5, so the program's offset and constant tables are proved, not
  copied. JavaScript's unbounded integers are `int` with two's-complement bits (`BigInts`); that every cell stays
  below 2^64 is part of each contract. Bijectivity follows the action of theta on column parities: its 192nd power
  is the identity, by squaring.
- **Values.** A JavaScript value is a tree; a number is the token it prints as. The digest theorems take plain JSON
  without nested BigInts, which `JSON.stringify` refuses.
- **The store and the pipeline.** Each stretch of code between two awaits is one step. A schedule is any sequence of
  steps; a step that cannot be taken changes nothing. The contract, the audit writer, the safety reviewer and the
  upstream answer anything at any time, and a promise may be settled while the map still says pending. The pipeline
  moves the store only by the store machine's own steps, so what holds of every store run holds of it.
- **Collisions.** That Keccak does not collide is a hypothesis of two results only: `KeyIff` takes it for its two
  calls, and `ResultsAreOwn` for the texts of a run (`CollisionFree`).
- **Definitions have a second side.** What a result says by name is tied to something written separately: `Utf8` to a
  reader of RFC 3629, the canonical text to a reader of RFC 8259 and to UTF-16 order, the candidate to the entries of
  a call, the checks to the arguments and raw reads, and each code to its condition.
- **Compared names.** `ComparesArguments` says that the registry does not ask extraction to mark a name whose value the
  checks compare; it holds of the wallet's four mutating tools (`RequiredArguments.WalletCompares`).
- **Parameters.** The registry, the unsupported names, the name patterns, the schema hash, the secret and sensitive
  name tests and the contract's answers are parameters.

Seven places where the code does less than one might expect are results of the model, each with its exact condition:

- `readPaged` returns more than `count` entries when a page holds more than were still missing (`PagedOversteps`);
  `PagedExactIff` gives the condition.
- An amount that is not a canonical numeral passes every amount cap and spender limit. `TransferBoundIff` and
  `ApprovalBoundIff` say exactly which values the amount argument of a forwarded call may take. `FractionForwarded`
  forwards a transfer of 1.5, and `HexUnlimitedForwarded` an approval of 2^256 - 1 spelled in hexadecimal, under a
  contract whose caps and limits are zero. The results about caps therefore ask for a canonical amount.
- Only one field of a transfer is bounded, and it need not be the one the wallet acts on. That field is `amount`, or
  `value` where no `amount` is given, if and only if the token is truthy or `amount_atomic` is not (`FieldCheckedIff`).
  In a native transfer with a truthy `amount_atomic` argument, that argument is compared with the cap instead; and
  wherever `amount` is given, `value` is not read. An argument that is not the bounded field may hold anything
  (`UncheckedFieldPasses`). `ShadowedValueForwarded` and `IgnoredValueForwarded` forward a `send_transaction` of
  `value` 10^30 under a native cap of zero, one for each case. `ForwardedTransfer` therefore speaks of the bounded
  field and asks that it be the transfer's own (`AmountTaken`). The consent that the proxy writes reads `value` first
  (`ConsentAmountIff`). The cap is the token cap as soon as the token is truthy.
- The proxy gives its simulation no fee, so no gas cost is ever derived from it (`CostIff`): the gas cap binds only an
  `estimated_gas_cost_wei` that the host itself puts among the arguments. `GasCapIff` is the exact statement.
- A signature is asked for a rule key, and the key is compared with nothing: any truthy value passes, whatever rules the
  contract lists (`RuleKeyPasses`), and `UncoveredSignatureForwarded` forwards one at a contract without rules. What is
  certain is that the key is the context's or the host's own (`ForwardedSignature`); the proxy gives none, so there it
  is always the host's (`AllowedSignature`).
- When the upstream lists one name twice, the list and the call can disagree (`RepeatedNameDisagrees`);
  `ListAndCallAgreeIff` says exactly when they agree.
- coverToolCall takes a supplied snapshot without validating it, and then the order of the spender entries can decide:
  `OrderDecides` is a call that is forwarded in one order and blocked in the other. Order never matters if and only
  if entries that a call can meet for one pair set the same limit (`OrderIrrelevantIff`), which validation ensures.

## Model

| member | source | states |
|---|---|---|
| KeccakWords.RotBit | packages/coding-agent/src/policy/keccak256.js:20-24 | Masked shifts of an unbounded integer are a 64-bit rotation, bit by bit |
| KeccakWords.TableIsWalk | packages/coding-agent/src/policy/keccak256.js:4-10 | Every table offset is the offset of the walk in section 3.2.2 of FIPS 202 |
| KeccakWords.ConstantBit | packages/coding-agent/src/policy/keccak256.js:11-18 | Every bit of every round constant is the one the shift register of section 3.2.5 gives |
| KeccakWords.TargetBijection | packages/coding-agent/src/policy/keccak256.js:34-38 | The combined rho and pi index map is a bijection, so every cell of b is written exactly once |
| Keccak.ThetaStep | packages/coding-agent/src/policy/keccak256.js:28-32 | The in-place parity loops turn the state into theta of the old state, cells below 2^64 |
| Keccak.RhoPiStep | packages/coding-agent/src/policy/keccak256.js:33-38 | The scatter loop fills b with pi of rho of the state |
| Keccak.ChiStep | packages/coding-agent/src/policy/keccak256.js:39-43 | The write-back loop leaves chi of b in the state |
| Keccak.RoundStep | packages/coding-agent/src/policy/keccak256.js:27-45 | One turn of the outer loop is one round of the standard |
| Keccak.KeccakF | packages/coding-agent/src/policy/keccak256.js:26-46 | On every state of 64-bit cells, the loops compute the 24-round permutation of section 3.3 and keep cells below 2^64 |
| KeccakSponge.AbsorbAll | packages/coding-agent/src/policy/keccak256.js:52-56 | After the loop the state holds the absorbed full blocks with the rest of the message exclusive-ored in, for every length |
| KeccakSponge.PadAndPermute | packages/coding-agent/src/policy/keccak256.js:57-60 | The two padding bytes, also when they meet, and the last permutation finish the absorption of the padded message |
| KeccakSponge.Squeeze | packages/coding-agent/src/policy/keccak256.js:61-62 | The 32 output bytes are the first 256 bits of the final state |
| KeccakSponge.Keccak256 | packages/coding-agent/src/policy/keccak256.js:48-64 | For every byte string the text is the hexadecimal digest of the sponge with pad10*1 at rate 136 |
| KeccakInverse.ThetaInverse | packages/coding-agent/src/policy/keccak256.js:30-32 | Theta has a two-sided inverse built from powers of its own action on column parities |
| KeccakInverse.ChiInverse | packages/coding-agent/src/policy/keccak256.js:39-43 | Chi has a two-sided inverse |
| KeccakInverse.RoundInverse | packages/coding-agent/src/policy/keccak256.js:27-45 | Every round has a two-sided inverse |
| KeccakInverse.KeccakPBijection | packages/coding-agent/src/policy/keccak256.js:26-46 | The permutation has a two-sided inverse on all states |
| KeccakInverse.KeccakFBijection | packages/coding-agent/src/policy/keccak256.js:26-46 | On 25 cells below 2^64 every result of the permutation has exactly one argument |
| CanonicalJson.QuoteReadable | packages/coding-agent/src/digest/candidateTxDigest.js:33 | A quoted string ends in one place only: texts that start with quoted strings and are equal start with the same string |
| CanonicalJson.CanonicalReadable | packages/coding-agent/src/digest/candidateTxDigest.js:31-41 | Equal canonical texts, each followed by a delimiter or nothing, are texts of the same value and the rests are equal |
| CanonicalJson.SameCanonical | packages/coding-agent/src/digest/candidateTxDigest.js:38-40 | Reordering object keys at any depth does not change the text |
| CanonicalJson.CanonicalIff | packages/coding-agent/src/digest/candidateTxDigest.js:31-41 | Two JSON values have the same canonical text exactly when they are the same value up to key order at every depth |
| JsonReader.CanonicalRoundTrip | packages/coding-agent/src/digest/candidateTxDigest.js:31-41 | A reader of RFC 8259 reads the whole canonical text back as the same value, with the keys of every object in code unit order |
| JsonReader.LessIsBefore | packages/coding-agent/src/digest/candidateTxDigest.js:38 | The key order is that of UTF-16 code units compared from the left |
| JsonReader.EscapesOnly | packages/coding-agent/src/digest/candidateTxDigest.js:33 | Exactly quotes, backslashes and control characters are escaped, seven of them in two characters and the others in six |
| CandidateDigest.PayloadIff | packages/coding-agent/src/digest/candidateTxDigest.js:53-69 | Two candidates have the same payload exactly when their normalised present fields are the same; which fields a call has is `CallIdentity.SameCallIff` |
| CandidateDigest.NormalizedIff | packages/coding-agent/src/digest/candidateTxDigest.js:58-66 | A field's values are identified exactly when they are the same JSON, hexadecimal texts up to case, or a BigInt and its decimal text |
| CandidateDigest.CoveredSubsequence | packages/coding-agent/src/digest/candidateTxDigest.js:56-68 | covered_fields holds exactly the present fields, in the order of the field list, each once |
| CandidateDigest.BuildCandidateTxDigest | packages/coding-agent/src/digest/candidateTxDigest.js:53-75 | The loop returns Keccak of the payload, which `JsonReader.PayloadRead` and `TextBytes.Utf8Iff` fix to the letter, and exactly the covered fields in order |
| JsonReader.PayloadRead | packages/coding-agent/src/digest/candidateTxDigest.js:70 | The payload is JSON text of the version and the normalised present fields, and of nothing else |
| CallIdentity.SameCallIff | packages/coding-agent/src/guarded-forward/guardedForward.js:100-115 | Two tool calls have the same payload exactly when name, arguments, chain, account, recipient, value, data, token, spender, amount, both fees, gas limit and gas cost are alike: the same JSON up to key order or hexadecimal texts up to case, or absent from both |
| Text.DecimalRoundTrip | packages/coding-agent/src/digest/candidateTxDigest.js:62-63 | A printed number is a canonical numeral and reads back as itself |
| Text.CanonicalDecimalIff | packages/coding-agent/src/risk/riskChecks.js:12 | The texts read as amounts are exactly those that print a number |
| Text.HexTextIff | packages/coding-agent/src/digest/candidateTxDigest.js:61 | The texts put in lower case are exactly 0x with one or more hexadecimal digits |
| Text.LowerIs | packages/coding-agent/src/risk/riskChecks.js:9 | Lower-casing moves exactly the 26 capital letters, by 32 code points |
| TextBytes.Utf8Iff | packages/coding-agent/src/policy/keccak256.js:49 | A text is hashed as the one byte sequence that section 4 of RFC 3629 reads back as it, for every scalar value |
| TextBytes.HashOfBytes | packages/coding-agent/src/policy/policyToolKeys.js:5-7 | The hash of a text is the digest of any UTF-8 bytes that spell it |
| TextBytes.HexSpells | packages/coding-agent/src/policy/keccak256.js:61-63 | A digest spells its bytes in order, the high half of each first |
| IdempotencyStore.Store.Begin | packages/coding-agent/src/idempotency/idempotencyStore.js:28-46 | Up to its await, runOnce refuses an empty key, answers a recorded key, joins a pending one, or records a new pending entry |
| IdempotencyStore.Store.Finish | packages/coding-agent/src/idempotency/idempotencyStore.js:47-54 | After its await, the owner records the result or the error under its key and hands it on |
| IdempotencyStore.NextKeeps | packages/coding-agent/src/idempotency/idempotencyStore.js:28-55 | Every step of every caller keeps map entry, promise, owner and answers telling one story |
| IdempotencyStore.AtMostOneStart | packages/coding-agent/src/idempotency/idempotencyStore.js:22-46 | In every interleaving fn is begun at most once for each key |
| IdempotencyStore.SameAnswer | packages/coding-agent/src/idempotency/idempotencyStore.js:32-54 | All answered callers of a key got the same value or the same error, and at most one value is not a reused one |
| IdempotencyStore.OneNotReused | packages/coding-agent/src/idempotency/idempotencyStore.js:34-50 | When a caller returned a value, exactly one caller has it as its own or the first caller is still to resume |
| IdempotencyStore.RecordedForGood | packages/coding-agent/src/idempotency/idempotencyStore.js:38-53 | A recorded result or failure never changes and its fn was begun exactly once, whatever is called later |
| IdempotencyStore.NeverStuck | packages/coding-agent/src/idempotency/idempotencyStore.js:32-54 | A caller without an answer is never stuck: a step other than a new call can be taken |
| IdempotencyStore.RunsEnd | packages/coding-agent/src/idempotency/idempotencyStore.js:28-55 | No schedule takes more than four steps for each caller |
| PolicySource.ReadPaged | packages/coding-agent/src/policy-source/policyContractClient.js:28-40 | Against every contract the loop returns the concatenated pages or fails, in at most count page reads |
| PolicySource.AtMostCountReads | packages/coding-agent/src/policy-source/policyContractClient.js:32-38 | Page reads start at cursors below count, at most count of them |
| PolicySource.PagedExactIff | packages/coding-agent/src/policy-source/policyContractClient.js:28-40 | Against contiguous pages the result is a stretch from the first entry covering count, and exactly the first count entries if and only if no page holds more than were missing |
| PolicySource.PagedHonest | packages/coding-agent/src/policy-source/policyContractClient.js:33 | A contract that respects the requested page size is read exactly |
| PolicySource.PagedOversteps | packages/coding-agent/src/policy-source/policyContractClient.js:33-34 | A page larger than requested makes the result longer than count |
| PolicySnapshot.UniqueIff | packages/coding-agent/src/policy-source/policySnapshot.js:24-26 | The size of the set of entries tells exactly whether entries repeat |
| PolicySnapshot.AcceptedIff | packages/coding-agent/src/policy-source/policySnapshot.js:32-99 | Normalising and validating raw reads succeeds exactly on acceptable ones: right chain, valid identity, version in bounds, safe flags, numerals for caps, bounded lists of valid entries without repeats up to letter case |
| PolicySnapshot.RejectedAs | packages/coding-agent/src/policy-source/policySnapshot.js:84-99 | Which rejection code is given, exactly, by the first failing check |
| PolicySnapshot.FetchPolicySnapshot | packages/coding-agent/src/policy-source/policyContractClient.js:42-117 | The fetch fails closed with the code of the failed read, or validates what was read |
| PolicySnapshot.FetchedIff | packages/coding-agent/src/policy-source/policyContractClient.js:42-117 | A fetch succeeds exactly when every read is answered on the right chain and acceptable, and the snapshot then holds the raw lists, owner and hashes in lower case and the raw numbers |
| PolicySnapshot.UnreadAs | packages/coding-agent/src/policy-source/policyContractClient.js:42-114 | Which read stops a fetch, exactly, by its code |
| ToolSemantics.HiddenAs | packages/coding-agent/src/tool-semantics/resolver.js:31-70 | Each of the five codes of a hidden tool, with exactly when it is given |
| HostTools.ListAndCallAgreeIff | mcp/proxy/toolSemanticsBridge.ts:92-131 | While connected, for any inventory and both modes, list and call agree on a name exactly when the first tool of that name is shown whenever any tool of that name is |
| HostTools.ListedIffForwarded | mcp/proxy/callInterceptor.ts:57-94 | While connected, with distinct names and valid arguments, a tool is in the host list exactly when a call to it is forwarded, guarded or not |
| HostTools.ShownIff | mcp/proxy/toolSemanticsBridge.ts:72-104 | A tool is shown exactly when its name is registered and neither unsupported nor private, the schema hash it presents, or that of its schema, is the registered one, and it is allowed by default or the pipeline is on |
| HostTools.PlannedAs | mcp/proxy/callInterceptor.ts:57-94 | How every call is planned: invalid arguments and meta-tools never reach the upstream, hidden tools are blocked with their code, and without the pipeline so is what is not allowed by default |
| HostTools.PlannedWhileAway | mcp/proxy/toolSemanticsBridge.ts:115-130 | While the upstream is away, exactly the registered names that are neither unsupported nor private are planned |
| HostTools.RepeatedNameDisagrees | mcp/proxy/toolSemanticsBridge.ts:92-104 | A concrete registry and inventory, in both modes: the tool listed twice is shown and every call to it is blocked |
| HostTools.CallInterceptor.HandleUpstreamCall | mcp/proxy/callInterceptor.ts:100-178 | Each call leaves exactly two audit events, the second saying how it ended, and only a listed tool is ever handed on |
| Risk.AssessRisk | packages/coding-agent/src/risk/riskChecks.js:23-66 | The pushes and loops yield the findings of every check in order, without repeated codes, summarised; `BlockReasons` says which code each condition gives |
| PolicyDecision.SortedStable | packages/coding-agent/src/risk/riskTypes.js:10-12 | The sort permutes, orders by score and keeps the order of findings of equal level |
| PolicyDecision.DedupIsPass | packages/coding-agent/src/risk/riskChecks.js:65 | The quadratic search for an earlier code equals one pass with a set of seen codes |
| PolicyDecision.SummaryUnchanged | packages/coding-agent/src/risk/riskTypes.js:9-16 | Removing repeats and sorting change neither the maximum score nor whether anything blocks |
| PolicyDecision.ReportedCode | packages/coding-agent/src/policy/evaluatePolicy.js:10-28 | The decision allows exactly when no check finds anything; otherwise its code is the first critical finding in check order, or the first finding |
| PolicyOrder.ContextEmptyIff | packages/coding-agent/src/risk/riskChecks.js:34-44 | The first group of checks finds nothing exactly when the chain is right, the tool key is listed, all required evidence is given, which `RequiredArguments.SuppliedIff` puts in terms of the arguments, and the simulation is fine where needed |
| BlockReasons.BlockedAs | packages/coding-agent/src/risk/riskChecks.js:34-63 | The exact reason of every decision: wrong chain and unlimited approval first, whatever else is wrong, then tool, missing evidence, simulation, recipient, token, amount, gas, spender, limit and rule key, in this order |
| BlockReasons.GateAs | packages/coding-agent/src/guarded-forward/guardedForward.js:63-144 | The exact decision of the gate and its code: resolution, policy read, reason, audit, safety reply |
| BlockReasons.AssessedAs | packages/coding-agent/src/risk/riskChecks.js:23-32 | A failed policy read leads the summary whatever else is found; without one a hidden tool is the only finding |
| PolicyOrder.FindLimitIff | packages/coding-agent/src/risk/riskChecks.js:59 | On a validated list the search finds the enabled entry for the pair wherever it stands |
| PolicyOrder.PolicyMonotone | packages/coding-agent/src/risk/riskChecks.js:34-63 | A call allowed under a validated policy is allowed under every validated one with larger lists, caps and limits |
| PolicyOrder.OrderIrrelevant | packages/coding-agent/src/risk/riskChecks.js:34-63 | Reordering every list of a validated policy changes no finding |
| PolicyOrder.FindLimitOrderIff | packages/coding-agent/src/risk/riskChecks.js:59 | On any list, validated or not, the search gives the same entry in every order if and only if enabled entries for one pair are equal |
| PolicyOrder.OrderIrrelevantIff | packages/coding-agent/src/risk/riskChecks.js:34-63 | On any snapshot, the findings of every approval are the same in every order of the spender entries if and only if enabled lower-case entries for one pair set the same limit |
| Risk.MaxAmountText | packages/coding-agent/src/risk/riskChecks.js:6 | The 78 digits of the unlimited amount are a canonical numeral of 2^256 - 1 |
| ActionCoverage.ExtractEvidence | packages/coding-agent/src/action-coverage/evidenceExtractors.js:24-86 | The loops and branches fill the evidence record of the call's class; what it owes to the arguments is `RequiredArguments` and the facts of `CoverageSafety` |
| CoverageSafety.SkippedIff | packages/coding-agent/src/action-coverage/consentGate.js:8-24 | A call is skipped exactly when its class is one of four and its consent lacks one of five names |
| RequiredArguments.EvidenceGivenIff | packages/coding-agent/src/action-coverage/evidenceExtractors.js:24-86 | A name that extraction does not fill itself is in the evidence exactly when the arguments give it, directly or dotted one level down |
| RequiredArguments.SuppliedIff | packages/coding-agent/src/risk/riskChecks.js:16-20 | The evidence satisfies a required field exactly when the arguments give it or its part before an underscore, for `amount` one of three names or the value of a transfer; optional fields need nothing |
| RequiredArguments.ForwardedSupplies | packages/coding-agent/src/action-coverage/actionCoverage.js:28-65 | The arguments of a forwarded call supply every required field, where neither it nor its stem is filled or marked by extraction; under `ComparesArguments` |
| RequiredArguments.WalletArguments | packages/coding-agent/src/tool-semantics/walletAgentRegistry.js:117-167 | No forwarded call of the wallet's four mutating tools lacks an argument it needs: `to`, `value`, `token`, `spender`, an amount, or the parts of typed data |
| RequiredArguments.SignatureFacts | packages/coding-agent/src/action-coverage/evidenceExtractors.js:79-83 | A signature's evidence has a truthy rule key exactly when the context or the argument has one |
| RequiredArguments.ForwardedSignature | packages/coding-agent/src/action-coverage/actionCoverage.js:28-65 | A forwarded signature has a rule key of its context or its own, consent, and a simulation that succeeded; the registry must not ask to mark the two names |
| RequiredArguments.SimulationFacts | packages/coding-agent/src/action-coverage/evidenceExtractors.js:64-82 | The checked simulation is the one given, for a transfer, approval or signature, and otherwise the argument of that name |
| RequiredArguments.ForwardedSimulated | packages/coding-agent/src/risk/riskChecks.js:39-44 | A forwarded transfer, approval, signature or contract write, or any call whose tool asks for it, has a simulation that reports neither failure nor unavailability |
| RequiredArguments.GasFacts | packages/coding-agent/src/action-coverage/evidenceExtractors.js:66 | The checked gas cost is the simulation's, for a transfer whose simulation has one, and otherwise the argument; under `ComparesArguments` |
| RequiredArguments.ForwardedGas | packages/coding-agent/src/risk/riskChecks.js:53 | The gas cost of a forwarded call, where it can be read, is at most the gas cap; under `ComparesArguments` |
| RequiredArguments.ForwardedChain | packages/coding-agent/src/action-coverage/evidenceExtractors.js:25 | A forwarded call that names a chain, in its context or else in its arguments, names Monad Testnet |
| RequiredArguments.ForwardedRead | packages/coding-agent/src/risk/riskChecks.js:46 | A forwarded read of a token reads one the policy lists; under `ComparesArguments` |
| CoverageSafety.MarkedIsArgument | packages/coding-agent/src/action-coverage/evidenceExtractors.js:28-48 | Flattened and marked names never overwrite a compared argument |
| CoverageSafety.TransferFacts | packages/coding-agent/src/action-coverage/evidenceExtractors.js:55-68 | For a transfer whose amount argument has a non-empty text, the evidence holds the first truthy of the three recipient names and the token in lower case, and the checks read the amount's text, or a truthy `amount_atomic` where there is no token; the registry must not ask to mark a compared name (`ComparesArguments`) |
| CoverageSafety.ApprovalFacts | packages/coding-agent/src/action-coverage/evidenceExtractors.js:69-78 | For an approval with truthy token and spender and an amount of non-empty text, whatever else it carries, the evidence holds token and spender in lower case and the amount's text; under `ComparesArguments` |
| CoverageSafety.ForwardedTransfer | packages/coding-agent/src/action-coverage/actionCoverage.js:28-65 | A forwarded transfer that names a recipient by any of the three names, with a canonical amount that is the bounded field (`AmountTaken`), has consent, its recipient and token on the raw on-chain lists up to case, and that amount at most the raw native or token cap; under `ComparesArguments` |
| CoverageSafety.ForwardedApproval | packages/coding-agent/src/action-coverage/actionCoverage.js:28-65 | A forwarded approval with truthy token and spender and a canonical amount, whatever else it carries, has its token on the raw list and a raw enabled entry for token and spender whose limit covers the amount, which is at most the token cap and not 2^256 - 1; under `ComparesArguments` |
| CoverageSafety.ForwardedCall | packages/coding-agent/src/action-coverage/actionCoverage.js:28-65 | Any forwarded call has the Keccak hash of its tool's name on the raw list, the right chain, all required evidence, a simulation that did not fail where needed, gas within the raw cap, and consent when it changes state |
| CoverageSafety.RequiredEvidenceGiven | packages/coding-agent/src/action-coverage/evidenceExtractors.js:45-48 | The evidence names the registry requires never block: extraction gives each of them, whatever the call |
| AmountGaps.TransferBoundIff | packages/coding-agent/src/risk/riskChecks.js:48-52 | Replace the amount argument of any forwarded transfer, and the amount caps and limits, by any others: it is still forwarded exactly when the checked amount, which is the new one or a shadowing `amount_atomic`, cannot be read or is at most the new cap; neither amount is an object, the new one not null or of empty text, under `ComparesArguments` |
| AmountGaps.ApprovalBoundIff | packages/coding-agent/src/risk/riskChecks.js:48-62 | The same for approvals with truthy token and spender: still forwarded exactly when the new amount is neither unlimited text and cannot be read or is at most the new token cap and the new limit |
| AmountGaps.FieldCheckedIff | packages/coding-agent/src/action-coverage/evidenceExtractors.js:29-63 | Every replacement of a given `amount` or `value` argument becomes the checked amount if and only if it is `amount`, or `value` without an `amount`, and the token is truthy or `amount_atomic` is not; under `ComparesArguments` |
| AmountGaps.UncheckedFieldPasses | packages/coding-agent/src/risk/riskChecks.js:48 | Two runs: a forwarded transfer stays forwarded whatever replaces an `amount` or `value` argument that is not the checked one, by a value that is not null, neither of them an object; under `ComparesArguments` |
| AmountGaps.UnreadableTransferPasses | packages/coding-agent/src/risk/riskChecks.js:10-15 | Two runs: a forwarded transfer stays forwarded when its checked amount argument becomes any text that is neither a canonical numeral nor uint256.max, whatever the caps; under `ComparesArguments` |
| AmountGaps.UnreadableApprovalPasses | packages/coding-agent/src/risk/riskChecks.js:10-15 | Two runs: a forwarded approval with truthy token and spender stays forwarded with any such amount, whatever the caps and limits; under `ComparesArguments` |
| AmountGaps.HexUnlimitedUnreadable | packages/coding-agent/src/risk/riskChecks.js:10-15 | The hexadecimal spelling of 2^256 - 1 is such an amount |
| AmountWitness.FractionForwarded | packages/coding-agent/src/action-coverage/actionCoverage.js:28-65 | A concrete transfer of 1.5 is forwarded under acceptable contract reads whose caps are all zero |
| AmountWitness.HexUnlimitedForwarded | packages/coding-agent/src/action-coverage/actionCoverage.js:28-65 | A concrete approval of 2^256 - 1 in hexadecimal is forwarded under acceptable contract reads whose caps and spender limit are zero |
| AmountWitness.ShadowedValueForwarded | packages/coding-agent/src/action-coverage/actionCoverage.js:28-65 | A concrete native transfer of `value` 10^30 with an `amount_atomic` of zero is forwarded under acceptable contract reads whose native cap is zero |
| AmountWitness.IgnoredValueForwarded | packages/coding-agent/src/action-coverage/actionCoverage.js:28-65 | So is one with an `amount` of zero |
| AmountWitness.OrderDecides | packages/coding-agent/src/risk/riskChecks.js:59-61 | A concrete approval of 5 and a supplied snapshot: forwarded with one order of two spender entries, not with the other |
| SignatureGap.RuleKeyPasses | packages/coding-agent/src/risk/riskChecks.js:63 | Two runs: a forwarded signature stays forwarded with any other truthy rule key argument, not an object, and whatever rules the policy lists |
| SignatureGap.UncoveredSignatureForwarded | packages/coding-agent/src/action-coverage/actionCoverage.js:28-65 | A concrete signature with the rule key "any" is forwarded under acceptable contract reads without any rule |
| GuardedForward.GateIff | packages/coding-agent/src/guarded-forward/guardedForward.js:63-144 | A call passes exactly when its tool is visible, its policy was read, no check finds anything, the evaluation was audited and the safety reply was safe |
| GuardedForward.VetoOnly | packages/coding-agent/src/llm/finalSafetyReview.js:18-47 | Changing the safety reviewer in any way never lifts or renames a deterministic block and only shrinks what passes; the two veto codes are given exactly for no reply and for a reply other than safe |
| GuardedForward.OwnerOnly | packages/coding-agent/src/policy-contract-lifecycle/policyContractLifecycle.js:42-63 | A policy update proceeds exactly for the owner, or for a first bootstrap, with full consent and a successful simulation |
| GuardedForward.StoppedAs | packages/coding-agent/src/policy-contract-lifecycle/policyContractLifecycle.js:43-63 | Each way a policy update stops or is skipped, with exactly when |
| GuardedForward.ConsentIff | packages/coding-agent/src/action-coverage/consentGate.js:19-24 | Consent is complete exactly when none of the five names is missing, null or empty |
| GuardedForward.SameUpdateIff | packages/coding-agent/src/policy-contract-lifecycle/policyContractLifecycle.js:65-71 | Two policy updates are the same candidate exactly when kind and requester agree and the contents are the same JSON up to key order |
| CallIdentity.UpdateEntries | packages/coding-agent/src/policy-contract-lifecycle/policyContractLifecycle.js:66-71 | A policy update is digested as its tool on Monad Testnet, from the requester, with its content as canonical text, and nothing else |
| GuardedForward.ToolKeyTextInjective | packages/coding-agent/src/guarded-forward/guardedForward.js:26-28 | The text of a tool key determines tool and digest |
| GuardedForward.PolicyKeyTextInjective | packages/coding-agent/src/policy-contract-lifecycle/policyContractLifecycle.js:90 | The text of a policy key determines kind, requester up to case and digest |
| GuardedForward.KeyFamiliesApart | packages/coding-agent/src/policy-contract-lifecycle/policyContractLifecycle.js:90 | Tool key texts and policy key texts never meet |
| GuardedCall.RunOnce | packages/coding-agent/src/idempotency/idempotencyStore.js:28-55 | Run through without interruption, a new key is forwarded once and recorded, a recorded one never again |
| GuardedCall.GuardedToolCall | packages/coding-agent/src/guarded-forward/guardedForward.js:59-191 | An uninterrupted call blocks with the gate's code and leaves the store alone, or, when its class is transaction_execute, token_approval or contract_write, is forwarded exactly if its key is not recorded, and otherwise gets the recorded answer; calls of other classes are always forwarded |
| GuardedCall.GuardedPolicyUpdate | packages/coding-agent/src/policy-contract-lifecycle/policyContractLifecycle.js:39-99 | An uninterrupted update stops, skips or is vetoed without touching the store, or is forwarded at most once under its key |
| PipelineSafety.NextKeeps | packages/coding-agent/src/guarded-forward/guardedForward.js:63-161 | Every step of every call keeps each call's stage, its environment's answers, its place in the store and the upstream's log consistent |
| PipelineSafety.OnlyClearedCallsAct | packages/coding-agent/src/guarded-forward/guardedForward.js:83-161 | In every reachable state each invocation and each result belongs to a call cleared by its own resolution, policy read, findings, audit and safety reply; blocked and skipped calls never reach the upstream and none reaches it twice |
| PipelineSafety.BlockedByGate | packages/coding-agent/src/guarded-forward/guardedForward.js:83-144 | In every reachable state a blocked call is blocked by its own answers, with the very code the gate gives when the call runs by itself, and a skipped one is an update without consent |
| PipelineSafety.OncePerCandidate | packages/coding-agent/src/guarded-forward/guardedForward.js:154-158 | In every reachable state two invocations of tools of class transaction_execute, token_approval or contract_write, or of policy updates, are never for the same tool with the same arguments, effect and cost, nor for the same update |
| PipelineSafety.KeyIff | packages/coding-agent/src/policy-contract-lifecycle/policyContractLifecycle.js:65-99 | Without collisions two calls share a key exactly when they are the same tool with the same arguments, effect and cost, or the same update |
| PipelineSafety.ResultsAreOwn | packages/coding-agent/src/guarded-forward/guardedForward.js:154-158 | Every result through the store is the upstream's answer to one invoked and cleared call of the same key, the call itself exactly when not reused, and without collisions of the same tool with the same arguments up to key order |
| PipelineSafety.SameCandidateSameEnd | packages/coding-agent/src/guarded-forward/guardedForward.js:146-161 | Calls of those classes for one candidate end alike: with the same value, reported or done, at most one of them its own, or with the same error, never one with a value and one with an error |
| PipelineProgress.CallNeverStuck | packages/coding-agent/src/guarded-forward/guardedForward.js:63-191 | In every reachable state, a call that is not over has a step of its own, or of the promise it waits for, that can be taken |
| PipelineProgress.PipelineRunsEnd | packages/coding-agent/src/guarded-forward/guardedForward.js:63-191 | No schedule takes more than eight steps for each call, whatever the environment answers |
| ProxyRun.BuiltConsentIff | mcp/proxy/guardedPipeline.ts:74-80 | The consent the runner writes is complete exactly when account, target and amount are not the empty text |
| ProxyRun.RunSkippedIff | mcp/proxy/guardedPipeline.ts:63-96 | Exactly when the runner's call is skipped: a class that needs consent, and a name that is none of the four or an empty account, target or amount |
| ProxyRun.ConsentTarget | mcp/proxy/guardedPipeline.ts:64-77 | The consent the runner writes is for the very recipient that is checked, when its target is truthy |
| ProxyRun.ConsentAmountIff | mcp/proxy/guardedPipeline.ts:79 | Its maximum is the amount that a transfer is taken to have exactly unless `amount` and `value` are both given with different texts |
| SimulationEvidence.CostIff | packages/coding-agent/src/monad-rpc/simulationEvidence.js:25-53 | A gas cost is built exactly when the node accepts the call, estimates its gas and a fee is given, and it stands beside the status report, never in it |
| ProxyRun.GasCapIff | mcp/proxy/guardedPipeline.ts:66-88 | On the runner's path, an allowed call stays allowed under another gas cap exactly when the host's own `estimated_gas_cost_wei` argument is not truthy, cannot be read or is within it; under `ComparesArguments` |
| ProxyRun.AllowedSimulated | mcp/proxy/guardedPipeline.ts:63-88 | No transfer, approval or signature of the runner's four mutations is allowed unless the node accepted the simulated call and estimated its gas |
| ProxyRun.AllowedSignature | mcp/proxy/guardedPipeline.ts:83-95 | The runner allows a signature only if the host's own arguments have a truthy rule key |
| ProxyRun.EvidenceIsJson | packages/coding-agent/src/action-coverage/evidenceExtractors.js:24-86 | JSON arguments give JSON evidence, so digest and key of a host's call are always defined |
| ProxyRun.RunGuarded | mcp/proxy/guardedPipeline.ts:56-100 | The runner skips or blocks with the store untouched, or asks the upstream, for the three classes that must act once at most once for each key, and records its answer |
| ProxyRun.HandleGuardedCall | mcp/proxy/callInterceptor.ts:100-178 | A host's call that comes back forwarded was for a listed tool, was allowed by coverToolCall, meets the raw contract reads and carries the upstream's answer to this call, the recorded answer under its key or that of the call it joined; every call that reaches the runner is told exactly what coverToolCall and the store make of it; where the upstream was not asked the store stays as it was, and two audit events are left |
| Redaction.StripSecrets | packages/coding-agent/src/llm/sanitizeContext.js:12-27 | The recursion and loop compute the stripped tree |
| Redaction.StripBounded | packages/coding-agent/src/llm/sanitizeContext.js:13 | The output has at most nine levels below its root, however deep the input |
| Redaction.StripIdempotent | packages/coding-agent/src/llm/sanitizeContext.js:12-27 | Stripping twice is stripping once |
| Redaction.StripReveals | packages/coding-agent/src/llm/sanitizeContext.js:12-27 | Outputs are equal exactly for trees that differ only under secret names, below the depth limit, or as a BigInt and its numeral |
| Redaction.RedactValue | packages/coding-agent/src/safe-errors/redact.js:7-23 | The recursion and loop compute the redacted tree |
| Redaction.RedactBounded | packages/coding-agent/src/safe-errors/redact.js:8 | The output has at most nine levels below its root |
| Redaction.RedactIdempotent | packages/coding-agent/src/safe-errors/redact.js:7-23 | Redacting twice is redacting once |
| Redaction.RedactReveals | packages/coding-agent/src/safe-errors/redact.js:7-23 | Outputs are equal exactly for trees that differ only under secret names, below the depth limit, or between values shown as the mark |
| WeiHex.PointedIsFloor | mcp/proxy/guardedPipeline.ts:24-28 | With a point the result is the floor of value x 10^18 for any number of fraction digits |
| WeiHex.DigitsOnly | mcp/proxy/guardedPipeline.ts:29-32 | Digits alone count as coins below 10^9 and as wei from there on |
| WeiHex.NoResultIff | mcp/proxy/guardedPipeline.ts:23-35 | A plain text has no result exactly when its whole part or its first eighteen fraction characters are not digits |
| WeiHex.WeiHexReadsBack | mcp/proxy/guardedPipeline.ts:27-32 | The hexadecimal text reads back as the same amount |

## Left out

- Strings are sequences of Unicode scalar values: lone surrogates, and lower-casing outside ASCII, are not modelled.
- CanonicalJson.CanonicalIff: is about plain JSON; `undefined`, which prints like null inside a tree, and nested BigInts, which throw, are outside it.
- Risk.AssessRisk: reads a JavaScript number by its printed digits, so a number of 2^53 or more, or one printed with an exponent, is not read as its double; texts are read exactly.
- Coercions of texts to numbers (`Number`, `parseInt`) are modelled on canonical numerals; other spellings of the chain id count as a mismatch.
- WeiHex.DigitsOnly: and the other amount results are about printable text without signs, spaces or base prefixes.
- AmountGaps.TransferBoundIff: like the approval result, is about amounts that are not objects, since extraction would flatten an object's entries into the evidence.
- ActionCoverage.ExtractEvidence: models property order and names, not prototype properties such as `__proto__`.
- PolicySource.ReadPaged: cursors and counts are integers; the five concurrent list reads are taken against one contract state, since the code pins no block.
- PolicySnapshot.FetchPolicySnapshot: network name, block numbers and read status are left out, and typed-data rules are carried but, as in the code, only counted.
- ProxyRun.HandleGuardedCall: runs one host call without interruption; how a joined call ends is given, and the interleaved pipeline is where the schedules are.
- SimulationEvidence.CostIff: takes the node's answers as given; which transaction the runner simulates decides nothing else, and its catch is never reached.
- The pipeline always has a store and a forward function; the branches for a missing one add nothing to the interleavings.
- Guarded records, error messages, random ids and timestamps are opaque and left out; policy summaries and the rest of the safety reviewer's context only select fields.
- The audit log file, the chain bootstrap, process and network plumbing, the policy cache and the dashboard are not modelled.
- The registry's contents and the exact name patterns are parameters; looking a tool up by an inherited property name is not modelled.
