/** The four tools that move funds, grant allowances or sign, as the registry has them; schema hashes are opaque. */
module WalletTools {
  import opened ToolSemantics

  function SendTool(): Semantics {
    Semantics("send_transaction", "send_transaction", "registered", "transaction_execute", false, true, ["to", "value", "data?"],
              ["candidate_transaction_evidence", "simulation_evidence", "digest_requirement", "policy_allow_requirement",
               "idempotency_requirement"])
  }

  function TransferTool(): Semantics {
    Semantics("transfer_token", "transfer_token", "registered", "transaction_execute", false, true, ["token", "to", "amount"],
              ["token_transfer_evidence", "simulation_evidence", "digest_requirement", "policy_allow_requirement",
               "idempotency_requirement"])
  }

  function ApproveTool(): Semantics {
    Semantics("approve_token", "approve_token", "registered", "token_approval", false, true, ["token", "spender", "amount"],
              ["allowance_evidence", "finite_amount_evidence", "simulation_evidence", "exact_policy_allow_requirement",
               "digest_requirement"])
  }

  function SignTool(): Semantics {
    Semantics("sign_typed_data", "sign_typed_data", "registered", "signature", false, true, ["domain", "types", "primaryType", "message"],
              ["typed-data_decode_evidence", "domain_evidence", "chain_evidence", "policy_allow_requirement"])
  }

  predicate WalletTool(m: Semantics) {
    m == SendTool() || m == TransferTool() || m == ApproveTool() || m == SignTool()
  }

  /** How long the names of the evidence are that these tools require, which sets them apart from argument names. */
  lemma EvidenceNames(m: Semantics)
    requires WalletTool(m)
    ensures forall n | n in m.requiredEvidence :: |n| >= 14 && (|n| == 19 ==> n[0] == 's') && (|n| == 22 ==> n[0] == 'f')
  {
  }
}
