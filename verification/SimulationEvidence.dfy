/** The simulation of a mutation: what is made of the node's answers to `eth_call` and `eth_estimateGas`. */
module SimulationEvidence {
  import opened Values
  import opened Text
  import opened Coercions

  /** The request throws, answers something that is not a number, or answers an estimate. */
  datatype Estimate = NoAnswer | NotANumber | Estimated(gas: int)

  /** `called` is false when `eth_call` throws, as it does on a revert. */
  datatype NodeAnswers = NodeAnswers(called: bool, estimate: Estimate)

  /** The fee the caller gives: none, one that is not a number, or a number of wei. */
  datatype Fee = NoFee | BadFee | PerGas(wei: int)

  function StatusReport(status: string): Value {
    Obj([Field("status", Str(status))])
  }

  predicate Simulates(node: NodeAnswers) {
    node.called && node.estimate.Estimated?
  }

  function CostFields(gas: int, fee: Fee): seq<Field> {
    match fee case PerGas(wei) => [Field("estimated_gas_cost_wei", Str(IntText(gas * wei)))] case _ => []
  }

  /** What the runner is given: a report with, beside it, the gas limit and the cost when there is a fee. */
  function BuildSimulation(node: NodeAnswers, fee: Fee): Value {
    if !node.called then Obj([Field("simulation", StatusReport("failed"))])
    else if !node.estimate.Estimated? || fee.BadFee? then Obj([Field("simulation", StatusReport("unavailable"))])
    else Obj([Field("simulation", StatusReport("success")), Field("gas_limit", Str(IntText(node.estimate.gas)))] +
             CostFields(node.estimate.gas, fee))
  }

  function StatusFor(node: NodeAnswers, fee: Fee): string {
    if !node.called then "failed" else if !node.estimate.Estimated? || fee.BadFee? then "unavailable" else "success"
  }

  /** The estimated cost is there exactly when the simulation succeeds and a fee is given; the report beside it never
      holds one. */
  lemma CostIff(node: NodeAnswers, fee: Fee)
    ensures FieldOf(BuildSimulation(node, fee), "estimated_gas_cost_wei") ==
            if node.called && node.estimate.Estimated? && fee.PerGas? then Some(Str(IntText(node.estimate.gas * fee.wei))) else None
    ensures FieldOf(BuildSimulation(node, fee), "simulation") == Some(StatusReport(StatusFor(node, fee)))
    ensures FieldOf(StatusReport(StatusFor(node, fee)), "estimated_gas_cost_wei") == None
  {
    hide IntText, StatusReport;
    var l := BuildSimulation(node, fee).fields;
    assert |"simulation"| == 10 && |"gas_limit"| == 9 && |"estimated_gas_cost_wei"| == 22;
    FieldAt(l, 0);
    if Simulates(node) && fee.PerGas? { FieldAt(l, 2); }
    ReportFields(StatusFor(node, fee));
  }

  lemma ReportFields(status: string)
    ensures FieldOf(StatusReport(status), "status") == Some(Str(status)) && FieldOf(StatusReport(status), "estimated_gas_cost_wei") == None
  {
    FieldAt([Field("status", Str(status))], 0);
    assert [Field("status", Str(status))][0].key == "status" && |"status"| == 6 && |"estimated_gas_cost_wei"| == 22;
  }
}
