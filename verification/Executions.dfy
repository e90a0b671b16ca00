/** The history of tool executions that chat, background tasks and workflow runs keep: what ran, and why it might. */
module Executions {
  import opened Base
  import Gates
  import Rows

  /** A person approved the call, or its gate let it run without being asked. */
  datatype Why = ByApproval | ByGate(gate: Gates.GateInput)

  /** `key` is a call id or the index of a workflow step. */
  datatype Execution<K> = Execution(key: K, why: Why)

  function LoggedKeys<K>(log: seq<Execution<K>>): seq<K> {
    seq(|log|, i requires 0 <= i < |log| => log[i].key)
  }

  function WhyRun(approval: Option<Rows.ApprovalStatus>, gate: Gates.GateInput): Why {
    if approval == Some(Rows.Approved) then ByApproval else ByGate(gate)
  }
}
