/** What the three gates of graph/approval_nodes.py show a human: the payload each of them
    hands to `interrupt`. */
module Gates {
  import opened Dicts
  import opened Plans
  import opened Tools

  datatype Context =
    | PlanContext(confidence: real, plan: Plan)
    | ActionContext(shown: Signature, signature: Signature)
    | FailureContext(subtaskId: string, error: Option<string>, attempts: nat)

  datatype GatePayload =
    GatePayload(taskId: string, level: string, trigger: string, context: Context, proposedAction: string)

  function Decimal(n: nat): string {
    if n < 10 then ["0123456789"[n]] else Decimal(n / 10) + ["0123456789"[n % 10]]
  }

  function PlanPayload(taskId: string, confidence: real, plan: Plan): GatePayload {
    GatePayload(taskId, "approve_plan", "low_confidence_plan", PlanContext(confidence, plan),
                "Execute plan with " + Decimal(|plan|) + " subtasks")
  }

  /** The signature is the key of the pending entry, `shown` what the entry itself says. */
  function ActionPayload(taskId: string, shown: Signature, signature: Signature): GatePayload {
    GatePayload(taskId, "approve_action", "sensitive_tool_requested", ActionContext(shown, signature),
                "Run sensitive tool " + shown.tool + " on subtask " + shown.subtaskId)
  }

  function FailurePayload(taskId: string, subtaskId: string, error: Option<string>, attempts: nat): GatePayload {
    GatePayload(taskId, "approve_action", "second_failure", FailureContext(subtaskId, error, attempts),
                "Subtask " + subtaskId + " failed " + Decimal(attempts) + " times. Approve the partial "
                + "output, retry once more, or reject the subtask.")
  }
}
