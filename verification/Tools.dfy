/** The approval gate in front of every tool call: `execute_tool` of tools/execution.py, the executor that
    graph/build.py binds to one subtask, and the decision of graph/approval_nodes.py on a sensitive action. */
module Tools {
  import opened Dicts

  type Arguments = map<string, string>

  /** `tool_signature` is an injective function of (subtask, tool, arguments), so it is modelled
      as that triple; arguments map names to JSON text. */
  datatype Signature = Signature(subtaskId: string, tool: string, arguments: Arguments)

  datatype ApprovalStatus = Pending | Approved | Rejected

  /** One entry of the pending_approvals channel. */
  datatype ApprovalInfo = ApprovalInfo(status: ApprovalStatus, subtaskId: string, tool: string, arguments: Arguments)

  type Approvals = map<Signature, ApprovalInfo>

  /** A human's answer at any gate; a missing key is None or Unspecified. */
  datatype Action = Unspecified | Approve | Modify | Reject | TakeOver | Retry | Unrecognised(text: string)

  /** What a tool call led to: the registry ran it, a human had refused it, or it needs a
      decision first (`ApprovalRequired`). */
  datatype CallReply = Ran(signature: Signature) | Refused | NeedsDecision(signature: Signature)

  /** `execute_tool` up to the registry call. */
  function ExecuteTool(sensitive: set<string>, call: Signature, approved: Option<Signature>): CallReply {
    if call.tool in sensitive && approved != Some(call) then NeedsDecision(call) else Ran(call)
  }

  /** An empty dict is falsy, so an approval without arguments leaves the call's own. */
  function EffectiveArguments(approvals: Approvals, call: Signature): Arguments {
    if call in approvals && approvals[call].arguments != map[] then approvals[call].arguments else call.arguments
  }

  /** The closure built by `_make_executor`. */
  function Executor(sensitive: set<string>, approvals: Approvals, call: Signature): CallReply {
    if call in approvals && approvals[call].status.Rejected? then Refused
    else
      var approved := if call in approvals && approvals[call].status.Approved? then Some(call) else None;
      ExecuteTool(sensitive, call.(arguments := EffectiveArguments(approvals, call)), approved)
  }

  /** `apply_action_decision`: anything but approve or modify is a rejection. */
  function ApplyActionDecision(action: Action, edited: Option<Arguments>, entry: ApprovalInfo): ApprovalInfo {
    if action.Approve? || action.Modify? then
      entry.(status := Approved, arguments := if edited.Some? then edited.value else entry.arguments)
    else entry.(status := Rejected)
  }

  /** The edits of a decision change nothing: there are none, they are empty, or they repeat
      the arguments that were shown. */
  predicate HarmlessEdit(edited: Option<Arguments>, shown: Arguments) {
    edited.None? || edited.value == map[] || edited.value == shown
  }

  /** A sensitive tool gets through the executor only as the very triple that was approved,
      whatever arguments the approval carries; and it does so exactly when that approval
      carries no other arguments. */
  lemma OnlyApprovedCallsRun(sensitive: set<string>, approvals: Approvals, call: Signature)
    ensures var reply := Executor(sensitive, approvals, call);
            reply.Ran? && reply.signature.tool in sensitive ==>
              reply.signature == call && call in approvals && approvals[call].status.Approved?
    ensures call.tool in sensitive ==>
              (Executor(sensitive, approvals, call).Ran? <==>
                 && call in approvals && approvals[call].status.Approved?
                 && HarmlessEdit(Some(approvals[call].arguments), call.arguments))
  {
  }

  /** The executor refuses exactly what a human rejected. What it runs is the call itself, except
      that the arguments an approval entry carries replace the call's own; a tool that is not
      sensitive never waits for a decision. */
  lemma ExecutorIff(sensitive: set<string>, approvals: Approvals, call: Signature)
    ensures var reply := Executor(sensitive, approvals, call);
            && (reply.Refused? <==> call in approvals && approvals[call].status.Rejected?)
            && (call.tool !in sensitive && !reply.Refused? ==> reply.Ran?)
            && (!reply.Refused? ==>
                  && reply.signature.subtaskId == call.subtaskId && reply.signature.tool == call.tool
                  && reply.signature.arguments ==
                     if call in approvals && approvals[call].arguments != map[] then approvals[call].arguments
                     else call.arguments)
  {
  }

  /** Approving a sensitive call lets it run exactly when the decision's edits are harmless.
      Otherwise the executor asks again, under the signature of the edited call. */
  lemma ApprovalTakesEffectIff(
    sensitive: set<string>, approvals: Approvals, call: Signature, entry: ApprovalInfo,
    action: Action, edited: Option<Arguments>)
    requires call.tool in sensitive && entry.arguments == call.arguments
    requires action.Approve? || action.Modify?
    requires call in approvals && approvals[call] == ApplyActionDecision(action, edited, entry)
    ensures Executor(sensitive, approvals, call) ==
            if HarmlessEdit(edited, entry.arguments) then Ran(call)
            else NeedsDecision(call.(arguments := edited.value))
  {
  }
}
