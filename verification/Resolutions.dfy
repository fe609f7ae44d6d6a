/** The way of a human's decision from the approvals table to a gate: `resume_task` hands the
    JSON object stored as resolution to `Command(resume=...)`, and the gate reads it by key. */
module Resolutions {
  import opened Dicts
  import opened Plans
  import opened Tools
  import opened Gates
  import opened Engine
  import opened Invariant
  import Approvals

  function ActionOf(text: string): Action {
    match text
    case "approve" => Approve
    case "modify" => Modify
    case "reject" => Reject
    case "take_over" => TakeOver
    case "retry" => Action.Retry
    case _ => Action.Unrecognised(text)
  }

  /** `decision.get(key)`: a missing key reads as null. */
  function At(r: Approvals.Resolution, key: string): Approvals.Value {
    if key in r then r[key] else Approvals.Null
  }

  /** What the gates read: the keys action, plan and arguments. */
  function ReadDecision(r: Approvals.Resolution): Decision {
    Decision(
      if "action" !in r then Unspecified
      else if r["action"].Text? then ActionOf(r["action"].text) else Action.Unrecognised(""),
      if At(r, "plan").PlanValue? then At(r, "plan").plan else [],
      if At(r, "arguments").ArgumentsValue? then Some(At(r, "arguments").arguments) else None)
  }

  /** The endpoint stores edits under keys that no gate reads: of every decision only the
      action arrives. */
  lemma OnlyTheActionArrives(d: Approvals.ApprovalDecision)
    ensures ReadDecision(Approvals.Dump(d)) == Decision(ActionOf(d.action), [], None)
  {
    assert forall key :: key in Approvals.Dump(d) ==> key[0] != 'p' && key[1] != 'r';
  }

  /** If the endpoint stored its edits under the keys the gates read, they would arrive. */
  lemma EditsArriveUnderTheReadKeys(r: Approvals.Resolution, plan: Plan, arguments: Arguments)
    ensures ReadDecision(r["plan" := Approvals.PlanValue(plan)]["arguments" := Approvals.ArgumentsValue(arguments)]) ==
            ReadDecision(r).(plan := plan, arguments := Some(arguments))
  {
    assert "plan"[0] != "arguments"[0] && "plan"[0] != "action"[0] && "arguments"[1] != "action"[1];
  }

  /** While the engine invariant holds, the payload at a gate is one that follows from its
      context: an action gate shows exactly the call its signature stands for. */
  lemma AskedFromGate(cfg: Config, r: Run)
    requires Inv(cfg, r) && Gated(cfg, r)
    ensures Approvals.FromGate(Asked(cfg, r))
    ensures r.node.ActionApproval? ==>
              var s := FirstPending(r.st).value; Asked(cfg, r) == ActionPayload(cfg.taskId, s, s)
  {
  }
}
