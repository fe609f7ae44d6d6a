/** What a gate shows and what the stored answer does: the passing of a gate, told from the
    payload that a human was shown and from the JSON text that was stored. */
module Rulings {
  import opened Dicts
  import opened Plans
  import opened Tools
  import opened Gates
  import opened Engine
  import opened Invariant
  import opened Steps
  import opened Resolutions
  import Approvals

  // ------------------------------------------------------------ the stored text

  /** The stored action is this text. */
  predicate Says(r: Approvals.Resolution, text: string) {
    "action" in r && r["action"] == Approvals.Text(text)
  }

  predicate Allows(r: Approvals.Resolution) {
    Says(r, "approve") || Says(r, "modify")
  }

  /** Reading the stored action keeps the texts apart; whatever is none of them is read as
      something unknown. */
  lemma ActionRead(r: Approvals.Resolution)
    ensures var action := ReadDecision(r).action;
            && (action.Unspecified? <==> "action" !in r)
            && (action.Approve? <==> Says(r, "approve"))
            && (action.Modify? <==> Says(r, "modify"))
            && (action.TakeOver? <==> Says(r, "take_over"))
            && (action.Retry? <==> Says(r, "retry"))
  {
  }

  /** The plan that was stored with the answer, unless there is none or it is empty. */
  function EditedPlan(r: Approvals.Resolution, shown: Plan): Plan {
    if "plan" in r && r["plan"].PlanValue? && r["plan"].plan != [] then r["plan"].plan else shown
  }

  function EditedArguments(r: Approvals.Resolution, shown: Arguments): Arguments {
    if "arguments" in r && r["arguments"].ArgumentsValue? then r["arguments"].arguments else shown
  }

  // ------------------------------------------------------------ one gate

  /** The plan that was shown runs as it is if the answer is "approve" or silent, as edited if
      it is "modify" and the edited plan is valid; any other answer stops the run. */
  ghost predicate PlanFollows(confidence: real, shown: Plan, r: Approvals.Resolution, before: GraphState,
                              after: GraphState)
  {
    var edited := EditedPlan(r, shown);
    && before.plan == shown && before.planConfidence == confidence && confidence < 0.6 && ValidPlan(shown)
    && ("action" !in r || Says(r, "approve") ==> after == before)
    && (Says(r, "modify") && ValidPlan(edited) ==> after == before.(plan := edited))
    && (Says(r, "modify") && !ValidPlan(edited) ==>
          after == before.(plan := [], finalResponse := Some(ModifiedPlanInvalid)))
    && (Says(r, "take_over") ==>
          after == before.(plan := [], humanTakeover := true, finalResponse := Some(TakenOver)))
    && ("action" in r && !Allows(r) && !Says(r, "take_over") ==>
          after == before.(plan := [], finalResponse := Some(PlanRejected)))
  }

  /** The call that was shown was pending; it is approved, with the edits, if the answer is
      "approve" or "modify", and rejected otherwise. Nothing else changes. */
  ghost predicate ActionFollows(shown: Signature, s: Signature, r: Approvals.Resolution, before: GraphState,
                                after: GraphState)
  {
    && shown == s && s in before.pending.vals
    && before.pending.vals[s] == ApprovalInfo(Pending, s.subtaskId, s.tool, s.arguments)
    && after == before.(pending := Dict(before.pending.keys, before.pending.vals[s :=
         if Allows(r) then ApprovalInfo(Approved, s.subtaskId, s.tool, EditedArguments(r, s.arguments))
         else ApprovalInfo(Rejected, s.subtaskId, s.tool, s.arguments)]))
  }

  /** The subtask that was shown was escalated, undecided, with this error and so many
      attempts; its result is accepted as it stands if the answer is "approve", sent back if it
      is "retry", and stays escalated otherwise. Nothing else changes. */
  ghost predicate FailureFollows(id: string, error: Option<string>, attempts: nat, r: Approvals.Resolution,
                                 before: GraphState, after: GraphState)
  {
    && id in before.results.vals && id !in before.failureDecisions
    && before.results.vals[id].status.Escalated? && before.results.vals[id].error == error
    && id in before.attempts && before.attempts[id] == attempts
    && after == before.(
         results := Dict(before.results.keys, before.results.vals[id := before.results.vals[id].(status :=
           if Says(r, "approve") then Accepted else if Says(r, "retry") then RetryDue else Escalated)]),
         failureDecisions := before.failureDecisions[id :=
           if Says(r, "approve") then Approve else if Says(r, "retry") then Action.Retry else Reject])
  }

  /** The gate did what the answer says to what its human was shown. */
  ghost predicate Follows(c: Context, r: Approvals.Resolution, before: GraphState, after: GraphState) {
    match c
    case PlanContext(confidence, plan) => PlanFollows(confidence, plan, r, before, after)
    case ActionContext(shown, s) => ActionFollows(shown, s, r, before, after)
    case FailureContext(id, error, attempts) => FailureFollows(id, error, attempts, r, before, after)
  }

  lemma PlanGateFollows(cfg: Config, st: GraphState, r: Approvals.Resolution)
    requires StateInv(cfg, st) && PlanGateAsks(cfg, st)
    ensures PlanFollows(st.planConfidence, st.plan, r, st, AfterPlanDecision(st, ReadDecision(r)))
  {
    ActionRead(r);
  }

  lemma ActionGateFollows(cfg: Config, st: GraphState, r: Approvals.Resolution)
    requires StateInv(cfg, st) && FirstPending(st).Some?
    ensures var s := FirstPending(st).value;
            ActionFollows(s, s, r, st, AfterActionDecision(st, ReadDecision(r)))
  {
    ActionRead(r);
    var s, d := FirstPending(st).value, ReadDecision(r);
    MergeSingle(st.pending, s, ApplyActionDecision(d.action, d.arguments, st.pending.vals[s]));
  }

  lemma FailureGateFollows(cfg: Config, st: GraphState, r: Approvals.Resolution)
    requires StateInv(cfg, st) && FirstUndecided(st).Some?
    ensures var id := FirstUndecided(st).value;
            && id in st.results.vals && id in st.attempts
            && FailureFollows(id, st.results.vals[id].error, st.attempts[id], r, st,
                              AfterFailureDecision(st, ReadDecision(r)))
  {
    ActionRead(r);
    var id := FirstUndecided(st).value;
    assert SlotOk(SlotOf(st, id));
    FailureDecisionAt(st, ReadDecision(r), id);
    FailureKeepsOrder(st, ReadDecision(r), id);
  }

  lemma FailureKeepsOrder(st: GraphState, d: Decision, id: string)
    requires st.results.Valid() && FirstUndecided(st) == Some(id)
    ensures AfterFailureDecision(st, d).results.keys == st.results.keys
  {
    if d.action.Approve? || d.action.Retry? {
      MergeSingle(st.results, id, st.results.vals[id].(status := if d.action.Approve? then Accepted else RetryDue));
    }
  }

  /** Whatever is stored as the answer: the gate takes it, and does what its text says to what
      it has shown. */
  lemma GateFollows(cfg: Config, r: Run, answer: Approvals.Resolution)
    requires Inv(cfg, r) && Gated(cfg, r)
    ensures var inp := Answered(ReadDecision(answer));
            && Enabled(cfg, r, inp) && Next(cfg, r, inp).node.Dispatch?
            && Follows(Asked(cfg, r).context, answer, r.st, Next(cfg, r, inp).st)
            && Asked(cfg, r).taskId == cfg.taskId
  {
    match r.node
    case PlanApproval => PlanGateFollows(cfg, r.st, answer);
    case ActionApproval =>
      AskedFromGate(cfg, r);
      ActionGateFollows(cfg, r.st, answer);
    case FailureApproval => FailureGateFollows(cfg, r.st, answer);
  }

  /** What the log says of the passing: about which call or subtask it was, and what was
      answered. */
  lemma GateEvents(cfg: Config, r: Run, answer: Approvals.Resolution)
    requires Inv(cfg, r) && Gated(cfg, r)
    ensures var inp := Answered(ReadDecision(answer));
            && Enabled(cfg, r, inp)
            && match Asked(cfg, r).context
               case PlanContext(_, _) => Events(cfg, r, inp) == []
               case ActionContext(_, s) => Events(cfg, r, inp) == [ActionDecided(s, Allows(answer))]
               case FailureContext(id, _, _) =>
                 exists action :: Events(cfg, r, inp) == [FailureDecided(id, r.st.results.vals[id].content, action)]
                                  && (action.Approve? <==> Says(answer, "approve"))
                                  && (action.Retry? <==> Says(answer, "retry"))
  {
    GateFollows(cfg, r, answer);
    ActionRead(answer);
    if r.node.FailureApproval? {
      var id := FirstUndecided(r.st).value;
      assert Events(cfg, r, Answered(ReadDecision(answer))) ==
             [FailureDecided(id, r.st.results.vals[id].content, ReadDecision(answer).action)];
    }
  }

  /** The gate shows the first entry, in the order they came, that has to be decided. */
  lemma ShownIsFirst(cfg: Config, r: Run) returns (j: nat)
    requires Inv(cfg, r) && Gated(cfg, r) && !r.node.PlanApproval?
    ensures match Asked(cfg, r).context
            case ActionContext(_, s) =>
              && j < |r.st.pending.keys| && r.st.pending.keys[j] == s
              && forall i :: 0 <= i < j ==> !r.st.pending.vals[r.st.pending.keys[i]].status.Pending?
            case FailureContext(id, _, _) =>
              && j < |r.st.results.keys| && r.st.results.keys[j] == id
              && forall i :: 0 <= i < j ==> !IsUndecided(r.st, r.st.results.keys[i])
            case _ => false
  {
    if r.node.ActionApproval? {
      j := FirstPendingIsFirst(r.st, 0);
    } else {
      j := FirstUndecidedIsFirst(r.st, 0);
    }
  }

  // ------------------------------------------------------------ through the endpoint

  /** A decision posted to the endpoint, told from its text: of its edits nothing arrives. At
      the action gate the shown call is approved exactly for "approve" and "modify" and
      rejected otherwise. */
  lemma EndpointDecidesAction(cfg: Config, r: Run, d: Approvals.ApprovalDecision)
    requires Inv(cfg, r) && r.node.ActionApproval? && Gated(cfg, r)
    ensures Asked(cfg, r).context.ActionContext?
    ensures var s, st := Asked(cfg, r).context.signature, Next(cfg, r, Answered(ReadDecision(Approvals.Dump(d)))).st;
            && st.pending.vals == r.st.pending.vals[s := st.pending.vals[s]]
            && (st.pending.vals[s].status.Approved? <==> d.action == "approve" || d.action == "modify")
            && (st.pending.vals[s].status.Rejected? <==> d.action != "approve" && d.action != "modify")
            && st.pending.vals[s].arguments == s.arguments
  {
    GateFollows(cfg, r, Approvals.Dump(d));
    DumpSays(d);
  }

  lemma DumpSays(d: Approvals.ApprovalDecision)
    ensures var r := Approvals.Dump(d);
            && "action" in r && (forall text :: Says(r, text) <==> d.action == text)
            && "plan" !in r && "arguments" !in r
  {
    assert forall key :: key in Approvals.Dump(d) ==> key[0] != 'p' && key[1] != 'r';
  }

  /** At the failure gate the shown subtask is accepted exactly for "approve", sent back exactly
      for "retry", and stays escalated otherwise. */
  lemma EndpointDecidesFailure(cfg: Config, r: Run, d: Approvals.ApprovalDecision)
    requires Inv(cfg, r) && r.node.FailureApproval? && Gated(cfg, r)
    ensures Asked(cfg, r).context.FailureContext?
    ensures var id, st := Asked(cfg, r).context.subtaskId, Next(cfg, r, Answered(ReadDecision(Approvals.Dump(d)))).st;
            && id in st.results.vals && id in st.failureDecisions
            && st.results.vals == r.st.results.vals[id := st.results.vals[id]]
            && (st.results.vals[id].status.Accepted? <==> d.action == "approve")
            && (st.results.vals[id].status.RetryDue? <==> d.action == "retry")
            && (st.results.vals[id].status.Escalated? <==> d.action != "approve" && d.action != "retry")
  {
    GateFollows(cfg, r, Approvals.Dump(d));
    DumpSays(d);
  }

  /** At the plan gate the shown plan runs exactly for "approve" and "modify"; every other text
      stops the run, as a takeover exactly for "take_over". */
  lemma EndpointDecidesPlan(cfg: Config, r: Run, d: Approvals.ApprovalDecision)
    requires Inv(cfg, r) && r.node.PlanApproval? && Gated(cfg, r)
    ensures Asked(cfg, r).context == PlanContext(r.st.planConfidence, r.st.plan)
    ensures var st := Next(cfg, r, Answered(ReadDecision(Approvals.Dump(d)))).st;
            && (st == r.st <==> d.action == "approve" || d.action == "modify")
            && (st.plan == [] <==> d.action != "approve" && d.action != "modify")
            && (st.finalResponse == Some(TakenOver) <==> d.action == "take_over")
            && (st.humanTakeover <==> r.st.humanTakeover || d.action == "take_over")
  {
    GateFollows(cfg, r, Approvals.Dump(d));
    DumpSays(d);
  }
}
