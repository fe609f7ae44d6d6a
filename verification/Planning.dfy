/** Which plan a run executes and what it answers in the end, told from the supervisor's two
    proposals and from the human's answer at the plan gate. */
module Planning {
  import opened Dicts
  import opened Plans
  import opened Engine
  import opened Runs

  /** The proposal the supervisor keeps: the first one if it is valid, else the second one. */
  ghost predicate IsKept(e: Execution, p: ProposedPlan) {
    && e.inputs != [] && e.inputs[0].Proposals? && ValidPlan(p.tasks)
    && (p == e.inputs[0].first || (p == e.inputs[0].second && !ValidPlan(e.inputs[0].first.tasks)))
  }

  /** A plan and its confidence come from one and the same proposal; without a valid one there
      is no plan. */
  lemma ProposalIsKept(cfg: Config, e: Execution)
    requires IsExecution(cfg, e) && e.inputs != []
    ensures forall p :: IsKept(e, p) ==> e.runs[1].st.plan == p.tasks && e.runs[1].st.planConfidence == p.confidence
    ensures e.runs[1].st.plan != [] ==> exists p :: IsKept(e, p)
    ensures e.runs[1] == Run(PlanApproval, InitialState().(plan := e.runs[1].st.plan,
                                                            planConfidence := e.runs[1].st.planConfidence))
  {
    assert IsStep(cfg, e, 0);
    var first, second := e.inputs[0].first, e.inputs[0].second;
    if e.runs[1].st.plan != [] {
      assert IsKept(e, if ValidPlan(first.tasks) then first else second);
    }
  }

  lemma RestKept(cfg: Config, r: Run, inp: Input)
    requires Enabled(cfg, r, inp) && !r.node.Supervisor? && !r.node.PlanApproval?
    ensures var next := Next(cfg, r, inp);
            && next.st.humanTakeover == r.st.humanTakeover
            && (!r.node.Synthesize? ==> next.st.finalResponse == r.st.finalResponse)
            && (r.node.Synthesize? <==> next.node.End?)
  {
  }

  /** After the plan gate neither the plan nor the takeover flag changes, and the response only
      at the very end. */
  lemma {:induction false} GateLasts(cfg: Config, e: Execution, i: nat)
    requires IsExecution(cfg, e) && 2 <= i < |e.runs|
    ensures e.runs[i].st.plan == e.runs[2].st.plan && e.runs[i].st.planConfidence == e.runs[1].st.planConfidence
    ensures e.runs[i].st.humanTakeover == e.runs[2].st.humanTakeover
    ensures !e.runs[i].node.End? ==> e.runs[i].st.finalResponse == e.runs[2].st.finalResponse
  {
    AfterPlanning(cfg, e, i);
    if i > 2 {
      GateLasts(cfg, e, i - 1);
      AfterPlanning(cfg, e, i - 1);
      assert IsStep(cfg, e, i - 1);
      RestKept(cfg, e.runs[i - 1], e.inputs[i - 1]);
    }
  }

  // ------------------------------------------------------------ the plan that runs

  /** With human approval off, or at a confidence of 0.6 or more, nobody is asked, and the kept
      proposal is the plan to the end. */
  lemma UnaskedPlanRuns(cfg: Config, e: Execution, p: ProposedPlan, i: nat)
    requires IsExecution(cfg, e) && IsKept(e, p) && 2 <= i < |e.runs| && (!cfg.hitlEnabled || p.confidence >= 0.6)
    ensures e.inputs[1].Silent? && e.runs[i].st.plan == p.tasks && !e.runs[i].st.humanTakeover
  {
    ProposalIsKept(cfg, e);
    assert IsStep(cfg, e, 1);
    GateLasts(cfg, e, i);
  }

  /** Otherwise a human is asked, and the answer decides for the whole run: the plan is the kept
      one after an approval, the human's own after a modification to a valid plan, and after
      any other answer there is none. Only a takeover marks the task as taken over. */
  lemma AskedPlanRuns(cfg: Config, e: Execution, p: ProposedPlan, i: nat)
    requires IsExecution(cfg, e) && IsKept(e, p) && 2 <= i < |e.runs| && cfg.hitlEnabled && p.confidence < 0.6
    ensures e.inputs[1].Answered?
    ensures var d, plan := e.inputs[1].decision, e.runs[i].st.plan;
            && (d.action.Unspecified? || d.action.Approve? ==> plan == p.tasks)
            && (d.action.Modify? && d.plan == [] ==> plan == p.tasks)
            && (d.action.Modify? && d.plan != [] ==> plan == if ValidPlan(d.plan) then d.plan else [])
            && (d.action.TakeOver? || d.action.Reject? || d.action.Retry? || d.action.Unrecognised? ==> plan == [])
            && (e.runs[i].st.humanTakeover <==> d.action.TakeOver?)
  {
    ProposalIsKept(cfg, e);
    assert IsStep(cfg, e, 1);
    GateLasts(cfg, e, i);
  }

  /** So after a human's modification to a valid plan every subtask that is ever sent belongs to
      the human's plan. */
  lemma ModifiedPlanRuns(cfg: Config, e: Execution, i: nat, j: nat)
    requires IsExecution(cfg, e) && i < j < |e.runs| && e.runs[i].node.PlanApproval? && e.inputs[i].Answered?
    requires e.inputs[i].decision.action.Modify? && e.inputs[i].decision.plan != []
    requires ValidPlan(e.inputs[i].decision.plan)
    ensures e.runs[j].st.plan == e.inputs[i].decision.plan
    ensures e.runs[j].node.ExecuteBatch? ==>
              forall k :: 0 <= k < |e.runs[j].node.batch| ==> e.runs[j].node.batch[k].task in e.inputs[i].decision.plan
  {
    PlanGateIsSecond(cfg, e, i);
    assert IsStep(cfg, e, 1);
    GateLasts(cfg, e, j);
    if e.runs[j].node.ExecuteBatch? {
      forall k | 0 <= k < |e.runs[j].node.batch| ensures e.runs[j].node.batch[k].task in e.runs[j].st.plan {
        SentSafely(cfg, e, j, k);
      }
    }
  }

  lemma PlanGateIsSecond(cfg: Config, e: Execution, i: nat)
    requires IsExecution(cfg, e) && i < |e.runs| && e.runs[i].node.PlanApproval?
    ensures i == 1
  {
    if i >= 2 {
      AfterPlanning(cfg, e, i);
    }
  }

  /** Whatever runs belongs to a proposal that was kept; with human approval on and a confidence
      below 0.6 it only runs after a human was asked about the plan and did not stop it. */
  lemma LowConfidencePlansAreApproved(cfg: Config, e: Execution, i: nat) returns (p: ProposedPlan)
    requires IsExecution(cfg, e) && i < |e.runs| && e.runs[i].node.ExecuteBatch?
    ensures IsKept(e, p) && e.runs[i].st.planConfidence == p.confidence
    ensures cfg.hitlEnabled && p.confidence < 0.6 ==>
              && |e.inputs| > 1 && e.inputs[1].Answered?
              && var d := e.inputs[1].decision;
                 || d.action.Unspecified? || d.action.Approve?
                 || (d.action.Modify? && (d.plan == [] || ValidPlan(d.plan)))
  {
    Reachable(cfg, e, i);
    ExecutesLate(cfg, e, i);
    ProposalIsKept(cfg, e);
    assert IsStep(cfg, e, 1);
    GateLasts(cfg, e, i);
    p :| IsKept(e, p);
    if cfg.hitlEnabled && p.confidence < 0.6 {
      AskedPlanRuns(cfg, e, p, i);
    }
  }

  lemma ExecutesLate(cfg: Config, e: Execution, i: nat)
    requires IsExecution(cfg, e) && i < |e.runs| && !e.runs[i].node.Supervisor? && !e.runs[i].node.PlanApproval?
    ensures i >= 2
  {
    assert i == 1 ==> IsStep(cfg, e, 0);
  }

  // ------------------------------------------------------------ the final response

  /** The answer stops the run at the plan gate, with this response. */
  ghost predicate StoppedWith(e: Execution, response: FinalResponse) {
    && |e.inputs| > 1 && e.inputs[1].Answered?
    && var d := e.inputs[1].decision;
       match response
       case ModifiedPlanInvalid => d.action.Modify? && d.plan != [] && !ValidPlan(d.plan)
       case TakenOver => d.action.TakeOver?
       case PlanRejected => d.action.Reject? || d.action.Retry? || d.action.Unrecognised?
       case Synthesized(_) => false
  }

  lemma EndsAfterSynthesis(cfg: Config, e: Execution)
    requires IsExecution(cfg, e) && Last(e).node.End?
    ensures |e.inputs| > 2 && e.runs[|e.inputs| - 1].node.Synthesize?
  {
    var n := |e.inputs|;
    ExecutesLate(cfg, e, n);
    SecondIsDispatch(cfg, e);
    AfterPlanning(cfg, e, n - 1);
    assert IsStep(cfg, e, n - 1);
    RestKept(cfg, e.runs[n - 1], e.inputs[n - 1]);
  }

  lemma SecondIsDispatch(cfg: Config, e: Execution)
    requires IsExecution(cfg, e) && |e.inputs| > 1
    ensures e.runs[2].node.Dispatch?
  {
    ProposalIsKept(cfg, e);
    assert IsStep(cfg, e, 1);
  }

  lemma GateResponds(cfg: Config, e: Execution)
    requires IsExecution(cfg, e) && |e.inputs| > 1
    ensures match e.runs[2].st.finalResponse
            case Some(response) => StoppedWith(e, response)
            case None => forall r :: !StoppedWith(e, r)
  {
    assert IsStep(cfg, e, 0) && IsStep(cfg, e, 1);
    Reachable(cfg, e, 1);
  }

  /** A finished run answers what the plan gate stopped it with, or else what the writer wrote. */
  lemma FinalAnswer(cfg: Config, e: Execution)
    requires IsExecution(cfg, e) && Last(e).node.End?
    ensures Last(e).st.finalResponse.Some?
    ensures var response, last := Last(e).st.finalResponse.value, e.inputs[|e.inputs| - 1];
            if response.Synthesized? then last == Text(response.text) && forall r :: !StoppedWith(e, r)
            else StoppedWith(e, response)
  {
    var n := |e.inputs|;
    EndsAfterSynthesis(cfg, e);
    GateLasts(cfg, e, n - 1);
    GateResponds(cfg, e);
    SynthesisResponds(cfg, e);
  }

  lemma SynthesisResponds(cfg: Config, e: Execution)
    requires IsExecution(cfg, e) && |e.inputs| > 2 && e.runs[|e.inputs| - 1].node.Synthesize?
    ensures var n := |e.inputs|;
            match e.runs[n - 1].st.finalResponse
            case Some(response) => e.runs[n].st.finalResponse == Some(response)
            case None => e.inputs[n - 1].Text? && e.runs[n].st.finalResponse == Some(Synthesized(e.inputs[n - 1].text))
  {
    var n := |e.inputs|;
    Reachable(cfg, e, n - 1);
    assert IsStep(cfg, e, n - 1);
    var st := e.runs[n - 1].st;
    assert st.results.keys != [] ==> st.results.keys[0] in st.results.vals;
    if st.finalResponse.Some? {
      EmptyPlanDoesNothing(cfg, st);
    }
  }
}
