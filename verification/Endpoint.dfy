/** Runs whose gates are answered through the decide endpoint. */
module Endpoint {
  import opened Tools
  import opened Engine
  import opened Runs
  import opened Termination
  import opened Resolutions
  import Approvals

  /** Every gate of the run is answered with what the endpoint stored for some request. */
  ghost predicate EndpointDriven(e: Execution) {
    forall i :: 0 <= i < |e.inputs| && e.inputs[i].Answered? ==>
      exists d :: e.inputs[i].decision == ReadDecision(Approvals.Dump(d))
  }

  lemma EndpointIsHarmless(cfg: Config, e: Execution)
    requires IsExecution(cfg, e) && EndpointDriven(e)
    ensures UndivertedPath(cfg, e)
  {
    forall i | 0 <= i < |e.inputs| ensures e.runs[i].st.pending.Valid() && HarmlessInput(e.runs[i], e.inputs[i]) {
      assert IsStep(cfg, e, i);
      if e.inputs[i].Answered? {
        var d :| e.inputs[i].decision == ReadDecision(Approvals.Dump(d));
        OnlyTheActionArrives(d);
      }
    }
    Reachable(cfg, e, 0);
    HarmlessIsUndiverted(cfg, e);
  }

  /** So runs that are driven through the endpoint end, without a condition on the humans,
      and their decisions are final. */
  lemma EndpointRunsEnd(cfg: Config, e: Execution, all: set<Signature>)
    requires IsExecution(cfg, e) && EndpointDriven(e) && AsksWithin(e, all)
    ensures |e.inputs| <= 5 * (84 + |all|) + 6
    ensures forall i, j, s :: 0 <= i <= j < |e.runs| && IsDecided(e.runs[i].st, s) ==>
              s in e.runs[j].st.pending.vals && e.runs[j].st.pending.vals[s] == e.runs[i].st.pending.vals[s]
  {
    EndpointIsHarmless(cfg, e);
    EveryRunEnds(cfg, e, all);
    forall i, j, s | 0 <= i <= j < |e.runs| && IsDecided(e.runs[i].st, s)
      ensures s in e.runs[j].st.pending.vals && e.runs[j].st.pending.vals[s] == e.runs[i].st.pending.vals[s]
    {
      DecisionsAreFinal(cfg, e, i, j, s);
    }
  }

  /** A plan "modified" through the endpoint runs as it was proposed. */
  lemma EndpointModifyIsApprove(cfg: Config, e: Execution, i: nat, d: Approvals.ApprovalDecision)
    requires IsExecution(cfg, e) && i < |e.inputs| && e.runs[i].node.PlanApproval?
    requires e.inputs[i] == Answered(ReadDecision(Approvals.Dump(d))) && d.action == "modify"
    ensures e.runs[i + 1] == Run(Dispatch, e.runs[i].st)
  {
    OnlyTheActionArrives(d);
    Reachable(cfg, e, i);
    assert IsStep(cfg, e, i);
  }
}
