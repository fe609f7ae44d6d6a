/** Questions that are still open when a run goes to synthesis: what becomes of the subtask
    that asked, and exactly when it happens. OpenQuestions has runs in which it does. */
module Waiting {
  import opened Plans
  import opened Tools
  import opened Engine
  import opened Invariant
  import opened Steps
  import opened Runs

  // ------------------------------------------------------------ no subtask is dropped

  /** Whoever asked for a decision had its dependencies accepted. */
  ghost predicate AskersReady(st: GraphState) {
    forall s :: s in st.pending.vals ==> DepsAccepted(st, s.subtaskId)
  }

  lemma DepsStayAccepted(before: GraphState, after: GraphState, id: string)
    requires Advances(before, after) && after.plan == before.plan && DepsAccepted(before, id)
    ensures DepsAccepted(after, id)
  {
  }

  lemma ExecuteKeepsAskers(cfg: Config, r: Run, inp: Input)
    requires Inv(cfg, r) && Enabled(cfg, r, inp) && r.node.ExecuteBatch? && AskersReady(r.st)
    ensures AskersReady(Next(cfg, r, inp).st)
  {
    var st, batch := r.st, r.node.batch;
    var branches := Branches(cfg, batch, inp.turns);
    var after := AfterExecute(st, branches);
    ExecuteAdvances(cfg, st, batch, inp.turns);
    BatchExact(cfg, st);
    BranchesCompatible(cfg, batch, inp.turns);
    forall s | s in after.pending.vals ensures DepsAccepted(after, s.subtaskId) {
      PendingAt(st, branches, s);
      if i :| Asks(branches, i, s) {
        BranchFacts(cfg, batch[i], inp.turns[i]);
        assert InBatch(batch, s.subtaskId);
      }
      DepsStayAccepted(st, after, s.subtaskId);
    }
  }

  lemma NobodyAsks(cfg: Config, r: Run, inp: Input)
    requires Inv(cfg, r) && Enabled(cfg, r, inp) && !r.node.ExecuteBatch?
    ensures forall s :: s in Next(cfg, r, inp).st.pending.vals ==> s in r.st.pending.vals
  {
    if r.node.ActionApproval? {
      FirstPendingExists(r.st);
      ActionDecisionAt(r.st, inp.decision);
    } else if r.node.FailureApproval? {
      FailureKeepsRest(r.st, inp.decision);
    }
  }

  lemma StepKeepsAskers(cfg: Config, r: Run, inp: Input)
    requires Inv(cfg, r) && Enabled(cfg, r, inp) && AskersReady(r.st)
    ensures AskersReady(Next(cfg, r, inp).st)
  {
    if r.node.ExecuteBatch? {
      ExecuteKeepsAskers(cfg, r, inp);
    } else {
      NobodyAsks(cfg, r, inp);
      StepKeepsInv(cfg, r, inp);
      if r.st.pending.vals != map[] {
        PlanKeptWhilePending(cfg, r, inp);
      }
      forall s | s in Next(cfg, r, inp).st.pending.vals ensures DepsAccepted(Next(cfg, r, inp).st, s.subtaskId) {
        DepsStayAccepted(r.st, Next(cfg, r, inp).st, s.subtaskId);
      }
    }
  }

  lemma PlanKeptWhilePending(cfg: Config, r: Run, inp: Input)
    requires Inv(cfg, r) && Enabled(cfg, r, inp) && r.st.pending.vals != map[]
    ensures Next(cfg, r, inp).st.plan == r.st.plan
  {
    PlanKept(cfg, r, inp);
  }

  lemma AskersStayReady(cfg: Config, e: Execution, i: nat)
    requires IsExecution(cfg, e) && i < |e.inputs| && AskersReady(e.runs[i].st)
    ensures AskersReady(e.runs[i + 1].st)
  {
    Reachable(cfg, e, i);
    assert IsStep(cfg, e, i);
    StepKeepsAskers(cfg, e.runs[i], e.inputs[i]);
  }

  lemma {:induction false} AskersAreReady(cfg: Config, e: Execution, i: nat)
    requires IsExecution(cfg, e) && i < |e.runs|
    ensures AskersReady(e.runs[i].st)
  {
    if i > 0 {
      AskersAreReady(cfg, e, i - 1);
      AskersStayReady(cfg, e, i - 1);
    }
  }

  /** No subtask that ever asked a human is dropped: at synthesis it is accepted or escalated,
      whether its question was answered or not. */
  lemma AskersAreNotDropped(cfg: Config, e: Execution, i: nat, s: Signature)
    requires IsExecution(cfg, e) && i < |e.runs| && e.runs[i].node.Synthesize? && s in e.runs[i].st.pending.vals
    ensures IsAccepted(e.runs[i].st, s.subtaskId) || IsEscalated(e.runs[i].st, s.subtaskId)
  {
    Reachable(cfg, e, i);
    AskersAreReady(cfg, e, i);
    var st := e.runs[i].st;
    assert s.subtaskId in Ids(st.plan) && !NeedsReview(st, s.subtaskId);
    if IsDue(st, s.subtaskId) {
      DueIsSent(cfg, st, s.subtaskId);
    }
  }

  // ------------------------------------------------------------ exactly when

  /** Dispatch leaves a question open for good exactly when one is open and no subtask is due. */
  lemma LeavesQuestionIff(cfg: Config, r: Run)
    requires Inv(cfg, r) && r.node.Dispatch?
    ensures RouteNext(r.st) == Synthesize && HasPending(r.st) <==> HasPending(r.st) && forall id :: !IsDue(r.st, id)
  {
    if HasPending(r.st) {
      SynthesisIffNothingDue(cfg, r.st);
    }
  }

  /** And it leaves an escalated subtask without a human's answer exactly when there is one
      and no subtask is due. */
  lemma LeavesEscalationIff(cfg: Config, r: Run, id: string)
    requires Inv(cfg, r) && r.node.Dispatch? && IsUndecided(r.st, id)
    ensures RouteNext(r.st) == Synthesize <==> forall k :: !IsDue(r.st, k)
  {
    SynthesisIffNothingDue(cfg, r.st);
  }

  lemma SynthesisIffNothingDue(cfg: Config, st: GraphState)
    requires StateInv(cfg, st) && st.plan != []
    ensures RouteNext(st) == Synthesize <==> forall id :: !IsDue(st, id)
  {
    BatchExact(cfg, st);
    if NextBatch(st) != [] {
      assert InBatch(NextBatch(st), NextBatch(st)[0].task.id);
    }
    forall id | IsDue(st, id) ensures NextBatch(st) != [] {
      assert InBatch(NextBatch(st), id);
    }
  }
}
