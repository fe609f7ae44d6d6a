/** Stretches of runs, for the lemmas that exhibit one.

    A run can start with any valid plan that the supervisor is sure of. One round of it is
    dispatch, execute and review; here the specialist of a single subtask is scripted while
    all others crash, so that the round ends at the action gate with nothing but this
    subtask's question added and the subtask as due as before. The gate then decides the
    first pending entry, and the next round can begin.

    Paths on which no human edits a call, and on which humans are only asked about given
    calls, are called tame; they are built one step at a time. */
module Scenarios {
  import opened Dicts
  import opened Plans
  import opened Tools
  import opened Agents
  import opened Engine
  import opened Invariant
  import opened Steps
  import opened Runs
  import opened Termination

  /** A path on which humans edit nothing and are asked about nothing outside `all`. */
  ghost predicate Tame(cfg: Config, e: Execution, all: set<Signature>) {
    HarmlessPath(cfg, e) && AsksWithin(e, all)
  }

  ghost predicate PendingWithin(st: GraphState, all: set<Signature>) {
    forall s :: s in st.pending.vals ==> s in all
  }

  lemma TameExtends(cfg: Config, e: Execution, inp: Input, all: set<Signature>) returns (longer: Execution)
    requires Tame(cfg, e, all) && Enabled(cfg, Last(e), inp) && HarmlessInput(Last(e), inp)
    requires PendingWithin(Next(cfg, Last(e), inp).st, all)
    ensures Tame(cfg, longer, all) && longer.runs[0] == e.runs[0] && longer.inputs == e.inputs + [inp]
    ensures Last(longer) == Next(cfg, Last(e), inp)
  {
    longer := Extended(cfg, e, inp);
    forall i | 0 <= i < |longer.inputs|
      ensures longer.runs[i].st.pending.Valid() && HarmlessInput(longer.runs[i], longer.inputs[i])
    {
      if i < |e.inputs| {
        assert longer.runs[i] == e.runs[i] && longer.inputs[i] == e.inputs[i];
      }
    }
    forall i, s | 0 <= i < |longer.runs| && s in longer.runs[i].st.pending.vals ensures s in all {
      if i < |e.runs| {
        assert longer.runs[i] == e.runs[i];
      }
    }
  }

  /** No gate asked anything on the way. */
  ghost predicate Unanswered(inputs: seq<Input>) {
    forall i :: 0 <= i < |inputs| ==> !inputs[i].Answered?
  }

  // ------------------------------------------------------------ the start of a run

  ghost function PlannedState(plan: Plan): GraphState {
    InitialState().(plan := plan, planConfidence := 1.0)
  }

  /** The supervisor proposes a valid plan with full confidence, which passes the plan gate
      unasked. */
  lemma StartWith(cfg: Config, plan: Plan, all: set<Signature>) returns (e: Execution)
    requires ValidPlan(plan)
    ensures IsExecution(cfg, e) && |e.inputs| == 2 && Last(e) == Run(Dispatch, PlannedState(plan))
    ensures Tame(cfg, e, all) && Unanswered(e.inputs)
  {
    e := Execution([InitialRun()], []);
    e := TameExtends(cfg, e, Proposals(ProposedPlan(plan, 1.0), ProposedPlan(plan, 1.0)), all);
    assert Last(e) == Run(PlanApproval, PlannedState(plan));
    e := TameExtends(cfg, e, Silent, all);
  }

  // ------------------------------------------------------------ one subtask asks

  /** The specialist of the subtask `id` answers with `own`, all others crash. */
  ghost function SoloTurns(batch: seq<Payload>, id: string, own: seq<Turn>): (turns: seq<seq<Turn>>)
    requires |own| == MAX_TOOL_ITERATIONS
    ensures TurnsFor(batch, turns)
    ensures forall i :: 0 <= i < |batch| ==>
              turns[i] == if batch[i].task.id == id then own else seq(MAX_TOOL_ITERATIONS, _ => Raises(""))
  {
    seq(|batch|, i requires 0 <= i < |batch| =>
      if batch[i].task.id == id then own else seq(MAX_TOOL_ITERATIONS, _ => Raises("")))
  }

  ghost function SoloRun(cfg: Config, st: GraphState, id: string, own: seq<Turn>): SpecialistRun
    requires |own| == MAX_TOOL_ITERATIONS
  {
    Continue(Access(cfg.toolsAvailable, cfg.sensitive, id, DecidedApprovals(st)), own, 0, "No output produced.")
  }

  ghost function SoloBranches(cfg: Config, st: GraphState, id: string, own: seq<Turn>): seq<Branch>
    requires |own| == MAX_TOOL_ITERATIONS
  {
    Branches(cfg, NextBatch(st), SoloTurns(NextBatch(st), id, own))
  }

  ghost function EntryFor(s: Signature): ApprovalInfo {
    ApprovalInfo(Pending, s.subtaskId, s.tool, s.arguments)
  }

  lemma SoloBranch(cfg: Config, st: GraphState, p: Payload, turns: seq<Turn>, id: string, own: seq<Turn>,
                   asked: Signature)
    requires StateInv(cfg, st) && st.plan != [] && p in NextBatch(st) && |turns| == |own| == MAX_TOOL_ITERATIONS
    requires turns == if p.task.id == id then own else seq(MAX_TOOL_ITERATIONS, _ => Raises(""))
    requires SoloRun(cfg, st, id, own).outcome == Awaits(asked)
    ensures var b := NodeExecuteSubtask(cfg, p, turns);
            if p.task.id == id then b == Paused(asked, EntryFor(asked)) else b.Finished? && b.result.subtaskId != id
  {
    SentIsDue(cfg, st, p);
    assert p.task.specialist in SPECIALISTS;
    if p.task.id == id {
      SpecialistIsGated(BranchAccess(cfg, p), own, 0, "No output produced.");
    } else {
      assert turns[0] == Raises("");
    }
  }

  /** Branch `k` asks and every other one finishes a different subtask. */
  ghost predicate OneAsks(branches: seq<Branch>, k: nat, id: string, asked: Signature) {
    && k < |branches| && branches[k] == Paused(asked, EntryFor(asked))
    && forall i :: 0 <= i < |branches| && i != k ==> branches[i].Finished? && branches[i].result.subtaskId != id
  }

  lemma OneAsksPending(st: GraphState, branches: seq<Branch>, k: nat, id: string, asked: Signature)
    requires Compatible(PendingUpdates(branches)) && OneAsks(branches, k, id, asked)
    ensures AfterExecute(st, branches).pending.vals == st.pending.vals[asked := EntryFor(asked)]
  {
    var after, expected := AfterExecute(st, branches).pending.vals, st.pending.vals[asked := EntryFor(asked)];
    forall s ensures (s in after <==> s in expected) && (s in expected ==> after[s] == expected[s]) {
      PendingAt(st, branches, s);
      assert s == asked ==> Asks(branches, k, s);
    }
  }

  lemma OneAsksResult(st: GraphState, branches: seq<Branch>, k: nat, id: string, asked: Signature)
    requires Compatible(ResultUpdates(branches)) && OneAsks(branches, k, id, asked)
    ensures var after := AfterExecute(st, branches).results.vals;
            (id in after <==> id in st.results.vals) && (id in st.results.vals ==> after[id] == st.results.vals[id])
  {
    ResultAt(st, branches, id);
  }

  lemma SoloAsks(cfg: Config, st: GraphState, id: string, own: seq<Turn>, asked: Signature) returns (k: nat)
    requires StateInv(cfg, st) && IsDue(st, id) && |own| == MAX_TOOL_ITERATIONS
    requires SoloRun(cfg, st, id, own).outcome == Awaits(asked)
    ensures OneAsks(SoloBranches(cfg, st, id, own), k, id, asked)
  {
    DueIsSent(cfg, st, id);
    BatchDistinct(cfg, st);
    var batch := NextBatch(st);
    var turns := SoloTurns(batch, id, own);
    k :| 0 <= k < |batch| && batch[k].task.id == id;
    SoloBranch(cfg, st, batch[k], turns[k], id, own, asked);
    forall i | 0 <= i < |batch| && i != k
      ensures SoloBranches(cfg, st, id, own)[i].Finished? && SoloBranches(cfg, st, id, own)[i].result.subtaskId != id
    {
      SoloBranch(cfg, st, batch[i], turns[i], id, own, asked);
    }
  }

  /** The batch then asks for that one decision and leaves the asking subtask as it was. */
  lemma SoloBatch(cfg: Config, st: GraphState, id: string, own: seq<Turn>, asked: Signature)
    requires StateInv(cfg, st) && IsDue(st, id) && |own| == MAX_TOOL_ITERATIONS
    requires SoloRun(cfg, st, id, own).outcome == Awaits(asked)
    ensures var after := AfterExecute(st, SoloBranches(cfg, st, id, own));
            && after.pending.vals == st.pending.vals[asked := EntryFor(asked)]
            && (id in after.results.vals <==> id in st.results.vals)
            && (id in st.results.vals ==> after.results.vals[id] == st.results.vals[id])
  {
    var branches := SoloBranches(cfg, st, id, own);
    BatchDistinct(cfg, st);
    BranchesCompatible(cfg, NextBatch(st), SoloTurns(NextBatch(st), id, own));
    var k := SoloAsks(cfg, st, id, own, asked);
    OneAsksPending(st, branches, k, id, asked);
    OneAsksResult(st, branches, k, id, asked);
  }

  lemma StaysDue(before: GraphState, after: GraphState, id: string)
    requires IsDue(before, id) && Advances(before, after) && after.plan == before.plan
    requires id in after.results.vals <==> id in before.results.vals
    requires id in before.results.vals ==> after.results.vals[id] == before.results.vals[id]
    ensures IsDue(after, id)
  {
    assert forall d :: IsAccepted(before, d) ==> IsAccepted(after, d);
  }

  /** The subtask is still due and has asked for this decision. */
  ghost predicate HasAsked(before: GraphState, after: GraphState, id: string, asked: Signature) {
    && after.plan == before.plan && IsDue(after, id) && !NeedsReview(after, id)
    && after.pending.vals == before.pending.vals[asked := EntryFor(asked)]
  }

  lemma SoloStep(cfg: Config, r: Run, id: string, own: seq<Turn>, asked: Signature)
    requires Inv(cfg, r) && r.node.ExecuteBatch? && IsDue(r.st, id) && |own| == MAX_TOOL_ITERATIONS
    requires SoloRun(cfg, r.st, id, own).outcome == Awaits(asked)
    ensures var inp := Turns(SoloTurns(r.node.batch, id, own));
            && Enabled(cfg, r, inp) && Inv(cfg, Next(cfg, r, inp)) && Next(cfg, r, inp).node.ReviewBatch?
            && HasAsked(r.st, Next(cfg, r, inp).st, id, asked)
  {
    var inp := Turns(SoloTurns(r.node.batch, id, own));
    var after := AfterExecute(r.st, SoloBranches(cfg, r.st, id, own));
    assert Next(cfg, r, inp) == Run(ReviewBatch, after);
    StepKeepsInv(cfg, r, inp);
    SoloBatch(cfg, r.st, id, own, asked);
    StaysDue(r.st, after, id);
    assert !NeedsReview(r.st, id);
  }

  function HarshReviews(plan: Plan): map<string, Review> {
    map id | id in Ids(plan) :: Review(Scores(0.0, 0.0, 0.0, 0.0), "", Verdict.Retry)
  }

  lemma ReviewStepAsked(cfg: Config, before: GraphState, r: Run, id: string, asked: Signature)
    requires Inv(cfg, r) && r.node.ReviewBatch? && HasAsked(before, r.st, id, asked)
    ensures var inp := Reviews(HarshReviews(r.st.plan));
            && Enabled(cfg, r, inp) && Inv(cfg, Next(cfg, r, inp)) && Next(cfg, r, inp).node.ActionApproval?
            && HasAsked(before, Next(cfg, r, inp).st, id, asked)
  {
    var inp := Reviews(HarshReviews(r.st.plan));
    var after := AfterReview(r.st, inp.reviews);
    assert after.pending == r.st.pending && after.pending.vals[asked].status.Pending?;
    assert Next(cfg, r, inp) == Run(ActionApproval, after);
    StepKeepsInv(cfg, r, inp);
    UnreviewedAt(r.st, inp.reviews, id);
    StaysDue(r.st, after, id);
  }

  lemma SendStep(cfg: Config, r: Run, id: string)
    requires Inv(cfg, r) && r.node.Dispatch? && IsDue(r.st, id)
    ensures Enabled(cfg, r, Silent) && Next(cfg, r, Silent) == Run(ExecuteBatch(NextBatch(r.st)), r.st)
    ensures Inv(cfg, Next(cfg, r, Silent))
  {
    DueIsSent(cfg, r.st, id);
    StepKeepsInv(cfg, r, Silent);
  }

  lemma SendExtends(cfg: Config, e: Execution, id: string, all: set<Signature>) returns (longer: Execution)
    requires Tame(cfg, e, all) && PendingWithin(Last(e).st, all)
    requires Inv(cfg, e.runs[0]) && Last(e).node.Dispatch? && IsDue(Last(e).st, id)
    ensures Tame(cfg, longer, all) && longer.runs[0] == e.runs[0] && longer.inputs == e.inputs + [Silent]
    ensures Last(longer) == Run(ExecuteBatch(NextBatch(Last(e).st)), Last(e).st)
  {
    PathKeepsInv(cfg, e, |e.inputs|);
    SendStep(cfg, Last(e), id);
    longer := TameExtends(cfg, e, Silent, all);
  }

  lemma SoloExtends(cfg: Config, e: Execution, id: string, own: seq<Turn>, asked: Signature, all: set<Signature>)
    returns (longer: Execution, inp: Input)
    requires Tame(cfg, e, all) && PendingWithin(Last(e).st, all) && asked in all
    requires Inv(cfg, e.runs[0]) && Last(e).node.ExecuteBatch? && IsDue(Last(e).st, id) && |own| == MAX_TOOL_ITERATIONS
    requires SoloRun(cfg, Last(e).st, id, own).outcome == Awaits(asked)
    ensures Tame(cfg, longer, all) && longer.runs[0] == e.runs[0] && longer.inputs == e.inputs + [inp] && inp.Turns?
    ensures Last(longer).node.ReviewBatch? && HasAsked(Last(e).st, Last(longer).st, id, asked)
  {
    inp := Turns(SoloTurns(Last(e).node.batch, id, own));
    PathKeepsInv(cfg, e, |e.inputs|);
    SoloStep(cfg, Last(e), id, own, asked);
    longer := TameExtends(cfg, e, inp, all);
  }

  lemma ReviewExtends(cfg: Config, before: GraphState, e: Execution, id: string, asked: Signature, all: set<Signature>)
    returns (longer: Execution, inp: Input)
    requires Tame(cfg, e, all) && PendingWithin(Last(e).st, all)
    requires Inv(cfg, e.runs[0]) && Last(e).node.ReviewBatch? && HasAsked(before, Last(e).st, id, asked)
    ensures Tame(cfg, longer, all) && longer.runs[0] == e.runs[0] && longer.inputs == e.inputs + [inp] && inp.Reviews?
    ensures Last(longer).node.ActionApproval? && HasAsked(before, Last(longer).st, id, asked)
  {
    inp := Reviews(HarshReviews(Last(e).st.plan));
    PathKeepsInv(cfg, e, |e.inputs|);
    ReviewStepAsked(cfg, before, Last(e), id, asked);
    longer := TameExtends(cfg, e, inp, all);
  }

  /** Dispatch, execute, review: from one dispatch to the action gate, while one due subtask
      asks for a decision and every other one crashes. */
  lemma AskRound(cfg: Config, e: Execution, id: string, own: seq<Turn>, asked: Signature, all: set<Signature>)
    returns (longer: Execution, more: seq<Input>)
    requires Tame(cfg, e, all) && PendingWithin(Last(e).st, all) && asked in all
    requires Inv(cfg, e.runs[0]) && Last(e).node.Dispatch? && IsDue(Last(e).st, id) && |own| == MAX_TOOL_ITERATIONS
    requires SoloRun(cfg, Last(e).st, id, own).outcome == Awaits(asked)
    ensures Tame(cfg, longer, all) && longer.runs[0] == e.runs[0]
    ensures longer.inputs == e.inputs + more && |more| == 3 && Unanswered(more)
    ensures Last(longer).node.ActionApproval? && HasAsked(Last(e).st, Last(longer).st, id, asked)
  {
    var execute, review;
    longer := SendExtends(cfg, e, id, all);
    longer, execute := SoloExtends(cfg, longer, id, own, asked, all);
    longer, review := ReviewExtends(cfg, Last(e).st, longer, id, asked, all);
    more := [Silent, execute, review];
  }

  /** The gate decides the first pending entry; who is due stays due. */
  lemma GateStep(cfg: Config, r: Run, d: Decision, id: string)
    requires Inv(cfg, r) && r.node.ActionApproval? && IsDue(r.st, id)
    ensures FirstPending(r.st).Some? && Enabled(cfg, r, Answered(d))
    ensures var s, next := FirstPending(r.st).value, Next(cfg, r, Answered(d));
            && Inv(cfg, next) && next.node.Dispatch? && IsDue(next.st, id) && next.st.plan == r.st.plan
            && next.st.pending.vals ==
               r.st.pending.vals[s := ApplyActionDecision(d.action, d.arguments, r.st.pending.vals[s])]
  {
    FirstPendingExists(r.st);
    ActionDecisionAt(r.st, d);
    StepKeepsInv(cfg, r, Answered(d));
    StaysDue(r.st, Next(cfg, r, Answered(d)).st, id);
  }

  /** The first batch of a plan, one subtask without dependencies asking. */
  lemma FirstAsk(cfg: Config, plan: Plan, s: Signature, all: set<Signature>) returns (e: Execution)
    requires ValidPlan(plan) && s.subtaskId in Layer(plan, {}) && s in all
    requires cfg.toolsAvailable && s.tool in cfg.sensitive
    ensures IsExecution(cfg, e) && |e.inputs| == 5 && Tame(cfg, e, all) && Unanswered(e.inputs)
    ensures Last(e).node.ActionApproval? && HasAsked(PlannedState(plan), Last(e).st, s.subtaskId, s)
  {
    e := StartWith(cfg, plan, all);
    InitialInv(cfg);
    assert IsDue(PlannedState(plan), s.subtaskId);
    var a := Access(cfg.toolsAvailable, cfg.sensitive, s.subtaskId, DecidedApprovals(PlannedState(plan)));
    InsistingAsks(a, CallOf(s), s);
    var longer, more := AskRound(cfg, e, s.subtaskId, Insists(CallOf(s)), s, all);
    e := longer;
  }
}
