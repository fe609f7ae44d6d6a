/** Two runs that go to synthesis with a question open.
    In the first, three or more independent subtasks all ask for a sensitive call. One
    question is answered, everybody finishes without the tool, a second question is answered,
    and as nothing is due any more the run ends with the third one open.
    In the second, two or more independent subtasks escalate together. A human rejects the
    first, and as nothing is due any more the run ends without a question about the second.
    Waiting says exactly when this happens. */
module OpenQuestions {
  import opened Dicts
  import opened Plans
  import opened Tools
  import opened Agents
  import opened Engine
  import opened Invariant
  import opened Steps
  import opened Runs
  import opened Termination
  import opened Scenarios
  import opened Waiting

  // ------------------------------------------------------------ uniform batches

  /** A plan whose subtasks do not depend on each other. */
  ghost predicate Independent(plan: Plan) {
    ValidPlan(plan) && forall t :: t in plan ==> t.dependencies == []
  }

  lemma ThreeIndependent() returns (plan: Plan)
    ensures Independent(plan) && |plan| >= 3
  {
    plan := [Subtask("1", "a", "writer", []), Subtask("2", "b", "writer", []), Subtask("3", "c", "writer", [])];
    assert "1"[0] != "2"[0] && "1"[0] != "3"[0] && "2"[0] != "3"[0];
    assert !IsSpace("a"[0]) && !IsSpace("b"[0]) && !IsSpace("c"[0]);
    forall c ensures !IsCycle(plan, c) {
      if IsCycle(plan, c) {
        var i :| 0 <= i < |plan| && plan[i].id == c[1];
        DepsOfTask(plan, i);
      }
    }
  }

  /** All branches of a batch get the same answers. */
  ghost function Uniform(batch: seq<Payload>, answers: seq<Turn>): (turns: seq<seq<Turn>>)
    requires |answers| == MAX_TOOL_ITERATIONS
    ensures TurnsFor(batch, turns) && forall i :: 0 <= i < |batch| ==> turns[i] == answers
  {
    seq(|batch|, _ => answers)
  }

  function Finishes(): (turns: seq<Turn>)
    ensures |turns| == MAX_TOOL_ITERATIONS
  {
    seq(MAX_TOOL_ITERATIONS, _ => Turn("", None, Some("done"), ""))
  }

  lemma FinishingBranch(cfg: Config, st: GraphState, p: Payload)
    requires StateInv(cfg, st) && st.plan != [] && p in NextBatch(st)
    ensures NodeExecuteSubtask(cfg, p, Finishes()) == Finished(SubtaskResult(p.task.id, "done", Success, None, 0))
  {
    SentIsDue(cfg, st, p);
    assert p.task.specialist in SPECIALISTS;
    assert Finishes()[0] == Turn("", None, Some("done"), "");
  }

  lemma NoAskNoPending(st: GraphState, branches: seq<Branch>)
    requires Compatible(PendingUpdates(branches)) && forall i :: 0 <= i < |branches| ==> branches[i].Finished?
    ensures AfterExecute(st, branches).pending.vals == st.pending.vals
  {
    var after := AfterExecute(st, branches).pending.vals;
    forall s ensures (s in after <==> s in st.pending.vals) && (s in after ==> after[s] == st.pending.vals[s]) {
      PendingAt(st, branches, s);
    }
  }

  lemma NoFinishNoResult(st: GraphState, branches: seq<Branch>)
    requires Compatible(ResultUpdates(branches)) && forall i :: 0 <= i < |branches| ==> branches[i].Paused?
    ensures AfterExecute(st, branches).results.vals == st.results.vals
  {
    var after := AfterExecute(st, branches).results.vals;
    forall id ensures (id in after <==> id in st.results.vals) && (id in after ==> after[id] == st.results.vals[id]) {
      ResultAt(st, branches, id);
    }
  }

  ghost function FinishedBranches(cfg: Config, st: GraphState): seq<Branch> {
    Branches(cfg, NextBatch(st), Uniform(NextBatch(st), Finishes()))
  }

  lemma FinishedAt(cfg: Config, st: GraphState, id: string)
    requires StateInv(cfg, st) && IsDue(st, id) && Compatible(ResultUpdates(FinishedBranches(cfg, st)))
    ensures var after := AfterExecute(st, FinishedBranches(cfg, st)).results.vals;
            id in after && after[id] == SubtaskResult(id, "done", Success, None, 0)
  {
    var batch := NextBatch(st);
    DueIsSent(cfg, st, id);
    var i :| 0 <= i < |batch| && batch[i].task.id == id;
    FinishingBranch(cfg, st, batch[i]);
    ResultAt(st, FinishedBranches(cfg, st), id);
    assert Writes(FinishedBranches(cfg, st), i, id);
  }

  /** Everything that is due finishes, and nobody asks anything. */
  lemma AllFinish(cfg: Config, st: GraphState)
    requires StateInv(cfg, st) && st.plan != []
    ensures var after := AfterExecute(st, FinishedBranches(cfg, st));
            && after.pending.vals == st.pending.vals
            && forall id :: IsDue(st, id) ==>
                 id in after.results.vals && after.results.vals[id] == SubtaskResult(id, "done", Success, None, 0)
  {
    var batch := NextBatch(st);
    BatchDistinct(cfg, st);
    BranchesCompatible(cfg, batch, Uniform(batch, Finishes()));
    forall i | 0 <= i < |batch| ensures FinishedBranches(cfg, st)[i].Finished? {
      FinishingBranch(cfg, st, batch[i]);
    }
    NoAskNoPending(st, FinishedBranches(cfg, st));
    forall id | IsDue(st, id) {
      FinishedAt(cfg, st, id);
    }
  }

  function Asking(id: string, call: ToolCall): Signature {
    Signature(id, call.tool, call.arguments)
  }

  lemma AskingBranch(cfg: Config, st: GraphState, p: Payload, call: ToolCall)
    requires StateInv(cfg, st) && st.plan != [] && p in NextBatch(st) && st.pending.vals == map[]
    requires cfg.toolsAvailable && call.tool in cfg.sensitive
    ensures NodeExecuteSubtask(cfg, p, Insists(call)) ==
            Paused(Asking(p.task.id, call), ApprovalInfo(Pending, p.task.id, call.tool, call.arguments))
  {
    SentIsDue(cfg, st, p);
    assert p.task.specialist in SPECIALISTS;
    InsistingAsks(BranchAccess(cfg, p), call, Asking(p.task.id, call));
  }

  ghost function AskingBranches(cfg: Config, st: GraphState, call: ToolCall): seq<Branch> {
    Branches(cfg, NextBatch(st), Uniform(NextBatch(st), Insists(call)))
  }

  lemma AskedAt(cfg: Config, st: GraphState, call: ToolCall, id: string)
    requires StateInv(cfg, st) && IsDue(st, id) && st.pending.vals == map[]
    requires cfg.toolsAvailable && call.tool in cfg.sensitive
    requires Compatible(PendingUpdates(AskingBranches(cfg, st, call)))
    ensures var after := AfterExecute(st, AskingBranches(cfg, st, call)).pending.vals;
            Asking(id, call) in after && after[Asking(id, call)].status.Pending?
  {
    var batch := NextBatch(st);
    DueIsSent(cfg, st, id);
    var i :| 0 <= i < |batch| && batch[i].task.id == id;
    AskingBranch(cfg, st, batch[i], call);
    PendingAt(st, AskingBranches(cfg, st, call), Asking(id, call));
    assert Asks(AskingBranches(cfg, st, call), i, Asking(id, call));
  }

  /** Everything that is due asks about the same sensitive call. */
  lemma AllAsk(cfg: Config, st: GraphState, call: ToolCall)
    requires StateInv(cfg, st) && st.plan != [] && st.pending.vals == map[]
    requires cfg.toolsAvailable && call.tool in cfg.sensitive
    ensures var after := AfterExecute(st, AskingBranches(cfg, st, call));
            && after.results.vals == st.results.vals
            && forall id :: IsDue(st, id) ==>
                 Asking(id, call) in after.pending.vals && after.pending.vals[Asking(id, call)].status.Pending?
  {
    var batch := NextBatch(st);
    BatchDistinct(cfg, st);
    BranchesCompatible(cfg, batch, Uniform(batch, Insists(call)));
    forall i | 0 <= i < |batch| ensures AskingBranches(cfg, st, call)[i].Paused? {
      AskingBranch(cfg, st, batch[i], call);
    }
    NoFinishNoResult(st, AskingBranches(cfg, st, call));
    forall id | IsDue(st, id) {
      AskedAt(cfg, st, call, id);
    }
  }

  ghost predicate Waits(st: GraphState, id: string, call: ToolCall) {
    Asking(id, call) in st.pending.vals && st.pending.vals[Asking(id, call)].status.Pending?
  }

  /** At least `n` of the first three subtasks wait for a decision. */
  ghost predicate AtLeast(st: GraphState, plan: Plan, call: ToolCall, n: nat)
    requires |plan| >= 3
  {
    var w0, w1, w2 := Waits(st, plan[0].id, call), Waits(st, plan[1].id, call), Waits(st, plan[2].id, call);
    (if w0 then 1 else 0) + (if w1 then 1 else 0) + (if w2 then 1 else 0) >= n
  }

  lemma SomeoneWaits(st: GraphState, plan: Plan, call: ToolCall)
    requires |plan| >= 3 && AtLeast(st, plan, call, 1)
    ensures HasPending(st)
  {
  }

  /** One pass through the action gate settles one question at most. */
  lemma GateSettlesOne(st: GraphState, plan: Plan, call: ToolCall, n: nat, d: Decision)
    requires st.pending.Valid() && |plan| >= 3 && UniqueIds(plan) && AtLeast(st, plan, call, n + 1)
    ensures AtLeast(AfterActionDecision(st, d), plan, call, n)
  {
    SomeoneWaits(st, plan, call);
    ActionDecisionAt(st, d);
    assert plan[0].id != plan[1].id && plan[0].id != plan[2].id && plan[1].id != plan[2].id;
  }

  /** Every subtask of an independent plan without results is due. */
  lemma AllDue(cfg: Config, st: GraphState, id: string)
    requires StateInv(cfg, st) && Independent(st.plan) && st.results.vals == map[] && id in Ids(st.plan)
    ensures IsDue(st, id)
  {
    var i :| 0 <= i < |st.plan| && st.plan[i].id == id;
    DepsOfTask(st.plan, i);
  }

  lemma SendAll(cfg: Config, e: Execution, plan: Plan) returns (longer: Execution)
    requires IsExecution(cfg, e) && Independent(plan)
    requires Last(e).node.Dispatch? && Last(e).st.plan == plan && Last(e).st.results.vals == map[]
    ensures IsExecution(cfg, longer) && Last(longer) == Run(ExecuteBatch(NextBatch(Last(e).st)), Last(e).st)
  {
    Reachable(cfg, e, |e.inputs|);
    AllDue(cfg, Last(e).st, plan[0].id);
    DueIsSent(cfg, Last(e).st, plan[0].id);
    longer := Extended(cfg, e, Silent);
  }

  lemma AllWait(cfg: Config, st: GraphState, call: ToolCall)
    requires StateInv(cfg, st) && Independent(st.plan) && |st.plan| >= 3
    requires st.results.vals == map[] && st.pending.vals == map[]
    requires cfg.toolsAvailable && call.tool in cfg.sensitive
    ensures var after := AfterExecute(st, AskingBranches(cfg, st, call));
            after.results.vals == map[] && AtLeast(after, st.plan, call, 3)
  {
    AllAsk(cfg, st, call);
    forall i | 0 <= i < |st.plan| { AllDue(cfg, st, st.plan[i].id); }
  }

  lemma AskAll(cfg: Config, e: Execution, plan: Plan, call: ToolCall) returns (longer: Execution)
    requires IsExecution(cfg, e) && Independent(plan) && |plan| >= 3 && cfg.toolsAvailable && call.tool in cfg.sensitive
    requires Last(e).node.ExecuteBatch? && Last(e).st == PlannedState(plan)
    ensures IsExecution(cfg, longer) && Last(longer).node.ReviewBatch? && Last(longer).st.plan == plan
    ensures Last(longer).st.results.vals == map[] && AtLeast(Last(longer).st, plan, call, 3)
  {
    var r := Last(e);
    Reachable(cfg, e, |e.inputs|);
    AllWait(cfg, r.st, call);
    longer := Extended(cfg, e, Turns(Uniform(r.node.batch, Insists(call))));
  }

  ghost predicate QuestionsOpen(st: GraphState, plan: Plan, call: ToolCall, n: nat) {
    st.plan == plan && |plan| >= 3 && UniqueIds(plan) && AtLeast(st, plan, call, n)
  }

  /** While questions are open a review leads to the action gate, */
  lemma ReviewLeadsToGate(cfg: Config, e: Execution, plan: Plan, call: ToolCall, n: nat, reviews: map<string, Review>)
    returns (longer: Execution)
    requires IsExecution(cfg, e) && Last(e).node.ReviewBatch? && QuestionsOpen(Last(e).st, plan, call, n) && n > 0
    requires ReviewsFor(Last(e).st, reviews)
    ensures IsExecution(cfg, longer) && Last(longer) == Run(ActionApproval, AfterReview(Last(e).st, reviews))
    ensures QuestionsOpen(Last(longer).st, plan, call, n)
  {
    Reachable(cfg, e, |e.inputs|);
    var after := AfterReview(Last(e).st, reviews);
    assert after.pending == Last(e).st.pending;
    SomeoneWaits(after, plan, call);
    longer := Extended(cfg, e, Reviews(reviews));
  }

  /** which settles one of them. */
  lemma GateLeadsToDispatch(cfg: Config, e: Execution, plan: Plan, call: ToolCall, n: nat) returns (longer: Execution)
    requires IsExecution(cfg, e) && Last(e).node.ActionApproval? && QuestionsOpen(Last(e).st, plan, call, n + 1)
    ensures IsExecution(cfg, longer) && Last(longer).node.Dispatch? && QuestionsOpen(Last(longer).st, plan, call, n)
    ensures Last(longer).st.results == Last(e).st.results
  {
    var d := Decision(Reject, [], None);
    Reachable(cfg, e, |e.inputs|);
    FirstPendingExists(Last(e).st);
    GateSettlesOne(Last(e).st, plan, call, n, d);
    longer := Extended(cfg, e, Answered(d));
  }

  ghost predicate AllFinished(st: GraphState) {
    forall id :: id in Ids(st.plan) ==> id in st.results.vals && st.results.vals[id].status.Success?
  }

  lemma FinishAll(cfg: Config, e: Execution) returns (longer: Execution)
    requires IsExecution(cfg, e) && Last(e).node.ExecuteBatch?
    requires Independent(Last(e).st.plan) && Last(e).st.results.vals == map[]
    ensures IsExecution(cfg, longer) && Last(longer).node.ReviewBatch? && AllFinished(Last(longer).st)
    ensures Last(longer).st.plan == Last(e).st.plan && Last(longer).st.pending.vals == Last(e).st.pending.vals
    ensures Last(longer).st.failureDecisions == Last(e).st.failureDecisions
  {
    var r := Last(e);
    Reachable(cfg, e, |e.inputs|);
    AllFinish(cfg, r.st);
    forall id | id in Ids(r.st.plan) { AllDue(cfg, r.st, id); }
    longer := Extended(cfg, e, Turns(Uniform(r.node.batch, Finishes())));
  }

  function Praise(plan: Plan): map<string, Review> {
    map id | id in Ids(plan) :: Review(Scores(1.0, 1.0, 1.0, 1.0), "", Verdict.Accept)
  }

  lemma PraiseAccepts(result: SubtaskResult, made: nat)
    requires result.status.Success?
    ensures JudgedStatus(result, made, Review(Scores(1.0, 1.0, 1.0, 1.0), "", Verdict.Accept)).Accepted?
  {
  }

  lemma PraisedIsAccepted(cfg: Config, st: GraphState, id: string)
    requires StateInv(cfg, st) && AllFinished(st) && id in Ids(st.plan)
    ensures IsAccepted(AfterReview(st, Praise(st.plan)), id)
  {
    assert NeedsReview(st, id);
    PraiseAccepts(st.results.vals[id], Attempts(st, id) + 1);
    assert ReviewedResult(st, id, Praise(st.plan)[id]).status.Accepted?;
    ReviewedAt(cfg, st, Praise(st.plan), id);
  }

  /** Two rounds of the same batch: first everybody asks and one question is answered, then
      everybody finishes without the tool. */
  lemma FinishedWithQuestions(cfg: Config, plan: Plan, call: ToolCall) returns (e: Execution)
    requires Independent(plan) && |plan| >= 3 && cfg.toolsAvailable && call.tool in cfg.sensitive
    ensures IsExecution(cfg, e) && Last(e).node.ReviewBatch? && QuestionsOpen(Last(e).st, plan, call, 2)
    ensures AllFinished(Last(e).st)
  {
    e := StartWith(cfg, plan, {});
    e := SendAll(cfg, e, plan);
    e := AskAll(cfg, e, plan, call);
    var noReviews := Praise(plan);
    e := ReviewLeadsToGate(cfg, e, plan, call, 3, noReviews);
    assert Last(e).st.results.vals == map[];
    e := GateLeadsToDispatch(cfg, e, plan, call, 2);
    e := SendAll(cfg, e, plan);
    e := FinishAll(cfg, e);
  }

  ghost predicate AllAccepted(st: GraphState) {
    forall id :: id in Ids(st.plan) ==> IsAccepted(st, id)
  }

  /** The finished subtasks are praised, and the second question is answered. */
  lemma AcceptedWithQuestion(cfg: Config, e: Execution, plan: Plan, call: ToolCall) returns (longer: Execution)
    requires IsExecution(cfg, e) && Last(e).node.ReviewBatch? && QuestionsOpen(Last(e).st, plan, call, 2)
    requires AllFinished(Last(e).st)
    ensures IsExecution(cfg, longer) && Last(longer).node.Dispatch? && QuestionsOpen(Last(longer).st, plan, call, 1)
    ensures AllAccepted(Last(longer).st)
  {
    var reviewed := Last(e).st;
    Reachable(cfg, e, |e.inputs|);
    forall id | id in Ids(plan) { PraisedIsAccepted(cfg, reviewed, id); }
    longer := ReviewLeadsToGate(cfg, e, plan, call, 2, Praise(plan));
    longer := GateLeadsToDispatch(cfg, longer, plan, call, 1);
  }

  lemma NothingLeft(cfg: Config, e: Execution) returns (longer: Execution)
    requires IsExecution(cfg, e) && Last(e).node.Dispatch? && Last(e).st.plan != []
    requires forall id :: !IsDue(Last(e).st, id)
    ensures IsExecution(cfg, longer) && Last(longer) == Run(Synthesize, Last(e).st)
  {
    Reachable(cfg, e, |e.inputs|);
    SynthesisIffNothingDue(cfg, Last(e).st);
    longer := Extended(cfg, e, Silent);
  }

  /** Three independent subtasks ask for a decision, all three finish without the tool after
      the first one, the second is decided, and the run goes to synthesis with the third
      question open. */
  lemma QuestionLeftOpen(cfg: Config, plan: Plan, call: ToolCall) returns (e: Execution)
    requires Independent(plan) && |plan| >= 3 && cfg.toolsAvailable && call.tool in cfg.sensitive
    ensures IsExecution(cfg, e) && Last(e).node.Synthesize? && HasPending(Last(e).st) && Last(e).st.plan == plan
  {
    e := FinishedWithQuestions(cfg, plan, call);
    e := AcceptedWithQuestion(cfg, e, plan, call);
    SomeoneWaits(Last(e).st, plan, call);
    e := NothingLeft(cfg, e);
  }

  /** The reviewer gives every subtask up. */
  ghost predicate Dismisses(plan: Plan, reviews: map<string, Review>) {
    forall id :: id in Ids(plan) ==>
      id in reviews && reviews[id].verdict.Escalate? && reviews[id].scores.Overall() < THRESHOLD
  }

  lemma WorstReview() returns (raw: Review)
    ensures raw.verdict.Escalate? && raw.scores.Overall() < THRESHOLD
  {
    raw := Review(Scores(0.0, 0.0, 0.0, 0.0), "", Verdict.Escalate);
    assert raw.scores.Overall() == 0.0;
  }

  lemma SomeDismissal(plan: Plan) returns (reviews: map<string, Review>)
    ensures Dismisses(plan, reviews)
  {
    var raw := WorstReview();
    reviews := map id | id in Ids(plan) :: raw;
  }

  lemma DismissedIsEscalated(cfg: Config, st: GraphState, reviews: map<string, Review>, id: string)
    requires StateInv(cfg, st) && AllFinished(st) && id in Ids(st.plan)
    requires ReviewsFor(st, reviews) && Dismisses(st.plan, reviews)
    ensures IsEscalated(AfterReview(st, reviews), id)
  {
    assert NeedsReview(st, id);
    assert ReviewedResult(st, id, reviews[id]).status.Escalated?;
    ReviewedAt(cfg, st, reviews, id);
  }

  ghost predicate AllEscalated(st: GraphState) {
    forall id :: id in Ids(st.plan) ==> IsEscalated(st, id)
  }

  lemma EscalationsLeadToGate(cfg: Config, st: GraphState)
    requires AllEscalated(st) && st.plan != [] && cfg.hitlEnabled
    requires st.pending.vals == map[] && st.failureDecisions == map[]
    ensures RouteAfterReview(cfg, st) == FailureApproval
  {
    assert st.plan[0].id in Ids(st.plan) && IsUndecided(st, st.plan[0].id);
  }

  lemma AllDismissed(cfg: Config, st: GraphState, reviews: map<string, Review>)
    requires StateInv(cfg, st) && AllFinished(st) && ReviewsFor(st, reviews) && Dismisses(st.plan, reviews)
    ensures var after := AfterReview(st, reviews);
            && AllEscalated(after) && after.plan == st.plan
            && after.pending == st.pending && after.failureDecisions == st.failureDecisions
  {
    var after := AfterReview(st, reviews);
    forall id | id in Ids(st.plan) ensures IsEscalated(after, id) { DismissedIsEscalated(cfg, st, reviews, id); }
  }

  lemma EscalatingReview(cfg: Config, e: Execution) returns (longer: Execution)
    requires IsExecution(cfg, e) && Last(e).node.ReviewBatch? && AllFinished(Last(e).st) && Last(e).st.plan != []
    requires cfg.hitlEnabled && Last(e).st.pending.vals == map[] && Last(e).st.failureDecisions == map[]
    ensures IsExecution(cfg, longer) && Last(longer).node.FailureApproval? && Last(longer).st.plan == Last(e).st.plan
    ensures AllEscalated(Last(longer).st) && Last(longer).st.failureDecisions == map[]
  {
    var st := Last(e).st;
    var reviews := SomeDismissal(st.plan);
    Reachable(cfg, e, |e.inputs|);
    AllDismissed(cfg, st, reviews);
    EscalationsLeadToGate(cfg, AfterReview(st, reviews));
    longer := Extended(cfg, e, Reviews(reviews));
  }

  lemma AllEscalate(cfg: Config, plan: Plan) returns (e: Execution)
    requires Independent(plan) && cfg.hitlEnabled
    ensures IsExecution(cfg, e) && Last(e).node.FailureApproval? && Last(e).st.plan == plan
    ensures AllEscalated(Last(e).st) && Last(e).st.failureDecisions == map[]
  {
    e := StartWith(cfg, plan, {});
    e := SendAll(cfg, e, plan);
    e := FinishAll(cfg, e);
    e := EscalatingReview(cfg, e);
  }

  lemma FirstRejected(cfg: Config, e: Execution) returns (longer: Execution, target: string)
    requires IsExecution(cfg, e) && Last(e).node.FailureApproval? && AllEscalated(Last(e).st)
    requires Last(e).st.failureDecisions == map[]
    ensures IsExecution(cfg, longer) && Last(longer).node.Dispatch? && Last(longer).st.plan == Last(e).st.plan
    ensures AllEscalated(Last(longer).st) && Last(longer).st.failureDecisions == map[target := Reject]
  {
    var st, d := Last(e).st, Decision(Reject, [], None);
    Reachable(cfg, e, |e.inputs|);
    var some :| IsUndecided(st, some);
    FirstUndecidedExists(st, some);
    target := FirstUndecided(st).value;
    FailureDecisionAt(st, d, target);
    longer := Extended(cfg, e, Answered(d));
  }

  lemma EscalatedIsNotDue(st: GraphState)
    requires AllEscalated(st)
    ensures forall id :: !IsDue(st, id)
  {
  }

  /** Two independent subtasks escalate together, a human rejects the first, and the run goes
      to synthesis without anybody having been asked about the second. */
  lemma EscalationLeftUnanswered(cfg: Config, plan: Plan) returns (e: Execution, id: string)
    requires Independent(plan) && |plan| >= 2 && cfg.hitlEnabled
    ensures IsExecution(cfg, e) && Last(e).node.Synthesize? && IsUndecided(Last(e).st, id)
  {
    var target;
    e := AllEscalate(cfg, plan);
    e, target := FirstRejected(cfg, e);
    assert plan[0].id != plan[1].id && plan[0].id in Ids(plan) && plan[1].id in Ids(plan);
    id := if target == plan[0].id then plan[1].id else plan[0].id;
    EscalatedIsNotDue(Last(e).st);
    e := NothingLeft(cfg, e);
  }
}
