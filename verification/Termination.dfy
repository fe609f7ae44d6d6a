/** Decisions on sensitive actions are final and every run ends, unless an edited approval
    turns a call of the batch into one that was decided before. */
module Termination {
  import opened Dicts
  import opened Plans
  import opened Tools
  import opened Agents
  import opened Engine
  import opened Invariant
  import opened Steps
  import opened Runs

  ghost predicate IsDecided(st: GraphState, s: Signature) {
    s in st.pending.vals && !st.pending.vals[s].status.Pending?
  }

  // ------------------------------------------------------------ when a specialist asks again

  /** An approval whose edited arguments turn the call into one that is decided already. */
  ghost predicate Diverts(a: Access, s: Signature) {
    && a.available && s in a.approvals && a.approvals[s].status.Approved?
    && s.subtaskId == a.subtaskId && s.tool in a.sensitive
    && a.approvals[s].arguments != map[] && a.approvals[s].arguments != s.arguments
    && s.(arguments := a.approvals[s].arguments) in a.approvals
  }

  lemma {:induction false} ReopeningNeedsDiversion(a: Access, turns: seq<Turn>, i: nat, last: string)
    returns (s: Signature)
    requires |turns| == MAX_TOOL_ITERATIONS && i <= |turns| && OnlyDecided(a.approvals)
    requires Continue(a, turns, i, last).outcome.Awaits? && Continue(a, turns, i, last).outcome.signature in a.approvals
    ensures Diverts(a, s)
    decreases |turns| - i
  {
    var call := turns[i].toolCall.value;
    s := Signature(a.subtaskId, call.tool, call.arguments);
    if !a.available || !Invoke(a, call).NeedsDecision? {
      s := ReopeningNeedsDiversion(a, turns, i + 1, turns[i].observation);
    }
  }

  /** A specialist that calls one tool whatever it observes. */
  function Insists(call: ToolCall): (turns: seq<Turn>)
    ensures |turns| == MAX_TOOL_ITERATIONS
  {
    seq(MAX_TOOL_ITERATIONS, _ => Turn("", Some(call), None, ""))
  }

  function CallOf(s: Signature): ToolCall {
    ToolCall(s.tool, s.arguments)
  }

  lemma InsistingAsks(a: Access, call: ToolCall, asked: Signature)
    requires a.available && Invoke(a, call) == NeedsDecision(asked)
    ensures Continue(a, Insists(call), 0, "No output produced.") == SpecialistRun(Awaits(asked), [])
  {
    assert Insists(call)[0].toolCall == Some(call);
  }

  ghost predicate Reopens(a: Access, turns: seq<Turn>)
    requires |turns| == MAX_TOOL_ITERATIONS
  {
    var outcome := Continue(a, turns, 0, "No output produced.").outcome;
    outcome.Awaits? && outcome.signature in a.approvals
  }

  /** A specialist can ask again for a signature that has been decided exactly when some
      approval was edited into one. */
  lemma ReopensIffDiverted(a: Access)
    requires OnlyDecided(a.approvals)
    ensures (exists turns: seq<Turn> :: |turns| == MAX_TOOL_ITERATIONS && Reopens(a, turns)) <==>
              exists s :: Diverts(a, s)
  {
    if turns: seq<Turn> :| |turns| == MAX_TOOL_ITERATIONS && Reopens(a, turns) {
      var s := ReopeningNeedsDiversion(a, turns, 0, "No output produced.");
    }
    if s :| Diverts(a, s) {
      InsistingAsks(a, CallOf(s), s.(arguments := a.approvals[s].arguments));
      assert Reopens(a, Insists(CallOf(s)));
    }
  }

  // ------------------------------------------------------------ finality

  ghost predicate BranchUndiverted(cfg: Config, p: Payload) {
    forall s :: !Diverts(BranchAccess(cfg, p), s)
  }

  /** No subtask of the batch holds an approval that was edited into a decided call. */
  ghost predicate Undiverted(cfg: Config, r: Run) {
    r.node.ExecuteBatch? ==> forall p :: p in r.node.batch ==> BranchUndiverted(cfg, p)
  }

  lemma BranchAsksUndecided(cfg: Config, st: GraphState, p: Payload, turns: seq<Turn>, s: Signature)
    requires |turns| == MAX_TOOL_ITERATIONS && p.approvals == DecidedApprovals(st)
    requires BranchUndiverted(cfg, p) && IsDecided(st, s)
    ensures SpecialistTrace(cfg, p, turns).outcome != Awaits(s)
  {
    if SpecialistTrace(cfg, p, turns).outcome == Awaits(s) {
      var t := ReopeningNeedsDiversion(BranchAccess(cfg, p), turns, 0, "No output produced.");
    }
  }

  lemma ExecuteAsksOnlyUndecided(cfg: Config, st: GraphState, batch: seq<Payload>, turns: seq<seq<Turn>>, s: Signature)
    requires StateInv(cfg, st) && st.plan != [] && batch == NextBatch(st) && TurnsFor(batch, turns)
    requires Undiverted(cfg, Run(ExecuteBatch(batch), st)) && IsDecided(st, s)
    ensures var after := AfterExecute(st, Branches(cfg, batch, turns)).pending.vals;
            s in after && after[s] == st.pending.vals[s]
  {
    BatchExact(cfg, st);
    BranchesCompatible(cfg, batch, turns);
    var branches := Branches(cfg, batch, turns);
    forall i | 0 <= i < |batch| ensures !Asks(branches, i, s) {
      assert batch[i] in batch;
      BranchAsksUndecided(cfg, st, batch[i], turns[i], s);
    }
    PendingAt(st, branches, s);
  }

  /** A step keeps every decision as it was taken, whatever is answered, unless a subtask of
      the batch is diverted. */
  lemma StepKeepsDecisions(cfg: Config, r: Run, inp: Input)
    requires Inv(cfg, r) && Enabled(cfg, r, inp) && Undiverted(cfg, r)
    ensures var after := Next(cfg, r, inp).st.pending.vals;
            forall s :: IsDecided(r.st, s) ==> s in after && after[s] == r.st.pending.vals[s]
  {
    match r.node
    case ExecuteBatch(batch) =>
      forall s | IsDecided(r.st, s)
        ensures var after := Next(cfg, r, inp).st.pending.vals; s in after && after[s] == r.st.pending.vals[s]
      {
        ExecuteAsksOnlyUndecided(cfg, r.st, batch, inp.turns, s);
      }
    case ActionApproval =>
      FirstPendingExists(r.st);
      ActionDecisionAt(r.st, inp.decision);
    case FailureApproval =>
      FailureKeepsRest(r.st, inp.decision);
    case _ =>
  }

  /** A stretch of a run, from any checkpoint the invariant allows, in which no batch is
      diverted. */
  ghost predicate UndivertedPath(cfg: Config, e: Execution) {
    IsPath(cfg, e) && Inv(cfg, e.runs[0]) && forall i :: 0 <= i < |e.inputs| ==> Undiverted(cfg, e.runs[i])
  }

  /** An approved or rejected signature keeps its decision to the end of the run. */
  lemma {:induction false} DecisionsAreFinal(cfg: Config, e: Execution, i: nat, j: nat, s: Signature)
    requires UndivertedPath(cfg, e) && i <= j < |e.runs| && IsDecided(e.runs[i].st, s)
    ensures s in e.runs[j].st.pending.vals && e.runs[j].st.pending.vals[s] == e.runs[i].st.pending.vals[s]
  {
    if i < j {
      DecisionsAreFinal(cfg, e, i, j - 1, s);
      PathKeepsInv(cfg, e, j - 1);
      assert IsStep(cfg, e, j - 1) && Undiverted(cfg, e.runs[j - 1]);
      StepKeepsDecisions(cfg, e.runs[j - 1], e.inputs[j - 1]);
    }
  }

  lemma {:induction false} ToolRunsAreCleared(cfg: Config, batch: seq<Payload>, turns: seq<seq<Turn>>, n: nat,
                                              s: Signature)
    requires TurnsFor(batch, turns) && n <= |batch| && ToolRan(s) in ExecuteEvents(cfg, batch, turns, n)
    requires s.tool in cfg.sensitive
    ensures exists p :: p in batch && s in p.approvals && p.approvals[s].status.Approved?
  {
    if ToolRan(s) in BranchEvents(cfg, batch[n - 1], turns[n - 1]) {
      assert s in SpecialistTrace(cfg, batch[n - 1], turns[n - 1]).ran;
      SpecialistIsGated(BranchAccess(cfg, batch[n - 1]), turns[n - 1], 0, "No output produced.");
      assert batch[n - 1] in batch;
    } else {
      ToolRunsAreCleared(cfg, batch, turns, n - 1, s);
    }
  }

  /** In any reachable state a sensitive tool runs only under an approval that the state
      holds for exactly that call. */
  lemma RunsOnlyApproved(cfg: Config, r: Run, inp: Input, s: Signature)
    requires Inv(cfg, r) && Enabled(cfg, r, inp) && ToolRan(s) in Events(cfg, r, inp) && s.tool in cfg.sensitive
    ensures s in r.st.pending.vals && r.st.pending.vals[s].status.Approved?
  {
    if r.node.ExecuteBatch? {
      ToolRunsAreCleared(cfg, r.node.batch, inp.turns, |r.node.batch|, s);
      BatchExact(cfg, r.st);
    } else {
      NoToolEvents(cfg, r, inp);
    }
  }

  lemma NoToolEvents(cfg: Config, r: Run, inp: Input)
    requires Enabled(cfg, r, inp) && !r.node.ExecuteBatch?
    ensures forall x :: x in Events(cfg, r, inp) ==> !x.ToolRan?
  {
    if r.node.ReviewBatch? {
      ReviewEventsAreJudgements(r.st, inp.reviews, |r.st.plan|);
    }
  }

  lemma {:induction false} ReviewEventsAreJudgements(st: GraphState, reviews: map<string, Review>, n: nat)
    requires ReviewsFor(st, reviews) && n <= |st.plan|
    ensures forall x :: x in ReviewEvents(st, reviews, n) ==> x.Judged?
  {
    if n > 0 {
      ReviewEventsAreJudgements(st, reviews, n - 1);
    }
  }

  /** A rejected call never runs again. */
  lemma RejectedNeverRuns(cfg: Config, e: Execution, i: nat, j: nat, s: Signature)
    requires UndivertedPath(cfg, e) && i <= j < |e.inputs|
    requires s in e.runs[i].st.pending.vals && e.runs[i].st.pending.vals[s].status.Rejected?
    ensures IsStep(cfg, e, j) && ToolRan(s) !in Events(cfg, e.runs[j], e.inputs[j])
  {
    DecisionsAreFinal(cfg, e, i, j, s);
    PathKeepsInv(cfg, e, j);
    assert IsStep(cfg, e, j);
    if ToolRan(s) in Events(cfg, e.runs[j], e.inputs[j]) {
      assert s.tool in cfg.sensitive;
      RunsOnlyApproved(cfg, e.runs[j], e.inputs[j], s);
    }
  }

  // ------------------------------------------------------------ termination

  ghost function RankSum(st: GraphState, plan: Plan, n: nat): nat
    requires n <= |plan|
  {
    if n == 0 then 0 else RankSum(st, plan, n - 1) + Rank(SlotOf(st, plan[n - 1].id))
  }

  lemma {:induction false} RankSumDrops(before: GraphState, after: GraphState, plan: Plan, n: nat)
    requires Advances(before, after) && n <= |plan|
    ensures RankSum(after, plan, n) <= RankSum(before, plan, n) <= 7 * n
    ensures (exists i :: 0 <= i < n && Rank(SlotOf(after, plan[i].id)) < Rank(SlotOf(before, plan[i].id))) ==>
              RankSum(after, plan, n) < RankSum(before, plan, n)
  {
    if n > 0 {
      RankSumDrops(before, after, plan, n - 1);
    }
  }

  /** The signatures of `all` that no human has decided. */
  ghost function Open(all: set<Signature>, st: GraphState): set<Signature> {
    set s | s in all && !IsDecided(st, s)
  }

  ghost function Work(all: set<Signature>, st: GraphState): nat {
    RankSum(st, st.plan, |st.plan|) + |Open(all, st)|
  }

  function Weight(node: Node): nat {
    match node
    case Supervisor => 6
    case PlanApproval => 5
    case Dispatch => 4
    case ExecuteBatch(_) => 3
    case ReviewBatch => 2
    case End => 0
    case _ => 1
  }

  /** Falls with every super-step. */
  ghost function Measure(all: set<Signature>, r: Run): nat {
    5 * (if r.node.Supervisor? || r.node.PlanApproval? then 7 * MAX_SUBTASKS + |all| else Work(all, r.st))
    + Weight(r.node)
  }

  lemma MeasureFalls(all: set<Signature>, r: Run, next: Run, work: nat, nextWork: nat)
    requires !r.node.Supervisor? && !r.node.PlanApproval? && !next.node.Supervisor? && !next.node.PlanApproval?
    requires work == Work(all, r.st) && nextWork == Work(all, next.st)
    requires nextWork < work || (nextWork <= work && Weight(next.node) < Weight(r.node))
    ensures Measure(all, next) < Measure(all, r)
  {
  }

  lemma SubsetSmaller<T>(a: set<T>, b: set<T>)
    requires a <= b
    ensures |a| <= |b| && (a != b ==> |a| < |b|)
  {
    var rest := b - a;
    assert b == a + rest;
  }

  lemma WorkBounded(cfg: Config, all: set<Signature>, st: GraphState)
    requires StateInv(cfg, st)
    ensures Work(all, st) <= 7 * MAX_SUBTASKS + |all|
  {
    RankSumDrops(st, st, st.plan, |st.plan|);
    SubsetSmaller(Open(all, st), all);
  }

  /** Work never grows once there is a plan; it falls when a slot moves or a signature is
      decided. */
  lemma WorkDrops(cfg: Config, all: set<Signature>, before: GraphState, after: GraphState)
    requires Advances(before, after) && after.plan == before.plan
    requires forall s :: IsDecided(before, s) ==> IsDecided(after, s)
    ensures Work(all, after) <= Work(all, before)
    ensures (exists i :: 0 <= i < |before.plan| &&
               Rank(SlotOf(after, before.plan[i].id)) < Rank(SlotOf(before, before.plan[i].id)))
            ==> Work(all, after) < Work(all, before)
    ensures (exists s :: s in all && IsDecided(after, s) && !IsDecided(before, s)) ==>
              Work(all, after) < Work(all, before)
  {
    RankSumDrops(before, after, before.plan, |before.plan|);
    SubsetSmaller(Open(all, after), Open(all, before));
    forall s | s in all && IsDecided(after, s) && !IsDecided(before, s) ensures Open(all, after) != Open(all, before) {
      assert s in Open(all, before) && s !in Open(all, after);
    }
  }

  lemma PlanIndex(cfg: Config, st: GraphState, id: string) returns (i: nat)
    requires StateInv(cfg, st) && id in st.results.vals
    ensures i < |st.plan| && st.plan[i].id == id
  {
    i :| 0 <= i < |st.plan| && st.plan[i].id == id;
  }

  lemma ReviewDrops(cfg: Config, all: set<Signature>, st: GraphState, reviews: map<string, Review>)
    requires StateInv(cfg, st) && ReviewsFor(st, reviews)
    ensures Work(all, AfterReview(st, reviews)) <= Work(all, st)
    ensures (exists id :: NeedsReview(st, id)) ==> Work(all, AfterReview(st, reviews)) < Work(all, st)
  {
    var after := AfterReview(st, reviews);
    ReviewAdvances(cfg, st, reviews);
    WorkDrops(cfg, all, st, after);
    if id :| NeedsReview(st, id) {
      var i := PlanIndex(cfg, st, id);
      ReviewSlot(cfg, st, reviews, id);
    }
  }

  lemma ActionDrops(cfg: Config, all: set<Signature>, st: GraphState, d: Decision)
    requires StateInv(cfg, st) && Settled(st) && HasPending(st) && forall s :: s in st.pending.vals ==> s in all
    ensures Work(all, AfterActionDecision(st, d)) < Work(all, st)
  {
    ActionDecisionAt(st, d);
    ActionKeepsState(cfg, st, d);
    var s := FirstPending(st).value;
    assert IsDecided(AfterActionDecision(st, d), s) && !IsDecided(st, s);
    WorkDrops(cfg, all, st, AfterActionDecision(st, d));
  }

  lemma FailureDrops(cfg: Config, all: set<Signature>, st: GraphState, d: Decision, id: string)
    requires StateInv(cfg, st) && FirstUndecided(st) == Some(id) && Advances(st, AfterFailureDecision(st, d))
    ensures Work(all, AfterFailureDecision(st, d)) < Work(all, st)
  {
    FailureKeepsRest(st, d);
    FailureSlot(cfg, st, d, id);
    var i := PlanIndex(cfg, st, id);
    WorkDrops(cfg, all, st, AfterFailureDecision(st, d));
  }

  lemma FailureStepDrops(cfg: Config, all: set<Signature>, r: Run, inp: Input)
    requires Inv(cfg, r) && r.node.FailureApproval? && Enabled(cfg, r, inp)
    ensures Measure(all, Next(cfg, r, inp)) < Measure(all, r)
  {
    var some :| IsUndecided(r.st, some);
    FirstUndecidedExists(r.st, some);
    FailureStep(cfg, r, inp);
    FailureDrops(cfg, all, r.st, inp.decision, FirstUndecided(r.st).value);
    var next := Next(cfg, r, inp);
    MeasureFalls(all, r, next, Work(all, r.st), Work(all, next.st));
  }

  lemma PlanStepDrops(cfg: Config, all: set<Signature>, r: Run, inp: Input)
    requires Inv(cfg, r) && r.node.PlanApproval? && Enabled(cfg, r, inp)
    ensures Measure(all, Next(cfg, r, inp)) < Measure(all, r)
  {
    OtherStep(cfg, r, inp);
    WorkBounded(cfg, all, Next(cfg, r, inp).st);
  }

  lemma ActionStepDrops(cfg: Config, all: set<Signature>, r: Run, inp: Input)
    requires Inv(cfg, r) && r.node.ActionApproval? && Enabled(cfg, r, inp)
    requires forall s :: s in r.st.pending.vals ==> s in all
    ensures Measure(all, Next(cfg, r, inp)) < Measure(all, r)
  {
    FirstPendingExists(r.st);
    var after := AfterActionDecision(r.st, inp.decision);
    ActionDrops(cfg, all, r.st, inp.decision);
    MeasureFalls(all, r, Run(Dispatch, after), Work(all, r.st), Work(all, after));
  }

  lemma ReviewStepDrops(cfg: Config, all: set<Signature>, r: Run, inp: Input)
    requires Inv(cfg, r) && r.node.ReviewBatch? && Enabled(cfg, r, inp)
    ensures Measure(all, Next(cfg, r, inp)) < Measure(all, r)
  {
    var after := AfterReview(r.st, inp.reviews);
    ReviewDrops(cfg, all, r.st, inp.reviews);
    assert after.pending == r.st.pending;
    assert HasPending(r.st) <==> HasPending(after);
    MeasureFalls(all, r, Run(RouteAfterReview(cfg, after), after), Work(all, r.st), Work(all, after));
  }

  lemma ExecuteDrops(cfg: Config, all: set<Signature>, st: GraphState, batch: seq<Payload>, turns: seq<seq<Turn>>)
    requires StateInv(cfg, st) && st.plan != [] && Settled(st) && batch == NextBatch(st) && TurnsFor(batch, turns)
    requires Undiverted(cfg, Run(ExecuteBatch(batch), st))
    ensures Work(all, AfterExecute(st, Branches(cfg, batch, turns))) <= Work(all, st)
  {
    var after := AfterExecute(st, Branches(cfg, batch, turns));
    ExecuteAdvances(cfg, st, batch, turns);
    forall s | IsDecided(st, s) ensures IsDecided(after, s) {
      ExecuteAsksOnlyUndecided(cfg, st, batch, turns, s);
    }
    WorkDrops(cfg, all, st, after);
  }

  lemma ExecuteStepDrops(cfg: Config, all: set<Signature>, r: Run, inp: Input)
    requires Inv(cfg, r) && r.node.ExecuteBatch? && Enabled(cfg, r, inp) && Undiverted(cfg, r)
    ensures Measure(all, Next(cfg, r, inp)) < Measure(all, r)
  {
    ExecuteFalls(cfg, all, r.st, r.node.batch, inp.turns);
  }

  lemma ExecuteFalls(cfg: Config, all: set<Signature>, st: GraphState, batch: seq<Payload>, turns: seq<seq<Turn>>)
    requires StateInv(cfg, st) && st.plan != [] && Settled(st) && batch == NextBatch(st) && TurnsFor(batch, turns)
    requires Undiverted(cfg, Run(ExecuteBatch(batch), st))
    ensures Measure(all, Run(ReviewBatch, AfterExecute(st, Branches(cfg, batch, turns)))) <
            Measure(all, Run(ExecuteBatch(batch), st))
  {
    var after := AfterExecute(st, Branches(cfg, batch, turns));
    ExecuteDrops(cfg, all, st, batch, turns);
    MeasureFalls(all, Run(ExecuteBatch(batch), st), Run(ReviewBatch, after), Work(all, st), Work(all, after));
  }

  lemma OtherStepDrops(cfg: Config, all: set<Signature>, r: Run, inp: Input)
    requires Inv(cfg, r) && Enabled(cfg, r, inp)
    requires r.node.Supervisor? || r.node.Dispatch? || r.node.Synthesize?
    ensures Measure(all, Next(cfg, r, inp)) < Measure(all, r)
  {
    if !r.node.Supervisor? {
      var next := Next(cfg, r, inp);
      assert next.st == r.st.(finalResponse := next.st.finalResponse);
      OtherStep(cfg, r, inp);
      WorkDrops(cfg, all, r.st, next.st);
      MeasureFalls(all, r, next, Work(all, r.st), Work(all, next.st));
    }
  }

  /** Each super-step lowers the measure, unless a subtask of its batch is diverted. */
  lemma MeasureDrops(cfg: Config, all: set<Signature>, r: Run, inp: Input)
    requires Inv(cfg, r) && Enabled(cfg, r, inp) && Undiverted(cfg, r)
    requires forall s :: s in r.st.pending.vals ==> s in all
    ensures Measure(all, Next(cfg, r, inp)) < Measure(all, r)
  {
    match r.node
    case PlanApproval => PlanStepDrops(cfg, all, r, inp);
    case ExecuteBatch(_) => ExecuteStepDrops(cfg, all, r, inp);
    case ReviewBatch => ReviewStepDrops(cfg, all, r, inp);
    case ActionApproval => ActionStepDrops(cfg, all, r, inp);
    case FailureApproval => FailureStepDrops(cfg, all, r, inp);
    case _ => OtherStepDrops(cfg, all, r, inp);
  }

  /** All signatures that a run ever asks a human about lie in `all`. */
  ghost predicate AsksWithin(e: Execution, all: set<Signature>) {
    forall i, s :: 0 <= i < |e.runs| && s in e.runs[i].st.pending.vals ==> s in all
  }

  lemma {:induction false} MeasureBoundsSteps(cfg: Config, e: Execution, all: set<Signature>, i: nat)
    requires UndivertedPath(cfg, e) && AsksWithin(e, all) && i < |e.runs|
    ensures i + Measure(all, e.runs[i]) <= Measure(all, e.runs[0])
  {
    if i > 0 {
      MeasureBoundsSteps(cfg, e, all, i - 1);
      PathKeepsInv(cfg, e, i - 1);
      assert IsStep(cfg, e, i - 1) && Undiverted(cfg, e.runs[i - 1]);
      MeasureDrops(cfg, all, e.runs[i - 1], e.inputs[i - 1]);
    }
  }

  /** Whatever LLMs, tools and humans answer, from any checkpoint: if no batch is diverted and
      humans are only ever asked about the calls in `all`, the run is over after at most
      5 * (84 + |all|) + 6 super-steps. */
  lemma EveryRunEnds(cfg: Config, e: Execution, all: set<Signature>)
    requires UndivertedPath(cfg, e) && AsksWithin(e, all)
    ensures |e.inputs| <= 5 * (84 + |all|) + 6
  {
    MeasureBoundsSteps(cfg, e, all, |e.inputs|);
    WorkBounded(cfg, all, e.runs[0].st);
  }

  /** And it only ends at the end: any other checkpoint has a next step. */
  lemma NeverStuck(cfg: Config, r: Run) returns (inp: Input)
    requires Inv(cfg, r) && !r.node.End?
    ensures Enabled(cfg, r, inp)
  {
    if r.node.PlanApproval? || r.node.ActionApproval? || r.node.FailureApproval? {
      inp := if Gated(cfg, r) then Answered(Decision(Unspecified, [], None)) else Silent;
    } else if r.node.Supervisor? {
      inp := Proposals(ProposedPlan([], 0.0), ProposedPlan([], 0.0));
    } else if r.node.ExecuteBatch? {
      inp := Turns(seq(|r.node.batch|, _ => seq(MAX_TOOL_ITERATIONS, _ => Raises(""))));
    } else if r.node.ReviewBatch? {
      inp := Reviews(map id | id in Ids(r.st.plan) :: Review(Scores(0.0, 0.0, 0.0, 0.0), "", Verdict.Retry));
    } else if r.node.Synthesize? && !KeepsFinalResponse(r.st) {
      inp := Text("");
    } else {
      inp := Silent;
    }
  }

  // ------------------------------------------------------------ harmless edits

  ghost predicate Approves(d: Decision) {
    d.action.Approve? || d.action.Modify?
  }

  /** If this step approves a sensitive call, its edits change nothing; a rejection's
      arguments are ignored anyway. */
  ghost predicate HarmlessInput(r: Run, inp: Input)
    requires r.st.pending.Valid()
  {
    r.node.ActionApproval? && inp.Answered? && FirstPending(r.st).Some? && Approves(inp.decision) ==>
      HarmlessEdit(inp.decision.arguments, r.st.pending.vals[FirstPending(r.st).value].arguments)
  }

  ghost predicate HarmlessPath(cfg: Config, e: Execution) {
    && IsPath(cfg, e)
    && forall i :: 0 <= i < |e.inputs| ==> e.runs[i].st.pending.Valid() && HarmlessInput(e.runs[i], e.inputs[i])
  }

  lemma ExecuteKeepsUnedited(cfg: Config, st: GraphState, batch: seq<Payload>, turns: seq<seq<Turn>>)
    requires StateInv(cfg, st) && st.plan != [] && batch == NextBatch(st) && TurnsFor(batch, turns)
    requires Unedited(st.pending.vals)
    ensures Unedited(AfterExecute(st, Branches(cfg, batch, turns)).pending.vals)
  {
    BatchExact(cfg, st);
    BranchesCompatible(cfg, batch, turns);
    var branches := Branches(cfg, batch, turns);
    var after := AfterExecute(st, branches).pending.vals;
    forall s | s in after && after[s].status.Approved?
      ensures after[s].arguments == map[] || after[s].arguments == s.arguments
    {
      PendingAt(st, branches, s);
      if i :| Asks(branches, i, s) {
        BranchFacts(cfg, batch[i], turns[i]);
      }
    }
  }

  lemma ActionKeepsUnedited(st: GraphState, d: Decision)
    requires st.pending.Valid() && HasPending(st) && Unedited(st.pending.vals)
    requires FirstPending(st).Some?
    requires st.pending.vals[FirstPending(st).value].arguments == FirstPending(st).value.arguments
    requires Approves(d) ==> HarmlessEdit(d.arguments, st.pending.vals[FirstPending(st).value].arguments)
    ensures Unedited(AfterActionDecision(st, d).pending.vals)
  {
    ActionDecisionAt(st, d);
  }

  lemma StepKeepsUnedited(cfg: Config, r: Run, inp: Input)
    requires Inv(cfg, r) && Enabled(cfg, r, inp) && HarmlessInput(r, inp) && Unedited(r.st.pending.vals)
    ensures Unedited(Next(cfg, r, inp).st.pending.vals)
  {
    match r.node
    case ExecuteBatch(batch) => ExecuteKeepsUnedited(cfg, r.st, batch, inp.turns);
    case ActionApproval =>
      FirstPendingExists(r.st);
      ActionKeepsUnedited(r.st, inp.decision);
    case FailureApproval => FailureKeepsRest(r.st, inp.decision);
    case _ =>
  }

  lemma HarmlessStep(cfg: Config, e: Execution, i: nat)
    requires HarmlessPath(cfg, e) && Inv(cfg, e.runs[0]) && i < |e.inputs| && Unedited(e.runs[i].st.pending.vals)
    ensures Unedited(e.runs[i + 1].st.pending.vals)
  {
    PathKeepsInv(cfg, e, i);
    assert IsStep(cfg, e, i);
    StepKeepsUnedited(cfg, e.runs[i], e.inputs[i]);
  }

  lemma {:induction false} StaysUnedited(cfg: Config, e: Execution, i: nat)
    requires HarmlessPath(cfg, e) && Inv(cfg, e.runs[0]) && Unedited(e.runs[0].st.pending.vals) && i < |e.runs|
    ensures Unedited(e.runs[i].st.pending.vals)
  {
    if i > 0 {
      StaysUnedited(cfg, e, i - 1);
      HarmlessStep(cfg, e, i - 1);
    }
  }

  /** As long as the humans' edits are harmless no batch is ever diverted, so decisions are
      final and the run ends. */
  lemma HarmlessIsUndiverted(cfg: Config, e: Execution)
    requires HarmlessPath(cfg, e) && Inv(cfg, e.runs[0]) && Unedited(e.runs[0].st.pending.vals)
    ensures UndivertedPath(cfg, e)
  {
    forall i | 0 <= i < |e.inputs| ensures Undiverted(cfg, e.runs[i]) {
      StaysUnedited(cfg, e, i);
      PathKeepsInv(cfg, e, i);
      if e.runs[i].node.ExecuteBatch? {
        BatchExact(cfg, e.runs[i].st);
      }
    }
  }
}
