/** The run engine of graph/build.py: the channels of `GraphState`, one function or method
    per node, and the edges of `_build_graph` as a step function. What an LLM, a tool or a
    human answers is the step's input. */
module Engine {
  import opened Dicts
  import opened Plans
  import opened Tools
  import opened Agents
  import opened Gates
  import Table = Approvals

  const MAX_SUBTASK_ATTEMPTS := 2
  const LOW_CONFIDENCE_THRESHOLD: real := 0.6

  datatype Status = Success | Error | Accepted | RetryDue | Escalated

  datatype SubtaskResult =
    SubtaskResult(subtaskId: string, content: string, status: Status, error: Option<string>, retryCount: nat)

  datatype FinalResponse = ModifiedPlanInvalid | TakenOver | PlanRejected | Synthesized(text: string)

  datatype GraphState = GraphState(
    plan: Plan,
    planConfidence: real,
    results: Dict<string, SubtaskResult>,
    attempts: map<string, nat>,
    feedback: map<string, string>,
    pending: Dict<Signature, ApprovalInfo>,
    failureDecisions: map<string, Action>,
    humanTakeover: bool,
    finalResponse: Option<FinalResponse>)

  /** `initial_state` of worker/tasks.py; absent channels read as empty, confidence as 1.0. */
  function InitialState(): GraphState {
    GraphState([], 1.0, Empty(), map[], map[], Empty(), map[], false, None)
  }

  datatype Config = Config(taskId: string, hitlEnabled: bool, toolsAvailable: bool, sensitive: set<string>)

  /** What a Send to execute_subtask carries. */
  datatype Payload = Payload(task: Subtask, approvals: Approvals, feedback: Option<string>)

  datatype Node =
    | Supervisor | PlanApproval | Dispatch | ExecuteBatch(batch: seq<Payload>) | ReviewBatch
    | ActionApproval | FailureApproval | Synthesize | End

  /** A checkpoint: the state and the node that runs next. */
  datatype Run = Run(node: Node, st: GraphState)

  function InitialRun(): Run {
    Run(Supervisor, InitialState())
  }

  datatype ProposedPlan = ProposedPlan(tasks: Plan, confidence: real)

  /** The answer of a human; an absent plan is the empty plan, which is falsy too. */
  datatype Decision = Decision(action: Action, plan: Plan, arguments: Option<Arguments>)

  datatype Input =
    | Silent
    | Proposals(first: ProposedPlan, second: ProposedPlan)
    | Answered(decision: Decision)
    | Turns(turns: seq<seq<Turn>>)
    | Reviews(reviews: map<string, Review>)
    | Text(text: string)

  /** A result the writer is told not to rely on; no error text is the empty string. */
  datatype Note = Note(subtaskId: string, status: Status, error: string)

  /** What the outside world sees of a step; only `HumanAnswered` belongs to none, it is what
      was stored as a human's answer to what a gate had shown. */
  datatype Event =
    | ToolRan(signature: Signature)
    | Produced(subtaskId: string, content: string)
    | Judged(subtaskId: string, content: string, score: Option<real>, status: Status)
    | ActionDecided(signature: Signature, approved: bool)
    | FailureDecided(subtaskId: string, content: string, action: Action)
    | WriterBriefed(parts: seq<(string, string)>, notes: seq<Note>)
    | HumanAnswered(context: Context, resolution: Table.Resolution)

  // ------------------------------------------------------------ supervisor and plan gate

  ghost function AfterSupervisor(st: GraphState, first: ProposedPlan, second: ProposedPlan): GraphState {
    if ValidPlan(first.tasks) then st.(plan := first.tasks, planConfidence := first.confidence)
    else if ValidPlan(second.tasks) then st.(plan := second.tasks, planConfidence := second.confidence)
    else st.(plan := [])
  }

  method NodeSupervisor(st: GraphState, first: ProposedPlan, second: ProposedPlan) returns (next: GraphState)
    ensures next == AfterSupervisor(st, first, second)
    ensures ValidPlan(first.tasks) ==> next == st.(plan := first.tasks, planConfidence := first.confidence)
    ensures !ValidPlan(first.tasks) && ValidPlan(second.tasks) ==>
              next == st.(plan := second.tasks, planConfidence := second.confidence)
    ensures !ValidPlan(first.tasks) && !ValidPlan(second.tasks) ==> next == st.(plan := [])
  {
    NoErrorsIffValid(first.tasks);
    NoErrorsIffValid(second.tasks);
    var proposed := first;
    var errors := ValidatePlan(first.tasks);
    if errors != [] {
      assert errors[0] in errors;
      proposed := second;
      errors := ValidatePlan(second.tasks);
      if errors != [] {
        assert errors[0] in errors;
        return st.(plan := []);
      }
    }
    next := st.(plan := proposed.tasks, planConfidence := proposed.confidence);
  }

  predicate PlanGateAsks(cfg: Config, st: GraphState) {
    cfg.hitlEnabled && st.plan != [] && st.planConfidence < LOW_CONFIDENCE_THRESHOLD
  }

  ghost function AfterPlanDecision(st: GraphState, d: Decision): GraphState {
    var modified := if d.plan != [] then d.plan else st.plan;
    match d.action
    case Unspecified => st
    case Approve => st
    case Modify =>
      if ValidPlan(modified) then st.(plan := modified)
      else st.(plan := [], finalResponse := Some(ModifiedPlanInvalid))
    case TakeOver => st.(plan := [], humanTakeover := true, finalResponse := Some(TakenOver))
    case _ => st.(plan := [], finalResponse := Some(PlanRejected))
  }

  method ApplyPlanDecision(st: GraphState, d: Decision) returns (next: GraphState)
    ensures next == AfterPlanDecision(st, d)
    ensures d.action.Unspecified? || d.action.Approve? ==> next == st
    ensures d.action.Modify? && d.plan != [] && ValidPlan(d.plan) ==> next == st.(plan := d.plan)
    ensures d.action.Modify? && d.plan == [] && ValidPlan(st.plan) ==> next == st
    ensures d.action.Modify? && !ValidPlan(if d.plan != [] then d.plan else st.plan) ==>
              next == st.(plan := [], finalResponse := Some(ModifiedPlanInvalid))
    ensures d.action.TakeOver? ==> next == st.(plan := [], humanTakeover := true, finalResponse := Some(TakenOver))
    ensures d.action.Reject? || d.action.Retry? || d.action.Unrecognised? ==>
              next == st.(plan := [], finalResponse := Some(PlanRejected))
  {
    if d.action.Unspecified? || d.action.Approve? {
      return st;
    }
    if d.action.Modify? {
      var modified := if d.plan != [] then d.plan else st.plan;
      NoErrorsIffValid(modified);
      var errors := ValidatePlan(modified);
      if errors != [] {
        assert errors[0] in errors;
        return st.(plan := [], finalResponse := Some(ModifiedPlanInvalid));
      }
      return st.(plan := modified);
    }
    if d.action.TakeOver? {
      return st.(plan := [], humanTakeover := true, finalResponse := Some(TakenOver));
    }
    next := st.(plan := [], finalResponse := Some(PlanRejected));
  }

  // ------------------------------------------------------------ dispatch

  predicate IsAccepted(st: GraphState, id: string) {
    id in st.results.vals && st.results.vals[id].status.Accepted?
  }

  predicate IsReady(st: GraphState, t: Subtask) {
    t.id !in st.results.vals && forall d :: d in t.dependencies ==> IsAccepted(st, d)
  }

  predicate IsRetryDue(st: GraphState, id: string) {
    id in st.results.vals && st.results.vals[id].status.RetryDue?
  }

  function DecidedApprovals(st: GraphState): Approvals {
    map s | s in st.pending.vals && !st.pending.vals[s].status.Pending? :: st.pending.vals[s]
  }

  function ExecutePayload(st: GraphState, task: Subtask): Payload {
    Payload(task, DecidedApprovals(st), None)
  }

  /** The sends for new work among the first `n` plan entries. */
  function ReadySends(st: GraphState, n: nat): seq<Payload>
    requires n <= |st.plan|
  {
    if n == 0 then []
    else ReadySends(st, n - 1) +
         if IsReady(st, st.plan[n - 1]) then [ExecutePayload(st, st.plan[n - 1])] else []
  }

  function FindTask(plan: Plan, id: string): Option<Subtask> {
    if plan == [] then None
    else if plan[0].id == id then Some(plan[0])
    else FindTask(plan[1..], id)
  }

  function RetrySend(st: GraphState, id: string): seq<Payload> {
    if !IsRetryDue(st, id) then []
    else
      match FindTask(st.plan, id)
      case None => []
      case Some(task) =>
        [ExecutePayload(st, task).(feedback := if id in st.feedback then Some(st.feedback[id]) else None)]
  }

  /** The sends for retries among the first `n` results, in the order of the results dict. */
  function RetrySends(st: GraphState, n: nat): seq<Payload>
    requires n <= |st.results.keys|
  {
    if n == 0 then [] else RetrySends(st, n - 1) + RetrySend(st, st.results.keys[n - 1])
  }

  function NextBatch(st: GraphState): seq<Payload> {
    ReadySends(st, |st.plan|) + RetrySends(st, |st.results.keys|)
  }

  function RouteNext(st: GraphState): Node {
    if st.plan != [] && NextBatch(st) != [] then ExecuteBatch(NextBatch(st)) else Synthesize
  }

  method RouteNextSubtasks(st: GraphState) returns (next: Node)
    requires st.results.Valid()
    ensures next == RouteNext(st)
  {
    if st.plan == [] {
      return Synthesize;
    }
    var sends: seq<Payload> := [];
    for n := 0 to |st.plan|
      invariant sends == ReadySends(st, n)
    {
      if IsReady(st, st.plan[n]) {
        sends := sends + [ExecutePayload(st, st.plan[n])];
      }
    }
    ghost var ready := sends;
    for n := 0 to |st.results.keys|
      invariant sends == ready + RetrySends(st, n)
    {
      var id := st.results.keys[n];
      Associative(ready, RetrySends(st, n), RetrySend(st, id));
      if st.results.vals[id].status.RetryDue? {
        var found := FindTask(st.plan, id);
        if found.Some? {
          var payload := ExecutePayload(st, found.value);
          payload := payload.(feedback := if id in st.feedback then Some(st.feedback[id]) else None);
          sends := sends + [payload];
        }
      }
    }
    next := if sends != [] then ExecuteBatch(sends) else Synthesize;
  }

  // ------------------------------------------------------------ execution

  /** The update of one execute_subtask branch. */
  datatype Branch = Finished(result: SubtaskResult) | Paused(signature: Signature, info: ApprovalInfo)

  function BranchAccess(cfg: Config, p: Payload): Access {
    Access(cfg.toolsAvailable, cfg.sensitive, p.task.id, p.approvals)
  }

  function SpecialistTrace(cfg: Config, p: Payload, turns: seq<Turn>): SpecialistRun
    requires |turns| == MAX_TOOL_ITERATIONS
  {
    if p.task.specialist !in SPECIALISTS then
      SpecialistRun(Crash("Specialist " + p.task.specialist + " not found"), [])
    else Continue(BranchAccess(cfg, p), turns, 0, "No output produced.")
  }

  function NodeExecuteSubtask(cfg: Config, p: Payload, turns: seq<Turn>): Branch
    requires |turns| == MAX_TOOL_ITERATIONS
  {
    match SpecialistTrace(cfg, p, turns).outcome
    case Answer(content) => Finished(SubtaskResult(p.task.id, content, Success, None, 0))
    case Crash(error) => Finished(SubtaskResult(p.task.id, "", Error, Some(error), 0))
    case Awaits(s) => Paused(s, ApprovalInfo(Pending, p.task.id, s.tool, s.arguments))
  }

  ghost predicate TurnsFor(batch: seq<Payload>, turns: seq<seq<Turn>>) {
    |turns| == |batch| && forall i :: 0 <= i < |turns| ==> |turns[i]| == MAX_TOOL_ITERATIONS
  }

  ghost function Branches(cfg: Config, batch: seq<Payload>, turns: seq<seq<Turn>>): (r: seq<Branch>)
    requires TurnsFor(batch, turns)
    ensures |r| == |batch|
    ensures forall i :: 0 <= i < |batch| ==> r[i] == NodeExecuteSubtask(cfg, batch[i], turns[i])
  {
    seq(|batch|, i requires 0 <= i < |batch| => NodeExecuteSubtask(cfg, batch[i], turns[i]))
  }

  function ResultsOf(b: Branch): Dict<string, SubtaskResult> {
    if b.Finished? then Single(b.result.subtaskId, b.result) else Empty()
  }

  function PendingOf(b: Branch): Dict<Signature, ApprovalInfo> {
    if b.Paused? then Single(b.signature, b.info) else Empty()
  }

  function ResultUpdates(branches: seq<Branch>): (r: seq<Dict<string, SubtaskResult>>)
    ensures |r| == |branches| && forall i :: 0 <= i < |r| ==> r[i] == ResultsOf(branches[i])
  {
    seq(|branches|, i requires 0 <= i < |branches| => ResultsOf(branches[i]))
  }

  function PendingUpdates(branches: seq<Branch>): (r: seq<Dict<Signature, ApprovalInfo>>)
    ensures |r| == |branches| && forall i :: 0 <= i < |r| ==> r[i] == PendingOf(branches[i])
  {
    seq(|branches|, i requires 0 <= i < |branches| => PendingOf(branches[i]))
  }

  /** The fan-in: the reducers merge what the branches wrote. */
  function AfterExecute(st: GraphState, branches: seq<Branch>): GraphState {
    st.(results := MergeAll(st.results, ResultUpdates(branches)),
        pending := MergeAll(st.pending, PendingUpdates(branches)))
  }

  // ------------------------------------------------------------ review

  predicate NeedsReview(st: GraphState, id: string) {
    id in st.results.vals && (st.results.vals[id].status.Success? || st.results.vals[id].status.Error?)
  }

  function Attempts(st: GraphState, id: string): nat {
    if id in st.attempts then st.attempts[id] else 0
  }

  function JudgedStatus(result: SubtaskResult, attemptsMade: nat, raw: Review): Status {
    var again := if attemptsMade < MAX_SUBTASK_ATTEMPTS then RetryDue else Escalated;
    if result.status.Error? then again
    else
      match Checked(raw).verdict
      case Accept => Accepted
      case Retry => again
      case _ => Escalated
  }

  function ErrorText(error: Option<string>): string {
    "The previous attempt failed with: " + (if error.Some? then error.value else "None") + ". Try a different approach."
  }

  function ReviewFeedback(result: SubtaskResult, attemptsMade: nat, raw: Review): Option<string> {
    if !result.status.Error? then Some(raw.feedback)
    else if attemptsMade < MAX_SUBTASK_ATTEMPTS then Some(ErrorText(result.error))
    else None
  }

  /** The subtasks of the plan whose latest result has not been reviewed. */
  function ReviewedIds(st: GraphState): set<string> {
    set t | t in st.plan && NeedsReview(st, t.id) :: t.id
  }

  function ReviewedResult(st: GraphState, id: string, raw: Review): SubtaskResult
    requires NeedsReview(st, id)
  {
    var made := Attempts(st, id) + 1;
    st.results.vals[id].(status := JudgedStatus(st.results.vals[id], made, raw), retryCount := made)
  }

  ghost predicate ReviewsFor(st: GraphState, reviews: map<string, Review>) {
    forall t :: t in st.plan ==> t.id in reviews
  }

  /** What the review writes for the subtasks in `ids`; a crash that will not be retried
      leaves no feedback. */
  ghost function ReviewedResults(st: GraphState, reviews: map<string, Review>, ids: set<string>)
    : map<string, SubtaskResult>
  {
    map id | id in ids && id in reviews && NeedsReview(st, id) :: ReviewedResult(st, id, reviews[id])
  }

  ghost function ReviewedFeedback(st: GraphState, reviews: map<string, Review>, ids: set<string>): map<string, string> {
    map id | id in ids && id in reviews && NeedsReview(st, id) && FeedbackFor(st, id, reviews[id]).Some?
      :: FeedbackFor(st, id, reviews[id]).value
  }

  function FeedbackFor(st: GraphState, id: string, raw: Review): Option<string>
    requires NeedsReview(st, id)
  {
    ReviewFeedback(st.results.vals[id], Attempts(st, id) + 1, raw)
  }

  ghost function ReviewedAttempts(st: GraphState, ids: set<string>): map<string, nat> {
    map id | id in ids && NeedsReview(st, id) :: Attempts(st, id) + 1
  }

  ghost function AfterReview(st: GraphState, reviews: map<string, Review>): GraphState {
    var ids := ReviewedIds(st);
    st.(results := Dict(st.results.keys, st.results.vals + ReviewedResults(st, reviews, ids)),
        feedback := st.feedback + ReviewedFeedback(st, reviews, ids),
        attempts := st.attempts + ReviewedAttempts(st, ids))
  }

  /** The body of the loop in `node_review` for one unreviewed result. A crash or a weak review
      that does not escalate earns a retry below two attempts; only an answer that the
      reviewer did not send back and scored at least 0.75 is accepted. */
  method JudgeResult(result: SubtaskResult, made: nat, raw: Review)
    returns (judged: SubtaskResult, feedback: Option<string>)
    ensures judged.subtaskId == result.subtaskId && judged.content == result.content && judged.error == result.error
    ensures judged.retryCount == made
    ensures judged.status.Accepted? <==>
              && !result.status.Error? && raw.scores.Overall() >= 0.75
              && (raw.verdict.Accept? || raw.verdict.Escalate?)
    ensures judged.status.RetryDue? <==>
              made < 2
              && (|| result.status.Error? || raw.verdict.Retry?
                  || (raw.verdict.Accept? && raw.scores.Overall() < 0.75))
    ensures judged.status.Accepted? || judged.status.RetryDue? || judged.status.Escalated?
    ensures feedback.None? <==> result.status.Error? && made >= 2
    ensures feedback.Some? ==>
              feedback.value ==
              if result.status.Error? then
                "The previous attempt failed with: " + (if result.error.Some? then result.error.value else "None")
                + ". Try a different approach."
              else raw.feedback
  {
    if result.status.Error? {
      if made < MAX_SUBTASK_ATTEMPTS {
        return result.(status := RetryDue, retryCount := made), Some(ErrorText(result.error));
      }
      return result.(status := Escalated, retryCount := made), None;
    }
    var review := Checked(raw);
    var status := Escalated;
    if review.verdict.Accept? {
      status := Accepted;
    } else if review.verdict.Retry? && made < MAX_SUBTASK_ATTEMPTS {
      status := RetryDue;
    }
    return result.(status := status, retryCount := made), Some(review.feedback);
  }

  ghost function ReviewedPrefix(st: GraphState, n: nat): set<string>
    requires n <= |st.plan|
  {
    set i | 0 <= i < n && NeedsReview(st, st.plan[i].id) :: st.plan[i].id
  }

  lemma ResultsOneMore(st: GraphState, reviews: map<string, Review>, ids: set<string>, id: string)
    requires NeedsReview(st, id) && id in reviews
    ensures ReviewedResults(st, reviews, ids + {id}) ==
            ReviewedResults(st, reviews, ids)[id := ReviewedResult(st, id, reviews[id])]
  {
  }

  lemma FeedbackOneMore(st: GraphState, reviews: map<string, Review>, ids: set<string>, id: string)
    requires NeedsReview(st, id) && id in reviews
    ensures var note, before := FeedbackFor(st, id, reviews[id]), ReviewedFeedback(st, reviews, ids);
            ReviewedFeedback(st, reviews, ids + {id}) == if note.Some? then before[id := note.value] else before
  {
  }

  lemma AttemptsOneMore(st: GraphState, ids: set<string>, id: string)
    requires NeedsReview(st, id)
    ensures ReviewedAttempts(st, ids + {id}) == ReviewedAttempts(st, ids)[id := Attempts(st, id) + 1]
  {
  }

  /** The three dicts that `node_review` fills. */
  datatype ReviewUpdate =
    ReviewUpdate(results: Dict<string, SubtaskResult>, feedback: map<string, string>, attempts: map<string, nat>)

  ghost predicate Covers(st: GraphState, reviews: map<string, Review>, ids: set<string>, u: ReviewUpdate) {
    && (forall k :: k in u.results.keys ==> k in st.results.vals)
    && u.results.vals == ReviewedResults(st, reviews, ids)
    && u.feedback == ReviewedFeedback(st, reviews, ids)
    && u.attempts == ReviewedAttempts(st, ids)
  }

  /** The body of the loop in `node_review`. */
  method ReviewTask(st: GraphState, reviews: map<string, Review>, ghost ids: set<string>, id: string, u: ReviewUpdate)
    returns (next: ReviewUpdate)
    requires NeedsReview(st, id) && id in reviews && Covers(st, reviews, ids, u)
    ensures Covers(st, reviews, ids + {id}, next)
  {
    ResultsOneMore(st, reviews, ids, id);
    FeedbackOneMore(st, reviews, ids, id);
    AttemptsOneMore(st, ids, id);
    var made := Attempts(st, id) + 1;
    var judged, note := JudgeResult(st.results.vals[id], made, reviews[id]);
    assert judged == ReviewedResult(st, id, reviews[id]) && note == FeedbackFor(st, id, reviews[id]);
    MergeSingle(u.results, id, judged);
    next := ReviewUpdate(Merge(u.results, Single(id, judged)),
                         if note.Some? then u.feedback[id := note.value] else u.feedback,
                         u.attempts[id := made]);
  }

  function ApplyReview(st: GraphState, u: ReviewUpdate): GraphState {
    st.(results := Merge(st.results, u.results), feedback := st.feedback + u.feedback,
        attempts := st.attempts + u.attempts)
  }

  lemma CoveringAll(st: GraphState, reviews: map<string, Review>, u: ReviewUpdate)
    requires Covers(st, reviews, ReviewedIds(st), u)
    ensures ApplyReview(st, u) == AfterReview(st, reviews)
  {
    assert NewKeys(st.results.vals, u.results.keys) == [];
  }

  lemma CoversNothing(st: GraphState, reviews: map<string, Review>)
    ensures Covers(st, reviews, {}, ReviewUpdate(Empty(), map[], map[])) && ReviewedPrefix(st, 0) == {}
  {
  }

  lemma PrefixGrows(st: GraphState, n: nat)
    requires n < |st.plan|
    ensures ReviewedPrefix(st, n + 1) ==
            if NeedsReview(st, st.plan[n].id) then ReviewedPrefix(st, n) + {st.plan[n].id} else ReviewedPrefix(st, n)
  {
  }

  lemma PrefixComplete(st: GraphState)
    ensures ReviewedPrefix(st, |st.plan|) == ReviewedIds(st)
  {
  }

  /** The loop of `node_review`, followed by the reducers. */
  method NodeReview(st: GraphState, reviews: map<string, Review>) returns (next: GraphState)
    requires ReviewsFor(st, reviews)
    ensures next == AfterReview(st, reviews)
  {
    var u := ReviewUpdate(Empty(), map[], map[]);
    ghost var ids := {};
    CoversNothing(st, reviews);
    for n := 0 to |st.plan|
      invariant ids == ReviewedPrefix(st, n) && Covers(st, reviews, ids, u)
    {
      var id := st.plan[n].id;
      PrefixGrows(st, n);
      if NeedsReview(st, id) {
        u := ReviewTask(st, reviews, ids, id, u);
        ids := ids + {id};
      }
    }
    PrefixComplete(st);
    CoveringAll(st, reviews, u);
    next := ApplyReview(st, u);
  }

  predicate HasPending(st: GraphState) {
    exists s :: s in st.pending.vals && st.pending.vals[s].status.Pending?
  }

  predicate IsUndecided(st: GraphState, id: string) {
    id in st.results.vals && st.results.vals[id].status.Escalated? && id !in st.failureDecisions
  }

  function RouteAfterReview(cfg: Config, st: GraphState): Node {
    if HasPending(st) then ActionApproval
    else if cfg.hitlEnabled && exists id :: id in st.results.vals && IsUndecided(st, id) then FailureApproval
    else Dispatch
  }

  // ------------------------------------------------------------ approval gates

  /** The first pending entry in insertion order, from position `i`. */
  function FirstPending(st: GraphState, i: nat := 0): (r: Option<Signature>)
    requires st.pending.Valid()
    ensures r.Some? ==> r.value in st.pending.vals && st.pending.vals[r.value].status.Pending?
    ensures r.None? ==> forall j :: i <= j < |st.pending.keys| ==> !st.pending.vals[st.pending.keys[j]].status.Pending?
    decreases |st.pending.keys| - i
  {
    if i >= |st.pending.keys| then None
    else if st.pending.vals[st.pending.keys[i]].status.Pending? then Some(st.pending.keys[i])
    else FirstPending(st, i + 1)
  }

  /** The first escalated subtask without a decision, from position `i`. */
  function FirstUndecided(st: GraphState, i: nat := 0): (r: Option<string>)
    requires st.results.Valid()
    ensures r.Some? ==> IsUndecided(st, r.value)
    ensures r.None? ==> forall j :: i <= j < |st.results.keys| ==> !IsUndecided(st, st.results.keys[j])
    decreases |st.results.keys| - i
  {
    if i >= |st.results.keys| then None
    else if IsUndecided(st, st.results.keys[i]) then Some(st.results.keys[i])
    else FirstUndecided(st, i + 1)
  }

  function AfterActionDecision(st: GraphState, d: Decision): GraphState
    requires st.pending.Valid()
  {
    match FirstPending(st)
    case None => st
    case Some(s) =>
      st.(pending := Merge(st.pending, Single(s, ApplyActionDecision(d.action, d.arguments, st.pending.vals[s]))))
  }

  function AfterFailureDecision(st: GraphState, d: Decision): GraphState
    requires st.results.Valid()
  {
    match FirstUndecided(st)
    case None => st
    case Some(id) =>
      match d.action
      case Approve =>
        st.(results := Merge(st.results, Single(id, st.results.vals[id].(status := Accepted))),
            failureDecisions := st.failureDecisions[id := Approve])
      case Retry =>
        st.(results := Merge(st.results, Single(id, st.results.vals[id].(status := RetryDue))),
            failureDecisions := st.failureDecisions[id := Action.Retry])
      case _ => st.(failureDecisions := st.failureDecisions[id := Reject])
  }

  // ------------------------------------------------------------ synthesis

  predicate KeepsFinalResponse(st: GraphState) {
    st.finalResponse.Some? && st.results.keys == []
  }

  /** The (id, content) parts of the first `n` results whose status (`usable`) or content
      qualifies them. */
  function Parts(st: GraphState, usable: bool, n: nat): seq<(string, string)>
    requires st.results.Valid() && n <= |st.results.keys|
  {
    if n == 0 then []
    else
      var r := st.results.vals[st.results.keys[n - 1]];
      Parts(st, usable, n - 1) +
      if (if usable then r.status.Accepted? else r.content != "") then [(st.results.keys[n - 1], r.content)] else []
  }

  /** The notes on the unusable ones among the first `n` results. */
  function Notes(st: GraphState, n: nat): seq<Note>
    requires st.results.Valid() && n <= |st.results.keys|
  {
    if n == 0 then []
    else
      var r := st.results.vals[st.results.keys[n - 1]];
      Notes(st, n - 1) +
      if r.status.Accepted? then []
      else [Note(st.results.keys[n - 1], r.status, if r.error.Some? then r.error.value else "")]
  }

  function WriterNotes(st: GraphState): seq<Note>
    requires st.results.Valid()
  {
    Notes(st, |st.results.keys|)
  }

  function WriterParts(st: GraphState): seq<(string, string)>
    requires st.results.Valid()
  {
    var accepted := Parts(st, true, |st.results.keys|);
    if accepted != [] then accepted else Parts(st, false, |st.results.keys|)
  }

  function AfterSynthesize(st: GraphState, text: string): GraphState {
    st.(finalResponse := Some(Synthesized(text)))
  }

  // ------------------------------------------------------------ steps

  ghost predicate Gated(cfg: Config, r: Run)
    requires r.st.pending.Valid() && r.st.results.Valid()
  {
    match r.node
    case PlanApproval => PlanGateAsks(cfg, r.st)
    case ActionApproval => FirstPending(r.st).Some?
    case FailureApproval => FirstUndecided(r.st).Some?
    case _ => false
  }

  /** The payload of the interrupt at the gate that `r` stands at. */
  ghost function Asked(cfg: Config, r: Run): GatePayload
    requires r.st.pending.Valid() && r.st.results.Valid() && Gated(cfg, r)
  {
    match r.node
    case PlanApproval => PlanPayload(cfg.taskId, r.st.planConfidence, r.st.plan)
    case ActionApproval =>
      var s := FirstPending(r.st).value;
      var info := r.st.pending.vals[s];
      ActionPayload(cfg.taskId, Signature(info.subtaskId, info.tool, info.arguments), s)
    case FailureApproval =>
      var id := FirstUndecided(r.st).value;
      FailurePayload(cfg.taskId, id, r.st.results.vals[id].error,
                     if id in r.st.attempts then r.st.attempts[id] else MAX_SUBTASK_ATTEMPTS)
  }

  /** `inp` is an input the next node of `r` can take. */
  ghost predicate Enabled(cfg: Config, r: Run, inp: Input) {
    && r.st.pending.Valid() && r.st.results.Valid()
    && match r.node
       case Supervisor => inp.Proposals?
       case Dispatch => inp.Silent?
       case ExecuteBatch(batch) => inp.Turns? && TurnsFor(batch, inp.turns)
       case ReviewBatch => inp.Reviews? && ReviewsFor(r.st, inp.reviews)
       case Synthesize => if KeepsFinalResponse(r.st) then inp.Silent? else inp.Text?
       case End => false
       case _ => if Gated(cfg, r) then inp.Answered? else inp.Silent?
  }

  /** One super-step: the node runs, its update is merged, the edge picks the next node. */
  ghost function Next(cfg: Config, r: Run, inp: Input): Run
    requires Enabled(cfg, r, inp)
  {
    match r.node
    case Supervisor => Run(PlanApproval, AfterSupervisor(r.st, inp.first, inp.second))
    case PlanApproval => Run(Dispatch, if inp.Answered? then AfterPlanDecision(r.st, inp.decision) else r.st)
    case Dispatch => Run(RouteNext(r.st), r.st)
    case ExecuteBatch(batch) => Run(ReviewBatch, AfterExecute(r.st, Branches(cfg, batch, inp.turns)))
    case ReviewBatch =>
      var st := AfterReview(r.st, inp.reviews);
      Run(RouteAfterReview(cfg, st), st)
    case ActionApproval => Run(Dispatch, if inp.Answered? then AfterActionDecision(r.st, inp.decision) else r.st)
    case FailureApproval => Run(Dispatch, if inp.Answered? then AfterFailureDecision(r.st, inp.decision) else r.st)
    case Synthesize => Run(End, if inp.Text? then AfterSynthesize(r.st, inp.text) else r.st)
  }

  /** One branch: the tools it ran and the content it produced, if any. */
  function BranchEvents(cfg: Config, p: Payload, turns: seq<Turn>): seq<Event>
    requires |turns| == MAX_TOOL_ITERATIONS
  {
    var trace := SpecialistTrace(cfg, p, turns);
    seq(|trace.ran|, i requires 0 <= i < |trace.ran| => ToolRan(trace.ran[i])) +
    if trace.outcome.Answer? then [Produced(p.task.id, trace.outcome.content)] else []
  }

  ghost function ExecuteEvents(cfg: Config, batch: seq<Payload>, turns: seq<seq<Turn>>, n: nat): seq<Event>
    requires TurnsFor(batch, turns) && n <= |batch|
  {
    if n == 0 then [] else ExecuteEvents(cfg, batch, turns, n - 1) + BranchEvents(cfg, batch[n - 1], turns[n - 1])
  }

  ghost function ReviewEvents(st: GraphState, reviews: map<string, Review>, n: nat): seq<Event>
    requires ReviewsFor(st, reviews) && n <= |st.plan|
  {
    if n == 0 then []
    else
      var id := st.plan[n - 1].id;
      ReviewEvents(st, reviews, n - 1) +
      if !NeedsReview(st, id) then []
      else
        var result := st.results.vals[id];
        var score := if result.status.Error? then None else Some(reviews[id].scores.Overall());
        [Judged(id, result.content, score, ReviewedResult(st, id, reviews[id]).status)]
  }

  ghost function Events(cfg: Config, r: Run, inp: Input): seq<Event>
    requires Enabled(cfg, r, inp)
  {
    match r.node
    case ExecuteBatch(batch) => ExecuteEvents(cfg, batch, inp.turns, |batch|)
    case ReviewBatch => ReviewEvents(r.st, inp.reviews, |r.st.plan|)
    case ActionApproval =>
      if inp.Silent? then []
      else
        var s := FirstPending(r.st).value;
        [ActionDecided(s, ApplyActionDecision(inp.decision.action, None, r.st.pending.vals[s]).status.Approved?)]
    case FailureApproval =>
      if inp.Silent? then []
      else
        var id := FirstUndecided(r.st).value;
        [FailureDecided(id, r.st.results.vals[id].content, inp.decision.action)]
    case Synthesize => if inp.Silent? then [] else [WriterBriefed(WriterParts(r.st), WriterNotes(r.st))]
    case _ => []
  }
}
