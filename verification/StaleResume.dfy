/** A schedule in which a redelivered `resume_task` lets a sensitive tool run that no human was
    asked about: what happens without the comparison that Redelivery.Matched stands for.
    A subtask asks for a call `x`; the run pauses, and a human approves the row of `x`. The
    resume is delivered, `x` runs, and the subtask asks for another call `y`; the run pauses
    again. Now the queue redelivers the resume of `x`: it finds the checkpoint at the gate of
    `y`, its approval passes that gate, and `y` runs. No two deliveries overlap, and nobody
    was ever asked about `y`. */
module StaleResume {
  import opened Dicts
  import opened Plans
  import opened Tools
  import opened Gates
  import opened Agents
  import opened Engine
  import opened Invariant
  import opened Steps
  import opened Runs
  import opened Termination
  import opened Scenarios
  import opened Resolutions
  import opened Driver
  import opened Provenance
  import Approvals

  /** All that humans were ever asked about is the call `x`. */
  ghost predicate OnlyAbout(log: seq<Event>, x: Signature) {
    forall c, r :: HumanAnswered(c, r) in log ==> c == ActionContext(x, x)
  }

  /** The latest checkpoint is `r`. */
  ghost predicate Latest(w: World, r: Run) {
    w.commits != [] && w.commits[|w.commits| - 1].runs != [] && Last(w.commits[|w.commits| - 1]) == r
  }

  /** Deliveries have never overlapped. */
  ghost predicate Serial(h: History) {
    |h.worlds| == |h.moves| + 1 && OneAtATime(h, |h.moves|)
  }

  /** The schedule with one more move, still one delivery at a time. */
  lemma SerialMove(cfg: Config, h: History, m: Move) returns (longer: History)
    requires IsSchedule(cfg, h) && Serial(h) && Allowed(cfg, Now(h), m)
    requires m.RunTask? || m.ResumeTask? ==> Now(h).workers == map[]
    ensures IsSchedule(cfg, longer) && Serial(longer) && Now(longer) == Do(cfg, Now(h), m)
  {
    longer := Moved(cfg, h, m);
    forall i | 0 <= i < |longer.moves| && (longer.moves[i].RunTask? || longer.moves[i].ResumeTask?)
      ensures longer.worlds[i].workers == map[]
    {
      assert i < |h.moves| ==> longer.moves[i] == h.moves[i] && longer.worlds[i] == h.worlds[i];
    }
  }

  /** The only worker at work is `n`, and it stands at the latest checkpoint. */
  ghost predicate Standing(cfg: Config, h: History, n: nat, r: Run, resume: Option<Resume>, x: Signature) {
    && IsSchedule(cfg, h) && Serial(h) && OnlyAbout(Now(h).log, x) && Latest(Now(h), r)
    && Now(h).workers == map[n := Worker(Now(h).commits[|Now(h).commits| - 1], false, resume)]
  }

  /** Nobody is at work. */
  ghost predicate Resting(cfg: Config, h: History, r: Run, x: Signature) {
    IsSchedule(cfg, h) && Serial(h) && OnlyAbout(Now(h).log, x) && Latest(Now(h), r) && Now(h).workers == map[]
  }

  lemma StepsAnswerNothing(cfg: Config, r: Run, inp: Input)
    requires Enabled(cfg, r, inp)
    ensures forall x :: x in Events(cfg, r, inp) ==> !x.HumanAnswered?
  {
    match r.node
    case ExecuteBatch(batch) => ExecutionJudgesNothing(cfg, batch, inp.turns, |batch|);
    case ReviewBatch => ReviewEventsAreJudgements(r.st, inp.reviews, |r.st.plan|);
    case _ =>
  }

  lemma TakeStep(cfg: Config, h: History, n: nat, r: Run, resume: Option<Resume>, x: Signature, inp: Input)
    returns (longer: History)
    requires Standing(cfg, h, n, r, resume, x) && CanTake(cfg, Now(h).workers[n], inp)
    ensures Standing(cfg, longer, n, Next(cfg, r, inp), if Gated(cfg, r) then None else resume, x)
    ensures Now(longer).rows == Now(h).rows && Now(longer).log == Now(h).log + Events(cfg, r, inp)
  {
    longer := SerialMove(cfg, h, SuperStep(n, inp, Events(cfg, r, inp)));
    StepsAnswerNothing(cfg, r, inp);
  }

  lemma PathStep(cfg: Config, e: Execution, j: nat)
    requires IsPath(cfg, e) && Unanswered(e.inputs) && j < |e.inputs|
    ensures Enabled(cfg, e.runs[j], e.inputs[j]) && !Gated(cfg, e.runs[j])
    ensures e.runs[j + 1] == Next(cfg, e.runs[j], e.inputs[j])
  {
    assert IsStep(cfg, e, j);
  }

  lemma DriveOne(cfg: Config, h: History, n: nat, resume: Option<Resume>, x: Signature, e: Execution, j: nat)
    returns (longer: History)
    requires IsPath(cfg, e) && Unanswered(e.inputs) && j < |e.inputs| && Standing(cfg, h, n, e.runs[j], resume, x)
    ensures Standing(cfg, longer, n, e.runs[j + 1], resume, x) && Now(longer).rows == Now(h).rows
    ensures Enabled(cfg, e.runs[j], e.inputs[j]) && Now(longer).log == Now(h).log + Events(cfg, e.runs[j], e.inputs[j])
  {
    PathStep(cfg, e, j);
    longer := TakeStep(cfg, h, n, e.runs[j], resume, x, e.inputs[j]);
  }

  /** The worker takes the steps of a path on which no gate asks anything. */
  lemma {:induction false} Drive(cfg: Config, h: History, n: nat, resume: Option<Resume>, x: Signature, e: Execution,
                               j: nat)
    returns (longer: History)
    requires IsPath(cfg, e) && Unanswered(e.inputs) && j < |e.runs| && Standing(cfg, h, n, e.runs[j], resume, x)
    ensures Standing(cfg, longer, n, Last(e), resume, x) && Now(longer).rows == Now(h).rows
    decreases |e.inputs| - j
  {
    if j < |e.inputs| {
      longer := DriveOne(cfg, h, n, resume, x, e, j);
      longer := Drive(cfg, longer, n, resume, x, e, j + 1);
    } else {
      longer := h;
    }
  }

  lemma Start(cfg: Config, x: Signature) returns (h: History)
    ensures Standing(cfg, h, 0, InitialRun(), None, x) && Now(h).rows == map[]
  {
    h := History([InitialWorld()], []);
    h := SerialMove(cfg, h, RunTask(0));
    h := SerialMove(cfg, h, CommitInput(0));
  }

  /** The graph pauses at a gate and the payload gets its row. */
  lemma PauseAt(cfg: Config, h: History, n: nat, r: Run, resume: Option<Resume>, x: Signature) returns (longer: History)
    requires Standing(cfg, h, n, r, resume, x) && RunWellFormed(r) && Gated(cfg, r)
    ensures Resting(cfg, longer, r, x) && Now(longer).rows == Approvals.Recorded(Now(h).rows, [Asked(cfg, r)])
  {
    longer := SerialMove(cfg, h, Pause(n));
  }

  /** What the decide endpoint stores for a plain approval. */
  function Approval(): Approvals.Resolution {
    Approvals.Dump(Approvals.ApprovalDecision("approve", None, None, None))
  }

  function RowId(cfg: Config, s: Signature): Approvals.ApprovalId {
    Approvals.IdOf(ActionPayload(cfg.taskId, s, s))
  }

  /** The row of `x` holds an approval. */
  ghost predicate ApprovedRow(cfg: Config, rows: Approvals.Rows, x: Signature) {
    && RowId(cfg, x) in rows
    && rows[RowId(cfg, x)].status == "approve" && rows[RowId(cfg, x)].resolution == Some(Approval())
  }

  lemma HumanApproves(cfg: Config, h: History, r: Run, x: Signature) returns (longer: History)
    requires Resting(cfg, h, r, x)
    requires RowId(cfg, x) in Now(h).rows
    requires Now(h).rows[RowId(cfg, x)] == Approvals.Row(ActionPayload(cfg.taskId, x, x), Approvals.PENDING, None)
    ensures Resting(cfg, longer, r, x) && ApprovedRow(cfg, Now(longer).rows, x)
  {
    longer := SerialMove(cfg, h, Decide(RowId(cfg, x), "approve", Approval()));
  }

  lemma ApprovalReads()
    ensures ReadDecision(Approval()) == Decision(Approve, [], None)
  {
    OnlyTheActionArrives(Approvals.ApprovalDecision("approve", None, None, None));
  }

  /** A delivery of `resume_task` for the row of `x`, the first or a later one: the approval
      passes whatever action gate the checkpoint stands at. */
  lemma Deliver(cfg: Config, h: History, n: nat, r: Run, x: Signature) returns (longer: History)
    requires Resting(cfg, h, r, x) && ApprovedRow(cfg, Now(h).rows, x) && Inv(cfg, r) && r.node.ActionApproval?
    ensures Enabled(cfg, r, Answered(Decision(Approve, [], None)))
    ensures Standing(cfg, longer, n, Next(cfg, r, Answered(Decision(Approve, [], None))), None, x)
    ensures Now(longer).rows == Now(h).rows
  {
    ApprovalReads();
    FirstPendingExists(r.st);
    longer := SerialMove(cfg, h, ResumeTask(n, RowId(cfg, x)));
    var resume := Some(Resume(RowId(cfg, x), Approval()));
    longer := TakeStep(cfg, longer, n, r, resume, x, Answered(Decision(Approve, [], None)));
  }

  // ------------------------------------------------------------ a specialist that wants two calls

  /** First the call `x`, then `y` again and again. */
  function Tries(x: Signature, y: Signature): (turns: seq<Turn>)
    ensures |turns| == MAX_TOOL_ITERATIONS
  {
    seq(MAX_TOOL_ITERATIONS, i => Turn("", Some(CallOf(if i == 0 then x else y)), None, ""))
  }

  ghost predicate ApprovedUnedited(st: GraphState, s: Signature) {
    s in st.pending.vals && st.pending.vals[s] == EntryFor(s).(status := Approved)
  }

  lemma ApprovedRuns(cfg: Config, st: GraphState, s: Signature)
    requires ApprovedUnedited(st, s)
    ensures Executor(cfg.sensitive, DecidedApprovals(st), s) == Ran(s)
  {
  }

  lemma TriesAsks(cfg: Config, st: GraphState, x: Signature, y: Signature)
    requires ApprovedUnedited(st, x) && y !in DecidedApprovals(st) && x.subtaskId == y.subtaskId
    requires cfg.toolsAvailable && y.tool in cfg.sensitive
    ensures SoloRun(cfg, st, x.subtaskId, Tries(x, y)).outcome == Awaits(y)
  {
    var a := Access(cfg.toolsAvailable, cfg.sensitive, x.subtaskId, DecidedApprovals(st));
    ApprovedRuns(cfg, st, x);
    assert Invoke(a, CallOf(x)) == Ran(x) && Invoke(a, CallOf(y)) == NeedsDecision(y);
    assert Continue(a, Tries(x, y), 1, "").outcome == Awaits(y);
  }

  lemma TriesRuns(cfg: Config, st: GraphState, x: Signature, y: Signature)
    requires ApprovedUnedited(st, x) && ApprovedUnedited(st, y) && x.subtaskId == y.subtaskId && cfg.toolsAvailable
    ensures y in SoloRun(cfg, st, x.subtaskId, Tries(x, y)).ran
  {
    var a := Access(cfg.toolsAvailable, cfg.sensitive, x.subtaskId, DecidedApprovals(st));
    ApprovedRuns(cfg, st, x);
    ApprovedRuns(cfg, st, y);
    assert Invoke(a, CallOf(x)) == Ran(x) && Invoke(a, CallOf(y)) == Ran(y);
    assert y in Continue(a, Tries(x, y), 1, "").ran;
  }

  lemma RanIsLogged(cfg: Config, p: Payload, turns: seq<Turn>, s: Signature)
    requires |turns| == MAX_TOOL_ITERATIONS && s in SpecialistTrace(cfg, p, turns).ran
    ensures ToolRan(s) in BranchEvents(cfg, p, turns)
  {
    var trace := SpecialistTrace(cfg, p, turns);
    var i :| 0 <= i < |trace.ran| && trace.ran[i] == s;
    assert BranchEvents(cfg, p, turns)[i] == ToolRan(s);
  }

  lemma SoloRunIsLogged(cfg: Config, st: GraphState, id: string, own: seq<Turn>, s: Signature)
    requires StateInv(cfg, st) && IsDue(st, id) && |own| == MAX_TOOL_ITERATIONS && s in SoloRun(cfg, st, id, own).ran
    ensures ToolRan(s) in ExecuteEvents(cfg, NextBatch(st), SoloTurns(NextBatch(st), id, own), |NextBatch(st)|)
  {
    var batch, turns := NextBatch(st), SoloTurns(NextBatch(st), id, own);
    DueIsSent(cfg, st, id);
    var k :| 0 <= k < |batch| && batch[k].task.id == id;
    SentIsDue(cfg, st, batch[k]);
    assert batch[k].task.specialist in SPECIALISTS;
    RanIsLogged(cfg, batch[k], turns[k], s);
    BranchIsLogged(cfg, batch, turns, |batch|, k, ToolRan(s));
  }

  // ------------------------------------------------------------ the schedule

  /** After the first gate: `x` is approved, as a human wanted, and its subtask is due. */
  ghost predicate XApproved(r: Run, x: Signature) {
    r.node.Dispatch? && IsDue(r.st, x.subtaskId) && ApprovedUnedited(r.st, x) && r.st.pending.vals.Keys == {x}
  }

  lemma FirstDelivery(cfg: Config, plan: Plan, x: Signature) returns (h: History, r: Run)
    requires ValidPlan(plan) && x.subtaskId in Layer(plan, {}) && cfg.toolsAvailable && x.tool in cfg.sensitive
    ensures Resting(cfg, h, r, x) && ApprovedRow(cfg, Now(h).rows, x)
    ensures Inv(cfg, r) && r.node.ActionApproval? && HasAsked(PlannedState(plan), r.st, x.subtaskId, x)
  {
    var e := FirstAsk(cfg, plan, x, {x});
    Reachable(cfg, e, 5);
    r := Last(e);
    FirstPendingExists(r.st);
    AskedFromGate(cfg, r);
    h := Start(cfg, x);
    h := Drive(cfg, h, 0, None, x, e, 0);
    h := PauseAt(cfg, h, 0, r, None, x);
    Approvals.RecordedOne(map[], ActionPayload(cfg.taskId, x, x));
    h := HumanApproves(cfg, h, r, x);
  }

  lemma GateApproves(cfg: Config, r: Run, s: Signature, id: string)
    requires Inv(cfg, r) && r.node.ActionApproval? && FirstPending(r.st) == Some(s) && IsDue(r.st, id)
    requires r.st.pending.vals[s] == EntryFor(s)
    ensures var inp := Answered(Decision(Approve, [], None));
            && Enabled(cfg, r, inp) && Inv(cfg, Next(cfg, r, inp)) && Next(cfg, r, inp).node.Dispatch?
            && IsDue(Next(cfg, r, inp).st, id)
            && Next(cfg, r, inp).st.pending.vals == r.st.pending.vals[s := EntryFor(s).(status := Approved)]
  {
    GateStep(cfg, r, Decision(Approve, [], None), id);
  }

  lemma RoundFor(cfg: Config, r: Run, x: Signature, y: Signature) returns (e: Execution, more: seq<Input>)
    requires Inv(cfg, r) && XApproved(r, x) && x != y && x.subtaskId == y.subtaskId
    requires cfg.toolsAvailable && y.tool in cfg.sensitive
    ensures IsPath(cfg, e) && e.runs[0] == r && Unanswered(e.inputs)
    ensures Last(e).node.ActionApproval? && HasAsked(r.st, Last(e).st, x.subtaskId, y)
  {
    TriesAsks(cfg, r.st, x, y);
    e, more := AskRound(cfg, Execution([r], []), x.subtaskId, Tries(x, y), y, {x, y});
  }

  /** The human's approval of `x` is delivered and passes its gate. */
  lemma FirstGatePassed(cfg: Config, plan: Plan, h: History, r: Run, x: Signature) returns (longer: History, r': Run)
    requires Resting(cfg, h, r, x) && ApprovedRow(cfg, Now(h).rows, x)
    requires Inv(cfg, r) && r.node.ActionApproval? && HasAsked(PlannedState(plan), r.st, x.subtaskId, x)
    ensures Standing(cfg, longer, 1, r', None, x) && Now(longer).rows == Now(h).rows && Inv(cfg, r') && XApproved(r', x)
  {
    FirstPendingExists(r.st);
    GateApproves(cfg, r, x, x.subtaskId);
    longer := Deliver(cfg, h, 1, r, x);
    r' := Next(cfg, r, Answered(Decision(Approve, [], None)));
  }

  /** The run stands at the gate of `y`, with `x` approved. */
  ghost predicate YAsked(r: Run, x: Signature, y: Signature) {
    && r.node.ActionApproval? && IsDue(r.st, x.subtaskId) && ApprovedUnedited(r.st, x)
    && r.st.pending.Valid() && FirstPending(r.st) == Some(y) && r.st.pending.vals[y] == EntryFor(y)
  }

  lemma OnlyYPending(cfg: Config, before: Run, r: Run, x: Signature, y: Signature)
    requires XApproved(before, x) && x != y && x.subtaskId == y.subtaskId && Inv(cfg, r)
    requires r.node.ActionApproval? && HasAsked(before.st, r.st, x.subtaskId, y)
    ensures YAsked(r, x, y)
  {
    FirstPendingExists(r.st);
    assert FirstPending(r.st).value in {x, y};
  }

  lemma PauseKeepsRow(cfg: Config, h: History, r: Run, x: Signature, y: Signature) returns (longer: History)
    requires Standing(cfg, h, 1, r, None, x) && Inv(cfg, r) && YAsked(r, x, y) && x != y
    requires ApprovedRow(cfg, Now(h).rows, x)
    ensures Resting(cfg, longer, r, x) && ApprovedRow(cfg, Now(longer).rows, x)
  {
    AskedFromGate(cfg, r);
    longer := PauseAt(cfg, h, 1, r, None, x);
    Approvals.RecordedOne(Now(h).rows, ActionPayload(cfg.taskId, y, y));
  }

  /** `x` runs, and the subtask asks for `y`. */
  lemma SecondDelivery(cfg: Config, plan: Plan, h: History, r: Run, x: Signature, y: Signature)
    returns (longer: History, r': Run)
    requires Resting(cfg, h, r, x) && ApprovedRow(cfg, Now(h).rows, x)
    requires Inv(cfg, r) && r.node.ActionApproval? && HasAsked(PlannedState(plan), r.st, x.subtaskId, x)
    requires x != y && x.subtaskId == y.subtaskId && cfg.toolsAvailable && y.tool in cfg.sensitive
    ensures Resting(cfg, longer, r', x) && ApprovedRow(cfg, Now(longer).rows, x) && Inv(cfg, r') && YAsked(r', x, y)
  {
    var next;
    longer, next := FirstGatePassed(cfg, plan, h, r, x);
    var e, more := RoundFor(cfg, next, x, y);
    longer := Drive(cfg, longer, 1, None, x, e, 0);
    r' := Last(e);
    PathKeepsInv(cfg, e, |e.inputs|);
    OnlyYPending(cfg, next, r', x, y);
    longer := PauseKeepsRow(cfg, longer, r', x, y);
  }

  /** Both calls are approved, one of them by nobody. */
  ghost predicate BothApproved(cfg: Config, r: Run, x: Signature, y: Signature) {
    r.node.Dispatch? && IsDue(r.st, x.subtaskId) && ApprovedUnedited(r.st, x) && ApprovedUnedited(r.st, y)
  }

  /** The same resume is delivered again and passes the gate of `y`. */
  lemma ThirdDelivery(cfg: Config, h: History, r: Run, x: Signature, y: Signature) returns (longer: History, r': Run)
    requires Resting(cfg, h, r, x) && ApprovedRow(cfg, Now(h).rows, x) && x != y
    requires Inv(cfg, r) && YAsked(r, x, y)
    ensures Standing(cfg, longer, 2, r', None, x) && Inv(cfg, r') && BothApproved(cfg, r', x, y)
  {
    GateApproves(cfg, r, y, x.subtaskId);
    longer := Deliver(cfg, h, 2, r, x);
    r' := Next(cfg, r, Answered(Decision(Approve, [], None)));
  }

  lemma BatchRuns(cfg: Config, h: History, r: Run, x: Signature, y: Signature) returns (longer: History)
    requires Standing(cfg, h, 2, r, None, x) && Inv(cfg, r) && r.node.ExecuteBatch? && IsDue(r.st, x.subtaskId)
    requires ApprovedUnedited(r.st, x) && ApprovedUnedited(r.st, y) && x.subtaskId == y.subtaskId && cfg.toolsAvailable
    ensures IsSchedule(cfg, longer) && Serial(longer) && ToolRan(y) in Now(longer).log && OnlyAbout(Now(longer).log, x)
  {
    TriesRuns(cfg, r.st, x, y);
    SoloRunIsLogged(cfg, r.st, x.subtaskId, Tries(x, y), y);
    longer := TakeStep(cfg, h, 2, r, None, x, Turns(SoloTurns(r.node.batch, x.subtaskId, Tries(x, y))));
  }

  lemma BothRun(cfg: Config, h: History, r: Run, x: Signature, y: Signature) returns (longer: History)
    requires Standing(cfg, h, 2, r, None, x) && Inv(cfg, r) && BothApproved(cfg, r, x, y)
    requires x.subtaskId == y.subtaskId && cfg.toolsAvailable
    ensures IsSchedule(cfg, longer) && Serial(longer) && ToolRan(y) in Now(longer).log && OnlyAbout(Now(longer).log, x)
  {
    SendStep(cfg, r, x.subtaskId);
    longer := TakeStep(cfg, h, 2, r, None, x, Silent);
    longer := BatchRuns(cfg, longer, Next(cfg, r, Silent), x, y);
  }

  /** One human approves one call. The queue delivers the resume, the subtask runs the call
      and asks for another, and the queue redelivers the resume: the old answer passes the
      new gate, and the other call runs too, although nobody was asked about it. No two
      deliveries overlap. */
  lemma StaleResumeRunsTool(cfg: Config, plan: Plan, x: Signature, y: Signature) returns (h: History)
    requires ValidPlan(plan) && x.subtaskId in Layer(plan, {}) && x != y && x.subtaskId == y.subtaskId
    requires cfg.toolsAvailable && x.tool in cfg.sensitive && y.tool in cfg.sensitive
    ensures IsSchedule(cfg, h) && Serial(h) && ToolRan(y) in Now(h).log && OnlyAbout(Now(h).log, x)
  {
    var r;
    h, r := FirstDelivery(cfg, plan, x);
    h, r := SecondDelivery(cfg, plan, h, r, x, y);
    h, r := ThirdDelivery(cfg, h, r, x, y);
    h := BothRun(cfg, h, r, x, y);
  }
}
