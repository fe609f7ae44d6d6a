/** What an edited approval can do: exactly when a step reopens a decision, and exactly when
    an answer at the action gate lets a run go on forever. */
module Diversion {
  import opened Dicts
  import opened Plans
  import opened Tools
  import opened Agents
  import opened Engine
  import opened Invariant
  import opened Steps
  import opened Runs
  import opened Termination
  import opened Scenarios

  // ------------------------------------------------------------ when a step reopens a decision

  ghost predicate StepReopens(cfg: Config, r: Run, inp: Input) {
    Enabled(cfg, r, inp) && exists s :: IsDecided(r.st, s) && !IsDecided(Next(cfg, r, inp).st, s)
  }

  /** The call that the approval of `s` was edited into. */
  ghost function Target(st: GraphState, s: Signature): Signature {
    if s in st.pending.vals then s.(arguments := st.pending.vals[s].arguments) else s
  }

  lemma DivertedAsks(cfg: Config, r: Run, p: Payload, s: Signature)
    requires Inv(cfg, r) && r.node.ExecuteBatch? && p in r.node.batch && Diverts(BranchAccess(cfg, p), s)
    ensures IsDue(r.st, p.task.id) && IsDecided(r.st, Target(r.st, s))
    ensures SoloRun(cfg, r.st, p.task.id, Insists(CallOf(s))).outcome == Awaits(Target(r.st, s))
  {
    SentIsDue(cfg, r.st, p);
    InsistingAsks(BranchAccess(cfg, p), CallOf(s), Target(r.st, s));
  }

  lemma DivertedReopens(cfg: Config, r: Run, p: Payload, s: Signature)
    requires Inv(cfg, r) && r.node.ExecuteBatch? && p in r.node.batch && Diverts(BranchAccess(cfg, p), s)
    ensures StepReopens(cfg, r, Turns(SoloTurns(r.node.batch, p.task.id, Insists(CallOf(s)))))
  {
    var asked, inp := Target(r.st, s), Turns(SoloTurns(r.node.batch, p.task.id, Insists(CallOf(s))));
    DivertedAsks(cfg, r, p, s);
    SoloStep(cfg, r, p.task.id, Insists(CallOf(s)), asked);
    assert !IsDecided(Next(cfg, r, inp).st, asked);
  }

  /** A step can make a decided signature pending again exactly when it runs a batch one of
      whose subtasks holds an approval that was edited into a decided call. */
  lemma ReopensIffBatchDiverted(cfg: Config, r: Run)
    requires Inv(cfg, r)
    ensures (exists inp :: StepReopens(cfg, r, inp)) <==> !Undiverted(cfg, r)
  {
    if inp :| StepReopens(cfg, r, inp) && Undiverted(cfg, r) {
      StepKeepsDecisions(cfg, r, inp);
    }
    if !Undiverted(cfg, r) {
      var p :| p in r.node.batch && !BranchUndiverted(cfg, p);
      var s :| Diverts(BranchAccess(cfg, p), s);
      DivertedReopens(cfg, r, p, s);
    }
  }

  // ------------------------------------------------------------ runs that never end

  /** A due subtask has an approval whose edits change the call. */
  ghost predicate Redirected(cfg: Config, st: GraphState, s: Signature) {
    && cfg.toolsAvailable && s.tool in cfg.sensitive && IsDue(st, s.subtaskId)
    && s in st.pending.vals && st.pending.vals[s].status.Approved?
    && !HarmlessEdit(Some(st.pending.vals[s].arguments), s.arguments)
  }

  lemma RedirectedAsks(cfg: Config, st: GraphState, s: Signature)
    requires Redirected(cfg, st, s)
    ensures SoloRun(cfg, st, s.subtaskId, Insists(CallOf(s))).outcome == Awaits(Target(st, s))
  {
    var a := Access(cfg.toolsAvailable, cfg.sensitive, s.subtaskId, DecidedApprovals(st));
    InsistingAsks(a, CallOf(s), Target(st, s));
  }

  /** A checkpoint between two batches at which a due subtask is redirected within `all`. */
  ghost predicate AtRedirection(cfg: Config, r: Run, s: Signature, all: set<Signature>) {
    r.node.Dispatch? && Redirected(cfg, r.st, s) && PendingWithin(r.st, all) && Target(r.st, s) in all
  }

  const REJECTION := Decision(Reject, [], None)

  lemma RedirectionSurvives(cfg: Config, before: GraphState, r: Run, s: Signature)
    requires Inv(cfg, r) && r.node.ActionApproval? && HasAsked(before, r.st, s.subtaskId, Target(before, s))
    requires Redirected(cfg, before, s)
    ensures Enabled(cfg, r, Answered(REJECTION)) && HarmlessInput(r, Answered(REJECTION))
    ensures var next := Next(cfg, r, Answered(REJECTION));
            && next.node.Dispatch? && Redirected(cfg, next.st, s) && Target(next.st, s) == Target(before, s)
            && forall o :: o in next.st.pending.vals ==> o in before.pending.vals || o == Target(before, s)
  {
    GateStep(cfg, r, REJECTION, s.subtaskId);
    assert r.st.pending.vals[s] == before.pending.vals[s];
  }

  /** Dispatch, execute, review, gate: the subtask calls its tool, is asked about the edited
      call instead, and four super-steps later it is as due and as redirected as before. */
  lemma RedirectionRepeats(cfg: Config, e: Execution, s: Signature, all: set<Signature>) returns (longer: Execution)
    requires Tame(cfg, e, all) && Inv(cfg, e.runs[0]) && AtRedirection(cfg, Last(e), s, all)
    ensures Tame(cfg, longer, all) && longer.runs[0] == e.runs[0] && |longer.inputs| == |e.inputs| + 4
    ensures AtRedirection(cfg, Last(longer), s, all)
  {
    var st := Last(e).st;
    RedirectedAsks(cfg, st, s);
    var asked, more := AskRound(cfg, e, s.subtaskId, Insists(CallOf(s)), Target(st, s), all);
    PathKeepsInv(cfg, asked, |asked.inputs|);
    RedirectionSurvives(cfg, st, Last(asked), s);
    longer := TameExtends(cfg, asked, Answered(REJECTION), all);
  }

  lemma {:induction false} RedirectionGoesOn(cfg: Config, r: Run, s: Signature, all: set<Signature>, n: nat)
    returns (e: Execution)
    requires Inv(cfg, r) && AtRedirection(cfg, r, s, all)
    ensures Tame(cfg, e, all) && e.runs[0] == r && |e.inputs| == 4 * n && AtRedirection(cfg, Last(e), s, all)
  {
    if n == 0 {
      e := Execution([r], []);
    } else {
      e := RedirectionGoesOn(cfg, r, s, all, n - 1);
      e := RedirectionRepeats(cfg, e, s, all);
    }
  }

  /** From `r` a run can take at least `n` steps without an edit and within `all`. */
  ghost predicate GoesOn(cfg: Config, r: Run, all: set<Signature>, n: nat) {
    exists e :: Tame(cfg, e, all) && e.runs[0] == r && |e.inputs| >= n
  }

  ghost predicate GoesOnForever(cfg: Config, r: Run, all: set<Signature>) {
    forall n: nat :: GoesOn(cfg, r, all, n)
  }

  /** From `r` a run can go on forever although humans edit nothing any more and are only
      asked about finitely many calls. */
  ghost predicate Endless(cfg: Config, r: Run) {
    exists all :: GoesOnForever(cfg, r, all)
  }

  lemma RedirectedIsEndless(cfg: Config, r: Run, s: Signature, all: set<Signature>)
    requires Inv(cfg, r) && AtRedirection(cfg, r, s, all)
    ensures GoesOnForever(cfg, r, all)
  {
    forall n: nat ensures GoesOn(cfg, r, all, n) {
      var e := RedirectionGoesOn(cfg, r, s, all, n);
    }
  }

  lemma UneditedEnds(cfg: Config, r: Run)
    requires Inv(cfg, r) && Unedited(r.st.pending.vals)
    ensures !Endless(cfg, r)
  {
    if all :| GoesOnForever(cfg, r, all) {
      var n := 5 * (84 + |all|) + 7;
      assert GoesOn(cfg, r, all, n);
      var e :| Tame(cfg, e, all) && e.runs[0] == r && |e.inputs| >= n;
      HarmlessIsUndiverted(cfg, e);
      EveryRunEnds(cfg, e, all);
    }
  }

  ghost predicate EditsTheCall(st: GraphState, d: Decision)
    requires st.pending.Valid() && FirstPending(st).Some?
  {
    Approves(d) && !HarmlessEdit(d.arguments, st.pending.vals[FirstPending(st).value].arguments)
  }

  lemma EditRedirects(cfg: Config, r: Run, d: Decision)
    requires Inv(cfg, r) && r.node.ActionApproval? && FirstPending(r.st).Some? && EditsTheCall(r.st, d)
    requires cfg.toolsAvailable && IsDue(r.st, FirstPending(r.st).value.subtaskId)
    ensures var s, next := FirstPending(r.st).value, Next(cfg, r, Answered(d));
            Redirected(cfg, next.st, s) && Target(next.st, s) == s.(arguments := d.arguments.value)
  {
    GateStep(cfg, r, d, FirstPending(r.st).value.subtaskId);
  }

  lemma EditStartsRedirection(cfg: Config, r: Run, d: Decision) returns (all: set<Signature>)
    requires Inv(cfg, r) && r.node.ActionApproval? && FirstPending(r.st).Some? && EditsTheCall(r.st, d)
    requires cfg.toolsAvailable && IsDue(r.st, FirstPending(r.st).value.subtaskId)
    ensures AtRedirection(cfg, Next(cfg, r, Answered(d)), FirstPending(r.st).value, all)
  {
    var s, st := FirstPending(r.st).value, Next(cfg, r, Answered(d)).st;
    EditRedirects(cfg, r, d);
    all := st.pending.vals.Keys + {Target(st, s)};
  }

  lemma EditIsEndless(cfg: Config, r: Run, d: Decision)
    requires Inv(cfg, r) && r.node.ActionApproval? && FirstPending(r.st).Some? && EditsTheCall(r.st, d)
    requires cfg.toolsAvailable && IsDue(r.st, FirstPending(r.st).value.subtaskId)
    ensures Endless(cfg, Next(cfg, r, Answered(d)))
  {
    var all := EditStartsRedirection(cfg, r, d);
    StepKeepsInv(cfg, r, Answered(d));
    RedirectedIsEndless(cfg, Next(cfg, r, Answered(d)), FirstPending(r.st).value, all);
  }

  /** At the action gate, while nothing was edited before and the subtask that asked is still
      due: after the answer the run can go on forever exactly when the answer approves the
      call with edits that change it. */
  lemma EndlessIffEdited(cfg: Config, r: Run, d: Decision)
    requires Inv(cfg, r) && r.node.ActionApproval? && Enabled(cfg, r, Answered(d))
    requires cfg.toolsAvailable && Unedited(r.st.pending.vals) && IsDue(r.st, FirstPending(r.st).value.subtaskId)
    ensures Endless(cfg, Next(cfg, r, Answered(d))) <==>
              Approves(d) && !HarmlessEdit(d.arguments, r.st.pending.vals[FirstPending(r.st).value].arguments)
  {
    if EditsTheCall(r.st, d) {
      EditIsEndless(cfg, r, d);
    } else {
      StepKeepsInv(cfg, r, Answered(d));
      StepKeepsUnedited(cfg, r, Answered(d));
      UneditedEnds(cfg, Next(cfg, r, Answered(d)));
    }
  }

  // ------------------------------------------------------------ every plan has such a run

  ghost function Spliced(front: Execution, inp: Input, back: Execution): Execution {
    Execution(front.runs + back.runs, front.inputs + [inp] + back.inputs)
  }

  lemma SplicedAt(front: Execution, inp: Input, back: Execution, i: nat)
    requires |front.runs| == |front.inputs| + 1 && |back.runs| == |back.inputs| + 1 && i < |front.runs| + |back.runs|
    ensures var e, n := Spliced(front, inp, back), |front.inputs|;
            && e.runs[i] == (if i <= n then front.runs[i] else back.runs[i - n - 1])
            && (i < |e.inputs| ==>
                  e.inputs[i] == if i < n then front.inputs[i] else if i == n then inp else back.inputs[i - n - 1])
  {
  }

  /** A step that leads from the end of one path to the start of another. */
  lemma PathsJoin(cfg: Config, front: Execution, inp: Input, back: Execution)
    requires IsPath(cfg, front) && IsPath(cfg, back)
    requires Enabled(cfg, Last(front), inp) && back.runs[0] == Next(cfg, Last(front), inp)
    ensures IsPath(cfg, Spliced(front, inp, back))
  {
    var e, n := Spliced(front, inp, back), |front.inputs|;
    forall i | 0 <= i < |e.inputs| ensures IsStep(cfg, e, i) {
      SplicedAt(front, inp, back, i);
      SplicedAt(front, inp, back, i + 1);
      if i < n {
        assert IsStep(cfg, front, i);
      } else if i > n {
        assert IsStep(cfg, back, i - n - 1);
      }
    }
  }

  /** Nobody edits a call, except with the answer to the checkpoint `k`. */
  ghost predicate EditsOnlyAt(e: Execution, k: nat)
    requires |e.runs| == |e.inputs| + 1
  {
    forall i :: 0 <= i < |e.inputs| && i != k ==> e.runs[i].st.pending.Valid() && HarmlessInput(e.runs[i], e.inputs[i])
  }

  lemma TamePathsJoin(cfg: Config, front: Execution, inp: Input, back: Execution, all: set<Signature>)
    requires Tame(cfg, front, all) && Tame(cfg, back, all)
    ensures EditsOnlyAt(Spliced(front, inp, back), |front.inputs|) && AsksWithin(Spliced(front, inp, back), all)
  {
    var e, n := Spliced(front, inp, back), |front.inputs|;
    forall i | 0 <= i < |e.inputs| && i != n
      ensures e.runs[i].st.pending.Valid() && HarmlessInput(e.runs[i], e.inputs[i])
    {
      SplicedAt(front, inp, back, i);
    }
    forall i, s | 0 <= i < |e.runs| && s in e.runs[i].st.pending.vals ensures s in all {
      SplicedAt(front, inp, back, i);
    }
  }

  lemma EditedFirst(cfg: Config, plan: Plan, r: Run, s: Signature, edited: Arguments)
    requires Inv(cfg, r) && r.node.ActionApproval? && HasAsked(PlannedState(plan), r.st, s.subtaskId, s)
    requires cfg.toolsAvailable && !HarmlessEdit(Some(edited), s.arguments)
    ensures var inp := Answered(Decision(Modify, [], Some(edited)));
            Enabled(cfg, r, inp) && AtRedirection(cfg, Next(cfg, r, inp), s, {s, s.(arguments := edited)})
  {
    var d := Decision(Modify, [], Some(edited));
    FirstPendingExists(r.st);
    assert FirstPending(r.st) == Some(s);
    EditRedirects(cfg, r, d);
    GateStep(cfg, r, d, s.subtaskId);
  }

  /** Every plan can run forever: let a subtask without dependencies ask for a sensitive call
      and a human edit it once into another. Nobody edits anything after that, and only the
      two calls are ever asked about. */
  lemma OneEditRunsForever(cfg: Config, plan: Plan, s: Signature, edited: Arguments, n: nat) returns (e: Execution)
    requires ValidPlan(plan) && s.subtaskId in Layer(plan, {}) && cfg.toolsAvailable && s.tool in cfg.sensitive
    requires !HarmlessEdit(Some(edited), s.arguments)
    ensures IsExecution(cfg, e) && |e.inputs| >= n && EditsOnlyAt(e, 5)
    ensures AsksWithin(e, {s, s.(arguments := edited)})
  {
    var all, inp := {s, s.(arguments := edited)}, Answered(Decision(Modify, [], Some(edited)));
    var front := FirstAsk(cfg, plan, s, all);
    Reachable(cfg, front, 5);
    EditedFirst(cfg, plan, Last(front), s, edited);
    var r := Next(cfg, Last(front), inp);
    StepKeepsInv(cfg, Last(front), inp);
    var back := RedirectionGoesOn(cfg, r, s, all, n);
    PathsJoin(cfg, front, inp, back);
    TamePathsJoin(cfg, front, inp, back, all);
    e := Spliced(front, inp, back);
  }
}
