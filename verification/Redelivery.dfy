/** Whose answer passes a gate: `resume_task` hands the resolution of its row to whatever gate the latest checkpoint
    stands at, without comparing the two, so a redelivered or late resume can answer another gate. */
module Redelivery {
  import opened Tools
  import opened Gates
  import opened Engine
  import opened Invariant
  import opened Runs
  import opened Termination
  import opened Resolutions
  import opened Driver
  import opened Provenance
  import opened Rulings
  import Approvals

  // ------------------------------------------------------------ rows and resumes

  /** What the human who wrote this resolution had been shown and answered is in the log. */
  ghost predicate Told(log: seq<Event>, row: Approvals.Row, resolution: Approvals.Resolution) {
    HumanAnswered(row.payload.context, resolution) in log
  }

  ghost predicate ResumeTold(w: World, r: Resume) {
    r.id in w.rows && Told(w.log, w.rows[r.id], r.resolution)
  }

  /** Rows show the payload of their id, and every resolution was some human's answer to it. */
  ghost predicate RowsTold(w: World) {
    && Approvals.Faithful(w.rows)
    && (forall id :: id in w.rows && w.rows[id].resolution.Some? ==>
          Told(w.log, w.rows[id], w.rows[id].resolution.value))
    && forall n :: n in w.workers && w.workers[n].resume.Some? ==> ResumeTold(w, w.workers[n].resume.value)
  }

  ghost predicate SameRows(before: Approvals.Rows, after: Approvals.Rows) {
    forall id :: id in before ==> id in after && after[id].payload == before[id].payload
  }

  lemma RecordKeepsRows(rows: Approvals.Rows, p: GatePayload)
    requires Approvals.Faithful(rows) && Approvals.FromGate(p)
    ensures var after := Approvals.Recorded(rows, [p]);
            && Approvals.Faithful(after) && SameRows(rows, after)
            && forall id :: id in after && after[id].resolution.Some? ==> id in rows && after[id] == rows[id]
  {
    Approvals.OneFaithfulRowPerPayload(rows, [p]);
    Approvals.RecordedOne(rows, p);
  }

  lemma PauseKeepsTold(cfg: Config, w: World, n: nat)
    requires Durable(cfg, w) && CommitsLogged(cfg, w) && RowsTold(w) && Allowed(cfg, w, Pause(n))
    ensures RowsTold(Do(cfg, w, Pause(n)))
  {
    WorkerAt(cfg, w, n);
    var r := Last(w.workers[n].line);
    AskedFromGate(cfg, r);
    RecordKeepsRows(w.rows, Asked(cfg, r));
  }

  lemma DecideKeepsTold(cfg: Config, w: World, id: Approvals.ApprovalId, status: string,
                        resolution: Approvals.Resolution)
    requires RowsTold(w)
    ensures RowsTold(Do(cfg, w, Decide(id, status, resolution)))
  {
  }

  lemma MoveKeepsTold(cfg: Config, w: World, m: Move)
    requires Durable(cfg, w) && CommitsLogged(cfg, w) && RowsTold(w) && Allowed(cfg, w, m)
    ensures RowsTold(Do(cfg, w, m))
  {
    match m
    case Pause(n) => PauseKeepsTold(cfg, w, n);
    case Decide(id, status, resolution) => DecideKeepsTold(cfg, w, id, status, resolution);
    case _ =>
  }

  lemma ToldNext(cfg: Config, h: History, n: nat)
    requires IsSchedule(cfg, h) && n < |h.moves| && RowsTold(h.worlds[n])
    ensures RowsTold(h.worlds[n + 1])
  {
    AlwaysLogged(cfg, h, n);
    CrashRefinement(cfg, h, n);
    assert IsTransition(cfg, h, n);
    MoveKeepsTold(cfg, h.worlds[n], h.moves[n]);
  }

  lemma {:induction false} AlwaysTold(cfg: Config, h: History, n: nat)
    requires IsSchedule(cfg, h) && n < |h.worlds|
    ensures RowsTold(h.worlds[n])
  {
    if n > 0 {
      AlwaysTold(cfg, h, n - 1);
      ToldNext(cfg, h, n - 1);
    }
  }

  // ------------------------------------------------------------ the missing comparison

  /** The worker that passes a gate with this move was resumed for that very gate. */
  ghost predicate ForOwnGate(cfg: Config, w: Worker) {
    AtGate(cfg, w) && w.resume.Some? ==> w.resume.value.id == Approvals.IdOf(Asked(cfg, Last(w.line)))
  }

  ghost predicate Matched(cfg: Config, w: World, m: Move) {
    match m
    case SuperStep(n, _, _) => n in w.workers ==> ForOwnGate(cfg, w.workers[n])
    case Kill(n, lost, _) => n in w.workers && lost.Some? ==> ForOwnGate(cfg, w.workers[n])
    case _ => true
  }

  /** A human was shown exactly what the gate asks, and gave the answer that passes it, if and
      only if the worker was resumed for that gate; otherwise it is the answer to something
      else that somebody was shown. */
  lemma AnswersItsGateIffMatched(cfg: Config, h: History, n: nat, w: nat)
    requires IsSchedule(cfg, h) && n < |h.worlds| && w in h.worlds[n].workers
    requires AtGate(cfg, h.worlds[n].workers[w]) && h.worlds[n].workers[w].resume.Some?
    ensures var world, resume := h.worlds[n], h.worlds[n].workers[w].resume.value;
            && resume.id in world.rows
            && HumanAnswered(world.rows[resume.id].payload.context, resume.resolution) in world.log
            && (ForOwnGate(cfg, world.workers[w]) <==>
                  world.rows[resume.id].payload == Asked(cfg, Last(world.workers[w].line)))
  {
    var world := h.worlds[n];
    CrashRefinement(cfg, h, n);
    AlwaysLogged(cfg, h, n);
    AlwaysTold(cfg, h, n);
    WorkerAt(cfg, world, w);
    AskedFromGate(cfg, Last(world.workers[w].line));
    assert ResumeTold(world, world.workers[w].resume.value);
    var row, asked := world.rows[world.workers[w].resume.value.id], Asked(cfg, Last(world.workers[w].line));
    if Approvals.IdOf(row.payload) == Approvals.IdOf(asked) {
      Approvals.SameIdSamePayload(row.payload, asked);
    }
  }

  // ------------------------------------------------------------ with the comparison

  /** A human answered this to what the gate at position `i` of the line shows, and the step
      did what the answer says to what was shown. */
  ghost predicate AnsweredBy(cfg: Config, line: Execution, i: nat, answer: Approvals.Resolution, log: seq<Event>)
    requires i + 1 < |line.runs| && RunWellFormed(line.runs[i]) && Gated(cfg, line.runs[i])
  {
    var shown := Asked(cfg, line.runs[i]).context;
    HumanAnswered(shown, answer) in log && Follows(shown, answer, line.runs[i].st, line.runs[i + 1].st)
  }

  ghost predicate HasAnswer(cfg: Config, line: Execution, i: nat, log: seq<Event>)
    requires i + 1 < |line.runs| && RunWellFormed(line.runs[i]) && Gated(cfg, line.runs[i])
  {
    exists answer :: AnsweredBy(cfg, line, i, answer, log)
  }

  /** The gate at position `i` of the line, if it is one that asks, was passed by a human's
      answer to it. */
  ghost predicate GateAnswered(cfg: Config, line: Execution, i: nat, log: seq<Event>)
    requires i + 1 < |line.runs|
  {
    RunWellFormed(line.runs[i]) && Gated(cfg, line.runs[i]) ==> HasAnswer(cfg, line, i, log)
  }

  ghost predicate LineAnswered(cfg: Config, line: Execution, log: seq<Event>)
  {
    |line.runs| == |line.inputs| + 1 && forall i :: 0 <= i < |line.inputs| ==> GateAnswered(cfg, line, i, log)
  }

  ghost predicate CommitsAnswered(cfg: Config, w: World) {
    forall c :: c in w.commits ==> LineAnswered(cfg, c, w.log)
  }

  lemma AnsweredLater(cfg: Config, line: Execution, log: seq<Event>, more: seq<Event>)
    requires LineAnswered(cfg, line, log) && Within(log, more)
    ensures LineAnswered(cfg, line, more)
  {
    forall i | 0 <= i < |line.inputs| ensures GateAnswered(cfg, line, i, more) {
      GateAnsweredLater(cfg, line, i, log, more);
    }
  }

  lemma GateAnsweredLater(cfg: Config, line: Execution, i: nat, log: seq<Event>, more: seq<Event>)
    requires i + 1 < |line.runs| && GateAnswered(cfg, line, i, log) && Within(log, more)
    ensures GateAnswered(cfg, line, i, more)
  {
    if RunWellFormed(line.runs[i]) && Gated(cfg, line.runs[i]) {
      var answer :| AnsweredBy(cfg, line, i, answer, log);
      assert AnsweredBy(cfg, line, i, answer, more);
    }
  }

  lemma GateAnsweredAlong(cfg: Config, line: Execution, longer: Execution, i: nat, log: seq<Event>)
    requires i + 1 < |line.runs| <= |longer.runs| && GateAnswered(cfg, line, i, log)
    requires longer.runs[i] == line.runs[i] && longer.runs[i + 1] == line.runs[i + 1]
    ensures GateAnswered(cfg, longer, i, log)
  {
    if RunWellFormed(line.runs[i]) && Gated(cfg, line.runs[i]) {
      var answer :| AnsweredBy(cfg, line, i, answer, log);
      assert AnsweredBy(cfg, longer, i, answer, log);
    }
  }

  /** A worker resumed for its own gate passes it with an answer given to that gate. */
  lemma OwnAnswer(cfg: Config, w: World, n: nat, inp: Input)
    requires Durable(cfg, w) && CommitsLogged(cfg, w) && RowsTold(w)
    requires n in w.workers && CanTake(cfg, w.workers[n], inp)
    requires AtGate(cfg, w.workers[n]) && ForOwnGate(cfg, w.workers[n])
    ensures var answer := w.workers[n].resume.value.resolution;
            && HumanAnswered(Asked(cfg, Last(w.workers[n].line)).context, answer) in w.log
            && inp == Answered(ReadDecision(answer))
  {
    WorkerAt(cfg, w, n);
    AskedFromGate(cfg, Last(w.workers[n].line));
    var r := w.workers[n].resume.value;
    assert ResumeTold(w, r);
    Approvals.SameIdSamePayload(w.rows[r.id].payload, Asked(cfg, Last(w.workers[n].line)));
  }

  lemma LastGateAnswered(cfg: Config, w: World, n: nat, inp: Input, log: seq<Event>)
    requires Durable(cfg, w) && CommitsLogged(cfg, w) && RowsTold(w) && Within(w.log, log)
    requires n in w.workers && CanTake(cfg, w.workers[n], inp) && ForOwnGate(cfg, w.workers[n])
    ensures var line, longer := w.workers[n].line, Stepped(cfg, w.workers[n], inp).line;
            |line.runs| == |line.inputs| + 1 && GateAnswered(cfg, longer, |line.inputs|, log)
  {
    WorkerAt(cfg, w, n);
    var line, longer := w.workers[n].line, Stepped(cfg, w.workers[n], inp).line;
    var i := |line.inputs|;
    assert longer.runs[i] == Last(line) && longer.runs[i + 1] == Next(cfg, Last(line), inp);
    if AtGate(cfg, w.workers[n]) {
      OwnAnswer(cfg, w, n, inp);
      var answer := w.workers[n].resume.value.resolution;
      GateFollows(cfg, Last(line), answer);
      assert AnsweredBy(cfg, longer, i, answer, log);
    }
  }

  lemma EarlierGateAnswered(cfg: Config, w: Worker, inp: Input, i: nat, log: seq<Event>, more: seq<Event>)
    requires CanTake(cfg, w, inp) && LineAnswered(cfg, w.line, log) && i < |w.line.inputs| && Within(log, more)
    ensures GateAnswered(cfg, Stepped(cfg, w, inp).line, i, more)
  {
    assert GateAnswered(cfg, w.line, i, log);
    GateAnsweredLater(cfg, w.line, i, log, more);
    GateAnsweredAlong(cfg, w.line, Stepped(cfg, w, inp).line, i, more);
  }

  /** The gates of a line, up to and including its last step. */
  ghost predicate Answers(cfg: Config, longer: Execution, n: nat, log: seq<Event>)
    requires n < |longer.runs|
  {
    forall i :: 0 <= i < n ==> GateAnswered(cfg, longer, i, log)
  }

  lemma EarlierGatesAnswered(cfg: Config, w: Worker, inp: Input, log: seq<Event>, more: seq<Event>)
    requires CanTake(cfg, w, inp) && LineAnswered(cfg, w.line, log) && Within(log, more)
    ensures Answers(cfg, Stepped(cfg, w, inp).line, |w.line.inputs|, more)
  {
    forall i | 0 <= i < |w.line.inputs| ensures GateAnswered(cfg, Stepped(cfg, w, inp).line, i, more) {
      EarlierGateAnswered(cfg, w, inp, i, log, more);
    }
  }

  lemma AllGatesAnswered(cfg: Config, line: Execution, n: nat, log: seq<Event>)
    requires |line.inputs| == n + 1 && |line.runs| == n + 2
    requires Answers(cfg, line, n, log) && GateAnswered(cfg, line, n, log)
    ensures LineAnswered(cfg, line, log)
  {
  }

  lemma SteppedAnswered(cfg: Config, w: World, n: nat, inp: Input, log: seq<Event>)
    requires Durable(cfg, w) && CommitsLogged(cfg, w) && RowsTold(w) && Within(w.log, log)
    requires n in w.workers && CanTake(cfg, w.workers[n], inp) && ForOwnGate(cfg, w.workers[n])
    requires LineAnswered(cfg, w.workers[n].line, w.log)
    ensures LineAnswered(cfg, Stepped(cfg, w.workers[n], inp).line, log)
  {
    EarlierGatesAnswered(cfg, w.workers[n], inp, w.log, log);
    LastGateAnswered(cfg, w, n, inp, log);
    AllGatesAnswered(cfg, Stepped(cfg, w.workers[n], inp).line, |w.workers[n].line.inputs|, log);
  }

  lemma WorkerAnswered(cfg: Config, w: World, n: nat)
    requires Durable(cfg, w) && CommitsAnswered(cfg, w) && n in w.workers
    ensures LineAnswered(cfg, w.workers[n].line, w.log)
  {
    assert WorkerSound(cfg, w.commits, w.workers[n]);
  }

  lemma MoveKeepsAnswered(cfg: Config, w: World, m: Move)
    requires Durable(cfg, w) && CommitsLogged(cfg, w) && RowsTold(w) && CommitsAnswered(cfg, w)
    requires Allowed(cfg, w, m) && Matched(cfg, w, m)
    ensures CommitsAnswered(cfg, Do(cfg, w, m))
  {
    var after := Do(cfg, w, m);
    if m.SuperStep? {
      WorkerAnswered(cfg, w, m.worker);
      SteppedAnswered(cfg, w, m.worker, m.inp, after.log);
    } else if m.CommitInput? {
      WorkerAnswered(cfg, w, m.worker);
    }
    forall c | c in after.commits ensures LineAnswered(cfg, c, after.log) {
      if c in w.commits {
        AnsweredLater(cfg, c, w.log, after.log);
      }
    }
  }

  ghost predicate AllMatched(cfg: Config, h: History, n: nat)
    requires n <= |h.moves| && n <= |h.worlds|
  {
    forall i :: 0 <= i < n ==> Matched(cfg, h.worlds[i], h.moves[i])
  }

  /** If every gate is passed by a worker that was resumed for it, every decision on every
      committed line, at all three gates, was given by a human who had been shown exactly
      what that gate asked. */
  lemma {:induction false} DecisionsAnswerTheirGates(cfg: Config, h: History, n: nat)
    requires IsSchedule(cfg, h) && n < |h.worlds| && AllMatched(cfg, h, n)
    ensures CommitsAnswered(cfg, h.worlds[n])
  {
    if n > 0 {
      DecisionsAnswerTheirGates(cfg, h, n - 1);
      AlwaysTold(cfg, h, n - 1);
      AlwaysLogged(cfg, h, n - 1);
      CrashRefinement(cfg, h, n - 1);
      assert IsTransition(cfg, h, n - 1);
      MoveKeepsAnswered(cfg, h.worlds[n - 1], h.moves[n - 1]);
    }
  }

  // ------------------------------------------------------------ humans approve what runs

  /** A human was shown exactly this subtask, tool and arguments, and what was stored as the
      answer is "approve" or "modify". */
  ghost predicate HumanApproved(log: seq<Event>, s: Signature) {
    exists answer :: Allows(answer) && HumanAnswered(ActionContext(s, s), answer) in log
  }

  /** Every approval that takes effect comes after a human's approval of that call. */
  ghost predicate HumansFirst(log: seq<Event>) {
    forall k, s :: 0 <= k < |log| && log[k] == ActionDecided(s, true) ==> HumanApproved(log[..k], s)
  }

  lemma ApprovedInLonger(a: seq<Event>, b: seq<Event>, s: Signature)
    requires HumanApproved(a, s) && Within(a, b)
    ensures HumanApproved(b, s)
  {
    var answer :| Allows(answer) && HumanAnswered(ActionContext(s, s), answer) in a;
    assert HumanAnswered(ActionContext(s, s), answer) in b;
  }

  lemma HumansFirstMore(log: seq<Event>, more: seq<Event>)
    requires HumansFirst(log) && forall s :: ActionDecided(s, true) in more ==> HumanApproved(log, s)
    ensures HumansFirst(log + more)
  {
    var all := log + more;
    forall k, s | 0 <= k < |all| && all[k] == ActionDecided(s, true) ensures HumanApproved(all[..k], s) {
      if k < |log| {
        assert all[..k] == log[..k];
      } else {
        assert all[k] == more[k - |log|] && HumanApproved(log, s);
        assert all[..k] == log + more[..k - |log|];
        ApprovedInLonger(log, all[..k], s);
      }
    }
  }

  lemma ApprovalEvents(cfg: Config, r: Run, inp: Input, s: Signature)
    requires Inv(cfg, r) && Enabled(cfg, r, inp) && ActionDecided(s, true) in Events(cfg, r, inp)
    ensures Gated(cfg, r) && Approves(inp.decision) && Asked(cfg, r).context == ActionContext(s, s)
  {
    match r.node
    case ExecuteBatch(batch) => ExecutionJudgesNothing(cfg, batch, inp.turns, |batch|);
    case ReviewBatch => ReviewEventsAreJudgements(r.st, inp.reviews, |r.st.plan|);
    case _ =>
  }

  lemma EffectsAnswered(cfg: Config, w: World, n: nat, inp: Input, effects: seq<Event>)
    requires Durable(cfg, w) && CommitsLogged(cfg, w) && RowsTold(w) && HumansFirst(w.log)
    requires n in w.workers && CanTake(cfg, w.workers[n], inp) && ForOwnGate(cfg, w.workers[n])
    requires Within(effects, Events(cfg, Last(w.workers[n].line), inp))
    ensures HumansFirst(w.log + effects)
  {
    WorkerAt(cfg, w, n);
    forall s | ActionDecided(s, true) in effects ensures HumanApproved(w.log, s) {
      ApprovalEvents(cfg, Last(w.workers[n].line), inp, s);
      OwnAnswer(cfg, w, n, inp);
      ActionRead(w.workers[n].resume.value.resolution);
    }
    HumansFirstMore(w.log, effects);
  }

  lemma MoveKeepsHumansFirst(cfg: Config, w: World, m: Move)
    requires Durable(cfg, w) && CommitsLogged(cfg, w) && RowsTold(w) && HumansFirst(w.log)
    requires Allowed(cfg, w, m) && Matched(cfg, w, m)
    ensures HumansFirst(Do(cfg, w, m).log)
  {
    match m
    case SuperStep(n, inp, effects) =>
      SameEvents(effects, Events(cfg, Last(w.workers[n].line), inp));
      EffectsAnswered(cfg, w, n, inp, effects);
    case Kill(n, lost, effects) =>
      if lost.Some? {
        EffectsAnswered(cfg, w, n, lost.value, effects);
      } else {
        assert w.log + effects == w.log;
      }
    case Decide(id, _, resolution) => HumansFirstMore(w.log, GivenAnswer(w.rows, id, resolution));
    case _ =>
  }

  lemma {:induction false} AlwaysHumansFirst(cfg: Config, h: History, n: nat)
    requires IsSchedule(cfg, h) && n < |h.worlds| && AllMatched(cfg, h, n)
    ensures HumansFirst(h.worlds[n].log)
  {
    if n > 0 {
      AlwaysHumansFirst(cfg, h, n - 1);
      AlwaysTold(cfg, h, n - 1);
      AlwaysLogged(cfg, h, n - 1);
      CrashRefinement(cfg, h, n - 1);
      assert IsTransition(cfg, h, n - 1);
      MoveKeepsHumansFirst(cfg, h.worlds[n - 1], h.moves[n - 1]);
    }
  }

  /** If every gate is passed by a worker that was resumed for it, a sensitive tool runs, in
      lost work too, only after a human was shown exactly that subtask, tool and arguments
      and approved them. */
  lemma HumansApproveWhatRuns(cfg: Config, h: History, n: nat, k: nat, s: Signature)
    requires IsSchedule(cfg, h) && n < |h.worlds| && AllMatched(cfg, h, n)
    requires k < |h.worlds[n].log| && h.worlds[n].log[k] == ToolRan(s) && s.tool in cfg.sensitive
    ensures HumanApproved(h.worlds[n].log[..k], s)
  {
    var log := h.worlds[n].log;
    SensitiveToolsAreApproved(cfg, h, n);
    AlwaysHumansFirst(cfg, h, n);
    assert ApprovedIn(log[..k], s);
    var j :| 0 <= j < k && log[..k][j] == ActionDecided(s, true);
    assert log[j] == ActionDecided(s, true) && HumanApproved(log[..j], s);
    ApprovedInLonger(log[..j], log[..k], s);
  }
}
