/** The durable driver of worker/tasks.py: `run_task` and `resume_task` deliveries, worker kills, the checkpointer and
    the approvals table. The log is the outside world: it also keeps what a killed worker did in vain. */
module Driver {
  import opened Dicts
  import opened Engine
  import opened Runs
  import opened Resolutions
  import Approvals

  /** What `resume_task` carries: the id of a row and the resolution it read there. */
  datatype Resume = Resume(id: Approvals.ApprovalId, resolution: Approvals.Resolution)

  /** A delivery at work. A checkpoint names its parent, so `line` is the whole line of
      checkpoints that the worker continues; `unsaved` says that it starts from
      `initial_state`, which is not committed yet. The queue redelivers what is not
      acknowledged in time, so any number of deliveries may work on the task at once. */
  datatype Worker = Worker(line: Execution, unsaved: bool, resume: Option<Resume>)

  /** `commits` holds every checkpoint, with the line that led to it, in the order of the
      commits: each super-step is committed before the next one starts, and the last commit is
      what the next delivery finds. */
  datatype World = World(commits: seq<Execution>, workers: map<nat, Worker>, rows: Approvals.Rows, log: seq<Event>)

  function InitialWorld(): World {
    World([], map[], map[], [])
  }

  function Fresh(): Execution {
    Execution([InitialRun()], [])
  }

  datatype Move =
    | RunTask(worker: nat)
    | ResumeTask(worker: nat, id: Approvals.ApprovalId)
    | CommitInput(worker: nat)
    | SuperStep(worker: nat, inp: Input, effects: seq<Event>)
    | Pause(worker: nat)
    | Kill(worker: nat, lost: Option<Input>, effects: seq<Event>)
    | Stop(worker: nat)
    | Decide(id: Approvals.ApprovalId, status: string, resolution: Approvals.Resolution)

  ghost predicate RunWellFormed(r: Run) {
    r.st.pending.Valid() && r.st.results.Valid()
  }

  /** The checkpoint the worker stands at is a gate that has to ask. */
  ghost predicate AtGate(cfg: Config, w: Worker) {
    w.line.runs != [] && RunWellFormed(Last(w.line)) && Gated(cfg, Last(w.line))
  }

  /** The worker can run its next node on `inp`: a gate takes whatever resolution the worker
      was resumed with, and no other answer. */
  ghost predicate CanTake(cfg: Config, w: Worker, inp: Input) {
    && w.line.runs != [] && !w.unsaved && Enabled(cfg, Last(w.line), inp)
    && (Gated(cfg, Last(w.line)) ==> w.resume.Some? && inp.decision == ReadDecision(w.resume.value.resolution))
  }

  ghost predicate Allowed(cfg: Config, w: World, m: Move) {
    match m
    case RunTask(n) => n !in w.workers
    case ResumeTask(n, id) => n !in w.workers && w.commits != [] && id in w.rows && w.rows[id].resolution.Some?
    case CommitInput(n) => n in w.workers && w.workers[n].unsaved
    case SuperStep(n, inp, effects) =>
      // parallel branches interleave their effects in any order
      && n in w.workers && CanTake(cfg, w.workers[n], inp)
      && multiset(effects) == multiset(Events(cfg, Last(w.workers[n].line), inp))
    // also with an answer in hand, which LangGraph may have dropped on the way
    case Pause(n) => n in w.workers && !w.workers[n].unsaved && AtGate(cfg, w.workers[n])
    case Kill(n, lost, effects) =>
      // the super-step under way may have had any part of its effects
      && n in w.workers
      && if lost.None? then effects == []
         else CanTake(cfg, w.workers[n], lost.value)
              && forall x :: x in effects ==> x in Events(cfg, Last(w.workers[n].line), lost.value)
    case Stop(n) => n in w.workers
    case Decide(_, _, _) => true
  }

  function Without(workers: map<nat, Worker>, n: nat): map<nat, Worker> {
    map k | k in workers && k != n :: workers[k]
  }

  /** The worker after a super-step: an answer is used up by the first gate. */
  ghost function Stepped(cfg: Config, w: Worker, inp: Input): Worker
    requires CanTake(cfg, w, inp)
  {
    Worker(Execution(w.line.runs + [Next(cfg, Last(w.line), inp)], w.line.inputs + [inp]), false,
           if Gated(cfg, Last(w.line)) then None else w.resume)
  }

  ghost function GivenAnswer(rows: Approvals.Rows, id: Approvals.ApprovalId, resolution: Approvals.Resolution)
    : seq<Event>
  {
    if id in rows && rows[id].status == Approvals.PENDING then
      [HumanAnswered(rows[id].payload.context, resolution)]
    else []
  }

  ghost function Do(cfg: Config, w: World, m: Move): World
    requires Allowed(cfg, w, m)
  {
    match m
    // `_run_graph`: continue from the latest checkpoint if there is one, else from initial_state
    case RunTask(n) =>
      w.(workers := w.workers[n := if w.commits == [] then Worker(Fresh(), true, None)
                                   else Worker(w.commits[|w.commits| - 1], false, None)])
    case ResumeTask(n, id) =>
      w.(workers := w.workers[n :=
        Worker(w.commits[|w.commits| - 1], false, Some(Resume(id, w.rows[id].resolution.value)))])
    case CommitInput(n) =>
      w.(commits := w.commits + [w.workers[n].line], workers := w.workers[n := w.workers[n].(unsaved := false)])
    case SuperStep(n, inp, effects) =>
      var after := Stepped(cfg, w.workers[n], inp);
      World(w.commits + [after.line], w.workers[n := after], w.rows, w.log + effects)
    case Pause(n) =>
      w.(rows := Approvals.Recorded(w.rows, [Asked(cfg, Last(w.workers[n].line))]), workers := Without(w.workers, n))
    case Kill(n, _, effects) => w.(workers := Without(w.workers, n), log := w.log + effects)
    case Stop(n) => w.(workers := Without(w.workers, n))
    case Decide(id, status, resolution) =>
      w.(rows := Approvals.Resolve(w.rows, id, status, resolution), log := w.log + GivenAnswer(w.rows, id, resolution))
  }

  datatype History = History(worlds: seq<World>, moves: seq<Move>)

  /** A schedule of deliveries, super-steps, pauses, kills and decisions. */
  ghost predicate IsSchedule(cfg: Config, h: History) {
    && |h.worlds| == |h.moves| + 1
    && h.worlds[0] == InitialWorld()
    && forall i :: 0 <= i < |h.moves| ==> IsTransition(cfg, h, i)
  }

  ghost predicate IsTransition(cfg: Config, h: History, i: nat)
    requires i < |h.moves| && i + 1 < |h.worlds|
  {
    Allowed(cfg, h.worlds[i], h.moves[i]) && h.worlds[i + 1] == Do(cfg, h.worlds[i], h.moves[i])
  }

  // ------------------------------------------------------------ crash refinement

  ghost function Parent(e: Execution): Execution
    requires |e.runs| > 1 && |e.runs| == |e.inputs| + 1
  {
    Execution(e.runs[..|e.runs| - 1], e.inputs[..|e.inputs| - 1])
  }

  /** A checkpoint is the fresh one or one super-step after an earlier one. */
  ghost predicate Descends(cfg: Config, commits: seq<Execution>, k: nat)
    requires k < |commits|
  {
    && IsExecution(cfg, commits[k])
    && (commits[k] == Fresh() || (|commits[k].runs| > 1 && Parent(commits[k]) in commits[..k]))
  }

  ghost predicate WorkerSound(cfg: Config, commits: seq<Execution>, w: Worker) {
    IsExecution(cfg, w.line) && if w.unsaved then w.line == Fresh() else w.line in commits
  }

  ghost predicate Durable(cfg: Config, w: World) {
    && (forall k :: 0 <= k < |w.commits| ==> Descends(cfg, w.commits, k))
    && forall n :: n in w.workers ==> WorkerSound(cfg, w.commits, w.workers[n])
  }

  lemma CommitDescends(cfg: Config, commits: seq<Execution>, line: Execution)
    requires forall k :: 0 <= k < |commits| ==> Descends(cfg, commits, k)
    requires IsExecution(cfg, line) && (line == Fresh() || (|line.runs| > 1 && Parent(line) in commits))
    ensures forall k :: 0 <= k < |commits| + 1 ==> Descends(cfg, commits + [line], k)
  {
    forall k | 0 <= k < |commits| + 1 ensures Descends(cfg, commits + [line], k) {
      if k < |commits| {
        assert Descends(cfg, commits, k);
        assert (commits + [line])[..k] == commits[..k];
      } else {
        assert (commits + [line])[..k] == commits;
      }
    }
  }

  lemma SteppedLine(cfg: Config, w: Worker, inp: Input)
    requires IsExecution(cfg, w.line) && CanTake(cfg, w, inp)
    ensures IsExecution(cfg, Stepped(cfg, w, inp).line) && |Stepped(cfg, w, inp).line.runs| > 1
    ensures Parent(Stepped(cfg, w, inp).line) == w.line
  {
    PathExtends(cfg, w.line, inp);
  }

  lemma MoveKeepsDurable(cfg: Config, w: World, m: Move)
    requires Durable(cfg, w) && Allowed(cfg, w, m)
    ensures Durable(cfg, Do(cfg, w, m)) && w.commits <= Do(cfg, w, m).commits
  {
    match m
    case SuperStep(n, inp, _) =>
      assert WorkerSound(cfg, w.commits, w.workers[n]);
      SteppedLine(cfg, w.workers[n], inp);
      CommitDescends(cfg, w.commits, Stepped(cfg, w.workers[n], inp).line);
    case CommitInput(n) =>
      assert WorkerSound(cfg, w.commits, w.workers[n]);
      CommitDescends(cfg, w.commits, w.workers[n].line);
    case RunTask(_) => LastCommitSound(cfg, w);
    case ResumeTask(_, _) => LastCommitSound(cfg, w);
    case _ =>
  }

  lemma LastCommitSound(cfg: Config, w: World)
    requires Durable(cfg, w)
    ensures IsExecution(cfg, Fresh())
    ensures w.commits != [] ==> IsExecution(cfg, w.commits[|w.commits| - 1])
  {
    assert w.commits != [] ==> Descends(cfg, w.commits, |w.commits| - 1);
  }

  /** Under any schedule, kills, redeliveries and overlaps included, every committed
      checkpoint is reached by a crash-free run of the engine, of which every other
      checkpoint was committed before; every worker stands at a committed checkpoint, or at
      initial_state if it found none. */
  lemma {:induction false} CrashRefinement(cfg: Config, h: History, n: nat)
    requires IsSchedule(cfg, h) && n < |h.worlds|
    ensures Durable(cfg, h.worlds[n])
  {
    if n > 0 {
      CrashRefinement(cfg, h, n - 1);
      assert IsTransition(cfg, h, n - 1);
      MoveKeepsDurable(cfg, h.worlds[n - 1], h.moves[n - 1]);
    }
  }

  /** Committed work is never lost: the history only grows. */
  lemma {:induction false} CommitsOnlyGrow(cfg: Config, h: History, m: nat, n: nat)
    requires IsSchedule(cfg, h) && m <= n < |h.worlds|
    ensures h.worlds[m].commits <= h.worlds[n].commits
  {
    if m < n {
      CommitsOnlyGrow(cfg, h, m, n - 1);
      CrashRefinement(cfg, h, n - 1);
      assert IsTransition(cfg, h, n - 1);
      MoveKeepsDurable(cfg, h.worlds[n - 1], h.moves[n - 1]);
    }
  }

  /** Nothing that happened is forgotten: at any later point the log still has every effect of
      every super-step, finished or lost to a kill. */
  lemma {:induction false} EffectsStayLogged(cfg: Config, h: History, i: nat, j: nat, x: Event)
    requires IsSchedule(cfg, h) && i < j < |h.worlds|
    requires match h.moves[i]
             case SuperStep(_, _, effects) => x in effects
             case Kill(_, _, effects) => x in effects
             case _ => false
    ensures x in h.worlds[j].log
  {
    assert IsTransition(cfg, h, j - 1);
    if i < j - 1 {
      EffectsStayLogged(cfg, h, i, j - 1, x);
    }
  }

  ghost predicate EndsDelivery(m: Move, n: nat) {
    (m.Pause? || m.Kill? || m.Stop?) && m.worker == n
  }

  ghost predicate StartsDelivery(m: Move, n: nat) {
    (m.RunTask? || m.ResumeTask?) && m.worker == n
  }

  lemma OnlyDeliveriesStart(cfg: Config, w: World, m: Move, n: nat)
    requires Allowed(cfg, w, m)
    ensures n in Do(cfg, w, m).workers ==> n in w.workers || StartsDelivery(m, n)
    ensures EndsDelivery(m, n) ==> n !in Do(cfg, w, m).workers
  {
  }

  /** A delivery that paused, was killed or stopped is over: it takes no further step. */
  lemma {:induction false} EndedIsOver(cfg: Config, h: History, i: nat, j: nat, n: nat)
    requires IsSchedule(cfg, h) && i < j < |h.worlds| && EndsDelivery(h.moves[i], n)
    requires forall k :: i < k < j ==> !StartsDelivery(h.moves[k], n)
    ensures n !in h.worlds[j].workers
  {
    if i < j - 1 {
      EndedIsOver(cfg, h, i, j - 1, n);
    }
    assert IsTransition(cfg, h, j - 1);
    OnlyDeliveriesStart(cfg, h.worlds[j - 1], h.moves[j - 1], n);
  }

  // ------------------------------------------------------------ when no work is redone

  /** Each checkpoint is one super-step after the one committed before it: the history is a
      single crash-free run. */
  ghost predicate Linear(commits: seq<Execution>) {
    forall k :: 0 <= k < |commits| ==> LinearAt(commits, k)
  }

  ghost predicate LinearAt(commits: seq<Execution>, k: nat)
    requires k < |commits|
  {
    if k == 0 then commits[0] == Fresh()
    else |commits[k].runs| > 1 && |commits[k].runs| == |commits[k].inputs| + 1 && Parent(commits[k]) == commits[k - 1]
  }

  /** A commit comes from a worker that stands at the latest checkpoint. */
  ghost predicate AtHead(w: World, m: Move) {
    match m
    case SuperStep(n, _, _) => n in w.workers && w.commits != [] && w.workers[n].line == w.commits[|w.commits| - 1]
    case CommitInput(_) => w.commits == []
    case _ => true
  }

  lemma LinearGrows(commits: seq<Execution>, line: Execution)
    ensures Linear(commits + [line]) <==> Linear(commits) && LinearAt(commits + [line], |commits|)
  {
    var more := commits + [line];
    assert forall k :: 0 <= k < |commits| ==> (LinearAt(more, k) <==> LinearAt(commits, k));
    if Linear(commits) && LinearAt(more, |commits|) {
      forall k | 0 <= k < |more| ensures LinearAt(more, k) {
        assert k < |commits| ==> LinearAt(commits, k);
      }
    }
    if Linear(more) {
      assert LinearAt(more, |commits|);
      forall k | 0 <= k < |commits| ensures LinearAt(commits, k) {
        assert LinearAt(more, k);
      }
    }
  }

  lemma MoveKeepsLinearIff(cfg: Config, w: World, m: Move)
    requires Durable(cfg, w) && Allowed(cfg, w, m)
    ensures Linear(Do(cfg, w, m).commits) <==> Linear(w.commits) && AtHead(w, m)
  {
    if m.SuperStep? || m.CommitInput? {
      var worker := w.workers[m.worker];
      assert WorkerSound(cfg, w.commits, worker);
      var line := if m.SuperStep? then Stepped(cfg, worker, m.inp).line else worker.line;
      LinearGrows(w.commits, line);
      if m.SuperStep? {
        SteppedLine(cfg, worker, m.inp);
      }
    }
  }

  /** No super-step is ever done twice, and the history is one crash-free run, exactly when
      every commit comes from a worker that stands at the latest checkpoint. */
  lemma {:induction false} LinearIffAtHead(cfg: Config, h: History, n: nat)
    requires IsSchedule(cfg, h) && n < |h.worlds|
    ensures Linear(h.worlds[n].commits) <==> forall i :: 0 <= i < n ==> AtHead(h.worlds[i], h.moves[i])
  {
    if n > 0 {
      LinearIffAtHead(cfg, h, n - 1);
      CrashRefinement(cfg, h, n - 1);
      assert IsTransition(cfg, h, n - 1);
      MoveKeepsLinearIff(cfg, h.worlds[n - 1], h.moves[n - 1]);
    }
  }

  /** The checkpoints of a linear history are the successive checkpoints of its last line. */
  lemma {:induction false} LinearIsOneRun(commits: seq<Execution>, j: nat, k: nat)
    requires Linear(commits) && j <= k < |commits|
    ensures |commits[k].runs| == k + 1 && commits[j].runs == commits[k].runs[..j + 1]
  {
    assert LinearAt(commits, k);
    if k > 0 {
      LinearIsOneRun(commits, if j < k then j else k - 1, k - 1);
    }
  }

  /** Deliveries start only when no other is at work. */
  ghost predicate OneAtATime(h: History, n: nat)
    requires n <= |h.moves| <= |h.worlds|
  {
    forall i :: 0 <= i < n && (h.moves[i].RunTask? || h.moves[i].ResumeTask?) ==> h.worlds[i].workers == map[]
  }

  /** The one worker there may be stands at the latest checkpoint. */
  ghost predicate LoneWorker(w: World) {
    && (forall m, n :: m in w.workers && n in w.workers ==> m == n)
    && forall n :: n in w.workers ==>
         if w.workers[n].unsaved then w.commits == []
         else w.commits != [] && w.workers[n].line == w.commits[|w.commits| - 1]
  }

  lemma LoneWorkerStays(cfg: Config, w: World, m: Move)
    requires Allowed(cfg, w, m) && LoneWorker(w) && (m.RunTask? || m.ResumeTask? ==> w.workers == map[])
    ensures LoneWorker(Do(cfg, w, m)) && AtHead(w, m)
  {
  }

  lemma {:induction false} OneAtATimeIsLinear(cfg: Config, h: History, n: nat)
    requires IsSchedule(cfg, h) && n < |h.worlds| && OneAtATime(h, n)
    ensures LoneWorker(h.worlds[n]) && forall i :: 0 <= i < n ==> AtHead(h.worlds[i], h.moves[i])
  {
    if n > 0 {
      OneAtATimeIsLinear(cfg, h, n - 1);
      assert IsTransition(cfg, h, n - 1);
      LoneWorkerStays(cfg, h.worlds[n - 1], h.moves[n - 1]);
    }
  }

  /** As long as deliveries of the task do not overlap no super-step is redone, whatever is
      killed. */
  lemma NoOverlapNoRedo(cfg: Config, h: History, n: nat)
    requires IsSchedule(cfg, h) && n < |h.worlds| && OneAtATime(h, n)
    ensures Linear(h.worlds[n].commits)
  {
    OneAtATimeIsLinear(cfg, h, n);
    LinearIffAtHead(cfg, h, n);
  }

  ghost function Now(h: History): World
    requires h.worlds != []
  {
    h.worlds[|h.worlds| - 1]
  }

  /** The schedule with one more move. */
  ghost function Moved(cfg: Config, h: History, m: Move): (longer: History)
    requires IsSchedule(cfg, h) && Allowed(cfg, Now(h), m)
    ensures IsSchedule(cfg, longer) && Now(longer) == Do(cfg, Now(h), m)
    ensures longer == History(h.worlds + [Do(cfg, Now(h), m)], h.moves + [m])
  {
    ScheduleExtends(cfg, h, m);
    History(h.worlds + [Do(cfg, Now(h), m)], h.moves + [m])
  }

  lemma ScheduleExtends(cfg: Config, h: History, m: Move)
    requires IsSchedule(cfg, h) && Allowed(cfg, Now(h), m)
    ensures IsSchedule(cfg, History(h.worlds + [Do(cfg, Now(h), m)], h.moves + [m]))
  {
    var longer := History(h.worlds + [Do(cfg, Now(h), m)], h.moves + [m]);
    forall i | 0 <= i < |longer.moves| ensures IsTransition(cfg, longer, i) {
      if i < |h.moves| {
        assert IsTransition(cfg, h, i);
        assert longer.worlds[i] == h.worlds[i] && longer.worlds[i + 1] == h.worlds[i + 1];
        assert longer.moves[i] == h.moves[i];
      }
    }
  }

  /** The other way round: the queue redelivers `run_task` while the first delivery is still
      planning. The supervisor runs twice, and both of its plans are committed on top of the
      same checkpoint. */
  lemma OverlapRedoesWork(cfg: Config, one: Input, other: Input) returns (h: History)
    requires one.Proposals? && other.Proposals?
    ensures IsSchedule(cfg, h) && !Linear(Now(h).commits)
    ensures var commits := Now(h).commits;
            && |commits| == 3 && commits[0] == Fresh()
            && commits[1].inputs == [one] && commits[2].inputs == [other]
    ensures forall m :: m in h.moves ==> m.RunTask? || m.CommitInput? || m.SuperStep?
  {
    h := TwoStart(cfg);
    h := PlanOnce(cfg, h, 0, one);
    h := PlanOnce(cfg, h, 1, other);
    assert !LinearAt(Now(h).commits, 2);
  }

  /** A delivery runs the supervisor. */
  lemma PlanOnce(cfg: Config, h: History, n: nat, inp: Input) returns (longer: History)
    requires IsSchedule(cfg, h) && inp.Proposals?
    requires n in Now(h).workers && Now(h).workers[n] == Worker(Fresh(), false, None)
    ensures IsSchedule(cfg, longer) && longer.moves == h.moves + [SuperStep(n, inp, [])]
    ensures n in Now(longer).workers
    ensures var line := Now(longer).workers[n].line;
            && Now(longer).workers == Now(h).workers[n := Worker(line, false, None)]
            && Now(longer).commits == Now(h).commits + [line] && line.inputs == [inp] && |line.runs| == 2
  {
    longer := Moved(cfg, h, SuperStep(n, inp, []));
  }

  lemma TwoStart(cfg: Config) returns (h: History)
    ensures IsSchedule(cfg, h) && forall m :: m in h.moves ==> m.RunTask? || m.CommitInput?
    ensures var start := Worker(Fresh(), false, None);
            Now(h) == World([Fresh()], map[0 := start, 1 := start], map[], [])
  {
    h := History([InitialWorld()], []);
    h := Moved(cfg, h, RunTask(0));
    h := Moved(cfg, h, CommitInput(0));
    h := Moved(cfg, h, RunTask(1));
  }
}
