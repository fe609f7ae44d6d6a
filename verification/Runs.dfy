/** Whole runs of the engine from `initial_state`: what holds at every point of every run. */
module Runs {
  import opened Dicts
  import opened Plans
  import opened Agents
  import opened Engine
  import opened Invariant
  import opened Steps

  /** The checkpoints of a run and the inputs that lead from each to the next. */
  datatype Execution = Execution(runs: seq<Run>, inputs: seq<Input>)

  ghost predicate IsStep(cfg: Config, e: Execution, i: nat)
    requires i < |e.inputs| && i + 1 < |e.runs|
  {
    Enabled(cfg, e.runs[i], e.inputs[i]) && e.runs[i + 1] == Next(cfg, e.runs[i], e.inputs[i])
  }

  /** A stretch of a run, from any checkpoint. */
  ghost predicate IsPath(cfg: Config, e: Execution) {
    && |e.runs| == |e.inputs| + 1
    && forall i :: 0 <= i < |e.inputs| ==> IsStep(cfg, e, i)
  }

  /** A path that starts where a run starts. */
  ghost predicate IsExecution(cfg: Config, e: Execution) {
    IsPath(cfg, e) && e.runs[0] == InitialRun()
  }

  ghost function Last(e: Execution): Run
    requires e.runs != []
  {
    e.runs[|e.runs| - 1]
  }

  lemma InvStep(cfg: Config, e: Execution, i: nat)
    requires IsPath(cfg, e) && i < |e.inputs| && Inv(cfg, e.runs[i])
    ensures Inv(cfg, e.runs[i + 1])
  {
    assert IsStep(cfg, e, i);
    StepKeepsInv(cfg, e.runs[i], e.inputs[i]);
  }

  lemma {:induction false} PathKeepsInv(cfg: Config, e: Execution, i: nat)
    requires IsPath(cfg, e) && Inv(cfg, e.runs[0]) && i < |e.runs|
    ensures Inv(cfg, e.runs[i])
  {
    if i > 0 {
      PathKeepsInv(cfg, e, i - 1);
      InvStep(cfg, e, i - 1);
    }
  }

  lemma Reachable(cfg: Config, e: Execution, i: nat)
    requires IsExecution(cfg, e) && i < |e.runs|
    ensures Inv(cfg, e.runs[i])
  {
    InitialInv(cfg);
    PathKeepsInv(cfg, e, i);
  }

  /** The path with one more step. */
  ghost function Extended(cfg: Config, e: Execution, inp: Input): (longer: Execution)
    requires IsPath(cfg, e) && Enabled(cfg, Last(e), inp)
    ensures IsPath(cfg, longer) && longer.runs[0] == e.runs[0]
    ensures longer == Execution(e.runs + [Next(cfg, Last(e), inp)], e.inputs + [inp])
  {
    PathExtends(cfg, e, inp);
    Execution(e.runs + [Next(cfg, Last(e), inp)], e.inputs + [inp])
  }

  lemma PathExtends(cfg: Config, e: Execution, inp: Input)
    requires IsPath(cfg, e) && Enabled(cfg, Last(e), inp)
    ensures IsPath(cfg, Execution(e.runs + [Next(cfg, Last(e), inp)], e.inputs + [inp]))
  {
    var longer := Execution(e.runs + [Next(cfg, Last(e), inp)], e.inputs + [inp]);
    forall i | 0 <= i < |longer.inputs| ensures IsStep(cfg, longer, i) {
      if i < |e.inputs| {
        assert IsStep(cfg, e, i);
        assert longer.runs[i] == e.runs[i] && longer.runs[i + 1] == e.runs[i + 1] && longer.inputs[i] == e.inputs[i];
      } else {
        assert longer.runs[i] == e.runs[i] && longer.inputs[i] == inp;
      }
    }
  }

  // ------------------------------------------------------------ slots over a run

  lemma AdvancesAt(cfg: Config, e: Execution, i: nat)
    requires IsExecution(cfg, e) && i < |e.inputs|
    ensures Advances(e.runs[i].st, e.runs[i + 1].st)
  {
    Reachable(cfg, e, i);
    assert IsStep(cfg, e, i);
    StepKeepsInv(cfg, e.runs[i], e.inputs[i]);
  }

  /** A subtask's status, attempts and decision only ever move down one fixed order. */
  lemma {:induction false} SlotsDescend(cfg: Config, e: Execution, i: nat, j: nat, id: string)
    requires IsExecution(cfg, e) && i <= j < |e.runs|
    ensures var before, after := SlotOf(e.runs[i].st, id), SlotOf(e.runs[j].st, id);
            after == before || Rank(after) < Rank(before)
  {
    if i < j {
      SlotsDescend(cfg, e, i, j - 1, id);
      AdvancesAt(cfg, e, j - 1);
    }
  }

  lemma {:induction false} AcceptedStays(cfg: Config, e: Execution, i: nat, j: nat, id: string)
    requires IsExecution(cfg, e) && i <= j < |e.runs| && IsAccepted(e.runs[i].st, id)
    ensures IsAccepted(e.runs[j].st, id) && e.runs[j].st.results.vals[id] == e.runs[i].st.results.vals[id]
  {
    if i < j {
      AcceptedStays(cfg, e, i, j - 1, id);
      AdvancesAt(cfg, e, j - 1);
    }
  }

  lemma SentAt(cfg: Config, e: Execution, j: nat)
    requires IsExecution(cfg, e) && j < |e.runs| && e.runs[j].node.ExecuteBatch?
    ensures forall id :: InBatch(e.runs[j].node.batch, id) <==> IsDue(e.runs[j].st, id)
  {
    Reachable(cfg, e, j);
    BatchExact(cfg, e.runs[j].st);
  }

  /** An accepted result is never changed, and its subtask never sent again. */
  lemma AcceptedIsFinal(cfg: Config, e: Execution, i: nat, j: nat, id: string)
    requires IsExecution(cfg, e) && i <= j < |e.runs| && IsAccepted(e.runs[i].st, id)
    ensures IsAccepted(e.runs[j].st, id) && e.runs[j].st.results.vals[id] == e.runs[i].st.results.vals[id]
    ensures e.runs[j].node.ExecuteBatch? ==> !InBatch(e.runs[j].node.batch, id)
  {
    AcceptedStays(cfg, e, i, j, id);
    if e.runs[j].node.ExecuteBatch? {
      SentAt(cfg, e, j);
    }
  }

  /** Whenever a subtask is sent, first time or retry, it belongs to a valid plan, its
      specialist exists, everything it depends on is accepted, no other branch of the batch
      runs it, it is handed exactly the decided approvals, and exactly a retry carries feedback,
      that of its last review. */
  lemma SentSafely(cfg: Config, e: Execution, i: nat, k: nat)
    requires IsExecution(cfg, e) && i < |e.runs| && e.runs[i].node.ExecuteBatch? && k < |e.runs[i].node.batch|
    ensures var st, batch, task := e.runs[i].st, e.runs[i].node.batch, e.runs[i].node.batch[k].task;
            && ValidPlan(st.plan) && task in st.plan && task.specialist in SPECIALISTS
            && (forall d :: d in task.dependencies ==> IsAccepted(st, d))
            && (forall m :: 0 <= m < |batch| && m != k ==> batch[m].task.id != task.id)
            && (task.id in st.results.vals ==> task.id in st.feedback)
            && batch[k].feedback == (if task.id in st.results.vals then Some(st.feedback[task.id]) else None)
            && (forall s :: s in batch[k].approvals <==> s in st.pending.vals && !st.pending.vals[s].status.Pending?)
            && (forall s :: s in batch[k].approvals ==> batch[k].approvals[s] == st.pending.vals[s])
  {
    Reachable(cfg, e, i);
    var st, batch := e.runs[i].st, e.runs[i].node.batch;
    BatchExact(cfg, st);
    assert batch[k] in batch && InBatch(batch, batch[k].task.id);
    var t :| 0 <= t < |st.plan| && st.plan[t] == batch[k].task;
    DepsOfTask(st.plan, t);
  }

  // ------------------------------------------------------------ attempts

  /** What each step of the run showed the world. */
  ghost predicate IsLog(cfg: Config, e: Execution, parts: seq<seq<Event>>)
    requires IsExecution(cfg, e)
  {
    |parts| == |e.inputs| && forall i :: 0 <= i < |parts| ==> LogAt(cfg, e, parts, i)
  }

  ghost predicate LogAt(cfg: Config, e: Execution, parts: seq<seq<Event>>, i: nat)
    requires IsExecution(cfg, e) && i < |e.inputs| == |parts|
  {
    assert IsStep(cfg, e, i);
    parts[i] == Events(cfg, e.runs[i], e.inputs[i])
  }

  /** The log of the first `n` steps. */
  function Flatten(parts: seq<seq<Event>>, n: nat): seq<Event>
    requires n <= |parts|
  {
    if n == 0 then [] else Flatten(parts, n - 1) + parts[n - 1]
  }

  ghost function Judgements(log: seq<Event>, id: string): nat {
    if log == [] then 0
    else
      var last := log[|log| - 1];
      Judgements(log[..|log| - 1], id) + if last.Judged? && last.subtaskId == id then 1 else 0
  }

  lemma {:induction false} JudgementsAdd(a: seq<Event>, b: seq<Event>, id: string)
    ensures Judgements(a + b, id) == Judgements(a, id) + Judgements(b, id)
  {
    if b == [] {
      assert a + b == a;
    } else {
      var n := |b| - 1;
      assert (a + b)[..|a + b| - 1] == a + b[..n];
      JudgementsAdd(a, b[..n], id);
    }
  }

  lemma {:induction false} NoJudgements(log: seq<Event>, id: string)
    requires forall x :: x in log ==> !x.Judged?
    ensures Judgements(log, id) == 0
  {
    if log != [] {
      NoJudgements(log[..|log| - 1], id);
    }
  }

  lemma {:induction false} ExecutionJudgesNothing(cfg: Config, batch: seq<Payload>, turns: seq<seq<Turn>>, n: nat)
    requires TurnsFor(batch, turns) && n <= |batch|
    ensures forall x :: x in ExecuteEvents(cfg, batch, turns, n) ==> x.ToolRan? || x.Produced?
  {
    if n > 0 {
      ExecutionJudgesNothing(cfg, batch, turns, n - 1);
    }
  }

  lemma {:induction false} ReviewJudgesOnce(st: GraphState, reviews: map<string, Review>, n: nat, id: string)
    requires ReviewsFor(st, reviews) && n <= |st.plan| && UniqueIds(st.plan)
    ensures Judgements(ReviewEvents(st, reviews, n), id) == if id in ReviewedPrefix(st, n) then 1 else 0
  {
    if n > 0 {
      ReviewJudgesOnce(st, reviews, n - 1, id);
      var front := ReviewEvents(st, reviews, n - 1);
      var last := ReviewEvents(st, reviews, n)[|front|..];
      assert ReviewEvents(st, reviews, n) == front + last;
      JudgementsAdd(front, last, id);
      assert |last| == 1 ==> Judgements(last[..0], id) == 0;
    }
  }

  lemma ReviewAttemptsAt(st: GraphState, reviews: map<string, Review>, id: string)
    requires ReviewsFor(st, reviews)
    ensures Attempts(AfterReview(st, reviews), id) == Attempts(st, id) + if id in ReviewedIds(st) then 1 else 0
  {
  }

  lemma ReviewCounts(cfg: Config, st: GraphState, reviews: map<string, Review>, id: string)
    requires StateInv(cfg, st) && ReviewsFor(st, reviews)
    ensures Attempts(AfterReview(st, reviews), id) ==
            Attempts(st, id) + Judgements(ReviewEvents(st, reviews, |st.plan|), id)
  {
    PrefixComplete(st);
    ReviewJudgesOnce(st, reviews, |st.plan|, id);
    ReviewAttemptsAt(st, reviews, id);
  }

  lemma StepCountsAttempts(cfg: Config, r: Run, inp: Input, id: string)
    requires Inv(cfg, r) && Enabled(cfg, r, inp)
    ensures Attempts(Next(cfg, r, inp).st, id) == Attempts(r.st, id) + Judgements(Events(cfg, r, inp), id)
  {
    if r.node.ReviewBatch? {
      ReviewCounts(cfg, r.st, inp.reviews, id);
    } else {
      if r.node.ExecuteBatch? {
        ExecutionJudgesNothing(cfg, r.node.batch, inp.turns, |r.node.batch|);
      }
      NoJudgements(Events(cfg, r, inp), id);
      StepKeepsAttempts(cfg, r, inp);
    }
  }

  lemma StepKeepsAttempts(cfg: Config, r: Run, inp: Input)
    requires Enabled(cfg, r, inp) && !r.node.ReviewBatch?
    ensures Next(cfg, r, inp).st.attempts == r.st.attempts
  {
  }

  lemma CountAt(cfg: Config, e: Execution, parts: seq<seq<Event>>, n: nat, id: string)
    requires IsExecution(cfg, e) && IsLog(cfg, e, parts) && n < |e.inputs|
    ensures Attempts(e.runs[n + 1].st, id) == Attempts(e.runs[n].st, id) + Judgements(parts[n], id)
  {
    Reachable(cfg, e, n);
    assert IsStep(cfg, e, n) && LogAt(cfg, e, parts, n);
    StepCountsAttempts(cfg, e.runs[n], e.inputs[n], id);
  }

  lemma {:induction false} AttemptsCounted(cfg: Config, e: Execution, parts: seq<seq<Event>>, n: nat, id: string)
    requires IsExecution(cfg, e) && IsLog(cfg, e, parts) && n < |e.runs|
    ensures Attempts(e.runs[n].st, id) == Judgements(Flatten(parts, n), id)
  {
    if n > 0 {
      AttemptsCounted(cfg, e, parts, n - 1, id);
      CountAt(cfg, e, parts, n - 1, id);
      JudgementsAdd(Flatten(parts, n - 1), parts[n - 1], id);
    }
  }

  /** The attempts counter is the number of reviewed executions; it is at most 2, or at
      most 3 once a human has answered "retry". */
  lemma AttemptsBounded(cfg: Config, e: Execution, parts: seq<seq<Event>>, n: nat, id: string)
    requires IsExecution(cfg, e) && IsLog(cfg, e, parts) && n < |e.runs|
    ensures var st := e.runs[n].st;
            && Attempts(st, id) == Judgements(Flatten(parts, n), id)
            && Attempts(st, id) <= (if id in st.failureDecisions && st.failureDecisions[id].Retry? then 3 else 2)
  {
    AttemptsCounted(cfg, e, parts, n, id);
    Reachable(cfg, e, n);
    assert SlotOk(SlotOf(e.runs[n].st, id));
  }

  // ------------------------------------------------------------ the final partition

  ghost predicate IsEscalated(st: GraphState, id: string) {
    id in st.results.vals && st.results.vals[id].status.Escalated?
  }

  /** `id` waits, directly or through others, for an escalated subtask. */
  ghost predicate BlockedBy(st: GraphState, id: string, c: seq<string>) {
    IsChain(st.plan, c) && |c| >= 2 && c[|c| - 1] == id && IsEscalated(st, c[0])
  }

  lemma {:induction false} NothingDownstream(cfg: Config, st: GraphState, c: seq<string>, k: nat)
    requires StateInv(cfg, st) && IsChain(st.plan, c) && IsEscalated(st, c[0]) && 0 < k < |c|
    ensures c[k] !in st.results.vals
  {
    assert c[k - 1] in Deps(st.plan, c[k]);
    if k > 1 {
      NothingDownstream(cfg, st, c, k - 1);
    }
  }

  lemma BlockingDependency(cfg: Config, st: GraphState, id: string) returns (d: string)
    requires StateInv(cfg, st) && Settled(st) && st.plan != [] && NextBatch(st) == []
    requires id in Ids(st.plan) && id !in st.results.vals
    ensures d in Deps(st.plan, id) && d in Ids(st.plan) && (IsEscalated(st, d) || d !in st.results.vals)
  {
    ValidPlanKnowsDependencies(st.plan);
    assert Deps(st.plan, id) <= Ids(st.plan);
    BatchExact(cfg, st);
    assert !InBatch(NextBatch(st), id);
    d :| d in Deps(st.plan, id) && !IsAccepted(st, d);
    assert !NeedsReview(st, d) && !InBatch(NextBatch(st), d);
  }

  lemma ResolvedAfter(plan: Plan, k: nat, id: string)
    requires id in Resolved(plan, k)
    ensures k > 0 && (id in Resolved(plan, k - 1) || Deps(plan, id) <= Resolved(plan, k - 1))
  {
  }

  lemma EscalatedBlocks(st: GraphState, d: string, id: string) returns (c: seq<string>)
    requires IsEscalated(st, d) && d in Deps(st.plan, id) && d in Ids(st.plan) && id in Ids(st.plan)
    ensures BlockedBy(st, id, c)
  {
    ChainExtends(st.plan, [d], id);
    c := [d] + [id];
  }

  lemma BlockerBlocks(st: GraphState, rest: seq<string>, d: string, id: string) returns (c: seq<string>)
    requires BlockedBy(st, d, rest) && d in Deps(st.plan, id) && id in Ids(st.plan)
    ensures BlockedBy(st, id, c)
  {
    ChainExtends(st.plan, rest, id);
    c := rest + [id];
  }

  ghost predicate WaitsFor(st: GraphState, id: string, d: string) {
    d in Deps(st.plan, id) && d in Ids(st.plan) && (IsEscalated(st, d) || d !in st.results.vals)
  }

  /** If it has no result it waits for an escalated subtask or for one that has none either. */
  ghost predicate HasResultOrWaits(st: GraphState, id: string) {
    id in Ids(st.plan) && id !in st.results.vals ==> exists d :: WaitsFor(st, id, d)
  }

  ghost predicate Stalled(st: GraphState) {
    forall id :: HasResultOrWaits(st, id)
  }

  lemma NothingDueIsStalled(cfg: Config, st: GraphState)
    requires StateInv(cfg, st) && Settled(st) && st.plan != [] && NextBatch(st) == []
    ensures Stalled(st)
  {
    forall id ensures HasResultOrWaits(st, id) {
      if id in Ids(st.plan) && id !in st.results.vals {
        var d := BlockingDependency(cfg, st, id);
        assert WaitsFor(st, id, d);
      }
    }
  }

  lemma {:induction false} FindBlocker(st: GraphState, id: string, k: nat) returns (c: seq<string>)
    requires Stalled(st) && id in Resolved(st.plan, k) && id !in st.results.vals
    ensures BlockedBy(st, id, c)
    decreases k
  {
    ResolvedAfter(st.plan, k, id);
    if id in Resolved(st.plan, k - 1) {
      c := FindBlocker(st, id, k - 1);
    } else {
      assert HasResultOrWaits(st, id);
      var d :| WaitsFor(st, id, d);
      if IsEscalated(st, d) {
        c := EscalatedBlocks(st, d, id);
      } else {
        c := FindBlocker(st, d, k - 1);
        c := BlockerBlocks(st, c, d, id);
      }
    }
  }

  lemma PartitionAt(cfg: Config, st: GraphState, id: string)
    requires StateInv(cfg, st) && Settled(st) && st.plan != [] && NextBatch(st) == [] && id in Ids(st.plan)
    ensures IsAccepted(st, id) || IsEscalated(st, id) || id !in st.results.vals
    ensures id !in st.results.vals <==> exists c :: BlockedBy(st, id, c)
  {
    ValidPlanKnowsDependencies(st.plan);
    BatchExact(cfg, st);
    assert !NeedsReview(st, id) && !InBatch(NextBatch(st), id);
    if id !in st.results.vals {
      AcyclicResolves(st.plan);
      NothingDueIsStalled(cfg, st);
      var c := FindBlocker(st, id, |st.plan|);
    }
    if c :| BlockedBy(st, id, c) {
      NothingDownstream(cfg, st, c, |c| - 1);
    }
  }

  /** When a non-empty plan goes to synthesis every subtask is accepted, escalated or
      without a result, and it has no result exactly when it depends, transitively, on an
      escalated subtask. */
  lemma FinalPartition(cfg: Config, e: Execution, i: nat, id: string)
    requires IsExecution(cfg, e) && i < |e.runs| && e.runs[i].node.Synthesize?
    requires id in Ids(e.runs[i].st.plan)
    ensures var st := e.runs[i].st;
            && (IsAccepted(st, id) || IsEscalated(st, id) || id !in st.results.vals)
            && (id !in st.results.vals <==> exists c :: BlockedBy(st, id, c))
  {
    Reachable(cfg, e, i);
    PartitionAt(cfg, e.runs[i].st, id);
  }

  /** Without an escalation nothing is dropped: at synthesis every subtask of the plan is
      accepted, also those that once waited for a human. */
  lemma NoEscalationMeansAllAccepted(cfg: Config, e: Execution, i: nat)
    requires IsExecution(cfg, e) && i < |e.runs| && e.runs[i].node.Synthesize?
    requires forall id :: !IsEscalated(e.runs[i].st, id)
    ensures forall id :: id in Ids(e.runs[i].st.plan) ==> IsAccepted(e.runs[i].st, id)
  {
    forall id | id in Ids(e.runs[i].st.plan) ensures IsAccepted(e.runs[i].st, id) {
      FinalPartition(cfg, e, i, id);
    }
  }

  lemma {:induction false} PartsExact(st: GraphState, usable: bool, n: nat, id: string, content: string)
    requires st.results.Valid() && n <= |st.results.keys|
    ensures (id, content) in Parts(st, usable, n) <==>
              id in st.results.keys[..n] && st.results.vals[id].content == content &&
              if usable then IsAccepted(st, id) else content != ""
  {
    if n > 0 {
      PartsExact(st, usable, n - 1, id, content);
      assert st.results.keys[..n] == st.results.keys[..n - 1] + [st.results.keys[n - 1]];
    }
  }

  lemma {:induction false} NotesExact(st: GraphState, n: nat, note: Note)
    requires st.results.Valid() && n <= |st.results.keys|
    ensures note in Notes(st, n) <==>
              note.subtaskId in st.results.keys[..n] && !IsAccepted(st, note.subtaskId)
              && note == NoteOn(st, note.subtaskId)
  {
    if n > 0 {
      NotesExact(st, n - 1, note);
      assert st.results.keys[..n] == st.results.keys[..n - 1] + [st.results.keys[n - 1]];
    }
  }

  function NoteOn(st: GraphState, id: string): Note
    requires id in st.results.vals
  {
    var r := st.results.vals[id];
    Note(id, r.status, if r.error.Some? then r.error.value else "")
  }

  /** Every result that was not accepted is named to the writer as such, with its status and
      error, and no other. */
  lemma WarnedOfTheRest(st: GraphState, note: Note)
    requires st.results.Valid()
    ensures note in WriterNotes(st) <==>
              && note.subtaskId in st.results.vals && !IsAccepted(st, note.subtaskId)
              && note.status == st.results.vals[note.subtaskId].status
              && note.error == NoteOn(st, note.subtaskId).error
  {
    var n := |st.results.keys|;
    assert st.results.keys[..n] == st.results.keys;
    NotesExact(st, n, note);
  }

  /** The contents the writer is briefed with are those of the accepted results; only a run
      that accepted nothing falls back to the other outputs. */
  lemma BriefedWithAccepted(st: GraphState, id: string, content: string)
    requires st.results.Valid() && exists k :: IsAccepted(st, k)
    ensures (id, content) in WriterParts(st) <==> IsAccepted(st, id) && st.results.vals[id].content == content
  {
    var n := |st.results.keys|;
    assert st.results.keys[..n] == st.results.keys;
    var k :| IsAccepted(st, k);
    PartsExact(st, true, n, k, st.results.vals[k].content);
    PartsExact(st, true, n, id, content);
  }

  lemma {:induction false} NothingAccepted(st: GraphState, n: nat)
    requires st.results.Valid() && n <= |st.results.keys| && forall k :: !IsAccepted(st, k)
    ensures Parts(st, true, n) == []
  {
    if n > 0 {
      NothingAccepted(st, n - 1);
      assert !IsAccepted(st, st.results.keys[n - 1]);
    }
  }

  /** A run that accepted nothing briefs the writer with every other output there is. */
  lemma BriefedWithTheRest(st: GraphState, id: string, content: string)
    requires st.results.Valid() && forall k :: !IsAccepted(st, k)
    ensures (id, content) in WriterParts(st) <==>
              id in st.results.vals && st.results.vals[id].content == content && content != ""
  {
    var n := |st.results.keys|;
    assert st.results.keys[..n] == st.results.keys;
    NothingAccepted(st, n);
    PartsExact(st, false, n, id, content);
  }

  lemma {:induction false} PartsOrdered(st: GraphState, usable: bool, n: nat) returns (at: seq<nat>)
    requires st.results.Valid() && n <= |st.results.keys|
    ensures |at| == |Parts(st, usable, n)|
    ensures forall i :: 0 <= i < |at| ==> at[i] < n && Parts(st, usable, n)[i].0 == st.results.keys[at[i]]
    ensures forall i, j :: 0 <= i < j < |at| ==> at[i] < at[j]
  {
    if n == 0 {
      at := [];
    } else {
      at := PartsOrdered(st, usable, n - 1);
      if |Parts(st, usable, n)| > |at| {
        at := at + [n - 1];
      }
    }
  }

  /** In either case each subtask comes once, in the order of the results. */
  lemma BriefedInOrder(st: GraphState) returns (at: seq<nat>)
    requires st.results.Valid()
    ensures |at| == |WriterParts(st)|
    ensures forall i :: 0 <= i < |at| ==> at[i] < |st.results.keys| && WriterParts(st)[i].0 == st.results.keys[at[i]]
    ensures forall i, j :: 0 <= i < j < |at| ==> at[i] < at[j]
  {
    at := PartsOrdered(st, Parts(st, true, |st.results.keys|) != [], |st.results.keys|);
  }

  lemma EndIsLast(cfg: Config, e: Execution, i: nat)
    requires IsExecution(cfg, e) && i < |e.runs| && e.runs[i].node.End?
    ensures i == |e.inputs|
  {
    assert i < |e.inputs| ==> IsStep(cfg, e, i);
  }

  /** So in a run: the writer gets one briefing, just before the run ends, with the contents and
      the warnings that belong into it. */
  lemma BriefedOnce(cfg: Config, e: Execution, i: nat) returns (parts: seq<(string, string)>, notes: seq<Note>)
    requires IsExecution(cfg, e) && i < |e.inputs| && e.runs[i].node.Synthesize? && e.inputs[i].Text?
    ensures Enabled(cfg, e.runs[i], e.inputs[i]) && Events(cfg, e.runs[i], e.inputs[i]) == [WriterBriefed(parts, notes)]
    ensures e.runs[i + 1].node.End? && i + 1 == |e.inputs|
    ensures forall id, content :: (id, content) in parts ==>
              id in e.runs[i].st.results.vals && e.runs[i].st.results.vals[id].content == content
    ensures forall id :: IsAccepted(e.runs[i].st, id) ==> (id, e.runs[i].st.results.vals[id].content) in parts
    ensures forall note :: note in notes ==> note.subtaskId in e.runs[i].st.results.vals
    ensures forall id :: id in e.runs[i].st.results.vals && !IsAccepted(e.runs[i].st, id) ==>
              NoteOn(e.runs[i].st, id) in notes
  {
    assert IsStep(cfg, e, i);
    var st := e.runs[i].st;
    parts, notes := WriterParts(st), WriterNotes(st);
    if exists k :: IsAccepted(st, k) {
      forall id, content
        ensures (id, content) in parts <==> IsAccepted(st, id) && st.results.vals[id].content == content
      {
        BriefedWithAccepted(st, id, content);
      }
    } else {
      forall id, content
        ensures (id, content) in parts <==>
                id in st.results.vals && st.results.vals[id].content == content && content != ""
      {
        BriefedWithTheRest(st, id, content);
      }
    }
    forall note
      ensures note in notes <==>
              && note.subtaskId in st.results.vals && !IsAccepted(st, note.subtaskId)
              && note.status == st.results.vals[note.subtaskId].status
              && note.error == NoteOn(st, note.subtaskId).error
    {
      WarnedOfTheRest(st, note);
    }
    EndIsLast(cfg, e, i + 1);
  }

  // ------------------------------------------------------------ the plan gate

  /** The human's answers that stop a run at the plan gate. */
  ghost predicate GateStops(st: GraphState, d: Decision) {
    match d.action
    case Unspecified => false
    case Approve => false
    case Modify => !ValidPlan(if d.plan != [] then d.plan else st.plan)
    case _ => true
  }

  function StopResponse(d: Decision): FinalResponse {
    match d.action
    case Modify => ModifiedPlanInvalid
    case TakeOver => TakenOver
    case _ => PlanRejected
  }

  /** A plan that is rejected, taken over or modified into an invalid one executes nothing:
      from the gate to the end the state stays what the gate made it, with its response. */
  lemma {:induction false} PlanGateIsFinal(cfg: Config, e: Execution, i: nat, j: nat)
    requires IsExecution(cfg, e) && i < j < |e.runs| && e.runs[i].node.PlanApproval?
    requires e.inputs[i].Answered? && GateStops(e.runs[i].st, e.inputs[i].decision)
    ensures var st := e.runs[j].st;
            && st.plan == [] && Untouched(st)
            && st.finalResponse == Some(StopResponse(e.inputs[i].decision))
            && (e.runs[j].node.Dispatch? || e.runs[j].node.Synthesize? || e.runs[j].node.End?)
  {
    Reachable(cfg, e, i);
    assert IsStep(cfg, e, j - 1);
    if j - 1 > i {
      PlanGateIsFinal(cfg, e, i, j - 1);
    }
  }

  lemma EmptyPlanDoesNothing(cfg: Config, st: GraphState)
    requires StateInv(cfg, st) && st.plan == []
    ensures st.results.vals == map[] && st.pending.vals == map[]
  {
    assert forall id :: id !in st.results.vals;
    assert forall s :: s !in st.pending.vals;
  }

  lemma PlanKept(cfg: Config, r: Run, inp: Input)
    requires Enabled(cfg, r, inp) && !r.node.Supervisor? && !r.node.PlanApproval?
    ensures var next := Next(cfg, r, inp);
            && !next.node.Supervisor? && !next.node.PlanApproval?
            && next.st.plan == r.st.plan && next.st.planConfidence == r.st.planConfidence
  {
  }

  lemma {:induction false} AfterPlanning(cfg: Config, e: Execution, i: nat)
    requires IsExecution(cfg, e) && 2 <= i < |e.runs|
    ensures !e.runs[i].node.Supervisor? && !e.runs[i].node.PlanApproval?
    ensures e.runs[i].st.plan == e.runs[2].st.plan && e.runs[i].st.planConfidence == e.runs[1].st.planConfidence
  {
    if i > 2 {
      AfterPlanning(cfg, e, i - 1);
      assert IsStep(cfg, e, i - 1);
      PlanKept(cfg, e.runs[i - 1], e.inputs[i - 1]);
    } else {
      assert IsStep(cfg, e, 0) && IsStep(cfg, e, 1);
    }
  }

  /** The gates have an order: nobody is asked about a failed subtask while a sensitive
      action is pending, nor with human approval off; a gate is only entered when it has
      something to ask, and a review only leads past the gates when they have nothing to ask. */
  lemma GatesInOrder(cfg: Config, e: Execution, i: nat)
    requires IsExecution(cfg, e) && i < |e.runs|
    ensures e.runs[i].node.ActionApproval? ==> HasPending(e.runs[i].st)
    ensures e.runs[i].node.FailureApproval? ==>
              cfg.hitlEnabled && !HasPending(e.runs[i].st) && exists id :: IsUndecided(e.runs[i].st, id)
    ensures i > 0 && e.runs[i - 1].node.ReviewBatch? && e.runs[i].node.Dispatch? ==>
              !HasPending(e.runs[i].st) && (cfg.hitlEnabled ==> forall id :: !IsUndecided(e.runs[i].st, id))
  {
    Reachable(cfg, e, i);
    assert i > 0 ==> IsStep(cfg, e, i - 1);
  }

  /** Only plans that pass `validate_plan` are ever executed. */
  lemma ExecutedPlansAreValid(cfg: Config, e: Execution, i: nat)
    requires IsExecution(cfg, e) && i < |e.runs|
    requires e.runs[i].node.ExecuteBatch? || e.runs[i].st.results.vals != map[] || e.runs[i].st.pending.vals != map[]
    ensures ValidPlan(e.runs[i].st.plan)
  {
    Reachable(cfg, e, i);
    if e.runs[i].st.plan == [] {
      EmptyPlanDoesNothing(cfg, e.runs[i].st);
    }
  }
}
