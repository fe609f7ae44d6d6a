/** What the driver's log accounts for in a committed checkpoint, under any schedule: which
    approvals let a tool run, who vouched for an accepted result and where its content came
    from. */
module Provenance {
  import opened Dicts
  import opened Tools
  import opened Agents
  import opened Engine
  import opened Invariant
  import opened Steps
  import opened Runs
  import opened Termination
  import opened Driver

  // ------------------------------------------------------------ approvals

  ghost predicate ApprovedIn(log: seq<Event>, s: Signature) {
    ActionDecided(s, true) in log
  }

  ghost predicate ApprovalsLogged(st: GraphState, log: seq<Event>) {
    forall s :: s in st.pending.vals && st.pending.vals[s].status.Approved? ==> ApprovedIn(log, s)
  }

  lemma NewlyApproved(cfg: Config, r: Run, inp: Input, s: Signature)
    requires Inv(cfg, r) && Enabled(cfg, r, inp)
    requires s in Next(cfg, r, inp).st.pending.vals && Next(cfg, r, inp).st.pending.vals[s].status.Approved?
    ensures (s in r.st.pending.vals && r.st.pending.vals[s].status.Approved?) || ApprovedIn(Events(cfg, r, inp), s)
  {
    match r.node
    case ExecuteBatch(batch) => ExecuteApprovesNothing(cfg, r.st, batch, inp.turns, s);
    case ActionApproval =>
      FirstPendingExists(r.st);
      ActionDecisionAt(r.st, inp.decision);
    case FailureApproval => FailureKeepsRest(r.st, inp.decision);
    case _ =>
  }

  lemma ExecuteApprovesNothing(cfg: Config, st: GraphState, batch: seq<Payload>, turns: seq<seq<Turn>>, s: Signature)
    requires StateInv(cfg, st) && st.plan != [] && batch == NextBatch(st) && TurnsFor(batch, turns)
    requires var after := AfterExecute(st, Branches(cfg, batch, turns)).pending.vals;
             s in after && after[s].status.Approved?
    ensures s in st.pending.vals && st.pending.vals[s].status.Approved?
  {
    BatchExact(cfg, st);
    BranchesCompatible(cfg, batch, turns);
    var branches := Branches(cfg, batch, turns);
    PendingAt(st, branches, s);
    forall i | 0 <= i < |batch| ensures !Asks(branches, i, s) {
      BranchFacts(cfg, batch[i], turns[i]);
    }
  }

  // ------------------------------------------------------------ accepted results

  /** The content was accepted by a review that scored it at least 0.75, or let through as it
      stands by an "approve" at the failure gate of its subtask. */
  ghost predicate Vouched(log: seq<Event>, id: string, content: string) {
    || FailureDecided(id, content, Approve) in log
    || exists score: real :: score >= 0.75 && Judged(id, content, Some(score), Accepted) in log
  }

  lemma {:induction false} JudgedIsLogged(st: GraphState, reviews: map<string, Review>, n: nat, i: nat)
    requires ReviewsFor(st, reviews) && i < n <= |st.plan| && NeedsReview(st, st.plan[i].id)
    ensures var id := st.plan[i].id;
            var result := st.results.vals[id];
            Judged(id, result.content, if result.status.Error? then None else Some(reviews[id].scores.Overall()),
                   ReviewedResult(st, id, reviews[id]).status) in ReviewEvents(st, reviews, n)
  {
    if i < n - 1 {
      JudgedIsLogged(st, reviews, n - 1, i);
    }
  }

  lemma AcceptanceNeedsScore(result: SubtaskResult, made: nat, raw: Review)
    requires JudgedStatus(result, made, raw).Accepted?
    ensures !result.status.Error? && raw.scores.Overall() >= 0.75
  {
  }

  lemma ReviewLogs(cfg: Config, st: GraphState, reviews: map<string, Review>, id: string)
    requires StateInv(cfg, st) && ReviewsFor(st, reviews) && NeedsReview(st, id) && id in reviews
    requires ReviewedResult(st, id, reviews[id]).status.Accepted?
    ensures Vouched(ReviewEvents(st, reviews, |st.plan|), id, st.results.vals[id].content)
  {
    var i := PlanIndex(cfg, st, id);
    JudgedIsLogged(st, reviews, |st.plan|, i);
    AcceptanceNeedsScore(st.results.vals[id], Attempts(st, id) + 1, reviews[id]);
  }

  lemma ReviewVouches(cfg: Config, st: GraphState, reviews: map<string, Review>, id: string)
    requires StateInv(cfg, st) && ReviewsFor(st, reviews)
    requires IsAccepted(AfterReview(st, reviews), id) && !IsAccepted(st, id)
    ensures Vouched(ReviewEvents(st, reviews, |st.plan|), id, AfterReview(st, reviews).results.vals[id].content)
  {
    if NeedsReview(st, id) {
      ReviewedAt(cfg, st, reviews, id);
      ReviewLogs(cfg, st, reviews, id);
    } else {
      UnreviewedAt(st, reviews, id);
    }
  }

  lemma FailureVouches(st: GraphState, d: Decision, id: string, target: string)
    requires st.results.Valid() && FirstUndecided(st) == Some(target)
    requires IsAccepted(AfterFailureDecision(st, d), id) && !IsAccepted(st, id)
    ensures id == target && d.action.Approve?
    ensures AfterFailureDecision(st, d).results.vals[id].content == st.results.vals[id].content
  {
    FailureDecisionAt(st, d, target);
  }

  lemma ExecuteAcceptsNothing(cfg: Config, r: Run, inp: Input, id: string)
    requires Inv(cfg, r) && Enabled(cfg, r, inp) && !r.node.ReviewBatch? && !r.node.FailureApproval?
    requires IsAccepted(Next(cfg, r, inp).st, id)
    ensures IsAccepted(r.st, id)
  {
    if r.node.ExecuteBatch? {
      ExecuteSlot(cfg, r.st, r.node.batch, inp.turns, id);
    }
  }

  lemma NewlyAccepted(cfg: Config, r: Run, inp: Input, id: string)
    requires Inv(cfg, r) && Enabled(cfg, r, inp)
    requires IsAccepted(Next(cfg, r, inp).st, id) && !IsAccepted(r.st, id)
    ensures Vouched(Events(cfg, r, inp), id, Next(cfg, r, inp).st.results.vals[id].content)
  {
    if r.node.ReviewBatch? {
      ReviewVouches(cfg, r.st, inp.reviews, id);
    } else if r.node.FailureApproval? {
      var some :| IsUndecided(r.st, some);
      FirstUndecidedExists(r.st, some);
      FailureVouches(r.st, inp.decision, id, FirstUndecided(r.st).value);
    } else {
      ExecuteAcceptsNothing(cfg, r, inp, id);
    }
  }

  // ------------------------------------------------------------ where contents come from

  ghost predicate Sourced(log: seq<Event>, id: string, content: string) {
    content == "" || Produced(id, content) in log
  }

  lemma {:induction false} BranchIsLogged(cfg: Config, batch: seq<Payload>, turns: seq<seq<Turn>>, n: nat, i: nat,
                                          x: Event)
    requires TurnsFor(batch, turns) && i < n <= |batch| && x in BranchEvents(cfg, batch[i], turns[i])
    ensures x in ExecuteEvents(cfg, batch, turns, n)
  {
    var front, last := ExecuteEvents(cfg, batch, turns, n - 1), BranchEvents(cfg, batch[n - 1], turns[n - 1]);
    if i < n - 1 {
      BranchIsLogged(cfg, batch, turns, n - 1, i, x);
    }
    InEither(front, last, x);
  }

  lemma InEither(a: seq<Event>, b: seq<Event>, x: Event)
    ensures x in a + b <==> x in a || x in b
  {
  }

  lemma ExecuteSources(cfg: Config, st: GraphState, batch: seq<Payload>, turns: seq<seq<Turn>>, id: string)
    requires DistinctTasks(batch) && TurnsFor(batch, turns)
    requires id in AfterExecute(st, Branches(cfg, batch, turns)).results.vals
    ensures var after := AfterExecute(st, Branches(cfg, batch, turns)).results.vals;
            || (id in st.results.vals && after[id] == st.results.vals[id])
            || Sourced(ExecuteEvents(cfg, batch, turns, |batch|), id, after[id].content)
  {
    BranchesCompatible(cfg, batch, turns);
    var branches := Branches(cfg, batch, turns);
    ResultAt(st, branches, id);
    if i :| Writes(branches, i, id) {
      BranchFacts(cfg, batch[i], turns[i]);
      if branches[i].result.status.Success? {
        BranchIsLogged(cfg, batch, turns, |batch|, i, Produced(id, branches[i].result.content));
      }
    }
  }

  lemma FailureKeepsContent(st: GraphState, d: Decision, target: string, id: string)
    requires st.results.Valid() && FirstUndecided(st) == Some(target) && id in AfterFailureDecision(st, d).results.vals
    ensures id in st.results.vals && AfterFailureDecision(st, d).results.vals[id].content == st.results.vals[id].content
  {
    FailureDecisionAt(st, d, target);
  }

  lemma ContentKept(cfg: Config, r: Run, inp: Input, id: string)
    requires Inv(cfg, r) && Enabled(cfg, r, inp) && !r.node.ExecuteBatch? && id in Next(cfg, r, inp).st.results.vals
    ensures id in r.st.results.vals && Next(cfg, r, inp).st.results.vals[id].content == r.st.results.vals[id].content
  {
    if r.node.FailureApproval? {
      var some :| IsUndecided(r.st, some);
      FirstUndecidedExists(r.st, some);
      FailureKeepsContent(r.st, inp.decision, FirstUndecided(r.st).value, id);
    }
  }

  // ------------------------------------------------------------ the steps of a line

  /** What step `k` of the line showed the world. */
  ghost function StepEvents(cfg: Config, e: Execution, k: nat): seq<Event> {
    if k < |e.runs| && k < |e.inputs| && Enabled(cfg, e.runs[k], e.inputs[k]) then
      Events(cfg, e.runs[k], e.inputs[k])
    else []
  }

  ghost predicate Within(log: seq<Event>, more: seq<Event>) {
    forall x :: x in log ==> x in more
  }

  /** Every step of the line is in the log. */
  ghost predicate LineLogged(cfg: Config, e: Execution, log: seq<Event>) {
    forall k :: 0 <= k < |e.inputs| ==> Within(StepEvents(cfg, e, k), log)
  }

  lemma StepApproves(cfg: Config, e: Execution, n: nat, log: seq<Event>)
    requires IsPath(cfg, e) && n < |e.inputs| && Inv(cfg, e.runs[n])
    requires LineLogged(cfg, e, log) && ApprovalsLogged(e.runs[n].st, log)
    ensures ApprovalsLogged(e.runs[n + 1].st, log)
  {
    assert IsStep(cfg, e, n) && Within(StepEvents(cfg, e, n), log);
    var next := e.runs[n + 1].st;
    forall s | s in next.pending.vals && next.pending.vals[s].status.Approved? ensures ApprovedIn(log, s) {
      NewlyApproved(cfg, e.runs[n], e.inputs[n], s);
    }
  }

  lemma {:induction false} LineApprovals(cfg: Config, e: Execution, n: nat, log: seq<Event>)
    requires IsExecution(cfg, e) && n < |e.runs| && LineLogged(cfg, e, log)
    ensures ApprovalsLogged(e.runs[n].st, log)
  {
    if n > 0 {
      LineApprovals(cfg, e, n - 1, log);
      Reachable(cfg, e, n - 1);
      StepApproves(cfg, e, n - 1, log);
    }
  }

  /** Step `k` of the line accepted the result as it stands at `n`, and vouched for it. */
  ghost predicate AcceptedBy(cfg: Config, e: Execution, k: nat, n: nat, id: string)
    requires k < n < |e.runs|
  {
    && !IsAccepted(e.runs[k].st, id) && IsAccepted(e.runs[k + 1].st, id) && IsAccepted(e.runs[n].st, id)
    && e.runs[k + 1].st.results.vals[id] == e.runs[n].st.results.vals[id]
    && Vouched(StepEvents(cfg, e, k), id, e.runs[n].st.results.vals[id].content)
  }

  lemma StepAccepts(cfg: Config, e: Execution, n: nat, id: string)
    requires IsExecution(cfg, e) && n < |e.inputs|
    ensures IsAccepted(e.runs[n].st, id) ==>
              IsAccepted(e.runs[n + 1].st, id) && e.runs[n + 1].st.results.vals[id] == e.runs[n].st.results.vals[id]
    ensures IsAccepted(e.runs[n + 1].st, id) && !IsAccepted(e.runs[n].st, id) ==> AcceptedBy(cfg, e, n, n + 1, id)
  {
    Reachable(cfg, e, n);
    assert IsStep(cfg, e, n);
    StepKeepsInv(cfg, e.runs[n], e.inputs[n]);
    if IsAccepted(e.runs[n + 1].st, id) && !IsAccepted(e.runs[n].st, id) {
      NewlyAccepted(cfg, e.runs[n], e.inputs[n], id);
    }
  }

  lemma StartsEmpty(cfg: Config, e: Execution, id: string)
    requires IsExecution(cfg, e)
    ensures id !in e.runs[0].st.results.vals
  {
  }

  lemma AcceptedLater(cfg: Config, e: Execution, k: nat, n: nat, id: string)
    requires k < n && n + 1 < |e.runs| && AcceptedBy(cfg, e, k, n, id) && IsAccepted(e.runs[n + 1].st, id)
    requires e.runs[n + 1].st.results.vals[id] == e.runs[n].st.results.vals[id]
    ensures AcceptedBy(cfg, e, k, n + 1, id)
  {
  }

  lemma {:induction false} AcceptingStep(cfg: Config, e: Execution, n: nat, id: string) returns (k: nat)
    requires IsExecution(cfg, e) && n < |e.runs| && IsAccepted(e.runs[n].st, id)
    ensures k < n && AcceptedBy(cfg, e, k, n, id)
  {
    StartsEmpty(cfg, e, id);
    StepAccepts(cfg, e, n - 1, id);
    if IsAccepted(e.runs[n - 1].st, id) {
      k := AcceptingStep(cfg, e, n - 1, id);
      AcceptedLater(cfg, e, k, n - 1, id);
    } else {
      k := n - 1;
    }
  }

  lemma StepSources(cfg: Config, e: Execution, n: nat, id: string)
    requires IsExecution(cfg, e) && n < |e.inputs| && id in e.runs[n + 1].st.results.vals
    ensures var content := e.runs[n + 1].st.results.vals[id].content;
            || (id in e.runs[n].st.results.vals && e.runs[n].st.results.vals[id].content == content)
            || Sourced(StepEvents(cfg, e, n), id, content)
  {
    Reachable(cfg, e, n);
    assert IsStep(cfg, e, n);
    var r, inp := e.runs[n], e.inputs[n];
    if r.node.ExecuteBatch? {
      BatchDistinct(cfg, r.st);
      ExecuteSources(cfg, r.st, r.node.batch, inp.turns, id);
    } else {
      ContentKept(cfg, r, inp, id);
    }
  }

  lemma {:induction false} ProducingStep(cfg: Config, e: Execution, n: nat, id: string) returns (k: nat)
    requires IsExecution(cfg, e) && n < |e.runs|
    requires id in e.runs[n].st.results.vals && e.runs[n].st.results.vals[id].content != ""
    ensures k < n && Produced(id, e.runs[n].st.results.vals[id].content) in StepEvents(cfg, e, k)
  {
    StartsEmpty(cfg, e, id);
    StepSources(cfg, e, n - 1, id);
    var content := e.runs[n].st.results.vals[id].content;
    if Produced(id, content) in StepEvents(cfg, e, n - 1) {
      k := n - 1;
    } else {
      k := ProducingStep(cfg, e, n - 1, id);
    }
  }

  // ------------------------------------------------------------ any schedule

  lemma SameEvents(a: seq<Event>, b: seq<Event>)
    requires multiset(a) == multiset(b)
    ensures forall x :: x in a <==> x in b
  {
    forall x ensures x in a <==> x in b {
      assert x in a <==> x in multiset(a);
      assert x in b <==> x in multiset(b);
    }
  }

  /** The log has every step of every committed line. */
  ghost predicate CommitsLogged(cfg: Config, w: World) {
    forall c :: c in w.commits ==> LineLogged(cfg, c, w.log)
  }

  /** The checkpoint a worker stands at. */
  lemma WorkerAt(cfg: Config, w: World, n: nat)
    requires Durable(cfg, w) && CommitsLogged(cfg, w) && n in w.workers
    ensures var line := w.workers[n].line;
            && IsExecution(cfg, line) && Inv(cfg, Last(line)) && LineLogged(cfg, line, w.log)
            && ApprovalsLogged(Last(line).st, w.log)
  {
    var worker := w.workers[n];
    assert WorkerSound(cfg, w.commits, worker);
    Reachable(cfg, worker.line, |worker.line.inputs|);
    LineApprovals(cfg, worker.line, |worker.line.inputs|, w.log);
  }

  lemma LoggedLater(cfg: Config, e: Execution, log: seq<Event>, more: seq<Event>)
    requires LineLogged(cfg, e, log) && Within(log, more)
    ensures LineLogged(cfg, e, more)
  {
    forall k | 0 <= k < |e.inputs| ensures Within(StepEvents(cfg, e, k), more) {
      assert Within(StepEvents(cfg, e, k), log);
    }
  }

  lemma SteppedEvents(cfg: Config, w: Worker, inp: Input, k: nat)
    requires IsExecution(cfg, w.line) && CanTake(cfg, w, inp) && k <= |w.line.inputs|
    ensures StepEvents(cfg, Stepped(cfg, w, inp).line, k) ==
            if k < |w.line.inputs| then StepEvents(cfg, w.line, k) else Events(cfg, Last(w.line), inp)
  {
    var longer := Stepped(cfg, w, inp).line;
    assert longer.runs[k] == w.line.runs[k];
  }

  lemma SteppedLogged(cfg: Config, w: Worker, inp: Input, log: seq<Event>)
    requires IsExecution(cfg, w.line) && CanTake(cfg, w, inp)
    requires LineLogged(cfg, w.line, log) && Within(Events(cfg, Last(w.line), inp), log)
    ensures LineLogged(cfg, Stepped(cfg, w, inp).line, log)
  {
    var longer := Stepped(cfg, w, inp).line;
    forall k | 0 <= k < |longer.inputs| ensures Within(StepEvents(cfg, longer, k), log) {
      SteppedEvents(cfg, w, inp, k);
      assert k < |w.line.inputs| ==> Within(StepEvents(cfg, w.line, k), log);
    }
  }

  lemma MoveKeepsLogged(cfg: Config, w: World, m: Move)
    requires Durable(cfg, w) && CommitsLogged(cfg, w) && Allowed(cfg, w, m)
    ensures CommitsLogged(cfg, Do(cfg, w, m))
  {
    var after := Do(cfg, w, m);
    if m.SuperStep? {
      WorkerAt(cfg, w, m.worker);
      SameEvents(m.effects, Events(cfg, Last(w.workers[m.worker].line), m.inp));
      LoggedLater(cfg, w.workers[m.worker].line, w.log, after.log);
      SteppedLogged(cfg, w.workers[m.worker], m.inp, after.log);
    } else if m.CommitInput? {
      WorkerAt(cfg, w, m.worker);
    }
    forall c | c in after.commits ensures LineLogged(cfg, c, after.log) {
      if c in w.commits {
        LoggedLater(cfg, c, w.log, after.log);
      }
    }
  }

  lemma LoggedNext(cfg: Config, h: History, n: nat)
    requires IsSchedule(cfg, h) && n < |h.moves| && CommitsLogged(cfg, h.worlds[n])
    ensures CommitsLogged(cfg, h.worlds[n + 1])
  {
    CrashRefinement(cfg, h, n);
    assert IsTransition(cfg, h, n);
    MoveKeepsLogged(cfg, h.worlds[n], h.moves[n]);
  }

  lemma {:induction false} AlwaysLogged(cfg: Config, h: History, n: nat)
    requires IsSchedule(cfg, h) && n < |h.worlds|
    ensures CommitsLogged(cfg, h.worlds[n])
  {
    if n > 0 {
      AlwaysLogged(cfg, h, n - 1);
      LoggedNext(cfg, h, n - 1);
    }
  }

  /** An accepted result in a committed checkpoint was accepted by one step of that very line,
      and has not changed since: by a review that scored it at least 0.75, or at the failure
      gate, which let it through as it stands. That step is in the log. */
  lemma AcceptedResultsAreVouched(cfg: Config, h: History, n: nat, c: Execution, id: string) returns (k: nat)
    requires IsSchedule(cfg, h) && n < |h.worlds| && c in h.worlds[n].commits
    requires c.runs != [] && IsAccepted(Last(c).st, id)
    ensures k < |c.runs| - 1 && AcceptedBy(cfg, c, k, |c.runs| - 1, id)
    ensures Within(StepEvents(cfg, c, k), h.worlds[n].log)
  {
    AlwaysLogged(cfg, h, n);
    CommittedLine(cfg, h, n, c);
    k := AcceptingStep(cfg, c, |c.runs| - 1, id);
    assert LineLogged(cfg, c, h.worlds[n].log);
  }

  /** No content is invented: what a committed result says was answered, on that very line and
      in the log, by a specialist that worked on that very subtask, unless it is empty. */
  lemma ContentsAreProduced(cfg: Config, h: History, n: nat, c: Execution, id: string) returns (k: nat)
    requires IsSchedule(cfg, h) && n < |h.worlds| && c in h.worlds[n].commits
    requires c.runs != [] && id in Last(c).st.results.vals && Last(c).st.results.vals[id].content != ""
    ensures k < |c.runs| - 1 && Produced(id, Last(c).st.results.vals[id].content) in StepEvents(cfg, c, k)
    ensures Within(StepEvents(cfg, c, k), h.worlds[n].log)
  {
    AlwaysLogged(cfg, h, n);
    CommittedLine(cfg, h, n, c);
    k := ProducingStep(cfg, c, |c.runs| - 1, id);
    assert LineLogged(cfg, c, h.worlds[n].log);
  }

  lemma CommittedLine(cfg: Config, h: History, n: nat, c: Execution)
    requires IsSchedule(cfg, h) && n < |h.worlds| && c in h.worlds[n].commits
    ensures IsExecution(cfg, c)
  {
    CrashRefinement(cfg, h, n);
    var k :| 0 <= k < |h.worlds[n].commits| && h.worlds[n].commits[k] == c;
    assert Descends(cfg, h.worlds[n].commits, k);
  }

  // ------------------------------------------------------------ approvals precede tool runs

  /** Every sensitive tool run in the log comes after the action gate approved that call. */
  ghost predicate ToolsApproved(cfg: Config, log: seq<Event>) {
    forall k, s :: 0 <= k < |log| && log[k] == ToolRan(s) && s.tool in cfg.sensitive ==> ApprovedIn(log[..k], s)
  }

  lemma ToolsApprovedMore(cfg: Config, log: seq<Event>, more: seq<Event>)
    requires ToolsApproved(cfg, log)
    requires forall s :: ToolRan(s) in more && s.tool in cfg.sensitive ==> ApprovedIn(log, s)
    ensures ToolsApproved(cfg, log + more)
  {
    var all := log + more;
    forall k, s | 0 <= k < |all| && all[k] == ToolRan(s) && s.tool in cfg.sensitive ensures ApprovedIn(all[..k], s) {
      if k < |log| {
        assert all[..k] == log[..k];
      } else {
        assert all[k] == more[k - |log|] && ApprovedIn(log, s);
        assert all[..k] == log + more[..k - |log|];
      }
    }
  }

  /** The effects of a super-step, kept or lost, are covered by approvals already logged. */
  lemma EffectsCovered(cfg: Config, w: World, n: nat, inp: Input, effects: seq<Event>)
    requires Durable(cfg, w) && CommitsLogged(cfg, w) && ToolsApproved(cfg, w.log)
    requires n in w.workers && CanTake(cfg, w.workers[n], inp)
    requires Within(effects, Events(cfg, Last(w.workers[n].line), inp))
    ensures ToolsApproved(cfg, w.log + effects)
  {
    WorkerAt(cfg, w, n);
    forall s | ToolRan(s) in effects && s.tool in cfg.sensitive ensures ApprovedIn(w.log, s) {
      RunsOnlyApproved(cfg, Last(w.workers[n].line), inp, s);
    }
    ToolsApprovedMore(cfg, w.log, effects);
  }

  lemma MoveKeepsToolsApproved(cfg: Config, w: World, m: Move)
    requires Durable(cfg, w) && CommitsLogged(cfg, w) && ToolsApproved(cfg, w.log) && Allowed(cfg, w, m)
    ensures ToolsApproved(cfg, Do(cfg, w, m).log)
  {
    match m
    case SuperStep(n, inp, effects) =>
      SameEvents(effects, Events(cfg, Last(w.workers[n].line), inp));
      EffectsCovered(cfg, w, n, inp, effects);
    case Kill(n, lost, effects) =>
      if lost.Some? {
        EffectsCovered(cfg, w, n, lost.value, effects);
      } else {
        assert w.log + effects == w.log;
      }
    case Decide(id, _, resolution) => ToolsApprovedMore(cfg, w.log, GivenAnswer(w.rows, id, resolution));
    case _ =>
  }

  lemma ToolsApprovedNext(cfg: Config, h: History, n: nat)
    requires IsSchedule(cfg, h) && n < |h.moves| && ToolsApproved(cfg, h.worlds[n].log)
    ensures ToolsApproved(cfg, h.worlds[n + 1].log)
  {
    AlwaysLogged(cfg, h, n);
    CrashRefinement(cfg, h, n);
    assert IsTransition(cfg, h, n);
    MoveKeepsToolsApproved(cfg, h.worlds[n], h.moves[n]);
  }

  /** Over any schedule, in work that is lost to a kill as in any other, a sensitive tool runs
      only after the action gate of exactly that subtask, tool and arguments was passed with
      an approval. */
  lemma {:induction false} SensitiveToolsAreApproved(cfg: Config, h: History, n: nat)
    requires IsSchedule(cfg, h) && n < |h.worlds|
    ensures ToolsApproved(cfg, h.worlds[n].log)
  {
    if n > 0 {
      SensitiveToolsAreApproved(cfg, h, n - 1);
      ToolsApprovedNext(cfg, h, n - 1);
    }
  }
}
