/** What every super-step keeps. Each subtask is a slot (status, attempts, human decision) that moves down a fixed
    order; the invariant ties the slots, the dependencies, the pending approvals and the next node together. */
module Invariant {
  import opened Dicts
  import opened Plans
  import opened Tools
  import opened Engine

  // ------------------------------------------------------------ slots

  datatype Slot = Slot(status: Option<Status>, attempts: nat, decision: Option<Action>)

  function SlotOf(st: GraphState, id: string): Slot {
    Slot(if id in st.results.vals then Some(st.results.vals[id].status) else None,
         Attempts(st, id),
         if id in st.failureDecisions then Some(st.failureDecisions[id]) else None)
  }

  /** The combinations a subtask can be in. Two attempts are the cap, a human's one retry
      buys a third. */
  predicate SlotOk(s: Slot) {
    match s.status
    case None => s.attempts == 0 && s.decision.None?
    case Some(Success) => Unreviewed(s)
    case Some(Error) => Unreviewed(s)
    case Some(RetryDue) =>
      if s.decision.None? then s.attempts == 1 else s.decision == Some(Action.Retry) && 1 <= s.attempts <= 2
    case Some(Accepted) =>
      if s.decision == Some(Action.Retry) then 2 <= s.attempts <= 3
      else (s.decision.None? || s.decision == Some(Approve)) && 1 <= s.attempts <= 2
    case Some(Escalated) =>
      if s.decision == Some(Action.Retry) then 2 <= s.attempts <= 3
      else (s.decision.None? || s.decision == Some(Reject)) && 1 <= s.attempts <= 2
  }

  predicate Unreviewed(s: Slot) {
    if s.decision.None? then s.attempts <= 1 else s.decision == Some(Action.Retry) && 1 <= s.attempts <= 2
  }

  /** The order slots move down. */
  function Rank(s: Slot): nat {
    match s.status
    case None => 7
    case Some(RetryDue) => if s.decision.None? then 5 else 2
    case Some(Accepted) => 0
    case Some(Escalated) => if s.decision.None? then 3 else 0
    case _ => if s.decision.Some? then 1 else if s.attempts == 0 then 6 else 4
  }

  ghost predicate SlotsOk(st: GraphState) {
    forall id :: SlotOk(SlotOf(st, id))
  }

  // ------------------------------------------------------------ the invariant

  ghost predicate DepsAccepted(st: GraphState, id: string) {
    forall d :: d in Deps(st.plan, id) ==> IsAccepted(st, d)
  }

  /** Nothing awaits a review. */
  ghost predicate Settled(st: GraphState) {
    forall id :: !NeedsReview(st, id)
  }

  /** An entry describes exactly the call its signature stands for, but for the arguments
      that an approval may have edited. */
  ghost predicate PendingOk(cfg: Config, st: GraphState) {
    forall s :: s in st.pending.vals ==>
      && s.subtaskId in Ids(st.plan) && s.tool in cfg.sensitive
      && st.pending.vals[s].subtaskId == s.subtaskId && st.pending.vals[s].tool == s.tool
      && (!st.pending.vals[s].status.Approved? ==> st.pending.vals[s].arguments == s.arguments)
  }

  ghost predicate StateInv(cfg: Config, st: GraphState) {
    && st.results.Valid() && st.pending.Valid()
    && (st.plan == [] || ValidPlan(st.plan))
    && (forall id :: id in st.results.vals ==> id in Ids(st.plan) && DepsAccepted(st, id))
    && SlotsOk(st)
    && (forall id :: Attempts(st, id) > 0 ==> id in st.feedback)
    && PendingOk(cfg, st)
  }

  ghost predicate Untouched(st: GraphState) {
    && st.results == Empty() && st.pending == Empty() && st.attempts == map[] && st.failureDecisions == map[]
  }

  ghost predicate NodeInv(cfg: Config, r: Run) {
    && (r.node.End? || (r.st.finalResponse.Some? ==> r.st.plan == []))
    && match r.node
       case Supervisor => r == InitialRun()
       case PlanApproval => Untouched(r.st) && r.st.finalResponse.None?
       case ExecuteBatch(batch) => Settled(r.st) && batch == NextBatch(r.st) && batch != [] && r.st.plan != []
       case ReviewBatch => HasPending(r.st) || exists id :: NeedsReview(r.st, id)
       case ActionApproval => Settled(r.st) && HasPending(r.st)
       case FailureApproval =>
         Settled(r.st) && cfg.hitlEnabled && !HasPending(r.st) && exists id :: IsUndecided(r.st, id)
       case Synthesize => Settled(r.st) && RouteNext(r.st) == Synthesize
       case _ => Settled(r.st)
  }

  ghost predicate Inv(cfg: Config, r: Run) {
    StateInv(cfg, r.st) && NodeInv(cfg, r)
  }

  lemma InitialInv(cfg: Config)
    ensures Inv(cfg, InitialRun())
  {
  }

  // ------------------------------------------------------------ the batch

  ghost predicate DistinctTasks(batch: seq<Payload>) {
    forall i, j :: 0 <= i < j < |batch| ==> batch[i].task.id != batch[j].task.id
  }

  lemma {:induction false} ReadySendsFacts(st: GraphState, n: nat)
    requires UniqueIds(st.plan) && n <= |st.plan|
    ensures forall p :: p in ReadySends(st, n) ==>
              p == ExecutePayload(st, p.task) && p.task in st.plan[..n] && IsReady(st, p.task)
    ensures forall i :: 0 <= i < n && IsReady(st, st.plan[i]) ==> ExecutePayload(st, st.plan[i]) in ReadySends(st, n)
    ensures DistinctTasks(ReadySends(st, n))
  {
    if n > 0 {
      ReadySendsFacts(st, n - 1);
      var front, t := ReadySends(st, n - 1), st.plan[n - 1];
      forall p | p in front ensures p.task.id != t.id && p.task in st.plan[..n] {
        assert p.task in st.plan[..n - 1];
      }
      assert t in st.plan[..n];
    }
  }

  lemma {:induction false} FindTaskFinds(plan: Plan, t: Subtask)
    requires UniqueIds(plan) && t in plan
    ensures FindTask(plan, t.id) == Some(t)
  {
    var i :| 0 <= i < |plan| && plan[i] == t;
    if i > 0 {
      assert plan[1..][i - 1] == t;
      FindTaskFinds(plan[1..], t);
    }
  }

  ghost predicate KnownResults(st: GraphState) {
    && UniqueIds(st.plan) && st.results.Valid()
    && forall id :: id in st.results.vals ==> id in Ids(st.plan)
  }

  lemma RetrySendFacts(st: GraphState, id: string)
    requires KnownResults(st) && id in st.results.vals
    ensures IsRetryDue(st, id) ==>
              |RetrySend(st, id)| == 1 && RetrySend(st, id)[0].task in st.plan && RetrySend(st, id)[0].task.id == id
  {
    var t :| t in st.plan && t.id == id;
    FindTaskFinds(st.plan, t);
  }

  lemma {:induction false} RetrySource(st: GraphState, n: nat, p: Payload) returns (i: nat)
    requires n <= |st.results.keys| && p in RetrySends(st, n)
    ensures i < n && p in RetrySend(st, st.results.keys[i])
  {
    if p in RetrySends(st, n - 1) {
      i := RetrySource(st, n - 1, p);
    } else {
      i := n - 1;
    }
  }

  lemma {:induction false} RetryTarget(st: GraphState, n: nat, i: nat, p: Payload)
    requires i < n <= |st.results.keys| && p in RetrySend(st, st.results.keys[i])
    ensures p in RetrySends(st, n)
  {
    if i < n - 1 {
      RetryTarget(st, n - 1, i, p);
    }
  }

  /** A retry payload is the one that its subtask's result asks for. */
  lemma RetryPayload(st: GraphState, n: nat, p: Payload) returns (i: nat)
    requires KnownResults(st) && n <= |st.results.keys| && p in RetrySends(st, n)
    ensures i < n && p.task.id == st.results.keys[i] && p.task in st.plan
    ensures IsRetryDue(st, p.task.id) && RetrySend(st, p.task.id) == [p]
  {
    i := RetrySource(st, n, p);
    RetrySendFacts(st, st.results.keys[i]);
  }

  lemma {:induction false} RetrySendsDistinct(st: GraphState, n: nat)
    requires KnownResults(st) && n <= |st.results.keys|
    ensures DistinctTasks(RetrySends(st, n))
  {
    if n > 0 {
      RetrySendsDistinct(st, n - 1);
      var front, id := RetrySends(st, n - 1), st.results.keys[n - 1];
      RetrySendFacts(st, id);
      forall p | p in front ensures p.task.id != id {
        var i := RetryPayload(st, n - 1, p);
      }
    }
  }

  lemma ReadyMeansDepsAccepted(st: GraphState, t: Subtask)
    requires UniqueIds(st.plan) && t in st.plan
    ensures IsReady(st, t) <==> t.id !in st.results.vals && DepsAccepted(st, t.id)
  {
    var i :| 0 <= i < |st.plan| && st.plan[i] == t;
    DepsOfTask(st.plan, i);
  }

  /** A subtask is due: it has no result, or a retry was asked for, and what it depends on
      is accepted. */
  ghost predicate IsDue(st: GraphState, id: string) {
    id in Ids(st.plan) && DepsAccepted(st, id) && (id !in st.results.vals || IsRetryDue(st, id))
  }

  ghost predicate InBatch(batch: seq<Payload>, id: string) {
    exists i :: 0 <= i < |batch| && batch[i].task.id == id
  }

  lemma BatchDistinct(cfg: Config, st: GraphState)
    requires StateInv(cfg, st) && st.plan != []
    ensures DistinctTasks(NextBatch(st))
  {
    ReadySendsFacts(st, |st.plan|);
    RetrySendsDistinct(st, |st.results.keys|);
    var ready, retries := ReadySends(st, |st.plan|), RetrySends(st, |st.results.keys|);
    var batch := NextBatch(st);
    forall i, j | 0 <= i < j < |batch| ensures batch[i].task.id != batch[j].task.id {
      if i < |ready| <= j {
        assert batch[i] in ready && batch[j] in retries;
        var k := RetryPayload(st, |st.results.keys|, batch[j]);
      }
    }
  }

  lemma DueIsSent(cfg: Config, st: GraphState, id: string)
    requires StateInv(cfg, st) && st.plan != [] && IsDue(st, id)
    ensures InBatch(NextBatch(st), id)
  {
    var k :| 0 <= k < |st.plan| && st.plan[k].id == id;
    var p := ExecutePayload(st, st.plan[k]);
    if id in st.results.vals {
      RetrySendFacts(st, id);
      p := RetrySend(st, id)[0];
      var j :| 0 <= j < |st.results.keys| && st.results.keys[j] == id;
      RetryTarget(st, |st.results.keys|, j, p);
    } else {
      ReadySendsFacts(st, |st.plan|);
      ReadyMeansDepsAccepted(st, st.plan[k]);
    }
    assert p in NextBatch(st);
    var i :| 0 <= i < |NextBatch(st)| && NextBatch(st)[i] == p;
  }

  lemma ReadySendIsDue(cfg: Config, st: GraphState, p: Payload)
    requires StateInv(cfg, st) && st.plan != [] && p in ReadySends(st, |st.plan|)
    ensures IsDue(st, p.task.id) && p.task in st.plan && p.task.id !in st.results.vals
    ensures p == ExecutePayload(st, p.task)
  {
    ReadySendsFacts(st, |st.plan|);
    assert st.plan[..|st.plan|] == st.plan;
    ReadyMeansDepsAccepted(st, p.task);
  }

  lemma RetrySendIsDue(cfg: Config, st: GraphState, p: Payload)
    requires StateInv(cfg, st) && st.plan != [] && p in RetrySends(st, |st.results.keys|)
    ensures IsRetryDue(st, p.task.id) && IsDue(st, p.task.id) && p.task in st.plan && RetrySend(st, p.task.id) == [p]
  {
    var i := RetryPayload(st, |st.results.keys|, p);
  }

  lemma RetriedHasFeedback(cfg: Config, st: GraphState, id: string)
    requires StateInv(cfg, st) && IsRetryDue(st, id)
    ensures id in st.feedback
  {
    assert SlotOk(SlotOf(st, id));
  }

  lemma SentIsDue(cfg: Config, st: GraphState, p: Payload)
    requires StateInv(cfg, st) && st.plan != [] && p in NextBatch(st)
    ensures IsDue(st, p.task.id) && p.task in st.plan && p.approvals == DecidedApprovals(st)
    ensures IsRetryDue(st, p.task.id) ==> p.task.id in st.feedback
    ensures p.feedback == if IsRetryDue(st, p.task.id) then Some(st.feedback[p.task.id]) else None
  {
    if p in ReadySends(st, |st.plan|) {
      ReadySendIsDue(cfg, st, p);
    } else {
      RetrySendIsDue(cfg, st, p);
      RetriedHasFeedback(cfg, st, p.task.id);
    }
  }

  /** The scheduler sends every due subtask once and nothing else; a retry carries the
      feedback of its review. */
  lemma BatchExact(cfg: Config, st: GraphState)
    requires StateInv(cfg, st) && st.plan != []
    ensures var batch := NextBatch(st);
            && DistinctTasks(batch)
            && (forall id :: InBatch(batch, id) <==> IsDue(st, id))
            && (forall p :: p in batch ==>
                  && p.task in st.plan && p.approvals == DecidedApprovals(st)
                  && (IsRetryDue(st, p.task.id) ==> p.task.id in st.feedback)
                  && p.feedback == if IsRetryDue(st, p.task.id) then Some(st.feedback[p.task.id]) else None)
  {
    BatchDistinct(cfg, st);
    var batch := NextBatch(st);
    forall p | p in batch { SentIsDue(cfg, st, p); }
    forall id ensures InBatch(batch, id) <==> IsDue(st, id) {
      if IsDue(st, id) { DueIsSent(cfg, st, id); }
      if i :| 0 <= i < |batch| && batch[i].task.id == id {
        SentIsDue(cfg, st, batch[i]);
      }
    }
  }

  // ------------------------------------------------------------ the order of the batch

  /** Each payload is for the subtask that `ids` has at its position in `at`; the positions
      rise. */
  ghost predicate InOrderOf(sends: seq<Payload>, ids: seq<string>, at: seq<nat>) {
    && |at| == |sends|
    && (forall i :: 0 <= i < |at| ==> at[i] < |ids| && sends[i].task.id == ids[at[i]])
    && forall i, j :: 0 <= i < j < |at| ==> at[i] < at[j]
  }

  lemma OrderNext(sends: seq<Payload>, ids: seq<string>, at: seq<nat>, n: nat, p: Payload)
    requires InOrderOf(sends, ids, at) && n < |ids| && p.task.id == ids[n] && forall i :: 0 <= i < |at| ==> at[i] < n
    ensures InOrderOf(sends + [p], ids, at + [n])
  {
  }

  function PlanIds(plan: Plan): seq<string> {
    seq(|plan|, i requires 0 <= i < |plan| => plan[i].id)
  }

  lemma {:induction false} ReadyOrder(st: GraphState, n: nat) returns (at: seq<nat>)
    requires n <= |st.plan|
    ensures InOrderOf(ReadySends(st, n), PlanIds(st.plan), at) && forall i :: 0 <= i < |at| ==> at[i] < n
  {
    if n == 0 {
      at := [];
    } else {
      at := ReadyOrder(st, n - 1);
      if IsReady(st, st.plan[n - 1]) {
        OrderNext(ReadySends(st, n - 1), PlanIds(st.plan), at, n - 1, ExecutePayload(st, st.plan[n - 1]));
        at := at + [n - 1];
      }
    }
  }

  lemma {:induction false} RetryOrder(st: GraphState, n: nat) returns (at: seq<nat>)
    requires n <= |st.results.keys|
    ensures InOrderOf(RetrySends(st, n), st.results.keys, at) && forall i :: 0 <= i < |at| ==> at[i] < n
  {
    if n == 0 {
      at := [];
    } else {
      at := RetryOrder(st, n - 1);
      var id := st.results.keys[n - 1];
      if RetrySend(st, id) != [] {
        FoundTask(st.plan, id);
        OrderNext(RetrySends(st, n - 1), st.results.keys, at, n - 1, RetrySend(st, id)[0]);
        at := at + [n - 1];
      }
    }
  }

  lemma {:induction false} FoundTask(plan: Plan, id: string)
    ensures FindTask(plan, id).Some? ==> FindTask(plan, id).value.id == id
  {
    if plan != [] && plan[0].id != id {
      FoundTask(plan[1..], id);
    }
  }

  /** New subtasks come first, in the order of the plan, then the retries, in the order of the
      results. */
  lemma BatchInOrder(cfg: Config, st: GraphState) returns (m: nat, ready: seq<nat>, retries: seq<nat>)
    requires StateInv(cfg, st) && st.plan != []
    ensures m <= |NextBatch(st)|
    ensures InOrderOf(NextBatch(st)[..m], PlanIds(st.plan), ready)
    ensures InOrderOf(NextBatch(st)[m..], st.results.keys, retries)
    ensures forall p :: p in NextBatch(st)[..m] ==> p.task.id !in st.results.vals
    ensures forall p :: p in NextBatch(st)[m..] ==> IsRetryDue(st, p.task.id)
  {
    m := |ReadySends(st, |st.plan|)|;
    ready := ReadyOrder(st, |st.plan|);
    retries := RetryOrder(st, |st.results.keys|);
    assert NextBatch(st)[..m] == ReadySends(st, |st.plan|) && NextBatch(st)[m..] == RetrySends(st, |st.results.keys|);
    forall p | p in ReadySends(st, |st.plan|) ensures p.task.id !in st.results.vals {
      ReadySendIsDue(cfg, st, p);
    }
    forall p | p in RetrySends(st, |st.results.keys|) ensures IsRetryDue(st, p.task.id) {
      RetrySendIsDue(cfg, st, p);
    }
  }
}
