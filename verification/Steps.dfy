/** Every super-step keeps the engine invariant and moves each subtask's slot down; the
    lemmas follow the nodes of the graph. */
module Steps {
  import opened Dicts
  import opened Plans
  import opened Tools
  import opened Agents
  import opened Engine
  import opened Invariant

  /** Slots stay or move down, and an accepted result is never touched again. */
  ghost predicate Advances(before: GraphState, after: GraphState) {
    && (forall id :: SlotOf(after, id) == SlotOf(before, id) || Rank(SlotOf(after, id)) < Rank(SlotOf(before, id)))
    && (forall id :: IsAccepted(before, id) ==>
          id in after.results.vals && after.results.vals[id] == before.results.vals[id])
  }

  lemma StateInvKept(cfg: Config, before: GraphState, after: GraphState)
    requires StateInv(cfg, before) && after.plan == before.plan
    requires after.results.Valid() && after.pending.Valid() && PendingOk(cfg, after)
    requires forall id :: SlotOk(SlotOf(after, id))
    requires forall id :: IsAccepted(before, id) ==> IsAccepted(after, id)
    requires forall id :: id in after.results.vals ==> id in before.results.vals || IsDue(before, id)
    requires forall id :: Attempts(after, id) > 0 ==> id in after.feedback
    ensures StateInv(cfg, after)
  {
    forall id | id in after.results.vals ensures id in Ids(after.plan) && DepsAccepted(after, id) {
      assert DepsAccepted(before, id);
    }
  }

  // ------------------------------------------------------------ execution

  ghost predicate Writes(branches: seq<Branch>, i: int, id: string) {
    0 <= i < |branches| && branches[i].Finished? && branches[i].result.subtaskId == id
  }

  ghost predicate Asks(branches: seq<Branch>, i: int, s: Signature) {
    0 <= i < |branches| && branches[i].Paused? && branches[i].signature == s
  }

  /** A branch reports on its own subtask: what its specialist answered, or an error without
      content. If it pauses, the entry describes the sensitive call it asks about. */
  lemma BranchFacts(cfg: Config, p: Payload, turns: seq<Turn>)
    requires |turns| == MAX_TOOL_ITERATIONS
    ensures match NodeExecuteSubtask(cfg, p, turns)
            case Finished(r) =>
              && r.subtaskId == p.task.id && (r.status.Success? || r.status.Error?)
              && (r.status.Success? ==>
                    p.task.specialist in SPECIALISTS && Produced(p.task.id, r.content) in BranchEvents(cfg, p, turns))
              && (r.status.Error? ==> r.content == "" && r.error.Some?)
            case Paused(s, info) =>
              s.subtaskId == p.task.id && s.tool in cfg.sensitive
              && info == ApprovalInfo(Pending, s.subtaskId, s.tool, s.arguments)
  {
    SpecialistIsGated(BranchAccess(cfg, p), turns, 0, "No output produced.");
    var trace, events := SpecialistTrace(cfg, p, turns), BranchEvents(cfg, p, turns);
    assert trace.outcome.Answer? ==> events[|trace.ran|] == Produced(p.task.id, trace.outcome.content);
  }

  /** And it is what the specialist's turns lead to: its answer, its failure, or its question. */
  lemma BranchComesFrom(cfg: Config, p: Payload, turns: seq<Turn>)
    requires |turns| == MAX_TOOL_ITERATIONS
    ensures var a := Access(cfg.toolsAvailable, cfg.sensitive, p.task.id, p.approvals);
            match NodeExecuteSubtask(cfg, p, turns)
            case Finished(r) =>
              if p.task.specialist !in SPECIALISTS then
                r == SubtaskResult(p.task.id, "", Error, Some("Specialist " + p.task.specialist + " not found"), 0)
              else
                var outcome := if r.status.Success? then Answer(r.content) else Crash(r.error.value);
                exists k :: ComesFrom(a, turns, k, outcome)
            case Paused(s, _) => p.task.specialist in SPECIALISTS && exists k :: ComesFrom(a, turns, k, Awaits(s))
  {
    BranchFacts(cfg, p, turns);
    if p.task.specialist in SPECIALISTS {
      OutcomeIff(BranchAccess(cfg, p), turns, SpecialistTrace(cfg, p, turns).outcome);
    }
  }

  /** Parallel branches never clobber each other: their updates agree wherever they meet. */
  lemma BranchesCompatible(cfg: Config, batch: seq<Payload>, turns: seq<seq<Turn>>)
    requires TurnsFor(batch, turns) && DistinctTasks(batch)
    ensures var branches := Branches(cfg, batch, turns);
            Compatible(ResultUpdates(branches)) && Compatible(PendingUpdates(branches))
  {
    var branches := Branches(cfg, batch, turns);
    forall i | 0 <= i < |batch| {
      BranchFacts(cfg, batch[i], turns[i]);
    }
    var rs, ps := ResultUpdates(branches), PendingUpdates(branches);
    forall i, j | 0 <= i < |rs| && 0 <= j < |rs| ensures Agree(rs[i], rs[j]) {
      assert i != j ==> batch[i].task.id != batch[j].task.id;
    }
    forall i, j | 0 <= i < |ps| && 0 <= j < |ps| ensures Agree(ps[i], ps[j]) {
    }
  }

  /** Folding the branches of one super-step in another order, or one of them twice, gives
      the same results and approvals. */
  lemma ExecuteConfluent(cfg: Config, st: GraphState, batch: seq<Payload>, turns: seq<seq<Turn>>,
                         reordered: seq<Branch>)
    requires TurnsFor(batch, turns) && DistinctTasks(batch)
    requires forall b :: b in Branches(cfg, batch, turns) <==> b in reordered
    ensures var one, other := AfterExecute(st, Branches(cfg, batch, turns)), AfterExecute(st, reordered);
            one.results.vals == other.results.vals && one.pending.vals == other.pending.vals
  {
    var branches := Branches(cfg, batch, turns);
    BranchesCompatible(cfg, batch, turns);
    UpdatesCorrespond(branches, reordered);
    UpdatesCorrespond(reordered, branches);
    FanInConfluence(st.results, ResultUpdates(branches), ResultUpdates(reordered));
    FanInConfluence(st.pending, PendingUpdates(branches), PendingUpdates(reordered));
  }

  lemma UpdatesCorrespond(one: seq<Branch>, other: seq<Branch>)
    requires forall b :: b in one ==> b in other
    ensures forall u :: u in ResultUpdates(one) ==> u in ResultUpdates(other)
    ensures forall u :: u in PendingUpdates(one) ==> u in PendingUpdates(other)
  {
    var rs, rs', ps, ps' := ResultUpdates(one), ResultUpdates(other), PendingUpdates(one), PendingUpdates(other);
    forall i | 0 <= i < |one| ensures rs[i] in rs' && ps[i] in ps' {
      assert one[i] in other;
      var j :| 0 <= j < |other| && other[j] == one[i];
      assert rs'[j] == rs[i] && ps'[j] == ps[i];
    }
  }

  lemma ResultAt(st: GraphState, branches: seq<Branch>, id: string)
    requires Compatible(ResultUpdates(branches))
    ensures var after := AfterExecute(st, branches).results.vals;
            && (id in after <==> id in st.results.vals || exists i :: Writes(branches, i, id))
            && (forall i :: Writes(branches, i, id) ==> after[id] == branches[i].result)
            && ((forall i :: !Writes(branches, i, id)) && id in st.results.vals ==> after[id] == st.results.vals[id])
  {
    var us := ResultUpdates(branches);
    MergeAllAt(st.results, us, id);
    forall i | 0 <= i < |us| ensures id in us[i].vals <==> Writes(branches, i, id) {
      assert us[i] == ResultsOf(branches[i]);
    }
    forall i | Writes(branches, i, id) ensures id in us[i].vals && us[i].vals[id] == branches[i].result {
      assert us[i] == ResultsOf(branches[i]);
    }
  }

  lemma PendingAt(st: GraphState, branches: seq<Branch>, s: Signature)
    requires Compatible(PendingUpdates(branches))
    ensures var after := AfterExecute(st, branches).pending.vals;
            && (s in after <==> s in st.pending.vals || exists i :: Asks(branches, i, s))
            && (forall i :: Asks(branches, i, s) ==> after[s] == branches[i].info)
            && ((forall i :: !Asks(branches, i, s)) && s in st.pending.vals ==> after[s] == st.pending.vals[s])
  {
    var us := PendingUpdates(branches);
    MergeAllAt(st.pending, us, s);
    forall i | 0 <= i < |us| ensures s in us[i].vals <==> Asks(branches, i, s) {
      assert us[i] == PendingOf(branches[i]);
    }
    forall i | Asks(branches, i, s) ensures s in us[i].vals && us[i].vals[s] == branches[i].info {
      assert us[i] == PendingOf(branches[i]);
    }
  }

  lemma ExecuteValid(st: GraphState, branches: seq<Branch>)
    requires st.results.Valid() && st.pending.Valid()
    ensures AfterExecute(st, branches).results.Valid() && AfterExecute(st, branches).pending.Valid()
  {
    MergeAllValid(st.results, ResultUpdates(branches));
    MergeAllValid(st.pending, PendingUpdates(branches));
  }

  lemma DueSlotRuns(cfg: Config, st: GraphState, after: GraphState, id: string)
    requires StateInv(cfg, st) && IsDue(st, id) && NeedsReview(after, id)
    requires after.attempts == st.attempts && after.failureDecisions == st.failureDecisions
    ensures SlotOk(SlotOf(after, id)) && Rank(SlotOf(after, id)) < Rank(SlotOf(st, id))
  {
    assert SlotOk(SlotOf(st, id));
  }

  /** What execution does to one subtask: nothing, or a due subtask gets its result. */
  lemma ExecuteSlot(cfg: Config, st: GraphState, batch: seq<Payload>, turns: seq<seq<Turn>>, id: string)
    requires StateInv(cfg, st) && st.plan != [] && Settled(st) && batch == NextBatch(st) && TurnsFor(batch, turns)
    ensures var after := AfterExecute(st, Branches(cfg, batch, turns));
            if NeedsReview(after, id) then
              IsDue(st, id) && SlotOk(SlotOf(after, id)) && Rank(SlotOf(after, id)) < Rank(SlotOf(st, id))
            else
              (id in after.results.vals <==> id in st.results.vals)
              && (id in st.results.vals ==> after.results.vals[id] == st.results.vals[id])
  {
    BatchExact(cfg, st);
    BranchesCompatible(cfg, batch, turns);
    var branches := Branches(cfg, batch, turns);
    ResultAt(st, branches, id);
    if i :| Writes(branches, i, id) {
      BranchFacts(cfg, batch[i], turns[i]);
      assert InBatch(batch, id);
      var after := AfterExecute(st, branches);
      DueSlotRuns(cfg, st, after, id);
    } else {
      assert !NeedsReview(st, id);
    }
  }

  // ------------------------------------------------------------ whom the gate asks first

  /** The question of the first branch that paused. */
  function FirstAsked(branches: seq<Branch>): Option<Signature> {
    if branches == [] then None
    else
      var front, last := FirstAsked(branches[..|branches| - 1]), branches[|branches| - 1];
      if front.Some? then front else if last.Paused? then Some(last.signature) else None
  }

  lemma {:induction false} FirstAskedIsAsked(branches: seq<Branch>) returns (i: nat)
    requires FirstAsked(branches).Some?
    ensures Asks(branches, i, FirstAsked(branches).value)
  {
    var n := |branches| - 1;
    if FirstAsked(branches[..n]).Some? {
      i := FirstAskedIsAsked(branches[..n]);
    } else {
      i := n;
    }
  }

  /** What the branches ask, merged among themselves. */
  function AskedApart(branches: seq<Branch>): Dict<Signature, ApprovalInfo> {
    MergeAll(Empty(), PendingUpdates(branches))
  }

  lemma AskedApartNext(branches: seq<Branch>)
    requires branches != []
    ensures AskedApart(branches) == Merge(AskedApart(branches[..|branches| - 1]), PendingOf(branches[|branches| - 1]))
  {
    var n := |branches| - 1;
    assert PendingUpdates(branches)[..n] == PendingUpdates(branches[..n]);
  }

  ghost predicate StartsWith(d: Dict<Signature, ApprovalInfo>, first: Option<Signature>) {
    d.Valid() && if first.None? then d.keys == [] else d.keys != [] && d.keys[0] == first.value
  }

  lemma OneMoreBranch(apart: Dict<Signature, ApprovalInfo>, first: Option<Signature>, b: Branch)
    requires StartsWith(apart, first)
    ensures StartsWith(Merge(apart, PendingOf(b)), if first.None? && b.Paused? then Some(b.signature) else first)
  {
    MergeValid(apart, PendingOf(b));
    if b.Paused? {
      MergeSingle(apart, b.signature, b.info);
    }
  }

  lemma {:induction false} FirstAskedKey(branches: seq<Branch>)
    ensures StartsWith(AskedApart(branches), FirstAsked(branches))
  {
    if branches != [] {
      var front, last := branches[..|branches| - 1], branches[|branches| - 1];
      FirstAskedKey(front);
      AskedApartNext(branches);
      OneMoreBranch(AskedApart(front), FirstAsked(front), last);
    }
  }

  /** Something that was asked before is pending afterwards. */
  ghost predicate OldPending(st: GraphState, after: GraphState) {
    exists s :: s in st.pending.vals && s in after.pending.vals && after.pending.vals[s].status.Pending?
  }

  lemma {:induction false} FirstPendingSkips(st: GraphState, i: nat, n: nat)
    requires st.pending.Valid() && i <= n <= |st.pending.keys|
    requires forall j :: i <= j < n ==> !st.pending.vals[st.pending.keys[j]].status.Pending?
    ensures FirstPending(st, i) == FirstPending(st, n)
    decreases n - i
  {
    if i < n {
      FirstPendingSkips(st, i + 1, n);
    }
  }

  /** Where two states have the same keys up to a pending one, they have the same first pending
      one. */
  lemma {:induction false} FirstPendingAgrees(one: GraphState, other: GraphState, i: nat, j: nat) returns (k: nat)
    requires one.pending.Valid() && other.pending.Valid() && one.pending.vals == other.pending.vals
    requires i <= j < |one.pending.keys| && j < |other.pending.keys|
    requires forall k :: 0 <= k <= j ==> one.pending.keys[k] == other.pending.keys[k]
    requires one.pending.vals[one.pending.keys[j]].status.Pending?
    ensures FirstPending(one, i) == FirstPending(other, i)
    ensures i <= k <= j && FirstPending(one, i) == Some(one.pending.keys[k])
    decreases j - i
  {
    if one.pending.vals[one.pending.keys[i]].status.Pending? {
      k := i;
    } else {
      k := FirstPendingAgrees(one, other, i + 1, j);
    }
  }

  /** What execution does to the order of the entries. */
  lemma PendingOrder(st: GraphState, branches: seq<Branch>)
    requires st.results.Valid() && st.pending.Valid()
    ensures var after := AfterExecute(st, branches).pending;
            && after.Valid()
            && after.keys == st.pending.keys + NewKeys(st.pending.vals, AskedApart(branches).keys)
  {
    ExecuteValid(st, branches);
    MergedApart(st.pending, PendingUpdates(branches));
  }

  lemma ResultOrder(st: GraphState, branches: seq<Branch>)
    requires st.results.Valid() && st.pending.Valid()
    ensures var after := AfterExecute(st, branches).results;
            && after.Valid()
            && after.keys == st.results.keys + NewKeys(st.results.vals, MergeAll(Empty(), ResultUpdates(branches)).keys)
  {
    ExecuteValid(st, branches);
    MergedApart(st.results, ResultUpdates(branches));
  }

  lemma AskedIsPending(cfg: Config, st: GraphState, batch: seq<Payload>, turns: seq<seq<Turn>>, b: Branch)
    requires TurnsFor(batch, turns) && DistinctTasks(batch) && b in Branches(cfg, batch, turns) && b.Paused?
    ensures var after := AfterExecute(st, Branches(cfg, batch, turns)).pending.vals;
            b.signature in after && after[b.signature].status.Pending?
  {
    var branches := Branches(cfg, batch, turns);
    BranchesCompatible(cfg, batch, turns);
    PendingAt(st, branches, b.signature);
    var i :| 0 <= i < |branches| && branches[i] == b;
    assert Asks(branches, i, b.signature);
    BranchFacts(cfg, batch[i], turns[i]);
  }

  /** If nothing asked before is pending, the gate asks the question of the first branch that
      paused. */
  lemma NewQuestionFirst(st: GraphState, branches: seq<Branch>)
    requires st.results.Valid() && st.pending.Valid()
    requires var after := AfterExecute(st, branches);
             && !OldPending(st, after)
             && forall b :: b in branches && b.Paused? ==>
                  b.signature in after.pending.vals && after.pending.vals[b.signature].status.Pending?
    ensures var after := AfterExecute(st, branches);
            after.pending.Valid() && FirstPending(after) == FirstAsked(branches)
  {
    var after, n := AfterExecute(st, branches), |st.pending.keys|;
    PendingOrder(st, branches);
    FirstAskedKey(branches);
    forall j | 0 <= j < n ensures !after.pending.vals[after.pending.keys[j]].status.Pending? {
      assert after.pending.keys[j] == st.pending.keys[j];
    }
    FirstPendingSkips(after, 0, n);
    if FirstAsked(branches).Some? {
      var i := FirstAskedIsAsked(branches);
      assert branches[i] in branches;
      FirstNewKey(st.pending.vals, AskedApart(branches).keys);
      assert after.pending.keys[n] == FirstAsked(branches).value;
    }
  }

  lemma OldPosition(st: GraphState, after: GraphState) returns (j: nat)
    requires st.pending.Valid() && OldPending(st, after)
    ensures j < |st.pending.keys| && st.pending.keys[j] in after.pending.vals
    ensures after.pending.vals[st.pending.keys[j]].status.Pending?
  {
    var s :| s in st.pending.vals && s in after.pending.vals && after.pending.vals[s].status.Pending?;
    j :| 0 <= j < |st.pending.keys| && st.pending.keys[j] == s;
  }

  lemma OldQuestionFirst(st: GraphState, one: GraphState, other: GraphState)
    requires st.pending.Valid() && one.pending.Valid() && other.pending.Valid()
    requires one.pending.vals == other.pending.vals
    requires st.pending.keys <= one.pending.keys && st.pending.keys <= other.pending.keys && OldPending(st, one)
    ensures FirstPending(one) == FirstPending(other)
    ensures FirstPending(one).Some? && FirstPending(one).value in st.pending.vals
  {
    var j := OldPosition(st, one);
    var k := FirstPendingAgrees(one, other, 0, j);
    assert one.pending.keys[k] == st.pending.keys[k];
  }

  /** The order of the branches decides the order of new keys and nothing else: whoever was
      there keeps its place. So which question the gate asks first depends on it only if
      nothing asked before is pending; then it is that of the first branch that paused. */
  lemma QuestionOrder(cfg: Config, st: GraphState, batch: seq<Payload>, turns: seq<seq<Turn>>, reordered: seq<Branch>)
    requires TurnsFor(batch, turns) && DistinctTasks(batch) && st.results.Valid() && st.pending.Valid()
    requires forall b :: b in Branches(cfg, batch, turns) <==> b in reordered
    ensures var one, other := AfterExecute(st, Branches(cfg, batch, turns)), AfterExecute(st, reordered);
            && one.results.Valid() && one.pending.Valid() && other.results.Valid() && other.pending.Valid()
            && (forall id :: id in one.results.keys <==> id in other.results.keys)
            && (forall s :: s in one.pending.keys <==> s in other.pending.keys)
            && st.results.keys <= one.results.keys && st.results.keys <= other.results.keys
            && st.pending.keys <= one.pending.keys && st.pending.keys <= other.pending.keys
            && (OldPending(st, one) ==>
                  && FirstPending(one) == FirstPending(other)
                  && FirstPending(one).Some? && FirstPending(one).value in st.pending.vals)
            && (!OldPending(st, one) ==>
                  && FirstPending(one) == FirstAsked(Branches(cfg, batch, turns))
                  && FirstPending(other) == FirstAsked(reordered))
  {
    var branches := Branches(cfg, batch, turns);
    var one, other := AfterExecute(st, branches), AfterExecute(st, reordered);
    ExecuteConfluent(cfg, st, batch, turns, reordered);
    PendingOrder(st, branches);
    PendingOrder(st, reordered);
    ResultOrder(st, branches);
    ResultOrder(st, reordered);
    if OldPending(st, one) {
      OldQuestionFirst(st, one, other);
    } else {
      forall b | b in branches && b.Paused?
        ensures b.signature in one.pending.vals && one.pending.vals[b.signature].status.Pending?
      {
        AskedIsPending(cfg, st, batch, turns, b);
      }
      NewQuestionFirst(st, branches);
      NewQuestionFirst(st, reordered);
    }
  }

  lemma ExecuteKeepsPending(cfg: Config, st: GraphState, batch: seq<Payload>, turns: seq<seq<Turn>>)
    requires StateInv(cfg, st) && st.plan != [] && batch == NextBatch(st) && TurnsFor(batch, turns)
    ensures PendingOk(cfg, AfterExecute(st, Branches(cfg, batch, turns)))
  {
    BatchExact(cfg, st);
    BranchesCompatible(cfg, batch, turns);
    var branches := Branches(cfg, batch, turns);
    var after := AfterExecute(st, branches);
    forall s | s in after.pending.vals
      ensures s.subtaskId in Ids(st.plan) && s.tool in cfg.sensitive
      ensures after.pending.vals[s].subtaskId == s.subtaskId && after.pending.vals[s].tool == s.tool
      ensures !after.pending.vals[s].status.Approved? ==> after.pending.vals[s].arguments == s.arguments
    {
      PendingAt(st, branches, s);
      if i :| Asks(branches, i, s) {
        BranchFacts(cfg, batch[i], turns[i]);
        assert batch[i] in batch;
      }
    }
  }

  /** A batch leaves something to review or something to decide. */
  lemma ExecuteProgress(cfg: Config, st: GraphState, batch: seq<Payload>, turns: seq<seq<Turn>>)
    requires TurnsFor(batch, turns) && DistinctTasks(batch) && batch != []
    ensures var after := AfterExecute(st, Branches(cfg, batch, turns));
            HasPending(after) || exists id :: NeedsReview(after, id)
  {
    var branches := Branches(cfg, batch, turns);
    var after := AfterExecute(st, branches);
    BranchesCompatible(cfg, batch, turns);
    BranchFacts(cfg, batch[0], turns[0]);
    if branches[0].Finished? {
      ResultAt(st, branches, batch[0].task.id);
      assert Writes(branches, 0, batch[0].task.id);
      assert NeedsReview(after, batch[0].task.id);
    } else {
      var s := branches[0].signature;
      PendingAt(st, branches, s);
      assert Asks(branches, 0, s);
    }
  }

  lemma ExecuteAdvances(cfg: Config, st: GraphState, batch: seq<Payload>, turns: seq<seq<Turn>>)
    requires StateInv(cfg, st) && st.plan != [] && Settled(st) && batch == NextBatch(st) && TurnsFor(batch, turns)
    ensures Advances(st, AfterExecute(st, Branches(cfg, batch, turns)))
  {
    forall id {
      ExecuteSlot(cfg, st, batch, turns, id);
    }
  }

  lemma ExecuteStep(cfg: Config, r: Run, inp: Input)
    requires Inv(cfg, r) && r.node.ExecuteBatch? && Enabled(cfg, r, inp)
    ensures Inv(cfg, Next(cfg, r, inp)) && Advances(r.st, Next(cfg, r, inp).st)
  {
    var st, batch := r.st, r.node.batch;
    ExecuteKeepsState(cfg, st, batch, inp.turns);
    ExecuteAdvances(cfg, st, batch, inp.turns);
    BatchDistinct(cfg, st);
    ExecuteProgress(cfg, st, batch, inp.turns);
  }

  lemma ExecuteKeepsSlot(cfg: Config, st: GraphState, batch: seq<Payload>, turns: seq<seq<Turn>>, id: string)
    requires StateInv(cfg, st) && st.plan != [] && Settled(st) && batch == NextBatch(st) && TurnsFor(batch, turns)
    ensures var after := AfterExecute(st, Branches(cfg, batch, turns));
            && SlotOk(SlotOf(after, id)) && (IsAccepted(st, id) ==> IsAccepted(after, id))
            && (id in after.results.vals ==> id in st.results.vals || IsDue(st, id))
            && (Attempts(after, id) > 0 ==> id in after.feedback)
  {
    ExecuteSlot(cfg, st, batch, turns, id);
    assert SlotOk(SlotOf(st, id));
  }

  lemma ExecuteKeepsState(cfg: Config, st: GraphState, batch: seq<Payload>, turns: seq<seq<Turn>>)
    requires StateInv(cfg, st) && st.plan != [] && Settled(st) && batch == NextBatch(st) && TurnsFor(batch, turns)
    ensures StateInv(cfg, AfterExecute(st, Branches(cfg, batch, turns)))
  {
    var after := AfterExecute(st, Branches(cfg, batch, turns));
    ExecuteValid(st, Branches(cfg, batch, turns));
    ExecuteKeepsPending(cfg, st, batch, turns);
    forall id { ExecuteKeepsSlot(cfg, st, batch, turns, id); }
    StateInvKept(cfg, st, after);
  }

  // ------------------------------------------------------------ review

  lemma JudgedSlot(result: SubtaskResult, attempts: nat, decision: Option<Action>, raw: Review)
    requires result.status.Success? || result.status.Error?
    requires SlotOk(Slot(Some(result.status), attempts, decision))
    ensures var after := Slot(Some(JudgedStatus(result, attempts + 1, raw)), attempts + 1, decision);
            && SlotOk(after) && Rank(after) < Rank(Slot(Some(result.status), attempts, decision))
            && (after.status == Some(Accepted) || after.status == Some(RetryDue) || after.status == Some(Escalated))
            && (attempts == 0 ==> ReviewFeedback(result, attempts + 1, raw).Some?)
  {
  }

  function FeedbackOf(st: GraphState, id: string): Option<string> {
    if id in st.feedback then Some(st.feedback[id]) else None
  }

  lemma FeedbackAt(cfg: Config, st: GraphState, reviews: map<string, Review>, id: string)
    requires StateInv(cfg, st) && ReviewsFor(st, reviews) && NeedsReview(st, id)
    requires id in reviews && id in ReviewedIds(st)
    ensures var f := FeedbackFor(st, id, reviews[id]);
            FeedbackOf(AfterReview(st, reviews), id) == if f.Some? then f else FeedbackOf(st, id)
  {
  }

  lemma ReviewedInPlan(cfg: Config, st: GraphState, reviews: map<string, Review>, id: string)
    requires StateInv(cfg, st) && ReviewsFor(st, reviews) && NeedsReview(st, id)
    ensures id in reviews && id in ReviewedIds(st)
  {
    var t :| t in st.plan && t.id == id;
  }

  lemma ReviewedResultAt(st: GraphState, reviews: map<string, Review>, id: string)
    requires NeedsReview(st, id) && id in reviews && id in ReviewedIds(st)
    ensures var after := AfterReview(st, reviews);
            && id in after.results.vals && after.results.vals[id] == ReviewedResult(st, id, reviews[id])
            && Attempts(after, id) == Attempts(st, id) + 1
            && after.failureDecisions == st.failureDecisions
  {
  }

  lemma ReviewedAt(cfg: Config, st: GraphState, reviews: map<string, Review>, id: string)
    requires StateInv(cfg, st) && ReviewsFor(st, reviews) && NeedsReview(st, id)
    ensures id in reviews && id in ReviewedIds(st)
    ensures var after := AfterReview(st, reviews);
            && id in after.results.vals && after.results.vals[id] == ReviewedResult(st, id, reviews[id])
            && Attempts(after, id) == Attempts(st, id) + 1
            && (FeedbackFor(st, id, reviews[id]).Some? || id in st.feedback ==> id in after.feedback)
            && after.failureDecisions == st.failureDecisions
  {
    ReviewedInPlan(cfg, st, reviews, id);
    ReviewedResultAt(st, reviews, id);
    FeedbackAt(cfg, st, reviews, id);
  }

  lemma UnreviewedAt(st: GraphState, reviews: map<string, Review>, id: string)
    requires !NeedsReview(st, id)
    ensures var after := AfterReview(st, reviews);
            && SlotOf(after, id) == SlotOf(st, id) && !NeedsReview(after, id)
            && (id in st.feedback ==> id in after.feedback)
            && (id in st.results.vals ==> after.results.vals[id] == st.results.vals[id])
  {
    assert id !in ReviewedIds(st);
  }

  /** What a judgement makes of a slot, on any state that records it. */
  lemma JudgedInto(cfg: Config, st: GraphState, after: GraphState, id: string, raw: Review)
    requires StateInv(cfg, st) && NeedsReview(st, id)
    requires id in after.results.vals && after.results.vals[id] == ReviewedResult(st, id, raw)
    requires Attempts(after, id) == Attempts(st, id) + 1 && after.failureDecisions == st.failureDecisions
    requires FeedbackFor(st, id, raw).Some? || id in st.feedback ==> id in after.feedback
    ensures SlotOk(SlotOf(after, id)) && Rank(SlotOf(after, id)) < Rank(SlotOf(st, id))
    ensures !NeedsReview(after, id) && id in after.feedback
  {
    var slot := SlotOf(st, id);
    assert SlotOk(slot);
    JudgedSlot(st.results.vals[id], slot.attempts, slot.decision, raw);
    assert SlotOf(after, id) ==
           Slot(Some(JudgedStatus(st.results.vals[id], slot.attempts + 1, raw)), slot.attempts + 1, slot.decision);
  }

  lemma ReviewSlot(cfg: Config, st: GraphState, reviews: map<string, Review>, id: string)
    requires StateInv(cfg, st) && ReviewsFor(st, reviews)
    ensures var after := AfterReview(st, reviews);
            && !NeedsReview(after, id) && SlotOk(SlotOf(after, id))
            && (NeedsReview(st, id) ==> Rank(SlotOf(after, id)) < Rank(SlotOf(st, id)))
            && (Attempts(after, id) > 0 ==> id in after.feedback)
            && (!NeedsReview(st, id) ==> SlotOf(after, id) == SlotOf(st, id))
            && (!NeedsReview(st, id) && id in st.results.vals ==> after.results.vals[id] == st.results.vals[id])
  {
    var after := AfterReview(st, reviews);
    if NeedsReview(st, id) {
      ReviewedAt(cfg, st, reviews, id);
      JudgedInto(cfg, st, after, id, reviews[id]);
    } else {
      UnreviewedAt(st, reviews, id);
      assert SlotOk(SlotOf(st, id));
    }
  }

  /** The result `now` is what the review `raw` makes of the result `was`, in attempt `made`. */
  ghost predicate IsJudgement(was: SubtaskResult, raw: Review, made: nat, now: SubtaskResult) {
    && now == was.(status := now.status, retryCount := made)
    && (now.status.Accepted? <==>
          && !was.status.Error? && raw.scores.Overall() >= 0.75
          && (raw.verdict.Accept? || raw.verdict.Escalate?))
    && (now.status.RetryDue? <==>
          && made < 2
          && (|| was.status.Error? || raw.verdict.Retry?
              || (raw.verdict.Accept? && raw.scores.Overall() < 0.75)))
    && (now.status.Accepted? || now.status.RetryDue? || now.status.Escalated?)
  }

  /** What the specialist is told before the next attempt; a crash that is not retried leaves
      the feedback of the attempt before. */
  ghost predicate IsFeedback(was: SubtaskResult, raw: Review, made: nat, before: Option<string>, after: Option<string>)
  {
    after == if !was.status.Error? then Some(raw.feedback)
             else if made >= 2 then before
             else Some("The previous attempt failed with: "
                       + (if was.error.Some? then was.error.value else "None") + ". Try a different approach.")
  }

  lemma JudgedExactly(was: SubtaskResult, raw: Review, made: nat)
    ensures IsJudgement(was, raw, made, was.(status := JudgedStatus(was, made, raw), retryCount := made))
  {
  }

  lemma FeedbackExactly(was: SubtaskResult, raw: Review, made: nat, before: Option<string>)
    ensures var f := ReviewFeedback(was, made, raw);
            IsFeedback(was, raw, made, before, if f.Some? then f else before)
  {
  }

  /** What a review does to one subtask, told from the review itself. */
  lemma ReviewExact(cfg: Config, st: GraphState, reviews: map<string, Review>, id: string)
    requires StateInv(cfg, st) && ReviewsFor(st, reviews) && NeedsReview(st, id)
    ensures id in reviews && id in AfterReview(st, reviews).results.vals
    ensures var after, made := AfterReview(st, reviews), Attempts(st, id) + 1;
            && IsJudgement(st.results.vals[id], reviews[id], made, after.results.vals[id])
            && Attempts(after, id) == made
            && IsFeedback(st.results.vals[id], reviews[id], made, FeedbackOf(st, id), FeedbackOf(after, id))
  {
    ReviewedAt(cfg, st, reviews, id);
    JudgedExactly(st.results.vals[id], reviews[id], Attempts(st, id) + 1);
    FeedbackAt(cfg, st, reviews, id);
    FeedbackExactly(st.results.vals[id], reviews[id], Attempts(st, id) + 1, FeedbackOf(st, id));
  }

  /** And what it leaves alone. */
  lemma ReviewLeaves(st: GraphState, reviews: map<string, Review>, id: string)
    requires !NeedsReview(st, id)
    ensures var after := AfterReview(st, reviews);
            && after == st.(results := Dict(st.results.keys, after.results.vals), feedback := after.feedback,
                            attempts := after.attempts)
            && (id in after.results.vals <==> id in st.results.vals)
            && (id in st.results.vals ==> after.results.vals[id] == st.results.vals[id])
            && (id in after.attempts <==> id in st.attempts)
            && (id in st.attempts ==> after.attempts[id] == st.attempts[id])
            && (id in after.feedback <==> id in st.feedback)
            && (id in st.feedback ==> after.feedback[id] == st.feedback[id])
  {
    assert id !in ReviewedIds(st);
  }

  lemma ReviewAdvances(cfg: Config, st: GraphState, reviews: map<string, Review>)
    requires StateInv(cfg, st) && ReviewsFor(st, reviews)
    ensures Advances(st, AfterReview(st, reviews)) && Settled(AfterReview(st, reviews))
  {
    var after := AfterReview(st, reviews);
    forall id
      ensures SlotOf(after, id) == SlotOf(st, id) || Rank(SlotOf(after, id)) < Rank(SlotOf(st, id))
      ensures !NeedsReview(after, id)
    {
      ReviewSlot(cfg, st, reviews, id);
    }
    forall id | IsAccepted(st, id)
      ensures id in after.results.vals && after.results.vals[id] == st.results.vals[id]
    {
      UnreviewedAt(st, reviews, id);
    }
  }

  lemma ReviewStep(cfg: Config, r: Run, inp: Input)
    requires Inv(cfg, r) && r.node.ReviewBatch? && Enabled(cfg, r, inp)
    ensures Inv(cfg, Next(cfg, r, inp)) && Advances(r.st, Next(cfg, r, inp).st)
  {
    var st, after := r.st, AfterReview(r.st, inp.reviews);
    ReviewAdvances(cfg, st, inp.reviews);
    forall id
      ensures SlotOk(SlotOf(after, id)) && (IsAccepted(st, id) ==> IsAccepted(after, id))
      ensures Attempts(after, id) > 0 ==> id in after.feedback
    {
      ReviewSlot(cfg, st, inp.reviews, id);
    }
    assert forall id :: id in after.results.vals <==> id in st.results.vals;
    StateInvKept(cfg, st, after);
  }

  // ------------------------------------------------------------ approval gates

  lemma FirstPendingExists(st: GraphState)
    requires st.pending.Valid() && HasPending(st)
    ensures FirstPending(st).Some?
  {
    var s :| s in st.pending.vals && st.pending.vals[s].status.Pending?;
    assert s in st.pending.keys;
  }

  lemma FirstUndecidedExists(st: GraphState, id: string)
    requires st.results.Valid() && IsUndecided(st, id)
    ensures FirstUndecided(st).Some?
  {
    assert id in st.results.keys;
  }

  /** The gates ask about the entry that was inserted first. */
  lemma {:induction false} FirstPendingIsFirst(st: GraphState, i: nat) returns (j: nat)
    requires st.pending.Valid() && FirstPending(st, i).Some?
    ensures i <= j < |st.pending.keys| && st.pending.keys[j] == FirstPending(st, i).value
    ensures forall m :: i <= m < j ==> !st.pending.vals[st.pending.keys[m]].status.Pending?
    decreases |st.pending.keys| - i
  {
    j := i;
    if !st.pending.vals[st.pending.keys[i]].status.Pending? {
      j := FirstPendingIsFirst(st, i + 1);
    }
  }

  lemma {:induction false} FirstUndecidedIsFirst(st: GraphState, i: nat) returns (j: nat)
    requires st.results.Valid() && FirstUndecided(st, i).Some?
    ensures i <= j < |st.results.keys| && st.results.keys[j] == FirstUndecided(st, i).value
    ensures forall m :: i <= m < j ==> !IsUndecided(st, st.results.keys[m])
    decreases |st.results.keys| - i
  {
    j := i;
    if !IsUndecided(st, st.results.keys[i]) {
      j := FirstUndecidedIsFirst(st, i + 1);
    }
  }

  /** The action gate turns the first pending entry into a decided one and leaves the rest. */
  lemma ActionDecisionAt(st: GraphState, d: Decision)
    requires st.pending.Valid() && HasPending(st)
    ensures FirstPending(st).Some?
    ensures var s, after := FirstPending(st).value, AfterActionDecision(st, d);
            && after.pending.Valid()
            && after.pending.vals ==
               st.pending.vals[s := ApplyActionDecision(d.action, d.arguments, st.pending.vals[s])]
  {
    FirstPendingExists(st);
    var s := FirstPending(st).value;
    var entry := Single(s, ApplyActionDecision(d.action, d.arguments, st.pending.vals[s]));
    MergeSingle(st.pending, s, ApplyActionDecision(d.action, d.arguments, st.pending.vals[s]));
    assert entry.Valid();
    MergeValid(st.pending, entry);
  }

  lemma ActionKeepsState(cfg: Config, st: GraphState, d: Decision)
    requires StateInv(cfg, st) && Settled(st) && HasPending(st)
    ensures var after := AfterActionDecision(st, d);
            StateInv(cfg, after) && Settled(after) && Advances(st, after)
  {
    ActionKeepsPending(cfg, st, d);
    SameSubtasks(cfg, st, AfterActionDecision(st, d));
  }

  lemma ActionKeepsPending(cfg: Config, st: GraphState, d: Decision)
    requires StateInv(cfg, st) && HasPending(st)
    ensures var after := AfterActionDecision(st, d);
            after.pending.Valid() && PendingOk(cfg, after) && after == st.(pending := after.pending)
  {
    ActionDecisionAt(st, d);
    var s, after := FirstPending(st).value, AfterActionDecision(st, d).pending.vals;
    forall o | o in after
      ensures o.subtaskId in Ids(st.plan) && o.tool in cfg.sensitive
      ensures after[o].subtaskId == o.subtaskId && after[o].tool == o.tool
      ensures !after[o].status.Approved? ==> after[o].arguments == o.arguments
    {
      assert o == s || after[o] == st.pending.vals[o];
    }
  }

  /** A step that leaves the subtasks alone. */
  lemma SameSubtasks(cfg: Config, st: GraphState, after: GraphState)
    requires StateInv(cfg, st) && Settled(st) && after.pending.Valid() && PendingOk(cfg, after)
    requires after == st.(pending := after.pending, finalResponse := after.finalResponse)
    ensures StateInv(cfg, after) && Settled(after) && Advances(st, after)
  {
    assert forall id :: SlotOf(after, id) == SlotOf(st, id);
    assert forall id :: IsAccepted(after, id) <==> IsAccepted(st, id);
    assert forall id :: NeedsReview(after, id) ==> NeedsReview(st, id);
    assert forall id :: Attempts(after, id) == Attempts(st, id);
    StateInvKept(cfg, st, after);
  }

  lemma ActionStep(cfg: Config, r: Run, inp: Input)
    requires Inv(cfg, r) && r.node.ActionApproval? && Enabled(cfg, r, inp)
    ensures Inv(cfg, Next(cfg, r, inp)) && Advances(r.st, Next(cfg, r, inp).st)
  {
    FirstPendingExists(r.st);
    ActionKeepsState(cfg, r.st, inp.decision);
  }

  /** The failure gate decides the first undecided escalation and leaves the rest. */
  lemma FailureDecisionAt(st: GraphState, d: Decision, id: string)
    requires st.results.Valid() && FirstUndecided(st) == Some(id)
    ensures var after := AfterFailureDecision(st, d);
            && after.results.Valid()
            && after.results.vals == st.results.vals[id := st.results.vals[id].(status :=
                 match d.action case Approve => Accepted case Retry => RetryDue case _ => Escalated)]
            && after.failureDecisions == st.failureDecisions[id :=
                 match d.action case Approve => Approve case Retry => Action.Retry case _ => Reject]
            && after == st.(results := after.results, failureDecisions := after.failureDecisions)
  {
    if d.action.Approve? || d.action.Retry? {
      var entry := Single(id, st.results.vals[id].(status := if d.action.Approve? then Accepted else RetryDue));
      MergeSingle(st.results, id, entry.vals[id]);
      assert entry.Valid();
      MergeValid(st.results, entry);
    }
  }

  lemma FailureSlotOther(st: GraphState, d: Decision, id: string, other: string)
    requires st.results.Valid() && FirstUndecided(st) == Some(id) && other != id
    ensures var after := AfterFailureDecision(st, d);
            && SlotOf(after, other) == SlotOf(st, other)
            && (other in after.results.vals <==> other in st.results.vals)
            && (other in st.results.vals ==> after.results.vals[other] == st.results.vals[other])
  {
    FailureDecisionAt(st, d, id);
  }

  /** What the three answers make of an undecided escalated slot. */
  lemma DecidedSlot(before: Slot, status: Status, decision: Action)
    requires SlotOk(before) && before.status == Some(Escalated) && before.decision.None?
    requires || (status.Accepted? && decision == Approve) || (status.RetryDue? && decision == Action.Retry)
             || (status.Escalated? && decision == Reject)
    ensures var after := Slot(Some(status), before.attempts, Some(decision));
            SlotOk(after) && Rank(after) < Rank(before)
  {
  }

  lemma FailureSlot(cfg: Config, st: GraphState, d: Decision, id: string)
    requires StateInv(cfg, st) && FirstUndecided(st) == Some(id)
    ensures var after := AfterFailureDecision(st, d);
            SlotOk(SlotOf(after, id)) && Rank(SlotOf(after, id)) < Rank(SlotOf(st, id)) && !NeedsReview(after, id)
  {
    FailureDecisionAt(st, d, id);
    assert SlotOk(SlotOf(st, id));
    var after := AfterFailureDecision(st, d);
    DecidedSlot(SlotOf(st, id), after.results.vals[id].status, after.failureDecisions[id]);
    assert SlotOf(after, id) ==
           Slot(Some(after.results.vals[id].status), Attempts(st, id), Some(after.failureDecisions[id]));
  }

  lemma FailureKeepsSlots(cfg: Config, st: GraphState, d: Decision, id: string)
    requires StateInv(cfg, st) && Settled(st) && FirstUndecided(st) == Some(id)
    ensures SlotsOk(AfterFailureDecision(st, d)) && Settled(AfterFailureDecision(st, d))
    ensures Advances(st, AfterFailureDecision(st, d))
  {
    var after := AfterFailureDecision(st, d);
    FailureSlot(cfg, st, d, id);
    forall other
      ensures SlotOk(SlotOf(after, other)) && !NeedsReview(after, other)
      ensures SlotOf(after, other) == SlotOf(st, other) || Rank(SlotOf(after, other)) < Rank(SlotOf(st, other))
    {
      assert SlotOk(SlotOf(st, other)) && !NeedsReview(st, other);
      if other != id { FailureSlotOther(st, d, id, other); }
    }
    forall other | IsAccepted(st, other)
      ensures other in after.results.vals && after.results.vals[other] == st.results.vals[other]
    {
      FailureSlotOther(st, d, id, other);
    }
  }

  lemma FailureKeepsRest(st: GraphState, d: Decision)
    requires st.results.Valid()
    ensures var after := AfterFailureDecision(st, d);
            && after.pending == st.pending && after.plan == st.plan && after.attempts == st.attempts
            && after.feedback == st.feedback && after.finalResponse == st.finalResponse
  {
  }

  lemma FailureStep(cfg: Config, r: Run, inp: Input)
    requires Inv(cfg, r) && r.node.FailureApproval? && Enabled(cfg, r, inp)
    ensures Inv(cfg, Next(cfg, r, inp)) && Advances(r.st, Next(cfg, r, inp).st)
  {
    var st := r.st;
    var some :| IsUndecided(st, some);
    FirstUndecidedExists(st, some);
    var id := FirstUndecided(st).value;
    var after := AfterFailureDecision(st, inp.decision);
    FailureDecisionAt(st, inp.decision, id);
    FailureKeepsSlots(cfg, st, inp.decision, id);
    FailureKeepsRest(st, inp.decision);
    assert forall other :: Attempts(after, other) == Attempts(st, other);
    StateInvKept(cfg, st, after);
  }

  // ------------------------------------------------------------ the other nodes

  /** Before anything ran, any valid or empty plan satisfies the invariant. */
  lemma UntouchedInv(cfg: Config, st: GraphState)
    requires Untouched(st) && (st.plan == [] || ValidPlan(st.plan))
    ensures StateInv(cfg, st) && Settled(st)
  {
  }

  lemma OtherStep(cfg: Config, r: Run, inp: Input)
    requires Inv(cfg, r) && Enabled(cfg, r, inp)
    requires r.node.Supervisor? || r.node.PlanApproval? || r.node.Dispatch? || r.node.Synthesize?
    ensures Inv(cfg, Next(cfg, r, inp)) && Advances(r.st, Next(cfg, r, inp).st)
  {
    var next := Next(cfg, r, inp);
    if r.node.Supervisor? || r.node.PlanApproval? {
      assert Untouched(next.st) && forall id :: SlotOf(next.st, id) == SlotOf(r.st, id);
      UntouchedInv(cfg, next.st);
    } else {
      assert next.st == r.st.(finalResponse := next.st.finalResponse);
      SameSubtasks(cfg, r.st, next.st);
    }
  }

  /** The engine invariant is kept by every super-step, whatever the LLM, the tools and the
      humans answer. */
  lemma StepKeepsInv(cfg: Config, r: Run, inp: Input)
    requires Inv(cfg, r) && Enabled(cfg, r, inp)
    ensures Inv(cfg, Next(cfg, r, inp)) && Advances(r.st, Next(cfg, r, inp).st)
  {
    match r.node
    case ExecuteBatch(_) => ExecuteStep(cfg, r, inp);
    case ReviewBatch => ReviewStep(cfg, r, inp);
    case ActionApproval => ActionStep(cfg, r, inp);
    case FailureApproval => FailureStep(cfg, r, inp);
    case _ => OtherStep(cfg, r, inp);
  }
}
