/** A gate has one row, and the row one answer: what becomes of a gate that a run comes back
    to, as it does when an edit has reopened a decided call. */
module OneAnswer {
  import opened Dicts
  import opened Tools
  import opened Gates
  import opened Engine
  import opened Runs
  import opened Resolutions
  import opened Driver
  import opened Provenance
  import opened Redelivery
  import Approvals

  // ------------------------------------------------------------ one answer per row

  /** The worker was resumed for this row. */
  predicate ResumedFor(w: Worker, id: Approvals.ApprovalId) {
    w.resume.Some? && w.resume.value.id == id
  }

  /** The row is decided for good, and every worker that was resumed for it carries that
      answer. */
  ghost predicate ClosedWith(w: World, id: Approvals.ApprovalId, answer: Approvals.Resolution) {
    && id in w.rows && w.rows[id].status != Approvals.PENDING && w.rows[id].resolution == Some(answer)
    && forall k :: k in w.workers && ResumedFor(w.workers[k], id) ==> w.workers[k].resume.value.resolution == answer
  }

  /** Nobody is resumed for a row without an answer. */
  ghost predicate ResumedOnAnswers(w: World) {
    forall k :: k in w.workers && w.workers[k].resume.Some? ==>
      var id := w.workers[k].resume.value.id; id in w.rows && w.rows[id].resolution.Some?
  }

  lemma RecordKeepsAnswers(rows: Approvals.Rows, p: GatePayload, id: Approvals.ApprovalId)
    requires id in rows
    ensures var after := Approvals.Recorded(rows, [p]);
            id in after && after[id].resolution == rows[id].resolution
            && (rows[id].status != Approvals.PENDING ==> after[id] == rows[id])
  {
    assert [p][..0] == [];
    assert Approvals.Recorded(rows, [p][..0]) == rows;
  }

  lemma MoveKeepsResumed(cfg: Config, w: World, m: Move)
    requires Allowed(cfg, w, m) && ResumedOnAnswers(w)
    ensures ResumedOnAnswers(Do(cfg, w, m))
  {
    if m.Pause? {
      forall id | id in w.rows ensures
        var after := Do(cfg, w, m).rows; id in after && after[id].resolution == w.rows[id].resolution
      {
        RecordKeepsAnswers(w.rows, Asked(cfg, Last(w.workers[m.worker].line)), id);
      }
    }
  }

  lemma {:induction false} AlwaysResumedOnAnswers(cfg: Config, h: History, n: nat)
    requires IsSchedule(cfg, h) && n < |h.worlds|
    ensures ResumedOnAnswers(h.worlds[n])
  {
    if n > 0 {
      AlwaysResumedOnAnswers(cfg, h, n - 1);
      assert IsTransition(cfg, h, n - 1);
      MoveKeepsResumed(cfg, h.worlds[n - 1], h.moves[n - 1]);
    }
  }

  /** The first decision on a row closes it, unless its action is the word "pending". */
  lemma DecisionCloses(cfg: Config, h: History, n: nat, id: Approvals.ApprovalId, status: string,
                       answer: Approvals.Resolution)
    requires IsSchedule(cfg, h) && n < |h.worlds| && id in h.worlds[n].rows
    requires h.worlds[n].rows[id].status == Approvals.PENDING && h.worlds[n].rows[id].resolution.None?
    ensures ClosedWith(Do(cfg, h.worlds[n], Decide(id, status, answer)), id, answer) <==> status != Approvals.PENDING
  {
    AlwaysResumedOnAnswers(cfg, h, n);
  }

  lemma MoveKeepsClosed(cfg: Config, w: World, m: Move, id: Approvals.ApprovalId, answer: Approvals.Resolution)
    requires Allowed(cfg, w, m) && ClosedWith(w, id, answer)
    ensures ClosedWith(Do(cfg, w, m), id, answer) && Do(cfg, w, m).rows[id] == w.rows[id]
  {
    if m.Pause? {
      RecordKeepsAnswers(w.rows, Asked(cfg, Last(w.workers[m.worker].line)), id);
    }
  }

  lemma {:induction false} ClosedForGood(cfg: Config, h: History, m: nat, n: nat, id: Approvals.ApprovalId,
                                         answer: Approvals.Resolution)
    requires IsSchedule(cfg, h) && m <= n < |h.worlds| && ClosedWith(h.worlds[m], id, answer)
    ensures ClosedWith(h.worlds[n], id, answer) && h.worlds[n].rows[id] == h.worlds[m].rows[id]
  {
    if m < n {
      ClosedForGood(cfg, h, m, n - 1, id, answer);
      assert IsTransition(cfg, h, n - 1);
      MoveKeepsClosed(cfg, h.worlds[n - 1], h.moves[n - 1], id, answer);
    }
  }

  // ------------------------------------------------------------ coming back to a closed gate

  /** The worker stands at the gate of this row. */
  ghost predicate AtGateOf(cfg: Config, w: Worker, id: Approvals.ApprovalId) {
    AtGate(cfg, w) && Approvals.IdOf(Asked(cfg, Last(w.line))) == id
  }

  lemma PauseAtClosedGate(rows: Approvals.Rows, p: GatePayload)
    requires Approvals.IdOf(p) in rows && rows[Approvals.IdOf(p)].status != Approvals.PENDING
    ensures Approvals.Recorded(rows, [p]) == rows
  {
    Approvals.RecordedOne(rows, p);
    RecordKeepsAnswers(rows, p, Approvals.IdOf(p));
  }

  lemma ClosedRowIsIgnored(cfg: Config, w: World, id: Approvals.ApprovalId, status: string, other: Approvals.Resolution)
    requires id in w.rows && w.rows[id].status != Approvals.PENDING
    ensures Do(cfg, w, Decide(id, status, other)) == w
  {
    assert w.log + [] == w.log;
  }

  lemma TakesOldAnswer(cfg: Config, w: Worker, inp: Input, id: Approvals.ApprovalId, answer: Approvals.Resolution)
    requires AtGateOf(cfg, w, id) && CanTake(cfg, w, inp) && ForOwnGate(cfg, w)
    requires ResumedFor(w, id) ==> w.resume.value.resolution == answer
    ensures inp.decision == ReadDecision(answer)
  {
  }

  /** Once a gate has been answered, a run that comes back to it asks nobody: pausing there
      changes no row, deciding its row again changes nothing at all, and a worker that was
      resumed for it passes it with the old answer. */
  lemma ClosedGateAsksNobody(cfg: Config, h: History, m: nat, n: nat, k: nat, id: Approvals.ApprovalId,
                             answer: Approvals.Resolution)
    requires IsSchedule(cfg, h) && m <= n < |h.worlds| && ClosedWith(h.worlds[m], id, answer)
    requires k in h.worlds[n].workers && !h.worlds[n].workers[k].unsaved && AtGateOf(cfg, h.worlds[n].workers[k], id)
    ensures Do(cfg, h.worlds[n], Pause(k)).rows == h.worlds[n].rows
    ensures forall status, other :: Do(cfg, h.worlds[n], Decide(id, status, other)) == h.worlds[n]
    ensures forall inp :: CanTake(cfg, h.worlds[n].workers[k], inp) && ForOwnGate(cfg, h.worlds[n].workers[k]) ==>
              inp.decision == ReadDecision(answer)
  {
    var w := h.worlds[n];
    ClosedForGood(cfg, h, m, n, id, answer);
    PauseAtClosedGate(w.rows, Asked(cfg, Last(w.workers[k].line)));
    forall status, other ensures Do(cfg, w, Decide(id, status, other)) == w {
      ClosedRowIsIgnored(cfg, w, id, status, other);
    }
    forall inp | CanTake(cfg, w.workers[k], inp) && ForOwnGate(cfg, w.workers[k])
      ensures inp.decision == ReadDecision(answer)
    {
      TakesOldAnswer(cfg, w.workers[k], inp, id, answer);
    }
  }

  /** So a sensitive call that was decided once and is pending again is only ever decided as
      it was before. */
  lemma ReopenedCallKeepsItsAnswer(cfg: Config, h: History, m: nat, n: nat, k: nat, inp: Input, s: Signature,
                                   answer: Approvals.Resolution)
    requires IsSchedule(cfg, h) && m <= n < |h.worlds|
    requires ClosedWith(h.worlds[m], Approvals.BySignature(cfg.taskId, s), answer)
    requires k in h.worlds[n].workers && CanTake(cfg, h.worlds[n].workers[k], inp)
    requires ForOwnGate(cfg, h.worlds[n].workers[k])
    requires var r := Last(h.worlds[n].workers[k].line);
             r.node.ActionApproval? && r.st.pending.Valid() && FirstPending(r.st) == Some(s)
    ensures inp.Answered? && inp.decision == ReadDecision(answer)
  {
    CrashRefinement(cfg, h, n);
    AlwaysLogged(cfg, h, n);
    WorkerAt(cfg, h.worlds[n], k);
    AskedFromGate(cfg, Last(h.worlds[n].workers[k].line));
    ClosedGateAsksNobody(cfg, h, m, n, k, Approvals.BySignature(cfg.taskId, s), answer);
  }

  // ------------------------------------------------------------ one gate per delivery

  /** A worker resumed for this row hands its answer to a gate, in vain or not. */
  ghost predicate UsesAnswer(cfg: Config, w: World, m: Move, id: Approvals.ApprovalId) {
    match m
    case SuperStep(k, _, _) => k in w.workers && AtGate(cfg, w.workers[k]) && ResumedFor(w.workers[k], id)
    case Kill(k, lost, _) => lost.Some? && k in w.workers && AtGate(cfg, w.workers[k]) && ResumedFor(w.workers[k], id)
    case _ => false
  }

  ghost function Uses(cfg: Config, h: History, n: nat, id: Approvals.ApprovalId): nat
    requires n <= |h.moves| && n <= |h.worlds|
  {
    if n == 0 then 0
    else Uses(cfg, h, n - 1, id) + if UsesAnswer(cfg, h.worlds[n - 1], h.moves[n - 1], id) then 1 else 0
  }

  function Deliveries(moves: seq<Move>, n: nat, id: Approvals.ApprovalId): nat
    requires n <= |moves|
  {
    if n == 0 then 0
    else Deliveries(moves, n - 1, id) + if moves[n - 1].ResumeTask? && moves[n - 1].id == id then 1 else 0
  }

  function Carriers(w: World, id: Approvals.ApprovalId): set<nat> {
    set k | k in w.workers && ResumedFor(w.workers[k], id)
  }

  /** Only a new delivery takes an answer along; whoever hands one over no longer has it. */
  lemma MoveCarries(cfg: Config, w: World, m: Move, id: Approvals.ApprovalId)
    requires Allowed(cfg, w, m)
    ensures forall k :: k in Carriers(Do(cfg, w, m), id) ==> k in Carriers(w, id) || m == ResumeTask(k, id)
    ensures UsesAnswer(cfg, w, m, id) ==> m.worker in Carriers(w, id) && m.worker !in Carriers(Do(cfg, w, m), id)
  {
  }

  lemma Fewer(before: set<nat>, after: set<nat>, k: nat)
    requires after <= before
    ensures |after| <= |before|
    ensures k in before && k !in after ==> |after| + 1 <= |before|
    ensures k !in before ==> |before + {k}| == |before| + 1
  {
    var rest := before - after;
    assert before == after + rest;
    assert |before| == |after| + |rest|;
  }

  lemma MoveSpendsAnswer(cfg: Config, w: World, m: Move, id: Approvals.ApprovalId)
    requires Allowed(cfg, w, m)
    ensures |Carriers(Do(cfg, w, m), id)| + (if UsesAnswer(cfg, w, m, id) then 1 else 0)
            <= |Carriers(w, id)| + if m.ResumeTask? && m.id == id then 1 else 0
  {
    var before, after := Carriers(w, id), Carriers(Do(cfg, w, m), id);
    MoveCarries(cfg, w, m, id);
    if m.ResumeTask? && m.id == id {
      Fewer(before, before, m.worker);
      Fewer(before + {m.worker}, after, m.worker);
    } else if UsesAnswer(cfg, w, m, id) {
      Fewer(before, after, m.worker);
    } else {
      Fewer(before, after, 0);
    }
  }

  /** Every delivery of a resume hands its answer to at most one gate. */
  lemma {:induction false} OneGatePerDelivery(cfg: Config, h: History, n: nat, id: Approvals.ApprovalId)
    requires IsSchedule(cfg, h) && n < |h.worlds|
    ensures Uses(cfg, h, n, id) + |Carriers(h.worlds[n], id)| <= Deliveries(h.moves, n, id)
  {
    if n > 0 {
      OneGatePerDelivery(cfg, h, n - 1, id);
      assert IsTransition(cfg, h, n - 1);
      MoveSpendsAnswer(cfg, h.worlds[n - 1], h.moves[n - 1], id);
    } else {
      assert Carriers(h.worlds[0], id) == {};
    }
  }

  /** A super-step that passes the gate of this row. */
  ghost predicate PassesGateOf(cfg: Config, w: World, m: Move, id: Approvals.ApprovalId) {
    m.SuperStep? && m.worker in w.workers && AtGateOf(cfg, w.workers[m.worker], id)
  }

  ghost function Passes(cfg: Config, h: History, n: nat, id: Approvals.ApprovalId): nat
    requires n <= |h.moves| && n <= |h.worlds|
  {
    if n == 0 then 0
    else Passes(cfg, h, n - 1, id) + if PassesGateOf(cfg, h.worlds[n - 1], h.moves[n - 1], id) then 1 else 0
  }

  lemma MatchedPassUses(cfg: Config, w: World, m: Move, id: Approvals.ApprovalId)
    requires Allowed(cfg, w, m) && Matched(cfg, w, m) && PassesGateOf(cfg, w, m, id)
    ensures UsesAnswer(cfg, w, m, id)
  {
  }

  lemma MatchedMoveUses(cfg: Config, h: History, n: nat, id: Approvals.ApprovalId)
    requires IsSchedule(cfg, h) && n < |h.moves| && Matched(cfg, h.worlds[n], h.moves[n])
    ensures PassesGateOf(cfg, h.worlds[n], h.moves[n], id) ==> UsesAnswer(cfg, h.worlds[n], h.moves[n], id)
  {
    assert IsTransition(cfg, h, n);
    if PassesGateOf(cfg, h.worlds[n], h.moves[n], id) {
      MatchedPassUses(cfg, h.worlds[n], h.moves[n], id);
    }
  }

  lemma {:induction false} MatchedPassesUse(cfg: Config, h: History, n: nat, id: Approvals.ApprovalId)
    requires IsSchedule(cfg, h) && n < |h.worlds| && AllMatched(cfg, h, n)
    ensures Passes(cfg, h, n, id) <= Uses(cfg, h, n, id)
  {
    if n > 0 {
      MatchedPassesUse(cfg, h, n - 1, id);
      MatchedMoveUses(cfg, h, n - 1, id);
    }
  }

  /** So a gate that a run comes back to again and again is passed no more often than its
      resume is delivered, if only workers resumed for it pass it. */
  lemma PassesNeedDeliveries(cfg: Config, h: History, n: nat, id: Approvals.ApprovalId)
    requires IsSchedule(cfg, h) && n < |h.worlds| && AllMatched(cfg, h, n)
    ensures Passes(cfg, h, n, id) <= Deliveries(h.moves, n, id)
  {
    MatchedPassesUse(cfg, h, n, id);
    OneGatePerDelivery(cfg, h, n, id);
  }
}
