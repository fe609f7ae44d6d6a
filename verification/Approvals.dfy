/** The approvals table of api/routes.py: rows that survive re-pauses, and the decide
    endpoint of api/server.py, one request at a time. */
module Approvals {
  import opened Dicts
  import opened Plans
  import opened Tools
  import opened Gates

  /** `_approval_id`: the signature where there is one, else a digest of the whole payload;
      both are injective. */
  datatype ApprovalId = BySignature(taskId: string, signature: Signature) | ByDigest(payload: GatePayload)

  function IdOf(p: GatePayload): ApprovalId {
    if p.context.ActionContext? then BySignature(p.taskId, p.context.signature) else ByDigest(p)
  }

  /** The endpoint accepts any string as an action. */
  datatype ApprovalDecision = ApprovalDecision(
    action: string, modifiedPlan: Option<Plan>, modifiedArguments: Option<Arguments>,
    clarificationQuestion: Option<string>)

  datatype Value = Null | Text(text: string) | PlanValue(plan: Plan) | ArgumentsValue(arguments: Arguments)

  /** The JSON object in the resolution column. */
  type Resolution = map<string, Value>

  /** `model_dump`: one key per field of the endpoint's request. */
  function Dump(d: ApprovalDecision): Resolution {
    map["action" := Text(d.action),
        "modified_plan" := if d.modifiedPlan.Some? then PlanValue(d.modifiedPlan.value) else Null,
        "modified_arguments" := if d.modifiedArguments.Some? then ArgumentsValue(d.modifiedArguments.value) else Null,
        "clarification_question" := if d.clarificationQuestion.Some? then Text(d.clarificationQuestion.value) else Null]
  }

  datatype Row = Row(payload: GatePayload, status: string, resolution: Option<Resolution>)

  type Rows = map<ApprovalId, Row>

  const PENDING := "pending"

  /** INSERT ... ON CONFLICT (id) DO UPDATE SET context, proposed_action WHERE status = 'pending'. */
  function Upserted(row: Option<Row>, p: GatePayload): Row {
    match row
    case None => Row(p, PENDING, None)
    case Some(r) =>
      if r.status == PENDING then
        r.(payload := r.payload.(context := p.context, proposedAction := p.proposedAction))
      else r
  }

  function Get(rows: Rows, id: ApprovalId): Option<Row> {
    if id in rows then Some(rows[id]) else None
  }

  /** The rows after the payloads were recorded in order. */
  function Recorded(rows: Rows, ps: seq<GatePayload>): Rows {
    if ps == [] then rows
    else
      var front, p := Recorded(rows, ps[..|ps| - 1]), ps[|ps| - 1];
      front[IdOf(p) := Upserted(Get(front, IdOf(p)), p)]
  }

  datatype DecideResult = NotFound | AlreadyResolved | Resolved(row: Row)

  class ApprovalsTable {
    var rows: Rows

    constructor ()
      ensures rows == map[]
    {
      rows := map[];
    }

    /** `record_interrupt_approvals`; an interrupt that carries no payload is skipped. */
    method RecordInterrupts(interrupts: seq<Option<GatePayload>>) returns (ids: seq<ApprovalId>)
      modifies this
      ensures rows == Recorded(old(rows), PayloadsOf(interrupts))
      ensures ids == IdsOf(PayloadsOf(interrupts))
    {
      ids := [];
      ghost var before := rows;
      for n := 0 to |interrupts|
        invariant rows == Recorded(before, PayloadsOf(interrupts[..n]))
        invariant ids == IdsOf(PayloadsOf(interrupts[..n]))
      {
        PayloadsNext(before, interrupts, n);
        if interrupts[n].Some? {
          var p := interrupts[n].value;
          rows := rows[IdOf(p) := Upserted(Get(rows, IdOf(p)), p)];
          ids := ids + [IdOf(p)];
        }
      }
      assert interrupts[..|interrupts|] == interrupts;
    }

    /** `decide_approval`: only a pending row is decided, and only that row changes. */
    method Decide(id: ApprovalId, decision: ApprovalDecision) returns (result: DecideResult)
      modifies this
      ensures rows == Decided(old(rows), id, decision)
      ensures result.NotFound? <==> id !in old(rows)
      ensures result.AlreadyResolved? <==> id in old(rows) && old(rows)[id].status != PENDING
      ensures result.Resolved? ==> id in rows && result.row == rows[id]
    {
      if id !in rows {
        return NotFound;
      }
      if rows[id].status != PENDING {
        return AlreadyResolved;
      }
      rows := rows[id := rows[id].(status := decision.action, resolution := Some(Dump(decision)))];
      result := Resolved(rows[id]);
    }
  }

  function PayloadsOf(interrupts: seq<Option<GatePayload>>): seq<GatePayload> {
    if interrupts == [] then []
    else
      var front, last := PayloadsOf(interrupts[..|interrupts| - 1]), interrupts[|interrupts| - 1];
      if last.Some? then front + [last.value] else front
  }

  function IdsOf(ps: seq<GatePayload>): seq<ApprovalId> {
    seq(|ps|, i requires 0 <= i < |ps| => IdOf(ps[i]))
  }

  /** What one more interrupt adds to the payloads, to their ids and to the table. */
  lemma PayloadsNext(rows: Rows, interrupts: seq<Option<GatePayload>>, n: nat)
    requires n < |interrupts|
    ensures var front, next := PayloadsOf(interrupts[..n]), PayloadsOf(interrupts[..n + 1]);
            match interrupts[n]
            case None => next == front
            case Some(p) =>
              && IdsOf(next) == IdsOf(front) + [IdOf(p)]
              && Recorded(rows, next) ==
                 Recorded(rows, front)[IdOf(p) := Upserted(Get(Recorded(rows, front), IdOf(p)), p)]
  {
    var front := PayloadsOf(interrupts[..n]);
    assert interrupts[..n + 1][..n] == interrupts[..n];
    if interrupts[n].Some? {
      assert (front + [interrupts[n].value])[..|front|] == front;
    }
  }

  /** `ps` are the payloads of exactly the interrupts at the rising positions `at`. */
  ghost predicate CarriedAt(interrupts: seq<Option<GatePayload>>, ps: seq<GatePayload>, at: seq<nat>) {
    && |at| == |ps|
    && (forall i :: 0 <= i < |at| ==> at[i] < |interrupts| && interrupts[at[i]] == Some(ps[i]))
    && (forall i, j :: 0 <= i < j < |at| ==> at[i] < at[j])
    && forall k :: 0 <= k < |interrupts| && interrupts[k].Some? ==> k in at
  }

  lemma CarriedNext(front: seq<Option<GatePayload>>, last: Option<GatePayload>, ps: seq<GatePayload>, at: seq<nat>)
    requires CarriedAt(front, ps, at)
    ensures if last.Some? then CarriedAt(front + [last], ps + [last.value], at + [|front|])
            else CarriedAt(front + [last], ps, at)
  {
  }

  /** The payloads are those of the interrupts that carry one, in order. */
  lemma {:induction false} PayloadsInOrder(interrupts: seq<Option<GatePayload>>) returns (at: seq<nat>)
    ensures CarriedAt(interrupts, PayloadsOf(interrupts), at)
  {
    if interrupts == [] {
      at := [];
    } else {
      var front, last := interrupts[..|interrupts| - 1], interrupts[|interrupts| - 1];
      at := PayloadsInOrder(front);
      CarriedNext(front, last, PayloadsOf(front), at);
      assert interrupts == front + [last];
      at := if last.Some? then at + [|front|] else at;
    }
  }

  /** `resolve_approval` behind the endpoint's check. */
  function Resolve(rows: Rows, id: ApprovalId, status: string, resolution: Resolution): Rows {
    if id in rows && rows[id].status == PENDING then
      rows[id := rows[id].(status := status, resolution := Some(resolution))]
    else rows
  }

  function Decided(rows: Rows, id: ApprovalId, decision: ApprovalDecision): Rows {
    Resolve(rows, id, decision.action, Dump(decision))
  }

  // ------------------------------------------------------------ recording

  /** The last payload of `ps` with this id. */
  function LastFor(ps: seq<GatePayload>, id: ApprovalId): Option<GatePayload> {
    if ps == [] then None
    else if IdOf(ps[|ps| - 1]) == id then Some(ps[|ps| - 1])
    else LastFor(ps[..|ps| - 1], id)
  }

  lemma {:induction false} RecordedAt(rows: Rows, ps: seq<GatePayload>, id: ApprovalId)
    ensures var after := Recorded(rows, ps);
            && (id in after <==> id in rows || LastFor(ps, id).Some?)
            && (id in rows && (rows[id].status != PENDING || LastFor(ps, id).None?) ==> after[id] == rows[id])
            && (id in after && LastFor(ps, id).Some? && (id in rows ==> rows[id].status == PENDING) ==>
                  && after[id].status == PENDING
                  && after[id].payload.context == LastFor(ps, id).value.context
                  && after[id].payload.proposedAction == LastFor(ps, id).value.proposedAction)
            && (id in rows && rows[id].status == PENDING && LastFor(ps, id).Some? ==>
                  after[id] == Upserted(Some(rows[id]), LastFor(ps, id).value))
  {
    if ps != [] {
      RecordedAt(rows, ps[..|ps| - 1], id);
    }
  }

  /** Recording a pause again changes nothing: a redelivered task that pauses at the same
      gates leaves the table as it was. */
  lemma RecordingTwice(rows: Rows, ps: seq<GatePayload>)
    ensures Recorded(Recorded(rows, ps), ps) == Recorded(rows, ps)
  {
    var once := Recorded(rows, ps);
    var twice := Recorded(once, ps);
    forall id ensures (id in twice <==> id in once) && (id in once ==> twice[id] == once[id]) {
      RecordedAt(rows, ps, id);
      RecordedAt(once, ps, id);
    }
  }

  /** A payload as the gates build it while a pending entry describes the call its signature
      stands for: in an action payload everything follows from the signature. */
  ghost predicate FromGate(p: GatePayload) {
    p.context.ActionContext? ==> p == ActionPayload(p.taskId, p.context.signature, p.context.signature)
  }

  /** Every row shows the payload that its id stands for. */
  ghost predicate Faithful(rows: Rows) {
    forall id :: id in rows ==> IdOf(rows[id].payload) == id && FromGate(rows[id].payload)
  }

  lemma SameIdSamePayload(p: GatePayload, q: GatePayload)
    requires FromGate(p) && FromGate(q) && IdOf(p) == IdOf(q)
    ensures p == q
  {
  }

  /** Each gate payload has exactly one row, and what a human was shown in it never changes,
      resolved or not. */
  lemma {:induction false} OneFaithfulRowPerPayload(rows: Rows, ps: seq<GatePayload>)
    requires Faithful(rows) && forall p :: p in ps ==> FromGate(p)
    ensures var after := Recorded(rows, ps);
            && Faithful(after)
            && (forall p :: p in ps ==> IdOf(p) in after && after[IdOf(p)].payload == p)
            && (forall id :: id in after ==> id in rows || exists p :: p in ps && IdOf(p) == id)
            && (forall id :: id in rows ==> id in after && after[id] == rows[id])
  {
    if ps != [] {
      var front, p := ps[..|ps| - 1], ps[|ps| - 1];
      OneFaithfulRowPerPayload(rows, front);
      var before := Recorded(rows, front);
      if IdOf(p) in before {
        SameIdSamePayload(p, before[IdOf(p)].payload);
        assert Upserted(Some(before[IdOf(p)]), p) == before[IdOf(p)];
      }
    }
  }

  /** A pause records its payload in a row of its own, which nobody has decided. */
  lemma RecordedOne(rows: Rows, p: GatePayload)
    ensures var after := Recorded(rows, [p]);
            && (forall id :: id in rows && id != IdOf(p) ==> id in after && after[id] == rows[id])
            && IdOf(p) in after
            && (IdOf(p) !in rows ==> after[IdOf(p)] == Row(p, PENDING, None))
            && forall id :: id in after ==> id in rows || id == IdOf(p)
  {
    assert [p][..0] == [];
    assert Recorded(rows, [p][..0]) == rows;
  }

  // ------------------------------------------------------------ resolved rows

  datatype Op = Record(payloads: seq<GatePayload>) | Decide(id: ApprovalId, decision: ApprovalDecision)

  function Apply(rows: Rows, op: Op): Rows {
    match op
    case Record(ps) => Recorded(rows, ps)
    case Decide(id, decision) => Decided(rows, id, decision)
  }

  function ApplyAll(rows: Rows, ops: seq<Op>): Rows {
    if ops == [] then rows else Apply(ApplyAll(rows, ops[..|ops| - 1]), ops[|ops| - 1])
  }

  lemma {:induction false} ResolvedRowsAreFrozen(rows: Rows, ops: seq<Op>, id: ApprovalId)
    requires id in rows && rows[id].status != PENDING
    ensures id in ApplyAll(rows, ops) && ApplyAll(rows, ops)[id] == rows[id]
  {
    if ops != [] {
      var front := ops[..|ops| - 1];
      ResolvedRowsAreFrozen(rows, front, id);
      match ops[|ops| - 1]
      case Record(ps) => RecordedAt(ApplyAll(rows, front), ps, id);
      case Decide(_, _) =>
    }
  }

  ghost predicate OpFromGates(op: Op) {
    op.Record? ==> forall p :: p in op.payloads ==> FromGate(p)
  }

  /** Over any interleaving of re-pauses and decisions: one row per payload that was ever
      recorded, each showing that payload and nothing else, forever. */
  lemma {:induction false} RowsStayFaithful(rows: Rows, ops: seq<Op>)
    requires Faithful(rows) && forall op :: op in ops ==> OpFromGates(op)
    ensures var after := ApplyAll(rows, ops);
            && Faithful(after)
            && (forall id :: id in rows ==> id in after && after[id].payload == rows[id].payload)
            && (forall op, p :: op in ops && op.Record? && p in op.payloads ==>
                  IdOf(p) in after && after[IdOf(p)].payload == p)
  {
    if ops != [] {
      var front, last := ops[..|ops| - 1], ops[|ops| - 1];
      RowsStayFaithful(rows, front);
      var before := ApplyAll(rows, front);
      if last.Record? {
        assert OpFromGates(last);
        OneFaithfulRowPerPayload(before, last.payloads);
      }
      forall op, p | op in ops && op.Record? && p in op.payloads
        ensures IdOf(p) in ApplyAll(rows, ops) && ApplyAll(rows, ops)[IdOf(p)].payload == p
      {
        assert op in front || op == last;
      }
    }
  }

  /** The row stays as it is, whatever re-pauses and decisions follow. */
  ghost predicate IsFinal(rows: Rows, id: ApprovalId)
    requires id in rows
  {
    forall ops :: id in ApplyAll(rows, ops) && ApplyAll(rows, ops)[id] == rows[id]
  }

  /** A decided row is final exactly when the decision's action is not the word "pending"
      itself: the endpoint stores the action as the row's status and accepts any string. */
  lemma DecisionIsFinalIff(rows: Rows, id: ApprovalId, decision: ApprovalDecision)
    requires id in rows && rows[id].status == PENDING
    ensures decision.action != PENDING <==> IsFinal(Decided(rows, id, decision), id)
  {
    var after := Decided(rows, id, decision);
    if decision.action != PENDING {
      forall ops ensures id in ApplyAll(after, ops) && ApplyAll(after, ops)[id] == after[id] {
        ResolvedRowsAreFrozen(after, ops, id);
      }
    } else {
      var ops := [Decide(id, ApprovalDecision("approve", None, None, None))];
      assert ApplyAll(after, ops[..0]) == after;
      assert ApplyAll(after, ops)[id].status == "approve";
      assert |"approve"| != |PENDING| || "approve"[0] != PENDING[0];
      assert ApplyAll(after, ops)[id] != after[id];
    }
  }
}
