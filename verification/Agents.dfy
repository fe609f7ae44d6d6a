/** The agents between the graph and the LLM: the bounded tool loop of
    agents/specialists.py and the reviewer's score override of agents/reviewer.py.
    Every LLM answer is an arbitrary input. */
module Agents {
  import opened Dicts
  import opened Tools

  // ------------------------------------------------------------ specialist

  const MAX_TOOL_ITERATIONS := 5

  datatype ToolCall = ToolCall(tool: string, arguments: Arguments)

  /** One answer of the specialist's LLM; `observation` is the text `_invoke` makes of the
      tool's reply. A failing LLM or tool layer raises. */
  datatype Turn =
    | Raises(error: string)
    | Turn(thought: string, toolCall: Option<ToolCall>, finalAnswer: Option<string>, observation: string)

  /** The executor handed to a specialist; without one every tool is unavailable. */
  datatype Access = Access(available: bool, sensitive: set<string>, subtaskId: string, approvals: Approvals)

  datatype Outcome = Answer(content: string) | Crash(error: string) | Awaits(signature: Signature)

  datatype SpecialistRun = SpecialistRun(outcome: Outcome, ran: seq<Signature>)

  function OrDefault(s: string): string {
    if s == "" then "No output produced." else s
  }

  /** The loop of `SpecialistAgent.run` from iteration `i`, `last` being the latest observation. */
  function Continue(a: Access, turns: seq<Turn>, i: nat, last: string): SpecialistRun
    requires |turns| == MAX_TOOL_ITERATIONS && i <= |turns|
    decreases |turns| - i
  {
    if i == |turns| then SpecialistRun(Answer(last), [])
    else
      match turns[i]
      case Raises(error) => SpecialistRun(Crash(error), [])
      case Turn(thought, toolCall, finalAnswer, observation) =>
        if finalAnswer.Some? && finalAnswer.value != "" then SpecialistRun(Answer(finalAnswer.value), [])
        else if toolCall.None? then SpecialistRun(Answer(OrDefault(thought)), [])
        else if !a.available then Continue(a, turns, i + 1, observation)
        else
          match Invoke(a, toolCall.value)
          case NeedsDecision(signature) => SpecialistRun(Awaits(signature), [])
          case Refused => Continue(a, turns, i + 1, observation)
          case Ran(signature) =>
            var rest := Continue(a, turns, i + 1, observation);
            rest.(ran := [signature] + rest.ran)
  }

  function Invoke(a: Access, call: ToolCall): CallReply {
    Executor(a.sensitive, a.approvals, Signature(a.subtaskId, call.tool, call.arguments))
  }

  // ------------------------------------------------------------ what a specialist answers

  /** The LLM gave a final answer; an empty one is none. */
  predicate Concludes(t: Turn) {
    t.Turn? && t.finalAnswer.Some? && t.finalAnswer.value != ""
  }

  predicate CallsTool(t: Turn) {
    t.Turn? && !Concludes(t) && t.toolCall.Some?
  }

  /** What becomes of the tool call of a turn. */
  function ReplyTo(a: Access, t: Turn): CallReply
    requires CallsTool(t)
  {
    Executor(a.sensitive, a.approvals, Signature(a.subtaskId, t.toolCall.value.tool, t.toolCall.value.arguments))
  }

  /** The turn asks for a tool, and the loop goes on: no human has to be asked first. */
  predicate GoesOn(a: Access, t: Turn) {
    CallsTool(t) && (a.available ==> !ReplyTo(a, t).NeedsDecision?)
  }

  /** Turn `k` is the first one with which the loop does not go on; at 5 there is none. */
  ghost predicate Decides(a: Access, turns: seq<Turn>, k: nat) {
    && k <= |turns| && (forall j :: 0 <= j < k ==> GoesOn(a, turns[j]))
    && (k < |turns| ==> !GoesOn(a, turns[k]))
  }

  /** The outcome, told from the turns: a turn that fails is a crash, a final answer is the
      answer, without a tool call the thought is, a call that needs a decision stops, and after
      the last call the answer is what that call returned. */
  ghost predicate ComesFrom(a: Access, turns: seq<Turn>, k: nat, outcome: Outcome)
    requires |turns| == 5
  {
    && Decides(a, turns, k)
    && if k == 5 then outcome == Answer(turns[4].observation)
       else
         match turns[k]
         case Raises(error) => outcome == Crash(error)
         case Turn(thought, call, answer, _) =>
           if answer.Some? && answer.value != "" then outcome == Answer(answer.value)
           else if call.Some? then
             a.available && outcome.Awaits? && ReplyTo(a, turns[k]) == NeedsDecision(outcome.signature)
           else outcome == Answer(if thought != "" then thought else "No output produced.")
  }

  /** The tools that the first `k` turns ran. */
  function RanBefore(a: Access, turns: seq<Turn>, k: nat): seq<Signature>
    requires k <= |turns|
  {
    if k == 0 then []
    else
      var t := turns[k - 1];
      RanBefore(a, turns, k - 1) +
      if a.available && CallsTool(t) && ReplyTo(a, t).Ran? then [ReplyTo(a, t).signature] else []
  }

  lemma DecidingTurn(a: Access, turns: seq<Turn>, i: nat) returns (k: nat)
    requires i <= |turns| && forall j :: 0 <= j < i ==> GoesOn(a, turns[j])
    ensures Decides(a, turns, k)
    decreases |turns| - i
  {
    if i < |turns| && GoesOn(a, turns[i]) {
      k := DecidingTurn(a, turns, i + 1);
    } else {
      k := i;
    }
  }

  /** From any turn up to the deciding one the loop leads to the outcome that it decides. */
  lemma {:induction false} LoopComesFrom(a: Access, turns: seq<Turn>, i: nat, last: string, k: nat)
    requires |turns| == MAX_TOOL_ITERATIONS && Decides(a, turns, k) && i <= k
    requires i == 5 ==> last == turns[4].observation
    ensures ComesFrom(a, turns, k, Continue(a, turns, i, last).outcome)
    decreases k - i
  {
    if i < k {
      assert GoesOn(a, turns[i]);
      LoopComesFrom(a, turns, i + 1, turns[i].observation, k);
    }
  }

  lemma {:induction false} LoopRan(a: Access, turns: seq<Turn>, i: nat, last: string, k: nat)
    requires |turns| == MAX_TOOL_ITERATIONS && Decides(a, turns, k) && i <= k
    ensures RanBefore(a, turns, i) + Continue(a, turns, i, last).ran == RanBefore(a, turns, k)
    decreases k - i
  {
    if i < k {
      assert GoesOn(a, turns[i]);
      LoopRan(a, turns, i + 1, turns[i].observation, k);
      LoopRanNext(a, turns, i, last);
    } else {
      assert Continue(a, turns, i, last).ran == [];
    }
  }

  lemma LoopRanNext(a: Access, turns: seq<Turn>, i: nat, last: string)
    requires |turns| == MAX_TOOL_ITERATIONS && i < |turns| && GoesOn(a, turns[i])
    ensures RanBefore(a, turns, i) + Continue(a, turns, i, last).ran ==
            RanBefore(a, turns, i + 1) + Continue(a, turns, i + 1, turns[i].observation).ran
  {
  }

  lemma NotBefore(a: Access, turns: seq<Turn>, k: nat, l: nat)
    requires Decides(a, turns, k) && Decides(a, turns, l)
    ensures k >= l
  {
  }

  lemma OneOutcome(a: Access, turns: seq<Turn>, k: nat, one: Outcome, l: nat, other: Outcome)
    requires |turns| == 5 && ComesFrom(a, turns, k, one) && ComesFrom(a, turns, l, other)
    ensures k == l && one == other
  {
    NotBefore(a, turns, k, l);
    NotBefore(a, turns, l, k);
  }

  /** The loop has an outcome exactly when the turns lead to it, for answers, crashes and
      questions alike. */
  lemma OutcomeIff(a: Access, turns: seq<Turn>, outcome: Outcome)
    requires |turns| == MAX_TOOL_ITERATIONS
    ensures Continue(a, turns, 0, "No output produced.").outcome == outcome <==>
              exists k :: ComesFrom(a, turns, k, outcome)
  {
    var k := DecidingTurn(a, turns, 0);
    LoopComesFrom(a, turns, 0, "No output produced.", k);
    if l :| ComesFrom(a, turns, l, outcome) {
      OneOutcome(a, turns, k, Continue(a, turns, 0, "No output produced.").outcome, l, outcome);
    }
  }

  lemma RunDecides(a: Access, turns: seq<Turn>) returns (k: nat)
    requires |turns| == MAX_TOOL_ITERATIONS
    ensures var r := Continue(a, turns, 0, "No output produced.");
            ComesFrom(a, turns, k, r.outcome) && r.ran == RanBefore(a, turns, k)
  {
    k := DecidingTurn(a, turns, 0);
    LoopComesFrom(a, turns, 0, "No output produced.", k);
    LoopRan(a, turns, 0, "No output produced.", k);
  }

  method RunSpecialist(a: Access, turns: seq<Turn>) returns (outcome: Outcome, ran: seq<Signature>)
    requires |turns| == MAX_TOOL_ITERATIONS
    ensures SpecialistRun(outcome, ran) == Continue(a, turns, 0, "No output produced.")
    ensures exists k: nat :: ComesFrom(a, turns, k, outcome) && ran == RanBefore(a, turns, k)
  {
    ghost var k := RunDecides(a, turns);
    ran := [];
    var last := "No output produced.";
    for i := 0 to MAX_TOOL_ITERATIONS
      invariant var rest := Continue(a, turns, i, last);
                SpecialistRun(rest.outcome, ran + rest.ran) == Continue(a, turns, 0, "No output produced.")
    {
      var turn := turns[i];
      if turn.Raises? {
        return Crash(turn.error), ran;
      }
      if turn.finalAnswer.Some? && turn.finalAnswer.value != "" {
        return Answer(turn.finalAnswer.value), ran;
      }
      if turn.toolCall.None? {
        return Answer(OrDefault(turn.thought)), ran;
      }
      if a.available {
        var reply := Invoke(a, turn.toolCall.value);
        if reply.NeedsDecision? {
          return Awaits(reply.signature), ran;
        }
        if reply.Ran? {
          ghost var rest := Continue(a, turns, i + 1, turn.observation);
          Associative(ran, [reply.signature], rest.ran);
          ran := ran + [reply.signature];
        }
      }
      last := turn.observation;
    }
    outcome := Answer(last);
  }

  ghost predicate Cleared(a: Access, s: Signature) {
    s.tool in a.sensitive ==> s in a.approvals && a.approvals[s].status.Approved?
  }

  /** What one specialist run may do to the world: at most five tool runs, each of them for
      its own subtask and cleared by an approval if sensitive; and when it stops for a
      decision, the decision is one about a sensitive tool of its own subtask. */
  lemma {:induction false} SpecialistIsGated(a: Access, turns: seq<Turn>, i: nat, last: string)
    requires |turns| == MAX_TOOL_ITERATIONS && i <= |turns|
    ensures var r := Continue(a, turns, i, last);
            && |r.ran| <= 5 - i
            && (forall s :: s in r.ran ==> s.subtaskId == a.subtaskId && Cleared(a, s))
            && (r.outcome.Awaits? ==>
                  && a.available && r.outcome.signature.subtaskId == a.subtaskId
                  && r.outcome.signature.tool in a.sensitive)
    decreases |turns| - i
  {
    if i < |turns| && turns[i].Turn? {
      SpecialistIsGated(a, turns, i + 1, turns[i].observation);
    }
  }

  /** The approvals carry no edits that would divert a call. */
  ghost predicate Unedited(approvals: Approvals) {
    forall s :: s in approvals && approvals[s].status.Approved? ==>
      approvals[s].arguments == map[] || approvals[s].arguments == s.arguments
  }

  /** `_execute_payload` hands a specialist decided approvals only. */
  ghost predicate OnlyDecided(approvals: Approvals) {
    forall s :: s in approvals ==> !approvals[s].status.Pending?
  }

  /** Without edits a specialist only ever asks for a decision that has not been taken. */
  lemma {:induction false} AsksOnlyForUndecided(a: Access, turns: seq<Turn>, i: nat, last: string)
    requires |turns| == MAX_TOOL_ITERATIONS && i <= |turns|
    requires Unedited(a.approvals) && OnlyDecided(a.approvals)
    ensures var r := Continue(a, turns, i, last); r.outcome.Awaits? ==> r.outcome.signature !in a.approvals
    decreases |turns| - i
  {
    if i < |turns| && turns[i].Turn? {
      AsksOnlyForUndecided(a, turns, i + 1, turns[i].observation);
    }
  }

  // ------------------------------------------------------------ reviewer

  const THRESHOLD: real := 0.75

  /** Each score lies in [0, 1]. */
  datatype Scores = Scores(correctness: real, completeness: real, format: real, sources: real) {
    function Overall(): real {
      (correctness + completeness + format + sources) / 4.0
    }
  }

  /** The overall score is a mean: it lies between the smallest and the largest score, does not
      depend on which score is which, and rises by a quarter of what any of them rises by. */
  lemma OverallIsMean(a: real, b: real, c: real, d: real, low: real, high: real, rise: real)
    requires low <= a <= high && low <= b <= high && low <= c <= high && low <= d <= high
    ensures low <= Scores(a, b, c, d).Overall() <= high
    ensures Scores(a, b, c, d).Overall() == Scores(b, a, c, d).Overall() == Scores(b, c, d, a).Overall()
    ensures Scores(a + rise, b, c, d).Overall() == Scores(a, b, c, d).Overall() + rise / 4.0
  {
  }

  datatype Verdict = Accept | Retry | Escalate | Unrecognised(text: string)

  datatype Review = Review(scores: Scores, feedback: string, verdict: Verdict)

  /** The safety check of `ReviewerAgent.review`: a verdict that contradicts the scores is
      overridden. */
  function Checked(raw: Review): (r: Review)
    ensures r.scores == raw.scores && r.feedback == raw.feedback
    ensures r.verdict.Accept? <==> raw.scores.Overall() >= 0.75 && (raw.verdict.Accept? || raw.verdict.Escalate?)
    ensures r.verdict.Escalate? <==> raw.scores.Overall() < 0.75 && raw.verdict.Escalate?
    ensures r.verdict.Retry? <==> raw.verdict.Retry? || (raw.scores.Overall() < 0.75 && raw.verdict.Accept?)
    ensures r.verdict.Unrecognised? ==> r == raw
  {
    if raw.verdict.Accept? && raw.scores.Overall() < THRESHOLD then raw.(verdict := Verdict.Retry)
    else if raw.verdict.Escalate? && raw.scores.Overall() >= THRESHOLD then raw.(verdict := Verdict.Accept)
    else raw
  }
}
