/** Plan validation (graph/validate.py): the layered Kahn loop of `_cycles` and the rules
    of `validate_plan`. A field that is missing from a raw plan entry is an empty string. */
module Plans {
  datatype Subtask = Subtask(id: string, description: string, specialist: string, dependencies: seq<string>)

  type Plan = seq<Subtask>

  const SPECIALISTS: set<string> := {"researcher", "data_analyst", "writer", "code_executor"}
  const MAX_SUBTASKS := 12

  function Ids(plan: Plan): set<string> {
    set t | t in plan :: t.id
  }

  /** The dependency table of `_cycles`: a later entry with the same id replaces an earlier one. */
  function DependencyTable(plan: Plan): map<string, set<string>> {
    if plan == [] then map[]
    else
      var last := plan[|plan| - 1];
      DependencyTable(plan[..|plan| - 1])[last.id := set d | d in last.dependencies]
  }

  function Deps(plan: Plan, id: string): set<string> {
    var table := DependencyTable(plan);
    if id in table then table[id] else {}
  }

  ghost predicate UniqueIds(plan: Plan) {
    forall i, j :: 0 <= i < j < |plan| ==> plan[i].id != plan[j].id
  }

  lemma {:induction false} DepsOfTask(plan: Plan, i: nat)
    requires UniqueIds(plan) && i < |plan|
    ensures Deps(plan, plan[i].id) == set d | d in plan[i].dependencies
  {
    var n := |plan| - 1;
    if i < n {
      assert plan[..n][i] == plan[i];
      DepsOfTask(plan[..n], i);
    }
  }

  // ------------------------------------------------------------ the Kahn layers

  /** What `resolved` holds after `k` rounds of the loop in `_cycles`. */
  function Resolved(plan: Plan, k: nat): (r: set<string>)
    ensures r <= Ids(plan)
  {
    if k == 0 then {} else Resolved(plan, k - 1) + Layer(plan, Resolved(plan, k - 1))
  }

  /** One round: the unresolved ids whose dependencies are all resolved. */
  function Layer(plan: Plan, resolved: set<string>): set<string> {
    set i | i in Ids(plan) - resolved && Deps(plan, i) <= resolved
  }

  /** Each member waits for a member, or for a subtask that does not exist. */
  ghost predicate SelfBlocked(plan: Plan, s: set<string>) {
    && s <= Ids(plan)
    && forall i :: i in s ==> exists d :: d in Deps(plan, i) && (d in s || d !in Ids(plan))
  }

  ghost predicate GreatestSelfBlocked(plan: Plan, s: set<string>) {
    SelfBlocked(plan, s) && forall o :: SelfBlocked(plan, o) ==> o <= s
  }

  /** `_cycles`: the ids it reports are the greatest self-blocked set. */
  method Cycles(tasks: Plan) returns (stuck: set<string>)
    ensures GreatestSelfBlocked(tasks, stuck)
  {
    var resolved, remaining := {}, Ids(tasks);
    while remaining != {}
      invariant resolved !! remaining && resolved + remaining == Ids(tasks)
      invariant forall o :: SelfBlocked(tasks, o) ==> o !! resolved
      decreases remaining
    {
      var ready := set i | i in remaining && Deps(tasks, i) <= resolved;
      if ready == {} {
        forall i | i in remaining
          ensures exists d :: d in Deps(tasks, i) && (d in remaining || d !in Ids(tasks))
        {
          assert i !in ready;
          var d :| d in Deps(tasks, i) && d !in resolved;
        }
        return remaining;
      }
      forall o | SelfBlocked(tasks, o) ensures o !! resolved + ready {
        forall i | i in o && i in ready ensures false {
          var d :| d in Deps(tasks, i) && (d in o || d !in Ids(tasks));
        }
      }
      resolved, remaining := resolved + ready, remaining - ready;
    }
    return {};
  }

  /** The greatest self-blocked set exists: what |plan| rounds leave unresolved. */
  lemma GreatestExists(plan: Plan) returns (stuck: set<string>)
    ensures GreatestSelfBlocked(plan, stuck)
  {
    var k := 0;
    while Layer(plan, Resolved(plan, k)) != {}
      invariant forall o :: SelfBlocked(plan, o) ==> o !! Resolved(plan, k)
      decreases Ids(plan) - Resolved(plan, k)
    {
      var before, layer := Resolved(plan, k), Layer(plan, Resolved(plan, k));
      assert layer <= Ids(plan) - before;
      forall o | SelfBlocked(plan, o) ensures o !! before + layer {
        forall i | i in o && i in layer ensures false {
          var d :| d in Deps(plan, i) && (d in o || d !in Ids(plan));
        }
      }
      k := k + 1;
    }
    stuck := Ids(plan) - Resolved(plan, k);
    forall i | i in stuck ensures exists d :: d in Deps(plan, i) && (d in stuck || d !in Ids(plan)) {
      assert i !in Layer(plan, Resolved(plan, k));
      var d :| d in Deps(plan, i) && d !in Resolved(plan, k);
    }
  }

  // ------------------------------------------------------------ cycles as walks

  /** A dependency chain: each element is a dependency of the next. */
  ghost predicate IsChain(plan: Plan, c: seq<string>) {
    && c != []
    && (forall i :: 0 <= i < |c| ==> c[i] in Ids(plan))
    && (forall i :: 0 < i < |c| ==> c[i - 1] in Deps(plan, c[i]))
  }

  ghost predicate IsCycle(plan: Plan, c: seq<string>) {
    IsChain(plan, c) && |c| >= 2 && c[0] == c[|c| - 1]
  }

  ghost predicate Acyclic(plan: Plan) {
    forall c :: !IsCycle(plan, c)
  }

  ghost predicate KnownDependencies(plan: Plan) {
    forall i :: i in Ids(plan) ==> Deps(plan, i) <= Ids(plan)
  }

  lemma CycleIsStuck(plan: Plan, c: seq<string>, stuck: set<string>)
    requires IsCycle(plan, c) && GreatestSelfBlocked(plan, stuck)
    ensures c[0] in stuck
  {
    var s := set x | x in c;
    forall x | x in c ensures exists d :: d in Deps(plan, x) && d in c {
      var i :| 0 <= i < |c| && c[i] == x;
      var j := if i == 0 then |c| - 1 else i;
      assert c[j] == x && c[j - 1] in Deps(plan, c[j]) && c[j - 1] in c;
    }
    assert SelfBlocked(plan, s);
    assert c[0] in s;
  }

  /** A self-blocked set carries chains of any length. */
  lemma {:induction false} ChainWithin(plan: Plan, s: set<string>, n: nat) returns (c: seq<string>)
    requires KnownDependencies(plan) && SelfBlocked(plan, s) && s != {}
    ensures IsChain(plan, c) && |c| == n + 1 && forall i :: 0 <= i < |c| ==> c[i] in s
  {
    if n == 0 {
      var x :| x in s;
      c := [x];
    } else {
      var rest := ChainWithin(plan, s, n - 1);
      var d :| d in Deps(plan, rest[0]) && (d in s || d !in Ids(plan));
      c := [d] + rest;
      forall i | 0 < i < |c| ensures c[i - 1] in Deps(plan, c[i]) {
        assert c[i] == rest[i - 1] && (i > 1 ==> c[i - 1] == rest[i - 2]);
      }
    }
  }

  /** Pigeonhole: a sequence longer than the set it draws from repeats an element. */
  lemma {:induction false} Repetition(c: seq<string>, s: set<string>) returns (i: nat, j: nat)
    requires |c| > |s| && forall k :: 0 <= k < |c| ==> c[k] in s
    ensures i < j < |c| && c[i] == c[j]
  {
    var n := |c| - 1;
    if k :| 0 <= k < n && c[k] == c[n] {
      i, j := k, n;
    } else {
      assert |s - {c[n]}| == |s| - 1;
      i, j := Repetition(c[..n], s - {c[n]});
    }
  }

  lemma SubwalkIsCycle(plan: Plan, c: seq<string>, i: nat, j: nat)
    requires IsChain(plan, c) && i < j < |c| && c[i] == c[j]
    ensures IsCycle(plan, c[i..j + 1])
  {
    var cyc := c[i..j + 1];
    forall k | 0 < k < |cyc| ensures cyc[k - 1] in Deps(plan, cyc[k]) {
      assert cyc[k] == c[i + k] && cyc[k - 1] == c[i + k - 1];
    }
  }

  /** The validator's notion of a cycle is the usual one: some subtasks are stuck exactly
      when a dependency walk returns to its start. */
  lemma StuckIffCyclic(plan: Plan, stuck: set<string>)
    requires KnownDependencies(plan) && GreatestSelfBlocked(plan, stuck)
    ensures stuck == {} <==> Acyclic(plan)
  {
    if stuck != {} {
      var c := ChainWithin(plan, stuck, |stuck|);
      var i, j := Repetition(c, stuck);
      SubwalkIsCycle(plan, c, i, j);
    }
    forall c | IsCycle(plan, c) ensures stuck != {} {
      CycleIsStuck(plan, c, stuck);
    }
  }

  // ------------------------------------------------------------ layers and chains

  lemma {:induction false} ResolvedGrows(plan: Plan, j: nat, k: nat)
    requires j <= k
    ensures Resolved(plan, j) <= Resolved(plan, k)
  {
    if j < k { ResolvedGrows(plan, j, k - 1); }
  }

  lemma {:induction false} ResolvedBoundsChains(plan: Plan, k: nat, c: seq<string>)
    requires IsChain(plan, c) && c[|c| - 1] in Resolved(plan, k)
    ensures |c| <= k
  {
    var n := |c| - 1;
    if k == 0 || c[n] in Resolved(plan, k - 1) {
      if k > 0 { ResolvedBoundsChains(plan, k - 1, c); }
    } else if n > 0 {
      assert c[n - 1] in Deps(plan, c[n]);
      assert IsChain(plan, c[..n]);
      ResolvedBoundsChains(plan, k - 1, c[..n]);
    }
  }

  lemma ChainExtends(plan: Plan, c: seq<string>, id: string)
    requires IsChain(plan, c) && id in Ids(plan) && c[|c| - 1] in Deps(plan, id)
    ensures IsChain(plan, c + [id])
  {
    var e := c + [id];
    forall i | 0 < i < |e| ensures e[i - 1] in Deps(plan, e[i]) {
      assert i < |c| ==> e[i] == c[i] && e[i - 1] == c[i - 1];
    }
  }

  lemma UnresolvedDependency(plan: Plan, k: nat, id: string) returns (d: string)
    requires k > 0 && KnownDependencies(plan) && id in Ids(plan) && id !in Resolved(plan, k)
    ensures d in Deps(plan, id) && d in Ids(plan) && d !in Resolved(plan, k - 1)
  {
    var before := Resolved(plan, k - 1);
    assert Deps(plan, id) <= Ids(plan);
    assert id !in Layer(plan, before);
    d :| d in Deps(plan, id) && d !in before;
  }

  lemma {:induction false} UnresolvedHasChain(plan: Plan, k: nat, id: string) returns (c: seq<string>)
    requires KnownDependencies(plan) && id in Ids(plan) && id !in Resolved(plan, k)
    ensures IsChain(plan, c) && c[|c| - 1] == id && |c| == k + 1
  {
    if k == 0 {
      c := [id];
    } else {
      var d := UnresolvedDependency(plan, k, id);
      var rest := UnresolvedHasChain(plan, k - 1, d);
      ChainExtends(plan, rest, id);
      c := rest + [id];
    }
  }

  /** A subtask is resolved within k rounds exactly when no dependency chain longer than k
      ends in it: its layer is the length of its longest chain. */
  lemma ResolvedIffShortChains(plan: Plan, k: nat, id: string)
    requires KnownDependencies(plan) && id in Ids(plan)
    ensures id in Resolved(plan, k) <==> forall c :: IsChain(plan, c) && c[|c| - 1] == id ==> |c| <= k
  {
    if id in Resolved(plan, k) {
      forall c | IsChain(plan, c) && c[|c| - 1] == id ensures |c| <= k {
        ResolvedBoundsChains(plan, k, c);
      }
    } else {
      var c := UnresolvedHasChain(plan, k, id);
    }
  }

  /** On an acyclic plan |plan| rounds resolve everything. */
  lemma AcyclicResolves(plan: Plan)
    requires KnownDependencies(plan) && Acyclic(plan)
    ensures Resolved(plan, |plan|) == Ids(plan)
  {
    var done, ids := Resolved(plan, |plan|), Ids(plan);
    if id :| id in ids && id !in done {
      var c := UnresolvedHasChain(plan, |plan|, id);
      IdsBound(plan);
      var i, j := Repetition(c, ids);
      SubwalkIsCycle(plan, c, i, j);
    }
  }

  lemma {:induction false} IdsBound(plan: Plan)
    ensures |Ids(plan)| <= |plan|
  {
    if plan != [] {
      var n := |plan| - 1;
      IdsBound(plan[..n]);
      assert plan == plan[..n] + [plan[n]];
      assert Ids(plan) == Ids(plan[..n]) + {plan[n].id};
    }
  }

  // ------------------------------------------------------------ validate_plan

  /** The whitespace that `str.strip` removes. */
  predicate IsSpace(c: char) {
    || '\U{0009}' <= c <= '\U{000d}' || '\U{001c}' <= c <= '\U{0020}' || c == '\U{0085}' || c == '\U{00a0}'
    || c == '\U{1680}' || '\U{2000}' <= c <= '\U{200a}' || c == '\U{2028}' || c == '\U{2029}'
    || c == '\U{202f}' || c == '\U{205f}' || c == '\U{3000}'
  }

  predicate IsBlank(s: string) {
    forall i :: 0 <= i < |s| ==> IsSpace(s[i])
  }

  datatype PlanError =
    | NoSubtasks
    | TooMany(count: nat)
    | MissingId
    | DuplicateIds
    | NoDescription(id: string)
    | UnknownSpecialist(id: string, specialist: string)
    | SelfDependency(id: string)
    | UnknownDependency(id: string, dependency: string)
    | DependencyCycle(stuck: set<string>)

  /** The rules a plan must satisfy, one error per broken rule; acyclicity is only judged
      when nothing else is wrong. */
  ghost predicate BreaksSimpleRule(plan: Plan, e: PlanError) {
    match e
    case NoSubtasks => plan == []
    case TooMany(n) => n == |plan| > MAX_SUBTASKS
    case MissingId => "" in Ids(plan)
    case DuplicateIds => !UniqueIds(plan)
    case DependencyCycle(_) => false
    case _ => exists t :: t in plan && TaskBreaks(plan, t, e)
  }

  ghost predicate TaskBreaks(plan: Plan, t: Subtask, e: PlanError) {
    match e
    case NoDescription(id) => id == t.id && IsBlank(t.description)
    case UnknownSpecialist(id, s) => id == t.id && s == t.specialist && s !in SPECIALISTS
    case SelfDependency(id) => id == t.id && id in t.dependencies
    case UnknownDependency(id, d) => id == t.id && d in t.dependencies && d != id && d !in Ids(plan)
    case _ => false
  }

  ghost predicate Breaks(plan: Plan, e: PlanError) {
    || BreaksSimpleRule(plan, e)
    || (e.DependencyCycle? && e.stuck != {} && GreatestSelfBlocked(plan, e.stuck)
        && forall o :: !BreaksSimpleRule(plan, o))
  }

  /** What a plan must be, without reference to the validator. */
  ghost predicate ValidPlan(plan: Plan) {
    && 1 <= |plan| <= 12
    && UniqueIds(plan)
    && (forall t :: t in plan ==>
          && t.id != "" && !IsBlank(t.description)
          && t.specialist in {"researcher", "data_analyst", "writer", "code_executor"}
          && t.id !in t.dependencies
          && forall d :: d in t.dependencies ==> d in Ids(plan))
    && Acyclic(plan)
  }

  lemma UniqueFront(plan: Plan)
    requires plan != []
    ensures var front, last := plan[..|plan| - 1], plan[|plan| - 1];
            UniqueIds(plan) <==> UniqueIds(front) && last.id !in Ids(front)
  {
    var n := |plan| - 1;
    var front := plan[..n];
    if UniqueIds(front) && plan[n].id !in Ids(front) {
      forall i, j | 0 <= i < j < |plan| ensures plan[i].id != plan[j].id {
        assert plan[i] == front[i] && front[i] in front && front[i].id in Ids(front);
        assert j < n ==> plan[j] == front[j];
      }
    }
    if UniqueIds(plan) {
      forall t | t in front ensures t.id != plan[n].id {
        var i :| 0 <= i < n && front[i] == t;
        assert plan[i] == t;
      }
      forall i, j | 0 <= i < j < n ensures front[i].id != front[j].id {
        assert plan[i].id != plan[j].id;
      }
    }
  }

  lemma {:induction false} DistinctIdsBySet(plan: Plan)
    ensures |Ids(plan)| == |plan| <==> UniqueIds(plan)
  {
    if plan != [] {
      var n := |plan| - 1;
      DistinctIdsBySet(plan[..n]);
      IdsBound(plan[..n]);
      UniqueFront(plan);
      assert plan == plan[..n] + [plan[n]];
      assert Ids(plan) == Ids(plan[..n]) + {plan[n].id};
    }
  }

  /** `validate_plan` reports exactly the broken rules. */
  method ValidatePlan(tasks: Plan) returns (errors: seq<PlanError>)
    ensures forall e :: e in errors <==> Breaks(tasks, e)
  {
    errors := [];
    if tasks == [] {
      errors := [NoSubtasks];
      assert BreaksSimpleRule(tasks, NoSubtasks);
      forall e ensures e in errors <==> Breaks(tasks, e) {
        assert e.DependencyCycle? || e == NoSubtasks || !BreaksSimpleRule(tasks, e);
      }
      return;
    }
    if |tasks| > MAX_SUBTASKS {
      errors := errors + [TooMany(|tasks|)];
    }
    var known := Ids(tasks);
    if "" in known {
      errors := errors + [MissingId];
    }
    DistinctIdsBySet(tasks);
    if |known| != |tasks| {
      errors := errors + [DuplicateIds];
    }
    var n := 0;
    while n < |tasks|
      invariant 0 <= n <= |tasks|
      invariant CollectedUpTo(tasks, n, errors)
    {
      var more := TaskErrors(tasks, tasks[n], known);
      CollectedNext(tasks, n, errors, more);
      errors := errors + more;
      n := n + 1;
    }
    SimpleErrorsComplete(tasks, errors);
    ghost var simple := errors;
    if errors == [] {
      var stuck := Cycles(tasks);
      if stuck != {} {
        errors := errors + [DependencyCycle(stuck)];
      }
      forall e ensures e in errors <==> Breaks(tasks, e) {
        assert e !in simple && !BreaksSimpleRule(tasks, e);
        if e.DependencyCycle? && GreatestSelfBlocked(tasks, e.stuck) {
          assert e.stuck == stuck;
        }
      }
    } else {
      assert errors[0] in errors;
    }
  }

  /** What the loop of `validate_plan` collects before it looks for cycles. */
  ghost predicate CollectedUpTo(tasks: Plan, n: nat, errors: seq<PlanError>)
    requires n <= |tasks|
  {
    forall e :: e in errors <==>
      match e
      case NoSubtasks => false
      case TooMany(_) => BreaksSimpleRule(tasks, e)
      case MissingId => BreaksSimpleRule(tasks, e)
      case DuplicateIds => BreaksSimpleRule(tasks, e)
      case DependencyCycle(_) => false
      case _ => exists i :: 0 <= i < n && TaskBreaks(tasks, tasks[i], e)
  }

  lemma SimpleErrorsComplete(tasks: Plan, errors: seq<PlanError>)
    requires tasks != [] && CollectedUpTo(tasks, |tasks|, errors)
    ensures forall e :: e in errors <==> BreaksSimpleRule(tasks, e)
  {
    forall e ensures e in errors <==> BreaksSimpleRule(tasks, e) {
      assert (exists t :: t in tasks && TaskBreaks(tasks, t, e))
        <==> exists i :: 0 <= i < |tasks| && TaskBreaks(tasks, tasks[i], e);
    }
  }

  lemma CollectedNext(tasks: Plan, n: nat, errors: seq<PlanError>, more: seq<PlanError>)
    requires n < |tasks| && CollectedUpTo(tasks, n, errors)
    requires forall e :: e in more <==> TaskBreaks(tasks, tasks[n], e)
    ensures CollectedUpTo(tasks, n + 1, errors + more)
  {
    forall e ensures (exists i :: 0 <= i < n + 1 && TaskBreaks(tasks, tasks[i], e))
                     <==> e in more || exists i :: 0 <= i < n && TaskBreaks(tasks, tasks[i], e) {
    }
  }

  /** The body of the per-subtask loop in `validate_plan`. */
  method TaskErrors(ghost tasks: Plan, task: Subtask, known: set<string>) returns (errors: seq<PlanError>)
    requires known == Ids(tasks)
    ensures forall e :: e in errors <==> TaskBreaks(tasks, task, e)
  {
    errors := [];
    if IsBlank(task.description) {
      errors := errors + [NoDescription(task.id)];
    }
    if task.specialist !in SPECIALISTS {
      errors := errors + [UnknownSpecialist(task.id, task.specialist)];
    }
    var k := 0;
    while k < |task.dependencies|
      invariant 0 <= k <= |task.dependencies|
      invariant forall e :: e in errors <==>
        match e
        case SelfDependency(id) => id == task.id && id in task.dependencies[..k]
        case UnknownDependency(id, d) => id == task.id && d in task.dependencies[..k] && d != id && d !in known
        case _ => TaskBreaks(tasks, task, e)
    {
      var d := task.dependencies[k];
      assert task.dependencies[..k + 1] == task.dependencies[..k] + [d];
      if d == task.id {
        errors := errors + [SelfDependency(task.id)];
      } else if d !in known {
        errors := errors + [UnknownDependency(task.id, d)];
      }
      k := k + 1;
    }
    assert task.dependencies[..k] == task.dependencies;
  }

  lemma ValidPlanKnowsDependencies(plan: Plan)
    requires UniqueIds(plan) && forall t :: t in plan ==> forall d :: d in t.dependencies ==> d in Ids(plan)
    ensures KnownDependencies(plan)
  {
    forall id | id in Ids(plan) ensures Deps(plan, id) <= Ids(plan) {
      var i :| 0 <= i < |plan| && plan[i].id == id;
      DepsOfTask(plan, i);
    }
  }

  /** No rule is broken exactly when the plan is valid: an empty error list is what lets a
      plan through. */
  lemma NoErrorsIffValid(plan: Plan)
    ensures (forall e :: !Breaks(plan, e)) <==> ValidPlan(plan)
  {
    if ValidPlan(plan) {
      ValidPlanKnowsDependencies(plan);
      forall s | GreatestSelfBlocked(plan, s) ensures s == {} {
        StuckIffCyclic(plan, s);
      }
    }
    if forall e :: !Breaks(plan, e) {
      assert !Breaks(plan, NoSubtasks) && !Breaks(plan, TooMany(|plan|));
      assert !Breaks(plan, MissingId) && !Breaks(plan, DuplicateIds);
      forall t | t in plan
        ensures t.id != "" && !IsBlank(t.description) && t.specialist in SPECIALISTS
        ensures t.id !in t.dependencies && forall d :: d in t.dependencies ==> d in Ids(plan)
      {
        assert !Breaks(plan, NoDescription(t.id)) && !Breaks(plan, UnknownSpecialist(t.id, t.specialist));
        assert !Breaks(plan, SelfDependency(t.id));
        assert forall d :: !Breaks(plan, UnknownDependency(t.id, d));
        assert TaskBreaks(plan, t, NoDescription(t.id)) <==> IsBlank(t.description);
        assert TaskBreaks(plan, t, UnknownSpecialist(t.id, t.specialist)) <==> t.specialist !in SPECIALISTS;
        assert TaskBreaks(plan, t, SelfDependency(t.id)) <==> t.id in t.dependencies;
        forall d | d in t.dependencies ensures d in Ids(plan) {
          assert TaskBreaks(plan, t, UnknownDependency(t.id, d)) <==> (d != t.id && d !in Ids(plan));
        }
      }
      ValidPlanKnowsDependencies(plan);
      var stuck := GreatestExists(plan);
      assert !Breaks(plan, DependencyCycle(stuck));
      StuckIffCyclic(plan, stuck);
    }
  }
}
