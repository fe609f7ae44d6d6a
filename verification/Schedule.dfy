/** The scheduler against the validator: on a run where every review accepts first time, the
    batches are the layers of the Kahn loop that validated the plan. */
module Schedule {
  import opened Plans
  import opened Agents
  import opened Engine
  import opened Invariant
  import opened Steps
  import opened Runs

  /** Every branch finishes without asking a human, and every review accepts. */
  ghost predicate Smooth(e: Execution) {
    |e.runs| > 2 && e.runs[2].st.plan != [] && forall i :: 0 <= i < |e.runs| - 1 ==> SmoothAt(e, i)
  }

  ghost predicate SmoothAt(e: Execution, i: nat)
    requires i + 1 < |e.runs|
  {
    && (e.runs[i].node.ExecuteBatch? ==>
          forall id :: InBatch(e.runs[i].node.batch, id) ==> id in e.runs[i + 1].st.results.vals)
    && (e.runs[i].node.ReviewBatch? ==> AllAccepted(e.runs[i + 1].st))
  }

  ghost predicate AllAccepted(st: GraphState) {
    forall id :: id in st.results.vals ==> IsAccepted(st, id)
  }

  /** A run between two batches: the first `k` layers are accepted and nothing else happened. */
  ghost predicate AtRound(r: Run, plan: Plan, k: nat) {
    && r.node.Dispatch? && r.st.plan == plan && AllAccepted(r.st)
    && r.st.results.vals.Keys == Resolved(plan, k) && r.st.pending.vals == map[]
  }

  lemma LayerNonEmpty(plan: Plan, k: nat)
    requires ValidPlan(plan) && Resolved(plan, k) != Ids(plan)
    ensures Layer(plan, Resolved(plan, k)) != {}
  {
    ValidPlanKnowsDependencies(plan);
    var done := Resolved(plan, k);
    var stuck := GreatestExists(plan);
    StuckIffCyclic(plan, stuck);
    var left := Ids(plan) - done;
    if Layer(plan, done) == {} {
      forall i | i in left ensures exists d :: d in Deps(plan, i) && (d in left || d !in Ids(plan)) {
        assert i !in Layer(plan, done);
        var d :| d in Deps(plan, i) && d !in done;
      }
      assert SelfBlocked(plan, left);
    }
  }

  /** What is due between two batches is the next layer. */
  lemma DueIsLayer(cfg: Config, r: Run, plan: Plan, k: nat, id: string)
    requires Inv(cfg, r) && AtRound(r, plan, k)
    ensures IsDue(r.st, id) <==> id in Layer(plan, Resolved(plan, k))
  {
    assert DepsAccepted(r.st, id) <==> Deps(plan, id) <= Resolved(plan, k) by {
      forall d ensures IsAccepted(r.st, d) <==> d in Resolved(plan, k) {
        assert d in r.st.results.vals <==> d in r.st.results.vals.Keys;
      }
    }
    assert id in r.st.results.vals <==> id in Resolved(plan, k);
  }

  /** The scheduler's next move: exactly the next layer, or synthesis when none is left. */
  lemma SendsLayer(cfg: Config, r: Run, plan: Plan, k: nat)
    requires Inv(cfg, r) && AtRound(r, plan, k) && plan != []
    ensures if Resolved(plan, k) == Ids(plan) then RouteNext(r.st) == Synthesize
            else RouteNext(r.st) == ExecuteBatch(NextBatch(r.st))
                 && forall id :: InBatch(NextBatch(r.st), id) <==> id in Layer(plan, Resolved(plan, k))
  {
    var batch, layer := NextBatch(r.st), Layer(plan, Resolved(plan, k));
    BatchExact(cfg, r.st);
    forall id ensures InBatch(batch, id) <==> id in layer {
      DueIsLayer(cfg, r, plan, k, id);
    }
    if Resolved(plan, k) == Ids(plan) {
      if batch != [] {
        assert InBatch(batch, batch[0].task.id);
      }
    } else {
      LayerNonEmpty(plan, k);
      var id :| id in layer;
      assert InBatch(batch, id);
    }
  }

  /** A batch whose branches all finish adds exactly its subtasks and asks nothing. */
  lemma SmoothExecution(cfg: Config, st: GraphState, batch: seq<Payload>, turns: seq<seq<Turn>>)
    requires StateInv(cfg, st) && st.plan != [] && Settled(st) && AllAccepted(st)
    requires batch == NextBatch(st) && TurnsFor(batch, turns) && st.pending.vals == map[]
    requires var after := AfterExecute(st, Branches(cfg, batch, turns));
             forall id :: InBatch(batch, id) ==> id in after.results.vals
    ensures var after := AfterExecute(st, Branches(cfg, batch, turns));
            && after.pending.vals == map[]
            && forall id :: id in after.results.vals <==> id in st.results.vals || InBatch(batch, id)
  {
    BatchExact(cfg, st);
    BranchesCompatible(cfg, batch, turns);
    var branches := Branches(cfg, batch, turns);
    var after := AfterExecute(st, branches);
    forall i | 0 <= i < |batch| ensures branches[i].Finished? {
      var id := batch[i].task.id;
      assert InBatch(batch, id) && IsDue(st, id);
      ResultAt(st, branches, id);
      var w :| Writes(branches, w, id);
      BranchFacts(cfg, batch[w], turns[w]);
      assert w == i;
    }
    forall s ensures s !in after.pending.vals {
      PendingAt(st, branches, s);
    }
    forall id ensures id in after.results.vals <==> id in st.results.vals || InBatch(batch, id) {
      ResultAt(st, branches, id);
      if i :| Writes(branches, i, id) {
        BranchFacts(cfg, batch[i], turns[i]);
      }
    }
  }

  lemma ReviewKeepsKeys(st: GraphState, reviews: map<string, Review>)
    requires ReviewsFor(st, reviews)
    ensures forall id :: id in st.results.vals <==> id in AfterReview(st, reviews).results.vals
    ensures AfterReview(st, reviews).pending == st.pending && AfterReview(st, reviews).plan == st.plan
  {
  }

  lemma RouteWhenAllAccepted(cfg: Config, st: GraphState)
    requires AllAccepted(st) && st.pending.vals == map[]
    ensures RouteAfterReview(cfg, st) == Dispatch
  {
  }

  lemma StepAt(cfg: Config, e: Execution, i: nat)
    requires IsExecution(cfg, e) && i < |e.inputs|
    ensures Inv(cfg, e.runs[i]) && IsStep(cfg, e, i)
  {
    Reachable(cfg, e, i);
    assert IsStep(cfg, e, i);
  }

  /** After the batch of round `k` has run and before it is reviewed. */
  ghost predicate RanLayer(r: Run, plan: Plan, k: nat) {
    && r.node.ReviewBatch? && r.st.plan == plan && r.st.pending.vals == map[]
    && r.st.results.vals.Keys == Resolved(plan, k + 1)
  }

  lemma RoundExecutes(cfg: Config, e: Execution, plan: Plan, k: nat, i: nat)
    requires IsExecution(cfg, e) && Smooth(e) && plan != [] && Unfinished(plan, k)
    requires i + 2 < |e.runs| && AtRound(e.runs[i], plan, k)
    ensures RanLayer(e.runs[i + 2], plan, k)
  {
    StepAt(cfg, e, i);
    SendsLayer(cfg, e.runs[i], plan, k);
    var st, batch := e.runs[i].st, NextBatch(e.runs[i].st);
    assert e.runs[i + 1] == Run(ExecuteBatch(batch), st);
    StepAt(cfg, e, i + 1);
    assert SmoothAt(e, i + 1);
    var after := AfterExecute(st, Branches(cfg, batch, e.inputs[i + 1].turns));
    assert e.runs[i + 2] == Run(ReviewBatch, after);
    SmoothExecution(cfg, st, batch, e.inputs[i + 1].turns);
    forall id ensures id in after.results.vals.Keys <==> id in Resolved(plan, k + 1) {
      assert id in st.results.vals <==> id in st.results.vals.Keys;
      assert id in after.results.vals <==> id in st.results.vals || InBatch(batch, id);
    }
  }

  lemma RoundReviews(cfg: Config, e: Execution, plan: Plan, k: nat, i: nat)
    requires IsExecution(cfg, e) && Smooth(e) && i + 1 < |e.runs| && RanLayer(e.runs[i], plan, k)
    ensures AtRound(e.runs[i + 1], plan, k + 1)
  {
    StepAt(cfg, e, i);
    assert SmoothAt(e, i);
    var st, after := e.runs[i].st, AfterReview(e.runs[i].st, e.inputs[i].reviews);
    assert e.runs[i + 1] == Run(RouteAfterReview(cfg, after), after);
    ReviewKeepsKeys(st, e.inputs[i].reviews);
    RouteWhenAllAccepted(cfg, after);
    assert after.results.vals.Keys == st.results.vals.Keys;
  }

  /** Dispatch, execute, review: one smooth round resolves one more layer. */
  lemma RoundAdvances(cfg: Config, e: Execution, plan: Plan, k: nat, i: nat)
    requires IsExecution(cfg, e) && Smooth(e) && plan != [] && Unfinished(plan, k)
    requires i + 3 < |e.runs| && AtRound(e.runs[i], plan, k)
    ensures AtRound(e.runs[i + 3], plan, k + 1)
  {
    RoundExecutes(cfg, e, plan, k, i);
    RoundReviews(cfg, e, plan, k, i + 2);
  }

  lemma FirstDispatch(cfg: Config, e: Execution)
    requires IsExecution(cfg, e) && Smooth(e)
    ensures AtRound(e.runs[2], e.runs[2].st.plan, 0) && ValidPlan(e.runs[2].st.plan)
  {
    StepAt(cfg, e, 0);
    StepAt(cfg, e, 1);
    Reachable(cfg, e, 2);
    assert Untouched(e.runs[2].st);
  }

  /** The first `k` layers are not yet everything. */
  ghost predicate Unfinished(plan: Plan, k: nat) {
    Resolved(plan, k) != Ids(plan)
  }

  lemma UnfinishedBefore(plan: Plan, j: nat, k: nat)
    requires Unfinished(plan, k) && j <= k
    ensures Unfinished(plan, j)
  {
    ResolvedGrows(plan, j, k);
  }

  /** No round before round `k` was the last. */
  ghost predicate GoesThrough(plan: Plan, k: nat) {
    k > 0 ==> Unfinished(plan, k - 1)
  }

  lemma GoesThroughBefore(plan: Plan, k: nat)
    requires GoesThrough(plan, k) && k > 0
    ensures GoesThrough(plan, k - 1)
  {
    if k > 1 {
      UnfinishedBefore(plan, k - 2, k - 1);
    }
  }

  lemma {:induction false} AtEveryRound(cfg: Config, e: Execution, plan: Plan, k: nat, i: nat)
    requires IsExecution(cfg, e) && Smooth(e) && plan == e.runs[2].st.plan && i == 2 + 3 * k < |e.runs|
    requires GoesThrough(plan, k)
    ensures AtRound(e.runs[i], plan, k)
    decreases k
  {
    if k == 0 {
      FirstDispatch(cfg, e);
    } else {
      GoesThroughBefore(plan, k);
      AtEveryRound(cfg, e, plan, k - 1, i - 3);
      RoundAdvances(cfg, e, plan, k - 1, i - 3);
    }
  }

  /** The loop of `_cycles` needs exactly `layers` rounds. */
  ghost predicate IsLayerCount(plan: Plan, layers: nat) {
    Resolved(plan, layers) == Ids(plan) && (layers > 0 ==> Resolved(plan, layers - 1) != Ids(plan))
  }

  lemma {:induction false} LayersWithin(plan: Plan, n: nat) returns (layers: nat)
    requires Resolved(plan, n) == Ids(plan)
    ensures layers <= n && IsLayerCount(plan, layers)
  {
    if n > 0 && Resolved(plan, n - 1) == Ids(plan) {
      layers := LayersWithin(plan, n - 1);
    } else {
      layers := n;
    }
  }

  lemma SomeLayerCount(plan: Plan) returns (layers: nat)
    requires ValidPlan(plan)
    ensures IsLayerCount(plan, layers)
  {
    ValidPlanKnowsDependencies(plan);
    AcyclicResolves(plan);
    layers := LayersWithin(plan, |plan|);
  }

  lemma ChainOfLayers(plan: Plan, layers: nat) returns (c: seq<string>)
    requires plan != [] && KnownDependencies(plan) && IsLayerCount(plan, layers)
    ensures IsChain(plan, c) && |c| == layers
  {
    assert plan[0].id in Ids(plan);
    var id := Missing(Resolved(plan, layers - 1), Ids(plan));
    c := UnresolvedHasChain(plan, layers - 1, id);
  }

  lemma Missing(a: set<string>, b: set<string>) returns (x: string)
    requires a <= b && a != b
    ensures x in b && x !in a
  {
    x :| x in b && x !in a;
  }

  /** The number of layers of a valid plan is the length of its longest dependency chain. */
  lemma LayersAreLongestChain(plan: Plan, layers: nat)
    requires ValidPlan(plan) && IsLayerCount(plan, layers)
    ensures exists c :: IsChain(plan, c) && |c| == layers
    ensures forall c :: IsChain(plan, c) ==> |c| <= layers
  {
    ValidPlanKnowsDependencies(plan);
    var longest := ChainOfLayers(plan, layers);
    forall c | IsChain(plan, c) ensures |c| <= layers {
      ResolvedBoundsChains(plan, layers, c);
    }
  }

  ghost predicate RunsLayer(r: Run, plan: Plan, k: nat) {
    r.node.ExecuteBatch? && forall id :: InBatch(r.node.batch, id) <==> id in Layer(plan, Resolved(plan, k))
  }

  lemma RoundDispatches(cfg: Config, e: Execution, plan: Plan, k: nat, i: nat)
    requires IsExecution(cfg, e) && i + 1 < |e.runs| && AtRound(e.runs[i], plan, k) && plan != []
    ensures if Resolved(plan, k) == Ids(plan) then e.runs[i + 1].node.Synthesize? else RunsLayer(e.runs[i + 1], plan, k)
  {
    StepAt(cfg, e, i);
    SendsLayer(cfg, e.runs[i], plan, k);
    assert e.runs[i + 1] == Run(RouteNext(e.runs[i].st), e.runs[i].st);
  }

  lemma BatchIsLayer(cfg: Config, e: Execution, plan: Plan, k: nat)
    requires IsExecution(cfg, e) && Smooth(e) && plan == e.runs[2].st.plan && 3 + 3 * k < |e.runs|
    requires GoesThrough(plan, k)
    ensures if Resolved(plan, k) == Ids(plan) then e.runs[3 + 3 * k].node.Synthesize?
            else RunsLayer(e.runs[3 + 3 * k], plan, k)
  {
    var i := 2 + 3 * k;
    AtEveryRound(cfg, e, plan, k, i);
    RoundDispatches(cfg, e, plan, k, i);
  }

  lemma GoesThroughWithin(plan: Plan, k: nat, layers: nat)
    requires IsLayerCount(plan, layers) && k <= layers
    ensures GoesThrough(plan, k)
  {
    if k > 0 {
      UnfinishedBefore(plan, k - 1, layers - 1);
    }
  }

  lemma LayerInOrder(cfg: Config, e: Execution, plan: Plan, layers: nat, k: nat)
    requires IsExecution(cfg, e) && Smooth(e) && plan == e.runs[2].st.plan && IsLayerCount(plan, layers)
    requires k < layers && 3 + 3 * k < |e.runs|
    ensures RunsLayer(e.runs[3 + 3 * k], plan, k)
  {
    UnfinishedBefore(plan, k, layers - 1);
    GoesThroughWithin(plan, k, layers);
    BatchIsLayer(cfg, e, plan, k);
  }

  lemma SynthesisAfterLayers(cfg: Config, e: Execution, plan: Plan, layers: nat)
    requires IsExecution(cfg, e) && Smooth(e) && plan == e.runs[2].st.plan && IsLayerCount(plan, layers)
    requires 3 + 3 * layers < |e.runs|
    ensures e.runs[3 + 3 * layers].node.Synthesize?
  {
    BatchIsLayer(cfg, e, plan, layers);
  }

  /** On a smooth run the k-th batch is the k-th Kahn layer of the plan, and the run goes to
      synthesis after as many batches as the longest dependency chain has subtasks. */
  lemma BatchesAreLayers(cfg: Config, e: Execution) returns (layers: nat)
    requires IsExecution(cfg, e) && Smooth(e)
    ensures var plan := e.runs[2].st.plan;
            && (exists c :: IsChain(plan, c) && |c| == layers) && (forall c :: IsChain(plan, c) ==> |c| <= layers)
            && (forall k :: 0 <= k < layers && 3 + 3 * k < |e.runs| ==> RunsLayer(e.runs[3 + 3 * k], plan, k))
            && (3 + 3 * layers < |e.runs| ==> e.runs[3 + 3 * layers].node.Synthesize?)
  {
    var plan := e.runs[2].st.plan;
    FirstDispatch(cfg, e);
    layers := SomeLayerCount(plan);
    LayersAreLongestChain(plan, layers);
    forall k | 0 <= k < layers && 3 + 3 * k < |e.runs| ensures RunsLayer(e.runs[3 + 3 * k], plan, k) {
      LayerInOrder(cfg, e, plan, layers, k);
    }
    if 3 + 3 * layers < |e.runs| {
      SynthesisAfterLayers(cfg, e, plan, layers);
    }
  }
}
