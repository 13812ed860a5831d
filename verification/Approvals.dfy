/** How much work a decision is holding up (`approvals.downstream_count`), and that the number means
    what the operator is told: nothing it counts can start before the decision is taken. */
module Approvals {
  import opened Outcomes
  import opened Workflows
  import opened RunModel
  import opened RunInvariants

  /** `b` depends directly on `a`. */
  predicate DependsOn(steps: Steps, b: StepId, a: StepId) {
    b in steps && a in steps[b].dependsOn
  }

  /** A chain of `n` dependencies leads from `a` down to `b`. */
  ghost predicate Chain(steps: Steps, a: StepId, b: StepId, n: nat)
    decreases n
  {
    n > 0 && if n == 1 then DependsOn(steps, b, a)
             else exists c :: Chain(steps, a, c, n - 1) && DependsOn(steps, b, c)
  }

  ghost predicate IsDownstream(steps: Steps, a: StepId, b: StepId) {
    exists n: nat :: Chain(steps, a, b, n)
  }

  ghost function Downstream(steps: Steps, id: StepId): set<StepId> {
    set b | b in steps && IsDownstream(steps, id, b)
  }

  lemma OneStepFurther(steps: Steps, a: StepId, b: StepId, c: StepId)
    requires DependsOn(steps, c, b) && (b == a || IsDownstream(steps, a, b))
    ensures c in Downstream(steps, a)
  {
    if b == a {
      assert Chain(steps, a, c, 1);
    } else {
      var n: nat :| Chain(steps, a, b, n);
      assert Chain(steps, a, c, n + 1);
    }
  }

  /** A set that is closed under direct dependents holds everything downstream. */
  lemma {:induction false} ClosedHoldsChain(steps: Steps, id: StepId, blocked: set<StepId>, b: StepId, n: nat)
    requires forall x, y | (x == id || x in blocked) && DependsOn(steps, y, x) :: y in blocked
    requires Chain(steps, id, b, n)
    ensures b in blocked
    decreases n
  {
    if n > 1 {
      var c :| Chain(steps, id, c, n - 1) && DependsOn(steps, b, c);
      ClosedHoldsChain(steps, id, blocked, c, n - 1);
    }
  }

  lemma ClosedHoldsAll(steps: Steps, id: StepId, blocked: set<StepId>)
    requires forall x, y | (x == id || x in blocked) && DependsOn(steps, y, x) :: y in blocked
    ensures Downstream(steps, id) <= blocked
  {
    forall b | b in Downstream(steps, id) ensures b in blocked {
      var n: nat :| Chain(steps, id, b, n);
      ClosedHoldsChain(steps, id, blocked, b, n);
    }
  }

  /** The worklist over the step table returns the size of the set of transitive dependents. */
  method DownstreamCount(steps: Steps, id: StepId) returns (count: nat)
    ensures count == |Downstream(steps, id)|
  {
    hide Downstream, DependsOn;
    var blocked: set<StepId> := {};
    var frontier := [id];
    while frontier != []
      invariant blocked <= Downstream(steps, id) && blocked <= steps.Keys
      invariant forall x | x in frontier :: x == id || x in blocked
      invariant forall x, y | (x == id || x in blocked) && x !in frontier && DependsOn(steps, y, x) :: y in blocked
      decreases |steps.Keys - blocked|, |frontier|
    {
      var current := Last(frontier);
      var before := blocked;
      blocked, frontier := Expand(steps, id, current, blocked, Front(frontier));
      if blocked != before {
        assert steps.Keys - blocked < steps.Keys - before;
        SmallerSet(steps.Keys - blocked, steps.Keys - before);
      }
    }
    ClosedHoldsAll(steps, id, blocked);
    assert blocked == Downstream(steps, id);
    count := |blocked|;
  }

  /** The inner loop: every dependent of `current` that is not blocked yet is blocked and queued. */
  method Expand(steps: Steps, ghost id: StepId, current: StepId, blocked0: set<StepId>, frontier0: seq<StepId>)
    returns (blocked: set<StepId>, frontier: seq<StepId>)
    requires blocked0 <= Downstream(steps, id) && (current == id || current in blocked0)
    ensures blocked0 <= blocked <= Downstream(steps, id) && blocked <= steps.Keys
    ensures forall y | DependsOn(steps, y, current) :: y in blocked
    ensures forall x :: x in frontier <==> x in frontier0 || x in blocked - blocked0
    ensures blocked == blocked0 ==> frontier == frontier0
  {
    blocked, frontier := blocked0, frontier0;
    var todo := steps.Keys;
    while todo != {}
      invariant todo <= steps.Keys
      invariant blocked0 <= blocked <= Downstream(steps, id)
      invariant forall y | DependsOn(steps, y, current) && y !in todo :: y in blocked
      invariant forall x :: x in frontier <==> x in frontier0 || x in blocked - blocked0
      invariant blocked == blocked0 ==> frontier == frontier0
      decreases todo
    {
      var candidate :| candidate in todo;
      if current in steps[candidate].dependsOn && candidate !in blocked {
        OneStepFurther(steps, id, current, candidate);
        blocked, frontier := blocked + {candidate}, frontier + [candidate];
      }
      todo := todo - {candidate};
    }
  }

  // --- what the count means -----------------------------------------------------------------

  lemma {:induction false} ChainIsPending(row: Row, id: StepId, b: StepId, n: nat)
    requires PendingIsBlocked(row.steps) && id in row.steps && row.steps[id].status != Completed
    requires Chain(row.steps, id, b, n)
    ensures b in row.steps && row.steps[b].status == Pending
    decreases n
  {
    if n > 1 {
      var c :| Chain(row.steps, id, c, n - 1) && DependsOn(row.steps, b, c);
      ChainIsPending(row, id, c, n - 1);
      assert !IsDone(row.steps, c);
    } else {
      assert !IsDone(row.steps, id);
    }
  }

  lemma {:induction false} SameChains(a: Steps, b: Steps, x: StepId, y: StepId, n: nat)
    requires SameShapes(a, b) && Chain(a, x, y, n)
    ensures Chain(b, x, y, n)
    decreases n
  {
    assert y in a;
    assert SameShape(a[y], b[y]);
    if n > 1 {
      var c :| Chain(a, x, c, n - 1) && DependsOn(a, y, c);
      SameChains(a, b, x, c, n - 1);
      assert Chain(b, x, c, n - 1) && DependsOn(b, y, c);
    }
  }

  lemma {:induction false} ShapesStay(log: Log, i: nat, j: nat)
    requires log != [] && Reached(log) && i <= j < |log|
    ensures SameShapes(log[i].steps, log[j].steps)
    decreases j
  {
    hide Reached, RowOk, Successor, NextRow, SameShape;
    if i < j {
      ShapesStay(log, i, j - 1);
      var a := NeighbourAction(log, j);
      ShapesCompose(log[i].steps, log[j - 1].steps, log[j].steps);
    } else {
      ShapeIsItsOwn(log[i].steps);
    }
  }

  lemma ShapeIsItsOwn(a: Steps)
    ensures SameShapes(a, a)
  {
  }

  lemma ShapesCompose(a: Steps, b: Steps, c: Steps)
    requires SameShapes(a, b) && SameShapes(b, c)
    ensures SameShapes(a, c)
  {
    forall id | id in a ensures SameShape(a[id], c[id]) {
      assert SameShape(a[id], b[id]) && SameShape(b[id], c[id]);
    }
  }

  /** The blocked count is the truth: every step counted for a decision in row `i` is pending in
      every row of the run in which the deciding step is not completed. */
  lemma BlockedUntilDecided(log: Log, i: nat, j: nat, id: StepId, b: StepId)
    requires log != [] && Reached(log) && i <= j < |log|
    requires id in log[i].steps && b in Downstream(log[i].steps, id)
    ensures id in log[j].steps && b in log[j].steps
    ensures log[j].steps[id].status != Completed ==> log[j].steps[b].status == Pending
  {
    hide Reached;
    ShapesStay(log, i, j);
    RowsAreOk(log, j);
    var n: nat :| Chain(log[i].steps, id, b, n);
    SameChains(log[i].steps, log[j].steps, id, b, n);
    if log[j].steps[id].status != Completed {
      ChainIsPending(log[j], id, b, n);
    }
  }

  // --- the order decisions are offered in ---------------------------------------------------

  /** Position in the chain, with the guard against going round in circles. */
  function DepthOf(steps: Steps, id: StepId, seen: set<StepId>): nat
    decreases |steps.Keys - seen|, 0, 0
  {
    if id in seen || id !in steps || steps[id].dependsOn == [] then 0
    else
      SmallerSet(steps.Keys - (seen + {id}), steps.Keys - seen);
      1 + MaxDepth(steps, steps[id].dependsOn, seen + {id})
  }

  function MaxDepth(steps: Steps, parents: seq<StepId>, seen: set<StepId>): nat
    decreases |steps.Keys - seen|, 1, |parents|
  {
    if parents == [] then 0
    else
      var first, rest := DepthOf(steps, parents[0], seen), MaxDepth(steps, parents[1..], seen);
      if first >= rest then first else rest
  }

  lemma {:induction false} MaxIsReached(steps: Steps, parents: seq<StepId>, seen: set<StepId>, k: nat)
    requires k < |parents|
    ensures MaxDepth(steps, parents, seen) >= DepthOf(steps, parents[k], seen)
    decreases |parents|
  {
    if k > 0 {
      MaxIsReached(steps, parents[1..], seen, k - 1);
    }
  }

  lemma {:induction false} MaxIsTaken(steps: Steps, parents: seq<StepId>, seen: set<StepId>) returns (k: nat)
    requires parents != []
    ensures k < |parents| && MaxDepth(steps, parents, seen) == DepthOf(steps, parents[k], seen)
    decreases |parents|
  {
    k := 0;
    if |parents| > 1 && DepthOf(steps, parents[0], seen) < MaxDepth(steps, parents[1..], seen) {
      k := MaxIsTaken(steps, parents[1..], seen);
      k := k + 1;
    }
  }

  lemma {:induction false} SameMax(steps: Steps, parents: seq<StepId>, seen: set<StepId>, seen': set<StepId>)
    requires forall p | p in parents :: DepthOf(steps, p, seen) == DepthOf(steps, p, seen')
    ensures MaxDepth(steps, parents, seen) == MaxDepth(steps, parents, seen')
    decreases |parents|
  {
    if parents != [] {
      assert parents[0] in parents && forall p | p in parents[1..] :: p in parents;
      SameMax(steps, parents[1..], seen, seen');
    }
  }

  /** In a ranked graph the guard never strikes. */
  lemma {:induction false} GuardIsIdle(steps: Steps, rank: map<StepId, nat>, id: StepId, seen: set<StepId>)
    requires IsRank(GraphOfRun(steps), rank)
    requires forall s | s in seen :: s in rank && id in rank && rank[id] < rank[s]
    ensures DepthOf(steps, id, seen) == DepthOf(steps, id, {})
    decreases if id in rank then rank[id] else 0
  {
    if id in steps && steps[id].dependsOn != [] {
      var parents := steps[id].dependsOn;
      assert parents[0] in GraphOfRun(steps)[id];
      forall p | p in parents ensures DepthOf(steps, p, seen + {id}) == DepthOf(steps, p, {} + {id}) {
        assert p in GraphOfRun(steps)[id];
        GuardIsIdle(steps, rank, p, seen + {id});
        GuardIsIdle(steps, rank, p, {} + {id});
      }
      SameMax(steps, parents, seen + {id}, {} + {id});
    }
  }

  /** Going round in circles is guarded against and never happens: a dependency is as deep as it is on its own. */
  lemma GuardedAlike(log: Log, id: StepId, d: StepId)
    requires log != [] && Reached(log) && DependsOn(Last(log).steps, id, d)
    ensures DepthOf(Last(log).steps, d, {} + {id}) == DepthOf(Last(log).steps, d, {})
  {
    hide Reached, StepsOk, PendingIsBlocked, StatusIsForced, MoneyAddsUp;
    LastIsOk(log);
    var steps := Last(log).steps;
    var rank :| IsRank(GraphOfRun(steps), rank);
    RankFalls(steps, rank, id, d);
    hide Acyclic, IsRank, GraphOk;
    GuardIsIdle(steps, rank, d, {} + {id});
  }

  lemma RankFalls(steps: Steps, rank: map<StepId, nat>, id: StepId, d: StepId)
    requires IsRank(GraphOfRun(steps), rank) && DependsOn(steps, id, d)
    ensures id in rank && d in rank && rank[d] < rank[id]
  {
    var graph := GraphOfRun(steps);
    assert id in graph && d in graph[id];
    assert d in rank;
  }

  /** Depth follows the dependencies strictly, so what comes earlier in the chain sorts earlier. */
  lemma DepthFollowsChain(log: Log, id: StepId, d: StepId)
    requires log != [] && Reached(log) && DependsOn(Last(log).steps, id, d)
    ensures DepthOf(Last(log).steps, d, {}) < DepthOf(Last(log).steps, id, {})
  {
    hide Reached;
    var steps := Last(log).steps;
    var k: nat :| k < |steps[id].dependsOn| && steps[id].dependsOn[k] == d;
    MaxIsReached(steps, steps[id].dependsOn, {} + {id}, k);
    GuardedAlike(log, id, d);
  }

  lemma DeepestParent(log: Log, id: StepId) returns (d: StepId)
    requires log != [] && Reached(log) && DepthOf(Last(log).steps, id, {}) > 0
    ensures DependsOn(Last(log).steps, id, d)
    ensures DepthOf(Last(log).steps, d, {}) + 1 == DepthOf(Last(log).steps, id, {})
  {
    hide Reached;
    var parents := Last(log).steps[id].dependsOn;
    var k := MaxIsTaken(Last(log).steps, parents, {} + {id});
    d := parents[k];
    GuardedAlike(log, id, d);
  }

  /** No chain of dependencies that ends in a step is longer than the step is deep. */
  lemma {:induction false} ChainsAreShort(log: Log, a: StepId, id: StepId, n: nat)
    requires log != [] && Reached(log) && Chain(Last(log).steps, a, id, n)
    ensures n <= DepthOf(Last(log).steps, id, {})
    decreases n
  {
    hide Reached, DepthOf;
    if n == 1 {
      DepthFollowsChain(log, id, a);
    } else {
      var c :| Chain(Last(log).steps, a, c, n - 1) && DependsOn(Last(log).steps, id, c);
      ChainsAreShort(log, a, c, n - 1);
      DepthFollowsChain(log, id, c);
    }
  }

  /** A step is as deep as the longest chain of dependencies that leads to it: there is one of that length, and
      none is longer. */
  lemma {:induction false} DepthIsLongestChain(log: Log, id: StepId)
    requires log != [] && Reached(log)
    ensures var depth := DepthOf(Last(log).steps, id, {});
      && (forall a, n: nat | Chain(Last(log).steps, a, id, n) :: n <= depth)
      && (depth > 0 ==> exists a :: Chain(Last(log).steps, a, id, depth))
    decreases DepthOf(Last(log).steps, id, {})
  {
    hide Reached, DepthOf;
    forall a, n: nat | Chain(Last(log).steps, a, id, n) ensures n <= DepthOf(Last(log).steps, id, {}) {
      ChainsAreShort(log, a, id, n);
    }
    var depth := DepthOf(Last(log).steps, id, {});
    if depth > 0 {
      var d := DeepestParent(log, id);
      if depth == 1 {
        assert Chain(Last(log).steps, d, id, 1);
      } else {
        DepthIsLongestChain(log, d);
        var a :| Chain(Last(log).steps, a, d, depth - 1);
        assert Chain(Last(log).steps, a, id, depth);
      }
    }
  }

  lemma {:induction false} UpstreamIsDone(row: Row, a: StepId, b: StepId, n: nat)
    requires PendingIsBlocked(row.steps) && Chain(row.steps, a, b, n) && b in row.steps
    requires row.steps[b].status != Pending
    ensures IsDone(row.steps, a)
    decreases n
  {
    assert AllDone(row.steps, row.steps[b].dependsOn);
    if n > 1 {
      var c :| Chain(row.steps, a, c, n - 1) && DependsOn(row.steps, b, c);
      assert IsDone(row.steps, c);
      UpstreamIsDone(row, a, c, n - 1);
    }
  }

  /** A decision is never offered before one it depends on: whatever is upstream of a step that waits for
      a person is completed, so no two waiting decisions of a run depend on each other. */
  lemma WaitingDecisionsAreIndependent(log: Log, a: StepId, b: StepId)
    requires log != [] && Reached(log) && b in Last(log).steps && Last(log).steps[b].status != Pending
    requires IsDownstream(Last(log).steps, a, b)
    ensures IsDone(Last(log).steps, a)
  {
    hide Reached, StepsOk, StatusIsForced, MoneyAddsUp, GraphOk;
    LastIsOk(log);
    var n: nat :| Chain(Last(log).steps, a, b, n);
    UpstreamIsDone(Last(log), a, b, n);
  }
}
