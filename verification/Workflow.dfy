/** Workflow admission (`validate_workflow`): every structural rule a plan must meet before a run
    may be created from it, and the depth-first search that refuses dependency cycles. */
module Workflows {
  import opened Outcomes

  type StepId = string

  datatype Risk = Green | Yellow | Red

  /** A JSON field that should hold a whole number. */
  datatype Number = Missing | NotWhole | Whole(n: int)

  /** A step as the workflow file gives it; `dependsOn` is None when the field is not a list, and
      `checker` is None when the field is absent or empty. */
  datatype RawStep = RawStep(
    id: StepId, owner: string, checker: Option<string>, maxReviewCycles: Number, action: string,
    maxAttempts: Number, dependsOn: Option<seq<StepId>>)
  {
    function Dependencies(): seq<StepId> {
      match dependsOn case Some(list) => list case None => []
    }
  }

  /** `steps` is None when the field is not a list. */
  datatype Workflow = Workflow(
    version: Number, id: string, goal: string, maxCycles: Number, steps: Option<seq<RawStep>>)

  /** The policy's classification of each action, and the agents that exist. */
  datatype Company = Company(policy: map<string, Risk>, agents: set<string>)

  datatype Problem =
    | BadVersion | BadWorkflowId | NoGoal | BadMaxCycles | NoSteps | DuplicateIds
    | BadStepId(step: StepId) | UnknownOwner(step: StepId) | UnknownChecker(step: StepId)
    | SelfCheck(step: StepId) | CheckerNotGreen(step: StepId) | BadReviewLimit(step: StepId)
    | TooFewAttempts(step: StepId) | LimitWithoutChecker(step: StepId) | Unclassified(step: StepId)
    | BadAttempts(step: StepId) | DependenciesNotList(step: StepId)
    | UnknownDependency(step: StepId, on: StepId) | SelfDependency(step: StepId)
    | DependencyCycle(node: StepId)

  predicate IsLower(c: char) { 'a' <= c <= 'z' }

  predicate IsDigit(c: char) { '0' <= c <= '9' }

  /** The run, workflow and step id pattern: a letter, then 1 to 63 letters, digits or hyphens. */
  predicate IsSlug(s: string) {
    && 2 <= |s| <= 64
    && IsLower(s[0])
    && forall i | 1 <= i < |s| :: IsLower(s[i]) || IsDigit(s[i]) || s[i] == '-'
  }

  /** The characters that stripping a text takes off its ends. */
  predicate IsSpace(c: char) {
    var n := c as int;
    || 9 <= n <= 13 || 28 <= n <= 32 || n == 0x85 || n == 0xA0 || n == 0x1680 || 0x2000 <= n <= 0x200A
    || n == 0x2028 || n == 0x2029 || n == 0x202F || n == 0x205F || n == 0x3000
  }

  predicate IsBlank(s: string) {
    forall c | c in s :: IsSpace(c)
  }

  function StripLeft(s: string): (r: string)
    ensures r == "" <==> IsBlank(s)
    ensures r != "" ==> !IsSpace(r[0])
  {
    if s != "" && IsSpace(s[0]) then
      assert s == [s[0]] + s[1..];
      StripLeft(s[1..])
    else s
  }

  function StripRight(s: string): (r: string)
    ensures r == "" <==> IsBlank(s)
    ensures r != "" ==> !IsSpace(Last(r))
  {
    if s != "" && IsSpace(Last(s)) then
      assert s == Front(s) + [Last(s)];
      StripRight(Front(s))
    else s
  }

  /** The text without the space at its ends: nothing is left exactly of a blank one. */
  function Strip(s: string): (r: string)
    ensures r == "" <==> IsBlank(s)
  {
    StripRight(StripLeft(s))
  }

  function Ids(steps: seq<RawStep>): (ids: seq<StepId>)
    ensures |ids| == |steps|
  {
    seq(|steps|, i requires 0 <= i < |steps| => steps[i].id)
  }

  predicate Distinct(ids: seq<StepId>) {
    forall i, j | 0 <= i < j < |ids| :: ids[i] != ids[j]
  }

  // --- what an admitted workflow is ---------------------------------------------------------

  predicate CheckerRulesHold(step: RawStep, company: Company) {
    match step.checker
    case None => step.maxReviewCycles.Missing?
    case Some(checker) =>
      && checker in company.agents
      && checker != step.owner
      && step.action in company.policy && company.policy[step.action].Green?
      && step.maxReviewCycles.Whole? && 1 <= step.maxReviewCycles.n <= 3
      && (step.maxAttempts.Whole? ==> step.maxReviewCycles.n + 2 <= step.maxAttempts.n)
  }

  predicate StepIsValid(step: RawStep, ids: seq<StepId>, company: Company) {
    && IsSlug(step.id)
    && step.owner in company.agents
    && CheckerRulesHold(step, company)
    && step.action in company.policy
    && step.maxAttempts.Whole? && 1 <= step.maxAttempts.n <= 5
    && step.dependsOn.Some?
    && forall d | d in step.dependsOn.value :: d in ids && d != step.id
  }

  type Graph = map<StepId, seq<StepId>>

  /** Every edge of the graph leads from a higher rank to a lower one. */
  ghost predicate IsRank(graph: Graph, rank: map<StepId, nat>) {
    forall n, d | n in graph && d in graph[n] :: n in rank && d in rank && rank[d] < rank[n]
  }

  ghost predicate Acyclic(graph: Graph) {
    exists rank :: IsRank(graph, rank)
  }

  function GraphOf(steps: seq<RawStep>): Graph {
    if steps == [] then map[]
    else GraphOf(Front(steps))[Last(steps).id := Last(steps).Dependencies()]
  }

  ghost predicate HeaderIsValid(w: Workflow) {
    && w.version == Whole(1)
    && IsSlug(w.id)
    && !IsBlank(w.goal)
    && w.maxCycles.Whole? && 1 <= w.maxCycles.n <= 100
    && w.steps.Some? && w.steps.value != []
  }

  ghost predicate IsValid(w: Workflow, company: Company) {
    && HeaderIsValid(w)
    && Distinct(Ids(w.steps.value))
    && (forall step | step in w.steps.value :: StepIsValid(step, Ids(w.steps.value), company))
    && Acyclic(GraphOf(w.steps.value))
  }

  // --- the two-set depth-first search -------------------------------------------------------

  function Dependencies(graph: Graph, node: StepId): seq<StepId> {
    if node in graph then graph[node] else []
  }

  /** Each node of the path is a dependency of the one before it. */
  predicate Descends(graph: Graph, path: seq<StepId>) {
    forall i | 0 < i < |path| :: path[i] in Dependencies(graph, path[i - 1])
  }

  /** A walk of at least one edge along the graph. */
  predicate IsWalk(graph: Graph, path: seq<StepId>) {
    |path| > 1 && Descends(graph, path)
  }

  /** The node depends on itself, through however many others. */
  ghost predicate IsOnLoop(graph: Graph, node: StepId) {
    exists walk :: IsWalk(graph, walk) && walk[0] == node == Last(walk)
  }

  lemma LoopIsClosed(graph: Graph, path: seq<StepId>, node: StepId)
    requires Descends(graph, path) && node in path && node in Dependencies(graph, Last(path))
    ensures IsOnLoop(graph, node)
  {
    hide Dependencies;
    var i: nat :| i < |path| && path[i] == node;
    var walk := path[i..] + [node];
    forall k | 0 < k < |walk| ensures walk[k] in Dependencies(graph, walk[k - 1]) {
      if k < |walk| - 1 {
        assert walk[k] == path[i + k] && walk[k - 1] == path[i + k - 1];
      } else {
        assert walk[k - 1] == Last(path);
      }
    }
    assert IsWalk(graph, walk) && walk[0] == node == Last(walk);
  }

  /** A finished node ranks above all its dependencies, which are finished too. */
  ghost predicate Settled(graph: Graph, rank: map<StepId, nat>, node: StepId) {
    && node in rank && rank[node] < |rank|
    && forall d | d in Dependencies(graph, node) :: d in rank && rank[d] < rank[node]
  }

  ghost predicate Finished(graph: Graph, rank: map<StepId, nat>) {
    forall node | node in rank :: Settled(graph, rank, node)
  }

  lemma FinishNode(graph: Graph, rank: map<StepId, nat>, node: StepId)
    requires Finished(graph, rank) && node !in rank
    requires forall d | d in Dependencies(graph, node) :: d in rank
    ensures Finished(graph, rank[node := |rank|])
  {
    hide Settled, Dependencies;
    var rank' := rank[node := |rank|];
    forall n | n in rank' ensures Settled(graph, rank', n) {
      if n == node {
        NodeSettles(graph, rank, node);
      } else {
        SettledStays(graph, rank, node, n);
      }
    }
  }

  lemma OneMore(rank: map<StepId, nat>, node: StepId)
    requires node !in rank
    ensures |rank[node := |rank|]| == |rank| + 1
  {
    assert rank[node := |rank|].Keys == rank.Keys + {node};
  }

  lemma SettledStays(graph: Graph, rank: map<StepId, nat>, node: StepId, n: StepId)
    requires Settled(graph, rank, n) && node !in rank
    ensures Settled(graph, rank[node := |rank|], n)
  {
    OneMore(rank, node);
  }

  lemma NodeSettles(graph: Graph, rank: map<StepId, nat>, node: StepId)
    requires Finished(graph, rank) && node !in rank
    requires forall d | d in Dependencies(graph, node) :: d in rank
    ensures Settled(graph, rank[node := |rank|], node)
  {
    OneMore(rank, node);
    forall d | d in Dependencies(graph, node) ensures rank[d] < |rank| {
      assert Settled(graph, rank, d);
    }
  }

  /** In the known order, if there is one, every node of `visiting` ranks above `node`. */
  ghost predicate Below(order: Option<map<StepId, nat>>, node: StepId, visiting: set<StepId>) {
    order.Some? ==> forall v | v in visiting ::
      v in order.value && node in order.value && order.value[node] < order.value[v]
  }

  lemma NotBelowItself(order: Option<map<StepId, nat>>, node: StepId, visiting: set<StepId>)
    requires Below(order, node, visiting) && node in visiting
    ensures order.None?
  {
  }

  lemma BelowDependency(graph: Graph, order: Option<map<StepId, nat>>, node: StepId, d: StepId, visiting: set<StepId>)
    requires order.Some? ==> IsRank(graph, order.value)
    requires d in Dependencies(graph, node)
    requires Below(order, node, visiting - {node})
    ensures Below(order, d, visiting)
  {
    if order.Some? {
      assert order.value[d] < order.value[node];
    }
  }

  /** The path is the open visits, each once, in the order they were opened. */
  ghost predicate IsOpen(graph: Graph, path: seq<StepId>, visiting: set<StepId>) {
    Descends(graph, path) && Distinct(path) && forall n :: n in path <==> n in visiting
  }

  lemma OpenHolds(graph: Graph, path: seq<StepId>, visiting: set<StepId>, node: StepId)
    requires IsOpen(graph, path, visiting) && node in visiting
    ensures Descends(graph, path) && node in path
  {
  }

  lemma OpensMore(graph: Graph, path: seq<StepId>, visiting: set<StepId>, node: StepId)
    requires IsOpen(graph, path, visiting) && node !in visiting
    requires path == [] || node in Dependencies(graph, Last(path))
    ensures IsOpen(graph, path + [node], visiting + {node})
  {
    hide Dependencies;
  }

  lemma OpensLess(graph: Graph, path: seq<StepId>, visiting: set<StepId>)
    requires IsOpen(graph, path, visiting) && path != []
    ensures IsOpen(graph, Front(path), visiting - {Last(path)})
  {
    hide Dependencies;
    assert path == Front(path) + [Last(path)];
  }

  /** The nested `visit` closure with the two sets and the error list it captures. The ghost rank
      numbers the nodes in the order their visits finish; the ghost path is the chain of visits that are
      open; the ghost order is some rank of the graph, when it has one; the universe holds every node the
      search can meet. */
  class DepthFirst {
    const graph: Graph
    ghost const order: Option<map<StepId, nat>>
    ghost const universe: set<StepId>
    var visiting: set<StepId>
    var visited: set<StepId>
    var cycles: seq<StepId>
    ghost var rank: map<StepId, nat>
    ghost var path: seq<StepId>

    ghost predicate Valid()
      reads this
    {
      && (order.Some? ==> IsRank(graph, order.value))
      && (forall n | n in universe :: forall d | d in Dependencies(graph, n) :: d in universe)
      && visiting <= universe
      && IsOpen(graph, path, visiting) && (forall c | c in cycles :: IsOnLoop(graph, c))
      && (cycles == [] ==> visiting !! visited && visited == rank.Keys && Finished(graph, rank))
    }

    constructor (graph: Graph, ghost order: Option<map<StepId, nat>>)
      requires order.Some? ==> IsRank(graph, order.value)
      ensures Valid() && this.graph == graph && this.order == order && graph.Keys <= universe
      ensures visiting == visited == {} && cycles == path == []
    {
      this.graph, this.order := graph, order;
      universe := graph.Keys + set n, d | n in graph && d in graph[n] :: d;
      visiting, visited, cycles, rank, path := {}, {}, [], map[], [];
    }

    method Visit(node: StepId)
      requires Valid() && node in universe && Below(order, node, visiting)
      requires path == [] || node in Dependencies(graph, Last(path))
      modifies this
      ensures Valid()
      ensures visiting == old(visiting) && path == old(path) && old(visited) <= visited
      ensures cycles == [] ==> old(cycles) == [] && node in visited
      ensures order.Some? ==> cycles == old(cycles)
      decreases |universe - visiting|, 0
    {
      hide IsOpen, IsOnLoop, Descends, Finished, IsRank, Dependencies, Below;
      if node in visiting {
        NotBelowItself(order, node, visiting);
        OpenHolds(graph, path, visiting, node);
        LoopIsClosed(graph, path, node);
        cycles := cycles + [node];
        return;
      }
      if node in visited {
        return;
      }
      SmallerSet(universe - (visiting + {node}), universe - visiting);
      assert visiting + {node} - {node} == visiting;
      OpensMore(graph, path, visiting, node);
      visiting, path := visiting + {node}, path + [node];
      VisitAll(node);
      assert Front(path) == old(path);
      Leave(node);
    }

    method Leave(node: StepId)
      requires Valid() && node in visiting && path != [] && Last(path) == node
      requires cycles == [] ==> forall d | d in Dependencies(graph, node) :: d in visited
      modifies this
      ensures Valid()
      ensures visiting == old(visiting) - {node} && visited == old(visited) + {node} && cycles == old(cycles)
      ensures path == Front(old(path))
    {
      OpensLess(graph, path, visiting);
      if cycles == [] {
        FinishNode(graph, rank, node);
      }
      visiting, visited, rank, path := visiting - {node}, visited + {node}, rank[node := |rank|], Front(path);
    }

    /** The loop over one node's dependencies. */
    method VisitAll(node: StepId)
      requires Valid() && node in visiting && path != [] && Last(path) == node
      requires Below(order, node, visiting - {node})
      modifies this
      ensures Valid()
      ensures visiting == old(visiting) && path == old(path) && old(visited) <= visited
      ensures cycles == [] ==> old(cycles) == [] && forall d | d in Dependencies(graph, node) :: d in visited
      ensures order.Some? ==> cycles == old(cycles)
      decreases |universe - visiting|, 1
    {
      hide IsOpen, IsOnLoop, Descends, Finished, IsRank, Dependencies, Below;
      var list := Dependencies(graph, node);
      var i := 0;
      while i < |list|
        invariant 0 <= i <= |list|
        invariant Valid()
        invariant visiting == old(visiting) && path == old(path) && old(visited) <= visited
        invariant cycles == [] ==> old(cycles) == [] && forall j | 0 <= j < i :: list[j] in visited
        invariant order.Some? ==> cycles == old(cycles)
      {
        BelowDependency(graph, order, node, list[i], visiting);
        Visit(list[i]);
        i := i + 1;
      }
    }
  }

  lemma SmallerSet<T>(a: set<T>, b: set<T>)
    requires a < b
    ensures |a| < |b|
  {
    var x :| x in b && x !in a;
    assert a <= b - {x};
    SubsetSize(a, b - {x});
  }

  lemma {:induction false} SubsetSize<T>(a: set<T>, b: set<T>)
    requires a <= b
    ensures |a| <= |b|
    decreases a
  {
    if a != {} {
      var x :| x in a;
      SubsetSize(a - {x}, b - {x});
    }
  }

  /** The search reports a cycle exactly when no rank of the graph exists, and only nodes that lie on one. */
  method FindCycles(graph: Graph) returns (cycles: seq<StepId>)
    ensures cycles == [] <==> Acyclic(graph)
    ensures forall c | c in cycles :: IsOnLoop(graph, c)
  {
    ghost var order: Option<map<StepId, nat>> := None;
    if Acyclic(graph) {
      ghost var rank :| IsRank(graph, rank);
      order := Some(rank);
    }
    var search := new DepthFirst(graph, order);
    var todo := graph.Keys;
    while todo != {}
      invariant search.Valid() && search.graph == graph && search.order == order && fresh(search)
        && graph.Keys <= search.universe
      invariant search.visiting == {} && search.path == [] && todo <= graph.Keys
      invariant search.cycles == [] ==> graph.Keys - todo <= search.visited
      invariant Acyclic(graph) ==> search.cycles == []
      decreases todo
    {
      var node :| node in todo;
      search.Visit(node);
      todo := todo - {node};
    }
    cycles := search.cycles;
    if cycles == [] {
      forall n, d | n in graph && d in graph[n]
        ensures n in search.rank && d in search.rank && search.rank[d] < search.rank[n]
      {
        assert Settled(graph, search.rank, n);
      }
      assert IsRank(graph, search.rank);
    }
  }

  // --- validate_workflow --------------------------------------------------------------------

  /** The step breaks this rule about its checker. */
  predicate BreaksChecking(p: Problem, step: RawStep, company: Company) {
    match p
    case UnknownChecker(s) => s == step.id && step.checker.Some? && step.checker.value !in company.agents
    case SelfCheck(s) => s == step.id && step.checker == Some(step.owner)
    case CheckerNotGreen(s) =>
      s == step.id && step.checker.Some? && !(step.action in company.policy && company.policy[step.action].Green?)
    case BadReviewLimit(s) =>
      s == step.id && step.checker.Some? && !(step.maxReviewCycles.Whole? && 1 <= step.maxReviewCycles.n <= 3)
    case TooFewAttempts(s) =>
      && s == step.id && step.checker.Some? && step.maxReviewCycles.Whole? && step.maxAttempts.Whole?
      && step.maxAttempts.n < step.maxReviewCycles.n + 2
    case LimitWithoutChecker(s) => s == step.id && step.checker.None? && !step.maxReviewCycles.Missing?
    case _ => false
  }

  /** The step breaks this rule about itself. */
  predicate BreaksItself(p: Problem, step: RawStep, company: Company) {
    match p
    case BadStepId(s) => s == step.id && !IsSlug(step.id)
    case UnknownOwner(s) => s == step.id && step.owner !in company.agents
    case Unclassified(s) => s == step.id && step.action !in company.policy
    case BadAttempts(s) => s == step.id && !(step.maxAttempts.Whole? && 1 <= step.maxAttempts.n <= 5)
    case DependenciesNotList(s) => s == step.id && step.dependsOn.None?
    case _ => false
  }

  /** The step lists a dependency that breaks this rule. */
  predicate BreaksEdge(p: Problem, id: StepId, list: seq<StepId>, ids: seq<StepId>) {
    match p
    case UnknownDependency(s, d) => s == id && d in list && d !in ids
    case SelfDependency(s) => s == id && id in list
    case _ => false
  }

  predicate Breaks(p: Problem, step: RawStep, ids: seq<StepId>, company: Company) {
    || BreaksItself(p, step, company) || BreaksChecking(p, step, company)
    || BreaksEdge(p, step.id, step.Dependencies(), ids)
  }

  /** The header breaks this rule. */
  predicate BreaksHeader(p: Problem, w: Workflow) {
    match p
    case BadVersion => w.version != Whole(1)
    case BadWorkflowId => !IsSlug(w.id)
    case NoGoal => IsBlank(w.goal)
    case BadMaxCycles => !(w.maxCycles.Whole? && 1 <= w.maxCycles.n <= 100)
    case NoSteps => !(w.steps.Some? && w.steps.value != [])
    case _ => false
  }

  lemma CheckingBreaksNothing(step: RawStep, company: Company)
    ensures CheckerRulesHold(step, company) <==> forall p :: !BreaksChecking(p, step, company)
  {
    if forall p :: !BreaksChecking(p, step, company) {
      var id := step.id;
      assert !BreaksChecking(UnknownChecker(id), step, company) && !BreaksChecking(SelfCheck(id), step, company);
      assert !BreaksChecking(CheckerNotGreen(id), step, company) && !BreaksChecking(BadReviewLimit(id), step, company);
      assert !BreaksChecking(TooFewAttempts(id), step, company);
      assert !BreaksChecking(LimitWithoutChecker(id), step, company);
    }
  }

  lemma ItselfBreaksNothing(step: RawStep, company: Company)
    ensures (forall p :: !BreaksItself(p, step, company)) <==>
      && IsSlug(step.id) && step.owner in company.agents && step.action in company.policy
      && step.maxAttempts.Whole? && 1 <= step.maxAttempts.n <= 5 && step.dependsOn.Some?
  {
    hide IsSlug;
    if forall p :: !BreaksItself(p, step, company) {
      var id := step.id;
      assert !BreaksItself(BadStepId(id), step, company) && !BreaksItself(UnknownOwner(id), step, company);
      assert !BreaksItself(Unclassified(id), step, company) && !BreaksItself(BadAttempts(id), step, company);
      assert !BreaksItself(DependenciesNotList(id), step, company);
    }
  }

  lemma EdgesBreakNothing(id: StepId, list: seq<StepId>, ids: seq<StepId>)
    ensures (forall p :: !BreaksEdge(p, id, list, ids)) <==> forall d | d in list :: d in ids && d != id
  {
    if forall p :: !BreaksEdge(p, id, list, ids) {
      assert !BreaksEdge(SelfDependency(id), id, list, ids);
      forall d | d in list ensures d in ids && d != id {
        assert !BreaksEdge(UnknownDependency(id, d), id, list, ids);
      }
    }
  }

  lemma ValidBreaksNothing(step: RawStep, ids: seq<StepId>, company: Company)
    ensures StepIsValid(step, ids, company) <==> forall p :: !Breaks(p, step, ids, company)
  {
    CheckingBreaksNothing(step, company);
    ItselfBreaksNothing(step, company);
    EdgesBreakNothing(step.id, step.Dependencies(), ids);
    hide CheckerRulesHold, BreaksChecking, BreaksItself, BreaksEdge, IsSlug;
    if forall p :: !Breaks(p, step, ids, company) {
      forall p ensures !BreaksChecking(p, step, company) && !BreaksItself(p, step, company)
        && !BreaksEdge(p, step.id, step.Dependencies(), ids)
      {
        assert !Breaks(p, step, ids, company);
      }
    }
  }

  /** The checks of the checker and its limit. */
  method CheckChecker(step: RawStep, company: Company) returns (errors: seq<Problem>)
    ensures forall p :: p in errors <==> BreaksChecking(p, step, company)
  {
    errors := [];
    match step.checker
    case None =>
      if !step.maxReviewCycles.Missing? { errors := errors + [LimitWithoutChecker(step.id)]; }
    case Some(checker) =>
      if checker !in company.agents { errors := errors + [UnknownChecker(step.id)]; }
      if checker == step.owner { errors := errors + [SelfCheck(step.id)]; }
      if !(step.action in company.policy && company.policy[step.action].Green?) {
        errors := errors + [CheckerNotGreen(step.id)];
      }
      if !(step.maxReviewCycles.Whole? && 1 <= step.maxReviewCycles.n <= 3) {
        errors := errors + [BadReviewLimit(step.id)];
      }
      if step.maxReviewCycles.Whole? && step.maxAttempts.Whole? && step.maxAttempts.n < step.maxReviewCycles.n + 2 {
        errors := errors + [TooFewAttempts(step.id)];
      }
  }

  /** The loop over one step's dependencies. */
  method CheckDependencies(id: StepId, list: seq<StepId>, ids: seq<StepId>) returns (errors: seq<Problem>)
    ensures forall p :: p in errors <==> BreaksEdge(p, id, list, ids)
  {
    errors := [];
    for i := 0 to |list|
      invariant forall p :: p in errors <==> BreaksEdge(p, id, list[..i], ids)
    {
      if list[i] !in ids { errors := errors + [UnknownDependency(id, list[i])]; }
      if list[i] == id { errors := errors + [SelfDependency(id)]; }
      assert list[..i + 1] == list[..i] + [list[i]];
    }
    assert list[..|list|] == list;
  }

  /** The checks before and after those of the checker. */
  method CheckItself(step: RawStep, company: Company) returns (names: seq<Problem>, limits: seq<Problem>)
    ensures forall p :: p in names || p in limits <==> BreaksItself(p, step, company)
  {
    hide IsSlug;
    names := [];
    if !IsSlug(step.id) { names := names + [BadStepId(step.id)]; }
    if step.owner !in company.agents { names := names + [UnknownOwner(step.id)]; }
    limits := [];
    if step.action !in company.policy { limits := limits + [Unclassified(step.id)]; }
    if !(step.maxAttempts.Whole? && 1 <= step.maxAttempts.n <= 5) { limits := limits + [BadAttempts(step.id)]; }
    if step.dependsOn.None? { limits := limits + [DependenciesNotList(step.id)]; }
  }

  /** The checks on one step, in order: every rule it breaks is reported, and nothing else. */
  method CheckStep(step: RawStep, ids: seq<StepId>, company: Company) returns (errors: seq<Problem>)
    ensures forall p :: p in errors <==> Breaks(p, step, ids, company)
    ensures errors == [] <==> StepIsValid(step, ids, company)
  {
    hide BreaksChecking, BreaksEdge, BreaksItself, IsSlug, StepIsValid;
    var names, limits := CheckItself(step, company);
    var edges := CheckDependencies(step.id, step.Dependencies(), ids);
    var checking := CheckChecker(step, company);
    errors := names + checking + limits + edges;
    ValidBreaksNothing(step, ids, company);
    assert errors != [] ==> errors[0] in errors;
  }

  /** A workflow passes with no problem exactly when it meets every rule, acyclicity included. A bad header is
      reported alone; otherwise every broken rule of every step is, and nodes that lie on a cycle if there is one. */
  method ValidateWorkflow(w: Workflow, company: Company) returns (errors: seq<Problem>)
    ensures errors == [] <==> IsValid(w, company)
    ensures !HeaderIsValid(w) ==> forall p :: p in errors <==> BreaksHeader(p, w)
    ensures HeaderIsValid(w) ==> forall p :: p in errors ==> IsFault(p, w, company)
    ensures HeaderIsValid(w) ==> forall p: Problem | !p.DependencyCycle? :: IsFault(p, w, company) ==> p in errors
    ensures HeaderIsValid(w) && !Acyclic(GraphOf(w.steps.value)) ==>
      exists p: Problem :: p in errors && p.DependencyCycle?
  {
    errors := [];
    if w.version != Whole(1) { errors := errors + [BadVersion]; }
    if !IsSlug(w.id) { errors := errors + [BadWorkflowId]; }
    if IsBlank(w.goal) { errors := errors + [NoGoal]; }
    if !(w.maxCycles.Whole? && 1 <= w.maxCycles.n <= 100) { errors := errors + [BadMaxCycles]; }
    if !(w.steps.Some? && w.steps.value != []) { errors := errors + [NoSteps]; }
    if errors != [] {
      return;
    }
    errors := CheckPlan(w.steps.value, company);
  }

  /** What is wrong with the steps of a workflow whose header is fine. */
  ghost predicate IsFault(p: Problem, w: Workflow, company: Company)
    requires w.steps.Some?
  {
    IsPlanFault(p, w.steps.value, w.steps.value, company)
  }

  /** The same, of the first of them. */
  ghost predicate IsPlanFault(p: Problem, first: seq<RawStep>, steps: seq<RawStep>, company: Company) {
    match p
    case DuplicateIds => !Distinct(Ids(steps))
    case DependencyCycle(node) => IsOnLoop(GraphOf(steps), node)
    case _ => exists step :: step in first && Breaks(p, step, Ids(steps), company)
  }

  /** The loop over the steps. */
  method CheckSteps(steps: seq<RawStep>, company: Company) returns (errors: seq<Problem>)
    ensures forall p: Problem | !p.DependencyCycle? :: p in errors <==> IsPlanFault(p, steps, steps, company)
    ensures forall p :: p in errors ==> !p.DependencyCycle?
    ensures errors == [] <==>
      Distinct(Ids(steps)) && forall step | step in steps :: StepIsValid(step, Ids(steps), company)
  {
    hide IsOnLoop, Breaks, StepIsValid;
    var ids := Ids(steps);
    errors := if Distinct(ids) then [] else [DuplicateIds];
    for i := 0 to |steps|
      invariant forall p: Problem | !p.DependencyCycle? :: p in errors <==> IsPlanFault(p, steps[..i], steps, company)
      invariant forall p :: p in errors ==> !p.DependencyCycle?
      invariant errors == [] <==> Distinct(ids) && forall j | 0 <= j < i :: StepIsValid(steps[j], ids, company)
    {
      var found := CheckStep(steps[i], ids, company);
      NoCycleYet(found, steps[i], ids, company);
      OneMoreChecked(errors, found, steps, i, company);
      errors := errors + found;
    }
    assert steps[..|steps|] == steps;
  }

  method CheckPlan(steps: seq<RawStep>, company: Company) returns (errors: seq<Problem>)
    ensures forall p :: p in errors ==> IsPlanFault(p, steps, steps, company)
    ensures forall p: Problem | !p.DependencyCycle? :: IsPlanFault(p, steps, steps, company) ==> p in errors
    ensures !Acyclic(GraphOf(steps)) <==> exists p: Problem :: p in errors && p.DependencyCycle?
    ensures errors == [] <==>
      && Distinct(Ids(steps)) && (forall step | step in steps :: StepIsValid(step, Ids(steps), company))
      && Acyclic(GraphOf(steps))
  {
    hide IsOnLoop, Acyclic, Breaks, StepIsValid, Distinct;
    errors := CheckSteps(steps, company);
    var cycles := FindCycles(GraphOf(steps));
    ghost var before := errors;
    errors := errors + seq(|cycles|, i requires 0 <= i < |cycles| => DependencyCycle(cycles[i]));
    forall p | p in errors && p !in before ensures p.DependencyCycle? && p.node in cycles {
      var k: nat :| k < |errors| && errors[k] == p;
      assert k >= |before|;
    }
    if cycles != [] {
      assert errors[|before|] == DependencyCycle(cycles[0]);
    }
  }

  lemma NoCycleYet(found: seq<Problem>, step: RawStep, ids: seq<StepId>, company: Company)
    requires forall p :: p in found <==> Breaks(p, step, ids, company)
    ensures forall p :: p in found ==> !p.DependencyCycle? && !p.DuplicateIds?
  {
  }

  lemma OneMoreChecked(errors: seq<Problem>, found: seq<Problem>, steps: seq<RawStep>, i: nat, company: Company)
    requires i < |steps|
    requires forall p :: p in found <==> Breaks(p, steps[i], Ids(steps), company)
    requires forall p: Problem | !p.DependencyCycle? :: p in errors <==> IsPlanFault(p, steps[..i], steps, company)
    requires forall p :: p in found ==> !p.DependencyCycle? && !p.DuplicateIds?
    ensures forall p: Problem | !p.DependencyCycle? ::
      p in errors + found <==> IsPlanFault(p, steps[..i + 1], steps, company)
  {
    hide Breaks, Distinct;
    assert steps[..i + 1] == steps[..i] + [steps[i]];
    forall p: Problem | !p.DependencyCycle? && !p.DuplicateIds?
      ensures p in errors + found <==> IsPlanFault(p, steps[..i + 1], steps, company)
    {
      assert p in errors <==> exists step :: step in steps[..i] && Breaks(p, step, Ids(steps), company);
    }
  }
}
