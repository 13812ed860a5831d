/** What the admission check's search looks for: no step may depend on itself, through however many
    others. The checks themselves speak of a rank; here the two are shown to be one condition. */
module Cycles {
  import opened Outcomes
  import opened Workflows

  /** With distinct ids the graph is the steps' own dependency relation. */
  lemma {:induction false} GraphIsSteps(steps: seq<RawStep>)
    requires Distinct(Ids(steps))
    ensures forall id :: id in GraphOf(steps) <==> exists i | 0 <= i < |steps| :: steps[i].id == id
    ensures forall i | 0 <= i < |steps| ::
      steps[i].id in GraphOf(steps) && GraphOf(steps)[steps[i].id] == steps[i].Dependencies()
  {
    if steps != [] {
      var front := Front(steps);
      assert forall i | 0 <= i < |front| :: Ids(front)[i] == Ids(steps)[i];
      GraphIsSteps(front);
      forall i | 0 <= i < |front| ensures steps[i].id != Last(steps).id {
        assert Ids(steps)[i] != Ids(steps)[|steps| - 1];
      }
    }
  }

  /** Step `a` names step `b` among its dependencies. */
  predicate Lists(steps: seq<RawStep>, a: StepId, b: StepId) {
    exists raw | raw in steps :: raw.id == a && b in raw.Dependencies()
  }

  /** A chain of dependencies that comes back to the step it set out from. */
  predicate IsCircular(steps: seq<RawStep>, path: seq<StepId>) {
    |path| > 1 && path[0] == Last(path) && forall i | 0 < i < |path| :: Lists(steps, path[i - 1], path[i])
  }

  lemma EdgeGoesDown(graph: Graph, rank: map<StepId, nat>, n: StepId, d: StepId)
    requires IsRank(graph, rank) && d in Dependencies(graph, n)
    ensures n in rank && d in rank && rank[d] < rank[n]
  {
  }

  lemma {:induction false} WalksGoDown(graph: Graph, rank: map<StepId, nat>, path: seq<StepId>)
    requires IsRank(graph, rank) && IsWalk(graph, path)
    ensures path[0] in rank && Last(path) in rank && rank[Last(path)] < rank[path[0]]
  {
    var front := Front(path);
    EdgeGoesDown(graph, rank, path[|path| - 2], path[|path| - 1]);
    if |front| > 1 {
      WalksGoDown(graph, rank, front);
    }
  }

  ghost predicate LeadsTo(graph: Graph, a: StepId, b: StepId) {
    exists path :: IsWalk(graph, path) && path[0] == a && Last(path) == b
  }

  ghost predicate HasLoop(graph: Graph) {
    exists n :: LeadsTo(graph, n, n)
  }

  function Nodes(graph: Graph): set<StepId> {
    graph.Keys + set n, d | n in graph && d in graph[n] :: d
  }

  ghost function Reach(graph: Graph, n: StepId): set<StepId> {
    set b | b in Nodes(graph) && LeadsTo(graph, n, b)
  }

  lemma EdgeLeads(graph: Graph, n: StepId, d: StepId, b: StepId)
    requires n in graph && d in graph[n]
    ensures d in Nodes(graph) && LeadsTo(graph, n, d)
    ensures LeadsTo(graph, d, b) ==> LeadsTo(graph, n, b)
  {
    assert IsWalk(graph, [n, d]);
    if LeadsTo(graph, d, b) {
      var path :| IsWalk(graph, path) && path[0] == d && Last(path) == b;
      var longer := [n] + path;
      forall i | 0 < i < |longer| ensures longer[i] in Dependencies(graph, longer[i - 1]) {
        if i > 1 {
          assert path[i - 1] in Dependencies(graph, path[i - 2]);
        }
      }
      assert IsWalk(graph, longer);
    }
  }

  /** Without a loop, the number of nodes a node leads to is a rank. */
  lemma LooplessIsAcyclic(graph: Graph)
    requires !HasLoop(graph)
    ensures Acyclic(graph)
  {
    var rank := map n | n in Nodes(graph) :: |Reach(graph, n)|;
    forall n, d | n in graph && d in graph[n] ensures n in rank && d in rank && rank[d] < rank[n] {
      EdgeLeads(graph, n, d, d);
      forall b | b in Reach(graph, d) ensures b in Reach(graph, n) {
        EdgeLeads(graph, n, d, b);
      }
      assert d in Reach(graph, n) && d !in Reach(graph, d);
      SmallerSet(Reach(graph, d), Reach(graph, n));
    }
    assert IsRank(graph, rank);
  }

  /** What the admission check refuses: the dependencies of a list of steps with distinct ids have a rank
      exactly when no step depends on itself, through however many others. */
  lemma AcyclicMeansNoCircle(steps: seq<RawStep>)
    requires Distinct(Ids(steps))
    ensures Acyclic(GraphOf(steps)) <==> !exists path :: IsCircular(steps, path)
  {
    var graph := GraphOf(steps);
    forall path ensures IsCircular(steps, path) <==> IsWalk(graph, path) && path[0] == Last(path) {
      SameWalks(steps, path);
    }
    if Acyclic(graph) {
      var rank :| IsRank(graph, rank);
      forall path | IsWalk(graph, path) ensures path[0] != Last(path) {
        WalksGoDown(graph, rank, path);
      }
    } else if !exists path :: IsCircular(steps, path) {
      LooplessIsAcyclic(graph);
    }
  }

  lemma SameWalks(steps: seq<RawStep>, path: seq<StepId>)
    requires Distinct(Ids(steps))
    ensures IsCircular(steps, path) <==> IsWalk(GraphOf(steps), path) && path[0] == Last(path)
  {
    GraphIsSteps(steps);
    hide GraphOf;
    forall i | 0 < i < |path|
      ensures Lists(steps, path[i - 1], path[i]) <==> path[i] in Dependencies(GraphOf(steps), path[i - 1])
    {
      ListsIsEdge(steps, path[i - 1], path[i]);
    }
  }

  lemma ListsIsEdge(steps: seq<RawStep>, a: StepId, b: StepId)
    requires Distinct(Ids(steps))
    ensures Lists(steps, a, b) <==> b in Dependencies(GraphOf(steps), a)
  {
    GraphIsSteps(steps);
    if raw :| raw in steps && raw.id == a && b in raw.Dependencies() {
      var i :| 0 <= i < |steps| && steps[i] == raw;
    }
    if b in Dependencies(GraphOf(steps), a) {
      var i :| 0 <= i < |steps| && steps[i].id == a;
      assert steps[i] in steps;
    }
  }
}
