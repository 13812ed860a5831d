/** The human gate over whole runs: yellow work never runs without its own approval, and red work
    never runs at all. */
module RunGate {
  import opened Outcomes
  import opened Workflows
  import opened RunModel
  import opened RunInvariants
  import opened Approvals

  function StatusAt(row: Row, id: StepId): Option<StepStatus> {
    if id in row.steps then Some(row.steps[id].status) else None
  }

  ghost predicate IsYellow(row: Row, id: StepId) {
    id in row.steps && row.steps[id].risk.Yellow?
  }

  lemma VerbGates(v: Verb, id: StepId, step: Step, row: Row, e: Env)
    requires EvidencePresent(v, e) && VerbEffect(v, id, step, row, e).Ok?
    requires step.risk.Yellow? && StepOk(step, row.runId, row.number)
    ensures var next := VerbEffect(v, id, step, row, e).value.step;
      && (next.status == InProgress ==> step.status == InProgress || v.Approve?)
      && (next.status == Completed && step.checker.None? ==> v.Complete? && step.status == InProgress)
  {
  }

  /** Yellow work starts only on an approval, and ends only from in progress. */
  lemma GateStep(log: Log, i: nat, id: StepId)
    requires log != [] && Reached(log) && 0 < i < |log| && IsYellow(log[i - 1], id)
    ensures IsYellow(log[i], id)
    ensures StatusAt(log[i], id) == Some(InProgress) && StatusAt(log[i - 1], id) != Some(InProgress) ==>
      log[i].event == StepApproved && log[i].target == id
    ensures StatusAt(log[i], id) == Some(Completed) && StatusAt(log[i - 1], id) != Some(Completed) ==>
      log[i].event == StepCompleted && log[i].target == id && StatusAt(log[i - 1], id) == Some(InProgress)
  {
    hide Reached, RowOk, Successor, VerbEffect;
    var a := NeighbourAction(log, i);
    var f := Between(log[i - 1], a, id);
    assert SameShape(log[i - 1].steps[id], log[i].steps[id]);
    YellowHasNoChecker(log[i - 1], id);
    if ActsOn(log[i - 1], a, id) {
      VerbGates(a.command.verb, id, log[i - 1].steps[id], log[i - 1], a.env);
    }
  }

  lemma YellowHasNoChecker(row: Row, id: StepId)
    requires RowOk(row) && IsYellow(row, id)
    ensures row.steps[id].checker.None? && StepOk(row.steps[id], row.runId, row.number)
  {
    assert StepOk(row.steps[id], row.runId, row.number);
  }

  lemma YellowAlways(log: Log, i: nat, j: nat, id: StepId)
    requires log != [] && Reached(log) && i < |log| && j < |log| && IsYellow(log[i], id)
    ensures IsYellow(log[j], id)
  {
    hide Reached;
    ShapesStay(log, if i <= j then i else j, if i <= j then j else i);
    assert if i <= j then SameShape(log[i].steps[id], log[j].steps[id])
           else SameShape(log[j].steps[id], log[i].steps[id]);
  }

  /** Every stretch a yellow step spends in progress begins with its own approval: going back from
      any row in which it is in progress, it has been so without a break since an approval of it. */
  lemma {:induction false} StretchBeginsWithApproval(log: Log, n: nat, id: StepId) returns (i: nat)
    requires log != [] && Reached(log) && n < |log|
    requires IsYellow(log[n], id) && StatusAt(log[n], id) == Some(InProgress)
    ensures 0 < i <= n && log[i].event == StepApproved && log[i].target == id
    ensures forall j | i <= j <= n :: StatusAt(log[j], id) == Some(InProgress)
  {
    hide Reached;
    FirstRow(log, id);
    YellowAlways(log, n, if n > 0 then n - 1 else 0, id);
    GateStep(log, n, id);
    if StatusAt(log[n - 1], id) == Some(InProgress) {
      i := StretchBeginsWithApproval(log, n - 1, id);
    } else {
      i := n;
    }
  }

  /** No yellow work is ever done ungoverned: a completed yellow step was completed straight out of a
      stretch in progress that a person's approval of that step had begun. */
  lemma {:induction false} DoneMeansApproved(log: Log, n: nat, id: StepId) returns (i: nat, m: nat)
    requires log != [] && Reached(log) && n < |log|
    requires IsYellow(log[n], id) && StatusAt(log[n], id) == Some(Completed)
    ensures 0 < i < m <= n && log[i].event == StepApproved && log[i].target == id
    ensures log[m].event == StepCompleted && log[m].target == id
    ensures forall j | i <= j < m :: StatusAt(log[j], id) == Some(InProgress)
  {
    hide Reached;
    FirstRow(log, id);
    YellowAlways(log, n, if n > 0 then n - 1 else 0, id);
    GateStep(log, n, id);
    if StatusAt(log[n - 1], id) == Some(Completed) {
      i, m := DoneMeansApproved(log, n - 1, id);
    } else {
      m := n;
      i := StretchBeginsWithApproval(log, n - 1, id);
    }
  }

  /** Red work is never automated: a red step never starts, its run never completes, and everything
      downstream of it stays pending in every row the run will ever have. */
  lemma RedNeverRuns(log: Log, n: nat, id: StepId)
    requires log != [] && Reached(log) && n < |log|
    requires id in log[n].steps && log[n].steps[id].risk.Red?
    ensures forall j | 0 <= j < |log| ::
      && (StatusAt(log[j], id) == Some(Pending) || StatusAt(log[j], id) == Some(Ready)
        || StatusAt(log[j], id) == Some(BlockedHuman))
      && log[j].status != RunCompleted
      && forall b | b in Downstream(log[n].steps, id) :: StatusAt(log[j], b) == Some(Pending)
  {
    hide Reached;
    forall j | 0 <= j < |log|
      ensures (StatusAt(log[j], id) == Some(Pending) || StatusAt(log[j], id) == Some(Ready)
        || StatusAt(log[j], id) == Some(BlockedHuman))
      ensures log[j].status != RunCompleted
      ensures forall b | b in Downstream(log[n].steps, id) :: StatusAt(log[j], b) == Some(Pending)
    {
      RedRow(log, n, j, id);
      forall b | b in Downstream(log[n].steps, id) ensures StatusAt(log[j], b) == Some(Pending) {
        RedBlocks(log, n, j, id, b);
      }
    }
  }

  lemma RedRow(log: Log, n: nat, j: nat, id: StepId)
    requires log != [] && Reached(log) && n < |log| && j < |log|
    requires id in log[n].steps && log[n].steps[id].risk.Red?
    ensures (StatusAt(log[j], id) == Some(Pending) || StatusAt(log[j], id) == Some(Ready)
      || StatusAt(log[j], id) == Some(BlockedHuman))
    ensures log[j].status != RunCompleted
  {
    hide Reached, GraphOk, PendingIsBlocked, MoneyAddsUp, CountersOk;
    if n <= j { ShapesStay(log, n, j); } else { ShapesStay(log, j, n); }
    assert id in log[j].steps && log[j].steps[id].risk.Red? by {
      if n <= j { assert SameShape(log[n].steps[id], log[j].steps[id]); }
      else { assert SameShape(log[j].steps[id], log[n].steps[id]); }
    }
    RowsAreOk(log, j);
    assert StepOk(log[j].steps[id], log[j].runId, log[j].number);
  }

  lemma RedBlocks(log: Log, n: nat, j: nat, id: StepId, b: StepId)
    requires log != [] && Reached(log) && n < |log| && j < |log|
    requires id in log[n].steps && log[n].steps[id].risk.Red? && b in Downstream(log[n].steps, id)
    ensures StatusAt(log[j], b) == Some(Pending)
  {
    hide Reached;
    RedRow(log, n, j, id);
    var k: nat :| Chain(log[n].steps, id, b, k);
    if n <= j {
      ShapesStay(log, n, j);
    } else {
      ShapesStay(log, j, n);
      SameShapesSwap(log[j].steps, log[n].steps);
    }
    SameChains(log[n].steps, log[j].steps, id, b, k);
    RowsAreOk(log, j);
    ChainIsPending(log[j], id, b, k);
  }

  lemma SameShapesSwap(a: Steps, b: Steps)
    requires SameShapes(a, b)
    ensures SameShapes(b, a)
  {
    forall id | id in b ensures SameShape(b[id], a[id]) {
      assert SameShape(a[id], b[id]);
    }
  }
}
