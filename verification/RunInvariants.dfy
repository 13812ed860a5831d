/** What every row of every reachable log satisfies. A verb changes one step, so most of the work is
    a local law about that step; `Commit` then carries it to the whole run. */
module RunInvariants {
  import opened Outcomes
  import opened Workflows
  import opened RunModel

  predicate IsMovable(status: StepStatus) {
    status == Ready || status == InProgress || status == AwaitingApproval || status == AwaitingCheck
  }

  /** The run status a step's own status forces on its run. */
  function EndOf(status: StepStatus): RunStatus {
    match status
    case Rejected => RunRejected
    case BlockedHuman => RunBlockedHuman
    case BlockedRetryLimit => RunBlockedRetryLimit
    case BlockedReviewLimit => RunBlockedReviewLimit
    case RejectedByChecker => RunRejectedByChecker
    case _ => Active
  }

  /** The limits an admitted workflow gives a step. */
  predicate LimitsOk(step: Step) {
    && 1 <= step.maxAttempts <= 5
    && (step.checker.None? ==> step.maxReviewCycles == 0)
    && (step.checker.Some? ==> step.risk.Green? && step.maxReviewCycles + 2 <= step.maxAttempts)
  }

  /** An attempt is out on the step, or was spent on what now stands. */
  predicate IsSpent(status: StepStatus) {
    match status
    case Pending => false
    case Ready => false
    case BlockedHuman => false
    case BlockedRetryLimit => false
    case _ => true
  }

  /** Attempts that neither a review return nor the work now standing accounts for. */
  function Balance(step: Step): int {
    step.attempts - step.reviewCycles - if IsSpent(step.status) then 1 else 0
  }

  predicate CountersOk(step: Step) {
    && step.reviewCycles <= step.maxReviewCycles
    && step.attempts <= step.maxAttempts
    && (step.risk.Green? ==> Balance(step) >= 0)
    && (!step.risk.Green? ==> step.attempts == 0)
    && (step.status == Pending ==> step.attempts == 0 && step.releases == 0 && step.reviewCycles == 0)
    && (step.status == BlockedRetryLimit ==> step.risk.Green? && step.attempts == step.maxAttempts)
    && (step.status == BlockedReviewLimit ==> step.reviewCycles == step.maxReviewCycles)
  }

  predicate StatusOk(step: Step) {
    && (step.risk.Red? ==> step.status == Pending || step.status == Ready || step.status == BlockedHuman)
    && (step.status == BlockedHuman ==> step.risk.Red?)
    && (step.status == AwaitingCheck || step.status == BlockedReviewLimit || step.status == RejectedByChecker ==>
          step.checker.Some?)
    && (step.status == AwaitingCheck ==> step.submissions != [])
    && (step.status == AwaitingApproval && step.risk.Green? ==> step.held != NotHeld)
    && (step.held.Budget? ==> step.status == AwaitingApproval || step.status == Rejected)
  }

  /** Only a step in progress carries a claim, and its token names an event of this run. */
  predicate ClaimOk(step: Step, run: string, number: nat) {
    && (step.token != NoToken || step.holder != "" ==> step.status == InProgress)
    && (step.token != NoToken ==> step.token.run == run && step.token.at <= number)
  }

  predicate StepOk(step: Step, run: string, number: nat) {
    LimitsOk(step) && CountersOk(step) && StatusOk(step) && ClaimOk(step, run, number)
  }

  predicate SameShape(a: Step, b: Step) {
    && a.owner == b.owner && a.checker == b.checker && a.maxReviewCycles == b.maxReviewCycles
    && a.action == b.action && a.risk == b.risk && a.maxAttempts == b.maxAttempts && a.dependsOn == b.dependsOn
  }

  /** The local law: an accepted verb leaves a movable step in another legal condition, and asks for
      exactly the run status that condition forces. */
  predicate Moves(old': Step, f: Effect, run: string, number: nat) {
    && IsMovable(old'.status)
    && f.step.status != Pending
    && StepOk(f.step, run, number)
    && SameShape(old', f.step)
    && f.step.spend == old'.spend
    && f.status == EndOf(f.step.status)
  }

  lemma VerbMoves(v: Verb, id: StepId, step: Step, row: Row, e: Env)
    requires EvidencePresent(v, e)
    requires StepOk(step, row.runId, row.number)
    requires VerbEffect(v, id, step, row, e).Ok?
    ensures Moves(step, VerbEffect(v, id, step, row, e).value, row.runId, row.number + 1)
  {
    if v.Hold? || v.Complete? {
      HandInMoves(v, id, step, row, e);
    } else if v.Fail? || v.Release? {
      GiveBackMoves(v, id, step, row, e);
    } else if v.CheckApprove? || v.CheckReturn? || v.CheckReject? {
      ReviewMoves(v, id, step, row, e);
    } else if v.Take? || v.Renew? || v.Expire? {
      LeaseMoves(v, id, step, row, e);
    } else if v.Request? {
      RequestMoves(v, id, step, row, e);
    } else {
      DecisionMoves(v, id, step, row, e);
    }
  }

  lemma LeaseMoves(v: Verb, id: StepId, step: Step, row: Row, e: Env)
    requires v.Take? || v.Renew? || v.Expire?
    requires StepOk(step, row.runId, row.number)
    requires VerbEffect(v, id, step, row, e).Ok?
    ensures Moves(step, VerbEffect(v, id, step, row, e).value, row.runId, row.number + 1)
  {
  }

  lemma RequestMoves(v: Verb, id: StepId, step: Step, row: Row, e: Env)
    requires v.Request? && StepOk(step, row.runId, row.number)
    requires VerbEffect(v, id, step, row, e).Ok?
    ensures Moves(step, VerbEffect(v, id, step, row, e).value, row.runId, row.number + 1)
  {
  }

  lemma DecisionMoves(v: Verb, id: StepId, step: Step, row: Row, e: Env)
    requires (v.Approve? || v.Reject?) && StepOk(step, row.runId, row.number)
    requires VerbEffect(v, id, step, row, e).Ok?
    ensures Moves(step, VerbEffect(v, id, step, row, e).value, row.runId, row.number + 1)
  {
  }

  lemma HandInMoves(v: Verb, id: StepId, step: Step, row: Row, e: Env)
    requires (v.Hold? || v.Complete?) && EvidencePresent(v, e)
    requires StepOk(step, row.runId, row.number)
    requires VerbEffect(v, id, step, row, e).Ok?
    ensures Moves(step, VerbEffect(v, id, step, row, e).value, row.runId, row.number + 1)
  {
  }

  lemma GiveBackMoves(v: Verb, id: StepId, step: Step, row: Row, e: Env)
    requires v.Fail? || v.Release?
    requires StepOk(step, row.runId, row.number)
    requires VerbEffect(v, id, step, row, e).Ok?
    ensures Moves(step, VerbEffect(v, id, step, row, e).value, row.runId, row.number + 1)
  {
  }

  lemma ReviewMoves(v: Verb, id: StepId, step: Step, row: Row, e: Env)
    requires v.CheckApprove? || v.CheckReturn? || v.CheckReject?
    requires StepOk(step, row.runId, row.number)
    requires VerbEffect(v, id, step, row, e).Ok?
    ensures Moves(step, VerbEffect(v, id, step, row, e).value, row.runId, row.number + 1)
  {
    hide SubmissionRefused, MessageRefused;
  }

  // --- the whole row ------------------------------------------------------------------------

  function GraphOfRun(steps: Steps): Graph {
    map id | id in steps :: steps[id].dependsOn
  }

  ghost predicate StepsOk(row: Row) {
    forall id | id in row.steps :: StepOk(row.steps[id], row.runId, row.number)
  }

  /** Dependencies are steps of the run, and they are ranked. */
  ghost predicate GraphOk(steps: Steps) {
    && steps != map[]
    && (forall id, d | id in steps && d in steps[id].dependsOn :: d in steps)
    && Acyclic(GraphOfRun(steps))
  }

  /** A step is pending exactly while some dependency of it is not completed. */
  ghost predicate PendingIsBlocked(steps: Steps) {
    forall id | id in steps :: steps[id].status == Pending <==> !AllDone(steps, steps[id].dependsOn)
  }

  predicate IsStopped(status: RunStatus) {
    status != Active && status != RunBlockedCycleLimit && status != RunCancelled && status != RunCompleted
  }

  /** The run's status is the one its steps force. */
  ghost predicate StatusIsForced(row: Row) {
    && (row.status == RunCompleted <==> AllCompleted(row.steps))
    && (forall id | id in row.steps ::
          EndOf(row.steps[id].status) == Active || EndOf(row.steps[id].status) == row.status)
    && (IsStopped(row.status) ==> exists id :: id in row.steps && EndOf(row.steps[id].status) == row.status)
  }

  predicate CyclesOk(row: Row) {
    1 <= row.number && row.cycleCount <= row.maxCycles && 1 <= row.maxCycles <= 100
  }

  ghost function Spends(steps: Steps): map<StepId, int> {
    map id | id in steps :: steps[id].spend
  }

  /** Every micro-dollar of the run is the planning seed or some step's. */
  ghost predicate MoneyAddsUp(row: Row) {
    row.spend == row.planning + Sum(Spends(row.steps))
  }

  ghost predicate RowOk(row: Row) {
    && StepsOk(row) && GraphOk(row.steps) && PendingIsBlocked(row.steps) && StatusIsForced(row)
    && CyclesOk(row) && MoneyAddsUp(row)
  }

  ghost predicate SameShapes(a: Steps, b: Steps) {
    a.Keys == b.Keys && forall id | id in a :: SameShape(a[id], b[id])
  }

  lemma ShapeKeepsGraph(a: Steps, b: Steps)
    requires SameShapes(a, b) && GraphOk(a)
    ensures GraphOk(b)
  {
    assert GraphOfRun(a) == GraphOfRun(b);
    forall id, d | id in b && d in b[id].dependsOn ensures d in b {
      assert SameShape(a[id], b[id]);
    }
    assert b.Keys != {};
  }

  // --- committing one step's effect ---------------------------------------------------------

  /** One step of the run moves by the local law. */
  ghost predicate Fits(row: Row, id: StepId, f: Effect) {
    id in row.steps && Moves(row.steps[id], f, row.runId, row.number + 1)
  }

  lemma StepAfter(steps: Steps, id: StepId, f: Effect, other: StepId)
    requires id in steps && other in steps && f.step.status != Pending
    ensures other in StepsAfter(steps, id, f)
    ensures other == id ==> StepsAfter(steps, id, f)[id] == Charged(f)
    ensures other != id ==>
      || StepsAfter(steps, id, f)[other] == steps[other]
      || (steps[other].status == Pending && StepsAfter(steps, id, f)[other] == steps[other].(status := Ready))
  {
  }

  lemma CommitKeepsSteps(row: Row, id: StepId, f: Effect)
    requires StepsOk(row) && Fits(row, id, f)
    ensures SameShapes(row.steps, StepsAfter(row.steps, id, f))
    ensures forall k | k in row.steps :: StepOk(StepsAfter(row.steps, id, f)[k], row.runId, row.number + 1)
  {
    var after := StepsAfter(row.steps, id, f);
    forall k | k in row.steps
      ensures SameShape(row.steps[k], after[k]) && StepOk(after[k], row.runId, row.number + 1)
    {
      StepAfter(row.steps, id, f, k);
      assert StepOk(row.steps[k], row.runId, row.number);
    }
  }

  lemma SpendAfter(steps: Steps, id: StepId, f: Effect)
    requires id in steps && f.step.status != Pending && f.step.spend == steps[id].spend
    ensures Sum(Spends(StepsAfter(steps, id, f))) == Sum(Spends(steps)) + f.charge
  {
    var after := StepsAfter(steps, id, f);
    var due := steps[id].spend + f.charge;
    forall k | k in steps ensures after[k].spend == if k == id then due else steps[k].spend {
      StepAfter(steps, id, f, k);
    }
    assert Spends(after) == Spends(steps)[id := due];
    SumUpdate(Spends(steps), id, due);
  }

  lemma CommitKeepsMoney(row: Row, id: StepId, f: Effect)
    requires MoneyAddsUp(row) && Fits(row, id, f)
    ensures MoneyAddsUp(Commit(row, id, f))
  {
    SpendAfter(row.steps, id, f);
  }

  /** Completing one step frees exactly the steps it was the last to block. */
  lemma CommitKeepsPending(row: Row, id: StepId, f: Effect)
    requires PendingIsBlocked(row.steps) && Fits(row, id, f)
    ensures PendingIsBlocked(StepsAfter(row.steps, id, f))
  {
    var before := row.steps;
    var changed := before[id := Charged(f)];
    var after := StepsAfter(before, id, f);
    forall k | k in before ensures after[k].status == Completed <==> changed[k].status == Completed {
    }
    forall k | k in before
      ensures after[k].status == Pending <==> !AllDone(after, after[k].dependsOn)
    {
      var deps := before[k].dependsOn;
      assert AllDone(after, deps) <==> AllDone(changed, deps);
      if id !in deps || f.step.status != Completed {
        assert AllDone(before, deps) <==> AllDone(changed, deps) by {
          assert !IsDone(before, id);
        }
      }
      assert before[k].status == Pending <==> !AllDone(before, deps);
    }
  }

  lemma CommitKeepsStatus(row: Row, id: StepId, f: Effect)
    requires StatusIsForced(row) && Fits(row, id, f) && row.status == Active
    ensures StatusIsForced(Commit(row, id, f))
  {
    var next := Commit(row, id, f);
    forall k | k in row.steps
      ensures k != id ==> EndOf(next.steps[k].status) == Active
    {
      StepAfter(row.steps, id, f, k);
    }
    StepAfter(row.steps, id, f, id);
    assert next.steps[id].status == f.step.status;
    hide StepOk, StepsAfter, SameShape;
  }

  lemma CommitKeepsRow(row: Row, id: StepId, f: Effect)
    requires RowOk(row) && Fits(row, id, f) && row.status == Active
    ensures RowOk(Commit(row, id, f).(number := row.number + 1))
  {
    CommitKeepsSteps(row, id, f);
    ShapeKeepsGraph(row.steps, StepsAfter(row.steps, id, f));
    CommitKeepsMoney(row, id, f);
    CommitKeepsPending(row, id, f);
    CommitKeepsStatus(row, id, f);
    var next := Commit(row, id, f).(number := row.number + 1);
    assert StepsOk(next);
    assert MoneyAddsUp(next) && StatusIsForced(next);
  }

  // --- the rows that change no step's work --------------------------------------------------

  lemma {:induction false} LaterNumber(row: Row, number: nat)
    requires StepsOk(row) && row.number <= number
    ensures StepsOk(row.(number := number))
  {
    forall id | id in row.steps ensures StepOk(row.steps[id], row.runId, number) {
      assert StepOk(row.steps[id], row.runId, row.number);
    }
  }

  lemma UnclaimedKeepsSteps(row: Row)
    requires StepsOk(row)
    ensures StepsOk(CancelChange(row).(number := row.number + 1))
    ensures SameShapes(row.steps, CancelChange(row).steps)
    ensures Spends(row.steps) == Spends(CancelChange(row).steps)
  {
    hide StepOk, SameShape, Unclaimed;
    var next := CancelChange(row);
    forall id | id in row.steps
      ensures StepOk(next.steps[id], row.runId, row.number + 1)
      ensures SameShape(row.steps[id], next.steps[id]) && next.steps[id].spend == row.steps[id].spend
    {
      UnclaimedIsOk(row.steps[id], row.runId, row.number);
    }
  }

  lemma UnclaimedIsOk(step: Step, run: string, number: nat)
    requires StepOk(step, run, number)
    ensures StepOk(Unclaimed(step), run, number + 1) && SameShape(step, Unclaimed(step))
    ensures Unclaimed(step).spend == step.spend && Unclaimed(step).status == step.status
  {
  }

  lemma SameStatusesKeepPending(a: Steps, b: Steps)
    requires SameShapes(a, b) && PendingIsBlocked(a)
    requires forall id | id in a :: a[id].status == b[id].status
    ensures PendingIsBlocked(b)
  {
    forall id | id in b ensures b[id].status == Pending <==> !AllDone(b, b[id].dependsOn) {
      assert SameShape(a[id], b[id]);
      forall d | d in a[id].dependsOn ensures IsDone(b, d) == IsDone(a, d) {
      }
    }
  }

  lemma CancelSuccessorKeepsRow(row: Row, a: Action)
    requires RowOk(row) && Successor(row, a).Some?
    requires a.Ask? && row.cycleCount < row.maxCycles && a.command.Cancel?
    ensures RowOk(Successor(row, a).value)
    ensures SameShapes(row.steps, Successor(row, a).value.steps)
  {
    CancelSuccessor(row, a);
    hide Successor;
    CancelKeepsBooks(row, Successor(row, a).value);
  }

  lemma CancelKeepsBooks(row: Row, next: Row)
    requires RowOk(row) && row.status == Active
    requires next.steps == CancelChange(row).steps && next.status == RunCancelled
    requires next.runId == row.runId && next.number == row.number + 1 && CyclesOk(next)
    requires next.spend == row.spend && next.planning == row.planning
    ensures RowOk(next) && SameShapes(row.steps, next.steps)
  {
    hide StepOk, GraphOk, PendingIsBlocked, SameShape, AllDone, IsDone;
    UnclaimedKeepsSteps(row);
    ShapeKeepsGraph(row.steps, next.steps);
    SameStatusesKeepPending(row.steps, next.steps);
    CancelStatus(row, next);
    assert StepsOk(next) by {
      assert StepsOk(CancelChange(row).(number := row.number + 1));
    }
    hide StatusIsForced, StepsOk;
  }

  lemma CancelStatus(row: Row, next: Row)
    requires StatusIsForced(row) && row.status == Active
    requires next.steps == CancelChange(row).steps && next.status == RunCancelled
    ensures StatusIsForced(next)
  {
    hide ReleaseClaim;
    forall id | id in row.steps ensures next.steps[id].status == row.steps[id].status {
      UnclaimedStatus(row.steps[id]);
    }
  }

  lemma UnclaimedStatus(step: Step)
    ensures Unclaimed(step).status == step.status
  {
  }

  /** The run's whole bookkeeping survives every accepted request, the ceiling and an extension. */
  lemma SuccessorKeepsRow(row: Row, a: Action)
    requires RowOk(row) && Successor(row, a).Some?
    ensures RowOk(Successor(row, a).value)
    ensures SameShapes(row.steps, Successor(row, a).value.steps)
  {
    hide *;
    if a.Ask? && row.cycleCount < row.maxCycles && a.command.OnStep? {
      StepSuccessorKeepsRow(row, a);
    } else if a.Ask? && row.cycleCount < row.maxCycles && a.command.Cancel? {
      CancelSuccessorKeepsRow(row, a);
    } else {
      IdleSuccessorKeepsRow(row, a);
    }
  }

  lemma StepSuccessorKeepsRow(row: Row, a: Action)
    requires RowOk(row) && Successor(row, a).Some?
    requires a.Ask? && row.cycleCount < row.maxCycles && a.command.OnStep?
    ensures RowOk(Successor(row, a).value)
    ensures SameShapes(row.steps, Successor(row, a).value.steps)
  {
    var id, f := StepSuccessor(row, a);
    hide Successor;
    CommitKeepsRow(row, id, f);
    CommitKeepsSteps(row, id, f);
    SameExceptStamp(Commit(row, id, f).(number := row.number + 1), Successor(row, a).value);
  }

  /** An accepted step verb is a committed effect that obeys the local law. */
  lemma StepSuccessor(row: Row, a: Action) returns (id: StepId, f: Effect)
    requires StepsOk(row) && Successor(row, a).Some?
    requires a.Ask? && row.cycleCount < row.maxCycles && a.command.OnStep?
    ensures id == a.command.step && id in row.steps && row.status == Active && EvidencePresent(a.command.verb, a.env)
    ensures VerbEffect(a.command.verb, id, row.steps[id], row, a.env) == Ok(f) && Fits(row, id, f)
    ensures Successor(row, a).value == Stamped(Commit(row, id, f), a.rid, a.command, a.env)
    ensures Successor(row, a).value.steps == StepsAfter(row.steps, id, f)
    ensures Successor(row, a).value.event == EventOf(a.command) && Successor(row, a).value.target == id
  {
    id := a.command.step;
    f := VerbEffect(a.command.verb, id, row.steps[id], row, a.env).value;
    assert StepOk(row.steps[id], row.runId, row.number);
    VerbMoves(a.command.verb, id, row.steps[id], row, a.env);
  }

  lemma IdleSuccessorKeepsRow(row: Row, a: Action)
    requires RowOk(row) && Successor(row, a).Some?
    requires a.Ask? && row.cycleCount < row.maxCycles ==> a.command.Send?
    ensures RowOk(Successor(row, a).value)
    ensures SameShapes(row.steps, Successor(row, a).value.steps)
  {
    IdleSuccessor(row, a);
    IdleKeepsBooks(row, Successor(row, a).value);
  }

  /** Messages, the cycle ceiling and an extension touch no step and no money. */
  lemma IdleSuccessor(row: Row, a: Action)
    requires CyclesOk(row) && Successor(row, a).Some?
    requires a.Ask? && row.cycleCount < row.maxCycles ==> a.command.Send?
    ensures var next := Successor(row, a).value;
      && next.steps == row.steps && next.spend == row.spend && next.planning == row.planning
      && next.runId == row.runId && next.number == row.number + 1 && CyclesOk(next) && next.ceiling == row.ceiling
      && (next.status == row.status || (row.status == Active && next.status == RunBlockedCycleLimit)
          || (row.status == RunBlockedCycleLimit && next.status == Active))
      && (next.event == MessageSent || next.event == CycleLimitHit || next.event == BudgetExtended)
  {
  }

  lemma CancelSuccessor(row: Row, a: Action)
    requires CyclesOk(row) && Successor(row, a).Some?
    requires a.Ask? && row.cycleCount < row.maxCycles && a.command.Cancel?
    ensures var next := Successor(row, a).value;
      && next.steps == CancelChange(row).steps && next.spend == row.spend && next.planning == row.planning
      && next.runId == row.runId && next.number == row.number + 1 && CyclesOk(next) && next.ceiling == row.ceiling
      && next.status == RunCancelled && row.status == Active && next.event == Cancelled
  {
  }

  lemma IdleKeepsBooks(row: Row, next: Row)
    requires RowOk(row)
    requires next.steps == row.steps && next.spend == row.spend && next.planning == row.planning
    requires next.runId == row.runId && next.number == row.number + 1 && CyclesOk(next)
    requires next.status == row.status || (row.status == Active && next.status == RunBlockedCycleLimit)
          || (row.status == RunBlockedCycleLimit && next.status == Active)
    ensures RowOk(next) && SameShapes(row.steps, next.steps)
  {
    LaterNumber(row, next.number);
    assert StepsOk(next) by {
      assert StepsOk(row.(number := next.number));
    }
  }

  /** The stamp of a row is no part of the bookkeeping, except for the cycle it spends. */
  lemma SameExceptStamp(a: Row, b: Row)
    requires RowOk(a)
    requires b.steps == a.steps && b.runId == a.runId && b.number == a.number && b.status == a.status
    requires b.spend == a.spend && b.planning == a.planning
    requires CyclesOk(b)
    ensures RowOk(b)
  {
  }

  // --- the first row ------------------------------------------------------------------------

  lemma {:induction false} NewGraphIs(steps: seq<RawStep>, company: Company)
    requires forall raw | raw in steps :: raw.action in company.policy
    ensures GraphOfRun(NewSteps(steps, company)) == GraphOf(steps)
  {
    if steps != [] {
      var front, last := Front(steps), Last(steps);
      NewGraphIs(front, company);
      assert GraphOfRun(NewSteps(steps, company)) ==
        GraphOfRun(NewSteps(front, company))[last.id := last.Dependencies()];
    }
  }

  /** A new run's steps are the workflow's. */
  lemma {:induction false} NewStepsAre(steps: seq<RawStep>, company: Company)
    requires forall raw | raw in steps :: raw.action in company.policy
    ensures forall id | id in NewSteps(steps, company) :: exists raw | raw in steps ::
              raw.id == id && NewSteps(steps, company)[id] == NewStep(raw, company)
    ensures forall raw | raw in steps :: raw.id in NewSteps(steps, company)
  {
    hide NewStep;
    if steps != [] {
      var front, last := Front(steps), Last(steps);
      assert steps == front + [last];
      NewStepsAre(front, company);
      var before, after := NewSteps(front, company), NewSteps(steps, company);
      assert after == before[last.id := NewStep(last, company)];
      forall id | id in after ensures exists raw | raw in steps :: raw.id == id && after[id] == NewStep(raw, company) {
        if id != last.id {
          var raw :| raw in front && raw.id == id && before[id] == NewStep(raw, company);
          assert raw in steps;
        } else {
          assert last in steps;
        }
      }
    }
  }

  lemma NewStepIsOk(w: Workflow, company: Company, id: StepId)
    requires IsValid(w, company) && id in NewSteps(w.steps.value, company)
    ensures var step := NewSteps(w.steps.value, company)[id];
      && (forall run :: StepOk(step, run, 1)) && step.spend == 0
      && step.status == (if step.dependsOn == [] then Ready else Pending)
      && forall d | d in step.dependsOn :: d in Ids(w.steps.value)
  {
    var raws := w.steps.value;
    NewStepsAre(raws, company);
    var raw :| raw in raws && raw.id == id && NewSteps(raws, company)[id] == NewStep(raw, company);
    assert StepIsValid(raw, Ids(raws), company);
    RawStepIsOk(raw, Ids(raws), company);
  }

  lemma RawStepIsOk(raw: RawStep, ids: seq<StepId>, company: Company)
    requires StepIsValid(raw, ids, company)
    ensures forall run :: StepOk(NewStep(raw, company), run, 1)
    ensures forall d | d in NewStep(raw, company).dependsOn :: d in ids
  {
  }

  lemma NewStepsAreOk(w: Workflow, company: Company)
    requires IsValid(w, company)
    ensures var steps := NewSteps(w.steps.value, company);
      GraphOk(steps) && PendingIsBlocked(steps) && Sum(Spends(steps)) == 0 && !AllCompleted(steps)
  {
    var raws := w.steps.value;
    var steps := NewSteps(raws, company);
    NewGraphIs(raws, company);
    NewStepsAre(raws, company);
    assert raws[0].id in steps;
    NewStepIsOk(w, company, raws[0].id);
    forall id | id in steps
      ensures steps[id].spend == 0 && forall d | d in steps[id].dependsOn :: d in steps
      ensures steps[id].status == Pending <==> !AllDone(steps, steps[id].dependsOn)
    {
      NewStepIsOk(w, company, id);
      var deps := steps[id].dependsOn;
      forall d | d in deps ensures d in steps && !IsDone(steps, d) {
        var i :| 0 <= i < |raws| && Ids(raws)[i] == d;
        assert raws[i] in raws;
        NewStepIsOk(w, company, d);
      }
      if deps != [] {
        assert deps[0] in deps && !IsDone(steps, deps[0]);
      }
    }
    SumOfZeros(Spends(steps));
  }

  lemma NewRunIsOk(w: Workflow, company: Company, runId: string, revision: string, rid: string, actor: string,
                   planned: int, e: Env)
    requires IsValid(w, company)
    ensures RowOk(NewRun(w, company, runId, revision, rid, actor, planned, e))
  {
    var row := NewRun(w, company, runId, revision, rid, actor, planned, e);
    NewStepsAreOk(w, company);
    forall id | id in row.steps ensures StepOk(row.steps[id], runId, 1) && EndOf(row.steps[id].status) == Active {
      NewStepIsOk(w, company, id);
    }
    assert StepsOk(row) && StatusIsForced(row);
  }

  // --- every reachable row ------------------------------------------------------------------

  lemma {:induction false} LastIsOk(log: Log)
    requires Reached(log)
    ensures RowOk(Last(log))
    decreases |log|
  {
    if |log| == 1 {
      var row := log[0];
      var w, company, revision, planned, e :| IsValid(w, company)
        && row == NewRun(w, company, row.runId, revision, row.requestId, row.actor, planned, e);
      NewRunIsOk(w, company, row.runId, revision, row.requestId, row.actor, planned, e);
    } else {
      assert Grew(log);
      LastIsOk(Front(log));
      var a :| NextRow(Front(log), a) == Some(Last(log));
      NextIsSuccessor(Front(log), a);
      SuccessorKeepsRow(Last(Front(log)), a);
    }
  }

  /** Every prefix of a reachable log is itself reachable. */
  lemma {:induction false} PrefixIsReached(log: Log, n: nat)
    requires Reached(log) && 1 <= n <= |log|
    ensures Reached(log[..n])
    decreases |log|
  {
    if n < |log| {
      assert Grew(log);
      PrefixIsReached(Front(log), n);
      assert Front(log)[..n] == log[..n];
    } else {
      assert log[..n] == log;
    }
  }

  /** The bookkeeping holds in every row a run ever has. */
  lemma RowsAreOk(log: Log, i: nat)
    requires Reached(log) && i < |log|
    ensures RowOk(log[i])
  {
    hide Reached, RowOk;
    PrefixIsReached(log, i + 1);
    assert Last(log[..i + 1]) == log[i];
    LastIsOk(log[..i + 1]);
  }

  lemma StepIsOk(row: Row, id: StepId)
    requires RowOk(row) && id in row.steps
    ensures StepOk(row.steps[id], row.runId, row.number)
  {
  }

  lemma StepIsOkAt(log: Log, i: nat, id: StepId)
    requires Reached(log) && i < |log| && id in log[i].steps
    ensures StepOk(log[i].steps[id], log[i].runId, log[i].number)
  {
    hide Reached, RowOk, StepOk;
    RowsAreOk(log, i);
    StepIsOk(log[i], id);
  }

  predicate IsFirst(row: Row) {
    && row.number == 1 && row.event == RunCreated && row.status == Active && row.cycleCount == 0
    && row.ceiling == 0 && row.messages == []
  }

  /** A step nobody has touched yet; whoever checks it is not its owner. */
  predicate IsUntouched(step: Step) {
    && (step.status == Ready || step.status == Pending)
    && step.attempts == 0 && step.releases == 0 && step.reviewCycles == 0 && step.spend == 0
    && step.token == NoToken && step.holder == "" && step.held == NotHeld && step.submissions == []
    && (step.checker.Some? ==> step.checker.value != step.owner)
  }

  /** Every reachable log begins with the untouched steps of an admitted workflow. */
  lemma FirstRow(log: Log, id: StepId)
    requires log != [] && Reached(log)
    ensures IsFirst(log[0]) && (id in log[0].steps ==> IsUntouched(log[0].steps[id]))
  {
    PrefixIsReached(log, 1);
    NewRunIsUntouched(log[..1][0], id);
  }

  lemma NewRunIsUntouched(row: Row, id: StepId)
    requires IsNewRun(row)
    ensures IsFirst(row) && (id in row.steps ==> IsUntouched(row.steps[id]))
  {
    hide IsUntouched;
    var w, company, revision, planned, e :| IsValid(w, company)
      && row == NewRun(w, company, row.runId, revision, row.requestId, row.actor, planned, e);
    if id in row.steps {
      NewStepsAre(w.steps.value, company);
      var raw :| raw in w.steps.value && raw.id == id && row.steps[id] == NewStep(raw, company);
      NewStepIsUntouched(raw, Ids(w.steps.value), company);
    }
  }

  lemma NewStepIsUntouched(raw: RawStep, ids: seq<StepId>, company: Company)
    requires StepIsValid(raw, ids, company)
    ensures IsUntouched(NewStep(raw, company))
  {
  }

  /** The stamp a request puts on the row it adds. */
  lemma RowStamp(row: Row, a: Action)
    requires Successor(row, a).Some?
    ensures var next := Successor(row, a).value;
      && next.number == row.number + 1 && next.runId == row.runId && next.revision == row.revision
      && next.ts == a.env.now
      && (a.Ask? && row.cycleCount < row.maxCycles ==> next.actor == ActorOf(a.command))
      && (a.Ask? && row.cycleCount < row.maxCycles && a.command.OnStep? ==> next.messages == row.messages)
  {
  }

  /** How two neighbouring rows of a reachable log are related. */
  lemma NeighbourAction(log: Log, i: nat) returns (a: Action)
    requires Reached(log) && 0 < i < |log|
    ensures NextRow(log[..i], a) == Some(log[i]) && Successor(log[i - 1], a) == Some(log[i])
    ensures RowOk(log[i - 1]) && RowOk(log[i]) && SameShapes(log[i - 1].steps, log[i].steps)
  {
    PrefixIsReached(log, i + 1);
    var prefix := log[..i + 1];
    assert Front(prefix) == log[..i] && Last(prefix) == log[i];
    assert Last(Front(prefix)) == log[i - 1];
    assert Grew(prefix);
    a :| NextRow(Front(prefix), a) == Some(Last(prefix));
    NextIsSuccessor(Front(prefix), a);
    RowsAreOk(log, i - 1);
    SuccessorKeepsRow(log[i - 1], a);
  }

  // --- one step across two neighbouring rows ------------------------------------------------

  /** What an event about something else may do to a step: nothing, free it, or drop its claim. */
  predicate Kept(step: Step, next: Step) {
    || next == step
    || (step.status == Pending && next == step.(status := Ready))
    || next == Unclaimed(step)
  }

  predicate IsStepEvent(event: Event) {
    match event
    case RunCreated => false
    case MessageSent => false
    case Cancelled => false
    case CycleLimitHit => false
    case BudgetExtended => false
    case _ => true
  }

  predicate Targets(row: Row, id: StepId) {
    IsStepEvent(row.event) && row.target == id
  }

  predicate ActsOn(row: Row, a: Action, id: StepId) {
    a.Ask? && row.cycleCount < row.maxCycles && a.command.OnStep? && a.command.step == id
  }

  /** Either the action is a verb on this step, and the step moves by that verb's effect, or the
      step is kept. The event and target recorded in the row tell the two cases apart. */
  lemma Between(row: Row, a: Action, id: StepId) returns (f: Effect)
    requires RowOk(row) && Successor(row, a).Some? && id in row.steps
    ensures id in Successor(row, a).value.steps
    ensures ActsOn(row, a, id) <==> Targets(Successor(row, a).value, id)
    ensures ActsOn(row, a, id) ==>
      && Fits(row, id, f) && Successor(row, a).value.steps[id] == Charged(f)
      && Successor(row, a).value.event == EventOf(a.command)
      && EvidencePresent(a.command.verb, a.env) && VerbEffect(a.command.verb, id, row.steps[id], row, a.env) == Ok(f)
    ensures !ActsOn(row, a, id) ==> Kept(row.steps[id], Successor(row, a).value.steps[id])
  {
    hide Successor, Fits, Charged, VerbEffect, EvidencePresent, Kept;
    f := Effect(row.steps[id], Active, 0, 0);
    if a.Ask? && row.cycleCount < row.maxCycles && a.command.OnStep? {
      f := BetweenOnStep(row, a, id);
    } else {
      BetweenElse(row, a, id);
    }
  }

  lemma BetweenOnStep(row: Row, a: Action, id: StepId) returns (f: Effect)
    requires StepsOk(row) && Successor(row, a).Some? && id in row.steps
    requires a.Ask? && row.cycleCount < row.maxCycles && a.command.OnStep?
    ensures var next := Successor(row, a).value;
      && id in next.steps
      && next.event == EventOf(a.command) && next.target == a.command.step && IsStepEvent(next.event)
      && (a.command.step == id ==>
            && Fits(row, id, f) && next.steps[id] == Charged(f) && EvidencePresent(a.command.verb, a.env)
            && VerbEffect(a.command.verb, id, row.steps[id], row, a.env) == Ok(f))
      && (a.command.step != id ==> Kept(row.steps[id], next.steps[id]))
  {
    hide Successor, VerbEffect, EvidencePresent, StepsAfter, Charged, StepOk, StepsOk, SameShape, Stamped, Commit;
    var k, g := StepSuccessor(row, a);
    f := g;
    StepAfter(row.steps, k, g, id);
  }

  lemma BetweenElse(row: Row, a: Action, id: StepId)
    requires CyclesOk(row) && Successor(row, a).Some? && id in row.steps
    requires a.Ask? && row.cycleCount < row.maxCycles ==> !a.command.OnStep?
    ensures var next := Successor(row, a).value;
      id in next.steps && !IsStepEvent(next.event) && Kept(row.steps[id], next.steps[id])
  {
    hide Successor;
    if a.Ask? && row.cycleCount < row.maxCycles && a.command.Cancel? {
      CancelSuccessor(row, a);
      hide Unclaimed;
    } else {
      IdleSuccessor(row, a);
    }
  }
}
