/** Counting laws over a run's whole log: the attempt ledger, the review floor, and the bound on how
    long a log can get. Every count is taken from the log's events, never from the counters that
    the events maintain. */
module RunLedger {
  import opened Outcomes
  import opened Workflows
  import opened RunModel
  import opened RunInvariants

  datatype Tally =
    | Failures(id: StepId) | Resumes(id: StepId) | AllResumes | Returns(id: StepId) | Grants(id: StepId)
    | Releases(id: StepId) | CeilingHits | Extensions

  /** Does the step from row `p` to row `r` count? */
  predicate Hits(t: Tally, p: Row, r: Row) {
    match t
    case Failures(id) => r.event == StepFailed && r.target == id
    case Resumes(id) => r.event == StepApproved && r.target == id && id in p.steps && p.steps[id].held.Budget?
    case AllResumes => r.event == StepApproved && r.target in p.steps && p.steps[r.target].held.Budget?
    case Returns(id) => r.event == CheckReturned && r.target == id && id in r.steps && r.steps[id].status == Ready
    case Grants(id) => r.event == StepRequested && r.target == id && id in r.steps && r.steps[id].status == InProgress
    case Releases(id) => r.event == StepReleased && r.target == id
    case CeilingHits => r.event == CycleLimitHit
    case Extensions => r.event == BudgetExtended
  }

  function Count(t: Tally, log: Log): nat {
    if |log| <= 1 then 0
    else Count(t, Front(log)) + if Hits(t, log[|log| - 2], Last(log)) then 1 else 0
  }

  // --- one step's counters ------------------------------------------------------------------

  /** How a verb moves the counters of its own step: an attempt is spent by a grant, returned by a
      release, and written off by a failure or by resuming a budget stop. */
  lemma VerbBalances(v: Verb, id: StepId, step: Step, row: Row, e: Env)
    requires EvidencePresent(v, e) && StepOk(step, row.runId, row.number) && step.risk.Green?
    requires VerbEffect(v, id, step, row, e).Ok?
    ensures var next := VerbEffect(v, id, step, row, e).value.step;
      && Balance(next) == Balance(step) + (if v.Fail? || (v.Approve? && step.held.Budget?) then 1 else 0)
      && next.reviewCycles == step.reviewCycles + (if v.CheckReturn? && next.status == Ready then 1 else 0)
      && next.attempts + next.releases == step.attempts + step.releases
           + (if v.Request? && next.status == InProgress then 1 else 0)
      && next.releases == step.releases + (if v.Release? then 1 else 0)
  {
  }

  /** The ledger of one green step in the last row of a log. */
  predicate Balanced(log: Log, id: StepId)
    requires log != []
  {
    id in Last(log).steps && Last(log).steps[id].risk.Green? ==>
      var step := Last(log).steps[id];
      && Balance(step) == Count(Failures(id), log) + Count(Resumes(id), log)
      && step.reviewCycles == Count(Returns(id), log)
      && step.attempts + step.releases == Count(Grants(id), log)
      && step.releases == Count(Releases(id), log)
  }

  predicate HitsByVerb(id: StepId, p: Row, r: Row, v: Verb) {
    && (Hits(Failures(id), p, r) <==> v.Fail?)
    && (Hits(Resumes(id), p, r) <==> v.Approve? && id in p.steps && p.steps[id].held.Budget?)
    && (Hits(Returns(id), p, r) <==> v.CheckReturn? && id in r.steps && r.steps[id].status == Ready)
    && (Hits(Grants(id), p, r) <==> v.Request? && id in r.steps && r.steps[id].status == InProgress)
    && (Hits(Releases(id), p, r) <==> v.Release?)
  }

  lemma StepBalances(row: Row, a: Action, id: StepId)
    requires RowOk(row) && Successor(row, a).Some? && id in row.steps && row.steps[id].risk.Green?
    ensures var next := Successor(row, a).value;
      && id in next.steps
      && var x, y := row.steps[id], next.steps[id];
      && Balance(y) == Balance(x) + (if Hits(Failures(id), row, next) || Hits(Resumes(id), row, next) then 1 else 0)
      && !(Hits(Failures(id), row, next) && Hits(Resumes(id), row, next))
      && y.reviewCycles == x.reviewCycles + (if Hits(Returns(id), row, next) then 1 else 0)
      && y.attempts + y.releases == x.attempts + x.releases + (if Hits(Grants(id), row, next) then 1 else 0)
      && y.releases == x.releases + (if Hits(Releases(id), row, next) then 1 else 0)
  {
    hide Successor, VerbEffect, StepOk, GraphOk, PendingIsBlocked, StatusIsForced, MoneyAddsUp, EvidencePresent;
    var f := Between(row, a, id);
    var next := Successor(row, a).value;
    if ActsOn(row, a, id) {
      assert StepOk(row.steps[id], row.runId, row.number);
      VerbBalances(a.command.verb, id, row.steps[id], row, a.env);
      assert HitsByVerb(id, row, next, a.command.verb);
    }
  }

  /** The attempt ledger: in every reachable state of a green step, its attempts are the review
      returns, failures and budget resumes in the log, and one more while an attempt is out or stands;
      attempts and releases together are the claims the log granted. */
  lemma {:induction false} AttemptLedger(log: Log, id: StepId)
    requires log != [] && Reached(log)
    ensures Balanced(log, id)
    decreases |log|
  {
    if |log| == 1 {
      FirstRow(log, id);
      hide Reached;
    } else {
      hide Balanced, RowOk, Successor, NextRow, SameShapes;
      var a := LastAction(log);
      AttemptLedger(Front(log), id);
      BalanceGrows(log, a, id);
    }
  }

  lemma BalanceGrows(log: Log, a: Action, id: StepId)
    requires |log| > 1 && Balanced(Front(log), id) && RowOk(Last(Front(log)))
    requires Successor(Last(Front(log)), a) == Some(Last(log))
    requires SameShapes(Last(Front(log)).steps, Last(log).steps)
    ensures Balanced(log, id)
  {
    hide Successor, RowOk, Hits, Balance;
    if id in Last(log).steps && Last(log).steps[id].risk.Green? {
      assert SameShape(Last(Front(log)).steps[id], Last(log).steps[id]);
      StepBalances(Last(Front(log)), a, id);
    }
  }

  /** The action that added the last row. */
  lemma LastAction(log: Log) returns (a: Action)
    requires |log| > 1 && Reached(log)
    ensures Reached(Front(log)) && RowOk(Last(Front(log))) && RowOk(Last(log))
    ensures NextRow(Front(log), a) == Some(Last(log)) && Successor(Last(Front(log)), a) == Some(Last(log))
    ensures SameShapes(Last(Front(log)).steps, Last(log).steps)
  {
    assert Grew(log);
    hide Reached, RowOk, SameShapes;
    a :| NextRow(Front(log), a) == Some(Last(log));
    NextIsSuccessor(Front(log), a);
    LastIsOk(Front(log));
    SuccessorKeepsRow(Last(Front(log)), a);
  }

  /** The retry cap binds every way a step can come back: a green step is dispatched at most
      `maxAttempts` times beyond its releases, and it is never blocked on retries before failures,
      resumes and review returns have used exactly the whole budget. */
  lemma RetryCap(log: Log, id: StepId)
    requires log != [] && Reached(log) && id in Last(log).steps && Last(log).steps[id].risk.Green?
    ensures var step := Last(log).steps[id];
      && Count(Grants(id), log) <= step.maxAttempts + Count(Releases(id), log)
      && (step.status == BlockedRetryLimit ==>
            Count(Failures(id), log) + Count(Resumes(id), log) + Count(Returns(id), log) == step.maxAttempts)
  {
    hide Reached, Count;
    StepIsOkAt(log, |log| - 1, id);
    AttemptLedger(log, id);
  }

  /** The review cap: a step is sent back for at most `maxReviewCycles` reviews, and is blocked on reviews only
      after exactly that many. */
  lemma ReviewCap(log: Log, id: StepId)
    requires log != [] && Reached(log) && id in Last(log).steps && Last(log).steps[id].checker.Some?
    ensures var step := Last(log).steps[id];
      && Count(Returns(id), log) <= step.maxReviewCycles
      && (step.status == BlockedReviewLimit ==> Count(Returns(id), log) == step.maxReviewCycles)
  {
    hide Reached, Count;
    StepIsOkAt(log, |log| - 1, id);
    AttemptLedger(log, id);
  }

  /** When a limit strikes, and when it does not: a green step is granted another attempt exactly while the log
      holds fewer failures, resumes and returns than its attempts; after a failure it is ready again exactly
      if one more is left; and a return sends it back exactly while the log holds fewer than the reviews it
      may have. */
  lemma LimitsStrike(log: Log, rid: string, id: StepId, v: Verb, e: Env)
    requires log != [] && Reached(log) && Mutate(log, rid, OnStep(id, v), e).Applied?
    requires id in Last(log).steps && Last(log).steps[id].risk.Green? && (v.Request? || v.Fail? || v.CheckReturn?)
    ensures var row := Mutate(log, rid, OnStep(id, v), e).row;
      var used := Count(Failures(id), log) + Count(Resumes(id), log) + Count(Returns(id), log);
      && id in row.steps
      && var step := row.steps[id];
      && (v.Request? ==>
            if used < step.maxAttempts then step.status == InProgress
            else IsStruck(row, id, BlockedRetryLimit))
      && (v.Fail? ==>
            if used + 1 < step.maxAttempts then step.status == Ready
            else IsStruck(row, id, BlockedRetryLimit))
      && (v.CheckReturn? ==>
            if Count(Returns(id), log) < step.maxReviewCycles then step.status == Ready
            else IsStruck(row, id, BlockedReviewLimit))
  {
    hide Reached, Count, Mutate, VerbEffect, Successor, RowOk, StepOk, Kept;
    var a := Ask(rid, OnStep(id, v), e);
    assert NextRow(log, a) == Some(Mutate(log, rid, OnStep(id, v), e).row);
    NextIsSuccessor(log, a);
    LastIsOk(log);
    AttemptLedger(log, id);
    var f := Between(Last(log), a, id);
    StepIsOkAt(log, |log| - 1, id);
    AppliedIsAsked(log, rid, id, v, e);
    StrikesAt(v, id, Last(log).steps[id], Last(log), e);
  }

  /** The step and with it the run are blocked on this limit. */
  predicate IsStruck(row: Row, id: StepId, status: StepStatus)
    requires id in row.steps
  {
    row.steps[id].status == status && row.status == EndOf(status) != Active
  }

  lemma StrikesAt(v: Verb, id: StepId, step: Step, row: Row, e: Env)
    requires EvidencePresent(v, e) && StepOk(step, row.runId, row.number) && step.risk.Green?
    requires VerbEffect(v, id, step, row, e).Ok? && (v.Request? || v.Fail? || v.CheckReturn?)
    ensures var f := VerbEffect(v, id, step, row, e).value;
      var used := Balance(step) + step.reviewCycles;
      && f.step.maxAttempts == step.maxAttempts && f.step.maxReviewCycles == step.maxReviewCycles
      && f.status == EndOf(f.step.status)
      && (v.Request? ==> f.step.status == if used < step.maxAttempts then InProgress else BlockedRetryLimit)
      && (v.Fail? ==> f.step.status == if used + 1 < step.maxAttempts then Ready else BlockedRetryLimit)
      && (v.CheckReturn? ==>
            f.step.status == if step.reviewCycles < step.maxReviewCycles then Ready else BlockedReviewLimit)
  {
  }

  lemma AppliedIsAsked(log: Log, rid: string, id: StepId, v: Verb, e: Env)
    requires log != [] && Mutate(log, rid, OnStep(id, v), e).Applied?
    ensures ActsOn(Last(log), Ask(rid, OnStep(id, v), e), id)
    ensures EvidencePresent(v, e) && id in Last(log).steps && VerbEffect(v, id, Last(log).steps[id], Last(log), e).Ok?
    ensures var f := VerbEffect(v, id, Last(log).steps[id], Last(log), e).value;
      f.step.status != Completed ==> Mutate(log, rid, OnStep(id, v), e).row.status == f.status
  {
    hide Prior, StepsAfter;
  }

  /** The admission floor of two spare attempts: a checked step that met at most one failure or
      budget stop can never end its run on the retry limit, whatever its checker does. */
  lemma ReviewFloor(log: Log, id: StepId)
    requires log != [] && Reached(log) && id in Last(log).steps && Last(log).steps[id].checker.Some?
    requires Count(Failures(id), log) + Count(Resumes(id), log) <= 1
    ensures Last(log).steps[id].status != BlockedRetryLimit
  {
    hide Reached, Count;
    StepIsOkAt(log, |log| - 1, id);
    AttemptLedger(log, id);
    RetryCap(log, id);
  }

  // --- how long a run's log can get ---------------------------------------------------------

  /** The lengths and limits of a log tie together. */
  predicate Metered(log: Log)
    requires log != []
  {
    && |log| == Last(log).number
    && |log| == 1 + Last(log).cycleCount + Count(CeilingHits, log) + Count(Extensions, log)
    && Count(CeilingHits, log) == Count(Extensions, log) + (if Last(log).status == RunBlockedCycleLimit then 1 else 0)
    && Count(Extensions, log) < Last(log).maxCycles
  }

  /** How each kind of row moves the meters. */
  lemma SuccessorMeters(row: Row, a: Action)
    requires Successor(row, a).Some?
    ensures var next := Successor(row, a).value;
      && next.number == row.number + 1
      && next.cycleCount == row.cycleCount +
                            (if next.event == CycleLimitHit || next.event == BudgetExtended then 0 else 1)
      && (next.event == CycleLimitHit <==> next.status == RunBlockedCycleLimit)
      && (next.event == BudgetExtended <==> row.status != Active)
      && (next.event == BudgetExtended ==> row.status == RunBlockedCycleLimit && next.status == Active)
      && (if next.event == BudgetExtended then next.maxCycles > row.maxCycles else next.maxCycles == row.maxCycles)
  {
    if a.Ask? && row.cycleCount < row.maxCycles && a.command.OnStep? {
      OnStepStatus(row, a);
    }
  }

  lemma OnStepStatus(row: Row, a: Action)
    requires Successor(row, a).Some? && a.Ask? && row.cycleCount < row.maxCycles && a.command.OnStep?
    ensures Successor(row, a).value.status != RunBlockedCycleLimit && IsStepEvent(Successor(row, a).value.event)
    ensures Successor(row, a).value.cycleCount == row.cycleCount + 1
    ensures Successor(row, a).value.maxCycles == row.maxCycles
  {
    var v, id := a.command.verb, a.command.step;
    assert VerbEffect(v, id, row.steps[id], row, a.env).value.status != RunBlockedCycleLimit;
  }

  lemma {:induction false} LogIsMetered(log: Log)
    requires log != [] && Reached(log)
    ensures Metered(log)
    decreases |log|
  {
    if |log| > 1 {
      hide RowOk, Successor, NextRow, SameShapes, Metered;
      var a := LastAction(log);
      LogIsMetered(Front(log));
      SuccessorMeters(Last(Front(log)), a);
      MeterGrows(log);
    }
  }

  lemma MeterGrows(log: Log)
    requires |log| > 1 && Metered(Front(log))
    requires var row, next := Last(Front(log)), Last(log);
      && next.number == row.number + 1
      && next.cycleCount == row.cycleCount +
                            (if next.event == CycleLimitHit || next.event == BudgetExtended then 0 else 1)
      && (next.event == CycleLimitHit <==> next.status == RunBlockedCycleLimit)
      && (next.event == BudgetExtended <==> row.status != Active)
      && (next.event == BudgetExtended ==> row.status == RunBlockedCycleLimit && next.status == Active)
      && (if next.event == BudgetExtended then next.maxCycles > row.maxCycles else next.maxCycles == row.maxCycles)
    ensures Metered(log)
  {
  }

  /** The run lifetime bound: every cycle, ceiling hit and extension is a row, so no run's log ever
      holds more than 300, however often it is extended. */
  lemma RunLifetime(log: Log)
    requires log != [] && Reached(log)
    ensures |log| == 1 + Last(log).cycleCount + Count(CeilingHits, log) + Count(Extensions, log)
    ensures Last(log).cycleCount <= Last(log).maxCycles <= 100
    ensures |log| <= 300
  {
    LastIsOk(log);
    LogIsMetered(log);
  }

  /** An ended run moves on only when its cycle budget ran out and a person extended it. */
  lemma OnlyBudgetReopens(log: Log, i: nat)
    requires log != [] && Reached(log) && i + 1 < |log| && log[i].status != Active
    ensures log[i].status == RunBlockedCycleLimit && log[i + 1].event == BudgetExtended
    ensures log[i + 1].maxCycles > log[i].maxCycles && log[i + 1].steps == log[i].steps
  {
    hide Reached, RowOk, Successor, SameShapes;
    var a := NeighbourAction(log, i + 1);
    SuccessorMeters(log[i], a);
    ExtensionIsIdle(log[i], a);
  }

  lemma ExtensionIsIdle(row: Row, a: Action)
    requires Successor(row, a).Some? && row.status != Active
    ensures Successor(row, a).value.steps == row.steps
  {
  }

  // --- the cycle budget ---------------------------------------------------------------------

  /** An extension is granted exactly to a run that is out of cycles and below the hard ceiling, by somebody
      named, for one to a hundred cycles, under a new id; and it grants those cycles, or as many of them as the
      ceiling of a hundred leaves. */
  lemma ExtensionGrants(log: Log, rid: string, approver: string, cycles: int, e: Env)
    requires log != [] && Reached(log)
    ensures var next := NextRow(log, Extend(rid, approver, cycles, e));
      && (next.Some? <==>
            && Last(log).status == RunBlockedCycleLimit && Last(log).maxCycles < 100
            && !IsBlank(approver) && 1 <= cycles <= 100 && forall row | row in log :: row.requestId != rid)
      && (next.Some? ==>
            && next.value.status == Active && next.value.actor == approver
            && if Last(log).maxCycles + cycles <= 100 then next.value.maxCycles == Last(log).maxCycles + cycles
               else next.value.maxCycles == 100)
  {
    hide Reached, RowOk, IsBlank;
    LastIsOk(log);
    CyclesAreBounded(Last(log));
  }

  lemma CyclesAreBounded(row: Row)
    requires RowOk(row)
    ensures row.maxCycles <= 100
  {
  }

  /** Neither the ceiling nor an extension: a row that used up a cycle. */
  predicate IsCycle(row: Row) {
    row.event != CycleLimitHit && row.event != BudgetExtended
  }

  /** The cycles granted are the cycles had: from the first row, or from an extension, to the next time the
      ceiling is hit there are exactly as many rows as that stretch was granted. */
  lemma GrantIsUsedUp(log: Log, n: nat, m: nat)
    requires log != [] && Reached(log) && n < m < |log| && (n == 0 || log[n].event == BudgetExtended)
    requires log[m].event == CycleLimitHit && forall k | n < k < m :: log[k].event != CycleLimitHit
    ensures m - n - 1 == log[n].maxCycles - if n == 0 then 0 else log[n - 1].maxCycles
    ensures forall k | n < k < m :: IsCycle(log[k])
  {
    hide Reached, RowOk;
    GrantBegins(log, n);
    CyclesAreCounted(log, n, m - 1);
    CeilingIsFull(log, m);
  }

  lemma GrantBegins(log: Log, n: nat)
    requires log != [] && Reached(log) && n < |log| && (n == 0 || log[n].event == BudgetExtended)
    ensures log[n].status == Active
    ensures log[n].cycleCount == if n == 0 then 0 else log[n - 1].maxCycles
  {
    hide Reached, RowOk, Successor, SameShapes;
    if n == 0 {
      FirstRow(log, "");
    } else {
      var a := NeighbourAction(log, n);
      SuccessorMeters(log[n - 1], a);
      BlockedIsFull(log, n - 1);
    }
  }

  /** A run stopped at its ceiling has used all its cycles. */
  lemma {:induction false} BlockedIsFull(log: Log, i: nat)
    requires log != [] && Reached(log) && i < |log| && log[i].status == RunBlockedCycleLimit
    ensures i > 0 && log[i].event == CycleLimitHit && log[i].cycleCount == log[i].maxCycles
  {
    hide Reached, RowOk, Successor, SameShapes;
    if i == 0 {
      FirstRow(log, "");
    } else {
      var a := NeighbourAction(log, i);
      SuccessorMeters(log[i - 1], a);
      CeilingIsFull(log, i);
    }
  }

  lemma CeilingIsFull(log: Log, m: nat)
    requires log != [] && Reached(log) && 0 < m < |log| && log[m].event == CycleLimitHit
    ensures log[m - 1].status == Active && log[m - 1].cycleCount == log[m - 1].maxCycles == log[m].maxCycles
    ensures log[m].cycleCount == log[m - 1].cycleCount
  {
    hide Reached, Successor, SameShapes;
    var a := NeighbourAction(log, m);
    SuccessorMeters(log[m - 1], a);
    RowsAreOk(log, m - 1);
    HitsAreFull(log[m - 1], a);
  }

  lemma HitsAreFull(row: Row, a: Action)
    requires Successor(row, a).Some? && Successor(row, a).value.event == CycleLimitHit
    ensures row.cycleCount >= row.maxCycles
  {
  }

  lemma CycleRow(log: Log, m: nat)
    requires log != [] && Reached(log) && 0 < m < |log| && log[m - 1].status == Active && log[m].event != CycleLimitHit
    ensures IsCycle(log[m]) && log[m].cycleCount == log[m - 1].cycleCount + 1
    ensures log[m].maxCycles == log[m - 1].maxCycles
  {
    hide Reached, RowOk, Successor, SameShapes;
    var a := NeighbourAction(log, m);
    SuccessorMeters(log[m - 1], a);
  }

  lemma {:induction false} CyclesAreCounted(log: Log, n: nat, m: nat)
    requires log != [] && Reached(log) && n <= m < |log| && log[n].status == Active
    requires forall k | n < k <= m :: log[k].event != CycleLimitHit
    ensures log[m].cycleCount == log[n].cycleCount + m - n && log[m].maxCycles == log[n].maxCycles
    ensures forall k | n < k <= m :: IsCycle(log[k])
    decreases m
  {
    hide Reached;
    if n < m {
      CyclesAreCounted(log, n, m - 1);
      if log[m - 1].status != Active {
        OnlyBudgetReopens(log, m - 1);
        BlockedIsFull(log, m - 1);
      }
      CycleRow(log, m);
    }
  }
}
