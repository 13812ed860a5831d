/** What must stand in the log after each of the driver's answers, said of the rows alone: which event, by
    whom, at what price, and where it leaves the step. Each predicate is met by what the driver's requests
    write, whenever they go through. */
module DriverRecords {
  import opened Outcomes
  import opened Workflows
  import opened RunModel
  import opened RunInvariants
  import opened RunFencing
  import opened RunMoney
  import opened Names
  import opened DriverMoves
  import opened DriverSteps

  function WorkPrice(w: Work): nat {
    match w
    case AgentBusy => 0
    case AgentFailed => 0
    case Rejects(cost) => Price(cost)
    case Ungradable(cost) => Price(cost)
    case Delivered(cost) => Price(cost)
  }

  /** The log grew by one row about this step, which adds this much to the run's bill. */
  ghost predicate IsOneRow(was: Log, log: Log, id: StepId, event: Event, actor: string, price: nat) {
    && was != [] && log != [] && log == was + [Last(log)]
    && id in Last(was).steps && id in Last(log).steps
    && Last(log).event == event && Last(log).target == id && Last(log).actor == actor
    && Last(log).spend == Last(was).spend + price
  }

  /** The run was out of cycles, and the log says so. */
  ghost predicate HitsCeiling(was: Log, log: Log) {
    && was != [] && log != [] && log == was + [Last(log)]
    && Last(was).cycleCount >= Last(was).maxCycles
    && Last(log).event == CycleLimitHit && Last(log).status == RunBlockedCycleLimit
    && Last(log).steps == Last(was).steps && Last(log).spend == Last(was).spend
  }

  /** A green step was claimed for the holder, or had no attempts left, which ended the run. */
  ghost predicate IsClaimed(was: Log, log: Log, id: StepId, holder: string) {
    && was != [] && id in Last(was).steps
    && var p := Last(was).steps[id];
    && IsOneRow(was, log, id, StepRequested, p.owner, 0)
    && var q := Last(log).steps[id];
    && (if p.attempts < p.maxAttempts then
          && q.status == InProgress && q.attempts == p.attempts + 1
          && q.holder == (if holder == "" then p.owner else holder)
          && q.token == Minted(Last(was).runId, |log|) && Last(log).status == Active
        else q.status == BlockedRetryLimit && Last(log).status == RunBlockedRetryLimit)
  }

  /** A lapsed claim was taken over. */
  ghost predicate IsTaken(was: Log, log: Log, id: StepId, holder: string) {
    && was != [] && id in Last(was).steps
    && IsOneRow(was, log, id, StepTaken, Last(was).steps[id].owner, 0)
    && var q := Last(log).steps[id];
    && q.status == InProgress && q.attempts == Last(was).steps[id].attempts && q.holder == holder
    && q.token == Minted(Last(was).runId, |log|)
  }

  /** The answer to a dispatch is on record: a busy agent's step is ready again with its attempt back; a
      failure or a rejection has used the attempt up; ungraded work waits for a person; and good work is
      handed in, to the checker if the step has one. */
  ghost predicate IsAnswered(was: Log, log: Log, id: StepId, run: string, w: Work) {
    && was != [] && id in Last(was).steps
    && var p := Last(was).steps[id];
    && IsOneRow(was, log, id, match w
                              case AgentBusy => StepReleased
                              case AgentFailed => StepFailed
                              case Rejects(_) => StepFailed
                              case Ungradable(_) => StepHeld
                              case Delivered(_) => StepCompleted, p.owner, WorkPrice(w))
    && var q := Last(log).steps[id];
    match w
    case AgentBusy => q.status == Ready && q.attempts == if p.attempts > 0 then p.attempts - 1 else 0
    case AgentFailed => UsedUp(p, q)
    case Rejects(_) => UsedUp(p, q)
    case Ungradable(_) =>
      q.status == AwaitingApproval && q.held.Ungraded? && q.held.evidence == ArtifactName(run, id, ".ungraded")
    case Delivered(_) => IsHandedIn(p, q, ArtifactName(run, id, ""))
  }

  predicate UsedUp(p: Step, q: Step) {
    q.attempts == p.attempts && q.status == if p.attempts < p.maxAttempts then Ready else BlockedRetryLimit
  }

  /** The evidence is the step's newest submission, made by its owner, and the step is with its checker or done. */
  predicate IsHandedIn(p: Step, q: Step, evidence: string) {
    && |q.submissions| == |p.submissions| + 1 && q.submissions[..|p.submissions|] == p.submissions
    && Last(q.submissions).evidence == evidence && Last(q.submissions).maker == p.owner
    && q.status == if p.checker.Some? then AwaitingCheck else Completed
  }

  ghost predicate IsRecorded(was: Log, log: Log, id: StepId, run: string, w: Work) {
    HitsCeiling(was, log) || IsAnswered(was, log, id, run, w)
  }

  /** The step waits for a person on the budget, at no price. */
  ghost predicate IsBudgetStop(was: Log, log: Log, id: StepId) {
    && was != [] && id in Last(was).steps && IsOneRow(was, log, id, StepHeld, Last(was).steps[id].owner, 0)
    && Last(log).steps[id].status == AwaitingApproval && Last(log).steps[id].held.Budget?
  }

  /** Work that a person accepted is handed in, at no further price. */
  ghost predicate IsAccepted(was: Log, log: Log, id: StepId, evidence: string) {
    && was != [] && id in Last(was).steps && IsOneRow(was, log, id, StepCompleted, Last(was).steps[id].owner, 0)
    && IsHandedIn(Last(was).steps[id], Last(log).steps[id], evidence)
  }

  /** The checker's message stands in the log, about this step and to its maker. */
  ghost predicate IsFiled(was: Log, log: Log, id: StepId, checker: string, review: Review, artifact: string) {
    && was != [] && log != [] && log == was + [Last(log)] && review.Reviewed? && id in Last(was).steps
    && Last(log).event == MessageSent && Last(log).actor == checker && Last(log).target == review.message
    && Last(log).steps == Last(was).steps && Last(log).spend == Last(was).spend
    && Last(log).messages != [] && Front(Last(log).messages) == Last(was).messages
    && var m := Last(Last(log).messages);
    && m.id == review.message && m.step == id && m.payload == artifact
    && m.sender == checker && m.receiver == Last(was).steps[id].owner
    && m.kind == if review.ruling.Approves? then Decision else Feedback
  }

  /** The verdict stands in the log, by the checker: an approval completes the step, a return sends it back
      until the returns are used up, and a refusal ends the run. */
  ghost predicate IsVerdict(was: Log, log: Log, id: StepId, checker: string, review: Review) {
    && was != [] && id in Last(was).steps && review.Reviewed?
    && var p := Last(was).steps[id];
    match review.ruling
    case Approves =>
      IsOneRow(was, log, id, CheckApproved, checker, Price(review.cost)) && Last(log).steps[id].status == Completed
    case Returns =>
      && IsOneRow(was, log, id, CheckReturned, checker, Price(review.cost))
      && var q := Last(log).steps[id];
      (if p.reviewCycles < p.maxReviewCycles then q.status == Ready && q.reviewCycles == p.reviewCycles + 1
       else q.status == BlockedReviewLimit && Last(log).status == RunBlockedReviewLimit)
    case Refuses =>
      && IsOneRow(was, log, id, CheckRejected, checker, Price(review.cost))
      && Last(log).steps[id].status == RejectedByChecker && Last(log).status == RunRejectedByChecker
  }

  /** A review that came is on record, message first; or the run was out of cycles. */
  ghost predicate IsReviewDone(was: Log, log: Log, id: StepId, checker: string, review: Review, artifact: string) {
    || HitsCeiling(was, log)
    || (|was| < |log| && IsFiled(was, log[..|was| + 1], id, checker, review, artifact)
        && (HitsCeiling(log[..|was| + 1], log) || IsVerdict(log[..|was| + 1], log, id, checker, review)))
  }

  /** What came of a step in hand: from the run's ceiling on it is parked, if the notice can be filed, and
      below it the answer to its dispatch is on record. */
  ghost predicate IsWorked(was: Log, log: Log, id: StepId, state: Row, look: Tick, next: Tick) {
    && was != []
    && var ceiling := CeilingOf(state, look.env.baseCeiling);
    if ceiling != 0 && Last(was).spend >= ceiling then
      ArtifactName(state.runId, id, ".over-budget") in next.env.disk ==>
        HitsCeiling(was, log) || IsBudgetStop(was, log, id)
    else IsRecorded(was, log, id, state.runId, next.work)
  }

  /** What came of a ready step: it was claimed and then worked on, or the run was out of cycles or the step
      out of attempts. */
  ghost predicate IsDriven(was: Log, log: Log, id: StepId, holder: string, state: Row, look: Tick, next: Tick) {
    || HitsCeiling(was, log)
    || (IsClaimed(was, log, id, holder) && Last(log).status == RunBlockedRetryLimit)
    || (|was| < |log| && IsClaimed(was, log[..|was| + 1], id, holder)
        && IsWorked(log[..|was| + 1], log, id, state, look, next))
  }

  lemma ClaimedAndWorked(was: Log, mid: Log, log: Log, base: Option<int>, id: StepId, holder: string, state: Row,
                         look: Tick, next: Tick)
    requires IsClaimed(was, mid, id, holder) && IsWorked(mid, log, id, state, look, next) && Extends(mid, log, base)
    ensures IsDriven(was, log, id, holder, state, look, next)
  {
    hide IsWorked, UnderNames, DrivenAt;
    assert log[..|was| + 1] == mid;
  }

  /** From the n-th row on, each of these steps that is not still to do was requested. */
  ghost predicate AreRequested(log: Log, n: nat, ids: set<StepId>, todo: set<StepId>) {
    forall id | id in ids && id !in todo ::
      exists k :: n <= k < |log| && log[k].event == StepRequested && log[k].target == id
  }


  /** One more step was driven. */
  lemma OneMoreRequested(start: Log, was: Log, log: Log, base: Option<int>, ids: set<StepId>, todo: set<StepId>,
                         id: StepId, holder: string, state: Row, look: Tick, next: Tick)
    requires Extends(start, was, base) && Extends(was, log, base) && was != [] && log != []
    requires Last(was).status == Active ==>
      IsDriven(was, log, id, holder, state, look, next) && AreRequested(was, |start|, ids, todo)
    requires Last(was).status != Active ==> Last(log).status != Active
    ensures Last(log).status == Active ==> AreRequested(log, |start|, ids, todo - {id})
  {
    hide UnderNames, DrivenAt, IsWorked;
    assert was == log[..|was|];
    if Last(log).status == Active {
      forall k | k in ids && k !in todo - {id}
        ensures exists n :: |start| <= n < |log| && log[n].event == StepRequested && log[n].target == k
      {
        if k == id {
          assert log[|was|].event == StepRequested && log[|was|].target == id;
        } else {
          var n :| |start| <= n < |was| && was[n].event == StepRequested && was[n].target == k;
          assert log[n] == was[n];
        }
      }
    }
  }

  /** Part-way through the work of a pass over these steps: the level is kept, and every step driven so far
      was requested. */
  ghost predicate IsUnderWay(start: Log, log: Log, ids: set<StepId>, todo: set<StepId>, checks: set<StepId>,
                             snapshot: Row, missed: int) {
    && start != [] && log != [] && todo <= ids && AllAt(snapshot, todo, Ready)
    && Level(start, log, todo + checks, snapshot, missed, |ids| - |todo|)
    && (Last(log).status == Active ==> AreRequested(log, |start|, ids, todo))
  }

  lemma RequestedStays(log: Log, more: Log, base: Option<int>, n: nat, ids: set<StepId>, todo: set<StepId>)
    requires AreRequested(log, n, ids, todo) && Extends(log, more, base)
    ensures AreRequested(more, n, ids, todo)
  {
    hide UnderNames, DrivenAt;
    forall id | id in ids && id !in todo
      ensures exists k :: n <= k < |more| && more[k].event == StepRequested && more[k].target == id
    {
      var k :| n <= k < |log| && log[k].event == StepRequested && log[k].target == id;
      assert more[k] == more[..|log|][k];
    }
  }

  lemma WorkBegins(log: Log, ids: set<StepId>, checks: set<StepId>, snapshot: Row)
    requires log != [] && Level(log, log, ids + checks, snapshot, 0, 0) && AllAt(snapshot, ids, Ready)
    ensures IsUnderWay(log, log, ids, ids, checks, snapshot, 0)
  {
    hide Level;
  }

  lemma WorkEnds(start: Log, log: Log, ids: set<StepId>, checks: set<StepId>, snapshot: Row, missed: int)
    requires IsUnderWay(start, log, ids, {}, checks, snapshot, missed)
    ensures Level(start, log, checks, snapshot, missed, |ids|)
    ensures Last(log).status == Active ==> AreRequested(log, |start|, ids, {})
  {
    hide Level, AllAt, AreRequested;
    NoneLeft(checks);
  }

  lemma WorkGoesOn(start: Log, was: Log, log: Log, base: Option<int>, ids: set<StepId>, todo: set<StepId>,
                   checks: set<StepId>, id: StepId, snapshot: Row, missed: int, more: int, raised: bool, smooth: bool,
                   holder: string, look: Tick, next: Tick)
    requires IsUnderWay(start, was, ids, todo, checks, snapshot, missed) && id in todo && id !in checks
    requires Extends(start, was, base) && Extends(was, log, base) && log != []
    requires Last(was).status != Active ==> Last(log).status != Active
    requires Finds(was, snapshot, id, Ready) && !raised ==> Paid(was, log, id, more, 1)
    requires Finds(was, snapshot, id, Ready) && !raised ==> IsDriven(was, log, id, holder, snapshot, look, next)
    requires smooth && Finds(was, snapshot, id, Ready) && raised ==> Last(log).status != Active
    ensures !raised ==> IsUnderWay(start, log, ids, todo - {id}, checks, snapshot, missed + more)
    ensures smooth && raised ==> Last(log).status != Active
  {
    hide Level, Finds, Paid, Extends, AreRequested, IsDriven, AllAt;
    if Last(was).status == Active {
      LevelFinds(start, was, todo, checks, snapshot, missed, |ids| - |todo|, id);
    }
    DriveCounts(start, was, log, todo, checks, id, snapshot, missed, more, |ids| - |todo|, raised, smooth);
    if !raised {
      OneMoreRequested(start, was, log, base, ids, todo, id, holder, snapshot, look, next);
    }
  }

  // --- what one accepted request writes -----------------------------------------------------

  lemma CeilingIsHit(log: Log, rid: string, c: Command, e: Env)
    requires log != [] && Mutate(log, rid, c, e).AtCeiling?
    ensures HitsCeiling(log, Grown(log, Mutate(log, rid, c, e)))
  {
    hide Precheck, Prior, Change;
  }

  lemma AppliedRow(log: Log, rid: string, id: StepId, v: Verb, e: Env) returns (f: Effect)
    requires log != [] && Reached(log) && Mutate(log, rid, OnStep(id, v), e).Applied?
    ensures EvidencePresent(v, e) && id in Last(log).steps
    ensures VerbEffect(v, id, Last(log).steps[id], Last(log), e) == Ok(f)
    ensures Last(log).number == |log| && StepOk(Last(log).steps[id], Last(log).runId, Last(log).number)
    ensures var next := Grown(log, Mutate(log, rid, OnStep(id, v), e));
      && IsOneRow(log, next, id, EventOf(OnStep(id, v)), ActorOf(OnStep(id, v)), f.charge)
      && Last(next).steps[id] == Charged(f) && (f.step.status != Completed ==> Last(next).status == f.status)
  {
    hide Reached, Mutate, VerbEffect, StepOk, Charged, Kept;
    f := AppliedVerb(log, rid, id, v, e);
    AppliedPays(log, rid, id, v, e, f);
    RowNumber(log, |log| - 1);
  }

  lemma AppliedPays(log: Log, rid: string, id: StepId, v: Verb, e: Env, f: Effect)
    requires log != [] && Mutate(log, rid, OnStep(id, v), e).Applied? && EvidencePresent(v, e)
    requires id in Last(log).steps && VerbEffect(v, id, Last(log).steps[id], Last(log), e) == Ok(f)
    ensures var row := Mutate(log, rid, OnStep(id, v), e).row;
      && row.spend == Last(log).spend + f.charge && row.actor == ActorOf(OnStep(id, v)) && row.target == id
      && (f.step.status != Completed ==> row.status == f.status)
  {
    hide EvidencePresent, VerbEffect, Prior, StepsAfter;
  }

  // --- claims -------------------------------------------------------------------------------

  lemma ClaimIsRecorded(log: Log, rid: string, id: StepId, holder: string, e: Env)
    requires log != [] && Reached(log) && id in Last(log).steps && Last(log).steps[id].risk.Green?
    requires var v := Request(Last(log).steps[id].owner, Some(holder)); Goes(Mutate(log, rid, OnStep(id, v), e))
    ensures var r := Mutate(log, rid, OnStep(id, Request(Last(log).steps[id].owner, Some(holder))), e);
      if r.AtCeiling? then HitsCeiling(log, Grown(log, r)) else IsClaimed(log, Grown(log, r), id, holder)
  {
    hide Reached, Mutate, StepOk, IsOneRow, HitsCeiling;
    var v := Request(Last(log).steps[id].owner, Some(holder));
    if Mutate(log, rid, OnStep(id, v), e).Applied? {
      var f := AppliedRow(log, rid, id, v, e);
    } else {
      CeilingIsHit(log, rid, OnStep(id, v), e);
    }
  }

  lemma TakeoverIsRecorded(log: Log, rid: string, id: StepId, holder: string, e: Env)
    requires log != [] && Reached(log) && id in Last(log).steps
    requires var v := Take(Last(log).steps[id].owner, holder); Goes(Mutate(log, rid, OnStep(id, v), e))
    ensures var r := Mutate(log, rid, OnStep(id, Take(Last(log).steps[id].owner, holder)), e);
      if r.AtCeiling? then HitsCeiling(log, Grown(log, r)) else IsTaken(log, Grown(log, r), id, holder)
  {
    hide Reached, Mutate, StepOk, IsOneRow, HitsCeiling;
    var v := Take(Last(log).steps[id].owner, holder);
    if Mutate(log, rid, OnStep(id, v), e).Applied? {
      var f := AppliedRow(log, rid, id, v, e);
    } else {
      CeilingIsHit(log, rid, OnStep(id, v), e);
    }
  }

  /** A step whose claim has lapsed, of an active run in which this very takeover was not made before. */
  ghost predicate MayTake(log: Log, id: StepId, e: Env) {
    && log != [] && Last(log).status == Active && id in Last(log).steps && Last(log).steps[id].status == InProgress
    && !ClaimIsLive(Last(log).steps[id], e.now) && Prior(log, NameNow(log, id, "take")).None?
  }

  lemma TakeoverGoes(log: Log, id: StepId, holder: string, e: Env)
    requires MayTake(log, id, e)
    ensures Goes(Mutate(log, NameNow(log, id, "take"), OnStep(id, Take(Last(log).steps[id].owner, holder)), e))
  {
    hide Name, Commit, Prior;
  }

  // --- dispatches ---------------------------------------------------------------------------

  lemma WorkLands(w: Work, token: Option<Token>, state: Row, id: StepId, step: Step, row: Row, e: Env)
    requires var v := WorkVerb(w, step.owner, token, state, id);
      EvidencePresent(v, e) && VerbEffect(v, id, step, row, e).Ok?
    ensures var v := WorkVerb(w, step.owner, token, state, id);
      var f := VerbEffect(v, id, step, row, e).value;
      && f.charge == WorkPrice(w) && v.actor == step.owner
      && match w
         case AgentBusy =>
           f.step.status == Ready && f.step.attempts == if step.attempts > 0 then step.attempts - 1 else 0
         case AgentFailed => UsedUp(step, f.step)
         case Rejects(_) => UsedUp(step, f.step)
         case Ungradable(_) =>
           f.step.status == AwaitingApproval && f.step.held.Ungraded?
           && f.step.held.evidence == ArtifactName(state.runId, id, ".ungraded")
         case Delivered(_) => IsHandedIn(step, f.step, ArtifactName(state.runId, id, ""))
  {
    hide ArtifactName;
  }

  lemma WorkIsRecorded(log: Log, rid: string, id: StepId, w: Work, state: Row, e: Env)
    requires log != [] && Reached(log) && id in Last(log).steps
    requires var v := WorkVerb(w, Last(log).steps[id].owner, TokenOf(Last(log), id), state, id);
      Goes(Mutate(log, rid, OnStep(id, v), e))
    ensures var v := WorkVerb(w, Last(log).steps[id].owner, TokenOf(Last(log), id), state, id);
      IsRecorded(log, Grown(log, Mutate(log, rid, OnStep(id, v), e)), id, state.runId, w)
  {
    hide Reached, Mutate, VerbEffect, StepOk, HitsCeiling, ArtifactName, EvidencePresent;
    var v := WorkVerb(w, Last(log).steps[id].owner, TokenOf(Last(log), id), state, id);
    if Mutate(log, rid, OnStep(id, v), e).Applied? {
      var f := AppliedRow(log, rid, id, v, e);
      WorkLands(w, TokenOf(Last(log), id), state, id, Last(log).steps[id], Last(log), e);
    } else {
      CeilingIsHit(log, rid, OnStep(id, v), e);
    }
  }

  /** The driver parks a step in hand whose run has reached its ceiling, if the notice is on disk. */
  lemma StopGoes(log: Log, id: StepId, notice: string, e: Env)
    requires IsInHand(log, id) && notice in e.disk
    ensures var v := Hold(Last(log).steps[id].owner, TokenOf(Last(log), id), notice, OverBudget, 0);
      Goes(Mutate(log, NameNow(log, id, "over-budget"), OnStep(id, v), e))
  {
    hide Reached, AreCalm, NamesAreBelow, Name, AllOfKind, Commit, Prior, TextRank;
    WorkTexts();
    PresentNameIsNew(log, id, "over-budget");
  }

  lemma StopIsRecorded(log: Log, rid: string, id: StepId, notice: string, e: Env)
    requires log != [] && Reached(log) && id in Last(log).steps
    requires var v := Hold(Last(log).steps[id].owner, TokenOf(Last(log), id), notice, OverBudget, 0);
      Goes(Mutate(log, rid, OnStep(id, v), e))
    ensures var v := Hold(Last(log).steps[id].owner, TokenOf(Last(log), id), notice, OverBudget, 0);
      var r := Mutate(log, rid, OnStep(id, v), e);
      if r.AtCeiling? then HitsCeiling(log, Grown(log, r)) else IsBudgetStop(log, Grown(log, r), id)
  {
    hide Reached, Mutate, StepOk, HitsCeiling;
    var v := Hold(Last(log).steps[id].owner, TokenOf(Last(log), id), notice, OverBudget, 0);
    if Mutate(log, rid, OnStep(id, v), e).Applied? {
      var f := AppliedRow(log, rid, id, v, e);
    } else {
      CeilingIsHit(log, rid, OnStep(id, v), e);
    }
  }

  /** Work that was held for want of a grade and is in progress again: a person has accepted it. */
  ghost predicate MayFinish(log: Log, id: StepId, step: Step, state: Row, e: Env) {
    && IsLive(log) && id in Last(log).steps && Last(log).steps[id].status == InProgress
    && step.held.Ungraded? && step.owner == Last(log).steps[id].owner && state.revision == Last(log).revision
    && step.held.evidence in e.disk && Prior(log, NameNow(log, id, "complete")).None?
  }

  lemma AcceptanceGoes(log: Log, id: StepId, step: Step, state: Row, e: Env)
    requires MayFinish(log, id, step, state, e)
    ensures var v := Complete(step.owner, state.revision, TokenOf(Last(log), id), step.held.evidence, 0);
      Goes(Mutate(log, NameNow(log, id, "complete"), OnStep(id, v), e))
  {
    hide Reached, Name, Commit, Prior;
  }

  lemma FinishIsRecorded(log: Log, id: StepId, step: Step, state: Row, e: Env)
    requires MayFinish(log, id, step, state, e)
    ensures var v := Complete(step.owner, state.revision, TokenOf(Last(log), id), step.held.evidence, 0);
      var r := Mutate(log, NameNow(log, id, "complete"), OnStep(id, v), e);
      && Goes(r)
      && if r.AtCeiling? then HitsCeiling(log, Grown(log, r))
         else IsAccepted(log, Grown(log, r), id, step.held.evidence)
  {
    var v := Complete(step.owner, state.revision, TokenOf(Last(log), id), step.held.evidence, 0);
    var rid := NameNow(log, id, "complete");
    hide Reached, Mutate, StepOk, HitsCeiling, NameNow, Prior;
    AcceptanceGoes(log, id, step, state, e);
    if Mutate(log, rid, OnStep(id, v), e).Applied? {
      var f := AppliedRow(log, rid, id, v, e);
    } else {
      CeilingIsHit(log, rid, OnStep(id, v), e);
    }
  }

  // --- reviews ------------------------------------------------------------------------------

  lemma FilingIsRecorded(log: Log, rid: string, id: StepId, checker: string, review: Review, artifact: string, e: Env)
    requires log != [] && id in Last(log).steps && review.Reviewed?
    requires Goes(Mutate(log, rid, Filing(review, id, checker, Last(log).steps[id].owner, artifact), e))
    ensures var r := Mutate(log, rid, Filing(review, id, checker, Last(log).steps[id].owner, artifact), e);
      if r.AtCeiling? then HitsCeiling(log, Grown(log, r))
      else IsFiled(log, Grown(log, r), id, checker, review, artifact)
  {
    hide Mutate, HitsCeiling, IsSlug;
    var c := Filing(review, id, checker, Last(log).steps[id].owner, artifact);
    if Mutate(log, rid, c, e).Applied? {
      FiledRow(log, rid, c, e, Mutate(log, rid, c, e).row);
      FiledStamp(log, rid, c, e, Mutate(log, rid, c, e).row);
    } else {
      CeilingIsHit(log, rid, c, e);
    }
  }

  lemma FiledStamp(log: Log, rid: string, c: Command, e: Env, m: Row)
    requires log != [] && c.Send? && Mutate(log, rid, c, e) == Applied(m)
    ensures m.event == MessageSent && m.actor == c.sender && m.target == c.id && m.spend == Last(log).spend
  {
    hide Prior, Neighbours, Parties, IsSlug, FindMessage;
  }

  lemma RulingLands(review: Review, id: StepId, checker: string, step: Step, row: Row, e: Env)
    requires review.Reviewed?
    requires VerbEffect(RulingVerb(review.ruling, checker, review.message, review.cost), id, step, row, e).Ok?
    ensures var v := RulingVerb(review.ruling, checker, review.message, review.cost);
      var f := VerbEffect(v, id, step, row, e).value;
      && f.charge == Price(review.cost)
      && match review.ruling
         case Approves => f.step.status == Completed
         case Returns =>
           if step.reviewCycles < step.maxReviewCycles then
             f.step.status == Ready && f.step.reviewCycles == step.reviewCycles + 1
           else f.step.status == BlockedReviewLimit && f.status == RunBlockedReviewLimit
         case Refuses => f.step.status == RejectedByChecker && f.status == RunRejectedByChecker
  {
    hide CheckRefused;
  }

  lemma RulingIsRecorded(log: Log, rid: string, id: StepId, checker: string, review: Review, e: Env)
    requires log != [] && Reached(log) && id in Last(log).steps && review.Reviewed?
    requires var v := RulingVerb(review.ruling, checker, review.message, review.cost);
      Goes(Mutate(log, rid, OnStep(id, v), e))
    ensures var v := RulingVerb(review.ruling, checker, review.message, review.cost);
      var next := Grown(log, Mutate(log, rid, OnStep(id, v), e));
      HitsCeiling(log, next) || IsVerdict(log, next, id, checker, review)
  {
    hide Reached, Mutate, StepOk, HitsCeiling, VerbEffect;
    var v := RulingVerb(review.ruling, checker, review.message, review.cost);
    if Mutate(log, rid, OnStep(id, v), e).Applied? {
      var f := AppliedRow(log, rid, id, v, e);
      RulingLands(review, id, checker, Last(log).steps[id], Last(log), e);
    } else {
      CeilingIsHit(log, rid, OnStep(id, v), e);
    }
  }

  lemma BothAreRecorded(was: Log, mid: Log, log: Log, id: StepId, checker: string, review: Review, artifact: string)
    requires IsFiled(was, mid, id, checker, review, artifact)
    requires HitsCeiling(mid, log) || IsVerdict(mid, log, id, checker, review)
    ensures IsReviewDone(was, log, id, checker, review, artifact)
  {
    assert log[..|was| + 1] == mid;
  }

  /** A review whose requests go through is on record. */
  lemma ReviewIsOnRecord(was: Log, id: StepId, checker: string, review: Review, artifact: string, e: Env, f: Env)
    requires was != [] && Reached(was) && id in Last(was).steps && review.Reviewed?
    ensures var filing := Mutate(was, NameNow(was, id, "verdict-message"),
                                 Filing(review, id, checker, Last(was).steps[id].owner, artifact), e);
      && (filing.AtCeiling? ==> IsReviewDone(was, Grown(was, filing), id, checker, review, artifact))
      && (filing.Applied? && Reached(Grown(was, filing)) && id in filing.row.steps ==>
            var mid := Grown(was, filing);
            var ruling := Mutate(mid, NameNow(mid, id, RulingText(review.ruling)),
                                 OnStep(id, RulingVerb(review.ruling, checker, review.message, review.cost)), f);
            Goes(ruling) ==> IsReviewDone(was, Grown(mid, ruling), id, checker, review, artifact))
  {
    hide Reached, Mutate, IsFiled, IsVerdict, HitsCeiling, Filing, RulingText, RulingVerb, NameNow;
    var filing := Mutate(was, NameNow(was, id, "verdict-message"),
                         Filing(review, id, checker, Last(was).steps[id].owner, artifact), e);
    if Goes(filing) {
      FilingIsRecorded(was, NameNow(was, id, "verdict-message"), id, checker, review, artifact, e);
    }
    if filing.Applied? && Reached(Grown(was, filing)) && id in filing.row.steps {
      var mid := Grown(was, filing);
      var rid := NameNow(mid, id, RulingText(review.ruling));
      var v := RulingVerb(review.ruling, checker, review.message, review.cost);
      if Goes(Mutate(mid, rid, OnStep(id, v), f)) {
        RulingIsRecorded(mid, rid, id, checker, review, f);
        BothAreRecorded(was, mid, Grown(mid, Mutate(mid, rid, OnStep(id, v), f)), id, checker, review, artifact);
      }
    }
  }
}
