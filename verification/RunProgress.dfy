/** A run that is still active can always move or is waiting on a person, and the operator's view of
    a run (`health.classify`) tells the truth about it. */
module RunProgress {
  import opened Outcomes
  import opened Workflows
  import opened RunModel
  import opened RunInvariants

  lemma Blocker(steps: Steps, id: StepId) returns (d: StepId)
    requires GraphOk(steps) && PendingIsBlocked(steps) && id in steps && steps[id].status == Pending
    ensures d in steps[id].dependsOn && d in steps && steps[d].status != Completed
  {
    d :| d in steps[id].dependsOn && !IsDone(steps, d);
  }

  /** From any unfinished step, walking down unfinished dependencies ends at one that can move. */
  lemma {:induction false} UnfinishedHasMover(row: Row, rank: map<StepId, nat>, id: StepId) returns (mover: StepId)
    requires GraphOk(row.steps) && IsRank(GraphOfRun(row.steps), rank)
    requires PendingIsBlocked(row.steps) && StatusIsForced(row) && row.status == Active
    requires id in row.steps && row.steps[id].status != Completed
    ensures mover in row.steps && IsMovable(row.steps[mover].status)
    decreases if id in rank then rank[id] else 0
  {
    if row.steps[id].status == Pending {
      var d := Blocker(row.steps, id);
      assert d in GraphOfRun(row.steps)[id];
      hide PendingIsBlocked, StatusIsForced, IsDone;
      mover := UnfinishedHasMover(row, rank, d);
    } else {
      mover := id;
      assert EndOf(row.steps[id].status) == Active;
    }
  }

  lemma ActiveRowHasMover(row: Row) returns (mover: StepId)
    requires RowOk(row) && row.status == Active
    ensures mover in row.steps && IsMovable(row.steps[mover].status)
  {
    hide StepsOk, PendingIsBlocked, MoneyAddsUp;
    var id :| id in row.steps && row.steps[id].status != Completed;
    var rank :| IsRank(GraphOfRun(row.steps), rank);
    mover := UnfinishedHasMover(row, rank, id);
  }

  /** No reachable run is deadlocked: while it is active, some step is ready, in progress, awaiting a
      check or awaiting a person. */
  lemma NoDeadlock(log: Log)
    requires log != [] && Reached(log) && Last(log).status == Active
    ensures exists id :: id in Last(log).steps && IsMovable(Last(log).steps[id].status)
  {
    hide Reached, RowOk;
    LastIsOk(log);
    var mover := ActiveRowHasMover(Last(log));
  }

  // --- health -------------------------------------------------------------------------------

  datatype Health =
    | Finished | RedHandedBack | Stopped(status: RunStatus) | WaitingOnYou(parked: nat) | OutOfCycleBudget
    | NothingCanMove | Idle(movable: nat) | Running(movable: nat)

  function IdsWhere(steps: Steps, statuses: set<StepStatus>): set<StepId> {
    set id | id in steps && steps[id].status in statuses
  }

  const WAITING: set<StepStatus> := {AwaitingApproval, BlockedHuman}
  const MOVABLE: set<StepStatus> := {Ready, AwaitingCheck, InProgress}

  function Classify(row: Row, idleMinutes: Option<int>): Health {
    var parked := IdsWhere(row.steps, WAITING);
    var movable := IdsWhere(row.steps, MOVABLE);
    if row.status == RunCompleted then Finished
    else if row.status == RunBlockedHuman then RedHandedBack
    else if row.status != Active then Stopped(row.status)
    else if parked != {} then WaitingOnYou(|parked|)
    else if row.cycleCount >= row.maxCycles then OutOfCycleBudget
    else if movable == {} then NothingCanMove
    else if idleMinutes.Some? && idleMinutes.value >= 30 then Idle(|movable|)
    else Running(|movable|)
  }

  /** The verdict "nothing can move and nothing is waiting on you" is never given; "all steps
      completed" is given exactly then; an active run is "waiting on you" exactly when a step of it
      awaits approval; and a run is "handed back" exactly when a red step was. Any other ended run is "stopped"
      under its own status. A run at work, with nobody waited for, is "out of cycles" exactly when its cycles
      are used up, and otherwise "idle" from half an hour without a move on and "running" before; the counts
      are those of the steps that wait and of the steps that can move. */
  lemma HealthIsTruthful(log: Log, idleMinutes: Option<int>)
    requires log != [] && Reached(log)
    ensures Classify(Last(log), idleMinutes) != NothingCanMove
    ensures Classify(Last(log), idleMinutes) == Finished <==> AllCompleted(Last(log).steps)
    ensures Classify(Last(log), idleMinutes).WaitingOnYou? <==>
      Last(log).status == Active && HasStep(Last(log).steps, AwaitingApproval)
    ensures Classify(Last(log), idleMinutes) == RedHandedBack <==> HasStep(Last(log).steps, BlockedHuman)
    ensures forall status :: Classify(Last(log), idleMinutes) == Stopped(status) <==>
      Last(log).status == status && status !in {Active, RunCompleted, RunBlockedHuman}
    ensures Classify(Last(log), idleMinutes) == OutOfCycleBudget <==>
      IsAtWork(Last(log)) && Last(log).cycleCount == Last(log).maxCycles
    ensures Classify(Last(log), idleMinutes).Idle? <==>
      IsAtWork(Last(log)) && Last(log).cycleCount < Last(log).maxCycles && idleMinutes.Some? && idleMinutes.value >= 30
    ensures Classify(Last(log), idleMinutes).Running? <==>
      && IsAtWork(Last(log)) && Last(log).cycleCount < Last(log).maxCycles
      && (idleMinutes.Some? ==> idleMinutes.value < 30)
    ensures match Classify(Last(log), idleMinutes)
      case WaitingOnYou(parked) => parked == |Waiting(Last(log).steps)| > 0
      case Idle(movable) => movable == |Moving(Last(log).steps)| > 0
      case Running(movable) => movable == |Moving(Last(log).steps)| > 0
      case _ => true
  {
    hide Reached, RowOk, IdsWhere, HasStep, AllCompleted;
    LastIsOk(log);
    CyclesAreLeft(Last(log));
    CountsAreTrue(Last(log));
    ActiveIsNeverStuck(Last(log), idleMinutes);
    WaitingIsParked(Last(log), idleMinutes);
    EndsAreForced(Last(log));
  }

  /** Active, and no person is waited for. */
  ghost predicate IsAtWork(row: Row) {
    row.status == Active && !HasStep(row.steps, AwaitingApproval)
  }

  /** The steps a person must decide about. */
  function Waiting(steps: Steps): set<StepId> {
    set id | id in steps && steps[id].status == AwaitingApproval
  }

  /** The steps that can move without a person. */
  function Moving(steps: Steps): set<StepId> {
    set id | id in steps && IsMovable(steps[id].status) && steps[id].status != AwaitingApproval
  }

  lemma CyclesAreLeft(row: Row)
    requires RowOk(row)
    ensures row.cycleCount <= row.maxCycles
  {
  }

  lemma CountsAreTrue(row: Row)
    requires RowOk(row)
    ensures row.status == Active ==> IdsWhere(row.steps, WAITING) == Waiting(row.steps)
    ensures IdsWhere(row.steps, MOVABLE) == Moving(row.steps)
  {
    hide RowOk, AllCompleted, HasStep, IdsWhere, Waiting, Moving;
    EndsAreForced(row);
    SetsAreSame(row.steps);
  }

  lemma SetsAreSame(steps: Steps)
    ensures !HasStep(steps, BlockedHuman) ==> IdsWhere(steps, WAITING) == Waiting(steps)
    ensures IdsWhere(steps, MOVABLE) == Moving(steps)
  {
  }

  ghost predicate HasStep(steps: Steps, status: StepStatus) {
    exists id :: id in steps && steps[id].status == status
  }

  lemma ActiveIsNeverStuck(row: Row, idleMinutes: Option<int>)
    requires RowOk(row)
    ensures Classify(row, idleMinutes) != NothingCanMove
  {
    hide RowOk;
    if row.status == Active {
      var id := ActiveRowHasMover(row);
      assert id in IdsWhere(row.steps, WAITING) || id in IdsWhere(row.steps, MOVABLE);
    }
  }

  lemma WaitingIsParked(row: Row, idleMinutes: Option<int>)
    requires RowOk(row)
    ensures Classify(row, idleMinutes).WaitingOnYou? <==> row.status == Active && HasStep(row.steps, AwaitingApproval)
  {
    hide RowOk, HasStep, AllCompleted, IdsWhere;
    EndsAreForced(row);
    ParkedMeansHeld(row.steps);
  }

  lemma ParkedMeansHeld(steps: Steps)
    ensures IdsWhere(steps, WAITING) != {} <==> HasStep(steps, AwaitingApproval) || HasStep(steps, BlockedHuman)
  {
    forall id | id in steps && (steps[id].status == AwaitingApproval || steps[id].status == BlockedHuman)
      ensures id in IdsWhere(steps, WAITING)
    {
    }
  }

  lemma EndsAreForced(row: Row)
    requires RowOk(row)
    ensures row.status == RunBlockedHuman <==> HasStep(row.steps, BlockedHuman)
    ensures row.status == RunCompleted <==> AllCompleted(row.steps)
  {
    hide StepsOk, GraphOk, PendingIsBlocked, MoneyAddsUp;
    if HasStep(row.steps, BlockedHuman) {
      var id :| id in row.steps && row.steps[id].status == BlockedHuman;
      assert EndOf(row.steps[id].status) == RunBlockedHuman;
    }
  }
}
