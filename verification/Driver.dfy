/** The autonomous driver (`executor_drive.advance`, `drive_step`, `checking.drive_check`): one holder
    that moves every step it may, pass after pass, until the run ends, a person is needed, or the
    allowed number of passes is used up. Agents, checkers, clocks and disks answer from outside. */
module Driver {
  import opened Outcomes
  import opened Workflows
  import opened RunModel
  import opened RunInvariants
  import opened RunProgress
  import opened RunReplay
  import opened RunReview
  import opened RunMoney
  import opened Names
  import opened DriverMoves
  import opened DriverRecords
  import opened DriverSteps

  class Driver {
    const holder: string
    const world: nat -> Tick
    var log: Log
    var clock: nat
    var misses: nat

    constructor (log: Log, holder: string, world: nat -> Tick)
      ensures this.log == log && this.holder == holder && this.world == world && misses == 0
    {
      this.log, this.holder, this.world := log, holder, world;
      clock, misses := 0, 0;
    }

    ghost predicate Valid()
      reads this
    {
      log != [] && Reached(log)
    }

    /** The world outside gives no cause to stop. */
    ghost predicate Smooth()
      reads this
    {
      IsSmooth(log, world, clock)
    }

    /** The base ceiling, if every look outside finds the same positive one. */
    ghost function Base(): (base: Option<int>)
      ensures base.Some? ==> base.value > 0 && forall n :: world(n).env.baseCeiling == base.value
    {
      var first := world(0).env.baseCeiling;
      if first > 0 && forall n :: world(n).env.baseCeiling == first then Some(first) else None
    }

    method Look() returns (t: Tick)
      modifies this`clock
      ensures t == world(old(clock)) && clock == old(clock) + 1
      ensures old(Smooth()) ==> Smooth()
    {
      hide IsSmooth;
      t := world(clock);
      if Smooth() { LaterIsSmooth(log, world, clock); }
      clock := clock + 1;
    }

    /** One runtime command, under the name of the step's present moment. */
    method Move(id: StepId, verb: string, v: Verb) returns (r: Verdict)
      requires Valid() && id in Last(log).steps && (IsDriverVerb(v) || v.Take?) && Suits(verb, v)
      requires MayPark(log, OnStep(id, v), Base())
      modifies this`log, this`clock
      ensures Valid() && Extends(old(log), log, Base()) && Last(log).steps.Keys == Last(old(log)).steps.Keys
      ensures r == Mutate(old(log), NameNow(old(log), id, verb), OnStep(id, v), world(old(clock)).env)
      ensures log == Grown(old(log), r) && clock == old(clock) + 1
      ensures Last(old(log)).status != Active ==> log == old(log)
      ensures old(Smooth()) ==> Smooth()
      ensures r.AtCeiling? ==> Last(log).status != Active
      ensures IsQuiet(old(log), Some(id)) && IsTimely(Last(old(log)).steps[id], v, verb) ==> Leaves(old(log), id, v, r)
    {
      hide IsSmooth, Reached, Mutate, IsQuiet, Leaves, Name, Extends, IsNamed, Suits;
      var t := Look();
      var rid := NameNow(log, id, verb);
      SuitedIsNamed(Last(log), id, verb, OnStep(id, v), t.env);
      RequestExtends(log, rid, OnStep(id, v), t.env, Base());
      if IsQuiet(log, Some(id)) && IsTimely(Last(log).steps[id], v, verb) {
        QuietMove(log, id, v, verb, t.env);
      }
      r := Mutate(log, rid, OnStep(id, v), t.env);
      log := Grown(log, r);
      if old(Smooth()) {
        StepMoveIsSilent(old(log), rid, id, v, t.env);
        MoveIsWhole(old(log), rid, id, v, world, old(clock));
        StaysSmooth(old(log), log, world, old(clock), clock, Base());
      }
    }

    /** Stops before spending: parks the step when the run's bill has reached its ceiling. A refused
        parking is logged and the step goes on. */
    method ParkOverBudget(id: StepId, owner: string, state: Row) returns (parked: bool)
      requires Valid() && id in Last(log).steps && state in log
      modifies this`log, this`clock
      ensures Valid() && Extends(old(log), log, Base()) && Last(log).steps.Keys == Last(old(log)).steps.Keys
      ensures old(Smooth()) ==> Smooth()
      ensures old(clock) < clock <= old(clock) + 2
      ensures var ceiling := CeilingOf(state, world(old(clock)).env.baseCeiling);
        var notice := ArtifactName(state.runId, id, ".over-budget");
        if ceiling == 0 || Last(old(log)).spend < ceiling then
          !parked && log == old(log) && clock == old(clock) + 1
        else
          && IsInHand(old(log), id) && owner == Last(old(log)).steps[id].owner
          && notice in world(old(clock) + 1).env.disk ==>
            if parked then IsBudgetStop(old(log), log, id) else HitsCeiling(old(log), log)
      ensures !parked ==> log == old(log) || Last(log).status != Active
      ensures Last(old(log)).status != Active ==> log == old(log)
      ensures IsQuiet(old(log), Some(id)) && StatusRank(Last(old(log)).steps[id].status) == 0 && parked ==>
        Paid(old(log), log, id, 0, 0)
    {
      hide ArtifactName, IsSmooth, Reached, IsQuiet, Extends, Phi, Untouched, Weight, AllOfKind, TextRank, Mutate,
           NameNow, IsBudgetStop, HitsCeiling, Leaves, Paid, IsTimely, Suits, IsDriverVerb, DrivenAt, IsInHand;
      parked := false;
      SameExtends(log, Base());
      var t := Look();
      var base := if t.env.baseCeiling > 0 then t.env.baseCeiling else 0;
      var ceiling := if state.ceiling != 0 then state.ceiling else base;
      if ceiling != 0 && Last(log).spend >= ceiling {
        SnapshotIsSpent(log, state, t.env.baseCeiling, ceiling, Base());
        var notice := ArtifactName(state.runId, id, ".over-budget");
        ghost var at := clock;
        if IsInHand(log, id) && notice in world(at).env.disk { StopGoes(log, id, notice, world(at).env); }
        var v := Hold(owner, TokenOf(Last(log), id), notice, OverBudget, 0);
        StopSuits(Last(log).steps[id], v);
        var r := Move(id, "over-budget", v);
        parked := !Exits(r);
        if parked && Leaves(old(log), id, v, r) { StopIsPaid(old(log), id, v, r); }
        if IsInHand(old(log), id) && owner == Last(old(log)).steps[id].owner && Goes(r) {
          StopIsRecorded(old(log), NameNow(old(log), id, "over-budget"), id, notice, world(at).env);
        }
      }
    }

    /** The model call and what follows from it. */
    method Dispatch(id: StepId, owner: string, state: Row) returns (raised: bool)
      requires Valid() && id in Last(log).steps && state in log
      modifies this
      ensures Valid() && Extends(old(log), log, Base()) && Last(log).steps.Keys == Last(old(log)).steps.Keys
      ensures old(clock) < clock && (old(Smooth()) ==> Smooth())
      ensures misses == old(misses) + if world(old(clock)).work.AgentBusy? then 1 else 0
      ensures IsInHand(old(log), id) && owner == Last(old(log)).steps[id].owner && (old(Smooth()) || !raised) ==>
        IsRecorded(old(log), log, id, state.runId, world(old(clock)).work)
      ensures Last(old(log)).status != Active ==> log == old(log)
      ensures !raised && IsInHand(old(log), id) ==>
        Paid(old(log), log, id, misses - old(misses), -1)
      ensures old(Smooth()) && IsInHand(old(log), id) && owner == Last(old(log)).steps[id].owner && raised ==>
        Last(log).status != Active
    {
      hide IsRecorded, IsSmooth, HasFiles, Reached, IsQuiet, Extends, Phi, Untouched, Weight, AllOfKind, TextRank,
           Mutate, NameNow;
      WorkTexts();
      hide WorkText, WorkVerb, IsDriverVerb, VerbRank;
      var t := Look();
      var work := t.work;
      if IsInHand(log, id) { InHandIsLive(log, id); }
      SameExtends(log, Base());
      if !work.AgentBusy? && !work.AgentFailed? && Last(log).status != Active {
        return false;
      }
      if work.AgentBusy? { misses := misses + 1; }
      ghost var at := clock;
      if Smooth() {
        SameStep(log, state, id);
        FilesAreThere(log, state, id, world, clock, clock);
        if IsInHand(log, id) { WorkGoes(log, id, work, state, world(at).env); }
      }
      var r := Move(id, WorkText(work), WorkVerb(work, owner, TokenOf(Last(log), id), state, id));
      raised := Exits(r);
      if IsInHand(old(log), id) && owner == Last(old(log)).steps[id].owner && Goes(r) {
        WorkIsRecorded(old(log), NameNow(old(log), id, WorkText(work)), id, work, state, world(at).env);
      }
    }

    /** Hands in work whose quality gate could not run and that a person has accepted since. */
    method FinishApprovedHold(id: StepId, step: Step, state: Row) returns (finished: bool, raised: bool)
      requires Valid() && id in Last(log).steps
      modifies this`log, this`clock
      ensures Valid() && Extends(old(log), log, Base()) && Last(log).steps.Keys == Last(old(log)).steps.Keys
      ensures Last(old(log)).status != Active ==> log == old(log)
      ensures old(Smooth()) ==> Smooth()
      ensures old(clock) <= clock && (!step.held.Ungraded? ==> !finished && !raised && clock == old(clock))
      ensures MayFinish(old(log), id, step, state, world(old(clock)).env) ==>
        if finished then IsAccepted(old(log), log, id, step.held.evidence) else HitsCeiling(old(log), log)
      ensures !finished && !raised ==> log == old(log)
    {
      hide HitsCeiling, IsAccepted, IsSmooth, Reached, IsQuiet, Extends, AllOfKind, TextRank, Mutate, NameNow,
           Suits, IsDriverVerb, IsTimely, Leaves;
      SameExtends(log, Base());
      finished, raised := false, false;
      if step.held.Ungraded? {
        ghost var at := clock;
        if MayFinish(log, id, step, state, world(at).env) { FinishIsRecorded(log, id, step, state, world(at).env); }
        var v := Complete(step.owner, state.revision, TokenOf(Last(log), id), step.held.evidence, 0);
        NamesSuit(v);
        var r := Move(id, "complete", v);
        finished, raised := !Exits(r), Exits(r);
      }
    }

    /** Gets the step into this driver's hands: a claim of a ready one, or a takeover of one in progress. */
    method Begin(id: StepId, snapshot: Row) returns (goes: bool, raised: bool, state: Row)
      requires Valid() && id in Last(log).steps && id in snapshot.steps && snapshot in log
      modifies this`log, this`clock
      ensures Valid() && Extends(old(log), log, Base()) && Last(log).steps.Keys == Last(old(log)).steps.Keys
      ensures Last(old(log)).status != Active ==> log == old(log)
      ensures old(Smooth()) ==> Smooth()
      ensures id in state.steps && (goes ==> !raised) && state in log
      ensures Finds(old(log), snapshot, id, Ready) && !raised ==> IsBegun(old(log), log, id, goes) && state == snapshot
      ensures old(clock) < clock <= old(clock) + 2
      ensures Finds(old(log), snapshot, id, Ready) ==>
        && clock == old(clock) + 1
        && if raised then HitsCeiling(old(log), log)
           else IsClaimed(old(log), log, id, holder) && goes == Last(log).steps[id].status.InProgress?
      ensures snapshot.steps[id].status == InProgress ==>
        && !raised
        && var step := snapshot.steps[id];
           if step.holder == holder then goes && log == old(log) && state == snapshot
           else if ClaimIsLive(step, world(old(clock)).env.now) then !goes && log == old(log)
           else
             step == Last(old(log)).steps[id] && MayTake(old(log), id, world(old(clock) + 1).env) ==>
               if goes then IsTaken(old(log), log, id, holder) && state == Last(log) else HitsCeiling(old(log), log)
      ensures Stalls(old(log), snapshot, id) ==> log == old(log) && !goes && !raised
    {
      hide HitsCeiling, IsClaimed, IsTaken, IsSmooth, Reached, IsQuiet, Extends, Phi, Untouched, Weight, AllOfKind,
           TextRank, Mutate, NameNow, IsSwallowed, Suits, IsDriverVerb, IsTimely, MayTake, ClaimIsLive;
      SameExtends(log, Base());
      state := snapshot;
      var step := snapshot.steps[id];
      if IsQuiet(log, None) {
        HandMayBeFull(log, id);
      }
      var r;
      if step.status == InProgress {
        var t := Look();
        if ClaimIsLive(step, t.env.now) && step.holder != holder { return false, false, state; }
        if step.holder != holder {
          ghost var at := clock;
          if step == Last(log).steps[id] && MayTake(log, id, world(at).env) {
            TakeoverGoes(log, id, holder, world(at).env);
            TakeoverIsRecorded(log, NameNow(log, id, "take"), id, holder, world(at).env);
          }
          NamesSuit(Take(step.owner, holder));
          r := Move(id, "take", Take(step.owner, holder));
          ExtendsKeeps(old(log), log, snapshot, Base());
          if Exits(r) { return false, false, state; }
          state := Last(log);
        }
        return true, false, state;
      }
      ghost var at := clock;
      if Finds(log, snapshot, id, Ready) {
        ClaimGoes(log, id, holder, world(at).env);
        FoundIsGreen(log, snapshot, id, Ready);
        ClaimIsRecorded(log, NameNow(log, id, "claim"), id, holder, world(at).env);
      }
      NamesSuit(Request(step.owner, Some(holder)));
      if Last(log).steps[id].status == Ready { ReadyIsTimely(Last(log).steps[id], Request(step.owner, Some(holder))); }
      r := Move(id, "claim", Request(step.owner, Some(holder)));
      if Stalls(old(log), snapshot, id) { SwallowedIsReplayed(old(log), id, holder, world(at).env); }
      ExtendsKeeps(old(log), log, snapshot, Base());
      if Exits(r) { return false, true, state; }
      goes := r.Applied? && Last(log).steps[id].status == InProgress;
      raised := false;
    }

    /** What follows once the step is in hand: approved work is handed in, a spent budget parks it, and
        otherwise it is dispatched. */
    method Work(id: StepId, state: Row) returns (raised: bool)
      requires Valid() && id in Last(log).steps && id in state.steps && state in log
      modifies this
      ensures Valid() && Extends(old(log), log, Base()) && Last(log).steps.Keys == Last(old(log)).steps.Keys
      ensures old(Smooth()) ==> Smooth()
      ensures old(clock) <= clock && AreMissing(world, log, old(clock), clock, misses - old(misses))
      ensures !state.steps[id].held.Ungraded? && IsInHand(old(log), id) && (old(Smooth()) || !raised) ==>
        IsWorked(old(log), log, id, state, world(old(clock)), world(old(clock) + 1))
      ensures MayFinish(old(log), id, state.steps[id], state, world(old(clock)).env) ==>
        HitsCeiling(old(log), log) || IsAccepted(old(log), log, id, state.steps[id].held.evidence)
      ensures misses >= old(misses) && (Last(old(log)).status != Active ==> log == old(log))
      ensures !raised && !state.steps[id].held.Ungraded? && IsInHand(old(log), id) ==>
        Paid(old(log), log, id, misses - old(misses), -1)
      ensures old(Smooth()) && !state.steps[id].held.Ungraded? && IsInHand(old(log), id) && raised ==>
        Last(log).status != Active
    {
      hide IsAccepted, IsRecorded, IsBudgetStop, IsAnswered, AreMissing, MayFinish, ArtifactName;
      hide IsSmooth, Reached, IsQuiet, Extends, Phi, Untouched, Weight;
      var step := state.steps[id];
      SameStep(log, state, id);
      ghost var from := clock;
      var finished;
      finished, raised := FinishApprovedHold(id, step, state);
      NoneMissed(world, log, from, clock);
      if finished || raised { return; }
      ghost var undone := log;
      var parked := ParkOverBudget(id, step.owner, state);
      NoneMissed(world, log, from, clock);
      ExtendsMore(old(log), undone, log, Base());
      ExtendsKeeps(old(log), log, state, Base());
      if parked { return; }
      undone := log;
      SameStep(log, state, id);
      ghost var at := clock;
      raised := Dispatch(id, step.owner, state);
      ExtendsMore(old(log), undone, log, Base());
      OneMissed(world, log, from, at, clock, misses - old(misses));
    }

    /** One step of one pass, from the snapshot the pass began with. */
    method DriveStep(id: StepId, snapshot: Row) returns (raised: bool)
      requires Valid() && id in Last(log).steps && id in snapshot.steps && snapshot in log
      modifies this
      ensures Valid() && Extends(old(log), log, Base()) && Last(log).steps.Keys == Last(old(log)).steps.Keys
      ensures old(Smooth()) ==> Smooth()
      ensures old(clock) <= clock && AreMissing(world, log, old(clock), clock, misses - old(misses))
      ensures Finds(old(log), snapshot, id, Ready) && (old(Smooth()) || !raised) ==>
        IsDriven(old(log), log, id, holder, snapshot, world(old(clock) + 1), world(old(clock) + 2))
      ensures misses >= old(misses) && (Last(old(log)).status != Active ==> Last(log).status != Active)
      ensures Finds(old(log), snapshot, id, Ready) && !raised ==>
        Paid(old(log), log, id, misses - old(misses), 1)
      ensures old(Smooth()) && Finds(old(log), snapshot, id, Ready) && raised ==> Last(log).status != Active
      ensures Stalls(old(log), snapshot, id) ==> log == old(log) && misses == old(misses) && !raised
    {
      hide AreMissing, IsOneRow, IsWorked, IsTaken, MayTake, MayFinish, IsAccepted;
      hide IsSmooth, Reached, IsQuiet, Extends, Phi, Untouched, Weight, IsSwallowed;
      ghost var from := clock;
      var goes, state;
      goes, raised, state := Begin(id, snapshot);
      NoneMissed(world, log, from, clock);
      if !goes { return; }
      if IsQuiet(old(log), None) {
        HandMayBeFull(old(log), id);
      }
      ghost var begun, at := log, clock;
      raised := Work(id, state);
      ExtendsMore(old(log), begun, log, Base());
      MissesAdd(world, begun, log, Base(), from, at, clock, 0, misses - old(misses));
      if Finds(old(log), snapshot, id, Ready) {
        if old(Smooth()) || !raised {
          ClaimedAndWorked(old(log), begun, log, Base(), id, holder, state, world(at), world(at + 1));
        }
        if !raised && Last(log).status == Active {
          PaidTwice(old(log), begun, log, id, misses - old(misses), -1);
        }
      }
    }

    /** Files the checker's review as a message to the maker. */
    method Post(id: StepId, c: Command) returns (r: Verdict)
      requires Valid() && id in Last(log).steps && c.Send?
      modifies this`log, this`clock
      ensures Valid() && Extends(old(log), log, Base()) && Last(log).steps.Keys == Last(old(log)).steps.Keys
      ensures r == Mutate(old(log), NameNow(old(log), id, "verdict-message"), c, world(old(clock)).env)
      ensures clock == old(clock) + 1
      ensures old(Smooth()) && IsUnused(c.id, world, clock) ==> Smooth()
      ensures r.AtCeiling? ==> Last(log).status != Active
      ensures log == Grown(old(log), r) && (Last(old(log)).status != Active ==> log == old(log))
      ensures IsQuiet(old(log), None) && Last(old(log)).steps[id].status == AwaitingCheck ==>
        && !r.Replayed?
        && (r.Applied? ==>
              && r.row.steps == Last(old(log)).steps && IsLive(log)
              && r.row.requestId == NameNow(old(log), id, "verdict-message"))
    {
      hide IsSmooth, IsUnused, Reached, Mutate, IsQuiet, Name, Extends, IsNamed;
      var t := Look();
      var rid := NameNow(log, id, "verdict-message");
      FilingText();
      SuitedIsNamed(Last(log), id, "verdict-message", c, t.env);
      RequestExtends(log, rid, c, t.env, Base());
      if IsQuiet(log, None) && Last(log).steps[id].status == AwaitingCheck {
        QuietFiling(log, id, c, t.env);
      }
      r := Mutate(log, rid, c, t.env);
      log := Grown(log, r);
      if old(Smooth()) && IsUnused(c.id, world, clock) {
        FilingIsSmooth(old(log), rid, c, t.env, world, old(clock), Base());
      }
    }

    /** Files a review that came as a message to the maker, and records its ruling. */
    method Rule(id: StepId, snapshot: Row, review: Review, ghost eased: bool) returns (raised: bool)
      requires Valid() && id in Last(log).steps && id in snapshot.steps && snapshot.steps[id].checker.Some?
      requires snapshot in log && review.Reviewed?
      requires eased ==> clock > 0 && review == world(clock - 1).review && IsSmooth(log, world, clock - 1)
      modifies this`log, this`clock
      ensures Valid() && Extends(old(log), log, Base()) && Last(log).steps.Keys == Last(old(log)).steps.Keys
      ensures eased ==> Smooth()
      ensures old(clock) <= clock && (Last(old(log)).status != Active ==> Last(log).status != Active)
      ensures Finds(old(log), snapshot, id, AwaitingCheck) && !raised ==> Paid(old(log), log, id, 0, 1)
      ensures Finds(old(log), snapshot, id, AwaitingCheck) && (eased || !raised) ==>
        IsReviewDone(old(log), log, id, snapshot.steps[id].checker.value, review, ReviewArtifact(snapshot, id))
      ensures eased && Finds(old(log), snapshot, id, AwaitingCheck) && raised ==> Last(log).status != Active
    {
      hide IsReviewDone, IsObliging, IsSmooth, Reached, IsQuiet, Extends, Phi, Name, Untouched, Weight, AllOfKind,
           TextRank, Mutate, IsDriverVerb, VerbRank, ReviewArtifact, Filing;
      var step := snapshot.steps[id];
      var checker := step.checker.value;
      ghost var found, from := Finds(log, snapshot, id, AwaitingCheck), clock;
      if eased {
        IdIsSpent(log, world, from - 1);
        LaterIsSmooth(log, world, from - 1);
        if found { ReviewIsFiled(log, snapshot, id, world, from - 1); }
      }
      var r := Post(id, Filing(review, id, checker, step.owner, ReviewArtifact(snapshot, id)));
      if found {
        ReviewIsOnRecord(old(log), id, checker, review, ReviewArtifact(snapshot, id), world(from).env,
                         world(from + 1).env);
      }
      if Exits(r) { return true; }
      ghost var filed := log;
      if found && eased { ReviewIsRecorded(old(log), snapshot, id, world, from - 1, r.row); }
      r := Move(id, RulingText(review.ruling), RulingVerb(review.ruling, checker, review.message, review.cost));
      ExtendsMore(old(log), filed, log, Base());
      raised := Exits(r);
      if found {
        QuietRecord(old(log), id, Last(filed), RulingVerb(review.ruling, checker, review.message, review.cost),
                    RulingText(review.ruling), world(from + 1).env);
      }
    }

    /** One independent review of a submission that is still the file it was. */
    method DriveCheck(id: StepId, snapshot: Row) returns (raised: bool)
      requires Valid() && id in Last(log).steps && id in snapshot.steps && snapshot.steps[id].checker.Some?
      requires snapshot in log && snapshot.steps[id].status == AwaitingCheck
      modifies this
      ensures Valid() && Extends(old(log), log, Base()) && Last(log).steps.Keys == Last(old(log)).steps.Keys
      ensures old(Smooth()) ==> Smooth()
      ensures old(clock) < clock && AreMissing(world, log, old(clock), clock, misses - old(misses))
      ensures var t, step := world(old(clock)), snapshot.steps[id];
        if t.review.NoReview? || SubmissionRefused(step, t.env).Some? then
          misses == old(misses) + 1 && log == old(log) && !raised
        else
          && misses == old(misses)
          && (Finds(old(log), snapshot, id, AwaitingCheck) && (old(Smooth()) || !raised) ==>
                IsReviewDone(old(log), log, id, step.checker.value, t.review, ReviewArtifact(snapshot, id)))
      ensures old(Smooth()) && Finds(old(log), snapshot, id, AwaitingCheck) ==>
        SubmissionRefused(snapshot.steps[id], world(old(clock)).env).None?
      ensures misses >= old(misses) && (Last(old(log)).status != Active ==> Last(log).status != Active)
      ensures Finds(old(log), snapshot, id, AwaitingCheck) && !raised ==>
        Paid(old(log), log, id, misses - old(misses), 1)
      ensures old(Smooth()) && Finds(old(log), snapshot, id, AwaitingCheck) && raised ==> Last(log).status != Active
    {
      hide IsReviewDone, AreMissing, IsMissing, SubmissionRefused, ReviewArtifact, Finds, IsSmooth, Reached, Extends,
           Paid;
      SameExtends(log, Base());
      ghost var found, from := Finds(log, snapshot, id, AwaitingCheck), clock;
      if found && Smooth() { FoundIsWhole(log, snapshot, id, world, from); }
      var t := Look();
      if SubmissionRefused(snapshot.steps[id], t.env).Some? || t.review.NoReview? {
        misses := misses + 1;
        CheckIsMissing(world, log, from, clock, snapshot, id);
        FoundStandsStill(log, snapshot, id);
        return false;
      }
      raised := Rule(id, snapshot, t.review, old(Smooth()));
      NoneMissed(world, log, from, clock);
    }

    method DriveAll(ids: set<StepId>, checks: set<StepId>, snapshot: Row) returns (raised: bool)
      requires Valid() && ids <= Last(log).steps.Keys && ids <= snapshot.steps.Keys && ids !! checks
      requires snapshot in log
      modifies this
      ensures Valid() && Extends(old(log), log, Base()) && Last(log).steps.Keys == Last(old(log)).steps.Keys
      ensures old(Smooth()) ==> Smooth()
      ensures old(clock) <= clock && AreMissing(world, log, old(clock), clock, misses - old(misses))
      ensures misses >= old(misses) && (Last(old(log)).status != Active ==> Last(log).status != Active)
      ensures !raised && AllAt(snapshot, ids, Ready) && Level(old(log), old(log), ids + checks, snapshot, 0, 0) ==>
        Level(old(log), log, checks, snapshot, misses - old(misses), |ids|)
      ensures AllAt(snapshot, ids, Ready) && Level(old(log), old(log), ids + checks, snapshot, 0, 0) ==>
        old(Smooth()) && raised ==> Last(log).status != Active
      ensures AllAt(snapshot, ids, Ready) && Level(old(log), old(log), ids + checks, snapshot, 0, 0) ==>
        !raised && Last(log).status == Active ==> AreRequested(log, |old(log)|, ids, {})
      ensures (forall id | id in ids :: Stalls(old(log), snapshot, id)) ==>
        log == old(log) && misses == old(misses) && !raised
    {
      hide *;
      SameExtends(log, Base());
      ghost var start, spent, eased, from := log, misses, Smooth(), clock;
      NoneMissed(world, log, from, clock);
      ghost var fits := Level(log, log, ids + checks, snapshot, 0, 0) && AllAt(snapshot, ids, Ready);
      ghost var stuck := forall id | id in ids :: Stalls(log, snapshot, id);
      if fits { WorkBegins(log, ids, checks, snapshot); }
      var todo := ids;
      raised := false;
      while todo != {}
        invariant Valid() && snapshot in log && Extends(start, log, Base())
          && Last(log).steps.Keys == Last(start).steps.Keys
        invariant misses >= spent && (Last(start).status != Active ==> Last(log).status != Active)
        invariant from <= clock && AreMissing(world, log, from, clock, misses - spent)
        invariant eased ==> Smooth()
        invariant todo <= ids && !raised
        invariant fits ==> IsUnderWay(start, log, ids, todo, checks, snapshot, misses - spent)
        invariant stuck ==> log == start && misses == spent
        decreases todo
      {
        var id :| id in todo;
        ghost var before, had, at := log, misses, clock;
        raised := DriveStep(id, snapshot);
        ExtendsMore(start, before, log, Base());
        ExtendsKeeps(before, log, snapshot, Base());
        MissesAdd(world, before, log, Base(), from, at, clock, had - spent, misses - had);
        if fits {
          WorkGoesOn(start, before, log, Base(), ids, todo, checks, id, snapshot, had - spent, misses - had, raised,
                     eased, holder, world(at + 1), world(at + 2));
        }
        if raised { return; }
        todo := todo - {id};
      }
      if fits { WorkEnds(start, log, ids, checks, snapshot, misses - spent); }
    }

    method CheckAll(ids: set<StepId>, snapshot: Row) returns (raised: bool)
      requires Valid() && ids <= Last(log).steps.Keys && ids <= snapshot.steps.Keys
      requires forall id | id in ids :: snapshot.steps[id].checker.Some?
      requires snapshot in log && AllAt(snapshot, ids, AwaitingCheck)
      modifies this
      ensures Valid() && Extends(old(log), log, Base()) && Last(log).steps.Keys == Last(old(log)).steps.Keys
      ensures old(Smooth()) ==> Smooth()
      ensures old(clock) <= clock && AreMissing(world, log, old(clock), clock, misses - old(misses))
      ensures misses >= old(misses) && (Last(old(log)).status != Active ==> Last(log).status != Active)
      ensures !raised && Level(old(log), old(log), ids, snapshot, 0, 0) ==>
        Level(old(log), log, {}, snapshot, misses - old(misses), |ids|)
      ensures Level(old(log), old(log), ids, snapshot, 0, 0) ==>
        old(Smooth()) && raised ==> Last(log).status != Active
      ensures ids == {} ==> log == old(log) && misses == old(misses) && !raised
    {
      hide *;
      SameExtends(log, Base());
      ghost var start, spent, eased := log, misses, Smooth();
      ghost var from := clock;
      NoneMissed(world, log, from, clock);
      ghost var fits := Level(log, log, ids, snapshot, 0, 0);
      var todo := ids;
      raised := false;
      while todo != {}
        invariant Valid() && snapshot in log && Extends(start, log, Base())
          && Last(log).steps.Keys == Last(start).steps.Keys
        invariant misses >= spent && (Last(start).status != Active ==> Last(log).status != Active)
        invariant from <= clock && AreMissing(world, log, from, clock, misses - spent)
        invariant eased ==> Smooth()
        invariant todo <= ids && !raised
        invariant ids == {} ==> log == start && misses == spent
        invariant fits ==> Level(start, log, todo, snapshot, misses - spent, |ids| - |todo|)
        decreases todo
      {
        var id :| id in todo;
        ghost var before, had, at := log, misses, clock;
        AtOne(snapshot, ids, AwaitingCheck, id);
        raised := DriveCheck(id, snapshot);
        ExtendsMore(start, before, log, Base());
        ExtendsKeeps(before, log, snapshot, Base());
        MissesAdd(world, before, log, Base(), from, at, clock, had - spent, misses - had);
        if fits {
          LevelStep(start, before, log, todo, id, snapshot, had - spent, misses - had, |ids| - |todo|, AwaitingCheck,
                    raised, eased);
        }
        if raised { return; }
        todo := todo - {id};
      }
    }

    /** One pass: the work first, then the checks, all from the snapshot the pass began with. */
    method Pass(state: Row, ready: set<StepId>, checks: set<StepId>) returns (raised: bool)
      requires Valid() && state == Last(log) && state.status == Active && (ready != {} || checks != {})
      requires AreOpen(state, ready)
      requires AllAt(state, checks, AwaitingCheck)
      modifies this
      ensures Valid() && Extends(old(log), log, Base()) && misses >= old(misses)
      ensures old(Smooth()) ==> Smooth()
      ensures old(clock) <= clock && AreMissing(world, log, old(clock), clock, misses - old(misses))
      ensures IsQuiet(old(log), None) && !raised && Last(log).status == Active ==>
        AreRequested(log, |old(log)|, ready, {})
      ensures old(Smooth()) && IsQuiet(old(log), None) && raised ==> Last(log).status != Active
      ensures IsQuiet(old(log), None) && !raised ==> Worth(old(log), log, misses - old(misses))
      ensures (forall id | id in ready :: Stalls(old(log), state, id)) && checks == {} ==>
        log == old(log) && misses == old(misses) && !raised
    {
      hide AreMissing, AreRequested, IsSmooth, Stalls, Reached, Extends, Level, IsQuiet, Phi, OnTrack, Worth, AllAt,
           AreOpen;
      PassIsApart(log, ready, checks);
      NotBoth(ready, checks);
      ghost var from := clock;
      ghost var quiet := IsQuiet(log, None);
      if quiet { PassBegins(log, ready, checks); }
      raised := DriveAll(ready, checks, state);
      if raised { return; }
      ghost var between, have, at := log, misses, clock;
      if quiet { LevelAgain(old(log), between, checks, state, have - old(misses), |ready|); }
      ExtendsKeeps(old(log), log, state, Base());
      raised := CheckAll(checks, state);
      ExtendsMore(old(log), between, log, Base());
      MissesAdd(world, between, log, Base(), from, at, clock, have - old(misses), misses - have);
      if quiet && !raised {
        if Last(between).status == Active { RequestedStays(between, log, Base(), |old(log)|, ready, {}); }
        PassEnds(old(log), between, log, checks, state, have - old(misses), misses - have, |ready|);
      }
    }

    /** One turn of the loop: a look whether the organization is suspended, then a pass over what is open. */
    method Turn() returns (ended: Option<Ending>)
      requires Valid()
      modifies this
      ensures Valid() && Extends(old(log), log, Base()) && misses >= old(misses)
      ensures old(clock) < clock && AreMissing(world, log, old(clock), clock, misses - old(misses))
      ensures old(Smooth()) ==> Smooth()
      ensures ended == Some(Suspended) <==> world(old(clock)).halted
      ensures ended == Some(Suspended) || ended == Some(Settled) ==> log == old(log) && misses == old(misses)
      ensures ended == Some(Suspended) ==> clock == old(clock) + 1
      ensures ended == Some(Settled) ==>
        Last(log).status != Active || Rests(Last(log), holder, world(clock - 1).env.now)
      ensures ended == Some(Settled) && IsQuiet(old(log), None) ==>
        Last(log).status != Active || HasStep(Last(log).steps, AwaitingApproval)
      ensures ended == Some(Raised) && IsQuiet(old(log), None) && old(Smooth()) ==> Last(log).status != Active
      ensures ended != Some(DidNotSettle)
      ensures ended.None? || ended == Some(Raised) ==> Last(old(log)).status == Active
      ensures ended.None? && IsQuiet(old(log), None) ==> Worth(old(log), log, misses - old(misses))
      ensures IsStuck(old(log)) ==>
        log == old(log) && misses == old(misses) && (ended.None? || ended == Some(Suspended))
    {
      hide IsSmooth, Reached, Extends, Worth, IsQuiet, HasStep, Elsewhere, OpenHere, ChecksDue, AreOpen,
           AllAt, Rests, Stalls, AreMissing, AreRequested;
      SameExtends(log, Base());
      ghost var from := clock;
      var t := Look();
      NoneMissed(world, log, from, clock);
      if t.halted { return Some(Suspended); }
      var state := Last(log);
      if state.status != Active { return Some(Settled); }
      t := Look();
      NoneMissed(world, log, from, clock);
      StepsInside(log);
      var elsewhere := Elsewhere(state, holder, t.env.now);
      var ready, checks := OpenHere(state, elsewhere), ChecksDue(state);
      if IsStuck(log) { StuckIsReady(state, log, elsewhere, holder, t.env.now); }
      if ready == {} && checks == {} {
        NothingLeft(state, holder, t.env.now);
        if IsQuiet(log, None) { RestIsWaiting(log, holder, t.env.now); }
        return Some(Settled);
      }
      ghost var at := clock;
      var raised := Pass(state, ready, checks);
      MissesAdd(world, old(log), log, Base(), from, at, clock, 0, misses - old(misses));
      ended := if raised then Some(Raised) else None;
    }

    /** Drives the run pass after pass. It ends because the run ended or nothing is left that it may
        move, because the organization is suspended, or on an error, which an obliging world gives no
        cause for before the run has ended; it runs out of passes only if it was given too few for the
        attempts left in the plan and the answers that did not come. */
    method Advance(maxIterations: nat) returns (ending: Ending, ghost turns: seq<nat>)
      requires Valid()
      modifies this
      ensures Valid() && Extends(old(log), log, Base())
      ensures old(clock) <= clock && AreMissing(world, log, old(clock), clock, misses - old(misses))
      ensures |turns| <= maxIterations && (turns == [] ==> log == old(log))
      ensures AreUp(world, turns, old(clock), clock)
      ensures ending == Suspended ==> clock > 0 && world(clock - 1).halted
      ensures ending == Settled ==>
        Last(log).status != Active || (clock > 0 && Rests(Last(log), holder, world(clock - 1).env.now))
      ensures ending == Settled && IsQuiet(old(log), None) ==>
        Last(log).status != Active || HasStep(Last(log).steps, AwaitingApproval)
      ensures ending == Raised ==> turns != []
      ensures ending == DidNotSettle ==> |turns| == maxIterations
      ensures ending == DidNotSettle && IsQuiet(old(log), None) ==>
        maxIterations < Phi(Last(old(log)).steps) + 2 + misses - old(misses)
      ensures ending == Raised && IsQuiet(old(log), None) && old(Smooth()) ==> Last(log).status != Active
      ensures IsStuck(old(log)) ==>
        log == old(log) && misses == old(misses) && (ending == DidNotSettle || ending == Suspended)
    {
      hide IsSmooth, Reached, Extends, Worth, OnTrack, IsQuiet, Phi, HasStep, Rests, IsStuck, AreMissing, AreUp;
      SameExtends(log, Base());
      ghost var quiet, start, from := IsQuiet(log, None), Phi(Last(log).steps), clock;
      if quiet { StartsOnTrack(log); }
      NoneMissed(world, log, from, clock);
      turns := [];
      NoneUp(world, from, clock);
      var i := 0;
      while i < maxIterations
        invariant Valid() && Extends(old(log), log, Base()) && misses >= old(misses) && i == |turns| <= maxIterations
        invariant from <= clock && AreMissing(world, log, from, clock, misses - old(misses))
        invariant AreUp(world, turns, from, clock) && (turns == [] ==> log == old(log))
        invariant old(Smooth()) ==> Smooth()
        invariant quiet ==> OnTrack(log, start, i, misses - old(misses))
        invariant IsStuck(old(log)) ==> log == old(log) && misses == old(misses)
      {
        ghost var before, had, at := log, misses, clock;
        if quiet { OffTrack(log, start, i, misses - old(misses)); }
        var ended := Turn();
        ExtendsMore(old(log), before, log, Base());
        MissesAdd(world, before, log, Base(), from, at, clock, had - old(misses), misses - had);
        if ended == Some(Suspended) || ended == Some(Settled) {
          StillUp(world, turns, from, at, clock);
          return ended.value, turns;
        }
        OneMoreUp(world, turns, from, at, clock);
        turns := turns + [at];
        if ended.Some? { return ended.value, turns; }
        if quiet { PassCounts(before, log, start, i, had - old(misses), misses - had); }
        i := i + 1;
      }
      if quiet { OffTrack(log, start, i, misses - old(misses)); }
      ending := DidNotSettle;
    }
  }

  // --- what the bound means for a new run ---------------------------------------------------

  /** Twice the attempts the plan grants in all. */
  ghost function Budget(steps: Steps): int {
    Sum(map id | id in steps :: 2 * steps[id].maxAttempts)
  }

  /** A new run of green steps is quiet and weighs twice its attempts, so `Advance` settles it within
      two passes more than that, and one more for each answer that does not come; and in an obliging
      world it does not raise before the run has ended. */
  lemma FreshRunIsQuiet(log: Log)
    requires |log| == 1 && Reached(log)
    requires forall id | id in log[0].steps :: log[0].steps[id].risk.Green?
    requires !("exec-" <= log[0].requestId)
    ensures IsQuiet(log, None) && Phi(log[0].steps) == Budget(log[0].steps)
    ensures forall world | IsObliging(world, log[0]) :: IsSmooth(log, world, 0)
  {
    hide Reached, NamesAreBelow, Phi, Budget, IsUntouched, AreCalm, IsObliging;
    forall id | id in log[0].steps ensures IsUntouched(log[0].steps[id]) {
      FirstRow(log, id);
    }
    FirstRow(log, "");
    FreshWeight(log[0].steps);
    FreshNames(log);
    forall id | id in log[0].steps ensures log[0].steps[id].status != AwaitingCheck {
      FirstStatus(log[0].steps[id]);
    }
  }

  lemma FirstStatus(step: Step)
    requires IsUntouched(step)
    ensures step.status == Pending || step.status == Ready
  {
  }

  lemma FreshNames(log: Log)
    requires |log| == 1 && !("exec-" <= log[0].requestId)
    ensures NamesAreBelow(log)
  {
    hide NameIsBelow;
    OtherNamesAreBelow(log[0].requestId, log[0].steps);
  }

  lemma FreshWeight(steps: Steps)
    requires forall id | id in steps :: steps[id].risk.Green? && IsUntouched(steps[id])
    ensures AreCalm(steps, None) && Phi(steps) == Budget(steps)
  {
    hide Weight, IsUntouched;
    forall id | id in steps ensures IsCalm(steps[id], false) && Weight(steps[id]) == 2 * steps[id].maxAttempts {
      FreshIsCalm(steps[id]);
    }
    assert Weights(steps) == map id | id in steps :: 2 * steps[id].maxAttempts;
  }

  lemma FreshIsCalm(step: Step)
    requires IsUntouched(step) && step.risk.Green?
    ensures IsCalm(step, false) && Weight(step) == 2 * step.maxAttempts
  {
  }

  lemma OtherNamesAreBelow(rid: string, steps: Steps)
    requires !("exec-" <= rid)
    ensures NameIsBelow(rid, steps)
  {
    forall id, a: nat, r: nat, verb ensures rid != Name(id, a, r, verb) {
      NameStart(id, a, r, verb);
    }
  }

  // --- two ways a review cannot be recorded -------------------------------------------------

  /** Which row used the name of the present review's message. */
  ghost predicate WasFiled(log: Log, id: StepId, k: nat)
    requires log != [] && id in Last(log).steps
  {
    k < |log| && log[k].requestId == NameNow(log, id, "verdict-message")
  }

  /** A driver that dies between filing a verdict and recording it cannot file one again: the second
      message has a new id but the old name, and is refused, unless the same message id comes up. Exactly
      then, too: without such a row the name is free. */
  lemma FiledReviewIsStranded(log: Log, id: StepId, c: Command, e: Env)
    requires log != [] && Reached(log) && id in Last(log).steps && c.Send? && Precheck(c, e).None?
    requires forall row | row in log :: row.target != c.id
    ensures (exists k :: WasFiled(log, id, k)) <==>
      Mutate(log, NameNow(log, id, "verdict-message"), c, e) == Refused(RequestReused)
  {
    hide Reached, Decide, NameNow;
    var rid := NameNow(log, id, "verdict-message");
    DecideAnew(Last(log), rid, c, e);
    if Prior(log, rid).Some? {
      var k: nat :| k < |log| && log[k] == Prior(log, rid).value;
      assert WasFiled(log, id, k);
    }
    if k: nat :| WasFiled(log, id, k) {
      assert log[k] in log;
    }
  }

  /** And it is refused for as long as the step awaits its check, whatever else happens to the run: the
      counters in the name do not move, and only the verdict itself ends the wait. */
  lemma FiledReviewStaysStranded(log: Log, n: nat, id: StepId, k: nat, c: Command, e: Env)
    requires log != [] && Reached(log) && k <= n < |log| && c.Send? && Precheck(c, e).None?
    requires AwaitsCheck(log[n], id) && AwaitsCheck(Last(log), id)
    requires forall j | n < j < |log| :: AwaitsCheck(log[j], id)
    requires log[k].requestId == VerdictName(log[n], id) && log[k].target != c.id
    ensures Mutate(log, NameNow(log, id, "verdict-message"), c, e) == Refused(RequestReused)
  {
    hide Reached, Mutate, Precheck, Prior, Name;
    assert log[k].requestId == NameNow(log, id, "verdict-message") by {
      WaitKeepsName(log, n, |log| - 1, id);
    }
    hide AwaitsCheck, NameNow, VerdictName;
    PriorIsUnique(log, k);
    FiledIsRefused(log, log[k], c, e);
  }

  lemma FiledIsRefused(log: Log, row: Row, c: Command, e: Env)
    requires log != [] && Prior(log, row.requestId) == Some(row)
    requires c.Send? && Precheck(c, e).None? && row.target != c.id
    ensures Mutate(log, row.requestId, c, e) == Refused(RequestReused)
  {
    hide Decide, Prior;
  }

  function VerdictName(row: Row, id: StepId): string
    requires id in row.steps
  {
    Name(id, row.steps[id].attempts, row.steps[id].releases, "verdict-message")
  }

  predicate AwaitsCheck(row: Row, id: StepId) {
    id in row.steps && row.steps[id].status == AwaitingCheck
  }

  predicate SameCounters(a: Row, b: Row, id: StepId) {
    && id in a.steps && id in b.steps
    && a.steps[id].attempts == b.steps[id].attempts && a.steps[id].releases == b.steps[id].releases
  }

  lemma {:induction false} WaitKeepsName(log: Log, i: nat, j: nat, id: StepId)
    requires log != [] && Reached(log) && i <= j < |log|
    requires forall k | i <= k <= j :: AwaitsCheck(log[k], id)
    ensures SameCounters(log[i], log[j], id)
    decreases j
  {
    hide Reached, RowOk, Successor, NextRow, SameShapes;
    assert AwaitsCheck(log[i], id) && AwaitsCheck(log[j], id);
    if i < j {
      assert AwaitsCheck(log[j - 1], id);
      WaitKeepsName(log, i, j - 1, id);
      var a := NeighbourAction(log, j);
      WaitGoesOn(log[j - 1], a, id);
    }
  }

  lemma WaitGoesOn(row: Row, a: Action, id: StepId)
    requires RowOk(row) && Successor(row, a).Some? && AwaitsCheck(row, id) && AwaitsCheck(Successor(row, a).value, id)
    ensures SameCounters(row, Successor(row, a).value, id)
  {
    hide RowOk, Successor, VerbEffect, EvidencePresent, Fits, StepOk;
    var f := Between(row, a, id);
    if ActsOn(row, a, id) {
      StepIsOk(row, id);
      VerdictEndsWait(a.command.verb, id, row.steps[id], row, a.env);
    }
  }

  /** No verb leaves a step waiting for its check as it was, except to be refused. */
  lemma VerdictEndsWait(v: Verb, id: StepId, step: Step, row: Row, e: Env)
    requires EvidencePresent(v, e) && StepOk(step, row.runId, row.number) && step.status == AwaitingCheck
    requires VerbEffect(v, id, step, row, e).Ok?
    ensures v.CheckApprove? || v.CheckReturn? || v.CheckReject?
    ensures VerbEffect(v, id, step, row, e).value.step.status != AwaitingCheck
  {
  }

  lemma DecideAnew(row: Row, rid: string, c: Command, e: Env)
    requires Precheck(c, e).None? && c.Send?
    ensures Decide(row, rid, c, e) != Refused(RequestReused)
  {
  }

  /** The id of a checker's message: the step's, between "chk-" and eight hexadecimal digits. */
  function ReviewId(step: StepId, random: string): string {
    "chk-" + step + "-" + random
  }

  /** Message ids obey the 64-character limit of step ids, and a review's is thirteen characters longer
      than its step's: a checked step can be reviewed by the driver only if its id has at most 51. */
  lemma LongStepsCannotBeReviewed(step: StepId, random: string)
    requires IsSlug(step) && |random| == 8 && forall c | c in random :: IsDigit(c) || 'a' <= c <= 'f'
    ensures IsSlug(ReviewId(step, random)) <==> |step| <= 51
  {
    var id := ReviewId(step, random);
    assert |id| == |step| + 13;
    forall i | 1 <= i < |id| ensures IsLower(id[i]) || IsDigit(id[i]) || id[i] == '-' {
      if 4 <= i < 4 + |step| {
        assert id[i] == step[i - 4];
      } else if 5 + |step| <= i {
        assert id[i] == random[i - 5 - |step|];
      }
    }
  }
}
