/** What the driver's answers, names and passes come to: what each answer is recorded as, when a request
    goes through, and how passes are paid for. */
module DriverSteps {
  import opened Outcomes
  import opened Workflows
  import opened RunModel
  import opened RunInvariants
  import opened RunProgress
  import opened RunReplay
  import opened RunReview
  import opened RunMoney
  import opened Names
  import opened DriverMoves

  /** How a dispatch came out: the agent was busy, it broke, its work was rejected, its work could not
      be graded, or its work stands. */
  datatype Work = AgentBusy | AgentFailed | Rejects(cost: int) | Ungradable(cost: int) | Delivered(cost: int)

  datatype Ruling = Approves | Returns | Refuses

  /** What the checker said, and the random id its message got. */
  datatype Review = NoReview | Reviewed(ruling: Ruling, message: string, cost: int)

  /** Everything one look outside may find. */
  datatype Tick = Tick(env: Env, work: Work, review: Review, halted: bool)

  datatype Ending = Settled | Suspended | Raised | DidNotSettle

  function ArtifactName(run: string, step: StepId, tag: string): string {
    run + "." + step + tag + ".evidence"
  }

  function TokenOf(row: Row, id: StepId): Option<Token>
    requires id in row.steps
  {
    if row.steps[id].token == NoToken then None else Some(row.steps[id].token)
  }

  function RulingText(r: Ruling): (verb: string)
    ensures AllOfKind(verb, false) && verb != "verdict-message" && TextRank(verb) == 1 && IsOtherText(verb)
  {
    match r
    case Approves => "check-approve"
    case Returns => "check-return"
    case Refuses => "check-reject"
  }

  function RulingVerb(r: Ruling, actor: string, message: string, cost: int): (v: Verb)
    ensures IsDriverVerb(v) && VerbRank(v) == 1 && MoveOf(v).None?
  {
    match r
    case Approves => CheckApprove(actor, message, cost)
    case Returns => CheckReturn(actor, message, cost)
    case Refuses => CheckReject(actor, message, cost)
  }

  function WorkText(w: Work): (verb: string)
    ensures AllOfKind(verb, false) && TextRank(verb) == 0
  {
    match w
    case AgentBusy => "release"
    case AgentFailed => "fail"
    case Rejects(_) => "fail"
    case Ungradable(_) => "hold"
    case Delivered(_) => "complete"
  }

  /** How a dispatch is recorded: a busy agent's step is released, a failure or rejection counts against
      it, work that could not be graded is parked for a person, and good work is handed in. */
  function WorkVerb(w: Work, owner: string, token: Option<Token>, state: Row, id: StepId): (v: Verb)
    ensures IsDriverVerb(v) && VerbRank(v) == 0 && (v.Release? <==> w.AgentBusy?)
    ensures v.Release? || v.Fail? || v.Hold? || v.Complete?
    ensures Suits(WorkText(w), v) && !(v.Hold? && v.kind.OverBudget?)
  {
    match w
    case AgentBusy => Release(owner, token, 0)
    case AgentFailed => Fail(owner, token, 0)
    case Rejects(cost) => Fail(owner, token, cost)
    case Ungradable(cost) => Hold(owner, token, ArtifactName(state.runId, id, ".ungraded"), UngradedWork, cost)
    case Delivered(cost) => Complete(owner, state.revision, token, ArtifactName(state.runId, id, ""), cost)
  }

  /** The request was refused or ran into the cycle ceiling: the runtime command exits. */
  predicate Exits(r: Verdict) {
    r.Refused? || r.AtCeiling?
  }

  /** Work the driver may still do to a step without a person. */
  predicate IsWork(step: Step) {
    step.status == Ready || step.status == InProgress || step.status == AwaitingCheck
  }

  /** The driven step came to rest; the weight lost makes up for the pass, or an answer was missing. */
  ghost predicate Paid(was: Log, log: Log, id: StepId, missed: int, gain: int) {
    && was != [] && log != []
    && (Last(log).status == Active ==>
          && IsQuiet(log, None) && Untouched(Last(was).steps, Last(log).steps, id)
          && Phi(Last(log).steps) + gain <= Phi(Last(was).steps) + missed)
  }

  /** The name the driver gives a mutation of the step as it stands. */
  function NameNow(log: Log, id: StepId, verb: string): string
    requires log != [] && id in Last(log).steps
  {
    Name(id, Last(log).steps[id].attempts, Last(log).steps[id].releases, verb)
  }

  /** The verb's name belongs to the moment the step is in. */
  predicate IsTimely(step: Step, v: Verb, verb: string) {
    IsDriverVerb(v) && AllOfKind(verb, false) && TextRank(verb) == VerbRank(v) && StatusRank(step.status) <= VerbRank(v)
  }

  /** The run is quiet and the step still is what the pass's snapshot shows. */
  ghost predicate Finds(log: Log, snapshot: Row, id: StepId, status: StepStatus) {
    && IsQuiet(log, None) && id in Last(log).steps && id in snapshot.steps
    && snapshot.steps[id] == Last(log).steps[id] && snapshot.steps[id].status == status
  }

  /** A ready step of a quiet run after its claim: in hand and two lighter, or the run is over. */
  ghost predicate IsBegun(was: Log, log: Log, id: StepId, goes: bool) {
    && was != [] && log != []
    && (Last(log).status == Active ==>
          && goes && id in Last(log).steps && Last(log).steps[id].status == InProgress
          && IsQuiet(log, Some(id)) && Untouched(Last(was).steps, Last(log).steps, id)
          && Phi(Last(log).steps) <= Phi(Last(was).steps) - 2)
  }

  /** A quiet run with this step in the driver's hands. */
  ghost predicate IsInHand(log: Log, id: StepId) {
    IsQuiet(log, Some(id)) && id in Last(log).steps && Last(log).steps[id].status == InProgress
  }

  lemma InHandIsLive(log: Log, id: StepId)
    requires IsInHand(log, id)
    ensures IsLive(log)
  {
    hide Reached, AreCalm, NamesAreBelow;
  }

  lemma FoundIsGreen(log: Log, snapshot: Row, id: StepId, status: StepStatus)
    requires Finds(log, snapshot, id, status)
    ensures Last(log).steps[id].risk.Green?
  {
    hide Reached, NamesAreBelow;
    CalmIsGreen(Last(log).steps, None, id);
  }

  lemma WorkTexts()
    ensures forall verb | verb in ["over-budget", "hold", "release", "fail", "complete"] ::
      AllOfKind(verb, false) && TextRank(verb) == 0
    ensures AllOfKind("claim", false) && TextRank("claim") == 2
    ensures AllOfKind("take", false) && IsOtherText("take") && IsOtherText("over-budget")
  {
    assert "take"[0] == 't';
    assert AllOfKind("over-budget", false) && TextRank("over-budget") == 0;
    assert AllOfKind("hold", false) && TextRank("hold") == 0;
    assert AllOfKind("release", false) && TextRank("release") == 0;
    assert AllOfKind("fail", false) && TextRank("fail") == 0;
    assert AllOfKind("complete", false) && TextRank("complete") == 0;
  }

  lemma FoundStandsStill(log: Log, snapshot: Row, id: StepId)
    requires log != []
    ensures Finds(log, snapshot, id, AwaitingCheck) ==> Paid(log, log, id, 1, 1)
  {
    hide IsQuiet, Phi;
  }

  lemma PaidTwice(a: Log, b: Log, c: Log, id: StepId, missed: int, gain: int)
    requires a != [] && b != [] && Untouched(Last(a).steps, Last(b).steps, id)
    requires Phi(Last(b).steps) <= Phi(Last(a).steps) - 2 && Paid(b, c, id, missed, gain)
    ensures Paid(a, c, id, missed, gain + 2)
  {
    hide IsQuiet, Phi;
  }

  /** Part-way through a pass: the steps still to be driven stand as in the snapshot, and every step
      driven so far was worth it. */
  ghost predicate Level(start: Log, log: Log, rest: set<StepId>, snapshot: Row, missed: int, gain: int) {
    && start != [] && log != []
    && (Last(log).status == Active ==>
          && IsQuiet(log, None) && Phi(Last(log).steps) + gain <= Phi(Last(start).steps) + missed
          && forall k | k in rest ::
               && k in Last(log).steps && k in snapshot.steps && snapshot.steps[k] == Last(log).steps[k]
               && (snapshot.steps[k].status == Ready || snapshot.steps[k].status == AwaitingCheck))
  }

  predicate AllAt(snapshot: Row, ids: set<StepId>, status: StepStatus) {
    forall k | k in ids :: k in snapshot.steps && snapshot.steps[k].status == status
  }

  predicate AreOpen(row: Row, ids: set<StepId>) {
    forall k | k in ids :: k in row.steps && (row.steps[k].status == Ready || row.steps[k].status == InProgress)
  }

  lemma AtOne(snapshot: Row, ids: set<StepId>, status: StepStatus, k: StepId)
    requires AllAt(snapshot, ids, status) && k in ids
    ensures k in snapshot.steps && snapshot.steps[k].status == status
  {
  }

  lemma LevelGoesOn(start: Log, log: Log, next: Log, rest: set<StepId>, id: StepId, snapshot: Row, missed: int,
                    more: int, gain: int)
    requires Level(start, log, rest, snapshot, missed, gain) && Last(log).status == Active
    requires Paid(log, next, id, more, 1)
    requires id in rest
    ensures Level(start, next, rest - {id}, snapshot, missed + more, gain + 1)
  {
    hide IsQuiet, Phi;
  }

  /** One step of a pass keeps the level, or raises; and where it raises only on a run that has ended, so
      does the pass. */
  lemma LevelStep(start: Log, log: Log, next: Log, rest: set<StepId>, id: StepId, snapshot: Row, missed: int, more: int,
                  gain: int, status: StepStatus, raised: bool, smooth: bool)
    requires Level(start, log, rest, snapshot, missed, gain) && id in rest && log != [] && next != []
    requires id in snapshot.steps && snapshot.steps[id].status == status
    requires Last(log).status != Active ==> Last(next).status != Active
    requires Finds(log, snapshot, id, status) && !raised ==> Paid(log, next, id, more, 1)
    requires smooth && Finds(log, snapshot, id, status) && raised ==> Last(next).status != Active
    ensures !raised ==> Level(start, next, rest - {id}, snapshot, missed + more, gain + 1)
    ensures smooth && raised ==> Last(next).status != Active
  {
    hide IsQuiet, Phi, Paid;
    if Last(log).status == Active && !raised {
      LevelGoesOn(start, log, next, rest, id, snapshot, missed, more, gain);
    }
  }

  lemma LessOne(todo: set<StepId>, checks: set<StepId>, id: StepId)
    requires id in todo && id !in checks
    ensures todo + checks - {id} == todo - {id} + checks && |todo - {id}| == |todo| - 1
  {
  }

  lemma NoneLeft(checks: set<StepId>)
    ensures {} + checks == checks
  {
  }

  lemma LevelFinds(start: Log, log: Log, todo: set<StepId>, checks: set<StepId>, snapshot: Row, missed: int, gain: int,
                   id: StepId)
    requires Level(start, log, todo + checks, snapshot, missed, gain) && Last(log).status == Active && id in todo
    requires AllAt(snapshot, todo, Ready)
    ensures Finds(log, snapshot, id, Ready)
  {
    hide IsQuiet, Phi;
    assert id in todo + checks;
  }

  lemma DriveCounts(start: Log, log: Log, next: Log, todo: set<StepId>, checks: set<StepId>, id: StepId, snapshot: Row,
                    missed: int, more: int, gain: int, raised: bool, smooth: bool)
    requires Level(start, log, todo + checks, snapshot, missed, gain) && id in todo && id !in checks && log != []
    requires next != []
    requires AllAt(snapshot, todo, Ready)
    requires Last(log).status != Active ==> Last(next).status != Active
    requires Finds(log, snapshot, id, Ready) && !raised ==> Paid(log, next, id, more, 1)
    requires smooth && Finds(log, snapshot, id, Ready) && raised ==> Last(next).status != Active
    ensures !raised ==> Level(start, next, todo - {id} + checks, snapshot, missed + more, gain + 1)
    ensures |todo - {id}| == |todo| - 1 && AllAt(snapshot, todo - {id}, Ready)
    ensures smooth && raised ==> Last(next).status != Active
  {
    hide Level, Finds, Paid;
    LevelStep(start, log, next, todo + checks, id, snapshot, missed, more, gain, Ready, raised, smooth);
    LessOne(todo, checks, id);
  }

  lemma PhiIsNatural(log: Log)
    requires log != [] && Reached(log)
    ensures Phi(Last(log).steps) >= 0
  {
    hide Reached, StepOk;
    var row := Last(log);
    forall id | id in row.steps ensures Weights(row.steps)[id] >= 0 {
      StepInside(log, id);
    }
    SumNonNegative(Weights(row.steps));
  }

  lemma StepInside(log: Log, id: StepId)
    requires log != [] && Reached(log) && id in Last(log).steps
    ensures var step := Last(log).steps[id];
      && step.attempts <= step.maxAttempts && step.reviewCycles <= step.maxReviewCycles
      && (step.status == AwaitingCheck ==> step.checker.Some?) && (step.holder != "" ==> step.status == InProgress)
  {
    hide Reached;
    LastIsOk(log);
    assert StepOk(Last(log).steps[id], Last(log).runId, Last(log).number);
  }

  lemma StepsInside(log: Log)
    requires log != [] && Reached(log)
    ensures forall id | id in Last(log).steps :: var step := Last(log).steps[id];
      && (step.status == AwaitingCheck ==> step.checker.Some?)
      && (step.holder != "" ==> step.status == InProgress)
  {
    forall id | id in Last(log).steps ensures var step := Last(log).steps[id];
      && (step.status == AwaitingCheck ==> step.checker.Some?)
      && (step.holder != "" ==> step.status == InProgress)
    {
      StepInside(log, id);
    }
  }

  /** After `passes` passes: each was paid for by lost weight or by a missing answer; the last one may
      instead have ended the run. */
  ghost predicate OnTrack(log: Log, start: int, passes: int, missed: int) {
    && log != []
    && (if Last(log).status == Active then IsQuiet(log, None) && Phi(Last(log).steps) + passes <= start + missed
        else passes <= start + missed + 1)
  }

  lemma PassBegins(log: Log, ready: set<StepId>, checks: set<StepId>)
    requires IsQuiet(log, None)
    requires AreOpen(Last(log), ready)
    requires AllAt(Last(log), checks, AwaitingCheck)
    ensures AllAt(Last(log), ready, Ready) && Level(log, log, ready + checks, Last(log), 0, 0)
  {
    hide Reached, NamesAreBelow, Phi;
    forall k | k in ready ensures Last(log).steps[k].status == Ready {
      assert IsCalm(Last(log).steps[k], false);
    }
  }

  lemma PassIsApart(log: Log, ready: set<StepId>, checks: set<StepId>)
    requires log != [] && Reached(log) && AreOpen(Last(log), ready) && AllAt(Last(log), checks, AwaitingCheck)
    ensures ready <= Last(log).steps.Keys && checks <= Last(log).steps.Keys && ready !! checks
    ensures forall id | id in checks :: Last(log).steps[id].checker.Some?
  {
    hide Reached;
    StepsInside(log);
  }

  lemma LevelAgain(before: Log, between: Log, rest: set<StepId>, snapshot: Row, missed: int, gain: int)
    requires Level(before, between, rest, snapshot, missed, gain)
    ensures Level(between, between, rest, snapshot, 0, 0)
  {
    hide IsQuiet, Phi;
  }

  lemma NotBoth(a: set<StepId>, b: set<StepId>)
    requires a != {} || b != {}
    ensures |a| + |b| >= 1
  {
  }

  /** A whole pass lowers the weight of the run, misses an answer, or ends the run. */
  ghost predicate Worth(was: Log, log: Log, missed: int) {
    && was != [] && log != []
    && (Last(log).status == Active ==> IsQuiet(log, None) && Phi(Last(log).steps) + 1 <= Phi(Last(was).steps) + missed)
  }

  lemma PassEnds(before: Log, between: Log, log: Log, checks: set<StepId>, snapshot: Row, missed: int, more: int,
                 gain: int)
    requires gain + |checks| >= 1
    requires Level(before, between, checks, snapshot, missed, gain)
    requires Level(between, log, {}, snapshot, more, |checks|)
    requires Last(between).status != Active ==> Last(log).status != Active
    ensures Worth(before, log, missed + more)
  {
    hide IsQuiet, Phi;
  }

  lemma StartsOnTrack(log: Log)
    requires IsQuiet(log, None)
    ensures OnTrack(log, Phi(Last(log).steps), 0, 0)
  {
    hide Phi, NamesAreBelow, AreCalm, Reached;
  }

  lemma OffTrack(log: Log, start: int, passes: int, missed: int)
    requires OnTrack(log, start, passes, missed) && Reached(log)
    ensures Last(log).status == Active ==> IsQuiet(log, None)
    ensures passes <= start + missed + 1
  {
    hide Phi, IsQuiet, Reached;
    PhiIsNatural(log);
  }

  lemma PassCounts(before: Log, log: Log, start: int, passes: int, sofar: int, missed: int)
    requires OnTrack(before, start, passes, sofar) && Last(before).status == Active && Reached(before)
    requires Worth(before, log, missed) && missed >= 0
    ensures OnTrack(log, start, passes + 1, sofar + missed)
  {
    hide IsQuiet, Phi, Reached;
    PhiIsNatural(before);
  }

  // --- answers that do not come -------------------------------------------------------------

  /** A look that may find an answer missing: the agent busy, no review, or a submission that waits for its
      check and is not the file it was. */
  ghost predicate IsMissing(t: Tick, log: Log) {
    || t.work.AgentBusy? || t.review.NoReview?
    || exists row, id :: row in log && id in row.steps && IsGone(row.steps[id], t.env)
  }

  predicate IsGone(step: Step, e: Env) {
    step.status == AwaitingCheck && SubmissionRefused(step, e).Some?
  }

  /** How many of these looks may. */
  ghost function CountMissing(world: nat -> Tick, log: Log, from: nat, until: nat): nat
    requires from <= until
  {
    if from == until then 0
    else CountMissing(world, log, from, until - 1) + if IsMissing(world(until - 1), log) then 1 else 0
  }

  /** The answers counted as missing between two looks were missing. */
  ghost predicate AreMissing(world: nat -> Tick, log: Log, from: nat, until: nat, missed: int) {
    from <= until && 0 <= missed <= CountMissing(world, log, from, until)
  }

  lemma {:induction false} MissingGrows(world: nat -> Tick, was: Log, log: Log, from: nat, until: nat)
    requires was <= log && from <= until
    ensures CountMissing(world, was, from, until) <= CountMissing(world, log, from, until)
    decreases until
  {
    if from < until {
      MissingGrows(world, was, log, from, until - 1);
      assert forall row | row in was :: row in log;
    }
  }

  lemma {:induction false} MissingSplits(world: nat -> Tick, log: Log, a: nat, b: nat, c: nat)
    requires a <= b <= c
    ensures CountMissing(world, log, a, c) == CountMissing(world, log, a, b) + CountMissing(world, log, b, c)
    decreases c
  {
    if b < c {
      MissingSplits(world, log, a, b, c - 1);
    }
  }

  lemma MissesAdd(world: nat -> Tick, mid: Log, log: Log, base: Option<int>, a: nat, b: nat, c: nat, m: int, n: int)
    requires AreMissing(world, mid, a, b, m) && AreMissing(world, log, b, c, n) && Extends(mid, log, base)
    ensures AreMissing(world, log, a, c, m + n)
  {
    hide IsMissing, UnderNames, DrivenAt;
    assert mid == log[..|mid|];
    MissingGrows(world, mid, log, a, b);
    MissingSplits(world, log, a, b, c);
  }

  lemma NoneMissed(world: nat -> Tick, log: Log, from: nat, until: nat)
    requires from <= until
    ensures AreMissing(world, log, from, until, 0)
  {
  }

  lemma OneMissed(world: nat -> Tick, log: Log, from: nat, at: nat, until: nat, missed: int)
    requires from <= at < until && (missed == 0 || (missed == 1 && IsMissing(world(at), log)))
    ensures AreMissing(world, log, from, until, missed)
  {
    MissingSplits(world, log, from, at + 1, until);
    assert CountMissing(world, log, from, at + 1) ==
      CountMissing(world, log, from, at) + if IsMissing(world(at), log) then 1 else 0;
  }

  /** Each of these looks, between the two given, found the organization at work. */
  ghost predicate AreUp(world: nat -> Tick, looks: seq<nat>, from: nat, until: nat) {
    forall n | n in looks :: from <= n < until && !world(n).halted
  }

  lemma OneMoreUp(world: nat -> Tick, looks: seq<nat>, from: nat, at: nat, until: nat)
    requires AreUp(world, looks, from, at) && from <= at < until && !world(at).halted
    ensures AreUp(world, looks + [at], from, until)
  {
  }

  lemma NoneUp(world: nat -> Tick, from: nat, until: nat)
    ensures AreUp(world, [], from, until)
  {
  }

  lemma StillUp(world: nat -> Tick, looks: seq<nat>, from: nat, at: nat, until: nat)
    requires AreUp(world, looks, from, at) && at <= until
    ensures AreUp(world, looks, from, until)
  {
  }

  /** Nothing is left for this driver: every open step is in the hands of another holder whose claim is live. */
  ghost predicate Rests(row: Row, holder: string, now: int) {
    forall id | id in row.steps && IsWork(row.steps[id]) ::
      row.steps[id].status == InProgress && ClaimIsLive(row.steps[id], now) && row.steps[id].holder != holder
  }

  /** Steps in another live holder's hands, steps this driver may work on, and submissions to be checked. */
  function Elsewhere(row: Row, holder: string, now: int): set<StepId> {
    set id | id in row.steps && ClaimIsLive(row.steps[id], now) && row.steps[id].holder != holder
  }

  function OpenHere(row: Row, elsewhere: set<StepId>): (ids: set<StepId>)
    ensures AreOpen(row, ids)
  {
    set id | id in row.steps && (row.steps[id].status == Ready || row.steps[id].status == InProgress)
      && id !in elsewhere
  }

  function ChecksDue(row: Row): (ids: set<StepId>)
    ensures AllAt(row, ids, AwaitingCheck)
  {
    set id | id in row.steps && row.steps[id].status == AwaitingCheck
  }

  lemma NothingLeft(row: Row, holder: string, now: int)
    requires OpenHere(row, Elsewhere(row, holder, now)) == {} && ChecksDue(row) == {}
    requires forall id | id in row.steps :: row.steps[id].holder != "" ==> row.steps[id].status == InProgress
    ensures Rests(row, holder, now)
  {
    forall id | id in row.steps && IsWork(row.steps[id]) ensures id in Elsewhere(row, holder, now) {
      assert id !in OpenHere(row, Elsewhere(row, holder, now)) && id !in ChecksDue(row);
    }
  }

  lemma RestIsWaiting(log: Log, holder: string, now: int)
    requires IsQuiet(log, None) && Rests(Last(log), holder, now)
    ensures HasStep(Last(log).steps, AwaitingApproval)
  {
    hide Reached, NamesAreBelow;
    NoDeadlock(log);
    var id :| id in Last(log).steps && IsMovable(Last(log).steps[id].status);
    assert IsCalm(Last(log).steps[id], false);
  }

  // --- a run the driver cannot move ---------------------------------------------------------

  /** The driver's claim of this step is taken for a replay of an earlier one. */
  ghost predicate IsSwallowed(log: Log, id: StepId)
    requires log != [] && id in Last(log).steps
  {
    var prior := Prior(log, NameNow(log, id, "claim"));
    prior.Some? && IsRowOf(prior.value, OnStep(id, Request(Last(log).steps[id].owner, None)), Last(log).runId)
  }

  /** The step is ready, as in the pass's snapshot, and cannot be claimed. */
  ghost predicate Stalls(log: Log, snapshot: Row, id: StepId)
    requires log != []
  {
    && id in Last(log).steps && id in snapshot.steps && snapshot.steps[id] == Last(log).steps[id]
    && Last(log).steps[id].status == Ready && IsSwallowed(log, id)
  }

  /** Work is left, and none of it can be claimed. */
  ghost predicate IsStuck(log: Log) {
    && log != [] && Last(log).status == Active
    && (exists id :: id in Last(log).steps && IsWork(Last(log).steps[id]))
    && forall id | id in Last(log).steps && IsWork(Last(log).steps[id]) :: Stalls(log, Last(log), id)
  }

  lemma SwallowedIsReplayed(log: Log, id: StepId, holder: string, e: Env)
    requires log != [] && id in Last(log).steps && IsSwallowed(log, id)
    ensures var claim := OnStep(id, Request(Last(log).steps[id].owner, Some(holder)));
      Mutate(log, NameNow(log, id, "claim"), claim, e).Replayed?
  {
    hide Mutate, Prior, NameNow;
    ReplayMeans(log, NameNow(log, id, "claim"), OnStep(id, Request(Last(log).steps[id].owner, Some(holder))), e);
  }

  lemma StuckIsReady(row: Row, log: Log, elsewhere: set<StepId>, holder: string, now: int)
    requires IsStuck(log) && row == Last(log) && elsewhere == Elsewhere(row, holder, now)
    requires forall id | id in row.steps :: row.steps[id].holder != "" ==> row.steps[id].status == InProgress
    ensures OpenHere(row, elsewhere) != {} && ChecksDue(row) == {}
    ensures forall id | id in OpenHere(row, elsewhere) :: Stalls(log, row, id)
  {
    hide IsSwallowed;
    var id :| id in row.steps && IsWork(row.steps[id]);
    assert Stalls(log, row, id);
    assert id in OpenHere(row, elsewhere);
    forall k | k in row.steps ensures row.steps[k].status != AwaitingCheck {
      assert IsWork(row.steps[k]) ==> Stalls(log, row, k);
    }
  }

  // --- a world that gives no cause to stop --------------------------------------------------

  /** The files the driver hands in, parks and files for a step. */
  ghost predicate HasFiles(disk: map<string, string>, run: string, id: StepId, step: Step) {
    && ArtifactName(run, id, "") in disk && ArtifactName(run, id, ".ungraded") in disk
    && forall k: nat | 1 <= k <= step.maxReviewCycles + 1 :: ArtifactName(run, id, ".check" + Dec(k)) in disk
  }

  /** Every file of the one disk is on the other, unchanged. */
  ghost predicate Keeps(d: map<string, string>, e: map<string, string>) {
    forall f | f in d :: f in e && e[f] == d[f]
  }

  /** The message id does not come up any more. */
  ghost predicate IsUnused(id: string, world: nat -> Tick, clock: nat) {
    forall n: nat | n >= clock && world(n).review.Reviewed? :: world(n).review.message != id
  }

  /** The files of every step are on disk and no file changes or vanishes; and every message id that comes
      up is legal and comes up once. */
  ghost predicate IsObliging(world: nat -> Tick, first: Row) {
    && (forall id | id in first.steps :: HasFiles(world(0).env.disk, first.runId, id, first.steps[id]))
    && (forall m: nat, n: nat | m <= n :: Keeps(world(m).env.disk, world(n).env.disk))
    && (forall n: nat | world(n).review.Reviewed? ::
          IsSlug(world(n).review.message) && IsUnused(world(n).review.message, world, n + 1))
  }

  /** Every submission that waits for its check is the file it was. */
  ghost predicate AreWhole(steps: Steps, e: Env) {
    forall id | id in steps :: !IsGone(steps[id], e)
  }

  /** An obliging world, no message id still to come up is taken, and what waits for its check is on disk. */
  ghost predicate IsSmooth(log: Log, world: nat -> Tick, clock: nat) {
    && log != [] && IsObliging(world, log[0]) && AreWhole(Last(log).steps, world(clock).env)
    && forall m | m in Last(log).messages :: IsUnused(m.id, world, clock)
  }

  lemma WholeLater(steps: Steps, e: Env, f: Env)
    requires AreWhole(steps, e) && Keeps(e.disk, f.disk)
    ensures AreWhole(steps, f)
  {
    forall id | id in steps ensures !IsGone(steps[id], f) {
      assert !IsGone(steps[id], e);
    }
  }

  /** What a driver's request hands in is the file it read. */
  lemma MoveKeepsWhole(log: Log, rid: string, id: StepId, v: Verb, e: Env)
    requires log != [] && Reached(log) && (IsDriverVerb(v) || v.Take?) && AreWhole(Last(log).steps, e)
    ensures AreWhole(Last(Grown(log, Mutate(log, rid, OnStep(id, v), e))).steps, e)
  {
    hide Reached, Mutate, VerbEffect, StepOk, IsGone;
    var r := Mutate(log, rid, OnStep(id, v), e);
    if r.Applied? {
      var f := AppliedVerb(log, rid, id, v, e);
      VerbKeepsWhole(v, id, Last(log).steps[id], Last(log), e);
      forall k | k in r.row.steps && k != id ensures !IsGone(r.row.steps[k], e) {
        assert Kept(Last(log).steps[k], r.row.steps[k]);
        KeptIsWhole(Last(log).steps[k], r.row.steps[k], e);
      }
    } else if r.AtCeiling? {
      CeilingKeepsSteps(log, rid, OnStep(id, v), e);
    }
  }

  lemma MoveIsWhole(log: Log, rid: string, id: StepId, v: Verb, world: nat -> Tick, at: nat)
    requires IsSmooth(log, world, at) && Reached(log) && (IsDriverVerb(v) || v.Take?)
    ensures AreWhole(Last(Grown(log, Mutate(log, rid, OnStep(id, v), world(at).env))).steps, world(at).env)
  {
    hide Reached, Mutate, IsObliging, AreWhole;
    MoveKeepsWhole(log, rid, id, v, world(at).env);
  }

  lemma VerbKeepsWhole(v: Verb, id: StepId, step: Step, row: Row, e: Env)
    requires EvidencePresent(v, e) && VerbEffect(v, id, step, row, e).Ok? && (IsDriverVerb(v) || v.Take?)
    ensures !IsGone(Charged(VerbEffect(v, id, step, row, e).value), e)
  {
  }

  lemma KeptIsWhole(p: Step, q: Step, e: Env)
    requires Kept(p, q) && !IsGone(p, e)
    ensures !IsGone(q, e)
  {
  }

  lemma CeilingKeepsSteps(log: Log, rid: string, c: Command, e: Env)
    requires log != [] && Mutate(log, rid, c, e).AtCeiling?
    ensures Mutate(log, rid, c, e).row.steps == Last(log).steps
  {
    hide Precheck, Prior, Change;
  }

  /** A look outside changes nothing inside. */
  lemma LaterIsSmooth(log: Log, world: nat -> Tick, at: nat)
    requires IsSmooth(log, world, at)
    ensures IsSmooth(log, world, at + 1)
  {
    hide HasFiles, IsSlug, IsGone;
    WholeLater(Last(log).steps, world(at).env, world(at + 1).env);
  }

  lemma StaysSmooth(was: Log, log: Log, world: nat -> Tick, at: nat, now: nat, base: Option<int>)
    requires IsSmooth(was, world, at) && Extends(was, log, base) && at <= now && log != []
    requires forall m | m in Last(log).messages :: m in Last(was).messages || IsUnused(m.id, world, now)
    requires AreWhole(Last(log).steps, world(at).env)
    ensures IsSmooth(log, world, now)
  {
    hide HasFiles, IsSlug, AreWhole, UnderNames, DrivenAt;
    WholeLater(Last(log).steps, world(at).env, world(now).env);
    assert log[0] == log[..|was|][0] == was[0];
  }

  /** A review's message id does not come up again. */
  lemma IdIsSpent(log: Log, world: nat -> Tick, at: nat)
    requires IsSmooth(log, world, at) && world(at).review.Reviewed?
    ensures IsUnused(world(at).review.message, world, at + 1)
  {
    hide IsSlug, HasFiles, Keeps;
  }

  lemma FilingIsSmooth(log: Log, rid: string, c: Command, e: Env, world: nat -> Tick, at: nat, base: Option<int>)
    requires IsSmooth(log, world, at) && c.Send? && IsUnused(c.id, world, at + 1)
    requires Extends(log, Grown(log, Mutate(log, rid, c, e)), base)
    ensures IsSmooth(Grown(log, Mutate(log, rid, c, e)), world, at + 1)
  {
    hide IsObliging, IsUnused, Extends, Prior, Neighbours, Parties, IsSlug, FindMessage;
    var next := Grown(log, Mutate(log, rid, c, e));
    forall m | m in Last(next).messages && m !in Last(log).messages ensures m.id == c.id {
    }
    assert forall m | m in Last(log).messages :: IsUnused(m.id, world, at);
    assert Last(next).steps == Last(log).steps;
    StaysSmooth(log, next, world, at, at + 1, base);
  }

  lemma StepMoveIsSilent(log: Log, rid: string, id: StepId, v: Verb, e: Env)
    requires log != []
    ensures Last(Grown(log, Mutate(log, rid, OnStep(id, v), e))).messages == Last(log).messages
  {
    hide EvidencePresent, VerbEffect, Prior, StepsAfter;
  }

  /** A row of the log is the same run with the same steps. */
  lemma SameStep(log: Log, row: Row, id: StepId)
    requires log != [] && Reached(log) && row in log && id in Last(log).steps
    ensures id in row.steps && SameShape(row.steps[id], Last(log).steps[id])
    ensures row.runId == Last(log).runId && row.revision == Last(log).revision
  {
    hide Reached;
    var i: nat :| i < |log| && log[i] == row;
    StepsAreFixed(log, i, |log| - 1, id);
    RunIdIsFixed(log, i, |log| - 1);
  }

  lemma FilesAreThere(log: Log, row: Row, id: StepId, world: nat -> Tick, clock: nat, n: nat)
    requires log != [] && Reached(log) && row in log && id in Last(log).steps && IsSmooth(log, world, clock)
    ensures HasFiles(world(n).env.disk, row.runId, id, Last(log).steps[id])
  {
    hide Reached, ArtifactName;
    assert log[0] in log;
    SameStep(log, log[0], id);
    SameStep(log, row, id);
    assert Keeps(world(0).env.disk, world(n).env.disk);
  }

  /** Carried out, or refused only for want of cycles. */
  predicate Goes(r: Verdict) {
    r.Applied? || r.AtCeiling?
  }

  lemma ClaimGoes(log: Log, id: StepId, holder: string, e: Env)
    requires IsQuiet(log, None) && id in Last(log).steps && Last(log).steps[id].status == Ready
    ensures var claim := OnStep(id, Request(Last(log).steps[id].owner, Some(holder)));
      Goes(Mutate(log, NameNow(log, id, "claim"), claim, e))
  {
    hide Reached, AreCalm, NamesAreBelow, Name, AllOfKind, Commit, Prior;
    WorkTexts();
    PresentNameIsNew(log, id, "claim");
  }

  lemma WorkGoes(log: Log, id: StepId, w: Work, state: Row, e: Env)
    requires IsInHand(log, id) && state.revision == Last(log).revision
    requires HasFiles(e.disk, state.runId, id, Last(log).steps[id])
    ensures var v := WorkVerb(w, Last(log).steps[id].owner, TokenOf(Last(log), id), state, id);
      Goes(Mutate(log, NameNow(log, id, WorkText(w)), OnStep(id, v), e))
  {
    hide Reached, AreCalm, NamesAreBelow, Name, AllOfKind, Commit, Prior, TextRank, WorkText, ArtifactName;
    PresentNameIsNew(log, id, WorkText(w));
  }

  /** The report of a review is numbered by the reviews before it. */
  function ReviewArtifact(snapshot: Row, id: StepId): string
    requires id in snapshot.steps
  {
    ArtifactName(snapshot.runId, id, ".check" + Dec(snapshot.steps[id].reviewCycles + 1))
  }

  /** The message a review is filed as. */
  function Filing(review: Review, id: StepId, checker: string, owner: string, artifact: string): (c: Command)
    requires review.Reviewed?
    ensures c.Send? && c.id == review.message
  {
    Send(review.message, id, checker, owner, if review.ruling.Approves? then Decision else Feedback, artifact, None)
  }

  lemma FilingGoes(log: Log, id: StepId, review: Review, checker: string, artifact: string, e: Env)
    requires IsQuiet(log, None) && id in Last(log).steps && Last(log).steps[id].status == AwaitingCheck
    requires review.Reviewed? && IsSlug(review.message) && FindMessage(Last(log).messages, review.message).None?
    requires Last(log).steps[id].checker == Some(checker) && checker != Last(log).steps[id].owner && artifact in e.disk
    ensures var c := Filing(review, id, checker, Last(log).steps[id].owner, artifact);
      Goes(Mutate(log, NameNow(log, id, "verdict-message"), c, e))
  {
    hide Reached, AreCalm, NamesAreBelow, Name, AllOfKind, Prior, FindMessage, Neighbours, IsSlug;
    FilingText();
    PresentNameIsNew(log, id, "verdict-message");
    var step := Last(log).steps[id];
    assert {checker, step.owner} <= Parties(step);
  }

  lemma {:induction false} NewestIsFound(messages: seq<Message>, m: Message)
    requires FindMessage(messages, m.id).None?
    ensures FindMessage(messages + [m], m.id) == Some(m)
  {
    if messages == [] {
    } else {
      assert (messages + [m])[1..] == messages[1..] + [m];
      NewestIsFound(messages[1..], m);
    }
  }

  lemma FiledRow(log: Log, rid: string, c: Command, e: Env, m: Row)
    requires log != [] && c.Send? && Mutate(log, rid, c, e) == Applied(m)
    ensures m.steps == Last(log).steps && m.status == Active && m.requestId == rid && c.payload in e.disk
    ensures FindMessage(Last(log).messages, c.id).None?
    ensures m.messages ==
      Last(log).messages + [Message(c.id, c.about, c.sender, c.receiver, c.kind, c.payload, e.disk[c.payload],
                                    c.replyTo)]
  {
    hide Prior, Neighbours, Parties, IsSlug, FindMessage;
  }

  lemma RulingTakesHold(row: Row, id: StepId, review: Review, checker: string, e: Env)
    requires id in row.steps && row.status == Active && review.Reviewed?
    requires var kind := if review.ruling.Approves? then Decision else Feedback;
      CheckRefused(row, id, row.steps[id], checker, review.message, kind, e).None?
    ensures forall rid ::
      Goes(Decide(row, rid, OnStep(id, RulingVerb(review.ruling, checker, review.message, review.cost)), e))
  {
    hide CheckRefused, Commit;
  }

  lemma RecordGoes(log: Log, id: StepId, m: Row, review: Review, checker: string, artifact: string, e: Env, f: Env)
    requires IsQuiet(log, None) && id in Last(log).steps && Last(log).steps[id].status == AwaitingCheck
    requires review.Reviewed? && Last(log).steps[id].checker == Some(checker)
    requires var c := Filing(review, id, checker, Last(log).steps[id].owner, artifact);
      Mutate(log, NameNow(log, id, "verdict-message"), c, e) == Applied(m)
    requires SubmissionRefused(Last(log).steps[id], e).None? && Keeps(e.disk, f.disk)
    ensures m.steps == Last(log).steps
    ensures var v := RulingVerb(review.ruling, checker, review.message, review.cost);
      Goes(Mutate(log + [m], NameNow(log + [m], id, RulingText(review.ruling)), OnStep(id, v), f))
  {
    hide Reached, Mutate, AreCalm, NamesAreBelow, Name, AllOfKind, Prior, Decide, FindMessage;
    var c := Filing(review, id, checker, Last(log).steps[id].owner, artifact);
    FiledRow(log, NameNow(log, id, "verdict-message"), c, e, m);
    NewestIsFound(Last(log).messages, Last(m.messages));
    RulingTakesHold(m, id, review, checker, f);
    RecordIsNew(log, id, m, RulingText(review.ruling));
    DecidedAnew(log + [m], id, RulingText(review.ruling),
                RulingVerb(review.ruling, checker, review.message, review.cost), f);
  }

  /** The review the driver just got of a submission. */
  ghost predicate IsGot(log: Log, snapshot: Row, id: StepId, world: nat -> Tick, at: nat) {
    && Finds(log, snapshot, id, AwaitingCheck) && IsSmooth(log, world, at) && snapshot in log
    && world(at).review.Reviewed?
  }

  lemma GotReview(log: Log, snapshot: Row, id: StepId, world: nat -> Tick, at: nat)
    requires IsGot(log, snapshot, id, world, at) && Reached(log)
    ensures var step, review := Last(log).steps[id], world(at).review;
      && step.checker.Some? && step.checker.value != step.owner
      && ReviewArtifact(snapshot, id) in world(at + 1).env.disk
      && SubmissionRefused(step, world(at + 1).env).None? && Keeps(world(at + 1).env.disk, world(at + 2).env.disk)
      && IsSlug(review.message) && FindMessage(Last(log).messages, review.message).None?
  {
    hide Reached, IsQuiet, ArtifactName, IsSlug;
    StepInside(log, id);
    CheckerIsSomeoneElse(log, |log| - 1, id);
    FilesAreThere(log, snapshot, id, world, at, at + 1);
    assert Keeps(world(at).env.disk, world(at + 1).env.disk);
  }

  lemma FoundIsWhole(log: Log, snapshot: Row, id: StepId, world: nat -> Tick, at: nat)
    requires Finds(log, snapshot, id, AwaitingCheck) && IsSmooth(log, world, at)
    ensures SubmissionRefused(snapshot.steps[id], world(at).env).None?
  {
    hide IsQuiet, IsObliging, SubmissionRefused;
    assert !IsGone(Last(log).steps[id], world(at).env);
  }

  lemma CheckIsMissing(world: nat -> Tick, log: Log, at: nat, now: nat, snapshot: Row, id: StepId)
    requires at < now && snapshot in log && id in snapshot.steps && snapshot.steps[id].status == AwaitingCheck
    requires world(at).review.NoReview? || SubmissionRefused(snapshot.steps[id], world(at).env).Some?
    ensures AreMissing(world, log, at, now, 1)
  {
    hide SubmissionRefused;
    assert IsGone(snapshot.steps[id], world(at).env) ==> IsMissing(world(at), log);
    OneMissed(world, log, at, at, now, 1);
  }

  /** In an obliging world the review is filed. */
  lemma ReviewIsFiled(log: Log, snapshot: Row, id: StepId, world: nat -> Tick, at: nat)
    requires IsGot(log, snapshot, id, world, at) && Reached(log)
    ensures snapshot.steps[id].checker.Some?
    ensures var step := snapshot.steps[id];
      var c := Filing(world(at).review, id, step.checker.value, step.owner, ReviewArtifact(snapshot, id));
      Goes(Mutate(log, NameNow(log, id, "verdict-message"), c, world(at + 1).env))
  {
    hide Reached, Mutate, ReviewArtifact, IsSmooth, SubmissionRefused, Filing, NameNow, FindMessage, IsSlug;
    GotReview(log, snapshot, id, world, at);
    FilingGoes(log, id, world(at).review, Last(log).steps[id].checker.value, ReviewArtifact(snapshot, id),
               world(at + 1).env);
  }

  /** And then recorded. */
  lemma ReviewIsRecorded(log: Log, snapshot: Row, id: StepId, world: nat -> Tick, at: nat, m: Row)
    requires IsGot(log, snapshot, id, world, at) && Reached(log) && snapshot.steps[id].checker.Some?
    requires var step := snapshot.steps[id];
      var c := Filing(world(at).review, id, step.checker.value, step.owner, ReviewArtifact(snapshot, id));
      Mutate(log, NameNow(log, id, "verdict-message"), c, world(at + 1).env) == Applied(m)
    ensures m.steps == Last(log).steps
    ensures var review := world(at).review;
      var v := RulingVerb(review.ruling, snapshot.steps[id].checker.value, review.message, review.cost);
      Goes(Mutate(log + [m], NameNow(log + [m], id, RulingText(review.ruling)), OnStep(id, v), world(at + 2).env))
  {
    hide Reached, Mutate, ReviewArtifact, IsSmooth, SubmissionRefused, Filing, NameNow, RulingText, RulingVerb,
         FindMessage, IsSlug;
    GotReview(log, snapshot, id, world, at);
    RecordGoes(log, id, m, world(at).review, Last(log).steps[id].checker.value, ReviewArtifact(snapshot, id),
               world(at + 1).env, world(at + 2).env);
  }

  lemma DecidedAnew(log: Log, id: StepId, verb: string, v: Verb, e: Env)
    requires log != [] && id in Last(log).steps && Prior(log, NameNow(log, id, verb)).None? && EvidencePresent(v, e)
    ensures var rid := NameNow(log, id, verb);
      Mutate(log, rid, OnStep(id, v), e) == Decide(Last(log), rid, OnStep(id, v), e)
  {
    hide Prior, NameNow, Decide;
  }

  /** A bill that has reached the snapshot's ceiling has used up a whole base ceiling. */
  lemma SnapshotIsSpent(log: Log, state: Row, found: int, ceiling: int, base: Option<int>)
    requires log != [] && state in log && Last(log).spend >= ceiling
    requires ceiling == if state.ceiling != 0 then state.ceiling else if found > 0 then found else 0
    requires base.Some? ==> base.value > 0 && found == base.value
    ensures base.Some? && DrivenAt(log, base.value) ==> Last(log).spend >= base.value
  {
    hide DrivenAt;
    if base.Some? && DrivenAt(log, base.value) {
      SnapshotCeiling(log, base.value, state);
    }
  }

  /** A claim, a takeover and a completion go by the driver's names for them. */
  lemma NamesSuit(v: Verb)
    ensures v.Request? ==> IsDriverVerb(v) && Suits("claim", v)
    ensures v.Take? ==> Suits("take", v)
    ensures v.Complete? ==> IsDriverVerb(v) && Suits("complete", v)
    ensures v.Request? || v.Take? || v.Complete? ==> !v.Hold?
  {
    WorkTexts();
  }

  /** A step that is ready may be claimed. */
  lemma ReadyIsTimely(step: Step, v: Verb)
    requires v.Request? && step.status == Ready
    ensures IsTimely(step, v, "claim")
  {
    WorkTexts();
  }

  /** A budget stop goes by the driver's own name for one, at a moment when it may. */
  lemma StopSuits(step: Step, v: Verb)
    requires v.Hold? && v.kind.OverBudget?
    ensures IsDriverVerb(v) && Suits("over-budget", v)
    ensures StatusRank(step.status) == 0 ==> IsTimely(step, v, "over-budget")
  {
    WorkTexts();
    assert "over-budget" in ["over-budget", "hold", "release", "fail", "complete"];
  }

  /** A parked step leaves the run as heavy as it was. */
  lemma StopIsPaid(was: Log, id: StepId, v: Verb, r: Verdict)
    requires was != [] && id in Last(was).steps && v.Hold? && Leaves(was, id, v, r) && !Exits(r)
    ensures Paid(was, Grown(was, r), id, 0, 0)
  {
    hide Phi, Untouched, IsQuiet;
  }
}
