/** What the autonomous driver's moves do to a run (`executor_drive`, `executor_steps`, `checking`):
    every move goes out under a name nobody used before, and lowers what the run can still spend. */
module DriverMoves {
  import opened Outcomes
  import opened Workflows
  import opened RunModel
  import opened RunInvariants
  import opened RunProgress
  import opened RunLedger
  import opened RunMoney
  import opened Names

  // --- heights: where in its life a step stands, and which moment a name belongs to ---------

  function StatusRank(status: StepStatus): nat {
    match status
    case Pending => 0
    case InProgress => 0
    case AwaitingCheck => 1
    case AwaitingApproval => 1
    case Ready => 2
    case _ => 3
  }

  function Height(step: Step): nat {
    4 * Tries(step) + StatusRank(step.status)
  }

  const REVIEW_VERBS: set<string> := {"verdict-message", "check-approve", "check-return", "check-reject"}

  function TextRank(verb: string): nat {
    if verb == "claim" then 2 else if verb in REVIEW_VERBS then 1 else 0
  }

  /** The rank a driver's verb is named at. */
  function VerbRank(v: Verb): nat {
    if v.Request? then 2 else if v.CheckApprove? || v.CheckReturn? || v.CheckReject? then 1 else 0
  }

  predicate IsDriverVerb(v: Verb) {
    v.Request? || v.Hold? || v.Complete? || v.Fail? || v.Release? || v.CheckApprove? || v.CheckReturn? || v.CheckReject?
  }

  /** How many passes a step can still be worth: two for each attempt left, one for a pending check. */
  function Weight(step: Step): int {
    2 * (step.maxAttempts - step.attempts) + if step.status == AwaitingCheck then 1 else 0
  }

  ghost function Weights(steps: Steps): map<StepId, int> {
    map id | id in steps :: Weight(steps[id])
  }

  ghost function Phi(steps: Steps): int {
    Sum(Weights(steps))
  }

  /** A driver's verb takes its step up, past the moment it is named after. */
  lemma VerbRises(v: Verb, id: StepId, step: Step, row: Row, e: Env)
    requires EvidencePresent(v, e) && StepOk(step, row.runId, row.number) && step.risk.Green? && IsDriverVerb(v)
    requires VerbEffect(v, id, step, row, e).Ok?
    ensures var next := VerbEffect(v, id, step, row, e).value.step;
      && Height(step) <= Height(next)
      && 4 * Tries(step) + VerbRank(v) < Height(next)
      && (v.Hold? || next.held == step.held)
      && (v.Hold? ==> next.status == AwaitingApproval) && step.status != AwaitingApproval
  {
  }

  /** What each verb does to the weight of its step. */
  lemma VerbWeighs(v: Verb, id: StepId, step: Step, row: Row, e: Env)
    requires EvidencePresent(v, e) && StepOk(step, row.runId, row.number) && step.risk.Green? && IsDriverVerb(v)
    requires VerbEffect(v, id, step, row, e).Ok?
    ensures var next := VerbEffect(v, id, step, row, e).value.step;
      && (v.Request? && next.status == InProgress ==> Weight(next) == Weight(step) - 2)
      && (v.Hold? || v.Fail? ==> Weight(next) == Weight(step))
      && (v.Complete? ==> Weight(next) <= Weight(step) + 1)
      && (v.Release? ==> Weight(next) == Weight(step) + 2)
      && (v.CheckApprove? || v.CheckReturn? || v.CheckReject? ==> Weight(next) == Weight(step) - 1)
      && (v.Request? ==> next.status == InProgress || next.status == BlockedRetryLimit)
      && (!v.Request? ==> next.status != InProgress)
  {
  }

  // --- one move inside its run --------------------------------------------------------------

  /** Steps that stood still while another one moved. */
  ghost predicate Untouched(p: Steps, q: Steps, id: StepId) {
    && p.Keys == q.Keys
    && forall k | k in p && k != id && p[k].status != Pending && p[k].status != InProgress :: q[k] == p[k]
  }

  ghost predicate OthersKept(p: Steps, q: Steps, id: StepId) {
    p.Keys == q.Keys && forall k | k in p && k != id :: Kept(p[k], q[k])
  }

  lemma KeptIsUntouched(p: Steps, q: Steps, id: StepId)
    requires OthersKept(p, q, id)
    ensures Untouched(p, q, id)
  {
  }

  /** An accepted verb: its effect on its own step, and the others kept. */
  lemma AppliedVerb(log: Log, rid: string, id: StepId, v: Verb, e: Env) returns (f: Effect)
    requires log != [] && Reached(log) && Mutate(log, rid, OnStep(id, v), e).Applied?
    ensures EvidencePresent(v, e) && id in Last(log).steps
    ensures VerbEffect(v, id, Last(log).steps[id], Last(log), e) == Ok(f)
    ensures StepOk(Last(log).steps[id], Last(log).runId, Last(log).number)
    ensures var row := Mutate(log, rid, OnStep(id, v), e).row;
      && OthersKept(Last(log).steps, row.steps, id) && row.steps[id] == Charged(f)
      && Reached(log + [row]) && row.requestId == rid && row.event == EventOf(OnStep(id, v))
  {
    hide Reached, RowOk, Mutate, Kept, Targets, VerbEffect, StepOk, Charged;
    var a := Ask(rid, OnStep(id, v), e);
    var row := Mutate(log, rid, OnStep(id, v), e).row;
    assert NextRow(log, a) == Some(row);
    NextIsSuccessor(log, a);
    LastIsOk(log);
    ReachedGrows(log, a);
    SuccessorKeepsRow(Last(log), a);
    AppliedActs(log, rid, OnStep(id, v), e);
    hide NextRow, Successor;
    f := Between(Last(log), a, id);
    StepIsOkAt(log, |log| - 1, id);
    forall k | k in row.steps && k != id ensures Kept(Last(log).steps[k], row.steps[k]) {
      var g := Between(Last(log), a, k);
    }
  }

  lemma AppliedActs(log: Log, rid: string, c: Command, e: Env)
    requires log != [] && Mutate(log, rid, c, e).Applied?
    ensures Last(log).cycleCount < Last(log).maxCycles && Last(log).status == Active
    ensures c.OnStep? ==> c.step in Last(log).steps
    ensures c.Send? ==> Mutate(log, rid, c, e).row.steps == Last(log).steps
    ensures c.Send? ==> Mutate(log, rid, c, e).row.status == Active && Mutate(log, rid, c, e).row.event == MessageSent
  {
  }

  lemma ReachedGrows(log: Log, a: Action)
    requires log != [] && Reached(log) && NextRow(log, a).Some?
    ensures Reached(log + [NextRow(log, a).value])
  {
    hide NextRow;
    var next := log + [NextRow(log, a).value];
    assert Front(next) == log && Last(next) == NextRow(log, a).value;
    assert Follows(log, Last(next)) && Grew(next);
  }

  // --- names used so far --------------------------------------------------------------------

  /** A row's name, if it is a driver's name for a step, belongs to a moment the step has left. */
  ghost predicate NameIsBelow(rid: string, steps: Steps) {
    forall id, a: nat, r: nat, verb | id in steps && AllOfKind(verb, false) && rid == Name(id, a, r, verb) ::
      4 * (a + r) + TextRank(verb) < Height(steps[id])
  }

  ghost predicate NamesAreBelow(log: Log)
    requires log != []
  {
    forall k | 0 <= k < |log| :: NameIsBelow(log[k].requestId, Last(log).steps)
  }

  ghost predicate HeightsRise(p: Steps, q: Steps) {
    p.Keys == q.Keys && forall id | id in p :: Height(p[id]) <= Height(q[id])
  }

  lemma StaysBelow(rid: string, p: Steps, q: Steps)
    requires NameIsBelow(rid, p) && HeightsRise(p, q)
    ensures NameIsBelow(rid, q)
  {
    hide Name, Height, AllOfKind;
  }

  /** The name of the step's present moment is new. */
  lemma PresentNameIsNew(log: Log, id: StepId, verb: string)
    requires log != [] && NamesAreBelow(log) && id in Last(log).steps && AllOfKind(verb, false)
    requires StatusRank(Last(log).steps[id].status) <= TextRank(verb)
    ensures Prior(log, Name(id, Last(log).steps[id].attempts, Last(log).steps[id].releases, verb)).None?
  {
    hide Name, AllOfKind;
  }

  /** A name of the past moment is below. */
  lemma OwnNameIsBelow(id: StepId, a: nat, r: nat, verb: string, steps: Steps)
    requires AllOfKind(verb, false) && id in steps && 4 * (a + r) + TextRank(verb) < Height(steps[id])
    ensures NameIsBelow(Name(id, a, r, verb), steps)
  {
    forall id', a': nat, r': nat, verb' | id' in steps && AllOfKind(verb', false)
      && Name(id, a, r, verb) == Name(id', a', r', verb')
      ensures 4 * (a' + r') + TextRank(verb') < Height(steps[id'])
    {
      NameIsInjective(id, a, r, verb, id', a', r', verb');
    }
  }

  // --- a run between two moves of its only driver -------------------------------------------

  /** Green, out only if it is the step in hand, and holding nothing unless it is parked. */
  predicate IsCalm(step: Step, inHand: bool) {
    step.risk.Green? && (step.status == InProgress ==> inHand)
      && (step.held != NotHeld ==> step.status == AwaitingApproval)
  }

  ghost predicate AreCalm(steps: Steps, hand: Option<StepId>) {
    forall id | id in steps :: IsCalm(steps[id], hand == Some(id))
  }

  ghost predicate IsLive(log: Log) {
    log != [] && Reached(log) && Last(log).status == Active
  }

  /** An active green run that nobody but this driver moves, with at most one step in hand. */
  ghost predicate IsQuiet(log: Log, hand: Option<StepId>) {
    IsLive(log) && AreCalm(Last(log).steps, hand) && NamesAreBelow(log)
  }

  lemma KeptRises(p: Step, q: Step, inHand: bool)
    requires Kept(p, q) && IsCalm(p, inHand) && (p.status == Pending ==> Tries(p) == 0)
    ensures IsCalm(q, inHand) && Height(p) <= Height(q) && Weight(p) == Weight(q)
  {
  }

  /** The step verb was applied under the name of the moment the step was in. */
  ghost predicate WasMade(log: Log, id: StepId, v: Verb, verb: string, e: Env, row: Row)
    requires log != []
  {
    && IsDriverVerb(v) && TextRank(verb) == VerbRank(v) && AllOfKind(verb, false) && id in Last(log).steps
    && var rid := Name(id, Last(log).steps[id].attempts, Last(log).steps[id].releases, verb);
       Mutate(log, rid, OnStep(id, v), e) == Applied(row)
  }

  /** A driver's move: its step rises past the name the move was made under, no other step loses
      height, and the weight of the run changes by that of the step alone. */
  lemma MoveRises(log: Log, hand: Option<StepId>, id: StepId, v: Verb, verb: string, e: Env, row: Row)
    requires IsLive(log) && AreCalm(Last(log).steps, hand) && (hand == None || hand == Some(id))
    requires WasMade(log, id, v, verb, e, row)
    ensures id in row.steps && Reached(log + [row]) && row.event == EventOf(OnStep(id, v))
    ensures Untouched(Last(log).steps, row.steps, id) && HeightsRise(Last(log).steps, row.steps)
    ensures 4 * Tries(Last(log).steps[id]) + VerbRank(v) < Height(row.steps[id])
    ensures NameIsBelow(row.requestId, row.steps)
    ensures Phi(row.steps) == Phi(Last(log).steps) - Weight(Last(log).steps[id]) + Weight(row.steps[id])
    ensures AreCalm(row.steps, if row.steps[id].status == InProgress then Some(id) else None)
  {
    hide Reached, Mutate, VerbEffect, StepOk, Name, AllOfKind, OthersKept, Height;
    var p := Last(log).steps;
    var f := AppliedVerb(log, Name(id, p[id].attempts, p[id].releases, verb), id, v, e);
    KeptIsUntouched(p, row.steps, id);
    OthersRise(log, row, hand, id);
    EffectIsCalm(v, id, p[id], Last(log), e);
    OwnNameIsBelow(id, p[id].attempts, p[id].releases, verb, row.steps);
  }

  lemma MoveKeepsQuiet(log: Log, hand: Option<StepId>, id: StepId, v: Verb, verb: string, e: Env, row: Row)
    requires IsQuiet(log, hand) && (hand == None || hand == Some(id)) && WasMade(log, id, v, verb, e, row)
    ensures id in row.steps && Reached(log + [row]) && row.event == EventOf(OnStep(id, v))
    ensures Untouched(Last(log).steps, row.steps, id)
    ensures Phi(row.steps) == Phi(Last(log).steps) - Weight(Last(log).steps[id]) + Weight(row.steps[id])
    ensures row.status == Active ==> IsQuiet(log + [row], if row.steps[id].status == InProgress then Some(id) else None)
  {
    hide Reached, WasMade, NameIsBelow, Untouched, HeightsRise, AreCalm, Height, Weight, NamesAreBelow, Phi;
    MoveRises(log, hand, id, v, verb, e, row);
    NamesStayBelow(log, row);
    assert Last(log + [row]) == row;
  }

  lemma EffectIsCalm(v: Verb, id: StepId, step: Step, row: Row, e: Env)
    requires EvidencePresent(v, e) && StepOk(step, row.runId, row.number) && IsDriverVerb(v) && IsCalm(step, true)
    requires VerbEffect(v, id, step, row, e).Ok?
    ensures var next := Charged(VerbEffect(v, id, step, row, e).value);
      IsCalm(next, true) && Height(step) <= Height(next) && 4 * Tries(step) + VerbRank(v) < Height(next)
  {
    hide StepOk, VerbEffect, IsDriverVerb, VerbRank, StatusRank;
    VerbMoves(v, id, step, row, e);
    VerbRises(v, id, step, row, e);
  }

  lemma OthersRise(log: Log, row: Row, hand: Option<StepId>, id: StepId)
    requires IsLive(log) && AreCalm(Last(log).steps, hand) && (hand == None || hand == Some(id))
    requires id in Last(log).steps && OthersKept(Last(log).steps, row.steps, id)
    ensures row.steps.Keys == Last(log).steps.Keys
    ensures forall k | k in row.steps && k != id ::
      IsCalm(row.steps[k], false) && Height(Last(log).steps[k]) <= Height(row.steps[k])
    ensures Phi(row.steps) == Phi(Last(log).steps) - Weight(Last(log).steps[id]) + Weight(row.steps[id])
  {
    hide Reached, Height, StepOk, RowOk, Weight, IsCalm, Kept;
    LastIsOk(log);
    var p := Last(log).steps;
    forall k | k in row.steps && k != id
      ensures IsCalm(row.steps[k], false) && Height(p[k]) <= Height(row.steps[k])
      ensures Weight(p[k]) == Weight(row.steps[k])
    {
      PendingIsFresh(Last(log), k);
      assert hand != Some(k) && IsCalm(p[k], hand == Some(k));
      KeptRises(p[k], row.steps[k], false);
    }
    assert Weights(row.steps) == Weights(p)[id := Weight(row.steps[id])];
    SumUpdate(Weights(p), id, Weight(row.steps[id]));
  }

  lemma NamesStayBelow(log: Log, row: Row)
    requires log != [] && NamesAreBelow(log) && HeightsRise(Last(log).steps, row.steps)
    requires NameIsBelow(row.requestId, row.steps)
    ensures NamesAreBelow(log + [row])
  {
    hide NameIsBelow, HeightsRise;
    var next := log + [row];
    forall k | 0 <= k < |next| ensures NameIsBelow(next[k].requestId, row.steps) {
      if k < |log| {
        StaysBelow(log[k].requestId, Last(log).steps, row.steps);
      }
    }
  }

  /** A review is two moves: the verdict is filed as a message, then recorded. The record's name is new
      although the message already used the step's present moment, and the pair leaves the run quiet. */
  lemma ReviewKeepsQuiet(log: Log, id: StepId, m: Row, v: Verb, verb: string, e: Env, row: Row)
    requires IsQuiet(log, None) && id in Last(log).steps && IsLive(log + [m]) && m.steps == Last(log).steps
    requires m.requestId == Name(id, m.steps[id].attempts, m.steps[id].releases, "verdict-message")
    requires VerbRank(v) == 1 && WasMade(log + [m], id, v, verb, e, row)
    ensures Reached(log + [m] + [row]) && row.event == EventOf(OnStep(id, v))
    ensures Untouched(Last(log).steps, row.steps, id)
    ensures id in row.steps
    ensures Phi(row.steps) == Phi(Last(log).steps) - Weight(Last(log).steps[id]) + Weight(row.steps[id])
    ensures row.status == Active && row.steps[id].status != InProgress ==> IsQuiet(log + [m] + [row], None)
  {
    hide Reached, WasMade, Mutate, NameIsBelow, Untouched, HeightsRise, AreCalm, Height, Weight, NamesAreBelow, Phi,
         Name;
    MoveRises(log + [m], None, id, v, verb, e, row);
    OwnNameIsBelow(id, m.steps[id].attempts, m.steps[id].releases, "verdict-message", row.steps);
    NamesStayBelow(log, row.(requestId := m.requestId));
    NamesBelowBoth(log, m, row);
  }

  lemma NamesBelowBoth(log: Log, m: Row, row: Row)
    requires log != [] && NamesAreBelow(log + [row.(requestId := m.requestId)]) && NameIsBelow(row.requestId, row.steps)
    ensures NamesAreBelow(log + [m] + [row])
  {
    hide NameIsBelow;
    var once, both := log + [row.(requestId := m.requestId)], log + [m] + [row];
    assert Last(once).steps == row.steps;
    forall k | 0 <= k < |both| ensures NameIsBelow(both[k].requestId, row.steps) {
      if k <= |log| {
        assert NameIsBelow(once[k].requestId, row.steps);
      }
    }
  }

  /** The record of a verdict is never mistaken for the message that was filed with it. */
  lemma RecordIsNew(log: Log, id: StepId, m: Row, verb: string)
    requires log != [] && NamesAreBelow(log) && id in Last(log).steps && AllOfKind(verb, false)
    requires verb != "verdict-message"
    requires StatusRank(Last(log).steps[id].status) <= TextRank(verb) && m.steps == Last(log).steps
    requires m.requestId == Name(id, m.steps[id].attempts, m.steps[id].releases, "verdict-message")
    ensures Prior(log + [m], Name(id, m.steps[id].attempts, m.steps[id].releases, verb)).None?
  {
    var a, r := m.steps[id].attempts, m.steps[id].releases;
    PresentNameIsNew(log, id, verb);
    hide Name;
    if Name(id, a, r, verb) == m.requestId {
      NameIsInjective(id, a, r, verb, id, a, r, "verdict-message");
    }
  }

  // --- the outcome of one request, as the driver's code sees it ------------------------------

  predicate WeighsAs(v: Verb, p: Step, q: Step) {
    && (v.Request? && q.status == InProgress ==> Weight(q) == Weight(p) - 2)
    && (v.Hold? || v.Fail? ==> Weight(q) == Weight(p))
    && (v.Complete? ==> Weight(q) <= Weight(p) + 1)
    && (v.Release? ==> Weight(q) == Weight(p) + 2)
    && (v.CheckApprove? || v.CheckReturn? || v.CheckReject? ==> Weight(q) == Weight(p) - 1)
    && (v.Request? ==> q.status == InProgress || q.status == BlockedRetryLimit)
    && (!v.Request? ==> q.status != InProgress)
  }

  lemma MoveWeighs(log: Log, rid: string, id: StepId, v: Verb, e: Env, row: Row)
    requires log != [] && Reached(log) && IsDriverVerb(v) && Mutate(log, rid, OnStep(id, v), e) == Applied(row)
    requires id in Last(log).steps && Last(log).steps[id].risk.Green?
    ensures id in row.steps && WeighsAs(v, Last(log).steps[id], row.steps[id])
  {
    hide Reached, Mutate, VerbEffect, StepOk;
    var f := AppliedVerb(log, rid, id, v, e);
    VerbWeighs(v, id, Last(log).steps[id], Last(log), e);
  }

  /** The run after a request that was answered `r`. */
  function Grown(log: Log, r: Verdict): Log {
    match r
    case Applied(row) => log + [row]
    case AtCeiling(row) => log + [row]
    case _ => log
  }

  /** What a driver's move leaves of a quiet run with at most this step in hand. */
  ghost predicate Leaves(was: Log, id: StepId, v: Verb, r: Verdict)
    requires was != [] && id in Last(was).steps
  {
    && !r.Replayed?
    && (r.AtCeiling? ==> r.row.status != Active)
    && (r.Applied? ==>
          && id in r.row.steps && WeighsAs(v, Last(was).steps[id], r.row.steps[id])
          && Untouched(Last(was).steps, r.row.steps, id)
          && Phi(r.row.steps) == Phi(Last(was).steps) - Weight(Last(was).steps[id]) + Weight(r.row.steps[id])
          && (r.row.status == Active ==> r.row.steps[id].status != BlockedRetryLimit)
          && (r.row.status == Active ==>
                IsQuiet(was + [r.row], if r.row.steps[id].status == InProgress then Some(id) else None)))
  }

  /** In a quiet run a driver's request is never taken for a replay, and leaves the run quiet. */
  lemma QuietMove(log: Log, id: StepId, v: Verb, verb: string, e: Env)
    requires IsQuiet(log, Some(id)) && id in Last(log).steps && IsDriverVerb(v)
    requires AllOfKind(verb, false) && TextRank(verb) == VerbRank(v)
    requires StatusRank(Last(log).steps[id].status) <= VerbRank(v)
    ensures var rid := Name(id, Last(log).steps[id].attempts, Last(log).steps[id].releases, verb);
      Leaves(log, id, v, Mutate(log, rid, OnStep(id, v), e))
  {
    hide Reached, AreCalm, NamesAreBelow, Name, AllOfKind, WeighsAs, Untouched, Phi, Weight, Decide;
    var rid := Name(id, Last(log).steps[id].attempts, Last(log).steps[id].releases, verb);
    var r := Mutate(log, rid, OnStep(id, v), e);
    PresentNameIsNew(log, id, verb);
    if Precheck(OnStep(id, v), e).None? {
      DecideNever(Last(log), rid, OnStep(id, v), e);
    }
    hide Mutate;
    if r.Applied? {
      assert WasMade(log, id, v, verb, e, r.row);
      CalmIsGreen(Last(log).steps, Some(id), id);
      MoveWeighs(log, rid, id, v, e, r.row);
      MoveKeepsQuiet(log, Some(id), id, v, verb, e, r.row);
      if r.row.status == Active { BlockedEndsRun(log + [r.row], id); }
    }
  }

  lemma BlockedEndsRun(log: Log, id: StepId)
    requires log != [] && Reached(log) && id in Last(log).steps && Last(log).status == Active
    ensures Last(log).steps[id].status != BlockedRetryLimit
  {
    hide Reached;
    LastIsOk(log);
    assert EndOf(Last(log).steps[id].status) == Active;
  }

  lemma CalmIsGreen(steps: Steps, hand: Option<StepId>, id: StepId)
    requires AreCalm(steps, hand) && id in steps
    ensures steps[id].risk.Green?
  {
  }

  lemma DecideNever(row: Row, rid: string, c: Command, e: Env)
    requires Precheck(c, e).None?
    ensures !Decide(row, rid, c, e).Replayed?
    ensures Decide(row, rid, c, e).AtCeiling? ==> Decide(row, rid, c, e).row.status != Active
  {
  }

  lemma HandMayBeFull(log: Log, id: StepId)
    requires IsQuiet(log, None)
    ensures IsQuiet(log, Some(id))
    ensures id in Last(log).steps && Last(log).steps[id].held != NotHeld ==>
      Last(log).steps[id].status == AwaitingApproval
  {
    hide Reached, NamesAreBelow;
  }

  /** Filing a verdict in a quiet run: the message is new, and it touches no step. */
  lemma QuietFiling(log: Log, id: StepId, c: Command, e: Env)
    requires IsQuiet(log, None) && id in Last(log).steps && Last(log).steps[id].status == AwaitingCheck && c.Send?
    ensures var rid := Name(id, Last(log).steps[id].attempts, Last(log).steps[id].releases, "verdict-message");
      var r := Mutate(log, rid, c, e);
      && !r.Replayed?
      && (r.Applied? ==> r.row.steps == Last(log).steps && r.row.requestId == rid && IsLive(log + [r.row]))
  {
    hide Reached, AreCalm, NamesAreBelow, Name, AllOfKind, Decide;
    var rid := Name(id, Last(log).steps[id].attempts, Last(log).steps[id].releases, "verdict-message");
    assert AllOfKind("verdict-message", false) && TextRank("verdict-message") == 1 by { FilingText(); }
    PresentNameIsNew(log, id, "verdict-message");
    if Precheck(c, e).None? {
      DecideNever(Last(log), rid, c, e);
    }
    var r := Mutate(log, rid, c, e);
    if r.Applied? {
      assert NextRow(log, Ask(rid, c, e)) == Some(r.row);
      NextIsSuccessor(log, Ask(rid, c, e));
      ReachedGrows(log, Ask(rid, c, e));
      AppliedActs(log, rid, c, e);
    }
  }

  lemma FilingText()
    ensures AllOfKind("verdict-message", false) && TextRank("verdict-message") == 1
  {
  }

  /** Recording a filed verdict: never mistaken for a replay, and worth its pass. */
  lemma QuietRecord(log: Log, id: StepId, m: Row, v: Verb, verb: string, e: Env)
    requires IsQuiet(log, None) && id in Last(log).steps && Last(log).steps[id].status == AwaitingCheck
    requires IsLive(log + [m]) && m.steps == Last(log).steps
    requires m.requestId == Name(id, m.steps[id].attempts, m.steps[id].releases, "verdict-message")
    requires IsDriverVerb(v) && VerbRank(v) == 1 && TextRank(verb) == 1 && AllOfKind(verb, false)
    requires verb != "verdict-message"
    ensures var r := Mutate(log + [m], Name(id, m.steps[id].attempts, m.steps[id].releases, verb), OnStep(id, v), e);
      && !r.Replayed?
      && (r.Applied? ==>
            && id in r.row.steps && Untouched(Last(log).steps, r.row.steps, id)
            && Phi(r.row.steps) == Phi(Last(log).steps) - 1
            && (r.row.status == Active ==> IsQuiet(log + [m] + [r.row], None)))
  {
    hide Reached, AreCalm, NamesAreBelow, Name, AllOfKind, Untouched, Phi, Decide;
    var rid := Name(id, m.steps[id].attempts, m.steps[id].releases, verb);
    var r := Mutate(log + [m], rid, OnStep(id, v), e);
    assert Last(log + [m]) == m;
    RecordIsNew(log, id, m, verb);
    if Precheck(OnStep(id, v), e).None? {
      DecideNever(m, rid, OnStep(id, v), e);
    }
    hide Mutate;
    if r.Applied? {
      assert WasMade(log + [m], id, v, verb, e, r.row);
      CalmIsGreen(Last(log).steps, None, id);
      MoveWeighs(log + [m], rid, id, v, e, r.row);
      ReviewKeepsQuiet(log, id, m, v, verb, e, r.row);
    }
  }

  // --- what a driver may write --------------------------------------------------------------

  predicate IsDriverEvent(event: Event) {
    event in {StepRequested, StepTaken, StepHeld, StepCompleted, StepFailed, StepReleased,
              CheckApproved, CheckReturned, CheckRejected, MessageSent, CycleLimitHit}
  }

  predicate IsDriverCommand(c: Command) {
    c.Send? || (c.OnStep? && (IsDriverVerb(c.verb) || c.verb.Take?))
  }

  /** The log grew by a driver's rows only, under a driver's names and, where one base ceiling is fixed, by
      its parking discipline: no approval, no rejection, no cancellation, no extension. */
  ghost predicate Extends(was: Log, log: Log, base: Option<int>) {
    && |was| <= |log| && log[..|was|] == was && (forall k | |was| <= k < |log| :: IsDriverEvent(log[k].event))
    && (UnderNames(was) ==> UnderNames(log))
    && (base.Some? && DrivenAt(was, base.value) ==> DrivenAt(log, base.value))
  }

  /** A step is parked on the budget only once a whole base ceiling is spent. */
  ghost predicate MayPark(log: Log, c: Command, base: Option<int>)
    requires log != []
  {
    c.OnStep? && c.verb.Hold? && c.verb.kind.OverBudget? && base.Some? && DrivenAt(log, base.value) ==>
      Last(log).spend >= base.value
  }

  lemma RequestIsDriven(log: Log, rid: string, c: Command, e: Env, base: Option<int>)
    requires log != [] && NextRow(log, Ask(rid, c, e)).Some?
    requires MayPark(log, c, base) && (base.Some? ==> e.baseCeiling == base.value)
    ensures base.Some? && DrivenAt(log, base.value) ==>
      DrivenAt(log + [NextRow(log, Ask(rid, c, e)).value], base.value)
  {
    hide NextRow, PricedAt;
    if base.Some? && DrivenAt(log, base.value) {
      PricedGrows(log, Ask(rid, c, e), base.value, true);
    }
  }

  lemma RequestExtends(log: Log, rid: string, c: Command, e: Env, base: Option<int>)
    requires log != [] && Reached(log) && IsDriverCommand(c) && IsNamed(Last(log), Ask(rid, c, e))
    requires MayPark(log, c, base) && (base.Some? ==> e.baseCeiling == base.value)
    ensures var after := Grown(log, Mutate(log, rid, c, e));
      && after != [] && Reached(after) && Extends(log, after, base)
      && Last(after).steps.Keys == Last(log).steps.Keys
      && (Last(log).status != Active ==> after == log)
      && (Mutate(log, rid, c, e).AtCeiling? ==> Last(after).status != Active)
  {
    hide Reached, UnderNames, IsNamed, DrivenAt, MayPark, Extends, IsDriverEvent, IsDriverCommand;
    SameExtends(log, base);
    if NextRow(log, Ask(rid, c, e)).Some? {
      ReachedGrows(log, Ask(rid, c, e));
      RequestRow(log, rid, c, e);
      StepsStay(log, Ask(rid, c, e));
      if UnderNames(log) { NamesGrow(log, Ask(rid, c, e)); }
      RequestIsDriven(log, rid, c, e, base);
      OneRowExtends(log, NextRow(log, Ask(rid, c, e)).value, base);
    }
  }

  lemma SameExtends(log: Log, base: Option<int>)
    ensures Extends(log, log, base)
  {
    hide UnderNames, DrivenAt;
  }

  lemma OneRowExtends(log: Log, row: Row, base: Option<int>)
    requires IsDriverEvent(row.event) && (UnderNames(log) ==> UnderNames(log + [row]))
    requires base.Some? && DrivenAt(log, base.value) ==> DrivenAt(log + [row], base.value)
    ensures Extends(log, log + [row], base)
  {
    hide UnderNames, DrivenAt, IsDriverEvent;
  }

  lemma StepsStay(log: Log, a: Action)
    requires log != [] && Reached(log) && NextRow(log, a).Some?
    ensures NextRow(log, a).value.steps.Keys == Last(log).steps.Keys
  {
    hide Reached, NextRow, Successor, RowOk;
    NextIsSuccessor(log, a);
    LastIsOk(log);
    SuccessorKeepsRow(Last(log), a);
  }

  lemma RequestRow(log: Log, rid: string, c: Command, e: Env)
    requires log != [] && NextRow(log, Ask(rid, c, e)).Some? && IsDriverCommand(c)
    ensures IsDriverEvent(NextRow(log, Ask(rid, c, e)).value.event)
    ensures Last(log).status == Active
    ensures Mutate(log, rid, c, e).AtCeiling? ==> Mutate(log, rid, c, e).row.status != Active
  {
  }

  lemma ExtendsKeeps(was: Log, log: Log, row: Row, base: Option<int>)
    requires Extends(was, log, base) && row in was
    ensures row in log
  {
    hide UnderNames, DrivenAt;
    var i :| 0 <= i < |was| && was[i] == row;
    assert log[i] == log[..|was|][i];
  }

  lemma ExtendsMore(a: Log, b: Log, c: Log, base: Option<int>)
    requires Extends(a, b, base) && Extends(b, c, base)
    ensures Extends(a, c, base)
  {
    hide UnderNames, DrivenAt;
    assert c[..|a|] == c[..|b|][..|a|];
    forall k | |a| <= k < |c| ensures IsDriverEvent(c[k].event) {
      if k < |b| {
        assert c[k] == c[..|b|][k];
      }
    }
  }
}
