/** Histories of one-step runs at which the code does something its documentation does not say: a second
    budget approval, the holder of an expired claim, a yellow step's second claim, and a review that was
    filed but not recorded. */
module RunExamples {
  import opened Outcomes
  import opened Workflows
  import opened RunModel
  import opened RunInvariants
  import opened RunLedger
  import opened RunFencing
  import opened RunMoney
  import opened RunReplay
  import opened Names
  import opened DriverMoves
  import opened Driver
  import opened DriverSteps

  const STEP: StepId := "aa"
  const RUN := "run"
  const REVISION := "rev"

  function Plan(checked: bool, limit: nat := 100): Workflow {
    Workflow(Whole(1), "wf", "go", Whole(limit), Some([
      RawStep(STEP, "maker", if checked then Some("boss") else None, if checked then Whole(1) else Missing,
              "act", Whole(5), Some([]))]))
  }

  function Firm(risk: Risk): Company {
    Company(map["act" := risk], {"maker", "boss"})
  }

  lemma PlanIsValid(risk: Risk, checked: bool, limit: nat)
    requires (checked ==> risk.Green?) && 1 <= limit <= 100
    ensures IsValid(Plan(checked, limit), Firm(risk))
  {
    var steps := Plan(checked, limit).steps.value;
    assert GraphOf(steps) == map[STEP := []];
    assert IsRank(GraphOf(steps), map[]);
    assert StepIsValid(steps[0], Ids(steps), Firm(risk));
    assert "go"[0] in "go";
  }

  function FirstStep(risk: Risk, checked: bool): Step {
    Step(Ready, 0, 0, "maker", if checked then Some("boss") else None, 0, if checked then 1 else 0, [], "act", risk, 5,
         [], "", NoToken, 0, 0, NotHeld, "", "")
  }

  /** Where a one-step run stands: the request ids used so far, its step, its bill, ceiling and messages,
      and the most cycles it may use. */
  datatype Scene = Scene(
    rids: seq<string>, step: Step, spend: nat, ceiling: int, messages: seq<Message>, limit: nat := 100)

  function View(s: Scene): Row {
    Row(|s.rids|, RunCreated, "", "", "", 0, RUN, REVISION, s.limit,
        if s.rids == [] then 0 else |s.rids| - 1, Active, 0,
        s.spend, s.ceiling, s.messages, map[STEP := s.step])
  }

  predicate SameRun(a: Row, b: Row) {
    && a.number == b.number && a.runId == b.runId && a.revision == b.revision && a.maxCycles == b.maxCycles
    && a.cycleCount == b.cycleCount && a.status == b.status && a.spend == b.spend && a.ceiling == b.ceiling
    && a.messages == b.messages && a.steps == b.steps
  }

  predicate Stands(log: Log, s: Scene) {
    && log != [] && |log| == |s.rids| && (forall k | 0 <= k < |log| :: log[k].requestId == s.rids[k])
    && SameRun(Last(log), View(s))
  }

  /** A new run, its planning billed at one micro-dollar. */
  lemma Begins(risk: Risk, checked: bool, rid: string, limit: nat := 100) returns (log: Log)
    requires (checked ==> risk.Green?) && 1 <= limit <= 100
    ensures |log| == 1 && IsNewRun(log[0]) && Reached(log)
    ensures Stands(log, Scene([rid], FirstStep(risk, checked), 1, 0, [], limit))
  {
    PlanIsValid(risk, checked, limit);
    var e := Env(0, 0, map[], 0);
    var row := NewRun(Plan(checked, limit), Firm(risk), RUN, REVISION, rid, "boss", 1, e);
    NewStepsAre(Plan(checked, limit).steps.value, Firm(risk));
    assert row.steps == map[STEP := FirstStep(risk, checked)];
    log := [row];
    assert Arises(log);
  }

  lemma StandsStep(log: Log, s: Scene)
    requires Stands(log, s)
    ensures log != [] && STEP in Last(log).steps && Last(log).steps[STEP] == s.step
  {
  }

  lemma NewIdIsFree(log: Log, s: Scene, rid: string)
    requires Stands(log, s) && rid !in s.rids
    ensures Prior(log, rid).None?
  {
    forall row | row in log ensures row.requestId != rid {
      var k :| 0 <= k < |log| && log[k] == row;
      assert s.rids[k] in s.rids;
    }
  }

  /** A verb sees no more of a row than a scene shows. */
  lemma SameEffect(v: Verb, step: Step, a: Row, b: Row, e: Env)
    requires SameRun(a, b) && EvidencePresent(v, e)
    ensures VerbEffect(v, STEP, step, a, e) == VerbEffect(v, STEP, step, b, e)
  {
  }

  /** An accepted verb under a new id takes one scene to another, and leaves the run open. */
  predicate Leads(s: Scene, rid: string, v: Verb, e: Env, t: Scene) {
    && rid !in s.rids && EvidencePresent(v, e) && (v.Complete? ==> v.revision == REVISION)
    && var outcome := VerbEffect(v, STEP, s.step, View(s), e);
    && outcome.Ok? && outcome.value.status == Active && outcome.value.step.status != Completed
    && t == Scene(s.rids + [rid], Charged(outcome.value), s.spend + outcome.value.charge, outcome.value.ceiling,
                  s.messages, s.limit)
  }

  lemma Plays(log: Log, s: Scene, rid: string, v: Verb, e: Env, t: Scene) returns (row: Row)
    requires Stands(log, s) && |log| <= s.limit && Leads(s, rid, v, e, t)
    ensures NextRow(log, Ask(rid, OnStep(STEP, v), e)) == Some(row) && Stands(log + [row], t)
    ensures row.event == EventOf(OnStep(STEP, v)) && row.target == STEP && row.ts == e.now
  {
    hide VerbEffect, EvidencePresent, Prior;
    NewIdIsFree(log, s, rid);
    var was := Last(log);
    assert was.steps[STEP] == s.step;
    SameEffect(v, s.step, was, View(s), e);
    var f := VerbEffect(v, STEP, s.step, was, e).value;
    row := Stamped(Commit(was, STEP, f), rid, OnStep(STEP, v), e);
    assert row.steps == map[STEP := Charged(f)];
  }

  /** The log, one row on. */
  predicate Adds(log: Log, more: Log, v: Verb, e: Env) {
    && |more| == |log| + 1 && more[..|log|] == log && Last(more).event == EventOf(OnStep(STEP, v))
    && Last(more).target == STEP && Last(more).ts == e.now
  }

  lemma Goes(log: Log, s: Scene, rid: string, v: Verb, e: Env, t: Scene) returns (more: Log)
    requires Reached(log) && Stands(log, s) && |log| <= s.limit && Leads(s, rid, v, e, t)
    ensures Reached(more) && Stands(more, t) && Adds(log, more, v, e)
  {
    hide Reached, NextRow, Leads;
    var row := Plays(log, s, rid, v, e, t);
    ReachedGrows(log, Ask(rid, OnStep(STEP, v), e));
    more := log + [row];
  }

  /** Request ids told apart by their lengths. */
  function Tag(n: nat): (rid: string)
    ensures |rid| == n
  {
    seq(n, _ => 'r')
  }

  // --- the holder of an expired claim -------------------------------------------------------

  function Now(now: int): Env {
    Env(now, 60, map["work" := "sha"], 1)
  }

  function InHand(step: Step, number: nat, now: int): Step {
    step.(status := InProgress, attempts := step.attempts + 1, holder := "maker", token := Minted(RUN, number),
          expiresAt := now + 60)
  }

  lemma ClaimLeads(s: Scene, rid: string, now: int)
    requires s.step.status == Ready && s.step.owner == "maker" && s.step.risk.Green?
    requires s.step.attempts < s.step.maxAttempts
    requires rid !in s.rids
    ensures Leads(s, rid, Request("maker", None), Now(now),
                  s.(rids := s.rids + [rid], step := InHand(s.step, |s.rids| + 1, now)))
  {
  }

  lemma ExpiryLeads(s: Scene, rid: string, now: int)
    requires s.step.holder != "" && s.step.status != Completed && rid !in s.rids
    ensures Leads(s, rid, Expire("boss"), Now(now), s.(rids := s.rids + [rid], step := s.step.(expiresAt := now)))
  {
  }

  const GREEN := FirstStep(Green, false)

  /** A green step, claimed by its owner. */
  lemma ClaimedRun(checked: bool) returns (log: Log)
    ensures Reached(log) && |log| == 2 && log[1].event == StepRequested && TokenAt(log[1], STEP) == Minted(RUN, 2)
    ensures Stands(log, Scene([Tag(1), Tag(2)], InHand(FirstStep(Green, checked), 2, 0), 1, 0, []))
  {
    hide Leads, Reached, Stands, IsNewRun;
    var s := Scene([Tag(1)], FirstStep(Green, checked), 1, 0, []);
    log := Begins(Green, checked, Tag(1));
    SecondTag();
    ClaimLeads(s, Tag(2), 0);
    hide InHand, FirstStep, TokenAt;
    log := Goes(log, s, Tag(2), Request("maker", None), Now(0), ClaimedScene(checked));
    ClaimedToken(log, checked);
  }

  function ClaimedScene(checked: bool): Scene {
    Scene([Tag(1), Tag(2)], InHand(FirstStep(Green, checked), 2, 0), 1, 0, [])
  }

  lemma SecondTag()
    ensures [Tag(1)] + [Tag(2)] == [Tag(1), Tag(2)] && Tag(2) !in [Tag(1)]
  {
  }

  lemma ClaimedToken(log: Log, checked: bool)
    requires Stands(log, ClaimedScene(checked))
    ensures log != [] && TokenAt(Last(log), STEP) == Minted(RUN, 2)
  {
    StandsStep(log, ClaimedScene(checked));
  }

  /** A claim an operator has expired. */
  lemma ExpiredClaim() returns (log: Log)
    ensures Reached(log) && |log| == 3 && log[1].event == StepRequested && log[2].event == ClaimExpired
    ensures log[2].ts == 5
    ensures TokenAt(log[1], STEP) == Minted(RUN, 2)
    ensures Stands(log, Scene([Tag(1), Tag(2), Tag(3)], InHand(GREEN, 2, 0).(expiresAt := 5), 1, 0, []))
  {
    var s := Scene([Tag(1), Tag(2)], InHand(GREEN, 2, 0), 1, 0, []);
    ExpiryLeads(s, Tag(3), 5);
    hide Leads, Reached, Stands, InHand, FirstStep, TokenAt;
    var claimed := ClaimedRun(false);
    log := Goes(claimed, s, Tag(3), Expire("boss"), Now(5),
                Scene([Tag(1), Tag(2), Tag(3)], InHand(GREEN, 2, 0).(expiresAt := 5), 1, 0, []));
    assert log[1] == log[..2][1] == claimed[1];
  }

  /** An operator expires a claim; its holder hands the work in all the same, and so could a caller who
      shows no token at all. */
  lemma ExpiredHolderFinishes() returns (log: Log, t: Token)
    ensures Reached(log) && |log| == 3 && log[1].event == StepRequested && log[2].event == ClaimExpired
    ensures t.Minted? && TokenAt(log[1], STEP) == t && STEP in log[2].steps
    ensures !ClaimIsLive(log[2].steps[STEP], log[2].ts)
    ensures Mutate(log, Tag(4), OnStep(STEP, Complete("maker", REVISION, Some(t), "work", 0)), Now(9)).Applied?
    ensures Mutate(log, Tag(4), OnStep(STEP, Complete("maker", REVISION, None, "work", 0)), Now(9)).Applied?
  {
    hide Reached, Mutate, TokenAt, Prior;
    log := ExpiredClaim();
    t := Minted(RUN, 2);
    NewIdIsFree(log, Scene([Tag(1), Tag(2), Tag(3)], InHand(GREEN, 2, 0).(expiresAt := 5), 1, 0, []), Tag(4));
    assert Last(log).steps[STEP] == InHand(GREEN, 2, 0).(expiresAt := 5);
    HandBackIsAccepted(log, Tag(4), STEP, Complete("maker", REVISION, Some(t), "work", 0), Now(9));
    HandBackIsAccepted(log, Tag(4), STEP, Complete("maker", REVISION, None, "work", 0), Now(9));
  }

  // --- two budget stops ---------------------------------------------------------------------

  predicate IsTagged(s: Scene) {
    forall rid | rid in s.rids :: |rid| <= |s.rids|
  }

  lemma TagIsNew(s: Scene)
    requires IsTagged(s)
    ensures Tag(|s.rids| + 1) !in s.rids
  {
  }

  /** The green step waits to be claimed, with an attempt left. */
  predicate IsIdle(s: Scene) {
    && s.step.status == Ready && s.step.owner == "maker" && s.step.risk.Green? && s.step.held == NotHeld
    && s.step.attempts < s.step.maxAttempts && IsTagged(s)
  }

  lemma GoesDriven(log: Log, s: Scene, v: Verb, e: Env, t: Scene) returns (more: Log)
    requires DrivenAt(log, 1) && Stands(log, s) && |log| <= s.limit && Leads(s, Tag(|s.rids| + 1), v, e, t)
    requires IsTagged(s)
    requires e.baseCeiling == 1 && (v.Hold? && v.kind.OverBudget? ==> s.spend >= 1)
    ensures DrivenAt(more, 1) && Stands(more, t) && Adds(log, more, v, e) && IsTagged(t)
  {
    hide PricedAt, NextRow, VerbEffect;
    var rid := Tag(|s.rids| + 1);
    TagIsNew(s);
    var row := Plays(log, s, rid, v, e, t);
    PricedGrows(log, Ask(rid, OnStep(STEP, v), e), 1, true);
    more := log + [row];
  }

  function Parked(step: Step): Step {
    ReleaseClaim(step).(status := AwaitingApproval, held := Budget("work", "sha"))
  }

  lemma ParkLeads(s: Scene, rid: string)
    requires s.step.status == InProgress && s.step.owner == "maker" && rid !in s.rids
    ensures Leads(s, rid, Hold("maker", None, "work", OverBudget, 0), Now(0),
                  s.(rids := s.rids + [rid], step := Parked(s.step)))
  {
  }

  lemma ApprovalLeads(s: Scene, rid: string)
    requires s.step.status == AwaitingApproval && s.step.held.Budget? && rid !in s.rids
    ensures Leads(s, rid, Approve("boss", "ok"), Now(0),
      Scene(s.rids + [rid],
            ReleaseClaim(s.step).(status := Ready, held := NotHeld, approver := "boss", approvalRef := "ok"),
            s.spend, s.spend + (if s.ceiling != 0 then s.ceiling else 1), s.messages, s.limit))
  {
    assert "ok"[0] in "ok";
  }

  lemma FailureLeads(s: Scene, rid: string, bill: nat)
    requires s.step.status == InProgress && s.step.owner == "maker" && s.step.attempts < s.step.maxAttempts
    requires rid !in s.rids
    ensures Leads(s, rid, Fail("maker", None, bill), Now(0),
      Scene(s.rids + [rid], ReleaseClaim(s.step).(status := Ready, spend := s.step.spend + bill), s.spend + bill,
            s.ceiling, s.messages, s.limit))
  {
  }

  function ParkedScene(s: Scene): Scene {
    s.(rids := s.rids + [Tag(|s.rids| + 1), Tag(|s.rids| + 2)], step := Parked(InHand(s.step, |s.rids| + 1, 0)))
  }

  function BoughtScene(s: Scene): Scene {
    Scene(s.rids + [Tag(|s.rids| + 1), Tag(|s.rids| + 2), Tag(|s.rids| + 3)],
          s.step.(attempts := s.step.attempts + 1, approver := "boss", approvalRef := "ok", holder := "",
                  token := NoToken,
                  expiresAt := 0),
          s.spend, s.spend + (if s.ceiling != 0 then s.ceiling else 1), s.messages)
  }

  lemma StopParks(log: Log, s: Scene) returns (more: Log)
    requires DrivenAt(log, 1) && Stands(log, s) && |log| <= 90 && s.limit == 100 && IsIdle(s) && s.ceiling >= 0
    requires OverCeiling(View(s), 1)
    ensures DrivenAt(more, 1) && Stands(more, ParkedScene(s)) && IsTagged(ParkedScene(s))
    ensures |more| == |log| + 2 && more[..|log|] == log && Resumed(more) == Resumed(log)
  {
    hide DrivenAt, Stands, Leads, IsTagged;
    var s1 := s.(rids := s.rids + [Tag(|s.rids| + 1)], step := InHand(s.step, |s.rids| + 1, 0));
    TagIsNew(s);
    ClaimLeads(s, Tag(|s.rids| + 1), 0);
    var log1 := GoesDriven(log, s, Request("maker", None), Now(0), s1);
    TagIsNew(s1);
    ParkLeads(s1, Tag(|s1.rids| + 1));
    assert s1.rids + [Tag(|s1.rids| + 1)] == ParkedScene(s).rids;
    more := GoesDriven(log1, s1, Hold("maker", None, "work", OverBudget, 0), Now(0), ParkedScene(s));
    assert more[..|log|] == more[..|log1|][..|log|];
    assert Front(more) == log1 && Front(log1) == log;
    assert Resumed(log1) == Resumed(log);
  }

  /** Once the bill has reached the ceiling the driver parks its step and a person approves. */
  lemma BudgetStop(log: Log, s: Scene) returns (more: Log)
    requires DrivenAt(log, 1) && Stands(log, s) && |log| <= 90 && s.limit == 100 && IsIdle(s) && s.ceiling >= 0
    requires OverCeiling(View(s), 1)
    ensures DrivenAt(more, 1) && Stands(more, BoughtScene(s)) && IsTagged(BoughtScene(s))
    ensures |more| == |log| + 3 && more[..|log|] == log
    ensures IsResume(more[|log| + 1], more[|log| + 2]) && Resumed(more) == Resumed(log) + 1
  {
    hide DrivenAt, Stands, Leads, IsTagged;
    var log2 := StopParks(log, s);
    var s2 := ParkedScene(s);
    TagIsNew(s2);
    ApprovalLeads(s2, Tag(|s2.rids| + 1));
    assert s2.rids + [Tag(|s2.rids| + 1)] == BoughtScene(s).rids;
    more := GoesDriven(log2, s2, Approve("boss", "ok"), Now(0), BoughtScene(s));
    StandsStep(log2, s2);
    assert more[..|log|] == more[..|log2|][..|log|];
    assert Front(more) == log2 && more[|log| + 1] == Last(log2);
  }

  function SpentScene(s: Scene): Scene {
    Scene(s.rids + [Tag(|s.rids| + 1), Tag(|s.rids| + 2)],
          ReleaseClaim(InHand(s.step, |s.rids| + 1, 0)).(status := Ready, spend := s.step.spend + 1), s.spend + 1,
          s.ceiling, s.messages)
  }

  /** A dispatch that fails costs an attempt and one micro-dollar. */
  lemma DispatchFails(log: Log, s: Scene) returns (more: Log)
    requires DrivenAt(log, 1) && Stands(log, s) && |log| <= 90 && s.limit == 100 && IsIdle(s)
    requires s.step.attempts + 1 < s.step.maxAttempts
    ensures DrivenAt(more, 1) && Stands(more, SpentScene(s)) && IsTagged(SpentScene(s))
    ensures |more| == |log| + 2 && more[..|log|] == log && Resumed(more) == Resumed(log)
  {
    hide DrivenAt, Stands, Leads, IsTagged;
    var s1 := s.(rids := s.rids + [Tag(|s.rids| + 1)], step := InHand(s.step, |s.rids| + 1, 0));
    TagIsNew(s);
    ClaimLeads(s, Tag(|s.rids| + 1), 0);
    var log1 := GoesDriven(log, s, Request("maker", None), Now(0), s1);
    TagIsNew(s1);
    FailureLeads(s1, Tag(|s1.rids| + 1), 1);
    assert s1.rids + [Tag(|s1.rids| + 1)] == SpentScene(s).rids;
    more := GoesDriven(log1, s1, Fail("maker", None, 1), Now(0), SpentScene(s));
    assert more[..|log|] == more[..|log1|][..|log|];
    assert Front(more) == log1 && Front(log1) == log;
    assert Resumed(log1) == Resumed(log);
  }

  /** With a base ceiling of one micro-dollar the first approval buys one and the second buys two. */
  lemma SecondApprovalBuysMore() returns (log: Log)
    ensures DrivenAt(log, 1) && |log| == 9 && Resumed(log) == 2
    ensures IsResume(log[2], log[3]) && log[3].ceiling == log[3].spend + 1
    ensures IsResume(log[7], log[8]) && log[8].ceiling == log[8].spend + 2
  {
    hide IsNewRun, IsTagged, IsResume, Stands;
    var s := Scene([Tag(1)], GREEN, 1, 0, []);
    var log0 := Begins(Green, false, Tag(1));
    assert ArisesAt(log0, 1, true) && PricedAt(log0, 1, true);
    assert IsTagged(s) by { TagFits(); }
    hide DrivenAt;
    var log3 := BudgetStop(log0, s);
    StandsBill(log3, BoughtScene(s));
    var log5 := DispatchFails(log3, BoughtScene(s));
    log := BudgetStop(log5, SpentScene(BoughtScene(s)));
    StandsBill(log, BoughtScene(SpentScene(BoughtScene(s))));
    assert log[..4] == log[..6][..4] && log3 == log5[..4];
    assert log[2] == log3[2] && log[3] == log3[3];
  }

  lemma TagFits()
    ensures IsTagged(Scene([Tag(1)], GREEN, 1, 0, []))
  {
  }

  lemma StandsBill(log: Log, s: Scene)
    requires Stands(log, s)
    ensures log != [] && Last(log).spend == s.spend && Last(log).ceiling == s.ceiling && |log| == |s.rids|
  {
  }

  // --- a yellow step's second claim ---------------------------------------------------------

  const YELLOW := FirstStep(Yellow, false)

  lemma TagIsNoName(n: nat)
    requires n > 0
    ensures !("exec-" <= Tag(n)) && !IsMoveName(Tag(n))
    ensures forall a: nat, r: nat, verb :: Name(STEP, a, r, verb) != Tag(n)
  {
    assert Tag(n)[0] == 'r' && "exec-"[0] == 'e';
    OtherIdsAreNoMoves(Tag(n));
    forall a: nat, r: nat, verb ensures Name(STEP, a, r, verb) != Tag(n) {
      NameStart(STEP, a, r, verb);
    }
  }

  lemma GoesNamed(log: Log, s: Scene, rid: string, v: Verb, t: Scene) returns (more: Log)
    requires UnderNames(log) && Stands(log, s) && |log| <= s.limit && Leads(s, rid, v, Now(0), t)
    requires IsNamed(Last(log), Ask(rid, OnStep(STEP, v), Now(0)))
    ensures UnderNames(more) && Stands(more, t) && Adds(log, more, v, Now(0))
  {
    hide UnderNames, NextRow, Leads, IsNamed;
    var row := Plays(log, s, rid, v, Now(0), t);
    NamesGrow(log, Ask(rid, OnStep(STEP, v), Now(0)));
    more := log + [row];
  }

  /** A move of the only step, under its name; the step stands at no attempts and no releases. */
  lemma MoveGoes(log: Log, s: Scene, m: Move, v: Verb, t: Scene) returns (more: Log)
    requires UnderNames(log) && Stands(log, s) && |log| <= s.limit && s.step.attempts == 0 && s.step.releases == 0
    requires MoveOf(v) == Some(m) && Leads(s, Name(STEP, 0, 0, VerbName(m)), v, Now(0), t)
    ensures UnderNames(more) && Stands(more, t) && Adds(log, more, v, Now(0))
  {
    hide UnderNames, Leads, IsNamed, Name, AllOfKind;
    StandsStep(log, s);
    SuitedIsNamed(Last(log), STEP, VerbName(m), OnStep(STEP, v), Now(0));
    more := GoesNamed(log, s, Name(STEP, 0, 0, VerbName(m)), v, t);
  }

  const CLAIM := Name(STEP, 0, 0, "claim")
  const FAIL := Name(STEP, 0, 0, "fail")

  lemma ClaimAndFailDiffer()
    ensures CLAIM != FAIL
  {
  }

  lemma AskedLeads(s: Scene, rid: string)
    requires s.step == YELLOW && rid !in s.rids
    ensures Leads(s, rid, Request("maker", None), Now(0),
                  s.(rids := s.rids + [rid], step := YELLOW.(status := AwaitingApproval)))
  {
  }

  lemma AgreedLeads(s: Scene, rid: string)
    requires s.step == YELLOW.(status := AwaitingApproval) && rid !in s.rids
    ensures Leads(s, rid, Approve("boss", "ok"), Now(0),
                  s.(rids := s.rids + [rid],
                     step := YELLOW.(status := InProgress, approver := "boss", approvalRef := "ok")))
  {
    assert "ok"[0] in "ok";
  }

  function Agreed(): Scene {
    Scene([Tag(1), CLAIM, Tag(3)], YELLOW.(status := InProgress, approver := "boss", approvalRef := "ok"), 1, 0, [])
  }

  function Failed(): Scene {
    Scene([Tag(1), CLAIM, Tag(3), FAIL], YELLOW.(approver := "boss", approvalRef := "ok"), 1, 0, [])
  }

  /** A yellow step is claimed and approved. */
  lemma YellowIsAgreed() returns (log: Log)
    ensures UnderNames(log) && Stands(log, Agreed())
    ensures |log| == 3 && log[1].event == StepRequested && log[1].target == STEP && log[2].event == StepApproved
  {
    hide UnderNames, IsNewRun, Reached, Leads, Stands, Name, IsNamed, IsMoveName;
    var s0 := Scene([Tag(1)], YELLOW, 1, 0, []);
    var s1 := Scene([Tag(1), CLAIM], YELLOW.(status := AwaitingApproval), 1, 0, []);
    TagIsNoName(1);
    TagIsNoName(3);
    assert s0.rids + [CLAIM] == s1.rids && s1.rids + [Tag(3)] == Agreed().rids;
    AskedLeads(s0, CLAIM);
    AgreedLeads(s1, Tag(3));
    var log0 := Begins(Yellow, false, Tag(1));
    StartsNamed(log0, Tag(1));
    var log1 := MoveGoes(log0, s0, Claims, Request("maker", None), s1);
    OthersAreNamed(Last(log1), Tag(3), Approve("boss", "ok"));
    log := GoesNamed(log1, s1, Tag(3), Approve("boss", "ok"), Agreed());
    assert log[1] == log[..2][1];
  }

  /** Then the agent fails. */
  lemma YellowFails() returns (log: Log)
    ensures UnderNames(log) && Stands(log, Failed()) && |log| == 4
    ensures log[1].event == StepRequested && log[1].target == STEP && log[2].event == StepApproved
    ensures log[3].event == StepFailed
  {
    hide UnderNames, Leads, Stands, Name;
    TagIsNoName(1);
    TagIsNoName(3);
    ClaimAndFailDiffer();
    assert Agreed().rids + [FAIL] == Failed().rids;
    FailureLeads(Agreed(), FAIL, 0);
    var agreed := YellowIsAgreed();
    log := MoveGoes(agreed, Agreed(), Fails, Fail("maker", None, 0), Failed());
    assert log[1] == log[..3][1] && log[2] == log[..3][2];
  }

  lemma StartsNamed(log: Log, rid: string)
    requires |log| == 1 && Reached(log) && Stands(log, Scene([rid], YELLOW, 1, 0, [])) && !("exec-" <= rid)
    ensures UnderNames(log)
  {
    hide Reached;
    NewRunIsNamed(log);
  }

  lemma OthersAreNamed(row: Row, rid: string, v: Verb)
    requires !IsMoveName(rid) && MoveOf(v).None?
    ensures IsNamed(row, Ask(rid, OnStep(STEP, v), Now(0)))
  {
    hide IsMoveName;
  }

  /** The step is ready again, and the driver's next claim of it is swallowed as a replay of its first. That
      is all the work there is, so every pass from here on leaves the run as it is. */
  lemma SecondYellowClaimIsSwallowed() returns (log: Log)
    ensures UnderNames(log) && IsUngreen(Last(log), STEP) && Last(log).steps[STEP].status == Ready
    ensures Mutate(log, NameAt(Last(log), STEP, Claims), OnStep(STEP, Request("maker", None)), Now(0)).Replayed?
    ensures IsStuck(log)
  {
    hide UnderNames, Mutate, NameAt, Name, Prior;
    log := YellowFails();
    StandsStep(log, Failed());
    assert IsMove(log[1], STEP, Claims) && NoReleaseIn(log, 1, |log| - 1, STEP);
    YellowReclaim(log, STEP, None, Now(0));
    SwallowedIsStuck(log);
  }

  lemma SwallowedIsStuck(log: Log)
    requires Stands(log, Failed())
    requires STEP in Last(log).steps
    requires Mutate(log, NameAt(Last(log), STEP, Claims), OnStep(STEP, Request("maker", None)), Now(0)).Replayed?
    ensures IsStuck(log)
  {
    hide Mutate, Name, Prior;
    assert NameNow(log, STEP, "claim") == NameAt(Last(log), STEP, Claims);
    ReplayMeans(log, NameAt(Last(log), STEP, Claims), OnStep(STEP, Request("maker", None)), Now(0));
    assert Last(log).steps == map[STEP := Failed().step];
    assert Stalls(log, Last(log), STEP) && IsWork(Last(log).steps[STEP]);
  }

  // --- a review that was filed and not recorded ---------------------------------------------

  const CHECKED := FirstStep(Green, true)

  function HandedIn(): Scene {
    Scene([Tag(1), Tag(2), Tag(3)],
          CHECKED.(status := AwaitingCheck, attempts := 1, submissions := [Submission("work", "sha", "maker")]),
          1, 0, [])
  }

  lemma HandInLeads(s: Scene, rid: string)
    requires s.step.status == InProgress && s.step.owner == "maker" && s.step.checker.Some? && rid !in s.rids
    ensures Leads(s, rid, Complete("maker", REVISION, None, "work", 0), Now(0), s.(rids := s.rids + [rid],
      step := ReleaseClaim(s.step).(status := AwaitingCheck,
                                    submissions := s.step.submissions + [Submission("work", "sha", "maker")])))
  {
  }

  lemma AwaitingRun() returns (log: Log)
    ensures Reached(log) && Stands(log, HandedIn()) && |log| == 3
  {
    hide Reached, Leads, Stands;
    var s := Scene([Tag(1), Tag(2)], InHand(CHECKED, 2, 0), 1, 0, []);
    HandInLeads(s, Tag(3));
    assert s.rids + [Tag(3)] == HandedIn().rids;
    assert [] + [Submission("work", "sha", "maker")] == [Submission("work", "sha", "maker")];
    log := ClaimedRun(true);
    log := Goes(log, s, Tag(3), Complete("maker", REVISION, None, "work", 0), Now(0), HandedIn());
  }

  /** The checker's verdict on the step, under a random message id. */
  function VerdictNote(random: string): Command {
    Send(ReviewId(STEP, random), STEP, "boss", "maker", Feedback, "work", None)
  }

  lemma VerdictIsWelcome(random: string, row: Row)
    requires |random| == 8 && (forall c | c in random :: IsDigit(c))
    requires row.messages == [] && row.steps == map[STEP := HandedIn().step]
    ensures Precheck(VerdictNote(random), Now(0)).None? && SendChange(VerdictNote(random), row, Now(0)).Ok?
    ensures SendChange(VerdictNote(random), row, Now(0)).value.steps == row.steps
  {
    LongStepsCannotBeReviewed(STEP, random);
    assert {"boss", "maker"} <= Parties(row.steps[STEP]);
  }

  /** The verdict is filed, under its name; the driver dies before it records it. */
  lemma FiledRun() returns (log: Log)
    ensures Reached(log) && |log| == 4 && log[3].event == MessageSent && AwaitsCheck(Last(log), STEP)
    ensures log[3].requestId == VerdictName(log[3], STEP) && log[3].target == ReviewId(STEP, "00000000")
  {
    hide Reached, Name, SendChange;
    var log2 := AwaitingRun();
    var rid := VerdictName(Last(log2), STEP);
    NameIsFree(log2, rid);
    VerdictIsWelcome("00000000", Last(log2));
    var a := Ask(rid, VerdictNote("00000000"), Now(0));
    assert NextRow(log2, a).Some?;
    ReachedGrows(log2, a);
    log := log2 + [NextRow(log2, a).value];
  }

  lemma NameIsFree(log: Log, rid: string)
    requires Stands(log, HandedIn()) && rid == Name(STEP, 1, 0, "verdict-message")
    ensures Prior(log, rid).None?
  {
    hide Name;
    TagIsNoName(1);
    TagIsNoName(2);
    TagIsNoName(3);
    NewIdIsFree(log, HandedIn(), rid);
  }

  /** Driven again, the same checker's next verdict carries the old name and another id: it is refused,
      and the step is left awaiting a check that the driver cannot file. */
  lemma FiledVerdictBlocksTheNext(random: string) returns (log: Log)
    requires |random| == 8 && (forall c | c in random :: IsDigit(c)) && random != "00000000"
    ensures Reached(log) && AwaitsCheck(Last(log), STEP) && Precheck(VerdictNote(random), Now(0)).None?
    ensures Mutate(log, NameNow(log, STEP, "verdict-message"), VerdictNote(random), Now(0)) == Refused(RequestReused)
  {
    hide Reached, Mutate, Name;
    log := FiledRun();
    LongStepsCannotBeReviewed(STEP, random);
    assert ReviewId(STEP, random)[7..] == random && ReviewId(STEP, "00000000")[7..] == "00000000";
    FiledReviewStaysStranded(log, 3, STEP, 3, VerdictNote(random), Now(0));
  }

  // --- a request that hit the cycle ceiling -------------------------------------------------

  const DONE: Command := OnStep(STEP, Complete("maker", REVISION, None, "work", 0))

  function OneCycle(): Scene {
    Scene([Tag(1), CLAIM], InHand(GREEN, 2, 0), 1, 0, [], 1)
  }

  /** A run of one cycle, spent on the claim. */
  lemma CycleIsSpent() returns (log: Log)
    ensures Reached(log) && Stands(log, OneCycle()) && |log| == 2 && log[1].event == StepRequested
  {
    hide Leads, Reached, Stands, IsNewRun, Name;
    var s := Scene([Tag(1)], GREEN, 1, 0, [], 1);
    TagIsNoName(1);
    assert s.rids + [CLAIM] == OneCycle().rids;
    ClaimLeads(s, CLAIM, 0);
    log := Begins(Green, false, Tag(1), 1);
    log := Goes(log, s, CLAIM, Request("maker", None), Now(0), OneCycle());
  }

  /** The names of the step in hand are those of its first attempt. */
  const FINISH := Name(STEP, 1, 0, "complete")

  lemma FinishIsFree(log: Log)
    requires Stands(log, OneCycle())
    ensures Prior(log, FINISH).None?
  {
    assert |FINISH| != |CLAIM|;
    TagIsNoName(1);
    NewIdIsFree(log, OneCycle(), FINISH);
  }

  lemma FinishHitsCeiling(log: Log) returns (row: Row)
    requires Stands(log, OneCycle())
    ensures Mutate(log, FINISH, DONE, Now(0)) == AtCeiling(row) && row.requestId == FINISH
    ensures row.event == CycleLimitHit && row.status == RunBlockedCycleLimit && row.maxCycles == 1
    ensures row.steps == map[STEP := InHand(GREEN, 2, 0)]
  {
    FinishIsFree(log);
    hide Change, Prior, Name;
    row := CeilingRow(Last(log), FINISH, Now(0));
  }

  lemma MoreCycles(log: Log) returns (row: Row)
    requires log != [] && Last(log).status == RunBlockedCycleLimit && Last(log).maxCycles == 1
    requires Prior(log, Tag(4)).None?
    ensures NextRow(log, Extend(Tag(4), "boss", 5, Now(0))) == Some(row)
    ensures row.event == BudgetExtended && row.status == Active && row.steps == Last(log).steps
  {
    assert "boss"[0] in "boss";
    row := Extension(Last(log), Tag(4), "boss", 5, Now(0)).row;
  }

  /** The completion that hit the ceiling is asked again after an extension, under its own name: its id
      stands on the ceiling's row, so it is refused, and nothing else is wrong with it. */
  lemma CeilingRequestIsRefused() returns (log: Log)
    ensures Reached(log) && |log| == 4 && log[1].event == StepRequested && log[2].event == CycleLimitHit
    ensures log[3].event == BudgetExtended && Last(log).status == Active && STEP in Last(log).steps
    ensures Mutate(log[..2], NameAt(Last(log), STEP, Completes), DONE, Now(0)).AtCeiling?
    ensures Mutate(log, NameAt(Last(log), STEP, Completes), DONE, Now(0)) == Refused(RequestReused)
  {
    hide Reached, Stands, Mutate, Prior, Name;
    var log2 := CycleIsSpent();
    var hit := FinishHitsCeiling(log2);
    var a := Ask(FINISH, DONE, Now(0));
    assert NextRow(log2, a) == Some(hit);
    ReachedGrows(log2, a);
    var log3 := log2 + [hit];
    FourthTag(log2, log3);
    var more := MoreCycles(log3);
    ReachedGrows(log3, Extend(Tag(4), "boss", 5, Now(0)));
    log := log3 + [more];
    assert log[..2] == log2 && log[2] == hit;
    assert NextRow(log[..2], a) == Some(log[2]);
    ReissueChangesNothing(log, 2, a, Now(0));
  }

  lemma FourthTag(was: Log, log: Log)
    requires Stands(was, OneCycle()) && |log| == |was| + 1 && log[..|was|] == was && Last(log).requestId == FINISH
    ensures Prior(log, Tag(4)).None?
  {
    hide Name, Prior;
    TagIsNoName(4);
    forall row | row in log ensures row.requestId != Tag(4) {
      var k :| 0 <= k < |log| && log[k] == row;
      if k < |was| {
        assert log[k] == was[k] && was[k].requestId == OneCycle().rids[k];
      }
    }
  }
}
