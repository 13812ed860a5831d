/** Who gets through the door: exactly when a new request to a run at work is carried out, and that the plan
    a run was created from is the plan it keeps. */
module RunDoor {
  import opened Outcomes
  import opened Workflows
  import opened RunModel
  import opened RunInvariants
  import opened RunReplay
  import opened RunReview
  import opened Approvals

  // --- who may do what ----------------------------------------------------------------------

  /** The step is out, and this hand-back comes from its owner with the current claim, or without any. */
  predicate MayHandBack(step: Step, actor: string, token: Option<Token>) {
    step.status == InProgress && step.owner == actor && (token.Some? ==> token.value == step.token)
  }

  predicate IsHeldLive(step: Step, who: string, now: int) {
    step.holder == who && who != "" && step.expiresAt > now
  }

  predicate WorksOn(step: Step, who: string) {
    step.owner == who || step.checker == Some(who)
  }

  predicate IsNextTo(steps: Steps, a: StepId, b: StepId)
    requires a in steps && b in steps
  {
    b in steps[a].dependsOn || a in steps[b].dependsOn
  }

  /** Somebody who works on a step this one depends on, or on one that depends on it. */
  ghost predicate WorksNextTo(steps: Steps, about: StepId, who: string)
    requires about in steps
  {
    exists id :: id in steps && IsNextTo(steps, about, id) && WorksOn(steps[id], who)
  }

  predicate IsUnchanged(file: string, sha: string, e: Env) {
    file in e.disk && e.disk[file] == sha
  }

  /** The step's checker may rule on what was handed in last, with a message of this kind to its maker; neither
      file has changed. */
  ghost predicate MayRule(row: Row, id: StepId, actor: string, message: string, kind: MessageKind, e: Env)
    requires id in row.steps
  {
    var step := row.steps[id];
    && step.status == AwaitingCheck && step.checker == Some(actor) && step.submissions != []
    && IsUnchanged(Last(step.submissions).evidence, Last(step.submissions).sha, e)
    && exists m :: m in row.messages && m.id == message && m.step == id && m.sender == actor
         && m.receiver == step.owner && m.kind == kind && IsUnchanged(m.payload, m.sha, e)
  }

  /** Two people, one of whom at least works on the step, and if not both then one next to it; and a reply goes
      back to whoever wrote. */
  ghost predicate MayWrite(row: Row, c: Command)
    requires c.Send?
  {
    && (forall m | m in row.messages :: m.id != c.id)
    && c.about in row.steps && c.sender != c.receiver
    && var step := row.steps[c.about];
    && (|| (WorksOn(step, c.sender) && WorksOn(step, c.receiver))
        || ((WorksOn(step, c.sender) || WorksOn(step, c.receiver))
            && (WorksNextTo(row.steps, c.about, c.sender) || WorksNextTo(row.steps, c.about, c.receiver))))
    && (c.replyTo.Some? ==> exists m :: m in row.messages && m.id == c.replyTo.value && m.step == c.about
                              && m.sender == c.receiver && m.receiver == c.sender)
  }

  ghost predicate MayAct(row: Row, id: StepId, v: Verb, e: Env)
    requires id in row.steps
  {
    var step := row.steps[id];
    match v
    case Request(actor, _) => step.status == Ready && step.owner == actor
    case Approve(_, reference) => step.status == AwaitingApproval && !IsBlank(reference)
    case Reject(_, _) => step.status == AwaitingApproval
    case Take(actor, holder) =>
      && step.status == InProgress && step.owner == actor
      && (IsHeldLive(step, step.holder, e.now) ==> step.holder == holder)
    case Renew(who, token) => IsHeldLive(step, who, e.now) && (token.Some? ==> token.value == step.token)
    case Expire(_) => step.holder != ""
    case Hold(actor, token, evidence, _, _) => MayHandBack(step, actor, token) && evidence in e.disk
    case Complete(actor, revision, token, evidence, _) =>
      MayHandBack(step, actor, token) && evidence in e.disk && revision == row.revision
    case Fail(actor, token, _) => MayHandBack(step, actor, token)
    case Release(actor, token, _) => MayHandBack(step, actor, token)
    case CheckApprove(actor, message, _) => MayRule(row, id, actor, message, Decision, e)
    case CheckReturn(actor, message, _) => MayRule(row, id, actor, message, Feedback, e)
    case CheckReject(actor, message, _) => MayRule(row, id, actor, message, Feedback, e)
  }

  ghost predicate MayEnter(row: Row, c: Command, e: Env) {
    match c
    case OnStep(id, v) => id in row.steps && MayAct(row, id, v, e)
    case Send(id, _, _, _, _, payload, _) => IsSlug(id) && payload in e.disk && MayWrite(row, c)
    case Cancel(approver, reason) => !IsBlank(approver) && 1 <= |Strip(reason)| <= 200
  }

  /** A new request to a run at work is carried out exactly when it may be. */
  lemma DoorLaw(log: Log, rid: string, c: Command, e: Env)
    requires log != [] && Reached(log) && Last(log).status == Active && Last(log).cycleCount < Last(log).maxCycles
    requires forall row | row in log :: row.requestId != rid
    ensures Mutate(log, rid, c, e).Applied? <==> MayEnter(Last(log), c, e)
  {
    hide Reached, MayAct, MayWrite, MessagesOk, VerbEffect, SendChange, Commit, CancelChange, RowOk;
    match c
    case OnStep(id, v) =>
      if id in Last(log).steps {
        LastIsOk(log);
        StepIsOk(Last(log), id);
        MessagesAreSound(log);
        VerbLaw(Last(log), id, v, e);
      }
    case Send(_, _, _, _, _, _, _) =>
      MessagesAreSound(log);
      if c.payload in e.disk { SendLaw(Last(log), c, e); }
    case Cancel(_, _) =>
  }

  lemma VerbLaw(row: Row, id: StepId, v: Verb, e: Env)
    requires id in row.steps && StepOk(row.steps[id], row.runId, row.number) && MessagesOk(row.messages, row.steps)
    ensures MayAct(row, id, v, e) <==>
      && EvidencePresent(v, e) && (v.Complete? ==> v.revision == row.revision)
      && VerbEffect(v, id, row.steps[id], row, e).Ok?
  {
    hide IsBetweenNeighbours, AnswersEarlier, MayRule, CheckRefused;
    if v.CheckApprove? { RulingLaw(row, id, v.actor, v.message, Decision, e); }
    if v.CheckReturn? || v.CheckReject? { RulingLaw(row, id, v.actor, v.message, Feedback, e); }
  }

  lemma RulingLaw(row: Row, id: StepId, actor: string, message: string, kind: MessageKind, e: Env)
    requires id in row.steps && StepOk(row.steps[id], row.runId, row.number) && MessagesOk(row.messages, row.steps)
    ensures MayRule(row, id, actor, message, kind, e) <==>
      CheckRefused(row, id, row.steps[id], actor, message, kind, e).None?
  {
    hide IsBetweenNeighbours, AnswersEarlier, LimitsOk, CountersOk, ClaimOk;
    var found := FindMessage(row.messages, message);
    hide FindMessage;
    if found.Some? {
      OnlyOne(row.messages, row.steps, found.value);
    }
  }

  lemma OnlyOne(messages: seq<Message>, steps: Steps, m: Message)
    requires MessagesOk(messages, steps) && m in messages
    ensures forall other | other in messages && other.id == m.id :: other == m
  {
    hide IsBetweenNeighbours, AnswersEarlier;
  }

  lemma SendLaw(row: Row, c: Command, e: Env)
    requires c.Send? && c.payload in e.disk && MessagesOk(row.messages, row.steps)
    ensures MayWrite(row, c) <==> SendChange(c, row, e).Ok?
  {
    hide FindMessage;
    if c.about in row.steps {
      PartiesWork(row.steps, c.about, c.sender);
      PartiesWork(row.steps, c.about, c.receiver);
      PairIn(c.sender, c.receiver, Parties(row.steps[c.about]));
      PairIn(c.sender, c.receiver, Neighbours(row.steps, c.about));
    }
    hide Parties, Neighbours, WorksOn, WorksNextTo, MessagesOk;
    ReplyLaw(row.messages, row.steps, c);
  }

  lemma PairIn(a: string, b: string, who: set<string>)
    ensures {a, b} <= who <==> a in who && b in who
    ensures {a, b} * who != {} <==> a in who || b in who
  {
    if a in who { assert a in {a, b} * who; }
    if b in who { assert b in {a, b} * who; }
  }

  lemma PartiesWork(steps: Steps, about: StepId, who: string)
    requires about in steps
    ensures who in Parties(steps[about]) <==> WorksOn(steps[about], who)
    ensures who in Neighbours(steps, about) <==> WorksNextTo(steps, about, who)
  {
    if WorksNextTo(steps, about, who) {
      var id :| id in steps && IsNextTo(steps, about, id) && WorksOn(steps[id], who);
      assert who in Parties(steps[id]);
    }
  }

  lemma ReplyLaw(messages: seq<Message>, steps: Steps, c: Command)
    requires c.Send? && MessagesOk(messages, steps)
    ensures ReplyRefused(messages, c).None? <==>
      (c.replyTo.Some? ==> exists m :: m in messages && m.id == c.replyTo.value && m.step == c.about
                             && m.sender == c.receiver && m.receiver == c.sender)
  {
    hide FindMessage, MessagesOk;
    if c.replyTo.Some? && FindMessage(messages, c.replyTo.value).Some? {
      OnlyOne(messages, steps, FindMessage(messages, c.replyTo.value).value);
    }
  }

  // --- the plan -----------------------------------------------------------------------------

  /** The step has the people, the action, the limits and the dependencies of the plan, and the risk the policy
      gives its action. */
  predicate IsAsPlanned(step: Step, raw: RawStep, company: Company) {
    && step.owner == raw.owner && step.checker == raw.checker && step.action == raw.action
    && raw.action in company.policy && step.risk == company.policy[raw.action]
    && raw.maxAttempts == Whole(step.maxAttempts) && raw.dependsOn == Some(step.dependsOn)
    && (if raw.checker.Some? then raw.maxReviewCycles == Whole(step.maxReviewCycles) else step.maxReviewCycles == 0)
  }

  /** A run is its plan, and stays it: in every row it has exactly the plan's steps, each as planned; it begins
      with the plan's cycles and the cost of planning, and with exactly the steps ready that wait for none. */
  lemma PlanIsKept(log: Log, i: nat, w: Workflow, company: Company, rid: string, planned: int, e: Env)
    requires log != [] && Reached(log) && i < |log| && IsValid(w, company)
    requires log[0] == NewRun(w, company, log[0].runId, log[0].revision, rid, log[0].actor, planned, e)
    ensures forall id :: id in log[i].steps <==> exists raw :: raw in w.steps.value && raw.id == id
    ensures forall raw | raw in w.steps.value ::
      raw.id in log[i].steps && IsAsPlanned(log[i].steps[raw.id], raw, company)
    ensures forall id | id in log[0].steps ::
      log[0].steps[id].status == if log[0].steps[id].dependsOn == [] then Ready else Pending
    ensures w.maxCycles == Whole(log[0].maxCycles) && log[0].cycleCount == 0
    ensures log[0].planning == log[0].spend == if planned > 0 then planned else 0
    ensures log[i].runId == log[0].runId && log[i].revision == log[0].revision
  {
    hide *;
    RunIdIsFixed(log, 0, i);
    PlannedSteps(log, i, w, company, rid, planned, e);
    PlannedStart(log, w, company, rid, planned, e);
  }

  lemma PlannedSteps(log: Log, i: nat, w: Workflow, company: Company, rid: string, planned: int, e: Env)
    requires log != [] && Reached(log) && i < |log| && IsValid(w, company)
    requires log[0] == NewRun(w, company, log[0].runId, log[0].revision, rid, log[0].actor, planned, e)
    ensures forall id :: id in log[i].steps <==> exists raw :: raw in w.steps.value && raw.id == id
    ensures forall raw | raw in w.steps.value ::
      raw.id in log[i].steps && IsAsPlanned(log[i].steps[raw.id], raw, company)
  {
    hide Reached, NewSteps, NewStep, StepIsValid, Acyclic, Distinct, SameShape, IsAsPlanned;
    ShapesStay(log, 0, i);
    PoliciesAreThere(w, company);
    NewStepsAre(w.steps.value, company);
    forall raw | raw in w.steps.value
      ensures raw.id in log[i].steps && IsAsPlanned(log[i].steps[raw.id], raw, company)
    {
      PlannedStep(w, company, raw);
      StaysAsPlanned(log[0].steps[raw.id], log[i].steps[raw.id], raw, company);
    }
  }

  lemma PoliciesAreThere(w: Workflow, company: Company)
    requires IsValid(w, company)
    ensures forall raw | raw in w.steps.value :: raw.action in company.policy
  {
    forall raw | raw in w.steps.value ensures raw.action in company.policy {
      assert StepIsValid(raw, Ids(w.steps.value), company);
    }
  }

  lemma StaysAsPlanned(step: Step, later: Step, raw: RawStep, company: Company)
    requires SameShape(step, later) && IsAsPlanned(step, raw, company)
    ensures IsAsPlanned(later, raw, company)
  {
  }

  lemma PlannedStart(log: Log, w: Workflow, company: Company, rid: string, planned: int, e: Env)
    requires log != [] && IsValid(w, company)
    requires log[0] == NewRun(w, company, log[0].runId, log[0].revision, rid, log[0].actor, planned, e)
    ensures forall id | id in log[0].steps ::
      log[0].steps[id].status == if log[0].steps[id].dependsOn == [] then Ready else Pending
    ensures w.maxCycles == Whole(log[0].maxCycles) && log[0].cycleCount == 0
    ensures log[0].planning == log[0].spend == if planned > 0 then planned else 0
  {
    hide NewSteps;
    NewStepsAre(w.steps.value, company);
    forall id | id in log[0].steps
      ensures log[0].steps[id].status == if log[0].steps[id].dependsOn == [] then Ready else Pending
    {
      NewStepIsOk(w, company, id);
    }
  }

  lemma PlannedStep(w: Workflow, company: Company, raw: RawStep)
    requires IsValid(w, company) && raw in w.steps.value
    ensures raw.id in NewSteps(w.steps.value, company)
    ensures IsAsPlanned(NewSteps(w.steps.value, company)[raw.id], raw, company)
  {
    hide NewSteps, NewStep, IsAsPlanned, CheckerRulesHold, Acyclic, Distinct;
    var raws := w.steps.value;
    assert StepIsValid(raw, Ids(raws), company);
    RawIsPlanned(raw, Ids(raws), company);
    NewStepsAre(raws, company);
    var other :| other in raws && other.id == raw.id && NewSteps(raws, company)[raw.id] == NewStep(other, company);
    OneRaw(raws, raw, other);
  }

  lemma RawIsPlanned(raw: RawStep, ids: seq<StepId>, company: Company)
    requires StepIsValid(raw, ids, company)
    ensures IsAsPlanned(NewStep(raw, company), raw, company)
  {
  }

  lemma OneRaw(raws: seq<RawStep>, raw: RawStep, other: RawStep)
    requires Distinct(Ids(raws)) && raw in raws && other in raws && raw.id == other.id
    ensures raw == other
  {
    var i: nat :| i < |raws| && raws[i] == raw;
    var j: nat :| j < |raws| && raws[j] == other;
    assert Ids(raws)[i] == Ids(raws)[j];
  }
}
