/** The governed run as data: steps, log rows, the verbs, and the specification of every transition
    (`run_state`, `run_verbs`, `run_outcomes`, `run_review`). A log row is a whole snapshot of the
    run, so the run's state is always the last row of its log. */
module RunModel {
  import opened Outcomes
  import opened Workflows

  datatype StepStatus =
    | Pending | Ready | InProgress | AwaitingApproval | AwaitingCheck | Completed
    | Rejected | BlockedHuman | BlockedRetryLimit | BlockedReviewLimit | RejectedByChecker

  datatype RunStatus =
    | Active | RunCompleted | RunRejected | RunBlockedHuman | RunBlockedRetryLimit
    | RunBlockedCycleLimit | RunBlockedReviewLimit | RunRejectedByChecker | RunCancelled

  /** A claim token names the run and the sequence number of the event that granted it. */
  datatype Token = NoToken | Minted(run: string, at: nat)

  datatype Submission = Submission(evidence: string, sha: string, maker: string)

  /** What a hold left on the step: nothing, ungraded work to accept, or a budget notice. */
  datatype Held = NotHeld | Ungraded(evidence: string, sha: string) | Budget(evidence: string, sha: string)

  datatype Step = Step(
    status: StepStatus, attempts: nat, releases: nat, owner: string, checker: Option<string>,
    reviewCycles: nat, maxReviewCycles: nat, submissions: seq<Submission>, action: string, risk: Risk,
    maxAttempts: nat, dependsOn: seq<StepId>, holder: string, token: Token, expiresAt: int, spend: nat,
    held: Held, approver: string, approvalRef: string)

  type Steps = map<StepId, Step>

  datatype MessageKind = Handoff | Question | Answer | Feedback | Decision

  datatype Message = Message(
    id: string, step: StepId, sender: string, receiver: string, kind: MessageKind, payload: string,
    sha: string, replyTo: Option<string>)

  datatype Event =
    | RunCreated | StepRequested | StepApproved | StepRejected | StepTaken | ClaimRenewed | ClaimExpired
    | StepHeld | StepCompleted | StepFailed | StepReleased | CheckApproved | CheckReturned | CheckRejected
    | MessageSent | Cancelled | CycleLimitHit | BudgetExtended

  /** One row of a run's log. Money is in whole micro-dollars, times in whole seconds; a `ceiling` of
      zero means that no allowance was bought yet. */
  datatype Row = Row(
    number: nat, event: Event, actor: string, target: string, requestId: string, ts: int,
    runId: string, revision: string, maxCycles: nat, cycleCount: nat, status: RunStatus,
    planning: nat, spend: nat, ceiling: int, messages: seq<Message>, steps: Steps)

  type Log = seq<Row>

  /** What a verb reads outside the log: the clock, the claim length, the evidence files on disk
      with their digests, and the environment's spend ceiling. */
  datatype Env = Env(now: int, claimSeconds: int, disk: map<string, string>, baseCeiling: int)

  datatype HoldKind = UngradedWork | OverBudget

  datatype Verb =
    | Request(actor: string, holder: Option<string>)
    | Approve(approver: string, approvalRef: string)
    | Reject(approver: string, approvalRef: string)
    | Take(actor: string, newHolder: string)
    | Renew(renewer: string, token: Option<Token>)
    | Expire(operator: string)
    | Hold(actor: string, token: Option<Token>, evidence: string, kind: HoldKind, spend: int)
    | Complete(actor: string, revision: string, token: Option<Token>, evidence: string, spend: int)
    | Fail(actor: string, token: Option<Token>, spend: int)
    | Release(actor: string, token: Option<Token>, spend: int)
    | CheckApprove(actor: string, message: string, spend: int)
    | CheckReturn(actor: string, message: string, spend: int)
    | CheckReject(actor: string, message: string, spend: int)

  datatype Command =
    | OnStep(step: StepId, verb: Verb)
    | Send(id: string, about: StepId, sender: string, receiver: string, kind: MessageKind, payload: string,
           replyTo: Option<string>)
    | Cancel(approver: string, reason: string)

  datatype Refusal =
    | NotReady | NotOwner | NotAwaitingApproval | ApprovalRefRequired | NotInProgress | HeldElsewhere
    | NotHolder | StaleClaim | UnknownStep | NobodyHolds | StaleRevision | NotAwaitingCheck | NotChecker
    | NoSubmission | SubmissionChanged | EvidenceMissing | NoSuchMessage | MessageElsewhere | WrongMessage
    | MessageChanged | BadMessageId | DuplicateMessage | NotAdjacent | SelfMessage | NoReplyTarget | BadReply
    | RequestReused | RunEnded | OutOfCycles | HumanRequired | BadReason | BadExtension | NotOutOfBudget
    | AtHardCeiling | Interrupted | BadRunId | InvalidWorkflow | RunExists | BrokenLog

  // --- claims -------------------------------------------------------------------------------

  predicate ClaimIsLive(step: Step, now: int) {
    step.holder != "" && step.expiresAt > now
  }

  function MintClaim(step: Step, row: Row, holder: string, e: Env): Step {
    step.(holder := holder, token := Minted(row.runId, row.number + 1), expiresAt := e.now + e.claimSeconds)
  }

  function ReleaseClaim(step: Step): Step {
    step.(holder := "", token := NoToken, expiresAt := 0)
  }

  /** A caller without a token is the operator at the command line; a wrong token never passes. */
  predicate ClaimPasses(step: Step, supplied: Option<Token>) {
    supplied.None? || supplied.value == step.token
  }

  // --- what one verb does to its step -------------------------------------------------------

  /** A verb's effect: the step afterwards, the run status it asks for, the amount charged, and the
      run's spend ceiling afterwards. */
  datatype Effect = Effect(step: Step, status: RunStatus, charge: nat, ceiling: int)

  type Outcome = Result<Effect, Refusal>

  function Amount(spend: int): nat {
    if spend <= 0 then 0 else spend
  }

  function Stays(step: Step, spend: int, row: Row): Outcome {
    Ok(Effect(step, Active, Amount(spend), row.ceiling))
  }

  function Ends(step: Step, status: RunStatus, spend: int, row: Row): Outcome {
    Ok(Effect(step, status, Amount(spend), row.ceiling))
  }

  function RequestEffect(v: Verb, step: Step, row: Row, e: Env): Outcome
    requires v.Request?
  {
    if step.status != Ready then Err(NotReady)
    else if v.actor != step.owner then Err(NotOwner)
    else match step.risk
      case Red => Ends(step.(status := BlockedHuman), RunBlockedHuman, 0, row)
      case Yellow => Stays(step.(status := AwaitingApproval), 0, row)
      case Green =>
        if step.attempts >= step.maxAttempts then
          Ends(step.(status := BlockedRetryLimit), RunBlockedRetryLimit, 0, row)
        else
          var holder := if v.holder.Some? && v.holder.value != "" then v.holder.value else v.actor;
          Stays(MintClaim(step.(status := InProgress, attempts := step.attempts + 1), row, holder, e), 0, row)
  }

  function ApproveEffect(v: Verb, step: Step, row: Row, e: Env): Outcome
    requires v.Approve?
  {
    if step.status != AwaitingApproval then Err(NotAwaitingApproval)
    else if IsBlank(v.approvalRef) then Err(ApprovalRefRequired)
    else
      var decided := ReleaseClaim(step.(approver := v.approver, approvalRef := v.approvalRef));
      if step.held.Budget? then
        var allowance := if row.ceiling != 0 then row.ceiling else e.baseCeiling;
        Ok(Effect(decided.(status := Ready, held := NotHeld), Active, 0, row.spend + allowance))
      else Stays(decided.(status := InProgress), 0, row)
  }

  function RejectEffect(v: Verb, step: Step, row: Row): Outcome
    requires v.Reject?
  {
    if step.status != AwaitingApproval then Err(NotAwaitingApproval)
    else Ends(step.(status := Rejected, approver := v.approver, approvalRef := v.approvalRef), RunRejected, 0, row)
  }

  function TakeEffect(v: Verb, step: Step, row: Row, e: Env): Outcome
    requires v.Take?
  {
    if step.status != InProgress then Err(NotInProgress)
    else if v.actor != step.owner then Err(NotOwner)
    else if ClaimIsLive(step, e.now) && step.holder != v.newHolder then Err(HeldElsewhere)
    else Stays(MintClaim(step, row, v.newHolder, e), 0, row)
  }

  function RenewEffect(v: Verb, step: Step, row: Row, e: Env): Outcome
    requires v.Renew?
  {
    if step.status != InProgress then Err(NotInProgress)
    else if !ClaimIsLive(step, e.now) || step.holder != v.renewer then Err(NotHolder)
    else if !ClaimPasses(step, v.token) then Err(StaleClaim)
    else Stays(step.(expiresAt := e.now + e.claimSeconds), 0, row)
  }

  function ExpireEffect(step: Step, row: Row, e: Env): Outcome {
    if step.holder == "" then Err(NobodyHolds)
    else Stays(step.(expiresAt := e.now), 0, row)
  }

  /** What the holder of a step must show before it may hand anything back. */
  function WriteRefused(step: Step, actor: string, token: Option<Token>): Option<Refusal> {
    if step.status != InProgress then Some(NotInProgress)
    else if actor != step.owner then Some(NotOwner)
    else if !ClaimPasses(step, token) then Some(StaleClaim)
    else None
  }

  function HoldEffect(v: Verb, step: Step, row: Row, e: Env): Outcome
    requires v.Hold? && v.evidence in e.disk
  {
    match WriteRefused(step, v.actor, v.token)
    case Some(why) => Err(why)
    case None =>
      var sha := e.disk[v.evidence];
      var held := if v.kind.OverBudget? then Budget(v.evidence, sha) else Ungraded(v.evidence, sha);
      Stays(ReleaseClaim(step.(status := AwaitingApproval, held := held)), v.spend, row)
  }

  function CompleteEffect(v: Verb, step: Step, row: Row, e: Env): Outcome
    requires v.Complete? && v.evidence in e.disk
  {
    match WriteRefused(step, v.actor, v.token)
    case Some(why) => Err(why)
    case None =>
      var submission := Submission(v.evidence, e.disk[v.evidence], v.actor);
      var status := if step.checker.Some? then AwaitingCheck else Completed;
      Stays(ReleaseClaim(step.(status := status, submissions := step.submissions + [submission])), v.spend, row)
  }

  function FailEffect(v: Verb, step: Step, row: Row): Outcome
    requires v.Fail?
  {
    match WriteRefused(step, v.actor, v.token)
    case Some(why) => Err(why)
    case None =>
      if step.attempts < step.maxAttempts then Stays(ReleaseClaim(step.(status := Ready)), v.spend, row)
      else Ends(ReleaseClaim(step.(status := BlockedRetryLimit)), RunBlockedRetryLimit, v.spend, row)
  }

  function ReleaseEffect(v: Verb, step: Step, row: Row): Outcome
    requires v.Release?
  {
    match WriteRefused(step, v.actor, v.token)
    case Some(why) => Err(why)
    case None =>
      var attempts := if step.attempts > 0 then step.attempts - 1 else 0;
      Stays(ReleaseClaim(step.(status := Ready, attempts := attempts, releases := step.releases + 1)), v.spend, row)
  }

  // --- review -------------------------------------------------------------------------------

  /** The submission on record must still be the file on disk. */
  function SubmissionRefused(step: Step, e: Env): Option<Refusal> {
    if step.submissions == [] then Some(NoSubmission)
    else
      var submission := Last(step.submissions);
      if submission.evidence !in e.disk then Some(EvidenceMissing)
      else if e.disk[submission.evidence] != submission.sha then Some(SubmissionChanged)
      else None
  }

  function FindMessage(messages: seq<Message>, id: string): (found: Option<Message>)
    ensures found.Some? ==> found.value in messages && found.value.id == id
    ensures found.None? ==> forall m | m in messages :: m.id != id
  {
    if messages == [] then None
    else if messages[0].id == id then Some(messages[0])
    else FindMessage(messages[1..], id)
  }

  /** The checker's own message to the maker, of the right kind and unchanged since it was sent. */
  function MessageRefused(row: Row, id: StepId, step: Step, message: string, checker: string, kind: MessageKind,
                          e: Env): Option<Refusal> {
    match FindMessage(row.messages, message)
    case None => Some(NoSuchMessage)
    case Some(m) =>
      if m.step != id then Some(MessageElsewhere)
      else if m.sender != checker || m.receiver != step.owner || m.kind != kind then Some(WrongMessage)
      else if m.payload !in e.disk then Some(EvidenceMissing)
      else if e.disk[m.payload] != m.sha then Some(MessageChanged)
      else None
  }

  function CheckRefused(row: Row, id: StepId, step: Step, actor: string, message: string, kind: MessageKind,
                        e: Env): Option<Refusal> {
    if step.status != AwaitingCheck then Some(NotAwaitingCheck)
    else if Some(actor) != step.checker then Some(NotChecker)
    else match SubmissionRefused(step, e)
      case Some(why) => Some(why)
      case None => MessageRefused(row, id, step, message, actor, kind, e)
  }

  function CheckApproveEffect(v: Verb, id: StepId, step: Step, row: Row, e: Env): Outcome
    requires v.CheckApprove?
  {
    match CheckRefused(row, id, step, v.actor, v.message, Decision, e)
    case Some(why) => Err(why)
    case None => Stays(step.(status := Completed), v.spend, row)
  }

  function CheckReturnEffect(v: Verb, id: StepId, step: Step, row: Row, e: Env): Outcome
    requires v.CheckReturn?
  {
    match CheckRefused(row, id, step, v.actor, v.message, Feedback, e)
    case Some(why) => Err(why)
    case None =>
      if step.reviewCycles >= step.maxReviewCycles then
        Ends(step.(status := BlockedReviewLimit), RunBlockedReviewLimit, v.spend, row)
      else
        Stays(step.(status := Ready, reviewCycles := step.reviewCycles + 1), v.spend, row)
  }

  function CheckRejectEffect(v: Verb, id: StepId, step: Step, row: Row, e: Env): Outcome
    requires v.CheckReject?
  {
    match CheckRefused(row, id, step, v.actor, v.message, Feedback, e)
    case Some(why) => Err(why)
    case None => Ends(step.(status := RejectedByChecker), RunRejectedByChecker, v.spend, row)
  }

  // --- a step verb inside its run -----------------------------------------------------------

  /** Evidence is read before the run is even locked, so a missing file is refused first. */
  predicate EvidencePresent(v: Verb, e: Env) {
    match v
    case Hold(_, _, evidence, _, _) => evidence in e.disk
    case Complete(_, _, _, evidence, _) => evidence in e.disk
    case _ => true
  }

  function VerbEffect(v: Verb, id: StepId, step: Step, row: Row, e: Env): Outcome
    requires EvidencePresent(v, e)
  {
    match v
    case Request(_, _) => RequestEffect(v, step, row, e)
    case Approve(_, _) => ApproveEffect(v, step, row, e)
    case Reject(_, _) => RejectEffect(v, step, row)
    case Take(_, _) => TakeEffect(v, step, row, e)
    case Renew(_, _) => RenewEffect(v, step, row, e)
    case Expire(_) => ExpireEffect(step, row, e)
    case Hold(_, _, _, _, _) => HoldEffect(v, step, row, e)
    case Complete(_, _, _, _, _) => CompleteEffect(v, step, row, e)
    case Fail(_, _, _) => FailEffect(v, step, row)
    case Release(_, _, _) => ReleaseEffect(v, step, row)
    case CheckApprove(_, _, _) => CheckApproveEffect(v, id, step, row, e)
    case CheckReturn(_, _, _) => CheckReturnEffect(v, id, step, row, e)
    case CheckReject(_, _, _) => CheckRejectEffect(v, id, step, row, e)
  }

  /** An unknown step is refused in the words the verb uses for a step in the wrong status. */
  function UnknownTo(v: Verb): Refusal {
    match v
    case Request(_, _) => NotReady
    case Approve(_, _) => NotAwaitingApproval
    case Reject(_, _) => NotAwaitingApproval
    case Expire(_) => UnknownStep
    case CheckApprove(_, _, _) => NotAwaitingCheck
    case CheckReturn(_, _, _) => NotAwaitingCheck
    case CheckReject(_, _, _) => NotAwaitingCheck
    case _ => NotInProgress
  }

  predicate IsDone(steps: Steps, id: StepId) {
    id in steps && steps[id].status == Completed
  }

  predicate AllDone(steps: Steps, ids: seq<StepId>) {
    forall d | d in ids :: IsDone(steps, d)
  }

  /** A pending step whose dependencies are all completed becomes ready. */
  function Freed(steps: Steps, step: Step): Step {
    if step.status == Pending && AllDone(steps, step.dependsOn) then step.(status := Ready) else step
  }

  function ReleaseDependents(steps: Steps): Steps {
    map id | id in steps :: Freed(steps, steps[id])
  }

  predicate AllCompleted(steps: Steps) {
    forall id | id in steps :: steps[id].status == Completed
  }

  /** The step with its new content and its share of the bill. */
  function Charged(f: Effect): Step {
    f.step.(spend := f.step.spend + f.charge)
  }

  /** The effect completes a step that was not completed. */
  predicate Finishes(steps: Steps, id: StepId, f: Effect)
    requires id in steps
  {
    f.step.status == Completed && steps[id].status != Completed
  }

  function StepsAfter(steps: Steps, id: StepId, f: Effect): Steps
    requires id in steps
  {
    var changed := steps[id := Charged(f)];
    if Finishes(steps, id, f) then ReleaseDependents(changed) else changed
  }

  function Commit(row: Row, id: StepId, f: Effect): Row
    requires id in row.steps
  {
    var steps := StepsAfter(row.steps, id, f);
    row.(steps := steps, spend := row.spend + f.charge, ceiling := f.ceiling,
         status := if Finishes(row.steps, id, f) && AllCompleted(steps) then RunCompleted else f.status)
  }

  // --- messages and cancellation ------------------------------------------------------------

  function Parties(step: Step): set<string> {
    {step.owner} + (if step.checker.Some? then {step.checker.value} else {})
  }

  function Neighbours(steps: Steps, about: StepId): set<string>
    requires about in steps
  {
    set id, who | id in steps && (id in steps[about].dependsOn || about in steps[id].dependsOn)
                  && who in Parties(steps[id]) :: who
  }

  function ReplyRefused(messages: seq<Message>, c: Command): Option<Refusal>
    requires c.Send?
  {
    match c.replyTo
    case None => None
    case Some(earlier) =>
      match FindMessage(messages, earlier)
      case None => Some(NoReplyTarget)
      case Some(m) =>
        if m.step != c.about || m.sender != c.receiver || m.receiver != c.sender then Some(BadReply) else None
  }

  function SendChange(c: Command, row: Row, e: Env): Result<Row, Refusal>
    requires c.Send? && c.payload in e.disk
  {
    if FindMessage(row.messages, c.id).Some? then Err(DuplicateMessage)
    else if c.about !in row.steps then Err(UnknownStep)
    else
      var pair := {c.sender, c.receiver};
      var current := Parties(row.steps[c.about]);
      var near := Neighbours(row.steps, c.about);
      if !(pair <= current || (pair * current != {} && pair * near != {})) then Err(NotAdjacent)
      else if c.sender == c.receiver then Err(SelfMessage)
      else match ReplyRefused(row.messages, c)
        case Some(why) => Err(why)
        case None =>
          Ok(row.(messages := row.messages
                    + [Message(c.id, c.about, c.sender, c.receiver, c.kind, c.payload, e.disk[c.payload], c.replyTo)]))
  }

  /** Nobody may finish a step of a cancelled run: every claim in progress is dropped. */
  function Unclaimed(step: Step): Step {
    if step.status == InProgress then ReleaseClaim(step) else step
  }

  function CancelChange(row: Row): Row {
    row.(status := RunCancelled, steps := map id | id in row.steps :: Unclaimed(row.steps[id]))
  }

  // --- the one door -------------------------------------------------------------------------

  function EventOf(c: Command): Event {
    match c
    case Send(_, _, _, _, _, _, _) => MessageSent
    case Cancel(_, _) => Cancelled
    case OnStep(_, v) =>
      match v
      case Request(_, _) => StepRequested
      case Approve(_, _) => StepApproved
      case Reject(_, _) => StepRejected
      case Take(_, _) => StepTaken
      case Renew(_, _) => ClaimRenewed
      case Expire(_) => ClaimExpired
      case Hold(_, _, _, _, _) => StepHeld
      case Complete(_, _, _, _, _) => StepCompleted
      case Fail(_, _, _) => StepFailed
      case Release(_, _, _) => StepReleased
      case CheckApprove(_, _, _) => CheckApproved
      case CheckReturn(_, _, _) => CheckReturned
      case CheckReject(_, _, _) => CheckRejected
  }

  function ActorOf(c: Command): string {
    match c
    case Send(_, _, sender, _, _, _, _) => sender
    case Cancel(approver, _) => approver
    case OnStep(_, v) =>
      match v
      case Approve(approver, _) => approver
      case Reject(approver, _) => approver
      case Renew(renewer, _) => renewer
      case Expire(operator) => operator
      case _ => v.actor
  }

  function TargetOf(c: Command, runId: string): string {
    match c
    case Send(id, _, _, _, _, _, _) => id
    case Cancel(_, _) => runId
    case OnStep(id, _) => id
  }

  /** The checks a verb makes before it enters the run: no lock, no replay. */
  function Precheck(c: Command, e: Env): Option<Refusal> {
    match c
    case OnStep(_, v) => if EvidencePresent(v, e) then None else Some(EvidenceMissing)
    case Send(id, _, _, _, _, payload, _) =>
      if !IsSlug(id) then Some(BadMessageId) else if payload !in e.disk then Some(EvidenceMissing) else None
    case Cancel(approver, reason) =>
      if IsBlank(approver) then Some(HumanRequired)
      else if !(1 <= |Strip(reason)| <= 200) then Some(BadReason)
      else None
  }

  /** The `change` closure of a command: the snapshot it leaves, or why it refuses. */
  function Change(c: Command, row: Row, e: Env): Result<Row, Refusal>
    requires Precheck(c, e).None?
  {
    match c
    case Send(_, _, _, _, _, _, _) => SendChange(c, row, e)
    case Cancel(_, _) => Ok(CancelChange(row))
    case OnStep(id, v) =>
      if v.Complete? && v.revision != row.revision then Err(StaleRevision)
      else if id !in row.steps then Err(UnknownTo(v))
      else match VerbEffect(v, id, row.steps[id], row, e)
        case Err(why) => Err(why)
        case Ok(f) => Ok(Commit(row, id, f))
  }

  /** What the runtime decides about one request that is not a replay. */
  datatype Verdict = Replayed | Refused(why: Refusal) | AtCeiling(row: Row) | Applied(row: Row)

  function CeilingRow(row: Row, rid: string, e: Env): Row {
    row.(number := row.number + 1, event := CycleLimitHit, actor := "runtime", target := row.runId, requestId := rid,
         ts := e.now, status := RunBlockedCycleLimit)
  }

  function Stamped(row: Row, rid: string, c: Command, e: Env): Row {
    row.(number := row.number + 1, event := EventOf(c), actor := ActorOf(c), target := TargetOf(c, row.runId),
         requestId := rid, ts := e.now, cycleCount := row.cycleCount + 1)
  }

  function Decide(row: Row, rid: string, c: Command, e: Env): Verdict
    requires Precheck(c, e).None?
  {
    if row.status != Active then Refused(RunEnded)
    else if row.cycleCount >= row.maxCycles then AtCeiling(CeilingRow(row, rid, e))
    else match Change(c, row, e)
      case Err(why) => Refused(why)
      case Ok(changed) => Applied(Stamped(changed, rid, c, e))
  }

  /** The first row that carries a request id. */
  function Prior(log: Log, rid: string): (found: Option<Row>)
    ensures found.Some? ==> found.value in log && found.value.requestId == rid
    ensures found.None? <==> forall row | row in log :: row.requestId != rid
  {
    if log == [] then None
    else if log[0].requestId == rid then Some(log[0])
    else Prior(log[1..], rid)
  }

  function Mutate(log: Log, rid: string, c: Command, e: Env): Verdict
    requires log != []
  {
    match Precheck(c, e)
    case Some(why) => Refused(why)
    case None =>
      match Prior(log, rid)
      case Some(prior) =>
        if prior.event != EventOf(c) || prior.actor != ActorOf(c) || prior.target != TargetOf(c, Last(log).runId)
        then Refused(RequestReused) else Replayed
      case None => Decide(Last(log), rid, c, e)
  }

  // --- the two transitions that do not pass through the door --------------------------------

  function Min(a: int, b: int): int {
    if a <= b then a else b
  }

  /** The only way out of an ended run, and only out of a spent cycle budget. */
  function Extension(row: Row, rid: string, approver: string, cycles: int, e: Env): Verdict {
    var ceiling := Min(100, row.maxCycles + cycles);
    if row.status != RunBlockedCycleLimit then Refused(NotOutOfBudget)
    else if ceiling <= row.maxCycles then Refused(AtHardCeiling)
    else Applied(row.(number := row.number + 1, event := BudgetExtended, actor := approver, target := row.runId,
                      requestId := rid, ts := e.now, status := Active, maxCycles := ceiling))
  }

  function ExtendBudget(log: Log, rid: string, approver: string, cycles: int, e: Env): Verdict
    requires log != []
  {
    if IsBlank(approver) then Refused(HumanRequired)
    else if !(1 <= cycles <= 100) then Refused(BadExtension)
    else if Prior(log, rid).Some? then Replayed
    else Extension(Last(log), rid, approver, cycles, e)
  }

  function Whole0(n: Number): nat {
    if n.Whole? && n.n >= 0 then n.n else 0
  }

  function NewStep(raw: RawStep, company: Company): Step
    requires raw.action in company.policy
  {
    Step(if raw.Dependencies() == [] then Ready else Pending, 0, 0, raw.owner, raw.checker, 0,
         Whole0(raw.maxReviewCycles), [], raw.action, company.policy[raw.action], Whole0(raw.maxAttempts),
         raw.Dependencies(), "", NoToken, 0, 0, NotHeld, "", "")
  }

  function NewSteps(steps: seq<RawStep>, company: Company): Steps
    requires forall raw | raw in steps :: raw.action in company.policy
  {
    if steps == [] then map[]
    else NewSteps(Front(steps), company)[Last(steps).id := NewStep(Last(steps), company)]
  }

  /** The first row of a run created from an admitted workflow; `planned` is what planning it cost. */
  ghost function NewRun(w: Workflow, company: Company, runId: string, revision: string, rid: string,
                        actor: string, planned: int, e: Env): Row
    requires IsValid(w, company)
  {
    Row(1, RunCreated, actor, runId, rid, e.now, runId, revision, w.maxCycles.n, 0, Active,
        Amount(planned), Amount(planned), 0, [], NewSteps(w.steps.value, company))
  }

  // --- runs ---------------------------------------------------------------------------------

  /** One request made of a run. */
  datatype Action =
    | Ask(rid: string, command: Command, env: Env)
    | Extend(rid: string, approver: string, cycles: int, env: Env)

  function Respond(log: Log, a: Action): Verdict
    requires log != []
  {
    match a
    case Ask(rid, c, e) => Mutate(log, rid, c, e)
    case Extend(rid, approver, cycles, e) => ExtendBudget(log, rid, approver, cycles, e)
  }

  /** The row an action adds to the log, if it adds one. */
  function NextRow(log: Log, a: Action): Option<Row>
    requires log != []
  {
    match Respond(log, a)
    case AtCeiling(row) => Some(row)
    case Applied(row) => Some(row)
    case _ => None
  }

  /** The row an action adds, leaving replays aside. */
  function Successor(row: Row, a: Action): Option<Row> {
    match a
    case Ask(rid, c, e) =>
      if Precheck(c, e).Some? then None
      else (match Decide(row, rid, c, e)
            case AtCeiling(next) => Some(next)
            case Applied(next) => Some(next)
            case _ => None)
    case Extend(rid, approver, cycles, e) =>
      if IsBlank(approver) || !(1 <= cycles <= 100) then None
      else (match Extension(row, rid, approver, cycles, e)
            case Applied(next) => Some(next)
            case _ => None)
  }

  /** A row is only ever added under a request id the log does not hold yet. */
  lemma NextIsSuccessor(log: Log, a: Action)
    requires log != [] && NextRow(log, a).Some?
    ensures Successor(Last(log), a) == NextRow(log, a)
    ensures Prior(log, a.rid).None? && NextRow(log, a).value.requestId == a.rid
  {
  }

  ghost predicate Follows(log: Log, row: Row)
    requires log != []
  {
    exists a :: NextRow(log, a) == Some(row)
  }

  ghost predicate IsNewRun(row: Row) {
    exists w, company, revision, planned, e ::
      IsValid(w, company) && row == NewRun(w, company, row.runId, revision, row.requestId, row.actor, planned, e)
  }

  /** The logs some sequence of requests can produce from some admitted workflow. */
  ghost predicate Reached(log: Log)
    decreases |log|, 2
  {
    log != [] && Arises(log)
  }

  /** A reachable log is a new run's, or it grew. */
  ghost predicate Arises(log: Log)
    requires log != []
    decreases |log|, 1
  {
    if |log| == 1 then IsNewRun(log[0]) else Grew(log)
  }

  /** The last row was added by a request made of a reachable log. */
  ghost predicate Grew(log: Log)
    requires |log| > 1
    decreases |log|, 0
  {
    Reached(Front(log)) && Follows(Front(log), Last(log))
  }
}
