/** The `change` closures of `run_verbs`, `run_outcomes` and `run_review`, statement by statement: a private
    copy of the last snapshot, edited field by field. Each method is proved against the specification
    of its verb; a draft whose method refuses is thrown away by the caller, whatever it had edited by then. */
module RunDraft {
  import opened Outcomes
  import opened Workflows
  import opened RunModel

  /** What a closure leaves behind is what the command's specification says. */
  ghost predicate Performs(c: Command, before: Row, e: Env, refused: Option<Refusal>, after: Row)
    requires Precheck(c, e).None?
  {
    match Change(c, before, e)
    case Err(why) => refused == Some(why)
    case Ok(changed) => refused.None? && after == changed
  }

  ghost function EffectOf(v: Verb, id: StepId, row: Row, e: Env): Effect
    requires EvidencePresent(v, e) && id in row.steps && VerbEffect(v, id, row.steps[id], row, e).Ok?
  {
    VerbEffect(v, id, row.steps[id], row, e).value
  }

  class Draft {
    const origin: Row
    var status: RunStatus
    var spend: nat
    var ceiling: int
    var messages: seq<Message>
    var steps: Steps

    function Value(): Row
      reads this
    {
      origin.(status := status, spend := spend, ceiling := ceiling, messages := messages, steps := steps)
    }

    constructor (row: Row)
      ensures Value() == row && origin == row
    {
      origin := row;
      status, spend, ceiling, messages, steps := row.status, row.spend, row.ceiling, row.messages, row.steps;
    }

    // --- the shared pieces ------------------------------------------------------------------

    /** Adds what a dispatch cost to the step and to the run. */
    method Charge(id: StepId, cost: int)
      requires id in steps
      modifies this`steps, this`spend
      ensures spend == old(spend) + Amount(cost)
      ensures steps == old(steps)[id := old(steps)[id].(spend := old(steps)[id].spend + Amount(cost))]
    {
      if cost <= 0 {
        assert steps == steps[id := steps[id]];
        return;
      }
      steps := steps[id := steps[id].(spend := steps[id].spend + cost)];
      spend := spend + cost;
    }

    /** Makes every pending step ready whose dependencies are all completed, one step at a time. */
    method FreeDependents()
      modifies this`steps, this`status
      ensures steps == ReleaseDependents(old(steps))
      ensures status == if AllCompleted(steps) then RunCompleted else old(status)
    {
      var todo := steps.Keys;
      while todo != {}
        invariant todo <= steps.Keys == old(steps).Keys && status == old(status)
        invariant forall id | id in todo :: steps[id] == old(steps)[id]
        invariant forall id | id in steps && id !in todo :: steps[id] == Freed(old(steps), old(steps)[id])
        decreases todo
      {
        var id :| id in todo;
        SameDone(old(steps), steps, todo, steps[id].dependsOn);
        if steps[id].status == Pending && AllDone(steps, steps[id].dependsOn) {
          steps := steps[id := steps[id].(status := Ready)];
        }
        todo := todo - {id};
      }
      if AllCompleted(steps) {
        status := RunCompleted;
      }
    }

    /** The three guards every hand-back begins with: in progress, its owner, the current claim. */
    method MayHandBack(id: StepId, actor: string, token: Option<Token>) returns (refused: Option<Refusal>)
      ensures refused == if id in steps then WriteRefused(steps[id], actor, token) else Some(NotInProgress)
    {
      if id !in steps || steps[id].status != InProgress { return Some(NotInProgress); }
      if actor != steps[id].owner { return Some(NotOwner); }
      refused := if ClaimPasses(steps[id], token) then None else Some(StaleClaim);
    }

    // --- claims -----------------------------------------------------------------------------

    method RequestStep(id: StepId, actor: string, holder: Option<string>, e: Env) returns (refused: Option<Refusal>)
      requires status == Active
      modifies this
      ensures Performs(OnStep(id, Request(actor, holder)), old(Value()), e, refused, Value())
    {
      hide ReleaseDependents, AllCompleted, SendChange, CancelChange, Neighbours;
      if id !in steps || steps[id].status != Ready { return Some(NotReady); }
      var step := steps[id];
      if actor != step.owner { return Some(NotOwner); }
      if step.risk == Red {
        step := step.(status := BlockedHuman);
        status := RunBlockedHuman;
      } else if step.risk == Yellow {
        step := step.(status := AwaitingApproval);
      } else if step.attempts >= step.maxAttempts {
        step := step.(status := BlockedRetryLimit);
        status := RunBlockedRetryLimit;
      } else {
        step := step.(status := InProgress, attempts := step.attempts + 1);
        step := MintClaim(step, origin, if holder.Some? && holder.value != "" then holder.value else actor, e);
      }
      steps := steps[id := step];
      assert steps == old(steps)[id := Charged(EffectOf(Request(actor, holder), id, old(Value()), e))];
      refused := None;
    }

    method ApproveStep(id: StepId, approver: string, approvalRef: string, e: Env) returns (refused: Option<Refusal>)
      requires status == Active
      modifies this
      ensures Performs(OnStep(id, Approve(approver, approvalRef)), old(Value()), e, refused, Value())
    {
      if id !in steps || steps[id].status != AwaitingApproval { return Some(NotAwaitingApproval); }
      if IsBlank(approvalRef) { return Some(ApprovalRefRequired); }
      var step := steps[id];
      if step.held.Budget? {
        var allowance := e.baseCeiling;
        if ceiling != 0 { allowance := ceiling; }
        ceiling := spend + allowance;
        step := step.(status := Ready, approver := approver, approvalRef := approvalRef, held := NotHeld);
      } else {
        step := step.(status := InProgress, approver := approver, approvalRef := approvalRef);
      }
      steps := steps[id := ReleaseClaim(step)];
      refused := None;
    }

    method RejectStep(id: StepId, approver: string, approvalRef: string, ghost e: Env)
      returns (refused: Option<Refusal>)
      requires status == Active
      modifies this
      ensures Performs(OnStep(id, Reject(approver, approvalRef)), old(Value()), e, refused, Value())
    {
      if id !in steps || steps[id].status != AwaitingApproval { return Some(NotAwaitingApproval); }
      steps := steps[id := steps[id].(status := Rejected, approver := approver, approvalRef := approvalRef)];
      status := RunRejected;
      refused := None;
    }

    method TakeStep(id: StepId, actor: string, holder: string, e: Env) returns (refused: Option<Refusal>)
      requires status == Active
      modifies this
      ensures Performs(OnStep(id, Take(actor, holder)), old(Value()), e, refused, Value())
    {
      if id !in steps || steps[id].status != InProgress { return Some(NotInProgress); }
      if actor != steps[id].owner { return Some(NotOwner); }
      if ClaimIsLive(steps[id], e.now) && steps[id].holder != holder { return Some(HeldElsewhere); }
      steps := steps[id := MintClaim(steps[id], origin, holder, e)];
      refused := None;
    }

    method RenewClaim(id: StepId, holder: string, token: Option<Token>, e: Env) returns (refused: Option<Refusal>)
      requires status == Active
      modifies this
      ensures Performs(OnStep(id, Renew(holder, token)), old(Value()), e, refused, Value())
    {
      if id !in steps || steps[id].status != InProgress { return Some(NotInProgress); }
      if !ClaimIsLive(steps[id], e.now) || steps[id].holder != holder { return Some(NotHolder); }
      if !ClaimPasses(steps[id], token) { return Some(StaleClaim); }
      steps := steps[id := steps[id].(expiresAt := e.now + e.claimSeconds)];
      refused := None;
    }

    method ExpireClaim(id: StepId, operator: string, e: Env) returns (refused: Option<Refusal>)
      requires status == Active
      modifies this
      ensures Performs(OnStep(id, Expire(operator)), old(Value()), e, refused, Value())
    {
      if id !in steps { return Some(UnknownStep); }
      if steps[id].holder == "" { return Some(NobodyHolds); }
      steps := steps[id := steps[id].(expiresAt := e.now)];
      refused := None;
    }

    // --- handing a step back ----------------------------------------------------------------

    method HoldStep(id: StepId, actor: string, token: Option<Token>, evidence: string, kind: HoldKind, cost: int,
                    e: Env)
      returns (refused: Option<Refusal>)
      requires status == Active && evidence in e.disk
      modifies this
      ensures Performs(OnStep(id, Hold(actor, token, evidence, kind, cost)), old(Value()), e, refused, Value())
    {
      refused := MayHandBack(id, actor, token);
      if refused.None? {
        Park(id, evidence, kind, cost, e);
        assert steps ==
          old(steps)[id := Charged(EffectOf(Hold(actor, token, evidence, kind, cost), id, old(Value()), e))];
      }
    }

    method Park(id: StepId, evidence: string, kind: HoldKind, cost: int, e: Env)
      requires id in steps && evidence in e.disk
      modifies this`steps, this`spend
      ensures spend == old(spend) + Amount(cost)
      ensures var sha := e.disk[evidence];
        var held := if kind.OverBudget? then Budget(evidence, sha) else Ungraded(evidence, sha);
        var step := old(steps)[id];
        steps == old(steps)[id := ReleaseClaim(step.(status := AwaitingApproval, held := held,
                                                     spend := step.spend + Amount(cost)))]
    {
      var sha := e.disk[evidence];
      steps := steps[id := steps[id].(status := AwaitingApproval,
                                      held := if kind.OverBudget? then Budget(evidence, sha)
                                              else Ungraded(evidence, sha))];
      Charge(id, cost);
      steps := steps[id := ReleaseClaim(steps[id])];
    }

    method CompleteStep(id: StepId, actor: string, revision: string, token: Option<Token>, evidence: string,
                        cost: int, e: Env)
      returns (refused: Option<Refusal>)
      requires status == Active && evidence in e.disk
      modifies this
      ensures Performs(OnStep(id, Complete(actor, revision, token, evidence, cost)), old(Value()), e, refused, Value())
    {
      hide ReleaseDependents, AllCompleted;
      if revision != origin.revision { return Some(StaleRevision); }
      refused := MayHandBack(id, actor, token);
      if refused.Some? { return; }
      HandIn(id, Submission(evidence, e.disk[evidence], actor), cost);
      assert steps ==
        old(steps)[id := Charged(EffectOf(Complete(actor, revision, token, evidence, cost), id, old(Value()), e))];
      if steps[id].checker.None? {
        FreeDependents();
      }
      refused := None;
    }

    method HandIn(id: StepId, submission: Submission, cost: int)
      requires id in steps
      modifies this`steps, this`spend
      ensures spend == old(spend) + Amount(cost)
      ensures var step := old(steps)[id];
        steps == old(steps)[id := ReleaseClaim(step.(status := if step.checker.Some? then AwaitingCheck else Completed,
                                                     submissions := step.submissions + [submission],
                                                     spend := step.spend + Amount(cost)))]
    {
      steps := steps[id := steps[id].(submissions := steps[id].submissions + [submission])];
      var status := if steps[id].checker.Some? then AwaitingCheck else Completed;
      steps := steps[id := ReleaseClaim(steps[id].(status := status))];
      Charge(id, cost);
    }

    /** Drops the claim and bills what the dispatch cost. */
    method Unclaim(id: StepId, cost: int)
      requires id in steps
      modifies this`steps, this`spend
      ensures spend == old(spend) + Amount(cost)
      ensures var step := old(steps)[id];
        steps == old(steps)[id := ReleaseClaim(step).(spend := step.spend + Amount(cost))]
    {
      steps := steps[id := ReleaseClaim(steps[id])];
      Charge(id, cost);
    }

    method FailStep(id: StepId, actor: string, token: Option<Token>, cost: int, ghost e: Env)
      returns (refused: Option<Refusal>)
      requires status == Active
      modifies this
      ensures Performs(OnStep(id, Fail(actor, token, cost)), old(Value()), e, refused, Value())
    {
      hide ReleaseDependents, AllCompleted, SendChange, CancelChange, Neighbours;
      refused := MayHandBack(id, actor, token);
      if refused.Some? { return; }
      Unclaim(id, cost);
      if steps[id].attempts < steps[id].maxAttempts {
        steps := steps[id := steps[id].(status := Ready)];
      } else {
        steps := steps[id := steps[id].(status := BlockedRetryLimit)];
        status := RunBlockedRetryLimit;
      }
      assert steps == old(steps)[id := Charged(EffectOf(Fail(actor, token, cost), id, old(Value()), e))];
      refused := None;
    }

    method ReleaseStep(id: StepId, actor: string, token: Option<Token>, cost: int, ghost e: Env)
      returns (refused: Option<Refusal>)
      requires status == Active
      modifies this
      ensures Performs(OnStep(id, Release(actor, token, cost)), old(Value()), e, refused, Value())
    {
      hide ReleaseDependents, AllCompleted, SendChange, CancelChange, Neighbours;
      refused := MayHandBack(id, actor, token);
      if refused.Some? { return; }
      GiveBack(id, cost);
      assert steps == old(steps)[id := Charged(EffectOf(Release(actor, token, cost), id, old(Value()), e))];
      refused := None;
    }

    /** Nobody's fault: the attempt is given back and the release counted. */
    method GiveBack(id: StepId, cost: int)
      requires id in steps
      modifies this`steps, this`spend
      ensures spend == old(spend) + Amount(cost)
      ensures var step := old(steps)[id];
        steps == old(steps)[id := ReleaseClaim(step).(
          status := Ready, attempts := if step.attempts > 0 then step.attempts - 1 else 0,
          releases := step.releases + 1,
          spend := step.spend + Amount(cost))]
    {
      Unclaim(id, cost);
      var attempts := if steps[id].attempts > 0 then steps[id].attempts - 1 else 0;
      steps := steps[id := steps[id].(attempts := attempts, releases := steps[id].releases + 1, status := Ready)];
    }

    // --- review -----------------------------------------------------------------------------

    method ApproveCheck(id: StepId, actor: string, message: string, cost: int, e: Env)
      returns (refused: Option<Refusal>)
      requires status == Active
      modifies this
      ensures Performs(OnStep(id, CheckApprove(actor, message, cost)), old(Value()), e, refused, Value())
    {
      hide ReleaseDependents, AllCompleted;
      if id !in steps || steps[id].status != AwaitingCheck { return Some(NotAwaitingCheck); }
      if Some(actor) != steps[id].checker { return Some(NotChecker); }
      refused := SubmissionRefused(steps[id], e);
      if refused.Some? { return; }
      steps := steps[id := steps[id].(status := Completed)];
      refused := MessageRefused(origin.(messages := messages), id, steps[id], message, actor, Decision, e);
      if refused.Some? { return; }
      Charge(id, cost);
      assert steps == old(steps)[id := Charged(EffectOf(CheckApprove(actor, message, cost), id, old(Value()), e))];
      FreeDependents();
    }

    method ReturnCheck(id: StepId, actor: string, message: string, cost: int, e: Env) returns (refused: Option<Refusal>)
      requires status == Active
      modifies this
      ensures Performs(OnStep(id, CheckReturn(actor, message, cost)), old(Value()), e, refused, Value())
    {
      hide CheckRefused, ReleaseDependents, AllCompleted, SendChange;
      if id !in steps { return Some(NotAwaitingCheck); }
      refused := CheckRefused(Value(), id, steps[id], actor, message, Feedback, e);
      if refused.Some? { return; }
      Charge(id, cost);
      if steps[id].reviewCycles >= steps[id].maxReviewCycles {
        steps := steps[id := steps[id].(status := BlockedReviewLimit)];
        status := RunBlockedReviewLimit;
      } else {
        steps := steps[id := steps[id].(reviewCycles := steps[id].reviewCycles + 1, status := Ready)];
      }
      assert steps == old(steps)[id := Charged(EffectOf(CheckReturn(actor, message, cost), id, old(Value()), e))];
    }

    method RejectCheck(id: StepId, actor: string, message: string, cost: int, e: Env) returns (refused: Option<Refusal>)
      requires status == Active
      modifies this
      ensures Performs(OnStep(id, CheckReject(actor, message, cost)), old(Value()), e, refused, Value())
    {
      hide CheckRefused, ReleaseDependents, AllCompleted, SendChange;
      if id !in steps { return Some(NotAwaitingCheck); }
      refused := CheckRefused(Value(), id, steps[id], actor, message, Feedback, e);
      if refused.Some? { return; }
      Charge(id, cost);
      steps := steps[id := steps[id].(status := RejectedByChecker)];
      assert steps == old(steps)[id := Charged(EffectOf(CheckReject(actor, message, cost), id, old(Value()), e))];
      status := RunRejectedByChecker;
    }

    // --- messages, cancellation, and the dispatch -------------------------------------------

    method SendMessage(c: Command, e: Env) returns (refused: Option<Refusal>)
      requires status == Active && c.Send? && Precheck(c, e).None?
      modifies this
      ensures Performs(c, old(Value()), e, refused, Value())
    {
      if FindMessage(messages, c.id).Some? { return Some(DuplicateMessage); }
      if c.about !in steps { return Some(UnknownStep); }
      var pair, current, near := {c.sender, c.receiver}, Parties(steps[c.about]), Neighbours(steps, c.about);
      if !(pair <= current || (pair * current != {} && pair * near != {})) { return Some(NotAdjacent); }
      if c.sender == c.receiver { return Some(SelfMessage); }
      refused := ReplyRefused(messages, c);
      if refused.Some? { return; }
      messages := messages
        + [Message(c.id, c.about, c.sender, c.receiver, c.kind, c.payload, e.disk[c.payload], c.replyTo)];
    }

    method CancelRun(approver: string, reason: string, ghost e: Env) returns (refused: Option<Refusal>)
      requires status == Active && Precheck(Cancel(approver, reason), e).None?
      modifies this
      ensures Performs(Cancel(approver, reason), old(Value()), e, refused, Value())
    {
      hide Precheck, Strip, IsBlank, VerbEffect, SendChange, Commit, EvidencePresent, ReleaseClaim;
      status := RunCancelled;
      var todo := steps.Keys;
      while todo != {}
        invariant todo <= steps.Keys == old(steps).Keys && status == RunCancelled
        invariant spend == old(spend) && ceiling == old(ceiling) && messages == old(messages)
        invariant forall id | id in todo :: steps[id] == old(steps)[id]
        invariant forall id | id in steps && id !in todo :: steps[id] == Unclaimed(old(steps)[id])
        decreases todo
      {
        var id :| id in todo;
        if steps[id].status == InProgress {
          steps := steps[id := ReleaseClaim(steps[id])];
        }
        todo := todo - {id};
      }
      assert steps == CancelChange(old(Value())).steps;
      refused := None;
    }

    /** Runs the closure of any command. */
    method Perform(c: Command, e: Env) returns (refused: Option<Refusal>)
      requires status == Active && Precheck(c, e).None?
      modifies this
      ensures Performs(c, old(Value()), e, refused, Value())
    {
      hide Performs;
      match c
      case Send(_, _, _, _, _, _, _) => refused := SendMessage(c, e);
      case Cancel(approver, reason) => refused := CancelRun(approver, reason, e);
      case OnStep(id, v) =>
        match v
        case Request(actor, holder) => refused := RequestStep(id, actor, holder, e);
        case Approve(approver, approvalRef) => refused := ApproveStep(id, approver, approvalRef, e);
        case Reject(approver, approvalRef) => refused := RejectStep(id, approver, approvalRef, e);
        case Take(actor, holder) => refused := TakeStep(id, actor, holder, e);
        case Renew(holder, token) => refused := RenewClaim(id, holder, token, e);
        case Expire(operator) => refused := ExpireClaim(id, operator, e);
        case Hold(actor, token, evidence, kind, cost) => refused := HoldStep(id, actor, token, evidence, kind, cost, e);
        case Complete(actor, revision, token, evidence, cost) =>
          refused := CompleteStep(id, actor, revision, token, evidence, cost, e);
        case Fail(actor, token, cost) => refused := FailStep(id, actor, token, cost, e);
        case Release(actor, token, cost) => refused := ReleaseStep(id, actor, token, cost, e);
        case CheckApprove(actor, message, cost) => refused := ApproveCheck(id, actor, message, cost, e);
        case CheckReturn(actor, message, cost) => refused := ReturnCheck(id, actor, message, cost, e);
        case CheckReject(actor, message, cost) => refused := RejectCheck(id, actor, message, cost, e);
    }
  }

  /** Freeing steps one by one never changes which dependencies are completed. */
  lemma SameDone(before: Steps, after: Steps, todo: set<StepId>, deps: seq<StepId>)
    requires before.Keys == after.Keys
    requires forall id | id in todo && id in after :: after[id] == before[id]
    requires forall id | id in after && id !in todo :: after[id] == Freed(before, before[id])
    ensures AllDone(after, deps) <==> AllDone(before, deps)
  {
    forall d ensures IsDone(after, d) <==> IsDone(before, d) {
    }
  }
}
