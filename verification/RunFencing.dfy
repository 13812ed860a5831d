/** The fencing rule: claim tokens only ever increase, no two steps share one, a superseded token is
    dead for good, and no accepted event takes a live claim from its holder. */
module RunFencing {
  import opened Outcomes
  import opened Workflows
  import opened RunModel
  import opened RunInvariants
  import opened RunLedger

  function TokenAt(row: Row, id: StepId): Token {
    if id in row.steps then row.steps[id].token else NoToken
  }

  /** The events that mint a token. */
  predicate IsGrant(event: Event) {
    event == StepRequested || event == StepTaken
  }

  /** The events after which the token its step carried is no longer current. */
  predicate EndsToken(event: Event) {
    event == StepTaken || event == StepHeld || event == StepCompleted || event == StepFailed || event == StepReleased
  }

  /** A verb keeps its step's token, mints the next event's, or drops it. */
  lemma VerbToken(v: Verb, id: StepId, step: Step, row: Row, e: Env)
    requires EvidencePresent(v, e) && StepOk(step, row.runId, row.number) && VerbEffect(v, id, step, row, e).Ok?
    ensures var next := VerbEffect(v, id, step, row, e).value.step;
      && (next.token == step.token || next.token == NoToken
          || (next.token == Minted(row.runId, row.number + 1) && IsGrant(EventOf(OnStep(id, v)))))
      && (step.token != NoToken ==> (next.token != step.token <==> EndsToken(EventOf(OnStep(id, v)))))
  {
  }

  /** The token of one step across two neighbouring rows. */
  lemma TokenStep(row: Row, a: Action, id: StepId)
    requires RowOk(row) && Successor(row, a).Some? && id in row.steps
    ensures var next := Successor(row, a).value;
      && (TokenAt(next, id) == TokenAt(row, id) || TokenAt(next, id) == NoToken
          || (TokenAt(next, id) == Minted(row.runId, row.number + 1) && Targets(next, id) && IsGrant(next.event)))
      && (TokenAt(row, id) != NoToken ==>
            (TokenAt(next, id) != TokenAt(row, id) <==>
              next.event == Cancelled || (Targets(next, id) && EndsToken(next.event))))
  {
    hide Successor, VerbEffect, StepOk, GraphOk, PendingIsBlocked, StatusIsForced, MoneyAddsUp, EvidencePresent, Kept;
    var f := Between(row, a, id);
    if ActsOn(row, a, id) {
      StepIsOk(row, id);
      VerbToken(a.command.verb, id, row.steps[id], row, a.env);
    } else {
      TokenElse(row, a, id);
    }
  }

  /** An event about something else drops a claim only by cancelling the run. */
  lemma TokenElse(row: Row, a: Action, id: StepId)
    requires RowOk(row) && Successor(row, a).Some? && id in row.steps && !ActsOn(row, a, id)
    ensures var next := Successor(row, a).value;
      id in next.steps && next.steps[id].token == if next.event == Cancelled then NoToken else row.steps[id].token
  {
    hide Successor, VerbEffect, StepOk, GraphOk, PendingIsBlocked, StatusIsForced, MoneyAddsUp, EvidencePresent;
    hide StepsAfter, Stamped, Commit, Charged;
    if a.Ask? && row.cycleCount < row.maxCycles && a.command.OnStep? {
      var k, f := StepSuccessor(row, a);
      StepAfter(row.steps, k, f, id);
      TokenMeansOut(row, id);
    } else if a.Ask? && row.cycleCount < row.maxCycles && a.command.Cancel? {
      CancelSuccessor(row, a);
      TokenMeansOut(row, id);
    } else {
      IdleSuccessor(row, a);
    }
  }

  lemma TokenMeansOut(row: Row, id: StepId)
    requires RowOk(row) && id in row.steps
    ensures row.steps[id].token != NoToken ==> row.steps[id].status == InProgress
  {
    StepIsOk(row, id);
  }

  lemma NeighbourToken(log: Log, i: nat, id: StepId)
    requires log != [] && Reached(log) && 0 < i < |log|
    ensures
      || TokenAt(log[i], id) == TokenAt(log[i - 1], id)
      || TokenAt(log[i], id) == NoToken
      || (TokenAt(log[i], id) == Minted(log[i].runId, i + 1) && Targets(log[i], id) && IsGrant(log[i].event))
    ensures TokenAt(log[i - 1], id) != NoToken ==>
      (TokenAt(log[i], id) != TokenAt(log[i - 1], id) <==>
       log[i].event == Cancelled || (Targets(log[i], id) && EndsToken(log[i].event)))
    ensures log[i].runId == log[i - 1].runId
  {
    hide Reached, RowOk, Successor, Targets, EndsToken, IsGrant;
    var a := NeighbourAction(log, i);
    RowStamp(log[i - 1], a);
    RowNumber(log, i);
    if id in log[i - 1].steps {
      TokenStep(log[i - 1], a, id);
    }
  }

  lemma RowNumber(log: Log, i: nat)
    requires log != [] && Reached(log) && i < |log|
    ensures log[i].number == i + 1
  {
    hide Reached;
    PrefixIsReached(log, i + 1);
    LogIsMetered(log[..i + 1]);
  }

  /** Every token names the event that granted it: a request or a takeover of this very step, and the
      token has been that step's since. */
  lemma {:induction false} TokenOrigin(log: Log, i: nat, id: StepId)
    requires log != [] && Reached(log) && i < |log| && TokenAt(log[i], id) != NoToken
    ensures TokenAt(log[i], id).Minted? && 1 < TokenAt(log[i], id).at <= i + 1
    ensures var grant := log[TokenAt(log[i], id).at - 1];
      Targets(grant, id) && IsGrant(grant.event) && TokenAt(grant, id) == TokenAt(log[i], id)
  {
    hide Reached, Targets, EndsToken, IsGrant;
    if i == 0 {
      FirstRow(log, id);
    } else {
      NeighbourToken(log, i, id);
      if TokenAt(log[i], id) == TokenAt(log[i - 1], id) {
        TokenOrigin(log, i - 1, id);
      }
    }
  }

  /** Tokens only ever increase: one newly minted is later than any token any step carried before. */
  lemma TokensIncrease(log: Log, i: nat, a: StepId, j: nat, b: StepId)
    requires log != [] && Reached(log) && i < j < |log| && TokenAt(log[i], a) != NoToken
    requires TokenAt(log[j], b) != NoToken && TokenAt(log[j], b) != TokenAt(log[j - 1], b)
    ensures TokenAt(log[i], a).Minted? && TokenAt(log[j], b).Minted? && TokenAt(log[i], a).at < TokenAt(log[j], b).at
  {
    hide Reached;
    TokenOrigin(log, i, a);
    NeighbourToken(log, j, b);
  }

  /** A token stands until its step is taken over or handed back, or the run is cancelled, and no longer;
      in particular neither time nor an operator's expiry ends it. */
  lemma TokenEnds(log: Log, i: nat, id: StepId)
    requires log != [] && Reached(log) && 0 < i < |log| && TokenAt(log[i - 1], id) != NoToken
    ensures TokenAt(log[i], id) != TokenAt(log[i - 1], id) <==>
      log[i].event == Cancelled || (Targets(log[i], id) && EndsToken(log[i].event))
    ensures log[i].event == ClaimExpired ==> TokenAt(log[i], id) == TokenAt(log[i - 1], id)
  {
    hide Reached;
    NeighbourToken(log, i, id);
  }

  /** No two steps ever carry the same token, in the same state or in different ones. */
  lemma TokensAreUnique(log: Log, i: nat, a: StepId, j: nat, b: StepId)
    requires log != [] && Reached(log) && i < |log| && j < |log|
    requires TokenAt(log[i], a) != NoToken && TokenAt(log[i], a) == TokenAt(log[j], b)
    ensures a == b
  {
    hide Reached;
    TokenOrigin(log, i, a);
    TokenOrigin(log, j, b);
  }

  /** Once a step's token is superseded or released it is never current again. */
  lemma {:induction false} DeadTokensStayDead(log: Log, i: nat, j: nat, k: nat, id: StepId)
    requires log != [] && Reached(log) && i < j <= k < |log|
    requires TokenAt(log[i], id) != NoToken && TokenAt(log[j], id) != TokenAt(log[i], id)
    ensures TokenAt(log[k], id) != TokenAt(log[i], id)
    decreases k
  {
    hide Reached;
    TokenOrigin(log, i, id);
    if j < k {
      DeadTokensStayDead(log, i, j, k - 1, id);
      NeighbourToken(log, k, id);
    }
  }

  /** The token a verb hands back, if it hands one back. */
  function Supplied(v: Verb): Option<Token> {
    match v
    case Renew(_, token) => token
    case Hold(_, token, _, _, _) => token
    case Complete(_, _, token, _, _) => token
    case Fail(_, token, _) => token
    case Release(_, token, _) => token
    case _ => None
  }

  lemma WrongTokenIsRefused(v: Verb, id: StepId, step: Step, row: Row, e: Env)
    requires EvidencePresent(v, e) && Supplied(v).Some? && Supplied(v).value != step.token
    ensures VerbEffect(v, id, step, row, e).Err?
  {
  }

  /** The fence: a complete, fail, hold, release or renew that carries a dead token is never applied,
      at any later point of the run, under any request id. */
  lemma StaleHolderIsFenced(log: Log, i: nat, j: nat, id: StepId, v: Verb, rid: string, e: Env)
    requires log != [] && Reached(log) && i < j < |log|
    requires TokenAt(log[i], id) != NoToken && TokenAt(log[j], id) != TokenAt(log[i], id)
    requires Supplied(v) == Some(TokenAt(log[i], id))
    ensures !Mutate(log, rid, OnStep(id, v), e).Applied?
  {
    hide Reached, VerbEffect;
    DeadTokensStayDead(log, i, j, |log| - 1, id);
    var row := Last(log);
    if id in row.steps && EvidencePresent(v, e) {
      WrongTokenIsRefused(v, id, row.steps[id], row, e);
    }
  }

  predicate IsHandBack(v: Verb) {
    v.Hold? || v.Complete? || v.Fail? || v.Release?
  }

  /** Who may hand a step back, exactly: with a minted token, whoever has the one that is current; without
      one, anybody in the owner's name while the step is in progress. Neither asks for the time, so the
      holder of an expired claim is not fenced, and nor is a caller who never held one. */
  lemma HandBackIsAccepted(log: Log, rid: string, id: StepId, v: Verb, e: Env)
    requires log != [] && Reached(log) && Last(log).status == Active && Last(log).cycleCount < Last(log).maxCycles
    requires Prior(log, rid).None? && id in Last(log).steps && IsHandBack(v) && EvidencePresent(v, e)
    requires v.actor == Last(log).steps[id].owner && (v.Complete? ==> v.revision == Last(log).revision)
    ensures Supplied(v).None? ==>
      (Mutate(log, rid, OnStep(id, v), e).Applied? <==> Last(log).steps[id].status == InProgress)
    ensures Supplied(v).Some? && Supplied(v).value.Minted? ==>
      (Mutate(log, rid, OnStep(id, v), e).Applied? <==> Last(log).steps[id].token == Supplied(v).value)
  {
    hide Reached, VerbEffect, Commit, StepOk;
    StepIsOkAt(log, |log| - 1, id);
    HandBackEffect(v, id, Last(log).steps[id], Last(log), e);
  }

  lemma HandBackEffect(v: Verb, id: StepId, step: Step, row: Row, e: Env)
    requires IsHandBack(v) && EvidencePresent(v, e) && v.actor == step.owner && StepOk(step, row.runId, row.number)
    ensures Supplied(v).None? ==> (VerbEffect(v, id, step, row, e).Ok? <==> step.status == InProgress)
    ensures Supplied(v).Some? && Supplied(v).value.Minted? ==>
      (VerbEffect(v, id, step, row, e).Ok? <==> step.token == Supplied(v).value)
  {
  }

  lemma VerbKeepsLiveHolder(v: Verb, id: StepId, step: Step, row: Row, e: Env)
    requires EvidencePresent(v, e) && StepOk(step, row.runId, row.number)
    requires VerbEffect(v, id, step, row, e).Ok? && ClaimIsLive(step, e.now)
    ensures var next := VerbEffect(v, id, step, row, e).value.step;
      next.token == NoToken || next.holder == step.holder
  {
  }

  /** No event displaces a live holder: whoever holds a claim that is live when an event happens
      still holds the step after it, or nobody does. */
  lemma LiveClaimIsNeverTaken(log: Log, i: nat, id: StepId)
    requires log != [] && Reached(log) && 0 < i < |log| && id in log[i - 1].steps
    requires ClaimIsLive(log[i - 1].steps[id], log[i].ts)
    ensures id in log[i].steps
    ensures log[i].steps[id].token == NoToken || log[i].steps[id].holder == log[i - 1].steps[id].holder
  {
    hide Reached, RowOk, Successor, NextRow;
    var a := NeighbourAction(log, i);
    RowStamp(log[i - 1], a);
    HolderBetween(log[i - 1], a, id);
  }

  lemma HolderBetween(row: Row, a: Action, id: StepId)
    requires RowOk(row) && Successor(row, a).Some? && id in row.steps && ClaimIsLive(row.steps[id], a.env.now)
    ensures var next := Successor(row, a).value;
      id in next.steps && (next.steps[id].token == NoToken || next.steps[id].holder == row.steps[id].holder)
  {
    hide RowOk, Successor, VerbEffect, StepOk, EvidencePresent, Fits;
    var f := Between(row, a, id);
    if ActsOn(row, a, id) {
      StepIsOk(row, id);
      VerbKeepsLiveHolder(a.command.verb, id, row.steps[id], row, a.env);
    }
  }

  // --- leases -------------------------------------------------------------------------------

  predicate SetsLease(event: Event) {
    event == StepRequested || event == StepTaken || event == ClaimRenewed || event == ClaimExpired
  }

  predicate SameLease(a: Step, b: Step) {
    a.holder == b.holder && a.token == b.token && a.expiresAt == b.expiresAt
  }

  /** What a verb does to the lease of a step that still carries a token afterwards. */
  lemma VerbLease(v: Verb, id: StepId, step: Step, row: Row, e: Env)
    requires EvidencePresent(v, e) && StepOk(step, row.runId, row.number)
    requires VerbEffect(v, id, step, row, e).Ok? && VerbEffect(v, id, step, row, e).value.step.token != NoToken
    ensures var next := VerbEffect(v, id, step, row, e).value.step;
      && (SetsLease(EventOf(OnStep(id, v))) || SameLease(step, next))
      && (v.Request? || v.Take? ==>
            next.token == Minted(row.runId, row.number + 1) && next.expiresAt == e.now + e.claimSeconds)
      && (v.Renew? ==>
            && next.token == step.token && next.holder == step.holder == v.renewer
            && next.expiresAt == e.now + e.claimSeconds)
      && (v.Expire? ==> next.token == step.token && next.holder == step.holder && next.expiresAt == e.now)
  {
  }

  ghost predicate LeaseIsSince(log: Log, k: nat, i: nat, id: StepId) {
    && k <= i < |log|
    && forall j | k <= j <= i ::
      id in log[j].steps && id in log[i].steps && SameLease(log[j].steps[id], log[i].steps[id])
  }

  /** The lease of a claimed step was set by its grant, a takeover, a renewal by its own holder or an
      operator's expiry, and has stood unchanged since. A grant or takeover minted the very token that is
      current; a renewal and an expiry left the token as it was, and after an expiry the claim is no
      longer live. */
  lemma {:induction false} LeaseOrigin(log: Log, i: nat, id: StepId) returns (k: nat)
    requires log != [] && Reached(log) && i < |log| && TokenAt(log[i], id) != NoToken
    ensures 0 < k && LeaseIsSince(log, k, i, id) && Targets(log[k], id) && SetsLease(log[k].event)
    ensures IsGrant(log[k].event) ==> TokenAt(log[i], id) == Minted(log[k].runId, k + 1)
    ensures !IsGrant(log[k].event) ==> TokenAt(log[k - 1], id) == TokenAt(log[i], id)
    ensures log[k].event == ClaimRenewed ==> log[k].actor == log[i].steps[id].holder
    ensures log[k].event == ClaimExpired ==> !ClaimIsLive(log[i].steps[id], log[k].ts)
  {
    hide Reached;
    if i == 0 {
      FirstRow(log, id);
    }
    LeaseStep(log, i, id);
    if Targets(log[i], id) && SetsLease(log[i].event) {
      k := i;
      SameLeaseAlways(log[i].steps[id]);
    } else {
      k := LeaseOrigin(log, i - 1, id);
      LeaseGoesOn(log, k, i, id);
    }
  }

  lemma SameLeaseAlways(step: Step)
    ensures SameLease(step, step)
  {
  }

  lemma LeaseGoesOn(log: Log, k: nat, i: nat, id: StepId)
    requires 0 < i < |log| && LeaseIsSince(log, k, i - 1, id) && id in log[i].steps
    requires SameLease(log[i - 1].steps[id], log[i].steps[id])
    ensures LeaseIsSince(log, k, i, id)
  {
  }

  /** One row on: a step that still carries a token has a lease its own event set, or the same as before. */
  predicate LeaseMoves(p: Row, q: Row, id: StepId) {
    && id in p.steps && id in q.steps
    && var x, y := p.steps[id], q.steps[id];
    if Targets(q, id) && SetsLease(q.event) then
      && (if IsGrant(q.event) then y.token == Minted(q.runId, q.number) else x.token == y.token)
      && (q.event == ClaimRenewed ==> q.actor == y.holder)
      && (q.event == ClaimExpired ==> !ClaimIsLive(y, q.ts))
    else SameLease(x, y)
  }

  lemma LeaseStep(log: Log, i: nat, id: StepId)
    requires log != [] && Reached(log) && 0 < i < |log| && TokenAt(log[i], id) != NoToken
    ensures LeaseMoves(log[i - 1], log[i], id) && log[i].number == i + 1
  {
    hide Reached, RowOk, Successor, NextRow, LeaseMoves;
    var a := NeighbourAction(log, i);
    RowNumber(log, i);
    SameKeys(log[i - 1].steps, log[i].steps, id);
    LeaseBetween(log[i - 1], a, id);
  }

  lemma LeaseBetween(row: Row, a: Action, id: StepId)
    requires RowOk(row) && Successor(row, a).Some? && id in row.steps && TokenAt(Successor(row, a).value, id) != NoToken
    ensures LeaseMoves(row, Successor(row, a).value, id)
  {
    hide RowOk, Successor, VerbEffect, StepOk, EvidencePresent, Fits;
    var f := Between(row, a, id);
    RowStamp(row, a);
    if ActsOn(row, a, id) {
      StepIsOk(row, id);
      VerbLease(a.command.verb, id, row.steps[id], row, a.env);
    } else {
      KeptLease(row.steps[id], Successor(row, a).value.steps[id]);
    }
  }

  lemma KeptLease(p: Step, q: Step)
    requires Kept(p, q) && q.token != NoToken
    ensures SameLease(p, q)
  {
  }

  lemma SameKeys(a: Steps, b: Steps, id: StepId)
    requires SameShapes(a, b) && id in b
    ensures id in a
  {
  }
}
