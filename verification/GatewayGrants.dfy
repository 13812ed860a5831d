/** What a person has to do with what leaves: every spent approval was granted, to this very action, by a decision
    of somebody else, and was spent before it ran out; and a decision counts exactly when it may be made. */
module GatewayGrants {
  import opened Outcomes
  import opened GatewayModel
  import opened GatewaySafety

  /** At step `j` of the history somebody granted the approval, who had not asked for it, while it was pending and
      had not run out. */
  ghost predicate WasGranted(steps: seq<Step>, id: string, j: nat) {
    && j < |steps| && steps[j].Decide? && steps[j].id == id && steps[j].approve
    && var w := Play(EMPTY, steps[..j]);
    && id in w.db.approvals
    && var a := w.db.approvals[id];
    && a.status == Pending && a.action == steps[j].action && a.requester != steps[j].actor && a.expires > w.now
  }

  /** At step `p` it was spent: it stood granted and had not run out, and a caller past its look, or a rehearsal of
      an admitted action, asked for exactly its action. */
  ghost predicate WasSpent(steps: seq<Step>, id: string, p: nat) {
    && p < |steps|
    && var w := Play(EMPTY, steps[..p]);
    && id in w.db.approvals && w.db.approvals[id].status == Approved && w.db.approvals[id].expires > w.now
    && match steps[p]
       case Spend(c, _) =>
         c in w.callers && w.callers[c].place == Spending && w.callers[c].call.approval == id
         && w.callers[c].call.action == w.db.approvals[id].action
       case RunFixture(call, _, _) =>
         call.approval == id && call.action == w.db.approvals[id].action
         && (call.action.connector, call.action.action) in w.fixtures
       case _ => false
  }

  /** How an approval comes to stand as it does. */
  lemma ApprovalStep(w: World, step: Step, id: string)
    requires id in Do(w, step).db.approvals
    ensures var a := Do(w, step).db.approvals[id];
      || (id in w.db.approvals && w.db.approvals[id] == a)
      || (id !in w.db.approvals && a.status == Pending)
      || (&& step.Decide? && step.id == id && id in w.db.approvals && w.db.approvals[id].status == Pending
          && w.db.approvals[id].action == step.action && w.db.approvals[id].requester != step.actor
          && w.db.approvals[id].expires > w.now
          && a == w.db.approvals[id].(status := if step.approve then Approved else Rejected,
                                      decider := Some(step.actor)))
      || (&& id in w.db.approvals && w.db.approvals[id].status == Approved && w.db.approvals[id].expires > w.now
          && a == w.db.approvals[id].(status := Consumed)
          && match step
             case Spend(c, _) =>
               c in w.callers && w.callers[c].place == Spending && w.callers[c].call.approval == id
               && w.callers[c].call.action == a.action
             case RunFixture(call, _, _) =>
               call.approval == id && call.action == a.action
               && (call.action.connector, call.action.action) in w.fixtures
             case _ => false)
  {
    hide FindReceipt, SpendName, Classify, NoteOf;
  }

  /** Granted first, by a person other than its requester. */
  lemma {:induction false} GrantedOnce(steps: seq<Step>, id: string) returns (j: nat)
    requires var db := Play(EMPTY, steps).db;
      id in db.approvals && (db.approvals[id].status == Approved || db.approvals[id].status == Consumed)
    ensures WasGranted(steps, id, j) && Play(EMPTY, steps).db.approvals[id].decider == Some(steps[j].actor)
    decreases |steps|
  {
    hide Do;
    var before := Play(EMPTY, Front(steps));
    ApprovalStep(before, Last(steps), id);
    if id in before.db.approvals && before.db.approvals[id].status in {Approved, Consumed} {
      j := GrantedOnce(Front(steps), id);
      assert steps[..j] == Front(steps)[..j];
    } else {
      j := |steps| - 1;
      assert steps[..j] == Front(steps);
    }
  }

  /** A spent approval was granted and then spent, in that order. */
  lemma {:induction false} GrantedThenSpent(steps: seq<Step>, id: string) returns (j: nat, p: nat)
    requires id in Play(EMPTY, steps).db.approvals && Play(EMPTY, steps).db.approvals[id].status == Consumed
    ensures j < p && WasGranted(steps, id, j) && WasSpent(steps, id, p)
    decreases |steps|
  {
    hide Do;
    var before := Play(EMPTY, Front(steps));
    ApprovalStep(before, Last(steps), id);
    if id in before.db.approvals && before.db.approvals[id].status == Consumed {
      j, p := GrantedThenSpent(Front(steps), id);
      assert steps[..j] == Front(steps)[..j] && steps[..p] == Front(steps)[..p];
    } else {
      j := GrantedOnce(Front(steps), id);
      p := |steps| - 1;
      assert steps[..j] == Front(steps)[..j] && steps[..p] == Front(steps);
    }
  }

  /** Nothing leaves that a person did not grant: before every send of any history its approval was granted, by
      somebody else than asked for it, and spent in time. */
  lemma EverySendWasGranted(steps: seq<Step>, i: nat) returns (j: nat, p: nat)
    requires i < |Play(EMPTY, steps).sent|
    ensures var approval := Play(EMPTY, steps).sent[i].call.approval;
      j < p && WasGranted(steps, approval, j) && WasSpent(steps, approval, p)
  {
    hide Do, Play, WasGranted, WasSpent;
    var k := EverySendIsCovered(steps, i);
    var approval := Play(EMPTY, steps).sent[i].call.approval;
    j, p := GrantedThenSpent(steps[..k], approval);
    Earlier(steps, k, approval, j, p);
  }

  lemma Earlier(steps: seq<Step>, k: nat, id: string, j: nat, p: nat)
    requires k <= |steps| && WasGranted(steps[..k], id, j) && WasSpent(steps[..k], id, p)
    ensures WasGranted(steps, id, j) && WasSpent(steps, id, p)
  {
    hide Do, Play;
    assert steps[..k][..j] == steps[..j] && steps[..k][..p] == steps[..p];
  }

  // --- how a call comes to send -------------------------------------------------------------

  /** At step `b` the caller made this call, of an action authorized then and with the payload that was approved. */
  predicate HasBegun(steps: seq<Step>, c: nat, call: Call, b: nat) {
    && b < |steps| && steps[b] == Begin(c, call)
    && (call.action.connector, call.action.action) in Play(EMPTY, steps[..b]).live
    && call.bodySha == call.action.payloadSha
  }

  /** At step `l` the caller had its secret and found nothing on record under its key. */
  predicate HasLooked(steps: seq<Step>, c: nat, call: Call, l: nat) {
    l < |steps| && steps[l] == Look(c, true) && FindReceipt(Play(EMPTY, steps[..l]).db, call.ReceiptKey()).None?
  }

  lemma CallerStep(w: World, step: Step, c: nat)
    requires c in Do(w, step).callers && Do(w, step).callers[c].place != Over
    ensures var call := Do(w, step).callers[c].call;
      if c !in w.callers then
        && step == Begin(c, call) && Do(w, step).callers[c].place == Looking
        && (call.action.connector, call.action.action) in w.live && call.bodySha == call.action.payloadSha
      else
        && w.callers[c].call == call && w.callers[c].place != Over
        && (w.callers[c].place == Looking && Do(w, step).callers[c].place != Looking ==>
              step == Look(c, true) && FindReceipt(w.db, call.ReceiptKey()).None?)
  {
    hide Consume, Settle, Classify, NoteOf, CreateApproval, DecideApproval, Operate, FindReceipt;
  }

  lemma {:induction false} CallerBegan(steps: seq<Step>, c: nat) returns (b: nat)
    requires c in Play(EMPTY, steps).callers && Play(EMPTY, steps).callers[c].place != Over
    ensures HasBegun(steps, c, Play(EMPTY, steps).callers[c].call, b)
    decreases |steps|
  {
    hide Do;
    var before := Play(EMPTY, Front(steps));
    CallerStep(before, Last(steps), c);
    if c in before.callers {
      b := CallerBegan(Front(steps), c);
      assert steps[..b] == Front(steps)[..b];
    } else {
      b := |steps| - 1;
      assert steps[..b] == Front(steps);
    }
  }

  lemma {:induction false} CallerLooked(steps: seq<Step>, c: nat) returns (b: nat, l: nat)
    requires c in Play(EMPTY, steps).callers
    requires Play(EMPTY, steps).callers[c].place != Over && Play(EMPTY, steps).callers[c].place != Looking
    ensures var call := Play(EMPTY, steps).callers[c].call;
      b < l && HasBegun(steps, c, call, b) && HasLooked(steps, c, call, l)
    decreases |steps|
  {
    hide Do;
    var before := Play(EMPTY, Front(steps));
    CallerStep(before, Last(steps), c);
    if before.callers[c].place == Looking {
      b := CallerBegan(Front(steps), c);
      l := |steps| - 1;
      assert steps[..b] == Front(steps)[..b] && steps[..l] == Front(steps);
    } else {
      b, l := CallerLooked(Front(steps), c);
      assert steps[..b] == Front(steps)[..b] && steps[..l] == Front(steps)[..l];
    }
  }

  lemma {:induction false} SendStep(steps: seq<Step>, i: nat) returns (k: nat)
    requires i < |Play(EMPTY, steps).sent|
    ensures k < |steps| && steps[k].Send? && steps[k].caller in Play(EMPTY, steps[..k]).callers
    ensures var caller := Play(EMPTY, steps[..k]).callers[steps[k].caller];
      caller.place.Sending? && caller.call == Play(EMPTY, steps).sent[i].call
    decreases |steps|
  {
    var before := Play(EMPTY, Front(steps));
    SentBy(before, Last(steps));
    hide Do;
    if i < |before.sent| {
      k := SendStep(Front(steps), i);
      assert steps[..k] == Front(steps)[..k];
    } else {
      k := |steps| - 1;
      assert steps[..k] == Front(steps);
    }
  }

  lemma SentBy(w: World, step: Step)
    ensures w.sent <= Do(w, step).sent
    ensures Do(w, step).sent != w.sent ==>
      && step.Send? && step.caller in w.callers && w.callers[step.caller].place.Sending?
      && |Do(w, step).sent| == |w.sent| + 1 && Last(Do(w, step).sent).call == w.callers[step.caller].call
  {
    hide Consume, Settle, Classify, NoteOf, CreateApproval, DecideApproval, Operate, FindReceipt;
  }

  /** Nothing leaves but a call that was admitted as it began, with the approved payload, and that had its secret
      and found its key unused as it looked. */
  lemma EverySendWasAdmitted(steps: seq<Step>, i: nat) returns (c: nat, b: nat, l: nat)
    requires i < |Play(EMPTY, steps).sent|
    ensures var call := Play(EMPTY, steps).sent[i].call;
      b < l && HasBegun(steps, c, call, b) && HasLooked(steps, c, call, l)
  {
    hide Do, Play;
    var k := SendStep(steps, i);
    c := steps[k].caller;
    b, l := CallerLooked(steps[..k], c);
    assert steps[..k][..b] == steps[..b] && steps[..k][..l] == steps[..l];
  }

  // --- decisions ----------------------------------------------------------------------------

  /** A refusal is final: nothing ever leaves under an approval that was refused. */
  lemma RefusedNeverSends(before: seq<Step>, refusal: Step, after: seq<Step>)
    requires refusal.Decide? && !refusal.approve && Do(Play(EMPTY, before), refusal).db != Play(EMPTY, before).db
    ensures forall s | s in Play(EMPTY, before + [refusal] + after).sent :: s.call.approval != refusal.id
  {
    assert Front(before + [refusal]) == before;
    ApprovalStep(Play(EMPTY, before), refusal, refusal.id);
    RefusedStays(EMPTY, before + [refusal], after, refusal.id);
    var w := Play(EMPTY, before + [refusal] + after);
    PlayIsOk(EMPTY, before + [refusal] + after);
    forall s | s in w.sent ensures s.call.approval != refusal.id {
      SentIsSpent(w, s);
    }
  }

  lemma {:induction false} RefusedStays(w: World, steps: seq<Step>, more: seq<Step>, id: string)
    requires id in Play(w, steps).db.approvals && Play(w, steps).db.approvals[id].status == Rejected
    ensures id in Play(w, steps + more).db.approvals && Play(w, steps + more).db.approvals[id].status == Rejected
  {
    hide Do;
    if more == [] {
      assert steps + more == steps;
    } else {
      RefusedStays(w, steps, Front(more), id);
      assert Front(steps + more) == steps + Front(more);
      ApprovalsStay(Play(w, steps + Front(more)), Last(more), id);
      ApprovalStep(Play(w, steps + Front(more)), Last(more), id);
    }
  }

  lemma ApprovalsStay(w: World, step: Step, id: string)
    requires id in w.db.approvals
    ensures id in Do(w, step).db.approvals
  {
    hide FindReceipt, SpendName, Classify, NoteOf;
  }

  lemma SentIsSpent(w: World, s: Sent)
    requires WorldOk(w) && s in w.sent
    ensures s.call.approval in w.db.approvals && w.db.approvals[s.call.approval].status == Consumed
  {
    hide IndexOk;
    var i: nat :| i < |w.sent| && w.sent[i] == s;
    assert Owns(w.db, w.sent[i].call, w.sent[i].receipt);
    assert SpentOk(w.db, SpendName(s.call.ReceiptKey()));
  }

  /** A decision counts exactly when somebody else than the requester makes it, of a pending approval that has not
      run out, about exactly its action, under a name of its own. */
  lemma DecisionLaw(w: World, id: string, actor: string, action: Action, approve: bool, rid: string)
    ensures DecideApproval(w.db, w.now, id, actor, action, approve, rid).Ok? <==>
      && id in w.db.approvals && rid !in w.db.events
      && var a := w.db.approvals[id];
         a.status == Pending && a.requester != actor && a.action == action && a.expires > w.now
    ensures Do(w, Decide(id, actor, action, approve, rid)).db != w.db ==>
      var next := Do(w, Decide(id, actor, action, approve, rid));
      id in next.db.approvals && next.db.approvals[id].status == if approve then Approved else Rejected
  {
  }
}
