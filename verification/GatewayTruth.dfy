/** What a settled receipt says is what happened out there. */
module GatewayTruth {
  import opened Outcomes
  import opened GatewayModel
  import opened GatewaySafety

  ghost predicate WasAnswered(sent: seq<Sent>, id: string, answer: Answer) {
    exists i :: 0 <= i < |sent| && sent[i].receipt == id && sent[i].answer == answer
  }

  predicate NeverSent(sent: seq<Sent>, id: string) {
    forall i | 0 <= i < |sent| :: sent[i].receipt != id
  }

  /** The receipt's status is the provider's answer, or a failure of a request that never left. */
  ghost predicate IsExplained(w: World, id: string)
    requires id in w.db.receipts
  {
    || (NeverSent(w.sent, id) && w.db.receipts[id].status == Failed)
    || (exists answer ::
          && WasAnswered(w.sent, id, answer)
          && w.db.receipts[id].status == Classify(answer)
          && w.db.receipts[id].note == NoteOf(answer))
  }

  ghost predicate AnswerIsTrue(w: World, c: nat)
    requires c in w.callers
  {
    w.callers[c].place.Settling? ==>
      var id, answer := w.callers[c].place.receipt, w.callers[c].place.answer;
      if answer.NeverLeft? then NeverSent(w.sent, id) else WasAnswered(w.sent, id, answer)
  }

  ghost predicate IsHonest(w: World) {
    && (forall c | c in w.callers :: AnswerIsTrue(w, c))
    && (forall id | id in w.db.settled && id in w.db.receipts :: IsExplained(w, id))
  }

  lemma AnswersAdd(sent: seq<Sent>, more: seq<Sent>, id: string)
    requires sent <= more && forall s | s in more[|sent|..] :: s.receipt != id
    ensures NeverSent(sent, id) ==> NeverSent(more, id)
    ensures forall answer :: WasAnswered(sent, id, answer) ==> WasAnswered(more, id, answer)
  {
    forall i | |sent| <= i < |more| ensures more[i].receipt != id {
      assert more[i] in more[|sent|..];
    }
    forall answer | WasAnswered(sent, id, answer) ensures WasAnswered(more, id, answer) {
      var i :| 0 <= i < |sent| && sent[i].receipt == id && sent[i].answer == answer;
      assert more[i] == sent[i];
    }
  }

  /** A receipt that was settled before a step is explained after it. */
  lemma SettledStaysExplained(w: World, step: Step, id: string)
    requires WorldOk(w) && IsHonest(w) && id in w.db.settled && id in w.db.receipts
    ensures id in Do(w, step).db.receipts && IsExplained(Do(w, step), id)
  {
    hide Do, DbOk, SentOk;
    DoGrows(w, step);
    OnlyHoldersSend(w, step);
    forall s | s in Do(w, step).sent[|w.sent|..] ensures s.receipt != id {
      assert CallerOk(w, step.caller);
    }
    assert IsExplained(w, id);
    AnswersAdd(w.sent, Do(w, step).sent, id);
  }

  /** A caller about to settle keeps its answer through everyone else's steps. */
  lemma AnswerStaysTrue(w: World, step: Step, c: nat)
    requires WorldOk(w) && IsHonest(w) && c in w.callers && c in Do(w, step).callers
    requires w.callers[c].place.Settling? && Do(w, step).callers[c] == w.callers[c]
    ensures AnswerIsTrue(Do(w, step), c)
  {
    hide Do, DbOk, SentOk;
    var id := w.callers[c].place.receipt;
    OnlyHoldersSend(w, step);
    assert CallerOk(w, c) && AnswerIsTrue(w, c);
    forall s | s in Do(w, step).sent[|w.sent|..] ensures s.receipt != id {
      if s.receipt == id {
        SenderIsNotSettling(w, step);
      }
    }
    AnswersAdd(w.sent, Do(w, step).sent, id);
  }

  lemma SenderIsNotSettling(w: World, step: Step)
    ensures step.Send? && |Do(w, step).sent| > |w.sent| ==>
      step.caller in w.callers && !w.callers[step.caller].place.Settling?
  {
  }

  /** The sender itself learns the answer that is on record. */
  lemma SenderKnows(w: World, step: Step, c: nat)
    requires WorldOk(w) && c in Do(w, step).callers && Do(w, step).callers[c].place.Settling?
    requires c !in w.callers || Do(w, step).callers[c] != w.callers[c]
    ensures AnswerIsTrue(Do(w, step), c)
  {
    hide DbOk, Owns, IsFinal, Consume;
    var next := Do(w, step);
    assert step.Send? && step.caller == c;
    assert CallerOk(w, c);
    var id, answer := next.callers[c].place.receipt, next.callers[c].place.answer;
    if !answer.NeverLeft? {
      assert next.sent[|w.sent|].receipt == id && next.sent[|w.sent|].answer == answer;
    }
  }

  lemma ClosingExplains(w: World, step: Step, id: string)
    requires WorldOk(w) && IsHonest(w) && id in Do(w, step).db.settled && id !in w.db.settled
    requires id in Do(w, step).db.receipts
    ensures IsExplained(Do(w, step), id)
  {
    hide DbOk, Do;
    CloserHolds(w, step, id);
    assert AnswerIsTrue(w, step.caller);
  }

  lemma CloserHolds(w: World, step: Step, id: string)
    requires id in Do(w, step).db.settled && id !in w.db.settled
    ensures step.Close? && step.caller in w.callers && w.callers[step.caller].place.Settling?
    ensures w.callers[step.caller].place.receipt == id && id in Do(w, step).db.receipts
    ensures Do(w, step).db.receipts[id].status == Classify(w.callers[step.caller].place.answer)
    ensures Do(w, step).db.receipts[id].note == NoteOf(w.callers[step.caller].place.answer)
    ensures Do(w, step).sent == w.sent
  {
  }

  lemma DoKeepsHonest(w: World, step: Step)
    requires WorldOk(w) && IsHonest(w)
    ensures IsHonest(Do(w, step))
  {
    hide Do, WorldOk, IsExplained, AnswerIsTrue;
    var next := Do(w, step);
    forall c | c in next.callers ensures AnswerIsTrue(next, c) {
      if !next.callers[c].place.Settling? {
        NothingToAnswer(next, c);
      } else if c in w.callers && next.callers[c] == w.callers[c] {
        AnswerStaysTrue(w, step, c);
      } else {
        SenderKnows(w, step, c);
      }
    }
    forall id | id in next.db.settled && id in next.db.receipts ensures IsExplained(next, id) {
      if id in w.db.settled {
        SettledIsThere(w, id);
        SettledStaysExplained(w, step, id);
      } else {
        ClosingExplains(w, step, id);
      }
    }
  }

  lemma NothingToAnswer(w: World, c: nat)
    requires c in w.callers && !w.callers[c].place.Settling?
    ensures AnswerIsTrue(w, c)
  {
  }

  lemma SettledIsThere(w: World, id: string)
    requires WorldOk(w) && id in w.db.settled
    ensures id in w.db.receipts
  {
  }

  lemma {:induction false} PlayIsHonest(w: World, steps: seq<Step>)
    requires WorldOk(w) && IsHonest(w)
    ensures IsHonest(Play(w, steps))
  {
    hide WorldOk, IsHonest, Do;
    if steps != [] {
      PlayIsHonest(w, Front(steps));
      PlayIsOk(w, Front(steps));
      DoKeepsHonest(Play(w, Front(steps)), Last(steps));
    }
  }

  /** A status after which it is known whether the request took effect. */
  predicate IsDefinite(code: int) {
    code < 500 && code != 408 && code != 425 && code != 429
  }

  predicate IsRefusal(code: int) {
    IsDefinite(code) && !(200 <= code < 300)
  }

  /** Ambiguity is preserved, not rounded: a settled receipt is accepted only if the provider answered
      in the two hundreds, failed only if nothing left or the provider clearly refused, and still in
      flight only if something left and nobody can say what it did. */
  lemma SettlementIsHonest(steps: seq<Step>, id: string) returns (answer: Answer)
    requires id in Play(EMPTY, steps).db.settled
    ensures var w := Play(EMPTY, steps);
      && id in w.db.receipts
      && match w.db.receipts[id].status
         case Accepted => WasAnswered(w.sent, id, answer) && answer.Status? && 200 <= answer.code < 300
         case Failed => NeverSent(w.sent, id)
           || (WasAnswered(w.sent, id, answer) && answer.Status? && IsRefusal(answer.code))
         case InFlight => WasAnswered(w.sent, id, answer) && !(answer.Status? && IsDefinite(answer.code))
    ensures var w := Play(EMPTY, steps);
      NeverSent(w.sent, id) || w.db.receipts[id].note == NoteOf(answer)
  {
    PlayIsOk(EMPTY, steps);
    PlayIsHonest(EMPTY, steps);
    var w := Play(EMPTY, steps);
    hide Play, DbOk, NeverSent, WasAnswered, AnswerIsTrue, Classify, NoteOf, WorldOk;
    SettledIsThere(w, id);
    assert IsExplained(w, id);
    answer := NoResponse("");
    if !(NeverSent(w.sent, id) && w.db.receipts[id].status == Failed) {
      answer :| WasAnswered(w.sent, id, answer) && w.db.receipts[id].status == Classify(answer)
        && w.db.receipts[id].note == NoteOf(answer);
      SentLeft(w, steps, id, answer);
      StatusTells(answer);
    }
  }

  lemma StatusTells(answer: Answer)
    requires !answer.NeverLeft?
    ensures Classify(answer) == Accepted <==> answer.Status? && 200 <= answer.code < 300
    ensures Classify(answer) == Failed <==> answer.Status? && IsRefusal(answer.code)
    ensures Classify(answer) == InFlight <==> !(answer.Status? && IsDefinite(answer.code))
  {
  }

  lemma SentLeft(w: World, steps: seq<Step>, id: string, answer: Answer)
    requires w == Play(EMPTY, steps) && WasAnswered(w.sent, id, answer)
    ensures !answer.NeverLeft?
  {
    LeftIsLeft(EMPTY, steps);
  }

  predicate AllLeft(sent: seq<Sent>) {
    forall i | 0 <= i < |sent| :: !sent[i].answer.NeverLeft?
  }

  lemma {:induction false} LeftIsLeft(w: World, steps: seq<Step>)
    requires AllLeft(w.sent)
    ensures AllLeft(Play(w, steps).sent)
  {
    hide Do;
    if steps != [] {
      LeftIsLeft(w, Front(steps));
      SendsLeave(Play(w, Front(steps)), Last(steps));
    }
  }

  lemma SendsLeave(w: World, step: Step)
    ensures w.sent <= Do(w, step).sent
    ensures forall i | |w.sent| <= i < |Do(w, step).sent| :: !Do(w, step).sent[i].answer.NeverLeft?
  {
  }
}
