/** The store's transactions and the live gateway statement by statement: tables edited in place,
    every refusal rolled back, and one attempt per receipt. Each method is proved against the protocol
    model; the gateway's own statements are exactly one caller's program in it. */
module GatewayStore {
  import opened Outcomes
  import opened GatewayModel

  class Store {
    var approvals: map<string, Approval>
    var receipts: map<string, Receipt>
    var index: map<Key, string>
    var events: map<string, Entry>
    var settled: set<string>
    var operations: set<string>

    function Value(): Db
      reads this
    {
      Db(approvals, receipts, index, events, settled, operations)
    }

    constructor ()
      ensures Value() == Db(map[], map[], map[], map[], {}, {})
    {
      approvals, receipts, index, events, settled, operations := map[], map[], map[], map[], {}, {};
    }

    /** The exception that ends a transaction takes every one of its writes with it. */
    method Rollback(before: Db)
      modifies this
      ensures Value() == before
    {
      approvals, receipts, index, events := before.approvals, before.receipts, before.index, before.events;
      settled, operations := before.settled, before.operations;
    }

    method AppendEvent(rid: string, entry: Entry) returns (ok: bool)
      modifies this`events
      ensures ok <==> rid !in old(events)
      ensures events == if ok then old(events)[rid := entry] else old(events)
    {
      ok := rid !in events;
      if ok { events := events[rid := entry]; }
    }

    method CreateApproval(id: string, action: Action, requester: string, expires: int, rid: string)
      returns (r: Result<Approval, Refusal>)
      modifies this
      ensures Value() == Or(GatewayModel.CreateApproval(old(Value()), id, action, requester, expires, rid),
                            old(Value()))
      ensures r.Ok? <==> GatewayModel.CreateApproval(old(Value()), id, action, requester, expires, rid).Ok?
      ensures r.Ok? ==> id in approvals && r.value == approvals[id]
    {
      var before := Value();
      if id in approvals { return Err(DuplicateRow); }
      approvals := approvals[id := Approval(Pending, action, requester, None, expires)];
      var ok := AppendEvent(rid, Requested(id));
      if !ok {
        Rollback(before);
        return Err(DuplicateRow);
      }
      r := Ok(approvals[id]);
    }

    method DecideApproval(now: int, id: string, actor: string, action: Action, approve: bool, rid: string)
      returns (r: Result<Approval, Refusal>)
      modifies this
      ensures Value() == Or(GatewayModel.DecideApproval(old(Value()), now, id, actor, action, approve, rid),
                            old(Value()))
      ensures match GatewayModel.DecideApproval(old(Value()), now, id, actor, action, approve, rid)
        case Ok(db) => id in approvals && r == Ok(approvals[id])
        case Err(why) => r == Err(why)
    {
      var before := Value();
      if id !in approvals { return Err(NotFound); }
      var approval := approvals[id];
      if approval.status != Pending { return Err(NotPending); }
      if approval.requester == actor { return Err(OwnRequest); }
      if approval.action != action { return Err(WrongAction); }
      if approval.expires <= now {
        approvals := approvals[id := approval.(status := Expired)];
        Rollback(before);
        return Err(PastExpiry);
      }
      approvals := approvals[id := approval.(status := if approve then Approved else Rejected, decider := Some(actor))];
      var ok := AppendEvent(rid, Decided(id));
      if !ok {
        Rollback(before);
        return Err(DuplicateRow);
      }
      r := Ok(approvals[id]);
    }

    /** Spends the exact approval and persists the receipt, both or neither. */
    method ConsumeApproval(now: int, approval: string, id: string, receipt: Receipt)
      returns (r: Result<string, Refusal>)
      modifies this
      ensures match Consume(old(Value()), now, approval, id, receipt)
        case Ok((db, stored)) => Value() == db && r == Ok(stored)
        case Err(why) => Value() == old(Value()) && r == Err(why)
    {
      var before := Value();
      var prior := FindReceipt(before, receipt.key);
      if prior.Some? {
        return if prior.value.1.action != receipt.action then Err(KeyReused) else Ok(prior.value.0);
      }
      if approval !in approvals { return Err(NotFound); }
      var a := approvals[approval];
      if a.status != Approved { return Err(NotApproved); }
      if a.action != receipt.action { return Err(WrongAction); }
      if a.expires <= now {
        approvals := approvals[approval := a.(status := Expired)];
        Rollback(before);
        return Err(PastExpiry);
      }
      approvals := approvals[approval := a.(status := Consumed)];
      if id in receipts || receipt.key in index {
        Rollback(before);
        return Err(DuplicateRow);
      }
      receipts, index := receipts[id := receipt], index[receipt.key := id];
      var ok := AppendEvent(SpendName(receipt.key), Spent(approval, id));
      if !ok {
        Rollback(before);
        return Err(DuplicateRow);
      }
      r := Ok(id);
    }

    /** Closes a live call: only while it is in flight, and only once. */
    method SettleReceipt(id: string, status: ReceiptStatus, note: string) returns (r: Result<Receipt, Refusal>)
      modifies this
      ensures Value() == Or(Settle(old(Value()), id, status, note), old(Value()))
      ensures match Settle(old(Value()), id, status, note)
        case Ok(db) => id in receipts && r == Ok(receipts[id])
        case Err(why) => r == Err(why)
    {
      var before := Value();
      if id !in receipts { return Err(NotFound); }
      if receipts[id].status != InFlight { return Err(AlreadySettled); }
      receipts := receipts[id := receipts[id].(status := status, note := note)];
      if id in settled || SettleName(id) in operations {
        Rollback(before);
        return Err(DuplicateRow);
      }
      settled := settled + {id};
      r := Ok(receipts[id]);
    }
  }

  // --- the gateway --------------------------------------------------------------------------

  /** The step is somebody else's, and does not draw this receipt id. */
  predicate IsForeign(step: Step, caller: nat, id: string) {
    match step
    case Begin(c, _) => c != caller
    case Look(c, _) => c != caller
    case Spend(c, drawn) => c != caller && drawn != id
    case Note(c, _) => c != caller
    case Send(c, _) => c != caller
    case Close(c) => c != caller
    case Die(c) => c != caller
    case RunFixture(_, drawn, _) => drawn != id
    case _ => true
  }

  predicate AreForeign(steps: seq<Step>, caller: nat, id: string) {
    forall s | s in steps :: IsForeign(s, caller, id)
  }

  lemma ForeignStep(w: World, step: Step, caller: nat, id: string)
    requires IsForeign(step, caller, id)
    ensures w.sent <= Do(w, step).sent
    ensures id !in w.db.receipts ==> id !in Do(w, step).db.receipts
    ensures caller in w.callers ==> caller in Do(w, step).callers && Do(w, step).callers[caller] == w.callers[caller]
  {
  }

  lemma {:induction false} ForeignSteps(w: World, steps: seq<Step>, caller: nat, id: string)
    requires AreForeign(steps, caller, id)
    ensures w.sent <= Play(w, steps).sent
    ensures id !in w.db.receipts ==> id !in Play(w, steps).db.receipts
    ensures caller in w.callers ==>
      caller in Play(w, steps).callers && Play(w, steps).callers[caller] == w.callers[caller]
  {
    hide Do, IsForeign;
    if steps != [] {
      ForeignSteps(w, Front(steps), caller, id);
      ForeignStep(Play(w, Front(steps)), Last(steps), caller, id);
    }
  }

  /** What the others do while the caller is on its way from one of its steps to the next. */
  datatype Gaps = Gaps(look: seq<Step>, spend: seq<Step>, note: seq<Step>, send: seq<Step>, close: seq<Step>)

  predicate AllForeign(others: Gaps, caller: nat, id: string) {
    && AreForeign(others.look, caller, id) && AreForeign(others.spend, caller, id)
    && AreForeign(others.note, caller, id)
    && AreForeign(others.send, caller, id) && AreForeign(others.close, caller, id)
  }

  function Opening(caller: nat, call: Call, secret: bool, others: seq<Step>): seq<Step> {
    [Begin(caller, call)] + others + [Look(caller, secret)]
  }

  function Paying(caller: nat, id: string, written: bool, others: seq<Step>): seq<Step> {
    [Spend(caller, id)] + others + [Note(caller, written)]
  }

  function Delivery(caller: nat, answer: Answer, others: seq<Step>): seq<Step> {
    [Send(caller, answer)] + others + [Close(caller)]
  }

  /** What one caller does, with other participants at work between any two of its steps. */
  function Program(caller: nat, call: Call, id: string, secret: bool, others: Gaps, written: bool, answer: Answer)
    : seq<Step>
  {
    Opening(caller, call, secret, others.look) + others.spend + Paying(caller, id, written, others.note) + others.send
    + Delivery(caller, answer, others.close)
  }

  lemma {:induction false} PlayBoth(w: World, a: seq<Step>, b: seq<Step>)
    ensures Play(w, a + b) == Play(Play(w, a), b)
  {
    if b == [] {
      assert a + b == a;
    } else {
      PlayBoth(w, a, Front(b));
      assert Front(a + b) == a + Front(b);
    }
  }

  lemma PlayOne(w: World, steps: seq<Step>, step: Step)
    ensures Play(w, steps + [step]) == Do(Play(w, steps), step)
  {
    assert Front(steps + [step]) == steps;
  }

  /** What an earlier attempt under the same key means for this one: another action's key is not to be reused,
      an attempt still in flight is not to be repeated, and one that was settled is the answer. */
  predicate IsAnswered(prior: Option<(string, Receipt)>, call: Call, answer: Result<(string, bool), Refusal>) {
    && prior.Some?
    && (answer == Err(KeyReused) <==> prior.value.1.action != call.action)
    && (answer == Err(Unresolved) <==> prior.value.1.action == call.action && prior.value.1.status == InFlight)
    && (answer.Ok? ==> answer.value == (prior.value.0, false))
    && (answer.Ok? <==> prior.value.1.action == call.action && prior.value.1.status != InFlight)
  }

  /** The receipt a call puts on record before anything leaves. */
  function Intent(call: Call): Receipt {
    Receipt(call.ReceiptKey(), call.action, InFlight, "")
  }

  /** Nothing stands in the way of the call: it is admitted, its key is new, its approval is spent, its request
      leaves and its settlement is recorded. */
  ghost predicate IsUnhindered(w: World, caller: nat, call: Call, id: string, others: Gaps, answer: Answer) {
    var looked := Play(w, Opening(caller, call, true, others.look));
    var asking := Play(looked, others.spend);
    var sending := Play(Play(asking, Paying(caller, id, true, others.note)), others.send);
    var closing := Play(sending, [Send(caller, answer)] + others.close);
    && IsAdmitted(w, call) && FindReceipt(looked.db, call.ReceiptKey()).None? && !answer.NeverLeft?
    && Consume(asking.db, asking.now, call.approval, id, Intent(call)).Ok?
    && Consume(asking.db, asking.now, call.approval, id, Intent(call)).value.1 == id
    && Settle(closing.db, id, Classify(answer), NoteOf(answer)).Ok?
  }

  class Gateway {
    const store: Store
    var now: int
    var live: set<(string, string)>
    var fixtures: set<(string, string)>
    var sent: seq<Sent>
    var callers: map<nat, Caller>

    function State(): World
      reads this, store
    {
      World(store.Value(), now, live, fixtures, callers, sent)
    }

    constructor (store: Store)
      ensures this.store == store && State() == World(store.Value(), 0, {}, {}, map[], [])
    {
      this.store := store;
      now, live, fixtures, sent, callers := 0, {}, {}, [], map[];
    }

    /** Everybody else, at work on the same tables. */
    method Others(steps: seq<Step>)
      modifies this, store
      ensures State() == Play(old(State()), steps)
    {
      var w := Play(State(), steps);
      store.Rollback(w.db);
      now, live, fixtures, callers, sent := w.now, w.live, w.fixtures, w.callers, w.sent;
    }

    /** Everybody else, while this caller stands where it is. */
    method OthersGoOn(steps: seq<Step>, caller: nat, id: string)
      requires AreForeign(steps, caller, id) && caller in callers
      modifies this, store
      ensures State() == Play(old(State()), steps) && old(sent) <= sent
      ensures caller in callers && callers[caller] == old(callers[caller])
      ensures id !in old(store.receipts) ==> id !in store.receipts
    {
      ForeignSteps(State(), steps, caller, id);
      Others(steps);
    }

    method BeginOnce(caller: nat, call: Call) returns (admitted: bool)
      requires caller !in callers
      modifies this`callers
      ensures State() == Do(old(State()), Begin(caller, call))
      ensures caller in callers && callers[caller] == Caller(call, if admitted then Looking else Over)
      ensures admitted == IsAdmitted(old(State()), call)
    {
      admitted := IsAdmitted(State(), call);
      callers := callers[caller := Caller(call, if admitted then Looking else Over)];
    }

    method LookOnce(caller: nat, call: Call, secret: bool) returns (prior: Option<(string, Receipt)>)
      requires caller in callers && callers[caller] == Caller(call, Looking)
      modifies this`callers
      ensures State() == Do(old(State()), Look(caller, secret))
      ensures prior == FindReceipt(store.Value(), call.ReceiptKey())
      ensures caller in callers && callers[caller] == Caller(call, if prior.None? && secret then Spending else Over)
    {
      prior := FindReceipt(store.Value(), call.ReceiptKey());
      callers := callers[caller := Caller(call, if prior.None? && secret then Spending else Over)];
    }

    /** Admission, and the receipt an earlier attempt may have left; unanswered, the call goes on to spend. */
    method Open(caller: nat, call: Call, id: string, secret: bool, others: seq<Step>, lives: nat)
      returns (answered: Option<Result<(string, bool), Refusal>>, ghost past: seq<Step>)
      requires caller !in callers && id !in store.receipts && AreForeign(others, caller, id)
      modifies this, store
      ensures past <= Opening(caller, call, secret, others) && State() == Play(old(State()), past)
      ensures answered.None? ==>
        && past == Opening(caller, call, secret, others)
        && caller in callers && callers[caller] == Caller(call, Spending) && id !in store.receipts
      ensures lives > 0 && !IsAdmitted(old(State()), call) ==> answered == Some(Err(NotAdmitted))
      ensures lives == 0 || (lives == 1 && IsAdmitted(old(State()), call)) ==> answered == Some(Err(Stopped))
      ensures lives > 1 && IsAdmitted(old(State()), call) ==>
        && past == Opening(caller, call, secret, others)
        && var prior := FindReceipt(store.Value(), call.ReceiptKey());
           if prior.Some? then answered.Some? && IsAnswered(prior, call, answered.value)
           else answered == if secret then None else Some(Err(NoSecret))
    {
      hide Do, AreForeign;
      ghost var w := State();
      past := [];
      if lives == 0 { return Some(Err(Stopped)), past; }
      var admitted := BeginOnce(caller, call);
      past := [Begin(caller, call)];
      PlayOne(w, [], Begin(caller, call));
      assert [] + past == past;
      BeginKeepsReceipts(w, caller, call);
      if !admitted { return Some(Err(NotAdmitted)), past; }
      if lives == 1 { return Some(Err(Stopped)), past; }
      OthersGoOn(others, caller, id);
      PlayBoth(w, past, others);
      past := past + others;
      var prior := LookOnce(caller, call, secret);
      PlayOne(w, past, Look(caller, secret));
      past := past + [Look(caller, secret)];
      if prior.Some? {
        if prior.value.1.action != call.action { return Some(Err(KeyReused)), past; }
        if prior.value.1.status == InFlight { return Some(Err(Unresolved)), past; }
        return Some(Ok((prior.value.0, false))), past;
      }
      answered := if secret then None else Some(Err(NoSecret));
    }

    method SpendOnce(caller: nat, call: Call, id: string) returns (stored: Result<string, Refusal>)
      requires caller in callers && callers[caller] == Caller(call, Spending) && id !in store.receipts
      modifies this, store
      ensures State() == Do(old(State()), Spend(caller, id)) && sent == old(sent)
      ensures caller in callers && callers[caller] == Caller(call, if stored == Ok(id) then Noting(id) else Over)
      ensures match Consume(old(store.Value()), old(now), call.approval, id, Intent(call))
        case Ok((_, receipt)) => stored == Ok(receipt)
        case Err(why) => stored == Err(why)
    {
      stored := store.ConsumeApproval(now, call.approval, id, Intent(call));
      callers := callers[caller := Caller(call, if stored == Ok(id) then Noting(id) else Over)];
    }

    method NoteOnce(caller: nat, call: Call, id: string, written: bool)
      requires caller in callers && callers[caller] == Caller(call, Noting(id))
      modifies this`callers
      ensures State() == Do(old(State()), Note(caller, written))
      ensures caller in callers && callers[caller] == Caller(call, if written then Sending(id) else Over)
    {
      callers := callers[caller := Caller(call, if written then Sending(id) else Over)];
    }

    method SendOnce(caller: nat, call: Call, id: string, answer: Answer)
      requires caller in callers && callers[caller] == Caller(call, Sending(id))
      modifies this`callers, this`sent
      ensures State() == Do(old(State()), Send(caller, answer))
      ensures sent == if answer.NeverLeft? then old(sent) else old(sent) + [Sent(call, id, answer)]
      ensures caller in callers && callers[caller] == Caller(call, Settling(id, answer))
    {
      if !answer.NeverLeft? { sent := sent + [Sent(call, id, answer)]; }
      callers := callers[caller := Caller(call, Settling(id, answer))];
    }

    method CloseOnce(caller: nat, call: Call, id: string, answer: Answer) returns (closed: Result<Receipt, Refusal>)
      requires caller in callers && callers[caller] == Caller(call, Settling(id, answer))
      modifies this`callers, store
      ensures State() == Do(old(State()), Close(caller))
      ensures closed.Ok? ==> IsClosed(store.Value(), id, answer)
      ensures match Settle(old(store.Value()), id, Classify(answer), NoteOf(answer))
        case Ok(_) => closed.Ok?
        case Err(why) => closed == Err(why)
    {
      closed := store.SettleReceipt(id, Classify(answer), NoteOf(answer));
      callers := callers[caller := Caller(call, Over)];
    }

    /** Spend, and write the audit line; the process may die after either. */
    method Pay(caller: nat, call: Call, id: string, written: bool, others: seq<Step>, lives: nat)
      returns (answered: Option<Result<(string, bool), Refusal>>, ghost past: seq<Step>)
      requires caller in callers && callers[caller] == Caller(call, Spending) && id !in store.receipts
      requires AreForeign(others, caller, id)
      modifies this, store
      ensures past <= Paying(caller, id, written, others) && State() == Play(old(State()), past) && old(sent) <= sent
      ensures answered.None? ==>
        past == Paying(caller, id, written, others) && caller in callers && callers[caller] == Caller(call, Sending(id))
      ensures lives == 0 ==> answered == Some(Err(Stopped))
      ensures lives > 0 ==> match Consume(old(store.Value()), old(now), call.approval, id, Intent(call))
        case Err(why) => answered == Some(Err(why))
        case Ok((_, stored)) =>
          if stored != id then answered == Some(Ok((stored, false)))
          else answered == if lives == 1 then Some(Err(Stopped)) else if written then None else Some(Err(AuditRefused))
    {
      ghost var w := State();
      assert Play(w, []) == w;
      hide Do, AreForeign, Consume, Play, Intent;
      past := [];
      if lives == 0 { return Some(Err(Stopped)), past; }
      var stored := SpendOnce(caller, call, id);
      past := [Spend(caller, id)];
      PlayOne(w, [], Spend(caller, id));
      assert [] + past == past;
      if stored.Err? { return Some(Err(stored.error)), past; }
      if stored.value != id { return Some(Ok((stored.value, false))), past; }
      if lives == 1 { return Some(Err(Stopped)), past; }
      OthersGoOn(others, caller, id);
      PlayBoth(w, past, others);
      past := past + others;
      NoteOnce(caller, call, id, written);
      PlayOne(w, past, Note(caller, written));
      past := past + [Note(caller, written)];
      answered := if written then None else Some(Err(AuditRefused));
    }

    /** Send once, settle once. */
    method Deliver(caller: nat, call: Call, id: string, answer: Answer, others: seq<Step>, lives: nat)
      returns (r: Result<(string, bool), Refusal>, ghost past: seq<Step>)
      requires caller in callers && callers[caller] == Caller(call, Sending(id)) && AreForeign(others, caller, id)
      modifies this, store
      ensures past <= Delivery(caller, answer, others) && State() == Play(old(State()), past) && old(sent) <= sent
      ensures r.Ok? ==>
        && r.value == (id, true) && past == Delivery(caller, answer, others)
        && |old(sent)| < |sent| && sent[|old(sent)|] == Sent(call, id, answer) && IsClosed(store.Value(), id, answer)
      ensures lives < 2 ==> r == Err(Stopped)
      ensures lives >= 2 ==>
        var last := Play(old(State()), [Send(caller, answer)] + others);
        match Settle(last.db, id, Classify(answer), NoteOf(answer))
        case Err(why) => r == Err(why)
        case Ok(_) => r == if answer.NeverLeft? then Err(Unavailable) else Ok((id, true))
    {
      hide Do, AreForeign, IsClosed, Classify, Settle, NoteOf;
      ghost var w := State();
      past := [];
      if lives == 0 { return Err(Stopped), past; }
      SendOnce(caller, call, id, answer);
      past := [Send(caller, answer)];
      PlayOne(w, [], Send(caller, answer));
      assert [] + past == past;
      if lives == 1 { return Err(Stopped), past; }
      OthersGoOn(others, caller, id);
      PlayBoth(w, past, others);
      past := past + others;
      var closed := CloseOnce(caller, call, id, answer);
      PlayOne(w, past, Close(caller));
      past := past + [Close(caller)];
      if closed.Err? { return Err(closed.error), past; }
      r := if answer.NeverLeft? then Err(Unavailable) else Ok((id, true));
    }

    /** One outward call, among others. Whatever the process gets done before it dies is the beginning of
        one caller's program, with anything the others may do between any two of its steps; a call that
        reports its own receipt went through the whole program, sent exactly this request and settled its
        receipt as the provider answered. Nothing is repeated: what an earlier attempt left under the key is the
        answer. And a call that nothing hinders succeeds. */
    method Execute(caller: nat, call: Call, id: string, secret: bool, others: Gaps, written: bool, answer: Answer,
                   lives: nat)
      returns (r: Result<(string, bool), Refusal>, ghost past: seq<Step>)
      requires caller !in callers && id !in store.receipts && AllForeign(others, caller, id)
      modifies this, store
      ensures past <= Program(caller, call, id, secret, others, written, answer) && State() == Play(old(State()), past)
      ensures r.Ok? && r.value.1 ==>
        && past == Program(caller, call, id, secret, others, written, answer)
        && Sent(call, id, answer) in sent && IsClosed(store.Value(), id, answer)
      ensures var looked := Play(old(State()), Opening(caller, call, secret, others.look));
        var prior := FindReceipt(looked.db, call.ReceiptKey());
        lives > 1 && IsAdmitted(old(State()), call) && prior.Some? ==> IsAnswered(prior, call, r)
      ensures lives >= 6 && secret && written && IsUnhindered(old(State()), caller, call, id, others, answer) ==>
        r == Ok((id, true))
    {
      hide Do, Play, IsClosed, AreForeign, Opening, Paying, Delivery, FindReceipt, Consume, Settle, IsAdmitted,
           Classify, NoteOf, Intent;
      ghost var w := State();
      var answered;
      answered, past := Open(caller, call, id, secret, others.look, lives);
      if answered.Some? { return answered.value, past; }
      OthersGoOn(others.spend, caller, id);
      PlayBoth(w, past, others.spend);
      past := past + others.spend;
      ghost var more;
      answered, more := Pay(caller, call, id, written, others.note, Less(lives, 2));
      PlayBoth(w, past, more);
      past := past + more;
      if answered.Some? { return answered.value, past; }
      OthersGoOn(others.send, caller, id);
      PlayBoth(w, past, others.send);
      past := past + others.send;
      r, more := Deliver(caller, call, id, answer, others.close, Less(lives, 4));
      PlayBoth(w, past, more);
      past := past + more;
    }
  }

  function Less(lives: nat, steps: nat): nat {
    if lives > steps then lives - steps else 0
  }

  lemma BeginKeepsReceipts(w: World, caller: nat, call: Call)
    ensures Do(w, Begin(caller, call)).db == w.db
  {
  }

  predicate IsClosed(db: Db, id: string, answer: Answer) {
    id in db.receipts && db.receipts[id].status == Classify(answer) && id in db.settled
  }

}
