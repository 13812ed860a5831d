/** At most one outward call, whatever the interleaving and wherever callers die: every send is covered
    beforehand by its own durable receipt and by an approval spent on exactly this action. */
module GatewaySafety {
  import opened Outcomes
  import opened GatewayModel

  // --- what every reachable database satisfies ----------------------------------------------

  ghost predicate IndexOk(db: Db) {
    && (forall k | k in db.index :: db.index[k] in db.receipts && db.receipts[db.index[k]].key == k)
    && (forall id | id in db.receipts :: db.receipts[id].key in db.index && db.index[db.receipts[id].key] == id)
  }

  /** Nobody's own request is approved, and an approval past its time is never stored as expired. */
  predicate ApprovalOk(a: Approval) {
    && a.status != Expired
    && (a.status == Approved || a.status == Consumed ==> a.decider.Some? && a.decider.value != a.requester)
  }

  predicate SpentOk(db: Db, name: string)
    requires name in db.events
  {
    db.events[name].Spent? ==>
      var a, r := db.events[name].approval, db.events[name].receipt;
      && a in db.approvals && db.approvals[a].status == Consumed
      && r in db.receipts && db.receipts[r].action == db.approvals[a].action && SpendName(db.receipts[r].key) == name
  }

  ghost predicate EventsOk(db: Db) {
    && (forall name | name in db.events :: SpentOk(db, name))
    && (forall x, y | x in db.events && y in db.events && db.events[x].Spent? && db.events[y].Spent?
          && db.events[x].approval == db.events[y].approval :: x == y)
    && (forall id | id in db.receipts :: HasEvent(db, id))
  }

  predicate HasEvent(db: Db, id: string)
    requires id in db.receipts
  {
    var name := SpendName(db.receipts[id].key);
    name in db.events && db.events[name].Spent? && db.events[name].receipt == id
  }

  ghost predicate DbOk(db: Db) {
    && IndexOk(db) && EventsOk(db) && db.settled <= db.receipts.Keys
    && forall a | a in db.approvals :: ApprovalOk(db.approvals[a])
  }

  /** The receipt is this call's own, paid for by this call's approval. */
  predicate Owns(db: Db, call: Call, id: string) {
    && id in db.receipts && db.receipts[id].key == call.ReceiptKey() && db.receipts[id].action == call.action
    && SpendName(call.ReceiptKey()) in db.events && db.events[SpendName(call.ReceiptKey())] == Spent(call.approval, id)
  }

  // --- what no step ever undoes -------------------------------------------------------------

  predicate IsFinal(db: Db, id: string)
    requires id in db.receipts
  {
    db.receipts[id].status != InFlight || id in db.settled
  }

  /** Rows are never removed; events, spent and rejected approvals and closed receipts never change. */
  ghost predicate Grows(a: Db, b: Db) {
    && a.approvals.Keys <= b.approvals.Keys && a.receipts.Keys <= b.receipts.Keys && a.settled <= b.settled
    && a.operations <= b.operations
    && (forall name | name in a.events :: name in b.events && b.events[name] == a.events[name])
    && (forall id | id in a.approvals :: KeepsApproval(a.approvals[id], b.approvals[id]))
    && (forall id | id in a.receipts :: KeepsReceipt(a.receipts[id], b.receipts[id]))
    && (forall id | id in a.receipts && IsFinal(a, id) :: b.receipts[id] == a.receipts[id])
  }

  predicate KeepsApproval(a: Approval, b: Approval) {
    && b.action == a.action && b.requester == a.requester && b.expires == a.expires
    && (a.status == Consumed || a.status == Rejected ==> b == a)
    && (a.status == Approved ==> b.decider == a.decider && (b.status == Approved || b.status == Consumed))
  }

  predicate KeepsReceipt(a: Receipt, b: Receipt) {
    b.key == a.key && b.action == a.action
  }

  lemma ConsumeGrows(db: Db, now: int, approval: string, id: string, receipt: Receipt)
    requires Consume(db, now, approval, id, receipt).Ok?
    ensures Grows(db, Consume(db, now, approval, id, receipt).value.0)
  {
  }

  lemma DecideGrows(db: Db, now: int, id: string, actor: string, action: Action, approve: bool, rid: string)
    requires DecideApproval(db, now, id, actor, action, approve, rid).Ok?
    ensures Grows(db, DecideApproval(db, now, id, actor, action, approve, rid).value)
  {
  }

  lemma DoGrows(w: World, step: Step)
    ensures Grows(w.db, Do(w, step).db)
  {
    hide Grows, Consume, DecideApproval, FindReceipt;
    GrowsItself(w.db);
    match step
    case Decide(id, actor, action, approve, rid) =>
      if DecideApproval(w.db, w.now, id, actor, action, approve, rid).Ok? {
        DecideGrows(w.db, w.now, id, actor, action, approve, rid);
      }
    case RunFixture(call, id, note) =>
      var receipt := Receipt(call.ReceiptKey(), call.action, Accepted, note);
      if Consume(w.db, w.now, call.approval, id, receipt).Ok? {
        ConsumeGrows(w.db, w.now, call.approval, id, receipt);
      }
    case Spend(caller, id) =>
      if caller in w.callers {
        var call := w.callers[caller].call;
        var receipt := Receipt(call.ReceiptKey(), call.action, InFlight, "");
        if Consume(w.db, w.now, call.approval, id, receipt).Ok? {
          ConsumeGrows(w.db, w.now, call.approval, id, receipt);
        }
      }
    case Record(rid) => RecordGrows(w.db, rid);
    case Propose(id, action, requester, expires, rid) => CreateGrows(w.db, id, action, requester, expires, rid);
    case Close(caller) =>
      if caller in w.callers && w.callers[caller].place.Settling? {
        var place := w.callers[caller].place;
        SettleGrows(w.db, place.receipt, Classify(place.answer), NoteOf(place.answer));
      }
    case _ =>
  }

  lemma RecordGrows(db: Db, rid: string)
    ensures Grows(db, Operate(db, rid))
  {
  }

  lemma GrowsItself(db: Db)
    ensures Grows(db, db)
  {
  }

  lemma CreateGrows(db: Db, id: string, action: Action, requester: string, expires: int, rid: string)
    ensures Grows(db, Or(CreateApproval(db, id, action, requester, expires, rid), db))
  {
  }

  lemma SettleGrows(db: Db, id: string, status: ReceiptStatus, note: string)
    ensures Grows(db, Or(Settle(db, id, status, note), db))
  {
  }

  lemma GrowsOn(a: Db, b: Db, c: Db)
    requires Grows(a, b) && Grows(b, c)
    ensures Grows(a, c)
  {
  }

  lemma OwnsStays(a: Db, b: Db, call: Call, id: string)
    requires Owns(a, call, id) && Grows(a, b)
    ensures Owns(b, call, id)
  {
  }

  lemma {:induction false} PlayGrows(w: World, steps: seq<Step>)
    ensures Grows(w.db, Play(w, steps).db)
  {
    hide Grows;
    if steps == [] {
      GrowsItself(w.db);
    } else {
      PlayGrows(w, Front(steps));
      DoGrows(Play(w, Front(steps)), Last(steps));
      GrowsOn(w.db, Play(w, Front(steps)).db, Play(w, steps).db);
    }
  }

  // --- every transaction keeps the database well-formed -------------------------------------

  lemma ConsumeKeepsDb(db: Db, now: int, approval: string, id: string, receipt: Receipt)
    requires DbOk(db) && Consume(db, now, approval, id, receipt).Ok?
    ensures DbOk(Consume(db, now, approval, id, receipt).value.0)
  {
    hide IndexOk, EventsOk, Consume;
    ConsumeKeepsIndex(db, now, approval, id, receipt);
    ConsumeKeepsEvents(db, now, approval, id, receipt);
    ConsumeKeepsApprovals(db, now, approval, id, receipt);
  }

  lemma ConsumeKeepsApprovals(db: Db, now: int, approval: string, id: string, receipt: Receipt)
    requires Consume(db, now, approval, id, receipt).Ok? && db.settled <= db.receipts.Keys
    requires forall a | a in db.approvals :: ApprovalOk(db.approvals[a])
    ensures var next := Consume(db, now, approval, id, receipt).value.0;
      next.settled <= next.receipts.Keys && forall a | a in next.approvals :: ApprovalOk(next.approvals[a])
  {
    hide SpendName;
  }

  lemma ConsumeKeepsEvents(db: Db, now: int, approval: string, id: string, receipt: Receipt)
    requires EventsOk(db) && Consume(db, now, approval, id, receipt).Ok?
    ensures EventsOk(Consume(db, now, approval, id, receipt).value.0)
  {
    var next := Consume(db, now, approval, id, receipt).value.0;
    if next != db {
      forall name | name in next.events ensures SpentOk(next, name) {
        if name in db.events {
          assert SpentOk(db, name);
        }
      }
      forall k | k in next.receipts ensures HasEvent(next, k) {
        if k in db.receipts {
          assert HasEvent(db, k);
        }
      }
    }
  }

  lemma ConsumeKeepsIndex(db: Db, now: int, approval: string, id: string, receipt: Receipt)
    requires IndexOk(db) && Consume(db, now, approval, id, receipt).Ok?
    ensures IndexOk(Consume(db, now, approval, id, receipt).value.0)
  {
    hide SpendName;
  }

  lemma SameIndex(db: Db, next: Db)
    requires IndexOk(db) && next.index == db.index && next.receipts == db.receipts
    ensures IndexOk(next)
  {
  }

  /** A new entry that spends nothing, beside a change to an approval that was not spent. */
  ghost predicate AddsEntry(db: Db, next: Db, id: string, rid: string) {
    && next.receipts == db.receipts && rid !in db.events && rid in next.events
    && next.events == db.events[rid := next.events[rid]] && !next.events[rid].Spent?
    && (forall a | a in db.approvals && a != id :: a in next.approvals && next.approvals[a] == db.approvals[a])
    && (id in db.approvals ==> db.approvals[id].status != Consumed)
  }

  lemma EntryKeepsEvents(db: Db, next: Db, id: string, rid: string)
    requires EventsOk(db) && AddsEntry(db, next, id, rid)
    ensures EventsOk(next)
  {
    hide SpendName;
    forall name | name in next.events ensures SpentOk(next, name) {
      if name in db.events {
        assert SpentOk(db, name);
      }
    }
    forall k | k in next.receipts ensures HasEvent(next, k) {
      assert HasEvent(db, k);
    }
  }

  lemma DecideKeepsDb(db: Db, now: int, id: string, actor: string, action: Action, approve: bool, rid: string)
    requires DbOk(db) && DecideApproval(db, now, id, actor, action, approve, rid).Ok?
    ensures DbOk(DecideApproval(db, now, id, actor, action, approve, rid).value)
  {
    hide IndexOk, EventsOk;
    var next := DecideApproval(db, now, id, actor, action, approve, rid).value;
    SameIndex(db, next);
    EntryKeepsEvents(db, next, id, rid);
  }

  lemma CreateKeepsDb(db: Db, id: string, action: Action, requester: string, expires: int, rid: string)
    requires DbOk(db)
    ensures DbOk(Or(CreateApproval(db, id, action, requester, expires, rid), db))
  {
    hide IndexOk, EventsOk;
    var next := Or(CreateApproval(db, id, action, requester, expires, rid), db);
    if next != db {
      SameIndex(db, next);
      EntryKeepsEvents(db, next, id, rid);
    }
  }

  lemma SettleKeepsDb(db: Db, id: string, status: ReceiptStatus, note: string)
    requires DbOk(db)
    ensures DbOk(Or(Settle(db, id, status, note), db))
  {
    hide EventsOk, SettleName;
    var next := Or(Settle(db, id, status, note), db);
    SettleKeepsEvents(db, next);
  }

  lemma SettleKeepsEvents(db: Db, next: Db)
    requires EventsOk(db) && next.events == db.events && next.approvals == db.approvals
    requires next.receipts.Keys == db.receipts.Keys
    requires forall k | k in db.receipts :: KeepsReceipt(db.receipts[k], next.receipts[k])
    ensures EventsOk(next)
  {
    hide SpendName;
    forall name | name in next.events ensures SpentOk(next, name) {
      assert SpentOk(db, name);
    }
    forall k | k in next.receipts ensures HasEvent(next, k) {
      assert HasEvent(db, k);
    }
  }

  lemma RecordKeepsDb(db: Db, rid: string)
    requires DbOk(db)
    ensures DbOk(Operate(db, rid))
  {
    var next := Operate(db, rid);
    forall name | name in next.events ensures SpentOk(next, name) {
      assert SpentOk(db, name);
    }
    forall k | k in next.receipts ensures HasEvent(next, k) {
      assert HasEvent(db, k);
    }
  }

  lemma DoKeepsDb(w: World, step: Step)
    requires DbOk(w.db)
    ensures DbOk(Do(w, step).db)
  {
    hide DbOk, Consume, DecideApproval, FindReceipt, CreateApproval, Settle;
    match step
    case Decide(id, actor, action, approve, rid) =>
      if DecideApproval(w.db, w.now, id, actor, action, approve, rid).Ok? {
        DecideKeepsDb(w.db, w.now, id, actor, action, approve, rid);
      }
    case RunFixture(call, id, note) =>
      var receipt := Receipt(call.ReceiptKey(), call.action, Accepted, note);
      if Consume(w.db, w.now, call.approval, id, receipt).Ok? {
        ConsumeKeepsDb(w.db, w.now, call.approval, id, receipt);
      }
    case Spend(caller, id) =>
      if caller in w.callers {
        var call := w.callers[caller].call;
        var receipt := Receipt(call.ReceiptKey(), call.action, InFlight, "");
        if Consume(w.db, w.now, call.approval, id, receipt).Ok? {
          ConsumeKeepsDb(w.db, w.now, call.approval, id, receipt);
        }
      }
    case Record(rid) => RecordKeepsDb(w.db, rid);
    case Propose(id, action, requester, expires, rid) => CreateKeepsDb(w.db, id, action, requester, expires, rid);
    case Close(caller) =>
      if caller in w.callers && w.callers[caller].place.Settling? {
        var place := w.callers[caller].place;
        SettleKeepsDb(w.db, place.receipt, Classify(place.answer), NoteOf(place.answer));
      }
    case _ =>
  }

  // --- callers and what they sent -----------------------------------------------------------

  /** The receipt a caller holds between spending and settling. */
  function Holds(place: Place): Option<string> {
    match place
    case Noting(id) => Some(id)
    case Sending(id) => Some(id)
    case Settling(id, _) => Some(id)
    case _ => None
  }

  predicate HasNotSent(place: Place) {
    place.Noting? || place.Sending?
  }

  ghost predicate CallerOk(w: World, c: nat)
    requires c in w.callers
  {
    var held := Holds(w.callers[c].place);
    && (w.callers[c].place != Over ==> w.callers[c].call.bodySha == w.callers[c].call.action.payloadSha)
    && HolderOk(w, c, held)
  }

  ghost predicate HolderOk(w: World, c: nat, held: Option<string>)
    requires c in w.callers
  {
    held.Some? ==>
      && Owns(w.db, w.callers[c].call, held.value) && !IsFinal(w.db, held.value)
      && (HasNotSent(w.callers[c].place) ==> forall i | 0 <= i < |w.sent| :: w.sent[i].receipt != held.value)
      && forall d | d in w.callers && d != c :: Holds(w.callers[d].place) != held
  }

  ghost predicate SentOk(w: World) {
    && (forall i | 0 <= i < |w.sent| :: Owns(w.db, w.sent[i].call, w.sent[i].receipt))
    && (forall i, j | 0 <= i < j < |w.sent| :: w.sent[i].receipt != w.sent[j].receipt)
  }

  ghost predicate WorldOk(w: World) {
    DbOk(w.db) && SentOk(w) && forall c | c in w.callers :: CallerOk(w, c)
  }

  const EMPTY := World(Db(map[], map[], map[], map[], {}, {}), 0, {}, {}, map[], [])

  lemma EmptyIsOk()
    ensures WorldOk(EMPTY)
  {
  }

  /** A receipt is closed by its own caller's settlement and by nothing else. */
  lemma OnlyItsCallerCloses(w: World, step: Step, id: string)
    requires id in w.db.receipts && !IsFinal(w.db, id)
    ensures id in Do(w, step).db.receipts
    ensures IsFinal(Do(w, step).db, id) || Do(w, step).db.receipts[id] != w.db.receipts[id] ==>
      step.Close? && step.caller in w.callers && w.callers[step.caller].place.Settling?
        && w.callers[step.caller].place.receipt == id
  {
    hide CreateApproval, DecideApproval, Consume, FindReceipt;
    match step
    case Propose(a, action, requester, expires, rid) => ApprovalsOnly(w, step);
    case Decide(a, actor, action, approve, rid) => ApprovalsOnly(w, step);
    case RunFixture(call, drawn, note) =>
      ConsumeKeepsOld(w.db, w.now, call.approval, drawn, Receipt(call.ReceiptKey(), call.action, Accepted, note), id);
    case Spend(c, drawn) =>
      if c in w.callers {
        var call := w.callers[c].call;
        ConsumeKeepsOld(w.db, w.now, call.approval, drawn, Receipt(call.ReceiptKey(), call.action, InFlight, ""), id);
      }
    case _ =>
  }

  lemma ApprovalsOnly(w: World, step: Step)
    requires step.Propose? || step.Decide?
    ensures Do(w, step).db.receipts == w.db.receipts && Do(w, step).db.settled == w.db.settled
  {
  }

  /** Spending touches no receipt that is on record already. */
  lemma ConsumeKeepsOld(db: Db, now: int, approval: string, id: string, receipt: Receipt, old': string)
    requires old' in db.receipts
    ensures Consume(db, now, approval, id, receipt).Ok? ==>
      var next := Consume(db, now, approval, id, receipt).value.0;
      old' in next.receipts && next.receipts[old'] == db.receipts[old'] && next.settled == db.settled
  {
  }

  /** A step that moves no caller. */
  lemma QuietStepKeeps(w: World, step: Step)
    requires WorldOk(w) && !step.Close?
    requires Do(w, step).callers == w.callers && Do(w, step).sent == w.sent
    ensures WorldOk(Do(w, step))
  {
    hide DbOk, Do;
    DoKeepsDb(w, step);
    DoGrows(w, step);
    var next := Do(w, step);
    forall c | c in next.callers ensures CallerOk(next, c) {
      assert CallerOk(w, c);
      if Holds(w.callers[c].place).Some? {
        HolderStays(w, step, c);
      }
    }
    SentStays(w, next);
  }

  lemma HolderStays(w: World, step: Step, c: nat)
    requires WorldOk(w) && c in w.callers && c in Do(w, step).callers
    requires Holds(w.callers[c].place).Some? && (step.Close? ==> step.caller != c)
    ensures var id := Holds(w.callers[c].place).value;
      Owns(Do(w, step).db, w.callers[c].call, id) && !IsFinal(Do(w, step).db, id)
  {
    hide DbOk, Do, SentOk;
    var id := Holds(w.callers[c].place).value;
    assert CallerOk(w, c);
    DoGrows(w, step);
    OwnsStays(w.db, Do(w, step).db, w.callers[c].call, id);
    OnlyItsCallerCloses(w, step, id);
    if step.Close? && step.caller in w.callers {
      assert CallerOk(w, step.caller);
    }
  }

  lemma SentStays(w: World, next: World)
    requires SentOk(w) && Grows(w.db, next.db) && next.sent == w.sent
    ensures SentOk(next)
  {
    forall i | 0 <= i < |w.sent| ensures Owns(next.db, w.sent[i].call, w.sent[i].receipt) {
      OwnsStays(w.db, next.db, w.sent[i].call, w.sent[i].receipt);
    }
  }

  /** A step of caller `c` alone: it keeps, drops or newly gains a receipt nobody had. */
  ghost predicate MovesOnly(w: World, next: World, c: nat) {
    && c in next.callers && next.callers.Keys == w.callers.Keys + {c}
    && (forall d | d in w.callers && d != c :: next.callers[d] == w.callers[d])
    && (Holds(next.callers[c].place).None? || Holds(next.callers[c].place).value !in w.db.receipts
        || (c in w.callers && Holds(next.callers[c].place) == Holds(w.callers[c].place)))
    && (next.sent == w.sent
        || (c in w.callers && Holds(w.callers[c].place).Some?
            && |next.sent| == |w.sent| + 1 && next.sent[..|w.sent|] == w.sent
            && Last(next.sent).receipt == Holds(w.callers[c].place).value))
  }

  lemma OthersKeep(w: World, step: Step, c: nat, d: nat)
    requires WorldOk(w) && MovesOnly(w, Do(w, step), c) && d in w.callers && d != c
    requires step.Close? ==> step.caller == c
    ensures CallerOk(Do(w, step), d)
  {
    hide DbOk, Do, SentOk, Owns;
    assert CallerOk(w, d);
    if Holds(w.callers[d].place).Some? {
      HolderStays(w, step, d);
      assert Holds(w.callers[d].place).value in w.db.receipts by {
        OwnedIsThere(w.db, w.callers[d].call, Holds(w.callers[d].place).value);
      }
    }
  }

  lemma OwnedIsThere(db: Db, call: Call, id: string)
    requires Owns(db, call, id)
    ensures id in db.receipts
  {
  }

  lemma MoveKeeps(w: World, step: Step, c: nat)
    requires WorldOk(w) && MovesOnly(w, Do(w, step), c) && (step.Close? ==> step.caller == c)
    requires Do(w, step).sent == w.sent && CallerOk(Do(w, step), c)
    ensures WorldOk(Do(w, step))
  {
    hide DbOk, Do, CallerOk;
    DoKeepsDb(w, step);
    DoGrows(w, step);
    SentStays(w, Do(w, step));
    forall d | d in Do(w, step).callers ensures CallerOk(Do(w, step), d) {
      if d != c {
        OthersKeep(w, step, c, d);
      }
    }
  }

  lemma SpendKeeps(w: World, step: Step)
    requires WorldOk(w) && step.Spend?
    ensures WorldOk(Do(w, step))
  {
    hide DbOk, Consume;
    var c := step.caller;
    var next := Do(w, step);
    if c in w.callers && w.callers[c].place == Spending && step.id !in w.db.receipts {
      var call := w.callers[c].call;
      SpendIsOwn(w.db, w.now, call, step.id);
      DbFacts(w.db);
      assert CallerOk(next, c) by {
        if Holds(next.callers[c].place).Some? {
          NewIsUnheld(w, step.id);
        }
      }
      MoveKeeps(w, step, c);
    }
  }

  lemma DbFacts(db: Db)
    requires DbOk(db)
    ensures db.settled <= db.receipts.Keys
  {
  }

  /** Spending either finds an older receipt or puts this very one on record, in flight and paid for. */
  lemma SpendIsOwn(db: Db, now: int, call: Call, id: string)
    requires DbOk(db) && id !in db.receipts
    ensures match Consume(db, now, call.approval, id, Receipt(call.ReceiptKey(), call.action, InFlight, ""))
      case Err(_) => true
      case Ok((next, stored)) => stored == id ==> Owns(next, call, id) && !IsFinal(next, id)
  {
    hide EventsOk;
  }

  /** A receipt that is not on record is in nobody's hands and was never sent under. */
  lemma NewIsUnheld(w: World, id: string)
    requires WorldOk(w) && id !in w.db.receipts
    ensures forall d | d in w.callers :: Holds(w.callers[d].place) != Some(id)
    ensures forall i | 0 <= i < |w.sent| :: w.sent[i].receipt != id
  {
    hide DbOk;
    forall d | d in w.callers ensures Holds(w.callers[d].place) != Some(id) {
      assert CallerOk(w, d);
    }
  }

  lemma SendKeeps(w: World, step: Step)
    requires WorldOk(w) && step.Send?
    ensures WorldOk(Do(w, step))
  {
    hide DbOk, Owns, IsFinal;
    var c := step.caller;
    var next := Do(w, step);
    if c in w.callers && w.callers[c].place.Sending? {
      assert CallerOk(w, c);
      assert next.db == w.db;
      forall d | d in next.callers ensures CallerOk(next, d) {
        assert CallerOk(w, d);
      }
    }
  }

  lemma CloseKeeps(w: World, step: Step)
    requires WorldOk(w) && step.Close?
    ensures WorldOk(Do(w, step))
  {
    hide DbOk, Settle;
    var c := step.caller;
    if c in w.callers && w.callers[c].place.Settling? {
      assert CallerOk(Do(w, step), c);
      MoveKeeps(w, step, c);
    }
  }

  lemma SentAsBefore(w: World, next: World)
    requires SentOk(w) && next.db == w.db && next.sent == w.sent
    ensures SentOk(next)
  {
  }

  /** One caller moves on, without tables or network, and holds no more than it did. */
  ghost predicate MovesOn(w: World, next: World, c: nat) {
    && next.db == w.db && next.sent == w.sent && c in next.callers && next.callers == w.callers[c := next.callers[c]]
    && var caller := next.callers[c];
    && (caller.place != Over ==> caller.call.bodySha == caller.call.action.payloadSha)
    && (Holds(caller.place).None?
        || (c in w.callers && caller.call == w.callers[c].call && Holds(caller.place) == Holds(w.callers[c].place)
            && HasNotSent(w.callers[c].place)))
  }

  lemma LookingMoves(w: World, step: Step)
    requires WorldOk(w) && (step.Begin? || step.Look? || step.Note? || step.Die?)
    ensures Do(w, step) == w || MovesOn(w, Do(w, step), step.caller)
  {
    hide DbOk, SentOk, HolderOk, FindReceipt;
    if step.caller in w.callers {
      assert CallerOk(w, step.caller);
    }
  }

  lemma MovingOnKeeps(w: World, next: World, c: nat)
    requires WorldOk(w) && MovesOn(w, next, c)
    ensures WorldOk(next)
  {
    hide DbOk, Owns, IsFinal, SentOk;
    SentAsBefore(w, next);
    forall d | d in next.callers ensures CallerOk(next, d) {
      if d in w.callers {
        assert CallerOk(w, d);
      }
    }
  }

  lemma LookingKeeps(w: World, step: Step)
    requires WorldOk(w) && (step.Begin? || step.Look? || step.Note? || step.Die?)
    ensures WorldOk(Do(w, step))
  {
    hide WorldOk, Do, MovesOn;
    LookingMoves(w, step);
    if Do(w, step) != w {
      MovingOnKeeps(w, Do(w, step), step.caller);
    }
  }

  /** The protocol's invariant survives every step of every participant. */
  lemma DoKeepsWorld(w: World, step: Step)
    requires WorldOk(w)
    ensures WorldOk(Do(w, step))
  {
    hide *;
    if step.Spend? {
      SpendKeeps(w, step);
    } else if step.Send? {
      SendKeeps(w, step);
    } else if step.Close? {
      CloseKeeps(w, step);
    } else if step.Begin? || step.Look? || step.Note? || step.Die? {
      LookingKeeps(w, step);
    } else {
      NobodyMoves(w, step);
      QuietStepKeeps(w, step);
    }
  }

  lemma NobodyMoves(w: World, step: Step)
    requires step.Wait? || step.Configure? || step.Propose? || step.Decide? || step.Record? || step.RunFixture?
    ensures Do(w, step).callers == w.callers && Do(w, step).sent == w.sent
  {
  }

  lemma {:induction false} PlayIsOk(w: World, steps: seq<Step>)
    requires WorldOk(w)
    ensures WorldOk(Play(w, steps))
  {
    hide WorldOk, Do;
    if steps != [] {
      PlayIsOk(w, Front(steps));
      DoKeepsWorld(Play(w, Front(steps)), Last(steps));
    }
  }

  // --- at most once -------------------------------------------------------------------------

  /** No two requests ever leave under one receipt, one connector and idempotency key, or one approval. */
  lemma AtMostOneSend(steps: seq<Step>, i: nat, j: nat)
    requires i < j < |Play(EMPTY, steps).sent|
    ensures var sent := Play(EMPTY, steps).sent;
      && sent[i].receipt != sent[j].receipt
      && sent[i].call.ReceiptKey() != sent[j].call.ReceiptKey()
      && sent[i].call.approval != sent[j].call.approval
  {
    PlayIsOk(EMPTY, steps);
    var w := Play(EMPTY, steps);
    hide Play, IndexOk;
    var a, b := w.sent[i], w.sent[j];
    assert Owns(w.db, a.call, a.receipt) && Owns(w.db, b.call, b.receipt);
    assert w.db.events[SpendName(a.call.ReceiptKey())] != w.db.events[SpendName(b.call.ReceiptKey())];
  }

  /** The request may leave: its receipt is durable and in flight, its approval is spent on that receipt and
      is for exactly this action and this payload, and the approval's decider is not its requester. */
  ghost predicate IsCovered(w: World, s: Sent) {
    && Owns(w.db, s.call, s.receipt) && w.db.receipts[s.receipt].status == InFlight
    && s.call.approval in w.db.approvals
    && var a := w.db.approvals[s.call.approval];
    && a.status == Consumed && a.action == s.call.action && a.decider.Some? && a.decider.value != a.requester
    && s.call.bodySha == a.action.payloadSha
  }

  lemma SendingIsCovered(w: World, step: Step)
    requires WorldOk(w) && Do(w, step).sent != w.sent
    ensures |Do(w, step).sent| == |w.sent| + 1 && w.sent <= Do(w, step).sent && IsCovered(w, Last(Do(w, step).sent))
  {
    hide IndexOk;
    assert step.Send? && CallerOk(w, step.caller);
    var call := w.callers[step.caller].call;
    assert SpentOk(w.db, SpendName(call.ReceiptKey())) && ApprovalOk(w.db.approvals[call.approval]);
  }

  /** Whatever leaves was covered before it left: for every send of any history there is the moment `k` just
      before it, at which it had not happened and was covered. */
  lemma {:induction false} EverySendIsCovered(steps: seq<Step>, i: nat) returns (k: nat)
    requires i < |Play(EMPTY, steps).sent|
    ensures k < |steps| && |Play(EMPTY, steps[..k]).sent| == i
    ensures IsCovered(Play(EMPTY, steps[..k]), Play(EMPTY, steps).sent[i])
    decreases |steps|
  {
    hide Do, IsCovered, WorldOk;
    var before := Play(EMPTY, Front(steps));
    EmptyIsOk();
    PlayIsOk(EMPTY, Front(steps));
    if before.sent != Play(EMPTY, steps).sent {
      SendingIsCovered(before, Last(steps));
    }
    if i < |before.sent| {
      k := EverySendIsCovered(Front(steps), i);
      assert steps[..k] == Front(steps)[..k];
    } else {
      k := |steps| - 1;
    }
  }

  /** An approval is spent at most once, and once spent it never changes again, nor does the record of
      what it was spent on. */
  lemma ApprovalIsSpentOnce(before: seq<Step>, after: seq<Step>, x: string, y: string)
    requires x in Play(EMPTY, before).db.events && y in Play(Play(EMPTY, before), after).db.events
    requires var w := Play(EMPTY, before);
      var later := Play(w, after);
      w.db.events[x].Spent? && later.db.events[y].Spent? && w.db.events[x].approval == later.db.events[y].approval
    ensures var w := Play(EMPTY, before);
      var later := Play(w, after);
      var a := w.db.events[x].approval;
      && x == y && later.db.events[y] == w.db.events[x]
      && a in w.db.approvals && a in later.db.approvals && later.db.approvals[a] == w.db.approvals[a]
  {
    PlayIsOk(EMPTY, before);
    var w := Play(EMPTY, before);
    PlayIsOk(w, after);
    PlayGrows(w, after);
    var later := Play(w, after);
    hide Play, IndexOk, KeepsReceipt;
    assert SpentOk(w.db, x) && EventsOk(later.db);
    assert later.db.events[x] == w.db.events[x];
    assert KeepsApproval(w.db.approvals[w.db.events[x].approval], later.db.approvals[w.db.events[x].approval]);
  }

  /** A settled receipt never changes: not accepted, not failed, and not even one settled as unknown. */
  lemma SettledReceiptStays(w: World, steps: seq<Step>, id: string)
    requires id in w.db.receipts && IsFinal(w.db, id)
    ensures id in Play(w, steps).db.receipts && Play(w, steps).db.receipts[id] == w.db.receipts[id]
  {
    PlayGrows(w, steps);
  }

  /** No approval is ever stored as expired: the update is rolled back with the refusal that follows it. */
  lemma ExpiredIsNeverStored(steps: seq<Step>, id: string)
    requires id in Play(EMPTY, steps).db.approvals
    ensures Play(EMPTY, steps).db.approvals[id].status != Expired
  {
    PlayIsOk(EMPTY, steps);
    assert ApprovalOk(Play(EMPTY, steps).db.approvals[id]);
  }

  // --- a caller that dies -------------------------------------------------------------------

  /** The receipt is open and nobody who could settle it is left. */
  ghost predicate IsOrphan(w: World, id: string) {
    && id in w.db.receipts && !IsFinal(w.db, id)
    && forall c | c in w.callers :: Holds(w.callers[c].place) != Some(id)
  }

  /** A receipt changes hands never: whoever holds it after a step held it before, or it is new. */
  lemma HoldersStay(w: World, step: Step, c: nat, id: string)
    requires id in w.db.receipts && c in Do(w, step).callers && Holds(Do(w, step).callers[c].place) == Some(id)
    ensures c in w.callers && Holds(w.callers[c].place) == Some(id)
  {
    hide Settle, DecideApproval, CreateApproval, FindReceipt, Classify;
  }

  lemma OnlyHoldersSend(w: World, step: Step)
    ensures w.sent <= Do(w, step).sent
    ensures forall s | s in Do(w, step).sent[|w.sent|..] ::
      step.Send? && step.caller in w.callers && Holds(w.callers[step.caller].place) == Some(s.receipt)
  {
    hide Consume, Settle, DecideApproval, CreateApproval, FindReceipt, Classify;
  }

  lemma OrphanStep(w: World, step: Step, id: string)
    requires IsOrphan(w, id)
    ensures IsOrphan(Do(w, step), id) && Do(w, step).db.receipts[id] == w.db.receipts[id]
    ensures w.sent <= Do(w, step).sent
    ensures forall s | s in Do(w, step).sent[|w.sent|..] :: s.receipt != id
  {
    hide Do, IsFinal;
    OnlyItsCallerCloses(w, step, id);
    OnlyHoldersSend(w, step);
    forall c | c in Do(w, step).callers ensures Holds(Do(w, step).callers[c].place) != Some(id) {
      if Holds(Do(w, step).callers[c].place) == Some(id) {
        HoldersStay(w, step, c, id);
      }
    }
  }

  /** Nothing retries an unresolved call: when its caller died between spending and settling, the receipt
      stays as it is for ever, and nothing leaves under its key again. */
  lemma {:induction false} OrphanIsLeftToAPerson(w: World, steps: seq<Step>, id: string)
    requires WorldOk(w) && IsOrphan(w, id)
    ensures IsOrphan(Play(w, steps), id) && Play(w, steps).db.receipts[id] == w.db.receipts[id]
    ensures w.sent <= Play(w, steps).sent
    ensures forall s | s in Play(w, steps).sent[|w.sent|..] ::
      s.receipt != id && s.call.ReceiptKey() != w.db.receipts[id].key
  {
    hide WorldOk, IsFinal, Do;
    if steps != [] {
      var before := Play(w, Front(steps));
      OrphanIsLeftToAPerson(w, Front(steps), id);
      PlayIsOk(w, Front(steps));
      OrphanStep(before, Last(steps), id);
      var next := Play(w, steps);
      PlayIsOk(w, steps);
      forall s | s in next.sent[|w.sent|..] ensures s.receipt != id && s.call.ReceiptKey() != w.db.receipts[id].key {
        OtherKey(w, next, before, s, id);
      }
    }
  }

  lemma OtherKey(w: World, next: World, before: World, s: Sent, id: string)
    requires WorldOk(next) && w.sent <= before.sent <= next.sent && s in next.sent[|w.sent|..]
    requires forall t | t in before.sent[|w.sent|..] :: t.receipt != id
    requires forall t | t in next.sent[|before.sent|..] :: t.receipt != id
    requires id in w.db.receipts && id in next.db.receipts && next.db.receipts[id] == w.db.receipts[id]
    ensures s.receipt != id && s.call.ReceiptKey() != w.db.receipts[id].key
  {
    var k :| |w.sent| <= k < |next.sent| && next.sent[k] == s;
    if k < |before.sent| {
      assert before.sent[k] in before.sent[|w.sent|..];
    } else {
      assert next.sent[k] in next.sent[|before.sent|..];
    }
    hide EventsOk;
    assert Owns(next.db, s.call, s.receipt);
  }
}
