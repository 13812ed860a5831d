/** The outward-call protocol as concurrent callers see it (`live_gateway`, `db_connectors`, `db_runs`):
    every database transaction is one step, callers interleave in any order, and a caller may die
    between any two of its steps. */
module GatewayModel {
  import opened Outcomes

  /** The digest of an action, taken to determine its fields. */
  datatype Action = Action(connector: string, action: string, target: string, payloadRef: string, payloadSha: string)

  datatype ApprovalStatus = Pending | Approved | Rejected | Consumed | Expired

  datatype Approval = Approval(
    status: ApprovalStatus, action: Action, requester: string, decider: Option<string>, expires: int)

  datatype ReceiptStatus = InFlight | Accepted | Failed

  /** The idempotency key is scoped by connector. */
  datatype Key = Key(connector: string, key: string)

  datatype Receipt = Receipt(key: Key, action: Action, status: ReceiptStatus, note: string)

  /** What an approval event records. */
  datatype Entry = Requested(approval: string) | Decided(approval: string) | Spent(approval: string, receipt: string)

  /** The tables: approvals and receipts by id, the unique index on receipt keys, the approval events by
      request id; and of the operational events, which are unique by request id as well, the receipts that
      have a settlement event and the ids of the clients' own requests. */
  datatype Db = Db(
    approvals: map<string, Approval>, receipts: map<string, Receipt>, index: map<Key, string>,
    events: map<string, Entry>, settled: set<string>, operations: set<string>)

  datatype Refusal =
    | NotFound | KeyReused | Unresolved | NotApproved | WrongAction | PastExpiry | DuplicateRow | NotPending
    | OwnRequest | AlreadySettled | NotAdmitted | PayloadMismatch | NoSecret | AuditRefused | Unavailable | Stopped

  // --- transactions: all or nothing ---------------------------------------------------------

  function FindReceipt(db: Db, key: Key): Option<(string, Receipt)> {
    if key in db.index && db.index[key] in db.receipts then Some((db.index[key], db.receipts[db.index[key]])) else None
  }

  function CreateApproval(db: Db, id: string, action: Action, requester: string, expires: int, rid: string)
    : Result<Db, Refusal>
  {
    if id in db.approvals || rid in db.events then Err(DuplicateRow)
    else Ok(db.(approvals := db.approvals[id := Approval(Pending, action, requester, None, expires)],
                events := db.events[rid := Requested(id)]))
  }

  function DecideApproval(db: Db, now: int, id: string, actor: string, action: Action, approve: bool, rid: string)
    : Result<Db, Refusal>
  {
    if id !in db.approvals then Err(NotFound)
    else
      var a := db.approvals[id];
      if a.status != Pending then Err(NotPending)
      else if a.requester == actor then Err(OwnRequest)
      else if a.action != action then Err(WrongAction)
      else if a.expires <= now then Err(PastExpiry)
      else if rid in db.events then Err(DuplicateRow)
      else Ok(db.(approvals := db.approvals[id := a.(status := if approve then Approved else Rejected,
                                                     decider := Some(actor))],
                  events := db.events[rid := Decided(id)]))
  }

  function SpendName(key: Key): string {
    "consume-" + key.connector + "-" + key.key
  }

  /** Spends the approval and records the receipt, or finds the receipt that is already there. The
      result names the receipt on record. */
  function Consume(db: Db, now: int, approval: string, id: string, receipt: Receipt): Result<(Db, string), Refusal> {
    match FindReceipt(db, receipt.key)
    case Some(prior) => if prior.1.action != receipt.action then Err(KeyReused) else Ok((db, prior.0))
    case None =>
      if approval !in db.approvals then Err(NotFound)
      else
        var a := db.approvals[approval];
        if a.status != Approved then Err(NotApproved)
        else if a.action != receipt.action then Err(WrongAction)
        else if a.expires <= now then Err(PastExpiry)
        else if id in db.receipts || receipt.key in db.index || SpendName(receipt.key) in db.events then
          Err(DuplicateRow)
        else Ok((db.(approvals := db.approvals[approval := a.(status := Consumed)],
                     receipts := db.receipts[id := receipt],
                     index := db.index[receipt.key := id],
                     events := db.events[SpendName(receipt.key) := Spent(approval, id)]), id))
  }

  /** The request id a settlement is recorded under. */
  function SettleName(id: string): string {
    "settle-" + id
  }

  /** A client's own operational request, under an id of its choosing. */
  function Operate(db: Db, rid: string): Db {
    if exists id :: id in db.settled && SettleName(id) == rid then db else db.(operations := db.operations + {rid})
  }

  /** Closes a receipt that is in flight. Its event's name may be taken; then nothing is written. */
  function Settle(db: Db, id: string, status: ReceiptStatus, note: string): Result<Db, Refusal> {
    if id !in db.receipts then Err(NotFound)
    else if db.receipts[id].status != InFlight then Err(AlreadySettled)
    else if id in db.settled || SettleName(id) in db.operations then Err(DuplicateRow)
    else Ok(db.(receipts := db.receipts[id := db.receipts[id].(status := status, note := note)],
                settled := db.settled + {id}))
  }

  /** What the transport can say: the request never left, it left and nothing came back, or a status. */
  datatype Answer = NeverLeft(why: string) | NoResponse(why: string) | Status(code: int)

  const AMBIGUOUS: set<int> := {408, 425, 429}

  function Classify(answer: Answer): ReceiptStatus {
    match answer
    case NeverLeft(_) => Failed
    case NoResponse(_) => InFlight
    case Status(code) =>
      if 200 <= code < 300 then Accepted
      else if code in AMBIGUOUS || code >= 500 then InFlight
      else Failed
  }

  function NoteOf(answer: Answer): string {
    match answer
    case NeverLeft(why) => why
    case NoResponse(why) => why
    case Status(_) => match Classify(answer)
      case Accepted => "provider accepted"
      case InFlight => "whether it took effect is unknown"
      case Failed => "provider rejected"
  }

  // --- callers ------------------------------------------------------------------------------

  /** One `execute` call; `bodySha` is the digest of the payload it was really handed. */
  datatype Call = Call(action: Action, bodySha: string, approval: string, key: string)
  {
    function ReceiptKey(): Key {
      Key(action.connector, key)
    }
  }

  /** Where a caller stands: about to look, about to spend, holding its receipt with the audit line still
      to write, about to send, about to settle, or finished (or dead). */
  datatype Place =
    | Looking | Spending | Noting(receipt: string) | Sending(receipt: string)
    | Settling(receipt: string, answer: Answer)
    | Over

  datatype Caller = Caller(call: Call, place: Place)

  /** A request that left this host, and what came of it. */
  datatype Sent = Sent(call: Call, receipt: string, answer: Answer)

  /** `live` and `fixtures` are the connector actions admitted right now on each path. */
  datatype World = World(
    db: Db, now: int, live: set<(string, string)>, fixtures: set<(string, string)>, callers: map<nat, Caller>,
    sent: seq<Sent>)

  datatype Step =
    | Wait(seconds: nat)
    | Configure(live: set<(string, string)>, fixtures: set<(string, string)>)
    | Propose(id: string, action: Action, requester: string, expires: int, rid: string)
    | Decide(id: string, actor: string, action: Action, approve: bool, rid: string)
    | Record(rid: string)
    | RunFixture(call: Call, id: string, note: string)
    | Begin(caller: nat, call: Call)
    | Look(caller: nat, hasSecret: bool)
    | Spend(caller: nat, id: string)
    | Note(caller: nat, written: bool)
    | Send(caller: nat, answer: Answer)
    | Close(caller: nat)
    | Die(caller: nat)

  function Or<T>(r: Result<T, Refusal>, otherwise: T): T {
    match r case Ok(value) => value case Err(_) => otherwise
  }

  function Moves(w: World, caller: nat, place: Place): World
    requires caller in w.callers
  {
    w.(callers := w.callers[caller := w.callers[caller].(place := place)])
  }

  /** The connector's action is authorized now, and the payload handed in is the approved one. */
  predicate IsAdmitted(w: World, call: Call) {
    (call.action.connector, call.action.action) in w.live && call.bodySha == call.action.payloadSha
  }

  /** One step of one participant. A step that is not possible now changes nothing. */
  function Do(w: World, step: Step): World {
    match step
    case Wait(seconds) => w.(now := w.now + seconds)
    case Configure(live, fixtures) => w.(live := live, fixtures := fixtures)
    case Propose(id, action, requester, expires, rid) =>
      w.(db := Or(CreateApproval(w.db, id, action, requester, expires, rid), w.db))
    case Decide(id, actor, action, approve, rid) =>
      w.(db := Or(DecideApproval(w.db, w.now, id, actor, action, approve, rid), w.db))
    case Record(rid) => w.(db := Operate(w.db, rid))
    case RunFixture(call, id, note) =>
      if (call.action.connector, call.action.action) in w.fixtures then
        var receipt := Receipt(call.ReceiptKey(), call.action, Accepted, note);
        w.(db := Or(Consume(w.db, w.now, call.approval, id, receipt), (w.db, "")).0)
      else w
    case Begin(caller, call) =>
      if caller in w.callers then w
      else
        w.(callers := w.callers[caller := Caller(call, if IsAdmitted(w, call) then Looking else Over)])
    case Look(caller, hasSecret) =>
      if caller !in w.callers || w.callers[caller].place != Looking then w
      else if FindReceipt(w.db, w.callers[caller].call.ReceiptKey()).Some? || !hasSecret then Moves(w, caller, Over)
      else Moves(w, caller, Spending)
    case Spend(caller, id) => DoSpend(w, caller, id)
    case Note(caller, written) =>
      if caller !in w.callers || !w.callers[caller].place.Noting? then w
      else Moves(w, caller, if written then Sending(w.callers[caller].place.receipt) else Over)
    case Send(caller, answer) => DoSend(w, caller, answer)
    case Close(caller) => DoClose(w, caller)
    case Die(caller) => if caller in w.callers then Moves(w, caller, Over) else w
  }

  /** Only the caller whose own receipt went on record goes on to send. Receipt ids are drawn at random;
      one that is already on record is never drawn again. */
  function DoSpend(w: World, caller: nat, id: string): World {
    if caller !in w.callers || w.callers[caller].place != Spending || id in w.db.receipts then w
    else
      var call := w.callers[caller].call;
      match Consume(w.db, w.now, call.approval, id, Receipt(call.ReceiptKey(), call.action, InFlight, ""))
      case Err(_) => Moves(w, caller, Over)
      case Ok((db, stored)) => Moves(w.(db := db), caller, if stored != id then Over else Noting(id))
  }

  function DoSend(w: World, caller: nat, answer: Answer): World {
    if caller !in w.callers || !w.callers[caller].place.Sending? then w
    else
      var id := w.callers[caller].place.receipt;
      var left := if answer.NeverLeft? then [] else [Sent(w.callers[caller].call, id, answer)];
      Moves(w.(sent := w.sent + left), caller, Settling(id, answer))
  }

  function DoClose(w: World, caller: nat): World {
    if caller !in w.callers || !w.callers[caller].place.Settling? then w
    else
      var place := w.callers[caller].place;
      Moves(w.(db := Or(Settle(w.db, place.receipt, Classify(place.answer), NoteOf(place.answer)), w.db)), caller, Over)
  }

  function Play(w: World, steps: seq<Step>): World {
    if steps == [] then w else Do(Play(w, Front(steps)), Last(steps))
  }
}
