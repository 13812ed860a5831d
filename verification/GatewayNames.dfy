/** Spending an approval is recorded under an event name made of connector and key with a hyphen between,
    in the table that also holds the clients' own request ids. Two keys can share a name, and a client can
    take it beforehand; either way a good approval is refused. A settlement is recorded in another such
    table, and a client that takes its name leaves the receipt in flight for ever. */
module GatewayNames {
  import opened Outcomes
  import opened GatewayModel
  import opened GatewaySafety

  function Joined(key: Key): string {
    key.connector + "-" + key.key
  }

  /** A receipt on record has a key that joins to the same text. */
  ghost predicate SharesText(db: Db, key: Key) {
    exists k :: k in db.index && Joined(k) == Joined(key)
  }

  /** A proposal or a decision was made under the name the spending needs. */
  predicate IsTaken(db: Db, key: Key) {
    SpendName(key) in db.events && !db.events[SpendName(key)].Spent?
  }

  lemma SameNameSameText(a: Key, b: Key)
    ensures SpendName(a) == SpendName(b) <==> Joined(a) == Joined(b)
  {
    assert SpendName(a) == "consume-" + Joined(a) && SpendName(b) == "consume-" + Joined(b);
    assert Joined(a) == ("consume-" + Joined(a))[8..] && Joined(b) == ("consume-" + Joined(b))[8..];
  }

  lemma NameIsUsed(db: Db, key: Key)
    requires DbOk(db)
    ensures SpendName(key) in db.events <==> SharesText(db, key) || IsTaken(db, key)
  {
    hide SpendName, Joined;
    if k :| k in db.index && Joined(k) == Joined(key) {
      SameNameSameText(k, key);
      assert HasEvent(db, db.index[k]);
    }
    if SpendName(key) in db.events && db.events[SpendName(key)].Spent? {
      assert SpentOk(db, SpendName(key));
      var k := db.receipts[db.events[SpendName(key)].receipt].key;
      SameNameSameText(k, key);
      assert k in db.index;
    }
  }

  /** The approval is good for this very action, nothing is on record under this key, and the receipt's
      random id is new. */
  predicate IsGood(w: World, approval: string, id: string, receipt: Receipt) {
    && approval in w.db.approvals && w.db.approvals[approval].status == Approved
    && w.db.approvals[approval].action == receipt.action && w.db.approvals[approval].expires > w.now
    && receipt.key !in w.db.index && id !in w.db.receipts
  }

  /** When a good approval is refused, in any history: exactly when another key on record joins to the same
      text, or somebody made a proposal or a decision under that name. Otherwise it is spent; and no other
      approval ever is. */
  lemma GoodApprovalRefused(steps: seq<Step>, approval: string, id: string, receipt: Receipt)
    requires var w := Play(EMPTY, steps); receipt.key !in w.db.index && id !in w.db.receipts
    ensures var w := Play(EMPTY, steps);
      var good := IsGood(w, approval, id, receipt);
      && (good ==> (Consume(w.db, w.now, approval, id, receipt) == Err(DuplicateRow) <==>
                    SharesText(w.db, receipt.key) || IsTaken(w.db, receipt.key)))
      && (Consume(w.db, w.now, approval, id, receipt).Ok? <==>
          good && !SharesText(w.db, receipt.key) && !IsTaken(w.db, receipt.key))
  {
    PlayIsOk(EMPTY, steps);
    var w := Play(EMPTY, steps);
    hide Play, DbOk, SharesText, IsTaken;
    NameIsUsed(w.db, receipt.key);
  }

  /** The name of a key on record is that of its spending. */
  lemma SpendIsSpent(steps: seq<Step>, key: Key)
    requires key in Play(EMPTY, steps).db.index
    ensures !IsTaken(Play(EMPTY, steps).db, key)
  {
    PlayIsOk(EMPTY, steps);
    var w := Play(EMPTY, steps);
    hide Play;
    assert HasEvent(w.db, w.db.index[key]);
  }

  // --- a history for each cause -------------------------------------------------------------

  /** An approval of the action, proposed by one person and approved by another. */
  function Granted(db: Db, id: string, action: Action, asked: string, said: string): Db {
    db.(approvals := db.approvals[id := Approval(Approved, action, "maker", Some("boss"), 10)],
        events := db.events[asked := Requested(id)][said := Decided(id)])
  }

  function Asks(id: string, action: Action, asked: string): Step {
    Propose(id, action, "maker", 10, asked)
  }

  function Agrees(id: string, action: Action, said: string): Step {
    Decide(id, "boss", action, true, said)
  }

  lemma GrantGoes(w: World, id: string, action: Action, asked: string, said: string)
    requires w.now < 10 && id !in w.db.approvals && asked !in w.db.events && said !in w.db.events && asked != said
    ensures var then' := Do(w, Asks(id, action, asked));
      Do(then', Agrees(id, action, said)) == w.(db := Granted(w.db, id, action, asked, said))
  {
    var once := Do(w, Asks(id, action, asked));
    assert once.db.approvals[id] == Approval(Pending, action, "maker", None, 10);
    var approved := Approval(Approved, action, "maker", Some("boss"), 10);
    var pending := Approval(Pending, action, "maker", None, 10);
    assert w.db.approvals[id := pending][id := approved] == w.db.approvals[id := approved];
  }

  lemma PlayTwo(w: World, steps: seq<Step>, a: Step, b: Step)
    ensures Play(w, steps + [a, b]) == Do(Do(Play(w, steps), a), b)
  {
    hide Do;
    assert Front(steps + [a, b]) == steps + [a] && Front(steps + [a]) == steps;
  }

  const MAIL := Action("mail", "send", "list", "letter", "sha")

  /** A proposal under the request id "consume-mail-key00001" blocks its own approval's first use under
      the key "key00001": no receipt is on record anywhere. */
  lemma ProposalTakesTheName()
    ensures var w := Play(EMPTY, [Asks("p", MAIL, "consume-mail-key00001"), Agrees("p", MAIL, "decide-1")]);
      var receipt := Receipt(Key("mail", "key00001"), MAIL, InFlight, "");
      && w.db.index == map[] && IsGood(w, "p", "r", receipt) && IsTaken(w.db, receipt.key)
      && Consume(w.db, w.now, "p", "r", receipt) == Err(DuplicateRow)
  {
    hide Do, SpendName;
    var ask, agree := Asks("p", MAIL, "consume-mail-key00001"), Agrees("p", MAIL, "decide-1");
    PlayTwo(EMPTY, [], ask, agree);
    assert [] + [ask, agree] == [ask, agree];
    GrantGoes(EMPTY, "p", MAIL, "consume-mail-key00001", "decide-1");
    MailName();
  }

  lemma MailName()
    ensures SpendName(Key("mail", "key00001")) == "consume-mail-key00001"
  {
  }

  const FIRST := Action("ab-cd", "send", "list", "letter", "sha")
  const SECOND := Action("ab", "send", "list", "letter", "sha")

  /** A rehearsal under connector "ab-cd" and key "eeeeeeee", then an approval for connector "ab". */
  function SharedHistory(): seq<Step> {
    [Asks("p", FIRST, "propose-1"), Agrees("p", FIRST, "decide-1")]
    + [Configure({}, FIXTURES), RunFixture(Call(FIRST, "sha", "p", "eeeeeeee"), "r", "")]
    + [Asks("q", SECOND, "propose-22"), Agrees("q", SECOND, "decide-2222")]
  }

  /** Its first use under the key "cd-eeeeeeee" is refused: both keys are written "ab-cd-eeeeeeee". */
  lemma AnotherKeySharesTheName()
    ensures var w := Play(EMPTY, SharedHistory());
      var receipt := Receipt(Key("ab", "cd-eeeeeeee"), SECOND, InFlight, "");
      && REHEARSED in w.db.index && IsGood(w, "q", "s", receipt)
      && SharesText(w.db, receipt.key) && !IsTaken(w.db, receipt.key)
      && Consume(w.db, w.now, "q", "s", receipt) == Err(DuplicateRow)
  {
    hide Play, SharedHistory, SpendName, Consume, Joined;
    var w := SharedWorld();
    var key := Key("ab", "cd-eeeeeeee");
    BothAreWrittenAlike(key);
    SpendIsSpent(SharedHistory(), REHEARSED);
    GoodApprovalRefused(SharedHistory(), "q", "s", Receipt(key, SECOND, InFlight, ""));
  }

  const REHEARSED := Key("ab-cd", "eeeeeeee")
  const FIXTURES: set<(string, string)> := {("ab-cd", "send")}

  /** The database after the rehearsal spent approval "p". */
  function Rehearsal(db: Db): Db
    requires "p" in db.approvals
  {
    Db(db.approvals["p" := db.approvals["p"].(status := Consumed)],
       db.receipts["r" := Receipt(REHEARSED, FIRST, Accepted, "")],
       db.index[REHEARSED := "r"], db.events[SpendName(REHEARSED) := Spent("p", "r")], db.settled, db.operations)
  }

  lemma RehearsalGoes(w: World)
    requires IsGood(w, "p", "r", Receipt(REHEARSED, FIRST, Accepted, "")) && SpendName(REHEARSED) !in w.db.events
    ensures Do(Do(w, Configure({}, FIXTURES)), RunFixture(Call(FIRST, "sha", "p", "eeeeeeee"), "r", "")) ==
      w.(live := {}, fixtures := FIXTURES, db := Rehearsal(w.db))
  {
  }

  lemma BothAreWrittenAlike(key: Key)
    requires key == Key("ab", "cd-eeeeeeee")
    ensures Joined(key) == Joined(REHEARSED) && SpendName(key) == SpendName(REHEARSED) && key != REHEARSED
  {
    assert "ab" + "-" + "cd-eeeeeeee" == "ab-cd" + "-" + "eeeeeeee";
    assert |"ab"| != |"ab-cd"|;
    SameNameSameText(key, REHEARSED);
  }

  lemma SharedWorld() returns (w: World)
    ensures w == Play(EMPTY, SharedHistory()) && w.now == 0
    ensures w.db.approvals.Keys == {"p", "q"}
    ensures w.db.approvals["q"] == Approval(Approved, SECOND, "maker", Some("boss"), 10)
    ensures w.db.index == map[REHEARSED := "r"] && w.db.receipts.Keys == {"r"}
    ensures w.db.events.Keys == {"propose-1", "decide-1", SpendName(REHEARSED), "propose-22", "decide-2222"}
  {
    hide Do, SpendName;
    var w1 := EMPTY.(db := Granted(EMPTY.db, "p", FIRST, "propose-1", "decide-1"));
    var w2 := w1.(live := {}, fixtures := FIXTURES, db := Rehearsal(w1.db));
    w := w2.(db := Granted(w2.db, "q", SECOND, "propose-22", "decide-2222"));
    assert |SpendName(REHEARSED)| == 22 by { LongName(); }
    var one := [Asks("p", FIRST, "propose-1"), Agrees("p", FIRST, "decide-1")];
    var configure, rehearse := Configure({}, FIXTURES), RunFixture(Call(FIRST, "sha", "p", "eeeeeeee"), "r", "");
    assert [] + [one[0], one[1]] == one;
    PlayTwo(EMPTY, [], one[0], one[1]);
    GrantGoes(EMPTY, "p", FIRST, "propose-1", "decide-1");
    PlayTwo(EMPTY, one, configure, rehearse);
    RehearsalGoes(w1);
    PlayTwo(EMPTY, one + [configure, rehearse], Asks("q", SECOND, "propose-22"), Agrees("q", SECOND, "decide-2222"));
    GrantGoes(w2, "q", SECOND, "propose-22", "decide-2222");
  }

  lemma LongName()
    ensures |SpendName(REHEARSED)| == 22
  {
  }

  // --- a settlement whose name is taken -----------------------------------------------------

  /** When a caller's settlement is refused, in any history: exactly when a client's own request has taken
      its name. Then nothing is written, and whatever happens afterwards the receipt stays in flight. */
  lemma SettlementRefused(steps: seq<Step>, c: nat, after: seq<Step>)
    requires var w := Play(EMPTY, steps); c in w.callers && w.callers[c].place.Settling?
    ensures var w := Play(EMPTY, steps);
      var id, next := w.callers[c].place.receipt, Do(w, Close(c));
      && (id in next.db.settled <==> SettleName(id) !in w.db.operations)
      && (SettleName(id) in w.db.operations ==>
            && next.db == w.db && id in Play(next, after).db.receipts
            && Play(next, after).db.receipts[id].status == InFlight && id !in Play(next, after).db.settled)
  {
    PlayIsOk(EMPTY, steps);
    var w := Play(EMPTY, steps);
    var id, next := w.callers[c].place.receipt, Do(w, Close(c));
    hide Play, Do, WorldOk, SettleName;
    ClosedIf(w, c, id);
    if SettleName(id) in w.db.operations {
      DoKeepsWorld(w, Close(c));
      OrphanIsLeftToAPerson(next, after, id);
    }
  }

  lemma ClosedIf(w: World, c: nat, id: string)
    requires WorldOk(w) && c in w.callers && w.callers[c].place.Settling? && w.callers[c].place.receipt == id
    ensures id in Do(w, Close(c)).db.settled <==> SettleName(id) !in w.db.operations
    ensures SettleName(id) in w.db.operations ==>
      && Do(w, Close(c)).db == w.db && IsOrphan(Do(w, Close(c)), id)
      && w.db.receipts[id].status == InFlight && id !in w.db.settled
  {
    hide DbOk, SettleName, SentOk, Owns;
    assert CallerOk(w, c) && HolderOk(w, c, Some(id));
    OwnedIsThere(w.db, w.callers[c].call, id);
  }

  const CALL := Call(MAIL, "sha", "p", "key00001")
  const LIVE: set<(string, string)> := {("mail", "send")}

  /** A call goes out, and before it is settled a client uses "settle-r" as a request id of its own. */
  function TakenHistory(): seq<Step> {
    [Asks("p", MAIL, "propose-1"), Agrees("p", MAIL, "decide-1"), Configure(LIVE, {}), Begin(0, CALL), Look(0, true),
     Spend(0, "r"), Note(0, true), Send(0, Status(200)), Record("settle-r")]
  }

  lemma CallPays(w: World)
    requires w == EMPTY.(db := Granted(EMPTY.db, "p", MAIL, "propose-1", "decide-1"))
    ensures var paid := Do(Do(Do(Do(w, Configure(LIVE, {})), Begin(0, CALL)), Look(0, true)), Spend(0, "r"));
      && 0 in paid.callers && paid.callers[0] == Caller(CALL, Noting("r")) && paid.sent == []
      && paid.db.settled == {} && paid.db.operations == {}
  {
    assert |SpendName(CALL.ReceiptKey())| > 10;
  }

  lemma CallGoesOut(w: World)
    requires 0 in w.callers && w.callers[0] == Caller(CALL, Noting("r")) && w.sent == []
    ensures var next := Do(Do(w, Note(0, true)), Send(0, Status(200)));
      && 0 in next.callers && next.callers[0].place == Settling("r", Status(200)) && |next.sent| == 1 && next.db == w.db
  {
  }

  /** The provider accepted, and the receipt is left in flight. */
  lemma ClientTakesTheSettlement()
    ensures var w := Play(EMPTY, TakenHistory());
      && 0 in w.callers && w.callers[0].place == Settling("r", Status(200)) && |w.sent| == 1
      && SettleName("r") in w.db.operations
  {
    var s := TakenHistory();
    hide Do, SettleName;
    CallIsPaid();
    PlayTwo(EMPTY, s[..6], s[6], s[7]);
    assert s[..6] + [s[6], s[7]] == s[..8] == Front(s);
    CallGoesOut(Play(EMPTY, s[..6]));
    NameIsTaken(Play(EMPTY, s[..8]));
  }

  lemma CallIsPaid()
    ensures var w := Play(EMPTY, TakenHistory()[..6]);
      && 0 in w.callers && w.callers[0] == Caller(CALL, Noting("r")) && w.sent == []
      && w.db.settled == {} && w.db.operations == {}
  {
    var s := TakenHistory();
    assert Play(EMPTY, []) == EMPTY;
    hide Do, Play, Granted;
    assert s[..2] == [s[0], s[1]] && [] + [s[0], s[1]] == s[..2];
    PlayTwo(EMPTY, [], s[0], s[1]);
    GrantGoes(EMPTY, "p", MAIL, "propose-1", "decide-1");
    PlayTwo(EMPTY, s[..2], s[2], s[3]);
    assert s[..2] + [s[2], s[3]] == s[..4];
    PlayTwo(EMPTY, s[..4], s[4], s[5]);
    assert s[..4] + [s[4], s[5]] == s[..6];
    CallPays(Play(EMPTY, s[..2]));
  }

  lemma NameIsTaken(w: World)
    requires w.db.settled == {}
    ensures Do(w, Record("settle-r")) == w.(db := w.db.(operations := w.db.operations + {SettleName("r")}))
  {
    assert SettleName("r") == "settle-r";
  }

  // --- a call that is overtaken -------------------------------------------------------------

  /** Two calls under one key both look before either spends; the first spends, sends and hears nothing certain. */
  const OVERTAKEN: seq<Step> := [
    Asks("p", MAIL, "propose-1"), Agrees("p", MAIL, "decide-1"), Configure(LIVE, {}), Begin(0, CALL), Begin(1, CALL),
    Look(0, true), Look(1, true), Spend(0, "r"), Note(0, true), Send(0, Status(503))]

  /** The second call then finds the first one's receipt as it spends, and is answered with it as with a call that
      is done, although whether it took effect is unknown: only the look before refuses a receipt in flight. */
  lemma OvertakenCallIsAnswered()
    ensures var w := Play(EMPTY, OVERTAKEN);
      && 1 in w.callers && w.callers[1] == Caller(CALL, Spending)
      && "r" in w.db.receipts && w.db.receipts["r"].status == InFlight && |w.sent| == 1
      && var intent := Receipt(CALL.ReceiptKey(), CALL.action, InFlight, "");
         Consume(w.db, w.now, CALL.approval, "s", intent) == Ok((w.db, "r"))
  {
    var s := OVERTAKEN;
    hide Do;
    OvertakenLooks();
    var looked := Do(Play(EMPTY, s[..6]), s[6]);
    PlayTwo(EMPTY, s[..6], s[6], s[7]);
    assert s[..6] + [s[6], s[7]] == s[..8];
    FirstPays(looked);
    PlayTwo(EMPTY, s[..8], s[8], s[9]);
    assert s[..8] + [s[8], s[9]] == s;
    FirstSends(Do(looked, s[7]));
  }

  lemma OvertakenLooks()
    ensures var looked := Do(Play(EMPTY, OVERTAKEN[..6]), OVERTAKEN[6]);
      && looked.db == Granted(EMPTY.db, "p", MAIL, "propose-1", "decide-1") && looked.now == 0 && looked.sent == []
      && 0 in looked.callers && looked.callers[0] == Caller(CALL, Spending)
      && 1 in looked.callers && looked.callers[1] == Caller(CALL, Spending)
  {
    var s := OVERTAKEN;
    hide Do;
    PlayTwo(EMPTY, [], s[0], s[1]);
    assert [] + [s[0], s[1]] == s[..2];
    GrantGoes(EMPTY, "p", MAIL, "propose-1", "decide-1");
    PlayTwo(EMPTY, s[..2], s[2], s[3]);
    assert s[..2] + [s[2], s[3]] == s[..4];
    PlayTwo(EMPTY, s[..4], s[4], s[5]);
    assert s[..4] + [s[4], s[5]] == s[..6];
    BothLook(Play(EMPTY, s[..2]));
  }

  lemma BothLook(w: World)
    requires w == EMPTY.(db := Granted(EMPTY.db, "p", MAIL, "propose-1", "decide-1"))
    ensures var begun := Do(Do(Do(w, Configure(LIVE, {})), Begin(0, CALL)), Begin(1, CALL));
      var looked := Do(Do(begun, Look(0, true)), Look(1, true));
      && 0 in looked.callers && looked.callers[0] == Caller(CALL, Spending)
      && 1 in looked.callers && looked.callers[1] == Caller(CALL, Spending)
      && looked.db == w.db && looked.now == w.now && looked.sent == []
  {
  }

  lemma FirstPays(w: World)
    requires w.db == Granted(EMPTY.db, "p", MAIL, "propose-1", "decide-1") && w.now == 0 && w.sent == []
    requires 0 in w.callers && w.callers[0] == Caller(CALL, Spending)
    requires 1 in w.callers && w.callers[1] == Caller(CALL, Spending)
    ensures var paid := Do(w, Spend(0, "r"));
      && 0 in paid.callers && paid.callers[0] == Caller(CALL, Noting("r")) && paid.sent == [] && paid.now == 0
      && 1 in paid.callers && paid.callers[1] == Caller(CALL, Spending)
      && FindReceipt(paid.db, CALL.ReceiptKey()) == Some(("r", Receipt(CALL.ReceiptKey(), MAIL, InFlight, "")))
  {
    assert |SpendName(CALL.ReceiptKey())| > 10;
  }

  lemma FirstSends(w: World)
    requires 0 in w.callers && w.callers[0] == Caller(CALL, Noting("r")) && w.sent == []
    requires 1 in w.callers && w.callers[1] == Caller(CALL, Spending)
    ensures var next := Do(Do(w, Note(0, true)), Send(0, Status(503)));
      1 in next.callers && next.callers[1] == Caller(CALL, Spending) && |next.sent| == 1 && next.db == w.db
  {
  }
}
