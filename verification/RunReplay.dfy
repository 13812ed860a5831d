/** Idempotent replay: a request id is spent at most once, and re-issuing a request that was applied
    is recognised for ever after. */
module RunReplay {
  import opened Outcomes
  import opened Workflows
  import opened RunModel
  import opened RunInvariants
  import opened RunLedger
  import opened RunFencing

  /** No two rows of a run share a request id. */
  lemma {:induction false} RequestIdsAreDistinct(log: Log, i: nat, j: nat)
    requires log != [] && Reached(log) && i < j < |log|
    ensures log[i].requestId != log[j].requestId
  {
    hide Reached, RowOk, Successor;
    var a := NeighbourAction(log, j);
    NextIsSuccessor(log[..j], a);
    assert log[i] == log[..j][i];
  }

  lemma {:induction false} PriorIsUnique(log: Log, i: nat)
    requires log != [] && Reached(log) && i < |log|
    ensures Prior(log, log[i].requestId) == Some(log[i])
  {
    hide Reached;
    var found := Prior(log, log[i].requestId);
    assert log[i] in log;
    var j :| 0 <= j < |log| && log[j] == found.value;
    if i < j {
      RequestIdsAreDistinct(log, i, j);
    } else if j < i {
      RequestIdsAreDistinct(log, j, i);
    }
  }

  lemma {:induction false} RunIdIsFixed(log: Log, i: nat, j: nat)
    requires log != [] && Reached(log) && i <= j < |log|
    ensures log[i].runId == log[j].runId && log[i].revision == log[j].revision
    decreases j
  {
    hide Reached, RowOk, Successor, NextRow, SameShapes;
    if i < j {
      var a := NeighbourAction(log, j);
      RowStamp(log[j - 1], a);
      RunIdIsFixed(log, i, j - 1);
    }
  }

  /** The row records this very request: its event, its actor and its target. */
  predicate IsRowOf(row: Row, c: Command, runId: string) {
    row.event == EventOf(c) && row.actor == ActorOf(c) && row.target == TargetOf(c, runId)
  }

  lemma DecidedRowNames(row: Row, rid: string, c: Command, e: Env)
    requires Precheck(c, e).None?
    ensures Decide(row, rid, c, e).Applied? ==>
      var next := Decide(row, rid, c, e).row;
      IsRowOf(next, c, row.runId)
    ensures Decide(row, rid, c, e).AtCeiling? ==> Decide(row, rid, c, e).row.event == CycleLimitHit
  {
  }

  lemma AppendedRowNames(log: Log, rid: string, c: Command, e: Env)
    requires log != [] && NextRow(log, Ask(rid, c, e)).Some?
    ensures var next := NextRow(log, Ask(rid, c, e)).value;
      if Mutate(log, rid, c, e).Applied? then IsRowOf(next, c, Last(log).runId) else next.event == CycleLimitHit
  {
    hide Decide;
    DecidedRowNames(Last(log), rid, c, e);
  }

  /** The same request, made again at another time. */
  function Again(a: Action, now: Env): Action {
    match a
    case Ask(rid, c, _) => Ask(rid, c, now)
    case Extend(rid, approver, cycles, _) => Extend(rid, approver, cycles, now)
  }

  /** Re-issuing a request whose row is in the log changes nothing, whatever has happened since and
      whatever the clock and the disk say now. A request that was applied is answered as a replay, unless
      its evidence has gone from the disk since, which is refused before the log is read. The request that
      hit the cycle ceiling left its id on the ceiling's own row, so it is refused, also after the budget
      was extended. */
  lemma ReissueChangesNothing(log: Log, i: nat, a: Action, now: Env)
    requires log != [] && Reached(log) && 0 < i < |log| && NextRow(log[..i], a) == Some(log[i])
    ensures NextRow(log, Again(a, now)).None?
    ensures Respond(log, Again(a, now)) ==
      if a.Ask? && Precheck(a.command, now).Some? then Refused(Precheck(a.command, now).value)
      else if Respond(log[..i], a).Applied? then Replayed
      else Refused(RequestReused)
  {
    hide Reached, Mutate, ExtendBudget, Prior, Precheck;
    NextIsSuccessor(log[..i], a);
    PriorIsUnique(log, i);
    if a.Ask? {
      RunIdIsFixed(log, i - 1, |log| - 1);
      AskedAgain(log[..i], log, log[i], a, now);
    } else {
      ExtendedAgain(log[..i], log, a, now);
    }
  }

  lemma AskedAgain(was: Log, log: Log, row: Row, a: Action, now: Env)
    requires was != [] && log != [] && a.Ask? && NextRow(was, a) == Some(row) && Prior(log, a.rid) == Some(row)
    requires Last(was).runId == Last(log).runId
    ensures Respond(log, Again(a, now)) ==
      if Precheck(a.command, now).Some? then Refused(Precheck(a.command, now).value)
      else if Respond(was, a).Applied? then Replayed
      else Refused(RequestReused)
  {
    hide Mutate, Prior, Precheck, NextRow;
    AppendedRowNames(was, a.rid, a.command, a.env);
    AnsweredAgain(log, row, a.rid, a.command, now);
  }

  lemma ExtendedAgain(was: Log, log: Log, a: Action, now: Env)
    requires was != [] && log != [] && a.Extend? && NextRow(was, a).Some? && Prior(log, a.rid).Some?
    ensures Respond(was, a).Applied? && Respond(log, Again(a, now)) == Replayed
  {
    hide Prior;
  }

  /** How a request is answered whose id a row of the log carries. */
  lemma AnsweredAgain(log: Log, row: Row, rid: string, c: Command, now: Env)
    requires log != [] && Prior(log, rid) == Some(row)
    ensures Mutate(log, rid, c, now) ==
      match Precheck(c, now)
      case Some(why) => Refused(why)
      case None => if IsRowOf(row, c, Last(log).runId) then Replayed else Refused(RequestReused)
  {
    hide Decide, Precheck;
  }
}
