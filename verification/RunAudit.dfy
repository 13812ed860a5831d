/** Write-ahead accountability. A transition writes its audit lines first and its log row last, and
    the process may die, or the audit log may refuse, before any of these writes. */
module RunAudit {
  import opened Outcomes
  import opened Workflows
  import opened RunModel
  import opened RunInvariants
  import opened RunLedger

  datatype Approval = ApprovalPending | NotRequired | Granted | Denied

  datatype AuditOutcome = AwaitingDecision | HandedBack | Done | Blocked

  datatype Line = Line(actor: string, action: string, category: Risk, target: string, approval: Approval,
                       outcome: AuditOutcome)

  datatype Write = Note(line: Line) | Append(row: Row)

  function StepLine(actor: string, runId: string, id: StepId, step: Step, approval: Approval, outcome: AuditOutcome)
    : Line
  {
    Line(actor, step.action, step.risk, runId + "/" + id, approval, outcome)
  }

  /** The entry a gated command must leave behind, from the row it is about to append. */
  function GateLine(c: Command, row: Row): Option<Line> {
    match c
    case Send(_, _, _, _, _, _, _) => None
    case Cancel(approver, _) => Some(Line(approver, "run.cancelled", Yellow, row.runId, Granted, Blocked))
    case OnStep(id, v) =>
      if id !in row.steps then None
      else
        var step := row.steps[id];
        match v
        case Request(actor, _) =>
          (match step.risk
           case Green => None
           case Yellow => Some(StepLine(actor, row.runId, id, step, ApprovalPending, AwaitingDecision))
           case Red => Some(StepLine(actor, row.runId, id, step, NotRequired, HandedBack)))
        case Approve(approver, _) => Some(StepLine(approver, row.runId, id, step, Granted, Done))
        case Reject(approver, _) => Some(StepLine(approver, row.runId, id, step, Denied, Blocked))
        case Expire(operator) => Some(StepLine(operator, row.runId, id, step, NotRequired, Done))
        case Hold(actor, _, _, _, _) => Some(StepLine(actor, row.runId, id, step, ApprovalPending, AwaitingDecision))
        case _ => None
  }

  function StatusName(status: RunStatus): string {
    match status
    case Active => "active"
    case RunCompleted => "completed"
    case RunRejected => "rejected"
    case RunBlockedHuman => "blocked_human"
    case RunBlockedRetryLimit => "blocked_retry_limit"
    case RunBlockedCycleLimit => "blocked_cycle_limit"
    case RunBlockedReviewLimit => "blocked_review_limit"
    case RunRejectedByChecker => "rejected_by_checker"
    case RunCancelled => "cancelled"
  }

  function TerminalLine(row: Row): Line {
    Line("runtime", "run." + StatusName(row.status), Green, row.runId, NotRequired,
         if row.status == RunCompleted then Done else Blocked)
  }

  function Optional(line: Option<Line>): seq<Line> {
    if line.Some? then [line.value] else []
  }

  function Notes(lines: seq<Line>): seq<Write> {
    seq(|lines|, i requires 0 <= i < |lines| => Note(lines[i]))
  }

  /** The writes of one request, in the order they are made durable. */
  function Writes(log: Log, a: Action): seq<Write>
    requires log != []
  {
    match Respond(log, a)
    case AtCeiling(row) => [Note(TerminalLine(row)), Append(row)]
    case Applied(row) =>
      (match a
       case Ask(_, c, _) =>
         Notes(Optional(GateLine(c, row))
               + if row.status != Active then [TerminalLine(row)] else []) + [Append(row)]
       case Extend(_, approver, _, _) =>
         [Note(Line(approver, "run.budget_extended", Yellow, row.runId, Granted, Done)), Append(row)])
    case _ => []
  }

  // --- what a log owes the audit record -----------------------------------------------------

  /** The lines that must stand behind the step from row `p` to row `r`, read off the rows alone. */
  function Owed(p: Row, r: Row): seq<Line> {
    (match r.event
     case StepRequested =>
       if r.target !in r.steps then []
       else (match r.steps[r.target].risk
             case Green => []
             case Yellow => [StepLine(r.actor, r.runId, r.target, r.steps[r.target], ApprovalPending, AwaitingDecision)]
             case Red => [StepLine(r.actor, r.runId, r.target, r.steps[r.target], NotRequired, HandedBack)])
     case StepApproved =>
       if r.target !in r.steps then []
       else [StepLine(r.actor, r.runId, r.target, r.steps[r.target], Granted, Done)]
     case StepRejected =>
       if r.target !in r.steps then []
       else [StepLine(r.actor, r.runId, r.target, r.steps[r.target], Denied, Blocked)]
     case ClaimExpired =>
       if r.target !in r.steps then []
       else [StepLine(r.actor, r.runId, r.target, r.steps[r.target], NotRequired, Done)]
     case StepHeld =>
       if r.target !in r.steps then []
       else [StepLine(r.actor, r.runId, r.target, r.steps[r.target], ApprovalPending, AwaitingDecision)]
     case Cancelled => [Line(r.actor, "run.cancelled", Yellow, r.runId, Granted, Blocked)]
     case BudgetExtended => [Line(r.actor, "run.budget_extended", Yellow, r.runId, Granted, Done)]
     case _ => [])
    + if p.status == Active && r.status != Active then [TerminalLine(r)] else []
  }

  function Debt(log: Log): seq<Line> {
    if |log| <= 1 then [] else Debt(Front(log)) + Owed(log[|log| - 2], Last(log))
  }

  /** The writes of a request are exactly the lines its row will owe, then the row. */
  lemma WritesPayFirst(log: Log, a: Action)
    requires log != []
    ensures match NextRow(log, a)
      case None => Writes(log, a) == []
      case Some(row) => Writes(log, a) == Notes(Owed(Last(log), row)) + [Append(row)]
  {
    if NextRow(log, a).Some? {
      var row := NextRow(log, a).value;
      NextIsSuccessor(log, a);
      match a
      case Ask(rid, c, e) =>
        if Respond(log, a).AtCeiling? {
          assert Owed(Last(log), row) == [TerminalLine(row)];
          assert Notes([TerminalLine(row)]) == [Note(TerminalLine(row))];
        } else {
          AppliedOwes(Last(log), rid, c, e);
        }
      case Extend(_, approver, _, _) =>
        var line := Line(approver, "run.budget_extended", Yellow, row.runId, Granted, Done);
        assert Owed(Last(log), row) == [line];
        assert Notes([line]) == [Note(line)];
    }
  }

  lemma AppliedOwes(row: Row, rid: string, c: Command, e: Env)
    requires Precheck(c, e).None? && Decide(row, rid, c, e).Applied?
    ensures var next := Decide(row, rid, c, e).row;
      Owed(row, next) == Optional(GateLine(c, next)) + if next.status != Active then [TerminalLine(next)] else []
  {
    var next := Decide(row, rid, c, e).row;
    assert row.status == Active && next.event == EventOf(c) && next.actor == ActorOf(c);
    assert next.target == TargetOf(c, row.runId) && next.runId == row.runId;
    hide Decide, StepLine, TerminalLine;
  }

  // --- a world that may stop between any two writes -----------------------------------------

  datatype World = World(log: Log, audit: seq<Line>)

  function Perform(w: World, write: Write): World {
    match write
    case Note(line) => w.(audit := w.audit + [line])
    case Append(row) => w.(log := w.log + [row])
  }

  function PerformAll(w: World, writes: seq<Write>): World {
    if writes == [] then w else Perform(PerformAll(w, Front(writes)), Last(writes))
  }

  /** A request of which only the first `done` writes become durable. */
  datatype Attempt = Attempt(action: Action, done: nat)

  function Try(w: World, t: Attempt): World
    requires w.log != []
  {
    var writes := Writes(w.log, t.action);
    PerformAll(w, if t.done < |writes| then writes[..t.done] else writes)
  }

  lemma {:induction false} PerformNotes(w: World, lines: seq<Line>, k: nat)
    requires k <= |lines|
    ensures PerformAll(w, Notes(lines)[..k]) == w.(audit := w.audit + lines[..k])
    decreases k
  {
    if k > 0 {
      PerformNotes(w, lines, k - 1);
      assert Front(Notes(lines)[..k]) == Notes(lines)[..k - 1];
      assert lines[..k] == lines[..k - 1] + [lines[k - 1]];
    }
  }

  /** What an attempt leaves: unless every write was made, only some of the owed lines and no row. */
  lemma TryLeaves(w: World, t: Attempt)
    requires w.log != []
    ensures match NextRow(w.log, t.action)
      case None => Try(w, t) == w
      case Some(row) =>
        var lines := Owed(Last(w.log), row);
        if t.done <= |lines| then Try(w, t) == w.(audit := w.audit + lines[..t.done])
        else Try(w, t) == World(w.log + [row], w.audit + lines)
  {
    WritesPayFirst(w.log, t.action);
    hide NextRow, Writes, Owed;
    match NextRow(w.log, t.action)
    case None =>
    case Some(row) =>
      var lines := Owed(Last(w.log), row);
      var all := Notes(lines) + [Append(row)];
      if t.done <= |lines| {
        assert all[..t.done] == Notes(lines)[..t.done];
        PerformNotes(w, lines, t.done);
      } else {
        assert Front(all) == Notes(lines)[..|lines|];
        PerformNotes(w, lines, |lines|);
        assert lines[..|lines|] == lines;
      }
  }

  function Play(w: World, attempts: seq<Attempt>): World
    requires w.log != []
    ensures Play(w, attempts).log != []
  {
    if attempts == [] then w
    else
      var before := Play(w, Front(attempts));
      TryLeaves(before, Last(attempts));
      Try(before, Last(attempts))
  }

  /** `part` can be picked out of `whole` in order. */
  ghost predicate IsSubsequence(part: seq<Line>, whole: seq<Line>) {
    if part == [] || whole == [] then part == []
    else if Last(part) == Last(whole) && IsSubsequence(Front(part), Front(whole)) then true
    else IsSubsequence(part, Front(whole))
  }

  lemma {:induction false} SubsequenceGrows(part: seq<Line>, whole: seq<Line>, more: seq<Line>)
    requires IsSubsequence(part, whole)
    ensures IsSubsequence(part, whole + more)
    decreases |more|
  {
    if more != [] {
      SubsequenceGrows(part, whole, Front(more));
      assert Front(whole + more) == whole + Front(more);
    } else {
      assert whole + more == whole;
    }
  }

  lemma {:induction false} SubsequencePays(part: seq<Line>, whole: seq<Line>, more: seq<Line>)
    requires IsSubsequence(part, whole)
    ensures IsSubsequence(part + more, whole + more)
    decreases |more|
  {
    if more != [] {
      SubsequencePays(part, whole, Front(more));
      assert Front(whole + more) == whole + Front(more) && Front(part + more) == part + Front(more);
    } else {
      assert whole + more == whole && part + more == part;
    }
  }

  /** Accountability under crash: whatever requests are made of a run and wherever the process dies,
      every gated or run-ending row in the log has its lines in the audit record, in order; and the
      log is one that uninterrupted requests could have produced. */
  lemma {:induction false} EveryRowIsAccountedFor(w: World, attempts: seq<Attempt>)
    requires w.log != [] && Reached(w.log) && IsSubsequence(Debt(w.log), w.audit)
    ensures Reached(Play(w, attempts).log)
    ensures IsSubsequence(Debt(Play(w, attempts).log), Play(w, attempts).audit)
    decreases |attempts|
  {
    hide Reached;
    if attempts != [] {
      EveryRowIsAccountedFor(w, Front(attempts));
      var before, t := Play(w, Front(attempts)), Last(attempts);
      TryIsAccountedFor(before, t);
    }
  }

  lemma TryIsAccountedFor(w: World, t: Attempt)
    requires w.log != [] && Reached(w.log) && IsSubsequence(Debt(w.log), w.audit)
    ensures Try(w, t).log != [] && Reached(Try(w, t).log) && IsSubsequence(Debt(Try(w, t).log), Try(w, t).audit)
  {
    hide NextRow, Try, Owed;
    TryLeaves(w, t);
    match NextRow(w.log, t.action)
    case None =>
    case Some(row) =>
      var lines := Owed(Last(w.log), row);
      if t.done <= |lines| {
        SubsequenceGrows(Debt(w.log), w.audit, lines[..t.done]);
      } else {
        RowExtends(w.log, t.action);
        SubsequencePays(Debt(w.log), w.audit, lines);
      }
  }

  /** Appending the next row keeps a log reachable and adds what that row owes. */
  lemma RowExtends(log: Log, a: Action)
    requires log != [] && Reached(log) && NextRow(log, a).Some?
    ensures Reached(log + [NextRow(log, a).value])
    ensures Debt(log + [NextRow(log, a).value]) == Debt(log) + Owed(Last(log), NextRow(log, a).value)
  {
    hide NextRow, Owed;
    var next := log + [NextRow(log, a).value];
    assert Front(next) == log && Last(next) == NextRow(log, a).value;
    assert Follows(log, Last(next)) && Grew(next);
  }

  /** Without crashes the audit record is exactly what the log owes: one line for each gated row and
      one terminal line for each ending, no more and no fewer. */
  lemma {:induction false} CrashFreeRecordIsExact(w: World, attempts: seq<Attempt>)
    requires w.log != [] && Reached(w.log) && w.audit == Debt(w.log)
    requires forall i | 0 <= i < |attempts| :: attempts[i].done >= 3
    ensures Reached(Play(w, attempts).log)
    ensures Play(w, attempts).audit == Debt(Play(w, attempts).log)
    decreases |attempts|
  {
    hide Reached, NextRow, Try, Owed;
    if attempts != [] {
      CrashFreeRecordIsExact(w, Front(attempts));
      var before, t := Play(w, Front(attempts)), Last(attempts);
      TryLeaves(before, t);
      if NextRow(before.log, t.action).Some? {
        OwedIsShort(Last(before.log), NextRow(before.log, t.action).value);
        RowExtends(before.log, t.action);
      }
    }
  }

  lemma OwedIsShort(p: Row, r: Row)
    ensures |Owed(p, r)| <= 2
  {
  }

  /** A refused or interrupted audit write leaves the run's log as it was. */
  lemma NoLineNoRow(w: World, t: Attempt)
    requires w.log != [] && t.done < |Writes(w.log, t.action)|
    ensures Try(w, t).log == w.log
  {
    TryLeaves(w, t);
    WritesPayFirst(w.log, t.action);
  }
}
