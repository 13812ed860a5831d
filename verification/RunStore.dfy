/** A run on disk: its chained log file and the audit record, and the doors through which they change
    (`create_run`, `mutate`, `extend_budget`). `power` is how many more durable writes succeed; a
    write beyond it fails and stops the call, which is how a crash or a refusing audit log appears. */
module RunStore {
  import opened Outcomes
  import opened Workflows
  import opened RunModel
  import opened RunInvariants
  import opened RunLedger
  import opened RunAudit
  import opened RunDraft
  import opened EventChain

  /** What the caller is told: the new snapshot, the last one on a replay, or the refusal. */
  function Reported(log: Log, a: Action, power: nat): Result<Row, Refusal>
    requires log != []
  {
    var complete := power >= |Writes(log, a)|;
    match Respond(log, a)
    case Replayed => Ok(Last(log))
    case Refused(why) => Err(why)
    case AtCeiling(_) => Err(if complete then OutOfCycles else Interrupted)
    case Applied(row) => if complete then Ok(row) else Err(Interrupted)
  }

  /** A file that verifies numbers its rows from one. */
  lemma NumberedFromOne(file: seq<Record>, digest: Digest)
    requires file != [] && Verifies(file, digest)
    ensures Last(Rows(file)).number == |file|
  {
    assert Continues(file[|file| - 1], file[..|file| - 1], digest);
  }

  /** Recording the lines a row owes and then the row is one attempt at the request. */
  lemma RecordIsTry(w: World, a: Action, row: Row, power: nat)
    requires w.log != [] && NextRow(w.log, a) == Some(row)
    ensures var lines := Owed(Last(w.log), row);
      && |Writes(w.log, a)| == |lines| + 1
      && Try(w, Attempt(a, power)) ==
           if power > |lines| then World(w.log + [row], w.audit + lines)
           else World(w.log, w.audit + lines[..power])
  {
    hide NextRow, Writes, Try, Owed;
    TryLeaves(w, Attempt(a, power));
    WritesPayFirst(w.log, a);
  }

  class Run {
    const digest: Digest
    var file: seq<Record>
    var audit: seq<Line>
    var power: nat

    /** The run's file reads back. */
    ghost predicate IsReadable()
      reads this
    {
      file != [] && Verifies(file, digest)
    }

    ghost function State(): World
      reads this
    {
      World(Rows(file), audit)
    }

    /** The file holds a log that admitted requests can produce, and the record accounts for it. */
    ghost predicate IsGoverned()
      reads this
    {
      IsReadable() && Reached(Rows(file)) && IsSubsequence(Debt(Rows(file)), audit)
    }

    /** A process that lasts for this many durable writes. */
    constructor (digest: Digest, power: nat)
      ensures this.digest == digest && this.power == power && file == [] && audit == []
    {
      this.digest, this.power := digest, power;
      file, audit := [], [];
    }

    method WriteLine(line: Line) returns (ok: bool)
      modifies this`audit, this`power
      ensures ok <==> old(power) > 0
      ensures ok ==> audit == old(audit) + [line] && power == old(power) - 1
      ensures !ok ==> audit == old(audit) && power == old(power)
    {
      ok := power > 0;
      if ok {
        audit, power := audit + [line], power - 1;
      }
    }

    method AppendEvent(row: Row) returns (ok: bool)
      requires Verifies(file, digest) && row.number == |file| + 1
      modifies this`file, this`power
      ensures Verifies(file, digest)
      ensures ok <==> old(power) > 0
      ensures ok ==>
        file == Appended(old(file), row, digest) && Rows(file) == Rows(old(file)) + [row] && power == old(power) - 1
      ensures !ok ==> file == old(file) && power == old(power)
    {
      ok := power > 0;
      if ok {
        AppendKeepsReadable(file, row, digest);
        file, power := Appended(file, row, digest), power - 1;
      }
    }

    method WriteLines(lines: seq<Line>) returns (ok: bool)
      modifies this`audit, this`power
      ensures ok <==> old(power) >= |lines|
      ensures ok ==> audit == old(audit) + lines && power == old(power) - |lines|
      ensures !ok ==> audit == old(audit) + lines[..old(power)] && power == 0
    {
      ok := true;
      var i := 0;
      while i < |lines|
        invariant 0 <= i <= |lines| && i <= old(power)
        invariant audit == old(audit) + lines[..i] && power == old(power) - i
      {
        ok := WriteLine(lines[i]);
        if !ok { return; }
        i := i + 1;
      }
      assert lines[..i] == lines;
    }

    /** The audit lines first, then the row: the order every transition keeps. */
    method Record(lines: seq<Line>, row: Row) returns (ok: bool)
      requires Verifies(file, digest) && row.number == |file| + 1
      modifies this
      ensures Verifies(file, digest)
      ensures ok <==> old(power) > |lines|
      ensures ok ==>
        file == Appended(old(file), row, digest) && State() == World(Rows(old(file)) + [row], old(audit) + lines)
      ensures !ok ==> file == old(file)
      ensures !ok ==> audit == old(audit) + lines[..if old(power) <= |lines| then old(power) else 0]
    {
      ok := WriteLines(lines);
      if ok {
        ok := AppendEvent(row);
        assert !ok ==> lines[..|lines|] == lines;
      }
    }

    /** The one door. It replays a known request, refuses an ended run, enforces the cycle ceiling,
        runs the closure on a private copy, and records the outcome audit-first. */
    method Mutate(rid: string, c: Command, e: Env) returns (r: Result<Row, Refusal>)
      modifies this
      ensures !old(IsReadable()) ==> r.Err? && file == old(file) && audit == old(audit)
      ensures old(IsReadable()) ==>
        && IsReadable()
        && State() == Try(old(State()), Attempt(Ask(rid, c, e), old(power)))
        && r == Reported(old(Rows(file)), Ask(rid, c, e), old(power))
      ensures old(IsGoverned()) ==> IsGoverned()
    {
      hide Performs, Change, Reached, Owed, GateLine, Stamped, IsSubsequence, Verifies;
      var early := Precheck(c, e);
      var events := ReadEvents(file, digest);
      if early.Some? {
        return Err(early.value);
      }
      if events.Err? {
        return Err(events.error);
      }
      ghost var before := State();
      ghost var had := power;
      var log := events.value;
      NumberedFromOne(file, digest);
      var prior := Prior(log, rid);
      if prior.Some? {
        var same := prior.value.event == EventOf(c) && prior.value.actor == ActorOf(c)
          && prior.value.target == TargetOf(c, Last(log).runId);
        return if same then Ok(Last(log)) else Err(RequestReused);
      }
      r := Settle(log, rid, c, e);
      if old(IsGoverned()) {
        TryIsAccountedFor(before, Attempt(Ask(rid, c, e), had));
      }
    }

    /** The part of the door behind the replay check. */
    method Settle(log: Log, rid: string, c: Command, e: Env) returns (r: Result<Row, Refusal>)
      requires IsReadable() && log == Rows(file) && Prior(log, rid).None? && Precheck(c, e).None?
      modifies this
      ensures IsReadable()
      ensures State() == Try(old(State()), Attempt(Ask(rid, c, e), old(power)))
      ensures r == Reported(log, Ask(rid, c, e), old(power))
    {
      hide Performs, Reached, Owed, GateLine, IsSubsequence, Verifies, Change, TerminalLine;
      NumberedFromOne(file, digest);
      var row := Last(log);
      if row.status != Active {
        return Err(RunEnded);
      }
      if row.cycleCount >= row.maxCycles {
        var blocked := CeilingRow(row, rid, e);
        RecordIsTry(State(), Ask(rid, c, e), blocked, power);
        CeilingOwes(row, rid, e);
        var written := Record([TerminalLine(blocked)], blocked);
        return Err(if written then OutOfCycles else Interrupted);
      }
      var draft := new Draft(row);
      var refused := draft.Perform(c, e);
      PerformedIsChange(c, row, e, refused, draft.Value());
      if refused.Some? {
        return Err(refused.value);
      }
      var next := Stamped(draft.Value(), rid, c, e);
      var lines := Optional(GateLine(c, next)) + if next.status != Active then [TerminalLine(next)] else [];
      AppliedOwes(row, rid, c, e);
      RecordIsTry(State(), Ask(rid, c, e), next, power);
      var ok := Record(lines, next);
      r := if ok then Ok(next) else Err(Interrupted);
    }

    /** More cycles for a run that ran out of them. It enters the log beside the door, since the door
        refuses an ended run; it checks for a replay before it looks at the status. */
    method ExtendBudget(rid: string, approver: string, cycles: int, e: Env) returns (r: Result<Row, Refusal>)
      modifies this
      ensures !old(IsReadable()) ==> r.Err? && file == old(file) && audit == old(audit)
      ensures old(IsReadable()) ==>
        && IsReadable()
        && State() == Try(old(State()), Attempt(Extend(rid, approver, cycles, e), old(power)))
        && r == Reported(old(Rows(file)), Extend(rid, approver, cycles, e), old(power))
      ensures old(IsGoverned()) ==> IsGoverned()
    {
      hide Reached, Owed, IsSubsequence, Verifies;
      if IsBlank(approver) { return Err(HumanRequired); }
      if !(1 <= cycles <= 100) { return Err(BadExtension); }
      var events := ReadEvents(file, digest);
      if events.Err? { return Err(events.error); }
      ghost var before, had := State(), power;
      ghost var request := Extend(rid, approver, cycles, e);
      var log := events.value;
      NumberedFromOne(file, digest);
      if Prior(log, rid).Some? { return Ok(Last(log)); }
      var row := Last(log);
      if row.status != RunBlockedCycleLimit { return Err(NotOutOfBudget); }
      var ceiling := Min(100, row.maxCycles + cycles);
      if ceiling <= row.maxCycles { return Err(AtHardCeiling); }
      var next := row.(number := row.number + 1, event := BudgetExtended, actor := approver, target := row.runId,
                       requestId := rid, ts := e.now, status := Active, maxCycles := ceiling);
      ExtensionOwes(row, request, next);
      RecordIsTry(before, request, next, power);
      var ok := Record([Line(approver, "run.budget_extended", Yellow, row.runId, Granted, Done)], next);
      r := if ok then Ok(next) else Err(Interrupted);
      if old(IsGoverned()) {
        TryIsAccountedFor(before, Attempt(request, had));
      }
    }

    method BuildSteps(list: seq<RawStep>, company: Company) returns (states: Steps)
      requires forall raw | raw in list :: raw.action in company.policy
      ensures states == NewSteps(list, company)
    {
      states := map[];
      for i := 0 to |list|
        invariant states == NewSteps(list[..i], company)
      {
        assert list[..i + 1] == list[..i] + [list[i]];
        states := states[list[i].id := NewStep(list[i], company)];
      }
      assert list[..|list|] == list;
    }

    /** A run starts from an admitted workflow and an unused id, or not at all: the first row is then
        the new run's, and the run is governed from its first row on. */
    method CreateRun(w: Workflow, company: Company, runId: string, revision: string, rid: string, actor: string,
                     planned: int, e: Env)
      returns (r: Result<Row, Refusal>)
      modifies this
      ensures r.Ok? <==> IsValid(w, company) && IsSlug(runId) && old(file) == [] && old(power) > 0
      ensures r.Ok? ==> r.value == NewRun(w, company, runId, revision, rid, actor, planned, e)
      ensures r.Ok? ==> Rows(file) == [r.value] && IsGoverned()
      ensures r.Err? ==> file == old(file)
      ensures audit == old(audit)
    {
      var errors := ValidateWorkflow(w, company);
      if errors != [] { return Err(InvalidWorkflow); }
      if !IsSlug(runId) { return Err(BadRunId); }
      if file != [] { return Err(RunExists); }
      assert forall raw | raw in w.steps.value :: StepIsValid(raw, Ids(w.steps.value), company);
      var states := BuildSteps(w.steps.value, company);
      var row := Row(1, RunCreated, actor, runId, rid, e.now, runId, revision, w.maxCycles.n, 0, Active,
                     Amount(planned), Amount(planned), 0, [], states);
      var ok := AppendEvent(row);
      if !ok { return Err(Interrupted); }
      r := Ok(row);
      assert row == NewRun(w, company, row.runId, row.revision, row.requestId, row.actor, planned, e);
      assert IsNewRun(row) && Rows(file) == [row];
      assert Debt(Rows(file)) == [];
    }
  }

  lemma ExtensionOwes(row: Row, a: Action, next: Row)
    requires a.Extend? && row.status == RunBlockedCycleLimit
    requires Extension(row, a.rid, a.approver, a.cycles, a.env) == Applied(next)
    ensures Owed(row, next) == [Line(a.approver, "run.budget_extended", Yellow, row.runId, Granted, Done)]
  {
  }

  lemma CeilingOwes(row: Row, rid: string, e: Env)
    requires row.status == Active
    ensures Owed(row, CeilingRow(row, rid, e)) == [TerminalLine(CeilingRow(row, rid, e))]
  {
  }

  lemma PerformedIsChange(c: Command, row: Row, e: Env, refused: Option<Refusal>, after: Row)
    requires Precheck(c, e).None? && Performs(c, row, e, refused, after)
    ensures refused.Some? <==> Change(c, row, e).Err?
    ensures refused.Some? ==> Change(c, row, e) == Err(refused.value)
    ensures refused.None? ==> Change(c, row, e) == Ok(after)
    ensures refused.None? ==> after.number == row.number && after.runId == row.runId
  {
  }
}
