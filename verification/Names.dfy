/** The driver's mutation names (`executor_core.request_id`): rendered text that no two different
    transitions share, although step ids may contain the separators themselves. */
module Names {
  import opened Outcomes
  import opened Workflows
  import opened RunModel
  import opened RunInvariants
  import opened RunLedger
  import opened RunReplay
  import opened Approvals

  // --- rendering ----------------------------------------------------------------------------

  function Dec(n: nat): (s: string)
    ensures s != "" && forall c | c in s :: IsDigit(c)
  {
    if n < 10 then ["0123456789"[n]] else Dec(n / 10) + ["0123456789"[n % 10]]
  }

  function Val(s: string): int {
    if s == "" then 0 else 10 * Val(Front(s)) + (Last(s) as int - '0' as int)
  }

  lemma {:induction false} DecReadsBack(n: nat)
    ensures Val(Dec(n)) == n
  {
    if n >= 10 {
      DecReadsBack(n / 10);
      assert Front(Dec(n)) == Dec(n / 10);
    }
  }

  /** The request id of one mutation of a step. */
  function Name(step: StepId, attempts: nat, releases: nat, verb: string): string {
    "exec-" + step + "-a" + Dec(attempts) + "-r" + Dec(releases) + "-" + verb
  }

  predicate AllOfKind(s: string, digits: bool) {
    forall c | c in s :: IsDigit(c) == digits
  }

  /** A text splits in only one way into a head and the longest tail of digits, or of non-digits. */
  lemma TailIsUnique(a: string, x: string, b: string, y: string, digits: bool)
    requires a + x == b + y && a != "" && b != ""
    requires AllOfKind(x, digits) && AllOfKind(y, digits)
    requires IsDigit(Last(a)) != digits && IsDigit(Last(b)) != digits
    ensures a == b && x == y
  {
    if |b| < |a| {
      LongerHead(a, x, b, y);
    } else if |a| < |b| {
      LongerHead(b, y, a, x);
    }
    assert a == (a + x)[..|a|] && b == (b + y)[..|b|];
    assert x == (a + x)[|a|..] && y == (b + y)[|b|..];
  }

  lemma LongerHead(a: string, x: string, b: string, y: string)
    requires a + x == b + y && |b| < |a|
    ensures Last(a) in y
  {
    assert Last(a) == (a + x)[|a| - 1] == (b + y)[|a| - 1] == y[|a| - 1 - |b|];
  }

  lemma NumberIsUnique(a: string, m: nat, b: string, n: nat)
    requires a + Dec(m) == b + Dec(n) && a != "" && b != "" && !IsDigit(Last(a)) && !IsDigit(Last(b))
    ensures a == b && m == n
  {
    TailIsUnique(a, Dec(m), b, Dec(n), true);
    DecReadsBack(m);
    DecReadsBack(n);
  }

  /** The name says which step, which attempt, how many releases and which verb it is about, whatever
      hyphens and digits the step id contains: the verb is everything after the last digit. */
  lemma NameIsInjective(s: StepId, a: nat, r: nat, v: string, s': StepId, a': nat, r': nat, v': string)
    requires Name(s, a, r, v) == Name(s', a', r', v')
    requires AllOfKind(v, false) && AllOfKind(v', false)
    ensures s == s' && a == a' && r == r' && v == v'
  {
    var head, head' := "exec-" + s + "-a", "exec-" + s' + "-a";
    var mid, mid' := head + Dec(a) + "-r", head' + Dec(a') + "-r";
    assert Name(s, a, r, v) == (mid + Dec(r)) + ("-" + v);
    assert Name(s', a', r', v') == (mid' + Dec(r')) + ("-" + v');
    assert Last(mid + Dec(r)) == Last(Dec(r)) && Last(mid' + Dec(r')) == Last(Dec(r'));
    TailIsUnique(mid + Dec(r), "-" + v, mid' + Dec(r'), "-" + v', false);
    assert v == ("-" + v)[1..] && v' == ("-" + v')[1..];
    NumberIsUnique(mid, r, mid', r');
    TailIsUnique(head + Dec(a), "-r", head' + Dec(a'), "-r", false);
    NumberIsUnique(head, a, head', a');
    assert s == head[5..|head| - 2] && s' == head'[5..|head'| - 2];
  }

  // --- what a name is about -----------------------------------------------------------------

  /** The four transitions the driver names by the step's counters. */
  datatype Move = Claims | Completes | Fails | Frees

  function VerbName(m: Move): (verb: string)
    ensures AllOfKind(verb, false)
  {
    match m
    case Claims => "claim"
    case Completes => "complete"
    case Fails => "fail"
    case Frees => "release"
  }

  function MoveEvent(m: Move): Event {
    match m
    case Claims => StepRequested
    case Completes => StepCompleted
    case Fails => StepFailed
    case Frees => StepReleased
  }

  function NameAt(row: Row, id: StepId, m: Move): string
    requires id in row.steps
  {
    Name(id, row.steps[id].attempts, row.steps[id].releases, VerbName(m))
  }

  predicate IsMove(row: Row, id: StepId, m: Move) {
    row.event == MoveEvent(m) && row.target == id
  }

  function Tries(step: Step): nat {
    step.attempts + step.releases
  }

  predicate IsOut(status: StepStatus) {
    status == InProgress || status == AwaitingApproval
  }

  /** The move made when the step stood at `tries` cannot be made at that count again. */
  predicate IsPast(step: Step, tries: nat, m: Move) {
    || Tries(step) > tries
    || (Tries(step) == tries && if m.Claims? then step.status == BlockedRetryLimit else !IsOut(step.status))
  }

  lemma VerbStaysPast(v: Verb, id: StepId, step: Step, row: Row, e: Env, tries: nat, m: Move)
    requires EvidencePresent(v, e) && StepOk(step, row.runId, row.number) && step.risk.Green?
    requires VerbEffect(v, id, step, row, e).Ok? && IsPast(step, tries, m)
    ensures IsPast(VerbEffect(v, id, step, row, e).value.step, tries, m)
  {
  }

  lemma VerbPasses(v: Verb, id: StepId, step: Step, row: Row, e: Env, m: Move)
    requires EvidencePresent(v, e) && StepOk(step, row.runId, row.number) && step.risk.Green?
    requires VerbEffect(v, id, step, row, e).Ok? && EventOf(OnStep(id, v)) == MoveEvent(m)
    ensures IsPast(VerbEffect(v, id, step, row, e).value.step, Tries(step), m)
  {
  }

  lemma RowStaysPast(row: Row, a: Action, id: StepId, tries: nat, m: Move)
    requires RowOk(row) && Successor(row, a).Some? && id in row.steps && row.steps[id].risk.Green?
    requires id in Successor(row, a).value.steps
    ensures IsPast(row.steps[id], tries, m) ==> IsPast(Successor(row, a).value.steps[id], tries, m)
    ensures IsMove(Successor(row, a).value, id, m) ==>
      IsPast(Successor(row, a).value.steps[id], Tries(row.steps[id]), m)
  {
    hide Successor, VerbEffect, StepOk, GraphOk, PendingIsBlocked, StatusIsForced, MoneyAddsUp, EvidencePresent;
    var f := Between(row, a, id);
    if ActsOn(row, a, id) {
      var v := a.command.verb;
      assert StepOk(row.steps[id], row.runId, row.number);
      if IsPast(row.steps[id], tries, m) {
        VerbStaysPast(v, id, row.steps[id], row, a.env, tries, m);
      }
      if EventOf(OnStep(id, v)) == MoveEvent(m) {
        VerbPasses(v, id, row.steps[id], row, a.env, m);
      }
    } else {
      assert Kept(row.steps[id], Successor(row, a).value.steps[id]);
      PendingIsFresh(row, id);
    }
  }

  lemma PendingIsFresh(row: Row, id: StepId)
    requires RowOk(row) && id in row.steps
    ensures row.steps[id].status == Pending ==> Tries(row.steps[id]) == 0
  {
    assert StepOk(row.steps[id], row.runId, row.number);
  }

  ghost predicate IsGreen(row: Row, id: StepId) {
    id in row.steps && row.steps[id].risk.Green?
  }

  lemma GreenStays(log: Log, k: nat, id: StepId)
    requires log != [] && Reached(log) && 0 < k < |log|
    ensures IsGreen(log[k], id) <==> IsGreen(log[k - 1], id)
  {
    hide Reached, RowOk, Successor, NextRow;
    var a := NeighbourAction(log, k);
    if id in log[k].steps {
      assert SameShape(log[k - 1].steps[id], log[k].steps[id]);
    }
  }

  /** Once a green step has made a move, no later row can make it at the same counters. */
  lemma {:induction false} MoveIsPast(log: Log, i: nat, j: nat, id: StepId, m: Move)
    requires log != [] && Reached(log) && 0 < i <= j < |log|
    requires IsGreen(log[i - 1], id) && IsMove(log[i], id, m)
    ensures IsGreen(log[j], id) && IsPast(log[j].steps[id], Tries(log[i - 1].steps[id]), m)
    decreases j
  {
    hide Reached, RowOk, Successor, NextRow, SameShapes, IsPast;
    if i < j {
      MoveIsPast(log, i, j - 1, id, m);
    }
    GreenStays(log, j, id);
    var a := NeighbourAction(log, j);
    RowStaysPast(log[j - 1], a, id, Tries(log[i - 1].steps[id]), m);
  }

  lemma MoverStatus(log: Log, k: nat, id: StepId, m: Move)
    requires log != [] && Reached(log) && 0 < k < |log| && id in log[k - 1].steps && IsMove(log[k], id, m)
    ensures log[k - 1].steps[id].status == if m.Claims? then Ready else InProgress
  {
    hide Reached, RowOk, Successor, NextRow, SameShapes;
    var a := NeighbourAction(log, k);
    var f := Between(log[k - 1], a, id);
    assert ActsOn(log[k - 1], a, id);
    VerbStatus(a.command.verb, id, log[k - 1].steps[id], log[k - 1], a.env, m);
  }

  lemma VerbStatus(v: Verb, id: StepId, step: Step, row: Row, e: Env, m: Move)
    requires EvidencePresent(v, e) && VerbEffect(v, id, step, row, e).Ok? && EventOf(OnStep(id, v)) == MoveEvent(m)
    ensures step.status == if m.Claims? then Ready else InProgress
  {
  }

  /** Driver names are exactly-once: over a whole run, two different applied claims, completions,
      failures or releases of green steps never come out under one derived name. */
  lemma NamesAreExactlyOnce(log: Log, i: nat, id: StepId, m: Move, j: nat, id': StepId, m': Move)
    requires log != [] && Reached(log) && 0 < i < |log| && 0 < j < |log|
    requires IsGreen(log[i - 1], id) && IsMove(log[i], id, m)
    requires IsGreen(log[j - 1], id') && IsMove(log[j], id', m')
    requires NameAt(log[i - 1], id, m) == NameAt(log[j - 1], id', m')
    ensures i == j && id == id' && m == m'
  {
    hide Reached;
    var x, y := log[i - 1].steps[id], log[j - 1].steps[id'];
    NameIsInjective(id, x.attempts, x.releases, VerbName(m), id', y.attempts, y.releases, VerbName(m'));
    assert m == m';
    if i < j {
      MoveIsPast(log, i, j - 1, id, m);
      MoverStatus(log, j, id, m);
    } else if j < i {
      MoveIsPast(log, j, i - 1, id, m);
      MoverStatus(log, i, id, m);
    }
  }

  // --- the discipline of one driver ---------------------------------------------------------

  /** Every row under a name of this kind is that move, named at the counters it found, or the cycle
      ceiling, which leaves the name of the request it refused on its own row. */
  ghost predicate Disciplined(log: Log, id: StepId, m: Move) {
    forall k, a: nat, r: nat | 0 <= k < |log| && log[k].requestId == Name(id, a, r, VerbName(m)) ::
      log[k].event == CycleLimitHit || NamedMove(log, k, id, m, a, r)
  }

  predicate NamedMove(log: Log, k: nat, id: StepId, m: Move, a: nat, r: nat)
    requires k < |log|
  {
    && k > 0 && IsMove(log[k], id, m) && id in log[k - 1].steps
    && log[k - 1].steps[id].attempts == a && log[k - 1].steps[id].releases == r
  }

  /** Every claim row of the step carries the driver's name for it. */
  ghost predicate ClaimsAreNamed(log: Log, id: StepId) {
    forall k | 0 < k < |log| && id in log[k - 1].steps && IsMove(log[k], id, Claims) ::
      log[k].requestId == NameAt(log[k - 1], id, Claims)
  }

  /** The move a step verb makes, if the driver names it by the step's counters. */
  function MoveOf(v: Verb): Option<Move> {
    match v
    case Request(_, _) => Some(Claims)
    case Complete(_, _, _, _, _) => Some(Completes)
    case Fail(_, _, _) => Some(Fails)
    case Release(_, _, _) => Some(Frees)
    case _ => None
  }

  ghost predicate IsMoveName(rid: string) {
    exists id, a: nat, r: nat, m :: rid == Name(id, a, r, VerbName(m))
  }

  predicate MakesMove(row: Row, a: Action) {
    a.Ask? && a.command.OnStep? && MoveOf(a.command.verb).Some? && a.command.step in row.steps
  }

  /** How the driver names its requests: a move goes out under the name of its step's present counters,
      and no other request under the name of any move. */
  ghost predicate IsNamed(row: Row, a: Action) {
    if MakesMove(row, a) then a.rid == NameAt(row, a.command.step, MoveOf(a.command.verb).value)
    else !IsMoveName(a.rid)
  }

  /** The logs of a run that is claimed, completed, failed and released under the driver's names only. */
  ghost predicate UnderNames(log: Log)
    decreases |log|, 1
  {
    log != [] && if |log| == 1 then IsNewRun(log[0]) && !IsMoveName(log[0].requestId) else GrewUnderNames(log)
  }

  ghost predicate GrewUnderNames(log: Log)
    requires |log| > 1
    decreases |log|, 0
  {
    && UnderNames(Front(log))
    && exists a :: NextRow(Front(log), a) == Some(Last(log)) && IsNamed(Last(Front(log)), a)
  }

  lemma {:induction false} NamedIsReached(log: Log)
    requires UnderNames(log)
    ensures Reached(log)
    decreases |log|
  {
    if |log| > 1 {
      assert GrewUnderNames(log);
      NamedIsReached(Front(log));
      assert Follows(Front(log), Last(log)) && Grew(log);
    }
  }

  lemma NamesGrow(log: Log, a: Action)
    requires UnderNames(log) && NextRow(log, a).Some? && IsNamed(Last(log), a)
    ensures UnderNames(log + [NextRow(log, a).value])
  {
    hide NextRow, IsNamed;
    var next := log + [NextRow(log, a).value];
    assert Front(next) == log && Last(next) == NextRow(log, a).value;
    assert GrewUnderNames(next);
  }

  /** Names mean what the driver takes them to mean: wherever a move's name stands in the log, that very
      move was made at those very counters, and every claim stands under its name. */
  lemma {:induction false} NamesAreKept(log: Log, id: StepId, m: Move)
    requires UnderNames(log)
    ensures Disciplined(log, id, m) && ClaimsAreNamed(log, id)
    decreases |log|
  {
    if |log| > 1 {
      hide IsNamed, NextRow, ClaimsAreNamed, Disciplined;
      assert GrewUnderNames(log);
      hide UnderNames;
      NamesAreKept(Front(log), id, m);
      var a :| NextRow(Front(log), a) == Some(Last(log)) && IsNamed(Last(Front(log)), a);
      DisciplineGrows(log, a, id, m);
      ClaimIsNamed(log, a, id);
    } else {
      FirstIsNamed(log, id, m);
    }
  }

  lemma DisciplineGrows(log: Log, a: Action, id: StepId, m: Move)
    requires |log| > 1 && NextRow(Front(log), a) == Some(Last(log)) && IsNamed(Last(Front(log)), a)
    requires Disciplined(Front(log), id, m)
    ensures Disciplined(log, id, m)
  {
    hide IsNamed, NextRow, Name, IsMove;
    forall k, at: nat, r: nat | 0 <= k < |log| && log[k].requestId == Name(id, at, r, VerbName(m))
      ensures log[k].event == CycleLimitHit || NamedMove(log, k, id, m, at, r)
    {
      if k < |log| - 1 {
        assert Front(log)[k].requestId == Name(id, at, r, VerbName(m));
      } else {
        LastIsNamed(log, a, id, m, at, r);
      }
    }
  }

  lemma FirstIsNamed(log: Log, id: StepId, m: Move)
    requires |log| == 1 && UnderNames(log)
    ensures Disciplined(log, id, m) && ClaimsAreNamed(log, id)
  {
    hide Name, IsNewRun;
    forall k, at: nat, r: nat | 0 <= k < |log| ensures log[k].requestId != Name(id, at, r, VerbName(m)) {
    }
  }

  /** Whoever asks under a move's name makes that very move. */
  lemma NameTells(row: Row, a: Action, id: StepId, m: Move, at: nat, r: nat)
    requires IsNamed(row, a) && a.rid == Name(id, at, r, VerbName(m))
    ensures MakesMove(row, a) && a.command.step == id && MoveOf(a.command.verb) == Some(m)
    ensures row.steps[id].attempts == at && row.steps[id].releases == r
  {
    hide Name, AllOfKind;
    assert MakesMove(row, a) by { assert IsMoveName(a.rid); }
    var step, made := row.steps[a.command.step], MoveOf(a.command.verb).value;
    NameIsInjective(a.command.step, step.attempts, step.releases, VerbName(made), id, at, r, VerbName(m));
    assert made == m;
  }

  lemma LastIsNamed(log: Log, a: Action, id: StepId, m: Move, at: nat, r: nat)
    requires |log| > 1 && NextRow(Front(log), a) == Some(Last(log)) && IsNamed(Last(Front(log)), a)
    requires Last(log).requestId == Name(id, at, r, VerbName(m))
    ensures Last(log).event == CycleLimitHit || NamedMove(log, |log| - 1, id, m, at, r)
  {
    hide NextRow, Name, IsNamed, VerbName;
    NextIsSuccessor(Front(log), a);
    hide Successor;
    NameTells(Last(Front(log)), a, id, m, at, r);
    AppendedRowNames(Front(log), a.rid, a.command, a.env);
  }

  lemma ClaimIsNamed(log: Log, a: Action, id: StepId)
    requires |log| > 1 && NextRow(Front(log), a) == Some(Last(log)) && IsNamed(Last(Front(log)), a)
    requires ClaimsAreNamed(Front(log), id)
    ensures ClaimsAreNamed(log, id)
  {
    hide NextRow, Name, NameAt;
    NextIsSuccessor(Front(log), a);
    RowIsOf(Front(log), a);
    hide Successor;
    forall k | 0 < k < |log| && id in log[k - 1].steps && IsMove(log[k], id, Claims)
      ensures log[k].requestId == NameAt(log[k - 1], id, Claims)
    {
      if k < |log| - 1 {
        assert Front(log)[k] == log[k] && Front(log)[k - 1] == log[k - 1];
      } else {
        assert MakesMove(log[k - 1], a) && a.command.step == id && MoveOf(a.command.verb) == Some(Claims);
      }
    }
  }

  lemma RowIsOf(log: Log, a: Action)
    requires log != [] && NextRow(log, a).Some?
    ensures var row := NextRow(log, a).value;
      row.event == CycleLimitHit || row.event == BudgetExtended || (a.Ask? && IsRowOf(row, a.command, Last(log).runId))
  {
    if a.Ask? {
      AppendedRowNames(log, a.rid, a.command, a.env);
    }
  }

  /** A request that the driver does not name by a step at all. */
  lemma OtherIdsAreNoMoves(rid: string)
    requires !("exec-" <= rid)
    ensures !IsMoveName(rid)
  {
    forall id, a: nat, r: nat, m ensures rid != Name(id, a, r, VerbName(m)) {
      NameStart(id, a, r, VerbName(m));
    }
  }

  /** A run created under any other id begins under the driver's names. */
  lemma NewRunIsNamed(log: Log)
    requires |log| == 1 && Reached(log) && !("exec-" <= log[0].requestId)
    ensures UnderNames(log)
  {
    hide IsMoveName;
    OtherIdsAreNoMoves(log[0].requestId);
  }

  lemma NameStart(id: StepId, a: nat, r: nat, verb: string)
    ensures "exec-" <= Name(id, a, r, verb)
  {
  }

  /** The verb text in the name fits the verb. */
  predicate Suits(verb: string, v: Verb) {
    && AllOfKind(verb, false)
    && if MoveOf(v).Some? then verb == VerbName(MoveOf(v).value) else IsOtherText(verb)
  }

  predicate IsOtherText(verb: string) {
    verb != "claim" && verb != "complete" && verb != "fail" && verb != "release"
  }

  /** Whatever the driver does to a step goes out under a name that says what it is. */
  lemma SuitedIsNamed(row: Row, id: StepId, verb: string, c: Command, e: Env)
    requires id in row.steps && (c.OnStep? ==> c.step == id && Suits(verb, c.verb))
    requires !c.OnStep? ==> AllOfKind(verb, false) && IsOtherText(verb)
    ensures IsNamed(row, Ask(Name(id, row.steps[id].attempts, row.steps[id].releases, verb), c, e))
  {
    hide Name, AllOfKind;
    var rid := Name(id, row.steps[id].attempts, row.steps[id].releases, verb);
    if !MakesMove(row, Ask(rid, c, e)) && IsMoveName(rid) {
      var id', a: nat, r: nat, m :| rid == Name(id', a, r, VerbName(m));
      NameIsInjective(id, row.steps[id].attempts, row.steps[id].releases, verb, id', a, r, VerbName(m));
    }
  }

  /** A green step's next move goes out under a new name, so it is never swallowed as a replay, after
      a release in particular. The one exception is a name that an earlier ceiling row used up. */
  lemma MoveIsNotSwallowed(log: Log, id: StepId, m: Move)
    requires UnderNames(log) && IsGreen(Last(log), id)
    requires Last(log).steps[id].status == if m.Claims? then Ready else InProgress
    ensures var name := NameAt(Last(log), id, m);
      Prior(log, name).Some? <==>
        exists k :: 0 <= k < |log| && log[k].event == CycleLimitHit && log[k].requestId == name
  {
    hide UnderNames, Reached, Disciplined, Prior;
    NamedIsReached(log);
    NamesAreKept(log, id, m);
    var name := NameAt(Last(log), id, m);
    if Prior(log, name).Some? {
      var k: nat :| k < |log| && log[k] == Prior(log, name).value;
      OnlyCeilingUnder(log, k, id, m);
    }
  }

  lemma OnlyCeilingUnder(log: Log, k: nat, id: StepId, m: Move)
    requires log != [] && Reached(log) && k < |log| && IsGreen(Last(log), id) && Disciplined(log, id, m)
    requires Last(log).steps[id].status == if m.Claims? then Ready else InProgress
    requires log[k].requestId == NameAt(Last(log), id, m)
    ensures log[k].event == CycleLimitHit
  {
    hide Reached, Name, IsMove;
    var step := Last(log).steps[id];
    assert log[k].requestId == Name(id, step.attempts, step.releases, VerbName(m));
    if log[k].event != CycleLimitHit {
      assert NamedMove(log, k, id, m, step.attempts, step.releases);
      GreenEverywhere(log, k - 1, |log| - 1, id);
      MoveIsPast(log, k, |log| - 1, id, m);
    }
  }

  lemma {:induction false} GreenEverywhere(log: Log, i: nat, j: nat, id: StepId)
    requires log != [] && Reached(log) && i <= j < |log|
    ensures IsGreen(log[i], id) <==> IsGreen(log[j], id)
    decreases j
  {
    hide Reached;
    if i < j {
      GreenStays(log, j, id);
      GreenEverywhere(log, i, j - 1, id);
    }
  }

  // --- yellow steps -------------------------------------------------------------------------

  ghost predicate IsUngreen(row: Row, id: StepId) {
    id in row.steps && !row.steps[id].risk.Green?
  }

  predicate NoReleaseIn(log: Log, i: nat, j: nat, id: StepId)
    requires j < |log|
  {
    forall k | i < k <= j :: !IsMove(log[k], id, Frees)
  }

  lemma VerbReleases(v: Verb, id: StepId, step: Step, row: Row, e: Env)
    requires EvidencePresent(v, e) && VerbEffect(v, id, step, row, e).Ok?
    ensures VerbEffect(v, id, step, row, e).value.step.releases == step.releases + if v.Release? then 1 else 0
  {
  }

  lemma ReleaseStep(log: Log, k: nat, id: StepId)
    requires log != [] && Reached(log) && 0 < k < |log| && id in log[k - 1].steps
    ensures id in log[k].steps && SameShape(log[k - 1].steps[id], log[k].steps[id])
    ensures log[k].steps[id].releases == log[k - 1].steps[id].releases + if IsMove(log[k], id, Frees) then 1 else 0
  {
    hide Reached, RowOk, Successor, NextRow, VerbEffect, EvidencePresent;
    var a := NeighbourAction(log, k);
    var f := Between(log[k - 1], a, id);
    if ActsOn(log[k - 1], a, id) {
      VerbReleases(a.command.verb, id, log[k - 1].steps[id], log[k - 1], a.env);
    }
  }

  /** A step's release counter stands still exactly while no release of it is logged. */
  lemma {:induction false} ReleasesCount(log: Log, i: nat, j: nat, id: StepId)
    requires log != [] && Reached(log) && i <= j < |log| && id in log[i].steps
    ensures id in log[j].steps && SameShape(log[i].steps[id], log[j].steps[id])
    ensures log[i].steps[id].releases <= log[j].steps[id].releases
    ensures log[i].steps[id].releases == log[j].steps[id].releases <==> NoReleaseIn(log, i, j, id)
    decreases j
  {
    hide Reached;
    if i < j {
      ReleasesCount(log, i, j - 1, id);
      ReleaseStep(log, j, id);
      assert NoReleaseIn(log, i, j, id) <==> NoReleaseIn(log, i, j - 1, id) && !IsMove(log[j], id, Frees);
    }
  }

  lemma UngreenHasNoAttempts(log: Log, k: nat, id: StepId)
    requires log != [] && Reached(log) && k < |log| && IsUngreen(log[k], id)
    ensures log[k].steps[id].attempts == 0
  {
    hide Reached;
    RowsAreOk(log, k);
    assert StepOk(log[k].steps[id], log[k].runId, log[k].number);
  }

  lemma ClaimActor(log: Log, k: nat, id: StepId)
    requires log != [] && Reached(log) && 0 < k < |log| && id in log[k - 1].steps && IsMove(log[k], id, Claims)
    ensures log[k].actor == log[k - 1].steps[id].owner
  {
    hide Reached, RowOk, NextRow, SameShapes, Successor, VerbEffect, EvidencePresent, Fits, Charged, Kept;
    var a := NeighbourAction(log, k);
    var f := Between(log[k - 1], a, id);
    assert ActsOn(log[k - 1], a, id);
    RowStamp(log[k - 1], a);
    ClaimOwner(a.command.verb, id, log[k - 1].steps[id], log[k - 1], a.env);
  }

  lemma ClaimOwner(v: Verb, id: StepId, step: Step, row: Row, e: Env)
    requires v.Request? && EvidencePresent(v, e) && VerbEffect(v, id, step, row, e).Ok?
    ensures v.actor == step.owner
  {
  }

  /** A yellow step gains no attempts, so its next claim carries the name of an earlier one, and is
      swallowed as a replay of it, exactly when no release of the step has come between. */
  lemma YellowReclaim(log: Log, id: StepId, holder: Option<string>, e: Env)
    requires UnderNames(log) && IsUngreen(Last(log), id)
    ensures var step := Last(log).steps[id];
      Mutate(log, NameAt(Last(log), id, Claims), OnStep(id, Request(step.owner, holder)), e).Replayed? <==>
      exists k :: 0 < k < |log| && IsMove(log[k], id, Claims) && NoReleaseIn(log, k, |log| - 1, id)
  {
    hide UnderNames, Reached, Disciplined, ClaimsAreNamed, Mutate, NoReleaseIn, Prior, NameAt;
    NamedIsReached(log);
    NamesAreKept(log, id, Claims);
    if k :| 0 < k < |log| && IsMove(log[k], id, Claims) && NoReleaseIn(log, k, |log| - 1, id) {
      RepeatIsReplayed(log, k, id, holder, e);
    } else {
      NewIsNotReplayed(log, id, holder, e);
    }
  }

  lemma RepeatIsReplayed(log: Log, k: nat, id: StepId, holder: Option<string>, e: Env)
    requires log != [] && Reached(log) && IsUngreen(Last(log), id) && ClaimsAreNamed(log, id)
    requires 0 < k < |log| && IsMove(log[k], id, Claims) && NoReleaseIn(log, k, |log| - 1, id)
    ensures var claim := OnStep(id, Request(Last(log).steps[id].owner, holder));
      Mutate(log, NameAt(Last(log), id, Claims), claim, e).Replayed?
  {
    hide Reached, ClaimsAreNamed, Mutate, NoReleaseIn, Prior;
    ReplayMeans(log, NameAt(Last(log), id, Claims), OnStep(id, Request(Last(log).steps[id].owner, holder)), e);
    hide NameAt;
    SameClaimName(log, k, id);
    PriorIsUnique(log, k);
  }

  lemma NewIsNotReplayed(log: Log, id: StepId, holder: Option<string>, e: Env)
    requires log != [] && Reached(log) && IsUngreen(Last(log), id) && Disciplined(log, id, Claims)
    requires forall k | 0 < k < |log| && IsMove(log[k], id, Claims) :: !NoReleaseIn(log, k, |log| - 1, id)
    ensures var claim := OnStep(id, Request(Last(log).steps[id].owner, holder));
      !Mutate(log, NameAt(Last(log), id, Claims), claim, e).Replayed?
  {
    hide Reached, Disciplined, Mutate, NoReleaseIn, Prior;
    var name := NameAt(Last(log), id, Claims);
    ReplayMeans(log, name, OnStep(id, Request(Last(log).steps[id].owner, holder)), e);
    hide NameAt;
    if Prior(log, name).Some? && Prior(log, name).value.event != CycleLimitHit {
      var k: nat :| k < |log| && log[k] == Prior(log, name).value;
      ReplayedClaim(log, k, id);
    }
  }

  lemma ReplayMeans(log: Log, rid: string, c: Command, e: Env)
    requires log != [] && Precheck(c, e).None?
    ensures Mutate(log, rid, c, e).Replayed? <==>
      Prior(log, rid).Some? && IsRowOf(Prior(log, rid).value, c, Last(log).runId)
  {
    hide Change;
  }

  lemma SameClaimName(log: Log, k: nat, id: StepId)
    requires log != [] && Reached(log) && IsUngreen(Last(log), id) && ClaimsAreNamed(log, id)
    requires 0 < k < |log| && IsMove(log[k], id, Claims) && NoReleaseIn(log, k, |log| - 1, id)
    ensures log[k].requestId == NameAt(Last(log), id, Claims) && log[k].actor == Last(log).steps[id].owner
  {
    hide Reached, Name, NoReleaseIn;
    StepsAreFixed(log, k - 1, |log| - 1, id);
    ReleaseStep(log, k, id);
    ReleasesCount(log, k, |log| - 1, id);
    ClaimActor(log, k, id);
    UngreenHasNoAttempts(log, k - 1, id);
    UngreenHasNoAttempts(log, |log| - 1, id);
  }

  lemma {:induction false} StepsAreFixed(log: Log, i: nat, j: nat, id: StepId)
    requires log != [] && Reached(log) && i <= j < |log| && id in log[j].steps
    ensures id in log[i].steps && SameShape(log[i].steps[id], log[j].steps[id])
  {
    hide Reached;
    ShapesStay(log, i, j);
  }

  lemma ReplayedClaim(log: Log, k: nat, id: StepId)
    requires log != [] && Reached(log) && IsUngreen(Last(log), id) && Disciplined(log, id, Claims)
    requires k < |log| && log[k].requestId == NameAt(Last(log), id, Claims) && log[k].event != CycleLimitHit
    ensures 0 < k && IsMove(log[k], id, Claims) && NoReleaseIn(log, k, |log| - 1, id)
  {
    hide Reached, Name, NoReleaseIn;
    var step := Last(log).steps[id];
    assert log[k].requestId == Name(id, step.attempts, step.releases, VerbName(Claims));
    assert NamedMove(log, k, id, Claims, step.attempts, step.releases);
    ReleaseStep(log, k, id);
    ReleasesCount(log, k, |log| - 1, id);
  }
}
