/** The run's bill and its ceiling: nothing is spent twice or forgotten, and approving a budget stop
    always buys at least one more dispatch. */
module RunMoney {
  import opened Outcomes
  import opened Workflows
  import opened RunModel
  import opened RunInvariants
  import opened RunLedger

  /** Conservation: in every row the run's spend is its planning seed plus its steps' spends, and
      neither falls nor is re-seeded as the run goes on. */
  lemma MoneyIsConserved(log: Log, i: nat, j: nat)
    requires log != [] && Reached(log) && i <= j < |log|
    ensures log[j].spend == log[j].planning + Sum(Spends(log[j].steps))
    ensures log[i].spend <= log[j].spend && log[i].planning == log[j].planning
    decreases j
  {
    hide Reached, Successor, NextRow, StepsOk, GraphOk, PendingIsBlocked, StatusIsForced, CyclesOk, SameShapes;
    RowsAreOk(log, j);
    if i < j {
      MoneyIsConserved(log, i, j - 1);
      var a := NeighbourAction(log, j);
      SpendGrows(log[j - 1], a);
    }
  }

  lemma SpendGrows(row: Row, a: Action)
    requires Successor(row, a).Some?
    ensures Successor(row, a).value.planning == row.planning && Successor(row, a).value.spend >= row.spend
  {
  }

  // --- the bill -----------------------------------------------------------------------------

  /** What a cost adds to the bill: nothing, if it is negative. */
  function Price(cost: int): nat {
    if cost > 0 then cost else 0
  }

  /** What a request names as its cost: handing a step back and ruling on it have one. */
  function Named(a: Action): nat {
    if !a.Ask? || !a.command.OnStep? then 0
    else match a.command.verb
      case Hold(_, _, _, _, cost) => Price(cost)
      case Complete(_, _, _, _, cost) => Price(cost)
      case Fail(_, _, cost) => Price(cost)
      case Release(_, _, cost) => Price(cost)
      case CheckApprove(_, _, cost) => Price(cost)
      case CheckReturn(_, _, cost) => Price(cost)
      case CheckReject(_, _, cost) => Price(cost)
      case _ => 0
  }

  /** The log is what these requests made of a new run, one row each. */
  ghost predicate IsPlayed(log: Log, actions: seq<Action>) {
    && |log| == |actions| + 1
    && if actions == [] then IsNewRun(log[0])
       else IsPlayed(Front(log), Front(actions)) && NextRow(Front(log), Last(actions)) == Some(Last(log))
  }

  lemma {:induction false} EveryLogIsPlayed(log: Log) returns (actions: seq<Action>)
    requires log != [] && Reached(log)
    ensures IsPlayed(log, actions)
    decreases |log|
  {
    if |log| == 1 {
      actions := [];
    } else {
      hide RowOk, Successor, NextRow, SameShapes;
      var a := LastAction(log);
      hide Reached;
      var before := EveryLogIsPlayed(Front(log));
      actions := before + [a];
      assert Front(actions) == before;
    }
  }

  /** What the requests of a log came to; one that ran into the ceiling was not carried out. */
  function Bill(log: Log, actions: seq<Action>): nat
    requires |log| == |actions| + 1
  {
    if actions == [] then 0
    else Bill(Front(log), Front(actions)) + if Last(log).event == CycleLimitHit then 0 else Named(Last(actions))
  }

  /** The bill is what was asked: a run has spent what its planning cost and what the requests in its log named,
      and nothing else. */
  lemma {:induction false} BillIsNamed(log: Log, actions: seq<Action>)
    requires IsPlayed(log, actions)
    ensures Last(log).spend == log[0].planning + Bill(log, actions)
  {
    hide NextRow;
    if actions == [] {
      hide IsNewRun;
      NewRunSpends(log);
    } else {
      BillIsNamed(Front(log), Front(actions));
      RowIsBilled(Front(log), Last(actions));
    }
  }

  lemma NewRunSpends(log: Log)
    requires |log| == 1 && IsNewRun(log[0])
    ensures log[0].spend == log[0].planning
  {
  }

  lemma RowIsBilled(log: Log, a: Action)
    requires log != [] && NextRow(log, a).Some?
    ensures var row := NextRow(log, a).value;
      row.spend == Last(log).spend + if row.event == CycleLimitHit then 0 else Named(a)
  {
    hide Prior, EvidencePresent, StepsAfter, VerbEffect, Neighbours, Parties, FindMessage, IsSlug, Strip;
    if a.Ask? && a.command.OnStep? && a.command.step in Last(log).steps && EvidencePresent(a.command.verb, a.env) {
      VerbIsBilled(a, a.command.step, Last(log).steps[a.command.step], Last(log));
    }
  }

  lemma VerbIsBilled(a: Action, id: StepId, step: Step, row: Row)
    requires a.Ask? && a.command.OnStep? && EvidencePresent(a.command.verb, a.env)
    ensures var r := VerbEffect(a.command.verb, id, step, row, a.env); r.Ok? ==> r.value.charge == Named(a)
  {
    hide CheckRefused, WriteRefused;
  }

  // --- the spend ceiling --------------------------------------------------------------------

  /** The ceiling the driver reads (`over_budget`): what a person bought, or else the base. */
  function CeilingOf(row: Row, base: int): int {
    if row.ceiling != 0 then row.ceiling else if base > 0 then base else 0
  }

  predicate OverCeiling(row: Row, base: int) {
    CeilingOf(row, base) != 0 && row.spend >= CeilingOf(row, base)
  }

  predicate IsBudgetHold(a: Action) {
    a.Ask? && a.command.OnStep? && a.command.verb.Hold? && a.command.verb.kind.OverBudget?
  }

  /** One fixed base ceiling; and, if `parks`, the driver's discipline: no step is parked on the budget
      before a whole base ceiling is spent. The driver compares the bill with the ceiling of the snapshot its
      pass began with, which an approval may have raised since, so no more than that holds of its parking. */
  predicate IsDisciplined(row: Row, a: Action, base: int, parks: bool) {
    && (a.Ask? ==> a.env.baseCeiling == base)
    && (parks && IsBudgetHold(a) ==> row.spend >= base)
  }

  /** The logs of a run under one base ceiling, with or without that discipline. */
  ghost predicate PricedAt(log: Log, base: int, parks: bool)
    decreases |log|, 2
  {
    log != [] && ArisesAt(log, base, parks)
  }

  ghost predicate ArisesAt(log: Log, base: int, parks: bool)
    requires log != []
    decreases |log|, 1
  {
    if |log| == 1 then IsNewRun(log[0]) else GrewAt(log, base, parks)
  }

  ghost predicate GrewAt(log: Log, base: int, parks: bool)
    requires |log| > 1
    decreases |log|, 0
  {
    && PricedAt(Front(log), base, parks)
    && exists a :: NextRow(Front(log), a) == Some(Last(log)) && IsDisciplined(Last(Front(log)), a, base, parks)
  }

  ghost predicate DrivenAt(log: Log, base: int) {
    PricedAt(log, base, true)
  }

  lemma {:induction false} PricedIsReached(log: Log, base: int, parks: bool)
    requires PricedAt(log, base, parks)
    ensures Reached(log)
    decreases |log|
  {
    if |log| > 1 {
      assert GrewAt(log, base, parks);
      PricedIsReached(Front(log), base, parks);
      assert Follows(Front(log), Last(log)) && Grew(log);
    }
  }

  lemma PricedGrows(log: Log, a: Action, base: int, parks: bool)
    requires PricedAt(log, base, parks) && NextRow(log, a).Some? && IsDisciplined(Last(log), a, base, parks)
    ensures PricedAt(log + [NextRow(log, a).value], base, parks)
  {
    hide NextRow, IsDisciplined;
    var more := log + [NextRow(log, a).value];
    assert Front(more) == log && Last(more) == NextRow(log, a).value;
    assert GrewAt(more, base, parks);
  }

  /** A step is parked on the budget. */
  predicate IsParked(step: Step) {
    step.status == AwaitingApproval && step.held.Budget?
  }

  /** The number of budget stops a person has approved. */
  function Resumed(log: Log): nat {
    Count(AllResumes, log)
  }

  /** The second row approves a budget stop that stood in the first. */
  predicate IsResume(p: Row, r: Row) {
    Hits(AllResumes, p, r)
  }

  /** This many base ceilings. */
  function Ceilings(k: nat, base: int): int {
    k * base
  }

  ghost predicate CeilingHolds(log: Log, base: int)
    requires log != []
  {
    var row := Last(log);
    && (row.ceiling == 0 || row.ceiling >= Ceilings(Resumed(log) + 1, base))
    && (Resumed(log) > 0 <==> row.ceiling != 0)
    && (forall id | id in row.steps && IsParked(row.steps[id]) :: row.spend >= base)
  }

  /** What a verb does to the ceiling, and how a step comes to be parked on the budget. */
  lemma VerbCeiling(v: Verb, id: StepId, step: Step, row: Row, e: Env)
    requires EvidencePresent(v, e) && StepOk(step, row.runId, row.number) && VerbEffect(v, id, step, row, e).Ok?
    ensures var f := VerbEffect(v, id, step, row, e).value;
      && (v.Approve? && step.held.Budget? ==>
            && f.ceiling == row.spend + (if row.ceiling != 0 then row.ceiling else e.baseCeiling)
            && IsParked(step) && f.charge == 0)
      && (!(v.Approve? && step.held.Budget?) ==> f.ceiling == row.ceiling)
      && (IsParked(f.step) ==> IsParked(step) || (v.Hold? && v.kind.OverBudget?))
  {
  }

  lemma CeilingStep(row: Row, a: Action)
    requires RowOk(row) && Successor(row, a).Some?
    ensures var next := Successor(row, a).value;
      && (IsResume(row, next) ==>
            && a.Ask? && next.target in row.steps && IsParked(row.steps[next.target]) && next.spend == row.spend
            && next.ceiling == row.spend + (if row.ceiling != 0 then row.ceiling else a.env.baseCeiling))
      && (!IsResume(row, next) ==> next.ceiling == row.ceiling)
  {
    hide Successor, VerbEffect, StepsOk, GraphOk, PendingIsBlocked, StatusIsForced, MoneyAddsUp;
    if a.Ask? && row.cycleCount < row.maxCycles && a.command.OnStep? {
      CeilingOnStep(row, a);
    } else {
      CeilingElse(row, a);
    }
  }

  lemma CeilingOnStep(row: Row, a: Action)
    requires RowOk(row) && Successor(row, a).Some?
    requires a.Ask? && row.cycleCount < row.maxCycles && a.command.OnStep?
    ensures var next := Successor(row, a).value;
      && (IsResume(row, next) ==>
            && next.target in row.steps && IsParked(row.steps[next.target]) && next.spend == row.spend
            && next.ceiling == row.spend + (if row.ceiling != 0 then row.ceiling else a.env.baseCeiling))
      && (!IsResume(row, next) ==> next.ceiling == row.ceiling)
  {
    hide Successor, VerbEffect, StepsAfter, StepOk, EvidencePresent;
    var id, f := StepSuccessor(row, a);
    assert StepOk(row.steps[id], row.runId, row.number);
    VerbCeiling(a.command.verb, id, row.steps[id], row, a.env);
  }

  lemma CeilingElse(row: Row, a: Action)
    requires CyclesOk(row) && Successor(row, a).Some?
    requires a.Ask? && row.cycleCount < row.maxCycles ==> !a.command.OnStep?
    ensures !IsResume(row, Successor(row, a).value) && Successor(row, a).value.ceiling == row.ceiling
  {
    hide Successor, RowOk;
    if a.Ask? && row.cycleCount < row.maxCycles && a.command.Cancel? {
      CancelSuccessor(row, a);
    } else {
      IdleSuccessor(row, a);
    }
  }

  lemma ParkedStep(row: Row, a: Action, id: StepId)
    requires RowOk(row) && Successor(row, a).Some? && id in row.steps
    ensures var next := Successor(row, a).value;
      id in next.steps && (IsParked(next.steps[id]) ==> IsParked(row.steps[id]) || IsBudgetHold(a))
  {
    hide Successor, VerbEffect, StepOk, GraphOk, PendingIsBlocked, StatusIsForced, MoneyAddsUp, EvidencePresent;
    var f := Between(row, a, id);
    if ActsOn(row, a, id) {
      assert StepOk(row.steps[id], row.runId, row.number);
      VerbCeiling(a.command.verb, id, row.steps[id], row, a.env);
    }
  }

  /** No ceiling is negative, whoever parks steps and when. */
  lemma {:induction false} CeilingIsNatural(log: Log, base: int, parks: bool)
    requires PricedAt(log, base, parks) && base > 0
    ensures Last(log).ceiling >= 0
    decreases |log|
  {
    if |log| == 1 {
      NewRunIsUntouched(log[0], "");
    } else {
      assert GrewAt(log, base, parks);
      hide PricedAt, IsResume;
      CeilingIsNatural(Front(log), base, parks);
      var a := PricedAction(log, base, parks);
      CeilingStep(Last(Front(log)), a);
    }
  }

  /** The action that added the last row, under this base ceiling. */
  lemma PricedAction(log: Log, base: int, parks: bool) returns (a: Action)
    requires |log| > 1 && GrewAt(log, base, parks)
    ensures PricedAt(Front(log), base, parks) && RowOk(Last(Front(log)))
    ensures Successor(Last(Front(log)), a) == Some(Last(log)) && (a.Ask? ==> a.env.baseCeiling == base)
  {
    hide PricedAt, NextRow, RowOk;
    a :| NextRow(Front(log), a) == Some(Last(log)) && IsDisciplined(Last(Front(log)), a, base, parks);
    PricedIsReached(Front(log), base, parks);
    NextIsSuccessor(Front(log), a);
    LastIsOk(Front(log));
  }

  /** Approving a budget stop buys the work: with a positive base ceiling the run is strictly below
      its ceiling right afterwards, so the next pass dispatches instead of parking again. This holds
      however steps come to be parked. */
  lemma ApprovalBuysADispatch(log: Log, base: int, parks: bool)
    requires |log| > 1 && PricedAt(log, base, parks) && base > 0 && IsResume(log[|log| - 2], Last(log))
    ensures !OverCeiling(Last(log), base)
  {
    assert GrewAt(log, base, parks);
    hide PricedAt, IsResume, RowOk, Successor;
    var a := PricedAction(log, base, parks);
    CeilingIsNatural(Front(log), base, parks);
    CeilingStep(Last(Front(log)), a);
  }

  /** What an approved budget stop buys is the ceiling that stood, not the base ceiling: exactly one base
      ceiling on the first approval of a run, strictly more on every later one, and after `k` earlier
      approvals at least `k + 1` base ceilings. */
  lemma ApprovalBuysTheCeiling(log: Log, base: int)
    requires |log| > 1 && DrivenAt(log, base) && base > 0 && IsResume(log[|log| - 2], Last(log))
    ensures var bought, before := Last(log).ceiling - Last(log).spend, Last(Front(log)).ceiling;
      && bought == CeilingOf(Last(Front(log)), base)
      && (bought == base <==> before == 0 || before == base)
      && (bought == base <==> Resumed(Front(log)) == 0)
      && (bought > base <==> Resumed(Front(log)) > 0)
      && bought >= Ceilings(Resumed(Front(log)) + 1, base)
  {
    assert ArisesAt(log, base, true) && GrewAt(log, base, true);
    CeilingHistory(Front(log), base);
    var a :| NextRow(Front(log), a) == Some(Last(log)) && IsDisciplined(Last(Front(log)), a, base, true);
    PricedIsReached(Front(log), base, true);
    BoughtCeiling(log, a, base);
  }

  /** What one approved budget stop bought, after this many earlier ones. */
  predicate IsPurchase(p: Row, r: Row, earlier: nat, base: int) {
    var bought := r.ceiling - r.spend;
    && bought == CeilingOf(p, base) && bought >= Ceilings(earlier + 1, base)
    && (bought == base <==> p.ceiling == 0 || p.ceiling == base)
    && (bought == base <==> earlier == 0) && (bought > base <==> earlier > 0)
  }

  lemma BoughtCeiling(log: Log, a: Action, base: int)
    requires |log| > 1 && Reached(Front(log)) && base > 0 && CeilingHolds(Front(log), base)
    requires NextRow(Front(log), a) == Some(Last(log)) && IsDisciplined(Last(Front(log)), a, base, true)
    requires IsResume(log[|log| - 2], Last(log))
    ensures IsPurchase(Last(Front(log)), Last(log), Resumed(Front(log)), base)
  {
    hide Reached, Successor, NextRow, RowOk, IsResume, IsDisciplined, Resumed;
    NextIsSuccessor(Front(log), a);
    LastIsOk(Front(log));
    CeilingStep(Last(Front(log)), a);
    BaseIs(Last(Front(log)), a, base, true);
    CeilingsRise(Resumed(Front(log)), base);
  }

  lemma CeilingsRise(k: nat, base: int)
    requires base > 0
    ensures Ceilings(k + 1, base) >= base && (k > 0 ==> Ceilings(k + 1, base) > base)
    ensures Ceilings(1, base) == base
  {
    assert (k + 1) * base == k * base + base;
  }

  /** After `k` approved budget stops the ceiling is at least `k + 1` base ceilings, and a step is
      only ever parked on the budget once a whole base ceiling is gone. */
  lemma {:induction false} CeilingHistory(log: Log, base: int)
    requires DrivenAt(log, base) && base > 0
    ensures CeilingHolds(log, base)
    ensures CeilingOf(Last(log), base) >= Ceilings(Resumed(log) + 1, base)
    decreases |log|
  {
    assert ArisesAt(log, base, true);
    if |log| == 1 {
      NewCeiling(log, base);
    } else {
      assert GrewAt(log, base, true);
      CeilingHistory(Front(log), base);
      PricedIsReached(Front(log), base, true);
      var a :| NextRow(Front(log), a) == Some(Last(log)) && IsDisciplined(Last(Front(log)), a, base, true);
      CeilingGrows(log, a, base);
    }
  }

  lemma NewCeiling(log: Log, base: int)
    requires |log| == 1 && IsNewRun(log[0])
    ensures CeilingHolds(log, base) && log[0].ceiling == 0
  {
    hide IsNewRun;
    NewRunIsUntouched(log[0], "");
    forall id | id in log[0].steps ensures !IsParked(log[0].steps[id]) {
      NewRunIsUntouched(log[0], id);
    }
  }

  lemma CeilingGrows(log: Log, a: Action, base: int)
    requires |log| > 1 && Reached(Front(log)) && base > 0 && CeilingHolds(Front(log), base)
    requires NextRow(Front(log), a) == Some(Last(log)) && IsDisciplined(Last(Front(log)), a, base, true)
    ensures CeilingHolds(log, base)
    ensures CeilingOf(Last(log), base) >= Ceilings(Resumed(log) + 1, base)
  {
    hide Reached, Successor, NextRow, RowOk, CeilingHolds;
    NextIsSuccessor(Front(log), a);
    LastIsOk(Front(log));
    CeilingRises(log, a, base);
    NextParked(log, a, base);
  }

  lemma CeilingRises(log: Log, a: Action, base: int)
    requires |log| > 1 && RowOk(Last(Front(log))) && base > 0 && CeilingHolds(Front(log), base)
    requires Successor(Last(Front(log)), a) == Some(Last(log)) && IsDisciplined(Last(Front(log)), a, base, true)
    ensures Last(log).ceiling == 0 || Last(log).ceiling >= Ceilings(Resumed(log) + 1, base)
    ensures Resumed(log) > 0 <==> Last(log).ceiling != 0
  {
    hide Successor, RowOk, IsDisciplined, IsParked, Ceilings;
    var row, next, k := Last(Front(log)), Last(log), Resumed(Front(log));
    CeilingStep(row, a);
    BaseIs(row, a, base, true);
    if IsResume(row, next) {
      CeilingSum(k, base, row.spend, row.ceiling, next.ceiling);
    }
  }

  lemma BaseIs(row: Row, a: Action, base: int, parks: bool)
    requires IsDisciplined(row, a, base, parks)
    ensures a.Ask? ==> a.env.baseCeiling == base
  {
  }

  /** Buying the current ceiling on top of what is spent buys at least one more base ceiling. */
  lemma CeilingSum(k: nat, base: int, spend: int, old': int, new': int)
    requires base > 0 && spend >= base && new' == spend + (if old' != 0 then old' else base)
    requires (old' == 0 || old' >= Ceilings(k + 1, base)) && (k > 0 ==> old' != 0)
    ensures new' >= Ceilings(k + 2, base) && new' != 0
  {
    assert (k + 2) * base == (k + 1) * base + base && (k + 1) * base >= base;
  }

  lemma NextParked(log: Log, a: Action, base: int)
    requires |log| > 1 && RowOk(Last(Front(log))) && base > 0 && CeilingHolds(Front(log), base)
    requires Successor(Last(Front(log)), a) == Some(Last(log)) && IsDisciplined(Last(Front(log)), a, base, true)
    requires Last(log).ceiling == 0 || Last(log).ceiling >= Ceilings(Resumed(log) + 1, base)
    requires Resumed(log) > 0 <==> Last(log).ceiling != 0
    ensures CeilingHolds(log, base)
    ensures CeilingOf(Last(log), base) >= Ceilings(Resumed(log) + 1, base)
  {
    hide Successor, RowOk, IsResume;
    var row, next := Last(Front(log)), Last(log);
    SpendGrows(row, a);
    SuccessorKeepsRow(row, a);
    forall id | id in next.steps && IsParked(next.steps[id]) ensures next.spend >= base {
      ParkedStep(row, a, id);
    }
  }

  lemma {:induction false} PricedPrefix(log: Log, base: int, parks: bool, n: nat)
    requires PricedAt(log, base, parks) && 1 <= n <= |log|
    ensures PricedAt(log[..n], base, parks)
    decreases |log|
  {
    if n < |log| {
      assert GrewAt(log, base, parks);
      PricedPrefix(Front(log), base, parks, n);
      assert Front(log)[..n] == log[..n];
    } else {
      assert log[..n] == log;
    }
  }

  /** Every ceiling a driven run ever showed is zero or at least the base. */
  lemma SnapshotCeiling(log: Log, base: int, row: Row)
    requires DrivenAt(log, base) && base > 0 && row in log
    ensures row.ceiling == 0 || row.ceiling >= base
  {
    var i: nat :| i < |log| && log[i] == row;
    hide PricedAt;
    PricedPrefix(log, base, true, i + 1);
    assert Last(log[..i + 1]) == row;
    CeilingHistory(log[..i + 1], base);
    CeilingsRise(Resumed(log[..i + 1]), base);
  }
}
