/** Serial as far as a pass can see, first in first out, at most one run a request, at most three charged
    plans: over every history of counts, inserts, withdrawals, passes and crashes. */
module IntakeSafety {
  import opened Outcomes
  import opened Intake

  /** The call ended in an error that is held against the request. */
  predicate IsCharged(outcome: Planned) {
    (outcome.Fails? || outcome.FailsLate?) && !outcome.transient
  }

  /** The call left a run behind. */
  predicate Makes(outcome: Planned) {
    outcome.FailsLate? || outcome.DiesLate? || outcome.Creates?
  }

  function Charged(calls: seq<Call>, i: nat): nat {
    if calls == [] then 0
    else Charged(Front(calls), i) + if Last(calls).row == i && IsCharged(Last(calls).outcome) then 1 else 0
  }

  function LastCall(calls: seq<Call>, i: nat): (last: Option<Planned>)
    ensures last.None? ==> Charged(calls, i) == 0
    ensures last.None? <==> forall k | 0 <= k < |calls| :: calls[k].row != i
  {
    if calls == [] then None
    else if Last(calls).row == i then Some(Last(calls).outcome)
    else
      var earlier := LastCall(Front(calls), i);
      assert forall k | 0 <= k < |calls| - 1 :: Front(calls)[k] == calls[k];
      earlier
  }

  // --- the invariant ------------------------------------------------------------------------

  predicate HasRun(w: World, i: nat)
    requires i < |w.rows|
  {
    RunIdFor(w.rows[i].id) in w.runs
  }

  predicate RowOk(w: World, i: nat)
    requires i < |w.rows|
  {
    var row, charged, last := w.rows[i], Charged(w.calls, i), LastCall(w.calls, i);
    && "tg-" <= row.id
    && charged <= MAX_ATTEMPTS
    && (row.status == Queued ==> row.attempts == charged)
    && (row.status == Started ==> HasRun(w, i))
    && (row.status == Failed ==> charged == MAX_ATTEMPTS)
    && (HasRun(w, i) <==> last.Some? && Makes(last.value))
    && (charged == MAX_ATTEMPTS ==> last.Some? && IsCharged(last.value))
  }

  predicate IsTouched(calls: seq<Call>, i: nat) {
    LastCall(calls, i).Some?
  }

  /** Ids differ, the clock only goes on, and a request is planned only when none waits before it. */
  ghost predicate OrderOk(w: World) {
    && (forall i, j | 0 <= i < j < |w.rows| :: w.rows[i].id != w.rows[j].id)
    && (forall i, j | 0 <= i <= j < |w.rows| :: w.rows[i].created <= w.rows[j].created <= w.now)
    && (forall i, j | 0 <= i < j < |w.rows| && IsTouched(w.calls, j) :: w.rows[i].status != Queued)
    && (forall k | 0 <= k < |w.calls| :: w.calls[k].row < |w.rows|)
  }

  /** Runs were created for exactly the rows that have one, each once, in queue order. */
  ghost predicate StartsOk(w: World) {
    && (forall s | s in w.starts :: s < |w.rows|)
    && (forall i, j | 0 <= i < j < |w.starts| :: w.starts[i] < w.starts[j])
    && (forall i: nat | i < |w.rows| :: i in w.starts <==> HasRun(w, i))
    && (forall run | run in w.runs :: exists s :: s in w.starts && s < |w.rows| && RunIdFor(w.rows[s].id) == run)
  }

  ghost predicate RowsOk(w: World) {
    forall i: nat | i < |w.rows| :: RowOk(w, i)
  }

  /** Whoever may still insert is accounted for: what waits and what is about to, together, never exceed the
      cap by more than the callers that ever stood between counting and inserting. */
  ghost predicate CountsOk(w: World) {
    && |QueuedFrom(w.rows, 0)| + |w.counted| <= MAX_QUEUED + w.peak && |w.counted| <= w.peak
    && forall c | c in w.counted :: "tg-" <= w.counted[c]
  }

  ghost predicate WorldOk(w: World) {
    RowsOk(w) && OrderOk(w) && StartsOk(w) && CountsOk(w)
  }

  // --- small facts --------------------------------------------------------------------------

  lemma RunIdsDiffer(a: string, b: string)
    requires "tg-" <= a && "tg-" <= b && a != b
    ensures RunIdFor(a) != RunIdFor(b)
  {
    assert a == "tg-" + a[3..] && b == "tg-" + b[3..];
    assert RunIdFor(a)[4..] == a[3..] && RunIdFor(b)[4..] == b[3..];
  }

  lemma {:induction false} FewerQueued(a: seq<Request>, b: seq<Request>, i: nat)
    requires |a| == |b| && i <= |a|
    requires forall k | i <= k < |a| && b[k].status == Queued :: a[k].status == Queued
    ensures |QueuedFrom(b, i)| <= |QueuedFrom(a, i)|
    decreases |a| - i
  {
    if i < |a| {
      FewerQueued(a, b, i + 1);
    }
  }

  lemma {:induction false} OneMoreQueued(a: seq<Request>, r: Request, i: nat)
    requires i <= |a| && r.status == Queued
    ensures |QueuedFrom(a + [r], i)| == |QueuedFrom(a, i)| + 1
    decreases |a| - i
  {
    if i < |a| {
      OneMoreQueued(a, r, i + 1);
    } else {
      assert QueuedFrom(a + [r], i + 1) == [];
    }
  }

  // --- each transaction keeps the invariant -------------------------------------------------

  /** Everything but the callers between counting and inserting is as it was. */
  predicate SameTables(w: World, next: World) {
    next == w.(counted := next.counted, peak := next.peak)
  }

  lemma SameTablesKeep(w: World, next: World)
    requires RowsOk(w) && OrderOk(w) && StartsOk(w) && SameTables(w, next)
    ensures RowsOk(next) && OrderOk(next) && StartsOk(next)
  {
    hide RunIdFor, Charged, LastCall;
    forall k: nat | k < |next.rows| ensures RowOk(next, k) {
      assert RowOk(w, k);
    }
    SameStarts(w, next);
  }

  lemma OneMoreKey(m: map<nat, string>, k: nat, v: string)
    ensures k !in m ==> |m[k := v]| == |m| + 1
    ensures k in m ==> |m - {k}| == |m| - 1
    ensures k !in m ==> m - {k} == m
  {
    if k !in m {
      assert m[k := v].Keys == m.Keys + {k};
    } else {
      assert (m - {k}).Keys == m.Keys - {k};
    }
  }

  lemma CountKeeps(w: World, caller: nat, key: string)
    requires WorldOk(w)
    ensures WorldOk(DoCount(w, caller, IntakeId(key)))
  {
    hide RowsOk, OrderOk, StartsOk, QueuedFrom;
    OneMoreKey(w.counted, caller, IntakeId(key));
    SameTablesKeep(w, DoCount(w, caller, IntakeId(key)));
  }

  lemma LeaveKeeps(w: World, caller: nat)
    requires WorldOk(w)
    ensures WorldOk(w.(counted := w.counted - {caller}))
  {
    hide RowsOk, OrderOk, StartsOk, QueuedFrom;
    OneMoreKey(w.counted, caller, "");
    SameTablesKeep(w, w.(counted := w.counted - {caller}));
  }

  lemma InsertKeeps(w: World, caller: nat)
    requires WorldOk(w)
    ensures WorldOk(DoInsert(w, caller))
  {
    hide RowsOk, OrderOk, StartsOk, QueuedFrom;
    if caller in w.counted {
      var left := w.(counted := w.counted - {caller});
      OneMoreKey(w.counted, caller, "");
      LeaveKeeps(w, caller);
      EnqueueKeeps(left, w.counted[caller]);
    }
  }

  lemma EnqueueKeeps(w: World, id: string)
    requires RowsOk(w) && OrderOk(w) && StartsOk(w) && "tg-" <= id
    ensures RowsOk(InsertRow(w, id)) && OrderOk(InsertRow(w, id)) && StartsOk(InsertRow(w, id))
    ensures |QueuedFrom(InsertRow(w, id).rows, 0)| <= |QueuedFrom(w.rows, 0)| + 1
    ensures InsertRow(w, id) == w.(rows := InsertRow(w, id).rows)
  {
    hide RowsOk, OrderOk, StartsOk;
    var next := InsertRow(w, id);
    if next != w {
      var row := Request(id, Queued, None, 0, w.now);
      OneMoreQueued(w.rows, row, 0);
      NewRunId(w, row.id);
      EnqueueKeepsOrder(w, row);
      EnqueueKeepsRows(w, row);
      EnqueueKeepsStarts(w, row);
    }
  }

  ghost predicate IsNew(w: World, row: Request) {
    && "tg-" <= row.id && row.status == Queued && row.attempts == 0 && row.created == w.now
    && (forall i | 0 <= i < |w.rows| :: w.rows[i].id != row.id) && RunIdFor(row.id) !in w.runs
  }

  lemma EnqueueKeepsOrder(w: World, row: Request)
    requires OrderOk(w) && IsNew(w, row)
    ensures OrderOk(w.(rows := w.rows + [row])) && LastCall(w.calls, |w.rows|).None?
  {
  }

  lemma EnqueueKeepsRows(w: World, row: Request)
    requires RowsOk(w) && IsNew(w, row) && LastCall(w.calls, |w.rows|).None?
    ensures RowsOk(w.(rows := w.rows + [row]))
  {
    hide RunIdFor;
    var next := w.(rows := w.rows + [row]);
    forall i: nat | i < |next.rows| ensures RowOk(next, i) {
      if i < |w.rows| { assert RowOk(w, i); }
    }
  }

  lemma EnqueueKeepsStarts(w: World, row: Request)
    requires StartsOk(w) && IsNew(w, row)
    ensures StartsOk(w.(rows := w.rows + [row]))
  {
    hide RunIdFor;
    var next := w.(rows := w.rows + [row]);
    forall i: nat | i < |next.rows| ensures i in next.starts <==> HasRun(next, i) {
      if i < |w.rows| { assert HasRun(next, i) == HasRun(w, i); }
    }
    forall run | run in w.runs
      ensures exists s :: s in next.starts && s < |next.rows| && RunIdFor(next.rows[s].id) == run
    {
      var s :| s in w.starts && s < |w.rows| && RunIdFor(w.rows[s].id) == run;
      assert next.rows[s] == w.rows[s];
    }
  }

  /** Every run belongs to a row, so a new row's run id is not taken. */
  lemma NewRunId(w: World, id: string)
    requires RowsOk(w) && StartsOk(w) && "tg-" <= id && FindRow(w.rows, id).None?
    ensures RunIdFor(id) !in w.runs
  {
    hide RunIdFor;
    if RunIdFor(id) in w.runs {
      var s :| s in w.starts && s < |w.rows| && RunIdFor(w.rows[s].id) == RunIdFor(id);
      assert RowOk(w, s);
      RunIdsDiffer(w.rows[s].id, id);
    }
  }

  /** A settlement keeps the invariant if the row's new status is earned. */
  ghost predicate IsEarned(w: World, i: nat, status: Status)
    requires i < |w.rows|
  {
    && (status == Started ==> HasRun(w, i))
    && (status == Failed ==> Charged(w.calls, i) == MAX_ATTEMPTS)
    && status != Queued
  }

  lemma SettleKeeps(w: World, i: nat, status: Status, run: Option<string>, counts: bool)
    requires WorldOk(w) && i < |w.rows| && IsEarned(w, i, status)
    ensures WorldOk(Settle(w, i, status, run, counts))
  {
    hide RowsOk, OrderOk, StartsOk, IsEarned;
    FewerQueued(w.rows, Settle(w, i, status, run, counts).rows, 0);
    SettleKeepsStarts(w, i, status, run, counts);
    SettleKeepsOrder(w, i, status, run, counts);
    SettleKeepsRows(w, i, status, run, counts);
  }

  lemma SettleKeepsOrder(w: World, i: nat, status: Status, run: Option<string>, counts: bool)
    requires OrderOk(w) && i < |w.rows|
    ensures OrderOk(Settle(w, i, status, run, counts))
  {
    hide LastCall;
  }

  lemma SettleKeepsRows(w: World, i: nat, status: Status, run: Option<string>, counts: bool)
    requires RowsOk(w) && i < |w.rows| && IsEarned(w, i, status)
    ensures RowsOk(Settle(w, i, status, run, counts))
  {
    hide RunIdFor, Charged, LastCall;
    var next := Settle(w, i, status, run, counts);
    forall k: nat | k < |next.rows| ensures RowOk(next, k) {
      assert RowOk(w, k);
    }
  }

  lemma SettleKeepsStarts(w: World, i: nat, status: Status, run: Option<string>, counts: bool)
    requires StartsOk(w) && i < |w.rows|
    ensures StartsOk(Settle(w, i, status, run, counts))
  {
    hide RunIdFor;
    var next := Settle(w, i, status, run, counts);
    assert forall k: nat | k < |w.rows| :: next.rows[k].id == w.rows[k].id;
    forall k: nat | k < |next.rows| ensures k in next.starts <==> HasRun(next, k) {
      assert HasRun(next, k) == HasRun(w, k);
    }
    forall r | r in w.runs ensures exists s :: s in next.starts && s < |next.rows| && RunIdFor(next.rows[s].id) == r {
      var s :| s in w.starts && s < |w.rows| && RunIdFor(w.rows[s].id) == r;
      assert next.rows[s].id == w.rows[s].id;
    }
  }

  lemma HappenKeeps(w: World, e: Event)
    requires WorldOk(w)
    ensures WorldOk(Happen(w, e))
  {
    hide WorldOk, DoCount, DoInsert;
    match e
    case Count(caller, key) => CountKeeps(w, caller, key);
    case Insert(caller) => InsertKeeps(w, caller);
    case Leave(caller) => LeaveKeeps(w, caller);
    case Moves(moving) => MovingKeeps(w, moving);
    case Withdraw(id) =>
      if FindRow(w.rows, id).Some? {
        WithdrawIsEarned(w, FindRow(w.rows, id).value);
        SettleKeeps(w, FindRow(w.rows, id).value, Withdrawn, None, false);
      }
    case Wait(seconds) => WaitKeeps(w, seconds);
  }

  lemma WithdrawIsEarned(w: World, i: nat)
    requires i < |w.rows|
    ensures IsEarned(w, i, Withdrawn)
  {
  }

  lemma WaitKeeps(w: World, seconds: nat)
    requires WorldOk(w)
    ensures WorldOk(w.(now := w.now + seconds))
  {
    hide RunIdFor, Charged, LastCall;
    var next := w.(now := w.now + seconds);
    forall k: nat | k < |next.rows| ensures RowOk(next, k) {
      assert RowOk(w, k);
    }
    SameStarts(w, next);
  }

  lemma SameStarts(w: World, next: World)
    requires StartsOk(w) && next.rows == w.rows && next.runs == w.runs && next.starts == w.starts
    ensures StartsOk(next)
  {
    forall k: nat | k < |next.rows| ensures k in next.starts <==> HasRun(next, k) {
      assert HasRun(next, k) == HasRun(w, k);
    }
    forall r | r in w.runs ensures exists s :: s in next.starts && s < |next.rows| && RunIdFor(next.rows[s].id) == r {
      var s :| s in w.starts && s < |w.rows| && RunIdFor(w.rows[s].id) == r;
    }
  }

  // --- planning -----------------------------------------------------------------------------

  /** No request before row `i` is still waiting. */
  predicate IsFront(w: World, i: nat)
    requires i < |w.rows|
  {
    forall k | 0 <= k < i :: w.rows[k].status != Queued
  }

  predicate IsOpen(status: Status) {
    status == Queued || status == Withdrawn
  }

  /** What others can do while row `i` is planned: add rows behind it and withdraw. */
  ghost predicate IsLater(w: World, next: World, i: nat) {
    && i < |w.rows| <= |next.rows|
    && next.runs == w.runs && next.starts == w.starts && next.calls == w.calls
    && next.rows[i].id == w.rows[i].id && IsFront(next, i) && IsOpen(next.rows[i].status)
  }

  lemma HappenIsLater(w: World, e: Event, i: nat)
    requires i < |w.rows| && IsFront(w, i) && IsOpen(w.rows[i].status)
    ensures IsLater(w, Happen(w, e), i)
    ensures forall calls :: Happen(w.(calls := calls), e) == Happen(w, e).(calls := calls)
  {
  }

  lemma {:induction false} MeanwhileIsLater(w: World, events: seq<Event>, i: nat, calls: seq<Call>)
    requires WorldOk(w) && i < |w.rows| && IsFront(w, i) && IsOpen(w.rows[i].status)
    ensures IsLater(w, HappenAll(w, events), i) && WorldOk(HappenAll(w, events))
    ensures HappenAll(w.(calls := calls), events) == HappenAll(w, events).(calls := calls)
    decreases |events|
  {
    hide WorldOk, Happen;
    if events != [] {
      MeanwhileIsLater(w, Front(events), i, calls);
      var before := HappenAll(w, Front(events));
      HappenIsLater(before, Last(events), i);
      HappenKeeps(before, Last(events));
    }
  }

  lemma CallsElsewhere(calls: seq<Call>, c: Call, k: nat)
    ensures LastCall(calls + [c], k) == if c.row == k then Some(c.outcome) else LastCall(calls, k)
    ensures Charged(calls + [c], k) == Charged(calls, k) + if c.row == k && IsCharged(c.outcome) then 1 else 0
  {
    assert Front(calls + [c]) == calls;
  }

  /** The row may be planned: it is at the front, has no run, and has a charged chance left. */
  ghost predicate MayPlan(w: World, i: nat) {
    && i < |w.rows| && IsFront(w, i) && IsOpen(w.rows[i].status) && !HasRun(w, i) && Charged(w.calls, i) < MAX_ATTEMPTS
    && forall s | s in w.starts :: s < i
  }

  lemma PlanKeeps(w: World, i: nat, outcome: Planned)
    requires i < |w.rows| && WorldOk(w) && MayPlan(w, i)
    ensures WorldOk(Finish(w.(calls := w.calls + [Call(i, outcome)]), i, outcome))
  {
    hide RowsOk, OrderOk, StartsOk, MayPlan;
    var next := Finish(w.(calls := w.calls + [Call(i, outcome)]), i, outcome);
    FinishIsSmall(w, i, outcome);
    FewerQueued(w.rows, next.rows, 0);
    PlanKeepsRows(w, i, outcome, next);
    PlanKeepsOrder(w, i, outcome, next);
    PlanKeepsStarts(w, i, outcome, next);
  }

  /** What finishing a planned row changes. */
  ghost predicate IsFinished(w: World, i: nat, outcome: Planned, next: World) {
    && i < |w.rows| == |next.rows| && next.calls == w.calls + [Call(i, outcome)] && next.now == w.now
    && (forall k | 0 <= k < |w.rows| && k != i :: next.rows[k] == w.rows[k])
    && next.rows[i].id == w.rows[i].id && next.rows[i].created == w.rows[i].created
    && (w.rows[i].status == Queued || next.rows[i] == w.rows[i])
    && (w.rows[i].status == Queued ==> next.rows[i].status == if outcome.Creates? then Started else Queued)
    && (w.rows[i].status == Queued && !outcome.Creates? ==>
          next.rows[i].attempts == w.rows[i].attempts + if IsCharged(outcome) then 1 else 0)
    && next.runs == (if Makes(outcome) then w.runs + {RunIdFor(w.rows[i].id)} else w.runs)
    && next.starts == (if Makes(outcome) then w.starts + [i] else w.starts)
  }

  lemma FinishIsSmall(w: World, i: nat, outcome: Planned)
    requires i < |w.rows|
    ensures IsFinished(w, i, outcome, Finish(w.(calls := w.calls + [Call(i, outcome)]), i, outcome))
  {
  }

  lemma PlanKeepsRows(w: World, i: nat, outcome: Planned, next: World)
    requires RowsOk(w) && OrderOk(w) && MayPlan(w, i) && IsFinished(w, i, outcome, next)
    ensures RowsOk(next)
  {
    hide RunIdFor, Charged, LastCall;
    forall k: nat | k < |next.rows| ensures RowOk(next, k) {
      assert RowOk(w, k) && RowOk(w, i);
      CallsElsewhere(w.calls, Call(i, outcome), k);
      if k != i {
        RunIdsDiffer(w.rows[k].id, w.rows[i].id);
        assert HasRun(next, k) == HasRun(w, k);
      }
    }
  }

  lemma PlanKeepsOrder(w: World, i: nat, outcome: Planned, next: World)
    requires OrderOk(w) && MayPlan(w, i) && IsFinished(w, i, outcome, next)
    ensures OrderOk(next)
  {
    hide RunIdFor, Charged, LastCall, HasRun;
    assert forall k | 0 <= k < |w.rows| :: next.rows[k].created == w.rows[k].created && next.rows[k].id == w.rows[k].id;
    forall a, j | 0 <= a < j < |next.rows| && IsTouched(next.calls, j) ensures next.rows[a].status != Queued {
      CallsElsewhere(w.calls, Call(i, outcome), j);
      assert j == i || IsTouched(w.calls, j);
    }
  }

  lemma PlanKeepsStarts(w: World, i: nat, outcome: Planned, next: World)
    requires StartsOk(w) && RowsOk(w) && OrderOk(w) && MayPlan(w, i) && IsFinished(w, i, outcome, next)
    ensures StartsOk(next)
  {
    hide *;
    PlanKeepsStartOrder(w, i, outcome, next);
    PlanKeepsHasRun(w, i, outcome, next);
    PlanKeepsRuns(w, i, outcome, next);
    StartsAre(next);
  }

  lemma StartsAre(w: World)
    requires forall s | s in w.starts :: s < |w.rows|
    requires forall i, j | 0 <= i < j < |w.starts| :: w.starts[i] < w.starts[j]
    requires forall i: nat | i < |w.rows| :: i in w.starts <==> HasRun(w, i)
    requires forall run | run in w.runs :: exists s :: s in w.starts && s < |w.rows| && RunIdFor(w.rows[s].id) == run
    ensures StartsOk(w)
  {
    hide HasRun, RunIdFor;
  }

  lemma PlanKeepsStartOrder(w: World, i: nat, outcome: Planned, next: World)
    requires StartsOk(w) && MayPlan(w, i) && IsFinished(w, i, outcome, next)
    ensures forall s | s in next.starts :: s < |next.rows|
    ensures forall i, j | 0 <= i < j < |next.starts| :: next.starts[i] < next.starts[j]
  {
    hide RunIdFor, Charged, HasRun, IsFront;
    LargerLast(w.starts, i, next.starts);
  }

  lemma LargerLast(starts: seq<nat>, i: nat, next: seq<nat>)
    requires (forall s | s in starts :: s < i) && (next == starts || next == starts + [i])
    requires forall a, b | 0 <= a < b < |starts| :: starts[a] < starts[b]
    ensures forall s | s in next :: s <= i
    ensures forall a, b | 0 <= a < b < |next| :: next[a] < next[b]
  {
    forall a | 0 <= a < |starts| ensures starts[a] < i {
      assert starts[a] in starts;
    }
  }

  lemma PlanKeepsHasRun(w: World, i: nat, outcome: Planned, next: World)
    requires StartsOk(w) && RowsOk(w) && OrderOk(w) && MayPlan(w, i) && IsFinished(w, i, outcome, next)
    ensures forall k: nat | k < |next.rows| :: k in next.starts <==> HasRun(next, k)
  {
    hide RunIdFor, Charged, LastCall, OrderOk, RowsOk;
    forall k: nat | k < |next.rows| ensures k in next.starts <==> HasRun(next, k) {
      assert k in w.starts <==> HasRun(w, k);
      if k != i {
        OtherRunId(w, k, i);
      }
    }
  }

  lemma PlanKeepsRuns(w: World, i: nat, outcome: Planned, next: World)
    requires StartsOk(w) && IsFinished(w, i, outcome, next)
    ensures forall r | r in next.runs ::
      exists s :: s in next.starts && s < |next.rows| && RunIdFor(next.rows[s].id) == r
  {
    hide RunIdFor, HasRun;
    forall r | r in next.runs
      ensures exists s :: s in next.starts && s < |next.rows| && RunIdFor(next.rows[s].id) == r
    {
      if r in w.runs {
        var s :| s in w.starts && s < |w.rows| && RunIdFor(w.rows[s].id) == r;
        assert s in next.starts && next.rows[s].id == w.rows[s].id;
      } else {
        assert i in next.starts;
      }
    }
  }

  lemma OtherRunId(w: World, k: nat, i: nat)
    requires RowsOk(w) && OrderOk(w) && k < |w.rows| && i < |w.rows| && k != i
    ensures RunIdFor(w.rows[k].id) != RunIdFor(w.rows[i].id)
  {
    hide RunIdFor, Charged, LastCall;
    assert RowOk(w, k) && RowOk(w, i);
    RunIdsDiffer(w.rows[k].id, w.rows[i].id);
  }

  /** Runs are created strictly in queue order, so all earlier ones belong to earlier rows. */
  lemma StartsAreEarlier(w: World, i: nat)
    requires WorldOk(w) && i < |w.rows| && w.rows[i].status == Queued && !HasRun(w, i)
    ensures forall s | s in w.starts :: s < i
  {
    hide RunIdFor, Charged;
    forall s | s in w.starts ensures s < i {
      assert RowOk(w, s) && IsTouched(w.calls, s);
    }
  }

  lemma TryKeeps(w: World, i: nat, outcome: Planned, meanwhile: seq<Event>)
    requires WorldOk(w) && i < |w.rows| && w.rows[i].status == Queued && IsFront(w, i)
    requires w.rows[i].attempts < MAX_ATTEMPTS
    ensures WorldOk(Try(w, i, outcome, meanwhile))
  {
    hide WorldOk, Finish;
    if HasRun(w, i) {
      SettleKeeps(w, i, Started, Some(RunIdFor(w.rows[i].id)), true);
    } else if w.moving == {} {
      var calls := w.calls + [Call(i, outcome)];
      StartsAreEarlier(w, i);
      AttemptsAreCharged(w, i);
      MeanwhileIsLater(w, meanwhile, i, calls);
      PlanKeeps(HappenAll(w, meanwhile), i, outcome);
    }
  }

  lemma AttemptsAreCharged(w: World, i: nat)
    requires WorldOk(w) && i < |w.rows| && w.rows[i].status == Queued
    ensures w.rows[i].attempts == Charged(w.calls, i) <= MAX_ATTEMPTS
  {
    assert RowOk(w, i);
  }

  /** The list is the beginning of the queue. */
  ghost predicate IsHead(w: World, list: seq<nat>) {
    && (forall k | 0 <= k < |list| :: list[k] < |w.rows| && w.rows[list[k]].status == Queued)
    && (forall k, l | 0 <= k < l < |list| :: list[k] < list[l])
    && (forall k: nat, l | 0 <= l < |list| && k < list[l] && w.rows[k].status == Queued :: k in list)
  }

  lemma QueueIsHead(w: World, limit: nat)
    ensures IsHead(w, Queue(w.rows, limit))
  {
    var all, list := QueuedFrom(w.rows, 0), Queue(w.rows, limit);
    forall k: nat, l | 0 <= l < |list| && k < list[l] && w.rows[k].status == Queued ensures k in list {
      assert k in all;
      var m :| 0 <= m < |all| && all[m] == k;
      assert list[m] == k;
    }
  }

  lemma {:induction false} SweepKeeps(w: World, list: seq<nat>, outcome: Planned, meanwhile: seq<Event>)
    requires WorldOk(w) && IsHead(w, list)
    ensures WorldOk(SweepList(w, list, outcome, meanwhile))
    decreases |list|
  {
    hide WorldOk, Try;
    if list != [] {
      var i := list[0];
      HeadIsFront(w, list);
      if w.rows[i].attempts >= MAX_ATTEMPTS {
        AttemptsAreCharged(w, i);
        SettleKeeps(w, i, Failed, None, true);
        SweepKeeps(Settle(w, i, Failed, None, true), list[1..], outcome, meanwhile);
      } else {
        TryKeeps(w, i, outcome, meanwhile);
      }
    }
  }

  lemma HeadIsFront(w: World, list: seq<nat>)
    requires IsHead(w, list) && list != []
    ensures IsFront(w, list[0])
    ensures IsHead(Settle(w, list[0], Failed, None, true), list[1..])
  {
    var next, rest := Settle(w, list[0], Failed, None, true), list[1..];
    forall k: nat, l | 0 <= l < |rest| && k < rest[l] && next.rows[k].status == Queued ensures k in rest {
      assert rest[l] == list[l + 1] && w.rows[k].status == Queued && k in list;
      var m :| 0 <= m < |list| && list[m] == k;
      assert m > 0 && rest[m - 1] == k;
    }
    forall k | 0 <= k < list[0] ensures w.rows[k].status != Queued {
      NotBefore(list, k);
    }
  }

  lemma NotBefore(list: seq<nat>, k: nat)
    requires list != [] && k < list[0] && forall a, b | 0 <= a < b < |list| :: list[a] < list[b]
    ensures k !in list
  {
  }

  lemma DoKeeps(w: World, step: Step)
    requires WorldOk(w)
    ensures WorldOk(Do(w, step))
  {
    hide WorldOk, SweepList, Happen;
    match step
    case Outside(event) => HappenKeeps(w, event);
    case Sweep(limit, outcome, meanwhile) =>
      QueueIsHead(w, limit);
      SweepKeeps(w, Queue(w.rows, limit), outcome, meanwhile);
  }

  lemma MovingKeeps(w: World, moving: set<string>)
    requires WorldOk(w)
    ensures WorldOk(w.(moving := moving))
  {
    hide RunIdFor, Charged, LastCall;
    var next := w.(moving := moving);
    forall k: nat | k < |next.rows| ensures RowOk(next, k) {
      assert RowOk(w, k);
    }
    SameStarts(w, next);
  }

  lemma {:induction false} PlayIsOk(steps: seq<Step>)
    ensures WorldOk(Play(steps))
  {
    hide Do;
    if steps != [] {
      PlayIsOk(Front(steps));
      DoKeeps(Play(Front(steps)), Last(steps));
    }
  }

  // --- what every history guarantees --------------------------------------------------------

  /** First in, first out: once a request is planned, has a run or is marked started, no earlier request
      is waiting any more; and runs were created in the order the requests came. */
  lemma FirstInFirstOut(steps: seq<Step>, i: nat, j: nat)
    requires i < j < |Play(steps).rows|
    requires IsTouched(Play(steps).calls, j) || HasRun(Play(steps), j) || Play(steps).rows[j].status == Started
    ensures Play(steps).rows[i].status != Queued
    ensures Play(steps).rows[i].created <= Play(steps).rows[j].created
    ensures forall a, b | 0 <= a < b < |Play(steps).starts| :: Play(steps).starts[a] < Play(steps).starts[b]
  {
    hide Play, RunIdFor, Charged, LastCall, Makes, IsCharged;
    PlayIsOk(steps);
    var w := Play(steps);
    assert RowOk(w, j) && IsTouched(w.calls, j);
    assert w.rows[i].created <= w.rows[j].created;
  }

  /** At most one run a request, though passes die between creating a run and saying so: creations are for
      different rows and different run ids, and a row has a run exactly when one was created for it. */
  lemma OneRunPerRequest(steps: seq<Step>, a: nat, b: nat)
    requires a < b < |Play(steps).starts|
    ensures var w := Play(steps);
      && w.starts[a] < |w.rows| && w.starts[b] < |w.rows|
      && RunIdFor(w.rows[w.starts[a]].id) != RunIdFor(w.rows[w.starts[b]].id)
    ensures forall i: nat | i < |Play(steps).rows| :: i in Play(steps).starts <==> HasRun(Play(steps), i)
  {
    hide Play, RunIdFor;
    PlayIsOk(steps);
    var w := Play(steps);
    assert w.starts[a] in w.starts && w.starts[b] in w.starts && w.starts[a] < w.starts[b];
    OtherRunId(w, w.starts[a], w.starts[b]);
  }

  /** Three charged chances: never a fourth, and no request is given up before its third. */
  lemma ThreeChances(steps: seq<Step>, i: nat)
    requires i < |Play(steps).rows|
    ensures var w := Play(steps);
      && Charged(w.calls, i) <= 3
      && (w.rows[i].status == Queued ==> w.rows[i].attempts == Charged(w.calls, i))
      && (w.rows[i].status == Failed ==> Charged(w.calls, i) == 3)
  {
    hide Play, RunIdFor;
    PlayIsOk(steps);
    assert RowOk(Play(steps), i);
  }

  /** A given-up request should have no run. It has one exactly when its last chance failed after the run
      was on disk: the error was charged, and the row was out of chances before it could adopt the run. */
  lemma AbandonedRun(steps: seq<Step>, i: nat)
    requires i < |Play(steps).rows| && Play(steps).rows[i].status == Failed
    ensures HasRun(Play(steps), i) <==> LastCall(Play(steps).calls, i) == Some(FailsLate(false))
  {
    hide Play, RunIdFor;
    PlayIsOk(steps);
    assert RowOk(Play(steps), i);
  }

  /** A run can be left behind a row that is not started; the next pass that reaches it adopts the run
      and creates nothing, as long as the row has a chance left. */
  lemma CrashIsAdopted(w: World, i: nat, limit: nat, outcome: Planned, meanwhile: seq<Event>)
    requires WorldOk(w) && i < |w.rows| && w.rows[i].status == Queued && IsFront(w, i) && limit > 0
    requires HasRun(w, i) && w.rows[i].attempts < MAX_ATTEMPTS
    ensures var next := Do(w, Sweep(limit, outcome, meanwhile));
      next == w.(rows := next.rows) && i < |next.rows| && next.rows[i].status == Started
      && next.rows[i].run == Some(RunIdFor(w.rows[i].id))
  {
    hide WorldOk, RunIdFor, QueuedFrom, IsFront, Happen;
    FrontIsFirst(w, i, 0);
    var list := Queue(w.rows, limit);
    assert list != [] && list[0] == i;
    assert SweepList(w, list, outcome, meanwhile) == Try(w, i, outcome, meanwhile);
  }

  lemma {:induction false} FrontIsFirst(w: World, i: nat, k: nat)
    requires k <= i < |w.rows| && w.rows[i].status == Queued && IsFront(w, i)
    ensures QueuedFrom(w.rows, k) != [] && QueuedFrom(w.rows, k)[0] == i
    decreases i - k
  {
    if k < i {
      FrontIsFirst(w, i, k + 1);
    }
  }

  /** Serial as far as the pass could see: only a pass creates a run, one at most, and only if nothing moved
      when it looked. Planning takes minutes, and what starts to move in that time is not looked at again. */
  lemma CreationIsSerial(w: World, step: Step)
    requires WorldOk(w) && Do(w, step).starts != w.starts
    ensures step.Sweep? && w.moving == {} && |Do(w, step).starts| == |w.starts| + 1
  {
    hide WorldOk, Happen, Try;
    match step
    case Outside(event) => EventStartsNothing(w, event);
    case Sweep(limit, outcome, meanwhile) =>
      QueueIsHead(w, limit);
      ListIsSerial(w, Queue(w.rows, limit), outcome, meanwhile);
  }

  lemma EventStartsNothing(w: World, e: Event)
    ensures Happen(w, e).starts == w.starts && w.peak <= Happen(w, e).peak
  {
  }

  lemma {:induction false} EventsStartNothing(w: World, events: seq<Event>)
    ensures HappenAll(w, events).starts == w.starts && w.peak <= HappenAll(w, events).peak
  {
    if events != [] {
      EventsStartNothing(w, Front(events));
      EventStartsNothing(HappenAll(w, Front(events)), Last(events));
    }
  }

  lemma {:induction false} ListIsSerial(w: World, list: seq<nat>, outcome: Planned, meanwhile: seq<Event>)
    requires forall k | 0 <= k < |list| :: list[k] < |w.rows|
    ensures var next := SweepList(w, list, outcome, meanwhile);
      && (next.starts == w.starts || (w.moving == {} && |next.starts| == |w.starts| + 1))
      && w.peak <= next.peak
    decreases |list|
  {
    if list != [] {
      if w.rows[list[0]].attempts >= MAX_ATTEMPTS {
        ListIsSerial(Settle(w, list[0], Failed, None, true), list[1..], outcome, meanwhile);
      } else {
        var called := w.(calls := w.calls + [Call(list[0], outcome)]);
        MeanwhileKeepsRows(called, meanwhile);
        EventsStartNothing(called, meanwhile);
      }
    }
  }

  /** The cap of fifty, exactly as far as it holds: a caller goes on to insert exactly while at most fifty
      wait as it counts; and since callers count and insert in two transactions, the queue never holds more
      than fifty and the number of callers that ever stood between the two. */
  lemma QueueIsCapped(steps: seq<Step>, caller: nat, key: string)
    ensures var w := Play(steps);
      && |QueuedFrom(w.rows, 0)| + |w.counted| <= 50 + w.peak
      && (caller !in w.counted ==>
            (caller in Do(w, Outside(Count(caller, key))).counted <==> |QueuedFrom(w.rows, 0)| <= 50))
  {
    hide Play;
    PlayIsOk(steps);
  }

  /** `peak` is what it says: no state of the history, also inside a pass, has more callers between counting
      and inserting. */
  lemma {:induction false} PeakIsKept(steps: seq<Step>, n: nat)
    requires n <= |steps|
    ensures |Play(steps[..n]).counted| <= Play(steps[..n]).peak <= Play(steps).peak
    decreases |steps|
  {
    hide Do;
    PlayIsOk(steps[..n]);
    if n < |steps| {
      PeakIsKept(Front(steps), n);
      assert Front(steps)[..n] == steps[..n];
      PeakRises(Play(Front(steps)), Last(steps));
    } else {
      assert steps[..n] == steps;
    }
  }

  lemma PeakRises(w: World, step: Step)
    ensures w.peak <= Do(w, step).peak
  {
    hide Happen, SweepList, Queue;
    match step
    case Outside(e) => EventStartsNothing(w, e);
    case Sweep(limit, outcome, meanwhile) =>
      QueueIsHead(w, limit);
      ListIsSerial(w, Queue(w.rows, limit), outcome, meanwhile);
  }

  // --- a row that is no longer queued -------------------------------------------------------

  /** The row is there and stands as it did. */
  predicate Keeps(w: World, next: World, i: nat) {
    i < |w.rows| && i < |next.rows| && next.rows[i] == w.rows[i]
  }

  lemma HappenKeepsSettled(w: World, e: Event, i: nat)
    requires i < |w.rows| && w.rows[i].status != Queued
    ensures Keeps(w, Happen(w, e), i)
  {
  }

  lemma {:induction false} MeanwhileKeepsSettled(w: World, events: seq<Event>, i: nat)
    requires i < |w.rows| && w.rows[i].status != Queued
    ensures Keeps(w, HappenAll(w, events), i)
  {
    hide Happen;
    if events != [] {
      MeanwhileKeepsSettled(w, Front(events), i);
      HappenKeepsSettled(HappenAll(w, Front(events)), Last(events), i);
    }
  }

  lemma TryKeepsSettled(w: World, k: nat, outcome: Planned, meanwhile: seq<Event>, i: nat)
    requires k < |w.rows| && i < |w.rows| && w.rows[i].status != Queued
    ensures Keeps(w, Try(w, k, outcome, meanwhile), i)
  {
    hide Happen, RunIdFor;
    var called := w.(calls := w.calls + [Call(k, outcome)]);
    MeanwhileKeepsRows(called, meanwhile);
    MeanwhileKeepsSettled(called, meanwhile, i);
  }

  lemma {:induction false} SweepKeepsSettled(w: World, list: seq<nat>, outcome: Planned, meanwhile: seq<Event>, i: nat)
    requires (forall k | 0 <= k < |list| :: list[k] < |w.rows|) && i < |w.rows| && w.rows[i].status != Queued
    ensures Keeps(w, SweepList(w, list, outcome, meanwhile), i)
    decreases |list|
  {
    hide Try;
    if list != [] {
      if w.rows[list[0]].attempts >= MAX_ATTEMPTS {
        SweepKeepsSettled(Intake.Settle(w, list[0], Failed, None, true), list[1..], outcome, meanwhile, i);
      } else {
        TryKeepsSettled(w, list[0], outcome, meanwhile, i);
      }
    }
  }

  /** A request that was started, given up or withdrawn never changes again, whatever a pass that was
      planning it at the time goes on to do. */
  lemma {:induction false} SettledRowStays(before: seq<Step>, after: seq<Step>, i: nat)
    requires i < |Play(before).rows| && Play(before).rows[i].status != Queued
    ensures Keeps(Play(before), Play(before + after), i)
  {
    if after == [] {
      assert before + after == before;
    } else {
      assert Front(before + after) == before + Front(after);
      SettledRowStays(before, Front(after), i);
      hide Play, Happen, SweepList;
      var w := Play(before + Front(after));
      match Last(after)
      case Outside(e) => HappenKeepsSettled(w, e, i);
      case Sweep(limit, outcome, meanwhile) => SweepKeepsSettled(w, Queue(w.rows, limit), outcome, meanwhile, i);
    }
  }
}
