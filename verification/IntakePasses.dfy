/** What one pass of the sweeper does, said at once: whom it gives up, who gets the turn, and that it looks no
    further than it may; and what a row that was started says. */
module IntakePasses {
  import opened Outcomes
  import opened Intake
  import opened IntakeSafety

  /** These are places in the rows. */
  predicate AreRows(rows: seq<Request>, list: seq<nat>) {
    forall k | 0 <= k < |list| :: list[k] < |rows|
  }

  /** How many of these requests, from the first on, are out of chances. */
  function OutOfChances(rows: seq<Request>, list: seq<nat>): (n: nat)
    requires AreRows(rows, list)
    ensures n <= |list| && (forall k | 0 <= k < n :: rows[list[k]].attempts >= 3)
    ensures n < |list| ==> rows[list[n]].attempts < 3
  {
    if list == [] || rows[list[0]].attempts < 3 then 0 else 1 + OutOfChances(rows, list[1..])
  }

  function GivenUp(row: Request): Request {
    row.(status := Failed, run := None, attempts := row.attempts + 1)
  }

  /** These requests are given up, and nothing else about the rows differs. */
  ghost predicate AreGivenUp(rows: seq<Request>, after: seq<Request>, list: seq<nat>) {
    && |after| == |rows|
    && forall i | 0 <= i < |rows| :: after[i] == if i in list then GivenUp(rows[i]) else rows[i]
  }

  /** All of these wait, each further back than the one before. */
  predicate AreWaiting(rows: seq<Request>, list: seq<nat>) {
    && AreRows(rows, list)
    && (forall k | 0 <= k < |list| :: rows[list[k]].status == Queued)
    && (forall k, l | 0 <= k < l < |list| :: list[k] < list[l])
  }

  function Least(a: nat, b: nat): nat {
    if a < b then a else b
  }

  /** A pass gives up the requests at the front that are out of chances, as far as it may look; then the next one it
      may look at gets its turn, if there is one, and nobody else. */
  lemma PassLaw(w: World, limit: nat, outcome: Planned, meanwhile: seq<Event>) returns (cleared: World)
    ensures var waiting := QueuedFrom(w.rows, 0);
      var seen := waiting[..Least(limit, |waiting|)];
      && AreRows(w.rows, seen)
      && var n := OutOfChances(w.rows, seen);
      && AreGivenUp(w.rows, cleared.rows, seen[..n]) && cleared == w.(rows := cleared.rows)
      && Do(w, Sweep(limit, outcome, meanwhile)) ==
         if n < |seen| then Try(cleared, seen[n], outcome, meanwhile) else cleared
  {
    hide Try, OutOfChances, AreGivenUp;
    var waiting := QueuedFrom(w.rows, 0);
    var seen := waiting[..Least(limit, |waiting|)];
    assert seen == Queue(w.rows, limit);
    cleared := ListLaw(w, seen, outcome, meanwhile);
  }

  lemma {:induction false} ListLaw(w: World, list: seq<nat>, outcome: Planned, meanwhile: seq<Event>)
    returns (cleared: World)
    requires AreWaiting(w.rows, list)
    ensures var n := OutOfChances(w.rows, list);
      && AreGivenUp(w.rows, cleared.rows, list[..n]) && cleared == w.(rows := cleared.rows)
      && SweepList(w, list, outcome, meanwhile) ==
         if n < |list| then Try(cleared, list[n], outcome, meanwhile) else cleared
    decreases |list|
  {
    hide Try, AreGivenUp;
    if list == [] || w.rows[list[0]].attempts < 3 {
      cleared := w;
      NobodyIsGivenUp(w.rows, list[..0]);
    } else {
      var next := Settle(w, list[0], Failed, None, true);
      RestWaits(w.rows, list);
      assert next == w.(rows := w.rows[list[0] := GivenUp(w.rows[list[0]])]);
      cleared := ListLaw(next, list[1..], outcome, meanwhile);
      FirstIsGivenUp(w.rows, cleared.rows, list);
      assert SweepList(w, list, outcome, meanwhile) == SweepList(next, list[1..], outcome, meanwhile);
    }
  }

  lemma NobodyIsGivenUp(rows: seq<Request>, list: seq<nat>)
    requires list == []
    ensures AreGivenUp(rows, rows, list)
  {
  }

  /** Once the first is given up the others still wait, with the chances they had. */
  lemma RestWaits(rows: seq<Request>, list: seq<nat>)
    requires AreWaiting(rows, list) && list != []
    ensures var next := rows[list[0] := GivenUp(rows[list[0]])];
      && AreWaiting(next, list[1..]) && AreRows(rows, list[1..])
      && OutOfChances(next, list[1..]) == OutOfChances(rows, list[1..])
  {
    hide OutOfChances;
    SameChances(rows[list[0] := GivenUp(rows[list[0]])], rows, list[1..]);
  }

  lemma FirstIsGivenUp(rows: seq<Request>, after: seq<Request>, list: seq<nat>)
    requires AreWaiting(rows, list) && list != [] && rows[list[0]].attempts >= 3
    requires var next := rows[list[0] := GivenUp(rows[list[0]])];
      && AreRows(next, list[1..])
      && OutOfChances(next, list[1..]) == OutOfChances(rows, list[1..])
      && AreGivenUp(next, after, list[1..][..OutOfChances(next, list[1..])])
    ensures AreGivenUp(rows, after, list[..OutOfChances(rows, list)])
  {
    var m := OutOfChances(rows, list[1..]);
    assert list[..m + 1] == [list[0]] + list[1..][..m];
    assert OutOfChances(rows, list) == m + 1;
    hide OutOfChances;
    forall i | 0 <= i < |rows|
      ensures after[i] == if i in list[..m + 1] then GivenUp(rows[i]) else rows[i]
    {
    }
  }

  lemma {:induction false} SameChances(a: seq<Request>, b: seq<Request>, list: seq<nat>)
    requires |a| == |b| && AreRows(a, list) && forall k | 0 <= k < |list| :: a[list[k]] == b[list[k]]
    ensures OutOfChances(a, list) == OutOfChances(b, list)
  {
    if list != [] {
      SameChances(a, b, list[1..]);
    }
  }

  // --- what a started row says --------------------------------------------------------------

  /** A started request names its own run, which exists; no other request names any. */
  predicate NamesItsRun(w: World, i: nat)
    requires i < |w.rows|
  {
    var row := w.rows[i];
    if row.status == Started then row.run == Some(RunIdFor(row.id)) && RunIdFor(row.id) in w.runs else row.run.None?
  }

  ghost predicate AllNameTheirRuns(w: World) {
    forall i | 0 <= i < |w.rows| :: NamesItsRun(w, i)
  }

  lemma HappenNames(w: World, e: Event)
    requires AllNameTheirRuns(w)
    ensures AllNameTheirRuns(Happen(w, e)) && Happen(w, e).runs == w.runs
  {
    forall i | 0 <= i < |Happen(w, e).rows| ensures NamesItsRun(Happen(w, e), i) {
      assert i < |w.rows| ==> NamesItsRun(w, i);
    }
  }

  lemma {:induction false} HappenAllNames(w: World, events: seq<Event>)
    requires AllNameTheirRuns(w)
    ensures AllNameTheirRuns(HappenAll(w, events))
  {
    hide Happen, AllNameTheirRuns;
    if events != [] {
      HappenAllNames(w, Front(events));
      HappenNames(HappenAll(w, Front(events)), Last(events));
    }
  }

  lemma SettleNames(w: World, i: nat, status: Status, run: Option<string>, counts: bool)
    requires AllNameTheirRuns(w) && i < |w.rows|
    requires if status == Started then run == Some(RunIdFor(w.rows[i].id)) && run.value in w.runs else run.None?
    ensures AllNameTheirRuns(Settle(w, i, status, run, counts))
  {
    forall k | 0 <= k < |w.rows| ensures NamesItsRun(Settle(w, i, status, run, counts), k) {
      assert NamesItsRun(w, k);
    }
  }

  lemma CreateNames(w: World, i: nat)
    requires AllNameTheirRuns(w) && i < |w.rows|
    ensures AllNameTheirRuns(Create(w, i)) && RunIdFor(w.rows[i].id) in Create(w, i).runs
  {
    forall k | 0 <= k < |w.rows| ensures NamesItsRun(Create(w, i), k) {
      assert NamesItsRun(w, k);
    }
  }

  lemma TryNames(w: World, i: nat, outcome: Planned, meanwhile: seq<Event>)
    requires AllNameTheirRuns(w) && i < |w.rows|
    ensures AllNameTheirRuns(Try(w, i, outcome, meanwhile))
  {
    hide AllNameTheirRuns, Settle, Create, HappenAll;
    var run := RunIdFor(w.rows[i].id);
    if run in w.runs {
      SettleNames(w, i, Started, Some(run), true);
    } else if w.moving == {} {
      var called := w.(calls := w.calls + [Call(i, outcome)]);
      SameNames(w, called);
      HappenAllNames(called, meanwhile);
      MeanwhileKeepsRows(called, meanwhile);
      FinishNames(HappenAll(called, meanwhile), i, outcome);
    }
  }

  lemma SameNames(w: World, v: World)
    requires AllNameTheirRuns(w) && v.rows == w.rows && v.runs == w.runs
    ensures AllNameTheirRuns(v)
  {
    forall i | 0 <= i < |v.rows| ensures NamesItsRun(v, i) {
      assert NamesItsRun(w, i);
    }
  }

  lemma FinishNames(w: World, i: nat, outcome: Planned)
    requires AllNameTheirRuns(w) && i < |w.rows|
    ensures AllNameTheirRuns(Finish(w, i, outcome))
  {
    hide AllNameTheirRuns, Settle;
    CreateNames(w, i);
    match outcome
    case Dies =>
    case Fails(transient) => SettleNames(w, i, Queued, None, !transient);
    case FailsLate(transient) => SettleNames(Create(w, i), i, Queued, None, !transient);
    case DiesLate =>
    case Creates => SettleNames(Create(w, i), i, Started, Some(RunIdFor(w.rows[i].id)), true);
  }

  lemma {:induction false} SweepNames(w: World, list: seq<nat>, outcome: Planned, meanwhile: seq<Event>)
    requires AllNameTheirRuns(w) && forall k | 0 <= k < |list| :: list[k] < |w.rows|
    ensures AllNameTheirRuns(SweepList(w, list, outcome, meanwhile))
    decreases |list|
  {
    hide AllNameTheirRuns, Try;
    if list != [] {
      if w.rows[list[0]].attempts >= MAX_ATTEMPTS {
        SettleNames(w, list[0], Failed, None, true);
        SweepNames(Settle(w, list[0], Failed, None, true), list[1..], outcome, meanwhile);
      } else {
        TryNames(w, list[0], outcome, meanwhile);
      }
    }
  }

  /** In every history a started request names its own run, which is there, and no other request names one. */
  lemma {:induction false} StartedNamesItsRun(steps: seq<Step>)
    ensures AllNameTheirRuns(Play(steps))
  {
    if steps != [] {
      StartedNamesItsRun(Front(steps));
      var w := Play(Front(steps));
      hide AllNameTheirRuns, SweepList, Happen;
      match Last(steps)
      case Outside(event) => HappenNames(w, event);
      case Sweep(limit, outcome, meanwhile) => SweepNames(w, Queue(w.rows, limit), outcome, meanwhile);
    }
  }
}
