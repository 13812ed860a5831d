/** The intake queue (`triggers.start_queued`, `db_triggers`): requests wait in order of arrival, one at a
    time becomes a run, and each has three charged chances. One sweeper works the queue; callers that count
    the queue and then insert, withdrawals and runs that start or stop moving come at any time and in any
    order, also while it is planning. */
module Intake {
  import opened Outcomes

  datatype Status = Queued | Started | Failed | Withdrawn

  datatype Request = Request(id: string, status: Status, run: Option<string>, attempts: nat, created: int)

  /** How one planning call ends: refused before a run exists, refused after it exists, the process dying
      before or after that point, or a run. */
  datatype Planned =
    | Fails(transient: bool) | FailsLate(transient: bool) | Dies | DiesLate | Creates

  datatype Call = Call(row: nat, outcome: Planned)

  /** `counted` holds what each caller is about to insert that has counted the queue and not inserted yet.
      `starts`, `calls` and `peak` remember which row got a run, which rows were planned, in order, and how
      many callers ever stood between counting and inserting. */
  datatype World = World(
    rows: seq<Request>, runs: set<string>, moving: set<string>, now: int, counted: map<nat, string>,
    starts: seq<nat>, calls: seq<Call>, peak: nat)

  datatype Event =
    | Count(caller: nat, key: string)
    | Insert(caller: nat)
    | Leave(caller: nat)
    | Withdraw(id: string)
    | Wait(seconds: nat)
    | Moves(moving: set<string>)

  datatype Step =
    | Outside(event: Event)
    | Sweep(limit: nat, outcome: Planned, meanwhile: seq<Event>)

  const MAX_ATTEMPTS := 3
  const MAX_QUEUED := 50

  function IntakeId(key: string): string {
    "tg-" + key
  }

  function RunIdFor(id: string): string {
    if |id| < 3 then "run-" else "run-" + id[3..]
  }

  // --- the queue ----------------------------------------------------------------------------

  /** The queued rows from row `i` on, oldest first. */
  function QueuedFrom(rows: seq<Request>, i: nat): (list: seq<nat>)
    requires i <= |rows|
    ensures forall k | 0 <= k < |list| :: i <= list[k] < |rows| && rows[list[k]].status == Queued
    ensures forall j | i <= j < |rows| && rows[j].status == Queued :: j in list
    ensures forall k, l | 0 <= k < l < |list| :: list[k] < list[l]
    decreases |rows| - i
  {
    if i == |rows| then []
    else if rows[i].status == Queued then [i] + QueuedFrom(rows, i + 1)
    else QueuedFrom(rows, i + 1)
  }

  function Take(list: seq<nat>, limit: nat): seq<nat> {
    if |list| <= limit then list else list[..limit]
  }

  function Queue(rows: seq<Request>, limit: nat): seq<nat> {
    Take(QueuedFrom(rows, 0), limit)
  }

  // --- transactions -------------------------------------------------------------------------

  /** Admission looks at one row more than the cap allows, and refuses beyond the cap. */
  predicate HasRoom(rows: seq<Request>) {
    |Queue(rows, MAX_QUEUED + 1)| <= MAX_QUEUED
  }

  function Max(a: nat, b: nat): nat {
    if a < b then b else a
  }

  /** The first of a caller's two transactions. */
  function DoCount(w: World, caller: nat, id: string): World {
    if caller in w.counted || !HasRoom(w.rows) then w
    else
      var counted := w.counted[caller := id];
      w.(counted := counted, peak := Max(w.peak, |counted|))
  }

  /** The second does not count again; an id that is already on record is left alone. */
  function InsertRow(w: World, id: string): World {
    if FindRow(w.rows, id).Some? then w
    else w.(rows := w.rows + [Request(id, Queued, None, 0, w.now)])
  }

  function DoInsert(w: World, caller: nat): World {
    if caller !in w.counted then w
    else InsertRow(w.(counted := w.counted - {caller}), w.counted[caller])
  }

  /** Only a queued row is settled; a row settled meanwhile stays as it is. */
  function Settle(w: World, i: nat, status: Status, run: Option<string>, counts: bool): World
    requires i < |w.rows|
  {
    var row := w.rows[i];
    if row.status != Queued then w
    else w.(rows := w.rows[i := row.(status := status, run := run, attempts := row.attempts + if counts then 1 else 0)])
  }

  function FindRow(rows: seq<Request>, id: string, i: nat := 0): (found: Option<nat>)
    requires i <= |rows|
    ensures found.Some? ==> i <= found.value < |rows| && rows[found.value].id == id
    ensures found.None? ==> forall k | i <= k < |rows| :: rows[k].id != id
    decreases |rows| - i
  {
    if i == |rows| then None else if rows[i].id == id then Some(i) else FindRow(rows, id, i + 1)
  }

  function Happen(w: World, e: Event): World {
    match e
    case Count(caller, key) => DoCount(w, caller, IntakeId(key))
    case Insert(caller) => DoInsert(w, caller)
    case Leave(caller) => w.(counted := w.counted - {caller})
    case Moves(moving) => w.(moving := moving)
    case Wait(seconds) => w.(now := w.now + seconds)
    case Withdraw(id) =>
      match FindRow(w.rows, id)
      case None => w
      case Some(i) => Settle(w, i, Withdrawn, None, false)
  }

  function HappenAll(w: World, events: seq<Event>): World {
    if events == [] then w else Happen(HappenAll(w, Front(events)), Last(events))
  }

  // --- one pass -----------------------------------------------------------------------------

  function Create(w: World, i: nat): World
    requires i < |w.rows|
  {
    var run := RunIdFor(w.rows[i].id);
    w.(runs := w.runs + {run}, moving := w.moving + {run}, starts := w.starts + [i])
  }

  function Finish(w: World, i: nat, outcome: Planned): World
    requires i < |w.rows|
  {
    match outcome
    case Dies => w
    case Fails(transient) => Settle(w, i, Queued, None, !transient)
    case FailsLate(transient) => Settle(Create(w, i), i, Queued, None, !transient)
    case DiesLate => Create(w, i)
    case Creates => Settle(Create(w, i), i, Started, Some(RunIdFor(w.rows[i].id)), true)
  }

  lemma HappenKeepsRows(w: World, e: Event)
    ensures |w.rows| <= |Happen(w, e).rows|
  {
  }

  lemma {:induction false} MeanwhileKeepsRows(w: World, events: seq<Event>)
    ensures |w.rows| <= |HappenAll(w, events).rows|
  {
    if events != [] {
      MeanwhileKeepsRows(w, Front(events));
      HappenKeepsRows(HappenAll(w, Front(events)), Last(events));
    }
  }

  /** The front request's turn: adopt the run it already has, wait while anything moves, or plan. */
  function Try(w: World, i: nat, outcome: Planned, meanwhile: seq<Event>): World
    requires i < |w.rows|
  {
    var run := RunIdFor(w.rows[i].id);
    if run in w.runs then Settle(w, i, Started, Some(run), true)
    else if w.moving != {} then w
    else
      var called := w.(calls := w.calls + [Call(i, outcome)]);
      MeanwhileKeepsRows(called, meanwhile);
      Finish(HappenAll(called, meanwhile), i, outcome)
  }

  /** Give up the requests that are out of chances; the first one that is not gets its turn. */
  function SweepList(w: World, list: seq<nat>, outcome: Planned, meanwhile: seq<Event>): World
    requires forall k | 0 <= k < |list| :: list[k] < |w.rows|
    decreases |list|
  {
    if list == [] then w
    else if w.rows[list[0]].attempts >= MAX_ATTEMPTS then
      SweepList(Settle(w, list[0], Failed, None, true), list[1..], outcome, meanwhile)
    else Try(w, list[0], outcome, meanwhile)
  }

  function Do(w: World, step: Step): World {
    match step
    case Outside(event) => Happen(w, event)
    case Sweep(limit, outcome, meanwhile) => SweepList(w, Queue(w.rows, limit), outcome, meanwhile)
  }

  function Play(steps: seq<Step>): World {
    if steps == [] then World([], {}, {}, 0, map[], [], [], 0) else Do(Play(Front(steps)), Last(steps))
  }

  /** The event is no doing of this caller's. */
  predicate IsOthers(e: Event, caller: nat) {
    match e
    case Count(c, _) => c != caller
    case Insert(c) => c != caller
    case Leave(c) => c != caller
    case _ => true
  }

  lemma OthersKeepOne(w: World, e: Event, caller: nat)
    requires IsOthers(e, caller) && caller in w.counted
    ensures caller in Happen(w, e).counted && Happen(w, e).counted[caller] == w.counted[caller]
  {
  }

  lemma {:induction false} OthersKeepCount(w: World, events: seq<Event>, caller: nat)
    requires (forall e | e in events :: IsOthers(e, caller)) && caller in w.counted
    ensures caller in HappenAll(w, events).counted && HappenAll(w, events).counted[caller] == w.counted[caller]
  {
    hide Happen;
    if events != [] {
      OthersKeepCount(w, Front(events), caller);
      OthersKeepOne(HappenAll(w, Front(events)), Last(events), caller);
    }
  }

  // --- the same, step by step (`db_triggers`, `triggers.start_queued`) -----------------------

  class Desk {
    var rows: seq<Request>
    var runs: set<string>
    var moving: set<string>
    var now: int
    var counted: map<nat, string>
    var starts: seq<nat>
    var calls: seq<Call>
    var peak: nat

    function State(): World
      reads this
    {
      World(rows, runs, moving, now, counted, starts, calls, peak)
    }

    constructor ()
      ensures State() == Play([])
    {
      rows, runs, moving, now, counted, starts, calls, peak := [], {}, {}, 0, map[], [], [], 0;
    }

    /** Whether the backlog lets this caller go on to insert. */
    method CountQueued(caller: nat, id: string) returns (admitted: bool)
      requires caller !in counted
      modifies this`counted, this`peak
      ensures State() == DoCount(old(State()), caller, id)
      ensures admitted <==> |QueuedFrom(rows, 0)| <= 50
      ensures admitted <==> caller in counted
    {
      var waiting := Queue(rows, MAX_QUEUED + 1);
      admitted := |waiting| <= MAX_QUEUED;
      if admitted {
        counted := counted[caller := id];
        peak := Max(peak, |counted|);
      }
    }

    method EnqueueTrigger(id: string) returns (created: bool)
      modifies this`rows
      ensures State() == InsertRow(old(State()), id)
      ensures created <==> forall r | r in old(rows) :: r.id != id
      ensures rows == if created then old(rows) + [Request(id, Queued, None, 0, now)] else old(rows)
    {
      if FindRow(rows, id).Some? { return false; }
      rows := rows + [Request(id, Queued, None, 0, now)];
      created := true;
    }

    /** One caller, with anything others may do between its two transactions: it is turned away exactly
        when more than fifty wait as it counts, whatever the queue holds by the time it inserts. */
    method Enqueue(caller: nat, key: string, others: seq<Event>) returns (admitted: bool, created: bool)
      requires caller !in counted && forall e | e in others :: IsOthers(e, caller)
      modifies this
      ensures admitted <==> |QueuedFrom(old(rows), 0)| <= 50
      ensures !admitted ==> State() == old(State()) && !created
      ensures admitted ==>
        State() == Happen(HappenAll(Happen(old(State()), Count(caller, key)), others), Insert(caller))
      ensures created ==> rows != [] && Last(rows) == Request(IntakeId(key), Queued, None, 0, now)
    {
      created := false;
      admitted := CountQueued(caller, IntakeId(key));
      if !admitted { return; }
      OthersKeepCount(State(), others, caller);
      Meanwhile(others);
      var id := counted[caller];
      counted := counted - {caller};
      created := EnqueueTrigger(id);
    }

    method SettleTrigger(i: nat, status: Status, run: Option<string>, counts: bool) returns (ok: bool)
      requires i < |rows|
      modifies this`rows
      ensures State() == Settle(old(State()), i, status, run, counts)
      ensures ok <==> old(rows[i].status) == Queued
      ensures |rows| == |old(rows)|
      ensures forall k | 0 <= k < |rows| && (k != i || old(rows)[k].status != Queued) :: rows[k] == old(rows)[k]
      ensures ok ==> rows[i].status == status && rows[i].run == run
    {
      ok := rows[i].status == Queued;
      if ok {
        rows := rows[i := rows[i].(status := status, run := run,
                                   attempts := rows[i].attempts + if counts then 1 else 0)];
      }
    }

    /** Everybody else, while the planner is working. */
    method Meanwhile(events: seq<Event>)
      modifies this
      ensures State() == HappenAll(old(State()), events)
    {
      var w := HappenAll(State(), events);
      rows, runs, moving, now, counted := w.rows, w.runs, w.moving, w.now, w.counted;
      starts, calls, peak := w.starts, w.calls, w.peak;
    }

    method CreateRun(i: nat)
      requires i < |rows|
      modifies this`runs, this`moving, this`starts
      ensures State() == Create(old(State()), i)
    {
      var run := RunIdFor(rows[i].id);
      runs, moving, starts := runs + {run}, moving + {run}, starts + [i];
    }

    /** One pass over the front of the queue. */
    method StartQueued(limit: nat, outcome: Planned, meanwhile: seq<Event>)
      modifies this
      ensures State() == SweepList(old(State()), Queue(old(rows), limit), outcome, meanwhile)
    {
      var list := Queue(rows, limit);
      ghost var goal := SweepList(State(), list, outcome, meanwhile);
      var k := 0;
      while k < |list|
        invariant k <= |list|
        invariant forall j | 0 <= j < |list| :: list[j] < |rows|
        invariant SweepList(State(), list[k..], outcome, meanwhile) == goal
      {
        var i := list[k];
        assert list[k..][0] == i && list[k..][1..] == list[k + 1..];
        if rows[i].attempts < MAX_ATTEMPTS {
          PlanOne(i, outcome, meanwhile);
          return;
        }
        var ok := SettleTrigger(i, Failed, None, true);
        k := k + 1;
      }
    }

    method PlanOne(i: nat, outcome: Planned, meanwhile: seq<Event>)
      requires i < |rows|
      modifies this
      ensures State() == Try(old(State()), i, outcome, meanwhile)
    {
      var run := RunIdFor(rows[i].id);
      var ok;
      if run in runs {
        ok := SettleTrigger(i, Started, Some(run), true);
        return;
      }
      if moving != {} { return; }
      calls := calls + [Call(i, outcome)];
      MeanwhileKeepsRows(State(), meanwhile);
      Meanwhile(meanwhile);
      match outcome {
      case Dies =>
      case Fails(transient) => ok := SettleTrigger(i, Queued, None, !transient);
      case FailsLate(transient) =>
        CreateRun(i);
        ok := SettleTrigger(i, Queued, None, !transient);
      case DiesLate => CreateRun(i);
      case Creates =>
        CreateRun(i);
        ok := SettleTrigger(i, Started, Some(RunIdFor(rows[i].id)), true);
      }
    }
  }
}
