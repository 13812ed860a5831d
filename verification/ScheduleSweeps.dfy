/** What one undisturbed sweep comes to: every schedule that is on and due is claimed and queued, once, and
    nothing else is touched. */
module ScheduleSweeps {
  import opened Outcomes
  import opened Schedule

  /** On, due at this moment, and of a kind that is due again. */
  predicate IsDueAt(p: Plan, moment: int) {
    p.enabled && p.next * SECOND <= moment && IsSchedulable(p.kind)
  }

  /** What a sweep leaves of a schedule it read. */
  function Fired(p: Plan, moment: int): Plan {
    if IsDueAt(p, moment) then p.(next := Stamp(NextFire(p.kind, moment).value)) else p
  }

  /** The reading still to look at is what is stored, each schedule once, and none of it is on, due and of a kind
      that is never due again. */
  ghost predicate IsReading(w: World, id: nat) {
    && id in w.sweepers && w.sweepers[id].won.None?
    && var todo := w.sweepers[id].todo;
    && (forall e | e in todo :: IsAsStored(w, e) && IsSweepable(e.1))
    && AreDistinct(todo)
  }

  predicate AreDistinct(read: seq<(string, Plan)>) {
    forall i, j | 0 <= i < j < |read| :: read[i].0 != read[j].0
  }

  predicate IsAsStored(w: World, entry: (string, Plan)) {
    entry.0 in w.plans && w.plans[entry.0] == entry.1
  }

  predicate IsSweepable(p: Plan) {
    p.enabled ==> IsSchedulable(p.kind)
  }

  predicate IsRead(w: World, id: nat, schedule: string)
    requires id in w.sweepers
  {
    exists e :: e in w.sweepers[id].todo && e.0 == schedule
  }

  /** The schedules still to look at have fired, the others stand as they were. */
  ghost predicate PlansAreSwept(w: World, id: nat, after: World)
    requires id in w.sweepers
  {
    && after.plans.Keys == w.plans.Keys
    && forall s | s in w.plans ::
         after.plans[s] == if IsRead(w, id, s) then Fired(w.plans[s], w.sweepers[id].moment) else w.plans[s]
  }

  /** Nothing is queued but for a schedule that was due. */
  ghost predicate RowsAreSwept(w: World, id: nat, after: World)
    requires id in w.sweepers
  {
    && w.rows <= after.rows
    && forall i | |w.rows| <= i < |after.rows| :: IsNewRow(w, id, after.rows[i])
  }

  /** Every schedule that was due is queued, if the queue has room from this turn on. */
  ghost predicate DueAreQueued(w: World, id: nat, after: World, full: nat -> bool, turn: nat)
    requires id in w.sweepers
  {
    (forall n: nat | n >= turn :: !full(n)) ==>
      forall s | s in w.plans && IsRead(w, id, s) && IsDueAt(w.plans[s], w.sweepers[id].moment) ::
        IsQueued(after.rows, Due(s, w.plans[s].next))
  }

  /** The row stands for a schedule of the reading that was due, under its due time and this sweep's moment. */
  predicate IsNewRow(w: World, id: nat, row: (Due, int))
    requires id in w.sweepers
  {
    && row.0.schedule in w.plans && IsRead(w, id, row.0.schedule)
    && IsDueAt(w.plans[row.0.schedule], w.sweepers[id].moment)
    && row == (Due(row.0.schedule, w.plans[row.0.schedule].next), w.sweepers[id].moment)
  }

  lemma OneTurn(w: World, id: nat, full: bool)
    requires IsReading(w, id) && w.sweepers[id].todo != []
    ensures var (s, p), next, moment := w.sweepers[id].todo[0], Turn(w, id, full), w.sweepers[id].moment;
      && id in next.sweepers && next.sweepers[id] == w.sweepers[id].(todo := w.sweepers[id].todo[1..])
      && s in w.plans && w.plans[s] == p && next.plans == w.plans[s := Fired(p, moment)]
      && w.claims <= next.claims
      && (if IsDueAt(p, moment) && !full && !IsQueued(w.rows, Due(s, p.next)) then
            next.rows == w.rows + [(Due(s, p.next), moment)]
          else next.rows == w.rows)
  {
    hide NextFire, IsQueued;
    var (s, p) := w.sweepers[id].todo[0];
    assert IsAsStored(w, w.sweepers[id].todo[0]) && IsSweepable(p);
    NextFireIsNext(p.kind, w.sweepers[id].moment);
  }

  lemma TurnKeepsReading(w: World, id: nat, full: bool)
    requires IsReading(w, id) && w.sweepers[id].todo != []
    ensures IsReading(Turn(w, id, full), id)
    ensures forall s :: IsRead(w, id, s) <==> s == w.sweepers[id].todo[0].0 || IsRead(Turn(w, id, full), id, s)
    ensures !IsRead(Turn(w, id, full), id, w.sweepers[id].todo[0].0)
  {
    OneTurn(w, id, full);
    var next, todo := Turn(w, id, full), w.sweepers[id].todo;
    hide Turn, Fired;
    forall e | e in todo[1..] ensures IsAsStored(next, e) && IsSweepable(e.1) && e.0 != todo[0].0 {
      assert e in todo && IsAsStored(w, e) && IsSweepable(e.1);
      var i: nat :| i < |todo[1..]| && todo[1..][i] == e;
      assert todo[i + 1] == e;
    }
    assert forall e | e in todo :: e == todo[0] || e in todo[1..];
    assert todo[0] in todo;
  }

  lemma {:induction false} SweepIsDone(w: World, id: nat, full: nat -> bool, turn: nat)
    requires IsReading(w, id)
    ensures var after := SweepOn(w, id, full, turn);
      PlansAreSwept(w, id, after) && RowsAreSwept(w, id, after) && DueAreQueued(w, id, after, full, turn)
    decreases |w.sweepers[id].todo|
  {
    hide DoExamine, DoPush, Turn, NextFire, Fired, IsDueAt;
    if w.sweepers[id].todo == [] {
      SweepStops(w, id, full, turn);
    } else {
      OneTurn(w, id, full(turn));
      TurnKeepsReading(w, id, full(turn));
      SweepTurns(w, id, full, turn);
      hide IsReading, PlansAreSwept, RowsAreSwept, DueAreQueued, SweepOn;
      SweepIsDone(Turn(w, id, full(turn)), id, full, turn + 1);
      var after := SweepOn(w, id, full, turn);
      PlansFromHere(w, id, after, full(turn));
      RowsFromHere(w, id, after, full(turn));
      QueueFromHere(w, id, after, full, turn);
    }
  }

  lemma PlansFromHere(w: World, id: nat, after: World, full: bool)
    requires IsReading(w, id) && w.sweepers[id].todo != [] && id in Turn(w, id, full).sweepers
    requires PlansAreSwept(Turn(w, id, full), id, after)
    ensures PlansAreSwept(w, id, after)
  {
    OneTurn(w, id, full);
    TurnKeepsReading(w, id, full);
    hide Turn, Fired, IsDueAt, NextFire, IsRead, IsQueued, IsReading;
  }

  lemma RowsFromHere(w: World, id: nat, after: World, full: bool)
    requires IsReading(w, id) && w.sweepers[id].todo != [] && id in Turn(w, id, full).sweepers
    requires RowsAreSwept(Turn(w, id, full), id, after)
    ensures RowsAreSwept(w, id, after)
  {
    OneTurn(w, id, full);
    TurnKeepsReading(w, id, full);
    hide Turn, Fired, IsDueAt, NextFire, IsRead, IsQueued, IsReading;
    var next := Turn(w, id, full);
    forall i | |w.rows| <= i < |after.rows| ensures IsNewRow(w, id, after.rows[i]) {
      if i < |next.rows| {
        assert after.rows[i] == next.rows[i];
      } else {
        assert IsNewRow(next, id, after.rows[i]);
      }
    }
  }

  lemma QueueFromHere(w: World, id: nat, after: World, full: nat -> bool, turn: nat)
    requires IsReading(w, id) && w.sweepers[id].todo != [] && id in Turn(w, id, full(turn)).sweepers
    requires RowsAreSwept(Turn(w, id, full(turn)), id, after)
    requires DueAreQueued(Turn(w, id, full(turn)), id, after, full, turn + 1)
    ensures DueAreQueued(w, id, after, full, turn)
  {
    OneTurn(w, id, full(turn));
    TurnKeepsReading(w, id, full(turn));
    if forall n: nat | n >= turn :: !full(n) {
      var (first, p) := w.sweepers[id].todo[0];
      if IsDueAt(p, w.sweepers[id].moment) {
        FirstIsQueued(w, id, false);
        QueuedStays(Turn(w, id, false).rows, after.rows, Due(first, p.next));
      }
    }
    hide Turn, Fired, IsDueAt, NextFire, IsRead, IsQueued, IsReading, IsNewRow;
  }

  lemma FirstIsQueued(w: World, id: nat, full: bool)
    requires IsReading(w, id) && w.sweepers[id].todo != [] && !full
    requires IsDueAt(w.sweepers[id].todo[0].1, w.sweepers[id].moment)
    ensures var (s, p) := w.sweepers[id].todo[0]; IsQueued(Turn(w, id, full).rows, Due(s, p.next))
  {
    OneTurn(w, id, full);
    hide Turn, IsDueAt, IsReading;
    var (s, p) := w.sweepers[id].todo[0];
    if !IsQueued(w.rows, Due(s, p.next)) {
      assert Turn(w, id, full).rows[|w.rows|].0 == Due(s, p.next);
    }
  }

  lemma QueuedStays(rows: seq<(Due, int)>, more: seq<(Due, int)>, due: Due)
    requires rows <= more && IsQueued(rows, due)
    ensures IsQueued(more, due)
  {
    var i :| 0 <= i < |rows| && rows[i].0 == due;
    assert more[i] == rows[i];
  }

  // --- from the first reading ---------------------------------------------------------------

  lemma {:induction false} ReadIsStored(w: World, order: seq<string>)
    ensures forall e | e in ReadPlans(w, order) :: IsAsStored(w, e) && e.0 in order
    ensures forall s | s in order && s in w.plans :: (s, w.plans[s]) in ReadPlans(w, order)
  {
    if order != [] {
      ReadIsStored(w, order[1..]);
      var rest, head := ReadPlans(w, order[1..]), if order[0] in w.plans then [(order[0], w.plans[order[0]])] else [];
      assert ReadPlans(w, order) == head + rest;
      forall s | s in order && s in w.plans ensures (s, w.plans[s]) in head + rest {
        if s == order[0] {
          assert head[0] in head;
        }
      }
    }
  }

  lemma {:induction false} ReadIsDistinct(w: World, order: seq<string>)
    requires forall i, j | 0 <= i < j < |order| :: order[i] != order[j]
    ensures AreDistinct(ReadPlans(w, order))
  {
    if order != [] {
      ReadIsDistinct(w, order[1..]);
      ReadIsStored(w, order[1..]);
      var rest := ReadPlans(w, order[1..]);
      forall e | e in rest ensures e.0 != order[0] {
        var k: nat :| k < |order[1..]| && order[1..][k] == e.0;
        assert order[k + 1] == e.0;
      }
    }
  }

  /** A whole sweep that nobody disturbs, over any reading order without repetition in which every schedule that is
      on can be due again: exactly the schedules of it that are on and due move to their next time, each leaves a
      row under the time it was due unless the queue is full, and no other row is queued. */
  lemma SweepFires(w: World, id: nat, moment: int, order: seq<string>, full: nat -> bool)
    requires id !in w.sweepers && forall i, j | 0 <= i < j < |order| :: order[i] != order[j]
    requires forall s | s in order && s in w.plans :: IsSweepable(w.plans[s])
    ensures var after := SweepOn(Do(w, Start(id, moment, order)), id, full, 0);
      && after.plans.Keys == w.plans.Keys
      && (forall s | s in w.plans ::
            after.plans[s] == if s in order then Fired(w.plans[s], moment) else w.plans[s])
      && ((forall n: nat :: !full(n)) ==> forall s | s in order && s in w.plans && IsDueAt(w.plans[s], moment) ::
            IsQueued(after.rows, Due(s, w.plans[s].next)))
      && w.rows <= after.rows
      && forall i | |w.rows| <= i < |after.rows| ::
           var s := after.rows[i].0.schedule;
           && s in order && s in w.plans && IsDueAt(w.plans[s], moment)
           && after.rows[i] == (Due(s, w.plans[s].next), moment)
  {
    hide SweepOn, Fired, IsDueAt, NextFire, IsQueued;
    ReadIsStored(w, order);
    ReadIsDistinct(w, order);
    var began := Do(w, Start(id, moment, order));
    var read := began.sweepers[id].todo;
    assert read == ReadPlans(w, order);
    hide ReadPlans;
    assert forall e | e in read :: IsAsStored(began, e) && IsSweepable(e.1) by {
      assert forall e | e in read :: IsAsStored(w, e) && e.0 in order;
    }
    assert IsReading(began, id);
    forall s ensures IsRead(began, id, s) <==> s in order && s in w.plans {
      if s in order && s in w.plans {
        assert (s, w.plans[s]) in read;
      }
    }
    SweepIsDone(began, id, full, 0);
    var after := SweepOn(began, id, full, 0);
    forall i | |w.rows| <= i < |after.rows|
      ensures var s := after.rows[i].0.schedule;
        s in order && s in w.plans && IsDueAt(w.plans[s], moment) && after.rows[i] == (Due(s, w.plans[s].next), moment)
    {
      assert IsNewRow(began, id, after.rows[i]);
    }
  }
}
