/** What a won claim comes to. The row is named by the due time as read, the claim takes the due time as
    stored, and sweepers race: a claim can be won and queue nothing, and then no row ever stands for the
    due time it took. */
module ScheduleRaces {
  import opened Outcomes
  import opened Schedule

  /** The sweeper has won a claim and has not queued it yet. */
  predicate Holds(w: World, id: nat, due: Due, moment: int) {
    id in w.sweepers && w.sweepers[id].won == Some(due) && w.sweepers[id].moment == moment
  }

  predicate EndsClaim(step: Step, id: nat) {
    (step.Push? && step.sweeper == id) || (step.Stop? && step.sweeper == id)
  }

  lemma HeldOn(w: World, step: Step, id: nat, due: Due, moment: int)
    requires Holds(w, id, due, moment)
    ensures !EndsClaim(step, id) ==> Holds(Do(w, step), id, due, moment)
    ensures EndsClaim(step, id) ==>
      Do(w, step).rows ==
        if step.Push? && !step.full && !IsQueued(w.rows, due) then w.rows + [(due, moment)] else w.rows
  {
    hide NextFire;
  }

  /** The life of a won claim, in any continuation of any history: it stands until its own sweeper queues
      it or is stopped, and adds no row exactly when the sweeper was stopped, the queue was full, or the
      due time as read was queued already. */
  lemma {:induction false} ClaimEnds(w: World, steps: seq<Step>, id: nat, due: Due, moment: int) returns (k: nat)
    requires Holds(w, id, due, moment)
    ensures k <= |steps| && forall j | 0 <= j <= k :: Holds(Play(w, steps[..j]), id, due, moment)
    ensures k < |steps| ==>
      && EndsClaim(steps[k], id)
      && var was, now := Play(w, steps[..k]).rows, Play(w, steps[..k + 1]).rows;
      && (now == was <==> steps[k].Stop? || steps[k].full || IsQueued(was, due))
      && (now == was || now == was + [(due, moment)])
  {
    k := 0;
    assert steps[..0] == [];
    while k < |steps| && !EndsClaim(steps[k], id)
      invariant k <= |steps| && forall j | 0 <= j <= k :: Holds(Play(w, steps[..j]), id, due, moment)
    {
      OneOn(w, steps, k);
      HeldOn(Play(w, steps[..k]), steps[k], id, due, moment);
      k := k + 1;
    }
    if k < |steps| {
      OneOn(w, steps, k);
      HeldOn(Play(w, steps[..k]), steps[k], id, due, moment);
    }
  }

  lemma OneOn(w: World, steps: seq<Step>, k: nat)
    requires k < |steps|
    ensures Play(w, steps[..k + 1]) == Do(Play(w, steps[..k]), steps[k])
  {
    assert Front(steps[..k + 1]) == steps[..k];
  }

  /** Whether the row will stand for the due time the claim took: exactly if that is the one that was read. */
  lemma ClaimIsNamedAsRead(w: World, id: nat)
    requires |Do(w, Examine(id)).claims| > |w.claims|
    ensures var next := Do(w, Examine(id));
      && id in w.sweepers && w.sweepers[id].todo != [] && id in next.sweepers && next.sweepers[id].won.Some?
      && var (schedule, read) := w.sweepers[id].todo[0];
      && schedule in w.plans && next.sweepers[id].won.value == Due(schedule, read.next)
      && Last(next.claims).schedule == schedule && Last(next.claims).old' == w.plans[schedule].next
      && (next.sweepers[id].won.value == Due(schedule, Last(next.claims).old') <==> w.plans[schedule].next == read.next)
  {
    hide NextFire;
  }

  /** The step queues this due time: a sweeper that read it, and won a claim on that reading, found room. */
  predicate Queues(w: World, step: Step, due: Due) {
    step.Push? && !step.full && step.sweeper in w.sweepers && w.sweepers[step.sweeper].won == Some(due)
  }

  predicate QueuesAt(steps: seq<Step>, k: nat, due: Due) {
    k < |steps| && Queues(Play(NOTHING, steps[..k]), steps[k], due)
  }

  /** A due time is queued exactly if some sweeper that had won a claim on a reading of that very due time
      got to queue it and found room. */
  lemma {:induction false} QueuedByItsReader(steps: seq<Step>, due: Due)
    ensures IsQueued(Play(NOTHING, steps).rows, due) <==> exists k :: QueuesAt(steps, k, due)
  {
    if steps == [] {
      assert !IsQueued(Play(NOTHING, steps).rows, due);
    } else {
      var n := |steps| - 1;
      QueuedByItsReader(Front(steps), due);
      hide IsQueued, Queues;
      QueuedOne(Play(NOTHING, Front(steps)), steps[n], due);
      assert QueuesAt(steps, n, due) <==> Queues(Play(NOTHING, Front(steps)), steps[n], due);
      hide Play, QueuesAt;
      forall k: nat
        ensures QueuesAt(steps, k, due) <==> QueuesAt(Front(steps), k, due) || (k == n && QueuesAt(steps, n, due))
      {
        QueuedEarlier(steps, k, due);
      }
    }
  }

  lemma QueuedEarlier(steps: seq<Step>, k: nat, due: Due)
    requires steps != []
    ensures QueuesAt(steps, k, due) <==>
      QueuesAt(Front(steps), k, due) || (k == |steps| - 1 && QueuesAt(steps, k, due))
  {
    hide Play, Queues;
    if k < |steps| - 1 {
      assert Front(steps)[..k] == steps[..k] && Front(steps)[k] == steps[k];
    }
  }

  lemma QueuedOne(w: World, step: Step, due: Due)
    ensures IsQueued(Do(w, step).rows, due) <==> IsQueued(w.rows, due) || Queues(w, step, due)
  {
    hide NextFire;
    var rows, next := w.rows, Do(w, step).rows;
    assert next == rows || (|next| == |rows| + 1 && next[..|rows|] == rows);
    if i :| 0 <= i < |rows| && rows[i].0 == due {
      assert next[i].0 == due;
    }
    if next != rows {
      assert next[|rows|].0 == w.sweepers[step.sweeper].won.value;
    }
  }

  // --- a due time nobody queues -------------------------------------------------------------

  const HOURGLASS := Interval(Some(60))

  /** Two sweepers read the due time 100. The first, at 101, moves the schedule on to 161; the second, at
      165, takes 161. */
  const RACE: seq<Step> := [
    Create("s", HOURGLASS, 100), Start(1, 101 * SECOND, ["s"]), Start(2, 165 * SECOND, ["s"]),
    Examine(1), Push(1, false), Examine(2), Push(2, false)]

  function Table(next: int): map<string, Plan> {
    map["s" := Plan(HOURGLASS, true, next)]
  }

  function Reader(at: int, todo: bool, won: bool): Sweeper {
    Sweeper(at * SECOND, if todo then [("s", Plan(HOURGLASS, true, 100))] else [],
            if won then Some(Due("s", 100)) else None)
  }

  const FIRST_ROW := (Due("s", 100), 101 * SECOND)
  const FIRST_CLAIM := Claim("s", 100, 161)
  const SECOND_CLAIM := Claim("s", 161, 225)

  lemma BothRead()
    ensures var readers := map[1 := Reader(101, true, false), 2 := Reader(165, true, false)];
      Play(NOTHING, RACE[..3]) == World(Table(100), readers, [], [])
  {
    hide Do;
    OneOn(NOTHING, RACE, 0);
    OneOn(NOTHING, RACE, 1);
    OneOn(NOTHING, RACE, 2);
    assert RACE[..0] == [];
    MakesTable();
    Reads(map[], 1, 101);
    Reads(map[1 := Reader(101, true, false)], 2, 165);
    assert map[][1 := Reader(101, true, false)] == map[1 := Reader(101, true, false)];
    assert map[1 := Reader(101, true, false)][2 := Reader(165, true, false)] ==
      map[1 := Reader(101, true, false), 2 := Reader(165, true, false)];
  }

  lemma MakesTable()
    ensures Do(NOTHING, Create("s", HOURGLASS, 100)) == World(Table(100), map[], [], [])
  {
  }

  lemma Reads(sweepers: map<nat, Sweeper>, id: nat, at: int)
    requires id !in sweepers
    ensures Do(World(Table(100), sweepers, [], []), Start(id, at * SECOND, ["s"])) ==
      World(Table(100), sweepers[id := Reader(at, true, false)], [], [])
  {
    var w := World(Table(100), sweepers, [], []);
    assert ["s"][1..] == [];
    assert ReadPlans(w, []) == [];
    assert ReadPlans(w, ["s"]) == [("s", Plan(HOURGLASS, true, 100))];
  }

  /** A sweeper that read 100 at its moment claims whatever is stored, if that has come. */
  lemma Takes(w: World, id: nat, at: int, stored: int)
    requires w.plans == Table(stored) && id in w.sweepers && w.sweepers[id] == Reader(at, true, false)
    requires 100 <= stored <= at
    ensures Do(w, Examine(id)) ==
      w.(plans := Table(at + 60), claims := w.claims + [Claim("s", stored, at + 60)],
         sweepers := w.sweepers[id := Reader(at, false, true)])
  {
    StampAdds(0, at);
    StampAdds(at * SECOND, 60);
    var moment := at * SECOND;
    assert Stamp(moment) == at && NextFire(HOURGLASS, moment) == Some(moment + 60 * SECOND);
    assert w.plans["s" := Plan(HOURGLASS, true, at + 60)] == Table(at + 60);
    var claims := w.claims + [Claim("s", stored, at + 60)];
    assert ClaimDue(w, "s", at, at + 60) == (w.(plans := Table(at + 60), claims := claims), true);
    assert [("s", Plan(HOURGLASS, true, 100))][1..] == [];
    assert Reader(at, false, true) == w.sweepers[id].(todo := [], won := Some(Due("s", 100)));
  }

  /** Two claims are won, one row is queued, and the schedule has moved past 161, which nobody queued. */
  lemma ADueTimeIsLost()
    ensures var w := Play(NOTHING, RACE);
      && w.claims == [FIRST_CLAIM, SECOND_CLAIM] && w.rows == [FIRST_ROW] && w.plans == Table(225)
      && forall id | id in w.sweepers :: w.sweepers[id].todo == [] && w.sweepers[id].won.None?
  {
    hide Do;
    BothRead();
    var w3 := Play(NOTHING, RACE[..3]);
    OneOn(NOTHING, RACE, 3);
    Takes(w3, 1, 101, 100);
    var w4 := Play(NOTHING, RACE[..4]);
    OneOn(NOTHING, RACE, 4);
    HeldOn(w4, Push(1, false), 1, Due("s", 100), 101 * SECOND);
    PushFrees(w4, 1);
    var w5 := Play(NOTHING, RACE[..5]);
    OneOn(NOTHING, RACE, 5);
    Takes(w5, 2, 165, 161);
    var w6 := Play(NOTHING, RACE[..6]);
    OneOn(NOTHING, RACE, 6);
    assert w6.rows[0].0 == Due("s", 100);
    HeldOn(w6, Push(2, false), 2, Due("s", 100), 165 * SECOND);
    PushFrees(w6, 2);
    assert RACE[..7] == RACE;
  }

  lemma PushFrees(w: World, id: nat)
    requires id in w.sweepers && w.sweepers[id].won.Some?
    ensures var next := Do(w, Push(id, false));
      next.sweepers == w.sweepers[id := w.sweepers[id].(won := None)] && next.plans == w.plans
        && next.claims == w.claims
  {
  }
}
