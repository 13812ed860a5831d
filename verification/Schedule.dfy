/** The clock's half of intake (`triggers.next_fire`, `fire_due_schedules`, `db_triggers.claim_due_schedule`):
    when a schedule is next due, and the fence that keeps sweepers with stale readings from firing one
    due time twice. Moments are in microseconds, stored times in whole seconds. */
module Schedule {
  import opened Outcomes

  const SECOND := 1_000_000
  const DAY := 86_400

  /** The columns as stored; the service checks them only when it computes the next time. */
  datatype Kind = Interval(seconds: Option<int>) | Daily(at: Option<string>) | OtherKind

  predicate IsDigit(c: char) { '0' <= c <= '9' }

  function Digit(c: char): int { c as int - '0' as int }

  /** HH:MM on a 24-hour clock. */
  predicate IsTimeOfDay(at: string) {
    && |at| == 5 && IsDigit(at[0]) && IsDigit(at[1]) && at[2] == ':' && IsDigit(at[3]) && IsDigit(at[4])
    && 10 * Digit(at[0]) + Digit(at[1]) < 24 && Digit(at[3]) < 6
  }

  function SecondOfDay(at: string): int
    requires IsTimeOfDay(at)
  {
    (10 * Digit(at[0]) + Digit(at[1])) * 3600 + (10 * Digit(at[3]) + Digit(at[4])) * 60
  }

  predicate IsSchedulable(kind: Kind) {
    match kind
    case Interval(seconds) => seconds.Some? && seconds.value >= 60
    case Daily(at) => at.Some? && IsTimeOfDay(at.value)
    case OtherKind => false
  }

  /** When a schedule of this kind is due again after a moment, or nothing if it can never be. */
  function NextFire(kind: Kind, after: int): Option<int> {
    match kind
    case OtherKind => None
    case Interval(seconds) =>
      if seconds.None? || seconds.value < 60 then None else Some(after + seconds.value * SECOND)
    case Daily(at) =>
      if at.None? || !IsTimeOfDay(at.value) then None
      else
        var candidate := after / (DAY * SECOND) * (DAY * SECOND) + SecondOfDay(at.value) * SECOND;
        Some(if candidate > after then candidate else candidate + DAY * SECOND)
  }

  /** It is that time of day, to the microsecond. */
  predicate StrikesAt(moment: int, at: string)
    requires IsTimeOfDay(at)
  {
    moment % (DAY * SECOND) == SecondOfDay(at) * SECOND
  }

  lemma DailyParts(after: int, at: string)
    requires IsTimeOfDay(at)
    ensures 0 <= SecondOfDay(at) < DAY
    ensures var candidate := after / (DAY * SECOND) * (DAY * SECOND) + SecondOfDay(at) * SECOND;
      after - DAY * SECOND < candidate <= after + DAY * SECOND
  {
  }

  lemma DayRemainder(day: int, rest: int)
    requires 0 <= rest < DAY * SECOND
    ensures (day * (DAY * SECOND) + rest) % (DAY * SECOND) == rest
    ensures (day * (DAY * SECOND) + rest) / (DAY * SECOND) == day
  {
  }

  /** The next time is strictly later. A daily one is the first moment after the given one at which that
      time of day strikes, so it is within 24 hours; an interval is exactly its length away. */
  lemma NextFireIsNext(kind: Kind, after: int)
    ensures NextFire(kind, after).Some? <==> IsSchedulable(kind)
    ensures NextFire(kind, after).Some? ==> NextFire(kind, after).value > after
    ensures kind.Interval? && IsSchedulable(kind) ==> NextFire(kind, after).value - after == kind.seconds.value * SECOND
    ensures kind.Daily? && IsSchedulable(kind) ==>
      var next := NextFire(kind, after).value;
      && StrikesAt(next, kind.at.value) && next <= after + DAY * SECOND
      && forall other | after < other && StrikesAt(other, kind.at.value) :: next <= other
  {
    if kind.Daily? && IsSchedulable(kind) {
      var at := kind.at.value;
      DailyParts(after, at);
      var day, next := after / (DAY * SECOND), NextFire(kind, after).value;
      DayRemainder(day, SecondOfDay(at) * SECOND);
      DayRemainder(day + 1, SecondOfDay(at) * SECOND);
      forall other | after < other && StrikesAt(other, at) ensures next <= other {
        FirstStrike(after, other, at);
      }
    }
  }

  lemma FirstStrike(after: int, other: int, at: string)
    requires IsTimeOfDay(at) && StrikesAt(other, at) && after < other
    ensures NextFire(Daily(Some(at)), after).value <= other
  {
    DailyParts(after, at);
    var unit, rest := DAY * SECOND, SecondOfDay(at) * SECOND;
    var day, days := after / unit, other / unit;
    assert other == days * unit + rest && day * unit <= after;
    SameDayOrder(day, days, unit, rest, after, other);
  }

  lemma SameDayOrder(day: int, days: int, unit: int, rest: int, after: int, other: int)
    requires unit == DAY * SECOND && 0 <= rest < unit && day * unit <= after < other == days * unit + rest
    ensures if day * unit + rest > after then day * unit + rest <= other else (day + 1) * unit + rest <= other
  {
    if days < day {
      MulOrder(days, day - 1, unit);
    } else if days > day {
      MulOrder(day + 1, days, unit);
    }
  }

  lemma MulOrder(a: int, b: int, unit: int)
    requires a <= b && unit > 0
    ensures a * unit <= b * unit
  {
  }

  // --- sweepers and the fence ---------------------------------------------------------------

  /** A schedule's row; `next` is the stored due time in whole seconds. */
  datatype Plan = Plan(kind: Kind, enabled: bool, next: int)

  /** The text an intake id is the digest of. */
  datatype Due = Due(schedule: string, at: int)

  /** A successful claim: it moved the stored time from `old'` to `new'`. */
  datatype Claim = Claim(schedule: string, old': int, new': int)

  /** A sweeper works from what it read when it began: the moment, and the rows still to look at. */
  datatype Sweeper = Sweeper(moment: int, todo: seq<(string, Plan)>, won: Option<Due>)

  /** `rows` are the queued requests in order, each with the moment of the sweep that queued it. */
  datatype World = World(plans: map<string, Plan>, sweepers: map<nat, Sweeper>, rows: seq<(Due, int)>,
                         claims: seq<Claim>)

  datatype Step =
    | Start(sweeper: nat, moment: int, order: seq<string>)
    | Examine(sweeper: nat)
    | Push(sweeper: nat, full: bool)
    | Stop(sweeper: nat)
    | Enable(schedule: string, enabled: bool)
    | Create(schedule: string, kind: Kind, next: int)

  function Stamp(moment: int): int {
    moment / SECOND
  }

  /** The guarded update: it matches only while the schedule is still due. */
  function ClaimDue(w: World, schedule: string, fired: int, next: int): (World, bool) {
    if schedule in w.plans && w.plans[schedule].enabled && w.plans[schedule].next <= fired then
      var p := w.plans[schedule];
      (w.(plans := w.plans[schedule := p.(next := next)], claims := w.claims + [Claim(schedule, p.next, next)]), true)
    else (w, false)
  }

  predicate IsQueued(rows: seq<(Due, int)>, due: Due) {
    exists i :: 0 <= i < |rows| && rows[i].0 == due
  }

  function ReadPlans(w: World, order: seq<string>): seq<(string, Plan)> {
    if order == [] then []
    else (if order[0] in w.plans then [(order[0], w.plans[order[0]])] else []) + ReadPlans(w, order[1..])
  }

  /** One schedule of the reading: skipped while it is off or not due, otherwise claimed if it still can be. */
  function DoExamine(w: World, id: nat): World {
    if id !in w.sweepers || w.sweepers[id].won.Some? || w.sweepers[id].todo == [] then w
    else
      var s := w.sweepers[id];
      var (schedule, read) := s.todo[0];
      var rest := s.(todo := s.todo[1..]);
      var following := NextFire(read.kind, s.moment);
      if !read.enabled || read.next * SECOND > s.moment then w.(sweepers := w.sweepers[id := rest])
      else if following.None? then w.(sweepers := w.sweepers[id := rest.(todo := [])])
      else
        var (claimed, won) := ClaimDue(w, schedule, Stamp(s.moment), Stamp(following.value));
        claimed.(sweepers := w.sweepers[id := rest.(won := if won then Some(Due(schedule, read.next)) else None)])
  }

  /** Queueing what was won; the id is derived from the due time as read, and an id is queued only once. */
  function DoPush(w: World, id: nat, full: bool): World {
    if id !in w.sweepers || w.sweepers[id].won.None? then w
    else
      var s := w.sweepers[id];
      var rows := if full || IsQueued(w.rows, s.won.value) then w.rows else w.rows + [(s.won.value, s.moment)];
      w.(sweepers := w.sweepers[id := s.(won := None)], rows := rows)
  }

  function Do(w: World, step: Step): World {
    match step
    case Start(id, moment, order) =>
      if id in w.sweepers then w else w.(sweepers := w.sweepers[id := Sweeper(moment, ReadPlans(w, order), None)])
    case Examine(id) => DoExamine(w, id)
    case Push(id, full) => DoPush(w, id, full)
    case Stop(id) => w.(sweepers := w.sweepers - {id})
    case Enable(schedule, enabled) =>
      if schedule in w.plans then w.(plans := w.plans[schedule := w.plans[schedule].(enabled := enabled)]) else w
    case Create(schedule, kind, next) =>
      var enabled := if schedule in w.plans then w.plans[schedule].enabled else true;
      w.(plans := w.plans[schedule := Plan(kind, enabled, next)])
  }

  function Play(w: World, steps: seq<Step>): World {
    if steps == [] then w else Do(Play(w, Front(steps)), Last(steps))
  }

  // --- the fence holds under any interleaving -----------------------------------------------

  lemma StampAdvances(kind: Kind, moment: int)
    requires NextFire(kind, moment).Some?
    ensures Stamp(moment) < Stamp(NextFire(kind, moment).value)
  {
    var next := NextFire(kind, moment).value;
    match kind
    case Interval(seconds) => StampAdds(moment, seconds.value);
    case Daily(at) =>
      NextFireIsNext(kind, moment);
      WholeSeconds(moment, at.value);
      WholeIsLater(moment, next);
  }

  lemma StampAdds(moment: int, seconds: int)
    ensures Stamp(moment + seconds * SECOND) == Stamp(moment) + seconds
  {
  }

  lemma WholeIsLater(moment: int, next: int)
    requires moment < next && next % SECOND == 0
    ensures Stamp(moment) < Stamp(next)
  {
  }

  /** Daily times have no fraction of a second. */
  lemma WholeSeconds(moment: int, at: string)
    requires IsTimeOfDay(at)
    ensures NextFire(Daily(Some(at)), moment).value % SECOND == 0
  {
    var day := moment / (DAY * SECOND);
    var seconds := day * DAY + SecondOfDay(at);
    assert day * (DAY * SECOND) == day * DAY * SECOND;
    StampAdds(0, seconds);
    StampAdds(0, seconds + DAY);
    assert (seconds * SECOND) % SECOND == 0 && ((seconds + DAY) * SECOND) % SECOND == 0;
  }

  /** A successful claim takes a due time that has come, and moves the stored time strictly onward. */
  lemma ClaimAdvances(w: World, step: Step)
    requires |Do(w, step).claims| > |w.claims|
    ensures Do(w, step).claims[..|w.claims|] == w.claims && |Do(w, step).claims| == |w.claims| + 1
    ensures var c := Last(Do(w, step).claims);
      && c.old' < c.new' && c.schedule in w.plans && c.schedule in Do(w, step).plans
      && w.plans[c.schedule].next == c.old' && Do(w, step).plans[c.schedule].next == c.new'
      && step.Examine? && step.sweeper in w.sweepers && c.old' <= Stamp(w.sweepers[step.sweeper].moment)
  {
    var s := w.sweepers[step.sweeper];
    var (schedule, read) := s.todo[0];
    StampAdvances(read.kind, s.moment);
  }

  /** Only a claim or a re-creation moves a schedule's stored time. */
  lemma OnlyClaimsMove(w: World, step: Step, schedule: string)
    requires schedule in w.plans && (step.Create? ==> step.schedule != schedule)
    ensures schedule in Do(w, step).plans && w.claims <= Do(w, step).claims
    ensures Do(w, step).plans[schedule].next == w.plans[schedule].next
      || (|Do(w, step).claims| > |w.claims| && Last(Do(w, step).claims).schedule == schedule)
  {
    hide NextFire;
  }

  /** The claims made since `n`, for one schedule, form a chain that ends at the stored time. */
  ghost predicate IsChain(w: World, n: nat, schedule: string) {
    && n <= |w.claims| && schedule in w.plans
    && (forall a | n <= a < |w.claims| && w.claims[a].schedule == schedule ::
          w.claims[a].old' < w.claims[a].new' <= w.plans[schedule].next)
    && (forall a, b | n <= a < b < |w.claims| && w.claims[a].schedule == schedule && w.claims[b].schedule == schedule ::
          w.claims[a].new' <= w.claims[b].old')
  }

  lemma StepKeepsChain(w: World, step: Step, n: nat, schedule: string)
    requires IsChain(w, n, schedule) && (step.Create? ==> step.schedule != schedule)
    ensures IsChain(Do(w, step), n, schedule)
  {
    hide Do;
    OnlyClaimsMove(w, step, schedule);
    if |Do(w, step).claims| > |w.claims| {
      ClaimAdvances(w, step);
    }
  }

  /** The fence: however many sweepers race with whatever stale readings, and although sweepers die, the
      claims of a schedule move its stored time strictly upward, each from where an earlier one left it
      or later; so no due time is ever claimed twice. Re-creating the schedule starts a new chain. */
  lemma {:induction false} ClaimsOnlyAdvance(w: World, steps: seq<Step>, schedule: string)
    requires schedule in w.plans
    requires forall s | s in steps :: s.Create? ==> s.schedule != schedule
    ensures IsChain(Play(w, steps), |w.claims|, schedule)
  {
    hide Do, IsChain;
    if steps == [] {
      EmptyChain(w, schedule);
    } else {
      ClaimsOnlyAdvance(w, Front(steps), schedule);
      StepKeepsChain(Play(w, Front(steps)), Last(steps), |w.claims|, schedule);
    }
  }

  lemma EmptyChain(w: World, schedule: string)
    requires schedule in w.plans
    ensures IsChain(w, |w.claims|, schedule)
  {
  }

  // --- what gets queued ---------------------------------------------------------------------

  function RowsOf(rows: seq<(Due, int)>, schedule: string): nat {
    if rows == [] then 0 else RowsOf(Front(rows), schedule) + if Last(rows).0.schedule == schedule then 1 else 0
  }

  function ClaimsOf(claims: seq<Claim>, schedule: string): nat {
    if claims == [] then 0 else ClaimsOf(Front(claims), schedule) + if Last(claims).schedule == schedule then 1 else 0
  }

  /** Sweepers that won a claim of this schedule and have not queued it yet. */
  function Winners(w: World, schedule: string): set<nat> {
    set id | id in w.sweepers && w.sweepers[id].won.Some? && w.sweepers[id].won.value.schedule == schedule
  }

  /** Every queued due time is queued once and not before it has come. */
  ghost predicate RowsOk(w: World) {
    && (forall i, j | 0 <= i < j < |w.rows| :: w.rows[i].0 != w.rows[j].0)
    && (forall i | 0 <= i < |w.rows| :: w.rows[i].0.at * SECOND <= w.rows[i].1)
    && (forall id | id in w.sweepers && w.sweepers[id].won.Some? ::
          w.sweepers[id].won.value.at * SECOND <= w.sweepers[id].moment)
  }

  predicate IsPaid(w: World, schedule: string) {
    RowsOf(w.rows, schedule) + |Winners(w, schedule)| <= ClaimsOf(w.claims, schedule)
  }

  lemma StepKeepsRows(w: World, step: Step)
    requires RowsOk(w)
    ensures RowsOk(Do(w, step))
  {
    hide NextFire;
  }

  predicate IsClaimFor(was: seq<Claim>, claims: seq<Claim>, schedule: string) {
    |claims| == |was| + 1 && claims[..|was|] == was && Last(claims).schedule == schedule
  }

  lemma ExamineFacts(w: World, id: nat)
    ensures var next := DoExamine(w, id);
      && next.rows == w.rows
      && (next == w
          || (id in w.sweepers && w.sweepers[id].won.None?
              && id in next.sweepers && next.sweepers == w.sweepers[id := next.sweepers[id]]
              && (next.sweepers[id].won.None? ==> next.claims == w.claims)
              && (next.sweepers[id].won.Some? ==>
                    IsClaimFor(w.claims, next.claims, next.sweepers[id].won.value.schedule))))
  {
    hide NextFire;
  }

  lemma NewWinner(w: World, next: World, id: nat, schedule: string)
    requires id in w.sweepers && w.sweepers[id].won.None? && id in next.sweepers
    requires next.sweepers == w.sweepers[id := next.sweepers[id]]
    ensures Winners(next, schedule) ==
      Winners(w, schedule) +
        if next.sweepers[id].won.Some? && next.sweepers[id].won.value.schedule == schedule then {id} else {}
  {
  }

  lemma ExamineKeepsPaid(w: World, id: nat, schedule: string)
    requires IsPaid(w, schedule)
    ensures IsPaid(DoExamine(w, id), schedule)
  {
    hide DoExamine, Winners;
    var next := DoExamine(w, id);
    ExamineFacts(w, id);
    if next != w {
      NewWinner(w, next, id, schedule);
      assert next.claims != w.claims ==> Front(next.claims) == w.claims;
    }
  }

  lemma PushKeepsPaid(w: World, id: nat, full: bool, schedule: string)
    requires IsPaid(w, schedule)
    ensures IsPaid(DoPush(w, id, full), schedule)
  {
    var next := DoPush(w, id, full);
    if id in w.sweepers && w.sweepers[id].won.Some? {
      var ended := if w.sweepers[id].won.value.schedule == schedule then {id} else {};
      assert Winners(next, schedule) == Winners(w, schedule) - ended;
      assert next.rows != w.rows ==> Front(next.rows) == w.rows;
    }
  }

  lemma StepKeepsPaid(w: World, step: Step, schedule: string)
    requires IsPaid(w, schedule)
    ensures IsPaid(Do(w, step), schedule)
  {
    hide DoExamine, DoPush;
    match step
    case Examine(id) => ExamineKeepsPaid(w, id, schedule);
    case Push(id, full) => PushKeepsPaid(w, id, full, schedule);
    case Stop(id) => assert Winners(Do(w, step), schedule) == Winners(w, schedule) - {id};
    case _ => assert Winners(Do(w, step), schedule) == Winners(w, schedule);
  }

  predicate IsPaused(w: World, schedule: string) {
    schedule in w.plans && !w.plans[schedule].enabled
  }

  lemma PausedStepClaimsNothing(w: World, step: Step, schedule: string)
    requires IsPaused(w, schedule) && step != Enable(schedule, true)
    ensures IsPaused(Do(w, step), schedule)
    ensures ClaimsOf(Do(w, step).claims, schedule) == ClaimsOf(w.claims, schedule)
  {
    hide NextFire;
    var next := Do(w, step);
    if next.claims != w.claims {
      assert Front(next.claims) == w.claims && Last(next.claims).schedule != schedule;
    }
  }

  /** A schedule that is switched off stays off until it is switched on, re-creating it included, and no sweeper
      claims it meanwhile, whatever it read before. */
  lemma {:induction false} PausedIsNeverClaimed(w: World, steps: seq<Step>, schedule: string)
    requires IsPaused(w, schedule) && Enable(schedule, true) !in steps
    ensures IsPaused(Play(w, steps), schedule)
    ensures ClaimsOf(Play(w, steps).claims, schedule) == ClaimsOf(w.claims, schedule)
  {
    hide Do, IsPaused;
    if steps != [] {
      PausedIsNeverClaimed(w, Front(steps), schedule);
      assert Last(steps) in steps;
      PausedStepClaimsNothing(Play(w, Front(steps)), Last(steps), schedule);
    }
  }

  const NOTHING := World(map[], map[], [], [])

  /** Each due time of a schedule is queued at most once and never early, and no more rows are queued for
      a schedule than claims of it were won: sweepers that read the same due time race for one row. */
  lemma {:induction false} EachDueTimeIsQueuedOnce(steps: seq<Step>, schedule: string)
    ensures var w := Play(NOTHING, steps);
      RowsOk(w) && IsPaid(w, schedule) && RowsOf(w.rows, schedule) <= ClaimsOf(w.claims, schedule)
  {
    hide Do, RowsOk;
    if steps == [] {
      assert Winners(NOTHING, schedule) == {};
      assert RowsOk(NOTHING) by { NothingQueued(); }
    } else {
      EachDueTimeIsQueuedOnce(Front(steps), schedule);
      StepKeepsRows(Play(NOTHING, Front(steps)), Last(steps));
      StepKeepsPaid(Play(NOTHING, Front(steps)), Last(steps), schedule);
    }
  }

  lemma NothingQueued()
    ensures RowsOk(NOTHING)
  {
  }

  // --- one whole sweep ----------------------------------------------------------------------

  /** One turn of a sweep: the next schedule of the reading, and what was won queued at once. */
  function Turn(w: World, id: nat, full: bool): World {
    var examined := DoExamine(w, id);
    if id in examined.sweepers && examined.sweepers[id].won.Some? then DoPush(examined, id, full) else examined
  }

  /** The rest of a sweep that nobody disturbs, turn by turn; `full` says at which turns the queue has no room. */
  function SweepOn(w: World, id: nat, full: nat -> bool, turn: nat): World
    decreases if id in w.sweepers then |w.sweepers[id].todo| else 0
  {
    if id !in w.sweepers || w.sweepers[id].won.Some? || w.sweepers[id].todo == [] then w
    else SweepOn(Turn(w, id, full(turn)), id, full, turn + 1)
  }

  lemma SweepTurns(w: World, id: nat, full: nat -> bool, turn: nat)
    requires id in w.sweepers && w.sweepers[id].won.None? && w.sweepers[id].todo != []
    ensures SweepOn(w, id, full, turn) == SweepOn(Turn(w, id, full(turn)), id, full, turn + 1)
  {
    hide Turn;
  }

  lemma SweepStops(w: World, id: nat, full: nat -> bool, turn: nat)
    requires id in w.sweepers && w.sweepers[id].todo == []
    ensures SweepOn(w, id, full, turn) == w
  {
  }

  // --- the same, step by step (`triggers.fire_due_schedules`) -------------------------------

  lemma PlayMore(w: World, steps: seq<Step>, step: Step)
    ensures Play(w, steps + [step]) == Do(Play(w, steps), step)
  {
    assert Front(steps + [step]) == steps;
  }

  class Scheduler {
    var plans: map<string, Plan>
    var sweepers: map<nat, Sweeper>
    var rows: seq<(Due, int)>
    var claims: seq<Claim>

    function State(): World
      reads this
    {
      World(plans, sweepers, rows, claims)
    }

    constructor ()
      ensures State() == NOTHING
    {
      plans, sweepers, rows, claims := map[], map[], [], [];
    }

    /** The update is the claim: it reports whether it was the one that matched. */
    method ClaimDueSchedule(schedule: string, fired: int, next: int) returns (won: bool)
      modifies this`plans, this`claims
      ensures (State(), won) == ClaimDue(old(State()), schedule, fired, next)
      ensures won <==> schedule in old(plans) && old(plans)[schedule].enabled && old(plans)[schedule].next <= fired
      ensures won ==> plans.Keys == old(plans).Keys && plans[schedule].next == next
      ensures won && fired < next ==> plans[schedule].next > old(plans)[schedule].next
      ensures forall k | k in old(plans) && k != schedule :: k in plans && plans[k] == old(plans)[k]
      ensures !won ==> State() == old(State())
    {
      won := schedule in plans && plans[schedule].enabled && plans[schedule].next <= fired;
      if won {
        claims := claims + [Claim(schedule, plans[schedule].next, next)];
        plans := plans[schedule := plans[schedule].(next := next)];
      }
    }

    method Examine(id: nat)
      modifies this
      ensures State() == DoExamine(old(State()), id)
    {
      if id !in sweepers || sweepers[id].won.Some? || sweepers[id].todo == [] { return; }
      var s := sweepers[id];
      var (schedule, read) := s.todo[0];
      var rest := s.(todo := s.todo[1..]);
      if !read.enabled || read.next * SECOND > s.moment {
        sweepers := sweepers[id := rest];
        return;
      }
      var following := NextFire(read.kind, s.moment);
      if following.None? {
        sweepers := sweepers[id := rest.(todo := [])];
        return;
      }
      var won := ClaimDueSchedule(schedule, Stamp(s.moment), Stamp(following.value));
      sweepers := sweepers[id := rest.(won := if won then Some(Due(schedule, read.next)) else None)];
    }

    method Push(id: nat, full: bool)
      modifies this`sweepers, this`rows
      ensures State() == DoPush(old(State()), id, full)
    {
      if id !in sweepers || sweepers[id].won.None? { return; }
      var s := sweepers[id];
      if !full && !IsQueued(rows, s.won.value) {
        rows := rows + [(s.won.value, s.moment)];
      }
      sweepers := sweepers[id := s.(won := None)];
    }

    /** One sweep: read the schedules, then claim and queue each that is due. What it does is a run of
        the sweeper's own steps, at the end of which nothing of its reading is left; undisturbed, it is the
        whole sweep. */
    method FireDueSchedules(id: nat, moment: int, order: seq<string>, full: nat -> bool)
      returns (ghost steps: seq<Step>)
      requires id !in sweepers
      modifies this
      ensures State() == Play(old(State()), steps)
      ensures State() == SweepOn(Do(old(State()), Start(id, moment, order)), id, full, 0)
      ensures id in sweepers && sweepers[id].todo == [] && sweepers[id].won.None? && sweepers[id].moment == moment
    {
      hide NextFire, ClaimDue, ReadPlans, IsQueued, SweepOn;
      ghost var w := State();
      sweepers := sweepers[id := Sweeper(moment, ReadPlans(State(), order), None)];
      steps := [Start(id, moment, order)];
      PlayMore(w, [], Start(id, moment, order));
      assert [] + [Start(id, moment, order)] == steps;
      var turn: nat := 0;
      while sweepers[id].todo != []
        invariant State() == Play(w, steps) && id in sweepers && sweepers[id].won.None? && sweepers[id].moment == moment
        invariant SweepOn(State(), id, full, turn) == SweepOn(Do(w, Start(id, moment, order)), id, full, 0)
        decreases |sweepers[id].todo|
      {
        ghost var left, before := |sweepers[id].todo|, State();
        SweepTurns(before, id, full, turn);
        Examine(id);
        PlayMore(w, steps, Step.Examine(id));
        steps := steps + [Step.Examine(id)];
        assert |sweepers[id].todo| < left;
        if sweepers[id].won.Some? {
          Push(id, full(turn));
          PlayMore(w, steps, Step.Push(id, full(turn)));
          steps := steps + [Step.Push(id, full(turn))];
        }
        assert State() == Turn(before, id, full(turn));
        turn := turn + 1;
      }
      SweepStops(State(), id, full, turn);
    }
  }
}
