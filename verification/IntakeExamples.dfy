/** Histories of the queue: some that fill it past its cap, one that gives up a request whose run is on
    disk, and one that creates a run beside a moving one. */
module IntakeExamples {
  import opened Outcomes
  import opened Intake
  import opened IntakeSafety

  function NthKey(k: nat): (key: string)
    ensures |key| == k
  {
    seq(k, _ => 'x')
  }

  /** One caller after the other: each counts and inserts. */
  function Arrivals(n: nat): seq<Step> {
    if n == 0 then [] else Arrivals(n - 1) + [Outside(Count(0, NthKey(n - 1)))] + [Outside(Insert(0))]
  }

  /** Different callers, all of them counting before any of them inserts. */
  function Counts(from: nat, n: nat): seq<Step> {
    if n == 0 then [] else Counts(from, n - 1) + [Outside(Count(n - 1, NthKey(from + n - 1)))]
  }

  function Inserts(n: nat): seq<Step> {
    if n == 0 then [] else Inserts(n - 1) + [Outside(Insert(n - 1))]
  }

  function NthId(from: nat, c: nat): string {
    IntakeId(NthKey(from + c))
  }

  /** The callers from `low` to below `high` hold the keys from `from` on. */
  function Held(from: nat, low: nat, high: nat): map<nat, string> {
    map c: nat | low <= c < high :: NthId(from, c)
  }

  lemma HeldIsWide(from: nat, low: nat, high: nat)
    requires low <= high
    ensures |Held(from, low, high)| == high - low
    decreases high
  {
    if low < high {
      HeldIsWide(from, low, high - 1);
      assert Held(from, low, high).Keys == Held(from, low, high - 1).Keys + {high - 1};
    } else {
      assert Held(from, low, high).Keys == {};
    }
  }

  ghost predicate AllWait(w: World, n: nat) {
    && |w.rows| == n && |QueuedFrom(w.rows, 0)| == n
    && forall k | 0 <= k < n :: |w.rows[k].id| == k + 3
  }

  lemma PlayOn(steps: seq<Step>, step: Step)
    ensures Play(steps + [step]) == Do(Play(steps), step)
  {
    assert Front(steps + [step]) == steps;
  }

  lemma OneMoreWaits(w: World, n: nat)
    requires AllWait(w, n)
    ensures InsertRow(w, IntakeId(NthKey(n))) == w.(rows := InsertRow(w, IntakeId(NthKey(n))).rows)
    ensures AllWait(InsertRow(w, IntakeId(NthKey(n))), n + 1)
  {
    OneMoreQueued(w.rows, Request(IntakeId(NthKey(n)), Queued, None, 0, w.now), 0);
  }

  lemma OneArrives(w: World, n: nat)
    requires AllWait(w, n) && n <= MAX_QUEUED && w.counted == map[] && w.peak <= 1
    ensures var next := Do(Do(w, Outside(Count(0, NthKey(n)))), Outside(Insert(0)));
      AllWait(next, n + 1) && next.counted == map[] && next.peak == 1
  {
    hide InsertRow, AllWait, QueuedFrom;
    assert |QueuedFrom(w.rows, 0)| == n by { AllWaiting(w, n); }
    var once := Do(w, Outside(Count(0, NthKey(n))));
    assert once.counted == map[0 := IntakeId(NthKey(n))] && |once.counted| == 1;
    var left := once.(counted := map[]);
    assert once.counted - {0} == map[];
    assert AllWait(left, n) by { SameRowsWait(w, left, n); }
    OneMoreWaits(left, n);
  }

  lemma AllWaiting(w: World, n: nat)
    requires AllWait(w, n)
    ensures |QueuedFrom(w.rows, 0)| == n
  {
  }

  lemma SameRowsWait(w: World, next: World, n: nat)
    requires AllWait(w, n) && next.rows == w.rows
    ensures AllWait(next, n)
  {
  }

  /** Different requests that arrive one after the other all wait, up to fifty-one. */
  lemma {:induction false} ArrivalsWait(n: nat)
    requires n <= MAX_QUEUED + 1
    ensures var w := Play(Arrivals(n)); AllWait(w, n) && w.counted == map[] && w.peak <= 1
  {
    if n > 0 {
      hide Do, AllWait;
      ArrivalsWait(n - 1);
      PlayOn(Arrivals(n - 1), Outside(Count(0, NthKey(n - 1))));
      PlayOn(Arrivals(n - 1) + [Outside(Count(0, NthKey(n - 1)))], Outside(Insert(0)));
      OneArrives(Play(Arrivals(n - 1)), n - 1);
    }
  }

  /** While fifty wait, any number of callers may count. */
  lemma {:induction false} CallersCount(steps: seq<Step>, n: nat)
    requires AllWait(Play(steps), MAX_QUEUED) && Play(steps).counted == map[] && Play(steps).peak <= 1
    ensures var w := Play(steps + Counts(MAX_QUEUED, n));
      AllWait(w, MAX_QUEUED) && w.counted == Held(MAX_QUEUED, 0, n) && w.peak <= Max(1, n) && n <= w.peak
  {
    if n == 0 {
      assert steps + Counts(MAX_QUEUED, 0) == steps;
      assert Held(MAX_QUEUED, 0, 0) == map[];
    } else {
      hide AllWait;
      CallersCount(steps, n - 1);
      var step := Outside(Count(n - 1, NthKey(MAX_QUEUED + n - 1)));
      assert steps + Counts(MAX_QUEUED, n) == steps + Counts(MAX_QUEUED, n - 1) + [step];
      PlayOn(steps + Counts(MAX_QUEUED, n - 1), step);
      OneMoreCounts(Play(steps + Counts(MAX_QUEUED, n - 1)), n);
    }
  }

  lemma OneMoreCounts(w: World, n: nat)
    requires n > 0 && AllWait(w, MAX_QUEUED) && w.counted == Held(MAX_QUEUED, 0, n - 1)
    requires n - 1 <= w.peak <= Max(1, n - 1)
    ensures var next := Do(w, Outside(Count(n - 1, NthKey(MAX_QUEUED + n - 1))));
      AllWait(next, MAX_QUEUED) && next.counted == Held(MAX_QUEUED, 0, n) && n <= next.peak <= Max(1, n)
  {
    hide QueuedFrom;
    HeldIsWide(MAX_QUEUED, 0, n);
    assert Held(MAX_QUEUED, 0, n - 1)[n - 1 := IntakeId(NthKey(MAX_QUEUED + n - 1))] == Held(MAX_QUEUED, 0, n);
  }

  /** And all of them insert. */
  lemma {:induction false} CallersInsert(steps: seq<Step>, n: nat, k: nat)
    requires k <= n && AllWait(Play(steps), MAX_QUEUED) && Play(steps).counted == Held(MAX_QUEUED, 0, n)
    ensures var w := Play(steps + Inserts(k));
      AllWait(w, MAX_QUEUED + k) && w.counted == Held(MAX_QUEUED, k, n) && w.peak == Play(steps).peak
    decreases k
  {
    if k == 0 {
      assert steps + Inserts(0) == steps;
    } else {
      hide AllWait;
      CallersInsert(steps, n, k - 1);
      assert steps + Inserts(k) == steps + Inserts(k - 1) + [Outside(Insert(k - 1))];
      PlayOn(steps + Inserts(k - 1), Outside(Insert(k - 1)));
      OneMoreInserts(Play(steps + Inserts(k - 1)), n, k);
    }
  }

  lemma OneMoreInserts(w: World, n: nat, k: nat)
    requires 0 < k <= n && AllWait(w, MAX_QUEUED + k - 1) && w.counted == Held(MAX_QUEUED, k - 1, n)
    ensures var next := Do(w, Outside(Insert(k - 1)));
      AllWait(next, MAX_QUEUED + k) && next.counted == Held(MAX_QUEUED, k, n) && next.peak == w.peak
  {
    hide AllWait, InsertRow;
    var left := w.(counted := w.counted - {k - 1});
    assert left.counted == Held(MAX_QUEUED, k, n);
    SameRowsWait(w, left, MAX_QUEUED + k - 1);
    OneMoreWaits(left, MAX_QUEUED + k - 1);
  }

  /** The bound on the queue is reached: with `n` callers between counting and inserting, `n` more than
      fifty wait. Two are enough for fifty-two. */
  lemma CapIsReached(n: nat)
    requires n > 0
    ensures var w := Play(Arrivals(MAX_QUEUED) + Counts(MAX_QUEUED, n) + Inserts(n));
      |QueuedFrom(w.rows, 0)| == 50 + n && w.peak == n
  {
    hide Play;
    ArrivalsWait(MAX_QUEUED);
    CallersCount(Arrivals(MAX_QUEUED), n);
    CallersInsert(Arrivals(MAX_QUEUED) + Counts(MAX_QUEUED, n), n, n);
  }

  /** One caller after the other, the queue stops at fifty-one: the next is turned away. */
  lemma FiftyOneWait()
    ensures |QueuedFrom(Play(Arrivals(51)).rows, 0)| == 51
    ensures Play(Arrivals(52)).rows == Play(Arrivals(51)).rows
  {
    hide AllWait, QueuedFrom;
    ArrivalsWait(MAX_QUEUED + 1);
    var w, key := Play(Arrivals(MAX_QUEUED + 1)), NthKey(MAX_QUEUED + 1);
    AllWaiting(w, MAX_QUEUED + 1);
    PlayOn(Arrivals(MAX_QUEUED + 1), Outside(Count(0, key)));
    PlayOn(Arrivals(MAX_QUEUED + 1) + [Outside(Count(0, key))], Outside(Insert(0)));
  }

  /** Two failures, then one after the run was on disk, and the next pass. */
  const UNLUCKY: seq<Step> := [
    Outside(Count(0, "k")), Outside(Insert(0)),
    Sweep(1, Fails(false), []), Sweep(1, Fails(false), []), Sweep(1, FailsLate(false), []),
    Sweep(1, Creates, [])]

  function Waiting(attempts: nat, calls: seq<Call>): World {
    World([Request("tg-k", Queued, None, attempts, 0)], {}, {}, 0, map[], [], calls, 1)
  }

  lemma OneTry(w: World, outcome: Planned, meanwhile: seq<Event>)
    requires |w.rows| == 1 && w.rows[0].status == Queued && w.moving == {} && RunIdFor(w.rows[0].id) !in w.runs
    requires w.rows[0].attempts < MAX_ATTEMPTS
    ensures var called := w.(calls := w.calls + [Call(0, outcome)]);
      && 1 <= |HappenAll(called, meanwhile).rows|
      && Do(w, Sweep(1, outcome, meanwhile)) == Finish(HappenAll(called, meanwhile), 0, outcome)
  {
    hide HappenAll, RunIdFor;
    assert QueuedFrom(w.rows, 0) == [0];
    MeanwhileKeepsRows(w.(calls := w.calls + [Call(0, outcome)]), meanwhile);
  }

  lemma OneFailure(attempts: nat, calls: seq<Call>)
    requires attempts < MAX_ATTEMPTS
    ensures var failed := Do(Waiting(attempts, calls), Sweep(1, Fails(false), []));
      failed == Waiting(attempts + 1, calls + [Call(0, Fails(false))])
  {
    OneTry(Waiting(attempts, calls), Fails(false), []);
  }

  lemma GivesUp(w: World)
    requires |w.rows| == 1 && w.rows[0].status == Queued && w.rows[0].attempts >= MAX_ATTEMPTS
    ensures Do(w, Sweep(1, Creates, [])).runs == w.runs
    ensures |Do(w, Sweep(1, Creates, [])).rows| == 1 && Do(w, Sweep(1, Creates, [])).rows[0].status == Failed
    ensures Do(w, Sweep(1, Creates, [])).rows[0].id == w.rows[0].id
  {
    assert QueuedFrom(w.rows, 0) == [0];
    assert SweepList(w, [0], Creates, []) == SweepList(Intake.Settle(w, 0, Failed, None, true), [], Creates, []);
  }

  lemma PlayOne(steps: seq<Step>, n: nat)
    requires 0 < n <= |steps|
    ensures Play(steps[..n]) == Do(Play(steps[..n - 1]), steps[n - 1])
  {
    assert Front(steps[..n]) == steps[..n - 1];
  }

  /** A request is given up although its run exists. */
  lemma GivenUpWithRun()
    ensures var w := Play(UNLUCKY); |w.rows| == 1 && w.rows[0].status == Failed && HasRun(w, 0)
  {
    var w4 := Waiting(2, [Call(0, Fails(false))] + [Call(0, Fails(false))]);
    TwoFailures();
    var w5 := Do(w4, UNLUCKY[4]);
    OneTry(w4, FailsLate(false), []);
    assert RunIdFor("tg-k") in w5.runs && w5.rows[0].attempts == 3 && w5.rows[0].status == Queued
      && w5.rows[0].id == "tg-k";
    hide Do;
    PlayOne(UNLUCKY, 5);
    PlayOne(UNLUCKY, 6);
    assert UNLUCKY[..6] == UNLUCKY;
    GivesUp(w5);
  }

  lemma TwoFailures()
    ensures Play(UNLUCKY[..4]) == Waiting(2, [Call(0, Fails(false))] + [Call(0, Fails(false))])
  {
    hide Do;
    FirstArrives();
    PlayOne(UNLUCKY, 3);
    PlayOne(UNLUCKY, 4);
    OneFailure(0, []);
    OneFailure(1, [Call(0, Fails(false))]);
    assert [] + [Call(0, Fails(false))] == [Call(0, Fails(false))];
  }

  lemma FirstArrives()
    ensures Play(UNLUCKY[..2]) == Waiting(0, [])
  {
    PlayOne(UNLUCKY, 1);
    PlayOne(UNLUCKY, 2);
    assert UNLUCKY[..0] == [] && "tg-" + "k" == "tg-k";
    var counted: map<nat, string> := map[0 := "tg-k"];
    assert Play(UNLUCKY[..1]) == World([], {}, {}, 0, counted, [], [], 1);
    assert counted - {0} == map[];
  }

  /** While the planner works a person's decision sets another run moving; the pass creates its run all the
      same, and two move at once. */
  const CROWDED: seq<Step> := [Outside(Count(0, "k")), Outside(Insert(0)), Sweep(1, Creates, [Moves({"run-x"})])]

  lemma CreatedBesideAnother()
    ensures Play(CROWDED[..2]).moving == {} && Play(CROWDED).moving == {"run-x", "run-k"}
    ensures Play(CROWDED).starts == [0]
  {
    assert CROWDED[..2] == UNLUCKY[..2] && CROWDED[..3] == CROWDED;
    FirstArrives();
    PlayOne(CROWDED, 3);
    hide Play;
    OneTry(Waiting(0, []), Creates, [Moves({"run-x"})]);
    OneMoves(Waiting(0, []).(calls := [] + [Call(0, Creates)]));
    assert RunIdFor("tg-k") == "run-k";
  }

  lemma OneMoves(w: World)
    ensures HappenAll(w, [Moves({"run-x"})]) == w.(moving := {"run-x"})
  {
    assert Front([Moves({"run-x"})]) == [];
  }
}
