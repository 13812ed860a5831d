/** The sliding-window rate limiter (`api.RateLimiter`): a deque of admission times per key, trimmed from
    the left. The clock is read before the lock is taken, so the readings of one key may come in any
    order; what the limiter promises is stated for every sequence of readings. */
module Limiter {
  import opened Outcomes

  /** The times in the half-open window from `lo`, exclusive, to `hi`, inclusive. */
  function Within(times: seq<real>, lo: real, hi: real): seq<real> {
    if times == [] then []
    else Within(Front(times), lo, hi) + if lo < Last(times) <= hi then [Last(times)] else []
  }

  predicate IsSorted(times: seq<real>) {
    forall i, j | 0 <= i < j < |times| :: times[i] <= times[j]
  }

  predicate AllUpTo(times: seq<real>, now: real) {
    forall i | 0 <= i < |times| :: times[i] <= now
  }

  /** The deque without the times at its left end that have left the window. */
  function Trimmed(deque: seq<real>, cutoff: real): seq<real> {
    if deque == [] || deque[0] > cutoff then deque else Trimmed(deque[1..], cutoff)
  }

  /** The deque of one key, and all its admissions in the order they were made. */
  datatype State = State(deque: seq<real>, admitted: seq<real>)

  function Call(s: State, now: real, maximum: nat, window: real): State {
    var observed := Trimmed(s.deque, now - window);
    if |observed| < maximum then State(observed + [now], s.admitted + [now]) else State(observed, s.admitted)
  }

  /** After these readings of the clock, one for each call. */
  function After(readings: seq<real>, maximum: nat, window: real): State {
    if readings == [] then State([], [])
    else Call(After(Front(readings), maximum, window), Last(readings), maximum, window)
  }

  // --- windows over sequences ---------------------------------------------------------------

  /** A time before the window can be dropped from the left. */
  lemma {:induction false} DropFirst(times: seq<real>, lo: real, hi: real)
    requires times != [] && times[0] <= lo
    ensures Within(times, lo, hi) == Within(times[1..], lo, hi)
  {
    if |times| > 1 {
      DropFirst(Front(times), lo, hi);
      assert Front(times)[1..] == Front(times[1..]);
    } else {
      assert Front(times) == [];
    }
  }

  lemma {:induction false} DropMany(times: seq<real>, k: nat, lo: real, hi: real)
    requires k <= |times| && AllUpTo(times[..k], lo)
    ensures Within(times, lo, hi) == Within(times[k..], lo, hi)
  {
    hide Within;
    if k > 0 {
      assert times[0] == times[..k][0];
      DropFirst(times, lo, hi);
      assert times[1..][..k - 1] == times[..k][1..] && times[1..][k - 1..] == times[k..];
      DropMany(times[1..], k - 1, lo, hi);
    } else {
      assert times[0..] == times;
    }
  }

  lemma {:induction false} WithinIsShorter(times: seq<real>, lo: real, hi: real)
    ensures |Within(times, lo, hi)| <= |times|
  {
    if times != [] {
      WithinIsShorter(Front(times), lo, hi);
    }
  }

  /** Once the first time is inside, the whole sorted deque is. */
  lemma {:induction false} AllInside(times: seq<real>, lo: real, hi: real)
    requires IsSorted(times) && AllUpTo(times, hi) && (times != [] ==> lo < times[0])
    ensures Within(times, lo, hi) == times
  {
    if times != [] {
      AllInside(Front(times), lo, hi);
    }
  }

  /** Looking for a later window in an earlier one loses nothing. */
  lemma {:induction false} LaterWindow(times: seq<real>, lo: real, hi: real, lo': real, hi': real)
    requires AllUpTo(times, hi) && lo <= lo' && hi <= hi'
    ensures Within(Within(times, lo, hi), lo', hi') == Within(times, lo', hi')
  {
    if times != [] {
      LaterWindow(Front(times), lo, hi, lo', hi');
      var inner := Within(Front(times), lo, hi);
      if lo < Last(times) <= hi {
        assert Front(inner + [Last(times)]) == inner;
      } else {
        assert inner + [] == inner;
      }
    }
  }

  lemma {:induction false} WithinIsSorted(times: seq<real>, lo: real, hi: real)
    requires IsSorted(times)
    ensures IsSorted(Within(times, lo, hi))
    ensures forall t | t in Within(times, lo, hi) :: t in times && lo < t <= hi
  {
    if times != [] {
      WithinIsSorted(Front(times), lo, hi);
      var inner := Within(Front(times), lo, hi);
      assert forall t | t in Front(times) :: t in times && t <= Last(times);
      forall i | 0 <= i < |inner| ensures inner[i] <= Last(times) {
        assert inner[i] in inner;
      }
    }
  }

  // --- any readings -------------------------------------------------------------------------

  /** Trimming takes off a beginning of the deque, all of it old. */
  lemma {:induction false} TrimTakesOff(deque: seq<real>, cutoff: real) returns (k: nat)
    ensures k <= |deque| && Trimmed(deque, cutoff) == deque[k..] && AllUpTo(deque[..k], cutoff)
  {
    if deque == [] || deque[0] > cutoff {
      k := 0;
    } else {
      k := TrimTakesOff(deque[1..], cutoff);
      assert deque[1..][k..] == deque[k + 1..];
      assert deque[..k + 1] == [deque[0]] + deque[1..][..k];
      k := k + 1;
    }
  }

  /** A reading says that this admission has left the window. */
  predicate HasLeft(t: real, readings: seq<real>, window: real) {
    exists r :: r in readings && t <= r - window
  }

  ghost predicate Remembers(s: State, readings: seq<real>, window: real, k: nat) {
    k <= |s.admitted| && s.deque == s.admitted[k..] && forall i | 0 <= i < k :: HasLeft(s.admitted[i], readings, window)
  }

  /** The same of the deque as a call with this reading finds it after trimming. */
  ghost predicate Finds(s: State, readings: seq<real>, window: real, j: nat)
    requires readings != []
  {
    && j <= |s.admitted| && Trimmed(s.deque, Last(readings) - window) == s.admitted[j..]
    && forall i | 0 <= i < j :: HasLeft(s.admitted[i], readings, window)
  }

  lemma TrimFinds(s: State, readings: seq<real>, window: real, k: nat) returns (j: nat)
    requires readings != [] && Remembers(s, Front(readings), window, k)
    ensures Finds(s, readings, window, j)
  {
    var off := TrimTakesOff(s.deque, Last(readings) - window);
    j := k + off;
    assert s.deque[off..] == s.admitted[j..];
    forall i | 0 <= i < j ensures HasLeft(s.admitted[i], readings, window) {
      if i < k {
        assert HasLeft(s.admitted[i], Front(readings), window);
        var r :| r in Front(readings) && s.admitted[i] <= r - window;
        assert r in readings;
      } else {
        assert s.admitted[i] == s.deque[..off][i - k] && Last(readings) in readings;
      }
    }
  }

  /** The deque is the end of the admissions, and only what some reading saw leave is missing from it. */
  lemma {:induction false} DequeRemembers(readings: seq<real>, maximum: nat, window: real) returns (k: nat)
    ensures Remembers(After(readings, maximum, window), readings, window, k)
    ensures readings != [] ==> Finds(After(Front(readings), maximum, window), readings, window, k)
  {
    k := 0;
    if readings != [] {
      hide HasLeft;
      var s, now := After(Front(readings), maximum, window), Last(readings);
      var earlier := DequeRemembers(Front(readings), maximum, window);
      k := TrimFinds(s, readings, window, earlier);
      assert (s.admitted + [now])[k..] == s.admitted[k..] + [now];
    }
  }

  /** No reading is more than `skew` behind an earlier one. */
  predicate IsSkewed(readings: seq<real>, skew: real) {
    forall i, j | 0 <= i < j < |readings| :: readings[i] - skew <= readings[j]
  }

  /** Whatever the readings: if none is more than `skew` behind an earlier one, no half-open window that is
      shorter than the configured one by the skew, wherever it lies, ever holds more than `maximum`
      admissions. Readings in order have no skew, and then it is the configured window itself. */
  lemma {:induction false} NoWindowOverflows(readings: seq<real>, maximum: nat, window: real, skew: real, start: real)
    requires IsSkewed(readings, skew) && skew >= 0.0
    ensures |Within(After(readings, maximum, window).admitted, start, start + window - skew)| <= maximum
  {
    hide Within, Call, IsSkewed;
    NothingWithin(start, start + window - skew);
    if readings != [] {
      assert IsSkewed(Front(readings), skew) by { FrontIsSkewed(readings, skew); }
      NoWindowOverflows(Front(readings), maximum, window, skew, start);
      var s, now := After(Front(readings), maximum, window), Last(readings);
      if now <= start + window - skew {
        FewBefore(readings, maximum, window, skew, start);
      }
      CallAddsOne(s, now, maximum, window, start, start + window - skew);
    }
  }

  lemma FrontIsSkewed(readings: seq<real>, skew: real)
    requires readings != [] && IsSkewed(readings, skew)
    ensures IsSkewed(Front(readings), skew)
  {
  }

  lemma NothingWithin(lo: real, hi: real)
    ensures Within([], lo, hi) == [] && Trimmed([], lo) == []
  {
  }

  lemma WithinAdds(times: seq<real>, t: real, lo: real, hi: real)
    ensures Within(times + [t], lo, hi) == Within(times, lo, hi) + if lo < t <= hi then [t] else []
  {
    assert Front(times + [t]) == times;
  }

  /** A call adds to a window only while its trimmed deque is short. */
  lemma CallAddsOne(s: State, now: real, maximum: nat, window: real, lo: real, hi: real)
    requires |Within(s.admitted, lo, hi)| <= maximum
    requires now <= hi ==> |Within(s.admitted, lo, hi)| <= |Trimmed(s.deque, now - window)|
    ensures |Within(Call(s, now, maximum, window).admitted, lo, hi)| <= maximum
  {
    hide Within, Trimmed;
    WithinAdds(s.admitted, now, lo, hi);
  }

  lemma FewBefore(readings: seq<real>, maximum: nat, window: real, skew: real, start: real)
    requires readings != [] && IsSkewed(readings, skew) && skew >= 0.0 && Last(readings) <= start + window - skew
    ensures var s := After(Front(readings), maximum, window);
      |Within(s.admitted, start, start + window - skew)| <= |Trimmed(s.deque, Last(readings) - window)|
  {
    var s := After(Front(readings), maximum, window);
    var j := DequeRemembers(readings, maximum, window);
    forall i | 0 <= i < |s.admitted[..j]| ensures s.admitted[..j][i] <= start {
      assert HasLeft(s.admitted[i], readings, window);
      var r :| r in readings && s.admitted[i] <= r - window;
      NotFarBehind(readings, skew, r);
    }
    DropMany(s.admitted, j, start, start + window - skew);
    WithinIsShorter(s.admitted[j..], start, start + window - skew);
  }

  lemma NotFarBehind(readings: seq<real>, skew: real, r: real)
    requires readings != [] && IsSkewed(readings, skew) && skew >= 0.0 && r in readings
    ensures r <= Last(readings) + skew
  {
    var i :| 0 <= i < |readings| && readings[i] == r;
  }

  /** The skew is not idle: with two admissions a minute, readings 50, 51, 115 and then 100 are all admitted,
      and three of them lie in one minute. */
  lemma LateReadingOverflows()
    ensures var admitted := After([50.0, 51.0, 115.0, 100.0], 2, 60.0).admitted;
      admitted == [50.0, 51.0, 115.0, 100.0] && |Within(admitted, 41.0, 101.0)| == 3
  {
    var r1, r2, r3 := [50.0], [50.0, 51.0], [50.0, 51.0, 115.0];
    assert [] + [50.0] == r1 && r1 + [51.0] == r2 && r2 + [115.0] == r3 && r3 + [100.0] == [50.0, 51.0, 115.0, 100.0];
    CallsOne([], 50.0);
    CallsOne(r1, 51.0);
    CallsOne(r2, 115.0);
    CallsOne(r3, 100.0);
    hide After, Within, Call, Trimmed;
    NothingWithin(41.0, 101.0);
    FirstCalls();
    LaterCalls();
  }

  lemma CallsOne(readings: seq<real>, now: real)
    ensures After(readings + [now], 2, 60.0) == Call(After(readings, 2, 60.0), now, 2, 60.0)
    ensures var more := if 41.0 < now <= 101.0 then [now] else [];
      Within(readings + [now], 41.0, 101.0) == Within(readings, 41.0, 101.0) + more
  {
    assert Front(readings + [now]) == readings;
  }

  lemma FirstCalls()
    ensures After([], 2, 60.0) == State([], [])
    ensures Call(State([], []), 50.0, 2, 60.0) == State([50.0], [50.0])
    ensures Call(State([50.0], [50.0]), 51.0, 2, 60.0) == State([50.0, 51.0], [50.0, 51.0])
  {
  }

  lemma LaterCalls()
    ensures Call(State([50.0, 51.0], [50.0, 51.0]), 115.0, 2, 60.0) == State([115.0], [50.0, 51.0, 115.0])
    ensures var s := State([115.0], [50.0, 51.0, 115.0]);
      Call(s, 100.0, 2, 60.0) == State([115.0, 100.0], [50.0, 51.0, 115.0, 100.0])
  {
    assert [50.0, 51.0][1..] == [51.0] && [51.0][1..] == [];
    assert Trimmed([51.0], 55.0) == [] && Trimmed([50.0, 51.0], 55.0) == [];
  }

  // --- exactly how long a window is safe ----------------------------------------------------

  /** The window of this length that begins here holds no more than the maximum. */
  predicate Fits(readings: seq<real>, maximum: nat, window: real, start: real, len: real) {
    |Within(After(readings, maximum, window).admitted, start, start + len)| <= maximum
  }

  /** No readings with this skew overfill any window of this length. */
  ghost predicate IsSafe(maximum: nat, window: real, skew: real, len: real) {
    forall readings, start | IsSkewed(readings, skew) :: Fits(readings, maximum, window, start, len)
  }

  /** The exact law. With a maximum of two or more, the windows that are never overfilled are exactly those
      shorter than the configured one by the skew of the readings; with a maximum of one the skew does not
      matter, and with none nothing is admitted at all. */
  lemma SafeLengths(maximum: nat, window: real, skew: real, len: real)
    requires window > 0.0 && skew >= 0.0 && len > 0.0
    ensures maximum >= 2 ==> (IsSafe(maximum, window, skew, len) <==> len <= window - skew)
    ensures maximum == 1 ==> (IsSafe(maximum, window, skew, len) <==> len <= window)
    ensures maximum == 0 ==> IsSafe(maximum, window, skew, len)
  {
    hide Fits, IsSkewed;
    if maximum >= 2 && len > window - skew {
      LateOverfills(maximum, window, skew, len);
    } else if maximum == 1 && len > window {
      TwoApart(window, skew, len);
    }
    forall readings, start | IsSkewed(readings, skew) && len <= SafeLength(maximum, window, skew, len)
      ensures Fits(readings, maximum, window, start, len)
    {
      ShortFits(readings, maximum, window, skew, start, len);
    }
  }

  function SafeLength(maximum: nat, window: real, skew: real, len: real): real {
    if maximum >= 2 then window - skew else if maximum == 1 then window else len
  }

  lemma ShortFits(readings: seq<real>, maximum: nat, window: real, skew: real, start: real, len: real)
    requires IsSkewed(readings, skew) && skew >= 0.0 && window > 0.0 && len <= SafeLength(maximum, window, skew, len)
    ensures Fits(readings, maximum, window, start, len)
  {
    hide After, Within, IsSkewed;
    var admitted := After(readings, maximum, window).admitted;
    if maximum >= 2 {
      NoWindowOverflows(readings, maximum, window, skew, start);
      Wider(admitted, start, start + len, start + window - skew);
    } else if maximum == 1 {
      OneIsSpaced(readings, window, start);
      Wider(admitted, start, start + len, start + window);
    } else {
      NoneAdmitted(readings, window);
      NothingWithin(start, start + len);
    }
  }

  lemma {:induction false} Wider(times: seq<real>, lo: real, hi: real, hi': real)
    requires hi <= hi'
    ensures |Within(times, lo, hi)| <= |Within(times, lo, hi')|
  {
    if times != [] {
      Wider(Front(times), lo, hi, hi');
    }
  }

  lemma {:induction false} NoneAdmitted(readings: seq<real>, window: real)
    ensures After(readings, 0, window) == State([], [])
  {
    if readings != [] {
      NoneAdmitted(Front(readings), window);
    }
  }

  /** With a maximum of one the deque is the last admission, and the next comes a whole window later. */
  ghost predicate IsLone(s: State) {
    && (if s.admitted == [] then s.deque == [] else s.deque == [Last(s.admitted)])
    && (s.admitted != [] ==> AllUpTo(s.admitted, Last(s.admitted)))
  }

  lemma {:induction false} OneIsSpaced(readings: seq<real>, window: real, start: real)
    requires window > 0.0
    ensures IsLone(After(readings, 1, window))
    ensures |Within(After(readings, 1, window).admitted, start, start + window)| <= 1
  {
    NothingWithin(start, start + window);
    if readings != [] {
      OneIsSpaced(Front(readings), window, start);
      OneMoreIsSpaced(After(Front(readings), 1, window), Last(readings), window, start);
    }
  }

  lemma OneMoreIsSpaced(s: State, now: real, window: real, start: real)
    requires window > 0.0 && IsLone(s) && |Within(s.admitted, start, start + window)| <= 1
    ensures IsLone(Call(s, now, 1, window)) && |Within(Call(s, now, 1, window).admitted, start, start + window)| <= 1
  {
    hide Within, Trimmed;
    WithinAdds(s.admitted, now, start, start + window);
    NothingWithin(now - window, now);
    NothingWithin(start, start + window);
    if s.admitted != [] {
      TrimOne(Last(s.admitted), now - window);
      if Last(s.admitted) <= start {
        NoneLater(s.admitted, start, start + window);
      }
    }
  }

  lemma TrimOne(t: real, cutoff: real)
    ensures Trimmed([t], cutoff) == if t <= cutoff then [] else [t]
  {
    assert [t][1..] == [];
  }

  lemma NoneLater(times: seq<real>, lo: real, hi: real)
    requires AllUpTo(times, lo)
    ensures Within(times, lo, hi) == []
  {
    assert times[..|times|] == times && times[|times|..] == [];
    DropMany(times, |times|, lo, hi);
    NothingWithin(lo, hi);
  }

  // --- the windows that are overfilled ------------------------------------------------------

  function Zeros(n: nat): (times: seq<real>)
    ensures |times| == n
  {
    if n == 0 then [] else Zeros(n - 1) + [0.0]
  }

  lemma {:induction false} ZerosAre(n: nat, lo: real, hi: real)
    requires lo < 0.0 <= hi
    ensures |Within(Zeros(n), lo, hi)| == n && forall i | 0 <= i < n :: Zeros(n)[i] == 0.0
  {
    if n > 0 {
      ZerosAre(n - 1, lo, hi);
      assert Front(Zeros(n)) == Zeros(n - 1);
    }
  }

  /** Calls at one moment are admitted up to the maximum. */
  lemma {:induction false} ZerosAdmitted(n: nat, maximum: nat, window: real)
    requires n <= maximum && window > 0.0
    ensures After(Zeros(n), maximum, window) == State(Zeros(n), Zeros(n))
  {
    if n > 0 {
      ZerosAdmitted(n - 1, maximum, window);
      ZerosAre(n - 1, -1.0, 0.0);
      assert Front(Zeros(n)) == Zeros(n - 1);
    }
  }

  lemma {:induction false} AllLeave(deque: seq<real>, cutoff: real)
    requires AllUpTo(deque, cutoff)
    ensures Trimmed(deque, cutoff) == []
    decreases |deque|
  {
    if deque != [] {
      AllLeave(deque[1..], cutoff);
    }
  }

  /** As many calls as the maximum at moment zero, one a window later, and then a late one. */
  function LateReadings(maximum: nat, window: real, late: real): seq<real> {
    Zeros(maximum) + [window] + [late]
  }

  lemma AfterOne(readings: seq<real>, now: real, maximum: nat, window: real)
    ensures After(readings + [now], maximum, window) == Call(After(readings, maximum, window), now, maximum, window)
  {
    assert Front(readings + [now]) == readings;
  }

  lemma LateIsAdmitted(maximum: nat, window: real, late: real)
    requires maximum >= 2 && window > 0.0 && late <= window
    ensures After(LateReadings(maximum, window, late), maximum, window).admitted == LateReadings(maximum, window, late)
  {
    hide After, Zeros, Trimmed, Within;
    var zeros := Zeros(maximum);
    ZerosAdmitted(maximum, maximum, window);
    ZerosAre(maximum, -1.0, 0.0);
    AllLeave(zeros, 0.0);
    AfterOne(zeros, window, maximum, window);
    assert Call(State(zeros, zeros), window, maximum, window) == State([window], zeros + [window]) by {
      assert window - window == 0.0 && [] + [window] == [window];
    }
    AfterOne(zeros + [window], late, maximum, window);
    TrimOne(window, late - window);
  }

  lemma LateIsSkewed(maximum: nat, window: real, skew: real, late: real)
    requires window > 0.0 && skew >= 0.0 && late == if skew <= window then window - skew else 0.0
    ensures IsSkewed(LateReadings(maximum, window, late), skew)
  {
    ZerosAre(maximum, -1.0, 0.0);
  }

  lemma LateOverfills(maximum: nat, window: real, skew: real, len: real)
    requires maximum >= 2 && window > 0.0 && skew >= 0.0 && len > 0.0 && len > window - skew
    ensures !IsSafe(maximum, window, skew, len)
  {
    hide After, Zeros, Within, IsSkewed;
    var late := if skew <= window then window - skew else 0.0;
    var readings, start := LateReadings(maximum, window, late), late - len;
    LateIsAdmitted(maximum, window, late);
    LateIsSkewed(maximum, window, skew, late);
    assert start + len == late;
    ZerosAre(maximum, start, late);
    WithinAdds(Zeros(maximum), window, start, late);
    WithinAdds(Zeros(maximum) + [window], late, start, late);
    assert !Fits(readings, maximum, window, start, len);
  }

  lemma TwoApart(window: real, skew: real, len: real)
    requires window > 0.0 && skew >= 0.0 && len > window
    ensures !IsSafe(1, window, skew, len)
  {
    var start := window - len;
    assert start + len == window;
    assert Front([0.0, window]) == [0.0] && Front([0.0]) == [];
    assert After([0.0], 1, window) == State([0.0], [0.0]);
    assert [0.0][1..] == [] && [0.0] + [window] == [0.0, window];
    assert After([0.0, window], 1, window) == State([window], [0.0, window]);
    WithinAdds([], 0.0, start, window);
    WithinAdds([0.0], window, start, window);
    assert [] + [0.0] == [0.0];
    assert IsSkewed([0.0, window], skew);
    assert !Fits([0.0, window], 1, window, start, len);
  }

  // --- readings in order --------------------------------------------------------------------

  lemma {:induction false} AdmittedInOrder(readings: seq<real>, maximum: nat, window: real)
    requires IsSorted(readings)
    ensures IsSorted(After(readings, maximum, window).admitted)
    ensures readings != [] ==> AllUpTo(After(readings, maximum, window).admitted, Last(readings))
  {
    if readings != [] {
      AdmittedInOrder(Front(readings), maximum, window);
      var s := After(Front(readings), maximum, window);
      assert |readings| > 1 ==> Last(Front(readings)) <= Last(readings);
      assert |readings| == 1 ==> Front(readings) == [] && s.admitted == [];
    }
  }

  /** For calls in order of time the deque is exactly the admissions of the last window, and a call is
      refused exactly when that window already holds `maximum`. */
  lemma {:induction false} DequeIsTheWindow(readings: seq<real>, maximum: nat, window: real)
    requires readings != [] && IsSorted(readings) && window > 0.0
    ensures var before, s := After(Front(readings), maximum, window), After(readings, maximum, window);
      var now := Last(readings);
      && s.deque == Within(s.admitted, now - window, now)
      && (s.admitted == before.admitted + [now] <==> |Within(before.admitted, now - window, now)| < maximum)
      && (s.admitted == before.admitted <==> |Within(before.admitted, now - window, now)| == maximum)
  {
    hide Within, IsSorted, AllUpTo, Call;
    var front, now := Front(readings), Last(readings);
    var before := After(front, maximum, window);
    FrontIsSorted(readings);
    AdmittedInOrder(front, maximum, window);
    if front != [] {
      DequeIsTheWindow(front, maximum, window);
      TrimLater(before, Last(front), now, window);
    } else {
      NothingWithin(now - window, now);
    }
    NoWindowOverflows(front, maximum, window, 0.0, now - window);
    assert now - window + window - 0.0 == now;
    CallInOrder(before, now, maximum, window);
  }

  lemma CallInOrder(s: State, now: real, maximum: nat, window: real)
    requires Trimmed(s.deque, now - window) == Within(s.admitted, now - window, now) && window > 0.0
    requires |Within(s.admitted, now - window, now)| <= maximum
    ensures var next := Call(s, now, maximum, window);
      && next.deque == Within(next.admitted, now - window, now)
      && (next.admitted == s.admitted + [now] <==> |Within(s.admitted, now - window, now)| < maximum)
      && (next.admitted == s.admitted <==> |Within(s.admitted, now - window, now)| == maximum)
  {
    hide Within, Trimmed;
    WithinAdds(s.admitted, now, now - window, now);
  }

  lemma FrontIsSorted(readings: seq<real>)
    requires readings != [] && IsSorted(readings)
    ensures IsSorted(Front(readings)) && IsSkewed(Front(readings), 0.0)
    ensures |readings| > 1 ==> Last(Front(readings)) <= Last(readings)
  {
  }

  /** The deque of the last window, trimmed later, is the later window. */
  lemma TrimLater(s: State, then': real, now: real, window: real)
    requires IsSorted(s.admitted) && AllUpTo(s.admitted, then') && then' <= now
    requires s.deque == Within(s.admitted, then' - window, then')
    ensures Trimmed(s.deque, now - window) == Within(s.admitted, now - window, now)
  {
    hide Within, Trimmed;
    LaterWindow(s.admitted, then' - window, then', now - window, now);
    WithinIsSorted(s.admitted, then' - window, then');
    assert forall i | 0 <= i < |s.deque| :: s.deque[i] in s.deque;
    TrimIsWindow(s.deque, now, window);
  }

  lemma {:induction false} TrimIsWindow(deque: seq<real>, now: real, window: real)
    requires IsSorted(deque) && AllUpTo(deque, now)
    ensures Trimmed(deque, now - window) == Within(deque, now - window, now)
    decreases |deque|
  {
    hide Within;
    if deque != [] && deque[0] <= now - window {
      DropFirst(deque, now - window, now);
      TrimIsWindow(deque[1..], now, window);
    } else {
      AllInside(deque, now - window, now);
    }
  }

  // --- the limiter --------------------------------------------------------------------------

  class RateLimiter {
    const maximum: nat
    const window: real
    var items: map<string, seq<real>>
    ghost var asked: map<string, seq<real>>

    /** The clock readings of all calls for a key so far. */
    ghost function Readings(key: string): seq<real>
      reads this
    {
      if key in asked then asked[key] else []
    }

    function Deque(key: string): seq<real>
      reads this
    {
      if key in items then items[key] else []
    }

    ghost predicate Valid()
      reads this
    {
      forall key :: Deque(key) == After(Readings(key), maximum, window).deque
    }

    constructor (maximum: nat, window: real)
      ensures Valid() && this.maximum == maximum && this.window == window
      ensures forall key :: Readings(key) == []
    {
      this.maximum, this.window := maximum, window;
      items, asked := map[], map[];
    }

    /** A call is admitted exactly when it joins the admissions. */
    method Allow(key: string, now: real) returns (ok: bool)
      requires Valid()
      modifies this
      ensures Valid() && Readings(key) == old(Readings(key)) + [now]
      ensures After(Readings(key), maximum, window).admitted ==
        After(old(Readings(key)), maximum, window).admitted + if ok then [now] else []
      ensures forall other | other != key ::
        Readings(other) == old(Readings(other)) && Deque(other) == old(Deque(other))
    {
      hide After, Trimmed;
      ghost var readings := Readings(key);
      AfterOne(readings, now, maximum, window);
      var observed := Trim(Deque(key), now);
      ok := |observed| < maximum;
      if ok {
        observed := observed + [now];
      }
      items, asked := items[key := observed], asked[key := readings + [now]];
      forall other ensures Deque(other) == After(Readings(other), maximum, window).deque {
        if other != key {
          assert old(Deque(other)) == old(After(Readings(other), maximum, window).deque);
        }
      }
    }

    /** The loop: while the oldest time has left the window, pop it. */
    method Trim(deque: seq<real>, now: real) returns (observed: seq<real>)
      ensures observed == Trimmed(deque, now - window)
    {
      observed := deque;
      while observed != [] && observed[0] <= now - window
        invariant Trimmed(observed, now - window) == Trimmed(deque, now - window)
        decreases |observed|
      {
        observed := observed[1..];
      }
    }
  }
}
