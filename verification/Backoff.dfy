/** The pending_verify probe schedule (internal/lifecyclejobs/backoff.go).
    Instants and durations are integer nanoseconds since Go's zero time. */
module Backoff {

  type Time = int

  const ZERO_TIME: Time := 0
  const SECOND: int := 1_000_000_000
  const MINUTE: int := 60 * SECOND
  const HOUR: int := 60 * MINUTE
  const DAY: int := 24 * HOUR

  const VERIFY_BACKOFF: seq<int> := [
    10 * SECOND, 30 * SECOND, 60 * SECOND, 5 * MINUTE,
    30 * MINUTE, 60 * MINUTE, 3 * HOUR, 6 * HOUR
  ]

  function NextVerifyDelay(attempt: int): (d: int)
    ensures 10 * SECOND <= d <= 6 * HOUR
  {
    var a := if attempt < 1 then 1 else attempt;
    if a > |VERIFY_BACKOFF| then VERIFY_BACKOFF[|VERIFY_BACKOFF| - 1]
    else VERIFY_BACKOFF[a - 1]
  }

  /** When the next probe runs, and whether it is pinned to the deadline. */
  function NextVerifyAt(now: Time, attempt: int, timeoutAt: Time): (r: (Time, bool))
    ensures r.0 <= timeoutAt
    ensures r.1 <==> r.0 == timeoutAt
    ensures now < timeoutAt ==> now < r.0
  {
    var next := now + NextVerifyDelay(attempt);
    if next >= timeoutAt then (timeoutAt, true) else (next, false)
  }

  /** A miss before the deadline never finds its next probe in the past: the guard
      "last and not after now" of the worker is unreachable. */
  lemma MissAlwaysReschedules(now: Time, attempt: int, timeoutAt: Time)
    requires now < timeoutAt
    ensures var (next, last) := NextVerifyAt(now, attempt, timeoutAt);
            now < next <= timeoutAt && !(last && next <= now)
  {
  }

  /** Least time from the creation of a job to its n-th probe. */
  function Elapsed(n: nat): (d: int)
    requires n >= 1
    ensures d >= 0
  {
    if n == 1 then 0 else Elapsed(n - 1) + NextVerifyDelay(n - 1)
  }

  lemma {:induction false} ElapsedGrows(m: nat, n: nat)
    requires 1 <= m <= n
    ensures Elapsed(n) >= Elapsed(m) + (n - m) * 10 * SECOND
    decreases n - m
  {
    if m < n {
      ElapsedGrows(m, n - 1);
    }
  }

  /** The probe times of a job whose misses are all recorded on time, in seconds since its
      creation: the steps between them grow up to six hours, and stay there. */
  lemma ProbeTimes(n: nat)
    requires n >= 1
    ensures Elapsed(1) == 0 && Elapsed(2) == 10 * SECOND && Elapsed(3) == 40 * SECOND && Elapsed(4) == 100 * SECOND
    ensures Elapsed(5) == 400 * SECOND && Elapsed(6) == 2200 * SECOND && Elapsed(7) == 5800 * SECOND
    ensures Elapsed(8) == 16600 * SECOND
    ensures n >= 8 ==> Elapsed(n + 1) == Elapsed(n) + 6 * HOUR
    ensures Elapsed(n + 1) - Elapsed(n) <= Elapsed(n + 2) - Elapsed(n + 1)
  {
    assert Elapsed(n + 2) == Elapsed(n + 1) + NextVerifyDelay(n + 1);
    assert Elapsed(n + 1) == Elapsed(n) + NextVerifyDelay(n);
    assert n <= 8 || NextVerifyDelay(n) == 6 * HOUR;
  }

  /** The probe budget of the default 24 hour window is exactly eleven. */
  lemma {:induction false} ElevenProbesPerDay(n: nat)
    requires n >= 1
    ensures Elapsed(n) < DAY <==> n <= 11
  {
    assert Elapsed(4) == 100 * SECOND;
    assert Elapsed(7) == 5800 * SECOND;
    assert Elapsed(9) == 38200 * SECOND;
    assert Elapsed(11) == 81400 * SECOND;
    assert Elapsed(12) == 103000 * SECOND;
    if n <= 11 {
      ElapsedGrows(n, 11);
    } else {
      ElapsedGrows(12, n);
    }
  }

  /** Attempt counter and next probe time after n misses, each probe run on time. */
  function PunctualProbe(created: Time, timeoutAt: Time, n: nat): (next: Time)
  {
    if n == 0 then created
    else NextVerifyAt(PunctualProbe(created, timeoutAt, n - 1), n, timeoutAt).0
  }

  /** The budget is attained: run on time, the n-th probe of a window falls exactly
      Elapsed(n) after creation as long as that is before the deadline. */
  lemma {:induction false} PunctualProbeTime(created: Time, timeoutAt: Time, n: nat)
    requires Elapsed(n + 1) < timeoutAt - created
    ensures PunctualProbe(created, timeoutAt, n) == created + Elapsed(n + 1)
  {
    if n > 0 {
      ElapsedGrows(n, n + 1);
      PunctualProbeTime(created, timeoutAt, n - 1);
    }
  }
}
