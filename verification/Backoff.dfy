/** Retry deadlines: `retry_delay`, `replenishment_allowed` and `record_failure`. */
module Backoff {
  import opened Basics
  import opened States

  const MAX_RETRY_SECONDS := 600
  const U32_MAX := 0xFFFF_FFFF
  const U64_MAX := 0xFFFF_FFFF_FFFF_FFFF

  function SaturatingAdd(a: nat, b: nat): nat {
    Min(a + b, U64_MAX)
  }

  function Doubled(n: nat, times: nat): (r: nat)
    ensures r >= n
    decreases times
  {
    if times == 0 then n else Doubled(2 * n, times - 1)
  }

  function RetryDelay(failures: nat, jitter: nat): nat {
    var base := Min(Doubled(5, Min(failures, 7)), MAX_RETRY_SECONDS);
    Min(base + Min(jitter, 6), MAX_RETRY_SECONDS)
  }

  predicate ReplenishmentAllowed(retryAt: nat, at: nat) {
    retryAt <= at
  }

  lemma DelayTable(failures: nat)
    ensures Doubled(5, Min(failures, 7)) == [5, 10, 20, 40, 80, 160, 320, 640][Min(failures, 7)]
  {
    var k := Min(failures, 7);
    assert Doubled(5, 0) == 5 && Doubled(5, 1) == 10 && Doubled(5, 2) == 20 && Doubled(5, 3) == 40;
    assert Doubled(5, 4) == Doubled(40, 1) == 80 && Doubled(5, 5) == Doubled(40, 2) == 160;
    assert Doubled(5, 6) == Doubled(40, 3) == 320;
    assert Doubled(5, 7) == Doubled(10, 6) == Doubled(20, 5) == Doubled(40, 4) == Doubled(80, 3) == 640;
  }

  /** What `retry_delay` comes to. */
  lemma DelayIs(failures: nat, jitter: nat)
    ensures RetryDelay(failures, jitter) ==
              if failures >= 7 then 600
              else Min([5, 10, 20, 40, 80, 160, 320][failures] + if jitter < 6 then jitter else 6, 600)
  {
    DelayTable(failures);
  }

  /** From the first failure on, every delay is within 10..600 and no later one is shorter, whatever the jitter. */
  lemma DelayIsBoundedAndGrows(failures: nat, jitter: nat, more: nat, other: nat)
    requires 0 < failures < more
    ensures 10 <= RetryDelay(failures, jitter) <= RetryDelay(more, other) <= MAX_RETRY_SECONDS
  {
    DelayTable(failures);
    DelayTable(more);
  }

  /** `record_failure` on the pool's entry. */
  function RecordFailure(ps: PoolState, at: nat, jitter: nat, scope: RetryScope): PoolState {
    if ps.retryAt > at && ps.retryScope == scope then ps
    else
      var failures := Min(ps.failures + 1, U32_MAX);
      ps.(failures := failures, retryAt := SaturatingAdd(at, RetryDelay(failures, jitter)), retryScope := scope,
          error := true)
  }

  datatype Failure = Failure(at: nat, jitter: nat, scope: RetryScope)

  ghost predicate ClockRuns(clock: nat, failures: seq<Failure>) {
    forall i :: 0 <= i < |failures| ==> clock <= failures[i].at && forall j :: i <= j < |failures| ==>
        failures[i].at <= failures[j].at
  }

  function AfterFailures(ps: PoolState, failures: seq<Failure>): PoolState
    decreases |failures|
  {
    if failures == [] then ps
    else AfterFailures(RecordFailure(ps, failures[0].at, failures[0].jitter, failures[0].scope), failures[1..])
  }

  /** The pending deadline is no later than a failure at `clock` or after could set it. */
  predicate Safe(ps: PoolState, clock: nat) {
    ps.failures <= U32_MAX && ps.retryAt <= SaturatingAdd(clock, RetryDelay(Min(ps.failures + 1, U32_MAX), 0))
  }

  function OtherScope(scope: RetryScope): RetryScope {
    if scope == Observation then Provisioning else Observation
  }

  /** Exactly then no failure from `clock` on moves the deadline earlier, whatever its time, jitter and scope. */
  lemma ExactlySafeDeadlinesStay(ps: PoolState, clock: nat)
    requires ps.failures <= U32_MAX && ps.retryAt <= U64_MAX
    ensures (forall f: Failure :: clock <= f.at ==>
        ps.retryAt <= RecordFailure(ps, f.at, f.jitter, f.scope).retryAt) <==> Safe(ps, clock)
  {
    if Safe(ps, clock) {
      forall f: Failure | clock <= f.at ensures ps.retryAt <= RecordFailure(ps, f.at, f.jitter, f.scope).retryAt {
        OneFailureMovesForward(ps, clock, f);
      }
    } else {
      var f := Failure(clock, 0, OtherScope(ps.retryScope));
      assert RecordFailure(ps, f.at, f.jitter, f.scope).retryAt < ps.retryAt;
    }
  }

  lemma OneFailureMovesForward(ps: PoolState, clock: nat, f: Failure)
    requires Safe(ps, clock) && clock <= f.at
    ensures var after := RecordFailure(ps, f.at, f.jitter, f.scope);
            Safe(after, f.at) && ps.retryAt <= after.retryAt && ps.failures <= after.failures
  {
    DelayTable(ps.failures);
    DelayTable(Min(ps.failures + 1, U32_MAX));
    DelayTable(Min(Min(ps.failures + 1, U32_MAX) + 1, U32_MAX));
  }

  /** With a clock that never steps back and no reset of the counter, no sequence of failures in any
      mixture of scopes ever moves the deadline earlier. */
  lemma {:induction false} DeadlineNeverMovesEarlier(ps: PoolState, clock: nat, failures: seq<Failure>)
    requires Safe(ps, clock) && ClockRuns(clock, failures)
    ensures ps.retryAt <= AfterFailures(ps, failures).retryAt
    decreases |failures|
  {
    if failures != [] {
      var f := failures[0];
      OneFailureMovesForward(ps, clock, f);
      var rest := failures[1..];
      forall i | 0 <= i < |rest|
        ensures f.at <= rest[i].at && forall j :: i <= j < |rest| ==> rest[i].at <= rest[j].at
      {
        assert rest[i] == failures[i + 1];
        assert forall j :: i <= j < |rest| ==> rest[j] == failures[j + 1];
      }
      DeadlineNeverMovesEarlier(RecordFailure(ps, f.at, f.jitter, f.scope), f.at, rest);
    }
  }

  /** A completed job resets the counter but not the deadline: the pool stays safe exactly if no more than ten
      seconds are left to wait. */
  lemma ResetIsSafeWhenShort(ps: PoolState, clock: nat)
    ensures Safe(ps.(failures := 0), clock) <==> ps.retryAt <= SaturatingAdd(clock, 10)
  {
    DelayTable(1);
  }
}
