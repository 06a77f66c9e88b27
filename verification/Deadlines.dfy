/** The retry deadlines of the pools, in every history. */
module Deadlines {
  import opened Basics
  import opened Config
  import opened States
  import opened Retiring
  import opened Requests
  import opened Backoff
  import opened Worlds
  import opened Protocol
  import opened Invariants
  import opened Histories
  import opened Records

  /** The latest time at which a pass has ended, from `clock` at step `i` on. */
  function ClockAt(h: seq<Entry>, i: nat, j: nat, clock: nat): nat
    requires i <= j < |h|
    decreases j
  {
    if i == j then clock
    else if h[j].did.EndPass? then h[j].did.at
    else ClockAt(h, i, j - 1, clock)
  }

  /** No pass ends before an earlier one. */
  ghost predicate TimeRuns(h: seq<Entry>, i: nat, j: nat, clock: nat)
    requires i <= j < |h|
  {
    forall k {:trigger h[k]} :: i < k <= j && h[k].did.EndPass? ==> ClockAt(h, i, k - 1, clock) <= h[k].did.at
  }

  /** The step to `k` drops a run of the pool that has finished a job. */
  ghost predicate JobFinishedAt(h: seq<Entry>, k: nat, name: string) {
    0 < k < |h| && h[k].did.Drop? && h[k].did.completed && h[k - 1].sys.pass.Some?
        && h[k - 1].sys.pass.value.name == name
  }

  ghost predicate SafeIn(st: State, name: string, clock: nat) {
    name in st.pools ==> Safe(st.pools[name], clock)
  }

  lemma LaterIsSafe(ps: PoolState, clock: nat, later: nat)
    requires Safe(ps, clock) && clock <= later
    ensures Safe(ps, later)
  {
  }

  lemma IntentKeepsSafe(st: State, req: Request, name: string, clock: nat)
    requires SafeIn(st, name, clock) && IntentOf(st, req).Some?
    ensures SafeIn(IntentOf(st, req).value, name, clock)
  {
  }

  lemma ProposalKeepsSafe(st: State, file: Option<Text>, req: Request, ids: map<string, string>, name: string,
      clock: nat)
    requires SafeIn(st, name, clock) && Proposed(st, file, req, ids).Some?
    ensures SafeIn(Proposed(st, file, req, ids).value, name, clock)
  {
  }

  lemma FinishKeepsSafe(st: State, req: Request, name: string, clock: nat)
    requires StateInv(st) && SafeIn(st, name, clock)
    ensures SafeIn(Finished(st, req), name, clock)
  {
    if !req.SetAuth? {
      MarkAllKeepsInvariant(st, MarkedBy(st, req));
    }
  }

  lemma EndKeepsSafe(s: Sys, l: Label, t: Sys, name: string, clock: nat)
    requires Step(s, l, t) && l.EndPass? && clock <= l.at && SafeIn(s.mem, name, clock)
    ensures SafeIn(t.mem, name, l.at)
  {
    if name in s.mem.pools {
      LaterIsSafe(s.mem.pools[name], clock, l.at);
      OneFailureMovesForward(s.mem.pools[name], clock, Failure(l.at, l.jitter, Observation));
      OneFailureMovesForward(s.mem.pools[name], clock, Failure(l.at, l.jitter, Provisioning));
    }
  }

  lemma OtherStepsKeepSafe(s: Sys, l: Label, t: Sys, name: string, clock: nat)
    requires Near(s.mem, s.disk) && Step(s, l, t) && SafeIn(s.mem, name, clock)
    requires !l.Intent? && !l.Commit? && !l.Finish? && !l.EndPass?
    requires !(l.Drop? && l.completed && s.pass.value.name == name)
    ensures SafeIn(t.mem, name, clock)
  {
  }

  lemma RequestKeepsSafe(s: Sys, l: Label, t: Sys, name: string, clock: nat)
    requires Inv(s) && Step(s, l, t) && SafeIn(s.mem, name, clock) && (l.Intent? || l.Commit? || l.Finish?)
    ensures SafeIn(t.mem, name, clock)
  {
    match l
    case Intent(req) => IntentKeepsSafe(s.mem, req, name, clock);
    case Commit(req, ids) => ProposalKeepsSafe(s.mem, s.file, req, ids, name, clock);
    case Finish(req) => FinishKeepsSafe(s.mem, req, name, clock);
  }

  lemma StepKeepsSafe(s: Sys, l: Label, t: Sys, name: string, clock: nat)
    requires Inv(s) && Step(s, l, t) && SafeIn(s.mem, name, clock) && (l.EndPass? ==> clock <= l.at)
    requires !(l.Drop? && l.completed && s.pass.value.name == name)
    ensures SafeIn(t.mem, name, if l.EndPass? then l.at else clock)
  {
    if l.Intent? || l.Commit? || l.Finish? {
      RequestKeepsSafe(s, l, t, name, clock);
    } else if l.EndPass? {
      EndKeepsSafe(s, l, t, name, clock);
    } else {
      OtherStepsKeepSafe(s, l, t, name, clock);
    }
  }

  lemma NextIsSafe(h: seq<Entry>, i: nat, name: string, clock: nat)
    requires Lawful(h) && i + 1 < |h| && SafeIn(h[i].sys.mem, name, clock)
    requires (h[i + 1].did.EndPass? ==> clock <= h[i + 1].did.at) && !JobFinishedAt(h, i + 1, name)
    ensures SafeIn(h[i + 1].sys.mem, name, if h[i + 1].did.EndPass? then h[i + 1].did.at else clock)
  {
    InvAround(h, i);
    StepKeepsSafe(h[i].sys, h[i + 1].did, h[i + 1].sys, name, clock);
  }

  lemma {:induction false} StaysSafe(h: seq<Entry>, i: nat, j: nat, name: string, clock: nat)
    requires Lawful(h) && i <= j < |h| && SafeIn(h[i].sys.mem, name, clock) && TimeRuns(h, i, j, clock)
    requires forall k :: i < k <= j ==> !JobFinishedAt(h, k, name)
    ensures SafeIn(h[j].sys.mem, name, ClockAt(h, i, j, clock))
  {
    if i < j {
      StaysSafe(h, i, j - 1, name, clock);
      assert h[j].did.EndPass? ==> ClockAt(h, i, j - 1, clock) <= h[j].did.at;
      NextIsSafe(h, j - 1, name, ClockAt(h, i, j - 1, clock));
    }
  }

  ghost predicate RecordsFailure(l: Label) {
    l.EndPass? && (l.ending.Broken? || l.ending.exits)
  }

  lemma FailureMovesForward(s: Sys, l: Label, t: Sys, clock: nat)
    requires Inv(s) && Step(s, l, t) && RecordsFailure(l) && clock <= l.at
    requires s.pass.value.name in s.mem.pools && Safe(s.mem.pools[s.pass.value.name], clock)
    ensures s.pass.value.name in t.mem.pools
    ensures s.mem.pools[s.pass.value.name].retryAt <= t.mem.pools[s.pass.value.name].retryAt
  {
    var ps := s.mem.pools[s.pass.value.name];
    OneFailureMovesForward(ps, clock, Failure(l.at, l.jitter, Observation));
    OneFailureMovesForward(ps, clock, Failure(l.at, l.jitter, Provisioning));
  }

  /** From a moment at which the pool's deadline is safe (none pending is safe), as long as no finished job resets its
      counter and no pass ends before an earlier one, no recorded failure ever moves the deadline earlier. */
  lemma FailuresNeverMoveDeadlineEarlier(h: seq<Entry>, i: nat, j: nat, clock: nat)
    requires Lawful(h) && i <= j && j + 1 < |h| && RecordsFailure(h[j + 1].did) && h[j].sys.pass.Some?
    requires var name := h[j].sys.pass.value.name;
             && name in h[j].sys.mem.pools && SafeIn(h[i].sys.mem, name, clock) && TimeRuns(h, i, j + 1, clock)
             && forall k :: i < k <= j ==> !JobFinishedAt(h, k, name)
    ensures var name := h[j].sys.pass.value.name;
            name in h[j + 1].sys.mem.pools && h[j].sys.mem.pools[name].retryAt <= h[j + 1].sys.mem.pools[name].retryAt
  {
    var name := h[j].sys.pass.value.name;
    StaysSafe(h, i, j, name, clock);
    assert ClockAt(h, i, j, clock) <= h[j + 1].did.at;
    InvAround(h, j);
    FailureMovesForward(h[j].sys, h[j + 1].did, h[j + 1].sys, ClockAt(h, i, j, clock));
  }

  lemma FirstIsSafe(h: seq<Entry>, name: string)
    requires Lawful(h) && h != []
    ensures SafeIn(h[0].sys.mem, name, 0)
  {
    IsLawful(h);
  }

  /** In particular from the very beginning on. */
  lemma DeadlinesOnlyGrowUntilAJobIsDone(h: seq<Entry>, j: nat)
    requires Lawful(h) && j + 1 < |h| && RecordsFailure(h[j + 1].did) && h[j].sys.pass.Some? && TimeRuns(h, 0, j + 1, 0)
    requires h[j].sys.pass.value.name in h[j].sys.mem.pools
    requires forall k :: 0 < k <= j ==> !JobFinishedAt(h, k, h[j].sys.pass.value.name)
    ensures var name := h[j].sys.pass.value.name;
            name in h[j + 1].sys.mem.pools && h[j].sys.mem.pools[name].retryAt <= h[j + 1].sys.mem.pools[name].retryAt
  {
    FirstIsSafe(h, h[j].sys.pass.value.name);
    FailuresNeverMoveDeadlineEarlier(h, 0, j, 0);
  }

  /* ---- Why the proviso ---- */

  /** The step that ends the current pass with a failed observation. */
  ghost function Broke(s: Sys, at: nat): Sys
    requires s.pass.Some?
  {
    var st := EndState(s.mem, s.pass.value.name, Broken, s.pass.value.deadline > s.pass.value.at, at, 0, at);
    s.(mem := st, disk := st, pass := None)
  }

  /** Right after a finished job has reset the counter of a pool that backs off provisioning, a failed observation
      moves the deadline earlier exactly if more than ten seconds were left: the history that does so is lawful. */
  lemma FinishedJobLetsDeadlineMove(h: seq<Entry>, at: nat)
    requires Lawful(h) && |h| > 1 && Last(h).pass.Some? && JobFinishedAt(h, |h| - 1, Last(h).pass.value.name)
    requires var s := Last(h);
             && s.pass.value.name in s.mem.pools && s.mem.pools[s.pass.value.name].retryScope == Provisioning
             && s.mem.pools[s.pass.value.name].retryAt <= U64_MAX
    ensures var s, name := Last(h), Last(h).pass.value.name;
            && Lawful(h + [Entry(EndPass(Broken, at, 0, at), Broke(s, at))])
            && name in Broke(s, at).mem.pools
            && (Broke(s, at).mem.pools[name].retryAt < s.mem.pools[name].retryAt <==>
                s.mem.pools[name].retryAt > SaturatingAdd(at, 10))
  {
    var s := Last(h);
    AfterFinishedJob(h);
    BreaksEarlier(s, at);
    Allow(s, EndPass(Broken, at, 0, at), Broke(s, at));
    Extended(h, EndPass(Broken, at, 0, at), Broke(s, at));
  }

  lemma AfterFinishedJob(h: seq<Entry>)
    requires Lawful(h) && |h| > 1 && Last(h).pass.Some? && JobFinishedAt(h, |h| - 1, Last(h).pass.value.name)
    requires Last(h).pass.value.name in Last(h).mem.pools
    ensures InPass(Last(h)) && Last(h).mem.pools[Last(h).pass.value.name].failures == 0
  {
    InvAround(h, |h| - 2);
  }

  lemma BreaksEarlier(s: Sys, at: nat)
    requires InPass(s) && s.pass.value.name in s.mem.pools
    requires s.mem.pools[s.pass.value.name].failures == 0 && s.mem.pools[s.pass.value.name].retryScope == Provisioning
    requires s.mem.pools[s.pass.value.name].retryAt <= U64_MAX
    ensures Step(s, EndPass(Broken, at, 0, at), Broke(s, at))
    ensures var name := s.pass.value.name;
            && name in Broke(s, at).mem.pools
            && (Broke(s, at).mem.pools[name].retryAt < s.mem.pools[name].retryAt <==>
                s.mem.pools[name].retryAt > SaturatingAdd(at, 10))
  {
    DelayTable(1);
  }
}
