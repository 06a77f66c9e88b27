/** What the manager does to the world, in every history: only what is currently wanted, and never to live work
    unless somebody asked for it by force. */
module Effects {
  import opened Basics
  import opened Sorting
  import opened Config
  import opened States
  import opened Retiring
  import opened Requests
  import opened Backoff
  import opened Worlds
  import opened Protocol
  import opened Invariants
  import opened Histories
  import opened Records

  /* ---- What the calls of a pass have brought ---- */

  ghost predicate SamePassUntil(h: seq<Entry>, k: nat, i: nat)
    requires i < |h|
  {
    forall j :: k < j <= i ==> !h[j].did.BeginPass? && !h[j].did.Crash?
  }

  /** The step after `k` is the moment at which a listing of the containers is taken. */
  ghost predicate ListedAt(h: seq<Entry>, k: nat) {
    k + 1 < |h| && h[k].sys.inflight == Some(ListContainers) && h[k + 1].did.Happen?
  }

  /** The step after `k` brings the answer to this call. */
  ghost predicate AnsweredAt(h: seq<Entry>, k: nat, e: Effect) {
    k + 1 < |h| && h[k].sys.inflight == Some(e) && h[k].sys.calls.happened && h[k + 1].did == Return(true)
  }

  ghost predicate TakenAt(h: seq<Entry>, k: nat, s: Sys) {
    k + 1 < |h| && h[k + 1].did.Happen? && h[k].sys.inflight == s.inflight && s.calls.taken == |StraysOf(h[k].sys)|
  }

  lemma NextTaken(h: seq<Entry>, i: nat)
    requires Lawful(h) && i + 1 < |h| && h[i + 1].sys.calls.happened
    ensures TakenAt(h, i, h[i + 1].sys)
            || (h[i].sys.calls.happened && h[i + 1].sys.calls.taken == h[i].sys.calls.taken
                && h[i + 1].sys.inflight == h[i].sys.inflight)
    ensures !h[i + 1].did.BeginPass? && !h[i + 1].did.Crash?
  {
    InvAround(h, i);
  }

  lemma NothingCalledAtFirst(h: seq<Entry>)
    requires Lawful(h) && h != []
    ensures h[0].sys.calls == NoCalls
  {
    IsLawful(h);
  }

  lemma {:induction false} TakenHasACause(h: seq<Entry>, i: nat) returns (k: nat)
    requires Lawful(h) && i < |h| && h[i].sys.calls.happened
    ensures k < i && TakenAt(h, k, h[i].sys) && SamePassUntil(h, k, i)
  {
    if i == 0 {
      NothingCalledAtFirst(h);
    } else {
      NextTaken(h, i - 1);
      if TakenAt(h, i - 1, h[i].sys) {
        k := i - 1;
      } else {
        k := TakenHasACause(h, i - 1);
      }
    }
  }

  lemma NextStrays(h: seq<Entry>, i: nat)
    requires Lawful(h) && i + 1 < |h| && h[i + 1].sys.calls.strays.Some?
    ensures h[i].sys.calls.strays == h[i + 1].sys.calls.strays
            || (AnsweredAt(h, i, ListContainers) && h[i + 1].sys.calls.strays == Some(h[i].sys.calls.taken))
    ensures !h[i + 1].did.BeginPass? && !h[i + 1].did.Crash?
  {
    InvAround(h, i);
  }

  /** The number of strays that a pass works with is that of a moment at which it had the containers listed. */
  lemma {:induction false} StraysHaveACause(h: seq<Entry>, i: nat) returns (k: nat)
    requires Lawful(h) && i < |h| && h[i].sys.calls.strays.Some?
    ensures k < i && ListedAt(h, k) && SamePassUntil(h, k, i) && h[i].sys.calls.strays == Some(|StraysOf(h[k].sys)|)
  {
    if i == 0 {
      NothingCalledAtFirst(h);
    } else {
      NextStrays(h, i - 1);
      if h[i - 1].sys.calls.strays == h[i].sys.calls.strays {
        k := StraysHaveACause(h, i - 1);
      } else {
        k := TakenHasACause(h, i - 1);
      }
    }
  }

  lemma NextAnswered(h: seq<Entry>, i: nat, e: Effect)
    requires Lawful(h) && i + 1 < |h| && e in h[i + 1].sys.calls.answered
    ensures e in h[i].sys.calls.answered || AnsweredAt(h, i, e)
    ensures !h[i + 1].did.BeginPass? && !h[i + 1].did.Crash?
  {
    InvAround(h, i);
  }

  /** What counts as answered in a pass was answered in this pass. */
  lemma {:induction false} AnswersHaveACause(h: seq<Entry>, i: nat, e: Effect) returns (k: nat)
    requires Lawful(h) && i < |h| && e in h[i].sys.calls.answered
    ensures k < i && AnsweredAt(h, k, e) && SamePassUntil(h, k, i)
  {
    if i == 0 {
      NothingCalledAtFirst(h);
    } else {
      NextAnswered(h, i - 1, e);
      if e in h[i - 1].sys.calls.answered {
        k := AnswersHaveACause(h, i - 1, e);
      } else {
        k := i - 1;
      }
    }
  }

  /* ---- Stale intent is never acted on ---- */

  /** The run for which a step asks for a token, or creates, starts or prepares a container. */
  function ProvisionedBy(l: Label): Option<string> {
    match l
    case Issue(RegistrationToken(id)) => Some(id)
    case Issue(CreateContainer(c)) => Some(c.name)
    case Issue(StartContainer(id, _)) => Some(id)
    case MakeDir(id) => Some(id)
    case _ => None
  }

  /** The pass works from copies that still agree with memory, on a pool that is to run, and may replenish it. */
  ghost predicate PassIsCurrent(s: Sys) {
    && s.pass.Some? && !s.pass.value.interrupted
    && var p := s.pass.value;
    && p.name in s.mem.pools && s.mem.pools[p.name].running && !s.mem.pools[p.name].deleting
    && p.state.id == s.mem.pools[p.name].id && p.state.running && !p.state.deleting
    && p.state.generation == s.mem.pools[p.name].generation
    && Find(s.mem.config.pools, p.name) == Some(p.pool)
    && p.deadline <= p.at
  }

  /** The run is wanted now, and has exactly the settings that its pool has now. */
  ghost predicate RunIsCurrent(s: Sys, id: string) {
    && PassIsCurrent(s) && id in s.mem.runs
    && var p := s.pass.value;
    && s.mem.runs[id].poolId == s.mem.pools[p.name].id && !s.mem.runs[id].retiring
    && s.mem.runs[id].generation == s.mem.pools[p.name].generation
    && s.mem.runs[id].pool == p.pool.(replicas := s.mem.runs[id].pool.replicas)
  }

  lemma ProvisionableIsCurrent(s: Sys, id: string)
    requires Inv(s) && Provisionable(s, id)
    ensures RunIsCurrent(s, id)
  {
    assert SnapshotHolds(s.mem, s.pass.value);
    assert Fits(s.mem, id);
    PoolOfRun(s.mem, s.pass.value.name, id);
  }

  /** Whenever a token is asked for, or a container is prepared, created or started, its run is current. */
  lemma OnlyCurrentRunsAreProvisioned(h: seq<Entry>, i: nat)
    requires Lawful(h) && i + 1 < |h| && ProvisionedBy(h[i + 1].did).Some?
    ensures RunIsCurrent(h[i].sys, ProvisionedBy(h[i + 1].did).value)
  {
    InvAround(h, i);
    ProvisionableIsCurrent(h[i].sys, ProvisionedBy(h[i + 1].did).value);
  }

  /** A container is created only when, earlier in the same pass, its image was found and a token was given; it is
      started only when a token was given. */
  lemma ContainersFollowTheirTokens(h: seq<Entry>, i: nat) returns (k: nat)
    requires Lawful(h) && i + 1 < |h| && h[i + 1].did.Issue?
    requires h[i + 1].did.effect.CreateContainer? || h[i + 1].did.effect.StartContainer?
    ensures k < i && AnsweredAt(h, k, RegistrationToken(ProvisionedBy(h[i + 1].did).value)) && SamePassUntil(h, k, i)
    ensures h[i + 1].did.effect.CreateContainer? ==>
              var c := h[i + 1].did.effect.container;
              c.name in h[i].sys.mem.runs && CheckImage(h[i].sys.mem.runs[c.name].pool.image) in h[i].sys.calls.answered
              && c.name in h[i].sys.world.dirs
  {
    InvAround(h, i);
    k := AnswersHaveACause(h, i, RegistrationToken(ProvisionedBy(h[i + 1].did).value));
  }

  lemma OneMoreKey<T>(m: map<string, T>, k: string, v: T)
    requires k !in m
    ensures |m[k := v]| == |m| + 1
  {
    assert m[k := v].Keys == m.Keys + {k};
    assert |m[k := v].Keys| == |m[k := v]| && |m.Keys| == |m|;
  }

  /** Whenever a record is inserted the pool is current, the record is new and carries the pool's settings; with it
      the pool has at most its replicas, and all records, with the stray containers that the manager's label was seen
      on when this pass first listed the containers, at most max_runners. */
  lemma OnlyWantedRunsAreInserted(h: seq<Entry>, i: nat) returns (k: nat)
    requires Lawful(h) && i + 1 < |h| && h[i + 1].did.Insert?
    ensures var s, t, r := h[i].sys, h[i + 1].sys, h[i + 1].did.run;
            && PassIsCurrent(s) && r == NewRun(s.pass.value, r.id, r.createdAt)
            && r.id !in s.issued && s.counted == 0 && t.disk == WithRun(s.mem, r) && t.mem == t.disk
            && CheckImage(r.pool.image) in s.calls.answered
            && |PoolRuns(t.disk.runs, r.poolId)| <= s.pass.value.pool.replicas
    ensures k < i && ListedAt(h, k) && SamePassUntil(h, k, i)
    ensures |h[i + 1].sys.disk.runs| + |StraysOf(h[k].sys)| <= h[i + 1].sys.disk.config.manager.maxRunners
  {
    InvAround(h, i);
    InsertionIsWanted(h[i].sys, h[i + 1].did, h[i + 1].sys);
    InsertionFits(h[i].sys, h[i + 1].did, h[i + 1].sys);
    k := StraysHaveACause(h, i);
  }

  lemma InsertionIsWanted(s: Sys, l: Label, t: Sys)
    requires Inv(s) && Step(s, l, t) && l.Insert?
    ensures PassIsCurrent(s)
  {
    assert SnapshotHolds(s.mem, s.pass.value);
  }

  lemma InsertionFits(s: Sys, l: Label, t: Sys)
    requires Step(s, l, t) && l.Insert?
    ensures s.calls.strays.Some?
    ensures |PoolRuns(t.disk.runs, l.run.poolId)| <= s.pass.value.pool.replicas
    ensures |t.disk.runs| + s.calls.strays.value <= t.disk.config.manager.maxRunners
  {
    OneMoreKey(s.mem.runs, l.run.id, l.run);
    OneMoreOfPool(s.mem.runs, l.run);
  }

  lemma OneMoreOfPool(runs: map<string, Run>, r: Run)
    requires r.id !in runs
    ensures |PoolRuns(runs[r.id := r], r.poolId)| == |PoolRuns(runs, r.poolId)| + 1
  {
    assert PoolRuns(runs[r.id := r], r.poolId) == PoolRuns(runs, r.poolId) + {r.id};
  }

  /* ---- Backing off ---- */

  lemma PassContinues(s: Sys, l: Label, t: Sys)
    requires Step(s, l, t) && t.pass.Some? && !l.BeginPass?
    ensures Continues(s.pass, t.pass)
  {
  }

  lemma PassContinuesAt(h: seq<Entry>, i: nat)
    requires Lawful(h) && i + 1 < |h| && h[i + 1].sys.pass.Some? && !h[i + 1].did.BeginPass?
    ensures Continues(h[i].sys.pass, h[i + 1].sys.pass)
  {
    InvAround(h, i);
    PassContinues(h[i].sys, h[i + 1].did, h[i + 1].sys);
  }

  /** A pass with the deadline that its pool had when it began. */
  ghost predicate BeganAt(h: seq<Entry>, k: nat, p: Pass) {
    && 0 < k < |h| && h[k].did.BeginPass? && Continues(Some(h[k].did.begun), Some(p))
    && p.name in h[k - 1].sys.mem.pools && p.deadline == h[k - 1].sys.mem.pools[p.name].retryAt
    && !(p.deadline > p.at && h[k - 1].sys.mem.pools[p.name].retryScope == Observation)
  }

  lemma BeginsHere(h: seq<Entry>, i: nat)
    requires Lawful(h) && 0 < i < |h| && h[i].sys.pass.Some? && h[i].did.BeginPass?
    ensures BeganAt(h, i, h[i].sys.pass.value)
  {
    InvAround(h, i - 1);
  }

  lemma NoPassAtFirst(h: seq<Entry>)
    requires Lawful(h) && h != []
    ensures h[0].sys.pass.None?
  {
    IsLawful(h);
  }

  lemma {:induction false} PassHasABeginning(h: seq<Entry>, i: nat) returns (k: nat)
    requires Lawful(h) && i < |h| && h[i].sys.pass.Some?
    ensures k <= i && BeganAt(h, k, h[i].sys.pass.value)
  {
    NoPassAtFirst(h);
    if h[i].did.BeginPass? && i > 0 {
      BeginsHere(h, i);
      k := i;
    } else if i > 0 {
      PassContinuesAt(h, i - 1);
      k := PassHasABeginning(h, i - 1);
    }
  }

  /** A pass that began before its pool's deadline asks for no token, prepares, creates and starts no container
      and inserts no record; and a pool that backs off from a failed observation has no pass at all. */
  lemma EarlyPassProvisionsNothing(h: seq<Entry>, i: nat) returns (k: nat)
    requires Lawful(h) && i + 1 < |h| && (ProvisionedBy(h[i + 1].did).Some? || h[i + 1].did.Insert?)
    ensures h[i].sys.pass.Some? && k <= i && BeganAt(h, k, h[i].sys.pass.value)
    ensures h[k - 1].sys.mem.pools[h[i].sys.pass.value.name].retryAt <= h[i].sys.pass.value.at
  {
    if h[i + 1].did.Insert? {
      var _ := OnlyWantedRunsAreInserted(h, i);
    } else {
      OnlyCurrentRunsAreProvisioned(h, i);
    }
    k := PassHasABeginning(h, i);
  }

  /** How a pass that was not interrupted leaves its pool: a failed one backs off observation, one with unexpected
      exits backs off provisioning, and a plain success clears a deadline that has passed, but not the failure count. */
  lemma EndOfPassKeepsBooks(h: seq<Entry>, i: nat)
    requires Lawful(h) && i + 1 < |h| && h[i + 1].did.EndPass? && h[i + 1].did.at < U64_MAX
    requires h[i].sys.pass.Some? && h[i].sys.pass.value.name in h[i].sys.mem.pools
    ensures var s, l, name := h[i].sys, h[i + 1].did, h[i].sys.pass.value.name;
            && !s.pass.value.interrupted && name in h[i + 1].sys.disk.pools
            && var was, ps := s.mem.pools[name], h[i + 1].sys.disk.pools[name];
            && (l.ending.Broken? ==> ps.retryAt > l.at && ps.retryScope == Observation)
            && (l.ending.Succeeded? && s.counted > 0 ==> ps.retryAt > l.at && ps.retryScope == Provisioning)
            && (l.ending.Succeeded? && s.counted == 0 ==>
                  ps.failures == was.failures && ps.retryAt == if s.pass.value.deadline > s.pass.value.at
                    then was.retryAt else 0)
  {
    InvAround(h, i);
    var ps := h[i].sys.mem.pools[h[i].sys.pass.value.name];
    DelayTable(Min(ps.failures + 1, U32_MAX));
  }

  lemma NextCounts(h: seq<Entry>, i: nat)
    requires Lawful(h) && i + 1 < |h| && h[i + 1].sys.counted > 0
    ensures h[i + 1].sys.counted == h[i].sys.counted || CountedAt(h, i)
    ensures !h[i + 1].did.BeginPass? && !h[i + 1].did.Crash?
  {
    InvAround(h, i);
  }

  /** The step after `i` drops a run that was neither retiring nor forced and had done no job. */
  ghost predicate CountedAt(h: seq<Entry>, i: nat) {
    && i + 1 < |h| && h[i + 1].did.Drop? && h[i + 1].did.unexpected && !h[i + 1].did.completed
    && h[i + 1].did.id in h[i].sys.mem.runs
    && !h[i].sys.mem.runs[h[i + 1].did.id].retiring && !h[i].sys.mem.runs[h[i + 1].did.id].force
  }

  lemma NothingCountedAtFirst(h: seq<Entry>)
    requires Lawful(h) && h != []
    ensures h[0].sys.counted == 0
  {
    IsLawful(h);
  }

  /** An exit in the report of a pass is a run that this pass dropped though nobody wanted it gone. */
  lemma {:induction false} ExitsHaveACause(h: seq<Entry>, i: nat) returns (k: nat)
    requires Lawful(h) && i < |h| && h[i].sys.counted > 0
    ensures k < i && CountedAt(h, k) && forall j :: k < j <= i ==> !h[j].did.BeginPass?
  {
    if i == 0 {
      NothingCountedAtFirst(h);
    } else {
      NextCounts(h, i - 1);
      if CountedAt(h, i - 1) {
        k := i - 1;
      } else {
        k := ExitsHaveACause(h, i - 1);
      }
    }
  }

  /* ---- An interrupted pass does nothing more ---- */

  predicate Acts(l: Label) {
    l.Issue? || l.Mark? || l.MakeDir? || l.RemoveDir? || l.Insert? || l.Drop? || l.DeletePool?
  }

  lemma StaysInterrupted(s: Sys, l: Label, t: Sys)
    requires Step(s, l, t) && s.pass.Some? && s.pass.value.interrupted && t.pass.Some?
    ensures t.pass == s.pass && !Acts(l)
  {
  }

  lemma StaysInterruptedAt(h: seq<Entry>, i: nat)
    requires Lawful(h) && i + 1 < |h| && h[i].sys.pass.Some? && h[i].sys.pass.value.interrupted
             && h[i + 1].sys.pass.Some?
    ensures h[i + 1].sys.pass == h[i].sys.pass && !Acts(h[i + 1].did)
  {
    InvAround(h, i);
    StaysInterrupted(h[i].sys, h[i + 1].did, h[i + 1].sys);
  }

  /** From the moment a request interrupts a pass until the pass ends, the pass begins no external call, inserts,
      marks and drops no record, touches no directory and deletes no pool. */
  lemma {:induction false} InterruptedPassIsIdle(h: seq<Entry>, i: nat, j: nat)
    requires Lawful(h) && i < j < |h|
    requires forall k :: i <= k <= j ==> h[k].sys.pass.Some?
    requires h[i].sys.pass.value.interrupted
    ensures h[j].sys.pass == h[i].sys.pass && !Acts(h[j].did)
  {
    if i + 1 < j {
      InterruptedPassIsIdle(h, i, j - 1);
    }
    StaysInterruptedAt(h, j - 1);
  }

  /** What a pass relies on while it works from its copies. */
  ghost predicate SameSurroundings(a: State, b: State) {
    && SameCommit(a, b) && a.pools.Keys == b.pools.Keys
    && (forall n :: n in a.pools ==>
          && a.pools[n].id == b.pools[n].id && a.pools[n].generation == b.pools[n].generation
          && a.pools[n].running == b.pools[n].running && a.pools[n].deleting == b.pools[n].deleting)
    && (forall id :: id in a.runs && id in b.runs ==> a.runs[id].force == b.runs[id].force)
  }

  lemma StepKeepsTables(s: Sys, l: Label, t: Sys)
    requires Inv(s) && Step(s, l, t) && s.pass.Some? && t.pass.Some? && !t.pass.value.interrupted
             && !t.pass.value.closed
    ensures SameCommit(s.mem, t.mem) && s.mem.pools.Keys == t.mem.pools.Keys && !l.Intent?
    ensures forall n :: n in s.mem.pools ==>
              && s.mem.pools[n].id == t.mem.pools[n].id && s.mem.pools[n].generation == t.mem.pools[n].generation
              && s.mem.pools[n].running == t.mem.pools[n].running && s.mem.pools[n].deleting == t.mem.pools[n].deleting
    ensures !s.pass.value.interrupted && !s.pass.value.closed
  {
    InterruptedOrOver(s, l, t);
    if !l.Drop? {
      OtherStepsKeepPools(s, l, t);
    }
  }

  /** The steps that end, close or interrupt a pass, or need there to be none. */
  predicate Disturbs(l: Label) {
    l.Intent? || l.Commit? || l.Finish? || l.Boot? || l.Crash? || l.BeginPass? || l.DeletePool? || l.EndPass?
    || l.SaveInterrupted? || l.Abandon?
  }

  lemma InterruptedOrOver(s: Sys, l: Label, t: Sys)
    requires Step(s, l, t) && s.pass.Some? && t.pass.Some? && !t.pass.value.interrupted && !t.pass.value.closed
    ensures !Disturbs(l) && !s.pass.value.interrupted && !s.pass.value.closed
  {
  }

  lemma OtherStepsKeepPools(s: Sys, l: Label, t: Sys)
    requires Near(s.mem, s.disk) && Step(s, l, t) && !Disturbs(l) && !l.Drop?
    ensures SameCommit(s.mem, t.mem) && t.mem.pools == s.mem.pools
  {
  }

  lemma StepKeepsForce(s: Sys, l: Label, t: Sys, id: string)
    requires Inv(s) && Inv(t) && Step(s, l, t) && !l.Intent? && id in s.mem.runs && id in t.mem.runs
    ensures s.mem.runs[id].force == t.mem.runs[id].force
  {
    assert NearRun(s.mem, s.disk, id) && NearRun(t.mem, t.disk, id);
    StepKeepsRecords(s, l, t);
    assert RecordPersists(s, t, id);
    if ForcedIn(t.disk, id) && !ForcedIn(s.disk, id) {
      StepForces(s, l, t, id);
    }
  }

  lemma StepKeepsSurroundings(s: Sys, l: Label, t: Sys)
    requires Inv(s) && Inv(t) && Step(s, l, t) && s.pass.Some? && t.pass.Some? && !t.pass.value.interrupted
             && !t.pass.value.closed
    ensures SameSurroundings(s.mem, t.mem) && !s.pass.value.interrupted && !s.pass.value.closed
  {
    StepKeepsTables(s, l, t);
    forall id | id in s.mem.runs && id in t.mem.runs ensures s.mem.runs[id].force == t.mem.runs[id].force {
      StepKeepsForce(s, l, t, id);
    }
  }

  lemma NextKeepsSurroundings(h: seq<Entry>, i: nat)
    requires Lawful(h) && i + 1 < |h| && h[i].sys.pass.Some? && h[i + 1].sys.pass.Some?
    requires !h[i + 1].sys.pass.value.interrupted && !h[i + 1].sys.pass.value.closed
    ensures SameSurroundings(h[i].sys.mem, h[i + 1].sys.mem)
    ensures !h[i].sys.pass.value.interrupted && !h[i].sys.pass.value.closed
  {
    InvAround(h, i);
    InvAt(h, i + 1);
    StepKeepsSurroundings(h[i].sys, h[i + 1].did, h[i + 1].sys);
  }

  lemma StillRecordedBetween(h: seq<Entry>, i: nat, j: nat, id: string)
    requires Lawful(h) && i <= j < |h| && id in h[i].sys.mem.runs && id in h[j].sys.mem.runs
    ensures i < j ==> id in h[j - 1].sys.mem.runs
  {
    if i < j {
      InvAt(h, i);
      InvAt(h, j - 1);
      InvAt(h, j);
      RecordsPersist(h, i, j - 1);
      RecordsPersist(h, j - 1, j);
      assert RecordPersists(h[j - 1].sys, h[j].sys, id);
    }
  }

  /** As long as a pass has not been interrupted, no request has changed anything that it relies on: whatever changes
      the configuration, a pool's intent or generation, or forces a run, interrupts the pass. */
  lemma {:induction false} UninterruptedPassSeesNoChange(h: seq<Entry>, i: nat, j: nat)
    requires Lawful(h) && i <= j < |h|
    requires forall k :: i <= k <= j ==> h[k].sys.pass.Some?
    requires !h[j].sys.pass.value.interrupted && !h[j].sys.pass.value.closed
    ensures SameSurroundings(h[i].sys.mem, h[j].sys.mem) && !h[i].sys.pass.value.interrupted
  {
    if i < j {
      NextKeepsSurroundings(h, j - 1);
      UninterruptedPassSeesNoChange(h, i, j - 1);
      forall id | id in h[i].sys.mem.runs && id in h[j].sys.mem.runs
        ensures h[i].sys.mem.runs[id].force == h[j].sys.mem.runs[id].force
      {
        StillRecordedBetween(h, i, j, id);
      }
    }
  }

  /* ---- Force has a cause ---- */

  /** The step after `k` is a forced Stop or Remove aimed at the pool of this run. */
  ghost predicate ForcedBy(h: seq<Entry>, k: nat, id: string) {
    k + 1 < |h| && h[k + 1].did.Intent? && ForceAimedAt(h[k].sys.mem, h[k + 1].did.req, id)
  }

  ghost predicate ForceAimedAt(st: State, req: Request, id: string) {
    id in st.runs && exists name :: name in st.pools && req.Forces(st, name) && st.pools[name].id == st.runs[id].poolId
  }

  lemma {:induction false} MarkAllKeepsForce(st: State, names: seq<string>)
    ensures MarkAll(st, names).runs.Keys == st.runs.Keys
    ensures forall id :: id in st.runs ==> MarkAll(st, names).runs[id].force == st.runs[id].force
  {
    if names != [] {
      MarkAllKeepsForce(st, names[..|names| - 1]);
    }
  }

  lemma FinishKeepsForce(st: State, req: Request)
    ensures Finished(st, req).runs.Keys == st.runs.Keys
    ensures forall id :: id in st.runs ==> Finished(st, req).runs[id].force == st.runs[id].force
  {
    match req
    case Scale(name, _) => MarkAllKeepsForce(st, [name]);
    case Upgrade(name, _) => MarkAllKeepsForce(st, [name]);
    case Apply(_, _) => MarkAllKeepsForce(st, SortedNames(st));
    case _ =>
  }

  /** In memory, a run becomes forced only by a request that asks for it. */
  lemma IntentForces(st: State, req: Request, id: string)
    requires IntentOf(st, req).Some? && id in st.runs && !st.runs[id].force
    requires id in IntentOf(st, req).value.runs && IntentOf(st, req).value.runs[id].force
    ensures ForceAimedAt(st, req, id)
  {
    if req.Stop? {
      var targets := Targets(st, req.target, req.all).value;
      var name :| name in targets && name in st.pools && st.pools[name].id == st.runs[id].poolId;
      assert req.Forces(st, name);
    } else if req.Remove? {
      assert req.Forces(st, req.name);
    }
  }

  ghost predicate ForcedIn(st: State, id: string) {
    id in st.runs && st.runs[id].force
  }

  lemma StepForces(s: Sys, l: Label, t: Sys, id: string)
    requires Inv(s) && Step(s, l, t) && ForcedIn(t.disk, id) && !ForcedIn(s.disk, id)
    ensures l.Intent? && ForceAimedAt(s.mem, l.req, id)
  {
    assert ForcedIn(s.mem, id) ==> NearRun(s.mem, s.disk, id);
    if l.Intent? {
      IntentKeepsInvariant(s.mem, l.req);
      IntentForces(s.mem, l.req, id);
    } else if l.Commit? {
      ProposalKeepsInvariant(s.mem, s.file, l.req, l.ids, s.poolIds);
    } else if l.Finish? {
      FinishKeepsForce(s.mem, l.req);
    } else if !l.Note? {
      OtherStepsKeepFlags(s, l, t, id);
    }
  }

  /* ---- No container is started twice ---- */

  /** Once started, a container counts as started until it is gone. */
  lemma StepKeepsStarted(s: Sys, l: Label, t: Sys, id: string)
    requires Step(s, l, t) && EverStarted(s.world, id) && Mine(t.world, id)
    ensures EverStarted(t.world, id)
  {
    if l.Environment? {
      assert ContainerDrift(s.issued, s.world, t.world, id);
    }
  }

  lemma {:induction false} StartedUntilGone(h: seq<Entry>, i: nat, j: nat, id: string)
    requires Lawful(h) && i <= j < |h| && EverStarted(h[i].sys.world, id)
    requires forall k :: i < k <= j ==> Mine(h[k].sys.world, id)
    ensures EverStarted(h[j].sys.world, id)
  {
    if i < j {
      StartedUntilGone(h, i, j - 1, id);
      InvAround(h, j - 1);
      StepKeepsStarted(h[j - 1].sys, h[j].did, h[j].sys, id);
    }
  }

  lemma StartTakesEffect(h: seq<Entry>, i: nat, id: string)
    requires Lawful(h) && i + 1 < |h| && h[i + 1].did.Happen?
    requires h[i].sys.inflight.Some? && h[i].sys.inflight.value.StartContainer? && h[i].sys.inflight.value.id == id
    ensures EverStarted(h[i + 1].sys.world, id)
  {
    InvAround(h, i);
    assert ContainerOk(h[i].sys.disk, h[i].sys.world, h[i].sys.issued, id);
  }

  /** Between a start that took effect and the next one asked for the same run its container was gone: what is
      started was never started before. */
  lemma NoContainerIsStartedTwice(h: seq<Entry>, i: nat, j: nat, id: string) returns (k: nat)
    requires Lawful(h) && i < j && j + 1 < |h| && h[i + 1].did.Happen?
    requires h[i].sys.inflight.Some? && h[i].sys.inflight.value.StartContainer? && h[i].sys.inflight.value.id == id
    requires h[j + 1].did.Issue? && h[j + 1].did.effect.StartContainer? && h[j + 1].did.effect.id == id
    ensures i + 1 < k <= j && !Mine(h[k].sys.world, id)
  {
    StartTakesEffect(h, i, id);
    InvAround(h, j);
    if forall k :: i + 1 < k <= j ==> Mine(h[k].sys.world, id) {
      StartedUntilGone(h, i + 1, j, id);
      assert false;
    }
    k :| i + 1 < k <= j && !Mine(h[k].sys.world, id);
  }

  ghost predicate SameFlags(a: State, b: State, id: string) {
    id in b.runs && (b.runs[id].force || b.runs[id].logSaved) ==>
      id in a.runs && a.runs[id].force == b.runs[id].force && a.runs[id].logSaved == b.runs[id].logSaved
  }

  /** Only requests and notes force a run or record that its logs are safe. */
  lemma OtherStepsKeepFlags(s: Sys, l: Label, t: Sys, id: string)
    requires Inv(s) && Step(s, l, t) && !(l.Intent? || l.Commit? || l.Finish? || l.Note?)
    ensures SameFlags(s.disk, t.disk, id)
  {
    if l.Mark? {
      MarkKeepsFlags(s, l, t, id);
    } else if l.Insert? || l.Drop? || l.DeletePool? {
      TableStepsKeepFlags(s, l, t, id);
    } else if l.EndPass? || l.SaveInterrupted? {
      EndKeepsFlags(s, l, t, id);
    } else {
      assert t.disk == s.disk;
    }
  }

  lemma MarkKeepsFlags(s: Sys, l: Label, t: Sys, id: string)
    requires Near(s.mem, s.disk) && Step(s, l, t) && l.Mark?
    ensures SameFlags(s.disk, t.disk, id)
  {
    assert id in s.mem.runs ==> NearRun(s.mem, s.disk, id);
  }

  lemma TableStepsKeepFlags(s: Sys, l: Label, t: Sys, id: string)
    requires Near(s.mem, s.disk) && Step(s, l, t) && (l.Insert? || l.Drop? || l.DeletePool?)
    ensures SameFlags(s.disk, t.disk, id)
  {
    assert id in s.mem.runs ==> NearRun(s.mem, s.disk, id);
  }

  lemma EndKeepsFlags(s: Sys, l: Label, t: Sys, id: string)
    requires Near(s.mem, s.disk) && Step(s, l, t) && (l.EndPass? || l.SaveInterrupted?)
    ensures SameFlags(s.disk, t.disk, id)
  {
    assert id in s.mem.runs ==> NearRun(s.mem, s.disk, id);
  }

  lemma NextForces(h: seq<Entry>, i: nat, id: string)
    requires Lawful(h) && i + 1 < |h| && ForcedIn(h[i + 1].sys.disk, id) && !ForcedIn(h[i].sys.disk, id)
    ensures ForcedBy(h, i, id)
  {
    InvAround(h, i);
    StepForces(h[i].sys, h[i + 1].did, h[i + 1].sys, id);
  }

  lemma NothingForcedAtFirst(h: seq<Entry>, id: string)
    requires Lawful(h) && h != []
    ensures !ForcedIn(h[0].sys.disk, id)
  {
    IsLawful(h);
  }

  lemma {:induction false} ForceHasACause(h: seq<Entry>, i: nat, id: string) returns (k: nat)
    requires Lawful(h) && i < |h| && ForcedIn(h[i].sys.disk, id)
    ensures k < i && ForcedBy(h, k, id)
  {
    if i == 0 {
      NothingForcedAtFirst(h, id);
    } else if ForcedIn(h[i - 1].sys.disk, id) {
      k := ForceHasACause(h, i - 1, id);
    } else {
      NextForces(h, i - 1, id);
      k := i - 1;
    }
  }

  /* ---- Draining never kills work ---- */

  lemma StepKills(s: Sys, l: Label, t: Sys, id: string)
    requires Inv(s) && Step(s, l, t) && LiveMine(s.world, id) && !LiveMine(t.world, id) && !l.Environment?
    ensures l.Happen? && s.inflight == Some(RemoveContainer(id, true)) && ForcedIn(s.disk, id)
  {
  }

  /** A live container of the manager stops being live by itself, or by a forced removal; and a forced removal
      goes back to an earlier forced Stop or Remove that was aimed at its pool. */
  lemma OnlyForceKillsWork(h: seq<Entry>, i: nat, id: string) returns (k: nat)
    requires Lawful(h) && i + 1 < |h| && LiveMine(h[i].sys.world, id) && !LiveMine(h[i + 1].sys.world, id)
             && !h[i + 1].did.Environment?
    ensures h[i + 1].did.Happen? && h[i].sys.inflight == Some(RemoveContainer(id, true))
    ensures k < i && ForcedBy(h, k, id)
  {
    InvAround(h, i);
    StepKills(h[i].sys, h[i + 1].did, h[i + 1].sys, id);
    k := ForceHasACause(h, i, id);
  }

  /** The manager deletes a registration only of one of its own runs, and only when that run has no container. */
  lemma OnlyIdleRegistrationsAreDeleted(h: seq<Entry>, i: nat, key: (string, string))
    requires Lawful(h) && i + 1 < |h| && key in h[i].sys.world.registrations && !h[i + 1].did.Environment?
    requires key !in h[i + 1].sys.world.registrations
        || h[i + 1].sys.world.registrations[key] != h[i].sys.world.registrations[key]
    ensures h[i + 1].did.Happen? && key.1 in h[i].sys.issued && !Mine(h[i].sys.world, key.1)
    ensures h[i].sys.inflight == Some(RemoveRegistration(key.0, h[i].sys.world.registrations[key].id, key.1))
  {
    InvAround(h, i);
  }

  /** Containers that the manager did not create are never touched by it. */
  lemma ForeignContainersAreLeftAlone(h: seq<Entry>, i: nat, n: string)
    requires Lawful(h) && i + 1 < |h| && n in h[i].sys.world.containers && !h[i].sys.world.containers[n].ours
             && !h[i + 1].did.Environment?
    ensures n in h[i + 1].sys.world.containers && h[i + 1].sys.world.containers[n] == h[i].sys.world.containers[n]
  {
    InvAround(h, i);
    assert ContainerOk(h[i].sys.disk, h[i].sys.world, h[i].sys.issued, n);
  }

  /* ---- Logs before removal ---- */

  ghost predicate LoggedIn(st: State, id: string) {
    id in st.runs && st.runs[id].logSaved
  }

  /** The step after `k` records that the logs of the run are safe, after they were read in the same pass. */
  ghost predicate LoggedAt(h: seq<Entry>, k: nat, id: string) {
    k + 1 < |h| && h[k + 1].did.Note? && h[k + 1].did.noted.id == id && LogsTaken(h[k].sys, id)
  }

  lemma RequestLogsNothing(s: Sys, l: Label, t: Sys, id: string)
    requires Inv(s) && Step(s, l, t) && (l.Intent? || l.Commit? || l.Finish?)
    ensures LoggedIn(t.disk, id) ==> LoggedIn(s.disk, id)
  {
    RequestEvolves(s, l, t);
    assert id in s.mem.runs ==> NearRun(s.mem, s.disk, id);
  }

  lemma StepLogs(s: Sys, l: Label, t: Sys, id: string)
    requires Inv(s) && Step(s, l, t) && LoggedIn(t.disk, id) && !LoggedIn(s.disk, id)
    ensures l.Note? && l.noted.id == id && LogsTaken(s, id)
  {
    if l.Intent? || l.Commit? || l.Finish? {
      RequestLogsNothing(s, l, t, id);
    } else if l.Note? {
      assert NearRun(s.mem, s.disk, id);
    } else {
      OtherStepsKeepFlags(s, l, t, id);
    }
  }

  lemma NextLogs(h: seq<Entry>, i: nat, id: string)
    requires Lawful(h) && i + 1 < |h| && LoggedIn(h[i + 1].sys.disk, id) && !LoggedIn(h[i].sys.disk, id)
    ensures LoggedAt(h, i, id)
  {
    InvAround(h, i);
    StepLogs(h[i].sys, h[i + 1].did, h[i + 1].sys, id);
  }

  lemma NothingLoggedAtFirst(h: seq<Entry>, id: string)
    requires Lawful(h) && h != []
    ensures !LoggedIn(h[0].sys.disk, id)
  {
    IsLawful(h);
  }

  lemma {:induction false} SavedLogsHaveACause(h: seq<Entry>, i: nat, id: string) returns (k: nat)
    requires Lawful(h) && i < |h| && LoggedIn(h[i].sys.disk, id)
    ensures k < i && LoggedAt(h, k, id)
  {
    if i == 0 {
      NothingLoggedAtFirst(h, id);
    } else if LoggedIn(h[i - 1].sys.disk, id) {
      k := SavedLogsHaveACause(h, i - 1, id);
    } else {
      NextLogs(h, i - 1, id);
      k := i - 1;
    }
  }

  lemma StepRemoves(s: Sys, l: Label, t: Sys, id: string)
    requires Inv(s) && Step(s, l, t) && Mine(s.world, id) && !Mine(t.world, id) && !l.Environment?
    ensures l.Happen? && s.inflight.Some? && s.inflight.value.RemoveContainer? && s.inflight.value.id == id
            && LoggedIn(s.disk, id)
  {
  }

  /** The manager removes no container before its output has been read and, if it ever ran, its diagnostic files have
      been copied: `k` is when the record said so, and `j` when the output came, earlier in the same pass. */
  lemma NoContainerIsRemovedBeforeItsLogs(h: seq<Entry>, i: nat, id: string) returns (k: nat, j: nat)
    requires Lawful(h) && i + 1 < |h| && Mine(h[i].sys.world, id) && !Mine(h[i + 1].sys.world, id)
             && !h[i + 1].did.Environment?
    ensures j < k < i && LoggedAt(h, k, id) && AnsweredAt(h, j, ReadLogs(id)) && SamePassUntil(h, j, k)
    ensures EverStarted(h[k].sys.world, id) ==> ArchiveDiagnostics(id) in h[k].sys.calls.answered
  {
    InvAround(h, i);
    StepRemoves(h[i].sys, h[i + 1].did, h[i + 1].sys, id);
    k := SavedLogsHaveACause(h, i, id);
    j := AnswersHaveACause(h, k, ReadLogs(id));
  }
}
