/** Left alone, every running pool reaches its replicas. */
module Convergence {
  import opened Basics
  import opened Config
  import opened States
  import opened Requests
  import opened Capacity
  import opened Worlds
  import opened Protocol
  import opened Invariants
  import opened Histories
  import opened Awaits
  import opened Quiet
  import opened Rounds

  /** A healthy pool; if it is to run, its deadline has passed by the time `start`. */
  ghost predicate SteadyPool(s: Sys, name: string, start: nat) {
    HealthyPool(s, name) && (Active(s.mem.pools[name]) ==> s.mem.pools[name].retryAt <= start)
  }

  /** Every pool is healthy, running ones are not backing off, and every container of the manager is recorded. */
  ghost predicate Steady(s: Sys, start: nat) {
    NoStrays(s) && forall n {:trigger SteadyPool(s, n, start)} :: n in s.mem.pools ==> SteadyPool(s, n, start)
  }

  /** A turn of a healthy pool. */
  ghost predicate Turned(s: Sys, t: Sys, name: string, unrecorded: nat, added: Option<string>) {
    && KeptUp(s, t, name, unrecorded, added) && SameTables(s, t, name)
    && (t.mem.pools[name].retryAt == s.mem.pools[name].retryAt || t.mem.pools[name].retryAt == 0)
  }

  lemma SteadyIsWithinTargets(s: Sys, start: nat)
    requires Sound(s) && Steady(s, start)
    ensures WithinTargets(s.mem)
  {
    IsSound(s);
    forall p | p in s.mem.config.pools && p.name in s.mem.pools ensures Count(s.mem, p.name) <= p.replicas {
      FindIsUnique(s.mem.config.pools, p);
      assert SteadyPool(s, p.name, start);
    }
  }

  /** Nothing but its own target keeps a healthy pool from growing. */
  lemma OnlyTheTargetHolds(s: Sys, t: Sys, name: string, start: nat, unrecorded: nat, added: Option<string>)
    requires Sound(s) && Steady(s, start) && HealthyPool(s, name) && KeptUp(s, t, name, unrecorded, added)
    ensures |IdsOf(t, name)| == |IdsOf(s, name)| + if |IdsOf(s, name)| < TargetOf(s, name) then 1 else 0
  {
    SteadyIsWithinTargets(s, start);
    IsSound(s);
    if |IdsOf(s, name)| < TargetOf(s, name) {
      NoCapacityStarvation(s.mem, name);
      assert added.Some? && added.value !in IdsOf(s, name);
    }
  }

  lemma OthersAreSame(s: Sys, t: Sys, name: string, unrecorded: nat, added: Option<string>, other: string)
    requires Sound(s) && other in s.mem.pools && other != name && KeptUp(s, t, name, unrecorded, added)
             && SameTables(s, t, name)
    ensures IdsOf(t, other) == IdsOf(s, other)
    ensures forall id :: id in IdsOf(s, other) ==> SameRun(s.mem, t.mem, id) && SameContainer(s.world, t.world, id)
  {
    IsSound(s);
    assert IdsApart(s.mem.pools, name, other);
    forall id | id in IdsOf(s, other) ensures id !in IdsOf(t, name) {
      assert id !in IdsOf(s, name);
    }
    forall id ensures id in IdsOf(t, other) <==> id in IdsOf(s, other) {
      if id !in IdsOf(t, name) {
        assert SameRun(s.mem, t.mem, id);
      }
    }
  }

  lemma OtherStaysHealthy(s: Sys, t: Sys, name: string, unrecorded: nat, added: Option<string>, other: string)
    requires Sound(s) && other in s.mem.pools && other != name && Turned(s, t, name, unrecorded, added)
             && HealthyPool(s, other)
    ensures HealthyPool(t, other) && IdsOf(t, other) == IdsOf(s, other)
  {
    OthersAreSame(s, t, name, unrecorded, added, other);
    forall id | id in IdsOf(t, other) ensures HealthyRun(t, other, id) {
      assert HealthyRun(s, other, id);
      assert SameRun(s.mem, t.mem, id) && SameContainer(s.world, t.world, id);
    }
  }

  lemma UpIsHealthy(s: Sys, t: Sys, name: string, id: string)
    requires Sound(s) && HealthyPool(s, name) && id in IdsOf(s, name) && name in t.mem.pools && Up(s, t, name, id)
    ensures HealthyRun(t, name, id)
  {
    HealthyIsNotForced(s, name);
    assert id !in ForcedOf(s, name);
  }

  lemma TurnedStaysHealthy(s: Sys, t: Sys, name: string, start: nat, unrecorded: nat, added: Option<string>)
    requires Sound(s) && Steady(s, start) && HealthyPool(s, name) && Turned(s, t, name, unrecorded, added)
    ensures HealthyPool(t, name)
  {
    OnlyTheTargetHolds(s, t, name, start, unrecorded, added);
    forall id | id in IdsOf(t, name) ensures HealthyRun(t, name, id) {
      if id in IdsOf(s, name) {
        assert Up(s, t, name, id);
        UpIsHealthy(s, t, name, id);
      }
    }
  }

  lemma StillNoStrays(s: Sys, t: Sys, name: string, unrecorded: nat, added: Option<string>)
    requires Sound(t) && NoStrays(s) && Turned(s, t, name, unrecorded, added)
    ensures NoStrays(t)
  {
    IsSound(t);
    forall n | n in t.world.containers && t.world.containers[n].manager == Some(t.mem.managerId)
      ensures t.world.containers[n].run.Some? && t.world.containers[n].run.value in t.mem.runs
    {
      if n in IdsOf(t, name) {
        OwnContainer(s, t, name, unrecorded, added, n);
      } else {
        assert SameContainer(s.world, t.world, n);
        StillRecorded(s, t, name, unrecorded, added, s.world.containers[n].run.value);
      }
    }
  }

  lemma OwnContainer(s: Sys, t: Sys, name: string, unrecorded: nat, added: Option<string>, n: string)
    requires Inv(t) && Turned(s, t, name, unrecorded, added) && n in IdsOf(t, name) && n in t.world.containers
    ensures t.world.containers[n].run == Some(n) && n in t.mem.runs
  {
    assert ContainerOk(t.disk, t.world, t.issued, n);
  }

  lemma StillRecorded(s: Sys, t: Sys, name: string, unrecorded: nat, added: Option<string>, id: string)
    requires KeptUp(s, t, name, unrecorded, added) && id in s.mem.runs
    ensures id in t.mem.runs
  {
    if id in IdsOf(s, name) {
      assert Up(s, t, name, id);
    } else if id !in IdsOf(t, name) {
      assert SameRun(s.mem, t.mem, id);
    }
  }

  /** A turn keeps the state steady; the pool whose turn it was is one runner nearer to its target, or at it. */
  lemma TurnKeepsSteady(s: Sys, t: Sys, name: string, start: nat, unrecorded: nat, added: Option<string>)
    requires Sound(s) && Sound(t) && Steady(s, start) && name in s.mem.pools && Turned(s, t, name, unrecorded, added)
    ensures Steady(t, start)
    ensures forall n :: n in s.mem.pools ==> |IdsOf(t, n)| == Nearer(s, n, if n == name then 1 else 0)
  {
    StillNoStrays(s, t, name, unrecorded, added);
    forall n | n in t.mem.pools
      ensures SteadyPool(t, n, start) && |IdsOf(t, n)| == Nearer(s, n, if n == name then 1 else 0)
    {
      assert SteadyPool(s, n, start);
      if n != name {
        OtherStaysHealthy(s, t, name, unrecorded, added, n);
      } else {
        TurnedStaysHealthy(s, t, name, start, unrecorded, added);
        OnlyTheTargetHolds(s, t, name, start, unrecorded, added);
      }
    }
  }

  /** The pool's record count after so many visits: up by one a visit, never beyond the target. */
  ghost function Nearer(s: Sys, name: string, visits: nat): nat
    requires name in s.mem.pools
  {
    var target := Find(s.mem.config.pools, name);
    if Active(s.mem.pools[name]) && target.Some? then Min(target.value.replicas, |IdsOf(s, name)| + visits)
      else |IdsOf(s, name)|
  }

  ghost predicate SameTargets(s: Sys, t: Sys) {
    && t.mem.config == s.mem.config && t.mem.pools.Keys == s.mem.pools.Keys
    && forall n :: n in s.mem.pools ==> Active(t.mem.pools[n]) == Active(s.mem.pools[n])
  }

  /** After `k` ticks from `cursor` on, every running pool has moved as far as its visits allow. */
  ghost predicate NearingTargets(s: Sys, t: Sys, cursor: nat, k: nat) {
    SortedNames(s.mem) != [] && Moved(s, t, SortedNames(s.mem), cursor, k)
  }

  ghost predicate Moved(s: Sys, t: Sys, names: seq<string>, cursor: nat, k: nat)
    requires names != []
  {
    SameTargets(s, t) && forall n :: n in s.mem.pools ==> |IdsOf(t, n)| == Nearer(s, n, Visits(names, cursor, k, n))
  }

  /** A quiet tick: the pool in turn is drained or moved on. As in Histories, the quantifier keeps the statement
      closed. */
  ghost predicate TakesTurn(s: Sys, t: Sys, cursor: nat, start: nat, ok: bool, unrecorded: nat, added: Option<string>) {
    forall key {:trigger Open((s, t, cursor), key)} :: Open((s, t, cursor), key) ==>
      TurnTaken(s, t, cursor, start, ok, unrecorded, added)
  }

  ghost predicate TurnTaken(s: Sys, t: Sys, cursor: nat, start: nat, ok: bool, unrecorded: nat, added: Option<string>) {
    var names := SortedNames(s.mem);
    && names != []
    && var name := InTurn(names, cursor);
    && name in s.mem.pools
    && (Drainable(s, name) && (s.mem.pools[name].retryScope.Provisioning? || s.mem.pools[name].retryAt <= start) ==>
        DrainedOut(s, t, name))
    && (SteadyPool(s, name, start) ==> ok && Turned(s, t, name, unrecorded, added))
  }

  /** The pool whose turn it is: closed. */
  ghost predicate Due(s: Sys, cursor: nat, name: string) {
    forall key {:trigger Open((s, cursor), key)} :: Open((s, cursor), key) ==>
      SortedNames(s.mem) != [] && InTurn(SortedNames(s.mem), cursor) == name
  }

  lemma TakesTurnWhen(s: Sys, t: Sys, name: string, cursor: nat, start: nat, ok: bool, unrecorded: nat,
      added: Option<string>)
    requires Due(s, cursor, name) && name in s.mem.pools
    requires Drainable(s, name)
             && (s.mem.pools[name].retryScope.Provisioning? || s.mem.pools[name].retryAt <= start) ==>
               DrainedOut(s, t, name)
    requires SteadyPool(s, name, start) ==> ok && Turned(s, t, name, unrecorded, added)
    ensures TakesTurn(s, t, cursor, start, ok, unrecorded, added)
  {
    assert Open((s, cursor), 0);
  }

  lemma IsTurnTaken(s: Sys, t: Sys, cursor: nat, start: nat, ok: bool, unrecorded: nat, added: Option<string>)
    requires TakesTurn(s, t, cursor, start, ok, unrecorded, added)
    ensures TurnTaken(s, t, cursor, start, ok, unrecorded, added)
  {
    assert Open((s, t, cursor), 0);
  }

  /** The state is steady: closed. */
  ghost predicate AtEase(s: Sys, start: nat) {
    forall key {:trigger Open((s, start), key)} :: Open((s, start), key) ==> Steady(s, start)
  }

  lemma IsAtEase(s: Sys, start: nat)
    requires AtEase(s, start)
    ensures Steady(s, start)
  {
    assert Open((s, start), 0);
  }

  /** NearingTargets: closed. */
  ghost predicate OnTrack(s: Sys, t: Sys, cursor: nat, k: nat) {
    forall key {:trigger Open((s, t, k), key)} :: Open((s, t, k), key) ==> NearingTargets(s, t, cursor, k)
  }

  lemma IsOnTrack(s: Sys, t: Sys, cursor: nat, k: nat)
    requires OnTrack(s, t, cursor, k)
    ensures NearingTargets(s, t, cursor, k)
  {
    assert Open((s, t, k), 0);
  }

  /** The state is steady and every pool is as near to its target as it should be after `k` ticks from `s` on. */
  ghost predicate OnCourse(s: Sys, t: Sys, cursor: nat, start: nat, k: nat) {
    AtEase(t, start) && OnTrack(s, t, cursor, k)
  }

  /** A tick moves the pool in turn by one, if it is short, and no other. */
  ghost predicate Advanced(s: Sys, t: Sys, name: string) {
    && name in s.mem.pools && SameTargets(s, t)
    && forall n :: n in s.mem.pools ==> |IdsOf(t, n)| == Nearer(s, n, if n == name then 1 else 0)
  }

  ghost predicate Advances(s: Sys, t: Sys, name: string) {
    forall key {:trigger Open((s, t, name), key)} :: Open((s, t, name), key) ==> Advanced(s, t, name)
  }

  lemma IsAdvanced(s: Sys, t: Sys, name: string)
    requires Advances(s, t, name)
    ensures Advanced(s, t, name)
  {
    assert Open((s, t, name), 0);
  }

  lemma SteadyTurn(s: Sys, t: Sys, cursor: nat, start: nat, ok: bool, unrecorded: nat, added: Option<string>)
    requires SortedNames(s.mem) != [] && Steady(s, start) && TakesTurn(s, t, cursor, start, ok, unrecorded, added)
    ensures var name := InTurn(SortedNames(s.mem), cursor); name in s.mem.pools && Turned(s, t, name, unrecorded, added)
  {
    IsTurnTaken(s, t, cursor, start, ok, unrecorded, added);
    assert SteadyPool(s, InTurn(SortedNames(s.mem), cursor), start);
  }

  lemma SteadyTurnAdvances(s: Sys, t: Sys, cursor: nat, start: nat, ok: bool, unrecorded: nat, added: Option<string>)
    requires SortedNames(s.mem) != [] && Sound(s) && Sound(t) && AtEase(s, start)
    requires TakesTurn(s, t, cursor, start, ok, unrecorded, added)
    ensures AtEase(t, start) && Advances(s, t, InTurn(SortedNames(s.mem), cursor))
  {
    IsAtEase(s, start);
    SteadyTurn(s, t, cursor, start, ok, unrecorded, added);
    TurnKeepsSteady(s, t, InTurn(SortedNames(s.mem), cursor), start, unrecorded, added);
  }

  lemma CourseStarts(s: Sys, cursor: nat, start: nat)
    requires s.mem.pools != map[] && Steady(s, start)
    ensures OnCourse(s, s, cursor, start, 0)
  {
    assert s.mem.pools.Keys != {};
    forall n | n in s.mem.pools ensures |IdsOf(s, n)| == Nearer(s, n, 0) {
      assert SteadyPool(s, n, start);
    }
  }

  lemma CourseHasPools(s: Sys, t: Sys, cursor: nat, start: nat, k: nat)
    requires OnCourse(s, t, cursor, start, k)
    ensures t.mem.pools != map[]
  {
    CourseHasNames(s, t, cursor, start, k);
  }

  lemma CourseHasNames(s: Sys, t: Sys, cursor: nat, start: nat, k: nat)
    requires OnCourse(s, t, cursor, start, k)
    ensures t.mem.pools != map[] && SortedNames(s.mem) != [] && SortedNames(t.mem) == SortedNames(s.mem)
  {
    IsOnTrack(s, t, cursor, k);
    assert t.mem.pools.Keys == s.mem.pools.Keys;
    var names := SortedNames(s.mem);
    assert names[0] in names;
    assert names[0] in t.mem.pools;
  }

  lemma TrackContinues(s: Sys, t: Sys, u: Sys, cursor: nat, k: nat)
    requires OnTrack(s, t, cursor, k) && SortedNames(s.mem) != []
             && Advances(t, u, InTurn(SortedNames(s.mem), cursor + k))
    ensures OnTrack(s, u, cursor, k + 1)
  {
    IsOnTrack(s, t, cursor, k);
    IsAdvanced(t, u, InTurn(SortedNames(s.mem), cursor + k));
    MovedOn(s, t, u, SortedNames(s.mem), cursor, k);
  }

  lemma CourseHolds(s: Sys, t: Sys, u: Sys, cursor: nat, start: nat, k: nat, ok: bool, unrecorded: nat,
      added: Option<string>)
    requires Sound(t) && Sound(u) && OnCourse(s, t, cursor, start, k)
    requires TakesTurn(t, u, cursor + k, start, ok, unrecorded, added)
    ensures OnCourse(s, u, cursor, start, k + 1)
  {
    CourseHasNames(s, t, cursor, start, k);
    SteadyTurnAdvances(t, u, cursor + k, start, ok, unrecorded, added);
    TrackContinues(s, t, u, cursor, k);
  }

  /** `s` before the pass, `b` when it has begun, `mid` after the last run's turn, `d` at the end of the pass, `t`
      after the bookkeeping. */
  lemma PassIsTurn(s: Sys, b: Sys, mid: Sys, d: Sys, t: Sys, name: string, at: nat, start: nat, r: Result<nat>,
      unrecorded: nat, added: Option<string>)
    requires Begun(s, b, name, at) && start <= at
    requires var allow := b.pass.value.MayReplenish();
             Smooth(b, name, allow) ==>
               && QuietPass(b, mid, d, name, allow, r.Ok?, if r.Ok? then r.value else 0, unrecorded, added)
               && EndedAs(d, t, name, if r.Ok? then Succeeded(r.value > 0) else Broken, b.pass.value.deadline > at)
    ensures Drainable(s, name) ==> DrainedOut(s, t, name)
    ensures SteadyPool(s, name, start) ==> Turned(s, t, name, unrecorded, added)
  {
    var allow := b.pass.value.MayReplenish();
    SamePools(s, b, name);
    if Drainable(s, name) {
      QuietTurnDrains(s, b, mid, d, t, name, at, r.Ok?, if r.Ok? then r.value else 0, unrecorded, added);
    }
    if SteadyPool(s, name, start) {
      HealthyPassSucceeds(b, mid, d, name, allow, r.Ok?, if r.Ok? then r.value else 0, unrecorded, added);
      QuietTurnKeepsUp(s, b, mid, d, t, name, at, allow, r.value, unrecorded, added);
    }
  }

  /** A healthy pool is not deleted by its pass, so nothing fails. */
  lemma HealthyPassSucceeds(b: Sys, mid: Sys, d: Sys, name: string, allow: bool, ok: bool, exits: nat,
      unrecorded: nat, added: Option<string>)
    requires HealthyPool(b, name) && QuietPass(b, mid, d, name, allow, ok, exits, unrecorded, added)
    requires b.pass.Some? && b.pass.value.state == b.mem.pools[name]
    ensures ok
  {
    assert IdsOf(mid, name) == IdsOf(b, name);
  }

  lemma NearerStill(s: Sys, t: Sys, n: string, visits: nat, more: nat)
    requires n in s.mem.pools && SameTargets(s, t) && |IdsOf(t, n)| == Nearer(s, n, visits)
    ensures Nearer(t, n, more) == Nearer(s, n, visits + more)
  {
  }

  lemma TargetsStay(s: Sys, t: Sys, u: Sys)
    requires SameTargets(s, t) && SameTargets(t, u)
    ensures SameTargets(s, u)
  {
  }

  lemma MovedOnAt(s: Sys, t: Sys, u: Sys, names: seq<string>, cursor: nat, k: nat, n: string)
    requires names != [] && Moved(s, t, names, cursor, k) && Advanced(t, u, InTurn(names, cursor + k))
             && n in s.mem.pools
    ensures |IdsOf(u, n)| == Nearer(s, n, Visits(names, cursor, k + 1, n))
  {
    NearerStill(s, t, n, Visits(names, cursor, k, n), if n == InTurn(names, cursor + k) then 1 else 0);
  }

  lemma MovedOn(s: Sys, t: Sys, u: Sys, names: seq<string>, cursor: nat, k: nat)
    requires names != [] && Moved(s, t, names, cursor, k) && Advanced(t, u, InTurn(names, cursor + k))
    ensures Moved(s, u, names, cursor, k + 1)
  {
    TargetsStay(s, t, u);
    forall n | n in s.mem.pools ensures |IdsOf(u, n)| == Nearer(s, n, Visits(names, cursor, k + 1, n)) {
      MovedOnAt(s, t, u, names, cursor, k, n);
    }
  }

  lemma VisitsInRounds(st: State, cursor: nat, rounds: nat, name: string)
    requires name in st.pools
    ensures SortedNames(st) != [] && Visits(SortedNames(st), cursor, rounds * |SortedNames(st)|, name) == rounds
  {
    InOrderIsOrdered(st.pools.Keys);
    forall a: int, b: int ensures SamePlace(SortedNames(st), a, b) {
    }
    EachPoolOnceARound(SortedNames(st), cursor, rounds, name);
  }

  /** After a number of rounds a running pool has exactly that many runners more, but at most its replicas:
      as many visits as its deficit bring it to its target. */
  lemma TargetReached(s: Sys, t: Sys, cursor: nat, rounds: nat, name: string)
    requires OnTrack(s, t, cursor, rounds * |SortedNames(s.mem)|) && HealthyPool(s, name)
    ensures |IdsOf(t, name)| ==
              if Active(s.mem.pools[name])
                then Min(Find(s.mem.config.pools, name).value.replicas, |IdsOf(s, name)| + rounds)
              else |IdsOf(s, name)|
  {
    VisitsInRounds(s.mem, cursor, rounds, name);
    ReachedByVisits(s, t, cursor, rounds * |SortedNames(s.mem)|, rounds, name);
  }

  lemma ReachedByVisits(s: Sys, t: Sys, cursor: nat, k: nat, visits: nat, name: string)
    requires OnTrack(s, t, cursor, k) && HealthyPool(s, name)
    requires SortedNames(s.mem) != [] && Visits(SortedNames(s.mem), cursor, k, name) == visits
    ensures |IdsOf(t, name)| == Nearer(s, name, visits)
  {
    IsOnTrack(s, t, cursor, k);
  }

  /** The pool's record count after a number of undisturbed rounds. */
  ghost function AfterRounds(s: Sys, name: string, rounds: nat): nat
    requires name in s.mem.pools
  {
    var target := Find(s.mem.config.pools, name);
    if Active(s.mem.pools[name]) && target.Some? then Min(target.value.replicas, |IdsOf(s, name)| + rounds)
      else |IdsOf(s, name)|
  }

  lemma RoundsReached(s: Sys, t: Sys, cursor: nat, start: nat, rounds: nat)
    requires Steady(s, start) && OnCourse(s, t, cursor, start, rounds * |s.mem.pools|)
    ensures Steady(t, start) && t.mem.pools.Keys == s.mem.pools.Keys && t.mem.config == s.mem.config
    ensures forall name :: name in s.mem.pools ==> |IdsOf(t, name)| == AfterRounds(s, name, rounds)
  {
    IsAtEase(t, start);
    assert |s.mem.pools| == |s.mem.pools.Keys| == |SortedNames(s.mem)|;
    IsOnTrack(s, t, cursor, rounds * |s.mem.pools|);
    forall name | name in s.mem.pools ensures |IdsOf(t, name)| == AfterRounds(s, name, rounds) {
      assert SteadyPool(s, name, start);
      TargetReached(s, t, cursor, rounds, name);
    }
  }

  /** A pool that backs off from a failed observation: only one that is not to run can be steady. */
  lemma SkippedTurn(s: Sys, name: string, start: nat)
    requires Sound(s) && name in s.mem.pools && s.mem.pools[name].retryAt > start
    ensures SteadyPool(s, name, start) ==> Turned(s, s, name, 0, None)
  {
    if SteadyPool(s, name, start) {
      SkippedKeepsUp(s, name);
    }
  }
}
