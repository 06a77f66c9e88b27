/** Passes that nothing disturbs: no request, no movement outside, and every call that can succeed does. */
module Quiet {
  import opened Basics
  import opened Sorting
  import opened Config
  import opened States
  import opened Retiring
  import opened Requests
  import opened Worlds
  import opened Protocol
  import opened Invariants
  import opened Histories
  import opened Awaits

  /** As QuietKept, but the pass may have marked its runs. */
  ghost predicate QuietOver(a: Sys, b: Sys, touched: set<string>) {
    QuietKept(a, b.(pass := a.pass), touched)
  }

  ghost function IdsOf(s: Sys, name: string): set<string> {
    if name in s.mem.pools then PoolRuns(s.mem.runs, s.mem.pools[name].id) else {}
  }

  ghost function ForcedOf(s: Sys, name: string): set<string> {
    set id | id in IdsOf(s, name) && id in s.mem.runs && s.mem.runs[id].force
  }

  /* ---- Draining ---- */

  /** A pool without intent to run, whose containers are not live or may be killed. */
  ghost predicate Drainable(s: Sys, name: string) {
    && name in s.mem.pools && !Active(s.mem.pools[name])
    && forall id :: id in IdsOf(s, name) ==> id in s.mem.runs && (s.mem.runs[id].force || !LiveMine(s.world, id))
  }

  ghost predicate Drying(s: Sys, ids: set<string>) {
    forall id :: id in ids ==> id in s.mem.runs && s.mem.runs[id].retiring && !LiveMine(s.world, id)
  }

  lemma IdleRunsAreRetiring(s: Sys, name: string, id: string)
    requires Sound(s) && name in s.mem.pools && !Active(s.mem.pools[name]) && id in IdsOf(s, name)
    ensures id in s.mem.runs && s.mem.runs[id].retiring
  {
    IsSound(s);
    assert Fits(s.mem, id);
    PoolOfRun(s.mem, name, id);
  }

  lemma DryAfterForce(s0: Sys, s: Sys, name: string)
    requires Sound(s) && Drainable(s0, name) && QuietKept(s0, s, ForcedOf(s0, name))
             && Defused(s, s0.mem.pools[name].id, ForcedOf(s0, name))
    ensures name in s.mem.pools && !Active(s.mem.pools[name]) && Drying(s, IdsOf(s, name))
            && IdsOf(s, name) == IdsOf(s0, name)
  {
    forall id | id in IdsOf(s, name)
      ensures id in s.mem.runs && s.mem.runs[id].retiring && !LiveMine(s.world, id) && id in IdsOf(s0, name)
    {
      IdleRunsAreRetiring(s, name, id);
      if id !in ForcedOf(s0, name) {
        assert SameRun(s0.mem, s.mem, id) && SameContainer(s0.world, s.world, id);
      }
    }
    forall id | id in IdsOf(s0, name) ensures id in IdsOf(s, name) {
      if id !in ForcedOf(s0, name) { assert SameRun(s0.mem, s.mem, id); }
    }
  }

  lemma MarkingDryRunsIsNothing(s: Sys, name: string)
    requires name in s.mem.pools && Find(s.mem.config.pools, name).Some? && Drying(s, IdsOf(s, name))
    ensures MarkRetiring(s.mem, name) == s.mem
  {
    assert MarkRetiring(s.mem, name).runs == s.mem.runs;
  }

  lemma DryIsTractable(s: Sys, name: string, listing: seq<Container>, allow: bool)
    requires Drying(s, IdsOf(s, name)) && AllShown(listing, s)
    ensures Tractable(s, listing, IdsOf(s, name), allow)
    ensures forall id :: id in IdsOf(s, name) ==> id in s.mem.runs && !Stays(listing, s.mem, id)
  {
    forall id | id in IdsOf(s, name)
      ensures id in s.mem.runs && ShownRun(listing, s, id) && !Stays(listing, s.mem, id)
    {
      assert ShownRun(listing, s, id);
    }
  }

  ghost predicate AllGone(s: Sys, ids: set<string>) {
    forall id :: id in ids ==> id !in s.mem.runs
  }

  /** Every run of the pool is gone; nothing else has changed. */
  lemma Drained(s0: Sys, s: Sys, t: Sys, name: string, listing: seq<Container>)
    requires name in s0.mem.pools && QuietKept(s0, s, ForcedOf(s0, name)) && IdsOf(s, name) == IdsOf(s0, name)
    requires QuietOver(s, t, IdsOf(s, name)) && AllSettled(s, t, listing, IdsOf(s, name))
    requires forall id :: id in IdsOf(s, name) ==> id in s.mem.runs && !Stays(listing, s.mem, id)
    ensures QuietOver(s0, t, IdsOf(s0, name)) && AllGone(t, IdsOf(s0, name)) && IdsOf(t, name) == {}
  {
    forall id | id !in IdsOf(s0, name) ensures SameRun(s0.mem, t.mem, id) && SameContainer(s0.world, t.world, id) {
      assert SameRun(s0.mem, s.mem, id) && SameRun(s.mem, t.mem, id);
      assert SameContainer(s0.world, s.world, id) && SameContainer(s.world, t.world, id);
    }
    forall id | id in IdsOf(s, name) ensures id !in t.mem.runs {
      assert SettledRun(s, t, listing, id);
    }
    forall id ensures id !in IdsOf(t, name) {
      if id in IdsOf(s, name) {
        assert SettledRun(s, t, listing, id);
      } else {
        assert SameRun(s.mem, t.mem, id);
      }
    }
  }

  /* ---- Healthy pools ---- */

  /** A run that nothing has to be done about but to watch it, or to bring it up: it is live and not to be killed,
      whether it is wanted or draining, or it is wanted, current and on its way. */
  ghost predicate HealthyRun(s: Sys, name: string, id: string)
    requires name in s.mem.pools
  {
    && id in s.mem.runs
    && (|| (LiveMine(s.world, id) && !s.mem.runs[id].force)
        || (OnItsWay(s, id) && Active(s.mem.pools[name]) && s.mem.runs[id].generation == s.mem.pools[name].generation))
  }

  ghost predicate OnItsWay(s: Sys, id: string)
    requires id in s.mem.runs
  {
    && !s.mem.runs[id].retiring
    && (|| (Mine(s.world, id) && s.world.containers[id].status == Status.Created)
        || (id !in s.world.containers && s.mem.runs[id].phase == Creating))
  }

  /** A pool with healthy runs only, and no more of them than its replicas; one that is to be deleted still has some. */
  ghost predicate HealthyPool(s: Sys, name: string) {
    && name in s.mem.pools
    && Find(s.mem.config.pools, name).Some? && |IdsOf(s, name)| <= Find(s.mem.config.pools, name).value.replicas
    && (s.mem.pools[name].deleting ==> IdsOf(s, name) != {})
    && forall id {:trigger HealthyRun(s, name, id)} :: id in IdsOf(s, name) ==> HealthyRun(s, name, id)
  }

  lemma HealthyIsNotForced(s: Sys, name: string)
    requires Sound(s) && HealthyPool(s, name)
    ensures ForcedOf(s, name) == {}
  {
    IsSound(s);
    forall id | id in IdsOf(s, name) ensures !s.mem.runs[id].force {
      assert Fits(s.mem, id);
      assert HealthyRun(s, name, id);
    }
  }

  lemma StillHealthy(s: Sys, t: Sys, name: string)
    requires HealthyPool(s, name) && QuietKept(s, t, {})
    ensures HealthyPool(t, name) && IdsOf(t, name) == IdsOf(s, name)
  {
    forall id ensures id in IdsOf(t, name) <==> id in IdsOf(s, name) {
      assert SameRun(s.mem, t.mem, id);
    }
    assert IdsOf(t, name) == IdsOf(s, name);
    forall id | id in IdsOf(t, name) ensures HealthyRun(t, name, id) {
      assert HealthyRun(s, name, id);
      assert SameRun(s.mem, t.mem, id) && SameContainer(s.world, t.world, id);
    }
  }

  /** A run that is within the replicas and of the pool's generation is not marked. */
  lemma NobodyIsTooMany(s: Sys, name: string, id: string)
    requires HealthyPool(s, name) && id in IdsOf(s, name) && Active(s.mem.pools[name])
    requires s.mem.runs[id].generation == s.mem.pools[name].generation
    ensures MarkRetiring(s.mem, name).runs[id] == s.mem.runs[id]
  {
    var ids := IdsOf(s, name);
    var ahead := set x | x in ids && RunOrder(s.mem.runs)(x, id) && x != id;
    SubsetIsSmaller(ahead, ids - {id});
  }

  /** In a healthy pool marking retires only live runs of an older generation, or of a pool that is not to run. */
  lemma MarkingRetiresOnlyOldRuns(s: Sys, t: Sys, name: string)
    requires HealthyPool(s, name) && MarkedFrom(s, t, name)
    ensures HealthyPool(t, name) && IdsOf(t, name) == IdsOf(s, name)
    ensures forall id :: id in IdsOf(s, name) ==> Aged(s, t, name, id)
  {
    assert IdsOf(t, name) == IdsOf(s, name);
    forall id | id in IdsOf(s, name) ensures HealthyRun(t, name, id) && Aged(s, t, name, id) {
      assert HealthyRun(s, name, id);
      if Active(s.mem.pools[name]) && s.mem.runs[id].generation == s.mem.pools[name].generation {
        NobodyIsTooMany(s, name, id);
      }
    }
  }

  /** The record may have been marked, if it is old or its pool is not to run. */
  ghost predicate Aged(s: Sys, t: Sys, name: string, id: string) {
    && name in s.mem.pools && id in s.mem.runs && id in t.mem.runs
    && t.mem.runs[id] == s.mem.runs[id].(retiring := t.mem.runs[id].retiring)
    && (s.mem.runs[id].retiring ==> t.mem.runs[id].retiring)
    && (t.mem.runs[id].retiring && !s.mem.runs[id].retiring ==> !CurrentRun(s, name, id))
  }

  /** A run of the generation of a pool that is to run. */
  ghost predicate CurrentRun(s: Sys, name: string, id: string)
    requires name in s.mem.pools && id in s.mem.runs
  {
    Active(s.mem.pools[name]) && s.mem.runs[id].generation == s.mem.pools[name].generation
  }

  lemma HealthyIsTractable(s: Sys, name: string, listing: seq<Container>, allow: bool)
    requires HealthyPool(s, name) && AllShown(listing, s) && (Active(s.mem.pools[name]) ==> allow)
    ensures Tractable(s, listing, IdsOf(s, name), allow) && AllStay(s, listing, IdsOf(s, name))
  {
    forall id | id in IdsOf(s, name)
      ensures id in s.mem.runs && ShownRun(listing, s, id) && Unheld(listing, s.mem, id, allow)
              && Stays(listing, s.mem, id)
    {
      assert HealthyRun(s, name, id);
      assert ShownRun(listing, s, id);
    }
  }

  /** Every run of the pool is still recorded and live; only old ones, or those of a pool that is not to run, were
      retired. */
  ghost predicate BroughtUp(s: Sys, t: Sys, name: string) {
    forall id {:trigger Up(s, t, name, id)} :: id in IdsOf(s, name) ==> Up(s, t, name, id)
  }

  ghost predicate Up(s: Sys, t: Sys, name: string, id: string) {
    && name in s.mem.pools && id in s.mem.runs && id in t.mem.runs && LiveMine(t.world, id)
    && var was, r := s.mem.runs[id], t.mem.runs[id];
    && r == was.(phase := r.phase, remoteId := r.remoteId, retiring := r.retiring)
    && (was.retiring ==> r.retiring)
    && (r.retiring && !was.retiring ==> !CurrentRun(s, name, id))
  }

  lemma SettledIsUp(s0: Sys, s: Sys, t: Sys, u: Sys, name: string, listing: seq<Container>)
    requires name in s0.mem.pools && QuietKept(s0, s, {}) && IdsOf(s, name) == IdsOf(s0, name)
             && IdsOf(t, name) == IdsOf(s, name)
    requires forall id :: id in IdsOf(s, name) ==> Aged(s, t, name, id)
    requires AllSettled(t, u, listing, IdsOf(t, name)) && AllStay(t, listing, IdsOf(t, name))
    ensures BroughtUp(s0, u, name)
  {
    forall id | id in IdsOf(s0, name) ensures Up(s0, u, name, id) {
      assert SettledRun(t, u, listing, id) && SameRun(s0.mem, s.mem, id);
      assert Aged(s, t, name, id);
    }
  }

  /** From where the pass looked around, by way of the marking, to the end of its loop. */
  lemma QuietThroughMarking(s0: Sys, s: Sys, t: Sys, u: Sys, name: string, ids: set<string>)
    requires name in s0.mem.pools && QuietKept(s0, s, {}) && MarkedFrom(s, t, name) && QuietKept(t, u, ids)
             && ids == IdsOf(s, name)
    ensures QuietOver(s0, u, ids)
  {
    forall id | id !in ids ensures SameRun(s0.mem, u.mem, id) && SameContainer(s0.world, u.world, id) {
      assert SameRun(s0.mem, s.mem, id) && SameContainer(s0.world, s.world, id);
      assert SameRun(t.mem, u.mem, id) && SameContainer(t.world, u.world, id);
    }
  }

  lemma SameMembers(s0: Sys, u: Sys, name: string)
    requires name in s0.mem.pools && QuietOver(s0, u, IdsOf(s0, name)) && BroughtUp(s0, u, name)
    ensures IdsOf(u, name) == IdsOf(s0, name)
  {
    forall id ensures id in IdsOf(u, name) <==> id in IdsOf(s0, name) {
      if id in IdsOf(s0, name) {
        assert Up(s0, u, name, id);
      } else {
        assert SameRun(s0.mem, u.mem, id);
      }
    }
  }

  /* ---- The middle of a pass ---- */

  /** From the state before marking to the one after it. */
  ghost predicate MarkedFrom(s: Sys, t: Sys, name: string) {
    && name in s.mem.pools && Find(s.mem.config.pools, name).Some? && s.pass.Some?
    && t == s.(mem := MarkRetiring(s.mem, name), disk := MarkRetiring(s.mem, name),
        pass := Some(s.pass.value.(marked := true)))
  }

  lemma MarkKeepsTrust(s: Sys, t: Sys, name: string, listing: seq<Container>)
    requires MarkedFrom(s, t, name) && AllTrusted(listing, s)
    ensures AllTrusted(listing, t)
  {
    forall id | id in t.mem.runs ensures TrustedRun(listing, t, id) {
      assert TrustedRun(listing, s, id);
    }
  }

  lemma TrustAfterCall(s: Sys, t: Sys, listing: seq<Container>)
    requires Sound(s) && Waited(s, t, {}) && AllTrusted(listing, s)
    ensures AllTrusted(listing, t)
  {
    CallReached(s, t, {}, {});
    forall id | id in t.mem.runs ensures TrustedRun(listing, t, id) {
      assert TrustedRun(listing, s, id);
      TrustElsewhere(s, t, listing, {}, id);
    }
  }

  /** The pool may be drained, or is healthy and may be replenished if it is to run: a quiet pass gets through. */
  ghost predicate Smooth(s: Sys, name: string, allow: bool) {
    Drainable(s, name) || (HealthyPool(s, name) && (Active(s.mem.pools[name]) ==> allow))
  }

  /** How a quiet pass gets from the beginning to the marking: by way of `s` to `t`. */
  ghost predicate Approach(s0: Sys, s: Sys, t: Sys, name: string, listing: seq<Container>) {
    && Sound(s0) && Sound(s) && name in s0.mem.pools && AllShown(listing, s)
    && QuietKept(s0, s, ForcedOf(s0, name)) && Defused(s, s0.mem.pools[name].id, ForcedOf(s0, name))
       && MarkedFrom(s, t, name)
  }

  lemma StillShownAfterMarking(s: Sys, t: Sys, name: string, listing: seq<Container>)
    requires MarkedFrom(s, t, name) && AllShown(listing, s)
    ensures AllShown(listing, t)
  {
    forall id | id in t.mem.runs ensures ShownRun(listing, t, id) {
      assert ShownRun(listing, s, id);
    }
  }

  lemma HealthySoFar(s0: Sys, s: Sys, t: Sys, name: string, listing: seq<Container>, allow: bool)
    requires Approach(s0, s, t, name, listing) && HealthyPool(s0, name) && (Active(s0.mem.pools[name]) ==> allow)
    ensures QuietKept(s0, s, {}) && IdsOf(s, name) == IdsOf(s0, name) && IdsOf(t, name) == IdsOf(s, name)
    ensures forall id :: id in IdsOf(s, name) ==> Aged(s, t, name, id)
    ensures Tractable(t, listing, IdsOf(s, name), allow) && AllStay(t, listing, IdsOf(s, name))
  {
    HealthyIsNotForced(s0, name);
    StillHealthy(s0, s, name);
    MarkingRetiresOnlyOldRuns(s, t, name);
    StillShownAfterMarking(s, t, name, listing);
    HealthyIsTractable(t, name, listing, allow);
  }

  lemma DrySoFar(s0: Sys, s: Sys, t: Sys, name: string, listing: seq<Container>, allow: bool)
    requires Approach(s0, s, t, name, listing) && Drainable(s0, name)
    ensures t.mem == s.mem && IdsOf(s, name) == IdsOf(s0, name) && Tractable(t, listing, IdsOf(s, name), allow)
    ensures forall id :: id in IdsOf(s, name) ==> id in s.mem.runs && !Stays(listing, s.mem, id)
  {
    DryAfterForce(s0, s, name);
    MarkingDryRunsIsNothing(s, name);
    StillShownAfterMarking(s, t, name, listing);
    DryIsTractable(t, name, listing, allow);
  }

  lemma SmoothSoFar(s0: Sys, s: Sys, t: Sys, name: string, listing: seq<Container>, allow: bool)
    requires Approach(s0, s, t, name, listing) && Smooth(s0, name, allow)
    ensures Tractable(t, listing, IdsOf(s, name), allow)
    ensures HealthyPool(s0, name) ==> AllStay(t, listing, IdsOf(s, name))
  {
    if HealthyPool(s0, name) && (Active(s0.mem.pools[name]) ==> allow) {
      HealthySoFar(s0, s, t, name, listing, allow);
    } else {
      DrySoFar(s0, s, t, name, listing, allow);
    }
  }

  /** What a quiet pass makes of a smooth pool: all runs gone, or all of them up. */
  ghost predicate Smoothed(s0: Sys, t: Sys, name: string) {
    && QuietOver(s0, t, IdsOf(s0, name))
    && (Drainable(s0, name) ==> AllGone(t, IdsOf(s0, name)) && IdsOf(t, name) == {})
    && (HealthyPool(s0, name) ==> IdsOf(t, name) == IdsOf(s0, name) && BroughtUp(s0, t, name))
  }

  lemma HealthyToTheEnd(s0: Sys, s: Sys, t: Sys, u: Sys, name: string, listing: seq<Container>, allow: bool)
    requires Approach(s0, s, t, name, listing) && HealthyPool(s0, name) && (Active(s0.mem.pools[name]) ==> allow)
    requires QuietKept(t, u, IdsOf(s, name)) && AllSettled(t, u, listing, IdsOf(s, name))
    ensures QuietOver(s0, u, IdsOf(s0, name)) && IdsOf(u, name) == IdsOf(s0, name) && BroughtUp(s0, u, name)
  {
    HealthySoFar(s0, s, t, name, listing, allow);
    QuietThroughMarking(s0, s, t, u, name, IdsOf(s, name));
    SettledIsUp(s0, s, t, u, name, listing);
    SameMembers(s0, u, name);
  }

  lemma DryToTheEnd(s0: Sys, s: Sys, t: Sys, u: Sys, name: string, listing: seq<Container>, allow: bool)
    requires Approach(s0, s, t, name, listing) && Drainable(s0, name)
    requires QuietKept(t, u, IdsOf(s, name)) && AllSettled(t, u, listing, IdsOf(s, name))
    ensures QuietOver(s0, u, IdsOf(s0, name)) && AllGone(u, IdsOf(s0, name)) && IdsOf(u, name) == {}
  {
    DrySoFar(s0, s, t, name, listing, allow);
    forall id | id in IdsOf(s, name) ensures SettledRun(s, u, listing, id) {
      assert SettledRun(t, u, listing, id);
    }
    assert QuietOver(s, u, IdsOf(s, name)) by {
      forall id | id !in IdsOf(s, name) ensures SameRun(s.mem, u.mem, id) && SameContainer(s.world, u.world, id) {
        assert SameRun(t.mem, u.mem, id) && SameContainer(t.world, u.world, id);
      }
    }
    Drained(s0, s, u, name, listing);
  }

  /** A pool that is both has no runs and is not to be deleted. */
  lemma BothIsEmpty(s: Sys, name: string)
    requires Sound(s) && Drainable(s, name) && HealthyPool(s, name)
    ensures IdsOf(s, name) == {} && !s.mem.pools[name].deleting
  {
    HealthyIsNotForced(s, name);
    forall id ensures id !in IdsOf(s, name) {
      assert id in IdsOf(s, name) ==> HealthyRun(s, name, id) && id !in ForcedOf(s, name);
    }
    assert IdsOf(s, name) == {};
  }

  lemma SmoothToTheEnd(s0: Sys, s: Sys, t: Sys, u: Sys, name: string, listing: seq<Container>, allow: bool)
    requires Approach(s0, s, t, name, listing) && Smooth(s0, name, allow)
    requires QuietKept(t, u, IdsOf(s, name)) && AllSettled(t, u, listing, IdsOf(s, name))
    ensures Smoothed(s0, u, name)
  {
    if HealthyPool(s0, name) && (Active(s0.mem.pools[name]) ==> allow) {
      HealthyToTheEnd(s0, s, t, u, name, listing, allow);
      if Drainable(s0, name) {
        BothIsEmpty(s0, name);
      }
    } else {
      DryToTheEnd(s0, s, t, u, name, listing, allow);
    }
  }

  /* ---- A whole pass ---- */

  /** No container carries the manager's label without belonging to a record. */
  ghost predicate NoStrays(s: Sys) {
    forall n :: n in s.world.containers && s.world.containers[n].manager == Some(s.mem.managerId) ==>
      s.world.containers[n].run.Some? && s.world.containers[n].run.value in s.mem.runs
  }

  lemma NothingUnrecorded(s: Sys, listing: seq<Container>)
    requires Sound(s) && NoStrays(s) && ListingOf(listing, s.world, s.mem.managerId)
    ensures Unrecorded(listing, s.mem.runs) == 0
  {
    NamesAreKeys(s);
    assert StraysOf(s) == {};
    ListingCountsStrays(listing, s.world, s.mem.managerId, s.mem.runs);
  }

  ghost predicate SamePass(s: Sys, mid: Sys) {
    && s.pass.Some? && mid.pass.Some?
    && mid.pass.value.state == s.pass.value.state && mid.pass.value.pool == s.pass.value.pool
       && mid.pass.value.name == s.pass.value.name
  }

  /** What a quiet pass over a smooth pool does, from `s` by way of `mid` to `t`. */
  ghost predicate QuietPass(s: Sys, mid: Sys, t: Sys, name: string, allow: bool, ok: bool, exits: nat,
      unrecorded: nat, added: Option<string>) {
    && Smoothed(s, mid, name) && SamePass(s, mid) && mid.calls.strays == Some(unrecorded)
    && (NoStrays(s) ==> unrecorded == 0) && (!ok ==> t == mid) && t.pass.Some? && !t.pass.value.interrupted
    && (HealthyPool(s, name) && ok ==> exits == 0)
    && if Deletable(mid) then
         && (ok <==> mid.file == Some(mid.mem.fileHash))
         && (ok ==> Some(t.mem) == PoolDeleted(mid.mem, name) && t.file == Some(t.mem.fileHash))
       else
         && ok
         && (added.Some? <==> allow && exits == 0 && HasRoom(mid, unrecorded))
         && if added.Some? then AddsRun(mid, t, added.value) else t == mid
  }

  /** The first listing changes nothing but what the pass knows. */
  lemma SameStart(b: Sys, s: Sys, mid: Sys, t: Sys, name: string, allow: bool, ok: bool, exits: nat, unrecorded: nat,
      added: Option<string>)
    requires s == b.(calls := s.calls) && QuietPass(s, mid, t, name, allow, ok, exits, unrecorded, added)
    ensures QuietPass(b, mid, t, name, allow, ok, exits, unrecorded, added)
  {
    SamePools(b, s, name);
    assert QuietOver(b, mid, IdsOf(b, name)) by {
      forall id | id !in IdsOf(b, name) ensures SameRun(b.mem, mid.mem, id) && SameContainer(b.world, mid.world, id) {
        assert SameRun(s.mem, mid.mem, id) && SameContainer(s.world, mid.world, id);
      }
    }
    if HealthyPool(b, name) {
      forall id | id in IdsOf(b, name) ensures Up(b, mid, name, id) {
        assert Up(s, mid, name, id);
      }
    }
  }

  lemma IdleIsSmoothed(s: Sys, name: string)
    requires Sound(s) && name in s.mem.pools && IdsOf(s, name) == {}
    ensures Smoothed(s, s, name)
  {
    assert AllGone(s, {}) && BroughtUp(s, s, name);
    forall id ensures SameRun(s.mem, s.mem, id) && SameContainer(s.world, s.world, id) {
    }
  }

  /* ---- A whole tick ---- */

  ghost predicate Begun(s: Sys, b: Sys, name: string, at: nat) {
    && name in s.mem.pools && Find(s.mem.config.pools, name).Some?
    && b == s.(pass := Some(Pass(name, at, s.mem.pools[name].retryAt, Find(s.mem.config.pools, name).value,
        s.mem.pools[name], false, false, false)), counted := 0, calls := NoCalls)
  }

  ghost predicate EndedAs(d: Sys, t: Sys, name: string, ending: Ending, retrying: bool) {
    && t.mem.pools.Keys == d.mem.pools.Keys && t.mem.config == d.mem.config && t.mem.fileHash == d.mem.fileHash
    && t.mem.managerId == d.mem.managerId && t.file == d.file && t.world == d.world
       && t.mem.runs.Keys == d.mem.runs.Keys
    && (forall n :: n in d.mem.pools && n != name ==> t.mem.pools[n] == d.mem.pools[n])
    && (name in d.mem.pools ==>
          && SameTable(t.mem.pools[name], d.mem.pools[name])
          && (ending == Succeeded(false) ==> t.mem.pools[name].retryAt == if retrying
            then d.mem.pools[name].retryAt else 0))
    && (!ending.Broken? ==> t.mem.runs == d.mem.runs)
    && (forall id :: id in d.mem.runs && (name !in d.mem.pools || d.mem.runs[id].poolId != d.mem.pools[name].id) ==>
        t.mem.runs[id] == d.mem.runs[id])
  }

  lemma EndIsBookkeeping(d: Sys, t: Sys, name: string, ending: Ending, retrying: bool, at: nat, jitter: nat,
      observed: nat)
    requires t == d.(mem := EndState(d.mem, name, ending, retrying, at, jitter, observed), disk := t.disk, pass := None)
    ensures EndedAs(d, t, name, ending, retrying)
  {
    if name in d.mem.pools {
      EndKeepsPool(d.mem.pools[name], ending, retrying, at, jitter, observed);
    }
  }

  /** The pool's runs are all gone, and a pool that was to be deleted is gone itself if config.toml is clean. */
  ghost predicate DrainedOut(s: Sys, t: Sys, name: string) {
    && name in s.mem.pools
    && (forall id :: id in IdsOf(s, name) ==> id !in t.mem.runs)
    && (forall id :: id !in IdsOf(s, name) ==> SameRun(s.mem, t.mem, id))
    && (s.mem.pools[name].deleting && s.file == Some(s.mem.fileHash) ==>
          && t.mem.pools.Keys == s.mem.pools.Keys - {name}
          && t.mem.config == s.mem.config.(pools := Without(s.mem.config.pools, name))
          && t.file == Some(Rendered(t.mem.config)))
    && (!(s.mem.pools[name].deleting && s.file == Some(s.mem.fileHash)) ==>
          t.mem.pools.Keys == s.mem.pools.Keys && t.mem.config == s.mem.config && t.file == s.file)
  }

  lemma QuietTurnDrains(s: Sys, b: Sys, mid: Sys, d: Sys, t: Sys, name: string, at: nat, ok: bool, exits: nat,
      unrecorded: nat, added: Option<string>)
    requires Begun(s, b, name, at) && Drainable(s, name)
    requires QuietPass(b, mid, d, name, b.pass.value.MayReplenish(), ok, exits, unrecorded, added)
    requires EndedAs(d, t, name, if ok then Succeeded(exits > 0) else Broken, b.pass.value.deadline > at)
    ensures DrainedOut(s, t, name)
  {
    SamePools(s, b, name);
    forall id | id !in IdsOf(s, name) ensures SameRun(s.mem, t.mem, id) {
      assert SameRun(b.mem, mid.mem, id);
    }
  }

  /** How many runs the pool is to have. */
  ghost function TargetOf(s: Sys, name: string): nat
    requires name in s.mem.pools && Find(s.mem.config.pools, name).Some?
  {
    if Active(s.mem.pools[name]) then Find(s.mem.config.pools, name).value.replicas else 0
  }

  /** The pool's runs are all up, and one more is on its way if the pool is short and there is room for it. */
  ghost predicate KeptUp(s: Sys, t: Sys, name: string, unrecorded: nat, added: Option<string>) {
    && name in s.mem.pools && name in t.mem.pools && Find(s.mem.config.pools, name).Some?
    && BroughtUp(s, t, name)
    && (added.Some? <==>
          |IdsOf(s, name)| < TargetOf(s, name) && |s.mem.runs| + unrecorded < s.mem.config.manager.maxRunners)
    && (added.Some? ==> added.value !in s.mem.runs && HealthyRun(t, name, added.value))
    && IdsOf(t, name) == IdsOf(s, name) + (if added.Some? then {added.value} else {})
    && (forall id :: id !in IdsOf(t, name) ==> SameRun(s.mem, t.mem, id) && SameContainer(s.world, t.world, id))
    && (NoStrays(s) ==> unrecorded == 0)
  }

  ghost predicate SameTables(s: Sys, t: Sys, name: string) {
    && t.mem.managerId == s.mem.managerId && t.mem.config == s.mem.config && t.file == s.file
    && t.mem.pools.Keys == s.mem.pools.Keys
    && (forall n :: n in s.mem.pools ==> SameTable(t.mem.pools[n], s.mem.pools[n]))
    && (forall n :: n in s.mem.pools && n != name ==> t.mem.pools[n].retryAt == s.mem.pools[n].retryAt)
  }

  lemma UpInTheMiddle(s: Sys, b: Sys, mid: Sys, name: string, at: nat)
    requires Begun(s, b, name, at) && HealthyPool(s, name) && Smoothed(b, mid, name)
    ensures BroughtUp(s, mid, name) && IdsOf(mid, name) == IdsOf(s, name) && SameTables(s, mid, name)
    ensures mid.mem.pools[name].retryAt == s.mem.pools[name].retryAt
    ensures |mid.mem.runs| == |s.mem.runs| && mid.mem.runs.Keys == s.mem.runs.Keys
    ensures forall id :: id !in IdsOf(s, name) ==> SameRun(s.mem, mid.mem, id) && SameContainer(s.world, mid.world, id)
  {
    SamePools(s, b, name);
    forall id | id in IdsOf(s, name) ensures Up(s, mid, name, id) {
      assert Up(b, mid, name, id);
    }
    forall id ensures id in mid.mem.runs <==> id in s.mem.runs {
      if id in IdsOf(s, name) {
        assert Up(b, mid, name, id);
      } else {
        assert SameRun(b.mem, mid.mem, id);
      }
    }
    assert mid.mem.runs.Keys == s.mem.runs.Keys;
    assert |mid.mem.runs.Keys| == |mid.mem.runs| && |s.mem.runs.Keys| == |s.mem.runs|;
    forall id | id !in IdsOf(s, name) ensures SameRun(s.mem, mid.mem, id) && SameContainer(s.world, mid.world, id) {
      assert SameRun(b.mem, mid.mem, id) && SameContainer(b.world, mid.world, id);
    }
  }

  lemma SamePools(s: Sys, b: Sys, name: string)
    requires b == s.(pass := b.pass, counted := b.counted, calls := b.calls)
    ensures IdsOf(b, name) == IdsOf(s, name) && Drainable(b, name) == Drainable(s, name)
    ensures HealthyPool(b, name) == HealthyPool(s, name)
  {
    assert IdsOf(b, name) == IdsOf(s, name);
    if name in s.mem.pools {
      forall id ensures HealthyRun(b, name, id) == HealthyRun(s, name, id) {
      }
    }
  }

  lemma OneMore(s: Sys, mid: Sys, d: Sys, name: string, id: string)
    requires HealthyPool(s, name) && BroughtUp(s, mid, name) && IdsOf(mid, name) == IdsOf(s, name)
             && SameTables(s, mid, name)
    requires forall x :: x !in IdsOf(s, name) ==> SameRun(s.mem, mid.mem, x) && SameContainer(s.world, mid.world, x)
    requires AddsRun(mid, d, id) && mid.pass.Some? && mid.pass.value.state == s.mem.pools[name]
             && Active(s.mem.pools[name])
    ensures BroughtUp(s, d, name) && IdsOf(d, name) == IdsOf(s, name) + {id} && SameTables(s, d, name)
    ensures d.mem.pools == mid.mem.pools && id !in s.mem.runs && HealthyRun(d, name, id)
    ensures forall x :: x !in IdsOf(d, name) ==> SameRun(s.mem, d.mem, x) && SameContainer(s.world, d.world, x)
  {
    assert id !in IdsOf(s, name);
    assert SameRun(s.mem, mid.mem, id);
    assert IdsOf(d, name) == IdsOf(s, name) + {id};
    forall x | x in IdsOf(s, name) ensures Up(s, d, name, x) {
      assert Up(s, mid, name, x);
    }
    forall x | x !in IdsOf(d, name) ensures SameRun(s.mem, d.mem, x) && SameContainer(s.world, d.world, x) {
      assert SameRun(s.mem, mid.mem, x) && SameContainer(s.world, mid.world, x);
    }
  }

  lemma RoomInTheMiddle(s: Sys, b: Sys, mid: Sys, d: Sys, name: string, at: nat, allow: bool, exits: nat,
      unrecorded: nat, added: Option<string>)
    requires Begun(s, b, name, at) && HealthyPool(s, name) && (Active(s.mem.pools[name]) ==> allow)
    requires QuietPass(b, mid, d, name, allow, true, exits, unrecorded, added)
    requires IdsOf(mid, name) == IdsOf(s, name) && |mid.mem.runs| == |s.mem.runs| && mid.mem.config == s.mem.config
             && name in mid.mem.pools
    requires mid.mem.pools[name].id == s.mem.pools[name].id
    ensures if added.Some? then AddsRun(mid, d, added.value) && Active(s.mem.pools[name]) else d == mid
    ensures added.Some? <==>
              |IdsOf(s, name)| < TargetOf(s, name) && |s.mem.runs| + unrecorded < s.mem.config.manager.maxRunners
    ensures (NoStrays(s) ==> unrecorded == 0) && exits == 0
  {
    SamePools(s, b, name);
  }

  lemma PassKeepsUp(s: Sys, b: Sys, mid: Sys, d: Sys, name: string, at: nat, allow: bool, exits: nat,
      unrecorded: nat, added: Option<string>)
    requires Begun(s, b, name, at) && HealthyPool(s, name) && (Active(s.mem.pools[name]) ==> allow)
    requires QuietPass(b, mid, d, name, allow, true, exits, unrecorded, added)
    ensures KeptUp(s, d, name, unrecorded, added) && SameTables(s, d, name) && exits == 0
    ensures d.mem.pools[name].retryAt == s.mem.pools[name].retryAt
  {
    UpInTheMiddle(s, b, mid, name, at);
    RoomInTheMiddle(s, b, mid, d, name, at, allow, exits, unrecorded, added);
    if added.Some? {
      OneMore(s, mid, d, name, added.value);
    } else {
      assert IdsOf(d, name) == IdsOf(s, name) + {};
    }
  }

  lemma BooksKeepUp(s: Sys, d: Sys, t: Sys, name: string, unrecorded: nat, added: Option<string>, retrying: bool)
    requires KeptUp(s, d, name, unrecorded, added) && SameTables(s, d, name)
             && EndedAs(d, t, name, Succeeded(false), retrying)
    ensures KeptUp(s, t, name, unrecorded, added) && SameTables(s, t, name)
  {
    assert IdsOf(t, name) == IdsOf(d, name);
    forall id | id in IdsOf(s, name) ensures Up(s, t, name, id) {
      assert Up(s, d, name, id);
    }
    forall id | id !in IdsOf(t, name) ensures SameRun(s.mem, t.mem, id) && SameContainer(s.world, t.world, id) {
      assert SameRun(s.mem, d.mem, id) && SameContainer(s.world, d.world, id);
    }
  }

  /** One quiet pass over a healthy pool, from before it began to after its bookkeeping. */
  lemma QuietTurnKeepsUp(s: Sys, b: Sys, mid: Sys, d: Sys, t: Sys, name: string, at: nat, allow: bool, exits: nat,
      unrecorded: nat, added: Option<string>)
    requires Begun(s, b, name, at) && HealthyPool(s, name) && (Active(s.mem.pools[name]) ==> allow)
    requires QuietPass(b, mid, d, name, allow, true, exits, unrecorded, added)
    requires EndedAs(d, t, name, Succeeded(exits > 0), b.pass.value.deadline > at)
    ensures KeptUp(s, t, name, unrecorded, added) && SameTables(s, t, name)
    ensures t.mem.pools[name].retryAt == s.mem.pools[name].retryAt || t.mem.pools[name].retryAt == 0
  {
    PassKeepsUp(s, b, mid, d, name, at, allow, exits, unrecorded, added);
    BooksKeepUp(s, d, t, name, unrecorded, added, b.pass.value.deadline > at);
  }

  /** A pool that backs off from a failed observation and is left alone keeps its runs. */
  lemma SkippedKeepsUp(s: Sys, name: string)
    requires Sound(s) && HealthyPool(s, name) && !Active(s.mem.pools[name])
    ensures KeptUp(s, s, name, 0, None) && SameTables(s, s, name)
  {
    forall id | id in IdsOf(s, name) ensures Up(s, s, name, id) {
      assert HealthyRun(s, name, id);
    }
    assert IdsOf(s, name) + {} == IdsOf(s, name);
  }

  lemma PoolIsConfigured(s: Sys, name: string)
    requires Sound(s) && name in s.mem.pools
    ensures Find(s.mem.config.pools, name).Some?
  {
    IsSound(s);
  }
}
