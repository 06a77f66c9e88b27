/** What may have changed when a call into the manager or out of it returns. */
module Awaits {
  import opened Basics
  import opened Config
  import opened States
  import opened Requests
  import opened Worlds
  import opened Protocol
  import opened Invariants
  import opened Histories
  import opened Hosts

  lemma EvolvesChains(a: State, b: State, c: State)
    requires Evolves(a, b) && Evolves(b, c)
    ensures Evolves(a, c)
  {
  }

  lemma EvolvesItself(a: State)
    ensures Evolves(a, a)
  {
  }

  lemma NearEvolves(a: State, b: State)
    requires Near(a, b)
    ensures Evolves(a, b) && Evolves(b, a)
  {
    forall id | id in a.runs ensures KeepsIntent(a.runs[id], b.runs[id]) && KeepsIntent(b.runs[id], a.runs[id]) {
      assert NearRun(a, b, id);
    }
  }

  /* ---- One served request ---- */

  ghost predicate ConfigRequest(req: Request) {
    req.ChangesConfig() || req.Apply?
  }

  /** The whole effect of a request, successful or not. After every mutating one memory equals the store;
      a refused one leaves the store as it was, or with exactly the proposed configuration committed. */
  ghost predicate Served(a: Sys, req: Request, ids: map<string, string>, ok: bool, b: Sys) {
    if req.Status? then
      b == a.(mem := if ok then a.mem else a.disk)
    else if ConfigRequest(req) then
      var proposed := Proposed(a.mem, a.file, req, ids);
      && (proposed.Some? ==> FreshIds(a.mem, req, ids, a.poolIds))
      && b == a.(mem := b.mem, disk := b.mem, file := b.file, poolIds := b.poolIds, pass := Interrupt(a.pass))
      && (proposed.None? ==> !ok && b.disk == a.disk && b.file == a.file && b.poolIds == a.poolIds)
      && (proposed.Some? ==>
            && b.poolIds == a.poolIds + ids.Values
            && b.disk == (if ok then Finished(proposed.value, req) else proposed.value)
            && (b.file == Some(Rendered(proposed.value.config)) || (!ok && b.file == a.file)))
    else
      var intended := IntentOf(a.mem, req);
      && (ok <==> intended.Some?)
      && b == a.(mem := b.mem, disk := b.mem, pass := Interrupt(a.pass))
      && b.disk == (if ok then intended.value else a.disk)
  }

  /** What every served request leaves alone. */
  ghost predicate RequestKeeps(a: Sys, b: Sys) {
    && b.world == a.world && b.issued == a.issued && b.inflight == a.inflight && b.approved == a.approved
       && b.calls == a.calls
    && a.poolIds <= b.poolIds
    && (b.pass == a.pass || b.pass == Interrupt(a.pass))
    && Evolves(a.disk, b.disk)
    && (b.pass != Interrupt(a.pass) ==> b.disk == a.disk)
    && (b.mem == b.disk || (b.mem == a.mem && b.disk == a.disk))
  }

  lemma ServedKeeps(a: Sys, req: Request, ids: map<string, string>, ok: bool, b: Sys)
    requires Inv(a) && Served(a, req, ids, ok, b)
    ensures RequestKeeps(a, b)
  {
    EvolvesItself(a.disk);
    NearEvolves(a.mem, a.disk);
    if ConfigRequest(req) {
      ServedConfigEvolves(a, req, ids, ok, b);
    } else if !req.Status? && ok {
      IntentKeepsInvariant(a.mem, req);
      EvolvesChains(a.disk, a.mem, b.disk);
    }
  }

  lemma ServedConfigEvolves(a: Sys, req: Request, ids: map<string, string>, ok: bool, b: Sys)
    requires Inv(a) && Served(a, req, ids, ok, b) && ConfigRequest(req)
    ensures Evolves(a.disk, b.disk)
  {
    EvolvesItself(a.disk);
    NearEvolves(a.mem, a.disk);
    var proposed := Proposed(a.mem, a.file, req, ids);
    if proposed.Some? {
      ProposalKeepsInvariant(a.mem, a.file, req, ids, a.poolIds);
      SameRunsEvolves(a.mem, proposed.value);
      FinishKeepsInvariant(proposed.value, req);
      EvolvesChains(a.disk, a.mem, proposed.value);
      if ok { EvolvesChains(a.disk, proposed.value, b.disk); }
    }
  }

  lemma FinishedIsServed(a: Sys, req: Request, ids: map<string, string>, c: Sys, b: Sys)
    requires ConfigRequest(req) && !req.Status? && FreshIds(a.mem, req, ids, a.poolIds)
    requires var proposed := Proposed(a.mem, a.file, req, ids);
             proposed.Some? && c == a.(mem := proposed.value, disk := proposed.value,
                 file := Some(Rendered(proposed.value.config)),
                                       poolIds := a.poolIds + ids.Values, pass := Interrupt(a.pass))
    requires b == c.(mem := Finished(c.mem, req), disk := Finished(c.mem, req), pass := Interrupt(c.pass))
    ensures Served(a, req, ids, true, b)
  {
  }

  lemma RefusalIsServed(a: Sys, req: Request, ids: map<string, string>, b: Sys)
    requires ConfigRequest(req) && !req.Status? && Proposed(a.mem, a.file, req, ids).None?
    requires b == a.(mem := a.disk, pass := Interrupt(a.pass))
    ensures Served(a, req, ids, false, b)
  {
  }

  /** The configuration was committed, but writing config.toml failed. */
  lemma FailedWriteIsServed(a: Sys, req: Request, ids: map<string, string>, b: Sys)
    requires ConfigRequest(req) && !req.Status? && FreshIds(a.mem, req, ids, a.poolIds)
    requires Proposed(a.mem, a.file, req, ids) == Some(b.disk)
    requires b == a.(mem := b.disk, disk := b.disk, file := b.file, poolIds := a.poolIds + ids.Values,
                     pass := Interrupt(a.pass))
    requires b.file == a.file || b.file == Some(Rendered(b.disk.config))
    ensures Served(a, req, ids, false, b)
  {
  }

  lemma ChangeIsAllOrNothing(a: Sys, req: Request, ids: map<string, string>, ok: bool, b: Sys)
    requires Inv(a) && Served(a, req, ids, ok, b) && ConfigRequest(req)
    ensures b.mem == b.disk && StateInv(b.disk)
    ensures !ok && (b.disk != a.disk || b.file != a.file) ==>
              && Proposed(a.mem, a.file, req, ids) == Some(b.disk) && b.disk.runs == a.mem.runs
              && (b.file == a.file || b.file == Some(Rendered(b.disk.config)))
    ensures ok ==> Proposed(a.mem, a.file, req, ids).Some? && b.file == Some(Rendered(b.disk.config))
    ensures ok ==> SameCommit(b.disk, Proposed(a.mem, a.file, req, ids).value)
  {
    var proposed := Proposed(a.mem, a.file, req, ids);
    if proposed.Some? {
      ProposalKeepsInvariant(a.mem, a.file, req, ids, a.poolIds);
      FinishKeepsInvariant(proposed.value, req);
      FinishKeepsCommit(proposed.value, req);
    }
  }

  /** After every request but a Status memory equals the store. A request that fails leaves the store and config.toml
      as they were, or has committed a whole valid configuration, one revision further, whose text may be missing
      from config.toml: only the write of the file failed. */
  lemma RequestIsAllOrNothing(a: Sys, req: Request, ids: map<string, string>, ok: bool, b: Sys)
    requires Inv(a) && Served(a, req, ids, ok, b)
    ensures req.Mutating() ==> b.mem == b.disk
    ensures !ok && (b.disk != a.disk || b.file != a.file) ==>
              && ConfigRequest(req) && Proposed(a.mem, a.file, req, ids) == Some(b.disk)
              && b.disk.revision == a.disk.revision + 1 && ValidConfig(b.disk.config)
                 && b.disk.fileHash == Rendered(b.disk.config)
              && b.disk.runs == a.mem.runs && (b.file == a.file || b.file == Some(b.disk.fileHash))
    ensures ok && ConfigRequest(req) ==>
              b.disk.revision == a.disk.revision + 1 && b.file == Some(Rendered(b.disk.config))
              && b.disk.fileHash == b.file.value
    ensures StateInv(b.disk)
  {
    if ConfigRequest(req) {
      ChangeIsAllOrNothing(a, req, ids, ok, b);
      if Proposed(a.mem, a.file, req, ids).Some? {
        ProposalsAreCounted(a.mem, a.file, req, ids);
      }
    } else if !req.Status? && ok {
      IntentKeepsInvariant(a.mem, req);
    }
  }

  /* ---- Time passing during an external call ---- */

  /** No answer of this pass is forgotten, nor the number of stray containers once it is known. */
  ghost predicate CallsGrow(a: Calls, b: Calls) {
    a.answered <= b.answered && (a.strays.Some? ==> b.strays == a.strays)
  }

  ghost predicate Waited(a: Sys, b: Sys, touched: set<string>) {
    && CallsGrow(a.calls, b.calls)
    && b.issued == a.issued && b.inflight == a.inflight && b.approved == a.approved && a.poolIds <= b.poolIds
    && a.pass.Some? && b.pass.Some?
    && (b.pass == a.pass || b.pass == Interrupt(a.pass))
    && Calm(a.issued, a.world, b.world, touched) && b.world.dirs == a.world.dirs
    && Evolves(a.disk, b.disk)
    && (!b.pass.value.interrupted ==> b.disk == a.disk)
    && (b.mem == b.disk || (b.mem == a.mem && b.disk == a.disk))
  }

  lemma WaitedNothing(a: Sys)
    requires a.pass.Some?
    ensures Waited(a, a, {})
  {
    CalmToItself(a.issued, a.world);
    EvolvesItself(a.disk);
  }

  lemma RequestWaited(a: Sys, b: Sys)
    requires RequestKeeps(a, b) && a.pass.Some?
    ensures Waited(a, b, {})
  {
    CalmToItself(a.issued, a.world);
  }

  lemma DriftWaited(a: Sys, b: Sys)
    requires a.pass.Some? && b == a.(world := b.world, file := b.file) && Drift(a.issued, a.world, b.world)
    ensures Waited(a, b, {})
  {
    DriftIsCalm(a.issued, a.world, b.world);
    EvolvesItself(a.disk);
  }

  lemma WaitedChains(a: Sys, b: Sys, c: Sys, x: set<string>, y: set<string>)
    requires Waited(a, b, x) && Waited(b, c, y)
    ensures Waited(a, c, x + y)
  {
    CalmChains(a.issued, a.world, b.world, c.world, x, y);
    EvolvesChains(a.disk, b.disk, c.disk);
  }

  /** Memory after an uninterrupted wait: as it was, or fallen back to the store by a failed Status;
      in both cases a record differs at most in its observed phase and remote id. */
  lemma RecordAfterWait(a: Sys, b: Sys, touched: set<string>, id: string)
    requires Inv(a) && Waited(a, b, touched) && !b.pass.value.interrupted && id in a.mem.runs
    ensures id in b.mem.runs && NearRun(a.mem, b.mem, id) && b.mem.pools == a.mem.pools && b.mem.config == a.mem.config
  {
    assert NearRun(a.mem, a.disk, id);
  }

  /* ---- A stretch of a pass ---- */

  ghost predicate RunUntouched(a: Sys, b: Sys, id: string) {
    && id in a.mem.runs && id in b.mem.runs
    && a.mem.runs[id].poolId == b.mem.runs[id].poolId
    && (b.pass.Some? && !b.pass.value.interrupted ==> NearRun(a.mem, b.mem, id))
  }

  /** What a stretch of a pass leaves alone: the pass itself, and every run it did not touch. */
  ghost predicate Reached(a: Sys, b: Sys, touched: set<string>) {
    && CallsGrow(a.calls, b.calls)
    && b.issued == a.issued && b.inflight == a.inflight && b.mem.managerId == a.mem.managerId
    && a.pass.Some? && b.pass.Some?
    && (b.pass == a.pass || b.pass == Interrupt(a.pass))
    && Calm(a.issued, a.world, b.world, touched)
    && (forall id {:trigger RunUntouched(a, b, id)} :: id in a.mem.runs && id !in touched ==> RunUntouched(a, b, id))
    && b.mem.runs.Keys <= a.mem.runs.Keys
  }

  lemma ReachedItself(a: Sys)
    requires a.pass.Some?
    ensures Reached(a, a, {})
  {
    CalmToItself(a.issued, a.world);
  }

  lemma WaitReached(a: Sys, b: Sys, touched: set<string>)
    requires Inv(a) && Waited(a, b, touched)
    ensures Reached(a, b, touched)
  {
    NearGivesIdentities(a.mem, a.disk);
    forall id | id in a.mem.runs ensures RunUntouched(a, b, id) {
      if !b.pass.value.interrupted {
        RecordAfterWait(a, b, touched, id);
      }
    }
  }

  lemma ReachedChains(a: Sys, b: Sys, c: Sys, x: set<string>, y: set<string>)
    requires Reached(a, b, x) && Reached(b, c, y)
    ensures Reached(a, c, x + y)
  {
    CalmChains(a.issued, a.world, b.world, c.world, x, y);
    forall id | id in a.mem.runs && id !in x + y ensures RunUntouched(a, c, id) {
      assert RunUntouched(a, b, id) && RunUntouched(b, c, id);
    }
  }

  /* ---- External calls ---- */

  lemma ServedWaited(a: Sys, req: Request, ids: map<string, string>, ok: bool, b: Sys)
    requires Sound(a) && a.pass.Some? && Served(a, req, ids, ok, b)
    ensures Waited(a, b, {})
  {
    IsSound(a);
    ServedKeeps(a, req, ids, ok, b);
    RequestWaited(a, b);
  }

  lemma WaitedAgain(a: Sys, b: Sys, c: Sys)
    requires Waited(a, b, {}) && Waited(b, c, {})
    ensures Waited(a, c, {})
  {
    WaitedChains(a, b, c, {}, {});
    var none: set<string> := {};
    assert none + none == none;
  }

  lemma MayStayAsItIs(s: Sys)
    requires Sound(s)
    ensures Drift(s.issued, s.world, s.world)
  {
    IsSound(s);
    DriftFromItself(s.issued, s.disk, s.world);
  }

  lemma NamesAreKeys(s: Sys)
    requires Sound(s)
    ensures forall n :: n in s.world.containers ==> s.world.containers[n].name == n
  {
    IsSound(s);
    forall n | n in s.world.containers ensures s.world.containers[n].name == n {
      assert ContainerOk(s.disk, s.world, s.issued, n);
    }
  }

  lemma CalmSubset(s: Sys, touched: set<string>)
    requires s.pass.Some?
    ensures Waited(s, s, touched)
  {
    WaitedNothing(s);
  }

  /** A fresh listing of one scope, for a run without a container: if it is registered there it is in the
      listing, under an id that names nothing else. */
  ghost predicate ListedFresh(runners: map<string, Remote>, scope: string, w: World, id: string) {
    && ((scope, id) in w.registrations ==> id in runners && runners[id].id == w.registrations[(scope, id)].id)
    && (id in runners ==> Bound(w, scope, runners[id].id, id))
  }

  ghost predicate AllTrusted(listing: seq<Container>, s: Sys) {
    forall id {:trigger TrustedRun(listing, s, id)} :: id in s.mem.runs ==> TrustedRun(listing, s, id)
  }

  ghost predicate TrustedRun(listing: seq<Container>, s: Sys, id: string)
    requires id in s.mem.runs
  {
    Trusted(listing, s.mem.managerId, id, s.mem.runs[id].poolId, s.world)
  }

  /** What an answer says about the world at the end of the call that delivered it. */
  ghost predicate Delivers(a: Sys, e: Effect, answer: Answer, b: Sys) {
    match e
    case ListContainers => answer.Containers? && AllTrusted(answer.listing, b)
    case ListRunners(scope, cached) =>
      && answer.Runners?
      && (!cached ==>
            forall id {:trigger ListedFresh(answer.runners, scope, b.world, id)} ::
              id in a.issued && !Mine(a.world, id) ==> ListedFresh(answer.runners, scope, b.world, id))
    case ReadBootTime(_) => answer.BootedAt?
    case CreateContainer(c) => c.name in a.issued && c.startedAt.None? ==> !EverStarted(b.world, c.name)
    case RemoveContainer(id, _) => id in a.issued ==> !Mine(b.world, id)
    case RemoveRegistration(scope, remoteId, name) =>
      name in a.issued && !Mine(a.world, name) ==>
        (scope, name) !in b.world.registrations || b.world.registrations[(scope, name)].id != remoteId
    case _ => true
  }

  ghost function Issued(s: Sys, e: Effect): Sys {
    s.(inflight := Some(e), calls := s.calls.(happened := false))
  }

  ghost function CallEnded(s: Sys, ok: bool): Sys {
    s.(inflight := None, calls := Returned(s, ok))
  }

  /** From the check at the beginning of a call to its return. */
  ghost predicate Called(first: Sys, waited: Sys, performed: Sys, served: Sys, e: Effect) {
    && Sound(first) && Sound(waited) && Sound(performed) && first.pass.Some? && first.inflight.None?
    && Waited(Issued(first, e), waited, {})
    && performed == waited.(world := performed.world, calls := performed.calls)
       && CallsGrow(waited.calls, performed.calls)
    && (performed.world == waited.world || Takes(e, waited.world) == Some(performed.world))
    && Waited(performed, served, {})
  }

  lemma CallWaited(first: Sys, waited: Sys, performed: Sys, served: Sys, e: Effect, ok: bool)
    requires Called(first, waited, performed, served, e)
    ensures Waited(first, CallEnded(served, ok), Touched(e))
  {
    var issued := Issued(first, e);
    if performed.world == waited.world {
      CalmToItself(waited.issued, waited.world);
    } else {
      EffectIsCalm(waited.issued, e, waited.world, performed.world);
    }
    EvolvesItself(waited.disk);
    assert performed.world.dirs == waited.world.dirs;
    assert Waited(waited, performed, Touched(e));
    WaitedChains(issued, waited, performed, {}, Touched(e));
    WaitedChains(issued, performed, served, {} + Touched(e), {});
    assert {} + Touched(e) + {} == Touched(e);
  }

  lemma ListingDelivered(performed: Sys, served: Sys, listing: seq<Container>)
    requires Sound(performed) && Waited(performed, served, {})
             && ListingOf(listing, performed.world, performed.mem.managerId)
    ensures AllTrusted(listing, served)
  {
    IsSound(performed);
    NearGivesIdentities(performed.mem, performed.disk);
    forall id | id in served.mem.runs ensures TrustedRun(listing, served, id) {
      assert Fits(performed.disk, id);
      FreshListingIsExact(performed.disk, performed.world, performed.issued, listing, id);
      CalmKeepsTrust(performed.issued, listing, performed.mem.managerId, id, performed.disk.runs[id].poolId,
          performed.world, served.world, {});
    }
  }

  lemma RunnersDelivered(first: Sys, performed: Sys, served: Sys, scope: string, id: string)
    requires Sound(performed) && Calm(first.issued, first.world, performed.world, {})
             && performed.issued == first.issued
    requires Waited(performed, served, {}) && id in first.issued && !Mine(first.world, id)
    ensures ListedFresh(RunnersIn(performed.world, scope), scope, served.world, id)
  {
    IsSound(performed);
    var runners := RunnersIn(performed.world, scope);
    assert CalmRun(first.issued, first.world, performed.world, id);
    assert CalmRun(first.issued, performed.world, served.world, id);
    if id in runners {
      assert (scope, id) in performed.world.registrations;
      CalmKeepsBound(first.issued, performed.world, served.world, {}, scope, runners[id].id, id);
    }
  }

  lemma RemovalDelivered(performed: Sys, served: Sys, id: string)
    requires Waited(performed, served, {}) && id !in performed.world.containers && id in performed.issued
    ensures !Mine(served.world, id)
  {
    assert CalmRun(performed.issued, performed.world, served.world, id);
  }

  lemma CreationDelivered(performed: Sys, served: Sys, c: Container)
    requires Waited(performed, served, {}) && c.name in performed.issued
    requires c.name in performed.world.containers && performed.world.containers[c.name] == c && c.startedAt.None?
    ensures !EverStarted(served.world, c.name)
  {
    assert CalmRun(performed.issued, performed.world, served.world, c.name);
  }

  lemma DeletionDelivered(performed: Sys, served: Sys, scope: string, remoteId: nat, name: string)
    requires Waited(performed, served, {}) && name in performed.issued && !Mine(performed.world, name)
    requires forall k :: k in performed.world.registrations && k.0 == scope ==>
              performed.world.registrations[k].id != remoteId
    ensures (scope, name) !in served.world.registrations || served.world.registrations[(scope, name)].id != remoteId
  {
    assert CalmRun(performed.issued, performed.world, served.world, name);
  }

  lemma CallDelivers(first: Sys, waited: Sys, performed: Sys, served: Sys, e: Effect, answer: Answer)
    requires Called(first, waited, performed, served, e)
    requires Takes(e, waited.world) == Some(performed.world)
             && Reports(e, performed.world, performed.mem.managerId, answer)
    ensures Delivers(first, e, answer, CallEnded(served, true))
  {
    var last := CallEnded(served, true);
    match e
    case ListContainers =>
      ListingDelivered(performed, served, answer.listing);
      forall id | id in last.mem.runs ensures TrustedRun(answer.listing, last, id) {
        assert TrustedRun(answer.listing, served, id);
      }
    case ListRunners(scope, cached) =>
      if !cached {
        forall id | id in first.issued && !Mine(first.world, id)
          ensures ListedFresh(answer.runners, scope, last.world, id)
        {
          RunnersDelivered(first, performed, served, scope, id);
        }
      }
    case CreateContainer(c) =>
      if c.name in first.issued && c.startedAt.None? { CreationDelivered(performed, served, c); }
    case RemoveContainer(id, _) =>
      if id in first.issued { RemovalDelivered(performed, served, id); }
    case RemoveRegistration(scope, remoteId, name) =>
      if name in first.issued && !Mine(first.world, name) {
        assert CalmRun(first.issued, first.world, waited.world, name);
        DeletionDelivered(performed, served, scope, remoteId, name);
      }
    case _ =>
  }

  /* ---- Runs during a pass ---- */

  /** A copy of a record in which only what a pass observes has been changed. */
  predicate Noted(r: Run, cur: Run) {
    r == cur.(phase := r.phase, remoteId := r.remoteId, completedJob := r.completedJob)
  }

  /** The copy of a record that a pass carries over an uninterrupted call still differs from memory only in that. */
  lemma CopySurvivesCall(a: Sys, b: Sys, touched: set<string>, r: Run)
    requires Sound(a) && Waited(a, b, touched) && !b.pass.value.interrupted
    requires r.id in a.mem.runs && Noted(r, a.mem.runs[r.id])
    ensures r.id in b.mem.runs && Noted(r, b.mem.runs[r.id])
  {
    IsSound(a);
    RecordAfterWait(a, b, touched, r.id);
  }

  lemma CallReached(a: Sys, b: Sys, touched: set<string>, all: set<string>)
    requires Sound(a) && Waited(a, b, touched) && touched <= all
    ensures Reached(a, b, all)
  {
    IsSound(a);
    WaitReached(a, b, touched);
  }

  lemma ReachedAgain(a: Sys, b: Sys, c: Sys, all: set<string>)
    requires Reached(a, b, all) && Reached(b, c, all)
    ensures Reached(a, c, all)
  {
    ReachedChains(a, b, c, all, all);
    assert all + all == all;
  }

  /** Writing one record reaches only that record. */
  lemma NoteReached(a: Sys, b: Sys, r: Run)
    requires a.pass.Some? && r.id in a.mem.runs
    requires b == a.(mem := WithRun(a.mem, r), disk := b.disk)
    ensures Reached(a, b, {r.id})
  {
    CalmToItself(a.issued, a.world);
    forall id | id in a.mem.runs && id != r.id ensures RunUntouched(a, b, id) {
    }
  }

  lemma DirsReached(a: Sys, b: Sys, id: string)
    requires a.pass.Some? && b == a.(world := a.world.(dirs := b.world.dirs))
             && (forall x :: x != id ==> (x in a.world.dirs <==> x in b.world.dirs))
    ensures Reached(a, b, {id})
  {
    forall x | x in a.issued && x != id ensures CalmRun(a.issued, a.world, b.world, x) {
    }
    forall k | k in b.world.registrations ensures IdKept(a.world, b.world, k) {
    }
    forall x | x in a.mem.runs ensures RunUntouched(a, b, x) {
    }
  }

  lemma DropReached(a: Sys, b: Sys, name: string, id: string, completed: bool)
    requires a.pass.Some? && b == a.(mem := Dropped(a.mem, name, id, completed), disk := b.disk, counted := b.counted)
    ensures Reached(a, b, {id})
  {
    CalmToItself(a.issued, a.world);
    forall x | x in a.mem.runs && x != id ensures RunUntouched(a, b, x) {
    }
  }

  /** Nobody made a container of the run, or woke it up. */
  ghost predicate Subsided(w: World, v: World, id: string) {
    (Mine(v, id) ==> Mine(w, id)) && (LiveMine(v, id) ==> LiveMine(w, id))
        && (EverStarted(v, id) ==> EverStarted(w, id))
  }

  lemma NotTouched(a: Sys, b: Sys, id: string)
    requires Waited(a, b, {}) && id in a.issued
    ensures Subsided(a.world, b.world, id)
  {
    assert CalmRun(a.issued, a.world, b.world, id);
  }

  lemma UnregisteredStays(a: Sys, b: Sys, touched: set<string>, scope: string, id: string)
    requires Waited(a, b, touched) && id in a.issued && id !in touched && !Mine(a.world, id)
    ensures !Mine(b.world, id)
    ensures (scope, id) in b.world.registrations ==>
              (scope, id) in a.world.registrations
                  && a.world.registrations[(scope, id)].id == b.world.registrations[(scope, id)].id
  {
    assert CalmRun(a.issued, a.world, b.world, id);
  }

  /** Without a container, a directory and a registration in the pool's scope there is nothing left of a run:
      its registration could only have been in the scope that the record and the pool agree on. */
  lemma EverythingGone(s: Sys, id: string)
    requires Sound(s) && OfPass(s, id)
    requires !Mine(s.world, id) && id !in s.world.dirs && (s.pass.value.pool.ApiScope(), id) !in s.world.registrations
    ensures Gone(s.world, id)
  {
    IsSound(s);
    assert Fits(s.mem, id);
    NearGivesIdentities(s.mem, s.disk);
    PoolOfRun(s.mem, s.pass.value.name, id);
    forall scope ensures (scope, id) !in s.world.registrations {
      assert (scope, id) in s.world.registrations ==> RegistrationOk(s.disk, s.world, s.issued, (scope, id));
    }
  }

  lemma RunIsIssued(s: Sys, id: string)
    requires Sound(s) && id in s.mem.runs
    ensures id in s.issued && s.mem.runs[id].id == id
  {
    IsSound(s);
    assert Fits(s.mem, id);
  }

  /* ---- Loops over the runs of a pass ---- */

  /** A copy of the record of a run of the pass's pool. */
  ghost predicate Held(s: Sys, r: Run) {
    s.pass.Some? && r.id in s.mem.runs && Noted(r, s.mem.runs[r.id]) && r.poolId == s.pass.value.state.id
  }

  ghost predicate AllHeld(s: Sys, copies: seq<Run>, from: nat) {
    forall j {:trigger copies[j]} :: from <= j < |copies| ==> Held(s, copies[j])
  }

  ghost predicate CopiesOf(ids: seq<string>, copies: seq<Run>) {
    |copies| == |ids| && forall j {:trigger copies[j]} :: 0 <= j < |ids| ==> copies[j].id == ids[j]
  }

  lemma HeldElsewhere(a: Sys, b: Sys, id: string, r: Run)
    requires Reached(a, b, {id}) && !b.pass.value.interrupted && Held(a, r) && r.id != id
    ensures Held(b, r)
  {
    assert RunUntouched(a, b, r.id);
  }

  lemma RestIsHeld(a: Sys, b: Sys, ids: seq<string>, copies: seq<Run>, i: nat)
    requires i < |copies| && AllHeld(a, copies, i) && Reached(a, b, {copies[i].id}) && !b.pass.value.interrupted
    requires CopiesOf(ids, copies) && Distinct(ids)
    ensures AllHeld(b, copies, i + 1)
  {
    forall j | i + 1 <= j < |copies| ensures Held(b, copies[j]) {
      assert Differ(ids, i, j);
      HeldElsewhere(a, b, copies[i].id, copies[j]);
    }
  }

  /** What a listing said about a run goes on being true while other runs are worked on. */
  lemma TrustElsewhere(a: Sys, b: Sys, listing: seq<Container>, touched: set<string>, id: string)
    requires Sound(a) && Reached(a, b, touched) && id in a.mem.runs && id !in touched && TrustedRun(listing, a, id)
    ensures id in b.mem.runs && b.mem.runs[id].poolId == a.mem.runs[id].poolId && TrustedRun(listing, b, id)
  {
    RunIsIssued(a, id);
    assert RunUntouched(a, b, id);
    CalmKeepsTrust(a.issued, listing, a.mem.managerId, id, a.mem.runs[id].poolId, a.world, b.world, touched);
  }

  lemma TrustAfter(a: Sys, b: Sys, listing: seq<Container>, id: string)
    requires Sound(a) && Reached(a, b, {id}) && AllTrusted(listing, a)
    requires id in b.mem.runs ==> TrustedRun(listing, b, id)
    ensures AllTrusted(listing, b)
  {
    forall x | x in b.mem.runs ensures TrustedRun(listing, b, x) {
      if x != id {
        assert TrustedRun(listing, a, x);
        TrustElsewhere(a, b, listing, {id}, x);
      }
    }
  }

  /** The runs still to be visited: recorded, of this pool, and truly described by the listing. */
  ghost predicate Pending(listing: seq<Container>, s: Sys, poolId: string, ids: seq<string>, from: nat) {
    forall j {:trigger ids[j]} :: from <= j < |ids| ==> PendingRun(listing, s, poolId, ids[j])
  }

  ghost predicate PendingRun(listing: seq<Container>, s: Sys, poolId: string, id: string) {
    id in s.mem.runs && s.mem.runs[id].poolId == poolId && TrustedRun(listing, s, id)
  }

  lemma AllPending(s: Sys, listing: seq<Container>, poolId: string, ids: seq<string>)
    requires AllTrusted(listing, s) && forall i :: 0 <= i < |ids| ==> ids[i] in PoolRuns(s.mem.runs, poolId)
    ensures Pending(listing, s, poolId, ids, 0)
  {
    forall j | 0 <= j < |ids| ensures PendingRun(listing, s, poolId, ids[j]) {
      assert ids[j] in PoolRuns(s.mem.runs, poolId);
      assert TrustedRun(listing, s, ids[j]);
    }
  }

  lemma RestIsPending(a: Sys, b: Sys, listing: seq<Container>, poolId: string, ids: seq<string>, i: nat)
    requires Sound(a) && i < |ids| && Pending(listing, a, poolId, ids, i) && Reached(a, b, {ids[i]})
    requires Distinct(ids)
    ensures Pending(listing, b, poolId, ids, i + 1)
  {
    forall j | i + 1 <= j < |ids| ensures PendingRun(listing, b, poolId, ids[j]) {
      assert Differ(ids, i, j);
      assert PendingRun(listing, a, poolId, ids[j]);
      TrustElsewhere(a, b, listing, {ids[i]}, ids[j]);
    }
  }

  /* ---- Quiet stretches ---- */

  ghost predicate SameRun(a: State, b: State, id: string) {
    (id in a.runs <==> id in b.runs) && (id in a.runs ==> b.runs[id] == a.runs[id])
  }

  ghost predicate SameContainer(w: World, v: World, n: string) {
    (n in w.containers <==> n in v.containers) && (n in w.containers ==> v.containers[n] == w.containers[n])
  }

  ghost predicate QuietKept(a: Sys, b: Sys, touched: set<string>) {
    && b.file == a.file && b.pass == a.pass && b.mem.managerId == a.mem.managerId && b.mem.config == a.mem.config
       && b.mem.fileHash == a.mem.fileHash
    && b.mem.pools.Keys == a.mem.pools.Keys
    && (forall n :: n in a.mem.pools ==> b.mem.pools[n] == a.mem.pools[n].(failures := b.mem.pools[n].failures))
    && (forall id :: id !in touched ==> SameRun(a.mem, b.mem, id))
    && (forall n :: n !in touched ==> SameContainer(a.world, b.world, n))
  }

  lemma QuietChains(a: Sys, b: Sys, c: Sys, x: set<string>, y: set<string>)
    requires QuietKept(a, b, x) && QuietKept(b, c, y)
    ensures QuietKept(a, c, x + y)
  {
  }

  lemma QuietAgain(a: Sys, b: Sys, c: Sys, all: set<string>)
    requires QuietKept(a, b, all) && QuietKept(b, c, all)
    ensures QuietKept(a, c, all)
  {
  }

  lemma QuietEffect(a: Sys, b: Sys, e: Effect, all: set<string>)
    requires b == a.(world := b.world, calls := b.calls) && (b.world == a.world || Takes(e, a.world) == Some(b.world))
             && Aim(e) <= all
    ensures QuietKept(a, b, all)
  {
    forall n | n !in all ensures SameContainer(a.world, b.world, n) {
    }
  }

  /** The first `i` of a list of runs. */
  function Upto(ids: seq<string>, i: nat): set<string>
    requires i <= |ids|
  {
    set x | x in ids[..i]
  }

  /** The list of a set of runs in the order of their ids. */
  method ListInOrder(all: set<string>) returns (ids: seq<string>)
    ensures Distinct(ids) && Upto(ids, |ids|) == all && forall i :: 0 <= i < |ids| ==> ids[i] in all
  {
    ids := InOrder(all);
    InOrderIsOrdered(all);
    assert ids[..|ids|] == ids;
    forall j: int, k: int ensures Differ(ids, j, k) {
    }
  }

  lemma UptoNext(ids: seq<string>, i: nat)
    requires i < |ids|
    ensures Upto(ids, i + 1) == Upto(ids, i) + {ids[i]}
  {
    assert ids[..i + 1] == ids[..i] + [ids[i]];
  }

  ghost predicate Differ(ids: seq<string>, j: int, k: int) {
    0 <= j < k < |ids| ==> ids[j] != ids[k]
  }

  ghost predicate Distinct(ids: seq<string>) {
    forall j: int, k: int {:trigger Differ(ids, j, k)} :: Differ(ids, j, k)
  }

  lemma LaterIsNotUpto(ids: seq<string>, i: nat, j: nat)
    requires Distinct(ids) && i <= j < |ids|
    ensures ids[j] !in Upto(ids, i)
  {
    forall k | 0 <= k < i ensures ids[k] != ids[j] {
      assert Differ(ids, k, j);
    }
  }

  lemma QuietNext(first: Sys, a: Sys, b: Sys, ids: seq<string>, i: nat)
    requires i < |ids| && QuietKept(first, a, Upto(ids, i)) && QuietKept(a, b, {ids[i]})
    ensures QuietKept(first, b, Upto(ids, i + 1))
  {
    UptoNext(ids, i);
    QuietChains(first, a, b, Upto(ids, i), {ids[i]});
  }

  ghost predicate ShownRun(listing: seq<Container>, s: Sys, id: string)
    requires id in s.mem.runs
  {
    Exact(listing, s.mem.managerId, id, s.mem.runs[id].poolId, s.world)
  }

  ghost predicate AllShown(listing: seq<Container>, s: Sys) {
    forall id {:trigger ShownRun(listing, s, id)} :: id in s.mem.runs ==> ShownRun(listing, s, id)
  }

  /** An untouched run is still shown as it is. */
  lemma ShownElsewhere(first: Sys, a: Sys, listing: seq<Container>, touched: set<string>, id: string)
    requires QuietKept(first, a, touched) && id !in touched && id in first.mem.runs && ShownRun(listing, first, id)
    ensures id in a.mem.runs && a.mem.runs[id] == first.mem.runs[id] && ShownRun(listing, a, id)
  {
    assert SameRun(first.mem, a.mem, id) && SameContainer(first.world, a.world, id);
  }

  lemma SameShown(a: Sys, b: Sys, listing: seq<Container>)
    requires AllShown(listing, a) && b == a.(calls := b.calls)
    ensures AllShown(listing, b)
  {
    forall id | id in b.mem.runs ensures ShownRun(listing, b, id) {
      assert ShownRun(listing, a, id);
    }
  }

  lemma FreshlyShown(s: Sys, listing: seq<Container>)
    requires Sound(s) && ListingOf(listing, s.world, s.mem.managerId)
    ensures AllShown(listing, s)
  {
    IsSound(s);
    NearGivesIdentities(s.mem, s.disk);
    forall id | id in s.mem.runs ensures ShownRun(listing, s, id) {
      assert Fits(s.disk, id);
      FreshListingIsExact(s.disk, s.world, s.issued, listing, id);
    }
  }

  ghost predicate NoneMine(w: World, ids: set<string>) {
    forall id :: id in ids ==> !Mine(w, id)
  }

  lemma NoneMineNext(a: Sys, b: Sys, ids: seq<string>, i: nat)
    requires i < |ids| && Sound(a) && Reached(a, b, {ids[i]})
    requires NoneMine(a.world, Upto(ids, i)) && !Mine(b.world, ids[i]) && forall id :: id in Upto(ids, i) ==>
              id in a.mem.runs
    ensures NoneMine(b.world, Upto(ids, i + 1))
  {
    UptoNext(ids, i);
    forall id | id in Upto(ids, i + 1) ensures !Mine(b.world, id) {
      if id != ids[i] {
        RunIsIssued(a, id);
        assert CalmRun(a.issued, a.world, b.world, id);
      }
    }
  }

  ghost predicate AllForced(s: Sys, poolId: string, ids: set<string>) {
    forall id :: id in ids ==> id in s.mem.runs && s.mem.runs[id].poolId == poolId && s.mem.runs[id].force
  }

  /** The forced runs have lost their containers and are still recorded. */
  ghost predicate Defused(s: Sys, poolId: string, ids: set<string>) {
    NoneMine(s.world, ids) && AllForced(s, poolId, ids)
  }

  lemma DefusedStays(a: Sys, b: Sys, poolId: string, ids: set<string>)
    requires Sound(a) && Waited(a, b, {}) && Defused(a, poolId, ids)
    ensures NoneMine(b.world, ids)
  {
    forall id | id in ids ensures !Mine(b.world, id) {
      RunIsIssued(a, id);
      assert CalmRun(a.issued, a.world, b.world, id);
    }
  }

  lemma ForcedElsewhere(a: Sys, b: Sys, poolId: string, ids: set<string>, id: string)
    requires AllForced(a, poolId, ids) && Reached(a, b, {id}) && !b.pass.value.interrupted
    requires id in b.mem.runs && b.mem.runs[id].poolId == poolId && b.mem.runs[id].force
    ensures AllForced(b, poolId, ids)
  {
    forall x | x in ids ensures x in b.mem.runs && b.mem.runs[x].poolId == poolId && b.mem.runs[x].force {
      if x != id { assert RunUntouched(a, b, x); }
    }
  }

  lemma ReachedMore(a: Sys, b: Sys, c: Sys, id: string, all: set<string>)
    requires Reached(a, b, all) && Reached(b, c, {id}) && id in all
    ensures Reached(a, c, all)
  {
    ReachedChains(a, b, c, all, {id});
    assert all + {id} == all;
  }

  /** How far the loop over the forced runs has come. */
  ghost predicate Forced(first: Sys, s: Sys, poolId: string, ids: seq<string>, copies: seq<Run>, i: nat, calm: bool) {
    && i <= |ids| && Distinct(ids) && CopiesOf(ids, copies)
    && Reached(first, s, Upto(ids, |ids|)) && s.pass.Some? && !s.pass.value.interrupted
    && AllHeld(s, copies, i) && AllForced(s, poolId, Upto(ids, |ids|))
    && NoneMine(s.world, Upto(ids, i))
    && (calm ==> QuietKept(first, s, Upto(ids, i)))
  }

  lemma ForcedNext(first: Sys, a: Sys, b: Sys, poolId: string, ids: seq<string>, copies: seq<Run>, i: nat, calm: bool)
    requires Forced(first, a, poolId, ids, copies, i, calm) && i < |ids| && Sound(a)
    requires Reached(a, b, {ids[i]}) && !b.pass.value.interrupted
    requires ids[i] in b.mem.runs && b.mem.runs[ids[i]].poolId == poolId && b.mem.runs[ids[i]].force
    requires !Mine(b.world, ids[i]) && (calm ==> QuietKept(a, b, {ids[i]}))
    ensures Forced(first, b, poolId, ids, copies, i + 1, calm)
  {
    ReachedMore(first, a, b, ids[i], Upto(ids, |ids|));
    RestIsHeld(a, b, ids, copies, i);
    ForcedElsewhere(a, b, poolId, Upto(ids, |ids|), ids[i]);
    NoneMineNext(a, b, ids, i);
    if calm {
      QuietNext(first, a, b, ids, i);
    }
  }

  /* ---- Visiting every run ---- */

  /** The run may stay: its container is live, or it is wanted and still to be brought up. */
  predicate Staying(run: Run, container: Option<Container>) {
    if container.Some? then Live(container.value) || (container.value.status == Status.Created && !run.retiring)
    else run.phase == Creating && !run.retiring
  }

  /** The container that a listing shows for a run. */
  function Listed(listing: seq<Container>, st: State, id: string): Option<Container>
    requires id in st.runs
  {
    FindOwned(listing, st.managerId, id, st.runs[id].poolId)
  }

  predicate Stays(listing: seq<Container>, st: State, id: string)
    requires id in st.runs
  {
    Staying(st.runs[id], Listed(listing, st, id))
  }

  /** A quiet visit brings up or keeps the runs that may stay, and ends all others. */
  ghost predicate SettledRun(first: Sys, s: Sys, listing: seq<Container>, id: string) {
    && id in first.mem.runs
    && if Stays(listing, first.mem, id) then
         && id in s.mem.runs && LiveMine(s.world, id)
         && s.mem.runs[id] == first.mem.runs[id].(phase := s.mem.runs[id].phase, remoteId := s.mem.runs[id].remoteId)
       else id !in s.mem.runs
  }

  ghost predicate AllSettled(first: Sys, s: Sys, listing: seq<Container>, ids: set<string>) {
    forall id {:trigger SettledRun(first, s, listing, id)} :: id in ids ==> SettledRun(first, s, listing, id)
  }

  /** A retiring run that is not listed as live has been dropped. */
  ghost predicate RetiringGone(first: Sys, s: Sys, listing: seq<Container>, id: string) {
    id in first.mem.runs && first.mem.runs[id].retiring && !ListedLive(listing, first.mem, id) ==> id !in s.mem.runs
  }

  predicate ListedLive(listing: seq<Container>, st: State, id: string)
    requires id in st.runs
  {
    var c := Listed(listing, st, id);
    c.Some? && Live(c.value)
  }

  ghost predicate AllRetiringGone(first: Sys, s: Sys, listing: seq<Container>, ids: set<string>) {
    forall id {:trigger RetiringGone(first, s, listing, id)} :: id in ids ==> RetiringGone(first, s, listing, id)
  }

  lemma RetiringGoneNext(first: Sys, a: Sys, b: Sys, listing: seq<Container>, ids: seq<string>, i: nat)
    requires i < |ids| && Distinct(ids) && Reached(a, b, {ids[i]}) && AllRetiringGone(first, a, listing, Upto(ids, i))
    requires RetiringGone(first, b, listing, ids[i])
    ensures AllRetiringGone(first, b, listing, Upto(ids, i + 1))
  {
    UptoNext(ids, i);
    forall id | id in Upto(ids, i + 1) ensures RetiringGone(first, b, listing, id) {
      if id != ids[i] { assert RetiringGone(first, a, listing, id); }
    }
  }

  /** The copies a turn starts from have lost no intent since the loop began. */
  lemma StillRetiring(first: Sys, a: Sys, listing: seq<Container>, ids: seq<string>, i: nat)
    requires i < |ids| && Distinct(ids) && ReachedUpto(first, a, ids, i) && a.pass.Some? && !a.pass.value.interrupted
             && ids[i] in a.mem.runs
    requires ids[i] in first.mem.runs && first.mem.runs[ids[i]].retiring && !ListedLive(listing, first.mem, ids[i])
    ensures !Stays(listing, a.mem, ids[i])
  {
    LaterIsNotUpto(ids, i, i);
    assert RunUntouched(first, a, ids[i]);
  }

  ghost predicate ReachedUpto(first: Sys, s: Sys, ids: seq<string>, i: nat) {
    i <= |ids| && Reached(first, s, Upto(ids, i))
  }

  /** How far the loop over the pool's runs has come; `clean` while every turn has gone through. */
  ghost predicate Visited(first: Sys, s: Sys, listing: seq<Container>, poolId: string, ids: seq<string>, i: nat,
      clean: bool, calm: bool) {
    && i <= |ids| && Distinct(ids) && ReachedUpto(first, s, ids, i)
       && (clean ==> AllRetiringGone(first, s, listing, Upto(ids, i)))
    && Pending(listing, s, poolId, ids, i)
    && (calm ==> QuietKept(first, s, Upto(ids, i)) && AllSettled(first, s, listing, Upto(ids, i)))
  }

  /** A loop so far: closed. */
  ghost predicate VisitedSoFar(first: Sys, s: Sys, listing: seq<Container>, poolId: string, ids: seq<string>, i: nat,
      clean: bool, calm: bool) {
    forall key {:trigger Open((first, s, i), key)} :: Open((first, s, i), key) ==>
      Visited(first, s, listing, poolId, ids, i, clean, calm)
  }

  lemma IsVisited(first: Sys, s: Sys, listing: seq<Container>, poolId: string, ids: seq<string>, i: nat, clean: bool,
      calm: bool)
    requires VisitedSoFar(first, s, listing, poolId, ids, i, clean, calm)
    ensures Visited(first, s, listing, poolId, ids, i, clean, calm)
  {
    assert Open((first, s, i), 0);
  }

  lemma VisitStarts(s: Sys, listing: seq<Container>, poolId: string, ids: seq<string>, calm: bool)
    requires s.pass.Some? && Distinct(ids) && Pending(listing, s, poolId, ids, 0)
    ensures VisitedSoFar(s, s, listing, poolId, ids, 0, true, calm)
  {
    ReachedItself(s);
  }

  lemma TurnEndsRetiring(first: Sys, a: Sys, b: Sys, listing: seq<Container>, ids: seq<string>, i: nat)
    requires i < |ids| && Distinct(ids) && ReachedUpto(first, a, ids, i) && a.pass.Some? && !a.pass.value.interrupted
             && ids[i] in a.mem.runs
    requires !Stays(listing, a.mem, ids[i]) ==> ids[i] !in b.mem.runs
    ensures RetiringGone(first, b, listing, ids[i])
  {
    if ids[i] in first.mem.runs && first.mem.runs[ids[i]].retiring && !ListedLive(listing, first.mem, ids[i]) {
      StillRetiring(first, a, listing, ids, i);
    }
  }

  lemma SettledNext(first: Sys, a: Sys, b: Sys, listing: seq<Container>, ids: seq<string>, i: nat)
    requires i < |ids| && Distinct(ids) && QuietKept(first, a, Upto(ids, i))
             && AllSettled(first, a, listing, Upto(ids, i))
    requires QuietKept(a, b, {ids[i]}) && SettledRun(a, b, listing, ids[i])
    ensures QuietKept(first, b, Upto(ids, i + 1)) && AllSettled(first, b, listing, Upto(ids, i + 1))
  {
    QuietNext(first, a, b, ids, i);
    LaterIsNotUpto(ids, i, i);
    UptoNext(ids, i);
    forall id | id in Upto(ids, i + 1) ensures SettledRun(first, b, listing, id) {
      if id == ids[i] {
        assert SameRun(first.mem, a.mem, id);
      } else {
        assert SettledRun(first, a, listing, id);
        assert SameRun(a.mem, b.mem, id) && SameContainer(a.world, b.world, id);
      }
    }
  }

  /** One more turn; `through` says that it went through, and then a run that could not stay is gone. */
  lemma VisitedNext(first: Sys, a: Sys, b: Sys, listing: seq<Container>, poolId: string, ids: seq<string>, i: nat,
      clean: bool, through: bool, calm: bool)
    requires Visited(first, a, listing, poolId, ids, i, clean, calm) && i < |ids| && Sound(a) && Reached(a, b, {ids[i]})
    requires clean ==> a.pass.Some? && !a.pass.value.interrupted
    requires ids[i] in a.mem.runs && (through && !Stays(listing, a.mem, ids[i]) ==> ids[i] !in b.mem.runs)
    requires calm ==> QuietKept(a, b, {ids[i]}) && SettledRun(a, b, listing, ids[i])
    ensures VisitedSoFar(first, b, listing, poolId, ids, i + 1, clean && through, calm)
  {
    ReachedChains(first, a, b, Upto(ids, i), {ids[i]});
    UptoNext(ids, i);
    if clean && through {
      TurnEndsRetiring(first, a, b, listing, ids, i);
      RetiringGoneNext(first, a, b, listing, ids, i);
    }
    RestIsPending(a, b, listing, poolId, ids, i);
    if calm {
      SettledNext(first, a, b, listing, ids, i);
    }
  }

  /** The run does not wait to be brought up, or is not held back. */
  predicate Unheld(listing: seq<Container>, st: State, id: string, allow: bool)
    requires id in st.runs
  {
    allow || !Stays(listing, st, id) || ListedLive(listing, st, id)
  }

  /** The listing is exact and nothing that waits to be brought up is held back. */
  ghost predicate Tractable(s: Sys, listing: seq<Container>, ids: set<string>, allow: bool) {
    forall id :: id in ids ==> id in s.mem.runs && ShownRun(listing, s, id) && Unheld(listing, s.mem, id, allow)
  }

  ghost predicate AllStay(s: Sys, listing: seq<Container>, ids: set<string>) {
    forall id :: id in ids ==> id in s.mem.runs && Stays(listing, s.mem, id)
  }

  lemma TractableStill(first: Sys, a: Sys, listing: seq<Container>, ids: seq<string>, i: nat, allow: bool)
    requires i < |ids| && Distinct(ids) && QuietKept(first, a, Upto(ids, i))
             && Tractable(first, listing, Upto(ids, |ids|), allow)
    ensures ids[i] in a.mem.runs && ShownRun(listing, a, ids[i]) && Unheld(listing, a.mem, ids[i], allow)
    ensures AllStay(first, listing, Upto(ids, |ids|)) ==> Stays(listing, a.mem, ids[i])
  {
    LaterIsNotUpto(ids, i, i);
    assert ids[i] in ids[..|ids|];
    ShownElsewhere(first, a, listing, Upto(ids, i), ids[i]);
  }

  lemma StillAllShown(a: Sys, b: Sys, listing: seq<Container>)
    requires QuietKept(a, b, {}) && AllShown(listing, a)
    ensures AllShown(listing, b)
  {
    forall id | id in b.mem.runs ensures ShownRun(listing, b, id) {
      assert SameRun(a.mem, b.mem, id);
      ShownElsewhere(a, b, listing, {}, id);
    }
  }

  /** Until it is interrupted, a pass finds its pool as it was when the pass began. */
  lemma PassHasPool(s: Sys)
    requires Sound(s) && s.pass.Some? && !s.pass.value.interrupted && !s.pass.value.closed
    ensures var p := s.pass.value;
            && p.name in s.mem.pools && s.mem.pools[p.name].id == p.state.id
               && s.mem.pools[p.name].generation == p.state.generation
            && s.mem.pools[p.name].running == p.state.running && s.mem.pools[p.name].deleting == p.state.deleting
            && Find(s.mem.config.pools, p.name) == Some(p.pool)
  {
    IsSound(s);
  }

  lemma DeletionIsValid(s: Sys)
    requires Sound(s) && s.pass.Some? && !s.pass.value.interrupted && !s.pass.value.closed
    requires PoolRuns(s.mem.runs, s.pass.value.state.id) == {}
    ensures PoolDeleted(s.mem, s.pass.value.name).Some?
  {
    IsSound(s);
    DeleteKeepsState(s.mem, s.pass.value.name);
  }

  predicate Stray(c: Container, runs: map<string, Run>) {
    !(c.run.Some? && c.run.value in runs)
  }

  /** Containers that carry the manager's label but belong to no record: they count against capacity. */
  function Unrecorded(listing: seq<Container>, runs: map<string, Run>): nat {
    if listing == [] then 0
    else (if Stray(listing[0], runs) then 1 else 0) + Unrecorded(listing[1..], runs)
  }

  ghost function StrayNames(listing: seq<Container>, runs: map<string, Run>): set<string> {
    set c | c in listing && Stray(c, runs) :: c.name
  }

  ghost predicate DifferentNames(listing: seq<Container>, i: int, j: int) {
    0 <= i < j < |listing| ==> listing[i].name != listing[j].name
  }

  ghost predicate NamesDiffer(listing: seq<Container>) {
    forall i: int, j: int {:trigger DifferentNames(listing, i, j)} :: DifferentNames(listing, i, j)
  }

  lemma OneMoreStray(c: Container, rest: seq<Container>, runs: map<string, Run>)
    ensures StrayNames([c] + rest, runs) == StrayNames(rest, runs) + (if Stray(c, runs) then {c.name} else {})
  {
    var all := [c] + rest;
    forall n ensures n in StrayNames(all, runs) <==> n in StrayNames(rest, runs) || (Stray(c, runs) && n == c.name) {
      if n in StrayNames(all, runs) {
        var d :| d in all && Stray(d, runs) && d.name == n;
      }
      if n in StrayNames(rest, runs) {
        var d :| d in rest && Stray(d, runs) && d.name == n;
        assert d in all;
      }
      if Stray(c, runs) && n == c.name {
        assert c in all;
      }
    }
  }

  lemma {:induction false} UnrecordedCounts(listing: seq<Container>, runs: map<string, Run>)
    requires NamesDiffer(listing)
    ensures Unrecorded(listing, runs) == |StrayNames(listing, runs)|
  {
    if listing != [] {
      var first, rest := listing[0], listing[1..];
      assert listing == [first] + rest;
      forall i: int, j: int ensures DifferentNames(rest, i, j) {
        assert DifferentNames(listing, i + 1, j + 1);
      }
      UnrecordedCounts(rest, runs);
      OneMoreStray(first, rest, runs);
      forall c | c in rest ensures c.name != first.name {
        var j :| 0 <= j < |rest| && rest[j] == c;
        assert DifferentNames(listing, 0, j + 1);
      }
    }
  }

  /** The number that a pass takes from its first listing is the number of stray containers at that moment. */
  lemma ListingCountsStrays(listing: seq<Container>, w: World, manager: string, runs: map<string, Run>)
    requires ListingOf(listing, w, manager) && forall n :: n in w.containers ==> w.containers[n].name == n
    ensures Unrecorded(listing, runs) == |Strays(w, manager, runs.Keys)|
  {
    forall i: int, j: int ensures DifferentNames(listing, i, j) {
      if 0 <= i < j < |listing| {
        assert listing[i] in listing && listing[j] in listing && listing[i] != listing[j];
      }
    }
    UnrecordedCounts(listing, runs);
    forall n ensures n in StrayNames(listing, runs) <==> n in Strays(w, manager, runs.Keys) {
      if n in Strays(w, manager, runs.Keys) {
        assert w.containers[n] in listing;
      }
    }
    assert StrayNames(listing, runs) == Strays(w, manager, runs.Keys);
  }

  lemma WaitKeepsKeys(a: Sys, b: Sys, touched: set<string>)
    requires Sound(a) && Waited(a, b, touched)
    ensures b.mem.runs.Keys == a.mem.runs.Keys && b.mem.managerId == a.mem.managerId
  {
    IsSound(a);
    NearGivesIdentities(a.mem, a.disk);
  }

  /** The first listing of a pass settles how many stray containers there are. */
  lemma StraysDelivered(first: Sys, waited: Sys, performed: Sys, served: Sys, listing: seq<Container>)
    requires Called(first, waited, performed, served, ListContainers) && first.calls.strays.None?
    requires performed.calls.happened && performed.calls.taken == |StraysOf(waited)|
             && performed.calls.strays == waited.calls.strays
    requires waited.calls.strays == first.calls.strays && served.calls == performed.calls
             && served.inflight == Some(ListContainers)
    requires ListingOf(listing, performed.world, performed.mem.managerId) && performed.world == waited.world
    ensures CallEnded(served, true).calls.strays == Some(Unrecorded(listing, CallEnded(served, true).mem.runs))
  {
    NamesAreKeys(performed);
    ListingCountsStrays(listing, performed.world, performed.mem.managerId, served.mem.runs);
    WaitKeepsKeys(performed, served, {});
  }

  /* ---- One more run ---- */

  /** The guards of an insertion: below the pool's target and, with everything unrecorded, below max_runners. */
  ghost predicate HasRoom(s: Sys, unrecorded: nat) {
    && s.pass.Some? && s.calls.strays == Some(unrecorded)
    && |PoolRuns(s.mem.runs, s.pass.value.state.id)| < s.pass.value.Keep()
    && |s.mem.runs| + unrecorded < s.mem.config.manager.maxRunners
  }

  lemma RoomAfterWait(a: Sys, b: Sys, unrecorded: nat)
    requires Sound(a) && Waited(a, b, {}) && !b.pass.value.interrupted && HasRoom(a, unrecorded)
    ensures HasRoom(b, unrecorded)
  {
    IsSound(a);
    NearGivesIdentities(a.mem, a.disk);
    assert PoolRuns(b.mem.runs, b.pass.value.state.id) == PoolRuns(a.mem.runs, a.pass.value.state.id);
  }

  ghost predicate AddsRun(a: Sys, b: Sys, id: string) {
    && a.pass.Some? && id in b.mem.runs && id !in a.issued && id !in a.mem.runs && id !in a.world.containers
    && b.mem.runs[id] == NewRun(a.pass.value, id, b.mem.runs[id].createdAt)
    && b.mem == WithRun(a.mem, b.mem.runs[id])
    && b == a.(mem := b.mem, disk := b.mem, issued := a.issued + {id}, calls := b.calls)
  }

  ghost predicate Deletable(s: Sys) {
    s.pass.Some? && s.pass.value.state.deleting && PoolRuns(s.mem.runs, s.pass.value.state.id) == {}
  }
}
