/** Every step of the protocol keeps the invariant. */
module Invariants {
  import opened Basics
  import opened Config
  import opened States
  import opened Retiring
  import opened Requests
  import opened Backoff
  import opened Worlds
  import opened Protocol

  lemma NearGivesIdentities(a: State, b: State)
    requires Near(a, b)
    ensures SameIdentities(a, b) && SameIdentities(b, a)
  {
    forall id | id in a.runs
      ensures a.runs[id].id == b.runs[id].id && a.runs[id].poolId == b.runs[id].poolId
          && a.runs[id].pool == b.runs[id].pool
    {
      assert NearRun(a, b, id);
    }
  }

  lemma NearItself(a: State)
    ensures Near(a, a)
  {
  }

  /** The invariant after memory was changed by `Evolves` and saved, with any pass marked as interrupted. */
  lemma SavedRequestKeepsInv(s: Sys, t: Sys)
    requires Inv(s) && StateInv(t.mem) && Evolves(s.mem, t.mem)
    requires t == s.(mem := t.mem, disk := t.mem, pass := Interrupt(s.pass), poolIds := t.poolIds,
        approved := t.approved)
    requires forall n :: n in t.mem.pools ==> t.mem.pools[n].id in t.poolIds
    requires t.approved.Some? ==> t.mem.fileHash == Rendered(t.mem.config)
    ensures Inv(t)
  {
    NearGivesIdentities(s.mem, s.disk);
    assert SameIdentities(s.disk, t.disk);
    NoOrphansFrame(s.disk, t.disk, s.world, s.issued);
    if s.inflight.Some? && s.inflight.value.RemoveContainer? {
      assert NearRun(s.mem, s.disk, s.inflight.value.id);
    }
    NearItself(t.mem);
  }

  lemma IntentKeepsInv(s: Sys, req: Request, t: Sys)
    requires Inv(s) && Step(s, Intent(req), t)
    ensures Inv(t)
  {
    IntentKeepsInvariant(s.mem, req);
    IntentKeepsPools(s.mem, req);
    SavedRequestKeepsInv(s, t);
  }

  lemma IntentKeepsPools(st: State, req: Request)
    requires IntentOf(st, req).Some?
    ensures var after := IntentOf(st, req).value;
            after.config == st.config && after.fileHash == st.fileHash && after.revision == st.revision
                && after.pools.Keys == st.pools.Keys
            && forall n :: n in st.pools ==> after.pools[n].id == st.pools[n].id
  {
  }

  lemma CommitKeepsInv(s: Sys, req: Request, ids: map<string, string>, t: Sys)
    requires Inv(s) && Step(s, Commit(req, ids), t)
    ensures Inv(t)
  {
    assert forall n :: n in s.mem.pools ==> s.mem.pools[n].id in s.poolIds;
    ProposalKeepsInvariant(s.mem, s.file, req, ids, s.poolIds);
    SameRunsEvolves(s.mem, t.mem);
    ProposedIds(s.mem, s.file, req, ids, s.poolIds);
    SavedRequestKeepsInv(s, t);
  }

  lemma ProposedIds(st: State, file: Option<Text>, req: Request, ids: map<string, string>, used: set<string>)
    requires TablesAgree(st) && FreshIds(st, req, ids, used) && Proposed(st, file, req, ids).Some?
    ensures var after := Proposed(st, file, req, ids).value;
            && (forall n :: n in after.pools ==>
                  (n in st.pools && after.pools[n].id == st.pools[n].id) || after.pools[n].id in ids.Values)
            && after.fileHash == Rendered(after.config) && after.revision == st.revision + 1
  {
    match req
    case Add(p) => assert ids[p.name] in ids.Values;
    case Apply(text, _) => AppliedIds(st, text.Parsed().value, ids);
    case _ =>
  }

  lemma AppliedIds(st: State, next: Config, ids: map<string, string>)
    requires Names(next.pools) - st.pools.Keys <= ids.Keys
    ensures var pools := AppliedPools(st, next, ids);
            forall n :: n in pools ==> (n in st.pools && pools[n].id == st.pools[n].id) || pools[n].id in ids.Values
  {
    var pools := AppliedPools(st, next, ids);
    forall n | n in pools ensures (n in st.pools && pools[n].id == st.pools[n].id) || pools[n].id in ids.Values {
      if n !in st.pools {
        assert n in ids;
      }
    }
  }

  lemma FinishKeepsInv(s: Sys, req: Request, t: Sys)
    requires Inv(s) && Step(s, Finish(req), t)
    ensures Inv(t)
  {
    FinishKeepsInvariant(s.mem, req);
    FinishKeepsTables(s.mem, req);
    SavedRequestKeepsInv(s, t);
  }

  lemma FinishKeepsTables(st: State, req: Request)
    requires StateInv(st)
    ensures var after := Finished(st, req);
            after.config == st.config && after.pools.Keys == st.pools.Keys && after.revision == st.revision
                && after.fileHash == st.fileHash
            && forall n :: n in st.pools ==> after.pools[n].id == st.pools[n].id
  {
    match req
    case Scale(name, _) => MarkAllKeepsTables(st, [name]);
    case Upgrade(name, _) => MarkAllKeepsTables(st, [name]);
    case Apply(_, _) => MarkAllKeepsTables(st, SortedNames(st));
    case _ =>
  }

  lemma {:induction false} MarkAllKeepsTables(st: State, names: seq<string>)
    ensures var after := MarkAll(st, names);
            after == st.(runs := after.runs)
    decreases |names|
  {
    if names != [] {
      MarkAllKeepsTables(st, names[..|names| - 1]);
    }
  }

  lemma WriteKeepsInv(s: Sys, t: Sys)
    requires Inv(s) && Step(s, WriteConfig, t)
    ensures Inv(t)
  {
  }

  lemma SnapshotFrame(a: State, b: State, p: Pass)
    requires SnapshotHolds(a, p) && Near(a, b)
    ensures SnapshotHolds(b, p)
  {
    forall id | p.marked && id in b.runs && b.runs[id].poolId == p.state.id && !b.runs[id].retiring
      ensures b.runs[id].generation == p.state.generation
    {
      assert NearRun(a, b, id);
    }
  }

  lemma RejectKeepsInv(s: Sys, mutating: bool, t: Sys)
    requires Inv(s) && Step(s, Reject(mutating), t)
    ensures Inv(t)
  {
    NearItself(s.disk);
    if s.pass.Some? && !s.pass.value.interrupted && !s.pass.value.closed {
      SnapshotFrame(s.mem, s.disk, s.pass.value);
    }
  }

  lemma CrashKeepsInv(s: Sys, t: Sys)
    requires Inv(s) && Step(s, Crash, t)
    ensures Inv(t)
  {
    NearItself(s.disk);
  }

  lemma EnvironmentKeepsInv(s: Sys, t: Sys)
    requires Inv(s) && Step(s, Environment, t)
    ensures Inv(t)
  {
    DriftKeepsNoOrphans(s.disk, s.issued, s.world, t.world);
    if s.inflight.Some? && s.inflight.value.RemoveRegistration? {
      var e := s.inflight.value;
      DriftKeepsBound(s.issued, s.world, t.world, e.scope, e.remoteId, e.name);
      assert Mine(t.world, e.name) ==> ContainerDrift(s.issued, s.world, t.world, e.name);
    }
  }

  lemma BeginKeepsInv(s: Sys, p: Pass, t: Sys)
    requires Inv(s) && Step(s, BeginPass(p), t)
    ensures Inv(t)
  {
  }

  lemma IssueKeepsInv(s: Sys, e: Effect, t: Sys)
    requires Inv(s) && Step(s, Issue(e), t)
    ensures Inv(t)
  {
    match e
    case CreateContainer(c) => assert NearRun(s.mem, s.disk, c.name); assert Fits(s.mem, c.name);
    case RemoveContainer(id, force) => assert NearRun(s.mem, s.disk, id);
    case _ =>
  }

  lemma HappenKeepsInv(s: Sys, t: Sys)
    requires Inv(s) && Step(s, Happen, t)
    ensures Inv(t)
  {
    EffectKeepsNoOrphans(s.disk, s.issued, s.inflight.value, s.world, t.world);
  }

  lemma ReturnKeepsInv(s: Sys, ok: bool, t: Sys)
    requires Inv(s) && Step(s, Return(ok), t)
    ensures Inv(t)
  {
  }

  /** One record changes in what was observed about it. */
  lemma NotedRunKeepsState(st: State, r: Run)
    requires StateInv(st) && r.id in st.runs
    requires r == st.runs[r.id].(phase := r.phase, remoteId := r.remoteId, completedJob := r.completedJob,
        logSaved := r.logSaved)
    ensures StateInv(WithRun(st, r)) && SameIdentities(st, WithRun(st, r))
  {
    assert TablesAgree(WithRun(st, r));
    forall id | id in WithRun(st, r).runs ensures Fits(WithRun(st, r), id) {
      assert Fits(st, id);
      NotedRunFits(st, r, id);
    }
  }

  lemma NotedRunFits(st: State, r: Run, id: string)
    requires r.id in st.runs && id in st.runs && Fits(st, id)
    requires r == st.runs[r.id].(phase := r.phase, remoteId := r.remoteId, completedJob := r.completedJob,
        logSaved := r.logSaved)
    ensures Fits(WithRun(st, r), id)
  {
  }

  lemma NotedRunKeepsSnapshot(st: State, r: Run, p: Pass)
    requires SnapshotHolds(st, p) && r.id in st.runs
    requires r == st.runs[r.id].(phase := r.phase, remoteId := r.remoteId, completedJob := r.completedJob,
        logSaved := r.logSaved)
    ensures SnapshotHolds(WithRun(st, r), p)
  {
  }

  lemma ObserveKeepsInv(s: Sys, id: string, phase: Phase, remoteId: Option<nat>, t: Sys)
    requires Inv(s) && Step(s, Observe(id, phase, remoteId), t)
    ensures Inv(t)
  {
    var r := s.mem.runs[id].(phase := phase, remoteId := remoteId);
    assert Fits(s.mem, id);
    NotedRunKeepsState(s.mem, r);
    ObserveKeepsNear(s, id, phase, remoteId, t);
    if s.pass.Some? && !s.pass.value.interrupted && !s.pass.value.closed {
      NotedRunKeepsSnapshot(s.mem, r, s.pass.value);
    }
  }

  lemma ObserveKeepsNear(s: Sys, id: string, phase: Phase, remoteId: Option<nat>, t: Sys)
    requires Near(s.mem, s.disk) && Step(s, Observe(id, phase, remoteId), t) && s.mem.runs[id].id == id
    ensures Near(t.mem, t.disk)
  {
    forall x | x in t.mem.runs ensures NearRun(t.mem, t.disk, x) {
      assert NearRun(s.mem, s.disk, x);
    }
  }

  lemma NoteKeepsInflight(s: Sys, r: Run, t: Sys)
    requires InflightOk(s) && Near(s.mem, s.disk) && SameIdentities(s.disk, t.disk) && Step(s, Note(r), t)
    ensures InflightOk(t)
  {
  }

  lemma NoteKeepsPass(s: Sys, r: Run, t: Sys)
    requires StateInv(s.mem) && PassOk(s) && CountOk(s) && Step(s, Note(r), t)
    ensures PassOk(t) && CountOk(t)
  {
    assert Fits(s.mem, r.id);
    if !s.pass.value.interrupted && !s.pass.value.closed {
      NotedRunKeepsSnapshot(s.mem, r, s.pass.value);
    }
  }

  lemma NoteKeepsInv(s: Sys, r: Run, t: Sys)
    requires Inv(s) && Step(s, Note(r), t)
    ensures Inv(t)
  {
    assert Fits(s.mem, r.id);
    NotedRunKeepsState(s.mem, r);
    NearGivesIdentities(s.mem, s.disk);
    assert SameIdentities(s.disk, t.disk);
    NoOrphansFrame(s.disk, t.disk, s.world, s.issued);
    NoteKeepsInflight(s, r, t);
    NoteKeepsPass(s, r, t);
    NearItself(t.mem);
    MakeInv(t);
  }

  /** The parts of the invariant, once memory has been saved. */
  lemma MakeInv(t: Sys)
    requires StateInv(t.mem) && t.mem == t.disk && Recorded(t.disk, t.issued, t.poolIds)
             && NoOrphans(t.disk, t.world, t.issued)
    requires InflightOk(t) && PassOk(t) && CountOk(t) && (t.approved.Some? ==> t.mem.fileHash == Rendered(t.mem.config))
    ensures Inv(t)
  {
    NearItself(t.mem);
  }

  lemma MarkKeepsSnapshot(st: State, p: Pass)
    requires SnapshotHolds(st, p)
    ensures SnapshotHolds(MarkRetiring(st, p.name), p.(marked := true))
  {
  }

  lemma MarkKeepsInflight(s: Sys, t: Sys)
    requires InflightOk(s) && Near(s.mem, s.disk) && SameIdentities(s.disk, t.disk) && Step(s, Mark, t)
    ensures InflightOk(t)
  {
  }

  lemma MarkKeepsPass(s: Sys, t: Sys)
    requires PassOk(s) && CountOk(s) && Step(s, Mark, t)
    ensures PassOk(t) && CountOk(t)
  {
    MarkKeepsSnapshot(s.mem, s.pass.value);
  }

  lemma MarkKeepsInv(s: Sys, t: Sys)
    requires Inv(s) && Step(s, Mark, t)
    ensures Inv(t)
  {
    MarkRetiringKeepsInvariant(s.mem, s.pass.value.name);
    MarkKeepsIdentities(s.mem, s.disk, s.pass.value.name);
    NoOrphansFrame(s.disk, t.disk, s.world, s.issued);
    MarkKeepsInflight(s, t);
    MarkKeepsPass(s, t);
    MakeInv(t);
  }

  lemma MarkKeepsIdentities(mem: State, disk: State, name: string)
    requires Near(mem, disk) && name in mem.pools && Find(mem.config.pools, name).Some?
    ensures SameIdentities(disk, MarkRetiring(mem, name))
  {
    NearGivesIdentities(mem, disk);
  }

  lemma DirsKeepInv(s: Sys, l: Label, t: Sys)
    requires Inv(s) && Step(s, l, t) && (l.MakeDir? || l.RemoveDir?)
    ensures Inv(t)
  {
    forall n | n in t.world.containers ensures ContainerOk(t.disk, t.world, t.issued, n) {
      assert ContainerOk(s.disk, s.world, s.issued, n);
    }
    forall k | k in t.world.registrations ensures RegistrationOk(t.disk, t.world, t.issued, k) {
      assert RegistrationOk(s.disk, s.world, s.issued, k);
    }
    assert t.world.dirs <= t.disk.runs.Keys;
    assert RemoteIdsOk(t.world);
  }

  lemma InsertKeepsWorld(s: Sys, r: Run, t: Sys)
    requires Inv(s) && Step(s, Insert(r), t)
    ensures NoOrphans(t.disk, t.world, t.issued)
  {
    NearGivesIdentities(s.mem, s.disk);
    forall n | n in t.world.containers ensures ContainerOk(t.disk, t.world, t.issued, n) {
      assert ContainerOk(s.disk, s.world, s.issued, n);
    }
    forall k | k in t.world.registrations ensures RegistrationOk(t.disk, t.world, t.issued, k) {
      assert RegistrationOk(s.disk, s.world, s.issued, k);
    }
  }

  lemma InsertKeepsState(s: Sys, r: Run, t: Sys)
    requires Inv(s) && Step(s, Insert(r), t)
    ensures StateInv(t.mem)
  {
    var p := s.pass.value;
    assert SnapshotHolds(s.mem, p);
    assert t.mem.config.pools == s.mem.config.pools;
    forall id | id in t.mem.runs ensures Fits(t.mem, id) {
      if id != r.id { assert Fits(s.mem, id); }
    }
  }

  lemma InsertKeepsInv(s: Sys, r: Run, t: Sys)
    requires Inv(s) && Step(s, Insert(r), t)
    ensures Inv(t)
  {
    InsertKeepsState(s, r, t);
    InsertKeepsWorld(s, r, t);
    NearItself(t.mem);
    assert SnapshotHolds(s.mem, s.pass.value);
  }

  lemma DroppedContainerOk(a: State, b: State, w: World, issued: set<string>, id: string, n: string)
    requires n in w.containers && ContainerOk(a, w, issued, n) && !Mine(w, id)
    requires b.managerId == a.managerId && b.runs.Keys == a.runs.Keys - {id}
    requires forall x :: x in b.runs ==>
              b.runs[x].id == a.runs[x].id && b.runs[x].poolId == a.runs[x].poolId && b.runs[x].pool == a.runs[x].pool
    ensures ContainerOk(b, w, issued, n)
  {
  }

  lemma DroppedRegistrationOk(a: State, b: State, w: World, issued: set<string>, id: string, k: (string, string))
    requires k in w.registrations && RegistrationOk(a, w, issued, k) && (forall s :: (s, id) !in w.registrations)
    requires b.runs.Keys == a.runs.Keys - {id} && forall x :: x in b.runs ==> b.runs[x].pool == a.runs[x].pool
    ensures RegistrationOk(b, w, issued, k)
  {
    assert k == (k.0, k.1);
  }

  /** Without container, registration and directory the record is not needed any more. */
  lemma NoOrphansWithout(a: State, b: State, w: World, issued: set<string>, id: string)
    requires NoOrphans(a, w, issued) && Gone(w, id)
    requires b.managerId == a.managerId && b.runs.Keys == a.runs.Keys - {id}
    requires forall x :: x in b.runs ==>
              b.runs[x].id == a.runs[x].id && b.runs[x].poolId == a.runs[x].poolId && b.runs[x].pool == a.runs[x].pool
    ensures NoOrphans(b, w, issued)
  {
    forall n | n in w.containers ensures ContainerOk(b, w, issued, n) {
      assert ContainerOk(a, w, issued, n);
      DroppedContainerOk(a, b, w, issued, id, n);
    }
    forall k | k in w.registrations ensures RegistrationOk(b, w, issued, k) {
      assert RegistrationOk(a, w, issued, k);
      DroppedRegistrationOk(a, b, w, issued, id, k);
    }
  }

  lemma DropKeepsWorld(s: Sys, id: string, completed: bool, unexpected: bool, t: Sys)
    requires Inv(s) && Step(s, Drop(id, completed, unexpected), t)
    ensures NoOrphans(t.disk, t.world, t.issued)
  {
    NearGivesIdentities(s.mem, s.disk);
    NoOrphansWithout(s.disk, t.disk, s.world, s.issued, id);
  }

  lemma DroppedFits(st: State, name: string, id: string, completed: bool, x: string)
    requires x in st.runs && x != id && Fits(st, x)
    ensures Fits(Dropped(st, name, id, completed), x)
  {
  }

  lemma DroppedKeepsTables(st: State, name: string, id: string, completed: bool)
    requires TablesAgree(st)
    ensures TablesAgree(Dropped(st, name, id, completed))
  {
    SameIdsAreDistinct(st.pools, Dropped(st, name, id, completed).pools);
  }

  lemma DropKeepsState(s: Sys, id: string, completed: bool, unexpected: bool, t: Sys)
    requires Inv(s) && Step(s, Drop(id, completed, unexpected), t)
    ensures StateInv(t.mem) && Recorded(t.disk, t.issued, t.poolIds)
  {
    DroppedKeepsTables(s.mem, s.pass.value.name, id, completed);
    forall x | x in t.mem.runs ensures Fits(t.mem, x) {
      assert Fits(s.mem, x);
      DroppedFits(s.mem, s.pass.value.name, id, completed, x);
    }
  }

  /** In a pass over a pool that is not to run no exit counts. */
  lemma DropKeepsPass(s: Sys, id: string, completed: bool, unexpected: bool, t: Sys)
    requires StateInv(s.mem) && PassOk(s) && CountOk(s) && Step(s, Drop(id, completed, unexpected), t)
    ensures PassOk(t) && CountOk(t)
  {
    assert Fits(s.mem, id);
    PoolOfRun(s.mem, s.pass.value.name, id);
  }

  lemma DropKeepsInv(s: Sys, id: string, completed: bool, unexpected: bool, t: Sys)
    requires Inv(s) && Step(s, Drop(id, completed, unexpected), t)
    ensures Inv(t)
  {
    DropKeepsWorld(s, id, completed, unexpected, t);
    DropKeepsState(s, id, completed, unexpected, t);
    DropKeepsPass(s, id, completed, unexpected, t);
    MakeInv(t);
  }

  lemma DeleteKeepsTables(st: State, name: string)
    requires TablesAgree(st)
    ensures PoolDeleted(st, name).Some? && TablesAgree(PoolDeleted(st, name).value)
  {
    forall m: string, n: string ensures IdsApart(st.pools - {name}, m, n) {
      assert IdsApart(st.pools, m, n);
    }
    WithoutStaysUnique(st.config.pools, name);
    WithoutTotal(st.config.pools, name);
    WithoutKeepsTheRest(st.config.pools, name);
    forall p | p in Without(st.config.pools, name) ensures ValidPool(p, st.config.auth) {
      WithoutMembers(st.config.pools, name, p);
    }
  }

  lemma DeleteKeepsState(st: State, name: string)
    requires StateInv(st) && name in st.pools && PoolRuns(st.runs, st.pools[name].id) == {}
    ensures PoolDeleted(st, name).Some? && StateInv(PoolDeleted(st, name).value)
  {
    DeleteKeepsTables(st, name);
    var after := PoolDeleted(st, name).value;
    forall id | id in st.runs ensures Fits(after, id) {
      assert Fits(st, id);
      assert id !in PoolRuns(st.runs, st.pools[name].id);
      WithoutKeepsTheRest(st.config.pools, name);
    }
  }

  lemma DeleteKeepsInv(s: Sys, t: Sys)
    requires Inv(s) && Step(s, DeletePool, t)
    ensures Inv(t)
  {
    assert SnapshotHolds(s.mem, s.pass.value);
    DeleteKeepsState(s.mem, s.pass.value.name);
    NearItself(t.mem);
    NearGivesIdentities(s.mem, s.disk);
    assert SameIdentities(s.disk, t.disk);
    NoOrphansFrame(s.disk, t.disk, s.world, s.issued);
  }

  lemma EndKeepsPool(ps: PoolState, ending: Ending, retrying: bool, at: nat, jitter: nat, observed: nat)
    ensures SameTable(EndPool(ps, ending, retrying, at, jitter, observed), ps)
  {
  }

  lemma EndKeepsTables(st: State, name: string, ending: Ending, retrying: bool, at: nat, jitter: nat, observed: nat)
    ensures var after := EndState(st, name, ending, retrying, at, jitter, observed);
            && SameIdentities(st, after) && after.pools.Keys == st.pools.Keys && after.config == st.config
            && (forall n :: n in st.pools ==> SameTable(after.pools[n], st.pools[n]))
            && (forall id :: id in st.runs ==> after.runs[id] == st.runs[id].(phase := after.runs[id].phase))
  {
    if name in st.pools {
      EndKeepsPool(st.pools[name], ending, retrying, at, jitter, observed);
      var ended := EndPool(st.pools[name], ending, retrying, at, jitter, observed);
      assert EndState(st, name, ending, retrying, at, jitter, observed).pools == st.pools[name := ended];
    }
  }

  predicate SameTable(a: PoolState, b: PoolState) {
    a.id == b.id && a.running == b.running && a.deleting == b.deleting && a.generation == b.generation
  }

  lemma EndKeepsState(st: State, name: string, ending: Ending, retrying: bool, at: nat, jitter: nat, observed: nat)
    requires StateInv(st)
    ensures StateInv(EndState(st, name, ending, retrying, at, jitter, observed))
  {
    var after := EndState(st, name, ending, retrying, at, jitter, observed);
    EndKeepsTables(st, name, ending, retrying, at, jitter, observed);
    SameTablesAgree(st, after);
  }

  lemma SameTablesAgree(st: State, after: State)
    requires StateInv(st) && after.config == st.config && after.pools.Keys == st.pools.Keys
             && after.runs.Keys == st.runs.Keys
    requires forall n :: n in st.pools ==> SameTable(after.pools[n], st.pools[n])
    requires forall id :: id in st.runs ==> after.runs[id] == st.runs[id].(phase := after.runs[id].phase)
    ensures StateInv(after)
  {
    SameIdsAreDistinct(st.pools, after.pools);
    forall id | id in st.runs ensures Fits(after, id) {
      assert Fits(st, id);
    }
  }

  lemma EndKeepsInv(s: Sys, l: Label, t: Sys)
    requires Inv(s) && Step(s, l, t) && (l.EndPass? || l.SaveInterrupted? || l.Abandon?)
    ensures Inv(t)
  {
    NearItself(t.mem);
    NearGivesIdentities(s.mem, s.disk);
    if l.EndPass? {
      EndKeepsTables(s.mem, s.pass.value.name, l.ending, s.pass.value.deadline > s.pass.value.at, l.at, l.jitter,
          l.observed);
      EndKeepsState(s.mem, s.pass.value.name, l.ending, s.pass.value.deadline > s.pass.value.at, l.at, l.jitter,
          l.observed);
    }
    NoOrphansFrame(s.disk, t.disk, s.world, s.issued);
  }

  lemma OutsideStepKeepsInv(s: Sys, l: Label, t: Sys)
    requires Inv(s) && Step(s, l, t) && (l.Environment? || l.Crash? || l.BeginPass?)
    ensures Inv(t)
  {
    match l
    case Environment => EnvironmentKeepsInv(s, t);
    case Crash => CrashKeepsInv(s, t);
    case BeginPass(p) => BeginKeepsInv(s, p, t);
  }

  lemma CallStepKeepsInv(s: Sys, l: Label, t: Sys)
    requires Inv(s) && Step(s, l, t) && (l.Happen? || l.Return? || l.Issue?)
    ensures Inv(t)
  {
    match l
    case Issue(e) => IssueKeepsInv(s, e, t);
    case Happen => HappenKeepsInv(s, t);
    case Return(ok) => ReturnKeepsInv(s, ok, t);
  }

  lemma RequestStepKeepsInv(s: Sys, l: Label, t: Sys)
    requires Inv(s) && Step(s, l, t) && (l.Intent? || l.Commit? || l.WriteConfig? || l.Finish? || l.Reject?)
    ensures Inv(t)
  {
    match l
    case Intent(req) => IntentKeepsInv(s, req, t);
    case Commit(req, ids) => CommitKeepsInv(s, req, ids, t);
    case WriteConfig => WriteKeepsInv(s, t);
    case Finish(req) => FinishKeepsInv(s, req, t);
    case Reject(mutating) => RejectKeepsInv(s, mutating, t);
  }

  lemma RecordStepKeepsInv(s: Sys, l: Label, t: Sys)
    requires Inv(s) && Step(s, l, t) && (l.Observe? || l.Note? || l.Mark? || l.MakeDir? || l.RemoveDir?)
    ensures Inv(t)
  {
    match l
    case Observe(id, phase, remoteId) => ObserveKeepsInv(s, id, phase, remoteId, t);
    case Note(r) => NoteKeepsInv(s, r, t);
    case Mark => MarkKeepsInv(s, t);
    case MakeDir(_) => DirsKeepInv(s, l, t);
    case RemoveDir(_) => DirsKeepInv(s, l, t);
  }

  lemma TableStepKeepsInv(s: Sys, l: Label, t: Sys)
    requires Inv(s) && Step(s, l, t)
             && (l.Insert? || l.Drop? || l.DeletePool? || l.EndPass? || l.SaveInterrupted? || l.Abandon?)
    ensures Inv(t)
  {
    match l
    case Insert(r) => InsertKeepsInv(s, r, t);
    case Drop(id, completed, unexpected) => DropKeepsInv(s, id, completed, unexpected, t);
    case DeletePool => DeleteKeepsInv(s, t);
    case EndPass(_, _, _, _) => EndKeepsInv(s, l, t);
    case SaveInterrupted => EndKeepsInv(s, l, t);
    case Abandon => EndKeepsInv(s, l, t);
  }

  /** Every step, crashes included, keeps the invariant. */
  lemma StepKeepsInv(s: Sys, l: Label, t: Sys)
    requires Inv(s) && Step(s, l, t)
    ensures Inv(t)
  {
    if l.Environment? || l.Crash? || l.BeginPass? {
      OutsideStepKeepsInv(s, l, t);
    } else if l.Happen? || l.Return? || l.Issue? {
      CallStepKeepsInv(s, l, t);
    } else if l.Intent? || l.Commit? || l.WriteConfig? || l.Finish? || l.Reject? {
      RequestStepKeepsInv(s, l, t);
    } else if l.Observe? || l.Note? || l.Mark? || l.MakeDir? || l.RemoveDir? {
      RecordStepKeepsInv(s, l, t);
    } else if !l.Boot? {
      TableStepKeepsInv(s, l, t);
    }
  }
}
