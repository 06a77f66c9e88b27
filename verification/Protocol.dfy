/** The manager as a state machine. A step is anything that can be seen after a crash or by a request: a change
    of the stored row, of config.toml, of the world, of memory at a point where requests are served, or the
    beginning and end of an external call. Crashes and movements of the environment may come between any two. */
module Protocol {
  import opened Basics
  import opened Config
  import opened States
  import opened Retiring
  import opened Requests
  import opened Backoff
  import opened Worlds

  /** A reconciliation and the copies it works from. `interrupted` is `reconcile_epoch != epoch`. */
  datatype Pass = Pass(
    name: string, at: nat, deadline: nat, pool: Pool, state: PoolState,
    interrupted: bool, marked: bool, closed: bool)
  {
    predicate MayReplenish() {
      ReplenishmentAllowed(deadline, at)
    }

    function Keep(): nat {
      if Active(state) then pool.replicas else 0
    }
  }

  /** The calls of a pass. `happened` says that the one under way has taken effect, and `taken` how many stray
      containers there were then; `answered` are the calls that came back with success, and `strays` is what the
      first listing of containers showed. */
  datatype Calls = Calls(happened: bool, taken: nat, answered: set<Effect>, strays: Option<nat>)

  const NoCalls := Calls(false, 0, {}, None)

  datatype Sys = Sys(
    mem: State,                  // Engine.state
    disk: State,                 // the SQLite row
    file: Option<Text>,          // config.toml; None when it cannot be read
    approved: Option<Text>,      // the text found by the check that a pending config write relies on
    world: World,
    issued: set<string>,         // every run id ever recorded
    poolIds: set<string>,        // every pool id ever given
    pass: Option<Pass>,
    counted: nat,                // unexpected exits in the report of the current pass
    calls: Calls,                // what the calls of the current pass have brought
    inflight: Option<Effect>)

  datatype Ending = Succeeded(exits: bool) | Broken

  datatype Label =
    | Boot
    | Environment
    | Crash
    | Intent(req: Request)
    | Commit(req: Request, ids: map<string, string>)
    | WriteConfig
    | Finish(req: Request)
    | Reject(mutating: bool)
    | BeginPass(begun: Pass)
    | Issue(effect: Effect)
    | Happen
    | Return(ok: bool)
    | Observe(id: string, phase: Phase, remoteId: Option<nat>)
    | Note(noted: Run)
    | Mark
    | MakeDir(id: string)
    | RemoveDir(id: string)
    | Insert(run: Run)
    | Drop(id: string, completed: bool, unexpected: bool)
    | DeletePool
    | EndPass(ending: Ending, at: nat, jitter: nat, observed: nat)
    | SaveInterrupted
    | Abandon

  function Interrupt(p: Option<Pass>): Option<Pass> {
    match p
    case None => None
    case Some(pass) => Some(pass.(interrupted := true))
  }

  /** The same pass, further on. */
  ghost predicate Continues(p: Option<Pass>, q: Option<Pass>) {
    && p.Some? && q.Some?
    && q.value == p.value.(interrupted := q.value.interrupted, marked := q.value.marked, closed := q.value.closed)
  }

  ghost predicate InPass(s: Sys) {
    s.pass.Some? && !s.pass.value.interrupted && !s.pass.value.closed && s.approved.None? && s.inflight.None?
  }

  ghost function StraysOf(s: Sys): set<string> {
    Strays(s.world, s.mem.managerId, s.mem.runs.Keys)
  }

  /** The calls after the one under way has returned. */
  ghost function Returned(s: Sys, ok: bool): Calls {
    var calls := s.calls.(happened := false, taken := 0);
    if !ok || s.inflight.None? then calls
    else calls.(answered := calls.answered + {s.inflight.value},
                strays := if s.inflight.value.ListContainers? && calls.strays.None? then Some(s.calls.taken)
                  else calls.strays)
  }

  /** The run's output has been read in this pass, and its diagnostic files if its container ever ran. */
  ghost predicate LogsTaken(s: Sys, id: string) {
    && ReadLogs(id) in s.calls.answered
    && (EverStarted(s.world, id) ==> ArchiveDiagnostics(id) in s.calls.answered)
  }

  /** A recorded, non-retiring run of the pass's pool, in a pass that has marked its runs and may replenish. */
  ghost predicate Provisionable(s: Sys, id: string) {
    && InPass(s) && s.pass.value.marked && s.pass.value.MayReplenish()
    && id in s.mem.runs
    && s.mem.runs[id].poolId == s.pass.value.state.id
    && !s.mem.runs[id].retiring
  }

  ghost predicate OfPass(s: Sys, id: string) {
    InPass(s) && id in s.mem.runs && s.mem.runs[id].poolId == s.pass.value.state.id
  }

  /** When the manager may begin an external call. */
  ghost predicate MayIssue(s: Sys, e: Effect) {
    && InPass(s)
    && match e
       case RegistrationToken(id) => Provisionable(s, id)
       case StartContainer(id, _) =>
         Provisionable(s, id) && RegistrationToken(id) in s.calls.answered && !EverStarted(s.world, id)
       case CreateContainer(c) =>
         && Provisionable(s, c.name) && c == ContainerFor(s.mem.managerId, s.mem.runs[c.name])
         && CheckImage(s.mem.runs[c.name].pool.image) in s.calls.answered
         && RegistrationToken(c.name) in s.calls.answered && c.name in s.world.dirs
       case RemoveContainer(id, force) =>
         OfPass(s, id) && s.mem.runs[id].logSaved && if force then s.mem.runs[id].force else !LiveMine(s.world, id)
       case RemoveRegistration(scope, remoteId, name) =>
         OfPass(s, name) && scope == s.pass.value.pool.ApiScope() && !Mine(s.world, name)
             && Bound(s.world, scope, remoteId, name)
       case _ => true
  }

  function NewRun(p: Pass, id: string, createdAt: nat): Run {
    Run(id, p.state.id, p.pool, p.state.generation, createdAt, Creating, None, false, false, false, false)
  }

  /** An identifier that nothing in sight uses. */
  ghost predicate FreshRunId(s: Sys, id: string) {
    && id !in s.issued && id !in s.mem.runs && id !in s.world.containers && id !in s.world.dirs
    && (forall n :: n in s.world.containers ==> s.world.containers[n].run != Some(id))
    && (forall k :: k in s.world.registrations ==> k.1 != id)
  }

  /** No container, no registration in any scope and no directory is left under the run's name. */
  ghost predicate Gone(w: World, id: string) {
    && !Mine(w, id) && id !in w.dirs
    && forall s :: (s, id) !in w.registrations
  }

  function WithRun(st: State, r: Run): State {
    st.(runs := st.runs[r.id := r])
  }

  function Dropped(st: State, name: string, id: string, completed: bool): State {
    st.(runs := st.runs - {id},
        pools := if completed && name in st.pools then st.pools[name := st.pools[name].(failures := 0)] else st.pools)
  }

  ghost function PoolDeleted(st: State, name: string): Option<State> {
    Committed(st.(pools := st.pools - {name}), st.config.(pools := Without(st.config.pools, name)))
  }

  function EndPool(ps: PoolState, ending: Ending, retrying: bool, at: nat, jitter: nat, observed: nat): PoolState {
    (match ending
     case Succeeded(exits) =>
       if exits then RecordFailure(ps, at, jitter, Provisioning)
       else if !retrying then ps.(error := false, retryAt := 0)
       else ps
     case Broken => RecordFailure(ps, at, jitter, Observation)).(observedAt := observed)
  }

  function Forgotten(r: Run): Run {
    if r.phase == Idle || r.phase == Busy || r.phase == Starting then r.(phase := Unknown) else r
  }

  /** The bookkeeping of `tick` after a pass that was not interrupted. */
  ghost function EndState(st: State, name: string, ending: Ending, retrying: bool, at: nat, jitter: nat,
      observed: nat): State {
    if name !in st.pools then st
    else st.(
      pools := st.pools[name := EndPool(st.pools[name], ending, retrying, at, jitter, observed)],
      runs := if ending.Broken?
              then map id | id in st.runs :: if st.runs[id].poolId == st.pools[name].id
                then Forgotten(st.runs[id]) else st.runs[id]
              else st.runs)
  }

  ghost predicate Step(s: Sys, l: Label, t: Sys) {
    match l
    case Boot => false
    case Environment =>
      s.approved.None? && t == s.(world := t.world, file := t.file) && Drift(s.issued, s.world, t.world)
    case Crash =>
      t == s.(mem := s.disk, approved := None, pass := None, counted := 0, calls := NoCalls, inflight := None)
    case Intent(req) =>
      s.approved.None? && IntentOf(s.mem, req) == Some(t.mem)
          && t == s.(mem := t.mem, disk := t.mem, pass := Interrupt(s.pass))
    case Commit(req, ids) =>
      && s.approved.None? && FreshIds(s.mem, req, ids, s.poolIds)
      && Proposed(s.mem, s.file, req, ids) == Some(t.mem)
      && t == s.(mem := t.mem, disk := t.mem, approved := s.file, poolIds := s.poolIds + ids.Values,
          pass := Interrupt(s.pass))
    case WriteConfig =>
      s.approved.Some? && s.file == s.approved && t == s.(file := Some(s.mem.fileHash), approved := None)
    case Finish(req) =>
      s.approved.None? && t.mem == Finished(s.mem, req)
          && t == s.(mem := t.mem, disk := t.mem, pass := Interrupt(s.pass))
    case Reject(mutating) =>
      t == s.(mem := s.disk, approved := None, pass := if mutating then Interrupt(s.pass) else s.pass)
    case BeginPass(p) =>
      && s.pass.None? && s.inflight.None? && s.approved.None?
      && p.name in s.mem.pools && p.state == s.mem.pools[p.name] && Find(s.mem.config.pools, p.name) == Some(p.pool)
      && p.deadline == p.state.retryAt && !(p.deadline > p.at && p.state.retryScope == Observation)
      && !p.interrupted && !p.marked && !p.closed
      && t == s.(pass := Some(p), counted := 0, calls := NoCalls)
    case Issue(e) =>
      MayIssue(s, e) && t == s.(inflight := Some(e), calls := s.calls.(happened := false))
    case Happen =>
      && s.inflight.Some? && s.approved.None? && Takes(s.inflight.value, s.world) == Some(t.world)
      && t == s.(world := t.world, calls := s.calls.(happened := true, taken := |StraysOf(s)|))
    case Return(ok) =>
      (ok ==> s.inflight.Some? && s.calls.happened) && t == s.(inflight := None, calls := Returned(s, ok))
    case Observe(id, phase, remoteId) =>
      s.pass.Some? && s.approved.None? && s.inflight.None? && id in s.mem.runs
          && t == s.(mem := WithRun(s.mem, s.mem.runs[id].(phase := phase, remoteId := remoteId)))
    case Note(r) =>
      && s.pass.Some? && s.approved.None? && s.inflight.None? && r.id in s.mem.runs
      && r == s.mem.runs[r.id].(phase := r.phase, remoteId := r.remoteId, completedJob := r.completedJob,
          logSaved := r.logSaved)
      && (r.logSaved != s.mem.runs[r.id].logSaved ==> r.logSaved && LogsTaken(s, r.id))
      && t == s.(mem := WithRun(s.mem, r), disk := WithRun(s.mem, r))
    case Mark =>
      && InPass(s) && s.pass.value.name in s.mem.pools && Find(s.mem.config.pools, s.pass.value.name).Some?
      && t.mem == MarkRetiring(s.mem, s.pass.value.name)
      && t == s.(mem := t.mem, disk := t.mem, pass := Some(s.pass.value.(marked := true)))
    case MakeDir(id) =>
      Provisionable(s, id) && t == s.(world := s.world.(dirs := s.world.dirs + {id}))
    case RemoveDir(id) =>
      OfPass(s, id) && !Mine(s.world, id) && t == s.(world := s.world.(dirs := s.world.dirs - {id}))
    case Insert(r) =>
      && InPass(s) && s.pass.value.marked && s.pass.value.MayReplenish() && s.counted == 0
      && FreshRunId(s, r.id) && r == NewRun(s.pass.value, r.id, r.createdAt)
      && |PoolRuns(s.mem.runs, s.pass.value.state.id)| < s.pass.value.Keep()
      && s.calls.strays.Some? && |s.mem.runs| + s.calls.strays.value < s.mem.config.manager.maxRunners
      && CheckImage(s.pass.value.pool.image) in s.calls.answered
      && t == s.(mem := WithRun(s.mem, r), disk := WithRun(s.mem, r), issued := s.issued + {r.id})
    case Drop(id, completed, unexpected) =>
      && OfPass(s, id) && Gone(s.world, id)
      && (unexpected ==> !completed && !s.mem.runs[id].retiring && !s.mem.runs[id].force)
      && t == s.(mem := Dropped(s.mem, s.pass.value.name, id, completed),
          disk := Dropped(s.mem, s.pass.value.name, id, completed),
                 counted := s.counted + if unexpected then 1 else 0)
    case DeletePool =>
      && InPass(s) && s.pass.value.state.deleting
      && PoolRuns(s.mem.runs, s.pass.value.state.id) == {}
      && s.file == Some(s.mem.fileHash)
      && PoolDeleted(s.mem, s.pass.value.name) == Some(t.mem)
      && t == s.(mem := t.mem, disk := t.mem, approved := s.file, pass := Some(s.pass.value.(closed := true)))
    case EndPass(ending, at, jitter, observed) =>
      && s.pass.Some? && !s.pass.value.interrupted && s.inflight.None? && s.approved.None?
      && (ending.Succeeded? ==> ending.exits == (s.counted > 0))
      && t.mem == EndState(s.mem, s.pass.value.name, ending, s.pass.value.deadline > s.pass.value.at, at, jitter,
          observed)
      && t == s.(mem := t.mem, disk := t.mem, pass := None)
    case SaveInterrupted =>
      s.pass.Some? && s.approved.None? && s.inflight.None? && t == s.(disk := s.mem, pass := None)
    case Abandon =>
      s.pass.Some? && s.pass.value.closed && s.inflight.None? && t == s.(pass := None, approved := None)
  }

  /* ---- The invariant ---- */

  /** Memory may run ahead of the store only in observed phases and remote ids. */
  ghost predicate NearRun(a: State, b: State, id: string)
    requires id in a.runs && id in b.runs
  {
    a.runs[id] == b.runs[id].(phase := a.runs[id].phase, remoteId := a.runs[id].remoteId)
  }

  ghost predicate Near(a: State, b: State) {
    && a.managerId == b.managerId && a.revision == b.revision && a.config == b.config && a.fileHash == b.fileHash
       && a.pools == b.pools
    && a.runs.Keys == b.runs.Keys
    && (forall id {:trigger NearRun(a, b, id)} :: id in a.runs ==> NearRun(a, b, id))
  }

  ghost predicate Recorded(st: State, issued: set<string>, poolIds: set<string>) {
    st.runs.Keys <= issued && forall n :: n in st.pools ==> st.pools[n].id in poolIds
  }

  ghost predicate InflightOk(s: Sys) {
    s.inflight.Some? ==>
      match s.inflight.value
      case CreateContainer(c) =>
        c.name in s.disk.runs && s.disk.runs[c.name].id == c.name
            && c == ContainerFor(s.disk.managerId, s.disk.runs[c.name])
      case StartContainer(id, _) => id in s.issued
      case RemoveContainer(id, force) => id in s.disk.runs && s.disk.runs[id].logSaved
          && (force ==> s.disk.runs[id].force)
      case RemoveRegistration(scope, remoteId, name) => name in s.issued && !Mine(s.world, name)
          && Bound(s.world, scope, remoteId, name)
      case _ => true
  }

  /** Until it is interrupted, the copies a pass works from agree with memory. */
  ghost predicate SnapshotHolds(st: State, p: Pass) {
    && p.name in st.pools
    && st.pools[p.name].id == p.state.id && st.pools[p.name].generation == p.state.generation
    && st.pools[p.name].running == p.state.running && st.pools[p.name].deleting == p.state.deleting
    && Find(st.config.pools, p.name) == Some(p.pool)
    && (p.marked ==> forall id :: id in st.runs && st.runs[id].poolId == p.state.id && !st.runs[id].retiring
                       ==> st.runs[id].generation == p.state.generation)
  }

  ghost predicate PassOk(s: Sys) {
    s.pass.Some? && !s.pass.value.interrupted && !s.pass.value.closed ==> SnapshotHolds(s.mem, s.pass.value)
  }

  /** The runs of a pool that is not to run are all retiring, so their exits never count. */
  ghost predicate CountOk(s: Sys) {
    s.pass.Some? && !Active(s.pass.value.state) ==> s.counted == 0
  }

  ghost predicate Inv(s: Sys) {
    && StateInv(s.mem) && StateInv(s.disk) && Near(s.mem, s.disk)
    && Recorded(s.disk, s.issued, s.poolIds)
    && NoOrphans(s.disk, s.world, s.issued)
    && InflightOk(s) && PassOk(s) && CountOk(s)
    && (s.approved.Some? ==> s.mem.fileHash == Rendered(s.mem.config))
  }

  /** A first start: the configuration file was read, nothing has been created yet. */
  ghost predicate Initial(s: Sys) {
    && TablesAgree(s.mem) && s.mem.runs == map[] && s.disk == s.mem
    && s.approved.None? && s.pass.None? && s.inflight.None? && s.counted == 0 && s.calls == NoCalls
    && s.issued == {}
       && (forall n :: n in s.mem.pools ==>
             s.mem.pools[n].id in s.poolIds && s.mem.pools[n] == NewPool(s.mem.pools[n].id))
    && NoOrphans(s.disk, s.world, {})
  }
}
