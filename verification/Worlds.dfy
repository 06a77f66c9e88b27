/** What lies outside the manager: containers, registrations, run directories, and how they move by themselves. */
module Worlds {
  import opened Basics
  import opened Config
  import opened States

  datatype Status = Created | Running | Restarting | Paused | Removing | Exited | Dead

  /** A container as `docker inspect` shows it. `ours` says that this manager created it, and `scope` where
      the runner inside registers; neither is visible to the manager. */
  datatype Container = Container(
    name: string, manager: Option<string>, run: Option<string>, pool: Option<string>,
    status: Status, startedAt: Option<nat>, scope: string, ours: bool)

  datatype Remote = Remote(id: nat, online: bool, busy: bool)

  datatype World = World(
    containers: map<string, Container>,
    registrations: map<(string, string), Remote>,   // by scope and runner name
    usedRemoteIds: set<nat>,
    dirs: set<string>,                              // runs/<id> directories
    completed: set<string>)                         // completion markers

  predicate Live(c: Container) {
    c.status == Running || c.status == Restarting || c.status == Paused
  }

  /** `Docker::owned`. */
  predicate Owned(c: Container, manager: string, id: string, poolId: string) {
    c.manager == Some(manager) && c.run == Some(id) && c.pool == Some(poolId)
  }

  predicate Mine(w: World, id: string) {
    id in w.containers && w.containers[id].ours
  }

  predicate LiveMine(w: World, id: string) {
    Mine(w, id) && Live(w.containers[id])
  }

  /** The run's container has been running at some time. */
  predicate EverStarted(w: World, id: string) {
    Mine(w, id) && w.containers[id].startedAt.Some?
  }

  /** Docker notes a start time when a container first runs, and "created" is what one is that never has. */
  predicate Dated(c: Container) {
    (Live(c) ==> c.startedAt.Some?) && (c.status == Created ==> c.startedAt.None?)
  }

  predicate SameLabels(a: Container, b: Container) {
    a.name == b.name && a.manager == b.manager && a.run == b.run && a.pool == b.pool && a.scope == b.scope
  }

  /** The container that `Docker::create` makes for a run. */
  function ContainerFor(manager: string, run: Run): Container {
    Container(run.id, Some(manager), Some(run.id), Some(run.poolId), Created, None, run.pool.ApiScope(), true)
  }

  /* ---- What the store must know about the world ---- */

  ghost predicate ContainerOk(st: State, w: World, issued: set<string>, n: string)
    requires n in w.containers
  {
    var c := w.containers[n];
    && c.name == n
    && (c.ours ==> n in st.runs && SameLabels(c, ContainerFor(st.managerId, st.runs[n])) && st.runs[n].id == n)
    && (c.ours ==> Dated(c))
    && (!c.ours ==> n !in issued && (c.run.Some? ==> c.run.value !in issued))
  }

  ghost predicate RegistrationOk(st: State, w: World, issued: set<string>, k: (string, string)) {
    k.1 in issued ==> k.1 in st.runs && k.0 == st.runs[k.1].pool.ApiScope()
  }

  predicate RemoteIdsOk(w: World) {
    && (forall k :: k in w.registrations ==> w.registrations[k].id in w.usedRemoteIds)
    && (forall k, l :: k in w.registrations && l in w.registrations && k != l && k.0 == l.0 ==>
        w.registrations[k].id != w.registrations[l].id)
  }

  /** No orphans: every container the manager created, every registration under a run id and every run
      directory belongs to a recorded run, with the labels and the scope of that record. */
  ghost predicate NoOrphans(st: State, w: World, issued: set<string>) {
    && (forall n {:trigger ContainerOk(st, w, issued, n)} :: n in w.containers ==> ContainerOk(st, w, issued, n))
    && (forall k {:trigger RegistrationOk(st, w, issued, k)} :: k in w.registrations ==>
        RegistrationOk(st, w, issued, k))
    && w.dirs <= st.runs.Keys
    && RemoteIdsOk(w)
  }

  /* ---- Movement by itself: the environment assumptions ---- */

  /** A runner can register only while its container is live, and only where that container points. */
  predicate CanRegister(w: World, k: (string, string)) {
    LiveMine(w, k.1) && w.containers[k.1].scope == k.0
  }

  /** Containers created by the manager keep their labels, come only from the manager and never start by themselves. */
  predicate ContainerDrift(issued: set<string>, w: World, v: World, n: string)
    requires n in v.containers
  {
    var c := v.containers[n];
    && (c.ours ==> Mine(w, n) && SameLabels(w.containers[n], c) && Dated(c))
    && (c.ours ==> (Live(c) ==> Live(w.containers[n])) && c.startedAt == w.containers[n].startedAt)
    && (!c.ours ==> c.name == n && n !in issued && (c.run.Some? ==> c.run.value !in issued))
  }

  /** A registration stays, or is new: with an id never used before, and for one of our runners only if it could
      register. */
  predicate RegistrationDrift(issued: set<string>, w: World, v: World, k: (string, string))
    requires k in v.registrations
  {
    || (k in w.registrations && w.registrations[k].id == v.registrations[k].id)
    || (v.registrations[k].id !in w.usedRemoteIds && (k.1 in issued ==> CanRegister(w, k)))
  }

  predicate Drift(issued: set<string>, w: World, v: World) {
    && (forall n {:trigger ContainerDrift(issued, w, v, n)} :: n in v.containers ==> ContainerDrift(issued, w, v, n))
    && (forall k {:trigger RegistrationDrift(issued, w, v, k)} :: k in v.registrations ==>
        RegistrationDrift(issued, w, v, k))
    && v.dirs == w.dirs
    && w.usedRemoteIds <= v.usedRemoteIds
    && RemoteIdsOk(v)
  }

  lemma DriftFromItself(issued: set<string>, st: State, w: World)
    requires NoOrphans(st, w, issued)
    ensures Drift(issued, w, w)
  {
    forall n | n in w.containers ensures ContainerDrift(issued, w, w, n) {
      assert ContainerOk(st, w, issued, n);
    }
    forall k | k in w.registrations ensures RegistrationDrift(issued, w, w, k) {
    }
  }

  lemma DriftKeepsNoOrphans(st: State, issued: set<string>, w: World, v: World)
    requires NoOrphans(st, w, issued) && Drift(issued, w, v)
    ensures NoOrphans(st, v, issued)
  {
    forall n | n in v.containers ensures ContainerOk(st, v, issued, n) {
      assert ContainerDrift(issued, w, v, n);
      if v.containers[n].ours {
        assert ContainerOk(st, w, issued, n);
      }
    }
    forall k | k in v.registrations ensures RegistrationOk(st, v, issued, k) {
      assert RegistrationDrift(issued, w, v, k);
      if k in w.registrations {
        assert RegistrationOk(st, w, issued, k);
      }
      if CanRegister(w, k) {
        assert ContainerOk(st, w, issued, k.1);
      }
    }
  }

  /* ---- What stays true about the runs that nobody touches ---- */

  /** From `w` to `v` no untouched run gained a container, went live, or gained a registration it could not have made.
      */
  ghost predicate CalmRun(issued: set<string>, w: World, v: World, id: string) {
    && (Mine(v, id) ==> Mine(w, id) && SameLabels(w.containers[id], v.containers[id]))
    && (LiveMine(v, id) ==> LiveMine(w, id)) && (EverStarted(v, id) ==> EverStarted(w, id))
    && (id in v.dirs <==> id in w.dirs)
    && (forall s :: (s, id) in v.registrations ==>
          || ((s, id) in w.registrations && w.registrations[(s, id)].id == v.registrations[(s, id)].id)
          || CanRegister(w, (s, id)))
  }

  /** A remote id is never given to another registration. */
  ghost predicate IdKept(w: World, v: World, k: (string, string))
    requires k in v.registrations
  {
    (k in w.registrations && w.registrations[k].id == v.registrations[k].id)
        || v.registrations[k].id !in w.usedRemoteIds
  }

  ghost predicate Calm(issued: set<string>, w: World, v: World, touched: set<string>) {
    && (forall id {:trigger CalmRun(issued, w, v, id)} :: id in issued && id !in touched ==> CalmRun(issued, w, v, id))
    && (forall k {:trigger IdKept(w, v, k)} :: k in v.registrations ==> IdKept(w, v, k))
    && w.usedRemoteIds <= v.usedRemoteIds
  }

  lemma CalmToItself(issued: set<string>, w: World)
    ensures Calm(issued, w, w, {})
  {
    forall id | id in issued ensures CalmRun(issued, w, w, id) {
    }
    forall k | k in w.registrations ensures IdKept(w, w, k) {
    }
  }

  lemma CalmKeepsBound(issued: set<string>, w: World, v: World, touched: set<string>, scope: string, remoteId: nat,
      name: string)
    requires Calm(issued, w, v, touched) && Bound(w, scope, remoteId, name)
    ensures Bound(v, scope, remoteId, name)
  {
    forall k | k in v.registrations && k.0 == scope && v.registrations[k].id == remoteId ensures k.1 == name {
      assert IdKept(w, v, k);
    }
  }

  lemma CalmRunChains(issued: set<string>, w: World, v: World, u: World, id: string)
    requires CalmRun(issued, w, v, id) && CalmRun(issued, v, u, id)
    ensures CalmRun(issued, w, u, id)
  {
  }

  lemma CalmChains(issued: set<string>, w: World, v: World, u: World, a: set<string>, b: set<string>)
    requires Calm(issued, w, v, a) && Calm(issued, v, u, b)
    ensures Calm(issued, w, u, a + b)
  {
    forall id | id in issued && id !in a + b ensures CalmRun(issued, w, u, id) {
      assert CalmRun(issued, w, v, id) && CalmRun(issued, v, u, id);
      CalmRunChains(issued, w, v, u, id);
    }
    forall k | k in u.registrations ensures IdKept(w, u, k) {
      assert IdKept(v, u, k);
      if k in v.registrations { assert IdKept(w, v, k); }
    }
  }

  lemma DriftIsCalm(issued: set<string>, w: World, v: World)
    requires Drift(issued, w, v)
    ensures Calm(issued, w, v, {})
  {
    forall id | id in issued ensures CalmRun(issued, w, v, id) {
      if id in v.containers {
        assert ContainerDrift(issued, w, v, id);
      }
      forall s | (s, id) in v.registrations
        ensures ((s, id) in w.registrations && w.registrations[(s, id)].id == v.registrations[(s, id)].id)
            || CanRegister(w, (s, id))
      {
        assert RegistrationDrift(issued, w, v, (s, id));
      }
    }
    forall k | k in v.registrations ensures IdKept(w, v, k) {
      assert RegistrationDrift(issued, w, v, k);
    }
  }

  /** A remote id that names only this runner in this scope, now and later. */
  ghost predicate Bound(w: World, scope: string, remoteId: nat, name: string) {
    && remoteId in w.usedRemoteIds
    && forall k :: k in w.registrations && k.0 == scope && w.registrations[k].id == remoteId ==> k.1 == name
  }

  lemma DriftKeepsBound(issued: set<string>, w: World, v: World, scope: string, remoteId: nat, name: string)
    requires Drift(issued, w, v) && Bound(w, scope, remoteId, name)
    ensures Bound(v, scope, remoteId, name)
  {
    forall k | k in v.registrations && k.0 == scope && v.registrations[k].id == remoteId ensures k.1 == name {
      assert RegistrationDrift(issued, w, v, k);
    }
  }

  /* ---- External effects ---- */

  datatype Effect =
    | ListContainers
    | ListRunners(scope: string, cached: bool)
    | CheckImage(image: string)
    | ReadLogs(id: string)
    | ArchiveDiagnostics(id: string)
    | ReadBootTime(image: string)
    | RepairDirectory(id: string)
    | RegistrationToken(id: string)
    | CreateContainer(container: Container)
    | StartContainer(id: string, at: nat)
    | RemoveContainer(id: string, force: bool)
    | RemoveRegistration(scope: string, remoteId: nat, name: string)

  function WithStatus(w: World, id: string, status: Status, startedAt: Option<nat>): World
    requires id in w.containers
  {
    w.(containers := w.containers[id := w.containers[id].(status := status, startedAt := startedAt)])
  }

  /** What the effect makes of the world when it takes place; None when the daemon refuses it. `docker rm` without
      --force refuses a live container, and deleting a registration that is gone already is a success. */
  function Takes(e: Effect, w: World): Option<World> {
    match e
    case CreateContainer(c) =>
      if c.name in w.containers then None else Some(w.(containers := w.containers[c.name := c]))
    case StartContainer(id, at) =>
      if id !in w.containers then None
      else if Live(w.containers[id]) then Some(w)
      else Some(WithStatus(w, id, Running, Some(at)))
    case RemoveContainer(id, force) =>
      if id !in w.containers || (Live(w.containers[id]) && !force) then None
      else Some(w.(containers := w.containers - {id}))
    case RemoveRegistration(scope, remoteId, _) =>
      Some(w.(registrations := map k | k in w.registrations
          && !(k.0 == scope && w.registrations[k].id == remoteId) :: w.registrations[k]))
    case _ => Some(w)
  }

  /** The runs an effect may wake up. */
  function Touched(e: Effect): set<string> {
    match e
    case CreateContainer(c) => {c.name}
    case StartContainer(id, _) => {id}
    case _ => {}
  }

  /** The containers an effect may change at all. */
  function Aim(e: Effect): set<string> {
    match e
    case RemoveContainer(id, _) => {id}
    case _ => Touched(e)
  }

  lemma EffectIsCalm(issued: set<string>, e: Effect, w: World, v: World)
    requires Takes(e, w) == Some(v)
    ensures Calm(issued, w, v, Touched(e))
  {
    forall id | id in issued && id !in Touched(e) ensures CalmRun(issued, w, v, id) {
    }
    forall k | k in v.registrations ensures IdKept(w, v, k) {
    }
  }

  lemma EffectKeepsNoOrphans(st: State, issued: set<string>, e: Effect, w: World, v: World)
    requires NoOrphans(st, w, issued) && Takes(e, w) == Some(v)
    requires e.CreateContainer? ==> e.container.name in st.runs && st.runs[e.container.name].id == e.container.name
                                    && e.container == ContainerFor(st.managerId, st.runs[e.container.name])
    ensures NoOrphans(st, v, issued)
  {
    forall n | n in v.containers ensures ContainerOk(st, v, issued, n) {
      if n in w.containers { assert ContainerOk(st, w, issued, n); }
    }
    forall k | k in v.registrations ensures RegistrationOk(st, v, issued, k) {
      assert RegistrationOk(st, w, issued, k);
    }
  }

  /** NoOrphans looks only at the identity, the pool and the scope of the records. */
  ghost predicate SameIdentities(a: State, b: State) {
    && a.managerId == b.managerId && a.runs.Keys == b.runs.Keys
    && forall id :: id in a.runs ==>
              a.runs[id].id == b.runs[id].id && a.runs[id].poolId == b.runs[id].poolId
              && a.runs[id].pool == b.runs[id].pool
  }

  lemma NoOrphansFrame(a: State, b: State, w: World, issued: set<string>)
    requires NoOrphans(a, w, issued) && SameIdentities(a, b)
    ensures NoOrphans(b, w, issued)
  {
    forall n | n in w.containers ensures ContainerOk(b, w, issued, n) {
      assert ContainerOk(a, w, issued, n);
    }
    forall k | k in w.registrations ensures RegistrationOk(b, w, issued, k) {
      assert RegistrationOk(a, w, issued, k);
    }
  }

  /* ---- Listings ---- */

  /** A listing taken of a world: every container of the manager appears with its labels and its status, and
      whatever else carries the manager's label belongs to no issued run. */
  ghost predicate ListingOf(listing: seq<Container>, w: World, manager: string) {
    && (forall c :: c in listing ==> c.name in w.containers && w.containers[c.name] == c && c.manager == Some(manager))
    && (forall n :: n in w.containers && w.containers[n].manager == Some(manager) ==> w.containers[n] in listing)
    && (forall i, j :: 0 <= i < j < |listing| ==> listing[i] != listing[j])
  }

  /** Containers that carry the manager's label but belong to no recorded run. */
  ghost function Strays(w: World, manager: string, runs: set<string>): set<string> {
    set n | n in w.containers && w.containers[n].manager == Some(manager)
            && !(w.containers[n].run.Some? && w.containers[n].run.value in runs)
  }

  function FindOwned(listing: seq<Container>, manager: string, id: string, poolId: string): (r: Option<Container>)
    ensures r.Some? ==> r.value in listing && Owned(r.value, manager, id, poolId)
    ensures r.Some? ==> r.value.manager == Some(manager) && r.value.run == Some(id) && r.value.pool == Some(poolId)
    ensures r.None? ==> forall c :: c in listing ==> !Owned(c, manager, id, poolId)
    ensures r.None? ==>
              forall c :: c in listing ==> !(c.manager == Some(manager) && c.run == Some(id) && c.pool == Some(poolId))
  {
    if listing == [] then None
    else if Owned(listing[0], manager, id, poolId) then Some(listing[0])
    else FindOwned(listing[1..], manager, id, poolId)
  }

  /** What a listing still says about a run in a later world. */
  ghost predicate Trusted(listing: seq<Container>, manager: string, id: string, poolId: string, w: World) {
    var c := FindOwned(listing, manager, id, poolId);
    && (c.None? ==> !Mine(w, id))
    && (c.Some? && !Live(c.value) ==> !LiveMine(w, id))
    && (c.Some? && (c.value.startedAt.None? || c.value.status == Created) ==> !EverStarted(w, id))
  }

  /** `c` is the run's container as it is, or there is none. */
  predicate ShownAs(w: World, id: string, c: Option<Container>) {
    if c.Some? then Mine(w, id) && w.containers[id] == c.value else id !in w.containers
  }

  /** The listing shows exactly what is there. */
  ghost predicate Exact(listing: seq<Container>, manager: string, id: string, poolId: string, w: World) {
    ShownAs(w, id, FindOwned(listing, manager, id, poolId))
  }

  lemma FreshListingIsExact(st: State, w: World, issued: set<string>, listing: seq<Container>, id: string)
    requires NoOrphans(st, w, issued) && st.runs.Keys <= issued && ListingOf(listing, w, st.managerId)
    requires id in st.runs && st.runs[id].id == id
    ensures Exact(listing, st.managerId, id, st.runs[id].poolId, w)
    ensures Trusted(listing, st.managerId, id, st.runs[id].poolId, w)
  {
    var c := FindOwned(listing, st.managerId, id, st.runs[id].poolId);
    if id in w.containers {
      IsListed(st, w, issued, listing, id);
    }
    if c.Some? {
      assert ContainerOk(st, w, issued, c.value.name);
    }
  }

  /** Whatever carries the name of a recorded run is its container, and in the listing. */
  lemma IsListed(st: State, w: World, issued: set<string>, listing: seq<Container>, id: string)
    requires NoOrphans(st, w, issued) && st.runs.Keys <= issued && ListingOf(listing, w, st.managerId)
    requires id in st.runs && st.runs[id].id == id && id in w.containers
    ensures w.containers[id] in listing && Owned(w.containers[id], st.managerId, id, st.runs[id].poolId)
  {
    assert ContainerOk(st, w, issued, id);
  }

  lemma CalmKeepsTrust(issued: set<string>, listing: seq<Container>, manager: string, id: string, poolId: string,
      w: World, v: World, touched: set<string>)
    requires Trusted(listing, manager, id, poolId, w) && Calm(issued, w, v, touched) && id in issued && id !in touched
    ensures Trusted(listing, manager, id, poolId, v)
  {
    assert CalmRun(issued, w, v, id);
  }
}
