/** Control requests and what each of them makes of the state. */
module Requests {
  import opened Basics
  import opened Sorting
  import opened Config
  import opened States
  import opened Retiring

  datatype Request =
    | Status(pool: Option<string>)
    | Add(added: Pool)
    | Start(target: Option<string>, all: bool)
    | Stop(target: Option<string>, all: bool, force: bool)
    | Scale(name: string, replicas: nat)
    | Remove(name: string, force: bool)
    | Upgrade(name: string, image: string)
    | Apply(text: Text, revision: nat)
    | SetAuth(profile: string, auth: Auth)
    | Logs(name: string, id: string)
    | Doctor
  {
    predicate ChangesConfig() {
      Add? || Scale? || Upgrade? || SetAuth?
    }

    predicate Mutating() {
      !Status?
    }

    /** The explicit wish to kill work, and the pools it is aimed at. */
    predicate Forces(st: State, name: string) {
      || (Stop? && force && name in st.pools && (all || target == Some(name)))
      || (Remove? && force && name == this.name)
    }
  }

  /** `targets`: the named pool or all of them; naming both or neither is an error. */
  function Targets(st: State, pool: Option<string>, all: bool): Option<set<string>> {
    if pool.Some? == all then None
    else if pool.Some? then (if pool.value in st.pools then Some({pool.value}) else None)
    else Some(st.pools.Keys)
  }

  /* ---- Start, Stop, Remove: intent only ---- */

  function Started(ps: PoolState): PoolState {
    ps.(running := true, retryAt := 0, failures := 0, error := false)
  }

  function Halted(ps: PoolState, deleting: bool, force: bool): PoolState {
    ps.(running := false, deleting := ps.deleting || deleting, retryAt := if force then 0 else ps.retryAt)
  }

  predicate Targeted(pools: map<string, PoolState>, targets: set<string>, r: Run) {
    exists n :: n in targets && n in pools && pools[n].id == r.poolId
  }

  function Retire(r: Run, force: bool): Run {
    r.(retiring := true, force := r.force || force)
  }

  ghost function StartAll(st: State, targets: set<string>): State {
    st.(pools := map n | n in st.pools :: if n in targets then Started(st.pools[n]) else st.pools[n])
  }

  ghost function HaltAll(st: State, targets: set<string>, deleting: bool, force: bool): State {
    st.(pools := map n | n in st.pools :: if n in targets then Halted(st.pools[n], deleting, force) else st.pools[n],
        runs := map id | id in st.runs :: if Targeted(st.pools, targets, st.runs[id])
          then Retire(st.runs[id], force) else st.runs[id])
  }

  ghost predicate AnyDeleting(st: State, targets: set<string>) {
    exists n :: n in targets && n in st.pools && st.pools[n].deleting
  }

  /** The state that a successful Start, Stop or Remove leaves. */
  ghost function IntentOf(st: State, req: Request): Option<State> {
    match req
    case Start(target, all) =>
      var ts := Targets(st, target, all);
      if ts.None? || AnyDeleting(st, ts.value) then None else Some(StartAll(st, ts.value))
    case Stop(target, all, force) =>
      var ts := Targets(st, target, all);
      if ts.None? then None else Some(HaltAll(st, ts.value, false, force))
    case Remove(name, force) =>
      if name !in st.pools then None else Some(HaltAll(st, {name}, true, force))
    case _ => None
  }

  /* ---- Requests that commit a configuration ---- */

  /** `commit_config` up to the point where the store holds the new configuration. */
  ghost function Committed(st: State, next: Config): Option<State> {
    if ValidConfig(next) then Some(st.(config := next, revision := st.revision + 1, fileHash := Rendered(next)))
      else None
  }

  /** A running pool keeps its scope and profile; a stopped one may change them once no run is left. */
  ghost predicate MayEdit(st: State, was: Pool, next: Pool) {
    && was.name in st.pools
    && !st.pools[was.name].deleting
    && (SameScope(was, next) || (!st.pools[was.name].running && PoolRuns(st.runs, st.pools[was.name].id) == {}))
  }

  ghost predicate MayApply(st: State, next: Config) {
    && Names(st.config.pools) <= Names(next.pools)
    && (forall n :: n in Names(st.config.pools) ==>
        MayEdit(st, Find(st.config.pools, n).value, Find(next.pools, n).value))
    && (forall id :: id in st.runs ==> st.runs[id].pool.auth in next.auth)
  }

  /** Pool states under a new configuration: a generation step where settings changed, a new entry for a new pool. */
  ghost function AppliedPools(st: State, next: Config, ids: map<string, string>): map<string, PoolState> {
    map n | n in Names(next.pools) + st.pools.Keys ::
      if n in st.pools then
        if n in Names(next.pools) && n in Names(st.config.pools)
            && !SameSettings(Find(st.config.pools, n).value, Find(next.pools, n).value)
        then st.pools[n].(generation := st.pools[n].generation + 1)
        else st.pools[n]
      else NewPool(if n in ids then ids[n] else "")
  }

  /** The state that the request wants to commit, or None when it is refused. `ids` are the UUIDs for new pools. */
  ghost function Proposed(st: State, file: Option<Text>, req: Request, ids: map<string, string>): Option<State> {
    match req
    case Add(p) =>
      if file != Some(st.fileHash) || p.name in st.pools then None
      else Committed(st.(pools := st.pools[p.name := NewPool(if p.name in ids then ids[p.name] else "")]),
                     st.config.(pools := st.config.pools + [p]))
    case Scale(name, replicas) =>
      var p := Find(st.config.pools, name);
      if file != Some(st.fileHash) || p.None? || name !in st.pools || st.pools[name].deleting then None
      else Committed(st, st.config.(pools := Replace(st.config.pools, name, p.value.(replicas := replicas))))
    case Upgrade(name, image) =>
      var p := Find(st.config.pools, name);
      if file != Some(st.fileHash) || p.None? || name !in st.pools || st.pools[name].deleting then None
      else Committed(st.(pools := st.pools[name := st.pools[name].(generation := st.pools[name].generation + 1)]),
                     st.config.(pools := Replace(st.config.pools, name, p.value.(image := image))))
    case SetAuth(profile, auth) =>
      if file != Some(st.fileHash) || profile == "" then None
      else Committed(st, st.config.(auth := st.config.auth[profile := auth]))
    case Apply(text, revision) =>
      var next := text.Parsed();
      if st.revision != revision || file != Some(text) || next.None? || !ValidConfig(next.value)
          || !MayApply(st, next.value) then None
      else Committed(st.(pools := AppliedPools(st, next.value, ids)), next.value)
    case _ => None
  }

  /** Fresh identifiers for the pools a request adds. */
  ghost predicate FreshIds(st: State, req: Request, ids: map<string, string>, used: set<string>) {
    && (forall n :: n in ids ==> ids[n] !in used)
    && (forall m, n :: m in ids && n in ids && m != n ==> ids[m] != ids[n])
    && (req.Add? ==> req.added.name in ids)
    && (req.Apply? && req.text.Parsed().Some? ==> Names(req.text.Parsed().value.pools) - st.pools.Keys <= ids.Keys)
  }

  ghost function MarkAll(st: State, names: seq<string>): State
    decreases |names|
  {
    if names == [] then st
    else
      var before := MarkAll(st, names[..|names| - 1]);
      var last := names[|names| - 1];
      if last in before.pools && Find(before.config.pools, last).Some? then MarkRetiring(before, last) else before
  }

  function ClearedBackoff(ps: PoolState): PoolState {
    ps.(retryAt := 0, failures := 0, error := false)
  }

  predicate UsesProfile(c: Config, name: string, profile: string) {
    exists p :: p in c.pools && p.name == name && p.auth == profile
  }

  /** What follows the commit of the request's configuration. */
  ghost function Finished(st: State, req: Request): State {
    match req
    case Scale(name, _) => MarkAll(st, [name])
    case Upgrade(name, _) => MarkAll(st, [name])
    case Apply(_, _) => MarkAll(st, SortedNames(st))
    case SetAuth(profile, _) =>
      st.(pools := map n | n in st.pools :: if UsesProfile(st.config, n, profile)
        then ClearedBackoff(st.pools[n]) else st.pools[n])
    case _ => st
  }

  /** The order in which a BTreeMap with these keys is traversed. */
  function InOrder(keys: set<string>): (r: seq<string>)
    ensures |r| == |keys| && forall x :: x in keys <==> x in r
  {
    NameOrderIsLinear(keys);
    Sorted(NameOrder(), keys)
  }

  lemma InOrderIsOrdered(keys: set<string>)
    ensures Ordered(NameOrder(), keys, InOrder(keys))
  {
    NameOrderIsLinear(keys);
    SortedIsOrdered(NameOrder(), keys);
  }

  lemma InOrderAscends(keys: set<string>, i: nat, j: nat)
    requires i < j < |InOrder(keys)|
    ensures Less(InOrder(keys)[i], InOrder(keys)[j])
  {
    InOrderIsOrdered(keys);
  }

  function SortedNames(st: State): (r: seq<string>)
    ensures |r| == |st.pools.Keys| && forall x :: x in st.pools.Keys <==> x in r
  {
    InOrder(st.pools.Keys)
  }

  /* ---- Preservation ---- */

  /** What a request may do to recorded runs and pools: never drop one, never take back an intent. */
  ghost predicate SameRecord(a: Run, b: Run) {
    && a.id == b.id && a.poolId == b.poolId && a.pool == b.pool && a.generation == b.generation
       && a.createdAt == b.createdAt
    && a.completedJob == b.completedJob && a.logSaved == b.logSaved
  }

  ghost predicate KeepsIntent(a: Run, b: Run) {
    SameRecord(a, b) && (a.retiring ==> b.retiring) && (a.force ==> b.force)
  }

  ghost predicate Evolves(a: State, b: State) {
    && a.managerId == b.managerId
    && a.runs.Keys == b.runs.Keys
    && (forall id :: id in a.runs ==> KeepsIntent(a.runs[id], b.runs[id]))
    && a.pools.Keys <= b.pools.Keys
    && (forall n :: n in a.pools ==> a.pools[n].id == b.pools[n].id)
  }

  lemma StartKeepsInvariant(st: State, targets: set<string>)
    requires StateInv(st) && targets <= st.pools.Keys && !AnyDeleting(st, targets)
    ensures StateInv(StartAll(st, targets)) && Evolves(st, StartAll(st, targets))
  {
    var after := StartAll(st, targets);
    SameIdsAreDistinct(st.pools, after.pools);
    forall id | id in after.runs ensures Fits(after, id) {
      assert Fits(st, id);
    }
  }

  lemma HaltedRunFits(st: State, targets: set<string>, deleting: bool, force: bool, id: string)
    requires id in st.runs && Fits(st, id) && targets <= st.pools.Keys
    ensures Fits(HaltAll(st, targets, deleting, force), id)
  {
    var n := st.runs[id].pool.name;
    if n in targets {
      assert Targeted(st.pools, targets, st.runs[id]);
    }
  }

  lemma HaltKeepsTables(st: State, targets: set<string>, deleting: bool, force: bool)
    requires TablesAgree(st)
    ensures TablesAgree(HaltAll(st, targets, deleting, force))
  {
    SameIdsAreDistinct(st.pools, HaltAll(st, targets, deleting, force).pools);
  }

  lemma HaltEvolves(st: State, targets: set<string>, deleting: bool, force: bool)
    ensures Evolves(st, HaltAll(st, targets, deleting, force))
  {
  }

  lemma HaltKeepsInvariant(st: State, targets: set<string>, deleting: bool, force: bool)
    requires StateInv(st) && targets <= st.pools.Keys
    ensures StateInv(HaltAll(st, targets, deleting, force)) && Evolves(st, HaltAll(st, targets, deleting, force))
  {
    HaltKeepsTables(st, targets, deleting, force);
    HaltEvolves(st, targets, deleting, force);
    forall id | id in st.runs ensures Fits(HaltAll(st, targets, deleting, force), id) {
      assert Fits(st, id);
      HaltedRunFits(st, targets, deleting, force, id);
    }
  }

  lemma IntentKeepsInvariant(st: State, req: Request)
    requires StateInv(st) && IntentOf(st, req).Some?
    ensures StateInv(IntentOf(st, req).value) && Evolves(st, IntentOf(st, req).value)
  {
    match req
    case Start(target, all) => StartKeepsInvariant(st, Targets(st, target, all).value);
    case Stop(target, all, force) => HaltKeepsInvariant(st, Targets(st, target, all).value, false, force);
    case Remove(name, force) => HaltKeepsInvariant(st, {name}, true, force);
    case _ =>
  }

  /** The runs and pool ids are untouched; only the configuration and the pool table changed. */
  ghost predicate SameRuns(a: State, b: State) {
    && a.managerId == b.managerId && a.runs == b.runs
    && a.pools.Keys <= b.pools.Keys
    && (forall n :: n in a.pools ==> a.pools[n].id == b.pools[n].id)
  }

  lemma SameRunsEvolves(a: State, b: State)
    requires SameRuns(a, b)
    ensures Evolves(a, b)
  {
  }

  lemma AddKeepsTables(st: State, p: Pool, id: string, after: State)
    requires TablesAgree(st) && p.name !in st.pools && forall n :: n in st.pools ==> st.pools[n].id != id
    requires after.pools == st.pools[p.name := NewPool(id)]
    requires after.config == st.config.(pools := st.config.pools + [p]) && ValidConfig(after.config)
    ensures TablesAgree(after)
  {
    assert Names(after.config.pools) == Names(st.config.pools) + {p.name};
    forall m: string, n: string ensures IdsApart(after.pools, m, n) {
      assert IdsApart(st.pools, m, n);
    }
    TablesMatch(after);
  }

  lemma AddKeepsInvariant(st: State, p: Pool, id: string, after: State)
    requires StateInv(st) && p.name !in st.pools && forall n :: n in st.pools ==> st.pools[n].id != id
    requires after.pools == st.pools[p.name := NewPool(id)] && after.runs == st.runs && after.managerId == st.managerId
    requires after.config == st.config.(pools := st.config.pools + [p]) && ValidConfig(after.config)
    ensures StateInv(after) && SameRuns(st, after)
  {
    AddKeepsTables(st, p, id, after);
    forall x | x in st.runs ensures Fits(after, x) {
      assert Fits(st, x);
      FindInAppended(st.config.pools, p, st.runs[x].pool.name);
    }
  }

  lemma ScaleKeepsInvariant(st: State, p: Pool, replicas: nat, after: State)
    requires StateInv(st) && Find(st.config.pools, p.name) == Some(p)
    requires after.pools == st.pools && after.runs == st.runs && after.managerId == st.managerId
    requires after.config == st.config.(pools := Replace(st.config.pools, p.name, p.(replicas := replicas)))
             && ValidConfig(after.config)
    ensures StateInv(after) && SameRuns(st, after)
  {
    ReplaceKeepsTheRest(st.config.pools, p.name, p.(replicas := replicas));
    forall x | x in after.runs ensures Fits(after, x) {
      assert Fits(st, x);
    }
  }

  lemma UpgradeKeepsTables(st: State, p: Pool, image: string, after: State)
    requires TablesAgree(st) && Find(st.config.pools, p.name) == Some(p) && p.name in st.pools
    requires after.pools == st.pools[p.name := st.pools[p.name].(generation := st.pools[p.name].generation + 1)]
    requires after.config == st.config.(pools := Replace(st.config.pools, p.name, p.(image := image)))
             && ValidConfig(after.config)
    ensures TablesAgree(after)
  {
    ReplaceKeepsNames(st.config.pools, p.name, p.(image := image));
    SameIdsAreDistinct(st.pools, after.pools);
    TablesMatch(after);
  }

  lemma ReplaceKeepsNames(pools: seq<Pool>, name: string, p: Pool)
    requires p.name == name && name in Names(pools) && UniqueNames(pools)
    ensures Names(Replace(pools, name, p)) == Names(pools)
  {
    ReplaceKeepsTheRest(pools, name, p);
  }

  lemma TablesMatch(st: State)
    requires ValidConfig(st.config) && st.pools.Keys == Names(st.config.pools) && DistinctIds(st.pools)
    requires forall n :: n in st.pools && st.pools[n].deleting ==> !st.pools[n].running
    ensures TablesAgree(st)
  {
  }

  lemma SameIdsAreDistinct(pools: map<string, PoolState>, after: map<string, PoolState>)
    requires DistinctIds(pools) && after.Keys == pools.Keys && forall n :: n in pools ==> after[n].id == pools[n].id
    ensures DistinctIds(after)
  {
    forall m: string, n: string ensures IdsApart(after, m, n) {
      assert IdsApart(pools, m, n);
    }
  }

  lemma UpgradeKeepsInvariant(st: State, p: Pool, image: string, after: State)
    requires StateInv(st) && Find(st.config.pools, p.name) == Some(p) && p.name in st.pools
    requires after.pools == st.pools[p.name := st.pools[p.name].(generation := st.pools[p.name].generation + 1)]
    requires after.runs == st.runs && after.managerId == st.managerId
    requires after.config == st.config.(pools := Replace(st.config.pools, p.name, p.(image := image)))
             && ValidConfig(after.config)
    ensures StateInv(after) && SameRuns(st, after)
  {
    UpgradeKeepsTables(st, p, image, after);
    forall x | x in st.runs ensures Fits(after, x) {
      assert Fits(st, x);
      UpgradeKeepsRun(st, p, image, after, x);
    }
  }

  lemma UpgradeKeepsRun(st: State, p: Pool, image: string, after: State, x: string)
    requires UniqueNames(st.config.pools) && Find(st.config.pools, p.name) == Some(p) && p.name in st.pools
    requires after.pools == st.pools[p.name := st.pools[p.name].(generation := st.pools[p.name].generation + 1)]
    requires after.runs == st.runs && after.config.pools == Replace(st.config.pools, p.name, p.(image := image))
    requires x in st.runs && Fits(st, x)
    ensures Fits(after, x)
  {
    ReplaceKeepsTheRest(st.config.pools, p.name, p.(image := image));
  }

  lemma AuthKeepsInvariant(st: State, profile: string, auth: Auth, after: State)
    requires StateInv(st) && after.pools == st.pools && after.runs == st.runs && after.managerId == st.managerId
    requires after.config == st.config.(auth := st.config.auth[profile := auth]) && ValidConfig(after.config)
    ensures StateInv(after) && SameRuns(st, after)
  {
    forall x | x in after.runs ensures Fits(after, x) {
      assert Fits(st, x);
    }
  }

  lemma AppliedId(st: State, next: Config, ids: map<string, string>, n: string)
    requires n in AppliedPools(st, next, ids) && (n !in st.pools ==> n in ids)
    ensures AppliedEntry(st, ids, n, AppliedPools(st, next, ids)[n])
  {
  }

  lemma AppliedPoolsAreSound(st: State, next: Config, ids: map<string, string>, used: set<string>, after: State)
    requires TablesAgree(st) && ValidConfig(next) && Names(st.config.pools) <= Names(next.pools)
    requires forall n :: n in ids ==> ids[n] !in used
    requires forall m, n :: m in ids && n in ids && m != n ==> ids[m] != ids[n]
    requires Names(next.pools) - st.pools.Keys <= ids.Keys
    requires forall n :: n in st.pools ==> st.pools[n].id in used
    requires after.pools == AppliedPools(st, next, ids) && after.config == next
    ensures TablesAgree(after)
    ensures forall n :: n in st.pools ==> n in after.pools && after.pools[n].id == st.pools[n].id
  {
    assert after.pools.Keys == Names(next.pools);
    forall n | n in after.pools
      ensures AppliedEntry(st, ids, n, after.pools[n])
    {
      AppliedId(st, next, ids, n);
    }
    EntriesAgree(st, ids, used, after);
  }

  ghost predicate AppliedEntry(st: State, ids: map<string, string>, n: string, ps: PoolState) {
    && (n in st.pools || n in ids)
    && ps.id == (if n in st.pools then st.pools[n].id else ids[n])
    && (ps.deleting ==> n in st.pools && st.pools[n].deleting && ps.running == st.pools[n].running)
  }

  lemma EntriesAgree(st: State, ids: map<string, string>, used: set<string>, after: State)
    requires TablesAgree(st) && ValidConfig(after.config) && after.pools.Keys == Names(after.config.pools)
    requires forall n :: n in ids ==> ids[n] !in used
    requires forall m, n :: m in ids && n in ids && m != n ==> ids[m] != ids[n]
    requires forall n :: n in st.pools ==> st.pools[n].id in used
    requires forall n :: n in after.pools ==> AppliedEntry(st, ids, n, after.pools[n])
    ensures TablesAgree(after)
  {
    forall m: string, n: string ensures IdsApart(after.pools, m, n) {
      assert IdsApart(st.pools, m, n);
    }
  }

  lemma ApplyKeepsRun(st: State, next: Config, ids: map<string, string>, after: State, id: string)
    requires StateInv(st) && ValidConfig(next) && MayApply(st, next) && id in st.runs
    requires after.pools == AppliedPools(st, next, ids) && after.runs == st.runs && after.config == next
    ensures Fits(after, id)
  {
    var r := st.runs[id];
    assert Fits(st, id);
    var n := r.pool.name;
    assert id in PoolRuns(st.runs, st.pools[n].id);
    var was, edited := Find(st.config.pools, n).value, Find(next.pools, n).value;
    assert MayEdit(st, was, edited);
    assert ValidPool(was, st.config.auth) && ValidPool(edited, next.auth);
    ScopeIsThePlace(was, edited);
    SameButReplicas(was, edited);
  }

  lemma ApplyKeepsInvariant(st: State, next: Config, ids: map<string, string>, used: set<string>, after: State)
    requires StateInv(st) && ValidConfig(next) && MayApply(st, next)
    requires forall n :: n in ids ==> ids[n] !in used
    requires forall m, n :: m in ids && n in ids && m != n ==> ids[m] != ids[n]
    requires Names(next.pools) - st.pools.Keys <= ids.Keys
    requires forall n :: n in st.pools ==> st.pools[n].id in used
    requires after.pools == AppliedPools(st, next, ids) && after.runs == st.runs && after.config == next
             && after.managerId == st.managerId
    ensures StateInv(after) && SameRuns(st, after)
  {
    assert TablesAgree(after) && SameRuns(st, after) by {
      AppliedPoolsAreSound(st, next, ids, used, after);
    }
    forall x | x in after.runs ensures Fits(after, x) {
      ApplyKeepsRun(st, next, ids, after, x);
    }
  }

  lemma ProposalKeepsInvariant(st: State, file: Option<Text>, req: Request, ids: map<string, string>, used: set<string>)
    requires StateInv(st) && FreshIds(st, req, ids, used) && Proposed(st, file, req, ids).Some?
    requires forall n :: n in st.pools ==> st.pools[n].id in used
    ensures StateInv(Proposed(st, file, req, ids).value) && SameRuns(st, Proposed(st, file, req, ids).value)
  {
    var after := Proposed(st, file, req, ids).value;
    match req
    case Add(p) => AddKeepsInvariant(st, p, ids[p.name], after);
    case Scale(name, replicas) => ScaleKeepsInvariant(st, Find(st.config.pools, name).value, replicas, after);
    case Upgrade(name, image) => UpgradeKeepsInvariant(st, Find(st.config.pools, name).value, image, after);
    case SetAuth(profile, auth) => AuthKeepsInvariant(st, profile, auth, after);
    case Apply(text, _) => ApplyKeepsInvariant(st, text.Parsed().value, ids, used, after);
    case _ =>
  }

  lemma {:induction false} MarkAllKeepsInvariant(st: State, names: seq<string>)
    requires StateInv(st)
    ensures StateInv(MarkAll(st, names)) && Evolves(st, MarkAll(st, names))
    ensures MarkAll(st, names).pools == st.pools && MarkAll(st, names).config == st.config
    decreases |names|
  {
    if names != [] {
      var before := MarkAll(st, names[..|names| - 1]);
      MarkAllKeepsInvariant(st, names[..|names| - 1]);
      var last := names[|names| - 1];
      if last in before.pools {
        MarkRetiringKeepsInvariant(before, last);
      }
    }
  }

  lemma FinishKeepsInvariant(st: State, req: Request)
    requires StateInv(st)
    ensures StateInv(Finished(st, req)) && Evolves(st, Finished(st, req))
  {
    if req.SetAuth? {
      AuthResetKeepsInvariant(st, req);
    } else {
      MarkAllKeepsInvariant(st, MarkedBy(st, req));
      assert Finished(st, req) == MarkAll(st, MarkedBy(st, req));
    }
  }

  /** The pools whose runs are marked after the commit. */
  ghost function MarkedBy(st: State, req: Request): seq<string> {
    match req
    case Scale(name, _) => [name]
    case Upgrade(name, _) => [name]
    case Apply(_, _) => SortedNames(st)
    case _ => []
  }

  lemma AuthResetKeepsInvariant(st: State, req: Request)
    requires StateInv(st) && req.SetAuth?
    ensures StateInv(Finished(st, req)) && Evolves(st, Finished(st, req))
  {
    ResetKeepsInvariant(st, Finished(st, req));
  }

  /** Only deadlines, failures and errors of pools have changed. */
  lemma ResetKeepsInvariant(st: State, after: State)
    requires StateInv(st) && after == st.(pools := after.pools) && after.pools.Keys == st.pools.Keys
    requires forall n :: n in st.pools ==>
              after.pools[n] == st.pools[n] || after.pools[n] == ClearedBackoff(st.pools[n])
    ensures StateInv(after) && Evolves(st, after)
  {
    SameIdsAreDistinct(st.pools, after.pools);
    forall x | x in after.runs ensures Fits(after, x) {
      assert Fits(st, x);
    }
  }

  /** The committed configuration, its number and the text it stands for. */
  ghost predicate SameCommit(a: State, b: State) {
    a.config == b.config && a.revision == b.revision && a.fileHash == b.fileHash
  }

  lemma {:induction false} MarkAllKeepsCommit(st: State, names: seq<string>)
    ensures SameCommit(MarkAll(st, names), st)
  {
    if names != [] {
      MarkAllKeepsCommit(st, names[..|names| - 1]);
    }
  }

  lemma FinishKeepsCommit(st: State, req: Request)
    ensures SameCommit(Finished(st, req), st)
  {
    match req
    case Scale(name, _) => MarkAllKeepsCommit(st, [name]);
    case Upgrade(name, _) => MarkAllKeepsCommit(st, [name]);
    case Apply(_, _) => MarkAllKeepsCommit(st, SortedNames(st));
    case _ =>
  }

  lemma ProposalsAreCounted(st: State, file: Option<Text>, req: Request, ids: map<string, string>)
    requires Proposed(st, file, req, ids).Some?
    ensures var t := Proposed(st, file, req, ids).value;
            t.revision == st.revision + 1 && t.fileHash == Rendered(t.config) && ValidConfig(t.config)
  {
  }
}
