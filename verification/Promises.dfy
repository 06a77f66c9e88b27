/** What a served request promises, said of the fields before and after: a second account of the requests, beside the
    functions that the engine is proved to compute. */
module Promises {
  import opened Basics
  import opened Sorting
  import opened Config
  import opened States
  import opened Retiring
  import opened Requests
  import opened Backoff
  import opened Protocol
  import opened Invariants
  import opened Histories
  import opened Awaits

  /* ---- Start, Stop, Remove ---- */

  /** The target, or every pool, runs and its back-off is forgotten; no run changes. */
  ghost predicate StartedUp(a: State, b: State, target: Option<string>, all: bool) {
    && b == a.(pools := b.pools) && b.pools.Keys == a.pools.Keys
    && forall n :: n in a.pools ==>
        var was := a.pools[n];
        b.pools[n] == if all || target == Some(n)
          then PoolState(id := was.id, running := true, deleting := false, generation := was.generation,
                         failures := 0, retryAt := 0, retryScope := was.retryScope, error := false,
                         observedAt := was.observedAt)
          else was
  }

  /** The pools aimed at do not run, and each of their runs is retiring, forced if asked; nothing else changes. */
  ghost predicate Halts(a: State, b: State, aim: set<string>, deleting: bool, force: bool) {
    && b == a.(pools := b.pools, runs := b.runs) && b.pools.Keys == a.pools.Keys && b.runs.Keys == a.runs.Keys
    && (forall n :: n in a.pools ==>
        var was := a.pools[n];
        b.pools[n] == if n in aim
          then PoolState(id := was.id, running := false, deleting := deleting || was.deleting,
                         generation := was.generation, failures := was.failures,
                         retryAt := if force then 0 else was.retryAt, retryScope := was.retryScope,
                         error := was.error, observedAt := was.observedAt)
          else was)
    && (forall id :: id in a.runs ==>
        var r := a.runs[id];
        if exists n :: n in aim && n in a.pools && a.pools[n].id == r.poolId
        then && b.runs[id].retiring && b.runs[id].force == (force || r.force)
             && b.runs[id] == r.(retiring := true, force := b.runs[id].force)
        else b.runs[id] == r)
  }

  /* ---- Add, Scale, Upgrade, Auth ---- */

  /** One more committed configuration; identities and records stay. */
  ghost predicate OneCommit(a: State, b: State) {
    && b.managerId == a.managerId && b.revision == a.revision + 1 && b.fileHash == Rendered(b.config)
    && b.runs.Keys == a.runs.Keys
    && forall id :: id in a.runs ==> b.runs[id] == a.runs[id].(retiring := b.runs[id].retiring)
  }

  /** A new pool that does not run, under an id of its own. */
  ghost predicate Adds(a: State, b: State, p: Pool) {
    && OneCommit(a, b) && b.runs == a.runs && p.name !in a.pools && p.name in b.pools
    && b.config == a.config.(pools := a.config.pools + [p])
    && b.pools == a.pools[p.name := b.pools[p.name]]
    && b.pools[p.name] == PoolState(id := b.pools[p.name].id, running := false, deleting := false, generation := 1,
                                    failures := 0, retryAt := 0, retryScope := Observation, error := false,
                                    observedAt := 0)
    && forall n :: n in a.pools ==> a.pools[n].id != b.pools[p.name].id
  }

  ghost predicate OnlyPoolChanges(a: Config, b: Config, name: string) {
    && b == a.(pools := b.pools) && |b.pools| == |a.pools|
    && forall i :: 0 <= i < |a.pools| && a.pools[i].name != name ==> b.pools[i] == a.pools[i]
  }

  /** The pool's replicas change, and those of its runs retire that are not among as many most recent ones. */
  ghost predicate Scales(a: State, b: State, name: string, replicas: nat) {
    && OneCommit(a, b) && OnlyPoolChanges(a.config, b.config, name)
    && (forall i :: 0 <= i < |a.config.pools| && a.config.pools[i].name == name ==>
        b.config.pools[i] == a.config.pools[i].(replicas := replicas))
    && name in a.pools && !a.pools[name].deleting && b.pools == a.pools
    && RetiredAsDue(b.(runs := a.runs), b, name)
  }

  /** The pool's image changes under the next generation, so that every earlier run of it retires. */
  ghost predicate Upgrades(a: State, b: State, name: string, image: string) {
    && OneCommit(a, b) && OnlyPoolChanges(a.config, b.config, name)
    && (forall i :: 0 <= i < |a.config.pools| && a.config.pools[i].name == name ==>
        b.config.pools[i] == a.config.pools[i].(image := image))
    && name in a.pools && !a.pools[name].deleting
    && b.pools == a.pools[name := a.pools[name].(generation := a.pools[name].generation + 1)]
    && (forall id :: id in a.runs && a.runs[id].poolId == a.pools[name].id ==> b.runs[id].retiring)
    && RetiredAsDue(b.(runs := a.runs), b, name)
  }

  /** The profile is set, and just the pools that use it forget their back-off. */
  ghost predicate SetsProfile(a: State, b: State, profile: string, auth: Auth) {
    && OneCommit(a, b) && b.runs == a.runs
    && b.config == a.config.(auth := a.config.auth[profile := auth])
    && b.pools.Keys == a.pools.Keys
    && forall n :: n in a.pools ==>
        var was := a.pools[n];
        b.pools[n] == if exists i :: 0 <= i < |a.config.pools| && a.config.pools[i].name == n
                              && a.config.pools[i].auth == profile
          then PoolState(id := was.id, running := was.running, deleting := was.deleting,
                         generation := was.generation, failures := 0, retryAt := 0, retryScope := was.retryScope,
                         error := false, observedAt := was.observedAt)
          else was
  }

  /* ---- Apply ---- */

  /** The settings that the pool's runners are made with. */
  ghost predicate Differ(p: Pool, q: Pool) {
    || p.image != q.image || p.labels != q.labels || p.runnerGroup != q.runnerGroup
    || p.dockerSocket != q.dockerSocket || p.allowPrivilegeEscalation != q.allowPrivilegeEscalation
    || p.cpus != q.cpus || p.memory != q.memory
  }

  /** A known pool starts a new generation exactly if a setting of its runners differs; a new one does not run. */
  ghost predicate PoolApplied(a: State, b: State, n: string)
    requires n in b.pools
  {
    if n in a.pools then
      && Find(a.config.pools, n).Some? && Find(b.config.pools, n).Some?
      && b.pools[n] == a.pools[n].(generation := b.pools[n].generation)
      && b.pools[n].generation == a.pools[n].generation
           + if Differ(Find(a.config.pools, n).value, Find(b.config.pools, n).value) then 1 else 0
    else
      b.pools[n] == PoolState(id := b.pools[n].id, running := false, deleting := false, generation := 1,
                              failures := 0, retryAt := 0, retryScope := Observation, error := false, observedAt := 0)
  }

  /** The configuration is that of the text; every run that is not due stays as it was. */
  ghost predicate Applies(a: State, b: State, text: Text, revision: nat) {
    && OneCommit(a, b) && a.revision == revision && text.Parsed() == Some(b.config)
    && b.pools.Keys == Names(b.config.pools) && a.pools.Keys <= b.pools.Keys
    && (forall n {:trigger PoolApplied(a, b, n)} :: n in b.pools ==> PoolApplied(a, b, n))
    && (forall id :: id in a.runs ==>
        (b.runs[id].retiring <==>
          a.runs[id].retiring
          || exists n :: n in b.pools && Find(b.config.pools, n).Some? && Surplus(b.(runs := a.runs), n, id)))
  }

  /* ---- All requests ---- */

  /** What the request promises when it succeeds. */
  ghost predicate Promised(a: State, b: State, req: Request) {
    match req
    case Start(target, all) => StartedUp(a, b, target, all)
    case Stop(target, all, force) =>
      Halts(a, b, set n | n in a.pools && (all || target == Some(n)), false, force)
    case Remove(name, force) => Halts(a, b, {name}, true, force)
    case Add(p) => Adds(a, b, p)
    case Scale(name, replicas) => Scales(a, b, name, replicas)
    case Upgrade(name, image) => Upgrades(a, b, name, image)
    case SetAuth(profile, auth) => SetsProfile(a, b, profile, auth)
    case Apply(text, revision) => Applies(a, b, text, revision)
    case _ => true
  }

  /* ---- The promises are kept ---- */

  lemma StartIsKept(a: State, target: Option<string>, all: bool)
    requires IntentOf(a, Start(target, all)).Some?
    ensures StartedUp(a, IntentOf(a, Start(target, all)).value, target, all)
  {
    var ts := Targets(a, target, all).value;
    forall n | n in a.pools ensures n in ts <==> all || target == Some(n) {
    }
  }

  lemma HaltIsKept(a: State, aim: set<string>, deleting: bool, force: bool)
    ensures Halts(a, HaltAll(a, aim, deleting, force), aim, deleting, force)
  {
    var b := HaltAll(a, aim, deleting, force);
    forall id | id in a.runs
      ensures Targeted(a.pools, aim, a.runs[id]) <==>
                exists n :: n in aim && n in a.pools && a.pools[n].id == a.runs[id].poolId
    {
    }
    assert b == a.(pools := b.pools, runs := b.runs);
  }

  lemma IntentIsKept(a: State, req: Request)
    requires IntentOf(a, req).Some?
    ensures Promised(a, IntentOf(a, req).value, req)
  {
    match req
    case Start(target, all) => StartIsKept(a, target, all);
    case Stop(target, all, force) =>
      var aim := set n | n in a.pools && (all || target == Some(n));
      assert aim == Targets(a, target, all).value;
      HaltIsKept(a, aim, false, force);
    case Remove(name, force) => HaltIsKept(a, {name}, true, force);
    case _ =>
  }

  /** The state with a pool's configuration replaced, committed. */
  ghost function Reconfigured(a: State, name: string, p: Pool): State {
    var config := a.config.(pools := Replace(a.config.pools, name, p));
    a.(config := config, revision := a.revision + 1, fileHash := Rendered(config))
  }

  ghost function NextGeneration(a: State, name: string): State
    requires name in a.pools
  {
    a.(pools := a.pools[name := a.pools[name].(generation := a.pools[name].generation + 1)])
  }

  lemma CommitIs(st: State, next: Config, c: State)
    requires Committed(st, next) == Some(c)
    ensures c == st.(config := next, revision := st.revision + 1, fileHash := Rendered(next))
  {
  }

  lemma FoundAtIndex(pools: seq<Pool>, name: string)
    requires UniqueNames(pools) && name in Names(pools)
    ensures forall i :: 0 <= i < |pools| && pools[i].name == name ==> pools[i] == Find(pools, name).value
  {
    forall i | 0 <= i < |pools| && pools[i].name == name ensures pools[i] == Find(pools, name).value {
      FindIsUnique(pools, pools[i]);
    }
  }

  lemma ReplacementChangesOnePool(a: Config, name: string, p: Pool)
    requires UniqueNames(a.pools) && name in Names(a.pools)
    ensures OnlyPoolChanges(a, a.(pools := Replace(a.pools, name, p)), name)
    ensures forall i :: 0 <= i < |a.pools| && a.pools[i].name == name ==>
              Replace(a.pools, name, p)[i] == p && a.pools[i] == Find(a.pools, name).value
  {
    FoundAtIndex(a.pools, name);
  }

  lemma EarlierRunsAreSurplus(a: State, c: State, name: string, id: string)
    requires StateInv(a) && name in a.pools && id in a.runs && a.runs[id].poolId == a.pools[name].id
    requires name in c.pools && c.pools[name].id == a.pools[name].id && c.runs == a.runs
    requires c.pools[name].generation == a.pools[name].generation + 1 && Find(c.config.pools, name).Some?
    ensures Surplus(c, name, id)
  {
    assert Fits(a, id);
    PoolOfRun(a, name, id);
  }

  lemma ScaleIsKept(a: State, name: string, replicas: nat, c: State, b: State)
    requires name in a.pools && !a.pools[name].deleting && OnlyPoolChanges(a.config, c.config, name)
    requires forall i :: 0 <= i < |a.config.pools| && a.config.pools[i].name == name ==>
               c.config.pools[i] == a.config.pools[i].(replicas := replicas)
    requires c == a.(config := c.config, revision := a.revision + 1, fileHash := Rendered(c.config))
    requires RetiredAsDue(c, b, name)
    ensures Scales(a, b, name, replicas)
  {
    assert b.(runs := a.runs) == c;
  }

  lemma UpgradeIsKept(a: State, name: string, image: string, c: State, b: State)
    requires name in a.pools && !a.pools[name].deleting && OnlyPoolChanges(a.config, c.config, name)
    requires forall i :: 0 <= i < |a.config.pools| && a.config.pools[i].name == name ==>
               c.config.pools[i] == a.config.pools[i].(image := image)
    requires c == NextGeneration(a, name).(config := c.config, revision := a.revision + 1,
                      fileHash := Rendered(c.config))
    requires RetiredAsDue(c, b, name)
    requires forall id :: id in a.runs && a.runs[id].poolId == a.pools[name].id ==> Surplus(c, name, id)
    ensures Upgrades(a, b, name, image)
  {
    assert b.(runs := a.runs) == c;
  }

  lemma AllEarlierAreSurplus(a: State, name: string, image: string, c: State)
    requires StateInv(a) && name in a.pools && name in Names(a.config.pools)
    requires c == Reconfigured(NextGeneration(a, name), name, Find(a.config.pools, name).value.(image := image))
    requires Find(c.config.pools, name).Some?
    ensures forall id :: id in a.runs && a.runs[id].poolId == a.pools[name].id ==> Surplus(c, name, id)
  {
    forall id | id in a.runs && a.runs[id].poolId == a.pools[name].id ensures Surplus(c, name, id) {
      EarlierRunsAreSurplus(a, c, name, id);
    }
  }

  lemma AuthIsKept(a: State, profile: string, auth: Auth, c: State)
    requires Some(c) == Committed(a, a.config.(auth := a.config.auth[profile := auth]))
    ensures SetsProfile(a, Finished(c, SetAuth(profile, auth)), profile, auth)
  {
    forall n | n in a.pools
      ensures UsesProfile(c.config, n, profile) <==>
                exists i :: 0 <= i < |a.config.pools| && a.config.pools[i].name == n
                    && a.config.pools[i].auth == profile
    {
      if UsesProfile(c.config, n, profile) {
        var p :| p in a.config.pools && p.name == n && p.auth == profile;
        var i :| 0 <= i < |a.config.pools| && a.config.pools[i] == p;
      }
      if i :| 0 <= i < |a.config.pools| && a.config.pools[i].name == n && a.config.pools[i].auth == profile {
        assert a.config.pools[i] in c.config.pools;
      }
    }
  }

  ghost predicate DueAmong(st: State, names: seq<string>, id: string)
    requires id in st.runs
  {
    exists n :: n in names && n in st.pools && Find(st.config.pools, n).Some? && Surplus(st, n, id)
  }

  lemma SameSurplus(a: State, b: State, name: string, id: string)
    requires a == b.(runs := a.runs) && a.runs.Keys == b.runs.Keys && id in a.runs
    requires forall x :: x in a.runs ==> a.runs[x] == b.runs[x].(retiring := a.runs[x].retiring)
    requires name in a.pools && Find(a.config.pools, name).Some?
    ensures Surplus(a, name, id) <==> Surplus(b, name, id)
  {
    assert MoreRecent(a.runs, a.pools[name].id, id) == MoreRecent(b.runs, a.pools[name].id, id);
  }

  /** Marking pool after pool retires the surplus of each, whatever the order. */
  lemma {:induction false} MarkAllRetiresAsDue(st: State, names: seq<string>)
    ensures var t := MarkAll(st, names);
            && t == st.(runs := t.runs) && t.runs.Keys == st.runs.Keys
            && forall id :: id in st.runs ==>
                && t.runs[id] == st.runs[id].(retiring := t.runs[id].retiring)
                && (t.runs[id].retiring <==> st.runs[id].retiring || DueAmong(st, names, id))
    decreases |names|
  {
    if names != [] {
      var front, last := names[..|names| - 1], names[|names| - 1];
      assert names == front + [last];
      MarkAllRetiresAsDue(st, front);
      var before := MarkAll(st, front);
      if last in before.pools && Find(before.config.pools, last).Some? {
        MarkingRetiresAsDue(before, last);
        forall id | id in st.runs ensures Surplus(before, last, id) <==> Surplus(st, last, id) {
          SameSurplus(before, st, last, id);
        }
      }
      forall id | id in st.runs
        ensures DueAmong(st, names, id) <==>
                  || DueAmong(st, front, id)
                  || (last in st.pools && Find(st.config.pools, last).Some? && Surplus(st, last, id))
      {
      }
    }
  }

  lemma PoolIsApplied(a: State, ids: map<string, string>, c: State, n: string)
    requires a.pools.Keys == Names(a.config.pools) && a.pools.Keys <= Names(c.config.pools)
    requires c.pools == AppliedPools(a, c.config, ids) && n in c.pools
    ensures PoolApplied(a, c, n)
  {
  }

  lemma ApplyCommits(a: State, text: Text, revision: nat, ids: map<string, string>, file: Option<Text>, c: State)
    requires StateInv(a) && Proposed(a, file, Apply(text, revision), ids) == Some(c)
    ensures OneCommit(a, c) && c.runs == a.runs && a.revision == revision && text.Parsed() == Some(c.config)
    ensures a.pools.Keys == Names(a.config.pools) && a.pools.Keys <= c.pools.Keys == Names(c.config.pools)
    ensures c.pools == AppliedPools(a, c.config, ids)
  {
  }

  lemma MarksAreApplied(a: State, b: State, c: State, text: Text, revision: nat)
    requires OneCommit(a, c) && c.runs == a.runs && a.revision == revision && text.Parsed() == Some(c.config)
    requires a.pools.Keys <= c.pools.Keys == Names(c.config.pools) && b == MarkAll(c, SortedNames(c))
    requires forall n {:trigger PoolApplied(a, c, n)} :: n in c.pools ==> PoolApplied(a, c, n)
    ensures Applies(a, b, text, revision)
  {
    MarkAllRetiresAsDue(c, SortedNames(c));
    assert b.(runs := a.runs) == c;
    forall n | n in b.pools ensures PoolApplied(a, b, n) {
      assert PoolApplied(a, c, n);
    }
    forall id | id in a.runs
      ensures DueAmong(c, SortedNames(c), id) <==>
                exists n :: n in b.pools && Find(b.config.pools, n).Some? && Surplus(b.(runs := a.runs), n, id)
    {
    }
  }

  lemma ApplyIsKept(a: State, text: Text, revision: nat, ids: map<string, string>, file: Option<Text>, c: State)
    requires StateInv(a) && Proposed(a, file, Apply(text, revision), ids) == Some(c)
    ensures Applies(a, MarkAll(c, SortedNames(c)), text, revision)
  {
    ApplyCommits(a, text, revision, ids, file, c);
    forall n | n in c.pools ensures PoolApplied(a, c, n) {
      PoolIsApplied(a, ids, c, n);
    }
    MarksAreApplied(a, MarkAll(c, SortedNames(c)), c, text, revision);
  }

  lemma AddIsKept(a: State, p: Pool, id: string, c: State)
    requires p.name !in a.pools && forall n :: n in a.pools ==> a.pools[n].id != id
    requires Some(c) == Committed(a.(pools := a.pools[p.name := NewPool(id)]),
                          a.config.(pools := a.config.pools + [p]))
    ensures Adds(a, c, p)
  {
  }

  ghost function WithImage(a: State, name: string, image: string): Config
    requires name in Names(a.config.pools)
  {
    a.config.(pools := Replace(a.config.pools, name, Find(a.config.pools, name).value.(image := image)))
  }

  lemma UpgradeProposal(a: State, file: Option<Text>, name: string, image: string, ids: map<string, string>)
    requires Proposed(a, file, Upgrade(name, image), ids).Some?
    ensures name in a.pools && !a.pools[name].deleting && name in Names(a.config.pools)
    ensures Proposed(a, file, Upgrade(name, image), ids) ==
              Committed(NextGeneration(a, name), WithImage(a, name, image))
  {
  }

  lemma UpgradeProposes(a: State, file: Option<Text>, name: string, image: string, ids: map<string, string>, c: State)
    requires Proposed(a, file, Upgrade(name, image), ids) == Some(c)
    ensures name in a.pools && !a.pools[name].deleting && name in Names(a.config.pools)
    ensures c == Reconfigured(NextGeneration(a, name), name, Find(a.config.pools, name).value.(image := image))
  {
    UpgradeProposal(a, file, name, image, ids);
    CommitIs(NextGeneration(a, name), WithImage(a, name, image), c);
  }

  lemma ScaleProposes(a: State, file: Option<Text>, name: string, replicas: nat, ids: map<string, string>, c: State)
    requires Proposed(a, file, Scale(name, replicas), ids) == Some(c)
    ensures name in a.pools && !a.pools[name].deleting && name in Names(a.config.pools)
    ensures c == Reconfigured(a, name, Find(a.config.pools, name).value.(replicas := replicas))
  {
    CommitIs(a, a.config.(pools := Replace(a.config.pools, name,
                              Find(a.config.pools, name).value.(replicas := replicas))), c);
  }

  lemma FinishMarks(c: State, req: Request)
    requires StateInv(c) && (req.Scale? || req.Upgrade?) && req.name in c.pools
    ensures Find(c.config.pools, req.name).Some? && Finished(c, req) == MarkRetiring(c, req.name)
  {
    OneMarked(c, req.name);
  }

  lemma ScaleChangeIsKept(a: State, file: Option<Text>, name: string, replicas: nat, ids: map<string, string>, c: State)
    requires StateInv(a) && Proposed(a, file, Scale(name, replicas), ids) == Some(c)
    requires name in c.pools && Find(c.config.pools, name).Some?
    ensures Scales(a, MarkRetiring(c, name), name, replicas)
  {
    ScaleProposes(a, file, name, replicas, ids, c);
    ReplacementChangesOnePool(a.config, name, Find(a.config.pools, name).value.(replicas := replicas));
    MarkingRetiresAsDue(c, name);
    ScaleIsKept(a, name, replicas, c, MarkRetiring(c, name));
  }

  lemma UpgradeChangeIsKept(a: State, file: Option<Text>, name: string, image: string, ids: map<string, string>,
      c: State)
    requires StateInv(a) && Proposed(a, file, Upgrade(name, image), ids) == Some(c)
    requires name in c.pools && Find(c.config.pools, name).Some?
    ensures Upgrades(a, MarkRetiring(c, name), name, image)
  {
    UpgradeProposes(a, file, name, image, ids, c);
    ReplacementChangesOnePool(a.config, name, Find(a.config.pools, name).value.(image := image));
    MarkingRetiresAsDue(c, name);
    AllEarlierAreSurplus(a, name, image, c);
    UpgradeIsKept(a, name, image, c, MarkRetiring(c, name));
  }

  lemma PlainChangeIsKept(a: State, file: Option<Text>, req: Request, ids: map<string, string>, used: set<string>,
      c: State)
    requires StateInv(a) && (req.Add? || req.SetAuth?) && Proposed(a, file, req, ids) == Some(c)
             && FreshIds(a, req, ids, used)
    requires forall n :: n in a.pools ==> a.pools[n].id in used
    ensures Promised(a, Finished(c, req), req)
  {
    if req.Add? {
      AddIsKept(a, req.added, ids[req.added.name], c);
    } else {
      AuthIsKept(a, req.profile, req.auth, c);
    }
  }

  lemma ChangeIsKept(a: State, file: Option<Text>, req: Request, ids: map<string, string>, used: set<string>)
    requires StateInv(a) && ConfigRequest(req) && Proposed(a, file, req, ids).Some? && FreshIds(a, req, ids, used)
    requires forall n :: n in a.pools ==> a.pools[n].id in used
    ensures Promised(a, Finished(Proposed(a, file, req, ids).value, req), req)
  {
    var c := Proposed(a, file, req, ids).value;
    ProposalKeepsInvariant(a, file, req, ids, used);
    if req.Apply? {
      ApplyIsKept(a, req.text, req.revision, ids, file, c);
    } else if req.Scale? {
      FinishMarks(c, req);
      ScaleChangeIsKept(a, file, req.name, req.replicas, ids, c);
    } else if req.Upgrade? {
      FinishMarks(c, req);
      UpgradeChangeIsKept(a, file, req.name, req.image, ids, c);
    } else {
      PlainChangeIsKept(a, file, req, ids, used, c);
    }
  }

  lemma OneMarked(c: State, name: string)
    requires StateInv(c) && name in c.pools
    ensures Find(c.config.pools, name).Some? && MarkAll(c, [name]) == MarkRetiring(c, name)
  {
    assert [name][..0] == [];
    assert MarkAll(c, []) == c;
  }

  /** Every request that is served keeps its promise, in memory and in the store. */
  lemma ServedAsPromised(a: Sys, req: Request, ids: map<string, string>, b: Sys)
    requires Inv(a) && Served(a, req, ids, true, b) && req.Mutating()
    ensures Promised(a.mem, b.mem, req) && b.disk == b.mem
  {
    if ConfigRequest(req) {
      ChangeIsKept(a.mem, a.file, req, ids, a.poolIds);
    } else {
      IntentIsKept(a.mem, req);
    }
  }

  /* ---- When a request is granted ---- */

  /** Exactly then the request is granted; what a write of config.toml may still spoil is another matter. */
  ghost predicate Grantable(st: State, file: Option<Text>, req: Request) {
    match req
    case Start(target, all) =>
      && target.Some? != all && (target.Some? ==> target.value in st.pools)
      && forall n :: n in st.pools && (all || target == Some(n)) ==> !st.pools[n].deleting
    case Stop(target, all, _) => target.Some? != all && (target.Some? ==> target.value in st.pools)
    case Remove(name, _) => name in st.pools
    case Add(p) =>
      && file == Some(st.fileHash) && p.name !in st.pools && ValidPool(p, st.config.auth)
      && TotalReplicas(st.config.pools) + p.replicas <= st.config.manager.maxRunners
    case Scale(name, replicas) =>
      && file == Some(st.fileHash) && name in st.pools && !st.pools[name].deleting
      && Find(st.config.pools, name).Some?
      && TotalReplicas(st.config.pools) - Find(st.config.pools, name).value.replicas + replicas
         <= st.config.manager.maxRunners
    case Upgrade(name, image) =>
      file == Some(st.fileHash) && name in st.pools && !st.pools[name].deleting && image != ""
    case SetAuth(profile, _) => file == Some(st.fileHash) && profile != ""
    case Apply(text, revision) =>
      && st.revision == revision && file == Some(text) && text.Parsed().Some? && ValidConfig(text.Parsed().value)
      && forall n :: n in st.pools ==> ApplyMayEdit(st, text.Parsed().value, n)
    case _ => false
  }

  /** The pool is still there, is not being deleted, and moves to another place or profile only once it has stopped
      and none of its runs is left. */
  ghost predicate ApplyMayEdit(st: State, next: Config, n: string)
    requires n in st.pools
  {
    var was, edited := Find(st.config.pools, n), Find(next.pools, n);
    && was.Some? && edited.Some? && !st.pools[n].deleting
    && (|| (edited.value.organization == was.value.organization && edited.value.repository == was.value.repository
            && edited.value.auth == was.value.auth)
        || (!st.pools[n].running && forall id :: id in st.runs ==> st.runs[id].poolId != st.pools[n].id))
    && forall id :: id in st.runs && st.runs[id].poolId == st.pools[n].id ==> st.runs[id].pool.auth in next.auth
  }

  lemma IntentIsGranted(st: State, file: Option<Text>, req: Request)
    requires !ConfigRequest(req)
    ensures IntentOf(st, req).Some? <==> Grantable(st, file, req)
  {
    if req.Start? && Targets(st, req.target, req.all).Some? {
      var ts := Targets(st, req.target, req.all).value;
      forall n | n in st.pools ensures n in ts <==> req.all || req.target == Some(n) {
      }
    }
  }

  lemma AddIsGranted(st: State, file: Option<Text>, p: Pool, ids: map<string, string>)
    requires StateInv(st)
    ensures Proposed(st, file, Add(p), ids).Some? <==> Grantable(st, file, Add(p))
  {
    var next := st.config.(pools := st.config.pools + [p]);
    if p.name !in st.pools {
      assert forall q :: q in st.config.pools ==> q.name in Names(st.config.pools);
      AppendedIsUnique(st.config.pools, p);
      TotalOfAppended(st.config.pools, p);
      assert p in next.pools;
    }
  }

  lemma {:induction false} ReplacedTotal(pools: seq<Pool>, name: string, p: Pool)
    requires UniqueNames(pools)
    ensures TotalReplicas(Replace(pools, name, p)) ==
              TotalReplicas(pools)
              + if name in Names(pools) then p.replicas - Find(pools, name).value.replicas else 0
  {
    if pools != [] {
      var front, last := pools[..|pools| - 1], pools[|pools| - 1];
      assert pools == front + [last];
      FrontIsUnique(pools);
      ReplacedTotal(front, name, p);
      assert Replace(pools, name, p)[..|pools| - 1] == Replace(front, name, p);
      FindInAppended(front, last, name);
      assert Names(pools) == Names(front) + {last.name};
    }
  }

  lemma ReplacementIsValid(c: Config, name: string, p: Pool)
    requires ValidConfig(c) && name in Names(c.pools) && p.name == name
    ensures ValidConfig(c.(pools := Replace(c.pools, name, p))) <==>
              && ValidPool(p, c.auth)
              && TotalReplicas(c.pools) - Find(c.pools, name).value.replicas + p.replicas <= c.manager.maxRunners
  {
    ReplaceKeepsTheRest(c.pools, name, p);
    ReplacedTotal(c.pools, name, p);
    assert p in Replace(c.pools, name, p);
  }

  lemma ScaleIsGranted(st: State, file: Option<Text>, name: string, replicas: nat, ids: map<string, string>)
    requires StateInv(st)
    ensures Proposed(st, file, Scale(name, replicas), ids).Some? <==> Grantable(st, file, Scale(name, replicas))
  {
    if name in st.pools {
      var p := Find(st.config.pools, name).value;
      ReplacementIsValid(st.config, name, p.(replicas := replicas));
      assert ValidPool(p, st.config.auth);
    }
  }

  lemma UpgradeIsGranted(st: State, file: Option<Text>, name: string, image: string, ids: map<string, string>)
    requires StateInv(st)
    ensures Proposed(st, file, Upgrade(name, image), ids).Some? <==> Grantable(st, file, Upgrade(name, image))
  {
    if name in st.pools {
      var p := Find(st.config.pools, name).value;
      ReplacementIsValid(st.config, name, p.(image := image));
      assert ValidPool(p, st.config.auth) && p.replicas <= TotalReplicas(st.config.pools) by {
        PartOfTotal(st.config.pools, p);
      }
    }
  }

  lemma {:induction false} PartOfTotal(pools: seq<Pool>, p: Pool)
    requires p in pools
    ensures p.replicas <= TotalReplicas(pools)
  {
    var front, last := pools[..|pools| - 1], pools[|pools| - 1];
    assert pools == front + [last];
    if p != last {
      PartOfTotal(front, p);
    }
  }

  lemma AuthIsGranted(st: State, file: Option<Text>, profile: string, auth: Auth, ids: map<string, string>)
    requires StateInv(st)
    ensures Proposed(st, file, SetAuth(profile, auth), ids).Some? <==> Grantable(st, file, SetAuth(profile, auth))
  {
  }

  lemma EditIsGranted(st: State, next: Config, n: string)
    requires StateInv(st) && ValidConfig(next) && n in st.pools && n in Names(next.pools)
    ensures ApplyMayEdit(st, next, n) <==>
              && MayEdit(st, Find(st.config.pools, n).value, Find(next.pools, n).value)
              && forall id :: id in PoolRuns(st.runs, st.pools[n].id) ==> st.runs[id].pool.auth in next.auth
  {
    var was, edited := Find(st.config.pools, n).value, Find(next.pools, n).value;
    assert ValidPool(was, st.config.auth) && ValidPool(edited, next.auth);
    ScopeIsThePlace(was, edited);
    assert PoolRuns(st.runs, st.pools[n].id) == {} <==>
           forall id :: id in st.runs ==> id !in PoolRuns(st.runs, st.pools[n].id);
  }

  lemma EveryRunIsChecked(st: State, next: Config)
    requires StateInv(st)
    ensures (forall id :: id in st.runs ==> st.runs[id].pool.auth in next.auth) <==>
              forall n :: n in st.pools ==>
                forall id :: id in PoolRuns(st.runs, st.pools[n].id) ==> st.runs[id].pool.auth in next.auth
  {
    forall id | id in st.runs
      ensures st.runs[id].pool.name in st.pools && id in PoolRuns(st.runs, st.pools[st.runs[id].pool.name].id)
    {
      assert Fits(st, id);
    }
  }

  lemma EditsAreGranted(st: State, next: Config)
    requires StateInv(st) && ValidConfig(next)
    ensures MayApply(st, next) <==> forall n :: n in st.pools ==> ApplyMayEdit(st, next, n)
  {
    EveryRunIsChecked(st, next);
    forall n | n in st.pools && n in Names(next.pools)
      ensures ApplyMayEdit(st, next, n) <==>
                && MayEdit(st, Find(st.config.pools, n).value, Find(next.pools, n).value)
                && forall id :: id in PoolRuns(st.runs, st.pools[n].id) ==> st.runs[id].pool.auth in next.auth
    {
      EditIsGranted(st, next, n);
    }
  }

  lemma ApplyIsGranted(st: State, file: Option<Text>, text: Text, revision: nat, ids: map<string, string>)
    requires StateInv(st)
    ensures Proposed(st, file, Apply(text, revision), ids).Some? <==> Grantable(st, file, Apply(text, revision))
  {
    if text.Parsed().Some? && ValidConfig(text.Parsed().value) {
      EditsAreGranted(st, text.Parsed().value);
    }
  }

  lemma ChangeIsGranted(st: State, file: Option<Text>, req: Request, ids: map<string, string>)
    requires StateInv(st) && ConfigRequest(req)
    ensures Proposed(st, file, req, ids).Some? <==> Grantable(st, file, req)
  {
    match req
    case Add(p) => AddIsGranted(st, file, p, ids);
    case Scale(name, replicas) => ScaleIsGranted(st, file, name, replicas, ids);
    case Upgrade(name, image) => UpgradeIsGranted(st, file, name, image, ids);
    case SetAuth(profile, auth) => AuthIsGranted(st, file, profile, auth, ids);
    case Apply(text, revision) => ApplyIsGranted(st, file, text, revision, ids);
  }

  /** A request that is not granted fails, and then nothing is stored or written. */
  lemma ServedWhenGranted(a: Sys, req: Request, ids: map<string, string>, ok: bool, b: Sys)
    requires Inv(a) && Served(a, req, ids, ok, b) && req.Mutating()
    ensures ok ==> Grantable(a.mem, a.file, req)
    ensures !ok && Grantable(a.mem, a.file, req) ==> ConfigRequest(req)
    ensures !Grantable(a.mem, a.file, req) ==> b.disk == a.disk && b.file == a.file
  {
    if ConfigRequest(req) {
      ChangeIsGranted(a.mem, a.file, req, ids);
    } else {
      IntentIsGranted(a.mem, a.file, req);
    }
  }

  /** All there is to say of a served request; `certain` says that no write of config.toml failed. */
  lemma ServedInFull(a: Sys, req: Request, ids: map<string, string>, ok: bool, b: Sys, certain: bool)
    requires Sound(a) && Served(a, req, ids, ok, b) && req.Mutating()
    requires certain && ConfigRequest(req) ==> (ok <==> Proposed(a.mem, a.file, req, ids).Some?)
    ensures ok ==> Grantable(a.mem, a.file, req) && Promised(a.mem, b.mem, req) && b.disk == b.mem
    ensures !Grantable(a.mem, a.file, req) ==> b.disk == a.disk && b.file == a.file
    ensures certain ==> (ok <==> Grantable(a.mem, a.file, req))
  {
    IsSound(a);
    ServedWhenGranted(a, req, ids, ok, b);
    if ConfigRequest(req) {
      ChangeIsGranted(a.mem, a.file, req, ids);
    }
    if ok {
      ServedAsPromised(a, req, ids, b);
    }
  }

  /* ---- Bookkeeping ---- */

  function EndingOf(r: Result<nat>): Ending {
    match r
    case Ok(exits) => Succeeded(exits > 0)
    case Err(_) => Broken
  }

  /** The delay after so many failures in a row. */
  ghost function Pause(failures: nat, jitter: nat): nat {
    if failures >= 7 then 600
    else Min([5, 10, 20, 40, 80, 160, 320][failures] + if jitter < 6 then jitter else 6, 600)
  }

  /** The pool's entry after a pass. A failure of the same kind during a pause is not counted again; any other is, and
      sets kind and deadline. Success without exits ends a pause that is over, and keeps the count. */
  ghost predicate EntryKept(was: PoolState, now: PoolState, r: Result<nat>, retrying: bool, at: nat, jitter: nat,
      observed: nat) {
    var kind := if r.Err? then Observation else Provisioning;
    if r.Err? || r.value > 0 then
      if was.retryAt > at && was.retryScope == kind then now == was.(observedAt := observed)
      else
        var failures := if was.failures < 0xFFFF_FFFF then was.failures + 1 else 0xFFFF_FFFF;
        now == PoolState(id := was.id, running := was.running, deleting := was.deleting,
                         generation := was.generation, failures := failures,
                         retryAt := Min(at + Pause(failures, jitter), 0xFFFF_FFFF_FFFF_FFFF),
                         retryScope := kind, error := true, observedAt := observed)
    else if retrying then now == was.(observedAt := observed)
    else now == was.(retryAt := 0, error := false, observedAt := observed)
  }

  /** The books after a pass with this result: the pool's entry, and after a failed pass the phases of its runs. */
  ghost predicate BooksKept(a: State, b: State, name: string, r: Result<nat>, retrying: bool, at: nat, jitter: nat,
      observed: nat) {
    if name !in a.pools then b == a
    else
      && name in b.pools && b == a.(pools := a.pools[name := b.pools[name]], runs := b.runs)
      && EntryKept(a.pools[name], b.pools[name], r, retrying, at, jitter, observed)
      && b.runs.Keys == a.runs.Keys
      && forall id :: id in a.runs ==>
          b.runs[id] == if r.Err? && a.runs[id].poolId == a.pools[name].id && a.runs[id].phase in {Idle, Busy, Starting}
            then a.runs[id].(phase := Unknown) else a.runs[id]
  }

  lemma EntryIsKept(was: PoolState, r: Result<nat>, retrying: bool, at: nat, jitter: nat, observed: nat)
    ensures EntryKept(was, EndPool(was, EndingOf(r), retrying, at, jitter, observed), r, retrying, at, jitter, observed)
  {
    DelayIs(Min(was.failures + 1, U32_MAX), jitter);
  }

  lemma BooksAreKept(a: State, name: string, r: Result<nat>, retrying: bool, at: nat, jitter: nat, observed: nat)
    ensures BooksKept(a, EndState(a, name, EndingOf(r), retrying, at, jitter, observed), name, r, retrying, at, jitter,
                      observed)
  {
    if name in a.pools {
      EntryIsKept(a.pools[name], r, retrying, at, jitter, observed);
      var b := EndState(a, name, EndingOf(r), retrying, at, jitter, observed);
      assert b.pools == a.pools[name := b.pools[name]];
    }
  }

  /* ---- Deleting a pool ---- */

  /** The pool leaves the configuration and the table, and nothing else changes but the revision. */
  ghost predicate Deletes(a: State, b: State, name: string) {
    && OneCommit(a, b) && b.runs == a.runs && b.config == a.config.(pools := b.config.pools)
    && b.pools == a.pools - {name}
    && (forall p :: p in b.config.pools <==> p in a.config.pools && p.name != name)
    && forall n :: n != name ==> Find(b.config.pools, n) == Find(a.config.pools, n)
  }

  lemma DeletionAsPromised(s: Sys, name: string, b: State)
    requires Sound(s)
    ensures PoolDeleted(s.mem, name) == Some(b) ==> Deletes(s.mem, b, name)
  {
    IsSound(s);
    if PoolDeleted(s.mem, name) == Some(b) {
      DeletionIsKept(s.mem, name, b);
    }
  }

  lemma DeletionIsKept(a: State, name: string, b: State)
    requires UniqueNames(a.config.pools) && PoolDeleted(a, name) == Some(b)
    ensures Deletes(a, b, name)
  {
    WithoutKeepsTheRest(a.config.pools, name);
    forall p ensures p in b.config.pools <==> p in a.config.pools && p.name != name {
      WithoutMembers(a.config.pools, name, p);
    }
  }
}
