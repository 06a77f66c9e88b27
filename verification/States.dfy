/** The manager's state: what the single SQLite row holds. */
module States {
  import opened Basics
  import opened Config

  datatype Phase = Creating | Starting | Idle | Busy | Unknown | Cleanup

  datatype RetryScope = Observation | Provisioning

  datatype PoolState = PoolState(
    id: string, running: bool, deleting: bool, generation: nat,
    failures: nat, retryAt: nat, retryScope: RetryScope, error: bool, observedAt: nat)

  datatype Run = Run(
    id: string, poolId: string, pool: Pool, generation: nat, createdAt: nat,
    phase: Phase, remoteId: Option<nat>, retiring: bool, force: bool, completedJob: bool, logSaved: bool)

  /** The text of config.toml: what the manager rendered from a configuration, or what somebody typed.
      Its hash is represented by the text itself, as SHA-256 is taken to be injective. */
  datatype Text = Rendered(config: Config) | Typed(content: string, meaning: Option<Config>)
  {
    function Parsed(): Option<Config> {
      match this
      case Rendered(config) => Some(config)
      case Typed(_, meaning) => meaning
    }
  }

  datatype State = State(
    managerId: string, revision: nat, config: Config, fileHash: Text,
    pools: map<string, PoolState>, runs: map<string, Run>)

  function NewPool(id: string): PoolState {
    PoolState(id, false, false, 1, 0, 0, Observation, false, 0)
  }

  /** Whether the pool may have working runners. */
  predicate Active(ps: PoolState) {
    ps.running && !ps.deleting
  }

  function PoolRuns(runs: map<string, Run>, poolId: string): set<string> {
    set id | id in runs && runs[id].poolId == poolId
  }

  /** What ties a run record to the pool it belongs to. */
  ghost predicate Fits(st: State, id: string)
    requires id in st.runs
  {
    var r := st.runs[id];
    && r.id == id
    && r.pool.name in st.pools
    && var ps := st.pools[r.pool.name];
       var p := Find(st.config.pools, r.pool.name);
    && r.poolId == ps.id
    && r.generation <= ps.generation
    && p.Some?
    && (r.generation == ps.generation ==> r.pool == p.value.(replicas := r.pool.replicas))
    && r.pool.organization == p.value.organization && r.pool.repository == p.value.repository
       && r.pool.auth == p.value.auth
    && (r.force ==> r.retiring)
    && (!Active(ps) ==> r.retiring)
  }

  ghost predicate IdsApart(pools: map<string, PoolState>, m: string, n: string) {
    m in pools && n in pools && m != n ==> pools[m].id != pools[n].id
  }

  /** A proof that needs two ids to differ mentions IdsApart. */
  ghost predicate DistinctIds(pools: map<string, PoolState>) {
    forall m: string, n: string {:trigger IdsApart(pools, m, n)} :: IdsApart(pools, m, n)
  }

  /** A valid configuration and a pool table that matches it. */
  ghost predicate TablesAgree(st: State) {
    && ValidConfig(st.config)
    && st.pools.Keys == Names(st.config.pools)
    && DistinctIds(st.pools)
    && (forall n :: n in st.pools && st.pools[n].deleting ==> !st.pools[n].running)
  }

  ghost predicate RunsFit(st: State) {
    forall id {:trigger Fits(st, id)} :: id in st.runs ==> Fits(st, id)
  }

  /** The structural invariant of every state in memory and in the store. */
  ghost predicate StateInv(st: State) {
    TablesAgree(st) && RunsFit(st)
  }

  /** While a run exists its scope and credential profile are the pool's current ones, and the profile exists. */
  lemma ScopeIsStable(st: State, id: string)
    requires StateInv(st) && id in st.runs
    ensures var r := st.runs[id];
            var p := Find(st.config.pools, r.pool.name);
            && p.Some? && r.pool.ApiScope() == p.value.ApiScope()
            && r.pool.organization == p.value.organization && r.pool.repository == p.value.repository
            && r.pool.auth == p.value.auth && r.pool.auth in st.config.auth
  {
    assert Fits(st, id);
  }

  lemma PoolOfRun(st: State, name: string, id: string)
    requires StateInv(st) && name in st.pools && id in st.runs
    ensures st.runs[id].poolId == st.pools[name].id <==> st.runs[id].pool.name == name
  {
    assert Fits(st, id);
    assert IdsApart(st.pools, name, st.runs[id].pool.name);
  }
}
