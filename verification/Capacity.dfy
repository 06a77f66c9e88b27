/** Why a valid configuration never starves a pool that is below its target. */
module Capacity {
  import opened Basics
  import opened Config
  import opened States

  ghost function Count(st: State, name: string): nat
    requires name in st.pools
  {
    |PoolRuns(st.runs, st.pools[name].id)|
  }

  /** The runs recorded for all the listed pools. */
  ghost function RunsOf(st: State, pools: seq<Pool>): set<string> {
    set id | id in st.runs && st.runs[id].pool.name in Names(pools)
  }

  lemma RunsOfOne(st: State, p: Pool)
    requires StateInv(st) && p in st.config.pools
    ensures p.name in st.pools && PoolRuns(st.runs, st.pools[p.name].id) == set id | id in st.runs
            && st.runs[id].pool.name == p.name
  {
    assert p.name in Names(st.config.pools);
    forall id | id in st.runs ensures st.runs[id].poolId == st.pools[p.name].id <==> st.runs[id].pool.name == p.name {
      PoolOfRun(st, p.name, id);
    }
  }

  ghost predicate WithinTargets(st: State) {
    forall p :: p in st.config.pools && p.name in st.pools ==> Count(st, p.name) <= p.replicas
  }

  /** The runs are partitioned by pool; each part is at most the pool's replicas, and one pool may be short. */
  lemma {:induction false} RunsAreWithinReplicas(st: State, pools: seq<Pool>, short: string)
    requires StateInv(st) && WithinTargets(st)
    requires UniqueNames(pools) && forall p :: p in pools ==> p in st.config.pools
    requires short in st.pools && forall p :: p in pools && p.name == short ==> Count(st, short) < p.replicas
    ensures |RunsOf(st, pools)| + (if short in Names(pools) then 1 else 0) <= TotalReplicas(pools)
  {
    if pools == [] {
      assert RunsOf(st, pools) == {};
    } else {
      var front, last := pools[..|pools| - 1], pools[|pools| - 1];
      assert pools == front + [last];
      FrontIsUnique(pools);
      assert last in pools && forall p :: p in front ==> p in pools;
      RunsAreWithinReplicas(st, front, short);
      RunsOfAppended(st, front, last);
    }
  }

  lemma RunsOfAppended(st: State, front: seq<Pool>, last: Pool)
    requires StateInv(st) && last in st.config.pools && UniqueNames(front + [last])
    ensures last.name in st.pools && last.name !in Names(front) && Names(front + [last]) == Names(front) + {last.name}
    ensures |RunsOf(st, front + [last])| == |RunsOf(st, front)| + Count(st, last.name)
  {
    RunsOfOne(st, last);
    var mine := PoolRuns(st.runs, st.pools[last.name].id);
    FrontIsUnique(front + [last]);
    assert (front + [last])[..|front|] == front;
    assert RunsOf(st, front + [last]) == RunsOf(st, front) + mine;
    assert RunsOf(st, front) !! mine;
  }

  /** If no pool is above its replicas, the `max_runners` guard never blocks a pool below its target. */
  lemma NoCapacityStarvation(st: State, name: string)
    requires StateInv(st) && WithinTargets(st) && name in st.pools
    requires Find(st.config.pools, name).Some? && Count(st, name) < Find(st.config.pools, name).value.replicas
    ensures |st.runs| < st.config.manager.maxRunners
  {
    forall p | p in st.config.pools && p.name == name ensures Count(st, name) < p.replicas {
      FindIsUnique(st.config.pools, p);
    }
    RunsAreWithinReplicas(st, st.config.pools, name);
    EveryRunHasAPool(st);
  }

  lemma EveryRunHasAPool(st: State)
    requires StateInv(st)
    ensures RunsOf(st, st.config.pools) == st.runs.Keys
  {
    forall id | id in st.runs ensures id in RunsOf(st, st.config.pools) {
      assert Fits(st, id);
    }
  }
}
