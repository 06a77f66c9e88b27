/** `mark_retiring`: which runs of a pool keep working after a change. */
module Retiring {
  import opened Basics
  import opened Config
  import opened States
  import opened Sorting

  /** Descending (generation, created_at, id). */
  predicate Ahead(runs: map<string, Run>, x: string, y: string)
    requires x in runs && y in runs
  {
    var a, b := runs[x], runs[y];
    || a.generation > b.generation
    || (a.generation == b.generation && a.createdAt > b.createdAt)
    || (a.generation == b.generation && a.createdAt == b.createdAt && Less(y, x))
  }

  function RunOrder(runs: map<string, Run>): (string, string) -> bool {
    (x, y) => x in runs && y in runs && Ahead(runs, x, y)
  }

  lemma RunOrderIsLinear(runs: map<string, Run>)
    ensures Linear(RunOrder(runs), runs.Keys)
  {
    forall x, y | x in runs && y in runs && x != y ensures Ahead(runs, x, y) != Ahead(runs, y, x) {
      LessIsTotal(x, y);
      if Less(x, y) { LessIsAsymmetric(x, y); }
    }
    forall x, y, z | x in runs && y in runs && z in runs && Ahead(runs, x, y) && Ahead(runs, y, z)
      ensures Ahead(runs, x, z)
    {
      if Less(y, x) && Less(z, y) {
        LessIsTransitive(z, y, x);
      }
    }
  }

  /** How many runs of the pool come before this one. */
  ghost function Rank(runs: map<string, Run>, poolId: string, id: string): nat
    requires id in runs
  {
    |set x | x in PoolRuns(runs, poolId) && RunOrder(runs)(x, id) && x != id|
  }

  ghost function Keep(st: State, name: string): nat
    requires name in st.pools && Find(st.config.pools, name).Some?
  {
    if Active(st.pools[name]) then Find(st.config.pools, name).value.replicas else 0
  }

  ghost predicate Doomed(st: State, name: string, id: string)
    requires name in st.pools && Find(st.config.pools, name).Some? && id in st.runs
  {
    && st.runs[id].poolId == st.pools[name].id
    && (Rank(st.runs, st.pools[name].id, id) >= Keep(st, name) || st.runs[id].generation != st.pools[name].generation)
  }

  /** The specification of `mark_retiring`: a run of the pool stays non-retiring iff it was so before,
      has the current generation and ranks below `keep`. */
  ghost function MarkRetiring(st: State, name: string): State
    requires name in st.pools && Find(st.config.pools, name).Some?
  {
    st.(runs := map id | id in st.runs ::
          if Doomed(st, name, id) then st.runs[id].(retiring := true) else st.runs[id])
  }

  lemma MarkRetiringKeepsInvariant(st: State, name: string)
    requires StateInv(st) && name in st.pools
    ensures Find(st.config.pools, name).Some? && StateInv(MarkRetiring(st, name))
  {
    var after := MarkRetiring(st, name);
    forall id | id in after.runs ensures Fits(after, id) {
      assert Fits(st, id);
    }
  }

  /** The runs of the pool that are more recent: of a greater generation, or of the same one and created later, or
      with both equal and a greater id. */
  ghost function MoreRecent(runs: map<string, Run>, poolId: string, id: string): set<string>
    requires id in runs
  {
    set x | x in runs && runs[x].poolId == poolId
        && (|| runs[x].generation > runs[id].generation
            || (runs[x].generation == runs[id].generation && runs[x].createdAt > runs[id].createdAt)
            || (runs[x].generation == runs[id].generation && runs[x].createdAt == runs[id].createdAt && Less(id, x)))
  }

  /** A run of the pool that is of another generation or has as many more recent ones as the pool may keep. */
  ghost predicate Surplus(st: State, name: string, id: string)
    requires name in st.pools && Find(st.config.pools, name).Some? && id in st.runs
  {
    var ps := st.pools[name];
    && st.runs[id].poolId == ps.id
    && (st.runs[id].generation != ps.generation
        || (ps.running && !ps.deleting ==>
            |MoreRecent(st.runs, ps.id, id)| >= Find(st.config.pools, name).value.replicas))
  }

  /** From `a` to `b` just the surplus runs of the pool were retired. */
  ghost predicate RetiredAsDue(a: State, b: State, name: string) {
    && name in a.pools && Find(a.config.pools, name).Some?
    && b == a.(runs := b.runs) && b.runs.Keys == a.runs.Keys
    && forall id :: id in a.runs ==>
        && b.runs[id] == a.runs[id].(retiring := b.runs[id].retiring)
        && (b.runs[id].retiring <==> a.runs[id].retiring || Surplus(a, name, id))
  }

  lemma RankCountsMoreRecent(runs: map<string, Run>, poolId: string, id: string)
    requires id in runs
    ensures Rank(runs, poolId, id) == |MoreRecent(runs, poolId, id)|
  {
    forall x | x in runs && Less(id, x) ensures x != id { LessIsAsymmetric(id, x); }
    assert MoreRecent(runs, poolId, id) == set x | x in PoolRuns(runs, poolId) && RunOrder(runs)(x, id) && x != id;
  }

  lemma MarkingRetiresAsDue(st: State, name: string)
    requires name in st.pools && Find(st.config.pools, name).Some?
    ensures RetiredAsDue(st, MarkRetiring(st, name), name)
  {
    forall id | id in st.runs
      ensures Rank(st.runs, st.pools[name].id, id) == |MoreRecent(st.runs, st.pools[name].id, id)|
    {
      RankCountsMoreRecent(st.runs, st.pools[name].id, id);
    }
  }

  lemma MoreRecentIsTransitive(runs: map<string, Run>, poolId: string, x: string, y: string)
    requires x in runs && y in runs && x in MoreRecent(runs, poolId, y)
    ensures MoreRecent(runs, poolId, x) <= MoreRecent(runs, poolId, y)
  {
    forall z | z in MoreRecent(runs, poolId, x) ensures z in MoreRecent(runs, poolId, y) {
      if Less(x, z) && Less(y, x) {
        LessIsTransitive(y, x, z);
      }
    }
  }

  /** Of two runs of the pool's generation, one retired by the marking and one left, the retired one is the older. */
  lemma OlderRunsRetireFirst(a: State, b: State, name: string, x: string, y: string)
    requires RetiredAsDue(a, b, name) && x in a.runs && y in a.runs
    requires a.runs[x].poolId == a.pools[name].id && a.runs[y].poolId == a.pools[name].id
    requires a.runs[x].generation == a.pools[name].generation && a.runs[y].generation == a.pools[name].generation
    requires !a.runs[x].retiring && b.runs[x].retiring && !b.runs[y].retiring
    ensures a.runs[x].createdAt < a.runs[y].createdAt
            || (a.runs[x].createdAt == a.runs[y].createdAt && Less(x, y))
  {
    LessIsTotal(x, y);
    if x in MoreRecent(a.runs, a.pools[name].id, y) {
      MoreRecentIsTransitive(a.runs, a.pools[name].id, x, y);
      SubsetIsSmaller(MoreRecent(a.runs, a.pools[name].id, x), MoreRecent(a.runs, a.pools[name].id, y));
    }
  }

  /** Marking depends on order and generation only, so a second pass repeats the same choice. */
  lemma MarkRetiringIsIdempotent(st: State, name: string)
    requires name in st.pools && Find(st.config.pools, name).Some?
    ensures MarkRetiring(MarkRetiring(st, name), name) == MarkRetiring(st, name)
  {
    var once := MarkRetiring(st, name);
    forall id | id in st.runs ensures Doomed(once, name, id) == Doomed(st, name, id) {
      RankIsTheSame(st.runs, once.runs, st.pools[name].id, id);
    }
  }

  lemma RankIsTheSame(a: map<string, Run>, b: map<string, Run>, poolId: string, id: string)
    requires a.Keys == b.Keys && id in a
    requires forall x :: x in a ==>
              a[x].poolId == b[x].poolId && a[x].generation == b[x].generation && a[x].createdAt == b[x].createdAt
    ensures Rank(a, poolId, id) == Rank(b, poolId, id)
  {
    forall x | x in a ensures RunOrder(a)(x, id) == RunOrder(b)(x, id) {
    }
    assert (set x | x in PoolRuns(a, poolId) && RunOrder(a)(x, id) && x != id)
        == (set x | x in PoolRuns(b, poolId) && RunOrder(b)(x, id) && x != id);
  }

  /** In the sorted list of a pool's runs the position is the rank. */
  lemma PlaceIsRank(runs: map<string, Run>, poolId: string, order: seq<string>, i: nat)
    requires Ordered(RunOrder(runs), PoolRuns(runs, poolId), order) && i < |order|
    ensures order[i] in runs && runs[order[i]].poolId == poolId && Rank(runs, poolId, order[i]) == i
    ensures |MoreRecent(runs, poolId, order[i])| == i
  {
    RunOrderIsLinear(runs);
    assert order[i] in PoolRuns(runs, poolId);
    RankCountsMoreRecent(runs, poolId, order[i]);
    PositionIsRank(RunOrder(runs), PoolRuns(runs, poolId), order, i);
    var ids := PoolRuns(runs, poolId);
    assert order[i] in ids;
  }

  /** What the source's loop does at each position of the sorted list is what the specification asks. */
  lemma MarkedAt(st: State, name: string, order: seq<string>, i: nat)
    requires name in st.pools && Find(st.config.pools, name).Some?
    requires Ordered(RunOrder(st.runs), PoolRuns(st.runs, st.pools[name].id), order) && i < |order|
    ensures MarkedRun(st.runs, MarkRetiring(st, name).runs, order, i, Keep(st, name), st.pools[name].generation)
  {
    PlaceIsRank(st.runs, st.pools[name].id, order, i);
  }

  ghost predicate MarkedRun(runs: map<string, Run>, marked: map<string, Run>, order: seq<string>, i: nat, keep: nat,
      generation: nat)
    requires i < |order|
  {
    && order[i] in runs && order[i] in marked
    && marked[order[i]] == if i >= keep || runs[order[i]].generation != generation
      then runs[order[i]].(retiring := true) else runs[order[i]]
  }

  lemma UnlistedStays(st: State, name: string, order: seq<string>, id: string)
    requires name in st.pools && Find(st.config.pools, name).Some?
    requires Ordered(RunOrder(st.runs), PoolRuns(st.runs, st.pools[name].id), order) && id in st.runs && id !in order
    ensures MarkRetiring(st, name).runs[id] == st.runs[id]
  {
    assert id !in PoolRuns(st.runs, st.pools[name].id);
  }

  ghost function Survivors(st: State, poolId: string): set<string> {
    set id | id in PoolRuns(st.runs, poolId) && !st.runs[id].retiring
  }

  /** After marking, every run left working has exactly the current settings, and at most `keep` are left. */
  lemma SurvivorsAreCurrentAndFew(st: State, name: string)
    requires StateInv(st) && name in st.pools
    ensures Find(st.config.pools, name).Some?
    ensures var after := MarkRetiring(st, name);
            var left := Survivors(after, st.pools[name].id);
            && |left| <= (if st.pools[name].running && !st.pools[name].deleting
                         then Find(st.config.pools, name).value.replicas else 0)
            && forall id :: id in left ==>
                && id in after.runs
                && var p := after.runs[id].pool;
                   p == Find(st.config.pools, name).value.(replicas := p.replicas)
  {
    var left := Survivors(MarkRetiring(st, name), st.pools[name].id);
    forall id | id in left
      ensures st.runs[id].pool == Find(st.config.pools, name).value.(replicas := st.runs[id].pool.replicas)
    {
      assert Fits(st, id);
      PoolOfRun(st, name, id);
    }
    SurvivorsAreFew(st, name);
  }

  lemma SurvivorsAreFew(st: State, name: string)
    requires name in st.pools && Find(st.config.pools, name).Some?
    ensures |Survivors(MarkRetiring(st, name), st.pools[name].id)| <= Keep(st, name)
  {
    var ids := PoolRuns(st.runs, st.pools[name].id);
    RunOrderIsLinear(st.runs);
    var order := Sorted(RunOrder(st.runs), ids);
    SortedIsOrdered(RunOrder(st.runs), ids);
    var n := Min(|order|, Keep(st, name));
    var first := set x | x in order[..n];
    CountDistinct(order[..n], first);
    var left := Survivors(MarkRetiring(st, name), st.pools[name].id);
    forall id | id in left ensures id in first {
      SurvivorIsAmongFirst(st, name, order, id);
    }
    SubsetIsSmaller(left, first);
  }

  lemma SurvivorIsAmongFirst(st: State, name: string, order: seq<string>, id: string)
    requires name in st.pools && Find(st.config.pools, name).Some?
    requires Ordered(RunOrder(st.runs), PoolRuns(st.runs, st.pools[name].id), order)
    requires id in PoolRuns(st.runs, st.pools[name].id) && !Doomed(st, name, id)
    ensures id in order[..Min(|order|, Keep(st, name))]
  {
    var i :| 0 <= i < |order| && order[i] == id;
    PlaceIsRank(st.runs, st.pools[name].id, order, i);
    assert order[..Min(|order|, Keep(st, name))][i] == id;
  }
}
