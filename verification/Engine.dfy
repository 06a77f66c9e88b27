/** The manager's single-writer engine. Every method keeps a history of the protocol steps it took. */
module Engines {
  import opened Basics
  import opened Sorting
  import opened Config
  import opened States
  import opened Retiring
  import opened Requests
  import opened Backoff
  import opened Worlds
  import opened Protocol
  import opened Invariants
  import opened Histories
  import opened Awaits
  import opened Hosts
  import opened Quiet
  import opened Rounds
  import opened Convergence
  import opened Turns
  import opened Promises

  /** How one run's turn in a pass ends: go on, give the pass up (the `?` operator), or remember a cleanup error and
      go on. */
  datatype Turn = Onward | GiveUp(error: Error) | Postpone(error: Error)

  /** The runs, those of `done` as in `marked`. */
  ghost function MarkedUpto(runs: map<string, Run>, marked: map<string, Run>, done: seq<string>): map<string, Run>
    requires marked.Keys == runs.Keys
  {
    map id | id in runs :: if id in done then marked[id] else runs[id]
  }

  lemma MarkedUptoNext(runs: map<string, Run>, marked: map<string, Run>, order: seq<string>, i: nat)
    requires marked.Keys == runs.Keys && i < |order| && order[i] in runs && order[i] !in order[..i]
    ensures var before := MarkedUpto(runs, marked, order[..i]);
            && before[order[i]] == runs[order[i]]
            && MarkedUpto(runs, marked, order[..i + 1]) == before[order[i] := marked[order[i]]]
  {
    assert order[..i + 1] == order[..i] + [order[i]];
  }

  lemma HasTurns(st: State, cursor: nat)
    ensures SortedNames(st) == [] <==> st.pools == map[]
    ensures SortedNames(st) != [] ==> InTurn(SortedNames(st), cursor) in st.pools
  {
    var names := SortedNames(st);
    assert names == [] ==> st.pools.Keys == {};
    assert names != [] ==> names[cursor % |names|] in names;
  }

  class Engine {
    const store: Store
    const host: Host
    var state: State
    var epoch: nat
    var reconcileEpoch: Option<nat>
    var cursor: nat
    var bootTime: Option<nat>

    ghost var approved: Option<Text>
    ghost var pass: Option<Pass>
    ghost var counted: nat
    ghost var calls: Calls
    ghost var inflight: Option<Effect>
    ghost var history: seq<Entry>

    constructor (store: Store, host: Host, state: State, ghost history: seq<Entry>)
      requires store.row == Some(state)
      ensures this.store == store && this.host == host && this.state == state && this.history == history
      ensures epoch == 0 && reconcileEpoch.None? && cursor == 0 && bootTime.None?
      ensures approved.None? && pass.None? && counted == 0 && calls == NoCalls && inflight.None?
    {
      this.store, this.host, this.state, this.history := store, host, state, history;
      epoch, reconcileEpoch, cursor, bootTime := 0, None, 0, None;
      approved, pass, counted, calls, inflight := None, None, 0, NoCalls, None;
    }

    /** The protocol state that the engine is in. */
    ghost function Now(): Sys
      requires store.row.Some?
      reads this, store, host
    {
      Sys(state, store.row.value, host.file, approved, host.world, host.issued, host.poolIds, pass, counted, calls,
          inflight)
    }

    ghost predicate Recorded()
      reads this, store, host
    {
      store.row.Some? && history != [] && Lawful(history) && Last(history) == Now()
    }

    /** The pass counts as interrupted exactly when the epochs differ. */
    ghost predicate Linked()
      reads this
    {
      && (pass.Some? <==> reconcileEpoch.Some?)
      && (pass.Some? ==> reconcileEpoch.value <= epoch && (pass.value.interrupted <==> reconcileEpoch.value != epoch))
    }

    ghost predicate Valid()
      reads this, store, host
    {
      Recorded() && Sound(Now()) && approved.None? && Linked()
    }

    /** Appends a step to the history; the state it leads to is the current one. */
    ghost method Log(did: Label, before: Sys)
      requires store.row.Some? && history != [] && Lawful(history) && Last(history) == before
      requires Sound(before) && Allowed(before, did, Now())
      modifies this`history
      ensures history == old(history) + [Entry(did, Now())]
      ensures Recorded() && Sound(Now())
    {
      IsSound(before);
      IsAllowed(before, did, Now());
      StepKeepsInv(before, did, Now());
      Extended(history, did, Now());
      history := history + [Entry(did, Now())];
    }

    /* ---- Saving and committing ---- */

    method Save()
      modifies store
      ensures store.row == Some(state)
    {
      store.Save(state);
    }

    method CleanFile() returns (ok: bool)
      ensures ok <==> host.file == Some(state.fileHash)
    {
      ok := host.file == Some(state.fileHash);
    }

    /** `commit_config`: the store first, then memory, then config.toml. `did` is the step that the commit is. */
    method CommitConfig(next: Config, ids: map<string, string>, ghost did: Label, ghost commitPass: Option<Pass>)
      returns (ok: bool)
      requires Recorded0() && Sound(Last(history)) && approved.None? && host.file.Some?
      requires ValidConfig(next) ==>
                Allowed(Last(history), did, CommitTarget(Committed(state, next).value, ids, commitPass))
      modifies this`state, this`history, this`approved, this`pass, store, host`file, host`poolIds
      ensures Recorded0() && Sound(Last(history)) && old(history) <= history
      ensures !ValidConfig(next) ==> !ok && state == old(state) && history == old(history) && SameOutside()
      ensures ValidConfig(next) ==>
                && Recorded() && Some(state) == Committed(old(state), next) && store.row == Some(state)
                && pass == commitPass && host.poolIds == old(host.poolIds) + ids.Values
                && state == old(state).(config := next, revision := old(state).revision + 1,
                                        fileHash := Rendered(next))
                && (host.file == Some(Rendered(next)) || (!ok && host.file == old(host.file)))
                && (ok ==> approved.None?)
                && (host.quiet ==> ok)
    {
      var valid := Validate(next);
      if !valid {
        return false;
      }
      var st := state.(config := next, revision := state.revision + 1, fileHash := Rendered(next));
      StoreCommit(st, ids, did, commitPass);
      ok := WriteText(Rendered(next));
    }

    twostate predicate SameOutside()
      reads this, store, host
    {
      store.row == old(store.row) && approved == old(approved) && pass == old(pass) && host.file == old(host.file)
          && host.poolIds == old(host.poolIds)
    }

    ghost function CommitTarget(st: State, ids: map<string, string>, commitPass: Option<Pass>): Sys
      requires history != []
      reads this, store, host
    {
      Last(history).(mem := st, disk := st, approved := host.file, poolIds := host.poolIds + ids.Values,
          pass := commitPass)
    }

    method StoreCommit(st: State, ids: map<string, string>, ghost did: Label, ghost commitPass: Option<Pass>)
      requires Recorded0() && Sound(Last(history)) && Allowed(Last(history), did, CommitTarget(st, ids, commitPass))
      modifies this`state, this`history, this`approved, this`pass, store, host`poolIds
      ensures Recorded() && Sound(Now()) && Now() == old(CommitTarget(st, ids, commitPass)) && old(history) <= history
    {
      ghost var before := Last(history);
      store.Save(st);
      state := st;
      approved := host.file;
      pass := commitPass;
      host.poolIds := host.poolIds + ids.Values;
      Log(did, before);
    }

    method WriteText(text: Text) returns (ok: bool)
      requires Recorded() && Sound(Now()) && approved.Some? && host.file == approved && state.fileHash == text
      modifies this`history, this`approved, host`file
      ensures Recorded() && Sound(Now()) && old(history) <= history
      ensures host.file == Some(text) || (!ok && host.file == old(host.file))
      ensures ok ==> approved.None?
      ensures host.quiet ==> ok
    {
      ghost var committed := Now();
      var written;
      written, ok := host.WriteConfig(text);
      if written {
        approved := None;
        Allow(committed, WriteConfig, Now());
        Log(WriteConfig, committed);
      }
    }

    /** As Recorded, but memory may be in the middle of an edit. */
    ghost predicate Recorded0()
      reads this, store, host
    {
      store.row.Some? && history != [] && Lawful(history) && Last(history) == Now().(mem := Last(history).mem)
    }

    /* ---- mark_retiring ---- */

    method MarkRuns(name: string)
      requires name in state.pools && Find(state.config.pools, name).Some?
      modifies this`state
      ensures state == MarkRetiring(old(state), name) && RetiredAsDue(old(state), state, name)
    {
      MarkingRetiresAsDue(state, name);
      var ps := state.pools[name];
      var pool := Find(state.config.pools, name).value;
      var keep := if Active(ps) then pool.replicas else 0;
      RunOrderIsLinear(state.runs);
      var order := Sorted(RunOrder(state.runs), PoolRuns(state.runs, ps.id));
      SortedIsOrdered(RunOrder(state.runs), PoolRuns(state.runs, ps.id));
      forall i | 0 <= i < |order|
        ensures MarkedRun(state.runs, MarkRetiring(state, name).runs, order, i, keep, ps.generation)
      {
        MarkedAt(state, name, order, i);
      }
      forall id | id in state.runs && id !in order ensures MarkRetiring(state, name).runs[id] == state.runs[id] {
        UnlistedStays(state, name, order, id);
      }
      MarkInOrder(order, keep, ps.generation, MarkRetiring(state, name).runs);
    }

    method MarkInOrder(order: seq<string>, keep: nat, generation: nat, ghost marked: map<string, Run>)
      requires marked.Keys == state.runs.Keys && forall i, j :: 0 <= i < j < |order| ==> order[i] != order[j]
      requires forall i :: 0 <= i < |order| ==> MarkedRun(state.runs, marked, order, i, keep, generation)
      requires forall id :: id in state.runs && id !in order ==> marked[id] == state.runs[id]
      modifies this`state
      ensures state == old(state).(runs := marked)
    {
      ghost var runs := state.runs;
      for index := 0 to |order|
        invariant state == old(state).(runs := MarkedUpto(runs, marked, order[..index]))
      {
        var id := order[index];
        assert MarkedRun(runs, marked, order, index, keep, generation);
        MarkedUptoNext(runs, marked, order, index);
        var run := state.runs[id];
        if index >= keep || run.generation != generation {
          state := state.(runs := state.runs[id := run.(retiring := true)]);
        }
      }
      assert order[..|order|] == order;
      assert MarkedUpto(runs, marked, order) == marked;
    }

    /** Where a request leaves the engine once a refused one has been rolled back. */
    ghost function Settled(ok: bool): Sys
      requires store.row.Some?
      reads this, store, host
    {
      Now().(mem := if ok then state else store.row.value, approved := None, pass := Interrupt(pass))
    }

    /** A handler's contract: the history is up to date except for a rollback of memory that may still be due. */
    ghost predicate Handled(before: Sys, req: Request, ids: map<string, string>, ok: bool)
      reads this, store, host
    {
      && Recorded0() && Sound(Last(history))
      && (ok ==> Recorded() && approved.None? && pass == Interrupt(pass))
      && Served(before, req, ids, ok, Settled(ok))
      && (host.quiet && ConfigRequest(req) ==> (ok <==> Proposed(before.mem, before.file, req, ids).Some?))
    }

    /** What the field-by-field account of the request says of a handler that succeeded. */
    ghost method KeepPromise(before: Sys, req: Request, ids: map<string, string>, ok: bool)
      requires Sound(before) && Handled(before, req, ids, ok) && req.Mutating()
      ensures ok ==> Promised(before.mem, state, req) && store.row == Some(state)
    {
      if ok {
        IsSound(before);
        ServedAsPromised(before, req, ids, Settled(true));
      }
    }

    /* ---- Start, Stop, Remove ---- */

    method TargetNames(pool: Option<string>, all: bool) returns (r: Option<seq<string>>)
      ensures r.Some? <==> Targets(state, pool, all).Some?
      ensures r.Some? ==> (set n | n in r.value) == Targets(state, pool, all).value && forall n :: n in r.value ==>
          n in state.pools
    {
      if pool.Some? == all {
        return None;
      }
      if pool.Some? {
        if pool.value !in state.pools {
          return None;
        }
        assert (set n | n in [pool.value]) == {pool.value};
        return Some([pool.value]);
      }
      var names := SortedNames(state);
      assert (set n | n in names) == state.pools.Keys;
      return Some(names);
    }

    /** A saved intent: what a successful Start, Stop or Remove leaves behind. */
    method SaveIntent(ghost req: Request, ghost before: Sys)
      requires Recorded0() && Last(history) == before && Sound(before) && approved.None?
      requires IntentOf(before.mem, req) == Some(state)
      modifies this`history, this`pass, store
      ensures Recorded() && Sound(Now()) && old(history) <= history
      ensures Now() == before.(mem := state, disk := state, pass := Interrupt(before.pass))
    {
      pass := Interrupt(pass);
      Save();
      Allow(before, Intent(req), Now());
      Log(Intent(req), before);
    }

    method HandleStart(target: Option<string>, all: bool) returns (ok: bool)
      requires Recorded() && Sound(Now()) && approved.None?
      modifies this`state, this`history, this`pass, store
      ensures Handled(old(Now()), Start(target, all), map[], ok) && old(history) <= history
      ensures ok ==> store.row == Some(state) && StartedUp(old(state), state, target, all)
    {
      ghost var before := Now();
      var targets := TargetNames(target, all);
      if targets.None? {
        return false;
      }
      var ts := targets.value;
      for i := 0 to |ts|
        invariant forall j :: 0 <= j < i ==> !state.pools[ts[j]].deleting
      {
        if state.pools[ts[i]].deleting {
          assert ts[i] in Targets(state, target, all).value;
          return false;
        }
      }
      StartPools(ts);
      SaveIntent(Start(target, all), before);
      ok := true;
      KeepPromise(before, Start(target, all), map[], ok);
    }

    method StartPools(ts: seq<string>)
      requires forall n :: n in ts ==> n in state.pools
      modifies this`state
      ensures state == StartAll(old(state), set n | n in ts)
    {
      ghost var before := state;
      ghost var done: set<string> := {};
      assert StartAll(before, {}) == before;
      for i := 0 to |ts|
        invariant done == set n | n in ts[..i]
        invariant state == StartAll(before, done)
      {
        assert ts[..i + 1] == ts[..i] + [ts[i]];
        done := done + {ts[i]};
        state := state.(pools := state.pools[ts[i] := Started(state.pools[ts[i]])]);
        assert state.pools == StartAll(before, done).pools;
      }
      assert ts[..|ts|] == ts;
    }

    /** Every run of the pool is marked, and forced if asked. */
    method RetireRuns(poolId: string, force: bool)
      modifies this`state
      ensures state == old(state).(runs := state.runs) && state.runs.Keys == old(state.runs.Keys)
      ensures forall id :: id in state.runs ==>
                state.runs[id] == if old(state).runs[id].poolId == poolId
                  then Retire(old(state).runs[id], force) else old(state).runs[id]
    {
      ghost var st := state;
      var rest := state.runs.Keys;
      while rest != {}
        invariant rest <= st.runs.Keys
        invariant state == st.(runs := state.runs) && state.runs.Keys == st.runs.Keys
        invariant forall id :: id in st.runs ==>
                    state.runs[id] == if id !in rest && st.runs[id].poolId == poolId
                      then Retire(st.runs[id], force) else st.runs[id]
        decreases |rest|
      {
        var id :| id in rest;
        rest := rest - {id};
        if state.runs[id].poolId == poolId {
          state := state.(runs := state.runs[id := Retire(state.runs[id], force)]);
        }
      }
    }

    method HaltPool(name: string, deleting: bool, force: bool, ghost st: State, ghost done: set<string>)
      requires name in st.pools && state == HaltAll(st, done, deleting, force)
      modifies this`state
      ensures state == HaltAll(st, done + {name}, deleting, force)
    {
      ghost var before := state;
      var ps := state.pools[name];
      state := state.(pools := state.pools[name := Halted(ps, deleting, force)]);
      RetireRuns(ps.id, force);
      OneMoreHalted(st, done, name, deleting, force, before, state);
    }

    method HandleStop(target: Option<string>, all: bool, force: bool) returns (ok: bool)
      requires Recorded() && Sound(Now()) && approved.None?
      modifies this`state, this`history, this`pass, store
      ensures Handled(old(Now()), Stop(target, all, force), map[], ok) && old(history) <= history
      ensures ok ==>
                && store.row == Some(state)
                && Halts(old(state), state, set n | n in old(state).pools && (all || target == Some(n)), false, force)
    {
      ghost var before := Now();
      var targets := TargetNames(target, all);
      if targets.None? {
        return false;
      }
      HaltPools(targets.value, force);
      SaveIntent(Stop(target, all, force), before);
      ok := true;
      KeepPromise(before, Stop(target, all, force), map[], ok);
    }

    method HaltPools(ts: seq<string>, force: bool)
      requires forall n :: n in ts ==> n in state.pools
      modifies this`state
      ensures state == HaltAll(old(state), set n | n in ts, false, force)
    {
      ghost var before := state;
      ghost var done: set<string> := {};
      HaltNothing(before, false, force);
      for i := 0 to |ts|
        invariant done == set n | n in ts[..i]
        invariant state == HaltAll(before, done, false, force)
      {
        assert ts[..i + 1] == ts[..i] + [ts[i]];
        HaltPool(ts[i], false, force, before, done);
        done := done + {ts[i]};
      }
      assert ts[..|ts|] == ts;
    }

    method HandleRemove(name: string, force: bool) returns (ok: bool)
      requires Recorded() && Sound(Now()) && approved.None?
      modifies this`state, this`history, this`pass, store
      ensures Handled(old(Now()), Remove(name, force), map[], ok) && old(history) <= history
      ensures ok ==> store.row == Some(state) && Halts(old(state), state, {name}, true, force)
    {
      ghost var before := Now();
      if name !in state.pools {
        return false;
      }
      HaltNothing(before.mem, true, force);
      HaltPool(name, true, force, before.mem, {});
      assert {} + {name} == {name};
      SaveIntent(Remove(name, force), before);
      ok := true;
      KeepPromise(before, Remove(name, force), map[], ok);
    }

    /* ---- Requests that change the configuration ---- */

    /** The last part of a committed request: marks and resets, saved. */
    method SaveFinish(ghost req: Request, ghost before: Sys)
      requires Recorded0() && Last(history) == before && Sound(before) && approved.None?
      requires state == Finished(before.mem, req)
      modifies this`history, this`pass, store
      ensures Recorded() && Sound(Now()) && old(history) <= history
      ensures Now() == before.(mem := state, disk := state, pass := Interrupt(before.pass))
    {
      pass := Interrupt(pass);
      Save();
      Allow(before, Finish(req), Now());
      Log(Finish(req), before);
    }

    /** Commits what the request proposes. */
    method CommitRequest(next: Config, ids: map<string, string>, ghost req: Request, ghost before: Sys)
      returns (ok: bool)
      requires Recorded0() && Last(history) == before && Sound(before) && approved.None? && ConfigRequest(req)
      requires Proposed(before.mem, before.file, req, ids) == Committed(state, next)
      requires ValidConfig(next) ==> FreshIds(before.mem, req, ids, before.poolIds) && before.file.Some?
      modifies this`state, this`history, this`approved, this`pass, store, host`file, host`poolIds
      ensures old(history) <= history
      ensures ok ==> IsCommitted(before, req, ids)
      ensures !ok ==> Handled(before, req, ids, false)
    {
      var valid := Validate(next);
      if !valid {
        RefusalIsServed(before, req, ids, Settled(false));
        return false;
      }
      Allow(before, Commit(req, ids), CommitTarget(Committed(state, next).value, ids, Interrupt(pass)));
      ok := CommitConfig(next, ids, Commit(req, ids), Interrupt(pass));
      if !ok {
        FailedWriteIsServed(before, req, ids, Settled(false));
      }
    }

    /** Store, memory and file hold the proposed configuration; marks and resets are still to come. */
    ghost predicate IsCommitted(before: Sys, req: Request, ids: map<string, string>)
      reads this, store, host
    {
      && Recorded() && Sound(Now()) && approved.None?
      && var proposed := Proposed(before.mem, before.file, req, ids);
      && proposed.Some? && FreshIds(before.mem, req, ids, before.poolIds)
      && Now() == before.(mem := proposed.value, disk := proposed.value, file := Some(Rendered(proposed.value.config)),
                          poolIds := before.poolIds + ids.Values, pass := Interrupt(before.pass))
    }

    method HandleAdd(p: Pool) returns (ok: bool, ids: map<string, string>)
      requires Recorded() && Sound(Now()) && approved.None?
      modifies this`state, this`history, this`approved, this`pass, store, host`file, host`poolIds
      ensures Handled(old(Now()), Add(p), ids, ok) && old(history) <= history
      ensures ok ==> store.row == Some(state) && Adds(old(state), state, p)
    {
      ids := map[];
      ghost var before := Now();
      var clean := CleanFile();
      if !clean || p.name in state.pools {
        return false, ids;
      }
      var next := state.config.(pools := state.config.pools + [p]);
      var valid := Validate(next);
      if !valid {
        return false, ids;
      }
      var id := host.Uuid(host.poolIds);
      ids := map[p.name := id];
      state := state.(pools := state.pools[p.name := NewPool(id)]);
      ok := CommitRequest(next, ids, Add(p), before);
      KeepPromise(before, Add(p), ids, ok);
    }

    method HandleScale(name: string, replicas: nat) returns (ok: bool)
      requires Recorded() && Sound(Now()) && approved.None?
      modifies this`state, this`history, this`approved, this`pass, store, host`file, host`poolIds
      ensures Handled(old(Now()), Scale(name, replicas), map[], ok) && old(history) <= history
      ensures ok ==> store.row == Some(state) && Scales(old(state), state, name, replicas)
    {
      ghost var req := Scale(name, replicas);
      ghost var before := Now();
      var clean := CleanFile();
      var p := Find(state.config.pools, name);
      if !clean || p.None? {
        return false;
      }
      PoolExists(before, name);
      if state.pools[name].deleting {
        return false;
      }
      var next := state.config.(pools := Replace(state.config.pools, name, p.value.(replicas := replicas)));
      ok := CommitRequest(next, map[], req, before);
      if ok {
        FinishNamed(name, req, before);
      }
    }

    method HandleUpgrade(name: string, image: string) returns (ok: bool)
      requires Recorded() && Sound(Now()) && approved.None?
      modifies this`state, this`history, this`approved, this`pass, store, host`file, host`poolIds
      ensures Handled(old(Now()), Upgrade(name, image), map[], ok) && old(history) <= history
      ensures ok ==> store.row == Some(state) && Upgrades(old(state), state, name, image)
    {
      ghost var req := Upgrade(name, image);
      ghost var before := Now();
      var clean := CleanFile();
      var p := Find(state.config.pools, name);
      if !clean || p.None? {
        return false;
      }
      PoolExists(before, name);
      if state.pools[name].deleting {
        return false;
      }
      var next := state.config.(pools := Replace(state.config.pools, name, p.value.(image := image)));
      var valid := Validate(next);
      if !valid {
        return false;
      }
      state := state.(pools := state.pools[name := state.pools[name].(generation := state.pools[name].generation + 1)]);
      ok := CommitRequest(next, map[], req, before);
      if ok {
        FinishNamed(name, req, before);
      }
    }

    /** `mark_retiring` of one pool after its configuration was committed. */
    method MarkNamed(name: string, ghost req: Request, ghost before: Sys)
      requires IsCommitted(before, req, map[])
      requires (req.Scale? || req.Upgrade?) && req.name == name
      modifies this`state, this`history, this`pass, store
      ensures Handled(before, req, map[], true) && old(history) <= history
    {
      ghost var committed := Now();
      FinishIsMarking(before, committed, req);
      MarkRuns(name);
      SaveFinish(req, committed);
    }

    method FinishNamed(name: string, ghost req: Request, ghost before: Sys)
      requires IsCommitted(before, req, map[]) && Sound(before)
      requires (req.Scale? || req.Upgrade?) && req.name == name
      modifies this`state, this`history, this`pass, store
      ensures Handled(before, req, map[], true) && old(history) <= history
      ensures Promised(before.mem, state, req) && store.row == Some(state)
    {
      MarkNamed(name, req, before);
      KeepPromise(before, req, map[], true);
    }

    method HandleAuth(profile: string, auth: Auth) returns (ok: bool)
      requires Recorded() && Sound(Now()) && approved.None?
      modifies this`state, this`history, this`approved, this`pass, store, host`file, host`poolIds
      ensures Handled(old(Now()), SetAuth(profile, auth), map[], ok) && old(history) <= history
      ensures ok ==> store.row == Some(state) && SetsProfile(old(state), state, profile, auth)
    {
      ghost var req := SetAuth(profile, auth);
      ghost var before := Now();
      var clean := CleanFile();
      if !clean || profile == "" {
        return false;
      }
      var next := state.config.(auth := state.config.auth[profile := auth]);
      ok := CommitRequest(next, map[], req, before);
      if ok {
        FinishAuth(profile, req, before);
      }
    }

    method FinishAuth(profile: string, ghost req: Request, ghost before: Sys)
      requires IsCommitted(before, req, map[]) && Sound(before) && req.SetAuth? && req.profile == profile
      modifies this`state, this`history, this`pass, store
      ensures Handled(before, req, map[], true) && old(history) <= history
      ensures Promised(before.mem, state, req) && store.row == Some(state)
    {
      ghost var committed := Now();
      ClearBackoffs(profile);
      SaveFinish(req, committed);
      KeepPromise(before, req, map[], true);
    }

    method ClearBackoffs(profile: string)
      modifies this`state
      ensures state == Finished(old(state), SetAuth(profile, Auth("", None)))
    {
      ghost var st := state;
      var rest := state.pools.Keys;
      while rest != {}
        invariant rest <= st.pools.Keys
        invariant state == st.(pools := state.pools) && state.pools.Keys == st.pools.Keys
        invariant forall n :: n in st.pools ==>
                    state.pools[n] == if n !in rest && UsesProfile(st.config, n, profile)
                      then ClearedBackoff(st.pools[n]) else st.pools[n]
        decreases |rest|
      {
        var n :| n in rest;
        rest := rest - {n};
        if UsesProfile(state.config, n, profile) {
          state := state.(pools := state.pools[n := ClearedBackoff(state.pools[n])]);
        }
      }
      assert state.pools == Finished(st, SetAuth(profile, Auth("", None))).pools;
    }

    /* ---- Apply ---- */

    /** The loop of Apply over the new pools: refuses edits of deleting pools and of scopes in use, and
        collects the pool states under the new configuration. */
    method ApplyPools(next: Config) returns (ok: bool, pools: map<string, PoolState>, ids: map<string, string>)
      requires state.pools.Keys == Names(state.config.pools) && UniqueNames(next.pools)
      ensures ok <==> forall n :: n in Names(next.pools) ==> Editable(state, next, n)
      ensures ok ==> Collected(state, next, |next.pools|, pools, ids, host.poolIds)
    {
      pools, ids := state.pools, map[];
      CollectNothing(state, next, host.poolIds);
      for i := 0 to |next.pools|
        invariant Collected(state, next, i, pools, ids, host.poolIds)
        invariant forall n :: n in Names(next.pools[..i]) ==> Editable(state, next, n)
      {
        NextName(next, i);
        var name := next.pools[i].name;
        ok, pools, ids := ApplyPool(next, i, pools, ids);
        if !ok {
          assert name in Names(next.pools);
          return;
        }
      }
      assert next.pools[..|next.pools|] == next.pools;
      ok := true;
    }

    /** The state of an existing pool under its new settings, or None if it may not have them now. */
    method EditPool(was: Pool, edited: Pool, ps: PoolState) returns (r: Option<PoolState>)
      ensures r.Some? <==>
                !ps.deleting && (SameScope(was, edited) || (!ps.running && PoolRuns(state.runs, ps.id) == {}))
      ensures r.Some? ==> r.value == if SameSettings(was, edited) then ps else ps.(generation := ps.generation + 1)
    {
      if ps.deleting || (!SameScope(was, edited) && (ps.running || PoolRuns(state.runs, ps.id) != {})) {
        return None;
      }
      r := Some(ps);
      if !SameSettings(was, edited) {
        r := Some(ps.(generation := ps.generation + 1));
      }
    }

    method ChangePool(next: Config, i: nat, was: Pool, collected: map<string, PoolState>, ghost ids: map<string,
        string>)
      returns (pools: Option<map<string, PoolState>>)
      requires i < |next.pools| && IsNext(next, i, next.pools[i].name) && next.pools[i].name in state.pools
      requires Find(state.config.pools, next.pools[i].name) == Some(was)
               && Collected(state, next, i, collected, ids, host.poolIds)
      ensures pools.Some? <==> Editable(state, next, next.pools[i].name)
      ensures pools.Some? ==> Collected(state, next, i + 1, pools.value, ids, host.poolIds)
    {
      var edited := next.pools[i];
      CollectedStill(state, next, i, edited.name, collected, ids, host.poolIds);
      EntryWhenEdited(state, next, ids, was, edited);
      var ps := EditPool(was, edited, collected[edited.name]);
      if ps.None? {
        return None;
      }
      pools := Some(collected[edited.name := ps.value]);
      assert ps.value == EntryAfter(state, next, ids, edited.name, true);
      CollectEdited(state, next, i, edited.name, collected, ids, host.poolIds, pools.value);
    }

    method ApplyPool(next: Config, i: nat, collected: map<string, PoolState>, named: map<string, string>)
      returns (ok: bool, pools: map<string, PoolState>, ids: map<string, string>)
      requires state.pools.Keys == Names(state.config.pools) && i < |next.pools| && IsNext(next, i, next.pools[i].name)
      requires Collected(state, next, i, collected, named, host.poolIds)
      ensures ok <==> Editable(state, next, next.pools[i].name)
      ensures ok ==> Collected(state, next, i + 1, pools, ids, host.poolIds)
    {
      var name := next.pools[i].name;
      var was := Find(state.config.pools, name);
      if was.Some? {
        var changed := ChangePool(next, i, was.value, collected, named);
        return changed.Some?, if changed.Some? then changed.value else collected, named;
      }
      var id := host.Uuid(host.poolIds + named.Values);
      CollectAdded(state, next, i, name, collected, named, host.poolIds, id);
      return true, collected[name := NewPool(id)], named[name := id];
    }

    method ReadApplied(text: Text, revision: nat) returns (next: Option<Config>)
      ensures next.Some? <==> state.revision == revision && host.file == Some(text) && text.Parsed().Some?
                              && ValidConfig(text.Parsed().value)
                                 && Names(state.config.pools) <= Names(text.Parsed().value.pools)
      ensures next.Some? ==> next == text.Parsed() && UniqueNames(next.value.pools)
    {
      if state.revision != revision || host.file != Some(text) || text.Parsed().None? {
        return None;
      }
      var valid := Validate(text.Parsed().value);
      if !valid || !(Names(state.config.pools) <= Names(text.Parsed().value.pools)) {
        return None;
      }
      return text.Parsed();
    }

    /** What Apply will commit, or None if it is refused. */
    method CollectApplied(text: Text, revision: nat)
      returns (next: Option<Config>, pools: map<string, PoolState>, ids: map<string, string>)
      requires state.pools.Keys == Names(state.config.pools)
      ensures next.None? ==> ids == map[] && Proposed(state, host.file, Apply(text, revision), ids) == None
      ensures next.Some? ==> host.file.Some? && FreshIds(state, Apply(text, revision), ids, host.poolIds)
      ensures next.Some? ==>
                Proposed(state, host.file, Apply(text, revision), ids) == Committed(state.(pools := pools), next.value)
    {
      pools, ids := map[], map[];
      next := ReadApplied(text, revision);
      if next.None? {
        return;
      }
      MayApplyWhen(state, next.value);
      var editable;
      editable, pools, ids := ApplyPools(next.value);
      if !editable || exists id :: id in state.runs && state.runs[id].pool.auth !in next.value.auth {
        return None, map[], map[];
      }
      CollectedIsApplied(state, next.value, pools, ids, host.poolIds);
    }

    method HandleApply(text: Text, revision: nat) returns (ok: bool, ids: map<string, string>)
      requires Recorded() && Sound(Now()) && approved.None?
      modifies this`state, this`history, this`approved, this`pass, store, host`file, host`poolIds
      ensures Handled(old(Now()), Apply(text, revision), ids, ok) && old(history) <= history
      ensures ok ==> store.row == Some(state) && Applies(old(state), state, text, revision)
    {
      ghost var before := Now();
      TablesOf(before);
      var next, pools;
      next, pools, ids := CollectApplied(text, revision);
      if next.None? {
        return false, ids;
      }
      ok := CommitApplied(next.value, pools, ids, Apply(text, revision));
      KeepPromise(before, Apply(text, revision), ids, ok);
    }

    method CommitApplied(next: Config, pools: map<string, PoolState>, ids: map<string, string>, ghost req: Request)
      returns (ok: bool)
      requires Recorded() && Sound(Now()) && approved.None? && req.Apply? && host.file.Some?
      requires Proposed(state, host.file, req, ids) == Committed(state.(pools := pools), next)
      requires ValidConfig(next) ==> FreshIds(state, req, ids, host.poolIds)
      modifies this`state, this`history, this`approved, this`pass, store, host`file, host`poolIds
      ensures Handled(old(Now()), req, ids, ok) && old(history) <= history
    {
      ghost var before := Now();
      state := state.(pools := pools);
      ok := CommitRequest(next, ids, req, before);
      if ok {
        FinishApply(req, before, ids);
      }
    }

    method FinishApply(ghost req: Request, ghost before: Sys, ghost ids: map<string, string>)
      requires IsCommitted(before, req, ids) && req.Apply?
      modifies this`state, this`history, this`pass, store
      ensures Handled(before, req, ids, true) && old(history) <= history
    {
      ghost var committed := Now();
      ApplyIsMarking(committed.mem, req);
      MarkEveryPool(committed);
      SaveFinish(req, committed);
      FinishedIsServed(before, req, ids, committed, Settled(true));
    }

    method MarkEveryPool(ghost s: Sys)
      requires Sound(s) && s.mem == state
      modifies this`state
      ensures state == MarkAll(old(state), SortedNames(old(state)))
    {
      TablesOf(s);
      ghost var st := state;
      var names := SortedNames(state);
      assert names[..0] == [];
      for i := 0 to |names|
        invariant state == MarkAll(st, names[..i])
      {
        MarkAllStep(st, names, i);
        MarkRuns(names[i]);
      }
      assert names[..|names|] == names;
    }

    /* ---- handle_local ---- */

    method HandleInner(req: Request) returns (ok: bool, ids: map<string, string>)
      requires Recorded() && Sound(Now()) && approved.None? && !req.Status?
      modifies this`state, this`history, this`approved, this`pass, store, host`file, host`poolIds
      ensures Handled(old(Now()), req, ids, ok) && old(history) <= history
    {
      ids := map[];
      match req
      case Status(_) =>
      case Add(p) => ok, ids := HandleAdd(p);
      case Start(target, all) => ok := HandleStart(target, all);
      case Stop(target, all, force) => ok := HandleStop(target, all, force);
      case Scale(name, replicas) => ok := HandleScale(name, replicas);
      case Upgrade(name, image) => ok := HandleUpgrade(name, image);
      case Remove(name, force) => ok := HandleRemove(name, force);
      case SetAuth(profile, auth) => ok := HandleAuth(profile, auth);
      case Apply(text, revision) => ok, ids := HandleApply(text, revision);
      case Logs(_, _) => ok := false;
      case Doctor => ok := false;
    }

    /** `handle_local`: serves one request, rolls memory back to the store when it is refused, and
        moves the epoch on for everything but a Status. */
    method HandleLocal(req: Request) returns (ok: bool, ids: map<string, string>)
      requires Valid()
      modifies this`state, this`history, this`approved, this`pass, this`epoch, store, host`file, host`poolIds
      ensures Valid() && old(history) <= history
      ensures Served(old(Now()), req, ids, ok, Now())
      ensures epoch == old(epoch) + if req.Mutating() then 1 else 0
      ensures ok && req.Mutating() ==>
                && Grantable(old(state), old(host.file), req)
                && Promised(old(state), state, req) && store.row == Some(state)
      ensures host.quiet && req.Mutating() ==> (ok <==> Grantable(old(state), old(host.file), req))
    {
      ghost var before := Now();
      ids := map[];
      if req.Status? {
        ok := req.pool.None? || req.pool.value in state.pools;
      } else {
        ok, ids := HandleInner(req);
      }
      if !ok {
        Rollback(req.Mutating());
      }
      if req.Mutating() {
        epoch := epoch + 1;
        ServedInFull(before, req, ids, ok, Now(), host.quiet);
      }
    }

    method Rollback(mutating: bool)
      requires Recorded0() && Sound(Last(history))
      modifies this`state, this`history, this`approved, this`pass
      ensures Recorded() && Sound(Now()) && old(history) <= history
      ensures Now() == old(Now()).(mem := store.row.value, approved := None, pass := if mutating
        then Interrupt(old(pass)) else old(pass))
    {
      ghost var before := Last(history);
      var row := store.Load();
      state := row.value;
      approved := None;
      pass := if mutating then Interrupt(pass) else pass;
      Allow(before, Reject(mutating), Now());
      Log(Reject(mutating), before);
    }

    /* ---- External calls ---- */

    /** While a call is under way anything may happen outside, and any number of requests is served. */
    method ServeRequests()
      requires Valid() && pass.Some?
      modifies this`state, this`history, this`approved, this`pass, this`epoch, store, host`world, host`file,
               host`poolIds
      ensures Valid() && old(history) <= history && Waited(old(Now()), Now(), {})
      ensures host.quiet ==> Now() == old(Now()) && epoch == old(epoch)
    {
      ghost var first := Now();
      WaitedNothing(first);
      var n := host.Events();
      for i := 0 to n
        invariant Valid() && old(history) <= history && Waited(first, Now(), {})
        invariant host.quiet ==> n == 0 && Now() == first && epoch == old(epoch)
      {
        ghost var before := Now();
        var arrives := host.Coin();
        if arrives {
          var req := host.ArrivingRequest();
          ghost var ids;
          var ok;
          ok, ids := HandleLocal(req);
          ServedWaited(before, req, ids, ok, Now());
        } else {
          MoveOutside();
        }
        WaitedAgain(first, before, Now());
      }
    }

    method MoveOutside()
      requires Valid() && pass.Some?
      modifies this`history, host`world, host`file
      ensures Valid() && old(history) <= history && Waited(old(Now()), Now(), {})
    {
      ghost var before := Now();
      MayStayAsItIs(before);
      host.Move();
      DriftWaited(before, Now());
      Allow(before, Environment, Now());
      Log(Environment, before);
    }

    /** What a call that came back with success leaves behind. */
    ghost predicate Answered(was: Calls, effect: Effect, answer: Answer)
      reads this
    {
      && effect in calls.answered
      && (effect.ListContainers? && answer.Containers? && was.strays.None? ==>
          calls.strays == Some(Unrecorded(answer.listing, state.runs)))
    }

    /** A call from its beginning to its return, with requests served all along. */
    method CarryOut(effect: Effect) returns (answer: Option<Answer>)
      requires Valid() && pass.Some? && inflight.None? && MayIssue(Now(), effect)
      modifies this`state, this`history, this`approved, this`pass, this`inflight, this`calls, this`epoch, store,
               host`world, host`file, host`poolIds
      ensures Valid() && old(history) <= history && Waited(old(Now()), Now(), Touched(effect))
      ensures answer.Some? ==>
                Delivers(old(Now()), effect, answer.value, Now()) && Answered(old(calls), effect, answer.value)
      ensures host.quiet ==>
                && Now() == old(Now()).(world := host.world, calls := calls)
                && (host.world == old(host.world) || Takes(effect, old(host.world)) == Some(host.world))
                && (Takes(effect, old(host.world)).Some? ==>
                    answer.Some? && Takes(effect, old(host.world)) == Some(host.world)
                        && Reports(effect, host.world, state.managerId, answer.value))
    {
      ghost var first := Now();
      BeginCall(effect);
      ServeRequests();
      ghost var waited := Now();
      answer := Perform(effect);
      ghost var performed := Now();
      ServeRequests();
      ghost var served := Now();
      EndCall(effect, answer.Some?);
      CallWaited(first, waited, performed, served, effect, answer.Some?);
      if answer.Some? {
        CallDelivers(first, waited, performed, served, effect, answer.value);
        if effect.ListContainers? && first.calls.strays.None? {
          StraysDelivered(first, waited, performed, served, answer.value.listing);
        }
      }
    }

    ghost method BeginCall(effect: Effect)
      requires Valid() && pass.Some? && inflight.None? && MayIssue(Now(), effect)
      modifies this`history, this`inflight, this`calls
      ensures Valid() && old(history) <= history && Now() == Issued(old(Now()), effect)
    {
      ghost var first := Now();
      inflight, calls := Some(effect), calls.(happened := false);
      Allow(first, Issue(effect), Now());
      Log(Issue(effect), first);
    }

    ghost method EndCall(effect: Effect, ok: bool)
      requires Valid() && inflight == Some(effect) && (ok ==> calls.happened)
      modifies this`history, this`inflight, this`calls
      ensures Valid() && old(history) <= history && Now() == CallEnded(old(Now()), ok)
    {
      ghost var served := Now();
      calls := Returned(served, ok);
      inflight := None;
      Allow(served, Return(ok), Now());
      Log(Return(ok), served);
    }

    /** `external`: nothing is begun once the pass is interrupted, and a result that comes back to an
        interrupted pass is thrown away. */
    method External(effect: Effect) returns (r: Result<Answer>)
      requires Valid() && pass.Some? && inflight.None?
      requires !pass.value.interrupted ==> MayIssue(Now(), effect)
      modifies this`state, this`history, this`approved, this`pass, this`inflight, this`calls, this`epoch, store,
               host`world, host`file, host`poolIds
      ensures Valid() && old(history) <= history && Waited(old(Now()), Now(), Touched(effect))
      ensures (r == Err(Interrupted)) <==> pass.value.interrupted
      ensures r.Ok? ==> Delivers(old(Now()), effect, r.value, Now()) && Answered(old(calls), effect, r.value)
      ensures old(pass.value.interrupted) ==> Now() == old(Now())
      ensures host.quiet && !old(pass.value.interrupted) ==>
                && Now() == old(Now()).(world := host.world, calls := calls)
                && (host.world == old(host.world) || Takes(effect, old(host.world)) == Some(host.world))
                && (Takes(effect, old(host.world)).Some? ==>
                    r.Ok? && Takes(effect, old(host.world)) == Some(host.world)
                        && Reports(effect, host.world, state.managerId, r.value))
    {
      if reconcileEpoch.value != epoch {
        CalmSubset(Now(), Touched(effect));
        return Err(Interrupted);
      }
      var answer := CarryOut(effect);
      if reconcileEpoch.value != epoch {
        return Err(Interrupted);
      }
      r := if answer.Some? then Ok(answer.value) else Err(Failed);
    }

    /** The moment at which the call takes effect, if it does. */
    method Perform(effect: Effect) returns (answer: Option<Answer>)
      requires Valid() && inflight == Some(effect) && pass.Some?
      modifies this`history, this`calls, host`world
      ensures Valid() && old(history) <= history
      ensures Now() == old(Now()).(world := host.world, calls := calls)
      ensures host.world == old(host.world) || Takes(effect, old(host.world)) == Some(host.world)
      ensures calls.answered == old(calls).answered && calls.strays == old(calls).strays
      ensures answer.Some? ==>
                Takes(effect, old(host.world)) == Some(host.world)
                && Reports(effect, host.world, state.managerId, answer.value)
      ensures answer.Some? ==> calls.happened && calls.taken == |StraysOf(old(Now()))|
      ensures host.quiet && Takes(effect, old(host.world)).Some? ==> answer.Some?
    {
      ghost var before := Now();
      NamesAreKeys(before);
      var happened;
      happened, answer := host.Perform(effect, state.managerId);
      if happened {
        calls := calls.(happened := true, taken := |StraysOf(before)|);
        Allow(before, Happen, Now());
        Log(Happen, before);
      }
    }

    /* ---- One run of a pass ---- */

    ghost predicate Ready()
      reads this, store, host
    {
      Valid() && inflight.None? && pass.Some? && !pass.value.closed
    }

    /** `run` is a copy of the record of a run of the pass's pool. */
    ghost predicate Holds(run: Run)
      requires pass.Some?
      reads this
    {
      run.id in state.runs && Noted(run, state.runs[run.id]) && run.poolId == pass.value.state.id
    }

    /** Memory only: the store learns of an observed phase with the next save. */
    method ObserveRun(run: Run)
      requires Ready() && Holds(run) && run == state.runs[run.id].(phase := run.phase, remoteId := run.remoteId)
      modifies this`state, this`history
      ensures Ready() && old(history) <= history && Holds(run)
      ensures Now() == old(Now()).(mem := WithRun(old(state), run)) && Reached(old(Now()), Now(), {run.id})
      ensures QuietKept(old(Now()), Now(), {run.id})
    {
      ghost var before := Now();
      state := state.(runs := state.runs[run.id := run]);
      NoteReached(before, Now(), run);
      Allow(before, Observe(run.id, run.phase, run.remoteId), Now());
      Log(Observe(run.id, run.phase, run.remoteId), before);
    }

    method SaveRun(run: Run)
      requires Ready() && Holds(run)
      modifies this`state, this`history, store
      ensures Ready() && old(history) <= history && Holds(run)
      ensures Now() == old(Now()).(mem := WithRun(old(state), run), disk := WithRun(old(state), run))
      ensures Reached(old(Now()), Now(), {run.id}) && QuietKept(old(Now()), Now(), {run.id})
    {
      ghost var before := Now();
      state := state.(runs := state.runs[run.id := run]);
      Save();
      NoteReached(before, Now(), run);
      Allow(before, Note(run), Now());
      Log(Note(run), before);
    }

    /** The record says that the logs are safe: only after they were taken in this pass. */
    method SaveLogged(run: Run)
      requires Ready() && Holds(run) && LogsTaken(Now(), run.id)
      modifies this`state, this`history, store
      ensures Ready() && old(history) <= history && Holds(run.(logSaved := true))
      ensures Now() == old(Now()).(mem := WithRun(old(state), run.(logSaved := true)),
          disk := WithRun(old(state), run.(logSaved := true)))
      ensures Reached(old(Now()), Now(), {run.id}) && QuietKept(old(Now()), Now(), {run.id})
    {
      ghost var before := Now();
      var saved := run.(logSaved := true);
      state := state.(runs := state.runs[run.id := saved]);
      Save();
      NoteReached(before, Now(), saved);
      Allow(before, Note(saved), Now());
      Log(Note(saved), before);
    }

    /** An external call made for one run; the copy of its record stays good if the pass was not interrupted. */
    method CallFor(run: Run, effect: Effect) returns (r: Result<Answer>)
      requires Ready() && Holds(run) && Aim(effect) <= {run.id}
      requires !pass.value.interrupted ==> MayIssue(Now(), effect)
      modifies this`state, this`history, this`approved, this`pass, this`inflight, this`calls, this`epoch, store,
               host`world, host`file, host`poolIds
      ensures Ready() && old(history) <= history && Reached(old(Now()), Now(), {run.id})
      ensures Waited(old(Now()), Now(), Touched(effect))
      ensures (r == Err(Interrupted)) <==> pass.value.interrupted
      ensures !pass.value.interrupted ==> Holds(run)
      ensures r.Ok? ==> Delivers(old(Now()), effect, r.value, Now()) && effect in calls.answered
      ensures old(pass.value.interrupted) ==> Now() == old(Now())
      ensures Touched(effect) == {} ==> Subsided(old(host.world), host.world, run.id)
      ensures host.quiet && !old(pass.value.interrupted) ==>
                && Now() == old(Now()).(world := host.world, calls := calls) && QuietKept(old(Now()), Now(), {run.id})
                && (Takes(effect, old(host.world)).Some? ==>
                    r.Ok? && Takes(effect, old(host.world)) == Some(host.world)
                        && Reports(effect, host.world, state.managerId, r.value))
    {
      ghost var before := Now();
      RunIsIssued(before, run.id);
      r := External(effect);
      CallReached(before, Now(), Touched(effect), {run.id});
      if Touched(effect) == {} {
        NotTouched(before, Now(), run.id);
      }
      if !pass.value.interrupted {
        CopySurvivesCall(before, Now(), Touched(effect), run);
      }
      if host.quiet && !before.pass.value.interrupted {
        QuietEffect(before, Now(), effect, {run.id});
      }
    }

    /** A registration token, written where the container will find it. */
    method FreshToken(run: Run) returns (turn: Turn)
      requires Ready() && Holds(run) && !run.retiring && pass.value.marked && pass.value.MayReplenish()
      modifies this`state, this`history, this`approved, this`pass, this`inflight, this`calls, this`epoch, store,
               host`world, host`file, host`poolIds
      ensures Ready() && old(history) <= history && Reached(old(Now()), Now(), {run.id})
      ensures turn.Onward? || turn.GiveUp?
      ensures turn.Onward? ==> !pass.value.interrupted && Holds(run) && RegistrationToken(run.id) in calls.answered
      ensures host.world.dirs == old(host.world.dirs)
      ensures Subsided(old(host.world), host.world, run.id)
      ensures host.quiet && !old(pass.value.interrupted) ==>
                turn.Onward? && Now() == old(Now()).(calls := calls)
    {
      var token := CallFor(run, RegistrationToken(run.id));
      if token.Err? {
        return GiveUp(token.error);
      }
      var written := host.FileOperation();
      turn := if written then Onward else GiveUp(Failed);
    }

    /** `docker start`. */
    method StartContainerOf(run: Run) returns (started: Result<bool>)
      requires Ready() && Holds(run) && !run.retiring && pass.value.marked && pass.value.MayReplenish()
      requires !pass.value.interrupted ==> RegistrationToken(run.id) in calls.answered
      requires !EverStarted(host.world, run.id)
      modifies this`state, this`history, this`approved, this`pass, this`inflight, this`calls, this`epoch, store,
               host`world, host`file, host`poolIds
      ensures Ready() && old(history) <= history && Reached(old(Now()), Now(), {run.id})
      ensures started.Ok? ==> !pass.value.interrupted && Holds(run) && StartedBy(calls, run.id)
      ensures host.quiet && !old(pass.value.interrupted) && Mine(old(host.world), run.id) ==>
                started.Ok? && QuietKept(old(Now()), Now(), {run.id}) && LiveMine(host.world, run.id)
    {
      var at := host.Clock();
      var answer := CallFor(run, StartContainer(run.id, at));
      started := if answer.Ok? then Ok(true) else Err(answer.error);
    }

    /** Once the container is started the record says so. */
    method StartAndRecord(run: Run) returns (turn: Turn)
      requires Ready() && Holds(run) && !run.retiring && pass.value.marked && pass.value.MayReplenish()
      requires !pass.value.interrupted ==> RegistrationToken(run.id) in calls.answered
      requires !EverStarted(host.world, run.id)
      modifies this`state, this`history, this`approved, this`pass, this`inflight, this`calls, this`epoch, store,
               host`world, host`file, host`poolIds
      ensures Ready() && old(history) <= history && Reached(old(Now()), Now(), {run.id})
      ensures turn.Onward? || turn.GiveUp?
      ensures turn.Onward? ==>
                !pass.value.interrupted && run.id in state.runs && state.runs[run.id] == run.(phase := Starting)
      ensures turn.Onward? ==> StartedBy(calls, run.id)
      ensures host.quiet && !old(pass.value.interrupted) && Mine(old(host.world), run.id) ==>
                turn.Onward? && QuietKept(old(Now()), Now(), {run.id}) && LiveMine(host.world, run.id)
    {
      ghost var s0 := Now();
      var started := StartContainerOf(run);
      ghost var s1 := Now();
      if started.Err? {
        return GiveUp(started.error);
      }
      SaveRun(run.(phase := Starting));
      ReachedAgain(s0, s1, Now(), {run.id});
      if host.quiet && !s0.pass.value.interrupted && Mine(s0.world, run.id) {
        QuietAgain(s0, s1, Now(), {run.id});
      }
      turn := Onward;
    }

    /** A container left in state "created" is started with a fresh token. */
    method StartCreated(run: Run) returns (turn: Turn)
      requires Ready() && Holds(run) && !run.retiring && pass.value.marked && pass.value.MayReplenish()
      requires !EverStarted(host.world, run.id)
      modifies this`state, this`history, this`approved, this`pass, this`inflight, this`calls, this`epoch, store,
               host`world, host`file, host`poolIds
      ensures Ready() && old(history) <= history && Reached(old(Now()), Now(), {run.id})
      ensures turn.Onward? || turn.GiveUp?
      ensures turn.Onward? ==>
                !pass.value.interrupted && run.id in state.runs && state.runs[run.id] == run.(phase := Starting)
      ensures turn.Onward? ==> StartedBy(calls, run.id)
      ensures host.quiet && !old(pass.value.interrupted) && Mine(old(host.world), run.id) ==>
                turn.Onward? && QuietKept(old(Now()), Now(), {run.id}) && LiveMine(host.world, run.id)
    {
      ghost var s0 := Now();
      turn := FreshToken(run);
      ghost var s1 := Now();
      if turn.Onward? {
        turn := StartAndRecord(run);
        ReachedAgain(s0, s1, Now(), {run.id});
      }
    }

    method PrepareDirectory(run: Run) returns (ok: bool)
      requires Ready() && Holds(run) && !pass.value.interrupted && !run.retiring && pass.value.marked
               && pass.value.MayReplenish()
      modifies this`history, host`world
      ensures Ready() && old(history) <= history && Reached(old(Now()), Now(), {run.id}) && Holds(run)
      ensures Now() == old(Now()).(world := old(host.world).(dirs := host.world.dirs))
              && QuietKept(old(Now()), Now(), {run.id})
      ensures (ok ==> run.id in host.world.dirs) && (host.quiet ==> ok)
    {
      ghost var before := Now();
      ok := host.MakeDir(run.id);
      if host.world.dirs != before.world.dirs {
        Allow(before, MakeDir(run.id), Now());
        Log(MakeDir(run.id), before);
      }
      assert host.world == before.world.(dirs := host.world.dirs);
      DirsReached(before, Now(), run.id);
    }

    method CheckAndPrepare(run: Run) returns (turn: Turn)
      requires Ready() && Holds(run) && !run.retiring && pass.value.marked && pass.value.MayReplenish()
      modifies this`state, this`history, this`approved, this`pass, this`inflight, this`calls, this`epoch, store,
               host`world, host`file, host`poolIds
      ensures Ready() && old(history) <= history && Reached(old(Now()), Now(), {run.id})
      ensures turn.Onward? || turn.GiveUp?
      ensures turn.Onward? ==> !pass.value.interrupted && Holds(run)
      ensures turn.Onward? ==> CheckImage(run.pool.image) in calls.answered && run.id in host.world.dirs
      ensures host.quiet && !old(pass.value.interrupted) ==>
                turn.Onward? && QuietKept(old(Now()), Now(), {run.id})
                    && host.world.containers == old(host.world.containers)
    {
      ghost var s0 := Now();
      var image := CallFor(run, CheckImage(run.pool.image));
      ghost var s1 := Now();
      if image.Err? {
        return GiveUp(image.error);
      }
      var prepared := PrepareDirectory(run);
      ReachedAgain(s0, s1, Now(), {run.id});
      turn := if prepared then Onward else GiveUp(Failed);
    }

    /** A recorded run without a container: the deterministic name makes a repeated create harmless. */
    method Provision(run: Run) returns (turn: Turn)
      requires Ready() && Holds(run) && !run.retiring && pass.value.marked && pass.value.MayReplenish()
      modifies this`state, this`history, this`approved, this`pass, this`inflight, this`calls, this`epoch, store,
               host`world, host`file, host`poolIds
      ensures Ready() && old(history) <= history && Reached(old(Now()), Now(), {run.id})
      ensures turn.Onward? || turn.GiveUp?
      ensures turn.Onward? ==>
                !pass.value.interrupted && run.id in state.runs && state.runs[run.id] == run.(phase := Starting)
      ensures turn.Onward? ==> StartedBy(calls, run.id) && CreatedBy(calls, state.managerId, run)
      ensures host.quiet && !old(pass.value.interrupted) && run.id !in old(host.world).containers ==>
                turn.Onward? && QuietKept(old(Now()), Now(), {run.id}) && LiveMine(host.world, run.id)
    {
      ghost var s0 := Now();
      turn := CheckAndPrepare(run);
      ghost var s1 := Now();
      if turn.Onward? {
        turn := FreshToken(run);
        ReachedAgain(s0, s1, Now(), {run.id});
      }
      ghost var s2 := Now();
      if turn.Onward? {
        turn := CreateAndStart(run);
        ReachedAgain(s0, s2, Now(), {run.id});
      }
    }

    method Create(run: Run) returns (created: Result<bool>)
      requires Ready() && Holds(run) && !run.retiring && pass.value.marked && pass.value.MayReplenish()
      requires !pass.value.interrupted ==> RegistrationToken(run.id) in calls.answered
      requires CheckImage(run.pool.image) in calls.answered && run.id in host.world.dirs
      modifies this`state, this`history, this`approved, this`pass, this`inflight, this`calls, this`epoch, store,
               host`world, host`file, host`poolIds
      ensures Ready() && old(history) <= history && Reached(old(Now()), Now(), {run.id})
      ensures created.Ok? ==>
                && Holds(run) && CreatedBy(calls, state.managerId, run) && RegistrationToken(run.id) in calls.answered
                && !EverStarted(host.world, run.id)
      ensures host.quiet && !old(pass.value.interrupted) && run.id !in old(host.world).containers ==>
                created.Ok? && QuietKept(old(Now()), Now(), {run.id}) && Mine(host.world, run.id)
    {
      RunIsIssued(Now(), run.id);
      var answer := CallFor(run, CreateContainer(ContainerFor(state.managerId, run)));
      created := if answer.Ok? then Ok(true) else Err(answer.error);
    }

    method CreateAndStart(run: Run) returns (turn: Turn)
      requires Ready() && Holds(run) && !run.retiring && pass.value.marked && pass.value.MayReplenish()
      requires !pass.value.interrupted ==> RegistrationToken(run.id) in calls.answered
      requires CheckImage(run.pool.image) in calls.answered && run.id in host.world.dirs
      modifies this`state, this`history, this`approved, this`pass, this`inflight, this`calls, this`epoch, store,
               host`world, host`file, host`poolIds
      ensures Ready() && old(history) <= history && Reached(old(Now()), Now(), {run.id})
      ensures turn.Onward? || turn.GiveUp?
      ensures turn.Onward? ==>
                !pass.value.interrupted && run.id in state.runs && state.runs[run.id] == run.(phase := Starting)
      ensures turn.Onward? ==> StartedBy(calls, run.id) && CreatedBy(calls, state.managerId, run)
      ensures host.quiet && !old(pass.value.interrupted) && run.id !in old(host.world).containers ==>
                turn.Onward? && QuietKept(old(Now()), Now(), {run.id}) && LiveMine(host.world, run.id)
    {
      ghost var s0 := Now();
      var created := Create(run);
      ghost var s1 := Now();
      if created.Err? {
        return GiveUp(created.error);
      }
      turn := StartAndRecord(run);
      ReachedAgain(s0, s1, Now(), {run.id});
      if host.quiet && !s0.pass.value.interrupted && run.id !in s0.world.containers {
        QuietAgain(s0, s1, Now(), {run.id});
      }
    }

    /** The container's output and, if it ever ran, its diagnostic files. */
    method SaveLogs(run: Run, container: Container) returns (r: Result<bool>)
      requires Ready() && Holds(run) && (container.startedAt.None? ==> !EverStarted(host.world, run.id))
      modifies this`state, this`history, this`approved, this`pass, this`inflight, this`calls, this`epoch, store,
               host`world, host`file, host`poolIds
      ensures Ready() && old(history) <= history && Reached(old(Now()), Now(), {run.id})
      ensures r.Ok? ==> !pass.value.interrupted && LogsTaken(Now(), run.id)
      ensures old(pass.value.interrupted) ==> pass.value.interrupted && host.world == old(host.world)
      ensures !pass.value.interrupted ==> Holds(run)
      ensures Subsided(old(host.world), host.world, run.id)
      ensures host.quiet && !old(pass.value.interrupted) ==>
                r.Ok? && QuietKept(old(Now()), Now(), {run.id}) && host.world == old(host.world)
    {
      ghost var s0 := Now();
      var logs := CallFor(run, ReadLogs(run.id));
      ghost var s1 := Now();
      if logs.Err? {
        return Err(logs.error);
      }
      var written := host.FileOperation();
      if !written {
        return Err(Failed);
      }
      r := SaveDiagnostics(run, container);
      ReachedAgain(s0, s1, Now(), {run.id});
      if host.quiet && !s0.pass.value.interrupted {
        QuietAgain(s0, s1, Now(), {run.id});
      }
    }

    method SaveDiagnostics(run: Run, container: Container) returns (r: Result<bool>)
      requires Ready() && Holds(run) && (container.startedAt.None? ==> !EverStarted(host.world, run.id))
      requires ReadLogs(run.id) in calls.answered && !pass.value.interrupted
      modifies this`state, this`history, this`approved, this`pass, this`inflight, this`calls, this`epoch, store,
               host`world, host`file, host`poolIds
      ensures Ready() && old(history) <= history && Reached(old(Now()), Now(), {run.id})
      ensures r.Ok? ==> !pass.value.interrupted && LogsTaken(Now(), run.id)
      ensures !pass.value.interrupted ==> Holds(run)
      ensures Subsided(old(host.world), host.world, run.id)
      ensures host.quiet ==>
                r.Ok? && QuietKept(old(Now()), Now(), {run.id}) && host.world == old(host.world)
    {
      ReachedItself(Now());
      r := Ok(true);
      if container.startedAt.Some? {
        var diagnostics := CallFor(run, ArchiveDiagnostics(run.id));
        if diagnostics.Err? {
          r := Err(diagnostics.error);
        }
      }
    }

    /** Logs first: an archive failure delays the removal of the container. */
    method Archive(run: Run, container: Container) returns (r: Result<Run>)
      requires Ready() && Holds(run) && (container.startedAt.None? ==> !EverStarted(host.world, run.id))
      modifies this`state, this`history, this`approved, this`pass, this`inflight, this`calls, this`epoch, store,
               host`world, host`file, host`poolIds
      ensures Ready() && old(history) <= history && Reached(old(Now()), Now(), {run.id})
      ensures r.Ok? ==> r.value == run.(logSaved := true)
      ensures old(pass.value.interrupted) ==> pass.value.interrupted && host.world == old(host.world)
      ensures r.Ok? ==> Holds(r.value)
      ensures Subsided(old(host.world), host.world, run.id)
      ensures host.quiet && !old(pass.value.interrupted) ==>
                r.Ok? && QuietKept(old(Now()), Now(), {run.id}) && host.world == old(host.world)
    {
      if run.logSaved {
        ReachedItself(Now());
        return Ok(run);
      }
      ghost var s0 := Now();
      var saved := SaveLogs(run, container);
      if saved.Err? {
        return Err(saved.error);
      }
      ghost var s1 := Now();
      SaveLogged(run);
      ReachedAgain(s0, s1, Now(), {run.id});
      r := Ok(run.(logSaved := true));
    }

    /** An exit is not held against the image if the Docker host itself was restarted since. The boot time is read
        again unless the one known already explains the exit; `told` is the answer, if one came. */
    method StoppedByReboot(run: Run, container: Container) returns (r: Result<bool>, ghost told: Option<nat>)
      requires Ready() && Holds(run)
      modifies this`state, this`history, this`approved, this`pass, this`inflight, this`calls, this`epoch,
               this`bootTime, store, host`world, host`file, host`poolIds
      ensures Ready() && old(history) <= history && Reached(old(Now()), Now(), {run.id})
      ensures r.Ok? ==> Holds(run) && r.value == StartedBeforeBoot(container, bootTime)
      ensures r.Err? ==> pass.value.interrupted
      ensures bootTime == (if told.Some? then told else old(bootTime))
      ensures told.Some? ==> ReadBootTime(run.pool.image) in calls.answered
      ensures container.startedAt.None? || StartedBeforeBoot(container, old(bootTime)) ==>
                Now() == old(Now()) && told.None?
      ensures host.quiet && !old(pass.value.interrupted) ==> told.Some? == AsksForBoot(container, old(bootTime))
      ensures Subsided(old(host.world), host.world, run.id)
      ensures host.quiet && !old(pass.value.interrupted) ==>
                r.Ok? && QuietKept(old(Now()), Now(), {run.id}) && host.world == old(host.world)
    {
      told := None;
      ReachedItself(Now());
      if container.startedAt.Some? && !StartedBeforeBoot(container, bootTime) {
        var boot := CallFor(run, ReadBootTime(run.pool.image));
        if boot.Ok? {
          bootTime := Some(boot.value.time);
          told := bootTime;
        } else if boot.error.Interrupted? {
          return Err(Interrupted), None;
        }
      }
      r := Ok(StartedBeforeBoot(container, bootTime));
    }

    /** Only an exit that nobody asked for and that did no job needs an explanation. */
    method ExplainedByReboot(run: Run, container: Container) returns (r: Result<bool>)
      requires Ready() && Holds(run)
      modifies this`state, this`history, this`approved, this`pass, this`inflight, this`calls, this`epoch,
               this`bootTime, store, host`world, host`file, host`poolIds
      ensures Ready() && old(history) <= history && Reached(old(Now()), Now(), {run.id})
      ensures r.Ok? ==> Holds(run) && r.value == (UnexpectedExit(run) && StartedBeforeBoot(container, bootTime))
      ensures r.Err? ==> pass.value.interrupted
      ensures Subsided(old(host.world), host.world, run.id)
      ensures host.quiet && !old(pass.value.interrupted) ==>
                r.Ok? && QuietKept(old(Now()), Now(), {run.id}) && host.world == old(host.world)
    {
      ReachedItself(Now());
      r := Ok(false);
      if UnexpectedExit(run) {
        ghost var told;
        r, told := StoppedByReboot(run, container);
      }
    }

    method RecordAndArchive(run: Run, container: Container) returns (r: Result<Run>)
      requires Ready() && Holds(run) && (container.startedAt.None? ==> !EverStarted(host.world, run.id))
      modifies this`state, this`history, this`approved, this`pass, this`inflight, this`calls, this`epoch, store,
               host`world, host`file, host`poolIds
      ensures Ready() && old(history) <= history && Reached(old(Now()), Now(), {run.id})
      ensures r.Ok? ==> Holds(r.value) && r.value == run.(phase := Cleanup, logSaved := true)
      ensures Subsided(old(host.world), host.world, run.id)
      ensures host.quiet && !old(pass.value.interrupted) ==>
                r.Ok? && QuietKept(old(Now()), Now(), {run.id}) && host.world == old(host.world)
    {
      ghost var s0 := Now();
      var cleaning := run.(phase := Cleanup);
      SaveRun(cleaning);
      ghost var s1 := Now();
      r := Archive(cleaning, container);
      ReachedAgain(s0, s1, Now(), {run.id});
    }

    /** The container is not running: save what happened, then remove it without force. */
    method CleanUp(run: Run, container: Container) returns (turn: Turn, cleaned: Run, rebooted: bool)
      requires Ready() && Holds(run) && !LiveMine(host.world, run.id)
      requires container.startedAt.None? ==> !EverStarted(host.world, run.id)
      modifies this`state, this`history, this`approved, this`pass, this`inflight, this`calls, this`epoch,
               this`bootTime, store, host`world, host`file, host`poolIds
      ensures Ready() && old(history) <= history && Reached(old(Now()), Now(), {run.id})
      ensures turn.Onward? ==> !pass.value.interrupted && Holds(cleaned) && !Mine(host.world, run.id)
      ensures turn.Onward? ==>
                cleaned == run.(completedJob := run.id in old(host.world).completed, phase := Cleanup, logSaved := true)
      ensures turn.Onward? ==> rebooted == (UnexpectedExit(cleaned) && StartedBeforeBoot(container, bootTime))
      ensures host.quiet && !old(pass.value.interrupted) && Mine(old(host.world), run.id) ==>
                turn.Onward? && QuietKept(old(Now()), Now(), {run.id})
    {
      turn, cleaned, rebooted := ExplainAndRemove(run.(completedJob := run.id in host.world.completed), container);
    }

    method ExplainAndRemove(run: Run, container: Container) returns (turn: Turn, cleaned: Run, rebooted: bool)
      requires Ready() && Holds(run) && !LiveMine(host.world, run.id)
      requires container.startedAt.None? ==> !EverStarted(host.world, run.id)
      modifies this`state, this`history, this`approved, this`pass, this`inflight, this`calls, this`epoch,
               this`bootTime, store, host`world, host`file, host`poolIds
      ensures Ready() && old(history) <= history && Reached(old(Now()), Now(), {run.id})
      ensures turn.Onward? ==> !pass.value.interrupted && Holds(cleaned) && !Mine(host.world, run.id)
      ensures turn.Onward? ==> cleaned == run.(phase := Cleanup, logSaved := true)
      ensures turn.Onward? ==> rebooted == (UnexpectedExit(run) && StartedBeforeBoot(container, bootTime))
      ensures host.quiet && !old(pass.value.interrupted) && Mine(old(host.world), run.id) ==>
                turn.Onward? && QuietKept(old(Now()), Now(), {run.id})
    {
      ghost var s0 := Now();
      var stopped := ExplainedByReboot(run, container);
      if stopped.Err? {
        return GiveUp(stopped.error), run, false;
      }
      rebooted := stopped.value;
      ghost var s1 := Now();
      var removed := ArchiveAndRemove(run, container, false);
      ReachedAgain(s0, s1, Now(), {run.id});
      if host.quiet && !s0.pass.value.interrupted && Mine(s0.world, run.id) {
        QuietAgain(s0, s1, Now(), {run.id});
      }
      if removed.Err? {
        return Postpone(removed.error), run, rebooted;
      }
      turn, cleaned := Onward, removed.value;
    }

    /** `docker rm`, with --force only for a forced run. */
    method RemoveContainerOf(run: Run, force: bool) returns (r: Result<bool>)
      requires Ready() && Holds(run) && run.logSaved && (if force then run.force else !LiveMine(host.world, run.id))
      modifies this`state, this`history, this`approved, this`pass, this`inflight, this`calls, this`epoch, store,
               host`world, host`file, host`poolIds
      ensures Ready() && old(history) <= history && Reached(old(Now()), Now(), {run.id})
      ensures r.Ok? ==> !pass.value.interrupted && Holds(run) && !Mine(host.world, run.id)
      ensures host.quiet && !old(pass.value.interrupted) && Mine(old(host.world), run.id) ==>
                r.Ok? && QuietKept(old(Now()), Now(), {run.id})
    {
      RunIsIssued(Now(), run.id);
      var removed := CallFor(run, RemoveContainer(run.id, force));
      r := if removed.Ok? then Ok(true) else Err(removed.error);
    }

    method ArchiveAndRemove(run: Run, container: Container, force: bool) returns (r: Result<Run>)
      requires Ready() && Holds(run) && (if force then run.force else !LiveMine(host.world, run.id))
      requires container.startedAt.None? ==> !EverStarted(host.world, run.id)
      modifies this`state, this`history, this`approved, this`pass, this`inflight, this`calls, this`epoch, store,
               host`world, host`file, host`poolIds
      ensures Ready() && old(history) <= history && Reached(old(Now()), Now(), {run.id})
      ensures r.Ok? ==>
                !pass.value.interrupted && Holds(r.value) && !Mine(host.world, run.id)
                && r.value == run.(phase := Cleanup, logSaved := true)
      ensures host.quiet && !old(pass.value.interrupted) && Mine(old(host.world), run.id) ==>
                r.Ok? && QuietKept(old(Now()), Now(), {run.id})
    {
      ghost var s0 := Now();
      r := RecordAndArchive(run, container);
      ghost var s1 := Now();
      if r.Ok? {
        var removed := RemoveContainerOf(r.value, force);
        ReachedAgain(s0, s1, Now(), {run.id});
        if removed.Err? {
          r := Err(removed.error);
        }
      }
    }

    /* ---- Forgetting a run ---- */

    /** The run has no container and no registration where its pool registers. */
    ghost predicate Cleared(id: string)
      requires pass.Some?
      reads this, host
    {
      !Mine(host.world, id) && (pass.value.pool.ApiScope(), id) !in host.world.registrations
    }

    method DeleteRegistration(run: Run, scope: string, remoteId: nat) returns (turn: Turn)
      requires Ready() && Holds(run) && scope == pass.value.pool.ApiScope() && !Mine(host.world, run.id)
      requires !pass.value.interrupted && Bound(host.world, scope, remoteId, run.id)
      requires (scope, run.id) in host.world.registrations ==> host.world.registrations[(scope, run.id)].id == remoteId
      modifies this`state, this`history, this`approved, this`pass, this`inflight, this`calls, this`epoch, store,
               host`world, host`file, host`poolIds
      ensures Ready() && old(history) <= history && Reached(old(Now()), Now(), {run.id})
      ensures turn.Onward? || turn.Postpone?
      ensures turn.Onward? ==> !pass.value.interrupted && Holds(run) && Cleared(run.id)
      ensures host.quiet ==> turn.Onward? && QuietKept(old(Now()), Now(), {run.id})
    {
      ghost var before := Now();
      RunIsIssued(before, run.id);
      var removed := CallFor(run, RemoveRegistration(scope, remoteId, run.id));
      if removed.Err? {
        return Postpone(removed.error);
      }
      UnregisteredStays(before, Now(), {}, scope, run.id);
      turn := Onward;
    }

    /** A fresh listing, so that a registration that came after the cached one is not left behind. */
    method Unregister(run: Run, scope: string) returns (turn: Turn)
      requires Ready() && Holds(run) && scope == pass.value.pool.ApiScope() && !Mine(host.world, run.id)
      modifies this`state, this`history, this`approved, this`pass, this`inflight, this`calls, this`epoch, store,
               host`world, host`file, host`poolIds
      ensures Ready() && old(history) <= history && Reached(old(Now()), Now(), {run.id})
      ensures turn.Onward? || turn.Postpone?
      ensures turn.Onward? ==>
                !pass.value.interrupted && Holds(run) && Cleared(run.id)
                && ListRunners(scope, false) in calls.answered
      ensures host.quiet && !old(pass.value.interrupted) ==> turn.Onward? && QuietKept(old(Now()), Now(), {run.id})
    {
      ghost var s0 := Now();
      RunIsIssued(s0, run.id);
      var listed := CallFor(run, ListRunners(scope, false));
      ghost var s1 := Now();
      if listed.Err? {
        return Postpone(listed.error);
      }
      assert ListedFresh(listed.value.runners, scope, host.world, run.id);
      if run.id !in listed.value.runners {
        return Onward;
      }
      turn := DeleteRegistration(run, scope, listed.value.runners[run.id].id);
      ReachedAgain(s0, s1, Now(), {run.id});
    }

    method TryRemoveDir(run: Run) returns (ok: bool)
      requires Ready() && Holds(run) && !pass.value.interrupted && Cleared(run.id)
      modifies this`history, host`world
      ensures Ready() && old(history) <= history && Reached(old(Now()), Now(), {run.id}) && Holds(run)
              && Cleared(run.id)
      ensures Now() == old(Now()).(world := old(host.world).(dirs := host.world.dirs))
              && QuietKept(old(Now()), Now(), {run.id})
      ensures ok ==> run.id !in host.world.dirs
      ensures host.quiet ==> ok
    {
      ghost var before := Now();
      ok := host.RemoveDir(run.id);
      if ok {
        Allow(before, RemoveDir(run.id), Now());
        Log(RemoveDir(run.id), before);
      }
      assert host.world == before.world.(dirs := host.world.dirs);
      DirsReached(before, Now(), run.id);
    }

    /** Files left by root inside the container may need repairing first. */
    method RemoveDirectory(run: Run) returns (turn: Turn)
      requires Ready() && Holds(run) && !pass.value.interrupted && Cleared(run.id)
      modifies this`state, this`history, this`approved, this`pass, this`inflight, this`calls, this`epoch, store,
               host`world, host`file, host`poolIds
      ensures Ready() && old(history) <= history && Reached(old(Now()), Now(), {run.id})
      ensures turn.Onward? || turn.Postpone?
      ensures turn.Onward? ==> !pass.value.interrupted && Holds(run) && Cleared(run.id) && run.id !in host.world.dirs
      ensures host.quiet ==> turn.Onward? && QuietKept(old(Now()), Now(), {run.id})
    {
      ghost var s0 := Now();
      ReachedItself(s0);
      if run.id !in host.world.dirs {
        return Onward;
      }
      var removed := TryRemoveDir(run);
      if removed {
        return Onward;
      }
      if !run.pool.dockerSocket {
        return Postpone(Failed);
      }
      ghost var s1 := Now();
      var repaired := CallFor(run, RepairDirectory(run.id));
      RunIsIssued(s1, run.id);
      UnregisteredStays(s1, Now(), {}, pass.value.pool.ApiScope(), run.id);
      ReachedAgain(s0, s1, Now(), {run.id});
      if repaired.Err? {
        return Postpone(repaired.error);
      }
      ghost var s2 := Now();
      removed := TryRemoveDir(run);
      ReachedAgain(s0, s2, Now(), {run.id});
      turn := if removed then Onward else Postpone(Failed);
    }

    /** The record goes last. A finished job clears the pool's failures. */
    method DropRun(run: Run, name: string, ghost unexpected: bool)
      requires Ready() && name == pass.value.name && Holds(run) && !pass.value.interrupted && Cleared(run.id)
               && run.id !in host.world.dirs
      requires unexpected ==> UnexpectedExit(run)
      modifies this`counted, this`state, this`history, store
      ensures Ready() && old(history) <= history && Reached(old(Now()), Now(), {run.id})
      ensures Now() == old(Now()).(mem := Dropped(old(state), name, run.id, run.completedJob), disk := state,
                                     counted := old(counted) + if unexpected then 1 else 0)
    {
      ghost var before := Now();
      EverythingGone(before, run.id);
      if run.completedJob && name in state.pools {
        state := state.(pools := state.pools[name := state.pools[name].(failures := 0)]);
      }
      state := state.(runs := state.runs - {run.id});
      counted := counted + if unexpected then 1 else 0;
      Save();
      DropReached(before, Now(), name, run.id, run.completedJob);
      Allow(before, Drop(run.id, run.completedJob, unexpected), Now());
      Log(Drop(run.id, run.completedJob, unexpected), before);
    }

    method ClearAway(run: Run, scope: string) returns (turn: Turn)
      requires Ready() && Holds(run) && scope == pass.value.pool.ApiScope() && !Mine(host.world, run.id)
      modifies this`state, this`history, this`approved, this`pass, this`inflight, this`calls, this`epoch, store,
               host`world, host`file, host`poolIds
      ensures Ready() && old(history) <= history && Reached(old(Now()), Now(), {run.id})
      ensures turn.Onward? || turn.Postpone?
      ensures turn.Onward? ==> !pass.value.interrupted && Holds(run) && Cleared(run.id) && run.id !in host.world.dirs
      ensures host.quiet && !old(pass.value.interrupted) ==> turn.Onward? && QuietKept(old(Now()), Now(), {run.id})
    {
      ghost var s0 := Now();
      turn := Unregister(run, scope);
      ghost var s1 := Now();
      if turn.Onward? {
        turn := RemoveDirectory(run);
        ReachedAgain(s0, s1, Now(), {run.id});
      }
    }

    /** `exits` is 1 when the run ended by itself without having done a job. */
    method Forget(name: string, scope: string, run: Run, rebooted: bool) returns (turn: Turn, exits: nat)
      requires Ready() && Holds(run) && name == pass.value.name && scope == pass.value.pool.ApiScope()
               && !Mine(host.world, run.id)
      modifies this`counted, this`state, this`history, this`approved, this`pass, this`inflight, this`calls, this`epoch,
               store, host`world, host`file, host`poolIds
      ensures Ready() && old(history) <= history && Reached(old(Now()), Now(), {run.id})
      ensures turn.Onward? || turn.Postpone?
      ensures turn.Onward? ==> !pass.value.interrupted && run.id !in state.runs
      ensures exits == (if turn.Onward? && UnexpectedExit(run) && !rebooted then 1 else 0)
              && counted == old(counted) + exits
      ensures host.quiet && !old(pass.value.interrupted) ==> turn.Onward? && QuietKept(old(Now()), Now(), {run.id})
    {
      exits := 0;
      ghost var s0 := Now();
      turn := ClearAway(run, scope);
      ghost var s1 := Now();
      if turn.Onward? {
        exits := if UnexpectedExit(run) && !rebooted then 1 else 0;
        DropRun(run, name, exits == 1);
        ReachedAgain(s0, s1, Now(), {run.id});
      }
    }

    /* ---- One run's turn ---- */

    /** A container that is not live: clean it up and forget the run. */
    method DiscardContainer(name: string, scope: string, run: Run, container: Container)
      returns (turn: Turn, exits: nat)
      requires Ready() && Holds(run) && name == pass.value.name && scope == pass.value.pool.ApiScope()
               && !LiveMine(host.world, run.id)
      requires container.startedAt.None? ==> !EverStarted(host.world, run.id)
      modifies this`counted, this`state, this`history, this`approved, this`pass, this`inflight, this`calls, this`epoch,
               this`bootTime, store, host`world, host`file, host`poolIds
      ensures Ready() && old(history) <= history && Reached(old(Now()), Now(), {run.id})
      ensures turn.Onward? ==> !pass.value.interrupted && run.id !in state.runs
      ensures exits == (if turn.Onward? && ExitCounts(run, Some(container), old(host.world), bootTime) then 1 else 0)
              && counted == old(counted) + exits
      ensures host.quiet && !old(pass.value.interrupted) && Mine(old(host.world), run.id) ==>
                turn.Onward? && QuietKept(old(Now()), Now(), {run.id})
    {
      ghost var s0 := Now();
      var cleaned, rebooted;
      turn, cleaned, rebooted := CleanUp(run, container);
      if !turn.Onward? {
        return turn, 0;
      }
      ghost var s1 := Now();
      turn, exits := Forget(name, scope, cleaned, rebooted);
      ReachedAgain(s0, s1, Now(), {run.id});
    }

    /** Nothing live is left: clean up what there is and forget the run. */
    method Discard(name: string, scope: string, run: Run, container: Option<Container>) returns (turn: Turn, exits: nat)
      requires Ready() && Holds(run) && name == pass.value.name && scope == pass.value.pool.ApiScope()
      requires if container.Some? then !LiveMine(host.world, run.id) else !Mine(host.world, run.id)
      requires container.Some? && container.value.startedAt.None? ==> !EverStarted(host.world, run.id)
      modifies this`counted, this`state, this`history, this`approved, this`pass, this`inflight, this`calls, this`epoch,
               this`bootTime, store, host`world, host`file, host`poolIds
      ensures Ready() && old(history) <= history && Reached(old(Now()), Now(), {run.id})
      ensures turn.Onward? ==> !pass.value.interrupted && run.id !in state.runs
      ensures exits == (if turn.Onward? && ExitCounts(run, container, old(host.world), bootTime) then 1 else 0)
              && counted == old(counted) + exits
      ensures host.quiet && !old(pass.value.interrupted) && (container.Some? ==> Mine(old(host.world), run.id)) ==>
                turn.Onward? && QuietKept(old(Now()), Now(), {run.id})
    {
      if container.Some? {
        turn, exits := DiscardContainer(name, scope, run, container.value);
      } else {
        turn, exits := Forget(name, scope, run, false);
      }
    }

    /** A run that is still wanted and never started: bring its container up, unless replenishing is delayed. */
    method BringUp(run: Run, container: Option<Container>, allow: bool) returns (turn: Turn)
      requires Ready() && Holds(run) && !run.retiring && pass.value.marked && (allow ==> pass.value.MayReplenish())
      requires run == state.runs[run.id].(phase := run.phase, remoteId := run.remoteId)
      requires container.Some? ==> !EverStarted(host.world, run.id)
      modifies this`state, this`history, this`approved, this`pass, this`inflight, this`calls, this`epoch, store,
               host`world, host`file, host`poolIds
      ensures Ready() && old(history) <= history && Reached(old(Now()), Now(), {run.id})
      ensures turn.Onward? || turn.GiveUp?
      ensures turn.Onward? && !old(pass.value.interrupted) ==> !pass.value.interrupted
      ensures !allow ==> turn.Onward? && Now() == old(Now()).(mem := WithRun(old(state), run))
      ensures turn.Onward? && allow ==>
                StartedBy(calls, run.id) && (container.None? ==> CreatedBy(calls, state.managerId, run))
      ensures turn.Onward? && allow ==>
                !pass.value.interrupted && run.id in state.runs && state.runs[run.id] == run.(phase := Starting)
      ensures host.quiet && !old(pass.value.interrupted) && allow
              && (if container.Some? then Mine(old(host.world), run.id) else run.id !in old(host.world).containers) ==>
                turn.Onward? && QuietKept(old(Now()), Now(), {run.id}) && LiveMine(host.world, run.id)
    {
      if !allow {
        ObserveRun(run);
        return Onward;
      }
      if container.Some? {
        turn := StartCreated(run);
      } else {
        turn := Provision(run);
      }
    }

    method KeepRun(run: Run, container: Option<Container>, remotes: map<string, Remote>, allow: bool)
      returns (turn: Turn)
      requires Ready() && Holds(run) && Staying(run, container) && pass.value.marked
               && (allow ==> pass.value.MayReplenish())
      requires run == state.runs[run.id].(phase := run.phase, remoteId := run.remoteId)
      requires container.Some? && container.value.status == Status.Created ==> !EverStarted(host.world, run.id)
      modifies this`state, this`history, this`approved, this`pass, this`inflight, this`calls, this`epoch, store,
               host`world, host`file, host`poolIds
      ensures Ready() && old(history) <= history && Reached(old(Now()), Now(), {run.id})
      ensures turn.Onward? || turn.GiveUp?
      ensures turn.Onward? && !old(pass.value.interrupted) ==> !pass.value.interrupted
      ensures container.Some? && Live(container.value) ==>
                turn.Onward? && Now() == old(Now()).(mem := WithRun(old(state),
                    run.(phase := ObservedPhase(remotes, run.id))))
      ensures !allow && !(container.Some? && Live(container.value)) ==>
                turn.Onward? && Now() == old(Now()).(mem := WithRun(old(state), run))
      ensures turn.Onward? && allow && !(container.Some? && Live(container.value)) ==>
                StartedBy(calls, run.id) && (container.None? ==> CreatedBy(calls, state.managerId, run))
      ensures turn.Onward? && allow && !(container.Some? && Live(container.value)) ==>
                run.id in state.runs && state.runs[run.id] == run.(phase := Starting)
      ensures host.quiet && !old(pass.value.interrupted) && (allow || (container.Some? && Live(container.value)))
              && (if container.Some? then Mine(old(host.world), run.id)
                  && old(host.world).containers[run.id] == container.value
                  else run.id !in old(host.world).containers) ==>
                turn.Onward? && QuietKept(old(Now()), Now(), {run.id}) && LiveMine(host.world, run.id)
                && run.id in state.runs && state.runs[run.id] == run.(phase := state.runs[run.id].phase)
    {
      if container.Some? && Live(container.value) {
        ObserveRun(run.(phase := ObservedPhase(remotes, run.id)));
        return Onward;
      }
      turn := BringUp(run, container, allow);
    }

    method TakeTurn(name: string, scope: string, run: Run, container: Option<Container>, remotes: map<string,
        Remote>, allow: bool)
      returns (turn: Turn, exits: nat)
      requires Ready() && Holds(run) && name == pass.value.name && scope == pass.value.pool.ApiScope()
      requires pass.value.marked && allow == pass.value.MayReplenish()
      requires run == Sighted(state.runs[run.id], remotes)
      requires container.None? ==> !Mine(host.world, run.id)
      requires container.Some? && !Live(container.value) ==> !LiveMine(host.world, run.id)
      requires container.Some? && (container.value.startedAt.None? || container.value.status == Status.Created) ==>
                !EverStarted(host.world, run.id)
      modifies this`counted, this`state, this`history, this`approved, this`pass, this`inflight, this`calls, this`epoch,
               this`bootTime, store, host`world, host`file, host`poolIds
      ensures Ready() && old(history) <= history && Reached(old(Now()), Now(), {run.id})
      ensures counted == old(counted) + exits
      ensures run.id in old(state).runs
              && TurnedOut(old(Now()), Now(), run.id, container, remotes, allow, turn.Onward?, exits, bootTime)
      ensures turn.Onward? && !old(pass.value.interrupted) ==> !pass.value.interrupted
      ensures if Staying(run, container) then exits == 0 else turn.Onward? ==> run.id !in state.runs
      ensures host.quiet && !old(pass.value.interrupted) && old(ShownAs(host.world, run.id, container))
              && (Staying(run, container) ==> allow || (container.Some? && Live(container.value))) ==>
                && turn.Onward? && QuietKept(old(Now()), Now(), {run.id})
                && if Staying(run, container) then
                     && LiveMine(host.world, run.id) && run.id in state.runs
                     && state.runs[run.id] == run.(phase := state.runs[run.id].phase)
                   else run.id !in state.runs
    {
      ghost var before := Now();
      RunIsIssued(before, run.id);
      if Staying(run, container) {
        turn := KeepRun(run, container, remotes, allow);
        exits := 0;
        KeptTurnsOut(before, Now(), run, container, remotes, allow, turn.Onward?, bootTime);
      } else {
        turn, exits := Discard(name, scope, run, container);
        DiscardedTurnsOut(before, Now(), run, container, remotes, allow, turn.Onward?, exits, bootTime);
      }
    }

    /** What a listing shows of one run of the pass, and what the pass does about it. */
    method ReconcileRun(name: string, scope: string, id: string, listing: seq<Container>, remotes: map<string,
        Remote>, allow: bool)
      returns (turn: Turn, exits: nat)
      requires Ready() && name == pass.value.name && scope == pass.value.pool.ApiScope()
      requires pass.value.marked && allow == pass.value.MayReplenish()
      requires PendingRun(listing, Now(), pass.value.state.id, id)
      modifies this`counted, this`state, this`history, this`approved, this`pass, this`inflight, this`calls, this`epoch,
               this`bootTime, store, host`world, host`file, host`poolIds
      ensures Ready() && old(history) <= history && Reached(old(Now()), Now(), {id})
      ensures counted == old(counted) + exits
      ensures TurnedOut(old(Now()), Now(), id, old(Listed(listing, state, id)), remotes, allow, turn.Onward?, exits,
                  bootTime)
      ensures turn.Onward? && !old(pass.value.interrupted) ==> !pass.value.interrupted
      ensures turn.Onward? && !old(Stays(listing, state, id)) ==> id !in state.runs
      ensures host.quiet && !old(pass.value.interrupted) && old(ShownRun(listing, Now(), id))
              && old(Stays(listing, state, id) ==> allow || ListedLive(listing, state, id)) ==>
                && turn.Onward? && QuietKept(old(Now()), Now(), {id}) && SettledRun(old(Now()), Now(), listing, id)
                && (old(Stays(listing, state, id)) ==> exits == 0)
    {
      RunIsIssued(Now(), id);
      var run := Sighted(state.runs[id], remotes);
      var container := Listed(listing, state, id);
      SightedIsLikeIt(state.runs[id], run, container, host.world);
      turn, exits := TakeTurn(name, scope, run, container, remotes, allow);
    }

    /* ---- Forced removals ---- */

    function ForcedIds(poolId: string): set<string>
      reads this
    {
      set id | id in state.runs && state.runs[id].poolId == poolId && state.runs[id].force
    }

    /** One forced run: its container, if the listing shows one, is archived and removed, live or not. */
    method RemoveOne(run: Run, listing: seq<Container>) returns (r: Result<bool>)
      requires Ready() && Holds(run) && !pass.value.interrupted && run.force && AllTrusted(listing, Now())
      modifies this`state, this`history, this`approved, this`pass, this`inflight, this`calls, this`epoch, store,
               host`world, host`file, host`poolIds
      ensures Ready() && old(history) <= history && Reached(old(Now()), Now(), {run.id})
      ensures r.Ok? ==> !pass.value.interrupted && AllTrusted(listing, Now()) && !Mine(host.world, run.id)
      ensures r.Ok? ==> run.id in state.runs && state.runs[run.id].poolId == run.poolId && state.runs[run.id].force
      ensures host.quiet && Exact(listing, old(state).managerId, run.id, run.poolId, old(host.world)) ==>
                r.Ok? && QuietKept(old(Now()), Now(), {run.id})
    {
      ghost var s0 := Now();
      ReachedItself(s0);
      var container := FindOwned(listing, state.managerId, run.id, run.poolId);
      assert TrustedRun(listing, s0, run.id);
      if container.Some? {
        var removed := ArchiveAndRemove(run, container.value, true);
        if removed.Err? {
          return Err(removed.error);
        }
        TrustAfter(s0, Now(), listing, run.id);
      }
      r := Ok(true);
    }

    /** Copies of the records, in the order of their ids. */
    method Copies(ids: seq<string>) returns (copies: seq<Run>)
      requires Ready() && forall i :: 0 <= i < |ids| ==> ids[i] in PoolRuns(state.runs, pass.value.state.id)
      ensures AllHeld(Now(), copies, 0) && CopiesOf(ids, copies)
    {
      copies := [];
      for j := 0 to |ids|
        invariant |copies| == j && forall l :: 0 <= l < j ==> copies[l].id == ids[l] && Held(Now(), copies[l])
      {
        assert ids[j] in PoolRuns(state.runs, pass.value.state.id);
        RunIsIssued(Now(), ids[j]);
        copies := copies + [state.runs[ids[j]]];
      }
    }

    /** Explicit force removes containers even when the credential is revoked. */
    method RemoveForced(poolId: string, listing: seq<Container>) returns (r: Result<bool>)
      requires Ready() && !pass.value.interrupted && poolId == pass.value.state.id && AllTrusted(listing, Now())
      modifies this`state, this`history, this`approved, this`pass, this`inflight, this`calls, this`epoch, store,
               host`world, host`file, host`poolIds
      ensures Ready() && old(history) <= history && Reached(old(Now()), Now(), old(ForcedIds(poolId)))
      ensures r.Ok? ==>
                !pass.value.interrupted && AllTrusted(listing, Now())
                && Defused(Now(), poolId, old(ForcedIds(poolId)))
      ensures host.quiet && AllShown(listing, old(Now())) ==>
                r.Ok? && QuietKept(old(Now()), Now(), old(ForcedIds(poolId)))
    {
      ghost var first := Now();
      ghost var calm := host.quiet && AllShown(listing, first);
      var ids := ListInOrder(ForcedIds(poolId));
      var forced := Copies(ids);
      ReachedItself(first);
      for i := 0 to |forced|
        invariant Ready() && old(history) <= history && AllTrusted(listing, Now())
        invariant Forced(first, Now(), poolId, ids, forced, i, calm)
      {
        ghost var before := Now();
        assert Held(before, forced[i]);
        if calm {
          LaterIsNotUpto(ids, i, i);
          ShownElsewhere(first, before, listing, Upto(ids, i), ids[i]);
        }
        var removed := RemoveOne(forced[i], listing);
        if removed.Err? {
          ReachedMore(first, before, Now(), ids[i], Upto(ids, |ids|));
          return Err(removed.error);
        }
        ForcedNext(first, before, Now(), poolId, ids, forced, i, calm);
      }
      r := Ok(true);
    }

    /** The turn of the run at place `i`, seen from the beginning of the loop. */
    method NextTurn(name: string, scope: string, ids: seq<string>, i: nat, listing: seq<Container>,
        remotes: map<string, Remote>, allow: bool,
                    ghost first: Sys, ghost clean: bool, ghost calm: bool)
      returns (turn: Turn, exits: nat)
      requires Ready() && name == pass.value.name && scope == pass.value.pool.ApiScope()
      requires pass.value.marked && allow == pass.value.MayReplenish() && i < |ids|
      requires VisitedSoFar(first, Now(), listing, pass.value.state.id, ids, i, clean, calm)
               && (clean || calm ==> !pass.value.interrupted)
      requires calm ==> host.quiet && Tractable(first, listing, Upto(ids, |ids|), allow)
      modifies this`counted, this`state, this`history, this`approved, this`pass, this`inflight, this`calls, this`epoch,
               this`bootTime, store, host`world, host`file, host`poolIds
      ensures Ready() && old(history) <= history && counted == old(counted) + exits
      ensures VisitedSoFar(first, Now(), listing, pass.value.state.id, ids, i + 1, clean && turn.Onward?, calm)
      ensures (pass == old(pass) || pass == Interrupt(old(pass))) && CallsGrow(old(calls), calls)
      ensures clean && turn.Onward? ==> !pass.value.interrupted
      ensures calm ==> turn.Onward? && (AllStay(first, listing, Upto(ids, |ids|)) ==> exits == 0)
    {
      ghost var before := Now();
      IsVisited(first, before, listing, pass.value.state.id, ids, i, clean, calm);
      assert PendingRun(listing, before, pass.value.state.id, ids[i]);
      if calm {
        TractableStill(first, before, listing, ids, i, allow);
      }
      turn, exits := ReconcileRun(name, scope, ids[i], listing, remotes, allow);
      VisitedNext(first, before, Now(), listing, before.pass.value.state.id, ids, i, clean, turn.Onward?, calm);
    }

    /** Every run of the pool in turn. A cleanup that fails is remembered and the others still get their turn. */
    method RunAll(name: string, scope: string, ids: seq<string>, listing: seq<Container>, remotes: map<string,
        Remote>, allow: bool)
      returns (r: Result<nat>)
      requires Ready() && name == pass.value.name && scope == pass.value.pool.ApiScope() && !pass.value.interrupted
      requires pass.value.marked && allow == pass.value.MayReplenish()
      requires Distinct(ids) && Pending(listing, Now(), pass.value.state.id, ids, 0)
      modifies this`counted, this`state, this`history, this`approved, this`pass, this`inflight, this`calls, this`epoch,
               this`bootTime, store, host`world, host`file, host`poolIds
      ensures Ready() && old(history) <= history && (pass == old(pass) || pass == Interrupt(old(pass)))
      ensures CallsGrow(old(calls), calls)
      ensures r.Ok? ==> !pass.value.interrupted && counted == old(counted) + r.value
      ensures r.Ok? ==> AllRetiringGone(old(Now()), Now(), listing, Upto(ids, |ids|))
      ensures host.quiet && old(Tractable(Now(), listing, Upto(ids, |ids|), allow)) ==>
                r.Ok? && QuietKept(old(Now()), Now(), Upto(ids, |ids|))
                    && AllSettled(old(Now()), Now(), listing, Upto(ids, |ids|))
                && (old(AllStay(Now(), listing, Upto(ids, |ids|))) ==> r.value == 0)
    {
      ghost var first := Now();
      ghost var calm := host.quiet && Tractable(first, listing, Upto(ids, |ids|), allow);
      VisitStarts(first, listing, pass.value.state.id, ids, calm);
      var error: Option<Error> := None;
      var exits: nat := 0;
      for i := 0 to |ids|
        invariant Ready() && old(history) <= history
        invariant VisitedSoFar(first, Now(), listing, first.pass.value.state.id, ids, i, error.None?, calm)
        invariant pass == first.pass || pass == Interrupt(first.pass)
        invariant CallsGrow(first.calls, calls) && counted == first.counted + exits
        invariant (error.None? ==> !pass.value.interrupted) && (calm ==> error.None?)
        invariant calm && AllStay(first, listing, Upto(ids, |ids|)) ==> exits == 0
      {
        var turn, n := NextTurn(name, scope, ids, i, listing, remotes, allow, first, error.None?, calm);
        if turn.GiveUp? {
          return Err(turn.error);
        }
        if turn.Postpone? && error.None? {
          error := Some(turn.error);
        }
        exits := exits + n;
      }
      IsVisited(first, Now(), listing, first.pass.value.state.id, ids, |ids|, error.None?, calm);
      r := if error.Some? then Err(error.value) else Ok(exits);
    }

    /* ---- A reconciliation ---- */

    method ListContainers() returns (r: Result<seq<Container>>)
      requires Ready()
      modifies this`state, this`history, this`approved, this`pass, this`inflight, this`calls, this`epoch, store,
               host`world, host`file, host`poolIds
      ensures Ready() && old(history) <= history && Waited(old(Now()), Now(), {})
      ensures (r == Err(Interrupted)) <==> pass.value.interrupted
      ensures r.Ok? ==> AllTrusted(r.value, Now())
      ensures r.Ok? && old(calls).strays.None? ==> calls.strays == Some(Unrecorded(r.value, state.runs))
      ensures host.quiet && !old(pass.value.interrupted) ==>
                r.Ok? && Now() == old(Now()).(calls := calls) && AllShown(r.value, Now())
                    && ListingOf(r.value, host.world, state.managerId)
    {
      var listed := External(Effect.ListContainers);
      if listed.Err? {
        return Err(listed.error);
      }
      r := Ok(listed.value.listing);
      if host.quiet {
        FreshlyShown(Now(), r.value);
      }
    }

    /** Forced runs first; if there were any, the containers are listed again. */
    method ForceAndList(poolId: string, listing: seq<Container>) returns (r: Result<seq<Container>>)
      requires Ready() && !pass.value.interrupted && poolId == pass.value.state.id && AllTrusted(listing, Now())
      modifies this`state, this`history, this`approved, this`pass, this`inflight, this`calls, this`epoch, store,
               host`world, host`file, host`poolIds
      ensures Ready() && old(history) <= history && Reached(old(Now()), Now(), old(ForcedIds(poolId)))
      ensures r.Ok? ==>
                !pass.value.interrupted && AllTrusted(r.value, Now()) && NoneMine(host.world, old(ForcedIds(poolId)))
      ensures host.quiet && AllShown(listing, old(Now())) ==>
                r.Ok? && AllShown(r.value, Now()) && QuietKept(old(Now()), Now(), old(ForcedIds(poolId)))
                && Defused(Now(), poolId, old(ForcedIds(poolId)))
    {
      ghost var s0 := Now();
      ghost var forced := ForcedIds(poolId);
      var removed := RemoveForced(poolId, listing);
      if removed.Err? {
        return Err(removed.error);
      }
      ghost var s1 := Now();
      if ForcedIds(poolId) == {} {
        assert forall id :: id in forced ==> id in ForcedIds(poolId);
        if host.quiet && AllShown(listing, s0) {
          StillAllShown(s0, s1, listing);
        }
        return Ok(listing);
      }
      r := ListContainers();
      DefusedStays(s1, Now(), poolId, forced);
      CallReached(s1, Now(), {}, forced);
      ReachedAgain(s0, s1, Now(), forced);
    }

    method MarkPass(name: string)
      requires Ready() && !pass.value.interrupted && name == pass.value.name
      modifies this`state, this`history, this`pass, store
      ensures Ready() && old(history) <= history
      ensures name in old(state).pools && Find(old(state).config.pools, name).Some?
      ensures Now() == old(Now()).(mem := MarkRetiring(old(state), name), disk := MarkRetiring(old(state), name),
          pass := Some(old(pass).value.(marked := true)))
    {
      ghost var before := Now();
      PassHasPool(before);
      MarkRuns(name);
      Save();
      pass := Some(pass.value.(marked := true));
      Allow(before, Mark, Now());
      Log(Mark, before);
    }

    /** A pass that may have come to its end: the pool still exists and the pass may go on, or it has been deleted. */
    ghost predicate Ended(ok: bool)
      reads this, store, host
    {
      && Recorded() && Sound(Now()) && Linked() && inflight.None? && pass.Some?
      && (!pass.value.closed ==> approved.None?)
      && (pass.value.closed ==> !pass.value.interrupted && pass.value.name !in state.pools && (ok ==> approved.None?))
    }

    /** A deleting pool without runs leaves the configuration, if config.toml is as the manager wrote it. */
    method DeleteEmptyPool(name: string) returns (ok: bool)
      requires Ready() && !pass.value.interrupted && name == pass.value.name
      requires pass.value.state.deleting && PoolRuns(state.runs, pass.value.state.id) == {}
      modifies this`state, this`history, this`approved, this`pass, store, host`file, host`poolIds
      ensures Ended(ok) && old(history) <= history && Continues(old(pass), pass)
      ensures ok ==> Some(state) == PoolDeleted(old(state), name) && host.file == Some(state.fileHash)
      ensures ok ==> Deletes(old(state), state, name)
      ensures host.quiet ==> (ok <==> old(host.file) == Some(old(state).fileHash)) && (!ok ==> Now() == old(Now()))
    {
      ghost var before := Now();
      ok := CleanFile();
      if !ok {
        return;
      }
      DeletionIsValid(before);
      var next := state.config.(pools := Without(state.config.pools, name));
      state := state.(pools := state.pools - {name});
      ghost var closed := Some(pass.value.(closed := true));
      ghost var none: map<string, string> := map[];
      assert host.poolIds + none.Values == host.poolIds;
      Allow(before, DeletePool, CommitTarget(Committed(state, next).value, none, closed));
      ok := CommitConfig(next, map[], DeletePool, closed);
      DeletionAsPromised(before, name, state);
    }

    /** A new record, saved before any container is created for it. */
    method InsertRun(pool: Pool, ps: PoolState, unrecorded: nat) returns (id: string)
      requires Ready() && !pass.value.interrupted && pass.value.marked && pass.value.MayReplenish()
      requires pass.value.pool == pool && pass.value.state == ps && HasRoom(Now(), unrecorded) && counted == 0
      requires CheckImage(pool.image) in calls.answered
      modifies this`state, this`history, store, host`issued
      ensures Ready() && old(history) <= history && AddsRun(old(Now()), Now(), id)
    {
      ghost var before := Now();
      id := host.Uuid(host.issued + state.runs.Keys + host.world.containers.Keys + host.world.dirs
        + (set n | n in host.world.containers && host.world.containers[n].run.Some? ::
            host.world.containers[n].run.value)
        + set k | k in host.world.registrations :: k.1);
      assert forall k :: k in host.world.registrations ==> k.1 != id;
      assert forall n :: n in host.world.containers ==> host.world.containers[n].run != Some(id);
      var at := host.Clock();
      var run := Run(id, ps.id, pool, ps.generation, at, Creating, None, false, false, false, false);
      state := state.(runs := state.runs[id := run]);
      Save();
      host.issued := host.issued + {id};
      Allow(before, Insert(run), Now());
      Log(Insert(run), before);
    }

    /** At most one new run a turn. The guards were evaluated before the call and still hold after it. */
    method Replenish(pool: Pool, ps: PoolState, unrecorded: nat) returns (r: Result<string>)
      requires Ready() && !pass.value.interrupted && pass.value.marked && pass.value.MayReplenish()
      requires pass.value.pool == pool && pass.value.state == ps && HasRoom(Now(), unrecorded) && counted == 0
      modifies this`state, this`history, this`approved, this`pass, this`inflight, this`calls, this`epoch, store,
               host`world, host`file, host`poolIds, host`issued
      ensures Ready() && old(history) <= history && Continues(old(pass), pass)
      ensures r.Ok? ==> !pass.value.interrupted && r.value !in old(host.issued) && r.value in state.runs
      ensures host.quiet ==> r.Ok? && AddsRun(old(Now()), Now(), r.value)
    {
      ghost var before := Now();
      var image := External(CheckImage(pool.image));
      if image.Err? {
        return Err(image.error);
      }
      RoomAfterWait(before, Now(), unrecorded);
      var id := InsertRun(pool, ps, unrecorded);
      r := Ok(id);
    }

    /** After the last run: delete the pool, or bring one more run into being. `added` is its id. */
    method Conclude(name: string, pool: Pool, ps: PoolState, unrecorded: nat, exits: nat, allow: bool)
      returns (r: Result<nat>, ghost added: Option<string>)
      requires Ready() && !pass.value.interrupted && pass.value.marked && allow == pass.value.MayReplenish()
      requires pass.value.name == name && pass.value.pool == pool && pass.value.state == ps && exits == counted
      requires calls.strays == Some(unrecorded)
      modifies this`state, this`history, this`approved, this`pass, this`inflight, this`calls, this`epoch, store,
               host`world, host`file, host`poolIds, host`issued
      ensures Ended(r.Ok?) && old(history) <= history && Continues(old(pass), pass)
      ensures (r.Ok? ==> !pass.value.interrupted && r.value == exits) && (approved.Some? ==> r == Err(Failed))
      ensures r.Ok? && old(Deletable(Now())) ==>
                Some(state) == PoolDeleted(old(state), name) && host.file == Some(state.fileHash)
      ensures r.Ok? && !old(Deletable(Now())) ==>
                (added.Some? <==> allow && exits == 0 && old(HasRoom(Now(), unrecorded)))
      ensures r.Ok? && added.Some? ==> added.value in state.runs && added.value !in old(host.issued)
      ensures host.quiet && old(Deletable(Now())) ==>
                && (r.Ok? <==> old(host.file) == Some(old(state).fileHash))
                && (r.Ok? ==> Some(state) == PoolDeleted(old(state), name) && host.file == Some(state.fileHash))
                && (r.Err? ==> Now() == old(Now()) && r == Err(Failed))
      ensures host.quiet && !old(Deletable(Now())) ==>
                r.Ok? && (added.Some? <==> allow && exits == 0 && old(HasRoom(Now(), unrecorded)))
                && if added.Some? then AddsRun(old(Now()), Now(), added.value) else Now() == old(Now())
    {
      added := None;
      var active := |PoolRuns(state.runs, ps.id)|;
      if ps.deleting && active == 0 {
        var ok := DeleteEmptyPool(name);
        return if ok then Ok(exits) else Err(Failed), None;
      }
      var keep := if Active(ps) then pool.replicas else 0;
      if allow && exits == 0 && active < keep && |state.runs| + unrecorded < state.config.manager.maxRunners {
        var inserted := Replenish(pool, ps, unrecorded);
        if inserted.Err? {
          return Err(inserted.error), None;
        }
        added := Some(inserted.value);
      }
      var expired := host.FileOperation();
      r := if expired then Ok(exits) else Err(Failed);
    }

    /** The pass that the engine is in is about this pool. */
    ghost predicate About(name: string, pool: Pool, ps: PoolState, allow: bool)
      reads this
    {
      && pass.Some? && pass.value.name == name && pass.value.pool == pool && pass.value.state == ps
      && allow == pass.value.MayReplenish()
    }

    /** The cached listing of the pool's runners may be as old as the poll interval. */
    method ListKnown(scope: string, ghost listing: seq<Container>) returns (r: Result<map<string, Remote>>)
      requires Ready() && AllTrusted(listing, Now())
      modifies this`state, this`history, this`approved, this`pass, this`inflight, this`calls, this`epoch, store,
               host`world, host`file, host`poolIds
      ensures Ready() && old(history) <= history && Waited(old(Now()), Now(), {}) && AllTrusted(listing, Now())
      ensures (r == Err(Interrupted)) <==> pass.value.interrupted
      ensures host.quiet && !old(pass.value.interrupted) && AllShown(listing, old(Now())) ==> AllShown(listing, Now())
      ensures host.quiet && !old(pass.value.interrupted) ==> r.Ok? && Now() == old(Now()).(calls := calls)
    {
      ghost var before := Now();
      var listed := External(ListRunners(scope, true));
      TrustAfterCall(before, Now(), listing);
      if host.quiet && !before.pass.value.interrupted && AllShown(listing, before) {
        SameShown(before, Now(), listing);
      }
      r := if listed.Ok? then Ok(listed.value.runners) else Err(listed.error);
    }

    method LookAround(scope: string, poolId: string, listing: seq<Container>)
      returns (r: Result<(seq<Container>, map<string, Remote>)>)
      requires Ready() && !pass.value.interrupted && poolId == pass.value.state.id && AllTrusted(listing, Now())
      modifies this`state, this`history, this`approved, this`pass, this`inflight, this`calls, this`epoch, store,
               host`world, host`file, host`poolIds
      ensures Ready() && old(history) <= history && (pass == old(pass) || pass == Interrupt(old(pass)))
      ensures CallsGrow(old(calls), calls)
      ensures r.Ok? ==> !pass.value.interrupted && AllTrusted(r.value.0, Now())
      ensures host.quiet && AllShown(listing, old(Now())) ==>
                r.Ok? && AllShown(r.value.0, Now()) && QuietKept(old(Now()), Now(), old(ForcedIds(poolId)))
                && Defused(Now(), poolId, old(ForcedIds(poolId)))
    {
      var forced := ForceAndList(poolId, listing);
      if forced.Err? {
        return Err(forced.error);
      }
      var remotes := ListKnown(scope, forced.value);
      r := if remotes.Ok? then Ok((forced.value, remotes.value)) else Err(remotes.error);
    }

    /** The runs to be visited, and the same choice of retiring ones as Scale and Apply make. */
    method MarkAndList(name: string, poolId: string, ghost listing: seq<Container>) returns (ids: seq<string>)
      requires Ready() && !pass.value.interrupted && name == pass.value.name && poolId == pass.value.state.id
               && AllTrusted(listing, Now())
      modifies this`state, this`history, this`pass, store
      ensures Ready() && old(history) <= history && MarkedFrom(old(Now()), Now(), name)
      ensures Distinct(ids) && Upto(ids, |ids|) == IdsOf(old(Now()), name) && Pending(listing, Now(), poolId, ids, 0)
    {
      ghost var before := Now();
      PassHasPool(before);
      ids := ListInOrder(PoolRuns(state.runs, poolId));
      MarkPass(name);
      MarkKeepsTrust(before, Now(), name, listing);
      AllPending(Now(), listing, poolId, ids);
    }

    /** The loop, from the marked state on; `s0` is where the pass looked around and `s1` where it marked. */
    method RunMarked(name: string, pool: Pool, ids: seq<string>, listing: seq<Container>, remotes: map<string,
        Remote>, allow: bool,
                     ghost s0: Sys, ghost s1: Sys, ghost smooth: bool) returns (r: Result<nat>)
      requires Ready() && !pass.value.interrupted && About(name, pool, pass.value.state, allow)
      requires MarkedFrom(s1, Now(), name) && Distinct(ids) && Upto(ids, |ids|) == IdsOf(s1, name)
      requires Pending(listing, Now(), pass.value.state.id, ids, 0)
      requires smooth ==> host.quiet && Approach(s0, s1, Now(), name, listing) && Smooth(s0, name, allow)
      modifies this`counted, this`state, this`history, this`approved, this`pass, this`inflight, this`calls, this`epoch,
               this`bootTime, store, host`world, host`file, host`poolIds
      ensures Ready() && old(history) <= history && Continues(old(pass), pass)
      ensures CallsGrow(old(calls), calls)
      ensures r.Ok? ==> !pass.value.interrupted && pass.value.marked && counted == old(counted) + r.value
      ensures smooth ==> r.Ok? && Smoothed(s0, Now(), name) && (HealthyPool(s0, name) ==> r.value == 0)
    {
      ghost var s2 := Now();
      if smooth {
        SmoothSoFar(s0, s1, s2, name, listing, allow);
      }
      r := RunAll(name, pool.ApiScope(), ids, listing, remotes, allow);
      if smooth {
        SmoothToTheEnd(s0, s1, s2, Now(), name, listing, allow);
      }
    }

    method Visit(name: string, pool: Pool, ps: PoolState, listing: seq<Container>, allow: bool) returns (r: Result<nat>)
      requires Ready() && !pass.value.interrupted && About(name, pool, ps, allow) && AllTrusted(listing, Now())
      modifies this`counted, this`state, this`history, this`approved, this`pass, this`inflight, this`calls, this`epoch,
               this`bootTime, store, host`world, host`file, host`poolIds
      ensures Ready() && old(history) <= history && Continues(old(pass), pass)
      ensures CallsGrow(old(calls), calls)
      ensures r.Ok? ==> !pass.value.interrupted && pass.value.marked && counted == old(counted) + r.value
      ensures host.quiet && AllShown(listing, old(Now())) && old(Smooth(Now(), name, allow)) ==>
                r.Ok? && Smoothed(old(Now()), Now(), name) && (HealthyPool(old(Now()), name) ==> r.value == 0)
    {
      ghost var s0 := Now();
      PassHasPool(s0);
      var seen := LookAround(pool.ApiScope(), ps.id, listing);
      if seen.Err? {
        return Err(seen.error);
      }
      ghost var s1 := Now();
      var ids := MarkAndList(name, ps.id, seen.value.0);
      r := RunMarked(name, pool, ids, seen.value.0, seen.value.1, allow, s0, s1, host.quiet
          && AllShown(listing, s0) && Smooth(s0, name, allow));
    }

    /** The pass proper: every run in turn, then the pool's own business. */
    method VisitAndConclude(name: string, pool: Pool, ps: PoolState, listing: seq<Container>, unrecorded: nat,
        allow: bool)
      returns (r: Result<nat>, ghost mid: Sys, ghost added: Option<string>)
      requires Ready() && !pass.value.interrupted && About(name, pool, ps, allow) && AllTrusted(listing, Now())
               && counted == 0
      requires calls.strays == Some(unrecorded)
      modifies this`counted, this`state, this`history, this`approved, this`pass, this`inflight, this`calls, this`epoch,
               this`bootTime, store, host`world, host`file, host`poolIds, host`issued
      ensures Ended(r.Ok?) && old(history) <= history && Continues(old(pass), pass)
              && (r.Ok? ==> !pass.value.interrupted && r.value == counted) && (approved.Some? ==> r == Err(Failed))
      ensures host.quiet && AllShown(listing, old(Now())) && old(Smooth(Now(), name, allow))
              && (old(NoStrays(Now())) ==> unrecorded == 0) ==>
                QuietPass(old(Now()), mid, Now(), name, allow, r.Ok?, if r.Ok? then r.value else 0, unrecorded,
                    added) && r != Err(Interrupted)
    {
      added := None;
      r := Visit(name, pool, ps, listing, allow);
      mid := Now();
      if r.Ok? {
        r, added := Conclude(name, pool, ps, unrecorded, r.value, allow);
      }
    }

    /** `reconcile`: one pass over one pool. A stopped pool without runs needs no pass. */
    method Reconcile(name: string, allow: bool)
      returns (r: Result<nat>, ghost mid: Sys, ghost unrecorded: nat, ghost added: Option<string>)
      requires Ready() && !pass.value.interrupted && name in state.pools && Find(state.config.pools, name).Some?
      requires About(name, Find(state.config.pools, name).value, state.pools[name], allow) && counted == 0
               && calls.strays.None?
      modifies this`counted, this`state, this`history, this`approved, this`pass, this`inflight, this`calls, this`epoch,
               this`bootTime, store, host`world, host`file, host`poolIds, host`issued
      ensures Ended(r.Ok?) && old(history) <= history && Continues(old(pass), pass)
              && (r.Ok? ==> !pass.value.interrupted && r.value == counted) && (approved.Some? ==> r == Err(Failed))
      ensures host.quiet && old(Smooth(Now(), name, allow)) ==>
                QuietPass(old(Now()), mid, Now(), name, allow, r.Ok?, if r.Ok? then r.value else 0, unrecorded,
                    added) && r != Err(Interrupted)
    {
      unrecorded, added := 0, None;
      ghost var begun := Now();
      var pool := Find(state.config.pools, name).value;
      var ps := state.pools[name];
      var listed := ListContainers();
      mid := Now();
      ghost var seen := mid;
      if listed.Err? {
        return Err(listed.error), mid, unrecorded, added;
      }
      if host.quiet && Smooth(begun, name, allow) {
        SamePools(begun, seen, name);
      }
      r, mid, unrecorded, added := ReconcileListed(name, pool, ps, listed.value, allow);
      if host.quiet && Smooth(begun, name, allow) {
        SameStart(begun, seen, mid, Now(), name, allow, r.Ok?, if r.Ok? then r.value else 0, unrecorded, added);
      }
    }

    method ReconcileListed(name: string, pool: Pool, ps: PoolState, listing: seq<Container>, allow: bool)
      returns (r: Result<nat>, ghost mid: Sys, ghost unrecorded: nat, ghost added: Option<string>)
      requires Ready() && !pass.value.interrupted && About(name, pool, ps, allow) && AllTrusted(listing, Now())
               && counted == 0
      requires calls.strays == Some(Unrecorded(listing, state.runs))
      modifies this`counted, this`state, this`history, this`approved, this`pass, this`inflight, this`calls, this`epoch,
               this`bootTime, store, host`world, host`file, host`poolIds, host`issued
      ensures Ended(r.Ok?) && old(history) <= history && Continues(old(pass), pass)
              && (r.Ok? ==> !pass.value.interrupted && r.value == counted) && (approved.Some? ==> r == Err(Failed))
      ensures host.quiet && AllShown(listing, old(Now())) && ListingOf(listing, old(host.world), old(state).managerId)
              && old(Smooth(Now(), name, allow)) ==>
                QuietPass(old(Now()), mid, Now(), name, allow, r.Ok?, if r.Ok? then r.value else 0, unrecorded,
                    added) && r != Err(Interrupted)
    {
      added, mid := None, Now();
      var strays := Unrecorded(listing, state.runs);
      unrecorded := strays;
      if ListingOf(listing, host.world, state.managerId) && NoStrays(mid) {
        NothingUnrecorded(mid, listing);
      }
      if PoolRuns(state.runs, ps.id) == {} && !ps.running {
        r := ConcludeIdle(name, ps, strays);
      } else {
        r, mid, added := VisitAndConclude(name, pool, ps, listing, strays, allow);
      }
    }

    method ConcludeIdle(name: string, ps: PoolState, ghost unrecorded: nat) returns (r: Result<nat>)
      requires Ready() && !pass.value.interrupted && name == pass.value.name && ps == pass.value.state
      requires PoolRuns(state.runs, ps.id) == {} && !ps.running && counted == 0
      modifies this`state, this`history, this`approved, this`pass, store, host`file, host`poolIds
      ensures Ended(r.Ok?) && old(history) <= history && Continues(old(pass), pass)
              && (r.Ok? ==> !pass.value.interrupted && r.value == counted) && (approved.Some? ==> r == Err(Failed))
      ensures host.quiet && old(Smooth(Now(), name, pass.value.MayReplenish()))
              && old(calls).strays == Some(unrecorded) && (old(NoStrays(Now())) ==> unrecorded == 0) ==>
                QuietPass(old(Now()), old(Now()), Now(), name, old(pass).value.MayReplenish(), r.Ok?, if r.Ok?
                  then r.value else 0,
                          unrecorded, None) && r != Err(Interrupted)
    {
      ghost var before := Now();
      PassHasPool(before);
      IdleIsSmoothed(before, name);
      if ps.deleting {
        var ok := DeleteEmptyPool(name);
        r := if ok then Ok(0) else Err(Failed);
      } else {
        r := Ok(0);
      }
    }

    /* ---- tick ---- */

    /** An observation that failed is no evidence of what the runners do now. */
    method ForgetPhases(poolId: string)
      modifies this`state
      ensures state == old(state).(runs := state.runs) && state.runs.Keys == old(state.runs.Keys)
      ensures forall id :: id in state.runs ==>
                state.runs[id] == if old(state).runs[id].poolId == poolId then Forgotten(old(state).runs[id])
                  else old(state).runs[id]
    {
      ghost var st := state;
      var rest := state.runs.Keys;
      while rest != {}
        invariant rest <= st.runs.Keys
        invariant state == st.(runs := state.runs) && state.runs.Keys == st.runs.Keys
        invariant forall id :: id in st.runs ==>
                    state.runs[id] == if id !in rest && st.runs[id].poolId == poolId then Forgotten(st.runs[id])
                      else st.runs[id]
        decreases |rest|
      {
        var id :| id in rest;
        rest := rest - {id};
        if state.runs[id].poolId == poolId {
          state := state.(runs := state.runs[id := Forgotten(state.runs[id])]);
        }
      }
    }

    /** The pool's bookkeeping in memory; false when there is a failure to record and no pool left to record it for. */
    method KeepBooks(name: string, r: Result<nat>, retrying: bool, at: nat, jitter: nat, observed: nat)
      returns (ok: bool)
      modifies this`state
      ensures ok <==> name in old(state).pools || (r.Ok? && r.value == 0)
      ensures ok ==>
                && state == EndState(old(state), name, EndingOf(r), retrying, at, jitter, observed)
                && BooksKept(old(state), state, name, r, retrying, at, jitter, observed)
      ensures !ok ==> state == old(state)
    {
      ghost var st := state;
      BooksAreKept(st, name, r, retrying, at, jitter, observed);
      if name !in state.pools {
        return r.Ok? && r.value == 0;
      }
      var ps := state.pools[name];
      if r.Err? {
        ForgetPhases(ps.id);
        ps := RecordFailure(ps, at, jitter, Observation);
      } else if r.value > 0 {
        ps := RecordFailure(ps, at, jitter, Provisioning);
      } else if !retrying {
        ps := ps.(error := false, retryAt := 0);
      }
      state := state.(pools := state.pools[name := ps.(observedAt := observed)]);
      assert state.runs == EndState(st, name, EndingOf(r), retrying, at, jitter, observed).runs;
      ok := true;
    }

    /** After a pass that nothing interrupted. The tick fails when the pool has gone and config.toml could not be
        written. */
    method EndOfPass(name: string, r: Result<nat>, retrying: bool)
      returns (ok: bool, ghost at: nat, ghost jitter: nat, ghost observed: nat)
      requires Recorded() && Sound(Now()) && inflight.None? && pass.Some? && !pass.value.interrupted
               && pass.value.name == name
      requires (approved.Some? ==> r.Err? && name !in state.pools) && (name !in state.pools ==> pass.value.closed)
      requires retrying == (pass.value.deadline > pass.value.at) && (r.Ok? ==> r.value == counted)
      modifies this`state, this`history, this`approved, this`pass, store
      ensures Recorded() && Sound(Now()) && old(history) <= history && approved.None? && pass.None? && inflight.None?
      ensures ok <==> !history[|history| - 1].did.Abandon?
      ensures ok <==> name in old(state).pools || (r.Ok? && r.value == 0)
      ensures ok ==>
                Now() == old(Now()).(mem := EndState(old(state), name, EndingOf(r), retrying, at, jitter, observed),
                    disk := state, pass := None)
      ensures ok ==> BooksKept(old(state), state, name, r, retrying, at, jitter, observed)
      ensures !ok ==> Now() == old(Now()).(approved := None, pass := None)
    {
      ghost var before := Now();
      var clock := host.Clock();
      var j := host.Jitter();
      var seen := host.Clock();
      at, jitter, observed := clock, j, seen;
      ok := KeepBooks(name, r, retrying, clock, j, seen);
      pass := None;
      if ok {
        Save();
        Allow(before, EndPass(EndingOf(r), at, jitter, observed), Now());
        Log(EndPass(EndingOf(r), at, jitter, observed), before);
      } else {
        approved := None;
        Allow(before, Abandon, Now());
        Log(Abandon, before);
      }
    }

    method SaveAfterInterruption()
      requires Recorded() && Sound(Now()) && inflight.None? && pass.Some? && approved.None?
      modifies this`history, this`pass, store
      ensures Recorded() && Sound(Now()) && old(history) <= history && pass.None?
      ensures !history[|history| - 1].did.Abandon?
      ensures Now() == old(Now()).(disk := state, pass := None)
    {
      ghost var before := Now();
      Save();
      pass := None;
      Allow(before, SaveInterrupted, Now());
      Log(SaveInterrupted, before);
    }

    method BeginPass(name: string, at: nat)
      requires Valid() && pass.None? && inflight.None? && name in state.pools
      requires !(state.pools[name].retryAt > at && state.pools[name].retryScope == Observation)
      modifies this`counted, this`calls, this`history, this`pass, this`reconcileEpoch
      ensures Ready() && old(history) <= history && Begun(old(Now()), Now(), name, at)
    {
      ghost var before := Now();
      PoolIsConfigured(before, name);
      reconcileEpoch := Some(epoch);
      counted, calls := 0, NoCalls;
      pass := Some(Pass(name, at, state.pools[name].retryAt, Find(state.config.pools, name).value, state.pools[name],
          false, false, false));
      Allow(before, Label.BeginPass(pass.value), Now());
      Log(Label.BeginPass(pass.value), before);
    }

    /** The report of an interrupted pass is thrown away. */
    method FinishPass(name: string, r: Result<nat>, retrying: bool) returns (ok: bool)
      requires Ended(r.Ok?) && pass.value.name == name && retrying == (pass.value.deadline > pass.value.at)
      requires (approved.Some? ==> r == Err(Failed)) && (r.Ok? ==> r.value == counted)
      modifies this`state, this`history, this`approved, this`pass, this`reconcileEpoch, store
      ensures Valid() && pass.None? && inflight.None? && old(history) <= history && (!ok ==> name !in state.pools)
      ensures old(pass.value.interrupted) || r == Err(Interrupted) ==>
                ok && Now() == old(Now()).(disk := old(state), pass := None)
      ensures ok <==> !history[|history| - 1].did.Abandon?
      ensures !old(pass.value.interrupted) && r != Err(Interrupted) ==>
                EndedAs(old(Now()), Now(), name, EndingOf(r), retrying)
                    && (ok <==> name in old(state.pools) || r == Ok(0))
    {
      ghost var before := Now();
      var interrupted := reconcileEpoch.value != epoch;
      reconcileEpoch := None;
      if interrupted || r == Err(Interrupted) {
        SaveAfterInterruption();
        return true;
      }
      ghost var at, jitter, observed;
      if !pass.value.closed {
        PassHasPool(before);
      }
      ok, at, jitter, observed := EndOfPass(name, r, retrying);
      if ok {
        EndIsBookkeeping(before, Now(), name, EndingOf(r), retrying, at, jitter, observed);
      }
    }

    /** One pass, from `reconcile_epoch` being set to its being cleared. */
    method RunPass(name: string, at: nat) returns (ok: bool, ghost unrecorded: nat, ghost added: Option<string>)
      requires Valid() && pass.None? && inflight.None? && name in state.pools
      requires !(state.pools[name].retryAt > at && state.pools[name].retryScope == Observation)
      modifies this`counted, this`state, this`history, this`approved, this`pass, this`inflight, this`calls, this`epoch,
               this`bootTime, this`reconcileEpoch, store, host`world, host`file, host`poolIds, host`issued
      ensures Valid() && pass.None? && inflight.None? && old(history) <= history && |history| > |old(history)|
      ensures (ok <==> !history[|history| - 1].did.Abandon?) && (!ok ==> name !in state.pools)
      ensures host.quiet && host.start <= at && Drainable(old(Now()), name) ==> DrainedOut(old(Now()), Now(), name)
      ensures host.quiet && host.start <= at && SteadyPool(old(Now()), name, host.start) ==>
                ok && Turned(old(Now()), Now(), name, unrecorded, added)
    {
      ghost var s := Now();
      var retryAt := state.pools[name].retryAt;
      BeginPass(name, at);
      ghost var b := Now();
      var r;
      ghost var mid;
      r, mid, unrecorded, added := Reconcile(name, ReplenishmentAllowed(retryAt, at));
      ok := FinishTurn(name, r, retryAt > at, s, b, mid, at, unrecorded, added);
    }

    method FinishTurn(name: string, r: Result<nat>, retrying: bool, ghost s: Sys, ghost b: Sys, ghost mid: Sys,
        ghost at: nat, ghost unrecorded: nat, ghost added: Option<string>)
      returns (ok: bool)
      requires Ended(r.Ok?) && pass.value.name == name && retrying == (pass.value.deadline > pass.value.at)
      requires (approved.Some? ==> r == Err(Failed)) && (r.Ok? ==> r.value == counted)
      requires Begun(s, b, name, at) && retrying == (b.pass.value.deadline > at)
      requires host.quiet && Smooth(b, name, b.pass.value.MayReplenish()) ==>
                && r != Err(Interrupted)
                && QuietPass(b, mid, Now(), name, b.pass.value.MayReplenish(), r.Ok?, if r.Ok? then r.value else 0,
                       unrecorded, added)
      modifies this`state, this`history, this`approved, this`pass, this`reconcileEpoch, store
      ensures Valid() && pass.None? && inflight.None? && old(history) <= history
      ensures (ok <==> !history[|history| - 1].did.Abandon?) && (!ok ==> name !in state.pools)
      ensures host.quiet && host.start <= at && Drainable(s, name) ==> DrainedOut(s, Now(), name)
      ensures host.quiet && host.start <= at && SteadyPool(s, name, host.start) ==>
                ok && Turned(s, Now(), name, unrecorded, added)
    {
      ghost var d := Now();
      ok := FinishPass(name, r, retrying);
      if host.quiet && host.start <= at {
        PassIsTurn(s, b, mid, d, Now(), name, at, host.start, r, unrecorded, added);
      }
    }

    /** `tick`: the pool in turn is visited. */
    method Tick() returns (ok: bool, ghost unrecorded: nat, ghost added: Option<string>)
      requires Valid() && pass.None? && inflight.None?
      modifies this`counted, this`state, this`history, this`approved, this`pass, this`inflight, this`calls, this`epoch,
               this`bootTime, this`reconcileEpoch, this`cursor, store, host`world, host`file, host`poolIds,
               host`issued
      ensures Valid() && pass.None? && inflight.None? && old(history) <= history
      ensures !ok <==> |history| > |old(history)| && history[|history| - 1].did.Abandon?
      ensures !ok ==> old(state).pools != map[] && InTurn(SortedNames(old(state)), old(cursor)) !in state.pools
      ensures old(state).pools == map[] ==> cursor == old(cursor)
      ensures old(state).pools != map[] && old(cursor) < 0xFFFF_FFFF_FFFF_FFFF ==> cursor == old(cursor) + 1
      ensures old(state).pools != map[] && old(cursor) == 0xFFFF_FFFF_FFFF_FFFF ==> cursor == 0
      ensures host.quiet && old(state).pools != map[] ==>
                TakesTurn(old(Now()), Now(), old(cursor), host.start, ok, unrecorded, added)
    {
      ok, unrecorded, added := true, 0, None;
      var names := SortedNames(state);
      HasTurns(state, cursor);
      if names == [] {
        return;
      }
      var name := InTurn(names, cursor);
      cursor := NextCursor(cursor);
      assert Now() == old(Now()) && name == InTurn(SortedNames(state), old(cursor));
      ok, unrecorded, added := VisitPool(name, old(cursor));
    }

    /** A pass over the pool, unless a failed observation is backing off. */
    method VisitPool(name: string, ghost turn: nat)
      returns (ok: bool, ghost unrecorded: nat, ghost added: Option<string>)
      requires Valid() && pass.None? && inflight.None? && name in state.pools
      requires Due(Now(), turn, name)
      modifies this`counted, this`state, this`history, this`approved, this`pass, this`inflight, this`calls, this`epoch,
               this`bootTime, this`reconcileEpoch, store, host`world, host`file, host`poolIds, host`issued
      ensures Valid() && pass.None? && inflight.None? && old(history) <= history
      ensures !ok <==> |history| > |old(history)| && history[|history| - 1].did.Abandon?
      ensures !ok ==> name !in state.pools
      ensures host.quiet ==> TakesTurn(old(Now()), Now(), turn, host.start, ok, unrecorded, added)
    {
      ok, unrecorded, added := true, 0, None;
      ghost var before := Now();
      var at := host.Clock();
      if state.pools[name].retryAt > at && state.pools[name].retryScope == Observation {
        if host.quiet {
          SkippedTurn(before, name, host.start);
          TakesTurnWhen(before, before, name, turn, host.start, true, 0, None);
        }
        return;
      }
      ok, unrecorded, added := RunPass(name, at);
      if host.quiet {
        TakesTurnWhen(before, Now(), name, turn, host.start, ok, unrecorded, added);
      }
    }

    method QuietTick(ghost first: Sys, ghost c: nat, ghost i: nat)
      requires Valid() && pass.None? && inflight.None? && host.quiet
      requires OnCourse(first, Now(), c, host.start, i) && cursor == c + i && cursor + 1 < CURSORS
      modifies this`counted, this`state, this`history, this`approved, this`pass, this`inflight, this`calls, this`epoch,
               this`bootTime, this`reconcileEpoch, this`cursor, store, host`world, host`file, host`poolIds,
               host`issued
      ensures Valid() && pass.None? && inflight.None? && old(history) <= history
      ensures cursor == old(cursor) + 1 && OnCourse(first, Now(), c, host.start, i + 1)
    {
      ghost var before := Now();
      CourseHasPools(first, before, c, host.start, i);
      var ok;
      ghost var unrecorded, added;
      ok, unrecorded, added := Tick();
      CourseHolds(first, before, Now(), c, host.start, i, ok, unrecorded, added);
    }

    /** Ticks in a row while nothing disturbs them. */
    method QuietTicks(k: nat)
      requires Valid() && pass.None? && inflight.None? && host.quiet && OnCourse(Now(), Now(), cursor, host.start, 0)
      requires cursor + k < CURSORS
      modifies this`counted, this`state, this`history, this`approved, this`pass, this`inflight, this`calls, this`epoch,
               this`bootTime, this`reconcileEpoch, this`cursor, store, host`world, host`file, host`poolIds,
               host`issued
      ensures Valid() && pass.None? && inflight.None? && old(history) <= history
      ensures cursor == old(cursor) + k && OnCourse(old(Now()), Now(), old(cursor), host.start, k)
    {
      ghost var first := Now();
      ghost var c := cursor;
      for i := 0 to k
        invariant Valid() && pass.None? && inflight.None? && old(history) <= history
        invariant cursor == c + i && OnCourse(first, Now(), c, host.start, i)
      {
        QuietTick(first, c, i);
      }
    }

    /** Left alone, with every pool healthy, each running pool gains one runner a round until it has its replicas,
        and never one more; draining runners stay and count. */
    method LeftAlone(rounds: nat)
      requires Valid() && pass.None? && inflight.None? && host.quiet && Steady(Now(), host.start)
               && state.pools != map[]
      requires cursor + rounds * |state.pools| < CURSORS
      modifies this`counted, this`state, this`history, this`approved, this`pass, this`inflight, this`calls, this`epoch,
               this`bootTime, this`reconcileEpoch, this`cursor, store, host`world, host`file, host`poolIds,
               host`issued
      ensures Valid() && pass.None? && inflight.None? && old(history) <= history
      ensures Steady(Now(), host.start) && state.pools.Keys == old(state).pools.Keys
              && state.config == old(state).config
      ensures forall name :: name in old(state).pools ==>
                |IdsOf(Now(), name)| == AfterRounds(old(Now()), name, rounds)
    {
      ghost var first := Now();
      ghost var c := cursor;
      CourseStarts(first, c, host.start);
      QuietTicks(rounds * |state.pools|);
      RoundsReached(first, Now(), c, host.start, rounds);
    }
  }

  lemma MarkAllStep(st: State, names: seq<string>, i: nat)
    requires TablesAgree(st) && i < |names| && names[i] in st.pools
    ensures var before := MarkAll(st, names[..i]);
            && names[i] in before.pools && Find(before.config.pools, names[i]).Some?
            && MarkAll(st, names[..i + 1]) == MarkRetiring(before, names[i])
  {
    MarkAllKeepsTables(st, names[..i]);
    assert names[..i + 1][..i] == names[..i];
    assert names[i] in Names(st.config.pools);
  }

  /** The pool states that the loop of Apply has collected after `i` pools. */
  ghost predicate Collected(st: State, next: Config, i: nat, pools: map<string, PoolState>, ids: map<string, string>,
      used: set<string>) {
    && i <= |next.pools|
    && pools.Keys == st.pools.Keys + Names(next.pools[..i])
    && ids.Keys == Names(next.pools[..i]) - st.pools.Keys
    && (forall n {:trigger EntryIs(st, next, ids, n, i, pools)} :: n in pools ==> EntryIs(st, next, ids, n, i, pools))
    && UnusedIds(ids, used)
  }

  ghost predicate EntryIs(st: State, next: Config, ids: map<string, string>, n: string, i: nat, pools: map<string,
      PoolState>)
    requires i <= |next.pools| && n in pools
  {
    pools[n] == EntryAfter(st, next, ids, n, n in Names(next.pools[..i]))
  }

  ghost predicate UnusedIds(ids: map<string, string>, used: set<string>) {
    && (forall n :: n in ids ==> ids[n] !in used)
    && (forall m, n :: m in ids && n in ids && m != n ==> ids[m] != ids[n])
  }

  lemma OneMoreId(ids: map<string, string>, used: set<string>, name: string, id: string)
    requires UnusedIds(ids, used) && name !in ids && id !in used + ids.Values
    ensures UnusedIds(ids[name := id], used)
  {
    forall n | n in ids ensures ids[n] != id {
      assert ids[n] in ids.Values;
    }
  }

  /** The pool at position i, alone under its name and not met before. */
  ghost predicate IsNext(next: Config, i: nat, name: string) {
    && i < |next.pools| && next.pools[i].name == name
    && Find(next.pools, name) == Some(next.pools[i])
    && Names(next.pools[..i + 1]) == Names(next.pools[..i]) + {name}
    && name !in Names(next.pools[..i])
  }

  function EntryAfter(st: State, next: Config, ids: map<string, string>, n: string, done: bool): PoolState {
    if n !in st.pools then NewPool(if n in ids then ids[n] else "")
    else if done && n in Names(next.pools) && n in Names(st.config.pools)
        && !SameSettings(Find(st.config.pools, n).value, Find(next.pools, n).value)
    then st.pools[n].(generation := st.pools[n].generation + 1)
    else st.pools[n]
  }

  lemma EntryWhenEdited(st: State, next: Config, ids: map<string, string>, was: Pool, edited: Pool)
    requires edited.name in st.pools && Find(st.config.pools, edited.name) == Some(was)
             && Find(next.pools, edited.name) == Some(edited)
    ensures edited.name in Names(st.config.pools) && edited.name in Names(next.pools)
    ensures Editable(st, next, edited.name) == MayEdit(st, was, edited)
    ensures var ps := st.pools[edited.name];
            EntryAfter(st, next, ids, edited.name, true) ==
            if SameSettings(was, edited) then ps else ps.(generation := ps.generation + 1)
  {
  }

  ghost predicate Editable(st: State, next: Config, n: string) {
    n in Names(st.config.pools) && n in Names(next.pools) ==>
        MayEdit(st, Find(st.config.pools, n).value, Find(next.pools, n).value)
  }

  /** A pool that has not had its turn is as it was. */
  lemma CollectedStill(st: State, next: Config, i: nat, name: string, pools: map<string, PoolState>, ids: map<string,
      string>, used: set<string>)
    requires IsNext(next, i, name) && Collected(st, next, i, pools, ids, used) && name in st.pools
    ensures name in pools && pools[name] == st.pools[name]
  {
    assert EntryIs(st, next, ids, name, i, pools);
  }

  lemma CollectEdited(st: State, next: Config, i: nat, name: string, pools: map<string, PoolState>, ids: map<string,
      string>, used: set<string>, after: map<string, PoolState>)
    requires IsNext(next, i, name) && Collected(st, next, i, pools, ids, used)
    requires name in Names(st.config.pools) && name in st.pools && name in Names(next.pools)
    requires after == pools[name := EntryAfter(st, next, ids, name, true)]
    ensures Collected(st, next, i + 1, after, ids, used)
  {
    forall n | n in after ensures EntryIs(st, next, ids, n, i + 1, after) {
      if n != name { assert EntryIs(st, next, ids, n, i, pools); }
    }
  }

  lemma CollectAdded(st: State, next: Config, i: nat, name: string, pools: map<string, PoolState>, ids: map<string,
      string>, used: set<string>, id: string)
    requires IsNext(next, i, name) && Collected(st, next, i, pools, ids, used)
    requires name !in st.pools && id !in used + ids.Values
    ensures Collected(st, next, i + 1, pools[name := NewPool(id)], ids[name := id], used)
  {
    var after, named := pools[name := NewPool(id)], ids[name := id];
    forall n | n in after ensures EntryIs(st, next, named, n, i + 1, after) {
      if n != name { assert EntryIs(st, next, ids, n, i, pools); }
    }
    OneMoreId(ids, used, name, id);
  }

  lemma MayApplyWhen(st: State, next: Config)
    requires Names(st.config.pools) <= Names(next.pools)
    ensures MayApply(st, next) <==>
              && (forall n :: n in Names(next.pools) ==> Editable(st, next, n))
              && !(exists id :: id in st.runs && st.runs[id].pool.auth !in next.auth)
  {
    forall n | n in Names(st.config.pools)
      ensures Editable(st, next, n) <==> MayEdit(st, Find(st.config.pools, n).value, Find(next.pools, n).value)
    {
    }
  }

  lemma CollectNothing(st: State, next: Config, used: set<string>)
    ensures Collected(st, next, 0, st.pools, map[], used)
  {
    assert next.pools[..0] == [];
    forall n | n in st.pools ensures EntryIs(st, next, map[], n, 0, st.pools) {
    }
  }

  lemma CollectedIsApplied(st: State, next: Config, pools: map<string, PoolState>, ids: map<string, string>,
      used: set<string>)
    requires Collected(st, next, |next.pools|, pools, ids, used)
    ensures pools == AppliedPools(st, next, ids)
  {
    assert next.pools[..|next.pools|] == next.pools;
    var applied := AppliedPools(st, next, ids);
    assert pools.Keys == applied.Keys;
    forall n | n in pools ensures pools[n] == applied[n] {
      assert EntryIs(st, next, ids, n, |next.pools|, pools);
      LastEntryIsApplied(st, next, ids, n);
    }
  }

  lemma LastEntryIsApplied(st: State, next: Config, ids: map<string, string>, n: string)
    requires n in st.pools || n in Names(next.pools)
    ensures AppliedPools(st, next, ids)[n] == EntryAfter(st, next, ids, n, n in Names(next.pools))
  {
  }

  lemma NextName(next: Config, i: nat)
    requires UniqueNames(next.pools) && i < |next.pools|
    ensures IsNext(next, i, next.pools[i].name)
  {
    FindIsUnique(next.pools, next.pools[i]);
    forall j | 0 <= j < i ensures next.pools[j].name != next.pools[i].name {
      assert NamedApart(next.pools, j, i);
    }
    assert next.pools[..i + 1] == next.pools[..i] + [next.pools[i]];
  }

  lemma TablesOf(s: Sys)
    requires Sound(s)
    ensures TablesAgree(s.mem) && s.mem.pools.Keys == Names(s.mem.config.pools)
  {
    IsSound(s);
  }

  lemma PoolExists(s: Sys, name: string)
    requires Sound(s) && Find(s.mem.config.pools, name).Some?
    ensures name in s.mem.pools
  {
    IsSound(s);
  }

  lemma ApplyIsMarking(st: State, req: Request)
    requires req.Apply?
    ensures Finished(st, req) == MarkAll(st, SortedNames(st))
  {
  }

  lemma FinishIsMarking(before: Sys, s: Sys, req: Request)
    requires Sound(s) && (req.Scale? || req.Upgrade?) && Proposed(before.mem, before.file, req, map[]) == Some(s.mem)
    ensures req.name in s.mem.pools && Find(s.mem.config.pools, req.name).Some?
    ensures Finished(s.mem, req) == MarkRetiring(s.mem, req.name)
  {
    IsSound(s);
    assert s.mem.pools.Keys == Names(s.mem.config.pools);
    assert req.name in s.mem.pools;
    assert [req.name][..0] == [];
    assert MarkAll(s.mem, []) == s.mem;
  }

  lemma OneMoreHaltedRun(st: State, done: set<string>, name: string, deleting: bool, force: bool, id: string)
    requires name in st.pools && id in st.runs
    ensures var r := HaltAll(st, done, deleting, force).runs[id];
            HaltAll(st, done + {name}, deleting, force).runs[id] ==
            if st.runs[id].poolId == st.pools[name].id then Retire(r, force) else r
  {
    OneMoreTarget(st.pools, done, name, st.runs[id]);
  }

  lemma OneMoreHaltedPool(st: State, done: set<string>, name: string, deleting: bool, force: bool)
    requires name in st.pools
    ensures var pools := HaltAll(st, done, deleting, force).pools;
            HaltAll(st, done + {name}, deleting, force).pools == pools[name := Halted(pools[name], deleting, force)]
  {
  }

  lemma OneMoreHalted(st: State, done: set<string>, name: string, deleting: bool, force: bool, before: State,
      after: State)
    requires name in st.pools && before == HaltAll(st, done, deleting, force)
    requires after == before.(pools := before.pools[name := Halted(before.pools[name], deleting, force)],
        runs := after.runs)
    requires after.runs.Keys == before.runs.Keys
    requires forall id :: id in after.runs ==>
               after.runs[id] == if before.runs[id].poolId == st.pools[name].id
                 then Retire(before.runs[id], force) else before.runs[id]
    ensures after == HaltAll(st, done + {name}, deleting, force)
  {
    OneMoreHaltedPool(st, done, name, deleting, force);
    var runs := HaltAll(st, done + {name}, deleting, force).runs;
    forall id | id in st.runs ensures after.runs[id] == runs[id] {
      OneMoreHaltedRun(st, done, name, deleting, force, id);
    }
    assert after.runs == runs;
  }

  lemma OneMoreTarget(pools: map<string, PoolState>, done: set<string>, name: string, r: Run)
    requires name in pools
    ensures Targeted(pools, done + {name}, r) <==> Targeted(pools, done, r) || r.poolId == pools[name].id
  {
  }

  lemma HaltNothing(st: State, deleting: bool, force: bool)
    ensures HaltAll(st, {}, deleting, force) == st
  {
    var after := HaltAll(st, {}, deleting, force);
    assert after.pools == st.pools && after.runs == st.runs;
  }

  /** What a directory without a state database may look like. */
  ghost predicate Untouched(w: World) {
    && (forall n :: n in w.containers ==> w.containers[n].name == n && !w.containers[n].ours)
    && w.dirs == {} && RemoteIdsOk(w)
  }

  /** `Engine::open`: the stored state, or a new one from config.toml. After a crash the history goes on. */
  method Open(store: Store, host: Host, ghost past: seq<Entry>) returns (e: Engine?)
    requires store.row.Some? ==>
               && past != [] && Lawful(past) && Last(past).disk == store.row.value
               && Last(past).world == host.world && Last(past).file == host.file
               && Last(past).issued == host.issued && Last(past).poolIds == host.poolIds
    requires store.row.None? ==> Untouched(host.world) && host.issued == {}
    modifies store, host`poolIds
    ensures e != null ==> fresh(e) && e.store == store && e.host == host && e.Valid() && store.row == Some(e.state)
    ensures old(store.row).Some? ==>
              e != null && store.row == old(store.row) && e.history == past + [Entry(Crash, e.Now())]
    ensures old(store.row).None? ==>
              (e != null <==> host.file.Some? && host.file.value.Parsed().Some?
                              && ValidConfig(host.file.value.Parsed().value))
    ensures old(store.row).None? && e != null ==>
              && host.file.Some? && host.file.value.Parsed() == Some(e.state.config)
              && e.state.fileHash == host.file.value && e.state.revision == 1 && e.state.runs == map[]
              && e.state.pools.Keys == Names(e.state.config.pools)
              && forall n :: n in e.state.pools ==> !e.state.pools[n].running
    ensures old(store.row).None? && e == null ==> store.row.None?
  {
    var row := store.Load();
    if row.Some? {
      IsLawful(past);
      HistoryHasInv(past, |past| - 1);
      e := new Engine(store, host, row.value, past);
      Allow(Last(past), Crash, e.Now());
      e.Log(Crash, Last(past));
      return;
    }
    if host.file.None? || host.file.value.Parsed().None? {
      return null;
    }
    var config := host.file.value.Parsed().value;
    var valid := Validate(config);
    if !valid {
      return null;
    }
    var pools: map<string, PoolState> := map[];
    for i := 0 to |config.pools|
      invariant pools.Keys == Names(config.pools[..i]) && DistinctIds(pools)
      invariant forall n :: n in pools ==> pools[n].id in host.poolIds && pools[n] == NewPool(pools[n].id)
      invariant host.world == old(host.world) && host.issued == {} && host.file == old(host.file)
    {
      var id := host.Uuid(host.poolIds);
      assert config.pools[..i + 1] == config.pools[..i] + [config.pools[i]];
      OneMoreDistinctId(pools, config.pools[i].name, NewPool(id));
      pools := pools[config.pools[i].name := NewPool(id)];
      host.poolIds := host.poolIds + {id};
    }
    assert config.pools[..|config.pools|] == config.pools;
    var managerId := host.Uuid({});
    var st := State(managerId, 1, config, host.file.value, pools, map[]);
    store.Save(st);
    e := new Engine(store, host, st, []);
    FirstStateHasInv(e.Now());
    e.history := [Entry(Boot, e.Now())];
  }

  lemma OneMoreDistinctId(pools: map<string, PoolState>, name: string, ps: PoolState)
    requires DistinctIds(pools) && forall n :: n in pools ==> pools[n].id != ps.id
    ensures DistinctIds(pools[name := ps])
  {
    var after := pools[name := ps];
    forall m: string, n: string ensures IdsApart(after, m, n) {
      assert IdsApart(pools, m, n);
    }
  }

  lemma FirstStateHasInv(s: Sys)
    requires TablesAgree(s.mem) && s.mem.runs == map[] && s.disk == s.mem
    requires s.approved.None? && s.pass.None? && s.inflight.None? && s.counted == 0 && s.calls == NoCalls
             && s.issued == {}
    requires forall n :: n in s.mem.pools ==>
              s.mem.pools[n].id in s.poolIds && s.mem.pools[n] == NewPool(s.mem.pools[n].id)
    requires Untouched(s.world)
    ensures Initial(s) && Sound(s)
  {
    forall n | n in s.world.containers ensures ContainerOk(s.disk, s.world, {}, n) {
    }
    forall k | k in s.world.registrations ensures RegistrationOk(s.disk, s.world, {}, k) {
    }
    InitialHasInv(s);
  }
}
