/** Run records in every history of the manager: any requests, any movement outside, any crashes. */
module Records {
  import opened Basics
  import opened Config
  import opened States
  import opened Retiring
  import opened Requests
  import opened Backoff
  import opened Worlds
  import opened Protocol
  import opened Invariants
  import opened Histories
  import opened Awaits

  /* A lawful history is a behaviour: see Histories. */

  lemma InvAt(h: seq<Entry>, i: nat)
    requires Lawful(h) && i < |h|
    ensures Inv(h[i].sys)
  {
    IsLawful(h);
    HistoryHasInv(h, i);
  }

  lemma InvAround(h: seq<Entry>, i: nat)
    requires Lawful(h) && i + 1 < |h|
    ensures Inv(h[i].sys) && Step(h[i].sys, h[i + 1].did, h[i + 1].sys)
  {
    IsLawful(h);
    HistoryHasInv(h, i);
    assert StepAt(h, i);
  }

  /* ---- No orphans ---- */

  /** Every container the manager created, every registration under one of its run ids and every run directory
      has a record in the store, and the record's labels and scope are those of the thing itself. */
  lemma NoOrphansEver(h: seq<Entry>, i: nat)
    requires Lawful(h) && i < |h|
    ensures var s := h[i].sys;
            && (forall n :: n in s.world.containers && s.world.containers[n].ours ==>
                  && n in s.disk.runs && n in s.mem.runs
                  && s.world.containers[n].manager == Some(s.disk.managerId) && s.world.containers[n].run == Some(n)
                  && s.world.containers[n].pool == Some(s.disk.runs[n].poolId)
                  && s.world.containers[n].scope == s.disk.runs[n].pool.ApiScope())
            && (forall k :: k in s.world.registrations && k.1 in s.issued ==>
                  k.1 in s.disk.runs && k.0 == s.disk.runs[k.1].pool.ApiScope())
            && s.world.dirs <= s.disk.runs.Keys
  {
    InvAt(h, i);
    var s := h[i].sys;
    forall n | n in s.world.containers && s.world.containers[n].ours
      ensures n in s.disk.runs && n in s.mem.runs
      ensures s.world.containers[n].manager == Some(s.disk.managerId) && s.world.containers[n].run == Some(n)
      ensures s.world.containers[n].pool == Some(s.disk.runs[n].poolId)
      ensures s.world.containers[n].scope == s.disk.runs[n].pool.ApiScope()
    {
      assert ContainerOk(s.disk, s.world, s.issued, n);
    }
    forall k | k in s.world.registrations && k.1 in s.issued
      ensures k.1 in s.disk.runs && k.0 == s.disk.runs[k.1].pool.ApiScope()
    {
      assert RegistrationOk(s.disk, s.world, s.issued, k);
    }
  }

  /** A runner's registration is where its pool looks for it, and the pool's credential profile exists. */
  lemma CleanupLooksInTheRightScope(h: seq<Entry>, i: nat, id: string)
    requires Lawful(h) && i < |h| && id in h[i].sys.mem.runs
    ensures var st := h[i].sys.mem;
            var p := Find(st.config.pools, st.runs[id].pool.name);
            && p.Some? && p.value.auth in st.config.auth && p.value.auth == st.runs[id].pool.auth
            && forall scope :: (scope, id) in h[i].sys.world.registrations ==> scope == p.value.ApiScope()
  {
    InvAt(h, i);
    var s := h[i].sys;
    ScopeIsStable(s.mem, id);
    NearGivesIdentities(s.mem, s.disk);
    forall scope | (scope, id) in s.world.registrations ensures scope == s.mem.runs[id].pool.ApiScope() {
      assert RegistrationOk(s.disk, s.world, s.issued, (scope, id));
    }
  }

  /* ---- Records and intent ---- */

  /** What never changes in a record, and what never goes back. */
  ghost predicate Persists(a: Run, b: Run) {
    && a.id == b.id && a.poolId == b.poolId && a.pool == b.pool && a.generation == b.generation
       && a.createdAt == b.createdAt
    && (a.retiring ==> b.retiring) && (a.force ==> b.force)
  }

  ghost predicate RecordPersists(s: Sys, t: Sys, id: string) {
    id in t.disk.runs && id in s.issued ==> id in s.disk.runs && Persists(s.disk.runs[id], t.disk.runs[id])
  }

  ghost predicate AllPersist(s: Sys, t: Sys) {
    && s.issued <= t.issued
    && forall id {:trigger RecordPersists(s, t, id)} :: RecordPersists(s, t, id)
  }

  lemma EvolvedRecordsPersist(s: Sys, t: Sys)
    requires Inv(s) && Evolves(s.mem, t.disk) && s.issued <= t.issued
    ensures AllPersist(s, t)
  {
    forall id ensures RecordPersists(s, t, id) {
      if id in t.disk.runs {
        assert NearRun(s.mem, s.disk, id);
      }
    }
  }

  lemma RequestKeepsRecords(s: Sys, l: Label, t: Sys)
    requires Inv(s) && Step(s, l, t) && (l.Intent? || l.Commit? || l.Finish?)
    ensures AllPersist(s, t)
  {
    RequestEvolves(s, l, t);
    EvolvedRecordsPersist(s, t);
  }

  lemma RequestEvolves(s: Sys, l: Label, t: Sys)
    requires Inv(s) && Step(s, l, t) && (l.Intent? || l.Commit? || l.Finish?)
    ensures Evolves(s.mem, t.disk) && t.issued == s.issued
  {
    match l {
      case Intent(req) => IntentKeepsInvariant(s.mem, req);
      case Commit(req, ids) =>
        ProposalKeepsInvariant(s.mem, s.file, req, ids, s.poolIds);
        SameRunsEvolves(s.mem, t.mem);
      case Finish(req) => FinishKeepsInvariant(s.mem, req);
    }
  }

  lemma MemoryPersists(s: Sys, t: Sys)
    requires Inv(s) && s.issued <= t.issued
    requires forall id :: id in t.disk.runs && id in s.issued ==>
              id in s.mem.runs && Persists(s.mem.runs[id], t.disk.runs[id])
    ensures AllPersist(s, t)
  {
    forall id ensures RecordPersists(s, t, id) {
      if id in t.disk.runs && id in s.issued {
        assert NearRun(s.mem, s.disk, id);
      }
    }
  }

  lemma NoteKeepsRecords(s: Sys, l: Label, t: Sys)
    requires Inv(s) && Step(s, l, t) && l.Note?
    ensures AllPersist(s, t)
  {
    assert Persists(s.mem.runs[l.noted.id], l.noted);
    MemoryPersists(s, t);
  }

  lemma MarkKeepsRecords(s: Sys, l: Label, t: Sys)
    requires Inv(s) && Step(s, l, t) && l.Mark?
    ensures AllPersist(s, t)
  {
    MemoryPersists(s, t);
  }

  lemma TableKeepsRecords(s: Sys, l: Label, t: Sys)
    requires Inv(s) && Step(s, l, t) && (l.Insert? || l.Drop? || l.DeletePool?)
    ensures AllPersist(s, t)
  {
    MemoryPersists(s, t);
  }

  lemma EndStatePersists(st: State, name: string, ending: Ending, retrying: bool, at: nat, jitter: nat, observed: nat)
    ensures var after := EndState(st, name, ending, retrying, at, jitter, observed);
            after.runs.Keys == st.runs.Keys && forall id :: id in st.runs ==> Persists(st.runs[id], after.runs[id])
  {
  }

  lemma EndKeepsRecords(s: Sys, l: Label, t: Sys)
    requires Inv(s) && Step(s, l, t) && (l.EndPass? || l.SaveInterrupted?)
    ensures AllPersist(s, t)
  {
    if l.EndPass? {
      EndStatePersists(s.mem, s.pass.value.name, l.ending, s.pass.value.deadline > s.pass.value.at, l.at, l.jitter,
          l.observed);
    }
    MemoryPersists(s, t);
  }

  /** One step: no record comes back, and in none an intent is taken back. */
  lemma StepKeepsRecords(s: Sys, l: Label, t: Sys)
    requires Inv(s) && Step(s, l, t)
    ensures AllPersist(s, t)
  {
    if l.Intent? || l.Commit? || l.Finish? {
      RequestKeepsRecords(s, l, t);
    } else if l.Note? {
      NoteKeepsRecords(s, l, t);
    } else if l.Mark? {
      MarkKeepsRecords(s, l, t);
    } else if l.Insert? || l.Drop? || l.DeletePool? {
      TableKeepsRecords(s, l, t);
    } else if l.EndPass? || l.SaveInterrupted? {
      EndKeepsRecords(s, l, t);
    } else {
      assert t.disk == s.disk && t.issued == s.issued;
    }
  }

  lemma NextPersists(h: seq<Entry>, i: nat)
    requires Lawful(h) && i + 1 < |h|
    ensures AllPersist(h[i].sys, h[i + 1].sys)
  {
    InvAround(h, i);
    StepKeepsRecords(h[i].sys, h[i + 1].did, h[i + 1].sys);
  }

  lemma PersistsItself(s: Sys)
    ensures AllPersist(s, s)
  {
    forall id ensures RecordPersists(s, s, id) {
    }
  }

  lemma PersistChains(s: Sys, t: Sys, u: Sys)
    requires AllPersist(s, t) && AllPersist(t, u)
    ensures AllPersist(s, u)
  {
    forall id ensures RecordPersists(s, u, id) {
      assert RecordPersists(s, t, id) && RecordPersists(t, u, id);
    }
  }

  lemma {:induction false} RecordsPersist(h: seq<Entry>, i: nat, j: nat)
    requires Lawful(h) && i <= j < |h|
    ensures AllPersist(h[i].sys, h[j].sys)
  {
    PersistsItself(h[i].sys);
    if i < j {
      RecordsPersist(h, i, j - 1);
      NextPersists(h, j - 1);
      PersistChains(h[i].sys, h[j - 1].sys, h[j].sys);
    }
  }

  /** No lost intent: once a run is retiring or forced, in memory or in the store, it is so in memory and in the
      store at every later moment for as long as its record exists. */
  lemma IntentIsNeverLost(h: seq<Entry>, i: nat, j: nat, id: string)
    requires Lawful(h) && i <= j < |h| && id in h[i].sys.mem.runs && id in h[j].sys.mem.runs
    ensures id in h[i].sys.disk.runs && id in h[j].sys.disk.runs
    ensures h[i].sys.mem.runs[id].retiring || h[i].sys.disk.runs[id].retiring ==>
              h[j].sys.mem.runs[id].retiring && h[j].sys.disk.runs[id].retiring
    ensures h[i].sys.mem.runs[id].force || h[i].sys.disk.runs[id].force ==>
              h[j].sys.mem.runs[id].force && h[j].sys.disk.runs[id].force
  {
    InvAt(h, i);
    InvAt(h, j);
    RecordsPersist(h, i, j);
    assert NearRun(h[i].sys.mem, h[i].sys.disk, id) && NearRun(h[j].sys.mem, h[j].sys.disk, id);
    assert RecordPersists(h[i].sys, h[j].sys, id);
  }

  /* ---- How a record goes ---- */

  lemma OnlyDropRemoves(s: Sys, l: Label, t: Sys, id: string)
    requires Inv(s) && Step(s, l, t) && id in s.disk.runs && id !in t.disk.runs
    ensures l.Drop? && l.id == id && OfPass(s, id) && Gone(s.world, id)
  {
    if l.Intent? || l.Commit? || l.Finish? {
      RequestEvolves(s, l, t);
    }
  }

  /** A record is dropped only by an uninterrupted pass over its pool, and only when no container, no directory
      and no registration in any scope is left; and from then on there never is one again. */
  lemma DroppedIsGoneForGood(h: seq<Entry>, i: nat, j: nat, id: string)
    requires Lawful(h) && i < j < |h| && id in h[i].sys.disk.runs && id !in h[i + 1].sys.disk.runs
    ensures h[i + 1].did.Drop? && h[i + 1].did.id == id && OfPass(h[i].sys, id)
    ensures Gone(h[i].sys.world, id) && Gone(h[j].sys.world, id)
    ensures var w := h[j].sys.world;
            && (id in w.containers ==> !w.containers[id].ours) && id !in w.dirs
            && forall scope :: (scope, id) !in w.registrations
    ensures id !in h[j].sys.disk.runs && id !in h[j].sys.mem.runs
  {
    InvAround(h, i);
    OnlyDropRemoves(h[i].sys, h[i + 1].did, h[i + 1].sys, id);
    RecordsPersist(h, i, i + 1);
    RecordsPersist(h, i + 1, j);
    assert id in h[i + 1].sys.issued;
    assert RecordPersists(h[i + 1].sys, h[j].sys, id);
    InvAt(h, j);
    NoOrphansEver(h, j);
  }
}
