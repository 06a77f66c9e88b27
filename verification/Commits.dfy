/** Capacity, revisions and config.toml, in every history. */
module Commits {
  import opened Basics
  import opened Sorting
  import opened Config
  import opened States
  import opened Retiring
  import opened Requests
  import opened Worlds
  import opened Protocol
  import opened Invariants
  import opened Histories
  import opened Records
  import opened Effects

  /* ---- What the structure of a state means ---- */

  /** At every moment a run has a generation at most its pool's; with the same generation it has the pool's
      settings; and a pool that is not to run has only retiring runs. In memory and in the store alike. */
  lemma GenerationMeansSettings(h: seq<Entry>, i: nat, id: string, inStore: bool)
    requires Lawful(h) && i < |h|
    requires id in (if inStore then h[i].sys.disk else h[i].sys.mem).runs
    ensures var st := if inStore then h[i].sys.disk else h[i].sys.mem;
            var r := st.runs[id];
            && ValidConfig(st.config) && st.pools.Keys == Names(st.config.pools)
            && r.pool.name in st.pools && r.poolId == st.pools[r.pool.name].id
            && Find(st.config.pools, r.pool.name).Some?
            && r.generation <= st.pools[r.pool.name].generation
            && var p := Find(st.config.pools, r.pool.name).value;
            && (r.generation == st.pools[r.pool.name].generation ==> r.pool == p.(replicas := r.pool.replicas))
            && r.pool.organization == p.organization && r.pool.repository == p.repository && r.pool.auth == p.auth
            && (r.force ==> r.retiring)
            && (!st.pools[r.pool.name].running || st.pools[r.pool.name].deleting ==> r.retiring)
  {
    InvAt(h, i);
    var st := if inStore then h[i].sys.disk else h[i].sys.mem;
    assert Fits(st, id);
  }

  /* ---- Capacity ---- */

  lemma FewerKeys<T>(a: map<string, T>, b: map<string, T>)
    requires a.Keys <= b.Keys
    ensures |a| <= |b|
  {
    SubsetIsSmaller(a.Keys, b.Keys);
    assert |a.Keys| == |a| && |b.Keys| == |b|;
  }

  lemma OnlyInsertAddsRuns(s: Sys, l: Label, t: Sys)
    requires Inv(s) && Step(s, l, t) && !l.Insert?
    ensures t.disk.runs.Keys <= s.disk.runs.Keys
  {
    if l.Intent? {
      IntentKeepsInvariant(s.mem, l.req);
    } else if l.Commit? {
      ProposalKeepsInvariant(s.mem, s.file, l.req, l.ids, s.poolIds);
    } else if l.Finish? {
      FinishKeepsInvariant(s.mem, l.req);
    }
  }

  lemma NextFits(h: seq<Entry>, i: nat)
    requires Lawful(h) && i + 1 < |h|
    ensures |h[i + 1].sys.disk.runs| <= |h[i].sys.disk.runs|
        || |h[i + 1].sys.disk.runs| <= h[i + 1].sys.disk.config.manager.maxRunners
  {
    InvAround(h, i);
    if h[i + 1].did.Insert? {
      var k := OnlyWantedRunsAreInserted(h, i);
    } else {
      OnlyInsertAddsRuns(h[i].sys, h[i + 1].did, h[i + 1].sys);
      FewerKeys(h[i + 1].sys.disk.runs, h[i].sys.disk.runs);
    }
  }

  lemma NothingAtFirst(h: seq<Entry>)
    requires Lawful(h) && h != []
    ensures h[0].sys.disk.runs == map[] && h[0].sys.approved.None?
  {
    IsLawful(h);
  }

  /** As long as no Apply lowers max_runners, there are never more records than max_runners, draining ones included. */
  lemma {:induction false} RecordsStayWithinCapacity(h: seq<Entry>, i: nat)
    requires Lawful(h) && i < |h|
    requires forall k: nat :: k + 1 <= i ==>
              h[k].sys.disk.config.manager.maxRunners <= h[k + 1].sys.disk.config.manager.maxRunners
    ensures |h[i].sys.disk.runs| <= h[i].sys.disk.config.manager.maxRunners
  {
    if i == 0 {
      NothingAtFirst(h);
    } else {
      RecordsStayWithinCapacity(h, i - 1);
      NextFits(h, i - 1);
    }
  }

  /* ---- Revisions ---- */

  predicate Commits(l: Label) {
    l.Commit? || l.DeletePool?
  }

  lemma OthersKeepCommit(s: Sys, l: Label, t: Sys)
    requires Inv(s) && Step(s, l, t) && !Commits(l)
    ensures SameCommit(t.disk, s.disk)
  {
    if l.Finish? {
      FinishKeepsCommit(s.mem, l.req);
    }
  }

  lemma DeletionsAreCounted(st: State, name: string)
    requires PoolDeleted(st, name).Some?
    ensures var t := PoolDeleted(st, name).value;
            t.revision == st.revision + 1 && t.fileHash == Rendered(t.config) && ValidConfig(t.config)
  {
  }

  lemma CommitsAreCounted(s: Sys, l: Label, t: Sys)
    requires Near(s.mem, s.disk) && Step(s, l, t) && Commits(l)
    ensures t.disk.revision == s.disk.revision + 1 && t.disk.fileHash == Rendered(t.disk.config)
            && ValidConfig(t.disk.config)
  {
    if l.Commit? {
      ProposalsAreCounted(s.mem, s.file, l.req, l.ids);
    } else {
      DeletionsAreCounted(s.mem, s.pass.value.name);
    }
  }

  lemma WhoTouchesTheFile(s: Sys, l: Label, t: Sys)
    requires Step(s, l, t)
    ensures t.approved.Some? && t.approved != s.approved ==> Commits(l)
    ensures t.file != s.file ==> l.Environment? || l.WriteConfig?
  {
  }

  /** The revision counts the committed configurations: it rises by exactly one with each, and nothing else
      changes the stored configuration or the stored hash of config.toml. */
  lemma RevisionCountsCommits(h: seq<Entry>, i: nat)
    requires Lawful(h) && i + 1 < |h|
    ensures if Commits(h[i + 1].did) then
              && h[i + 1].sys.disk.revision == h[i].sys.disk.revision + 1
              && h[i + 1].sys.disk.fileHash == Rendered(h[i + 1].sys.disk.config)
                 && ValidConfig(h[i + 1].sys.disk.config)
            else
              SameCommit(h[i + 1].sys.disk, h[i].sys.disk)
  {
    InvAround(h, i);
    if Commits(h[i + 1].did) {
      CommitsAreCounted(h[i].sys, h[i + 1].did, h[i + 1].sys);
    } else {
      OthersKeepCommit(h[i].sys, h[i + 1].did, h[i + 1].sys);
    }
  }

  /* ---- config.toml ---- */

  /** The step after `k` committed a configuration having found in config.toml either what the manager last
      committed or, for Apply, exactly the text being applied. */
  ghost predicate CommittedKnowing(h: seq<Entry>, k: nat, found: Option<Text>) {
    && k + 1 < |h| && Commits(h[k + 1].did) && h[k].sys.file == found && found.Some?
    && (found == Some(h[k].sys.mem.fileHash)
        || (h[k + 1].did.Commit? && h[k + 1].did.req.Apply? && found == Some(h[k + 1].did.req.text)))
  }

  lemma NextApproval(h: seq<Entry>, i: nat)
    requires Lawful(h) && i + 1 < |h| && h[i + 1].sys.approved.Some? && h[i + 1].sys.approved != h[i].sys.approved
    ensures CommittedKnowing(h, i, h[i + 1].sys.approved)
  {
    InvAround(h, i);
    WhoTouchesTheFile(h[i].sys, h[i + 1].did, h[i + 1].sys);
  }

  lemma SameApproval(h: seq<Entry>, i: nat)
    requires Lawful(h) && i + 1 < |h| && h[i + 1].sys.approved.Some? && h[i + 1].sys.approved == h[i].sys.approved
    ensures h[i + 1].sys.mem == h[i].sys.mem && h[i + 1].sys.file == h[i].sys.file
  {
    InvAround(h, i);
  }

  /** A write of config.toml that is still to come goes back to a commit that checked the file, with nothing but
      the commit itself in memory since then. */
  lemma {:induction false} ApprovalHasACause(h: seq<Entry>, i: nat) returns (k: nat)
    requires Lawful(h) && i < |h| && h[i].sys.approved.Some?
    ensures k < i && CommittedKnowing(h, k, h[i].sys.approved) && h[i].sys.mem == h[k + 1].sys.mem
  {
    if i == 0 {
      NothingAtFirst(h);
    } else if h[i - 1].sys.approved == h[i].sys.approved {
      k := ApprovalHasACause(h, i - 1);
      SameApproval(h, i - 1);
    } else {
      NextApproval(h, i - 1);
      k := i - 1;
    }
  }

  lemma WriteOverApproved(h: seq<Entry>, i: nat)
    requires Lawful(h) && i + 1 < |h| && h[i + 1].sys.file != h[i].sys.file && !h[i + 1].did.Environment?
    ensures h[i].sys.approved.Some? && h[i].sys.file == h[i].sys.approved
    ensures h[i + 1].sys.file == Some(Rendered(h[i].sys.mem.config)) && h[i + 1].sys.mem == h[i].sys.mem
  {
    InvAround(h, i);
    WhoTouchesTheFile(h[i].sys, h[i + 1].did, h[i + 1].sys);
  }

  /** The manager overwrites config.toml only with the configuration of a commit, and only when the file still has
      the text that the commit found there: its own last text, or exactly the text being applied. */
  lemma ConfigFileIsNeverOverwrittenBlindly(h: seq<Entry>, i: nat) returns (k: nat)
    requires Lawful(h) && i + 1 < |h| && h[i + 1].sys.file != h[i].sys.file && !h[i + 1].did.Environment?
    ensures k < i && CommittedKnowing(h, k, h[i].sys.file)
    ensures h[i + 1].sys.file == Some(Rendered(h[k + 1].sys.mem.config))
  {
    WriteOverApproved(h, i);
    k := ApprovalHasACause(h, i);
  }

  /** A commit over a file that does not have the stored text. */
  lemma OnlyApplyOverridesTheFile(s: Sys, l: Label, t: Sys)
    requires Inv(s) && Step(s, l, t) && Commits(l) && s.file != Some(s.disk.fileHash)
    ensures l.Commit? && l.req.Apply? && s.file == Some(l.req.text) && l.req.revision == s.disk.revision
    ensures l.req.text.Parsed() == Some(t.disk.config)
  {
  }

  /** After a crash that left config.toml unwritten, until the file has the stored text again, no pool is deleted
      and the only commit is an Apply of exactly the text in the file. */
  lemma UnwrittenConfigIsProtected(h: seq<Entry>, i: nat, j: nat)
    requires Lawful(h) && i + 1 <= j && j + 1 < |h| && h[i].sys.approved.Some? && h[i + 1].did.Crash?
    requires forall k :: i + 1 <= k <= j ==> h[k].sys.file != Some(h[k].sys.disk.fileHash)
    requires Commits(h[j + 1].did)
    ensures h[j + 1].did.Commit? && h[j + 1].did.req.Apply? && h[j].sys.file == Some(h[j + 1].did.req.text)
    ensures h[j + 1].did.req.revision == h[j].sys.disk.revision
    ensures h[j + 1].did.req.text.Parsed() == Some(h[j + 1].sys.disk.config)
  {
    InvAround(h, j);
    OnlyApplyOverridesTheFile(h[j].sys, h[j + 1].did, h[j + 1].sys);
  }

  lemma NothingCommitted(h: seq<Entry>, i: nat)
    requires Lawful(h) && i + 1 < |h| && !Commits(h[i + 1].did) && h[i].sys.approved.None?
    requires h[i + 1].did.Environment? ==> h[i + 1].sys.file == h[i].sys.file
    ensures h[i + 1].sys.file == h[i].sys.file && h[i + 1].sys.approved.None?
            && SameCommit(h[i + 1].sys.disk, h[i].sys.disk)
  {
    InvAround(h, i);
    WhoTouchesTheFile(h[i].sys, h[i + 1].did, h[i + 1].sys);
    OthersKeepCommit(h[i].sys, h[i + 1].did, h[i + 1].sys);
  }

  lemma CrashLosesTheWrite(h: seq<Entry>, i: nat)
    requires Lawful(h) && i + 1 < |h| && h[i + 1].did.Crash?
    ensures h[i + 1].sys.file == h[i].sys.file && h[i + 1].sys.approved.None? && h[i + 1].sys.disk == h[i].sys.disk
  {
    InvAround(h, i);
  }

  /** And if nobody edits the file meanwhile, it keeps the text that the interrupted commit found, step after step,
      and the stored configuration stays as it was: the manager never writes the lost text later on its own. */
  lemma {:induction false} LostWriteStaysLost(h: seq<Entry>, i: nat, j: nat)
    requires Lawful(h) && i + 1 <= j < |h| && h[i].sys.approved.Some? && h[i + 1].did.Crash?
    requires forall k {:trigger h[k]} :: i + 2 <= k <= j ==>
               !Commits(h[k].did) && (h[k].did.Environment? ==> h[k].sys.file == h[k - 1].sys.file)
    ensures h[j].sys.file == h[i].sys.file && h[j].sys.approved.None? && SameCommit(h[j].sys.disk, h[i].sys.disk)
  {
    if j == i + 1 {
      CrashLosesTheWrite(h, i);
    } else {
      LostWriteStaysLost(h, i, j - 1);
      NothingCommitted(h, j - 1);
    }
  }

  /* ---- When a tick fails ---- */

  lemma NextClosed(h: seq<Entry>, i: nat)
    requires Lawful(h) && i + 1 < |h| && h[i + 1].sys.pass.Some? && h[i + 1].sys.pass.value.closed
    ensures h[i + 1].did.DeletePool? || (h[i].sys.pass.Some? && h[i].sys.pass.value.closed)
    ensures !h[i + 1].did.BeginPass?
  {
    InvAround(h, i);
  }

  lemma {:induction false} ClosedHasACause(h: seq<Entry>, i: nat) returns (k: nat)
    requires Lawful(h) && i < |h| && h[i].sys.pass.Some? && h[i].sys.pass.value.closed
    ensures k < i && h[k + 1].did.DeletePool? && forall j :: k < j <= i ==> !h[j].did.BeginPass?
  {
    if i == 0 {
      NoPassAtFirst(h);
    } else {
      NextClosed(h, i - 1);
      if h[i].did.DeletePool? {
        k := i - 1;
      } else {
        k := ClosedHasACause(h, i - 1);
      }
    }
  }

  lemma AbandonedIsClosed(h: seq<Entry>, i: nat)
    requires Lawful(h) && i + 1 < |h| && h[i + 1].did.Abandon?
    ensures h[i].sys.pass.Some? && h[i].sys.pass.value.closed
  {
    InvAround(h, i);
  }

  /** A tick fails only after its pass has deleted its pool from the store; the deletion stands. */
  lemma TickFailsOnlyAfterDeletion(h: seq<Entry>, i: nat) returns (k: nat)
    requires Lawful(h) && i + 1 < |h| && h[i + 1].did.Abandon?
    ensures k < i && h[k + 1].did.DeletePool? && forall j :: k < j <= i ==> !h[j].did.BeginPass?
  {
    AbandonedIsClosed(h, i);
    k := ClosedHasACause(h, i);
  }
}
