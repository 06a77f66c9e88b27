/** A pool that was stopped, in every history. */
module Stops {
  import opened Basics
  import opened Config
  import opened States
  import opened Retiring
  import opened Requests
  import opened Backoff
  import opened Worlds
  import opened Protocol
  import opened Invariants
  import opened Histories
  import opened Records
  import opened Effects
  import opened Promises

  /** The pool does not run, or is gone. */
  ghost predicate AtRest(st: State, name: string) {
    name in st.pools ==> !st.pools[name].running
  }

  predicate StopsPool(l: Label, name: string) {
    l.Intent? && ((l.req.Stop? && (l.req.all || l.req.target == Some(name))) || (l.req.Remove? && l.req.name == name))
  }

  predicate StartsPool(l: Label, name: string) {
    l.Intent? && l.req.Start? && (l.req.all || l.req.target == Some(name))
  }

  lemma IntentKeepsRest(s: Sys, req: Request, t: Sys, name: string)
    requires Step(s, Intent(req), t) && !StartsPool(Intent(req), name)
    ensures AtRest(s.mem, name) || StopsPool(Intent(req), name) ==> AtRest(t.mem, name)
  {
    IntentIsKept(s.mem, req);
  }

  lemma CommitKeepsRest(st: State, file: Option<Text>, req: Request, ids: map<string, string>, name: string)
    requires AtRest(st, name) && Proposed(st, file, req, ids).Some?
    ensures AtRest(Proposed(st, file, req, ids).value, name)
  {
  }

  lemma FinishKeepsRest(st: State, req: Request, name: string)
    requires StateInv(st) && AtRest(st, name)
    ensures AtRest(Finished(st, req), name)
  {
    if !req.SetAuth? {
      MarkAllKeepsInvariant(st, MarkedBy(st, req));
    }
  }

  lemma OtherStepsKeepRest(s: Sys, l: Label, t: Sys, name: string)
    requires Near(s.mem, s.disk) && Step(s, l, t) && AtRest(s.mem, name)
    requires !l.Intent? && !l.Commit? && !l.Finish?
    ensures AtRest(t.mem, name)
  {
  }

  lemma NextIsAtRest(h: seq<Entry>, i: nat, name: string)
    requires Lawful(h) && i + 1 < |h| && !StartsPool(h[i + 1].did, name)
    requires AtRest(h[i].sys.mem, name) || StopsPool(h[i + 1].did, name)
    ensures AtRest(h[i + 1].sys.mem, name)
  {
    InvAround(h, i);
    var s, l, t := h[i].sys, h[i + 1].did, h[i + 1].sys;
    if l.Intent? {
      IntentKeepsRest(s, l.req, t, name);
    } else if l.Commit? {
      CommitKeepsRest(s.mem, s.file, l.req, l.ids, name);
    } else if l.Finish? {
      FinishKeepsRest(s.mem, l.req, name);
    } else {
      OtherStepsKeepRest(s, l, t, name);
    }
  }

  lemma {:induction false} StaysAtRest(h: seq<Entry>, i: nat, j: nat, name: string)
    requires Lawful(h) && i + 1 <= j < |h| && StopsPool(h[i + 1].did, name)
    requires forall k :: i + 1 < k <= j ==> !StartsPool(h[k].did, name)
    ensures AtRest(h[j].sys.mem, name)
  {
    if j == i + 1 {
      NextIsAtRest(h, i, name);
    } else {
      StaysAtRest(h, i, j - 1, name);
      NextIsAtRest(h, j - 1, name);
    }
  }

  lemma RunsOfARestingPoolRetire(h: seq<Entry>, i: nat, name: string, id: string)
    requires Lawful(h) && i < |h| && AtRest(h[i].sys.mem, name)
    requires id in h[i].sys.mem.runs && h[i].sys.mem.runs[id].pool.name == name
    ensures h[i].sys.mem.runs[id].retiring
  {
    InvAt(h, i);
    assert Fits(h[i].sys.mem, id);
  }

  /** From a Stop or Remove on, and until somebody starts the pool, every run of it is retiring, none is provisioned
      or started, and no new one is recorded, whatever else is asked meanwhile and through any number of crashes. */
  lemma StoppedPoolGetsNoRuns(h: seq<Entry>, i: nat, j: nat, name: string)
    requires Lawful(h) && i + 1 <= j && j + 1 < |h| && StopsPool(h[i + 1].did, name)
    requires forall k :: i + 1 < k <= j ==> !StartsPool(h[k].did, name)
    ensures forall id :: id in h[j].sys.mem.runs && h[j].sys.mem.runs[id].pool.name == name ==>
              h[j].sys.mem.runs[id].retiring && ProvisionedBy(h[j + 1].did) != Some(id)
    ensures h[j + 1].did.Insert? ==> h[j + 1].did.run.pool.name != name
  {
    StaysAtRest(h, i, j, name);
    InvAround(h, j);
    forall id | id in h[j].sys.mem.runs && h[j].sys.mem.runs[id].pool.name == name
      ensures h[j].sys.mem.runs[id].retiring && ProvisionedBy(h[j + 1].did) != Some(id)
    {
      RunsOfARestingPoolRetire(h, j, name, id);
      if ProvisionedBy(h[j + 1].did).Some? {
        OnlyCurrentRunsAreProvisioned(h, j);
      }
    }
    if h[j + 1].did.Insert? {
      var _ := OnlyWantedRunsAreInserted(h, j);
    }
  }
}
