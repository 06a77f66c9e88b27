/** Histories of the manager: what holds in every run, through any number of crashes. */
module Histories {
  import opened Basics
  import opened Config
  import opened States
  import opened Requests
  import opened Worlds
  import opened Protocol
  import opened Invariants

  /* Step, Inv and Behaviour are large. The engine's contracts name them through the predicates below, whose
     quantifier stays closed until a proof mentions Open. */

  ghost predicate Open<T>(subject: T, key: int) {
    true
  }

  ghost predicate Allowed(s: Sys, l: Label, t: Sys) {
    forall key {:trigger Open((s, l, t), key)} :: Open((s, l, t), key) ==> Step(s, l, t)
  }

  ghost predicate Sound(s: Sys) {
    forall key {:trigger Open(s, key)} :: Open(s, key) ==> Inv(s)
  }

  lemma Allow(s: Sys, l: Label, t: Sys)
    requires Step(s, l, t)
    ensures Allowed(s, l, t)
  {
  }

  lemma IsAllowed(s: Sys, l: Label, t: Sys)
    requires Allowed(s, l, t)
    ensures Step(s, l, t)
  {
    assert Open((s, l, t), 0);
  }

  lemma IsSound(s: Sys)
    requires Sound(s)
    ensures Inv(s)
  {
    assert Open(s, 0);
  }

  datatype Entry = Entry(did: Label, sys: Sys)

  ghost predicate StepAt(h: seq<Entry>, i: nat)
    requires i + 1 < |h|
  {
    Step(h[i].sys, h[i + 1].did, h[i + 1].sys)
  }

  ghost predicate Behaviour(h: seq<Entry>) {
    && h != []
    && Initial(h[0].sys)
    && forall i: nat {:trigger StepAt(h, i)} :: i + 1 < |h| ==> StepAt(h, i)
  }

  ghost function Last(h: seq<Entry>): Sys
    requires h != []
  {
    h[|h| - 1].sys
  }

  ghost predicate Lawful(h: seq<Entry>) {
    forall key {:trigger Open(h, key)} :: Open(h, key) ==> Behaviour(h)
  }

  lemma IsLawful(h: seq<Entry>)
    requires Lawful(h)
    ensures Behaviour(h)
  {
    assert Open(h, 0);
  }

  lemma Extended(h: seq<Entry>, l: Label, t: Sys)
    requires h != [] && Lawful(h) && Allowed(Last(h), l, t)
    ensures Lawful(h + [Entry(l, t)])
  {
    IsLawful(h);
    IsAllowed(Last(h), l, t);
    var g := h + [Entry(l, t)];
    forall i: nat | i + 1 < |g| ensures StepAt(g, i) {
      if i + 1 < |h| {
        assert StepAt(h, i);
      }
    }
  }

  lemma InitialHasInv(s: Sys)
    requires Initial(s)
    ensures Inv(s)
  {
  }

  /** The invariant holds in every state of every history. */
  lemma {:induction false} HistoryHasInv(h: seq<Entry>, i: nat)
    requires Behaviour(h) && i < |h|
    ensures Inv(h[i].sys)
  {
    if i == 0 {
      InitialHasInv(h[0].sys);
    } else {
      HistoryHasInv(h, i - 1);
      assert StepAt(h, i - 1);
      StepKeepsInv(h[i - 1].sys, h[i].did, h[i].sys);
    }
  }
}
