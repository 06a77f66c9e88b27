/** Configuration records and `Config::validate`. */
module Config {
  import opened Basics

  datatype AppAuth = AppAuth(appId: string, installationId: nat, privateKey: string)

  datatype Auth = Auth(credential: string, app: Option<AppAuth>)

  datatype Manager = Manager(pollIntervalSeconds: nat, maxRunners: nat, maxParallelCreates: nat, logRetentionDays: nat)

  datatype Pool = Pool(
    name: string,
    organization: string,
    repository: Option<string>,
    auth: string,
    labels: seq<string>,
    runnerGroup: string,
    replicas: nat,
    image: string,
    dockerSocket: bool,
    allowPrivilegeEscalation: bool,
    cpus: Option<real>,
    memory: Option<string>)
  {
    function ApiScope(): string {
      match repository
      case Some(repo) => "/repos/" + repo
      case None => "/orgs/" + organization
    }
  }

  datatype Config = Config(schemaVersion: nat, auth: map<string, Auth>, manager: Manager, pools: seq<Pool>)

  /** The fields whose change starts a new runner generation. */
  predicate SameSettings(a: Pool, b: Pool) {
    && a.image == b.image
    && a.labels == b.labels
    && a.runnerGroup == b.runnerGroup
    && a.dockerSocket == b.dockerSocket
    && a.allowPrivilegeEscalation == b.allowPrivilegeEscalation
    && a.cpus == b.cpus
    && a.memory == b.memory
  }

  /** Where and with which profile a pool's runners register. */
  predicate SameScope(a: Pool, b: Pool) {
    a.ApiScope() == b.ApiScope() && a.auth == b.auth
  }

  /** Between valid pools the API path says no less than the fields it is made of. */
  lemma ScopeIsThePlace(a: Pool, b: Pool)
    requires (a.repository.Some? ==> a.organization == "") && (b.repository.Some? ==> b.organization == "")
    ensures SameScope(a, b) <==>
              a.organization == b.organization && a.repository == b.repository && a.auth == b.auth
  {
    if a.repository.Some? && b.repository.Some? {
      assert a.ApiScope()[|"/repos/"|..] == a.repository.value && b.ApiScope()[|"/repos/"|..] == b.repository.value;
    } else if a.repository.None? && b.repository.None? {
      assert a.ApiScope()[|"/orgs/"|..] == a.organization && b.ApiScope()[|"/orgs/"|..] == b.organization;
    } else {
      assert a.ApiScope()[1] != b.ApiScope()[1];
    }
  }

  /** An edit that starts no new generation and moves no runner changes at most the replicas. */
  lemma SameButReplicas(a: Pool, b: Pool)
    requires (a.repository.Some? ==> a.organization == "") && (b.repository.Some? ==> b.organization == "")
    requires a.name == b.name && SameScope(a, b)
    ensures SameSettings(a, b) <==> a == b.(replicas := a.replicas)
  {
    ScopeIsThePlace(a, b);
  }

  function Names(pools: seq<Pool>): set<string> {
    set p | p in pools :: p.name
  }

  ghost predicate NamedApart(pools: seq<Pool>, i: int, j: int) {
    0 <= i < j < |pools| ==> pools[i].name != pools[j].name
  }

  /** A proof that needs two names to differ mentions NamedApart. */
  ghost predicate UniqueNames(pools: seq<Pool>) {
    forall i: int, j: int {:trigger NamedApart(pools, i, j)} :: NamedApart(pools, i, j)
  }

  function TotalReplicas(pools: seq<Pool>): nat {
    if pools == [] then 0 else TotalReplicas(pools[..|pools| - 1]) + pools[|pools| - 1].replicas
  }

  predicate ValidPool(p: Pool, auth: map<string, Auth>) {
    && p.name != ""
    && (p.repository.Some? ==> p.organization == "" && p.repository.value != "" && p.runnerGroup == "Default")
    && (p.repository.None? ==> p.organization != "")
    && (p.cpus.Some? ==> p.cpus.value >= 0.01)
    && p.auth in auth
    && 0 < |p.labels| < 100
    && p.image != ""
  }

  predicate ValidHeader(c: Config) {
    && c.schemaVersion == 1
    && 5 <= c.manager.pollIntervalSeconds <= 3600
    && 0 < c.manager.maxParallelCreates <= c.manager.maxRunners
  }

  /** What an accepted configuration promises. */
  ghost predicate ValidConfig(c: Config) {
    && ValidHeader(c)
    && UniqueNames(c.pools)
    && (forall p :: p in c.pools ==> ValidPool(p, c.auth))
    && TotalReplicas(c.pools) <= c.manager.maxRunners
  }

  /** The first `i` pools are in order. */
  ghost predicate CheckedUpto(c: Config, i: nat, names: set<string>, total: nat) {
    && i <= |c.pools| && names == Names(c.pools[..i]) && total == TotalReplicas(c.pools[..i])
    && UniqueNames(c.pools[..i]) && forall j :: 0 <= j < i ==> ValidPool(c.pools[j], c.auth)
  }

  lemma OneMoreChecked(c: Config, i: nat, names: set<string>, total: nat)
    requires CheckedUpto(c, i, names, total) && i < |c.pools| && c.pools[i].name !in names
             && ValidPool(c.pools[i], c.auth)
    ensures CheckedUpto(c, i + 1, names + {c.pools[i].name}, total + c.pools[i].replicas)
  {
    var p := c.pools[i];
    assert c.pools[..i + 1] == c.pools[..i] + [p] && c.pools[..i + 1][..i] == c.pools[..i];
    AppendedIsUnique(c.pools[..i], p);
  }

  lemma BadPool(c: Config, i: nat, names: set<string>, total: nat)
    requires CheckedUpto(c, i, names, total) && i < |c.pools|
             && (c.pools[i].name in names || !ValidPool(c.pools[i], c.auth))
    ensures !ValidConfig(c)
  {
    assert c.pools[i] in c.pools;
    if c.pools[i].name in names {
      var p :| p in c.pools[..i] && p.name == c.pools[i].name;
      var j :| 0 <= j < i && c.pools[..i][j] == p;
      assert !NamedApart(c.pools, j, i);
    }
  }

  lemma AllChecked(c: Config, names: set<string>, total: nat)
    requires CheckedUpto(c, |c.pools|, names, total) && ValidHeader(c)
    ensures ValidConfig(c) <==> total <= c.manager.maxRunners
  {
    assert c.pools[..|c.pools|] == c.pools;
  }

  /** Every rule that a configuration has to meet, spelled out. */
  ghost predicate Acceptable(c: Config) {
    && c.schemaVersion == 1
    && 5 <= c.manager.pollIntervalSeconds && c.manager.pollIntervalSeconds <= 3600
    && 0 < c.manager.maxRunners && 0 < c.manager.maxParallelCreates
    && c.manager.maxParallelCreates <= c.manager.maxRunners
    && (forall i, j :: 0 <= i < j < |c.pools| ==> c.pools[i].name != c.pools[j].name)
    && (forall i :: 0 <= i < |c.pools| ==>
        && c.pools[i].name != "" && c.pools[i].image != "" && c.pools[i].auth in c.auth
        && (if c.pools[i].repository.Some? then
              && c.pools[i].organization == "" && c.pools[i].repository.value != ""
              && c.pools[i].runnerGroup == "Default"
            else c.pools[i].organization != "")
        && (c.pools[i].cpus.Some? ==> c.pools[i].cpus.value >= 0.01)
        && 1 <= |c.pools[i].labels| && |c.pools[i].labels| <= 99)
    && TotalReplicas(c.pools) <= c.manager.maxRunners
  }

  lemma AcceptableIsValid(c: Config)
    ensures Acceptable(c) <==> ValidConfig(c)
  {
    if UniqueNames(c.pools) {
      forall i, j | 0 <= i < j < |c.pools| ensures c.pools[i].name != c.pools[j].name {
        assert NamedApart(c.pools, i, j);
      }
    }
    assert (forall p :: p in c.pools ==> ValidPool(p, c.auth)) <==>
           forall i :: 0 <= i < |c.pools| ==> ValidPool(c.pools[i], c.auth);
  }

  method Validate(c: Config) returns (ok: bool)
    ensures ok <==> ValidConfig(c)
    ensures ok <==> Acceptable(c)
  {
    AcceptableIsValid(c);
    if !ValidHeader(c) {
      return false;
    }
    var names: set<string> := {};
    var total: nat := 0;
    for i := 0 to |c.pools|
      invariant CheckedUpto(c, i, names, total)
    {
      var p := c.pools[i];
      if p.name in names || !ValidPool(p, c.auth) {
        BadPool(c, i, names, total);
        return false;
      }
      OneMoreChecked(c, i, names, total);
      names := names + {p.name};
      total := total + p.replicas;
    }
    AllChecked(c, names, total);
    return total <= c.manager.maxRunners;
  }

  /** The configured pool with a given name; the first one, as the source's `find`. */
  function Find(pools: seq<Pool>, name: string): (r: Option<Pool>)
    ensures r.Some? <==> name in Names(pools)
    ensures r.Some? ==> r.value in pools && r.value.name == name
  {
    if pools == [] then None
    else if pools[0].name == name then Some(pools[0])
    else
      assert pools == [pools[0]] + pools[1..];
      Find(pools[1..], name)
  }

  lemma FindIsUnique(pools: seq<Pool>, p: Pool)
    requires UniqueNames(pools) && p in pools
    ensures Find(pools, p.name) == Some(p)
  {
    assert p.name in Names(pools);
    var q := Find(pools, p.name).value;
    var i :| 0 <= i < |pools| && pools[i] == p;
    var j :| 0 <= j < |pools| && pools[j] == q;
    assert NamedApart(pools, i, j) && NamedApart(pools, j, i);
  }

  lemma FrontIsUnique(pools: seq<Pool>)
    requires UniqueNames(pools) && pools != []
    ensures UniqueNames(pools[..|pools| - 1])
    ensures forall p :: p in pools[..|pools| - 1] ==> p.name != pools[|pools| - 1].name
  {
    var front := pools[..|pools| - 1];
    forall i: int, j: int ensures NamedApart(front, i, j) {
      assert NamedApart(pools, i, j);
    }
    forall p | p in front ensures p.name != pools[|pools| - 1].name {
      var i :| 0 <= i < |front| && front[i] == p;
      assert NamedApart(pools, i, |pools| - 1);
    }
  }

  lemma AppendedIsUnique(pools: seq<Pool>, p: Pool)
    requires UniqueNames(pools) && forall q :: q in pools ==> q.name != p.name
    ensures UniqueNames(pools + [p])
  {
    forall i: int, j: int ensures NamedApart(pools + [p], i, j) {
      if 0 <= i < j < |pools| {
        assert NamedApart(pools, i, j);
      } else if 0 <= i < j == |pools| {
        assert pools[i] in pools;
      }
    }
  }

  /** The pool list with the pool of that name replaced. */
  function Replace(pools: seq<Pool>, name: string, p: Pool): (r: seq<Pool>)
    ensures |r| == |pools|
  {
    seq(|pools|, i requires 0 <= i < |pools| => if pools[i].name == name then p else pools[i])
  }

  lemma ReplaceKeepsTheRest(pools: seq<Pool>, name: string, p: Pool)
    requires p.name == name && name in Names(pools) && UniqueNames(pools)
    ensures UniqueNames(Replace(pools, name, p))
    ensures Names(Replace(pools, name, p)) == Names(pools)
    ensures forall q :: q in Replace(pools, name, p) <==> q == p || (q in pools && q.name != name)
    ensures forall n :: Find(Replace(pools, name, p), n) == if n == name then Some(p) else Find(pools, n)
  {
    var r := Replace(pools, name, p);
    forall q ensures q in r <==> q == p || (q in pools && q.name != name) {
      if q in r { var i :| 0 <= i < |r| && r[i] == q; assert pools[i] in pools; }
      if q in pools && q.name != name { var i :| 0 <= i < |r| && pools[i] == q; assert r[i] in r; }
      if q == p { var o :| o in pools && o.name == name; var i :| 0 <= i < |r| && pools[i] == o; assert r[i] == p; }
    }
    NamesByMembers(pools, r, name, p);
    forall i: int, j: int ensures NamedApart(r, i, j) {
      assert NamedApart(pools, i, j);
    }
    forall n ensures Find(r, n) == if n == name then Some(p) else Find(pools, n) {
      if n in Names(r) {
        FindIsUnique(r, if n == name then p else Find(pools, n).value);
      }
    }
  }

  lemma NamesByMembers(pools: seq<Pool>, r: seq<Pool>, name: string, p: Pool)
    requires p.name == name && name in Names(pools)
    requires forall q :: q in r <==> q == p || (q in pools && q.name != name)
    ensures Names(r) == Names(pools)
  {
    forall n ensures n in Names(r) <==> n in Names(pools) {
      if n in Names(r) { var q :| q in r && q.name == n; }
      if n in Names(pools) { var q :| q in pools && q.name == n; assert (if n == name then p else q) in r; }
    }
  }

  /** `retain(|p| p.name != name)`. */
  function Without(pools: seq<Pool>, name: string): (r: seq<Pool>) {
    if pools == [] then []
    else
      var last := pools[|pools| - 1];
      Without(pools[..|pools| - 1], name) + if last.name == name then [] else [last]
  }

  lemma {:induction false} WithoutMembers(pools: seq<Pool>, name: string, p: Pool)
    ensures p in Without(pools, name) <==> p in pools && p.name != name
  {
    if pools != [] {
      var front := pools[..|pools| - 1];
      assert pools == front + [pools[|pools| - 1]];
      WithoutMembers(front, name, p);
    }
  }

  lemma TotalOfAppended(pools: seq<Pool>, p: Pool)
    ensures TotalReplicas(pools + [p]) == TotalReplicas(pools) + p.replicas
  {
    assert (pools + [p])[..|pools|] == pools;
  }

  lemma {:induction false} WithoutTotal(pools: seq<Pool>, name: string)
    ensures TotalReplicas(Without(pools, name)) <= TotalReplicas(pools)
  {
    if pools != [] {
      var front, last := pools[..|pools| - 1], pools[|pools| - 1];
      WithoutTotal(front, name);
      TotalOfAppended(Without(front, name), last);
      assert Without(front, name) + [] == Without(front, name);
    }
  }

  lemma {:induction false} WithoutStaysUnique(pools: seq<Pool>, name: string)
    requires UniqueNames(pools)
    ensures UniqueNames(Without(pools, name))
  {
    if pools != [] {
      var front, last := pools[..|pools| - 1], pools[|pools| - 1];
      FrontIsUnique(pools);
      WithoutStaysUnique(front, name);
      var kept := Without(front, name);
      forall q | q in kept ensures q.name != last.name {
        WithoutMembers(front, name, q);
      }
      AppendedIsUnique(kept, last);
      assert kept + [] == kept;
    }
  }

  lemma WithoutKeepsTheRest(pools: seq<Pool>, name: string)
    requires UniqueNames(pools)
    ensures Names(Without(pools, name)) == Names(pools) - {name}
    ensures forall n :: n != name ==> Find(Without(pools, name), n) == Find(pools, n)
  {
    var r := Without(pools, name);
    forall p ensures p in r <==> p in pools && p.name != name { WithoutMembers(pools, name, p); }
    WithoutStaysUnique(pools, name);
    forall n ensures n in Names(r) <==> n in Names(pools) - {name} {
      if n in Names(r) { var p :| p in r && p.name == n; }
      if n in Names(pools) - {name} { var p :| p in pools && p.name == n; assert p in r; }
    }
    forall n | n != name ensures Find(r, n) == Find(pools, n) {
      if n in Names(pools) {
        FindIsUnique(r, Find(pools, n).value);
      }
    }
  }

  lemma {:induction false} FindInAppended(pools: seq<Pool>, p: Pool, n: string)
    ensures Find(pools + [p], n) == if n in Names(pools) then Find(pools, n) else if n == p.name then Some(p) else None
  {
    if pools == [] {
      assert pools + [p] == [p];
    } else {
      assert pools == [pools[0]] + pools[1..];
      assert (pools + [p])[1..] == pools[1..] + [p];
      FindInAppended(pools[1..], p, n);
    }
  }
}
