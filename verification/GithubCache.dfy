/** The cache that all clones of the GitHub client share. Every method below is one critical section of its mutex. */
module GithubCache {
  import opened Basics
  import opened Config
  import opened Backoff

  /** `auth_key`: a profile together with its authentication reference, as SHA-256 is taken to be injective. */
  type Key = (string, Auth)

  datatype Runner = Runner(id: nat, name: string, online: bool, busy: bool)

  /** The generation is a u64 that wraps around. */
  const GENERATIONS: nat := 0x1_0000_0000_0000_0000

  /** `listings` by key and scope with the time of storing, `blocked` with the deadline, `tokens` with the expiry. */
  datatype Memory = Memory(
    listings: map<(Key, string), (nat, seq<Runner>)>,
    blocked: map<Key, nat>,
    tokens: map<Key, (nat, string)>,
    generation: nat)

  datatype Response = Response(status: nat, noneRemaining: bool, retryAfter: Option<nat>, reset: Option<nat>)

  function Subtract(a: nat, b: nat): nat {
    if a < b then 0 else a - b
  }

  function Max(a: nat, b: nat): nat {
    if a < b then b else a
  }

  predicate RateLimited(r: Response) {
    r.status == 429 || r.noneRemaining || r.retryAfter.Some?
  }

  predicate Unauthorized(r: Response) {
    r.status == 401 || r.status == 403
  }

  /** How long a failed response blocks its credential. */
  function BlockedFor(r: Response, now: nat): (wait: Option<nat>)
    ensures wait.Some? <==> RateLimited(r) || Unauthorized(r)
    ensures wait.Some? ==> wait.value >= 1
  {
    if RateLimited(r) then
      Some(Max(1, if r.retryAfter.Some? then r.retryAfter.value
                  else Subtract(if r.reset.Some? then r.reset.value else now + 60, now)))
    else if Unauthorized(r) then Some(300)
    else None
  }

  predicate IsBlocked(m: Memory, key: Key, now: nat) {
    key in m.blocked && m.blocked[key] > now
  }

  function Cleared(m: Memory): Memory {
    Memory(map[], map[], map[], (m.generation + 1) % GENERATIONS)
  }

  function WithError(m: Memory, key: Key, generation: nat, r: Response, now: nat): Memory {
    if m.generation != generation then m
    else
      var wait := BlockedFor(r, now);
      m.(tokens := if r.status == 401 then m.tokens - {key} else m.tokens,
         blocked := if wait.Some? then m.blocked[key := SaturatingAdd(now, wait.value)] else m.blocked)
  }

  function WithToken(m: Memory, key: Key, generation: nat, expires: nat, token: string): Memory {
    if m.generation == generation then m.(tokens := m.tokens[key := (expires, token)]) else m
  }

  function WithListing(m: Memory, key: Key, scope: string, generation: nat, now: nat, runners: seq<Runner>): Memory {
    if m.generation == generation then m.(listings := m.listings[(key, scope) := (now, runners)]) else m
  }

  function WithoutListing(m: Memory, key: Key, scope: string): Memory {
    m.(listings := m.listings - {(key, scope)})
  }

  /** A listing younger than `ttl`; `saturating_sub` makes a time of storing in the future count as age 0. */
  function FreshListing(m: Memory, key: Key, scope: string, ttl: nat, now: nat): (r: Option<seq<Runner>>)
    ensures ttl == 0 ==> r.None?
    ensures (key, scope) !in m.listings ==> r.None?
  {
    if (key, scope) in m.listings && Subtract(now, m.listings[(key, scope)].0) < ttl
      then Some(m.listings[(key, scope)].1) else None
  }

  function ValidToken(m: Memory, key: Key, now: nat): Option<string> {
    if key in m.tokens && m.tokens[key].0 > now + 60 then Some(m.tokens[key].1) else None
  }

  class Cache {
    var listings: map<(Key, string), (nat, seq<Runner>)>
    var blocked: map<Key, nat>
    var tokens: map<Key, (nat, string)>
    var generation: nat

    constructor ()
      ensures Contents() == Memory(map[], map[], map[], 0)
    {
      listings, blocked, tokens, generation := map[], map[], map[], 0;
    }

    function Contents(): Memory
      reads this
    {
      Memory(listings, blocked, tokens, generation)
    }

    method Clear()
      modifies this
      ensures Contents() == Cleared(old(Contents()))
      ensures listings == map[] && blocked == map[] && tokens == map[]
      ensures old(generation) < 0xFFFF_FFFF_FFFF_FFFF ==> generation == old(generation) + 1
      ensures old(generation) == 0xFFFF_FFFF_FFFF_FFFF ==> generation == 0
    {
      listings, blocked, tokens := map[], map[], map[];
      generation := (generation + 1) % GENERATIONS;
    }

    method Generation() returns (g: nat)
      ensures g == Contents().generation
    {
      g := generation;
    }

    /** The check at the beginning of a request; the deadline if it has to wait. */
    method CheckBlock(key: Key, now: nat) returns (until: Option<nat>)
      ensures until.Some? <==> IsBlocked(Contents(), key, now)
      ensures until.Some? <==> key in blocked && now < blocked[key]
      ensures until.Some? ==> until.value == blocked[key]
    {
      if key in blocked && blocked[key] > now {
        return Some(blocked[key]);
      }
      until := None;
    }

    method PeekToken(key: Key, now: nat) returns (token: Option<string>)
      ensures token == ValidToken(Contents(), key, now)
      ensures token.Some? <==> key in tokens && now + 60 < tokens[key].0
      ensures token.Some? ==> token.value == tokens[key].1
    {
      if key in tokens {
        var (expiry, t) := tokens[key];
        if expiry > now + 60 {
          return Some(t);
        }
      }
      token := None;
    }

    method StoreToken(key: Key, begun: nat, expires: nat, token: string)
      modifies this
      ensures Contents() == WithToken(old(Contents()), key, begun, expires, token)
      ensures Contents() == old(Contents()).(tokens := tokens)
      ensures tokens == if begun == generation then old(tokens)[key := (expires, token)] else old(tokens)
    {
      if generation == begun {
        tokens := tokens[key := (expires, token)];
      }
    }

    /** `response_error`, with the generation that was current when the failed request began. A rate limit blocks for
        as long as GitHub says, at least a second, and for a minute when it says nothing; a refused credential is
        blocked for five minutes; a token that was not accepted is forgotten. */
    method ResponseError(key: Key, begun: nat, response: Response, now: nat)
      modifies this
      ensures Contents() == WithError(old(Contents()), key, begun, response, now)
      ensures Contents() == old(Contents()).(tokens := tokens, blocked := blocked)
      ensures begun != generation ==> tokens == old(tokens) && blocked == old(blocked)
      ensures begun == generation ==>
                tokens == if response.status == 401 then old(tokens) - {key} else old(tokens)
      ensures begun == generation ==>
                if response.status == 429 || response.noneRemaining || response.retryAfter.Some? then
                  var said := if response.retryAfter.Some? then response.retryAfter.value
                    else if response.reset.None? then 60
                    else if response.reset.value > now then response.reset.value - now else 0;
                  blocked == old(blocked)[key := Min(now + if said == 0 then 1 else said, 0xFFFF_FFFF_FFFF_FFFF)]
                else if response.status == 401 || response.status == 403 then
                  blocked == old(blocked)[key := Min(now + 300, 0xFFFF_FFFF_FFFF_FFFF)]
                else blocked == old(blocked)
    {
      var wait: Option<nat>;
      if response.status == 429 || response.noneRemaining || response.retryAfter.Some? {
        var delay;
        if response.retryAfter.Some? {
          delay := response.retryAfter.value;
        } else {
          var reset := if response.reset.Some? then response.reset.value else now + 60;
          delay := Subtract(reset, now);
        }
        wait := Some(Max(delay, 1));
      } else if response.status == 401 || response.status == 403 {
        wait := Some(300);
      } else {
        wait := None;
      }
      if generation == begun {
        if response.status == 401 {
          tokens := tokens - {key};
        }
        if wait.Some? {
          blocked := blocked[key := SaturatingAdd(now, wait.value)];
        }
      }
    }

    method PeekListing(key: Key, scope: string, ttl: nat, now: nat) returns (runners: Option<seq<Runner>>)
      ensures runners == FreshListing(Contents(), key, scope, ttl, now)
      ensures runners.Some? <==> (key, scope) in listings && 0 < ttl && now < listings[(key, scope)].0 + ttl
      ensures runners.Some? ==> runners.value == listings[(key, scope)].1
    {
      if (key, scope) in listings {
        var (at, known) := listings[(key, scope)];
        if Subtract(now, at) < ttl {
          return Some(known);
        }
      }
      runners := None;
    }

    method StoreListing(key: Key, scope: string, begun: nat, now: nat, runners: seq<Runner>)
      modifies this
      ensures Contents() == WithListing(old(Contents()), key, scope, begun, now, runners)
      ensures Contents() == old(Contents()).(listings := listings)
      ensures listings == if begun == generation then old(listings)[(key, scope) := (now, runners)] else old(listings)
    {
      if generation == begun {
        listings := listings[(key, scope) := (now, runners)];
      }
    }

    /** After a runner was deleted its scope has to be listed again. */
    method DropListing(key: Key, scope: string)
      modifies this
      ensures Contents() == WithoutListing(old(Contents()), key, scope)
      ensures Contents() == old(Contents()).(listings := old(listings) - {(key, scope)})
    {
      listings := listings - {(key, scope)};
    }
  }

  /* ---- What errors do ---- */

  /** Only a rate limit or a failed authentication blocks a credential, and it does so at once and for every scope;
      any other error leaves the cache as it was. */
  lemma OnlyCredentialErrorsBlock(m: Memory, key: Key, r: Response, now: nat)
    requires now < U64_MAX
    ensures var after := WithError(m, key, m.generation, r, now);
            && (RateLimited(r) || Unauthorized(r) ==> IsBlocked(after, key, now))
            && (!RateLimited(r) && !Unauthorized(r) ==> after == m)
            && (forall other :: other != key ==> IsBlocked(after, other, now) == IsBlocked(m, other, now))
            && (forall other :: other != key ==> ValidToken(after, other, now) == ValidToken(m, other, now))
            && (r.status == 401 ==> ValidToken(after, key, now).None?)
  {
  }

  /* ---- Whole calls, when nothing else happens ---- */

  /** What GitHub answers to a token exchange, and to a request. */
  datatype Exchange = Granted(expires: nat, token: string) | Refused(refusal: Response) | NoToken

  datatype Reply<T> = Answer(value: T) | NotFound | Rejected(rejection: Response) | NoReply

  /** `access_token`: the profile's own credential, a cached installation token, or a new one. */
  method AccessToken(cache: Cache, key: Key, credential: Result<string>, exchange: Exchange, now: nat)
    returns (r: Result<string>)
    modifies cache
    ensures key.1.app.None? ==> r == credential && cache.Contents() == old(cache.Contents())
    ensures key.1.app.Some? ==>
              if key in old(cache.tokens) && now + 60 < old(cache.tokens)[key].0 then
                && r == Ok(old(cache.tokens)[key].1) && cache.Contents() == old(cache.Contents())
              else if exchange.Granted? then
                && r == Ok(exchange.token)
                && cache.Contents() == old(cache.Contents()).(
                     tokens := old(cache.tokens)[key := (exchange.expires, exchange.token)])
              else
                && r == Err(Failed)
                && cache.Contents() == if exchange.Refused?
                  then WithError(old(cache.Contents()), key, old(cache.generation), exchange.refusal, now)
                                       else old(cache.Contents())
  {
    if key.1.app.None? {
      return credential;
    }
    var begun := cache.Generation();
    var known := cache.PeekToken(key, now);
    if known.Some? {
      return Ok(known.value);
    }
    match exchange
    case Granted(expires, token) =>
      cache.StoreToken(key, begun, expires, token);
      r := Ok(token);
    case Refused(response) =>
      cache.ResponseError(key, begun, response, now);
      r := Err(Failed);
    case NoToken =>
      r := Err(Failed);
  }

  /** `request`: a blocked credential sends nothing at all. `sent` is the token that the request went out with. */
  method Request<T>(cache: Cache, key: Key, credential: Result<string>, exchange: Exchange, reply: Reply<T>, now: nat)
    returns (r: Result<Option<T>>, sent: Option<string>)
    modifies cache
    ensures key in old(cache.blocked) && now < old(cache.blocked)[key] ==>
              r == Err(Failed) && sent.None? && cache.Contents() == old(cache.Contents())
    ensures sent.Some? ==>
              if key.1.app.None? then credential == Ok(sent.value)
              else if key in old(cache.tokens) && now + 60 < old(cache.tokens)[key].0
              then sent.value == old(cache.tokens)[key].1
              else exchange.Granted? && sent.value == exchange.token
    ensures r.Ok? ==>
              sent.Some? && (r.value.Some? <==> reply.Answer?) && (r.value.Some? ==> r.value.value == reply.value)
    ensures r.Err? && sent.Some? ==> reply.Rejected? || reply.NoReply?
    ensures sent.Some? && reply.Rejected? && now < 0xFFFF_FFFF_FFFF_FFFF
            && (reply.rejection.status in {401, 403, 429} || reply.rejection.noneRemaining
                || reply.rejection.retryAfter.Some?) ==>
              key in cache.blocked && now < cache.blocked[key]
    ensures cache.Contents().listings == old(cache.Contents()).listings
  {
    sent := None;
    var begun := cache.Generation();
    var until := cache.CheckBlock(key, now);
    if until.Some? {
      return Err(Failed), None;
    }
    var token := AccessToken(cache, key, credential, exchange, now);
    if token.Err? {
      return Err(token.error), None;
    }
    sent := Some(token.value);
    match reply
    case Answer(value) => r := Ok(Some(value));
    case NotFound => r := Ok(None);
    case Rejected(response) =>
      cache.ResponseError(key, begun, response, now);
      r := Err(Failed);
    case NoReply => r := Err(Failed);
  }

  /** `remove`: once the registration is gone the scope has to be listed again. */
  method Remove(cache: Cache, key: Key, scope: string, credential: Result<string>, exchange: Exchange,
      reply: Reply<bool>, now: nat)
    returns (r: Result<bool>)
    modifies cache
    ensures r.Ok? ==> (key, scope) !in cache.listings
    ensures r.Err? ==> cache.Contents().listings == old(cache.Contents()).listings
    ensures forall k :: k in old(cache.Contents()).listings && k != (key, scope) ==>
              k in cache.Contents().listings && cache.Contents().listings[k] == old(cache.Contents()).listings[k]
  {
    var done, sent := Request(cache, key, credential, exchange, reply, now);
    if done.Err? {
      return Err(done.error);
    }
    cache.DropListing(key, scope);
    r := Ok(true);
  }
}

/** The page loop of `list`. */
module Pagination {
  import opened Basics
  import opened Backoff
  import opened Config
  import opened GithubCache

  const PAGE: nat := 100
  const PAGES: nat := 10000

  /** Page `page` (counted from 1) of a list served in pages. */
  function Page<T>(all: seq<T>, page: nat): (r: seq<T>)
    requires page >= 1
    ensures |r| == Min(PAGE, Subtract(|all|, (page - 1) * PAGE))
  {
    var from := Min((page - 1) * PAGE, |all|);
    all[from..Min(from + PAGE, |all|)]
  }

  method FetchAll(all: seq<Runner>) returns (r: Result<seq<Runner>>)
    ensures r.Ok? <==> |all| < 1_000_000
    ensures r.Ok? ==> r.value == all
  {
    var runners: seq<Runner> := [];
    for page := 1 to PAGES + 1
      invariant |all| >= (page - 1) * PAGE && runners == all[..(page - 1) * PAGE]
    {
      var batch := Page(all, page);
      var done := |batch| < PAGE;
      runners := runners + batch;
      if done {
        assert runners == all;
        return Ok(runners);
      }
    }
    r := Err(Failed);
  }

  /** `list` without interference: from the cache exactly what was stored less than `ttl` seconds ago, and else the
      whole remote list, which is then stored. */
  method List(cache: Cache, key: Key, scope: string, ttl: nat, now: nat, remote: seq<Runner>)
    returns (r: Result<seq<Runner>>)
    modifies cache
    ensures var known := old(cache.listings);
            if (key, scope) in known && 0 < ttl && now < known[(key, scope)].0 + ttl
            then r == Ok(known[(key, scope)].1) && cache.Contents() == old(cache.Contents())
            else
              && (r.Ok? <==> |remote| < 1_000_000) && (r.Ok? ==> r.value == remote)
              && cache.Contents() == if r.Ok?
                then old(cache.Contents()).(listings := known[(key, scope) := (now, remote)])
                else old(cache.Contents())
    ensures ttl == 0 ==> (r.Ok? <==> |remote| < 1_000_000) && (r.Ok? ==> r.value == remote)
  {
    var begun := cache.Generation();
    var known := cache.PeekListing(key, scope, ttl, now);
    if known.Some? {
      return Ok(known.value);
    }
    r := FetchAll(remote);
    if r.Ok? {
      cache.StoreListing(key, scope, begun, now, r.value);
    }
  }
}
