/** Any number of requests at once on the shared cache: each critical section is one event, in any order. */
module Fencing {
  import opened Basics
  import opened Config
  import opened Backoff
  import opened GithubCache

  /** A list, a request or a token exchange under way. `begun` is the generation that it has seen, `epoch` counts
      the clears before that; `since` is the event at which a list began, and `checked` the one at which a request found
      its credential not blocked. */
  datatype Task =
    | Listing(key: Key, scope: string, begun: nat, epoch: nat, since: nat)
    | Calling(key: Key, begun: nat, epoch: nat, checked: Option<nat>)
    | Exchange(key: Key, begun: nat, epoch: nat, checked: Option<nat>)

  datatype Event =
    | Clear
    | Wait(seconds: nat)
    | BeginList(id: nat, key: Key, scope: string)
    | StoreList(id: nat, runners: seq<Runner>)
    | BeginRequest(id: nat, key: Key)
    | Check(id: nat)
    | BeginExchange(id: nat, request: nat)
    | StoreExchanged(id: nat, expires: nat, token: string)
    | Fail(id: nat, response: Response)
    | Drop(key: Key, scope: string)
    | End(id: nat)

  /** Where an entry of the cache comes from: the clears before its request began, and for a listing the event at which
      its list began, for a block the event that wrote it. */
  datatype Birth = Birth(epoch: nat, event: nat)

  /** The cache and, beside it, the births of its entries. */
  datatype Hub = Hub(
    memory: Memory, clears: nat, clock: nat, events: nat, tasks: map<nat, Task>,
    listings: map<(Key, string), Birth>, tokens: map<Key, Birth>, blocks: map<Key, Birth>)

  function Fresh(): Hub {
    Hub(Memory(map[], map[], map[], 0), 0, 0, 0, map[], map[], map[], map[])
  }

  /** May this task send its request now? A list sends nothing itself. */
  predicate MaySend(h: Hub, id: nat) {
    id in h.tasks && !h.tasks[id].Listing? && h.tasks[id].checked.Some?
  }

  function Listed(h: Hub, id: nat, runners: seq<Runner>): Hub
    requires id in h.tasks && h.tasks[id].Listing?
  {
    var t := h.tasks[id];
    h.(memory := WithListing(h.memory, t.key, t.scope, t.begun, h.clock, runners),
       listings := if h.memory.generation == t.begun
         then h.listings[(t.key, t.scope) := Birth(t.epoch, t.since)] else h.listings)
  }

  function Checked(h: Hub, id: nat): Hub
    requires id in h.tasks && h.tasks[id].Calling?
  {
    if IsBlocked(h.memory, h.tasks[id].key, h.clock) then Gone(h, id)
    else h.(tasks := h.tasks[id := h.tasks[id].(checked := Some(h.events))])
  }

  function Exchanged(h: Hub, id: nat, expires: nat, token: string): Hub
    requires id in h.tasks && h.tasks[id].Exchange?
  {
    var t := h.tasks[id];
    h.(memory := WithToken(h.memory, t.key, t.begun, expires, token),
       tokens := if h.memory.generation == t.begun then h.tokens[t.key := Birth(t.epoch, h.events)] else h.tokens)
  }

  function Failed(h: Hub, id: nat, response: Response): Hub
    requires id in h.tasks
  {
    var t := h.tasks[id];
    if h.memory.generation != t.begun then h else
      var revoked := h.(tokens := if response.status == 401 then h.tokens - {t.key} else h.tokens,
                        memory := WithError(h.memory, t.key, t.begun, response, h.clock));
      if BlockedFor(response, h.clock).None? then revoked
      else revoked.(blocks := h.blocks[t.key := Birth(t.epoch, h.events)])
  }

  function Started(h: Hub, id: nat, t: Task): Hub {
    if id in h.tasks then h else h.(tasks := h.tasks[id := t])
  }

  function Gone(h: Hub, id: nat): Hub {
    h.(tasks := h.tasks - {id})
  }

  /** An event that cannot happen now is ignored. */
  function Happened(h: Hub, e: Event): Hub {
    match e
    case Clear =>
      Hub(Cleared(h.memory), h.clears + 1, h.clock, h.events, h.tasks, map[], map[], map[])
    case Wait(seconds) =>
      h.(clock := h.clock + seconds)
    case BeginList(id, key, scope) =>
      Started(h, id, Listing(key, scope, h.memory.generation, h.clears, h.events))
    case StoreList(id, runners) =>
      if id in h.tasks && h.tasks[id].Listing? then Gone(Listed(h, id, runners), id) else h
    case BeginRequest(id, key) =>
      Started(h, id, Calling(key, h.memory.generation, h.clears, None))
    case Check(id) =>
      if id in h.tasks && h.tasks[id].Calling? then Checked(h, id) else h
    case BeginExchange(id, request) =>
      if request in h.tasks && h.tasks[request].Calling? && h.tasks[request].checked.Some?
      then Started(h, id, Exchange(h.tasks[request].key, h.memory.generation, h.clears,
          h.tasks[request].checked)) else h
    case StoreExchanged(id, expires, token) =>
      if id in h.tasks && h.tasks[id].Exchange? then Gone(Exchanged(h, id, expires, token), id) else h
    case Fail(id, response) =>
      if MaySend(h, id) then Gone(Failed(h, id, response), id) else h
    case Drop(key, scope) =>
      h.(memory := WithoutListing(h.memory, key, scope), listings := h.listings - {(key, scope)})
    case End(id) =>
      Gone(h, id)
  }

  function Next(h: Hub, e: Event): Hub {
    Happened(h, e).(events := h.events + 1)
  }

  function After(es: seq<Event>): Hub {
    if es == [] then Fresh() else Next(After(es[..|es| - 1]), es[|es| - 1])
  }

  /* ---- Fencing ---- */

  predicate TaskFits(h: Hub, id: nat)
    requires id in h.tasks
  {
    h.tasks[id].epoch <= h.clears && h.tasks[id].begun == h.tasks[id].epoch % GENERATIONS
  }

  /** Every entry was written by a request that began after the last clear. */
  predicate ListingsCurrent(h: Hub) {
    h.listings.Keys == h.memory.listings.Keys && forall k :: k in h.listings ==> h.listings[k].epoch == h.clears
  }

  predicate TokensCurrent(h: Hub) {
    h.tokens.Keys == h.memory.tokens.Keys && forall k :: k in h.tokens ==> h.tokens[k].epoch == h.clears
  }

  predicate BlocksCurrent(h: Hub) {
    h.blocks.Keys == h.memory.blocked.Keys && forall k :: k in h.blocks ==> h.blocks[k].epoch == h.clears
  }

  ghost predicate Fenced(h: Hub) {
    && h.memory.generation == h.clears % GENERATIONS
    && (forall id {:trigger TaskFits(h, id)} :: id in h.tasks ==> TaskFits(h, id))
    && ListingsCurrent(h) && TokensCurrent(h) && BlocksCurrent(h)
  }

  /** A task whose generation is still the current one has seen no clear. */
  lemma SameGenerationMeansNoClear(h: Hub, id: nat)
    requires Fenced(h) && h.clears < GENERATIONS && id in h.tasks
    ensures h.tasks[id].begun == h.memory.generation <==> h.tasks[id].epoch == h.clears
  {
    assert TaskFits(h, id);
  }

  /** A task keeps the generation that it began in. */
  lemma TasksKeepTheirBeginning(h: Hub, e: Event, id: nat)
    requires id in Happened(h, e).tasks
    ensures var t := Happened(h, e).tasks[id];
            || (id in h.tasks && t.epoch == h.tasks[id].epoch && t.begun == h.tasks[id].begun)
            || (t.epoch == h.clears && t.begun == h.memory.generation)
    ensures h.clears <= Happened(h, e).clears
  {
  }

  lemma TasksStillFit(h: Hub, e: Event, id: nat)
    requires Fenced(h) && id in Next(h, e).tasks
    ensures TaskFits(Next(h, e), id)
  {
    TasksKeepTheirBeginning(h, e, id);
    assert id in h.tasks ==> TaskFits(h, id);
  }

  lemma WhoTouchesListings(h: Hub, e: Event)
    requires !e.Clear? && !e.StoreList? && !e.Drop?
    ensures var t := Next(h, e);
            t.memory.listings == h.memory.listings && t.listings == h.listings && t.clears == h.clears
  {
  }

  lemma ListedIsCurrent(h: Hub, id: nat, runners: seq<Runner>)
    requires ListingsCurrent(h) && id in h.tasks && h.tasks[id].Listing?
    requires h.memory.generation == h.tasks[id].begun ==> h.tasks[id].epoch == h.clears
    ensures ListingsCurrent(Listed(h, id, runners))
  {
  }

  lemma ListingsStayCurrent(h: Hub, e: Event)
    requires Fenced(h) && h.clears < GENERATIONS
    ensures ListingsCurrent(Next(h, e))
  {
    if e.StoreList? {
      if e.id in h.tasks && h.tasks[e.id].Listing? {
        SameGenerationMeansNoClear(h, e.id);
        ListedIsCurrent(h, e.id, e.runners);
      }
    } else if !e.Clear? && !e.Drop? {
      WhoTouchesListings(h, e);
    }
  }

  lemma WhoTouchesTokens(h: Hub, e: Event)
    requires !e.Clear? && !e.StoreExchanged? && !e.Fail?
    ensures var t := Next(h, e);
            t.memory.tokens == h.memory.tokens && t.tokens == h.tokens && t.clears == h.clears
  {
  }

  lemma ExchangedIsCurrent(h: Hub, id: nat, expires: nat, token: string)
    requires TokensCurrent(h) && id in h.tasks && h.tasks[id].Exchange?
    requires h.memory.generation == h.tasks[id].begun ==> h.tasks[id].epoch == h.clears
    ensures TokensCurrent(Exchanged(h, id, expires, token))
  {
  }

  lemma TokensStayCurrent(h: Hub, e: Event)
    requires Fenced(h) && h.clears < GENERATIONS
    ensures TokensCurrent(Next(h, e))
  {
    if e.StoreExchanged? {
      if e.id in h.tasks && h.tasks[e.id].Exchange? {
        SameGenerationMeansNoClear(h, e.id);
        ExchangedIsCurrent(h, e.id, e.expires, e.token);
      }
    } else if !e.Clear? && !e.Fail? {
      WhoTouchesTokens(h, e);
    }
  }

  lemma WhoTouchesBlocks(h: Hub, e: Event)
    requires !e.Clear? && !e.Fail?
    ensures var t := Next(h, e);
            && t.memory.blocked == h.memory.blocked && t.blocks == h.blocks
            && t.clears == h.clears && t.clock >= h.clock
  {
  }

  lemma FailedBlocksAreCurrent(h: Hub, id: nat, response: Response)
    requires BlocksCurrent(h) && id in h.tasks
             && (h.memory.generation == h.tasks[id].begun ==> h.tasks[id].epoch == h.clears)
    ensures BlocksCurrent(Failed(h, id, response))
  {
  }

  lemma BlocksStayCurrent(h: Hub, e: Event)
    requires Fenced(h) && h.clears < GENERATIONS
    ensures BlocksCurrent(Next(h, e))
  {
    if e.Fail? {
      if MaySend(h, e.id) {
        SameGenerationMeansNoClear(h, e.id);
        FailedBlocksAreCurrent(h, e.id, e.response);
      }
    } else if !e.Clear? {
      WhoTouchesBlocks(h, e);
    }
  }

  lemma GenerationCountsClears(h: Hub, e: Event)
    requires h.memory.generation == h.clears % GENERATIONS
    ensures Next(h, e).memory.generation == Next(h, e).clears % GENERATIONS
  {
  }

  lemma NextIsFenced(h: Hub, e: Event)
    requires Fenced(h) && h.clears < GENERATIONS
    ensures Fenced(Next(h, e))
  {
    ListingsStayCurrent(h, e);
    TokensStayCurrent(h, e);
    BlocksStayCurrent(h, e);
    GenerationCountsClears(h, e);
    forall id | id in Next(h, e).tasks ensures TaskFits(Next(h, e), id) {
      TasksStillFit(h, e, id);
    }
  }

  lemma ClearsOnlyGrow(h: Hub, e: Event)
    ensures h.clears <= Next(h, e).clears
  {
  }

  /** In every interleaving of lists, requests, token exchanges, failures, deletions and clears, every cached listing,
      installation token and block was written by a request begun since the last clear. The u64 generation must not
      have gone all the way round. */
  lemma {:induction false} CacheIsFenced(es: seq<Event>)
    requires After(es).clears < GENERATIONS
    ensures Fenced(After(es))
  {
    if es != [] {
      ClearsOnlyGrow(After(es[..|es| - 1]), es[|es| - 1]);
      CacheIsFenced(es[..|es| - 1]);
      NextIsFenced(After(es[..|es| - 1]), es[|es| - 1]);
    }
  }

  /** A clear fences out everything in flight: whatever a task begun before it still does, the cache does not change. */
  lemma ClearFencesOut(h: Hub, e: Event)
    requires Fenced(h) && h.clears < GENERATIONS
    requires (e.StoreList? || e.StoreExchanged? || e.Fail?) && e.id in h.tasks && h.tasks[e.id].epoch < h.clears
    ensures Next(h, e).memory == h.memory
  {
    SameGenerationMeansNoClear(h, e.id);
  }

  /* ---- Blocks ---- */

  /** A task that may send although its credential is blocked made its check before the block was written. */
  ghost predicate CheckedFirst(h: Hub, id: nat) {
    MaySend(h, id) && IsBlocked(h.memory, h.tasks[id].key, h.clock) ==>
      h.tasks[id].key in h.blocks && h.tasks[id].checked.value < h.blocks[h.tasks[id].key].event
  }

  ghost predicate BlocksComeLater(h: Hub) {
    && h.blocks.Keys == h.memory.blocked.Keys
    && (forall id :: MaySend(h, id) ==> h.tasks[id].checked.value < h.events)
    && (forall id {:trigger CheckedFirst(h, id)} :: CheckedFirst(h, id))
  }

  /** A check is made now, on a credential that is not blocked, or was made earlier for the same credential. */
  lemma ChecksAreOld(h: Hub, e: Event, id: nat) returns (earlier: nat)
    requires MaySend(Next(h, e), id)
    ensures var t := Next(h, e).tasks[id];
            || (MaySend(h, earlier) && h.tasks[earlier].key == t.key && h.tasks[earlier].checked == t.checked)
            || (!IsBlocked(h.memory, t.key, h.clock) && t.checked == Some(h.events) && e.Check?)
  {
    earlier := if e.BeginExchange? && id !in h.tasks then e.request else id;
  }

  /** A block is written now, or was there already, at the same time of writing. */
  lemma BlocksAreOld(h: Hub, e: Event, key: Key)
    requires h.blocks.Keys == h.memory.blocked.Keys
    ensures var t := Next(h, e);
            && t.blocks.Keys == t.memory.blocked.Keys
            && (IsBlocked(t.memory, key, t.clock) && t.blocks[key].event != h.events ==>
                  IsBlocked(h.memory, key, h.clock) && t.blocks[key].event == h.blocks[key].event)
            && (IsBlocked(t.memory, key, t.clock) && e.Check? ==> IsBlocked(h.memory, key, h.clock))
  {
    if !e.Clear? && !e.Fail? {
      WhoTouchesBlocks(h, e);
    }
  }

  lemma StillCheckedFirst(h: Hub, e: Event, id: nat)
    requires BlocksComeLater(h)
    ensures CheckedFirst(Next(h, e), id)
    ensures MaySend(Next(h, e), id) ==> Next(h, e).tasks[id].checked.value < Next(h, e).events
  {
    if MaySend(Next(h, e), id) {
      var earlier := ChecksAreOld(h, e, id);
      BlocksAreOld(h, e, Next(h, e).tasks[id].key);
      assert CheckedFirst(h, earlier);
    }
  }

  lemma BlocksStillComeLater(h: Hub, e: Event)
    requires BlocksComeLater(h)
    ensures BlocksComeLater(Next(h, e))
  {
    BlocksAreOld(h, e, ("", Auth("", None)));
    forall id
      ensures CheckedFirst(Next(h, e), id)
          && (MaySend(Next(h, e), id) ==> Next(h, e).tasks[id].checked.value < Next(h, e).events)
    {
      StillCheckedFirst(h, e, id);
    }
  }

  lemma {:induction false} NoSendAfterABlockedCheck(es: seq<Event>)
    ensures BlocksComeLater(After(es))
  {
    if es != [] {
      NoSendAfterABlockedCheck(es[..|es| - 1]);
      BlocksStillComeLater(After(es[..|es| - 1]), es[|es| - 1]);
    }
  }

  /** While a credential is blocked, a request that checks now is turned away, for whatever scope it was meant;
      one that may send is one that checked before the block was written. */
  lemma BlockedCredentialIsTurnedAway(es: seq<Event>, id: nat)
    requires var h := After(es); id in h.tasks && IsBlocked(h.memory, h.tasks[id].key, h.clock)
    ensures var h := After(es);
            && (h.tasks[id].Calling? ==> id !in Next(h, Check(id)).tasks)
            && (MaySend(h, id) ==>
                  h.tasks[id].key in h.blocks && h.tasks[id].checked.value < h.blocks[h.tasks[id].key].event)
  {
    NoSendAfterABlockedCheck(es);
    assert CheckedFirst(After(es), id);
  }

  lemma AfterOneMore(es: seq<Event>, e: Event)
    ensures After(es + [e]) == Next(After(es), e)
  {
    assert (es + [e])[..|es|] == es;
  }

  /** Such requests exist: the block does not stop one that has already made its check. */
  lemma InFlightRequestOutrunsBlock(key: Key)
    ensures exists es: seq<Event>, id: nat ::
              MaySend(After(es), id) && IsBlocked(After(es).memory, After(es).tasks[id].key, After(es).clock)
  {
    var es := [];
    AfterOneMore(es, BeginRequest(0, key));
    es := es + [BeginRequest(0, key)];
    AfterOneMore(es, Check(0));
    es := es + [Check(0)];
    assert MaySend(After(es), 0) && After(es).tasks == map[0 := Calling(key, 0, 0, Some(1))];
    AfterOneMore(es, BeginRequest(1, key));
    es := es + [BeginRequest(1, key)];
    AfterOneMore(es, Check(1));
    es := es + [Check(1)];
    assert MaySend(After(es), 1) && After(es).tasks[0] == Calling(key, 0, 0, Some(1));
    AfterOneMore(es, Fail(1, Response(429, false, None, None)));
    es := es + [Fail(1, Response(429, false, None, None))];
    assert MaySend(After(es), 0);
  }

  /* ---- Until when a credential is blocked ---- */

  /** Event `k` writes a block for the credential: a blocking failure in the current generation. */
  predicate WritesBlock(es: seq<Event>, k: nat, key: Key) {
    && k < |es| && es[k].Fail?
    && var h := After(es[..k]);
    && MaySend(h, es[k].id) && h.tasks[es[k].id].key == key && h.tasks[es[k].id].begun == h.memory.generation
    && BlockedFor(es[k].response, h.clock).Some?
  }

  function Deadline(es: seq<Event>, k: nat, key: Key): nat
    requires WritesBlock(es, k, key)
  {
    var h := After(es[..k]);
    SaturatingAdd(h.clock, BlockedFor(es[k].response, h.clock).value)
  }

  /** Event `k` is the last clear or write of a block for the credential. */
  predicate LastTouch(es: seq<Event>, k: nat, key: Key) {
    && k < |es| && (es[k].Clear? || WritesBlock(es, k, key))
    && forall l :: k < l < |es| ==> !es[l].Clear? && !WritesBlock(es, l, key)
  }

  lemma PrefixWrites(es: seq<Event>, k: nat, key: Key)
    requires |es| > 0 && k < |es| - 1
    ensures WritesBlock(es[..|es| - 1], k, key) == WritesBlock(es, k, key)
    ensures WritesBlock(es, k, key) ==> Deadline(es[..|es| - 1], k, key) == Deadline(es, k, key)
  {
    assert es[..|es| - 1][..k] == es[..k];
  }

  /** What one event makes of the block of a credential. */
  lemma OneEventBlocks(es: seq<Event>, key: Key)
    requires |es| > 0
    ensures var k, h, t := |es| - 1, After(es[..|es| - 1]), After(es);
            && (es[k].Clear? ==> key !in t.memory.blocked)
            && (WritesBlock(es, k, key) ==> key in t.memory.blocked && t.memory.blocked[key] == Deadline(es, k, key))
            && (!es[k].Clear? && !WritesBlock(es, k, key) ==>
                  && (key in t.memory.blocked <==> key in h.memory.blocked)
                  && (key in t.memory.blocked ==> t.memory.blocked[key] == h.memory.blocked[key]))
  {
    var e := es[|es| - 1];
    if !e.Clear? && !e.Fail? {
      WhoTouchesBlocks(After(es[..|es| - 1]), e);
    }
  }

  lemma {:induction false} BlockIsLastTouch(es: seq<Event>, k: nat, key: Key)
    requires LastTouch(es, k, key)
    ensures es[k].Clear? ==> key !in After(es).memory.blocked
    ensures !es[k].Clear? ==> key in After(es).memory.blocked && After(es).memory.blocked[key] == Deadline(es, k, key)
  {
    OneEventBlocks(es, key);
    if k < |es| - 1 {
      var front := es[..|es| - 1];
      PrefixWrites(es, k, key);
      forall l | k < l < |front| ensures !front[l].Clear? && !WritesBlock(front, l, key) {
        PrefixWrites(es, l, key);
      }
      BlockIsLastTouch(front, k, key);
    }
  }

  /** Since event `i` the credential has been let go: the last clear or write is a clear, or a later failure has
      moved the deadline to or below the clock. */
  predicate LetGo(es: seq<Event>, i: nat, key: Key) {
    exists k: nat :: i < k < |es| && LastTouch(es, k, key) && (es[k].Clear? || Deadline(es, k, key) <= After(es).clock)
  }

  lemma {:induction false} LastTouchExists(es: seq<Event>, i: nat, key: Key) returns (k: nat)
    requires i < |es| && (es[i].Clear? || WritesBlock(es, i, key))
    ensures i <= k < |es| && LastTouch(es, k, key)
  {
    k := i;
    for l := i + 1 to |es|
      invariant i <= k < l && (es[k].Clear? || WritesBlock(es, k, key))
      invariant forall m :: k < m < l ==> !es[m].Clear? && !WritesBlock(es, m, key)
    {
      if es[l].Clear? || WritesBlock(es, l, key) {
        k := l;
      }
    }
  }

  /** From the event that writes a block until its deadline, a check of the credential is turned away, for whatever
      scope, exactly if the credential has not been let go since: by a clear, or by a later blocking failure whose
      own deadline has come. */
  lemma BlockHoldsUntilItsDeadline(es: seq<Event>, i: nat, key: Key, id: nat)
    requires WritesBlock(es, i, key) && After(es).clock < Deadline(es, i, key)
    requires id in After(es).tasks && After(es).tasks[id].Calling? && After(es).tasks[id].key == key
    ensures (id !in Next(After(es), Check(id)).tasks) <==> !LetGo(es, i, key)
  {
    var k := LastTouchExists(es, i, key);
    BlockIsLastTouch(es, k, key);
    if LetGo(es, i, key) {
      var l: nat :| i < l < |es| && LastTouch(es, l, key) && (es[l].Clear? || Deadline(es, l, key) <= After(es).clock);
      assert l == k;
    }
    assert IsBlocked(After(es).memory, key, After(es).clock) <==> !LetGo(es, i, key);
  }

  const AnHour := Response(429, false, Some(3600), None)
  const NoRight := Response(403, false, None, None)

  /** The first of two requests in flight fails and blocks the credential for an hour. */
  lemma BlockedForAnHour(key: Key) returns (es: seq<Event>)
    ensures |es| == 5 && WritesBlock(es, 4, key) && Deadline(es, 4, key) == 3600 && !es[4].Clear?
    ensures var h := After(es);
            && h.memory.blocked == map[key := 3600] && h.memory.generation == 0 && h.clears == 0 && h.clock == 0
               && h.events == 5
            && h.tasks == map[1 := Calling(key, 0, 0, Some(3))]
  {
    var two := TwoInFlight(key);
    AfterOneMore(two, Fail(0, AnHour));
    es := two + [Fail(0, AnHour)];
    assert es[..4] == two;
  }

  lemma SecondFails(h: Hub, key: Key)
    requires h.memory.blocked == map[key := 3600] && h.memory.generation == 0 && h.clears == 0 && h.clock == 0
             && h.events == 5
    requires h.tasks == map[1 := Calling(key, 0, 0, Some(3))]
    ensures var t := Next(h, Fail(1, NoRight));
            && t.memory.blocked == map[key := 300] && t.memory.generation == 0 && t.clears == 0 && t.clock == 0
               && t.events == 6
            && t.tasks == map[]
  {
  }

  /** Then the second fails, and the block is down to five minutes. */
  lemma BlockedForFiveMinutes(key: Key) returns (es: seq<Event>)
    ensures |es| == 6 && WritesBlock(es, 4, key) && Deadline(es, 4, key) == 3600 && !es[4].Clear? && !es[5].Clear?
    ensures var h := After(es);
            && h.memory.blocked == map[key := 300] && h.memory.generation == 0 && h.clears == 0 && h.clock == 0
               && h.events == 6
            && h.tasks == map[]
  {
    var hour := BlockedForAnHour(key);
    AfterOneMore(hour, Fail(1, NoRight));
    SecondFails(After(hour), key);
    es := hour + [Fail(1, NoRight)];
    WritesEarly(hour, [Fail(1, NoRight)], 4, key);
  }

  lemma UsedAfterFiveMinutes(key: Key, es: seq<Event>)
    requires var h := After(es);
             && h.memory.blocked == map[key := 300] && h.memory.generation == 0 && h.clears == 0 && h.clock == 0
                && h.events == 6
             && h.tasks == map[]
    ensures var h := After(es + [Wait(300)] + [BeginRequest(2, key)] + [Check(2)]);
            h.clock == 300 && MaySend(h, 2) && h.tasks[2] == Calling(key, 0, 0, Some(8))
  {
    AfterOneMore(es, Wait(300));
    AfterOneMore(es + [Wait(300)], BeginRequest(2, key));
    AfterOneMore(es + [Wait(300)] + [BeginRequest(2, key)], Check(2));
  }

  lemma WritesEarly(es: seq<Event>, more: seq<Event>, k: nat, key: Key)
    requires WritesBlock(es, k, key)
    ensures WritesBlock(es + more, k, key) && Deadline(es + more, k, key) == Deadline(es, k, key)
  {
    assert (es + more)[..k] == es[..k];
  }

  /** A later failure of another request in flight can shorten a block: the first says an hour, the second five
      minutes, and after five minutes the credential is used again though nothing was cleared. */
  lemma LaterFailureShortensBlock(key: Key) returns (es: seq<Event>)
    ensures |es| == 9 && WritesBlock(es, 4, key) && After(es).clock < Deadline(es, 4, key)
    ensures forall k :: 4 <= k < 9 ==> !es[k].Clear?
    ensures MaySend(After(es), 2) && After(es).tasks[2].key == key && After(es).tasks[2].checked.value > 4
  {
    var six := BlockedForFiveMinutes(key);
    UsedAfterFiveMinutes(key, six);
    es := six + [Wait(300)] + [BeginRequest(2, key)] + [Check(2)];
    WritesEarly(six, [Wait(300)] + [BeginRequest(2, key)] + [Check(2)], 4, key);
    assert six + ([Wait(300)] + [BeginRequest(2, key)] + [Check(2)]) == es;
  }

  /** Two requests have begun and made their checks. */
  lemma TwoInFlight(key: Key) returns (es: seq<Event>)
    ensures |es| == 4
    ensures After(es) == Fresh().(events := 4,
        tasks := map[0 := Calling(key, 0, 0, Some(1)), 1 := Calling(key, 0, 0, Some(3))])
  {
    es := [];
    AfterOneMore(es, BeginRequest(0, key));
    es := es + [BeginRequest(0, key)];
    AfterOneMore(es, Check(0));
    es := es + [Check(0)];
    assert After(es) == Fresh().(events := 2, tasks := map[0 := Calling(key, 0, 0, Some(1))]);
    AfterOneMore(es, BeginRequest(1, key));
    es := es + [BeginRequest(1, key)];
    AfterOneMore(es, Check(1));
    es := es + [Check(1)];
  }

  /* ---- Listings and deletions ---- */

  /** A list of this scope, of the current generation, is under way. */
  predicate ListUnderWay(h: Hub, key: Key, scope: string, id: nat) {
    id in h.tasks && h.tasks[id].Listing? && h.tasks[id].key == key && h.tasks[id].scope == scope
        && h.tasks[id].begun == h.memory.generation
  }

  /** The cached listing of this scope was begun before the event. */
  predicate OlderThan(h: Hub, key: Key, scope: string, event: nat) {
    (key, scope) in h.memory.listings && (key, scope) in h.listings && h.listings[(key, scope)].event < event
  }

  /** After a deletion at `event`: the lists of this scope still under way from before it are among those of `at`, and
      a cached listing from before it goes back to one of them. */
  ghost predicate Traced(at: Hub, h: Hub, key: Key, scope: string, event: nat) {
    && at.clears <= h.clears && event <= h.events
    && h.listings.Keys == h.memory.listings.Keys
    && (forall id {:trigger OldList(h, key, scope, event, id)} :: OldList(h, key, scope, event, id) ==>
          id in at.tasks && at.tasks[id] == h.tasks[id])
    && (OlderThan(h, key, scope, event) ==> exists id :: ListUnderWay(at, key, scope, id))
  }

  predicate OldList(h: Hub, key: Key, scope: string, event: nat, id: nat) {
    id in h.tasks && h.tasks[id].Listing? && h.tasks[id].key == key && h.tasks[id].scope == scope
        && h.tasks[id].since < event
  }

  lemma OldListsAreOld(h: Hub, e: Event, key: Key, scope: string, event: nat, id: nat)
    requires OldList(Next(h, e), key, scope, event, id) && event <= h.events
    ensures OldList(h, key, scope, event, id) && Next(h, e).tasks[id] == h.tasks[id]
  {
  }

  lemma SinceKeepsKeys(h: Hub, e: Event)
    requires h.listings.Keys == h.memory.listings.Keys
    ensures Next(h, e).listings.Keys == Next(h, e).memory.listings.Keys
  {
  }

  /** An older listing was there before, or is being stored now by a list that has seen no clear. */
  lemma OlderIsOlder(h: Hub, e: Event, key: Key, scope: string, event: nat)
    requires h.listings.Keys == h.memory.listings.Keys && OlderThan(Next(h, e), key, scope, event)
    ensures OlderThan(h, key, scope, event)
            || (e.StoreList? && OldList(h, key, scope, event, e.id) && h.tasks[e.id].begun == h.memory.generation)
  {
    if !e.Clear? && !e.StoreList? && !e.Drop? {
      WhoTouchesListings(h, e);
    }
  }

  lemma StillTraced(at: Hub, h: Hub, e: Event, key: Key, scope: string, event: nat)
    requires Traced(at, h, key, scope, event) && Fenced(at) && Fenced(h) && Next(h, e).clears < GENERATIONS
    ensures Traced(at, Next(h, e), key, scope, event)
  {
    ClearsOnlyGrow(h, e);
    SinceKeepsKeys(h, e);
    forall id | OldList(Next(h, e), key, scope, event, id)
      ensures id in at.tasks && at.tasks[id] == Next(h, e).tasks[id]
    {
      OldListsAreOld(h, e, key, scope, event, id);
    }
    if OlderThan(Next(h, e), key, scope, event) {
      OlderIsOlder(h, e, key, scope, event);
      if !OlderThan(h, key, scope, event) {
        SameGenerationMeansNoClear(h, e.id);
        assert OldList(h, key, scope, event, e.id) && TaskFits(at, e.id);
        assert ListUnderWay(at, key, scope, e.id);
      }
    }
  }

  lemma {:induction false} SinceHasKeys(es: seq<Event>)
    ensures After(es).listings.Keys == After(es).memory.listings.Keys
  {
    if es != [] {
      SinceHasKeys(es[..|es| - 1]);
      SinceKeepsKeys(After(es[..|es| - 1]), es[|es| - 1]);
    }
  }

  lemma {:induction false} EventsCount(es: seq<Event>)
    ensures After(es).events == |es|
  {
    if es != [] {
      EventsCount(es[..|es| - 1]);
    }
  }

  lemma TracedAfterDrop(es: seq<Event>, key: Key, scope: string)
    ensures Traced(After(es), After(es + [Drop(key, scope)]), key, scope, |es|)
  {
    AfterOneMore(es, Drop(key, scope));
    SinceHasKeys(es);
    EventsCount(es);
    TracedAtDrop(After(es), key, scope);
  }

  lemma TracedAtDrop(h: Hub, key: Key, scope: string)
    requires h.listings.Keys == h.memory.listings.Keys
    ensures Traced(h, Next(h, Drop(key, scope)), key, scope, h.events)
  {
  }

  lemma {:induction false} TracedLater(es: seq<Event>, more: seq<Event>, key: Key, scope: string)
    requires After(es + [Drop(key, scope)] + more).clears < GENERATIONS
    ensures Traced(After(es), After(es + [Drop(key, scope)] + more), key, scope, |es|)
    ensures Fenced(After(es)) && After(es).clears <= After(es + [Drop(key, scope)] + more).clears
  {
    var all := es + [Drop(key, scope)] + more;
    if more == [] {
      assert all == es + [Drop(key, scope)];
      TracedAfterDrop(es, key, scope);
      AfterOneMore(es, Drop(key, scope));
      CacheIsFenced(es);
    } else {
      var front, last := more[..|more| - 1], more[|more| - 1];
      assert all == (es + [Drop(key, scope)] + front) + [last];
      AfterOneMore(es + [Drop(key, scope)] + front, last);
      ClearsOnlyGrow(After(es + [Drop(key, scope)] + front), last);
      TracedLater(es, front, key, scope);
      CacheIsFenced(es + [Drop(key, scope)] + front);
      StillTraced(After(es), After(es + [Drop(key, scope)] + front), last, key, scope, |es|);
    }
  }

  /** Some continuation caches a listing that was begun before the deletion. */
  ghost predicate MayComeBack(es: seq<Event>, key: Key, scope: string) {
    exists more: seq<Event> ::
      && After(es + [Drop(key, scope)] + more).clears < GENERATIONS
      && OlderThan(After(es + [Drop(key, scope)] + more), key, scope, |es|)
  }

  lemma NewListsAreNew(h: Hub, e: Event, id: nat)
    requires id in Next(h, e).tasks && Next(h, e).tasks[id].Listing?
    ensures (id in h.tasks && h.tasks[id] == Next(h, e).tasks[id]) || Next(h, e).tasks[id].since == h.events
  {
  }

  lemma {:induction false} TasksAreOld(es: seq<Event>, id: nat)
    requires id in After(es).tasks && After(es).tasks[id].Listing?
    ensures After(es).tasks[id].since < |es|
  {
    if es != [] {
      var front := es[..|es| - 1];
      EventsCount(front);
      NewListsAreNew(After(front), es[|es| - 1], id);
      if id in After(front).tasks && After(front).tasks[id] == After(es).tasks[id] {
        TasksAreOld(front, id);
      }
    }
  }

  lemma UnderWayComesBack(es: seq<Event>, key: Key, scope: string, id: nat)
    requires After(es).clears < GENERATIONS && ListUnderWay(After(es), key, scope, id)
    ensures MayComeBack(es, key, scope)
  {
    TasksAreOld(es, id);
    var dropped := es + [Drop(key, scope)];
    AfterOneMore(es, Drop(key, scope));
    AfterOneMore(dropped, StoreList(id, []));
    assert dropped + [StoreList(id, [])] == es + [Drop(key, scope)] + [StoreList(id, [])];
    assert OlderThan(After(dropped + [StoreList(id, [])]), key, scope, |es|);
  }

  /** Deleting a runner drops the cached listing but fences out nothing: a listing from before the deletion can come
      back if and only if a list of this scope, of the current generation, was under way at the deletion. */
  lemma ListingOutlivesDeletionExactly(es: seq<Event>, key: Key, scope: string)
    requires After(es).clears < GENERATIONS
    ensures MayComeBack(es, key, scope) <==> exists id :: ListUnderWay(After(es), key, scope, id)
  {
    if MayComeBack(es, key, scope) {
      var more :| After(es + [Drop(key, scope)] + more).clears < GENERATIONS
          && OlderThan(After(es + [Drop(key, scope)] + more), key, scope, |es|);
      TracedLater(es, more, key, scope);
    }
    if id :| ListUnderWay(After(es), key, scope, id) {
      UnderWayComesBack(es, key, scope, id);
    }
  }
}
