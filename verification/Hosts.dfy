/** The outside as the manager reaches it: the store, Docker, GitHub, files, clock and UUIDs. A quiet host is one
    where nothing moves by itself, no request arrives and everything that can succeed does. */
module Hosts {
  import opened Basics
  import opened Config
  import opened States
  import opened Requests
  import opened Worlds
  import opened Protocol

  /** The single row of the SQLite table: saves are atomic and reliable. */
  class Store {
    var row: Option<State>

    constructor ()
      ensures row == None
    {
      row := None;
    }

    method Save(st: State)
      modifies this
      ensures row == Some(st)
    {
      row := Some(st);
    }

    method Load() returns (st: Option<State>)
      ensures st == row
    {
      st := row;
    }
  }

  datatype Answer =
    | Nothing
    | Containers(listing: seq<Container>)
    | Runners(runners: map<string, Remote>)
    | BootedAt(time: nat)

  /** The registrations of one scope. */
  function RunnersIn(w: World, scope: string): map<string, Remote> {
    map k | k in w.registrations && k.0 == scope :: k.1 := w.registrations[k]
  }

  /** What a call that took place reports. A cached listing may be any earlier one. */
  ghost predicate Reports(e: Effect, w: World, manager: string, a: Answer) {
    match e
    case ListContainers => a.Containers? && ListingOf(a.listing, w, manager)
    case ListRunners(scope, cached) => a.Runners? && (cached || a.runners == RunnersIn(w, scope))
    case ReadBootTime(_) => a.BootedAt?
    case _ => a == Nothing
  }

  class Host {
    const quiet: bool
    const start: nat            // no clock of a quiet host shows less
    var world: World
    var file: Option<Text>
    var issued: set<string>     // run ids given out so far
    var poolIds: set<string>    // pool ids given out so far

    constructor (quiet: bool, start: nat, world: World, file: Option<Text>)
      ensures this.quiet == quiet && this.start == start && this.world == world && this.file == file && issued == {}
              && poolIds == {}
    {
      this.quiet, this.start := quiet, start;
      this.world := world;
      this.file := file;
      issued, poolIds := {}, {};
    }

    method Clock() returns (t: nat)
      ensures quiet ==> t >= start
    {
      t := *;
      if quiet && t < start {
        t := start;
      }
    }

    /** One byte of a UUID, modulo 7. */
    method Jitter() returns (j: nat)
      ensures j < 7
    {
      j := *;
      j := j % 7;
    }

    method Coin() returns (heads: bool)
      ensures quiet ==> heads
    {
      if quiet {
        return true;
      }
      heads := *;
    }

    /** How much happens while a call is under way. */
    method Events() returns (n: nat)
      ensures quiet ==> n == 0
    {
      if quiet {
        return 0;
      }
      n := *;
    }

    method ArrivingRequest() returns (req: Request) {
      req := *;
    }

    /** Containers exit, runners register and finish, people edit config.toml. */
    method Move()
      requires Drift(issued, world, world)
      modifies this`world, this`file
      ensures Drift(issued, old(world), world)
    {
      var w: World := *;
      if Drift(issued, world, w) {
        world := w;
      }
      file := *;
    }

    /** A UUID: any text that is not in use. */
    method Uuid(used: set<string>) returns (id: string)
      ensures id !in used
    {
      id := *;
      if id !in used {
        return;
      }
      id := "";
      var rest := used;
      while rest != {}
        invariant rest <= used
        invariant forall s :: s in used - rest ==> |s| < |id|
        decreases |rest|
      {
        var s :| s in rest;
        rest := rest - {s};
        if |s| >= |id| {
          id := s + "x";
        }
      }
      assert used - rest == used;
    }

    /** `atomic_write` of config.toml: it may fail before or after the rename. */
    method WriteConfig(text: Text) returns (written: bool, ok: bool)
      modifies this`file
      ensures file == if written then Some(text) else old(file)
      ensures ok ==> written
      ensures quiet ==> ok
    {
      written := Coin();
      ok := false;
      if written {
        file := Some(text);
        ok := Coin();
      }
    }

    /** Any other file operation: tokens, logs, expiry. */
    method FileOperation() returns (ok: bool)
      ensures quiet ==> ok
    {
      ok := Coin();
    }

    method MakeDir(id: string) returns (ok: bool)
      modifies this`world
      ensures world == old(world).(dirs := old(world.dirs) + {id}) || (!ok && world == old(world))
      ensures quiet ==> ok
    {
      ok := Coin();
      var made := Coin();
      if ok || made {
        world := world.(dirs := world.dirs + {id});
      }
    }

    method RemoveDir(id: string) returns (ok: bool)
      modifies this`world
      ensures world == if ok then old(world).(dirs := old(world.dirs) - {id}) else old(world)
      ensures quiet ==> ok
    {
      ok := Coin();
      if ok {
        world := world.(dirs := world.dirs - {id});
      }
    }

    method ListAll(manager: string) returns (listing: seq<Container>)
      requires forall n :: n in world.containers ==> world.containers[n].name == n
      ensures ListingOf(listing, world, manager)
    {
      listing := [];
      var rest := world.containers.Keys;
      while rest != {}
        invariant rest <= world.containers.Keys
        invariant forall c :: c in listing ==>
                  c.name in world.containers && c.name !in rest && world.containers[c.name] == c
                  && c.manager == Some(manager)
        invariant forall n :: n in world.containers && n !in rest && world.containers[n].manager == Some(manager) ==>
                  world.containers[n] in listing
        invariant forall i, j :: 0 <= i < j < |listing| ==> listing[i] != listing[j]
        decreases |rest|
      {
        var n :| n in rest;
        rest := rest - {n};
        if world.containers[n].manager == Some(manager) {
          assert forall i :: 0 <= i < |listing| ==> listing[i] in listing;
          listing := listing + [world.containers[n]];
        }
      }
    }

    /** One external call. It may fail before, or after, it took effect. */
    method Perform(e: Effect, manager: string) returns (happened: bool, answer: Option<Answer>)
      requires forall n :: n in world.containers ==> world.containers[n].name == n
      modifies this`world
      ensures happened ==> Takes(e, old(world)) == Some(world)
      ensures !happened ==> world == old(world) && answer.None?
      ensures answer.Some? ==> Reports(e, world, manager, answer.value)
      ensures quiet && Takes(e, old(world)).Some? ==> answer.Some?
    {
      var next := Takes(e, world);
      happened := Coin();
      if next.None? || !happened {
        return false, None;
      }
      world := next.value;
      var ok := Coin();
      if !ok {
        return true, None;
      }
      match e
      case ListContainers =>
        assert world == old(world);
        var listing := ListAll(manager);
        answer := Some(Containers(listing));
      case ListRunners(scope, cached) =>
        var runners := RunnersIn(world, scope);
        if cached {
          runners := *;
        }
        answer := Some(Runners(runners));
      case ReadBootTime(_) =>
        var t: nat := *;
        answer := Some(BootedAt(t));
      case _ =>
        answer := Some(Nothing);
    }
  }
}
