/** One run's turn in a pass: what is seen of the run, and how its turn comes out. */
module Turns {
  import opened Basics
  import opened Config
  import opened States
  import opened Worlds
  import opened Protocol
  import opened Histories
  import opened Awaits

  predicate StartedBeforeBoot(c: Container, bootTime: Option<nat>) {
    bootTime.Some? && c.startedAt.Some? && c.startedAt.value < bootTime.value
  }

  function ObservedPhase(remotes: map<string, Remote>, id: string): Phase {
    if id in remotes && remotes[id].busy then Busy
    else if id in remotes && remotes[id].online then Idle
    else Unknown
  }

  function Sighted(run: Run, remotes: map<string, Remote>): Run {
    if run.id in remotes then run.(remoteId := Some(remotes[run.id].id)) else run
  }

  predicate UnexpectedExit(run: Run) {
    !run.completedJob && !run.retiring && !run.force
  }

  /** Whether the boot time known so far leaves the exit unexplained. */
  predicate AsksForBoot(c: Container, bootTime: Option<nat>) {
    c.startedAt.Some? && !StartedBeforeBoot(c, bootTime)
  }

  /** In this pass a token was given for the run and its container was started. */
  ghost predicate StartedBy(calls: Calls, id: string) {
    RegistrationToken(id) in calls.answered && exists at :: StartContainer(id, at) in calls.answered
  }

  /** In this pass the run's image was found and its container was created, under its name and with its labels. */
  ghost predicate CreatedBy(calls: Calls, manager: string, run: Run) {
    && CheckImage(run.pool.image) in calls.answered
    && exists c :: CreateContainer(c) in calls.answered && c.name == run.id && c.manager == Some(manager)
        && c.run == Some(run.id) && c.pool == Some(run.poolId) && c.scope == run.pool.ApiScope()
  }

  /** The run ended by itself, did no job, and its Docker host was not restarted under it. */
  predicate ExitCounts(run: Run, container: Option<Container>, w: World, bootTime: Option<nat>) {
    if container.Some? then UnexpectedExit(run.(completedJob := run.id in w.completed))
        && !StartedBeforeBoot(container.value, bootTime)
    else UnexpectedExit(run)
  }

  lemma SightedIsLikeIt(run: Run, sighted: Run, container: Option<Container>, w: World)
    requires sighted == run.(remoteId := sighted.remoteId)
    ensures Staying(sighted, container) == Staying(run, container)
    ensures forall boot :: ExitCounts(sighted, container, w, boot) == ExitCounts(run, container, w, boot)
  {
  }

  /** What a pass makes of a run between `s` and `t`, by the container that the listing showed and the record: a live
      one is observed; one that was never started waits, or is brought up if that is allowed; any other is over, and
      if the turn goes through nothing is left of it. `exits` counts an end that nobody asked for, without a job and
      without a reboot. */
  ghost predicate TurnsOut(s: Sys, t: Sys, id: string, c: Option<Container>, remotes: map<string, Remote>, allow: bool,
      onward: bool, exits: nat, boot: Option<nat>)
    requires id in s.mem.runs
  {
    var r := s.mem.runs[id].(remoteId := if id in remotes then Some(remotes[id].id) else s.mem.runs[id].remoteId);
    var live := c.Some? && c.value.status in {Running, Restarting, Paused};
    var waiting := !r.retiring && (if c.Some? then c.value.status == Status.Created else r.phase == Creating);
    var asked := r.retiring || r.force;
    var worked := if c.Some? then id in s.world.completed else r.completedJob;
    var excused := c.Some? && c.value.startedAt.Some? && boot.Some? && c.value.startedAt.value < boot.value;
    if live then
      var phase := if id in remotes && remotes[id].busy then Busy
        else if id in remotes && remotes[id].online then Idle else Unknown;
      onward && exits == 0 && t == s.(mem := s.mem.(runs := s.mem.runs[id := r.(phase := phase)]))
    else if waiting then
      && exits == 0
      && (!allow ==> onward && t == s.(mem := s.mem.(runs := s.mem.runs[id := r])))
      && (allow && onward ==>
            && id in t.mem.runs && t.mem.runs[id] == r.(phase := Starting)
            && StartedBy(t.calls, id) && (c.None? ==> CreatedBy(t.calls, s.mem.managerId, r)))
    else
      && (onward ==> id !in t.mem.runs)
      && exits == if onward && !asked && !worked && !excused then 1 else 0
  }

  /** How a run's turn came out: closed. */
  ghost predicate TurnedOut(s: Sys, t: Sys, id: string, c: Option<Container>, remotes: map<string, Remote>, allow: bool,
      onward: bool, exits: nat, boot: Option<nat>)
    requires id in s.mem.runs
  {
    forall key {:trigger Open((s, t, id), key)} :: Open((s, t, id), key) ==>
      TurnsOut(s, t, id, c, remotes, allow, onward, exits, boot)
  }

  lemma IsTurnedOut(s: Sys, t: Sys, id: string, c: Option<Container>, remotes: map<string, Remote>, allow: bool,
      onward: bool, exits: nat, boot: Option<nat>)
    requires id in s.mem.runs && TurnedOut(s, t, id, c, remotes, allow, onward, exits, boot)
    ensures TurnsOut(s, t, id, c, remotes, allow, onward, exits, boot)
  {
    assert Open((s, t, id), 0);
  }

  lemma KeptTurnsOut(s: Sys, t: Sys, run: Run, c: Option<Container>, remotes: map<string, Remote>, allow: bool,
      onward: bool, boot: Option<nat>)
    requires run.id in s.mem.runs && s.mem.runs[run.id].id == run.id && run == Sighted(s.mem.runs[run.id], remotes)
             && Staying(run, c)
    requires c.Some? && Live(c.value) ==>
               onward && t == s.(mem := WithRun(s.mem, run.(phase := ObservedPhase(remotes, run.id))))
    requires !(c.Some? && Live(c.value)) ==>
               if allow then
                 onward ==>
                   && run.id in t.mem.runs && t.mem.runs[run.id] == run.(phase := Starting)
                   && StartedBy(t.calls, run.id) && (c.None? ==> CreatedBy(t.calls, s.mem.managerId, run))
               else onward && t == s.(mem := WithRun(s.mem, run))
    ensures TurnedOut(s, t, run.id, c, remotes, allow, onward, 0, boot)
  {
  }

  lemma DiscardedTurnsOut(s: Sys, t: Sys, run: Run, c: Option<Container>, remotes: map<string, Remote>, allow: bool,
      onward: bool, exits: nat, boot: Option<nat>)
    requires run.id in s.mem.runs && s.mem.runs[run.id].id == run.id && run == Sighted(s.mem.runs[run.id], remotes)
             && !Staying(run, c)
    requires onward ==> run.id !in t.mem.runs
    requires exits == if onward && ExitCounts(run, c, s.world, boot) then 1 else 0
    ensures TurnedOut(s, t, run.id, c, remotes, allow, onward, exits, boot)
  {
  }
}
