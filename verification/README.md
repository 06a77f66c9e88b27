# Verification of the runner manager

A Dafny model of the manager of self-hosted GitHub runners: the engine that keeps pools of runner containers at their
targets while requests, exits, failures and crashes happen around it, and the response cache of its GitHub client.

`dafny verify dfyconfig.toml` checks everything.

## How it is built

- **State** (`Config`, `States`, `Requests`, `Retiring`, `Capacity`, `Backoff`): configuration, pool states, run records,
  every control request as a function from state to state, and the pure rules of the engine. `StateInv` is the structural
  invariant of every state in memory and in the store.
- **World** (`Worlds`, `Hosts`): containers, registrations, run directories, completion markers and config.toml; how they
  move by themselves (`Drift`), what a call does to them (`Takes`), and what a listing says about a later world (`Trusted`).
- **Protocol** (`Protocol`, `Invariants`, `Histories`): the manager as a state machine. A step is a change of the stored
  row, of config.toml, of the world, or of memory where a request could see it; `Crash` and `Environment` steps may come
  between any two. `Inv` holds after every step, hence in every history.
- **Engine** (`Awaits`, `Turns`, `Engine`, `Quiet`, `Rounds`, `Convergence`): the engine itself, imperative, with its
  fields updated in place, its local copies of pool, pool state, runs, containers and runners, and requests served at
  every external call. Every method keeps a ghost history and is proved to take only steps of the protocol (`Valid`),
  so whatever is proved of histories is true of it. A quiet host is one where nothing moves, no request arrives and
  every call that can succeed does; the drain and convergence results are about it.
- **Promises** (`Promises`, `Turns`): what a request, the books after a pass and a run's turn come to, said of the fields
  before and after and of nothing that computes them. The engine's methods are proved to keep both accounts.
- **Histories** (`Records`, `Effects`, `Stops`, `Commits`, `Deadlines`): the safety results, over all histories. What
  a pass has asked and been answered is part of the state (`Calls`), so that a guard can be traced back to the moment
  that settled it.
- **Cache** (`GithubCache`, `Pagination`, `Fencing`): the mutex-protected cache, one method a critical section, the page
  loop, and all interleavings of any number of requests.

`Allowed`, `Sound`, `Lawful`, `TurnedOut`, `VisitedSoFar`, `Due`, `TakesTurn` and `OnCourse` say the same as `Step`,
`Inv`, `Behaviour`, `TurnsOut`, `Visited`, `TurnTaken` and their like; they are closed by a quantifier so that the
solver opens the long definitions only where a lemma asks for it.

## What is assumed of the surroundings

- UUIDs are fresh: a new id occurs nowhere in sight. SHA-256 is injective; a text stands for its own hash.
- A container that the manager created keeps its labels, and goes live only when the manager starts it (`--restart=no`);
  only then does its start time change. One that runs has a start time, and one in status "created" has none.
- Nobody else names or labels a container with the id of one of the manager's runs.
- A registration under the id of one of the runs appears only while its container is live, in the scope where that
  container registers. GitHub never gives a registration id twice.
- A call has taken effect, if it ever does, when it returns, or when the manager is restarted.
- The SQLite row is written atomically and can always be written and read.
- Between the check of config.toml and its replacement nobody edits the file.
- A listing shows one moment of the world. A cached listing may show any earlier one, or anything at all.
- The clock may step back, except where a result says otherwise; on a quiet host it never shows less than at the start.

## What turned out

- Deleting a pool whose last step, the write of config.toml, fails makes the tick fail: the pool is gone from the store, the
  failure cannot be recorded for it, and the error leaves the main loop. A tick fails only so (`Tick`, `EndOfPass`,
  `TickFailsOnlyAfterDeletion`).
- A finished job resets the failure count but not the deadline, so a later failure of the other kind can move the deadline
  earlier (`FinishedJobLetsDeadlineMove`): exactly when more than ten seconds of the pause were left. In general a
  failure can do so exactly when the deadline is not `Safe` (`ExactlySafeDeadlinesStay`). It is safe from the first start
  on, and once safe stays so until a job of the pool finishes (`StaysSafe`, `FailuresNeverMoveDeadlineEarlier`).
- The comment on rate limits suggests that a blocked credential sends nothing until its deadline. Two things break that.
  A request that has made its check before the block was written still sends (`InFlightRequestOutrunsBlock`). And a
  failure of such a request overwrites the block, even by a shorter one: after a rate limit for an hour, a late 403
  lets new requests through five minutes later (`LaterFailureShortensBlock`). A check before the deadline is turned away
  exactly if no clear came in between and the last such failure set a deadline that still lies ahead
  (`BlockHoldsUntilItsDeadline`).
- Deleting a registration drops the cached listing without moving the generation on. A listing from before the deletion can
  come back exactly if such a list of the current generation was under way at that moment
  (`ListingOutlivesDeletionExactly`). The engine is not hurt, as it looks again before it forgets a run.

## Model

| member | source | states |
|---|---|---|
| `Config.Validate` | src/config.rs:202-294 | accepts exactly the configurations in which schema, limits and every pool are as required, field by field, names are unique, profiles exist and the replicas sum to at most max_runners; the syntax of strings is left out |
| `Config.ReplaceKeepsTheRest` | src/manager.rs:256-287 | scaling or upgrading one pool changes that pool's entry and no other, by name and by lookup |
| `Config.WithoutKeepsTheRest` | src/manager.rs:527-529 | deleting a pool removes exactly its name and leaves every other lookup as it was |
| `Config.ScopeIsThePlace` | src/config.rs:94-99 | between valid pools the API scope and the profile are the same exactly if organization, repository and profile are |
| `Config.SameButReplicas` | src/manager.rs:354-371 | an edit in the same place starts no new generation exactly if nothing but the replicas changed |
| `States.ScopeIsStable` | src/manager.rs:350-381 | while a run exists its organization, repository and profile are its pool's current ones and the profile exists |
| `Requests.IntentKeepsInvariant` | src/manager.rs:215-255 | Start, Stop and Remove keep the structural invariant, drop no record and take back no retiring or force |
| `Requests.ProposalKeepsInvariant` | src/manager.rs:201-389 | Add, Scale, Upgrade, Auth and Apply commit only states with the structural invariant, with every run and pool id unchanged |
| `Requests.FinishKeepsInvariant` | src/manager.rs:256-389 | the marks and resets after a commit keep the invariant and only add intent |
| `Requests.InOrderAscends` | src/manager.rs:424-430 | names are visited in ascending order |
| `Promises.ServedAsPromised` | src/manager.rs:184-389 | a served request leaves every field of every pool, run and configuration entry as its account says, in memory and in the store |
| `Promises.ServedWhenGranted` | src/manager.rs:121-389 | a request succeeds only under its conditions, written out; if they do not hold nothing is stored or written, and if they hold only a write of config.toml can fail it |
| `Promises.IntentIsKept` | src/manager.rs:215-305 | Start: the targets run without back-off. Stop and Remove: they do not run, each of their runs is retiring, forced if asked, and the deadline falls only if forced. Nothing else changes |
| `Promises.ScaleChangeIsKept` | src/manager.rs:256-271 | only the pool's replicas change, and its surplus runs retire |
| `Promises.UpgradeChangeIsKept` | src/manager.rs:272-289 | only the pool's image and generation change, and every run of it retires |
| `Promises.AuthIsKept` | src/manager.rs:306-331 | only the profile changes, and just the pools that use it forget failures, deadline and error |
| `Promises.ApplyIsKept` | src/manager.rs:332-389 | a known pool's generation rises by one exactly if image, labels, group, socket, privileges, cpus or memory differ; a new pool does not run; of all runs just the surplus retires |
| `Promises.EditsAreGranted` | src/manager.rs:350-381 | Apply may edit exactly if no pool is gone or being deleted, none in use changes organization, repository or profile, and every recorded run's profile remains |
| `Promises.BooksAreKept` | src/manager.rs:450-496 | count, deadline, scope, error and phases after a pass by its result, with the delay and the caps written out |
| `Promises.DeletionIsKept` | src/manager.rs:524-531 | a deletion takes the pool out of the table and the configuration and changes nothing else but the revision |
| `Basics.LessMeans` | src/manager.rs:416 | of two strings the smaller one ends, or has the smaller character, where they part |
| `Retiring.MarkedAt` | src/manager.rs:414-422 | what the loop does at each place of the sorted list is what the specification asks of that run |
| `Retiring.PlaceIsRank` | src/manager.rs:406-414 | the place in the sorted list is the number of runs of the pool with a greater generation, or the same and a later creation, or with both equal and a greater id |
| `Retiring.MarkingRetiresAsDue` | src/manager.rs:395-423 | after marking a run is retiring exactly if it was, or is of the pool and of another generation or has at least as many more recent ones as a running pool's replicas, 0 for any other |
| `Retiring.OlderRunsRetireFirst` | src/manager.rs:406-422 | of two runs of the current generation, one retired by the marking and one left, the retired one is the older |
| `Retiring.MarkRetiringIsIdempotent` | src/manager.rs:580-582 | marking again, as the pass does, repeats the choice that Scale and Apply made |
| `Retiring.MarkRetiringKeepsInvariant` | src/manager.rs:395-423 | marking keeps the structural invariant |
| `Retiring.SurvivorsAreCurrentAndFew` | src/manager.rs:395-423 | after marking, at most `replicas` runs of a running pool are not retiring, none of any other, and each has the pool's configuration but for the replicas |
| `Capacity.RunsAreWithinReplicas` | src/config.rs:285-292 | runs are partitioned by pool; with one pool short of its target there is room for one more under the sum of replicas |
| `Capacity.NoCapacityStarvation` | src/manager.rs:733-737 | with no pool above its replicas, max_runners never holds back a pool below its target |
| `Backoff.DelayIsBoundedAndGrows` | src/manager.rs:909-915 | from the first failure every delay is within 10 and 600 seconds and none after more failures is shorter, for any jitter |
| `Backoff.DelayIs` | src/manager.rs:909-915 | 10, 20, 40, 80, 160 and 320 seconds after one to six failures, with up to 6 seconds of jitter, then 600 |
| `Backoff.DeadlineNeverMovesEarlier` | src/manager.rs:484-496 | from a safe deadline on, with a clock that does not step back and no reset, no sequence of failures in any scopes moves the deadline earlier |
| `Backoff.ExactlySafeDeadlinesStay` | src/manager.rs:484-496 | no failure from now on moves the deadline earlier, whatever its time, jitter and scope, if and only if the deadline lies no further ahead than the next delay |
| `Backoff.ResetIsSafeWhenShort` | src/manager.rs:708-710 | after a finished job the deadline is safe if and only if at most ten seconds are left |
| `Worlds.FreshListingIsExact` | src/docker.rs:136-157 | a complete listing shows of every recorded run its own container as it is, or that there is none |
| `Worlds.CalmKeepsTrust` | src/manager.rs:585-597 | what a listing said about a run that nobody has touched since stays true: no container, or not a live one |
| `Worlds.DriftKeepsNoOrphans` | src/docker.rs:158-170 | whatever happens outside, nothing of the manager's comes to exist without a record |
| `Worlds.EffectKeepsNoOrphans` | src/docker.rs:242-262 | no call leaves a container without a record, because a container is created only under a recorded run with its labels |
| `Invariants.StepKeepsInv` | src/manager.rs:160-183 | every step of the manager, of its surroundings and every crash keeps the invariant |
| `Histories.HistoryHasInv` | src/manager.rs:64-88 | the invariant holds at every moment of every history through any number of crashes and restarts |
| `Awaits.ServedKeeps` | src/manager.rs:142-159 | a request leaves memory equal to the store, or both as they were; it interrupts the pass unless it changed nothing stored |
| `Awaits.RequestIsAllOrNothing` | src/manager.rs:142-159 | after any request but Status memory equals the store; a failed one changed nothing or committed one whole valid configuration, one revision up |
| `Awaits.RecordAfterWait` | src/manager.rs:160-183 | after an uninterrupted call memory is as it was or fell back to the store: a record differs in phase and remote id at most |
| `Awaits.CopySurvivesCall` | src/manager.rs:585-641 | a copy of a record taken before an uninterrupted call may be written back after it without undoing an intent |
| `Awaits.CallDelivers` | src/manager.rs:642-681 | what an answer says is still true when the call has returned, though requests and movement went on meanwhile |
| `Awaits.EverythingGone` | src/manager.rs:665-713 | without container, directory and registration in the pool's scope, nothing of the run is left in any scope |
| `Awaits.RoomAfterWait` | src/manager.rs:733-759 | the insertion guards, evaluated before the image check, still hold when an uninterrupted one has returned |
| `Awaits.ListingCountsStrays` | src/manager.rs:514-521 | the count taken from a complete listing is the number of containers that carry the manager's label and have no record |
| `Engines.Open` | src/manager.rs:64-88 | the stored state; or, exactly if config.toml has a valid configuration, a new one with just its pools, all stopped; after a crash the history goes on |
| `Engines.Engine.CommitConfig` | src/manager.rs:103-120 | an invalid configuration changes nothing; a valid one is stored with the next revision and the hash of its text before the file is written, and the file has the new text or is as it was |
| `Engines.Engine.MarkRuns` | src/manager.rs:395-423 | the sort and the loop retire just the surplus runs: other generations, and those with too many more recent ones |
| `Engines.Engine.TargetNames` | src/manager.rs:121-129 | one named pool or all; naming both, neither or an unknown one fails |
| `Engines.Engine.HandleStart` | src/manager.rs:215-231 | starts all targets and clears their back-off, or, if one is being deleted, does nothing; saves |
| `Engines.Engine.HandleStop` | src/manager.rs:232-255 | no target runs any more, each of its runs is retiring, and forced if asked; every other field is as before; saves |
| `Engines.Engine.HandleRemove` | src/manager.rs:290-305 | as Stop for one pool, which is then marked for deletion |
| `Engines.Engine.HandleAdd` | src/manager.rs:201-214 | adds a stopped pool of generation 1 under a fresh id, or leaves everything as it was |
| `Engines.Engine.HandleScale` | src/manager.rs:256-271 | commits the new replicas and retires the surplus, and changes no other field |
| `Engines.Engine.HandleUpgrade` | src/manager.rs:272-289 | commits the new image under the next generation and retires the runs of all earlier ones |
| `Engines.Engine.HandleAuth` | src/manager.rs:306-331 | commits the profile and clears the back-off of just the pools that use it |
| `Engines.Engine.HandleApply` | src/manager.rs:332-389 | commits exactly the text in the file at the right revision, with a generation step exactly where a setting of the runners differs, or refuses it whole |
| `Engines.Engine.HandleLocal` | src/manager.rs:142-159 | serves a request to its full effect, rolls memory back when it is refused, and moves the epoch on for all but Status; on a quiet host it succeeds exactly when it may |
| `Engines.Engine.ServeRequests` | src/manager.rs:160-183 | any number of requests and movements during a call; afterwards only what `Waited` allows has changed |
| `Engines.Engine.External` | src/manager.rs:160-183 | Interrupted exactly when the pass is interrupted, before or after the call; otherwise what the answer says holds |
| `Engines.Engine.StartCreated` | src/manager.rs:607-621 | if it goes on, a token was given for the run in this pass, its container was started and the record says starting; undisturbed it does, and the container ends live |
| `Engines.Engine.Provision` | src/manager.rs:622-641 | if it goes on, image, token, container under the run's name and scope and start were all answered in this pass and the record says starting; undisturbed it does, and the container ends live |
| `Engines.Engine.Archive` | src/manager.rs:777-798 | on success the record says log_saved and no other field is changed; the step that says so needs the logs, and the diagnostics of a container that ever ran, answered in the same pass |
| `Engines.Engine.StoppedByReboot` | src/manager.rs:766-776 | says whether the container was started before the boot time known afterwards; that is the answer to a new question, asked only if the known one leaves the exit unexplained |
| `Engines.Engine.CleanUp` | src/manager.rs:642-663 | on success a container that is not live is removed; the copy then carries the completion marker, log_saved and phase cleanup, and a reboot excuses exactly an unexpected exit |
| `Engines.Engine.Unregister` | src/manager.rs:665-686 | a fresh listing of the pool's scope leaves no registration of the run there |
| `Engines.Engine.RemoveDirectory` | src/manager.rs:687-707 | the run directory is gone, if need be after a repair |
| `Engines.Engine.DropRun` | src/manager.rs:708-713 | the record goes, and a finished job resets the pool's failures |
| `Engines.Engine.Forget` | src/manager.rs:665-713 | a run without a container goes with its registration and directory, and counts as an exit exactly if it was unexpected and no reboot |
| `Engines.Engine.ReconcileRun` | src/manager.rs:585-714 | by the listed status and the recorded phase: a live run is observed with the phase of its runner; one created or still to be created, and not retiring, waits or is started; any other is gone if the turn goes through, and counts exactly if it ended unasked, without a job and without a reboot |
| `Turns.IsTurnedOut` | src/manager.rs:585-714 | the same, opened: `TurnsOut` names statuses, phases and fields only |
| `Engines.Engine.RemoveForced` | src/manager.rs:534-552 | on success every forced run keeps its record and force and has no container, whatever happened meanwhile; the listing stays true of all others |
| `Engines.Engine.RunAll` | src/manager.rs:583-717 | ends well only if every retiring run without a live container has been dropped, and reports the sum of the exits |
| `Engines.Engine.DeleteEmptyPool` | src/manager.rs:724-731 | an empty deleting pool leaves configuration and pool table together, if config.toml is clean, and nothing else changes |
| `Engines.Engine.InsertRun` | src/manager.rs:740-759 | one new record with the pool's current settings and generation under a fresh id, saved |
| `Engines.Engine.Conclude` | src/manager.rs:718-763 | on success, deletes the pool if it is deleting and empty, else inserts one run exactly when allowed, no exit was counted and the listing's unrecorded containers leave room |
| `Engines.Engine.Reconcile` | src/manager.rs:497-764 | a whole pass: its result is the exits counted; undisturbed it empties a pool that is to drain, and brings a healthy one up and at most one record further, with the listing's own count of unrecorded containers |
| `Engines.Engine.KeepBooks` | src/manager.rs:450-495 | failures, deadline, scope, error and phases after a pass, by its result |
| `Engines.Engine.EndOfPass` | src/manager.rs:450-482 | the bookkeeping is saved, every field by the result of the pass; it fails exactly when there is a failure to record and the pool is gone |
| `Engines.Engine.FinishPass` | src/manager.rs:441-482 | the report of an interrupted pass is thrown away and memory saved as it is; otherwise the books are those of the outcome, and it fails exactly if there is a failure to record and the pool is gone |
| `Engines.Engine.Tick` | src/manager.rs:424-483 | visits the pool in turn and moves the cursor on; fails exactly when the pass ends without books, and then the pool is gone; undisturbed, a drainable pool is drained and a healthy one advances |
| `Engines.Engine.QuietTicks` | src/manager.rs:424-483 | after any number of quiet ticks every pool, draining and replaced runs included, has exactly min(target, records + visits) records, or as many as before if it is not to run |
| `Engines.Engine.LeftAlone` | src/manager.rs:424-483 | left alone for some rounds, from any steady state, every running pool has min(replicas, records + rounds) records, every other pool as many as before, and the state is steady again |
| `Quiet.DryAfterForce` | src/manager.rs:534-561 | after the forced removals no run of a pool that is to drain has a live container, and all are retiring |
| `Quiet.MarkingRetiresOnlyOldRuns` | src/manager.rs:580-582 | in a pool within its replicas marking retires nothing but older runs, and the pool stays healthy |
| `Quiet.SmoothToTheEnd` | src/manager.rs:534-719 | an undisturbed pass drops every run of a draining pool and keeps and brings up every run of a healthy one |
| `Quiet.QuietTurnDrains` | src/manager.rs:522-731 | one quiet pass leaves a drained pool without records, and a deleting one with a clean file out of the configuration and the pool table |
| `Quiet.QuietTurnKeepsUp` | src/manager.rs:720-762 | one quiet pass leaves a healthy pool with every run live, draining and older ones included, and one record more exactly if there is room |
| `Rounds.EachPoolOnce` | src/manager.rs:424-430 | as many consecutive ticks as there are pools visit every pool exactly once |
| `Rounds.EachPoolOnceARound` | src/manager.rs:424-430 | and so on for any number of rounds |
| `Convergence.OnlyTheTargetHolds` | src/manager.rs:733-759 | in a steady state a visit brings a running pool one record nearer to its replicas, never beyond, however many draining runs hold places |
| `Convergence.TurnKeepsSteady` | src/manager.rs:497-762 | a visit keeps the state steady and moves only the pool in turn |
| `Convergence.TargetReached` | src/manager.rs:424-483 | after as many rounds as its deficit a running pool has exactly its replicas; one that is not to run has as many records as before |
| `Convergence.RoundsReached` | src/manager.rs:424-483 | the same for all pools at once, and the state is steady again |
| `Records.NoOrphansEver` | src/manager.rs:627-641 | at every moment every container, registration and directory of the manager's has a stored record with its labels and scope |
| `Records.CleanupLooksInTheRightScope` | src/manager.rs:563-567 | a run's registration can only be in the scope that its pool's current configuration names, with a profile that exists |
| `Records.IntentIsNeverLost` | src/manager.rs:541-550 | once a run is retiring or forced it stays so, in memory and store, at every later moment until its record is gone |
| `Records.DroppedIsGoneForGood` | src/manager.rs:642-714 | a record is dropped only by an uninterrupted pass, and no container, directory or registration in any scope, nor a record, ever exists for it again |
| `Effects.OnlyCurrentRunsAreProvisioned` | src/manager.rs:604-641 | a token, directory, create or start is for a run that is not retiring and has its pool's configuration but for the replicas, in a pool that runs, past its deadline |
| `Effects.OnlyWantedRunsAreInserted` | src/manager.rs:718-759 | an inserted record is current, its image was found, and it keeps the pool within its replicas; all records and the containers without one at the moment of the pass's first listing are within max_runners |
| `Effects.StraysHaveACause` | src/manager.rs:514-521 | the number a pass works with is the number of unrecorded containers at the moment a listing of the same pass was taken |
| `Effects.ContainersFollowTheirTokens` | src/manager.rs:604-641 | a create or start follows an answered token for the run in the same pass, and a create also the image check and the directory |
| `Effects.NoContainerIsStartedTwice` | src/manager.rs:604-641 | between a start that took effect and the next one asked for the same run its container was gone |
| `Effects.EarlyPassProvisionsNothing` | src/manager.rs:431-442 | a pass that began before its pool's deadline provisions nothing and inserts nothing |
| `Effects.EndOfPassKeepsBooks` | src/manager.rs:450-482 | a failed pass backs off observation, one with exits backs off provisioning, a success clears the deadline but not the failures |
| `Effects.ExitsHaveACause` | src/manager.rs:893-900 | an exit counted in a pass is a run that was dropped unasked and without a finished job |
| `Effects.InterruptedPassIsIdle` | src/manager.rs:160-183 | once interrupted, a pass begins no call and changes no record, directory or pool until it ends |
| `Effects.UninterruptedPassSeesNoChange` | src/manager.rs:153-183 | between any two moments of a pass that is not interrupted, configuration, revision, pool ids, generations, flags and the runs' forces in memory are the same |
| `Effects.ForceHasACause` | src/manager.rs:232-255 | a forced run goes back to a forced Stop or Remove that was aimed at its pool |
| `Stops.StoppedPoolGetsNoRuns` | src/manager.rs:232-255 | from a Stop or Remove until somebody starts the pool all its runs are retiring, none is provisioned and none is added, through crashes and other requests |
| `Effects.OnlyForceKillsWork` | src/manager.rs:534-552 | a live container stops by itself or by a forced removal with such a cause, never by a drain, scale or upgrade |
| `Effects.NoContainerIsRemovedBeforeItsLogs` | src/manager.rs:642-663 | the manager removes a container only after a record of it was saved that says its logs are safe, in a pass in which they had been read, and its diagnostics if it ever ran |
| `Effects.OnlyIdleRegistrationsAreDeleted` | src/manager.rs:677-687 | a registration is deleted only of a run of the manager's that has no container |
| `Effects.ForeignContainersAreLeftAlone` | src/manager.rs:513-521 | containers that the manager did not create are never touched |
| `Commits.GenerationMeansSettings` | src/manager.rs:272-289 | at every moment, in memory and store, a run of its pool's generation has the pool's whole configuration but for the replicas, an older one the same place and profile; a pool that is not to run has only retiring runs |
| `Commits.RecordsStayWithinCapacity` | src/manager.rs:718-759 | while no Apply lowers max_runners there are never more records than that, draining ones included |
| `Commits.RevisionCountsCommits` | src/manager.rs:103-120 | the revision rises by exactly one with every committed configuration, and nothing else changes the configuration |
| `Commits.ConfigFileIsNeverOverwrittenBlindly` | src/manager.rs:96-120 | config.toml is overwritten only where it still has the last committed text or exactly the text being applied |
| `Commits.LostWriteStaysLost` | src/manager.rs:103-120 | after a crash between commit and write, the file has its old text and the store the new configuration until somebody edits the file or commits |
| `Commits.UnwrittenConfigIsProtected` | src/manager.rs:184-187 | and until the file has the stored text again the next commit can only be an Apply of exactly the file's text at the stored revision |
| `Commits.TickFailsOnlyAfterDeletion` | src/manager.rs:450-482 | a pass that ends without books has deleted its pool |
| `Deadlines.FailuresNeverMoveDeadlineEarlier` | src/manager.rs:484-496 | in every history, from a safe deadline on and while no job of the pool finishes and no clock steps back, no recorded failure moves the deadline earlier |
| `Deadlines.DeadlinesOnlyGrowUntilAJobIsDone` | src/manager.rs:450-496 | in particular from the first start on |
| `Deadlines.StaysSafe` | src/manager.rs:450-496 | every step of a history keeps the deadline safe, except a finished job |
| `Deadlines.FinishedJobLetsDeadlineMove` | src/manager.rs:708-710 | right after a finished job of a pool that backs off provisioning, a failed observation moves the deadline earlier if and only if more than ten seconds are left; the history is lawful |
| `GithubCache.BlockedFor` | src/github.rs:268-289 | an error blocks exactly when it is a rate limit or an authentication failure, and then for at least a second |
| `GithubCache.OnlyCredentialErrorsBlock` | src/github.rs:268-302 | such an error blocks its credential at once and no other; any other error leaves the cache as it was |
| `GithubCache.Cache.PeekListing` | src/github.rs:311-316 | finds exactly a listing stored less than ttl seconds ago; one stored in the future counts as new, and a ttl of 0 finds none |
| `GithubCache.Cache.Clear` | src/github.rs:123-130 | empties listings, tokens and blocks and moves the generation on, wrapping at 2^64 |
| `GithubCache.Cache.CheckBlock` | src/github.rs:214-220 | finds a credential blocked exactly while its deadline lies in the future |
| `GithubCache.Cache.StoreToken` | src/github.rs:177-183 | stores a token only if no clear came since the exchange began |
| `GithubCache.Cache.ResponseError` | src/github.rs:246-302 | only if no clear came since the request began: blocks for as long as GitHub says, at least a second, a minute if it says nothing, five minutes for 401 and 403, and forgets a token at 401 |
| `GithubCache.Cache.StoreListing` | src/github.rs:333-338 | stores a listing only if no clear came since the list began |
| `GithubCache.AccessToken` | src/github.rs:131-184 | a cached token is used exactly while it has more than a minute left; a new one is stored, a refusal blocks, and any other failure changes nothing |
| `GithubCache.Request` | src/github.rs:207-245 | a blocked credential sends nothing and changes nothing; else it goes out with the profile's own, the cached or the new token; a rate limit or refusal leaves it blocked; a missing object is no error |
| `GithubCache.Remove` | src/github.rs:357-373 | a deletion that succeeds leaves no cached listing of the scope, one that fails leaves all, and no other scope's is touched |
| `Pagination.FetchAll` | src/github.rs:317-341 | fetches a list served in pages of 100 completely and in order, exactly if it has fewer than 1,000,000 entries |
| `Pagination.List` | src/github.rs:303-342 | the cached listing exactly if it was stored less than ttl seconds ago; otherwise the whole remote list, which is then stored |
| `Fencing.CacheIsFenced` | src/github.rs:123-183 | in every interleaving every listing, token and block was written by a request begun since the last clear |
| `Fencing.ClearFencesOut` | src/github.rs:123-130 | whatever a request begun before the last clear still does, the cache does not change |
| `Fencing.BlockedCredentialIsTurnedAway` | src/github.rs:214-222 | while a block is in force a check turns the request away, for any scope; one that may send made its check before the block that is in force was written |
| `Fencing.BlockHoldsUntilItsDeadline` | src/github.rs:214-302 | from the event that writes a block and before its deadline, a check of that credential is turned away if and only if no clear came since and the last blocking failure since set a deadline that lies ahead |
| `Fencing.LaterFailureShortensBlock` | src/github.rs:291-299 | an interleaving without a clear in which a later failure lets a new request through long before the first deadline |
| `Fencing.InFlightRequestOutrunsBlock` | src/github.rs:214-232 | a request past its check sends although a block has been written meanwhile |
| `Fencing.ListingOutlivesDeletionExactly` | src/github.rs:333-373 | a listing from before a deletion can be cached after it if and only if such a list of the current generation was under way at the deletion |

## Left out

- Config.Validate: the syntax of names, organisations, images, labels and memory sizes and the checks inside a profile are left out, so the model accepts more configurations than the code; the rules that relate names, profiles and replicas are kept.
- Error texts: a pool state says whether there is an error, not which; a block keeps its deadline, not its message.
- `github.clear()` as called by the engine after a change of credentials: the cache is modelled by itself, and the engine trusts nothing that a cached listing says.
- Bootstrap token files: writing one may fail, its content and its early removal are not modelled.
- Log archives and their expiry: only whether the step succeeds, and `log_saved`.
- Status, Doctor and Logs answers, `pool_health`, `diagnose`, image checks of Upgrade before it reaches the engine.
- The connection server, the main loop's timer and signals, the command line.
- JWTs, secrets, HTTP, redirects, TOML and JSON, SQLite, file permissions, Docker argument lists.
- Wrap-around of the engine's epoch and of pool generations, which are counted without bound; the cursor and the cache generation wrap as in the code.
- Fencing.CacheIsFenced: assumes fewer than 2^64 clears, because the generation is a u64 that wraps.
- Engines.Engine.QuietTicks: assumes that the cursor does not wrap in the period, because the order of visits breaks there.
- Histories.HistoryHasInv: a call whose effect would arrive only after a crash and restart is outside the model, because the code has no defence against it either.
- Panics on missing map entries: the model proves that the entries exist instead.
