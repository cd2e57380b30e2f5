# Lazarus: a verified model

This project models the parts of the Lazarus agent and appliance whose
correctness depends on many steps going right together, and proves what they
promise.

* `DeploymentModel`, `DeploymentInvariants`, `DeploymentSteps`,
  `DeploymentTheorems`, `DeploymentOutcomes`, `DeploymentAnswers`, `AgentProcess`:
  the agent's deployment transitions. A replacement or a removal drains, stops a
  child, checks files again, starts a candidate, waits for it, commits, or rolls
  back, while requests come and go and every external step may fail. The model is a
  step system with one step for each stretch of code between two awaits and a
  program counter for each transition; there may be any number of deployments,
  transitions and requests. `DeploymentOutcomes` and `DeploymentAnswers` say when
  each ending may be told, and what was asked for it. `Agent` is the object itself:
  its maps are fields, and each stretch is a method that takes the state exactly
  where the step system's `Next` takes it and keeps its invariant.
* `GenerationGate`: the appliance's admission slots and the managed pause and
  resume of generation, as a step system and as an object.
* `SlimServe`: who owns the process groups a SlimServe backend spawned, over every
  outcome of its spawns and stops, as a step system and as an object.
* `ManagedGeneration`: the two composed over the pause they share, for what the
  answer to a managed pause or resume says of the engine's process groups.
* `QueueingModel`, `QueueingTheorems`, `Queueing`: the ledger of the requests that
  waited. The model works on values in which a ticket or an hour bucket is known by
  its number; `Queueing` is the ledger with tickets and buckets as objects told
  apart by identity, each method refining the model's function of the same step.
* `InFlight`, `RequestLedgers`: what each of the agent's steps does to the requests
  in flight and their gates, and the agent and its ledgers together, with every
  call that one makes of the other.
* `PagedCache`, `PagedAttention`, `MetalAttention`: the paged key/value cache as a
  refinement of one plain list for each request, what the mask and the chunking
  show each token, and the slot mapping and `forward` over arrays.
* `Memory`, `Videos`, `Layout`: the bytes of mapped files a family of processes
  covers, the signed video ids, and the check of a SlimServe layout.
* `Prelude`, `Sorting`: the option type, the lookup and the sorting the others share.

What the program does not decide is an argument of the step: whether a stop, a
spawn, a checksum, a readiness wait, a save or a manifest write succeeds, when a
client disconnects, what the clocks read, and when an event's waiter is resumed.

## How the source maps to steps

* `records_lock` is only held inside one stretch, so each of its critical sections
  is one step that follows an await; a deployment's own lock is its entry in
  `jobs`. A reference to an `Admission` is its index in the table of all gates ever
  made, so a request can hold on to a gate that has been replaced.
* `alive` says that a child may still live. A stop that succeeds ends that, and so
  does the child's own exit; nothing revives a child.
* A worker is cancelled only once the agent stops: no request's cancellation
  reaches it. From then on it may end at any await.
* `_operation` serialises a SlimServe backend's operations, so each is one step,
  except that quiesce, resume and a failed watch set the pause before they wait for
  it.
* A manifest write may fail part way, and then what is published is unknown.
* In `QueueingTheorems` a request's ticket leaves the queue once, and the number of
  places a process has is fixed while it runs. `RequestLedgers` assumes neither:
  both follow from what the agent does.
* A removal that stops a child without a record drops the gate and leaves the
  ledger, but a deployment without a record never has one.

## Where the code does not keep its promise

* `SlimServeBackend.validate` may be called while a generation process is held. If
  the check's spawn is then cancelled before it returned a handle, a later
  successful shutdown claims verified withdrawal though the check's group may
  live. `SlimServe.ValidateIsSafeExactlyWhen` gives the exact condition: no
  generation process is held, or the call is refused at once, and
  `SlimServe.CutCheckRun` such a run from a new backend on.
* The layout check compares neighbours in plain string order, in which `a-b` comes
  between `a` and `a/c`, so it accepts `a`, `a-b`, `a/c`.
  `Layout.FindsConflictsExactlyWhen` gives the exact condition, and
  `Layout.SlashFirstFindsAll` shows that ordering by path component is complete.
* `job_of` raises a `TypeError` rather than "no such video" for an id that decodes
  to the served name, a matching job and a signature that is not ASCII.
  `Videos.JobOfRaisesExactlyWhen` gives the exact condition, and
  `Videos.OddIdsRaise` the ids, which the route takes when they are short enough.
  A job's pattern also takes a newline at its end (`Videos.JobMatches`), which the
  round trip covers.

## Model

| member | source | states |
|---|---|---|
| DeploymentModel.FirstFree | lazarus/agent/deployments.py:831-843 | the port given is the lowest of the range that is neither taken nor listened on, and none is given only when all are |
| DeploymentSteps.NextKeeps | lazarus/agent/deployments.py:1191-1344 | every step of every transition, request, exit and shutdown keeps the whole invariant, forgets and revives no child, fills no closed gate, adds only confirmed records, and ends transitions as their outcomes say |
| DeploymentTheorems.RunKeeps | lazarus/agent/deployments.py:1191-1344 | the same over whole runs, of any length and interleaving |
| DeploymentTheorems.InitKeeps | lazarus/agent/server.py:244-249 | one-step fact, beside DeploymentTheorems.RunKeeps: the state after start-up with distinct recorded ports satisfies the invariant |
| DeploymentTheorems.LiveChildrenAreRegistered | lazarus/agent/deployments.py:1240-1253 | in every run every child ever started is dead or registered under its id, so an id never has two live children |
| DeploymentTheorems.RegistrationOutlivesChild | lazarus/agent/deployments.py:1095-1107 | no step drops or overwrites a registration whose child may still live |
| DeploymentTheorems.SweepLeavesNoneAlive | lazarus/agent/server.py:421-433 | once the agent is stopping no child starts, so a sweep whose stops all succeed leaves none alive, then and ever after |
| DeploymentTheorems.SweepStopsAll | lazarus/agent/server.py:275-285 | one-step fact, beside DeploymentTheorems.SweepLeavesNoneAlive: a sweep that stops every registered child stops every child that lives |
| DeploymentTheorems.SendsToTheCommittedRecord | lazarus/agent/deployments.py:1554-1579 | a request goes through only to a live child started from the record committed for its id at that moment, which is the record it read before awaiting its body |
| DeploymentTheorems.SendIsSound | lazarus/agent/deployments.py:1574-1579 | the recheck after the body is enough for that in every state the invariant allows |
| DeploymentTheorems.ClosedGateNeverFills | lazarus/agent/deployments.py:548-566 | the count behind a closed gate never rises, whichever step runs |
| DeploymentTheorems.DrainedGateIsEmpty | lazarus/agent/deployments.py:1077-1092 | a transition that goes on from its drain before the timeout finds nobody behind its gate, though others ran between the idle event and its resumption |
| DeploymentTheorems.PortsAreDisjoint | lazarus/agent/deployments.py:831-843 | in every run no port is held, by record, registered child or reservation, by two ids or by the agent, and the reservations are those of the transitions under way |
| DeploymentTheorems.DiskHoldsConfirmedRecords | lazarus/agent/deployments.py:1254-1271 | at every await the records on disk are those in memory, and each was there at the start or was committed from its own running child, whose checksums and readiness wait had both succeeded, by a transition not abandoned |
| DeploymentTheorems.TransitionsEndAsTheySay | lazarus/agent/deployments.py:1191-1301 | every transition ends committed, unchanged, rolled back, or failed with the record still the previous one (or removed, absent, raised), with record, child and gate as that outcome promises; committed and rolled back only with a child checked and ready |
| DeploymentTheorems.AbandonedNeverCommits | lazarus/agent/deployments.py:1255-1262 | a transition abandoned before its commit check, waiting for its lock or holding it, never ends committed, whatever follows |
| DeploymentOutcomes.SucceedsUnlessAStepFails | lazarus/agent/deployments.py:1191-1344 | in every run and interleaving a transition none of whose own steps fails ends as it was asked: a replacement committed, a removal with nothing left |
| DeploymentOutcomes.FailedOnlyByItsRollback | lazarus/agent/deployments.py:1278-1298 | in every run a replacement is told to have failed, rather than rolled back, only if the stop, checks, spawn, readiness wait or save of its own rollback failed, or the agent was stopping |
| DeploymentOutcomes.OwnStepsRunOut | lazarus/agent/deployments.py:1191-1344 | each step of a transition's own brings it nearer to its end, which it reaches in at most eleven |
| DeploymentOutcomes.NeverStuck | lazarus/agent/deployments.py:1191-1344 | a transition under way always has such a step, without being abandoned or cancelled |
| DeploymentOutcomes.StaysAlive | lazarus/agent/deployments.py:1095-1107 | a child stops living only by its own exit, in a sweep, or by its own deployment's confirmed stop |
| DeploymentAnswers.CommitsWhatWasAsked | lazarus/agent/deployments.py:1214-1301 | in every run a replacement told to be committed has left a record of the spec that was asked for, with the registered child started from it and requests let in; its port is the previous record's, or one of 9110 to 9199 where there was none |
| DeploymentAnswers.CreationsGetTheLowestFreePort | lazarus/agent/deployments.py:831-843 | in every run a creation goes on if and only if it is valid, not abandoned and some port of the range is held by no record, registered child or reservation, by the agent or by another listener; it has the lowest such port |
| DeploymentAnswers.ReplacementsKeepTheirPort | lazarus/agent/deployments.py:1197-1208 | in every run a replacement goes on if and only if it is valid and not abandoned, with its record's port |
| DeploymentAnswers.EndsAsAskedExactly | lazarus/agent/deployments.py:1191-1344 | in every run a transition that ended did so as asked, a replacement committed and a removal with nothing left, if and only if none of its own steps failed |
| DeploymentAnswers.OutcomesTellTheLastStep | lazarus/agent/deployments.py:1191-1344 | in every run the step that ended a transition tells its outcome and the outcome the step: a rollback's saved end, a failed step of it, a refusal or cancellation, an abandonment before anything changed, a commit's report, a saved removal |
| DeploymentAnswers.DiskChangesBySaving | lazarus/agent/deployments.py:1264-1271 | in every run the records on disk, which are those in memory, change only by a commit or a removal whose save succeeded |
| DeploymentAnswers.NothingStartsAfterStopping | lazarus/agent/server.py:421-433 | once the agent stops no child is started, whatever follows |
| DeploymentAnswers.EmptyDrainsCanEnd | lazarus/agent/deployments.py:1077-1092 | in every run a drain can end at once when its gate is empty, and when it is abandoned |
| DeploymentAnswers.AskedForWaitsAndGetsTheLock | lazarus/agent/deployments.py:1191-1197 | in every run what is asked for waits for its deployment's lock, under a key of its own, and once it gets the lock holds it or has ended |
| DeploymentSteps.StopEndsKeeps | lazarus/agent/deployments.py:1095-1107 | a stop that ends in any phase, confirmed or not, keeps all of the above |
| DeploymentSteps.VerifyEndsKeeps | lazarus/agent/deployments.py:1246-1252 | so does a start after the files were checked again, a candidate's or the previous record's |
| DeploymentSteps.CommitKeeps | lazarus/agent/deployments.py:1254-1271 | so does a commit, saved or not, with the candidate running or not |
| DeploymentSteps.ReserveKeeps | lazarus/agent/deployments.py:1197-1208 | so does taking a port, new or recorded, and the refusal of a candidate |
| AgentProcess.Agent.FreePort | lazarus/agent/deployments.py:831-843 | the loop over the range returns the model's first free port of the agent's own maps |
| AgentProcess.Agent.StartDeployments | lazarus/agent/server.py:244-249 | the loop registers, in the order of the configuration, exactly the deployments that started, passing over an OSError or a ValueError and ending at the first other exception, and establishes the invariant |
| AgentProcess.Agent.LockAcquired | lazarus/agent/deployments.py:1191-1197 | a transition that gets its deployment's lock takes the agent where the model's step does, and keeps the invariant |
| AgentProcess.Agent.PortReserved | lazarus/agent/deployments.py:1198-1206 | the same for the reservation and the start of the drain or the change |
| AgentProcess.Agent.DrainEnded | lazarus/agent/deployments.py:1229-1245 | the same for what follows a drain: back to the gate as it was, or on |
| AgentProcess.Agent.StopEnded | lazarus/agent/deployments.py:1244-1248 | the same for what follows a stop, in a replacement, a rollback or a removal |
| AgentProcess.Agent.VerifyEnded | lazarus/agent/deployments.py:1248-1253 | the same for what follows the checksums |
| AgentProcess.Agent.ReadyEnded | lazarus/agent/deployments.py:1253-1254 | the same for what follows the readiness wait |
| AgentProcess.Agent.CommitReached | lazarus/agent/deployments.py:1255-1299 | the same for the commit under the shared lock, its failure and the opening of the gate |
| AgentProcess.Agent.SaveReached | lazarus/agent/deployments.py:1290-1298 | the same for the rollback's save |
| AgentProcess.Agent.ForgetReached | lazarus/agent/deployments.py:1332-1344 | the same for a removal's record, which goes and is saved or comes back |
| AgentProcess.Agent.RequestArrived | lazarus/agent/deployments.py:1554-1572 | the same for a request up to its await for the body |
| AgentProcess.Agent.BodyArrived | lazarus/agent/deployments.py:1573-1579 | the same for its recheck, and a request is sent only to a live child of the committed record |
| AgentProcess.Agent.RequestLeft | lazarus/agent/deployments.py:563-566 | the same for every way a request leaves |
| AgentProcess.Agent.Stop | lazarus/agent/server.py:275-285 | the loop stops exactly the children whose stop succeeds, one failure keeping none of the rest from it, and gives the first failure in the order of the children; when it gives none, none lives |
| GenerationGate.NextKeeps | lazarus/appliance/api.py:85-122 | every step keeps the counters equal to the requests they count, and the gate closed and drained as the managed operation's await requires |
| GenerationGate.QuiescesOnlyWhenDrained | lazarus/appliance/api.py:298-313 | whenever backend.quiesce is called, and until it returns, the gate is closed and no response is between its forwarding and its end, whatever took slots between the idle event and the waiter's resumption |
| GenerationGate.SlotsAreConserved | lazarus/appliance/api.py:88-122 | slots taken and free make the capacity and are never negative; the idle event is set exactly when nobody has a slot |
| GenerationGate.ClosedUntilReopened | lazarus/appliance/api.py:205-214 | one-step fact, beside GenerationGate.DrainedUntilReopened: no step but an acknowledged and published resume opens the gate, and none forwards behind it |
| GenerationGate.DrainedUntilReopened | lazarus/appliance/api.py:409-417 | from the call of backend.quiesce until the gate reopens no response is forwarded at all |
| GenerationGate.AnsweredPauseStands | lazarus/appliance/api.py:298-328 | from a pause's answer on, and until a resume is answered with success, the gate is closed and nothing is forwarded, in every run |
| GenerationGate.BeginsExactly | lazarus/appliance/api.py:298-313 | in every run an operation closes the gate and goes on if and only if its manifest was written: a resume to the backend, a pause to its wait |
| GenerationGate.PausesExactly | lazarus/appliance/api.py:308-328 | in every run a pause goes on to the backend once nobody has a slot unless it timed out, and is answered with success if and only if the backend returned and the manifest was written; else with a failure behind a closed gate |
| GenerationGate.ResumesExactly | lazarus/appliance/api.py:303-328 | in every run a resume is answered with success and opens the gate if and only if the backend acknowledged it and the manifest was written |
| GenerationGate.RequestsExactly | lazarus/appliance/api.py:88-122 | in every run a request waits, gets a slot when one is free, is forwarded if and only if the role is healthy and the gate open, and gives its slot back |
| GenerationGate.PublishesTheGate | lazarus/appliance/api.py:307-328 | one-step fact, beside PausesExactly: the manifest says how the gate stands whenever it was written, and a backend that pauses closes the gate |
| GenerationGate.Appliance.Rechecked | lazarus/appliance/api.py:409-417 | a request with its slot is forwarded only through an open gate, and the object's fields go where the model's step goes |
| GenerationGate.Appliance.ReleaseSlot | lazarus/appliance/api.py:113-122 | giving a slot back keeps the invariant; the idle event is then set exactly when nobody has a slot, and setting it wakes the operation that waits for it |
| GenerationGate.Appliance.QuiesceEnded | lazarus/appliance/api.py:311-328 | a pause succeeds only acknowledged and published closed, and the gate is closed either way |
| GenerationGate.Appliance.ResumeEnded | lazarus/appliance/api.py:303-328 | a resume leaves the gate open exactly when it succeeds, acknowledged and published |
| ManagedGeneration.GateSteps | lazarus/appliance/api.py:298-328 | over the one pause field that both write, each step of the whole is a step of the gate or none of it changes |
| ManagedGeneration.EngineSteps | lazarus/appliance/backends/slimserve.py:332-355 | one-step fact, beside ManagedGeneration.NextKeeps: over that field each step of the whole is a step of the engine's owner or none, but for the pause |
| ManagedGeneration.NextKeeps | lazarus/appliance/api.py:298-328 | every step keeps both invariants and the pause the same on both sides |
| ManagedGeneration.AnswersAreSound | lazarus/appliance/api.py:298-328 | in every run, with every outcome of the backend's spawns, stops and cleanups and an engine that dies at any time, a pause answered with success has the gate closed, published closed, nothing being answered, and every live process group among those that acknowledged it; a resume, the gate open, published open, and one held child that acknowledged it and no other live group; a failure, a closed gate not published open |
| ManagedGeneration.AnsweredPauseStands | lazarus/appliance/api.py:298-328 | after a pause's answer, until a resume is answered with success, the pause stands on both sides and nothing is answered, whatever starts, shutdowns, operations and failures follow |
| ManagedGeneration.AnswersOnlyWhenResumed | lazarus/appliance/api.py:409-417 | where a response is being answered, every pause that succeeded was followed by a resume that succeeded |
| ManagedGeneration.QuietLasts | lazarus/appliance/backends/slimserve.py:345-355 | over every run, a child that acknowledged a pause is still quiet unless it acknowledged a resume in between |
| ManagedGeneration.AllSucceedExactlyWhen | lazarus/appliance/api.py:298-328 | in every run all operations were answered with success if and only if no step of theirs failed: no manifest write, no wait for idle, no turn or acknowledgement of the backend |
| ManagedGeneration.AnsweredExactly | lazarus/appliance/api.py:298-328 | in every run the operation that was begun gets the next answer, as the pause or resume it is, with success if and only if the step that answers it does not fail |
| SlimServe.NextKeeps | lazarus/appliance/backends/slimserve.py:194-389 | every operation, with every outcome of its spawns, stops and waits, keeps at most one group alive, held or fenced |
| SlimServe.WithdrawnMeansAbsent | lazarus/appliance/backends/slimserve.py:142-144 | in every run that validates only while no generation process is held, withdrawal is claimed only when no owned group is alive, and at most one is alive at any time |
| SlimServe.QuiesceAnswersForAbsenceOrChild | lazarus/appliance/backends/slimserve.py:332-343 | a quiesce that returns has no group to answer for, or its one live group's acknowledgement |
| SlimServe.FencedStays | lazarus/appliance/backends/slimserve.py:194-196 | one-step fact, beside SlimServe.FencedForever: while a launch without a handle is unresolved every validate, start, quiesce and resume fails, nothing is spawned, and no cleanup lifts the fence |
| SlimServe.FencedForever | lazarus/appliance/backends/slimserve.py:231-234 | the same over every run that follows |
| SlimServe.LostLaunchIsFenced | lazarus/appliance/backends/slimserve.py:264-269 | a generation spawn cut short before its handle came back is fenced for good |
| SlimServe.PauseClearsOnlyByResume | lazarus/appliance/backends/slimserve.py:345-355 | the pause clears only through a resume that the running child acknowledged |
| SlimServe.PauseLasts | lazarus/appliance/backends/slimserve.py:332-334 | a pause set before an operation waits for its turn is still set when it gets it unless a resume succeeded meanwhile |
| SlimServe.CutCheckIsForgotten | lazarus/appliance/backends/slimserve.py:197-205 | validating while a process is held, with the check's spawn cancelled and then a shutdown, claims withdrawal with a live group |
| SlimServe.CutCheckRun | lazarus/appliance/backends/slimserve.py:197-205 | one such run from a new backend: start, a check whose spawn is cancelled, and a shutdown in which all goes well end with withdrawal claimed and a live third group |
| SlimServe.ValidatesExactlyWhen | lazarus/appliance/backends/slimserve.py:190-229 | validate returns if and only if nothing is unresolved, the check's spawn gave a handle, its answer accepted the configuration and its group is confirmed gone; a refused one changes nothing |
| SlimServe.StartsExactlyWhen | lazarus/appliance/backends/slimserve.py:231-274 | start returns if and only if the backend is idle, a check accepted the configuration, and the generation's group was spawned and loaded; it is then the one held |
| SlimServe.LaunchesOnlyTheAccepted | lazarus/appliance/backends/slimserve.py:237-238 | no start launches a generation group for a configuration that neither its own check nor the one that set `validated` accepted |
| SlimServe.NothingLaunchedUnchecked | lazarus/appliance/backends/slimserve.py:213-238 | in every run from a new backend a group is launched only after some check accepted a configuration |
| SlimServe.FailedLaunchIsCleanedUp | lazarus/appliance/backends/slimserve.py:264-274 | a group that was spawned and not loaded is cleaned up, or left to a later cleanup where it could not be confirmed gone |
| SlimServe.ShutsDownExactlyWhen | lazarus/appliance/backends/slimserve.py:357-389 | shutdown returns if and only if all it holds is confirmed gone; then it holds nothing and claims withdrawal where it held a group |
| SlimServe.AcknowledgedExactlyWhen | lazarus/appliance/backends/slimserve.py:332-355 | quiesce and resume return exactly when nothing is unresolved and the child acknowledged, or, for quiesce, there is nothing to quiesce |
| SlimServe.PausesAndExits | lazarus/appliance/backends/slimserve.py:323-334 | one-step fact, beside PauseLasts: a failed watch, and a quiesce or resume before its turn, set the pause, and a group that exits lives no more |
| SlimServe.IdleBackendStarts | lazarus/appliance/backends/slimserve.py:231-274 | after every careful run a start whose awaits all go well on an idle backend returns, with its group the only one alive |
| SlimServe.ValidateIsSafeExactlyWhen | lazarus/appliance/backends/slimserve.py:194-229 | validate keeps the claim sound, whatever follows, if and only if no process is held or it is refused at once |
| SlimServe.SlimServeBackend.Validate | lazarus/appliance/backends/slimserve.py:190-229 | with no generation process held, the fields and the outcome are those of the model's check and the invariant is kept |
| SlimServe.SlimServeBackend.Start | lazarus/appliance/backends/slimserve.py:231-274 | the fields and the outcome are those of the model's start, its check and its cleanup included, and the invariant is kept |
| SlimServe.SlimServeBackend.Shutdown | lazarus/appliance/backends/slimserve.py:357-389 | the fields and the outcome are those of the model's cleanup, wherever it is cut short, and the invariant is kept |
| SlimServe.SlimServeBackend.Quiesce | lazarus/appliance/backends/slimserve.py:332-343 | the outcome is the model's and no field changes |
| SlimServe.SlimServeBackend.Resume | lazarus/appliance/backends/slimserve.py:345-355 | the pause clears exactly when the outcome is a success |
| QueueingModel.Hour | lazarus/agent/queueing.py:48-54 | whatever the wall clock did, the last kept bucket is the current hour's, at most one is made, and none made before changes |
| QueueingModel.NextKeeps | lazarus/agent/queueing.py:56-113 | every arrival, departure, refusal, restart and reading keeps the line in order, its tickets flagged and no others, and every kept bucket's count and longest wait true of the tickets |
| QueueingTheorems.LedgerFollowsTheEngine | lazarus/agent/queueing.py:62-88 | over every run with a fixed number of places for each process, the ledger's line is exactly the waiting part of a first-come-first-served engine, its other current tickets exactly the running part, and the line's length max(0, in flight - places) |
| QueueingTheorems.PlaceIsHandedOn | lazarus/agent/queueing.py:72-75 | in that engine a place given back goes to the first of those waiting, and nobody else moves |
| QueueingTheorems.WaiterLeavesTheLine | lazarus/agent/queueing.py:79-86 | in that engine a request that gives up leaves the line, and nobody else moves |
| QueueingTheorems.EarlierProcessChangesNothing | lazarus/agent/queueing.py:76-77 | one-step fact, beside QueueingTheorems.LedgerFollowsTheEngine: a ticket of an earlier process changes nothing when it leaves |
| QueueingTheorems.TallyCounts | lazarus/agent/queueing.py:105-109 | whatever the clocks do, the sum told is the number of tickets counted in a kept bucket and not refused, bucket by bucket |
| QueueingTheorems.TallyIsTrue | lazarus/agent/queueing.py:105-113 | over every run with a monotonic clock, the longest wait told is exactly the longest of those ended in a kept hour and those still going on |
| QueueingTheorems.TallyIsTheLastDay | lazarus/agent/queueing.py:48-54 | with a wall clock that does not go back, at most 24 strictly rising hours are kept and the sum told is every request of the last 24 hours that queued |
| QueueingTheorems.LeaveEndsTheRightWait | lazarus/agent/queueing.py:56-60 | a request that leaves the line is told the time from its arrival to that step's reading, in the hour of the reading, unless it was refused; nobody else's wait changes |
| QueueingTheorems.RestartEndsEveryWait | lazarus/agent/queueing.py:96-103 | a restart ends the wait of exactly the line's requests, each at a reading of its own |
| QueueingTheorems.WaitsAreMilliseconds | lazarus/agent/queueing.py:56-58 | a wait is told in whole milliseconds, cut towards zero, and an hour is 3600 seconds |
| QueueingTheorems.WaitIsSinceItCame | lazarus/agent/queueing.py:62-64 | in every run a request's arrival is the reading at which it came, whatever follows |
| QueueingTheorems.CountedWhenItCame | lazarus/agent/queueing.py:66-70 | one-step fact, beside QueueingTheorems.TallyCounts: a request that has to wait is counted in the hour it came in |
| QueueingTheorems.NextStays | lazarus/agent/queueing.py:72-103 | no step changes a bucket's hour or the bucket a ticket is counted in |
| Queueing.Queueing.Hour | lazarus/agent/queueing.py:48-54 | the deque of bucket objects goes where the model's does; the bucket returned is the last, and only it may be new |
| Queueing.Queueing.Waited | lazarus/agent/queueing.py:56-60 | the ticket and the current bucket, and nothing else, change as in the model |
| Queueing.Queueing.Arrive | lazarus/agent/queueing.py:62-70 | the ledger goes where the model's arrival goes, and the ticket is new |
| Queueing.Queueing.Leave | lazarus/agent/queueing.py:72-88 | the same for a departure of any kind, the refused ticket's bucket found by identity among those kept |
| Queueing.Queueing.Find | lazarus/agent/queueing.py:80 | the first occurrence of the ticket in the line |
| Queueing.Queueing.WaitedMs | lazarus/agent/queueing.py:90-94 | none exactly while the ticket is in the line |
| Queueing.Queueing.Restart | lazarus/agent/queueing.py:96-103 | the loop ends every wait in the order of the line, and nothing is in flight after it |
| Queueing.Queueing.LastDay | lazarus/agent/queueing.py:105-113 | the loops give the model's tally |
| InFlight.NextDoes | lazarus/agent/deployments.py:1191-1344 | what every event of the agent does to the requests in flight, the gates and the records: a new gate in place of the old, a gate and a record gone, a record committed with nobody behind its gate, one request in or out, or nothing but gates made on first use |
| InFlight.BehindTheGateForItsRecord | lazarus/agent/deployments.py:1554-1606 | in every run a request in flight behind its deployment's current gate was sent for the record that is still the committed one |
| InFlight.WaitsForItsBodyExactlyWhen | lazarus/agent/deployments.py:1554-1572 | in every run a request that arrives waits for its body if and only if its deployment has a record, a gate that is not closed and a registered child, which it has read |
| InFlight.GoesThroughExactlyWhen | lazarus/agent/deployments.py:1572-1606 | in every run that follows it is sent, and counted behind its gate, if and only if by then the gate is open, that child is still the registered one and lives, and it could be sent |
| RequestLedgers.NextKeeps | lazarus/agent/deployments.py:1597-1606 | every step of the agent and its ledgers together keeps tickets and holders matched, a ticket of the current process exactly when its request is behind the current gate, and every ledger following a first-come-first-served engine with the committed record's places |
| RequestLedgers.LedgerCountsItsGate | lazarus/agent/deployments.py:1597-1606 | in every run a deployment's ledger counts exactly the requests with a ticket behind the deployment's current gate, and its line is as long as those are beyond the committed record's places |
| RequestLedgers.WaitsExactlyWhen | lazarus/agent/deployments.py:1597-1606 | in every run such a request waits if and only if as many that came before it are still there as its record has places |
| RequestLedgers.EmptyGateEmptyLine | lazarus/agent/deployments.py:1229-1239 | a gate that nobody is behind has an empty line, so a new process after a drain that was not cut short ends nobody's wait |
| RequestLedgers.TakesATicketExactlyWhen | lazarus/agent/deployments.py:1597-1599 | in every run a request that enters takes a ticket of its own, of the current process, if and only if its path takes a place and its record's places are known |
| RequestLedgers.HoldersKeepTheirTickets | lazarus/agent/deployments.py:1601-1604 | in every run who holds a ticket holds it through every step but its own leaving |
| RequestLedgers.LeavesAsRefusedExactlyWhen | lazarus/agent/deployments.py:1601-1632 | in every run a request that leaves is refused, and so not counted as queued, if and only if its engine refused it while it still waited |
| PagedCache.RowsAreRanges | lazarus/platforms/mps/compat.py:39-44 | the repeated row numbers give every token the row whose offsets hold it |
| PagedCache.SlotsDiffer | lazarus/platforms/mps/compat.py:50-51 | two positions of a request never share a slot |
| PagedCache.SlotsAreTokenSlots | lazarus/platforms/mps/compat.py:39-51 | for a consistent batch the slot mapping is each row's own table at each token's position, within the cache |
| PagedCache.ScatterAt | lazarus/platforms/mps/attention.py:225-230 | with distinct slots a scatter puts each entry in its slot and leaves every other as it was |
| PagedCache.GatherIsFilled | lazarus/platforms/mps/attention.py:274-278 | gathering a request's blocks and cutting at its length gives exactly the entries it wrote, with no block clamped |
| PagedCache.StepRefines | lazarus/platforms/mps/attention.py:225-230 | a batch whose slots are apart from every other request's keeps the cache a refinement of the plain lists |
| PagedAttention.RunRefines | lazarus/platforms/mps/attention.py:217-278 | so does every run of admissions with shared prefixes, growing tables, frees and batches |
| PagedAttention.GatherIsDense | lazarus/platforms/mps/attention.py:274-278 | after every run from an empty table a gather returns, position by position, what the request wrote |
| PagedAttention.SeenIsPrefix | lazarus/platforms/mps/attention.py:290-296 | a query token is shown exactly the positions up to its own, also where a single token skips the mask, and all of them where attention is not causal |
| PagedAttention.ChunkingDoesNotMatter | lazarus/platforms/mps/attention.py:262-301 | however a prompt is split, each token's output is attention over its own prefix |
| PagedAttention.DecodeGuard | lazarus/platforms/mps/attention.py:237-242 | as many tokens as requests and at most one each, if and only if every request has exactly one row, in order |
| PagedAttention.TokenSeesItsPrefix | lazarus/platforms/mps/attention.py:268-296 | in every batch each token is shown exactly its request's entries, of this batch and before, up to its position |
| MetalAttention.ComputeSlotMapping | lazarus/platforms/mps/compat.py:22-57 | fills the buffer with the slots and pads all of the rest; refuses, leaving it as it was, exactly under parallelism |
| MetalAttention.ScatterInto | lazarus/platforms/mps/attention.py:225-230 | the block-and-offset writes are the flat scatter |
| MetalAttention.GatherFrom | lazarus/platforms/mps/attention.py:274-278 | the blocks read from the array are the flat gather |
| MetalAttention.Forward | lazarus/platforms/mps/attention.py:197-303 | without metadata nothing changes, and a scaled output is refused; otherwise on either path the caches hold the new entries (unless shared) and every token of every row has its own row's masked output |
| MetalAttention.ForwardIsDense | lazarus/platforms/mps/attention.py:262-301 | that output is attention over the request's plain keys and values up to the token's position |
| Memory.CoveredIsHit | lazarus/agent/memory.py:223-232 | an offset is covered exactly when it is not negative and some half-open extent holds it |
| Memory.CoveredBytes | lazarus/agent/memory.py:223-232 | the loop over the sorted extents counts exactly the covered offsets, for any list, overlapping, nested, repeated or empty, in any order |
| Memory.SortedIsOrdered | lazarus/agent/memory.py:227 | the sort puts the pairs in order of start, then of end, and keeps them all |
| Memory.Merge | lazarus/agent/memory.py:67-71 | a file's merged extents are its extents in every member, end to end |
| Memory.MergedCovers | lazarus/agent/memory.py:67-71 | they cover exactly what some member maps |
| Memory.SumCovered | lazarus/agent/memory.py:72 | the sum over the files is the number of bytes covered |
| Memory.MemoryHeld | lazarus/agent/memory.py:56-73 | the weights told are the number of file bytes some member of the family maps, each once; none exactly when the process itself cannot be read |
| Memory.SumIsTheTotal | lazarus/agent/memory.py:64 | the children's readings are added up, those that could not be read as nothing |
| Videos.DecodeUndoesEncode | lazarus/agent/videos.py:48-59 | url-safe base64 with its padding stripped decodes to the same bytes, the padding recovered from the length alone |
| Videos.QuadIsTheNumber | lazarus/agent/videos.py:48 | four digits are the 24 bits of three bytes, read as one number in the alphabet of RFC 4648 |
| Videos.DigitsAreTheTable | lazarus/agent/videos.py:48 | the digits are the table of RFC 4648 for file names and addresses |
| Videos.EncodesAsIfZerosFollowed | lazarus/agent/videos.py:48 | the last one or two bytes are encoded as if zeros followed, and cut |
| Videos.DigitsDecodeToTheirBits | lazarus/agent/videos.py:59 | any four digits decode to the three bytes of their bits |
| Videos.LastDigitsDecode | lazarus/agent/videos.py:59 | two or three digits with their padding decode to the whole bytes among their bits |
| Videos.EncodedSize | lazarus/agent/videos.py:48 | an encoding has ceil(4 n / 3) characters, all of them taken by the route |
| Videos.SplitUndoesJoin | lazarus/agent/videos.py:62-65 | the right split gives back name, job and signature, whatever slashes the name holds |
| Videos.JoinUndoesSplit | lazarus/agent/videos.py:62-65 | one-step fact, beside Videos.JobInRaises: the parts that the right split gives join to what was split |
| Videos.JobOfExactly | lazarus/agent/videos.py:51-68 | a job is found in an id if and only if the id is video_ and ASCII after it, what follows decodes to the served name, the job and the keyed hash of name/job, and the job matches its pattern |
| Videos.VideoIdSigns | lazarus/agent/videos.py:42-48 | an id is video_ and the encoding of the name, the job and the keyed hash of name/job |
| Videos.ForgedExactlyWhen | lazarus/agent/videos.py:62-67 | an id signed for one job that names another is accepted if and only if the keyed hash of the two messages is the same |
| Videos.OtherNamesAreNotFound | lazarus/agent/videos.py:66 | an id of another deployment's video is not found |
| Videos.JobMatchesExactly | lazarus/agent/videos.py:32 | a job is 1 to 128 letters, digits, _ and -, and then at most one newline |
| Videos.JobInRaises | lazarus/agent/videos.py:65-67 | the comparison raises exactly for a matching name and job with a signature that is not ASCII |
| Videos.JobOfRaisesExactlyWhen | lazarus/agent/videos.py:51-68 | job_of raises if and only if the id is ASCII after its prefix and decodes to the served name, a matching job and a signature that is not ASCII |
| Videos.OddIdsRaise | lazarus/agent/videos.py:51-68 | every such text makes an id that raises, and the route takes that id if and only if name, job, signature and 2 come to at most 192 bytes |
| Videos.JobOfUndoesVideoId | lazarus/agent/videos.py:46-68 | the id of a job gives the job back, for every name and every job of the pattern |
| Videos.VideoIdsDiffer | lazarus/agent/videos.py:46-48 | no two names and jobs share an id |
| Videos.RouteTakesExactly | lazarus/agent/deployments.py:64 | an id fits the route if and only if name and job and 34 come to at most 192 bytes |
| Layout.PlacesApart | lazarus/agent/deployments.py:204-207 | the loop over neighbours decides exactly what the sorted list's neighbours say |
| Layout.AcceptsExactly | lazarus/agent/deployments.py:202-207 | for any order of characters, a layout is accepted if and only if it has no duplicate and every name that something is inside of has another name come between |
| Layout.RefusesOnlyConflicts | lazarus/agent/deployments.py:202-207 | what is refused is a real conflict |
| Layout.FindsConflictsExactlyWhen | lazarus/agent/deployments.py:202-207 | the check meets its promise if and only if there is a duplicate, or nothing is nested, or some name something is inside of is continued by no other with a character before the slash |
| Layout.SlashFirstFindsAll | lazarus/agent/deployments.py:202-203 | with the slash ordered first the check accepts exactly the layouts that give every file a place of its own |
| Layout.SlashFirstIsByComponent | lazarus/agent/deployments.py:202-203 | that order is the order of the paths' components |
| Layout.NestedIsByComponent | lazarus/agent/deployments.py:204-206 | a name is taken to be inside another exactly when the other's path components, and more, begin its own |
| Layout.NestingMissed | lazarus/agent/deployments.py:204-207 | a, a-b and a/c are accepted though a/c is inside a |

## Left out

* HTTP, authentication, response bodies, logging and metrics: requests are steps
  that check, enter, forward and leave.
* Spawning, signals, sockets, checksums and process inspection: outcomes are
  arguments, a confirmed stop means the child is dead, and a save of the agent's
  configuration is all or nothing.
* `engine_report` and the observation of children: they only read.
* The `Agent` object does not hold its ledgers: where the agent calls them is part
  of `RequestLedgers`, on values.
* Of a record's places only the number is known, and of a request's path only
  whether it takes one.
* A worker that is cancelled while a stop runs in its thread: the stop's late
  success appears as the child's own exit.
* `join_transitions`: that the workers are awaited before the sweep is not needed
  for what the sweep leaves, since none of them starts a child once the agent stops.
* The embedding role's throttle and the other roles' semaphores in `slot`.
* `_wait_loaded`, `_refresh_observation` and `validate_observation` are one outcome
  of a start; `role_info`, observations and tokens are not state here.
* Floating point: clock readings are reals, so a wait's milliseconds are cut from
  the exact product.
- MetalAttention.Forward: the fused decode kernel is not part of this repository,
  so its call is taken to be attention over each request's gathered entries.
* Attention itself is a function of a query and the keys and values it is shown. `sliding_window` and `logits_soft_cap` are stored and never used by
  `forward`, so nothing is claimed of them. The expansion of grouped heads is
  inside that function.
* vLLM's batch preparation and block allocation: offsets, positions, tables
  without repeated blocks and slots apart from other requests' are what the batch
  predicates ask for. Table rows hold the request's blocks without padding. The
  clamp is modelled, and proved not to act.
* The keyed hash is any function to 32 hexadecimal characters, and which bytes
  decode as UTF-8 is a parameter.
* Case folding, the canonical-path test and the counts of model, projector and
  drafter in the layout's validator.
* The video request and response shapes, the memory walk's cache, and `_descendants`.
* `vllm_engine.py`, which keeps simpler fences of the same kind over upstream code
  that is not part of this model.
