# Admission, durability and small protocols of the execution node

A Dafny model of the node agent's concurrency and durability core, with proofs of what its
operations promise. Where the program changes state step by step, a class keeps that state in
fields and every method is tied to a transition on values; what the program is for is proved
about those transitions, for single steps, for whole drains and for every run.

## What is modelled

**Joint admission.** `QueueModel` is the conflict-aware queue as a value: the dependency graph
is computed from arrival order and claims, so it says what the maintained graph has to be.
`QueueProperties` proves what one step, one drain and every run keep; `Graph` and `Search` hold
the invariants of the incremental edges and of the worklist; `ResourceQueues` is the queue with
its lists and dictionaries updated in place. `SchedulerModel`, `SchedulerProperties` and
`NodeRuns` add lanes, projects, targets and the joint grant of claims and slots, `Turns` the
rotation among projects, `Admission` the limits at every step; `NodeAsQueue` shows that the node
only ever performs legal queue runs; `CapacityModel` is the governor that moves the limit;
`Schedulers` is the scheduler in place. `Claims.ConflictsMeans`, `QueueMeaning` and
`SchedulerMeaning` restate conflicts, blocking and every entry point on paths, counts and
settings, without the definitions the other modules share.

**Durable protocols.** `UploadModel` breaks the resumable upload into single database and file
effects. A crash reverts the database to its last commit, keeps the spool directory and may tear
what was not synced. `UploadRuns` is about every run with a crash between any two effects;
`Uploads` is the service, whose recorded trace is such a run. `JournalModel`, `JournalRuns` and
`Journals` do the same for idempotent calls, restarts and the retirement of backups beside
writers and readers; `JournalCleanup` is about completed passes of the removal, and
`JournalMeaning` about what each transaction does to the row of a call.

**Small protocols.** `GateModel` and `SendLocks`: the priority lock with direct hand-over and
cancellation. `EditModel` and `MultiEdits`: several replacements located in the LF form and
spliced into the original. `PatchModel`, `FileEngines` and `Patches`: the multi-file patch with
rollback while other programs write. `FlowModel` and `SyncFlows`: the ack-clocked window and its
backoff. `BrokerModel`, `Leases` and `BrowserBrokers`: at-most-once delivery to the browser.

## Reading the model

- Every transition of the program happens under one condition or lock and is one method; the
  clock is read once per transition and passed as `now`. Failing disks and other programs are
  nondeterministic choices inside the methods.
- Python dictionaries keep insertion order; `arrival` and `next` stand for it. Tokens, futures
  and requests are numbers, fresh where the program makes a new object.
- SHA-256 is an arbitrary function; only statements about digests use it.
- Three laws fail in corners and are stated with their condition. A grant never unblocks
  another waiter exactly when `bypass_seconds` is positive (`PatienceDecides`). Normalising an
  edited file is editing the normalised file exactly when no insertion completes a CRLF with a
  carriage return or line feed next to it (`LfEquivalence`); `LoneCrMerges` is an accepted edit
  where it does. A patch overwrites nothing but planned versions unless another program saves
  between the last look and the replacement (`OnlyPlannedVersionsGo`, `InterleavedSaveIsLost`).
- A crash, or an I/O error, between creating a spool file and committing its identity leaves an
  upload that can be neither used nor cleaned up (`OrphanStays`): the code keeps it as evidence.

Verify with `dafny verify dfyconfig.toml`.

## Model

| member | source | states |
|---|---|---|
| Claims.OverlapsSymmetric | agent/resource_queue.py:33-48 | overlap is symmetric, for file and process holders alike, under both semantics |
| Claims.RelaxedOverlapIsStrict | agent/resource_queue.py:38-44 | whatever conflicts under relaxed semantics conflicts under strict ones |
| Claims.StrictOnlyOverlap | agent/resource_queue.py:38-41 | sets that conflict only under strict semantics do so through a file and a process holder |
| Claims.ConflictsMeans | agent/resource_queue.py:17-44 | two claims of one namespace and kind, one of them writing, exclude each other exactly if: services, by equal names; paths, when one path is the other or lies below it (names cut at slashes, empty and "." components dropped, two leading slashes kept apart from one), less the pairs of a file and a process holder that relaxed semantics tolerates |
| QueueModel.RootsAreReachable | agent/resource_queue.py:133-147 | the owners behind a token are exactly the active ends of paths through waiting tokens in the acyclic conflict graph |
| QueueModel.EnqueueWF | agent/resource_queue.py:96-106 | a new token joins last and keeps the queue well formed: entries are the disjoint union of waiting and active, waiting is in entry order |
| QueueModel.GrantWF | agent/resource_queue.py:233-256 | a grant keeps the queue well formed, gates included |
| QueueModel.DiscardWF | agent/resource_queue.py:258-277 | a discard keeps the queue well formed |
| QueueModel.SwitchWF | agent/resource_queue.py:108-122 | a change of semantics keeps the queue well formed |
| QueueProperties.GrantKeepsBlocked | agent/resource_queue.py:171-198 | at one clock reading a grant never unblocks another token |
| QueueProperties.PatienceDecides | agent/resource_queue.py:180-189 | that holds for all queues if and only if `bypass_seconds` is positive |
| QueueProperties.GrantUnblocksWithoutPatience | agent/resource_queue.py:180-189 | the queue on which it fails without patience |
| QueueProperties.DrainIsFixpoint | agent/resource_queue.py:279-294 | after one pass of a drain no standalone waiter is still grantable |
| QueueProperties.DrainNeverStalls | agent/resource_queue.py:279-294 | if every waiter is standalone, something is active after a drain of a non-empty queue |
| QueueProperties.RefusedReservation | agent/resource_queue.py:307-320 | enqueue followed by discard restores the queue, up to the next insertion stamp |
| QueueProperties.StrictGrantOrder | agent/resource_queue.py:149-198 | a strict grant leaves no earlier live entry behind that conflicts through a file holder |
| QueueProperties.UnboundedNeverOvertakes | agent/resource_queue.py:149-189 | an unbounded token never overtakes an earlier conflicting entry, nor in strict mode one that writes or is held by a process |
| QueueProperties.RunWF | agent/resource_queue.py:96-294 | every run of enqueue, grant, discard and reconfigure keeps the queue well formed |
| QueueProperties.MutualExclusion | agent/resource_queue.py:108-123 | no two owners ever overlap under relaxed semantics in any run, nor under strict semantics while the run stays strict; `OwnersApart` says the same on paths |
| QueueMeaning.OwnersApart | agent/resource_queue.py:38-48 | in any run no owner writes at, above or below a path that another owner claims, but for the file and process pairs relaxed semantics tolerates; in a run that stays strict without exception; and no two owners claim one service when either writes |
| QueueMeaning.NotBlockedMeans | agent/resource_queue.py:149-198 | when a waiting token may go, both ways: no owner conflicts, and it conflicts with nothing earlier or it is bounded, in strict mode a mere reader of files that conflicts with process holders only, and every earlier conflicting token waits behind an owner of long standing within its gate |
| QueueMeaning.GrantMeans | agent/resource_queue.py:233-256 | a grant fixes the gates of those it overtakes for the first time to the owners they wait behind, leaves other gates alone and makes the token an owner |
| QueueMeaning.DiscardMeans | agent/resource_queue.py:258-277 | a discarded token is nowhere any more, and nobody else is touched |
| QueueMeaning.SwitchMeans | agent/resource_queue.py:108-122 | a change of semantics clears the gates and changes nothing else of the queue |
| QueueProperties.DrainInOrder | agent/resource_queue.py:279-294 | the first standalone waiter that may go does go in a drain, whatever waits behind it |
| QueueProperties.GateStays | agent/resource_queue.py:237-241 | between reconfigurations the first overtake fixes the gate of a waiter |
| QueueProperties.BoundedOvertaking | agent/resource_queue.py:171-189 | once every owner in the gate has left, no younger conflicting token is granted ahead of the waiter |
| QueueProperties.OvertakeNeedsRoot | agent/resource_queue.py:179-189 | an overtaken waiter has an owner of long standing in its gate |
| QueueProperties.DrainIsRun | agent/resource_queue.py:279-294 | a drain is a run of legal grants, so the theorems about runs hold of it |
| ResourceQueues.EdgesAreOverlaps | agent/resource_queue.py:96-123 | in every valid queue, the edges of a waiter lead to exactly the earlier live tokens whose claims overlap its own now, and back; entries are waiting or active, and waiting keeps their order |
| Graph.EnqueueExact | agent/resource_queue.py:97-105 | the edges added by `enqueue` keep the graph exact and both dictionaries inverse to each other |
| Graph.GrantExact | agent/resource_queue.py:251-253 | the edges removed by `grant` keep the graph exact |
| Graph.DiscardExact | agent/resource_queue.py:262-269 | the edges removed by `discard` keep the graph exact |
| Search.SearchEnds | agent/resource_queue.py:136-147 | the worklist search has found exactly the active owners reachable from the token when it stops |
| ResourceQueues.Linked | agent/resource_queue.py:104-105 | records a dependent at each of its blockers and changes nothing else |
| ResourceQueues.Unlinked | agent/resource_queue.py:262-267 | forgets a dependent at each of its blockers, with or without dropping empty sets |
| ResourceQueues.Released | agent/resource_queue.py:268-269 | nobody waits for the discarded token any longer |
| ResourceQueues.Rebuilt | agent/resource_queue.py:111-122 | recomputing all edges yields the exact graph of the new semantics |
| ResourceQueues.ResourceQueue.ActiveRoots | agent/resource_queue.py:133-147 | terminates and returns the reachability roots |
| ResourceQueues.ResourceQueue.IsBypassable | agent/resource_queue.py:171-189 | decides the bounded overtake as the model defines it, which `QueueMeaning.NotBlockedMeans` spells out in both directions |
| ResourceQueues.ResourceQueue.IsBlocked | agent/resource_queue.py:191-198 | decides blocking as the model defines it; a waiting token is not blocked exactly if `MayPass` holds, in terms of paths, owners and times |
| ResourceQueues.ResourceQueue.Enqueue | agent/resource_queue.py:96-106 | in-place enqueue has the transition of the model and keeps the graph exact |
| ResourceQueues.ResourceQueue.Enter | agent/resource_queue.py:330-346 | a standalone waiter: enqueued and marked to be granted by drains |
| ResourceQueues.ResourceQueue.Grant | agent/resource_queue.py:233-256 | in-place grant has the transition of the model and keeps the graph exact |
| ResourceQueues.ResourceQueue.Discard | agent/resource_queue.py:258-277 | in-place discard has the transition of the model and keeps the graph exact |
| ResourceQueues.ResourceQueue.Reconfigure | agent/resource_queue.py:108-122 | in-place change of semantics, with the graph rebuilt and gates cleared |
| ResourceQueues.ResourceQueue.Drain | agent/resource_queue.py:286-294 | the loop over a snapshot grants exactly what the model drains |
| ResourceQueues.ResourceQueue.TryReserve | agent/resource_queue.py:307-319 | grants iff uncontended, unblocked and new; a refusal changes nothing but the insertion stamp |
| CapacityModel.UpdateInRange | agent/scheduler.py:56-113 | the limit is 0 exactly while paused and otherwise within the configured bounds |
| CapacityModel.ReconfigureInRange | agent/scheduler.py:225-232 | new settings keep a pause and clamp the limit otherwise |
| CapacityModel.RunInRange | agent/scheduler.py:56-113 | the limit is in range in every state of every run of samples and changes of settings |
| CapacityModel.GrowthIsPaced | agent/scheduler.py:90-113 | between two changes of settings an adaptive governor grows by at most one slot per 15 seconds, from any unpaused state |
| CapacityModel.PauseLifts | agent/scheduler.py:64-85 | with settings changing at any time, a pause lifts only after three safe samples in a row with no change between, and 15 s after the last critical sample and every later change |
| CapacityModel.EmergencyHistory | agent/scheduler.py:64-85 | while paused, the cool-down runs since no earlier than the last critical sample and every later change of settings, and the healthy count is that of safe samples just read |
| CapacityModel.EmergencyMeans | agent/scheduler.py:60-70 | an emergency begins exactly with a fresh reading of less than 2.5 % of the memory, or of less than 256 MiB and 10 %, and stops everything |
| CapacityModel.SafeMeans | agent/scheduler.py:74-76 | what counts as a safe sample, in bytes and shares |
| CapacityModel.PressureLowers | agent/scheduler.py:96-104 | less than 10 % of memory, a processor busy for 90 % or I/O stalled for 25 % takes a quarter of the slots away, at least one, down to the minimum |
| CapacityModel.BlindnessLowers | agent/scheduler.py:90-95 | without a usable reading the limit never rises and falls to four at most, or the minimum |
| CapacityModel.HealthRaises | agent/scheduler.py:105-113 | the limit rises exactly on the third healthy reading in a row, 15 s after the last change, below the maximum and one slot per 512 MiB: by one |
| CapacityModel.FixedLimits | agent/scheduler.py:79-89 | an emergency ends at the minimum, or at the fixed limit of a governor that does not adapt |
| Capacities.AdaptiveCapacity.Update | agent/scheduler.py:56-113 | the in-place update computes the governor of the model |
| Capacities.AdaptiveCapacity.Reconfigure | agent/scheduler.py:228-232 | the in-place reconfiguration computes the governor of the model |
| SchedulerModel.NothingSelected | agent/scheduler.py:168-181 | nothing is selected exactly when no waiting ticket is eligible |
| SchedulerModel.SelectedIs | agent/scheduler.py:168-181 | the ticket that beats every other eligible one by load, turn and arrival is the one selected |
| SchedulerModel.GrantTicketValid | agent/scheduler.py:199-206 | a joint grant keeps both structures in step |
| SchedulerProperties.ServeExtends | agent/scheduler.py:187-206 | a drain only grants: it evicts nobody and changes no setting |
| SchedulerProperties.ServeIsFixpoint | agent/scheduler.py:187-206 | after the scheduler has drained no ticket is eligible |
| SchedulerProperties.ServeKeepsBlocked | agent/scheduler.py:187-206 | no grant of a drain unblocks a ticket |
| SchedulerProperties.MaxMinFairness | agent/scheduler.py:168-206 | a project granted a slot in a drain holds at most one slot more than any project held back only by the full lane |
| SchedulerProperties.DrainAllIsFair | agent/scheduler.py:187-223 | the same for a whole drain, standalone operations included |
| Turns.LongestWaitFirst | agent/scheduler.py:171-181 | of two equally loaded projects the one that waited longer for a turn is served, and yields to the other afterwards |
| Turns.EarliestFirst | agent/scheduler.py:168-181 | of two eligible tickets of one project and lane the earlier is served |
| Turns.RunInSequence | agent/scheduler.py:203-204 | no turn is ever numbered ahead of the last grant |
| SchedulerProperties.AdmissionBounds | agent/scheduler.py:146-166 | whatever count a drain raises stays within the settings: the governor's limit, the read and remote limits (one and none in an emergency), the project's own limit or 64, a slot of the lane left to others, and the limit per target |
| Admission.StepAdmits | agent/scheduler.py:146-327 | whatever step the node takes, conversions and reconfigurations included, a lane, project or target that runs more afterwards is within these settings as they then are |
| Admission.RunAdmits | agent/scheduler.py:146-372 | so it is at every step of every run |
| SchedulerModel.PausedNode | agent/scheduler.py:146-166 | in a memory emergency a single reader may run and nobody else |
| SchedulerModel.ReasonMeans | agent/scheduler.py:146-166 | when a ticket may run and why it may not, from the running tickets and the settings alone, in both directions and in the order of the checks |
| SchedulerProperties.DrainAllIsFixpoint | agent/scheduler.py:187-223 | after a whole drain every waiter is excluded by a live conflict or a limit |
| SchedulerProperties.IdleNodeGrants | agent/scheduler.py:187-206 | an idle node whose oldest ticket has capacity in its lane grants something |
| NodeRuns.StepValid | agent/scheduler.py:225-372 | every entry point keeps the joint invariant |
| NodeRuns.RunValid | agent/scheduler.py:225-372 | so does every run |
| NodeRuns.JointAdmission | agent/scheduler.py:187-372 | in every reachable state a claim-carrying ticket runs iff its claims are owned, and waits in both structures otherwise |
| NodeRuns.NoEviction | agent/scheduler.py:187-372 | a running ticket leaves only by its own release |
| NodeRuns.RefusedChangesNothing | agent/scheduler.py:266-288 | a refused conversion leaves the whole node as it was, up to the next insertion stamp |
| NodeRuns.ChosenIsFree | agent/scheduler.py:276-293 | a conversion is granted only when its claims are free and its slot within limits, ahead of all other eligible tickets |
| NodeRuns.TentativeUndone | agent/scheduler.py:276-283 | putting the owned slot back after the trial restores the scheduler side |
| NodeRuns.RunExclusive | agent/scheduler.py:187-372 | no two owners of the node ever overlap, whatever semantics were configured when |
| NodeAsQueue.StepReaches | agent/scheduler.py:187-372 | each entry point is a legal run of the resource queue |
| NodeAsQueue.ExhaustedGate | agent/scheduler.py:187-372 | bounded overtaking holds of the node: no later ticket or standalone operation passes a waiter whose gate is empty |
| SchedulerMeaning.SubmissionMeans | agent/scheduler.py:330-372 | a ticket without a project, on a closing node or behind 1024 others is refused without effect; any other is known with its claims, and may overtake only as a reader that did not ask for strict order |
| SchedulerMeaning.ReleaseMeans | agent/scheduler.py:312-328 | a released ticket leaves nothing behind: no slot, no place in line, no claim |
| SchedulerMeaning.TurnsOutlive | agent/scheduler.py:312-328 | through a release a project keeps its turn exactly if it still has a ticket in the lane |
| SchedulerMeaning.ConversionMeans | agent/scheduler.py:250-299 | a granted conversion satisfied each of its guards, keeps the waiting list, owns its claims and takes a turn |
| SchedulerMeaning.ClosedNodeAdmitsNothing | agent/scheduler.py:187-299 | a closed node lets no ticket run that did not run, conversions included |
| SchedulerMeaning.SettingsMean | agent/scheduler.py:225-236 | new settings and the new semantics are in force at once |
| SchedulerMeaning.SignalsMean | agent/scheduler.py:238-248 | so are pressure and closing, and a standalone operation that ends gives up exactly its own claims |
| SchedulerMeaning.JoinMeans | agent/resource_queue.py:330-346 | a waiting standalone operation is known with its claims and may overtake only as a bounded one that did not ask for strict order |
| SchedulerMeaning.TryJoinMeans | agent/resource_queue.py:307-319 | a standalone operation that will not wait is admitted exactly when nobody holds the lock, its operation is new and its claims may be granted at once |
| SchedulerMeaning.StepSettles | agent/scheduler.py:187-372 | every entry point but the two that refuse to wait leaves nothing behind that could go |
| SchedulerMeaning.StandaloneFirst | agent/scheduler.py:219-223 | the first standalone waiter that may go does go in a whole drain, however many tickets wait |
| Schedulers.ProjectScheduler.EligibleRows | agent/scheduler.py:168-180 | the scan keeps, for each project, a row that beats every eligible ticket it skips |
| Schedulers.ProjectScheduler.Selected | agent/scheduler.py:168-181 | the scan and its minimum select the ticket of the model |
| Schedulers.LeastRow | agent/scheduler.py:181 | the least row by load, turn and arrival |
| Schedulers.ScannedBest | agent/scheduler.py:168-181 | skipping further tickets of a project loses no better candidate |
| Schedulers.ProjectScheduler.DrainTickets | agent/scheduler.py:187-206 | the loop reaches exactly the state of the model, of which `AdmissionBounds` and `ReasonMeans` state the limits on the settings |
| Schedulers.ProjectScheduler.DrainAll | agent/scheduler.py:219-223 | standalone operations first, then tickets |
| Schedulers.ProjectScheduler.Slot | agent/scheduler.py:330-356 | a ticket is refused without effect, or queued in both structures and drained |
| Schedulers.ProjectScheduler.TryReserve | agent/scheduler.py:250-299 | converts exactly when all guards hold and the trial selects it; otherwise the node is as before |
| Schedulers.ProjectScheduler.ReleaseOwned | agent/scheduler.py:312-328 | ticket, claims and turns nobody needs go together, then the node drains |
| Schedulers.ProjectScheduler.Reconfigure | agent/scheduler.py:225-236 | limits, semantics and graph switch together, then the node drains |
| Schedulers.ProjectScheduler.UpdatePressure | agent/scheduler.py:238-241 | the governor and the node move together |
| Schedulers.ProjectScheduler.Close | agent/scheduler.py:243-246 | the node is closed and drained: nothing is granted to tickets any more |
| Schedulers.ProjectScheduler.StandaloneSlot | agent/resource_queue.py:330-346 | standalone operations share the drain |
| Schedulers.ProjectScheduler.StandaloneRelease | agent/resource_queue.py:321-328 | and give their claims back |
| Schedulers.ProjectScheduler.StandaloneTryReserve | agent/resource_queue.py:307-319 | or are admitted without waiting |
| UploadModel.EffectSound | agent/incoming_uploads.py:237-255 | every single database or file effect, and a crash at any point, keeps the upload invariant |
| UploadModel.CrashSound | agent/incoming_uploads.py:237-255 | reverting the database and tearing unsynced file contents keeps it |
| UploadModel.RowFits | agent/incoming_uploads.py:294-317 | each row update leaves the row backed by its synced spool bytes and holds no more capacity |
| UploadModel.FileSound | agent/incoming_uploads.py:310-319 | creating, trimming, syncing and writing leave the acknowledged bytes of every row alone |
| UploadRuns.AlwaysSound | agent/incoming_uploads.py:321-537 | the invariant holds in every state of every run with crashes between any two effects |
| UploadRuns.AcknowledgedIsDurable | agent/incoming_uploads.py:310-319 | the first `received` bytes of a registered spool file are exactly the acknowledged chunks, and synced |
| UploadRuns.AcknowledgedSurvives | agent/incoming_uploads.py:383-417 | acknowledged bytes are never taken back, whatever crashes |
| UploadRuns.CapacityBound | agent/incoming_uploads.py:342-348 | the committed reservations never exceed 2 GiB |
| UploadRuns.PublishesAcknowledged | agent/incoming_uploads.py:457-485 | what is published is the acknowledged content, of the declared size and digest, at a path that held nothing |
| UploadRuns.PublishedOnce | agent/incoming_uploads.py:419-493 | each lifetime of an upload is published at most once |
| UploadRuns.ExistingFilesAreKept | agent/incoming_uploads.py:443-483 | no effect of the service changes or removes an existing project file |
| UploadRuns.NeverAdopted | agent/incoming_uploads.py:271-284 | an upload interrupted while staging or publishing is never continued or published again |
| UploadRuns.CrashInterrupts | agent/incoming_uploads.py:271-284 | every crash during a publication leaves such a row |
| UploadRuns.CreationOrphans | agent/incoming_uploads.py:294-308 | a crash or error between creating a spool file and committing its identity leaves an orphan |
| UploadRuns.OrphanStays | agent/incoming_uploads.py:294-308 | such an upload keeps its row, file and reservation for ever |
| Uploads.IncomingUploads.Materialize | agent/incoming_uploads.py:294-308 | creates and registers a spool file only where none exists |
| Uploads.IncomingUploads.Reconcile | agent/incoming_uploads.py:310-319 | discards exactly the unacknowledged tail, or asks for recovery |
| Uploads.IncomingUploads.WriteAll | agent/incoming_uploads.py:406-413 | short writes add up to the whole chunk, synced, behind the acknowledged bytes |
| Uploads.IncomingUploads.Chunk | agent/incoming_uploads.py:383-417 | accepted only from a caller with rights on the row's binding and path, before expiry, at the acknowledged offset; each violated condition yields its code in the order of the program; a refusal commits nothing, an acceptance exactly the chunk |
| Uploads.IncomingUploads.Begin | agent/incoming_uploads.py:321-368 | refused exactly for the reasons of `BeginRefusal` (limits, rights, state, conflict, destination, quota) and then without effect; otherwise committed as declared before the spool is touched |
| Uploads.IncomingUploads.Status | agent/incoming_uploads.py:370-381 | answers only entitled callers, with the acknowledged length, and every other with the code of the first condition that fails; no row changes but for the registration of a missing spool |
| Uploads.IncomingUploads.Refusal | agent/incoming_uploads.py:326-348 | the checks of a begin, in their order |
| Uploads.IncomingUploads.ReservedBytes | agent/incoming_uploads.py:342-343 | the sum of the reservations |
| Uploads.IncomingUploads.Finish | agent/incoming_uploads.py:419-493 | for entitled callers only: publishes once, whole and verified, keeps the receipt for seven days, or refuses with the reason in the order of the checks; a repeated call returns the receipt |
| Uploads.IncomingUploads.CopyOut | agent/incoming_uploads.py:457-465 | what is published was read completely and has the declared digest |
| Uploads.IncomingUploads.TryPublish | agent/incoming_uploads.py:478-483 | publication never replaces a file, and a failure may come before or after it |
| Uploads.IncomingUploads.Cleanup | agent/incoming_uploads.py:508-537 | only expired rows and spool files go, never an open publication, a foreign file or a project file |
| Uploads.LookupMeans | agent/incoming_uploads.py:257-285 | who may use an upload and what every other caller is told: rights before existence, binding with existence, then the path, an open publication, expiry and failure |
| Uploads.BeginMeans | agent/incoming_uploads.py:321-368 | a begin is admitted exactly for a caller with rights, within the sizes and quotas, for a free destination, or as the same declaration of an upload it may use |
| Uploads.BeginRefusalMeans | agent/incoming_uploads.py:326-348 | and refused with the code of the first condition that fails |
| Uploads.UsableMeans | agent/incoming_uploads.py:148-182 | a spool file is used only if it is the registered one and not longer than declared |
| Uploads.ReservedMeans | agent/incoming_uploads.py:342-343 | an upload holds twice its size until its spool file is gone and no publication is open |
| JournalModel.StartedSound | agent/journal.py:78-93 | an admission keeps the run-count invariant and every identity; any other answer changes nothing |
| JournalModel.RestartedSound | agent/journal.py:48-61 | a restart keeps the run-count invariant: it counts and repeats interrupted read and upload calls up to the limit and interrupts all others |
| JournalModel.ForgottenSound | agent/journal_retention.py:114-123 | forgetting results keeps the invariant, and the calls finished |
| JournalRuns.StepSound | agent/journal.py:78-176 | every step of calls, writers, readers and the pruner keeps the invariant |
| JournalRuns.AlwaysSound | agent/journal.py:78-176 | so does every run with restarts |
| JournalRuns.CallsContinue | agent/journal.py:78-125 | a call keeps its request for ever and, once finished, stays finished |
| JournalRuns.RunsCount | agent/journal.py:95-97 | the run count of a call is the number of steps that put it into `running` |
| JournalRuns.AtMostOnce | agent/journal.py:48-61 | a call begins to run at most once, one of a replayable tool at most three times, over all restarts |
| JournalRuns.FinishedStaysFinished | agent/journal.py:78-93 | a finished call is answered from the journal for ever, even after its result was pruned |
| JournalRuns.ReuseIsRefused | agent/journal.py:82-84 | an id reused for another request is refused without effect, now and later |
| JournalRuns.UnackedResultStays | agent/journal.py:119-125 | an unacknowledged result stays, and no recovery material is retired meanwhile |
| JournalRuns.RecoveryDataIsKept | agent/journal.py:141-176 | a row that refers to a file finds it, and a call that read a row still finds row and file |
| JournalRuns.UnlinkIsSafe | agent/journal_retention.py:78-102 | a file is unlinked only when no row, writer or reader knows it, although calls may have come in since the check |
| JournalRuns.NothingElseIsLost | agent/journal_retention.py:105-166 | no other step removes a file, and rows go only while no call is active |
| JournalCleanup.RunAccounts | agent/journal_retention.py:78-166 | over any run, files go only for items that were queued, what left the queue is gone and stays gone, and rows go only as stale items |
| JournalCleanup.PassEmptiesQueue | agent/journal_retention.py:78-102 | a pass that takes the queue and is not stopped leaves nothing queued, whatever else runs meanwhile |
| JournalCleanup.CleanupResumes | agent/journal_retention.py:78-102 | after crashes at any point, stopped passes and new retirements, a completed pass leaves exactly the files and rows that were never retired |
| JournalCleanup.InterruptionsDoNotMatter | agent/journal_retention.py:78-102 | two runs from the same state that retire the same end with the same queue, files and rows, interrupted or not |
| JournalCleanup.RepeatedPassKeepsAll | agent/journal_retention.py:78-166 | with nothing newly retired a further pass takes nothing away |
| JournalCleanup.PassCompletes | agent/journal_retention.py:78-102 | where no call is active the pass about to begin has a legal completion |
| JournalRuns.RetireSound | agent/journal_retention.py:140-164 | the retiring transaction leaves queued files unreachable |
| Journals.RecoveredCalls | agent/journal.py:48-61 | the five updates of a restart, in their order, recover each call as the model says |
| Journals.Journal.Recover | agent/journal.py:48-61 | the same on the journal |
| Journals.Journal.Start | agent/journal.py:78-93 | admits, repeats, refuses or answers from the journal; only an admission changes anything |
| Journals.Journal.MarkRunning | agent/journal.py:95-97 | only an accepted call begins to run |
| Journals.Journal.Finish | agent/journal.py:119-121 | the result is recorded and has to be delivered |
| Journals.Journal.Ack | agent/journal.py:123-125 | delivery is recorded |
| Journals.Journal.Outbox | agent/journal.py:127-139 | the longest front of the undelivered results within 4 MiB, and at least one |
| Journals.Journal.AddBackup | agent/journal.py:141-153 | the file is there before its row, as two steps of the run; a failure leaves no row |
| Journals.Journal.ReadBackup | agent/journal.py:164-176 | a row of the project with its content, if that is there and matches the stored digest; otherwise expired or corrupt, which the journal itself never causes |
| Journals.Journal.Prune | agent/journal_retention.py:105-166 | a row younger than `backup_days`, with fewer than `backups_per_path` newer rows of its path and fewer than `max_backups` newer rows, keeps row and file; unless a call is active or the batch is full every older row goes, its file goes or stays queued, and so do aged files without a row; results are forgotten only once delivered, and only if older than `call_days` or with `max_calls` newer ones |
| Journals.OutdatedMeans | agent/journal_retention.py:140-147 | which recovery rows go, in times and counts, both ways |
| Journals.OldResultsMeans | agent/journal_retention.py:114-123 | which results are forgotten, in times and counts, both ways |
| JournalMeaning.AnswerMeans | agent/journal.py:78-93 | when a repeated request runs, waits, is refused, or is answered with the recorded result |
| JournalMeaning.AdmissionMeans | agent/journal.py:78-93 | what an admission records |
| JournalMeaning.AnsweredAsRecorded | agent/journal.py:78-125 | whatever happens after a call finished, restarts included, the same request is answered with the result it finished with, or, if it was expired since, told so |
| JournalMeaning.UndeliveredUntilAcked | agent/journal.py:119-125 | from its end to its acknowledgement the result of a call is there to be delivered, and no recovery row is retired |
| JournalMeaning.AcknowledgementMeans | agent/journal.py:123-125 | an acknowledgement changes nothing else |
| JournalMeaning.BeginMeans | agent/journal.py:95-97 | a call begins to run in one way only: `mark_running` of an accepted call |
| JournalMeaning.RecoveryMeans | agent/journal.py:48-61 | what a restart makes of each call: repeated if it never began, or only reads and was interrupted fewer than three times; reported as interrupted otherwise |
| JournalMeaning.ActiveMeans | agent/journal_retention.py:28-31 | a call is active until it is finished and delivered |
| Journals.Journal.DrainCleanup | agent/journal_retention.py:78-102 | a run of legal steps: only queued files without a row are removed, what leaves the queue is gone, and a finished pass has done its batch |
| Journals.Journal.DropItem | agent/journal_retention.py:82-102 | check, unlink and forget as three steps; an error leaves the item queued |
| Journals.OldestBatch | agent/journal_retention.py:113-118 | a full batch of the oldest candidates |
| GateModel.StepSound | agent/send_priority.py:57-92 | a free lock has nobody waiting, and the owner is not also a waiter |
| GateModel.NobodyIsOvertaken | agent/send_priority.py:82-92 | who becomes the owner has nobody ahead in its class; a bulk frame only when no control frame waits, a newcomer only when the lock is free |
| GateModel.OrderIsKept | agent/send_priority.py:57-92 | while two frames of a class wait, their order stays |
| GateModel.FirstComeFirstServed | agent/send_priority.py:57-92 | over runs with cancellation, the later of two frames never gets the lock while the earlier waits |
| GateModel.ControlGoesFirst | agent/send_priority.py:57-62 | from the moment a control frame waits no bulk frame gets the lock |
| GateModel.BulkWaitsForControl | agent/send_priority.py:57-92 | from the arrival of a control frame until it owns the lock or gives up, no frame that arrived as bulk gets the lock |
| GateModel.ServedByArrival | agent/send_priority.py:57-92 | of two frames of one class the one that arrived first is served first, unless it gives up |
| GateModel.ReleaseServes | agent/send_priority.py:82-92 | every release serves somebody if anybody waits, and moves each control frame forward, and each bulk frame when no control frame waits |
| SendLocks.LiveWithout | agent/send_priority.py:64-77 | a cancelled future disappears from its queue at once, as far as the gate is concerned |
| SendLocks.PopPending | agent/send_priority.py:84-91 | popping skips cancelled futures and nothing else |
| SendLocks.PrioritySendLock.Acquire | agent/send_priority.py:57-77 | enters at once iff the lock is free, else queues last in the list of its class |
| SendLocks.PrioritySendLock.Release | agent/send_priority.py:82-92 | hands the lock over, or opens it when nobody waits |
| SendLocks.PrioritySendLock.Resume | agent/send_priority.py:65-66 | the task that was handed the lock runs inside; ownership is unchanged |
| SendLocks.PrioritySendLock.Cancel | agent/send_priority.py:67-71 | a waiting task gives up |
| SendLocks.PrioritySendLock.Unwind | agent/send_priority.py:67-76 | a task cancelled after the hand-over passes the lock on |
| EditModel.NormAppend | agent/core_files.py:120-129 | normalising part by part is normalising the whole, less one character where a CRLF forms at the seam |
| EditModel.CutsIncrease | agent/core_files.py:122-128 | the position map is strictly increasing |
| EditModel.CutNormalises | agent/core_files.py:122-129 | between two positions the original normalises to the characters between them |
| EditModel.CutsOfNorm | agent/core_files.py:122-129 | the pieces of the position map are single characters and CRLF pairs and cover the original |
| EditModel.SpliceStep | agent/core_files.py:145-147 | a replacement to the left of finished ones leaves their positions valid |
| EditModel.OutsideIsKept | agent/core_files.py:145-147 | every code point outside the spans is preserved, shifted only by what precedes it |
| EditModel.LfEquivalence | agent/core_files.py:119-148 | normalising the result is substituting in the normalised file if and only if no insertion completes a CRLF with its surroundings |
| EditModel.NoSeams | agent/core_files.py:119-148 | without lone carriage returns none does |
| EditModel.InsertedNormalises | agent/core_files.py:139-140 | the inserted text normalises to the normalised new text |
| MultiEdits.Index | agent/core_files.py:122-129 | the loop computes the normalised text and its position map |
| MultiEdits.Find | agent/core_files.py:132-136 | the first occurrence at or after a position |
| MultiEdits.Locate | agent/core_files.py:130-141 | each old text at its only place, or the first that has none or several |
| MultiEdits.LocatedOnce | agent/core_files.py:130-141 | the places are determined by the texts |
| MultiEdits.Splice | agent/core_files.py:145-147 | right-to-left replacement equals simultaneous substitution |
| MultiEdits.Edit | agent/core_files.py:119-148 | applied exactly when every old text occurs once and no two places overlap |
| MultiEdits.LocatedMeans | agent/core_files.py:130-141 | every old text is read at its place and nowhere else |
| MultiEdits.FailureMeans | agent/core_files.py:132-137 | an edit fails at the first text that is read nowhere (not found) or in two places (ambiguous) |
| MultiEdits.OverlapMeans | agent/core_files.py:142-144 | the refused case: two changes whose places share a character |
| MultiEdits.InsertedEndings | agent/core_files.py:139-140 | the inserted text has CRLF throughout if the file has any, LF throughout if it has none |
| MultiEdits.EditIsLfEdit | agent/core_files.py:119-148 | without lone carriage returns an edit reads, normalised, as the same edit of the normalised file |
| MultiEdits.LoneCrMerges | agent/core_files.py:119-148 | an accepted edit of a file with a lone carriage return that does not |
| PatchModel.RollbackRestores | agent/batch_patch.py:129-151 | without interference a complete rollback leaves every file with the digest and mode it had |
| PatchModel.CompletionApplies | agent/batch_patch.py:118-128 | without interference a completed patch leaves every file as planned, with its mode where one was given |
| PatchModel.OnlyPlannedVersionsGo | agent/batch_patch.py:119-142 | right before every write the file was looked at; unless somebody acts in between only the version before or after the change goes, and a new file never replaces another |
| PatchModel.InterleavedSaveIsLost | agent/filesystem.py:645-672 | a save that falls between the last look and the replacement is overwritten |
| FileEngines.FileEngine.Replace | agent/filesystem.py:626-672 | a file is replaced right after a look that showed the expected digest, a deletion right after the previous look, and a new file is created exclusively; others may act in between; the mode is the one asked for, else that of the file found, else 0644 |
| FileEngines.FileEngine.Mutate | agent/filesystem.py:597-697 | at most one write, of the named version, with the mode asked for or that of the file; none if content and mode are there; success means the new content was read back or was already there |
| Patches.BatchPatch.Preflight | agent/batch_patch.py:51-92 | plans are made from what was seen before any write, no two share a path, they are those of the changes, and together hold at most 2 MiB |
| Patches.PlansMean | agent/batch_patch.py:79-92 | each requested change has its plans: a write its content, a deletion its absence, a move both, the content moved being the one named |
| Patches.BatchPatch.BackUpAll | agent/batch_patch.py:110-117 | the whole batch is backed up before the first write |
| Patches.BatchPatch.ApplyAll | agent/batch_patch.py:118-128 | in order; success means the last look at every file confirmed its planned content |
| Patches.BatchPatch.Undo | agent/batch_patch.py:131-145 | success means the last look confirms the content and mode before; a version of somebody else fails it and is not touched; a file already as before is left alone |
| Patches.BatchPatch.Rollback | agent/batch_patch.py:129-150 | last first; every file not reported was confirmed as before since the rollback began, and none of which somebody else's version was seen goes unreported |
| Patches.BatchPatch.ApplyPatch | agent/batch_patch.py:51-164 | rolled back means every attempted file was confirmed as before after the failure; a version of somebody else seen then forces a partial outcome naming the file; every write follows a look that showed a planned version, later paths were never touched, and a failed preflight wrote nothing |
| Patches.MutationIsPlanned | agent/batch_patch.py:119-142 | a mutation on behalf of a plan writes only what the plan allows |
| Patches.BackedMore | agent/batch_patch.py:110-125 | backups precede every write |
| FlowModel.StepSound | agent/native_sync_flow.py:134-243 | every step keeps the queue ordered, the window bounded and the delays grown |
| FlowModel.WindowBound | agent/native_sync_flow.py:148-150 | a sender that asks first has at most two chunk packets in flight; order is kept and every packet leaves at most once |
| FlowModel.NothingOverdue | agent/native_sync_flow.py:142-150 | after a window check nothing in flight is overdue, although only the front was examined |
| FlowModel.DelayGrows | agent/native_sync_flow.py:227-231 | after `k` outcomes without progress the delay is at least `min(300, 2^(k-1))` seconds |
| FlowModel.MissedBacked | agent/native_sync_flow.py:227-231 | one more such outcome keeps that |
| FlowModel.AckOutcome | agent/native_sync_flow.py:193-225 | an acknowledgement pauses, forgets or delays a session, by rejection, progress or the lack of it |
| FlowModel.CreditedCounts | agent/native_sync_flow.py:218-225 | an acknowledgement of any number of packets: a session has missed once for each packet since the last whose offset was reached |
| FlowModel.PauseMeans | agent/native_sync_flow.py:206-243 | a refusal pauses a session for 120 s, doubled by each further one up to an hour; an accepted offset lifts the pause; other pauses stay |
| FlowModel.MissedMeans | agent/native_sync_flow.py:227-231 | the first delay is 1 s, 30 s for a full cache and 2 s for other given reasons; each further one doubles it, up to 300 s |
| FlowModel.AckTakes | agent/native_sync_flow.py:200-209 | the named packets leave and no others, or the oldest when none are named |
| FlowModel.ExpiredMeans | agent/native_sync_flow.py:142-146 | exactly the packets sent more than 20 s ago expire, and only their sessions miss |
| FlowModel.LoadedMeans | agent/native_sync_flow.py:148-150 | the window counts the packets that carry chunks |
| SyncFlows.SyncFlow.Expire | agent/native_sync_flow.py:142-146 | front-only expiry reaches the state of the model |
| SyncFlows.SyncFlow.WindowOpen | agent/native_sync_flow.py:148-150 | open iff fewer than two chunk packets are in flight |
| SyncFlows.SyncFlow.Sent | agent/native_sync_flow.py:182-191 | a packet joins the queue, which is capped at 256 by dropping the oldest |
| SyncFlows.SyncFlow.OnAck | agent/native_sync_flow.py:193-225 | the acknowledged packets leave and their sessions are judged |
| SyncFlows.SyncFlow.Skip | agent/native_sync_flow.py:152-156 | paused and still waiting sessions are skipped; a wait is forgotten 300 s after it ended |
| SyncFlows.OneCredited | agent/native_sync_flow.py:218-225 | judging a packet session by session, in any order |
| BrokerModel.StepSound | agent/background_browser.py:47-102 | every interleaving of calls, polls, replies, timeouts and close keeps the history honest |
| BrokerModel.AtMostOnce | agent/background_browser.py:75-102 | a request is delivered at most once and settled at most once, only after delivery |
| BrokerModel.ReportsAreTrue | agent/background_browser.py:58-61 | a call reported as timed out was not and will never be delivered; an uncertain one was |
| BrokerModel.ToldForEver | agent/background_browser.py:47-64 | what a caller was told is never changed |
| BrokerModel.AnswersAreReplies | agent/background_browser.py:56-102 | a caller is told of a success only if the browser's accepted reply was good, of a failure only if it was bad |
| Leases.ActedOnce | agent/background_browser.py:176-183 | an observation drives at most one action, with crashes between consuming it and sending |
| Leases.ActedOn | agent/background_browser.py:176-183 | an observation can be acted on, and not again after a crash or once it was sent |
| BrowserBrokers.BrowserBroker.Call | agent/background_browser.py:47-55 | queued exactly if the broker is open and connected and fewer than 32 calls wait and are queued; refused without effect otherwise |
| BrowserBrokers.BrowserBroker.Expire | agent/background_browser.py:58-64 | the report depends on whether a poll took the request, which then can no longer happen |
| BrowserBrokers.BrowserBroker.Return | agent/background_browser.py:56-64 | the caller is told what the settled reply was |
| BrowserBrokers.BrowserBroker.Drop | agent/background_browser.py:62-64 | a caller that gives up leaves nothing waiting |
| BrowserBrokers.BrowserBroker.Poll | agent/background_browser.py:75-85 | the oldest request that is still waited for is handed over |
| BrowserBrokers.BrowserBroker.Reply | agent/background_browser.py:87-102 | accepted iff valid, handed over, still waited for and unanswered, and then recorded as good or bad |
| BrowserBrokers.BrowserBroker.Close | agent/background_browser.py:219-223 | waiting calls end, answered ones with their answer, and nothing is handed over later |

## Left out

- Diagnostics: `blockers`, `live_writers`, `concurrency_for`, wait callbacks, reported reasons, snapshots and the wake-up timer; a timer or notification is the step `Wake`.
- Claims are inputs: `claims_for`, path canonicalisation, Git pointers and the file-name syntax of requests belong to the host. Windows drives and `PurePosixPath` corner cases are reduced to an anchor and components.
- A scheduler without a resource queue, and wildcard project entries.
- Measured ratios are real numbers; rounding of floating point near a threshold is not modelled.
- Resource and project limits are assumed validated as the settings module does (minimum ≤ initial ≤ maximum, positive limits).
- Tickets are compared by value; the program compares identity, which differs only for tickets a caller forges.
- Uploads.IncomingUploads.Finish: reads the clock once, and treats the renewed permission checks as choices that may fail at any time.
- Uploads: identifier, path and digest syntax, directory pinning, link checks and file permissions; a spool file of another identity is one with another inode number. Creating or removing a directory entry is taken to survive a crash.
- Uploads: the wall clock does not run back in the model; the program trusts it in the same way.
- SyncFlows.SyncFlow.Sent: takes the end offset of each chunk as given, and the sender's discipline (one packet with chunks after each open window) as its precondition.
- Uploads: other programs change project files only between requests, which the mutation lock orders; the model of runs lets them act at any time.
- Journals.Journal.Prune: does not model checkpoints (a second directory without rows), execution stages, cancellations and the order among equal timestamps; other calls interleave in `JournalRuns`, not inside the method.
- Writers and readers of backups are taken to run inside running calls with fresh ids and to stop before their call finishes, as the engine arranges.
- Journal: output buffers, metadata and history listings; `Outbox` takes the 32 oldest undelivered results as the query returns them.
- FileEngines.FileEngine.Replace: another program that writes between the last look and the replacement, or between the last look and a deletion, is overwritten, as in the program; partial publications and large or binary files are not modelled.
- Patches: previews, manifests as files, and text validity are reduced to steps that may fail.
- EditModel: texts are sequences of code points; encoding and the byte order mark are the host's.
- SyncFlows: the fingerprint, persistence and eviction of paused sessions, and probes; packets are recorded in the order of their numbers.
- BrowserBrokers: origins, permissions, snapshots and lease persistence other than the consumed observation.
- Chat and model translators, terminals, language servers, containers and installers: dependent on foreign programs, with no law of their own.
