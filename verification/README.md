# Chatto: models and proofs

This project models the parts of Chatto in which order, failure and concurrency matter, and proves what they
promise. It stands alone: `dafny verify dfyconfig.toml` checks everything.

| area | modules |
|---|---|
| The event framework (`pkg/events`): subjects, the stream, the projector, restore, optimistic concurrency, paging, componentized projections | `Subjects`, `EventStream`, `Waiters`, `Projections`, `ProjectorInvariants`, `ProjectorRuns`, `ProjectorTheorems`, `ProjectorExactness`, `ProjectorProgress`, `ProjectorObject`, `Restore`, `Broker`, `Mutations`, `MutationRuns`, `Paging`, `Components` |
| The resumable archive import (`cli/cmd`): identity matching, accounts and rooms, the journal, the history | `Identities`, `MatchUsers`, `Lines`, `Journal`, `ImportServer`, `ImportPlan`, `ImportMeaning`, `ImportBatch`, `ImportHistory`, `Sorting`, `Accounts` |
| The Go SDK (`experimental/chatto-go`): the replica and the resumable observer | `Timelines`, `ClientReplica`, `ClientEffects`, `ReplicaStore`, `Recovery` |
| Printing for Markdown (`tools/slack_apply.py`) | `SlackText` |

How the pieces fit:

- **Projector.** `Projections` says on values what each entry point does to a projector; `ProjectorObject` has the
  fields, batches and waiter list of the real one and proves each method against it. `ProjectorRuns` lets any
  number of publishers, deletions, deliveries, timers, startup checks and waiters interleave and keeps one
  invariant; `ProjectorTheorems`, `ProjectorExactness`, `ProjectorProgress` and `Restore` say what it means.
- **Mutations.** `Broker` decides as the broker does, `Mutations` has the retry loop against a schedule of foreign
  writes, and `MutationRuns` lets whole writes of many writers interleave.
- **Import.** `ImportPlan` is the history as one list of keyed operations, without batches or journal. `ImportHistory`
  has the real visitor with its two queues, batch calls and fallbacks. Its invariant is that the server has run a
  prefix of the plan and the journal has everything that is no longer queued. Every call can be the last one before the
  power goes, before or after it took effect. `ImportMeaning` reads the plan's requests back as what the archive says.
  Before the history, `Accounts` runs matching, preflight and creation again and again over what cut-off attempts
  have left.
- **Client.** `Timelines` and `ClientReplica` say what events do to cached pages and which reads are safe,
  `ClientEffects` what that means for rooms, threads and messages;
  `ReplicaStore` has the store that concurrent page reads and the realtime worker share. Page reads are split
  in request and commit, events in begin and finish, so that any order of the two can be had; the store keeps
  its own history for the proofs.

Where the code does less than its documentation suggests, the code is modelled, and the exact condition is proved:

- `CaptureSnapshot` does not look at a recorded failure. A snapshot taken after a single apply that rejected its
  event is right if that apply left the state alone, and wrong otherwise (`ProjectorExactness.SnapshotIsExactIff`).
- A wait for a record that was deleted before it was delivered succeeds (`ProjectorExactness.MetWaitMissesExactly`).
- A subject boundary can be deceived by deletions (`MutationRuns.CommitsAreSerial`,
  `MutationRuns.DeletionDeceivesSubjectGuard`).
- A page whose first fetch brings nothing in time is empty although more is pending. The loop over pages takes it for
  the end, and its caller gets fewer events and no error. The result falls short if and only if the first fetch of the
  last page was empty with something left behind the cursor; an empty fetch inside a page does no harm
  (`Paging.SubjectEventsWithSubjectsAfter`).
- The journal writes entries that its own reader cannot take in (`Journal.OverlongEntryLocksOut`).
- The shorter guard on a record's own subject is only equivalent for literal subjects (`Broker.RewriteNeedsLiteral`).
- `put` of a value that an earlier replayable write already holds in memory returns without syncing it
  (`Journal.ImportProgress.Put`, `Journal.ReplayableThenPut`).
- A code span of white space other than the space character loses blanks at its ends (`SlackText.CodeSpanReadsBack`).
- A retraction that arrives without a cursor is applied, but does not protect the page reads behind it: they can bring
  the message back (`ReplicaStore.Replica.FinishEvent`, `ReplicaStore.BareRetractionRevives`). With cursors on every
  retraction they never do, and a reset or a snapshot makes the store safe again
  (`ReplicaStore.Replica.NothingRetractedIsShown`).

## Assumptions about the surroundings

- **Broker:** sequences are dense and never reused; the ordered consumer delivers in order and skips no retained
  record; guards are checked when a write commits, for a batch against the state before the batch; an identifier
  inside the de-duplication window is acknowledged without storing, before guards are looked at; a batch with a
  known or repeated identifier is refused; a page sees the stream as it was when its consumer was created.
- **Projections:** a batch apply is atomic and equals the fold of single applies; a component's restore undoes its
  snapshot, whatever state it finds. A refused restore may leave any state behind. A snapshot
  that names this contract, stream and stream identity was captured there.
- **Import:** the server keeps a receipt per operation key, compares the request on a repeated key, runs a batch call
  as one commit, and gives every account and message a nonempty identifier; the archive has passed validation
  (`cli/internal/interchange/validate.go`): identifiers differ and references point back. Between the attempts of an
  import nobody else takes the names or emails it needs; accounts that it creates are found under their emails and are
  new; a `put` of the journal that returned survives (`Journal.ImportProgress.Put`).
- **File system:** synced bytes survive, a crash keeps a prefix of the rest; the line encoding round-trips.
- **Realtime feed:** events arrive in feed order, a message is posted and edited before it is retracted, a cursor covers
  no more than was sent before it, a page read that asked for a position is answered at it or later, a call for one
  message is answered with that message or none, and a heartbeat or boundary stands at what was delivered.

## Model

| member | source | states |
|---|---|---|
| `ProjectorTheorems.ProjectionIsReplay` | pkg/events/projector.go:977-1097 | In every world of every run that has not failed, the projection is the fold of single applies over the committed events, everything else accepted is pending above `lastSeq` in ascending order, every retained matching record up to the delivered position was accepted, and without deletions the accepted events are the plain replay of the stream |
| `ProjectorTheorems.StartupIsComplete` | pkg/events/projector.go:1143-1185 | At most one startup hook in a run, none after a failure, a failed projection is frozen, and when the hook has run every still retained record up to the captured target is in the projection |
| `ProjectorTheorems.LostTargetEndsStartup` | pkg/events/projector.go:842-890 | Two startup checks without progress read the stream, and if nothing newer is left they end startup, so a deleted target cannot hold it up |
| `ProjectorTheorems.LostTargetRunsHook` | pkg/events/projector.go:866-889 | Ended that way, startup either failed or ran its hook with nothing pending |
| `ProjectorTheorems.NothingLostBeforeFailure` | pkg/events/projector.go:680-695 | Every retained matching record below a recorded failure sequence is in the projection |
| `ProjectorTheorems.WaitSuccessMeansApplied` | pkg/events/projector.go:521-560 | A wait for a matching record that succeeds, at once or after its release, means the record is in the projection unless it was deleted |
| `ProjectorExactness.MetWaitMissesExactly` | pkg/events/projector.go:521-560 | In every reachable world, and for every way of batching: a wait that is met for a consumed record finds it in the projection if and only if the restored state covers it or it was delivered, and misses it if and only if it was deleted and never delivered |
| `ProjectorExactness.DeletedRecordPassesWait` | pkg/events/projector.go:660-678 | A run in which that happens |
| `ProjectorTheorems.ReleasedOnce` | pkg/events/projector.go:521-560 | Over any run released waiters stay released in their order, nobody is listed twice, the blocked ones are sorted and above the frontier |
| `ProjectorTheorems.RunRosterStep` | pkg/events/projector.go:521-560 | In one step a blocked waiter stays blocked, is released, or is the one that cancelled |
| `ProjectorExactness.SnapshotIsExactIff` | pkg/events/projection_snapshot.go:296-347 | In every reachable world, failed or not, and for every way of batching: the captured state is the fold at its cutoff if and only if the failure did not come from a single apply that rejected its event and changed the state all the same |
| `ProjectorExactness.SnapshotExactAfterFailure` | pkg/events/projection_snapshot.go:296-347 | So a projection whose rejections leave the state alone always has exact snapshots |
| `ProjectorExactness.DirtyRejectionSpoilsSnapshot` | pkg/events/projection_snapshot.go:296-347 | A run whose snapshot is wrong, because capturing does not look at the failure |
| `ProjectorTheorems.FrozenAfterFailure` | pkg/events/projector.go:680-695 | After a failure nothing but the waiters changes again |
| `ProjectorTheorems.LogIsReplay` | pkg/events/projector.go:930-975 | Without deletions the accepted events up to a sequence are exactly the records that the replay subjects select, decode and consume |
| `ProjectorRuns.RunKeeps` | pkg/events/projector.go:930-1097 | The invariant holds after every sequence of publish, delete, deliver, tick, reconcile, wait, cancel and break-down steps |
| `ProjectorRuns.StepKeeps` | pkg/events/projector.go:720-834 | Each single step keeps it |
| `ProjectorRuns.DeliverKeeps` | pkg/events/projector.go:930-975 | Delivering any retained or just deleted record keeps it: no gap before a failure, none skipped, order of the pending events, startup coverage |
| `ProjectorRuns.EventEndsStartup` | pkg/events/projector.go:977-1032 | When a delivered event ends startup, everything retained up to the captured target has been applied |
| `ProjectorRuns.LostTarget` | pkg/events/projector.go:842-890 | When reconciliation ends startup, everything retained up to the captured target has been applied, whatever was published or deleted while it read the stream |
| `EventStream.TargetForSubjects` | pkg/events/projector.go:619-645 | The per-filter lookups, made while the stream moves, bound the newest match between the stream as first and as last seen |
| `ProjectorInvariants.CommitEffect` | pkg/events/projector.go:1037-1097 | Flushing a batch either commits all pending events or fails at the first of them |
| `ProjectorProgress.TimerCatchesUp` | pkg/events/projector.go:822-826 | In every run, when the live timer fires after startup, either the projector fails or everything accepted is applied, every retained record up to the delivered position is in the projection, and nobody is blocked who waits for one of them |
| `ProjectorProgress.DeliveryProgress` | pkg/events/projector.go:930-1032 | A consumed record that is delivered is accepted, unless the projector fails; it ends startup if it is at the target or behind it; it stays pending only in a batch that is not full, and otherwise the frontier is at it |
| `ProjectorProgress.StartupEndsAtTarget` | pkg/events/projector.go:1121-1185 | A check or a timer that finds the target reached ends startup and runs the hook |
| `ProjectorProgress.FailureHasCause` | pkg/events/projector.go:930-1097 | A projector fails only when its run breaks down, a record cannot be decoded, or the fold of what it accepted is rejected; the first two always fail it; and a failure leaves nobody blocked |
| `ProjectorProgress.NeverFailsWithoutCause` | pkg/events/projector.go:930-1097 | So a run without break-down whose records decode and whose events apply never fails |
| `ProjectorProgress.WaitIsDecided` | pkg/events/projector.go:521-560 | In every reachable world a wait fails exactly at or behind the failure, succeeds for everything in the projection below it, and otherwise blocks in the list of waiters; after a failure only a wait for a sequence at which nothing is retained can block |
| `ProjectorProgress.CancelledIsGone` | pkg/events/projector.go:545-560 | In every run a caller that cancels is not among the blocked ones behind it |
| `ProjectorObject.Projector.HandleMessage` | pkg/events/projector.go:930-975 | The object's new state is the specification's answer to the message, and its fields agree with it |
| `ProjectorObject.Projector.ApplyEvent` | pkg/events/projector.go:977-1032 | The branches of applyEvent, including which failure sequence is reported, give the specified outcome |
| `ProjectorObject.Projector.FlushStartupBatch` | pkg/events/projector.go:1037-1051 | All pending events are committed, or nothing changes and the first pending sequence is the failure |
| `ProjectorObject.Projector.FlushLiveBatch` | pkg/events/projector.go:1081-1097 | The live batch is committed or the failure is recorded at once, and nothing happens after a failure |
| `ProjectorObject.Projector.FailPendingBatch` | pkg/events/projector.go:1068-1077 | An undecodable record fails at the first pending event, or at itself when none is pending |
| `ProjectorObject.Projector.Advance` | pkg/events/projector.go:660-678 | The frontier never moves back and exactly the waiters it reaches are popped |
| `ProjectorObject.Projector.Fail` | pkg/events/projector.go:680-695 | The first failure is kept, everybody is released, startup ends without its hook |
| `ProjectorObject.Projector.CompleteStartupLocked` | pkg/events/projector.go:1147-1185 | Startup is completed exactly when target and failure allow it, and completion is reported exactly when the hook ran |
| `ProjectorObject.Projector.ReconcileStartup` | pkg/events/projector.go:842-890 | The object's second half of a startup check is the specified one |
| `ProjectorObject.Projector.LiveTick` | pkg/events/projector.go:822-826 | The timer flushes the live batch, and completion is checked behind it: on a projector that runs, either it fails or the batch is empty, the frontier is at the last accepted event, and no event is lost |
| `ProjectorObject.Projector.WaitForSeq` | pkg/events/projector.go:521-560 | A waiter is refused, let through or inserted in sorted order |
| `ProjectorObject.Projector.CancelWait` | pkg/events/projector.go:545-560 | Only the caller's own waiter is removed |
| `ProjectorObject.Projector.CaptureSnapshot` | pkg/events/projection_snapshot.go:296-347 | The captured state is the fold up to its cutoff, and of the accepted events exactly the committed ones are at or below the cutoff |
| `Restore.RestoredRun.RestoreSnapshotForRun` | pkg/events/projection_snapshot.go:410-504 | A snapshot is installed exactly when it is bound to this stream, not newer than the target and accepted; every other branch resets what the projection then holds, a refused snapshot's remains included, or ends the run, and which is which is stated |
| `Restore.RestoredRun.RestoreCheckpointForRun` | pkg/events/projection_checkpoint.go:81-142 | The run goes on exactly if the stream is known, the checkpoint could be read, and it fits or was reset; a fitting one is not newer than the tail and leaves no gap to the retained start |
| `Restore.RestoredRun.ResetForColdReplay` | pkg/events/projection_snapshot.go:394-402 | No trace of a restore is left and the state is the reset one; a refused reset changes nothing but the state it leaves |
| `Restore.RestoreForRun` | pkg/events/projection_snapshot.go:382-390 | Whether a run starts is decided by the stream's identity, by what was loaded and accepted, and by the reset, exactly as stated; it then starts behind the accepted cutoff or at the beginning, and from what a cold replay computes for that sequence |
| `Restore.RestoreThenReplay` | pkg/events/projection_snapshot.go:382-504 | Replaying the rest from an honest state gives what a cold replay gives, including whether it is rejected |
| `Restore.SnapshotsStayHonest` | pkg/events/projection_snapshot.go:296-347 | A snapshot captured in any reachable unfailed world is what a cold replay computes for its cutoff, if the run began honestly |
| `Restore.RunsAgree` | pkg/events/projection_snapshot.go:382-504 | Two runs over one undeleted stream at the same frontier hold the same state, whatever each restored, and whatever batch sizes and batch applies each has |
| `Mutations.ExecuteMutation` | pkg/events/mutation.go:106-163 | At most five attempts; success has one conflict fewer than attempts; every conflict is paid for by a foreign record under the boundary in that attempt; a commit was decided against the tail the boundary still had. The last attempt is the first that is not lost, unless the caller is gone or it is the fifth, and how it goes decides result, error and store |
| `Mutations.UndisturbedCommits` | pkg/events/mutation.go:120-161 | If the decisions can be stored and only the first attempts are disturbed, the first undisturbed one, up to the fifth, commits, as long as the caller waits |
| `Mutations.PublishMutation` | pkg/events/mutation.go:165-190 | One record or several: stored exactly when record checks, fresh identifiers and the boundary's tail allow it, adjacently at the tail, and not at all otherwise |
| `Mutations.SingleCommits` | pkg/events/encoded_event_log.go:181-195 | What the broker makes of a guarded single record: a duplicate is acknowledged without storing, otherwise it is stored or conflicts with the boundary |
| `Mutations.BatchCommits` | pkg/events/encoded_event_log.go:204-248 | Sending only the first record's guard makes the broker's decision about the batch the decision about the boundary |
| `Mutations.GuardIsTail` | pkg/events/mutation.go:194-202 | The guard of a boundary passes if and only if its tail has not moved |
| `Mutations.AppendMovesTail` | pkg/events/mutation.go:204-215 | Appending moves a boundary's tail if and only if it appends something the boundary covers |
| `MutationRuns.CommitsAreSerial` | pkg/events/mutation.go:106-163 | Over every interleaving of writers, publishers and deletions: nothing under the boundary lies between a commit's tail and itself, and its records are what its decision gives for the history right before it; this fails exactly for a commit on a subject boundary behind whose tail a matching record had been deleted, and such a record is named |
| `MutationRuns.SubjectGuardExactly` | pkg/events/mutation.go:35-62 | With deletions a subject guard passes if and only if everything matching behind the tail was deleted |
| `MutationRuns.GuardMeansQuiet` | pkg/events/mutation.go:35-62 | A passed guard leaves something under the boundary behind the tail if and only if a deleted record lies there, which no boundary but a subject allows |
| `MutationRuns.DeletionDeceivesSubjectGuard` | pkg/events/mutation.go:35-62 | A run in which a writer commits behind a record it never saw, because that record was deleted before its guard was checked |
| `MutationRuns.StoredOnce` | pkg/events/encoded_event_log.go:181-195 | While an identifier is in the de-duplication window it is stored once, and at most one caller reports having committed it |
| `MutationRuns.RepeatsAreNamed` | pkg/events/encoded_event_log.go:181-195 | Over every interleaving, the sequence that a repeated identifier is answered with is that of a stored record with this identifier |
| `Broker.EventLog.AppendBatch` | pkg/events/encoded_event_log.go:204-248 | A refused batch is never sent; an accepted one is stored whole, and the sequences counted back from the commit are where its records are |
| `Broker.EventLog.AppendAt` | pkg/events/encoded_event_log.go:168-177 | A write without a usable guard is refused; otherwise the broker decides on the guard as given |
| `Broker.ForSubjectDecidesTheSame` | pkg/events/expectation.go:70-79 | Rewriting a filter guard on a record's own literal subject never changes the broker's decision |
| `Broker.RewriteNeedsLiteral` | pkg/events/expectation.go:70-79 | For every subject that is not literal there is a stream on which the rewriting does change it |
| `Subjects.ScanMatches` | pkg/events/subject_filter.go:54-87 | The in-place scan decides exactly the token definition of matching |
| `Subjects.SplitTokens` | pkg/events/subject_filter.go:34-48 | Splitting loses nothing and no token holds a dot |
| `Subjects.ScanMatchesAny` | pkg/events/subject_filter.go:89-96 | Some filter matches |
| `Subjects.JoinUndoesSplit` | pkg/events/subject_filter.go:34-48 | Joining the tokens gives the subject back |
| `Subjects.SplitUndoesJoin` | pkg/events/subject_filter.go:34-48 | Splitting gives the tokens back, except for the one empty token |
| `Subjects.LiteralIsExact` | pkg/events/subject_filter.go:54-87 | A nonempty filter matches itself and nothing else if and only if its tokens are nonempty and no wildcards |
| `Paging.SubjectRecordsAfterPage` | pkg/events/encoded_event_log.go:397-468 | A page is a prefix of the plain filter within both limits, `More` is exact, only a first record larger than the limit fails it, and it ends early only when a fetch brings nothing in time |
| `Paging.AppendPageRecords` | pkg/events/encoded_event_log.go:477-513 | Fetched records are taken until the next payload does not fit, and only an oversized first one is an error |
| `Paging.FetchSize` | pkg/events/encoded_event_log.go:435-453 | The next fetch asks for at least one record, never more than is left, and never more than the byte-bounded maximum |
| `Paging.SubjectEventsWithSubjectsAfter` | pkg/events/typed_event_log.go:144-177 | However many pages it takes while the stream grows, the result decodes a prefix of the filter's records in order, without gap or repetition; it is all of them if and only if the first fetch of the last page brought something or nothing was left behind the cursor, and falling short is no error; each error has its cause |
| `Paging.CollectMembers` | pkg/events/encoded_event_log.go:397-468 | The filter holds exactly the retained matching records of the range |
| `Paging.CollectAscends` | pkg/events/encoded_event_log.go:397-468 | In ascending order |
| `Paging.NextPage` | pkg/events/typed_event_log.go:156-175 | Moving the cursor behind a page while the stream grows keeps what is read plus what is left |
| `Components.Componentized.Apply` | pkg/events/component_projection.go:163-182 | All models that see the event step, or none does |
| `Components.Componentized.PrepareComponents` | pkg/events/component_projection.go:163-182 | Nothing changes; it fails exactly when some model that sees the event refuses, and otherwise holds each pending change once, in order |
| `Components.Componentized.RestoreComponents` | pkg/events/component_projection.go:234-279 | Accepted exactly when every model finds its own contract and payload and takes it; then every model is restored, otherwise every model is what it was, whatever the refused restore left in its model |
| `Components.Componentized.RollBack` | pkg/events/component_projection.go:262-277 | Restoring the saved payloads up to and with the refusing model, whatever it holds, brings every prior state back |
| `Components.Componentized.ResetComponents` | pkg/events/component_projection.go:283-292 | All models reset, or none, whatever a refused reset left in its model |
| `Components.Componentized.SnapshotComponents` | pkg/events/component_projection.go:216-230 | One payload per model, in order, exactly when every model can be saved |
| `Components.StatePartPayloadInverts` | pkg/events/projection_snapshot.go:229-240 | A component hands back a payload if and only if what is stored is exactly that payload saved by the same component |
| `Components.EachAsIfAlone` | pkg/events/component_projection.go:163-182 | After any run each model is where it would be alone on its own subjects |
| `Components.SetStopsWhenOneStops` | pkg/events/component_projection.go:163-182 | The set refuses a delivery if and only if some model alone would |
| `Components.OrderDoesNotMatter` | pkg/events/component_projection.go:234-279 | Acceptance and result of a restore do not depend on the order of the stored components |
| `Components.SnapshotRestoresAnywhere` | pkg/events/component_projection.go:216-279 | A snapshot of the set is accepted in any state of the same set and installs exactly what it was taken of |
| `MatchUsers.Matcher.MatchUsers` | cli/cmd/operator_import_users.go:82-173 | Success if and only if nothing speaks against it, and then every user's leader is the smallest index of its component, the account is the only one claimed there, and the emails are the sorted union; every error names a real cause |
| `MatchUsers.Matcher.FindRoot` | cli/cmd/operator_import_users.go:88-94 | Path compression returns the root and changes no root |
| `MatchUsers.Matcher.Join` | cli/cmd/operator_import_users.go:95-101 | Joining two connected users keeps trees inside components and the smaller root on top |
| `MatchUsers.Matcher.ReadUsers` | cli/cmd/operator_import_users.go:102-141 | The first loop files every email and account under one tree per key and finds every user's owner |
| `MatchUsers.Matcher.GatherAll` | cli/cmd/operator_import_users.go:142-162 | The second loop collects one account and all emails per leader, or reports the two accounts or kinds that clash |
| `MatchUsers.MatchesShared` | cli/cmd/operator_import_users.go:82-173 | Two users share a leader if and only if they are connected, and then account and emails |
| `Accounts.ImportAccounts` | cli/cmd/operator_import_runner.go:88-181 | However often the import is cut off and wherever: each room is created once and one account for each person that had none, nothing else and nothing twice; source users share an account if and only if they are connected; every email leads to its holder's account; an archive that does not fit is refused before anything is created, and no other is |
| `Accounts.AccountImport.Attempt` | cli/cmd/operator_import_runner.go:88-181 | An attempt that is not cut off gets through if and only if the archive fits the server as the first attempt found it, whatever earlier attempts have left; then every record has its account or room, and nothing that was there has changed |
| `Accounts.AccountImport.MatchAgain` | cli/cmd/operator_import_users.go:82-173 | Matching again, with the accounts and journal entries of earlier attempts in place, finds no fault, the same leaders and emails, and no account but the person's own |
| `Accounts.AccountImport.CheckUsers` | cli/cmd/operator_import_runner.go:184-227 | Preflight refuses an archive only if it does not fit, so never because of a name that the import took itself; what passes is free or announced, and no two new names are the same |
| `Accounts.AccountImport.CheckRooms` | cli/cmd/operator_import_runner.go:228-245 | The same for rooms |
| `Accounts.AccountImport.AccountOf` | cli/cmd/operator_import_runner.go:105-146 | A user's account is recorded, shared with its leader, found or created, and in each case it is the person's; nothing is created that the journal does not announce |
| `Accounts.AccountImport.AssignUser` | cli/cmd/operator_import_runner.go:105-154 | Besides, a leader's emails all lead to its account |
| `Accounts.AccountImport.Create` | cli/cmd/operator_import_runner.go:123-144 | What an attempt asks the server for is never refused, because of its name, its email or other arguments under the same key, and the answer is the one account or room of that record |
| `Accounts.AccountImport.Serve` | cli/internal/core/operator_operations.go:74-184 | A known operation key gives the earlier result for the same arguments and an error for others; a name or email in use is refused; otherwise exactly one thing is created |
| `Accounts.PersonSeparates` | cli/cmd/operator_import_users.go:82-173 | Two source users end up with one account if and only if they are connected |
| `Accounts.ConnectedNow` | cli/cmd/operator_import_users.go:82-173 | Accounts, emails and journal entries of earlier attempts connect no users that were not connected, and separate none |
| `Accounts.NothingWrongNow` | cli/cmd/operator_import_users.go:82-173 | None of the errors of matching can come from what earlier attempts have left |
| `Accounts.TakenByItself` | cli/cmd/operator_import_runner.go:213-226 | In an archive that fits, a wanted name that is taken was taken by the record itself |
| `Accounts.ChecksAreFit` | cli/cmd/operator_import_runner.go:184-245 | What passes the checks of a first attempt fits |
| `Identities.CompressionKeepsRoots` | cli/cmd/operator_import_users.go:88-94 | Pointing a node at its root changes no root |
| `Identities.HangingIsSound` | cli/cmd/operator_import_users.go:95-101 | Hanging the larger root under the smaller merges two trees of one component and nothing else |
| `Identities.RootsLead` | cli/cmd/operator_import_users.go:82-173 | When trees are sound and complete, roots are the smallest indices of components and decide connectedness |
| `Journal.ImportProgress.Write` | cli/cmd/operator_import_progress.go:131-147 | Memory, file, durability and counter after a write that works, is torn or fails to sync, of any length; the file stays readable exactly when the line fits the reader's buffer |
| `Journal.ImportProgress.Put` | cli/cmd/operator_import_progress.go:119-121 | After a successful put the value survives every crash if and only if it was new or survived already; a new one makes everything before it durable |
| `Journal.ImportProgress.PutReplayable` | cli/cmd/operator_import_progress.go:127-129 | Fewer than 128 entries are ever at risk and other keys keep their guarantees |
| `Journal.ReplayableThenPut` | cli/cmd/operator_import_progress.go:131-147 | A value written replayably is not made durable by putting it again |
| `Journal.CrashKeepsAPrefix` | cli/cmd/operator_import_progress.go:67-117 | Truncation at or behind the durable bytes, also inside a line, leaves a prefix of whole lines that holds every synced entry and misses fewer than 128; it can be read exactly when it fits the reader's buffer |
| `Journal.Restart` | cli/cmd/operator_import_progress.go:33-117 | Reopening after any such crash succeeds if and only if what is left fits the reader's buffer, and then gives the last-wins map of that prefix, fully durable, with the same namespace |
| `Journal.OverlongEntryLocksOut` | cli/cmd/operator_import_progress.go:67-90 | One durable entry longer than the buffer, and the journal never opens again |
| `Journal.ImportProgress.Open` | cli/cmd/operator_import_progress.go:33-117 | Opening succeeds exactly for a readable file of this binding with a valid namespace, cuts a torn tail and syncs |
| `Journal.ImportProgress.Read` | cli/cmd/operator_import_progress.go:67-90 | The reading loop takes in all whole lines and fails exactly when a line cannot be decoded or is too long |
| `Lines.Load` | cli/cmd/operator_import_progress.go:67-90 | The loop ends with the map of all whole lines and the offset behind the last |
| `Lines.SplitIsUnique` | cli/cmd/operator_import_progress.go:67-90 | Bytes split into whole lines and a tail in one way only |
| `Lines.CutSplits` | cli/cmd/operator_import_progress.go:67-90 | Cutting a file of whole lines anywhere leaves whole lines and the beginning of one |
| `Lines.PrefixOnlyLoses` | cli/cmd/operator_import_progress.go:67-117 | What a crash leaves of a journal in which no key was written with two values is that journal with entries lost and none changed, which is all that the history import relies on |
| `ImportHistory.ImportThroughOutages` | cli/cmd/operator_import_history.go:50-369 | For any number of attempts cut off anywhere, any loss from the journal, and servers with or without batch calls: the attempt that gets through leaves the server as one undisturbed replay of the history does |
| `ImportMeaning.MembersAsSaid` | cli/cmd/operator_import_history.go:155-172 | For every history, account and room: the last request about the membership says "member" if and only if the last event of the archive that speaks about it does, which is what the importer tracks |
| `ImportMeaning.ReactionsAsSaid` | cli/cmd/operator_import_history.go:173-195 | The same for every reaction of an account on a message |
| `ImportMeaning.EventRequests` | cli/cmd/operator_import_history.go:196-300 | What each kind of event asks for, field by field: room, actor, time, target, content, and whether something is added or taken away; snapshots ask for the difference to what is tracked |
| `ImportMeaning.WireIsPlanned` | cli/cmd/operator_import_messages.go:20-120 | On the wire each request is the planned one, with every archived message replaced by the identifier that the server gave to its post |
| `ImportHistory.Attempt` | cli/cmd/operator_import_history.go:50-369 | After one attempt, however it ends, the server has run a prefix of the plan and the journal records nothing else |
| `ImportHistory.Importer.History` | cli/cmd/operator_import_history.go:50-369 | Unless the power goes, the whole plan has run, each of its operations once, and the journal has an entry for every one |
| `ImportHistory.Importer.Visit` | cli/cmd/operator_import_history.go:105-347 | After event n the queues and indexes are those of the plan behind event n; message batch and reaction queue never both hold something |
| `ImportHistory.Importer.Flush` | cli/cmd/operator_import_history.go:58-91 | Pending reactions go out as one call or one by one; afterwards all of them have run and are journalled, and none is pending |
| `ImportHistory.Importer.FlushMessages` | cli/cmd/operator_import_history.go:95-104 | The queued messages have all run, are known and journalled, and the queue is empty |
| `ImportHistory.Importer.VisitQueued` | cli/cmd/operator_import_history.go:115-141 | A queued message stands where the plan has it; the batch stays in one room and within 32 messages and 128 reactions |
| `ImportHistory.Importer.React` | cli/cmd/operator_import_history.go:172-193 | One change: skipped if journalled, queued otherwise, a full queue is flushed, the index follows |
| `ImportHistory.Importer.Reconcile` | cli/cmd/operator_import_history.go:249-275 | After a snapshot exactly the snapshot's reactions are tracked, and the operations are the plan's |
| `ImportHistory.Importer.ReconcileMembers` | cli/cmd/operator_import_history.go:310-328 | After a membership snapshot exactly its members are tracked |
| `ImportHistory.Importer.VisitContent` | cli/cmd/operator_import_history.go:195-275 | Posts and edits that go out alone are sent as planned behind everything queued |
| `ImportHistory.Importer.Change` | cli/cmd/operator_import_history.go:37-46 | A journalled change is skipped, any other is sent once and recorded |
| `ImportHistory.Importer.ImportMessageBatch` | cli/cmd/operator_import_messages.go:15-131 | Batch call or fallback: references always resolve, limits hold, and afterwards the batch's part of the plan has run |
| `ImportHistory.Importer.SendItems` | cli/cmd/operator_import_messages.go:100-131 | The individual fallback runs the same operations as the batch, with references taken from earlier answers |
| `ImportHistory.Importer.ServeItem` | cli/cmd/operator_import_messages.go:71-99 | The server settles references by operation key from receipts to the identifiers the plan has |
| `ImportBatch.BuildItem` | cli/cmd/operator_import_messages.go:20-66 | It fails exactly when a reference is neither known nor earlier in the batch |
| `ImportBatch.BuildItems` | cli/cmd/operator_import_messages.go:15-70 | The whole request exactly when all references resolve |
| `ImportBatch.ItemAsPlanned` | cli/cmd/operator_import_messages.go:35-60 | Completed with earlier answers an item is the plan's operation on the wire |
| `ImportBatch.AnswersFit` | cli/cmd/operator_import_messages.go:100-119 | Answers to earlier keys are what the plan knows at that point |
| `ImportBatch.BatchWithinLimits` | cli/cmd/operator_import_history.go:115-141 | What is sent keeps the server's limits, although the importer counts reactors before accounts are merged |
| `ImportServer.SendingAgain` | cli/cmd/operator_import_progress.go:149-151 | Sending an operation again changes nothing and returns the first answer |
| `ImportServer.ReceiptAfter` | cli/cmd/operator_import_progress.go:149-151 | The server holds a receipt for exactly the operations that have run, with their requests and answers |
| `ImportPlan.PlanKeys` | cli/cmd/operator_import_progress.go:149-151 | No two operations of a whole history share a key |
| `ImportPlan.KnownIsIntroduced` | cli/cmd/operator_import_history.go:195-240 | The plan knows a message exactly from its first event on |
| `ImportPlan.SnapshotOpsDistinct` | cli/cmd/operator_import_history.go:249-275 | Removals and additions of one snapshot have distinct keys: no reaction is both |
| `ImportPlan.SortedByEmojiThenUser` | cli/cmd/operator_import_history.go:257-272 | The reactions of one reconciliation go out by emoji, and for one emoji by user |
| `ImportPlan.FinalPairsBound` | cli/cmd/operator_import_history.go:111-115 | Counting reactors never counts too few |
| `Timelines.MergeTimeline` | experimental/chatto-go/server.go:354-386 | The result holds exactly the undeleted messages of both pages, the fetched version winning, sorted by time, oldest first, and by identifier, without repetition; cursors come from the documented side |
| `Timelines.SortMessages` | experimental/chatto-go/server.go:362-376 | The undeleted messages, strictly ascending |
| `Timelines.RemoveMessage` | experimental/chatto-go/server_realtime.go:496-513 | The message leaves every timeline of its room, all else stays in place |
| `Timelines.MergeMessage` | experimental/chatto-go/server_realtime.go:541-557 | The reply is merged into exactly the timelines it belongs to; a window with newer history takes it only if it held the message |
| `Timelines.ReplaceInRoom` | experimental/chatto-go/server_realtime.go:595-622 | Requested messages are replaced in place or dropped, and none is added |
| `Timelines.ProjectedIsSound` | experimental/chatto-go/timeline.go:212-241 | Tombstones do not get into a page, so that an honest answer makes a page that may be shown |
| `Timelines.MergeIsSound` | experimental/chatto-go/server.go:354-386 | Merging sound pages gives a sound page |
| `ClientReplica.RefreshMetadata` | experimental/chatto-go/server_realtime.go:563-625 | In calls of at most 100, every loaded message the event concerns ends up as the server answered, nothing else changes |
| `ClientReplica.RefreshMessage` | experimental/chatto-go/server_realtime.go:514-558 | The timelines hold the server's version where it belongs, an edited message having left first |
| `ClientReplica.ApplyTo` | experimental/chatto-go/server_realtime.go:309-445 | Each event, with or without cursor, has its effect on the timelines, and they are coherent at the event even if a call failed half way, however old the answers are |
| `ClientReplica.RetractedIsGone` | experimental/chatto-go/server_realtime.go:424-428 | A completely applied retraction leaves no trace of the message in any timeline of the room |
| `ClientReplica.EditedIsReplaced` | experimental/chatto-go/server_realtime.go:514-558 | After a completely applied edit the message is shown only as the server just answered |
| `ClientEffects.FetchedWhereItBelongs` | experimental/chatto-go/server_realtime.go:541-557 | A message that was read is in every timeline that it belongs to and that is open to it, in the version read, and changes no other: the room's own timeline has no replies, a thread has its own and what is echoed from it, a window with newer history only what it held |
| `ClientEffects.PostedAppears` | experimental/chatto-go/server_realtime.go:309-330 | After a new message that replies to none the room's timeline has it, unless that ends before the newest message |
| `ClientEffects.ReplyAppears` | experimental/chatto-go/server_realtime.go:309-330 | After a new reply its thread has it, and no room timeline that did not |
| `ClientEffects.EditedComesBack` | experimental/chatto-go/server_realtime.go:331-345 | After an edit every timeline that held the message and still shows it has the server's version, and none that does not show it any more |
| `ClientEffects.TouchedIsReadAgain` | experimental/chatto-go/server_realtime.go:560-606 | A changed thread summary has its message read again and leaves all others |
| `ClientEffects.DeletedRoomIsGone` | experimental/chatto-go/server_realtime.go:466-500 | A room that is gone leaves no timeline, and the others stay |
| `ClientReplica.ReadsAreSafeIff` | experimental/chatto-go/server.go:303-317 | A page read that asked for a position is safe to show at a later one, whatever it holds, if and only if nothing was retracted between |
| `ClientReplica.AcceptedWasNotOvertaken` | experimental/chatto-go/server.go:322-326 | Over any run, a page is accepted only if no event, recovery, reset, release, anchor replacement or close happened since its read began |
| `ClientReplica.AcceptedPageIsSound` | experimental/chatto-go/server.go:280-352 | Over any run, an accepted page whose read began covered shows nothing that is retracted by then |
| `ReplicaStore.Replica.BeginLoad` | experimental/chatto-go/server.go:280-312 | Refused for bad options, after four attempts, or across a release; answered from the cache; or sent with the fences as they are |
| `ReplicaStore.Replica.CommitLoad` | experimental/chatto-go/server.go:320-349 | After any steps since the request, and with no more known of the page than that it held at the position asked for: it is merged exactly when revision, epoch and connection are unchanged, the store then holds the join, an anchor bumps the epoch, and the store is exposed exactly if the request was not covered |
| `ReplicaStore.Replica.NothingRetractedIsShown` | experimental/chatto-go/server.go:280-352 | Over any sequence of steps, no timeline shows a message retracted by what has been applied, unless a page was merged since the last reset or snapshot whose read was not covered; with a cursor on every retraction no read is uncovered |
| `ReplicaStore.Replica.Release` | experimental/chatto-go/server.go:153-164 | The timeline is gone and its epoch has moved |
| `ReplicaStore.Replica.Reset` | experimental/chatto-go/server_realtime.go:19-26 | Empty, without cursor, with new generation and revision |
| `ReplicaStore.Replica.StartEvent` | experimental/chatto-go/server_realtime.go:309-330 | Repeated and unnamed events only move the cursor, changed access resets, any other event moves the revision |
| `ReplicaStore.Replica.FinishEvent` | experimental/chatto-go/server_realtime.go:321-445 | The event's effect, a second revision, the cursor only on success, coherence kept; later reads are covered if and only if the event carried a cursor, or they were covered and it took nothing away or failed |
| `ReplicaStore.BareRetractionRevives` | experimental/chatto-go/server_realtime.go:424-428 | For every retraction without cursor there is a run in which the retracted message is shown again |
| `ReplicaStore.UncoveredReadRevives` | experimental/chatto-go/server.go:303-349 | In every state in which reads are not covered, an honest page can bring a retracted message back |
| `ReplicaStore.Replica.CommitRecovery` | experimental/chatto-go/server_realtime.go:245-307 | All or nothing: on success the store is the replay of every catch-up event once, covered at the boundary; otherwise it is untouched. It succeeds only if profiles and notifications could be read |
| `ReplicaStore.Replay` | experimental/chatto-go/server_realtime.go:256-265 | Every catch-up event has its effect once, in order, and the candidate is coherent at the boundary |
| `ReplicaStore.Replica.Heartbeat` | experimental/chatto-go/server_realtime.go:199-204 | Only the cursor moves, and reads stay covered |
| `Recovery.Observer.ObserveResumable` | experimental/chatto-go/recovery.go:47-92 | Over any number of connections every event of interest behind the first cursor was durably kept or is covered by a kept gap, the cursor never passes one that was neither, and nothing is handed on before it is kept. As long as callbacks succeed, exactly what the connections bring is kept and handed on, and observation ends only where a connection is rejected or breaks the protocol |
| `Recovery.Observer.ObserveConnection` | experimental/chatto-go/recovery.go:96-224 | One connection keeps that, and remembers whether a later one needs a gap; it is read to its close or its end, and keeps exactly what its frames bring: a gap for a late catch-up or an expired cursor, one entry for every event of interest that is not among the latest, and the last cursor given |
| `Recovery.EverySentIsKept` | experimental/chatto-go/recovery.go:47-92 | Every event of interest that any connection sends before it is over is among what is kept |
| `Recovery.Observer.OnCaughtUp` | experimental/chatto-go/recovery.go:161-184 | Without a full replay an observer that was connected before keeps a gap first |
| `Recovery.Observer.OnSent` | experimental/chatto-go/recovery.go:194-222 | An event of interest is checkpointed before it is handled; a repeated or uninteresting one only moves the cursor |
| `Recovery.Observer.OnClose` | experimental/chatto-go/recovery.go:142-160 | An expired cursor leaves a kept gap and no cursor |
| `Recovery.Observer.Keep` | experimental/chatto-go/recovery.go:47-92 | The checkpoint comes before the handler, and either failure ends the observation with nothing unaccounted |
| `SlackText.DecodeUndoesEscape` | tools/slack_apply.py:262-268 | Decoding character references (section 2.5 of CommonMark 0.31.2) gives the text back, whatever named or hexadecimal references the reader also knows |
| `SlackText.EscapeIsInert` | tools/slack_apply.py:262-268 | Of the special characters only `&` and `#` are left, and those only make up references |
| `SlackText.CodeSpanReadsBack` | tools/slack_apply.py:271-277 | The code span rules (section 6.1 of CommonMark 0.31.2) read the span back as the text if and only if padding was not lost on a text that is blank in Python's sense but not all spaces |
| `SlackText.SpacesReadBack` | tools/slack_apply.py:271-277 | So every nonempty single-line text whose only white space is the space reads back |
| `SlackText.BlanksAroundTabAreLost` | tools/slack_apply.py:271-277 | A tab between two spaces is read back as the tab alone |
| `SlackText.CodeSpan` | tools/slack_apply.py:271-277 | Refused exactly for empty and multi-line text |

## Left out

- Transport: NATS client calls and consumer creation, HTTP, WebSocket, protobuf and JSON; their answers are parameters, and the assumptions above say what is relied on.
- Logging, metrics, status fields, wall-clock time, delays and jitter; the live timer is a step that may come at any time.
- Locks: calls that hold a lock are single steps, and methods that wait for `readMu` require that no event holds it.
- Projector: consumer identity checks, read barriers, ownership lookups and the position/subject check in front of `waitForSeq`; restored sequences and startup targets come in through the step that begins a run.
- Mutations.ExecuteMutation: other writers act between reading a boundary's tail and publishing, as given by a schedule; writers that interleave with one another are in MutationRuns, one guarded publish at a time.
- Paging.SubjectEventsWithSubjectsAfter: proved for streams that only grow while it reads; a missing decoder and metadata errors are not modelled.
- Componentized projections: construction checks (duplicate keys, nil reducers) and `CompleteStartupReplay`; every model is one array cell, so two keys cannot share a model.
- MatchUsers.Matcher.MatchUsers: email normalisation and the bot-owner lookup are done before; account lookup is a function of the address.
- Accounts.ImportAccounts: names come in lower case and checked against the naming rules; profiles other than name and email, the bot owner, whose choice the journal fixes first, and avatars are left out. Matching has to succeed on the first attempt; an attempt that it refuses ends before it has done anything.
- The runner's phases are proved one by one: Accounts makes the users and rooms that ImportHistory starts from, with the completion marker right behind, and the history comes between.
- Import: asset uploads and avatars; attached assets are part of a message's text.
- Import: reactions to membership events. They are sent without an operation key, so that only the server's own treatment of a repeated reaction protects them.
- Import: the closing repetition of each room's name, topic, purpose and archived flag enters as further room events of the source; the operations are the same calls.
- ImportHistory.ImportThroughOutages: the journal is a map from which a crash may take any entries, which is weaker than what Journal guarantees (Lines.PrefixOnlyLoses, Journal.CrashKeepsAPrefix); keys are structured values and not strings.
- Import: the server never rejects an operation of a valid archive; an error of any other kind ends the attempt like a loss of power.
- Journal: file permissions, locking, and the directory sync.
- ProjectorRuns.DeliverKeeps: a failed apply and the recording of its failure are one step. In the source other callers can come between the two, see the state that the apply left, try a rejected startup batch again, or end startup. A snapshot captured between them is the one captured right behind them, because recording a failure changes neither state nor frontier.
- Client replica: profiles, notifications, room directory and layout; their calls appear as calls that may fail. Frame decoding and the order checks of the handshake in `stream`, and the bound of 1000 queued events.
- ReplicaStore.Replica.CommitRecovery: the recovery's reads are answered by a function of the event's place in the queue.
- Recovery: dialling, subscription messages and read deadlines; callbacks succeed or fail as a schedule says.
- SlackText: inline structure other than code spans and character references; rich links and lists.
- `pkg/events/durable_worker.go`, `pkg/events/ack_reply.go`, backups, key export and the terminal programs, which would add easy members only.
