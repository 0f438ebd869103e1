# Verified model of the Providah core protocols

A control plane asks cloud providers to change things it cannot undo, from several
workers that may crash, lose answers or wake up late. Its guards are split between Go
branches and SQL `WHERE` clauses, so what they guarantee holds over whole runs and is not
visible in any one function. This project models those protocols and the calendar that
drives them, and proves what they guarantee.

| files | what they hold |
|---|---|
| `WallClock`, `ScheduleTime`, `Maintenance`, `MaintenanceGate` | wall clocks across offset changes, the next slot of a schedule, maintenance windows and their recheck at dispatch |
| `Operations`, `Outcomes`, `OperationChecks`, `OperationOutcomes` | one cloud operation: row, workers, transactions, how a provider's answer is judged; when a call is sent and what becomes of the row, in terms of what the transactions read |
| `OperationRuns`, `OperationTable`, `OperationRecord` | what every run of it keeps; all operations and the index on busy resources; the statements in place |
| `Schedules`, `Keys`, `ScheduleRuns`, `ScheduleSlots`, `ScheduleRecord`, `ScheduledCalls` | scheduler ticks, idempotency keys, what runs of ticks and edits keep, the statements in place; a schedule running together with the operations it queued |
| `AuditLog`, `AuditLogRecord` | event ids under concurrent writers |
| `AuditExport`, `AuditExportRuns`, `AuditExportChecks`, `AuditExportRecord` | batches, cursor and object store of the continuous audit export |
| `Discovery`, `DiscoveryRuns`, `DiscoveryChecks`, `DiscoveryRecord` | inventory snapshots racing with operations |
| `Deletions`, `InventoryOperations`, `LateBinding` | how long a confirmed deletion lasts; scans running together with the table of operations; the run in which a late create undoes a deletion |
| `StateRegister`, `Artifacts`, `StateBackend` | the Terraform-style state backend as one locked document over sealed, versioned storage |
| `Notifications`, `NotificationRuns`, `NotificationCodes`, `NotificationRecord` | notification deliveries, attempts and redeliveries |

How it is built. A database transaction is one atomic step of a function `Apply`, and a
run is any sequence of steps. Where the code distinguishes them, a step carries both the
transaction's `now()` (`start`) and the clock read inside it (`now`). A worker that stops
forever is a crash; an answer that never arrives is a parameter. The classes in the
`Record` files, `StateBackend.Project` and `Artifacts.ArtifactStore` hold the rows and
update them in place; each method is proved to be the corresponding step, and the theorems
in the `Runs` files are about those steps. What a step decides is stated a second time
without the functions that decide it, in terms of rows, facts, response codes and the
calendar: in the `Checks`, `Outcomes`, `Codes` and `Slots` files, in the last section of
`ScheduleTime` and `StateRegister`, and in `Maintenance`. Lookups of permissions, policies and other tables enter as
facts that a step may find either way.

Assumptions, all stated as predicates where they are used: a time zone has offsets of
whole minutes below 24 hours, changes its offset at most once within a week and then by at
most 24 hours, and `time.Date` uses the offset of some instant within a day
(`WallClock.Zone.Valid`); a cron rule finds the least match above its argument
(`ScheduleTime.Rule.Valid`); digests are injective and encryption is an inverse pair; the
audit bucket keeps what it has; the provider shows a deletion from the moment it has
answered it, never reuses an identity, and names to a create only what it has made for it
(`Discovery.Lawful`). What a scan reads may be spread over the whole time since its claim.
What `Discovery.Lawful` asks of operation rows is no assumption: it follows from the
operation protocol (`InventoryOperations.WorkAlwaysArrives`, with the provider's part in
`InventoryOperations.Truthful`). Calendar time is counted in
minutes: the calendar functions compare a clock reading only with instants on whole
minutes, so that its seconds do not matter to them.

What the code does not do. Six readings of the code and its comments fail, and each has
its exact condition and an input:
- The instant at which `maintenanceWindow` clips a window is the first one of the closed
  next date exactly when that date's midnight exists, or the offset change that skips it
  has not begun the minute before the clip (`ClipIsDateStartIff`, `ClipPastDateStart`).
- A window reported open until its end can close earlier: exactly when its own local date
  becomes an excepted one (`StaysOpenIff`; `ClipPastDateStart` is an input, and
  `GatePassesIff` what it means for a dispatch).
- A recorded success need not be a confirmed one: a snapshot or a create whose answer
  combines success with a provider error is taken without its identity, and in a snapshot's
  case without its state (`SuccessIsConfirmedIff`, `UnseenSnapshotSucceeds`,
  `UnnamedCreateSucceeds`).
- A redelivered notification can be sent more than eight times before the next redelivery
  (`StragglersExist`), exactly if a claim from before it is still undecided
  (`RedeliveryStaysInBudget`). A caller can see whether any attempt is uncertain: if none
  is, the bound holds (`NoLostAttemptInBudget`), and otherwise the rows cannot rule the
  excess out (`LostAttemptMayOvershoot`). Counted by the claims themselves it holds always
  (`BudgetHolds`).
- An artifact kept in the database is not bound to its key, one in the object store is
  (`OpenIsBoundToKey`).
- A confirmed deletion can be undone: a create still in flight binds its resource after a
  scan has published it and another operation has deleted it, and the row is live again
  (`LateBinding.DeletionIsUndone`). It lasts for good exactly if the create that the
  resource was made for is over (`GoneForGoodIff`), which a caller can see when no create
  is open (`DeletionHolds`); otherwise the next published scan of its kind that began
  after the deletion retires it (`NextScanRetires`).

## Model

| member | source | states |
|---|---|---|
| WallClock.DueIsFirst | internal/core/schedule_time.go:76-93 | the reference resolution is the least instant that shows a wall time, and shows it exactly when any instant does |
| WallClock.WallOffsets | internal/core/schedule_time.go:67-75 | collects exactly the offsets at the five probes around time.Date's answer |
| WallClock.SamplesCover | internal/core/schedule_time.go:67-75 | every instant that shows the wall time has one of the sampled offsets |
| WallClock.ResolveWall | internal/core/schedule_time.go:76-93 | returns the reference resolution, and reports missing exactly when no instant shows the wall time |
| WallClock.LaterWallsAreLater | internal/core/schedule_time.go:155-164 | although resolved instants are not monotone, no later wall time falls before the earliest candidate of an earlier one |
| ScheduleTime.StartOf | internal/core/schedule_time.go:133-144 | wall times up to the start offset resolve to the given instant or earlier, and strictly earlier below it |
| ScheduleTime.Enumerate | internal/core/schedule_time.go:147-174 | settles every match of a rule; the early break loses none and the cap of 6000 attempts is never what ends the loop |
| ScheduleTime.FindOverlap | internal/core/schedule_time.go:177-184 | finds a real candidate of the other action at the same instant if and only if there is one |
| ScheduleTime.NextScheduleAfter | internal/core/schedule_time.go:99-189 | the one answer the user's own terms allow: of all the local times asked for that are still to come, the first by instant, wall time and action, at the first instant a clock shows it; skipped exactly if its date is excepted, or no clock shows it, or the other action happens at the same instant; none only if nothing is to come |
| ScheduleTime.AnswerIsUnique | internal/core/schedule_time.go:99-189 | these terms determine the answer |
| ScheduleTime.RankIsTextOrder | internal/core/schedule_time.go:129-132 | actions at one local time are ordered as their names are |
| ScheduleTime.OverlapIsMutual | internal/core/schedule_time.go:175-184 | if a slot is blocked by a paired action at its instant, a slot of that action is blocked too |
| ScheduleTime.ContinuesWithout | internal/core/schedule_time.go:129-132 | continuing from an answer leaves exactly the other eligible slots |
| Maintenance.SearchRange | internal/core/maintenance.go:34-50 | the padded wall range holds every start whose window covers the instant, across an offset change, and at most 5760 minutes |
| Maintenance.LatestEnd | internal/core/maintenance.go:51-64 | the greatest end over all real, non-excepted covering starts; the cap on iterations never truncates |
| Maintenance.MaintenanceWindow | internal/core/maintenance.go:17-74 | that end clipped at a closed next date, and none on a closed date |
| Maintenance.MaintenanceRestriction | internal/core/maintenance.go:79-101 | open with the least end of all applicable policies, or the name of one that is closed |
| Maintenance.OpenIff | internal/core/maintenance.go:17-74 | a policy is open exactly if its local date is not excepted and a window of at most a day has started at the first instant of a matching local time and is still running, not cut by a closed next date |
| Maintenance.ConnectionOpenIff | internal/core/maintenance.go:79-101 | a connection is open exactly if every policy that names it, or names none, is open; the answer is the end that comes first |
| Maintenance.StaysOpenIff | internal/core/maintenance.go:65-78 | before the reported end a window is closed exactly when the local date is an excepted one; a closed date that still lies ahead never closes it |
| Maintenance.StaysOpen | internal/core/maintenance.go:65-78 | over a stretch of constant offset it is open throughout |
| Maintenance.RecordedEndHoldsIff | internal/core/maintenance.go:79-101 | with unchanged policies and an unexpired end, a restriction is found exactly if an applicable policy excepts the local date |
| Maintenance.RecordedEndHolds | internal/core/maintenance.go:79-101 | over a stretch of constant offset an unexpired recorded end implies that no restriction is found |
| Maintenance.ClipIsDateStartIff | internal/core/maintenance.go:65-72 | the clip is the first instant of the closed date exactly when its midnight exists, or is skipped by a change that has not begun the minute before the clip |
| Maintenance.ClipPastDateStart | internal/core/maintenance.go:65-72 | a policy and an instant for which the clip lies inside the closed date |
| MaintenanceGate.GatePassesIff | internal/core/operations.go:515-526 | under unchanged policies the maintenance gate of a dispatch passes exactly while the recorded end has not passed and no applicable policy excepts the local date |
| MaintenanceGate.GatePasses | internal/core/operations.go:515-526 | over a stretch of constant offset it passes exactly while the recorded end has not passed |
| MaintenanceGate.GateIsPassed | internal/core/operations.go:515-526 | a request in a nightly window that passes at dispatch, so that what the two lemmas ask for is met |
| MaintenanceGate.SubmitsInWindowIff | internal/core/operations.go:515-526 | under unchanged policies the check of a dispatch submits exactly if it would without any window, the recorded end has not passed and no policy that concerns the connection excepts the local date |
| Outcomes.Verdict | internal/core/operations.go:614-675 | success is recorded exactly when the answer reports it and confirms the requested state and identity, as far as the action is checked |
| Outcomes.Judge | internal/core/operations.go:614-675 | equals Verdict, and decides by what the provider reports: a failure only if one is reported, doubt if it is unsure or silent after a submit, progress only if it is named, success only if it is shown |
| Outcomes.VerdictDecides | internal/core/operations.go:614-675 | the same of Verdict, for every answer and none |
| Outcomes.StartAndShutdownAlternate | sdk/provider/power.go:243-264 | what a start reaches a shutdown may begin with and the other way round; neither can follow itself |
| Outcomes.UnseenSnapshotSucceeds | internal/core/operations.go:641-647 | a snapshot success with an error field is recorded without an action id |
| Outcomes.UnnamedCreateSucceeds | internal/core/operations.go:660-674 | a create success with an error field that names no resource is recorded, with nothing bound |
| Outcomes.SuccessIsConfirmedIff | internal/core/operations.go:637-669 | every recorded success confirms state and identity exactly if the answer has no error or the action is neither snapshot nor create, key imports at dispatch aside |
| OperationRuns.ClaimsAlways | internal/database/operations.sql.go:35-37 | in every run only the first claim dispatches, claims follow each other in time, and the row's lease is the last claim's |
| OperationRuns.LeasesIncrease | internal/database/operations.sql.go:35-37 | successive claims of an operation carry strictly increasing leases |
| OperationRuns.StaleWorkerIsHarmless | internal/core/operations.go:611-613 | a worker whose claim was superseded or has run out changes neither the row nor what was sent |
| OperationRuns.StatusAdvances | internal/core/operations.go:246-463 | between any two moments of a run the rank of the status never decreases, and a terminal row never changes |
| OperationRuns.SubmitsOnceThenObserves | internal/core/operations.go:464-606 | over every run at most one submit is authorised, it is the first call, and each claim authorises at most one call |
| OperationRuns.SubmitIsAsCreated | internal/core/operations.go:580-606 | a submit carries the action, target, expected state and revisions fixed at creation |
| OperationRuns.SubmitIsApproved | internal/core/operations.go:527-539 | a submit that needs approval comes after an approving review by another user in the history, at most an hour old, or has the standing approval bound at creation |
| OperationRuns.SubmitIsTimely | internal/core/operations.go:534-539 | a submit is authorised within the life of its request, a scheduled one within the half minute after it fell due |
| OperationRuns.ObservationIsBounded | internal/core/operations.go:540-542 | at most 180 observations are authorised after a dispatch and 181 after each recheck |
| OperationRuns.ObservingMovesForward | internal/database/operations.sql.go:1054-1057 | an observed operation is never stamped earlier than before, although stamps are transaction starts |
| OperationChecks.SubmitsIff | internal/core/operations.go:470-606 | a check submits if and only if its claim is current and requester, connection, module, template, runtime, identities, maintenance window, resource, ownership, expiry, approval, credential and request are each as they must be at that moment |
| OperationChecks.ObservesIff | internal/core/operations.go:470-606 | an observation leaves if and only if claim, deadline, requester, connection, runtime, credential and request allow it |
| OperationChecks.EveryCallWasChecked | internal/core/operations.go:470-606 | in every run each call in the history left with a check made at that very moment, so that the two conditions above held then |
| OperationChecks.CallIsOfTheRow | internal/core/operations.go:580-606 | what is sent is what the row says, in the phase of the claim; the row stays |
| OperationChecks.RefusedIsSettled | internal/core/operations.go:556-597 | a current check that sends nothing cancels a dispatch and makes an observation uncertain, unless credential or request alone was at fault |
| OperationChecks.StaleCheckIsHarmless | internal/core/operations.go:471-473 | a check whose claim is not current or out of time changes nothing |
| OperationChecks.ClaimsIff | internal/database/operations.sql.go:35-37 | a row is claimed exactly if it is queued or observed and neither lease nor delay stands against it; for three minutes |
| OperationChecks.SweepGivesUpIff | internal/core/operations.go:442-454 | a dispatch whose worker is overdue becomes uncertain, a request out of time expires, nothing else changes |
| OperationChecks.ReviewDecidesIff | internal/core/operations.go:246-302 | a review takes effect exactly under the conditions listed, and how |
| OperationChecks.CancelWithdrawsIff | internal/core/operations.go:352-370 | only the requester withdraws, only before dispatch |
| OperationChecks.UncertainIsSettledIff | internal/core/operations.go:371-415 | only an uncertain row outside its lease is rechecked, with a new deadline, or closed by someone other than the requester |
| OperationOutcomes.FinishRecords | internal/core/operations.go:610-680 | the status, ids, reading and resource recorded for any answer or none, in terms of what it reports |
| OperationOutcomes.TakenRecordsNothing | internal/core/creation.go:177-206 | a binding that the index rejects leaves the row as it was; where nothing is bound the index has no say |
| OperationOutcomes.BindsUnlessOccupied | internal/core/creation.go:177-206 | in the table of all operations an outcome is recorded unless it would bind a resource that another operation, not yet over, is on |
| OperationOutcomes.StaleAnswerIsDropped | internal/core/operations.go:611-613 | an answer that arrives after the claim is over, or was superseded, leaves no trace |
| OperationOutcomes.FailedAfterSubmit | internal/core/operations.go:610-680 | over every run, once something has been submitted a row has failed only by an answer in time that reported failure, or by a later observation whose request was invalid |
| OperationOutcomes.UncertainStaysOpen | internal/core/operations.go:614-636 | an unsure answer, or none, never ends an operation |
| OperationTable.OneBusyOperation | internal/database/migrations/00006_operations.sql:14 | in every reachable table a resource has at most one pending, active or uncertain operation, also after a created resource is bound |
| OperationTable.ActKeepsIndex | internal/core/creation.go:177-206 | a step, including an accepted or rejected binding, keeps that index |
| OperationTable.InsertsIff | internal/database/migrations/00006_operations.sql:14 | a new request is admitted exactly if every other operation on its resource is over |
| OperationRecord.Gate | internal/core/operations.go:474-556 | the overwriting gates leave no failure exactly when every condition for sending holds |
| OperationRecord.Reviewable | internal/core/operations.go:253-291 | accepts a review exactly under the conditions of MayReview |
| OperationRecord.Record.Interactive | internal/database/operations.sql.go:97-100 | a fresh request is a Created life: unclaimed, unsent, awaiting review or queued, expiring after a day |
| OperationRecord.Record.Scheduled | internal/database/schedules.sql.go:122-124 | a scheduled request is a Created life, queued with the standing approval and the half minute of its slot |
| OperationRecord.Record.SaveOutcome | internal/core/operations.go:303-315 | the whole row after recording an outcome: ids only replaced by non-empty ones, the deadline set once, the lease freed while observing |
| OperationRecord.Record.ReviewOperation | internal/core/operations.go:246-302 | refines Review: a row moves to queued or rejected, with the reviewer recorded, exactly if MayReview holds |
| OperationRecord.Record.CancelOperation | internal/core/operations.go:352-370 | refines Cancel: only the requester, only before dispatch |
| OperationRecord.Record.ExpireIfDue | internal/core/operations.go:442-454 | refines Sweep: abandoned dispatches become uncertain, overdue requests expire, nothing else changes |
| OperationRecord.Record.ClaimOperation | internal/database/operations.sql.go:35-37 | refines Claim: a job is handed out exactly if the row is claimable, and its lease is the row's |
| OperationRecord.Record.CheckOperation | internal/core/operations.go:470-606 | refines Check: a request leaves exactly when the claim is current and every gate is clear; otherwise the row is settled or left alone |
| OperationRecord.Record.BindCreated | internal/core/creation.go:177-206 | the row after binding: the identity is only set once, the resource only when confirmed |
| OperationRecord.Record.FinishOperation | internal/core/operations.go:610-680 | refines Finish: outcome, binding and fence together |
| OperationRecord.Record.ReconcileOperation | internal/core/operations.go:371-392 | refines Reconcile: an uncertain row outside its lease is observed again, without a new submit |
| OperationRecord.Record.ResolveOperation | internal/core/operations.go:393-415 | refines Resolve: an uncertain row outside its lease is closed by someone other than the requester |
| Keys.KeyInjective | internal/core/schedules.go:503-503 | equal idempotency keys name the same schedule, revision, instant, resource, action and local slot |
| Keys.DecimalReadsBack | internal/core/schedules.go:503-503 | decimal rendering can be read back |
| ScheduleRuns.SlotsIncrease | internal/core/schedules.go:374-408 | under one revision the slots processed by successive ticks strictly increase, by instant and then by local slot |
| ScheduleRuns.NothingLost | internal/core/schedules.go:400-408 | a scheduled slot between two processed ones was processed, or passed over by a late tick |
| ScheduleRuns.QueuedIsApproved | internal/core/schedules.go:426-428 | what a tick queues was approved before it, for that very revision, by someone other than its editor, and is queued in time |
| ScheduleRuns.SubmittedInItsSlot | internal/core/schedules.go:497-515 | whatever workers do later, a queued operation is submitted only in the half minute after its slot, with the slot's action |
| ScheduleRuns.KeysDiffer | internal/core/schedules.go:503-503 | over a whole run no two queued operations of a schedule share an idempotency key |
| ScheduleSlots.ProcessedAsMeant | internal/core/schedules.go:374-408 | over every run each processed slot, and the one that waits, is asked for by its own specification, at its instant, with the skip reason that applies |
| ScheduleSlots.QueuedOnTheCalendar | internal/core/schedules.go:409-420 | over every run nothing is queued on an excepted date, for a time no clock shows, or against the other action at the same instant; the operation's action is the slot's |
| ScheduleSlots.EditTakesEffect | internal/core/schedules.go:163-258 | after an accepted edit the row holds the new specification and targets and the calendar's own first answer for it from the clock, unapproved; a refused edit changes nothing |
| ScheduleSlots.EditEndsOldSlots | internal/database/schedules.sql.go:617-618 | after an accepted edit only slots of the new specification or a later one are processed |
| ScheduleSlots.NoLostUpdate | internal/core/schedules.go:560-569 | of two requests on the same view of the row at most one takes effect, whatever happens in between |
| ScheduleSlots.ApprovalTakesEffect | internal/core/schedules.go:259-301 | an approval counts exactly if it is permitted, up to date and not the editor's, for the current revision |
| ScheduleSlots.SwitchTakesEffect | internal/core/schedules.go:302-325 | switching and removing set exactly what they say |
| ScheduleSlots.TickProcessesIff | internal/core/schedules.go:374-404 | a tick processes the row's slot exactly if it is due and the calendar answers |
| ScheduleSlots.TickGoesOn | internal/core/schedules.go:386-404 | a punctual tick goes on right behind its slot, any other from the clock |
| ScheduleSlots.QueuedIff | internal/core/schedules.go:409-495 | each target of a processed slot is queued if and only if all conditions listed hold |
| ScheduleSlots.QueuedAsCalledFor | internal/core/schedules.go:497-515 | the queued operation carries the slot's action, the target as read, and the half minute of the slot |
| ScheduledCalls.CallsAreSanctioned | internal/database/schedules.sql.go:567-569 | in every joint run each call for a scheduled operation is authorised while the revision that queued it is current, approved, switched on and not removed and names its target; a submit also in its half minute |
| ScheduledCalls.RevokedIsSilent | internal/core/operations.go:475-482 | once its schedule is edited or removed nothing more is ever sent for an operation of an earlier revision |
| ScheduledCalls.AuthorisedIff | internal/database/schedules.sql.go:567-569 | what the query answers, column by column |
| ScheduledCalls.SuspendedIsSilent | internal/core/operations.go:475-482 | while its schedule is switched off or not approved nothing is sent for any operation it queued |
| ScheduleRecord.SkipReason | internal/core/schedules.go:413-434 | no reason is left exactly when the occurrence may be dispatched |
| ScheduleRecord.TargetReason | internal/core/schedules.go:452-495 | no reason is left exactly when the target is ready |
| ScheduleRecord.Dispatch | internal/core/schedules.go:446-526 | each target is queued or skipped as it should be, and the counts agree with that |
| ScheduleRecord.Schedule.Tick | internal/core/schedules.go:374-536 | refines Tick, with an answer of the calendar that is proved to be the right one for a late, a punctual and a refreshing tick |
| ScheduleRecord.Schedule.Edit | internal/core/schedules.go:163-258 | refines Edit: accepted exactly if the reviewed revision is current and a slot lies ahead; the row then holds the new specification, its targets and its first slot from the clock, without approval |
| ScheduleRecord.Schedule.ApproveSchedule | internal/core/schedules.go:259-301 | refines Approve: of the current revision only, and never by its editor |
| ScheduleRecord.Schedule.SetEnabled | internal/core/schedules.go:302-325 | refines Switch: approval and slots stay as they are |
| ScheduleRecord.Schedule.Delete | internal/core/schedules.go:538-559 | refines Remove: disabled and gone for every later tick and edit |
| AuditLog.LaterCommitsAreGreater | internal/database/core.sql.go:14-17 | with any writers and aborts, what commits later in an organization has a greater id than all a reader has seen |
| AuditLog.OrderedRun | internal/database/core.sql.go:14-17 | ids within an organization grow in commit order, and committed rows stay |
| AuditLogRecord.EventLog.AddAudit | internal/database/core.sql.go:14-17 | locks and draws, or waits exactly when another writer holds the organization |
| AuditExport.BuildArchive | internal/core/audit_export.go:51-84 | the archive of the rows, or nothing exactly if one belongs to another organization or the text or its compressed form exceeds the limit |
| AuditExport.ArchiveReadsBack | internal/core/audit_export.go:51-84 | an archive determines the rows it was made from, with their contents |
| AuditExportRuns.PageIsNext | internal/database/audit_export.sql.go:60-62 | the first hundred rows past the cursor by id are the next rows in commit order |
| AuditExportRuns.ExportsExactlyOnce | internal/core/audit_export.go:259-413 | the succeeded batches of the current revision hold exactly the events up to the cursor, each once and in order; those of any other revision a prefix of the organization's events |
| AuditExportRuns.SucceededIsStored | internal/auditstore/store.go:60-88 | the store of its revision holds each succeeded batch exactly |
| AuditExportRuns.AtMostOneActive | internal/database/migrations/00011_audit_export.sql:13 | at most one batch is pending or running |
| AuditExportRuns.CursorNeverPasses | internal/core/audit_export.go:267-302 | an event that commits after the cursor was read lies past it |
| AuditExportRuns.ProbedBeforeExport | internal/core/audit_export.go:202-204 | no event is batched before a probe of the same configuration has been stored and read back |
| AuditExportRuns.StaleWorkerIsHarmless | internal/core/audit_export.go:385-387 | a worker whose batch was claimed again, or whose lease has run out, changes neither batches nor cursor |
| AuditExportChecks.PreparesIff | internal/core/audit_export.go:259-303 | events are batched exactly while the export is verified, on and idle and there is something to export that can be archived |
| AuditExportChecks.ProbesIff | internal/core/audit_export.go:159-188 | a probe is made exactly while the export is configured, paused and idle |
| AuditExportChecks.EnablesIff | internal/core/audit_export.go:189-216 | switching on takes a verified configuration; switching off ends what is under way |
| AuditExportChecks.ConfigureStartsOver | internal/core/audit_export.go:128-158 | a new configuration is paused, unverified, at cursor 0 and idle |
| AuditExportChecks.RetryIsAtOnce | internal/database/audit_export.sql.go:353-355 | a retry makes every pending batch due and changes nothing else |
| AuditExportChecks.ClaimsIff | internal/database/audit_export.sql.go:115-118 | a batch is claimed exactly if it is due or the minute of its worker is over |
| AuditExportChecks.DeadWorkerIsReplaced | internal/database/audit_export.sql.go:115-118 | over every run a running batch has a lease, after which another worker can claim it |
| AuditExportChecks.WritesIff | internal/core/audit_export.go:333-365 | a worker may write exactly if its claim and its configuration are current and, for events, the export is verified and on |
| AuditExportChecks.PutCreates | internal/auditstore/store.go:65-71 | a write creates the object or leaves the existing one alone, and goes on exactly if it was delivered and answered |
| AuditExportChecks.VerifiesIff | internal/auditstore/store.go:72-88 | the read back is accepted exactly if it arrives and the object is what was sent |
| AuditExportChecks.KeyNamesContent | internal/core/audit_export.go:85-105 | batches with equal keys have equal contents, for digests of one length |
| AuditExportChecks.RecordsIff | internal/core/audit_export.go:373-413 | what a verified and a failed write each leave in batch and configuration, and that a stale worker leaves nothing |
| AuditExportChecks.DelayDoubles | internal/core/audit_export.go:389-392 | the wait doubles from a minute up to an hour |
| AuditExportRecord.Exporter.SaveAuditExport | internal/core/audit_export.go:128-158 | refines Configure: a new unverified, paused revision from cursor 0, and no active batch left |
| AuditExportRecord.Exporter.TestAuditExport | internal/core/audit_export.go:159-188 | refines RequestProbe: only while paused and idle |
| AuditExportRecord.Exporter.SetAuditExportEnabled | internal/core/audit_export.go:189-216 | refines Enable: only once verified; pausing cancels what is active |
| AuditExportRecord.Exporter.RetryAuditExport | internal/database/audit_export.sql.go:353-355 | refines Retry: every pending batch is due at once, nothing else changes |
| AuditExportRecord.Exporter.PrepareAuditExport | internal/core/audit_export.go:259-303 | refines Prepare: at most one new batch, of the selected page, and only while idle, enabled and verified |
| AuditExportRecord.Exporter.ClaimBatch | internal/database/audit_export.sql.go:115-118 | refines Claim: exactly the due batches can be claimed, each claim counting an attempt |
| AuditExportRecord.Exporter.CheckBatch | internal/core/audit_export.go:333-365 | refines Check: a request, with the target of the current configuration, exactly when the claim may write |
| AuditExportRecord.Exporter.PutObject | internal/auditstore/store.go:65-71 | refines Put: an object is created or the existing one left alone, whether or not the answer arrives |
| AuditExportRecord.Exporter.VerifyObject | internal/auditstore/store.go:72-88 | refines Get: accepted only if length and digest of the stored bytes agree |
| AuditExportRecord.Exporter.FinishBatch | internal/core/audit_export.go:373-413 | refines Finish: success moves the cursor or verifies the target, failure is retried after a doubling delay, a stale claim changes nothing |
| Discovery.PublishedIsTheSnapshot | internal/core/discovery.go:248-265 | after a publication the live resources of the covered kinds are exactly the scanned ones; other kinds are untouched |
| DiscoveryRuns.PublishedInReadOrder | internal/core/discovery.go:197-273 | each published snapshot is of a read that began after the one before it had been published |
| DiscoveryRuns.DeletedStaysDeleted | internal/database/discovery.sql.go:393-394 | over every run, creates still in flight included, a resource whose deletion an operation has confirmed is not live until an operation binds it again; no snapshot resurrects it |
| Deletions.OnlyItsMakerUndoes | internal/database/operations.sql.go:1104-1142 | when a confirmed deletion has ended, the operation the resource was made for has bound it since, while it was open |
| Deletions.DeletionIsUndone | internal/core/creation.go:177-206 | a run of scans and outcomes in which a confirmed deletion is undone |
| Deletions.GoneForGoodIff | internal/core/creation.go:177-206 | in every state of every run a confirmed deletion lasts for good if and only if the operation the resource was made for, if any, is over |
| Deletions.NothingOpenNothingBack | internal/core/creation.go:177-206 | if every operation of the connection is over, all confirmed deletions last for good |
| Deletions.NextScanRetires | internal/core/discovery.go:248-265 | a published scan of its kind whose read began after the deletion retires the resource, revived or not |
| InventoryOperations.WorkAlwaysArrives | internal/core/operations.go:610-680 | at every moment of a joint run, whatever a transaction changes in an operation row meets what the inventory expects of such changes, given only that the provider is truthful |
| InventoryOperations.SaneAlways | internal/database/discovery.sql.go:393-394 | in every joint run the rows a scan consults have the status and stamp of the operations in the table, whose index holds |
| InventoryOperations.ReachedAlways | internal/core/discovery.go:197-273 | the scans of a joint run have lived a run of Discovery, so that its theorems hold of them |
| InventoryOperations.DeletedTargetIsNotLive | internal/core/operations.go:325-349 | from the transaction with which a delete succeeds its target is not live, unless the create it was made for, open until then, binds it meanwhile |
| InventoryOperations.DeletionHolds | internal/core/creation.go:177-206 | once no create in the table is open, a confirmed deletion holds over every further joint run |
| LateBinding.DeletionIsUndone | internal/core/creation.go:177-206 | a run of both operations through their own transactions, in which the index stops nothing, and after which the target of a succeeded delete is live again |
| DiscoveryRuns.BoundStaysLive | internal/database/discovery.sql.go:393-394 | no snapshot retires a resource an operation has bound, unless the provider deleted it or the operation became uncertain |
| DiscoveryRuns.OnlySuccessPublishes | internal/core/discovery.go:200-247 | only an operation or a current, timely, successful, not overtaken scan changes the inventory |
| DiscoveryRuns.InventoryIsReplayed | internal/core/discovery.go:197-273 | the inventory of any run is its published scans and the operations' confirmed deletions and creations applied one after another; no other scan or step leaves a trace |
| DiscoveryRuns.ExpiredNeverPublishes | internal/database/discovery.sql.go:119-121 | the snapshot of a scan that has ended, by expiry or otherwise, is never published |
| DiscoveryRuns.AtMostOneActive | internal/database/discovery.sql.go:289-292 | a connection has at most one queued or running scan |
| DiscoveryChecks.QueuesIff | internal/core/discovery.go:26-61 | a scan is queued exactly if its connection is on and it has no active scan |
| DiscoveryChecks.ClaimsIff | internal/database/discovery.sql.go:30-32 | exactly a queued scan is claimed, for three minutes |
| DiscoveryChecks.ExpiresIff | internal/database/discovery.sql.go:119-121 | exactly a running scan out of its lease fails by expiry |
| DiscoveryChecks.OvertakenMeans | internal/database/discovery.sql.go:393-394 | a scan is overtaken exactly if an operation that is past its queue and was not dropped before dispatch has been stamped since |
| DiscoveryChecks.PublishesIff | internal/core/discovery.go:197-247 | a scan is published if and only if it is in time, connection and module are unchanged, there is a snapshot and nothing has overtaken it; how it ends otherwise |
| DiscoveryChecks.EditEndsScans | internal/core/discovery.go:205-207 | over every run, a scan queued before its connection was edited is never published |
| DiscoveryChecks.RetiredIsKept | internal/database/discovery.sql.go:372-374 | a retired resource keeps what is known of it |
| DiscoveryChecks.WorkShows | internal/core/operations.go:325-349 | what a confirmed deletion or a binding makes of each inventory row |
| DiscoveryRecord.Scanner.QueueScan | internal/core/discovery.go:26-61 | refines Queue: no second job while one is active |
| DiscoveryRecord.Scanner.ClaimScan | internal/database/discovery.sql.go:30-32 | refines Claim: each job is claimed once, for three minutes |
| DiscoveryRecord.Scanner.ExpireScan | internal/database/discovery.sql.go:119-121 | refines Expire: only a running job outside its lease |
| DiscoveryRecord.Scanner.UpsertAll | internal/core/discovery.go:248-262 | every scanned resource is live as scanned, the later of two lines counting |
| DiscoveryRecord.Scanner.RetireMissing | internal/database/discovery.sql.go:372-374 | exactly the missing resources of covered kinds are retired |
| DiscoveryRecord.Scanner.OvertakenByOperation | internal/database/discovery.sql.go:393-394 | finds a touching operation stamped since the scan was queued if and only if there is one |
| DiscoveryRecord.Scanner.FinishScan | internal/core/discovery.go:197-273 | refines Finish: upserts and retires only after every guard has passed |
| StateRegister.AcceptedIsHistory | internal/core/managed_state.go:184-212 | over every run serials strictly increase, lineage is constant and the current document is the last accepted one |
| StateRegister.ResendChangesNothing | internal/core/managed_state.go:191-197 | resending an accepted write at any later time, by anyone, changes nothing |
| StateRegister.ResendIsAnswered | internal/core/managed_state.go:195-197 | an immediate resend is answered as the write was |
| StateRegister.OnlyTheHolderWrites | internal/core/managed_state.go:158-190 | between a lock and its release no other session's write takes effect |
| StateRegister.GetAnswers | internal/core/managed_state.go:139-157 | over every run GET answers with the bytes of the last accepted document, and 404 exactly if there is none |
| StateRegister.HolderIff | internal/core/managed_state.go:158-183 | the lock is held exactly by whoever was last granted it and has not returned it |
| StateRegister.LockAnswers | internal/core/managed_state.go:158-170 | LOCK is granted exactly if nobody else holds the lock, and then the caller does; otherwise the lock in the way is named |
| StateRegister.UnlockAnswers | internal/core/managed_state.go:171-183 | UNLOCK is granted exactly to the holder or if nobody holds the lock, and then nobody does |
| StateRegister.PostAnswers | internal/core/managed_state.go:184-212 | POST is answered 200 exactly if the caller holds and names the lock and the document repeats or continues the last accepted one, which it then is |
| Artifacts.OpenNeverLies | internal/core/artifacts.go:40-64 | opening yields the sealed bytes exactly when the pinned object is readable and within the bound, and otherwise nothing |
| Artifacts.OpenIsBoundToKey | internal/core/artifacts.go:52-54 | under another key an object-backed artifact never opens; a database-backed one does |
| Artifacts.ReadIsPinned | internal/artifactstore/store.go:113-136 | exactly the pinned version is read, if it is unaltered in length and digest; an unversioned object never is |
| Artifacts.ArtifactStore.Put | internal/artifactstore/store.go:88-112 | pins a new version that reads back as written, exactly if the write of a new key arrives, is answered and is versioned; no other version changes |
| Artifacts.ArtifactStore.Seal | internal/core/artifacts.go:16-39 | what it returns is a sealing of the bytes and can be opened |
| Artifacts.ArtifactStore.OpenArtifact | internal/core/artifacts.go:40-64 | opens exactly what Open allows: right key, right identity, pinned version unaltered, within the bound |
| StateBackend.Project.GetState | internal/core/managed_state.go:139-157 | answers with the bytes of the register's document, or 404 exactly if there is none, as long as the stored bytes are readable, and with an error otherwise |
| StateBackend.Project.LockState | internal/core/managed_state.go:158-170 | answers and acts as the register's Lock |
| StateBackend.Project.UnlockState | internal/core/managed_state.go:171-183 | answers and acts as the register's Unlock |
| StateBackend.Project.Screen | internal/core/managed_state.go:184-197 | decides as the register does whether a write is refused, repeated or new |
| StateBackend.Project.StoreState | internal/core/managed_state.go:198-211 | seals and records the document exactly if id, index and object store do their part, and otherwise leaves no trace in the register |
| StateBackend.Project.PostState | internal/core/managed_state.go:184-212 | answers and acts as the register's Post or fails without effect; history is only appended to |
| StateBackend.Project.AutomationState | internal/core/managed_state.go:115-213 | every answered request is the register's own answer, every other one leaves the register alone; exactly which requests are denied or invalid, and when a failure is possible |
| StateBackend.Project.PointerIsValid | internal/database/managed_state.sql.go:225-227 | the integrity check of the project row against its history never reports a project |
| NotificationRuns.OneAttemptInFlight | internal/core/notifications.go:376-389 | an attempt row is in flight exactly when the delivery is being sent, and then only the last one |
| NotificationRuns.StaleWorkerIsHarmless | internal/core/notifications.go:456-458 | a superseded or expired worker records nothing |
| NotificationRuns.BudgetHolds | internal/core/notifications.go:408-410 | the claims between two redeliveries make at most eight calls, over any run |
| NotificationRuns.BudgetAndStragglers | internal/core/notifications.go:408-410 | counted by time, at most eight and one more for each older claim that only calls then |
| NotificationRuns.RedeliveryStaysInBudget | internal/core/notifications.go:336-350 | a redelivery is sure to stay within eight calls if and only if no earlier claim within budget is undecided |
| NotificationRuns.StragglersExist | internal/core/notifications.go:396-450 | a run in which a redelivery exceeds eight calls |
| NotificationRuns.NoLostAttemptInBudget | internal/core/notifications.go:336-350 | a redelivery made while no attempt row is uncertain stays within eight calls |
| NotificationRuns.LostAttemptMayOvershoot | internal/core/notifications.go:336-350 | with an uncertain attempt of a claim within budget, a run that leaves the very same rows exceeds it |
| NotificationCodes.ClaimsIff | internal/database/notifications.sql.go:50-51 | a delivery is claimed exactly if it is due or the minute of its worker is over |
| NotificationCodes.CallsIff | internal/core/notifications.go:396-432 | the destination is called exactly if it is on, unchanged and verified, or under verification in time, and the budget is not spent |
| NotificationCodes.RecordsIff | internal/core/notifications.go:451-470 | a verdict is recorded, in delivery and attempt row together, exactly under the current claim in time and with a possible code |
| NotificationCodes.RemovalCancels | internal/database/notifications.sql.go:35-37 | removing a destination cancels a pending delivery and forgets its challenge |
| NotificationCodes.RedeliversIff | internal/core/notifications.go:327-356 | exactly a settled delivery to an unchanged, verified destination is sent anew |
| NotificationCodes.DelayDoubles | internal/core/notifications.go:465-465 | the wait doubles from a minute |
| NotificationCodes.RetryWaits | internal/core/notifications.go:465-466 | a failed attempt is not claimed again before its wait is over |
| NotificationCodes.AttemptsAreCoded | internal/core/notifications.go:441-450 | over every run each settled attempt row is delivered exactly if its code is a success, and repeated exactly if it is neither a success nor a refusal before the eighth try |
| NotificationCodes.DeliveredWasAccepted | internal/core/notifications.go:443-446 | over every run a delivery is delivered only by a call of its last claim that was answered with a success |
| NotificationCodes.DeadWasRefused | internal/core/notifications.go:408-449 | over every run it is given up on only after a refusal, a spent budget, or without a call |
| NotificationRecord.Judge | internal/core/notifications.go:396-450 | sends exactly when no gate refuses; then delivered, repeated or given up on by the response code and the budget |
| NotificationRecord.Record.ClaimDelivery | internal/core/notifications.go:376-389 | refines Claim: a due delivery, its lost attempts given up and a new one in flight |
| NotificationRecord.Record.CallDestination | internal/core/notifications.go:396-450 | refines Decide: the verdict is recorded nowhere but with the worker |
| NotificationRecord.Record.FinishDelivery | internal/core/notifications.go:451-470 | refines Finish: delivery and attempt row together, under the fence |
| NotificationRecord.Record.RedeliverNotification | internal/core/notifications.go:327-356 | refines Redeliver: accepted exactly for a settled operational delivery to an unchanged, verified destination |
| NotificationRecord.Record.DestinationRemoved | internal/database/notifications.sql.go:35-37 | refines RemoveDestination: pending deliveries are canceled, challenges forgotten |

## Left out

- Requesting an operation: the validation in `requestOperation` and `requestCreation`; every row they can insert is covered by `Operations.Created`.
- Other unique indexes on operations (names of pending creations, snapshots, volumes): they only reject further inserts.
- OperationTable.OneBusyOperation: the index itself is taken as the database's; what is proved is that no step moves a row around it, including the binding of a created resource.
- Detail texts, audit events and notifications written as side effects of operations, schedules and scans.
- Between authorisation and call: a provider or destination call is identified with its authorisation; how long the call itself takes is not modelled.
- Cron parsing, the horizon of its search and the time zone database: `Rule` and `Zone` keep what is assumed of them. Offsets with seconds are excluded.
- Validation of schedule specifications, and the comparison of local times as text: slots compare by wall time and action, which is the order of the texts for years of four digits.
- Which schedule, batch, scan or delivery a worker picks first, and skipping of locked rows: any due one may be claimed.
- Delays between export rounds (`next_batch_at`) and backlog warnings.
- AuditExport.BuildArchive: an event's content is what `exportDetails` lets through and the encoding makes of it; the allowlist itself is not modelled.
- Discovery.Lawful: a read of the provider is taken to be consistent with everything it has answered before the read began; an eventually consistent provider is not covered.
- The inventory row of a native identity: the lookup from an operation's connection, kind, region and native id to it is a parameter (`Place`).
- The first transaction of a scan (permissions, credential, runtime): its failure is a scan without a result.
- Tag updates of the inventory by operations.
- Parsing of state files and of lock bodies, session lookup, and the ownership index beyond its success or failure.
- Notification subscriptions, grouping and payloads; destinations enter as facts.
- Wrap-around of 64-bit counters: serials, ids, revisions and attempts are unbounded integers.
- Liveness: nothing here says that a worker is ever scheduled.
