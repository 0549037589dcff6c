# A verified model of the event-sourced loan ledger

This project models the event-sourcing engine of the loan ledger and proves what its mechanisms promise each other: the
append-only store, the command handlers with their aggregates, the projection daemon and its read models, and the derived
mechanisms (snapshots, hash chain, outbox, retries, upcasting, what-if replay, the compliance and decision agents).
`dafny verify dfyconfig.toml` checks all of it.

## How the model is laid out

- **Log.** `EventLog` is the pure specification of one committed append or archive over the events, event_streams and
  outbox tables. `Store` is the store as the code runs it, a class over those tables proved against `EventLog`. What the
  database fills in (primary key, identity column, clock) arrives as a `Stamp` parameter. `InMemoryStore` is the second
  store, with its own zero-based rules.
- **Commands.** `LoanApplication`, `AgentSession` and `ComplianceRecord` are the aggregates: a class whose methods
  update its fields, proved against a fold over the stream. `Commands` says when an event on a loan stream is justified by
  the log before it. `Handlers` holds the handlers as methods: load, validate, append. Other writers act at every `await`;
  `Await` and `Interfere` stand for that point, and callers know of them only what their contracts say, namely that the log was
  extended. `HandlerRuns` states the results over every history of commits.
- **Projections.** `Daemon` is the daemon's batch as methods; `DaemonRuns` is the same daemon as a machine of small
  steps, each attempt at a delivery one of them, with growth, crashes and rebuilds in between, and `BatchRefinesSteps` ties
  the two together. `ApplicationSummary`, `ComplianceAudit` (with `Like` for the SQL operator) and `AgentPerformance` are the read models.
  `CaughtUpSummary` composes daemon, table and aggregate; `ComplianceAuditRuns` runs the compliance view behind the daemon,
  statement by statement, up to its temporal query, and `ComplianceAuditAnswers` says exactly when that query stays right.
  `LogSegments` holds what batches load as segments of the log, `OwedVerdicts` what a table still lacks against the log.
  `WrittenEvents` sets the events of the writers against what every reader makes of them.
- **The rest.** `Upcasting`, `AuditChain` with `AuditRuns` for checks that overlap, `Outbox`, `OccRetry`, `WhatIf`,
  `ComplianceAgent`, `DecisionOrchestrator`.

JSON payloads are maps from keys to values, so a missing key and a null differ exactly where the code tells them apart.
A Python exception is a value: `null` or `false` for a `KeyError`, `AppendResult` for the store's errors, `Raises` for a
failing projection handler.

## Where the code and its description part

Each of these is a result below, with the exact condition under which the described behaviour holds.

- An expected version of -1 is a wildcard on existing streams too, so submitting an application or starting a session again is
  accepted and resets the state, although the docstring of the submit handler promises a `DomainError`
  (`Commands.ResubmissionResets`).
- A failing event is not always skipped after its retries: it is passed over if and only if a later event of the same batch
  succeeds, and one projection whose fetched events all fail holds the others back
  (`Daemon.PassedOverOnlyBehindSuccess`, `Daemon.BatchProgressExactly`).
- A rebuild while a batch is in flight can lose events for good (`DaemonRuns.RebuildSafeExactly`).
- `application_summary` ignores FraudScreeningRequested while the aggregate does not; they agree if and only if the
  event occurs in ANALYSIS_COMPLETE (`ApplicationSummary.SummaryAgreesExactly`).
- `get_compliance_at` puts the application id into a LIKE pattern, so its answer is right on every run that makes no missing
  verdict permanent if and only if the id holds no `%`, `_` or backslash (`ComplianceAuditAnswers.AnswersAgreeExactly`). For
  such an id a rebuild keeps the answers right if and only if nothing was in flight, everything it forgets is said again
  by the events still to be delivered, or no snapshot of the application can come before the first event the
  handler never accepts (`ComplianceAuditAnswers.RebuildExactly`); skipped events likewise, if and only if they were
  the whole rest of the batch, nothing they say is missing, or no such snapshot can come
  (`ComplianceAuditAnswers.SkipsExactly`).
- `avg_confidence_score` divides by all analyses, null scores included (`AgentPerformance.ConfidenceIsMeanExactly`), and an
  analysis or decision delivered twice is counted twice (`AgentPerformance.RedeliveryCountsTwiceExactly`).
- `tamper_detected` is false on every path; tampering shows only at the prefix comparison
  (`AuditChain.TamperingShowsAtComparison`).
- A publish inside a transaction that rolls back can go out again: a rollback is harmless if and only if its transaction
  had not really published the row or the publishers cannot publish it again (`Outbox.RollbackSafeExactly`,
  `Outbox.RollbackRepublishes`).
- Integrity checks that overlap can fork the chain: the audit stream's version is read after the last check was looked up
  (`AuditRuns.LinksExactly`, `AuditRuns.OverlapForks`).
- What-if replay drops direct dependents of the branch only (`WhatIf.SplitFollowsCausationExactly`).
- The orchestrator sends some BLOCKED applications to a person instead of declining them
  (`DecisionOrchestrator.ApplyConstraints`).
- The in-memory store does not stand in for the database store (`InMemoryStore.StoresAnswerAlikeExactly`), and a batch that
  breaks off leaves its first events stored with the version unmoved (`InMemoryStore.AppendAgreesExactly`).

## Model

| member | source | states |
|---|---|---|
| EventLog.RunKeepsStoreInvariant | src/event_store.py:62-238 | over every run of appends and archives, accepted or refused: each stream's positions are 1..current_version, every event has its stream row, outbox rows match events one to one in order, global positions ascend, ids are distinct, old events stay |
| EventLog.OneWinnerPerVersion | src/event_store.py:133-149 | among the non-empty appends of a run with the same stream and the same expected version >= 0 at most one succeeds |
| EventLog.ArchivedIsFrozen | src/event_store.py:129-142 | an archived stream keeps its contents and version whatever is attempted on it |
| EventLog.ExactVersionMeansUnchanged | src/event_store.py:139-149 | an append at a version read earlier succeeds only if the stream is exactly as it was then |
| EventLog.TwoLooksAreAtomic | src/event_store.py:94-149 | the append that first finds no stream row and looks again after creating it behaves as one atomic append or as the refusal of one |
| EventLog.AppendStream | src/event_store.py:192-216 | a successful append adds its numbered rows to the end of its own stream and leaves every other stream alone |
| EventLog.AppendKeepsSound | src/event_store.py:62-238 | one append keeps the store invariant and extends the ledger |
| EventLog.ArchiveKeepsSound | src/event_store.py:349-359 | archiving keeps the store invariant and extends the ledger |
| EventLog.AppendKeepsOrdered | src/event_store.py:192-209 | with fresh database stamps, global positions keep ascending and ids stay distinct |
| EventLog.OutboxTellsLog | src/event_store.py:218-236 | the outbox holds one message per event, for kafka-week-10, with the event's own payload and, unless the payload has values of its own there, its type and stream |
| EventLog.RunKeepsKinds | src/event_store.py:94-131 | over every run each stream row carries the part of the stream's name before its first hyphen as its aggregate type |
| EventLog.StreamPrefix | src/event_store.py:260-284 | a stream read later starts with what an earlier read returned |
| EventLog.LoadedVersionIsStreamVersion | src/event_store.py:192-216 | the position of the last event of a stream as loaded is the current version of the stream at the load |
| Events.StreamNames | src/aggregates/loan_application.py:96-100 | the names of loan, compliance and agent streams are their prefix and the ids they belong to |
| Store.EventStore.Append | src/event_store.py:62-240 | the append with its loops and tables computes the specified ledger and result, and keeps the invariant; each new row carries type, version, payload, id, time and the non-empty caller ids as handed in, at the next positions, with its message in the outbox |
| Store.EventStore.InsertRows | src/event_store.py:192-209 | the insertion loop writes one row per event at consecutive positions |
| Store.EventStore.QueueRows | src/event_store.py:218-238 | the outbox loop queues one message per inserted event, in order |
| Store.EventStore.StreamVersion | src/event_store.py:340-347 | the current version, 0 for an unknown stream |
| Store.EventStore.ArchiveStream | src/event_store.py:349-359 | archives a live stream; an unknown or already archived one is reported missing |
| Store.EventStore.LoadStream | src/event_store.py:244-284 | the upcast rows between two inclusive positions in stream order; without bounds the whole stream |
| Store.EventStore.LoadAll | src/event_store.py:286-334 | the paged scan terminates and yields exactly the events at or past the position of the wanted types, once and ascending; if the log grows meanwhile it yields all that was there at the start, then later ones, nothing twice |
| Store.PageStep | src/event_store.py:325-334 | one full page and the cursor behind it lose and repeat nothing, even when the log grew in between, and fewer matches remain |
| Store.PageBoundary | src/event_store.py:331-332 | behind the last row of a page are exactly the later matches |
| Upcasting.UpcasterRegistry.Upcast | src/upcasting/registry.py:55-67 | the loop terminates and returns the migrated event |
| Upcasting.RegisterTakesEffect | src/upcasting/registry.py:31-67 | registering a transform leaves every load alone whose walk does not come to its version; an event that was loaded as that version is now loaded as what the transform makes of it, walked on |
| Upcasting.UpcastEndsAtLeastUnregistered | src/upcasting/registry.py:55-67 | the walk ends at the least unregistered version at or above the stored one and touches only payload and version |
| Upcasting.UpcastAppliesTransformsInOrder | src/upcasting/registry.py:55-67 | the loaded payload is the stored one sent through every registered transform from its version on, each once, in order |
| Upcasting.UpcastIdempotent | src/upcasting/registry.py:55-67 | upcasting an upcast event changes nothing |
| Upcasting.UpcastKeepsKeys | src/upcasting/registry.py:55-67 | transforms that only add keys compose to a walk that only adds keys |
| Upcasting.RegisteredUpcast | src/upcasting/upcasters.py:30-61 | with the two registered transforms no stored key is dropped or changed; a first-version credit analysis gains the legacy model version, a null score and a null basis where it has none, a first-version decision an empty table of models, and nothing else changes |
| LoanApplication.LoanApplicationAggregate.ApplyEvent | src/aggregates/loan_application.py:108-185 | the event handlers update the fields as the fold step says, or fail on a missing key |
| LoanApplication.LoanApplicationAggregate.Load | src/aggregates/loan_application.py:96-106 | a load is the fold over the stored stream, and fails exactly when an event lacks a key it needs |
| LoanApplication.Replay | src/aggregates/loan_application.py:96-113 | the version of a replayed loan is the position of its last event, so by `EventLog.LoadedVersionIsStreamVersion` the version of the stream at the load |
| LoanApplication.LoanHoldsLatest | src/aggregates/loan_application.py:119-185 | state, flags, applicant, amounts, checks and sessions of a loan are those of the last events that carry them, or the defaults before there are any |
| LoanApplication.CompletedChecksExactly | src/aggregates/loan_application.py:150-153 | the completed checks are exactly the rules passed, each once |
| LoanApplication.ReplayIgnoresUpcasting | src/aggregates/loan_application.py:96-113 | replaying upcast events gives the loan, and the failures, of the stored ones |
| AgentSession.AgentSessionAggregate.ApplyEvent | src/aggregates/agent_session.py:58-90 | the event handlers update the fields as the fold step says, or fail on a missing model version |
| AgentSession.AgentSessionAggregate.Load | src/aggregates/agent_session.py:45-56 | a load is the fold over the stored session stream |
| AgentSession.LoadedContextHasEvent | src/aggregates/agent_session.py:69-74 | a session counts as loaded exactly when its stream holds a context load, and carries the model version of the last one |
| AgentSession.SessionHoldsLastContext | src/aggregates/agent_session.py:69-74 | loaded flag, model version, token count and source are those of the last context load |
| AgentSession.SessionHoldsLastDecision | src/aggregates/agent_session.py:75-90 | the last decision is the type of the last analysis or decision of the session, none before there is one |
| AgentSession.ProcessedExactly | src/aggregates/agent_session.py:75-86 | the applications processed are exactly those some analysis or screening names, each once |
| AgentSession.Replay | src/aggregates/agent_session.py:45-67 | the version of a replayed session is the position of its last event |
| ComplianceRecord.ComplianceRecordAggregate.ApplyEvent | src/aggregates/compliance_record.py:53-78 | the event handlers update the verdict tables as the fold step says, or fail on a missing key |
| ComplianceRecord.ComplianceRecordAggregate.Load | src/aggregates/compliance_record.py:41-51 | a load is the fold over the stored compliance stream |
| ComplianceRecord.ComplianceRecordAggregate.AssertAllRequiredChecksPassed | src/aggregates/compliance_record.py:84-111 | the assertion's outcome: nothing requested, the missing checks in order, the failed rules, or clear |
| ComplianceRecord.Replay | src/aggregates/compliance_record.py:41-62 | the version of a replayed record is the position of its last event |
| ComplianceRecord.RecordHoldsLastVerdicts | src/aggregates/compliance_record.py:63-78 | a rule is in the failed table exactly when its last verdict is Failed, and in the passed one when it is Passed |
| ComplianceRecord.RecordHoldsLatest | src/aggregates/compliance_record.py:67-78 | the tables carry the version of a rule's last pass and the reason of its last failure |
| ComplianceRecord.ClearanceIsExact | src/aggregates/compliance_record.py:84-111 | the check clears iff something was required, every required rule's last verdict is Passed and no rule's last verdict is Failed |
| Commands.AppendAfterLoad | src/commands/handlers.py:228-242 | an event appended at a loaded version lands right behind exactly the events that were loaded |
| Commands.RefusedMeansMoved | src/event_store.py:139-149 | an append at an exact version is refused only on a stream that was archived or has another version |
| Commands.CreditAppend | src/commands/handlers.py:195-242 | an accepted analysis keeps every guarded event of the log justified, whatever happened since the loads |
| Commands.DecisionAppend | src/commands/handlers.py:383-446 | an accepted decision keeps every guarded event justified |
| Commands.ReviewAppend | src/commands/handlers.py:449-482 | an accepted review keeps every guarded event justified |
| Commands.FraudRequestFollowsAnalysis | src/commands/handlers.py:239-258 | the fraud request of the credit handler lands on a loan in ANALYSIS_COMPLETE, whatever other writers did meanwhile |
| Commands.WildcardAppend | src/event_store.py:133-149 | an append at -1 succeeds on every stream that is not archived, existing or not |
| Commands.ResubmissionResets | src/commands/handlers.py:145-168 | submitting again is accepted unless the stream is archived and puts the loan back to SUBMITTED |
| Commands.SessionStarts | src/commands/handlers.py:171-192 | starting a session is accepted unless its stream is archived, and the session is then loaded with the given model |
| Commands.AtMostOneCreditAnalysis | src/aggregates/loan_application.py:223-234 | a guarded loan stream never holds two credit analyses |
| Commands.CountsOfGuardedStates | src/aggregates/loan_application.py:158-221 | over guarded states, reviews <= decisions <= clearances, strictly while the loan awaits one |
| Commands.ReviewsDecisionsClearances | src/aggregates/loan_application.py:158-264 | in every prefix of a guarded loan stream reviews <= decisions <= clearances |
| Handlers.HandleSubmitApplication | src/commands/handlers.py:145-168 | the next version, or the archived error exactly on an archived stream; the submission is in the log field by field, and the loan is then SUBMITTED with its applicant and amount |
| Handlers.HandleStartAgentSession | src/commands/handlers.py:171-192 | the next version, or the archived error exactly on an archived stream; the context load is in the log field by field, and the session is then loaded with the given model |
| Handlers.HandleCreditAnalysisCompleted | src/commands/handlers.py:195-258 | under interference at every await: refused exactly with the first guard that fails on the loan as read first and the session as read after it; by the store only if the loan stream has moved, with nothing written, or with the analysis right behind the version read and kept there when it is the fraud request that is refused; on success both events are in the log, field by field as the command gives them, at the two versions behind the one read; the log stays guarded |
| Handlers.BothWritten | src/commands/handlers.py:231-258 | the analysis written behind the version read still stands there at the end, whatever was appended in between and whether the fraud request landed behind it or was refused |
| Handlers.HandleFraudScreeningCompleted | src/commands/handlers.py:261-316 | refused exactly with the first of the session guards and the range check of the score that fails; then by the store only if the session stream has moved; else the screening with its score is right behind the version read and stays, and the compliance request decides the result; the log stays guarded |
| Handlers.CheckScreening | src/commands/handlers.py:270-281 | what refuses before anything is written: the session guards on the session as loaded, then the validator of the event (src/models/events.py:235-240) for a score outside 0 to 1 |
| Handlers.RequestCompliance | src/commands/handlers.py:298-316 | an unloadable loan refuses and a loan in COMPLIANCE_REVIEW answers its version, and nothing is written; from every other state one request for AML-001 and KYC-002 lands at the next version, or is refused because the loan stream has moved |
| Handlers.HandleRequestComplianceCheck | src/commands/handlers.py:319-343 | idempotent in COMPLIANCE_REVIEW, refused exactly outside it and ANALYSIS_COMPLETE, else one request with the checks of the command at the next version unless the stream has moved |
| Handlers.HandleRecordComplianceRule | src/commands/handlers.py:346-380 | refused exactly for a rule outside the required set; else the pass with its evidence, or the failure with its reason and remediation, at the next version of the compliance stream unless that has moved |
| Handlers.LoanSessions | src/commands/handlers.py:407-414 | exactly the sessions that events of the loan stream name |
| Handlers.NamesApplication | src/commands/handlers.py:419-423 | whether an event of the session's own stream names the application |
| Handlers.SessionsWithDecisions | src/commands/handlers.py:405-426 | every session collected has left an event naming the application, and no contributing session is missed that had left one at the start |
| Handlers.InvalidSessions | src/aggregates/loan_application.py:266-280 | the sessions nothing vouches for, and none exactly when all are vouched for |
| Handlers.HandleGenerateDecision | src/commands/handlers.py:383-446 | refused exactly with the first of: unloadable loan, the loan guards, a broken chain (every session it names lacked an event about the application when the scan began, every other one has left one by the end), an unknown recommendation, a confidence outside 0 to 1; by the store only if the loan stream has moved; on success the decision is at the next version with the recommendation, score, sessions and models of the command, every session is vouched for, and the loan is APPROVED_PENDING_HUMAN exactly for APPROVE, else DECLINED_PENDING_HUMAN |
| Handlers.HandleHumanReviewCompleted | src/commands/handlers.py:449-482 | refused exactly when the loan awaits no review or an override lacks its reason; by the store only if the stream has moved; on success the review with its reviewer and final decision is in the log at the version behind the one read, which is returned, and the loan is finally approved exactly for APPROVED or APPROVE, else declined |
| HandlerRuns.EveryHistoryIsSafe | src/commands/handlers.py:145-482 | over every interleaving of the guarded handlers with any other writers, every credit analysis, decision and review was justified by the log before it |
| HandlerRuns.OneVouchedCreditAnalysis | src/aggregates/loan_application.py:223-234 | in every history a loan stream holds at most one credit analysis, and a context load of its session with that model version (or none) comes earlier in the log |
| HandlerRuns.DecisionsAreClearedAndVouched | src/aggregates/loan_application.py:236-280 | in every history reviews <= decisions <= clearances, each decision respects the confidence floor, and each contributing session left an earlier event about the application |
| ApplicationSummary.ApplicationSummaryProjection.HandleEvent | src/projections/application_summary.py:41-323 | each handler inserts or updates the row as the specification says; an event is taken exactly when the keys its handler reads are there and every value fits its column (src/schema.sql:94-110), type by type, and raises otherwise without touching the table |
| ApplicationSummary.HandleIdempotent | src/projections/application_summary.py:62-276 | delivering an event twice in a row is delivering it once |
| ApplicationSummary.ColumnsHoldLatest | src/projections/application_summary.py:62-323 | an application has a row exactly when a submission was delivered, every column but the state holds the value of the last event that reached the row and carries one, and the sessions column exactly the sessions some analysis names |
| ApplicationSummary.HandleIgnoresUpcasting | src/projections/application_summary.py:62-276 | the registered upcasters are invisible to the table |
| ApplicationSummary.OneEventKeepsAgreement | src/projections/application_summary.py:89-323 | agreement of table and aggregate survives an event iff it is off the loan stream or occurs in step |
| ApplicationSummary.SummaryAgreesExactly | src/projections/application_summary.py:62-323 | over a routed log whose deliveries raise nothing, row and aggregate of an application agree throughout iff every loan event occurs in step: a fraud request only in ANALYSIS_COMPLETE, others only after a submission |
| ApplicationSummary.FraudRequestDiverges | src/aggregates/loan_application.py:131-140 | a fraud request in COMPLIANCE_REVIEW makes the aggregate say ANALYSIS_COMPLETE and the table COMPLIANCE_REVIEW |
| WrittenEvents.SubmissionIsShown | src/projections/application_summary.py:62-87 | a submission of the handler gives the application a row with its applicant and amount |
| WrittenEvents.AnalysisIsShown | src/projections/application_summary.py:89-141 | an analysis of the handler moves an existing row to ANALYSIS_COMPLETE with its tier and adds its session |
| WrittenEvents.ScreeningIsShown | src/projections/application_summary.py:143-162 | a screening of the handler sets the fraud score of an existing row and nothing of its state |
| WrittenEvents.DecisionIsShown | src/projections/application_summary.py:185-208 | a decision of the handler sets decision and state of an existing row |
| WrittenEvents.ReviewIsShown | src/projections/application_summary.py:210-234 | a review of the handler sets reviewer, time and final state of an existing row |
| WrittenEvents.RequestedChecksAreRequired | src/aggregates/compliance_record.py:63-65 | the checks a handler requests are the checks record and loan then require |
| WrittenEvents.AnalysisIsCounted | src/projections/agent_performance.py:74-128 | an analysis of the handler is counted for its agent and model with its duration and score |
| WrittenEvents.DecisionIsCounted | src/projections/agent_performance.py:130-166 | a decision of the handler is counted for its orchestrator under the model the command names for it |
| WrittenEvents.AnalysisIsReplayed | src/what_if/projector.py:217-231 | a flat counterfactual analysis leaves its own figures in the replayed outcome |
| CaughtUpSummary.SummaryIsIdempotent | src/projections/application_summary.py:62-276 | the projection as the daemon drives it, upcasting included, is idempotent on immediate redelivery |
| CaughtUpSummary.SummaryIsFold | src/projections/application_summary.py:41-60 | the table the daemon builds is the fold of the handlers over the log |
| CaughtUpSummary.CaughtUpTableAgrees | src/projections/daemon.py:96-149 | after any run in which its own handler does not fail, crashes included, a caught-up application_summary shows the aggregate's state for every application whose loan events occurred in step |
| Daemon.ProjectionDaemon.HandleWithRetry | src/projections/daemon.py:154-190 | up to three attempts; an error row exactly when all fail |
| Daemon.ProjectionDaemon.DriveProjection | src/projections/daemon.py:128-149 | each relevant event delivered in order; the checkpoint follows successes only |
| Daemon.ProjectionDaemon.ProcessBatch | src/projections/daemon.py:96-149 | one batch from the slowest position takes every projection through exactly the fetched events it still needs |
| Daemon.ProjectionDaemon.RebuildProjection | src/projections/daemon.py:275-293 | empties one table and its checkpoint and leaves the other projections alone; an unknown name is an error |
| Daemon.MinPositionIsLeast | src/projections/daemon.py:111-115 | the batch starts at the least next position of all projections |
| Daemon.PassedOverOnlyBehindSuccess | src/projections/daemon.py:136-149 | a batch passes over an event iff it or a later event of the batch was handled; so a failing event is skipped only behind a success |
| Daemon.CheckpointStaysBelow | src/projections/daemon.py:140-143 | a checkpoint moves only to positions of delivered events and never back |
| Daemon.BatchProgressExactly | src/projections/daemon.py:108-149 | a non-empty batch leaves fewer events behind the slowest projection iff every projection still needing the first fetched event handles some fetched event |
| DaemonRuns.NoGapEver | src/projections/daemon.py:96-215 | over every run with failing attempts, crashes and rebuilds, also between two attempts at one event, each event at or below a checkpoint was handled or has an error row; if rebuilds came at safe moments, since the table was last emptied |
| DaemonRuns.CheckpointsOnlyRise | src/projections/daemon.py:200-215 | a checkpoint moves back only when its own projection is rebuilt |
| DaemonRuns.RebuildSafeExactly | src/projections/daemon.py:275-293 | a rebuild loses nothing on any continuation iff the projection has nothing in flight or every event before what is in flight has its error row |
| DaemonRuns.UnsafeRebuildLoses | src/projections/daemon.py:275-293 | after any other rebuild the steps that reach a gap are given |
| DaemonRuns.CaughtUpIsFold | src/projections/daemon.py:96-149 | after any run in which a projection's handler does not fail and its rebuilds are safe, if the handler is idempotent or nothing crashed, its table when caught up is the fold of the whole log, whatever the other projections do |
| DaemonRuns.RunKeepsExact | src/projections/daemon.py:136-143 | however far the projection lags, its table is the fold of the events up to its checkpoint, or after a crash of at most one more |
| DaemonRuns.Drains | src/projections/daemon.py:82-90 | from any moment between two batches finitely many batches leave every projection caught up |
| DaemonRuns.RebuildThenDrainRestores | src/projections/daemon.py:275-293 | rebuilding any table between two batches and draining brings every such projection, the rebuilt one included, to the fold of the whole log |
| LogSegments.LoadIsSegment | src/projections/daemon.py:117-134 | what a batch hands to one projection is the run of events right past its checkpoint |
| LogSegments.BatchLoadsFirstThousand | src/projections/daemon.py:117-127 | a batch loads the first thousand events from its position on, all of them if there are no more |
| DaemonRuns.BatchRefinesSteps | src/projections/daemon.py:96-190 | from every reachable state at rest the small steps of a whole batch, attempt by attempt and projection by projection, leave each table and checkpoint where the batch loop leaves them, whatever fails |
| Like.LikeIsEqualityExactly | src/projections/compliance_audit.py:136-149 | a LIKE pattern selects exactly the name it spells iff it holds no wildcard and no escape |
| Like.SignsMean | src/projections/compliance_audit.py:136-149 | % stands for any text, _ for any one character, an escaped character for itself |
| ComplianceAudit.ComplianceAuditViewProjection.HandleEvent | src/projections/compliance_audit.py:61-77 | a verdict is taken exactly with text keys, a text or null evidence or reason, and a remediation flag that is boolean, null or absent; its row then reads PASSED or FAILED with these columns (remediation true when absent), keeps those of the other status, and no other row changes; every event naming an application is counted, each hundredth leaves a snapshot of its rows; what is not taken raises and changes nothing |
| WrittenEvents.RecordedRuleIsShown | src/projections/compliance_audit.py:180-230 | a rule recorded by the handler is taken whatever the view held, and its row reads what was recorded; the compliance record files it in the same way |
| WrittenEvents.AgentVerdictIsShown | src/agents/compliance_agent.py:203-250 | a verdict of the compliance agent is taken too, a failure as one to be remedied |
| ComplianceAudit.ReplayClears | src/projections/compliance_audit.py:273-300 | a replayed verdict leaves exactly its own columns and clears those of the other status |
| ComplianceAuditRuns.HeldIsFaithful | src/projections/compliance_audit.py:245-271 | a snapshot written from rows read earlier holds, with the events up to its writing, what the log held then, also when a rebuild or new events came in between |
| ComplianceAuditRuns.RebuildCovers | src/projections/compliance_audit.py:79-82 | emptying the tables while a batch is in flight leaves the view on its way to being right iff nothing was in flight or every rule with a forgotten verdict has one among the events still to be delivered |
| ComplianceAudit.ComplianceAuditViewProjection.NearestSnapshot | src/projections/compliance_audit.py:116-126 | the latest snapshot of the application taken by the timestamp, if any |
| ComplianceAudit.ComplianceAuditViewProjection.GetComplianceAt | src/projections/compliance_audit.py:100-161 | the answer is the nearest snapshot with the delta events applied |
| ComplianceAudit.UpsertIdempotent | src/projections/compliance_audit.py:180-230 | an upsert delivered twice is delivered once |
| ComplianceAudit.ViewIsReplay | src/projections/compliance_audit.py:180-230 | the rows of an application say what replaying its compliance stream says, on status, version and the fields of that status |
| ComplianceAuditRuns.StepsAreHandle | src/projections/compliance_audit.py:61-77 | the small steps of the machine, undisturbed, do what the handler does |
| ComplianceAuditRuns.SkipCovers | src/projections/daemon.py:136-158 | skipping the first event in flight leaves the view on its way to being right iff it was the last one, its upsert had gone through, or it says nothing that the table or a later event does not say |
| ComplianceAuditRuns.RunKeepsConsistent | src/projections/daemon.py:97-158 | over every run of appends, deliveries statement by statement, retries, skips, abandoned batches, crashes and rebuilds in which no checkpoint is saved and no snapshot of the application taken while a verdict about it is missing, every snapshot of the application is right and the events behind the checkpoint would make the view right |
| ComplianceAuditRuns.CarefulIsLossless | src/projections/daemon.py:97-158 | if every rebuild and skip of a run leaves the view on its way to being right, nothing is ever missing when a checkpoint is saved or a snapshot taken |
| ComplianceAuditRuns.QueryIsReplay | src/projections/compliance_audit.py:100-161 | on every such run, whichever snapshots exist, whichever usable one is chosen, whatever happens between its choice and the delta query and however far the daemon lags, the answer for a plain id gives every named rule the verdict of a full replay of the events recorded by the timestamp |
| ComplianceAuditAnswers.AnswersAgreeExactly | src/projections/compliance_audit.py:136-149 | the answers agree with full replay on every run that makes no missing verdict permanent iff the application id holds no wildcard and no backslash |
| ComplianceAuditAnswers.StaysRightExactly | src/projections/daemon.py:136-190 | whatever a run has passed over or forgotten so far, all later answers about a plain id stay right iff it is empty, nothing is missing, or no snapshot of the application can come before the first event the handler never accepts |
| ComplianceAuditAnswers.RebuildExactly | src/projections/daemon.py:275-293 | a rebuild at any moment keeps all later answers about a plain id right iff it is empty, nothing was in flight, every rule with a verdict before the events still to be delivered has another among them, or no snapshot of the application can come before the first event the handler never accepts |
| ComplianceAuditAnswers.CoveredExactly | src/projections/daemon.py:136-158 | the events still to be delivered make the view right iff every rule with a verdict before them has another among them or the table says what its last one says |
| ComplianceAuditAnswers.SkipsExactly | src/projections/daemon.py:136-158 | the first k events in flight skipped one after the other keep all later answers about a plain id right iff it is empty, they were the whole rest of the batch, nothing they or earlier events say is missing from both the table and the later events, or no snapshot of the application can come before the first event the handler never accepts |
| ComplianceAuditRuns.SafeMomentIsCareful | src/projections/daemon.py:275-293 | a rebuild with nothing in flight, or nothing before what is in flight, loses nothing about any application |
| ComplianceAuditAnswers.RightOnEveryRunExactly | src/projections/daemon.py:275-293 | with rebuilds and skips at any moment, only the application without a name is answered rightly on every run |
| ComplianceAudit.FailedRowsAgree | src/aggregates/compliance_record.py:67-78 | the FAILED rows of the table are exactly the failed checks of the compliance record of the same stream |
| AgentPerformance.AgentPerformanceLedgerProjection.HandleEvent | src/projections/agent_performance.py:32-166 | an event is taken exactly when its agent and model are text, with the code's defaults, and its figures are numbers or missing; it then moves the row of that agent and model and no other: one analysis with its duration and score, or one decision with its recommendation; unusable keys raise before the table is touched, unusable figures when the row is already ensured |
| AgentPerformance.AgentPerformanceLedgerProjection.EnsureRow | src/projections/agent_performance.py:46-64 | inserts a fresh row or leaves the counters of the existing one |
| AgentPerformance.RowDependsOnItsEvents | src/projections/agent_performance.py:66-166 | each row depends on the log only through the events attributed to its agent and model |
| AgentPerformance.EveryRowTells | src/projections/agent_performance.py:66-166 | in the table of every log a key has a row exactly when some event names it, and its counters, averages and rates are the statistics of the events that name it |
| AgentPerformance.DurationIsMean | src/projections/agent_performance.py:89-128 | avg_duration_ms is the mean over all analyses, a missing duration counted as zero |
| AgentPerformance.RatesAreFractions | src/projections/agent_performance.py:135-166 | the three rates are the exact fractions of the decisions |
| AgentPerformance.RatesSumToOneExactly | src/projections/agent_performance.py:135-166 | the rates sum to one iff every recommendation is one of the three |
| AgentPerformance.ConfidenceColumn | src/projections/agent_performance.py:92-128 | the confidence column of a row is the running average over its scores in order, null where an analysis had none |
| AgentPerformance.ConfidenceStaysWithin | src/projections/agent_performance.py:92-110 | avg_confidence_score stays within the range of the non-null scores and is null exactly without any |
| AgentPerformance.ConfidenceIsMeanExactly | src/projections/agent_performance.py:92-128 | for scores of a given null pattern the column is always their mean iff there is at most one score or no null before the last score |
| AgentPerformance.RedeliveryCountsTwiceExactly | src/projections/agent_performance.py:32-166 | a redelivered event is harmless iff it raises or is neither an analysis nor a decision |
| AuditChain.ChainHashFromPrev | src/integrity/audit_chain.py:178-183 | the loop chains the digests onto a previous hash |
| AuditChain.RecomputeFullChain | src/integrity/audit_chain.py:166-175 | the loop computes the full chain of a list of events |
| AuditChain.FindLastCheck | src/integrity/audit_chain.py:64-72 | the last integrity check of the audit stream |
| AuditChain.ComputeCheck | src/integrity/audit_chain.py:78-118 | incremental or rebaselined, every path records the full chain of the stream just read and reports no tampering |
| AuditChain.RunIntegrityCheck | src/integrity/audit_chain.py:41-163 | with other writers between its loads and its append, the appended check carries the count and full chain of the entity's stream as first read (the loan or compliance stream for these entities), links to the last check as then read, and lands right behind the audit stream as read for the version |
| AuditChain.ChainFromPrefix | src/integrity/audit_chain.py:104-112 | chaining the tail from the prefix's chain is recomputing over the whole stream |
| AuditChain.EqualChainsEqualTexts | src/integrity/audit_chain.py:166-175 | equal chains mean equal payload texts, or two colliding SHA-256 inputs are exhibited |
| AuditChain.LinkIsPrefixChain | src/integrity/audit_chain.py:78-118 | whether the comparison holds or not, the link is the chain of the events that the last check covered and this check has read |
| AuditChain.VerifiedByRecord | src/integrity/audit_chain.py:86-92 | the count of the last check is taken up to the number of events there are; a missing one, one that is no number and a negative one count as zero |
| AuditRuns.RunKeepsRecorded | src/integrity/audit_chain.py:41-134 | over every interleaving of checks with each other and with new events each check records count and full chain of a prefix and links to the last check it had found |
| AuditRuns.LinksExactly | src/integrity/audit_chain.py:66-134 | however checks overlap, a check points at the one before it iff the events it had read and the check it had found had covered are as many as that one covered, unless a SHA-256 collision is exhibited |
| AuditRuns.RunIsLinked | src/integrity/audit_chain.py:66-134 | if no check was appended between the look for the last check and the load of the version, and none read older events than the check before it, every previous_hash is the integrity_hash before it |
| AuditRuns.OverlapForks | src/integrity/audit_chain.py:66-134 | a run in which two overlapping checks both land and the second has no previous hash |
| AuditChain.TamperingShowsAtComparison | src/integrity/audit_chain.py:86-118 | if a verified payload changed or was removed the comparison fails or a collision is exhibited; if none did it holds; the flag stays false either way |
| Outbox.OutboxPublisherDaemon.ProcessBatch | src/outbox/daemon.py:97-178 | one committed batch sends as many open rows as it takes, in creation order, leaving none behind that is older than one sent; each row sent has one attempt more and is published exactly if the broker took it and this is no dry run, every other row is as it was, and successes and failures are counted |
| Outbox.OldestGoesOut | src/outbox/daemon.py:103-118 | the oldest open row goes out first in every batch |
| Outbox.OutboxPublisherDaemon.PublishRows | src/outbox/daemon.py:125-178 | the loop over the locked rows updates each once and counts successes and failures |
| Outbox.OutboxPublisherDaemon.PublishRow | src/outbox/daemon.py:127-178 | one publish call and the update that follows it |
| Outbox.EmptyBatchMeansSettled | src/outbox/daemon.py:105-121 | a batch finds nothing exactly when every row for the destination is published or exhausted |
| Outbox.BatchShrinksWork | src/outbox/daemon.py:97-178 | every non-empty batch strictly decreases the publish calls eligible rows may still cost |
| Outbox.OutboxDrains | src/outbox/daemon.py:85-178 | a fixed outbox settles within as many batches as there is work, whatever succeeds or fails |
| Outbox.PublishingBalances | src/outbox/daemon.py:97-178 | over every run of several publishers with disjoint locks, calls and real successes equal attempt counters and publications plus what was rolled back |
| Outbox.AtMostOncePublished | src/outbox/daemon.py:105-178 | without rollbacks no row is really published twice and its attempts rise by one per publish call |
| Outbox.RollbackSafeExactly | src/outbox/daemon.py:97-178 | while no real publication of a row was rolled back before, a rollback keeps it published at most once on every continuation without rollbacks iff its transaction has not really published the row or the publishers cannot publish it again: disabled, dry run, other destination or attempts used up |
| Outbox.RollbackRepublishes | src/outbox/daemon.py:97-178 | a run in which a rolled-back batch publishes the same row twice |
| OccRetry.AppendWithOcc | src/agents/base_agent.py:176-192 | at most five attempts, a conflict only after all five; the last attempt is one append at the given version if it was the first, else at the version of the stream as read behind the conflict before it |
| OccRetry.EveryBatchOnceOrNotAtAll | src/agents/base_agent.py:176-192 | for any number of interleaved callers the stream is the initial one followed by each successful batch, whole and once; failed callers leave nothing |
| OccRetry.GivingUpMeansOthersWon | src/agents/base_agent.py:176-192 | a caller gives up on a conflict only after five attempts, and then at least four others got through |
| WhatIf.PartitionAtBranch | src/what_if/projector.py:100-113 | the loop cuts the events before, at and behind the first event of the branch type |
| WhatIf.PartitionByCausality | src/what_if/projector.py:154-169 | the later events are taken apart in their order: dependent is exactly what names a branch event as its cause; no cause, an empty or another one is independent |
| WhatIf.EvaluateSequence | src/what_if/projector.py:198-244 | the loop computes the outcome of a sequence |
| WhatIf.Compare | src/what_if/projector.py:115-151 | the outcomes, lengths and differing fields of the real and the counterfactual replay |
| WhatIf.OutcomeHoldsLastState | src/what_if/projector.py:198-244 | the final state is the one the last deciding event names, and no event behind that one decides |
| WhatIf.OutcomeHoldsLastFigures | src/what_if/projector.py:217-231 | tier, limit and confidence are those of the last credit analysis, flat or nested |
| WhatIf.OutcomeHoldsLastDecision | src/what_if/projector.py:233-235 | the decision is the last recommendation generated |
| WhatIf.Inject | src/what_if/projector.py:71-97 | the loan stream itself, unless the branch is a credit analysis it lacks and the credit stream has: then with the last one of the credit stream behind the last request, or at the end |
| WhatIf.LoadCredit | src/what_if/projector.py:69-83 | the credit stream is read, and an await passed, exactly when the branch is a credit analysis that the loan stream lacks |
| WhatIf.RunWhatIf | src/what_if/projector.py:49-151 | outcomes, counts and, field by field, divergence of the two replays of the loan stream as read first and the credit stream as read after it, other writers in between; exactly the later events that name the branch event as their cause are dropped; the run itself writes nothing |
| WhatIf.InjectionAddsOne | src/what_if/projector.py:78-97 | the injected sequence is the loan stream with one more event, right behind the last request if there is one and at the end if not |
| WhatIf.CutLosesNothing | src/what_if/projector.py:100-113 | pre, branch and post put together are the loaded sequence, cut at the first event of the branch type |
| WhatIf.SplitLosesNothing | src/what_if/projector.py:154-169 | dependent and independent events in their order shuffle back to the later events |
| WhatIf.CountsAddUp | src/what_if/projector.py:115-120 | replayed and dropped events add up to all there were |
| WhatIf.DivergesExactly | src/what_if/projector.py:128-132 | a field diverges iff the two branches leave it different and no replayed event behind the branch sets it again |
| WhatIf.SameBranchNoDivergence | src/what_if/projector.py:128-132 | counterfactual events that lead where the branch event led diverge nowhere |
| WhatIf.SplitFollowsCausationExactly | src/what_if/projector.py:154-169 | the split drops exactly all events depending on the branch iff no later event names a dropped event as its cause |
| ComplianceAgent.EvaluateUntilBlock | src/agents/compliance_agent.py:203-255 | the loop evaluates the rules up to and including the first failing hard block, one event each |
| ComplianceAgent.EvaluateRules | src/agents/compliance_agent.py:172-310 | BLOCKED iff some hard-block rule fails, with the first such rule; counters equal the events emitted and sum to the rules evaluated; the events are an opening on a new stream, a verdict with its fields per rule reached, the note unless blocked, and the summary |
| ComplianceAgent.ShippedRulesBlockExactly | src/agents/compliance_agent.py:35-92 | the shipped rules block exactly for an active sanctions review, jurisdiction MT or under two years of history; always without a company profile |
| ComplianceAgent.ShippedRulesExactly | src/agents/compliance_agent.py:35-92 | when each of the five shipped rules passes, which of them block, and with which reason they fail |
| DecisionOrchestrator.ApplyConstraints | src/agents/decision_orchestrator_agent.py:206-234 | APPROVE only if proposed, unblocked and not deferred; BLOCKED means DECLINE exactly when the case is not deferred; every other proposal stands |
| DecisionOrchestrator.LoadInputs | src/agents/decision_orchestrator_agent.py:75-153 | the latest credit, fraud and compliance results, each as of its own load, of an application that was submitted, or an error exactly when one is missing |
| DecisionOrchestrator.Decide | src/agents/decision_orchestrator_agent.py:75-234 | the recommendation is REFER for a deferred case, DECLINE for one loaded as blocked, and the proposal otherwise |
| DecisionOrchestrator.WriteOutput | src/agents/decision_orchestrator_agent.py:236-342 | the decision, then an approval for APPROVE, a decline for DECLINE and a request for a human review otherwise, field by field at the two positions behind the version read; a refusal means the stream has moved, and what was written before it stays |
| DecisionOrchestrator.RunOrchestrator | src/agents/decision_orchestrator_agent.py:133-342 | with other writers at every await, a completed run ends with a request for a human review exactly as its loaded results defer the case (low score, high fraud score, high risk without a good score), a blocked case that is not deferred with a decline, any other as proposed; a run that loaded BLOCKED never writes ApplicationApproved |
| DecisionOrchestrator.AgentVerdictIsRead | src/agents/decision_orchestrator_agent.py:133-153 | the verdict the compliance agent wrote is the one the orchestrator reads while no later check completed |
| InMemoryStore.InMemoryEventStore.AppendEvents | starter/ledger/event_store.py:353-389 | the strict version check, then the loop filling both lists at consecutive zero-based positions; an event without a type breaks it off, with the events before it stored and the version not moved |
| InMemoryStore.InMemoryEventStore.LoadStream | starter/ledger/event_store.py:391-402 | the entries of a stream between two positions, sorted and stable whatever a broken-off batch left behind, and strictly ascending while positions and version agree |
| InMemoryStore.InMemoryEventStore.LoadAll | starter/ledger/event_store.py:404-407 | the entries from a global position on, those appended while the caller iterates included |
| InMemoryStore.RunKeepsSplit | starter/ledger/event_store.py:353-389 | over every run of appends, broken-off ones included, the stream lists are the global list taken apart |
| InMemoryStore.AppendAgreesExactly | starter/ledger/event_store.py:361-389 | an append keeps every stream numbered from zero up to its version iff the version check refuses it, every event has a type, or already the first has none |
| InMemoryStore.PositionRepeats | starter/ledger/event_store.py:370-387 | after a broken-off batch the next accepted event gets the position of a stored one |
| InMemoryStore.RunAgreesExactly | starter/ledger/event_store.py:353-389 | over every run of appends each stream is numbered from zero up to its version iff no batch was broken off behind its first event |
| InMemoryStore.LogOnlyGrows | starter/ledger/event_store.py:353-389 | old entries never change |
| InMemoryStore.OneWinnerPerVersion | starter/ledger/event_store.py:361-364 | among non-empty appends with the same stream and expected version at most one succeeds, -1 included |
| InMemoryStore.StoresAnswerAlikeExactly | starter/ledger/event_store.py:331-364 | on a stream of n events the two stores agree on an expected version iff it is none of -1, n-1 and n, or n is 0 and it is not 0 |

## Left out

- PostgreSQL itself: transactions are atomic steps, row locks are disjoint sets, and global positions are taken to become
  visible in ascending order, as the daemon also takes them; concurrent transactions that commit out of order are not modelled.
- JSON encoding and decoding: payloads are values, and the canonical text that is hashed is a parameter.
- SHA-256 (section 6.2 of FIPS 180-4) is a parameter with 64-character output and is never taken to be injective.
- Clocks: `recorded_at` and `snapshot_at` are integers from a clock that does not run backwards; lag, back-off, sleeps and
  the service-level log lines are not part of this model, nor are `first_seen_at` and `last_seen_at`.
- `evaluation_timestamp` of the compliance view: a string in the replay and a timestamp in the table.
- Application, rule, agent and model identifiers that are not text, and numbers given as numeric strings: such payloads count as
  raising, and in the orchestrator a fraud score that is no number counts as zero.
- Payload keys that no modelled code reads, such as timestamps, summaries, conditions and notes, and the correlation and causation
  ids which the handlers pass on to the store.
- What a failing handler leaves behind is the parameter `partial` of a projection; the shipped handlers issue one statement each,
  or several that the model treats as one, except in `ComplianceAuditRuns`, which takes the upsert with its count, the
  read and the insert of a snapshot one by one.
- `get_stream_metadata`, `find_session_stream_id` and `has_upcaster`: plain lookups.
- `_TRANSITIONS` and `assert_processed_application`, which nothing calls.
- Floating-point rounding: averages, scores and amounts are reals.
- The language model, document discovery, the registry queries, the remaining agents, the MCP server, the dashboard and
  the Kafka client: foreign calls, here parameters or nondeterministic outcomes.
- The narrative and text formatting modules, the AuditLedger aggregate beyond its version, the data generators and the migration scripts.
- WhatIf.RunWhatIf: the ids and times of the wrapped counterfactual events are not modelled, because the evaluation reads only types and payloads.
- Outbox.OutboxDrains: one publisher at a time, because a row another publisher holds is skipped for as long as that one keeps its lock.
