# Garden operations: a verified model

This project models the part of the urban farming service that moves a garden request from submission to a
living garden, and proves what holds in every run of it. Around that core it covers the compiler from filter
maps to SQL and the data endpoints built on it, refresh-token rotation, the green-points ledger, and the
scoring and evidence rules of an inspection.

`dafny verify dfyconfig.toml` verifies everything.

## How the lifecycle is modelled

`Domain` holds the rows; a table is a sequence, a row's id its position. `StageBoard` gives one workflow's
stage writes together with the two triggers they fire, and the report trigger. `Transactions` says what each
gateway transaction commits as a function of the database it starts from; `Gateway` is the database as a class
whose methods update the tables step by step, fire the triggers and roll back, each proved to do what
`Transactions` says. `Requests` holds the status and the allocation endpoint: they decide from
rows they have read and plan a commit.

`Runs` puts these together. A run is a sequence of databases; each step is one transaction of one client, taken
as atomic. For the rows a transaction tests this follows from the locks it takes on them: on the request when it
schedules, decides, installs, allocates or plants, on the assignment when a visit starts, on the report, the
assignment and the items when a report is submitted, on the lead when it is converted; uploads and drafts are
single statements. That no other transaction inserts rows in between is assumed. What an endpoint reads before
its transaction is not part of it: a status update, an allocation, a photo upload or a draft is planned from
reads of any earlier states of the run, each read at its own time, so stale clients interleave with all other
commits. `Endpoints` holds what the endpoints fix or check of their input, the checklist template among it, and
every commit of a run is guarded by it. Runs start with any leads and inspectors and nothing else.

`Invariants` collects what every reachable database satisfies and how one may evolve into another.
`StageHistory`, `BoardTable`, `BoardMoves`, `Preservation` and `StatusPreservation` prove that every commit
keeps it. `RunLaws`, `Journeys`, `StaleClients`, `VisitLaws`, `ReportLaws`, `Checklists`, `Inspectors`,
`Schedules`, `Records`, `Approvals`, `Submissions`, `DetailWrites`, `Photos`, `Leads`, `Enabledness` and `Achievements`
state what follows for runs, `AuditActors` who is named by the audit log. What a commit leaves behind, value by value
and without the functions that compute it, is stated by `StatusOutcome`, `SchedulingOutcome`, `ReportOutcome`,
`SetupOutcome` and `IntakeOutcome`, with the JSON texts of values in `Encodings`; why one is refused by `Refusals`.
`Reachability` shows that a submitted request can go live from any reachable state, `Witnesses` where the code
falls short; `Compatibility` compares the transaction with the call-by-call path (`CallByCall`).

The other parts stand alone: `EvidenceGate` with `Texts`, `Scoring`, `ParameterNames` with `FilterCompiler`,
`Ordering` and `DataApi`, `RefreshTokens`, `GreenPoints`.

## What the code does not guarantee

Each of these is false of the code. The first lemma named exhibits it in a run, the second says for all runs
exactly when it happens.

- The approval stage is a function of the request status. While an inspection is scheduled it is not
  (`Witnesses.ApprovalStageVaries`): it is ready exactly when a report of the garden was ever submitted
  (`RunLaws.BoardFollowsStatus`).
- A converted lead has one request. A user may put a lead's id into the details of an ordinary request
  (`Leads.ClaimedLeadIsCarriedTwice`, `Leads.ExactlyOneCarrier`).
- The points ledger agrees with the logs. A log moved from a rewarded to an unrewarded activity keeps its row
  (`GreenPoints.MixedRulesDisagree`, `GreenPoints.AgreementExactly`, by the rule table `GreenPoints.AwardsByRules`).
- A checklist is seeded once. The upsert may move all its items to another report, and a later start seeds it
  again (`Witnesses.ChecklistIsSeededTwice`, `Checklists.SeedsAgainExactly`).
- An approved report stays approved. A draft saved later undoes the approval, and with it the way to a living
  garden (`Witnesses.DraftStopsActivation`, `Approvals.ApprovalStaysExactly`, `Approvals.DraftUndoesActivation`).
- A submitted report is not overwritten by drafts. One whose author had read the report before is
  (`Witnesses.LateDraftUndoesSubmission`, `Submissions.SubmissionStaysExactly`).
- A started visit's report can be submitted. After a reschedule to another inspector nobody can
  (`Witnesses.RescheduledReportIsStuck`, `Inspectors.InspectorsDisagreeExactly`, `Inspectors.CanBeSubmittedExactly`).
- An uploaded photo stays. Going live, and every other upload, writes the details it had read, so a photo uploaded
  in between is lost (`Witnesses.GoingLiveLosesPhoto`, `Witnesses.LaterUploadLosesPhoto`,
  `Photos.PhotoStaysExactly`). A later write may bring it back (`Witnesses.LostPhotoReturns`), so what one moment
  shows depends on the chain of reads behind it (`Photos.PhotoIsShownExactly`). The lead's id is never lost.
- The dates a request records are its visit's. A reschedule to another day changes the visit's due date
  (`Witnesses.RecordedDueDateDiffers`, `Schedules.DatesRecordedExactly`; at any later moment
  `Records.RecordedDatesExactly`, and of the visit itself `Schedules.AlignedExactly`).
- A refresh token is accepted once, and a logout ends all sessions. Overlapping refreshes break both
  (`RefreshTokens.OverlappingRefreshesBothSucceed`, `RefreshTokens.AcceptedAtMostOnceExactly`;
  `RefreshTokens.LogoutOvertaken`, `RefreshTokens.SignedOutStaysOutExactly`).
- An old password is of no use after a change. A login that tested it before succeeds
  (`RefreshTokens.LoginOvertakesChange`, `RefreshTokens.LoginAfterChangeExactly`).

Any change of a report to a state other than submitted, an approval included, puts the visit and score stages back in
progress (`BoardTable.DecisionReopensVisit`).

## Model

| member | source | states |
|---|---|---|
| `Runs.EveryStateFits` | app/infrastructure/postgres_gateway.py:543-1974 | Every database that any interleaving of clients can reach satisfies the whole invariant: links between rows, setup by status, stage board, audit log |
| `Runs.RunEvolves` | app/infrastructure/postgres_gateway.py:543-1974 | Between any two states of a run statuses only advance, links stay, finished visits stay finished, recorded times and evidence keys stay, and events are only appended |
| `Runs.ResolvedIsGuarded` | app/routers/gardens.py:224-480 | Whatever the status endpoint decides from reads of any age is a legal step whose stage updates fit its target |
| `RunLaws.AuditLogIsComplete` | database/supabase_migrations/20260712143000_operational_workflow_and_site_assessment.sql:154-167 | Replaying a stage's events from its seeded row gives its stored status and evidence, and each event starts from the status the one before ended with and records a change |
| `RunLaws.HistoryIsKept` | app/infrastructure/postgres_gateway.py:1258-1284 | Start and completion times are never replaced and evidence keys never lost, although two writers overwrite `completed_at` and the report trigger replaces evidence |
| `RunLaws.BoardFollowsStatus` | app/routers/gardens.py:394-458 | Approval, installation, allocation and maintenance are determined by the request status (approval, while an inspection is scheduled, also by whether a report was ever submitted); the header is cancelled exactly for rejected and cancelled requests |
| `RunLaws.SetupFollowsStatus` | app/infrastructure/postgres_gateway.py:1790-1821 | From the scheduled visit on the owner's property is linked; from installation on one active, dated installation exists and every query finds it; batches are planned or growing in `seeds`, growing and dated from `final_install` |
| `Journeys.JourneyLaw` | app/routers/gardens.py:234-382 | A request changes status at most seven times, re-enters none, never leaves a final one, and a live request has been in all eight forward statuses |
| `Journeys.RunSteps` | app/infrastructure/postgres_gateway.py:1083-1088 | One commit advances a status by one place, closes the request, or leaves it; new requests are submitted |
| `StaleClients.CommitMeansUnchanged` | app/infrastructure/postgres_gateway.py:1083-1088 | If a status update planned from an old read commits, the status had that value at every moment since the read (no ABA), and the planned legal step is taken |
| `StaleClients.DecisionIsOwn` | app/routers/gardens.py:247-285 | The report a stale client decides is one of the request's own garden, still submitted at commit, and the only report changed; an acceptance approves it, a rejection rejects it, and no other target decides one |
| `StaleClients.AllocationMeansUnchanged` | app/services/gardens.py:170-260 | If an allocation built from old reads commits, its request was in `implements_installed` at every moment since the read and the report it read to be approved still is |
| `VisitLaws.VisitsStaySingle` | app/infrastructure/postgres_gateway.py:698-808 | At most one open assignment for a property, one report for an assignment and of its garden, and no property shared by two requests |
| `VisitLaws.VisitsStayFinished` | app/infrastructure/postgres_gateway.py:615-624 | A finished assignment is never reopened and a linked property never replaced |
| `VisitLaws.EveryPropertyIsUsed` | app/infrastructure/postgres_gateway.py:698-727 | Scheduling creates no property that is not linked to a request |
| `VisitLaws.StartLeavesReport` | app/infrastructure/postgres_gateway.py:576-651 | A committed start leaves a report that later starts find, with a checklist, and an open visit in progress |
| `VisitLaws.StartAgainFindsReport` | app/infrastructure/postgres_gateway.py:576-614 | Starting again at any later time returns the same report and inserts none |
| `Checklists.EffectItems` | app/routers/inspections.py:364-386 | No commit deletes a checklist item, and one moves to another report exactly when the upsert is given an item id of another report |
| `Checklists.NoChecklistExactly` | app/routers/inspections.py:364-386 | In every run a report has no item left exactly when each item it held at some state and each that came to it later was moved off it since |
| `Checklists.SeedsAgainExactly` | app/infrastructure/postgres_gateway.py:626-650 | A later start appends the template if and only if every item the report held, or got later, was moved to another one since; otherwise it adds no item; it never inserts a report |
| `Checklists.ChecklistIsSeededOnce` | app/infrastructure/postgres_gateway.py:626-650 | Without such moves, however often an assignment is started, its checklist is seeded once |
| `VisitLaws.SubmissionIsGated` | app/infrastructure/postgres_gateway.py:146-269 | A submission commits exactly for the report's own inspector and visit, once, on a non-empty, answered and photographed checklist; report and assignment then change together and nothing else of either table does |
| `Inspectors.InspectorsDisagreeExactly` | app/infrastructure/postgres_gateway.py:769-785 | A report and its visit, once of one inspector, disagree if and only if the last committed reschedule since chose another |
| `Inspectors.CanBeSubmittedExactly` | app/infrastructure/postgres_gateway.py:153-181 | Somebody can submit a report exactly while its visit is its own inspector's, it is not submitted already and its checklist is evidenced |
| `Schedules.AlignedExactly` | database/supabase_migrations/20260627133000_inspection_assignments_scheduled_for_compat.sql:12-35 | Along a run an assignment's due date is the day of its visit if and only if it was so to begin with or some reschedule since changed either date |
| `Schedules.DatesRecordedExactly` | app/infrastructure/postgres_gateway.py:812-828 | After a committed schedule the request records the assignment's dates if and only if the visit is new, neither date changed, the new time falls on the chosen due date, or the unchanged time is the new due date's midnight |
| `Schedules.DaysAre` | database/supabase_migrations/20260627133000_inspection_assignments_scheduled_for_compat.sql:12-35 | A time is of the day that begins at the last midnight before it |
| `Records.RecordedDatesExactly` | app/infrastructure/postgres_gateway.py:812-828 | At any moment the inspection a request records is that of the scheduling which the chain of reads behind its details leads back to, and it has that visit's dates if and only if the dates chosen then are those the visit has now |
| `Approvals.ApprovalStaysExactly` | app/routers/inspections.py:512-548 | A report stays approved without interruption if and only if nobody saves it as a draft or submits it again meanwhile |
| `Approvals.DraftUndoesActivation` | app/infrastructure/postgres_gateway.py:1090-1161 | After a draft is saved in `final_install`, going live commits exactly when another report of the garden is approved |
| `Submissions.SubmissionStaysExactly` | app/routers/inspections.py:512-548 | A submitted report stays submitted if and only if nobody decides it and no draft is saved whose author had read it before |
| `Photos.PhotoIsShownExactly` | app/routers/gardens.py:715-750 | At any moment an uploaded photo is among the request's photos exactly when the chain of reads behind the details of that moment leads back to the upload |
| `Photos.PhotoStaysExactly` | app/routers/gardens.py:715-750 | An uploaded photo is there without interruption up to a state if and only if no details write committed up to then had read the request before the upload |
| `Photos.StaleRewriteLoses` | app/routers/gardens.py:345-369 | Right after a details write that had read the request before the upload, the photo is gone |
| `DetailWrites.EffectDetails` | app/routers/gardens.py:345-369 | Lead ids, photos and recorded inspections of every request survive each commit, but for the one request whose details a client gives whole, and the inspection for the one that is scheduled |
| `ReportLaws.ReportsAreScored` | app/routers/inspections.py:512-625 | In every state of every run each report stores the points, score and band the table gives its own facts; a submitted, approved or rejected one carries the overall status and follow-up flag of that band and recommends something; items and photos belong to existing reports |
| `ReportLaws.UpdateReports` | app/infrastructure/postgres_gateway.py:1163-1202 | A status update changes no report but the submitted one it decides, and of that only status and notes |
| `Reachability.EverySubmittedRequestCanGoLive` | app/routers/gardens.py:137-385 | From every reachable state with an active inspector a run continues through the eight-row checklist answered and photographed item by item, submission, approval, installation, the allocation the endpoint builds, and planting until a submitted request is live |
| `Witnesses.ApprovalStageVaries` | database/supabase_migrations/20260712143000_operational_workflow_and_site_assessment.sql:180-214 | From every such state a request gets to two states with an inspection scheduled, approval not started in one and ready in the other |
| `Witnesses.DraftStopsActivation` | app/routers/inspections.py:512-548 | It gets to a state from which it can go live, and one saved draft later it cannot |
| `Witnesses.LateDraftUndoesSubmission` | app/routers/inspections.py:512-548 | A draft whose author had read the report before it was submitted makes a submitted report a draft again |
| `Witnesses.RescheduledReportIsStuck` | app/infrastructure/postgres_gateway.py:769-785 | An evidenced report that could be submitted can be submitted by nobody after one reschedule to another inspector |
| `Witnesses.RecordedDueDateDiffers` | database/supabase_migrations/20260627133000_inspection_assignments_scheduled_for_compat.sql:24-30 | After a visit is moved to another day the request records a due date its assignment does not have |
| `Witnesses.ChecklistIsSeededTwice` | app/infrastructure/postgres_gateway.py:626-650 | An inspector moves every item of one report to another and starts the first visit again, which appends the template to a report that had it |
| `Witnesses.GoingLiveLosesPhoto` | app/routers/gardens.py:345-369 | Wherever a request may go live, a photo uploaded between the read and the commit is lost |
| `Witnesses.LaterUploadLosesPhoto` | app/routers/gardens.py:715-750 | From every reachable state, of two photos uploaded after one read the first is lost |
| `Witnesses.LostPhotoReturns` | app/routers/gardens.py:715-750 | A third upload, which had read the request while the lost photo was there, brings it back |
| `Witnesses.OpenRequests` | app/routers/gardens.py:137-154 | A run to a submitted request and two active inspectors, from which all of these start |
| `Enabledness.PlantingIsEnabled` | app/infrastructure/postgres_gateway.py:1548-1667 | From every reachable `seeds` state planting commits |
| `Enabledness.CancellationIsEnabled` | app/routers/gardens.py:382-385 | From every reachable state that is not final, cancellation read and sent at once commits |
| `Enabledness.ActivationIsEnabledExactly` | app/infrastructure/postgres_gateway.py:1090-1161 | From `final_install`, going live commits exactly when the property has an approved report |
| `Enabledness.UpdateCommitsExactly` | app/infrastructure/postgres_gateway.py:1083-1290 | In a reachable database a planned update commits exactly when its own checks pass: a missing stage cannot stop it |
| `Enabledness.SchedulingCommitsExactly` | app/infrastructure/postgres_gateway.py:676-751 | Scheduling commits exactly for an active inspector and a submitted or scheduled request: the property mismatch cannot occur |
| `Enabledness.AcceptanceCommitsExactly` | app/routers/gardens.py:263-284 | Acceptance commits exactly when a report is submitted and, for an unsuitable site, a reason of 20 characters is given |
| `Enabledness.InstallationCommitsExactly` | app/infrastructure/postgres_gateway.py:1325-1376 | Recording an installation commits exactly for the linked property with an approved report |
| `Enabledness.AllocationCommitsExactly` | app/infrastructure/postgres_gateway.py:1704-1779 | Allocation commits exactly when the named report is an approved one of the property and recommends every crop |
| `Preservation.InsertKeeps` | database/supabase_migrations/20260712143000_operational_workflow_and_site_assessment.sql:109-120 | Creating a request with its seeded workflow keeps the invariant |
| `Preservation.StartKeeps` | app/infrastructure/postgres_gateway.py:543-651 | Starting a report keeps the invariant |
| `Preservation.SaveAssessmentKeeps` | app/routers/inspections.py:512-548 | Saving a draft, whatever the report's state, keeps the invariant through the trigger it fires |
| `Preservation.SubmitKeeps` | app/infrastructure/postgres_gateway.py:127-269 | Submitting keeps the invariant |
| `StatusPreservation.ScheduleKeeps` | app/infrastructure/postgres_gateway.py:653-946 | Scheduling and rescheduling keep the invariant |
| `StatusPreservation.UpdateKeeps` | app/infrastructure/postgres_gateway.py:1052-1290 | Every committed status update keeps the invariant |
| `StatusPreservation.NothingToSchedule` | app/routers/gardens.py:239-262 | In guarded runs a submitted request has no property, so the status endpoint never schedules it |
| `StatusPreservation.InstallKeeps` | app/infrastructure/postgres_gateway.py:1293-1488 | Completing an installation keeps the invariant |
| `StatusPreservation.AllocateKeeps` | app/infrastructure/postgres_gateway.py:1669-1974 | Allocating crops keeps the invariant |
| `StatusPreservation.PlantKeeps` | app/infrastructure/postgres_gateway.py:1490-1667 | Planting keeps the invariant |
| `Runs.ConvertKeeps` | app/infrastructure/postgres_gateway.py:948-1050 | Converting a lead keeps the invariant |
| `Runs.DetailsKeep` | app/routers/gardens.py:737-744 | Rewriting a request's details keeps the invariant |
| `Achievements.StageUpdatesLand` | app/infrastructure/postgres_gateway.py:911-936 | Each stage update of a transaction lands on its own stage, field by field, and keeps older evidence; the header moves with it; all other stages, workflows and tables stay |
| `Achievements.StatusUpdateAchieves` | app/infrastructure/postgres_gateway.py:1204-1231 | A status update sets the status and who reviewed it, replaces notes and details only where given, keeps owner, property and site, and changes no other request |
| `Achievements.SchedulingAchieves` | app/infrastructure/postgres_gateway.py:755-808 | After scheduling the property has one open visit, the returned one, for the chosen inspector, priority and notes; a first visit has the chosen dates, a rescheduled one those the trigger makes of them; finished visits and other visits are untouched |
| `Achievements.InstallationAchieves` | app/infrastructure/postgres_gateway.py:1376-1436 | After installation every query for the property finds exactly the recorded installation |
| `Achievements.AllocationAchieves` | app/infrastructure/postgres_gateway.py:1779-1821 | The installation's crops become the union of old and requested ones, one batch for each new crop, of one unit and with the crop's yield or 0; old batches are untouched and new crops recommended by the approved report |
| `Achievements.AllocationRecordsBatches` | app/infrastructure/postgres_gateway.py:1918-1924 | The recorded `crop_batch_ids` are exactly the installation's batch ids |
| `Achievements.PlantingAchieves` | app/infrastructure/postgres_gateway.py:1590-1620 | Every batch of the garden grows since the given date; no other batch changes |
| `AllocationLaws.AllocationIsUnion` | app/infrastructure/postgres_gateway.py:1790-1821 | The crop loop computes a set union, once for each crop |
| `AllocationLaws.RecordedIds` | app/infrastructure/postgres_gateway.py:1790-1821 | The ids listed for an installation are exactly its batches, in order |
| `StatusOutcome.PlanSays` | app/routers/gardens.py:234-480 | What each target plans, given the rows read: who decides which report how and with which notes, the stages with their evidence, the notes, who reviewed it and the tracking details; a rejection rejects the last submitted report exactly when the inspection was scheduled and one was submitted, and no target but the two decides one |
| `StatusOutcome.PatchLeaves` | app/routers/gardens.py:394-480 | In every run a committed status update leaves the request in its target with the caller's notes, reviewed by the actor, the report decided as the reports read call for, its notes kept by a rejection, and the workflow with the stages of the target; nothing else changes |
| `StatusOutcome.WorkflowOfReport` | database/supabase_migrations/20260712143000_operational_workflow_and_site_assessment.sql:173-178 | In every reachable state the garden of a report has a newest request whose workflow is whole: the one the trigger writes |
| `SchedulingOutcome.SchedulingLeaves` | app/infrastructure/postgres_gateway.py:653-946 | After a committed schedule: the property, new with the request's owner, site and notes or the linked one unchanged; the visit; the request's link, status, notes, review and recorded inspection, field by field; the evidence of the three stages; and nothing else |
| `ReportOutcome.SubmissionLeaves` | database/supabase_migrations/20260712143000_operational_workflow_and_site_assessment.sql:169-214 | After a committed submission the report stores the assessment and flags, the visit is completed, and the newest request's workflow holds report and coordinates, score, band and breakdown, recommended crops and infrastructure, each under its own key, with its times |
| `ReportOutcome.DraftLeaves` | app/routers/inspections.py:512-548 | The same of a saved draft: stored findings, notes and coordinates, flags kept, visit and score stages in progress with these values, recommendation and approval untouched |
| `ReportOutcome.DecisionLeaves` | app/infrastructure/postgres_gateway.py:1163-1202 | A decision changes a report's status, and its notes when the decision has some, and the workflow mirrors what the report holds |
| `ReportOutcome.TriggerLeaves` | database/supabase_migrations/20260712143000_operational_workflow_and_site_assessment.sql:169-214 | The trigger writes the workflow of the garden's newest request and no other |
| `SetupOutcome.InstallationLeaves` | app/infrastructure/postgres_gateway.py:1376-1488 | The installation row as reported, the request's new status, and the evidence of the two stages; nothing else |
| `SetupOutcome.AllocationLeaves` | app/infrastructure/postgres_gateway.py:1779-1974 | Every update of the details is there, requested plants are those named, else the planned ones, else none, every other detail is as it was; also status, review and notes of the request, site and notes of the property, the two activities, and the evidence of the two stages |
| `SetupOutcome.PlantingLeaves` | app/infrastructure/postgres_gateway.py:1590-1667 | The request's new status and the maintenance stage with the date and exactly the garden's batches; nothing else |
| `Requests.AllocationSays` | app/services/gardens.py:203-260 | An allocation carries the plants named, each once, the caller's notes under their own keys, tracking `planned`, the request's site, the notes for the property and the approved report submitted last |
| `IntakeOutcome.CreationLeaves` | database/supabase_migrations/20260712143000_operational_workflow_and_site_assessment.sql:79-120 | A created request is submitted, unlinked and unreviewed, with a workflow of thirteen stages of which only the first is done |
| `IntakeOutcome.ConversionLeaves` | app/infrastructure/postgres_gateway.py:961-1050 | A conversion finds the lead's earliest request or adds the row given, and marks the lead converted with notes, actor and time |
| `IntakeOutcome.StartLeaves` | app/infrastructure/postgres_gateway.py:543-651 | A start finds the report or inserts a draft of the visit's inspector and garden, sets the visit in progress and its start once, and gives a report without items one unanswered item for each template row |
| `IntakeOutcome.DetailsLeave` | app/routers/gardens.py:742-749 | Only the owner writes a request's details, and then nothing else changes |
| `IntakeOutcome.CaptureLeaves` | app/routers/inspections.py:364-444 | A checklist item is stored under its id or appended and a photo appended, for the report's inspector only |
| `Encodings.TruthyIs` | app/infrastructure/postgres_gateway.py:1823-1829 | Exactly null, false, zero, the empty text, list and object count as absent |
| `AuditActors.EventsNameActor` | database/supabase_migrations/20260712143000_operational_workflow_and_site_assessment.sql:154-167 | What a commit appends to the audit log names its own actor, and only commits that write stages append |
| `Refusals.PatchPlansExactly` | app/routers/gardens.py:234-382 | Which status updates are planned at all, by the request's status and the rows read, for each target |
| `Refusals.PatchRefuses` | app/routers/gardens.py:234-382 | Each error of the status endpoint names a check that fails on the rows read |
| `Refusals.AllocationPlanRefuses` | app/services/gardens.py:170-226 | So does each error of the allocation endpoint |
| `Refusals.SchedulingRefuses` | app/infrastructure/postgres_gateway.py:676-751 | So does each error of scheduling |
| `Refusals.UpdateRefuses` | app/infrastructure/postgres_gateway.py:1083-1176 | So does each error of the status transaction, the checks before going live included |
| `Refusals.InstallationRefuses` | app/infrastructure/postgres_gateway.py:1325-1376 | So does each error of installation |
| `Refusals.AllocationRefuses` | app/infrastructure/postgres_gateway.py:1704-1779 | So does each error of allocation |
| `Refusals.PlantingRefuses` | app/infrastructure/postgres_gateway.py:1510-1600 | So does each error of planting |
| `Refusals.SubmissionRefuses` | app/infrastructure/postgres_gateway.py:146-215 | So does each error of a submission, the evidence gate included |
| `Refusals.CaptureRefuses` | app/routers/inspections.py:364-444 | So does each error of a checklist item, a photo or a draft |
| `BoardTable.SeedFits` | database/supabase_migrations/20260712143000_operational_workflow_and_site_assessment.sql:79-107 | A seeded workflow fits a submitted request |
| `BoardTable.WriteStagesRows` | app/infrastructure/postgres_gateway.py:1233-1284 | A list of updates of distinct stages writes exactly those rows |
| `BoardTable.WriteStagesHeader` | database/supabase_migrations/20260926120000_sync_operational_workflow_stage.sql:11-35 | An active header closes exactly when some written row is rejected or records a cancellation |
| `BoardTable.HeaderMoves` | database/supabase_migrations/20260926120000_sync_operational_workflow_stage.sql:11-35 | A closed header stays; an open one is cancelled at the first row that is rejected or records a cancellation, its end recorded once, and otherwise stands at the stage written last |
| `BoardTable.PatchFits` | app/routers/gardens.py:394-458 | A planned status update moves the board from the old status' stages to the new one's |
| `BoardTable.SyncFits` | database/supabase_migrations/20260712143000_operational_workflow_and_site_assessment.sql:169-214 | The report trigger leaves the four stages as the status has them, but for readying an untouched approval on a submission |
| `BoardTable.DecisionReopensVisit` | database/supabase_migrations/20260712143000_operational_workflow_and_site_assessment.sql:180-206 | Any change of a report to a state other than submitted puts the visit and score stages back in progress |
| `BoardMoves.RescheduleMove` | app/infrastructure/postgres_gateway.py:862-936 | Rescheduling keeps the board of a scheduled request |
| `BoardMoves.InstallMove` | app/infrastructure/postgres_gateway.py:1450-1488 | Installation moves the board to installed, overwriting no completion time |
| `BoardMoves.AllocateMove` | app/infrastructure/postgres_gateway.py:1918-1960 | Allocation moves the board to `seeds`, overwriting no completion time |
| `BoardMoves.PlantMove` | app/infrastructure/postgres_gateway.py:1640-1660 | Planting moves the board to `final_install` |
| `StageHistory.WriteStagesLawful` | database/supabase_migrations/20260712143000_operational_workflow_and_site_assessment.sql:154-167 | Stage updates append events that replay to the rows and lose no time or evidence key |
| `StageHistory.SyncLawful` | database/supabase_migrations/20260712143000_operational_workflow_and_site_assessment.sql:169-208 | The report trigger does so too, although it replaces the evidence of two stages outright |
| `StageHistory.ReplayConcat` | database/supabase_migrations/20260712143000_operational_workflow_and_site_assessment.sql:154-167 | Replaying a log in two parts is replaying it whole, and it chains exactly when both parts do |
| `Transactions.LatestOpenIs` | app/infrastructure/postgres_gateway.py:755-767 | The open assignment a reschedule reuses is the one updated last; none is found only when none is open |
| `Transactions.LatestReportIs` | app/services/gardens.py:29-48 | The report a decision is made on is the one submitted last in that state |
| `Transactions.LastRequestForIs` | database/supabase_migrations/20260712143000_operational_workflow_and_site_assessment.sql:173-178 | The trigger writes the workflow of the newest request of the report's garden |
| `Requests.PlansFit` | app/routers/gardens.py:234-480 | Every plan is a legal transition with the stage updates of its target, approving with an acceptance and rejecting with a rejection |
| `Requests.AllocationsFit` | app/services/gardens.py:170-260 | Every allocation built names the four details, at least one crop and the property of a request read in `implements_installed` |
| `Gateway.GardenDatabase.ScheduleGardenRequestInspection` | app/infrastructure/postgres_gateway.py:653-946 | Step by step with rollback, schedules or reschedules the visit with the triggers that fire, or raises and changes nothing |
| `Gateway.GardenDatabase.SyncAssignmentSchedule` | database/supabase_migrations/20260627133000_inspection_assignments_scheduled_for_compat.sql:12-35 | The assignment trigger: a new time moves the due date to its day, a new due date alone moves the time to its midnight |
| `Gateway.GardenDatabase.StartInspectionReport` | app/infrastructure/postgres_gateway.py:543-651 | Finds or inserts the report, starts the visit, seeds a missing checklist |
| `Gateway.GardenDatabase.SaveAssessmentDraft` | app/routers/inspections.py:512-548 | Refuses a report it saw submitted, else writes the draft and fires its trigger |
| `Gateway.GardenDatabase.UpsertChecklistItem` | app/routers/inspections.py:364-386 | Checks access to the report named, then overwrites the row of the given id or appends one |
| `Gateway.GardenDatabase.UploadPhoto` | app/routers/inspections.py:406-444 | Checks access to the report and inserts the photo; an unknown item is refused |
| `Gateway.GardenDatabase.UpdateRequestDetails` | app/routers/gardens.py:742-749 | The owner's upload overwrites the details whole; for anybody else nothing changes |
| `Gateway.GardenDatabase.SubmitInspectionForApproval` | app/infrastructure/postgres_gateway.py:127-269 | Runs the evidence gate, writes report and assignment, fires the trigger between |
| `Gateway.GardenDatabase.UpdateGardenRequestWorkflow` | app/infrastructure/postgres_gateway.py:1052-1290 | Checks, decides the report, writes request and stages; rolls everything back on a missing stage |
| `Gateway.GardenDatabase.CompleteGardenInstallation` | app/infrastructure/postgres_gateway.py:1293-1488 | Records the installation and advances request and stages, or changes nothing |
| `Gateway.GardenDatabase.CompleteGardenPlanting` | app/infrastructure/postgres_gateway.py:1490-1667 | Plants the locked batches; the count of updated batches never differs from the count selected |
| `Gateway.GardenDatabase.CompleteGardenAllocation` | app/infrastructure/postgres_gateway.py:1669-1974 | Writes property, batches, request, activities and stages, or changes nothing |
| `Gateway.GardenDatabase.ConvertAssessmentLead` | app/infrastructure/postgres_gateway.py:948-1050 | Finds or inserts the lead's request and marks the lead converted |
| `Gateway.GardenDatabase.WriteEachStage` | app/infrastructure/postgres_gateway.py:1233-1290 | The stage loop writes what the list of updates denotes and stops at the first missing stage |
| `Gateway.GardenDatabase.AuditStageChange` | database/supabase_migrations/20260712143000_operational_workflow_and_site_assessment.sql:154-167 | Appends one event exactly when status or evidence changed |
| `Gateway.GardenDatabase.SyncCurrentStage` | database/supabase_migrations/20260926120000_sync_operational_workflow_stage.sql:11-35 | Moves an open header to the written stage and closes it on rejection or cancellation |
| `Gateway.GardenDatabase.SyncInspectionReport` | database/supabase_migrations/20260712143000_operational_workflow_and_site_assessment.sql:169-214 | The report trigger, write by write |
| `Gateway.GardenDatabase.AllocateBatches` | app/infrastructure/postgres_gateway.py:1790-1821 | The crop loop inserts one planned batch for each crop not held and lists all batch ids |
| `Gateway.GardenDatabase.PlantBatches` | app/infrastructure/postgres_gateway.py:1590-1604 | Marks every planned or growing batch and returns the ids updated |
| `Gateway.AllArePlanted` | app/infrastructure/postgres_gateway.py:1605-1611 | Batches all found plantable under lock are all updated, so `crop_batch_state_changed` cannot be raised |
| `Gateway.GardenDatabase.AdvanceWorkflowStage` | app/services/workflows.py:10-64 | Reads the stage and overwrites its row, or names what is missing |
| `Gateway.GardenDatabase.UpdateStatusByCalls` | app/routers/gardens.py:487-610 | The call-by-call path, which leaves earlier writes behind when a later call fails |
| `Compatibility.PathsAgree` | app/routers/gardens.py:394-610 | From the same database, without failure or interleaving, the transaction and the separate calls end equal in everything but the times stages were written |
| `Compatibility.PathsEqual` | app/services/workflows.py:39-52 | In reachable databases, under one clock reading, they end in the same database, times included |
| `Compatibility.FailedCallsLeave` | app/routers/gardens.py:487-610 | What failing calls leave behind: nothing if the request is not as read; the request patched but back in its old status if the report to approve is gone; all writes up to a missing stage otherwise |
| `Compatibility.StagesAlike` | app/services/workflows.py:10-64 | The two stage writers agree update by update |
| `Leads.LeadKeyIsKept` | app/routers/gardens.py:737-744 | A request's lead id is never added, lost or changed, although details are rewritten from reads of any age |
| `Leads.ConversionIsOnce` | app/infrastructure/postgres_gateway.py:961-1050 | However often a lead is converted, the requests carrying it are those users claimed, plus one if none was claimed before the first conversion |
| `Leads.ExactlyOneCarrier` | app/routers/communications.py:563-577 | Exactly one request carries a converted lead if and only if nobody claimed it, or one user did before the first conversion |
| `Leads.LaterConversionsReturnTheSame` | app/infrastructure/postgres_gateway.py:978-1036 | The first conversion reports a creation exactly when nobody had claimed the lead; all later ones report none and return the same request |
| `Leads.ClaimedLeadIsCarriedTwice` | app/routers/gardens.py:137-154 | A concrete run in which a user's own request carries a converted lead, so that two requests do |
| `EvidenceGate.InspectionEvidenceGaps` | app/services/inspection_evidence.py:12-41 | The loop returns, in order, the required checks lacking a result and those lacking a photo |
| `EvidenceGate.GateExact` | app/services/inspection_evidence.py:21-41 | Both lists are empty exactly when every required check has a result and a photo |
| `EvidenceGate.GapsAre` | app/services/inspection_evidence.py:21-39 | What is reported missing are the names, or else the categories, of exactly the required checks without an answer, and without a photo linked or of their kind |
| `EvidenceGate.CaptureIs` | app/services/inspection_evidence.py:4-9 | An ASCII category has a capture exactly when it is one of the four checks, whatever its capitals, and then its own |
| `EvidenceGate.GapsOfConcat` | app/services/inspection_evidence.py:21-41 | The gaps of a concatenation are the concatenated gaps |
| `EvidenceGate.PhotosOnlyCloseGaps` | app/services/inspection_evidence.py:15-20 | More photos only remove gaps |
| `Texts.StrippedIs` | app/services/inspection_evidence.py:30-30 | Stripping leaves nothing exactly of blanks, and else a text without a blank at either end |
| `Texts.StrippedWithin` | app/services/inspection_evidence.py:30-30 | What stripping takes off the two ends is blank |
| `Texts.FoldedIs` | app/services/inspection_evidence.py:34-34 | Folding leaves no capital, and a folded text as it is |
| `Texts.CleanedInOrder` | app/services/gardens.py:205-207 | They come in the order in which they are first named |
| `Texts.CleanedIs` | app/services/gardens.py:205-207 | The plants named are the stripped texts, each once, without blank ones |
| `Texts.SortedSetIs` | app/infrastructure/postgres_gateway.py:1918-1924 | The recorded crop names are the recommended ones, strictly ascending, each once |
| `Scoring.ScoreBounds` | app/services/inspection_scoring.py:4-44 | Every valid assessment scores from 13 to 100, and both ends occur |
| `Scoring.FindingsByTable` | app/services/inspection_scoring.py:4-44 | What is stored of an assessment is its own facts, the points of each part step by step, in order, their sum, and the band by its two thresholds |
| `Scoring.FlagsAre` | app/routers/inspections.py:605-626 | A suitable site passes without follow-up, a conditional one is a warning and an unsuitable one fails, both with follow-up |
| `Scoring.BandLimits` | app/services/inspection_scoring.py:5-38 | A site without water is suitable exactly at its best in sun, space and risks; one in shade never is; one with neither is unsuitable |
| `Scoring.RiskOrderIrrelevant` | app/services/inspection_scoring.py:26-30 | The order in which risks are listed does not matter |
| `Scoring.BetterSiteScoresNoLess` | app/services/inspection_scoring.py:5-38 | More sun, better water, more space and fewer risks never lower score, band, overall status or raise the follow-up flag |
| `FilterCompiler.BuildFilters` | app/infrastructure/postgres_gateway.py:91-123 | The nested loops compile a filter map, or fail on the first field that is not an identifier |
| `FilterCompiler.CompilerPreservesMeaning` | app/infrastructure/postgres_gateway.py:91-123 | For every filter map and row the generated WHERE under the generated parameters selects the row exactly when each filter's intended meaning holds of it |
| `FilterCompiler.CoercedIs` | app/infrastructure/postgres_gateway.py:26-42 | A text is taken for a timestamp exactly when it is, in full, a date and time, a fraction or none, and Z or an offset; every other value stays as it is |
| `FilterCompiler.OperatorsMean` | app/infrastructure/postgres_gateway.py:16-24 | The text of each of the seven operators asks for that comparison with the rest of the text |
| `FilterCompiler.SplitFindsOperation` | app/infrastructure/postgres_gateway.py:112-117 | Splitting at the first dot finds the one operator a text can denote |
| `FilterCompiler.PlaceholdersMatchParameters` | app/infrastructure/postgres_gateway.py:97-121 | Every placeholder is bound and every parameter used |
| `FilterCompiler.ParametersKept` | app/infrastructure/postgres_gateway.py:94-121 | Merging the filters' parameters loses and changes none |
| `FilterCompiler.UpdateParameters` | app/infrastructure/postgres_gateway.py:494-507 | In an UPDATE the values set and the filters keep their parameters |
| `FilterCompiler.SelectParameters` | app/infrastructure/postgres_gateway.py:381-386 | The row limit of a SELECT overwrites no filter's parameter |
| `ParameterNames.ItemNamesDistinct` | app/infrastructure/postgres_gateway.py:103-106 | `filter_i_j` names determine both indices |
| `ParameterNames.FilterIsNotItem` | app/infrastructure/postgres_gateway.py:96-105 | `filter_i` is never `filter_k_l` |
| `ParameterNames.RowNamesDistinct` | app/infrastructure/postgres_gateway.py:444-455 | `row_i_column` names determine row and column, underscores in the column included |
| `ParameterNames.KindsDistinct` | app/infrastructure/postgres_gateway.py:383-386 | Filter, value, row and limit names never meet |
| `DataApi.ScopingMeaning` | app/routers/data.py:108-116 | Scoped filters ask for the caller's own rows and for whatever else the caller asked, except of the owner column |
| `DataApi.ScopedMeaning` | app/routers/data.py:108-116 | Of an owned table a caller without an admin role gets the own rows the other filters want; any other table is public or refused; an admin is not restricted |
| `DataApi.OwnedRowsAre` | app/routers/data.py:203-229 | A stored row has the caller as its owner, whatever it said of that column, and otherwise the columns given; an admin's is as given |
| `DataApi.UuidIsPlain` | app/infrastructure/postgres_gateway.py:38-42 | A UUID is never read as an operator, as `is.null` or as a timestamp |
| `DataApi.UserTablesAreOwned` | app/routers/data.py:12-60 | Every table a user may change has a known owner column |
| `DataApi.DataStore.Query` | app/routers/data.py:119-143 | Of an owned table a caller without an admin role is shown own rows only and counts no other; the answer is the list, the first row or the number of what the scoped SELECT returns; it succeeds exactly for a readable table and good identifiers |
| `DataApi.DataStore.Mutate` | app/routers/data.py:146-237 | Insert, update and delete by such a caller leave every other owner's row and every other table unchanged, create only own rows, and do exactly what the scoped filters ask; statuses, finished installations and properties with inspections are refused |
| `DataApi.DataStore.Select` | app/infrastructure/postgres_gateway.py:352-391 | Succeeds exactly for a known table and good identifiers; returns the rows the filters intend, sorted as the order text says, the first `limit` of them or all if fewer, with exactly the asked columns each has |
| `Ordering.OrderOfIs` | app/infrastructure/postgres_gateway.py:375-381 | For every column without a dot `column.desc` asks for descending order with nulls first, `column` alone or with any other suffix for ascending order with nulls last; none and the empty text ask for no order |
| `Ordering.ArrangementIsInOrder` | app/infrastructure/postgres_gateway.py:375-386 | Rows sorted by the compiled order are in the order the text asks for |
| `Ordering.ArrangedIs` | app/infrastructure/postgres_gateway.py:375-386 | Sorting by the column asked for, nulls last or first, gives the same rows sorted, so an answer the contract of the SELECT allows exists |
| `DataApi.DataStore.Update` | app/infrastructure/postgres_gateway.py:483-511 | Succeeds exactly for a known table and good identifiers; overwrites the given columns of exactly the rows the filters intend and returns those rows as they now are |
| `DataApi.DataStore.Delete` | app/infrastructure/postgres_gateway.py:513-529 | Succeeds exactly for a known table, good identifiers and some filter, and removes exactly those rows |
| `DataApi.DataStore.HasInspectionHistory` | app/routers/data.py:157-181 | A property passes exactly when it has no assignment and no report |
| `RefreshTokens.AcceptedAtMostOnceExactly` | app/routers/auth.py:168-187 | In every run, concurrent refreshes included, a token is accepted at most once if and only if no eligible refresh tests it before the first eligible one revokes it; eligible means presented unexpired for an existing user whose logouts and password changes all come after the test |
| `RefreshTokens.LaterAccepted` | app/routers/auth.py:168-187 | The first eligible refresh is accepted; a later one exactly when it is eligible and tests before the first revokes |
| `RefreshTokens.AcceptsIs` | app/routers/auth.py:168-187 | A refresh is accepted exactly when it is eligible and none was accepted before it tests |
| `RefreshTokens.RevokedIs` | app/infrastructure/auth_store.py:208-235 | A token is revoked exactly when a refresh of it was accepted or its owner signed out, ever since it was issued |
| `RefreshTokens.AcceptedTwiceOverlaps` | app/routers/auth.py:168-187 | A token accepted twice was tested the second time before the first refresh had revoked it |
| `RefreshTokens.AcceptedAtMostOnce` | app/routers/auth.py:168-187 | So when each refresh runs alone a token is accepted at most once |
| `RefreshTokens.OverlappingRefreshesBothSucceed` | app/routers/auth.py:168-187 | A run in which two overlapping refreshes of one token both succeed and leave two sessions |
| `RefreshTokens.RevokedForGood` | app/infrastructure/auth_store.py:208-227 | A revoked token is never active again |
| `RefreshTokens.UnrevokedAfter` | app/routers/auth.py:168-187 | A refresh keeps every user's count of unrevoked tokens, but for one more if the token was revoked since its test; logout and password change bring the user's to zero, a sign-in adds one, and no other user is touched |
| `RefreshTokens.SignedOutStaysOutExactly` | app/routers/auth.py:480-543 | From a logout or password change to the next sign-in all tokens of the user stay revoked if and only if no refresh tested before it commits after it |
| `RefreshTokens.LogoutOvertaken` | app/routers/auth.py:480-490 | A run in which a refresh tested before a logout commits after it and leaves the user signed in |
| `RefreshTokens.LoginAfterChangeExactly` | app/routers/auth.py:148-165 | After a password change, up to the next one, a login succeeds with the new password, or with the one it tested before the change |
| `RefreshTokens.LoginOvertakesChange` | app/routers/auth.py:148-165 | A run in which a login that tested the old password completes after the change |
| `RefreshTokens.NewPasswordOnly` | app/routers/auth.py:529-543 | After a password change, up to the next one, the stored password is the new one |
| `RefreshTokens.AuthStore.NativeRefresh` | app/routers/auth.py:168-187 | Succeeds exactly for a token that was minted for the subject, is not expired or revoked, and whose user exists; it is revoked and a new one of the same user issued |
| `RefreshTokens.AuthStore.RevokeAllRefreshTokens` | app/infrastructure/auth_store.py:229-235 | Revokes the user's tokens and no others |
| `RefreshTokens.AuthStore.NativeSignUp` | app/routers/auth.py:111-145 | A new account gets its password and a first refresh token; a taken one is refused |
| `RefreshTokens.AuthStore.NativeLogin` | app/routers/auth.py:148-165 | Succeeds exactly with the account's password, and issues a token |
| `RefreshTokens.AuthStore.SignOut` | app/routers/auth.py:480-490 | Revokes every refresh token of the user and no other, and keeps accounts and passwords |
| `RefreshTokens.AuthStore.UpdatePassword` | app/routers/auth.py:529-543 | Stores the new password and revokes every refresh token of the user |
| `GreenPoints.AgreementExactly` | database/supabase_migrations/20260626120000_grower_dashboard_live_content.sql:227-277 | The ledger agrees with recomputation in every state of every run if and only if all awards of the admitted activities are positive or none is |
| `GreenPoints.AwardIs` | database/supabase_migrations/20260626120000_grower_dashboard_live_content.sql:232-244 | An activity earns the points of its own active rule, else of the active rule for notes, else none |
| `GreenPoints.AwardsByRules` | database/supabase_migrations/20260626120000_grower_dashboard_live_content.sql:232-244 | All awards are positive exactly when the rule for notes rewards and so does every active rule of an admitted activity; none is exactly when no rule of an admitted activity rewards |
| `GreenPoints.MixedRulesDisagree` | database/supabase_migrations/20260626120000_grower_dashboard_live_content.sql:246-274 | Otherwise a log moved from a rewarded to an unrewarded admitted activity keeps its old row |
| `GreenPoints.LedgerIsRecomputation` | database/supabase_migrations/20260626120000_grower_dashboard_live_content.sql:405-430 | In agreeing runs a grower's ledger total is the sum recomputed from the logs, and the backfill changes nothing |
| `GreenPoints.PointsDatabase.RecordGreenPoints` | database/supabase_migrations/20260626120000_grower_dashboard_live_content.sql:227-272 | The trigger inserts or overwrites the log's one row, field by field and keeping its owner, when the award is positive, and no other row |
| `GreenPoints.PointsDatabase.InsertActivityLog` | database/supabase_migrations/20260620152000_garden_management_tables.sql:77-91 | Inserts a log of one of the eleven admitted activities, firing the trigger, or changes nothing |
| `GreenPoints.PointsDatabase.UpdateActivityLog` | database/supabase_migrations/20260620152000_garden_management_tables.sql:77-91 | Edits a log to an admitted activity, firing the trigger, or changes nothing |
| `GreenPoints.PointsDatabase.Backfill` | database/supabase_migrations/20260626120000_grower_dashboard_live_content.sql:405-430 | The backfill inserts the missing rows and touches no other |

## Left out

- Transactions.LatestOpenIs: rows with equal `updated_at` are taken in insertion order; SQL leaves that order open. The same holds of the other queries that take one row.
- Schedules.DatesRecordedExactly: the casts between a day and a time are made in the database session's time zone, taken to be UTC.
- EvidenceGate.CaptureIs: only of ASCII categories; a character that folds to no ASCII text stands for itself, which makes no difference to the four checks.
- FilterCompiler.CompilerPreservesMeaning: how the database orders and matches values is a parameter; only null and equality with a text are fixed. A well-formed timestamp naming no real date, which raises an error, is not distinguished, and digits are those of ASCII.
- DataApi.DataStore.Select: the relation by which the database orders values that are not null is a parameter, and so is the sequence of rows that compare equal.
- DataApi.DataStore.Mutate: upsert, whose conflict clause rewrites an existing row; conversion of payload values to column types; foreign keys that delete along.
- GreenPoints.AgreementExactly: runs insert and edit logs; the owner of a log does not change. Points for workshops have their own source type and trigger.
- RefreshTokens.AcceptedAtMostOnceExactly: a refresh revokes the old token and issues the new one in one step, a password change stores the password and revokes in one; in between the source lets other transactions commit.
- The call-by-call variants of installation, planting, allocation, lead conversion, starting and submitting; only that of the status update is modelled.
- Generic edits of lifecycle tables through `/data/mutate`, the `/data/rpc` functions and the older draft and submit endpoints of inspections: outside the guarded workflow. The older submit writes `submitted_at` without the status, so RunLaws.BoardFollowsStatus, which reads `submitted_at` as "ever submitted", relies on leaving it out.
- The garden tasks the trigger on a new property seeds: nothing here reads that table. Its activity row is kept, as every activity row is, without its title.
- Rows that one transaction inserts while another runs: row locks do not hold them off, atomic steps do.
- The crop catalog: an allocation is given rows of the names asked for, whichever the catalog held.
- `auth.uid()` in triggers is the acting user, given as a parameter; so are all clocks.
- The link from allocation's activity rows to the points ledger; the two are modelled apart.
- JSON as text: evidence and details are maps of values, and a `photos` entry that is not a list counts as empty.
- HTTP, email, storage, token signing, row-level security, dashboards, orders and notifications. Passwords are compared as such, since hashing is not modelled; accounts come from sign-up alone, since Google sign-in is not.
