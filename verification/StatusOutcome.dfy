/** What a committed status update leaves behind, value by value, in terms of what its caller asked and of the
    rows it had read. */
module StatusOutcome {
  import opened Wrappers
  import opened Domain
  import opened StageBoard
  import opened Transactions
  import opened Requests
  import opened StageHistory
  import opened Invariants
  import opened StatusPreservation
  import opened Achievements
  import opened ReportOutcome
  import opened Runs
  import opened StaleClients
  import opened VisitLaws

  // ---------- What is planned ----------

  /** The submitted report of the garden, submitted last. */
  predicate LastSubmitted(reports: seq<Report>, g: Id, id: Id) {
    && id < |reports| && reports[id].garden == g && reports[id].status == SubmittedForApproval
    && forall i :: 0 <= i < |reports| && reports[i].garden == g && reports[i].status == SubmittedForApproval ==>
                     NoLater(reports[i].submittedAt, reports[id].submittedAt)
  }

  predicate AnySubmitted(reports: seq<Report>, property: Option<Id>) {
    property.Some? && exists i :: 0 <= i < |reports| && reports[i].garden == property.value
                                  && reports[i].status == SubmittedForApproval
  }

  /** An acceptance approves the last submitted report, with the caller's notes if there are any; a rejection
      rejects it, if the inspection was scheduled and one is there; nothing else decides a report. */
  ghost predicate DecisionPlanned(row: Request, target: RequestStatus, notes: Option<string>, reports: seq<Report>,
                                  decision: Option<ReportDecision>)
  {
    match target
    case Accepted =>
      && decision.Some? && row.property.Some? && LastSubmitted(reports, row.property.value, decision.value.report)
      && decision.value.status == Approved
      && decision.value.notes
         == Some(if notes.Some? && notes.value != "" then notes else reports[decision.value.report].notes)
    case Rejected =>
      && (decision.Some? <==> row.status == InspectionScheduled && AnySubmitted(reports, row.property))
      && (decision.Some? ==>
            && row.property.Some? && LastSubmitted(reports, row.property.value, decision.value.report)
            && decision.value.status == AssessmentRejected && decision.value.notes.None?)
    case _ => decision.None?
  }

  /** The stages each target writes. */
  function StagesPlanned(row: Request, target: RequestStatus, notes: Option<string>, visit: Option<Id>,
                         decided: Option<ReportDecision>, actor: Id): seq<StageUpdate>
  {
    var rationale := if notes.Some? then JText(notes.value) else JNull;
    match target
    case InspectionScheduled =>
      [StageUpdate(PropertyDetails, StageCompleted,
                   map[AddressEvidence := if row.site.address.Some? then JText(row.site.address.value) else JNull,
                       PropertyEvidence := if row.property.Some? then JId(row.property.value) else JNull], None),
       StageUpdate(PreliminaryAssessment, StageCompleted,
                   map[ResultEvidence := JWord(ManualReviewPassed), ReviewedBy := JId(actor)], None),
       StageUpdate(InspectorVisit, InProgress,
                   map[AssignmentEvidence := if visit.Some? then JId(visit.value) else JNull], Some(CompleteSiteVisit))]
    case Accepted =>
      [StageUpdate(Approval, StageCompleted,
                   map[Decision := JWord(DecisionApproved),
                       ReportEvidence := if decided.Some? then JId(decided.value.report) else JNull,
                       Rationale := rationale], None),
       StageUpdate(InstallationStage, Ready, map[], Some(PrepareInfrastructure))]
    case NeedingImplements =>
      [StageUpdate(InstallationStage, InProgress, map[WorkStartedBy := JId(actor)], None)]
    case Rejected =>
      [StageUpdate(Approval, StageRejected, map[Decision := JWord(DecisionRejected), Rationale := rationale], None)]
    case Cancelled =>
      [StageUpdate(Approval, Skipped, map[Decision := JWord(DecisionCancelled), Rationale := rationale], None)]
    case _ => []
  }

  lemma PendingIs(db: Db, property: Option<Id>)
    ensures PendingReport(db, property).Some? <==> AnySubmitted(db.reports, property)
    ensures PendingReport(db, property).Some? ==>
              property.Some? && LastSubmitted(db.reports, property.value, PendingReport(db, property).value)
  {
    if property.Some? {
      LatestReportIs(db.reports, property.value, SubmittedForApproval);
    }
  }

  /** A plan says exactly this, whatever was read. */
  lemma PlanSays(row: Request, target: RequestStatus, notes: Option<string>, seen: Seen, actor: Id, at: Time,
                 plan: StatusPlan)
    requires PlanPatch(row, target, notes, seen, actor, at) == Success(plan)
    ensures plan.expected == row.status && plan.patch.status == target && plan.patch.adminNotes == notes
    ensures plan.patch.reviewedBy == actor && plan.patch.reviewedAt == at
    ensures target != Live ==> plan.patch.details.None?
    ensures target == Live ==>
              plan.patch.details
              == Some(row.details + map[TrackingState := JWord(Tracking), TrackingStartedAt := JTime(at),
                                        TrackingStartedBy := JId(actor)])
    ensures DecisionPlanned(row, target, notes, seen.d1.reports, plan.decision)
    ensures plan.stages == StagesPlanned(row, target, notes, plan.assignment, plan.decision, actor)
    ensures plan.assignment.Some? <==> target == InspectionScheduled
    ensures plan.assignment.Some? ==>
              var a, rows := plan.assignment.value, seen.d1.assignments;
              a < |rows| && Open(rows[a]) && row.property == Some(rows[a].garden)
  {
    PendingIs(seen.d1, row.property);
  }

  // ---------- What is committed ----------

  /** The decided report: its status, and its notes when the decision has some. */
  function ReportsDecided(reports: seq<Report>, decision: Option<ReportDecision>): seq<Report>
    requires decision.Some? ==> decision.value.report < |reports|
  {
    if decision.None? then reports
    else
      var d, rep := decision.value, reports[decision.value.report];
      reports[d.report := rep.(status := d.status, notes := if d.notes.Some? then d.notes.value else rep.notes)]
  }

  /** The request's workflow first mirrors the decision, if there is one, and then has the stage updates. */
  ghost predicate WorkflowUpdated(w: Workflow, mid: Workflow, after: Workflow, reports: seq<Report>, plan: StatusPlan,
                                  actor: Id, now: Time)
    requires plan.decision.Some? ==> plan.decision.value.report < |reports|
  {
    && AllStages(w) && AllStages(mid) && AllStages(after)
    && (plan.decision.None? ==> mid == w)
    && (plan.decision.Some? ==>
          var rep := reports[plan.decision.value.report];
          Mirrors(w, mid, plan.decision.value.report, rep.gps, rep.findings, rep.startedAt,
                  plan.decision.value.status == SubmittedForApproval, actor, now))
    && AllLanded(Advancing, mid, plan.stages, actor, now, after)
  }

  lemma DecidedBoardLeaves(db: Db, r: Id, plan: StatusPlan, actor: Id, now: Time) returns (db1: Db)
    requires r < |db.workflows| && AllStages(db.workflows[r])
    requires plan.decision.Some? ==>
               plan.decision.value.report < |db.reports|
               && Newest(db.requests, db.reports[plan.decision.value.report].garden, r)
    ensures db1 == if plan.decision.Some? then DecideReport(db, plan.decision.value, actor, now) else db
    ensures db1 == db.(reports := ReportsDecided(db.reports, plan.decision), workflows := db1.workflows, events := db1.events)
    ensures |db1.workflows| == |db.workflows| && AllStages(db1.workflows[r])
    ensures forall q :: 0 <= q < |db.workflows| && q != r ==> db1.workflows[q] == db.workflows[q]
    ensures plan.decision.None? ==> db1.workflows[r] == db.workflows[r]
    ensures plan.decision.Some? ==>
              var rep := db.reports[plan.decision.value.report];
              Mirrors(db.workflows[r], db1.workflows[r], plan.decision.value.report, rep.gps, rep.findings, rep.startedAt,
                      plan.decision.value.status == SubmittedForApproval, actor, now)
  {
    db1 := db;
    if plan.decision.Some? {
      DecisionLeaves(db, plan.decision.value, actor, now, r);
      db1 := DecideReport(db, plan.decision.value, actor, now);
    }
  }

  /** A committed update: the request's row as patched, the decided report, and the workflow. */
  lemma UpdateLeaves(db: Db, r: Id, plan: StatusPlan, actor: Id, now: Time) returns (mid: Workflow)
    requires UpdateWorkflow(db, r, plan, actor, now).Committed?
    requires r < |db.workflows| && AllStages(db.workflows[r]) && DistinctKeys(plan.stages)
    requires plan.decision.Some? ==>
               plan.decision.value.report < |db.reports|
               && Newest(db.requests, db.reports[plan.decision.value.report].garden, r)
    ensures var after := UpdateWorkflow(db, r, plan, actor, now).db;
            && r < |db.requests| && r < |after.workflows| == |db.workflows|
            && after == db.(requests := after.requests, reports := ReportsDecided(db.reports, plan.decision),
                            workflows := after.workflows, events := after.events)
            && var was := db.requests[r];
               after.requests == db.requests[r := was.(
                 status := plan.patch.status,
                 adminNotes := if plan.patch.adminNotes.Some? then plan.patch.adminNotes else was.adminNotes,
                 details := if plan.patch.details.Some? then plan.patch.details.value else was.details,
                 reviewedBy := Some(plan.patch.reviewedBy), reviewedAt := Some(plan.patch.reviewedAt))]
    ensures var after := UpdateWorkflow(db, r, plan, actor, now).db;
            && WorkflowUpdated(db.workflows[r], mid, after.workflows[r], db.reports, plan, actor, now)
            && forall q :: 0 <= q < |db.workflows| && q != r ==> after.workflows[q] == db.workflows[q]
  {
    UpdateIs(db, r, plan, actor, now);
    var db1 := DecidedBoardLeaves(db, r, plan, actor, now);
    mid := db1.workflows[r];
    var rows := db1.(requests := db1.requests[r := PatchedRequest(db.requests[r], plan.patch)]);
    StageUpdatesLand(rows, Advancing, r, plan.stages, actor, now, r);
  }

  // ---------- In runs ----------

  lemma NewestOfOwn(db: Db, g: Id, r: Id)
    requires RowsFit(db) && r < |db.requests| && db.requests[r].property == Some(g)
    ensures Newest(db.requests, g, r)
  {
  }

  lemma WorkflowsWhole(db: Db, r: Id)
    requires Inv(db) && r < |db.requests|
    ensures r < |db.workflows| && AllStages(db.workflows[r])
  {
  }

  lemma PlannedKeysDiffer(row: Request, target: RequestStatus, notes: Option<string>, visit: Option<Id>,
                          decided: Option<ReportDecision>, actor: Id)
    ensures DistinctKeys(StagesPlanned(row, target, notes, visit, decided, actor))
  {
  }

  /** What the plan says of the rows read, and that a decision is of the request's own garden at the commit. */
  lemma PlanOfRun(trace: seq<Db>, acts: seq<Action>, n: nat, plan: StatusPlan)
    requires IsRun(trace, acts) && n < |acts| && PatchCommits(trace, acts, n, plan)
    ensures var a := acts[n];
            && a.readRequest <= a.readReports <= n && a.request < |trace[a.readRequest].requests|
            && a.request < |trace[n].workflows| && AllStages(trace[n].workflows[a.request])
            && DistinctKeys(plan.stages)
            && (plan.decision.Some? ==>
                  && plan.decision.value.report < |trace[n].reports|
                  && Newest(trace[n].requests, trace[n].reports[plan.decision.value.report].garden, a.request))
    ensures var a := acts[n];
            PlanPatch(trace[a.readRequest].requests[a.request], a.target, a.notes,
                      Seen(trace[a.readReports], trace[a.readInstallations], trace[a.readBatches]), a.actor, a.plannedAt)
            == Success(plan)
  {
    var a := acts[n];
    PlanRead(trace, acts, n, plan);
    PlanSays(trace[a.readRequest].requests[a.request], a.target, a.notes,
             Seen(trace[a.readReports], trace[a.readInstallations], trace[a.readBatches]), a.actor, a.plannedAt, plan);
    PlannedKeysDiffer(trace[a.readRequest].requests[a.request], a.target, a.notes, plan.assignment, plan.decision, a.actor);
    CommitMeansUnchanged(trace, acts, n, plan);
    DecisionIsOwn(trace, acts, n, plan);
    EveryStateFits(trace, acts, n);
    WorkflowsWhole(trace[n], a.request);
    if plan.decision.Some? {
      NewestOfOwn(trace[n], trace[n].reports[plan.decision.value.report].garden, a.request);
    }
  }

  /** In every run, a committed status update leaves: the request in its target with the caller's notes, reviewed
      by the actor, tracking started if it goes live, and otherwise the details it had; the report decided as
      `DecisionPlanned` says of the reports read; and the stages of the target written. */
  lemma PatchLeaves(trace: seq<Db>, acts: seq<Action>, n: nat, plan: StatusPlan) returns (mid: Workflow)
    requires IsRun(trace, acts) && n < |acts| && PatchCommits(trace, acts, n, plan)
    ensures var a, before, after := acts[n], trace[n], trace[n + 1];
            && a.readRequest <= a.readReports <= n && a.request < |trace[a.readRequest].requests|
            && a.request < |before.requests|
            && after == before.(requests := after.requests, reports := after.reports, workflows := after.workflows,
                                events := after.events)
            && var read, was := trace[a.readRequest].requests[a.request], before.requests[a.request];
               && DecisionPlanned(read, a.target, a.notes, trace[a.readReports].reports, plan.decision)
               && after.requests == before.requests[a.request := was.(
                    status := a.target, adminNotes := if a.notes.Some? then a.notes else was.adminNotes,
                    details := if a.target != Live then was.details
                               else read.details + map[TrackingState := JWord(Tracking),
                                                       TrackingStartedAt := JTime(a.plannedAt),
                                                       TrackingStartedBy := JId(a.actor)],
                    reviewedBy := Some(a.actor), reviewedAt := Some(a.plannedAt))]
               && plan.stages == StagesPlanned(read, a.target, a.notes, plan.assignment, plan.decision, a.actor)
    ensures var a, before, after := acts[n], trace[n], trace[n + 1];
            && (plan.decision.Some? ==> plan.decision.value.report < |before.reports|)
            && after.reports == ReportsDecided(before.reports, plan.decision)
            && a.request < |before.workflows| == |after.workflows|
            && WorkflowUpdated(before.workflows[a.request], mid, after.workflows[a.request], before.reports, plan,
                               a.actor, a.now)
            && forall q :: 0 <= q < |before.workflows| && q != a.request ==> after.workflows[q] == before.workflows[q]
  {
    var a := acts[n];
    PlanOfRun(trace, acts, n, plan);
    PlanSays(trace[a.readRequest].requests[a.request], a.target, a.notes,
             Seen(trace[a.readReports], trace[a.readInstallations], trace[a.readBatches]), a.actor, a.plannedAt, plan);
    PatchNext(trace, acts, n, plan);
    mid := UpdateLeaves(trace[n], a.request, plan, a.actor, a.now);
  }

  /** In every reachable state a report's garden has a request, whose workflow is whole: the one the report
      trigger writes. */
  lemma WorkflowOfReport(trace: seq<Db>, acts: seq<Action>, n: nat, id: Id) returns (q: Id)
    requires IsRun(trace, acts) && n < |trace| && id < |trace[n].reports|
    ensures Newest(trace[n].requests, trace[n].reports[id].garden, q)
    ensures q < |trace[n].workflows| && AllStages(trace[n].workflows[q])
  {
    EveryStateFits(trace, acts, n);
    GardenExists(trace[n], id);
    EveryPropertyIsUsed(trace, acts, n, trace[n].reports[id].garden);
    q :| 0 <= q < |trace[n].requests| && trace[n].requests[q].property == Some(trace[n].reports[id].garden);
    NewestOfOwn(trace[n], trace[n].reports[id].garden, q);
    WorkflowsWhole(trace[n], q);
  }

  lemma GardenExists(db: Db, id: Id)
    requires RowsFit(db) && id < |db.reports|
    ensures db.reports[id].garden < |db.properties|
  {
  }
}
