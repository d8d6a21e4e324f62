/** The database with its tables updated in place: each transaction runs step by step, fires the
    triggers of the rows it writes, and puts the tables back when it raises. */
module Gateway {
  import opened Wrappers
  import opened Domain
  import opened StageBoard
  import opened T = Transactions
  import opened CallByCall
  import EvidenceGate

  type Reply<T> = Result<T, ErrorCode>

  /** A transaction did what `spec` says: its result and new tables, or its error and no change. */
  ghost predicate Realizes<T>(before: Db, after: Db, spec: Outcome<T>, reply: Reply<T>) {
    match spec
    case Committed(db, value) => after == db && reply == Success(value)
    case Aborted(error) => after == before && reply == Failure(error)
  }

  /** What remains of a list of stage updates once some events have been appended. */
  function Continue(done: seq<StageEvent>, rest: Result<Board, ErrorCode>): Result<Board, ErrorCode> {
    match rest
    case Success(b) => Success(Append(done, b))
    case Failure(_) => rest
  }

  lemma ContinueFromNothing(rest: Result<Board, ErrorCode>)
    ensures Continue([], rest) == rest
  {
    if rest.Success? {
      assert [] + rest.value.events == rest.value.events;
    }
  }

  lemma StagesStep(how: Writer, r: Id, w: Workflow, us: seq<StageUpdate>, actor: Id, now: Time)
    requires us != []
    ensures WriteStages(how, r, w, us, actor, now)
            == if us[0].key !in w.stages then Failure(WorkflowStageMissing)
               else
                 var b := WriteStage(r, w, us[0].key, WrittenRow(how, w.stages[us[0].key], us[0], actor, now), actor, now);
                 Continue(b.events, WriteStages(how, r, b.workflow, us[1..], actor, now))
  {
  }

  lemma ContinueTwice(a: seq<StageEvent>, b: seq<StageEvent>, rest: Result<Board, ErrorCode>)
    ensures Continue(a, Continue(b, rest)) == Continue(a + b, rest)
  {
    if rest.Success? {
      assert a + (b + rest.value.events) == a + b + rest.value.events;
    }
  }

  function ContinueCalls(done: seq<StageEvent>, rest: Calls<Board>): Calls<Board> {
    Calls(Append(done, rest.result), rest.error)
  }

  lemma CallsFromNothing(rest: Calls<Board>)
    ensures ContinueCalls([], rest) == rest
  {
    assert [] + rest.result.events == rest.result.events;
  }

  lemma CallsStep(r: Id, w: Workflow, us: seq<StageUpdate>, actor: Id, clock: seq<Time>)
    requires us != [] && |clock| >= |us|
    ensures CallStages(r, w, us, actor, clock)
            == if us[0].key !in w.stages then Calls(Board(w, []), Some(WorkflowStageMissing))
               else
                 var b := WriteStage(r, w, us[0].key, CallByCallRow(w.stages[us[0].key], us[0], actor, clock[0]), actor, clock[0]);
                 ContinueCalls(b.events, CallStages(r, b.workflow, us[1..], actor, clock[1..]))
  {
  }

  lemma CallsTwice(a: seq<StageEvent>, b: seq<StageEvent>, rest: Calls<Board>)
    ensures ContinueCalls(a, ContinueCalls(b, rest)) == ContinueCalls(a + b, rest)
  {
    assert a + (b + rest.result.events) == a + b + rest.result.events;
  }

  lemma TouchAppends(r: Id, b: Board, k: StageKey, row: Stage, actor: Id, now: Time)
    ensures Touch(r, b, k, row, actor, now) == Append(b.events, Touch(r, Board(b.workflow, []), k, row, actor, now))
  {
    if k in b.workflow.stages {
      var e := WriteStage(r, b.workflow, k, row, actor, now).events;
      assert [] + e == e;
    } else {
      assert b.events + [] == b.events;
    }
  }

  /** A submission's further writes append to the events before them. */
  lemma SubmissionAppends(r: Id, b: Board, rep: Report, actor: Id, now: Time)
    ensures SyncSubmission(r, b, rep, actor, now)
            == Append(b.events, SyncSubmission(r, Board(b.workflow, []), rep, actor, now))
  {
    var row := RecommendationRow(StageOr(b.workflow, GardenRecommendation), rep, actor, now);
    TouchAppends(r, b, GardenRecommendation, row, actor, now);
    var b3 := Touch(r, b, GardenRecommendation, row, actor, now);
    var c3 := Touch(r, Board(b.workflow, []), GardenRecommendation, row, actor, now);
    var approval := StageOr(b3.workflow, Approval);
    if approval.status == NotStarted {
      var ready := approval.(status := Ready, nextAction := ReviewInspectionEvidence);
      TouchAppends(r, b3, Approval, ready, actor, now);
      TouchAppends(r, c3, Approval, ready, actor, now);
      var e := Touch(r, Board(b3.workflow, []), Approval, ready, actor, now).events;
      assert b.events + (c3.events + e) == b.events + c3.events + e;
    }
  }

  lemma BatchIdsOfAppended(rows: seq<Batch>, b: Batch, i: Id)
    ensures BatchIdsOf(rows + [b], i) == BatchIdsOf(rows, i) + (if b.installation == i then [|rows|] else [])
  {
    assert (rows + [b])[..|rows|] == rows;
  }

  /** UPDATE ... WHERE installation_id = i AND status IN ('planned', 'growing') RETURNING id */
  function PlantedIds(rows: seq<Batch>, i: Id): seq<Id> {
    if rows == [] then []
    else
      var n := |rows| - 1;
      PlantedIds(rows[..n], i)
      + (if rows[n].installation == i && (rows[n].status == BatchPlanned || rows[n].status == Growing) then [n] else [])
  }

  /** Batches checked under lock are the batches then updated. */
  lemma {:induction false} AllArePlanted(rows: seq<Batch>, i: Id)
    requires Plantable(rows, BatchIdsOf(rows, i))
    ensures PlantedIds(rows, i) == BatchIdsOf(rows, i)
  {
    if rows != [] {
      var n := |rows| - 1;
      assert forall b :: b in BatchIdsOf(rows[..n], i) ==> b in BatchIdsOf(rows, i);
      PlantedWithin(rows[..n], i, rows);
      AllArePlanted(rows[..n], i);
      assert rows[n].installation == i ==> n in BatchIdsOf(rows, i);
    }
  }

  lemma {:induction false} PlantedWithin(rows: seq<Batch>, i: Id, all: seq<Batch>)
    requires rows <= all && Plantable(all, BatchIdsOf(rows, i))
    ensures Plantable(rows, BatchIdsOf(rows, i))
  {
    IdsWithin(rows, i);
  }

  lemma {:induction false} IdsWithin(rows: seq<Batch>, i: Id)
    ensures forall b :: b in BatchIdsOf(rows, i) ==> b < |rows|
  {
    if rows != [] {
      IdsWithin(rows[..|rows| - 1], i);
    }
  }

  class GardenDatabase {
    var leads: seq<Lead>
    var inspectorActive: seq<bool>
    var requests: seq<Request>
    var properties: seq<Property>
    var assignments: seq<Assignment>
    var reports: seq<Report>
    var items: seq<ChecklistItem>
    var photos: seq<Photo>
    var installations: seq<Installation>
    var batches: seq<Batch>
    var activities: seq<Activity>
    var workflows: seq<Workflow>
    var events: seq<StageEvent>

    constructor (db: Db)
      ensures Snapshot() == db
    {
      leads, inspectorActive, requests, properties := db.leads, db.inspectorActive, db.requests, db.properties;
      assignments, reports, items, photos := db.assignments, db.reports, db.items, db.photos;
      installations, batches, activities := db.installations, db.batches, db.activities;
      workflows, events := db.workflows, db.events;
    }

    function Snapshot(): Db
      reads this
    {
      Db(leads, inspectorActive, requests, properties, assignments, reports, items, photos, installations, batches,
         activities, workflows, events)
    }

    method Rollback(before: Db)
      modifies this
      ensures Snapshot() == before
    {
      RollbackSetup(before);
      RollbackVisits(before);
      leads, inspectorActive, requests, workflows, events :=
        before.leads, before.inspectorActive, before.requests, before.workflows, before.events;
    }

    method RollbackSetup(before: Db)
      modifies `properties, `installations, `batches, `activities
      ensures properties == before.properties && installations == before.installations
      ensures batches == before.batches && activities == before.activities
    {
      properties, installations := before.properties, before.installations;
      batches, activities := before.batches, before.activities;
    }

    method RollbackVisits(before: Db)
      modifies `assignments, `reports, `items, `photos
      ensures assignments == before.assignments && reports == before.reports
      ensures items == before.items && photos == before.photos
    {
      assignments, reports := before.assignments, before.reports;
      items, photos := before.items, before.photos;
    }

    // ---------- Triggers ----------

    /** audit_workflow_stage_change */
    method AuditStageChange(r: Id, k: StageKey, was: Stage, row: Stage, actor: Id)
      modifies `events
      ensures events == old(events) + AuditEvents(r, k, was, row, actor)
    {
      if was.status != row.status || was.evidence != row.evidence {
        events := events + [StageEvent(r, k, actor, was.status, row.status, row.evidence)];
      }
    }

    /** sync_current_operational_workflow_stage */
    method SyncCurrentStage(r: Id, k: StageKey, row: Stage, now: Time)
      requires r < |workflows|
      modifies `workflows
      ensures workflows == old(workflows)[r := SyncHeader(old(workflows)[r], k, row, now)]
    {
      var w := workflows[r];
      if w.status != WorkflowCompleted && w.status != WorkflowCancelled {
        w := w.(currentStage := k);
        if Cancels(row) {
          w := w.(status := WorkflowCancelled, completedAt := Some(OrElse(w.completedAt, now)));
        }
        workflows := workflows[r := w];
      }
    }

    /** UPDATE of one workflow_stages row. */
    method UpdateStage(r: Id, k: StageKey, row: Stage, actor: Id, now: Time)
      requires r < |workflows| && k in workflows[r].stages
      modifies `workflows, `events
      ensures var b := WriteStage(r, old(workflows)[r], k, row, actor, now);
              workflows == old(workflows)[r := b.workflow] && events == old(events) + b.events
    {
      var w := workflows[r];
      workflows := workflows[r := w.(stages := w.stages[k := row])];
      AuditStageChange(r, k, w.stages[k], row, actor);
      SyncCurrentStage(r, k, row, now);
    }

    method AdvanceStages(how: Writer, r: Id, us: seq<StageUpdate>, actor: Id, now: Time)
      returns (error: Option<ErrorCode>)
      modifies `workflows, `events
      ensures var spec := CommitStages(old(Snapshot()), how, r, us, actor, now, ());
              match error
              case None => spec == Committed(Snapshot(), ())
              case Some(e) => spec == Aborted(e)
    {
      if us == [] {
        return None;
      }
      if r >= |workflows| {
        return Some(WorkflowStageMissing);
      }
      error := WriteEachStage(how, r, us, actor, now);
    }

    /** The stage loop of the gateway: each stage is looked up, merged and written. */
    method WriteEachStage(how: Writer, r: Id, us: seq<StageUpdate>, actor: Id, now: Time)
      returns (error: Option<ErrorCode>)
      requires r < |workflows|
      modifies `workflows, `events
      ensures match WriteStages(how, r, old(workflows)[r], us, actor, now)
              case Success(b) =>
                error == None && workflows == old(workflows)[r := b.workflow] && events == old(events) + b.events
              case Failure(e) => error == Some(e)
    {
      ghost var w0, done: seq<StageEvent> := workflows[r], [];
      ContinueFromNothing(WriteStages(how, r, w0, us, actor, now));
      assert us[0..] == us;
      for n := 0 to |us|
        invariant |workflows| == |old(workflows)| && workflows == old(workflows)[r := workflows[r]]
        invariant events == old(events) + done
        invariant WriteStages(how, r, w0, us, actor, now)
                  == Continue(done, WriteStages(how, r, workflows[r], us[n..], actor, now))
      {
        var u := us[n];
        StagesStep(how, r, workflows[r], us[n..], actor, now);
        assert us[n..][0] == u && us[n..][1..] == us[n + 1..];
        if u.key !in workflows[r].stages {
          return Some(WorkflowStageMissing);
        }
        var row := WrittenRow(how, workflows[r].stages[u.key], u, actor, now);
        ghost var b := WriteStage(r, workflows[r], u.key, row, actor, now);
        ContinueTwice(done, b.events, WriteStages(how, r, b.workflow, us[n + 1..], actor, now));
        UpdateStage(r, u.key, row, actor, now);
        done := done + b.events;
      }
      assert us[|us|..] == [];
      return None;
    }

    /** sync_inspection_to_operational_workflow, fired by the report row `id`. */
    method SyncInspectionReport(id: Id, actor: Id, now: Time)
      requires id < |reports|
      modifies `workflows, `events
      ensures Snapshot() == SyncInspection(old(Snapshot()), id, actor, now)
    {
      var found := LastRequestFor(requests, reports[id].garden);
      if found.Some? && found.value < |workflows| {
        SyncWorkflow(found.value, id, reports[id], actor, now);
      }
    }

    method SyncWorkflow(r: Id, id: Id, rep: Report, actor: Id, now: Time)
      requires r < |workflows|
      modifies `workflows, `events
      ensures var b := SyncReport(r, old(workflows)[r], id, rep, actor, now);
              workflows == old(workflows)[r := b.workflow] && events == old(events) + b.events
    {
      MirrorReport(r, id, rep, actor, now);
      if rep.status == SubmittedForApproval {
        SubmissionAppends(r, SyncVisit(r, old(workflows)[r], id, rep, actor, now), rep, actor, now);
        CompleteRecommendation(r, rep, actor, now);
        workflows := workflows[r := workflows[r].(currentStage := Approval)];
      } else {
        workflows := workflows[r := workflows[r].(currentStage := InspectorVisit)];
      }
    }

    /** The trigger's writes for any report. */
    method MirrorReport(r: Id, id: Id, rep: Report, actor: Id, now: Time)
      requires r < |workflows|
      modifies `workflows, `events
      ensures var b := SyncVisit(r, old(workflows)[r], id, rep, actor, now);
              workflows == old(workflows)[r := b.workflow] && events == old(events) + b.events
    {
      if InspectorVisit in workflows[r].stages {
        UpdateStage(r, InspectorVisit, VisitRow(workflows[r].stages[InspectorVisit], id, rep, actor, now), actor, now);
      }
      if rep.findings.Some? && SiteScore in workflows[r].stages {
        UpdateStage(r, SiteScore, ScoreRow(workflows[r].stages[SiteScore], rep, actor, now), actor, now);
      }
    }

    /** The trigger's further writes for a submitted report. */
    method CompleteRecommendation(r: Id, rep: Report, actor: Id, now: Time)
      requires r < |workflows|
      modifies `workflows, `events
      ensures var b := SyncSubmission(r, Board(old(workflows)[r], []), rep, actor, now);
              workflows == old(workflows)[r := b.workflow] && events == old(events) + b.events
    {
      if GardenRecommendation in workflows[r].stages {
        UpdateStage(r, GardenRecommendation,
                    RecommendationRow(workflows[r].stages[GardenRecommendation], rep, actor, now), actor, now);
      }
      if Approval in workflows[r].stages && workflows[r].stages[Approval].status == NotStarted {
        UpdateStage(r, Approval,
                    workflows[r].stages[Approval].(status := Ready, nextAction := ReviewInspectionEvidence), actor, now);
      }
    }

    // ---------- Requests and leads ----------

    /** INSERT INTO garden_requests, with the trigger that seeds its workflow. */
    method InsertRequestRow(row: Request) returns (r: Id)
      modifies `requests, `workflows
      ensures r == |old(requests)| && Snapshot() == InsertRequest(old(Snapshot()), row)
    {
      r := |requests|;
      requests := requests + [row];
      workflows := workflows + [SeedWorkflow(row.owner)];
    }

    method ConvertAssessmentLead(lead: Id, row: Request, actor: Id, now: Time) returns (reply: Reply<Conversion>)
      modifies this
      ensures Realizes(old(Snapshot()), Snapshot(), ConvertLead(old(Snapshot()), lead, row, actor, now), reply)
    {
      if lead >= |leads| {
        return Failure(AssessmentLeadNotFound);
      }
      var existing := LeadRequest(requests, lead);
      var conversion;
      if existing.None? {
        var r := InsertRequestRow(row);
        conversion := Conversion(r, true);
      } else {
        conversion := Conversion(existing.value, false);
      }
      leads := leads[lead := Lead(Converted, row.adminNotes, Some(actor), Some(now))];
      return Success(conversion);
    }

    // ---------- Scheduling ----------

    /** sync_inspection_assignment_schedule, before an UPDATE. */
    method SyncAssignmentSchedule(before: Visit, v: Visit) returns (stored: Visit)
      ensures stored == SyncedVisit(before, v)
    {
      stored := v;
      if v.scheduledFor != before.scheduledFor {
        stored := stored.(dueDate := DayOf(v.scheduledFor));
      } else if v.dueDate != before.dueDate {
        stored := stored.(scheduledFor := Midnight(v.dueDate));
      }
    }

    /** The open assignment of the property is rescheduled, or a pending one inserted. */
    method PlaceVisit(p: Id, s: Schedule, now: Time) returns (a: Id)
      modifies `assignments
      ensures assignments == WithVisit(old(assignments), p, s, now) && a == VisitAssignment(old(assignments), p)
    {
      var open := LatestOpen(assignments, p);
      if open.Some? {
        a := open.value;
        var row := assignments[a];
        var visit := SyncAssignmentSchedule(row.visit, s.visit);
        assignments := assignments[a := row.(inspector := s.inspector, visit := visit, updatedAt := now)];
      } else {
        a := |assignments|;
        assignments := assignments + [Assignment(s.inspector, p, s.visit, Pending, None, None, now)];
      }
    }

    /** The rows scheduling writes before the stages. */
    method WriteScheduleRows(r: Id, s: Schedule, actor: Id, now: Time) returns (p: Id, a: Id)
      requires r < |requests|
      modifies `properties, `activities, `assignments, `requests
      ensures Snapshot() == ScheduleRows(old(Snapshot()), r, s, actor, now)
      ensures p == LinkedProperty(old(Snapshot()), old(requests)[r]) && a == VisitAssignment(old(assignments), p)
    {
      var row := requests[r];
      if row.property.None? {
        p := |properties|;
        activities := WithPropertyLog(activities, properties, row);
        properties := properties + [Property(row.owner, row.site, PropertyNotes(row))];
      } else {
        p := row.property.value;
      }
      a := PlaceVisit(p, s, now);
      requests := requests[r := ScheduledRequest(row, p, a, s, actor, now)];
    }

    method ScheduleGardenRequestInspection(r: Id, s: Schedule, actor: Id, now: Time) returns (reply: Reply<Scheduled>)
      modifies this
      ensures Realizes(old(Snapshot()), Snapshot(), ScheduleInspection(old(Snapshot()), r, s, actor, now), reply)
    {
      if r >= |requests| {
        return Failure(RequestNotFound);
      }
      var row := requests[r];
      if row.status != Submitted && row.status != InspectionScheduled {
        return Failure(InvalidRequestTransition);
      }
      if s.inspector >= |inspectorActive| || !inspectorActive[s.inspector] {
        return Failure(InspectorUnavailable);
      }
      if row.property.Some?
         && (row.property.value >= |properties| || properties[row.property.value].owner != row.owner)
      {
        return Failure(GardenPropertyMismatch);
      }
      var before := Snapshot();
      var p, a := WriteScheduleRows(r, s, actor, now);
      var error := AdvanceStages(Advancing, r, ScheduleStages(row.site.address, JId(p), JId(a), actor), actor, now);
      if error.Some? {
        Rollback(before);
        return Failure(error.value);
      }
      return Success(Scheduled(r, a));
    }

    // ---------- Inspections ----------

    method StartInspectionReport(a: Id, inspector: Id, gps: Gps, template: seq<TemplateRow>, now: Time)
      returns (reply: Reply<Id>)
      modifies this
      ensures Realizes(old(Snapshot()), Snapshot(),
                       StartReport(old(Snapshot()), a, inspector, gps, template, now), reply)
    {
      if a >= |assignments| || assignments[a].inspector != inspector {
        return Failure(InspectionAssignmentNotFound);
      }
      var existing := ReportOf(reports, a);
      var id;
      if existing.Some? {
        id := existing.value;
      } else {
        id := |reports|;
        reports := reports + [Report(a, inspector, assignments[a].garden, OverallPending, None, gps, false, None, Draft,
                                     Some(now), None)];
      }
      assignments := assignments[a := StartedAssignment(assignments[a], now)];
      if !HasChecklist(items, id) {
        items := items + SeededItems(id, template);
      }
      return Success(id);
    }

    method SaveAssessmentDraft(id: Id, seen: AssessmentStatus, inspector: Id, v: Assessment, actor: Id, now: Time)
      returns (reply: Reply<Id>)
      modifies this
      ensures Realizes(old(Snapshot()), Snapshot(),
                       SaveAssessment(old(Snapshot()), id, seen, inspector, v, actor, now), reply)
    {
      if id >= |reports| {
        return Failure(InspectionReportNotFound);
      }
      if reports[id].inspector != inspector {
        return Failure(InspectionReportForbidden);
      }
      if seen == SubmittedForApproval {
        return Failure(AssessmentAlreadySubmitted);
      }
      reports := reports[id := reports[id].(notes := v.notes, gps := v.gps, findings := Some(v.findings), status := Draft)];
      SyncInspectionReport(id, actor, now);
      return Success(id);
    }

    method UpsertChecklistItem(id: Id, row: ChecklistItem, inspector: Id) returns (reply: Reply<Id>)
      modifies this
      ensures Realizes(old(Snapshot()), Snapshot(), SaveItem(old(Snapshot()), id, row, inspector), reply)
    {
      var denied := ReportAccess(Snapshot(), row.report, inspector);
      if denied.Some? {
        return Failure(denied.value);
      }
      if id < |items| {
        items := items[id := row];
        return Success(id);
      }
      items := items + [row];
      return Success(|items| - 1);
    }

    /** The owner's upload of a garden photo writes the details it assembled. */
    method UpdateRequestDetails(r: Id, owner: Id, details: Details) returns (reply: Reply<Id>)
      modifies this
      ensures Realizes(old(Snapshot()), Snapshot(), WriteDetails(old(Snapshot()), r, owner, details), reply)
    {
      if r >= |requests| || requests[r].owner != owner {
        return Failure(RequestChanged);
      }
      requests := requests[r := requests[r].(details := details)];
      return Success(r);
    }

    method UploadPhoto(row: Photo, inspector: Id) returns (reply: Reply<Id>)
      modifies this
      ensures Realizes(old(Snapshot()), Snapshot(), AddPhoto(old(Snapshot()), row, inspector), reply)
    {
      var denied := ReportAccess(Snapshot(), row.report, inspector);
      if denied.Some? {
        return Failure(denied.value);
      }
      if row.item.Some? && row.item.value >= |items| {
        return Failure(ForeignKeyViolation);
      }
      photos := photos + [row];
      return Success(|photos| - 1);
    }

    method SubmitInspectionForApproval(id: Id, a: Id, inspector: Id, v: Assessment, overall: OverallStatus,
                                       followUp: bool, at: Time, actor: Id, now: Time)
      returns (reply: Reply<Id>)
      modifies this
      ensures Realizes(old(Snapshot()), Snapshot(),
                       SubmitForApproval(old(Snapshot()), id, a, inspector, v, overall, followUp, at, actor, now), reply)
    {
      if id >= |reports| || reports[id].assignment != a || reports[id].inspector != inspector {
        return Failure(InspectionReportNotFound);
      }
      if reports[id].status == SubmittedForApproval {
        return Failure(AssessmentAlreadySubmitted);
      }
      if a >= |assignments| || assignments[a].inspector != inspector {
        return Failure(InspectionAssignmentNotFound);
      }
      var checklist := ItemsOf(items, id);
      if checklist == [] {
        return Failure(InspectionChecklistMissing);
      }
      var missingResults, missingPhotos := EvidenceGate.InspectionEvidenceGaps(checklist, PhotosOf(photos, id));
      if missingResults != [] || missingPhotos != [] {
        return Failure(InspectionEvidenceIncomplete);
      }
      reports := reports[id := SubmittedReport(reports[id], v, overall, followUp, at)];
      SyncInspectionReport(id, actor, now);
      assignments := assignments[a := assignments[a].(status := VisitCompleted, completedAt := Some(at), updatedAt := now)];
      return Success(id);
    }

    // ---------- Status updates ----------

    /** UPDATE inspection_reports ... WHERE assessment_status = 'submitted_for_approval' RETURNING id */
    method DecidePendingReport(d: ReportDecision, actor: Id, now: Time) returns (found: bool)
      modifies this
      ensures found <==> DecisionStillPending(old(Snapshot()), d)
      ensures Snapshot() == if found then DecideReport(old(Snapshot()), d, actor, now) else old(Snapshot())
    {
      if d.report >= |reports| || reports[d.report].status != SubmittedForApproval {
        return false;
      }
      var row := reports[d.report];
      if d.notes.Some? {
        row := row.(notes := d.notes.value);
      }
      reports := reports[d.report := row.(status := d.status)];
      SyncInspectionReport(d.report, actor, now);
      return true;
    }

    /** The checks made under lock before anything is written. */
    method CheckUpdate(r: Id, plan: StatusPlan) returns (error: Option<ErrorCode>)
      ensures error.Some? ==> forall actor, now :: UpdateWorkflow(Snapshot(), r, plan, actor, now) == Aborted(error.value)
      ensures error.None? ==>
                && r < |requests| && requests[r].status == plan.expected
                && (plan.patch.status == Live ==> ActivationError(Snapshot(), requests[r].property).None?)
                && (plan.assignment.Some? ==>
                      AssignmentStillOpen(Snapshot(), plan.assignment.value, requests[r].property))
    {
      if r >= |requests| {
        return Some(RequestNotFound);
      }
      if requests[r].status != plan.expected {
        return Some(RequestChanged);
      }
      if plan.patch.status == Live {
        var unready := ActivationError(Snapshot(), requests[r].property);
        if unready.Some? {
          return unready;
        }
      }
      if plan.assignment.Some? && !AssignmentStillOpen(Snapshot(), plan.assignment.value, requests[r].property) {
        return Some(InspectorAssignmentRequired);
      }
      return None;
    }

    /** The request UPDATE and the stage loop. */
    method PatchRequest(r: Id, patch: RequestPatch, stages: seq<StageUpdate>, actor: Id, now: Time)
      returns (error: Option<ErrorCode>)
      requires r < |requests|
      modifies `requests, `workflows, `events
      ensures var was := old(Snapshot());
              var rows := was.(requests := was.requests[r := PatchedRequest(was.requests[r], patch)]);
              CommitStages(rows, Advancing, r, stages, actor, now, r)
              == if error.None? then Committed(Snapshot(), r) else Aborted(error.value)
    {
      requests := requests[r := PatchedRequest(requests[r], patch)];
      error := AdvanceStages(Advancing, r, stages, actor, now);
    }

    method UpdateGardenRequestWorkflow(r: Id, plan: StatusPlan, actor: Id, now: Time) returns (reply: Reply<Id>)
      modifies this
      ensures Realizes(old(Snapshot()), Snapshot(), UpdateWorkflow(old(Snapshot()), r, plan, actor, now), reply)
    {
      var unmet := CheckUpdate(r, plan);
      if unmet.Some? {
        return Failure(unmet.value);
      }
      var before := Snapshot();
      if plan.decision.Some? {
        var found := DecidePendingReport(plan.decision.value, actor, now);
        if !found {
          return Failure(AssessmentChanged);
        }
      }
      var error := PatchRequest(r, plan.patch, plan.stages, actor, now);
      if error.Some? {
        Rollback(before);
        return Failure(error.value);
      }
      return Success(r);
    }

    // ---------- Status updates by separate calls ----------

    /** advance_workflow_stage: reads the workflow and the stage, then overwrites the stage row. */
    method AdvanceWorkflowStage(r: Id, u: StageUpdate, actor: Id, now: Time) returns (error: Option<ErrorCode>)
      modifies `workflows, `events
      ensures error == if r >= |old(workflows)| then Some(WorkflowMissing)
                       else if u.key !in old(workflows)[r].stages then Some(WorkflowStageMissing) else None
      ensures if error.Some? then workflows == old(workflows) && events == old(events)
              else
                var w := old(workflows)[r];
                var b := WriteStage(r, w, u.key, CallByCallRow(w.stages[u.key], u, actor, now), actor, now);
                workflows == old(workflows)[r := b.workflow] && events == old(events) + b.events
    {
      if r >= |workflows| {
        return Some(WorkflowMissing);
      }
      if u.key !in workflows[r].stages {
        return Some(WorkflowStageMissing);
      }
      var stage := workflows[r].stages[u.key];
      var row := stage.(status := u.status, owner := Some(actor), evidence := stage.evidence + u.evidence,
                        startedAt := Some(OrElse(stage.startedAt, now)));
      if u.status == StageCompleted || u.status == StageRejected {
        row := row.(completedAt := Some(now));
      }
      if u.status == StageSubmitted {
        row := row.(submittedAt := Some(now));
      }
      if u.nextAction.Some? {
        row := row.(nextAction := u.nextAction.value);
      }
      UpdateStage(r, u.key, row, actor, now);
      return None;
    }

    method AdvanceEach(r: Id, us: seq<StageUpdate>, actor: Id, clock: seq<Time>) returns (error: Option<ErrorCode>)
      requires r < |workflows| && |clock| >= |us|
      modifies `workflows, `events
      ensures var c := CallStages(r, old(workflows)[r], us, actor, clock);
              && error == c.error
              && workflows == old(workflows)[r := c.result.workflow] && events == old(events) + c.result.events
    {
      ghost var w0, done: seq<StageEvent> := workflows[r], [];
      CallsFromNothing(CallStages(r, w0, us, actor, clock));
      assert us[0..] == us && clock[0..] == clock;
      for n := 0 to |us|
        invariant |workflows| == |old(workflows)| && workflows == old(workflows)[r := workflows[r]]
        invariant events == old(events) + done
        invariant CallStages(r, w0, us, actor, clock)
                  == ContinueCalls(done, CallStages(r, workflows[r], us[n..], actor, clock[n..]))
      {
        var u := us[n];
        ghost var w := workflows[r];
        CallsStep(r, w, us[n..], actor, clock[n..]);
        assert us[n..][1..] == us[n + 1..] && clock[n..][1..] == clock[n + 1..];
        var failed := AdvanceWorkflowStage(r, u, actor, clock[n]);
        if failed.Some? {
          return failed;
        }
        ghost var b := WriteStage(r, w, u.key, CallByCallRow(w.stages[u.key], u, actor, clock[n]), actor, clock[n]);
        CallsTwice(done, b.events, CallStages(r, b.workflow, us[n + 1..], actor, clock[n + 1..]));
        done := done + b.events;
      }
      assert us[|us|..] == [];
      return None;
    }

    method AdvanceStagesByCalls(r: Id, us: seq<StageUpdate>, actor: Id, clock: seq<Time>)
      returns (error: Option<ErrorCode>)
      requires |clock| >= |us|
      modifies `workflows, `events
      ensures Calls(Snapshot(), error) == StagesByCalls(old(Snapshot()), r, us, actor, clock)
    {
      if us == [] {
        return None;
      }
      if r >= |workflows| {
        return Some(WorkflowMissing);
      }
      error := AdvanceEach(r, us, actor, clock);
    }

    method UpdateStatusByCalls(r: Id, plan: StatusPlan, actor: Id, now: Time, clock: seq<Time>)
      returns (error: Option<ErrorCode>)
      requires |clock| >= |plan.stages|
      modifies this
      ensures Calls(Snapshot(), error) == UpdateByCalls(old(Snapshot()), r, plan, actor, now, clock)
    {
      if r >= |requests| || requests[r].status != plan.expected {
        return Some(RequestChanged);
      }
      requests := requests[r := PatchedRequest(requests[r], plan.patch)];
      if plan.decision.Some? {
        var d := plan.decision.value;
        if d.report < |reports| {
          var notes := if d.notes.Some? then d.notes.value else reports[d.report].notes;
          reports := reports[d.report := reports[d.report].(status := d.status, notes := notes)];
          SyncInspectionReport(d.report, actor, now);
        } else if d.status == Approved {
          requests := requests[r := requests[r].(status := plan.expected)];
          return Some(AssessmentApprovalFailed);
        }
      }
      error := AdvanceStagesByCalls(r, plan.stages, actor, clock);
    }

    // ---------- Installation ----------

    /** The property's first installation is overwritten, or one inserted. */
    method RecordInstallation(r: Id, p: Id, facts: InstallationFacts, at: Time) returns (id: Id)
      requires r < |requests|
      modifies `installations, `requests
      ensures (Snapshot(), id) == InstallRows(old(Snapshot()), r, p, facts, at)
    {
      var row := Installation(p, requests[r].owner, facts, Active, Some(at));
      var existing := FirstInstallation(installations, p);
      if existing.Some? {
        id := existing.value;
        installations := installations[id := row];
      } else {
        id := |installations|;
        installations := installations + [row];
      }
      requests := requests[r := requests[r].(status := ImplementsInstalled)];
    }

    method CompleteGardenInstallation(r: Id, p: Id, facts: InstallationFacts, at: Time, actor: Id, now: Time)
      returns (reply: Reply<Id>)
      modifies this
      ensures Realizes(old(Snapshot()), Snapshot(),
                       CompleteInstallation(old(Snapshot()), r, p, facts, at, actor, now), reply)
    {
      if r >= |requests| {
        return Failure(RequestNotFound);
      }
      if requests[r].status != NeedingImplements || requests[r].property != Some(p) {
        return Failure(RequestChanged);
      }
      if ApprovedReport(reports, p).None? {
        return Failure(InspectionApprovalRequired);
      }
      if !StagesPresent(Snapshot(), r, [InstallationStage, CropAllocation]) {
        return Failure(WorkflowStageMissing);
      }
      var before := Snapshot();
      var id := RecordInstallation(r, p, facts, at);
      var error := AdvanceStages(Overwriting, r, InstallStages(id, facts, at), actor, now);
      if error.Some? {
        Rollback(before);
        return Failure(error.value);
      }
      return Success(id);
    }

    // ---------- Planting ----------

    /** UPDATE crop_batches ... RETURNING id */
    method PlantBatches(i: Id, at: Time) returns (updated: seq<Id>)
      modifies `batches
      ensures batches == PlantedRows(old(batches), i, at) && updated == PlantedIds(old(batches), i)
    {
      ghost var was := batches;
      updated := [];
      for n := 0 to |batches|
        invariant |batches| == |was|
        invariant forall k :: 0 <= k < n ==> batches[k] == PlantedRow(was[k], i, at)
        invariant forall k :: n <= k < |was| ==> batches[k] == was[k]
        invariant updated == PlantedIds(was[..n], i)
      {
        assert was[..n + 1][..n] == was[..n];
        var b := batches[n];
        if b.installation == i && (b.status == BatchPlanned || b.status == Growing) {
          batches := batches[n := b.(status := Growing, plantedAt := Some(at))];
          updated := updated + [n];
        }
      }
      assert was[..|was|] == was;
    }

    method CompleteGardenPlanting(r: Id, at: Time, actor: Id, now: Time) returns (reply: Reply<Id>)
      modifies this
      ensures Realizes(old(Snapshot()), Snapshot(), CompletePlanting(old(Snapshot()), r, at, actor, now), reply)
    {
      if r >= |requests| {
        return Failure(RequestNotFound);
      }
      var row := requests[r];
      if row.status != Seeds {
        return Failure(AllocationRequired);
      }
      if row.property.None? {
        return Failure(PropertyRequired);
      }
      var i := FirstActive(installations, row.property.value);
      if i.None? || installations[i.value].installedAt.None? {
        return Failure(InstallationNotComplete);
      }
      var ids := BatchIdsOf(batches, i.value);
      if ids == [] {
        return Failure(CropAllocationRequired);
      }
      if !Plantable(batches, ids) {
        return Failure(CropBatchStateInvalid);
      }
      if !StagesPresent(Snapshot(), r, [MaintenanceTasks]) {
        return Failure(WorkflowStageMissing);
      }
      var before := Snapshot();
      AllArePlanted(batches, i.value);
      var updated := PlantBatches(i.value, at);
      if |updated| != |ids| {
        // The rows were locked when they were counted.
        assert false;
      }
      requests := requests[r := row.(status := FinalInstall)];
      var error := AdvanceStages(Overwriting, r, PlantStages(ids, at), actor, now);
      if error.Some? {
        Rollback(before);
        return Failure(error.value);
      }
      return Success(r);
    }

    // ---------- Allocation ----------

    /** The crop loop: a planned batch for each requested crop the installation does not hold yet. */
    method AllocateBatches(i: Id, owner: Id, crops: seq<Crop>) returns (ids: seq<Id>)
      modifies `batches
      ensures batches == AllocatedBatches(old(batches), i, owner, HeldCrops(old(batches), i), crops)
      ensures ids == BatchIdsOf(batches, i)
    {
      var held := HeldCrops(batches, i);
      ids := BatchIdsOf(batches, i);
      assert crops[0..] == crops;
      for n := 0 to |crops|
        invariant AllocatedBatches(batches, i, owner, held, crops[n..])
                  == AllocatedBatches(old(batches), i, owner, HeldCrops(old(batches), i), crops)
        invariant ids == BatchIdsOf(batches, i)
      {
        assert crops[n..][0] == crops[n] && crops[n..][1..] == crops[n + 1..];
        if crops[n].id !in held {
          BatchIdsOfAppended(batches, NewBatch(i, owner, crops[n]), i);
          ids := ids + [|batches|];
          batches := batches + [NewBatch(i, owner, crops[n])];
          held := held + {crops[n].id};
        }
      }
    }

    /** The rows allocation writes before the stages. */
    method WriteAllocationRows(r: Id, i: Id, v: Allocation, actor: Id, now: Time) returns (ids: seq<Id>)
      requires r < |requests| && v.property < |properties|
      modifies `properties, `batches, `requests, `activities
      ensures Snapshot() == AllocationRows(old(Snapshot()), r, i, v, actor, now)
      ensures ids == BatchIdsOf(batches, i)
    {
      var row := requests[r];
      properties := properties[v.property := properties[v.property].(site := v.site, notes := v.notes)];
      ids := AllocateBatches(i, row.owner, v.crops);
      requests := requests[r := row.(status := Seeds, reviewedBy := Some(actor), reviewedAt := Some(now),
                                     adminNotes := v.adminNotes, details := AllocationDetails(row.details, v.updates))];
      activities := activities + AllocationActivities(row.owner, i, v);
    }

    method CompleteGardenAllocation(r: Id, v: Allocation, actor: Id, now: Time) returns (reply: Reply<Id>)
      modifies this
      ensures Realizes(old(Snapshot()), Snapshot(), CompleteAllocation(old(Snapshot()), r, v, actor, now), reply)
    {
      if r >= |requests| {
        return Failure(RequestNotFound);
      }
      if requests[r].status != ImplementsInstalled || requests[r].property != Some(v.property) {
        return Failure(RequestChanged);
      }
      if !ApprovedHere(Snapshot(), v.report, v.property) {
        return Failure(InspectionApprovalRequired);
      }
      var recommended := Recommended(reports[v.report]);
      if exists c :: c in v.crops && c.name !in recommended {
        return Failure(CropNotRecommended);
      }
      if v.property >= |properties| || properties[v.property].owner != requests[r].owner {
        return Failure(PropertyChanged);
      }
      var i := FirstCompleted(installations, v.property);
      if i.None? {
        return Failure(InstallationNotComplete);
      }
      if !StagesPresent(Snapshot(), r, [CropAllocation, MaintenanceTasks]) {
        return Failure(WorkflowStageMissing);
      }
      var before := Snapshot();
      var ids := WriteAllocationRows(r, i.value, v, actor, now);
      var error := AdvanceStages(Overwriting, r, AllocationStages(i.value, ids, recommended), actor, now);
      if error.Some? {
        Rollback(before);
        return Failure(error.value);
      }
      return Success(i.value);
    }
  }
}
