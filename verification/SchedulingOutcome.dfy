/** What a committed schedule leaves behind, value by value. */
module SchedulingOutcome {
  import opened Wrappers
  import opened Domain
  import opened StageBoard
  import opened Transactions
  import opened Encodings
  import opened StatusPreservation
  import opened Achievements

  /** The inspection recorded in a request's details. */
  predicate RecordsInspection(j: Json, a: Id, s: Schedule, actor: Id) {
    && j.JObject?
    && j.fields.Keys == {"assignmentId", "inspectorId", "dueDate", "scheduledFor", "priority", "focusAreas",
                         "focusBrief", "accessInstructions", "assignedBy"}
    && j.fields["assignmentId"] == JId(a) && j.fields["inspectorId"] == JId(s.inspector)
    && j.fields["dueDate"] == JDay(s.visit.dueDate) && j.fields["scheduledFor"] == JTime(s.visit.scheduledFor)
    && IsPriority(j.fields["priority"], s.visit.priority) && IsTexts(j.fields["focusAreas"], s.focusAreas)
    && IsText(j.fields["focusBrief"], s.focusBrief) && IsText(j.fields["accessInstructions"], s.access)
    && j.fields["assignedBy"] == JId(actor)
  }

  lemma AssignmentJsonIs(a: Id, s: Schedule, actor: Id)
    ensures RecordsInspection(AssignmentJson(a, s, actor), a, s, actor)
  {
  }

  /** The request: linked, scheduled, its inspection recorded, and reviewed when it was submitted before. */
  predicate RequestScheduled(was: Request, row: Request, p: Id, a: Id, s: Schedule, actor: Id, now: Time) {
    && row == was.(property := Some(p), status := InspectionScheduled, adminNotes := row.adminNotes,
                   details := row.details, reviewedBy := row.reviewedBy, reviewedAt := row.reviewedAt)
    && row.adminNotes == (if s.visit.adminNotes == "" then was.adminNotes else Some(s.visit.adminNotes))
    && row.details.Keys == was.details.Keys + {InspectionAssignmentKey}
    && (forall k :: k in was.details && k != InspectionAssignmentKey ==> row.details[k] == was.details[k])
    && RecordsInspection(row.details[InspectionAssignmentKey], a, s, actor)
    && (was.status == Submitted ==> row.reviewedBy == Some(actor) && row.reviewedAt == Some(now))
    && (was.status != Submitted ==> row.reviewedBy == was.reviewedBy && row.reviewedAt == was.reviewedAt)
  }

  lemma ScheduledRequestIs(was: Request, p: Id, a: Id, s: Schedule, actor: Id, now: Time)
    requires was.status == Submitted || was.status == InspectionScheduled
    ensures RequestScheduled(was, ScheduledRequest(was, p, a, s, actor, now), p, a, s, actor, now)
  {
    AssignmentJsonIs(a, s, actor);
  }

  /** The notes of a new property: those in the request's details if they are true, else the request's. */
  function NotesFor(was: Request): Json {
    if NotesKey in was.details && Truthy(was.details[NotesKey]) then was.details[NotesKey]
    else if was.adminNotes.Some? then JText(was.adminNotes.value)
    else JNull
  }

  /** A linked request keeps its property; another one gets a property of its own owner and site, and the
      log of that property's arrival. */
  predicate PropertyPlaced(db: Db, after: Db, was: Request, p: Id) {
    if was.property.Some? then p == was.property.value && after.properties == db.properties && after.activities == db.activities
    else
      && p == |db.properties|
      && after.properties == db.properties + [Property(was.owner, was.site, NotesFor(was))]
      && after.activities
         == db.activities + [Activity(was.owner, p, None, InstallationActivity,
                                      map["message" := JText("Starter tasks were created for this garden.")])]
  }

  /** The property's open visit that was updated last is rescheduled; without one, a pending visit is added. */
  predicate VisitPlaced(before: seq<Assignment>, after: seq<Assignment>, p: Id, a: Id, s: Schedule, now: Time) {
    if a < |before| then
      && before[a].garden == p && Open(before[a])
      && (forall b :: 0 <= b < |before| && before[b].garden == p && Open(before[b]) ==>
            before[b].updatedAt <= before[a].updatedAt)
      && |after| == |before| && (forall b :: 0 <= b < |before| && b != a ==> after[b] == before[b])
      && after[a] == before[a].(inspector := s.inspector, visit := after[a].visit, updatedAt := now)
      && after[a].visit.priority == s.visit.priority && after[a].visit.adminNotes == s.visit.adminNotes
      && StoredDates(Some(before[a].visit), s.visit, after[a].visit)
    else
      && a == |before| && after == before + [Assignment(s.inspector, p, s.visit, Pending, None, None, now)]
      && forall b :: 0 <= b < |before| && before[b].garden == p ==> !Open(before[b])
  }

  lemma VisitIsPlaced(before: seq<Assignment>, p: Id, s: Schedule, now: Time)
    ensures VisitPlaced(before, WithVisit(before, p, s, now), p, VisitAssignment(before, p), s, now)
  {
    LatestOpenIs(before, p);
  }

  lemma RowsScheduled(db: Db, r: Id, s: Schedule, actor: Id, now: Time, p: Id, a: Id)
    requires r < |db.requests| && (db.requests[r].status == Submitted || db.requests[r].status == InspectionScheduled)
    requires p == LinkedProperty(db, db.requests[r]) && a == VisitAssignment(db.assignments, p)
    ensures var rows := ScheduleRows(db, r, s, actor, now);
            && rows == db.(properties := rows.properties, activities := rows.activities, assignments := rows.assignments,
                           requests := rows.requests)
            && |rows.requests| == |db.requests|
            && (forall q :: 0 <= q < |db.requests| && q != r ==> rows.requests[q] == db.requests[q])
            && PropertyPlaced(db, rows, db.requests[r], p)
            && RequestScheduled(db.requests[r], rows.requests[r], p, a, s, actor, now)
            && VisitPlaced(db.assignments, rows.assignments, p, a, s, now)
  {
    ScheduledRequestIs(db.requests[r], p, a, s, actor, now);
    VisitIsPlaced(db.assignments, p, s, now);
  }

  /** The three stages a schedule writes. */
  function StagesScheduled(was: Request, p: Id, a: Id, actor: Id): seq<StageUpdate> {
    [StageUpdate(PropertyDetails, StageCompleted,
                 map[AddressEvidence := if was.site.address.Some? then JText(was.site.address.value) else JNull,
                     PropertyEvidence := JId(p)], None),
     StageUpdate(PreliminaryAssessment, StageCompleted,
                 map[ResultEvidence := JWord(ManualReviewPassed), ReviewedBy := JId(actor)], None),
     StageUpdate(InspectorVisit, InProgress, map[AssignmentEvidence := JId(a)], Some(CompleteSiteVisit))]
  }

  /** The stages of request `r` have had the updates of a schedule, and no other workflow has changed. */
  ghost predicate StagesWritten(before: seq<Workflow>, after: seq<Workflow>, r: Id, was: Request, p: Id, a: Id, actor: Id,
                                now: Time)
  {
    && r < |before| == |after| && AllStages(before[r]) && AllStages(after[r])
    && AllLanded(Advancing, before[r], StagesScheduled(was, p, a, actor), actor, now, after[r])
    && forall q :: 0 <= q < |before| && q != r ==> after[q] == before[q]
  }

  lemma StagesLeave(rows: Db, r: Id, was: Request, p: Id, a: Id, actor: Id, now: Time)
    requires r < |rows.workflows| && AllStages(rows.workflows[r])
    ensures var us := ScheduleStages(was.site.address, JId(p), JId(a), actor);
            var out := CommitStages(rows, Advancing, r, us, actor, now, Scheduled(r, a));
            && out.Committed? && out.value == Scheduled(r, a)
            && out.db == rows.(workflows := out.db.workflows, events := out.db.events)
            && StagesWritten(rows.workflows, out.db.workflows, r, was, p, a, actor, now)
  {
    assert ScheduleStages(was.site.address, JId(p), JId(a), actor) == StagesScheduled(was, p, a, actor);
    StageUpdatesLand(rows, Advancing, r, StagesScheduled(was, p, a, actor), actor, now, Scheduled(r, a));
  }

  /** After a committed schedule: the property, the request's row, the visit and the three stages are these, and
      nothing else has changed. */
  lemma SchedulingLeaves(db: Db, r: Id, s: Schedule, actor: Id, now: Time)
    requires ScheduleInspection(db, r, s, actor, now).Committed?
    requires r < |db.workflows| && AllStages(db.workflows[r])
    ensures var out := ScheduleInspection(db, r, s, actor, now);
            && r < |db.requests| == |out.db.requests| && out.db.requests[r].property.Some?
            && out.db == db.(properties := out.db.properties, activities := out.db.activities,
                             assignments := out.db.assignments, requests := out.db.requests,
                             workflows := out.db.workflows, events := out.db.events)
            && (forall q :: 0 <= q < |db.requests| && q != r ==> out.db.requests[q] == db.requests[q])
            && var p, a := out.db.requests[r].property.value, out.value.assignment;
               && PropertyPlaced(db, out.db, db.requests[r], p)
               && RequestScheduled(db.requests[r], out.db.requests[r], p, a, s, actor, now)
               && VisitPlaced(db.assignments, out.db.assignments, p, a, s, now)
               && StagesWritten(db.workflows, out.db.workflows, r, db.requests[r], p, a, actor, now)
  {
    SchedulingIs(db, r, s, actor, now);
    var p := LinkedProperty(db, db.requests[r]);
    var a := VisitAssignment(db.assignments, p);
    RowsScheduled(db, r, s, actor, now, p, a);
    StagesLeave(ScheduleRows(db, r, s, actor, now), r, db.requests[r], p, a, actor, now);
  }
}
