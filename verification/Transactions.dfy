/** What each gateway transaction commits, as a function of the database it starts from. */
module Transactions {
  import opened Wrappers
  import opened Domain
  import opened StageBoard
  import EvidenceGate
  import Texts

  // ---------- Queries ----------

  /** WHERE garden_id = g AND status IN ('pending', 'in_progress') ORDER BY updated_at DESC LIMIT 1 */
  function LatestOpen(rows: seq<Assignment>, g: Id): (r: Option<Id>)
    ensures r.Some? ==> r.value < |rows| && rows[r.value].garden == g && Open(rows[r.value])
  {
    if rows == [] then None
    else
      var n := |rows| - 1;
      var prev := LatestOpen(rows[..n], g);
      if rows[n].garden == g && Open(rows[n]) && (prev.None? || rows[n].updatedAt > rows[prev.value].updatedAt)
      then Some(n) else prev
  }

  /** Descending order puts a null time first. */
  predicate LaterThan(a: Option<Time>, b: Option<Time>) {
    b.Some? && (a.None? || a.value > b.value)
  }

  /** WHERE garden_id = g AND assessment_status = s ORDER BY submitted_at DESC LIMIT 1 */
  function LatestReport(rows: seq<Report>, g: Id, s: AssessmentStatus): (r: Option<Id>)
    ensures r.Some? ==> r.value < |rows| && rows[r.value].garden == g && rows[r.value].status == s
  {
    if rows == [] then None
    else
      var n := |rows| - 1;
      var prev := LatestReport(rows[..n], g, s);
      if rows[n].garden == g && rows[n].status == s
         && (prev.None? || LaterThan(rows[n].submittedAt, rows[prev.value].submittedAt))
      then Some(n) else prev
  }

  /** The open assignment found was updated last; none is found only when none is open. */
  lemma {:induction false} LatestOpenIs(rows: seq<Assignment>, g: Id)
    ensures var r := LatestOpen(rows, g);
            && (r.Some? ==> forall i :: 0 <= i < |rows| && rows[i].garden == g && Open(rows[i]) ==>
                                          rows[i].updatedAt <= rows[r.value].updatedAt)
            && (r.None? ==> forall i :: 0 <= i < |rows| && rows[i].garden == g ==> !Open(rows[i]))
  {
    if rows != [] {
      LatestOpenIs(rows[..|rows| - 1], g);
    }
  }

  /** Null is latest of all. */
  predicate NoLater(a: Option<Time>, b: Option<Time>) {
    b.None? || (a.Some? && a.value <= b.value)
  }

  /** The report found was submitted last; none is found only when none is in that state. */
  lemma {:induction false} LatestReportIs(rows: seq<Report>, g: Id, s: AssessmentStatus)
    ensures var r := LatestReport(rows, g, s);
            && (r.Some? ==> forall i :: 0 <= i < |rows| && rows[i].garden == g && rows[i].status == s ==>
                                          NoLater(rows[i].submittedAt, rows[r.value].submittedAt))
            && (r.None? ==> forall i :: 0 <= i < |rows| && rows[i].garden == g ==> rows[i].status != s)
  {
    if rows != [] {
      LatestReportIs(rows[..|rows| - 1], g, s);
    }
  }

  function ReportOf(rows: seq<Report>, assignment: Id): Option<Id> {
    FirstWhere(rows, (x: Report) => x.assignment == assignment)
  }

  function ApprovedReport(rows: seq<Report>, g: Id): Option<Id> {
    FirstWhere(rows, (x: Report) => x.garden == g && x.status == Approved)
  }

  function FirstInstallation(rows: seq<Installation>, p: Id): Option<Id> {
    FirstWhere(rows, (x: Installation) => x.property == p)
  }

  function FirstActive(rows: seq<Installation>, p: Id): Option<Id> {
    FirstWhere(rows, (x: Installation) => x.property == p && x.status == Active)
  }

  function FirstCompleted(rows: seq<Installation>, p: Id): Option<Id> {
    FirstWhere(rows, (x: Installation) => x.property == p && x.status == Active && x.installedAt.Some?)
  }

  function LeadRequest(rows: seq<Request>, lead: Id): Option<Id> {
    FirstWhere(rows, (x: Request) => CarriesLead(x, lead))
  }

  predicate CarriesLead(x: Request, lead: Id) {
    LeadKey in x.details && x.details[LeadKey] == JId(lead)
  }

  /** The request a report belongs to: WHERE property_id = g ORDER BY created_at DESC LIMIT 1 */
  function LastRequestFor(rows: seq<Request>, g: Id): (r: Option<Id>)
    ensures r.Some? ==> r.value < |rows| && rows[r.value].property == Some(g)
  {
    if rows == [] then None
    else
      var n := |rows| - 1;
      if rows[n].property == Some(g) then Some(n) else LastRequestFor(rows[..n], g)
  }

  lemma {:induction false} LastRequestForIs(rows: seq<Request>, g: Id)
    ensures var r := LastRequestFor(rows, g);
            forall i :: (if r.Some? then r.value + 1 else 0) <= i < |rows| ==> rows[i].property != Some(g)
  {
    if rows != [] && rows[|rows| - 1].property != Some(g) {
      LastRequestForIs(rows[..|rows| - 1], g);
    }
  }

  function ItemsOf(rows: seq<ChecklistItem>, report: Id): seq<EvidenceGate.Item> {
    if rows == [] then []
    else
      var n := |rows| - 1;
      ItemsOf(rows[..n], report) + (if rows[n].report == report then [EvidenceGate.ToItem(n, rows[n])] else [])
  }

  function PhotosOf(rows: seq<Photo>, report: Id): seq<Photo> {
    if rows == [] then []
    else
      var n := |rows| - 1;
      PhotosOf(rows[..n], report) + (if rows[n].report == report then [rows[n]] else [])
  }

  function BatchIdsOf(rows: seq<Batch>, installation: Id): seq<Id> {
    if rows == [] then []
    else
      var n := |rows| - 1;
      BatchIdsOf(rows[..n], installation) + (if rows[n].installation == installation then [n] else [])
  }

  // ---------- Storing a board ----------

  function WithBoard(db: Db, r: Id, b: Board): Db
    requires r < |db.workflows|
  {
    db.(workflows := db.workflows[r := b.workflow], events := db.events + b.events)
  }

  function CommitStages<T>(db: Db, how: Writer, r: Id, us: seq<StageUpdate>, actor: Id, now: Time, value: T)
    : Outcome<T>
  {
    if us == [] then Committed(db, value)
    else if r >= |db.workflows| then Aborted(WorkflowStageMissing)
    else
      match WriteStages(how, r, db.workflows[r], us, actor, now)
      case Success(b) => Committed(WithBoard(db, r, b), value)
      case Failure(e) => Aborted(e)
  }

  /** The trigger on UPDATE OF assessment_status, suitability_score. */
  function SyncInspection(db: Db, id: Id, actor: Id, now: Time): Db
    requires id < |db.reports|
  {
    var q := LastRequestFor(db.requests, db.reports[id].garden);
    if q.None? || q.value >= |db.workflows| then db
    else WithBoard(db, q.value, SyncReport(q.value, db.workflows[q.value], id, db.reports[id], actor, now))
  }

  // ---------- Creating a request ----------

  function InsertRequest(db: Db, row: Request): Db {
    db.(requests := db.requests + [row], workflows := db.workflows + [SeedWorkflow(row.owner)])
  }

  function CreateRequest(db: Db, owner: Id, site: Site, details: Details): Outcome<Id> {
    Committed(InsertRequest(db, Request(owner, None, site, details, Submitted, None, None, None)), |db.requests|)
  }

  /** UPDATE garden_requests SET details WHERE id AND owner_id, as the photo upload does. */
  function WriteDetails(db: Db, r: Id, owner: Id, details: Details): Outcome<Id> {
    if r < |db.requests| && db.requests[r].owner == owner
    then Committed(db.(requests := db.requests[r := db.requests[r].(details := details)]), r)
    else Aborted(RequestChanged)
  }

  datatype Conversion = Conversion(request: Id, created: bool)

  function ConvertLead(db: Db, lead: Id, row: Request, actor: Id, now: Time): Outcome<Conversion> {
    if lead >= |db.leads| then Aborted(AssessmentLeadNotFound)
    else
      var existing := LeadRequest(db.requests, lead);
      var db1 := if existing.Some? then db else InsertRequest(db, row);
      Committed(db1.(leads := db1.leads[lead := Lead(Converted, row.adminNotes, Some(actor), Some(now))]),
                if existing.Some? then Conversion(existing.value, false) else Conversion(|db.requests|, true))
  }

  // ---------- Scheduling ----------

  datatype Schedule = Schedule(
    inspector: Id, visit: Visit, focusAreas: seq<string>, focusBrief: Option<string>, access: Option<string>)

  datatype Scheduled = Scheduled(request: Id, assignment: Id)

  function PropertyNotes(row: Request): Json {
    if NotesKey in row.details && Truthy(row.details[NotesKey]) then row.details[NotesKey]
    else TextOrNull(row.adminNotes)
  }

  function PriorityJson(p: Priority): Json {
    match p
    case Low => JText("low")
    case Medium => JText("medium")
    case High => JText("high")
    case Urgent => JText("urgent")
  }

  function AssignmentJson(assignment: Id, s: Schedule, actor: Id): Json {
    JObject(map["assignmentId" := JId(assignment), "inspectorId" := JId(s.inspector),
                "dueDate" := JDay(s.visit.dueDate), "scheduledFor" := JTime(s.visit.scheduledFor),
                "priority" := PriorityJson(s.visit.priority),
                "focusAreas" := TextList(s.focusAreas), "focusBrief" := TextOrNull(s.focusBrief),
                "accessInstructions" := TextOrNull(s.access), "assignedBy" := JId(actor)])
  }

  function ScheduledRequest(row: Request, p: Id, assignment: Id, s: Schedule, actor: Id, now: Time): Request {
    var linked := row.(
      property := Some(p),
      adminNotes := if s.visit.adminNotes != "" then Some(s.visit.adminNotes) else row.adminNotes,
      details := row.details[InspectionAssignmentKey := AssignmentJson(assignment, s, actor)]);
    if row.status == Submitted
    then linked.(status := InspectionScheduled, reviewedBy := Some(actor), reviewedAt := Some(now))
    else linked
  }

  function ScheduleStages(address: Option<string>, property: Json, assignment: Json, actor: Id): seq<StageUpdate> {
    [StageUpdate(PropertyDetails, StageCompleted,
                 map[AddressEvidence := TextOrNull(address), PropertyEvidence := property], None),
     StageUpdate(PreliminaryAssessment, StageCompleted,
                 map[ResultEvidence := JWord(ManualReviewPassed), ReviewedBy := JId(actor)], None),
     StageUpdate(InspectorVisit, InProgress, map[AssignmentEvidence := assignment], Some(CompleteSiteVisit))]
  }

  function LinkedProperty(db: Db, row: Request): Id {
    OrElse(row.property, |db.properties|)
  }

  /** An unlinked request gets a property of its own. */
  function WithProperty(properties: seq<Property>, row: Request): seq<Property> {
    if row.property.Some? then properties
    else properties + [Property(row.owner, row.site, PropertyNotes(row))]
  }

  /** The trigger on INSERT of a property logs that it was added. */
  function WithPropertyLog(activities: seq<Activity>, properties: seq<Property>, row: Request): seq<Activity> {
    if row.property.Some? then activities
    else
      activities + [Activity(row.owner, |properties|, None, InstallationActivity,
                             map["message" := JText("Starter tasks were created for this garden.")])]
  }

  /** The trigger before UPDATE of an assignment: a new time moves the due date to its day, a new due date
      alone moves the time to its midnight. */
  function SyncedVisit(before: Visit, v: Visit): Visit {
    if v.scheduledFor != before.scheduledFor then v.(dueDate := DayOf(v.scheduledFor))
    else if v.dueDate != before.dueDate then v.(scheduledFor := Midnight(v.dueDate))
    else v
  }

  function VisitAssignment(assignments: seq<Assignment>, p: Id): Id {
    OrElse(LatestOpen(assignments, p), |assignments|)
  }

  /** The open assignment is rescheduled; without one a pending assignment is inserted. */
  function WithVisit(assignments: seq<Assignment>, p: Id, s: Schedule, now: Time): seq<Assignment> {
    var open := LatestOpen(assignments, p);
    if open.Some?
    then
      var row := assignments[open.value];
      assignments[open.value := row.(inspector := s.inspector, visit := SyncedVisit(row.visit, s.visit), updatedAt := now)]
    else assignments + [Assignment(s.inspector, p, s.visit, Pending, None, None, now)]
  }

  /** The rows besides the stages that scheduling writes, once its checks have passed. */
  function ScheduleRows(db: Db, r: Id, s: Schedule, actor: Id, now: Time): Db
    requires r < |db.requests|
  {
    var row := db.requests[r];
    var p := LinkedProperty(db, row);
    db.(properties := WithProperty(db.properties, row),
        activities := WithPropertyLog(db.activities, db.properties, row),
        assignments := WithVisit(db.assignments, p, s, now),
        requests := db.requests[r := ScheduledRequest(row, p, VisitAssignment(db.assignments, p), s, actor, now)])
  }

  function ScheduleInspection(db: Db, r: Id, s: Schedule, actor: Id, now: Time): Outcome<Scheduled> {
    if r >= |db.requests| then Aborted(RequestNotFound)
    else
      var row := db.requests[r];
      if row.status != Submitted && row.status != InspectionScheduled then Aborted(InvalidRequestTransition)
      else if s.inspector >= |db.inspectorActive| || !db.inspectorActive[s.inspector] then
        Aborted(InspectorUnavailable)
      else if row.property.Some? && (row.property.value >= |db.properties|
                                     || db.properties[row.property.value].owner != row.owner) then
        Aborted(GardenPropertyMismatch)
      else
        var p := LinkedProperty(db, row);
        var a := VisitAssignment(db.assignments, p);
        CommitStages(ScheduleRows(db, r, s, actor, now), Advancing, r,
                     ScheduleStages(row.site.address, JId(p), JId(a), actor), actor, now, Scheduled(r, a))
  }

  // ---------- Inspections ----------

  datatype TemplateRow = TemplateRow(category: string, name: string, requiresPhoto: bool, sortOrder: int)

  function SeededItems(report: Id, template: seq<TemplateRow>): seq<ChecklistItem> {
    seq(|template|, i requires 0 <= i < |template| =>
      ChecklistItem(report, template[i].category, template[i].name, template[i].requiresPhoto, ItemNa, None,
                    template[i].sortOrder))
  }

  predicate HasChecklist(rows: seq<ChecklistItem>, report: Id) {
    exists i :: 0 <= i < |rows| && rows[i].report == report
  }

  function StartedAssignment(a: Assignment, now: Time): Assignment {
    a.(status := if Open(a) then VisitInProgress else a.status,
       startedAt := Some(OrElse(a.startedAt, now)), updatedAt := now)
  }

  function StartReport(db: Db, a: Id, inspector: Id, gps: Gps, template: seq<TemplateRow>, now: Time): Outcome<Id> {
    if a >= |db.assignments| || db.assignments[a].inspector != inspector then Aborted(InspectionAssignmentNotFound)
    else
      var existing := ReportOf(db.reports, a);
      var id := if existing.Some? then existing.value else |db.reports|;
      var db1 :=
        if existing.Some? then db
        else db.(reports := db.reports + [Report(a, inspector, db.assignments[a].garden, OverallPending, None, gps,
                                                 false, None, Draft, Some(now), None)]);
      var db2 := db1.(assignments := db1.assignments[a := StartedAssignment(db1.assignments[a], now)]);
      Committed(if HasChecklist(db2.items, id) then db2 else db2.(items := db2.items + SeededItems(id, template)), id)
  }

  /** ensure_report_access: a report's inspector never changes, so it does not matter when this is read. */
  function ReportAccess(db: Db, report: Id, inspector: Id): Option<ErrorCode> {
    if report >= |db.reports| then Some(InspectionReportNotFound)
    else if db.reports[report].inspector != inspector then Some(InspectionReportForbidden)
    else None
  }

  /** The checklist upsert replaces the row of a known item id, whichever report it belongs to, and
      appends otherwise. */
  function SaveItem(db: Db, id: Id, row: ChecklistItem, inspector: Id): Outcome<Id> {
    var denied := ReportAccess(db, row.report, inspector);
    if denied.Some? then Aborted(denied.value)
    else if id < |db.items| then Committed(db.(items := db.items[id := row]), id)
    else Committed(db.(items := db.items + [row]), |db.items|)
  }

  function AddPhoto(db: Db, row: Photo, inspector: Id): Outcome<Id> {
    var denied := ReportAccess(db, row.report, inspector);
    if denied.Some? then Aborted(denied.value)
    else if row.item.Some? && row.item.value >= |db.items| then Aborted(ForeignKeyViolation)
    else Committed(db.(photos := db.photos + [row]), |db.photos|)
  }

  datatype Assessment = Assessment(findings: Findings, notes: Option<string>, gps: Gps)

  function DraftedReport(row: Report, v: Assessment): Report {
    row.(notes := v.notes, gps := v.gps, findings := Some(v.findings), status := Draft)
  }

  /** save_assessment: it refuses a report whose status it saw to be submitted; the write itself carries
      no status condition. */
  function SaveAssessment(db: Db, id: Id, seen: AssessmentStatus, inspector: Id, v: Assessment, actor: Id, now: Time)
    : Outcome<Id>
  {
    var denied := ReportAccess(db, id, inspector);
    if denied.Some? then Aborted(denied.value)
    else if seen == SubmittedForApproval then Aborted(AssessmentAlreadySubmitted)
    else
      Committed(SyncInspection(db.(reports := db.reports[id := DraftedReport(db.reports[id], v)]), id, actor, now), id)
  }

  function SubmittedReport(row: Report, v: Assessment, overall: OverallStatus, followUp: bool, at: Time): Report {
    row.(notes := v.notes, gps := v.gps, findings := Some(v.findings), status := SubmittedForApproval,
         overall := overall, followUp := followUp, submittedAt := Some(at))
  }

  function SubmitForApproval(db: Db, id: Id, a: Id, inspector: Id, v: Assessment, overall: OverallStatus,
                             followUp: bool, at: Time, actor: Id, now: Time): Outcome<Id>
  {
    if id >= |db.reports| || db.reports[id].assignment != a || db.reports[id].inspector != inspector then
      Aborted(InspectionReportNotFound)
    else if db.reports[id].status == SubmittedForApproval then Aborted(AssessmentAlreadySubmitted)
    else if a >= |db.assignments| || db.assignments[a].inspector != inspector then
      Aborted(InspectionAssignmentNotFound)
    else
      var items := ItemsOf(db.items, id);
      if items == [] then Aborted(InspectionChecklistMissing)
      else if EvidenceGate.MissingResults(items) != []
              || EvidenceGate.MissingPhotos(items, PhotosOf(db.photos, id)) != [] then
        Aborted(InspectionEvidenceIncomplete)
      else
        Committed(WithSubmission(db, id, SubmittedReport(db.reports[id], v, overall, followUp, at), a, at, actor, now), id)
  }

  function FinishVisit(db: Db, a: Id, at: Time, now: Time): Db
    requires a < |db.assignments|
  {
    var done := db.assignments[a].(status := VisitCompleted, completedAt := Some(at), updatedAt := now);
    db.(assignments := db.assignments[a := done])
  }

  /** Report UPDATE, its trigger, then the assignment UPDATE. */
  function WithSubmission(db: Db, id: Id, row: Report, a: Id, at: Time, actor: Id, now: Time): Db
    requires id < |db.reports| && a < |db.assignments|
  {
    FinishVisit(SyncInspection(db.(reports := db.reports[id := row]), id, actor, now), a, at, now)
  }

  // ---------- Status updates ----------

  datatype RequestPatch = RequestPatch(
    status: RequestStatus, adminNotes: Option<string>, details: Option<Details>, reviewedBy: Id, reviewedAt: Time)

  /** `notes` is given only with an approval. */
  datatype ReportDecision = ReportDecision(report: Id, status: AssessmentStatus, notes: Option<Option<string>>)

  datatype StatusPlan = StatusPlan(
    expected: RequestStatus, patch: RequestPatch, stages: seq<StageUpdate>,
    assignment: Option<Id>, decision: Option<ReportDecision>)

  function PatchedRequest(row: Request, patch: RequestPatch): Request {
    row.(status := patch.status,
         adminNotes := if patch.adminNotes.Some? then patch.adminNotes else row.adminNotes,
         details := OrElse(patch.details, row.details),
         reviewedBy := Some(patch.reviewedBy), reviewedAt := Some(patch.reviewedAt))
  }

  /** The checks made again under locks before a garden goes live. */
  function ActivationError(db: Db, property: Option<Id>): Option<ErrorCode> {
    if property.None? || ApprovedReport(db.reports, property.value).None? then Some(ActivationRequirementsMissing)
    else
      var i := FirstActive(db.installations, property.value);
      if i.None? || db.installations[i.value].installedAt.None? then Some(ActivationRequirementsMissing)
      else if !(exists b :: 0 <= b < |db.batches| && db.batches[b].installation == i.value) then
        Some(ActivationRequirementsMissing)
      else if exists b :: 0 <= b < |db.batches| && db.batches[b].installation == i.value
                          && (db.batches[b].status != Growing || db.batches[b].plantedAt.None?) then
        Some(PlantingNotComplete)
      else None
  }

  predicate AssignmentStillOpen(db: Db, a: Id, property: Option<Id>) {
    a < |db.assignments| && Some(db.assignments[a].garden) == property && Open(db.assignments[a])
  }

  predicate DecisionStillPending(db: Db, d: ReportDecision) {
    d.report < |db.reports| && db.reports[d.report].status == SubmittedForApproval
  }

  /** The report UPDATE of a decision, with the trigger it fires. */
  function DecideReport(db: Db, d: ReportDecision, actor: Id, now: Time): Db
    requires d.report < |db.reports|
  {
    var row := db.reports[d.report].(
      status := d.status, notes := if d.notes.Some? then d.notes.value else db.reports[d.report].notes);
    SyncInspection(db.(reports := db.reports[d.report := row]), d.report, actor, now)
  }

  function UpdateWorkflow(db: Db, r: Id, plan: StatusPlan, actor: Id, now: Time): Outcome<Id> {
    if r >= |db.requests| then Aborted(RequestNotFound)
    else
      var row := db.requests[r];
      if row.status != plan.expected then Aborted(RequestChanged)
      else if plan.patch.status == Live && ActivationError(db, row.property).Some? then
        Aborted(ActivationError(db, row.property).value)
      else if plan.assignment.Some? && !AssignmentStillOpen(db, plan.assignment.value, row.property) then
        Aborted(InspectorAssignmentRequired)
      else if plan.decision.Some? && !DecisionStillPending(db, plan.decision.value) then Aborted(AssessmentChanged)
      else
        var db1 := if plan.decision.Some? then DecideReport(db, plan.decision.value, actor, now) else db;
        var db2 := db1.(requests := db1.requests[r := PatchedRequest(row, plan.patch)]);
        CommitStages(db2, Advancing, r, plan.stages, actor, now, r)
  }

  // ---------- Installation, allocation, planting ----------

  function InstallStages(installation: Id, facts: InstallationFacts, at: Time): seq<StageUpdate> {
    [StageUpdate(InstallationStage, StageCompleted,
                 map[InstallationEvidence := JId(installation), InstalledAtEvidence := JTime(at),
                     PhotosEvidence := TextList(facts.photos)], None),
     StageUpdate(CropAllocation, Ready, map[], Some(AllocateApprovedCrops))]
  }

  predicate StagesPresent(db: Db, r: Id, keys: seq<StageKey>) {
    r < |db.workflows| && forall k :: k in keys ==> k in db.workflows[r].stages
  }

  function InstallRows(db: Db, r: Id, p: Id, facts: InstallationFacts, at: Time): (Db, Id)
    requires r < |db.requests|
  {
    var existing := FirstInstallation(db.installations, p);
    var row := Installation(p, db.requests[r].owner, facts, Active, Some(at));
    var id := if existing.Some? then existing.value else |db.installations|;
    var db1 := if existing.Some? then db.(installations := db.installations[id := row])
               else db.(installations := db.installations + [row]);
    (db1.(requests := db1.requests[r := db1.requests[r].(status := ImplementsInstalled)]), id)
  }

  function CompleteInstallation(db: Db, r: Id, p: Id, facts: InstallationFacts, at: Time, actor: Id, now: Time)
    : Outcome<Id>
  {
    if r >= |db.requests| then Aborted(RequestNotFound)
    else if db.requests[r].status != NeedingImplements || db.requests[r].property != Some(p) then
      Aborted(RequestChanged)
    else if ApprovedReport(db.reports, p).None? then Aborted(InspectionApprovalRequired)
    else if !StagesPresent(db, r, [InstallationStage, CropAllocation]) then Aborted(WorkflowStageMissing)
    else
      var (db1, id) := InstallRows(db, r, p, facts, at);
      CommitStages(db1, Overwriting, r, InstallStages(id, facts, at), actor, now, id)
  }

  function PlantedRow(b: Batch, installation: Id, at: Time): Batch {
    if b.installation == installation && (b.status == BatchPlanned || b.status == Growing)
    then b.(status := Growing, plantedAt := Some(at)) else b
  }

  function PlantedRows(rows: seq<Batch>, installation: Id, at: Time): seq<Batch> {
    seq(|rows|, i requires 0 <= i < |rows| => PlantedRow(rows[i], installation, at))
  }

  predicate Plantable(rows: seq<Batch>, ids: seq<Id>) {
    forall b :: b in ids ==> b < |rows| && (rows[b].status == BatchPlanned || rows[b].status == Growing)
  }

  function CompletePlanting(db: Db, r: Id, at: Time, actor: Id, now: Time): Outcome<Id> {
    if r >= |db.requests| then Aborted(RequestNotFound)
    else if db.requests[r].status != Seeds then Aborted(AllocationRequired)
    else if db.requests[r].property.None? then Aborted(PropertyRequired)
    else
      var i := FirstActive(db.installations, db.requests[r].property.value);
      if i.None? || db.installations[i.value].installedAt.None? then Aborted(InstallationNotComplete)
      else
        var ids := BatchIdsOf(db.batches, i.value);
        if ids == [] then Aborted(CropAllocationRequired)
        else if !Plantable(db.batches, ids) then Aborted(CropBatchStateInvalid)
        else if !StagesPresent(db, r, [MaintenanceTasks]) then Aborted(WorkflowStageMissing)
        else
          var db1 := db.(batches := PlantedRows(db.batches, i.value, at),
                         requests := db.requests[r := db.requests[r].(status := FinalInstall)]);
          CommitStages(db1, Overwriting, r, PlantStages(ids, at), actor, now, r)
  }

  function PlantStages(ids: seq<Id>, at: Time): seq<StageUpdate> {
    [StageUpdate(MaintenanceTasks, InProgress, map[PlantedAtEvidence := JTime(at), CropBatchIds := IdList(ids)], None)]
  }

  /** The crop loop: one planned batch for each requested crop the installation does not hold yet. */
  function AllocatedBatches(rows: seq<Batch>, installation: Id, owner: Id, held: set<Id>, crops: seq<Crop>)
    : seq<Batch>
    decreases |crops|
  {
    if crops == [] then rows
    else if crops[0].id in held then AllocatedBatches(rows, installation, owner, held, crops[1..])
    else AllocatedBatches(rows + [NewBatch(installation, owner, crops[0])], installation, owner,
                          held + {crops[0].id}, crops[1..])
  }

  function NewBatch(installation: Id, owner: Id, crop: Crop): Batch {
    Batch(installation, crop.id, owner, 1, OrElse(crop.yieldPerUnit, 0.0), BatchPlanned, None)
  }

  function HeldCrops(rows: seq<Batch>, installation: Id): set<Id> {
    set b | b in rows && b.installation == installation :: b.crop
  }

  function AllocationDetails(details: Details, updates: Details): Details {
    var merged := details + updates;
    if RequestedPlants in merged && Truthy(merged[RequestedPlants]) then merged
    else merged[RequestedPlants := if Plants in merged && Truthy(merged[Plants]) then merged[Plants] else JList([])]
  }

  datatype Allocation = Allocation(
    property: Id, site: Site, notes: Json, report: Id, crops: seq<Crop>, updates: Details, adminNotes: Option<string>)

  function AllocationStages(installation: Id, ids: seq<Id>, recommended: seq<string>): seq<StageUpdate> {
    [StageUpdate(CropAllocation, StageCompleted,
                 map[InstallationEvidence := JId(installation), CropBatchIds := IdList(ids),
                     RecommendedCrops := TextList(Texts.SortedSet(recommended))], None),
     StageUpdate(MaintenanceTasks, Ready, map[], Some(PlantAllocatedCrops))]
  }

  function AllocationActivities(owner: Id, installation: Id, v: Allocation): seq<Activity> {
    [Activity(owner, v.property, Some(installation), InspectionActivity,
              map["meta" := DetailOr(v.updates, InspectionNotes, JNull), "approvedReportId" := JId(v.report)]),
     Activity(owner, v.property, Some(installation), PlantingActivity,
              map["allocated_plants" := DetailOr(v.updates, AllocatedPlants, JList([]))])]
  }

  function DetailOr(d: Details, k: DetailKey, otherwise: Json): Json {
    if k in d then d[k] else otherwise
  }

  predicate ApprovedHere(db: Db, report: Id, p: Id) {
    report < |db.reports| && db.reports[report].garden == p && db.reports[report].status == Approved
  }

  function Recommended(r: Report): seq<string> {
    if r.findings.Some? then r.findings.value.crops else []
  }

  function AllocationRows(db: Db, r: Id, i: Id, v: Allocation, actor: Id, now: Time): Db
    requires r < |db.requests| && v.property < |db.properties|
  {
    var row := db.requests[r];
    db.(properties := db.properties[v.property := db.properties[v.property].(site := v.site, notes := v.notes)],
        batches := AllocatedBatches(db.batches, i, row.owner, HeldCrops(db.batches, i), v.crops),
        requests := db.requests[r := row.(status := Seeds, reviewedBy := Some(actor), reviewedAt := Some(now),
                                          adminNotes := v.adminNotes,
                                          details := AllocationDetails(row.details, v.updates))],
        activities := db.activities + AllocationActivities(row.owner, i, v))
  }

  function CompleteAllocation(db: Db, r: Id, v: Allocation, actor: Id, now: Time): Outcome<Id> {
    if r >= |db.requests| then Aborted(RequestNotFound)
    else if db.requests[r].status != ImplementsInstalled || db.requests[r].property != Some(v.property) then
      Aborted(RequestChanged)
    else if !ApprovedHere(db, v.report, v.property) then Aborted(InspectionApprovalRequired)
    else if exists c :: c in v.crops && c.name !in Recommended(db.reports[v.report]) then Aborted(CropNotRecommended)
    else if v.property >= |db.properties| || db.properties[v.property].owner != db.requests[r].owner then
      Aborted(PropertyChanged)
    else
      var i := FirstCompleted(db.installations, v.property);
      if i.None? then Aborted(InstallationNotComplete)
      else if !StagesPresent(db, r, [CropAllocation, MaintenanceTasks]) then Aborted(WorkflowStageMissing)
      else
        var db1 := AllocationRows(db, r, i.value, v, actor, now);
        CommitStages(db1, Overwriting, r,
                     AllocationStages(i.value, BatchIdsOf(db1.batches, i.value), Recommended(db.reports[v.report])),
                     actor, now, i.value)
  }
}
