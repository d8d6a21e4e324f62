/** The request endpoints: from the rows they have read, they decide on a status update or an allocation
    and plan the commit.

    Each read may come from a different, older database than the one the plan is committed to. */
module Requests {
  import opened Wrappers
  import opened Domain
  import opened StageBoard
  import opened Transactions
  import opened Encodings
  import Texts

  predicate Rationale20(notes: Option<string>) {
    notes.Some? && |Texts.Stripped(notes.value)| >= 20
  }

  /** `a or b` on optional texts. */
  function OrText(a: Option<string>, b: Option<string>): Option<string> {
    if a.Some? && a.value != "" then a else b
  }

  function FirstOpen(rows: seq<Assignment>, g: Id): Option<Id> {
    FirstWhere(rows, (x: Assignment) => x.garden == g && Open(x))
  }

  function PendingReport(db: Db, property: Option<Id>): Option<Id> {
    if property.Some? then LatestReport(db.reports, property.value, SubmittedForApproval) else None
  }

  /** The transitions the endpoint accepts; scheduling has its own endpoint as well. */
  predicate PatchAllowed(current: RequestStatus, target: RequestStatus) {
    match target
    case InspectionScheduled => current == Submitted
    case Accepted => current == InspectionScheduled
    case Rejected => current == Submitted || current == InspectionScheduled
    case NeedingImplements => current == Accepted
    case Live => current == FinalInstall
    case Cancelled => current != Live && current != Rejected && current != Cancelled
    case _ => false
  }

  function PatchStages(row: Request, target: RequestStatus, notes: Option<string>, assignment: Option<Id>,
                       report: Option<Id>, actor: Id): seq<StageUpdate>
  {
    match target
    case InspectionScheduled =>
      ScheduleStages(row.site.address, if row.property.Some? then JId(row.property.value) else JNull,
                     if assignment.Some? then JId(assignment.value) else JNull, actor)
    case Accepted =>
      [StageUpdate(Approval, StageCompleted,
                   map[Decision := JWord(DecisionApproved),
                       ReportEvidence := if report.Some? then JId(report.value) else JNull,
                       Rationale := TextOrNull(notes)], None),
       StageUpdate(InstallationStage, Ready, map[], Some(PrepareInfrastructure))]
    case NeedingImplements =>
      [StageUpdate(InstallationStage, InProgress, map[WorkStartedBy := JId(actor)], None)]
    case Rejected =>
      [StageUpdate(Approval, StageRejected,
                   map[Decision := JWord(DecisionRejected), Rationale := TextOrNull(notes)], None)]
    case Cancelled =>
      [StageUpdate(Approval, Skipped,
                   map[Decision := JWord(DecisionCancelled), Rationale := TextOrNull(notes)], None)]
    case _ => []
  }

  function TrackingDetails(details: Details, actor: Id, now: Time): Details {
    details + map[TrackingState := JWord(Tracking), TrackingStartedAt := JTime(now), TrackingStartedBy := JId(actor)]
  }

  /** What the router reads besides the request row, and when: reports and assignments from `d1`,
      installations from `d2`, crop batches from `d3`. */
  datatype Seen = Seen(d1: Db, d2: Db, d3: Db)

  function LiveReadError(property: Option<Id>, seen: Seen): Option<ErrorCode> {
    if property.None? || ApprovedReport(seen.d1.reports, property.value).None? then
      Some(ActivationRequirementsMissing)
    else
      var i := FirstActive(seen.d2.installations, property.value);
      if i.None? || seen.d2.installations[i.value].installedAt.None? then Some(ActivationRequirementsMissing)
      else if !(exists b :: 0 <= b < |seen.d3.batches| && seen.d3.batches[b].installation == i.value) then
        Some(ActivationRequirementsMissing)
      else if exists b :: 0 <= b < |seen.d3.batches| && seen.d3.batches[b].installation == i.value
                          && (seen.d3.batches[b].status != Growing || seen.d3.batches[b].plantedAt.None?) then
        Some(PlantingNotComplete)
      else None
  }

  function PlanPatch(row: Request, target: RequestStatus, notes: Option<string>, seen: Seen, actor: Id, now: Time)
    : Result<StatusPlan, ErrorCode>
  {
    var patch := RequestPatch(target, notes, None, actor, now);
    if !PatchAllowed(row.status, target) then Failure(InvalidRequestTransition)
    else if target == InspectionScheduled then
      var a := if row.property.Some? then FirstOpen(seen.d1.assignments, row.property.value) else None;
      if a.None? then Failure(InspectorAssignmentRequired)
      else Success(StatusPlan(row.status, patch, PatchStages(row, target, notes, a, None, actor), a, None))
    else if target == Accepted then
      var p := PendingReport(seen.d1, row.property);
      if p.None? then Failure(InspectionReportRequired)
      else
        var report := seen.d1.reports[p.value];
        if report.findings.Some? && report.findings.value.band == NotSuitable && !Rationale20(notes) then
          Failure(ApprovalRationaleRequired)
        else
          Success(StatusPlan(row.status, patch, PatchStages(row, target, notes, None, p, actor), None,
                             Some(ReportDecision(p.value, Approved, Some(OrText(notes, report.notes))))))
    else if target == Rejected then
      var p := if row.status == InspectionScheduled then PendingReport(seen.d1, row.property) else None;
      Success(StatusPlan(row.status, patch, PatchStages(row, target, notes, None, p, actor), None,
                         if p.Some? then Some(ReportDecision(p.value, AssessmentRejected, None)) else None))
    else if target == Live then
      var e := LiveReadError(row.property, seen);
      if e.Some? then Failure(e.value)
      else Success(StatusPlan(row.status, patch.(details := Some(TrackingDetails(row.details, actor, now))), [], None, None))
    else
      Success(StatusPlan(row.status, patch, PatchStages(row, target, notes, None, None, actor), None, None))
  }

  // ---------- Allocation ----------

  /** What an administrator asks to allocate. */
  datatype AllocationForm = AllocationForm(
    plants: seq<string>, inspectionNotes: Option<string>, allocationNotes: Option<string>)

  function AllocationUpdates(form: AllocationForm): Details {
    map[AllocatedPlants := TextList(Texts.Cleaned(form.plants)),
        InspectionNotes := TextOrNull(form.inspectionNotes), AllocationNotes := TextOrNull(form.allocationNotes),
        TrackingState := JWord(Planned)]
  }

  /** allocate_garden: from the request and the reports it has read, and the catalog's rows for the plants
      named, it builds the transaction's input. */
  function PlanAllocation(row: Request, reports: seq<Report>, form: AllocationForm, crops: seq<Crop>)
    : Result<Allocation, ErrorCode>
  {
    if row.status != ImplementsInstalled then Failure(InstallationNotComplete)
    else if row.property.None? then Failure(InspectionApprovalRequired)
    else
      var report := LatestReport(reports, row.property.value, Approved);
      if report.None? then Failure(InspectionApprovalRequired)
      else if crops == [] then Failure(CropsNotFound)
      else if exists c :: c in crops && c.name !in Recommended(reports[report.value]) then Failure(CropNotRecommended)
      else
        Success(Allocation(row.property.value, row.site,
                           TextOrNull(OrText(form.allocationNotes, OrText(form.inspectionNotes, row.adminNotes))),
                           report.value, crops, AllocationUpdates(form), form.allocationNotes))
  }

  /** What every allocation carries, whatever was read. */
  predicate FittingAllocation(v: Allocation) {
    v.crops != [] && v.updates.Keys == {AllocatedPlants, InspectionNotes, AllocationNotes, TrackingState}
  }

  lemma AllocationsFit(row: Request, reports: seq<Report>, form: AllocationForm, crops: seq<Crop>)
    ensures var plan := PlanAllocation(row, reports, form, crops);
            plan.Success? ==>
              && FittingAllocation(plan.value) && row.status == ImplementsInstalled
              && row.property == Some(plan.value.property)
  {
  }

  /** An allocation carries the caller's plants, each named once, and notes; the request's own site; the
      caller's notes or else the request's for the property; and the approved report submitted last. */
  lemma AllocationSays(row: Request, reports: seq<Report>, form: AllocationForm, crops: seq<Crop>, v: Allocation)
    requires PlanAllocation(row, reports, form, crops) == Success(v)
    ensures v.site == row.site && v.crops == crops && v.adminNotes == form.allocationNotes
    ensures v.updates.Keys == {AllocatedPlants, InspectionNotes, AllocationNotes, TrackingState}
    ensures IsTexts(v.updates[AllocatedPlants], Texts.Cleaned(form.plants))
    ensures IsText(v.updates[InspectionNotes], form.inspectionNotes)
    ensures IsText(v.updates[AllocationNotes], form.allocationNotes)
    ensures v.updates[TrackingState] == JWord(Planned)
    ensures IsText(v.notes, if form.allocationNotes.Some? && form.allocationNotes.value != "" then form.allocationNotes
                            else if form.inspectionNotes.Some? && form.inspectionNotes.value != "" then form.inspectionNotes
                            else row.adminNotes)
    ensures v.report < |reports| && row.property == Some(reports[v.report].garden) && reports[v.report].status == Approved
    ensures forall i :: 0 <= i < |reports| && reports[i].garden == reports[v.report].garden && reports[i].status == Approved ==>
                          NoLater(reports[i].submittedAt, reports[v.report].submittedAt)
  {
    LatestReportIs(reports, row.property.value, Approved);
  }

  // ---------- What plans have in common ----------

  /** A stage update's key, status and decision word. */
  predicate Shape(u: StageUpdate, k: StageKey, status: StageStatus, decision: Option<Word>) {
    && u.key == k && u.status == status
    && (decision.None? ==> Decision !in u.evidence)
    && (decision.Some? ==> Decision in u.evidence && u.evidence[Decision] == JWord(decision.value))
  }

  predicate FittingStages(target: RequestStatus, us: seq<StageUpdate>) {
    match target
    case InspectionScheduled =>
      |us| == 3 && Shape(us[0], PropertyDetails, StageCompleted, None)
      && Shape(us[1], PreliminaryAssessment, StageCompleted, None) && Shape(us[2], InspectorVisit, InProgress, None)
    case Accepted =>
      |us| == 2 && Shape(us[0], Approval, StageCompleted, Some(DecisionApproved))
      && Shape(us[1], InstallationStage, Ready, None)
    case NeedingImplements => |us| == 1 && Shape(us[0], InstallationStage, InProgress, None)
    case Rejected => |us| == 1 && Shape(us[0], Approval, StageRejected, Some(DecisionRejected))
    case Cancelled => |us| == 1 && Shape(us[0], Approval, Skipped, Some(DecisionCancelled))
    case _ => us == []
  }

  /** What every plan has, whatever was read: a legal step whose stage updates fit its target. */
  predicate FittingPlan(plan: StatusPlan) {
    && PatchAllowed(plan.expected, plan.patch.status)
    && FittingStages(plan.patch.status, plan.stages)
    && (plan.decision.Some? ==>
          || (plan.patch.status == Accepted && plan.decision.value.status == Approved)
          || (plan.patch.status == Rejected && plan.decision.value.status == AssessmentRejected))
    && (plan.patch.details.Some? ==> plan.patch.status == Live)
    && (plan.patch.status == InspectionScheduled ==> plan.assignment.Some?)
  }

  lemma PlansFit(row: Request, target: RequestStatus, notes: Option<string>, seen: Seen, actor: Id, now: Time)
    ensures var plan := PlanPatch(row, target, notes, seen, actor, now);
            plan.Success? ==>
              && FittingPlan(plan.value) && plan.value.expected == row.status && plan.value.patch.status == target
              && (plan.value.patch.details.Some? ==>
                    plan.value.patch.details.value == TrackingDetails(row.details, actor, now))
  {
  }
}
