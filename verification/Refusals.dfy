/** Why a transaction or an endpoint refuses: each error it raises names a check that fails on the rows it read. */
module Refusals {
  import opened Wrappers
  import opened Domain
  import opened StageBoard
  import opened Transactions
  import opened Requests
  import opened StatusOutcome
  import opened VisitLaws
  import AllocationLaws
  import EvidenceGate
  import Texts

  /** The request has no whole workflow. */
  ghost predicate StagesLacking(db: Db, r: Id) {
    r < |db.workflows| ==> !AllStages(db.workflows[r])
  }

  lemma {:induction false} StagesRefused(how: Writer, r: Id, w: Workflow, us: seq<StageUpdate>, actor: Id, now: Time)
    ensures var out := WriteStages(how, r, w, us, actor, now);
            out.Failure? ==> out.error == WorkflowStageMissing && !AllStages(w)
    decreases |us|
  {
    if us != [] && us[0].key in w.stages {
      var row := WrittenRow(how, w.stages[us[0].key], us[0], actor, now);
      var first := WriteStage(r, w, us[0].key, row, actor, now);
      assert first.workflow.stages.Keys == w.stages.Keys;
      StagesRefused(how, r, first.workflow, us[1..], actor, now);
    }
  }

  lemma CommitRefused<T>(db: Db, how: Writer, r: Id, us: seq<StageUpdate>, actor: Id, now: Time, value: T)
    ensures var out := CommitStages(db, how, r, us, actor, now, value);
            out.Aborted? ==> out.error == WorkflowStageMissing && StagesLacking(db, r)
  {
    if r < |db.workflows| {
      StagesRefused(how, r, db.workflows[r], us, actor, now);
    }
  }

  lemma TouchKeys(r: Id, b: Board, k: StageKey, row: Stage, actor: Id, now: Time)
    ensures Touch(r, b, k, row, actor, now).workflow.stages.Keys == b.workflow.stages.Keys
  {
    if k in b.workflow.stages {
      assert b.workflow.stages[k := row].Keys == b.workflow.stages.Keys;
    }
  }

  /** The report trigger adds no stage and removes none. */
  lemma TriggerKeepsStages(r: Id, w: Workflow, id: Id, rep: Report, actor: Id, now: Time)
    ensures SyncReport(r, w, id, rep, actor, now).workflow.stages.Keys == w.stages.Keys
  {
    var row := VisitRow(StageOr(w, InspectorVisit), id, rep, actor, now);
    TouchKeys(r, Board(w, []), InspectorVisit, row, actor, now);
    var b := Touch(r, Board(w, []), InspectorVisit, row, actor, now);
    if rep.findings.Some? {
      TouchKeys(r, b, SiteScore, ScoreRow(StageOr(b.workflow, SiteScore), rep, actor, now), actor, now);
    }
    SubmissionKeepsStages(r, SyncVisit(r, w, id, rep, actor, now), rep, actor, now);
  }

  lemma SubmissionKeepsStages(r: Id, b: Board, rep: Report, actor: Id, now: Time)
    ensures SyncSubmission(r, b, rep, actor, now).workflow.stages.Keys == b.workflow.stages.Keys
  {
    var row := RecommendationRow(StageOr(b.workflow, GardenRecommendation), rep, actor, now);
    TouchKeys(r, b, GardenRecommendation, row, actor, now);
    var b3 := Touch(r, b, GardenRecommendation, row, actor, now);
    var approval := StageOr(b3.workflow, Approval);
    TouchKeys(r, b3, Approval, approval.(status := Ready, nextAction := ReviewInspectionEvidence), actor, now);
  }

  lemma DecisionKeepsStages(db: Db, d: ReportDecision, actor: Id, now: Time, r: Id)
    requires d.report < |db.reports|
    ensures StagesLacking(DecideReport(db, d, actor, now), r) <==> StagesLacking(db, r)
  {
    var row := db.reports[d.report].(
      status := d.status, notes := if d.notes.Some? then d.notes.value else db.reports[d.report].notes);
    var q := LastRequestFor(db.requests, row.garden);
    if q.Some? && q.value < |db.workflows| {
      TriggerKeepsStages(q.value, db.workflows[q.value], d.report, row, actor, now);
    }
  }

  // ---------- Transactions ----------

  ghost predicate ScheduleRefused(db: Db, r: Id, s: Schedule, e: ErrorCode) {
    match e
    case RequestNotFound => r >= |db.requests|
    case InvalidRequestTransition => r < |db.requests| && db.requests[r].status !in {Submitted, InspectionScheduled}
    case InspectorUnavailable => s.inspector < |db.inspectorActive| ==> !db.inspectorActive[s.inspector]
    case GardenPropertyMismatch =>
      && r < |db.requests| && db.requests[r].property.Some?
      && var p := db.requests[r].property.value; p < |db.properties| ==> db.properties[p].owner != db.requests[r].owner
    case WorkflowStageMissing => StagesLacking(db, r)
    case _ => false
  }

  lemma SchedulingRefuses(db: Db, r: Id, s: Schedule, actor: Id, now: Time)
    ensures var out := ScheduleInspection(db, r, s, actor, now); out.Aborted? ==> ScheduleRefused(db, r, s, out.error)
  {
    if r < |db.requests| {
      var p := LinkedProperty(db, db.requests[r]);
      var a := VisitAssignment(db.assignments, p);
      CommitRefused(ScheduleRows(db, r, s, actor, now), Advancing, r,
                    ScheduleStages(db.requests[r].site.address, JId(p), JId(a), actor), actor, now, Scheduled(r, a));
    }
  }

  /** The checks before a garden goes live: an approved report, a completed installation with crops, and
      every crop planted. */
  predicate ActivationRefused(reports: seq<Report>, installations: seq<Installation>, batches: seq<Batch>,
                              property: Option<Id>, e: ErrorCode)
  {
    match e
    case ActivationRequirementsMissing =>
      || property.None?
      || (forall i :: 0 <= i < |reports| && reports[i].garden == property.value ==> reports[i].status != Approved)
      || (forall i :: 0 <= i < |installations| && installations[i].property == property.value ==>
            installations[i].status != Active)
      || (exists i :: 0 <= i < |installations| && installations[i].property == property.value
                      && installations[i].status == Active
                      && (installations[i].installedAt.None?
                          || forall b :: 0 <= b < |batches| ==> batches[b].installation != i))
    case PlantingNotComplete =>
      property.Some? && exists b :: 0 <= b < |batches| && Unplanted(batches[b]) && batches[b].installation < |installations|
                                    && installations[batches[b].installation].property == property.value
    case _ => false
  }

  predicate Unplanted(b: Batch) {
    b.status != Growing || b.plantedAt.None?
  }

  lemma LiveReadRefuses(property: Option<Id>, seen: Seen)
    ensures var e := LiveReadError(property, seen);
            e.Some? ==> ActivationRefused(seen.d1.reports, seen.d2.installations, seen.d3.batches, property, e.value)
  {
    if property.Some? {
      FirstWhereIs(seen.d1.reports, (x: Report) => x.garden == property.value && x.status == Approved);
      FirstWhereIs(seen.d2.installations, (x: Installation) => x.property == property.value && x.status == Active);
    }
  }

  lemma ActivationRefuses(db: Db, property: Option<Id>)
    ensures var e := ActivationError(db, property);
            e.Some? ==> ActivationRefused(db.reports, db.installations, db.batches, property, e.value)
  {
    LiveReadRefuses(property, Seen(db, db, db));
    assert LiveReadError(property, Seen(db, db, db)) == ActivationError(db, property);
  }

  ghost predicate UpdateRefused(db: Db, r: Id, plan: StatusPlan, e: ErrorCode) {
    match e
    case RequestNotFound => r >= |db.requests|
    case RequestChanged => r < |db.requests| && db.requests[r].status != plan.expected
    case InspectorAssignmentRequired =>
      && r < |db.requests| && plan.assignment.Some?
      && var a := plan.assignment.value;
         a < |db.assignments| && Open(db.assignments[a]) ==> db.requests[r].property != Some(db.assignments[a].garden)
    case AssessmentChanged =>
      && plan.decision.Some?
      && var d := plan.decision.value.report; d < |db.reports| ==> db.reports[d].status != SubmittedForApproval
    case WorkflowStageMissing => StagesLacking(db, r)
    case _ =>
      r < |db.requests| && plan.patch.status == Live
      && ActivationRefused(db.reports, db.installations, db.batches, db.requests[r].property, e)
  }

  lemma UpdateRefuses(db: Db, r: Id, plan: StatusPlan, actor: Id, now: Time)
    ensures var out := UpdateWorkflow(db, r, plan, actor, now); out.Aborted? ==> UpdateRefused(db, r, plan, out.error)
  {
    if r < |db.requests| {
      ActivationRefuses(db, db.requests[r].property);
      if plan.decision.None? || DecisionStillPending(db, plan.decision.value) {
        var db1 := if plan.decision.Some? then DecideReport(db, plan.decision.value, actor, now) else db;
        var db2 := db1.(requests := db1.requests[r := PatchedRequest(db.requests[r], plan.patch)]);
        CommitRefused(db2, Advancing, r, plan.stages, actor, now, r);
        if plan.decision.Some? {
          DecisionKeepsStages(db, plan.decision.value, actor, now, r);
        }
      }
    }
  }

  ghost predicate InstallRefused(db: Db, r: Id, p: Id, e: ErrorCode) {
    match e
    case RequestNotFound => r >= |db.requests|
    case RequestChanged =>
      r < |db.requests| && (db.requests[r].status != NeedingImplements || db.requests[r].property != Some(p))
    case InspectionApprovalRequired =>
      forall i :: 0 <= i < |db.reports| && db.reports[i].garden == p ==> db.reports[i].status != Approved
    case WorkflowStageMissing => StagesLacking(db, r)
    case _ => false
  }

  lemma InstallationRefuses(db: Db, r: Id, p: Id, facts: InstallationFacts, at: Time, actor: Id, now: Time)
    ensures var out := CompleteInstallation(db, r, p, facts, at, actor, now);
            out.Aborted? ==> InstallRefused(db, r, p, out.error)
  {
    FirstWhereIs(db.reports, (x: Report) => x.garden == p && x.status == Approved);
    if r < |db.requests| {
      var (db1, id) := InstallRows(db, r, p, facts, at);
      CommitRefused(db1, Overwriting, r, InstallStages(id, facts, at), actor, now, id);
    }
  }

  /** An allocation needs the request as read, the approved report, only crops it recommends, the owner's
      property and a completed installation. */
  ghost predicate AllocationRefused(db: Db, r: Id, v: Allocation, e: ErrorCode) {
    match e
    case RequestNotFound => r >= |db.requests|
    case RequestChanged =>
      r < |db.requests| && (db.requests[r].status != ImplementsInstalled || db.requests[r].property != Some(v.property))
    case InspectionApprovalRequired =>
      v.report < |db.reports| && db.reports[v.report].garden == v.property ==> db.reports[v.report].status != Approved
    case CropNotRecommended =>
      v.report < |db.reports|
      && exists c :: c in v.crops && c.name !in Recommended(db.reports[v.report])
    case PropertyChanged =>
      r < |db.requests| && (v.property < |db.properties| ==> db.properties[v.property].owner != db.requests[r].owner)
    case InstallationNotComplete =>
      forall i :: 0 <= i < |db.installations| && db.installations[i].property == v.property ==>
                    db.installations[i].status != Active || db.installations[i].installedAt.None?
    case WorkflowStageMissing => StagesLacking(db, r)
    case _ => false
  }

  predicate AllocationChecked(db: Db, r: Id, v: Allocation) {
    && r < |db.requests| && db.requests[r].status == ImplementsInstalled && db.requests[r].property == Some(v.property)
    && ApprovedHere(db, v.report, v.property)
    && !(exists c :: c in v.crops && c.name !in Recommended(db.reports[v.report]))
    && v.property < |db.properties| && db.properties[v.property].owner == db.requests[r].owner
    && FirstCompleted(db.installations, v.property).Some?
  }

  lemma AllocationStagesRefuse(db: Db, r: Id, v: Allocation, actor: Id, now: Time, e: ErrorCode)
    requires AllocationChecked(db, r, v) && CompleteAllocation(db, r, v, actor, now) == Aborted(e)
    ensures e == WorkflowStageMissing && StagesLacking(db, r)
  {
    var i := FirstCompleted(db.installations, v.property).value;
    var rows := AllocationRows(db, r, i, v, actor, now);
    CommitRefused(rows, Overwriting, r,
                  AllocationStages(i, BatchIdsOf(rows.batches, i), Recommended(db.reports[v.report])), actor, now, i);
  }

  lemma AllocationRefuses(db: Db, r: Id, v: Allocation, actor: Id, now: Time, e: ErrorCode)
    requires CompleteAllocation(db, r, v, actor, now) == Aborted(e)
    ensures AllocationRefused(db, r, v, e)
  {
    NoneCompleted(db.installations, v.property);
    if AllocationChecked(db, r, v) {
      AllocationStagesRefuse(db, r, v, actor, now, e);
    } else {
      AllocationChecksRefuse(db, r, v, actor, now, e);
    }
  }

  lemma NoneCompleted(rows: seq<Installation>, p: Id)
    ensures FirstCompleted(rows, p).None? ==>
              forall i :: 0 <= i < |rows| && rows[i].property == p ==> rows[i].status != Active || rows[i].installedAt.None?
  {
    FirstWhereIs(rows, (x: Installation) => x.property == p && x.status == Active && x.installedAt.Some?);
  }

  lemma AllocationChecksRefuse(db: Db, r: Id, v: Allocation, actor: Id, now: Time, e: ErrorCode)
    requires !AllocationChecked(db, r, v) && CompleteAllocation(db, r, v, actor, now) == Aborted(e)
    ensures AllocationRefused(db, r, v, e) || (e == InstallationNotComplete && FirstCompleted(db.installations, v.property).None?)
  {
  }

  ghost predicate PlantRefused(db: Db, r: Id, e: ErrorCode) {
    match e
    case RequestNotFound => r >= |db.requests|
    case AllocationRequired => r < |db.requests| && db.requests[r].status != Seeds
    case PropertyRequired => r < |db.requests| && db.requests[r].property.None?
    case InstallationNotComplete =>
      || (forall i :: 0 <= i < |db.installations| ==> !ActiveAt(db, r, i))
      || exists i: Id :: ActiveAt(db, r, i) && db.installations[i].installedAt.None?
    case CropAllocationRequired =>
      exists i: Id :: ActiveAt(db, r, i) && forall b :: 0 <= b < |db.batches| ==> db.batches[b].installation != i
    case CropBatchStateInvalid =>
      exists b :: 0 <= b < |db.batches| && ActiveAt(db, r, db.batches[b].installation)
                  && db.batches[b].status !in {BatchPlanned, Growing}
    case WorkflowStageMissing => StagesLacking(db, r)
    case _ => false
  }

  predicate ActiveAt(db: Db, r: Id, i: Id) {
    r < |db.requests| && i < |db.installations| && db.installations[i].status == Active
    && db.requests[r].property == Some(db.installations[i].property)
  }

  lemma PlantingRefuses(db: Db, r: Id, at: Time, actor: Id, now: Time)
    ensures var out := CompletePlanting(db, r, at, actor, now); out.Aborted? ==> PlantRefused(db, r, out.error)
  {
    if r < |db.requests| && db.requests[r].property.Some? {
      var p := db.requests[r].property.value;
      FirstWhereIs(db.installations, (x: Installation) => x.property == p && x.status == Active);
      var i := FirstActive(db.installations, p);
      if i.Some? {
        AllocationLaws.RecordedIds(db.batches, i.value);
        var ids := BatchIdsOf(db.batches, i.value);
        assert ActiveAt(db, r, i.value);
        assert forall b :: 0 <= b < |db.batches| && db.batches[b].installation == i.value ==> b in ids;
        var db1 := db.(batches := PlantedRows(db.batches, i.value, at),
                       requests := db.requests[r := db.requests[r].(status := FinalInstall)]);
        CommitRefused(db1, Overwriting, r, PlantStages(ids, at), actor, now, r);
      }
    }
  }

  /** A report that is not there or another inspector's, already submitted, or not fully evidenced. */
  ghost predicate SubmitRefused(db: Db, id: Id, a: Id, inspector: Id, e: ErrorCode) {
    match e
    case InspectionReportNotFound =>
      id < |db.reports| ==> db.reports[id].assignment != a || db.reports[id].inspector != inspector
    case AssessmentAlreadySubmitted => id < |db.reports| && db.reports[id].status == SubmittedForApproval
    case InspectionAssignmentNotFound => a < |db.assignments| ==> db.assignments[a].inspector != inspector
    case InspectionChecklistMissing => forall k :: 0 <= k < |db.items| ==> db.items[k].report != id
    case InspectionEvidenceIncomplete => !Evidenced(db, id)
    case _ => false
  }

  lemma SubmissionRefuses(db: Db, id: Id, a: Id, inspector: Id, v: Assessment, overall: OverallStatus, followUp: bool,
                          at: Time, actor: Id, now: Time, e: ErrorCode)
    requires SubmitForApproval(db, id, a, inspector, v, overall, followUp, at, actor, now) == Aborted(e)
    ensures SubmitRefused(db, id, a, inspector, e)
  {
    SubmissionChecked(db, id, a, inspector, v, overall, followUp, at, actor, now, e);
    if e == InspectionChecklistMissing {
      NoItems(db, id);
    } else if e == InspectionEvidenceIncomplete {
      GateIsEvidence(db, id);
    }
  }

  /** The errors of the gate, in the gate's own terms. */
  lemma SubmissionChecked(db: Db, id: Id, a: Id, inspector: Id, v: Assessment, overall: OverallStatus, followUp: bool,
                          at: Time, actor: Id, now: Time, e: ErrorCode)
    requires SubmitForApproval(db, id, a, inspector, v, overall, followUp, at, actor, now) == Aborted(e)
    ensures var items := ItemsOf(db.items, id);
            match e
            case InspectionReportNotFound =>
              id < |db.reports| ==> db.reports[id].assignment != a || db.reports[id].inspector != inspector
            case AssessmentAlreadySubmitted => id < |db.reports| && db.reports[id].status == SubmittedForApproval
            case InspectionAssignmentNotFound => a < |db.assignments| ==> db.assignments[a].inspector != inspector
            case InspectionChecklistMissing => items == []
            case InspectionEvidenceIncomplete =>
              EvidenceGate.MissingResults(items) != []
              || EvidenceGate.MissingPhotos(items, PhotosOf(db.photos, id)) != []
            case _ => false
  {
  }

  lemma NoItems(db: Db, id: Id)
    requires ItemsOf(db.items, id) == []
    ensures forall k :: 0 <= k < |db.items| ==> db.items[k].report != id
  {
    ItemsOfAre(db.items, id);
    forall k | 0 <= k < |db.items| && db.items[k].report == id ensures EvidenceGate.ToItem(k, db.items[k]) in [] {
    }
  }

  /** The inspector's own calls. */
  predicate CaptureRefused(db: Db, report: Id, inspector: Id, e: ErrorCode) {
    match e
    case InspectionReportNotFound => report >= |db.reports|
    case InspectionReportForbidden => report < |db.reports| && db.reports[report].inspector != inspector
    case _ => false
  }

  lemma CaptureRefuses(db: Db, id: Id, item: ChecklistItem, photo: Photo, seen: AssessmentStatus, inspector: Id,
                       v: Assessment, actor: Id, now: Time)
    ensures var out := SaveItem(db, id, item, inspector);
            out.Aborted? ==> CaptureRefused(db, item.report, inspector, out.error)
    ensures var out := AddPhoto(db, photo, inspector);
            out.Aborted? ==>
              || CaptureRefused(db, photo.report, inspector, out.error)
              || (out.error == ForeignKeyViolation && photo.item.Some? && photo.item.value >= |db.items|)
    ensures var out := SaveAssessment(db, id, seen, inspector, v, actor, now);
            out.Aborted? ==>
              || CaptureRefused(db, id, inspector, out.error)
              || (out.error == AssessmentAlreadySubmitted && seen == SubmittedForApproval)
  {
  }

  // ---------- Endpoints ----------

  /** A status update is refused for its target, or for want of a visit, a report, a reason or a planted garden. */
  ghost predicate PatchRefused(row: Request, target: RequestStatus, notes: Option<string>, seen: Seen, e: ErrorCode) {
    match e
    case InvalidRequestTransition => !PatchAllowed(row.status, target)
    case InspectorAssignmentRequired =>
      target == InspectionScheduled
      && forall i :: 0 <= i < |seen.d1.assignments| && row.property == Some(seen.d1.assignments[i].garden) ==>
                       !Open(seen.d1.assignments[i])
    case InspectionReportRequired => target == Accepted && !AnySubmitted(seen.d1.reports, row.property)
    case ApprovalRationaleRequired =>
      target == Accepted && (notes.Some? ==> |Texts.Stripped(notes.value)| < 20)
    case _ =>
      target == Live && ActivationRefused(seen.d1.reports, seen.d2.installations, seen.d3.batches, row.property, e)
  }

  lemma PatchRefuses(row: Request, target: RequestStatus, notes: Option<string>, seen: Seen, actor: Id, at: Time)
    ensures var plan := PlanPatch(row, target, notes, seen, actor, at);
            plan.Failure? ==> PatchRefused(row, target, notes, seen, plan.error)
  {
    if target == Live {
      LivePatchRefuses(row, notes, seen, actor, at);
    } else if target == InspectionScheduled {
      VisitPatchRefuses(row, notes, seen, actor, at);
    } else {
      PendingIs(seen.d1, row.property);
    }
  }

  lemma LivePatchRefuses(row: Request, notes: Option<string>, seen: Seen, actor: Id, at: Time)
    ensures var plan := PlanPatch(row, Live, notes, seen, actor, at);
            plan.Failure? ==> PatchRefused(row, Live, notes, seen, plan.error)
  {
    LiveReadRefuses(row.property, seen);
  }

  lemma VisitPatchRefuses(row: Request, notes: Option<string>, seen: Seen, actor: Id, at: Time)
    ensures var plan := PlanPatch(row, InspectionScheduled, notes, seen, actor, at);
            plan.Failure? ==> PatchRefused(row, InspectionScheduled, notes, seen, plan.error)
  {
    if row.property.Some? {
      FirstWhereIs(seen.d1.assignments, (x: Assignment) => x.garden == row.property.value && Open(x));
    }
  }

  /** An unsuitable site is accepted only with a reason of 20 characters, blanks at its ends aside. */
  predicate Reasoned(report: Report, notes: Option<string>) {
    report.findings.Some? && report.findings.value.band == NotSuitable ==>
      notes.Some? && |Texts.Stripped(notes.value)| >= 20
  }

  /** Which updates are planned at all, by the request's status and what was read. */
  lemma PatchPlansExactly(row: Request, target: RequestStatus, notes: Option<string>, seen: Seen, actor: Id, at: Time)
    ensures PlanPatch(row, target, notes, seen, actor, at).Success?
            <==> match target
                 case InspectionScheduled =>
                   row.status == Submitted
                   && exists i :: 0 <= i < |seen.d1.assignments| && Open(seen.d1.assignments[i])
                                  && row.property == Some(seen.d1.assignments[i].garden)
                 case Accepted =>
                   row.status == InspectionScheduled && AnySubmitted(seen.d1.reports, row.property)
                   && var p := PendingReport(seen.d1, row.property); p.Some? && Reasoned(seen.d1.reports[p.value], notes)
                 case Rejected => row.status == Submitted || row.status == InspectionScheduled
                 case NeedingImplements => row.status == Accepted
                 case Live => row.status == FinalInstall && LiveReadError(row.property, seen).None?
                 case Cancelled => row.status !in {Live, Rejected, Cancelled}
                 case _ => false
  {
    PendingIs(seen.d1, row.property);
    if row.property.Some? {
      FirstWhereIs(seen.d1.assignments, (x: Assignment) => x.garden == row.property.value && Open(x));
    }
  }

  ghost predicate AllocationPlanRefused(row: Request, reports: seq<Report>, crops: seq<Crop>, e: ErrorCode) {
    match e
    case InstallationNotComplete => row.status != ImplementsInstalled
    case InspectionApprovalRequired =>
      forall i :: 0 <= i < |reports| && row.property == Some(reports[i].garden) ==> reports[i].status != Approved
    case CropsNotFound => crops == []
    case CropNotRecommended =>
      exists i, c :: 0 <= i < |reports| && row.property == Some(reports[i].garden) && reports[i].status == Approved
                     && c in crops && c.name !in Recommended(reports[i])
    case _ => false
  }

  lemma AllocationPlanRefuses(row: Request, reports: seq<Report>, form: AllocationForm, crops: seq<Crop>)
    ensures var plan := PlanAllocation(row, reports, form, crops);
            plan.Failure? ==> AllocationPlanRefused(row, reports, crops, plan.error)
  {
    if row.property.Some? {
      LatestReportIs(reports, row.property.value, Approved);
    }
  }
}
