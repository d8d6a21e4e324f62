/** Stage writes and the triggers they fire, as functions on one workflow.

    A write yields the changed workflow and the audit events it appends; both are what a
    transaction then stores. */
module StageBoard {
  import opened Wrappers
  import opened Domain

  datatype StageUpdate = StageUpdate(
    key: StageKey, status: StageStatus, evidence: Evidence, nextAction: Option<NextAction>)

  datatype Board = Board(workflow: Workflow, events: seq<StageEvent>)

  // ---------- Seeding (create_garden_request_workflow) ----------

  function SeedStage(k: StageKey): Stage {
    var status :=
      if k == ResidentSignup then StageCompleted
      else if k == PropertyDetails then InProgress
      else NotStarted;
    Stage(status, None, map[], SeededAction(k), None, None, None)
  }

  function SeedWorkflow(owner: Id): Workflow {
    Workflow(owner, ResidentSignup, WorkflowActive, None,
             map k: StageKey {:trigger SeedStage(k)} | true :: SeedStage(k))
  }

  predicate AllStages(w: Workflow) {
    forall k: StageKey :: k in w.stages
  }

  // ---------- Triggers on workflow_stages ----------

  /** audit_workflow_stage_change: one event when the status or the evidence changes. */
  function AuditEvents(r: Id, k: StageKey, before: Stage, after: Stage, actor: Id): seq<StageEvent> {
    if before.status != after.status || before.evidence != after.evidence
    then [StageEvent(r, k, actor, before.status, after.status, after.evidence)]
    else []
  }

  predicate Cancels(s: Stage) {
    s.status == StageRejected || (Decision in s.evidence && s.evidence[Decision] == JWord(DecisionCancelled))
  }

  /** sync_current_operational_workflow_stage: the header follows the written stage until it closes. */
  function SyncHeader(w: Workflow, k: StageKey, after: Stage, now: Time): Workflow {
    if w.status == WorkflowCompleted || w.status == WorkflowCancelled then w
    else if Cancels(after) then
      w.(currentStage := k, status := WorkflowCancelled, completedAt := Some(OrElse(w.completedAt, now)))
    else w.(currentStage := k)
  }

  /** UPDATE of one stage row, with both triggers in the order they fire. */
  function WriteStage(r: Id, w: Workflow, k: StageKey, row: Stage, actor: Id, now: Time): Board
    requires k in w.stages
  {
    Board(SyncHeader(w.(stages := w.stages[k := row]), k, row, now), AuditEvents(r, k, w.stages[k], row, actor))
  }

  // ---------- The rows the gateway writes ----------

  /** Stage UPDATE of the status and scheduling transactions: times are only filled in, never replaced. */
  function AdvancedRow(s: Stage, u: StageUpdate, actor: Id, now: Time): Stage {
    Stage(u.status, Some(actor), s.evidence + u.evidence, OrElse(u.nextAction, s.nextAction),
          Some(OrElse(s.startedAt, now)),
          if u.status == StageSubmitted then Some(now) else s.submittedAt,
          if u.status == StageCompleted || u.status == StageRejected then Some(OrElse(s.completedAt, now))
          else s.completedAt)
  }

  /** Stage UPDATE of installation, allocation and planting: completion overwrites `completed_at`. */
  function OverwrittenRow(s: Stage, u: StageUpdate, actor: Id, now: Time): Stage {
    Stage(u.status, Some(actor), s.evidence + u.evidence, OrElse(u.nextAction, s.nextAction),
          Some(OrElse(s.startedAt, now)), s.submittedAt,
          if u.status == StageCompleted then Some(now) else s.completedAt)
  }

  datatype Writer = Advancing | Overwriting

  function WrittenRow(how: Writer, s: Stage, u: StageUpdate, actor: Id, now: Time): Stage {
    match how
    case Advancing => AdvancedRow(s, u, actor, now)
    case Overwriting => OverwrittenRow(s, u, actor, now)
  }

  function Append(events: seq<StageEvent>, b: Board): Board {
    b.(events := events + b.events)
  }

  /** A list of stage updates in order; the first missing stage raises. */
  function WriteStages(how: Writer, r: Id, w: Workflow, us: seq<StageUpdate>, actor: Id, now: Time)
    : Result<Board, ErrorCode>
    decreases |us|
  {
    if us == [] then Success(Board(w, []))
    else if us[0].key !in w.stages then Failure(WorkflowStageMissing)
    else
      var first := WriteStage(r, w, us[0].key, WrittenRow(how, w.stages[us[0].key], us[0], actor, now), actor, now);
      match WriteStages(how, r, first.workflow, us[1..], actor, now)
      case Success(rest) => Success(Append(first.events, rest))
      case Failure(e) => Failure(e)
  }

  // ---------- sync_inspection_to_operational_workflow ----------

  /** UPDATE ... WHERE stage_key = k writes nothing when the row is missing. */
  function Touch(r: Id, b: Board, k: StageKey, row: Stage, actor: Id, now: Time): Board {
    if k in b.workflow.stages
    then Append(b.events, WriteStage(r, b.workflow, k, row, actor, now))
    else b
  }

  function CompletedIf(submitted: bool, s: Stage, now: Time): Option<Time> {
    if submitted then Some(OrElse(s.completedAt, now)) else s.completedAt
  }

  function VisitRow(s: Stage, id: Id, rep: Report, actor: Id, now: Time): Stage {
    var submitted := rep.status == SubmittedForApproval;
    Stage(if submitted then StageCompleted else InProgress, Some(actor),
          s.evidence + map[ReportEvidence := JId(id),
                           GpsEvidence := JList([RealOrNull(rep.gps.lat), RealOrNull(rep.gps.lng)])],
          s.nextAction, Some(OrElse(s.startedAt, OrElse(rep.startedAt, now))), s.submittedAt,
          CompletedIf(submitted, s, now))
  }

  function ScoreRow(s: Stage, rep: Report, actor: Id, now: Time): Stage
    requires rep.findings.Some?
  {
    var f := rep.findings.value;
    var submitted := rep.status == SubmittedForApproval;
    Stage(if submitted then StageCompleted else InProgress, Some(actor),
          map[ScoreEvidence := JInt(f.score), BandEvidence := BandJson(f.band),
              BreakdownEvidence := JList(seq(|f.breakdown|, i requires 0 <= i < |f.breakdown| => JInt(f.breakdown[i])))],
          s.nextAction, Some(OrElse(s.startedAt, now)), s.submittedAt, CompletedIf(submitted, s, now))
  }

  function BandJson(b: Band): Json {
    match b
    case Suitable => JText("suitable")
    case Conditional => JText("conditional")
    case NotSuitable => JText("not_suitable")
  }

  function RecommendationRow(s: Stage, rep: Report, actor: Id, now: Time): Stage {
    var crops := if rep.findings.Some? then rep.findings.value.crops else [];
    var infrastructure := if rep.findings.Some? then rep.findings.value.infrastructure else [];
    Stage(StageCompleted, Some(actor),
          map[CropsEvidence := TextList(crops), InfrastructureEvidence := TextList(infrastructure)],
          s.nextAction, Some(OrElse(s.startedAt, now)), s.submittedAt, Some(OrElse(s.completedAt, now)))
  }

  function StageOr(w: Workflow, k: StageKey): Stage {
    if k in w.stages then w.stages[k] else SeedStage(k)
  }

  /** The visit and score stages mirror the report. */
  function SyncVisit(r: Id, w: Workflow, id: Id, rep: Report, actor: Id, now: Time): Board {
    var b1 := Touch(r, Board(w, []), InspectorVisit,
                    VisitRow(StageOr(w, InspectorVisit), id, rep, actor, now), actor, now);
    if rep.findings.Some?
    then Touch(r, b1, SiteScore, ScoreRow(StageOr(b1.workflow, SiteScore), rep, actor, now), actor, now)
    else b1
  }

  /** A submitted report also completes the recommendation and makes an untouched approval ready. */
  function SyncSubmission(r: Id, b: Board, rep: Report, actor: Id, now: Time): Board {
    var b3 := Touch(r, b, GardenRecommendation,
                    RecommendationRow(StageOr(b.workflow, GardenRecommendation), rep, actor, now), actor, now);
    var approval := StageOr(b3.workflow, Approval);
    if approval.status == NotStarted
    then Touch(r, b3, Approval, approval.(status := Ready, nextAction := ReviewInspectionEvidence), actor, now)
    else b3
  }

  function SyncReport(r: Id, w: Workflow, id: Id, rep: Report, actor: Id, now: Time): Board {
    var b := SyncVisit(r, w, id, rep, actor, now);
    if rep.status == SubmittedForApproval then
      var b4 := SyncSubmission(r, b, rep, actor, now);
      b4.(workflow := b4.workflow.(currentStage := Approval))
    else
      b.(workflow := b.workflow.(currentStage := InspectorVisit))
  }
}
