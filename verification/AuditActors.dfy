/** Who changed a stage: every event of the audit log names the actor of the transaction that appended it. */
module AuditActors {
  import opened Wrappers
  import opened Domain
  import opened StageBoard
  import opened Transactions
  import opened Preservation
  import opened StatusPreservation
  import opened Runs

  ghost predicate AllBy(events: seq<StageEvent>, actor: Id) {
    forall i :: 0 <= i < |events| ==> events[i].actor == actor
  }

  lemma {:induction false} StagesBy(how: Writer, r: Id, w: Workflow, us: seq<StageUpdate>, actor: Id, now: Time)
    requires WriteStages(how, r, w, us, actor, now).Success?
    ensures AllBy(WriteStages(how, r, w, us, actor, now).value.events, actor)
    decreases |us|
  {
    if us != [] {
      var first := WriteStage(r, w, us[0].key, WrittenRow(how, w.stages[us[0].key], us[0], actor, now), actor, now);
      StagesBy(how, r, first.workflow, us[1..], actor, now);
    }
  }

  lemma TouchBy(r: Id, b: Board, k: StageKey, row: Stage, actor: Id, now: Time)
    requires AllBy(b.events, actor)
    ensures AllBy(Touch(r, b, k, row, actor, now).events, actor)
  {
  }

  lemma SubmissionBy(r: Id, b: Board, rep: Report, actor: Id, now: Time)
    requires AllBy(b.events, actor)
    ensures AllBy(SyncSubmission(r, b, rep, actor, now).events, actor)
  {
    var row := RecommendationRow(StageOr(b.workflow, GardenRecommendation), rep, actor, now);
    TouchBy(r, b, GardenRecommendation, row, actor, now);
    var b3 := Touch(r, b, GardenRecommendation, row, actor, now);
    var approval := StageOr(b3.workflow, Approval);
    TouchBy(r, b3, Approval, approval.(status := Ready, nextAction := ReviewInspectionEvidence), actor, now);
  }

  lemma TriggerBy(r: Id, w: Workflow, id: Id, rep: Report, actor: Id, now: Time)
    ensures AllBy(SyncReport(r, w, id, rep, actor, now).events, actor)
  {
    var row := VisitRow(StageOr(w, InspectorVisit), id, rep, actor, now);
    TouchBy(r, Board(w, []), InspectorVisit, row, actor, now);
    var b := Touch(r, Board(w, []), InspectorVisit, row, actor, now);
    if rep.findings.Some? {
      TouchBy(r, b, SiteScore, ScoreRow(StageOr(b.workflow, SiteScore), rep, actor, now), actor, now);
    }
    SubmissionBy(r, SyncVisit(r, w, id, rep, actor, now), rep, actor, now);
  }

  /** The log has grown by events of the actor alone. */
  ghost predicate LoggedBy(before: seq<StageEvent>, after: seq<StageEvent>, actor: Id) {
    before <= after && AllBy(after[|before|..], actor)
  }

  lemma LoggedThen(a: seq<StageEvent>, b: seq<StageEvent>, c: seq<StageEvent>, actor: Id)
    requires LoggedBy(a, b, actor) && LoggedBy(b, c, actor)
    ensures LoggedBy(a, c, actor)
  {
    assert c[|a|..] == b[|a|..] + c[|b|..];
  }

  lemma LoggedMore(events: seq<StageEvent>, more: seq<StageEvent>, actor: Id)
    requires AllBy(more, actor)
    ensures LoggedBy(events, events + more, actor)
  {
    assert (events + more)[|events|..] == more;
  }

  lemma CommitLogs<T>(db: Db, how: Writer, r: Id, us: seq<StageUpdate>, actor: Id, now: Time, value: T)
    requires CommitStages(db, how, r, us, actor, now, value).Committed?
    ensures LoggedBy(db.events, CommitStages(db, how, r, us, actor, now, value).db.events, actor)
  {
    if us != [] {
      StagesBy(how, r, db.workflows[r], us, actor, now);
      LoggedMore(db.events, WriteStages(how, r, db.workflows[r], us, actor, now).value.events, actor);
    }
  }

  lemma TriggerLogs(db: Db, id: Id, actor: Id, now: Time)
    requires id < |db.reports|
    ensures LoggedBy(db.events, SyncInspection(db, id, actor, now).events, actor)
  {
    var q := LastRequestFor(db.requests, db.reports[id].garden);
    if q.Some? && q.value < |db.workflows| {
      TriggerBy(q.value, db.workflows[q.value], id, db.reports[id], actor, now);
      LoggedMore(db.events, SyncReport(q.value, db.workflows[q.value], id, db.reports[id], actor, now).events, actor);
    }
  }

  // ---------- Each transaction ----------

  lemma ScheduleLogs(db: Db, r: Id, s: Schedule, actor: Id, now: Time)
    requires ScheduleInspection(db, r, s, actor, now).Committed?
    ensures LoggedBy(db.events, ScheduleInspection(db, r, s, actor, now).db.events, actor)
  {
    SchedulingIs(db, r, s, actor, now);
    CommitLogs(ScheduleRows(db, r, s, actor, now), Advancing, r, ScheduleUpdates(db, r, actor), actor, now,
               Scheduled(r, VisitAssignment(db.assignments, LinkedProperty(db, db.requests[r]))));
  }

  lemma UpdateLogs(db: Db, r: Id, plan: StatusPlan, actor: Id, now: Time)
    requires UpdateWorkflow(db, r, plan, actor, now).Committed?
    ensures LoggedBy(db.events, UpdateWorkflow(db, r, plan, actor, now).db.events, actor)
  {
    UpdateIs(db, r, plan, actor, now);
    var db1 := db;
    if plan.decision.Some? {
      var d := plan.decision.value;
      var row := db.reports[d.report].(
        status := d.status, notes := if d.notes.Some? then d.notes.value else db.reports[d.report].notes);
      TriggerLogs(db.(reports := db.reports[d.report := row]), d.report, actor, now);
      db1 := DecideReport(db, d, actor, now);
    }
    var rows := db1.(requests := db1.requests[r := PatchedRequest(db.requests[r], plan.patch)]);
    CommitLogs(rows, Advancing, r, plan.stages, actor, now, r);
    LoggedThen(db.events, db1.events, UpdateWorkflow(db, r, plan, actor, now).db.events, actor);
  }

  lemma InstallLogs(db: Db, r: Id, p: Id, facts: InstallationFacts, at: Time, actor: Id, now: Time)
    requires CompleteInstallation(db, r, p, facts, at, actor, now).Committed?
    ensures LoggedBy(db.events, CompleteInstallation(db, r, p, facts, at, actor, now).db.events, actor)
  {
    InstallationIs(db, r, p, facts, at, actor, now);
    var (rows, id) := InstallRows(db, r, p, facts, at);
    CommitLogs(rows, Overwriting, r, InstallStages(id, facts, at), actor, now, id);
  }

  lemma AllocateLogs(db: Db, r: Id, v: Allocation, actor: Id, now: Time)
    requires CompleteAllocation(db, r, v, actor, now).Committed?
    ensures LoggedBy(db.events, CompleteAllocation(db, r, v, actor, now).db.events, actor)
  {
    AllocationIs(db, r, v, actor, now);
    var i := FirstCompleted(db.installations, v.property).value;
    var rows := AllocationRows(db, r, i, v, actor, now);
    CommitLogs(rows, Overwriting, r,
               AllocationStages(i, BatchIdsOf(rows.batches, i), Recommended(db.reports[v.report])), actor, now, i);
  }

  lemma PlantLogs(db: Db, r: Id, at: Time, actor: Id, now: Time)
    requires CompletePlanting(db, r, at, actor, now).Committed?
    ensures LoggedBy(db.events, CompletePlanting(db, r, at, actor, now).db.events, actor)
  {
    PlantingIs(db, r, at, actor, now);
    var i := FirstActive(db.installations, db.requests[r].property.value).value;
    CommitLogs(PlantRows(db, r, i, at), Overwriting, r, PlantStages(BatchIdsOf(db.batches, i), at), actor, now, r);
  }

  lemma SubmitLogs(db: Db, id: Id, a: Id, inspector: Id, v: Assessment, overall: OverallStatus, followUp: bool, at: Time,
                   actor: Id, now: Time)
    requires SubmitForApproval(db, id, a, inspector, v, overall, followUp, at, actor, now).Committed?
    ensures LoggedBy(db.events, SubmitForApproval(db, id, a, inspector, v, overall, followUp, at, actor, now).db.events, actor)
  {
    SubmitIs(db, id, a, inspector, v, overall, followUp, at, actor, now);
    TriggerLogs(db.(reports := db.reports[id := SubmittedReport(db.reports[id], v, overall, followUp, at)]), id, actor, now);
  }

  lemma DraftLogs(db: Db, id: Id, seen: AssessmentStatus, inspector: Id, v: Assessment, actor: Id, now: Time)
    requires SaveAssessment(db, id, seen, inspector, v, actor, now).Committed?
    ensures LoggedBy(db.events, SaveAssessment(db, id, seen, inspector, v, actor, now).db.events, actor)
  {
    TriggerLogs(db.(reports := db.reports[id := DraftedReport(db.reports[id], v)]), id, actor, now);
  }

  // ---------- Every run ----------

  /** Whoever a commit is made by, if it can touch a stage. */
  function ActorOf(c: Commit): Option<Id> {
    match c
    case ScheduleVisit(_, _, actor, _) => Some(actor)
    case Assess(_, _, _, _, actor, _) => Some(actor)
    case Submit(_, _, _, _, _, _, _, actor, _) => Some(actor)
    case Update(_, _, actor, _) => Some(actor)
    case Install(_, _, _, _, actor, _) => Some(actor)
    case Allocate(_, _, actor, _) => Some(actor)
    case Plant(_, _, actor, _) => Some(actor)
    case _ => None
  }

  lemma EffectLogs(db: Db, c: Commit)
    ensures var after := Effect(db, c);
            if ActorOf(c).Some? then LoggedBy(db.events, after.events, ActorOf(c).value) else after.events == db.events
  {
    var after := Effect(db, c);
    if after.events != db.events {
      match c {
        case ScheduleVisit(r, s, actor, now) => ScheduleLogs(db, r, s, actor, now);
        case Assess(id, seen, inspector, v, actor, now) => DraftLogs(db, id, seen, inspector, v, actor, now);
        case Submit(id, a, inspector, v, overall, followUp, at, actor, now) =>
          SubmitLogs(db, id, a, inspector, v, overall, followUp, at, actor, now);
        case Update(r, plan, actor, now) => UpdateLogs(db, r, plan, actor, now);
        case Install(r, p, facts, at, actor, now) => InstallLogs(db, r, p, facts, at, actor, now);
        case Allocate(r, v, actor, now) => AllocateLogs(db, r, v, actor, now);
        case Plant(r, at, actor, now) => PlantLogs(db, r, at, actor, now);
        case _ =>
      }
    }
  }

  /** In every run, what a commit appends to the audit log names its own actor; whatever else happens appends
      nothing. */
  lemma EventsNameActor(trace: seq<Db>, acts: seq<Action>, n: nat)
    requires IsRun(trace, acts) && n < |acts|
    ensures var c := Resolve(trace[..n + 1], acts[n]);
            if c.Some? && ActorOf(c.value).Some? then LoggedBy(trace[n].events, trace[n + 1].events, ActorOf(c.value).value)
            else trace[n + 1].events == trace[n].events
  {
    var c := Resolve(trace[..n + 1], acts[n]);
    if c.Some? {
      EffectLogs(trace[n], c.value);
    }
  }
}
