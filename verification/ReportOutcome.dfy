/** What a saved, submitted or decided report leaves behind, value by value: its own row, and the stages of the
    workflow that mirror it. */
module ReportOutcome {
  import opened Wrappers
  import opened Domain
  import opened StageBoard
  import opened Transactions
  import opened Preservation
  import opened Encodings

  // ---------- Values ----------

  /** The visit stage names the report and where it was checked in; other evidence stays. */
  predicate VisitEvidence(before: Stage, s: Stage, id: Id, gps: Gps) {
    && s.evidence.Keys == before.evidence.Keys + {ReportEvidence, GpsEvidence}
    && s.evidence[ReportEvidence] == JId(id)
    && s.evidence[GpsEvidence].JList? && |s.evidence[GpsEvidence].items| == 2
    && IsReal(s.evidence[GpsEvidence].items[0], gps.lat) && IsReal(s.evidence[GpsEvidence].items[1], gps.lng)
    && (forall k :: k in before.evidence && k != ReportEvidence && k != GpsEvidence ==> s.evidence[k] == before.evidence[k])
  }

  predicate ScoreStageEvidence(s: Stage, f: Findings) {
    && s.evidence.Keys == {ScoreEvidence, BandEvidence, BreakdownEvidence}
    && s.evidence[ScoreEvidence] == JInt(f.score) && IsBand(s.evidence[BandEvidence], f.band)
    && IsInts(s.evidence[BreakdownEvidence], f.breakdown)
  }

  predicate RecommendationEvidence(s: Stage, crops: seq<string>, infrastructure: seq<string>) {
    && s.evidence.Keys == {CropsEvidence, InfrastructureEvidence}
    && IsTexts(s.evidence[CropsEvidence], crops) && IsTexts(s.evidence[InfrastructureEvidence], infrastructure)
  }

  /** A stage the trigger writes: the actor's, in progress or, for a submission, completed; times are filled in. */
  predicate Worked(before: Stage, s: Stage, completes: bool, actor: Id, start: Time, now: Time) {
    && s.status == (if completes then StageCompleted else InProgress) && s.owner == Some(actor)
    && s.nextAction == before.nextAction && s.submittedAt == before.submittedAt
    && s.startedAt == (if before.startedAt.Some? then before.startedAt else Some(start))
    && s.completedAt == (if completes && before.completedAt.None? then Some(now) else before.completedAt)
  }

  predicate RecordsCancellation(s: Stage) {
    Decision in s.evidence && s.evidence[Decision] == JWord(DecisionCancelled)
  }

  /** The header's status and end stay: it is closed already, or no cancellation is recorded at the visit or the
      approval. */
  ghost predicate HeaderStays(w: Workflow, after: Workflow)
    requires AllStages(w)
  {
    w.status == WorkflowCompleted || w.status == WorkflowCancelled
    || (!RecordsCancellation(w.stages[InspectorVisit]) && !RecordsCancellation(w.stages[Approval])) ==>
      after.status == w.status && after.completedAt == w.completedAt
  }

  /** A workflow after the trigger for a report that is checked in at `gps`, found `findings` and is or is not
      submitted. */
  ghost predicate Mirrors(w: Workflow, after: Workflow, id: Id, gps: Gps, findings: Option<Findings>, started: Option<Time>,
                          submitted: bool, actor: Id, now: Time)
    requires AllStages(w) && AllStages(after)
  {
    && Worked(w.stages[InspectorVisit], after.stages[InspectorVisit], submitted, actor,
              if started.Some? then started.value else now, now)
    && VisitEvidence(w.stages[InspectorVisit], after.stages[InspectorVisit], id, gps)
    && (findings.Some? ==>
          && Worked(w.stages[SiteScore], after.stages[SiteScore], submitted, actor, now, now)
          && ScoreStageEvidence(after.stages[SiteScore], findings.value))
    && (findings.None? ==> after.stages[SiteScore] == w.stages[SiteScore])
    && (submitted ==>
          && Worked(w.stages[GardenRecommendation], after.stages[GardenRecommendation], true, actor, now, now)
          && RecommendationEvidence(after.stages[GardenRecommendation],
                                    if findings.Some? then findings.value.crops else [],
                                    if findings.Some? then findings.value.infrastructure else []))
    && (!submitted ==> after.stages[GardenRecommendation] == w.stages[GardenRecommendation])
    && (if submitted && w.stages[Approval].status == NotStarted
        then after.stages[Approval] == w.stages[Approval].(status := Ready, nextAction := ReviewInspectionEvidence)
        else after.stages[Approval] == w.stages[Approval])
    && (forall k: StageKey :: k !in {InspectorVisit, SiteScore, GardenRecommendation, Approval} ==>
          after.stages[k] == w.stages[k])
    && after.currentStage == (if submitted then Approval else InspectorVisit) && after.owner == w.owner
    && HeaderStays(w, after)
  }

  // ---------- The trigger ----------

  lemma VisitRowIs(s: Stage, id: Id, rep: Report, actor: Id, now: Time)
    ensures var row := VisitRow(s, id, rep, actor, now);
            && VisitEvidence(s, row, id, rep.gps)
            && Worked(s, row, rep.status == SubmittedForApproval, actor,
                      if rep.startedAt.Some? then rep.startedAt.value else now, now)
  {
  }

  lemma ScoreRowIs(s: Stage, rep: Report, actor: Id, now: Time)
    requires rep.findings.Some?
    ensures var row := ScoreRow(s, rep, actor, now);
            && ScoreStageEvidence(row, rep.findings.value)
            && Worked(s, row, rep.status == SubmittedForApproval, actor, now, now)
  {
  }

  lemma RecommendationRowIs(s: Stage, rep: Report, actor: Id, now: Time)
    ensures var row := RecommendationRow(s, rep, actor, now);
            && RecommendationEvidence(row, if rep.findings.Some? then rep.findings.value.crops else [],
                                      if rep.findings.Some? then rep.findings.value.infrastructure else [])
            && Worked(s, row, true, actor, now, now)
  {
  }

  lemma TouchIs(r: Id, b: Board, k: StageKey, row: Stage, actor: Id, now: Time)
    requires AllStages(b.workflow)
    ensures var after := Touch(r, b, k, row, actor, now).workflow;
            AllStages(after) && after.stages == b.workflow.stages[k := row] && after.owner == b.workflow.owner
  {
  }

  lemma TouchHeader(r: Id, b: Board, k: StageKey, row: Stage, actor: Id, now: Time)
    requires AllStages(b.workflow)
    ensures var after := Touch(r, b, k, row, actor, now).workflow;
            && AllStages(after) && after.stages == b.workflow.stages[k := row]
            && (b.workflow.status == WorkflowCompleted || b.workflow.status == WorkflowCancelled
                || (row.status != StageRejected && !RecordsCancellation(row)) ==>
                  after.status == b.workflow.status && after.completedAt == b.workflow.completedAt)
  {
  }

  ghost predicate VisitMirrored(w: Workflow, after: Workflow, id: Id, rep: Report, actor: Id, now: Time)
    requires AllStages(w) && AllStages(after)
  {
    && Worked(w.stages[InspectorVisit], after.stages[InspectorVisit], rep.status == SubmittedForApproval, actor,
              if rep.startedAt.Some? then rep.startedAt.value else now, now)
    && VisitEvidence(w.stages[InspectorVisit], after.stages[InspectorVisit], id, rep.gps)
    && (rep.findings.Some? ==>
          && Worked(w.stages[SiteScore], after.stages[SiteScore], rep.status == SubmittedForApproval, actor, now, now)
          && ScoreStageEvidence(after.stages[SiteScore], rep.findings.value))
    && (rep.findings.None? ==> after.stages[SiteScore] == w.stages[SiteScore])
    && (forall k: StageKey :: k != InspectorVisit && k != SiteScore ==> after.stages[k] == w.stages[k])
  }

  lemma VisitMirrors(r: Id, w: Workflow, id: Id, rep: Report, actor: Id, now: Time)
    requires AllStages(w)
    ensures var after := SyncVisit(r, w, id, rep, actor, now).workflow;
            AllStages(after) && after.owner == w.owner && VisitMirrored(w, after, id, rep, actor, now)
  {
    var row := VisitRow(w.stages[InspectorVisit], id, rep, actor, now);
    TouchIs(r, Board(w, []), InspectorVisit, row, actor, now);
    if rep.findings.Some? {
      TouchIs(r, Touch(r, Board(w, []), InspectorVisit, row, actor, now), SiteScore,
              ScoreRow(w.stages[SiteScore], rep, actor, now), actor, now);
    }
    RowsMirror(w, SyncVisit(r, w, id, rep, actor, now).workflow, id, rep, actor, now);
  }

  lemma RowsMirror(w: Workflow, after: Workflow, id: Id, rep: Report, actor: Id, now: Time)
    requires AllStages(w) && AllStages(after)
    requires var visited := w.stages[InspectorVisit := VisitRow(w.stages[InspectorVisit], id, rep, actor, now)];
             after.stages == if rep.findings.Some?
                             then visited[SiteScore := ScoreRow(w.stages[SiteScore], rep, actor, now)] else visited
    ensures VisitMirrored(w, after, id, rep, actor, now)
  {
    VisitRowIs(w.stages[InspectorVisit], id, rep, actor, now);
    if rep.findings.Some? {
      ScoreRowIs(w.stages[SiteScore], rep, actor, now);
    }
  }

  ghost predicate SubmissionMirrored(w: Workflow, after: Workflow, rep: Report, actor: Id, now: Time)
    requires AllStages(w) && AllStages(after)
  {
    && Worked(w.stages[GardenRecommendation], after.stages[GardenRecommendation], true, actor, now, now)
    && RecommendationEvidence(after.stages[GardenRecommendation],
                              if rep.findings.Some? then rep.findings.value.crops else [],
                              if rep.findings.Some? then rep.findings.value.infrastructure else [])
    && after.stages[Approval]
       == (if w.stages[Approval].status == NotStarted
           then w.stages[Approval].(status := Ready, nextAction := ReviewInspectionEvidence) else w.stages[Approval])
    && (forall k: StageKey :: k != GardenRecommendation && k != Approval ==> after.stages[k] == w.stages[k])
  }

  lemma SubmissionMirrors(r: Id, b: Board, rep: Report, actor: Id, now: Time)
    requires AllStages(b.workflow)
    ensures var after := SyncSubmission(r, b, rep, actor, now).workflow;
            AllStages(after) && after.owner == b.workflow.owner && SubmissionMirrored(b.workflow, after, rep, actor, now)
  {
    var s, approval := b.workflow.stages[GardenRecommendation], b.workflow.stages[Approval];
    var row := RecommendationRow(s, rep, actor, now);
    RecommendationRowIs(s, rep, actor, now);
    TouchIs(r, b, GardenRecommendation, row, actor, now);
    TouchIs(r, Touch(r, b, GardenRecommendation, row, actor, now), Approval,
            approval.(status := Ready, nextAction := ReviewInspectionEvidence), actor, now);
  }

  lemma VisitHeaderStays(r: Id, w: Workflow, id: Id, rep: Report, actor: Id, now: Time)
    requires AllStages(w)
    ensures AllStages(SyncVisit(r, w, id, rep, actor, now).workflow)
    ensures HeaderStays(w, SyncVisit(r, w, id, rep, actor, now).workflow)
  {
    var row := VisitRow(w.stages[InspectorVisit], id, rep, actor, now);
    TouchHeader(r, Board(w, []), InspectorVisit, row, actor, now);
    if rep.findings.Some? {
      TouchHeader(r, Touch(r, Board(w, []), InspectorVisit, row, actor, now), SiteScore,
              ScoreRow(w.stages[SiteScore], rep, actor, now), actor, now);
    }
  }

  lemma SubmissionHeaderStays(r: Id, b: Board, rep: Report, actor: Id, now: Time)
    requires AllStages(b.workflow)
    ensures HeaderStays(b.workflow, SyncSubmission(r, b, rep, actor, now).workflow)
  {
    var row := RecommendationRow(b.workflow.stages[GardenRecommendation], rep, actor, now);
    TouchHeader(r, b, GardenRecommendation, row, actor, now);
    TouchHeader(r, Touch(r, b, GardenRecommendation, row, actor, now), Approval,
            b.workflow.stages[Approval].(status := Ready, nextAction := ReviewInspectionEvidence), actor, now);
  }

  lemma StaysThen(w: Workflow, mid: Workflow, after: Workflow)
    requires AllStages(w) && AllStages(mid) && HeaderStays(w, mid) && HeaderStays(mid, after)
    requires RecordsCancellation(mid.stages[InspectorVisit]) ==> RecordsCancellation(w.stages[InspectorVisit])
    requires RecordsCancellation(mid.stages[Approval]) ==> RecordsCancellation(w.stages[Approval])
    ensures HeaderStays(w, after)
  {
  }

  lemma TriggerMirrors(r: Id, w: Workflow, id: Id, rep: Report, actor: Id, now: Time)
    requires AllStages(w)
    ensures var after := SyncReport(r, w, id, rep, actor, now).workflow;
            && AllStages(after)
            && Mirrors(w, after, id, rep.gps, rep.findings, rep.startedAt, rep.status == SubmittedForApproval, actor, now)
  {
    VisitMirrors(r, w, id, rep, actor, now);
    var b := SyncVisit(r, w, id, rep, actor, now);
    VisitHeaderStays(r, w, id, rep, actor, now);
    if rep.status == SubmittedForApproval {
      SubmissionMirrors(r, b, rep, actor, now);
      SubmissionHeaderStays(r, b, rep, actor, now);
      MirrorsOfParts(w, b.workflow, SyncSubmission(r, b, rep, actor, now).workflow, id, rep, actor, now);
    } else {
      MirrorsOfVisit(w, b.workflow, id, rep, actor, now);
    }
  }

  lemma MirrorsOfVisit(w: Workflow, after: Workflow, id: Id, rep: Report, actor: Id, now: Time)
    requires AllStages(w) && AllStages(after) && rep.status != SubmittedForApproval
    requires VisitMirrored(w, after, id, rep, actor, now) && after.owner == w.owner && HeaderStays(w, after)
    ensures Mirrors(w, after.(currentStage := InspectorVisit), id, rep.gps, rep.findings, rep.startedAt, false, actor, now)
  {
  }

  lemma MirrorsOfParts(w: Workflow, mid: Workflow, after: Workflow, id: Id, rep: Report, actor: Id, now: Time)
    requires AllStages(w) && AllStages(mid) && AllStages(after) && rep.status == SubmittedForApproval
    requires VisitMirrored(w, mid, id, rep, actor, now) && SubmissionMirrored(mid, after, rep, actor, now)
    requires mid.owner == w.owner && after.owner == mid.owner && HeaderStays(w, mid) && HeaderStays(mid, after)
    ensures Mirrors(w, after.(currentStage := Approval), id, rep.gps, rep.findings, rep.startedAt, true, actor, now)
  {
    StaysThen(w, mid, after);
  }

  // ---------- The transactions ----------

  /** Request `q` is the newest of garden `g`. */
  predicate Newest(requests: seq<Request>, g: Id, q: Id) {
    && q < |requests| && requests[q].property == Some(g)
    && forall i :: q < i < |requests| ==> requests[i].property != Some(g)
  }

  lemma NewestIsLast(requests: seq<Request>, g: Id, q: Id)
    requires Newest(requests, g, q)
    ensures LastRequestFor(requests, g) == Some(q)
  {
    LastRequestForIs(requests, g);
  }

  /** Only the workflow of request `q`, and the event log, differ. */
  ghost predicate WorkflowDiffers(db: Db, after: Db, q: Id) {
    && after == db.(workflows := after.workflows, events := after.events)
    && |after.workflows| == |db.workflows|
    && forall i :: 0 <= i < |db.workflows| && i != q ==> after.workflows[i] == db.workflows[i]
  }

  lemma TriggerLeaves(db: Db, id: Id, actor: Id, now: Time, q: Id)
    requires id < |db.reports| && Newest(db.requests, db.reports[id].garden, q)
    requires q < |db.workflows| && AllStages(db.workflows[q])
    ensures var after, rep := SyncInspection(db, id, actor, now), db.reports[id];
            && WorkflowDiffers(db, after, q) && AllStages(after.workflows[q])
            && Mirrors(db.workflows[q], after.workflows[q], id, rep.gps, rep.findings, rep.startedAt,
                       rep.status == SubmittedForApproval, actor, now)
  {
    NewestIsLast(db.requests, db.reports[id].garden, q);
    TriggerMirrors(q, db.workflows[q], id, db.reports[id], actor, now);
  }

  /** A committed submission: the report stores the assessment and its flags, the visit is completed, and
      the workflow of the garden's newest request records check-in, score and recommendations. */
  lemma SubmissionLeaves(db: Db, id: Id, a: Id, inspector: Id, v: Assessment, overall: OverallStatus, followUp: bool,
                         at: Time, actor: Id, now: Time, q: Id)
    requires SubmitForApproval(db, id, a, inspector, v, overall, followUp, at, actor, now).Committed?
    requires id < |db.reports| && Newest(db.requests, db.reports[id].garden, q)
    requires q < |db.workflows| && AllStages(db.workflows[q])
    ensures a < |db.assignments|
    ensures var after := SubmitForApproval(db, id, a, inspector, v, overall, followUp, at, actor, now).db;
            && WorkflowDiffers(db, after.(reports := db.reports, assignments := db.assignments), q)
            && after.reports
               == db.reports[id := db.reports[id].(
                    notes := v.notes, gps := v.gps, findings := Some(v.findings), status := SubmittedForApproval,
                    overall := overall, followUp := followUp, submittedAt := Some(at))]
            && after.assignments
               == db.assignments[a := db.assignments[a].(status := VisitCompleted, completedAt := Some(at), updatedAt := now)]
            && AllStages(after.workflows[q])
            && Mirrors(db.workflows[q], after.workflows[q], id, v.gps, Some(v.findings), db.reports[id].startedAt, true,
                       actor, now)
  {
    SubmitIs(db, id, a, inspector, v, overall, followUp, at, actor, now);
    var rows := db.(reports := db.reports[id := SubmittedReport(db.reports[id], v, overall, followUp, at)]);
    TriggerLeaves(rows, id, actor, now, q);
  }

  /** A saved draft: the report stores the assessment, keeps its flags, and the same workflow mirrors it. */
  lemma DraftLeaves(db: Db, id: Id, seen: AssessmentStatus, inspector: Id, v: Assessment, actor: Id, now: Time, q: Id)
    requires SaveAssessment(db, id, seen, inspector, v, actor, now).Committed?
    requires id < |db.reports| && Newest(db.requests, db.reports[id].garden, q)
    requires q < |db.workflows| && AllStages(db.workflows[q])
    ensures var after := SaveAssessment(db, id, seen, inspector, v, actor, now).db;
            && WorkflowDiffers(db, after.(reports := db.reports), q)
            && after.reports
               == db.reports[id := db.reports[id].(
                    notes := v.notes, gps := v.gps, findings := Some(v.findings), status := Draft)]
            && AllStages(after.workflows[q])
            && Mirrors(db.workflows[q], after.workflows[q], id, v.gps, Some(v.findings), db.reports[id].startedAt, false,
                       actor, now)
  {
    var rows := db.(reports := db.reports[id := DraftedReport(db.reports[id], v)]);
    TriggerLeaves(rows, id, actor, now, q);
  }

  /** A decision: the report keeps everything but its status, and its notes when the decision has some. */
  lemma DecisionLeaves(db: Db, d: ReportDecision, actor: Id, now: Time, q: Id)
    requires d.report < |db.reports| && Newest(db.requests, db.reports[d.report].garden, q)
    requires q < |db.workflows| && AllStages(db.workflows[q])
    ensures var after, rep := DecideReport(db, d, actor, now), db.reports[d.report];
            && WorkflowDiffers(db, after.(reports := db.reports), q)
            && after.reports
               == db.reports[d.report := rep.(status := d.status, notes := if d.notes.Some? then d.notes.value else rep.notes)]
            && AllStages(after.workflows[q])
            && Mirrors(db.workflows[q], after.workflows[q], d.report, rep.gps, rep.findings, rep.startedAt,
                       d.status == SubmittedForApproval, actor, now)
  {
    var rep := db.reports[d.report];
    var row := rep.(status := d.status, notes := if d.notes.Some? then d.notes.value else rep.notes);
    TriggerLeaves(db.(reports := db.reports[d.report := row]), d.report, actor, now, q);
  }
}
