/** What holds of every report of a run: its score is the score of its own facts, and a report that was
    submitted carries the status and follow-up flag that score calls for. */
module ReportLaws {
  import opened Domain
  import opened Transactions
  import opened Endpoints
  import opened Scoring
  import opened StatusPreservation
  import opened Preservation
  import opened Runs

  predicate Decided(s: AssessmentStatus) {
    s == SubmittedForApproval || s == Approved || s == AssessmentRejected
  }

  predicate WellScored(f: Findings) {
    Valid(f.site) && ByTable(f)
  }

  /** A submitted, approved or rejected report is flagged by the band of the facts it stores, and
      recommends something. */
  predicate WellFlagged(r: Report) {
    && (r.findings.Some? ==> WellScored(r.findings.value))
    && (Decided(r.status) ==>
          && r.findings.Some?
          && Flags(r.overall, r.followUp, r.findings.value.band)
          && r.findings.value.crops != [] && r.findings.value.infrastructure != [])
  }

  ghost predicate AllFlagged(reports: seq<Report>) {
    forall i :: 0 <= i < |reports| ==> WellFlagged(reports[i])
  }

  /** Checklist items and photos belong to reports that exist, and items are what the schema accepts. */
  ghost predicate Homed(items: seq<ChecklistItem>, photos: seq<Photo>, reports: seq<Report>) {
    && (forall k :: 0 <= k < |items| ==> items[k].report < |reports| && ValidItem(items[k]))
    && (forall k :: 0 <= k < |photos| ==> photos[k].report < |reports|)
  }

  ghost predicate ReportsFit(db: Db) {
    AllFlagged(db.reports) && Homed(db.items, db.photos, db.reports)
  }

  // ---------- One commit ----------

  lemma UpdateReports(db: Db, r: Id, plan: StatusPlan, actor: Id, now: Time)
    requires UpdateWorkflow(db, r, plan, actor, now).Committed?
    ensures var after := UpdateWorkflow(db, r, plan, actor, now).db;
            && after.items == db.items && after.photos == db.photos && |after.reports| == |db.reports|
            && forall i :: 0 <= i < |db.reports| ==>
                 || after.reports[i] == db.reports[i]
                 || (plan.decision.Some? && i == plan.decision.value.report
                     && db.reports[i].status == SubmittedForApproval
                     && after.reports[i].status == plan.decision.value.status
                     && after.reports[i] == db.reports[i].(status := after.reports[i].status,
                                                           notes := after.reports[i].notes))
  {
    UpdateIs(db, r, plan, actor, now);
  }

  lemma UpdateFits(db: Db, r: Id, plan: StatusPlan, actor: Id, now: Time)
    requires ReportsFit(db) && UpdateWorkflow(db, r, plan, actor, now).Committed?
    requires plan.decision.Some? ==> Decided(plan.decision.value.status)
    ensures ReportsFit(UpdateWorkflow(db, r, plan, actor, now).db)
  {
    UpdateReports(db, r, plan, actor, now);
  }

  lemma SubmitFits(db: Db, id: Id, a: Id, inspector: Id, v: Assessment, overall: OverallStatus, followUp: bool,
                   at: Time, actor: Id, now: Time)
    requires ReportsFit(db) && ScoredSubmission(v, overall, followUp)
    requires SubmitForApproval(db, id, a, inspector, v, overall, followUp, at, actor, now).Committed?
    ensures ReportsFit(SubmitForApproval(db, id, a, inspector, v, overall, followUp, at, actor, now).db)
  {
    SubmitIs(db, id, a, inspector, v, overall, followUp, at, actor, now);
    AssessmentByTable(v);
    FlagsAre(v.findings.band);
  }

  lemma AssessmentByTable(v: Assessment)
    requires ScoredAssessment(v)
    ensures WellScored(v.findings)
  {
    FindingsByTable(v.findings.site, v.findings.crops, v.findings.infrastructure);
  }

  lemma TemplateIsValid(id: Id)
    ensures forall k :: 0 <= k < |CHECKLIST_TEMPLATE| ==>
              SeededItems(id, CHECKLIST_TEMPLATE)[k].report == id && ValidItem(SeededItems(id, CHECKLIST_TEMPLATE)[k])
  {
  }

  lemma StartFits(db: Db, a: Id, inspector: Id, gps: Gps, now: Time)
    requires ReportsFit(db) && StartReport(db, a, inspector, gps, CHECKLIST_TEMPLATE, now).Committed?
    ensures ReportsFit(StartReport(db, a, inspector, gps, CHECKLIST_TEMPLATE, now).db)
  {
    TemplateIsValid(StartReport(db, a, inspector, gps, CHECKLIST_TEMPLATE, now).value);
  }

  lemma DraftFits(db: Db, c: Commit, after: Db)
    requires ReportsFit(db) && Guarded(c) && after == Effect(db, c) && c.Assess?
    ensures ReportsFit(after)
  {
    AssessmentByTable(c.assessment);
  }

  lemma RecordFits(db: Db, c: Commit, after: Db)
    requires ReportsFit(db) && Guarded(c) && after == Effect(db, c) && (c.RecordItem? || c.TakePhoto?)
    ensures ReportsFit(after)
  {
  }

  /** The tables of inspections are as they were. */
  ghost predicate SameInspections(db: Db, after: Db) {
    after.reports == db.reports && after.items == db.items && after.photos == db.photos
  }

  lemma ScheduleInspections(db: Db, r: Id, s: Schedule, actor: Id, now: Time)
    requires ScheduleInspection(db, r, s, actor, now).Committed?
    ensures SameInspections(db, ScheduleInspection(db, r, s, actor, now).db)
  {
    SchedulingIs(db, r, s, actor, now);
  }

  lemma InstallInspections(db: Db, r: Id, p: Id, facts: InstallationFacts, at: Time, actor: Id, now: Time)
    requires CompleteInstallation(db, r, p, facts, at, actor, now).Committed?
    ensures SameInspections(db, CompleteInstallation(db, r, p, facts, at, actor, now).db)
  {
    InstallationIs(db, r, p, facts, at, actor, now);
  }

  lemma AllocateInspections(db: Db, r: Id, v: Allocation, actor: Id, now: Time)
    requires CompleteAllocation(db, r, v, actor, now).Committed?
    ensures SameInspections(db, CompleteAllocation(db, r, v, actor, now).db)
  {
    AllocationIs(db, r, v, actor, now);
  }

  lemma PlantInspections(db: Db, r: Id, at: Time, actor: Id, now: Time)
    requires CompletePlanting(db, r, at, actor, now).Committed?
    ensures SameInspections(db, CompletePlanting(db, r, at, actor, now).db)
  {
    PlantingIs(db, r, at, actor, now);
  }

  /** The commits that are no inspection write leave its tables alone. */
  lemma OtherInspections(db: Db, c: Commit, after: Db)
    requires after == Effect(db, c)
    requires !c.Update? && !c.Submit? && !c.StartVisit? && !c.Assess? && !c.RecordItem? && !c.TakePhoto?
    ensures SameInspections(db, after)
  {
    match c {
      case ScheduleVisit(r, s, actor, now) =>
        if ScheduleInspection(db, r, s, actor, now).Committed? {
          ScheduleInspections(db, r, s, actor, now);
        }
      case Install(r, p, facts, at, actor, now) =>
        if CompleteInstallation(db, r, p, facts, at, actor, now).Committed? {
          InstallInspections(db, r, p, facts, at, actor, now);
        }
      case Allocate(r, v, actor, now) =>
        if CompleteAllocation(db, r, v, actor, now).Committed? {
          AllocateInspections(db, r, v, actor, now);
        }
      case Plant(r, at, actor, now) =>
        if CompletePlanting(db, r, at, actor, now).Committed? {
          PlantInspections(db, r, at, actor, now);
        }
      case _ =>
    }
  }

  lemma EffectFits(db: Db, c: Commit, after: Db)
    requires ReportsFit(db) && Guarded(c) && after == Effect(db, c)
    ensures ReportsFit(after)
  {
    if c.Update? {
      if UpdateWorkflow(db, c.request, c.plan, c.actor, c.now).Committed? {
        UpdateFits(db, c.request, c.plan, c.actor, c.now);
      }
    } else if c.Submit? {
      if SubmitForApproval(db, c.report, c.assignment, c.inspector, c.assessment, c.overall, c.followUp, c.at, c.actor,
                           c.now).Committed?
      {
        SubmitFits(db, c.report, c.assignment, c.inspector, c.assessment, c.overall, c.followUp, c.at, c.actor, c.now);
      }
    } else if c.StartVisit? {
      if StartReport(db, c.assignment, c.inspector, c.gps, CHECKLIST_TEMPLATE, c.now).Committed? {
        StartFits(db, c.assignment, c.inspector, c.gps, c.now);
      }
    } else if c.Assess? {
      DraftFits(db, c, after);
    } else if c.RecordItem? || c.TakePhoto? {
      RecordFits(db, c, after);
    } else {
      OtherInspections(db, c, after);
    }
  }

  // ---------- Every run ----------

  lemma NextFits(past: seq<Db>, a: Action)
    requires past != [] && ReportsFit(past[|past| - 1])
    ensures ReportsFit(Next(past, a))
  {
    if Resolve(past, a).Some? {
      ResolvedIsGuarded(past, a);
      EffectFits(past[|past| - 1], Resolve(past, a).value, Next(past, a));
    }
  }

  /** In every state of every run each report's score, band and breakdown are those of the facts it
      stores, and each submitted, approved or rejected one carries the overall status and the follow-up
      flag of that band; checklist items and photos belong to existing reports. */
  lemma {:induction false} ReportsAreScored(trace: seq<Db>, acts: seq<Action>, n: nat)
    requires IsRun(trace, acts) && n < |trace|
    ensures ReportsFit(trace[n])
  {
    if n > 0 {
      ReportsAreScored(trace, acts, n - 1);
      NextFits(trace[..n], acts[n - 1]);
    }
  }
}
