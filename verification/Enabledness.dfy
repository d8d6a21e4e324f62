/** In a reachable database the next step can be taken: the checks that guard it are exact, and the
    failures that a transaction could still meet afterwards cannot happen. */
module Enabledness {
  import opened Wrappers
  import opened Domain
  import opened StageBoard
  import opened Transactions
  import opened Requests
  import opened BoardTable
  import opened BoardMoves
  import opened Invariants
  import opened StatusPreservation
  import opened AllocationLaws
  import opened RunLaws
  import opened Runs
  import Texts

  lemma StagesThere(db: Db, r: Id, keys: seq<StageKey>)
    requires Inv(db) && r < |db.requests|
    ensures StagesPresent(db, r, keys)
  {
  }

  // ---------- Status updates ----------

  /** The checks of a status update, made again under lock. */
  predicate UpdateChecks(db: Db, r: Id, plan: StatusPlan) {
    && r < |db.requests| && db.requests[r].status == plan.expected
    && (plan.patch.status == Live ==> ActivationError(db, db.requests[r].property).None?)
    && (plan.assignment.Some? ==>
          var a := plan.assignment.value;
          && a < |db.assignments| && db.requests[r].property == Some(db.assignments[a].garden)
          && (db.assignments[a].status == Pending || db.assignments[a].status == VisitInProgress))
    && (plan.decision.Some? ==>
          var d := plan.decision.value.report; d < |db.reports| && db.reports[d].status == SubmittedForApproval)
  }

  lemma UpdateUnfolds(db: Db, r: Id, plan: StatusPlan, actor: Id, now: Time)
    ensures UpdateWorkflow(db, r, plan, actor, now).Committed? ==> UpdateChecks(db, r, plan)
    ensures UpdateChecks(db, r, plan) ==>
              var db1 := if plan.decision.Some? then DecideReport(db, plan.decision.value, actor, now) else db;
              r < |db1.requests| &&
              UpdateWorkflow(db, r, plan, actor, now)
              == CommitStages(db1.(requests := db1.requests[r := PatchedRequest(db.requests[r], plan.patch)]),
                              Advancing, r, plan.stages, actor, now, r)
  {
  }

  /** A planned update commits exactly when its own checks pass: no stage is ever missing. */
  lemma UpdateCommitsExactly(db: Db, r: Id, plan: StatusPlan, actor: Id, now: Time)
    requires Inv(db) && FittingPlan(plan) && plan.patch.status != InspectionScheduled
    ensures UpdateWorkflow(db, r, plan, actor, now).Committed? <==> UpdateChecks(db, r, plan)
  {
    UpdateUnfolds(db, r, plan, actor, now);
    if UpdateChecks(db, r, plan) {
      if plan.decision.Some? {
        DecisionKeeps(db, plan.decision.value, actor, now);
        PatchKeeps(DecideReport(db, plan.decision.value, actor, now), r, plan, actor, now);
      } else {
        PatchKeeps(db, r, plan, actor, now);
      }
    }
  }

  lemma CancellationPlan(row: Request, notes: Option<string>, seen: Seen, actor: Id, plannedAt: Time)
    requires Rank(row.status) < 7
    ensures var plan := PlanPatch(row, Cancelled, notes, seen, actor, plannedAt);
            && plan.Success? && FittingPlan(plan.value) && plan.value.expected == row.status
            && plan.value.patch.status == Cancelled && plan.value.assignment.None? && plan.value.decision.None?
  {
    PlansFit(row, Cancelled, notes, seen, actor, plannedAt);
  }

  /** Whoever reads an open request and asks to cancel it at once succeeds. */
  lemma CancellationCommits(db: Db, r: Id, notes: Option<string>, actor: Id, plannedAt: Time, now: Time)
    requires Inv(db) && r < |db.requests| && Rank(db.requests[r].status) < 7
    ensures var plan := PlanPatch(db.requests[r], Cancelled, notes, Seen(db, db, db), actor, plannedAt);
            plan.Success? && UpdateWorkflow(db, r, plan.value, actor, now).Committed?
  {
    CancellationPlan(db.requests[r], notes, Seen(db, db, db), actor, plannedAt);
    UpdateCommitsExactly(db, r, PlanPatch(db.requests[r], Cancelled, notes, Seen(db, db, db), actor, plannedAt).value,
                         actor, now);
  }

  lemma SameLiveChecks(db: Db, p: Option<Id>)
    ensures LiveReadError(p, Seen(db, db, db)) == ActivationError(db, p)
  {
  }

  lemma ActivationNeedsApproval(db: Db, r: Id)
    requires RowsFit(db) && r < |db.requests| && db.requests[r].status == FinalInstall
    ensures db.requests[r].property.Some?
    ensures var p := db.requests[r].property;
            ActivationError(db, p) == (if ApprovedReport(db.reports, p.value).Some? then None
                                       else Some(ActivationRequirementsMissing))
  {
    SetupOf(db, r);
    var p := db.requests[r].property.value;
    var i: nat :| TheInstallation(db.installations, p, i) && CropsFit(FinalInstall, db.batches, i);
    var b :| BatchOf(db.batches, b, i);
  }

  lemma ActivationPlan(row: Request, notes: Option<string>, seen: Seen, actor: Id, plannedAt: Time)
    requires row.status == FinalInstall
    ensures var plan := PlanPatch(row, Live, notes, seen, actor, plannedAt);
            && (plan.Success? <==> LiveReadError(row.property, seen).None?)
            && (plan.Success? ==>
                  && FittingPlan(plan.value) && plan.value.expected == row.status
                  && plan.value.patch.status == Live && plan.value.assignment.None? && plan.value.decision.None?)
  {
    PlansFit(row, Live, notes, seen, actor, plannedAt);
  }

  /** From `final_install` activation, read and committed at once, succeeds exactly when the property
      has an approved report: the planting it checks for is always there. */
  lemma ActivationCommitsExactly(db: Db, r: Id, notes: Option<string>, actor: Id, plannedAt: Time, now: Time)
    requires Inv(db) && r < |db.requests| && db.requests[r].status == FinalInstall
    ensures db.requests[r].property.Some?
    ensures var plan := PlanPatch(db.requests[r], Live, notes, Seen(db, db, db), actor, plannedAt);
            (plan.Success? && UpdateWorkflow(db, r, plan.value, actor, now).Committed?)
            <==> ApprovedReport(db.reports, db.requests[r].property.value).Some?
  {
    ActivationNeedsApproval(db, r);
    SameLiveChecks(db, db.requests[r].property);
    ActivationPlan(db.requests[r], notes, Seen(db, db, db), actor, plannedAt);
    var plan := PlanPatch(db.requests[r], Live, notes, Seen(db, db, db), actor, plannedAt);
    if plan.Success? {
      UpdateCommitsExactly(db, r, plan.value, actor, now);
    }
  }

  predicate Unsuitable(report: Report) {
    report.findings.Some? && report.findings.value.band == NotSuitable
  }

  /** Acceptance, read and committed at once, needs a submitted report, and a reason when the site is unsuitable. */
  lemma AcceptanceCommitsExactly(db: Db, r: Id, notes: Option<string>, actor: Id, plannedAt: Time, now: Time)
    requires Inv(db) && r < |db.requests| && db.requests[r].status == InspectionScheduled
    ensures var plan := PlanPatch(db.requests[r], Accepted, notes, Seen(db, db, db), actor, plannedAt);
            var report := PendingReport(db, db.requests[r].property);
            (plan.Success? && UpdateWorkflow(db, r, plan.value, actor, now).Committed?)
            <==> report.Some?
                 && (Unsuitable(db.reports[report.value]) ==> notes.Some? && |Texts.Stripped(notes.value)| >= 20)
  {
    PlansFit(db.requests[r], Accepted, notes, Seen(db, db, db), actor, plannedAt);
    var plan := PlanPatch(db.requests[r], Accepted, notes, Seen(db, db, db), actor, plannedAt);
    if plan.Success? {
      UpdateCommitsExactly(db, r, plan.value, actor, now);
    }
  }

  // ---------- Scheduling ----------

  /** Scheduling commits exactly for an active inspector and a request that is submitted or scheduled: a
      linked property is never missing or somebody else's. */
  lemma SchedulingCommitsExactly(db: Db, r: Id, s: Schedule, actor: Id, now: Time)
    requires Inv(db)
    ensures ScheduleInspection(db, r, s, actor, now).Committed?
            <==> && r < |db.requests|
                 && (db.requests[r].status == Submitted || db.requests[r].status == InspectionScheduled)
                 && s.inspector < |db.inspectorActive| && db.inspectorActive[s.inspector]
  {
    if r < |db.requests| && (db.requests[r].status == Submitted || db.requests[r].status == InspectionScheduled) {
      assert RequestLinked(db.requests[r], db.properties);
      ScheduleStagesCommit(db, r, ScheduleUpdates(db, r, actor), actor, now);
    }
  }

  lemma ScheduleStagesCommit(db: Db, r: Id, us: seq<StageUpdate>, actor: Id, now: Time)
    requires Inv(db) && r < |db.requests| && FittingStages(InspectionScheduled, us)
    ensures r < |db.workflows| && WriteStages(Advancing, r, db.workflows[r], us, actor, now).Success?
  {
    assert BoardAt(db.requests[r], db.reports, db.workflows[r]);
    DistinctWhenFitting(InspectionScheduled, us);
    WriteStagesRows(Advancing, r, db.workflows[r], us, actor, now);
  }

  // ---------- Installation, allocation, planting ----------

  lemma InstallationCommitsExactly(db: Db, r: Id, p: Id, facts: InstallationFacts, at: Time, actor: Id, now: Time)
    requires Inv(db) && r < |db.requests| && db.requests[r].status == NeedingImplements
    ensures CompleteInstallation(db, r, p, facts, at, actor, now).Committed?
            <==> db.requests[r].property == Some(p) && ApprovedReport(db.reports, p).Some?
  {
    var w := db.workflows[r];
    assert BoardAt(db.requests[r], db.reports, w);
    StagesThere(db, r, [InstallationStage, CropAllocation]);
    if db.requests[r].property == Some(p) {
      var id := InstallRows(db, r, p, facts, at).1;
      InstallMove(r, w, Surveyed(db.reports, db.requests[r].property), id, facts, at, actor, now);
    }
  }

  lemma PlantableHere(db: Db, i: Id)
    requires CropsFit(Seeds, db.batches, i)
    ensures BatchIdsOf(db.batches, i) != [] && Plantable(db.batches, BatchIdsOf(db.batches, i))
  {
    RecordedIds(db.batches, i);
    var b: nat :| BatchOf(db.batches, b, i);
    assert b in BatchIdsOf(db.batches, i);
  }

  lemma PlantingReady(db: Db, r: Id) returns (i: Id)
    requires Inv(db) && r < |db.requests| && db.requests[r].status == Seeds
    ensures db.requests[r].property.Some? && FirstActive(db.installations, db.requests[r].property.value) == Some(i)
    ensures i < |db.installations| && db.installations[i].installedAt.Some?
    ensures BatchIdsOf(db.batches, i) != [] && Plantable(db.batches, BatchIdsOf(db.batches, i))
    ensures StagesPresent(db, r, [MaintenanceTasks])
  {
    SetupOf(db, r);
    var j: nat :| TheInstallation(db.installations, db.requests[r].property.value, j) && CropsFit(Seeds, db.batches, j);
    i := j;
    PlantableHere(db, i);
    StagesThere(db, r, [MaintenanceTasks]);
  }

  lemma PlantingStages(db: Db, r: Id, ids: seq<Id>, at: Time, actor: Id, now: Time)
    requires Inv(db) && r < |db.requests| && db.requests[r].status == Seeds
    ensures r < |db.workflows| && WriteStages(Overwriting, r, db.workflows[r], PlantStages(ids, at), actor, now).Success?
  {
    assert BoardAt(db.requests[r], db.reports, db.workflows[r]);
    PlantMove(r, db.workflows[r], Surveyed(db.reports, db.requests[r].property), ids, at, actor, now);
  }

  /** From `seeds` planting always commits. */
  lemma PlantingCommits(db: Db, r: Id, at: Time, actor: Id, now: Time)
    requires Inv(db) && r < |db.requests| && db.requests[r].status == Seeds
    ensures CompletePlanting(db, r, at, actor, now).Committed?
  {
    var i := PlantingReady(db, r);
    PlantingStages(db, r, BatchIdsOf(db.batches, i), at, actor, now);
  }

  lemma AllocationReady(db: Db, r: Id) returns (i: Id)
    requires Inv(db) && r < |db.requests| && db.requests[r].status == ImplementsInstalled
    ensures db.requests[r].property.Some? && FirstCompleted(db.installations, db.requests[r].property.value) == Some(i)
    ensures db.requests[r].property.value < |db.properties|
    ensures db.properties[db.requests[r].property.value].owner == db.requests[r].owner
    ensures StagesPresent(db, r, [CropAllocation, MaintenanceTasks])
  {
    SetupOf(db, r);
    var j: nat :| TheInstallation(db.installations, db.requests[r].property.value, j);
    i := j;
    StagesThere(db, r, [CropAllocation, MaintenanceTasks]);
  }

  lemma AllocationStagesCommit(db: Db, r: Id, i: Id, ids: seq<Id>, crops: seq<string>, actor: Id, now: Time)
    requires Inv(db) && r < |db.requests| && db.requests[r].status == ImplementsInstalled
    ensures r < |db.workflows|
            && WriteStages(Overwriting, r, db.workflows[r], AllocationStages(i, ids, crops), actor, now).Success?
  {
    assert BoardAt(db.requests[r], db.reports, db.workflows[r]);
    AllocateMove(r, db.workflows[r], Surveyed(db.reports, db.requests[r].property), i, ids, crops, actor, now);
  }

  lemma AllocationChecks(db: Db, r: Id, i: Id, v: Allocation, actor: Id, now: Time)
    requires r < |db.requests| && r < |db.workflows| && db.requests[r].status == ImplementsInstalled
    requires db.requests[r].property == Some(v.property) && v.report < |db.reports|
    requires FirstCompleted(db.installations, v.property) == Some(i)
    requires v.property < |db.properties| && db.properties[v.property].owner == db.requests[r].owner
    requires StagesPresent(db, r, [CropAllocation, MaintenanceTasks])
    requires var ids := BatchIdsOf(AllocationRows(db, r, i, v, actor, now).batches, i);
             WriteStages(Overwriting, r, db.workflows[r], AllocationStages(i, ids, Recommended(db.reports[v.report])),
                         actor, now).Success?
    ensures CompleteAllocation(db, r, v, actor, now).Committed?
            <==> ApprovedHere(db, v.report, v.property)
                 && forall c :: c in v.crops ==> c.name in Recommended(db.reports[v.report])
  {
  }

  /** From `implements_installed` allocation commits exactly when the named report is an approved one of
      the property and recommends every crop. */
  lemma AllocationCommitsExactly(db: Db, r: Id, v: Allocation, actor: Id, now: Time)
    requires Inv(db) && r < |db.requests| && db.requests[r].status == ImplementsInstalled
    ensures CompleteAllocation(db, r, v, actor, now).Committed?
            <==> db.requests[r].property == Some(v.property) && ApprovedHere(db, v.report, v.property)
                 && forall c :: c in v.crops ==> c.name in Recommended(db.reports[v.report])
  {
    var i := AllocationReady(db, r);
    if db.requests[r].property == Some(v.property) && v.report < |db.reports| {
      var ids := BatchIdsOf(AllocationRows(db, r, i, v, actor, now).batches, i);
      AllocationStagesCommit(db, r, i, ids, Recommended(db.reports[v.report]), actor, now);
      AllocationChecks(db, r, i, v, actor, now);
    }
  }

  // ---------- In every run ----------

  /** In every state of every run: a request in `seeds` can be planted, */
  lemma PlantingIsEnabled(trace: seq<Db>, acts: seq<Action>, n: nat, r: Id, at: Time, actor: Id, now: Time)
    requires IsRun(trace, acts) && n < |trace| && r < |trace[n].requests| && trace[n].requests[r].status == Seeds
    ensures CompletePlanting(trace[n], r, at, actor, now).Committed?
  {
    EveryStateFits(trace, acts, n);
    PlantingCommits(trace[n], r, at, actor, now);
  }

  /** an open request can be cancelled, */
  lemma CancellationIsEnabled(trace: seq<Db>, acts: seq<Action>, n: nat, r: Id, notes: Option<string>, actor: Id,
                              plannedAt: Time, now: Time)
    requires IsRun(trace, acts) && n < |trace| && r < |trace[n].requests| && Rank(trace[n].requests[r].status) < 7
    ensures var db := trace[n];
            var plan := PlanPatch(db.requests[r], Cancelled, notes, Seen(db, db, db), actor, plannedAt);
            plan.Success? && UpdateWorkflow(db, r, plan.value, actor, now).Committed?
  {
    EveryStateFits(trace, acts, n);
    CancellationCommits(trace[n], r, notes, actor, plannedAt, now);
  }

  /** and a finished garden can go live exactly when its property has an approved report. */
  lemma ActivationIsEnabledExactly(trace: seq<Db>, acts: seq<Action>, n: nat, r: Id, notes: Option<string>, actor: Id,
                                   plannedAt: Time, now: Time)
    requires IsRun(trace, acts) && n < |trace| && r < |trace[n].requests| && trace[n].requests[r].status == FinalInstall
    ensures trace[n].requests[r].property.Some?
    ensures var db := trace[n];
            var plan := PlanPatch(db.requests[r], Live, notes, Seen(db, db, db), actor, plannedAt);
            (plan.Success? && UpdateWorkflow(db, r, plan.value, actor, now).Committed?)
            <==> ApprovedReport(db.reports, db.requests[r].property.value).Some?
  {
    EveryStateFits(trace, acts, n);
    ActivationCommitsExactly(trace[n], r, notes, actor, plannedAt, now);
  }
}
