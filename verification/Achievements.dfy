/** What a committed transaction has achieved, seen from outside: through the queries other code makes. */
module Achievements {
  import opened Wrappers
  import opened Domain
  import opened StageBoard
  import opened Transactions
  import opened StageHistory
  import opened BoardTable
  import opened Invariants
  import opened StatusPreservation
  import opened AllocationLaws
  import opened RunLaws

  // ---------- Stage updates ----------

  /** A stage row after an update: the new status, evidence and next action are there, no other evidence
      has changed, the actor owns the stage, and its times are filled in. Only installation, allocation and
      planting replace a completion time. */
  ghost predicate Landed(how: Writer, before: Stage, u: StageUpdate, actor: Id, now: Time, after: Stage) {
    && after.status == u.status && after.owner == Some(actor)
    && after.evidence.Keys == before.evidence.Keys + u.evidence.Keys
    && (forall e :: e in u.evidence ==> after.evidence[e] == u.evidence[e])
    && (forall e :: e in before.evidence && e !in u.evidence ==> after.evidence[e] == before.evidence[e])
    && after.nextAction == (if u.nextAction.Some? then u.nextAction.value else before.nextAction)
    && after.startedAt == (if before.startedAt.Some? then before.startedAt else Some(now))
    && (u.status != StageSubmitted ==> after.submittedAt == before.submittedAt)
    && (if u.status == StageCompleted || (u.status == StageRejected && how == Advancing)
        then after.completedAt == (if how == Advancing && before.completedAt.Some? then before.completedAt else Some(now))
        else after.completedAt == before.completedAt)
  }

  lemma WrittenLands(how: Writer, s: Stage, u: StageUpdate, actor: Id, now: Time)
    ensures Landed(how, s, u, actor, now, WrittenRow(how, s, u, actor, now))
  {
  }

  /** The list of updates has landed on workflow `w`, its header has moved, and nothing else has. */
  ghost predicate AllLanded(how: Writer, w: Workflow, us: seq<StageUpdate>, actor: Id, now: Time, after: Workflow)
    requires AllStages(w) && AllStages(after)
  {
    && (forall i :: 0 <= i < |us| ==> Landed(how, w.stages[us[i].key], us[i], actor, now, after.stages[us[i].key]))
    && (forall k: StageKey :: (forall i :: 0 <= i < |us| ==> us[i].key != k) ==> after.stages[k] == w.stages[k])
    && HeaderMoved(w, us, now, after)
  }

  lemma UpdatesLand(how: Writer, w: Workflow, us: seq<StageUpdate>, actor: Id, now: Time, after: Workflow)
    requires AllStages(w) && AllStages(after) && Written(how, w, us, actor, now, after) && HeaderMoved(w, us, now, after)
    ensures AllLanded(how, w, us, actor, now, after)
  {
    forall i | 0 <= i < |us| ensures Landed(how, w.stages[us[i].key], us[i], actor, now, after.stages[us[i].key]) {
      WrittenLands(how, w.stages[us[i].key], us[i], actor, now);
    }
    forall k: StageKey | forall i :: 0 <= i < |us| ==> us[i].key != k ensures after.stages[k] == w.stages[k] {
      assert k !in KeySet(us);
    }
  }

  /** However a transaction commits its stage updates, each lands on its own stage; the request's other
      stages, every other workflow and every other table stay as they were. */
  lemma StageUpdatesLand<T>(rows: Db, how: Writer, r: Id, us: seq<StageUpdate>, actor: Id, now: Time, value: T)
    requires r < |rows.workflows| && AllStages(rows.workflows[r]) && DistinctKeys(us)
    ensures var out := CommitStages(rows, how, r, us, actor, now, value);
            && out.Committed? && out.value == value
            && out.db == rows.(workflows := out.db.workflows, events := out.db.events)
            && |out.db.workflows| == |rows.workflows| && AllStages(out.db.workflows[r])
            && (forall q :: 0 <= q < |rows.workflows| && q != r ==> out.db.workflows[q] == rows.workflows[q])
            && AllLanded(how, rows.workflows[r], us, actor, now, out.db.workflows[r])
  {
    var w := rows.workflows[r];
    WriteStagesRows(how, r, w, us, actor, now);
    HeaderMoves(how, r, w, us, actor, now);
    CommitIs(rows, how, r, us, actor, now, value);
    UpdatesLand(how, w, us, actor, now, WriteStages(how, r, w, us, actor, now).value.workflow);
  }

  /** A committed status update leaves the request in its new status, reviewed by the actor, with notes
      and details replaced only where the plan gives them, and no other request changed. */
  lemma StatusUpdateAchieves(db: Db, r: Id, plan: StatusPlan, actor: Id, now: Time)
    requires UpdateWorkflow(db, r, plan, actor, now).Committed?
    ensures var after := UpdateWorkflow(db, r, plan, actor, now).db;
            && r < |db.requests| == |after.requests|
            && (forall q :: 0 <= q < |db.requests| && q != r ==> after.requests[q] == db.requests[q])
            && var row, was := after.requests[r], db.requests[r];
               && row.status == plan.patch.status
               && row.reviewedBy == Some(plan.patch.reviewedBy) && row.reviewedAt == Some(plan.patch.reviewedAt)
               && (row.adminNotes == was.adminNotes || row.adminNotes == plan.patch.adminNotes)
               && (plan.patch.adminNotes.Some? ==> row.adminNotes == plan.patch.adminNotes)
               && row.details == (if plan.patch.details.Some? then plan.patch.details.value else was.details)
               && row.owner == was.owner && row.property == was.property && row.site == was.site
  {
    UpdateIs(db, r, plan, actor, now);
  }

  // ---------- Scheduling ----------

  /** What is stored of the visit asked for. */
  function PlacedVisit(assignments: seq<Assignment>, p: Id, v: Visit): Visit {
    var open := LatestOpen(assignments, p);
    if open.Some? then SyncedVisit(assignments[open.value].visit, v) else v
  }

  lemma VisitFound(assignments: seq<Assignment>, p: Id, s: Schedule, now: Time)
    requires forall a, b :: 0 <= a < b < |assignments| && Open(assignments[a]) && Open(assignments[b]) ==>
                              assignments[a].garden != assignments[b].garden
    ensures var after, a := WithVisit(assignments, p, s, now), VisitAssignment(assignments, p);
            && a < |after| && after[a].garden == p && Open(after[a])
            && after[a].inspector == s.inspector && after[a].visit == PlacedVisit(assignments, p, s.visit)
            && (forall b :: 0 <= b < |after| && after[b].garden == p && Open(after[b]) ==> b == a)
            && (forall b :: 0 <= b < |assignments| && b != a ==> after[b] == assignments[b])
            && (forall b :: 0 <= b < |assignments| && !Open(assignments[b]) ==> after[b] == assignments[b])
  {
    LatestOpenIs(assignments, p);
  }

  lemma ScheduledVisit(db: Db, r: Id, s: Schedule, actor: Id, now: Time)
    requires ScheduleInspection(db, r, s, actor, now).Committed?
    ensures var out := ScheduleInspection(db, r, s, actor, now);
            && r < |db.requests| == |out.db.requests|
            && out.value.request == r && out.db.requests[r].status == InspectionScheduled
            && out.db.requests[r].property == Some(LinkedProperty(db, db.requests[r]))
            && LinkedProperty(db, db.requests[r]) < |out.db.properties|
            && out.db.properties[LinkedProperty(db, db.requests[r])].owner == db.requests[r].owner
            && out.db.assignments == WithVisit(db.assignments, LinkedProperty(db, db.requests[r]), s, now)
            && out.value.assignment == VisitAssignment(db.assignments, LinkedProperty(db, db.requests[r]))
  {
    SchedulingIs(db, r, s, actor, now);
  }

  /** A first visit takes both dates as they are; a rescheduled one takes a new time with its own day, or
      else a new due date with its midnight, or else keeps what it had. */
  predicate StoredDates(before: Option<Visit>, v: Visit, stored: Visit) {
    if before.None? then stored.dueDate == v.dueDate && stored.scheduledFor == v.scheduledFor
    else if v.scheduledFor != before.value.scheduledFor then
      stored.scheduledFor == v.scheduledFor && stored.dueDate == DayOf(v.scheduledFor)
    else if v.dueDate != before.value.dueDate then
      stored.dueDate == v.dueDate && stored.scheduledFor == Midnight(v.dueDate)
    else stored.dueDate == before.value.dueDate && stored.scheduledFor == before.value.scheduledFor
  }

  /** After scheduling, the property has one open visit: the one returned, for the chosen inspector, with the
      chosen priority and notes, and with the dates the trigger makes of the chosen ones. No finished visit and
      no visit of another property has changed. */
  lemma SchedulingAchieves(db: Db, r: Id, s: Schedule, actor: Id, now: Time)
    requires Inv(db) && ScheduleInspection(db, r, s, actor, now).Committed?
    ensures var out := ScheduleInspection(db, r, s, actor, now);
            && r < |out.db.requests| && out.db.requests[r].status == InspectionScheduled
            && out.db.requests[r].property.Some?
            && var p, a := out.db.requests[r].property.value, out.value.assignment;
               && a < |out.db.assignments|
               && out.db.assignments[a].inspector == s.inspector
               && out.db.assignments[a].visit.priority == s.visit.priority
               && out.db.assignments[a].visit.adminNotes == s.visit.adminNotes
               && StoredDates(if a < |db.assignments| then Some(db.assignments[a].visit) else None, s.visit,
                              out.db.assignments[a].visit)
               && (forall b :: 0 <= b < |out.db.assignments| && Open(out.db.assignments[b]) ==>
                     out.db.assignments[b].garden == p ==> b == a)
               && (forall b :: 0 <= b < |db.assignments| && (b != a || !Open(db.assignments[b])) ==>
                     b < |out.db.assignments| && out.db.assignments[b] == db.assignments[b])
  {
    ScheduledVisit(db, r, s, actor, now);
    VisitFound(db.assignments, LinkedProperty(db, db.requests[r]), s, now);
  }

  // ---------- Installation ----------

  lemma InstalledRow(db: Db, r: Id, p: Id, facts: InstallationFacts, at: Time, actor: Id, now: Time)
    requires RowsFit(db) && CompleteInstallation(db, r, p, facts, at, actor, now).Committed?
    ensures var out := CompleteInstallation(db, r, p, facts, at, actor, now);
            && r < |db.requests| == |out.db.requests| && out.db.requests[r].status == ImplementsInstalled
            && out.value < |out.db.installations|
            && out.db.installations[out.value] == Installation(p, db.requests[r].owner, facts, Active, Some(at))
            && GardensLinked(out.db.installations, out.db.batches, out.db.properties)
  {
    InstallationIs(db, r, p, facts, at, actor, now);
    InstallRowsFit(db, r, p, facts, at);
    assert InstallRows(db, r, p, facts, at).0.requests[r].status == ImplementsInstalled;
  }

  /** After a completed installation every query for the property finds that installation, as reported. */
  lemma InstallationAchieves(db: Db, r: Id, p: Id, facts: InstallationFacts, at: Time, actor: Id, now: Time)
    requires RowsFit(db) && CompleteInstallation(db, r, p, facts, at, actor, now).Committed?
    ensures var out := CompleteInstallation(db, r, p, facts, at, actor, now);
            && r < |db.requests| == |out.db.requests| && out.db.requests[r].status == ImplementsInstalled
            && TheInstallation(out.db.installations, p, out.value)
            && out.db.installations[out.value] == Installation(p, db.requests[r].owner, facts, Active, Some(at))
  {
    InstalledRow(db, r, p, facts, at, actor, now);
    var after := CompleteInstallation(db, r, p, facts, at, actor, now).db;
    OneInstallation(after.installations, after.batches, after.properties, p,
                    CompleteInstallation(db, r, p, facts, at, actor, now).value);
  }

  // ---------- Allocation ----------

  lemma AllocatedRows(db: Db, r: Id, v: Allocation, actor: Id, now: Time)
    requires CompleteAllocation(db, r, v, actor, now).Committed?
    ensures var out := CompleteAllocation(db, r, v, actor, now);
            && r < |db.requests| && out.value < |db.installations|
            && out.db.requests == AllocationRows(db, r, out.value, v, actor, now).requests
            && out.db.batches == AllocatedBatches(db.batches, out.value, db.requests[r].owner,
                                                  HeldCrops(db.batches, out.value), v.crops)
            && ApprovedHere(db, v.report, v.property)
            && forall c :: c in v.crops ==> c.name in Recommended(db.reports[v.report])
  {
    AllocationIs(db, r, v, actor, now);
  }

  /** A committed allocation leaves the installation with the union of the crops it held and the crops
      requested, one batch for each new one; earlier batches are untouched, and every new batch's crop
      is recommended by the approved report. */
  lemma AllocationAchieves(db: Db, r: Id, v: Allocation, actor: Id, now: Time)
    requires CompleteAllocation(db, r, v, actor, now).Committed?
    ensures var out := CompleteAllocation(db, r, v, actor, now);
            var i := out.value;
            && r < |db.requests| == |out.db.requests| && out.db.requests[r].status == Seeds
            && HeldCrops(out.db.batches, i) == HeldCrops(db.batches, i) + CropIds(v.crops)
            && (OnePerCrop(db.batches, i) ==> OnePerCrop(out.db.batches, i))
            && db.batches <= out.db.batches
            && (forall b :: |db.batches| <= b < |out.db.batches| ==>
                  && FreshBatch(out.db.batches[b], i, db.requests[r].owner, HeldCrops(db.batches, i), v.crops)
                  && CropRecommended(out.db.batches[b].crop, v.crops, db.reports, v.report))
  {
    AllocatedRows(db, r, v, actor, now);
    var out := CompleteAllocation(db, r, v, actor, now);
    AllocationIsUnion(db.batches, out.value, db.requests[r].owner, v.crops);
    forall b | |db.batches| <= b < |out.db.batches|
      ensures CropRecommended(out.db.batches[b].crop, v.crops, db.reports, v.report)
    {
      assert FreshBatch(out.db.batches[b], out.value, db.requests[r].owner, HeldCrops(db.batches, out.value), v.crops);
    }
  }

  /** The approved report names a requested crop of this id. */
  ghost predicate CropRecommended(crop: Id, crops: seq<Crop>, reports: seq<Report>, report: Id) {
    exists c :: c in crops && c.id == crop
                && report < |reports| && reports[report].status == Approved && c.name in Recommended(reports[report])
  }

  lemma AllocationEvidence(r: Id, w: Workflow, i: Id, ids: seq<Id>, crops: seq<string>, actor: Id, now: Time)
    requires AllStages(w)
    ensures WriteStages(Overwriting, r, w, AllocationStages(i, ids, crops), actor, now).Success?
    ensures var stages := WriteStages(Overwriting, r, w, AllocationStages(i, ids, crops), actor, now).value.workflow.stages;
            && CropAllocation in stages && CropBatchIds in stages[CropAllocation].evidence
            && stages[CropAllocation].evidence[CropBatchIds] == IdList(ids)
  {
    var us := AllocationStages(i, ids, crops);
    WriteStagesRows(Overwriting, r, w, us, actor, now);
    var after := WriteStages(Overwriting, r, w, us, actor, now).value.workflow;
    assert after.stages[us[0].key] == WrittenRow(Overwriting, w.stages[us[0].key], us[0], actor, now);
  }

  /** The batch ids recorded as evidence are those of the installation's batches, all and only. */
  lemma AllocationRecordsBatches(db: Db, r: Id, v: Allocation, actor: Id, now: Time) returns (ids: seq<Id>)
    requires Inv(db) && CompleteAllocation(db, r, v, actor, now).Committed?
    ensures var out := CompleteAllocation(db, r, v, actor, now);
            && r < |out.db.workflows| && CropAllocation in out.db.workflows[r].stages
            && CropBatchIds in out.db.workflows[r].stages[CropAllocation].evidence
            && out.db.workflows[r].stages[CropAllocation].evidence[CropBatchIds] == IdList(ids)
            && (forall b: nat :: b in ids <==> b < |out.db.batches| && out.db.batches[b].installation == out.value)
  {
    AllocationIs(db, r, v, actor, now);
    var i := CompleteAllocation(db, r, v, actor, now).value;
    var rows := AllocationRows(db, r, i, v, actor, now);
    ids := BatchIdsOf(rows.batches, i);
    RecordedIds(rows.batches, i);
    assert AllStages(db.workflows[r]);
    AllocationEvidence(r, db.workflows[r], i, ids, Recommended(db.reports[v.report]), actor, now);
  }

  // ---------- Planting ----------

  lemma PlantedGarden(db: Db, r: Id, at: Time, actor: Id, now: Time) returns (i: Id)
    requires RowsFit(db) && CompletePlanting(db, r, at, actor, now).Committed?
    ensures r < |db.requests| && db.requests[r].property.Some?
    ensures forall j :: 0 <= j < |db.installations| ==>
              (db.installations[j].property == db.requests[r].property.value <==> j == i)
    ensures CropsFit(Seeds, db.batches, i)
    ensures var after := CompletePlanting(db, r, at, actor, now).db;
            && after.batches == PlantedRows(db.batches, i, at)
            && r < |after.requests| && after.requests[r].status == FinalInstall
  {
    PlantingIs(db, r, at, actor, now);
    SetupOf(db, r);
    var j: nat :| TheInstallation(db.installations, db.requests[r].property.value, j) && CropsFit(Seeds, db.batches, j);
    i := j;
  }

  /** After planting every batch of the garden is growing since the given time; no other batch changes. */
  lemma PlantingAchieves(db: Db, r: Id, at: Time, actor: Id, now: Time)
    requires RowsFit(db) && CompletePlanting(db, r, at, actor, now).Committed?
    ensures var out := CompletePlanting(db, r, at, actor, now);
            && r < |db.requests| && db.requests[r].property.Some?
            && r < |out.db.requests| && out.db.requests[r].status == FinalInstall
            && |out.db.batches| == |db.batches|
            && forall b :: 0 <= b < |db.batches| ==>
                 && db.batches[b].installation < |db.installations|
                 && out.db.batches[b]
                    == (if db.installations[db.batches[b].installation].property == db.requests[r].property.value
                        then db.batches[b].(status := Growing, plantedAt := Some(at)) else db.batches[b])
  {
    var i := PlantedGarden(db, r, at, actor, now);
  }
}
