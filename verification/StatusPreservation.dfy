/** The transactions that move a request's status keep the invariant. */
module StatusPreservation {
  import opened Wrappers
  import opened Domain
  import opened StageBoard
  import opened Transactions
  import opened Requests
  import opened StageHistory
  import opened BoardTable
  import opened BoardMoves
  import opened Invariants
  import opened Preservation
  import opened AllocationLaws

  // ---------- Moving one request row ----------

  lemma RequestRowLinked(requests: seq<Request>, properties: seq<Property>, r: Id, row: Request)
    requires RequestsLinked(requests, properties) && r < |requests|
    requires RequestLinked(row, properties) && RequestEvolves(requests[r], row)
    requires row.property.Some? ==>
               forall q :: 0 <= q < |requests| && q != r ==> requests[q].property != row.property
    ensures RequestsLinked(requests[r := row], properties)
    ensures RequestsEvolve(requests, requests[r := row])
  {
  }

  lemma PropertyUnshared(requests: seq<Request>, properties: seq<Property>, r: Id)
    requires RequestsLinked(requests, properties) && r < |requests| && requests[r].property.Some?
    ensures forall q :: 0 <= q < |requests| && q != r ==> requests[q].property != requests[r].property
  {
  }

  lemma SetupRow(requests: seq<Request>, installations: seq<Installation>, batches: seq<Batch>, r: Id, row: Request)
    requires Setups(requests, installations, batches) && r < |requests| && SetupFits(row, installations, batches)
    ensures Setups(requests[r := row], installations, batches)
  {
  }

  lemma CommitIs<T>(rows: Db, how: Writer, r: Id, us: seq<StageUpdate>, actor: Id, now: Time, value: T)
    requires r < |rows.workflows| && WriteStages(how, r, rows.workflows[r], us, actor, now).Success?
    ensures CommitStages(rows, how, r, us, actor, now, value)
            == Committed(WithBoard(rows, r, WriteStages(how, r, rows.workflows[r], us, actor, now).value), value)
  {
    if us == [] {
      assert WithBoard(rows, r, Board(rows.workflows[r], [])) == rows;
    }
  }

  /** Rows moved as they should be, and stage updates that fit the new status: the commit keeps the invariant. */
  lemma StagesKeep<T>(db: Db, rows: Db, how: Writer, r: Id, us: seq<StageUpdate>, actor: Id, now: Time, value: T)
    requires Inv(db) && RowsFit(rows) && RowsEvolve(db, rows) && MovesRow(db, rows, r) && rows.reports == db.reports
    requires WriteStages(how, r, db.workflows[r], us, actor, now).Success?
    requires Lawful(r, db.workflows[r], WriteStages(how, r, db.workflows[r], us, actor, now).value)
    requires BoardFits(rows.requests[r].status, WriteStages(how, r, db.workflows[r], us, actor, now).value.workflow,
                       Surveyed(rows.reports, rows.requests[r].property))
    ensures CommitStages(rows, how, r, us, actor, now, value).Committed?
    ensures Inv(CommitStages(rows, how, r, us, actor, now, value).db)
    ensures Evolves(db, CommitStages(rows, how, r, us, actor, now, value).db)
  {
    WriteStagesOwner(how, r, db.workflows[r], us, actor, now);
    SurveyedUnchanged(db, rows, r);
    StoreBoard(db, rows, r, WriteStages(how, r, db.workflows[r], us, actor, now).value);
    CommitIs(rows, how, r, us, actor, now, value);
  }

  // ---------- Status updates ----------

  lemma PatchedSetup(row: Request, patch: RequestPatch, installations: seq<Installation>, batches: seq<Batch>)
    requires SetupFits(row, installations, batches) && PatchAllowed(row.status, patch.status)
    ensures SetupFits(PatchedRequest(row, patch), installations, batches)
  {
  }

  lemma PatchRows(db: Db, r: Id, patch: RequestPatch)
    requires RowsFit(db) && r < |db.requests| && PatchAllowed(db.requests[r].status, patch.status)
    requires patch.status != InspectionScheduled
    ensures var rows := db.(requests := db.requests[r := PatchedRequest(db.requests[r], patch)]);
            RowsFit(rows) && RowsEvolve(db, rows)
  {
    var row := db.requests[r];
    var next := PatchedRequest(row, patch);
    assert SetupFits(row, db.installations, db.batches) && RequestLinked(row, db.properties);
    PatchedSetup(row, patch, db.installations, db.batches);
    SetupRow(db.requests, db.installations, db.batches, r, next);
    if row.property.Some? {
      PropertyUnshared(db.requests, db.properties, r);
    }
    RequestRowLinked(db.requests, db.properties, r, next);
    SameRows(db);
  }

  /** The request UPDATE of a plan and its stage updates, committed to an invariant database. */
  lemma PatchKeeps(db: Db, r: Id, plan: StatusPlan, actor: Id, now: Time)
    requires Inv(db) && r < |db.requests| && FittingPlan(plan) && db.requests[r].status == plan.expected
    requires plan.patch.status != InspectionScheduled
    ensures var rows := db.(requests := db.requests[r := PatchedRequest(db.requests[r], plan.patch)]);
            var out := CommitStages(rows, Advancing, r, plan.stages, actor, now, r);
            out.Committed? && Inv(out.db) && Evolves(db, out.db)
  {
    var row := db.requests[r];
    var rows := db.(requests := db.requests[r := PatchedRequest(row, plan.patch)]);
    PatchRows(db, r, plan.patch);
    assert BoardAt(row, db.reports, db.workflows[r]);
    PatchFits(row.status, r, db.workflows[r], Surveyed(db.reports, row.property), plan.patch.status, plan.stages, actor, now);
    StagesKeep(db, rows, Advancing, r, plan.stages, actor, now, r);
  }

  lemma DecisionKeeps(db: Db, d: ReportDecision, actor: Id, now: Time)
    requires Inv(db) && d.report < |db.reports| && d.status != SubmittedForApproval
    ensures Inv(DecideReport(db, d, actor, now)) && Evolves(db, DecideReport(db, d, actor, now))
    ensures DecideReport(db, d, actor, now).requests == db.requests
  {
    var row := db.reports[d.report].(
      status := d.status, notes := if d.notes.Some? then d.notes.value else db.reports[d.report].notes);
    ReportKeeps(db, d.report, row, actor, now);
  }

  /** In guarded runs a submitted request has no property, so the patch endpoint never schedules it. */
  lemma NothingToSchedule(db: Db, r: Id, plan: StatusPlan, actor: Id, now: Time)
    requires RowsFit(db) && FittingPlan(plan) && plan.patch.status == InspectionScheduled
    ensures UpdateWorkflow(db, r, plan, actor, now).Aborted?
  {
    if r < |db.requests| {
      assert RequestLinked(db.requests[r], db.properties);
    }
  }

  lemma UpdateIs(db: Db, r: Id, plan: StatusPlan, actor: Id, now: Time)
    requires UpdateWorkflow(db, r, plan, actor, now).Committed?
    ensures r < |db.requests| && db.requests[r].status == plan.expected
    ensures plan.decision.Some? ==> DecisionStillPending(db, plan.decision.value)
    ensures var db1 := if plan.decision.Some? then DecideReport(db, plan.decision.value, actor, now) else db;
            UpdateWorkflow(db, r, plan, actor, now)
            == CommitStages(db1.(requests := db1.requests[r := PatchedRequest(db.requests[r], plan.patch)]),
                            Advancing, r, plan.stages, actor, now, r)
  {
  }

  lemma UpdateKeeps(db: Db, r: Id, plan: StatusPlan, actor: Id, now: Time)
    requires Inv(db) && FittingPlan(plan) && UpdateWorkflow(db, r, plan, actor, now).Committed?
    ensures Inv(UpdateWorkflow(db, r, plan, actor, now).db)
    ensures Evolves(db, UpdateWorkflow(db, r, plan, actor, now).db)
  {
    UpdateIs(db, r, plan, actor, now);
    if plan.patch.status == InspectionScheduled {
      NothingToSchedule(db, r, plan, actor, now);
    } else if plan.decision.Some? {
      var db1 := DecideReport(db, plan.decision.value, actor, now);
      DecisionKeeps(db, plan.decision.value, actor, now);
      PatchKeeps(db1, r, plan, actor, now);
      EvolvesTransitive(db, db1, UpdateWorkflow(db, r, plan, actor, now).db);
    } else {
      PatchKeeps(db, r, plan, actor, now);
    }
  }

  // ---------- Planting ----------

  lemma PlantedBatches(rows: seq<Batch>, i: Id, at: Time, j: Id, s: RequestStatus)
    requires CropsFit(s, rows, j)
    ensures j != i ==> CropsFit(s, PlantedRows(rows, i, at), j)
    ensures j == i && s == Seeds ==> CropsFit(FinalInstall, PlantedRows(rows, i, at), i)
  {
    var after := PlantedRows(rows, i, at);
    if s == Seeds || s == FinalInstall || s == Live {
      var b :| BatchOf(rows, b, j);
      assert BatchOf(after, b, j);
    }
  }

  lemma PlantedSetups(db: Db, r: Id, i: Id, at: Time)
    requires RowsFit(db) && r < |db.requests| && db.requests[r].status == Seeds
    requires db.requests[r].property.Some?
    requires i < |db.installations| && db.installations[i].property == db.requests[r].property.value
    ensures var row := db.requests[r].(status := FinalInstall);
            Setups(db.requests[r := row], db.installations, PlantedRows(db.batches, i, at))
  {
    var row := db.requests[r].(status := FinalInstall);
    var requests, after := db.requests[r := row], PlantedRows(db.batches, i, at);
    PropertyUnshared(db.requests, db.properties, r);
    forall q | 0 <= q < |requests| ensures SetupFits(requests[q], db.installations, after) {
      assert SetupFits(db.requests[q], db.installations, db.batches);
      forall j | 0 <= j < |db.installations| && Some(db.installations[j].property) == db.requests[q].property
                 && !Closed(db.requests[q].status)
        ensures CropsFit(requests[q].status, after, j)
      {
        PlantedBatches(db.batches, i, at, j, db.requests[q].status);
      }
    }
  }

  function PlantRows(db: Db, r: Id, i: Id, at: Time): Db
    requires r < |db.requests|
  {
    db.(batches := PlantedRows(db.batches, i, at),
        requests := db.requests[r := db.requests[r].(status := FinalInstall)])
  }

  lemma PlantingIs(db: Db, r: Id, at: Time, actor: Id, now: Time)
    requires CompletePlanting(db, r, at, actor, now).Committed?
    ensures r < |db.requests| && db.requests[r].status == Seeds && db.requests[r].property.Some?
    ensures var i := FirstActive(db.installations, db.requests[r].property.value);
            i.Some? && CompletePlanting(db, r, at, actor, now)
                       == CommitStages(PlantRows(db, r, i.value, at), Overwriting, r,
                                       PlantStages(BatchIdsOf(db.batches, i.value), at), actor, now, r)
  {
  }

  lemma PlantRowsFit(db: Db, r: Id, i: Id, at: Time)
    requires RowsFit(db) && r < |db.requests| && db.requests[r].status == Seeds && db.requests[r].property.Some?
    requires i < |db.installations| && db.installations[i].property == db.requests[r].property.value
    ensures RowsFit(PlantRows(db, r, i, at)) && RowsEvolve(db, PlantRows(db, r, i, at))
  {
    var row := db.requests[r].(status := FinalInstall);
    PlantedSetups(db, r, i, at);
    assert RequestLinked(db.requests[r], db.properties);
    PropertyUnshared(db.requests, db.properties, r);
    RequestRowLinked(db.requests, db.properties, r, row);
    SameRows(db);
  }

  lemma PlantKeeps(db: Db, r: Id, at: Time, actor: Id, now: Time)
    requires Inv(db) && CompletePlanting(db, r, at, actor, now).Committed?
    ensures Inv(CompletePlanting(db, r, at, actor, now).db)
    ensures Evolves(db, CompletePlanting(db, r, at, actor, now).db)
  {
    PlantingIs(db, r, at, actor, now);
    var row := db.requests[r];
    var i := FirstActive(db.installations, row.property.value).value;
    PlantRowsFit(db, r, i, at);
    assert BoardAt(row, db.reports, db.workflows[r]);
    PlantMove(r, db.workflows[r], Surveyed(db.reports, row.property), BatchIdsOf(db.batches, i), at, actor, now);
    StagesKeep(db, PlantRows(db, r, i, at), Overwriting, r, PlantStages(BatchIdsOf(db.batches, i), at), actor, now, r);
  }

  // ---------- Installation ----------

  lemma InstallationIs(db: Db, r: Id, p: Id, facts: InstallationFacts, at: Time, actor: Id, now: Time)
    requires CompleteInstallation(db, r, p, facts, at, actor, now).Committed?
    ensures r < |db.requests| && db.requests[r].status == NeedingImplements && db.requests[r].property == Some(p)
    ensures var (rows, id) := InstallRows(db, r, p, facts, at);
            CompleteInstallation(db, r, p, facts, at, actor, now)
            == CommitStages(rows, Overwriting, r, InstallStages(id, facts, at), actor, now, id)
  {
  }

  lemma InstalledSetups(db: Db, r: Id, row: Installation)
    requires RowsFit(db) && r < |db.requests| && db.requests[r].status == NeedingImplements
    requires db.requests[r].property == Some(row.property) && row.owner == db.requests[r].owner
    ensures var next := db.requests[r].(status := ImplementsInstalled);
            Setups(db.requests[r := next], db.installations + [row], db.batches)
  {
    var requests := db.requests[r := db.requests[r].(status := ImplementsInstalled)];
    var after := db.installations + [row];
    PropertyUnshared(db.requests, db.properties, r);
    assert SetupFits(db.requests[r], db.installations, db.batches);
    forall q | 0 <= q < |requests| ensures SetupFits(requests[q], after, db.batches) {
      assert SetupFits(db.requests[q], db.installations, db.batches);
      if q == r {
        assert InstallationAt(after, |db.installations|, row.property, row.owner);
      } else if requests[q].property.Some? && !Closed(requests[q].status) && Rank(requests[q].status) >= 4 {
        var i :| InstallationAt(db.installations, i, requests[q].property.value, requests[q].owner);
        assert InstallationAt(after, i, requests[q].property.value, requests[q].owner);
      }
    }
  }

  lemma InstallRowsFit(db: Db, r: Id, p: Id, facts: InstallationFacts, at: Time)
    requires RowsFit(db) && r < |db.requests| && db.requests[r].status == NeedingImplements
    requires db.requests[r].property == Some(p)
    ensures RowsFit(InstallRows(db, r, p, facts, at).0) && RowsEvolve(db, InstallRows(db, r, p, facts, at).0)
  {
    var next := db.requests[r].(status := ImplementsInstalled);
    var row := Installation(p, db.requests[r].owner, facts, Active, Some(at));
    assert SetupFits(db.requests[r], db.installations, db.batches) && RequestLinked(db.requests[r], db.properties);
    assert FirstInstallation(db.installations, p).None?;
    InstalledSetups(db, r, row);
    PropertyUnshared(db.requests, db.properties, r);
    RequestRowLinked(db.requests, db.properties, r, next);
    SameRows(db);
    assert GardensLinked(db.installations + [row], db.batches, db.properties);
  }

  lemma InstallCommits(db: Db, r: Id, p: Id, facts: InstallationFacts, at: Time, actor: Id, now: Time)
    returns (rows: Db, id: Id)
    requires RowsFit(db) && CompleteInstallation(db, r, p, facts, at, actor, now).Committed?
    ensures r < |db.requests| && db.requests[r].status == NeedingImplements
    ensures RowsFit(rows) && RowsEvolve(db, rows) && MovesRow(db, rows, r) && rows.reports == db.reports
    ensures rows.requests[r] == db.requests[r].(status := ImplementsInstalled)
    ensures CompleteInstallation(db, r, p, facts, at, actor, now)
            == CommitStages(rows, Overwriting, r, InstallStages(id, facts, at), actor, now, id)
  {
    InstallationIs(db, r, p, facts, at, actor, now);
    InstallRowsFit(db, r, p, facts, at);
    rows, id := InstallRows(db, r, p, facts, at).0, InstallRows(db, r, p, facts, at).1;
  }

  lemma InstallKeeps(db: Db, r: Id, p: Id, facts: InstallationFacts, at: Time, actor: Id, now: Time)
    requires Inv(db) && CompleteInstallation(db, r, p, facts, at, actor, now).Committed?
    ensures Inv(CompleteInstallation(db, r, p, facts, at, actor, now).db)
    ensures Evolves(db, CompleteInstallation(db, r, p, facts, at, actor, now).db)
  {
    var rows, id := InstallCommits(db, r, p, facts, at, actor, now);
    var row := db.requests[r];
    assert BoardAt(row, db.reports, db.workflows[r]);
    InstallMove(r, db.workflows[r], Surveyed(db.reports, row.property), id, facts, at, actor, now);
    StagesKeep(db, rows, Overwriting, r, InstallStages(id, facts, at), actor, now, id);
  }

  // ---------- Allocation ----------

  lemma AllocationIs(db: Db, r: Id, v: Allocation, actor: Id, now: Time)
    requires CompleteAllocation(db, r, v, actor, now).Committed?
    ensures r < |db.requests| && db.requests[r].status == ImplementsInstalled
    ensures db.requests[r].property == Some(v.property) && v.property < |db.properties| && v.report < |db.reports|
    ensures var i := FirstCompleted(db.installations, v.property);
            i.Some? &&
            var rows := AllocationRows(db, r, i.value, v, actor, now);
            CompleteAllocation(db, r, v, actor, now)
            == CommitStages(rows, Overwriting, r,
                            AllocationStages(i.value, BatchIdsOf(rows.batches, i.value), Recommended(db.reports[v.report])),
                            actor, now, i.value)
  {
  }

  /** Appending batches of one installation leaves the crops of every other installation as they were. */
  lemma OtherCropsFit(s: RequestStatus, rows: seq<Batch>, after: seq<Batch>, j: Id)
    requires CropsFit(s, rows, j) && rows <= after
    requires forall b :: |rows| <= b < |after| ==> after[b].installation != j
    ensures CropsFit(s, after, j)
  {
    if s == Seeds || s == FinalInstall || s == Live {
      var b :| BatchOf(rows, b, j);
      assert BatchOf(after, b, j);
    }
  }

  lemma FirstCropsFit(rows: seq<Batch>, i: Id, owner: Id, crops: seq<Crop>)
    requires CropsFit(ImplementsInstalled, rows, i) && crops != []
    ensures CropsFit(Seeds, AllocatedBatches(rows, i, owner, HeldCrops(rows, i), crops), i)
  {
    AllocationIsUnion(rows, i, owner, crops);
    var after := AllocatedBatches(rows, i, owner, HeldCrops(rows, i), crops);
    assert crops[0] in crops && crops[0].id in HeldCrops(after, i);
    var b :| b in after && b.installation == i && b.crop == crops[0].id;
    var n :| 0 <= n < |after| && after[n] == b;
    assert BatchOf(after, n, i);
  }

  lemma AllocatedSetups(db: Db, r: Id, i: Id, crops: seq<Crop>, next: Request)
    requires RowsFit(db) && r < |db.requests| && db.requests[r].status == ImplementsInstalled && crops != []
    requires db.requests[r].property.Some? && i < |db.installations|
    requires db.installations[i].property == db.requests[r].property.value
    requires next.status == Seeds && next.property == db.requests[r].property && next.owner == db.requests[r].owner
    ensures Setups(db.requests[r := next], db.installations,
                   AllocatedBatches(db.batches, i, next.owner, HeldCrops(db.batches, i), crops))
  {
    var requests := db.requests[r := next];
    var after := AllocatedBatches(db.batches, i, next.owner, HeldCrops(db.batches, i), crops);
    AllocationIsUnion(db.batches, i, next.owner, crops);
    PropertyUnshared(db.requests, db.properties, r);
    forall q | 0 <= q < |requests| ensures SetupFits(requests[q], db.installations, after) {
      assert SetupFits(db.requests[q], db.installations, db.batches);
      if q == r {
        FirstCropsFit(db.batches, i, next.owner, crops);
      } else {
        forall j | 0 <= j < |db.installations| && Some(db.installations[j].property) == requests[q].property
                   && !Closed(requests[q].status)
          ensures CropsFit(requests[q].status, after, j)
        {
          OtherCropsFit(requests[q].status, db.batches, after, j);
        }
      }
    }
  }

  lemma AllocationRowsFit(db: Db, r: Id, i: Id, v: Allocation, actor: Id, now: Time)
    requires RowsFit(db) && r < |db.requests| && db.requests[r].status == ImplementsInstalled && v.crops != []
    requires db.requests[r].property == Some(v.property) && v.property < |db.properties|
    requires i < |db.installations| && db.installations[i].property == v.property
    ensures RowsFit(AllocationRows(db, r, i, v, actor, now))
    ensures RowsEvolve(db, AllocationRows(db, r, i, v, actor, now))
  {
    var rows := AllocationRows(db, r, i, v, actor, now);
    AllocatedSetups(db, r, i, v.crops, rows.requests[r]);
    AllocationIsUnion(db.batches, i, db.requests[r].owner, v.crops);
    assert RequestLinked(db.requests[r], db.properties);
    PropertyUnshared(db.requests, db.properties, r);
    RequestRowLinked(db.requests, db.properties, r, rows.requests[r]);
    SameRows(db);
    OwnersKept(rows.requests, db.assignments, db.reports, db.installations, rows.batches, db.properties, rows.properties);
  }

  /** Links do not depend on anything of a property but its owner. */
  lemma OwnersKept(requests: seq<Request>, assignments: seq<Assignment>, reports: seq<Report>,
                   installations: seq<Installation>, batches: seq<Batch>, before: seq<Property>, after: seq<Property>)
    requires RequestsLinked(requests, before) && InspectionsLinked(assignments, reports, before)
    requires |after| == |before| && PropertiesEvolve(before, after)
    ensures RequestsLinked(requests, after) && InspectionsLinked(assignments, reports, after)
    ensures GardensLinked(installations, batches, before) ==> GardensLinked(installations, batches, after)
  {
    forall r | 0 <= r < |requests| ensures RequestLinked(requests[r], after) {
      assert RequestLinked(requests[r], before);
    }
  }

  lemma AllocateKeeps(db: Db, r: Id, v: Allocation, actor: Id, now: Time)
    requires Inv(db) && v.crops != [] && CompleteAllocation(db, r, v, actor, now).Committed?
    ensures Inv(CompleteAllocation(db, r, v, actor, now).db)
    ensures Evolves(db, CompleteAllocation(db, r, v, actor, now).db)
  {
    AllocationIs(db, r, v, actor, now);
    var row := db.requests[r];
    var i := FirstCompleted(db.installations, v.property).value;
    var rows := AllocationRows(db, r, i, v, actor, now);
    AllocationRowsFit(db, r, i, v, actor, now);
    assert BoardAt(row, db.reports, db.workflows[r]);
    var ids, crops := BatchIdsOf(rows.batches, i), Recommended(db.reports[v.report]);
    AllocateMove(r, db.workflows[r], Surveyed(db.reports, row.property), i, ids, crops, actor, now);
    StagesKeep(db, rows, Overwriting, r, AllocationStages(i, ids, crops), actor, now, i);
  }

  // ---------- Scheduling ----------

  function ScheduleUpdates(db: Db, r: Id, actor: Id): seq<StageUpdate>
    requires r < |db.requests|
  {
    var p := LinkedProperty(db, db.requests[r]);
    ScheduleStages(db.requests[r].site.address, JId(p), JId(VisitAssignment(db.assignments, p)), actor)
  }

  lemma SchedulingIs(db: Db, r: Id, s: Schedule, actor: Id, now: Time)
    requires ScheduleInspection(db, r, s, actor, now).Committed?
    ensures r < |db.requests|
    ensures db.requests[r].status == Submitted || db.requests[r].status == InspectionScheduled
    ensures ScheduleInspection(db, r, s, actor, now)
            == CommitStages(ScheduleRows(db, r, s, actor, now), Advancing, r, ScheduleUpdates(db, r, actor), actor, now,
                            Scheduled(r, VisitAssignment(db.assignments, LinkedProperty(db, db.requests[r]))))
  {
  }

  lemma MorePropertiesLinked(db: Db, row: Property)
    requires RowsFit(db)
    ensures var more := db.properties + [row];
            && RequestsLinked(db.requests, more) && InspectionsLinked(db.assignments, db.reports, more)
            && GardensLinked(db.installations, db.batches, more) && PropertiesEvolve(db.properties, more)
  {
    forall r | 0 <= r < |db.requests| ensures RequestLinked(db.requests[r], db.properties + [row]) {
      assert RequestLinked(db.requests[r], db.properties);
    }
  }

  /** Reusing the open assignment, or inserting one where none is open, keeps at most one open. */
  lemma VisitLinked(assignments: seq<Assignment>, reports: seq<Report>, properties: seq<Property>, p: Id,
                    s: Schedule, now: Time)
    requires InspectionsLinked(assignments, reports, properties) && p < |properties|
    ensures InspectionsLinked(WithVisit(assignments, p, s, now), reports, properties)
    ensures AssignmentsEvolve(assignments, WithVisit(assignments, p, s, now))
  {
    LatestOpenIs(assignments, p);
  }

  lemma ScheduledSetup(row: Request, p: Id, a: Id, s: Schedule, actor: Id, now: Time, installations: seq<Installation>,
                       batches: seq<Batch>, properties: seq<Property>)
    requires SetupFits(row, installations, batches) && RequestLinked(row, properties)
    requires row.status == Submitted || row.status == InspectionScheduled
    requires GardensLinked(installations, batches, properties)
    requires if row.property.Some? then p == row.property.value else p == |properties|
    ensures SetupFits(ScheduledRequest(row, p, a, s, actor, now), installations, batches)
  {
  }

  lemma ScheduleRowsFit(db: Db, r: Id, s: Schedule, actor: Id, now: Time)
    requires RowsFit(db) && r < |db.requests|
    requires db.requests[r].status == Submitted || db.requests[r].status == InspectionScheduled
    ensures RowsFit(ScheduleRows(db, r, s, actor, now))
    ensures RowsEvolve(db, ScheduleRows(db, r, s, actor, now))
  {
    var row := db.requests[r];
    var p := LinkedProperty(db, row);
    var properties := WithProperty(db.properties, row);
    var next := ScheduledRequest(row, p, VisitAssignment(db.assignments, p), s, actor, now);
    assert forall q :: 0 <= q < |db.requests| ==> RequestLinked(db.requests[q], db.properties);
    assert SetupFits(row, db.installations, db.batches);
    ScheduledSetup(row, p, VisitAssignment(db.assignments, p), s, actor, now, db.installations, db.batches, db.properties);
    SetupRow(db.requests, db.installations, db.batches, r, next);
    MorePropertiesLinked(db, Property(row.owner, row.site, PropertyNotes(row)));
    if row.property.Some? {
      PropertyUnshared(db.requests, db.properties, r);
    }
    RequestRowLinked(db.requests, properties, r, next);
    VisitLinked(db.assignments, db.reports, properties, p, s, now);
    SameRows(db);
  }

  /** A property created by scheduling has no reports yet. */
  lemma NewPropertyUnsurveyed(db: Db)
    requires RowsFit(db)
    ensures !Surveyed(db.reports, Some(|db.properties|)) && !Surveyed(db.reports, None)
  {
  }

  lemma ScheduleBoard(db: Db, r: Id, next: Request, us: seq<StageUpdate>, actor: Id, now: Time)
    requires Inv(db) && r < |db.requests| && FittingStages(InspectionScheduled, us)
    requires db.requests[r].status == Submitted || db.requests[r].status == InspectionScheduled
    requires next.status == InspectionScheduled
    requires next.property == Some(OrElse(db.requests[r].property, |db.properties|))
    ensures WriteStages(Advancing, r, db.workflows[r], us, actor, now).Success?
    ensures var b := WriteStages(Advancing, r, db.workflows[r], us, actor, now).value;
            Lawful(r, db.workflows[r], b) && BoardAt(next, db.reports, b.workflow)
  {
    var row := db.requests[r];
    assert BoardAt(row, db.reports, db.workflows[r]) && RequestLinked(row, db.properties);
    if row.status == Submitted {
      NewPropertyUnsurveyed(db);
      PatchFits(Submitted, r, db.workflows[r], false, InspectionScheduled, us, actor, now);
    } else {
      RescheduleMove(r, db.workflows[r], Surveyed(db.reports, row.property), us, actor, now);
    }
  }

  lemma ScheduleMoves(db: Db, r: Id, s: Schedule, actor: Id, now: Time)
    requires r < |db.requests|
    requires db.requests[r].status == Submitted || db.requests[r].status == InspectionScheduled
    ensures var rows := ScheduleRows(db, r, s, actor, now);
            && MovesRow(db, rows, r) && rows.reports == db.reports
            && rows.requests[r].status == InspectionScheduled
            && rows.requests[r].property == Some(OrElse(db.requests[r].property, |db.properties|))
  {
  }

  lemma CommitSchedule(db: Db, rows: Db, r: Id, us: seq<StageUpdate>, actor: Id, now: Time, value: Scheduled)
    requires Inv(db) && RowsFit(rows) && RowsEvolve(db, rows) && MovesRow(db, rows, r) && rows.reports == db.reports
    requires db.requests[r].status == Submitted || db.requests[r].status == InspectionScheduled
    requires rows.requests[r].status == InspectionScheduled
    requires rows.requests[r].property == Some(OrElse(db.requests[r].property, |db.properties|))
    requires FittingStages(InspectionScheduled, us)
    ensures CommitStages(rows, Advancing, r, us, actor, now, value).Committed?
    ensures Inv(CommitStages(rows, Advancing, r, us, actor, now, value).db)
    ensures Evolves(db, CommitStages(rows, Advancing, r, us, actor, now, value).db)
  {
    ScheduleBoard(db, r, rows.requests[r], us, actor, now);
    StagesKeep(db, rows, Advancing, r, us, actor, now, value);
  }

  lemma ScheduleCommits(db: Db, r: Id, s: Schedule, actor: Id, now: Time)
    returns (rows: Db, us: seq<StageUpdate>, value: Scheduled)
    requires RowsFit(db) && ScheduleInspection(db, r, s, actor, now).Committed?
    ensures r < |db.requests|
    ensures db.requests[r].status == Submitted || db.requests[r].status == InspectionScheduled
    ensures RowsFit(rows) && RowsEvolve(db, rows) && MovesRow(db, rows, r) && rows.reports == db.reports
    ensures rows.requests[r].status == InspectionScheduled
    ensures rows.requests[r].property == Some(OrElse(db.requests[r].property, |db.properties|))
    ensures FittingStages(InspectionScheduled, us)
    ensures ScheduleInspection(db, r, s, actor, now) == CommitStages(rows, Advancing, r, us, actor, now, value)
  {
    SchedulingIs(db, r, s, actor, now);
    ScheduleMoves(db, r, s, actor, now);
    ScheduleRowsFit(db, r, s, actor, now);
    rows, us := ScheduleRows(db, r, s, actor, now), ScheduleUpdates(db, r, actor);
    value := Scheduled(r, VisitAssignment(db.assignments, LinkedProperty(db, db.requests[r])));
  }

  lemma ScheduleKeeps(db: Db, r: Id, s: Schedule, actor: Id, now: Time)
    requires Inv(db) && ScheduleInspection(db, r, s, actor, now).Committed?
    ensures Inv(ScheduleInspection(db, r, s, actor, now).db)
    ensures Evolves(db, ScheduleInspection(db, r, s, actor, now).db)
  {
    var rows, us, value := ScheduleCommits(db, r, s, actor, now);
    CommitSchedule(db, rows, r, us, actor, now, value);
  }
}
