/** What a committed installation, allocation or planting leaves behind, value by value. */
module SetupOutcome {
  import opened Wrappers
  import opened Domain
  import opened StageBoard
  import opened Transactions
  import opened StatusPreservation
  import opened AllocationLaws
  import opened Achievements
  import Texts

  /** One request's row has changed. */
  predicate RowReplaced(db: Db, after: Db, r: Id, row: Request) {
    r < |db.requests| && after.requests == db.requests[r := row]
  }

  /** Of the workflows, that of request `r` has had the updates, and no other has changed. */
  ghost predicate StagesOnly(db: Db, after: Db, r: Id, us: seq<StageUpdate>, actor: Id, now: Time) {
    && r < |db.workflows| == |after.workflows| && AllStages(db.workflows[r]) && AllStages(after.workflows[r])
    && AllLanded(Overwriting, db.workflows[r], us, actor, now, after.workflows[r])
    && forall q :: 0 <= q < |db.workflows| && q != r ==> after.workflows[q] == db.workflows[q]
  }

  // ---------- Installation ----------

  function StagesInstalled(id: Id, facts: InstallationFacts, at: Time): seq<StageUpdate> {
    [StageUpdate(InstallationStage, StageCompleted,
                 map[InstallationEvidence := JId(id), InstalledAtEvidence := JTime(at), PhotosEvidence := TextList(facts.photos)],
                 None),
     StageUpdate(CropAllocation, Ready, map[], Some(AllocateApprovedCrops))]
  }

  /** The installation row is the reported one, the request's status advances, and the two stages record it. */
  lemma InstallationLeaves(db: Db, r: Id, p: Id, facts: InstallationFacts, at: Time, actor: Id, now: Time)
    requires CompleteInstallation(db, r, p, facts, at, actor, now).Committed?
    requires r < |db.workflows| && AllStages(db.workflows[r])
    ensures var out := CompleteInstallation(db, r, p, facts, at, actor, now);
            && r < |db.requests| && out.value <= |db.installations|
            && out.db == db.(installations := out.db.installations, requests := out.db.requests,
                             workflows := out.db.workflows, events := out.db.events)
            && RowReplaced(db, out.db, r, db.requests[r].(status := ImplementsInstalled))
            && var row := Installation(p, db.requests[r].owner, facts, Active, Some(at));
               && out.db.installations
                  == (if out.value < |db.installations| then db.installations[out.value := row] else db.installations + [row])
               && StagesOnly(db, out.db, r, StagesInstalled(out.value, facts, at), actor, now)
  {
    InstallationIs(db, r, p, facts, at, actor, now);
    var (rows, id) := InstallRows(db, r, p, facts, at);
    assert InstallStages(id, facts, at) == StagesInstalled(id, facts, at);
    StageUpdatesLand(rows, Overwriting, r, StagesInstalled(id, facts, at), actor, now, id);
  }

  // ---------- Allocation ----------

  /** The value of a detail after the updates were merged in. */
  function Merged(was: Details, updates: Details, k: DetailKey): Option<Json> {
    if k in updates then Some(updates[k]) else if k in was then Some(was[k]) else None
  }

  function TrueOr(j: Option<Json>, otherwise: Json): Json {
    if j.Some? && Truthy(j.value) then j.value else otherwise
  }

  /** Every update is there, the plants requested are those named there, or the planned ones, or none, and every
      other detail is as it was. */
  predicate DetailsMerged(was: Details, updates: Details, details: Details) {
    && details.Keys == was.Keys + updates.Keys + {RequestedPlants}
    && (forall k :: k in updates && k != RequestedPlants ==> details[k] == updates[k])
    && (forall k :: k in was && k !in updates && k != RequestedPlants ==> details[k] == was[k])
    && details[RequestedPlants]
       == TrueOr(Merged(was, updates, RequestedPlants), TrueOr(Merged(was, updates, Plants), JList([])))
  }

  lemma AllocationDetailsAre(was: Details, updates: Details)
    ensures DetailsMerged(was, updates, AllocationDetails(was, updates))
  {
  }

  function ActivitiesAllocated(owner: Id, i: Id, v: Allocation): seq<Activity> {
    var notes := if InspectionNotes in v.updates then v.updates[InspectionNotes] else JNull;
    var plants := if AllocatedPlants in v.updates then v.updates[AllocatedPlants] else JList([]);
    [Activity(owner, v.property, Some(i), InspectionActivity, map["meta" := notes, "approvedReportId" := JId(v.report)]),
     Activity(owner, v.property, Some(i), PlantingActivity, map["allocated_plants" := plants])]
  }

  function StagesAllocated(i: Id, ids: seq<Id>, report: Report): seq<StageUpdate> {
    var crops := if report.findings.Some? then report.findings.value.crops else [];
    [StageUpdate(CropAllocation, StageCompleted,
                 map[InstallationEvidence := JId(i), CropBatchIds := IdList(ids),
                     RecommendedCrops := TextList(Texts.SortedSet(crops))], None),
     StageUpdate(MaintenanceTasks, Ready, map[], Some(PlantAllocatedCrops))]
  }

  /** The request is in `seeds` and reviewed, its details have the updates, the property the site and notes
      given, two activities are logged, and the two stages record batches and recommendations. The batches
      are as `Achievements.AllocationAchieves` says. */
  lemma AllocationLeaves(db: Db, r: Id, v: Allocation, actor: Id, now: Time)
    requires CompleteAllocation(db, r, v, actor, now).Committed?
    requires r < |db.workflows| && AllStages(db.workflows[r])
    ensures var out := CompleteAllocation(db, r, v, actor, now);
            && r < |db.requests| && v.property < |db.properties| && v.report < |db.reports|
            && out.db == db.(properties := out.db.properties, batches := out.db.batches, requests := out.db.requests,
                             activities := out.db.activities, workflows := out.db.workflows, events := out.db.events)
            && r < |out.db.requests|
            && RowReplaced(db, out.db, r, db.requests[r].(
                 status := Seeds, reviewedBy := Some(actor), reviewedAt := Some(now), adminNotes := v.adminNotes,
                 details := out.db.requests[r].details))
            && DetailsMerged(db.requests[r].details, v.updates, out.db.requests[r].details)
            && out.db.properties
               == db.properties[v.property := Property(db.properties[v.property].owner, v.site, v.notes)]
            && out.db.activities == db.activities + ActivitiesAllocated(db.requests[r].owner, out.value, v)
    ensures var out := CompleteAllocation(db, r, v, actor, now);
            StagesOnly(db, out.db, r, StagesAllocated(out.value, BatchIdsOf(out.db.batches, out.value), db.reports[v.report]),
                       actor, now)
  {
    AllocationIs(db, r, v, actor, now);
    var i := CompleteAllocation(db, r, v, actor, now).value;
    var rows := AllocationRows(db, r, i, v, actor, now);
    AllocationDetailsAre(db.requests[r].details, v.updates);
    var us := StagesAllocated(i, BatchIdsOf(rows.batches, i), db.reports[v.report]);
    assert AllocationStages(i, BatchIdsOf(rows.batches, i), Recommended(db.reports[v.report])) == us;
    StageUpdatesLand(rows, Overwriting, r, us, actor, now, i);
  }

  // ---------- Planting ----------

  /** The request is in `final_install`, and the maintenance stage records the date and the garden's batches.
      The batches are as `Achievements.PlantingAchieves` says. */
  lemma PlantingLeaves(db: Db, r: Id, at: Time, actor: Id, now: Time) returns (ids: seq<Id>, i: Id)
    requires CompletePlanting(db, r, at, actor, now).Committed?
    requires r < |db.workflows| && AllStages(db.workflows[r])
    ensures var out := CompletePlanting(db, r, at, actor, now);
            && r < |db.requests| && db.requests[r].property.Some?
            && out.db == db.(batches := out.db.batches, requests := out.db.requests,
                             workflows := out.db.workflows, events := out.db.events)
            && RowReplaced(db, out.db, r, db.requests[r].(status := FinalInstall))
            && i < |db.installations| && db.installations[i].property == db.requests[r].property.value
            && (forall b: nat :: b in ids <==> b < |db.batches| && db.batches[b].installation == i)
            && StagesOnly(db, out.db, r,
                          [StageUpdate(MaintenanceTasks, InProgress,
                                       map[PlantedAtEvidence := JTime(at), CropBatchIds := IdList(ids)], None)],
                          actor, now)
  {
    PlantingIs(db, r, at, actor, now);
    i := FirstActive(db.installations, db.requests[r].property.value).value;
    ids := BatchIdsOf(db.batches, i);
    RecordedIds(db.batches, i);
    var us := [StageUpdate(MaintenanceTasks, InProgress,
                           map[PlantedAtEvidence := JTime(at), CropBatchIds := IdList(ids)], None)];
    assert PlantStages(ids, at) == us;
    StageUpdatesLand(PlantRows(db, r, i, at), Overwriting, r, us, actor, now, r);
  }
}
