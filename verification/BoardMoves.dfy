/** The board under rescheduling, installation, allocation and planting. */
module BoardMoves {
  import opened Domain
  import opened StageBoard
  import opened Transactions
  import opened Requests
  import opened StageHistory
  import opened BoardTable

  /** Updates of stages other than approval, none of them a rejection. */
  predicate Quiet(us: seq<StageUpdate>) {
    && DistinctKeys(us)
    && forall i :: 0 <= i < |us| ==> UpdateShaped(us[i]) && us[i].key != Approval && us[i].status != StageRejected
  }

  lemma QuietHeader(how: Writer, s: RequestStatus, r: Id, w: Workflow, us: seq<StageUpdate>, target: RequestStatus,
                    actor: Id, now: Time)
    requires AllStages(w) && Shaped(w) && HeaderFits(s, w) && !Closed(s) && !Closed(target) && Quiet(us)
    requires WriteStages(how, r, w, us, actor, now).Success?
    ensures HeaderFits(target, WriteStages(how, r, w, us, actor, now).value.workflow)
  {
    WriteStagesHeader(how, r, w, us, actor, now);
    forall i | 0 <= i < |us| ensures !Cancels(WrittenRow(how, w.stages[us[i].key], us[i], actor, now)) {
      assert RowShaped(us[i].key, w.stages[us[i].key]);
    }
  }

  /** How a quiet list of updates moves a board, once the table is known to fit afterwards. */
  lemma QuietMove(how: Writer, s: RequestStatus, r: Id, w: Workflow, surveyed: bool, us: seq<StageUpdate>,
                  target: RequestStatus, actor: Id, now: Time)
    requires BoardFits(s, w, surveyed) && !Closed(s) && !Closed(target) && Quiet(us)
    requires forall i :: 0 <= i < |us| ==> Fillable(how, w, us[i])
    ensures WriteStages(how, r, w, us, actor, now).Success?
    ensures var b := WriteStages(how, r, w, us, actor, now).value;
            && Lawful(r, w, b) && HeaderFits(target, b.workflow) && Written(how, w, us, actor, now, b.workflow)
            && (TableFits(target, b.workflow, surveyed) ==> BoardFits(target, b.workflow, surveyed))
  {
    WriteStagesLawful(how, r, w, us, actor, now);
    WriteStagesRows(how, r, w, us, actor, now);
    QuietHeader(how, s, r, w, us, target, actor, now);
  }

  lemma OverwrittenAt(w: Workflow, us: seq<StageUpdate>, actor: Id, now: Time, after: Workflow, i: nat)
    requires AllStages(w) && AllStages(after) && i < |us| && Written(Overwriting, w, us, actor, now, after)
    ensures after.stages[us[i].key].status == us[i].status
    ensures us[i].status != StageCompleted ==>
              after.stages[us[i].key].completedAt == w.stages[us[i].key].completedAt
  {
  }

  lemma KeysOfTwo(a: StageUpdate, b: StageUpdate)
    ensures KeySet([a, b]) == {a.key, b.key}
  {
  }

  lemma RescheduleFits(w: Workflow, surveyed: bool, after: Workflow)
    requires AllStages(w) && TableFits(InspectionScheduled, w, surveyed)
    requires AllStages(after) && forall k: StageKey :: k !in KeysFor(InspectionScheduled) ==> after.stages[k] == w.stages[k]
    ensures TableFits(InspectionScheduled, after, surveyed)
  {
  }

  lemma RescheduleMove(r: Id, w: Workflow, surveyed: bool, us: seq<StageUpdate>, actor: Id, now: Time)
    requires BoardFits(InspectionScheduled, w, surveyed) && FittingStages(InspectionScheduled, us)
    ensures WriteStages(Advancing, r, w, us, actor, now).Success?
    ensures Lawful(r, w, WriteStages(Advancing, r, w, us, actor, now).value)
    ensures BoardFits(InspectionScheduled, WriteStages(Advancing, r, w, us, actor, now).value.workflow, surveyed)
  {
    DistinctWhenFitting(InspectionScheduled, us);
    QuietMove(Advancing, InspectionScheduled, r, w, surveyed, us, InspectionScheduled, actor, now);
    KeysFit(InspectionScheduled, us);
    RescheduleFits(w, surveyed, WriteStages(Advancing, r, w, us, actor, now).value.workflow);
  }

  // ---------- The table after installation, allocation and planting ----------

  lemma InstallTable(w: Workflow, surveyed: bool, us: seq<StageUpdate>, actor: Id, now: Time, after: Workflow)
    requires AllStages(w) && AllStages(after) && TableFits(NeedingImplements, w, surveyed)
    requires |us| == 2 && Written(Overwriting, w, us, actor, now, after)
    requires us[0].key == InstallationStage && us[0].status == StageCompleted
    requires us[1].key == CropAllocation && us[1].status == Ready
    ensures TableFits(ImplementsInstalled, after, surveyed)
  {
    KeysOfTwo(us[0], us[1]);
    assert us == [us[0], us[1]];
    OverwrittenAt(w, us, actor, now, after, 0);
    OverwrittenAt(w, us, actor, now, after, 1);
  }

  lemma AllocateTable(w: Workflow, surveyed: bool, us: seq<StageUpdate>, actor: Id, now: Time, after: Workflow)
    requires AllStages(w) && AllStages(after) && TableFits(ImplementsInstalled, w, surveyed)
    requires |us| == 2 && Written(Overwriting, w, us, actor, now, after)
    requires us[0].key == CropAllocation && us[0].status == StageCompleted
    requires us[1].key == MaintenanceTasks && us[1].status == Ready
    ensures TableFits(Seeds, after, surveyed)
  {
    KeysOfTwo(us[0], us[1]);
    assert us == [us[0], us[1]];
    OverwrittenAt(w, us, actor, now, after, 0);
    OverwrittenAt(w, us, actor, now, after, 1);
  }

  lemma PlantTable(w: Workflow, surveyed: bool, us: seq<StageUpdate>, actor: Id, now: Time, after: Workflow)
    requires AllStages(w) && AllStages(after) && TableFits(Seeds, w, surveyed)
    requires |us| == 1 && Written(Overwriting, w, us, actor, now, after)
    requires us[0].key == MaintenanceTasks && us[0].status == InProgress
    ensures TableFits(FinalInstall, after, surveyed)
  {
    assert us == [us[0]];
    assert KeySet(us) == {MaintenanceTasks};
    OverwrittenAt(w, us, actor, now, after, 0);
  }

  lemma InstallMove(r: Id, w: Workflow, surveyed: bool, id: Id, facts: InstallationFacts, at: Time, actor: Id, now: Time)
    requires BoardFits(NeedingImplements, w, surveyed)
    ensures WriteStages(Overwriting, r, w, InstallStages(id, facts, at), actor, now).Success?
    ensures Lawful(r, w, WriteStages(Overwriting, r, w, InstallStages(id, facts, at), actor, now).value)
    ensures BoardFits(ImplementsInstalled,
                      WriteStages(Overwriting, r, w, InstallStages(id, facts, at), actor, now).value.workflow, surveyed)
  {
    var us := InstallStages(id, facts, at);
    QuietMove(Overwriting, NeedingImplements, r, w, surveyed, us, ImplementsInstalled, actor, now);
    InstallTable(w, surveyed, us, actor, now, WriteStages(Overwriting, r, w, us, actor, now).value.workflow);
  }

  lemma AllocateMove(r: Id, w: Workflow, surveyed: bool, i: Id, ids: seq<Id>, crops: seq<string>, actor: Id, now: Time)
    requires BoardFits(ImplementsInstalled, w, surveyed)
    ensures WriteStages(Overwriting, r, w, AllocationStages(i, ids, crops), actor, now).Success?
    ensures Lawful(r, w, WriteStages(Overwriting, r, w, AllocationStages(i, ids, crops), actor, now).value)
    ensures BoardFits(Seeds, WriteStages(Overwriting, r, w, AllocationStages(i, ids, crops), actor, now).value.workflow,
                      surveyed)
  {
    var us := AllocationStages(i, ids, crops);
    QuietMove(Overwriting, ImplementsInstalled, r, w, surveyed, us, Seeds, actor, now);
    AllocateTable(w, surveyed, us, actor, now, WriteStages(Overwriting, r, w, us, actor, now).value.workflow);
  }

  lemma PlantMove(r: Id, w: Workflow, surveyed: bool, ids: seq<Id>, at: Time, actor: Id, now: Time)
    requires BoardFits(Seeds, w, surveyed)
    ensures WriteStages(Overwriting, r, w, PlantStages(ids, at), actor, now).Success?
    ensures Lawful(r, w, WriteStages(Overwriting, r, w, PlantStages(ids, at), actor, now).value)
    ensures BoardFits(FinalInstall, WriteStages(Overwriting, r, w, PlantStages(ids, at), actor, now).value.workflow,
                      surveyed)
  {
    var us := PlantStages(ids, at);
    QuietMove(Overwriting, Seeds, r, w, surveyed, us, FinalInstall, actor, now);
    PlantTable(w, surveyed, us, actor, now, WriteStages(Overwriting, r, w, us, actor, now).value.workflow);
  }
}
