/** The stage board as a function of the request status, and what each kind of write does to it. */
module BoardTable {
  import opened Wrappers
  import opened Domain
  import opened StageBoard
  import opened Requests
  import opened StageHistory

  /** Forward statuses in order, terminal ones above. */
  function Rank(s: RequestStatus): nat {
    match s
    case Submitted => 0
    case InspectionScheduled => 1
    case Accepted => 2
    case NeedingImplements => 3
    case ImplementsInstalled => 4
    case Seeds => 5
    case FinalInstall => 6
    case Live => 7
    case Rejected => 7
    case Cancelled => 7
  }

  datatype FourStages = FourStages(
    approval: StageStatus, installation: StageStatus, allocation: StageStatus, maintenance: StageStatus)

  /** The approval, installation, crop-allocation and maintenance stages of a request in status `s`.
      While an inspection is scheduled the approval stage is `Ready` exactly when a report of the
      property has ever been submitted. */
  function StagesFor(s: RequestStatus, surveyed: bool): FourStages
    requires s != Cancelled
  {
    match s
    case Submitted => FourStages(NotStarted, NotStarted, NotStarted, NotStarted)
    case InspectionScheduled => FourStages(if surveyed then Ready else NotStarted, NotStarted, NotStarted, NotStarted)
    case Accepted => FourStages(StageCompleted, Ready, NotStarted, NotStarted)
    case NeedingImplements => FourStages(StageCompleted, InProgress, NotStarted, NotStarted)
    case ImplementsInstalled => FourStages(StageCompleted, StageCompleted, Ready, NotStarted)
    case Seeds => FourStages(StageCompleted, StageCompleted, StageCompleted, Ready)
    case FinalInstall => FourStages(StageCompleted, StageCompleted, StageCompleted, InProgress)
    case Live => FourStages(StageCompleted, StageCompleted, StageCompleted, InProgress)
    case Rejected => FourStages(StageRejected, NotStarted, NotStarted, NotStarted)
  }

  function StagesOf(w: Workflow): FourStages
    requires AllStages(w)
  {
    FourStages(w.stages[Approval].status, w.stages[InstallationStage].status,
               w.stages[CropAllocation].status, w.stages[MaintenanceTasks].status)
  }

  predicate Closed(s: RequestStatus) {
    s == Rejected || s == Cancelled
  }

  predicate HeaderFits(s: RequestStatus, w: Workflow) {
    && w.status == (if Closed(s) then WorkflowCancelled else WorkflowActive)
    && (w.completedAt.Some? <==> Closed(s))
  }

  /** `decision` is recorded only on a decided approval stage, and says `cancelled` only when it is. */
  predicate DecisionFits(s: RequestStatus, w: Workflow)
    requires AllStages(w)
  {
    && (Decision in w.stages[Approval].evidence ==> Rank(s) >= 2)
    && (Cancels(w.stages[Approval]) ==> Closed(s))
  }

  /** Completion times exist only where the stage has been completed. */
  predicate CompletionFits(s: RequestStatus, w: Workflow)
    requires AllStages(w)
  {
    && (Rank(s) < 2 ==> w.stages[Approval].completedAt.None?)
    && (Rank(s) < 4 ==> w.stages[InstallationStage].completedAt.None?)
    && (Rank(s) < 5 ==> w.stages[CropAllocation].completedAt.None?)
    && (s == Submitted ==> w.stages[PropertyDetails].completedAt.None?
                           && w.stages[PreliminaryAssessment].completedAt.None?)
  }

  predicate TableFits(s: RequestStatus, w: Workflow, surveyed: bool)
    requires AllStages(w)
  {
    && (s != Cancelled ==> StagesOf(w) == StagesFor(s, surveyed))
    && (s == Cancelled ==> w.stages[Approval].status == Skipped)
    && DecisionFits(s, w)
    && CompletionFits(s, w)
  }

  ghost predicate BoardFits(s: RequestStatus, w: Workflow, surveyed: bool) {
    && AllStages(w)
    && Shaped(w)
    && HeaderFits(s, w)
    && TableFits(s, w, surveyed)
  }

  lemma SeedFits(owner: Id)
    ensures BoardFits(Submitted, SeedWorkflow(owner), false)
  {
  }

  // ---------- The effect of a list of stage updates ----------

  function KeySet(us: seq<StageUpdate>): set<StageKey> {
    set u | u in us :: u.key
  }

  ghost predicate Written(how: Writer, w: Workflow, us: seq<StageUpdate>, actor: Id, now: Time, after: Workflow)
    requires AllStages(w) && AllStages(after)
  {
    && (forall i :: 0 <= i < |us| ==>
          after.stages[us[i].key] == WrittenRow(how, w.stages[us[i].key], us[i], actor, now))
    && (forall k: StageKey {:trigger after.stages[k]} :: k !in KeySet(us) ==> after.stages[k] == w.stages[k])
  }

  lemma {:induction false} WriteStagesRows(how: Writer, r: Id, w: Workflow, us: seq<StageUpdate>, actor: Id, now: Time)
    requires AllStages(w) && DistinctKeys(us)
    ensures WriteStages(how, r, w, us, actor, now).Success?
    ensures AllStages(WriteStages(how, r, w, us, actor, now).value.workflow)
    ensures Written(how, w, us, actor, now, WriteStages(how, r, w, us, actor, now).value.workflow)
    decreases |us|
  {
    if us != [] {
      var u, rest := us[0], us[1..];
      var row := WrittenRow(how, w.stages[u.key], u, actor, now);
      var first := WriteStage(r, w, u.key, row, actor, now).workflow;
      assert first.stages == w.stages[u.key := row];
      assert forall i :: 0 <= i < |rest| ==> rest[i] == us[i + 1];
      WriteStagesRows(how, r, first, rest, actor, now);
      var after := WriteStages(how, r, first, rest, actor, now).value.workflow;
      forall i | 0 <= i < |us|
        ensures after.stages[us[i].key] == WrittenRow(how, w.stages[us[i].key], us[i], actor, now)
      {
        if i == 0 {
          assert u.key !in KeySet(rest);
        } else {
          assert us[i] == rest[i - 1];
        }
      }
      forall k: StageKey | k !in KeySet(us) ensures after.stages[k] == w.stages[k] {
        assert us[0] in us && us[0].key != k;
        assert k !in KeySet(rest);
      }
    }
  }

  /** The header of an active workflow closes exactly when some written row cancels. */
  lemma {:induction false} WriteStagesHeader(how: Writer, r: Id, w: Workflow, us: seq<StageUpdate>, actor: Id, now: Time)
    requires AllStages(w) && DistinctKeys(us) && w.status == WorkflowActive
    requires WriteStages(how, r, w, us, actor, now).Success?
    ensures var after := WriteStages(how, r, w, us, actor, now).value.workflow;
            if exists i :: 0 <= i < |us| && Cancels(WrittenRow(how, w.stages[us[i].key], us[i], actor, now))
            then after.status == WorkflowCancelled && after.completedAt.Some?
            else after.status == WorkflowActive && after.completedAt == w.completedAt
    decreases |us|
  {
    if us != [] {
      var u, rest := us[0], us[1..];
      var row := WrittenRow(how, w.stages[u.key], u, actor, now);
      var first := WriteStage(r, w, u.key, row, actor, now).workflow;
      assert first.stages == w.stages[u.key := row];
      assert forall i :: 0 <= i < |rest| ==> rest[i] == us[i + 1] && first.stages[rest[i].key] == w.stages[rest[i].key];
      if Cancels(row) {
        ClosedStays(how, r, first, rest, actor, now);
      } else {
        WriteStagesHeader(how, r, first, rest, actor, now);
        assert forall i :: 0 < i < |us| ==> us[i] == rest[i - 1];
      }
    }
  }

  // ---------- The header, in full ----------

  /** A rejected stage, or one that records a cancellation. */
  predicate EndsWorkflow(s: Stage) {
    s.status == StageRejected || (Decision in s.evidence && s.evidence[Decision] == JWord(DecisionCancelled))
  }

  /** Update `i` is the first of the list to end the workflow. */
  predicate FirstToEnd(after: Workflow, us: seq<StageUpdate>, i: nat) {
    && i < |us| && us[i].key in after.stages && EndsWorkflow(after.stages[us[i].key])
    && forall j :: 0 <= j < i ==> us[j].key in after.stages && !EndsWorkflow(after.stages[us[j].key])
  }

  predicate NoneEnds(after: Workflow, us: seq<StageUpdate>) {
    forall j :: 0 <= j < |us| ==> us[j].key in after.stages && !EndsWorkflow(after.stages[us[j].key])
  }

  /** A closed header stays; an open one is cancelled at the first update that ends the workflow, and otherwise
      stands at the stage written last. */
  ghost predicate HeaderMoved(w: Workflow, us: seq<StageUpdate>, now: Time, after: Workflow) {
    && after.owner == w.owner
    && if w.status == WorkflowCompleted || w.status == WorkflowCancelled then
         after.status == w.status && after.currentStage == w.currentStage && after.completedAt == w.completedAt
       else
         && (forall i: nat :: FirstToEnd(after, us, i) ==>
               && after.status == WorkflowCancelled && after.currentStage == us[i].key
               && after.completedAt == (if w.completedAt.Some? then w.completedAt else Some(now)))
         && (NoneEnds(after, us) ==>
               && after.status == w.status && after.completedAt == w.completedAt
               && after.currentStage == (if us == [] then w.currentStage else us[|us| - 1].key))
  }

  lemma {:induction false} HeaderMoves(how: Writer, r: Id, w: Workflow, us: seq<StageUpdate>, actor: Id, now: Time)
    requires AllStages(w) && DistinctKeys(us) && WriteStages(how, r, w, us, actor, now).Success?
    ensures HeaderMoved(w, us, now, WriteStages(how, r, w, us, actor, now).value.workflow)
    decreases |us|
  {
    if us != [] {
      var u, rest := us[0], us[1..];
      var row := WrittenRow(how, w.stages[u.key], u, actor, now);
      var first := WriteStage(r, w, u.key, row, actor, now).workflow;
      assert forall i :: 0 <= i < |rest| ==> rest[i] == us[i + 1];
      HeaderMoves(how, r, first, rest, actor, now);
      WriteStagesRows(how, r, w, us, actor, now);
      var after := WriteStages(how, r, first, rest, actor, now).value.workflow;
      assert after.stages[us[0].key] == row;
      HeaderStep(w, u, row, first, rest, now, after);
      assert us == [u] + rest;
    }
  }

  lemma HeaderStep(w: Workflow, u: StageUpdate, row: Stage, first: Workflow, rest: seq<StageUpdate>, now: Time,
                   after: Workflow)
    requires u.key in after.stages && after.stages[u.key] == row
    requires first.owner == w.owner
    requires if w.status == WorkflowCompleted || w.status == WorkflowCancelled then
               first.status == w.status && first.currentStage == w.currentStage && first.completedAt == w.completedAt
             else if EndsWorkflow(row) then
               && first.status == WorkflowCancelled && first.currentStage == u.key
               && first.completedAt == (if w.completedAt.Some? then w.completedAt else Some(now))
             else first.status == w.status && first.currentStage == u.key && first.completedAt == w.completedAt
    requires HeaderMoved(first, rest, now, after)
    ensures HeaderMoved(w, [u] + rest, now, after)
  {
    var us := [u] + rest;
    forall i: nat | FirstToEnd(after, us, i) && i > 0 ensures FirstToEnd(after, rest, i - 1) && !EndsWorkflow(row) {
      assert us[0] == u;
      assert forall j :: 0 <= j < i - 1 ==> rest[j] == us[j + 1];
    }
    if NoneEnds(after, us) {
      assert us[0] == u;
      forall j | 0 <= j < |rest| ensures rest[j].key in after.stages && !EndsWorkflow(after.stages[rest[j].key]) {
        assert rest[j] == us[j + 1];
      }
    }
  }

  lemma {:induction false} ClosedStays(how: Writer, r: Id, w: Workflow, us: seq<StageUpdate>, actor: Id, now: Time)
    requires w.status == WorkflowCancelled && WriteStages(how, r, w, us, actor, now).Success?
    ensures WriteStages(how, r, w, us, actor, now).value.workflow.status == WorkflowCancelled
    ensures WriteStages(how, r, w, us, actor, now).value.workflow.completedAt == w.completedAt
    decreases |us|
  {
    if us != [] {
      var row := WrittenRow(how, w.stages[us[0].key], us[0], actor, now);
      ClosedStays(how, r, WriteStage(r, w, us[0].key, row, actor, now).workflow, us[1..], actor, now);
    }
  }

  // ---------- The effect of the report trigger ----------

  lemma SyncVisitEffect(r: Id, w: Workflow, id: Id, rep: Report, actor: Id, now: Time)
    requires AllStages(w) && RowShaped(InspectorVisit, w.stages[InspectorVisit])
    ensures var after := SyncVisit(r, w, id, rep, actor, now).workflow;
            && AllStages(after)
            && (forall k: StageKey :: k != InspectorVisit && k != SiteScore ==> after.stages[k] == w.stages[k])
            && after.status == w.status && after.completedAt == w.completedAt
  {
    var row := VisitRow(w.stages[InspectorVisit], id, rep, actor, now);
    var b1 := Touch(r, Board(w, []), InspectorVisit, row, actor, now);
    assert b1.workflow.stages == w.stages[InspectorVisit := row] && !Cancels(row);
  }

  lemma SyncSubmissionEffect(r: Id, b: Board, rep: Report, actor: Id, now: Time)
    requires AllStages(b.workflow)
    requires Cancels(b.workflow.stages[Approval]) ==> b.workflow.stages[Approval].status != NotStarted
    ensures var w := b.workflow;
            var after := SyncSubmission(r, b, rep, actor, now).workflow;
            var approval := w.stages[Approval];
            && AllStages(after)
            && (forall k: StageKey :: k != GardenRecommendation && k != Approval ==> after.stages[k] == w.stages[k])
            && after.stages[Approval] == (if approval.status == NotStarted
                                          then approval.(status := Ready, nextAction := ReviewInspectionEvidence)
                                          else approval)
            && after.status == w.status && after.completedAt == w.completedAt
  {
  }

  /** What the trigger does to the stages the table speaks of, and to the header. */
  lemma SyncEffect(r: Id, w: Workflow, id: Id, rep: Report, actor: Id, now: Time)
    requires AllStages(w) && Shaped(w)
    requires Cancels(w.stages[Approval]) ==> w.stages[Approval].status != NotStarted
    ensures var after := SyncReport(r, w, id, rep, actor, now).workflow;
            var approval := w.stages[Approval];
            && AllStages(after) && Shaped(after)
            && (forall k: StageKey :: k != InspectorVisit && k != SiteScore && k != GardenRecommendation && k != Approval
                                      ==> after.stages[k] == w.stages[k])
            && after.stages[Approval] == (if rep.status == SubmittedForApproval && approval.status == NotStarted
                                          then approval.(status := Ready, nextAction := ReviewInspectionEvidence)
                                          else approval)
            && after.status == w.status && after.completedAt == w.completedAt
  {
    SyncLawful(r, w, id, rep, actor, now);
    SyncVisitEffect(r, w, id, rep, actor, now);
    if rep.status == SubmittedForApproval {
      SyncSubmissionEffect(r, SyncVisit(r, w, id, rep, actor, now), rep, actor, now);
    }
  }

  /** Deciding a report, or saving it as a draft again, puts the visit and its score back in progress. */
  lemma DecisionReopensVisit(r: Id, w: Workflow, id: Id, rep: Report, actor: Id, now: Time)
    requires AllStages(w) && rep.status != SubmittedForApproval
    ensures var after := SyncReport(r, w, id, rep, actor, now).workflow;
            && AllStages(after) && after.stages[InspectorVisit].status == InProgress
            && (rep.findings.Some? ==> after.stages[SiteScore].status == InProgress)
            && after.stages[GardenRecommendation] == w.stages[GardenRecommendation]
            && after.currentStage == InspectorVisit
  {
    var row := VisitRow(w.stages[InspectorVisit], id, rep, actor, now);
    var b1 := Touch(r, Board(w, []), InspectorVisit, row, actor, now);
    assert b1.workflow.stages == w.stages[InspectorVisit := row];
  }

  /** A saved, submitted, approved or rejected report leaves the board as its request's status has it. */
  lemma SyncFits(s: RequestStatus, r: Id, w: Workflow, surveyed: bool, id: Id, rep: Report, actor: Id, now: Time)
    requires BoardFits(s, w, surveyed) && s != Submitted
    ensures BoardFits(s, SyncReport(r, w, id, rep, actor, now).workflow, surveyed || rep.status == SubmittedForApproval)
  {
    SyncEffect(r, w, id, rep, actor, now);
    var after := SyncReport(r, w, id, rep, actor, now).workflow;
    SyncTable(s, w, surveyed, rep.status == SubmittedForApproval, after);
  }

  /** The table survives any write that leaves the stages it speaks of, but for readying an untouched approval. */
  lemma SyncTable(s: RequestStatus, w: Workflow, surveyed: bool, submitted: bool, after: Workflow)
    requires AllStages(w) && AllStages(after) && TableFits(s, w, surveyed) && s != Submitted
    requires forall k: StageKey :: k != InspectorVisit && k != SiteScore && k != GardenRecommendation && k != Approval
                                   ==> after.stages[k] == w.stages[k]
    requires var approval := w.stages[Approval];
             after.stages[Approval] == (if submitted && approval.status == NotStarted
                                        then approval.(status := Ready, nextAction := ReviewInspectionEvidence)
                                        else approval)
    ensures TableFits(s, after, surveyed || submitted)
  {
  }

  // ---------- The effect of a status update ----------

  lemma DistinctWhenFitting(target: RequestStatus, us: seq<StageUpdate>)
    requires FittingStages(target, us)
    ensures DistinctKeys(us)
    ensures forall i :: 0 <= i < |us| ==> UpdateShaped(us[i])
  {
  }

  function KeysFor(target: RequestStatus): set<StageKey> {
    match target
    case InspectionScheduled => {PropertyDetails, PreliminaryAssessment, InspectorVisit}
    case Accepted => {Approval, InstallationStage}
    case NeedingImplements => {InstallationStage}
    case Rejected => {Approval}
    case Cancelled => {Approval}
    case _ => {}
  }

  lemma KeysFit(target: RequestStatus, us: seq<StageUpdate>)
    requires FittingStages(target, us)
    ensures KeySet(us) == KeysFor(target)
  {
    if target == InspectionScheduled {
      assert us == [us[0], us[1], us[2]];
    } else if target == Accepted {
      assert us == [us[0], us[1]];
    } else if us != [] {
      assert us == [us[0]];
    }
  }

  /** The rows of a status update: one updated stage row, the other stages as they were. */
  lemma PatchedRow(target: RequestStatus, w: Workflow, us: seq<StageUpdate>, actor: Id, now: Time, after: Workflow,
                   i: nat)
    requires AllStages(w) && AllStages(after) && FittingStages(target, us) && i < |us|
    requires Written(Advancing, w, us, actor, now, after)
    ensures var t, o := after.stages[us[i].key], w.stages[us[i].key];
            && t.status == us[i].status
            && t.evidence == o.evidence + us[i].evidence
            && (t.status != StageCompleted && t.status != StageRejected ==> t.completedAt == o.completedAt)
  {
  }

  lemma LiveFits(w: Workflow, surveyed: bool, after: Workflow)
    requires AllStages(w) && TableFits(FinalInstall, w, surveyed)
    requires AllStages(after) && forall k: StageKey :: after.stages[k] == w.stages[k]
    ensures TableFits(Live, after, surveyed)
  {
  }

  lemma ScheduleFits(w: Workflow, after: Workflow)
    requires AllStages(w) && TableFits(Submitted, w, false)
    requires AllStages(after) && forall k: StageKey :: k !in KeysFor(InspectionScheduled) ==> after.stages[k] == w.stages[k]
    ensures TableFits(InspectionScheduled, after, false)
  {
  }

  lemma AcceptFits(w: Workflow, surveyed: bool, us: seq<StageUpdate>, actor: Id, now: Time, after: Workflow)
    requires AllStages(w) && TableFits(InspectionScheduled, w, surveyed) && FittingStages(Accepted, us)
    requires AllStages(after) && Written(Advancing, w, us, actor, now, after)
    ensures TableFits(Accepted, after, surveyed)
  {
    KeysFit(Accepted, us);
    PatchedRow(Accepted, w, us, actor, now, after, 0);
    PatchedRow(Accepted, w, us, actor, now, after, 1);
  }

  lemma BeginFits(w: Workflow, surveyed: bool, us: seq<StageUpdate>, actor: Id, now: Time, after: Workflow)
    requires AllStages(w) && TableFits(Accepted, w, surveyed) && FittingStages(NeedingImplements, us)
    requires AllStages(after) && Written(Advancing, w, us, actor, now, after)
    ensures TableFits(NeedingImplements, after, surveyed)
  {
    KeysFit(NeedingImplements, us);
    PatchedRow(NeedingImplements, w, us, actor, now, after, 0);
  }

  lemma RejectFits(s: RequestStatus, w: Workflow, surveyed: bool, us: seq<StageUpdate>, actor: Id, now: Time,
                   after: Workflow)
    requires AllStages(w) && TableFits(s, w, surveyed) && FittingStages(Rejected, us)
    requires s == Submitted || s == InspectionScheduled
    requires AllStages(after) && Written(Advancing, w, us, actor, now, after)
    ensures TableFits(Rejected, after, surveyed)
  {
    KeysFit(Rejected, us);
    PatchedRow(Rejected, w, us, actor, now, after, 0);
  }

  lemma CancelFits(s: RequestStatus, w: Workflow, surveyed: bool, us: seq<StageUpdate>, actor: Id, now: Time,
                   after: Workflow)
    requires AllStages(w) && TableFits(s, w, surveyed) && FittingStages(Cancelled, us)
    requires AllStages(after) && Written(Advancing, w, us, actor, now, after)
    ensures TableFits(Cancelled, after, surveyed)
  {
    PatchedRow(Cancelled, w, us, actor, now, after, 0);
  }

  lemma PatchTableFits(s: RequestStatus, w: Workflow, surveyed: bool, target: RequestStatus, us: seq<StageUpdate>,
                       actor: Id, now: Time, after: Workflow)
    requires AllStages(w) && TableFits(s, w, surveyed) && PatchAllowed(s, target) && FittingStages(target, us)
    requires target == InspectionScheduled ==> !surveyed
    requires AllStages(after) && Written(Advancing, w, us, actor, now, after)
    ensures TableFits(target, after, surveyed)
  {
    match target {
      case Accepted => AcceptFits(w, surveyed, us, actor, now, after);
      case NeedingImplements => BeginFits(w, surveyed, us, actor, now, after);
      case Rejected => RejectFits(s, w, surveyed, us, actor, now, after);
      case Cancelled => CancelFits(s, w, surveyed, us, actor, now, after);
      case Live =>
        KeysFit(target, us);
        LiveFits(w, surveyed, after);
      case InspectionScheduled =>
        KeysFit(target, us);
        ScheduleFits(w, after);
    }
  }

  /** A row written by a planned update cancels exactly when the target closes the request. */
  lemma OnlyClosingCancels(target: RequestStatus, w: Workflow, us: seq<StageUpdate>, i: nat, actor: Id, now: Time)
    requires AllStages(w) && Shaped(w) && FittingStages(target, us) && i < |us|
    ensures Cancels(WrittenRow(Advancing, w.stages[us[i].key], us[i], actor, now)) <==> Closed(target)
  {
    assert RowShaped(us[i].key, w.stages[us[i].key]);
  }

  lemma PatchHeaderFits(s: RequestStatus, r: Id, w: Workflow, target: RequestStatus,
                        us: seq<StageUpdate>, actor: Id, now: Time)
    requires AllStages(w) && Shaped(w) && HeaderFits(s, w) && !Closed(s) && FittingStages(target, us)
    requires WriteStages(Advancing, r, w, us, actor, now).Success?
    ensures HeaderFits(target, WriteStages(Advancing, r, w, us, actor, now).value.workflow)
  {
    DistinctWhenFitting(target, us);
    WriteStagesHeader(Advancing, r, w, us, actor, now);
    forall i | 0 <= i < |us|
      ensures Cancels(WrittenRow(Advancing, w.stages[us[i].key], us[i], actor, now)) <==> Closed(target)
    {
      OnlyClosingCancels(target, w, us, i, actor, now);
    }
    assert Closed(target) ==> us[0].key == Approval;
  }

  /** A planned status update moves the board from the old status' stages to the new one's. */
  lemma PatchFits(s: RequestStatus, r: Id, w: Workflow, surveyed: bool, target: RequestStatus,
                  us: seq<StageUpdate>, actor: Id, now: Time)
    requires BoardFits(s, w, surveyed) && PatchAllowed(s, target) && FittingStages(target, us)
    requires target == InspectionScheduled ==> !surveyed
    ensures WriteStages(Advancing, r, w, us, actor, now).Success?
    ensures Lawful(r, w, WriteStages(Advancing, r, w, us, actor, now).value)
    ensures BoardFits(target, WriteStages(Advancing, r, w, us, actor, now).value.workflow, surveyed)
  {
    DistinctWhenFitting(target, us);
    WriteStagesLawful(Advancing, r, w, us, actor, now);
    WriteStagesRows(Advancing, r, w, us, actor, now);
    PatchHeaderFits(s, r, w, target, us, actor, now);
    PatchTableFits(s, w, surveyed, target, us, actor, now, WriteStages(Advancing, r, w, us, actor, now).value.workflow);
  }
}
