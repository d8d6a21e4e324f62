/** The call-by-call status update and the transaction agree. */
module Compatibility {
  import opened Wrappers
  import opened Domain
  import opened StageBoard
  import opened Transactions
  import opened Requests
  import opened CallByCall
  import opened StageHistory
  import opened BoardTable
  import opened Invariants
  import opened StatusPreservation

  // ---------- Alike up to the clock ----------

  predicate SameDefined(a: Option<Time>, b: Option<Time>) {
    a.Some? <==> b.Some?
  }

  /** Equal in status, owner, evidence, next action, and in which times are recorded. */
  predicate AlikeStage(s: Stage, t: Stage) {
    && s.status == t.status && s.owner == t.owner && s.evidence == t.evidence && s.nextAction == t.nextAction
    && SameDefined(s.startedAt, t.startedAt) && SameDefined(s.submittedAt, t.submittedAt)
    && SameDefined(s.completedAt, t.completedAt)
  }

  ghost predicate Alike(w: Workflow, v: Workflow) {
    && w.owner == v.owner && w.currentStage == v.currentStage && w.status == v.status
    && SameDefined(w.completedAt, v.completedAt)
    && AllStages(w) && AllStages(v)
    && forall k: StageKey {:trigger w.stages[k]} {:trigger v.stages[k]} :: AlikeStage(w.stages[k], v.stages[k])
  }

  ghost predicate AlikeBoards(a: Board, b: Board) {
    Alike(a.workflow, b.workflow) && a.events == b.events
  }

  ghost predicate AlikeDbs(a: Db, b: Db) {
    && b == a.(workflows := b.workflows) && |a.workflows| == |b.workflows|
    && forall q :: 0 <= q < |a.workflows| ==> Alike(a.workflows[q], b.workflows[q])
  }

  lemma AlikeSelf(w: Workflow)
    requires AllStages(w)
    ensures Alike(w, w)
  {
  }

  lemma WriteAlike(r: Id, w: Workflow, v: Workflow, k: StageKey, s: Stage, t: Stage, actor: Id, now: Time, at: Time)
    requires Alike(w, v) && AlikeStage(s, t)
    ensures AlikeBoards(WriteStage(r, w, k, s, actor, now), WriteStage(r, v, k, t, actor, at))
  {
    var a, b := WriteStage(r, w, k, s, actor, now).workflow, WriteStage(r, v, k, t, actor, at).workflow;
    assert a.stages == w.stages[k := s] && b.stages == v.stages[k := t];
    assert AlikeStage(w.stages[k], v.stages[k]);
  }

  lemma TouchAlike(r: Id, a: Board, b: Board, k: StageKey, s: Stage, t: Stage, actor: Id, now: Time, at: Time)
    requires AlikeBoards(a, b) && AlikeStage(s, t)
    ensures AlikeBoards(Touch(r, a, k, s, actor, now), Touch(r, b, k, t, actor, at))
  {
    WriteAlike(r, a.workflow, b.workflow, k, s, t, actor, now, at);
  }

  lemma SyncVisitAlike(r: Id, w: Workflow, v: Workflow, id: Id, rep: Report, actor: Id, now: Time, at: Time)
    requires Alike(w, v)
    ensures AlikeBoards(SyncVisit(r, w, id, rep, actor, now), SyncVisit(r, v, id, rep, actor, at))
  {
    assert AlikeStage(w.stages[InspectorVisit], v.stages[InspectorVisit]);
    var s, t := VisitRow(w.stages[InspectorVisit], id, rep, actor, now), VisitRow(v.stages[InspectorVisit], id, rep, actor, at);
    TouchAlike(r, Board(w, []), Board(v, []), InspectorVisit, s, t, actor, now, at);
    var a, b := Touch(r, Board(w, []), InspectorVisit, s, actor, now), Touch(r, Board(v, []), InspectorVisit, t, actor, at);
    if rep.findings.Some? {
      assert AlikeStage(a.workflow.stages[SiteScore], b.workflow.stages[SiteScore]);
      TouchAlike(r, a, b, SiteScore, ScoreRow(a.workflow.stages[SiteScore], rep, actor, now),
                 ScoreRow(b.workflow.stages[SiteScore], rep, actor, at), actor, now, at);
    }
  }

  lemma SyncSubmissionAlike(r: Id, a: Board, b: Board, rep: Report, actor: Id, now: Time, at: Time)
    requires AlikeBoards(a, b)
    ensures AlikeBoards(SyncSubmission(r, a, rep, actor, now), SyncSubmission(r, b, rep, actor, at))
  {
    assert AlikeStage(a.workflow.stages[GardenRecommendation], b.workflow.stages[GardenRecommendation]);
    var s := RecommendationRow(a.workflow.stages[GardenRecommendation], rep, actor, now);
    var t := RecommendationRow(b.workflow.stages[GardenRecommendation], rep, actor, at);
    TouchAlike(r, a, b, GardenRecommendation, s, t, actor, now, at);
    var a3, b3 := Touch(r, a, GardenRecommendation, s, actor, now), Touch(r, b, GardenRecommendation, t, actor, at);
    var p, q := a3.workflow.stages[Approval], b3.workflow.stages[Approval];
    assert AlikeStage(p, q);
    if p.status == NotStarted {
      TouchAlike(r, a3, b3, Approval, p.(status := Ready, nextAction := ReviewInspectionEvidence),
                 q.(status := Ready, nextAction := ReviewInspectionEvidence), actor, now, at);
    }
  }

  /** The report trigger fired at another time writes the same but for the times. */
  lemma SyncAlike(r: Id, w: Workflow, id: Id, rep: Report, actor: Id, now: Time, at: Time)
    requires AllStages(w)
    ensures AlikeBoards(SyncReport(r, w, id, rep, actor, now), SyncReport(r, w, id, rep, actor, at))
  {
    AlikeSelf(w);
    SyncVisitAlike(r, w, w, id, rep, actor, now, at);
    SyncSubmissionAlike(r, SyncVisit(r, w, id, rep, actor, now), SyncVisit(r, w, id, rep, actor, at), rep, actor, now, at);
  }

  /** The two stage writers agree, update by update. */
  lemma {:induction false} StagesAlike(r: Id, w: Workflow, v: Workflow, us: seq<StageUpdate>, actor: Id, now: Time,
                                       clock: seq<Time>)
    requires Alike(w, v) && |clock| >= |us|
    ensures WriteStages(Advancing, r, w, us, actor, now).Success?
    ensures CallStages(r, v, us, actor, clock).error.None?
    ensures AlikeBoards(WriteStages(Advancing, r, w, us, actor, now).value, CallStages(r, v, us, actor, clock).result)
    decreases |us|
  {
    if us != [] {
      var u := us[0];
      assert AlikeStage(w.stages[u.key], v.stages[u.key]);
      var s, t := AdvancedRow(w.stages[u.key], u, actor, now), CallByCallRow(v.stages[u.key], u, actor, clock[0]);
      WriteAlike(r, w, v, u.key, s, t, actor, now, clock[0]);
      StagesAlike(r, WriteStage(r, w, u.key, s, actor, now).workflow,
                  WriteStage(r, v, u.key, t, actor, clock[0]).workflow, us[1..], actor, now, clock[1..]);
    }
  }

  // ---------- The two paths ----------

  predicate SameProperties(a: seq<Request>, b: seq<Request>) {
    |a| == |b| && forall r :: 0 <= r < |a| ==> a[r].property == b[r].property
  }

  lemma {:induction false} SameOwnerRequest(a: seq<Request>, b: seq<Request>, g: Id)
    requires SameProperties(a, b)
    ensures LastRequestFor(a, g) == LastRequestFor(b, g)
  {
    if a != [] {
      SameOwnerRequest(a[..|a| - 1], b[..|b| - 1], g);
    }
  }

  ghost predicate WellBoarded(db: Db) {
    |db.workflows| == |db.requests| && forall q :: 0 <= q < |db.workflows| ==> AllStages(db.workflows[q])
  }

  lemma AlikeDbsSelf(db: Db)
    requires WellBoarded(db)
    ensures AlikeDbs(db, db)
  {
    forall q | 0 <= q < |db.workflows| ensures Alike(db.workflows[q], db.workflows[q]) {
      AlikeSelf(db.workflows[q]);
    }
  }

  lemma SyncedAlike(db: Db, r: Id, row: Request, id: Id, actor: Id, now: Time, at: Time)
    requires WellBoarded(db) && id < |db.reports| && r < |db.requests| && row.property == db.requests[r].property
    ensures var a := SyncInspection(db, id, actor, now);
            var b := SyncInspection(db.(requests := db.requests[r := row]), id, actor, at);
            r < |a.requests| && AlikeDbs(a.(requests := a.requests[r := row]), b)
  {
    AlikeDbsSelf(db);
    SameOwnerRequest(db.requests, db.requests[r := row], db.reports[id].garden);
    var q := LastRequestFor(db.requests, db.reports[id].garden);
    if q.Some? {
      SyncAlike(q.value, db.workflows[q.value], id, db.reports[id], actor, now, at);
    }
  }

  /** Deciding the report before or after the request row is written makes no difference. */
  lemma DecisionAlike(db: Db, r: Id, row: Request, d: ReportDecision, actor: Id, now: Time, at: Time)
    requires WellBoarded(db) && d.report < |db.reports| && r < |db.requests| && row.property == db.requests[r].property
    ensures var a := DecideReport(db, d, actor, now);
            var b := DecideReport(db.(requests := db.requests[r := row]), d, actor, at);
            r < |a.requests| && AlikeDbs(a.(requests := a.requests[r := row]), b)
  {
    var rep := db.reports[d.report].(
      status := d.status, notes := if d.notes.Some? then d.notes.value else db.reports[d.report].notes);
    SyncedAlike(db.(reports := db.reports[d.report := rep]), r, row, d.report, actor, now, at);
  }

  lemma StagesByCallsAlike(a: Db, b: Db, r: Id, us: seq<StageUpdate>, actor: Id, now: Time, clock: seq<Time>)
    requires AlikeDbs(a, b) && r < |a.workflows| && |clock| >= |us|
    ensures var tx, calls := CommitStages(a, Advancing, r, us, actor, now, r), StagesByCalls(b, r, us, actor, clock);
            tx.Committed? && calls.error.None? && AlikeDbs(tx.db, calls.result)
  {
    StagesAlike(r, a.workflows[r], b.workflows[r], us, actor, now, clock);
  }

  /** From the same database, without a failure or another client between, the transaction and the
      calls end alike: equal in everything but the times at which stages were written. */
  lemma PathsAgree(db: Db, r: Id, target: RequestStatus, notes: Option<string>, actor: Id, plannedAt: Time,
                   now: Time, at: Time, clock: seq<Time>)
    requires WellBoarded(db) && r < |db.requests| && target != Live
    requires PlanPatch(db.requests[r], target, notes, Seen(db, db, db), actor, plannedAt).Success?
    requires |clock| >= |PlanPatch(db.requests[r], target, notes, Seen(db, db, db), actor, plannedAt).value.stages|
    ensures var plan := PlanPatch(db.requests[r], target, notes, Seen(db, db, db), actor, plannedAt).value;
            var tx, calls := UpdateWorkflow(db, r, plan, actor, now), UpdateByCalls(db, r, plan, actor, at, clock);
            tx.Committed? && calls.error.None? && AlikeDbs(tx.db, calls.result)
  {
    var plan := PlanPatch(db.requests[r], target, notes, Seen(db, db, db), actor, plannedAt).value;
    var row := PatchedRequest(db.requests[r], plan.patch);
    AlikeDbsSelf(db);
    PlanPasses(db, r, target, notes, actor, plannedAt);
    var a, b;
    if plan.decision.Some? {
      DecisionAlike(db, r, row, plan.decision.value, actor, now, at);
      a := DecideReport(db, plan.decision.value, actor, now).(requests := db.requests[r := row]);
      b := DecideReport(db.(requests := db.requests[r := row]), plan.decision.value, actor, at);
    } else {
      a := db.(requests := db.requests[r := row]);
      b := a;
    }
    StagesByCallsAlike(a, b, r, plan.stages, actor, now, clock);
  }

  /** A plan made from the database it is committed to passes the checks made again there. */
  lemma PlanPasses(db: Db, r: Id, target: RequestStatus, notes: Option<string>, actor: Id, plannedAt: Time)
    requires r < |db.requests| && PlanPatch(db.requests[r], target, notes, Seen(db, db, db), actor, plannedAt).Success?
    ensures var plan := PlanPatch(db.requests[r], target, notes, Seen(db, db, db), actor, plannedAt).value;
            && plan.expected == db.requests[r].status && plan.patch.status == target
            && (plan.assignment.Some? ==> AssignmentStillOpen(db, plan.assignment.value, db.requests[r].property))
            && (plan.decision.Some? ==> DecisionStillPending(db, plan.decision.value))
  {
  }

  // ---------- Equal times ----------

  /** No stage that an update completes or rejects has a completion time yet. */
  ghost predicate CompletesFirst(w: Workflow, us: seq<StageUpdate>)
    requires AllStages(w)
  {
    forall i :: 0 <= i < |us| && (us[i].status == StageCompleted || us[i].status == StageRejected) ==>
                  w.stages[us[i].key].completedAt.None?
  }

  lemma {:induction false} StagesEqual(r: Id, w: Workflow, us: seq<StageUpdate>, actor: Id, now: Time, clock: seq<Time>)
    requires AllStages(w) && DistinctKeys(us) && CompletesFirst(w, us)
    requires |clock| >= |us| && forall i :: 0 <= i < |us| ==> clock[i] == now
    ensures WriteStages(Advancing, r, w, us, actor, now).Success?
    ensures CallStages(r, w, us, actor, clock) == Calls(WriteStages(Advancing, r, w, us, actor, now).value, None)
    decreases |us|
  {
    if us != [] {
      var u, rest := us[0], us[1..];
      var first := WriteStage(r, w, u.key, AdvancedRow(w.stages[u.key], u, actor, now), actor, now).workflow;
      assert first.stages == w.stages[u.key := AdvancedRow(w.stages[u.key], u, actor, now)];
      assert forall i :: 0 <= i < |rest| ==> rest[i] == us[i + 1] && first.stages[rest[i].key] == w.stages[rest[i].key];
      StagesEqual(r, first, rest, actor, now, clock[1..]);
    }
  }

  lemma FittingCompletesFirst(s: RequestStatus, w: Workflow, target: RequestStatus, us: seq<StageUpdate>)
    requires AllStages(w) && CompletionFits(s, w) && PatchAllowed(s, target) && FittingStages(target, us)
    ensures CompletesFirst(w, us) && DistinctKeys(us)
  {
  }

  lemma DecisionCommutes(db: Db, r: Id, row: Request, d: ReportDecision, actor: Id, now: Time)
    requires d.report < |db.reports| && r < |db.requests| && row.property == db.requests[r].property
    ensures var a := DecideReport(db, d, actor, now);
            r < |a.requests| && a.(requests := a.requests[r := row])
                                == DecideReport(db.(requests := db.requests[r := row]), d, actor, now)
  {
    SameOwnerRequest(db.requests, db.requests[r := row], db.reports[d.report].garden);
  }

  lemma BoardCompletesFirst(db: Db, r: Id, plan: StatusPlan)
    requires Inv(db) && r < |db.requests| && FittingPlan(plan) && db.requests[r].status == plan.expected
    ensures r < |db.workflows| && AllStages(db.workflows[r])
    ensures CompletesFirst(db.workflows[r], plan.stages) && DistinctKeys(plan.stages)
  {
    assert BoardAt(db.requests[r], db.reports, db.workflows[r]);
    FittingCompletesFirst(plan.expected, db.workflows[r], plan.patch.status, plan.stages);
  }

  /** The database once the report is decided: the stage updates still complete what was not complete. */
  lemma DecidedBoard(db: Db, r: Id, plan: StatusPlan, actor: Id, now: Time) returns (decided: Db)
    requires Inv(db) && r < |db.requests| && FittingPlan(plan) && db.requests[r].status == plan.expected
    requires plan.decision.Some? ==> DecisionStillPending(db, plan.decision.value)
    ensures decided == if plan.decision.Some? then DecideReport(db, plan.decision.value, actor, now) else db
    ensures r < |decided.workflows| && AllStages(decided.workflows[r])
    ensures CompletesFirst(decided.workflows[r], plan.stages) && DistinctKeys(plan.stages)
  {
    decided := db;
    if plan.decision.Some? {
      DecisionKeeps(db, plan.decision.value, actor, now);
      decided := DecideReport(db, plan.decision.value, actor, now);
    }
    BoardCompletesFirst(decided, r, plan);
  }

  lemma StagesByCallsEqual(db: Db, r: Id, us: seq<StageUpdate>, actor: Id, now: Time, clock: seq<Time>)
    requires r < |db.workflows| && AllStages(db.workflows[r]) && DistinctKeys(us) && CompletesFirst(db.workflows[r], us)
    requires |clock| >= |us| && forall i :: 0 <= i < |us| ==> clock[i] == now
    ensures var tx := CommitStages(db, Advancing, r, us, actor, now, r);
            tx.Committed? && StagesByCalls(db, r, us, actor, clock) == Calls(tx.db, None)
  {
    StagesEqual(r, db.workflows[r], us, actor, now, clock);
  }

  /** The calls make the same writes, the request's before the report's. */
  lemma CallsUnfold(db: Db, r: Id, plan: StatusPlan, actor: Id, now: Time, clock: seq<Time>, decided: Db)
    requires r < |db.requests| && db.requests[r].status == plan.expected && |clock| >= |plan.stages|
    requires plan.decision.Some? ==> plan.decision.value.report < |db.reports|
    requires decided == if plan.decision.Some? then DecideReport(db, plan.decision.value, actor, now) else db
    ensures |decided.requests| == |db.requests|
    ensures var row := PatchedRequest(db.requests[r], plan.patch);
            UpdateByCalls(db, r, plan, actor, now, clock)
            == StagesByCalls(decided.(requests := decided.requests[r := row]), r, plan.stages, actor, clock)
  {
    if plan.decision.Some? {
      DecisionCommutes(db, r, PatchedRequest(db.requests[r], plan.patch), plan.decision.value, actor, now);
    }
  }

  /** In reachable databases the unconditional completion time of the calls overwrites nothing: with the
      same clock reading throughout, the two paths end in the same database, times included. */
  lemma PathsEqual(db: Db, r: Id, plan: StatusPlan, actor: Id, now: Time, clock: seq<Time>)
    requires Inv(db) && FittingPlan(plan) && UpdateWorkflow(db, r, plan, actor, now).Committed?
    requires |clock| >= |plan.stages| && forall i :: 0 <= i < |plan.stages| ==> clock[i] == now
    ensures UpdateByCalls(db, r, plan, actor, now, clock) == Calls(UpdateWorkflow(db, r, plan, actor, now).db, None)
  {
    UpdateIs(db, r, plan, actor, now);
    var decided := DecidedBoard(db, r, plan, actor, now);
    CallsUnfold(db, r, plan, actor, now, clock, decided);
    var row := PatchedRequest(db.requests[r], plan.patch);
    StagesByCallsEqual(decided.(requests := decided.requests[r := row]), r, plan.stages, actor, now, clock);
  }

  // ---------- Failures ----------

  /** What the calls leave when they fail: nothing if the request is not as read; the request patched but back
      in its old status if the report to approve is gone; all writes up to a missing stage otherwise. */
  ghost predicate Failed(db: Db, r: Id, plan: StatusPlan, after: Db, e: ErrorCode) {
    match e
    case RequestChanged => after == db && (r < |db.requests| ==> db.requests[r].status != plan.expected)
    case AssessmentApprovalFailed =>
      && plan.decision.Some? && plan.decision.value.status == Approved && plan.decision.value.report >= |db.reports|
      && r < |db.requests|
      && after == db.(requests := db.requests[r := db.requests[r].(
           adminNotes := if plan.patch.adminNotes.Some? then plan.patch.adminNotes else db.requests[r].adminNotes,
           details := if plan.patch.details.Some? then plan.patch.details.value else db.requests[r].details,
           reviewedBy := Some(plan.patch.reviewedBy), reviewedAt := Some(plan.patch.reviewedAt))])
    case WorkflowStageMissing => r < |after.requests| && after.requests[r].status == plan.patch.status
    case WorkflowMissing =>
      r < |after.requests| && after.requests[r].status == plan.patch.status && r >= |db.workflows|
    case _ => false
  }

  lemma FailedCallsLeave(db: Db, r: Id, plan: StatusPlan, actor: Id, now: Time, clock: seq<Time>, e: ErrorCode)
    requires |clock| >= |plan.stages| && UpdateByCalls(db, r, plan, actor, now, clock).error == Some(e)
    ensures Failed(db, r, plan, UpdateByCalls(db, r, plan, actor, now, clock).result, e)
  {
    if r < |db.requests| && db.requests[r].status == plan.expected {
      if plan.decision.None? || plan.decision.value.report < |db.reports| || plan.decision.value.status != Approved {
        StoppedCalls(db, r, plan, actor, now, clock, e);
      } else {
        AbandonedCalls(db, r, plan, actor, now, clock, e);
      }
    }
  }

  lemma AbandonedCalls(db: Db, r: Id, plan: StatusPlan, actor: Id, now: Time, clock: seq<Time>, e: ErrorCode)
    requires |clock| >= |plan.stages| && UpdateByCalls(db, r, plan, actor, now, clock).error == Some(e)
    requires r < |db.requests| && db.requests[r].status == plan.expected
    requires plan.decision.Some? && plan.decision.value.report >= |db.reports| && plan.decision.value.status == Approved
    ensures e == AssessmentApprovalFailed
    ensures Failed(db, r, plan, UpdateByCalls(db, r, plan, actor, now, clock).result, e)
  {
  }

  lemma StoppedCalls(db: Db, r: Id, plan: StatusPlan, actor: Id, now: Time, clock: seq<Time>, e: ErrorCode)
    requires |clock| >= |plan.stages| && UpdateByCalls(db, r, plan, actor, now, clock).error == Some(e)
    requires r < |db.requests| && db.requests[r].status == plan.expected
    requires plan.decision.None? || plan.decision.value.report < |db.reports| || plan.decision.value.status != Approved
    ensures Failed(db, r, plan, UpdateByCalls(db, r, plan, actor, now, clock).result, e)
  {
    var row := PatchedRequest(db.requests[r], plan.patch);
    if plan.decision.Some? && plan.decision.value.report >= |db.reports| {
      StageCallsFail(db.(requests := db.requests[r := row]), r, plan.stages, actor, clock);
    } else {
      var decided := if plan.decision.Some? then DecideReport(db, plan.decision.value, actor, now) else db;
      CallsUnfold(db, r, plan, actor, now, clock, decided);
      StageCallsFail(decided.(requests := decided.requests[r := row]), r, plan.stages, actor, clock);
    }
  }

  lemma StageCallsFail(db: Db, r: Id, us: seq<StageUpdate>, actor: Id, clock: seq<Time>)
    requires |clock| >= |us|
    ensures var out := StagesByCalls(db, r, us, actor, clock);
            && out.result.requests == db.requests
            && (out.error.Some? ==>
                  out.error.value == if r < |db.workflows| then WorkflowStageMissing else WorkflowMissing)
  {
    if r < |db.workflows| {
      CallsMiss(r, db.workflows[r], us, actor, clock);
    }
  }

  lemma {:induction false} CallsMiss(r: Id, w: Workflow, us: seq<StageUpdate>, actor: Id, clock: seq<Time>)
    requires |clock| >= |us|
    ensures var e := CallStages(r, w, us, actor, clock).error; e.Some? ==> e.value == WorkflowStageMissing
    decreases |us|
  {
    if us != [] && us[0].key in w.stages {
      var row := CallByCallRow(w.stages[us[0].key], us[0], actor, clock[0]);
      CallsMiss(r, WriteStage(r, w, us[0].key, row, actor, clock[0]).workflow, us[1..], actor, clock[1..]);
    }
  }
}
