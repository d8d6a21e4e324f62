/** The status update made of separate calls, kept for back ends without the transaction. */
module CallByCall {
  import opened Wrappers
  import opened Domain
  import opened StageBoard
  import opened Transactions

  /** Stage UPDATE of advance_workflow_stage: completion overwrites `completed_at`. */
  function CallByCallRow(s: Stage, u: StageUpdate, actor: Id, now: Time): Stage {
    Stage(u.status, Some(actor), s.evidence + u.evidence, OrElse(u.nextAction, s.nextAction),
          Some(OrElse(s.startedAt, now)),
          if u.status == StageSubmitted then Some(now) else s.submittedAt,
          if u.status == StageCompleted || u.status == StageRejected then Some(now) else s.completedAt)
  }

  /** Calls are not undone: an error leaves what was written before it. */
  datatype Calls<T> = Calls(result: T, error: Option<ErrorCode>)

  function CallStages(r: Id, w: Workflow, us: seq<StageUpdate>, actor: Id, clock: seq<Time>): Calls<Board>
    requires |clock| >= |us|
    decreases |us|
  {
    if us == [] then Calls(Board(w, []), None)
    else if us[0].key !in w.stages then Calls(Board(w, []), Some(WorkflowStageMissing))
    else
      var row := CallByCallRow(w.stages[us[0].key], us[0], actor, clock[0]);
      var first := WriteStage(r, w, us[0].key, row, actor, clock[0]);
      var rest := CallStages(r, first.workflow, us[1..], actor, clock[1..]);
      Calls(Append(first.events, rest.result), rest.error)
  }

  function StagesByCalls(db: Db, r: Id, us: seq<StageUpdate>, actor: Id, clock: seq<Time>): Calls<Db>
    requires |clock| >= |us|
  {
    if us == [] then Calls(db, None)
    else if r >= |db.workflows| then Calls(db, Some(WorkflowMissing))
    else
      var b := CallStages(r, db.workflows[r], us, actor, clock);
      Calls(WithBoard(db, r, b.result), b.error)
  }

  function UpdateByCalls(db: Db, r: Id, plan: StatusPlan, actor: Id, now: Time, clock: seq<Time>): Calls<Db>
    requires |clock| >= |plan.stages|
  {
    if r >= |db.requests| || db.requests[r].status != plan.expected then Calls(db, Some(RequestChanged))
    else
      var db1 := db.(requests := db.requests[r := PatchedRequest(db.requests[r], plan.patch)]);
      if plan.decision.Some? && plan.decision.value.report >= |db1.reports| && plan.decision.value.status == Approved then
        Calls(db1.(requests := db1.requests[r := db1.requests[r].(status := plan.expected)]), Some(AssessmentApprovalFailed))
      else
        var db2 := if plan.decision.Some? && plan.decision.value.report < |db1.reports|
                   then DecideReport(db1, plan.decision.value, actor, now) else db1;
        StagesByCalls(db2, r, plan.stages, actor, clock)
  }
}
