/** An approval is not for good: a draft saved later, or a new submission, undoes it, and with it the last
    step to a living garden. */
module Approvals {
  import opened Wrappers
  import opened Domain
  import opened Transactions
  import opened Requests
  import opened Invariants
  import opened Preservation
  import opened Runs
  import opened ReportLaws
  import opened Enabledness

  predicate IsApproved(db: Db, id: Id) {
    id < |db.reports| && db.reports[id].status == Approved
  }

  /** The commit saves report `id` as a draft, or submits it. */
  predicate Resaves(db: Db, c: Commit, id: Id) {
    match c
    case Assess(report, seen, inspector, v, actor, now) =>
      report == id && SaveAssessment(db, report, seen, inspector, v, actor, now).Committed?
    case Submit(report, a, inspector, v, overall, followUp, at, actor, now) =>
      report == id && SubmitForApproval(db, report, a, inspector, v, overall, followUp, at, actor, now).Committed?
    case _ => false
  }

  lemma DraftStatus(db: Db, c: Commit, after: Db, id: Id)
    requires after == Effect(db, c) && IsApproved(db, id) && (c.StartVisit? || c.Assess?)
    ensures IsApproved(after, id) <==> !Resaves(db, c, id)
  {
  }

  lemma SubmitStatus(db: Db, c: Commit, after: Db, id: Id)
    requires after == Effect(db, c) && IsApproved(db, id) && c.Submit?
    ensures IsApproved(after, id) <==> !Resaves(db, c, id)
  {
    if SubmitForApproval(db, c.report, c.assignment, c.inspector, c.assessment, c.overall, c.followUp, c.at, c.actor,
                         c.now).Committed?
    {
      SubmitIs(db, c.report, c.assignment, c.inspector, c.assessment, c.overall, c.followUp, c.at, c.actor, c.now);
    }
  }

  /** Nothing else touches an approved report: decisions are made of submitted ones only. */
  lemma EffectStatus(db: Db, c: Commit, after: Db, id: Id)
    requires after == Effect(db, c) && IsApproved(db, id)
    ensures IsApproved(after, id) <==> !Resaves(db, c, id)
  {
    if c.Update? {
      if UpdateWorkflow(db, c.request, c.plan, c.actor, c.now).Committed? {
        UpdateReports(db, c.request, c.plan, c.actor, c.now);
      }
    } else if c.StartVisit? || c.Assess? {
      DraftStatus(db, c, after, id);
    } else if c.Submit? {
      SubmitStatus(db, c, after, id);
    } else if !c.RecordItem? && !c.TakePhoto? {
      OtherInspections(db, c, after);
    }
  }

  predicate ResavesAt(trace: seq<Db>, acts: seq<Action>, n: nat, id: Id)
    requires |trace| == |acts| + 1 && n < |acts|
  {
    var c := Resolve(trace[..n + 1], acts[n]);
    c.Some? && Resaves(trace[n], c.value, id)
  }

  lemma NextStatus(past: seq<Db>, a: Action, id: Id)
    requires past != [] && IsApproved(past[|past| - 1], id)
    ensures var c := Resolve(past, a);
            IsApproved(Next(past, a), id) <==> !(c.Some? && Resaves(past[|past| - 1], c.value, id))
  {
    if Resolve(past, a).Some? {
      EffectStatus(past[|past| - 1], Resolve(past, a).value, Next(past, a), id);
    }
  }

  lemma RunStatus(trace: seq<Db>, acts: seq<Action>, n: nat, id: Id)
    requires IsRun(trace, acts) && n < |acts| && IsApproved(trace[n], id)
    ensures IsApproved(trace[n + 1], id) <==> !ResavesAt(trace, acts, n, id)
  {
    NextStatus(trace[..n + 1], acts[n], id);
  }

  lemma {:induction false} ApprovalStays(trace: seq<Db>, acts: seq<Action>, id: Id, i: nat, j: nat)
    requires IsRun(trace, acts) && i <= j < |trace| && IsApproved(trace[i], id)
    requires forall n :: i <= n < j ==> !ResavesAt(trace, acts, n, id)
    ensures IsApproved(trace[j], id)
    decreases j - i
  {
    if i < j {
      RunStatus(trace, acts, i, id);
      ApprovalStays(trace, acts, id, i + 1, j);
    }
  }

  /** A report stays approved without interruption if and only if nobody saves it as a draft or submits
      it again meanwhile. */
  lemma ApprovalStaysExactly(trace: seq<Db>, acts: seq<Action>, id: Id, i: nat, j: nat)
    requires IsRun(trace, acts) && i <= j < |trace| && IsApproved(trace[i], id)
    ensures (forall m :: i <= m <= j ==> IsApproved(trace[m], id))
            <==> (forall n :: i <= n < j ==> !ResavesAt(trace, acts, n, id))
  {
    if forall n :: i <= n < j ==> !ResavesAt(trace, acts, n, id) {
      forall m | i <= m <= j ensures IsApproved(trace[m], id) {
        ApprovalStays(trace, acts, id, i, m);
      }
    } else {
      var n :| i <= n < j && ResavesAt(trace, acts, n, id);
      if IsApproved(trace[n], id) {
        RunStatus(trace, acts, n, id);
        assert !IsApproved(trace[n + 1], id);
      }
    }
  }

  // ---------- Activation after a draft ----------

  lemma ApprovedReportIs(rows: seq<Report>, p: Id)
    ensures ApprovedReport(rows, p).Some?
            <==> exists i :: 0 <= i < |rows| && rows[i].garden == p && rows[i].status == Approved
  {
    FirstWhereIs(rows, (x: Report) => x.garden == p && x.status == Approved);
  }

  lemma DraftedReports(db: Db, id: Id, seen: AssessmentStatus, inspector: Id, v: Assessment, actor: Id, now: Time)
    requires SaveAssessment(db, id, seen, inspector, v, actor, now).Committed?
    ensures var after := SaveAssessment(db, id, seen, inspector, v, actor, now).db;
            && id < |db.reports| && after.requests == db.requests
            && after.reports == db.reports[id := DraftedReport(db.reports[id], v)]
  {
  }

  /** With every setup in place, a saved draft leaves going live possible exactly when another report of
      the garden is approved. */
  lemma DraftUndoesActivation(trace: seq<Db>, acts: seq<Action>, n: nat, r: Id, id: Id, seen: AssessmentStatus,
                              inspector: Id, v: Assessment, notes: Option<string>, actor: Id, plannedAt: Time, now: Time)
    requires IsRun(trace, acts) && n < |trace| && r < |trace[n].requests| && trace[n].requests[r].status == FinalInstall
    requires SaveAssessment(trace[n], id, seen, inspector, v, actor, now).Committed?
    ensures trace[n].requests[r].property.Some?
    ensures var db := SaveAssessment(trace[n], id, seen, inspector, v, actor, now).db;
            && r < |db.requests|
            && var plan := PlanPatch(db.requests[r], Live, notes, Seen(db, db, db), actor, plannedAt);
               (plan.Success? && UpdateWorkflow(db, r, plan.value, actor, now).Committed?)
               <==> exists i :: 0 <= i < |trace[n].reports| && i != id
                                && trace[n].reports[i].garden == trace[n].requests[r].property.value
                                && trace[n].reports[i].status == Approved
  {
    EveryStateFits(trace, acts, n);
    DraftLeavesOthers(trace[n], r, id, seen, inspector, v, notes, actor, plannedAt, now);
  }

  lemma DraftLeavesOthers(before: Db, r: Id, id: Id, seen: AssessmentStatus, inspector: Id, v: Assessment,
                          notes: Option<string>, actor: Id, plannedAt: Time, now: Time)
    requires Inv(before) && r < |before.requests| && before.requests[r].status == FinalInstall
    requires SaveAssessment(before, id, seen, inspector, v, actor, now).Committed?
    ensures before.requests[r].property.Some?
    ensures var db := SaveAssessment(before, id, seen, inspector, v, actor, now).db;
            && r < |db.requests|
            && var plan := PlanPatch(db.requests[r], Live, notes, Seen(db, db, db), actor, plannedAt);
               (plan.Success? && UpdateWorkflow(db, r, plan.value, actor, now).Committed?)
               <==> exists i :: 0 <= i < |before.reports| && i != id
                                && before.reports[i].garden == before.requests[r].property.value
                                && before.reports[i].status == Approved
  {
    var db := Drafted(before, id, seen, inspector, v, actor, now);
    ActivationCommitsExactly(db, r, notes, actor, plannedAt, now);
    OthersApproved(before.reports, db.reports, id, db.requests[r].property.value);
  }

  lemma Drafted(before: Db, id: Id, seen: AssessmentStatus, inspector: Id, v: Assessment, actor: Id, now: Time)
    returns (db: Db)
    requires Inv(before) && SaveAssessment(before, id, seen, inspector, v, actor, now).Committed?
    ensures db == SaveAssessment(before, id, seen, inspector, v, actor, now).db
    ensures Inv(db) && db.requests == before.requests
    ensures id < |before.reports| == |db.reports| && db.reports[id].status == Draft
    ensures forall i :: 0 <= i < |before.reports| && i != id ==> db.reports[i] == before.reports[i]
  {
    SaveAssessmentKeeps(before, id, seen, inspector, v, actor, now);
    DraftedReports(before, id, seen, inspector, v, actor, now);
    db := SaveAssessment(before, id, seen, inspector, v, actor, now).db;
  }

  lemma OthersApproved(before: seq<Report>, after: seq<Report>, id: Id, p: Id)
    requires id < |before| == |after| && after[id].status != Approved
    requires forall i :: 0 <= i < |before| && i != id ==> after[i] == before[i]
    ensures ApprovedReport(after, p).Some?
            <==> exists i :: 0 <= i < |before| && i != id && before[i].garden == p && before[i].status == Approved
  {
    ApprovedReportIs(after, p);
    if exists i :: 0 <= i < |before| && i != id && before[i].garden == p && before[i].status == Approved {
      var i :| 0 <= i < |before| && i != id && before[i].garden == p && before[i].status == Approved;
      assert after[i].garden == p && after[i].status == Approved;
    }
  }
}
