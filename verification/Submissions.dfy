/** A submitted report awaits a decision; it also ends when a draft is saved whose author had read the
    report before it was submitted. */
module Submissions {
  import opened Domain
  import opened Transactions
  import opened Preservation
  import opened Runs
  import opened ReportLaws
  import opened Approvals

  predicate IsSubmitted(db: Db, id: Id) {
    id < |db.reports| && db.reports[id].status == SubmittedForApproval
  }

  /** The commit approves or rejects report `id`. */
  predicate Decides(db: Db, c: Commit, id: Id) {
    && c.Update? && c.plan.decision.Some? && c.plan.decision.value.report == id
    && UpdateWorkflow(db, c.request, c.plan, c.actor, c.now).Committed?
  }

  /** The commit saves report `id` as a draft. */
  predicate Drafts(db: Db, c: Commit, id: Id) {
    c.Assess? && Resaves(db, c, id)
  }

  lemma DraftEnds(db: Db, c: Commit, after: Db, id: Id)
    requires after == Effect(db, c) && IsSubmitted(db, id) && (c.StartVisit? || c.Assess?)
    ensures IsSubmitted(after, id) <==> !Drafts(db, c, id)
    ensures Drafts(db, c, id) ==> c.seen != SubmittedForApproval
  {
  }

  lemma SubmissionEnds(db: Db, c: Commit, after: Db, id: Id)
    requires after == Effect(db, c) && IsSubmitted(db, id) && c.Submit?
    ensures IsSubmitted(after, id)
  {
    if SubmitForApproval(db, c.report, c.assignment, c.inspector, c.assessment, c.overall, c.followUp, c.at, c.actor,
                         c.now).Committed?
    {
      SubmitIs(db, c.report, c.assignment, c.inspector, c.assessment, c.overall, c.followUp, c.at, c.actor, c.now);
    }
  }

  lemma DecisionEnds(db: Db, c: Commit, after: Db, id: Id)
    requires Guarded(c) && after == Effect(db, c) && IsSubmitted(db, id) && c.Update?
    ensures IsSubmitted(after, id) <==> !Decides(db, c, id)
  {
    if UpdateWorkflow(db, c.request, c.plan, c.actor, c.now).Committed? {
      UpdateReports(db, c.request, c.plan, c.actor, c.now);
    }
  }

  lemma EffectSubmitted(db: Db, c: Commit, after: Db, id: Id)
    requires Guarded(c) && after == Effect(db, c) && IsSubmitted(db, id)
    ensures IsSubmitted(after, id) <==> !Decides(db, c, id) && !Drafts(db, c, id)
    ensures Drafts(db, c, id) ==> c.seen != SubmittedForApproval
  {
    if c.Update? {
      DecisionEnds(db, c, after, id);
    } else if c.StartVisit? || c.Assess? {
      DraftEnds(db, c, after, id);
    } else if c.Submit? {
      SubmissionEnds(db, c, after, id);
    } else if !c.RecordItem? && !c.TakePhoto? {
      OtherInspections(db, c, after);
    }
  }

  // ---------- Along a run ----------

  predicate DecidedAt(trace: seq<Db>, acts: seq<Action>, n: nat, id: Id)
    requires |trace| == |acts| + 1 && n < |acts|
  {
    var c := Resolve(trace[..n + 1], acts[n]);
    c.Some? && Decides(trace[n], c.value, id)
  }

  /** Step `n` saves a draft of the report, which it had read before state `i`. */
  predicate DraftedLate(trace: seq<Db>, acts: seq<Action>, i: nat, n: nat, id: Id)
    requires |trace| == |acts| + 1 && n < |acts|
  {
    var c := Resolve(trace[..n + 1], acts[n]);
    c.Some? && Drafts(trace[n], c.value, id) && acts[n].SaveDraft? && acts[n].readReport < i
  }

  lemma NextSubmitted(past: seq<Db>, a: Action, id: Id)
    requires past != [] && IsSubmitted(past[|past| - 1], id)
    ensures var db, c := past[|past| - 1], Resolve(past, a);
            && (IsSubmitted(Next(past, a), id)
                <==> !(c.Some? && Decides(db, c.value, id)) && !(c.Some? && Drafts(db, c.value, id)))
            && (c.Some? && Drafts(db, c.value, id) ==>
                  a.SaveDraft? && a.readReport < |past| && !IsSubmitted(past[a.readReport], id))
  {
    if Resolve(past, a).Some? {
      ResolvedIsGuarded(past, a);
      EffectSubmitted(past[|past| - 1], Resolve(past, a).value, Next(past, a), id);
    }
  }

  lemma RunSubmitted(trace: seq<Db>, acts: seq<Action>, i: nat, n: nat, id: Id)
    requires IsRun(trace, acts) && i <= n < |acts| && forall m :: i <= m <= n ==> IsSubmitted(trace[m], id)
    ensures IsSubmitted(trace[n + 1], id) <==> !DecidedAt(trace, acts, n, id) && !DraftedLate(trace, acts, i, n, id)
  {
    NextSubmitted(trace[..n + 1], acts[n], id);
  }

  lemma {:induction false} SubmissionStays(trace: seq<Db>, acts: seq<Action>, id: Id, i: nat, j: nat)
    requires IsRun(trace, acts) && i <= j < |trace| && IsSubmitted(trace[i], id)
    requires forall n :: i <= n < j ==> !DecidedAt(trace, acts, n, id) && !DraftedLate(trace, acts, i, n, id)
    ensures forall m :: i <= m <= j ==> IsSubmitted(trace[m], id)
    decreases j - i
  {
    if i < j {
      SubmissionStays(trace, acts, id, i, j - 1);
      RunSubmitted(trace, acts, i, j - 1, id);
    }
  }

  /** From state `i` on a submitted report stays submitted if and only if nobody decides it and nobody
      saves a draft of it that had read it before. */
  lemma SubmissionStaysExactly(trace: seq<Db>, acts: seq<Action>, id: Id, i: nat, j: nat)
    requires IsRun(trace, acts) && i <= j < |trace| && IsSubmitted(trace[i], id)
    ensures (forall m :: i <= m <= j ==> IsSubmitted(trace[m], id))
            <==> (forall n :: i <= n < j ==> !DecidedAt(trace, acts, n, id) && !DraftedLate(trace, acts, i, n, id))
  {
    if forall n :: i <= n < j ==> !DecidedAt(trace, acts, n, id) && !DraftedLate(trace, acts, i, n, id) {
      SubmissionStays(trace, acts, id, i, j);
    } else {
      var n :| i <= n < j && (DecidedAt(trace, acts, n, id) || DraftedLate(trace, acts, i, n, id));
      if forall m :: i <= m <= n ==> IsSubmitted(trace[m], id) {
        RunSubmitted(trace, acts, i, n, id);
      }
    }
  }
}
