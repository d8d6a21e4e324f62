/** The inspector of a report never changes, that of its visit may: who can still submit the report. */
module Inspectors {
  import opened Wrappers
  import opened Domain
  import opened Transactions
  import opened Invariants
  import opened Preservation
  import opened StatusPreservation
  import opened Achievements
  import opened Runs
  import opened VisitLaws

  /** The commit reschedules assignment `a`. */
  predicate Reassigns(db: Db, c: Commit, a: Id) {
    && c.ScheduleVisit?
    && var out := ScheduleInspection(db, c.request, c.schedule, c.actor, c.now);
       out.Committed? && out.value.assignment == a
  }

  ghost predicate SameInspectors(before: seq<Assignment>, after: seq<Assignment>) {
    && |before| <= |after|
    && forall a :: 0 <= a < |before| ==> after[a].inspector == before[a].inspector && after[a].visit == before[a].visit
  }

  lemma ScheduleInspectors(db: Db, r: Id, s: Schedule, actor: Id, now: Time)
    requires ScheduleInspection(db, r, s, actor, now).Committed?
    ensures var out := ScheduleInspection(db, r, s, actor, now);
            && |db.assignments| <= |out.db.assignments|
            && forall a :: 0 <= a < |db.assignments| ==>
                 var before, after := db.assignments[a], out.db.assignments[a];
                 && after.inspector == (if out.value.assignment == a then s.inspector else before.inspector)
                 && after.visit == (if out.value.assignment == a then SyncedVisit(before.visit, s.visit) else before.visit)
  {
    ScheduledVisit(db, r, s, actor, now);
  }

  lemma UpdateInspectors(db: Db, r: Id, plan: StatusPlan, actor: Id, now: Time)
    requires UpdateWorkflow(db, r, plan, actor, now).Committed?
    ensures UpdateWorkflow(db, r, plan, actor, now).db.assignments == db.assignments
  {
    UpdateIs(db, r, plan, actor, now);
  }

  lemma SetupInspectors(db: Db, c: Commit, after: Db)
    requires after == Effect(db, c) && (c.Install? || c.Allocate?)
    ensures after.assignments == db.assignments
  {
    match c {
      case Install(r, p, facts, at, actor, now) =>
        if CompleteInstallation(db, r, p, facts, at, actor, now).Committed? {
          InstallationIs(db, r, p, facts, at, actor, now);
        }
      case Allocate(r, v, actor, now) =>
        if CompleteAllocation(db, r, v, actor, now).Committed? {
          AllocationIs(db, r, v, actor, now);
        }
    }
  }

  lemma PlantInspectors(db: Db, r: Id, at: Time, actor: Id, now: Time)
    requires CompletePlanting(db, r, at, actor, now).Committed?
    ensures CompletePlanting(db, r, at, actor, now).db.assignments == db.assignments
  {
    PlantingIs(db, r, at, actor, now);
  }

  lemma VisitInspectors(db: Db, c: Commit, after: Db)
    requires after == Effect(db, c) && (c.StartVisit? || c.Assess? || c.Submit?)
    ensures SameInspectors(db.assignments, after.assignments)
  {
    match c {
      case StartVisit(_, _, _, _) =>
      case Assess(_, _, _, _, _, _) =>
      case Submit(id, a, inspector, v, overall, followUp, at, actor, now) =>
        if SubmitForApproval(db, id, a, inspector, v, overall, followUp, at, actor, now).Committed? {
          SubmitIs(db, id, a, inspector, v, overall, followUp, at, actor, now);
        }
    }
  }

  lemma RecordInspectors(db: Db, c: Commit, after: Db)
    requires after == Effect(db, c)
    requires c.Create? || c.ReceiveLead? || c.SetInspector? || c.Convert? || c.SetDetails? || c.RecordItem? || c.TakePhoto?
    ensures after.assignments == db.assignments
  {
  }

  /** Only rescheduling an assignment changes its inspector and its dates. */
  lemma EffectInspectors(db: Db, c: Commit, after: Db)
    requires after == Effect(db, c)
    ensures |db.assignments| <= |after.assignments|
    ensures forall a :: 0 <= a < |db.assignments| ==>
              after.assignments[a].inspector
              == if Reassigns(db, c, a) then c.schedule.inspector else db.assignments[a].inspector
    ensures forall a :: 0 <= a < |db.assignments| ==>
              after.assignments[a].visit
              == if Reassigns(db, c, a) then SyncedVisit(db.assignments[a].visit, c.schedule.visit)
                 else db.assignments[a].visit
  {
    if c.ScheduleVisit? {
      if ScheduleInspection(db, c.request, c.schedule, c.actor, c.now).Committed? {
        ScheduleInspectors(db, c.request, c.schedule, c.actor, c.now);
      }
    } else if c.Update? {
      if UpdateWorkflow(db, c.request, c.plan, c.actor, c.now).Committed? {
        UpdateInspectors(db, c.request, c.plan, c.actor, c.now);
      }
    } else if c.Install? || c.Allocate? {
      SetupInspectors(db, c, after);
    } else if c.Plant? {
      if CompletePlanting(db, c.request, c.at, c.actor, c.now).Committed? {
        PlantInspectors(db, c.request, c.at, c.actor, c.now);
      }
    } else if c.StartVisit? || c.Assess? || c.Submit? {
      VisitInspectors(db, c, after);
    } else {
      RecordInspectors(db, c, after);
    }
  }

  // ---------- Along a run ----------

  predicate ReassignsAt(trace: seq<Db>, acts: seq<Action>, n: nat, a: Id)
    requires |trace| == |acts| + 1 && n < |acts|
  {
    acts[n].Direct? && Reassigns(trace[n], acts[n].commit, a)
  }

  /** For each step that reschedules assignment `a`, the inspector it chooses. */
  function Choices(trace: seq<Db>, acts: seq<Action>, a: Id): (choices: seq<Option<Id>>)
    requires |trace| == |acts| + 1
    ensures |choices| == |acts|
  {
    seq(|acts|, n requires 0 <= n < |acts| =>
      if ReassignsAt(trace, acts, n, a) then Some(acts[n].commit.schedule.inspector) else None)
  }

  /** The choice of the last reschedule from state `i` up to `j`. */
  function LastChoice(choices: seq<Option<Id>>, i: nat, j: nat): Option<Id>
    requires i <= j <= |choices|
    decreases j
  {
    if i == j then None
    else if choices[j - 1].Some? then choices[j - 1]
    else LastChoice(choices, i, j - 1)
  }

  lemma NextInspectors(past: seq<Db>, x: Action, a: Id)
    requires past != [] && a < |past[|past| - 1].assignments|
    ensures var db, after := past[|past| - 1], Next(past, x);
            && a < |after.assignments|
            && after.assignments[a].inspector
               == if x.Direct? && Reassigns(db, x.commit, a) then x.commit.schedule.inspector
                  else db.assignments[a].inspector
  {
    if Resolve(past, x).Some? {
      EffectInspectors(past[|past| - 1], Resolve(past, x).value, Next(past, x));
    }
  }

  lemma RunInspectors(trace: seq<Db>, acts: seq<Action>, n: nat, a: Id)
    requires IsRun(trace, acts) && n < |acts| && a < |trace[n].assignments|
    ensures a < |trace[n + 1].assignments|
    ensures trace[n + 1].assignments[a].inspector
            == if ReassignsAt(trace, acts, n, a) then acts[n].commit.schedule.inspector
               else trace[n].assignments[a].inspector
  {
    NextInspectors(trace[..n + 1], acts[n], a);
  }

  predicate Followed(choices: seq<Option<Id>>, values: seq<Id>, n: nat)
    requires |values| == |choices| + 1 && n < |choices|
  {
    values[n + 1] == OrElse(choices[n], values[n])
  }

  /** A value that each choice replaces and every other step keeps is the last choice, or the first value. */
  lemma {:induction false} LastChoiceStands(choices: seq<Option<Id>>, values: seq<Id>, i: nat, j: nat)
    requires |values| == |choices| + 1 && i <= j <= |choices|
    requires forall n :: i <= n < |choices| ==> Followed(choices, values, n)
    ensures values[j] == OrElse(LastChoice(choices, i, j), values[i])
    decreases j
  {
    if i < j {
      LastChoiceStands(choices, values, i, j - 1);
      assert Followed(choices, values, j - 1);
    }
  }

  function InspectorsFrom(trace: seq<Db>, a: Id): seq<Id> {
    seq(|trace|, n requires 0 <= n < |trace| => if a < |trace[n].assignments| then trace[n].assignments[a].inspector else 0)
  }

  lemma AssignmentStays(trace: seq<Db>, acts: seq<Action>, i: nat, j: nat, a: Id)
    requires IsRun(trace, acts) && i <= j < |trace| && a < |trace[i].assignments|
    ensures a < |trace[j].assignments|
  {
    RunEvolves(trace, acts, i, j);
  }

  lemma InspectorFollows(trace: seq<Db>, acts: seq<Action>, a: Id, i: nat, n: nat)
    requires IsRun(trace, acts) && i <= n < |acts| && a < |trace[i].assignments|
    ensures Followed(Choices(trace, acts, a), InspectorsFrom(trace, a), n)
  {
    AssignmentStays(trace, acts, i, n, a);
    RunInspectors(trace, acts, n, a);
  }

  lemma InspectorsFollow(trace: seq<Db>, acts: seq<Action>, a: Id, i: nat)
    requires IsRun(trace, acts) && i < |trace| && a < |trace[i].assignments|
    ensures forall n :: i <= n < |acts| ==> Followed(Choices(trace, acts, a), InspectorsFrom(trace, a), n)
  {
    forall n | i <= n < |acts| ensures Followed(Choices(trace, acts, a), InspectorsFrom(trace, a), n) {
      InspectorFollows(trace, acts, a, i, n);
    }
  }

  lemma InspectorIsLastChoice(trace: seq<Db>, acts: seq<Action>, a: Id, i: nat, j: nat)
    requires IsRun(trace, acts) && i <= j < |trace| && a < |trace[i].assignments|
    ensures a < |trace[j].assignments|
    ensures trace[j].assignments[a].inspector
            == OrElse(LastChoice(Choices(trace, acts, a), i, j), trace[i].assignments[a].inspector)
  {
    AssignmentStays(trace, acts, i, j, a);
    InspectorsFollow(trace, acts, a, i);
    LastChoiceStands(Choices(trace, acts, a), InspectorsFrom(trace, a), i, j);
  }

  /** A report and its visit, once of the same inspector, disagree if and only if the last reschedule of
      the visit since then chose another inspector. */
  lemma InspectorsDisagreeExactly(trace: seq<Db>, acts: seq<Action>, id: Id, i: nat, j: nat)
    requires IsRun(trace, acts) && i <= j < |trace| && id < |trace[i].reports|
    requires var a := trace[i].reports[id].assignment;
             a < |trace[i].assignments| && trace[i].assignments[a].inspector == trace[i].reports[id].inspector
    ensures var a := trace[i].reports[id].assignment;
            && id < |trace[j].reports| && trace[j].reports[id].assignment == a && a < |trace[j].assignments|
            && var last := LastChoice(Choices(trace, acts, a), i, j);
               trace[j].assignments[a].inspector != trace[j].reports[id].inspector
               <==> last.Some? && last.value != trace[i].reports[id].inspector
  {
    RunEvolves(trace, acts, i, j);
    assert ReportEvolves(trace[i].reports[id], trace[j].reports[id]);
    InspectorIsLastChoice(trace, acts, trace[i].reports[id].assignment, i, j);
  }

  // ---------- Who can submit ----------

  /** A report can be submitted, by its own inspector and for its own visit, exactly while the visit is
      still that inspector's, the report is not submitted already, and its checklist is evidenced. */
  lemma CanBeSubmittedExactly(db: Db, id: Id, v: Assessment, overall: OverallStatus, followUp: bool, at: Time,
                              actor: Id, now: Time)
    requires id < |db.reports| && db.reports[id].assignment < |db.assignments|
    ensures (exists a, inspector :: SubmitForApproval(db, id, a, inspector, v, overall, followUp, at, actor, now).Committed?)
            <==> && db.assignments[db.reports[id].assignment].inspector == db.reports[id].inspector
                 && db.reports[id].status != SubmittedForApproval && Evidenced(db, id)
  {
    var a, inspector := db.reports[id].assignment, db.reports[id].inspector;
    SubmissionIsGated(db, id, a, inspector, v, overall, followUp, at, actor, now);
    forall b, other | SubmitForApproval(db, id, b, other, v, overall, followUp, at, actor, now).Committed?
      ensures b == a && other == inspector
    {
      SubmissionIsGated(db, id, b, other, v, overall, followUp, at, actor, now);
    }
  }
}
