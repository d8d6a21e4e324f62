/** A client that read long ago and whose commit still succeeds acted as if it had read just before. */
module StaleClients {
  import opened Wrappers
  import opened Domain
  import opened Transactions
  import opened Requests
  import opened Invariants
  import opened StatusPreservation
  import opened Runs
  import opened Journeys

  /** Step `n` is a status update that was planned from reads and then committed. */
  ghost predicate PatchCommits(trace: seq<Db>, acts: seq<Action>, n: nat, plan: StatusPlan)
    requires |trace| == |acts| + 1 && n < |acts|
  {
    var a := acts[n];
    && a.PatchStatus?
    && PlannedUpdate(trace[..n + 1], a) == Some(plan)
    && UpdateWorkflow(trace[n], a.request, plan, a.actor, a.now).Committed?
  }

  /** The plan's facts, free of the reads' slices. */
  lemma PlanRead(trace: seq<Db>, acts: seq<Action>, n: nat, plan: StatusPlan)
    requires |trace| == |acts| + 1 && n < |acts| && PatchCommits(trace, acts, n, plan)
    ensures var a := acts[n];
            && a.readRequest <= a.readReports <= a.readInstallations <= a.readBatches <= n
            && a.request < |trace[a.readRequest].requests|
            && PlanPatch(trace[a.readRequest].requests[a.request], a.target, a.notes,
                         Seen(trace[a.readReports], trace[a.readInstallations], trace[a.readBatches]),
                         a.actor, a.plannedAt) == Success(plan)
  {
  }

  lemma PatchResolves(past: seq<Db>, a: Action, plan: StatusPlan)
    requires past != [] && a.PatchStatus? && PlannedUpdate(past, a) == Some(plan)
    ensures Next(past, a) == Effect(past[|past| - 1], Update(a.request, plan, a.actor, a.now))
  {
  }

  lemma UpdateEffect(db: Db, r: Id, plan: StatusPlan, actor: Id, now: Time)
    ensures Effect(db, Update(r, plan, actor, now)) == After(db, UpdateWorkflow(db, r, plan, actor, now))
  {
  }

  lemma PatchNext(trace: seq<Db>, acts: seq<Action>, n: nat, plan: StatusPlan)
    requires IsRun(trace, acts) && n < |acts| && PatchCommits(trace, acts, n, plan)
    ensures trace[n + 1] == UpdateWorkflow(trace[n], acts[n].request, plan, acts[n].actor, acts[n].now).db
  {
    PatchResolves(trace[..n + 1], acts[n], plan);
    UpdateEffect(trace[n], acts[n].request, plan, acts[n].actor, acts[n].now);
  }

  lemma StatusHeld(trace: seq<Db>, acts: seq<Action>, r: Id, i: nat, j: nat)
    requires IsRun(trace, acts) && i <= j < |trace| && r < |trace[i].requests| && r < |trace[j].requests|
    requires trace[i].requests[r].status == trace[j].requests[r].status
    ensures forall m :: i <= m <= j ==>
              r < |trace[m].requests| && trace[m].requests[r].status == trace[i].requests[r].status
  {
    JourneyWalks(trace, acts, r, i);
    var js := Journey(trace, r, i);
    forall m | i <= m <= j ensures trace[m].requests[r].status == trace[i].requests[r].status {
      NoReturn(js, 0, m - i, j - i);
      assert js[m - i] == trace[m].requests[r].status && js[0] == trace[i].requests[r].status;
    }
  }

  lemma PlannedStep(trace: seq<Db>, acts: seq<Action>, n: nat, plan: StatusPlan)
    requires |trace| == |acts| + 1 && n < |acts| && PatchCommits(trace, acts, n, plan)
    ensures var a := acts[n];
            && a.readRequest <= n && a.request < |trace[a.readRequest].requests|
            && trace[a.readRequest].requests[a.request].status == plan.expected
            && PatchAllowed(plan.expected, a.target) && plan.patch.status == a.target
  {
    var a := acts[n];
    PlanRead(trace, acts, n, plan);
    PlansFit(trace[a.readRequest].requests[a.request], a.target, a.notes,
             Seen(trace[a.readReports], trace[a.readInstallations], trace[a.readBatches]), a.actor, a.plannedAt);
  }

  /** No ABA: a committed update's request kept the status it was read with, from the read to the
      commit; the commit then takes the one legal step it planned. */
  lemma CommitMeansUnchanged(trace: seq<Db>, acts: seq<Action>, n: nat, plan: StatusPlan)
    requires IsRun(trace, acts) && n < |acts| && PatchCommits(trace, acts, n, plan)
    ensures var a := acts[n];
            && (forall m :: a.readRequest <= m <= n ==>
                  a.request < |trace[m].requests| && trace[m].requests[a.request].status == plan.expected)
            && PatchAllowed(plan.expected, a.target)
            && a.request < |trace[n + 1].requests| && trace[n + 1].requests[a.request].status == a.target
  {
    var a := acts[n];
    PlannedStep(trace, acts, n, plan);
    UpdateRequests(trace[n], a.request, plan, a.actor, a.now);
    PatchNext(trace, acts, n, plan);
    StatusHeld(trace, acts, a.request, a.readRequest, n);
  }

  // ---------- Stale allocations ----------

  ghost predicate AllocationCommits(trace: seq<Db>, acts: seq<Action>, n: nat, v: Allocation)
    requires |trace| == |acts| + 1 && n < |acts|
  {
    && acts[n].AllocateGarden? && PlannedAllocation(trace[..n + 1], acts[n]) == Some(v)
    && CompleteAllocation(trace[n], acts[n].request, v, acts[n].actor, acts[n].now).Committed?
  }

  lemma AllocationRead(trace: seq<Db>, acts: seq<Action>, n: nat, v: Allocation)
    requires |trace| == |acts| + 1 && n < |acts| && AllocationCommits(trace, acts, n, v)
    ensures var a := acts[n];
            && a.readRequest <= n && a.request < |trace[a.readRequest].requests|
            && trace[a.readRequest].requests[a.request].status == ImplementsInstalled
  {
  }

  lemma AllocationTaken(db: Db, r: Id, v: Allocation, actor: Id, now: Time)
    requires CompleteAllocation(db, r, v, actor, now).Committed?
    ensures r < |db.requests| && db.requests[r].status == ImplementsInstalled && ApprovedHere(db, v.report, v.property)
    ensures v.property < |db.properties| && db.properties[v.property].owner == db.requests[r].owner
  {
  }

  /** A committed allocation's request was in `implements_installed` at every moment from the read to the
      commit, and the report it had read to be approved still is. */
  lemma AllocationMeansUnchanged(trace: seq<Db>, acts: seq<Action>, n: nat, v: Allocation)
    requires IsRun(trace, acts) && n < |acts| && AllocationCommits(trace, acts, n, v)
    ensures var a := acts[n];
            && (forall m :: a.readRequest <= m <= n ==>
                  a.request < |trace[m].requests| && trace[m].requests[a.request].status == ImplementsInstalled)
            && ApprovedHere(trace[n], v.report, v.property)
  {
    AllocationRead(trace, acts, n, v);
    AllocationTaken(trace[n], acts[n].request, v, acts[n].actor, acts[n].now);
    StatusHeld(trace, acts, acts[n].request, acts[n].readRequest, n);
  }

  lemma GardenStays(trace: seq<Db>, acts: seq<Action>, i: nat, j: nat, report: Id)
    requires IsRun(trace, acts) && i <= j < |trace| && report < |trace[i].reports|
    ensures report < |trace[j].reports| && trace[j].reports[report].garden == trace[i].reports[report].garden
  {
    RunEvolves(trace, acts, i, j);
    assert ReportEvolves(trace[i].reports[report], trace[j].reports[report]);
  }

  lemma PropertyStays(trace: seq<Db>, acts: seq<Action>, i: nat, j: nat, r: Id)
    requires IsRun(trace, acts) && i <= j < |trace| && r < |trace[i].requests|
    requires trace[i].requests[r].property.Some?
    ensures r < |trace[j].requests| && trace[j].requests[r].property == trace[i].requests[r].property
  {
    RunEvolves(trace, acts, i, j);
    assert RequestEvolves(trace[i].requests[r], trace[j].requests[r]);
  }

  lemma ReportAfterUpdate(db: Db, r: Id, plan: StatusPlan, actor: Id, now: Time)
    requires UpdateWorkflow(db, r, plan, actor, now).Committed? && plan.decision.Some?
    ensures DecisionStillPending(db, plan.decision.value)
    ensures var d := plan.decision.value;
            var after := UpdateWorkflow(db, r, plan, actor, now).db;
            && |after.reports| == |db.reports|
            && after.reports[d.report].status == d.status
            && forall i :: 0 <= i < |db.reports| && i != d.report ==> after.reports[i] == db.reports[i]
  {
    UpdateIs(db, r, plan, actor, now);
  }

  /** The report decided with an acceptance or a rejection is one of the request's own garden, still
      submitted when the decision commits, and it is the only report that changes. */
  lemma DecisionIsOwn(trace: seq<Db>, acts: seq<Action>, n: nat, plan: StatusPlan)
    requires IsRun(trace, acts) && n < |acts| && PatchCommits(trace, acts, n, plan)
    ensures acts[n].target == Accepted ==> plan.decision.Some? && plan.decision.value.status == Approved
    ensures plan.decision.Some? && acts[n].target != Accepted ==>
              acts[n].target == Rejected && plan.decision.value.status == AssessmentRejected
    ensures plan.decision.Some? ==>
              var d, q := plan.decision.value.report, acts[n].request;
              && d < |trace[n].reports| == |trace[n + 1].reports| && q < |trace[n].requests|
              && trace[n].requests[q].property == Some(trace[n].reports[d].garden)
              && trace[n].reports[d].status == SubmittedForApproval
              && trace[n + 1].reports[d].status == plan.decision.value.status
              && forall i :: 0 <= i < |trace[n].reports| && i != d ==> trace[n + 1].reports[i] == trace[n].reports[i]
  {
    var a := acts[n];
    PlanRead(trace, acts, n, plan);
    DecidedFromRead(trace[a.readRequest].requests[a.request], a.target, a.notes,
                    Seen(trace[a.readReports], trace[a.readInstallations], trace[a.readBatches]),
                    a.actor, a.plannedAt, plan);
    PatchNext(trace, acts, n, plan);
    if plan.decision.Some? {
      ReportAfterUpdate(trace[n], a.request, plan, a.actor, a.now);
      PropertyStays(trace, acts, a.readRequest, n, a.request);
      GardenStays(trace, acts, a.readReports, n, plan.decision.value.report);
    }
  }

  /** An acceptance approves, a rejection rejects, and nothing else decides; a planned decision names a report
      the client read, of the garden the client read. */
  lemma DecidedFromRead(row: Request, target: RequestStatus, notes: Option<string>, seen: Seen, actor: Id, now: Time,
                        plan: StatusPlan)
    requires PlanPatch(row, target, notes, seen, actor, now) == Success(plan)
    ensures target == Accepted ==> plan.decision.Some? && plan.decision.value.status == Approved
    ensures plan.decision.Some? && target != Accepted ==>
              target == Rejected && plan.decision.value.status == AssessmentRejected
    ensures plan.decision.Some? ==>
            var d := plan.decision.value.report;
            d < |seen.d1.reports| && row.property == Some(seen.d1.reports[d].garden)
  {
  }
}
