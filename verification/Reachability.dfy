/** Every submitted request can become a living garden: from any reachable state, a run continues through
    a real inspection, approval, installation, allocation and planting until the request is live. */
module Reachability {
  import opened Wrappers
  import opened Domain
  import opened Transactions
  import opened Requests
  import opened Endpoints
  import opened Scoring
  import opened Invariants
  import opened StatusPreservation
  import opened Runs
  import opened Journeys
  import opened StaleClients
  import opened VisitLaws
  import opened ReportLaws
  import opened Achievements
  import opened Enabledness
  import Texts

  function Last(trace: seq<Db>): Db
    requires trace != []
  {
    trace[|trace| - 1]
  }

  lemma Extended(trace: seq<Db>, acts: seq<Action>, a: Action)
    requires IsRun(trace, acts)
    ensures IsRun(trace + [Next(trace, a)], acts + [a])
  {
    var more, mores := trace + [Next(trace, a)], acts + [a];
    forall n | 0 <= n < |mores| ensures more[n + 1] == Next(more[..n + 1], mores[n]) {
      assert more[..n + 1] == trace[..n + 1];
      if n == |acts| {
        assert trace[..n + 1] == trace;
      }
    }
  }

  /** A client acting on its own input, at once. */
  lemma Act(trace: seq<Db>, acts: seq<Action>, c: Commit) returns (trace': seq<Db>, acts': seq<Action>)
    requires IsRun(trace, acts) && Guarded(c) && !c.Update? && !c.SetDetails? && !c.Assess? && !c.Allocate?
    ensures IsRun(trace', acts') && trace <= trace' && acts <= acts' && |trace'| == |trace| + 1
    ensures acts'[|acts|] == Direct(c) && Last(trace') == Effect(Last(trace), c)
  {
    Extended(trace, acts, Direct(c));
    trace', acts' := trace + [Next(trace, Direct(c))], acts + [Direct(c)];
  }

  /** A client reading everything now and committing at once. */
  function PatchNow(now: nat, r: Id, target: RequestStatus): Action {
    PatchStatus(r, target, None, 0, now, now, now, now, 0, 0)
  }

  function PlanNow(db: Db, r: Id, target: RequestStatus): Result<StatusPlan, ErrorCode>
    requires r < |db.requests|
  {
    PlanPatch(db.requests[r], target, None, Seen(db, db, db), 0, 0)
  }

  lemma Patch(trace: seq<Db>, acts: seq<Action>, r: Id, target: RequestStatus)
    returns (trace': seq<Db>, acts': seq<Action>)
    requires IsRun(trace, acts) && r < |Last(trace).requests| && PlanNow(Last(trace), r, target).Success?
    requires UpdateWorkflow(Last(trace), r, PlanNow(Last(trace), r, target).value, 0, 0).Committed?
    ensures IsRun(trace', acts') && trace <= trace' && acts <= acts'
    ensures Last(trace') == UpdateWorkflow(Last(trace), r, PlanNow(Last(trace), r, target).value, 0, 0).db
  {
    var a := PatchNow(|trace| - 1, r, target);
    Extended(trace, acts, a);
    PatchResolves(trace, a, PlanNow(Last(trace), r, target).value);
    UpdateEffect(Last(trace), r, PlanNow(Last(trace), r, target).value, 0, 0);
    trace', acts' := trace + [Next(trace, a)], acts + [a];
  }

  // ---------- The inspection ----------

  const BASIL := Crop(0, "Basil", None)
  const SITE_VISIT := Visit(0, 0, Medium, "")
  const SUNNY_SITE := SiteFacts(8.0, ReliableWater, 12.0, ["raised_bed"], [])
  const PASSED := Assessment(FindingsOf(SUNNY_SITE, ["Basil"], ["Raised bed"]), None, Gps(None, None))

  function VisitBy(inspector: Id): Schedule {
    Schedule(inspector, SITE_VISIT, [], None, None)
  }

  predicate VisitOf(db: Db, a: Id, p: Id, inspector: Id) {
    && a < |db.assignments| && Open(db.assignments[a])
    && db.assignments[a].inspector == inspector && db.assignments[a].garden == p
  }

  /** The request's visit is open for the inspector, and neither it nor its garden has a report. */
  ghost predicate Visiting(db: Db, r: Id, p: Id, a: Id, inspector: Id) {
    && r < |db.requests| && db.requests[r].status == InspectionScheduled && db.requests[r].property == Some(p)
    && VisitOf(db, a, p, inspector) && db.assignments[a].visit == SITE_VISIT
    && (forall i :: 0 <= i < |db.reports| ==> db.reports[i].garden != p && db.reports[i].assignment != a)
  }

  lemma NewVisit(db: Db, r: Id, inspector: Id)
    requires RowsFit(db) && r < |db.requests| && db.requests[r].status == Submitted
    requires ScheduleInspection(db, r, VisitBy(inspector), 0, 0).Committed?
    ensures var after := ScheduleInspection(db, r, VisitBy(inspector), 0, 0).db;
            && Visiting(after, r, |db.properties|, |db.assignments|, inspector)
            && db.assignments <= after.assignments && after.inspectorActive == db.inspectorActive
  {
    assert RequestLinked(db.requests[r], db.properties);
    ScheduledVisit(db, r, VisitBy(inspector), 0, 0);
    SchedulingIs(db, r, VisitBy(inspector), 0, 0);
    assert LatestOpen(db.assignments, |db.properties|).None?;
  }

  lemma BeginInspection(trace: seq<Db>, acts: seq<Action>, r: Id, inspector: Id)
    returns (trace': seq<Db>, acts': seq<Action>, p: Id, a: Id)
    requires IsRun(trace, acts) && r < |Last(trace).requests| && Last(trace).requests[r].status == Submitted
    requires inspector < |Last(trace).inspectorActive| && Last(trace).inspectorActive[inspector]
    ensures IsRun(trace', acts') && trace <= trace' && acts <= acts'
    ensures Visiting(Last(trace'), r, p, a, inspector)
    ensures Last(trace).assignments <= Last(trace').assignments && a == |Last(trace).assignments|
    ensures Last(trace').inspectorActive == Last(trace).inspectorActive
  {
    var db := Last(trace);
    EveryStateFits(trace, acts, |trace| - 1);
    SchedulingCommitsExactly(db, r, VisitBy(inspector), 0, 0);
    NewVisit(db, r, inspector);
    trace', acts' := Act(trace, acts, ScheduleVisit(r, VisitBy(inspector), 0, 0));
    p, a := |db.properties|, |db.assignments|;
  }

  /** The visit's report is a draft with a checklist, the only report of its garden. */
  ghost predicate Inspecting(db: Db, r: Id, p: Id, a: Id, id: Id, inspector: Id) {
    && r < |db.requests| && db.requests[r].status == InspectionScheduled && db.requests[r].property == Some(p)
    && VisitOf(db, a, p, inspector)
    && id < |db.reports| && db.reports[id].assignment == a && db.reports[id].inspector == inspector
    && db.reports[id].garden == p && db.reports[id].status == Draft
    && (forall i :: 0 <= i < |db.reports| && db.reports[i].garden == p ==> i == id)
    && HasChecklist(db.items, id)
  }

  lemma NewReport(db: Db, r: Id, p: Id, a: Id, inspector: Id)
    requires Visiting(db, r, p, a, inspector) && Homed(db.items, db.photos, db.reports)
    ensures var out := StartReport(db, a, inspector, Gps(None, None), CHECKLIST_TEMPLATE, 0);
            && out.Committed? && Inspecting(out.db, r, p, a, |db.reports|, inspector)
            && |out.db.assignments| == |db.assignments| && out.db.inspectorActive == db.inspectorActive
            && forall b :: 0 <= b < |db.assignments| && b != a ==> out.db.assignments[b] == db.assignments[b]
  {
    FirstWhereIs(db.reports, (x: Report) => x.assignment == a);
    var out := StartReport(db, a, inspector, Gps(None, None), CHECKLIST_TEMPLATE, 0);
    assert out.db.items == db.items + SeededItems(|db.reports|, CHECKLIST_TEMPLATE);
    assert out.db.items[|db.items|].report == |db.reports|;
  }

  lemma StartInspection(trace: seq<Db>, acts: seq<Action>, r: Id, p: Id, a: Id, inspector: Id)
    returns (trace': seq<Db>, acts': seq<Action>, id: Id)
    requires IsRun(trace, acts) && Visiting(Last(trace), r, p, a, inspector)
    ensures IsRun(trace', acts') && trace <= trace' && acts <= acts'
    ensures Inspecting(Last(trace'), r, p, a, id, inspector)
    ensures |Last(trace').assignments| == |Last(trace).assignments|
    ensures Last(trace').inspectorActive == Last(trace).inspectorActive
    ensures forall b :: 0 <= b < |Last(trace).assignments| && b != a ==>
              Last(trace').assignments[b] == Last(trace).assignments[b]
  {
    ReportsAreScored(trace, acts, |trace| - 1);
    NewReport(Last(trace), r, p, a, inspector);
    trace', acts' := Act(trace, acts, StartVisit(a, inspector, Gps(None, None), 0));
    id := |Last(trace).reports|;
  }

  // ---------- Answering the checklist ----------

  /** The report's items before `k` have a result and a photo of their own. */
  ghost predicate AnsweredTo(db: Db, id: Id, k: nat) {
    forall m :: 0 <= m < k && m < |db.items| && db.items[m].report == id ==>
      db.items[m].result == ItemPass && Photo(id, Some(m), Extra) in db.photos
  }

  function Passing(row: ChecklistItem): ChecklistItem {
    row.(result := ItemPass)
  }

  lemma ItemAnswered(db: Db, r: Id, p: Id, a: Id, id: Id, inspector: Id, k: nat)
    requires Inspecting(db, r, p, a, id, inspector) && AnsweredTo(db, id, k)
    requires k < |db.items| && db.items[k].report == id
    ensures var out := SaveItem(db, k, Passing(db.items[k]), inspector);
            && out.Committed? && Inspecting(out.db, r, p, a, id, inspector) && AnsweredTo(out.db, id, k)
            && |out.db.items| == |db.items| && out.db.items[k].report == id && out.db.items[k].result == ItemPass
            && out.db.inspectorActive == db.inspectorActive
  {
    var after := SaveItem(db, k, Passing(db.items[k]), inspector).db;
    assert after.items[k].report == id;
  }

  lemma ItemPhotographed(db: Db, r: Id, p: Id, a: Id, id: Id, inspector: Id, k: nat)
    requires Inspecting(db, r, p, a, id, inspector) && AnsweredTo(db, id, k)
    requires k < |db.items| && db.items[k].report == id && db.items[k].result == ItemPass
    ensures var out := AddPhoto(db, Photo(id, Some(k), Extra), inspector);
            && out.Committed? && Inspecting(out.db, r, p, a, id, inspector) && AnsweredTo(out.db, id, k + 1)
            && out.db.items == db.items && out.db.inspectorActive == db.inspectorActive
  {
    var photo := Photo(id, Some(k), Extra);
    var after := AddPhoto(db, photo, inspector).db;
    assert after.photos == db.photos + [photo] && photo in after.photos;
  }

  /** One item at a time: the inspector records a result and uploads a photo of it. */
  lemma {:induction false} AnswerFrom(trace: seq<Db>, acts: seq<Action>, r: Id, p: Id, a: Id, id: Id, inspector: Id, k: nat)
    returns (trace': seq<Db>, acts': seq<Action>)
    requires IsRun(trace, acts) && Inspecting(Last(trace), r, p, a, id, inspector) && AnsweredTo(Last(trace), id, k)
    requires k <= |Last(trace).items|
    ensures IsRun(trace', acts') && trace <= trace' && acts <= acts'
    ensures Inspecting(Last(trace'), r, p, a, id, inspector) && AnsweredTo(Last(trace'), id, |Last(trace').items|)
    ensures Last(trace').inspectorActive == Last(trace).inspectorActive
    decreases |Last(trace).items| - k
  {
    trace', acts' := trace, acts;
    if k < |Last(trace).items| {
      if Last(trace).items[k].report == id {
        trace', acts' := AnswerOne(trace, acts, r, p, a, id, inspector, k);
      }
      trace', acts' := AnswerFrom(trace', acts', r, p, a, id, inspector, k + 1);
    }
  }

  lemma RecordAnswer(trace: seq<Db>, acts: seq<Action>, r: Id, p: Id, a: Id, id: Id, inspector: Id, k: nat)
    returns (trace': seq<Db>, acts': seq<Action>)
    requires IsRun(trace, acts) && Inspecting(Last(trace), r, p, a, id, inspector) && AnsweredTo(Last(trace), id, k)
    requires k < |Last(trace).items| && Last(trace).items[k].report == id
    ensures IsRun(trace', acts') && trace <= trace' && acts <= acts'
    ensures Inspecting(Last(trace'), r, p, a, id, inspector) && AnsweredTo(Last(trace'), id, k)
    ensures |Last(trace').items| == |Last(trace).items|
    ensures Last(trace').items[k].report == id && Last(trace').items[k].result == ItemPass
    ensures Last(trace').inspectorActive == Last(trace).inspectorActive
  {
    ReportsAreScored(trace, acts, |trace| - 1);
    ItemAnswered(Last(trace), r, p, a, id, inspector, k);
    trace', acts' := Act(trace, acts, RecordItem(k, Passing(Last(trace).items[k]), inspector));
  }

  lemma AnswerOne(trace: seq<Db>, acts: seq<Action>, r: Id, p: Id, a: Id, id: Id, inspector: Id, k: nat)
    returns (trace': seq<Db>, acts': seq<Action>)
    requires IsRun(trace, acts) && Inspecting(Last(trace), r, p, a, id, inspector) && AnsweredTo(Last(trace), id, k)
    requires k < |Last(trace).items| && Last(trace).items[k].report == id
    ensures IsRun(trace', acts') && trace <= trace' && acts <= acts'
    ensures Inspecting(Last(trace'), r, p, a, id, inspector) && AnsweredTo(Last(trace'), id, k + 1)
    ensures |Last(trace').items| == |Last(trace).items|
    ensures Last(trace').inspectorActive == Last(trace).inspectorActive
  {
    var trace1, acts1 := RecordAnswer(trace, acts, r, p, a, id, inspector, k);
    ItemPhotographed(Last(trace1), r, p, a, id, inspector, k);
    trace', acts' := Act(trace1, acts1, TakePhoto(Photo(id, Some(k), Extra), inspector));
  }

  lemma AnsweredIsEvidenced(db: Db, id: Id)
    requires HasChecklist(db.items, id) && AnsweredTo(db, id, |db.items|)
    ensures Evidenced(db, id)
  {
    PhotosOfAre(db.photos, id);
  }

  /** The report awaits a decision: a suitable site, with basil recommended. */
  ghost predicate Awaiting(db: Db, r: Id, p: Id, id: Id) {
    && r < |db.requests| && db.requests[r].status == InspectionScheduled && db.requests[r].property == Some(p)
    && id < |db.reports| && db.reports[id].garden == p && db.reports[id].status == SubmittedForApproval
    && db.reports[id].findings == Some(PASSED.findings) && db.reports[id].submittedAt.Some?
    && (forall i :: 0 <= i < |db.reports| && db.reports[i].garden == p ==> i == id)
  }

  lemma NewSubmission(db: Db, r: Id, p: Id, a: Id, id: Id, inspector: Id)
    requires Inspecting(db, r, p, a, id, inspector) && Evidenced(db, id)
    ensures var out := SubmitForApproval(db, id, a, inspector, PASSED, Pass, false, 0, 0, 0);
            out.Committed? && Awaiting(out.db, r, p, id)
  {
    SubmissionIsGated(db, id, a, inspector, PASSED, Pass, false, 0, 0, 0);
  }

  lemma AnswerChecklist(trace: seq<Db>, acts: seq<Action>, r: Id, p: Id, a: Id, id: Id, inspector: Id)
    returns (trace': seq<Db>, acts': seq<Action>)
    requires IsRun(trace, acts) && Inspecting(Last(trace), r, p, a, id, inspector)
    ensures IsRun(trace', acts') && trace <= trace' && acts <= acts'
    ensures Inspecting(Last(trace'), r, p, a, id, inspector) && Evidenced(Last(trace'), id)
    ensures Last(trace').inspectorActive == Last(trace).inspectorActive
  {
    trace', acts' := AnswerFrom(trace, acts, r, p, a, id, inspector, 0);
    AnsweredIsEvidenced(Last(trace'), id);
  }

  lemma PassedIsScored()
    ensures ScoredSubmission(PASSED, Pass, false)
  {
  }

  lemma SubmitInspection(trace: seq<Db>, acts: seq<Action>, r: Id, p: Id, a: Id, id: Id, inspector: Id)
    returns (trace': seq<Db>, acts': seq<Action>)
    requires IsRun(trace, acts) && Inspecting(Last(trace), r, p, a, id, inspector) && Evidenced(Last(trace), id)
    ensures IsRun(trace', acts') && trace <= trace' && acts <= acts'
    ensures Awaiting(Last(trace'), r, p, id)
  {
    NewSubmission(Last(trace), r, p, a, id, inspector);
    PassedIsScored();
    trace', acts' := Act(trace, acts, Submit(id, a, inspector, PASSED, Pass, false, 0, 0, 0));
  }

  // ---------- From approval to the living garden ----------

  /** The request has reached `s` and its garden has an approved report that recommends basil. */
  ghost predicate Backed(db: Db, r: Id, p: Id, id: Id, s: RequestStatus) {
    && r < |db.requests| && db.requests[r].status == s && db.requests[r].property == Some(p)
    && ApprovedHere(db, id, p) && Recommended(db.reports[id]) == ["Basil"]
    && (forall i :: 0 <= i < |db.reports| && db.reports[i].garden == p ==> i == id)
  }

  lemma AcceptedReport(db: Db, r: Id, p: Id, id: Id)
    requires Awaiting(db, r, p, id) && PlanNow(db, r, Accepted).Success?
    requires UpdateWorkflow(db, r, PlanNow(db, r, Accepted).value, 0, 0).Committed?
    ensures Backed(UpdateWorkflow(db, r, PlanNow(db, r, Accepted).value, 0, 0).db, r, p, id, Accepted)
  {
    UpdateIs(db, r, PlanNow(db, r, Accepted).value, 0, 0);
  }

  lemma AcceptanceGoesThrough(db: Db, r: Id, p: Id, id: Id)
    requires Inv(db) && Awaiting(db, r, p, id)
    ensures PlanNow(db, r, Accepted).Success?
    ensures UpdateWorkflow(db, r, PlanNow(db, r, Accepted).value, 0, 0).Committed?
  {
    LatestReportIs(db.reports, p, SubmittedForApproval);
    assert PendingReport(db, db.requests[r].property) == Some(id);
    AcceptanceCommitsExactly(db, r, None, 0, 0, 0);
  }

  lemma Approve(trace: seq<Db>, acts: seq<Action>, r: Id, p: Id, id: Id) returns (trace': seq<Db>, acts': seq<Action>)
    requires IsRun(trace, acts) && Awaiting(Last(trace), r, p, id)
    ensures IsRun(trace', acts') && trace <= trace' && acts <= acts'
    ensures Backed(Last(trace'), r, p, id, Accepted)
  {
    var db := Last(trace);
    EveryStateFits(trace, acts, |trace| - 1);
    AcceptanceGoesThrough(db, r, p, id);
    AcceptedReport(db, r, p, id);
    trace', acts' := Patch(trace, acts, r, Accepted);
  }

  lemma BegunPlan(db: Db, r: Id)
    requires r < |db.requests| && db.requests[r].status == Accepted
    ensures var plan := PlanNow(db, r, NeedingImplements);
            plan.Success? && FittingPlan(plan.value) && plan.value.expected == Accepted
            && plan.value.patch.status == NeedingImplements && plan.value.assignment.None? && plan.value.decision.None?
  {
    PlansFit(db.requests[r], NeedingImplements, None, Seen(db, db, db), 0, 0);
  }

  /** A status update without a decision leaves every report alone. */
  lemma UndecidedReports(db: Db, r: Id, plan: StatusPlan)
    requires plan.decision.None? && UpdateWorkflow(db, r, plan, 0, 0).Committed?
    ensures UpdateWorkflow(db, r, plan, 0, 0).db.reports == db.reports
    ensures r < |db.requests|
    ensures UpdateWorkflow(db, r, plan, 0, 0).db.requests == db.requests[r := PatchedRequest(db.requests[r], plan.patch)]
  {
    UpdateIs(db, r, plan, 0, 0);
  }

  lemma BeginWork(trace: seq<Db>, acts: seq<Action>, r: Id, p: Id, id: Id) returns (trace': seq<Db>, acts': seq<Action>)
    requires IsRun(trace, acts) && Backed(Last(trace), r, p, id, Accepted)
    ensures IsRun(trace', acts') && trace <= trace' && acts <= acts'
    ensures Backed(Last(trace'), r, p, id, NeedingImplements)
  {
    var db := Last(trace);
    EveryStateFits(trace, acts, |trace| - 1);
    BegunPlan(db, r);
    UpdateCommitsExactly(db, r, PlanNow(db, r, NeedingImplements).value, 0, 0);
    UndecidedReports(db, r, PlanNow(db, r, NeedingImplements).value);
    trace', acts' := Patch(trace, acts, r, NeedingImplements);
  }

  const FACTS := InstallationFacts("raised_bed", 4.0, 12, ["beds.jpg"], "Four raised beds")

  lemma FactsAreValid()
    ensures ValidFacts(FACTS)
  {
  }

  lemma InstallationGoesThrough(db: Db, r: Id, p: Id, id: Id)
    requires Inv(db) && Backed(db, r, p, id, NeedingImplements)
    ensures CompleteInstallation(db, r, p, FACTS, 0, 0, 0).Committed?
    ensures Backed(CompleteInstallation(db, r, p, FACTS, 0, 0, 0).db, r, p, id, ImplementsInstalled)
  {
    BackedApproval(db, r, p, id, NeedingImplements);
    InstallationCommitsExactly(db, r, p, FACTS, 0, 0, 0);
    InstalledStillBacked(db, r, p, id);
  }

  lemma BackedApproval(db: Db, r: Id, p: Id, id: Id, s: RequestStatus)
    requires Backed(db, r, p, id, s)
    ensures ApprovedReport(db.reports, p).Some?
  {
    FirstWhereIs(db.reports, (x: Report) => x.garden == p && x.status == Approved);
  }

  lemma InstalledStillBacked(db: Db, r: Id, p: Id, id: Id)
    requires Backed(db, r, p, id, NeedingImplements) && CompleteInstallation(db, r, p, FACTS, 0, 0, 0).Committed?
    ensures Backed(CompleteInstallation(db, r, p, FACTS, 0, 0, 0).db, r, p, id, ImplementsInstalled)
  {
    InstallationIs(db, r, p, FACTS, 0, 0, 0);
  }

  lemma InstallGarden(trace: seq<Db>, acts: seq<Action>, r: Id, p: Id, id: Id)
    returns (trace': seq<Db>, acts': seq<Action>)
    requires IsRun(trace, acts) && Backed(Last(trace), r, p, id, NeedingImplements)
    ensures IsRun(trace', acts') && trace <= trace' && acts <= acts'
    ensures Backed(Last(trace'), r, p, id, ImplementsInstalled)
  {
    EveryStateFits(trace, acts, |trace| - 1);
    InstallationGoesThrough(Last(trace), r, p, id);
    FactsAreValid();
    trace', acts' := Act(trace, acts, Install(r, p, FACTS, 0, 0, 0));
  }

  const BASIL_FORM := AllocationForm(["Basil"], None, None)

  lemma BasilIsNamed()
    ensures ValidForm(BASIL_FORM) && Texts.Cleaned(BASIL_FORM.plants) == ["Basil"]
  {
    assert BASIL_FORM.plants[..0] == [] && Texts.Stripped("Basil") == "Basil";
  }

  /** An administrator allocating basil, reading everything now. */
  lemma BasilPlan(db: Db, r: Id, p: Id, id: Id) returns (v: Allocation)
    requires Backed(db, r, p, id, ImplementsInstalled)
    ensures PlanAllocation(db.requests[r], db.reports, BASIL_FORM, [BASIL]) == Success(v)
    ensures v.property == p && v.report == id && v.crops == [BASIL]
  {
    LatestReportIs(db.reports, p, Approved);
    v := PlanAllocation(db.requests[r], db.reports, BASIL_FORM, [BASIL]).value;
  }

  lemma AllocatedStillBacked(db: Db, r: Id, p: Id, id: Id, v: Allocation)
    requires Backed(db, r, p, id, ImplementsInstalled) && CompleteAllocation(db, r, v, 0, 0).Committed?
    ensures Backed(CompleteAllocation(db, r, v, 0, 0).db, r, p, id, Seeds)
  {
    AllocationIs(db, r, v, 0, 0);
  }

  lemma AllocationGoesThrough(db: Db, r: Id, p: Id, id: Id, v: Allocation)
    requires Inv(db) && Backed(db, r, p, id, ImplementsInstalled)
    requires v.property == p && v.report == id && v.crops == [BASIL]
    ensures CompleteAllocation(db, r, v, 0, 0).Committed?
    ensures Backed(CompleteAllocation(db, r, v, 0, 0).db, r, p, id, Seeds)
  {
    AllocationCommitsExactly(db, r, v, 0, 0);
    AllocatedStillBacked(db, r, p, id, v);
  }

  lemma AllocationNext(past: seq<Db>, x: Action, v: Allocation)
    requires past != [] && x.AllocateGarden? && PlannedAllocation(past, x) == Some(v)
    ensures Next(past, x) == After(Last(past), CompleteAllocation(Last(past), x.request, v, x.actor, x.now))
  {
  }

  lemma AllocateCrops(trace: seq<Db>, acts: seq<Action>, r: Id, p: Id, id: Id)
    returns (trace': seq<Db>, acts': seq<Action>)
    requires IsRun(trace, acts) && Backed(Last(trace), r, p, id, ImplementsInstalled)
    ensures IsRun(trace', acts') && trace <= trace' && acts <= acts'
    ensures Backed(Last(trace'), r, p, id, Seeds)
  {
    var n := |trace| - 1;
    EveryStateFits(trace, acts, n);
    var v := BasilPlan(trace[n], r, p, id);
    BasilIsNamed();
    AllocationGoesThrough(trace[n], r, p, id, v);
    var x := AllocateGarden(r, BASIL_FORM, [BASIL], 0, n, n, 0);
    Extended(trace, acts, x);
    AllocationNext(trace, x, v);
    trace', acts' := trace + [Next(trace, x)], acts + [x];
  }

  lemma PlantedStillBacked(db: Db, r: Id, p: Id, id: Id)
    requires Backed(db, r, p, id, Seeds) && CompletePlanting(db, r, 0, 0, 0).Committed?
    ensures Backed(CompletePlanting(db, r, 0, 0, 0).db, r, p, id, FinalInstall)
  {
    PlantingIs(db, r, 0, 0, 0);
  }

  lemma PlantGarden(trace: seq<Db>, acts: seq<Action>, r: Id, p: Id, id: Id)
    returns (trace': seq<Db>, acts': seq<Action>)
    requires IsRun(trace, acts) && Backed(Last(trace), r, p, id, Seeds)
    ensures IsRun(trace', acts') && trace <= trace' && acts <= acts'
    ensures Backed(Last(trace'), r, p, id, FinalInstall)
  {
    EveryStateFits(trace, acts, |trace| - 1);
    PlantingCommits(Last(trace), r, 0, 0, 0);
    PlantedStillBacked(Last(trace), r, p, id);
    trace', acts' := Act(trace, acts, Plant(r, 0, 0, 0));
  }

  lemma GoLive(trace: seq<Db>, acts: seq<Action>, r: Id, p: Id, id: Id)
    returns (trace': seq<Db>, acts': seq<Action>)
    requires IsRun(trace, acts) && Backed(Last(trace), r, p, id, FinalInstall)
    ensures IsRun(trace', acts') && trace <= trace' && acts <= acts'
    ensures r < |Last(trace').requests| && Last(trace').requests[r].status == Live
  {
    var db := Last(trace);
    EveryStateFits(trace, acts, |trace| - 1);
    BackedApproval(db, r, p, id, FinalInstall);
    ActivationCommitsExactly(db, r, None, 0, 0, 0);
    PlansFit(db.requests[r], Live, None, Seen(db, db, db), 0, 0);
    UpdateRequests(db, r, PlanNow(db, r, Live).value, 0, 0);
    trace', acts' := Patch(trace, acts, r, Live);
  }

  // ---------- The whole way ----------

  lemma Inspect(trace: seq<Db>, acts: seq<Action>, r: Id, inspector: Id)
    returns (trace': seq<Db>, acts': seq<Action>, p: Id, a: Id, id: Id)
    requires IsRun(trace, acts) && r < |Last(trace).requests| && Last(trace).requests[r].status == Submitted
    requires inspector < |Last(trace).inspectorActive| && Last(trace).inspectorActive[inspector]
    ensures IsRun(trace', acts') && trace <= trace' && acts <= acts'
    ensures Inspecting(Last(trace'), r, p, a, id, inspector) && Evidenced(Last(trace'), id)
    ensures Last(trace').inspectorActive == Last(trace).inspectorActive
  {
    trace', acts', p, a := BeginInspection(trace, acts, r, inspector);
    trace', acts', id := StartInspection(trace', acts', r, p, a, inspector);
    trace', acts' := AnswerChecklist(trace', acts', r, p, a, id, inspector);
  }

  lemma SetUpGarden(trace: seq<Db>, acts: seq<Action>, r: Id, p: Id, id: Id)
    returns (trace': seq<Db>, acts': seq<Action>)
    requires IsRun(trace, acts) && Awaiting(Last(trace), r, p, id)
    ensures IsRun(trace', acts') && trace <= trace' && acts <= acts'
    ensures Backed(Last(trace'), r, p, id, ImplementsInstalled)
  {
    trace', acts' := Approve(trace, acts, r, p, id);
    trace', acts' := BeginWork(trace', acts', r, p, id);
    trace', acts' := InstallGarden(trace', acts', r, p, id);
  }

  lemma FinishGarden(trace: seq<Db>, acts: seq<Action>, r: Id, inspector: Id)
    returns (trace': seq<Db>, acts': seq<Action>, p: Id, id: Id)
    requires IsRun(trace, acts) && r < |Last(trace).requests| && Last(trace).requests[r].status == Submitted
    requires inspector < |Last(trace).inspectorActive| && Last(trace).inspectorActive[inspector]
    ensures IsRun(trace', acts') && trace <= trace' && acts <= acts'
    ensures Backed(Last(trace'), r, p, id, FinalInstall)
  {
    var a;
    trace', acts', p, a, id := Inspect(trace, acts, r, inspector);
    trace', acts' := SubmitInspection(trace', acts', r, p, a, id, inspector);
    trace', acts' := SetUpGarden(trace', acts', r, p, id);
    trace', acts' := AllocateCrops(trace', acts', r, p, id);
    trace', acts' := PlantGarden(trace', acts', r, p, id);
  }

  /** From every reachable state, a submitted request can still become a living garden, given an active
      inspector: every required check is answered and photographed on the way. */
  lemma EverySubmittedRequestCanGoLive(trace: seq<Db>, acts: seq<Action>, r: Id, inspector: Id)
    returns (trace': seq<Db>, acts': seq<Action>)
    requires IsRun(trace, acts) && r < |Last(trace).requests| && Last(trace).requests[r].status == Submitted
    requires inspector < |Last(trace).inspectorActive| && Last(trace).inspectorActive[inspector]
    ensures IsRun(trace', acts') && trace <= trace' && acts <= acts'
    ensures r < |Last(trace').requests| && Last(trace').requests[r].status == Live
  {
    var p, id;
    trace', acts', p, id := FinishGarden(trace, acts, r, inspector);
    trace', acts' := GoLive(trace', acts', r, p, id);
  }
}
