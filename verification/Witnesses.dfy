/** Runs in which the code falls short of what one might expect of it. Each starts from any reachable
    state that allows it; `OpenRequests` shows that such states exist. The laws that say exactly when
    each happens are in `RunLaws`, `Photos`, `Checklists`, `Inspectors`, `Schedules`, `Approvals` and
    `Submissions`. */
module Witnesses {
  import opened Wrappers
  import opened Domain
  import opened StageBoard
  import opened Transactions
  import opened Requests
  import opened Endpoints
  import opened Invariants
  import opened Runs
  import opened Reachability
  import opened Enabledness
  import opened Photos
  import opened ReportLaws
  import opened VisitLaws
  import opened Submissions
  import Achievements
  import Approvals
  import Inspectors
  import Journeys
  import RunLaws
  import Schedules
  import StaleClients

  /** A run to a submitted request and two active inspectors. */
  lemma OpenRequests(owner: Id, site: Site) returns (trace: seq<Db>, acts: seq<Action>)
    ensures IsRun(trace, acts) && |Last(trace).requests| == 1 && Last(trace).requests[0].status == Submitted
    ensures Last(trace).inspectorActive == [true, true]
  {
    var db := Db([], [true, true], [], [], [], [], [], [], [], [], [], [], []);
    assert IsRun([db], []);
    trace, acts := Act([db], [], Create(owner, site, map[]));
  }

  // ---------- The approval stage ----------

  lemma SurveyedStages(trace: seq<Db>, acts: seq<Action>, r: Id)
    requires IsRun(trace, acts) && r < |Last(trace).requests| && Last(trace).requests[r].status == InspectionScheduled
    ensures |Last(trace).workflows| == |Last(trace).requests| && AllStages(Last(trace).workflows[r])
    ensures Last(trace).workflows[r].stages[Approval].status
            == if Surveyed(Last(trace).reports, Last(trace).requests[r].property) then Ready else NotStarted
  {
    RunLaws.BoardFollowsStatus(trace, acts, |trace| - 1, r);
  }

  /** One request with an inspection scheduled in two states, and two approval stages: so the stage is no
      function of the status. */
  lemma ApprovalStageVaries(trace: seq<Db>, acts: seq<Action>, r: Id, inspector: Id)
    returns (early: seq<Db>, earlier: seq<Action>, late: seq<Db>, later: seq<Action>)
    requires IsRun(trace, acts) && r < |Last(trace).requests| && Last(trace).requests[r].status == Submitted
    requires inspector < |Last(trace).inspectorActive| && Last(trace).inspectorActive[inspector]
    ensures IsRun(early, earlier) && IsRun(late, later) && trace <= early <= late
    ensures r < |Last(early).requests| && Last(early).requests[r].status == InspectionScheduled
    ensures r < |Last(late).requests| && Last(late).requests[r].status == InspectionScheduled
    ensures r < |Last(early).workflows| && Approval in Last(early).workflows[r].stages
    ensures r < |Last(late).workflows| && Approval in Last(late).workflows[r].stages
    ensures Last(early).workflows[r].stages[Approval].status == NotStarted
    ensures Last(late).workflows[r].stages[Approval].status == Ready
  {
    var p, a, id;
    early, earlier, p, a := BeginInspection(trace, acts, r, inspector);
    SurveyedStages(early, earlier, r);
    late, later, id := StartInspection(early, earlier, r, p, a, inspector);
    late, later := AnswerChecklist(late, later, r, p, a, id, inspector);
    late, later := SubmitInspection(late, later, r, p, a, id, inspector);
    assert SubmittedFor(Last(late).reports[id], Last(late).requests[r].property);
    SurveyedStages(late, later, r);
  }

  lemma SameReport(trace: seq<Db>, acts: seq<Action>, i: nat, id: Id)
    requires IsRun(trace, acts) && i < |trace| && id < |trace[i].reports|
    ensures id < |Last(trace).reports| && Last(trace).reports[id].assignment == trace[i].reports[id].assignment
    ensures Last(trace).reports[id].inspector == trace[i].reports[id].inspector
  {
    RunEvolves(trace, acts, i, |trace| - 1);
    assert ReportEvolves(trace[i].reports[id], Last(trace).reports[id]);
  }

  // ---------- A draft after the approval, or after the submission ----------

  /** Reading now, the endpoint lets request `r` go live. */
  predicate CanGoLive(db: Db, r: Id) {
    && r < |db.requests| && db.requests[r].status == FinalInstall
    && PlanNow(db, r, Live).Success? && UpdateWorkflow(db, r, PlanNow(db, r, Live).value, 0, 0).Committed?
  }

  /** The inspector saves a draft, having read the report at state `read`. */
  lemma Redraft(trace: seq<Db>, acts: seq<Action>, id: Id, inspector: Id, read: nat)
    returns (trace': seq<Db>, acts': seq<Action>)
    requires IsRun(trace, acts) && id < |Last(trace).reports| && Last(trace).reports[id].inspector == inspector
    requires read < |trace| && id < |trace[read].reports| && trace[read].reports[id].status != SubmittedForApproval
    ensures IsRun(trace', acts') && trace <= trace' && |trace'| == |trace| + 1 && acts'[|acts|].SaveDraft?
    ensures var out := SaveAssessment(Last(trace), id, trace[read].reports[id].status, inspector, PASSED, 0, 0);
            out.Committed? && Last(trace') == out.db
  {
    PassedIsScored();
    var x := SaveDraft(id, inspector, PASSED, 0, read, 0);
    Extended(trace, acts, x);
    trace', acts' := trace + [Next(trace, x)], acts + [x];
  }

  lemma BackedCanGoLive(trace: seq<Db>, acts: seq<Action>, r: Id, p: Id, id: Id)
    requires IsRun(trace, acts) && Backed(Last(trace), r, p, id, FinalInstall)
    ensures CanGoLive(Last(trace), r)
  {
    EveryStateFits(trace, acts, |trace| - 1);
    BackedApproval(Last(trace), r, p, id, FinalInstall);
    ActivationCommitsExactly(Last(trace), r, None, 0, 0, 0);
  }

  lemma RedraftApproved(trace: seq<Db>, acts: seq<Action>, r: Id, p: Id, id: Id)
    returns (trace': seq<Db>, acts': seq<Action>)
    requires IsRun(trace, acts) && Backed(Last(trace), r, p, id, FinalInstall)
    ensures IsRun(trace', acts') && trace <= trace' && |trace'| == |trace| + 1 && acts'[|acts|].SaveDraft?
    ensures r < |Last(trace').requests| && Last(trace').requests[r].status == FinalInstall && !CanGoLive(Last(trace'), r)
  {
    trace', acts' := Redraft(trace, acts, id, Last(trace).reports[id].inspector, |trace| - 1);
    DraftStops(trace, acts, r, p, id);
  }

  /** From any reachable state a submitted request can come to where it may go live, and a draft saved
      then takes that away. */
  lemma DraftStopsActivation(trace: seq<Db>, acts: seq<Action>, r: Id, inspector: Id)
    returns (ready: seq<Db>, doing: seq<Action>, after: seq<Db>, done: seq<Action>)
    requires IsRun(trace, acts) && r < |Last(trace).requests| && Last(trace).requests[r].status == Submitted
    requires inspector < |Last(trace).inspectorActive| && Last(trace).inspectorActive[inspector]
    ensures IsRun(ready, doing) && IsRun(after, done) && trace <= ready <= after && |after| == |ready| + 1
    ensures CanGoLive(Last(ready), r) && done[|doing|].SaveDraft?
    ensures r < |Last(after).requests| && Last(after).requests[r].status == FinalInstall && !CanGoLive(Last(after), r)
  {
    var p, id;
    ready, doing, p, id := FinishGarden(trace, acts, r, inspector);
    BackedCanGoLive(ready, doing, r, p, id);
    after, done := RedraftApproved(ready, doing, r, p, id);
  }

  lemma DraftStops(trace: seq<Db>, acts: seq<Action>, r: Id, p: Id, id: Id)
    requires IsRun(trace, acts) && Backed(Last(trace), r, p, id, FinalInstall)
    requires SaveAssessment(Last(trace), id, Approved, Last(trace).reports[id].inspector, PASSED, 0, 0).Committed?
    ensures var db := SaveAssessment(Last(trace), id, Approved, Last(trace).reports[id].inspector, PASSED, 0, 0).db;
            r < |db.requests| && db.requests[r].status == FinalInstall && !CanGoLive(db, r)
  {
    var inspector := Last(trace).reports[id].inspector;
    Approvals.DraftUndoesActivation(trace, acts, |trace| - 1, r, id, Approved, inspector, PASSED, None, 0, 0, 0);
    Approvals.DraftedReports(Last(trace), id, Approved, inspector, PASSED, 0, 0);
  }

  /** From any reachable state: a report is submitted, and a draft whose author had read it before takes the
      submission back. */
  lemma LateDraftUndoesSubmission(trace: seq<Db>, acts: seq<Action>, r: Id, inspector: Id)
    returns (ready: seq<Db>, doing: seq<Action>, after: seq<Db>, done: seq<Action>, id: Id)
    requires IsRun(trace, acts) && r < |Last(trace).requests| && Last(trace).requests[r].status == Submitted
    requires inspector < |Last(trace).inspectorActive| && Last(trace).inspectorActive[inspector]
    ensures IsRun(ready, doing) && IsRun(after, done) && trace <= ready <= after && |after| == |ready| + 1
    ensures IsSubmitted(Last(ready), id) && done[|doing|].SaveDraft?
    ensures id < |Last(after).reports| && Last(after).reports[id].status == Draft
  {
    var p, a;
    ready, doing, p, a, id := Inspect(trace, acts, r, inspector);
    var read := |ready| - 1;
    ready, doing := SubmitInspection(ready, doing, r, p, a, id, inspector);
    SameReport(ready, doing, read, id);
    after, done := Redraft(ready, doing, id, inspector, read);
    Approvals.DraftedReports(Last(ready), id, Draft, inspector, PASSED, 0, 0);
  }

  // ---------- Rescheduling a started visit ----------

  ghost predicate CanBeSubmitted(db: Db, id: Id) {
    exists a, inspector :: SubmitForApproval(db, id, a, inspector, PASSED, Pass, false, 0, 0, 0).Committed?
  }

  ghost predicate HandedOver(before: Db, after: Db, a: Id, other: Id) {
    after.reports == before.reports && a < |after.assignments| && after.assignments[a].inspector == other
  }

  lemma TheOpenVisit(assignments: seq<Assignment>, reports: seq<Report>, properties: seq<Property>, p: Id, a: Id)
    requires InspectionsLinked(assignments, reports, properties)
    requires a < |assignments| && Open(assignments[a]) && assignments[a].garden == p
    ensures LatestOpen(assignments, p) == Some(a)
  {
    LatestOpenIs(assignments, p);
  }

  lemma ScheduledOver(db: Db, r: Id, p: Id, a: Id, other: Id)
    requires ScheduleInspection(db, r, VisitBy(other), 0, 0).Committed?
    requires r < |db.requests| && db.requests[r].property == Some(p) && LatestOpen(db.assignments, p) == Some(a)
    ensures HandedOver(db, ScheduleInspection(db, r, VisitBy(other), 0, 0).db, a, other)
  {
    Achievements.ScheduledVisit(db, r, VisitBy(other), 0, 0);
    ScheduleInspections(db, r, VisitBy(other), 0, 0);
  }

  lemma VisitHandedOver(db: Db, r: Id, p: Id, a: Id, id: Id, inspector: Id, other: Id)
    requires Inv(db) && Inspecting(db, r, p, a, id, inspector)
    requires other < |db.inspectorActive| && db.inspectorActive[other]
    ensures var out := ScheduleInspection(db, r, VisitBy(other), 0, 0);
            out.Committed? && HandedOver(db, out.db, a, other)
  {
    SchedulingCommitsExactly(db, r, VisitBy(other), 0, 0);
    TheOpenVisit(db.assignments, db.reports, db.properties, p, a);
    ScheduledOver(db, r, p, a, other);
  }

  lemma HandOver(ready: seq<Db>, doing: seq<Action>, r: Id, p: Id, a: Id, id: Id, inspector: Id, other: Id)
    returns (after: seq<Db>, done: seq<Action>)
    requires IsRun(ready, doing) && Inspecting(Last(ready), r, p, a, id, inspector)
    requires other < |Last(ready).inspectorActive| && Last(ready).inspectorActive[other]
    ensures IsRun(after, done) && ready <= after && |after| == |ready| + 1
    ensures done[|doing|] == Direct(ScheduleVisit(r, VisitBy(other), 0, 0))
    ensures HandedOver(Last(ready), Last(after), a, other)
  {
    EveryStateFits(ready, doing, |ready| - 1);
    VisitHandedOver(Last(ready), r, p, a, id, inspector, other);
    after, done := Act(ready, doing, ScheduleVisit(r, VisitBy(other), 0, 0));
  }

  lemma HandedOverIsStuck(before: Db, after: Db, r: Id, p: Id, a: Id, id: Id, inspector: Id, other: Id)
    requires Inspecting(before, r, p, a, id, inspector) && Evidenced(before, id)
    requires HandedOver(before, after, a, other) && other != inspector
    ensures CanBeSubmitted(before, id) && !CanBeSubmitted(after, id)
  {
    Inspectors.CanBeSubmittedExactly(before, id, PASSED, Pass, false, 0, 0, 0);
    Inspectors.CanBeSubmittedExactly(after, id, PASSED, Pass, false, 0, 0, 0);
  }

  /** From any reachable state: an evidenced report could be submitted until its visit was rescheduled to
      another inspector, and then by nobody. */
  lemma RescheduledReportIsStuck(trace: seq<Db>, acts: seq<Action>, r: Id, inspector: Id, other: Id)
    returns (ready: seq<Db>, doing: seq<Action>, after: seq<Db>, done: seq<Action>, id: Id)
    requires IsRun(trace, acts) && r < |Last(trace).requests| && Last(trace).requests[r].status == Submitted
    requires inspector < |Last(trace).inspectorActive| && Last(trace).inspectorActive[inspector]
    requires other < |Last(trace).inspectorActive| && Last(trace).inspectorActive[other] && other != inspector
    ensures IsRun(ready, doing) && IsRun(after, done) && trace <= ready <= after && |after| == |ready| + 1
    ensures done[|doing|] == Direct(ScheduleVisit(r, VisitBy(other), 0, 0))
    ensures CanBeSubmitted(Last(ready), id) && !CanBeSubmitted(Last(after), id)
  {
    var p, a;
    ready, doing, p, a, id := Inspect(trace, acts, r, inspector);
    after, done := HandOver(ready, doing, r, p, a, id, inspector, other);
    HandedOverIsStuck(Last(ready), Last(after), r, p, a, id, inspector, other);
  }

  // ---------- Rescheduling to another day ----------

  /** Noon of the second day, with a due date of the sixth. */
  const OTHER_DAY := Visit(5, DAY_SECONDS + 43200, Medium, "")

  lemma RescheduledDates(db: Db, r: Id, p: Id, a: Id, inspector: Id)
    requires Inv(db) && Visiting(db, r, p, a, inspector)
    requires inspector < |db.inspectorActive| && db.inspectorActive[inspector]
    ensures var out := ScheduleInspection(db, r, Schedule(inspector, OTHER_DAY, [], None, None), 0, 0);
            && out.Committed? && r < |out.db.requests| && a < |out.db.assignments|
            && !Schedules.DatesRecorded(out.db.requests[r], out.db.assignments[a].visit)
  {
    var s := Schedule(inspector, OTHER_DAY, [], None, None);
    SchedulingCommitsExactly(db, r, s, 0, 0);
    TheOpenVisit(db.assignments, db.reports, db.properties, p, a);
    Achievements.ScheduledVisit(db, r, s, 0, 0);
    Schedules.DatesRecordedExactly(db, r, s, 0, 0);
  }

  /** From any reachable state: after a visit is moved to another day, its request records a due date its
      assignment does not have. */
  lemma RecordedDueDateDiffers(trace: seq<Db>, acts: seq<Action>, r: Id, inspector: Id)
    returns (trace': seq<Db>, acts': seq<Action>, a: Id)
    requires IsRun(trace, acts) && r < |Last(trace).requests| && Last(trace).requests[r].status == Submitted
    requires inspector < |Last(trace).inspectorActive| && Last(trace).inspectorActive[inspector]
    ensures IsRun(trace', acts') && trace <= trace'
    ensures r < |Last(trace').requests| && a < |Last(trace').assignments|
    ensures !Schedules.DatesRecorded(Last(trace').requests[r], Last(trace').assignments[a].visit)
  {
    var p;
    trace', acts', p, a := BeginInspection(trace, acts, r, inspector);
    EveryStateFits(trace', acts', |trace'| - 1);
    RescheduledDates(Last(trace'), r, p, a, inspector);
    trace', acts' := Act(trace', acts', ScheduleVisit(r, Schedule(inspector, OTHER_DAY, [], None, None), 0, 0));
  }

  // ---------- Photos ----------

  lemma SameOwner(trace: seq<Db>, acts: seq<Action>, r: Id, read: nat)
    requires IsRun(trace, acts) && read < |trace| && r < |trace[read].requests|
    ensures r < |Last(trace).requests| && Last(trace).requests[r].owner == trace[read].requests[r].owner
  {
    RunEvolves(trace, acts, read, |trace| - 1);
    assert RequestEvolves(trace[read].requests[r], Last(trace).requests[r]);
  }

  lemma UploadNext(past: seq<Db>, x: Action)
    requires past != [] && x.UploadPhoto? && x.readRequest < |past|
    requires x.request < |past[x.readRequest].requests| && x.request < |Last(past).requests|
    requires past[x.readRequest].requests[x.request].owner == x.owner == Last(past).requests[x.request].owner
    ensures var r, details := x.request, WithPhoto(past[x.readRequest].requests[x.request].details, x.photo);
            Next(past, x) == Last(past).(requests := Last(past).requests[r := Last(past).requests[r].(details := details)])
  {
  }

  /** The owner uploads a photo, having read the request at state `read`. */
  lemma Upload(trace: seq<Db>, acts: seq<Action>, r: Id, photo: Json, read: nat)
    returns (trace': seq<Db>, acts': seq<Action>)
    requires IsRun(trace, acts) && read < |trace| && r < |trace[read].requests|
    ensures IsRun(trace', acts') && trace <= trace' && |trace'| == |trace| + 1
    ensures acts <= acts' && acts'[|acts|].UploadPhoto? && acts'[|acts|].photo == photo && acts'[|acts|].readRequest == read
    ensures r < |Last(trace).requests| && r < |Last(trace').requests|
    ensures Last(trace') == Last(trace).(requests := Last(trace').requests)
    ensures Last(trace').requests[r] == Last(trace).requests[r].(details := WithPhoto(trace[read].requests[r].details, photo))
  {
    SameOwner(trace, acts, r, read);
    var x := UploadPhoto(r, trace[read].requests[r].owner, photo, read);
    Extended(trace, acts, x);
    UploadNext(trace, x);
    trace', acts' := trace + [Next(trace, x)], acts + [x];
  }

  lemma WithPhotoShows(details: Details, photo: Json)
    ensures PhotoList(WithPhoto(details, photo)) == PhotoList(details) + [photo]
  {
  }

  /** Of two photos uploaded after one read, the first is lost. */
  lemma LaterUploadLosesPhoto(trace: seq<Db>, acts: seq<Action>, r: Id, first: Json, second: Json)
    returns (trace': seq<Db>, acts': seq<Action>)
    requires IsRun(trace, acts) && r < |Last(trace).requests|
    requires first !in PhotosAt(Last(trace), r) && first != second
    ensures IsRun(trace', acts') && trace <= trace' && |trace'| == |trace| + 2
    ensures Shown(trace', r, |trace|, first) && !Shown(trace', r, |trace| + 1, first)
  {
    var n := |trace| - 1;
    trace', acts' := Upload(trace, acts, r, first, n);
    trace', acts' := Upload(trace', acts', r, second, n);
    WithPhotoShows(trace[n].requests[r].details, first);
    WithPhotoShows(trace[n].requests[r].details, second);
  }

  /** A lost photo comes back when a third upload had read the request while it was there: so what is shown
      at a moment depends on the whole chain of reads. */
  lemma LostPhotoReturns(trace: seq<Db>, acts: seq<Action>, r: Id, first: Json, second: Json, third: Json)
    returns (trace': seq<Db>, acts': seq<Action>)
    requires IsRun(trace, acts) && r < |Last(trace).requests|
    requires first !in PhotosAt(Last(trace), r) && first != second
    ensures IsRun(trace', acts') && trace <= trace' && |trace'| == |trace| + 3
    ensures Shown(trace', r, |trace|, first) && !Shown(trace', r, |trace| + 1, first)
    ensures Shown(trace', r, |trace| + 2, first)
  {
    var n := |trace|;
    var mid, mids := LaterUploadLosesPhoto(trace, acts, r, first, second);
    trace', acts' := Upload(mid, mids, r, third, n);
    WithPhotoShows(mid[n].requests[r].details, third);
  }

  /** Only the details of request `r` differ. */
  ghost predicate DetailsDiffer(db: Db, after: Db, r: Id) {
    && r < |db.requests| && r < |after.requests|
    && after == db.(requests := after.requests)
    && after.requests[r] == db.requests[r].(details := after.requests[r].details)
  }

  lemma LivePlan(db: Db, r: Id)
    requires CanGoLive(db, r)
    ensures var plan := PlanNow(db, r, Live).value;
            && FittingPlan(plan) && UpdateChecks(db, r, plan)
            && plan.patch.status == Live && plan.decision.None? && plan.assignment.None?
            && plan.patch.details == Some(TrackingDetails(db.requests[r].details, 0, 0))
  {
    PlansFit(db.requests[r], Live, None, Seen(db, db, db), 0, 0);
    UpdateUnfolds(db, r, PlanNow(db, r, Live).value, 0, 0);
  }

  lemma StillChecked(db: Db, after: Db, r: Id, plan: StatusPlan)
    requires DetailsDiffer(db, after, r) && UpdateChecks(db, r, plan)
    ensures UpdateChecks(after, r, plan)
  {
  }

  lemma StillCanGoLive(db: Db, after: Db, r: Id)
    requires Inv(after) && DetailsDiffer(db, after, r) && CanGoLive(db, r)
    ensures var plan := PlanNow(db, r, Live).value;
            var out := UpdateWorkflow(after, r, plan, 0, 0);
            && out.Committed? && r < |out.db.requests| && out.db.requests[r].status == Live
            && out.db.requests[r].details == TrackingDetails(db.requests[r].details, 0, 0)
  {
    var plan := PlanNow(db, r, Live).value;
    LivePlan(db, r);
    StillChecked(db, after, r, plan);
    UpdateCommitsExactly(after, r, plan, 0, 0);
    Journeys.UpdateRequests(after, r, plan, 0, 0);
  }

  lemma TrackingKeepsPhotos(details: Details, actor: Id, now: Time)
    ensures PhotoList(TrackingDetails(details, actor, now)) == PhotoList(details)
  {
  }

  /** Going live with what was read at state `read`, one upload ago. */
  lemma GoLiveLate(trace: seq<Db>, acts: seq<Action>, r: Id, read: nat)
    returns (trace': seq<Db>, acts': seq<Action>)
    requires IsRun(trace, acts) && read < |trace| && DetailsDiffer(trace[read], Last(trace), r) && CanGoLive(trace[read], r)
    ensures IsRun(trace', acts') && trace <= trace' && |trace'| == |trace| + 1
    ensures r < |Last(trace').requests| && Last(trace').requests[r].status == Live
    ensures PhotosAt(Last(trace'), r) == PhotosAt(trace[read], r)
  {
    EveryStateFits(trace, acts, |trace| - 1);
    StillCanGoLive(trace[read], Last(trace), r);
    TrackingKeepsPhotos(trace[read].requests[r].details, 0, 0);
    var plan := PlanNow(trace[read], r, Live).value;
    var x := PatchNow(read, r, Live);
    Extended(trace, acts, x);
    StaleClients.PatchResolves(trace, x, plan);
    StaleClients.UpdateEffect(Last(trace), r, plan, 0, 0);
    trace', acts' := trace + [Next(trace, x)], acts + [x];
  }

  /** Wherever a request may go live, a photo uploaded between the read and the commit is lost. */
  lemma GoingLiveLosesPhoto(trace: seq<Db>, acts: seq<Action>, r: Id, photo: Json)
    returns (trace': seq<Db>, acts': seq<Action>)
    requires IsRun(trace, acts) && CanGoLive(Last(trace), r) && photo !in PhotosAt(Last(trace), r)
    ensures IsRun(trace', acts') && trace <= trace' && |trace'| == |trace| + 2
    ensures Shown(trace', r, |trace|, photo)
    ensures r < |Last(trace').requests| && Last(trace').requests[r].status == Live
    ensures !Shown(trace', r, |trace| + 1, photo)
  {
    var n := |trace| - 1;
    trace', acts' := Upload(trace, acts, r, photo, n);
    WithPhotoShows(trace[n].requests[r].details, photo);
    trace', acts' := GoLiveLate(trace', acts', r, n);
  }

  // ---------- A checklist seeded twice ----------

  /** Two reports of one inspector, the first of them for assignment `a`. */
  ghost predicate TwoReports(db: Db, a: Id, first: Id, second: Id, inspector: Id) {
    && a < |db.assignments| && db.assignments[a].inspector == inspector
    && first < |db.reports| && second < |db.reports| && first != second
    && db.reports[second].inspector == inspector && ReportOf(db.reports, a) == Some(first)
  }

  /** Every item leaves the first report, one upsert at a time. */
  lemma {:induction false} MoveItems(trace: seq<Db>, acts: seq<Action>, a: Id, first: Id, second: Id, inspector: Id, k: nat)
    returns (trace': seq<Db>, acts': seq<Action>)
    requires IsRun(trace, acts) && TwoReports(Last(trace), a, first, second, inspector) && k <= |Last(trace).items|
    requires forall m :: 0 <= m < k ==> Last(trace).items[m].report != first
    ensures IsRun(trace', acts') && trace <= trace' && acts <= acts'
    ensures TwoReports(Last(trace'), a, first, second, inspector) && !HasChecklist(Last(trace').items, first)
    decreases |Last(trace).items| - k
  {
    trace', acts' := trace, acts;
    if k < |Last(trace).items| {
      if Last(trace).items[k].report == first {
        trace', acts' := MoveItem(trace, acts, a, first, second, inspector, k);
      }
      trace', acts' := MoveItems(trace', acts', a, first, second, inspector, k + 1);
    }
  }

  lemma MoveItem(trace: seq<Db>, acts: seq<Action>, a: Id, first: Id, second: Id, inspector: Id, k: nat)
    returns (trace': seq<Db>, acts': seq<Action>)
    requires IsRun(trace, acts) && TwoReports(Last(trace), a, first, second, inspector) && k < |Last(trace).items|
    ensures IsRun(trace', acts') && trace <= trace' && acts <= acts'
    ensures TwoReports(Last(trace'), a, first, second, inspector)
    ensures Last(trace').items == Last(trace).items[k := Last(trace).items[k].(report := second)]
  {
    ReportsAreScored(trace, acts, |trace| - 1);
    trace', acts' := Act(trace, acts, RecordItem(k, Last(trace).items[k].(report := second), inspector));
  }

  lemma OneReport(trace: seq<Db>, acts: seq<Action>, a: Id, id: Id)
    requires IsRun(trace, acts) && id < |Last(trace).reports| && Last(trace).reports[id].assignment == a
    ensures ReportOf(Last(trace).reports, a) == Some(id)
  {
    EveryStateFits(trace, acts, |trace| - 1);
    ReportFound(Last(trace).reports, a, id);
  }

  lemma AddRequest(trace: seq<Db>, acts: seq<Action>, owner: Id, site: Site)
    returns (trace': seq<Db>, acts': seq<Action>, q: Id)
    requires IsRun(trace, acts)
    ensures IsRun(trace', acts') && trace <= trace' && acts <= acts' && |trace'| == |trace| + 1
    ensures q < |Last(trace').requests| && Last(trace').requests[q].status == Submitted
    ensures Last(trace').assignments == Last(trace).assignments
    ensures Last(trace').inspectorActive == Last(trace).inspectorActive
  {
    q := |Last(trace).requests|;
    trace', acts' := Act(trace, acts, Create(owner, site, map[]));
  }

  /** The inspector of a started visit starts another one, of a new request. */
  lemma StartAnother(trace: seq<Db>, acts: seq<Action>, r: Id, p: Id, a: Id, id: Id, inspector: Id, owner: Id, site: Site)
    returns (trace': seq<Db>, acts': seq<Action>, second: Id)
    requires IsRun(trace, acts) && Inspecting(Last(trace), r, p, a, id, inspector)
    requires inspector < |Last(trace).inspectorActive| && Last(trace).inspectorActive[inspector]
    ensures IsRun(trace', acts') && trace <= trace' && acts <= acts'
    ensures TwoReports(Last(trace'), a, id, second, inspector) && |trace'| > |trace|
  {
    var q, p2, a2;
    trace', acts', q := AddRequest(trace, acts, owner, site);
    trace', acts', p2, a2 := BeginInspection(trace', acts', q, inspector);
    trace', acts', second := StartInspection(trace', acts', q, p2, a2, inspector);
    SameReport(trace', acts', |trace| - 1, id);
    OneReport(trace', acts', a, id);
  }

  lemma StartFirst(trace: seq<Db>, acts: seq<Action>, r: Id, inspector: Id)
    returns (trace': seq<Db>, acts': seq<Action>, p: Id, a: Id, id: Id)
    requires IsRun(trace, acts) && r < |Last(trace).requests| && Last(trace).requests[r].status == Submitted
    requires inspector < |Last(trace).inspectorActive| && Last(trace).inspectorActive[inspector]
    ensures IsRun(trace', acts') && trace <= trace' && acts <= acts'
    ensures Inspecting(Last(trace'), r, p, a, id, inspector) && ReportOf(Last(trace').reports, a) == Some(id)
    ensures Last(trace').inspectorActive == Last(trace).inspectorActive
  {
    trace', acts', p, a := BeginInspection(trace, acts, r, inspector);
    trace', acts', id := StartInspection(trace', acts', r, p, a, inspector);
    OneReport(trace', acts', a, id);
  }

  lemma SeedAgain(trace: seq<Db>, acts: seq<Action>, a: Id, first: Id, second: Id, inspector: Id)
    returns (trace': seq<Db>, acts': seq<Action>)
    requires IsRun(trace, acts) && TwoReports(Last(trace), a, first, second, inspector)
    requires !HasChecklist(Last(trace).items, first)
    ensures IsRun(trace', acts') && trace <= trace' && acts <= acts' && |trace'| == |trace| + 1
    ensures acts'[|acts|] == Direct(StartVisit(a, inspector, Gps(None, None), 0))
    ensures Last(trace').items == Last(trace).items + SeededItems(first, CHECKLIST_TEMPLATE)
  {
    trace', acts' := Act(trace, acts, StartVisit(a, inspector, Gps(None, None), 0));
  }

  lemma EmptyChecklist(trace: seq<Db>, acts: seq<Action>, r: Id, p: Id, a: Id, id: Id, inspector: Id, owner: Id, site: Site)
    returns (trace': seq<Db>, acts': seq<Action>, second: Id)
    requires IsRun(trace, acts) && Inspecting(Last(trace), r, p, a, id, inspector)
    requires inspector < |Last(trace).inspectorActive| && Last(trace).inspectorActive[inspector]
    ensures IsRun(trace', acts') && trace <= trace' && |trace'| > |trace|
    ensures TwoReports(Last(trace'), a, id, second, inspector) && !HasChecklist(Last(trace').items, id)
  {
    trace', acts', second := StartAnother(trace, acts, r, p, a, id, inspector, owner, site);
    trace', acts' := MoveItems(trace', acts', a, id, second, inspector, 0);
  }

  lemma SeedElsewhere(trace: seq<Db>, acts: seq<Action>, r: Id, p: Id, a: Id, id: Id, inspector: Id, owner: Id, site: Site)
    returns (trace': seq<Db>, acts': seq<Action>)
    requires IsRun(trace, acts) && Inspecting(Last(trace), r, p, a, id, inspector)
    requires inspector < |Last(trace).inspectorActive| && Last(trace).inspectorActive[inspector]
    ensures IsRun(trace', acts') && trace <= trace' && |trace'| > |trace| + 1
    ensures acts'[|acts'| - 1] == Direct(StartVisit(a, inspector, Gps(None, None), 0))
    ensures Last(trace').items == trace'[|trace'| - 2].items + SeededItems(id, CHECKLIST_TEMPLATE)
  {
    var mid, mids, second := EmptyChecklist(trace, acts, r, p, a, id, inspector, owner, site);
    trace', acts' := SeedAgain(mid, mids, a, id, second, inspector);
  }

  /** From any reachable state: an inspector starts two visits, moves every item of the first report to the
      second, and starts the first visit again; its report is then given the template once more. */
  lemma ChecklistIsSeededTwice(trace: seq<Db>, acts: seq<Action>, r: Id, inspector: Id, owner: Id, site: Site)
    returns (trace': seq<Db>, acts': seq<Action>, a: Id, id: Id, i: nat)
    requires IsRun(trace, acts) && r < |Last(trace).requests| && Last(trace).requests[r].status == Submitted
    requires inspector < |Last(trace).inspectorActive| && Last(trace).inspectorActive[inspector]
    ensures IsRun(trace', acts') && trace <= trace' && |trace| < i + 1 < |acts'|
    ensures ReportOf(trace'[i].reports, a) == Some(id) && HasChecklist(trace'[i].items, id)
    ensures acts'[|acts'| - 1] == Direct(StartVisit(a, inspector, Gps(None, None), 0))
    ensures Last(trace').items == trace'[|trace'| - 2].items + SeededItems(id, CHECKLIST_TEMPLATE)
  {
    var p;
    trace', acts', p, a, id := StartFirst(trace, acts, r, inspector);
    i := |trace'| - 1;
    trace', acts' := SeedElsewhere(trace', acts', r, p, a, id, inspector, owner, site);
  }
}
