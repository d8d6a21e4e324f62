/** Scheduling, starting and submitting visits, any number of times in any order: one property per
    request, one report per assignment, one open visit per property. */
module VisitLaws {
  import opened Wrappers
  import opened Domain
  import opened Transactions
  import opened Invariants
  import opened StatusPreservation
  import opened Runs
  import opened Texts
  import EvidenceGate

  // ---------- Visits ----------

  /** A property has at most one open assignment and belongs to one request; an assignment has at most
      one report, of the assignment's own garden. */
  lemma VisitsStaySingle(trace: seq<Db>, acts: seq<Action>, n: nat)
    requires IsRun(trace, acts) && n < |trace|
    ensures var db := trace[n];
            && (forall a, b :: 0 <= a < b < |db.assignments| && db.assignments[a].garden == db.assignments[b].garden ==>
                  !Open(db.assignments[a]) || !Open(db.assignments[b]))
            && (forall i, j :: 0 <= i < j < |db.reports| ==> db.reports[i].assignment != db.reports[j].assignment)
            && (forall i :: 0 <= i < |db.reports| ==>
                  db.reports[i].assignment < |db.assignments|
                  && db.reports[i].garden == db.assignments[db.reports[i].assignment].garden)
            && (forall r, q :: 0 <= r < q < |db.requests| && db.requests[r].property.Some? ==>
                  db.requests[r].property != db.requests[q].property)
  {
    EveryStateFits(trace, acts, n);
  }

  /** A finished visit is never reopened, and a request keeps the property it was given. */
  lemma VisitsStayFinished(trace: seq<Db>, acts: seq<Action>, i: nat, j: nat)
    requires IsRun(trace, acts) && i <= j < |trace|
    ensures forall a :: 0 <= a < |trace[i].assignments| && !Open(trace[i].assignments[a]) ==>
              a < |trace[j].assignments| && !Open(trace[j].assignments[a])
    ensures forall r :: 0 <= r < |trace[i].requests| && trace[i].requests[r].property.Some? ==>
              r < |trace[j].requests| && trace[j].requests[r].property == trace[i].requests[r].property
  {
    RunEvolves(trace, acts, i, j);
    forall a | 0 <= a < |trace[i].assignments| && !Open(trace[i].assignments[a])
      ensures a < |trace[j].assignments| && !Open(trace[j].assignments[a])
    {
      assert AssignmentEvolves(trace[i].assignments[a], trace[j].assignments[a]);
    }
    forall r | 0 <= r < |trace[i].requests| && trace[i].requests[r].property.Some?
      ensures r < |trace[j].requests| && trace[j].requests[r].property == trace[i].requests[r].property
    {
      assert RequestEvolves(trace[i].requests[r], trace[j].requests[r]);
    }
  }

  /** Starting an assignment that has a report finds that report again, and inserts none. */
  lemma StartAgainFindsReport(trace: seq<Db>, acts: seq<Action>, i: nat, j: nat, a: Id, inspector: Id, gps: Gps,
                              template: seq<TemplateRow>, now: Time)
    requires IsRun(trace, acts) && i <= j < |trace|
    requires ReportOf(trace[i].reports, a).Some?
    ensures var out := StartReport(trace[j], a, inspector, gps, template, now);
            out.Committed? ==>
              && out.value == ReportOf(trace[i].reports, a).value
              && out.db.reports == trace[j].reports
              && (HasChecklist(trace[j].items, out.value) ==> out.db.items == trace[j].items)
  {
    RunEvolves(trace, acts, i, j);
    var id := ReportOf(trace[i].reports, a).value;
    assert ReportEvolves(trace[i].reports[id], trace[j].reports[id]);
    ReportFound(trace[j].reports, a, id);
  }

  lemma ReportFound(rows: seq<Report>, a: Id, id: Id)
    requires id < |rows| && rows[id].assignment == a
    requires forall i, j :: 0 <= i < j < |rows| ==> rows[i].assignment != rows[j].assignment
    ensures ReportOf(rows, a) == Some(id)
  {
    FirstWhereIs(rows, (x: Report) => x.assignment == a);
  }

  // ---------- One property per request ----------

  ghost predicate PropertyUsed(requests: seq<Request>, p: Id) {
    exists r :: 0 <= r < |requests| && requests[r].property == Some(p)
  }

  lemma SchedulingLinks(db: Db, r: Id, s: Schedule, actor: Id, now: Time)
    requires ScheduleInspection(db, r, s, actor, now).Committed?
    ensures var after := ScheduleInspection(db, r, s, actor, now).db;
            |after.properties| == |db.properties|
            || (|after.properties| == |db.properties| + 1 && PropertyUsed(after.requests, |db.properties|))
  {
    SchedulingIs(db, r, s, actor, now);
    var after := ScheduleInspection(db, r, s, actor, now).db;
    assert after.requests[r].property == Some(LinkedProperty(db, db.requests[r]));
  }

  lemma StatusTables(db: Db, c: Commit, after: Db)
    requires after == Effect(db, c) && (c.Update? || c.Install?)
    ensures |after.properties| == |db.properties|
  {
    match c {
      case Update(r, plan, actor, now) =>
        if UpdateWorkflow(db, r, plan, actor, now).Committed? {
          UpdateIs(db, r, plan, actor, now);
        }
      case Install(r, p, facts, at, actor, now) =>
        if CompleteInstallation(db, r, p, facts, at, actor, now).Committed? {
          InstallationIs(db, r, p, facts, at, actor, now);
        }
    }
  }

  lemma CropTables(db: Db, c: Commit, after: Db)
    requires after == Effect(db, c) && (c.Allocate? || c.Plant?)
    ensures |after.properties| == |db.properties|
  {
    match c {
      case Allocate(r, v, actor, now) =>
        if CompleteAllocation(db, r, v, actor, now).Committed? {
          AllocationIs(db, r, v, actor, now);
        }
      case Plant(r, at, actor, now) =>
        if CompletePlanting(db, r, at, actor, now).Committed? {
          PlantingIs(db, r, at, actor, now);
        }
    }
  }

  /** Only scheduling inserts a property, and it links the one it inserts. */
  lemma EffectProperties(db: Db, c: Commit, after: Db)
    requires after == Effect(db, c)
    ensures |after.properties| == |db.properties|
            || (|after.properties| == |db.properties| + 1 && PropertyUsed(after.requests, |db.properties|))
  {
    if c.Update? || c.Install? {
      StatusTables(db, c, after);
    } else if c.Allocate? || c.Plant? {
      CropTables(db, c, after);
    } else if c.ScheduleVisit? && ScheduleInspection(db, c.request, c.schedule, c.actor, c.now).Committed? {
      SchedulingLinks(db, c.request, c.schedule, c.actor, c.now);
    }
  }

  lemma NextProperties(trace: seq<Db>, a: Action)
    requires trace != []
    ensures var db, after := trace[|trace| - 1], Next(trace, a);
            |after.properties| == |db.properties|
            || (|after.properties| == |db.properties| + 1 && PropertyUsed(after.requests, |db.properties|))
  {
    if Resolve(trace, a).Some? {
      EffectProperties(trace[|trace| - 1], Resolve(trace, a).value, Next(trace, a));
    }
  }

  lemma RunProperties(trace: seq<Db>, acts: seq<Action>, n: nat)
    requires IsRun(trace, acts) && n < |acts|
    ensures var db, after := trace[n], trace[n + 1];
            |after.properties| == |db.properties|
            || (|after.properties| == |db.properties| + 1 && PropertyUsed(after.requests, |db.properties|))
  {
    NextProperties(trace[..n + 1], acts[n]);
  }

  lemma UsedStays(a: seq<Request>, b: seq<Request>, p: Id)
    requires PropertyUsed(a, p) && RequestsEvolve(a, b)
    ensures PropertyUsed(b, p)
  {
    var r :| 0 <= r < |a| && a[r].property == Some(p);
    assert RequestEvolves(a[r], b[r]);
  }

  lemma UsedNext(trace: seq<Db>, acts: seq<Action>, n: nat, p: Id)
    requires IsRun(trace, acts) && n < |acts| && p < |trace[n + 1].properties|
    requires p < |trace[n].properties| ==> PropertyUsed(trace[n].requests, p)
    ensures PropertyUsed(trace[n + 1].requests, p)
  {
    if p < |trace[n].properties| {
      RunEvolves(trace, acts, n, n + 1);
      UsedStays(trace[n].requests, trace[n + 1].requests, p);
    } else {
      RunProperties(trace, acts, n);
    }
  }

  /** Every property belongs to a request, and by `VisitsStaySingle` to one only: scheduling a request
      any number of times creates one property for it. */
  lemma {:induction false} EveryPropertyIsUsed(trace: seq<Db>, acts: seq<Action>, n: nat, p: Id)
    requires IsRun(trace, acts) && n < |trace| && p < |trace[n].properties|
    ensures PropertyUsed(trace[n].requests, p)
  {
    if n > 0 {
      if p < |trace[n - 1].properties| {
        EveryPropertyIsUsed(trace, acts, n - 1, p);
      }
      UsedNext(trace, acts, n - 1, p);
    }
  }

  // ---------- First starts ----------

  lemma NewReportFound(rows: seq<Report>, row: Report)
    requires ReportOf(rows, row.assignment).None?
    ensures ReportOf(rows + [row], row.assignment) == Some(|rows|)
  {
    FirstWhereIs(rows, (x: Report) => x.assignment == row.assignment);
    FirstWhereIs(rows + [row], (x: Report) => x.assignment == row.assignment);
    assert (rows + [row])[|rows|] == row;
  }

  /** A first start leaves a report behind that later starts find, and a checklist for it. */
  lemma StartLeavesReport(db: Db, a: Id, inspector: Id, gps: Gps, template: seq<TemplateRow>, now: Time)
    requires StartReport(db, a, inspector, gps, template, now).Committed? && template != []
    ensures var out := StartReport(db, a, inspector, gps, template, now);
            && ReportOf(out.db.reports, a) == Some(out.value)
            && HasChecklist(out.db.items, out.value)
            && (ReportOf(db.reports, a).None? ==>
                  && out.db.reports[out.value].status == Draft
                  && out.db.reports[out.value].inspector == out.db.assignments[a].inspector)
            && (Open(db.assignments[a]) ==> out.db.assignments[a].status == VisitInProgress)
  {
    var out := StartReport(db, a, inspector, gps, template, now);
    if ReportOf(db.reports, a).None? {
      NewReportFound(db.reports, out.db.reports[|db.reports|]);
    }
    if !HasChecklist(db.items, out.value) {
      assert out.db.items[|db.items|].report == out.value;
    }
  }

  // ---------- The evidence gate of a submission ----------

  lemma {:induction false} ItemsOfAre(rows: seq<ChecklistItem>, report: Id)
    ensures forall i :: i in ItemsOf(rows, report) <==>
              exists k :: 0 <= k < |rows| && rows[k].report == report && i == EvidenceGate.ToItem(k, rows[k])
  {
    if rows != [] {
      var n := |rows| - 1;
      ItemsOfAre(rows[..n], report);
      assert forall k :: 0 <= k < n ==> rows[..n][k] == rows[k];
    }
  }

  lemma {:induction false} PhotosOfAre(rows: seq<Photo>, report: Id)
    ensures forall p :: p in PhotosOf(rows, report) <==> p in rows && p.report == report
  {
    if rows != [] {
      var n := |rows| - 1;
      PhotosOfAre(rows[..n], report);
      assert rows == rows[..n] + [rows[n]];
    }
  }

  /** Some comment explains a check that does not apply. */
  predicate Explained(row: ChecklistItem) {
    row.comment.Some? && exists c :: c in row.comment.value && !IsSpace(c)
  }

  /** A photo of the report is linked to its check `k`, or is of the kind the check's category asks for. */
  predicate Photographed(db: Db, report: Id, k: Id)
    requires k < |db.items|
  {
    exists p :: 0 <= p < |db.photos| && db.photos[p].report == report
                && (db.photos[p].item == Some(k)
                    || EvidenceGate.RequiredCapture(db.items[k].category) == Some(db.photos[p].photoType))
  }

  /** The report has checks, and each that requires a photo has a result and a photo of the report's own. */
  ghost predicate Evidenced(db: Db, report: Id) {
    && (exists k :: 0 <= k < |db.items| && db.items[k].report == report)
    && forall k :: 0 <= k < |db.items| && db.items[k].report == report && db.items[k].requiresPhoto ==>
         (db.items[k].result == ItemNa ==> Explained(db.items[k])) && Photographed(db, report, k)
  }

  lemma CheckIsEvidenced(db: Db, report: Id, k: Id)
    requires k < |db.items| && db.items[k].report == report
    ensures var item := EvidenceGate.ToItem(k, db.items[k]);
            && (EvidenceGate.Answered(item) <==> (db.items[k].result == ItemNa ==> Explained(db.items[k])))
            && (EvidenceGate.Shown(item, PhotosOf(db.photos, report)) <==> Photographed(db, report, k))
  {
    PhotosOfAre(db.photos, report);
  }

  lemma GateIsEvidence(db: Db, report: Id)
    ensures var items := ItemsOf(db.items, report);
            Evidenced(db, report) <==>
              items != [] && EvidenceGate.MissingResults(items) == []
              && EvidenceGate.MissingPhotos(items, PhotosOf(db.photos, report)) == []
  {
    var items, photos := ItemsOf(db.items, report), PhotosOf(db.photos, report);
    ItemsOfAre(db.items, report);
    EvidenceGate.GateExact(items, photos);
    if items != [] {
      assert items[0] in items;
    }
    forall k | 0 <= k < |db.items| && db.items[k].report == report
      ensures EvidenceGate.ToItem(k, db.items[k]) in items
    {
      CheckIsEvidenced(db, report, k);
    }
    forall k | 0 <= k < |db.items| && db.items[k].report == report && db.items[k].requiresPhoto
      ensures EvidenceGate.Answered(EvidenceGate.ToItem(k, db.items[k]))
              && EvidenceGate.Shown(EvidenceGate.ToItem(k, db.items[k]), photos)
              <==> (db.items[k].result == ItemNa ==> Explained(db.items[k])) && Photographed(db, report, k)
    {
      CheckIsEvidenced(db, report, k);
    }
  }

  /** A submission commits exactly for the report's own inspector and visit, once, on a complete and
      evidenced checklist; report and visit then change together. */
  lemma SubmissionIsGated(db: Db, id: Id, a: Id, inspector: Id, v: Assessment, overall: OverallStatus, followUp: bool,
                          at: Time, actor: Id, now: Time)
    ensures var out := SubmitForApproval(db, id, a, inspector, v, overall, followUp, at, actor, now);
            && (out.Committed? <==>
                  && id < |db.reports| && db.reports[id].assignment == a && db.reports[id].inspector == inspector
                  && db.reports[id].status != SubmittedForApproval
                  && a < |db.assignments| && db.assignments[a].inspector == inspector
                  && Evidenced(db, id))
            && (out.Committed? ==>
                  && |out.db.reports| == |db.reports| && |out.db.assignments| == |db.assignments|
                  && out.db.reports[id].status == SubmittedForApproval && out.db.reports[id].submittedAt == Some(at)
                  && out.db.assignments[a].status == VisitCompleted && out.db.assignments[a].completedAt == Some(at)
                  && (forall i :: 0 <= i < |db.reports| && i != id ==> out.db.reports[i] == db.reports[i])
                  && (forall b :: 0 <= b < |db.assignments| && b != a ==> out.db.assignments[b] == db.assignments[b]))
  {
    GateIsEvidence(db, id);
  }
}
