/** Every transaction keeps the invariant, and changes the database only as `Evolves` allows. */
module Preservation {
  import opened Wrappers
  import opened Domain
  import opened StageBoard
  import opened Transactions
  import opened StageHistory
  import opened BoardTable
  import opened Invariants

  // ---------- Moving the rows, then storing one board ----------

  /** `rows` changes tables of `db` other than the workflows; of the requests only row `r`. */
  ghost predicate MovesRow(db: Db, rows: Db, r: Id) {
    && r < |db.requests| == |rows.requests|
    && (forall q :: 0 <= q < |db.requests| && q != r ==> rows.requests[q] == db.requests[q])
    && rows.workflows == db.workflows && rows.events == db.events
  }

  /** Storing a board that fits the moved row completes the move. */
  lemma StoreBoard(db: Db, rows: Db, r: Id, b: Board)
    requires Inv(db) && RowsFit(rows) && RowsEvolve(db, rows) && MovesRow(db, rows, r)
    requires forall q :: 0 <= q < |db.requests| && q != r ==>
                           Surveyed(rows.reports, db.requests[q].property) == Surveyed(db.reports, db.requests[q].property)
    requires Lawful(r, db.workflows[r], b) && b.workflow.owner == db.workflows[r].owner
    requires BoardFits(rows.requests[r].status, b.workflow, Surveyed(rows.reports, rows.requests[r].property))
    ensures Inv(WithBoard(rows, r, b)) && Evolves(db, WithBoard(rows, r, b))
  {
    var after := WithBoard(rows, r, b);
    StoreAudit(db.workflows, db.events, r, b);
    forall q | 0 <= q < |after.requests| ensures BoardAt(after.requests[q], after.reports, after.workflows[q]) {
      if q != r {
        assert BoardAt(db.requests[q], db.reports, db.workflows[q]);
      }
    }
    assert db.events <= after.events;
  }

  lemma SurveyedUnchanged(db: Db, rows: Db, r: Id)
    requires rows.reports == db.reports
    ensures forall q :: 0 <= q < |db.requests| && q != r ==>
                          Surveyed(rows.reports, db.requests[q].property) == Surveyed(db.reports, db.requests[q].property)
  {
  }

  /** Rows outside the board change: the board fits because the status and the surveys stay. */
  lemma KeepBoards(db: Db, rows: Db)
    requires Inv(db) && RowsFit(rows) && RowsEvolve(db, rows)
    requires |rows.requests| == |db.requests| && rows.workflows == db.workflows && rows.events == db.events
    requires forall r :: 0 <= r < |db.requests| ==>
                           rows.requests[r].status == db.requests[r].status
                           && Surveyed(rows.reports, rows.requests[r].property) == Surveyed(db.reports, db.requests[r].property)
    ensures Inv(rows) && Evolves(db, rows)
  {
    forall r | 0 <= r < |rows.requests| ensures BoardAt(rows.requests[r], rows.reports, rows.workflows[r]) {
      assert BoardAt(db.requests[r], db.reports, db.workflows[r]);
    }
    EvolvesReflexive(db);
  }

  // ---------- New requests ----------

  lemma SameRows(db: Db)
    ensures RowsEvolve(db, db)
  {
  }

  lemma SeedBoards(requests: seq<Request>, reports: seq<Report>, ws: seq<Workflow>, row: Request)
    requires Boards(requests, reports, ws) && row.status == Submitted && row.property.None?
    ensures Boards(requests + [row], reports, ws + [SeedWorkflow(row.owner)])
  {
    SeedFits(row.owner);
    forall r | 0 <= r < |requests| + 1
      ensures BoardAt((requests + [row])[r], reports, (ws + [SeedWorkflow(row.owner)])[r])
    {
      if r < |requests| {
        assert BoardAt(requests[r], reports, ws[r]);
      }
    }
  }

  lemma InsertLinks(db: Db, row: Request)
    requires RowsFit(db) && row.status == Submitted && row.property.None?
    ensures RowsFit(InsertRequest(db, row)) && RowsEvolve(db, InsertRequest(db, row))
  {
    SameRows(db);
    assert RequestsEvolve(db.requests, db.requests + [row]);
  }

  lemma InsertKeeps(db: Db, row: Request)
    requires Inv(db) && row.status == Submitted && row.property.None?
    ensures Inv(InsertRequest(db, row)) && Evolves(db, InsertRequest(db, row))
  {
    InsertLinks(db, row);
    SeedAudit(db.workflows, db.events, row.owner);
    SeedBoards(db.requests, db.reports, db.workflows, row);
  }

  // ---------- Reports ----------

  /** A row that replaces report `id`: it is surveyed exactly when it was, or is being submitted. */
  ghost predicate ReportStep(a: Report, b: Report) {
    && ReportEvolves(a, b)
    && (b.submittedAt.Some? <==> a.submittedAt.Some? || b.status == SubmittedForApproval)
  }

  lemma SurveyedAfter(reports: seq<Report>, id: Id, row: Report, property: Option<Id>)
    requires id < |reports| && ReportStep(reports[id], row)
    ensures Surveyed(reports[id := row], property)
            <==> Surveyed(reports, property) || (Some(row.garden) == property && row.status == SubmittedForApproval)
  {
    var after := reports[id := row];
    if Surveyed(reports, property) {
      var i :| 0 <= i < |reports| && SubmittedFor(reports[i], property);
      assert SubmittedFor(after[i], property);
    }
    if Some(row.garden) == property && row.status == SubmittedForApproval {
      assert SubmittedFor(after[id], property);
    }
    if Surveyed(after, property) {
      var i :| 0 <= i < |after| && SubmittedFor(after[i], property);
      assert i != id ==> SubmittedFor(reports[i], property);
      assert i == id && row.status != SubmittedForApproval ==> SubmittedFor(reports[id], property);
    }
  }

  lemma SyncOwner(r: Id, w: Workflow, id: Id, rep: Report, actor: Id, now: Time)
    ensures SyncReport(r, w, id, rep, actor, now).workflow.owner == w.owner
  {
    assert SyncVisit(r, w, id, rep, actor, now).workflow.owner == w.owner;
  }

  lemma ReportRowLinked(assignments: seq<Assignment>, reports: seq<Report>, properties: seq<Property>, id: Id, row: Report)
    requires InspectionsLinked(assignments, reports, properties) && id < |reports| && ReportStep(reports[id], row)
    ensures InspectionsLinked(assignments, reports[id := row], properties)
    ensures ReportsEvolve(reports, reports[id := row])
  {
  }

  lemma AssignmentRowLinked(assignments: seq<Assignment>, reports: seq<Report>, properties: seq<Property>, a: Id,
                            row: Assignment)
    requires InspectionsLinked(assignments, reports, properties) && a < |assignments|
    requires AssignmentEvolves(assignments[a], row)
    ensures InspectionsLinked(assignments[a := row], reports, properties)
    ensures AssignmentsEvolve(assignments, assignments[a := row])
  {
  }

  lemma SurveyedAfterAll(db: Db, id: Id, row: Report)
    requires id < |db.reports| && ReportStep(db.reports[id], row)
    ensures forall r :: 0 <= r < |db.requests| ==>
              (Surveyed(db.reports[id := row], db.requests[r].property)
               <==> Surveyed(db.reports, db.requests[r].property)
                    || (Some(row.garden) == db.requests[r].property && row.status == SubmittedForApproval))
  {
    forall r | 0 <= r < |db.requests|
      ensures Surveyed(db.reports[id := row], db.requests[r].property)
              <==> Surveyed(db.reports, db.requests[r].property)
                   || (Some(row.garden) == db.requests[r].property && row.status == SubmittedForApproval)
    {
      SurveyedAfter(db.reports, id, row, db.requests[r].property);
    }
  }

  /** The board of a linked request fits after the trigger of any of its reports. */
  lemma SyncBoard(db: Db, q: Id, id: Id, row: Report, actor: Id, now: Time)
    requires Inv(db) && q < |db.requests| && db.requests[q].property.Some?
    ensures var b := SyncReport(q, db.workflows[q], id, row, actor, now);
            && Lawful(q, db.workflows[q], b) && b.workflow.owner == db.workflows[q].owner
            && BoardFits(db.requests[q].status, b.workflow,
                         Surveyed(db.reports, db.requests[q].property) || row.status == SubmittedForApproval)
  {
    var w := db.workflows[q];
    assert BoardAt(db.requests[q], db.reports, w);
    assert RequestLinked(db.requests[q], db.properties);
    SyncLawful(q, w, id, row, actor, now);
    SyncFits(db.requests[q].status, q, w, Surveyed(db.reports, db.requests[q].property), id, row, actor, now);
    SyncOwner(q, w, id, row, actor, now);
  }

  /** Changing a report and firing its trigger keeps the invariant, whoever's request it belongs to. */
  lemma ReportKeeps(db: Db, id: Id, row: Report, actor: Id, now: Time)
    requires Inv(db) && id < |db.reports| && ReportStep(db.reports[id], row)
    ensures var after := SyncInspection(db.(reports := db.reports[id := row]), id, actor, now);
            Inv(after) && Evolves(db, after)
  {
    var rows := db.(reports := db.reports[id := row]);
    SameRows(db);
    ReportRowLinked(db.assignments, db.reports, db.properties, id, row);
    SurveyedAfterAll(db, id, row);
    LastRequestForIs(db.requests, row.garden);
    var found := LastRequestFor(db.requests, row.garden);
    if found.None? {
      KeepBoards(db, rows);
    } else {
      SyncBoard(db, found.value, id, row, actor, now);
      StoreBoard(db, rows, found.value, SyncReport(found.value, db.workflows[found.value], id, row, actor, now));
    }
  }

  lemma SaveAssessmentKeeps(db: Db, id: Id, seen: AssessmentStatus, inspector: Id, v: Assessment, actor: Id, now: Time)
    requires Inv(db) && SaveAssessment(db, id, seen, inspector, v, actor, now).Committed?
    ensures Inv(SaveAssessment(db, id, seen, inspector, v, actor, now).db)
    ensures Evolves(db, SaveAssessment(db, id, seen, inspector, v, actor, now).db)
  {
    ReportKeeps(db, id, DraftedReport(db.reports[id], v), actor, now);
  }

  lemma FinishKeeps(db: Db, a: Id, at: Time, now: Time)
    requires Inv(db) && a < |db.assignments|
    ensures Inv(FinishVisit(db, a, at, now)) && Evolves(db, FinishVisit(db, a, at, now))
  {
    var done := db.assignments[a].(status := VisitCompleted, completedAt := Some(at), updatedAt := now);
    SameRows(db);
    AssignmentRowLinked(db.assignments, db.reports, db.properties, a, done);
    KeepBoards(db, FinishVisit(db, a, at, now));
  }

  lemma SubmissionKeeps(db: Db, id: Id, row: Report, a: Id, at: Time, actor: Id, now: Time)
    requires Inv(db) && id < |db.reports| && a < |db.assignments| && ReportStep(db.reports[id], row)
    ensures Inv(WithSubmission(db, id, row, a, at, actor, now))
    ensures Evolves(db, WithSubmission(db, id, row, a, at, actor, now))
  {
    ReportKeeps(db, id, row, actor, now);
    var db1 := SyncInspection(db.(reports := db.reports[id := row]), id, actor, now);
    FinishKeeps(db1, a, at, now);
    EvolvesTransitive(db, db1, FinishVisit(db1, a, at, now));
  }

  lemma SubmitIs(db: Db, id: Id, a: Id, inspector: Id, v: Assessment, overall: OverallStatus, followUp: bool,
                 at: Time, actor: Id, now: Time)
    requires SubmitForApproval(db, id, a, inspector, v, overall, followUp, at, actor, now).Committed?
    ensures id < |db.reports| && a < |db.assignments|
    ensures SubmitForApproval(db, id, a, inspector, v, overall, followUp, at, actor, now).db
            == WithSubmission(db, id, SubmittedReport(db.reports[id], v, overall, followUp, at), a, at, actor, now)
  {
  }

  lemma SubmitKeeps(db: Db, id: Id, a: Id, inspector: Id, v: Assessment, overall: OverallStatus, followUp: bool,
                    at: Time, actor: Id, now: Time)
    requires Inv(db) && SubmitForApproval(db, id, a, inspector, v, overall, followUp, at, actor, now).Committed?
    ensures Inv(SubmitForApproval(db, id, a, inspector, v, overall, followUp, at, actor, now).db)
    ensures Evolves(db, SubmitForApproval(db, id, a, inspector, v, overall, followUp, at, actor, now).db)
  {
    SubmitIs(db, id, a, inspector, v, overall, followUp, at, actor, now);
    SubmissionKeeps(db, id, SubmittedReport(db.reports[id], v, overall, followUp, at), a, at, actor, now);
  }

  lemma NewReportUnsurveyed(before: seq<Report>, row: Report, property: Option<Id>)
    requires row.submittedAt.None?
    ensures Surveyed(before + [row], property) == Surveyed(before, property)
  {
    var after := before + [row];
    if Surveyed(before, property) {
      var i :| 0 <= i < |before| && SubmittedFor(before[i], property);
      assert SubmittedFor(after[i], property);
    }
    if Surveyed(after, property) {
      var i :| 0 <= i < |after| && SubmittedFor(after[i], property);
      assert i < |before| && SubmittedFor(before[i], property);
    }
  }

  lemma NewReportLinked(assignments: seq<Assignment>, reports: seq<Report>, properties: seq<Property>, row: Report)
    requires InspectionsLinked(assignments, reports, properties)
    requires row.assignment < |assignments| && row.garden == assignments[row.assignment].garden
    requires forall i :: 0 <= i < |reports| ==> reports[i].assignment != row.assignment
    ensures InspectionsLinked(assignments, reports + [row], properties)
    ensures ReportsEvolve(reports, reports + [row])
  {
  }

  lemma NewReportKeeps(db: Db, row: Report)
    requires Inv(db) && row.submittedAt.None?
    requires row.assignment < |db.assignments| && row.garden == db.assignments[row.assignment].garden
    requires forall i :: 0 <= i < |db.reports| ==> db.reports[i].assignment != row.assignment
    ensures Inv(db.(reports := db.reports + [row])) && Evolves(db, db.(reports := db.reports + [row]))
  {
    SameRows(db);
    NewReportLinked(db.assignments, db.reports, db.properties, row);
    forall r | 0 <= r < |db.requests|
      ensures Surveyed(db.reports + [row], db.requests[r].property) == Surveyed(db.reports, db.requests[r].property)
    {
      NewReportUnsurveyed(db.reports, row, db.requests[r].property);
    }
    KeepBoards(db, db.(reports := db.reports + [row]));
  }

  lemma BeginVisitKeeps(db: Db, a: Id, now: Time, items: seq<ChecklistItem>)
    requires Inv(db) && a < |db.assignments|
    ensures var after := db.(assignments := db.assignments[a := StartedAssignment(db.assignments[a], now)], items := items);
            Inv(after) && Evolves(db, after)
  {
    SameRows(db);
    AssignmentRowLinked(db.assignments, db.reports, db.properties, a, StartedAssignment(db.assignments[a], now));
    KeepBoards(db, db.(assignments := db.assignments[a := StartedAssignment(db.assignments[a], now)], items := items));
  }

  lemma StartKeeps(db: Db, a: Id, inspector: Id, gps: Gps, template: seq<TemplateRow>, now: Time)
    requires Inv(db) && StartReport(db, a, inspector, gps, template, now).Committed?
    ensures var after := StartReport(db, a, inspector, gps, template, now).db;
            Inv(after) && Evolves(db, after)
  {
    var after := StartReport(db, a, inspector, gps, template, now).db;
    if ReportOf(db.reports, a).Some? {
      BeginVisitKeeps(db, a, now, after.items);
    } else {
      var row := Report(a, inspector, db.assignments[a].garden, OverallPending, None, gps, false, None, Draft, Some(now), None);
      FirstWhereIs(db.reports, (x: Report) => x.assignment == a);
      NewReportKeeps(db, row);
      var db1 := db.(reports := db.reports + [row]);
      BeginVisitKeeps(db1, a, now, after.items);
      EvolvesTransitive(db, db1, after);
    }
  }
}
