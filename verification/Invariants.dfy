/** What holds of every reachable database, and how a commit may change it. */
module Invariants {
  import opened Wrappers
  import opened Domain
  import opened StageBoard
  import opened StageHistory
  import opened BoardTable

  // ---------- Links between rows ----------

  /** A linked property exists, belongs to the request's owner and to no other request; exactly the
      requests that have not been scheduled (or were closed before that) have none. */
  ghost predicate RequestsLinked(requests: seq<Request>, properties: seq<Property>) {
    && (forall r :: 0 <= r < |requests| ==> RequestLinked(requests[r], properties))
    && (forall r, q :: 0 <= r < q < |requests| && requests[r].property.Some? ==>
          requests[r].property != requests[q].property)
  }

  ghost predicate RequestLinked(row: Request, properties: seq<Property>) {
    && (row.property.Some? ==>
          row.property.value < |properties| && properties[row.property.value].owner == row.owner)
    && (row.status == Submitted ==> row.property.None?)
    && (row.property.None? ==> row.status == Submitted || Closed(row.status))
  }

  /** A property has at most one open assignment, an assignment at most one report. */
  ghost predicate InspectionsLinked(assignments: seq<Assignment>, reports: seq<Report>, properties: seq<Property>) {
    && (forall a :: 0 <= a < |assignments| ==> assignments[a].garden < |properties|)
    && (forall a, b :: 0 <= a < b < |assignments| && Open(assignments[a]) && Open(assignments[b]) ==>
          assignments[a].garden != assignments[b].garden)
    && (forall i :: 0 <= i < |reports| ==>
          reports[i].assignment < |assignments| && reports[i].garden == assignments[reports[i].assignment].garden)
    && (forall i, j :: 0 <= i < j < |reports| ==> reports[i].assignment != reports[j].assignment)
  }

  /** A property has at most one installation, which is active and dated; batches belong to installations. */
  ghost predicate GardensLinked(installations: seq<Installation>, batches: seq<Batch>, properties: seq<Property>) {
    && (forall i :: 0 <= i < |installations| ==>
          installations[i].property < |properties|
          && installations[i].status == Active && installations[i].installedAt.Some?)
    && (forall i, j :: 0 <= i < j < |installations| ==> installations[i].property != installations[j].property)
    && (forall b :: 0 <= b < |batches| ==> batches[b].installation < |installations|)
  }

  // ---------- Setup by status ----------

  ghost predicate InstallationAt(installations: seq<Installation>, i: nat, p: Id, owner: Id) {
    i < |installations| && installations[i].property == p && installations[i].owner == owner
  }

  ghost predicate BatchOf(rows: seq<Batch>, b: nat, i: Id) {
    b < |rows| && rows[b].installation == i
  }

  /** The crop batches an installation holds while its request is in status `s`. */
  ghost predicate CropsFit(s: RequestStatus, rows: seq<Batch>, i: Id) {
    && (s == ImplementsInstalled ==> forall b :: 0 <= b < |rows| ==> rows[b].installation != i)
    && (s == Seeds || s == FinalInstall || s == Live ==> exists b :: BatchOf(rows, b, i))
    && (s == Seeds ==> forall b :: 0 <= b < |rows| && rows[b].installation == i ==>
                                     rows[b].status == BatchPlanned || rows[b].status == Growing)
    && (s == FinalInstall || s == Live ==>
          forall b :: 0 <= b < |rows| && rows[b].installation == i ==>
                        rows[b].status == Growing && rows[b].plantedAt.Some?)
  }

  ghost predicate SetupFits(row: Request, installations: seq<Installation>, batches: seq<Batch>) {
    row.property.Some? && !Closed(row.status) ==>
      && (Rank(row.status) < 4 ==>
            forall i :: 0 <= i < |installations| ==> installations[i].property != row.property.value)
      && (Rank(row.status) >= 4 ==> exists i :: InstallationAt(installations, i, row.property.value, row.owner))
      && (forall i :: 0 <= i < |installations| && installations[i].property == row.property.value ==>
            CropsFit(row.status, batches, i))
  }

  ghost predicate Setups(requests: seq<Request>, installations: seq<Installation>, batches: seq<Batch>) {
    forall r :: 0 <= r < |requests| ==> SetupFits(requests[r], installations, batches)
  }

  // ---------- Boards and audit ----------

  ghost predicate SubmittedFor(rep: Report, property: Option<Id>) {
    Some(rep.garden) == property && rep.submittedAt.Some?
  }

  ghost predicate Surveyed(reports: seq<Report>, property: Option<Id>) {
    exists i :: 0 <= i < |reports| && SubmittedFor(reports[i], property)
  }

  ghost predicate BoardAt(row: Request, reports: seq<Report>, w: Workflow) {
    BoardFits(row.status, w, Surveyed(reports, row.property))
  }

  ghost predicate Boards(requests: seq<Request>, reports: seq<Report>, ws: seq<Workflow>) {
    && |ws| == |requests|
    && forall r :: 0 <= r < |requests| ==> BoardAt(requests[r], reports, ws[r])
  }

  /** Every stage row is what replaying its events from the seeded row gives, and the events chain. */
  ghost predicate Audited(ws: seq<Workflow>, events: seq<StageEvent>) {
    && (forall e :: e in events ==> e.request < |ws|)
    && forall r :: 0 <= r < |ws| ==> AllStages(ws[r]) && Trail(r, SeedWorkflow(ws[r].owner), events, ws[r])
  }

  /** The part of the invariant that stage writes do not touch. */
  ghost predicate RowsFit(db: Db) {
    && RequestsLinked(db.requests, db.properties)
    && InspectionsLinked(db.assignments, db.reports, db.properties)
    && GardensLinked(db.installations, db.batches, db.properties)
    && Setups(db.requests, db.installations, db.batches)
  }

  ghost predicate Inv(db: Db) {
    && RowsFit(db)
    && Boards(db.requests, db.reports, db.workflows)
    && Audited(db.workflows, db.events)
  }

  // ---------- How databases evolve ----------

  ghost predicate StatusReaches(s: RequestStatus, t: RequestStatus) {
    s == t || Rank(s) < Rank(t)
  }

  ghost predicate RequestEvolves(a: Request, b: Request) {
    && b.owner == a.owner
    && (a.property.Some? ==> b.property == a.property)
    && StatusReaches(a.status, b.status)
  }

  ghost predicate AssignmentEvolves(a: Assignment, b: Assignment) {
    b.garden == a.garden && (Open(b) ==> Open(a))
  }

  ghost predicate ReportEvolves(a: Report, b: Report) {
    b.assignment == a.assignment && b.garden == a.garden && b.inspector == a.inspector && (a.submittedAt.Some? ==> b.submittedAt.Some?)
  }

  ghost predicate RequestsEvolve(a: seq<Request>, b: seq<Request>) {
    |a| <= |b| && forall r :: 0 <= r < |a| ==> RequestEvolves(a[r], b[r])
  }

  ghost predicate PropertiesEvolve(a: seq<Property>, b: seq<Property>) {
    |a| <= |b| && forall p :: 0 <= p < |a| ==> b[p].owner == a[p].owner
  }

  ghost predicate AssignmentsEvolve(a: seq<Assignment>, b: seq<Assignment>) {
    |a| <= |b| && forall i :: 0 <= i < |a| ==> AssignmentEvolves(a[i], b[i])
  }

  ghost predicate ReportsEvolve(a: seq<Report>, b: seq<Report>) {
    |a| <= |b| && forall i :: 0 <= i < |a| ==> ReportEvolves(a[i], b[i])
  }

  ghost predicate InstallationsEvolve(a: seq<Installation>, b: seq<Installation>) {
    |a| <= |b| && forall i :: 0 <= i < |a| ==> b[i].property == a[i].property
  }

  ghost predicate RowsEvolve(a: Db, b: Db) {
    && RequestsEvolve(a.requests, b.requests)
    && PropertiesEvolve(a.properties, b.properties)
    && AssignmentsEvolve(a.assignments, b.assignments)
    && ReportsEvolve(a.reports, b.reports)
    && InstallationsEvolve(a.installations, b.installations)
  }

  ghost predicate StagesGrow(a: seq<Workflow>, b: seq<Workflow>) {
    && |a| <= |b|
    && forall r :: 0 <= r < |a| ==> AllStages(a[r]) && AllStages(b[r]) && Grows(a[r], b[r])
  }

  /** Statuses only advance, links never change, finished visits stay finished, recorded stage times
      and evidence keys stay, and the event log only grows. */
  ghost predicate Evolves(a: Db, b: Db) {
    RowsEvolve(a, b) && StagesGrow(a.workflows, b.workflows) && a.events <= b.events
  }

  lemma EvolvesTransitive(a: Db, b: Db, c: Db)
    requires Evolves(a, b) && Evolves(b, c)
    ensures Evolves(a, c)
  {
    RowsTransitive(a, b, c);
    forall r | 0 <= r < |a.workflows| ensures Grows(a.workflows[r], c.workflows[r]) {
      forall k: StageKey ensures RowGrows(a.workflows[r].stages[k], c.workflows[r].stages[k]) {
        assert RowGrows(a.workflows[r].stages[k], b.workflows[r].stages[k]);
        assert RowGrows(b.workflows[r].stages[k], c.workflows[r].stages[k]);
      }
    }
  }

  lemma RowsTransitive(a: Db, b: Db, c: Db)
    requires RowsEvolve(a, b) && RowsEvolve(b, c)
    ensures RowsEvolve(a, c)
  {
  }

  lemma EvolvesReflexive(a: Db)
    requires Audited(a.workflows, a.events)
    ensures Evolves(a, a)
  {
  }

  // ---------- Storing boards ----------

  /** Storing a lawful board keeps the audit of every workflow and loses no history. */
  lemma StoreAudit(ws: seq<Workflow>, events: seq<StageEvent>, r: Id, b: Board)
    requires Audited(ws, events) && r < |ws| && Lawful(r, ws[r], b) && b.workflow.owner == ws[r].owner
    ensures Audited(ws[r := b.workflow], events + b.events)
    ensures StagesGrow(ws, ws[r := b.workflow])
  {
    var ws' := ws[r := b.workflow];
    forall q | 0 <= q < |ws'| ensures Trail(q, SeedWorkflow(ws'[q].owner), events + b.events, ws'[q]) {
      if q == r {
        TrailThen(r, SeedWorkflow(ws[r].owner), events, ws[r], b.events, b.workflow);
      } else {
        ForeignTrail(q, ws[q], b.events);
        TrailThen(q, SeedWorkflow(ws[q].owner), events, ws[q], b.events, ws[q]);
      }
    }
    assert forall q :: 0 <= q < |ws| && q != r ==> ws'[q] == ws[q];
  }

  lemma ForeignTrail(q: Id, w: Workflow, events: seq<StageEvent>)
    requires AllStages(w) && forall e :: e in events ==> e.request != q
    ensures Trail(q, w, events, w)
  {
    forall k: StageKey
      ensures Replay(events, q, k, MarkOf(w.stages[k])) == MarkOf(w.stages[k])
              && Chained(events, q, k, MarkOf(w.stages[k]))
    {
      ReplayForeign(events, q, k, MarkOf(w.stages[k]));
    }
  }

  lemma SeedAudit(ws: seq<Workflow>, events: seq<StageEvent>, owner: Id)
    requires Audited(ws, events)
    ensures Audited(ws + [SeedWorkflow(owner)], events)
    ensures StagesGrow(ws, ws + [SeedWorkflow(owner)])
  {
    var more := ws + [SeedWorkflow(owner)];
    SeedFits(owner);
    ForeignTrail(|ws|, SeedWorkflow(owner), events);
    forall r | 0 <= r < |more| ensures AllStages(more[r]) && Trail(r, SeedWorkflow(more[r].owner), events, more[r]) {
      if r < |ws| {
        assert more[r] == ws[r];
      }
    }
    forall r | 0 <= r < |ws| ensures AllStages(ws[r]) && AllStages(more[r]) && Grows(ws[r], more[r]) {
      assert more[r] == ws[r];
    }
  }

  lemma {:induction false} WriteStagesOwner(how: Writer, r: Id, w: Workflow, us: seq<StageUpdate>, actor: Id, now: Time)
    ensures WriteStages(how, r, w, us, actor, now).Success? ==>
              WriteStages(how, r, w, us, actor, now).value.workflow.owner == w.owner
    decreases |us|
  {
    if us != [] && us[0].key in w.stages {
      var row := WrittenRow(how, w.stages[us[0].key], us[0], actor, now);
      WriteStagesOwner(how, r, WriteStage(r, w, us[0].key, row, actor, now).workflow, us[1..], actor, now);
    }
  }
}
