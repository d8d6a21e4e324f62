/** What holds in every state of every run, and between any two of them. */
module RunLaws {
  import opened Wrappers
  import opened Domain
  import opened StageBoard
  import opened Transactions
  import opened StageHistory
  import opened BoardTable
  import opened Invariants
  import opened Runs

  // ---------- The audit log ----------

  /** Replaying a stage's events from its seeded row gives exactly the stored status and evidence,
      and each event starts from the status the one before it ended with and records a change. */
  lemma AuditLogIsComplete(trace: seq<Db>, acts: seq<Action>, n: nat, r: Id, k: StageKey)
    requires IsRun(trace, acts) && n < |trace| && r < |trace[n].workflows|
    ensures k in trace[n].workflows[r].stages
    ensures Replay(trace[n].events, r, k, MarkOf(SeedStage(k))) == MarkOf(trace[n].workflows[r].stages[k])
    ensures Chained(trace[n].events, r, k, MarkOf(SeedStage(k)))
  {
    EveryStateFits(trace, acts, n);
    var w := trace[n].workflows[r];
    assert Trail(r, SeedWorkflow(w.owner), trace[n].events, w);
    assert SeedWorkflow(w.owner).stages[k] == SeedStage(k);
  }

  /** Start and completion times are written once, evidence keys are never lost, events never removed. */
  lemma HistoryIsKept(trace: seq<Db>, acts: seq<Action>, i: nat, j: nat, r: Id, k: StageKey)
    requires IsRun(trace, acts) && i <= j < |trace| && r < |trace[i].workflows|
    ensures r < |trace[j].workflows| && k in trace[i].workflows[r].stages && k in trace[j].workflows[r].stages
    ensures var s, t := trace[i].workflows[r].stages[k], trace[j].workflows[r].stages[k];
            && (s.startedAt.Some? ==> t.startedAt == s.startedAt)
            && (s.completedAt.Some? ==> t.completedAt == s.completedAt)
            && s.evidence.Keys <= t.evidence.Keys
    ensures trace[i].events <= trace[j].events
  {
    RunEvolves(trace, acts, i, j);
    assert RowGrows(trace[i].workflows[r].stages[k], trace[j].workflows[r].stages[k]);
  }

  // ---------- The stage board ----------

  /** The four stages are determined by the request's status, but for one: while an inspection is
      scheduled, approval is ready exactly when a report of the garden was ever submitted. The header
      is cancelled exactly when the request is rejected or cancelled. */
  lemma BoardFollowsStatus(trace: seq<Db>, acts: seq<Action>, n: nat, r: Id)
    requires IsRun(trace, acts) && n < |trace| && r < |trace[n].requests|
    ensures |trace[n].workflows| == |trace[n].requests| && AllStages(trace[n].workflows[r])
    ensures var row, w := trace[n].requests[r], trace[n].workflows[r];
            && (w.status == WorkflowCancelled <==> row.status == Rejected || row.status == Cancelled)
            && (row.status != Cancelled ==>
                  StagesOf(w) == StagesFor(row.status, Surveyed(trace[n].reports, row.property)))
            && (row.status == Cancelled ==> w.stages[Approval].status == Skipped)
  {
    EveryStateFits(trace, acts, n);
    assert BoardAt(trace[n].requests[r], trace[n].reports, trace[n].workflows[r]);
  }

  // ---------- The garden behind a request ----------

  /** Every query for a property's installation finds row `i`. */
  ghost predicate TheInstallation(rows: seq<Installation>, p: Id, i: Id) {
    && i < |rows| && rows[i].property == p && rows[i].status == Active && rows[i].installedAt.Some?
    && (forall j :: 0 <= j < |rows| && rows[j].property == p ==> j == i)
    && FirstInstallation(rows, p) == Some(i)
    && FirstActive(rows, p) == Some(i)
    && FirstCompleted(rows, p) == Some(i)
  }

  lemma OneInstallation(rows: seq<Installation>, batches: seq<Batch>, properties: seq<Property>, p: Id, i: Id)
    requires GardensLinked(rows, batches, properties) && i < |rows| && rows[i].property == p
    ensures TheInstallation(rows, p, i)
  {
    FirstWhereIs(rows, (x: Installation) => x.property == p);
    FirstWhereIs(rows, (x: Installation) => x.property == p && x.status == Active);
    FirstWhereIs(rows, (x: Installation) => x.property == p && x.status == Active && x.installedAt.Some?);
  }

  /** The property, installation and batches a request in status `s` has. */
  ghost predicate SetUp(db: Db, row: Request, p: Id) {
    && p < |db.properties| && db.properties[p].owner == row.owner
    && (Rank(row.status) >= 4 ==>
          exists i: nat :: TheInstallation(db.installations, p, i) && db.installations[i].owner == row.owner
                      && CropsFit(row.status, db.batches, i))
  }

  lemma SetupOf(db: Db, r: Id)
    requires RowsFit(db) && r < |db.requests| && !Closed(db.requests[r].status) && db.requests[r].status != Submitted
    ensures db.requests[r].property.Some? && SetUp(db, db.requests[r], db.requests[r].property.value)
  {
    var row := db.requests[r];
    assert RequestLinked(row, db.properties) && SetupFits(row, db.installations, db.batches);
    if Rank(row.status) >= 4 {
      var i :| InstallationAt(db.installations, i, row.property.value, row.owner);
      OneInstallation(db.installations, db.batches, db.properties, row.property.value, i);
    }
  }

  /** From the scheduled visit on a property of the owner is linked; from the finished installation on
      there is exactly one installation, active and dated, that every query finds; its batches are
      planned or growing in `seeds`, growing and dated in `final_install` and `live`. */
  lemma SetupFollowsStatus(trace: seq<Db>, acts: seq<Action>, n: nat, r: Id)
    requires IsRun(trace, acts) && n < |trace| && r < |trace[n].requests|
    requires !Closed(trace[n].requests[r].status) && trace[n].requests[r].status != Submitted
    ensures trace[n].requests[r].property.Some?
    ensures SetUp(trace[n], trace[n].requests[r], trace[n].requests[r].property.value)
  {
    EveryStateFits(trace, acts, n);
    SetupOf(trace[n], r);
  }
}
