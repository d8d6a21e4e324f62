/** The checklist of a report over whole runs: it is seeded when its visit is first started, and again by
    a later start exactly when every item it ever had has been moved to another report. */
module Checklists {
  import opened Domain
  import opened Transactions
  import opened Endpoints
  import opened Runs
  import opened ReportLaws
  import opened VisitLaws

  /** The checklist upsert is given an item id of another report. */
  predicate Rehomes(db: Db, c: Commit) {
    && c.RecordItem? && c.item < |db.items| && c.check.report != db.items[c.item].report
    && ReportAccess(db, c.check.report, c.inspector).None?
  }

  /** No commit deletes a checklist item, and none but that upsert moves one to another report. */
  lemma EffectItems(db: Db, c: Commit, after: Db)
    requires after == Effect(db, c)
    ensures |db.items| <= |after.items|
    ensures forall k :: 0 <= k < |db.items| ==>
              (after.items[k].report == db.items[k].report <==> !(Rehomes(db, c) && c.item == k))
  {
    if c.Update? {
      if UpdateWorkflow(db, c.request, c.plan, c.actor, c.now).Committed? {
        UpdateReports(db, c.request, c.plan, c.actor, c.now);
      }
    } else if !c.Submit? && !c.StartVisit? && !c.Assess? && !c.RecordItem? && !c.TakePhoto? {
      OtherInspections(db, c, after);
    }
  }

  // ---------- Items along a run ----------

  /** Step `n` moves item `k` away from the report it is on. */
  ghost predicate Moves(trace: seq<Db>, acts: seq<Action>, n: nat, k: nat)
    requires |trace| == |acts| + 1 && n < |acts|
  {
    && acts[n].Direct? && Guarded(acts[n].commit)
    && Rehomes(trace[n], acts[n].commit) && acts[n].commit.item == k
  }

  lemma NextItems(past: seq<Db>, a: Action)
    requires past != []
    ensures var db, after := past[|past| - 1], Next(past, a);
            && |db.items| <= |after.items|
            && forall k :: 0 <= k < |db.items| ==>
                 (after.items[k].report == db.items[k].report
                  <==> !(a.Direct? && Guarded(a.commit) && Rehomes(db, a.commit) && a.commit.item == k))
  {
    if Resolve(past, a).Some? {
      EffectItems(past[|past| - 1], Resolve(past, a).value, Next(past, a));
    }
  }

  lemma RunItems(trace: seq<Db>, acts: seq<Action>, n: nat, k: nat)
    requires IsRun(trace, acts) && n < |acts| && k < |trace[n].items|
    ensures k < |trace[n + 1].items|
    ensures trace[n + 1].items[k].report == trace[n].items[k].report <==> !Moves(trace, acts, n, k)
  {
    NextItems(trace[..n + 1], acts[n]);
  }

  /** An item that is no longer on a report has been moved off it. */
  lemma {:induction false} MovedOff(trace: seq<Db>, acts: seq<Action>, m: nat, j: nat, k: nat, id: Id) returns (n: nat)
    requires IsRun(trace, acts) && m <= j < |trace| && k < |trace[m].items| && trace[m].items[k].report == id
    requires k < |trace[j].items| && trace[j].items[k].report != id
    ensures m <= n < j && k < |trace[n].items| && trace[n].items[k].report == id && Moves(trace, acts, n, k)
    decreases j - m
  {
    RunItems(trace, acts, m, k);
    if trace[m + 1].items[k].report != id {
      n := m;
    } else {
      n := MovedOff(trace, acts, m + 1, j, k, id);
    }
  }

  lemma {:induction false} ItemsStay(trace: seq<Db>, acts: seq<Action>, m: nat, j: nat, k: nat)
    requires IsRun(trace, acts) && m <= j < |trace| && k < |trace[m].items|
    ensures k < |trace[j].items|
    decreases j - m
  {
    if m < j {
      RunItems(trace, acts, m, k);
      ItemsStay(trace, acts, m + 1, j, k);
    }
  }

  /** Between states `m` and `j` some step moves item `k` off report `id`. */
  ghost predicate MovedBetween(trace: seq<Db>, acts: seq<Action>, m: nat, j: nat, k: nat, id: Id)
    requires |trace| == |acts| + 1 && j <= |acts|
  {
    exists n :: m <= n < j && k < |trace[n].items| && trace[n].items[k].report == id && Moves(trace, acts, n, k)
  }

  /** Item `k` is put on report `id` by the step to state `m`: seeded, inserted, or moved there. */
  predicate Arrives(trace: seq<Db>, m: nat, k: nat, id: Id) {
    && 0 < m < |trace| && OnReport(trace[m], k, id) && !OnReport(trace[m - 1], k, id)
  }

  predicate OnReport(db: Db, k: nat, id: Id) {
    k < |db.items| && db.items[k].report == id
  }

  /** Each item that report `id` held at state `i`, and each that came to it later, has been moved off it
      since. */
  ghost predicate AllMoved(trace: seq<Db>, acts: seq<Action>, i: nat, j: nat, id: Id)
    requires |trace| == |acts| + 1 && i <= j <= |acts|
  {
    && (forall k :: OnReport(trace[i], k, id) ==> MovedBetween(trace, acts, i, j, k, id))
    && (forall m, k :: i < m <= j && Arrives(trace, m, k, id) ==> MovedBetween(trace, acts, m, j, k, id))
  }

  lemma MoveLeaves(trace: seq<Db>, acts: seq<Action>, m: nat, j: nat, k: nat, id: Id) returns (n: nat)
    requires IsRun(trace, acts) && m <= j < |trace| && MovedBetween(trace, acts, m, j, k, id)
    ensures m < n <= j && !OnReport(trace[n], k, id)
  {
    var l :| m <= l < j && k < |trace[l].items| && trace[l].items[k].report == id && Moves(trace, acts, l, k);
    RunItems(trace, acts, l, k);
    n := l + 1;
  }

  /** Since when an item of the report has been on it. */
  lemma {:induction false} HeldSince(trace: seq<Db>, i: nat, j: nat, k: nat, id: Id) returns (m: nat)
    requires i <= j < |trace| && OnReport(trace[j], k, id)
    ensures i <= m <= j && (m == i || Arrives(trace, m, k, id))
    ensures forall n :: m <= n <= j ==> OnReport(trace[n], k, id)
    decreases j - i
  {
    if i == j {
      m := j;
    } else if OnReport(trace[j - 1], k, id) {
      m := HeldSince(trace, i, j - 1, k, id);
    } else {
      m := j;
    }
  }

  lemma StaysOrMoves(trace: seq<Db>, acts: seq<Action>, m: nat, j: nat, k: nat, id: Id)
    requires IsRun(trace, acts) && m <= j < |trace| && OnReport(trace[m], k, id) && !HasChecklist(trace[j].items, id)
    ensures MovedBetween(trace, acts, m, j, k, id)
  {
    ItemsStay(trace, acts, m, j, k);
    var n := MovedOff(trace, acts, m, j, k, id);
  }

  /** A report has no item left exactly when each one it held and each that came later was moved off. */
  lemma NoChecklistExactly(trace: seq<Db>, acts: seq<Action>, i: nat, j: nat, id: Id)
    requires IsRun(trace, acts) && i <= j < |trace|
    ensures !HasChecklist(trace[j].items, id) <==> AllMoved(trace, acts, i, j, id)
  {
    if HasChecklist(trace[j].items, id) {
      var k :| 0 <= k < |trace[j].items| && trace[j].items[k].report == id;
      var m := HeldSince(trace, i, j, k, id);
      if MovedBetween(trace, acts, m, j, k, id) {
        var n := MoveLeaves(trace, acts, m, j, k, id);
      }
    } else {
      forall k: nat | OnReport(trace[i], k, id) ensures MovedBetween(trace, acts, i, j, k, id) {
        StaysOrMoves(trace, acts, i, j, k, id);
      }
      forall m: nat, k: nat | i < m <= j && Arrives(trace, m, k, id) ensures MovedBetween(trace, acts, m, j, k, id) {
        StaysOrMoves(trace, acts, m, j, k, id);
      }
    }
  }

  /** A later start seeds again exactly when every item of the report has been moved to another one;
      otherwise it adds no item. In either case it finds the report and inserts none. */
  lemma SeedsAgainExactly(trace: seq<Db>, acts: seq<Action>, i: nat, j: nat, a: Id, inspector: Id, gps: Gps, now: Time)
    requires IsRun(trace, acts) && i <= j < |trace| && ReportOf(trace[i].reports, a).Some?
    requires StartReport(trace[j], a, inspector, gps, CHECKLIST_TEMPLATE, now).Committed?
    ensures var id := ReportOf(trace[i].reports, a).value;
            var out := StartReport(trace[j], a, inspector, gps, CHECKLIST_TEMPLATE, now);
            && out.value == id && out.db.reports == trace[j].reports
            && (out.db.items != trace[j].items <==> AllMoved(trace, acts, i, j, id))
            && (AllMoved(trace, acts, i, j, id) ==>
                  out.db.items == trace[j].items + SeededItems(id, CHECKLIST_TEMPLATE))
  {
    var id := ReportOf(trace[i].reports, a).value;
    StartAgainFindsReport(trace, acts, i, j, a, inspector, gps, CHECKLIST_TEMPLATE, now);
    NoChecklistExactly(trace, acts, i, j, id);
  }

  /** So as long as no upsert is given an item of another report, a checklist is seeded once. */
  lemma ChecklistIsSeededOnce(trace: seq<Db>, acts: seq<Action>, i: nat, j: nat, a: Id, inspector: Id, gps: Gps, now: Time)
    requires IsRun(trace, acts) && i <= j < |trace|
    requires forall n, k: nat :: i <= n < j ==> !Moves(trace, acts, n, k)
    requires ReportOf(trace[i].reports, a).Some? && HasChecklist(trace[i].items, ReportOf(trace[i].reports, a).value)
    requires StartReport(trace[j], a, inspector, gps, CHECKLIST_TEMPLATE, now).Committed?
    ensures StartReport(trace[j], a, inspector, gps, CHECKLIST_TEMPLATE, now).db.items == trace[j].items
  {
    SeedsAgainExactly(trace, acts, i, j, a, inspector, gps, now);
    var id := ReportOf(trace[i].reports, a).value;
    var k :| 0 <= k < |trace[i].items| && trace[i].items[k].report == id;
    assert OnReport(trace[i], k, id) && !MovedBetween(trace, acts, i, j, k, id);
  }
}
