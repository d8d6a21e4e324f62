/** The two dates of a visit, and what the request records of them: they agree on a first schedule, and
    after a reschedule only when the chosen ones do. */
module Schedules {
  import opened Domain
  import opened Transactions
  import opened StatusPreservation
  import opened Achievements
  import opened Runs
  import opened Inspectors

  // ---------- The due date and the day of the visit ----------

  predicate Aligned(v: Visit) {
    v.dueDate == DayOf(v.scheduledFor)
  }

  predicate SameDates(a: Visit, b: Visit) {
    a.dueDate == b.dueDate && a.scheduledFor == b.scheduledFor
  }

  /** A time is of the day that begins at the last midnight before it. */
  lemma DaysAre(t: Time)
    ensures Midnight(DayOf(t)) <= t < Midnight(DayOf(t) + 1) == Midnight(DayOf(t)) + 24 * 60 * 60
    ensures DayOf(Midnight(DayOf(t))) == DayOf(t) && Midnight(0) == 0
  {
  }

  /** A reschedule aligns the dates if it changes one of them. */
  lemma SyncedVisitIs(before: Visit, v: Visit)
    ensures Aligned(SyncedVisit(before, v)) <==> Aligned(before) || !SameDates(before, v)
    ensures SameDates(SyncedVisit(before, v), v)
            <==> SameDates(before, v) || (if v.scheduledFor != before.scheduledFor then Aligned(v)
                                          else v.scheduledFor == Midnight(v.dueDate))
  {
    assert DayOf(Midnight(v.dueDate)) == v.dueDate;
  }

  /** Step `n` reschedules assignment `a` to another time or another due date. */
  predicate ChangesDates(trace: seq<Db>, acts: seq<Action>, n: nat, a: Id)
    requires |trace| == |acts| + 1 && n < |acts|
  {
    && ReassignsAt(trace, acts, n, a) && a < |trace[n].assignments|
    && !SameDates(trace[n].assignments[a].visit, acts[n].commit.schedule.visit)
  }

  lemma NextVisits(past: seq<Db>, x: Action, a: Id)
    requires past != [] && a < |past[|past| - 1].assignments|
    ensures var db, after := past[|past| - 1], Next(past, x);
            && a < |after.assignments|
            && after.assignments[a].visit
               == if x.Direct? && Reassigns(db, x.commit, a)
                  then SyncedVisit(db.assignments[a].visit, x.commit.schedule.visit) else db.assignments[a].visit
  {
    if Resolve(past, x).Some? {
      EffectInspectors(past[|past| - 1], Resolve(past, x).value, Next(past, x));
    }
  }

  lemma RunVisits(trace: seq<Db>, acts: seq<Action>, n: nat, a: Id)
    requires IsRun(trace, acts) && n < |acts| && a < |trace[n].assignments|
    ensures a < |trace[n + 1].assignments|
    ensures Aligned(trace[n + 1].assignments[a].visit)
            <==> Aligned(trace[n].assignments[a].visit) || ChangesDates(trace, acts, n, a)
  {
    NextVisits(trace[..n + 1], acts[n], a);
    if ReassignsAt(trace, acts, n, a) {
      SyncedVisitIs(trace[n].assignments[a].visit, acts[n].commit.schedule.visit);
    }
  }

  /** What is on stays on, and is switched on by a step that sets it. */
  lemma {:induction false} OnceOn(on: seq<bool>, sets: seq<bool>, i: nat, j: nat)
    requires |on| == |sets| + 1 && i <= j < |on|
    requires forall n :: i <= n < j ==> (on[n + 1] <==> on[n] || sets[n])
    ensures on[j] <==> on[i] || exists n :: i <= n < j && sets[n]
    decreases j - i
  {
    if i < j {
      OnceOn(on, sets, i, j - 1);
    }
  }

  predicate AlignedAt(trace: seq<Db>, n: nat, a: Id) {
    n < |trace| && a < |trace[n].assignments| && Aligned(trace[n].assignments[a].visit)
  }

  lemma AlignedNext(trace: seq<Db>, acts: seq<Action>, i: nat, n: nat, a: Id)
    requires IsRun(trace, acts) && i <= n < |acts| && a < |trace[i].assignments|
    ensures AlignedAt(trace, n + 1, a) <==> AlignedAt(trace, n, a) || ChangesDates(trace, acts, n, a)
  {
    AssignmentStays(trace, acts, i, n, a);
    RunVisits(trace, acts, n, a);
  }

  /** Along a run, an assignment's due date is the day of its visit if and only if it was so to begin with
      or some reschedule since changed either date; once so, it stays so. */
  lemma AlignedExactly(trace: seq<Db>, acts: seq<Action>, i: nat, j: nat, a: Id)
    requires IsRun(trace, acts) && i <= j < |trace| && a < |trace[i].assignments|
    ensures AlignedAt(trace, j, a) <==> AlignedAt(trace, i, a) || exists n :: i <= n < j && ChangesDates(trace, acts, n, a)
  {
    var on := seq(|trace|, n requires 0 <= n < |trace| => AlignedAt(trace, n, a));
    var sets := seq(|acts|, n requires 0 <= n < |acts| => ChangesDates(trace, acts, n, a));
    forall n | i <= n < j ensures on[n + 1] <==> on[n] || sets[n] {
      AlignedNext(trace, acts, i, n, a);
    }
    OnceOn(on, sets, i, j);
    assert forall n :: i <= n < j ==> (sets[n] <==> ChangesDates(trace, acts, n, a));
  }

  // ---------- What the request records ----------

  /** The dates written into the request's details are those the assignment has. */
  predicate DatesRecorded(row: Request, v: Visit) {
    && InspectionAssignmentKey in row.details
    && var record := row.details[InspectionAssignmentKey];
       && record.JObject? && "dueDate" in record.fields && "scheduledFor" in record.fields
       && record.fields["dueDate"] == JDay(v.dueDate) && record.fields["scheduledFor"] == JTime(v.scheduledFor)
  }

  lemma RecordedIs(row: Request, p: Id, a: Id, s: Schedule, actor: Id, now: Time, v: Visit)
    ensures DatesRecorded(ScheduledRequest(row, p, a, s, actor, now), v) <==> SameDates(s.visit, v)
  {
  }

  lemma ScheduledRecord(db: Db, r: Id, s: Schedule, actor: Id, now: Time)
    requires ScheduleInspection(db, r, s, actor, now).Committed?
    ensures var out := ScheduleInspection(db, r, s, actor, now);
            && r < |db.requests| == |out.db.requests|
            && exists p :: out.db.requests[r] == ScheduledRequest(db.requests[r], p, out.value.assignment, s, actor, now)
  {
    SchedulingIs(db, r, s, actor, now);
  }

  /** After a committed schedule the request records the assignment's dates if and only if the visit is new,
      neither date changed, the new time falls on the chosen due date, or the unchanged time is the new
      due date's midnight. */
  lemma DatesRecordedExactly(db: Db, r: Id, s: Schedule, actor: Id, now: Time)
    requires ScheduleInspection(db, r, s, actor, now).Committed?
    ensures var out, v := ScheduleInspection(db, r, s, actor, now), s.visit;
            && r < |out.db.requests| && out.value.assignment < |out.db.assignments|
            && (DatesRecorded(out.db.requests[r], out.db.assignments[out.value.assignment].visit)
                <==> || out.value.assignment == |db.assignments|
                     || (out.value.assignment < |db.assignments|
                         && var before := db.assignments[out.value.assignment].visit;
                            || SameDates(before, v)
                            || (if v.scheduledFor != before.scheduledFor then Aligned(v)
                                else v.scheduledFor == Midnight(v.dueDate))))
  {
    var out := ScheduleInspection(db, r, s, actor, now);
    ScheduledVisit(db, r, s, actor, now);
    ScheduledRecord(db, r, s, actor, now);
    var p :| out.db.requests[r] == ScheduledRequest(db.requests[r], p, out.value.assignment, s, actor, now);
    var stored := out.db.assignments[out.value.assignment].visit;
    RecordedIs(db.requests[r], p, out.value.assignment, s, actor, now, stored);
    if out.value.assignment < |db.assignments| {
      SyncedVisitIs(db.assignments[out.value.assignment].visit, s.visit);
    }
  }
}
