/** What a request records of its inspection, along a run: scheduling writes it, and clients copy it back
    from what they had read. */
module Records {
  import opened Wrappers
  import opened Domain
  import opened Transactions
  import opened Requests
  import opened StatusPreservation
  import opened Achievements
  import opened Runs
  import opened DetailWrites
  import opened Photos
  import opened Inspectors
  import opened Schedules

  function RecordOf(details: Details): Option<Json> {
    if InspectionAssignmentKey in details then Some(details[InspectionAssignmentKey]) else None
  }

  predicate SchedulesNow(db: Db, a: Action, r: Id) {
    && a.Direct? && a.commit.ScheduleVisit? && a.commit.request == r
    && ScheduleInspection(db, r, a.commit.schedule, a.commit.actor, a.commit.now).Committed?
  }

  // ---------- One step ----------

  lemma WrittenRecord(past: seq<Db>, a: Action, r: Id)
    requires past != [] && Rewrites(past, a, r)
    ensures (a.UploadPhoto? || a.PatchStatus?) && a.request == r
    ensures a.readRequest < |past| && r < |past[a.readRequest].requests|
    ensures RecordOf(WrittenDetails(Resolve(past, a).value).value) == RecordOf(past[a.readRequest].requests[r].details)
  {
    if a.PatchStatus? {
      PlansFit(past[a.readRequest].requests[a.request], a.target, a.notes,
               Seen(past[a.readReports], past[a.readInstallations], past[a.readBatches]), a.actor, a.plannedAt);
    }
  }

  lemma RewrittenRecord(past: seq<Db>, a: Action, r: Id)
    requires past != [] && r < |past[|past| - 1].requests| && Rewrites(past, a, r)
    ensures (a.UploadPhoto? || a.PatchStatus?) && a.request == r
    ensures a.readRequest < |past| && r < |past[a.readRequest].requests| && r < |Next(past, a).requests|
    ensures RecordOf(Next(past, a).requests[r].details) == RecordOf(past[a.readRequest].requests[r].details)
  {
    WrittenRecord(past, a, r);
    CommittedDetails(past[|past| - 1], Resolve(past, a).value);
  }

  lemma UnwrittenRecord(db: Db, c: Commit, after: Db, r: Id)
    requires Guarded(c) && after == Effect(db, c) && r < |db.requests| && !c.ScheduleVisit?
    requires WrittenDetails(c).Some? && c.request == r ==> !Commits(db, c)
    ensures r < |after.requests| && RecordOf(after.requests[r].details) == RecordOf(db.requests[r].details)
  {
    if WrittenDetails(c).Some? && c.request == r {
      RefusedDetails(db, c);
    } else {
      EffectDetails(InspectionAssignmentKey, db, c, after);
      assert SameAt(InspectionAssignmentKey, db.requests[r].details, after.requests[r].details);
    }
  }

  lemma ScheduleRecords(db: Db, q: Id, s: Schedule, actor: Id, now: Time, after: Db, r: Id)
    requires after == After(db, ScheduleInspection(db, q, s, actor, now)) && r < |db.requests|
    requires q == r ==> !ScheduleInspection(db, q, s, actor, now).Committed?
    ensures r < |after.requests| && after.requests[r] == db.requests[r]
  {
    if ScheduleInspection(db, q, s, actor, now).Committed? {
      SchedulingIs(db, q, s, actor, now);
    }
  }

  lemma UntouchedRecord(past: seq<Db>, a: Action, r: Id)
    requires past != [] && r < |past[|past| - 1].requests|
    requires !Rewrites(past, a, r) && !SchedulesNow(past[|past| - 1], a, r)
    ensures r < |Next(past, a).requests|
    ensures RecordOf(Next(past, a).requests[r].details) == RecordOf(past[|past| - 1].requests[r].details)
  {
    var db, c := past[|past| - 1], Resolve(past, a);
    if c.Some? {
      ResolvedIsGuarded(past, a);
      if c.value.ScheduleVisit? {
        ScheduleRecords(db, c.value.request, c.value.schedule, c.value.actor, c.value.now, Next(past, a), r);
      } else {
        UnwrittenRecord(db, c.value, Next(past, a), r);
      }
    }
  }

  // ---------- Along a run ----------

  /** How step `n` writes the record of a request. */
  datatype Write = Born | Untouched | Copied(from: nat) | Rescheduled

  function WriteAt(trace: seq<Db>, acts: seq<Action>, r: Id, n: nat): Write
    requires |trace| == |acts| + 1 && n < |acts|
  {
    if r >= |trace[n].requests| then Born
    else if SchedulesNow(trace[n], acts[n], r) then Rescheduled
    else if RewritesAt(trace, acts, r, n) && (acts[n].UploadPhoto? || acts[n].PatchStatus?)
    then Copied(acts[n].readRequest) else Untouched
  }

  /** `writes` tells of each step of the run how it writes the record of request `r`. */
  ghost predicate AreWrites(trace: seq<Db>, acts: seq<Action>, r: Id, writes: seq<Write>)
    requires |trace| == |acts| + 1
  {
    && |writes| == |acts|
    && forall n {:trigger WriteAt(trace, acts, r, n)} :: 0 <= n < |acts| ==> writes[n] == WriteAt(trace, acts, r, n)
  }

  function Writes(trace: seq<Db>, acts: seq<Action>, r: Id): (writes: seq<Write>)
    requires |trace| == |acts| + 1
    ensures AreWrites(trace, acts, r, writes)
  {
    seq(|acts|, n requires 0 <= n < |acts| => WriteAt(trace, acts, r, n))
  }

  /** The scheduling step that the record of state `j` comes from, following from each copy what it read. */
  function Origin(writes: seq<Write>, j: nat): (n: Option<nat>)
    requires j <= |writes|
    ensures n.Some? ==> n.value < j && writes[n.value] == Rescheduled
    decreases j
  {
    if j == 0 then None
    else
      match writes[j - 1]
      case Born => None
      case Untouched => Origin(writes, j - 1)
      case Copied(t) => if t < j then Origin(writes, t) else None
      case Rescheduled => Some(j - 1)
  }

  predicate HandedDown(writes: seq<Write>, records: seq<Option<Json>>, m: nat)
    requires |records| == |writes| + 1 && m < |writes|
  {
    match writes[m]
    case Untouched => records[m + 1] == records[m]
    case Copied(t) => t <= m && records[m + 1] == records[t]
    case _ => true
  }

  lemma {:induction false} OriginLaw(writes: seq<Write>, records: seq<Option<Json>>, j: nat)
    requires |records| == |writes| + 1 && j <= |writes| && Origin(writes, j).Some?
    requires forall m :: 0 <= m < |writes| ==> HandedDown(writes, records, m)
    ensures records[j] == records[Origin(writes, j).value + 1]
    decreases j
  {
    assert HandedDown(writes, records, j - 1);
    match writes[j - 1] {
      case Untouched => OriginLaw(writes, records, j - 1);
      case Copied(t) => OriginLaw(writes, records, t);
      case _ =>
    }
  }

  function RecordAt(db: Db, r: Id): Option<Json> {
    if r < |db.requests| then RecordOf(db.requests[r].details) else None
  }

  lemma CopiedAt(trace: seq<Db>, acts: seq<Action>, r: Id, n: nat)
    requires IsRun(trace, acts) && n < |acts| && r < |trace[n].requests| && RewritesAt(trace, acts, r, n)
    ensures (acts[n].UploadPhoto? || acts[n].PatchStatus?) && acts[n].readRequest <= n
    ensures RecordAt(trace[n + 1], r) == RecordAt(trace[acts[n].readRequest], r)
  {
    RewrittenRecord(trace[..n + 1], acts[n], r);
  }

  lemma UntouchedAt(trace: seq<Db>, acts: seq<Action>, r: Id, n: nat)
    requires IsRun(trace, acts) && n < |acts| && r < |trace[n].requests|
    requires !RewritesAt(trace, acts, r, n) && !SchedulesNow(trace[n], acts[n], r)
    ensures RecordAt(trace[n + 1], r) == RecordAt(trace[n], r)
  {
    UntouchedRecord(trace[..n + 1], acts[n], r);
  }

  function RecordsOf(trace: seq<Db>, r: Id): seq<Option<Json>> {
    seq(|trace|, n requires 0 <= n < |trace| => RecordAt(trace[n], r))
  }

  lemma HandsDown(trace: seq<Db>, acts: seq<Action>, r: Id, writes: seq<Write>, m: nat)
    requires IsRun(trace, acts) && AreWrites(trace, acts, r, writes) && m < |acts|
    ensures HandedDown(writes, RecordsOf(trace, r), m)
  {
    assert writes[m] == WriteAt(trace, acts, r, m);
    if r < |trace[m].requests| && !SchedulesNow(trace[m], acts[m], r) {
      if RewritesAt(trace, acts, r, m) {
        CopiedAt(trace, acts, r, m);
      } else {
        UntouchedAt(trace, acts, r, m);
      }
    }
  }

  lemma RecordsHandDown(trace: seq<Db>, acts: seq<Action>, r: Id, writes: seq<Write>)
    requires IsRun(trace, acts) && AreWrites(trace, acts, r, writes)
    ensures forall m :: 0 <= m < |acts| ==> HandedDown(writes, RecordsOf(trace, r), m)
  {
    forall m | 0 <= m < |acts| ensures HandedDown(writes, RecordsOf(trace, r), m) {
      HandsDown(trace, acts, r, writes, m);
    }
  }

  /** Step `n` schedules request `r` as `s` says, and returns assignment `a`. */
  predicate SchedulesVisit(trace: seq<Db>, acts: seq<Action>, r: Id, n: nat, s: Schedule, a: Id)
    requires |trace| == |acts| + 1
  {
    && n < |acts| && ReassignsAt(trace, acts, n, a)
    && acts[n].commit.request == r && acts[n].commit.schedule == s
  }

  lemma StepRecord(trace: seq<Db>, acts: seq<Action>, r: Id, n: nat)
    returns (s: Schedule, a: Id, actor: Id)
    requires IsRun(trace, acts) && n < |acts| && SchedulesNow(trace[n], acts[n], r)
    ensures SchedulesVisit(trace, acts, r, n, s, a) && a < |trace[n + 1].assignments|
    ensures RecordAt(trace[n + 1], r) == Some(AssignmentJson(a, s, actor))
  {
    var c := acts[n].commit;
    ScheduleNext(trace[..n + 1], acts[n], r);
    ScheduledVisit(trace[n], r, c.schedule, c.actor, c.now);
    ScheduledRecord(trace[n], r, c.schedule, c.actor, c.now);
    s, a, actor := c.schedule, ScheduleInspection(trace[n], r, c.schedule, c.actor, c.now).value.assignment, c.actor;
  }

  lemma OriginRecord(trace: seq<Db>, acts: seq<Action>, r: Id, writes: seq<Write>, n: nat)
    returns (s: Schedule, a: Id, actor: Id)
    requires IsRun(trace, acts) && AreWrites(trace, acts, r, writes) && n < |acts| && writes[n] == Rescheduled
    ensures SchedulesVisit(trace, acts, r, n, s, a) && a < |trace[n + 1].assignments|
    ensures RecordAt(trace[n + 1], r) == Some(AssignmentJson(a, s, actor))
  {
    assert WriteAt(trace, acts, r, n) == Rescheduled;
    s, a, actor := StepRecord(trace, acts, r, n);
  }

  lemma ScheduleNext(past: seq<Db>, a: Action, r: Id)
    requires past != [] && SchedulesNow(past[|past| - 1], a, r)
    ensures Next(past, a)
            == ScheduleInspection(past[|past| - 1], r, a.commit.schedule, a.commit.actor, a.commit.now).db
  {
  }

  lemma RecordIs(trace: seq<Db>, acts: seq<Action>, r: Id, writes: seq<Write>, j: nat, n: nat)
    requires IsRun(trace, acts) && AreWrites(trace, acts, r, writes) && j < |trace| && Origin(writes, j) == Some(n)
    ensures RecordAt(trace[j], r) == RecordAt(trace[n + 1], r)
  {
    RecordsHandDown(trace, acts, r, writes);
    OriginLaw(writes, RecordsOf(trace, r), j);
  }

  lemma RecordedJson(row: Request, a: Id, s: Schedule, actor: Id, v: Visit)
    requires RecordOf(row.details) == Some(AssignmentJson(a, s, actor))
    ensures DatesRecorded(row, v) <==> SameDates(s.visit, v)
  {
  }

  lemma RecordComesFrom(trace: seq<Db>, acts: seq<Action>, r: Id, writes: seq<Write>, j: nat, n: nat)
    returns (s: Schedule, a: Id, actor: Id)
    requires IsRun(trace, acts) && AreWrites(trace, acts, r, writes) && j < |trace| && Origin(writes, j) == Some(n)
    ensures SchedulesVisit(trace, acts, r, n, s, a) && a < |trace[n + 1].assignments|
    ensures RecordAt(trace[j], r) == Some(AssignmentJson(a, s, actor))
  {
    RecordIs(trace, acts, r, writes, j, n);
    s, a, actor := OriginRecord(trace, acts, r, writes, n);
  }

  /** At any later moment the record is that of the scheduling the chain of copies leads back to; so it has
      the dates of that visit if and only if the dates chosen then are those the visit has now. */
  lemma RecordedDatesExactly(trace: seq<Db>, acts: seq<Action>, r: Id, writes: seq<Write>, j: nat, n: nat)
    returns (s: Schedule, a: Id)
    requires IsRun(trace, acts) && AreWrites(trace, acts, r, writes)
    requires j < |trace| && r < |trace[j].requests| && Origin(writes, j) == Some(n)
    ensures n < j && SchedulesVisit(trace, acts, r, n, s, a) && a < |trace[j].assignments|
    ensures DatesRecorded(trace[j].requests[r], trace[j].assignments[a].visit)
            <==> SameDates(s.visit, trace[j].assignments[a].visit)
  {
    var actor;
    s, a, actor := RecordComesFrom(trace, acts, r, writes, j, n);
    AssignmentStays(trace, acts, n + 1, j, a);
    RecordedJson(trace[j].requests[r], a, s, actor, trace[j].assignments[a].visit);
  }
}
