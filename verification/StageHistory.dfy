/** Laws of stage writes on one workflow: the audit trail replays to the row, recorded times are never
    replaced, and evidence keys are never lost. */
module StageHistory {
  import opened Wrappers
  import opened Domain
  import opened StageBoard

  // ---------- The audit trail ----------

  datatype Mark = Mark(status: StageStatus, evidence: Evidence)

  function MarkOf(s: Stage): Mark {
    Mark(s.status, s.evidence)
  }

  predicate About(e: StageEvent, r: Id, k: StageKey) {
    e.request == r && e.key == k
  }

  /** Replaying the events of one stage from a starting mark. */
  function Replay(events: seq<StageEvent>, r: Id, k: StageKey, start: Mark): Mark {
    if events == [] then start
    else
      var n := |events| - 1;
      if About(events[n], r, k) then Mark(events[n].toStatus, events[n].evidence)
      else Replay(events[..n], r, k, start)
  }

  /** Each event of the stage starts where the one before it ended, and ends somewhere else. */
  predicate Chained(events: seq<StageEvent>, r: Id, k: StageKey, start: Mark) {
    events == [] ||
    var n := |events| - 1;
    && Chained(events[..n], r, k, start)
    && (About(events[n], r, k) ==>
          && events[n].fromStatus == Replay(events[..n], r, k, start).status
          && Mark(events[n].toStatus, events[n].evidence) != Replay(events[..n], r, k, start))
  }

  lemma {:induction false} ReplayConcat(a: seq<StageEvent>, b: seq<StageEvent>, r: Id, k: StageKey, start: Mark)
    ensures Replay(a + b, r, k, start) == Replay(b, r, k, Replay(a, r, k, start))
    ensures Chained(a + b, r, k, start) <==> Chained(a, r, k, start) && Chained(b, r, k, Replay(a, r, k, start))
  {
    if b == [] {
      assert a + b == a;
    } else {
      var n := |b| - 1;
      assert (a + b)[..|a + b| - 1] == a + b[..n] && (a + b)[|a + b| - 1] == b[n];
      ReplayConcat(a, b[..n], r, k, start);
    }
  }

  /** Events of other requests leave a stage's replay alone. */
  lemma {:induction false} ReplayForeign(events: seq<StageEvent>, r: Id, k: StageKey, start: Mark)
    requires forall e :: e in events ==> e.request != r
    ensures Replay(events, r, k, start) == start && Chained(events, r, k, start)
  {
    if events != [] {
      var n := |events| - 1;
      assert events[n] in events;
      ReplayForeign(events[..n], r, k, start);
    }
  }

  ghost predicate Trail(r: Id, w: Workflow, events: seq<StageEvent>, after: Workflow)
    requires AllStages(w) && AllStages(after)
  {
    forall k: StageKey {:trigger w.stages[k]} {:trigger after.stages[k]} ::
      && Replay(events, r, k, MarkOf(w.stages[k])) == MarkOf(after.stages[k])
      && Chained(events, r, k, MarkOf(w.stages[k]))
  }

  lemma TrailThen(r: Id, w: Workflow, a: seq<StageEvent>, w1: Workflow, b: seq<StageEvent>, w2: Workflow)
    requires AllStages(w) && AllStages(w1) && AllStages(w2)
    requires Trail(r, w, a, w1) && Trail(r, w1, b, w2)
    ensures Trail(r, w, a + b, w2)
  {
    forall k: StageKey
      ensures Replay(a + b, r, k, MarkOf(w.stages[k])) == MarkOf(w2.stages[k])
              && Chained(a + b, r, k, MarkOf(w.stages[k]))
    {
      ReplayConcat(a, b, r, k, MarkOf(w.stages[k]));
      assert w1.stages[k] == w1.stages[k];
    }
  }

  // ---------- Write-once times, growing evidence ----------

  predicate Kept(before: Option<Time>, after: Option<Time>) {
    before.Some? ==> after == before
  }

  predicate RowGrows(s: Stage, t: Stage) {
    Kept(s.startedAt, t.startedAt) && Kept(s.completedAt, t.completedAt) && s.evidence.Keys <= t.evidence.Keys
  }

  ghost predicate Grows(w: Workflow, after: Workflow)
    requires AllStages(w) && AllStages(after)
  {
    forall k: StageKey {:trigger w.stages[k]} {:trigger after.stages[k]} :: RowGrows(w.stages[k], after.stages[k])
  }

  /** The two stages whose evidence the report trigger replaces hold only what it writes there,
      and only the approval stage records a decision. */
  predicate RowShaped(k: StageKey, s: Stage) {
    && (k == SiteScore ==> s.evidence.Keys <= {ScoreEvidence, BandEvidence, BreakdownEvidence})
    && (k == GardenRecommendation ==> s.evidence.Keys <= {CropsEvidence, InfrastructureEvidence})
    && (k != Approval ==> Decision !in s.evidence)
  }

  ghost predicate Shaped(w: Workflow)
    requires AllStages(w)
  {
    forall k: StageKey {:trigger w.stages[k]} :: RowShaped(k, w.stages[k])
  }

  // ---------- Lawful boards ----------

  /** A board is lawful for the workflow it was computed from when nothing of the record is lost. */
  ghost predicate Lawful(r: Id, w: Workflow, b: Board)
    requires AllStages(w)
  {
    && AllStages(b.workflow)
    && (forall e :: e in b.events ==> e.request == r)
    && Trail(r, w, b.events, b.workflow)
    && Grows(w, b.workflow)
    && (Shaped(w) ==> Shaped(b.workflow))
  }

  lemma LawfulThen(r: Id, w: Workflow, a: Board, b: Board)
    requires AllStages(w) && Lawful(r, w, a) && Lawful(r, a.workflow, b)
    ensures Lawful(r, w, Append(a.events, b))
  {
    TrailThen(r, w, a.events, a.workflow, b.events, b.workflow);
    forall k: StageKey ensures RowGrows(w.stages[k], b.workflow.stages[k]) {
      assert RowGrows(w.stages[k], a.workflow.stages[k]) && RowGrows(a.workflow.stages[k], b.workflow.stages[k]);
    }
  }

  /** One stage's write appends the one event that replays it, or nothing when there is nothing to replay. */
  lemma AuditReplays(r: Id, k: StageKey, before: Stage, after: Stage, actor: Id, j: StageKey, start: Mark)
    requires j == k ==> start == MarkOf(before)
    ensures Replay(AuditEvents(r, k, before, after, actor), r, j, start) == if j == k then MarkOf(after) else start
    ensures Chained(AuditEvents(r, k, before, after, actor), r, j, start)
  {
    var events := AuditEvents(r, k, before, after, actor);
    if events != [] {
      assert events[..0] == [];
    }
  }

  lemma WriteTrail(r: Id, w: Workflow, k: StageKey, row: Stage, actor: Id, now: Time)
    requires AllStages(w)
    ensures AllStages(WriteStage(r, w, k, row, actor, now).workflow)
    ensures Trail(r, w, WriteStage(r, w, k, row, actor, now).events, WriteStage(r, w, k, row, actor, now).workflow)
  {
    var b := WriteStage(r, w, k, row, actor, now);
    assert b.workflow.stages == w.stages[k := row];
    forall j: StageKey
      ensures Replay(b.events, r, j, MarkOf(w.stages[j])) == MarkOf(b.workflow.stages[j])
      ensures Chained(b.events, r, j, MarkOf(w.stages[j]))
    {
      AuditReplays(r, k, w.stages[k], row, actor, j, MarkOf(w.stages[j]));
    }
  }

  lemma WriteLawful(r: Id, w: Workflow, k: StageKey, row: Stage, actor: Id, now: Time)
    requires AllStages(w) && RowGrows(w.stages[k], row) && (Shaped(w) ==> RowShaped(k, row))
    ensures Lawful(r, w, WriteStage(r, w, k, row, actor, now))
  {
    WriteTrail(r, w, k, row, actor, now);
    assert WriteStage(r, w, k, row, actor, now).workflow.stages == w.stages[k := row];
  }

  lemma HeaderLawful(r: Id, w: Workflow, b: Board, current: StageKey)
    requires AllStages(w) && Lawful(r, w, b)
    ensures Lawful(r, w, b.(workflow := b.workflow.(currentStage := current)))
  {
  }

  predicate UpdateShaped(u: StageUpdate) {
    u.key != SiteScore && u.key != GardenRecommendation && (u.key != Approval ==> Decision !in u.evidence)
  }

  /** Completion may overwrite `completed_at` only where none is recorded. */
  predicate Fillable(how: Writer, w: Workflow, u: StageUpdate) {
    how == Advancing
    || (u.status != StageCompleted && u.status != StageRejected)
    || (u.key in w.stages && w.stages[u.key].completedAt.None?)
  }

  predicate DistinctKeys(us: seq<StageUpdate>) {
    forall i, j :: 0 <= i < j < |us| ==> us[i].key != us[j].key
  }

  lemma {:induction false} WriteStagesLawful(how: Writer, r: Id, w: Workflow, us: seq<StageUpdate>, actor: Id, now: Time)
    requires AllStages(w) && DistinctKeys(us)
    requires forall i :: 0 <= i < |us| ==> UpdateShaped(us[i]) && Fillable(how, w, us[i])
    ensures WriteStages(how, r, w, us, actor, now).Success?
    ensures Lawful(r, w, WriteStages(how, r, w, us, actor, now).value)
    decreases |us|
  {
    if us == [] {
    } else {
      var u := us[0];
      var first := WriteStage(r, w, u.key, WrittenRow(how, w.stages[u.key], u, actor, now), actor, now);
      WriteLawful(r, w, u.key, WrittenRow(how, w.stages[u.key], u, actor, now), actor, now);
      assert forall i :: 0 <= i < |us[1..]| ==> us[1..][i] == us[i + 1];
      assert forall i :: 0 < i < |us| ==> first.workflow.stages[us[i].key] == w.stages[us[i].key];
      WriteStagesLawful(how, r, first.workflow, us[1..], actor, now);
      LawfulThen(r, w, first, WriteStages(how, r, first.workflow, us[1..], actor, now).value);
    }
  }

  lemma TouchLawful(r: Id, w: Workflow, b: Board, k: StageKey, row: Stage, actor: Id, now: Time)
    requires AllStages(w) && Shaped(w) && Lawful(r, w, b)
    requires RowGrows(b.workflow.stages[k], row) && RowShaped(k, row)
    ensures Lawful(r, w, Touch(r, b, k, row, actor, now))
  {
    WriteLawful(r, b.workflow, k, row, actor, now);
    LawfulThen(r, w, b, WriteStage(r, b.workflow, k, row, actor, now));
  }

  lemma SyncVisitLawful(r: Id, w: Workflow, id: Id, rep: Report, actor: Id, now: Time)
    requires AllStages(w) && Shaped(w)
    ensures Lawful(r, w, SyncVisit(r, w, id, rep, actor, now))
  {
    var b0 := Board(w, []);
    var visit := VisitRow(w.stages[InspectorVisit], id, rep, actor, now);
    TouchLawful(r, w, b0, InspectorVisit, visit, actor, now);
    if rep.findings.Some? {
      ScoreLawful(r, w, Touch(r, b0, InspectorVisit, visit, actor, now), rep, actor, now);
    }
  }

  lemma ScoreLawful(r: Id, w: Workflow, b: Board, rep: Report, actor: Id, now: Time)
    requires AllStages(w) && Shaped(w) && Lawful(r, w, b) && rep.findings.Some?
    ensures Lawful(r, w, Touch(r, b, SiteScore, ScoreRow(StageOr(b.workflow, SiteScore), rep, actor, now), actor, now))
  {
    assert RowShaped(SiteScore, b.workflow.stages[SiteScore]);
    TouchLawful(r, w, b, SiteScore, ScoreRow(b.workflow.stages[SiteScore], rep, actor, now), actor, now);
  }

  lemma SyncSubmissionLawful(r: Id, w: Workflow, b: Board, rep: Report, actor: Id, now: Time)
    requires AllStages(w) && Shaped(w) && Lawful(r, w, b)
    ensures Lawful(r, w, SyncSubmission(r, b, rep, actor, now))
  {
    var row := RecommendationRow(b.workflow.stages[GardenRecommendation], rep, actor, now);
    assert RowShaped(GardenRecommendation, b.workflow.stages[GardenRecommendation]);
    TouchLawful(r, w, b, GardenRecommendation, row, actor, now);
    var b3 := Touch(r, b, GardenRecommendation, row, actor, now);
    var approval := b3.workflow.stages[Approval];
    if approval.status == NotStarted {
      var ready := approval.(status := Ready, nextAction := ReviewInspectionEvidence);
      TouchLawful(r, w, b3, Approval, ready, actor, now);
    }
  }

  /** The report trigger replaces the evidence of two stages outright, yet no key is lost. */
  lemma SyncLawful(r: Id, w: Workflow, id: Id, rep: Report, actor: Id, now: Time)
    requires AllStages(w) && Shaped(w)
    ensures Lawful(r, w, SyncReport(r, w, id, rep, actor, now))
  {
    SyncVisitLawful(r, w, id, rep, actor, now);
    var b := SyncVisit(r, w, id, rep, actor, now);
    if rep.status == SubmittedForApproval {
      SyncSubmissionLawful(r, w, b, rep, actor, now);
      HeaderLawful(r, w, SyncSubmission(r, b, rep, actor, now), Approval);
    } else {
      HeaderLawful(r, w, b, InspectorVisit);
    }
  }
}
