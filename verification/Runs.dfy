/** Runs of the system: many clients whose reads may be stale, one transaction committing at a time. */
module Runs {
  import opened Wrappers
  import opened Domain
  import opened Transactions
  import opened Requests
  import opened Endpoints
  import opened Invariants
  import opened Preservation
  import opened StatusPreservation
  import Texts

  // ---------- What is committed ----------

  datatype Commit =
    | Create(owner: Id, site: Site, details: Details)
    | ReceiveLead(received: Lead)
    | SetInspector(inspector: Id, active: bool)
    | Convert(lead: Id, row: Request, actor: Id, now: Time)
    | SetDetails(request: Id, owner: Id, details: Details)
    | ScheduleVisit(request: Id, schedule: Schedule, actor: Id, now: Time)
    | StartVisit(assignment: Id, inspector: Id, gps: Gps, now: Time)
    | RecordItem(item: Id, check: ChecklistItem, inspector: Id)
    | TakePhoto(photo: Photo, inspector: Id)
    | Assess(report: Id, seen: AssessmentStatus, inspector: Id, assessment: Assessment, actor: Id, now: Time)
    | Submit(report: Id, assignment: Id, inspector: Id, assessment: Assessment, overall: OverallStatus,
             followUp: bool, at: Time, actor: Id, now: Time)
    | Update(request: Id, plan: StatusPlan, actor: Id, now: Time)
    | Install(request: Id, property: Id, facts: InstallationFacts, at: Time, actor: Id, now: Time)
    | Allocate(request: Id, allocation: Allocation, actor: Id, now: Time)
    | Plant(request: Id, at: Time, actor: Id, now: Time)

  function After<T>(db: Db, o: Outcome<T>): Db {
    if o.Committed? then o.db else db
  }

  function WithInspector(active: seq<bool>, i: Id, b: bool): seq<bool> {
    if i < |active| then active[i := b] else active
  }

  /** The database after a transaction: unchanged when it raises. */
  function Effect(db: Db, c: Commit): Db {
    match c
    case Create(owner, site, details) => After(db, CreateRequest(db, owner, site, details))
    case ReceiveLead(lead) => db.(leads := db.leads + [lead])
    case SetInspector(i, active) => db.(inspectorActive := WithInspector(db.inspectorActive, i, active))
    case Convert(lead, row, actor, now) => After(db, ConvertLead(db, lead, row, actor, now))
    case SetDetails(r, owner, details) => After(db, WriteDetails(db, r, owner, details))
    case ScheduleVisit(r, s, actor, now) => After(db, ScheduleInspection(db, r, s, actor, now))
    case StartVisit(a, inspector, gps, now) =>
      After(db, StartReport(db, a, inspector, gps, CHECKLIST_TEMPLATE, now))
    case RecordItem(id, row, inspector) => After(db, SaveItem(db, id, row, inspector))
    case TakePhoto(row, inspector) => After(db, AddPhoto(db, row, inspector))
    case Assess(id, seen, inspector, v, actor, now) => After(db, SaveAssessment(db, id, seen, inspector, v, actor, now))
    case Submit(id, a, inspector, v, overall, followUp, at, actor, now) =>
      After(db, SubmitForApproval(db, id, a, inspector, v, overall, followUp, at, actor, now))
    case Update(r, plan, actor, now) => After(db, UpdateWorkflow(db, r, plan, actor, now))
    case Install(r, p, facts, at, actor, now) => After(db, CompleteInstallation(db, r, p, facts, at, actor, now))
    case Allocate(r, v, actor, now) => After(db, CompleteAllocation(db, r, v, actor, now))
    case Plant(r, at, actor, now) => After(db, CompletePlanting(db, r, at, actor, now))
  }

  /** What the endpoints have established about a commit from its own input alone. */
  predicate Guarded(c: Commit) {
    match c
    case Convert(lead, row, _, _) => row.status == Submitted && row.property.None? && CarriesLead(row, lead)
    case RecordItem(_, row, _) => ValidItem(row)
    case Assess(_, _, _, v, _, _) => ScoredAssessment(v)
    case Submit(_, _, _, v, overall, followUp, _, _, _) => ScoredSubmission(v, overall, followUp)
    case Update(_, plan, _, _) => FittingPlan(plan)
    case Install(_, _, facts, at, _, now) => ValidFacts(facts) && at <= now
    case Plant(_, at, _, now) => at <= now
    case Allocate(_, v, _, _) => FittingAllocation(v)
    case _ => true
  }

  // ---------- Clients ----------

  /** A client's step: a commit on its own input, or one planned from rows it read at earlier times. */
  datatype Action =
    | Direct(commit: Commit)
    | PatchStatus(request: Id, target: RequestStatus, notes: Option<string>, actor: Id,
                  readRequest: nat, readReports: nat, readInstallations: nat, readBatches: nat,
                  plannedAt: Time, now: Time)
    | UploadPhoto(request: Id, owner: Id, photo: Json, readRequest: nat)
    | AllocateGarden(request: Id, form: AllocationForm, crops: seq<Crop>, actor: Id,
                     readRequest: nat, readReports: nat, now: Time)
    | SaveDraft(report: Id, inspector: Id, assessment: Assessment, actor: Id, readReport: nat, now: Time)

  function PhotoList(details: Details): seq<Json> {
    if PhotosKey in details && details[PhotosKey].JList? then details[PhotosKey].items else []
  }

  function WithPhoto(details: Details, photo: Json): Details {
    details[PhotosKey := JList(PhotoList(details) + [photo])]
  }

  /** The plan of a status update: reads happen in order, none later than the present. */
  function PlannedUpdate(trace: seq<Db>, a: Action): Option<StatusPlan>
    requires a.PatchStatus?
  {
    if a.readRequest <= a.readReports <= a.readInstallations <= a.readBatches < |trace|
       && a.request < |trace[a.readRequest].requests|
    then
      match PlanPatch(trace[a.readRequest].requests[a.request], a.target, a.notes,
                      Seen(trace[a.readReports], trace[a.readInstallations], trace[a.readBatches]), a.actor, a.plannedAt)
      case Success(plan) => Some(plan)
      case Failure(_) => None
    else None
  }

  function UploadedDetails(trace: seq<Db>, a: Action): Option<Details>
    requires a.UploadPhoto?
  {
    if a.readRequest < |trace| && a.request < |trace[a.readRequest].requests|
       && trace[a.readRequest].requests[a.request].owner == a.owner
    then Some(WithPhoto(trace[a.readRequest].requests[a.request].details, a.photo))
    else None
  }

  /** The allocation built from the rows read; `crops` is what the catalog holds under the names given. */
  function PlannedAllocation(trace: seq<Db>, a: Action): Option<Allocation>
    requires a.AllocateGarden?
  {
    if a.readRequest <= a.readReports < |trace| && a.request < |trace[a.readRequest].requests|
       && ValidForm(a.form) && forall c :: c in a.crops ==> c.name in Texts.Cleaned(a.form.plants)
    then
      match PlanAllocation(trace[a.readRequest].requests[a.request], trace[a.readReports].reports, a.form, a.crops)
      case Success(v) => Some(v)
      case Failure(_) => None
    else None
  }

  /** The report's status as the draft endpoint read it. */
  function SeenStatus(trace: seq<Db>, a: Action): Option<AssessmentStatus>
    requires a.SaveDraft?
  {
    if a.readReport < |trace| && a.report < |trace[a.readReport].reports|
    then Some(trace[a.readReport].reports[a.report].status) else None
  }

  /** What an action commits, given every database so far; nothing when the endpoint raised before. */
  function Resolve(trace: seq<Db>, a: Action): Option<Commit> {
    match a
    case Direct(c) => if Guarded(c) && !c.Update? && !c.SetDetails? && !c.Assess? && !c.Allocate? then Some(c) else None
    case PatchStatus(r, _, _, actor, _, _, _, _, _, now) =>
      var plan := PlannedUpdate(trace, a);
      if plan.Some? then Some(Update(r, plan.value, actor, now)) else None
    case UploadPhoto(r, owner, _, _) =>
      var details := UploadedDetails(trace, a);
      if details.Some? then Some(SetDetails(r, owner, details.value)) else None
    case AllocateGarden(r, _, _, actor, _, _, now) =>
      var v := PlannedAllocation(trace, a);
      if v.Some? then Some(Allocate(r, v.value, actor, now)) else None
    case SaveDraft(id, inspector, v, actor, _, now) =>
      var seen := SeenStatus(trace, a);
      if seen.Some? && ScoredAssessment(v) then Some(Assess(id, seen.value, inspector, v, actor, now)) else None
  }

  function Next(trace: seq<Db>, a: Action): Db
    requires trace != []
  {
    var c := Resolve(trace, a);
    if c.Some? then Effect(trace[|trace| - 1], c.value) else trace[|trace| - 1]
  }

  /** Leads and inspectors may exist; nothing of the lifecycle does. */
  predicate Fresh(db: Db) {
    && db.requests == [] && db.properties == [] && db.assignments == [] && db.reports == []
    && db.items == [] && db.photos == [] && db.installations == [] && db.batches == []
    && db.activities == [] && db.workflows == [] && db.events == []
  }

  ghost predicate IsRun(trace: seq<Db>, acts: seq<Action>) {
    && |trace| == |acts| + 1
    && Fresh(trace[0])
    && forall n :: 0 <= n < |acts| ==> trace[n + 1] == Next(trace[..n + 1], acts[n])
  }

  // ---------- Every commit keeps the invariant ----------

  /** The tables the invariant reads are the same. */
  lemma Unread(db: Db, after: Db)
    requires Inv(db)
    requires after == db.(leads := after.leads, inspectorActive := after.inspectorActive, items := after.items,
                          photos := after.photos, activities := after.activities)
    ensures Inv(after) && Evolves(db, after)
  {
    EvolvesReflexive(db);
  }

  lemma DetailsRows(db: Db, r: Id, details: Details)
    requires RowsFit(db) && r < |db.requests|
    ensures var after := db.(requests := db.requests[r := db.requests[r].(details := details)]);
            RowsFit(after) && RowsEvolve(db, after)
  {
    var next := db.requests[r].(details := details);
    assert RequestLinked(db.requests[r], db.properties) && SetupFits(db.requests[r], db.installations, db.batches);
    SetupRow(db.requests, db.installations, db.batches, r, next);
    if next.property.Some? {
      PropertyUnshared(db.requests, db.properties, r);
    }
    RequestRowLinked(db.requests, db.properties, r, next);
    SameRows(db);
  }

  lemma DetailsKeep(db: Db, r: Id, details: Details)
    requires Inv(db) && r < |db.requests|
    ensures var after := db.(requests := db.requests[r := db.requests[r].(details := details)]);
            Inv(after) && Evolves(db, after)
  {
    DetailsRows(db, r, details);
    KeepBoards(db, db.(requests := db.requests[r := db.requests[r].(details := details)]));
  }

  lemma ConvertKeeps(db: Db, lead: Id, row: Request, actor: Id, now: Time)
    requires Inv(db) && row.status == Submitted && row.property.None?
    requires ConvertLead(db, lead, row, actor, now).Committed?
    ensures Inv(ConvertLead(db, lead, row, actor, now).db) && Evolves(db, ConvertLead(db, lead, row, actor, now).db)
  {
    var after := ConvertLead(db, lead, row, actor, now).db;
    if LeadRequest(db.requests, lead).Some? {
      Unread(db, after);
    } else {
      var db1 := InsertRequest(db, row);
      InsertKeeps(db, row);
      Unread(db1, after);
      EvolvesTransitive(db, db1, after);
    }
  }

  lemma RaiseKeeps<T>(db: Db, o: Outcome<T>, after: Db)
    requires Inv(db) && after == After(db, o)
    requires o.Committed? ==> Inv(o.db) && Evolves(db, o.db)
    ensures Inv(after) && Evolves(db, after)
  {
    if o.Aborted? {
      EvolvesReflexive(db);
    }
  }

  lemma InsertEffectKeeps(db: Db, c: Commit, after: Db)
    requires Inv(db) && Guarded(c) && after == Effect(db, c) && (c.Create? || c.Convert?)
    ensures Inv(after) && Evolves(db, after)
  {
    match c {
      case Create(owner, site, details) =>
        InsertKeeps(db, Request(owner, None, site, details, Submitted, None, None, None));
      case Convert(lead, row, actor, now) =>
        if ConvertLead(db, lead, row, actor, now).Committed? {
          ConvertKeeps(db, lead, row, actor, now);
        }
        RaiseKeeps(db, ConvertLead(db, lead, row, actor, now), after);
    }
  }

  lemma RecordEffectKeeps(db: Db, c: Commit, after: Db)
    requires Inv(db) && after == Effect(db, c)
    requires c.ReceiveLead? || c.SetInspector? || c.SetDetails? || c.RecordItem? || c.TakePhoto?
    ensures Inv(after) && Evolves(db, after)
  {
    match c {
      case SetDetails(r, owner, details) => DetailsEffectKeeps(db, r, owner, details);
      case _ => Unread(db, after);
    }
  }

  lemma DetailsEffectKeeps(db: Db, r: Id, owner: Id, details: Details)
    requires Inv(db)
    ensures Inv(After(db, WriteDetails(db, r, owner, details))) && Evolves(db, After(db, WriteDetails(db, r, owner, details)))
  {
    if WriteDetails(db, r, owner, details).Committed? {
      DetailsKeep(db, r, details);
    }
    RaiseKeeps(db, WriteDetails(db, r, owner, details), After(db, WriteDetails(db, r, owner, details)));
  }

  lemma VisitEffectKeeps(db: Db, c: Commit, after: Db)
    requires Inv(db) && after == Effect(db, c) && (c.ScheduleVisit? || c.StartVisit?)
    ensures Inv(after) && Evolves(db, after)
  {
    match c {
      case ScheduleVisit(r, s, actor, now) =>
        if ScheduleInspection(db, r, s, actor, now).Committed? {
          ScheduleKeeps(db, r, s, actor, now);
        }
        RaiseKeeps(db, ScheduleInspection(db, r, s, actor, now), after);
      case StartVisit(a, inspector, gps, now) =>
        if StartReport(db, a, inspector, gps, CHECKLIST_TEMPLATE, now).Committed? {
          StartKeeps(db, a, inspector, gps, CHECKLIST_TEMPLATE, now);
        }
        RaiseKeeps(db, StartReport(db, a, inspector, gps, CHECKLIST_TEMPLATE, now), after);
    }
  }

  lemma ReportEffectKeeps(db: Db, c: Commit, after: Db)
    requires Inv(db) && after == Effect(db, c) && (c.Assess? || c.Submit?)
    ensures Inv(after) && Evolves(db, after)
  {
    match c {
      case Assess(id, seen, inspector, v, actor, now) =>
        if SaveAssessment(db, id, seen, inspector, v, actor, now).Committed? {
          SaveAssessmentKeeps(db, id, seen, inspector, v, actor, now);
        }
        RaiseKeeps(db, SaveAssessment(db, id, seen, inspector, v, actor, now), after);
      case Submit(id, a, inspector, v, overall, followUp, at, actor, now) =>
        if SubmitForApproval(db, id, a, inspector, v, overall, followUp, at, actor, now).Committed? {
          SubmitKeeps(db, id, a, inspector, v, overall, followUp, at, actor, now);
        }
        RaiseKeeps(db, SubmitForApproval(db, id, a, inspector, v, overall, followUp, at, actor, now), after);
    }
  }

  lemma StatusEffectKeeps(db: Db, c: Commit, after: Db)
    requires Inv(db) && Guarded(c) && after == Effect(db, c) && (c.Update? || c.Install?)
    ensures Inv(after) && Evolves(db, after)
  {
    match c {
      case Update(r, plan, actor, now) =>
        if UpdateWorkflow(db, r, plan, actor, now).Committed? {
          UpdateKeeps(db, r, plan, actor, now);
        }
        RaiseKeeps(db, UpdateWorkflow(db, r, plan, actor, now), after);
      case Install(r, p, facts, at, actor, now) =>
        if CompleteInstallation(db, r, p, facts, at, actor, now).Committed? {
          InstallKeeps(db, r, p, facts, at, actor, now);
        }
        RaiseKeeps(db, CompleteInstallation(db, r, p, facts, at, actor, now), after);
    }
  }

  lemma CropEffectKeeps(db: Db, c: Commit, after: Db)
    requires Inv(db) && Guarded(c) && after == Effect(db, c) && (c.Allocate? || c.Plant?)
    ensures Inv(after) && Evolves(db, after)
  {
    match c {
      case Allocate(r, v, actor, now) =>
        if CompleteAllocation(db, r, v, actor, now).Committed? {
          AllocateKeeps(db, r, v, actor, now);
        }
        RaiseKeeps(db, CompleteAllocation(db, r, v, actor, now), after);
      case Plant(r, at, actor, now) =>
        if CompletePlanting(db, r, at, actor, now).Committed? {
          PlantKeeps(db, r, at, actor, now);
        }
        RaiseKeeps(db, CompletePlanting(db, r, at, actor, now), after);
    }
  }

  lemma EffectKeeps(db: Db, c: Commit, after: Db)
    requires Inv(db) && Guarded(c) && after == Effect(db, c)
    ensures Inv(after) && Evolves(db, after)
  {
    if c.ScheduleVisit? || c.StartVisit? {
      VisitEffectKeeps(db, c, after);
    } else if c.Assess? || c.Submit? {
      ReportEffectKeeps(db, c, after);
    } else if c.Update? || c.Install? {
      StatusEffectKeeps(db, c, after);
    } else if c.Allocate? || c.Plant? {
      CropEffectKeeps(db, c, after);
    } else if c.Create? || c.Convert? {
      InsertEffectKeeps(db, c, after);
    } else {
      RecordEffectKeeps(db, c, after);
    }
  }

  // ---------- Every run keeps the invariant ----------

  /** What an endpoint resolves to is guarded, however stale its reads were. */
  lemma ResolvedIsGuarded(trace: seq<Db>, a: Action)
    requires Resolve(trace, a).Some?
    ensures Guarded(Resolve(trace, a).value)
  {
    if a.PatchStatus? {
      PlansFit(trace[a.readRequest].requests[a.request], a.target, a.notes,
               Seen(trace[a.readReports], trace[a.readInstallations], trace[a.readBatches]), a.actor, a.plannedAt);
    } else if a.AllocateGarden? {
      AllocationsFit(trace[a.readRequest].requests[a.request], trace[a.readReports].reports, a.form, a.crops);
    }
  }

  lemma NextKeeps(trace: seq<Db>, a: Action)
    requires trace != [] && Inv(trace[|trace| - 1])
    ensures Inv(Next(trace, a)) && Evolves(trace[|trace| - 1], Next(trace, a))
  {
    var db := trace[|trace| - 1];
    if Resolve(trace, a).Some? {
      ResolvedIsGuarded(trace, a);
      EffectKeeps(db, Resolve(trace, a).value, Next(trace, a));
    } else {
      EvolvesReflexive(db);
    }
  }

  lemma {:induction false} EveryStateFits(trace: seq<Db>, acts: seq<Action>, n: nat)
    requires IsRun(trace, acts) && n < |trace|
    ensures Inv(trace[n])
  {
    if n > 0 {
      EveryStateFits(trace, acts, n - 1);
      NextKeeps(trace[..n], acts[n - 1]);
    }
  }

  lemma {:induction false} RunEvolves(trace: seq<Db>, acts: seq<Action>, i: nat, j: nat)
    requires IsRun(trace, acts) && i <= j < |trace|
    ensures Inv(trace[i]) && Inv(trace[j]) && Evolves(trace[i], trace[j])
    decreases j - i
  {
    EveryStateFits(trace, acts, i);
    if i == j {
      EvolvesReflexive(trace[i]);
    } else {
      RunEvolves(trace, acts, i, j - 1);
      NextKeeps(trace[..j], acts[j - 1]);
      EvolvesTransitive(trace[i], trace[j - 1], trace[j]);
    }
  }
}
