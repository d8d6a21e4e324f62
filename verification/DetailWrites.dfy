/** What each commit does to the details of requests, at the keys clients depend on. */
module DetailWrites {
  import opened Wrappers
  import opened Domain
  import opened Transactions
  import opened StatusPreservation
  import opened Runs
  import opened Journeys

  predicate SameAt(key: DetailKey, a: Details, b: Details) {
    && (key in a <==> key in b)
    && (key in a ==> a[key] == b[key])
  }

  /** Details given whole, as the client assembled them; every other write merges into what is stored. */
  function WrittenDetails(c: Commit): Option<Details> {
    match c
    case SetDetails(_, _, details) => Some(details)
    case Update(_, plan, _, _) => plan.patch.details
    case _ => None
  }

  predicate Inserts(c: Commit) {
    c.Create? || c.Convert?
  }

  /** No transaction writes the lead id or the photos; scheduling alone writes the inspection. */
  predicate LeavesKey(key: DetailKey, c: Commit) {
    key == LeadKey || key == PhotosKey || (key == InspectionAssignmentKey && !c.ScheduleVisit?)
  }

  /** At `key` each request keeps its value, unless the commit gives its details whole. */
  ghost predicate Kept(key: DetailKey, before: seq<Request>, after: seq<Request>, c: Commit) {
    && |before| <= |after| && (!Inserts(c) ==> |after| == |before|)
    && forall q :: 0 <= q < |before| ==>
         || SameAt(key, before[q].details, after[q].details)
         || (WrittenDetails(c).Some? && q == c.request && after[q].details == WrittenDetails(c).value)
  }

  ghost predicate AllSame(key: DetailKey, before: seq<Request>, after: seq<Request>) {
    |after| == |before| && forall q :: 0 <= q < |before| ==> SameAt(key, before[q].details, after[q].details)
  }

  lemma ScheduleDetails(key: DetailKey, db: Db, r: Id, s: Schedule, actor: Id, now: Time)
    requires ScheduleInspection(db, r, s, actor, now).Committed? && key != InspectionAssignmentKey
    ensures var after := ScheduleInspection(db, r, s, actor, now).db;
            AllSame(key, db.requests, after.requests)
  {
    SchedulingIs(db, r, s, actor, now);
  }

  lemma InstallDetails(key: DetailKey, db: Db, r: Id, p: Id, facts: InstallationFacts, at: Time, actor: Id, now: Time)
    requires CompleteInstallation(db, r, p, facts, at, actor, now).Committed?
    ensures var after := CompleteInstallation(db, r, p, facts, at, actor, now).db;
            AllSame(key, db.requests, after.requests)
  {
    InstallationIs(db, r, p, facts, at, actor, now);
  }

  lemma AllocateDetails(key: DetailKey, db: Db, r: Id, v: Allocation, actor: Id, now: Time)
    requires CompleteAllocation(db, r, v, actor, now).Committed? && key != RequestedPlants
    requires key !in v.updates
    ensures var after := CompleteAllocation(db, r, v, actor, now).db;
            AllSame(key, db.requests, after.requests)
  {
    AllocationIs(db, r, v, actor, now);
  }

  lemma PlantDetails(key: DetailKey, db: Db, r: Id, at: Time, actor: Id, now: Time)
    requires CompletePlanting(db, r, at, actor, now).Committed?
    ensures var after := CompletePlanting(db, r, at, actor, now).db;
            AllSame(key, db.requests, after.requests)
  {
    PlantingIs(db, r, at, actor, now);
  }

  lemma PatchDetails(key: DetailKey, db: Db, r: Id, plan: StatusPlan, actor: Id, now: Time)
    requires UpdateWorkflow(db, r, plan, actor, now).Committed?
    ensures var after := UpdateWorkflow(db, r, plan, actor, now).db;
            Kept(key, db.requests, after.requests, Update(r, plan, actor, now))
  {
    UpdateRequests(db, r, plan, actor, now);
  }

  lemma SetupDetails(key: DetailKey, db: Db, c: Commit, after: Db)
    requires after == Effect(db, c) && LeavesKey(key, c) && (c.ScheduleVisit? || c.Install?)
    ensures AllSame(key, db.requests, after.requests)
  {
    match c {
      case ScheduleVisit(r, s, actor, now) =>
        if ScheduleInspection(db, r, s, actor, now).Committed? {
          ScheduleDetails(key, db, r, s, actor, now);
        }
      case Install(r, p, facts, at, actor, now) =>
        if CompleteInstallation(db, r, p, facts, at, actor, now).Committed? {
          InstallDetails(key, db, r, p, facts, at, actor, now);
        }
    }
  }

  lemma CropDetails(key: DetailKey, db: Db, c: Commit, after: Db)
    requires Guarded(c) && after == Effect(db, c) && LeavesKey(key, c) && (c.Allocate? || c.Plant?)
    ensures AllSame(key, db.requests, after.requests)
  {
    match c {
      case Allocate(r, v, actor, now) =>
        if CompleteAllocation(db, r, v, actor, now).Committed? {
          AllocateDetails(key, db, r, v, actor, now);
        }
      case Plant(r, at, actor, now) =>
        if CompletePlanting(db, r, at, actor, now).Committed? {
          PlantDetails(key, db, r, at, actor, now);
        }
    }
  }

  lemma InsertDetails(key: DetailKey, db: Db, c: Commit, after: Db)
    requires after == Effect(db, c) && Inserts(c)
    ensures Kept(key, db.requests, after.requests, c)
  {
  }

  lemma RecordDetails(key: DetailKey, db: Db, c: Commit, after: Db)
    requires after == Effect(db, c)
    requires c.ReceiveLead? || c.SetInspector? || c.SetDetails? || c.RecordItem? || c.TakePhoto?
    ensures Kept(key, db.requests, after.requests, c)
  {
  }

  /** Nobody's lead id, photos or inspection change but by a client that writes the details whole, and the
      inspection by scheduling. */
  lemma EffectDetails(key: DetailKey, db: Db, c: Commit, after: Db)
    requires Guarded(c) && after == Effect(db, c) && LeavesKey(key, c)
    ensures Kept(key, db.requests, after.requests, c)
  {
    if c.ScheduleVisit? || c.Install? {
      SetupDetails(key, db, c, after);
    } else if c.Allocate? || c.Plant? {
      CropDetails(key, db, c, after);
    } else if c.Update? {
      if UpdateWorkflow(db, c.request, c.plan, c.actor, c.now).Committed? {
        PatchDetails(key, db, c.request, c.plan, c.actor, c.now);
      }
    } else if c.StartVisit? || c.Assess? || c.Submit? {
      VisitSteps(db, c, after);
    } else if Inserts(c) {
      InsertDetails(key, db, c, after);
    } else {
      RecordDetails(key, db, c, after);
    }
  }
}
