/** The statuses a request passes through: one step at a time, never back, at most seven times. */
module Journeys {
  import opened Domain
  import opened Transactions
  import opened Requests
  import opened BoardTable
  import opened StatusPreservation
  import opened Runs

  /** One commit leaves a status alone, advances it by one place, or closes the request. */
  predicate StatusStep(s: RequestStatus, t: RequestStatus) {
    || s == t
    || (!Closed(t) && Rank(t) == Rank(s) + 1)
    || (t == Cancelled && Rank(s) < 7)
    || (t == Rejected && Rank(s) < 2)
  }

  ghost predicate Steps(before: seq<Request>, after: seq<Request>) {
    && |before| <= |after|
    && (forall r :: 0 <= r < |before| ==> StatusStep(before[r].status, after[r].status))
    && (forall r :: |before| <= r < |after| ==> after[r].status == Submitted)
  }

  lemma UpdateRequests(db: Db, r: Id, plan: StatusPlan, actor: Id, now: Time)
    requires UpdateWorkflow(db, r, plan, actor, now).Committed?
    ensures r < |db.requests| && db.requests[r].status == plan.expected
    ensures UpdateWorkflow(db, r, plan, actor, now).db.requests
            == db.requests[r := PatchedRequest(db.requests[r], plan.patch)]
  {
    UpdateIs(db, r, plan, actor, now);
  }

  lemma ScheduleSteps(db: Db, r: Id, s: Schedule, actor: Id, now: Time)
    requires ScheduleInspection(db, r, s, actor, now).Committed?
    ensures Steps(db.requests, ScheduleInspection(db, r, s, actor, now).db.requests)
  {
    SchedulingIs(db, r, s, actor, now);
  }

  lemma VisitSteps(db: Db, c: Commit, after: Db)
    requires after == Effect(db, c) && (c.StartVisit? || c.Assess? || c.Submit?)
    ensures after.requests == db.requests
  {
  }

  lemma InstallSteps(db: Db, r: Id, p: Id, facts: InstallationFacts, at: Time, actor: Id, now: Time)
    requires CompleteInstallation(db, r, p, facts, at, actor, now).Committed?
    ensures Steps(db.requests, CompleteInstallation(db, r, p, facts, at, actor, now).db.requests)
  {
    InstallationIs(db, r, p, facts, at, actor, now);
  }

  lemma AllocateSteps(db: Db, r: Id, v: Allocation, actor: Id, now: Time)
    requires CompleteAllocation(db, r, v, actor, now).Committed?
    ensures Steps(db.requests, CompleteAllocation(db, r, v, actor, now).db.requests)
  {
    AllocationIs(db, r, v, actor, now);
  }

  lemma PlantSteps(db: Db, r: Id, at: Time, actor: Id, now: Time)
    requires CompletePlanting(db, r, at, actor, now).Committed?
    ensures Steps(db.requests, CompletePlanting(db, r, at, actor, now).db.requests)
  {
    PlantingIs(db, r, at, actor, now);
  }

  lemma UpdateSteps(db: Db, r: Id, plan: StatusPlan, actor: Id, now: Time)
    requires FittingPlan(plan) && UpdateWorkflow(db, r, plan, actor, now).Committed?
    ensures Steps(db.requests, UpdateWorkflow(db, r, plan, actor, now).db.requests)
  {
    UpdateRequests(db, r, plan, actor, now);
  }

  lemma RecordSteps(db: Db, c: Commit, after: Db)
    requires Guarded(c) && after == Effect(db, c)
    requires c.Create? || c.ReceiveLead? || c.SetInspector? || c.Convert? || c.SetDetails? || c.RecordItem? || c.TakePhoto?
    ensures Steps(db.requests, after.requests)
  {
  }

  lemma EffectSteps(db: Db, c: Commit, after: Db)
    requires Guarded(c) && after == Effect(db, c)
    ensures Steps(db.requests, after.requests)
  {
    match c {
      case ScheduleVisit(r, s, actor, now) =>
        if ScheduleInspection(db, r, s, actor, now).Committed? {
          ScheduleSteps(db, r, s, actor, now);
        }
      case Update(r, plan, actor, now) =>
        if UpdateWorkflow(db, r, plan, actor, now).Committed? {
          UpdateSteps(db, r, plan, actor, now);
        }
      case Install(r, p, facts, at, actor, now) =>
        if CompleteInstallation(db, r, p, facts, at, actor, now).Committed? {
          InstallSteps(db, r, p, facts, at, actor, now);
        }
      case Allocate(r, v, actor, now) =>
        if CompleteAllocation(db, r, v, actor, now).Committed? {
          AllocateSteps(db, r, v, actor, now);
        }
      case Plant(r, at, actor, now) =>
        if CompletePlanting(db, r, at, actor, now).Committed? {
          PlantSteps(db, r, at, actor, now);
        }
      case StartVisit(_, _, _, _) => VisitSteps(db, c, after);
      case Assess(_, _, _, _, _, _) => VisitSteps(db, c, after);
      case Submit(_, _, _, _, _, _, _, _, _) => VisitSteps(db, c, after);
      case _ => RecordSteps(db, c, after);
    }
  }

  lemma NextSteps(trace: seq<Db>, a: Action)
    requires trace != []
    ensures Steps(trace[|trace| - 1].requests, Next(trace, a).requests)
  {
    if Resolve(trace, a).Some? {
      ResolvedIsGuarded(trace, a);
      EffectSteps(trace[|trace| - 1], Resolve(trace, a).value, Next(trace, a));
    }
  }

  lemma RunSteps(trace: seq<Db>, acts: seq<Action>, n: nat)
    requires IsRun(trace, acts) && n < |acts|
    ensures Steps(trace[n].requests, trace[n + 1].requests)
  {
    NextSteps(trace[..n + 1], acts[n]);
  }

  // ---------- Walks ----------

  ghost predicate Walk(js: seq<RequestStatus>) {
    forall i :: 0 <= i < |js| - 1 ==> StatusStep(js[i], js[i + 1])
  }

  lemma {:induction false} WalkClimbs(js: seq<RequestStatus>, i: nat, j: nat)
    requires Walk(js) && i <= j < |js|
    ensures js[i] == js[j] || Rank(js[i]) < Rank(js[j])
    decreases j - i
  {
    if i < j {
      WalkClimbs(js, i, j - 1);
      assert StatusStep(js[j - 1], js[j - 1 + 1]);
    }
  }

  /** A status met again was never left. */
  lemma NoReturn(js: seq<RequestStatus>, i: nat, k: nat, j: nat)
    requires Walk(js) && i <= k <= j < |js| && js[i] == js[j]
    ensures js[k] == js[i]
  {
    WalkClimbs(js, i, k);
    WalkClimbs(js, k, j);
  }

  function Changes(js: seq<RequestStatus>): nat {
    if |js| < 2 then 0
    else Changes(js[..|js| - 1]) + (if js[|js| - 1] != js[|js| - 2] then 1 else 0)
  }

  lemma {:induction false} ChangesClimb(js: seq<RequestStatus>)
    requires Walk(js) && js != []
    ensures Changes(js) + Rank(js[0]) <= Rank(js[|js| - 1])
  {
    if |js| >= 2 {
      var n := |js| - 1;
      assert StatusStep(js[n - 1], js[n - 1 + 1]);
      ChangesClimb(js[..n]);
    }
  }

  /** An open or live request has been in every earlier status. */
  lemma {:induction false} WalkVisits(js: seq<RequestStatus>, j: nat, s: RequestStatus)
    requires Walk(js) && j < |js| && js[0] == Submitted
    requires !Closed(js[j]) && !Closed(s) && Rank(s) <= Rank(js[j])
    ensures exists i :: 0 <= i <= j && js[i] == s
  {
    if js[j] != s {
      assert j > 0;
      assert StatusStep(js[j - 1], js[j - 1 + 1]);
      WalkVisits(js, j - 1, s);
    }
  }

  // ---------- The journey of a request in a run ----------

  ghost predicate Born(trace: seq<Db>, r: Id, b: nat) {
    0 < b < |trace| && |trace[b - 1].requests| <= r < |trace[b].requests|
  }

  ghost predicate Present(trace: seq<Db>, r: Id, b: nat) {
    b < |trace| && forall n :: b <= n < |trace| ==> r < |trace[n].requests|
  }

  function Journey(trace: seq<Db>, r: Id, b: nat): seq<RequestStatus>
    requires Present(trace, r, b)
  {
    seq(|trace| - b, i requires 0 <= i < |trace| - b => trace[b + i].requests[r].status)
  }

  lemma {:induction false} StaysPresent(trace: seq<Db>, acts: seq<Action>, r: Id, b: nat, n: nat)
    requires IsRun(trace, acts) && b <= n < |trace| && r < |trace[b].requests|
    ensures r < |trace[n].requests|
    decreases n - b
  {
    if b < n {
      StaysPresent(trace, acts, r, b, n - 1);
      RunSteps(trace, acts, n - 1);
    }
  }

  lemma JourneyWalks(trace: seq<Db>, acts: seq<Action>, r: Id, b: nat)
    requires IsRun(trace, acts) && b < |trace| && r < |trace[b].requests|
    ensures Present(trace, r, b) && Walk(Journey(trace, r, b))
    ensures Born(trace, r, b) ==> Journey(trace, r, b)[0] == Submitted
  {
    forall n | b <= n < |trace| ensures r < |trace[n].requests| {
      StaysPresent(trace, acts, r, b, n);
    }
    var js := Journey(trace, r, b);
    forall i | 0 <= i < |js| - 1 ensures StatusStep(js[i], js[i + 1]) {
      RunSteps(trace, acts, b + i);
    }
    if Born(trace, r, b) {
      RunSteps(trace, acts, b - 1);
    }
  }

  /** A request changes status at most seven times, never re-enters a status it has left, never leaves
      a final one, and a live request has been in all eight forward statuses, in their order. */
  lemma JourneyLaw(trace: seq<Db>, acts: seq<Action>, r: Id, b: nat)
    requires IsRun(trace, acts) && Born(trace, r, b)
    ensures Present(trace, r, b)
    ensures var js := Journey(trace, r, b);
            && Changes(js) <= 7
            && (forall i, k, j :: 0 <= i <= k <= j < |js| && js[i] == js[j] ==> js[k] == js[i])
            && (forall i, j :: 0 <= i <= j < |js| ==> Rank(js[i]) <= Rank(js[j]))
            && (forall i, j :: 0 <= i <= j < |js| && Rank(js[i]) == 7 ==> js[j] == js[i])
            && (forall j, s :: 0 <= j < |js| && js[j] == Live && !Closed(s) ==> exists i :: 0 <= i <= j && js[i] == s)
  {
    JourneyWalks(trace, acts, r, b);
    WalkLaw(Journey(trace, r, b));
  }

  lemma WalkLaw(js: seq<RequestStatus>)
    requires Walk(js) && js != [] && js[0] == Submitted
    ensures Changes(js) <= 7
    ensures forall i, k, j :: 0 <= i <= k <= j < |js| && js[i] == js[j] ==> js[k] == js[i]
    ensures forall i, j :: 0 <= i <= j < |js| ==> Rank(js[i]) <= Rank(js[j])
    ensures forall i, j :: 0 <= i <= j < |js| && Rank(js[i]) == 7 ==> js[j] == js[i]
    ensures forall j, s :: 0 <= j < |js| && js[j] == Live && !Closed(s) ==> exists i :: 0 <= i <= j && js[i] == s
  {
    ChangesClimb(js);
    forall i, k, j | 0 <= i <= k <= j < |js| && js[i] == js[j] ensures js[k] == js[i] {
      NoReturn(js, i, k, j);
    }
    forall i, j | 0 <= i <= j < |js|
      ensures Rank(js[i]) <= Rank(js[j]) && (Rank(js[i]) == 7 ==> js[j] == js[i])
    {
      WalkClimbs(js, i, j);
    }
    forall j, s | 0 <= j < |js| && js[j] == Live && !Closed(s) ensures exists i :: 0 <= i <= j && js[i] == s {
      WalkVisits(js, j, s);
    }
  }
}
