/** Lead conversion over whole runs: the key that makes it idempotent is never lost, although details
    are rewritten from reads that may be stale. */
module Leads {
  import opened Wrappers
  import opened Domain
  import opened Transactions
  import opened Requests
  import opened DetailWrites
  import opened Runs

  // ---------- The key survives every details write ----------

  predicate SameLead(a: Details, b: Details) {
    SameAt(LeadKey, a, b)
  }

  ghost predicate SameLeads(before: seq<Request>, after: seq<Request>) {
    |before| <= |after| && forall r :: 0 <= r < |before| ==> SameLead(before[r].details, after[r].details)
  }

  /** A details write from an earlier read is based on details with the same lead key. */
  ghost predicate KeyedRight(db: Db, c: Commit) {
    && (c.SetDetails? && c.request < |db.requests| ==> SameLead(db.requests[c.request].details, c.details))
    && (c.Update? && c.request < |db.requests| && c.plan.patch.details.Some? ==>
          SameLead(db.requests[c.request].details, c.plan.patch.details.value))
  }

  lemma EffectLeads(db: Db, c: Commit, after: Db)
    requires Guarded(c) && KeyedRight(db, c) && after == Effect(db, c)
    ensures SameLeads(db.requests, after.requests)
    ensures !Inserts(c) ==> |after.requests| == |db.requests|
  {
    EffectDetails(LeadKey, db, c, after);
  }

  /** What a details-writing action is based on: the row it read, at the time it read it. */
  lemma ReadDetails(past: seq<Db>, a: Action)
    requires past != [] && Resolve(past, a).Some? && (a.UploadPhoto? || a.PatchStatus?)
    ensures var c := Resolve(past, a).value;
            && a.readRequest < |past| && a.request < |past[a.readRequest].requests|
            && (c.SetDetails? || c.Update?) && c.request == a.request
            && (c.SetDetails? ==> SameLead(past[a.readRequest].requests[a.request].details, c.details))
            && (c.Update? && c.plan.patch.details.Some? ==>
                  SameLead(past[a.readRequest].requests[a.request].details, c.plan.patch.details.value))
  {
    if a.PatchStatus? {
      PlansFit(past[a.readRequest].requests[a.request], a.target, a.notes,
               Seen(past[a.readReports], past[a.readInstallations], past[a.readBatches]), a.actor, a.plannedAt);
    }
  }

  lemma NextLeads(past: seq<Db>, a: Action)
    requires past != []
    requires Resolve(past, a).Some? ==> KeyedRight(past[|past| - 1], Resolve(past, a).value)
    ensures SameLeads(past[|past| - 1].requests, Next(past, a).requests)
    ensures Resolve(past, a).None? || !Inserts(Resolve(past, a).value) ==>
              |Next(past, a).requests| == |past[|past| - 1].requests|
  {
    if Resolve(past, a).Some? {
      ResolvedIsGuarded(past, a);
      EffectLeads(past[|past| - 1], Resolve(past, a).value, Next(past, a));
    }
  }

  /** The lead key of a request is what it was when the request was created, whoever wrote its details
      since, from however old a read. */
  lemma {:induction false} LeadKeyIsKept(trace: seq<Db>, acts: seq<Action>, r: Id, i: nat, j: nat)
    requires IsRun(trace, acts) && i <= j < |trace| && r < |trace[i].requests|
    ensures r < |trace[j].requests| && SameLead(trace[i].requests[r].details, trace[j].requests[r].details)
    decreases j, 0
  {
    if i < j {
      LeadKeyIsKept(trace, acts, r, i, j - 1);
      StepIsKeyed(trace, acts, j - 1);
      NextLeads(trace[..j], acts[j - 1]);
    }
  }

  lemma {:induction false} StepIsKeyed(trace: seq<Db>, acts: seq<Action>, n: nat)
    requires IsRun(trace, acts) && n < |acts|
    ensures Resolve(trace[..n + 1], acts[n]).Some? ==>
              KeyedRight(trace[n], Resolve(trace[..n + 1], acts[n]).value)
    decreases n, 1
  {
    var past, a := trace[..n + 1], acts[n];
    if Resolve(past, a).Some? && (a.UploadPhoto? || a.PatchStatus?) {
      ReadDetails(past, a);
      LeadKeyIsKept(trace, acts, a.request, a.readRequest, n);
    }
  }

  // ---------- Counting the requests that carry a lead ----------

  function Carriers(rows: seq<Request>, lead: Id): nat {
    if rows == [] then 0
    else Carriers(rows[..|rows| - 1], lead) + (if CarriesLead(rows[|rows| - 1], lead) then 1 else 0)
  }

  lemma {:induction false} SameCarriers(a: seq<Request>, b: seq<Request>, lead: Id)
    requires |a| == |b| && SameLeads(a, b)
    ensures Carriers(a, lead) == Carriers(b, lead)
  {
    if a != [] {
      var n := |a| - 1;
      SameCarriers(a[..n], b[..n], lead);
      assert SameLead(a[n].details, b[n].details);
    }
  }

  lemma MoreCarriers(rows: seq<Request>, row: Request, lead: Id)
    ensures Carriers(rows + [row], lead) == Carriers(rows, lead) + (if CarriesLead(row, lead) then 1 else 0)
  {
    assert (rows + [row])[..|rows|] == rows;
  }

  lemma {:induction false} NoCarrier(rows: seq<Request>, lead: Id)
    ensures Carriers(rows, lead) == 0 <==> forall r :: 0 <= r < |rows| ==> !CarriesLead(rows[r], lead)
  {
    if rows != [] {
      NoCarrier(rows[..|rows| - 1], lead);
      assert forall r :: 0 <= r < |rows| - 1 ==> rows[..|rows| - 1][r] == rows[r];
    }
  }

  /** Conversion finds a carrier exactly when there is one, and then the earliest. */
  lemma LeadRequestIs(rows: seq<Request>, lead: Id)
    ensures var found := LeadRequest(rows, lead);
            && (found.Some? <==> Carriers(rows, lead) > 0)
            && (found.Some? ==> CarriesLead(rows[found.value], lead))
            && (forall r :: 0 <= r < (if found.Some? then found.value else |rows|) ==> !CarriesLead(rows[r], lead))
  {
    FirstWhereIs(rows, (x: Request) => CarriesLead(x, lead));
    NoCarrier(rows, lead);
  }

  lemma FirstCarrierStays(a: seq<Request>, b: seq<Request>, lead: Id)
    requires SameLeads(a, b) && LeadRequest(a, lead).Some?
    ensures LeadRequest(b, lead) == LeadRequest(a, lead)
  {
    LeadRequestIs(a, lead);
    LeadRequestIs(b, lead);
    NoCarrier(b, lead);
    var r := LeadRequest(a, lead).value;
    forall q | 0 <= q < |a| ensures CarriesLead(b[q], lead) <==> CarriesLead(a[q], lead) {
      assert SameLead(a[q].details, b[q].details);
    }
    assert CarriesLead(b[r], lead);
  }

  // ---------- Conversions in a run ----------

  /** A user may create a request that claims to come from a lead: the details are the user's own. */
  predicate Claims(a: Action, lead: Id) {
    a.Direct? && a.commit.Create? && LeadKey in a.commit.details && a.commit.details[LeadKey] == JId(lead)
  }

  ghost predicate Converts(db: Db, a: Action, lead: Id) {
    a.Direct? && a.commit.Convert? && Guarded(a.commit) && a.commit.lead == lead && lead < |db.leads|
  }

  lemma ConvertRequests(db: Db, c: Commit, lead: Id)
    requires c.Convert? && Guarded(c)
    ensures var inserts := c.lead < |db.leads| && LeadRequest(db.requests, c.lead).None?;
            Carriers(Effect(db, c).requests, lead)
            == Carriers(db.requests, lead) + (if inserts && c.lead == lead then 1 else 0)
  {
    MoreCarriers(db.requests, c.row, lead);
  }

  lemma CreateRequests(db: Db, c: Commit, lead: Id)
    requires c.Create?
    ensures Carriers(Effect(db, c).requests, lead)
            == Carriers(db.requests, lead) + (if LeadKey in c.details && c.details[LeadKey] == JId(lead) then 1 else 0)
  {
    MoreCarriers(db.requests, Request(c.owner, None, c.site, c.details, Submitted, None, None, None), lead);
  }

  /** Only a claim, or a conversion that finds no carrier, adds a carrier. */
  lemma NextCarriers(past: seq<Db>, a: Action, lead: Id)
    requires past != []
    requires Resolve(past, a).Some? ==> KeyedRight(past[|past| - 1], Resolve(past, a).value)
    ensures var db := past[|past| - 1];
            Carriers(Next(past, a).requests, lead)
            == Carriers(db.requests, lead)
               + (if Claims(a, lead) then 1 else 0)
               + (if Converts(db, a, lead) && Carriers(db.requests, lead) == 0 then 1 else 0)
  {
    var db := past[|past| - 1];
    NextLeads(past, a);
    if Resolve(past, a).Some? && Inserts(Resolve(past, a).value) {
      var c := Resolve(past, a).value;
      LeadRequestIs(db.requests, lead);
      if c.Create? {
        CreateRequests(db, c, lead);
      } else {
        ConvertRequests(db, c, lead);
      }
    } else {
      SameCarriers(db.requests, Next(past, a).requests, lead);
    }
  }

  lemma RunCarriers(trace: seq<Db>, acts: seq<Action>, n: nat, lead: Id)
    requires IsRun(trace, acts) && n < |acts|
    ensures Carriers(trace[n + 1].requests, lead)
            == Carriers(trace[n].requests, lead)
               + (if Claims(acts[n], lead) then 1 else 0)
               + (if Converts(trace[n], acts[n], lead) && Carriers(trace[n].requests, lead) == 0 then 1 else 0)
  {
    StepIsKeyed(trace, acts, n);
    NextCarriers(trace[..n + 1], acts[n], lead);
  }

  function ClaimsIn(acts: seq<Action>, lead: Id): nat {
    if acts == [] then 0
    else ClaimsIn(acts[..|acts| - 1], lead) + (if Claims(acts[|acts| - 1], lead) then 1 else 0)
  }

  lemma ClaimsNext(acts: seq<Action>, n: nat, lead: Id)
    requires n < |acts|
    ensures ClaimsIn(acts[..n + 1], lead) == ClaimsIn(acts[..n], lead) + (if Claims(acts[n], lead) then 1 else 0)
  {
    assert acts[..n + 1][..n] == acts[..n];
  }

  ghost predicate NoConversion(trace: seq<Db>, acts: seq<Action>, n: nat, lead: Id)
    requires |trace| == |acts| + 1 && n <= |acts|
  {
    forall k :: 0 <= k < n ==> !Converts(trace[k], acts[k], lead)
  }

  lemma {:induction false} CarriersBeforeConversion(trace: seq<Db>, acts: seq<Action>, n: nat, lead: Id)
    requires IsRun(trace, acts) && n < |trace| && NoConversion(trace, acts, n, lead)
    ensures Carriers(trace[n].requests, lead) == ClaimsIn(acts[..n], lead)
  {
    if n > 0 {
      CarriersBeforeConversion(trace, acts, n - 1, lead);
      RunCarriers(trace, acts, n - 1, lead);
      ClaimsNext(acts, n - 1, lead);
    }
  }

  lemma FirstConversionCounts(trace: seq<Db>, acts: seq<Action>, k: nat, lead: Id)
    requires IsRun(trace, acts) && k < |acts|
    requires NoConversion(trace, acts, k, lead) && Converts(trace[k], acts[k], lead)
    ensures Carriers(trace[k + 1].requests, lead)
            == ClaimsIn(acts[..k + 1], lead) + (if ClaimsIn(acts[..k], lead) == 0 then 1 else 0)
  {
    CarriersBeforeConversion(trace, acts, k, lead);
    ClaimsNext(acts, k, lead);
    RunCarriers(trace, acts, k, lead);
  }

  /** Carriers that no user claimed. */
  function Unclaimed(trace: seq<Db>, acts: seq<Action>, n: nat, lead: Id): int
    requires n < |trace| && n <= |acts|
  {
    Carriers(trace[n].requests, lead) - ClaimsIn(acts[..n], lead)
  }

  lemma UnclaimedNext(trace: seq<Db>, acts: seq<Action>, n: nat, lead: Id)
    requires IsRun(trace, acts) && n < |acts| && Carriers(trace[n].requests, lead) > 0
    ensures Unclaimed(trace, acts, n + 1, lead) == Unclaimed(trace, acts, n, lead)
    ensures Carriers(trace[n + 1].requests, lead) > 0
  {
    ClaimsNext(acts, n, lead);
    RunCarriers(trace, acts, n, lead);
  }

  lemma {:induction false} UnclaimedStays(trace: seq<Db>, acts: seq<Action>, i: nat, j: nat, lead: Id)
    requires IsRun(trace, acts) && i <= j < |trace| && Carriers(trace[i].requests, lead) > 0
    ensures Unclaimed(trace, acts, j, lead) == Unclaimed(trace, acts, i, lead)
    decreases j - i
  {
    if i < j {
      UnclaimedNext(trace, acts, i, lead);
      UnclaimedStays(trace, acts, i + 1, j, lead);
    }
  }

  /** Any number of conversions of a lead leave one request for it, besides those users claimed; when
      somebody claimed it before the first conversion, that claim takes the conversion's place. */
  lemma ConversionIsOnce(trace: seq<Db>, acts: seq<Action>, k: nat, n: nat, lead: Id)
    requires IsRun(trace, acts) && k < n < |trace|
    requires NoConversion(trace, acts, k, lead) && Converts(trace[k], acts[k], lead)
    ensures Carriers(trace[n].requests, lead)
            == ClaimsIn(acts[..n], lead) + (if ClaimsIn(acts[..k], lead) == 0 then 1 else 0)
  {
    FirstConversionCounts(trace, acts, k, lead);
    ClaimsGrow(acts, k, k + 1, lead);
    UnclaimedStays(trace, acts, k + 1, n, lead);
  }

  /** Exactly one request carries the lead, in every later state, if and only if nobody claimed it, or
      one user did and that was before the first conversion. */
  lemma ExactlyOneCarrier(trace: seq<Db>, acts: seq<Action>, k: nat, n: nat, lead: Id)
    requires IsRun(trace, acts) && k < n < |trace|
    requires NoConversion(trace, acts, k, lead) && Converts(trace[k], acts[k], lead)
    ensures Carriers(trace[n].requests, lead) == 1
            <==> ClaimsIn(acts[..n], lead) == 0
                 || (ClaimsIn(acts[..n], lead) == 1 && ClaimsIn(acts[..k], lead) == 1)
  {
    ConversionIsOnce(trace, acts, k, n, lead);
    ClaimsGrow(acts, k, n, lead);
  }

  lemma {:induction false} ClaimsGrow(acts: seq<Action>, k: nat, n: nat, lead: Id)
    requires k <= n <= |acts|
    ensures ClaimsIn(acts[..k], lead) <= ClaimsIn(acts[..n], lead)
    decreases n
  {
    if k < n {
      ClaimsGrow(acts, k, n - 1, lead);
      ClaimsNext(acts, n - 1, lead);
    }
  }

  lemma ConvertFinds(db: Db, lead: Id, row: Request, actor: Id, now: Time)
    requires lead < |db.leads| && CarriesLead(row, lead)
    ensures var out := ConvertLead(db, lead, row, actor, now);
            && out.Committed?
            && (out.value.created <==> Carriers(db.requests, lead) == 0)
            && LeadRequest(out.db.requests, lead) == Some(out.value.request)
            && lead < |out.db.leads| && out.db.leads[lead].status == Converted
            && (!out.value.created ==> LeadRequest(db.requests, lead) == Some(out.value.request))
  {
    LeadRequestIs(db.requests, lead);
    var out := ConvertLead(db, lead, row, actor, now);
    LeadRequestIs(out.db.requests, lead);
    MoreCarriers(db.requests, row, lead);
  }

  lemma LeadsKept(trace: seq<Db>, acts: seq<Action>, i: nat, j: nat)
    requires IsRun(trace, acts) && i <= j < |trace|
    ensures SameLeads(trace[i].requests, trace[j].requests)
  {
    forall r | 0 <= r < |trace[i].requests|
      ensures r < |trace[j].requests| && SameLead(trace[i].requests[r].details, trace[j].requests[r].details)
    {
      LeadKeyIsKept(trace, acts, r, i, j);
    }
    if |trace[i].requests| > 0 {
      LeadKeyIsKept(trace, acts, |trace[i].requests| - 1, i, j);
    }
  }

  lemma ConvertNext(trace: seq<Db>, acts: seq<Action>, k: nat, lead: Id)
    requires IsRun(trace, acts) && k < |acts| && Converts(trace[k], acts[k], lead)
    ensures var c := acts[k].commit;
            ConvertLead(trace[k], lead, c.row, c.actor, c.now).Committed?
            && trace[k + 1] == ConvertLead(trace[k], lead, c.row, c.actor, c.now).db
  {
    assert Next(trace[..k + 1], acts[k]) == Effect(trace[k], acts[k].commit);
  }

  /** The first conversion reports a creation exactly when no user had claimed the lead; every later
      conversion, whatever happens between, reports none and returns the same request. */
  lemma LaterConversionsReturnTheSame(trace: seq<Db>, acts: seq<Action>, k: nat, n: nat, lead: Id)
    requires IsRun(trace, acts) && k < n < |acts|
    requires Converts(trace[k], acts[k], lead) && Converts(trace[n], acts[n], lead)
    ensures var c, d := acts[k].commit, acts[n].commit;
            var first := ConvertLead(trace[k], lead, c.row, c.actor, c.now);
            var later := ConvertLead(trace[n], lead, d.row, d.actor, d.now);
            && first.Committed? && later.Committed?
            && (NoConversion(trace, acts, k, lead) ==>
                  (first.value.created <==> ClaimsIn(acts[..k], lead) == 0))
            && !later.value.created && later.value.request == first.value.request
  {
    var c, d := acts[k].commit, acts[n].commit;
    ConvertFinds(trace[k], lead, c.row, c.actor, c.now);
    ConvertFinds(trace[n], lead, d.row, d.actor, d.now);
    ConvertNext(trace, acts, k, lead);
    LeadsKept(trace, acts, k + 1, n);
    FirstCarrierStays(trace[k + 1].requests, trace[n].requests, lead);
    LeadRequestIs(trace[n].requests, lead);
    if NoConversion(trace, acts, k, lead) {
      CarriersBeforeConversion(trace, acts, k, lead);
    }
  }

  /** One request per lead is not what the code guarantees: a user who claims a converted lead in the
      details of an ordinary request makes two. */
  lemma ClaimedLeadIsCarriedTwice(db: Db, received: Lead, site: Site) returns (trace: seq<Db>, acts: seq<Action>)
    requires Fresh(db) && db.leads == [received]
    ensures IsRun(trace, acts) && |acts| == 2 && trace[0] == db
    ensures Converts(trace[0], acts[0], 0) && Carriers(trace[2].requests, 0) == 2
  {
    var carried: Details := map[LeadKey := JId(0)];
    var row := Request(1, None, site, carried, Submitted, None, None, None);
    acts := [Direct(Convert(0, row, 2, 10)), Direct(Create(3, site, carried))];
    var db1 := Next([db], acts[0]);
    var db2 := Next([db, db1], acts[1]);
    trace := [db, db1, db2];
    assert trace[..1] == [db] && trace[..2] == [db, db1];
    assert Claims(acts[1], 0) && !Claims(acts[0], 0);
    ConversionIsOnce(trace, acts, 0, 2, 0);
    ClaimsNext(acts, 0, 0);
    ClaimsNext(acts, 1, 0);
  }
}
