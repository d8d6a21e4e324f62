/** What a new request, a converted lead and a started visit leave behind, value by value. */
module IntakeOutcome {
  import opened Wrappers
  import opened Domain
  import opened Transactions

  /** A seeded workflow: signing up is done, the property is being described, nothing else has begun. */
  ghost predicate Seeded(w: Workflow, owner: Id) {
    && w.owner == owner && w.currentStage == ResidentSignup && w.status == WorkflowActive && w.completedAt.None?
    && forall k: StageKey :: && k in w.stages && w.stages[k].owner.None? && w.stages[k].evidence == map[]
                             && w.stages[k].nextAction == SeededAction(k) && w.stages[k].startedAt.None?
                             && w.stages[k].submittedAt.None? && w.stages[k].completedAt.None?
                             && w.stages[k].status == (match k
                                                       case ResidentSignup => StageCompleted
                                                       case PropertyDetails => InProgress
                                                       case _ => NotStarted)
  }

  /** One row is appended to the requests, with its seeded workflow. */
  ghost predicate RequestAdded(db: Db, after: Db, row: Request) {
    && after == db.(requests := db.requests + [row], workflows := after.workflows)
    && |after.workflows| == |db.workflows| + 1 && db.workflows <= after.workflows
    && Seeded(after.workflows[|db.workflows|], row.owner)
  }

  lemma InsertAdds(db: Db, row: Request)
    ensures RequestAdded(db, InsertRequest(db, row), row)
  {
  }

  /** A created request is submitted, unlinked and not reviewed. */
  lemma CreationLeaves(db: Db, owner: Id, site: Site, details: Details)
    ensures var out := CreateRequest(db, owner, site, details);
            && out.Committed? && out.value == |db.requests|
            && RequestAdded(db, out.db, Request(owner, None, site, details, Submitted, None, None, None))
  {
    InsertAdds(db, Request(owner, None, site, details, Submitted, None, None, None));
  }

  predicate Carries(x: Request, lead: Id) {
    LeadKey in x.details && x.details[LeadKey] == JId(lead)
  }

  /** A conversion finds the lead's earliest request, or adds the row given; the lead is marked converted with
      the row's notes and the actor either way. */
  lemma ConversionLeaves(db: Db, lead: Id, row: Request, actor: Id, now: Time)
    ensures var out := ConvertLead(db, lead, row, actor, now);
            && (out.Committed? <==> lead < |db.leads|)
            && (out.Committed? ==>
                  && out.db.leads == db.leads[lead := Lead(Converted, row.adminNotes, Some(actor), Some(now))]
                  && (out.value.created <==> forall i :: 0 <= i < |db.requests| ==> !Carries(db.requests[i], lead))
                  && (out.value.created ==>
                        out.value.request == |db.requests| && RequestAdded(db, out.db.(leads := db.leads), row))
                  && (!out.value.created ==>
                        && out.db.(leads := db.leads) == db && out.value.request < |db.requests|
                        && Carries(db.requests[out.value.request], lead)
                        && forall i :: 0 <= i < out.value.request ==> !Carries(db.requests[i], lead)))
  {
    FirstWhereIs(db.requests, (x: Request) => CarriesLead(x, lead));
    assert forall x: Request :: CarriesLead(x, lead) <==> Carries(x, lead);
    InsertAdds(db, row);
  }

  /** Only the owner writes a request's details, and then nothing else changes. */
  lemma DetailsLeave(db: Db, r: Id, owner: Id, details: Details)
    ensures var out := WriteDetails(db, r, owner, details);
            && (out.Committed? <==> r < |db.requests| && db.requests[r].owner == owner)
            && (out.Committed? ==>
                  && out.db == db.(requests := out.db.requests) && |out.db.requests| == |db.requests|
                  && out.db.requests[r] == db.requests[r].(details := details)
                  && forall q :: 0 <= q < |db.requests| && q != r ==> out.db.requests[q] == db.requests[q])
            && (out.Aborted? ==> out.error == RequestChanged)
  {
  }

  /** The items of a report, one for each row of the template, unanswered. */
  predicate FromTemplate(items: seq<ChecklistItem>, id: Id, template: seq<TemplateRow>) {
    && |items| == |template|
    && forall i :: 0 <= i < |template| ==>
         items[i] == ChecklistItem(id, template[i].category, template[i].name, template[i].requiresPhoto, ItemNa, None,
                                   template[i].sortOrder)
  }

  /** A started visit: its report is found or inserted as a draft of the visit's inspector and garden, the visit
      is in progress if it was open and its start recorded once, and a report without items gets the template. */
  lemma StartLeaves(db: Db, a: Id, inspector: Id, gps: Gps, template: seq<TemplateRow>, now: Time)
    ensures var out := StartReport(db, a, inspector, gps, template, now);
            && (out.Committed? <==> a < |db.assignments| && db.assignments[a].inspector == inspector)
            && (out.Committed? ==>
                  var was, id := db.assignments[a], out.value;
                  && out.db == db.(reports := out.db.reports, assignments := out.db.assignments, items := out.db.items)
                  && (if exists i :: 0 <= i < |db.reports| && db.reports[i].assignment == a
                      then id < |db.reports| && db.reports[id].assignment == a && out.db.reports == db.reports
                      else && id == |db.reports|
                           && out.db.reports
                              == db.reports + [Report(a, inspector, was.garden, OverallPending, None, gps, false, None,
                                                      Draft, Some(now), None)])
                  && out.db.assignments
                     == db.assignments[a := was.(
                          status := if was.status == Pending then VisitInProgress else was.status,
                          startedAt := if was.startedAt.Some? then was.startedAt else Some(now), updatedAt := now)]
                  && db.items <= out.db.items
                  && (if exists k :: 0 <= k < |db.items| && db.items[k].report == id then out.db.items == db.items
                      else FromTemplate(out.db.items[|db.items|..], id, template)))
  {
    FirstWhereIs(db.reports, (x: Report) => x.assignment == a);
  }

  /** An upsert stores the row under its id, or appends it; a photo is appended; the author must be the
      report's inspector, and the item of a photo must exist. */
  lemma CaptureLeaves(db: Db, id: Id, item: ChecklistItem, photo: Photo, inspector: Id)
    ensures var out := SaveItem(db, id, item, inspector);
            && (out.Committed? <==> item.report < |db.reports| && db.reports[item.report].inspector == inspector)
            && (out.Committed? ==>
                  out.db == db.(items := if id < |db.items| then db.items[id := item] else db.items + [item]))
    ensures var out := AddPhoto(db, photo, inspector);
            && (out.Committed? <==>
                  && photo.report < |db.reports| && db.reports[photo.report].inspector == inspector
                  && (photo.item.Some? ==> photo.item.value < |db.items|))
            && (out.Committed? ==> out.db == db.(photos := db.photos + [photo]))
  {
  }
}
