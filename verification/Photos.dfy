/** Photos uploaded to a request live in its details, which clients rewrite whole from what they read.
    This says exactly when an uploaded photo is still there. */
module Photos {
  import opened Wrappers
  import opened Domain
  import opened Transactions
  import opened Requests
  import opened Runs
  import opened DetailWrites
  import Journeys

  predicate Commits(db: Db, c: Commit) {
    match c
    case SetDetails(r, owner, details) => WriteDetails(db, r, owner, details).Committed?
    case Update(r, plan, actor, now) => UpdateWorkflow(db, r, plan, actor, now).Committed?
    case _ => false
  }

  /** The step commits details of request `r` given whole: an upload, or the start of tracking. */
  predicate Rewrites(past: seq<Db>, a: Action, r: Id)
    requires past != []
  {
    var c := Resolve(past, a);
    c.Some? && WrittenDetails(c.value).Some? && c.value.request == r && Commits(past[|past| - 1], c.value)
  }

  function PhotosAt(db: Db, r: Id): seq<Json>
    requires r < |db.requests|
  {
    PhotoList(db.requests[r].details)
  }

  // ---------- One step ----------

  lemma WrittenPhotos(past: seq<Db>, a: Action, r: Id)
    requires past != [] && Rewrites(past, a, r)
    ensures (a.UploadPhoto? || a.PatchStatus?) && a.request == r
    ensures a.readRequest < |past| && r < |past[a.readRequest].requests|
    ensures PhotoList(WrittenDetails(Resolve(past, a).value).value)
            == PhotosAt(past[a.readRequest], r) + (if a.UploadPhoto? then [a.photo] else [])
  {
    if a.PatchStatus? {
      PlansFit(past[a.readRequest].requests[a.request], a.target, a.notes,
               Seen(past[a.readReports], past[a.readInstallations], past[a.readBatches]), a.actor, a.plannedAt);
    }
  }

  lemma CommittedDetails(db: Db, c: Commit)
    requires WrittenDetails(c).Some? && Commits(db, c)
    ensures var after := Effect(db, c);
            && c.request < |db.requests| == |after.requests|
            && after.requests[c.request].details == WrittenDetails(c).value
  {
    if c.Update? {
      Journeys.UpdateRequests(db, c.request, c.plan, c.actor, c.now);
    }
  }

  lemma RefusedDetails(db: Db, c: Commit)
    requires WrittenDetails(c).Some? && !Commits(db, c)
    ensures Effect(db, c) == db
  {
  }

  lemma NextPhotos(past: seq<Db>, a: Action, r: Id)
    requires past != [] && r < |past[|past| - 1].requests|
    ensures r < |Next(past, a).requests|
    ensures !Rewrites(past, a, r) ==> PhotosAt(Next(past, a), r) == PhotosAt(past[|past| - 1], r)
    ensures Rewrites(past, a, r) ==>
              && (a.UploadPhoto? || a.PatchStatus?) && a.request == r
              && a.readRequest < |past| && r < |past[a.readRequest].requests|
              && PhotosAt(Next(past, a), r)
                 == PhotosAt(past[a.readRequest], r) + (if a.UploadPhoto? then [a.photo] else [])
  {
    var c := Resolve(past, a);
    if Rewrites(past, a, r) {
      WrittenPhotos(past, a, r);
      CommittedDetails(past[|past| - 1], c.value);
    } else if c.Some? {
      ResolvedIsGuarded(past, a);
      UnwrittenPhotos(past[|past| - 1], c.value, Next(past, a), r);
    }
  }

  lemma UnwrittenPhotos(db: Db, c: Commit, after: Db, r: Id)
    requires Guarded(c) && after == Effect(db, c) && r < |db.requests|
    requires WrittenDetails(c).Some? && c.request == r ==> !Commits(db, c)
    ensures r < |after.requests| && PhotosAt(after, r) == PhotosAt(db, r)
  {
    if WrittenDetails(c).Some? && c.request == r {
      RefusedDetails(db, c);
    } else {
      EffectDetails(PhotosKey, db, c, after);
    }
  }

  // ---------- Along a run ----------

  predicate RewritesAt(trace: seq<Db>, acts: seq<Action>, r: Id, n: nat)
    requires |trace| == |acts| + 1 && n < |acts|
  {
    Rewrites(trace[..n + 1], acts[n], r)
  }

  lemma RunPhotos(trace: seq<Db>, acts: seq<Action>, r: Id, n: nat)
    requires IsRun(trace, acts) && n < |acts| && r < |trace[n].requests|
    ensures r < |trace[n + 1].requests|
    ensures !RewritesAt(trace, acts, r, n) ==> PhotosAt(trace[n + 1], r) == PhotosAt(trace[n], r)
    ensures RewritesAt(trace, acts, r, n) ==>
              && (acts[n].UploadPhoto? || acts[n].PatchStatus?) && acts[n].request == r
              && acts[n].readRequest <= n && r < |trace[acts[n].readRequest].requests|
              && PhotosAt(trace[n + 1], r)
                 == PhotosAt(trace[acts[n].readRequest], r) + (if acts[n].UploadPhoto? then [acts[n].photo] else [])
  {
    NextPhotos(trace[..n + 1], acts[n], r);
  }

  /** Step `n` uploads a photo of its own: its path is new, so it was nowhere before and is uploaded once. */
  ghost predicate Uploads(trace: seq<Db>, acts: seq<Action>, r: Id, n: nat)
    requires |trace| == |acts| + 1
  {
    && n < |acts| && acts[n].UploadPhoto? && RewritesAt(trace, acts, r, n)
    && (forall m :: 0 <= m <= n && r < |trace[m].requests| ==> acts[n].photo !in PhotosAt(trace[m], r))
    && (forall k :: 0 <= k < |acts| && k != n && acts[k].UploadPhoto? && acts[k].request == r ==>
          acts[k].photo != acts[n].photo)
  }

  ghost predicate Shown(trace: seq<Db>, r: Id, j: nat, photo: Json) {
    j < |trace| && r < |trace[j].requests| && photo in PhotosAt(trace[j], r)
  }

  /** For each step that rewrites the details of request `r`, when it had read them. */
  function ReadsBehind(trace: seq<Db>, acts: seq<Action>, r: Id): (sources: seq<Option<nat>>)
    requires |trace| == |acts| + 1
    ensures |sources| == |acts|
  {
    seq(|acts|, n requires 0 <= n < |acts| =>
      if RewritesAt(trace, acts, r, n) && (acts[n].UploadPhoto? || acts[n].PatchStatus?)
      then Some(acts[n].readRequest) else None)
  }

  /** The details of state `j` come from step `n` by following, from each rewrite, what it had read. */
  predicate LeadsBack(sources: seq<Option<nat>>, n: nat, j: nat)
    requires j <= |sources|
    decreases j
  {
    n < j
    && (j - 1 == n
        || match sources[j - 1]
           case None => LeadsBack(sources, n, j - 1)
           case Some(t) => t < j && LeadsBack(sources, n, t))
  }

  lemma StayPresent(trace: seq<Db>, acts: seq<Action>, r: Id, n: nat, j: nat)
    requires IsRun(trace, acts) && Uploads(trace, acts, r, n) && n <= j < |trace|
    ensures r < |trace[n].requests| && r < |trace[j].requests|
  {
    UploadedTo(trace[..n + 1], acts[n], r);
    Journeys.StaysPresent(trace, acts, r, n, j);
  }

  lemma UploadedTo(past: seq<Db>, a: Action, r: Id)
    requires past != [] && a.UploadPhoto? && Rewrites(past, a, r)
    ensures r < |past[|past| - 1].requests|
  {
  }

  /** What one step does to the photo of step `n`: a rewrite shows it exactly when what it read did. */
  lemma ShownNext(trace: seq<Db>, acts: seq<Action>, r: Id, n: nat, j: nat)
    requires IsRun(trace, acts) && Uploads(trace, acts, r, n) && n <= j < |acts|
    ensures j == n ==> Shown(trace, r, j + 1, acts[n].photo)
    ensures j != n ==>
              match ReadsBehind(trace, acts, r)[j]
              case None => Shown(trace, r, j + 1, acts[n].photo) <==> Shown(trace, r, j, acts[n].photo)
              case Some(t) => t <= j && (Shown(trace, r, j + 1, acts[n].photo) <==> Shown(trace, r, t, acts[n].photo))
  {
    StayPresent(trace, acts, r, n, j);
    RunPhotos(trace, acts, r, j);
    if j == n {
      assert PhotosAt(trace[j + 1], r)[|PhotosAt(trace[j + 1], r)| - 1] == acts[n].photo;
    }
  }

  lemma NotShownBefore(trace: seq<Db>, acts: seq<Action>, r: Id, n: nat, j: nat)
    requires |trace| == |acts| + 1 && Uploads(trace, acts, r, n) && j <= n
    ensures !Shown(trace, r, j, acts[n].photo)
  {
  }

  /** State `m + 1` shows something exactly when the state its details came from did. */
  predicate HandedOn(sources: seq<Option<nat>>, shown: seq<bool>, m: nat)
    requires |shown| == |sources| + 1 && m < |sources|
  {
    match sources[m]
    case None => shown[m + 1] == shown[m]
    case Some(t) => t <= m && shown[m + 1] == shown[t]
  }

  /** Step `n` brings something that no state showed before and every later step hands on. */
  predicate Brought(sources: seq<Option<nat>>, shown: seq<bool>, n: nat)
    requires |shown| == |sources| + 1 && n < |sources|
  {
    && (forall m :: 0 <= m <= n ==> !shown[m]) && shown[n + 1]
    && forall m :: n < m < |sources| ==> HandedOn(sources, shown, m)
  }

  /** It is shown in exactly the states whose chain of reads leads back to step `n`. */
  lemma {:induction false} ChainLaw(sources: seq<Option<nat>>, shown: seq<bool>, n: nat, j: nat)
    requires |shown| == |sources| + 1 && n < |sources| && j <= |sources| && Brought(sources, shown, n)
    ensures shown[j] <==> LeadsBack(sources, n, j)
    decreases j
  {
    if n + 1 < j {
      assert HandedOn(sources, shown, j - 1);
      ChainLaw(sources, shown, n, if sources[j - 1].Some? then sources[j - 1].value else j - 1);
    }
  }

  ghost function ShownStates(trace: seq<Db>, r: Id, photo: Json): seq<bool> {
    seq(|trace|, m requires 0 <= m < |trace| => Shown(trace, r, m, photo))
  }

  lemma UploadBrings(trace: seq<Db>, acts: seq<Action>, r: Id, n: nat)
    requires IsRun(trace, acts) && Uploads(trace, acts, r, n)
    ensures Brought(ReadsBehind(trace, acts, r), ShownStates(trace, r, acts[n].photo), n)
  {
    var sources, shown := ReadsBehind(trace, acts, r), ShownStates(trace, r, acts[n].photo);
    forall m | 0 <= m <= n ensures !shown[m] {
      NotShownBefore(trace, acts, r, n, m);
    }
    ShownNext(trace, acts, r, n, n);
    forall m | n < m < |sources| ensures HandedOn(sources, shown, m) {
      ShownNext(trace, acts, r, n, m);
    }
  }

  /** At any moment an uploaded photo is among the request's photos exactly when the chain of reads behind
      the details of that moment leads back to the upload. */
  lemma PhotoIsShownExactly(trace: seq<Db>, acts: seq<Action>, r: Id, n: nat, j: nat)
    requires IsRun(trace, acts) && Uploads(trace, acts, r, n) && j < |trace|
    ensures Shown(trace, r, j, acts[n].photo) <==> LeadsBack(ReadsBehind(trace, acts, r), n, j)
  {
    UploadBrings(trace, acts, r, n);
    ChainLaw(ReadsBehind(trace, acts, r), ShownStates(trace, r, acts[n].photo), n, j);
  }

  /** A rewrite after the upload that had read the request before it. */
  predicate StaleRewrite(sources: seq<Option<nat>>, n: nat, k: nat)
    requires k < |sources|
  {
    n < k && sources[k].Some? && sources[k].value <= n
  }

  lemma {:induction false} FreshReadsLeadBack(sources: seq<Option<nat>>, n: nat, j: nat, m: nat)
    requires n < m <= j <= |sources|
    requires forall k :: 0 <= k < j ==> !StaleRewrite(sources, n, k)
    requires forall k :: 0 <= k < |sources| && sources[k].Some? ==> sources[k].value <= k
    ensures LeadsBack(sources, n, m)
    decreases m
  {
    if m - 1 != n {
      assert !StaleRewrite(sources, n, m - 1);
      FreshReadsLeadBack(sources, n, j, if sources[m - 1].Some? then sources[m - 1].value else m - 1);
    }
  }

  lemma ReadsAreEarlier(trace: seq<Db>, acts: seq<Action>, r: Id)
    requires |trace| == |acts| + 1
    ensures var sources := ReadsBehind(trace, acts, r);
            forall k :: 0 <= k < |sources| && sources[k].Some? ==> sources[k].value <= k
  {
    forall k | 0 <= k < |acts| && RewritesAt(trace, acts, r, k) ensures acts[k].readRequest <= k {
      WrittenPhotos(trace[..k + 1], acts[k], r);
    }
  }

  /** An uploaded photo is shown without interruption up to state `j` if and only if no details write
      committed up to then had read the request before the upload. */
  lemma PhotoStaysExactly(trace: seq<Db>, acts: seq<Action>, r: Id, n: nat, j: nat)
    requires IsRun(trace, acts) && Uploads(trace, acts, r, n) && n < j < |trace|
    ensures (forall m :: n < m <= j ==> Shown(trace, r, m, acts[n].photo))
            <==> (forall k :: 0 <= k < j ==> !StaleRewrite(ReadsBehind(trace, acts, r), n, k))
  {
    var sources := ReadsBehind(trace, acts, r);
    if forall k :: 0 <= k < j ==> !StaleRewrite(sources, n, k) {
      ReadsAreEarlier(trace, acts, r);
      forall m | n < m <= j ensures Shown(trace, r, m, acts[n].photo) {
        FreshReadsLeadBack(sources, n, j, m);
        PhotoIsShownExactly(trace, acts, r, n, m);
      }
    } else {
      var k :| 0 <= k < j && StaleRewrite(sources, n, k);
      StaleRewriteLoses(trace, acts, r, n, k);
    }
  }

  /** Right after a stale rewrite the photo is gone. */
  lemma StaleRewriteLoses(trace: seq<Db>, acts: seq<Action>, r: Id, n: nat, k: nat)
    requires IsRun(trace, acts) && Uploads(trace, acts, r, n) && k < |acts|
    requires StaleRewrite(ReadsBehind(trace, acts, r), n, k)
    ensures !Shown(trace, r, k + 1, acts[n].photo)
  {
    ShownNext(trace, acts, r, n, k);
    NotShownBefore(trace, acts, r, n, acts[k].readRequest);
  }
}
