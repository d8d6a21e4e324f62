/** The evidence gate of an inspection report: which required checks still lack a result or a photo. */
module EvidenceGate {
  import opened Wrappers
  import opened Domain
  import opened Texts

  datatype Item = Item(
    id: Option<Id>, category: string, name: string, requiresPhoto: bool,
    result: Option<ItemResult>, comment: Option<string>)

  function ToItem(id: Id, row: ChecklistItem): Item {
    Item(Some(id), row.category, row.name, row.requiresPhoto, Some(row.result), row.comment)
  }

  /** The capture that stands in for a linked photo, for the four photographed checks. */
  function RequiredCapture(category: string): Option<PhotoType> {
    var folded := Folded(category);
    if folded == "garden condition" then Some(FullGardenView)
    else if folded == "crop health" then Some(CropCloseUp)
    else if folded == "irrigation status" then Some(Irrigation)
    else if folded == "pest and disease" then Some(ProblemArea)
    else None
  }

  /** An ASCII category has a capture exactly when it is, whatever its capitals, one of the four checks. */
  lemma CaptureIs(category: string)
    requires IsAscii(category)
    ensures RequiredCapture(category) == Some(FullGardenView) <==> SameButCase(category, "garden condition")
    ensures RequiredCapture(category) == Some(CropCloseUp) <==> SameButCase(category, "crop health")
    ensures RequiredCapture(category) == Some(Irrigation) <==> SameButCase(category, "irrigation status")
    ensures RequiredCapture(category) == Some(ProblemArea) <==> SameButCase(category, "pest and disease")
    ensures RequiredCapture(category) != Some(Extra)
  {
    FoldsTo(category, "garden condition");
    FoldsTo(category, "crop health");
    FoldsTo(category, "irrigation status");
    FoldsTo(category, "pest and disease");
  }

  function ItemLabel(i: Item): string {
    if i.name != "" then i.name else if i.category != "" then i.category else "Checklist item"
  }

  // ---------- What the gate is for ----------

  predicate LacksResult(i: Item) {
    i.requiresPhoto
    && (i.result.None? || (i.result.value == ItemNa && (i.comment.None? || Blank(i.comment.value))))
  }

  predicate LacksPhoto(i: Item, photos: seq<Photo>) {
    i.requiresPhoto
    && (i.id.Some? ==> forall p :: p in photos ==> p.item != i.id)
    && (RequiredCapture(i.category).Some? ==>
          forall p :: p in photos ==> p.photoType != RequiredCapture(i.category).value)
  }

  /** The labels of the checks that lack something, in order. */
  function Gaps(items: seq<Item>, lacks: Item -> bool): seq<string> {
    if items == [] then []
    else (if lacks(items[0]) then [ItemLabel(items[0])] else []) + Gaps(items[1..], lacks)
  }

  function MissingResults(items: seq<Item>): seq<string> {
    Gaps(items, LacksResult)
  }

  function MissingPhotos(items: seq<Item>, photos: seq<Photo>): seq<string> {
    Gaps(items, (i: Item) => LacksPhoto(i, photos))
  }

  lemma {:induction false} GapsConcat(a: seq<Item>, b: seq<Item>, lacks: Item -> bool)
    ensures Gaps(a + b, lacks) == Gaps(a, lacks) + Gaps(b, lacks)
  {
    if a == [] {
      assert a + b == b;
    } else {
      assert (a + b)[0] == a[0] && (a + b)[1..] == a[1..] + b;
      GapsConcat(a[1..], b, lacks);
    }
  }

  lemma GapsNext(items: seq<Item>, n: nat, lacks: Item -> bool)
    requires n < |items|
    ensures Gaps(items[..n + 1], lacks)
            == Gaps(items[..n], lacks) + (if lacks(items[n]) then [ItemLabel(items[n])] else [])
  {
    assert items[..n + 1] == items[..n] + [items[n]];
    GapsConcat(items[..n], [items[n]], lacks);
  }

  lemma PhotoTest(i: Item, photos: seq<Photo>, linked: set<Id>, captures: set<PhotoType>)
    requires i.requiresPhoto
    requires linked == (set p | p in photos && p.item.Some? :: p.item.value)
    requires captures == (set p | p in photos :: p.photoType)
    ensures LacksPhoto(i, photos)
            <==> (i.id.Some? ==> i.id.value !in linked)
                 && (RequiredCapture(i.category).Some? ==> RequiredCapture(i.category).value !in captures)
  {
  }

  /** The loop of inspection_evidence_gaps: it collects the linked ids and capture types first. */
  method InspectionEvidenceGaps(items: seq<Item>, photos: seq<Photo>)
    returns (missingResults: seq<string>, missingPhotos: seq<string>)
    ensures missingResults == MissingResults(items)
    ensures missingPhotos == MissingPhotos(items, photos)
  {
    var linked := set p | p in photos && p.item.Some? :: p.item.value;
    var captures := set p | p in photos :: p.photoType;
    missingResults, missingPhotos := [], [];
    for n := 0 to |items|
      invariant missingResults == MissingResults(items[..n])
      invariant missingPhotos == MissingPhotos(items[..n], photos)
    {
      var item := items[n];
      GapsNext(items, n, LacksResult);
      GapsNext(items, n, (i: Item) => LacksPhoto(i, photos));
      if item.requiresPhoto {
        if item.result.None?
           || (item.result.value == ItemNa && (item.comment.None? || Blank(item.comment.value)))
        {
          missingResults := missingResults + [ItemLabel(item)];
        }
        var required := RequiredCapture(item.category);
        var hasLinkedPhoto := item.id.Some? && item.id.value in linked;
        var hasMatchingCapture := required.Some? && required.value in captures;
        PhotoTest(item, photos, linked, captures);
        if !hasLinkedPhoto && !hasMatchingCapture {
          missingPhotos := missingPhotos + [ItemLabel(item)];
        }
      }
    }
    assert items[..|items|] == items;
  }

  // ---------- Laws of the gate ----------

  lemma GapsOfConcat(a: seq<Item>, b: seq<Item>, photos: seq<Photo>)
    ensures MissingResults(a + b) == MissingResults(a) + MissingResults(b)
    ensures MissingPhotos(a + b, photos) == MissingPhotos(a, photos) + MissingPhotos(b, photos)
  {
    GapsConcat(a, b, LacksResult);
    GapsConcat(a, b, (i: Item) => LacksPhoto(i, photos));
  }

  lemma {:induction false} GapsAreLabels(items: seq<Item>, lacks: Item -> bool, text: string)
    ensures text in Gaps(items, lacks) <==> exists i :: i in items && lacks(i) && ItemLabel(i) == text
    ensures Gaps(items, lacks) == [] <==> forall i :: i in items ==> !lacks(i)
  {
    if items != [] {
      GapsAreLabels(items[1..], lacks, text);
      assert items == [items[0]] + items[1..];
    }
  }

  /** A result other than "not applicable", or one with a comment that says something. */
  predicate Answered(i: Item) {
    i.result.Some? && (i.result.value == ItemNa ==> i.comment.Some? && exists c :: c in i.comment.value && !IsSpace(c))
  }

  /** A photo linked to the check, or one of the kind its category asks for. */
  predicate Shown(i: Item, photos: seq<Photo>) {
    exists p :: p in photos && ((i.id.Some? && p.item == i.id) || RequiredCapture(i.category) == Some(p.photoType))
  }

  /** What the gate reports of a check: its name, or its category if it has none. */
  predicate Labelled(i: Item, text: string) {
    && (i.name != "" ==> text == i.name)
    && (i.name == "" && i.category != "" ==> text == i.category)
    && (i.name == "" && i.category == "" ==> text == "Checklist item")
  }

  lemma LacksAre(i: Item, photos: seq<Photo>)
    ensures LacksResult(i) <==> i.requiresPhoto && !Answered(i)
    ensures LacksPhoto(i, photos) <==> i.requiresPhoto && !Shown(i, photos)
    ensures Labelled(i, ItemLabel(i)) && forall text :: Labelled(i, text) ==> text == ItemLabel(i)
  {
  }

  /** What is reported missing are the labels of the required checks not answered, and not photographed. */
  lemma GapsAre(items: seq<Item>, photos: seq<Photo>, text: string)
    ensures text in MissingResults(items)
            <==> exists i :: i in items && i.requiresPhoto && !Answered(i) && Labelled(i, text)
    ensures text in MissingPhotos(items, photos)
            <==> exists i :: i in items && i.requiresPhoto && !Shown(i, photos) && Labelled(i, text)
  {
    GapsAreLabels(items, LacksResult, text);
    GapsAreLabels(items, (i: Item) => LacksPhoto(i, photos), text);
    forall i | i in items
      ensures (LacksResult(i) <==> i.requiresPhoto && !Answered(i))
              && (LacksPhoto(i, photos) <==> i.requiresPhoto && !Shown(i, photos))
              && (Labelled(i, text) <==> ItemLabel(i) == text)
    {
      LacksAre(i, photos);
    }
  }

  /** The gate opens exactly when every required check is answered and photographed. */
  lemma GateExact(items: seq<Item>, photos: seq<Photo>)
    ensures MissingResults(items) == [] <==> forall i :: i in items && i.requiresPhoto ==> Answered(i)
    ensures MissingPhotos(items, photos) == [] <==> forall i :: i in items && i.requiresPhoto ==> Shown(i, photos)
  {
    GapsAreLabels(items, LacksResult, "");
    GapsAreLabels(items, (i: Item) => LacksPhoto(i, photos), "");
    forall i | i in items
      ensures (LacksResult(i) <==> i.requiresPhoto && !Answered(i))
              && (LacksPhoto(i, photos) <==> i.requiresPhoto && !Shown(i, photos))
    {
      LacksAre(i, photos);
    }
  }

  predicate Subsequence(a: seq<string>, b: seq<string>) {
    a == [] || (b != [] && ((a[0] == b[0] && Subsequence(a[1..], b[1..])) || Subsequence(a, b[1..])))
  }

  lemma {:induction false} FewerLack(items: seq<Item>, lacks: Item -> bool, before: Item -> bool)
    requires forall i :: i in items && lacks(i) ==> before(i)
    ensures Subsequence(Gaps(items, lacks), Gaps(items, before))
  {
    if items != [] {
      FewerLack(items[1..], lacks, before);
      var a, b := Gaps(items[1..], lacks), Gaps(items[1..], before);
      if lacks(items[0]) {
        assert ([ItemLabel(items[0])] + a)[1..] == a && ([ItemLabel(items[0])] + b)[1..] == b;
      } else if before(items[0]) {
        assert ([ItemLabel(items[0])] + b)[1..] == b;
      } else {
        assert [] + a == a && [] + b == b;
      }
    }
  }

  /** More photos can only remove gaps: what is still missing was missing before, in the same order. */
  lemma PhotosOnlyCloseGaps(items: seq<Item>, photos: seq<Photo>, more: seq<Photo>)
    requires forall p :: p in photos ==> p in more
    ensures Subsequence(MissingPhotos(items, more), MissingPhotos(items, photos))
  {
    forall i | i in items && LacksPhoto(i, more) ensures LacksPhoto(i, photos) {
    }
    FewerLack(items, (i: Item) => LacksPhoto(i, more), (i: Item) => LacksPhoto(i, photos));
  }
}
