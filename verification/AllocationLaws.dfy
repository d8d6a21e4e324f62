/** Crop allocation computes a set union: the installation ends with the crops it held and the crops
    requested, each once, and what was there before is untouched. */
module AllocationLaws {
  import opened Domain
  import opened Transactions

  ghost predicate OnePerCrop(rows: seq<Batch>, i: Id) {
    forall a, b :: 0 <= a < b < |rows| && rows[a].installation == i && rows[b].installation == i ==>
                     rows[a].crop != rows[b].crop
  }

  function CropIds(crops: seq<Crop>): set<Id> {
    set c | c in crops :: c.id
  }

  lemma HeldAfter(rows: seq<Batch>, i: Id, b: Batch)
    requires b.installation == i
    ensures HeldCrops(rows + [b], i) == HeldCrops(rows, i) + {b.crop}
  {
    assert b in rows + [b];
    assert forall x :: x in rows + [b] <==> x in rows || x == b;
  }

  /** A new batch is planned, belongs to the installation, is of a requested crop not held before, and is
      expected to yield what a unit of that crop does. */
  predicate FreshBatch(b: Batch, i: Id, owner: Id, held: set<Id>, crops: seq<Crop>) {
    && b.installation == i && b.owner == owner && b.units == 1
    && b.status == BatchPlanned && b.plantedAt.None?
    && b.crop in CropIds(crops) && b.crop !in held
    && exists c :: c in crops && c.id == b.crop
                   && b.expectedYieldKg == (if c.yieldPerUnit.Some? then c.yieldPerUnit.value else 0.0)
  }

  lemma {:induction false} AllocationIsUnion(rows: seq<Batch>, i: Id, owner: Id, crops: seq<Crop>)
    ensures var after := AllocatedBatches(rows, i, owner, HeldCrops(rows, i), crops);
            && rows <= after
            && HeldCrops(after, i) == HeldCrops(rows, i) + CropIds(crops)
            && (forall b :: |rows| <= b < |after| ==> FreshBatch(after[b], i, owner, HeldCrops(rows, i), crops))
            && (OnePerCrop(rows, i) ==> OnePerCrop(after, i))
    decreases |crops|
  {
    if crops == [] {
    } else {
      var held := HeldCrops(rows, i);
      assert CropIds(crops) == {crops[0].id} + CropIds(crops[1..]) by {
        assert crops == [crops[0]] + crops[1..];
      }
      if crops[0].id in held {
        AllocationIsUnion(rows, i, owner, crops[1..]);
      } else {
        var more := rows + [NewBatch(i, owner, crops[0])];
        HeldAfter(rows, i, NewBatch(i, owner, crops[0]));
        assert OnePerCrop(rows, i) ==> OnePerCrop(more, i) by {
          NewCropIsNew(rows, i, owner, crops[0]);
        }
        AllocationIsUnion(more, i, owner, crops[1..]);
      }
    }
  }

  lemma NewCropIsNew(rows: seq<Batch>, i: Id, owner: Id, crop: Crop)
    requires crop.id !in HeldCrops(rows, i)
    ensures OnePerCrop(rows, i) ==> OnePerCrop(rows + [NewBatch(i, owner, crop)], i)
  {
    assert forall a :: 0 <= a < |rows| && rows[a].installation == i ==> rows[a] in rows && rows[a].crop in HeldCrops(rows, i);
  }

  /** The ids recorded as evidence are exactly the installation's batches. */
  lemma {:induction false} RecordedIds(rows: seq<Batch>, i: Id)
    ensures forall b: nat :: b in BatchIdsOf(rows, i) <==> b < |rows| && rows[b].installation == i
    ensures forall x, y :: 0 <= x < y < |BatchIdsOf(rows, i)| ==> BatchIdsOf(rows, i)[x] < BatchIdsOf(rows, i)[y]
  {
    if rows != [] {
      var n := |rows| - 1;
      RecordedIds(rows[..n], i);
      var before := BatchIdsOf(rows[..n], i);
      assert forall x :: 0 <= x < |before| ==> before[x] in before;
      assert forall b: nat :: b in BatchIdsOf(rows, i) <==> b in before || (b == n && rows[n].installation == i);
    }
  }
}
