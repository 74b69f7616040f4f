/**
  The two tables of the backend (backend/core/models.py): upload batches, and
  equipment rows each tied to one batch by a foreign key whose deletion
  cascades. Rows are kept by primary key; ids come from per-table counters,
  as an auto-increment column hands them out.
 */
module Store {
  import opened Wrappers

  /** The `FileField`: the name under which the storage saved the upload. */
  datatype StoredFile = StoredFile(name: string)

  /** A point in time, carried with the text `str()` renders it as. */
  datatype Timestamp = Timestamp(text: string)

  datatype UploadBatch = UploadBatch(file: StoredFile, uploadedAt: Timestamp)

  /**
    One equipment row. The three readings are `FloatField`s in the source;
    here they are opaque integers.
   */
  datatype ChemicalEquipment = ChemicalEquipment(
    batch: nat,
    equipmentName: string,
    equipmentType: string,
    flowrate: int,
    pressure: int,
    temperature: int)

  const MaxNameLength := 255
  const MaxTypeLength := 100

  /** The `max_length` bounds of the two `CharField`s. */
  predicate WithinBounds(e: ChemicalEquipment) {
    |e.equipmentName| <= MaxNameLength && |e.equipmentType| <= MaxTypeLength
  }

  /** `str(batch)`: "Upload at " and then the timestamp. */
  function BatchText(b: UploadBatch): (text: string)
    ensures |text| == 10 + |b.uploadedAt.text|
    ensures text[..10] == "Upload at " && text[10..] == b.uploadedAt.text
  {
    "Upload at " + b.uploadedAt.text
  }

  /** `str(equipment)`: the name, " (", the type and ")". */
  function EquipmentText(e: ChemicalEquipment): (text: string)
    ensures var n := |e.equipmentName|;
            && |text| == n + |e.equipmentType| + 3
            && text[..n] == e.equipmentName
            && text[n..n + 2] == " ("
            && text[n + 2..|text| - 1] == e.equipmentType
            && text[|text| - 1] == ')'
  {
    var text := e.equipmentName + " (" + e.equipmentType + ")";
    assert text == e.equipmentName + (" (" + e.equipmentType + ")");
    assert text[|e.equipmentName|..] == " (" + e.equipmentType + ")";
    text
  }

  /** Two batches print alike only when their timestamps do. */
  lemma BatchTextInjective(a: UploadBatch, b: UploadBatch)
    ensures BatchText(a) == BatchText(b) ==> a.uploadedAt == b.uploadedAt
  {
    assert BatchText(a)[10..] == a.uploadedAt.text;
    assert BatchText(b)[10..] == b.uploadedAt.text;
  }

  /**
    When names contain no '(' the text determines name and type: the first
    '(' sits right after the name.
   */
  lemma EquipmentTextInjective(a: ChemicalEquipment, b: ChemicalEquipment)
    requires '(' !in a.equipmentName && '(' !in b.equipmentName
    ensures EquipmentText(a) == EquipmentText(b) ==>
              a.equipmentName == b.equipmentName && a.equipmentType == b.equipmentType
  {
    var s, t := EquipmentText(a), EquipmentText(b);
    if s == t {
      FirstParenAt(a);
      FirstParenAt(b);
      var n, m := |a.equipmentName|, |b.equipmentName|;
      assert n == m;
    }
  }

  /** Before position |name| + 1 there is no '(' in the text, and at it there is one. */
  lemma FirstParenAt(e: ChemicalEquipment)
    requires '(' !in e.equipmentName
    ensures var s := EquipmentText(e); var n := |e.equipmentName|;
            s[n + 1] == '(' && forall i :: 0 <= i <= n ==> s[i] != '('
  {
    var s := EquipmentText(e);
    var n := |e.equipmentName|;
    forall i | 0 <= i < n ensures s[i] != '(' {
      assert s[i] == s[..n][i];
    }
    assert s[n] == s[n..n + 2][0];
    assert s[n + 1] == s[n..n + 2][1];
  }

  /** Without that restriction two different rows can print alike. */
  lemma EquipmentTextAmbiguous()
    ensures EquipmentText(ChemicalEquipment(1, "a (b", "c", 0, 0, 0))
         == EquipmentText(ChemicalEquipment(1, "a", "b (c", 0, 0, 0))
  {
  }

  /** Why the database refuses a row. */
  datatype StoreError =
    | NameTooLong   // equipment_name over 255 characters
    | TypeTooLong   // equipment_type over 100 characters
    | MissingBatch  // the foreign key names no batch

  /** Rows present before and after an operation are unchanged by it. */
  ghost predicate Preserved<K, V>(before: map<K, V>, after: map<K, V>) {
    forall k :: k in before && k in after ==> after[k] == before[k]
  }

  class BatchStore {
    var batches: map<nat, UploadBatch>
    var equipment: map<nat, ChemicalEquipment>
    var nextBatchId: nat
    var nextEquipmentId: nat

    /**
      Referential integrity (every row's batch exists), the length bounds,
      and ids below the counters. The counters only grow, and a new row takes
      the counter's value, so a new id is never one handed out before, even
      one whose row has since been deleted.
     */
    ghost predicate Valid()
      reads this
    {
      && (forall id :: id in equipment ==> equipment[id].batch in batches)
      && (forall id :: id in equipment ==> WithinBounds(equipment[id]))
      && (forall id :: id in batches ==> id < nextBatchId)
      && (forall id :: id in equipment ==> id < nextEquipmentId)
    }

    constructor ()
      ensures Valid()
      ensures batches == map[] && equipment == map[]
      ensures nextBatchId == 1 && nextEquipmentId == 1
    {
      batches := map[];
      equipment := map[];
      nextBatchId := 1;
      nextEquipmentId := 1;
    }

    /** `batch.equipments`: the rows whose foreign key is `batchId`. */
    function Equipments(batchId: nat): (rows: map<nat, ChemicalEquipment>)
      reads this
      ensures forall id :: id in rows <==> id in equipment && equipment[id].batch == batchId
      ensures forall id :: id in rows ==> rows[id] == equipment[id]
    {
      map id | id in equipment && equipment[id].batch == batchId :: equipment[id]
    }

    /** `UploadBatch.objects.create(file=file)`; `now` is the clock reading `auto_now_add` takes. */
    method CreateBatch(file: StoredFile, now: Timestamp) returns (id: nat)
      requires Valid()
      modifies this
      ensures Valid()
      ensures id !in old(batches)
      ensures id == old(nextBatchId) && nextBatchId == old(nextBatchId) + 1
      ensures nextEquipmentId == old(nextEquipmentId)
      ensures batches == old(batches)[id := UploadBatch(file, now)]
      ensures equipment == old(equipment)
      ensures Preserved(old(batches), batches)
      ensures Equipments(id) == map[]
    {
      id := nextBatchId;
      batches := batches[id := UploadBatch(file, now)];
      nextBatchId := nextBatchId + 1;
    }

    /**
      `ChemicalEquipment.objects.create(batch=..., ...)`. A value over its
      column's length is refused when the row is written; a dangling foreign
      key when the transaction commits, so the length errors come first.
     */
    method AddEquipment(batchId: nat, name: string, equipmentType: string,
                        flowrate: int, pressure: int, temperature: int)
      returns (r: Result<nat, StoreError>)
      requires Valid()
      modifies this
      ensures Valid()
      ensures batches == old(batches) && nextBatchId == old(nextBatchId)
      ensures r == Failure(NameTooLong) <==> |name| > MaxNameLength
      ensures r == Failure(TypeTooLong) <==> |name| <= MaxNameLength && |equipmentType| > MaxTypeLength
      ensures r == Failure(MissingBatch) <==>
                |name| <= MaxNameLength && |equipmentType| <= MaxTypeLength && batchId !in batches
      ensures r.Failure? ==> equipment == old(equipment) && nextEquipmentId == old(nextEquipmentId)
      ensures r.Success? ==>
                && r.value !in old(equipment)
                && r.value == old(nextEquipmentId) && nextEquipmentId == old(nextEquipmentId) + 1
                && equipment == old(equipment)[r.value := ChemicalEquipment(batchId, name, equipmentType,
                                                                            flowrate, pressure, temperature)]
    {
      if |name| > MaxNameLength {
        return Failure(NameTooLong);
      }
      if |equipmentType| > MaxTypeLength {
        return Failure(TypeTooLong);
      }
      if batchId !in batches {
        return Failure(MissingBatch);
      }
      var id := nextEquipmentId;
      equipment := equipment[id := ChemicalEquipment(batchId, name, equipmentType, flowrate, pressure, temperature)];
      nextEquipmentId := nextEquipmentId + 1;
      r := Success(id);
    }

    /** `batch.delete()`: the batch goes, and with it (`on_delete=CASCADE`) exactly its rows. */
    method DeleteBatch(batchId: nat)
      requires Valid()
      modifies this
      ensures Valid()
      ensures batches == old(batches) - {batchId}
      ensures nextBatchId == old(nextBatchId) && nextEquipmentId == old(nextEquipmentId)
      ensures equipment == map id | id in old(equipment) && old(equipment)[id].batch != batchId
                                  :: old(equipment)[id]
      ensures Preserved(old(batches), batches)
      ensures Equipments(batchId) == map[]
      ensures forall b :: b != batchId ==> Equipments(b) == old(Equipments(b))
    {
      equipment := map id | id in equipment && equipment[id].batch != batchId :: equipment[id];
      batches := batches - {batchId};
    }
  }

  /**
    In a valid store the rows fall into the batches' `equipments`: each row
    is in its own batch's, in no other one's, and a missing batch has none.
   */
  lemma EquipmentsPartition(s: BatchStore, b1: nat, b2: nat)
    requires s.Valid()
    ensures forall id :: id in s.equipment ==> id in s.Equipments(s.equipment[id].batch)
    ensures b1 != b2 ==> s.Equipments(b1).Keys !! s.Equipments(b2).Keys
    ensures b1 !in s.batches ==> s.Equipments(b1) == map[]
  {
    if b1 !in s.batches {
      assert forall id :: id in s.equipment ==> s.equipment[id].batch != b1;
    }
  }
}
