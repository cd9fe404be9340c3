/** Model of src/base_manager.py: an in-memory store of records keyed by a
    counter-generated id. A record is a Python dict from field names to
    values; the clock (`get_timestamp`) is replaced by timestamp strings the
    caller passes in. */
module Base {
  import opened Wrappers

  /** The field values the managers store: strings, integers (ids) and
      numbers (prices). */
  datatype FieldValue = Text(s: string) | Int(i: int) | Real(r: real)

  type Record = map<string, FieldValue>

  /** An update dict: a key mapped to `None` leaves that field alone. */
  type Updates = map<string, Option<FieldValue>>

  /** A string argument of an update method as an update value: `None`
      stays `None`. */
  function TextUpdate(value: Option<string>): Option<FieldValue> {
    if value.None? then None else Some(Text(value.value))
  }

  /** A numeric argument of an update method as an update value. */
  function RealUpdate(value: Option<real>): Option<FieldValue> {
    if value.None? then None else Some(Real(value.value))
  }

  /** The fields every stored record carries. */
  const Metadata: set<string> := {"id", "created_at", "updated_at"}

  /** The default `entity_name`. */
  const DefaultEntity := "Record"

  /** `ValueError(f"{entity_name} not found")`. */
  function NotFound(entityName: string): Exception {
    ValueError(entityName + " not found")
  }

  /** `{'id': record_id, **data, 'created_at': ..., 'updated_at': ...}`: later
      entries win, so a caller's `id` replaces the generated one while the
      two timestamps always win over the caller's. */
  function NewRecord(recordId: int, data: Record, createdAt: string, updatedAt: string): (r: Record)
    ensures r.Keys == data.Keys + Metadata
    ensures r["created_at"] == Text(createdAt) && r["updated_at"] == Text(updatedAt)
    ensures r["id"] == if "id" in data then data["id"] else Int(recordId)
    ensures forall k :: k in data && k != "created_at" && k != "updated_at" ==> r[k] == data[k]
  {
    (map["id" := Int(recordId)] + data)["created_at" := Text(createdAt)]["updated_at" := Text(updatedAt)]
  }

  /** The keys of an update dict whose value is not `None`. */
  function Assigned(updates: Updates): set<string> {
    set k | k in updates && updates[k].Some?
  }

  /** The record after the update loop: each key with a value other than
      `None` is overwritten or added; every other field keeps its value. */
  function Overlay(record: Record, updates: Updates): (r: Record)
    ensures r.Keys == record.Keys + Assigned(updates)
    ensures forall k :: k in updates && updates[k].Some? ==> r[k] == updates[k].value
    ensures forall k :: k in record && k !in Assigned(updates) ==> r[k] == record[k]
  {
    map k | k in record.Keys + Assigned(updates) ::
      if k in updates && updates[k].Some? then updates[k].value else record[k]
  }

  /** An update dict of `None`s changes nothing. */
  lemma OverlayNothing(record: Record, updates: Updates)
    requires forall k :: k in updates ==> updates[k].None?
    ensures Overlay(record, updates) == record
  {
    assert Assigned(updates) == {};
  }

  /** Applying the same update dict twice is the same as applying it once. */
  lemma OverlayIdempotent(record: Record, updates: Updates)
    ensures Overlay(Overlay(record, updates), updates) == Overlay(record, updates)
  {
  }

  /** The record `_update_record` returns: the overlay, then a fresh
      `updated_at`, even when the update dict itself set one. */
  function Updated(record: Record, updates: Updates, now: string): (r: Record)
    ensures r.Keys == record.Keys + Assigned(updates) + {"updated_at"}
    ensures r["updated_at"] == Text(now)
    ensures forall k :: k in record && k !in Assigned(updates) && k != "updated_at" ==> r[k] == record[k]
    ensures forall k :: k in Assigned(updates) && k != "updated_at" ==> r[k] == updates[k].value
  {
    Overlay(record, updates)["updated_at" := Text(now)]
  }

  class BaseManager {
    var storage: map<int, Record>
    var idCounter: nat

    /** Every stored id was handed out by the counter, and every stored
        record carries its metadata fields. */
    ghost predicate Valid()
      reads this
    {
      forall id :: id in storage ==> 1 <= id <= idCounter && Metadata <= storage[id].Keys
    }

    /** `__init__`: an empty store and a counter at 0. */
    constructor ()
      ensures Valid()
      ensures storage == map[] && idCounter == 0
    {
      storage := map[];
      idCounter := 0;
    }

    /** `_generate_id`: the counter is incremented and its new value, which
        no stored record uses yet, is returned. */
    method GenerateId() returns (id: nat)
      requires Valid()
      modifies this
      ensures Valid()
      ensures idCounter == old(idCounter) + 1 && id == idCounter
      ensures id !in storage
      ensures storage == old(storage)
    {
      idCounter := idCounter + 1;
      id := idCounter;
    }

    /** `_create_record`: the record gets a fresh id and the two timestamps
        and is stored under that id; no other record changes. */
    method CreateRecord(data: Record, createdAt: string, updatedAt: string) returns (record: Record)
      requires Valid()
      modifies this
      ensures Valid()
      ensures idCounter == old(idCounter) + 1
      ensures idCounter !in old(storage)
      ensures record == NewRecord(idCounter, data, createdAt, updatedAt)
      ensures storage == old(storage)[idCounter := record]
    {
      var recordId := GenerateId();
      record := NewRecord(recordId, data, createdAt, updatedAt);
      storage := storage[recordId := record];
    }

    /** `_update_record`: an unknown id raises "<entity> not found" and
        changes nothing; otherwise the stored record is overwritten field by
        field with the values that are not `None`, its `updated_at` is
        reset, and it is returned. No other record changes. */
    method UpdateRecord(recordId: int, updates: Updates, entityName: string, now: string) returns (r: Result<Record>)
      requires Valid()
      modifies this
      ensures Valid()
      ensures idCounter == old(idCounter) && storage.Keys == old(storage).Keys
      ensures recordId !in old(storage) ==> r == Err(NotFound(entityName)) && storage == old(storage)
      ensures recordId in old(storage) ==>
                r == Ok(Updated(old(storage)[recordId], updates, now))
                && storage == old(storage)[recordId := r.value]
    {
      if recordId !in storage {
        return Err(NotFound(entityName));
      }
      var record := storage[recordId];
      ghost var original := record;
      var pending := updates.Keys;
      while pending != {}
        invariant pending <= updates.Keys
        invariant record.Keys == original.Keys + (Assigned(updates) - pending)
        invariant forall k :: k in record ==>
                    record[k] == if k in Assigned(updates) - pending then updates[k].value else original[k]
        decreases |pending|
      {
        var key :| key in pending;
        var value := updates[key];
        if value.Some? {
          record := record[key := value.value];
        }
        pending := pending - {key};
      }
      assert record == Overlay(original, updates);
      record := record["updated_at" := Text(now)];
      storage := storage[recordId := record];
      return Ok(record);
    }

    /** `_get_record`: the stored record, or "<entity> not found". */
    function GetRecord(recordId: int, entityName: string): (r: Result<Record>)
      reads this
      ensures r.Ok? <==> recordId in storage
      ensures r.Ok? ==> r.value == storage[recordId]
      ensures r.Err? ==> r.error == NotFound(entityName)
    {
      if recordId !in storage then Err(NotFound(entityName)) else Ok(storage[recordId])
    }
  }

  /** tests/test_base_manager.py: a fresh manager hands out 1, then 2. */
  method GenerateIdScenario() returns (id1: nat, id2: nat)
    ensures id1 == 1 && id2 == 2
  {
    var manager := new BaseManager();
    id1 := manager.GenerateId();
    id2 := manager.GenerateId();
  }

  /** tests/test_base_manager.py: create a record, read it back, and update
      it with one `None` value, which leaves that field as it was. */
  method UpdateScenario(createdAt: string, now: string)
    returns (created: Record, retrieved: Result<Record>, updated: Result<Record>)
    ensures created.Keys == {"name", "value"} + Metadata
    ensures created["id"] == Int(1)
    ensures created["name"] == Text("Test") && created["value"] == Int(42)
    ensures retrieved == Ok(created)
    ensures updated.Ok? && updated.value.Keys == created.Keys
    ensures updated.value["name"] == Text("Updated") && updated.value["value"] == Int(42)
    ensures updated.value["created_at"] == Text(createdAt) && updated.value["updated_at"] == Text(now)
  {
    var manager := new BaseManager();
    var data: Record := map["name" := Text("Test"), "value" := Int(42)];
    created := manager.CreateRecord(data, createdAt, createdAt);
    assert manager.idCounter == 1;
    retrieved := manager.GetRecord(1, DefaultEntity);
    var updates: Updates := map["name" := Some(Text("Updated")), "value" := None];
    assert Assigned(updates) == {"name"};
    updated := manager.UpdateRecord(1, updates, DefaultEntity, now);
  }

  /** tests/test_base_manager.py: updating or reading an id that was never
      handed out names the entity in the error. */
  method NotFoundScenario(now: string)
    returns (missing: Result<Record>, missingCustom: Result<Record>, missingGet: Result<Record>)
    ensures missing == Err(ValueError("Record not found"))
    ensures missingCustom == Err(ValueError("CustomEntity not found"))
    ensures missingGet == Err(ValueError("Widget not found"))
  {
    var manager := new BaseManager();
    missing := manager.UpdateRecord(999, map["name" := Some(Text("Test"))], DefaultEntity, now);
    assert DefaultEntity + " not found" == "Record not found";
    missingCustom := manager.UpdateRecord(999, map["name" := Some(Text("Test"))], "CustomEntity", now);
    assert "CustomEntity" + " not found" == "CustomEntity not found";
    missingGet := manager.GetRecord(999, "Widget");
    assert "Widget" + " not found" == "Widget not found";
  }
}
