/**
 * The object dictionary of a node (node/object_dictionary.rs): a fixed array
 * of 256 object slots whose first `number_of_objects` slots hold objects in
 * strictly ascending address order. A consuming builder inserts objects by
 * shifting the tail of the array; the built dictionary finds them by binary
 * search and forwards SDO reads and writes to them under their access rights.
 */
module NodeDictionary {
  import opened Bytes
  import opened Wrappers
  import opened Errors
  import opened NodeObject

  /** `MAX_NUMBER_OF_OBJECTS`: the number of slots. */
  const MaxNumberOfObjects := 256

  /** Strictly ascending addresses, the order both the builder and the search rely on. */
  predicate Ordered(s: seq<CanOpenObject>)
  {
    forall i, j :: 0 <= i < j < |s| ==> s[i].mappedIndex < s[j].mappedIndex
  }

  predicate Registered(s: seq<CanOpenObject>, key: u32)
  {
    exists i :: 0 <= i < |s| && s[i].mappedIndex == key
  }

  /** Linear search: the first slot holding `key`, the reference the binary search is proved against. */
  function Find(s: seq<CanOpenObject>, key: u32): (r: Option<nat>)
    ensures r.Some? <==> Registered(s, key)
    ensures r.Some? ==> r.value < |s| && s[r.value].mappedIndex == key
  {
    if s == [] then None
    else if s[0].mappedIndex == key then Some(0)
    else match Find(s[1..], key)
      case None => None
      case Some(i) => Some(i + 1)
  }

  /** In an ordered table an address occupies one slot, so every slot holding it is the one Find returns. */
  lemma FindOrdered(s: seq<CanOpenObject>, key: u32, i: nat)
    requires Ordered(s) && i < |s| && s[i].mappedIndex == key
    ensures Find(s, key) == Some(i)
  {
  }

  /** Where `custom_entry` inserts: after every object with a smaller address. */
  function InsertPosition(s: seq<CanOpenObject>, key: u32): (p: nat)
    ensures p <= |s|
    ensures forall j :: 0 <= j < p ==> s[j].mappedIndex < key
    ensures p < |s| ==> s[p].mappedIndex >= key
  {
    if s == [] || s[0].mappedIndex >= key then 0 else 1 + InsertPosition(s[1..], key)
  }

  /** The table after `custom_entry(o)`: `o` at its position, the tail moved one slot up. */
  function Inserted(s: seq<CanOpenObject>, o: CanOpenObject): seq<CanOpenObject>
  {
    var p := InsertPosition(s, o.mappedIndex);
    s[..p] + [o] + s[p..]
  }

  /** `custom_entry` panics on a full table and on an address that is already registered. */
  predicate EntryPanics(s: seq<CanOpenObject>, key: u32)
  {
    |s| >= MaxNumberOfObjects || Registered(s, key)
  }

  /** Slot i of the table after an insertion. */
  lemma InsertedAt(s: seq<CanOpenObject>, o: CanOpenObject, i: nat)
    requires i <= |s|
    ensures var p := InsertPosition(s, o.mappedIndex);
      |Inserted(s, o)| == |s| + 1
      && Inserted(s, o)[i] == if i < p then s[i] else if i == p then o else s[i - 1]
  {
  }

  /** Inserting a new address into an ordered table keeps it ordered. */
  lemma {:induction false} InsertedOrdered(s: seq<CanOpenObject>, o: CanOpenObject)
    requires Ordered(s) && !Registered(s, o.mappedIndex)
    ensures Ordered(Inserted(s, o))
    ensures |Inserted(s, o)| == |s| + 1
  {
    var p := InsertPosition(s, o.mappedIndex);
    var r := Inserted(s, o);
    assert p < |s| ==> s[p].mappedIndex != o.mappedIndex;
    forall i, j | 0 <= i < j < |r|
      ensures r[i].mappedIndex < r[j].mappedIndex
    {
      InsertedAt(s, o, i);
      InsertedAt(s, o, j);
    }
  }

  /** An insertion loses no object and adds exactly the new one. */
  lemma InsertedContents(s: seq<CanOpenObject>, o: CanOpenObject)
    ensures multiset(Inserted(s, o)) == multiset(s) + multiset{o}
  {
    var p := InsertPosition(s, o.mappedIndex);
    assert s[..p] + s[p..] == s;
  }

  /**
   * A chain of `custom_entry` calls: the final table, or None when one of
   * the calls panics.
   */
  function InsertAll(s: seq<CanOpenObject>, objs: seq<CanOpenObject>): Option<seq<CanOpenObject>>
    decreases |objs|
  {
    if objs == [] then Some(s)
    else if EntryPanics(s, objs[0].mappedIndex) then None
    else InsertAll(Inserted(s, objs[0]), objs[1..])
  }

  /**
   * A chain of insertions that does not panic leaves an ordered table with one
   * more object per call, and never more objects than there are slots.
   */
  lemma {:induction false} InsertAllOrdered(s: seq<CanOpenObject>, objs: seq<CanOpenObject>)
    requires Ordered(s) && InsertAll(s, objs).Some?
    ensures Ordered(InsertAll(s, objs).value)
    ensures |InsertAll(s, objs).value| == |s| + |objs|
    ensures objs != [] ==> |InsertAll(s, objs).value| <= MaxNumberOfObjects
    decreases |objs|
  {
    if objs != [] {
      InsertedOrdered(s, objs[0]);
      InsertAllOrdered(Inserted(s, objs[0]), objs[1..]);
    }
  }

  /** The three objects `new` registers: device type, error register and vendor id. */
  function SeedEntries(deviceType: u32, vendorId: u32): (r: seq<CanOpenObject>)
    ensures |r| == 3 && Ordered(r)
    ensures r[0].mappedIndex == MapIndex(0x1000, 1) && r[1].mappedIndex == MapIndex(0x1001, 1)
    ensures r[2].mappedIndex == MapIndex(0x1018, 1)
    ensures GetValue(r[0]) == Ok(U32(deviceType)) && GetValue(r[1]) == Ok(U8(0))
    ensures GetValue(r[2]) == Ok(U32(vendorId))
  {
    MapIndexOrder(0x1000, 1, 0x1001, 1);
    MapIndexOrder(0x1001, 1, 0x1018, 1);
    [ConstObject(0x1000, 0x01, U32(deviceType)),
     ConstObject(0x1001, 0x01, U8(0)),
     ConstObject(0x1018, 0x01, U32(vendorId))]
  }

  /** Registering the device type a second time panics. */
  lemma DuplicateEntryPanics()
    ensures InsertAll(SeedEntries(123, 456), [ConstObject(0x1000, 1, U8(0))]) == None
  {
    assert SeedEntries(123, 456)[0].mappedIndex == MapIndex(0x1000, 1);
  }

  /** The objects (i, 13) for i below n. */
  function Subindex13Objects(n: nat): (r: seq<CanOpenObject>)
    requires n <= 0x1_0000
    ensures |r| == n
    ensures forall i :: 0 <= i < n ==> r[i].mappedIndex == MapIndex(i, 13)
  {
    seq(n, i requires 0 <= i < n => ConstObject(i, 13, U8(0)))
  }

  /** Adding 256 further objects to a new builder panics: 259 objects do not fit in 256 slots. */
  lemma FullDictionaryPanics(deviceType: u32, vendorId: u32)
    ensures InsertAll(SeedEntries(deviceType, vendorId), Subindex13Objects(MaxNumberOfObjects)) == None
  {
    var s := SeedEntries(deviceType, vendorId);
    var objs := Subindex13Objects(MaxNumberOfObjects);
    if InsertAll(s, objs).Some? {
      InsertAllOrdered(s, objs);
      assert false;
    }
  }

  /** After an insertion the registered addresses are the old ones and the new one. */
  lemma InsertedRegistered(s: seq<CanOpenObject>, o: CanOpenObject, key: u32)
    ensures Registered(Inserted(s, o), key) <==> Registered(s, key) || key == o.mappedIndex
  {
    var p := InsertPosition(s, o.mappedIndex);
    var r := Inserted(s, o);
    assert r[p] == o;
    if Registered(s, key) {
      var i :| 0 <= i < |s| && s[i].mappedIndex == key;
      if i < p {
        assert r[i] == s[i];
      } else {
        assert r[i + 1] == s[i];
      }
    }
    if Registered(r, key) {
      var i :| 0 <= i < |r| && r[i].mappedIndex == key;
      if i < p {
        assert r[i] == s[i];
      } else if i > p {
        assert r[i] == s[i - 1];
      }
    }
  }

  /** The builder test's insertions at the end, just before it and in the middle keep the table ordered. */
  lemma OrderingExample()
    ensures var r := InsertAll(SeedEntries(123, 456),
                               [ConstObject(0xFFFF, 0xFF, U8(0)), ConstObject(0xFFFE, 0xFF, U8(0)), ConstObject(0x1200, 0xFF, U8(0))]);
      r.Some? && Ordered(r.value) && |r.value| == 6
  {
    var s0 := SeedEntries(123, 456);
    var a := ConstObject(0xFFFF, 0xFF, U8(0));
    var b := ConstObject(0xFFFE, 0xFF, U8(0));
    var c := ConstObject(0x1200, 0xFF, U8(0));
    var s1 := Inserted(s0, a);
    var s2 := Inserted(s1, b);
    InsertedRegistered(s0, a, b.mappedIndex);
    InsertedRegistered(s0, a, c.mappedIndex);
    InsertedRegistered(s1, b, c.mappedIndex);
    assert !Registered(s0, a.mappedIndex) && !Registered(s0, b.mappedIndex) && !Registered(s0, c.mappedIndex) by {
      assert s0[0].mappedIndex == MapIndex(0x1000, 1);
      assert s0[1].mappedIndex == MapIndex(0x1001, 1);
      assert s0[2].mappedIndex == MapIndex(0x1018, 1);
    }
    InsertedAt(s0, a, 0);
    InsertedAt(s1, b, 0);
    assert !EntryPanics(s0, a.mappedIndex) && !EntryPanics(s1, b.mappedIndex) && !EntryPanics(s2, c.mappedIndex);
    assert [a, b, c][1..] == [b, c] && [b, c][1..] == [c];
    assert InsertAll(s2, [c]) == Some(Inserted(s2, c));
    InsertAllOrdered(s0, [a, b, c]);
  }

  /** `ObjectDictionaryBuilder`: the table under construction. */
  class ObjectDictionaryBuilder {
    var numberOfObjects: nat
    const objects: array<CanOpenObject>

    predicate Valid()
      reads this, objects
    {
      objects.Length == MaxNumberOfObjects && numberOfObjects <= MaxNumberOfObjects
      && Ordered(objects[..numberOfObjects])
    }

    /** The registered objects, in slot order. */
    function Entries(): seq<CanOpenObject>
      reads this, objects
      requires numberOfObjects <= objects.Length
    {
      objects[..numberOfObjects]
    }

    /** `new`: the seed objects in slots 0-2, the default object in every other slot. */
    constructor (deviceType: u32, vendorId: u32)
      ensures Valid() && fresh(objects)
      ensures Entries() == SeedEntries(deviceType, vendorId)
      ensures forall j :: 3 <= j < objects.Length ==> objects[j] == DefaultObject()
    {
      var a := new CanOpenObject[MaxNumberOfObjects](_ => DefaultObject());
      var seed := SeedEntries(deviceType, vendorId);
      a[0] := seed[0];
      a[1] := seed[1];
      a[2] := seed[2];
      objects := a;
      numberOfObjects := 3;
      new;
      assert objects[..3] == seed;
    }

    /**
     * `custom_entry`: inserts `o` before the first objects with a greater
     * address, shifting the tail one slot up. It panics when the table is full
     * or the address is already registered.
     */
    method CustomEntry(o: CanOpenObject)
      requires Valid() && !EntryPanics(Entries(), o.mappedIndex)
      modifies this, objects
      ensures Valid() && numberOfObjects == old(numberOfObjects) + 1
      ensures Entries() == Inserted(old(Entries()), o)
      ensures objects[numberOfObjects..] == old(objects[..])[numberOfObjects..]
    {
      ghost var s := objects[..];
      ghost var entries := Entries();
      var n := numberOfObjects;
      var arrayIndex := 0;
      while arrayIndex < n
        invariant 0 <= arrayIndex <= n
        invariant forall j :: 0 <= j < arrayIndex ==> entries[j].mappedIndex < o.mappedIndex
      {
        assert objects[arrayIndex] == entries[arrayIndex];
        if objects[arrayIndex].mappedIndex > o.mappedIndex {
          break;
        }
        arrayIndex := arrayIndex + 1;
      }
      ghost var p := InsertPosition(entries, o.mappedIndex);
      assert arrayIndex == p;
      ShiftUp(arrayIndex, n);
      numberOfObjects := n + 1;
      objects[arrayIndex] := o;
      InsertedOrdered(entries, o);
      forall j | 0 <= j <= n
        ensures Entries()[j] == Inserted(entries, o)[j]
      {
        InsertedAt(entries, o, j);
      }
      assert |Entries()| == |Inserted(entries, o)|;
      assert Entries() == Inserted(entries, o);
      assert Ordered(Entries());
      assert objects[n + 1..] == s[n + 1..];
    }

    /** The reverse `for` loop of `custom_entry`: slots from..n-1 move one slot up, slot `from` keeps its object. */
    method ShiftUp(from: nat, n: nat)
      requires from <= n < objects.Length
      modifies objects
      ensures forall j :: 0 <= j < objects.Length && (j <= from || j > n) ==> objects[j] == old(objects[j])
      ensures forall j :: from < j <= n ==> objects[j] == old(objects[j - 1])
    {
      ghost var s := objects[..];
      var i := n;
      while i > from
        invariant from <= i <= n
        invariant forall j :: 0 <= j < objects.Length && (j <= i || j > n) ==> objects[j] == s[j]
        invariant forall j :: i < j <= n ==> objects[j] == s[j - 1]
      {
        objects[i] := objects[i - 1];
        i := i - 1;
      }
    }

    /** `device_name`: a constant string at 0x1008/1. */
    method DeviceName(name: string)
      requires Valid() && !EntryPanics(Entries(), MapIndex(0x1008, 0x01))
      modifies this, objects
      ensures Valid() && Entries() == Inserted(old(Entries()), ConstObject(0x1008, 0x01, S(name)))
    {
      CustomEntry(ConstObject(0x1008, 0x01, S(name)));
    }

    /** `hardware_version`: a constant string at 0x1009/1. */
    method HardwareVersion(version: string)
      requires Valid() && !EntryPanics(Entries(), MapIndex(0x1009, 0x01))
      modifies this, objects
      ensures Valid() && Entries() == Inserted(old(Entries()), ConstObject(0x1009, 0x01, S(version)))
    {
      CustomEntry(ConstObject(0x1009, 0x01, S(version)));
    }

    /** `software_version`: a constant string at 0x100A/1. */
    method SoftwareVersion(version: string)
      requires Valid() && !EntryPanics(Entries(), MapIndex(0x100A, 0x01))
      modifies this, objects
      ensures Valid() && Entries() == Inserted(old(Entries()), ConstObject(0x100A, 0x01, S(version)))
    {
      CustomEntry(ConstObject(0x100A, 0x01, S(version)));
    }

    /** `product_identifier`: a constant u32 at 0x1018/2. */
    method ProductIdentifier(id: u32)
      requires Valid() && !EntryPanics(Entries(), MapIndex(0x1018, 0x02))
      modifies this, objects
      ensures Valid() && Entries() == Inserted(old(Entries()), ConstObject(0x1018, 0x02, U32(id)))
    {
      CustomEntry(ConstObject(0x1018, 0x02, U32(id)));
    }

    /** `product_revision`: a constant u32 at 0x1018/3. */
    method ProductRevision(revision: u32)
      requires Valid() && !EntryPanics(Entries(), MapIndex(0x1018, 0x03))
      modifies this, objects
      ensures Valid() && Entries() == Inserted(old(Entries()), ConstObject(0x1018, 0x03, U32(revision)))
    {
      CustomEntry(ConstObject(0x1018, 0x03, U32(revision)));
    }

    /** `serial_number`: a constant u32 at 0x1018/4. */
    method SerialNumber(serial: u32)
      requires Valid() && !EntryPanics(Entries(), MapIndex(0x1018, 0x04))
      modifies this, objects
      ensures Valid() && Entries() == Inserted(old(Entries()), ConstObject(0x1018, 0x04, U32(serial)))
    {
      CustomEntry(ConstObject(0x1018, 0x04, U32(serial)));
    }

    /** `build`: a dictionary over the builder's table for node `nodeId`. */
    method Build(nodeId: u8) returns (od: ObjectDictionary)
      requires Valid()
      ensures fresh(od) && od.Valid()
      ensures od.objects == objects && od.numberOfObjects == numberOfObjects && od.nodeId == nodeId
    {
      od := new ObjectDictionary(numberOfObjects, objects, nodeId);
    }
  }

  /** What `set_object_value` makes of `set_value`'s result for objects `o`. */
  function WriteOutcome(o: CanOpenObject, written: Result<bool, CanOpenError>): (r: Outcome<()>)
    ensures r.Panicked? <==> written == Ok(true) && o.value.InCell()
    ensures r == Done(Ok(())) <==> written.Ok? && !(written.value && o.value.InCell())
    ensures written.Err? ==> r == Done(Err(written.error))
  {
    match written
    case Err(e) => Done(Err(e))
    case Ok(changed) =>
      // a changed variable or persistent value reaches `update_pdo`, which is `todo!()`
      if changed && o.value.InCell() then Panicked else Done(Ok(()))
  }

  /** `ObjectDictionary`: the built, ordered table of a node. */
  class ObjectDictionary {
    const numberOfObjects: nat
    const objects: array<CanOpenObject>
    const nodeId: u8

    constructor (n: nat, obj: array<CanOpenObject>, id: u8)
      ensures numberOfObjects == n && objects == obj && nodeId == id
    {
      numberOfObjects := n;
      objects := obj;
      nodeId := id;
    }

    predicate Valid()
      reads objects
    {
      objects.Length == MaxNumberOfObjects && numberOfObjects <= MaxNumberOfObjects
      && Ordered(objects[..numberOfObjects])
    }

    function Entries(): seq<CanOpenObject>
      reads objects
      requires numberOfObjects <= objects.Length
    {
      objects[..numberOfObjects]
    }

    /** The value cells of the registered objects: all that reads and writes may touch. */
    function Cells(): set<object>
      reads objects
      requires numberOfObjects <= objects.Length
    {
      set j | 0 <= j < numberOfObjects && objects[j].value.InCell() :: objects[j].value.cell
    }

    /**
     * `array_index`: binary search over the registered slots. It finds exactly
     * the slot linear search finds, and reports a missing address.
     */
    method ArrayIndex(index: u16, subindex: u8) returns (r: Result<nat, CanOpenError>)
      requires Valid()
      ensures r == match Find(Entries(), MapIndex(index, subindex))
                   case Some(i) => Ok(i)
                   case None => Err(ObjectDoesNotExist(index, subindex))
    {
      var mappedIndex := MapIndex(index, subindex);
      ghost var s := Entries();
      var min := 0;
      var max := numberOfObjects;
      if max == min {
        return Err(ObjectDoesNotExist(index, subindex));
      }
      while true
        invariant 0 <= min < max <= numberOfObjects
        invariant forall j :: 0 <= j < numberOfObjects && s[j].mappedIndex == mappedIndex ==> min <= j < max
        decreases max - min
      {
        var center := (max - min) / 2 + min;
        assert objects[center] == s[center];
        if objects[center].mappedIndex == mappedIndex {
          FindOrdered(s, mappedIndex, center);
          return Ok(center);
        }
        if max == min + 1 {
          return Err(ObjectDoesNotExist(index, subindex));
        }
        if objects[center].mappedIndex > mappedIndex {
          max := center;
        }
        if objects[center].mappedIndex < mappedIndex {
          min := center;
        }
      }
    }

    /** `initialize_from_persistent_storage`: `todo!()`, every call panics. */
    method InitializeFromPersistentStorage() returns (r: Outcome<()>)
      ensures r.Panicked?
    {
      r := Panicked;
    }

    /** `persist_value`: `todo!()`, every call panics. */
    method PersistValue(index: u16, subindex: u8) returns (r: Outcome<()>)
      ensures r.Panicked?
    {
      r := Panicked;
    }

    /** `update_pdo`: `todo!()`, every call panics. */
    method UpdatePdo(index: u16, subindex: u8) returns (r: Outcome<()>)
      ensures r.Panicked?
    {
      r := Panicked;
    }

    /**
     * `set_object_value`: writes through the object's storage class. Errors of
     * the lookup and of `set_value` propagate; a change of a variable or
     * persistent value reaches `update_pdo` and panics there, after the value
     * was stored (so `persist_value` is never reached).
     */
    method SetObjectValue(index: u16, subindex: u8, value: ValueVariant) returns (r: Outcome<()>)
      requires Valid()
      modifies Cells()
      ensures match Find(Entries(), MapIndex(index, subindex))
        case None => r == Done(Err(ObjectDoesNotExist(index, subindex))) && unchanged(Cells())
        case Some(i) =>
          && r == WriteOutcome(objects[i], old(SetValueResult(objects[i], value)))
          && unchanged(Cells() - Footprint(objects[i]))
          && (objects[i].value.InCell() ==>
                objects[i].value.cell.value
                == if old(SetValueResult(objects[i], value)) == Ok(true) then value else old(objects[i].value.cell.value))
    {
      var found := ArrayIndex(index, subindex);
      if found.Err? {
        return Done(Err(found.error));
      }
      var o := objects[found.value];
      var written := SetValue(o, value);
      if written.Err? {
        return Done(Err(written.error));
      }
      match o.value
      case NoStorage(_) =>
        r := Done(Ok(()));
      case Const(_) =>
        r := Done(Ok(()));
      case Variable(_) =>
        if written.value {
          r := UpdatePdo(index, subindex);
        } else {
          r := Done(Ok(()));
        }
      case Persistent(_) =>
        if written.value {
          r := UpdatePdo(index, subindex);
        } else {
          r := Done(Ok(()));
        }
    }

    /**
     * `download_expedited`: an SDO write. Read-only objects refuse it with
     * `WritingForbidden`; other objects are written as by `set_object_value`.
     */
    method DownloadExpedited(index: u16, subindex: u8, value: ValueVariant) returns (r: Outcome<()>)
      requires Valid()
      modifies Cells()
      ensures match Find(Entries(), MapIndex(index, subindex))
        case None => r == Done(Err(ObjectDoesNotExist(index, subindex))) && unchanged(Cells())
        case Some(i) =>
          if objects[i].privilege == ReadOnly then r == Done(Err(WritingForbidden)) && unchanged(Cells())
          else
            && r == WriteOutcome(objects[i], old(SetValueResult(objects[i], value)))
            && unchanged(Cells() - Footprint(objects[i]))
            && (objects[i].value.InCell() ==>
                  objects[i].value.cell.value
                  == if old(SetValueResult(objects[i], value)) == Ok(true) then value else old(objects[i].value.cell.value))
    {
      var found := ArrayIndex(index, subindex);
      if found.Err? {
        return Done(Err(found.error));
      }
      if objects[found.value].privilege == ReadOnly {
        return Done(Err(WritingForbidden));
      }
      r := SetObjectValue(index, subindex, value);
    }

    /** `upload`: an SDO read. Write-only objects refuse it with `ReadAccessImpossible`. */
    method Upload(index: u16, subindex: u8) returns (r: Result<ValueVariant, CanOpenError>)
      requires Valid()
      ensures match Find(Entries(), MapIndex(index, subindex))
        case None => r == Err(ObjectDoesNotExist(index, subindex))
        case Some(i) => r == if objects[i].privilege == WriteOnly then Err(ReadAccessImpossible) else GetValue(objects[i])
    {
      var found := ArrayIndex(index, subindex);
      if found.Err? {
        return Err(found.error);
      }
      var o := objects[found.value];
      if o.privilege == WriteOnly {
        return Err(ReadAccessImpossible);
      }
      r := GetValue(o);
    }

    /** `get_object_value`: the object's value, whatever its access right. */
    method GetObjectValue(index: u16, subindex: u8) returns (r: Result<ValueVariant, CanOpenError>)
      requires Valid()
      ensures match Find(Entries(), MapIndex(index, subindex))
        case None => r == Err(ObjectDoesNotExist(index, subindex))
        case Some(i) => r == GetValue(objects[i])
    {
      var found := ArrayIndex(index, subindex);
      if found.Err? {
        return Err(found.error);
      }
      r := GetValue(objects[found.value]);
    }
  }
}
