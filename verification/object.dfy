/**
 * Objects of a node's object dictionary (node/object.rs): an address
 * (`mapped_index`), an access right and a storage class. Variable and
 * persistent objects keep their value in a shared cell (an
 * `Arc<Mutex<ValueVariant>>` in the library) that every clone of the object
 * points to; `set_value` overwrites that cell in place.
 */
module NodeObject {
  import opened Bytes
  import opened Wrappers
  import opened Errors

  /**
   * `ValueVariant`, the value an object holds. Its declaration lies outside
   * the modelled files; these are the variants the dictionary uses.
   */
  datatype ValueVariant =
    | U8(u8: u8)
    | U16(u16: u16)
    | U32(u32: u32)
    | I8(i8: i8)
    | I16(i16: i16)
    | I32(i32: i32)
    | S(s: string)

  /** `discriminant(a) == discriminant(b)`: same variant, whatever the payload. */
  predicate SameVariant(a: ValueVariant, b: ValueVariant)
  {
    match (a, b)
    case (U8(_), U8(_)) => true
    case (U16(_), U16(_)) => true
    case (U32(_), U32(_)) => true
    case (I8(_), I8(_)) => true
    case (I16(_), I16(_)) => true
    case (I32(_), I32(_)) => true
    case (S(_), S(_)) => true
    case _ => false
  }

  datatype SdoAccessType = ReadOnly | WriteOnly | ReadWrite

  /** `ObjectChangeHandler`: the callback a no-storage object runs on every write. */
  type ObjectChangeHandler = (u32, ValueVariant) -> Result<(), CanOpenError>

  /** `default_handler`: accepts every write. */
  function DefaultHandler(mappedIndex: u32, newValue: ValueVariant): Result<(), CanOpenError>
  {
    Ok(())
  }

  /** The shared, lockable value of a variable or persistent object. */
  class ValueCell {
    var value: ValueVariant

    constructor (v: ValueVariant)
      ensures value == v
    {
      value := v;
    }
  }

  datatype StoredValue =
    | Const(constant: ValueVariant)
    | Persistent(cell: ValueCell)
    | Variable(cell: ValueCell)
    | NoStorage(handler: ObjectChangeHandler)
  {
    /** The storage classes whose value lives in a shared cell. */
    predicate InCell()
    {
      Persistent? || Variable?
    }
  }

  datatype CanOpenObject = CanOpenObject(mappedIndex: u32, value: StoredValue, privilege: SdoAccessType)

  /**
   * `map_index`: the 32-bit dictionary address of (index, subindex). Its
   * declaration lies outside the modelled files; the index goes above the
   * subindex, which makes the address injective and lexicographically ordered
   * (MapIndexOrder).
   */
  function MapIndex(index: u16, subindex: u8): u32
  {
    index * 256 + subindex
  }

  /** Addresses compare as (index, subindex) pairs compare lexicographically. */
  lemma MapIndexOrder(i1: u16, s1: u8, i2: u16, s2: u8)
    ensures MapIndex(i1, s1) < MapIndex(i2, s2) <==> i1 < i2 || (i1 == i2 && s1 < s2)
    ensures MapIndex(i1, s1) == MapIndex(i2, s2) <==> i1 == i2 && s1 == s2
  {
    if i1 < i2 {
      assert MapIndex(i1, s1) < (i1 + 1) * 256 <= MapIndex(i2, s2);
    } else if i2 < i1 {
      assert MapIndex(i2, s2) < (i2 + 1) * 256 <= MapIndex(i1, s1);
    }
  }

  /** The objects a read or write of `o` may touch: its cell, if it has one. */
  function Footprint(o: CanOpenObject): set<object>
  {
    if o.value.InCell() then {o.value.cell} else {}
  }

  /** `const_object`: a read-only object with a constant value. */
  function ConstObject(index: u16, subindex: u8, value: ValueVariant): (r: CanOpenObject)
    ensures r.mappedIndex == MapIndex(index, subindex) && r.privilege == ReadOnly
    ensures GetValue(r) == Ok(value)
  {
    CanOpenObject(MapIndex(index, subindex), Const(value), ReadOnly)
  }

  /**
   * `variable_object` and `persistent_object` panic for every value that is not a
   * string, although their panic message says that strings are the values they refuse.
   */
  predicate StorageObjectPanicsAsWritten(value: ValueVariant)
  {
    !value.S?
  }

  /** The panic the message describes: strings can only be held by constant objects. */
  predicate StorageObjectPanics(value: ValueVariant)
  {
    value.S?
  }

  /**
   * As written, a numeric variable object cannot be created and a string one
   * can, the reverse of what the panic message announces.
   */
  lemma StorageObjectGuardInverted()
    ensures StorageObjectPanicsAsWritten(U8(0)) && !StorageObjectPanics(U8(0))
    ensures !StorageObjectPanicsAsWritten(S("Rev 1.0")) && StorageObjectPanics(S("Rev 1.0"))
  {
  }

  /**
   * `variable_object` with the intended guard: a read-write object whose value
   * lives in a fresh cell.
   */
  method VariableObject(index: u16, subindex: u8, value: ValueVariant) returns (r: CanOpenObject)
    requires !StorageObjectPanics(value)
    ensures r.mappedIndex == MapIndex(index, subindex) && r.privilege == ReadWrite
    ensures r.value.Variable? && fresh(r.value.cell) && r.value.cell.value == value
  {
    var cell := new ValueCell(value);
    r := CanOpenObject(MapIndex(index, subindex), Variable(cell), ReadWrite);
  }

  /** `persistent_object` with the intended guard. */
  method PersistentObject(index: u16, subindex: u8, value: ValueVariant) returns (r: CanOpenObject)
    requires !StorageObjectPanics(value)
    ensures r.mappedIndex == MapIndex(index, subindex) && r.privilege == ReadWrite
    ensures r.value.Persistent? && fresh(r.value.cell) && r.value.cell.value == value
  {
    var cell := new ValueCell(value);
    r := CanOpenObject(MapIndex(index, subindex), Persistent(cell), ReadWrite);
  }

  /** `nostorage_object`: a write-only object whose writes go to `handler`. */
  function NoStorageObject(index: u16, subindex: u8, handler: ObjectChangeHandler): (r: CanOpenObject)
    ensures r.mappedIndex == MapIndex(index, subindex) && r.privilege == WriteOnly
    ensures GetValue(r) == Err(ReadAccessImpossible)
  {
    CanOpenObject(MapIndex(index, subindex), NoStorage(handler), WriteOnly)
  }

  /** `get_value`: the constant, or the cell's current value; a no-storage object cannot be read. */
  function GetValue(o: CanOpenObject): (r: Result<ValueVariant, CanOpenError>)
    reads Footprint(o)
    ensures r.Err? <==> o.value.NoStorage?
    ensures r.Err? ==> r.error == ReadAccessImpossible
  {
    match o.value
    case Const(v) => Ok(v)
    case NoStorage(_) => Err(ReadAccessImpossible)
    case Variable(c) => Ok(c.value)
    case Persistent(c) => Ok(c.value)
  }

  /**
   * What `set_value` returns in the current state: whether the stored value
   * changed, or why the write was refused.
   */
  function SetValueResult(o: CanOpenObject, value: ValueVariant): (r: Result<bool, CanOpenError>)
    reads Footprint(o)
    ensures o.value.Const? ==> r == Err(CannotWriteToConstStorage)
    ensures o.value.InCell() ==> (r.Err? <==> !SameVariant(value, o.value.cell.value))
    ensures o.value.InCell() ==> (r == Ok(true) <==> SameVariant(value, o.value.cell.value) && value != o.value.cell.value)
    ensures o.value.NoStorage? ==> (r.Ok? <==> o.value.handler(o.mappedIndex, value).Ok?)
  {
    match o.value
    case NoStorage(handler) =>
      (match handler(o.mappedIndex, value)
       case Ok(_) => Ok(true)
       case Err(e) => Err(e))
    case Const(_) => Err(CannotWriteToConstStorage)
    case _ =>
      if !SameVariant(value, o.value.cell.value) then Err(InvalidNumberType("todo"))
      else if o.value.cell.value != value then Ok(true)
      else Ok(false)
  }

  /**
   * `set_value`: a value of the stored variant that differs from the stored one
   * replaces it; afterwards a successful write reads back as the written value.
   */
  method SetValue(o: CanOpenObject, value: ValueVariant) returns (r: Result<bool, CanOpenError>)
    modifies Footprint(o)
    ensures r == old(SetValueResult(o, value))
    ensures o.value.InCell() ==> o.value.cell.value == if r == Ok(true) then value else old(o.value.cell.value)
    ensures r.Ok? && o.value.InCell() ==> GetValue(o) == Ok(value)
  {
    match o.value
    case NoStorage(handler) =>
      var h := handler(o.mappedIndex, value);
      r := if h.Ok? then Ok(true) else Err(h.error);
    case Const(_) =>
      r := Err(CannotWriteToConstStorage);
    case _ =>
      var cell := o.value.cell;
      if !SameVariant(value, cell.value) {
        r := Err(InvalidNumberType("todo"));
      } else if cell.value != value {
        cell.value := value;
        r := Ok(true);
      } else {
        r := Ok(false);
      }
  }

  /** `PartialEq`: objects are equal when their addresses are, whatever they hold. */
  predicate Equal(a: CanOpenObject, b: CanOpenObject)
    ensures Equal(a, b) <==> a.mappedIndex / 256 == b.mappedIndex / 256 && a.mappedIndex % 256 == b.mappedIndex % 256
  {
    a.mappedIndex == b.mappedIndex
  }

  datatype Ordering = Less | Equal | Greater

  /** `PartialOrd`: objects are ordered by address alone; the order is total. */
  function PartialCmp(a: CanOpenObject, b: CanOpenObject): (r: Option<Ordering>)
    ensures r.Some?
    ensures r == Some(Ordering.Equal) <==> Equal(a, b)
  {
    if a.mappedIndex < b.mappedIndex then Some(Less)
    else if a.mappedIndex == b.mappedIndex then Some(Ordering.Equal)
    else Some(Greater)
  }

  /** Swapping the operands swaps Less and Greater, so the order is antisymmetric. */
  lemma PartialCmpAntisymmetric(a: CanOpenObject, b: CanOpenObject)
    ensures PartialCmp(a, b) == Some(Less) <==> PartialCmp(b, a) == Some(Greater)
  {
  }

  /** Constant objects compare by (index, subindex), lexicographically, ignoring their values. */
  lemma ConstObjectsCompareByAddress(i1: u16, s1: u8, v1: ValueVariant, i2: u16, s2: u8, v2: ValueVariant)
    ensures PartialCmp(ConstObject(i1, s1, v1), ConstObject(i2, s2, v2)) == Some(Less)
      <==> i1 < i2 || (i1 == i2 && s1 < s2)
    ensures Equal(ConstObject(i1, s1, v1), ConstObject(i2, s2, v2)) <==> i1 == i2 && s1 == s2
  {
    MapIndexOrder(i1, s1, i2, s2);
  }

  /** The comparisons of the object tests: (1,1) equals (1,1) with another value; (1,2) > (1,1); (1,1) < (2,1). */
  lemma ComparisonExamples()
    ensures Equal(ConstObject(1, 1, U8(0)), ConstObject(1, 1, U8(1)))
    ensures PartialCmp(ConstObject(1, 2, U8(0)), ConstObject(1, 1, U8(0))) == Some(Greater)
    ensures PartialCmp(ConstObject(1, 1, U8(0)), ConstObject(2, 1, U8(0))) == Some(Less)
  {
    ConstObjectsCompareByAddress(1, 1, U8(0), 2, 1, U8(0));
  }

  /** `Default`: the constant U8(0) at address (0, 0). */
  function DefaultObject(): (r: CanOpenObject)
    ensures Equal(r, ConstObject(0, 0, U8(1))) && r.privilege == ReadOnly
    ensures GetValue(r) == Ok(U8(0))
  {
    ConstObject(0, 0, U8(0))
  }
}
