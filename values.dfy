/** Values that cross the OPC UA boundary: the protocol's unsigned wrapper
    types (from BaSyx) and the JVM types BaSyx uses in their place. */
module Values {
  import opened Lang

  /** An OPC UA node address: namespace index plus identifier. Equality is by value. */
  datatype NodeId = NodeId(namespaceIndex: nat, identifier: string)

  /** The runtime class of a non-null value; `OtherClass` stands for every class
      the conversion table does not mention. */
  datatype JavaClass =
    | UnsignedByteClass | UnsignedShortClass | UnsignedIntegerClass | UnsignedLongClass
    | ShortClass | IntegerClass | LongClass | BigIntegerClass
    | BooleanClass | StringClass
    | OtherClass(name: string)

  /** A Java object seen as a value. Numbers carry their mathematical value;
      `WellFormed` states the range each class can hold. */
  datatype Value =
    | Null
    | UnsignedByte(n: int)
    | UnsignedShort(n: int)
    | UnsignedInteger(n: int)
    | UnsignedLong(n: int)
    | Short(n: int)
    | Integer(n: int)
    | Long(n: int)
    | BigInteger(n: int)
    | Boolean(b: bool)
    | Str(s: string)
    | OtherObject(cls: string, id: nat)

  const UINT8_LIMIT: int := 0x100
  const UINT16_LIMIT: int := 0x1_0000
  const UINT32_LIMIT: int := 0x1_0000_0000
  const UINT64_LIMIT: int := 0x1_0000_0000_0000_0000
  const INT16_MIN: int := -0x8000
  const INT16_MAX: int := 0x7FFF
  const INT32_MIN: int := -0x8000_0000
  const INT32_MAX: int := 0x7FFF_FFFF
  const INT64_MIN: int := -0x8000_0000_0000_0000
  const INT64_MAX: int := 0x7FFF_FFFF_FFFF_FFFF

  /** `value.getClass()`; `None` where Java would throw a NullPointerException. */
  function ClassOf(v: Value): (c: Option<JavaClass>)
    ensures c.None? <==> v.Null?
  {
    match v
    case Null => None
    case UnsignedByte(_) => Some(UnsignedByteClass)
    case UnsignedShort(_) => Some(UnsignedShortClass)
    case UnsignedInteger(_) => Some(UnsignedIntegerClass)
    case UnsignedLong(_) => Some(UnsignedLongClass)
    case Short(_) => Some(ShortClass)
    case Integer(_) => Some(IntegerClass)
    case Long(_) => Some(LongClass)
    case BigInteger(_) => Some(BigIntegerClass)
    case Boolean(_) => Some(BooleanClass)
    case Str(_) => Some(StringClass)
    case OtherObject(cls, _) => Some(OtherClass(cls))
  }

  /** Every number lies in the range of its class; BigInteger is unbounded. */
  predicate WellFormed(v: Value) {
    match v
    case UnsignedByte(n) => 0 <= n < UINT8_LIMIT
    case UnsignedShort(n) => 0 <= n < UINT16_LIMIT
    case UnsignedInteger(n) => 0 <= n < UINT32_LIMIT
    case UnsignedLong(n) => 0 <= n < UINT64_LIMIT
    case Short(n) => INT16_MIN <= n <= INT16_MAX
    case Integer(n) => INT32_MIN <= n <= INT32_MAX
    case Long(n) => INT64_MIN <= n <= INT64_MAX
    case _ => true
  }

  /** The number a value denotes, if it is a number. */
  function NumericValue(v: Value): Option<int> {
    if v.UnsignedByte? || v.UnsignedShort? || v.UnsignedInteger? || v.UnsignedLong?
       || v.Short? || v.Integer? || v.Long? || v.BigInteger?
    then Some(v.n)
    else None
  }
}
