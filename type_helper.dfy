/** TypeHelper.HasNumericType: whether a boxed cell value counts as a number
    for automatic alignment. */
module TypeHelper {
  import opened Wrappers

  /** System.TypeCode. */
  datatype TypeCode =
    | Empty | Object | DBNull | Boolean | Char
    | SByte | Byte | Int16 | UInt16 | Int32 | UInt32 | Int64 | UInt64
    | Single | Double | Decimal | DateTime | String

  /** The runtime type of a boxed value, as far as HasNumericType can observe it. */
  datatype RuntimeType =
    | BuiltIn(code: TypeCode)          // the system type with that type code: System.Int32, System.String, ...
    | EnumType(underlying: TypeCode)   // an enum, whose type code is that of its underlying integral type
    | OtherType                        // any other class or struct, whose type code is Object

  /** Type.GetTypeCode. */
  function GetTypeCode(t: RuntimeType): TypeCode {
    match t
    case BuiltIn(code) => code
    case EnumType(underlying) => underlying
    case OtherType => Object
  }

  /** The eleven numeric type codes. */
  const NumericCodes: set<TypeCode> :=
    {Byte, SByte, UInt16, UInt32, UInt64, Int16, Int32, Int64, Decimal, Double, Single}

  /** The `o is byte || o is sbyte || ... || o is float` test: the value's type is
      one of the eleven numeric primitive types itself. */
  predicate IsNumericPrimitive(t: RuntimeType) {
    match t
    case BuiltIn(Byte) => true
    case BuiltIn(SByte) => true
    case BuiltIn(UInt16) => true
    case BuiltIn(UInt32) => true
    case BuiltIn(UInt64) => true
    case BuiltIn(Int16) => true
    case BuiltIn(Int32) => true
    case BuiltIn(Int64) => true
    case BuiltIn(Decimal) => true
    case BuiltIn(Double) => true
    case BuiltIn(Single) => true
    case _ => false
  }

  /** The switch on the type code. */
  predicate IsNumericTypeCode(code: TypeCode) {
    match code
    case Byte | SByte | UInt16 | UInt32 | UInt64 | Int16 | Int32 | Int64 | Decimal | Double | Single => true
    case _ => false
  }

  /** HasNumericType(o), with o given by its runtime type (None for null). */
  function HasNumericType(o: Option<RuntimeType>): (r: bool)
    ensures o.None? ==> !r
  {
    if o.None? then false
    else if IsNumericPrimitive(o.value) then true
    else IsNumericTypeCode(GetTypeCode(o.value))
  }

  /** The `is` chain is subsumed by the switch: a non-null value is numeric exactly
      when its type code is one of the eleven numeric codes. */
  lemma HasNumericTypeIsTypeCodeTest(t: RuntimeType)
    ensures HasNumericType(Some(t)) <==> GetTypeCode(t) in NumericCodes
    ensures IsNumericPrimitive(t) ==> IsNumericTypeCode(GetTypeCode(t))
  {
  }

  /** A System.Double is numeric. */
  lemma DoubleIsNumeric()
    ensures HasNumericType(Some(BuiltIn(Double)))
  {
  }

  /** Characters, booleans, strings, dates, DBNull and plain objects are not numeric. */
  lemma NonNumericCodes(t: RuntimeType)
    requires GetTypeCode(t) in {Char, Boolean, String, DateTime, DBNull, Object}
    ensures !HasNumericType(Some(t))
  {
  }

  /** Only the switch classifies an enum over int as numeric: the `is` chain does not. */
  lemma EnumOverIntIsNumeric()
    ensures !IsNumericPrimitive(EnumType(Int32))
    ensures HasNumericType(Some(EnumType(Int32)))
  {
  }
}
