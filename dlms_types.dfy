/**
 * Shared vocabulary of the DLMS/COSEM client model: bytes, the dynamically
 * typed values the client passes around (C# `object`), the DLMS data-type
 * tags, access-mode codes, COSEM object descriptors and the collaborators
 * whose code is not part of this model (A-XDR codec, object factory,
 * logical-name conversions).
 */
module DlmsTypes {

  type byte = b: int | 0 <= b < 256

  datatype Option<+T> = Nothing | Some(value: T)

  /** Why an operation threw; one constructor per kind of exception. */
  datatype Error =
    | InvalidParameter        // ArgumentOutOfRangeException / "Invalid parameter"
    | InvalidResponse         // GXDLMSException on a malformed reply
    | InvalidStructure        // an object-list entry whose arity is not 4
    | InvalidCast             // a cast or Convert.ToXxx of the wrong kind of value
    | NullReference           // a null array indexed or enumerated
    | Overflow                // Convert.ToXxx of a value out of range
    | IndexOutOfRange         // a read past the end of a buffer
    | OutOfMemory             // the decoder reported index -1
    | DecodeError             // the foreign decoder threw
    | NotEnoughData           // frame not complete
    | WrongChecksum
    | NotUaResponse
    | AssociationRejected(result: int, diagnostic: int)
    | InvalidDlmsVersion
    | InvalidAttributeIndex
    | CacheNotEmpty

  datatype Result<+T> = Ok(value: T) | Err(error: Error) {
    predicate IsFailure() { Err? }
    function PropagateFailure<U>(): Result<U>
      requires Err?
    {
      Err(error)
    }
    function Extract(): T
      requires Ok?
    {
      value
    }
  }

  /** The values held in C# `object` variables: null, integers, byte arrays, strings and object arrays. */
  datatype Value =
    | Null
    | Bool(b: bool)
    | Int(i: int)
    | Bytes(bs: seq<byte>)
    | Str(s: string)
    | Items(items: seq<Value>)

  /** DLMS data-type tags (the A-XDR type byte). */
  datatype DataType =
    | None | Array | Structure | Boolean | BitString | Int32 | UInt32
    | OctetString | String | StringUTF8 | Bcd | Int8 | Int16 | UInt8 | UInt16
    | Int64 | UInt64 | Enum | Float32 | Float64 | DateTime | Date | Time
  {
    /** The tag byte written on the wire for this type. */
    function Tag(): (t: byte)
      ensures t == 0 <==> this == None
    {
      match this
      case None => 0
      case Array => 1
      case Structure => 2
      case Boolean => 3
      case BitString => 4
      case Int32 => 5
      case UInt32 => 6
      case OctetString => 9
      case String => 10
      case StringUTF8 => 12
      case Bcd => 13
      case Int8 => 15
      case Int16 => 16
      case UInt8 => 17
      case UInt16 => 18
      case Int64 => 20
      case UInt64 => 21
      case Enum => 22
      case Float32 => 23
      case Float64 => 24
      case DateTime => 25
      case Date => 26
      case Time => 27
    }
  }

  /** The data type a tag byte names, if any. */
  function FromTag(t: byte): (r: Option<DataType>)
    ensures r.Some? ==> r.value.Tag() == t
  {
    match t
    case 0 => Some(None)
    case 1 => Some(Array)
    case 2 => Some(Structure)
    case 3 => Some(Boolean)
    case 4 => Some(BitString)
    case 5 => Some(Int32)
    case 6 => Some(UInt32)
    case 9 => Some(OctetString)
    case 10 => Some(String)
    case 12 => Some(StringUTF8)
    case 13 => Some(Bcd)
    case 15 => Some(Int8)
    case 16 => Some(Int16)
    case 17 => Some(UInt8)
    case 18 => Some(UInt16)
    case 20 => Some(Int64)
    case 21 => Some(UInt64)
    case 22 => Some(Enum)
    case 23 => Some(Float32)
    case 24 => Some(Float64)
    case 25 => Some(DateTime)
    case 26 => Some(Date)
    case 27 => Some(Time)
    case _ => Nothing
  }

  /** Tags identify types: decoding a type's tag gives the type back, so no two types share a tag. */
  lemma TagRoundTrip(d: DataType)
    ensures FromTag(d.Tag()) == Some(d)
  {
  }

  /** Access-mode codes (C# enum AccessMode; a cast accepts any int). */
  type AccessMode = int
  const NO_ACCESS: AccessMode := 0
  const READ: AccessMode := 1
  const WRITE: AccessMode := 2
  const READ_WRITE: AccessMode := 3
  const AUTHENTICATED_READ: AccessMode := 4
  const AUTHENTICATED_WRITE: AccessMode := 5
  const AUTHENTICATED_READ_WRITE: AccessMode := 6

  /** Method-access codes (C# enum MethodAccessMode). */
  type MethodAccessMode = int
  const METHOD_NO_ACCESS: MethodAccessMode := 0
  const METHOD_ACCESS: MethodAccessMode := 1

  /** COSEM interface class ids used by the client. */
  const DATA_CLASS := 1
  const PROFILE_GENERIC_CLASS := 7
  const ASSOCIATION_SHORT_NAME_CLASS := 12
  const ASSOCIATION_LOGICAL_NAME_CLASS := 15

  /**
   * What the client knows of a COSEM object (GXDLMSObject): its class, name,
   * version, the access settings stored per attribute and per method, the
   * selected column of a profile, and the attribute and method counts its
   * class declares.
   */
  datatype CosemObject = CosemObject(
    objectType: int,
    version: int,
    shortName: int,
    logicalName: string,
    access: map<int, AccessMode>,
    methodAccess: map<int, MethodAccessMode>,
    selectedAttributeIndex: int,
    selectedDataIndex: int,
    attributeCount: nat,
    methodCount: nat)

  /** One result of the foreign A-XDR decoder GXCommon.GetData. */
  datatype Decoded =
    | Decoded(value: Value, next: int, total: int, read: int, resolved: DataType, cachePosition: int)
    | DecodeFailed(cachePosition: int)

  /**
   * Collaborators whose code is not part of this model, as functions:
   *  - getData(buffer, index, type hint, cache position): GXCommon.GetData;
   *  - getObjectCount(buffer, index): GXCommon.GetObjectCount, the count and the next index;
   *  - setData(type, value): the bytes GXCommon.SetData appends;
   *  - setObjectCount(n): the bytes GXCommon.SetObjectCount appends;
   *  - toLogicalName(bytes) and getLogicalName(text): GXDLMSObject's logical-name conversions;
   *  - createObject(classId): the object factory (GXDLMS.CreateObject, Activator.CreateInstance).
   */
  datatype Codec = Codec(
    getData: (seq<byte>, nat, DataType, int) -> Decoded,
    getObjectCount: (seq<byte>, nat) -> Option<(nat, nat)>,
    setData: (DataType, Value) -> seq<byte>,
    setObjectCount: nat -> seq<byte>,
    toLogicalName: seq<byte> -> string,
    getLogicalName: string -> seq<byte>,
    createObject: int -> CosemObject)

  /** Decimal digits of a natural number. */
  function NatToString(n: nat): (s: string)
    ensures |s| >= 1
    ensures forall k :: 0 <= k < |s| ==> '0' <= s[k] <= '9'
    decreases n
  {
    if n < 10 then [(n + '0' as int) as char]
    else NatToString(n / 10) + [((n % 10) + '0' as int) as char]
  }

  /** Convert.ToString(object): null gives "", arrays give their .NET type name. */
  function ToText(v: Value): (s: string)
    ensures v.Str? ==> s == v.s
    ensures v.Null? ==> s == ""
  {
    match v
    case Null => ""
    case Bool(b) => if b then "True" else "False"
    case Int(i) => if i < 0 then "-" + NatToString(-i) else NatToString(i)
    case Bytes(_) => "System.Byte[]"
    case Str(s) => s
    case Items(_) => "System.Object[]"
  }

  /** The number Convert.ToXxx gives for an integer or for null (0). */
  function IntOf(v: Value): int
  {
    if v.Int? then v.i else 0
  }

  /** Values Convert.ToXxx turns into an integer of the range [lo, hi]: null and the integers inside it. */
  predicate Fits(v: Value, lo: int, hi: int)
  {
    v.Null? || (v.Int? && lo <= v.i <= hi)
  }

  /**
   * Convert.ToByte / ToInt16 / ToUInt16 / ToInt32 / ToUInt32 of a boxed value
   * into the range [lo, hi] of an integer type: null converts to 0, an
   * integer outside the range overflows, anything else is a bad cast.
   */
  function ToInteger(v: Value, lo: int, hi: int): (r: Result<int>)
    requires lo <= 0 <= hi
    ensures r.Ok? <==> Fits(v, lo, hi)
    ensures r.Ok? ==> r.value == IntOf(v)
    ensures v.Null? ==> r == Ok(0)
    ensures v.Int? && !(lo <= v.i <= hi) ==> r == Err(Overflow)
    ensures !v.Null? && !v.Int? ==> r == Err(InvalidCast)
  {
    match v
    case Null => Ok(0)
    case Int(i) => if lo <= i <= hi then Ok(i) else Err(Overflow)
    case _ => Err(InvalidCast)
  }

  /**
   * `(object[])v` followed by a use of the array: a null reference passes the
   * cast and fails when it is indexed or enumerated, anything but an object
   * array is a bad cast.
   */
  function ObjectArray(v: Value): (r: Result<seq<Value>>)
    ensures r.Ok? <==> v.Items?
    ensures r.Ok? ==> r.value == v.items
    ensures v.Null? ==> r == Err(NullReference)
    ensures !v.Null? && !v.Items? ==> r == Err(InvalidCast)
  {
    match v
    case Items(items) => Ok(items)
    case Null => Err(NullReference)
    case _ => Err(InvalidCast)
  }

  const INT16_MIN := -0x8000
  const INT16_MAX := 0x7FFF
  const INT32_MIN := -0x8000_0000
  const INT32_MAX := 0x7FFF_FFFF
}
