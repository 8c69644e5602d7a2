/**
 * The Data interface class (class id 1, GXDLMSData): attribute 1 is the
 * logical name, attribute 2 a value of any type.
 */
module DataObject {
  import opened DlmsTypes

  const ATTRIBUTE_COUNT: nat := 2
  const METHOD_COUNT: nat := 0

  /** Reading attribute `index` of a Data object named `ln` holding `value`. */
  function ReadAttribute(ln: string, value: Value, index: int, getLogicalName: string -> seq<byte>): (r: Result<(Value, DataType)>)
    ensures r.Ok? <==> 1 <= index <= ATTRIBUTE_COUNT
    ensures r.Err? ==> r.error == InvalidParameter
    ensures index == 1 ==> r == Ok((Bytes(getLogicalName(ln)), OctetString))
    ensures index == 2 ==> r == Ok((value, None))
  {
    if index == 1 then Ok((Bytes(getLogicalName(ln)), OctetString))
    else if index == 2 then Ok((value, None))
    else Err(InvalidParameter)
  }

  /** The logical name and value after writing `v` to attribute `index`. */
  function WriteAttribute(ln: string, value: Value, index: int, v: Value): (r: Result<(string, Value)>)
    ensures r.Ok? <==> 1 <= index <= ATTRIBUTE_COUNT
    ensures r.Err? ==> r.error == InvalidParameter
    ensures index == 1 ==> r == Ok((ToText(v), value))
    ensures index == 2 ==> r == Ok((ln, v))
  {
    if index == 1 then Ok((ToText(v), value))
    else if index == 2 then Ok((ln, v))
    else Err(InvalidParameter)
  }

  /**
   * Writing then reading an attribute gives back what was written: the value
   * itself for attribute 2, the octets of the written value's text for
   * attribute 1 (the written name itself when it is a string);
   * writing one attribute leaves the other as it was.
   */
  lemma WriteThenRead(ln: string, value: Value, index: int, v: Value, getLogicalName: string -> seq<byte>)
    requires 1 <= index <= ATTRIBUTE_COUNT
    ensures var w := WriteAttribute(ln, value, index, v);
      && w.Ok?
      && (index == 2 ==> ReadAttribute(w.value.0, w.value.1, 2, getLogicalName) == Ok((v, None)))
      && (index == 2 ==> ReadAttribute(w.value.0, w.value.1, 1, getLogicalName) == ReadAttribute(ln, value, 1, getLogicalName))
      && (index == 1 ==> ReadAttribute(w.value.0, w.value.1, 1, getLogicalName) == Ok((Bytes(getLogicalName(ToText(v))), OctetString)))
      && (index == 1 ==> ReadAttribute(w.value.0, w.value.1, 2, getLogicalName) == ReadAttribute(ln, value, 2, getLogicalName))
  {
  }

  class Data {
    const codec: Codec
    var logicalName: string
    var shortName: int
    var value: Value

    /** A Data object named `ln`, holding null. */
    constructor (codec: Codec, ln: string)
      ensures this.codec == codec && logicalName == ln && shortName == 0 && value == Null
    {
      this.codec := codec;
      logicalName := ln;
      shortName := 0;
      value := Null;
    }

    /** The (name, short name) constructor as written: the short name argument is not used. */
    constructor WithShortNameAsWritten(codec: Codec, ln: string, sn: int)
      requires 0 <= sn <= 0xFFFF
      ensures this.codec == codec && logicalName == ln && value == Null
      ensures shortName == 0
    {
      this.codec := codec;
      logicalName := ln;
      shortName := 0;
      value := Null;
    }

    /** The (name, short name) constructor keeping the short name it is given. */
    constructor WithShortName(codec: Codec, ln: string, sn: int)
      requires 0 <= sn <= 0xFFFF
      ensures this.codec == codec && logicalName == ln && value == Null
      ensures shortName == sn
    {
      this.codec := codec;
      logicalName := ln;
      shortName := sn;
      value := Null;
    }

    /** Reads attribute 1 (the logical name as octets) or 2 (the value, of no declared type). */
    method GetValue(index: int) returns (r: Result<(Value, DataType)>)
      ensures r == ReadAttribute(logicalName, value, index, codec.getLogicalName)
    {
      if index == 1 {
        return Ok((Bytes(codec.getLogicalName(logicalName)), OctetString));
      }
      if index == 2 {
        return Ok((value, None));
      }
      return Err(InvalidParameter);
    }

    /** Writes attribute 1 (as text) or 2; any other index is refused and changes nothing. */
    method SetValue(index: int, v: Value) returns (error: Option<Error>)
      modifies this
      ensures match WriteAttribute(old(logicalName), old(value), index, v)
        case Ok((ln, val)) => error == Nothing && logicalName == ln && value == val
        case Err(e) => error == Some(e) && logicalName == old(logicalName) && value == old(value)
      ensures shortName == old(shortName)
    {
      if index == 1 {
        logicalName := ToText(v);
        error := Nothing;
      } else if index == 2 {
        value := v;
        error := Nothing;
      } else {
        error := Some(InvalidParameter);
      }
    }

    /** Data has no methods. */
    method Invoke(index: int, parameters: Value) returns (error: Error)
      ensures error == InvalidParameter
    {
      error := InvalidParameter;
    }

    function AttributeCount(): (n: nat)
      ensures n == ATTRIBUTE_COUNT
    {
      2
    }

    function MethodCount(): (n: nat)
      ensures n == METHOD_COUNT
    {
      0
    }
  }
}
