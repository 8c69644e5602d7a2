/**
 * The side-effect-free rules of GXDLMSClient: which access modes allow
 * reading and writing, the width checks of HDLC addresses, the short-name
 * method-index arithmetic, the rendering of raw replies (ChangeType), the
 * filling of an object descriptor from an association-view entry
 * (UpdateObjectData) and the fixed layouts of the profile row selectors.
 */
module ClientRules {
  import opened DlmsTypes
  import opened TextRender

  // ---------------------------------------------------------------------
  // Access modes.

  /** Read, ReadWrite, AuthenticatedRead and AuthenticatedReadWrite allow reading. */
  predicate CanRead(mode: AccessMode)
  {
    mode == READ || mode == READ_WRITE || mode == AUTHENTICATED_READ || mode == AUTHENTICATED_READ_WRITE
  }

  /** Write, ReadWrite, AuthenticatedWrite and AuthenticatedReadWrite allow writing. */
  predicate CanWrite(mode: AccessMode)
  {
    mode == WRITE || mode == READ_WRITE || mode == AUTHENTICATED_WRITE || mode == AUTHENTICATED_READ_WRITE
  }

  /**
   * How the two predicates split the seven named modes: NoAccess and every
   * unnamed code allow neither; each plain or authenticated mode allows
   * reading, writing or both, and the authenticated variant of a mode allows
   * exactly what the plain one does.
   */
  lemma AccessModeClassification(mode: AccessMode)
    ensures CanRead(mode) && CanWrite(mode) <==> mode == READ_WRITE || mode == AUTHENTICATED_READ_WRITE
    ensures CanRead(mode) && !CanWrite(mode) <==> mode == READ || mode == AUTHENTICATED_READ
    ensures !CanRead(mode) && CanWrite(mode) <==> mode == WRITE || mode == AUTHENTICATED_WRITE
    ensures !CanRead(mode) && !CanWrite(mode) <==> mode < READ || mode > AUTHENTICATED_READ_WRITE
    ensures READ <= mode <= READ_WRITE ==> (CanRead(mode) <==> CanRead(mode + 3)) && (CanWrite(mode) <==> CanWrite(mode + 3))
  {
  }

  // ---------------------------------------------------------------------
  // HDLC addresses.

  /** A client or server HDLC address with its width in bytes. */
  datatype Address = Address(value: int, size: int)

  /**
   * SetServerID / SetClientID: the width must be 1, 2 or 4; the value is then
   * converted to a byte, UInt16 or UInt32, which overflows outside that range
   * and turns null into address 0.
   */
  function ToAddress(value: Value, size: int): (r: Result<Address>)
    ensures size !in {1, 2, 4} ==> r == Err(InvalidParameter)
    ensures r.Ok? <==> size in {1, 2, 4} && (value.Null? || (value.Int? && 0 <= value.i < (if size == 1 then 0x100 else if size == 2 then 0x1_0000 else 0x1_0000_0000)))
    ensures r.Ok? && value.Int? ==> r.value == Address(value.i, size)
    ensures r.Ok? && value.Null? ==> r.value == Address(0, size)
  {
    if size != 1 && size != 2 && size != 4 then Err(InvalidParameter)
    else
      var max := if size == 1 then 0xFF else if size == 2 then 0xFFFF else 0xFFFF_FFFF;
      var v :- ToInteger(value, 0, max);
      Ok(Address(v, size))
  }

  // ---------------------------------------------------------------------
  // Method indices.

  /** The index a method request carries: unchanged under logical names; base + (index - 1) * 8 under short names. */
  function MethodWireIndex(useLogicalNames: bool, index: int, actionBase: int, methodCount: int): (r: Result<int>)
    requires index >= 1
    ensures useLogicalNames ==> r == Ok(index)
    ensures !useLogicalNames ==> (r.Ok? <==> index <= methodCount)
  {
    if useLogicalNames then Ok(index)
    else if index > methodCount then Err(InvalidParameter)
    else Ok(actionBase + (index - 1) * 0x8)
  }

  /**
   * Short-name method addresses are eight apart, so the method index can be
   * read back from the address and two methods of one object never share one.
   */
  lemma MethodWireIndexInverse(index: int, actionBase: int, methodCount: int)
    requires 1 <= index <= methodCount
    ensures var w := MethodWireIndex(false, index, actionBase, methodCount).value;
      (w - actionBase) % 8 == 0 && (w - actionBase) / 8 + 1 == index
  {
  }

  lemma MethodWireIndexInjective(i: int, j: int, actionBase: int, methodCount: int)
    requires 1 <= i <= methodCount && 1 <= j <= methodCount && i != j
    ensures MethodWireIndex(false, i, actionBase, methodCount) != MethodWireIndex(false, j, actionBase, methodCount)
  {
  }

  // ---------------------------------------------------------------------
  // ChangeType.

  /**
   * ChangeType: null stays null; an untyped value becomes its hexadecimal
   * text; otherwise the bytes are decoded with the declared type as hint,
   * and a result the decoder reports as an octet string becomes the
   * dotted-decimal text of its bytes.
   */
  function ChangeType(value: Option<seq<byte>>, t: DataType, getData: (seq<byte>, nat, DataType, int) -> Decoded): (r: Result<Value>)
    ensures value.Nothing? ==> r == Ok(Null)
    ensures value.Some? && t == None ==> r == Ok(Str(HexText(value.value)))
    ensures value.Some? && t == None ==> r.Ok? && r.value.Str? && ParseHexText(r.value.s) == Some(value.value)
    ensures value.Some? && t != None ==> var d := getData(value.value, 0, t, 0);
      && (d.DecodeFailed? ==> r == Err(DecodeError))
      && (d.Decoded? && d.next == -1 ==> r == Err(OutOfMemory))
      && (d.Decoded? && d.next != -1 && d.resolved == OctetString && d.value.Bytes? ==>
            r == Ok(Str(DottedDecimal(d.value.bs))))
      && (d.Decoded? && d.next != -1 && d.resolved == OctetString && d.value.Bytes? ==>
            r.Ok? && r.value.Str? && ParseDottedDecimal(r.value.s) == Some(d.value.bs))
      && (d.Decoded? && d.next != -1 && !(d.resolved == OctetString && d.value.Bytes?) ==> r == Ok(d.value))
  {
    match value
    case Nothing => Ok(Null)
    case Some(bs) =>
      if t == None then
        HexTextRoundTrip(bs);
        Ok(Str(HexText(bs)))
      else
        match getData(bs, 0, t, 0)
        case DecodeFailed(_) => Err(DecodeError)
        case Decoded(v, next, _, _, resolved, _) =>
          if next == -1 then Err(OutOfMemory)
          else if resolved == OctetString && v.Bytes? then
            DottedDecimalRoundTrip(v.bs);
            Ok(Str(DottedDecimal(v.bs)))
          else Ok(v)
  }

  // ---------------------------------------------------------------------
  // Access rights of an association-view entry.

  /**
   * Applies (id, mode) pairs in order to an access map, as the foreach loops
   * over attribute_access / method_access do with SetAccess: each pair must be
   * an object array whose first two items convert to Int32, the id being
   * converted before the mode is looked up; a null pair is dereferenced.
   */
  function ApplyAccessPairs(m: map<int, int>, pairs: seq<Value>): (r: Result<map<int, int>>)
    ensures r.Ok? ==> m.Keys <= r.value.Keys
    ensures pairs != [] && pairs[0].Null? ==> r == Err(NullReference)
    ensures pairs != [] && !pairs[0].Null? && !pairs[0].Items? ==> r == Err(InvalidCast)
    ensures pairs != [] && pairs[0].Items? && pairs[0].items == [] ==> r == Err(IndexOutOfRange)
    ensures (pairs != [] && pairs[0].Items? && |pairs[0].items| >= 1
             && !Fits(pairs[0].items[0], INT32_MIN, INT32_MAX)) ==>
      r == Err(ToInteger(pairs[0].items[0], INT32_MIN, INT32_MAX).error)
    ensures (pairs != [] && pairs[0].Items? && |pairs[0].items| == 1
             && Fits(pairs[0].items[0], INT32_MIN, INT32_MAX)) ==> r == Err(IndexOutOfRange)
    decreases |pairs|
  {
    if pairs == [] then Ok(m)
    else
      var pair := pairs[0];
      var items :- ObjectArray(pair);
      if |items| < 1 then Err(IndexOutOfRange)
      else
        var id :- ToInteger(items[0], INT32_MIN, INT32_MAX);
        if |items| < 2 then Err(IndexOutOfRange)
        else
          var mode :- ToInteger(items[1], INT32_MIN, INT32_MAX);
          ApplyAccessPairs(m[id := mode], pairs[1..])
  }

  /** The (id, mode) pairs a server writes, as decoded values. */
  function PairValues(pairs: seq<(int, int)>): seq<Value>
  {
    seq(|pairs|, k requires 0 <= k < |pairs| => Items([Int(pairs[k].0), Int(pairs[k].1)]))
  }

  predicate Int32Pairs(pairs: seq<(int, int)>)
  {
    forall k :: 0 <= k < |pairs| ==> INT32_MIN <= pairs[k].0 <= INT32_MAX && INT32_MIN <= pairs[k].1 <= INT32_MAX
  }

  /** The map after storing each pair in order: a later pair for the same id wins. */
  function StorePairs(m: map<int, int>, pairs: seq<(int, int)>): map<int, int>
    decreases |pairs|
  {
    if pairs == [] then m else StorePairs(m[pairs[0].0 := pairs[0].1], pairs[1..])
  }

  /** Decoded pairs of Int32 values are applied exactly as the pairs say, in order. */
  lemma {:induction false} ApplyAccessPairsStores(m: map<int, int>, pairs: seq<(int, int)>)
    requires Int32Pairs(pairs)
    ensures ApplyAccessPairs(m, PairValues(pairs)) == Ok(StorePairs(m, pairs))
    decreases |pairs|
  {
    if pairs != [] {
      assert PairValues(pairs)[0] == Items([Int(pairs[0].0), Int(pairs[0].1)]);
      assert PairValues(pairs)[1..] == PairValues(pairs[1..]);
      ApplyAccessPairsStores(m[pairs[0].0 := pairs[0].1], pairs[1..]);
    }
  }

  /** The last pair naming an id decides its mode; ids no pair names keep their old mode. */
  lemma {:induction false} StorePairsLastWins(m: map<int, int>, pairs: seq<(int, int)>, id: int)
    ensures id in StorePairs(m, pairs) <==> id in m || exists k :: 0 <= k < |pairs| && pairs[k].0 == id
    ensures (forall k :: 0 <= k < |pairs| ==> pairs[k].0 != id) && id in m ==> StorePairs(m, pairs)[id] == m[id]
    ensures |pairs| > 0 && pairs[|pairs| - 1].0 == id ==> StorePairs(m, pairs)[id] == pairs[|pairs| - 1].1
    decreases |pairs|
  {
    if pairs != [] {
      var m' := m[pairs[0].0 := pairs[0].1];
      StorePairsLastWins(m', pairs[1..], id);
      if id in StorePairs(m, pairs) && id !in m && pairs[0].0 != id {
        var k :| 0 <= k < |pairs[1..]| && pairs[1..][k].0 == id;
        assert pairs[k + 1].0 == id;
      }
      if exists k :: 0 <= k < |pairs| && pairs[k].0 == id {
        var k :| 0 <= k < |pairs| && pairs[k].0 == id;
        if k > 0 {
          assert pairs[1..][k - 1].0 == id;
        }
      }
    }
  }

  /**
   * The access maps an association-view entry leaves on `obj`: an array of
   * access rights (which must be an object array) has its attribute pairs
   * stored, and its method pairs only when the object already has a short
   * name; anything that is not an array leaves both maps as they are.
   */
  function EntryAccess(obj: CosemObject, accessRights: Value): (r: Result<(map<int, AccessMode>, map<int, MethodAccessMode>)>)
    ensures !accessRights.Items? && !accessRights.Bytes? ==> r == Ok((obj.access, obj.methodAccess))
    ensures accessRights.Bytes? ==> r == Err(InvalidCast)
    ensures accessRights.Items? && |accessRights.items| >= 1 && accessRights.items[0].Null? ==> r == Err(NullReference)
    ensures r.Ok? && accessRights.Items? ==>
      && |accessRights.items| >= 1 && accessRights.items[0].Items?
      && ApplyAccessPairs(obj.access, accessRights.items[0].items) == Ok(r.value.0)
    ensures r.Ok? && obj.shortName == 0 ==> r.value.1 == obj.methodAccess
    ensures r.Ok? && accessRights.Items? && obj.shortName != 0 ==>
      && |accessRights.items| >= 2 && accessRights.items[1].Items?
      && ApplyAccessPairs(obj.methodAccess, accessRights.items[1].items) == Ok(r.value.1)
    ensures (accessRights.Items? && |accessRights.items| >= 1 && accessRights.items[0].Items?
             && ApplyAccessPairs(obj.access, accessRights.items[0].items).Ok? && obj.shortName == 0) ==> r.Ok?
    ensures (accessRights.Items? && |accessRights.items| >= 2 && accessRights.items[0].Items? && accessRights.items[1].Items?
             && ApplyAccessPairs(obj.access, accessRights.items[0].items).Ok?
             && ApplyAccessPairs(obj.methodAccess, accessRights.items[1].items).Ok?) ==> r.Ok?
  {
    if accessRights.Items? then
      var access := accessRights.items;
      if |access| < 1 then Err(IndexOutOfRange)
      else
        var attributePairs :- ObjectArray(access[0]);
        var attributes :- ApplyAccessPairs(obj.access, attributePairs);
        if obj.shortName == 0 then Ok((attributes, obj.methodAccess))
        else if |access| < 2 then Err(IndexOutOfRange)
        else
          var methodPairs :- ObjectArray(access[1]);
          var methods :- ApplyAccessPairs(obj.methodAccess, methodPairs);
          Ok((attributes, methods))
    else if accessRights.Bytes? then Err(InvalidCast)
    else Ok((obj.access, obj.methodAccess))
  }

  /**
   * UpdateObjectData, after CreateDLMSObject's cast of the logical name to
   * octets: sets the class and the access maps of EntryAccess,
   * then the selected column, the short name and the version when given,
   * and the logical name from the octets. It succeeds exactly when the
   * access rights apply, a given short name fits a UInt16, a given version
   * fits an Int32 and the logical name is octets.
   */
  function UpdateObjectData(obj: CosemObject, objectType: int, version: Value, baseName: Value, logicalName: Value,
                            accessRights: Value, attributeIndex: int, dataIndex: int,
                            toLogicalName: seq<byte> -> string): (r: Result<CosemObject>)
    ensures r.Ok? <==> && EntryAccess(obj, accessRights).Ok?
                       && (baseName.Null? || (baseName.Int? && 0 <= baseName.i <= 0xFFFF))
                       && (version.Null? || (version.Int? && INT32_MIN <= version.i <= INT32_MAX))
                       && logicalName.Bytes?
    ensures !logicalName.Bytes? && !logicalName.Null? ==> r == Err(InvalidCast)
    ensures r.Ok? ==> (r.value.access, r.value.methodAccess) == EntryAccess(obj, accessRights).value
    ensures r.Ok? ==> r.value.objectType == objectType
    ensures r.Ok? ==> r.value.selectedAttributeIndex == attributeIndex && r.value.selectedDataIndex == dataIndex
    ensures r.Ok? ==> logicalName.Bytes? && r.value.logicalName == toLogicalName(logicalName.bs)
    ensures r.Ok? && version.Null? ==> r.value.version == obj.version
    ensures r.Ok? && version.Int? ==> r.value.version == version.i
    ensures r.Ok? && baseName.Null? ==> r.value.shortName == obj.shortName
    ensures r.Ok? && baseName.Int? ==> r.value.shortName == baseName.i
    ensures r.Ok? ==> r.value.attributeCount == obj.attributeCount && r.value.methodCount == obj.methodCount
  {
    if !logicalName.Bytes? && !logicalName.Null? then Err(InvalidCast)
    else
      var (access, methodAccess) :- EntryAccess(obj, accessRights);
      var o := obj.(objectType := objectType, access := access, methodAccess := methodAccess,
                    selectedAttributeIndex := attributeIndex, selectedDataIndex := dataIndex);
      var o :- if baseName.Null? then Ok(o)
               else var sn :- ToInteger(baseName, 0, 0xFFFF); Ok(o.(shortName := sn));
      var o :- if version.Null? then Ok(o)
               else var v :- ToInteger(version, INT32_MIN, INT32_MAX); Ok(o.(version := v));
      if logicalName.Null? then Err(InvalidCast)
      else Ok(o.(logicalName := toLogicalName(logicalName.bs)))
  }

  // ---------------------------------------------------------------------
  // Request payloads.

  /** A piece of a request payload: literal bytes, or a value the foreign encoder SetData writes. */
  datatype Segment = Raw(bytes: seq<byte>) | Encoded(dataType: DataType, value: Value)

  function Serialize(payload: seq<Segment>, setData: (DataType, Value) -> seq<byte>): seq<byte>
  {
    if payload == [] then []
    else
      (match payload[0]
       case Raw(bs) => bs
       case Encoded(t, v) => setData(t, v)) + Serialize(payload[1..], setData)
  }

  /**
   * Selector of ReadRowsByEntry: access selector 2 (entry), a structure of
   * four elements: first entry and entry count as UInt32, then first and last
   * column 0 as UInt16 (all columns).
   */
  function RowsByEntrySelector(index: int, count: int): seq<Segment>
  {
    [Raw([0x02, DataType.Structure.Tag(), 0x04]),
     Encoded(UInt32, Int(index)), Encoded(UInt32, Int(count)),
     Encoded(UInt16, Int(0)), Encoded(UInt16, Int(0))]
  }

  /**
   * Selector of ReadRowsByRange: access selector 1 (range), a structure of
   * four elements: the restricting object (a structure of four: class 8, the
   * column's logical name, attribute 2, its version), the start and end time,
   * and an empty column list (all columns).
   */
  function RowsByRangeSelector(ln: string, version: int, start: Value, end: Value): seq<Segment>
  {
    [Raw([0x01, DataType.Structure.Tag(), 0x04, 0x02, 0x04]),
     Encoded(UInt16, Int(8)), Encoded(OctetString, Str(ln)), Encoded(Int8, Int(2)), Encoded(UInt16, Int(version)),
     Encoded(DateTime, start), Encoded(DateTime, end),
     Raw([0x01, 0x00])]
  }

  lemma {:induction false} SerializeAppend(p: seq<Segment>, q: seq<Segment>, setData: (DataType, Value) -> seq<byte>)
    ensures Serialize(p + q, setData) == Serialize(p, setData) + Serialize(q, setData)
    decreases |p|
  {
    if p == [] {
      assert p + q == q;
    } else {
      assert (p + q)[1..] == p[1..] + q;
      SerializeAppend(p[1..], q, setData);
    }
  }

  /**
   * Whatever the encoder writes for the values, an entry selector starts with
   * selector 2 and a structure of four, and a range selector starts with
   * selector 1, a structure of four holding a structure of four, and ends
   * with an empty column array.
   */
  lemma SelectorLayouts(index: int, count: int, ln: string, version: int, start: Value, end: Value,
                        setData: (DataType, Value) -> seq<byte>)
    ensures Serialize(RowsByEntrySelector(index, count), setData)[..3] == [0x02, 0x02, 0x04]
    ensures var s := Serialize(RowsByRangeSelector(ln, version, start, end), setData);
      |s| >= 7 && s[..5] == [0x01, 0x02, 0x04, 0x02, 0x04] && s[|s| - 2..] == [0x01, 0x00]
  {
    var e := RowsByEntrySelector(index, count);
    assert e == [e[0]] + e[1..];
    SerializeAppend([e[0]], e[1..], setData);
    var r := RowsByRangeSelector(ln, version, start, end);
    assert r == [r[0]] + r[1..7] + [r[7]];
    SerializeAppend([r[0]] + r[1..7], [r[7]], setData);
    SerializeAppend([r[0]], r[1..7], setData);
  }
}
