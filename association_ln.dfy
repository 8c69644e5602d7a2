/**
 * The Association LN interface class (class id 15, GXDLMSAssociationLogicalName):
 * attribute 2 is the object list the association gives access to, written
 * as an array of {class_id, version, logical_name, access_rights}
 * structures; attributes 3 to 9 describe the association itself.
 */
module AssociationLn {
  import opened DlmsTypes
  import opened ClientRules

  const ATTRIBUTE_COUNT: nat := 9
  const METHOD_COUNT: nat := 4
  const DEFAULT_LOGICAL_NAME := "0.0.40.0.0.255"

  /** AssociationStatus. */
  const NON_ASSOCIATED := 0
  const ASSOCIATION_PENDING := 1
  const ASSOCIATED := 2

  /** The access an object grants to attribute `id`: its stored setting, Read when none is stored. */
  function AttributeMode(obj: CosemObject, id: int): AccessMode
  {
    if id in obj.access then obj.access[id] else READ
  }

  /** The access an object grants to method `id`: its stored setting, NoAccess when none is stored. */
  function MethodMode(obj: CosemObject, id: int): MethodAccessMode
  {
    if id in obj.methodAccess then obj.methodAccess[id] else METHOD_NO_ACCESS
  }

  // ---------------------------------------------------------------------
  // Writing the object list (GetObjects, GetAccessRights).

  /** attribute_access_item {attribute_id, access_mode, access_selectors = null} of attribute `id`. */
  function AttributeItemBytes(obj: CosemObject, id: int, setData: (DataType, Value) -> seq<byte>): seq<byte>
  {
    [Structure.Tag(), 3] + setData(Int8, Int(id)) + setData(Enum, Int(AttributeMode(obj, id))) + setData(None, Null)
  }

  /** method_access_item {method_id, access_mode} of method `id`. */
  function MethodItemBytes(obj: CosemObject, id: int, setData: (DataType, Value) -> seq<byte>): seq<byte>
  {
    [Structure.Tag(), 2] + setData(Int8, Int(id)) + setData(Enum, Int(MethodMode(obj, id)))
  }

  /** The items of attributes 1..n, in order. */
  function AttributeItemsBytes(obj: CosemObject, n: nat, setData: (DataType, Value) -> seq<byte>): seq<byte>
  {
    if n == 0 then [] else AttributeItemsBytes(obj, n - 1, setData) + AttributeItemBytes(obj, n, setData)
  }

  /** The items of methods 1..n, in order. */
  function MethodItemsBytes(obj: CosemObject, n: nat, setData: (DataType, Value) -> seq<byte>): seq<byte>
  {
    if n == 0 then [] else MethodItemsBytes(obj, n - 1, setData) + MethodItemBytes(obj, n, setData)
  }

  /**
   * access_rights {attribute_access array, method_access array}: one item
   * per attribute and per method the object's class declares. Each count is
   * written as a single byte, so only its low eight bits reach the wire.
   */
  function AccessRightsBytes(obj: CosemObject, setData: (DataType, Value) -> seq<byte>): seq<byte>
  {
    [Structure.Tag(), 2, Array.Tag(), (obj.attributeCount % 256) as byte]
      + AttributeItemsBytes(obj, obj.attributeCount, setData)
      + [Array.Tag(), (obj.methodCount % 256) as byte]
      + MethodItemsBytes(obj, obj.methodCount, setData)
  }

  /** object_list_element {class_id, version, logical_name, access_rights}. */
  function EntryBytes(obj: CosemObject, setData: (DataType, Value) -> seq<byte>): seq<byte>
  {
    [Structure.Tag(), 4] + setData(UInt16, Int(obj.objectType)) + setData(UInt8, Int(obj.version))
      + setData(OctetString, Str(obj.logicalName)) + AccessRightsBytes(obj, setData)
  }

  function EntriesBytes(entries: seq<CosemObject>, setData: (DataType, Value) -> seq<byte>): seq<byte>
  {
    if entries == [] then [] else EntriesBytes(entries[..|entries| - 1], setData) + EntryBytes(entries[|entries| - 1], setData)
  }

  /** Whether the list holds an object of class `classId` named `ln` (ObjectList.FindByLN). */
  predicate Listed(list: seq<CosemObject>, classId: int, ln: string)
  {
    exists k :: 0 <= k < |list| && list[k].objectType == classId && list[k].logicalName == ln
  }

  /**
   * The entries the object list reply holds: the list, then the association
   * itself unless the list already holds an object of class `searchClass`
   * with the association's logical name.
   */
  function ViewEntries(list: seq<CosemObject>, self: CosemObject, searchClass: int): seq<CosemObject>
  {
    if Listed(list, searchClass, self.logicalName) then list else list + [self]
  }

  /** The object list reply: an array tag, the entry count, then the entries. */
  function ObjectListBytes(entries: seq<CosemObject>, codec: Codec): seq<byte>
  {
    [Array.Tag()] + codec.setObjectCount(|entries|) + EntriesBytes(entries, codec.setData)
  }

  /**
   * As written, the reply looks for an Association SN object (class 12) with
   * the association's name, so an Association LN object that lists itself
   * (class 15) is written twice.
   */
  lemma SelfListedTwiceAsWritten(self: CosemObject)
    requires self.objectType == ASSOCIATION_LOGICAL_NAME_CLASS
    ensures ViewEntries([self], self, ASSOCIATION_SHORT_NAME_CLASS) == [self, self]
  {
    assert !Listed([self], ASSOCIATION_SHORT_NAME_CLASS, self.logicalName);
  }

  /**
   * Looking for the association's own class, the reply always lists the
   * association, and adds no second entry when the list already holds it.
   */
  lemma SelfListedOnce(list: seq<CosemObject>, self: CosemObject)
    requires self.objectType == ASSOCIATION_LOGICAL_NAME_CLASS
    ensures Listed(ViewEntries(list, self, ASSOCIATION_LOGICAL_NAME_CLASS), ASSOCIATION_LOGICAL_NAME_CLASS, self.logicalName)
    ensures ViewEntries(list, self, ASSOCIATION_LOGICAL_NAME_CLASS) == list
            <==> Listed(list, ASSOCIATION_LOGICAL_NAME_CLASS, self.logicalName)
    ensures |ViewEntries(list, self, ASSOCIATION_LOGICAL_NAME_CLASS)| <= |list| + 1
  {
    var v := ViewEntries(list, self, ASSOCIATION_LOGICAL_NAME_CLASS);
    if !Listed(list, ASSOCIATION_LOGICAL_NAME_CLASS, self.logicalName) {
      assert v[|list|] == self;
    }
  }

  // ---------------------------------------------------------------------
  // Reading the object list back (SetValue of attribute 2, UpdateAccessRights).

  /** The stored access pairs as the decoder hands them back: {id, mode, null} per attribute. */
  function AttributeAccessValues(obj: CosemObject): seq<Value>
  {
    seq(obj.attributeCount, k requires 0 <= k < obj.attributeCount => Items([Int(k + 1), Int(AttributeMode(obj, k + 1)), Null]))
  }

  /** {id, mode} per method. */
  function MethodAccessValues(obj: CosemObject): seq<Value>
  {
    seq(obj.methodCount, k requires 0 <= k < obj.methodCount => Items([Int(k + 1), Int(MethodMode(obj, k + 1))]))
  }

  /** The decoded form of AccessRightsBytes. */
  function AccessRightsValue(obj: CosemObject): Value
  {
    Items([Items(AttributeAccessValues(obj)), Items(MethodAccessValues(obj))])
  }

  /** The decoded form of EntryBytes: the logical name arrives as its six octets. */
  function EntryValue(obj: CosemObject, getLogicalName: string -> seq<byte>): Value
  {
    Items([Int(obj.objectType), Int(obj.version), Bytes(getLogicalName(obj.logicalName)), AccessRightsValue(obj)])
  }

  /**
   * UpdateAccessRights: the attribute pairs of access_rights[0], then the
   * method pairs of access_rights[1], stored with SetAccess / SetMethodAccess.
   */
  function AccessRightsApplied(obj: CosemObject, accessRights: Value): (r: Result<CosemObject>)
    ensures r.Ok? ==> r.value == obj.(access := r.value.access, methodAccess := r.value.methodAccess)
    ensures r.Ok? ==> obj.access.Keys <= r.value.access.Keys && obj.methodAccess.Keys <= r.value.methodAccess.Keys
    ensures accessRights.Null? ==> r == Err(NullReference)
    ensures accessRights.Items? && |accessRights.items| >= 1 && accessRights.items[0].Null? ==> r == Err(NullReference)
  {
    var buff :- ObjectArray(accessRights);
    if |buff| < 1 then Err(IndexOutOfRange)
    else
      var attributePairs :- ObjectArray(buff[0]);
      var attributes :- ApplyAccessPairs(obj.access, attributePairs);
      if |buff| < 2 then Err(IndexOutOfRange)
      else
        var methodPairs :- ObjectArray(buff[1]);
        var methods :- ApplyAccessPairs(obj.methodAccess, methodPairs);
        Ok(obj.(access := attributes, methodAccess := methods))
  }

  /**
   * One element of attribute 2: class id and version converted to Int32
   * (null being 0), the logical name from its octets, the object the
   * factory creates for the class, with the access rights applied. The
   * class the object reports is the factory's.
   */
  function ReadEntry(codec: Codec, item: Value): (r: Result<CosemObject>)
    ensures r.Ok? ==> item.Items? && |item.items| >= 4
    ensures r.Ok? ==> Fits(item.items[0], INT32_MIN, INT32_MAX) && Fits(item.items[1], INT32_MIN, INT32_MAX)
    ensures r.Ok? ==> r.value.objectType == codec.createObject(IntOf(item.items[0])).objectType
    ensures r.Ok? ==> r.value.version == IntOf(item.items[1])
    ensures r.Ok? ==> item.items[2].Bytes? && r.value.logicalName == codec.toLogicalName(item.items[2].bs)
    ensures r.Ok? ==> var applied := AccessRightsApplied(codec.createObject(IntOf(item.items[0])), item.items[3]);
      applied.Ok? && r.value.access == applied.value.access && r.value.methodAccess == applied.value.methodAccess
    ensures item.Null? ==> r == Err(NullReference)
    ensures !item.Null? && !item.Items? ==> r == Err(InvalidCast)
  {
    var it :- ObjectArray(item);
    if |it| < 1 then Err(IndexOutOfRange)
    else
      var classId :- ToInteger(it[0], INT32_MIN, INT32_MAX);
      if |it| < 2 then Err(IndexOutOfRange)
      else
        var version :- ToInteger(it[1], INT32_MIN, INT32_MAX);
        if |it| < 3 then Err(IndexOutOfRange)
        else if !it[2].Bytes? then Err(InvalidCast)
        else
          var ln := codec.toLogicalName(it[2].bs);
          var obj := codec.createObject(classId).(logicalName := ln);
          if |it| < 4 then Err(IndexOutOfRange)
          else
            var obj :- AccessRightsApplied(obj, it[3]);
            Ok(obj.(version := version))
  }

  /** Where reading attribute 2 stops: the objects added so far, and the error that stopped it, if any. */
  datatype ListRead = ListRead(list: seq<CosemObject>, error: Option<Error>)

  /** ReadEntry with the collaborators of `codec`, as a function of the element. */
  function Reader(codec: Codec): Value -> Result<CosemObject>
  {
    item => ReadEntry(codec, item)
  }

  /** Reads elements i.. of attribute 2 with `read`, appending to `acc`; an element that fails stops the reading. */
  function ReadEntries(read: Value -> Result<CosemObject>, items: seq<Value>, i: nat, acc: seq<CosemObject>): ListRead
    requires i <= |items|
    decreases |items| - i
  {
    if i == |items| then ListRead(acc, Nothing)
    else match read(items[i])
      case Err(e) => ListRead(acc, Some(e))
      case Ok(obj) => ReadEntries(read, items, i + 1, acc + [obj])
  }

  /** The object list after SetValue(2, value): cleared, then filled from the elements of the array. */
  function ReadObjectList(codec: Codec, value: Value): ListRead
  {
    match value
    case Null => ListRead([], Nothing)
    case Items(items) => ReadEntries(Reader(codec), items, 0, [])
    case _ => ListRead([], Some(InvalidCast))
  }

  /** The fields a C# int holds. */
  predicate Int32Object(obj: CosemObject)
  {
    && INT32_MIN <= obj.objectType <= INT32_MAX
    && INT32_MIN <= obj.version <= INT32_MAX
    && obj.attributeCount <= INT32_MAX && obj.methodCount <= INT32_MAX
    && (forall id :: id in obj.access ==> INT32_MIN <= obj.access[id] <= INT32_MAX)
    && (forall id :: id in obj.methodAccess ==> INT32_MIN <= obj.methodAccess[id] <= INT32_MAX)
  }

  /** Pairs {id, mode, extra...} for ids 1..n. */
  function PairList(n: nat, mode: int -> int, extra: seq<Value>): seq<Value>
  {
    seq(n, k requires 0 <= k < n => Items([Int(k + 1), Int(mode(k + 1))] + extra))
  }

  /** Applying the pairs for ids j+1..n stores each mode under its id. */
  lemma {:induction false} ApplyPairList(m: map<int, int>, n: nat, mode: int -> int, extra: seq<Value>, j: nat)
    requires j <= n <= INT32_MAX
    requires forall id :: 1 <= id <= n ==> INT32_MIN <= mode(id) <= INT32_MAX
    ensures var r := ApplyAccessPairs(m, PairList(n, mode, extra)[j..]);
      && r.Ok?
      && (forall id :: j < id <= n ==> id in r.value && r.value[id] == mode(id))
      && (forall id :: id in m && !(j < id <= n) ==> id in r.value && r.value[id] == m[id])
    decreases n - j
  {
    var pairs := PairList(n, mode, extra);
    if j < n {
      assert pairs[j..][0] == Items([Int(j + 1), Int(mode(j + 1))] + extra);
      assert pairs[j..][1..] == pairs[j + 1..];
      ApplyPairList(m[j + 1 := mode(j + 1)], n, mode, extra, j + 1);
    } else {
      assert pairs[j..] == [];
    }
  }

  lemma AttributeValuesArePairs(obj: CosemObject)
    ensures AttributeAccessValues(obj) == PairList(obj.attributeCount, id => AttributeMode(obj, id), [Null])
    ensures MethodAccessValues(obj) == PairList(obj.methodCount, id => MethodMode(obj, id), [])
  {
    var a := AttributeAccessValues(obj);
    var b := PairList(obj.attributeCount, id => AttributeMode(obj, id), [Null]);
    assert forall k :: 0 <= k < |a| ==> a[k] == b[k];
    var c := MethodAccessValues(obj);
    var d := PairList(obj.methodCount, id => MethodMode(obj, id), []);
    assert forall k :: 0 <= k < |c| ==> c[k] == d[k];
  }

  /**
   * Reading back an entry written for an object gives an object of the same
   * class (when the factory creates objects of the class asked for) and version, named by the logical-name conversions, with the
   * access of every attribute and method of the written object's class as
   * the writer stored it (Read and NoAccess where nothing was stored).
   */
  lemma EntryRoundTrip(codec: Codec, obj: CosemObject)
    requires Int32Object(obj)
    requires codec.createObject(obj.objectType).objectType == obj.objectType
    ensures var r := ReadEntry(codec, EntryValue(obj, codec.getLogicalName));
      && r.Ok?
      && r.value.objectType == obj.objectType
      && r.value.version == obj.version
      && r.value.logicalName == codec.toLogicalName(codec.getLogicalName(obj.logicalName))
      && (forall id :: 1 <= id <= obj.attributeCount ==> id in r.value.access && r.value.access[id] == AttributeMode(obj, id))
      && (forall id :: 1 <= id <= obj.methodCount ==> id in r.value.methodAccess && r.value.methodAccess[id] == MethodMode(obj, id))
  {
    AttributeValuesArePairs(obj);
    var created := codec.createObject(obj.objectType).(logicalName := codec.toLogicalName(codec.getLogicalName(obj.logicalName)));
    ApplyPairList(created.access, obj.attributeCount, id => AttributeMode(obj, id), [Null], 0);
    ApplyPairList(created.methodAccess, obj.methodCount, id => MethodMode(obj, id), [], 0);
    assert PairList(obj.attributeCount, id => AttributeMode(obj, id), [Null])[0..] == AttributeAccessValues(obj);
    assert PairList(obj.methodCount, id => MethodMode(obj, id), [])[0..] == MethodAccessValues(obj);
  }

  /** Reading an array of elements that all read cleanly gives one object per element, in order, and no error. */
  lemma {:induction false} ReadEntriesAll(read: Value -> Result<CosemObject>, items: seq<Value>, i: nat, acc: seq<CosemObject>)
    requires i <= |items|
    requires forall k :: i <= k < |items| ==> read(items[k]).Ok?
    ensures var r := ReadEntries(read, items, i, acc);
      && r.error == Nothing
      && |r.list| == |acc| + |items| - i
      && r.list[..|acc|] == acc
      && (forall k :: i <= k < |items| ==> r.list[|acc| + k - i] == read(items[k]).value)
    decreases |items| - i
  {
    if i < |items| {
      var acc' := acc + [read(items[i]).value];
      ReadEntriesAll(read, items, i + 1, acc');
      var r := ReadEntries(read, items, i + 1, acc');
      assert ReadEntries(read, items, i, acc) == r;
      assert r.list[..|acc|] == r.list[..|acc'|][..|acc|];
      forall k | i <= k < |items|
        ensures r.list[|acc| + k - i] == read(items[k]).value
      {
        if k == i {
          assert r.list[|acc|] == r.list[..|acc'|][|acc|];
        }
      }
    }
  }

  /** An element that fails stops the reading with its error, keeping exactly the objects read before it. */
  lemma {:induction false} ReadEntriesStops(read: Value -> Result<CosemObject>, items: seq<Value>, i: nat, acc: seq<CosemObject>, bad: nat)
    requires i <= bad < |items|
    requires forall k :: i <= k < bad ==> read(items[k]).Ok?
    requires read(items[bad]).Err?
    ensures var r := ReadEntries(read, items, i, acc);
      r.error == Some(read(items[bad]).error) && |r.list| == |acc| + bad - i
    decreases bad - i
  {
    if i < bad {
      ReadEntriesStops(read, items, i + 1, acc + [read(items[i]).value], bad);
    }
  }

  // ---------------------------------------------------------------------
  // The loops of the C# code, proved against the functions above.

  /** The foreach over access pairs calling SetAccess / SetMethodAccess. */
  method StoreAccessPairs(m: map<int, int>, pairs: seq<Value>) returns (r: Result<map<int, int>>)
    ensures r == ApplyAccessPairs(m, pairs)
  {
    var current := m;
    var i := 0;
    while i < |pairs|
      invariant i <= |pairs|
      invariant ApplyAccessPairs(current, pairs[i..]) == ApplyAccessPairs(m, pairs)
    {
      assert pairs[i..][1..] == pairs[i + 1..];
      var pair := ObjectArray(pairs[i]);
      if pair.Err? {
        return Err(pair.error);
      }
      var items := pair.value;
      if |items| < 1 {
        return Err(IndexOutOfRange);
      }
      var id := ToInteger(items[0], INT32_MIN, INT32_MAX);
      if id.Err? {
        return Err(id.error);
      }
      if |items| < 2 {
        return Err(IndexOutOfRange);
      }
      var mode := ToInteger(items[1], INT32_MIN, INT32_MAX);
      if mode.Err? {
        return Err(mode.error);
      }
      current := current[id.value := mode.value];
      i := i + 1;
    }
    assert pairs[i..] == [];
    r := Ok(current);
  }

  /** UpdateAccessRights. */
  method UpdateAccessRights(obj: CosemObject, accessRights: Value) returns (r: Result<CosemObject>)
    ensures r == AccessRightsApplied(obj, accessRights)
  {
    var cast := ObjectArray(accessRights);
    if cast.Err? {
      return Err(cast.error);
    }
    var buff := cast.value;
    if |buff| < 1 {
      return Err(IndexOutOfRange);
    }
    var attributePairs := ObjectArray(buff[0]);
    if attributePairs.Err? {
      return Err(attributePairs.error);
    }
    var attributes := StoreAccessPairs(obj.access, attributePairs.value);
    if attributes.Err? {
      return Err(attributes.error);
    }
    if |buff| < 2 {
      return Err(IndexOutOfRange);
    }
    var methodPairs := ObjectArray(buff[1]);
    if methodPairs.Err? {
      return Err(methodPairs.error);
    }
    var methods := StoreAccessPairs(obj.methodAccess, methodPairs.value);
    if methods.Err? {
      return Err(methods.error);
    }
    r := Ok(obj.(access := attributes.value, methodAccess := methods.value));
  }

  /** The body of the foreach of SetValue(2) for one element. */
  method ReadElement(codec: Codec, item: Value) returns (r: Result<CosemObject>)
    ensures r == ReadEntry(codec, item)
  {
    var cast := ObjectArray(item);
    if cast.Err? {
      return Err(cast.error);
    }
    var it := cast.value;
    if |it| < 1 {
      return Err(IndexOutOfRange);
    }
    var classId := ToInteger(it[0], INT32_MIN, INT32_MAX);
    if classId.Err? {
      return Err(classId.error);
    }
    if |it| < 2 {
      return Err(IndexOutOfRange);
    }
    var version := ToInteger(it[1], INT32_MIN, INT32_MAX);
    if version.Err? {
      return Err(version.error);
    }
    if |it| < 3 {
      return Err(IndexOutOfRange);
    }
    if !it[2].Bytes? {
      return Err(InvalidCast);
    }
    var ln := codec.toLogicalName(it[2].bs);
    var obj := codec.createObject(classId.value).(logicalName := ln);
    if |it| < 4 {
      return Err(IndexOutOfRange);
    }
    var updated := UpdateAccessRights(obj, it[3]);
    if updated.Err? {
      return Err(updated.error);
    }
    r := Ok(updated.value.(version := version.value));
  }

  /** The first loop of GetAccessRights: appends the attribute_access items of `item` to `data`. */
  method AppendAttributeItems(item: CosemObject, setData: (DataType, Value) -> seq<byte>, data: seq<byte>) returns (out: seq<byte>)
    ensures out == data + AttributeItemsBytes(item, item.attributeCount, setData)
  {
    out := data;
    var pos := 0;
    while pos != item.attributeCount
      invariant pos <= item.attributeCount
      invariant out == data + AttributeItemsBytes(item, pos, setData)
    {
      ConcatAssociative(data, AttributeItemsBytes(item, pos, setData), AttributeItemBytes(item, pos + 1, setData));
      out := out + AttributeItemBytes(item, pos + 1, setData);
      pos := pos + 1;
    }
  }

  /** The second loop of GetAccessRights: appends the method_access items of `item` to `data`. */
  method AppendMethodItems(item: CosemObject, setData: (DataType, Value) -> seq<byte>, data: seq<byte>) returns (out: seq<byte>)
    ensures out == data + MethodItemsBytes(item, item.methodCount, setData)
  {
    out := data;
    var pos := 0;
    while pos != item.methodCount
      invariant pos <= item.methodCount
      invariant out == data + MethodItemsBytes(item, pos, setData)
    {
      ConcatAssociative(data, MethodItemsBytes(item, pos, setData), MethodItemBytes(item, pos + 1, setData));
      out := out + MethodItemBytes(item, pos + 1, setData);
      pos := pos + 1;
    }
  }

  /** GetAccessRights: appends access_rights for `item` to `data`. */
  method GetAccessRights(item: CosemObject, setData: (DataType, Value) -> seq<byte>, data: seq<byte>) returns (out: seq<byte>)
    ensures out == data + AccessRightsBytes(item, setData)
  {
    var head := [Structure.Tag(), 2, Array.Tag(), (item.attributeCount % 256) as byte];
    var attributes := AttributeItemsBytes(item, item.attributeCount, setData);
    var middle := [Array.Tag(), (item.methodCount % 256) as byte];
    var methods := MethodItemsBytes(item, item.methodCount, setData);
    out := data + head;
    out := AppendAttributeItems(item, setData, out);
    out := out + middle;
    out := AppendMethodItems(item, setData, out);
    ConcatAssociative(data, head, attributes);
    ConcatAssociative(data, head + attributes, middle);
    ConcatAssociative(data, head + attributes + middle, methods);
  }

  lemma EntriesBytesSnoc(list: seq<CosemObject>, i: nat, setData: (DataType, Value) -> seq<byte>)
    requires i < |list|
    ensures EntriesBytes(list[..i + 1], setData) == EntriesBytes(list[..i], setData) + EntryBytes(list[i], setData)
  {
    assert list[..i + 1][..i] == list[..i];
  }

  lemma AppendEntryStep(list: seq<CosemObject>, i: nat, setData: (DataType, Value) -> seq<byte>, data: seq<byte>, out: seq<byte>)
    requires i < |list| && out == data + EntriesBytes(list[..i], setData)
    ensures out + EntryBytes(list[i], setData) == data + EntriesBytes(list[..i + 1], setData)
  {
    EntriesBytesSnoc(list, i, setData);
    ConcatAssociative(data, EntriesBytes(list[..i], setData), EntryBytes(list[i], setData));
  }

  lemma ConcatAssociative(a: seq<byte>, b: seq<byte>, c: seq<byte>)
    ensures a + (b + c) == a + b + c
  {
  }

  /** The reply for a list with the association appended: the count includes it and its entry comes last. */
  lemma ObjectListWithSelf(list: seq<CosemObject>, self: CosemObject, codec: Codec)
    ensures ObjectListBytes(list + [self], codec)
            == [Array.Tag()] + codec.setObjectCount(|list| + 1) + EntriesBytes(list, codec.setData) + EntryBytes(self, codec.setData)
  {
    var l := list + [self];
    assert l[..|l| - 1] == list;
    ConcatAssociative([Array.Tag()] + codec.setObjectCount(|list| + 1), EntriesBytes(list, codec.setData), EntryBytes(self, codec.setData));
  }

  /** One iteration of the foreach of GetObjects: appends the entry of `it` to `data`. */
  method AppendEntry(it: CosemObject, setData: (DataType, Value) -> seq<byte>, data: seq<byte>) returns (out: seq<byte>)
    ensures out == data + EntryBytes(it, setData)
  {
    out := data + [Structure.Tag(), 4] + setData(UInt16, Int(it.objectType)) + setData(UInt8, Int(it.version))
                + setData(OctetString, Str(it.logicalName));
    out := GetAccessRights(it, setData, out);
  }

  /** The foreach of GetObjects: appends the entries of `list`, in order, to `data`. */
  method AppendEntries(list: seq<CosemObject>, setData: (DataType, Value) -> seq<byte>, data: seq<byte>) returns (out: seq<byte>)
    ensures out == data + EntriesBytes(list, setData)
  {
    out := data;
    var i := 0;
    while i < |list|
      invariant i <= |list|
      invariant out == data + EntriesBytes(list[..i], setData)
    {
      AppendEntryStep(list, i, setData, data, out);
      var next := AppendEntry(list[i], setData, out);
      out := next;
      i := i + 1;
    }
    assert list[..i] == list;
  }

  class AssociationLogicalName {
    const codec: Codec
    var logicalName: string
    var version: int
    var objectList: seq<CosemObject>
    var associatedPartnersId: Value
    var applicationContextName: Value
    var xdlmsContextInfo: Value
    var authenticationMechanismName: Value
    var secret: Value
    var associationStatus: int
    var securitySetupReference: Option<string>
    var access: map<int, AccessMode>
    var methodAccess: map<int, MethodAccessMode>

    /** An association named `ln` with an empty object list. */
    constructor (codec: Codec, ln: string)
      ensures this.codec == codec && logicalName == ln && version == 0 && objectList == []
      ensures associatedPartnersId == Null && applicationContextName == Null && xdlmsContextInfo == Null
      ensures authenticationMechanismName == Null && secret == Null
      ensures associationStatus == NON_ASSOCIATED && securitySetupReference == Nothing
      ensures access == map[] && methodAccess == map[]
    {
      this.codec := codec;
      logicalName := ln;
      version := 0;
      objectList := [];
      associatedPartnersId := Null;
      applicationContextName := Null;
      xdlmsContextInfo := Null;
      authenticationMechanismName := Null;
      secret := Null;
      associationStatus := NON_ASSOCIATED;
      securitySetupReference := Nothing;
      access := map[];
      methodAccess := map[];
    }

    /** The association under its default name 0.0.40.0.0.255. */
    constructor Default(codec: Codec)
      ensures this.codec == codec && logicalName == DEFAULT_LOGICAL_NAME && version == 0 && objectList == []
      ensures associatedPartnersId == Null && applicationContextName == Null && xdlmsContextInfo == Null
      ensures authenticationMechanismName == Null && secret == Null
      ensures associationStatus == NON_ASSOCIATED && securitySetupReference == Nothing
      ensures access == map[] && methodAccess == map[]
    {
      this.codec := codec;
      logicalName := DEFAULT_LOGICAL_NAME;
      version := 0;
      objectList := [];
      associatedPartnersId := Null;
      applicationContextName := Null;
      xdlmsContextInfo := Null;
      authenticationMechanismName := Null;
      secret := Null;
      associationStatus := NON_ASSOCIATED;
      securitySetupReference := Nothing;
      access := map[];
      methodAccess := map[];
    }

    /** The association as an entry of its own object list. */
    function Descriptor(): (d: CosemObject)
      reads this
      ensures d.objectType == ASSOCIATION_LOGICAL_NAME_CLASS && d.logicalName == logicalName
      ensures d.attributeCount == ATTRIBUTE_COUNT && d.methodCount == METHOD_COUNT
    {
      CosemObject(ASSOCIATION_LOGICAL_NAME_CLASS, version, 0, logicalName, access, methodAccess, 0, 0, ATTRIBUTE_COUNT, METHOD_COUNT)
    }

    /** The object list reply of attribute 2 (GetObjects), with the association itself listed once. */
    method GetObjects() returns (stream: seq<byte>)
      ensures stream == ObjectListBytes(ViewEntries(objectList, Descriptor(), ASSOCIATION_LOGICAL_NAME_CLASS), codec)
    {
      var self := Descriptor();
      var lnExists := Listed(objectList, ASSOCIATION_LOGICAL_NAME_CLASS, logicalName);
      var cnt := |objectList|;
      if !lnExists {
        cnt := cnt + 1;
      }
      stream := [Array.Tag()] + codec.setObjectCount(cnt);
      stream := AppendEntries(objectList, codec.setData, stream);
      if !lnExists {
        stream := AppendEntry(self, codec.setData, stream);
        ObjectListWithSelf(objectList, self, codec);
      }
    }

    /** Reads attribute `index` with its data type; attribute 9 and indexes outside 1..8 are refused. */
    method GetValue(index: int) returns (r: Result<(Value, DataType)>)
      ensures index == 1 ==> r == Ok((Bytes(codec.getLogicalName(logicalName)), OctetString))
      ensures index == 2 ==> r == Ok((Bytes(ObjectListBytes(ViewEntries(objectList, Descriptor(), ASSOCIATION_LOGICAL_NAME_CLASS), codec)), Array))
      ensures index == 3 ==> r == Ok((associatedPartnersId, None))
      ensures index == 4 ==> r == Ok((applicationContextName, None))
      ensures index == 5 ==> r == Ok((xdlmsContextInfo, None))
      ensures index == 6 ==> r == Ok((authenticationMechanismName, None))
      ensures index == 7 ==> r == Ok((secret, None))
      ensures index == 8 ==> r == Ok((Int(associationStatus), UInt8))
      ensures r.Ok? <==> 1 <= index <= 8
      ensures r.Err? ==> r.error == InvalidParameter
    {
      if index == 1 {
        return Ok((Bytes(codec.getLogicalName(logicalName)), OctetString));
      }
      if index == 2 {
        var bytes := GetObjects();
        return Ok((Bytes(bytes), Array));
      }
      if index == 3 {
        return Ok((associatedPartnersId, None));
      }
      if index == 4 {
        return Ok((applicationContextName, None));
      }
      if index == 5 {
        return Ok((xdlmsContextInfo, None));
      }
      if index == 6 {
        return Ok((authenticationMechanismName, None));
      }
      if index == 7 {
        return Ok((secret, None));
      }
      if index == 8 {
        return Ok((Int(associationStatus), UInt8));
      }
      return Err(InvalidParameter);
    }

    /**
     * Writes attribute `index`. Attributes 3 to 8 only accept null, which
     * resets them; any other value leaves them as they are. Attribute 2 is
     * cleared and refilled; an element that fails keeps the objects added
     * before it.
     */
    method SetValue(index: int, value: Value) returns (error: Option<Error>)
      modifies this
      ensures index == 1 ==> logicalName == ToText(value)
      ensures index == 2 ==> ListRead(objectList, error) == ReadObjectList(codec, value)
      ensures index == 3 ==> associatedPartnersId == (if value.Null? then Null else old(associatedPartnersId))
      ensures index == 4 ==> applicationContextName == (if value.Null? then Null else old(applicationContextName))
      ensures index == 5 ==> xdlmsContextInfo == (if value.Null? then Null else old(xdlmsContextInfo))
      ensures index == 6 ==> authenticationMechanismName == (if value.Null? then Null else old(authenticationMechanismName))
      ensures index == 7 ==> secret == (if value.Null? then Null else old(secret))
      ensures index == 8 ==> associationStatus == (if value.Null? then NON_ASSOCIATED else old(associationStatus))
      ensures index == 9 ==> securitySetupReference == Some(ToText(value))
      ensures index != 2 ==> error == (if 1 <= index <= 9 then Nothing else Some(InvalidParameter))
      ensures index != 1 ==> logicalName == old(logicalName)
      ensures index != 2 ==> objectList == old(objectList)
      ensures index != 3 ==> associatedPartnersId == old(associatedPartnersId)
      ensures index != 4 ==> applicationContextName == old(applicationContextName)
      ensures index != 5 ==> xdlmsContextInfo == old(xdlmsContextInfo)
      ensures index != 6 ==> authenticationMechanismName == old(authenticationMechanismName)
      ensures index != 7 ==> secret == old(secret)
      ensures index != 8 ==> associationStatus == old(associationStatus)
      ensures index != 9 ==> securitySetupReference == old(securitySetupReference)
      ensures version == old(version) && access == old(access) && methodAccess == old(methodAccess)
    {
      error := Nothing;
      if index == 1 {
        logicalName := ToText(value);
      } else if index == 2 {
        objectList := [];
        if value.Null? {
          return;
        }
        if !value.Items? {
          return Some(InvalidCast);
        }
        var items := value.items;
        var i := 0;
        while i < |items|
          invariant i <= |items|
          invariant ReadEntries(Reader(codec), items, i, objectList) == ReadObjectList(codec, value)
          invariant logicalName == old(logicalName) && associatedPartnersId == old(associatedPartnersId)
          invariant applicationContextName == old(applicationContextName) && xdlmsContextInfo == old(xdlmsContextInfo)
          invariant authenticationMechanismName == old(authenticationMechanismName) && secret == old(secret)
          invariant associationStatus == old(associationStatus) && securitySetupReference == old(securitySetupReference)
          invariant version == old(version) && access == old(access) && methodAccess == old(methodAccess)
        {
          var obj := ReadElement(codec, items[i]);
          if obj.Err? {
            return Some(obj.error);
          }
          objectList := objectList + [obj.value];
          i := i + 1;
        }
      } else if index == 3 {
        if value.Null? {
          associatedPartnersId := Null;
        }
      } else if index == 4 {
        if value.Null? {
          applicationContextName := Null;
        }
      } else if index == 5 {
        if value.Null? {
          xdlmsContextInfo := Null;
        }
      } else if index == 6 {
        if value.Null? {
          authenticationMechanismName := Null;
        }
      } else if index == 7 {
        if value.Null? {
          secret := Null;
        }
      } else if index == 8 {
        if value.Null? {
          associationStatus := NON_ASSOCIATED;
        }
      } else if index == 9 {
        securitySetupReference := Some(ToText(value));
      } else {
        error := Some(InvalidParameter);
      }
    }

    /** The class declares no method the client can invoke locally. */
    method Invoke(index: int, parameters: Value) returns (error: Error)
      ensures error == InvalidParameter
    {
      error := InvalidParameter;
    }

    function AttributeCount(): (n: nat)
      ensures n == ATTRIBUTE_COUNT
    {
      9
    }

    function MethodCount(): (n: nat)
      ensures n == METHOD_COUNT
    {
      4
    }
  }
}
