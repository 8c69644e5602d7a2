/**
 * Reading the association view the server returns (GXDLMSClient
 * ParseObjects, ParseLNObjects, ParseSNObjects, ParseColumns): an array tag,
 * an element count, then one 4-item structure per object. The decoder of
 * each structure is the foreign GXCommon.GetData; what the walks add is the
 * tag and arity checks, the loop bounds and the filtering of entries.
 */
module AssociationView {
  import opened DlmsTypes
  import opened ClientRules

  /** What the walk has built when it stops: the objects kept, the entries read and the index reached. */
  datatype WalkEnd = WalkEnd(items: seq<CosemObject>, processed: nat, index: nat)

  /** How one decoded entry becomes an object: Nothing when the entry is skipped. */
  type EntryHandler = seq<Value> -> Result<Option<CosemObject>>

  /**
   * Decodes the structure at `index`. The foreign decoder must move forward
   * inside the buffer; a result that does not is read as a decoding error,
   * as GetData throws when it runs past the end of the buffer. A null result
   * passes the cast to object[]: index -1 is still reported first, and
   * reading its length fails otherwise.
   */
  function DecodeEntry(getData: (seq<byte>, nat, DataType, int) -> Decoded, buff: seq<byte>, index: nat): (r: Result<(seq<Value>, nat)>)
    ensures r.Ok? ==> |r.value.0| == 4 && index < r.value.1 <= |buff|
    ensures var d := getData(buff, index, None, 0);
      r.Ok? <==> d.Decoded? && d.value.Items? && |d.value.items| == 4 && index < d.next <= |buff|
    ensures var d := getData(buff, index, None, 0);
      r.Ok? ==> r.value == (d.value.items, d.next)
    ensures getData(buff, index, None, 0).DecodeFailed? ==> r == Err(DecodeError)
    ensures var d := getData(buff, index, None, 0);
      d.Decoded? && !d.value.Items? && !d.value.Null? ==> r == Err(InvalidCast)
    ensures var d := getData(buff, index, None, 0);
      d.Decoded? && (d.value.Items? || d.value.Null?) && d.next == -1 ==> r == Err(OutOfMemory)
    ensures var d := getData(buff, index, None, 0);
      d.Decoded? && d.value.Null? && d.next != -1 ==> r == Err(NullReference)
    ensures var d := getData(buff, index, None, 0);
      (d.Decoded? && d.value.Items? && index < d.next <= |buff|
       && |d.value.items| != 4) ==> r == Err(InvalidStructure)
  {
    match getData(buff, index, None, 0)
    case DecodeFailed(_) => Err(DecodeError)
    case Decoded(v, next, _, _, _, _) =>
      if !v.Items? && !v.Null? then Err(InvalidCast)
      else if next == -1 then Err(OutOfMemory)
      else if v.Null? then Err(NullReference)
      else if next <= index || next > |buff| then Err(DecodeError)
      else if |v.items| != 4 then Err(InvalidStructure)
      else Ok((v.items, next))
  }

  /**
   * The walk of ParseLNObjects and ParseColumns: it reads entries while the
   * end of the buffer is not reached and fewer than the declared count have
   * been read ("some meters give wrong item count").
   */
  function CountedWalk(getData: (seq<byte>, nat, DataType, int) -> Decoded, handle: EntryHandler,
                       buff: seq<byte>, index: nat, count: nat, done: nat, items: seq<CosemObject>): Result<WalkEnd>
    requires index <= |buff|
    decreases |buff| - index
  {
    if index == |buff| || count == done then Ok(WalkEnd(items, done, index))
    else
      var (objects, next) :- DecodeEntry(getData, buff, index);
      var kept :- handle(objects);
      CountedWalk(getData, handle, buff, next, count, done + 1, if kept.Some? then items + [kept.value] else items)
  }

  /** The walk of ParseSNObjects: exactly `count` entries, whatever the buffer length. */
  function ExactWalk(getData: (seq<byte>, nat, DataType, int) -> Decoded, handle: EntryHandler,
                     buff: seq<byte>, index: nat, count: nat, done: nat, items: seq<CosemObject>): Result<WalkEnd>
    requires index <= |buff| && done <= count
    decreases count - done
  {
    if done == count then Ok(WalkEnd(items, done, index))
    else
      var (objects, next) :- DecodeEntry(getData, buff, index);
      var kept :- handle(objects);
      ExactWalk(getData, handle, buff, next, count, done + 1, if kept.Some? then items + [kept.value] else items)
  }

  /**
   * The counted walk stops at the declared count or at the end of the
   * buffer, whichever comes first, never reads more entries than declared,
   * and keeps at most one object per entry read.
   */
  lemma {:induction false} CountedWalkStops(getData: (seq<byte>, nat, DataType, int) -> Decoded, handle: EntryHandler,
                                            buff: seq<byte>, index: nat, count: nat, done: nat, items: seq<CosemObject>)
    requires index <= |buff| && done <= count && |items| <= done
    ensures var r := CountedWalk(getData, handle, buff, index, count, done, items);
      r.Ok? ==> && (r.value.processed == count || r.value.index == |buff|)
                && done <= r.value.processed <= count
                && |items| <= |r.value.items| <= r.value.processed
                && r.value.items[..|items|] == items
    decreases |buff| - index
  {
    if index != |buff| && count != done {
      var e := DecodeEntry(getData, buff, index);
      if e.Ok? {
        var (objects, next) := e.value;
        var kept := handle(objects);
        if kept.Ok? {
          var items' := if kept.value.Some? then items + [kept.value.value] else items;
          CountedWalkStops(getData, handle, buff, next, count, done + 1, items');
          var r := CountedWalk(getData, handle, buff, next, count, done + 1, items');
          if r.Ok? {
            assert r.value.items[..|items'|] == items';
            assert items'[..|items|] == items;
          }
        }
      }
    }
  }

  /** The exact walk reads exactly the declared number of entries when it succeeds. */
  lemma {:induction false} ExactWalkReadsCount(getData: (seq<byte>, nat, DataType, int) -> Decoded, handle: EntryHandler,
                                               buff: seq<byte>, index: nat, count: nat, done: nat, items: seq<CosemObject>)
    requires index <= |buff| && done <= count && |items| <= done
    ensures var r := ExactWalk(getData, handle, buff, index, count, done, items);
      r.Ok? ==> r.value.processed == count && |items| <= |r.value.items| <= count && r.value.items[..|items|] == items
    decreases count - done
  {
    if done != count {
      var e := DecodeEntry(getData, buff, index);
      if e.Ok? {
        var (objects, next) := e.value;
        var kept := handle(objects);
        if kept.Ok? {
          var items' := if kept.value.Some? then items + [kept.value.value] else items;
          ExactWalkReadsCount(getData, handle, buff, next, count, done + 1, items');
          var r := ExactWalk(getData, handle, buff, next, count, done + 1, items');
          if r.Ok? {
            assert r.value.items[..|items'|] == items';
            assert items'[..|items|] == items;
          }
        }
      }
    }
  }

  /** A walk whose handler keeps every entry keeps one object per entry read. */
  lemma {:induction false} CountedWalkKeepsAll(getData: (seq<byte>, nat, DataType, int) -> Decoded, handle: EntryHandler,
                                               buff: seq<byte>, index: nat, count: nat, done: nat, items: seq<CosemObject>)
    requires index <= |buff| && |items| == done
    requires forall objects: seq<Value> :: handle(objects).Ok? ==> handle(objects).value.Some?
    ensures var r := CountedWalk(getData, handle, buff, index, count, done, items);
      r.Ok? ==> |r.value.items| == r.value.processed
    decreases |buff| - index
  {
    if index != |buff| && count != done {
      var e := DecodeEntry(getData, buff, index);
      if e.Ok? {
        var (objects, next) := e.value;
        var kept := handle(objects);
        if kept.Ok? {
          CountedWalkKeepsAll(getData, handle, buff, next, count, done + 1, items + [kept.value.value]);
        }
      }
    }
  }

  /** Every object a walk keeps satisfies what its handler guarantees of the objects it returns. */
  lemma {:induction false} CountedWalkAll(getData: (seq<byte>, nat, DataType, int) -> Decoded, handle: EntryHandler,
                                          p: CosemObject -> bool,
                                          buff: seq<byte>, index: nat, count: nat, done: nat, items: seq<CosemObject>)
    requires index <= |buff|
    requires forall objects: seq<Value> :: handle(objects).Ok? && handle(objects).value.Some? ==> p(handle(objects).value.value)
    requires forall k :: 0 <= k < |items| ==> p(items[k])
    ensures var r := CountedWalk(getData, handle, buff, index, count, done, items);
      r.Ok? ==> forall k :: 0 <= k < |r.value.items| ==> p(r.value.items[k])
    decreases |buff| - index
  {
    if index != |buff| && count != done {
      var e := DecodeEntry(getData, buff, index);
      if e.Ok? {
        var (objects, next) := e.value;
        var kept := handle(objects);
        if kept.Ok? {
          if kept.value.Some? {
            assert p(kept.value.value);
          }
          var items' := if kept.value.Some? then items + [kept.value.value] else items;
          assert forall k :: 0 <= k < |items'| ==> p(items'[k]);
          assert CountedWalk(getData, handle, buff, index, count, done, items) == CountedWalk(getData, handle, buff, next, count, done + 1, items');
          CountedWalkAll(getData, handle, p, buff, next, count, done + 1, items');
        }
      }
    }
  }

  lemma {:induction false} ExactWalkAll(getData: (seq<byte>, nat, DataType, int) -> Decoded, handle: EntryHandler,
                                        p: CosemObject -> bool,
                                        buff: seq<byte>, index: nat, count: nat, done: nat, items: seq<CosemObject>)
    requires index <= |buff| && done <= count
    requires forall objects: seq<Value> :: handle(objects).Ok? && handle(objects).value.Some? ==> p(handle(objects).value.value)
    requires forall k :: 0 <= k < |items| ==> p(items[k])
    ensures var r := ExactWalk(getData, handle, buff, index, count, done, items);
      r.Ok? ==> forall k :: 0 <= k < |r.value.items| ==> p(r.value.items[k])
    decreases count - done
  {
    if done != count {
      var e := DecodeEntry(getData, buff, index);
      if e.Ok? {
        var (objects, next) := e.value;
        var kept := handle(objects);
        if kept.Ok? {
          var items' := if kept.value.Some? then items + [kept.value.value] else items;
          assert forall k :: 0 <= k < |items'| ==> p(items'[k]);
          assert ExactWalk(getData, handle, buff, index, count, done, items) == ExactWalk(getData, handle, buff, next, count, done + 1, items');
          ExactWalkAll(getData, handle, p, buff, next, count, done + 1, items');
        }
      }
    }
  }

  /** The entries a counted walk decodes, in order, whatever is made of them. */
  function CountedEntries(getData: (seq<byte>, nat, DataType, int) -> Decoded, buff: seq<byte>,
                          index: nat, count: nat, done: nat): Result<seq<seq<Value>>>
    requires index <= |buff|
    decreases |buff| - index
  {
    if index == |buff| || count == done then Ok([])
    else
      var (objects, next) :- DecodeEntry(getData, buff, index);
      var rest :- CountedEntries(getData, buff, next, count, done + 1);
      Ok([objects] + rest)
  }

  /** The entries an exact walk decodes, in order, whatever is made of them. */
  function ExactEntries(getData: (seq<byte>, nat, DataType, int) -> Decoded, buff: seq<byte>,
                        index: nat, count: nat, done: nat): Result<seq<seq<Value>>>
    requires index <= |buff| && done <= count
    decreases count - done
  {
    if done == count then Ok([])
    else
      var (objects, next) :- DecodeEntry(getData, buff, index);
      var rest :- ExactEntries(getData, buff, next, count, done + 1);
      Ok([objects] + rest)
  }

  /** What a handler makes of a list of entries: the objects it keeps, in order, or its first refusal. */
  function Handled(handle: EntryHandler, entries: seq<seq<Value>>): Result<seq<CosemObject>>
    decreases |entries|
  {
    if entries == [] then Ok([])
    else
      var kept :- handle(entries[0]);
      var rest :- Handled(handle, entries[1..]);
      Ok((if kept.Some? then [kept.value] else []) + rest)
  }

  /** The entries a predicate selects, in order. */
  function Selected(keep: seq<Value> -> bool, entries: seq<seq<Value>>): seq<seq<Value>>
    decreases |entries|
  {
    if entries == [] then []
    else (if keep(entries[0]) then [entries[0]] else []) + Selected(keep, entries[1..])
  }

  /**
   * The counted walk decodes its entries and hands each to the handler: it
   * succeeds exactly when every entry decodes and is handled, and then
   * holds what the handler makes of the entries, in order.
   */
  lemma {:induction false} CountedWalkHandles(getData: (seq<byte>, nat, DataType, int) -> Decoded, handle: EntryHandler,
                                              buff: seq<byte>, index: nat, count: nat, done: nat, items: seq<CosemObject>)
    requires index <= |buff|
    ensures var w := CountedWalk(getData, handle, buff, index, count, done, items);
      var es := CountedEntries(getData, buff, index, count, done);
      && (w.Ok? <==> es.Ok? && Handled(handle, es.value).Ok?)
      && (w.Ok? ==> w.value.items == items + Handled(handle, es.value).value && w.value.processed == done + |es.value|)
    decreases |buff| - index
  {
    if index != |buff| && count != done {
      var e := DecodeEntry(getData, buff, index);
      if e.Ok? {
        var (objects, next) := e.value;
        var rest := CountedEntries(getData, buff, next, count, done + 1);
        if rest.Ok? {
          var es := [objects] + rest.value;
          assert es[0] == objects && es[1..] == rest.value;
          assert CountedEntries(getData, buff, index, count, done) == Ok(es);
        }
        var kept := handle(objects);
        if kept.Ok? {
          var front := if kept.value.Some? then [kept.value.value] else [];
          var items' := if kept.value.Some? then items + [kept.value.value] else items;
          assert items' == items + front;
          assert CountedWalk(getData, handle, buff, index, count, done, items) == CountedWalk(getData, handle, buff, next, count, done + 1, items');
          CountedWalkHandles(getData, handle, buff, next, count, done + 1, items');
          if rest.Ok? && Handled(handle, rest.value).Ok? {
            assert Handled(handle, [objects] + rest.value) == Ok(front + Handled(handle, rest.value).value);
            assert items + (front + Handled(handle, rest.value).value) == (items + front) + Handled(handle, rest.value).value;
          }
        }
      }
    }
  }

  /** The same for the exact walk. */
  lemma {:induction false} ExactWalkHandles(getData: (seq<byte>, nat, DataType, int) -> Decoded, handle: EntryHandler,
                                            buff: seq<byte>, index: nat, count: nat, done: nat, items: seq<CosemObject>)
    requires index <= |buff| && done <= count
    ensures var w := ExactWalk(getData, handle, buff, index, count, done, items);
      var es := ExactEntries(getData, buff, index, count, done);
      && (w.Ok? <==> es.Ok? && Handled(handle, es.value).Ok?)
      && (w.Ok? ==> w.value.items == items + Handled(handle, es.value).value && done + |es.value| == count)
    decreases count - done
  {
    if done != count {
      var e := DecodeEntry(getData, buff, index);
      if e.Ok? {
        var (objects, next) := e.value;
        var rest := ExactEntries(getData, buff, next, count, done + 1);
        if rest.Ok? {
          var es := [objects] + rest.value;
          assert es[0] == objects && es[1..] == rest.value;
          assert ExactEntries(getData, buff, index, count, done) == Ok(es);
        }
        var kept := handle(objects);
        if kept.Ok? {
          var front := if kept.value.Some? then [kept.value.value] else [];
          var items' := if kept.value.Some? then items + [kept.value.value] else items;
          assert items' == items + front;
          assert ExactWalk(getData, handle, buff, index, count, done, items) == ExactWalk(getData, handle, buff, next, count, done + 1, items');
          ExactWalkHandles(getData, handle, buff, next, count, done + 1, items');
          if rest.Ok? && Handled(handle, rest.value).Ok? {
            assert Handled(handle, [objects] + rest.value) == Ok(front + Handled(handle, rest.value).value);
            assert items + (front + Handled(handle, rest.value).value) == (items + front) + Handled(handle, rest.value).value;
          }
        }
      }
    }
  }

  /**
   * A handler that keeps exactly the entries `keep` selects makes one
   * object of each selected entry, in order: the k-th object comes from the
   * k-th selected entry.
   */
  lemma {:induction false} HandledSelects(handle: EntryHandler, keep: seq<Value> -> bool, entries: seq<seq<Value>>)
    requires forall objects: seq<Value> :: handle(objects).Ok? ==> (handle(objects).value.Some? <==> keep(objects))
    ensures var h := Handled(handle, entries);
      var s := Selected(keep, entries);
      h.Ok? ==> |h.value| == |s| && forall k :: 0 <= k < |s| ==> handle(s[k]) == Ok(Some(h.value[k]))
    decreases |entries|
  {
    if entries != [] {
      HandledSelects(handle, keep, entries[1..]);
      var h := Handled(handle, entries);
      if h.Ok? {
        var kept := handle(entries[0]).value;
        var rest := Handled(handle, entries[1..]).value;
        var s' := Selected(keep, entries[1..]);
        var s := Selected(keep, entries);
        if kept.Some? {
          assert h.value == [kept.value] + rest;
          assert s == [entries[0]] + s';
          forall k | 0 <= k < |s|
            ensures handle(s[k]) == Ok(Some(h.value[k]))
          {
            if k > 0 {
              assert s[k] == s'[k - 1] && h.value[k] == rest[k - 1];
            }
          }
        } else {
          assert h.value == rest;
          assert s == s';
        }
      }
    }
  }

  /** A counted walk whose handler keeps what `keep` selects holds one object per selected entry, in order. */
  lemma CountedWalkSelects(getData: (seq<byte>, nat, DataType, int) -> Decoded, handle: EntryHandler, keep: seq<Value> -> bool,
                           buff: seq<byte>, start: nat, count: nat)
    requires start <= |buff|
    requires forall objects: seq<Value> :: handle(objects).Ok? ==> (handle(objects).value.Some? <==> keep(objects))
    ensures var w := CountedWalk(getData, handle, buff, start, count, 0, []);
      var es := CountedEntries(getData, buff, start, count, 0);
      w.Ok? ==> && es.Ok? && |es.value| == w.value.processed
                && var s := Selected(keep, es.value);
                   |w.value.items| == |s| && forall k :: 0 <= k < |s| ==> handle(s[k]) == Ok(Some(w.value.items[k]))
  {
    CountedWalkHandles(getData, handle, buff, start, count, 0, []);
    var es := CountedEntries(getData, buff, start, count, 0);
    if es.Ok? {
      HandledSelects(handle, keep, es.value);
      if Handled(handle, es.value).Ok? {
        assert [] + Handled(handle, es.value).value == Handled(handle, es.value).value;
      }
    }
  }

  /** An exact walk whose handler keeps what `keep` selects holds one object per selected entry, in order. */
  lemma ExactWalkSelects(getData: (seq<byte>, nat, DataType, int) -> Decoded, handle: EntryHandler, keep: seq<Value> -> bool,
                         buff: seq<byte>, start: nat, count: nat)
    requires start <= |buff|
    requires forall objects: seq<Value> :: handle(objects).Ok? ==> (handle(objects).value.Some? <==> keep(objects))
    ensures var w := ExactWalk(getData, handle, buff, start, count, 0, []);
      var es := ExactEntries(getData, buff, start, count, 0);
      w.Ok? ==> && es.Ok? && |es.value| == count
                && var s := Selected(keep, es.value);
                   |w.value.items| == |s| && forall k :: 0 <= k < |s| ==> handle(s[k]) == Ok(Some(w.value.items[k]))
  {
    ExactWalkHandles(getData, handle, buff, start, count, 0, []);
    var es := ExactEntries(getData, buff, start, count, 0);
    if es.Ok? {
      HandledSelects(handle, keep, es.value);
      if Handled(handle, es.value).Ok? {
        assert [] + Handled(handle, es.value).value == Handled(handle, es.value).value;
      }
    }
  }

  /** The loop of ParseLNObjects / ParseColumns, proved to run the counted walk. */
  method WalkCounted(getData: (seq<byte>, nat, DataType, int) -> Decoded, handle: EntryHandler,
                     buff: seq<byte>, start: nat, count: nat) returns (r: Result<WalkEnd>)
    requires start <= |buff|
    ensures r == CountedWalk(getData, handle, buff, start, count, 0, [])
  {
    var index: nat := start;
    var objectCnt: nat := 0;
    var items: seq<CosemObject> := [];
    while index != |buff| && count != objectCnt
      invariant index <= |buff|
      invariant CountedWalk(getData, handle, buff, index, count, objectCnt, items) == CountedWalk(getData, handle, buff, start, count, 0, [])
      decreases |buff| - index
    {
      var e := DecodeEntry(getData, buff, index);
      if e.Err? {
        return Err(e.error);
      }
      var (objects, next) := e.value;
      objectCnt := objectCnt + 1;
      var kept := handle(objects);
      if kept.Err? {
        return Err(kept.error);
      }
      if kept.value.Some? {
        items := items + [kept.value.value];
      }
      index := next;
    }
    r := Ok(WalkEnd(items, objectCnt, index));
  }

  /** The loop of ParseSNObjects, proved to run the exact walk. */
  method WalkExact(getData: (seq<byte>, nat, DataType, int) -> Decoded, handle: EntryHandler,
                   buff: seq<byte>, start: nat, count: nat) returns (r: Result<WalkEnd>)
    requires start <= |buff|
    ensures r == ExactWalk(getData, handle, buff, start, count, 0, [])
  {
    var index: nat := start;
    var objPos: nat := 0;
    var items: seq<CosemObject> := [];
    while objPos != count
      invariant index <= |buff| && objPos <= count
      invariant ExactWalk(getData, handle, buff, index, count, objPos, items) == ExactWalk(getData, handle, buff, start, count, 0, [])
      decreases count - objPos
    {
      var e := DecodeEntry(getData, buff, index);
      if e.Err? {
        return Err(e.error);
      }
      var (objects, next) := e.value;
      var kept := handle(objects);
      if kept.Err? {
        return Err(kept.error);
      }
      if kept.value.Some? {
        items := items + [kept.value.value];
      }
      index := next;
      objPos := objPos + 1;
    }
    r := Ok(WalkEnd(items, objPos, index));
  }

  /** The array header: tag 0x01 at index 0, then the element count; the index after it. */
  function ArrayHeader(codec: Codec, buff: seq<byte>): (r: Result<(nat, nat)>)
    ensures r.Ok? ==> |buff| >= 1 && buff[0] == 0x01 && r.value.1 <= |buff|
    ensures |buff| >= 1 && buff[0] != 0x01 ==> r == Err(InvalidResponse)
  {
    if |buff| == 0 then Err(IndexOutOfRange)
    else if buff[0] != 0x01 then Err(InvalidResponse)
    else match codec.getObjectCount(buff, 1)
      case Nothing => Err(DecodeError)
      case Some((count, next)) => if next > |buff| then Err(DecodeError) else Ok((count, next))
  }

  /** CreateDLMSObject: a fresh object of the class from the factory, filled by UpdateObjectData. */
  function CreateDlmsObject(codec: Codec, classId: int, version: Value, baseName: Value, logicalName: Value,
                            accessRights: Value, attributeIndex: int, dataIndex: int): (r: Result<CosemObject>)
    ensures r.Ok? ==> r.value.objectType == classId
  {
    UpdateObjectData(codec.createObject(classId), classId, version, baseName, logicalName, accessRights,
                     attributeIndex, dataIndex, codec.toLogicalName)
  }

  /**
   * An entry {class_id, version, logical_name, access_rights} of the
   * logical-name view. The class converts to an Int16 (null is class 0);
   * with filtering only known classes are kept, and a kept entry becomes
   * the object CreateDLMSObject makes of it.
   */
  function LnEntry(codec: Codec, onlyKnownObjects: bool, knownTypes: set<int>, objects: seq<Value>): (r: Result<Option<CosemObject>>)
    requires |objects| == 4
    ensures r.Ok? ==> Fits(objects[0], INT16_MIN, INT16_MAX)
    ensures r.Ok? ==> (r.value.Some? <==> !onlyKnownObjects || IntOf(objects[0]) in knownTypes)
    ensures r.Ok? && r.value.Some? ==> r.value.value.objectType == IntOf(objects[0])
    ensures Fits(objects[0], INT16_MIN, INT16_MAX) && onlyKnownObjects && IntOf(objects[0]) !in knownTypes ==> r == Ok(Nothing)
    ensures Fits(objects[0], INT16_MIN, INT16_MAX) && (!onlyKnownObjects || IntOf(objects[0]) in knownTypes) ==>
      var c := CreateDlmsObject(codec, IntOf(objects[0]), objects[1], Int(0), objects[2], objects[3], 0, 0);
      c.Ok? ==> r == Ok(Some(c.value))
  {
    var classId :- ToInteger(objects[0], INT16_MIN, INT16_MAX);
    if !onlyKnownObjects || classId in knownTypes then
      var obj :- CreateDlmsObject(codec, classId, objects[1], Int(0), objects[2], objects[3], 0, 0);
      Ok(Some(obj))
    else Ok(Nothing)
  }

  /**
   * An entry {base_name, class_id, version, logical_name} of the short-name
   * view. The class converts to an Int16 and the name to an Int32 (null is
   * 0); an entry is kept exactly when its class is known or unfiltered and
   * the low 16 bits of its name are not 0, and then becomes the object
   * CreateDLMSObject makes of it.
   */
  function SnEntry(codec: Codec, onlyKnownObjects: bool, knownTypes: set<int>, objects: seq<Value>): (r: Result<Option<CosemObject>>)
    requires |objects| == 4
    ensures r.Ok? ==> Fits(objects[1], INT16_MIN, INT16_MAX)
    ensures r.Ok? ==> (r.value.Some? <==> (!onlyKnownObjects || IntOf(objects[1]) in knownTypes) && IntOf(objects[0]) % 0x1_0000 != 0)
    ensures r.Ok? && r.value.Some? ==> objects[0].Int? && r.value.value.shortName == objects[0].i % 0x1_0000
    ensures r.Ok? && r.value.Some? ==> r.value.value.objectType == IntOf(objects[1])
    ensures Fits(objects[1], INT16_MIN, INT16_MAX) && onlyKnownObjects && IntOf(objects[1]) !in knownTypes ==> r == Ok(Nothing)
    ensures (Fits(objects[1], INT16_MIN, INT16_MAX) && (!onlyKnownObjects || IntOf(objects[1]) in knownTypes)
             && Fits(objects[0], INT32_MIN, INT32_MAX) && IntOf(objects[0]) % 0x1_0000 == 0) ==> r == Ok(Nothing)
    ensures (Fits(objects[1], INT16_MIN, INT16_MAX) && (!onlyKnownObjects || IntOf(objects[1]) in knownTypes)
             && Fits(objects[0], INT32_MIN, INT32_MAX) && IntOf(objects[0]) % 0x1_0000 != 0) ==>
      var c := CreateDlmsObject(codec, IntOf(objects[1]), objects[2], Int(IntOf(objects[0]) % 0x1_0000), objects[3], Null, 0, 0);
      c.Ok? ==> r == Ok(Some(c.value))
  {
    var classId :- ToInteger(objects[1], INT16_MIN, INT16_MAX);
    if !onlyKnownObjects || classId in knownTypes then
      var name :- ToInteger(objects[0], INT32_MIN, INT32_MAX);
      var baseName := name % 0x1_0000;
      if baseName > 0 then
        var obj :- CreateDlmsObject(codec, classId, objects[2], Int(baseName), objects[3], Null, 0, 0);
        Ok(Some(obj))
      else Ok(Nothing)
    else Ok(Nothing)
  }

  /**
   * An entry {class_id, logical_name, attribute_index, data_index} of a
   * profile's capture columns: every entry becomes an object of its class
   * selecting its attribute and data index (each an Int16, null being 0).
   */
  function ColumnEntry(codec: Codec, objects: seq<Value>): (r: Result<Option<CosemObject>>)
    requires |objects| == 4
    ensures r.Ok? ==> r.value.Some?
    ensures r.Ok? ==> Fits(objects[0], INT16_MIN, INT16_MAX) && Fits(objects[2], INT16_MIN, INT16_MAX) && Fits(objects[3], INT16_MIN, INT16_MAX)
    ensures r.Ok? ==> r.value.value.objectType == IntOf(objects[0])
    ensures r.Ok? ==> r.value.value.selectedAttributeIndex == IntOf(objects[2]) && r.value.value.selectedDataIndex == IntOf(objects[3])
    ensures (Fits(objects[0], INT16_MIN, INT16_MAX) && Fits(objects[2], INT16_MIN, INT16_MAX) && Fits(objects[3], INT16_MIN, INT16_MAX)
             && CreateDlmsObject(codec, IntOf(objects[0]), Null, Int(0), objects[1], Int(0), IntOf(objects[2]), IntOf(objects[3])).Ok?) ==> r.Ok?
  {
    var classId :- ToInteger(objects[0], INT16_MIN, INT16_MAX);
    var attributeIndex :- ToInteger(objects[2], INT16_MIN, INT16_MAX);
    var dataIndex :- ToInteger(objects[3], INT16_MIN, INT16_MAX);
    var obj :- CreateDlmsObject(codec, classId, Null, Int(0), objects[1], Int(0), attributeIndex, dataIndex);
    Ok(Some(obj))
  }

  function LnHandler(codec: Codec, onlyKnownObjects: bool, knownTypes: set<int>): EntryHandler
  {
    objects => if |objects| == 4 then LnEntry(codec, onlyKnownObjects, knownTypes, objects) else Err(InvalidStructure)
  }

  function SnHandler(codec: Codec, onlyKnownObjects: bool, knownTypes: set<int>): EntryHandler
  {
    objects => if |objects| == 4 then SnEntry(codec, onlyKnownObjects, knownTypes, objects) else Err(InvalidStructure)
  }

  function ColumnHandler(codec: Codec): EntryHandler
  {
    objects => if |objects| == 4 then ColumnEntry(codec, objects) else Err(InvalidStructure)
  }

  /** The logical-name entries a view keeps: the known classes when filtering, all of them otherwise. */
  function LnKeeps(onlyKnownObjects: bool, knownTypes: set<int>): seq<Value> -> bool
  {
    objects => |objects| == 4 && (!onlyKnownObjects || IntOf(objects[0]) in knownTypes)
  }

  /** The short-name entries a view keeps: known (or unfiltered) classes with a non-zero 16-bit base name. */
  function SnKeeps(onlyKnownObjects: bool, knownTypes: set<int>): seq<Value> -> bool
  {
    objects => |objects| == 4 && (!onlyKnownObjects || IntOf(objects[1]) in knownTypes) && IntOf(objects[0]) % 0x1_0000 != 0
  }

  /** The objects of a counted or exact walk, or its error. */
  function ItemsOf(w: Result<WalkEnd>): Result<seq<CosemObject>>
  {
    match w
    case Ok(e) => Ok(e.items)
    case Err(err) => Err(err)
  }

  /** The objects of a logical-name association view, or the error that stops reading it. */
  function LnObjects(codec: Codec, buff: seq<byte>, onlyKnownObjects: bool, knownTypes: set<int>): Result<seq<CosemObject>>
  {
    var (count, start) :- ArrayHeader(codec, buff);
    ItemsOf(CountedWalk(codec.getData, LnHandler(codec, onlyKnownObjects, knownTypes), buff, start, count, 0, []))
  }

  /** The objects of a short-name association view, or the error that stops reading it. */
  function SnObjects(codec: Codec, buff: seq<byte>, onlyKnownObjects: bool, knownTypes: set<int>): Result<seq<CosemObject>>
  {
    var (count, start) :- ArrayHeader(codec, buff);
    ItemsOf(ExactWalk(codec.getData, SnHandler(codec, onlyKnownObjects, knownTypes), buff, start, count, 0, []))
  }

  /** The capture columns of a profile, or the error that stops reading them. */
  function Columns(codec: Codec, buff: seq<byte>): Result<seq<CosemObject>>
  {
    var (count, start) :- ArrayHeader(codec, buff);
    ItemsOf(CountedWalk(codec.getData, ColumnHandler(codec), buff, start, count, 0, []))
  }

  /**
   * A logical-name view read without filtering holds one object per entry
   * read; entries are read up to the declared count or the end of the
   * reply, whichever comes first; with filtering, only classes the client
   * knows are kept. In every case the k-th object is what LnEntry makes of
   * the k-th entry LnKeeps selects, so every entry of a known class is kept.
   */
  lemma LnObjectsShape(codec: Codec, buff: seq<byte>, onlyKnownObjects: bool, knownTypes: set<int>)
    ensures var r := LnObjects(codec, buff, onlyKnownObjects, knownTypes);
      r.Ok? ==> (ArrayHeader(codec, buff).Ok? &&
        var (count, start) := ArrayHeader(codec, buff).value;
        var w := CountedWalk(codec.getData, LnHandler(codec, onlyKnownObjects, knownTypes), buff, start, count, 0, []);
        && w.Ok? && r.value == w.value.items
        && (w.value.processed == count || w.value.index == |buff|)
        && |r.value| <= w.value.processed <= count
        && (!onlyKnownObjects ==> |r.value| == w.value.processed)
        && (onlyKnownObjects ==> forall k :: 0 <= k < |r.value| ==> r.value[k].objectType in knownTypes)
        && var es := CountedEntries(codec.getData, buff, start, count, 0);
           && es.Ok? && |es.value| == w.value.processed
           && var s := Selected(LnKeeps(onlyKnownObjects, knownTypes), es.value);
              && |r.value| == |s|
              && forall k :: 0 <= k < |s| ==> |s[k]| == 4 && LnEntry(codec, onlyKnownObjects, knownTypes, s[k]) == Ok(Some(r.value[k])))
  {
    var header := ArrayHeader(codec, buff);
    if header.Ok? {
      var (count, start) := header.value;
      var handle := LnHandler(codec, onlyKnownObjects, knownTypes);
      var keep := LnKeeps(onlyKnownObjects, knownTypes);
      forall objects: seq<Value> | handle(objects).Ok?
        ensures handle(objects).value.Some? <==> keep(objects)
      {
      }
      CountedWalkSelects(codec.getData, handle, keep, buff, start, count);
      CountedWalkStops(codec.getData, handle, buff, start, count, 0, []);
      if !onlyKnownObjects {
        CountedWalkKeepsAll(codec.getData, handle, buff, start, count, 0, []);
      } else {
        CountedWalkAll(codec.getData, handle, (o: CosemObject) => o.objectType in knownTypes, buff, start, count, 0, []);
      }
    }
  }

  /**
   * A short-name view reads exactly the declared number of entries, and
   * every object it keeps has a non-zero 16-bit base name. The k-th object
   * is what SnEntry makes of the k-th entry SnKeeps selects, so every entry
   * of a known (or unfiltered) class with a non-zero base name is kept.
   */
  lemma SnObjectsShape(codec: Codec, buff: seq<byte>, onlyKnownObjects: bool, knownTypes: set<int>)
    ensures var r := SnObjects(codec, buff, onlyKnownObjects, knownTypes);
      r.Ok? ==> (ArrayHeader(codec, buff).Ok? &&
        var (count, start) := ArrayHeader(codec, buff).value;
        && |r.value| <= count
        && (forall k :: 0 <= k < |r.value| ==> 0 < r.value[k].shortName < 0x1_0000)
        && (onlyKnownObjects ==> forall k :: 0 <= k < |r.value| ==> r.value[k].objectType in knownTypes)
        && var es := ExactEntries(codec.getData, buff, start, count, 0);
           && es.Ok? && |es.value| == count
           && var s := Selected(SnKeeps(onlyKnownObjects, knownTypes), es.value);
              && |r.value| == |s|
              && forall k :: 0 <= k < |s| ==> |s[k]| == 4 && SnEntry(codec, onlyKnownObjects, knownTypes, s[k]) == Ok(Some(r.value[k])))
  {
    var header := ArrayHeader(codec, buff);
    if header.Ok? {
      var (count, start) := header.value;
      var handle := SnHandler(codec, onlyKnownObjects, knownTypes);
      var keep := SnKeeps(onlyKnownObjects, knownTypes);
      forall objects: seq<Value> | handle(objects).Ok?
        ensures handle(objects).value.Some? <==> keep(objects)
      {
      }
      ExactWalkSelects(codec.getData, handle, keep, buff, start, count);
      ExactWalkReadsCount(codec.getData, handle, buff, start, count, 0, []);
      ExactWalkAll(codec.getData, handle, (o: CosemObject) => 0 < o.shortName < 0x1_0000 && (onlyKnownObjects ==> o.objectType in knownTypes),
                   buff, start, count, 0, []);
    }
  }

  /** Every capture column read keeps the attribute and data index of its entry; one column per entry read. */
  lemma ColumnsShape(codec: Codec, buff: seq<byte>)
    ensures var r := Columns(codec, buff);
      r.Ok? ==> (ArrayHeader(codec, buff).Ok? &&
        var (count, start) := ArrayHeader(codec, buff).value;
        var w := CountedWalk(codec.getData, ColumnHandler(codec), buff, start, count, 0, []);
        && w.Ok? && r.value == w.value.items
        && |r.value| == w.value.processed <= count
        && (w.value.processed == count || w.value.index == |buff|))
  {
    var header := ArrayHeader(codec, buff);
    if header.Ok? {
      var (count, start) := header.value;
      CountedWalkStops(codec.getData, ColumnHandler(codec), buff, start, count, 0, []);
      CountedWalkKeepsAll(codec.getData, ColumnHandler(codec), buff, start, count, 0, []);
    }
  }

  /** ParseLNObjects: the array header, then the counted walk over logical-name entries. */
  method ParseLNObjects(codec: Codec, buff: seq<byte>, onlyKnownObjects: bool, knownTypes: set<int>)
    returns (r: Result<seq<CosemObject>>)
    ensures |buff| >= 1 && buff[0] != 0x01 ==> r == Err(InvalidResponse)
    ensures r == LnObjects(codec, buff, onlyKnownObjects, knownTypes)
  {
    var header := ArrayHeader(codec, buff);
    if header.Err? {
      return Err(header.error);
    }
    var (count, start) := header.value;
    var w := WalkCounted(codec.getData, LnHandler(codec, onlyKnownObjects, knownTypes), buff, start, count);
    r := ItemsOf(w);
  }

  /** ParseSNObjects: the array header, then exactly `count` short-name entries. */
  method ParseSNObjects(codec: Codec, buff: seq<byte>, onlyKnownObjects: bool, knownTypes: set<int>)
    returns (r: Result<seq<CosemObject>>)
    ensures |buff| >= 1 && buff[0] != 0x01 ==> r == Err(InvalidResponse)
    ensures r == SnObjects(codec, buff, onlyKnownObjects, knownTypes)
  {
    var header := ArrayHeader(codec, buff);
    if header.Err? {
      return Err(header.error);
    }
    var (count, start) := header.value;
    var w := WalkExact(codec.getData, SnHandler(codec, onlyKnownObjects, knownTypes), buff, start, count);
    r := ItemsOf(w);
  }

  /** ParseObjects: rejects a null or empty reply, then reads it by the referencing in use. */
  method ParseObjects(codec: Codec, data: Option<seq<byte>>, useLogicalNames: bool, onlyKnownObjects: bool, knownTypes: set<int>)
    returns (r: Result<seq<CosemObject>>)
    ensures data.Nothing? || data.value == [] ==> r == Err(InvalidParameter)
    ensures data.Some? && data.value != [] && data.value[0] != 0x01 ==> r == Err(InvalidResponse)
    ensures data.Some? && data.value != [] && useLogicalNames ==> r == LnObjects(codec, data.value, onlyKnownObjects, knownTypes)
    ensures data.Some? && data.value != [] && !useLogicalNames ==> r == SnObjects(codec, data.value, onlyKnownObjects, knownTypes)
  {
    if data.Nothing? || |data.value| == 0 {
      return Err(InvalidParameter);
    }
    if useLogicalNames {
      r := ParseLNObjects(codec, data.value, onlyKnownObjects, knownTypes);
    } else {
      r := ParseSNObjects(codec, data.value, onlyKnownObjects, knownTypes);
    }
  }

  /** ParseColumns: a null reply is an invalid parameter; otherwise the counted walk over column entries. */
  method ParseColumns(codec: Codec, data: Option<seq<byte>>) returns (r: Result<seq<CosemObject>>)
    ensures data.Nothing? ==> r == Err(InvalidParameter)
    ensures data.Some? && |data.value| >= 1 && data.value[0] != 0x01 ==> r == Err(InvalidResponse)
    ensures data.Some? ==> r == Columns(codec, data.value)
  {
    if data.Nothing? {
      return Err(InvalidParameter);
    }
    var header := ArrayHeader(codec, data.value);
    if header.Err? {
      return Err(header.error);
    }
    var (count, start) := header.value;
    var w := WalkCounted(codec.getData, ColumnHandler(codec), data.value, start, count);
    r := ItemsOf(w);
  }
}
