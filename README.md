# Gurux DLMS/COSEM client core, modelled in Dafny

The model covers three parts of the Gurux.DLMS.Net client library.

- **GXDLMSClient**, the client facade of a DLMS/COSEM (IEC 62056) meter-reading library. It:
  - shapes the requests a client sends: SNRM, AARQ, disconnect, Get/Read, Set/Write, Action/method and profile-row selectors;
  - checks the server's UA and AARE replies and keeps the session state they negotiate;
  - reads association views and profile capture columns into object descriptors;
  - serves reply values through a cache of partially parsed replies.
- **GXDLMSAssociationLogicalName** (interface class 15). Its attribute 2, the object list, is encoded as the association view and read back into objects.
- **GXDLMSData** (interface class 1).

Several collaborators' code is not part of this model:
- the protocol engine GXDLMS, the frame layer and the APDU coder;
- the A-XDR codec GXCommon;
- the name conversions of GXDLMSObject.

They appear as plain functions, and the model reasons about how the core uses their results:
- `DlmsTypes.Codec` holds GetData, GetObjectCount, SetData, SetObjectCount, the logical-name conversions and CreateObject.
- `DlmsClient.Engine` holds ClearProgress, ParseReplyData, GetValueType, GetActionInfo, GetDataFromFrame and the AARE decoder.

An outgoing request is modelled as the arguments the client hands to the engine's framing: `FrameRequest` and `MessageRequest`. C# `object` values are `DlmsTypes.Value`. An exception is an `Err` result carrying the error kind.

Files:

- `dlms_types.dfy`: values, data-type tags, object descriptors, the collaborator signatures and integer conversion.
- `text_render.dfy`: the dotted-decimal and hexadecimal renderings ChangeType produces, with their parsers and round trips.
- `hdlc_params.dfy`: the HDLC parameter negotiation fields of a UA frame, as a parser and an encoder.
- `client_rules.dfy`: the client's side-effect-free rules. These are access modes, address widths, method addresses, ChangeType, UpdateObjectData and the row selectors.
- `association_view.dfy`: ParseObjects (LN and SN views) and ParseColumns, as loops proved against recursive walks.
- `association_ln.dfy`: the Association LN object. It covers encoding the object list (GetObjects/GetAccessRights), reading it back (SetValue(2)/UpdateAccessRights) and the attribute accessors.
- `data_object.dfy`: the Data object.
- `client.dfy`: the client class, its session state and reply cache.

## Model

| member | source | states |
|---|---|---|
| ClientRules.AccessModeClassification | Development/GXDLMSClient.cs:52-60 | CanRead and CanWrite split the seven access modes. ReadWrite and its authenticated form allow both; Read/AuthenticatedRead only read; Write/AuthenticatedWrite only write; NoAccess and unnamed codes allow neither. |
| ClientRules.ToAddress | Development/GXDLMSClient.cs:161-207 | A width other than 1, 2 or 4 is refused. Otherwise the address is accepted iff the value is null or an integer that fits an unsigned integer of that width. An integer is kept unchanged and null becomes address 0, as Convert does. |
| DlmsClient.Client.SetServerID | Development/GXDLMSClient.cs:161-179 | Stores the server address that ToAddress accepts, so null stores address 0. On refusal it reports the error and keeps the old address. |
| DlmsClient.Client.SetClientID | Development/GXDLMSClient.cs:189-207 | Same as SetServerID, for the client address. |
| DlmsClient.Client.constructor | Development/GXDLMSClient.cs:67-71 | A new client has no authentication, short-name referencing, DLMS version 6, receive PDU size 0xFFFF and no association settings. |
| DlmsClient.Client.SNRMRequest | Development/GXDLMSClient.cs:469-479 | Resets the PDU size to 0xFFFF and clears the progress. Produces an empty SNRM frame iff the interface is not a network one. |
| HdlcParameters.SetLimit | Development/GXDLMSClient.cs:531-547 | A field id is accepted iff it is MaxInfoTX, MaxInfoRX, WindowSizeTX or WindowSizeRX. It sets exactly that limit. |
| HdlcParameters.BigEndianRoundTrip | Development/GXDLMSClient.cs:516-526 | A value written big-endian in n bytes reads back as itself (the byte-swapped UInt16/UInt32 of a field). |
| HdlcParameters.UaRoundTrip | Development/GXDLMSClient.cs:508-548 | An information field made of a 3-byte header and well-formed (id, length 1/2/4, value) fields parses without error. It sets every limit to the last value given for it. |
| HdlcParameters.ParseEncodedFields | Development/GXDLMSClient.cs:512-548 | The field loop applies each encoded field in order, from any start position. |
| HdlcParameters.BadLengthRejected | Development/GXDLMSClient.cs:515-528 | A field whose length is not 1, 2 or 4 stops parsing with InvalidResponse. The limits set by the fields before it stay set. |
| HdlcParameters.ParseWithBadTail | Development/GXDLMSClient.cs:512-548 | Same as BadLengthRejected, whatever follows the bad length byte. |
| DlmsClient.Client.ParseUAResponse | Development/GXDLMSClient.cs:488-549 | Each of the following refuses the reply and leaves the limits unchanged: an incomplete frame (NotEnoughData); a bad checksum (WrongChecksum); a non-UA frame outside network connections (NotUaResponse). Otherwise the loop's final limits and error equal ParseUaInfo of the information field. |
| DlmsClient.Client.AARQRequest | Development/GXDLMSClient.cs:563-588 | Proposes the LN conformance block 00 7E 1F or the SN block 1C 03 20, by the referencing in use. Keeps exactly one of the two settings and restarts both frame counters at -1. The request carries the authentication, password, version, PDU size and interface. |
| DlmsClient.Client.ParseAAREResponse | Development/GXDLMSClient.cs:612-669 | Frame errors and an undecodable AARE change nothing. Otherwise it adopts the server's referencing. A rejection reports result and diagnostic and sets nothing else. An acceptance stores the server's conformance block under that referencing, plus its PDU size and version. It succeeds iff that version is 6. |
| DlmsClient.Client.DisconnectedModeRequest | Development/GXDLMSClient.cs:675-689 | Clears the progress. Produces an empty DM frame iff an association exists and the interface is not a network one. |
| DlmsClient.Client.DisconnectRequest | Development/GXDLMSClient.cs:695-709 | Clears the progress. Produces a DISC frame iff an association exists. Its information field is empty on HDLC and 62 00 over a network. |
| DlmsClient.Prepared | Development/GXDLMSClient.cs:1052-1055 | The cache is cleared when it is off, and when it is on but the reply is shorter than the cached position; otherwise it is kept. |
| DlmsClient.ReplyValue | Development/GXDLMSClient.cs:1050-1065 | With the cache on, a reply of the cached size gives the cached value without decoding. Otherwise the reply is parsed (Index action with the cache on, None without). The value is whatever the parser cached, and a parser failure is the result, with the parser's error. |
| DlmsClient.CachedReplyStable | Development/GXDLMSClient.cs:1050-1065 | Serving a cached reply twice gives the same value and leaves the cache unchanged. |
| DlmsClient.Client.GetValue | Development/GXDLMSClient.cs:1050-1065 | Result and new cache state are those of ReplyValue. On a parser failure the cache is left as Prepared left it (see Left out). |
| DlmsClient.TryReplyValue | Development/GXDLMSClient.cs:1078-1117 | A reply of the cached size returns the cached value and empties the cache. Any other reply with the cache still full gives null. Otherwise the reply is decoded: the decoder's cache position is kept even on failure (null); with the cache on, the reply's counts are added and its size recorded. |
| DlmsClient.TryReplyHandsOutOnce | Development/GXDLMSClient.cs:1089-1101 | A cached value is handed out once: a second call on the same reply gives null and leaves the cache as the first call left it. |
| DlmsClient.Client.TryGetValue | Development/GXDLMSClient.cs:1078-1117 | Result and new cache state are those of TryReplyValue. |
| DlmsClient.ReplyDataType | Development/GXDLMSClient.cs:377-396 | With the cache on, a reply of the cached size or a cache in progress gives the cached type. With the cache on and nothing under way, the type the parser reports with the Index action. With the cache off, the type it reports with the Count action after clearing. A parser failure is the result in both parsing cases. |
| DlmsClient.CachedTypeStable | Development/GXDLMSClient.cs:380-391 | Once a reply is under way in the cache, its type does not depend on the parser, and asking again gives the same type and cache state. |
| DlmsClient.TypeThenValueAgree | Development/GXDLMSClient.cs:377-396 | With the cache on and no reply under way, GetDLMSDataType and GetValue parse the reply the same way: both succeed or fail together and leave the same cache state, and the value served is the data that parse cached. |
| DlmsClient.Client.GetDLMSDataType | Development/GXDLMSClient.cs:377-396 | Result and new cache state are those of ReplyDataType. On a parser failure the cache is left cleared (cache off) or untouched (cache on) (see Left out). |
| ClientRules.ChangeType | Development/GXDLMSClient.cs:1156-1195 | Null stays null. An untyped value becomes its hexadecimal text, which parses back to the same bytes. A typed value is decoded: a decoder failure gives DecodeError and an index of -1 gives OutOfMemory; an octet string becomes its dotted-decimal text, which parses back to its bytes; anything else is returned as decoded. |
| TextRender.DottedDecimalRoundTrip | Development/GXDLMSClient.cs:1174-1192 | The dotted-decimal text ChangeType gives an octet string parses back to exactly those bytes. |
| TextRender.HexTextRoundTrip | Development/GXDLMSClient.cs:1162-1165 | The text BitConverter gives after replacing '-' by ' ' has 3n-1 characters for n > 0 bytes and parses back to those bytes. |
| TextRender.SplitJoin | Development/GXDLMSClient.cs:1162-1192 | Splitting a join of separator-free parts at the separator gives the parts back. |
| TextRender.ReplaceJoin | Development/GXDLMSClient.cs:1164 | Replacing a separator that no part contains turns a join with it into a join with the replacement. |
| DlmsClient.Client.GetTypedValue | Development/GXDLMSClient.cs:1002-1011 | The reply value, passed through ChangeType when it is an octet string and the attribute declares a type (TypedValue). The cache state is that of ReplyValue, or Prepared on a parser failure (see Left out). |
| DlmsClient.Client.GetNamedValue | Development/GXDLMSClient.cs:1021-1042 | Attribute 1 gives the reply's octets as dotted decimal (null stays null; other values are InvalidCast). Other attributes give the reply value unchanged. |
| DlmsClient.Client.UpdateValue | Development/GXDLMSClient.cs:992-997 | On a Data target, writes the typed reply value (TypedValue) with SetValue and returns what GetValue then reads. Attribute 2 then holds the value and the result is the value. Attribute 1 then holds the value as text and the result is that name's octets. Another index is InvalidParameter after the reply is consumed. A reply or ChangeType failure is the result. In those last two cases the object is unchanged. The new cache state is that of ReplyValue, or Prepared on a parser failure (see Left out). |
| ClientRules.MethodWireIndex | Development/GXDLMSClient.cs:1254-1268 | Under logical names the index is unchanged. Under short names it is accepted iff it does not exceed the class's method count. |
| ClientRules.MethodWireIndexInverse | Development/GXDLMSClient.cs:1264 | A short-name method address is the class's base plus a multiple of 8, from which the index is recovered. |
| ClientRules.MethodWireIndexInjective | Development/GXDLMSClient.cs:1264 | Two methods of one object never share an address. |
| DlmsClient.Client.Method | Development/GXDLMSClient.cs:1247-1271 | A null name or an index below 1 is refused and changes nothing. Otherwise it clears the progress and encodes the parameter with its declared type, or the inferred one when none is declared. The request carries MethodWireIndex's address or its refusal. |
| DlmsClient.Client.Write | Development/GXDLMSClient.cs:1317-1331 | An index below 1 is refused and changes nothing. Otherwise it clears the progress and builds a Set (LN) or Write (SN) request with code 2, carrying the value encoded with the declared or inferred type. |
| DlmsClient.Client.Read | Development/GXDLMSClient.cs:1340-1349 | A negative ordinal is refused and changes nothing. Otherwise it builds a Get (LN) or Read (SN) request with code 2 and no data. |
| DlmsClient.Client.ReadItem | Development/GXDLMSClient.cs:1357-1366 | An ordinal below 1 is refused and changes nothing. Otherwise it builds a Get (LN) or Read (SN) request with code 2 and no data, for the object's class and name. |
| DlmsClient.Client.GetObjects | Development/GXDLMSClient.cs:1204-1216 | Clears the progress and reads, with access code 2 and no data, attribute 2 of class 15, named 0.0.40.0.0.255 under logical names and 0xFA00 under short names. |
| ClientRules.SelectorLayouts | Development/GXDLMSClient.cs:1393-1439 | The entry selector starts 02 02 04 (selector 2, a 4-item structure). The range selector starts 01 02 04 02 04 and ends with the empty column array 01 00. |
| DlmsClient.Client.ReadRowsByEntry | Development/GXDLMSClient.cs:1393-1405 | Clears the progress and reads attribute 2 of a Profile Generic object with access code 4 and the entry selector. |
| DlmsClient.Client.ReadRowsByRange | Development/GXDLMSClient.cs:1420-1439 | Clears the progress and reads attribute 2 of a Profile Generic object with access code 4 and the range selector. |
| ClientRules.UpdateObjectData | Development/GXDLMSClient.cs:827-865 | Fills a descriptor from an association-view entry: class, the access maps of EntryAccess, selected column, short name and version when given, logical name from its octets. A logical name that is neither octets nor null is InvalidCast before anything else, as CreateDLMSObject casts it first. It succeeds iff EntryAccess succeeds, a given short name fits a UInt16, a given version fits an Int32 and the logical name is octets. A null short name or version keeps the object's own. |
| ClientRules.EntryAccess | Development/GXDLMSClient.cs:830-852 | A value that is not an array leaves both access maps as they are, and a byte array is InvalidCast. An object array has its attribute pairs applied with ApplyAccessPairs; a null attribute list is NullReference. Its method pairs are applied only when the object has a short name; otherwise the method map is kept. Well-formed pairs always apply. |
| ClientRules.ApplyAccessPairs | Development/GXDLMSClient.cs:835-851 | Pairs are applied in order and no id already present is lost. A null pair is NullReference; a pair that is not an object array is InvalidCast. The id is converted before the mode is looked up: an empty pair is IndexOutOfRange, an id that does not convert gives its conversion error, and only then does a one-item pair give IndexOutOfRange. |
| ClientRules.ApplyAccessPairsStores | Development/GXDLMSClient.cs:835-851 | Applying well-formed access pairs stores, for every id mentioned, the mode of its last pair and keeps every other id. |
| ClientRules.StorePairsLastWins | Development/GXDLMSClient.cs:835-851 | When an id occurs twice, the later mode wins. |
| AssociationView.DecodeEntry | Development/GXDLMSClient.cs:919-927 | An entry is accepted only as a 4-item array decoded strictly forward within the reply. A result that is neither an array nor null is InvalidCast. After that, a decoder index of -1 is OutOfMemory, a null result is NullReference and another arity is InvalidStructure. |
| AssociationView.ArrayHeader | Development/GXDLMSClient.cs:895-903 | A reply not starting with the array tag 01 is InvalidResponse; otherwise the object count follows it. |
| AssociationView.CountedWalkStops | Development/GXDLMSClient.cs:915-939 | The LN/column walk ends when the declared count is read or the reply is used up, and keeps at most one object per entry read. |
| AssociationView.ExactWalkReadsCount | Development/GXDLMSClient.cs:783-813 | The SN walk reads exactly the declared number of entries. |
| AssociationView.CountedWalkKeepsAll | Development/GXDLMSClient.cs:915-939 | When no entry is filtered out, the walk keeps one object per entry read. |
| AssociationView.CountedWalkAll | Development/GXDLMSClient.cs:915-939 | Every object the counted walk keeps has any property every handled entry has. |
| AssociationView.ExactWalkAll | Development/GXDLMSClient.cs:783-813 | Same as CountedWalkAll, for the SN walk. |
| AssociationView.WalkCounted | Development/GXDLMSClient.cs:915-939 | The while loop computes CountedWalk. |
| AssociationView.WalkExact | Development/GXDLMSClient.cs:783-813 | The for loop computes ExactWalk. |
| AssociationView.CountedWalkHandles | Development/GXDLMSClient.cs:915-939 | The LN/column walk succeeds iff every entry it decodes is handled, and then holds what the handler makes of the decoded entries, in order. |
| AssociationView.ExactWalkHandles | Development/GXDLMSClient.cs:783-813 | Same as CountedWalkHandles, for the SN walk, which decodes exactly the declared count of entries. |
| AssociationView.HandledSelects | Development/GXDLMSClient.cs:928-937 | A handler that keeps exactly the entries a predicate selects makes the k-th object of the k-th selected entry. |
| AssociationView.CountedWalkSelects | Development/GXDLMSClient.cs:915-939 | A successful counted walk holds one object per selected entry, made by the handler from that entry, in order. |
| AssociationView.ExactWalkSelects | Development/GXDLMSClient.cs:783-813 | Same as CountedWalkSelects, for the SN walk. |
| AssociationView.LnEntry | Development/GXDLMSClient.cs:928-937 | The class converts to an Int16, and null is class 0. A handled entry is kept iff filtering is off or its class is known. A kept entry gives the object CreateDLMSObject makes of it, of that class, and an unknown class under filtering gives nothing. |
| AssociationView.SnEntry | Development/GXDLMSClient.cs:796-811 | The class converts to an Int16 and the name to an Int32, and null is 0. A handled entry is kept iff its class is known (or filtering is off) and the low 16 bits of its name are not 0. A kept entry gives the object CreateDLMSObject makes of it, of that class, with those 16 bits as short name. |
| AssociationView.ColumnEntry | Development/GXDLMSClient.cs:980-984 | Every column entry is kept as an object of its class with its attribute and data index. Each of those converts to an Int16, and null is 0. It succeeds whenever they convert and CreateDLMSObject succeeds. |
| AssociationView.CreateDlmsObject | Development/GXDLMSClient.cs:734-758 | The created descriptor has the requested class. |
| AssociationView.LnObjectsShape | Development/GXDLMSClient.cs:893-941 | An LN view reads entries up to the declared count or the end of the reply. It keeps one object per entry read when unfiltered, and only known classes when filtered. The k-th object is LnEntry of the k-th entry that is unfiltered or of a known class, so every such entry is kept, in order. |
| AssociationView.SnObjectsShape | Development/GXDLMSClient.cs:763-815 | An SN view reads exactly the declared count of entries. Every object has a base name in 1..0xFFFF, and with filtering a known class. The k-th object is SnEntry of the k-th entry with a known (or unfiltered) class and a non-zero base name, so every such entry is kept, in order. |
| AssociationView.ColumnsShape | Development/GXDLMSClient.cs:948-987 | Columns holds one object per entry read, up to the declared count or the end of the reply. |
| AssociationView.ParseLNObjects | Development/GXDLMSClient.cs:893-941 | A reply without the array tag is InvalidResponse. Otherwise the result is the counted walk over LN entries. |
| AssociationView.ParseSNObjects | Development/GXDLMSClient.cs:763-815 | A reply without the array tag is InvalidResponse. Otherwise the result is the exact walk over SN entries. |
| AssociationView.ParseObjects | Development/GXDLMSClient.cs:872-888 | A null or empty reply is InvalidParameter. Otherwise it is read as an LN or SN view by the referencing asked for. |
| DlmsClient.Client.ParseObjects | Development/GXDLMSClient.cs:872-888 | Same as AssociationView.ParseObjects, with the client's own referencing. |
| AssociationView.ParseColumns | Development/GXDLMSClient.cs:948-987 | A null reply is InvalidParameter. Otherwise the reply is read as capture columns. |
| AssociationLn.AppendAttributeItems | Development/Objects/GXDLMSAssociationLogicalName.cs:204-220 | The first loop appends one {id, mode, null} item per attribute 1..n of the class, in order, with Read for attributes that have no setting. |
| AssociationLn.AppendMethodItems | Development/Objects/GXDLMSAssociationLogicalName.cs:225-240 | The second loop appends one {id, mode} item per method 1..n of the class, in order, with NoAccess for methods that have no setting. |
| AssociationLn.GetAccessRights | Development/Objects/GXDLMSAssociationLogicalName.cs:196-241 | Appends the access_rights structure to the stream: one {id, mode, null} item per attribute of the class (Read when unset), then one {id, mode} per method (NoAccess when unset). |
| AssociationLn.AppendEntry | Development/Objects/GXDLMSAssociationLogicalName.cs:177-182 | Appends one object_list_element: class, version, logical name and access rights. |
| AssociationLn.AppendEntries | Development/Objects/GXDLMSAssociationLogicalName.cs:175-183 | The foreach appends the elements of the whole list, in order. |
| AssociationLn.ObjectListWithSelf | Development/Objects/GXDLMSAssociationLogicalName.cs:166-192 | With the association appended, the count includes it and its element comes last. |
| AssociationLn.AssociationLogicalName.GetObjects | Development/Objects/GXDLMSAssociationLogicalName.cs:163-194 | The reply is the array tag, the count, then the list's elements, with the association's own element added unless the list already holds it (corrected search class, see Findings). |
| AssociationLn.SelfListedTwiceAsWritten | Development/Objects/GXDLMSAssociationLogicalName.cs:167-174 | As written, the search looks for class 12, so an association listing itself appears twice. |
| AssociationLn.SelfListedOnce | Development/Objects/GXDLMSAssociationLogicalName.cs:167-192 | Searching for class 15, the association is always listed and is added iff it was not already listed; at most one element is added. |
| AssociationLn.StoreAccessPairs | Development/Objects/GXDLMSAssociationLogicalName.cs:245-256 | The foreach over access pairs computes ApplyAccessPairs. |
| AssociationLn.UpdateAccessRights | Development/Objects/GXDLMSAssociationLogicalName.cs:243-257 | Applies the attribute pairs then the method pairs, changing nothing else of the object. A malformed access_rights value is refused. |
| AssociationLn.AccessRightsApplied | Development/Objects/GXDLMSAssociationLogicalName.cs:243-257 | Only the access maps change, and every id they held stays present. A null access_rights value or a null attribute list is NullReference. |
| AssociationLn.ReadEntry | Development/Objects/GXDLMSAssociationLogicalName.cs:317-328 | An element gives the factory's object for its class id, with the version, the name converted from its octets and the access rights applied. Class and version convert to Int32, and null is 0. A null element is NullReference; an element that is not an object array is InvalidCast. |
| AssociationLn.ReadElement | Development/Objects/GXDLMSAssociationLogicalName.cs:317-328 | The loop body computes ReadEntry. |
| AssociationLn.EntryRoundTrip | Development/Objects/GXDLMSAssociationLogicalName.cs:175-257 | Reading back the element written for an object gives its version, its name through both conversions, and the access of every attribute and method of its class as stored (Read/NoAccess when unset). It gives its class too, when the factory creates objects of the class asked for. |
| AssociationLn.ReadEntriesAll | Development/Objects/GXDLMSAssociationLogicalName.cs:312-330 | An array of good elements gives one object per element, in order, and no error. This holds for any element reader, among them ReadEntry with the association's codec (`Reader`). |
| AssociationLn.ReadEntriesStops | Development/Objects/GXDLMSAssociationLogicalName.cs:312-330 | A bad element stops reading with its error and keeps exactly the objects before it. This holds for any element reader, among them ReadEntry. |
| AssociationLn.AssociationLogicalName.constructor | Development/Objects/GXDLMSAssociationLogicalName.cs:66-70 | A new association has the given name, an empty object list and unset attributes. |
| AssociationLn.AssociationLogicalName.Default | Development/Objects/GXDLMSAssociationLogicalName.cs:57-60 | The default association is named 0.0.40.0.0.255, with version 0, an empty object list, attributes 3-7 null, status non-associated, no security setup reference and empty access maps. |
| AssociationLn.AssociationLogicalName.GetValue | Development/Objects/GXDLMSAssociationLogicalName.cs:260-304 | Attributes 1 to 8 give their value and type, attribute 2 the object list reply. Every other index, 9 included, is InvalidParameter. |
| AssociationLn.AssociationLogicalName.SetValue | Development/Objects/GXDLMSAssociationLogicalName.cs:306-406 | Writes exactly one attribute. 1 and 9 take the value as text. 2 clears and refills the list, keeping the elements read before a failure. 3 to 8 are reset by null and otherwise unchanged. Other indexes are InvalidParameter. |
| AssociationLn.AssociationLogicalName.Invoke | Development/Objects/GXDLMSAssociationLogicalName.cs:145-148 | Always refused. |
| AssociationLn.AssociationLogicalName.AttributeCount | Development/Objects/GXDLMSAssociationLogicalName.cs:150-153 | 9 attributes. |
| AssociationLn.AssociationLogicalName.MethodCount | Development/Objects/GXDLMSAssociationLogicalName.cs:155-158 | 4 methods. |
| DataObject.ReadAttribute | Development/Objects/GXDLMSData.cs:112-125 | Succeeds iff the index is 1 or 2; otherwise InvalidParameter. Attribute 1 reads as the octets of the logical name (an octet string), attribute 2 as the value with no declared type. |
| DataObject.WriteAttribute | Development/Objects/GXDLMSData.cs:127-141 | Succeeds iff the index is 1 or 2; otherwise InvalidParameter. Attribute 1 takes the written value as text (Convert.ToString), attribute 2 the value itself. |
| DataObject.WriteThenRead | Development/Objects/GXDLMSData.cs:112-141 | Reading an attribute after writing it gives what was written: the value for attribute 2, the octets of the written value's text for attribute 1. The other attribute is unchanged. |
| DataObject.Data.constructor | Development/Objects/GXDLMSData.cs:60-63 | A Data object with the given name, short name 0 and a null value. |
| DataObject.Data.WithShortNameAsWritten | Development/Objects/GXDLMSData.cs:70-73 | As written, the short name argument is dropped (short name 0). |
| DataObject.Data.WithShortName | Development/Objects/GXDLMSData.cs:70-73 | The short name given is kept. |
| DataObject.Data.GetValue | Development/Objects/GXDLMSData.cs:112-125 | Computes ReadAttribute: the name octets for 1, the untyped value for 2. |
| DataObject.Data.SetValue | Development/Objects/GXDLMSData.cs:127-141 | Computes WriteAttribute and changes only the attribute written. A refused index changes nothing. |
| DataObject.Data.Invoke | Development/Objects/GXDLMSData.cs:97-100 | Always refused. |
| DataObject.Data.AttributeCount | Development/Objects/GXDLMSData.cs:102-105 | 2 attributes. |
| DataObject.Data.MethodCount | Development/Objects/GXDLMSData.cs:107-110 | No methods. |

## Left out

- Framing, HDLC addressing, block splitting, APDU (AARQ/AARE) coding and the A-XDR codec live in GXDLMS, GXAPDU and GXCommon. Those files are not part of this model; their results are function parameters (`Engine`, `Codec`).
- AARQRequest: the engine's CheckInit and the tag collection are not modelled, because their code is not part of this model.
- DlmsClient.Client.constructor: the defaults it states (version 6, PDU size 0xFFFF, short names) are the documented DefaultValue settings. The engine that holds them is not part of this model.
- DlmsClient.Client.UpdateValue: modelled for a Data target only. The other interface classes are not part of this model, and the declared attribute type is a parameter.
- GetValue(data, type, ln, index) is modelled without an OBIS code table (ObisCodes null). The table lookup, CreateDLMSObject's description copy and the debug logging are left out.
- ReadRowsByRange: start and end times are passed as values; DateTime encoding is the codec's.
- GetKeepAlive, ReceiverReady, IsReplyPacket, IsPreviousPacket, GetFrameNumber, IsDLMSPacketComplete, CheckReplyErrors, GetCurrentProgressStatus, GetMaxProgressStatus and GetDataFromPacket only forward to the engine, so they are left out.
- GetObjectTypes, CreateObject, GetUnit, GetAttributeInfo, GetPropertyInfo and Write(item, index) use reflection or lookup tables, so they are left out.
- Convert.ToInt32/ToInt16/ToByte of strings, booleans or floating-point values is modelled as InvalidCast. Null converts to 0 and integers convert within their range.
- AssociationView.DecodeEntry: a decoder result that does not move forward within the reply is read as DecodeError. The source loop would decode the same bytes again until the count is reached. GXCommon.GetData is not part of this model, and the walks need this to terminate.
- AssociationLn.EntryRoundTrip: starts from EntryValue, the decoded form of the element written by AppendEntry. That GXCommon.GetData decodes those bytes to it is taken as given, because the codec is not part of this model.
- AssociationLn.ReadEntry: the object's class is whatever the factory (GXDLMSClient.CreateObject) reports; EntryRoundTrip states the class only for a factory that creates the class asked for, as that code is not part of this model.
- A logical name that arrives as null rather than octets is refused (InvalidCast) where toLogicalName would be called, because what GXDLMSObject.toLogicalName does with null is not part of this model.
- DlmsClient.Client.GetValue, DlmsClient.Client.GetDLMSDataType, DlmsClient.Client.GetTypedValue, DlmsClient.Client.UpdateValue: a failed ParseReplyData is taken to leave the cache as Prepared left it, since the engine's parser is modelled as either a result with its new cache state or an error alone. What GXDLMS.ParseReplyData may have written to the cache before it threw is not part of this model.
- DlmsClient.Client.ReadItem: the object's Name (short or logical name by referencing) is passed in, because GXDLMSObject is not part of this model.
- Objects are values, not references. Aliasing between an object list and the objects it holds is not modelled.
- GXDLMSAutoAnswer.cs, GXDLMSObject and the enumerations are not part of this model beyond the constants used.
- AssociationLn.AssociationLogicalName.GetValue: attribute 9 (security setup reference) is refused, as the source's GetValue has no branch for it.

## Findings

| source | as written | input that shows it | evidently intended | confidence | as-written member | corrected member |
|---|---|---|---|---|---|---|
| Development/Objects/GXDLMSAssociationLogicalName.cs:167 | looks for the association's own name under class 12 (Association SN) | an object list holding the Association LN object itself (class 15, 0.0.40.0.0.255) | look under the association's own class 15, so it is listed once | not executed | AssociationLn.SelfListedTwiceAsWritten | AssociationLn.SelfListedOnce |
| Development/Objects/GXDLMSData.cs:70-73 | the (ln, sn) constructor passes 0 as short name | GXDLMSData("0.0.1.0.0.255", 0x100) | store `sn` as the short name | not executed | DataObject.Data.WithShortNameAsWritten | DataObject.Data.WithShortName |
