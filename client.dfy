/**
 * The DLMS/COSEM client facade (GXDLMSClient): it shapes the requests a
 * client sends (SNRM, AARQ, disconnect, read, write, method, profile rows),
 * checks the server's UA and AARE replies and keeps the session state they
 * set, and serves decoded reply values through a cache of partial replies.
 * Framing, APDU coding and the A-XDR codec belong to collaborators whose
 * code is not part of this model; they appear as the `Engine` and `Codec`
 * functions, and a request is the argument list handed to them.
 */
module DlmsClient {
  import opened DlmsTypes
  import opened ClientRules
  import opened HdlcParameters
  import AssociationView
  import DataObject

  datatype InterfaceType = General | Net

  /** The command a message request is generated for. */
  datatype Command = GetRequest | ReadRequest | SetRequest | WriteRequest | MethodRequest

  /** How ParseReplyData is asked to treat the reply (ActionType). */
  datatype ActionType = NoAction | IndexAction | CountAction

  /** HDLC frame types (ISO/IEC 13239). */
  const SNRM_FRAME: byte := 0x93
  const UA_FRAME: byte := 0x73
  const DISCONNECT_FRAME: byte := 0x53
  const DISCONNECT_MODE_FRAME: byte := 0x1F

  /** Proposed conformance blocks. */
  const LN_CONFORMANCE: seq<byte> := [0x00, 0x7E, 0x1F]
  const SN_CONFORMANCE: seq<byte> := [0x1C, 0x03, 0x20]

  const SUPPORTED_DLMS_VERSION := 6
  const DEFAULT_MAX_RECEIVE_PDU_SIZE := 0xFFFF

  /** AssociationResult.Accepted. */
  const ACCEPTED := 0

  /** Where the association object is found under each referencing. */
  const ASSOCIATION_LN_NAME := "0.0.40.0.0.255"
  const ASSOCIATION_SN_NAME := 0xFA00

  /** The reply-cache state kept by the protocol engine (GXDLMS). */
  datatype Progress = Progress(cacheIndex: int, cacheSize: int, cacheData: Value, cacheType: DataType,
                               itemCount: int, maxItemCount: int)

  /** What the frame layer (GetDataFromFrame) reports: completeness, checksum, frame type and the information field. */
  datatype FrameResult = FrameResult(packetFull: bool, wrongCrc: bool, frame: byte, data: seq<byte>)

  /** The fields of a decoded AARE the client uses. */
  datatype Aare = Aare(useLN: bool, result: int, diagnostic: int, conformanceBlock: seq<byte>,
                       maxReceivePDUSize: int, dlmsVersion: int)

  /**
   * Protocol-engine operations whose code is not part of this model:
   *  - clearProgress: GXDLMS.ClearProgress;
   *  - parseReplyData: GXDLMS.ParseReplyData, the new cache state and the reply's data type, or its exception;
   *  - getValueType: GXCommon.GetValueType;
   *  - getActionInfo: GXDLMS.GetActionInfo, the first method address and the method count of a class;
   *  - getDataFromFrame: GXDLMS.GetDataFromFrame with its one varying flag;
   *  - decodeAare: GXAPDU.EncodeData on the information field.
   */
  datatype Engine = Engine(
    clearProgress: Progress -> Progress,
    parseReplyData: (ActionType, seq<byte>, Progress) -> Result<(Progress, DataType)>,
    getValueType: Value -> DataType,
    getActionInfo: int -> (int, int),
    getDataFromFrame: (seq<byte>, bool) -> FrameResult,
    decodeAare: seq<byte> -> Result<Aare>)

  /** A frame handed to AddFrame: its type and information field. */
  datatype FrameRequest = FrameRequest(frameType: byte, info: seq<byte>)

  /** A message handed to GenerateMessage. */
  datatype MessageRequest = MessageRequest(name: Value, code: int, payload: seq<byte>, objectType: int, index: int, command: Command)

  /** The parameters handed to the AARQ coder. */
  datatype AarqRequest = AarqRequest(useLN: bool, conformanceBlock: seq<byte>, authentication: int, password: string,
                                     dlmsVersion: int, maxReceivePDUSize: int, interfaceType: InterfaceType)

  // ---------------------------------------------------------------------
  // The reply cache.

  /** The cache state once a reply of `length` bytes arrives: cleared when the cache is off or the reply is shorter than what was read. */
  function Prepared(engine: Engine, useCache: bool, p: Progress, length: nat): (q: Progress)
    ensures !useCache ==> q == engine.clearProgress(p)
    ensures useCache && length >= p.cacheIndex ==> q == p
    ensures useCache && length < p.cacheIndex ==> q == engine.clearProgress(p)
  {
    if !useCache || length < p.cacheIndex then engine.clearProgress(p) else p
  }

  /**
   * GetValue(data): the value and the new cache state. With the cache on and
   * a reply of the cached size the cached value is served without decoding;
   * otherwise the reply is decoded and whatever the decoder cached is served.
   */
  function ReplyValue(engine: Engine, useCache: bool, p: Progress, data: seq<byte>): (r: Result<(Value, Progress)>)
    ensures var q := Prepared(engine, useCache, p, |data|);
      useCache && q.cacheSize == |data| ==> r == Ok((q.cacheData, q))
    ensures var q := Prepared(engine, useCache, p, |data|);
      !(useCache && q.cacheSize == |data|) ==>
        var parsed := engine.parseReplyData(if useCache then IndexAction else NoAction, data, q);
        && (parsed.Err? <==> r.Err?)
        && (parsed.Err? ==> r == Err(parsed.error))
        && (parsed.Ok? ==> r.value == (parsed.value.0.cacheData, parsed.value.0))
  {
    var q := Prepared(engine, useCache, p, |data|);
    if useCache && q.cacheSize == |data| then Ok((q.cacheData, q))
    else
      var (q', _) :- engine.parseReplyData(if useCache then IndexAction else NoAction, data, q);
      Ok((q'.cacheData, q'))
  }

  /**
   * TryGetValue(data): the value (null when anything fails) and the new
   * cache state. A reply of the cached size gives the cached value and
   * empties the cache; a non-empty cache otherwise gives null; a successful
   * decode adds its counts and records the reply size. The decoder's cache
   * position is kept even when it fails.
   */
  function TryReplyValue(getData: (seq<byte>, nat, DataType, int) -> Decoded, engine: Engine, useCache: bool,
                         p: Progress, data: seq<byte>): (r: (Value, Progress))
    ensures var q := Prepared(engine, useCache, p, |data|);
      useCache && q.cacheSize == |data| ==> r == (q.cacheData, q.(cacheData := Null))
    ensures var q := Prepared(engine, useCache, p, |data|);
      useCache && q.cacheSize != |data| && !q.cacheData.Null? ==> r == (Null, q)
    ensures var q := Prepared(engine, useCache, p, |data|);
      var d := getData(data, 0, None, q.cacheIndex);
      (!useCache || (q.cacheSize != |data| && q.cacheData.Null?)) ==>
        && r.1.cacheIndex == d.cachePosition
        && (d.DecodeFailed? ==> r == (Null, q.(cacheIndex := d.cachePosition)))
        && (d.Decoded? && useCache ==>
              r == (d.value, q.(cacheIndex := d.cachePosition, cacheData := Null, itemCount := q.itemCount + d.read,
                                 cacheSize := |data|, maxItemCount := q.maxItemCount + d.total)))
        && (d.Decoded? && !useCache ==> r == (d.value, q.(cacheIndex := d.cachePosition)))
  {
    var q := Prepared(engine, useCache, p, |data|);
    if useCache && q.cacheSize == |data| then (q.cacheData, q.(cacheData := Null))
    else if useCache && !q.cacheData.Null? then (Null, q)
    else
      match getData(data, 0, None, q.cacheIndex)
      case DecodeFailed(position) => (Null, q.(cacheIndex := position))
      case Decoded(value, _, total, read, _, position) =>
        var q' := q.(cacheIndex := position);
        if useCache then
          (value, q'.(cacheData := Null, itemCount := q'.itemCount + read, cacheSize := |data|, maxItemCount := q'.maxItemCount + total))
        else (value, q')
  }

  /**
   * GetDLMSDataType(data): with the cache on, a reply of the cached size or
   * a cache already in progress gives the cached type; otherwise the reply
   * is parsed (after clearing when the cache is off) for its type.
   */
  function ReplyDataType(engine: Engine, useCache: bool, p: Progress, data: seq<byte>): (r: Result<(DataType, Progress)>)
    ensures useCache && (|data| == p.cacheSize || p.cacheIndex != 0) ==> r == Ok((p.cacheType, p))
    ensures useCache && |data| != p.cacheSize && p.cacheIndex == 0 ==> var parsed := engine.parseReplyData(IndexAction, data, p);
      && (parsed.Err? ==> r == Err(parsed.error))
      && (parsed.Ok? ==> r == Ok((parsed.value.1, parsed.value.0)))
    ensures !useCache ==> var parsed := engine.parseReplyData(CountAction, data, engine.clearProgress(p));
      && (parsed.Err? ==> r == Err(parsed.error))
      && (parsed.Ok? ==> r == Ok((parsed.value.1, parsed.value.0)))
  {
    if useCache && |data| == p.cacheSize then Ok((p.cacheType, p))
    else
      var q := if !useCache then engine.clearProgress(p) else p;
      if useCache && q.cacheIndex != 0 then Ok((q.cacheType, q))
      else
        var (q', t) :- engine.parseReplyData(if useCache then IndexAction else CountAction, data, q);
        Ok((t, q'))
  }

  /**
   * Once a reply is being read through the cache, its type is the cached
   * one: the parser is not consulted (any two engines agree) and asking
   * again gives the same answer and leaves the cache as it is.
   */
  lemma CachedTypeStable(engine: Engine, other: Engine, p: Progress, data: seq<byte>)
    requires |data| == p.cacheSize || p.cacheIndex != 0
    ensures var r := ReplyDataType(engine, true, p, data);
      && r == Ok((p.cacheType, p))
      && ReplyDataType(other, true, p, data) == r
      && ReplyDataType(engine, true, r.value.1, data) == r
  {
  }

  /**
   * With the cache on, GetDLMSDataType and GetValue read a reply that is not
   * under way with the same parse: both succeed or fail together, leave the
   * same cache state, and the value served is the data that parse cached.
   */
  lemma TypeThenValueAgree(engine: Engine, p: Progress, data: seq<byte>)
    requires p.cacheIndex == 0 && |data| != p.cacheSize
    ensures var t := ReplyDataType(engine, true, p, data);
      var v := ReplyValue(engine, true, p, data);
      && (t.Ok? <==> v.Ok?)
      && (t.Err? ==> v == Err(t.error))
      && (t.Ok? ==> v.value == (t.value.1.cacheData, t.value.1))
  {
  }

  /**
   * A reply served twice in a row from a cache that is on and holds a reply
   * of that size gives the same value both times and leaves the cache as it
   * was.
   */
  lemma CachedReplyStable(engine: Engine, p: Progress, data: seq<byte>)
    requires p.cacheSize == |data| && p.cacheIndex <= |data|
    ensures var r := ReplyValue(engine, true, p, data);
      r == Ok((p.cacheData, p)) && ReplyValue(engine, true, r.value.1, data) == r
  {
  }

  /**
   * TryGetValue hands a cached reply out once: the second call on the same
   * reply finds the cache emptied and gives null, leaving the cache as the
   * first call left it.
   */
  lemma {:induction false} TryReplyHandsOutOnce(getData: (seq<byte>, nat, DataType, int) -> Decoded, engine: Engine,
                                                p: Progress, data: seq<byte>)
    requires p.cacheSize == |data| && p.cacheIndex <= |data|
    ensures var first := TryReplyValue(getData, engine, true, p, data);
      && first == (p.cacheData, p.(cacheData := Null))
      && TryReplyValue(getData, engine, true, first.1, data) == (Null, first.1)
  {
    var first := TryReplyValue(getData, engine, true, p, data);
    assert first.1 == p.(cacheData := Null);
    assert Prepared(engine, true, first.1, |data|) == first.1;
  }

  /** What GetValue(data, target, index) makes of a reply value: octet strings of a typed attribute go through ChangeType. */
  function TypedValue(v: Value, declaredType: DataType, getData: (seq<byte>, nat, DataType, int) -> Decoded): (r: Result<Value>)
    ensures !(v.Bytes? && declaredType != None) ==> r == Ok(v)
    ensures v.Bytes? && declaredType != None ==> r == ChangeType(Some(v.bs), declaredType, getData)
  {
    if v.Bytes? && declaredType != None then ChangeType(Some(v.bs), declaredType, getData) else Ok(v)
  }

  class Client {
    const engine: Engine
    const codec: Codec
    /** Object classes the client can create (the values of ObjectType). */
    const knownTypes: set<int>

    var useCache: bool
    var progress: Progress
    var useLogicalNameReferencing: bool
    var interfaceType: InterfaceType
    var lnSettings: Option<seq<byte>>
    var snSettings: Option<seq<byte>>
    var maxReceivePDUSize: int
    var dlmsVersion: int
    var authentication: int
    var password: string
    var frameSequence: int
    var expectedFrame: int
    var serverID: Option<Address>
    var clientID: Option<Address>
    var limits: Limits

    /**
     * A client with the documented defaults: DLMS version 6, receive PDU
     * size 0xFFFF, short-name referencing, no authentication and no
     * association. The engine's own initial cache and link state are given.
     */
    constructor (engine: Engine, codec: Codec, knownTypes: set<int>, useCache: bool, progress: Progress, limits: Limits)
      ensures this.engine == engine && this.codec == codec && this.knownTypes == knownTypes
      ensures this.useCache == useCache && this.progress == progress && this.limits == limits
      ensures dlmsVersion == SUPPORTED_DLMS_VERSION && maxReceivePDUSize == DEFAULT_MAX_RECEIVE_PDU_SIZE
      ensures !useLogicalNameReferencing && lnSettings == Nothing && snSettings == Nothing
      ensures authentication == 0 && interfaceType == General
    {
      this.engine := engine;
      this.codec := codec;
      this.knownTypes := knownTypes;
      this.useCache := useCache;
      this.progress := progress;
      this.limits := limits;
      useLogicalNameReferencing := false;
      interfaceType := General;
      lnSettings := Nothing;
      snSettings := Nothing;
      maxReceivePDUSize := DEFAULT_MAX_RECEIVE_PDU_SIZE;
      dlmsVersion := SUPPORTED_DLMS_VERSION;
      authentication := 0;
      password := "";
      frameSequence := 0;
      expectedFrame := 0;
      serverID := Nothing;
      clientID := Nothing;
    }

    /** SetServerID: a width other than 1, 2 or 4, or a value that does not fit it, is refused and changes nothing. */
    method SetServerID(value: Value, size: int) returns (error: Option<Error>)
      modifies this`serverID
      ensures match ToAddress(value, size)
        case Ok(a) => error == Nothing && serverID == Some(a)
        case Err(e) => error == Some(e) && serverID == old(serverID)
    {
      var a := ToAddress(value, size);
      if a.Err? {
        return Some(a.error);
      }
      serverID := Some(a.value);
      error := Nothing;
    }

    /** SetClientID: as SetServerID, for the client address. */
    method SetClientID(value: Value, size: int) returns (error: Option<Error>)
      modifies this`clientID
      ensures match ToAddress(value, size)
        case Ok(a) => error == Nothing && clientID == Some(a)
        case Err(e) => error == Some(e) && clientID == old(clientID)
    {
      var a := ToAddress(value, size);
      if a.Err? {
        return Some(a.error);
      }
      clientID := Some(a.value);
      error := Nothing;
    }

    /** SNRMRequest: resets the receive PDU size and the progress; no SNRM frame over a network connection. */
    method SNRMRequest() returns (r: Option<FrameRequest>)
      modifies this`maxReceivePDUSize, this`progress
      ensures maxReceivePDUSize == DEFAULT_MAX_RECEIVE_PDU_SIZE
      ensures progress == engine.clearProgress(old(progress))
      ensures r.Some? <==> interfaceType != Net
      ensures r.Some? ==> r.value == FrameRequest(SNRM_FRAME, [])
    {
      maxReceivePDUSize := DEFAULT_MAX_RECEIVE_PDU_SIZE;
      progress := engine.clearProgress(progress);
      if interfaceType == Net {
        return Nothing;
      }
      r := Some(FrameRequest(SNRM_FRAME, []));
    }

    /**
     * ParseUAResponse: an incomplete frame, a bad checksum or (outside
     * network connections) a frame other than UA is refused without
     * change; otherwise the negotiated limits are read from the information
     * field, each field stored as it is read.
     */
    method ParseUAResponse(data: seq<byte>) returns (error: Option<Error>)
      modifies this`limits
      ensures var f := engine.getDataFromFrame(data, true);
        && (!f.packetFull ==> error == Some(NotEnoughData) && limits == old(limits))
        && (f.packetFull && f.wrongCrc ==> error == Some(WrongChecksum) && limits == old(limits))
        && (f.packetFull && !f.wrongCrc && interfaceType != Net && f.frame != UA_FRAME ==>
              error == Some(NotUaResponse) && limits == old(limits))
        && (f.packetFull && !f.wrongCrc && (interfaceType == Net || f.frame == UA_FRAME) ==>
              UaOutcome(limits, error) == ParseUaInfo(f.data, old(limits)))
    {
      var f := engine.getDataFromFrame(data, true);
      if !f.packetFull {
        return Some(NotEnoughData);
      }
      if f.wrongCrc {
        return Some(WrongChecksum);
      }
      if interfaceType != Net && f.frame != UA_FRAME {
        return Some(NotUaResponse);
      }
      var arr := f.data;
      if |arr| < 3 {
        return Some(IndexOutOfRange);
      }
      var index := 3;
      while index < |arr|
        invariant 3 <= index <= |arr|
        invariant ParseFields(arr, index, limits) == ParseUaInfo(arr, old(limits))
        decreases |arr| - index
      {
        var id := arr[index];
        if index + 1 == |arr| {
          return Some(IndexOutOfRange);
        }
        var len := arr[index + 1];
        if len != 1 && len != 2 && len != 4 {
          return Some(InvalidResponse);
        }
        if index + 2 + len > |arr| {
          return Some(IndexOutOfRange);
        }
        var val := BigEndian(arr[index + 2 .. index + 2 + len]);
        index := index + 2 + len;
        if id == MAX_INFO_TX {
          limits := limits.(maxInfoTX := val);
        } else if id == MAX_INFO_RX {
          limits := limits.(maxInfoRX := val);
        } else if id == WINDOW_SIZE_TX {
          limits := limits.(windowSizeTX := val);
        } else if id == WINDOW_SIZE_RX {
          limits := limits.(windowSizeRX := val);
        } else {
          return Some(InvalidResponse);
        }
      }
      error := Nothing;
    }

    /**
     * AARQRequest: proposes the conformance block of the referencing in use
     * and forgets the other one, and restarts the frame counters.
     */
    method AARQRequest() returns (req: AarqRequest)
      modifies this`lnSettings, this`snSettings, this`frameSequence, this`expectedFrame
      ensures useLogicalNameReferencing ==> lnSettings == Some(LN_CONFORMANCE) && snSettings == Nothing
      ensures !useLogicalNameReferencing ==> snSettings == Some(SN_CONFORMANCE) && lnSettings == Nothing
      ensures lnSettings.Some? != snSettings.Some?
      ensures frameSequence == -1 && expectedFrame == -1
      ensures req.useLN == useLogicalNameReferencing
      ensures req.conformanceBlock == (if useLogicalNameReferencing then LN_CONFORMANCE else SN_CONFORMANCE)
      ensures req == AarqRequest(req.useLN, req.conformanceBlock, authentication, password, dlmsVersion, maxReceivePDUSize, interfaceType)
    {
      var conformance: seq<byte>;
      if useLogicalNameReferencing {
        snSettings := Nothing;
        lnSettings := Some(LN_CONFORMANCE);
        conformance := LN_CONFORMANCE;
      } else {
        lnSettings := Nothing;
        snSettings := Some(SN_CONFORMANCE);
        conformance := SN_CONFORMANCE;
      }
      req := AarqRequest(useLogicalNameReferencing, conformance, authentication, password, dlmsVersion, maxReceivePDUSize, interfaceType);
      frameSequence := -1;
      expectedFrame := -1;
    }

    /**
     * ParseAAREResponse: frame errors and an undecodable AARE change
     * nothing. Otherwise the referencing the server echoed is adopted; a
     * rejection is reported with its diagnostic and sets nothing else; an
     * acceptance stores the server's conformance block under that
     * referencing, its PDU size and its DLMS version, which must then be 6.
     */
    method ParseAAREResponse(reply: seq<byte>) returns (error: Option<Error>)
      modifies this`useLogicalNameReferencing, this`lnSettings, this`snSettings, this`maxReceivePDUSize, this`dlmsVersion
      ensures var f := engine.getDataFromFrame(reply, false);
        && (!f.packetFull ==> error == Some(NotEnoughData) && useLogicalNameReferencing == old(useLogicalNameReferencing))
        && (f.packetFull && f.wrongCrc ==> error == Some(WrongChecksum) && useLogicalNameReferencing == old(useLogicalNameReferencing))
        && (f.packetFull && !f.wrongCrc && engine.decodeAare(f.data).Err? ==>
              error == Some(engine.decodeAare(f.data).error) && useLogicalNameReferencing == old(useLogicalNameReferencing))
      ensures var f := engine.getDataFromFrame(reply, false);
        f.packetFull && !f.wrongCrc && engine.decodeAare(f.data).Ok? ==>
          var pdu := engine.decodeAare(f.data).value;
          && useLogicalNameReferencing == pdu.useLN
          && (pdu.result != ACCEPTED ==>
                (error == Some(AssociationRejected(pdu.result, pdu.diagnostic))
                 && lnSettings == old(lnSettings) && snSettings == old(snSettings)
                 && maxReceivePDUSize == old(maxReceivePDUSize) && dlmsVersion == old(dlmsVersion)))
          && (pdu.result == ACCEPTED ==>
                && (pdu.useLN ==> lnSettings == Some(pdu.conformanceBlock) && snSettings == old(snSettings))
                && (!pdu.useLN ==> snSettings == Some(pdu.conformanceBlock) && lnSettings == old(lnSettings))
                && maxReceivePDUSize == pdu.maxReceivePDUSize && dlmsVersion == pdu.dlmsVersion
                && (error == Nothing <==> pdu.dlmsVersion == SUPPORTED_DLMS_VERSION)
                && (error != Nothing ==> error == Some(InvalidDlmsVersion)))
      ensures !engine.getDataFromFrame(reply, false).packetFull || engine.getDataFromFrame(reply, false).wrongCrc ||
              engine.decodeAare(engine.getDataFromFrame(reply, false).data).Err? ==>
        lnSettings == old(lnSettings) && snSettings == old(snSettings)
        && maxReceivePDUSize == old(maxReceivePDUSize) && dlmsVersion == old(dlmsVersion)
    {
      var f := engine.getDataFromFrame(reply, false);
      if !f.packetFull {
        return Some(NotEnoughData);
      }
      if f.wrongCrc {
        return Some(WrongChecksum);
      }
      var decoded := engine.decodeAare(f.data);
      if decoded.Err? {
        return Some(decoded.error);
      }
      var pdu := decoded.value;
      useLogicalNameReferencing := pdu.useLN;
      if pdu.result == ACCEPTED {
        if useLogicalNameReferencing {
          lnSettings := Some(pdu.conformanceBlock);
        } else {
          snSettings := Some(pdu.conformanceBlock);
        }
        maxReceivePDUSize := pdu.maxReceivePDUSize;
        dlmsVersion := pdu.dlmsVersion;
      } else {
        return Some(AssociationRejected(pdu.result, pdu.diagnostic));
      }
      if dlmsVersion != SUPPORTED_DLMS_VERSION {
        return Some(InvalidDlmsVersion);
      }
      error := Nothing;
    }

    /** DisconnectedModeRequest: nothing to send without an association or over a network connection. */
    method DisconnectedModeRequest() returns (r: Option<FrameRequest>)
      modifies this`progress
      ensures progress == engine.clearProgress(old(progress))
      ensures r.Some? <==> (lnSettings.Some? || snSettings.Some?) && interfaceType != Net
      ensures r.Some? ==> r.value == FrameRequest(DISCONNECT_MODE_FRAME, [])
    {
      progress := engine.clearProgress(progress);
      if snSettings.Nothing? && lnSettings.Nothing? {
        return Nothing;
      }
      if interfaceType != Net {
        return Some(FrameRequest(DISCONNECT_MODE_FRAME, []));
      }
      r := Nothing;
    }

    /**
     * DisconnectRequest: nothing to send without an association; an empty
     * DISC frame on an HDLC link, and a release request [0x62, 0x00] over a
     * network connection.
     */
    method DisconnectRequest() returns (r: Option<FrameRequest>)
      modifies this`progress
      ensures progress == engine.clearProgress(old(progress))
      ensures r.Some? <==> lnSettings.Some? || snSettings.Some?
      ensures r.Some? ==> r.value.frameType == DISCONNECT_FRAME
      ensures r.Some? ==> r.value.info == (if interfaceType == Net then [0x62, 0x00] else [])
    {
      progress := engine.clearProgress(progress);
      if snSettings.Nothing? && lnSettings.Nothing? {
        return Nothing;
      }
      if interfaceType != Net {
        return Some(FrameRequest(DISCONNECT_FRAME, []));
      }
      r := Some(FrameRequest(DISCONNECT_FRAME, [0x62, 0x00]));
    }

    /** GetDLMSDataType. */
    method GetDLMSDataType(data: seq<byte>) returns (r: Result<DataType>)
      modifies this`progress
      ensures var s := ReplyDataType(engine, useCache, old(progress), data);
        && (s.Ok? ==> r == Ok(s.value.0) && progress == s.value.1)
        && (s.Err? ==> r == Err(s.error) && progress == (if useCache then old(progress) else engine.clearProgress(old(progress))))
    {
      if useCache && |data| == progress.cacheSize {
        return Ok(progress.cacheType);
      }
      if !useCache {
        progress := engine.clearProgress(progress);
      } else if progress.cacheIndex != 0 {
        return Ok(progress.cacheType);
      }
      var parsed := engine.parseReplyData(if useCache then IndexAction else CountAction, data, progress);
      if parsed.Err? {
        return Err(parsed.error);
      }
      progress := parsed.value.0;
      r := Ok(parsed.value.1);
    }

    /** GetValue(data). */
    method GetValue(data: seq<byte>) returns (r: Result<Value>)
      modifies this`progress
      ensures var s := ReplyValue(engine, useCache, old(progress), data);
        && (s.Ok? ==> r == Ok(s.value.0) && progress == s.value.1)
        && (s.Err? ==> r == Err(s.error) && progress == Prepared(engine, useCache, old(progress), |data|))
    {
      if !useCache || |data| < progress.cacheIndex {
        progress := engine.clearProgress(progress);
      }
      if useCache && progress.cacheSize == |data| {
        return Ok(progress.cacheData);
      }
      var parsed := engine.parseReplyData(if useCache then IndexAction else NoAction, data, progress);
      if parsed.Err? {
        return Err(parsed.error);
      }
      progress := parsed.value.0;
      r := Ok(progress.cacheData);
    }

    /** TryGetValue(data): never fails; failures give null. */
    method TryGetValue(data: seq<byte>) returns (v: Value)
      modifies this`progress
      ensures (v, progress) == TryReplyValue(codec.getData, engine, useCache, old(progress), data)
    {
      if !useCache || |data| < progress.cacheIndex {
        progress := engine.clearProgress(progress);
      }
      if useCache {
        if progress.cacheSize == |data| {
          var tmp := progress.cacheData;
          progress := progress.(cacheData := Null);
          return tmp;
        }
        if !progress.cacheData.Null? {
          return Null;
        }
      }
      var d := codec.getData(data, 0, None, progress.cacheIndex);
      progress := progress.(cacheIndex := d.cachePosition);
      if d.DecodeFailed? {
        return Null;
      }
      if useCache {
        progress := progress.(cacheData := Null, itemCount := progress.itemCount + d.read, cacheSize := |data|,
                              maxItemCount := progress.maxItemCount + d.total);
      }
      v := d.value;
    }

    /**
     * GetValue(data, target, attributeIndex): the reply value, rendered by
     * ChangeType when it is an octet string and the attribute declares a
     * type.
     */
    method GetTypedValue(data: seq<byte>, declaredType: DataType) returns (r: Result<Value>)
      modifies this`progress
      ensures var s := ReplyValue(engine, useCache, old(progress), data);
        && (s.Err? ==> r == Err(s.error) && progress == Prepared(engine, useCache, old(progress), |data|))
        && (s.Ok? ==> progress == s.value.1 && r == TypedValue(s.value.0, declaredType, codec.getData))
        && (s.Ok? && s.value.0.Bytes? && declaredType != None ==> r == ChangeType(Some(s.value.0.bs), declaredType, codec.getData))
        && (s.Ok? && !(s.value.0.Bytes? && declaredType != None) ==> r == Ok(s.value.0))
    {
      var value := GetValue(data);
      if value.Err? {
        return value;
      }
      if value.value.Bytes? && declaredType != None {
        return ChangeType(Some(value.value.bs), declaredType, codec.getData);
      }
      r := value;
    }

    /**
     * GetValue(data, type, ln, attributeIndex) with no OBIS code table: the
     * logical name (attribute 1) is rendered as dotted decimal, other
     * attributes are returned as decoded.
     */
    method GetNamedValue(data: seq<byte>, attributeIndex: int) returns (r: Result<Value>)
      modifies this`progress
      ensures var s := ReplyValue(engine, useCache, old(progress), data);
        && (s.Err? ==> r == Err(s.error) && progress == Prepared(engine, useCache, old(progress), |data|))
        && (s.Ok? ==> progress == s.value.1)
        && (s.Ok? && attributeIndex != 1 ==> r == Ok(s.value.0))
        && (s.Ok? && attributeIndex == 1 && s.value.0.Null? ==> r == Ok(Null))
        && (s.Ok? && attributeIndex == 1 && s.value.0.Bytes? ==> r == ChangeType(Some(s.value.0.bs), OctetString, codec.getData))
        && (s.Ok? && attributeIndex == 1 && !s.value.0.Null? && !s.value.0.Bytes? ==> r == Err(InvalidCast))
    {
      var value := GetValue(data);
      if value.Err? {
        return value;
      }
      if attributeIndex == 1 {
        match value.value
        case Null => return ChangeType(Nothing, OctetString, codec.getData);
        case Bytes(bs) => return ChangeType(Some(bs), OctetString, codec.getData);
        case _ => return Err(InvalidCast);
      }
      r := value;
    }

    /**
     * UpdateValue on a Data object: the typed reply value is written to the
     * attribute with SetValue and read back with GetValue. Attribute 2 then
     * holds the value itself and attribute 1 the value as text; an index
     * other than 1 or 2 is refused after the reply has been consumed. A
     * reply or ChangeType failure leaves the object as it was.
     */
    method UpdateValue(data: seq<byte>, target: DataObject.Data, attributeIndex: int, declaredType: DataType)
      returns (r: Result<Value>)
      modifies this`progress, target
      ensures var s := ReplyValue(engine, useCache, old(progress), data);
        && (s.Err? ==> progress == Prepared(engine, useCache, old(progress), |data|))
        && (s.Ok? ==> progress == s.value.1)
      ensures var s := ReplyValue(engine, useCache, old(progress), data);
        var t := if s.Ok? then TypedValue(s.value.0, declaredType, codec.getData) else Err(s.error);
        && (t.Err? ==> r == Err(t.error) && target.value == old(target.value) && target.logicalName == old(target.logicalName))
        && (t.Ok? && attributeIndex != 1 && attributeIndex != 2 ==>
              r == Err(InvalidParameter) && target.value == old(target.value) && target.logicalName == old(target.logicalName))
        && (t.Ok? && attributeIndex == 2 ==>
              r == Ok(t.value) && target.value == t.value && target.logicalName == old(target.logicalName))
        && (t.Ok? && attributeIndex == 1 ==>
              && target.logicalName == ToText(t.value) && target.value == old(target.value)
              && r == Ok(Bytes(target.codec.getLogicalName(ToText(t.value)))))
      ensures target.shortName == old(target.shortName)
    {
      var value := GetTypedValue(data, declaredType);
      if value.Err? {
        return Err(value.error);
      }
      var error := target.SetValue(attributeIndex, value.value);
      if error.Some? {
        return Err(error.value);
      }
      var read := target.GetValue(attributeIndex);
      r := Ok(read.value.0);
    }

    /** ParseObjects under the referencing in use, keeping only known classes when asked to. */
    method ParseObjects(data: Option<seq<byte>>, onlyKnownObjects: bool) returns (r: Result<seq<CosemObject>>)
      ensures data.Nothing? || data.value == [] ==> r == Err(InvalidParameter)
      ensures data.Some? && data.value != [] && useLogicalNameReferencing ==>
        r == AssociationView.LnObjects(codec, data.value, onlyKnownObjects, knownTypes)
      ensures data.Some? && data.value != [] && !useLogicalNameReferencing ==>
        r == AssociationView.SnObjects(codec, data.value, onlyKnownObjects, knownTypes)
    {
      r := AssociationView.ParseObjects(codec, data, useLogicalNameReferencing, onlyKnownObjects, knownTypes);
    }

    /**
     * Method: a null name or an index below 1 is refused before anything
     * changes. Under short names the index must not exceed the class's
     * method count and is turned into the method's address.
     */
    method Method(name: Value, objectType: int, index: int, data: Value, dataType: DataType) returns (r: Result<MessageRequest>)
      modifies this`progress
      ensures name.Null? || index < 1 ==> r == Err(InvalidParameter) && progress == old(progress)
      ensures !name.Null? && index >= 1 ==>
        && progress == engine.clearProgress(old(progress))
        && var t := if dataType == None then engine.getValueType(data) else dataType;
           var (actionBase, count) := engine.getActionInfo(objectType);
           match MethodWireIndex(useLogicalNameReferencing, index, actionBase, count)
           case Ok(wire) => r == Ok(MessageRequest(name, 0, codec.setData(t, data), objectType, wire, MethodRequest))
           case Err(e) => r == Err(e)
    {
      if name.Null? || index < 1 {
        return Err(InvalidParameter);
      }
      progress := engine.clearProgress(progress);
      var t := dataType;
      if t == None {
        t := engine.getValueType(data);
      }
      var buff := codec.setData(t, data);
      var wire := index;
      if !useLogicalNameReferencing {
        var (actionBase, count) := engine.getActionInfo(objectType);
        if index > count {
          return Err(InvalidParameter);
        }
        wire := actionBase + (index - 1) * 8;
      }
      r := Ok(MessageRequest(name, 0, buff, objectType, wire, MethodRequest));
    }

    /** Write(name, value, type, objectType, index): an index below 1 is refused before anything changes. */
    method Write(name: Value, value: Value, dataType: DataType, objectType: int, index: int) returns (r: Result<MessageRequest>)
      modifies this`progress
      ensures index < 1 ==> r == Err(InvalidParameter) && progress == old(progress)
      ensures index >= 1 ==> progress == engine.clearProgress(old(progress))
      ensures index >= 1 ==> r.Ok? && r.value.code == 2 && r.value.name == name && r.value.objectType == objectType && r.value.index == index
      ensures index >= 1 ==> r.value.payload == codec.setData(if dataType == None then engine.getValueType(value) else dataType, value)
      ensures index >= 1 ==> r.value.command == (if useLogicalNameReferencing then SetRequest else WriteRequest)
    {
      if index < 1 {
        return Err(InvalidParameter);
      }
      var t := dataType;
      if t == None {
        t := engine.getValueType(value);
      }
      progress := engine.clearProgress(progress);
      var data := codec.setData(t, value);
      r := Ok(MessageRequest(name, 2, data, objectType, index, if useLogicalNameReferencing then SetRequest else WriteRequest));
    }

    /** Read(name, objectType, attributeOrdinal): a negative ordinal is refused; the request carries no data. */
    method Read(name: Value, objectType: int, attributeOrdinal: int) returns (r: Result<MessageRequest>)
      modifies this`progress
      ensures attributeOrdinal < 0 ==> r == Err(InvalidParameter) && progress == old(progress)
      ensures attributeOrdinal >= 0 ==> progress == engine.clearProgress(old(progress))
      ensures attributeOrdinal >= 0 ==>
        r == Ok(MessageRequest(name, 2, [], objectType, attributeOrdinal, if useLogicalNameReferencing then GetRequest else ReadRequest))
    {
      if attributeOrdinal < 0 {
        return Err(InvalidParameter);
      }
      progress := engine.clearProgress(progress);
      r := Ok(MessageRequest(name, 2, [], objectType, attributeOrdinal, if useLogicalNameReferencing then GetRequest else ReadRequest));
    }

    /** Read(item, attributeOrdinal): reading an object's attribute; ordinals start at 1. */
    method ReadItem(item: CosemObject, name: Value, attributeOrdinal: int) returns (r: Result<MessageRequest>)
      modifies this`progress
      ensures attributeOrdinal < 1 ==> r == Err(InvalidParameter) && progress == old(progress)
      ensures attributeOrdinal >= 1 ==> progress == engine.clearProgress(old(progress))
      ensures attributeOrdinal >= 1 ==>
        r == Ok(MessageRequest(name, 2, [], item.objectType, attributeOrdinal, if useLogicalNameReferencing then GetRequest else ReadRequest))
    {
      if attributeOrdinal < 1 {
        return Err(InvalidParameter);
      }
      progress := engine.clearProgress(progress);
      r := Ok(MessageRequest(name, 2, [], item.objectType, attributeOrdinal, if useLogicalNameReferencing then GetRequest else ReadRequest));
    }

    /** GetObjects: reads attribute 2 (the object list) of the association, found by the name of the referencing in use. */
    method GetObjects() returns (r: MessageRequest)
      modifies this`progress
      ensures progress == engine.clearProgress(old(progress))
      ensures r.name == (if useLogicalNameReferencing then Str(ASSOCIATION_LN_NAME) else Int(ASSOCIATION_SN_NAME))
      ensures r.code == 2 && r.objectType == ASSOCIATION_LOGICAL_NAME_CLASS && r.index == 2 && r.payload == []
      ensures r.command == (if useLogicalNameReferencing then GetRequest else ReadRequest)
    {
      var name := if useLogicalNameReferencing then Str(ASSOCIATION_LN_NAME) else Int(ASSOCIATION_SN_NAME);
      var request := Read(name, ASSOCIATION_LOGICAL_NAME_CLASS, 2);
      r := request.value;
    }

    /** ReadRowsByEntry: reads `count` rows of a profile from entry `index`, all columns. */
    method ReadRowsByEntry(name: Value, index: int, count: int) returns (r: MessageRequest)
      modifies this`progress
      ensures progress == engine.clearProgress(old(progress))
      ensures r == MessageRequest(name, 4, Serialize(RowsByEntrySelector(index, count), codec.setData), PROFILE_GENERIC_CLASS, 2,
                                  if useLogicalNameReferencing then GetRequest else ReadRequest)
      ensures r.payload[..3] == [0x02, 0x02, 0x04]
    {
      progress := engine.clearProgress(progress);
      var buff := Serialize(RowsByEntrySelector(index, count), codec.setData);
      SelectorLayouts(index, count, "", 0, Null, Null, codec.setData);
      r := MessageRequest(name, 4, buff, PROFILE_GENERIC_CLASS, 2, if useLogicalNameReferencing then GetRequest else ReadRequest);
    }

    /** ReadRowsByRange: reads the rows of a profile whose column `ln` lies between `start` and `end`, all columns. */
    method ReadRowsByRange(name: Value, ln: string, objectType: int, version: int, start: Value, end: Value) returns (r: MessageRequest)
      modifies this`progress
      ensures progress == engine.clearProgress(old(progress))
      ensures r == MessageRequest(name, 4, Serialize(RowsByRangeSelector(ln, version, start, end), codec.setData), PROFILE_GENERIC_CLASS, 2,
                                  if useLogicalNameReferencing then GetRequest else ReadRequest)
      ensures |r.payload| >= 7 && r.payload[..5] == [0x01, 0x02, 0x04, 0x02, 0x04] && r.payload[|r.payload| - 2..] == [0x01, 0x00]
    {
      progress := engine.clearProgress(progress);
      var buff := Serialize(RowsByRangeSelector(ln, version, start, end), codec.setData);
      SelectorLayouts(0, 0, ln, version, start, end, codec.setData);
      r := MessageRequest(name, 4, buff, PROFILE_GENERIC_CLASS, 2, if useLogicalNameReferencing then GetRequest else ReadRequest);
    }
  }
}
