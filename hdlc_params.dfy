/**
 * HDLC parameter negotiation (ISO/IEC 13239, as used by IEC 62056-46): the
 * information field of a UA frame is a three-byte header followed by
 * (identifier, length, big-endian value) triples, each of which sets one of
 * the four link limits. This module gives the meaning of that walk as a
 * function over the bytes and an encoder that the walk inverts.
 */
module HdlcParameters {
  import opened DlmsTypes

  /** Parameter identifiers (HDLCInfo). */
  const MAX_INFO_TX: byte := 0x05
  const MAX_INFO_RX: byte := 0x06
  const WINDOW_SIZE_TX: byte := 0x07
  const WINDOW_SIZE_RX: byte := 0x08

  /** The link limits the server announced (GXDLMSLimits). */
  datatype Limits = Limits(maxInfoTX: nat, maxInfoRX: nat, windowSizeTX: nat, windowSizeRX: nat)

  /** Unsigned big-endian value of a byte string. */
  function BigEndian(bs: seq<byte>): nat
  {
    if bs == [] then 0 else BigEndian(bs[..|bs| - 1]) * 256 + bs[|bs| - 1]
  }

  function Pow256(n: nat): (p: nat)
    ensures p >= 1
  {
    if n == 0 then 1 else 256 * Pow256(n - 1)
  }

  /** The n-byte big-endian encoding of v (the inverse of BigEndian below 256^n). */
  function ToBigEndian(v: nat, n: nat): (bs: seq<byte>)
    ensures |bs| == n
  {
    if n == 0 then [] else ToBigEndian(v / 256, n - 1) + [v % 256]
  }

  lemma {:induction false} BigEndianRoundTrip(v: nat, n: nat)
    requires v < Pow256(n)
    ensures BigEndian(ToBigEndian(v, n)) == v
    decreases n
  {
    if n > 0 {
      var bs := ToBigEndian(v, n);
      assert bs[..n - 1] == ToBigEndian(v / 256, n - 1);
      BigEndianRoundTrip(v / 256, n - 1);
    }
  }

  /** Stores `v` into the member that `id` names; Nothing for an identifier the client does not know. */
  function SetLimit(l: Limits, id: byte, v: nat): (r: Option<Limits>)
    ensures r.Some? <==> id in {MAX_INFO_TX, MAX_INFO_RX, WINDOW_SIZE_TX, WINDOW_SIZE_RX}
    ensures r.Some? && id == MAX_INFO_TX ==> r.value == l.(maxInfoTX := v)
    ensures r.Some? && id == MAX_INFO_RX ==> r.value == l.(maxInfoRX := v)
    ensures r.Some? && id == WINDOW_SIZE_TX ==> r.value == l.(windowSizeTX := v)
    ensures r.Some? && id == WINDOW_SIZE_RX ==> r.value == l.(windowSizeRX := v)
  {
    if id == MAX_INFO_TX then Some(l.(maxInfoTX := v))
    else if id == MAX_INFO_RX then Some(l.(maxInfoRX := v))
    else if id == WINDOW_SIZE_TX then Some(l.(windowSizeTX := v))
    else if id == WINDOW_SIZE_RX then Some(l.(windowSizeRX := v))
    else Nothing
  }

  /**
   * Where the walk ends: the limits as written so far, and the error that
   * stopped it, if any. A field written before the error stays written.
   */
  datatype UaOutcome = UaOutcome(limits: Limits, error: Option<Error>)

  /** The walk over the fields starting at index i. */
  function ParseFields(info: seq<byte>, i: nat, l: Limits): UaOutcome
    requires i <= |info|
    decreases |info| - i
  {
    if i == |info| then UaOutcome(l, Nothing)
    else if i + 1 == |info| then UaOutcome(l, Some(IndexOutOfRange))
    else
      var id, len := info[i], info[i + 1];
      if len != 1 && len != 2 && len != 4 then UaOutcome(l, Some(InvalidResponse))
      else if i + 2 + len > |info| then UaOutcome(l, Some(IndexOutOfRange))
      else
        var v := BigEndian(info[i + 2 .. i + 2 + len]);
        match SetLimit(l, id, v)
        case Nothing => UaOutcome(l, Some(InvalidResponse))
        case Some(l') => ParseFields(info, i + 2 + len, l')
  }

  /** The UA information field: format id, group id and group length, then the fields. */
  function ParseUaInfo(info: seq<byte>, l: Limits): UaOutcome
  {
    if |info| < 3 then UaOutcome(l, Some(IndexOutOfRange)) else ParseFields(info, 3, l)
  }

  /** One negotiated parameter as a server writes it. */
  datatype Field = Field(id: byte, len: byte, value: nat)

  predicate ValidField(f: Field)
  {
    && f.id in {MAX_INFO_TX, MAX_INFO_RX, WINDOW_SIZE_TX, WINDOW_SIZE_RX}
    && f.len in {1, 2, 4}
    && f.value < Pow256(f.len)
  }

  function EncodeFields(fs: seq<Field>): seq<byte>
  {
    if fs == [] then []
    else [fs[0].id, fs[0].len] + ToBigEndian(fs[0].value, fs[0].len) + EncodeFields(fs[1..])
  }

  /** The limits after storing every field in order: a later field overrides an earlier one with the same id. */
  function ApplyFields(l: Limits, fs: seq<Field>): Limits
    requires forall k :: 0 <= k < |fs| ==> ValidField(fs[k])
    decreases |fs|
  {
    if fs == [] then l
    else
      assert ValidField(fs[0]);
      ApplyFields(SetLimit(l, fs[0].id, fs[0].value).value, fs[1..])
  }

  /** Where the id, the length, the value bytes and the rest of a field lie in the buffer. */
  lemma FieldBytes(info: seq<byte>, i: nat, id: byte, len: byte, enc: seq<byte>, rest: seq<byte>)
    requires i <= |info| && info[i..] == [id, len] + enc + rest
    ensures i + 2 + |enc| <= |info|
    ensures info[i] == id && info[i + 1] == len
    ensures info[i + 2 .. i + 2 + |enc|] == enc && info[i + 2 + |enc|..] == rest
  {
    assert info[i..][0] == id && info[i..][1] == len;
    assert info[i + 2 .. i + 2 + |enc|] == info[i..][2 .. 2 + |enc|];
    assert info[i + 2 + |enc|..] == info[i..][2 + |enc|..];
  }

  /** A field at position i whose value bytes read as its value: the walk stores it and goes on after it. */
  lemma FieldStep(info: seq<byte>, i: nat, f: Field, l: Limits)
    requires ValidField(f)
    requires i + 2 + f.len <= |info| && info[i] == f.id && info[i + 1] == f.len
    requires BigEndian(info[i + 2 .. i + 2 + f.len]) == f.value
    ensures SetLimit(l, f.id, f.value).Some?
    ensures ParseFields(info, i, l) == ParseFields(info, i + 2 + f.len, SetLimit(l, f.id, f.value).value)
  {
  }

  /** The field at position i as a server writes it: the walk stores it and goes on with `rest`. */
  lemma EncodedFieldStep(info: seq<byte>, i: nat, f: Field, rest: seq<byte>, l: Limits)
    requires ValidField(f)
    requires i <= |info| && info[i..] == [f.id, f.len] + ToBigEndian(f.value, f.len) + rest
    ensures i + 2 + f.len <= |info| && info[i + 2 + f.len..] == rest
    ensures SetLimit(l, f.id, f.value).Some?
    ensures ParseFields(info, i, l) == ParseFields(info, i + 2 + f.len, SetLimit(l, f.id, f.value).value)
  {
    FieldBytes(info, i, f.id, f.len, ToBigEndian(f.value, f.len), rest);
    BigEndianRoundTrip(f.value, f.len);
    FieldStep(info, i, f, l);
  }

  /** Parsing well-formed fields stores each of them in order and consumes the buffer to its end without error. */
  lemma {:induction false} ParseEncodedFields(info: seq<byte>, i: nat, fs: seq<Field>, l: Limits)
    requires forall k :: 0 <= k < |fs| ==> ValidField(fs[k])
    requires i <= |info| && info[i..] == EncodeFields(fs)
    ensures ParseFields(info, i, l) == UaOutcome(ApplyFields(l, fs), Nothing)
    decreases |fs|
  {
    if fs != [] {
      var f := fs[0];
      assert ValidField(f);
      EncodedFieldStep(info, i, f, EncodeFields(fs[1..]), l);
      ParseEncodedFields(info, i + 2 + f.len, fs[1..], SetLimit(l, f.id, f.value).value);
    }
  }

  /** A UA information field built from a header and well-formed fields parses to exactly those fields. */
  lemma UaRoundTrip(header: seq<byte>, fs: seq<Field>, l: Limits)
    requires |header| == 3
    requires forall k :: 0 <= k < |fs| ==> ValidField(fs[k])
    ensures ParseUaInfo(header + EncodeFields(fs), l) == UaOutcome(ApplyFields(l, fs), Nothing)
  {
    var info := header + EncodeFields(fs);
    assert info[3..] == EncodeFields(fs);
    ParseEncodedFields(info, 3, fs, l);
  }

  /** A field with a length other than 1, 2 or 4 stops the walk with an error, keeping the limits written before it. */
  lemma BadLengthRejected(info: seq<byte>, i: nat, fs: seq<Field>, id: byte, len: byte, l: Limits)
    requires forall k :: 0 <= k < |fs| ==> ValidField(fs[k])
    requires len !in {1, 2, 4}
    requires i <= |info| && info[i..] == EncodeFields(fs) + [id, len]
    ensures ParseFields(info, i, l) == UaOutcome(ApplyFields(l, fs), Some(InvalidResponse))
  {
    ParseWithBadTail(info, i, fs, l, [id, len]);
  }

  lemma {:induction false} ParseWithBadTail(info: seq<byte>, i: nat, fs: seq<Field>, l: Limits, tail: seq<byte>)
    requires forall k :: 0 <= k < |fs| ==> ValidField(fs[k])
    requires |tail| >= 2 && tail[1] !in {1, 2, 4}
    requires i <= |info| && info[i..] == EncodeFields(fs) + tail
    ensures ParseFields(info, i, l) == UaOutcome(ApplyFields(l, fs), Some(InvalidResponse))
    decreases |fs|
  {
    if fs == [] {
      assert info[i] == tail[0] && info[i + 1] == tail[1];
    } else {
      var f := fs[0];
      assert ValidField(f);
      assert info[i..] == [f.id, f.len] + ToBigEndian(f.value, f.len) + (EncodeFields(fs[1..]) + tail);
      EncodedFieldStep(info, i, f, EncodeFields(fs[1..]) + tail, l);
      ParseWithBadTail(info, i + 2 + f.len, fs[1..], SetLimit(l, f.id, f.value).value, tail);
    }
  }
}
