/** Composition of outbound Spinel packets: the header/TID byte, the packed
    command id and the payload, and the property-command payload built from
    the packed property id and the encoded value. */
module SpinelPacket {
  import opened Spinel

  /** The bytes a possibly-null payload contributes to a packet. */
  function PayloadBytes(payload: Option<Bytes>): Bytes {
    if payload.Some? then payload.value else []
  }

  /** WpanApi.EncodePacket: the packet is the TID byte, then the encoded
      command id, then the payload, in that order and with nothing between. */
  function EncodePacket(codec: Codec, commandId: int, tid: byte, payload: Option<Bytes>): (packet: Bytes)
    ensures |packet| == 1 + |codec.encodeValue(commandId)| + |PayloadBytes(payload)|
    ensures packet[0] == tid
    ensures packet[1..1 + |codec.encodeValue(commandId)|] == codec.encodeValue(commandId)
    ensures packet[1 + |codec.encodeValue(commandId)|..] == PayloadBytes(payload)
  {
    [tid] + codec.encodeValue(commandId) + PayloadBytes(payload)
  }

  /** Splits a packet for a known command back into its TID and payload;
      the reference reading of the layout EncodePacket writes. */
  function SplitPacket(codec: Codec, commandId: int, packet: Bytes): Option<(byte, Bytes)> {
    var cmd := codec.encodeValue(commandId);
    if 1 + |cmd| <= |packet| && packet[1..1 + |cmd|] == cmd then
      Some((packet[0], packet[1 + |cmd|..]))
    else
      None
  }

  /** Reading a packet back recovers the TID and the payload it was built from;
      a null payload reads back as the empty payload. */
  lemma SplitEncodePacket(codec: Codec, commandId: int, tid: byte, payload: Option<Bytes>)
    ensures SplitPacket(codec, commandId, EncodePacket(codec, commandId, tid, payload))
         == Some((tid, PayloadBytes(payload)))
  {
    var packet := EncodePacket(codec, commandId, tid, payload);
    assert packet[1..1 + |codec.encodeValue(commandId)|] == codec.encodeValue(commandId);
  }

  /** Two packets for the same command are equal exactly when their TIDs and
      payload bytes are; in particular a null and an empty payload coincide. */
  lemma EncodePacketInjective(codec: Codec, commandId: int, tid1: byte, tid2: byte, p1: Option<Bytes>, p2: Option<Bytes>)
    ensures EncodePacket(codec, commandId, tid1, p1) == EncodePacket(codec, commandId, tid2, p2)
        <==> tid1 == tid2 && PayloadBytes(p1) == PayloadBytes(p2)
  {
    if EncodePacket(codec, commandId, tid1, p1) == EncodePacket(codec, commandId, tid2, p2) {
      SplitEncodePacket(codec, commandId, tid1, p1);
      SplitEncodePacket(codec, commandId, tid2, p2);
    }
  }

  /** WpanApi.PropertyChangeValue, lines 993-998: the payload of a property
      command is the encoded property id, followed by the encoded value only
      when a format is given (a get passes no format, so no value). */
  function PropertyPayload(codec: Codec, propertyId: int, value: Bytes, format: Option<string>): (payload: Bytes)
    ensures |payload| == |codec.encodeValue(propertyId)| + (if format.Some? then |value| else 0)
    ensures payload[..|codec.encodeValue(propertyId)|] == codec.encodeValue(propertyId)
    ensures payload[|codec.encodeValue(propertyId)|..] == if format.Some? then value else []
  {
    if format.Some? then codec.encodeValue(propertyId) + value else codec.encodeValue(propertyId)
  }

  /** The packet of a property get is the TID, the get command and the
      property id, whatever value is passed beside the null format. */
  lemma GetPacketLayout(codec: Codec, k: Constants, propertyId: int, tid: byte, value: Bytes)
    ensures EncodePacket(codec, k.cmdPropValueGet, tid, Some(PropertyPayload(codec, propertyId, value, None)))
         == [tid] + codec.encodeValue(k.cmdPropValueGet) + codec.encodeValue(propertyId)
  {
  }

  /** The packet of a property set carries the value bytes last, after the
      TID, the set command and the property id. */
  lemma SetPacketLayout(codec: Codec, k: Constants, propertyId: int, tid: byte, value: Bytes, format: string)
    ensures EncodePacket(codec, k.cmdPropValueSet, tid, Some(PropertyPayload(codec, propertyId, value, Some(format))))
         == [tid] + codec.encodeValue(k.cmdPropValueSet) + codec.encodeValue(propertyId) + value
  {
  }
}
