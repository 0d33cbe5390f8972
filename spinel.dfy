/** Values shared by every part of the Spinel protocol engine model: bytes,
    decoded responses, received frames, errors, and the collaborators whose
    code is not part of this model (the value codec, the frame decoder, the
    transaction-key helpers and the protocol's numeric constants). */
module Spinel {

  type byte = bv8
  type Bytes = seq<byte>

  /** Top bit of a Spinel header; a frame whose header lacks it is rejected. */
  const HeaderFlag: byte := 0x80

  datatype Option<T> = None | Some(value: T)

  /** The exceptions the engine raises, one constructor per kind. */
  datatype Error =
    | HeaderParsing              // SpinelFormatException "Header parsing error."
    | Timeout(commandId: int)    // the wait for a synchronous response failed
    | NoResponse(commandId: int) // the wait ended but nothing was queued
    | NullResponse               // a setter dereferenced a null Response
    | InvalidCast                // a setter unboxed a Response of another type

  datatype Result<T> = Ok(value: T) | Err(error: Error)

  /** A decoded response value (the boxed object stored in FrameData.Response):
      one constructor per run-time type a setter can unbox. */
  datatype Value =
    | Byte(b: byte)              // ReadUint8
    | UShort(w: bv16)            // ReadUint16
    | UInt(n: bv32)              // ReadUintPacked and 32-bit fields
    | Flag(on: bool)             // ReadBool
    | Text(s: string)            // ReadUtf8
    | Data(bytes: Bytes)         // ReadData and byte[] arrays
    | Structured(items: seq<Value>) // field lists, typed arrays, addresses

  /** One screened frame waiting in the queue: property id, header (which
      carries the TID), the frame load and the decoded response (null when the
      property has no decoder). */
  datatype FrameData = FrameData(propertyId: nat, header: byte, load: Bytes, response: Option<Value>)

  /** Collaborators whose code is not part of this model, as total functions.
      Every property proved in this project holds for every choice of them. */
  datatype Codec = Codec(
    encodeValue: int -> Bytes,              // SpinelEncoder.EncodeValue(int): packed id
    encodeTyped: (Value, string) -> Bytes,  // SpinelEncoder.EncodeValue(value, format)
    encodeDataWithLength: Bytes -> Bytes,   // SpinelEncoder.EncodeDataWithLength
    getUid: (int, byte) -> int,             // Utilities.GetUID(propertyId, tid)
    frameUid: FrameData -> int,             // FrameData.UID
    frameHeader: Bytes -> byte,             // SpinelDecoder.FrameHeader
    frameCommand: Bytes -> nat,             // SpinelDecoder.FrameCommand
    framePropertyId: Bytes -> nat,          // SpinelDecoder.FramePropertyId
    frameLoad: Bytes -> Bytes,              // SpinelDecoder.GetFrameLoad
    decodeResponse: (nat, Bytes) -> Option<Value>, // the cases of ParseRX's decoder switch
    render: Value -> string                 // ToString of a non-string response
  )

  /** The numeric command and property identifiers the engine uses
      (SpinelCommands and SpinelProperties). */
  datatype Constants = Constants(
    headerDefault: byte,
    cmdReset: nat,
    cmdPropValueGet: nat,
    cmdPropValueSet: nat,
    rspPropValueInserted: nat,
    rspPropValueRemoved: nat,
    propChildTable: nat,
    propNetworkName: nat,
    propNetRole: nat,
    propPowerState: nat,
    propPhyChan: nat,
    propScanMask: nat,
    propScanState: nat,
    propPanId: nat,
    propXpanId: nat,
    propNetIfUp: nat,
    propStackUp: nat,
    propNetworkKey: nat,
    propRequireJoinExisting: nat,
    propKeySequenceCounter: nat,
    propPartitionId: nat,
    propPskc: nat,
    propCountersReset: nat,
    propStreamNet: nat
  )

  /** The properties the engine sets that ParseRX's decoder switch has no case
      for: a frame about one of them is queued with a null Response. */
  predicate NoDecoderCase(k: Constants, propertyId: nat) {
    propertyId == k.propKeySequenceCounter || propertyId == k.propPartitionId
    || propertyId == k.propPskc || propertyId == k.propCountersReset
  }
}
