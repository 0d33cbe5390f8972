/** The protocol engine of the host-side Spinel driver (class WpanApi): it
    composes and transmits packets, screens and queues received frames, and
    correlates queued frames with the one outstanding synchronous request,
    forwarding everything else to the FrameDataReceived subscriber.

    Threads and locks are sequenced: the receive path that runs while a
    caller is blocked in WaitOne is represented by the frames `rx` the
    transport delivers during the wait, and the wait's outcome by `signalled`. */
module NCP {
  import opened Spinel
  import opened SpinelPacket
  import opened SpinelReceive
  import opened Correlation
  import opened Echo

  class WpanApi {
    const codec: Codec
    const k: Constants

    /** waitingQueue: screened frames not yet delivered, oldest first. */
    var queue: seq<FrameData>
    /** isSyncFrameExpecting: a synchronous exchange owns the queue. */
    var syncExpecting: bool
    /** Packets handed to the HDLC writer, oldest first. */
    ghost var sent: seq<Bytes>
    /** Frames delivered to the FrameDataReceived subscriber, oldest first. */
    ghost var forwarded: seq<FrameData>

    constructor (codec: Codec, k: Constants)
      ensures this.codec == codec && this.k == k
      ensures queue == [] && !syncExpecting && sent == [] && forwarded == []
    {
      this.codec := codec;
      this.k := k;
      queue := [];
      syncExpecting := false;
      sent := [];
      forwarded := [];
    }

    /** The outcome of a synchronous exchange for `propertyId` and `tid`,
        given the frames received during the wait. */
    ghost function Outcome(commandId: int, propertyId: int, tid: byte, rx: seq<Bytes>, signalled: bool): Result<Option<FrameData>>
      reads this
    {
      Exchange(codec, queue + Received(codec, k, rx), codec.getUid(propertyId, tid), commandId, signalled)
    }

    /** The queue, the subscriber log and the sync flag after an exchange that
        started from queue `q` and subscriber log `fw`: a successful wait
        drains the queue, forwarding every frame that does not answer `uid`;
        the sync flag is cleared only when an answer was found. */
    ghost predicate AfterExchange(q: seq<FrameData>, fw: seq<FrameData>, uid: int, rx: seq<Bytes>, signalled: bool)
      reads this
    {
      var pending := q + Received(codec, k, rx);
      (if signalled then queue == [] && forwarded == fw + Unmatched(codec, pending, uid)
       else queue == pending && forwarded == fw)
      && syncExpecting == !(signalled && LastMatch(codec, pending, uid).Some?)
    }

    /** The packet a property set with the default TID transmits. */
    ghost function SetPacket(propertyId: int, value: Bytes, format: string): Bytes {
      EncodePacket(codec, k.cmdPropValueSet, k.headerDefault, Some(PropertyPayload(codec, propertyId, value, Some(format))))
    }

    /** The state after a waited-for property set with the default TID. */
    ghost predicate SetDone(q: seq<FrameData>, fw: seq<FrameData>, s: seq<Bytes>, propertyId: int, value: Bytes, format: string,
                            rx: seq<Bytes>, signalled: bool)
      reads this
    {
      sent == s + [SetPacket(propertyId, value, format)]
      && AfterExchange(q, fw, codec.getUid(propertyId, k.headerDefault), rx, signalled)
    }

    /** Transact: encode the packet and hand it to the HDLC writer. */
    method Transact(commandId: int, payload: Option<Bytes>, tid: byte)
      modifies this`sent
      ensures sent == old(sent) + [EncodePacket(codec, commandId, tid, payload)]
    {
      var packet := EncodePacket(codec, commandId, tid, payload);
      sent := sent + [packet];
    }

    /** DoReset: send the reset command with no payload. */
    method DoReset()
      modifies this`sent
      ensures sent == old(sent) + [[k.headerDefault] + codec.encodeValue(k.cmdReset)]
    {
      Transact(k.cmdReset, None, k.headerDefault);
      assert [k.headerDefault] + codec.encodeValue(k.cmdReset) + [] == [k.headerDefault] + codec.encodeValue(k.cmdReset);
    }

    /** ParseRX: reject a frame without the header flag, drop child-table
        insert/remove notifications, otherwise append one FrameData. */
    method ParseRX(frame: Bytes) returns (r: Result<()>)
      modifies this`queue
      ensures r.Err? <==> !HeaderValid(codec.frameHeader(frame))
      ensures r.Err? ==> r.error == HeaderParsing && queue == old(queue)
      ensures queue == old(queue) + Kept(Screen(codec, k, frame))
    {
      var header := codec.frameHeader(frame);
      if header & HeaderFlag != HeaderFlag {
        return Err(HeaderParsing);
      }
      var command := codec.frameCommand(frame);
      var propertyId := codec.framePropertyId(frame);
      if propertyId == k.propChildTable {
        if command == k.rspPropValueInserted || command == k.rspPropValueRemoved {
          return Ok(());
        }
      }
      var response: Option<Value> := None;
      if !NoDecoderCase(k, propertyId) {
        response := codec.decodeResponse(propertyId, frame);
      }
      queue := queue + [FrameData(propertyId, header, codec.frameLoad(frame), response)];
      return Ok(());
    }

    /** StreamDataReceived: parse the frames the transport delivered (a header
        error ends the pass), then, unless a synchronous exchange owns the
        queue, forward every queued frame to the subscriber in FIFO order. */
    method StreamDataReceived(frames: seq<Bytes>) returns (r: Result<()>)
      modifies this`queue, this`forwarded
      ensures var pending := old(queue) + Received(codec, k, frames);
              var failed := FirstRejected(codec, frames) < |frames|;
              r == (if failed then Err(HeaderParsing) else Ok(()))
              && if failed || syncExpecting then queue == pending && forwarded == old(forwarded)
                 else queue == [] && forwarded == old(forwarded) + pending
    {
      var i := 0;
      while i < |frames|
        invariant 0 <= i <= |frames|
        invariant forall j :: 0 <= j < i ==> HeaderValid(codec.frameHeader(frames[j]))
        invariant queue == old(queue) + Enqueued(codec, k, frames[..i])
        invariant forwarded == old(forwarded)
      {
        var step := ParseRX(frames[i]);
        if step.Err? {
          assert FirstRejected(codec, frames) == i;
          return Err(HeaderParsing);
        }
        assert frames[..i + 1][..i] == frames[..i];
        i := i + 1;
      }
      assert frames[..|frames|] == frames;
      if syncExpecting {
        return Ok(());
      }
      ghost var pending := queue;
      while queue != []
        invariant forwarded + queue == old(forwarded) + pending
        decreases |queue|
      {
        var frameData := queue[0];
        assert queue == [frameData] + queue[1..];
        queue := queue[1..];
        forwarded := forwarded + [frameData];
      }
      return Ok(());
    }

    /** PropertyChangeValue: transmit a property command; unless the caller
        does not wait, drain the queue after the wait, returning the last
        frame that answers the request and forwarding all others. */
    method PropertyChangeValue(commandId: int, propertyId: int, propertyValue: Bytes, propertyFormat: Option<string>,
                               tid: byte, waitResponse: bool, rx: seq<Bytes>, signalled: bool)
      returns (r: Result<Option<FrameData>>)
      modifies this`queue, this`syncExpecting, this`sent, this`forwarded
      ensures sent == old(sent) + [EncodePacket(codec, commandId, tid, Some(PropertyPayload(codec, propertyId, propertyValue, propertyFormat)))]
      ensures !waitResponse ==> r == Ok(None) && !syncExpecting && queue == old(queue) && forwarded == old(forwarded)
      ensures waitResponse ==> r == old(Outcome(commandId, propertyId, tid, rx, signalled))
                               && AfterExchange(old(queue), old(forwarded), codec.getUid(propertyId, tid), rx, signalled)
    {
      syncExpecting := true;
      var payload := PropertyPayload(codec, propertyId, propertyValue, propertyFormat);
      var uid := codec.getUid(propertyId, tid);
      Transact(commandId, Some(payload), tid);
      if !waitResponse {
        syncExpecting := false;
        return Ok(None);
      }
      // The receive path runs while the caller waits; the queue is owned by
      // this exchange, so it only enqueues.
      var _ := StreamDataReceived(rx);
      if !signalled {
        return Err(Timeout(commandId));
      }
      if |queue| == 0 {
        return Err(NoResponse(commandId));
      }
      var responseFrame := DrainForResponse(uid);
      return Ok(responseFrame);
    }

    /** The drain pass of PropertyChangeValue: dequeue every frame, keep the
        ones carrying `uid` as the response (the last one wins) and forward
        the others in order; the sync flag is cleared when a match is seen. */
    method DrainForResponse(uid: int) returns (responseFrame: Option<FrameData>)
      requires syncExpecting
      modifies this`queue, this`syncExpecting, this`forwarded
      ensures queue == []
      ensures forwarded == old(forwarded) + Unmatched(codec, old(queue), uid)
      ensures responseFrame == LastMatch(codec, old(queue), uid)
      ensures syncExpecting == responseFrame.None?
    {
      responseFrame := None;
      ghost var pending := queue;
      ghost var n := 0;
      while queue != []
        invariant 0 <= n <= |pending| && queue == pending[n..]
        invariant forwarded == old(forwarded) + Unmatched(codec, pending[..n], uid)
        invariant responseFrame == LastMatch(codec, pending[..n], uid)
        invariant syncExpecting == responseFrame.None?
        decreases |queue|
      {
        var frameData := queue[0];
        queue := queue[1..];
        assert pending[..n + 1][..n] == pending[..n];
        if codec.frameUid(frameData) == uid {
          responseFrame := Some(frameData);
          syncExpecting := false;
        } else {
          forwarded := forwarded + [frameData];
        }
        n := n + 1;
      }
      assert pending[..n] == pending;
    }

    /** PropertyGetValue: a get sends the property id with no value and waits. */
    method PropertyGetValue(propertyId: int, tid: byte, rx: seq<Bytes>, signalled: bool) returns (r: Result<Option<FrameData>>)
      modifies this`queue, this`syncExpecting, this`sent, this`forwarded
      ensures sent == old(sent) + [[tid] + codec.encodeValue(k.cmdPropValueGet) + codec.encodeValue(propertyId)]
      ensures r == old(Outcome(k.cmdPropValueGet, propertyId, tid, rx, signalled))
      ensures AfterExchange(old(queue), old(forwarded), codec.getUid(propertyId, tid), rx, signalled)
    {
      GetPacketLayout(codec, k, propertyId, tid, []);
      r := PropertyChangeValue(k.cmdPropValueGet, propertyId, [], None, tid, true, rx, signalled);
    }

    /** PropertySetValue (byte[] overload): a set sends the property id and
        the value bytes and, unless told not to, waits. */
    method PropertySetValue(propertyId: int, propertyValue: Bytes, propertyFormat: string, tid: byte, waitResponse: bool,
                            rx: seq<Bytes>, signalled: bool)
      returns (r: Result<Option<FrameData>>)
      modifies this`queue, this`syncExpecting, this`sent, this`forwarded
      ensures sent == old(sent) + [[tid] + codec.encodeValue(k.cmdPropValueSet) + codec.encodeValue(propertyId) + propertyValue]
      ensures !waitResponse ==> r == Ok(None) && !syncExpecting && queue == old(queue) && forwarded == old(forwarded)
      ensures waitResponse ==> r == old(Outcome(k.cmdPropValueSet, propertyId, tid, rx, signalled))
                               && AfterExchange(old(queue), old(forwarded), codec.getUid(propertyId, tid), rx, signalled)
    {
      SetPacketLayout(codec, k, propertyId, tid, propertyValue, propertyFormat);
      r := PropertyChangeValue(k.cmdPropValueSet, propertyId, propertyValue, Some(propertyFormat), tid, waitResponse, rx, signalled);
    }

    /** PropertySetValue (byte, ushort, uint and string overloads): encode the
        value with its format, then set it with the default TID and wait. */
    method PropertySetTyped(propertyId: int, value: Value, propertyFormat: string, rx: seq<Bytes>, signalled: bool)
      returns (r: Result<Option<FrameData>>)
      modifies this`queue, this`syncExpecting, this`sent, this`forwarded
      ensures r == old(Outcome(k.cmdPropValueSet, propertyId, k.headerDefault, rx, signalled))
      ensures SetDone(old(queue), old(forwarded), old(sent), propertyId, codec.encodeTyped(value, propertyFormat), propertyFormat, rx, signalled)
    {
      var encoded := codec.encodeTyped(value, propertyFormat);
      SetPacketLayout(codec, k, propertyId, k.headerDefault, encoded, propertyFormat);
      r := PropertySetValue(propertyId, encoded, propertyFormat, k.headerDefault, true, rx, signalled);
    }

    /** A setter whose check unboxes the echoed response. */
    method SetUnboxed(propertyId: int, value: Value, propertyFormat: string, expected: Value, rx: seq<Bytes>, signalled: bool)
      returns (r: Result<bool>)
      modifies this`queue, this`syncExpecting, this`sent, this`forwarded
      ensures r == EchoUnboxed(old(Outcome(k.cmdPropValueSet, propertyId, k.headerDefault, rx, signalled)), expected)
      ensures SetDone(old(queue), old(forwarded), old(sent), propertyId, codec.encodeTyped(value, propertyFormat), propertyFormat, rx, signalled)
    {
      var frameData := PropertySetTyped(propertyId, value, propertyFormat, rx, signalled);
      r := EchoUnboxed(frameData, expected);
    }

    /** A setter whose check compares the echoed response's text. */
    method SetText(propertyId: int, text: string, rx: seq<Bytes>, signalled: bool) returns (r: Result<bool>)
      modifies this`queue, this`syncExpecting, this`sent, this`forwarded
      ensures r == EchoText(codec, old(Outcome(k.cmdPropValueSet, propertyId, k.headerDefault, rx, signalled)), text)
      ensures SetDone(old(queue), old(forwarded), old(sent), propertyId, codec.encodeTyped(Text(text), "U"), "U", rx, signalled)
    {
      var frameData := PropertySetTyped(propertyId, Text(text), "U", rx, signalled);
      r := EchoText(codec, frameData, text);
    }

    /** A setter of raw bytes whose check compares the echoed byte array. */
    method SetData(propertyId: int, data: Bytes, rx: seq<Bytes>, signalled: bool) returns (r: Result<bool>)
      modifies this`queue, this`syncExpecting, this`sent, this`forwarded
      ensures r == EchoData(old(Outcome(k.cmdPropValueSet, propertyId, k.headerDefault, rx, signalled)), data)
      ensures SetDone(old(queue), old(forwarded), old(sent), propertyId, data, "D", rx, signalled)
    {
      SetPacketLayout(codec, k, propertyId, k.headerDefault, data, "D");
      var frameData := PropertySetValue(propertyId, data, "D", k.headerDefault, true, rx, signalled);
      r := EchoData(frameData, data);
    }

    /** A setter of a boolean property: sends 1 or 0 as a byte and expects
        the boolean echoed back. */
    method SetFlag(propertyId: int, state: bool, rx: seq<Bytes>, signalled: bool) returns (r: Result<bool>)
      modifies this`queue, this`syncExpecting, this`sent, this`forwarded
      ensures r == EchoUnboxed(old(Outcome(k.cmdPropValueSet, propertyId, k.headerDefault, rx, signalled)), Flag(state))
      ensures SetDone(old(queue), old(forwarded), old(sent), propertyId, codec.encodeTyped(Byte(if state then 1 else 0), "b"), "b", rx, signalled)
    {
      r := SetUnboxed(propertyId, Byte(if state then 1 else 0), "b", Flag(state), rx, signalled);
    }

    method DoNetworkName(networkName: string, rx: seq<Bytes>, signalled: bool) returns (r: Result<bool>)
      modifies this`queue, this`syncExpecting, this`sent, this`forwarded
      ensures r == EchoText(codec, old(Outcome(k.cmdPropValueSet, k.propNetworkName, k.headerDefault, rx, signalled)), networkName)
      ensures SetDone(old(queue), old(forwarded), old(sent), k.propNetworkName, codec.encodeTyped(Text(networkName), "U"), "U", rx, signalled)
    {
      r := SetText(k.propNetworkName, networkName, rx, signalled);
    }

    method SetNetNetworkName(threadNetworkName: string, rx: seq<Bytes>, signalled: bool) returns (r: Result<bool>)
      modifies this`queue, this`syncExpecting, this`sent, this`forwarded
      ensures r == EchoText(codec, old(Outcome(k.cmdPropValueSet, k.propNetworkName, k.headerDefault, rx, signalled)), threadNetworkName)
      ensures SetDone(old(queue), old(forwarded), old(sent), k.propNetworkName, codec.encodeTyped(Text(threadNetworkName), "U"), "U", rx, signalled)
    {
      r := SetText(k.propNetworkName, threadNetworkName, rx, signalled);
    }

    method DoNetRole(role: byte, rx: seq<Bytes>, signalled: bool) returns (r: Result<bool>)
      modifies this`queue, this`syncExpecting, this`sent, this`forwarded
      ensures r == EchoUnboxed(old(Outcome(k.cmdPropValueSet, k.propNetRole, k.headerDefault, rx, signalled)), Byte(role))
      ensures SetDone(old(queue), old(forwarded), old(sent), k.propNetRole, codec.encodeTyped(Byte(role), "C"), "C", rx, signalled)
    {
      r := SetUnboxed(k.propNetRole, Byte(role), "C", Byte(role), rx, signalled);
    }

    /** SetNetRole: the role enum has a byte representation. */
    method SetNetRole(threadDeviceRole: byte, rx: seq<Bytes>, signalled: bool) returns (r: Result<bool>)
      modifies this`queue, this`syncExpecting, this`sent, this`forwarded
      ensures r == EchoUnboxed(old(Outcome(k.cmdPropValueSet, k.propNetRole, k.headerDefault, rx, signalled)), Byte(threadDeviceRole))
      ensures SetDone(old(queue), old(forwarded), old(sent), k.propNetRole, codec.encodeTyped(Byte(threadDeviceRole), "C"), "C", rx, signalled)
    {
      r := SetUnboxed(k.propNetRole, Byte(threadDeviceRole), "C", Byte(threadDeviceRole), rx, signalled);
    }

    method DoPowerState(powerState: byte, rx: seq<Bytes>, signalled: bool) returns (r: Result<bool>)
      modifies this`queue, this`syncExpecting, this`sent, this`forwarded
      ensures r == EchoUnboxed(old(Outcome(k.cmdPropValueSet, k.propPowerState, k.headerDefault, rx, signalled)), Byte(powerState))
      ensures SetDone(old(queue), old(forwarded), old(sent), k.propPowerState, codec.encodeTyped(Byte(powerState), "C"), "C", rx, signalled)
    {
      r := SetUnboxed(k.propPowerState, Byte(powerState), "C", Byte(powerState), rx, signalled);
    }

    method DoChannel(channel: byte, rx: seq<Bytes>, signalled: bool) returns (r: Result<bool>)
      modifies this`queue, this`syncExpecting, this`sent, this`forwarded
      ensures r == EchoUnboxed(old(Outcome(k.cmdPropValueSet, k.propPhyChan, k.headerDefault, rx, signalled)), Byte(channel))
      ensures SetDone(old(queue), old(forwarded), old(sent), k.propPhyChan, codec.encodeTyped(Byte(channel), "C"), "C", rx, signalled)
    {
      r := SetUnboxed(k.propPhyChan, Byte(channel), "C", Byte(channel), rx, signalled);
    }

    method DoChannelsMask(channels: Bytes, rx: seq<Bytes>, signalled: bool) returns (r: Result<bool>)
      modifies this`queue, this`syncExpecting, this`sent, this`forwarded
      ensures r == EchoData(old(Outcome(k.cmdPropValueSet, k.propScanMask, k.headerDefault, rx, signalled)), channels)
      ensures SetDone(old(queue), old(forwarded), old(sent), k.propScanMask, channels, "D", rx, signalled)
    {
      r := SetData(k.propScanMask, channels, rx, signalled);
    }

    method DoPanId(panId: bv16, rx: seq<Bytes>, signalled: bool) returns (r: Result<bool>)
      modifies this`queue, this`syncExpecting, this`sent, this`forwarded
      ensures r == EchoUnboxed(old(Outcome(k.cmdPropValueSet, k.propPanId, k.headerDefault, rx, signalled)), UShort(panId))
      ensures SetDone(old(queue), old(forwarded), old(sent), k.propPanId, codec.encodeTyped(UShort(panId), "S"), "S", rx, signalled)
    {
      r := SetUnboxed(k.propPanId, UShort(panId), "S", UShort(panId), rx, signalled);
    }

    method DoXpanId(xpanId: Bytes, rx: seq<Bytes>, signalled: bool) returns (r: Result<bool>)
      modifies this`queue, this`syncExpecting, this`sent, this`forwarded
      ensures r == EchoData(old(Outcome(k.cmdPropValueSet, k.propXpanId, k.headerDefault, rx, signalled)), xpanId)
      ensures SetDone(old(queue), old(forwarded), old(sent), k.propXpanId, xpanId, "D", rx, signalled)
    {
      r := SetData(k.propXpanId, xpanId, rx, signalled);
    }

    method SetNetXPANId(extendedPanId: Bytes, rx: seq<Bytes>, signalled: bool) returns (r: Result<bool>)
      modifies this`queue, this`syncExpecting, this`sent, this`forwarded
      ensures r == EchoData(old(Outcome(k.cmdPropValueSet, k.propXpanId, k.headerDefault, rx, signalled)), extendedPanId)
      ensures SetDone(old(queue), old(forwarded), old(sent), k.propXpanId, extendedPanId, "D", rx, signalled)
    {
      r := SetData(k.propXpanId, extendedPanId, rx, signalled);
    }

    method DoInterfaceConfig(interfaceState: bool, rx: seq<Bytes>, signalled: bool) returns (r: Result<bool>)
      modifies this`queue, this`syncExpecting, this`sent, this`forwarded
      ensures r == EchoUnboxed(old(Outcome(k.cmdPropValueSet, k.propNetIfUp, k.headerDefault, rx, signalled)), Flag(interfaceState))
      ensures SetDone(old(queue), old(forwarded), old(sent), k.propNetIfUp, codec.encodeTyped(Byte(if interfaceState then 1 else 0), "b"), "b", rx, signalled)
    {
      r := SetFlag(k.propNetIfUp, interfaceState, rx, signalled);
    }

    method SetNetIfUp(networkInterfaceStatus: bool, rx: seq<Bytes>, signalled: bool) returns (r: Result<bool>)
      modifies this`queue, this`syncExpecting, this`sent, this`forwarded
      ensures r == EchoUnboxed(old(Outcome(k.cmdPropValueSet, k.propNetIfUp, k.headerDefault, rx, signalled)), Flag(networkInterfaceStatus))
      ensures SetDone(old(queue), old(forwarded), old(sent), k.propNetIfUp, codec.encodeTyped(Byte(if networkInterfaceStatus then 1 else 0), "b"), "b", rx, signalled)
    {
      r := SetFlag(k.propNetIfUp, networkInterfaceStatus, rx, signalled);
    }

    method DoThread(threadState: bool, rx: seq<Bytes>, signalled: bool) returns (r: Result<bool>)
      modifies this`queue, this`syncExpecting, this`sent, this`forwarded
      ensures r == EchoUnboxed(old(Outcome(k.cmdPropValueSet, k.propStackUp, k.headerDefault, rx, signalled)), Flag(threadState))
      ensures SetDone(old(queue), old(forwarded), old(sent), k.propStackUp, codec.encodeTyped(Byte(if threadState then 1 else 0), "b"), "b", rx, signalled)
    {
      r := SetFlag(k.propStackUp, threadState, rx, signalled);
    }

    method SetNetStackUp(threadStackStatus: bool, rx: seq<Bytes>, signalled: bool) returns (r: Result<bool>)
      modifies this`queue, this`syncExpecting, this`sent, this`forwarded
      ensures r == EchoUnboxed(old(Outcome(k.cmdPropValueSet, k.propStackUp, k.headerDefault, rx, signalled)), Flag(threadStackStatus))
      ensures SetDone(old(queue), old(forwarded), old(sent), k.propStackUp, codec.encodeTyped(Byte(if threadStackStatus then 1 else 0), "b"), "b", rx, signalled)
    {
      r := SetFlag(k.propStackUp, threadStackStatus, rx, signalled);
    }

    method DoPropertyNetRequireJoinExisting(state: bool, rx: seq<Bytes>, signalled: bool) returns (r: Result<bool>)
      modifies this`queue, this`syncExpecting, this`sent, this`forwarded
      ensures r == EchoUnboxed(old(Outcome(k.cmdPropValueSet, k.propRequireJoinExisting, k.headerDefault, rx, signalled)), Flag(state))
      ensures SetDone(old(queue), old(forwarded), old(sent), k.propRequireJoinExisting, codec.encodeTyped(Byte(if state then 1 else 0), "b"), "b", rx, signalled)
    {
      r := SetFlag(k.propRequireJoinExisting, state, rx, signalled);
    }

    method DoMasterkey(masterKey: Bytes, rx: seq<Bytes>, signalled: bool) returns (r: Result<bool>)
      modifies this`queue, this`syncExpecting, this`sent, this`forwarded
      ensures r == EchoData(old(Outcome(k.cmdPropValueSet, k.propNetworkKey, k.headerDefault, rx, signalled)), masterKey)
      ensures SetDone(old(queue), old(forwarded), old(sent), k.propNetworkKey, masterKey, "D", rx, signalled)
    {
      r := SetData(k.propNetworkKey, masterKey, rx, signalled);
    }

    method SetNetNetworkKey(threadNetworkKey: Bytes, rx: seq<Bytes>, signalled: bool) returns (r: Result<bool>)
      modifies this`queue, this`syncExpecting, this`sent, this`forwarded
      ensures r == EchoData(old(Outcome(k.cmdPropValueSet, k.propNetworkKey, k.headerDefault, rx, signalled)), threadNetworkKey)
      ensures SetDone(old(queue), old(forwarded), old(sent), k.propNetworkKey, threadNetworkKey, "D", rx, signalled)
    {
      r := SetData(k.propNetworkKey, threadNetworkKey, rx, signalled);
    }

    method SetNetNetworkPSKC(threadNetworkPskc: Bytes, rx: seq<Bytes>, signalled: bool) returns (r: Result<bool>)
      modifies this`queue, this`syncExpecting, this`sent, this`forwarded
      ensures r == EchoData(old(Outcome(k.cmdPropValueSet, k.propPskc, k.headerDefault, rx, signalled)), threadNetworkPskc)
      ensures SetDone(old(queue), old(forwarded), old(sent), k.propPskc, threadNetworkPskc, "D", rx, signalled)
    {
      r := SetData(k.propPskc, threadNetworkPskc, rx, signalled);
    }

    method SetNetKeySequenceCounter(counter: bv32, rx: seq<Bytes>, signalled: bool) returns (r: Result<bool>)
      modifies this`queue, this`syncExpecting, this`sent, this`forwarded
      ensures r == EchoUnboxed(old(Outcome(k.cmdPropValueSet, k.propKeySequenceCounter, k.headerDefault, rx, signalled)), UInt(counter))
      ensures SetDone(old(queue), old(forwarded), old(sent), k.propKeySequenceCounter, codec.encodeTyped(UInt(counter), "L"), "L", rx, signalled)
    {
      r := SetUnboxed(k.propKeySequenceCounter, UInt(counter), "L", UInt(counter), rx, signalled);
    }

    method SetNetPartitionId(partitionId: bv32, rx: seq<Bytes>, signalled: bool) returns (r: Result<bool>)
      modifies this`queue, this`syncExpecting, this`sent, this`forwarded
      ensures r == EchoUnboxed(old(Outcome(k.cmdPropValueSet, k.propPartitionId, k.headerDefault, rx, signalled)), UInt(partitionId))
      ensures SetDone(old(queue), old(forwarded), old(sent), k.propPartitionId, codec.encodeTyped(UInt(partitionId), "L"), "L", rx, signalled)
    {
      r := SetUnboxed(k.propPartitionId, UInt(partitionId), "L", UInt(partitionId), rx, signalled);
    }

    /** DoScan: set the scan state; the response is not checked, only the
        exchange's errors reach the caller. */
    method DoScan(scanState: byte, rx: seq<Bytes>, signalled: bool) returns (r: Result<()>)
      modifies this`queue, this`syncExpecting, this`sent, this`forwarded
      ensures var out := old(Outcome(k.cmdPropValueSet, k.propScanState, k.headerDefault, rx, signalled));
              r == if out.Err? then Err(out.error) else Ok(())
      ensures SetDone(old(queue), old(forwarded), old(sent), k.propScanState, codec.encodeTyped(Byte(scanState), "C"), "C", rx, signalled)
    {
      var frameData := PropertySetTyped(k.propScanState, Byte(scanState), "C", rx, signalled);
      r := if frameData.Err? then Err(frameData.error) else Ok(());
    }

    /** DoCountersReset: write 1 to the counters-reset property. */
    method DoCountersReset(rx: seq<Bytes>, signalled: bool) returns (r: Result<()>)
      modifies this`queue, this`syncExpecting, this`sent, this`forwarded
      ensures var out := old(Outcome(k.cmdPropValueSet, k.propCountersReset, k.headerDefault, rx, signalled));
              r == if out.Err? then Err(out.error) else Ok(())
      ensures SetDone(old(queue), old(forwarded), old(sent), k.propCountersReset, codec.encodeTyped(Byte(1), "C"), "C", rx, signalled)
    {
      var frameData := PropertySetTyped(k.propCountersReset, Byte(1), "C", rx, signalled);
      r := if frameData.Err? then Err(frameData.error) else Ok(());
    }

    /** DoSendData: send an outbound IPv6 frame on the stream property with
        TID 129; without waiting it is fire-and-forget. */
    method DoSendData(frame: Bytes, waitResponse: bool, rx: seq<Bytes>, signalled: bool) returns (r: Result<()>)
      modifies this`queue, this`syncExpecting, this`sent, this`forwarded
      ensures sent == old(sent) + [[0x81] + codec.encodeValue(k.cmdPropValueSet) + codec.encodeValue(k.propStreamNet)
                                   + codec.encodeDataWithLength(frame)]
      ensures !waitResponse ==> r == Ok(()) && !syncExpecting && queue == old(queue) && forwarded == old(forwarded)
      ensures waitResponse ==> var out := old(Outcome(k.cmdPropValueSet, k.propStreamNet, 0x81, rx, signalled));
                               r == (if out.Err? then Err(out.error) else Ok(()))
                               && AfterExchange(old(queue), old(forwarded), codec.getUid(k.propStreamNet, 0x81), rx, signalled)
    {
      var dataCombined := codec.encodeDataWithLength(frame);
      var frameData := PropertySetValue(k.propStreamNet, dataCombined, "dD", 0x81, waitResponse, rx, signalled);
      r := if frameData.Err? then Err(frameData.error) else Ok(());
    }
  }
}
