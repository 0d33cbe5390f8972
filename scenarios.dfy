/** Client scenarios run against the engine's contracts alone. */
module Scenarios {
  import opened Spinel
  import opened SpinelReceive
  import opened Correlation
  import opened Echo
  import opened NCP

  /** Two frames arrive while a get waits: an unrelated one, then the answer.
      The caller receives the answer, the subscriber the unrelated frame
      (`delivered`), and the engine ends with an empty queue (`pending`) and
      no synchronous exchange outstanding (`busy`). */
  method OutOfOrderExchange(codec: Codec, k: Constants, propertyId: int, rx: seq<Bytes>)
    returns (resp: Result<Option<FrameData>>, pending: seq<FrameData>, busy: bool, ghost delivered: seq<FrameData>)
    requires |rx| == 2
    requires forall i :: 0 <= i < |rx| ==> Screen(codec, k, rx[i]).Ok? && Screen(codec, k, rx[i]).value.Some?
    requires !Matches(codec, FrameOf(codec, k, rx[0]), codec.getUid(propertyId, k.headerDefault))
    requires Matches(codec, FrameOf(codec, k, rx[1]), codec.getUid(propertyId, k.headerDefault))
    ensures resp == Ok(Some(FrameOf(codec, k, rx[1])))
    ensures delivered == [FrameOf(codec, k, rx[0])]
    ensures pending == [] && !busy
  {
    var api := new WpanApi(codec, k);
    var uid := codec.getUid(propertyId, k.headerDefault);
    var other, answer := FrameOf(codec, k, rx[0]), FrameOf(codec, k, rx[1]);
    ReceivedBoth(codec, k, rx);
    OutOfOrderResponse(codec, other, answer, uid, k.cmdPropValueGet);
    resp := api.PropertyGetValue(propertyId, k.headerDefault, rx, true);
    assert [] + [other, answer] == [other, answer];
    delivered, pending, busy := api.forwarded, api.queue, api.syncExpecting;
  }

  /** Two accepted frames with valid headers are both queued, in order. */
  lemma ReceivedBoth(codec: Codec, k: Constants, rx: seq<Bytes>)
    requires |rx| == 2
    requires forall i :: 0 <= i < |rx| ==> Screen(codec, k, rx[i]).Ok? && Screen(codec, k, rx[i]).value.Some?
    ensures Received(codec, k, rx) == [FrameOf(codec, k, rx[0]), FrameOf(codec, k, rx[1])]
  {
    EnqueuedInOrder(codec, k, rx);
    assert FirstRejected(codec, rx) == 2;
    assert rx[..2] == rx;
  }

  /** After a get times out the engine still believes a synchronous exchange
      owns the queue, so frames that arrive next are queued and not handed to
      the subscriber. */
  method UnsolicitedAfterTimeout(codec: Codec, k: Constants, propertyId: int, frames: seq<Bytes>) returns (undelivered: seq<FrameData>)
    ensures undelivered == Received(codec, k, frames)
  {
    var api := new WpanApi(codec, k);
    var r := api.PropertyGetValue(propertyId, k.headerDefault, [], false);
    assert r == Err(Timeout(k.cmdPropValueGet)) && api.syncExpecting;
    var _ := api.StreamDataReceived(frames);
    assert api.forwarded == [];
    undelivered := api.queue;
  }

  /** Setting the key sequence counter on a fresh engine never reports
      success: the echoed frame has no decoded Response, so a found answer
      ends in the null-reference error of the unboxing cast. */
  method KeySequenceCounterNeverConfirmed(codec: Codec, k: Constants, counter: bv32, rx: seq<Bytes>, signalled: bool)
    returns (r: Result<bool>)
    requires forall j :: 0 <= j < |rx| && Matches(codec, FrameOf(codec, k, rx[j]), codec.getUid(k.propKeySequenceCounter, k.headerDefault))
               ==> codec.framePropertyId(rx[j]) == k.propKeySequenceCounter
    ensures r != Ok(true)
    ensures signalled && LastMatch(codec, Received(codec, k, rx), codec.getUid(k.propKeySequenceCounter, k.headerDefault)).Some?
            ==> r == Err(NullResponse)
  {
    var api := new WpanApi(codec, k);
    UndecodedEchoNeverConfirms(codec, k, [], rx, codec.getUid(k.propKeySequenceCounter, k.headerDefault),
                               k.cmdPropValueSet, signalled, k.propKeySequenceCounter, UInt(counter), []);
    assert [] + Received(codec, k, rx) == Received(codec, k, rx);
    r := api.SetNetKeySequenceCounter(counter, rx, signalled);
  }
}
