/** Screening of received frames (WpanApi.ParseRX): the header check, the
    dropped child-table notifications, and the frame that is queued. */
module SpinelReceive {
  import opened Spinel

  predicate HeaderValid(header: byte) {
    header & HeaderFlag == HeaderFlag
  }

  /** Child-table insert and remove notifications carry no response and are
      dropped without being queued. */
  predicate IsChildTableNotification(k: Constants, command: nat, propertyId: nat) {
    propertyId == k.propChildTable
    && (command == k.rspPropValueInserted || command == k.rspPropValueRemoved)
  }

  /** The FrameData built from a frame: property id, header, load and the
      response the decoder switch produced (null when it has no case). */
  function FrameOf(codec: Codec, k: Constants, frame: Bytes): FrameData {
    var propertyId := codec.framePropertyId(frame);
    var response := if NoDecoderCase(k, propertyId) then None else codec.decodeResponse(propertyId, frame);
    FrameData(propertyId, codec.frameHeader(frame), codec.frameLoad(frame), response)
  }

  /** What ParseRX does with one frame: a header error, nothing to queue, or
      the one FrameData to append to the queue. */
  function Screen(codec: Codec, k: Constants, frame: Bytes): (r: Result<Option<FrameData>>)
    ensures r.Err? <==> !HeaderValid(codec.frameHeader(frame))
    ensures r.Err? ==> r.error == HeaderParsing
    ensures r == Ok(None)
        <==> HeaderValid(codec.frameHeader(frame))
             && IsChildTableNotification(k, codec.frameCommand(frame), codec.framePropertyId(frame))
    ensures r.Ok? && r.value.Some? ==>
              r.value.value.header == codec.frameHeader(frame)
              && r.value.value.propertyId == codec.framePropertyId(frame)
              && r.value.value.load == codec.frameLoad(frame)
    ensures r.Ok? && r.value.Some? && NoDecoderCase(k, codec.framePropertyId(frame)) ==>
              r.value.value.response == None
    ensures r.Ok? && r.value.Some? && !NoDecoderCase(k, codec.framePropertyId(frame)) ==>
              r.value.value.response == codec.decodeResponse(codec.framePropertyId(frame), frame)
  {
    var header := codec.frameHeader(frame);
    if !HeaderValid(header) then
      Err(HeaderParsing)
    else if IsChildTableNotification(k, codec.frameCommand(frame), codec.framePropertyId(frame)) then
      Ok(None)
    else
      Ok(Some(FrameOf(codec, k, frame)))
  }

  /** The queue entries one screening outcome contributes. */
  function Kept(r: Result<Option<FrameData>>): seq<FrameData> {
    if r.Ok? && r.value.Some? then [r.value.value] else []
  }

  /** Index of the first frame whose header is rejected, or the number of
      frames when every header is valid: ParseRX's exception ends the pass
      there, and later frames of the pass are not parsed. */
  function FirstRejected(codec: Codec, frames: seq<Bytes>): (i: nat)
    ensures i <= |frames|
    ensures forall j :: 0 <= j < i ==> HeaderValid(codec.frameHeader(frames[j]))
    ensures i < |frames| ==> !HeaderValid(codec.frameHeader(frames[i]))
  {
    if frames == [] then 0
    else if !HeaderValid(codec.frameHeader(frames[0])) then 0
    else 1 + FirstRejected(codec, frames[1..])
  }

  /** The entries that parsing `frames` one after another appends to the queue. */
  function Enqueued(codec: Codec, k: Constants, frames: seq<Bytes>): seq<FrameData> {
    if frames == [] then []
    else Enqueued(codec, k, frames[..|frames| - 1]) + Kept(Screen(codec, k, frames[|frames| - 1]))
  }

  /** The entries one receive pass appends: those of the frames before the
      first rejected header. */
  function Received(codec: Codec, k: Constants, frames: seq<Bytes>): seq<FrameData> {
    Enqueued(codec, k, frames[..FirstRejected(codec, frames)])
  }

  /** A receive pass queues at most one entry per frame, and a frame is queued
      exactly when its screening accepts it. */
  lemma {:induction false} EnqueuedMembers(codec: Codec, k: Constants, frames: seq<Bytes>)
    ensures |Enqueued(codec, k, frames)| <= |frames|
    ensures forall f :: f in Enqueued(codec, k, frames)
              <==> exists i :: 0 <= i < |frames| && Screen(codec, k, frames[i]) == Ok(Some(f))
  {
    if frames != [] {
      var init := frames[..|frames| - 1];
      EnqueuedMembers(codec, k, init);
      forall f
        ensures f in Enqueued(codec, k, frames)
            <==> exists i :: 0 <= i < |frames| && Screen(codec, k, frames[i]) == Ok(Some(f))
      {
        if f in Enqueued(codec, k, frames) {
          if f in Enqueued(codec, k, init) {
            var i :| 0 <= i < |init| && Screen(codec, k, init[i]) == Ok(Some(f));
            assert frames[i] == init[i];
          } else {
            assert Screen(codec, k, frames[|frames| - 1]) == Ok(Some(f));
          }
        }
        if exists i :: 0 <= i < |frames| && Screen(codec, k, frames[i]) == Ok(Some(f)) {
          var i :| 0 <= i < |frames| && Screen(codec, k, frames[i]) == Ok(Some(f));
          if i < |frames| - 1 {
            assert init[i] == frames[i];
          }
        }
      }
    }
  }

  /** When no frame is rejected or dropped, every frame is queued, in arrival
      order, as the FrameData decoded from it. */
  lemma {:induction false} EnqueuedInOrder(codec: Codec, k: Constants, frames: seq<Bytes>)
    requires forall i :: 0 <= i < |frames| ==> Screen(codec, k, frames[i]).Ok? && Screen(codec, k, frames[i]).value.Some?
    ensures |Enqueued(codec, k, frames)| == |frames|
    ensures forall i :: 0 <= i < |frames| ==> Enqueued(codec, k, frames)[i] == FrameOf(codec, k, frames[i])
  {
    if frames != [] {
      var init := frames[..|frames| - 1];
      forall i | 0 <= i < |init|
        ensures Screen(codec, k, init[i]).Ok? && Screen(codec, k, init[i]).value.Some?
      {
        assert init[i] == frames[i];
      }
      EnqueuedInOrder(codec, k, init);
    }
  }
}
