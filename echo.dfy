/** The echo check of the property setters: the NCP acknowledges a set by
    echoing the new value, and a setter reports success exactly when the
    response frame exists and its value equals the requested one. The
    response is an untyped object in the driver; the unboxing casts and the
    ToString call of the setters are modelled with their failure cases. */
module Echo {
  import opened Spinel
  import opened SpinelReceive
  import opened Correlation

  /** Both values have the same run-time type, so an unboxing cast of one to
      the type of the other succeeds. */
  predicate SameType(a: Value, b: Value) {
    (a.Byte? && b.Byte?) || (a.UShort? && b.UShort?) || (a.UInt? && b.UInt?)
    || (a.Flag? && b.Flag?) || (a.Text? && b.Text?) || (a.Data? && b.Data?)
    || (a.Structured? && b.Structured?)
  }

  /** Response.ToString(): a string is itself, anything else is rendered. */
  function AsText(codec: Codec, v: Value): string {
    if v.Text? then v.s else codec.render(v)
  }

  /** Setters that unbox the response ((byte), (ushort), (uint), (bool) or an
      enum cast) and compare it with the requested value. A null response
      fails the unboxing, a response of another type fails the cast. */
  function EchoUnboxed(resp: Result<Option<FrameData>>, expected: Value): (r: Result<bool>)
    ensures r == Ok(true) <==> resp.Ok? && resp.value.Some? && resp.value.value.response == Some(expected)
    ensures r == Ok(false) <==>
              resp == Ok(None)
              || (resp.Ok? && resp.value.Some? && resp.value.value.response.Some?
                  && SameType(resp.value.value.response.value, expected)
                  && resp.value.value.response.value != expected)
    ensures resp.Ok? && resp.value.Some? && resp.value.value.response.None? ==> r == Err(NullResponse)
    ensures resp.Ok? && resp.value.Some? && resp.value.value.response.Some?
            && !SameType(resp.value.value.response.value, expected)
            ==> r == Err(InvalidCast)
    ensures resp.Err? ==> r == Err(resp.error)
  {
    match resp
    case Err(e) => Err(e)
    case Ok(None) => Ok(false)
    case Ok(Some(f)) =>
      match f.response
      case None => Err(NullResponse)
      case Some(v) => if SameType(v, expected) then Ok(v == expected) else Err(InvalidCast)
  }

  /** Setters that compare Response.ToString() with the requested string;
      a null response cannot be turned into a string. */
  function EchoText(codec: Codec, resp: Result<Option<FrameData>>, expected: string): (r: Result<bool>)
    ensures r == Ok(true) <==>
              resp.Ok? && resp.value.Some? && resp.value.value.response.Some?
              && AsText(codec, resp.value.value.response.value) == expected
    ensures resp == Ok(None) ==> r == Ok(false)
    ensures resp.Ok? && resp.value.Some? && resp.value.value.response.None? ==> r == Err(NullResponse)
    ensures resp.Ok? && resp.value.Some? && resp.value.value.response.Some? ==>
              r == Ok(AsText(codec, resp.value.value.response.value) == expected)
    ensures resp.Err? ==> r == Err(resp.error)
  {
    match resp
    case Err(e) => Err(e)
    case Ok(None) => Ok(false)
    case Ok(Some(f)) =>
      match f.response
      case None => Err(NullResponse)
      case Some(v) => Ok(AsText(codec, v) == expected)
  }

  /** Setters that cast the response to byte[] and compare it element by
      element with the requested bytes. A null response casts to null, which
      compares unequal; a response of another type fails the cast. */
  function EchoData(resp: Result<Option<FrameData>>, expected: Bytes): (r: Result<bool>)
    ensures r == Ok(true) <==> resp.Ok? && resp.value.Some? && resp.value.value.response == Some(Data(expected))
    ensures resp == Ok(None) ==> r == Ok(false)
    ensures resp.Ok? && resp.value.Some? && resp.value.value.response.None? ==> r == Ok(false)
    ensures resp.Ok? && resp.value.Some? && resp.value.value.response.Some? && resp.value.value.response.value.Data?
            ==> r == Ok(resp.value.value.response.value.bytes == expected)
    ensures resp.Ok? && resp.value.Some? && resp.value.value.response.Some? && !resp.value.value.response.value.Data?
            ==> r == Err(InvalidCast)
    ensures resp.Err? ==> r == Err(resp.error)
  {
    match resp
    case Err(e) => Err(e)
    case Ok(None) => Ok(false)
    case Ok(Some(f)) =>
      match f.response
      case None => Ok(false)
      case Some(v) => if v.Data? then Ok(v.bytes == expected) else Err(InvalidCast)
  }

  /** A text echo is compared exactly: when the response is a string, the
      setter succeeds iff that string is the requested one. */
  lemma TextEchoExact(codec: Codec, f: FrameData, s: string, expected: string)
    requires f.response == Some(Text(s))
    ensures EchoText(codec, Ok(Some(f)), expected) == Ok(s == expected)
  {
  }

  /** Setting the network name "OpenThread" succeeds when the NCP echoes
      "OpenThread" and fails when it echoes "openthread". */
  lemma NetworkNameEchoCaseSensitive(codec: Codec, f: FrameData, g: FrameData)
    requires f.response == Some(Text("OpenThread")) && g.response == Some(Text("openthread"))
    ensures EchoText(codec, Ok(Some(f)), "OpenThread") == Ok(true)
    ensures EchoText(codec, Ok(Some(g)), "OpenThread") == Ok(false)
  {
    assert "openthread"[0] != "OpenThread"[0];
  }

  /** A setter for a property the decoder switch has no case for can never
      confirm its value. Every frame answering the request carries a null
      Response, so once an answer is found an unboxing check fails with a
      null-reference error and a byte-array check compares null and returns
      false. This holds for the key sequence counter, the partition id and
      the PSKc setters. */
  lemma {:induction false} UndecodedEchoNeverConfirms(codec: Codec, k: Constants, q: seq<FrameData>, rx: seq<Bytes>,
                                                      uid: int, commandId: int, signalled: bool, propertyId: nat,
                                                      expected: Value, data: Bytes)
    requires NoDecoderCase(k, propertyId)
    requires forall i :: 0 <= i < |q| && Matches(codec, q[i], uid) ==> q[i].response == None
    requires forall j :: 0 <= j < |rx| && Matches(codec, FrameOf(codec, k, rx[j]), uid) ==>
               codec.framePropertyId(rx[j]) == propertyId
    ensures var out := Exchange(codec, q + Received(codec, k, rx), uid, commandId, signalled);
            EchoUnboxed(out, expected) == (if out.Err? then Err(out.error) else if out.value.Some? then Err(NullResponse) else Ok(false))
            && EchoData(out, data) == (if out.Err? then Err(out.error) else Ok(false))
  {
    var pending := q + Received(codec, k, rx);
    var out := Exchange(codec, pending, uid, commandId, signalled);
    if out.Ok? && out.value.Some? {
      LastMatchSpec(codec, pending, uid);
      var i :| 0 <= i < |pending| && pending[i] == out.value.value && Matches(codec, pending[i], uid)
               && forall j :: i < j < |pending| ==> !Matches(codec, pending[j], uid);
      if i >= |q| {
        var prefix := rx[..FirstRejected(codec, rx)];
        assert pending[i] in Enqueued(codec, k, prefix);
        EnqueuedMembers(codec, k, prefix);
        var j :| 0 <= j < |prefix| && Screen(codec, k, prefix[j]) == Ok(Some(pending[i]));
        assert prefix[j] == rx[j];
      }
    }
  }
}
