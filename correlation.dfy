/** Correlating queued frames with the outstanding request
    (WpanApi.PropertyChangeValue, lines 1013-1042): which frame becomes the
    response, which frames go to the FrameDataReceived subscriber, and the
    outcome of a synchronous exchange. */
module Correlation {
  import opened Spinel

  predicate Matches(codec: Codec, f: FrameData, uid: int) {
    codec.frameUid(f) == uid
  }

  /** The frames the drain pass forwards to the subscriber, in queue order. */
  function Unmatched(codec: Codec, q: seq<FrameData>, uid: int): seq<FrameData> {
    if q == [] then []
    else Unmatched(codec, q[..|q| - 1], uid) + (if Matches(codec, q[|q| - 1], uid) then [] else [q[|q| - 1]])
  }

  /** The frames of the queue that carry the request's UID, in queue order. */
  function Matched(codec: Codec, q: seq<FrameData>, uid: int): seq<FrameData> {
    if q == [] then []
    else Matched(codec, q[..|q| - 1], uid) + (if Matches(codec, q[|q| - 1], uid) then [q[|q| - 1]] else [])
  }

  /** The response the drain pass ends with: each matching frame overwrites
      the previous one, so it is the last match, or null when none matched. */
  function LastMatch(codec: Codec, q: seq<FrameData>, uid: int): Option<FrameData> {
    if q == [] then None
    else if Matches(codec, q[|q| - 1], uid) then Some(q[|q| - 1])
    else LastMatch(codec, q[..|q| - 1], uid)
  }

  /** The result of a synchronous exchange once the packet is sent: a timeout
      when the wait fails, "no response" when the wait ends on an empty
      queue, otherwise the last matching frame (null when none matched). */
  function Exchange(codec: Codec, q: seq<FrameData>, uid: int, commandId: int, signalled: bool): Result<Option<FrameData>> {
    if !signalled then Err(Timeout(commandId))
    else if q == [] then Err(NoResponse(commandId))
    else Ok(LastMatch(codec, q, uid))
  }

  /** No forwarded frame carries the request's UID, and every frame that does
      not is forwarded. */
  lemma {:induction false} UnmatchedMembers(codec: Codec, q: seq<FrameData>, uid: int)
    ensures forall f :: f in Unmatched(codec, q, uid) <==> f in q && !Matches(codec, f, uid)
  {
    if q != [] {
      var init := q[..|q| - 1];
      UnmatchedMembers(codec, init, uid);
      assert q == init + [q[|q| - 1]];
    }
  }

  /** Forwarding keeps arrival order: the frames forwarded for two consecutive
      runs of the queue are those of the first run, then those of the second. */
  lemma {:induction false} UnmatchedAppend(codec: Codec, a: seq<FrameData>, b: seq<FrameData>, uid: int)
    ensures Unmatched(codec, a + b, uid) == Unmatched(codec, a, uid) + Unmatched(codec, b, uid)
  {
    if b != [] {
      var binit := b[..|b| - 1];
      assert (a + b)[..|a + b| - 1] == a + binit;
      assert (a + b)[|a + b| - 1] == b[|b| - 1];
      UnmatchedAppend(codec, a, binit, uid);
    } else {
      assert a + b == a;
    }
  }

  /** When no queued frame answers the request, every frame is forwarded, in
      queue order. */
  lemma {:induction false} UnmatchedAllForeign(codec: Codec, q: seq<FrameData>, uid: int)
    requires forall i :: 0 <= i < |q| ==> !Matches(codec, q[i], uid)
    ensures Unmatched(codec, q, uid) == q
    ensures LastMatch(codec, q, uid) == None
  {
    if q != [] {
      var init := q[..|q| - 1];
      assert forall i :: 0 <= i < |init| ==> init[i] == q[i];
      UnmatchedAllForeign(codec, init, uid);
      assert q == init + [q[|q| - 1]];
    }
  }

  /** The drain pass loses nothing: the forwarded frames and the matching
      frames together are exactly the queue. */
  lemma {:induction false} DrainPartition(codec: Codec, q: seq<FrameData>, uid: int)
    ensures multiset(Unmatched(codec, q, uid)) + multiset(Matched(codec, q, uid)) == multiset(q)
    ensures |Unmatched(codec, q, uid)| + |Matched(codec, q, uid)| == |q|
  {
    if q != [] {
      var init := q[..|q| - 1];
      var last := q[|q| - 1];
      DrainPartition(codec, init, uid);
      assert q == init + [last];
      assert multiset(q) == multiset(init) + multiset{last};
      if Matches(codec, last, uid) {
        assert Matched(codec, q, uid) == Matched(codec, init, uid) + [last];
        assert Unmatched(codec, q, uid) == Unmatched(codec, init, uid);
      } else {
        assert Unmatched(codec, q, uid) == Unmatched(codec, init, uid) + [last];
        assert Matched(codec, q, uid) == Matched(codec, init, uid);
      }
    }
  }

  /** The response is the last of the matching frames; all earlier matches
      are neither returned nor forwarded. */
  lemma {:induction false} LastMatchIsLastMatched(codec: Codec, q: seq<FrameData>, uid: int)
    ensures var m := Matched(codec, q, uid);
            LastMatch(codec, q, uid) == if m == [] then None else Some(m[|m| - 1])
  {
    if q != [] {
      LastMatchIsLastMatched(codec, q[..|q| - 1], uid);
    }
  }

  /** The response is null exactly when no queued frame carries the UID; when
      it is a frame, that frame carries the UID and no later frame does. */
  lemma {:induction false} LastMatchSpec(codec: Codec, q: seq<FrameData>, uid: int)
    ensures LastMatch(codec, q, uid).None? <==> forall i :: 0 <= i < |q| ==> !Matches(codec, q[i], uid)
    ensures LastMatch(codec, q, uid).Some? ==>
              exists i :: 0 <= i < |q| && q[i] == LastMatch(codec, q, uid).value && Matches(codec, q[i], uid)
                          && forall j :: i < j < |q| ==> !Matches(codec, q[j], uid)
  {
    if q != [] {
      var init := q[..|q| - 1];
      LastMatchSpec(codec, init, uid);
      assert forall i :: 0 <= i < |init| ==> init[i] == q[i];
      if !Matches(codec, q[|q| - 1], uid) && LastMatch(codec, init, uid).Some? {
        var i :| 0 <= i < |init| && init[i] == LastMatch(codec, init, uid).value && Matches(codec, init[i], uid)
                 && forall j :: i < j < |init| ==> !Matches(codec, init[j], uid);
        assert q[i] == LastMatch(codec, q, uid).value;
      }
    }
  }

  /** An unrelated frame queued before the response is forwarded, and the
      response is still returned. */
  lemma OutOfOrderResponse(codec: Codec, other: FrameData, response: FrameData, uid: int, commandId: int)
    requires !Matches(codec, other, uid) && Matches(codec, response, uid)
    ensures Exchange(codec, [other, response], uid, commandId, true) == Ok(Some(response))
    ensures Unmatched(codec, [other, response], uid) == [other]
  {
    assert [other, response][..1] == [other];
    assert [other][..0] == [];
    assert Unmatched(codec, [other], uid) == [other];
  }
}
