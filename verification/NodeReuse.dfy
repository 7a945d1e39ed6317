/**
 A run in which nothing is replaced and a request is lost all the same: the
 second request is taken into the node of the first while that is running.
 */
module NodeReuse {
  import opened Protocol
  import opened PoolRefinement
  import opened Reaching
  import opened TwoClients

  const RESULT := 7

  lemma SecondWaits(R: State -> bool) returns (s: State)
    requires Closed(Freely, R)
    ensures R(s) && Peaceful(s) && s.loop.TestQueue? && s.io == InCall(0, CallOf(FIRST))
    ensures s.packet == Some(0) && s.dataCounter == 0 && s.queueCounter == 1
    ensures s.slots == [Slot(1, 2, SECOND, SECOND, true), FREE_SLOT, FREE_SLOT, FREE_SLOT]
    ensures s.lists == Lists([RequestNode(FIRST).(next := Some(1)), ZERO_NODE], None, None, Some(0))
    ensures s.log == Log([FIRST, SECOND], [CallOf(FIRST)], [], [])
  {
    s := FirstRunning(Freely, R);
    s := SecondSubmits(Freely, R, s);
  }

  /** The second request has been taken into the node whose call is running. */
  lemma NodeTaken(R: State -> bool) returns (s: State)
    requires Closed(Freely, R)
    ensures R(s) && Peaceful(s) && s.io == InCall(0, CallOf(FIRST)) && s.packet == Some(0)
    ensures s.lists == Lists([RequestNode(SECOND), ZERO_NODE], Some(0), Some(0), Some(1))
    ensures s.slots == [Slot(0, 0, SECOND, SECOND, true), FREE_SLOT, FREE_SLOT, FREE_SLOT]
    ensures s.log == Log([FIRST, SECOND], [CallOf(FIRST)], [], [])
  {
    s := SecondWaits(R);
    PollTo(R, s);
    s := TakeInto(Freely, R, s.(loop := PollData), 2, SECOND);
  }

  /**
   The end of the run: the result of the first call is reported for the second
   request, which is still queued to be run; the first one is nowhere.
   */
  predicate Misattributed(s: State) {
    && s.log == Log([FIRST, SECOND], [CallOf(FIRST)], [RESULT], [Completion(SECOND.aiocb, RESULT)])
    && s.overwrites == 0 && s.packet.None? && !s.evAbort
    && (forall k :: 0 <= k < |s.slots| ==> s.slots[k].pid == 0)
    && |s.lists.nodes| == 2 && s.lists.queue == Some(0) && s.lists.nodes[0].next.None?
    && Carries(s.lists.nodes[0], SECOND) && s.lists.nodes[1] == ZERO_NODE
  }

  /** cx_after_io reads the aiocb to credit from the node, which is the second one's by now. */
  lemma SecondCredited(R: State -> bool) returns (s: State)
    requires Closed(Freely, R)
    ensures R(s) && Peaceful(s) && s.io == CopyIosb(SECOND.aiocb) && s.packet == Some(0)
    ensures |s.lists.nodes| == 2 && s.lists.nodes[0].packet.iosb == RESULT && s.lists.queue == Some(0)
    ensures Carries(s.lists.nodes[0], SECOND) && s.lists.nodes[0].next.None? && s.lists.nodes[1] == ZERO_NODE
    ensures s.slots == [Slot(0, 0, SECOND, SECOND, true), FREE_SLOT, FREE_SLOT, FREE_SLOT]
    ensures s.log == Log([FIRST, SECOND], [CallOf(FIRST)], [RESULT], [])
  {
    s := NodeTaken(R);
    ReturnTo(R, s, 0, FIRST, RESULT);
    s := Returned(s, 0, RESULT);
    StatusTo(R, s, 0);
    s := StatusSet(s, 0);
  }

  lemma MisattributedState(R: State -> bool) returns (s: State)
    requires Closed(Freely, R)
    ensures R(s) && Misattributed(s)
  {
    s := SecondCredited(R);
    ClearPacketTo(R, s, 0, SECOND.aiocb);
    s := Cleared(s, 0, SECOND.aiocb);
  }

  lemma RunningNodeIsReused() returns (run: seq<State>)
    ensures Run(run) && Misattributed(run[|run| - 1])
  {
    ClosedBy(Freely);
    var s := MisattributedState(By(Freely));
    run := RunTo(Freely, s);
  }
}
