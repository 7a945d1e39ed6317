/**
 A run that shows why the one-request discipline is needed: two clients submit,
 every call does what it should, and the second dispatch replaces the packet of
 the first, which the I/O thread has not looked at yet.
 */
module Replacement {
  import opened Protocol
  import opened Reaching
  import opened TwoClients

  const RESULT := 7

  lemma FirstSent(R: State -> bool) returns (s: State)
    requires Closed(Freely, R)
    ensures R(s) && Peaceful(s) && SecondIdle(s) && SlotsFree(s)
    ensures s.loop.TestQueue? && s.io.TestIo? && s.packet == Some(0)
    ensures s.queueCounter == 0 && s.dataCounter == 0 && s.ioCounter == 1 && NoneQueued(s.lists)
    ensures s.log == Log([FIRST], [], [], [])
  {
    s := FirstSubmits(Freely, R);
    PollTo(R, s);
    s := TakeInto(Freely, R, s.(loop := PollData), 1, FIRST);
    s := SendFirst(Freely, R, s);
  }

  lemma SecondWaits(R: State -> bool) returns (s: State)
    requires Closed(Freely, R)
    ensures R(s) && Peaceful(s) && s.loop.TestQueue? && s.io.TestIo? && s.packet == Some(0)
    ensures s.queueCounter == 1 && s.dataCounter == 0 && s.ioCounter == 1 && NoneQueued(s.lists)
    ensures s.slots == [Slot(1, 2, SECOND, SECOND, true), FREE_SLOT, FREE_SLOT, FREE_SLOT]
    ensures s.log == Log([FIRST, SECOND], [], [], [])
  {
    s := FirstSent(R);
    s := SecondSubmits(Freely, R, s);
  }

  lemma SecondTaken(R: State -> bool) returns (s: State)
    requires Closed(Freely, R)
    ensures R(s) && Peaceful(s) && s.loop == Dequeue(false) && s.io.TestIo? && s.packet == Some(0)
    ensures s.queueCounter == 0 && s.dataCounter == 0 && s.ioCounter == 1
    ensures |s.lists.nodes| == 2 && s.lists.queue == Some(0) && s.lists.nodes[0] == RequestNode(SECOND)
    ensures GetAio(s.aio, SECOND.aiocb).request == Some(0) && s.log == Log([FIRST, SECOND], [], [], [])
  {
    s := SecondWaits(R);
    PollTo(R, s);
    s := TakeInto(Freely, R, s.(loop := PollData), 2, SECOND);
  }

  /** The packet of the first request is replaced. */
  lemma FirstReplaced(R: State -> bool) returns (s: State)
    requires Closed(Freely, R)
    ensures R(s) && Undisturbed(s) && !s.evAbort && s.loop.TestQueue? && s.io.TestIo?
    ensures s.queueCounter == 0 && s.dataCounter == 0 && s.ioCounter == 2 && s.overwrites == 1
    ensures s.lists.queue.None? && Current(s, 0, SECOND) && s.log == Log([FIRST, SECOND], [], [], [])
  {
    s := SecondTaken(R);
    SendTo(R, s);
    s := Sent(s);
    SignalTo(R, s);
    s := s.(loop := ResetQueue, ioCounter := s.ioCounter + 1, evIo := true);
    ResetTo(R, s);
    s := s.(loop := TestQueue, evQueue := false);
  }

  /** The second one runs. */
  lemma SecondReturns(R: State -> bool) returns (s: State)
    requires Closed(Freely, R)
    ensures R(s) && Undisturbed(s) && !s.evAbort && s.loop.TestQueue? && s.io == IoPc.After
    ensures s.queueCounter == 0 && s.dataCounter == 0 && s.ioCounter == 2 && s.overwrites == 1
    ensures s.lists.queue.None? && s.packet == Some(0) && 0 < |s.lists.nodes|
    ensures s.log == Log([FIRST, SECOND], [CallOf(SECOND)], [RESULT], [])
  {
    s := FirstReplaced(R);
    s := CallIt(Freely, R, s, SECOND);
    ReturnTo(R, s, 0, SECOND, RESULT);
    s := Returned(s, 0, RESULT);
  }

  lemma SecondCompletes(R: State -> bool) returns (s: State)
    requires Closed(Freely, R)
    ensures R(s) && OneTooMany(s) && s.overwrites == 1
    ensures s.log.submitted == [FIRST, SECOND] && s.log.calls == [CallOf(SECOND)]
  {
    s := SecondReturns(R);
    StatusTo(R, s, 0);
    s := StatusSet(s, 0);
    ClearPacketTo(R, s, 0, s.io.aiocb);
    s := Cleared(s, 0, s.io.aiocb);
  }

  predicate Lost(s: State) {
    && s.io.IoDone? && !s.evAbort && s.abortCounter == 0
    && s.log.submitted == [FIRST, SECOND] && s.log.calls == [CallOf(SECOND)] && s.overwrites == 1
  }

  lemma LostState(R: State -> bool) returns (s: State)
    requires Closed(Freely, R)
    ensures R(s) && Lost(s)
  {
    s := SecondCompletes(R);
    s := EndsTo(Freely, R, s);
  }

  /**
   With two requests outstanding and neither an abort nor a cancellation, the
   first can be lost, never run and never completed, and the I/O thread ends.
   */
  lemma FirstIsLost() returns (run: seq<State>)
    ensures Run(run) && Lost(run[|run| - 1])
  {
    ClosedBy(Freely);
    var s := LostState(By(Freely));
    run := RunTo(Freely, s);
  }
}
