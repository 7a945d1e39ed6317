/**
 A run of clients that submit one request at a time, each only after it has
 seen SUCCESS on the one before. That is too early: cx_after_io sets the status
 before it copies the result and clears the packet.
 */
module EarlySubmission {
  import opened Protocol
  import opened Reaching
  import opened TwoClients

  const RESULT := 7

  lemma FirstReturned(R: State -> bool) returns (s: State)
    requires Closed(AfterSuccess, R)
    ensures R(s) && Peaceful(s) && SecondIdle(s) && SlotsFree(s)
    ensures s.io.After? && s.packet == Some(0) && s.loop.TestQueue?
    ensures s.queueCounter == 0 && s.dataCounter == 0 && s.ioCounter == 1
    ensures NoneQueued(s.lists) && s.lists.nodes[0].packet.aiocb == FIRST.aiocb
    ensures s.log == Log([FIRST], [CallOf(FIRST)], [RESULT], [])
  {
    s := FirstRunning(AfterSuccess, R);
    ReturnTo(R, s, 0, FIRST, RESULT);
    s := Returned(s, 0, RESULT);
  }

  /** The caller can see SUCCESS; the result is not copied and the packet not cleared. */
  lemma SuccessSeen(R: State -> bool) returns (s: State)
    requires Closed(AfterSuccess, R)
    ensures R(s) && Seen(s) && Peaceful(s) && SecondIdle(s) && SlotsFree(s)
    ensures s.io == CopyIosb(FIRST.aiocb) && s.packet == Some(0) && s.loop.TestQueue?
    ensures s.queueCounter == 0 && s.dataCounter == 0 && s.ioCounter == 1
    ensures NoneQueued(s.lists)
    ensures s.log == Log([FIRST], [CallOf(FIRST)], [RESULT], [])
  {
    s := FirstReturned(R);
    StatusTo(R, s, 0);
    s := StatusSet(s, 0);
  }

  /** The second request is submitted and taken into the node of the first. */
  lemma SecondTaken(R: State -> bool) returns (s: State)
    requires Closed(AfterSuccess, R)
    ensures R(s) && s.loop == Dequeue(false) && s.io == CopyIosb(FIRST.aiocb)
    ensures s.packet == Some(0) && Peaceful(s) && s.queueCounter == 0 && s.dataCounter == 0 && s.ioCounter == 1
    ensures |s.lists.nodes| == 2 && s.lists.queue == Some(0) && s.lists.nodes[0] == RequestNode(SECOND)
    ensures s.log == Log([FIRST, SECOND], [CallOf(FIRST)], [RESULT], [])
  {
    s := SuccessSeen(R);
    s := SecondSubmits(AfterSuccess, R, s);
    PollTo(R, s);
    s := TakeInto(AfterSuccess, R, s.(loop := PollData), 2, SECOND);
  }

  lemma SecondSent(R: State -> bool) returns (s: State)
    requires Closed(AfterSuccess, R)
    ensures R(s) && s.loop.TestQueue? && s.io == CopyIosb(FIRST.aiocb) && s.packet == Some(0)
    ensures s.queueCounter == 0 && s.dataCounter == 0 && s.ioCounter == 2 && s.overwrites == 1
    ensures Undisturbed(s) && !s.evAbort && s.lists.queue.None?
    ensures |s.lists.nodes| == 2 && s.lists.nodes[0].packet.iosb == IOSB_PENDING
    ensures s.log == Log([FIRST, SECOND], [CallOf(FIRST)], [RESULT], [])
  {
    s := SecondTaken(R);
    SendTo(R, s);
    s := Sent(s);
    SignalTo(R, s);
    s := s.(loop := ResetQueue, ioCounter := s.ioCounter + 1, evIo := true);
    ResetTo(R, s);
    s := s.(loop := TestQueue, evQueue := false);
  }

  /** It is dispatched, and then the hook clears the packet as if it were the first one's. */
  lemma SecondCleared(R: State -> bool) returns (s: State)
    requires Closed(AfterSuccess, R)
    ensures R(s) && OneTooMany(s) && s.overwrites == 1
    ensures s.log == Log([FIRST, SECOND], [CallOf(FIRST)], [RESULT], [Completion(FIRST.aiocb, IOSB_PENDING)])
  {
    s := SecondSent(R);
    ClearPacketTo(R, s, 0, FIRST.aiocb);
    s := Cleared(s, 0, FIRST.aiocb);
  }

  /**
   The end of the run: the first request has lost its result, the second was
   never run, and the I/O thread has ended.
   */
  predicate BothLost(s: State) {
    && s.io.IoDone? && !s.evAbort && s.abortCounter == 0
    && s.log == Log([FIRST, SECOND], [CallOf(FIRST)], [RESULT], [Completion(FIRST.aiocb, IOSB_PENDING)])
  }

  lemma LostState(R: State -> bool) returns (s: State)
    requires Closed(AfterSuccess, R)
    ensures R(s) && BothLost(s)
  {
    s := SecondCleared(R);
    s := EndsTo(AfterSuccess, R, s);
  }

  /** Waiting for SUCCESS before each submission is not enough. */
  lemma SuccessIsTooEarly() returns (run: seq<State>)
    ensures RunBy(AfterSuccess, run) && Run(run) && BothLost(run[|run| - 1])
  {
    ClosedBy(AfterSuccess);
    var s := LostState(By(AfterSuccess));
    run := RunTo(AfterSuccess, s);
  }
}
