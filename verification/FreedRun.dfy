/**
 Two runs of waio_free while a request is in its system call. Both end both
 threads; what the aborted request shows depends on which thread sees the abort
 first.
 */
module FreedRun {
  import opened Protocol
  import opened Reaching
  import opened TwoClients

  /** The second client is in waio_free, and waits for the threads. */
  function Asked(s: State): State {
    s.(clients := s.clients[2 := IDLE.(pc := AwaitEnd)], abortCounter := 1, evAbort := true)
  }

  lemma FreeTo(R: State -> bool, s: State)
    requires FreeKeeps(R)
    requires R(s) && 2 in s.clients && s.clients[2] == IDLE && s.abortCounter == 0
    ensures R(Asked(s))
  {
    var s1 := s.(clients := s.clients[2 := IDLE.(pc := CountAbort)]);
    var s2 := s.(clients := s.clients[2 := IDLE.(pc := SignalAbort)], abortCounter := 1);
    assert EnterFree(s, s1, 2);
    assert s2.clients == s1.clients[2 := s2.clients[2]];
    assert FreeStep(s1, s2, 2);
    assert Asked(s).clients == s2.clients[2 := Asked(s).clients[2]];
    assert FreeStep(s2, Asked(s), 2);
  }

  /** Both threads have ended: waio_free reports success. */
  lemma FreedTo(R: State -> bool, s: State)
    requires FreeKeeps(R)
    requires R(s) && s.loop.LoopDone? && s.io.IoDone? && 2 in s.clients && s.clients[2] == IDLE.(pc := AwaitEnd)
    ensures R(s.(clients := s.clients[2 := IDLE]))
  {
    assert FreeStep(s, s.(clients := s.clients[2 := IDLE]), 2);
  }

  /** The loop thread goes to its shutdown. */
  lemma StopsTo(R: State -> bool, s: State)
    requires WaitKeeps(R)
    requires R(s) && s.loop.TestQueue? && s.queueCounter == 0 && s.dataCounter == 0 && s.cancel.counter == 0
    requires s.evAbort && s.abortCounter == 1
    ensures R(s.(loop := Shutdown, abortCounter := 0))
  {
    var s1, s2, s3 := s.(loop := TestData), s.(loop := TestCancel), s.(loop := LoopWait);
    var s4, s5 := s.(loop := PollAbort), s.(loop := DecAbort);
    assert LoopWaitStep(s, s1);
    assert LoopWaitStep(s1, s2);
    assert LoopWaitStep(s2, s3);
    assert LoopWaitStep(s3, s4);
    assert LoopWaitStep(s4, s5);
    assert LoopWaitStep(s5, s.(loop := Shutdown, abortCounter := 0));
  }

  lemma EndTo(R: State -> bool, s: State)
    requires WaitKeeps(R)
    requires R(s) && s.loop.Shutdown? && s.io.IoDone?
    ensures R(s.(loop := LoopDone, aio := CurrentCancelled(s)))
  {
    assert LoopWaitStep(s, s.(loop := LoopDone, aio := CurrentCancelled(s)));
  }

  /** The call is left unfinished. */
  lemma LeaveCallTo(R: State -> bool, s: State)
    requires CallKeeps(R)
    requires R(s) && s.io == InCall(0, CallOf(FIRST)) && |s.lists.nodes| > 0 && s.evAbort
    ensures R(s.(io := AfterAbort))
  {
    assert IoCallStep(s, s.(io := AfterAbort));
  }

  /** The first request is running when the second client waits for the threads to end. */
  lemma AskedWhileRunning(R: State -> bool) returns (s: State)
    requires Closed(Freely, R)
    ensures R(s) && s.loop.TestQueue? && s.io == InCall(0, CallOf(FIRST)) && s.packet == Some(0)
    ensures s.queueCounter == 0 && s.dataCounter == 0 && s.cancel.counter == 0 && s.evAbort && s.abortCounter == 1
    ensures |s.lists.nodes| == 2 && s.lists.nodes[0].packet == RequestNode(FIRST).packet
    ensures s.log == Log([FIRST], [CallOf(FIRST)], [], [])
    ensures 2 in s.clients && s.clients[2] == IDLE.(pc := AwaitEnd) && !s.evComplete
  {
    s := FirstRunning(Freely, R);
    FreeTo(R, s);
    s := Asked(s);
  }

  /** Both threads have ended and waio_free has reported success. */
  predicate Freed(s: State) {
    && s.loop.LoopDone? && s.io.IoDone? && 2 in s.clients && s.clients[2] == IDLE
    && s.log.submitted == [FIRST] && s.log.results == []
  }

  // ----- the I/O thread sees the abort first -----

  lemma CancelledState(R: State -> bool) returns (s: State)
    requires Closed(Freely, R)
    ensures R(s) && Freed(s) && GetAio(s.aio, FIRST.aiocb).qstatus.Cancelled?
  {
    s := AskedWhileRunning(R);
    LeaveCallTo(R, s);
    s := s.(io := AfterAbort);
    assert IoCallStep(s, s.(io := IoDone, aio := CurrentCancelled(s)));
    s := s.(io := IoDone, aio := CurrentCancelled(s));
    StopsTo(R, s);
    s := s.(loop := Shutdown, abortCounter := 0);
    EndTo(R, s);
    s := s.(loop := LoopDone, aio := CurrentCancelled(s));
    FreedTo(R, s);
    s := s.(clients := s.clients[2 := IDLE]);
  }

  /** Then the aborted request is CANCELLED. */
  lemma AbortedIsCancelled() returns (run: seq<State>)
    ensures Run(run)
    ensures var s := run[|run| - 1]; Freed(s) && GetAio(s.aio, FIRST.aiocb).qstatus.Cancelled?
  {
    ClosedBy(Freely);
    var s := CancelledState(By(Freely));
    run := RunTo(Freely, s);
  }

  // ----- the loop thread sees it first -----

  /** The abort is no longer counted, so the I/O thread goes on as if the call had ended. */
  lemma StatusState(R: State -> bool) returns (s: State)
    requires Closed(Freely, R)
    ensures R(s) && s.loop.Shutdown? && s.io == CopyIosb(FIRST.aiocb) && s.packet == Some(0) && s.abortCounter == 0
    ensures |s.lists.nodes| == 2 && s.lists.nodes[0].packet == RequestNode(FIRST).packet && s.evAbort
    ensures s.log == Log([FIRST], [CallOf(FIRST)], [], []) && GetAio(s.aio, FIRST.aiocb).qstatus.Success?
    ensures 2 in s.clients && s.clients[2] == IDLE.(pc := AwaitEnd) && !s.evComplete
  {
    s := AskedWhileRunning(R);
    StopsTo(R, s);
    s := s.(loop := Shutdown, abortCounter := 0);
    LeaveCallTo(R, s);
    s := s.(io := AfterAbort);
    assert IoCallStep(s, s.(io := IoPc.After));
    s := s.(io := IoPc.After);
    StatusTo(R, s, 0);
    s := StatusSet(s, 0);
  }

  /** It waits for an acknowledgement that will not come, and the abort event ends it. */
  lemma EndsUnacknowledged(R: State -> bool, s: State)
    requires CompleteKeeps(R)
    requires R(s) && s.io.AwaitComplete? && s.evAbort && !s.evComplete && s.abortCounter == 0
    ensures R(s.(io := IoDone))
  {
    assert IoCompleteStep(s, s.(io := CompleteAbort(true)));
    assert IoCompleteStep(s.(io := CompleteAbort(true)), s.(io := IoDone));
  }

  lemma SuccessState(R: State -> bool) returns (s: State)
    requires Closed(Freely, R)
    ensures R(s) && Freed(s)
    ensures GetAio(s.aio, FIRST.aiocb).qstatus.Success? && GetAio(s.aio, FIRST.aiocb).iosb == IOSB_PENDING
  {
    s := StatusState(R);
    ClearPacketTo(R, s, 0, FIRST.aiocb);
    s := Cleared(s, 0, FIRST.aiocb);
    NotifyTo(R, s);
    s := s.(io := AwaitComplete, dataCounter := s.dataCounter + 1, passes := s.passes + 1, evQueue := true);
    EndsUnacknowledged(R, s);
    s := s.(io := IoDone);
    EndTo(R, s);
    s := s.(loop := LoopDone, aio := CurrentCancelled(s));
    FreedTo(R, s);
    s := s.(clients := s.clients[2 := IDLE]);
  }

  /** Then the aborted request is SUCCESS, without a result. */
  lemma AbortedShowsSuccess() returns (run: seq<State>)
    ensures Run(run)
    ensures var s := run[|run| - 1];
            && Freed(s) && GetAio(s.aio, FIRST.aiocb).qstatus.Success?
            && GetAio(s.aio, FIRST.aiocb).iosb == 0x103
  {
    ClosedBy(Freely);
    var s := SuccessState(By(Freely));
    run := RunTo(Freely, s);
  }
}
