/**
 Three runs in which an aiocb is submitted while a call of waio_cancel for it is
 under way: the submission sets the event handle and the answer in it to 0.
 */
module ResubmittedCancel {
  import opened Protocol
  import opened PoolCancel
  import opened Reaching
  import opened TwoClients
  import opened CancelledRun
  import CancelRuns

  // WAIO_ALLDONE
  const ALLDONE := 2

  const START := CancelBlock(None, 0, false, map[], map[], 0, {}, Open)
  const ASKING := CancelBlock(Some(TARGET), 1, true, map[TARGET := 0], map[], 1, {}, Asked(2, TARGET))
  // the same after the submission
  const WIPED := CancelBlock(Some(TARGET), 1, true, map[], map[TARGET := 0], 1, {}, Asked(2, TARGET))

  /** Nothing was ever submitted, and the second client has asked for a cancellation. */
  lemma AskedFirst(R: State -> bool)
    requires Closed(Freely, R)
    ensures R(At(Start(), AwaitCancel).(cancel := ASKING))
  {
    Starts(Freely, R);
    LockTo(R, Start());
    AskTo(R, Start(), START);
    assert Asking(START) == ASKING;
  }

  /** The first client submits the aiocb: it publishes the request in slot 0. */
  lemma ResubmitTo(R: State -> bool, s: State) returns (s': State)
    requires Kept(Freely, R)
    requires R(s) && s.slots == Start().slots && s.clients.Keys == {1, 2} && s.clients[1] == IDLE && s.log == Start().log
    ensures R(s') && s'.cancel == Zeroed(s.cancel, TARGET) && s'.log.submitted == [FIRST] && s'.loop == s.loop
    ensures s'.clients.Keys == {1, 2} && s'.clients[2] == s.clients[2]
    ensures s'.abortCounter == s.abortCounter && s'.queueCounter == s.queueCounter && s'.dataCounter == s.dataCounter
  {
    SubmitTo(Freely, R, s, 1, 0, FIRST);
    s' := Published(s, 1, 0, s.clients[1].(pid := 1, job := FIRST));
  }

  // ----- the answer is lost -----

  lemma PollAloneTo(R: State -> bool, s: State)
    requires WaitKeeps(R)
    requires R(s) && s.loop.TestQueue? && s.queueCounter == 0 && s.dataCounter == 0 && s.cancel.counter != 0
    ensures R(s.(loop := PollAbort))
  {
    assert LoopWaitStep(s, s.(loop := TestData));
    assert LoopWaitStep(s.(loop := TestData), s.(loop := TestCancel));
    assert LoopWaitStep(s.(loop := TestCancel), s.(loop := PollAbort));
  }

  /** The second client waits, and the loop is about to serve it. */
  function AboutToServe(): State {
    At(Start(), Blocked(0)).(loop := Serve, cancel := ASKING.(counter := 0))
  }

  lemma ServiceBegins(R: State -> bool)
    requires Closed(Freely, R)
    ensures R(AboutToServe())
  {
    AskedFirst(R);
    var s := At(Start(), AwaitCancel).(cancel := ASKING);
    BlockTo(R, s);
    s := At(s, Blocked(0));
    PollAloneTo(R, s);
    BeginServiceTo(R, s);
    assert s.(loop := Serve, cancel := s.cancel.(counter := 0)) == AboutToServe();
  }

  /** Nothing of this aiocb is queued or running: nothing changes, and the answer is ALLDONE. */
  function AllDone(): State {
    Answered(AboutToServe(), map[], ALLDONE)
  }

  /** The caller is woken, but before it reads its answer the aiocb is submitted. */
  lemma LosesAnswer(R: State -> bool) returns (s: State)
    requires Kept(Freely, R) && R(AllDone())
    ensures R(s) && CancelRuns.ReturnedWith(s, 2, CANCELED) && s.log.submitted == [FIRST]
  {
    s := AllDone();
    ReleaseTo(R, s);
    var k := CancelBlock(None, 0, false, map[TARGET := 0], map[TARGET := ALLDONE], 1, {0}, Open);
    assert Released(s.cancel) == k;
    s := s.(loop := PollData, cancel := k);
    s := ResubmitTo(R, s);
    ReadTo(R, s, 0, CANCELED);
    s := s.(clients := s.clients[2 := IDLE.(ref := TARGET, verdict := CANCELED)]);
  }

  const SERVICE := Hop(AboutToServe(), AllDone())

  lemma ServiceIsReached()
    ensures By(Freely, SERVICE)(AllDone())
  {
    ClosedBy(Freely);
    ServiceBegins(By(Freely));
    AnswerTo(By(Freely), AboutToServe(), map[], ALLDONE);
    HopTo(Freely, AboutToServe(), AllDone());
  }

  lemma ServiceIsAnswer(run: seq<State>, m: nat)
    requires HopAt(run, SERVICE, m)
    ensures CancelRuns.ServesAt(run, m, 2, TARGET) && run[m + 1].cancel.verdicts[TARGET] == ALLDONE
  {
  }

  /** The loop has answered ALLDONE, and the call returns CANCELED. */
  lemma AnswerIsLost() returns (run: seq<State>, m: nat)
    ensures Run(run) && CancelRuns.ServesAt(run, m, 2, TARGET) && run[m + 1].cancel.verdicts[TARGET] == ALLDONE
    ensures var s := run[|run| - 1]; CancelRuns.ReturnedWith(s, 2, CANCELED) && s.log.submitted == [FIRST]
  {
    ServiceIsReached();
    KeptBy(Freely, SERVICE);
    var s := LosesAnswer(By(Freely, SERVICE));
    run, m := RunThrough(Freely, SERVICE, s);
    ServiceIsAnswer(run, m);
  }

  // ----- the caller is never woken -----

  /** The caller waits when its aiocb is submitted; then the loop serves it and finds no event to set. */
  lemma StrandedState(R: State -> bool) returns (s: State)
    requires Closed(Freely, R)
    ensures R(s) && CancelRuns.Stranded(s, 2, 0) && s.clients[2].ref == TARGET && s.cancel.hold.Open?
  {
    AskedFirst(R);
    s := At(Start(), AwaitCancel).(cancel := ASKING);
    BlockTo(R, s);
    s := At(s, Blocked(0));
    s := ResubmitTo(R, s);
    assert s.cancel == WIPED;
    PollAloneTo(R, s);
    BeginServiceTo(R, s);
    s := s.(loop := Serve, cancel := s.cancel.(counter := 0));
    AnswerTo(R, s, CancelEntry(s.aio, 1), CANCELED);
    s := Answered(s, CancelEntry(s.aio, 1), CANCELED);
    ReleaseTo(R, s);
    s := s.(loop := PollData, cancel := Released(s.cancel));
  }

  /** The request has been served and the lock released, and the caller waits for ever. */
  lemma CallerIsStranded() returns (run: seq<State>)
    ensures Run(run)
    ensures var s := run[|run| - 1];
            CancelRuns.Stranded(s, 2, 0) && s.clients[2].ref == TARGET && s.cancel.hold.Open?
  {
    ClosedBy(Freely);
    var s := StrandedState(By(Freely));
    run := RunTo(Freely, s);
  }

  // ----- the caller does not wait -----

  /** The aiocb is submitted before the caller waits: it waits on a null handle, and reads 0. */
  lemma HastyState(R: State -> bool) returns (s: State)
    requires Closed(Freely, R)
    ensures R(s) && CancelRuns.ReturnedWith(s, 2, CANCELED) && s.cancel == WIPED
  {
    AskedFirst(R);
    s := At(Start(), AwaitCancel).(cancel := ASKING);
    s := ResubmitTo(R, s);
    assert s.cancel == WIPED;
    var s1, s2 := At(s, ReadVerdict), s.(clients := s.clients[2 := IDLE.(ref := TARGET, verdict := CANCELED)]);
    assert CancelCallStep(s, s1, 2);
    assert s2.clients == s1.clients[2 := s2.clients[2]];
    assert CancelCallStep(s1, s2, 2);
    s := s2;
  }

  /** The call returns CANCELED while its request is still counted: the loop has not looked at it. */
  lemma AnswersUnserved() returns (run: seq<State>)
    ensures Run(run)
    ensures var s := run[|run| - 1];
            CancelRuns.ReturnedWith(s, 2, CANCELED) && s.cancel.counter == 1 && s.cancel.hold == Asked(2, TARGET)
  {
    ClosedBy(Freely);
    var s := HastyState(By(Freely));
    run := RunTo(Freely, s);
  }
}
