/**
 A run in which an aiocb is submitted again while its request is dispatched and
 not yet called: the submission sets the request pointer to null, and
 cx_before_io follows it.
 */
module ReusedAiocb {
  import opened Protocol
  import opened Reaching
  import opened TwoClients

  /** The second client's request, with the first one's aiocb. */
  const AGAIN := Job(OP_WRITE, 0, 200, 20, 0, 1)

  /** The first request is dispatched, and the I/O thread has not moved. */
  lemma FirstSent(R: State -> bool) returns (s: State)
    requires Closed(Freely, R)
    ensures R(s) && SecondIdle(s) && SlotsFree(s) && s.io.TestIo? && s.ioCounter == 1 && s.abortCounter == 0
    ensures s.packet == Some(0) && s.lists.nodes == [RequestNode(FIRST).(next := Some(1)), ZERO_NODE]
  {
    s := FirstSubmits(Freely, R);
    PollTo(R, s);
    s := TakeInto(Freely, R, s.(loop := PollData), 1, FIRST);
    s := SendFirst(Freely, R, s);
  }

  /** The I/O thread is before its call and would follow a null request pointer. */
  predicate FollowsNull(s: State) {
    && s.io == IoPc.Before && s.packet == Some(0) && |s.lists.nodes| > 0
    && GetAio(s.aio, s.lists.nodes[0].packet.aiocb).request.None?
  }

  lemma FollowsNullState(R: State -> bool) returns (s: State)
    requires Closed(Freely, R)
    ensures R(s) && FollowsNull(s) && s.log.submitted == [FIRST, AGAIN]
  {
    s := FirstSent(R);
    SubmitTo(Freely, R, s, 2, 0, AGAIN);
    s := Published(s, 2, 0, IDLE.(pid := 1, job := AGAIN));
    BeginTo(R, s);
    s := s.(io := IoPc.Before);
  }

  /** That is, it has no step. */
  lemma Stuck(s: State)
    requires FollowsNull(s)
    ensures !exists s' :: IoStep(s, s')
  {
  }

  lemma SubmittedTwice() returns (run: seq<State>)
    ensures Run(run)
    ensures var s := run[|run| - 1];
            FollowsNull(s) && s.log.submitted == [FIRST, AGAIN] && !exists s' :: IoStep(s, s')
  {
    ClosedBy(Freely);
    var s := FollowsNullState(By(Freely));
    Stuck(s);
    run := RunTo(Freely, s);
  }
}
