/**
 Two runs of waio_cancel: a request that is answered CANCELED and then run, and
 a call that keeps the lock for ever.
 */
module CancelledRun {
  import opened Protocol
  import opened PoolRefinement
  import opened PoolCancel
  import opened Reaching
  import opened TwoClients
  import CancelRuns

  // WAIO_CANCELED
  const CANCELED := 0
  const TARGET := User(1)

  /** The second client is at `pc` of its call for the first one's aiocb. */
  function At(s: State, pc: ClientPc): State {
    s.(clients := s.clients[2 := IDLE.(pc := pc, ref := TARGET)])
  }

  // ----- the call -----

  function Held(k: CancelBlock): CancelBlock {
    k.(owner := Some(TARGET), hold := Taken(2, TARGET))
  }

  /** It takes the lock. */
  lemma LockTo(R: State -> bool, s: State)
    requires CancelCallKeeps(R) && EnterCancelKeeps(R)
    requires R(s) && 2 in s.clients && s.clients[2] == IDLE && s.cancel.owner.None?
    ensures R(At(s, Prepare).(cancel := Held(s.cancel)))
  {
    var s1, s2 := At(s, TryLock(0)), At(s, Prepare).(cancel := Held(s.cancel));
    assert EnterCancel(s, s1, 2);
    assert s2.clients == s1.clients[2 := s2.clients[2]];
    assert CancelCallStep(s1, s2, 2);
  }

  /** The request is counted and signalled, with its event prepared. */
  function Asking(k: CancelBlock): CancelBlock {
    Prepared(Held(k), TARGET).(counter := k.counter + 1, signalled := true, hold := Asked(2, TARGET))
  }

  lemma PrepareTo(R: State -> bool, s: State, k: CancelBlock)
    requires CancelCallKeeps(R) && 2 in s.clients
    requires R(At(s, Prepare).(cancel := Held(k)))
    ensures R(At(s, CountCancel).(cancel := Prepared(Held(k), TARGET)))
  {
    var s1, s2 := At(s, Prepare).(cancel := Held(k)), At(s, CountCancel).(cancel := Prepared(Held(k), TARGET));
    assert s2.clients == s1.clients[2 := s2.clients[2]];
    assert CancelCallStep(s1, s2, 2);
  }

  lemma CountedTo(R: State -> bool, s: State, k: CancelBlock)
    requires CancelCallKeeps(R) && 2 in s.clients
    requires R(At(s, CountCancel).(cancel := Prepared(Held(k), TARGET)))
    ensures R(At(s, SignalCancel).(cancel := Asking(k).(signalled := k.signalled)))
  {
    var s1 := At(s, CountCancel).(cancel := Prepared(Held(k), TARGET));
    var s2 := At(s, SignalCancel).(cancel := Asking(k).(signalled := k.signalled));
    assert s2.clients == s1.clients[2 := s2.clients[2]];
    assert CancelCallStep(s1, s2, 2);
  }

  lemma AskTo(R: State -> bool, s: State, k: CancelBlock)
    requires CancelCallKeeps(R) && 2 in s.clients
    requires R(At(s, Prepare).(cancel := Held(k)))
    ensures R(At(s, AwaitCancel).(cancel := Asking(k)))
  {
    PrepareTo(R, s, k);
    CountedTo(R, s, k);
    var s1 := At(s, SignalCancel).(cancel := Asking(k).(signalled := k.signalled));
    var s2 := At(s, AwaitCancel).(cancel := Asking(k));
    assert s2.clients == s1.clients[2 := s2.clients[2]];
    assert CancelCallStep(s1, s2, 2);
  }

  /** It waits on the event of its aiocb. */
  lemma BlockTo(R: State -> bool, s: State)
    requires CancelCallKeeps(R) && R(s) && TARGET in s.cancel.handles
    requires 2 in s.clients && s.clients[2] == IDLE.(pc := AwaitCancel, ref := TARGET)
    ensures R(At(s, Blocked(s.cancel.handles[TARGET])))
  {
    assert CancelCallStep(s, At(s, Blocked(s.cancel.handles[TARGET])), 2);
  }

  /** The event is set, and the call returns what its aiocb shows. */
  lemma ReadTo(R: State -> bool, s: State, h: nat, v: int)
    requires CancelCallKeeps(R) && R(s) && h in s.cancel.woken
    requires TARGET in s.cancel.verdicts && s.cancel.verdicts[TARGET] == v
    requires 2 in s.clients && s.clients[2] == IDLE.(pc := Blocked(h), ref := TARGET)
    ensures R(s.(clients := s.clients[2 := IDLE.(ref := TARGET, verdict := v)]))
  {
    var s1, s2 := At(s, ReadVerdict), s.(clients := s.clients[2 := IDLE.(ref := TARGET, verdict := v)]);
    assert CancelCallStep(s, s1, 2);
    assert s2.clients == s1.clients[2 := s2.clients[2]];
    assert CancelCallStep(s1, s2, 2);
  }

  // ----- the service -----

  lemma BeginServiceTo(R: State -> bool, s: State)
    requires CancelKeeps(R) && WaitKeeps(R)
    requires R(s.(loop := PollAbort)) && s.abortCounter == 0 && s.cancel.counter == 1
    ensures R(s.(loop := Serve, cancel := s.cancel.(counter := 0)))
  {
    var s1, s2, s3 := s.(loop := PollAbort), s.(loop := PollCancel), s.(loop := DecCancel);
    assert LoopWaitStep(s1, s2);
    assert LoopCancelStep(s2, s3);
    assert LoopCancelStep(s3, s.(loop := Serve, cancel := s.cancel.(counter := 0)));
  }

  /** What the service leaves: the statuses `aio` and the answer `v`. */
  function Answered(s: State, aio: map<nat, Aio>, v: int): State {
    s.(loop := Wake, aio := aio, cancel := s.cancel.(verdicts := s.cancel.verdicts[TARGET := v]))
  }

  lemma AnswerTo(R: State -> bool, s: State, aio: map<nat, Aio>, v: int)
    requires CancelKeeps(R)
    requires R(s) && s.loop.Serve? && s.cancel.owner == Some(TARGET)
    ensures LoopCancelStep(s, Answered(s, aio, v)) && R(Answered(s, aio, v))
  {
    assert LoopCancelStep(s, Answered(s, aio, v));
  }

  /** The caller's event is set, if its aiocb has one, and the lock released. */
  function Released(k: CancelBlock): CancelBlock {
    EventSet(k, TARGET).(signalled := false, owner := None, hold := Open)
  }

  lemma WakeTo(R: State -> bool, s: State)
    requires CancelKeeps(R)
    requires R(s) && s.loop.Wake? && s.cancel.owner == Some(TARGET) && s.cancel.hold == Asked(2, TARGET)
    ensures R(s.(loop := ResetCancel, cancel := EventSet(s.cancel, TARGET).(hold := Served(2, TARGET))))
  {
    assert LoopCancelStep(s, s.(loop := ResetCancel, cancel := EventSet(s.cancel, TARGET).(hold := Served(2, TARGET))));
  }

  lemma ReleaseTo(R: State -> bool, s: State)
    requires CancelKeeps(R)
    requires R(s) && s.loop.Wake? && s.cancel.owner == Some(TARGET) && s.cancel.hold == Asked(2, TARGET)
    ensures R(s.(loop := PollData, cancel := Released(s.cancel)))
  {
    WakeTo(R, s);
    var s1 := s.(loop := ResetCancel, cancel := EventSet(s.cancel, TARGET).(hold := Served(2, TARGET)));
    var s2 := s.(loop := Unlock, cancel := s1.cancel.(signalled := false));
    assert LoopCancelStep(s1, s2);
    assert LoopCancelStep(s2, s.(loop := PollData, cancel := Released(s.cancel)));
  }

  // ----- the leaked lock -----

  /** Creating the event fails: the call returns and the lock stays taken. */
  lemma LeakedState(R: State -> bool) returns (s: State)
    requires Closed(Freely, R)
    ensures R(s) && CancelRuns.Leaked(s, Some(TARGET))
  {
    Starts(Freely, R);
    LockTo(R, Start());
    var s1 := At(Start(), Prepare).(cancel := Held(Start().cancel));
    s := At(Start(), Idle).(cancel := Held(Start().cancel).(hold := Leaked));
    assert s.clients == s1.clients[2 := s.clients[2]];
    assert CancelCallStep(s1, s, 2);
  }

  lemma LockIsLeaked() returns (run: seq<State>)
    ensures Run(run) && CancelRuns.Leaked(run[|run| - 1], Some(TARGET))
  {
    ClosedBy(Freely);
    var s := LeakedState(By(Freely));
    run := RunTo(Freely, s);
  }

  // ----- the cancelled request that runs -----

  const ASKED := CancelBlock(Some(TARGET), 1, true, map[TARGET := 0], map[TARGET := 0], 1, {}, Asked(2, TARGET))
  const DONE := CancelBlock(None, 0, false, map[TARGET := 0], map[TARGET := CANCELED], 1, {0}, Open)

  /** The first request is in its slot when the second client waits for its cancellation. */
  lemma CancelAsked(R: State -> bool) returns (s: State)
    requires Closed(Freely, R)
    ensures R(s) && s.cancel == ASKED && s.loop.TestQueue? && s.abortCounter == 0 && !s.evAbort
    ensures NothingSent(s) && s.queueCounter == 1 && s.lists == Start().lists && s.log.submitted == [FIRST]
    ensures s.slots == [Slot(1, 1, FIRST, FIRST, true), FREE_SLOT, FREE_SLOT, FREE_SLOT]
    ensures s.clients.Keys == {1, 2} && s.clients[2] == IDLE.(pc := Blocked(0), ref := TARGET)
    ensures GetAio(s.aio, 1).qstatus.Wait1?
  {
    s := FirstSubmits(Freely, R);
    LockTo(R, s);
    AskTo(R, s, s.cancel);
    assert Asking(s.cancel) == ASKED;
    s := At(s, AwaitCancel).(cancel := ASKED);
    BlockTo(R, s);
    s := At(s, Blocked(0));
  }

  lemma ServiceBegun(R: State -> bool) returns (s: State)
    requires Closed(Freely, R)
    ensures R(s) && s.cancel == ASKED.(counter := 0) && s.loop.Serve? && s.abortCounter == 0 && !s.evAbort
    ensures NothingSent(s) && s.queueCounter == 1 && s.lists == Start().lists && s.log.submitted == [FIRST]
    ensures s.slots == [Slot(1, 1, FIRST, FIRST, true), FREE_SLOT, FREE_SLOT, FREE_SLOT]
    ensures s.clients.Keys == {1, 2} && s.clients[2] == IDLE.(pc := Blocked(0), ref := TARGET)
    ensures GetAio(s.aio, 1).qstatus.Wait1?
  {
    s := CancelAsked(R);
    assert LoopWaitStep(s, s.(loop := PollAbort));
    BeginServiceTo(R, s);
    s := s.(loop := Serve, cancel := s.cancel.(counter := 0));
  }

  /** The answer is given, and the loop goes on with the same iteration. */
  lemma CancelServed(R: State -> bool) returns (s: State)
    requires Closed(Freely, R)
    ensures R(s) && s.cancel == DONE && s.loop.PollData? && s.abortCounter == 0 && !s.evAbort
    ensures NothingSent(s) && s.queueCounter == 1 && s.lists == Start().lists && s.log.submitted == [FIRST]
    ensures s.slots == [Slot(1, 1, FIRST, FIRST, true), FREE_SLOT, FREE_SLOT, FREE_SLOT]
    ensures s.clients.Keys == {1, 2} && s.clients[2] == IDLE.(pc := Blocked(0), ref := TARGET)
    ensures GetAio(s.aio, 1).qstatus.Cancelled?
  {
    s := ServiceBegun(R);
    // the queue is empty, so nothing is unlinked; the status is set
    AnswerTo(R, s, CancelEntry(s.aio, 1), CANCELED);
    s := Answered(s, CancelEntry(s.aio, 1), CANCELED);
    ReleaseTo(R, s);
    assert Released(s.cancel) == DONE;
    s := s.(loop := PollData, cancel := DONE);
  }

  /** The end of the run: the caller has been told CANCELED, and the request runs. */
  predicate RunsCancelled(s: State) {
    && 2 in s.clients && s.clients[2] == IDLE.(ref := User(FIRST.aiocb), verdict := CANCELED)
    && s.log.submitted == [FIRST] && s.log.calls == [CallOf(FIRST)]
    && s.io == InCall(0, CallOf(FIRST)) && GetAio(s.aio, FIRST.aiocb).qstatus.Pending?
  }

  lemma CancelledSent(R: State -> bool) returns (s: State)
    requires Closed(Freely, R)
    ensures R(s) && s.io.TestIo? && s.ioCounter == 1 && s.abortCounter == 0 && Current(s, 0, FIRST)
    ensures s.log.submitted == [FIRST] && s.log.calls == []
    ensures 2 in s.clients && s.clients[2] == IDLE.(ref := TARGET, verdict := CANCELED)
  {
    s := CancelServed(R);
    ReadTo(R, s, 0, CANCELED);
    s := s.(clients := s.clients[2 := IDLE.(ref := TARGET, verdict := CANCELED)]);
    s := TakeInto(Freely, R, s, 1, FIRST);
    s := SendFirst(Freely, R, s);
  }

  lemma CancelledState(R: State -> bool) returns (s: State)
    requires Closed(Freely, R)
    ensures R(s) && RunsCancelled(s)
  {
    s := CancelledSent(R);
    s := CallIt(Freely, R, s, FIRST);
  }

  lemma CancelledIsRun() returns (run: seq<State>)
    ensures Run(run) && RunsCancelled(run[|run| - 1])
  {
    ClosedBy(Freely);
    var s := CancelledState(By(Freely));
    run := RunTo(Freely, s);
  }
}
