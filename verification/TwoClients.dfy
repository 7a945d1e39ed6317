/** Two clients with one request each, and how far the runs below share their way. */
module TwoClients {
  import opened Protocol
  import opened Reaching

  const IDLE := Client(Idle, 0, NO_JOB, User(0), 0)
  const FIRST := Job(OP_READ, 0, 100, 10, 0, 1)
  const SECOND := Job(OP_WRITE, 0, 200, 20, 0, 2)
  const ZERO_NODE := Node(NO_JOB, Packet(0, 0, 0, 0, 0), None)

  function Start(): State {
    State([FREE_SLOT, FREE_SLOT, FREE_SLOT, FREE_SLOT], 0, 0, 0, 0, false, false, false, false,
          CancelBlock(None, 0, false, map[], map[], 0, {}, Open),
          None, 0, Lists([ZERO_NODE.(next := Some(1)), ZERO_NODE], None, None, Some(0)), map[],
          map[1 := IDLE, 2 := IDLE], TestQueue, TestIo, 0, 0, 0, Log([], [], [], []))
  }

  /** Nobody has aborted or cancelled, and nothing has been replaced. */
  predicate Peaceful(s: State) {
    |s.slots| == SLOT_COUNT && Undisturbed(s) && !s.evAbort && s.overwrites == 0
  }

  /** The second client has done nothing yet. */
  predicate SecondIdle(s: State) {
    && s.clients.Keys == {1, 2} && s.clients[2] == IDLE && s.clients[1].pc == Signal(0)
    && s.log.submitted == [FIRST]
  }

  /** Nothing is dispatched yet. */
  predicate NothingSent(s: State) {
    && s.io.TestIo? && s.dataCounter == 0 && s.ioCounter == 0 && s.packet.None? && !s.evComplete
    && s.log.calls == [] && s.log.results == [] && s.log.completions == []
  }

  lemma Starts(d: Discipline, R: State -> bool)
    requires Closed(d, R)
    ensures R(Start())
  {
    assert Init(Start());
  }

  /** The first client has published its request and not counted it yet. */
  function FirstPublished(): State {
    Published(Start(), 1, 0, IDLE.(pid := 1, job := FIRST))
  }

  lemma FirstPublishedIs()
    ensures var s := FirstPublished();
            && Peaceful(s) && NothingSent(s) && s.loop.TestQueue? && s.queueCounter == 0
            && s.clients.Keys == {1, 2} && s.clients[2] == IDLE && s.clients[1].pc == Count(0)
            && s.slots == [Slot(1, 1, FIRST, FIRST, true), FREE_SLOT, FREE_SLOT, FREE_SLOT]
            && s.lists == Start().lists && s.log.submitted == [FIRST] && s.cancel == Zeroed(Start().cancel, User(1))
            && GetAio(s.aio, 1).qstatus.Wait1?
  {
  }

  lemma FirstPublishes(d: Discipline, R: State -> bool)
    requires Closed(d, R)
    ensures R(FirstPublished())
  {
    Starts(d, R);
    SubmitTo(d, R, Start(), 1, 0, FIRST);
  }

  /** The first client has published and counted its request. */
  lemma FirstSubmits(d: Discipline, R: State -> bool) returns (s: State)
    requires Closed(d, R)
    ensures R(s) && Peaceful(s) && NothingSent(s) && SecondIdle(s) && s.loop.TestQueue? && s.queueCounter == 1
    ensures s.slots == [Slot(1, 1, FIRST, FIRST, true), FREE_SLOT, FREE_SLOT, FREE_SLOT]
    ensures s.lists == Start().lists && s.cancel == Zeroed(Start().cancel, User(1)) && GetAio(s.aio, 1).qstatus.Wait1?
  {
    FirstPublishes(d, R);
    FirstPublishedIs();
    s := FirstPublished();
    CountTo(R, s, 1);
    s := s.(clients := s.clients[1 := s.clients[1].(pc := Signal(0))], queueCounter := 1);
  }

  /** Slot 0 is free again, and only it was ever used. */
  predicate SlotsFree(s: State) {
    s.slots == [Slot(0, 0, FIRST, FIRST, true), FREE_SLOT, FREE_SLOT, FREE_SLOT]
  }

  /** The loop has taken the only published request, the one in slot 0. */
  function OnlyTaken(s: State): State
    requires |s.slots| == SLOT_COUNT && Usable(s.lists)
  {
    SlotTaken(s, 0).(loop := Dequeue(false), slots := s.slots[0 := s.slots[0].(pid := 0, tid := 0)])
  }

  predicate OnlyFirstSlot(slots: seq<Slot>) {
    && |slots| == SLOT_COUNT && slots[0].pid != 0
    && forall k :: 1 <= k < |slots| ==> slots[k].pid == 0
  }

  lemma EmptiedIs(s: State)
    requires |s.slots| == SLOT_COUNT && Usable(s.lists)
    ensures var s' := SlotTaken(s, 0);
            s'.(loop := Scan(1), slots := s'.slots[0 := s'.slots[0].(pid := 0, tid := 0)])
              == OnlyTaken(s).(loop := Scan(1))
    ensures OnlyTaken(s).(loop := Scan(1)).(loop := Dequeue(false)) == OnlyTaken(s)
  {
  }

  lemma SlotEmptied(R: State -> bool, s: State)
    requires QueueKeeps(R)
    requires R(s) && s.loop == Scan(0) && OnlyFirstSlot(s.slots) && Usable(s.lists)
    ensures R(OnlyTaken(s).(loop := Scan(1)))
  {
    EmptiedIs(s);
    TakeTo(R, s, 0);
    ClearTo(R, SlotTaken(s, 0), 0);
  }

  lemma TakeOnly(R: State -> bool, s: State)
    requires QueueKeeps(R)
    requires R(s) && s.loop == Scan(0) && OnlyFirstSlot(s.slots) && Usable(s.lists)
    ensures R(OnlyTaken(s))
  {
    SlotEmptied(R, s);
    LeaveTo(R, OnlyTaken(s).(loop := Scan(1)), 1);
    EmptiedIs(s);
  }

  /** Two nodes, both free, the first one first. */
  predicate NoneQueued(q: Lists) {
    && |q.nodes| == 2 && q.nodes[0].next == Some(1)
    && q.queue.None? && q.qtail.None? && q.qfree == Some(0)
  }

  lemma OnlyTakenIs(s: State, t: nat, j: Job)
    requires s.slots == [Slot(1, t, j, j, true), FREE_SLOT, FREE_SLOT, FREE_SLOT] && NoneQueued(s.lists)
    ensures var s' := OnlyTaken(s.(loop := Scan(0)));
            && s'.slots == [Slot(0, 0, j, j, true), FREE_SLOT, FREE_SLOT, FREE_SLOT]
            && s'.lists == Lists([RequestNode(j), s.lists.nodes[1]], Some(0), Some(0), Some(1))
            && GetAio(s'.aio, j.aiocb).request == Some(0)
            && s' == s.(loop := Dequeue(false), queueCounter := s.queueCounter - 1,
                        slots := s'.slots, lists := s'.lists, aio := s'.aio)
  {
  }

  /** The loop goes on to take the only request, into node 0. */
  lemma TakeInto(d: Discipline, R: State -> bool, s: State, t: nat, j: Job) returns (s': State)
    requires Closed(d, R)
    requires R(s) && s.loop.PollData? && s.dataCounter == 0 && s.queueCounter == 1
    requires s.slots == [Slot(1, t, j, j, true), FREE_SLOT, FREE_SLOT, FREE_SLOT] && NoneQueued(s.lists)
    ensures R(s')
    ensures s'.slots == [Slot(0, 0, j, j, true), FREE_SLOT, FREE_SLOT, FREE_SLOT]
    ensures s'.lists == Lists([RequestNode(j), s.lists.nodes[1]], Some(0), Some(0), Some(1))
    ensures GetAio(s'.aio, j.aiocb).request == Some(0)
    ensures s' == s.(loop := Dequeue(false), queueCounter := 0, slots := s'.slots, lists := s'.lists, aio := s'.aio)
  {
    ScanTo(R, s);
    TakeOnly(R, s.(loop := Scan(0)));
    s' := OnlyTaken(s.(loop := Scan(0)));
    OnlyTakenIs(s, t, j);
  }

  lemma SendFirst(d: Discipline, R: State -> bool, s: State) returns (s': State)
    requires Closed(d, R)
    requires R(s) && s.loop == Dequeue(false) && s.packet.None?
    requires s.lists == Lists([RequestNode(FIRST), ZERO_NODE], Some(0), Some(0), Some(1))
    ensures R(s')
    ensures s' == s.(loop := TestQueue, packet := Some(0), ioCounter := s.ioCounter + 1, evIo := true, evQueue := false,
                     lists := Lists([RequestNode(FIRST).(next := Some(1)), ZERO_NODE], None, None, Some(0)))
  {
    SendTo(R, s);
    s' := Sent(s);
    SignalTo(R, s');
    s' := s'.(loop := ResetQueue, ioCounter := s'.ioCounter + 1, evIo := true);
    ResetTo(R, s');
    s' := s'.(loop := TestQueue, evQueue := false);
  }

  lemma CallIt(d: Discipline, R: State -> bool, s: State, j: Job) returns (s': State)
    requires Closed(d, R)
    requires R(s) && s.io.TestIo? && s.ioCounter != 0 && s.abortCounter == 0 && Current(s, 0, j)
    ensures R(s') && s' == Called(s, 0, j)
  {
    BeginTo(R, s);
    s' := s.(io := IoPc.Before);
    CallTo(R, s', 0, j);
    s' := Called(s', 0, j);
  }

  /** The first request is running; the loop is at its top. */
  predicate FirstRuns(s: State) {
    && Peaceful(s) && SecondIdle(s) && SlotsFree(s)
    && s.loop.TestQueue? && s.io == InCall(0, CallOf(FIRST)) && s.packet == Some(0)
    && s.queueCounter == 0 && s.dataCounter == 0 && s.ioCounter == 1 && !s.evComplete
    && s.lists == Lists([RequestNode(FIRST).(next := Some(1)), ZERO_NODE], None, None, Some(0))
    && s.log == Log([FIRST], [CallOf(FIRST)], [], [])
  }

  lemma FirstRunning(d: Discipline, R: State -> bool) returns (s: State)
    requires Closed(d, R)
    ensures R(s) && FirstRuns(s)
  {
    s := FirstSubmits(d, R);
    PollTo(R, s);
    s := TakeInto(d, R, s.(loop := PollData), 1, FIRST);
    s := SendFirst(d, R, s);
    s := CallIt(d, R, s, FIRST);
  }

  function SecondPublished(s: State): State
    requires |s.slots| == SLOT_COUNT
  {
    Published(s, 2, 0, IDLE.(pid := 1, job := SECOND))
  }

  lemma SecondPublishedIs(s: State)
    requires SlotsFree(s) && SecondIdle(s)
    ensures var s' := SecondPublished(s);
            && s'.slots == [Slot(1, 2, SECOND, SECOND, true), FREE_SLOT, FREE_SLOT, FREE_SLOT]
            && 2 in s'.clients && s'.clients[2].pc == Count(0)
            && s' == s.(slots := s'.slots, clients := s'.clients, aio := s'.aio, cancel := Zeroed(s.cancel, User(2)),
                        log := s.log.(submitted := [FIRST, SECOND]))
  {
  }

  lemma SecondPublishes(d: Discipline, R: State -> bool, s: State)
    requires Closed(d, R)
    requires R(s) && SecondIdle(s) && SlotsFree(s) && (d.Freely? || Seen(s))
    ensures R(SecondPublished(s))
  {
    SubmitTo(d, R, s, 2, 0, SECOND);
  }

  /** The second request is in slot 0, and counted. */
  lemma SecondSubmits(d: Discipline, R: State -> bool, s: State) returns (s': State)
    requires Closed(d, R)
    requires R(s) && SecondIdle(s) && SlotsFree(s) && s.queueCounter == 0
    requires d.Freely? || Seen(s)
    ensures R(s')
    ensures s'.slots == [Slot(1, 2, SECOND, SECOND, true), FREE_SLOT, FREE_SLOT, FREE_SLOT]
    ensures s' == s.(slots := s'.slots, clients := s'.clients, aio := s'.aio, cancel := Zeroed(s.cancel, User(2)),
                     queueCounter := 1, log := s.log.(submitted := [FIRST, SECOND]))
  {
    SecondPublishes(d, R, s);
    SecondPublishedIs(s);
    s' := SecondPublished(s);
    CountTo(R, s', 2);
    s' := s'.(clients := s'.clients[2 := s'.clients[2].(pc := Signal(0))], queueCounter := 1);
  }

  // ----- the end of the I/O thread -----

  /** A completion, with nothing queued and one dispatch more counted than there was a packet for. */
  predicate OneTooMany(s: State) {
    && s.loop.TestQueue? && s.io.IncData? && s.packet.None? && s.lists.queue.None?
    && s.queueCounter == 0 && s.dataCounter == 0 && s.ioCounter == 2 && Undisturbed(s) && !s.evAbort
  }

  lemma AcknowledgedOne(d: Discipline, R: State -> bool, s: State) returns (s': State)
    requires Closed(d, R)
    requires R(s) && OneTooMany(s)
    ensures R(s') && s'.io.AwaitComplete? && s'.packet.None? && s'.evComplete
    ensures s'.ioCounter == 1 && Undisturbed(s') && !s'.evAbort
    ensures s'.log == s.log && s'.overwrites == s.overwrites && s'.aio == s.aio
  {
    NotifyTo(R, s);
    s' := s.(io := AwaitComplete, dataCounter := 1, passes := s.passes + 1, evQueue := true);
    PollForDataTo(R, s');
    s' := s'.(loop := PollData);
    AcknowledgeTo(R, s');
    s' := s'.(loop := ResetIo, dataCounter := 0, ioCounter := 1);
    SetCompleteTo(R, s');
    s' := s'.(loop := PollQueue, evIo := false, evComplete := true, acks := s'.acks + 1);
  }

  /** The I/O thread then finds no packet in its next pass, and ends. */
  lemma EndsTo(d: Discipline, R: State -> bool, s: State) returns (s': State)
    requires Closed(d, R)
    requires R(s) && OneTooMany(s)
    ensures R(s') && s'.io.IoDone? && !s'.evAbort && s'.abortCounter == 0
    ensures s'.log == s.log && s'.overwrites == s.overwrites && s'.aio == s.aio
  {
    s' := AcknowledgedOne(d, R, s);
    NextPassTo(R, s');
    s' := s'.(io := TestIo, evComplete := false);
    BeginTo(R, s');
    s' := s'.(io := IoPc.Before);
    EmptyTo(R, s');
    s' := s'.(io := IoDone);
  }
}
