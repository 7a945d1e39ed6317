/**
 What waio_free sets going, over whole runs: the loop thread comes to its
 shutdown within a bounded number of its own steps, the I/O thread ends before it,
 and what the aborted request shows.
 */
module AbortRuns {
  import opened AiocbStatus
  import opened Protocol
  import Invariant
  import ThreadShutdown

  predicate Stopped(loop: LoopPc) {
    loop.Shutdown? || loop.LoopDone?
  }

  // ----- the loop thread -----

  /** The abort counter is never negative, and the loop counts down only what was counted. */
  predicate AbortCounted(s: State) {
    s.abortCounter >= 0 && (s.loop.DecAbort? ==> s.abortCounter >= 1)
  }

  /** What is left of one slot and the slots after it, and of the iteration. */
  function FromSlot(i: nat): int {
    if i < 4 then 11 + 5 * (4 - i) else 11
  }

  /** A bound on the steps of the loop up to its shutdown, once an abort is counted. */
  function ToShutdown(loop: LoopPc): int {
    match loop
    case Shutdown => 0
    case LoopDone => 0
    case DecAbort => 1
    case PollAbort => 2
    case LoopWait => 3
    case TestCancel => 4
    case TestData => 5
    case TestQueue => 6
    case ResetQueue => 7
    case SetIo(ack) => if ack then 36 else 8
    case IncIo(ack) => if ack then 37 else 9
    case Dequeue(ack) => if ack then 38 else 10
    case Scan(i) => FromSlot(i)
    case DecQueue(i) => FromSlot(i) - 1
    case Take(i) => FromSlot(i) - 2
    case ClearPid(i) => FromSlot(i) - 3
    case ClearTid(i) => FromSlot(i) - 4
    case TestFree => 32
    case PollQueue => 33
    case SetComplete => 34
    case ResetIo => 35
    case DecIo => 39
    case DecData => 40
    case PollData => 41
    case Unlock => 42
    case ResetCancel => 43
    case Wake => 44
    case Serve => 45
    case DecCancel => 46
    case PollCancel => 47
  }

  /** An abort is counted and not yet acted on, or the loop is in its shutdown. */
  predicate Aborting(s: State) {
    AbortCounted(s) && (Stopped(s.loop) || s.abortCounter >= 1) && |s.slots| == SLOT_COUNT
  }

  lemma AbortCountedNext(s: State, s': State)
    requires Next(s, s') && AbortCounted(s)
    ensures AbortCounted(s')
  {
    if LoopStep(s, s') {
    } else if IoStep(s, s') {
    } else {
      var t :| ClientStep(s, s', t);
    }
  }

  lemma {:induction false} AbortCountedRun(run: seq<State>, n: nat)
    requires Run(run) && n < |run|
    ensures AbortCounted(run[n])
  {
    if n > 0 {
      AbortCountedRun(run, n - 1);
      assert NextAt(run, n - 1);
      AbortCountedNext(run[n - 1], run[n]);
    }
  }

  predicate Closer(s: State, s': State) {
    ToShutdown(s'.loop) + (if s'.loop != s.loop then 1 else 0) <= ToShutdown(s.loop) || Stopped(s.loop)
  }

  lemma AbortingWait(s: State, s': State)
    requires Aborting(s) && (LoopWaitStep(s, s') || LoopCancelStep(s, s'))
    ensures Aborting(s') && Closer(s, s')
  {
  }

  lemma AbortingBranch(s: State, s': State)
    requires Aborting(s) && (LoopAckStep(s, s') || LoopDequeueStep(s, s'))
    ensures Aborting(s') && Closer(s, s')
  {
  }

  lemma AbortingQueue(s: State, s': State)
    requires Aborting(s) && LoopQueueStep(s, s')
    ensures Aborting(s') && Closer(s, s')
  {
  }

  lemma AbortingLoop(s: State, s': State)
    requires Aborting(s) && LoopStep(s, s')
    ensures Aborting(s') && Closer(s, s')
  {
    if LoopWaitStep(s, s') || LoopCancelStep(s, s') {
      AbortingWait(s, s');
    } else if LoopQueueStep(s, s') {
      AbortingQueue(s, s');
    } else {
      AbortingBranch(s, s');
    }
  }

  lemma AbortingClient(s: State, s': State, t: nat)
    requires Aborting(s) && ClientStep(s, s', t)
    ensures Aborting(s') && s'.loop == s.loop
  {
  }

  lemma AbortingAt(run: seq<State>, n: nat)
    requires Run(run) && n + 1 < |run| && Aborting(run[n])
    ensures Aborting(run[n + 1]) && Closer(run[n], run[n + 1])
  {
    assert NextAt(run, n);
    if LoopStep(run[n], run[n + 1]) {
      AbortingLoop(run[n], run[n + 1]);
    } else if IoStep(run[n], run[n + 1]) {
    } else {
      var t :| ClientStep(run[n], run[n + 1], t);
      AbortingClient(run[n], run[n + 1], t);
    }
  }

  /** The steps of the loop thread between two states of a run. */
  function LoopMoves(run: seq<State>, m: nat, n: nat): nat
    requires m <= n < |run|
    decreases n - m
  {
    if m == n then 0
    else LoopMoves(run, m, n - 1) + (if run[n].loop != run[n - 1].loop then 1 else 0)
  }

  lemma StoppedStays(s: State, s': State)
    requires Next(s, s') && Stopped(s.loop)
    ensures Stopped(s'.loop)
  {
    if LoopStep(s, s') {
    } else if IoStep(s, s') {
    } else {
      var t :| ClientStep(s, s', t);
    }
  }

  lemma StoppedAt(run: seq<State>, n: nat)
    requires Run(run) && n + 1 < |run| && Stopped(run[n].loop)
    ensures Stopped(run[n + 1].loop)
  {
    assert NextAt(run, n);
    StoppedStays(run[n], run[n + 1]);
  }

  lemma FourSlots(run: seq<State>, n: nat)
    requires Run(run) && n < |run|
    ensures |run[n].slots| == SLOT_COUNT
  {
    Invariant.InvRun(run, n);
  }

  lemma {:induction false} AbortingAlong(run: seq<State>, m: nat, n: nat)
    requires Run(run) && m <= n < |run| && Aborting(run[m])
    ensures Aborting(run[n])
    ensures Stopped(run[n].loop) || LoopMoves(run, m, n) + ToShutdown(run[n].loop) <= ToShutdown(run[m].loop)
    decreases n - m
  {
    if m < n {
      AbortingAlong(run, m, n - 1);
      AbortingAt(run, n - 1);
      if Stopped(run[n - 1].loop) {
        StoppedAt(run, n - 1);
      }
    }
  }

  /**
   Once an abort is counted, the loop is in its shutdown after at most 47 of its
   own steps, whatever the others do; and if the abort event is signalled it does
   not stay in its wait meanwhile.
   */
  lemma LoopStopsWithin(run: seq<State>, m: nat, n: nat)
    requires Run(run) && m <= n < |run| && run[m].abortCounter != 0
    ensures LoopMoves(run, m, n) >= 47 ==> run[n].loop.Shutdown? || run[n].loop.LoopDone?
    ensures run[n].loop.Shutdown? || run[n].loop.LoopDone? || run[n].abortCounter != 0
    ensures run[n].loop.LoopWait? && run[n].evAbort ==> exists s' :: LoopStep(run[n], s') && s'.loop.PollAbort?
  {
    AbortCountedRun(run, m);
    FourSlots(run, m);
    AbortingAlong(run, m, n);
    if run[n].loop.LoopWait? && run[n].evAbort {
      assert LoopWaitStep(run[n], run[n].(loop := PollAbort));
    }
  }

  // ----- waio_free -----

  /** A client is past the set-event of waio_free. */
  predicate Freeing(s: State, t: nat) {
    t in s.clients && s.clients[t].pc.AwaitEnd?
  }

  /** What a client has brought about by then. */
  predicate AbortAsked(s: State) {
    s.evAbort && (Stopped(s.loop) || s.abortCounter >= 1)
  }

  /** A client of waio_free has counted its abort. */
  predicate HasCounted(pc: ClientPc) {
    pc.SignalAbort? || pc.AwaitEnd?
  }

  ghost predicate FreeShape(s: State) {
    && AbortCounted(s)
    && ((exists t :: t in s.clients && HasCounted(s.clients[t].pc)) ==> Stopped(s.loop) || s.abortCounter >= 1)
    && ((exists t :: Freeing(s, t)) ==> s.evAbort)
    && (s.loop.LoopDone? ==> s.io.IoDone?)
  }

  /** What a step of client `t` means for an abort. */
  predicate ClientAborts(s: State, s': State, t: nat) {
    && t in s.clients && t in s'.clients && s'.clients == s.clients[t := s'.clients[t]]
    && s'.loop == s.loop && s'.io == s.io
    && var pc, pc' := s.clients[t].pc, s'.clients[t].pc;
    && s'.abortCounter == s.abortCounter + (if pc.CountAbort? then 1 else 0)
    && s'.evAbort == (s.evAbort || pc.SignalAbort?)
    && (HasCounted(pc') ==> HasCounted(pc) || pc.CountAbort?)
    && (pc'.AwaitEnd? ==> pc.AwaitEnd? || pc.SignalAbort?)
  }

  lemma ClientStepAborts(s: State, s': State, t: nat)
    requires ClientStep(s, s', t)
    ensures ClientAborts(s, s', t)
  {
  }

  lemma FreeShapeClient(s: State, s': State, t: nat)
    requires FreeShape(s) && ClientAborts(s, s', t)
    ensures FreeShape(s')
  {
    if u :| u in s'.clients && HasCounted(s'.clients[u].pc) && u != t {
      assert u in s.clients && HasCounted(s.clients[u].pc);
    }
    if u :| Freeing(s', u) && !s.clients[t].pc.SignalAbort? {
      assert Freeing(s, u);
    }
  }

  lemma FreeShapeLoop(s: State, s': State)
    requires FreeShape(s) && LoopStep(s, s')
    ensures FreeShape(s')
  {
    assert s'.clients == s.clients && s'.evAbort == s.evAbort && s'.io == s.io;
    assert forall u :: Freeing(s', u) <==> Freeing(s, u);
  }

  lemma FreeShapeIo(s: State, s': State)
    requires FreeShape(s) && IoStep(s, s')
    ensures FreeShape(s')
  {
    assert s'.clients == s.clients && s'.evAbort == s.evAbort && s'.loop == s.loop;
    assert forall u :: Freeing(s', u) <==> Freeing(s, u);
  }

  lemma FreeShapeAt(run: seq<State>, n: nat)
    requires Run(run) && n + 1 < |run| && FreeShape(run[n])
    ensures FreeShape(run[n + 1])
  {
    assert NextAt(run, n);
    if LoopStep(run[n], run[n + 1]) {
      FreeShapeLoop(run[n], run[n + 1]);
    } else if IoStep(run[n], run[n + 1]) {
      FreeShapeIo(run[n], run[n + 1]);
    } else {
      var t :| ClientStep(run[n], run[n + 1], t);
      ClientStepAborts(run[n], run[n + 1], t);
      FreeShapeClient(run[n], run[n + 1], t);
    }
  }

  lemma {:induction false} FreeShapeRun(run: seq<State>, n: nat)
    requires Run(run) && n < |run|
    ensures FreeShape(run[n])
  {
    if n > 0 {
      FreeShapeRun(run, n - 1);
      FreeShapeAt(run, n - 1);
    }
  }

  lemma FreeAsked(run: seq<State>, m: nat, t: nat)
    requires Run(run) && m < |run| && t in run[m].clients && run[m].clients[t].pc.AwaitEnd?
    ensures run[m].evAbort && Aborting(run[m])
  {
    FreeShapeRun(run, m);
    assert Freeing(run[m], t) && HasCounted(run[m].clients[t].pc);
    FourSlots(run, m);
  }

  /**
   While waio_free waits for the two threads, the abort event is signalled and
   the loop is in its shutdown or has the abort still to see, and so is there
   within 47 of its steps.
   */
  lemma FreeStopsTheLoop(run: seq<State>, m: nat, n: nat, t: nat)
    requires Run(run) && m <= n < |run| && t in run[m].clients && run[m].clients[t].pc.AwaitEnd?
    ensures run[m].evAbort
    ensures run[m].loop.Shutdown? || run[m].loop.LoopDone? || run[m].abortCounter != 0
    ensures LoopMoves(run, m, n) >= 47 ==> run[n].loop.Shutdown? || run[n].loop.LoopDone?
  {
    FreeAsked(run, m, t);
    AbortingAlong(run, m, n);
  }

  /** The loop thread ends only after the I/O thread has. */
  lemma LoopEndsLast(run: seq<State>, n: nat)
    requires Run(run) && n < |run| && run[n].loop.LoopDone?
    ensures run[n].io.IoDone?
  {
    FreeShapeRun(run, n);
  }

  lemma OneFreeStep(s: State, s': State, u: nat, t: nat)
    requires ClientStep(s, s', u)
    requires t in s.clients && t in s'.clients && s.clients[t].pc.AwaitEnd? && s'.clients[t].pc.Idle?
    ensures s'.clients[t].verdict == if s.loop.LoopDone? && s.io.IoDone? then 0 else -13
  {
    assert s'.clients == s.clients[u := s'.clients[u]];
  }

  lemma OnlyClientsMove(s: State, s': State)
    requires LoopStep(s, s') || IoStep(s, s')
    ensures s'.clients == s.clients
  {
  }

  /** waio_free reports success if and only if both threads have ended; otherwise it returns -EACCES. */
  lemma FreeReportsTheEnd(run: seq<State>, n: nat, t: nat)
    requires Run(run) && n + 1 < |run| && t in run[n].clients && t in run[n + 1].clients
    requires run[n].clients[t].pc.AwaitEnd? && run[n + 1].clients[t].pc.Idle?
    ensures run[n + 1].clients[t].verdict == 0 <==> run[n].loop.LoopDone? && run[n].io.IoDone?
    ensures run[n + 1].clients[t].verdict == 0 || run[n + 1].clients[t].verdict == -13
  {
    assert NextAt(run, n);
    if LoopStep(run[n], run[n + 1]) || IoStep(run[n], run[n + 1]) {
      OnlyClientsMove(run[n], run[n + 1]);
    } else {
      var u :| ClientStep(run[n], run[n + 1], u);
      OneFreeStep(run[n], run[n + 1], u, t);
    }
  }

  // ----- the I/O thread -----

  /** The aiocb that the packet names, if there is one. */
  predicate Names(s: State, a: nat) {
    && s.packet.Some? && s.packet.value < |s.lists.nodes|
    && s.lists.nodes[s.packet.value].packet.aiocb == a
  }

  lemma OnlyIoMoves(s: State, s': State)
    requires Next(s, s') && s'.io != s.io
    ensures IoStep(s, s')
  {
    if t :| ClientStep(s, s', t) {
      assert false;
    }
  }

  lemma EndStep(s: State, s': State, a: nat)
    requires IoStep(s, s') && s'.io.IoDone? && !s.io.IoDone?
    ensures if s.abortCounter != 0 && Names(s, a) then GetAio(s'.aio, a) == GetAio(s.aio, a).(qstatus := Cancelled)
            else GetAio(s'.aio, a) == GetAio(s.aio, a)
  {
  }

  /**
   When the I/O thread ends with an abort counted, the aiocb of its packet is
   CANCELLED; no other aiocb changes, and none at all when the abort is no longer
   counted.
   */
  lemma AbortedIsCancelled(run: seq<State>, n: nat, a: nat)
    requires Run(run) && n + 1 < |run| && run[n + 1].io.IoDone? && !run[n].io.IoDone?
    ensures run[n].abortCounter != 0 && Names(run[n], a) ==> GetAio(run[n + 1].aio, a).qstatus.Cancelled?
    ensures run[n].abortCounter == 0 || !Names(run[n], a) ==> GetAio(run[n + 1].aio, a) == GetAio(run[n].aio, a)
  {
    assert NextAt(run, n);
    OnlyIoMoves(run[n], run[n + 1]);
    EndStep(run[n], run[n + 1], a);
  }

  lemma AbortTestStep(s: State, s': State, a: nat)
    requires Next(s, s') && s.io.AfterAbort? && !s'.io.AfterAbort? && Names(s, a)
    ensures if s.abortCounter != 0 then s'.io.IoDone? && GetAio(s'.aio, a).qstatus.Cancelled?
            else s'.io.After? && GetAio(s'.aio, a) == GetAio(s.aio, a)
  {
    if t :| ClientStep(s, s', t) {
      assert false;
    }
  }

  /**
   What becomes of a call that an abort has interrupted: the thread ends and the
   request is CANCELLED if the abort is still counted at the test after the call;
   otherwise it goes on to cx_after_io, which sets SUCCESS.
   */
  lemma InterruptedCall(run: seq<State>, n: nat, a: nat)
    requires Run(run) && n + 1 < |run| && run[n].io.AfterAbort? && !run[n + 1].io.AfterAbort? && Names(run[n], a)
    ensures run[n + 1].io.IoDone? && GetAio(run[n + 1].aio, a).qstatus.Cancelled? <==> run[n].abortCounter != 0
    ensures run[n + 1].io.After? <==> run[n].abortCounter == 0
  {
    assert NextAt(run, n);
    AbortTestStep(run[n], run[n + 1], a);
  }

  lemma LastStep(s: State, s': State, a: nat)
    requires Next(s, s') && s'.loop.LoopDone? && !s.loop.LoopDone? && Names(s, a)
    ensures GetAio(s'.aio, a).qstatus.Cancelled?
  {
    if t :| ClientStep(s, s', t) {
      assert false;
    }
  }

  /** A packet that is still there when the loop ends is that of an aiocb that is CANCELLED then. */
  lemma LeftoverIsCancelled(run: seq<State>, n: nat, a: nat)
    requires Run(run) && n + 1 < |run| && run[n + 1].loop.LoopDone? && !run[n].loop.LoopDone? && Names(run[n], a)
    ensures GetAio(run[n + 1].aio, a).qstatus.Cancelled?
  {
    assert NextAt(run, n);
    LastStep(run[n], run[n + 1], a);
  }

  /** A bound on the steps of the I/O thread while an abort is counted. */
  function ToEnd(io: IoPc): int {
    match io
    case IoDone => 0
    case IoAbort => 1
    case AfterAbort => 1
    case CompleteAbort(_) => 1
    case TestIo => 3
    case IoWait => 2
    case InCall(_, _) => 2
    case AwaitComplete => 2
    case CheckPacket => 3
    case SetQueue => 3
    case ResetComplete => 4
    case Before => 4
    case IncData => 4
    case ClearPacket(_, _) => 5
    case CopyIosb(_) => 6
    case After => 7
  }

  lemma CloserToEnd(s: State, s': State)
    requires Next(s, s') && s.abortCounter != 0
    ensures ToEnd(s'.io) + (if s'.io != s.io then 1 else 0) <= ToEnd(s.io)
  {
    if LoopStep(s, s') {
    } else if IoStep(s, s') {
    } else {
      var t :| ClientStep(s, s', t);
    }
  }

  predicate AbortSeen(run: seq<State>, i: nat) {
    i < |run| && run[i].abortCounter != 0
  }

  lemma CloserToEndAt(run: seq<State>, n: nat)
    requires Run(run) && n + 1 < |run| && AbortSeen(run, n)
    ensures ToEnd(run[n + 1].io) + (if run[n + 1].io != run[n].io then 1 else 0) <= ToEnd(run[n].io)
  {
    assert NextAt(run, n);
    CloserToEnd(run[n], run[n + 1]);
  }

  lemma {:induction false} ToEndAlong(run: seq<State>, m: nat, n: nat)
    requires Run(run) && m <= n < |run| && forall i :: m <= i < n ==> AbortSeen(run, i)
    ensures ThreadShutdown.IoMoves(run, m, n) + ToEnd(run[n].io) <= ToEnd(run[m].io)
    decreases n - m
  {
    if m < n {
      ToEndAlong(run, m, n - 1);
      CloserToEndAt(run, n - 1);
    }
  }

  /** As long as the loop has not taken the abort off its counter, the I/O thread ends at its seventh step at the latest. */
  lemma CountedAbortEndsIo(run: seq<State>, m: nat, n: nat)
    requires Run(run) && m <= n < |run| && forall i :: m <= i < n ==> AbortSeen(run, i)
    ensures ThreadShutdown.IoMoves(run, m, n) <= 7
    ensures ThreadShutdown.IoMoves(run, m, n) == 7 ==> run[n].io.IoDone?
  {
    ToEndAlong(run, m, n);
  }
}
