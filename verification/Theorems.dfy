/**
 What holds in every state of every run, for any number of clients, any
 interleaving and no discipline on what the clients submit or cancel.
 */
module Theorems {
  import opened Protocol
  import Ownership
  import Counters
  import CancelLock
  import Invariant
  import ThreadShutdown

  /**
   No lost wake-up. While the loop is blocked, everything it should act on is
   signalled or its producer is still between its update and its set-event,
   although the tests before the wait take no lock and queue_counter may be
   negative for a while.
   */
  lemma NoLostWakeup(run: seq<State>, n: nat)
    requires Run(run) && n < |run| && run[n].loop.LoopWait?
    ensures var s := run[n];
            && ((exists i :: 0 <= i < |s.slots| && s.slots[i].pid != 0) ==>
                  s.evQueue || exists t :: t in s.clients && (s.clients[t].pc.Count? || s.clients[t].pc.Signal?))
            && (s.dataCounter != 0 ==> s.evQueue || s.io.SetQueue?)
            && (s.cancel.counter != 0 ==>
                  s.cancel.signalled || exists t :: t in s.clients && s.clients[t].pc.SignalCancel?)
            && (s.abortCounter != 0 ==>
                  s.evAbort || exists t :: t in s.clients && s.clients[t].pc.SignalAbort?)
  {
    Invariant.InvRun(run, n);
    var s := run[n];
    Counters.PublishedIff(s.slots);
    if Counters.ProducerActive(s.clients) {
      var t :| t in s.clients && Counters.IsProducer(s.clients[t].pc);
      assert s.clients[t].pc.Count? || s.clients[t].pc.Signal?;
    }
  }

  /** The same for the I/O thread: blocked for work, or blocked for an acknowledgement. */
  lemma NoLostIoWakeup(run: seq<State>, n: nat)
    requires Run(run) && n < |run|
    ensures var s := run[n];
            && (s.io.IoWait? && s.ioCounter != 0 ==> s.evIo || s.loop.SetIo?)
            && (s.io.AwaitComplete? ==> s.evComplete || s.dataCounter == 1 || Counters.Acking(s.loop))
  {
    Invariant.InvRun(run, n);
  }

  /**
   Queue accounting: queue_counter and the clients that published without having
   counted yet account for the published slots, outside the two steps in which
   the loop is consuming one.
   */
  lemma QueueAccounting(run: seq<State>, n: nat)
    requires Run(run) && n < |run| && !run[n].loop.Take? && !run[n].loop.ClearPid?
    ensures var s := run[n];
            s.queueCounter + |set t | t in s.clients && s.clients[t].pc.Count?|
              == Counters.PublishedSlots(s.slots)
  {
    Invariant.InvRun(run, n);
    assert Counters.Uncounted(run[n].clients)
        == set t | t in run[n].clients && run[n].clients[t].pc.Count?;
  }

  /** Dispatch conservation, and with it the order of the two counters between dispatches. */
  lemma DispatchConservation(run: seq<State>, n: nat)
    requires Run(run) && n < |run|
    ensures var s := run[n];
            && s.ioCounter + (if s.loop.IncIo? then 1 else 0)
                 == (if s.packet.Some? then 1 else 0)
                    + (if s.io.IncData? then 1 else 0) + s.dataCounter + (if s.loop.DecIo? then 1 else 0)
                    + s.overwrites
            && (!s.loop.IncIo? ==> s.ioCounter >= s.dataCounter >= 0)
  {
    Invariant.InvRun(run, n);
  }

  /** Strict alternation: one pass at a time, each acknowledged exactly once. */
  lemma StrictAlternation(run: seq<State>, n: nat)
    requires Run(run) && n < |run|
    ensures var s := run[n];
            && 0 <= s.dataCounter <= 1
            && s.acks <= s.passes <= s.acks + 1
            && (!Counters.AwaitsAck(s.io) && s.io != CompleteAbort(false) ==> s.passes == s.acks)
            && (s.evComplete ==>
                  s.io.SetQueue? || s.io.AwaitComplete? || s.io.CompleteAbort? || s.io.ResetComplete? || s.io.IoDone?)
  {
    Invariant.InvRun(run, n);
  }

  /**
   Slot ownership: no two clients write one slot, a published slot has an
   owner, and the loop takes from a slot the whole job its owner reserved it
   for, after the owner set the aiocb to WAIT_1.
   */
  lemma SlotOwnership(run: seq<State>, n: nat)
    requires Run(run) && n < |run|
    ensures var s := run[n];
            && (forall t, u, i ::
                  t in s.clients && u in s.clients
                  && Ownership.Writes(s.clients[t].pc, i) && Ownership.Writes(s.clients[u].pc, i) ==>
                    t == u)
            && (forall i :: 0 <= i < |s.slots| && s.slots[i].pid != 0 ==> s.slots[i].tid != 0)
            && (s.loop.Take? ==>
                  && s.loop.i < |s.slots|
                  && s.slots[s.loop.i].data == s.slots[s.loop.i].owned
                  && s.slots[s.loop.i].marked
                  && forall t :: t in s.clients ==> !Ownership.Writes(s.clients[t].pc, s.loop.i))
  {
    Invariant.InvRun(run, n);
    var s := run[n];
    forall t | t in s.clients ensures Ownership.ClientOwns(s.slots, s.loop, t, s.clients[t]) {
    }
    forall i | 0 <= i < |s.slots| ensures Ownership.SlotOwned(s.slots[i], s.clients, s.loop, i) {
    }
  }

  /**
   The I/O thread finds an empty packet, and so ends, exactly when every
   dispatch still counted had its packet replaced by a later one before it was
   run; without a replacement that is an abort with nothing dispatched.
   */
  lemma EmptyPacketExactly(run: seq<State>, n: nat)
    requires Run(run) && n < |run| && (run[n].io.Before? || run[n].io.CheckPacket?)
    ensures var s := run[n];
            && (s.packet.None? <==> s.ioCounter + (if s.loop.IncIo? then 1 else 0) == s.overwrites)
            && (s.packet.None? && s.overwrites == 0 ==> s.evAbort)
  {
    Invariant.InvRun(run, n);
  }

  /** The I/O thread is on its way, without a wait, to a packet that is not there. */
  predicate Doomed(s: State) {
    && s.packet.None?
    && (s.io.TestIo? || s.io.IoAbort? || s.io.Before? || s.io.CheckPacket? || s.io.IoDone?)
    && (s.io.TestIo? ==> s.ioCounter > 0 && s.dataCounter == 0 && !s.loop.DecData? && !s.loop.DecIo?)
  }

  /** At most so many steps of the I/O thread are left then. */
  function StepsLeft(io: IoPc): nat {
    match io
    case TestIo => 4
    case IoAbort => 3
    case Before => 2
    case CheckPacket => 1
    case _ => 0
  }

  predicate NoPacket(run: seq<State>, i: nat) {
    i < |run| && run[i].packet.None?
  }

  lemma DoomedStep(s: State, s': State)
    requires Next(s, s') && Doomed(s) && s'.packet.None?
    ensures Doomed(s') && StepsLeft(s'.io) + (if s'.io != s.io then 1 else 0) <= StepsLeft(s.io)
  {
    if LoopStep(s, s') {
    } else if IoStep(s, s') {
    } else {
      var t :| ClientStep(s, s', t);
    }
  }

  /** Nothing on that way is a wait. */
  lemma DoomedMoves(s: State)
    requires Doomed(s) && !s.io.IoDone?
    ensures exists s' :: IoStep(s, s')
  {
    var s' := s.(io := match s.io
                       case TestIo => IoAbort
                       case IoAbort => if s.abortCounter != 0 then IoDone else IoPc.Before
                       case Before => CheckPacket
                       case _ => IoDone);
    assert IoBeginStep(s, s');
    assert IoStep(s, s');
  }

  lemma DoomedStart(run: seq<State>, m: nat)
    requires Run(run) && m < |run| && run[m].overwrites > 0
    requires run[m].io.TestIo? && !run[m].loop.IncIo? && NoPacket(run, m)
    ensures Doomed(run[m])
  {
    Invariant.InvRun(run, m);
  }

  lemma DoomedAt(run: seq<State>, n: nat)
    requires Run(run) && n + 1 < |run| && Doomed(run[n]) && NoPacket(run, n + 1)
    ensures Doomed(run[n + 1])
    ensures StepsLeft(run[n + 1].io) + (if run[n + 1].io != run[n].io then 1 else 0) <= StepsLeft(run[n].io)
  {
    assert NextAt(run, n);
    DoomedStep(run[n], run[n + 1]);
  }

  /**
   After a replacement the I/O thread does not wait for the next request: from
   the top of its loop, as long as nothing new is dispatched, it always has a
   step, and at its fourth step at the latest it has found no packet and ended.
   */
  lemma {:induction false} ReplacementLeadsToEmptyPacket(run: seq<State>, m: nat, n: nat)
    requires Run(run) && m <= n < |run| && run[m].overwrites > 0
    requires run[m].io.TestIo? && !run[m].loop.IncIo?
    requires forall i :: m <= i <= n ==> NoPacket(run, i)
    ensures Doomed(run[n]) && ThreadShutdown.IoMoves(run, m, n) + StepsLeft(run[n].io) <= 4
    ensures ThreadShutdown.IoMoves(run, m, n) >= 4 ==> run[n].io.IoDone?
    ensures run[n].io.IoDone? || exists s' :: IoStep(run[n], s')
    decreases n - m
  {
    if m == n {
      assert NoPacket(run, m);
      DoomedStart(run, m);
    } else {
      ReplacementLeadsToEmptyPacket(run, m, n - 1);
      assert NoPacket(run, n);
      DoomedAt(run, n - 1);
    }
    if !run[n].io.IoDone? {
      DoomedMoves(run[n]);
    }
  }

  /**
   The cancellation hand-off of waio_cancel and waio_loop, in every reachable
   state. The aiocb being served has its event, and its caller inside the call,
   unless it was submitted meanwhile; an aiocb on a stack always has.
   */
  lemma CancelHandOff(run: seq<State>, n: nat)
    requires Run(run) && n < |run|
    ensures var s := run[n];
            && 0 <= s.cancel.counter <= 1
            && (s.cancel.counter != 0 ==> s.cancel.owner.Some?)
            && (forall t, u ::
                  t in s.clients && u in s.clients
                  && CancelLock.Preparing(s.clients[t].pc) && CancelLock.Preparing(s.clients[u].pc) ==>
                    t == u)
            && (s.loop.Serve? || s.loop.Wake? ==>
                  && s.cancel.owner.Some?
                  && var r := s.cancel.owner.value;
                  && (r.Local? ==> r in s.cancel.handles)
                  && (r in s.cancel.handles ==>
                        exists t :: t in s.clients && CancelLock.Waiting(s.clients[t].pc) && s.clients[t].ref == r
                                    && (r.Local? ==> r == Local(t))))
  {
    Invariant.InvRun(run, n);
    CancelLock.OneCancelAtATime(run[n]);
    if CancelLock.Serving(run[n].loop) {
      CancelLock.ServedAiocbIsAlive(run[n]);
    }
  }
}
