/**
 The counters and events of the hand-off between producers, the loop thread
 and the I/O thread: what they count in every reachable state, and why no
 wake-up is lost although a wait follows an unlocked test of a counter.
 */
module Counters {
  import opened Protocol
  import Ownership

  function Bit(b: bool): int {
    if b then 1 else 0
  }

  // ----- queue accounting -----

  /** The number of published slots. */
  function PublishedSlots(slots: seq<Slot>): nat {
    if slots == [] then 0 else Bit(slots[0].pid != 0) + PublishedSlots(slots[1..])
  }

  lemma {:induction false} PublishedIff(slots: seq<Slot>)
    ensures PublishedSlots(slots) > 0 <==> exists i :: 0 <= i < |slots| && slots[i].pid != 0
  {
    if slots != [] {
      PublishedIff(slots[1..]);
      assert forall i :: 0 < i < |slots| ==> slots[i] == slots[1..][i - 1];
      if exists i :: 0 <= i < |slots[1..]| && slots[1..][i].pid != 0 {
        var i :| 0 <= i < |slots[1..]| && slots[1..][i].pid != 0;
        assert slots[i + 1].pid != 0;
      }
    }
  }

  /** The clients that have published a slot and not yet counted it. */
  ghost function Uncounted(clients: map<nat, Client>): set<nat> {
    set t | t in clients && clients[t].pc.Count?
  }

  /** The loop has taken a slot off the counter and not yet unpublished it. */
  predicate Consuming(loop: LoopPc) {
    loop.Take? || loop.ClearPid?
  }

  ghost predicate Accounted(s: State) {
    && s.queueCounter + |Uncounted(s.clients)| + Bit(Consuming(s.loop)) == PublishedSlots(s.slots)
  }

  lemma UncountedMoves(clients: map<nat, Client>, t: nat, c: Client)
    requires t in clients
    ensures |Uncounted(clients[t := c])|
         == |Uncounted(clients)| - Bit(clients[t].pc.Count?) + Bit(c.pc.Count?)
  {
    var a, b := Uncounted(clients), Uncounted(clients[t := c]);
    if c.pc.Count? {
      assert b == a + {t};
    } else {
      assert b == a - {t};
    }
  }

  lemma {:induction false} Replaced(slots: seq<Slot>, i: nat, x: Slot)
    requires i < |slots|
    ensures PublishedSlots(slots[i := x])
         == PublishedSlots(slots) - Bit(slots[i].pid != 0) + Bit(x.pid != 0)
  {
    if i == 0 {
      assert slots[i := x][1..] == slots[1..];
    } else {
      Replaced(slots[1..], i - 1, x);
      assert slots[i := x][1..] == slots[1..][i - 1 := x];
    }
  }

  lemma PublishedBySubmit(s: State, s': State, t: nat)
    requires Ownership.Inv(s) && SubmitStep(s, s', t)
    ensures PublishedSlots(s'.slots) == PublishedSlots(s.slots) + Bit(s.clients[t].pc.Publish?)
  {
    var c := s.clients[t];
    assert Ownership.ClientOwns(s.slots, s.loop, t, c);
    if (c.pc.Reserve? || Ownership.Writing(c.pc)) && c.pc.i < |s.slots| {
      assert Ownership.SlotOwned(s.slots[c.pc.i], s.clients, s.loop, c.pc.i);
      Replaced(s.slots, c.pc.i, s'.slots[c.pc.i]);
    }
  }

  /** Only a publication adds to the published slots. */
  lemma PublishedByClient(s: State, s': State, t: nat)
    requires Ownership.Inv(s) && ClientStep(s, s', t)
    ensures PublishedSlots(s'.slots) == PublishedSlots(s.slots) + Bit(s.clients[t].pc.Publish?)
  {
    if SubmitStep(s, s', t) {
      PublishedBySubmit(s, s', t);
    } else {
      assert s'.slots == s.slots && !s.clients[t].pc.Publish?;
    }
  }

  lemma PublishedByQueue(s: State, s': State)
    requires Ownership.Inv(s) && LoopQueueStep(s, s')
    ensures PublishedSlots(s'.slots) == PublishedSlots(s.slots) - Bit(s.loop.ClearPid?)
  {
    if s.loop.ClearPid? || s.loop.ClearTid? {
      Replaced(s.slots, s.loop.i, s'.slots[s.loop.i]);
    }
  }

  /** Only clearing the pid takes from them. */
  lemma PublishedByLoop(s: State, s': State)
    requires Ownership.Inv(s) && LoopStep(s, s')
    ensures PublishedSlots(s'.slots) == PublishedSlots(s.slots) - Bit(s.loop.ClearPid?)
  {
    if LoopQueueStep(s, s') {
      PublishedByQueue(s, s');
    } else {
      assert s'.slots == s.slots && !s.loop.ClearPid?;
    }
  }

  lemma AccountedSubmit(s: State, s': State, t: nat)
    requires Ownership.Inv(s) && Accounted(s) && SubmitStep(s, s', t)
    ensures Accounted(s')
  {
    UncountedMoves(s.clients, t, s'.clients[t]);
    PublishedBySubmit(s, s', t);
  }

  lemma AccountedStill(s: State, s': State, t: nat)
    requires Accounted(s) && ClientFrame(s, s', t) && SameSubmission(s, s')
    requires !s.clients[t].pc.Count? && !s'.clients[t].pc.Count?
    ensures Accounted(s')
  {
    UncountedMoves(s.clients, t, s'.clients[t]);
  }

  lemma AccountedClient(s: State, s': State, t: nat)
    requires Ownership.Inv(s) && Accounted(s) && ClientStep(s, s', t)
    ensures Accounted(s')
  {
    if SubmitStep(s, s', t) {
      AccountedSubmit(s, s', t);
    } else {
      AccountedStill(s, s', t);
    }
  }

  lemma AccountedQueue(s: State, s': State)
    requires Ownership.Inv(s) && Accounted(s) && LoopQueueStep(s, s')
    ensures Accounted(s')
  {
    PublishedByQueue(s, s');
  }

  lemma AccountedElsewhere(s: State, s': State)
    requires Accounted(s) && s'.clients == s.clients && SameQueueing(s, s')
    requires !Consuming(s.loop) && !Consuming(s'.loop)
    ensures Accounted(s')
  {
  }

  lemma AccountedLoop(s: State, s': State)
    requires Ownership.Inv(s) && Accounted(s) && LoopStep(s, s')
    ensures Accounted(s')
  {
    if LoopQueueStep(s, s') {
      AccountedQueue(s, s');
    } else {
      AccountedElsewhere(s, s');
    }
  }

  // ----- strict alternation of passes and acknowledgements -----

  /** The loop is between its data decrement and its set of hevent_io_complete. */
  predicate Acking(loop: LoopPc) {
    || loop.DecIo? || loop.ResetIo? || loop.SetComplete?
    || ((loop.Dequeue? || loop.IncIo? || loop.SetIo?) && loop.ack)
  }

  /** The I/O thread has counted its pass and not yet seen it acknowledged. */
  predicate AwaitsAck(io: IoPc) {
    io.SetQueue? || io.AwaitComplete? || io == CompleteAbort(true) || io.IoDone?
  }

  predicate Alternates(s: State) {
    && 0 <= s.dataCounter <= 1
    && (s.dataCounter == 1 ==> AwaitsAck(s.io) && !Acking(s.loop) && !s.evComplete)
    && (Acking(s.loop) ==> AwaitsAck(s.io) && s.dataCounter == 0 && !s.evComplete)
    && (s.evComplete ==> (AwaitsAck(s.io) || s.io == CompleteAbort(false) || s.io.ResetComplete?)
                         && s.dataCounter == 0)
    && (s.io.SetQueue? || s.io.AwaitComplete? ==> s.dataCounter == 1 || Acking(s.loop) || s.evComplete)
    && (s.io == CompleteAbort(false) || s.io.ResetComplete? ==> s.evComplete)
    && (s.loop.DecData? ==> s.dataCounter == 1)
    && s.passes == s.acks + s.dataCounter + Bit(Acking(s.loop))
  }

  lemma AlternatesAck(s: State, s': State)
    requires Alternates(s) && LoopAckStep(s, s')
    ensures Alternates(s')
  {
  }

  lemma AlternatesDequeue(s: State, s': State)
    requires Alternates(s) && LoopDequeueStep(s, s')
    ensures Alternates(s')
  {
  }

  lemma AlternatesElsewhere(s: State, s': State)
    requires Alternates(s) && LoopFrame(s, s') && SameIo(s, s')
    requires !Acking(s.loop) && !s.loop.DecData? && !Acking(s'.loop) && !s'.loop.DecData?
    ensures Alternates(s')
  {
  }

  lemma AlternatesBranch(s: State, s': State)
    requires Alternates(s) && (LoopCancelStep(s, s') || LoopQueueStep(s, s'))
    ensures Alternates(s')
  {
    AlternatesElsewhere(s, s');
  }

  lemma AlternatesLoop(s: State, s': State)
    requires Alternates(s) && LoopStep(s, s')
    ensures Alternates(s')
  {
    if LoopAckStep(s, s') {
      AlternatesAck(s, s');
    } else if LoopDequeueStep(s, s') {
      AlternatesDequeue(s, s');
    } else if LoopWaitStep(s, s') {
      AlternatesElsewhere(s, s');
    } else {
      AlternatesBranch(s, s');
    }
  }

  lemma AlternatesComplete(s: State, s': State)
    requires Alternates(s) && IoCompleteStep(s, s')
    ensures Alternates(s')
  {
  }

  lemma AlternatesIo(s: State, s': State)
    requires Alternates(s) && IoStep(s, s')
    ensures Alternates(s')
  {
    if IoCompleteStep(s, s') {
      AlternatesComplete(s, s');
    }
  }

  // ----- conservation of dispatches -----

  /** Completions whose dispatch the loop has not yet taken off io_counter. */
  function Unacknowledged(s: State): int {
    Bit(s.io.IncData?) + s.dataCounter + Bit(s.loop.DecIo?)
  }

  /** Inside cx_after_io: the packet is still set. */
  predicate Completing(io: IoPc) {
    io.After? || io.CopyIosb? || io.ClearPacket?
  }

  predicate Conserved(s: State) {
    && (s.io.InCall? || s.io.AfterAbort? || Completing(s.io) ==> s.packet.Some?)
    && s.ioCounter + Bit(s.loop.IncIo?) == Bit(s.packet.Some?) + Unacknowledged(s) + s.overwrites
  }

  lemma ConservedLoop(s: State, s': State)
    requires Conserved(s) && LoopStep(s, s')
    ensures Conserved(s')
  {
  }

  lemma ConservedIo(s: State, s': State)
    requires Conserved(s) && IoStep(s, s')
    ensures Conserved(s')
  {
  }

  // ----- when the I/O thread may find no packet -----

  /** A completed request is not acknowledged yet, so the I/O thread is not looking for work. */
  predicate Unacked(s: State) {
    s.io.IncData? || s.dataCounter == 1 || (Acking(s.loop) && !s.loop.SetComplete?)
  }

  /** Unless a packet was replaced or the abort is signalled, the I/O thread is woken for a packet. */
  predicate Fed(s: State) {
    s.overwrites == 0 && !s.evAbort ==>
      && (s.io.IoAbort? || s.io.Before? || s.io.CheckPacket? ==> s.packet.Some?)
      && (s.evIo || s.loop.IncIo? || s.loop.SetIo? ==> s.packet.Some? || Unacked(s))
  }

  lemma FedLoop(s: State, s': State)
    requires Alternates(s) && Fed(s) && LoopStep(s, s')
    ensures Fed(s')
  {
  }

  lemma FedIo(s: State, s': State)
    requires Alternates(s) && Conserved(s) && Fed(s) && IoStep(s, s')
    ensures Fed(s')
  {
  }

  // ----- no lost wake-up -----

  predicate IsProducer(pc: ClientPc) {
    pc.Count? || pc.Signal?
  }

  ghost predicate ProducerActive(clients: map<nat, Client>) {
    exists t :: t in clients && IsProducer(clients[t].pc)
  }

  ghost predicate CancellerActive(clients: map<nat, Client>) {
    exists t :: t in clients && clients[t].pc.SignalCancel?
  }

  ghost predicate AborterActive(clients: map<nat, Client>) {
    exists t :: t in clients && clients[t].pc.SignalAbort?
  }

  /** Once the loop has read queue_counter as zero, a published slot is signalled or about to be. */
  ghost predicate AwakeQueue(s: State) {
    s.loop.TestData? || s.loop.TestCancel? || s.loop.LoopWait? ==>
      PublishedSlots(s.slots) > 0 ==> s.evQueue || ProducerActive(s.clients)
  }

  /** The same for the other sources of a wake-up, and for the I/O thread's own wait. */
  ghost predicate AwakeOthers(s: State) {
    && (s.loop.TestCancel? || s.loop.LoopWait? ==>
          s.dataCounter != 0 ==> s.evQueue || s.io.SetQueue?)
    && (s.loop.LoopWait? ==>
          s.cancel.counter != 0 ==> s.cancel.signalled || CancellerActive(s.clients))
    && (s.abortCounter != 0 || s.loop.DecAbort? || s.loop.Shutdown? || s.loop.LoopDone? ==>
          s.evAbort || AborterActive(s.clients))
    && (s.io.IoWait? ==> s.ioCounter != 0 ==> s.evIo || s.loop.SetIo?)
  }

  lemma OthersStay(s: State, s': State, t: nat)
    requires ClientFrame(s, s', t)
    ensures ProducerActive(s.clients) && !IsProducer(s.clients[t].pc) ==> ProducerActive(s'.clients)
    ensures CancellerActive(s.clients) && !s.clients[t].pc.SignalCancel? ==> CancellerActive(s'.clients)
    ensures AborterActive(s.clients) && !s.clients[t].pc.SignalAbort? ==> AborterActive(s'.clients)
    ensures IsProducer(s'.clients[t].pc) ==> ProducerActive(s'.clients)
    ensures s'.clients[t].pc.SignalCancel? ==> CancellerActive(s'.clients)
    ensures s'.clients[t].pc.SignalAbort? ==> AborterActive(s'.clients)
  {
    if ProducerActive(s.clients) && !IsProducer(s.clients[t].pc) {
      var u :| u in s.clients && IsProducer(s.clients[u].pc);
      assert u in s'.clients && IsProducer(s'.clients[u].pc);
    }
    if CancellerActive(s.clients) && !s.clients[t].pc.SignalCancel? {
      var u :| u in s.clients && s.clients[u].pc.SignalCancel?;
      assert u in s'.clients && s'.clients[u].pc.SignalCancel?;
    }
    if AborterActive(s.clients) && !s.clients[t].pc.SignalAbort? {
      var u :| u in s.clients && s.clients[u].pc.SignalAbort?;
      assert u in s'.clients && s'.clients[u].pc.SignalAbort?;
    }
  }

  lemma AwakeQueueClient(s: State, s': State, t: nat)
    requires Ownership.Inv(s) && AwakeQueue(s) && ClientStep(s, s', t)
    ensures AwakeQueue(s')
  {
    OthersStay(s, s', t);
    PublishedByClient(s, s', t);
  }

  /** A call that moves neither the cancellation nor the abort. */
  lemma AwakeOthersStill(s: State, s': State, t: nat)
    requires AwakeOthers(s) && ClientFrame(s, s', t) && SameAbort(s, s')
    requires s'.cancel.counter == s.cancel.counter && s'.cancel.signalled == s.cancel.signalled
    requires s'.evQueue == s.evQueue || s'.evQueue
    requires !s.clients[t].pc.SignalCancel? && !s.clients[t].pc.SignalAbort?
    ensures AwakeOthers(s')
  {
    OthersStay(s, s', t);
  }

  lemma AwakeOthersCancel(s: State, s': State, t: nat)
    requires AwakeOthers(s) && CancelCallStep(s, s', t)
    ensures AwakeOthers(s')
  {
    OthersStay(s, s', t);
  }

  lemma AwakeOthersFree(s: State, s': State, t: nat)
    requires AwakeOthers(s) && FreeStep(s, s', t)
    ensures AwakeOthers(s')
  {
    OthersStay(s, s', t);
  }

  lemma AwakeOthersClient(s: State, s': State, t: nat)
    requires AwakeOthers(s) && ClientStep(s, s', t)
    ensures AwakeOthers(s')
  {
    if CancelCallStep(s, s', t) {
      AwakeOthersCancel(s, s', t);
    } else if FreeStep(s, s', t) {
      AwakeOthersFree(s, s', t);
    } else {
      AwakeOthersStill(s, s', t);
    }
  }

  /** A zero counter beside a published slot means that a producer is on its way. */
  lemma ProducerOnItsWay(s: State)
    requires Accounted(s) && s.queueCounter == 0 && PublishedSlots(s.slots) > 0 && !Consuming(s.loop)
    ensures ProducerActive(s.clients)
  {
    assert Uncounted(s.clients) != {};
    var t :| t in Uncounted(s.clients);
    assert IsProducer(s.clients[t].pc);
  }

  lemma AwakeQueueLoop(s: State, s': State)
    requires Accounted(s) && AwakeQueue(s) && LoopStep(s, s')
    ensures AwakeQueue(s')
  {
    if s.loop.TestQueue? && s.queueCounter == 0 && PublishedSlots(s.slots) > 0 {
      ProducerOnItsWay(s);
    }
  }

  lemma AwakeOthersWait(s: State, s': State)
    requires AwakeOthers(s) && LoopWaitStep(s, s')
    ensures AwakeOthers(s')
  {
  }

  /** The other branches never lead to the tests before the wait, except from the top of the loop. */
  lemma AwakeOthersBranch(s: State, s': State)
    requires Alternates(s) && AwakeOthers(s)
    requires LoopCancelStep(s, s') || LoopAckStep(s, s') || LoopDequeueStep(s, s') || LoopQueueStep(s, s')
    ensures AwakeOthers(s')
  {
    assert !s'.loop.TestCancel? && !s'.loop.LoopWait?;
  }

  lemma AwakeOthersLoop(s: State, s': State)
    requires Alternates(s) && AwakeOthers(s) && LoopStep(s, s')
    ensures AwakeOthers(s')
  {
    if LoopWaitStep(s, s') {
      AwakeOthersWait(s, s');
    } else {
      AwakeOthersBranch(s, s');
    }
  }

  lemma AwakeIo(s: State, s': State)
    requires AwakeQueue(s) && AwakeOthers(s) && IoStep(s, s')
    ensures AwakeQueue(s') && AwakeOthers(s')
  {
  }
}
