/**
 One request at a time, no cancellation and no abort: every submitted request
 is run exactly as submitted, is completed with the result of its own call,
 and is never stranded.
 */
module EndToEnd {
  import opened AiocbStatus
  import opened Protocol
  import Ownership
  import Counters
  import CancelLock
  import Invariant

  predicate Submitting(pc: ClientPc) {
    pc.Reserve? || Ownership.Writing(pc)
  }

  /** Every request so far is complete, its packet cleared, and no client is submitting another. */
  ghost predicate Quiet(s: State) {
    && |s.log.completions| == |s.log.submitted|
    && forall t :: t in s.clients ==> !Submitting(s.clients[t].pc)
  }

  /** A step of the system whose clients only submit, one request at a time. */
  ghost predicate NextOne(s: State, s': State) {
    || (exists t :: SubmitStep(s, s', t) || (Quiet(s) && EnterSubmit(s, s', t)))
    || LoopStep(s, s') || IoStep(s, s')
  }

  ghost predicate NextOneAt(run: seq<State>, i: nat) {
    i + 1 < |run| && NextOne(run[i], run[i + 1])
  }

  ghost predicate RunOne(run: seq<State>) {
    && |run| > 0
    && Init(run[0])
    && forall i :: 0 <= i < |run| - 1 ==> NextOneAt(run, i)
  }

  function Last(s: State): Job {
    if |s.log.submitted| == 0 then NO_JOB else s.log.submitted[|s.log.submitted| - 1]
  }

  // ----- nobody cancels, nobody aborts -----

  ghost predicate Calm(s: State) {
    && s.abortCounter == 0 && !s.evAbort && !s.io.IoDone? && s.io != CompleteAbort(true)
    && !s.loop.DecAbort? && !s.loop.Shutdown? && !s.loop.LoopDone?
    && s.cancel.hold.Open? && s.cancel.counter == 0 && !s.loop.DecCancel?
    && !CancelLock.Serving(s.loop) && !CancelLock.Releasing(s.loop)
  }

  lemma CalmLoop(s: State, s': State)
    requires Calm(s) && LoopStep(s, s')
    ensures Calm(s')
  {
  }

  lemma CalmIo(s: State, s': State)
    requires Calm(s) && Counters.Alternates(s) && IoStep(s, s')
    requires s.io.CheckPacket? ==> s.packet.Some?
    ensures Calm(s')
  {
  }

  // ----- where the one request is -----

  /** The request waits in slot 0. */
  predicate InSlot(s: State) {
    |s.slots| == SLOT_COUNT && s.slots[0].pid != 0 && s.loop != ClearPid(0)
  }

  predicate NodeHolds(n: Node, j: Job) {
    && n.job == j && n.packet.data == j.buf && n.packet.size == j.nbytes
    && n.packet.offset == j.offset && n.packet.aiocb == j.aiocb
  }

  /** Only the first node is ever used, and it is on one list or the other. */
  predicate ListShape(q: Lists) {
    && |q.nodes| > 0
    && if q.queue.None? then q.qtail.None? && q.qfree == Some(0)
       else q.queue == Some(0) && q.qtail == Some(0) && q.nodes[0].next.None?
  }

  predicate Token(s: State) {
    && ListShape(s.lists)
    && s.overwrites == 0
    && Counters.Bit(InSlot(s)) + Counters.Bit(s.lists.queue.Some?) + Counters.Bit(s.packet.Some?)
         == |s.log.submitted| - |s.log.completions|
    && |s.log.submitted| - |s.log.completions| <= 1
    && (s.loop == ClearPid(0) || s.loop == ClearTid(0) ==> s.lists.queue.Some?)
    && (s.lists.queue.Some? ==>
          s.loop == ClearPid(0) || s.loop == ClearTid(0) || s.loop.Scan? || s.loop == Dequeue(false))
  }

  /** Slot 0 is the only slot in use; at most one client is filling it. */
  ghost predicate OneSlot(s: State) {
    && |s.slots| == SLOT_COUNT
    && (forall i :: 1 <= i < |s.slots| ==> s.slots[i].tid == 0 && s.slots[i].pid == 0)
    && (forall t :: t in s.clients && Submitting(s.clients[t].pc) ==>
                      && s.clients[t].pc.i == 0
                      && |s.log.completions| == |s.log.submitted|
                      && (s.clients[t].pc.Reserve? ==> s.slots[0].tid == 0))
    && (forall t, u ::
          t in s.clients && u in s.clients && Submitting(s.clients[t].pc) && Submitting(s.clients[u].pc) ==>
            t == u)
  }

  /** The call has returned and the packet is not cleared yet. */
  predicate Returned(io: IoPc) {
    io.AfterAbort? || Counters.Completing(io)
  }

  /** Slot, node and packet carry the request that was submitted. */
  predicate Carried(s: State) {
    && |s.slots| == SLOT_COUNT && |s.lists.nodes| > 0
    && (s.slots[0].pid != 0 ==> s.slots[0].data == Last(s) && |s.log.submitted| > 0)
    && (s.lists.queue.Some? || s.packet.Some? ==>
          NodeHolds(s.lists.nodes[0], Last(s)) && GetAio(s.aio, Last(s).aiocb).request == Some(0))
    && (s.lists.queue.Some? || (s.packet.Some? && !Returned(s.io)) ==>
          s.lists.nodes[0].packet.iosb == IOSB_PENDING)
    && (s.packet.Some? ==> s.packet == Some(0))
  }

  // ----- how far the I/O thread is with it -----

  /** From the set-up of the call to cx_after_io, which sets the status. */
  predicate Running(io: IoPc) {
    io.CheckPacket? || io.InCall? || io.AfterAbort? || io.After?
  }

  /** cx_after_io has set the status and not yet cleared the packet. */
  predicate Announced(io: IoPc) {
    io.CopyIosb? || io.ClearPacket?
  }

  /** The calls made are those of the requests submitted, in order, one call each. */
  predicate Logged(s: State) {
    var n, d := |s.log.submitted|, |s.log.completions|;
    && (s.io.CheckPacket? ==> s.ioType == Last(s).opcode)
    && |s.log.calls| == (if s.io.InCall? || Returned(s.io) then n else d)
    && |s.log.results| == (if Returned(s.io) then n else d)
    && (s.io.InCall? ==> s.io.node == 0 && s.io.call == CallOf(Last(s)) && n == d + 1)
    && (Returned(s.io) ==>
          n == d + 1 && |s.lists.nodes| > 0 && s.lists.nodes[0].packet.iosb == s.log.results[n - 1])
    && (s.io.CopyIosb? ==> s.io.aiocb == Last(s).aiocb)
    && (s.io.ClearPacket? ==> s.io.aiocb == Last(s).aiocb && s.io.iosb == s.log.results[n - 1])
  }

  ghost predicate Faithful(log: Log) {
    && |log.completions| <= |log.results| <= |log.calls| <= |log.submitted|
    && (forall k :: 0 <= k < |log.calls| ==> log.calls[k] == CallOf(log.submitted[k]))
    && (forall k :: 0 <= k < |log.completions| ==>
                      log.completions[k] == Completion(log.submitted[k].aiocb, log.results[k]))
    && (forall k :: 0 <= k < |log.results| && log.submitted[k].opcode == OP_NOP ==> log.results[k] == IOSB_PENDING)
  }

  /** No client has begun to rewrite an aiocb. */
  ghost predicate NoneMarked(clients: map<nat, Client>) {
    forall t :: t in clients ==> !clients[t].pc.Mark? && !clients[t].pc.Publish?
  }

  /** What the callers see in their aiocbs. */
  ghost predicate Statuses(s: State) {
    var n, d, a := |s.log.submitted|, |s.log.completions|, GetAio(s.aio, Last(s).aiocb);
    && |s.log.results| >= d
    && (forall t :: t in s.clients && s.clients[t].pc.Publish? ==>
                      GetAio(s.aio, s.clients[t].job.aiocb).qstatus.Wait1?)
    && (d < n && !Announced(s.io) && !Running(s.io) ==> a.qstatus.Wait1?)
    && (Announced(s.io) ==> d < n && a.qstatus.Success?)
    && (s.io.ClearPacket? ==> a.iosb == s.io.iosb)
    && (Running(s.io) ==> a.qstatus.Pending?)
    && (0 < n == d && NoneMarked(s.clients) ==>
          a.qstatus.Success? && a.iosb == s.log.results[n - 1])
  }

  /** The one request: where it is, what is done with it, what the caller sees. */
  ghost predicate Single(s: State) {
    && Calm(s) && Token(s) && OneSlot(s) && Carried(s)
    && Logged(s) && Faithful(s.log) && Statuses(s)
  }

  ghost predicate One(s: State) {
    Invariant.Inv(s) && Single(s)
  }

  // ----- client steps -----

  lemma NoneMarkedBefore(s: State, s': State, t: nat)
    requires ClientFrame(s, s', t) && NoneMarked(s'.clients)
    requires !s.clients[t].pc.Mark? && !s.clients[t].pc.Publish?
    ensures NoneMarked(s.clients)
  {
    forall u | u in s.clients ensures !s.clients[u].pc.Mark? && !s.clients[u].pc.Publish? {
      assert u in s'.clients;
    }
  }

  lemma EnterKeepsSlot(s: State, s': State, t: nat)
    requires Single(s) && Ownership.Inv(s) && Quiet(s) && EnterSubmit(s, s', t)
    ensures OneSlot(s') && Token(s')
  {
    assert Ownership.SlotOwned(s.slots[0], s.clients, s.loop, 0);
  }

  lemma EnterKeepsStatuses(s: State, s': State, t: nat)
    requires Statuses(s) && EnterSubmit(s, s', t)
    ensures Statuses(s')
  {
    if NoneMarked(s'.clients) {
      NoneMarkedBefore(s, s', t);
    }
  }

  lemma EnterKeeps(s: State, s': State, t: nat)
    requires Single(s) && Ownership.Inv(s) && Quiet(s) && EnterSubmit(s, s', t)
    ensures Single(s')
  {
    EnterKeepsSlot(s, s', t);
    EnterKeepsStatuses(s, s', t);
  }

  lemma SubmitKeepsToken(s: State, s': State, t: nat)
    requires Single(s) && Ownership.Inv(s) && Counters.Conserved(s) && Counters.Fed(s) && SubmitStep(s, s', t)
    ensures Token(s')
  {
    assert Ownership.ClientOwns(s.slots, s.loop, t, s.clients[t]);
  }

  lemma ReserveKeepsSlot(s: State, s': State, t: nat)
    requires Single(s) && Ownership.Inv(s) && Counters.Conserved(s) && Counters.Fed(s)
    requires SubmitStep(s, s', t) && s.clients[t].pc.Reserve?
    ensures OneSlot(s')
  {
  }

  lemma WriteKeepsSlot(s: State, s': State, t: nat)
    requires Single(s) && Ownership.Inv(s) && Counters.Conserved(s) && Counters.Fed(s)
    requires SubmitStep(s, s', t) && Ownership.Writing(s.clients[t].pc)
    ensures OneSlot(s')
  {
    forall u | u in s'.clients && u != t ensures !Submitting(s'.clients[u].pc) {
      assert s'.clients[u] == s.clients[u];
    }
  }

  lemma NotifyKeepsSlot(s: State, s': State, t: nat)
    requires Single(s) && Ownership.Inv(s) && Counters.Conserved(s) && Counters.Fed(s)
    requires SubmitStep(s, s', t) && Ownership.Published(s.clients[t].pc)
    ensures OneSlot(s')
  {
    assert !Submitting(s'.clients[t].pc);
  }

  lemma SubmitKeepsData(s: State, s': State, t: nat)
    requires Single(s) && Ownership.Inv(s) && Counters.Conserved(s) && Counters.Fed(s) && SubmitStep(s, s', t)
    ensures Calm(s') && Carried(s') && Logged(s') && Faithful(s'.log)
  {
    assert Ownership.ClientOwns(s.slots, s.loop, t, s.clients[t]);
  }

  lemma SubmitKeepsWait1(s: State, s': State, t: nat)
    requires Single(s) && Ownership.Inv(s) && Counters.Conserved(s) && Counters.Fed(s) && SubmitStep(s, s', t)
    ensures forall u :: u in s'.clients && s'.clients[u].pc.Publish? ==>
                          GetAio(s'.aio, s'.clients[u].job.aiocb).qstatus.Wait1?
  {
    assert Ownership.ClientOwns(s.slots, s.loop, t, s.clients[t]);
  }

  lemma SubmitKeepsPending(s: State, s': State, t: nat)
    requires Single(s) && Ownership.Inv(s) && Counters.Conserved(s) && Counters.Fed(s) && SubmitStep(s, s', t)
    ensures |s'.log.results| >= |s'.log.completions|
    ensures var a := GetAio(s'.aio, Last(s').aiocb);
            && (|s'.log.completions| < |s'.log.submitted| && !Announced(s.io) && !Running(s.io) ==> a.qstatus.Wait1?)
            && (Announced(s.io) ==> |s'.log.completions| < |s'.log.submitted| && a.qstatus.Success?)
            && (s.io.ClearPacket? ==> a.iosb == s.io.iosb)
            && (Running(s.io) ==> a.qstatus.Pending?)
  {
    assert Ownership.ClientOwns(s.slots, s.loop, t, s.clients[t]);
  }

  lemma SubmitKeepsResult(s: State, s': State, t: nat)
    requires Token(s) && Statuses(s) && SubmitStep(s, s', t)
    requires 0 < |s'.log.submitted| == |s'.log.completions| && NoneMarked(s'.clients)
    ensures s'.aio == s.aio && s'.log == s.log && NoneMarked(s.clients)
  {
    assert !s'.clients[t].pc.Mark? && !s'.clients[t].pc.Publish?;
    NoneMarkedBefore(s, s', t);
  }

  lemma SubmitKeepsStatuses(s: State, s': State, t: nat)
    requires Single(s) && Ownership.Inv(s) && Counters.Conserved(s) && Counters.Fed(s) && SubmitStep(s, s', t)
    ensures Statuses(s')
  {
    SubmitKeepsWait1(s, s', t);
    SubmitKeepsPending(s, s', t);
    if 0 < |s'.log.submitted| == |s'.log.completions| && NoneMarked(s'.clients) {
      SubmitKeepsResult(s, s', t);
    }
  }

  lemma SubmitKeeps(s: State, s': State, t: nat)
    requires Single(s) && Ownership.Inv(s) && Counters.Conserved(s) && Counters.Fed(s) && SubmitStep(s, s', t)
    ensures Single(s')
  {
    SubmitKeepsToken(s, s', t);
    if s.clients[t].pc.Reserve? {
      ReserveKeepsSlot(s, s', t);
    } else if Ownership.Writing(s.clients[t].pc) {
      WriteKeepsSlot(s, s', t);
    } else {
      NotifyKeepsSlot(s, s', t);
    }
    SubmitKeepsData(s, s', t);
    SubmitKeepsStatuses(s, s', t);
  }

  // ----- loop steps -----

  lemma WaitKeeps(s: State, s': State)
    requires Single(s) && Ownership.Inv(s) && Counters.Conserved(s) && LoopWaitStep(s, s')
    ensures Single(s')
  {
    CalmLoop(s, s');
  }

  lemma PollKeeps(s: State, s': State)
    requires Single(s) && Ownership.Inv(s) && Counters.Conserved(s) && LoopCancelStep(s, s')
    ensures Single(s')
  {
    CalmLoop(s, s');
  }

  lemma AckKeeps(s: State, s': State)
    requires Single(s) && Ownership.Inv(s) && Counters.Conserved(s) && LoopAckStep(s, s')
    ensures Single(s')
  {
    CalmLoop(s, s');
  }

  lemma DequeueKeeps(s: State, s': State)
    requires Single(s) && Ownership.Inv(s) && Counters.Conserved(s) && LoopDequeueStep(s, s')
    ensures Single(s')
  {
    CalmLoop(s, s');
  }

  /** Taking the request off its slot puts it, unchanged, on the queue. */
  lemma TakeKeeps(s: State, s': State)
    requires Single(s) && Ownership.Inv(s) && Counters.Conserved(s) && LoopQueueStep(s, s') && s.loop.Take?
    ensures Single(s')
  {
    CalmLoop(s, s');
  }

  lemma ScanKeepsPlace(s: State, s': State)
    requires Single(s) && Ownership.Inv(s) && Counters.Conserved(s) && LoopQueueStep(s, s') && !s.loop.Take?
    ensures Calm(s') && Token(s') && OneSlot(s')
  {
    CalmLoop(s, s');
  }

  lemma ScanKeepsLog(s: State, s': State)
    requires Single(s) && Ownership.Inv(s) && Counters.Conserved(s) && LoopQueueStep(s, s') && !s.loop.Take?
    ensures Carried(s') && Logged(s') && Faithful(s'.log) && Statuses(s')
  {
  }

  lemma ScanKeeps(s: State, s': State)
    requires Single(s) && Ownership.Inv(s) && Counters.Conserved(s) && LoopQueueStep(s, s') && !s.loop.Take?
    ensures Single(s')
  {
    ScanKeepsPlace(s, s');
    ScanKeepsLog(s, s');
  }

  lemma LoopKeeps(s: State, s': State)
    requires Single(s) && Ownership.Inv(s) && Counters.Conserved(s) && LoopStep(s, s')
    ensures Single(s')
  {
    if LoopQueueStep(s, s') {
      if s.loop.Take? {
        TakeKeeps(s, s');
      } else {
        ScanKeeps(s, s');
      }
    } else if LoopDequeueStep(s, s') {
      DequeueKeeps(s, s');
    } else if LoopAckStep(s, s') {
      AckKeeps(s, s');
    } else if LoopCancelStep(s, s') {
      PollKeeps(s, s');
    } else {
      WaitKeeps(s, s');
    }
  }

  // ----- I/O steps -----

  lemma BeginKeepsPlace(s: State, s': State)
    requires Single(s) && Counters.Alternates(s) && Counters.Conserved(s) && Counters.Fed(s) && IoBeginStep(s, s')
    ensures Calm(s') && Token(s') && OneSlot(s') && Carried(s')
  {
    CalmIo(s, s');
  }

  lemma BeginKeepsLog(s: State, s': State)
    requires Single(s) && Counters.Alternates(s) && Counters.Conserved(s) && Counters.Fed(s) && IoBeginStep(s, s')
    ensures Logged(s') && Faithful(s'.log) && Statuses(s')
  {
  }

  lemma BeginKeeps(s: State, s': State)
    requires Single(s) && Counters.Alternates(s) && Counters.Conserved(s) && Counters.Fed(s) && IoBeginStep(s, s')
    ensures Single(s')
  {
    BeginKeepsPlace(s, s');
    BeginKeepsLog(s, s');
  }

  lemma CallKeeps(s: State, s': State)
    requires Single(s) && Counters.Alternates(s) && Counters.Conserved(s) && IoCallStep(s, s')
    ensures Single(s')
  {
    CalmIo(s, s');
  }

  lemma HookKeeps(s: State, s': State)
    requires Single(s) && Counters.Alternates(s) && Counters.Conserved(s) && IoHookStep(s, s')
    ensures Single(s')
  {
    CalmIo(s, s');
  }

  lemma CompleteKeeps(s: State, s': State)
    requires Single(s) && Counters.Alternates(s) && Counters.Conserved(s) && IoCompleteStep(s, s')
    ensures Single(s')
  {
    CalmIo(s, s');
  }

  lemma IoKeeps(s: State, s': State)
    requires Single(s) && Counters.Alternates(s) && Counters.Conserved(s) && Counters.Fed(s) && IoStep(s, s')
    ensures Single(s')
  {
    if IoBeginStep(s, s') {
      BeginKeeps(s, s');
    } else if IoCallStep(s, s') {
      CallKeeps(s, s');
    } else if IoHookStep(s, s') {
      HookKeeps(s, s');
    } else {
      CompleteKeeps(s, s');
    }
  }

  // ----- every run -----

  lemma OneAt(run: seq<State>, n: nat)
    requires RunOne(run) && n + 1 < |run| && One(run[n])
    ensures One(run[n + 1])
  {
    assert NextOneAt(run, n);
    var s, s' := run[n], run[n + 1];
    if LoopStep(s, s') {
      Invariant.InvLoop(s, s');
      LoopKeeps(s, s');
    } else if IoStep(s, s') {
      Invariant.InvIo(s, s');
      IoKeeps(s, s');
    } else {
      var t :| SubmitStep(s, s', t) || (Quiet(s) && EnterSubmit(s, s', t));
      Invariant.InvClient(s, s', t);
      if SubmitStep(s, s', t) {
        SubmitKeeps(s, s', t);
      } else {
        EnterKeeps(s, s', t);
      }
    }
  }

  lemma OneInit(s: State)
    requires Init(s)
    ensures One(s)
  {
    Invariant.InvInit(s);
  }

  ghost predicate Kept<S(!new)>(P: S -> bool, run: seq<S>, n: nat) {
    n + 1 < |run| && (P(run[n]) ==> P(run[n + 1]))
  }

  lemma {:induction false} Along<S(!new)>(P: S -> bool, run: seq<S>, n: nat)
    requires n < |run| && P(run[0]) && forall i :: 0 <= i < n ==> Kept(P, run, i)
    ensures P(run[n])
  {
    if n > 0 {
      Along(P, run, n - 1);
      assert Kept(P, run, n - 1);
    }
  }

  lemma OneRun(run: seq<State>, n: nat)
    requires RunOne(run) && n < |run|
    ensures One(run[n])
  {
    OneInit(run[0]);
    var P := s => One(s);
    forall i | 0 <= i < n ensures Kept(P, run, i) {
      if One(run[i]) {
        OneAt(run, i);
      }
    }
    Along(P, run, n);
  }

  /**
   The k-th system call is the k-th submitted request, opcode, buffer, size and
   offset; the k-th completion is credited to the k-th submitter's aiocb with
   the result of the k-th call; no call is missing and none is made twice.
   */
  lemma RunsWhatWasSubmitted(run: seq<State>, n: nat)
    requires RunOne(run) && n < |run|
    ensures var log := run[n].log;
            && |log.submitted| - 1 <= |log.completions| <= |log.results| <= |log.calls| <= |log.submitted|
            && (forall k :: 0 <= k < |log.calls| ==> log.calls[k] == CallOf(log.submitted[k]))
            && (forall k :: 0 <= k < |log.completions| ==>
                  log.completions[k] == Completion(log.submitted[k].aiocb, log.results[k]))
  {
    OneRun(run, n);
  }

  /** A request that does nothing (opcode 2) is completed with what its packet was made with: status pending, 0x103. */
  lemma NopReportsPending(run: seq<State>, n: nat, k: nat)
    requires RunOne(run) && n < |run| && k < |run[n].log.completions| && k < |run[n].log.submitted|
    requires run[n].log.submitted[k].opcode == 2
    ensures run[n].log.completions[k] == Completion(run[n].log.submitted[k].aiocb, 0x103)
  {
    OneRun(run, n);
    assert Faithful(run[n].log);
  }

  /** The I/O thread never finds an empty packet, never ends, and no packet is ever replaced. */
  lemma NeverFindsEmptyPacket(run: seq<State>, n: nat)
    requires RunOne(run) && n < |run|
    ensures run[n].io.Before? || run[n].io.CheckPacket? ==> run[n].packet == Some(0)
    ensures !run[n].io.IoDone? && run[n].overwrites == 0
  {
    OneRun(run, n);
  }

  /** Neither thread ever follows a null or dangling pointer. */
  lemma NeverFaults(run: seq<State>, n: nat)
    requires RunOne(run) && n < |run|
    ensures var s := run[n];
            && (s.loop.Take? ==>
                  && s.lists.qfree.Some? && s.lists.qfree.value < |s.lists.nodes|
                  && (s.lists.qtail.Some? ==> s.lists.qtail.value < |s.lists.nodes|))
            && (s.loop.Dequeue? && s.lists.queue.Some? ==> s.lists.queue.value < |s.lists.nodes|)
            && (s.io.InCall? ==> s.io.node < |s.lists.nodes|)
            && (s.packet.Some? ==>
                  && s.packet.value < |s.lists.nodes|
                  && GetAio(s.aio, s.lists.nodes[s.packet.value].packet.aiocb).request == s.packet)
  {
    OneRun(run, n);
  }

  /**
   No request is stranded: when the loop and the I/O thread both wait with
   nothing signalled and no client is about to signal, every submitted request
   is complete.
   */
  lemma NeverStranded(run: seq<State>, n: nat)
    requires RunOne(run) && n < |run|
    requires var s := run[n];
             && s.loop.LoopWait? && !s.evQueue && !s.cancel.signalled && !s.evAbort
             && ((s.io.IoWait? && !s.evIo) || (s.io.AwaitComplete? && !s.evComplete))
             && !Counters.ProducerActive(s.clients)
    ensures |run[n].log.completions| == |run[n].log.submitted|
  {
    OneRun(run, n);
    var s := run[n];
    Counters.PublishedIff(s.slots);
    assert s.slots[0].pid == 0;
  }

  lemma NoneSubmitting(s: State)
    requires forall t :: t in s.clients ==> !Submitting(s.clients[t].pc)
    ensures NoneMarked(s.clients)
  {
    forall t | t in s.clients ensures !s.clients[t].pc.Mark? && !s.clients[t].pc.Publish? {
      assert !Submitting(s.clients[t].pc);
    }
  }

  /**
   What the status tells while no client submits: WAIT_1 until the I/O thread
   turns to the request, PENDING from then until cx_after_io, SUCCESS from then on.
   */
  lemma StatusTells(run: seq<State>, n: nat)
    requires RunOne(run) && n < |run| && |run[n].log.submitted| > 0
    requires forall t :: t in run[n].clients ==> !Submitting(run[n].clients[t].pc)
    ensures var s := run[n]; var q := GetAio(s.aio, Last(s).aiocb).qstatus;
            && (q.Pending? <==> s.io.CheckPacket? || s.io.InCall? || s.io.AfterAbort? || s.io.After?)
            && (q.Success? <==>
                  |s.log.completions| == |s.log.submitted| || s.io.CopyIosb? || s.io.ClearPacket?)
            && (q.Wait1? <==> !q.Pending? && !q.Success?)
  {
    OneRun(run, n);
    NoneSubmitting(run[n]);
  }

  /**
   What a caller can see: while no client submits, the last aiocb is terminal
   exactly when everything submitted is complete or cx_after_io is between
   setting the status and clearing the packet; it carries the result of its own
   call exactly from the copy on. A caller that goes by the status alone can
   therefore be too early.
   */
  lemma TerminalIffComplete(run: seq<State>, n: nat)
    requires RunOne(run) && n < |run| && |run[n].log.submitted| > 0
    requires forall t :: t in run[n].clients ==> !Submitting(run[n].clients[t].pc)
    ensures var s := run[n]; var a := GetAio(s.aio, Last(s).aiocb);
            && (Terminal(a.qstatus) <==> |s.log.completions| == |s.log.submitted| || Announced(s.io))
            && (Terminal(a.qstatus) && !s.io.CopyIosb? ==>
                  |s.log.results| == |s.log.submitted| && a.iosb == s.log.results[|s.log.results| - 1])
            && (Announced(s.io) ==> s.packet.Some? && |s.log.completions| < |s.log.submitted|)
  {
    OneRun(run, n);
    NoneSubmitting(run[n]);
  }
}
