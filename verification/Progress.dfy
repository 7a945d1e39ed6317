/**
 The threads can always move: with one request at a time, each of the two
 threads has a step in every reachable state, unless it waits and nothing it
 waits for is signalled.
 */
module Progress {
  import opened AiocbStatus
  import opened Protocol
  import Ownership
  import Counters
  import EndToEnd

  predicate LoopBlocked(s: State) {
    s.loop.LoopWait? && !s.evQueue && !s.cancel.signalled && !s.evAbort
  }

  predicate IoBlocked(s: State) {
    || (s.io.IoWait? && !s.evIo && !s.evAbort)
    || (s.io.AwaitComplete? && !s.evComplete && !s.evAbort)
  }

  // ----- the loop thread -----

  lemma WaitMoves(s: State)
    requires s.loop.TestQueue? || s.loop.TestData? || s.loop.TestCancel? || (s.loop.LoopWait? && !LoopBlocked(s))
    ensures exists s' :: LoopWaitStep(s, s')
  {
    var pc := match s.loop
      case TestQueue => if s.queueCounter == 0 then TestData else PollAbort
      case TestData => if s.dataCounter == 0 then TestCancel else PollAbort
      case TestCancel => if s.cancel.counter == 0 then LoopWait else PollAbort
      case _ => PollAbort;
    assert LoopWaitStep(s, s.(loop := pc));
  }

  lemma PollMoves(s: State)
    requires s.abortCounter == 0 && s.cancel.counter == 0
    ensures s.loop.PollAbort? ==> exists s' :: LoopWaitStep(s, s')
    ensures s.loop.PollCancel? ==> exists s' :: LoopCancelStep(s, s')
  {
    if s.loop.PollAbort? {
      assert LoopWaitStep(s, s.(loop := PollCancel));
    }
    if s.loop.PollCancel? {
      assert LoopCancelStep(s, s.(loop := PollData));
    }
  }

  lemma AckMoves(s: State)
    requires s.loop.PollData? || s.loop.DecData? || s.loop.DecIo? || s.loop.ResetIo? || s.loop.SetComplete?
    ensures exists s' :: LoopAckStep(s, s')
  {
    if s.loop.PollData? {
      assert LoopAckStep(s, s.(loop := if s.dataCounter == 0 then PollQueue else DecData));
    } else if s.loop.DecData? {
      assert LoopAckStep(s, s.(loop := DecIo, dataCounter := s.dataCounter - 1));
    } else if s.loop.DecIo? {
      assert LoopAckStep(s, s.(loop := Dequeue(true), ioCounter := s.ioCounter - 1));
    } else if s.loop.ResetIo? {
      assert LoopAckStep(s, s.(loop := SetComplete, evIo := false));
    } else {
      assert LoopAckStep(s, s.(loop := PollQueue, evComplete := true, acks := s.acks + 1));
    }
  }

  lemma DequeueMoves(s: State)
    requires s.loop.Dequeue? && (s.lists.queue.Some? ==> s.lists.queue.value < |s.lists.nodes|)
    ensures exists s' :: LoopDequeueStep(s, s')
  {
    var q := s.lists;
    if q.queue.None? {
      assert LoopDequeueStep(s, s.(loop := if s.loop.ack then ResetIo else ResetQueue));
    } else {
      var n := q.queue.value;
      var rest := q.nodes[n].next;
      var q' := Lists(q.nodes[n := q.nodes[n].(next := q.qfree)], rest, if rest.None? then None else q.qtail, Some(n));
      assert LoopDequeueStep(s, s.(loop := IncIo(s.loop.ack), packet := q.queue, lists := q',
                                   overwrites := if s.packet.Some? then s.overwrites + 1 else s.overwrites));
    }
  }

  lemma DispatchMoves(s: State)
    requires s.loop.IncIo? || s.loop.SetIo?
    ensures exists s' :: LoopDequeueStep(s, s')
  {
    if s.loop.IncIo? {
      assert LoopDequeueStep(s, s.(loop := SetIo(s.loop.ack), ioCounter := s.ioCounter + 1));
    } else {
      assert LoopDequeueStep(s, s.(loop := if s.loop.ack then ResetIo else ResetQueue, evIo := true));
    }
  }

  lemma ScanMoves(s: State)
    requires s.loop.PollQueue? || s.loop.TestFree? || s.loop.Scan?
    ensures exists s' :: LoopQueueStep(s, s')
  {
    var pc := match s.loop
      case PollQueue => if s.queueCounter == 0 then Dequeue(false) else TestFree
      case TestFree => if s.lists.qfree.None? then Dequeue(false) else Scan(0)
      case Scan(i) =>
        if i >= |s.slots| then Dequeue(false) else if s.slots[i].pid == 0 then Scan(i + 1) else DecQueue(i)
      case _ => s.loop;
    assert LoopQueueStep(s, s.(loop := pc));
  }

  lemma ClearMoves(s: State)
    requires s.loop.DecQueue? || s.loop.ResetQueue? || s.loop.ClearPid? || s.loop.ClearTid?
    requires s.loop.ClearPid? || s.loop.ClearTid? ==> s.loop.i < |s.slots|
    ensures exists s' :: LoopQueueStep(s, s')
  {
    if s.loop.DecQueue? {
      assert LoopQueueStep(s, s.(loop := Take(s.loop.i), queueCounter := s.queueCounter - 1));
    } else if s.loop.ResetQueue? {
      assert LoopQueueStep(s, s.(loop := TestQueue, evQueue := false));
    } else if s.loop.ClearPid? {
      var i := s.loop.i;
      assert LoopQueueStep(s, s.(loop := ClearTid(i), slots := s.slots[i := s.slots[i].(pid := 0)]));
    } else {
      var i := s.loop.i;
      assert LoopQueueStep(s, s.(loop := Scan(i + 1), slots := s.slots[i := s.slots[i].(tid := 0)]));
    }
  }

  /** What waio_enqueue makes of the lists. */
  function Appended(q: Lists, j: Job): Lists
    requires q.qfree.Some? && q.qfree.value < |q.nodes| && (q.qtail.Some? ==> q.qtail.value < |q.nodes|)
  {
    var n := q.qfree.value;
    var nodes := q.nodes[n := RequestNode(j)];
    if q.qtail.None? then Lists(nodes, Some(n), Some(n), q.nodes[n].next)
    else Lists(nodes[q.qtail.value := nodes[q.qtail.value].(next := Some(n))], q.queue, Some(n), q.nodes[n].next)
  }

  lemma TakeMoves(s: State)
    requires s.loop.Take? && s.loop.i < |s.slots|
    requires s.lists.qfree.Some? && s.lists.qfree.value < |s.lists.nodes|
    requires s.lists.qtail.Some? ==> s.lists.qtail.value < |s.lists.nodes|
    ensures exists s' :: LoopQueueStep(s, s')
  {
    var j := s.slots[s.loop.i].data;
    assert LoopQueueStep(s, s.(loop := ClearPid(s.loop.i), lists := Appended(s.lists, j),
                               aio := s.aio[j.aiocb := GetAio(s.aio, j.aiocb).(request := s.lists.qfree)]));
  }

  lemma LoopStepOf(s: State)
    requires || (exists s' :: LoopWaitStep(s, s')) || (exists s' :: LoopCancelStep(s, s'))
             || (exists s' :: LoopAckStep(s, s')) || (exists s' :: LoopDequeueStep(s, s'))
             || (exists s' :: LoopQueueStep(s, s'))
    ensures exists s' :: LoopStep(s, s')
  {
    var s' :| || LoopWaitStep(s, s') || LoopCancelStep(s, s') || LoopAckStep(s, s')
              || LoopDequeueStep(s, s') || LoopQueueStep(s, s');
    assert LoopStep(s, s');
  }

  lemma EnqueueMoves(s: State)
    requires EndToEnd.ListShape(s.lists) && Ownership.LoopScans(s.slots, s.loop)
    requires s.loop.Take? ==> s.lists.queue.None?
    requires || s.loop.PollQueue? || s.loop.TestFree? || s.loop.Scan? || s.loop.DecQueue? || s.loop.Take?
             || s.loop.ClearPid? || s.loop.ClearTid? || s.loop.ResetQueue?
    ensures exists s' :: LoopQueueStep(s, s')
  {
    if s.loop.PollQueue? || s.loop.TestFree? || s.loop.Scan? {
      ScanMoves(s);
    } else if s.loop.Take? {
      TakeMoves(s);
    } else {
      ClearMoves(s);
    }
  }

  lemma LoopMoves(s: State)
    requires EndToEnd.One(s) && !LoopBlocked(s)
    ensures exists s' :: LoopStep(s, s')
  {
    if s.loop.TestQueue? || s.loop.TestData? || s.loop.TestCancel? || s.loop.LoopWait? {
      WaitMoves(s);
    } else if s.loop.PollAbort? || s.loop.PollCancel? {
      PollMoves(s);
    } else if s.loop.PollData? || s.loop.DecData? || s.loop.DecIo? || s.loop.ResetIo? || s.loop.SetComplete? {
      AckMoves(s);
    } else if s.loop.Dequeue? {
      DequeueMoves(s);
    } else if s.loop.IncIo? || s.loop.SetIo? {
      DispatchMoves(s);
    } else {
      EnqueueMoves(s);
    }
    LoopStepOf(s);
  }

  // ----- the I/O thread -----

  lemma BeginMoves(s: State)
    requires s.abortCounter == 0 && !IoBlocked(s)
    requires s.io.TestIo? || s.io.IoWait? || s.io.IoAbort?
    ensures exists s' :: IoBeginStep(s, s')
  {
    if s.io.TestIo? {
      assert IoBeginStep(s, s.(io := if s.ioCounter == 0 then IoWait else IoAbort));
    } else if s.io.IoWait? {
      assert IoBeginStep(s, s.(io := IoAbort));
    } else {
      assert IoBeginStep(s, s.(io := Before));
    }
  }

  lemma StartMoves(s: State)
    requires s.io.Before? || s.io.CheckPacket?
    requires s.packet.Some? && s.packet.value < |s.lists.nodes|
    requires GetAio(s.aio, s.lists.nodes[s.packet.value].packet.aiocb).request == s.packet
    ensures exists s' :: IoBeginStep(s, s')
  {
    var n := s.packet.value;
    var p := s.lists.nodes[n].packet;
    if s.io.Before? {
      assert IoBeginStep(s, s.(io := CheckPacket, ioType := s.lists.nodes[n].job.opcode,
                               aio := s.aio[p.aiocb := GetAio(s.aio, p.aiocb).(qstatus := Pending)]));
    } else {
      var call := Call(s.ioType, p.data, p.size, p.offset);
      assert IoBeginStep(s, s.(io := InCall(n, call), log := s.log.(calls := s.log.calls + [call])));
    }
  }

  lemma ReturnMoves(s: State)
    requires (s.io.InCall? && s.io.node < |s.lists.nodes|) || (s.io.AfterAbort? && s.abortCounter == 0)
    ensures exists s' :: IoCallStep(s, s')
  {
    if s.io.AfterAbort? {
      assert IoCallStep(s, s.(io := After));
    } else {
      var n := s.io.node;
      var p := s.lists.nodes[n].packet;
      var log := s.log.(results := s.log.results + [p.iosb]);
      assert s.lists.nodes[n := s.lists.nodes[n].(packet := p.(iosb := p.iosb))] == s.lists.nodes;
      assert IoCallStep(s, s.(io := AfterAbort, log := log));
    }
  }

  lemma HookMoves(s: State)
    requires Counters.Completing(s.io) && s.packet.Some? && s.packet.value < |s.lists.nodes|
    ensures exists s' :: IoHookStep(s, s')
  {
    var p := s.lists.nodes[s.packet.value].packet;
    if s.io.After? {
      assert IoHookStep(s, s.(io := CopyIosb(p.aiocb),
                              aio := s.aio[p.aiocb := GetAio(s.aio, p.aiocb).(qstatus := Success)]));
    } else if s.io.CopyIosb? {
      var a := s.io.aiocb;
      assert IoHookStep(s, s.(io := ClearPacket(a, p.iosb), aio := s.aio[a := GetAio(s.aio, a).(iosb := p.iosb)]));
    } else {
      var done := Completion(s.io.aiocb, s.io.iosb);
      assert IoHookStep(s, s.(io := IncData, packet := None, log := s.log.(completions := s.log.completions + [done])));
    }
  }

  lemma CompleteMoves(s: State)
    requires s.abortCounter == 0 && !IoBlocked(s)
    requires s.io.IncData? || s.io.SetQueue? || s.io.AwaitComplete? || s.io.CompleteAbort? || s.io.ResetComplete?
    ensures exists s' :: IoCompleteStep(s, s')
  {
    if s.io.IncData? {
      assert IoCompleteStep(s, s.(io := SetQueue, dataCounter := s.dataCounter + 1, passes := s.passes + 1));
    } else if s.io.SetQueue? {
      assert IoCompleteStep(s, s.(io := AwaitComplete, evQueue := true));
    } else if s.io.AwaitComplete? {
      assert IoCompleteStep(s, s.(io := CompleteAbort(!s.evComplete)));
    } else if s.io.CompleteAbort? {
      assert IoCompleteStep(s, s.(io := if s.io.byAbort then IoDone else ResetComplete));
    } else {
      assert IoCompleteStep(s, s.(io := TestIo, evComplete := false));
    }
  }

  lemma IoStepOf(s: State)
    requires || (exists s' :: IoBeginStep(s, s')) || (exists s' :: IoCallStep(s, s'))
             || (exists s' :: IoHookStep(s, s')) || (exists s' :: IoCompleteStep(s, s'))
    ensures exists s' :: IoStep(s, s')
  {
    var s' :| IoBeginStep(s, s') || IoCallStep(s, s') || IoHookStep(s, s') || IoCompleteStep(s, s');
    assert IoStep(s, s');
  }

  lemma IoMoves(s: State)
    requires EndToEnd.One(s) && !IoBlocked(s)
    ensures exists s' :: IoStep(s, s')
  {
    if s.io.TestIo? || s.io.IoWait? || s.io.IoAbort? {
      BeginMoves(s);
    } else if s.io.Before? || s.io.CheckPacket? {
      StartMoves(s);
    } else if s.io.InCall? || s.io.AfterAbort? {
      ReturnMoves(s);
    } else if Counters.Completing(s.io) {
      HookMoves(s);
    } else {
      CompleteMoves(s);
    }
    IoStepOf(s);
  }

  // ----- a producer on its way to signal -----

  lemma ProducerMoves(s: State, t: nat)
    requires t in s.clients && Counters.IsProducer(s.clients[t].pc)
    ensures exists s' :: SubmitStep(s, s', t)
  {
    var c := s.clients[t];
    if c.pc.Count? {
      var c' := c.(pc := Signal(c.pc.i));
      assert SubmitStep(s, s.(clients := s.clients[t := c'], queueCounter := s.queueCounter + 1), t);
    } else {
      var c' := c.(pc := if s.evQueue then Spin(c.pc.i) else Idle);
      assert SubmitStep(s, s.(clients := s.clients[t := c'], evQueue := true), t);
    }
  }

  /** Each thread has a step unless it waits with nothing signalled: neither ever follows a bad pointer. */
  lemma NeverStuck(run: seq<State>, n: nat)
    requires EndToEnd.RunOne(run) && n < |run|
    ensures LoopBlocked(run[n]) || exists s' :: LoopStep(run[n], s')
    ensures IoBlocked(run[n]) || exists s' :: IoStep(run[n], s')
  {
    EndToEnd.OneRun(run, n);
    if !LoopBlocked(run[n]) {
      LoopMoves(run[n]);
    }
    if !IoBlocked(run[n]) {
      IoMoves(run[n]);
    }
  }

  /** No deadlock: when no thread of the library can move, everything submitted is complete. */
  lemma NoDeadlock(run: seq<State>, n: nat)
    requires EndToEnd.RunOne(run) && n < |run|
    requires !exists s' :: LoopStep(run[n], s')
    requires !exists s' :: IoStep(run[n], s')
    requires !exists s', t :: SubmitStep(run[n], s', t)
    ensures |run[n].log.completions| == |run[n].log.submitted|
  {
    NeverStuck(run, n);
    var s := run[n];
    if Counters.ProducerActive(s.clients) {
      var t :| t in s.clients && Counters.IsProducer(s.clients[t].pc);
      ProducerMoves(s, t);
    }
    EndToEnd.NeverStranded(run, n);
  }
}
