/**
 The two calls of waio_dequeue in an iteration of the loop, and the test and the
 pass of waio_enqueue, over whole runs while the other threads go on.
 */
module Dispatching {
  import opened Protocol
  import AbortRuns

  /** The loop is in the acknowledgement up to the reset of the I/O event, or in the last dequeue up to the reset after it. */
  predicate Within(loop: LoopPc, ack: bool) {
    match loop
    case DecIo => ack
    case Dequeue(a) => a == ack
    case IncIo(a) => a == ack
    case SetIo(a) => a == ack
    case ResetIo => ack
    case ResetQueue => !ack
    case _ => false
  }

  /** The queue has the head it had, and nothing was freed. */
  predicate HeadKept(q: Lists, q': Lists) {
    && q'.queue == q.queue && q'.qfree == q.qfree && |q'.nodes| == |q.nodes|
    && (q.queue.Some? && q.queue.value < |q.nodes| ==> q'.nodes[q.queue.value].next == q.nodes[q.queue.value].next)
  }

  /** The queue has lost its head to the free list. */
  predicate HeadFreed(q: Lists, q': Lists) {
    && q.queue.Some? && q.queue.value < |q.nodes|
    && q'.qfree == q.queue && q'.queue == q.nodes[q.queue.value].next
  }

  /** How far the loop has come since `s0`, by lists and counter. */
  predicate SoFar(s0: State, s: State, ack: bool) {
    var rest := if s0.loop.DecIo? then s0.ioCounter - 1 else s0.ioCounter;
    match s.loop
    case DecIo => s0.loop.DecIo? && HeadKept(s0.lists, s.lists) && s.ioCounter == s0.ioCounter
    case Dequeue(_) => HeadKept(s0.lists, s.lists) && s.ioCounter == rest
    case IncIo(_) => HeadFreed(s0.lists, s.lists) && s.ioCounter == rest
    case SetIo(_) => HeadFreed(s0.lists, s.lists) && s.ioCounter == rest + 1
    case _ =>
      if s0.lists.queue.None? then HeadKept(s0.lists, s.lists) && s.ioCounter == rest
      else HeadFreed(s0.lists, s.lists) && s.ioCounter == rest + 1 && s.evIo
  }

  lemma LoopGoesOn(s0: State, s: State, s': State, ack: bool)
    requires SoFar(s0, s, ack) && Within(s.loop, ack) && Within(s'.loop, ack) && LoopStep(s, s')
    ensures SoFar(s0, s', ack)
  {
  }

  lemma OthersGoOn(s0: State, s: State, s': State, ack: bool)
    requires SoFar(s0, s, ack) && Next(s, s') && !LoopStep(s, s')
    ensures SoFar(s0, s', ack) && s'.loop == s.loop
  {
    if t :| ClientStep(s, s', t) {
    } else {
      assert IoStep(s, s');
    }
  }

  lemma SoFarAt(run: seq<State>, m: nat, n: nat, ack: bool)
    requires Run(run) && m <= n && n + 1 < |run| && Within(run[n].loop, ack) && Within(run[n + 1].loop, ack)
    requires SoFar(run[m], run[n], ack)
    ensures SoFar(run[m], run[n + 1], ack)
  {
    assert NextAt(run, n);
    if LoopStep(run[n], run[n + 1]) {
      LoopGoesOn(run[m], run[n], run[n + 1], ack);
    } else {
      OthersGoOn(run[m], run[n], run[n + 1], ack);
    }
  }

  lemma {:induction false} SoFarAlong(run: seq<State>, m: nat, n: nat, ack: bool)
    requires Run(run) && m <= n < |run| && (run[m].loop.DecIo? || run[m].loop == Dequeue(ack))
    requires forall i :: m <= i <= n ==> Within(run[i].loop, ack)
    ensures SoFar(run[m], run[n], ack)
    decreases n - m
  {
    if m < n {
      SoFarAlong(run, m, n - 1, ack);
      SoFarAt(run, m, n - 1, ack);
    }
  }

  /**
   An acknowledgement dispatches the head of the queue, if there is one, before
   the I/O event is reset: the node goes to the free list, the request is counted
   in place of the completed one, and the event was set.
   */
  lemma AcknowledgementDispatches(run: seq<State>, m: nat, n: nat)
    requires Run(run) && m <= n < |run| && run[m].loop.DecIo? && run[n].loop.ResetIo?
    requires forall i :: m <= i <= n ==> Within(run[i].loop, true)
    ensures if run[m].lists.queue.None? then
              run[n].lists.qfree == run[m].lists.qfree && run[n].ioCounter == run[m].ioCounter - 1
            else HeadFreed(run[m].lists, run[n].lists) && run[n].ioCounter == run[m].ioCounter && run[n].evIo
  {
    SoFarAlong(run, m, n, true);
  }

  /** The last dequeue of an iteration does the same, and the request event is reset only after it. */
  lemma IterationDispatches(run: seq<State>, m: nat, n: nat)
    requires Run(run) && m <= n < |run| && run[m].loop == Dequeue(false) && run[n].loop.ResetQueue?
    requires forall i :: m <= i <= n ==> Within(run[i].loop, false)
    ensures if run[m].lists.queue.None? then
              run[n].lists.qfree == run[m].lists.qfree && run[n].ioCounter == run[m].ioCounter
            else HeadFreed(run[m].lists, run[n].lists) && run[n].ioCounter == run[m].ioCounter + 1 && run[n].evIo
  {
    SoFarAlong(run, m, n, false);
  }

  /** With no node free the slots are left alone: the loop goes from the test to the last dequeue. */
  lemma FullPoolTakesNothing(run: seq<State>, n: nat)
    requires Run(run) && n + 1 < |run| && run[n].loop.TestFree? && !run[n + 1].loop.TestFree?
    ensures run[n + 1].loop == if run[n].lists.qfree == None then Dequeue(false) else Scan(0)
    ensures run[n + 1].slots == run[n].slots && run[n + 1].queueCounter == run[n].queueCounter
  {
    assert NextAt(run, n);
    var s, s' := run[n], run[n + 1];
    if t :| ClientStep(s, s', t) {
      assert false;
    }
  }

  // ----- the pass over the slots -----

  predicate InPass(loop: LoopPc) {
    loop.Scan? || loop.DecQueue? || loop.Take? || loop.ClearPid? || loop.ClearTid? || loop == Dequeue(false)
  }

  /** The slots before this one have had their turn. */
  function Reached(loop: LoopPc): nat {
    match loop
    case Scan(i) => if i < 4 then i else 4
    case DecQueue(i) => i
    case Take(i) => i
    case ClearPid(i) => i + 1
    case ClearTid(i) => i + 1
    case _ => 4
  }

  /** In this step the loop passes slot `k`, which is not published, or takes the request in it. */
  predicate TurnOf(s: State, s': State, k: nat) {
    || (s.loop == Scan(k) && s'.loop != Scan(k) && k < |s.slots| && s.slots[k].pid == 0)
    || (s.loop == Take(k) && s'.loop != Take(k))
  }

  lemma OneTurn(s: State, s': State, k: nat)
    requires LoopStep(s, s') && InPass(s.loop) && InPass(s'.loop) && |s.slots| == SLOT_COUNT
    ensures Reached(s.loop) <= k < Reached(s'.loop) ==> TurnOf(s, s', k)
  {
  }

  lemma OthersTakeNoTurn(s: State, s': State)
    requires Next(s, s') && !LoopStep(s, s')
    ensures s'.loop == s.loop
  {
    if t :| ClientStep(s, s', t) {
    }
  }

  predicate TurnAt(run: seq<State>, i: nat, k: nat) {
    i + 1 < |run| && TurnOf(run[i], run[i + 1], k)
  }

  lemma NewTurn(run: seq<State>, n: nat, k: nat)
    requires Run(run) && n + 1 < |run| && InPass(run[n].loop) && InPass(run[n + 1].loop)
    requires Reached(run[n].loop) <= k < Reached(run[n + 1].loop)
    ensures TurnAt(run, n, k)
  {
    assert NextAt(run, n);
    AbortRuns.FourSlots(run, n);
    if LoopStep(run[n], run[n + 1]) {
      OneTurn(run[n], run[n + 1], k);
    } else {
      OthersTakeNoTurn(run[n], run[n + 1]);
    }
  }

  predicate HadTurn(run: seq<State>, m: nat, n: nat, k: nat) {
    exists i :: m <= i < n && TurnAt(run, i, k)
  }

  lemma {:induction false} TurnsSoFar(run: seq<State>, m: nat, n: nat, k: nat)
    requires Run(run) && m <= n < |run| && run[m].loop == Scan(0) && forall i :: m <= i <= n ==> InPass(run[i].loop)
    ensures k < Reached(run[n].loop) ==> HadTurn(run, m, n, k)
    decreases n - m
  {
    if m < n {
      TurnsSoFar(run, m, n - 1, k);
      if Reached(run[n - 1].loop) <= k < Reached(run[n].loop) {
        NewTurn(run, n - 1, k);
        assert TurnAt(run, n - 1, k);
      } else if k < Reached(run[n].loop) {
        var i :| m <= i < n - 1 && TurnAt(run, i, k);
      }
    }
  }

  /**
   A pass that has come to the last dequeue has had a turn for each of the four
   slots, and taken the request of each one that was published then.
   */
  lemma PassVisitsEverySlot(run: seq<State>, m: nat, n: nat, k: nat)
    requires Run(run) && m <= n < |run| && run[m].loop == Scan(0) && run[n].loop == Dequeue(false) && k < 4
    requires forall i :: m <= i <= n ==> InPass(run[i].loop)
    ensures exists i :: m <= i < n && TurnAt(run, i, k)
  {
    TurnsSoFar(run, m, n, k);
  }
}
