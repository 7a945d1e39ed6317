/**
 A counted cancellation is served: within a bounded number of steps of the loop
 thread, whatever the other threads do, unless an abort stops the loop first.
 */
module CancelProgress {
  import opened Protocol
  import Invariant
  import AbortRuns

  /** Serving, or about to. */
  predicate InService(loop: LoopPc) {
    loop.DecCancel? || loop.Serve? || loop.Wake? || loop.ResetCancel? || loop.Unlock?
  }

  /** A cancellation is counted or being served, or the loop has been stopped. */
  predicate Awaited(s: State) {
    (s.cancel.counter >= 1 || InService(s.loop) || AbortRuns.Stopped(s.loop)) && |s.slots| == SLOT_COUNT
  }

  function FromSlot(i: nat): int {
    if i < 4 then 16 + 5 * (4 - i) else 16
  }

  /** A bound on the steps of the loop up to the release of the lock. */
  function ToRelease(loop: LoopPc): int {
    match loop
    case Shutdown => 0
    case LoopDone => 0
    case DecAbort => 1
    case Unlock => 1
    case ResetCancel => 2
    case Wake => 3
    case Serve => 4
    case DecCancel => 5
    case PollCancel => 6
    case PollAbort => 7
    case LoopWait => 8
    case TestCancel => 9
    case TestData => 10
    case TestQueue => 11
    case ResetQueue => 12
    case SetIo(ack) => if ack then 41 else 13
    case IncIo(ack) => if ack then 42 else 14
    case Dequeue(ack) => if ack then 43 else 15
    case Scan(i) => FromSlot(i)
    case DecQueue(i) => FromSlot(i) - 1
    case Take(i) => FromSlot(i) - 2
    case ClearPid(i) => FromSlot(i) - 3
    case ClearTid(i) => FromSlot(i) - 4
    case TestFree => 37
    case PollQueue => 38
    case SetComplete => 39
    case ResetIo => 40
    case DecIo => 44
    case DecData => 45
    case PollData => 46
  }

  /** The loop releases the lock of a cancellation in this step. */
  predicate Releases(s: State, s': State) {
    s.loop.Unlock? && !s'.loop.Unlock?
  }

  predicate Closer(s: State, s': State) {
    ToRelease(s'.loop) + (if s'.loop != s.loop then 1 else 0) <= ToRelease(s.loop)
  }

  lemma AwaitedWait(s: State, s': State)
    requires Awaited(s) && !AbortRuns.Stopped(s.loop) && (LoopWaitStep(s, s') || LoopCancelStep(s, s'))
    ensures Releases(s, s') || (Awaited(s') && Closer(s, s'))
  {
  }

  lemma AwaitedBranch(s: State, s': State)
    requires Awaited(s) && !AbortRuns.Stopped(s.loop) && (LoopAckStep(s, s') || LoopDequeueStep(s, s'))
    ensures Awaited(s') && Closer(s, s')
  {
  }

  lemma AwaitedQueue(s: State, s': State)
    requires Awaited(s) && !AbortRuns.Stopped(s.loop) && LoopQueueStep(s, s')
    ensures Awaited(s') && Closer(s, s')
  {
  }

  lemma AwaitedLoop(s: State, s': State)
    requires Awaited(s) && !AbortRuns.Stopped(s.loop) && LoopStep(s, s')
    ensures Releases(s, s') || (Awaited(s') && Closer(s, s'))
  {
    if LoopWaitStep(s, s') || LoopCancelStep(s, s') {
      AwaitedWait(s, s');
    } else if LoopQueueStep(s, s') {
      AwaitedQueue(s, s');
    } else {
      AwaitedBranch(s, s');
    }
  }

  lemma AwaitedClient(s: State, s': State, t: nat)
    requires Awaited(s) && ClientStep(s, s', t)
    ensures Awaited(s') && s'.loop == s.loop
  {
  }

  lemma AwaitedIo(s: State, s': State)
    requires Awaited(s) && IoStep(s, s')
    ensures Awaited(s') && s'.loop == s.loop
  {
  }

  lemma AwaitedAt(run: seq<State>, n: nat)
    requires Run(run) && n + 1 < |run| && Awaited(run[n]) && !AbortRuns.Stopped(run[n].loop)
    ensures Releases(run[n], run[n + 1]) || (Awaited(run[n + 1]) && Closer(run[n], run[n + 1]))
  {
    assert NextAt(run, n);
    if LoopStep(run[n], run[n + 1]) {
      AwaitedLoop(run[n], run[n + 1]);
    } else if IoStep(run[n], run[n + 1]) {
      AwaitedIo(run[n], run[n + 1]);
    } else {
      var t :| ClientStep(run[n], run[n + 1], t);
      AwaitedClient(run[n], run[n + 1], t);
    }
  }

  ghost predicate ReleasedAt(run: seq<State>, i: nat) {
    i + 1 < |run| && Releases(run[i], run[i + 1])
  }

  /** The lock has been released between these two states. */
  ghost predicate ReleasedBetween(run: seq<State>, m: nat, n: nat) {
    exists i :: m <= i < n && ReleasedAt(run, i)
  }

  lemma {:induction false} AwaitedAlong(run: seq<State>, m: nat, n: nat)
    requires Run(run) && m <= n < |run| && Awaited(run[m])
    ensures || ReleasedBetween(run, m, n) || AbortRuns.Stopped(run[n].loop)
            || (Awaited(run[n])
                && AbortRuns.LoopMoves(run, m, n) + ToRelease(run[n].loop) <= ToRelease(run[m].loop))
    decreases n - m
  {
    if m < n {
      AwaitedAlong(run, m, n - 1);
      if i :| m <= i < n - 1 && ReleasedAt(run, i) {
      } else if AbortRuns.Stopped(run[n - 1].loop) {
        AbortRuns.StoppedAt(run, n - 1);
      } else {
        AwaitedAt(run, n - 1);
        assert Releases(run[n - 1], run[n]) ==> ReleasedAt(run, n - 1);
      }
    }
  }

  lemma CountedIsAwaited(run: seq<State>, m: nat)
    requires Run(run) && m < |run| && run[m].cancel.counter != 0
    ensures Awaited(run[m])
  {
    Invariant.InvRun(run, m);
  }

  /**
   Once a cancellation is counted, the loop has served it and released its lock
   after at most 46 of its own steps, unless an abort has stopped it by then; and
   when the event of the cancellation is signalled the loop does not stay in its wait.
   */
  lemma ServedWithin(run: seq<State>, m: nat, n: nat)
    requires Run(run) && m <= n < |run| && run[m].cancel.counter != 0
    ensures AbortRuns.LoopMoves(run, m, n) >= 46 ==>
              || run[n].loop.Shutdown? || run[n].loop.LoopDone?
              || exists i :: m <= i < n && ReleasedAt(run, i)
    ensures run[n].loop.LoopWait? && run[n].cancel.signalled ==> exists s' :: LoopStep(run[n], s') && s'.loop.PollAbort?
  {
    CountedIsAwaited(run, m);
    AwaitedAlong(run, m, n);
    if run[n].loop.LoopWait? && run[n].cancel.signalled {
      assert LoopWaitStep(run[n], run[n].(loop := PollAbort));
    }
  }
}
