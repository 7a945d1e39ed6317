/**
 Shutdown on the modern cancellation path: waio_free has counted and signalled
 the abort, the loop thread is in waio_thread_shutdown_request and waits for the
 I/O thread to end.
 */
module ThreadShutdown {
  import opened Protocol
  import Counters
  import Invariant

  predicate Stopping(s: State) {
    s.evAbort && (s.loop.Shutdown? || s.loop.LoopDone?) && Counters.Alternates(s)
  }

  /** An upper bound on the steps the I/O thread has left. */
  function Rank(io: IoPc, evComplete: bool): nat {
    match io
    case IoDone => 0
    case CompleteAbort(byAbort) => if byAbort then 1 else 16
    case AwaitComplete => if evComplete then 17 else 2
    case SetQueue => if evComplete then 18 else 3
    case IncData => 4
    case ClearPacket(_, _) => 5
    case CopyIosb(_) => 6
    case After => 7
    case AfterAbort => 8
    case InCall(_, _) => 9
    case CheckPacket => 10
    case Before => 11
    case IoAbort => 12
    case IoWait => 13
    case TestIo => 14
    case ResetComplete => 15
  }

  /** The system calls the I/O thread may still start. */
  function CallsLeft(s: State): nat {
    if Rank(s.io, s.evComplete) >= 10 then 1 else 0
  }

  /** What one step of a stopping run does to the two bounds. */
  predicate Bounded(s: State, s': State) {
    && Rank(s'.io, s'.evComplete) + (if s'.io != s.io then 1 else 0) <= Rank(s.io, s.evComplete)
    && |s'.log.calls| + CallsLeft(s') <= |s.log.calls| + CallsLeft(s)
  }

  lemma StopStepLoop(s: State, s': State)
    requires Stopping(s) && LoopStep(s, s')
    ensures Stopping(s') && Bounded(s, s')
  {
    Counters.AlternatesLoop(s, s');
  }

  lemma StopStepBegin(s: State, s': State)
    requires Counters.Alternates(s) && (IoBeginStep(s, s') || IoCallStep(s, s'))
    ensures Bounded(s, s')
  {
  }

  lemma StopStepEnd(s: State, s': State)
    requires Counters.Alternates(s) && (IoHookStep(s, s') || IoCompleteStep(s, s'))
    ensures Bounded(s, s')
  {
  }

  lemma StopStepIo(s: State, s': State)
    requires Stopping(s) && IoStep(s, s')
    ensures Stopping(s') && Bounded(s, s')
  {
    Counters.AlternatesIo(s, s');
    if IoBeginStep(s, s') || IoCallStep(s, s') {
      StopStepBegin(s, s');
    } else {
      StopStepEnd(s, s');
    }
  }

  lemma StopStepClient(s: State, s': State, t: nat)
    requires Stopping(s) && ClientStep(s, s', t)
    ensures Stopping(s') && Bounded(s, s')
  {
  }

  /** One step: the I/O thread comes closer to its end, the others do not hold it back. */
  lemma StopStep(s: State, s': State)
    requires Stopping(s) && Next(s, s')
    ensures Stopping(s') && Bounded(s, s')
  {
    if LoopStep(s, s') {
      StopStepLoop(s, s');
    } else if IoStep(s, s') {
      StopStepIo(s, s');
    } else {
      var t :| ClientStep(s, s', t);
      StopStepClient(s, s', t);
    }
  }

  predicate BoundedAt(run: seq<State>, k: nat) {
    k + 1 < |run| && Bounded(run[k], run[k + 1])
  }

  lemma StopStepOf(run: seq<State>, n: nat)
    requires Run(run) && n + 1 < |run| && Stopping(run[n])
    ensures Stopping(run[n + 1]) && BoundedAt(run, n)
  {
    assert NextAt(run, n);
    StopStep(run[n], run[n + 1]);
  }

  lemma {:induction false} StoppingStays(run: seq<State>, m: nat, n: nat)
    requires Run(run) && m <= n < |run|
    requires run[m].evAbort && (run[m].loop.Shutdown? || run[m].loop.LoopDone?)
    ensures Stopping(run[n])
    ensures forall k :: m <= k < n ==> BoundedAt(run, k)
    decreases n - m
  {
    if m == n {
      Invariant.InvRun(run, m);
    } else {
      StoppingStays(run, m, n - 1);
      StopStepOf(run, n - 1);
    }
  }

  /** The steps of the I/O thread between two states of a run. */
  function IoMoves(run: seq<State>, m: nat, n: nat): nat
    requires m <= n < |run|
    decreases n - m
  {
    if m == n then 0
    else IoMoves(run, m, n - 1) + (if run[n].io != run[n - 1].io then 1 else 0)
  }

  lemma {:induction false} Accumulate(run: seq<State>, m: nat, n: nat)
    requires m <= n < |run|
    requires forall k :: m <= k < n ==> BoundedAt(run, k)
    ensures |run[n].log.calls| + CallsLeft(run[n]) <= |run[m].log.calls| + CallsLeft(run[m])
    ensures IoMoves(run, m, n) + Rank(run[n].io, run[n].evComplete) <= Rank(run[m].io, run[m].evComplete)
    decreases n - m
  {
    if m < n {
      Accumulate(run, m, n - 1);
      assert BoundedAt(run, n - 1);
    }
  }

  /**
   From the moment the loop is shutting down with the abort event signalled,
   the I/O thread starts at most one more call and takes at most eighteen steps,
   even though the loop has already taken the abort off its counter.
   */
  lemma BoundedShutdown(run: seq<State>, m: nat, n: nat)
    requires Run(run) && m <= n < |run|
    requires run[m].evAbort && (run[m].loop.Shutdown? || run[m].loop.LoopDone?)
    ensures Stopping(run[n])
    ensures |run[n].log.calls| <= |run[m].log.calls| + 1
    ensures IoMoves(run, m, n) <= 18
    ensures IoMoves(run, m, n) == 18 ==> run[n].io.IoDone?
  {
    StoppingStays(run, m, n);
    Accumulate(run, m, n);
  }

  /**
   It is never stuck on the way: until it has ended it is in a system call or
   in a wait that the abort event satisfies, or it is not waiting at all; and
   when it has ended the loop's own wait is over.
   */
  lemma ShutdownNeverWaits(run: seq<State>, n: nat)
    requires Run(run) && n < |run| && Stopping(run[n])
    ensures run[n].io.IoWait? ==> exists s' :: IoBeginStep(run[n], s')
    ensures run[n].io.AwaitComplete? ==> exists s' :: IoCompleteStep(run[n], s')
    ensures run[n].io.IoDone? && run[n].loop.Shutdown? ==> exists s' :: LoopWaitStep(run[n], s')
    ensures run[n].io.IoDone? <==> Rank(run[n].io, run[n].evComplete) == 0
  {
    var s := run[n];
    if s.io.IoWait? {
      assert IoBeginStep(s, s.(io := IoAbort));
    }
    if s.io.AwaitComplete? {
      assert IoCompleteStep(s, s.(io := CompleteAbort(!s.evComplete)));
    }
    if s.io.IoDone? && s.loop.Shutdown? {
      assert LoopWaitStep(s, s.(loop := LoopDone, aio := CurrentCancelled(s)));
    }
  }

  /** The loop enters its shutdown only with the event signalled, or about to be. */
  lemma ShutdownIsSignalled(run: seq<State>, n: nat)
    requires Run(run) && n < |run| && (run[n].loop.Shutdown? || run[n].loop.LoopDone?)
    ensures run[n].evAbort || Counters.AborterActive(run[n].clients)
  {
    Invariant.InvRun(run, n);
  }
}
