/**
 One request at a time: how many steps the library takes from the publication of
 a request to its completion.
 */
module BoundedProgress {
  import opened Protocol
  import Counters
  import EndToEnd

  // ----- the counter of published requests -----

  /** The loop has seen a counted request and not yet reached it. */
  predicate HasSeen(loop: LoopPc) {
    loop.TestFree? || loop == Scan(0) || loop.DecQueue?
  }

  /** With one request at a time the counter is never negative, and only slot 0 is consumed. */
  predicate Counted(s: State) {
    && s.queueCounter >= 0 && !s.cancel.signalled
    && (HasSeen(s.loop) ==> s.queueCounter >= 1)
    && (s.loop.DecQueue? || s.loop.Take? || s.loop.ClearPid? ==> s.loop.i == 0)
  }

  lemma PublishedFirst(slots: seq<Slot>)
    requires |slots| == SLOT_COUNT && forall i :: 1 <= i < |slots| ==> slots[i].pid == 0
    ensures Counters.PublishedSlots(slots) == Counters.Bit(slots[0].pid != 0)
  {
    Counters.PublishedIff(slots[1..]);
  }

  lemma CountedQueue(s: State, s': State)
    requires EndToEnd.OneSlot(s) && Counters.Accounted(s) && Counted(s) && LoopQueueStep(s, s')
    ensures Counted(s')
  {
    PublishedFirst(s.slots);
  }

  lemma CountedLoop(s: State, s': State)
    requires EndToEnd.OneSlot(s) && Counters.Accounted(s) && Counted(s) && LoopStep(s, s')
    ensures Counted(s')
  {
    if LoopQueueStep(s, s') {
      CountedQueue(s, s');
    }
  }

  lemma CountedNext(s: State, s': State)
    requires EndToEnd.OneSlot(s) && Counters.Accounted(s) && Counted(s) && EndToEnd.NextOne(s, s')
    ensures Counted(s')
  {
    if LoopStep(s, s') {
      CountedLoop(s, s');
    } else if IoStep(s, s') {
    } else {
      var t :| SubmitStep(s, s', t) || (EndToEnd.Quiet(s) && EnterSubmit(s, s', t));
    }
  }

  lemma CountedAt(run: seq<State>, n: nat)
    requires EndToEnd.RunOne(run) && n + 1 < |run| && Counted(run[n])
    ensures Counted(run[n + 1])
  {
    EndToEnd.OneRun(run, n);
    assert EndToEnd.NextOneAt(run, n);
    CountedNext(run[n], run[n + 1]);
  }

  lemma {:induction false} CountedRun(run: seq<State>, n: nat)
    requires EndToEnd.RunOne(run) && n < |run|
    ensures Counted(run[n])
  {
    if n > 0 {
      CountedRun(run, n - 1);
      CountedAt(run, n - 1);
    }
  }

  // ----- the bound -----

  /** What is left of the pass of the I/O thread, up to the clearing of the packet. */
  function IoLeft(io: IoPc): int {
    match io
    case ClearPacket(_, _) => 1
    case CopyIosb(_) => 2
    case After => 3
    case AfterAbort => 4
    case InCall(_, _) => 5
    case CheckPacket => 6
    case Before => 7
    case IoAbort => 8
    case IoWait => 9
    case TestIo => 10
    case ResetComplete => 11
    case CompleteAbort(_) => 12
    case AwaitComplete => 13
    // each of these two wakes the loop for one more iteration
    case SetQueue => 44
    case IncData => 75
    case IoDone => 0
  }

  /** What is left of the iteration of the loop, and of the tests after it. */
  function LoopLeft(loop: LoopPc): int {
    match loop
    case LoopWait => 1
    case TestCancel => 2
    case TestData => 3
    case TestQueue => 4
    case ResetQueue => 5
    case SetIo(ack) => if ack then 22 else 6
    case IncIo(ack) => if ack then 23 else 7
    case Dequeue(ack) => if ack then 24 else 8
    case Scan(i) => if i == 0 then 17 else if i < 4 then 13 - i else 9
    case ClearTid(_) => 13
    case ClearPid(_) => 14
    case Take(_) => 15
    case DecQueue(_) => 16
    case TestFree => 18
    case PollQueue => 19
    case SetComplete => 20
    case ResetIo => 21
    case DecIo => 25
    case DecData => 26
    case PollData => 27
    case PollCancel => 28
    case PollAbort => 29
    case _ => 0
  }

  predicate AtTop(loop: LoopPc) {
    loop.TestQueue? || loop.TestData? || loop.TestCancel? || loop.LoopWait?
  }

  predicate BeforeAck(loop: LoopPc) {
    loop.PollAbort? || loop.PollCancel? || loop.PollData? || loop.DecData?
  }

  predicate BeforeTake(loop: LoopPc) {
    || BeforeAck(loop) || loop.DecIo? || loop.ResetIo? || loop.SetComplete? || loop.PollQueue?
    || ((loop.Dequeue? || loop.IncIo? || loop.SetIo?) && loop.ack) || HasSeen(loop)
  }

  /** Something that this iteration still consumes. */
  predicate Begun(s: State) {
    && !AtTop(s.loop)
    && (|| s.evQueue
        || (BeforeTake(s.loop) && s.queueCounter >= 1)
        || (BeforeAck(s.loop) && s.dataCounter >= 1))
  }

  /** What makes the loop run an iteration: its event and the two counters. */
  function Tokens(s: State): int {
    Counters.Bit(s.evQueue) + s.queueCounter + s.dataCounter
  }

  /** A bound on the steps of the library up to the completion. */
  function Left(s: State): int {
    IoLeft(s.io) + LoopLeft(s.loop) + 30 * Tokens(s) - (if Begun(s) then 29 else 0)
  }

  /** A request is published and its packet not cleared. */
  predicate Outstanding(s: State) {
    |s.log.completions| < |s.log.submitted|
  }

  lemma LeftBetween(s: State)
    requires Counted(s) && Counters.Alternates(s) && s.queueCounter <= 1
    ensures 0 <= Left(s) <= 194
  {
  }

  lemma WaitLowers(s: State, s': State)
    requires EndToEnd.Calm(s) && Counted(s) && Counters.Alternates(s) && LoopWaitStep(s, s')
    ensures Left(s') < Left(s)
  {
  }

  lemma CancelLowers(s: State, s': State)
    requires EndToEnd.Calm(s) && Counted(s) && Counters.Alternates(s) && LoopCancelStep(s, s')
    ensures Left(s') < Left(s)
  {
  }

  lemma AckLowers(s: State, s': State)
    requires EndToEnd.Calm(s) && Counted(s) && Counters.Alternates(s) && LoopAckStep(s, s')
    ensures Left(s') < Left(s)
  {
  }

  lemma DequeueLowers(s: State, s': State)
    requires Counted(s) && Counters.Alternates(s) && LoopDequeueStep(s, s')
    ensures Left(s') < Left(s)
  {
  }

  /** A counted request is found in slot 0, and there is a node for it. */
  lemma Found(s: State)
    requires EndToEnd.Single(s) && Counters.Accounted(s) && Counted(s) && HasSeen(s.loop)
    ensures s.loop.TestFree? ==> s.lists.qfree.Some?
    ensures s.slots[0].pid != 0
  {
    PublishedFirst(s.slots);
  }

  lemma SeenLowers(s: State, s': State)
    requires Counted(s) && s.dataCounter >= 0 && LoopQueueStep(s, s') && HasSeen(s.loop)
    requires |s.slots| == SLOT_COUNT && s.slots[0].pid != 0 && (s.loop.TestFree? ==> s.lists.qfree.Some?)
    ensures Left(s') < Left(s)
  {
  }

  lemma QueueLowers(s: State, s': State)
    requires Counted(s) && s.dataCounter >= 0 && LoopQueueStep(s, s') && !HasSeen(s.loop)
    requires |s.slots| == SLOT_COUNT && forall i :: 1 <= i < |s.slots| ==> s.slots[i].pid == 0
    ensures Left(s') < Left(s)
  {
  }

  lemma LoopLowers(s: State, s': State)
    requires EndToEnd.Single(s) && Counters.Accounted(s) && Counted(s) && Counters.Alternates(s) && LoopStep(s, s')
    ensures Left(s') < Left(s)
  {
    if LoopQueueStep(s, s') {
      if HasSeen(s.loop) {
        Found(s);
        SeenLowers(s, s');
      } else {
        QueueLowers(s, s');
      }
    } else if LoopWaitStep(s, s') {
      WaitLowers(s, s');
    } else if LoopCancelStep(s, s') {
      CancelLowers(s, s');
    } else if LoopAckStep(s, s') {
      AckLowers(s, s');
    } else {
      DequeueLowers(s, s');
    }
  }

  lemma IoLowers(s: State, s': State)
    requires EndToEnd.Calm(s) && EndToEnd.Calm(s') && Counters.Alternates(s) && Counters.Conserved(s)
    requires Outstanding(s') && IoStep(s, s') && |s.log.submitted| <= |s.log.completions| + 1
    ensures Left(s') < Left(s)
  {
  }

  /** The queue counter or its event is changed, and not by the library. */
  predicate Wakes(s: State, s': State) {
    s'.loop == s.loop && s'.io == s.io && (s'.queueCounter != s.queueCounter || s'.evQueue != s.evQueue)
  }

  /** A client that counts or signals a request costs the loop at most one more iteration, the others nothing. */
  lemma ClientRaises(s: State, s': State, t: nat)
    requires SubmitStep(s, s', t)
    ensures Left(s') <= Left(s) + (if Wakes(s, s') then 30 else 0)
  {
  }

  /** What a run of one request at a time says of a state, as far as it is needed here. */
  ghost predicate Usual(s: State) {
    && EndToEnd.Single(s) && Counters.Accounted(s) && Counters.Alternates(s) && Counters.Conserved(s) && Counted(s)
  }

  lemma UsualRun(run: seq<State>, n: nat)
    requires EndToEnd.RunOne(run) && n < |run|
    ensures Usual(run[n])
  {
    EndToEnd.OneRun(run, n);
    CountedRun(run, n);
  }

  lemma CalmRun(run: seq<State>, n: nat)
    requires EndToEnd.RunOne(run) && n < |run|
    ensures EndToEnd.Calm(run[n])
  {
    EndToEnd.OneRun(run, n);
  }

  predicate LeftAfter(s: State, s': State) {
    Left(s') + (if s'.loop != s.loop || s'.io != s.io then 1 else 0) <= Left(s) + (if Wakes(s, s') then 30 else 0)
  }

  lemma ClientSteps(s: State, s': State, t: nat)
    requires SubmitStep(s, s', t) || EnterSubmit(s, s', t)
    ensures LeftAfter(s, s')
  {
    if SubmitStep(s, s', t) {
      ClientRaises(s, s', t);
    }
  }

  lemma LoopLowersAt(run: seq<State>, n: nat)
    requires EndToEnd.RunOne(run) && n + 1 < |run| && LoopStep(run[n], run[n + 1])
    ensures LeftAfter(run[n], run[n + 1])
  {
    UsualRun(run, n);
    LoopLowers(run[n], run[n + 1]);
  }

  lemma IoLowersAt(run: seq<State>, n: nat)
    requires EndToEnd.RunOne(run) && n + 1 < |run| && IoStep(run[n], run[n + 1]) && Outstanding(run[n + 1])
    ensures LeftAfter(run[n], run[n + 1])
  {
    UsualRun(run, n);
    CalmRun(run, n + 1);
    IoLowers(run[n], run[n + 1]);
  }

  lemma LeftStep(run: seq<State>, n: nat)
    requires EndToEnd.RunOne(run) && n + 1 < |run| && Outstanding(run[n]) && Outstanding(run[n + 1])
    ensures LeftAfter(run[n], run[n + 1])
  {
    assert EndToEnd.NextOneAt(run, n);
    var s, s' := run[n], run[n + 1];
    if LoopStep(s, s') {
      LoopLowersAt(run, n);
    } else if IoStep(s, s') {
      IoLowersAt(run, n);
    } else {
      var t :| SubmitStep(s, s', t) || (EndToEnd.Quiet(s) && EnterSubmit(s, s', t));
      ClientSteps(s, s', t);
    }
  }

  /** The steps of the library between two states of a run: each of them moves its thread. */
  function LibrarySteps(run: seq<State>, m: nat, n: nat): nat
    requires m <= n < |run|
    decreases n - m
  {
    if m == n then 0
    else LibrarySteps(run, m, n - 1) + (if run[n].loop != run[n - 1].loop || run[n].io != run[n - 1].io then 1 else 0)
  }

  /** And the counts and signals of clients among the other steps. */
  function WakeUps(run: seq<State>, m: nat, n: nat): nat
    requires m <= n < |run|
    decreases n - m
  {
    if m == n then 0 else WakeUps(run, m, n - 1) + (if Wakes(run[n - 1], run[n]) then 1 else 0)
  }

  predicate OutstandingAt(run: seq<State>, i: nat) {
    i < |run| && Outstanding(run[i])
  }

  lemma {:induction false} LeftAlong(run: seq<State>, m: nat, n: nat)
    requires EndToEnd.RunOne(run) && m <= n < |run| && forall i :: m <= i <= n ==> OutstandingAt(run, i)
    ensures LibrarySteps(run, m, n) + Left(run[n]) <= Left(run[m]) + 30 * WakeUps(run, m, n)
    decreases n - m
  {
    if m < n {
      LeftAlong(run, m, n - 1);
      assert OutstandingAt(run, n - 1) && OutstandingAt(run, n);
      LeftStep(run, n - 1);
    }
  }

  lemma LeftInRun(run: seq<State>, n: nat)
    requires EndToEnd.RunOne(run) && n < |run|
    ensures 0 <= Left(run[n]) <= 194
  {
    UsualRun(run, n);
    PublishedFirst(run[n].slots);
    LeftBetween(run[n]);
  }

  /**
   A published request is complete after at most 194 steps of the two library
   threads, and 30 more for each time a client counts or signals meanwhile; that
   they always have a step, unless a client does, is `Progress.NoDeadlock`.
   */
  lemma CompletesWithin(run: seq<State>, m: nat, n: nat)
    requires EndToEnd.RunOne(run) && m <= n < |run| && forall i :: m <= i <= n ==> OutstandingAt(run, i)
    ensures LibrarySteps(run, m, n) <= 194 + 30 * WakeUps(run, m, n)
  {
    LeftAlong(run, m, n);
    LeftInRun(run, m);
    LeftInRun(run, n);
  }
}
