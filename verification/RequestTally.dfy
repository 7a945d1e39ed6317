/**
 How many requests are where, and why one outstanding request is never replaced.
 A request counts as complete when cx_after_io has cleared its packet, which is
 after a caller can see its status.
 */
module RequestTally {
  import opened Protocol
  import opened PoolRuns
  import Ownership
  import Counters
  import Invariant

  /** The published slots the loop has not taken yet. */
  function Waiting(s: State): int {
    Counters.PublishedSlots(s.slots) - Counters.Bit(s.loop.ClearPid?)
  }

  /** The requests submitted are as many as those in slots, queued, current, complete and replaced. */
  ghost predicate Tallied(run: seq<State>, n: nat)
    requires n < |run|
  {
    var s := run[n];
    |s.log.submitted|
      == Waiting(s) + |PoolAt(run, n).q| + Counters.Bit(s.packet.Some?) + |s.log.completions| + s.overwrites
  }

  lemma TallyClient(s: State, s': State, t: nat)
    requires Ownership.Inv(s) && ClientStep(s, s', t)
    ensures |s'.log.submitted| - |s.log.submitted| == Waiting(s') - Waiting(s)
    ensures s'.packet == s.packet && s'.overwrites == s.overwrites && s'.log.completions == s.log.completions
    ensures s'.loop == s.loop
  {
    Counters.PublishedByClient(s, s', t);
  }

  lemma TallyLoop(s: State, s': State)
    requires Ownership.Inv(s) && LoopStep(s, s')
    ensures Waiting(s') == Waiting(s) - Counters.Bit(Takes(s, s'))
    ensures s'.log == s.log
  {
    Counters.PublishedByLoop(s, s');
  }

  lemma TallyPacket(s: State, s': State)
    requires LoopStep(s, s')
    ensures Counters.Bit(s'.packet.Some?) + s'.overwrites
         == Counters.Bit(s.packet.Some?) + s.overwrites + Counters.Bit(Dispatches(s, s'))
  {
  }

  lemma TallyIo(s: State, s': State)
    requires IoStep(s, s') && Counters.Conserved(s)
    ensures Counters.Bit(s'.packet.Some?) + |s'.log.completions| == Counters.Bit(s.packet.Some?) + |s.log.completions|
    ensures s'.overwrites == s.overwrites && Waiting(s') == Waiting(s) && s'.log.submitted == s.log.submitted
    ensures s'.loop == s.loop
  {
  }

  /** A step changes the length of the queue by what it takes and dispatches. */
  lemma QueueLength(run: seq<State>, n: nat)
    requires n + 1 < |run| && Matches(run, n)
    requires Takes(run[n], run[n + 1]) ==> run[n].lists.qfree.Some? && run[n].loop.i < |run[n].slots|
    requires Dispatches(run[n], run[n + 1]) ==> run[n].lists.queue.Some?
    ensures |PoolAt(run, n + 1).q|
         == |PoolAt(run, n).q| + Counters.Bit(Takes(run[n], run[n + 1])) - Counters.Bit(Dispatches(run[n], run[n + 1]))
  {
  }

  lemma TalliedAt(run: seq<State>, n: nat)
    requires Run(run) && n + 1 < |run| && Matches(run, n) && Tallied(run, n)
    ensures Tallied(run, n + 1)
  {
    Invariant.InvRun(run, n);
    assert NextAt(run, n);
    if Takes(run[n], run[n + 1]) {
      TakeStep(run[n], run[n + 1]);
    } else if Dispatches(run[n], run[n + 1]) {
      DispatchStep(run[n], run[n + 1]);
    }
    QueueLength(run, n);
    if LoopStep(run[n], run[n + 1]) {
      TallyLoop(run[n], run[n + 1]);
      TallyPacket(run[n], run[n + 1]);
    } else if IoStep(run[n], run[n + 1]) {
      TallyIo(run[n], run[n + 1]);
    } else {
      var t :| ClientStep(run[n], run[n + 1], t);
      TallyClient(run[n], run[n + 1], t);
    }
  }

  lemma TalliedInit(run: seq<State>)
    requires Run(run)
    ensures Tallied(run, 0)
  {
    Counters.PublishedIff(run[0].slots);
  }

  /**
   Conservation of requests as a count, for any clients: none is invented, and
   as many as were submitted are in slots, queued, current, complete or had
   their packet replaced. Which ones they are is another matter.
   */
  lemma {:induction false} RequestConservation(run: seq<State>, n: nat)
    requires Run(run) && n < |run| && forall i :: 0 <= i < n ==> NothingRemoved(run, i)
    ensures Tallied(run, n)
  {
    if n == 0 {
      TalliedInit(run);
    } else {
      RequestConservation(run, n - 1);
      PoolRefined(run, n - 1);
      TalliedAt(run, n - 1);
    }
  }

  // ----- which requests they are, up to the slots -----

  /** How often `j` occurs. */
  function Count(jobs: seq<Job>, j: Job): nat {
    if jobs == [] then 0 else Count(jobs[..|jobs| - 1], j) + (if jobs[|jobs| - 1] == j then 1 else 0)
  }

  lemma CountAppend(jobs: seq<Job>, x: Job, j: Job)
    ensures Count(jobs + [x], j) == Count(jobs, j) + (if x == j then 1 else 0)
  {
    assert (jobs + [x])[..|jobs|] == jobs;
  }

  function OfSlot(x: Slot, j: Job): nat {
    if x.pid != 0 && x.owned == j then 1 else 0
  }

  /** How often `j` is in a published slot. */
  function InSlots(slots: seq<Slot>, j: Job): nat {
    if slots == [] then 0 else OfSlot(slots[0], j) + InSlots(slots[1..], j)
  }

  /** The request the loop has taken and not yet unpublished. */
  function InHand(slots: seq<Slot>, loop: LoopPc, j: Job): nat {
    if loop.ClearPid? && loop.i < |slots| then OfSlot(slots[loop.i], j) else 0
  }

  lemma {:induction false} SlotReplaced(slots: seq<Slot>, i: nat, x: Slot, j: Job)
    requires i < |slots|
    ensures InSlots(slots[i := x], j) + OfSlot(slots[i], j) == InSlots(slots, j) + OfSlot(x, j)
  {
    if i == 0 {
      assert slots[i := x][1..] == slots[1..];
    } else {
      SlotReplaced(slots[1..], i - 1, x, j);
      assert slots[i := x][1..] == slots[1..][i - 1 := x];
    }
  }

  /** Only a publication adds a request, the one its client submits. */
  lemma SubmittedInSlots(s: State, s': State, t: nat, j: Job)
    requires Ownership.Inv(s) && SubmitStep(s, s', t)
    ensures InSlots(s'.slots, j) - InSlots(s.slots, j) == Count(s'.log.submitted, j) - Count(s.log.submitted, j)
    ensures InHand(s'.slots, s'.loop, j) == InHand(s.slots, s.loop, j)
  {
    var c := s.clients[t];
    assert Ownership.ClientOwns(s.slots, s.loop, t, c);
    if (c.pc.Reserve? || Ownership.Writing(c.pc)) && c.pc.i < |s.slots| {
      assert Ownership.SlotOwned(s.slots[c.pc.i], s.clients, s.loop, c.pc.i);
      SlotReplaced(s.slots, c.pc.i, s'.slots[c.pc.i], j);
    }
    if c.pc.Publish? {
      CountAppend(s.log.submitted, c.job, j);
    }
  }

  /** Only unpublishing removes one, the one in hand. */
  lemma QueuedFromSlots(s: State, s': State, j: Job)
    requires Ownership.Inv(s) && LoopQueueStep(s, s')
    ensures InSlots(s'.slots, j) + InHand(s.slots, s.loop, j) == InSlots(s.slots, j)
    ensures s.loop.Take? ==> s.loop.i < |s.slots|
    ensures InHand(s'.slots, s'.loop, j) == if s.loop.Take? && s.slots[s.loop.i].owned == j then 1 else 0
  {
    if s.loop.ClearPid? || s.loop.ClearTid? {
      SlotReplaced(s.slots, s.loop.i, s'.slots[s.loop.i], j);
    }
  }

  /** `j` was submitted as often as it was taken or is in a slot; the one in hand is both for a moment. */
  predicate Traced(run: seq<State>, n: nat, j: Job)
    requires n < |run|
  {
    Count(run[n].log.submitted, j) + InHand(run[n].slots, run[n].loop, j)
      == Count(TakenBy(run, n), j) + InSlots(run[n].slots, j)
  }

  lemma TracedQueue(run: seq<State>, n: nat, j: Job)
    requires n + 1 < |run| && Ownership.Inv(run[n]) && Traced(run, n, j) && LoopQueueStep(run[n], run[n + 1])
    ensures Traced(run, n + 1, j)
  {
    var s := run[n];
    QueuedFromSlots(s, run[n + 1], j);
    if s.loop.Take? {
      CountAppend(TakenBy(run, n), s.slots[s.loop.i].owned, j);
    } else {
      assert TakenBy(run, n + 1) == TakenBy(run, n);
    }
  }

  lemma TracedSubmit(run: seq<State>, n: nat, t: nat, j: Job)
    requires n + 1 < |run| && Ownership.Inv(run[n]) && Traced(run, n, j) && SubmitStep(run[n], run[n + 1], t)
    ensures Traced(run, n + 1, j)
  {
    SubmittedInSlots(run[n], run[n + 1], t, j);
    assert TakenBy(run, n + 1) == TakenBy(run, n);
  }

  lemma TracedElsewhere(run: seq<State>, n: nat, j: Job)
    requires n + 1 < |run| && Traced(run, n, j)
    requires run[n + 1].slots == run[n].slots && run[n + 1].log.submitted == run[n].log.submitted
    requires (!run[n].loop.ClearPid? && !run[n + 1].loop.ClearPid?) || run[n + 1].loop == run[n].loop
    ensures Traced(run, n + 1, j)
  {
    assert TakenBy(run, n + 1) == TakenBy(run, n);
  }

  lemma LoopElsewhere(s: State, s': State)
    requires LoopStep(s, s') && !LoopQueueStep(s, s')
    ensures s'.slots == s.slots && s'.log.submitted == s.log.submitted
    ensures !s.loop.ClearPid? && !s'.loop.ClearPid?
  {
  }

  lemma ClientElsewhere(s: State, s': State, t: nat)
    requires ClientStep(s, s', t) && !SubmitStep(s, s', t)
    ensures s'.slots == s.slots && s'.log.submitted == s.log.submitted && s'.loop == s.loop
  {
  }

  lemma TracedAt(run: seq<State>, n: nat, j: Job)
    requires Run(run) && n + 1 < |run| && Traced(run, n, j)
    ensures Traced(run, n + 1, j)
  {
    Invariant.InvRun(run, n);
    assert NextAt(run, n);
    var s, s' := run[n], run[n + 1];
    if LoopQueueStep(s, s') {
      TracedQueue(run, n, j);
    } else if LoopStep(s, s') {
      LoopElsewhere(s, s');
      TracedElsewhere(run, n, j);
    } else if IoStep(s, s') {
      TracedElsewhere(run, n, j);
    } else {
      var t :| ClientStep(s, s', t);
      if SubmitStep(s, s', t) {
        TracedSubmit(run, n, t, j);
      } else {
        ClientElsewhere(s, s', t);
        TracedElsewhere(run, n, j);
      }
    }
  }

  lemma {:induction false} NoneInSlots(slots: seq<Slot>, j: Job)
    requires forall i :: 0 <= i < |slots| ==> slots[i].pid == 0
    ensures InSlots(slots, j) == 0
  {
    if slots != [] {
      NoneInSlots(slots[1..], j);
    }
  }

  lemma TracedInit(run: seq<State>, j: Job)
    requires Run(run)
    ensures Traced(run, 0, j)
  {
    NoneInSlots(run[0].slots, j);
  }

  /**
   Conservation by identity, for any clients and any cancellations: each request
   was submitted exactly as often as it was taken by the loop or is still in a
   published slot.
   */
  lemma {:induction false} SubmittedIsTakenOrWaiting(run: seq<State>, n: nat, j: Job)
    requires Run(run) && n < |run|
    ensures Traced(run, n, j)
  {
    if n == 0 {
      TracedInit(run, j);
    } else {
      SubmittedIsTakenOrWaiting(run, n - 1, j);
      TracedAt(run, n - 1, j);
    }
  }

  // ----- outstanding requests -----

  /** Requests submitted whose packet has not been cleared for them. */
  function Outstanding(s: State): int {
    |s.log.submitted| - |s.log.completions|
  }

  /** At most one request is submitted and not complete. */
  predicate OneOutstanding(run: seq<State>, i: nat) {
    i < |run| && Outstanding(run[i]) <= 1
  }

  lemma WaitingIsNatural(run: seq<State>, n: nat)
    requires Run(run) && n < |run|
    ensures Waiting(run[n]) >= 0
    ensures run[n].loop.Take? ==> Waiting(run[n]) >= 1
  {
    Invariant.InvRun(run, n);
    Counters.PublishedIff(run[n].slots);
  }

  /** Taking or dispatching while a packet is in flight needs a second outstanding request. */
  lemma DisturbingNeedsTwo(run: seq<State>, n: nat)
    requires Run(run) && n + 1 < |run| && forall i :: 0 <= i < n ==> NothingRemoved(run, i)
    requires run[n].packet.Some? && (Takes(run[n], run[n + 1]) || Dispatches(run[n], run[n + 1]))
    ensures Outstanding(run[n]) >= 2
  {
    RequestConservation(run, n);
    PoolRefined(run, n);
    WaitingIsNatural(run, n);
    if Dispatches(run[n], run[n + 1]) {
      assert NextAt(run, n);
      DispatchStep(run[n], run[n + 1]);
    }
  }

  lemma ReplacingStep(s: State, s': State)
    requires Next(s, s') && s'.overwrites > s.overwrites
    ensures s.packet.Some? && Dispatches(s, s')
  {
  }

  /** A dispatch that replaces a packet happens only with two or more requests outstanding. */
  lemma ReplacementNeedsTwo(run: seq<State>, n: nat)
    requires Run(run) && n + 1 < |run| && forall i :: 0 <= i < n ==> NothingRemoved(run, i)
    requires run[n + 1].overwrites > run[n].overwrites
    ensures Outstanding(run[n]) >= 2
  {
    assert NextAt(run, n);
    ReplacingStep(run[n], run[n + 1]);
    DisturbingNeedsTwo(run, n);
  }

  /** No packet is ever replaced while at most one request is outstanding at a time. */
  lemma {:induction false} OneAtATimeIsSafe(run: seq<State>, n: nat)
    requires Run(run) && n < |run| && forall i :: 0 <= i < n ==> NothingRemoved(run, i) && OneOutstanding(run, i)
    ensures run[n].overwrites == 0
  {
    if n == 0 {
      assert Init(run[0]);
    } else {
      OneAtATimeIsSafe(run, n - 1);
      assert OneOutstanding(run, n - 1);
      if run[n].overwrites > 0 {
        ReplacementNeedsTwo(run, n - 1);
      }
    }
  }

  /**
   So the I/O thread finds no packet, other than on an abort, only after two
   requests were outstanding at once.
   */
  lemma EmptyPacketNeedsTwo(run: seq<State>, n: nat)
    requires Run(run) && n < |run| && forall i :: 0 <= i < n ==> NothingRemoved(run, i)
    requires (run[n].io.Before? || run[n].io.CheckPacket?) && run[n].packet.None? && !run[n].evAbort
    ensures exists i :: 0 <= i < n && Outstanding(run[i]) >= 2
  {
    Invariant.InvRun(run, n);
    if forall i :: 0 <= i < n ==> Outstanding(run[i]) < 2 {
      OneAtATimeIsSafe(run, n);
    }
  }
}
