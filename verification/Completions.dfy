/**
 Conservation of requests by identity: while nothing is taken from a slot or
 dispatched with a packet in flight, the calls and the completions are those of
 the dispatched requests, in order, each with its own result. One outstanding
 request at a time is enough, whichever clients submit.
 */
module Completions {
  import opened Protocol
  import opened PoolRefinement
  import opened PoolRuns
  import Counters
  import Invariant
  import EndToEnd
  import InFlight
  import RequestTally

  /** Step `i` disturbs no packet in flight. */
  predicate Steady(run: seq<State>, i: nat) {
    i + 1 < |run| && (run[i].packet.Some? ==> !Takes(run[i], run[i + 1]) && !Dispatches(run[i], run[i + 1]))
  }

  /** Who is credited: each dispatched request, once, in order. */
  predicate Identified(s: State, dispatched: seq<Job>) {
    && |dispatched| == |s.log.completions| + Counters.Bit(s.packet.Some?)
    && (forall k :: 0 <= k < |s.log.completions| ==> s.log.completions[k].aiocb == dispatched[k].aiocb)
    && (EndToEnd.Announced(s.io) ==> s.packet.Some? && s.io.aiocb == InFlight.LastOf(dispatched).aiocb)
  }

  predicate SameBuffer(c: Call, j: Job) {
    c.data == j.buf && c.size == j.nbytes && c.offset == j.offset
  }

  /** What was called, and where its result is. */
  predicate Called(s: State, dispatched: seq<Job>) {
    var d, c, r := |s.log.completions|, |s.log.calls|, |s.log.results|;
    && d <= r <= c <= |dispatched| && c <= d + 1
    && (forall k :: 0 <= k < c ==> SameBuffer(s.log.calls[k], dispatched[k]))
    && (forall k :: 0 <= k < d ==> s.log.completions[k].iosb == s.log.results[k])
    && (!s.io.IoDone? ==>
          && c == d + Counters.Bit(s.io.InCall? || EndToEnd.Returned(s.io))
          && r == d + Counters.Bit(EndToEnd.Returned(s.io)))
    && (s.io.InCall? ==> s.packet == Some(s.io.node))
    && (s.io.AfterAbort? || s.io.After? || s.io.CopyIosb? ==>
          && s.packet.Some? && s.packet.value < |s.lists.nodes|
          && s.lists.nodes[s.packet.value].packet.iosb == s.log.results[r - 1])
    && (s.io.ClearPacket? ==> s.io.iosb == s.log.results[r - 1])
  }

  /** The node of the packet carries the last dispatched job. */
  predicate OwnNode(s: State, dispatched: seq<Job>) {
    s.packet.Some? ==>
      s.packet.value < |s.lists.nodes|
      && Carries(s.lists.nodes[s.packet.value], InFlight.LastOf(dispatched))
  }

  // ----- steps -----

  lemma IdentifiedIo(s: State, s': State, d: seq<Job>)
    requires Counters.Conserved(s) && OwnNode(s, d) && Identified(s, d) && IoStep(s, s')
    ensures Identified(s', d)
  {
  }

  lemma CalledBegin(s: State, s': State, d: seq<Job>)
    requires OwnNode(s, d) && Identified(s, d) && Called(s, d) && IoBeginStep(s, s')
    ensures Called(s', d)
  {
  }

  lemma CalledCall(s: State, s': State, d: seq<Job>)
    requires Counters.Conserved(s) && Identified(s, d) && Called(s, d) && IoCallStep(s, s') && !s'.evAbort
    ensures Called(s', d)
  {
  }

  lemma CalledHook(s: State, s': State, d: seq<Job>)
    requires Counters.Conserved(s) && Identified(s, d) && Called(s, d) && IoHookStep(s, s')
    ensures Called(s', d)
  {
  }

  lemma CalledComplete(s: State, s': State, d: seq<Job>)
    requires Called(s, d) && IoCompleteStep(s, s')
    ensures Called(s', d)
  {
  }

  lemma CalledIo(s: State, s': State, d: seq<Job>)
    requires Counters.Conserved(s) && OwnNode(s, d) && Identified(s, d) && Called(s, d)
    requires IoStep(s, s') && !s'.evAbort
    ensures Called(s', d)
  {
    if IoBeginStep(s, s') {
      CalledBegin(s, s', d);
    } else if IoCallStep(s, s') {
      CalledCall(s, s', d);
    } else if IoHookStep(s, s') {
      CalledHook(s, s', d);
    } else {
      CalledComplete(s, s', d);
    }
  }

  /** The other threads move: nothing of the running request changes. */
  lemma StillSame(s: State, s': State, d: seq<Job>)
    requires Identified(s, d) && s'.io == s.io && s'.packet == s.packet
    requires s'.log.completions == s.log.completions && s'.log.calls == s.log.calls && s'.log.results == s.log.results
    ensures Identified(s', d)
    ensures Called(s, d) && s'.lists == s.lists ==> Called(s', d)
  {
  }

  /** The loop takes or dispatches while no packet is in flight. */
  lemma WithoutPacket(s: State, s': State, d: seq<Job>, d': seq<Job>)
    requires Counters.Conserved(s) && s.packet.None? && Identified(s, d)
    requires s'.io == s.io && s'.log == s.log
    requires d' == d + (if s'.packet.Some? then [InFlight.LastOf(d')] else [])
    ensures Identified(s', d')
    ensures Called(s, d) ==> Called(s', d')
  {
  }

  // ----- every run -----

  ghost predicate Ident(run: seq<State>, n: nat)
    requires n < |run|
  {
    && Identified(run[n], DispatchedBy(run, n))
    && (run[n].evAbort || Called(run[n], DispatchedBy(run, n)))
    && (run[n].packet.Some? ==> InFlight.TakesSince(run, n) == 0)
  }

  lemma LoopLists(s: State, s': State)
    requires LoopStep(s, s') && (s.loop.Serve? ==> s'.lists == s.lists)
    ensures s'.io == s.io && s'.log == s.log && s'.evAbort == s.evAbort
    ensures !Dispatches(s, s') ==> s'.packet == s.packet
    ensures Dispatches(s, s') ==> s'.packet.Some?
    ensures !Takes(s, s') && !Dispatches(s, s') ==> s'.lists == s.lists
  {
  }

  lemma IdentLoop(run: seq<State>, n: nat)
    requires n + 1 < |run| && LoopStep(run[n], run[n + 1]) && NothingRemoved(run, n) && Steady(run, n)
    requires Matches(run, n) && Counters.Conserved(run[n]) && Ident(run, n)
    ensures Ident(run, n + 1)
  {
    var s, s', d, d' := run[n], run[n + 1], DispatchedBy(run, n), DispatchedBy(run, n + 1);
    LoopLists(s, s');
    if Takes(s, s') || Dispatches(s, s') {
      if Dispatches(s, s') {
        DispatchStep(s, s');
      }
      WithoutPacket(s, s', d, d');
    } else {
      assert d' == d;
      StillSame(s, s', d);
    }
  }

  lemma IdentIo(run: seq<State>, n: nat)
    requires n + 1 < |run| && IoStep(run[n], run[n + 1])
    requires InFlight.PlacedAt(run, n) && Counters.Conserved(run[n]) && Ident(run, n)
    ensures Ident(run, n + 1)
  {
    var s, s', d := run[n], run[n + 1], DispatchedBy(run, n);
    assert DispatchedBy(run, n + 1) == d;
    IdentifiedIo(s, s', d);
    if !s'.evAbort {
      CalledIo(s, s', d);
    }
  }

  lemma IdentClient(run: seq<State>, n: nat, t: nat)
    requires n + 1 < |run| && ClientStep(run[n], run[n + 1], t) && Ident(run, n)
    ensures Ident(run, n + 1)
  {
    var s, s', d := run[n], run[n + 1], DispatchedBy(run, n);
    assert DispatchedBy(run, n + 1) == d;
    StillSame(s, s', d);
  }

  lemma IdentNext(run: seq<State>, n: nat)
    requires Run(run) && n + 1 < |run| && (forall i :: 0 <= i <= n ==> NothingRemoved(run, i)) && Steady(run, n)
    requires Ident(run, n)
    ensures Ident(run, n + 1)
  {
    assert NothingRemoved(run, n);
    Invariant.InvRun(run, n);
    PoolRefined(run, n);
    InFlight.PlacedAlong(run, n);
    assert NextAt(run, n);
    if LoopStep(run[n], run[n + 1]) {
      IdentLoop(run, n);
    } else if IoStep(run[n], run[n + 1]) {
      IdentIo(run, n);
    } else {
      var t :| ClientStep(run[n], run[n + 1], t);
      IdentClient(run, n, t);
    }
  }

  lemma IdentInit(run: seq<State>)
    requires Run(run)
    ensures Ident(run, 0)
  {
  }

  lemma {:induction false} IdentAlong(run: seq<State>, n: nat)
    requires Run(run) && n < |run| && forall i :: 0 <= i < n ==> NothingRemoved(run, i) && Steady(run, i)
    ensures Ident(run, n)
  {
    if n == 0 {
      IdentInit(run);
    } else {
      IdentAlong(run, n - 1);
      IdentNext(run, n - 1);
    }
  }

  /**
   While no packet in flight is disturbed: the k-th completion goes to the
   aiocb of the k-th dispatched request, which is the k-th taken from the slots;
   and unless an abort is signalled, the k-th call has the buffer, size and
   offset of the k-th dispatched request and its result is the one reported.
   All dispatched requests but the running one are complete.
   */
  lemma CompletedAsDispatched(run: seq<State>, n: nat)
    requires Run(run) && n < |run| && forall i :: 0 <= i < n ==> NothingRemoved(run, i) && Steady(run, i)
    ensures Ident(run, n)
    ensures DispatchedBy(run, n) <= TakenBy(run, n)
  {
    IdentAlong(run, n);
    FirstInFirstOut(run, n);
  }

  /** One outstanding request at a time disturbs no packet, and so completes every request as its own. */
  lemma OneAtATimeIsOwn(run: seq<State>, n: nat)
    requires Run(run) && n < |run|
    requires forall i :: 0 <= i < n ==> NothingRemoved(run, i) && RequestTally.OneOutstanding(run, i)
    ensures Ident(run, n)
    ensures DispatchedBy(run, n) <= TakenBy(run, n)
  {
    forall i | 0 <= i < n ensures NothingRemoved(run, i) && Steady(run, i) {
      assert NothingRemoved(run, i) && RequestTally.OneOutstanding(run, i);
      if run[i].packet.Some? && (Takes(run[i], run[i + 1]) || Dispatches(run[i], run[i + 1])) {
        RequestTally.DisturbingNeedsTwo(run, i);
      }
    }
    CompletedAsDispatched(run, n);
  }
}
