/**
 The opcode of a call. cx_before_io reads it through the aiocb of the packet and
 the request pointer in it, so it is the request's own as long as no aiocb is
 submitted again while a request of it is queued or running.
 */
module OwnCalls {
  import opened Protocol
  import opened PoolRefinement
  import opened PoolRuns
  import CancelRuns
  import Counters
  import Invariant
  import InFlight
  import Completions

  /** A request of the aiocb is queued or running. */
  ghost predicate InUse(run: seq<State>, n: nat, a: nat)
    requires n < |run|
  {
    || (exists i :: 0 <= i < |PoolAt(run, n).jobs| && PoolAt(run, n).jobs[i].aiocb == a)
    || (run[n].packet.Some? && InFlight.LastOf(DispatchedBy(run, n)).aiocb == a)
  }

  /** The request pointer of `a` is written: to null by a submission, or by the loop that takes a request of it. */
  ghost predicate Rewrites(s: State, s': State, a: nat) {
    || CancelRuns.Clears(s, s', User(a))
    || (Takes(s, s') && s.loop.i < |s.slots| && s.slots[s.loop.i].data.aiocb == a)
  }

  /** Step `i` does so to no aiocb in use. */
  ghost predicate OneUse(run: seq<State>, i: nat) {
    i + 1 < |run| && forall a :: InUse(run, i, a) ==> !Rewrites(run[i], run[i + 1], a)
  }

  function RequestOf(s: State, a: nat): Option<nat> {
    GetAio(s.aio, a).request
  }

  lemma RequestBySubmit(s: State, s': State, t: nat, a: nat)
    requires SubmitStep(s, s', t) && !CancelRuns.Clears(s, s', User(a))
    ensures RequestOf(s', a) == RequestOf(s, a)
  {
    CancelRuns.ClearsIff(s, s', t, User(a));
  }

  lemma RequestByLoop(s: State, s': State, a: nat)
    requires LoopStep(s, s') && !Rewrites(s, s', a)
    requires s.loop.Serve? ==> RequestOf(s', a) == RequestOf(s, a)
    ensures RequestOf(s', a) == RequestOf(s, a)
  {
  }

  lemma RequestByIo(s: State, s': State, a: nat)
    requires IoStep(s, s')
    ensures RequestOf(s', a) == RequestOf(s, a)
  {
  }

  /** Nothing else writes it. */
  lemma RequestKept(s: State, s': State, a: nat)
    requires Next(s, s') && !Rewrites(s, s', a)
    requires s.loop.Serve? ==> RequestOf(s', a) == RequestOf(s, a)
    ensures RequestOf(s', a) == RequestOf(s, a)
  {
    if LoopStep(s, s') {
      RequestByLoop(s, s', a);
    } else if IoStep(s, s') {
      RequestByIo(s, s', a);
    } else {
      var t :| ClientStep(s, s', t);
      if SubmitStep(s, s', t) {
        RequestBySubmit(s, s', t, a);
      }
    }
  }

  // ----- each request in use is named by its own aiocb -----

  ghost predicate QueueLinked(s: State, v: JobPool) {
    |v.q| == |v.jobs| && forall i :: 0 <= i < |v.q| ==> RequestOf(s, v.jobs[i].aiocb) == Some(v.q[i])
  }

  predicate PacketLinked(s: State, dispatched: seq<Job>) {
    s.packet.Some? ==> RequestOf(s, InFlight.LastOf(dispatched).aiocb) == s.packet
  }

  ghost predicate Linked(run: seq<State>, n: nat)
    requires n < |run|
  {
    QueueLinked(run[n], PoolAt(run, n)) && PacketLinked(run[n], DispatchedBy(run, n))
  }

  lemma LinkedTakes(s: State, s': State)
    requires Next(s, s') && Takes(s, s')
    ensures s.loop.i < |s.slots| && RequestOf(s', s.slots[s.loop.i].data.aiocb) == s.lists.qfree
    ensures s'.packet == s.packet
  {
  }

  /** What is in use keeps its pointer. */
  lemma LinkedStays(run: seq<State>, n: nat)
    requires n + 1 < |run| && NothingRemoved(run, n) && OneUse(run, n) && NextAt(run, n) && Linked(run, n)
    ensures QueueLinked(run[n + 1], PoolAt(run, n))
    ensures run[n].packet.Some? ==> RequestOf(run[n + 1], InFlight.LastOf(DispatchedBy(run, n)).aiocb) == run[n].packet
  {
    var v := PoolAt(run, n);
    forall i | 0 <= i < |v.q| ensures RequestOf(run[n + 1], v.jobs[i].aiocb) == Some(v.q[i]) {
      assert InUse(run, n, v.jobs[i].aiocb);
      RequestKept(run[n], run[n + 1], v.jobs[i].aiocb);
    }
    if run[n].packet.Some? {
      assert InUse(run, n, InFlight.LastOf(DispatchedBy(run, n)).aiocb);
      RequestKept(run[n], run[n + 1], InFlight.LastOf(DispatchedBy(run, n)).aiocb);
    }
  }

  lemma LinkedTake(run: seq<State>, n: nat)
    requires n + 1 < |run| && NextAt(run, n) && Matches(run, n) && Takes(run[n], run[n + 1])
    requires QueueLinked(run[n + 1], PoolAt(run, n))
    requires run[n].packet.Some? ==> RequestOf(run[n + 1], InFlight.LastOf(DispatchedBy(run, n)).aiocb) == run[n].packet
    ensures Linked(run, n + 1)
  {
    var s, v := run[n], PoolAt(run, n);
    LinkedTakes(s, run[n + 1]);
    TakeStep(s, run[n + 1]);
    TakeRefines(s.lists, run[n + 1].lists, v, s.slots[s.loop.i].data);
    InFlight.AfterTake(run, n);
  }

  lemma LinkedDispatch(run: seq<State>, n: nat)
    requires n + 1 < |run| && NextAt(run, n) && Matches(run, n) && Dispatches(run[n], run[n + 1])
    requires QueueLinked(run[n + 1], PoolAt(run, n))
    ensures Linked(run, n + 1)
  {
    var s, v := run[n], PoolAt(run, n);
    DispatchStep(s, run[n + 1]);
    HeadRefines(s.lists, run[n + 1].lists, v);
    assert Carries(s.lists.nodes[v.q[0]], v.jobs[0]);
  }

  lemma LinkedNext(run: seq<State>, n: nat)
    requires Run(run) && n + 1 < |run| && NothingRemoved(run, n) && OneUse(run, n) && Matches(run, n) && Linked(run, n)
    ensures Linked(run, n + 1)
  {
    assert NextAt(run, n);
    LinkedStays(run, n);
    if Takes(run[n], run[n + 1]) {
      LinkedTake(run, n);
    } else if Dispatches(run[n], run[n + 1]) {
      LinkedDispatch(run, n);
    } else {
      InFlight.PacketStays(run[n], run[n + 1]);
    }
  }

  /** No cancellation removes a request, no packet in flight disturbed, no aiocb in use submitted again. */
  ghost predicate Orderly(run: seq<State>, i: nat) {
    NothingRemoved(run, i) && Completions.Steady(run, i) && OneUse(run, i)
  }

  lemma LinkedAt(run: seq<State>, n: nat)
    requires Run(run) && n + 1 < |run| && NothingRemoved(run, n) && OneUse(run, n) && Linked(run, n)
    requires forall i :: 0 <= i < n ==> NothingRemoved(run, i)
    ensures Linked(run, n + 1)
  {
    PoolRefined(run, n);
    LinkedNext(run, n);
  }

  lemma {:induction false} LinkedAlong(run: seq<State>, n: nat)
    requires Run(run) && n < |run| && forall i :: 0 <= i < n ==> Orderly(run, i)
    ensures Linked(run, n)
  {
    if n > 0 {
      LinkedAlong(run, n - 1);
      assert Orderly(run, n - 1);
      forall i | 0 <= i < n - 1 ensures NothingRemoved(run, i) {
        assert Orderly(run, i);
      }
      LinkedAt(run, n - 1);
    }
  }

  // ----- and so each call has its own opcode -----

  /** What is about to be called, and what has been, has the opcodes of the dispatched requests. */
  ghost predicate Typed(s: State, dispatched: seq<Job>) {
    && s.overwrites == 0
    && (s.evAbort ||
        (&& (s.io.CheckPacket? ==> s.packet.Some? && s.ioType == InFlight.LastOf(dispatched).opcode)
         && |s.log.calls| <= |dispatched|
         && forall k :: 0 <= k < |s.log.calls| ==> s.log.calls[k].opcode == dispatched[k].opcode))
  }

  lemma TypedBegin(s: State, s': State, d: seq<Job>)
    requires IoBeginStep(s, s') && Counters.Fed(s) && Completions.OwnNode(s, d) && PacketLinked(s, d)
    requires Completions.Identified(s, d) && (s.evAbort || Completions.Called(s, d)) && Typed(s, d)
    ensures Typed(s', d)
  {
  }

  lemma TypedIo(s: State, s': State, d: seq<Job>)
    requires IoStep(s, s') && Counters.Fed(s) && Completions.OwnNode(s, d) && PacketLinked(s, d)
    requires Completions.Identified(s, d) && (s.evAbort || Completions.Called(s, d)) && Typed(s, d)
    ensures Typed(s', d)
  {
    if IoBeginStep(s, s') {
      TypedBegin(s, s', d);
    }
  }

  /** The other threads: a dispatch adds a request, and only when there is no packet. */
  lemma TypedElsewhere(s: State, s': State, d: seq<Job>, d': seq<Job>)
    requires s'.io == s.io && s'.ioType == s.ioType && s'.log.calls == s.log.calls && (s.evAbort ==> s'.evAbort)
    requires s'.overwrites == s.overwrites && Typed(s, d) && d <= d'
    requires s.packet.Some? ==> s'.packet == s.packet && d' == d
    ensures Typed(s', d')
  {
  }

  lemma LoopTypes(s: State, s': State)
    requires LoopStep(s, s')
    ensures s'.io == s.io && s'.ioType == s.ioType && s'.log == s.log && s'.evAbort == s.evAbort
    ensures !Dispatches(s, s') ==> s'.packet == s.packet
    ensures !(s.packet.Some? && Dispatches(s, s')) ==> s'.overwrites == s.overwrites
  {
  }

  lemma DispatchedGrows(run: seq<State>, n: nat)
    requires n + 1 < |run|
    ensures DispatchedBy(run, n) <= DispatchedBy(run, n + 1)
    ensures !Dispatches(run[n], run[n + 1]) ==> DispatchedBy(run, n + 1) == DispatchedBy(run, n)
  {
  }

  lemma TypedLoop(run: seq<State>, n: nat)
    requires n + 1 < |run| && LoopStep(run[n], run[n + 1]) && Completions.Steady(run, n)
    requires Typed(run[n], DispatchedBy(run, n))
    ensures Typed(run[n + 1], DispatchedBy(run, n + 1))
  {
    LoopTypes(run[n], run[n + 1]);
    DispatchedGrows(run, n);
    TypedElsewhere(run[n], run[n + 1], DispatchedBy(run, n), DispatchedBy(run, n + 1));
  }

  lemma TypedClient(run: seq<State>, n: nat, t: nat)
    requires n + 1 < |run| && ClientStep(run[n], run[n + 1], t) && Typed(run[n], DispatchedBy(run, n))
    ensures Typed(run[n + 1], DispatchedBy(run, n + 1))
  {
    DispatchedGrows(run, n);
    TypedElsewhere(run[n], run[n + 1], DispatchedBy(run, n), DispatchedBy(run, n));
  }

  lemma TypedNext(run: seq<State>, n: nat)
    requires Run(run) && n + 1 < |run| && Completions.Steady(run, n) && Counters.Fed(run[n])
    requires InFlight.PlacedAt(run, n) && Completions.Ident(run, n) && PacketLinked(run[n], DispatchedBy(run, n))
    requires Typed(run[n], DispatchedBy(run, n))
    ensures Typed(run[n + 1], DispatchedBy(run, n + 1))
  {
    assert NextAt(run, n);
    if LoopStep(run[n], run[n + 1]) {
      TypedLoop(run, n);
    } else if IoStep(run[n], run[n + 1]) {
      DispatchedGrows(run, n);
      TypedIo(run[n], run[n + 1], DispatchedBy(run, n));
    } else {
      var t :| ClientStep(run[n], run[n + 1], t);
      TypedClient(run, n, t);
    }
  }

  lemma TypedAt(run: seq<State>, n: nat)
    requires Run(run) && n + 1 < |run| && forall i :: 0 <= i <= n ==> Orderly(run, i)
    requires Typed(run[n], DispatchedBy(run, n))
    ensures Typed(run[n + 1], DispatchedBy(run, n + 1))
  {
    forall i | 0 <= i < n ensures NothingRemoved(run, i) && Completions.Steady(run, i) {
      assert Orderly(run, i);
    }
    assert Orderly(run, n);
    LinkedAlong(run, n);
    InFlight.PlacedAlong(run, n);
    Completions.IdentAlong(run, n);
    Invariant.InvRun(run, n);
    TypedNext(run, n);
  }

  lemma {:induction false} TypedAlong(run: seq<State>, n: nat)
    requires Run(run) && n < |run| && forall i :: 0 <= i < n ==> Orderly(run, i)
    ensures Typed(run[n], DispatchedBy(run, n))
  {
    if n > 0 {
      TypedAlong(run, n - 1);
      TypedAt(run, n - 1);
    }
  }

  /**
   For any clients that submit no aiocb again while a request of it is queued or
   running: as long as no packet in flight is disturbed and no abort is
   signalled, the k-th system call is exactly the k-th dispatched request, opcode
   included.
   */
  lemma CalledAsDispatched(run: seq<State>, n: nat)
    requires Run(run) && n < |run| && forall i :: 0 <= i < n ==> Orderly(run, i)
    requires !run[n].evAbort
    ensures var calls, dispatched := run[n].log.calls, DispatchedBy(run, n);
            |calls| <= |dispatched| && forall k :: 0 <= k < |calls| ==> calls[k] == CallOf(dispatched[k])
  {
    TypedAlong(run, n);
    forall i | 0 <= i < n ensures NothingRemoved(run, i) && Completions.Steady(run, i) {
      assert Orderly(run, i);
    }
    Completions.IdentAlong(run, n);
  }
}
