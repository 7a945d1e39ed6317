/**
 The five events of a context over whole runs: each is signalled exactly when it
 has been set and not reset since, and by whom; and what a submission has seen when
 it stops signalling.
 */
module Events {
  import opened Protocol

  // ----- in general -----

  ghost predicate At(f: (State, State) -> bool, run: seq<State>, i: nat) {
    i + 1 < |run| && f(run[i], run[i + 1])
  }

  /** Some step before state `n` sets, and none resets after that. */
  ghost predicate SetSince(sets: (State, State) -> bool, resets: (State, State) -> bool, run: seq<State>, n: nat) {
    exists i :: 0 <= i < n && At(sets, run, i) && forall j :: i < j < n ==> !At(resets, run, j)
  }

  ghost predicate Tracked(
    ev: State -> bool, sets: (State, State) -> bool, resets: (State, State) -> bool, run: seq<State>, i: nat)
  {
    i + 1 < |run| && (ev(run[i + 1]) <==> At(sets, run, i) || (ev(run[i]) && !At(resets, run, i)))
  }

  lemma {:induction false} SignalledIff(
    ev: State -> bool, sets: (State, State) -> bool, resets: (State, State) -> bool, run: seq<State>, n: nat)
    requires n < |run| && !ev(run[0]) && forall i :: 0 <= i < n ==> Tracked(ev, sets, resets, run, i)
    ensures ev(run[n]) <==> SetSince(sets, resets, run, n)
  {
    if n > 0 {
      SignalledIff(ev, sets, resets, run, n - 1);
      assert Tracked(ev, sets, resets, run, n - 1);
      if i :| 0 <= i < n && At(sets, run, i) && forall j :: i < j < n ==> !At(resets, run, j) {
        if i < n - 1 {
          assert SetSince(sets, resets, run, n - 1);
        }
      }
      if i :| ev(run[n - 1]) && !At(resets, run, n - 1)
              && 0 <= i < n - 1 && At(sets, run, i) && forall j :: i < j < n - 1 ==> !At(resets, run, j) {
        assert forall j :: i < j < n ==> !At(resets, run, j);
      }
    }
  }

  // ----- who sets and who resets which -----

  /** Some client makes its next call here, which is one like this. */
  ghost predicate Calls(s: State, s': State, here: ClientPc -> bool) {
    exists t :: t in s.clients && t in s'.clients && here(s.clients[t].pc) && s'.clients[t].pc != s.clients[t].pc
  }

  /** The request event: a client or the I/O thread sets it, the loop resets it at the end of an iteration. */
  ghost predicate SetsQueue(s: State, s': State) {
    Calls(s, s', (pc: ClientPc) => pc.Signal?) || (s.io.SetQueue? && !s'.io.SetQueue?)
  }

  predicate ResetsQueue(s: State, s': State) {
    s.loop.ResetQueue? && !s'.loop.ResetQueue?
  }

  /** The I/O event: set after a dispatch, reset in the acknowledgement. */
  predicate SetsIo(s: State, s': State) {
    s.loop.SetIo? && !s'.loop.SetIo?
  }

  predicate ResetsIo(s: State, s': State) {
    s.loop.ResetIo? && !s'.loop.ResetIo?
  }

  /** The completion event: set at the end of the acknowledgement, reset by the I/O thread after its wait. */
  predicate SetsComplete(s: State, s': State) {
    s.loop.SetComplete? && !s'.loop.SetComplete?
  }

  predicate ResetsComplete(s: State, s': State) {
    s.io.ResetComplete? && !s'.io.ResetComplete?
  }

  /** The abort event: set by waio_free and never reset. */
  ghost predicate SetsAbort(s: State, s': State) {
    Calls(s, s', (pc: ClientPc) => pc.SignalAbort?)
  }

  /** The cancellation event: set by waio_cancel, reset by the loop after it has served. */
  ghost predicate SetsCancel(s: State, s': State) {
    Calls(s, s', (pc: ClientPc) => pc.SignalCancel?)
  }

  predicate ResetsCancel(s: State, s': State) {
    s.loop.ResetCancel? && !s'.loop.ResetCancel?
  }

  // ----- each step -----

  lemma ClientTracks(s: State, s': State, t: nat)
    requires ClientStep(s, s', t)
    ensures var pc := s.clients[t].pc;
            && s'.evQueue == (s.evQueue || pc.Signal?)
            && s'.evAbort == (s.evAbort || pc.SignalAbort?)
            && s'.cancel.signalled == (s.cancel.signalled || pc.SignalCancel?)
            && s'.evIo == s.evIo && s'.evComplete == s.evComplete
    ensures s'.clients == s.clients[t := s'.clients[t]] && s'.loop == s.loop && s'.io == s.io
    ensures var pc, pc' := s.clients[t].pc, s'.clients[t].pc;
            pc.Signal? || pc.SignalAbort? || pc.SignalCancel? ==> pc' != pc
  {
  }

  lemma LoopTracks(s: State, s': State)
    requires LoopStep(s, s')
    ensures s'.evQueue == (s.evQueue && !ResetsQueue(s, s'))
    ensures s'.evIo == (SetsIo(s, s') || (s.evIo && !ResetsIo(s, s')))
    ensures s'.evComplete == (s.evComplete || SetsComplete(s, s'))
    ensures s'.cancel.signalled == (s.cancel.signalled && !ResetsCancel(s, s'))
    ensures s'.evAbort == s.evAbort && s'.clients == s.clients && s'.io == s.io
  {
  }

  lemma IoTracks(s: State, s': State)
    requires IoStep(s, s')
    ensures s'.evQueue == (s.evQueue || (s.io.SetQueue? && !s'.io.SetQueue?))
    ensures s'.evComplete == (s.evComplete && !ResetsComplete(s, s'))
    ensures s'.evIo == s.evIo && s'.evAbort == s.evAbort && s'.cancel == s.cancel
    ensures s'.clients == s.clients && s'.loop == s.loop
  {
  }

  ghost predicate EachTracked(s: State, s': State) {
    && (s'.evQueue <==> SetsQueue(s, s') || (s.evQueue && !ResetsQueue(s, s')))
    && (s'.evIo <==> SetsIo(s, s') || (s.evIo && !ResetsIo(s, s')))
    && (s'.evComplete <==> SetsComplete(s, s') || (s.evComplete && !ResetsComplete(s, s')))
    && (s'.evAbort <==> SetsAbort(s, s') || s.evAbort)
    && (s'.cancel.signalled <==> SetsCancel(s, s') || (s.cancel.signalled && !ResetsCancel(s, s')))
  }

  lemma OneCalls(s: State, s': State, t: nat, here: ClientPc -> bool)
    requires t in s.clients && t in s'.clients && s'.clients == s.clients[t := s'.clients[t]]
    ensures Calls(s, s', here) <==> here(s.clients[t].pc) && s'.clients[t].pc != s.clients[t].pc
  {
  }

  lemma NextTracks(s: State, s': State)
    requires Next(s, s')
    ensures EachTracked(s, s')
  {
    if LoopStep(s, s') {
      LoopTracks(s, s');
    } else if IoStep(s, s') {
      IoTracks(s, s');
    } else {
      var t :| ClientStep(s, s', t);
      ClientTracks(s, s', t);
      OneCalls(s, s', t, (pc: ClientPc) => pc.Signal?);
      OneCalls(s, s', t, (pc: ClientPc) => pc.SignalAbort?);
      OneCalls(s, s', t, (pc: ClientPc) => pc.SignalCancel?);
    }
  }

  lemma TracksAt(run: seq<State>, i: nat)
    requires Run(run) && i + 1 < |run|
    ensures EachTracked(run[i], run[i + 1])
  {
    assert NextAt(run, i);
    NextTracks(run[i], run[i + 1]);
  }

  /** In every run each event is signalled if and only if it was set and has not been reset since. */
  lemma QueueEvent(run: seq<State>, n: nat)
    requires Run(run) && n < |run|
    ensures run[n].evQueue <==> SetSince(SetsQueue, ResetsQueue, run, n)
  {
    var ev := (s: State) => s.evQueue;
    forall i | 0 <= i < n ensures Tracked(ev, SetsQueue, ResetsQueue, run, i) {
      TracksAt(run, i);
    }
    SignalledIff(ev, SetsQueue, ResetsQueue, run, n);
  }

  lemma IoEvent(run: seq<State>, n: nat)
    requires Run(run) && n < |run|
    ensures run[n].evIo <==> SetSince(SetsIo, ResetsIo, run, n)
  {
    var ev := (s: State) => s.evIo;
    forall i | 0 <= i < n ensures Tracked(ev, SetsIo, ResetsIo, run, i) {
      TracksAt(run, i);
    }
    SignalledIff(ev, SetsIo, ResetsIo, run, n);
  }

  lemma CompleteEvent(run: seq<State>, n: nat)
    requires Run(run) && n < |run|
    ensures run[n].evComplete <==> SetSince(SetsComplete, ResetsComplete, run, n)
  {
    var ev := (s: State) => s.evComplete;
    forall i | 0 <= i < n ensures Tracked(ev, SetsComplete, ResetsComplete, run, i) {
      TracksAt(run, i);
    }
    SignalledIff(ev, SetsComplete, ResetsComplete, run, n);
  }

  lemma AbortEvent(run: seq<State>, n: nat)
    requires Run(run) && n < |run|
    ensures run[n].evAbort <==> exists i :: 0 <= i < n && At(SetsAbort, run, i)
  {
    var ev := (s: State) => s.evAbort;
    var never := (s: State, s': State) => false;
    forall i | 0 <= i < n ensures Tracked(ev, SetsAbort, never, run, i) {
      TracksAt(run, i);
    }
    SignalledIff(ev, SetsAbort, never, run, n);
  }

  lemma CancelEvent(run: seq<State>, n: nat)
    requires Run(run) && n < |run|
    ensures run[n].cancel.signalled <==> SetSince(SetsCancel, ResetsCancel, run, n)
  {
    var ev := (s: State) => s.cancel.signalled;
    forall i | 0 <= i < n ensures Tracked(ev, SetsCancel, ResetsCancel, run, i) {
      TracksAt(run, i);
    }
    SignalledIff(ev, SetsCancel, ResetsCancel, run, n);
  }

  // ----- the end of a submission -----

  lemma NotifiedStep(s: State, s': State, t: nat)
    requires Next(s, s') && t in s.clients && t in s'.clients && s'.clients[t].pc != s.clients[t].pc
    ensures match s.clients[t].pc
            case Signal(i) => s'.evQueue && s'.clients[t].pc == if s.evQueue then Spin(i) else Idle
            case Spin(i) =>
              i < |s.slots| && s'.clients[t].pc == if s.slots[i].tid == t then Signal(i) else Idle
            case _ => true
  {
    if LoopStep(s, s') {
    } else if IoStep(s, s') {
    } else {
      var u :| ClientStep(s, s', u);
      assert s'.clients == s.clients[u := s'.clients[u]];
    }
  }

  /**
   A submission sets the event until it is the one that signals it, or finds its
   slot taken from it; with neither it goes on.
   */
  lemma SubmissionReturns(run: seq<State>, n: nat, t: nat)
    requires Run(run) && n + 1 < |run| && t in run[n].clients && t in run[n + 1].clients
    requires run[n].clients[t].pc.Signal? || run[n].clients[t].pc.Spin?
    requires run[n + 1].clients[t].pc != run[n].clients[t].pc
    ensures var s, s', pc := run[n], run[n + 1], run[n].clients[t].pc;
            && (pc.Spin? ==> pc.i < |s.slots|)
            && (s'.clients[t].pc.Idle? <==>
                  (pc.Signal? && !s.evQueue && s'.evQueue) || (pc.Spin? && s.slots[pc.i].tid != t))
            && (!s'.clients[t].pc.Idle? ==> s'.clients[t].pc == if pc.Signal? then Spin(pc.i) else Signal(pc.i))
  {
    assert NextAt(run, n);
    NotifiedStep(run[n], run[n + 1], t);
  }
}
