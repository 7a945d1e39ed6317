/** The invariants together, carried along every run. */
module Invariant {
  import opened Protocol
  import Ownership
  import Counters
  import CancelLock

  ghost predicate Inv(s: State) {
    && Ownership.Inv(s)
    && Counters.Accounted(s) && Counters.Alternates(s) && Counters.Conserved(s) && Counters.Fed(s)
    && Counters.AwakeQueue(s) && Counters.AwakeOthers(s)
    && CancelLock.Locked(s)
  }

  lemma CountersInit(s: State)
    requires Init(s)
    ensures Counters.Accounted(s) && Counters.Alternates(s) && Counters.Conserved(s) && Counters.Fed(s)
    ensures Counters.AwakeQueue(s) && Counters.AwakeOthers(s)
  {
    assert Counters.Uncounted(s.clients) == {};
    Counters.PublishedIff(s.slots);
  }

  lemma InvInit(s: State)
    requires Init(s)
    ensures Inv(s)
  {
    CountersInit(s);
  }

  lemma InvClient(s: State, s': State, t: nat)
    requires Inv(s) && ClientStep(s, s', t)
    ensures Inv(s')
  {
    Ownership.Client(s, s', t);
    Counters.AccountedClient(s, s', t);
    Counters.AwakeQueueClient(s, s', t);
    Counters.AwakeOthersClient(s, s', t);
    CancelLock.LockedClient(s, s', t);
  }

  lemma InvLoop(s: State, s': State)
    requires Inv(s) && LoopStep(s, s')
    ensures Inv(s')
  {
    Ownership.Loop(s, s');
    Counters.AccountedLoop(s, s');
    Counters.AlternatesLoop(s, s');
    Counters.ConservedLoop(s, s');
    Counters.FedLoop(s, s');
    Counters.AwakeQueueLoop(s, s');
    Counters.AwakeOthersLoop(s, s');
    CancelLock.LockedLoop(s, s');
  }

  lemma InvIo(s: State, s': State)
    requires Inv(s) && IoStep(s, s')
    ensures Inv(s')
  {
    Counters.AlternatesIo(s, s');
    Counters.ConservedIo(s, s');
    Counters.FedIo(s, s');
    Counters.AwakeIo(s, s');
  }

  lemma InvNext(s: State, s': State)
    requires Inv(s) && Next(s, s')
    ensures Inv(s')
  {
    if LoopStep(s, s') {
      InvLoop(s, s');
    } else if IoStep(s, s') {
      InvIo(s, s');
    } else {
      var t :| ClientStep(s, s', t);
      InvClient(s, s', t);
    }
  }

  lemma InvAt(run: seq<State>, n: nat)
    requires Run(run) && n + 1 < |run| && Inv(run[n])
    ensures Inv(run[n + 1])
  {
    assert NextAt(run, n);
    InvNext(run[n], run[n + 1]);
  }

  lemma {:induction false} InvRun(run: seq<State>, n: nat)
    requires Run(run) && n < |run|
    ensures Inv(run[n])
  {
    if n == 0 {
      InvInit(run[0]);
    } else {
      InvRun(run, n - 1);
      InvAt(run, n - 1);
    }
  }
}
