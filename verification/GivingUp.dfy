/**
 When a contended call gives up: waio_cancel on the lock word, and a submission on
 the slots. Each counts its failed compare-and-swaps.
 */
module GivingUp {
  import opened Protocol
  import Invariant

  // ----- the lock of waio_cancel -----

  /** Client `t` tries the lock in this step, and finds it taken. */
  predicate LockMiss(s: State, s': State, t: nat) {
    && t in s.clients && t in s'.clients && s.clients[t].pc.TryLock?
    && s'.clients[t].pc != s.clients[t].pc && s.cancel.owner.Some?
  }

  function LockMisses(run: seq<State>, t: nat, p: nat, n: nat): nat
    requires p <= n < |run|
    decreases n - p
  {
    if p == n then 0
    else LockMisses(run, t, p, n - 1) + (if LockMiss(run[n - 1], run[n], t) then 1 else 0)
  }

  /** The client is trying for the lock. */
  predicate Trying(run: seq<State>, t: nat, i: nat) {
    i < |run| && t in run[i].clients && run[i].clients[t].pc.TryLock?
  }

  lemma TryStep(s: State, s': State, t: nat)
    requires Next(s, s') && t in s.clients && s.clients[t].pc.TryLock?
    ensures t in s'.clients
    ensures var n, pc' := s.clients[t].pc.n, s'.clients[t].pc;
            || pc' == s.clients[t].pc
            || (s.cancel.owner.None? && pc'.Prepare?)
            || (s.cancel.owner.Some? && n + 1 < LOCK_TRIES && pc' == TryLock(n + 1))
            || (s.cancel.owner.Some? && (n == 0 || n + 1 >= LOCK_TRIES) && pc'.Idle?)
  {
    if LoopStep(s, s') {
    } else if IoStep(s, s') {
    } else {
      var u :| ClientStep(s, s', u);
      assert s'.clients == s.clients[u := s'.clients[u]];
    }
  }

  lemma TryAt(run: seq<State>, t: nat, n: nat)
    requires Run(run) && n + 1 < |run| && Trying(run, t, n)
    ensures t in run[n + 1].clients
    ensures var k, pc' := run[n].clients[t].pc.n, run[n + 1].clients[t].pc;
            || (pc' == run[n].clients[t].pc && !LockMiss(run[n], run[n + 1], t))
            || (pc'.Prepare? && !LockMiss(run[n], run[n + 1], t))
            || (pc' == TryLock(k + 1) && k + 1 < LOCK_TRIES && LockMiss(run[n], run[n + 1], t))
            || (pc'.Idle? && (k == 0 || k + 1 >= LOCK_TRIES) && LockMiss(run[n], run[n + 1], t))
  {
    assert NextAt(run, n);
    TryStep(run[n], run[n + 1], t);
  }

  lemma {:induction false} MissesCounted(run: seq<State>, t: nat, p: nat, n: nat)
    requires Run(run) && p <= n < |run| && forall i :: p <= i <= n ==> Trying(run, t, i)
    requires t in run[p].clients && run[p].clients[t].pc == TryLock(0)
    ensures Trying(run, t, n) && run[n].clients[t].pc.n == LockMisses(run, t, p, n) < LOCK_TRIES
    decreases n - p
  {
    assert Trying(run, t, n);
    if p < n {
      assert Trying(run, t, n - 1);
      MissesCounted(run, t, p, n - 1);
      TryAt(run, t, n - 1);
    }
  }

  /**
   waio_cancel ends without having had the lock only after one attempt that found
   it taken, when its event cannot be created, or after exactly 1026 of them.
   */
  lemma LockGivenUp(run: seq<State>, t: nat, p: nat, n: nat)
    requires Run(run) && p <= n && n + 1 < |run| && forall i :: p <= i <= n ==> Trying(run, t, i)
    requires t in run[p].clients && run[p].clients[t].pc == TryLock(0)
    requires t in run[n + 1].clients && run[n + 1].clients[t].pc.Idle?
    ensures LockMisses(run, t, p, n + 1) == 1 || LockMisses(run, t, p, n + 1) == 1026
  {
    MissesCounted(run, t, p, n);
    TryAt(run, t, n);
  }

  // ----- the slots -----

  /** Client `t` tries slot `i` in this step, and finds it reserved. */
  predicate SlotMiss(s: State, s': State, t: nat) {
    && t in s.clients && t in s'.clients && s.clients[t].pc.Reserve?
    && s.clients[t].pc.i < |s.slots| && s.slots[s.clients[t].pc.i].tid != 0
    && s'.clients[t].pc != s.clients[t].pc
  }

  function SlotMisses(run: seq<State>, t: nat, p: nat, n: nat): nat
    requires p <= n < |run|
    decreases n - p
  {
    if p == n then 0
    else SlotMisses(run, t, p, n - 1) + (if SlotMiss(run[n - 1], run[n], t) then 1 else 0)
  }

  /** The client is trying for a slot. */
  predicate Reserving(run: seq<State>, t: nat, i: nat) {
    i < |run| && t in run[i].clients && run[i].clients[t].pc.Reserve?
  }

  lemma ReserveStepOf(s: State, s': State, t: nat)
    requires Next(s, s') && t in s.clients && s.clients[t].pc.Reserve? && |s.slots| == SLOT_COUNT
    ensures t in s'.clients
    ensures var i, k, pc' := s.clients[t].pc.i, s.clients[t].pc.tries, s'.clients[t].pc;
            || pc' == s.clients[t].pc
            || (i < 4 && s.slots[i].tid == 0 && pc'.Fill?)
            || (i < 4 && s.slots[i].tid != 0 && pc' == Reserve(i + 1, k))
            || (i >= 4 && k < GET_SLOT_TRIES && pc' == Reserve(0, k + 1))
            || (i >= 4 && (k == 0 || k >= GET_SLOT_TRIES) && pc'.Idle?)
  {
    if LoopStep(s, s') {
    } else if IoStep(s, s') {
    } else {
      var u :| ClientStep(s, s', u);
      assert s'.clients == s.clients[u := s'.clients[u]];
    }
  }

  lemma ReserveAt(run: seq<State>, t: nat, n: nat)
    requires Run(run) && n + 1 < |run| && Reserving(run, t, n)
    ensures t in run[n + 1].clients
    ensures var i, k, pc' := run[n].clients[t].pc.i, run[n].clients[t].pc.tries, run[n + 1].clients[t].pc;
            var miss := SlotMiss(run[n], run[n + 1], t);
            || (pc' == run[n].clients[t].pc && !miss)
            || (pc'.Fill? && !miss)
            || (i < 4 && pc' == Reserve(i + 1, k) && miss)
            || (i >= 4 && k < GET_SLOT_TRIES && pc' == Reserve(0, k + 1) && !miss)
            || (i >= 4 && (k == 0 || k >= GET_SLOT_TRIES) && pc'.Idle? && !miss)
  {
    Invariant.InvRun(run, n);
    assert NextAt(run, n);
    ReserveStepOf(run[n], run[n + 1], t);
  }

  lemma {:induction false} PassesCounted(run: seq<State>, t: nat, p: nat, n: nat)
    requires Run(run) && p <= n < |run| && forall i :: p <= i <= n ==> Reserving(run, t, i)
    requires t in run[p].clients && run[p].clients[t].pc == Reserve(0, 0)
    ensures Reserving(run, t, n)
    ensures var pc := run[n].clients[t].pc;
            pc.i <= 4 && pc.tries <= GET_SLOT_TRIES && SlotMisses(run, t, p, n) == 4 * pc.tries + pc.i
    decreases n - p
  {
    assert Reserving(run, t, n);
    if p < n {
      assert Reserving(run, t, n - 1);
      PassesCounted(run, t, p, n - 1);
      ReserveAt(run, t, n - 1);
    }
  }

  /**
   A submission ends without a slot only after one pass that found all four
   reserved, when its event cannot be created, or after exactly 129 such passes.
   */
  lemma SlotsGivenUp(run: seq<State>, t: nat, p: nat, n: nat)
    requires Run(run) && p <= n && n + 1 < |run| && forall i :: p <= i <= n ==> Reserving(run, t, i)
    requires t in run[p].clients && run[p].clients[t].pc == Reserve(0, 0)
    requires t in run[n + 1].clients && run[n + 1].clients[t].pc.Idle?
    ensures SlotMisses(run, t, p, n + 1) == 4 || SlotMisses(run, t, p, n + 1) == 4 * 129
  {
    PassesCounted(run, t, p, n);
    ReserveAt(run, t, n);
  }
}
