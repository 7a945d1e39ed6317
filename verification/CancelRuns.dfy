/** What the cancellation hand-off guarantees to a caller over whole runs. */
module CancelRuns {
  import opened Protocol
  import CancelLock
  import Invariant

  // ----- a lock that was leaked -----

  ghost predicate Leaked(s: State, owner: Option<Ref>) {
    && s.cancel.hold.Leaked? && s.cancel.owner == owner && s.cancel.counter == 0
    && forall t :: t in s.clients ==> !CancelLock.Preparing(s.clients[t].pc)
  }

  lemma LockedRun(run: seq<State>, n: nat)
    requires Run(run) && n < |run|
    ensures CancelLock.Locked(run[n])
  {
    Invariant.InvRun(run, n);
  }

  lemma LeakedAt(run: seq<State>, n: nat, owner: Option<Ref>)
    requires Run(run) && n + 1 < |run| && Leaked(run[n], owner)
    ensures Leaked(run[n + 1], owner)
  {
    LockedRun(run, n);
    assert NextAt(run, n);
    CancelLock.FailedPreparationKeepsLock(run[n], run[n + 1]);
  }

  lemma LeakedNow(s: State)
    requires CancelLock.Locked(s) && s.cancel.hold.Leaked?
    ensures Leaked(s, s.cancel.owner) && s.cancel.owner.Some?
  {
    forall t | t in s.clients ensures !CancelLock.Preparing(s.clients[t].pc) {
      assert CancelLock.ClientShape(s.cancel, t, s.clients[t]);
    }
  }

  /**
   Once a call has returned without releasing the lock, the lock stays taken in
   the rest of the run, and no client ever gets past it again.
   */
  lemma {:induction false} LeakIsForever(run: seq<State>, m: nat, n: nat)
    requires Run(run) && m <= n < |run| && run[m].cancel.hold.Leaked?
    ensures Leaked(run[n], run[m].cancel.owner) && run[m].cancel.owner.Some?
    decreases n - m
  {
    if m == n {
      LockedRun(run, m);
      LeakedNow(run[m]);
    } else {
      LeakIsForever(run, m, n - 1);
      LeakedAt(run, n - 1, run[m].cancel.owner);
    }
  }

  /** In step `i` a call returns from its preparation: creating or resetting its event has failed. */
  ghost predicate FailedPrepare(run: seq<State>, i: nat) {
    && i + 1 < |run|
    && exists t :: t in run[i].clients && t in run[i + 1].clients
                   && run[i].clients[t].pc.Prepare? && run[i + 1].clients[t].pc.Idle?
  }

  lemma FailedStep(s: State, s': State, t: nat)
    requires Next(s, s') && t in s.clients && t in s'.clients && s.clients[t].pc.Prepare? && s'.clients[t].pc.Idle?
    ensures s'.cancel.hold.Leaked?
  {
    if LoopStep(s, s') {
    } else if IoStep(s, s') {
    } else {
      var u :| ClientStep(s, s', u);
      assert s'.clients == s.clients[u := s'.clients[u]];
    }
  }

  lemma LeakingStep(s: State, s': State)
    requires Next(s, s') && s'.cancel.hold.Leaked? && !s.cancel.hold.Leaked?
    ensures exists t :: t in s.clients && t in s'.clients && s.clients[t].pc.Prepare? && s'.clients[t].pc.Idle?
  {
    if LoopStep(s, s') {
    } else if IoStep(s, s') {
    } else {
      var t :| ClientStep(s, s', t);
      assert CancelCallStep(s, s', t);
      assert s.clients[t].pc.Prepare? && s'.clients[t].pc.Idle?;
    }
  }

  lemma {:induction false} LeakedBefore(run: seq<State>, n: nat)
    requires Run(run) && n < |run| && run[n].cancel.hold.Leaked?
    ensures exists i :: 0 <= i < n && FailedPrepare(run, i)
  {
    assert n > 0;
    if run[n - 1].cancel.hold.Leaked? {
      LeakedBefore(run, n - 1);
    } else {
      assert NextAt(run, n - 1);
      LeakingStep(run[n - 1], run[n]);
      assert FailedPrepare(run, n - 1);
    }
  }

  /** The lock is leaked exactly when some preparation has failed before. */
  lemma LeakedIffPrepareFailed(run: seq<State>, n: nat)
    requires Run(run) && n < |run|
    ensures run[n].cancel.hold.Leaked? <==> exists i :: 0 <= i < n && FailedPrepare(run, i)
  {
    if run[n].cancel.hold.Leaked? {
      LeakedBefore(run, n);
    }
    if i :| 0 <= i < n && FailedPrepare(run, i) {
      var t :| t in run[i].clients && t in run[i + 1].clients
               && run[i].clients[t].pc.Prepare? && run[i + 1].clients[t].pc.Idle?;
      assert NextAt(run, i);
      FailedStep(run[i], run[i + 1], t);
      LeakIsForever(run, i + 1, n);
    }
  }

  // ----- submissions of an aiocb that is being cancelled -----

  /** Client `u` sets the opaque block of the user's aiocb `r` to 0 for a submission. */
  predicate Clearing(s: State, s': State, u: nat, r: Ref) {
    && u in s.clients && u in s'.clients && s.clients[u].pc.Clear? && s'.clients[u].pc.Mark?
    && r == User(s.clients[u].job.aiocb)
  }

  ghost predicate Clears(s: State, s': State, r: Ref) {
    exists u :: Clearing(s, s', u, r)
  }

  ghost predicate ClearsAt(run: seq<State>, i: nat, r: Ref) {
    i + 1 < |run| && Clears(run[i], run[i + 1], r)
  }

  /** Some submission does so in one of the steps from `m` up to `n`. */
  ghost predicate Cleared(run: seq<State>, m: nat, n: nat, r: Ref) {
    exists i :: m <= i < n && ClearsAt(run, i, r)
  }

  lemma ClearedTo(run: seq<State>, m: nat, n: nat, r: Ref)
    requires m <= n && n + 1 < |run|
    ensures Cleared(run, m, n + 1, r) <==> Cleared(run, m, n, r) || Clears(run[n], run[n + 1], r)
  {
    if Clears(run[n], run[n + 1], r) {
      assert ClearsAt(run, n, r);
    }
  }

  /** Exactly the clearing steps zero the block of a user's aiocb; one on a stack is never cleared. */
  lemma ClearsIff(s: State, s': State, u: nat, r: Ref)
    requires SubmitStep(s, s', u)
    ensures Clears(s, s', r) <==> s.clients[u].pc.Clear? && r == User(s.clients[u].job.aiocb)
  {
    assert s'.clients == s.clients[u := s'.clients[u]];
    if s.clients[u].pc.Clear? && r == User(s.clients[u].job.aiocb) {
      assert Clearing(s, s', u, r);
    }
  }

  // ----- the answer a caller reads -----

  /** The client is in its call, past the preparation of its event. */
  predicate InCall(s: State, t: nat, r: Ref) {
    && t in s.clients && s.clients[t].ref == r
    && (s.clients[t].pc.CountCancel? || CancelLock.Waiting(s.clients[t].pc) || s.clients[t].pc.ReadVerdict?)
  }

  /** And no other call names its aiocb. */
  ghost predicate InOwnCall(s: State, t: nat, r: Ref) {
    InCall(s, t, r) && CancelLock.Alone(s, t)
  }

  /** The request of `t` has not been answered yet. */
  predicate Unserved(s: State, t: nat, r: Ref) {
    s.cancel.hold == Taken(t, r) || (s.cancel.hold == Asked(t, r) && !s.loop.Wake?)
  }

  /** The answer to the request of `t` has been written, and the aiocb shows `v`. */
  predicate Given(s: State, t: nat, r: Ref, v: int) {
    && r in s.cancel.verdicts && s.cancel.verdicts[r] == v
    && (s.cancel.hold.Taken? ==> s.cancel.hold.ref != r)
    && (s.cancel.hold.Asked? && s.cancel.hold.ref == r ==> s.loop.Wake? && s.cancel.hold.tid == t)
  }

  /** The loop writes the answer to the request of `t`. */
  predicate Serves(s: State, s': State, t: nat, r: Ref) {
    && s.loop.Serve? && s'.loop.Wake? && s.cancel.hold == Asked(t, r) && s'.cancel.hold == Asked(t, r)
    && r in s'.cancel.verdicts
  }

  ghost predicate ServesAt(run: seq<State>, i: nat, t: nat, r: Ref) {
    i + 1 < |run| && Serves(run[i], run[i + 1], t, r)
  }

  /** The call is over and returned `v`. */
  predicate ReturnedWith(s: State, t: nat, v: int) {
    t in s.clients && s.clients[t].pc.Idle? && s.clients[t].verdict == v
  }

  /** The call ends with what the block shows, which has lost its event. */
  predicate Unanswered(s: State, s': State, t: nat, r: Ref) {
    r !in s.cancel.handles && r in s.cancel.verdicts && ReturnedWith(s', t, s.cancel.verdicts[r])
  }

  predicate SameVerdict(s: State, s': State, r: Ref) {
    r in s.cancel.verdicts ==> r in s'.cancel.verdicts && s'.cancel.verdicts[r] == s.cancel.verdicts[r]
  }

  /** What a step other than the service does to the block of `r`. */
  ghost predicate BlockKept(s: State, s': State, r: Ref) {
    if Clears(s, s', r) then r !in s'.cancel.handles && r in s'.cancel.verdicts && s'.cancel.verdicts[r] == 0
    else (r in s'.cancel.handles <==> r in s.cancel.handles) && SameVerdict(s, s', r)
  }

  lemma UnservedSubmit(s: State, s': State, t: nat, r: Ref, u: nat)
    requires Unserved(s, t, r) && SubmitStep(s, s', u)
    ensures Unserved(s', t, r) && BlockKept(s, s', r)
  {
    ClearsIff(s, s', u, r);
  }

  lemma UnservedCall(s: State, s': State, t: nat, r: Ref, u: nat)
    requires CancelLock.Locked(s) && InCall(s, t, r) && Unserved(s, t, r)
    requires CancelCallStep(s, s', u) || EnterCancel(s, s', u)
    ensures Unserved(s', t, r) && BlockKept(s, s', r)
    ensures t in s'.clients && s'.clients[t].pc.Idle? ==> Unanswered(s, s', t, r)
  {
    assert CancelLock.ClientShape(s.cancel, t, s.clients[t]);
    assert CancelLock.ClientShape(s.cancel, u, s.clients[u]);
  }

  lemma UnservedBranch(s: State, s': State, t: nat, r: Ref)
    requires CancelLock.LockShape(s.cancel, s.loop) && Unserved(s, t, r) && LoopCancelStep(s, s')
    ensures Serves(s, s', t, r) || (Unserved(s', t, r) && BlockKept(s, s', r))
  {
  }

  /** The other branches of the loop leave the cancellation alone. */
  lemma LoopElsewhere(s: State, s': State)
    requires LoopStep(s, s') && !LoopCancelStep(s, s')
    ensures s'.cancel == s.cancel && s'.clients == s.clients && !s'.loop.Wake? && !s.loop.Wake?
  {
  }

  lemma UnservedLoop(s: State, s': State, t: nat, r: Ref)
    requires CancelLock.Locked(s) && Unserved(s, t, r) && LoopStep(s, s')
    ensures Serves(s, s', t, r) || (Unserved(s', t, r) && BlockKept(s, s', r))
    ensures s'.clients == s.clients
  {
    if LoopCancelStep(s, s') {
      UnservedBranch(s, s', t, r);
    } else {
      LoopElsewhere(s, s');
    }
  }

  lemma UnservedClient(s: State, s': State, t: nat, r: Ref, u: nat)
    requires CancelLock.Locked(s) && ClientStep(s, s', u) && InCall(s, t, r) && Unserved(s, t, r)
    ensures Unserved(s', t, r) && BlockKept(s, s', r)
    ensures t in s'.clients && s'.clients[t].pc.Idle? ==> Unanswered(s, s', t, r)
  {
    if SubmitStep(s, s', u) {
      CancelLock.SubmitElsewhere(s, s', u);
      UnservedSubmit(s, s', t, r, u);
    } else if CancelCallStep(s, s', u) || EnterCancel(s, s', u) {
      UnservedCall(s, s', t, r, u);
    }
  }

  /** Until it is served, a request stays as it is but for clearings; a call that ends before has been cleared. */
  lemma UnservedStep(s: State, s': State, t: nat, r: Ref)
    requires CancelLock.Locked(s) && Next(s, s') && InCall(s, t, r) && Unserved(s, t, r)
    ensures Serves(s, s', t, r) || (Unserved(s', t, r) && BlockKept(s, s', r))
    ensures t in s'.clients && s'.clients[t].pc.Idle? ==> !Serves(s, s', t, r) && Unanswered(s, s', t, r)
  {
    if LoopStep(s, s') {
      UnservedLoop(s, s', t, r);
    } else if IoStep(s, s') {
    } else {
      var u :| ClientStep(s, s', u);
      UnservedClient(s, s', t, r, u);
    }
  }

  lemma GivenSubmit(s: State, s': State, t: nat, r: Ref, v: int, u: nat)
    requires InCall(s, t, r) && Given(s, t, r, v) && SubmitStep(s, s', u)
    ensures Given(s', t, r, if Clears(s, s', r) then 0 else v)
  {
    ClearsIff(s, s', u, r);
  }

  lemma GivenCall(s: State, s': State, t: nat, r: Ref, v: int, u: nat)
    requires CancelLock.Locked(s) && InOwnCall(s, t, r) && Given(s, t, r, v)
    requires CancelCallStep(s, s', u) || EnterCancel(s, s', u)
    ensures !Clears(s, s', r)
    ensures InOwnCall(s', t, r) ==> Given(s', t, r, v)
    ensures t in s'.clients && s'.clients[t].pc.Idle? ==> ReturnedWith(s', t, v)
  {
    assert CancelLock.ClientShape(s.cancel, t, s.clients[t]);
    assert CancelLock.ClientShape(s.cancel, u, s.clients[u]);
  }

  lemma GivenBranch(s: State, s': State, t: nat, r: Ref, v: int)
    requires CancelLock.LockShape(s.cancel, s.loop) && Given(s, t, r, v) && LoopCancelStep(s, s')
    ensures Given(s', t, r, v) && s'.clients == s.clients
  {
  }

  lemma GivenLoop(s: State, s': State, t: nat, r: Ref, v: int)
    requires CancelLock.Locked(s) && Given(s, t, r, v) && LoopStep(s, s')
    ensures !Clears(s, s', r) && Given(s', t, r, v) && s'.clients == s.clients
  {
    if LoopCancelStep(s, s') {
      GivenBranch(s, s', t, r, v);
    } else {
      LoopElsewhere(s, s');
    }
  }

  lemma GivenIo(s: State, s': State, t: nat, r: Ref, v: int)
    requires Given(s, t, r, v) && IoStep(s, s')
    ensures !Clears(s, s', r) && Given(s', t, r, v) && s'.clients == s.clients
  {
  }

  lemma GivenClient(s: State, s': State, t: nat, r: Ref, v: int, u: nat)
    requires CancelLock.Locked(s) && ClientStep(s, s', u) && InOwnCall(s, t, r) && Given(s, t, r, v)
    ensures InOwnCall(s', t, r) ==> Given(s', t, r, if Clears(s, s', r) then 0 else v)
    ensures t in s'.clients && s'.clients[t].pc.Idle? ==> !Clears(s, s', r) && ReturnedWith(s', t, v)
  {
    if SubmitStep(s, s', u) {
      CancelLock.SubmitElsewhere(s, s', u);
      GivenSubmit(s, s', t, r, v, u);
    } else if CancelCallStep(s, s', u) || EnterCancel(s, s', u) {
      GivenCall(s, s', t, r, v, u);
    }
  }

  /** Once it is served, only a clearing changes the answer, and the call returns what it finds. */
  lemma GivenStep(s: State, s': State, t: nat, r: Ref, v: int)
    requires CancelLock.Locked(s) && Next(s, s') && InOwnCall(s, t, r) && Given(s, t, r, v)
    ensures InOwnCall(s', t, r) ==> Given(s', t, r, if Clears(s, s', r) then 0 else v)
    ensures t in s'.clients && s'.clients[t].pc.Idle? ==> !Clears(s, s', r) && ReturnedWith(s', t, v)
  {
    if LoopStep(s, s') {
      GivenLoop(s, s', t, r, v);
    } else if IoStep(s, s') {
      GivenIo(s, s', t, r, v);
    } else {
      var u :| ClientStep(s, s', u);
      GivenClient(s, s', t, r, v, u);
    }
  }

  /** In step `p` client `t` has prepared the event of `r`. */
  predicate Prepares(run: seq<State>, p: nat, t: nat, r: Ref) {
    && p + 1 < |run| && t in run[p].clients && t in run[p + 1].clients
    && run[p].clients[t].pc.Prepare? && run[p].clients[t].ref == r && run[p + 1].clients[t].pc.CountCancel?
  }

  lemma MovedByItself(s: State, s': State, t: nat)
    requires Next(s, s') && t in s.clients && t in s'.clients
    requires s.clients[t].pc.Prepare? && s'.clients[t].pc.CountCancel?
    ensures CancelCallStep(s, s', t)
  {
    if LoopStep(s, s') {
    } else if IoStep(s, s') {
    } else {
      var u :| ClientStep(s, s', u);
      assert s'.clients == s.clients[u := s'.clients[u]];
    }
  }

  lemma PrepareStep(s: State, s': State, t: nat)
    requires CancelLock.Locked(s) && Next(s, s') && t in s.clients && t in s'.clients
    requires s.clients[t].pc.Prepare? && s'.clients[t].pc.CountCancel?
    ensures s'.cancel.hold == Taken(t, s.clients[t].ref) && s.clients[t].ref in s'.cancel.handles
  {
    MovedByItself(s, s', t);
    assert CancelLock.ClientShape(s.cancel, t, s.clients[t]);
  }

  /** From there on, and before state `n`, the client is in its call and no other call names its aiocb. */
  ghost predicate OwnCall(run: seq<State>, p: nat, n: nat, t: nat, r: Ref) {
    n <= |run| && forall i :: p < i < n ==> InOwnCall(run[i], t, r)
  }

  /** Not served so far, and the block shows whether it was cleared. */
  ghost predicate NotYet(run: seq<State>, p: nat, n: nat, t: nat, r: Ref) {
    && n < |run| && Unserved(run[n], t, r) && (forall m :: p < m < n ==> !ServesAt(run, m, t, r))
    && var k := run[n].cancel;
    if Cleared(run, p + 1, n, r) then r !in k.handles && r in k.verdicts && k.verdicts[r] == 0 else r in k.handles
  }

  /** What the aiocb shows in state `n` when its request was served in step `m`. */
  ghost function Shown(run: seq<State>, m: nat, n: nat, t: nat, r: Ref): int
    requires ServesAt(run, m, t, r)
  {
    if Cleared(run, m + 1, n, r) then 0 else run[m + 1].cancel.verdicts[r]
  }

  lemma UnservedAt(run: seq<State>, n: nat, t: nat, r: Ref)
    requires Run(run) && n + 1 < |run| && InCall(run[n], t, r) && Unserved(run[n], t, r)
    ensures Serves(run[n], run[n + 1], t, r) || (Unserved(run[n + 1], t, r) && BlockKept(run[n], run[n + 1], r))
    ensures t in run[n + 1].clients && run[n + 1].clients[t].pc.Idle? ==>
              !Serves(run[n], run[n + 1], t, r) && Unanswered(run[n], run[n + 1], t, r)
  {
    LockedRun(run, n);
    assert NextAt(run, n);
    UnservedStep(run[n], run[n + 1], t, r);
  }

  lemma NotYetNext(run: seq<State>, p: nat, n: nat, t: nat, r: Ref)
    requires Run(run) && p < n && n + 1 < |run| && InCall(run[n], t, r) && NotYet(run, p, n, t, r)
    ensures NotYet(run, p, n + 1, t, r) || ServesAt(run, n, t, r)
    ensures t in run[n + 1].clients && run[n + 1].clients[t].pc.Idle? ==>
              Cleared(run, p + 1, n, r) && ReturnedWith(run[n + 1], t, 0) && !ServesAt(run, n, t, r)
  {
    UnservedAt(run, n, t, r);
    ClearedTo(run, p + 1, n, r);
    assert ServesAt(run, n, t, r) <==> Serves(run[n], run[n + 1], t, r);
  }

  lemma GivenOn(run: seq<State>, n: nat, t: nat, r: Ref, v: int)
    requires Run(run) && n + 1 < |run| && InOwnCall(run[n], t, r) && Given(run[n], t, r, v)
    ensures InOwnCall(run[n + 1], t, r) ==> Given(run[n + 1], t, r, if Clears(run[n], run[n + 1], r) then 0 else v)
    ensures t in run[n + 1].clients && run[n + 1].clients[t].pc.Idle? ==>
              !Clears(run[n], run[n + 1], r) && ReturnedWith(run[n + 1], t, v)
  {
    LockedRun(run, n);
    assert NextAt(run, n);
    GivenStep(run[n], run[n + 1], t, r, v);
  }

  lemma {:induction false} GivenFrom(run: seq<State>, m: nat, n: nat, t: nat, r: Ref)
    requires Run(run) && m < n < |run| && ServesAt(run, m, t, r) && OwnCall(run, m, n + 1, t, r)
    ensures Given(run[n], t, r, Shown(run, m, n, t, r))
    decreases n
  {
    assert InOwnCall(run[n], t, r);
    if m + 1 < n {
      assert InOwnCall(run[n - 1], t, r);
      GivenFrom(run, m, n - 1, t, r);
      GivenOn(run, n - 1, t, r, Shown(run, m, n - 1, t, r));
      ClearedTo(run, m + 1, n - 1, r);
    }
  }

  /**
   A call whose request was served in step `m` returns the verdict written there
   if and only if the aiocb was not submitted between, or the verdict is the 0
   that a submission leaves, which is CANCELED.
   */
  lemma VerdictIffNotCleared(run: seq<State>, m: nat, n: nat, t: nat, r: Ref)
    requires Run(run) && m + 1 < n < |run| && ServesAt(run, m, t, r) && OwnCall(run, m, n, t, r)
    requires t in run[n].clients && run[n].clients[t].pc.Idle?
    ensures ReturnedWith(run[n], t, Shown(run, m, n, t, r))
    ensures var v := run[m + 1].cancel.verdicts[r];
            ReturnedWith(run[n], t, v) <==> !Cleared(run, m + 1, n, r) || v == 0
  {
    assert InOwnCall(run[n - 1], t, r);
    GivenFrom(run, m, n - 1, t, r);
    GivenOn(run, n - 1, t, r, Shown(run, m, n - 1, t, r));
    ClearedTo(run, m + 1, n - 1, r);
  }

  lemma PrepareAt(run: seq<State>, p: nat, t: nat, r: Ref)
    requires Run(run) && Prepares(run, p, t, r)
    ensures NotYet(run, p, p + 1, t, r)
  {
    LockedRun(run, p);
    assert NextAt(run, p);
    PrepareStep(run[p], run[p + 1], t);
  }

  lemma {:induction false} InTheCall(run: seq<State>, p: nat, n: nat, t: nat, r: Ref)
    requires Run(run) && p < n < |run| && Prepares(run, p, t, r) && OwnCall(run, p, n + 1, t, r)
    ensures NotYet(run, p, n, t, r) || exists m :: p < m < n && ServesAt(run, m, t, r)
    decreases n
  {
    if n == p + 1 {
      PrepareAt(run, p, t, r);
    } else {
      assert InOwnCall(run[n - 1], t, r);
      InTheCall(run, p, n - 1, t, r);
      if NotYet(run, p, n - 1, t, r) {
        NotYetNext(run, p, n - 1, t, r);
      }
    }
  }

  /**
   What a caller returns, exactly, when no other call names its aiocb: the
   verdict the loop wrote when it served this request; or 0, which reads
   CANCELED, when the aiocb was submitted after that; or 0, before the request
   was served at all, when it was submitted between the preparation and the wait.
   Without such a submission it is always the verdict of this request.
   */
  lemma CallerGetsItsAnswer(run: seq<State>, p: nat, n: nat, t: nat, r: Ref)
    requires Run(run) && Prepares(run, p, t, r) && p + 1 < n < |run| && OwnCall(run, p, n, t, r)
    requires t in run[n].clients && run[n].clients[t].pc.Idle?
    ensures || (exists m :: p < m < n && ServesAt(run, m, t, r) && ReturnedWith(run[n], t, Shown(run, m, n, t, r)))
            || (&& Cleared(run, p + 1, n, r) && ReturnedWith(run[n], t, 0)
                && forall m :: p < m < n ==> !ServesAt(run, m, t, r))
    ensures !Cleared(run, p + 1, n, r) ==>
              exists m :: p < m < n && ServesAt(run, m, t, r) && ReturnedWith(run[n], t, run[m + 1].cancel.verdicts[r])
  {
    assert InOwnCall(run[n - 1], t, r);
    InTheCall(run, p, n - 1, t, r);
    if NotYet(run, p, n - 1, t, r) {
      NotYetNext(run, p, n - 1, t, r);
    } else {
      var m :| p < m < n - 1 && ServesAt(run, m, t, r);
      VerdictIffNotCleared(run, m, n, t, r);
    }
  }

  lemma OwnStack(run: seq<State>, i: nat, t: nat)
    requires Run(run) && i < |run| && InCall(run[i], t, Local(t))
    ensures InOwnCall(run[i], t, Local(t))
  {
    LockedRun(run, i);
    CancelLock.StackAiocbIsAlone(run[i], t);
  }

  /** For a caller that cancels everything, with the aiocb on its stack, there is no proviso. */
  lemma StackCallerGetsItsAnswer(run: seq<State>, p: nat, n: nat, t: nat)
    requires Run(run) && Prepares(run, p, t, Local(t)) && p + 1 < n < |run|
    requires forall i :: p < i < n ==> InCall(run[i], t, Local(t))
    requires t in run[n].clients && run[n].clients[t].pc.Idle?
    ensures exists m :: p < m < n && ServesAt(run, m, t, Local(t))
                        && ReturnedWith(run[n], t, run[m + 1].cancel.verdicts[Local(t)])
  {
    forall i | p < i < n ensures InOwnCall(run[i], t, Local(t)) {
      OwnStack(run, i, t);
    }
    CallerGetsItsAnswer(run, p, n, t, Local(t));
  }

  // ----- a caller that is never woken -----

  /** The call of `t` holds the lock with its event prepared, and the loop has not woken it. */
  predicate Pending(s: State, t: nat, r: Ref) {
    || (s.cancel.hold == Taken(t, r) && t in s.clients && s.clients[t].pc.CountCancel?)
    || s.cancel.hold == Asked(t, r)
  }

  /** It waits on an event that no aiocb has any more. */
  ghost predicate Stranded(s: State, t: nat, h: nat) {
    && t in s.clients && s.clients[t].pc == Blocked(h)
    && h < s.cancel.created && h !in s.cancel.woken
    && forall r :: r in s.cancel.handles ==> s.cancel.handles[r] != h
  }

  lemma PendingClient(s: State, s': State, t: nat, r: Ref, u: nat)
    requires CancelLock.Locked(s) && ClientStep(s, s', u) && Pending(s, t, r) && Pending(s', t, r)
    ensures r in s'.cancel.handles <==> r in s.cancel.handles && !Clears(s, s', r)
  {
    if SubmitStep(s, s', u) {
      CancelLock.SubmitElsewhere(s, s', u);
      ClearsIff(s, s', u, r);
    } else if CancelCallStep(s, s', u) || EnterCancel(s, s', u) {
      assert u in s.clients && CancelLock.ClientShape(s.cancel, u, s.clients[u]);
    }
  }

  lemma PendingLoop(s: State, s': State, r: Ref)
    requires LoopStep(s, s')
    ensures s'.cancel.handles == s.cancel.handles && !Clears(s, s', r)
  {
  }

  lemma PendingStep(s: State, s': State, t: nat, r: Ref)
    requires CancelLock.Locked(s) && Next(s, s') && Pending(s, t, r) && Pending(s', t, r)
    ensures r in s'.cancel.handles <==> r in s.cancel.handles && !Clears(s, s', r)
  {
    if LoopStep(s, s') {
      PendingLoop(s, s', r);
    } else if IoStep(s, s') {
    } else {
      var u :| ClientStep(s, s', u);
      PendingClient(s, s', t, r, u);
    }
  }

  lemma PendingAt(run: seq<State>, n: nat, t: nat, r: Ref)
    requires Run(run) && n + 1 < |run| && Pending(run[n], t, r) && Pending(run[n + 1], t, r)
    ensures r in run[n + 1].cancel.handles <==> r in run[n].cancel.handles && !Clears(run[n], run[n + 1], r)
  {
    LockedRun(run, n);
    assert NextAt(run, n);
    PendingStep(run[n], run[n + 1], t, r);
  }

  /** While a request is pending its aiocb has its event exactly as long as nobody has submitted it. */
  lemma {:induction false} EventKeptIffNotCleared(run: seq<State>, p: nat, n: nat, t: nat, r: Ref)
    requires Run(run) && Prepares(run, p, t, r) && p < n < |run|
    requires forall i :: p < i <= n ==> Pending(run[i], t, r)
    ensures r in run[n].cancel.handles <==> !Cleared(run, p + 1, n, r)
    decreases n
  {
    if n == p + 1 {
      PrepareAt(run, p, t, r);
    } else {
      EventKeptIffNotCleared(run, p, n - 1, t, r);
      ClearedTo(run, p + 1, n - 1, r);
      PendingAt(run, n - 1, t, r);
    }
  }

  lemma StrandedClient(s: State, s': State, t: nat, h: nat, u: nat)
    requires ClientStep(s, s', u) && Stranded(s, t, h)
    ensures Stranded(s', t, h)
  {
    if SubmitStep(s, s', u) {
      CancelLock.SubmitElsewhere(s, s', u);
    }
  }

  lemma StrandedStep(s: State, s': State, t: nat, h: nat)
    requires Next(s, s') && Stranded(s, t, h)
    ensures Stranded(s', t, h)
  {
    if LoopStep(s, s') {
    } else if IoStep(s, s') {
    } else {
      var u :| ClientStep(s, s', u);
      StrandedClient(s, s', t, h, u);
    }
  }

  lemma StrandedAt(run: seq<State>, n: nat, t: nat, h: nat)
    requires Run(run) && n + 1 < |run| && Stranded(run[n], t, h)
    ensures Stranded(run[n + 1], t, h)
  {
    assert NextAt(run, n);
    StrandedStep(run[n], run[n + 1], t, h);
  }

  lemma {:induction false} StrandedForever(run: seq<State>, m: nat, n: nat, t: nat, h: nat)
    requires Run(run) && m <= n < |run| && Stranded(run[m], t, h)
    ensures Stranded(run[n], t, h)
    decreases n
  {
    if m < n {
      StrandedForever(run, m, n - 1, t, h);
      StrandedAt(run, n - 1, t, h);
    }
  }

  lemma LoopMoved(s: State, s': State)
    requires Next(s, s') && s.loop.Wake? && s'.loop.ResetCancel?
    ensures LoopCancelStep(s, s')
  {
    if t :| ClientStep(s, s', t) {
      assert false;
    }
  }

  /** The loop sets the event of the aiocb it served: the event of the waiting caller, unless the aiocb lost it. */
  lemma WakesIffKept(s: State, s': State, t: nat, r: Ref, h: nat)
    requires CancelLock.Locked(s) && Next(s, s') && s.loop.Wake? && s'.loop.ResetCancel? && s.cancel.hold == Asked(t, r)
    requires t in s.clients && s.clients[t].pc == Blocked(h) && s.clients[t].ref == r
    ensures if r in s.cancel.handles then h in s'.cancel.woken else Stranded(s', t, h)
  {
    assert CancelLock.ClientShape(s.cancel, t, s.clients[t]);
    LoopMoved(s, s');
  }

  lemma WakesAt(run: seq<State>, w: nat, t: nat, r: Ref, h: nat)
    requires Run(run) && w + 1 < |run| && run[w].loop.Wake? && run[w + 1].loop.ResetCancel? && Pending(run[w], t, r)
    requires t in run[w].clients && run[w].clients[t].pc == Blocked(h) && run[w].clients[t].ref == r
    ensures if r in run[w].cancel.handles then h in run[w + 1].cancel.woken else Stranded(run[w + 1], t, h)
  {
    LockedRun(run, w);
    assert NextAt(run, w);
    WakesIffKept(run[w], run[w + 1], t, r, h);
  }

  /**
   A caller that is waiting on its event when its request has been served is
   woken in step `w` if and only if nobody has submitted its aiocb since the
   event was prepared. Otherwise it waits for ever.
   */
  lemma WokenIffNotCleared(run: seq<State>, p: nat, w: nat, n: nat, t: nat, r: Ref, h: nat)
    requires Run(run) && Prepares(run, p, t, r) && p < w < n < |run|
    requires forall i :: p < i <= w ==> Pending(run[i], t, r)
    requires run[w].loop.Wake? && run[w + 1].loop.ResetCancel?
    requires t in run[w].clients && run[w].clients[t].pc == Blocked(h) && run[w].clients[t].ref == r
    ensures h in run[w + 1].cancel.woken <==> !Cleared(run, p + 1, w, r)
    ensures Cleared(run, p + 1, w, r) ==> Stranded(run[n], t, h)
  {
    EventKeptIffNotCleared(run, p, w, t, r);
    assert Pending(run[w], t, r);
    WakesAt(run, w, t, r, h);
    if Cleared(run, p + 1, w, r) {
      StrandedForever(run, w + 1, n, t, h);
    }
  }

  // ----- the lock while the loop serves -----

  predicate InBranch(s: State) {
    s.loop.DecCancel? || CancelLock.Serving(s.loop) || CancelLock.Releasing(s.loop)
  }

  lemma OwnerAt(run: seq<State>, n: nat)
    requires Run(run) && n + 1 < |run| && InBranch(run[n]) && InBranch(run[n + 1])
    ensures run[n + 1].cancel.owner == run[n].cancel.owner && run[n].cancel.owner.Some?
  {
    LockedRun(run, n);
    assert NextAt(run, n);
    CancelLock.LockKeptWhileServed(run[n], run[n + 1]);
  }

  /** The loop releases the lock it served: from its decrement to its release the lock word stays the same. */
  lemma {:induction false} LoopReleasesWhatItServed(run: seq<State>, m: nat, n: nat)
    requires Run(run) && m < n < |run|
    requires forall i :: m <= i <= n ==> InBranch(run[i])
    ensures run[n].cancel.owner == run[m].cancel.owner && run[m].cancel.owner.Some?
    decreases n - m
  {
    if m + 1 < n {
      LoopReleasesWhatItServed(run, m, n - 1);
    }
    OwnerAt(run, n - 1);
  }
}
