/**
 The cancellation hand-off: a lock word taken by the client and released by the
 loop thread, a counter, a request event and one event per aiocb.
 */
module CancelLock {
  import opened Protocol

  /** The client holds the lock and has not yet counted its request. */
  predicate Preparing(pc: ClientPc) {
    pc.Prepare? || pc.CountCancel?
  }

  /** The client has counted its request and not yet seen the answer. */
  predicate Waiting(pc: ClientPc) {
    pc.SignalCancel? || pc.AwaitCancel? || pc.Blocked?
  }

  /** The loop has taken the request off the counter and not yet woken its caller. */
  predicate Serving(loop: LoopPc) {
    loop.Serve? || loop.Wake?
  }

  /** The loop has woken the caller and not yet released the lock. */
  predicate Releasing(loop: LoopPc) {
    loop.ResetCancel? || loop.Unlock?
  }

  /** The client is not in waio_cancel. */
  predicate Elsewhere(pc: ClientPc) {
    !pc.TryLock? && !Preparing(pc) && !Waiting(pc) && !pc.ReadVerdict?
  }

  /** What the history of the lock says of the lock, the counter and the loop. */
  predicate LockShape(cancel: CancelBlock, loop: LoopPc) {
    match cancel.hold
    case Open =>
      cancel.owner.None? && cancel.counter == 0 && !Serving(loop) && !Releasing(loop) && !loop.DecCancel?
    case Taken(_, r) =>
      cancel.owner == Some(r) && cancel.counter == 0 && !Serving(loop) && !Releasing(loop) && !loop.DecCancel?
    case Asked(_, r) =>
      && cancel.owner == Some(r) && !Releasing(loop)
      && cancel.counter == (if Serving(loop) then 0 else 1)
      && (loop.Wake? ==> r in cancel.verdicts)
    case Served(_, r) =>
      cancel.owner == Some(r) && cancel.counter == 0 && Releasing(loop) && r in cancel.verdicts
    case Leaked =>
      cancel.owner.Some? && cancel.counter == 0 && !Serving(loop) && !Releasing(loop) && !loop.DecCancel?
  }

  /** The aiocb has its event, and the event is set. */
  predicate Signalled(cancel: CancelBlock, r: Ref) {
    r in cancel.handles && cancel.handles[r] in cancel.woken
  }

  /** Every event belongs to one aiocb at most; it is set only after a verdict was written there. */
  ghost predicate EventsShape(cancel: CancelBlock) {
    && (forall r :: r in cancel.handles ==> cancel.handles[r] < cancel.created)
    && (forall h :: h in cancel.woken ==> h < cancel.created)
    && (forall r, q :: r in cancel.handles && q in cancel.handles && cancel.handles[r] == cancel.handles[q] ==> r == q)
    && (forall r :: Signalled(cancel, r) ==> r in cancel.verdicts)
  }

  /**
   What the history says of the client whose request it is. Once its aiocb has
   lost its event nothing is said: the call may be over, or wait for ever.
   */
  predicate HolderShape(cancel: CancelBlock, clients: map<nat, Client>) {
    match cancel.hold
    case Taken(t, r) => t in clients && Preparing(clients[t].pc) && clients[t].ref == r
    case Asked(t, r) =>
      && (r in cancel.handles ==> t in clients && Waiting(clients[t].pc) && clients[t].ref == r && !Signalled(cancel, r))
      && (r.Local? ==> r in cancel.handles)
    case _ => true
  }

  /** A client that waits on event `h` of its aiocb. */
  ghost predicate BlockedShape(cancel: CancelBlock, t: nat, r: Ref, h: nat) {
    && h < cancel.created
    && (forall q :: q in cancel.handles && cancel.handles[q] == h ==> q == r)
    && (h in cancel.woken ==> r in cancel.verdicts)
    && (cancel.hold == Asked(t, r) ==> h !in cancel.woken && (r in cancel.handles ==> cancel.handles[r] == h))
    && (r.Local? ==> r in cancel.handles && cancel.handles[r] == h)
  }

  /** Everything a client may be doing given that history. */
  ghost predicate ClientShape(cancel: CancelBlock, t: nat, c: Client) {
    && (Preparing(c.pc) ==> cancel.hold == Taken(t, c.ref))
    && (c.pc.CountCancel? ==> !Signalled(cancel, c.ref))
    && (c.pc.CountCancel? || Waiting(c.pc) ==> c.ref in cancel.handles || c.ref in cancel.verdicts)
    && (c.pc.ReadVerdict? ==>
          c.ref in cancel.verdicts && (cancel.hold == Asked(t, c.ref) ==> c.ref !in cancel.handles))
    && (c.pc.Blocked? ==> BlockedShape(cancel, t, c.ref, c.pc.event))
    // an aiocb on a client's own stack is named by that client alone
    && (c.ref == Local(t) && (c.pc.CountCancel? || Waiting(c.pc)) ==> c.ref in cancel.handles)
    && (c.ref == Local(t) && Waiting(c.pc) ==> cancel.hold == Asked(t, c.ref) || Signalled(cancel, c.ref))
    && (c.pc.TryLock? || Preparing(c.pc) || Waiting(c.pc) || c.pc.ReadVerdict? ==>
          c.ref.Local? ==> c.ref == Local(t))
  }

  ghost predicate Locked(s: State) {
    && LockShape(s.cancel, s.loop)
    && EventsShape(s.cancel)
    && HolderShape(s.cancel, s.clients)
    && (forall t :: t in s.clients ==> ClientShape(s.cancel, t, s.clients[t]))
  }

  lemma LockedOthers(s: State, s': State, t: nat)
    requires Locked(s) && ClientFrame(s, s', t) && s'.cancel == s.cancel
    requires !Preparing(s.clients[t].pc) && !Preparing(s'.clients[t].pc)
    requires !Waiting(s.clients[t].pc) && !Waiting(s'.clients[t].pc)
    requires ClientShape(s.cancel, t, s'.clients[t])
    ensures Locked(s')
  {
    assert ClientShape(s.cancel, t, s.clients[t]);
    forall u | u in s'.clients ensures ClientShape(s'.cancel, u, s'.clients[u]) {
      if u != t {
        assert ClientShape(s.cancel, u, s.clients[u]);
      }
    }
  }

  /** Client `t` sets the opaque block of an aiocb to 0: a user's, or its own on the stack. */
  lemma LockedZeroed(s: State, s': State, t: nat, r: Ref)
    requires Locked(s) && ClientFrame(s, s', t) && s'.cancel == Zeroed(s.cancel, r)
    requires !Preparing(s.clients[t].pc) && !Waiting(s.clients[t].pc)
    requires s'.clients[t].pc.Mark? || (s'.clients[t].pc.TryLock? && s'.clients[t].ref == r)
    requires r.Local? ==> r == Local(t)
    ensures Locked(s')
  {
    assert ClientShape(s.cancel, t, s.clients[t]);
    forall u | u in s'.clients ensures ClientShape(s'.cancel, u, s'.clients[u]) {
      if u != t {
        assert ClientShape(s.cancel, u, s.clients[u]);
      }
    }
  }

  /** The lock is tried: it is taken, or the client tries again or gives up. */
  lemma LockedTry(s: State, s': State, t: nat)
    requires Locked(s) && CancelCallStep(s, s', t) && s.clients[t].pc.TryLock?
    ensures Locked(s')
  {
    assert ClientShape(s.cancel, t, s.clients[t]);
    forall u | u in s'.clients ensures ClientShape(s'.cancel, u, s'.clients[u]) {
      if u != t {
        assert ClientShape(s.cancel, u, s.clients[u]);
      }
    }
  }

  /** Another client prepares the event of `r`. */
  lemma PreparedBesides(k: CancelBlock, k': CancelBlock, t: nat, r: Ref, u: nat, c: Client)
    requires EventsShape(k) && k.hold == Taken(t, r) && u != t && ClientShape(k, u, c)
    requires r.Local? ==> r == Local(t)
    requires k' == Prepared(k, r) || k' == k.(hold := Leaked)
    ensures ClientShape(k', u, c)
  {
  }

  lemma PreparedItself(k: CancelBlock, k': CancelBlock, t: nat, c: Client)
    requires EventsShape(k) && k.hold == Taken(t, c.ref) && k' == Prepared(k, c.ref)
    requires c.ref.Local? ==> c.ref == Local(t)
    ensures EventsShape(k') && ClientShape(k', t, c.(pc := CountCancel))
  {
  }

  lemma LockedPrepare(s: State, s': State, t: nat)
    requires Locked(s) && CancelCallStep(s, s', t) && s.clients[t].pc.Prepare?
    ensures Locked(s')
  {
    assert ClientShape(s.cancel, t, s.clients[t]);
    PreparedItself(s.cancel, Prepared(s.cancel, s.clients[t].ref), t, s.clients[t]);
    forall u | u in s'.clients ensures ClientShape(s'.cancel, u, s'.clients[u]) {
      if u != t {
        PreparedBesides(s.cancel, s'.cancel, t, s.clients[t].ref, u, s.clients[u]);
      }
    }
  }

  lemma LockedCount(s: State, s': State, t: nat)
    requires Locked(s) && CancelCallStep(s, s', t) && (s.clients[t].pc.CountCancel? || s.clients[t].pc.SignalCancel?)
    ensures Locked(s')
  {
    assert ClientShape(s.cancel, t, s.clients[t]);
    forall u | u in s'.clients ensures ClientShape(s'.cancel, u, s'.clients[u]) {
      if u != t {
        assert ClientShape(s.cancel, u, s.clients[u]);
      }
    }
  }

  /** The wait, and the read after it: nothing shared changes. */
  lemma LockedAwait(s: State, s': State, t: nat)
    requires Locked(s) && CancelCallStep(s, s', t)
    requires s.clients[t].pc.AwaitCancel? || s.clients[t].pc.Blocked? || s.clients[t].pc.ReadVerdict?
    ensures Locked(s')
  {
    assert ClientShape(s.cancel, t, s.clients[t]);
    assert s'.cancel == s.cancel;
    forall u | u in s'.clients ensures ClientShape(s'.cancel, u, s'.clients[u]) {
      if u != t {
        assert ClientShape(s.cancel, u, s.clients[u]);
      }
    }
  }

  lemma LockedCancelCall(s: State, s': State, t: nat)
    requires Locked(s) && CancelCallStep(s, s', t)
    ensures Locked(s')
  {
    match s.clients[t].pc
    case TryLock(_) => LockedTry(s, s', t);
    case Prepare => LockedPrepare(s, s', t);
    case CountCancel => LockedCount(s, s', t);
    case SignalCancel => LockedCount(s, s', t);
    case _ => LockedAwait(s, s', t);
  }

  lemma SubmitElsewhere(s: State, s': State, t: nat)
    requires SubmitStep(s, s', t)
    ensures Elsewhere(s.clients[t].pc) && Elsewhere(s'.clients[t].pc) && s'.loop == s.loop
    ensures s'.clients[t].ref == s.clients[t].ref && (s.clients[t].pc.Clear? ==> s'.clients[t].pc.Mark?)
    ensures s'.cancel == if s.clients[t].pc.Clear? then Zeroed(s.cancel, User(s.clients[t].job.aiocb)) else s.cancel
  {
  }

  lemma LockedSubmit(s: State, s': State, t: nat)
    requires Locked(s) && SubmitStep(s, s', t)
    ensures Locked(s')
  {
    SubmitElsewhere(s, s', t);
    if s.clients[t].pc.Clear? {
      LockedZeroed(s, s', t, User(s.clients[t].job.aiocb));
    } else {
      LockedOthers(s, s', t);
    }
  }

  lemma LockedEnter(s: State, s': State, t: nat)
    requires Locked(s) && (EnterSubmit(s, s', t) || EnterCancel(s, s', t) || EnterFree(s, s', t))
    ensures Locked(s')
  {
    assert ClientShape(s.cancel, t, s.clients[t]);
    if EnterCancel(s, s', t) && s'.clients[t].ref.Local? {
      LockedZeroed(s, s', t, Local(t));
    } else {
      LockedOthers(s, s', t);
    }
  }

  lemma LockedClient(s: State, s': State, t: nat)
    requires Locked(s) && ClientStep(s, s', t)
    ensures Locked(s')
  {
    if CancelCallStep(s, s', t) {
      LockedCancelCall(s, s', t);
    } else if SubmitStep(s, s', t) {
      LockedSubmit(s, s', t);
    } else if FreeStep(s, s', t) {
      LockedOthers(s, s', t);
    } else {
      LockedEnter(s, s', t);
    }
  }

  /** The verdict is written: it counts for nobody before the event is set. */
  lemma LockedVerdict(s: State, s': State)
    requires Locked(s) && LoopCancelStep(s, s') && s.loop.Serve?
    ensures Locked(s')
  {
    forall u | u in s'.clients ensures ClientShape(s'.cancel, u, s'.clients[u]) {
      assert ClientShape(s.cancel, u, s.clients[u]);
    }
  }

  /** The counter, the request event or the lock changes: no aiocb does. */
  lemma LockedServe(s: State, s': State)
    requires Locked(s) && LoopCancelStep(s, s') && !s.loop.Wake? && !s.loop.Serve?
    ensures Locked(s')
  {
    forall u | u in s'.clients ensures ClientShape(s'.cancel, u, s'.clients[u]) {
      assert ClientShape(s.cancel, u, s.clients[u]);
    }
  }

  lemma WokenBesides(k: CancelBlock, k': CancelBlock, t: nat, r: Ref, u: nat, c: Client)
    requires EventsShape(k) && k.hold == Asked(t, r) && r in k.verdicts && ClientShape(k, u, c)
    requires k' == EventSet(k, r).(hold := Served(t, r))
    ensures ClientShape(k', u, c)
  {
  }

  lemma LockedWake(s: State, s': State)
    requires Locked(s) && LoopCancelStep(s, s') && s.loop.Wake?
    ensures Locked(s')
  {
    forall u | u in s'.clients ensures ClientShape(s'.cancel, u, s'.clients[u]) {
      WokenBesides(s.cancel, s'.cancel, s.cancel.hold.tid, s.cancel.hold.ref, u, s.clients[u]);
    }
  }

  lemma LockedLoop(s: State, s': State)
    requires Locked(s) && LoopStep(s, s')
    ensures Locked(s')
  {
    if LoopCancelStep(s, s') {
      if s.loop.Wake? {
        LockedWake(s, s');
      } else if s.loop.Serve? {
        LockedVerdict(s, s');
      } else {
        LockedServe(s, s');
      }
    } else {
      assert s'.cancel == s.cancel && s'.clients == s.clients;
      assert LockShape(s'.cancel, s'.loop);
    }
  }

  // ----- what the hand-off guarantees -----

  /** At most one request at a time; the counter only moves under the lock. */
  lemma OneCancelAtATime(s: State)
    requires Locked(s)
    ensures 0 <= s.cancel.counter <= 1
    ensures s.cancel.counter != 0 ==> s.cancel.owner.Some?
    ensures forall t, u ::
              t in s.clients && u in s.clients && Preparing(s.clients[t].pc) && Preparing(s.clients[u].pc) ==>
                t == u
    ensures (exists t :: t in s.clients && Preparing(s.clients[t].pc)) ==>
              s.cancel.owner.Some? && s.cancel.counter == 0 && !Serving(s.loop) && !Releasing(s.loop)
  {
    forall t | t in s.clients ensures ClientShape(s.cancel, t, s.clients[t]) {
    }
  }

  /**
   While the loop serves, the lock word names the aiocb of a client that is
   still inside its call, so an aiocb on that client's stack is alive. A user's
   aiocb may have been submitted again since; then it has lost its event.
   */
  lemma ServedAiocbIsAlive(s: State)
    requires Locked(s) && Serving(s.loop)
    ensures s.cancel.owner.Some?
    ensures var r := s.cancel.owner.value;
            && (r.Local? ==> r in s.cancel.handles)
            && (r in s.cancel.handles ==>
                  exists t :: t in s.clients && Waiting(s.clients[t].pc) && s.clients[t].ref == r
                              && (r.Local? ==> r == Local(t)) && !Signalled(s.cancel, r))
  {
    if s.cancel.owner.value in s.cancel.handles {
      var t := s.cancel.hold.tid;
      assert ClientShape(s.cancel, t, s.clients[t]);
    }
  }

  lemma TakenByClient(s: State, s': State, t: nat)
    requires Locked(s) && ClientStep(s, s', t) && s.cancel.owner.Some?
    ensures s'.cancel.owner == s.cancel.owner && s'.loop == s.loop
    ensures s.cancel.hold.Leaked? ==> s'.cancel.hold.Leaked?
  {
    if CancelCallStep(s, s', t) {
      assert ClientShape(s.cancel, t, s.clients[t]);
    }
  }

  /** From the decrement to the release nobody changes the lock word: the loop releases what it served. */
  lemma LockKeptWhileServed(s: State, s': State)
    requires Locked(s) && Next(s, s')
    requires s.loop.DecCancel? || Serving(s.loop) || Releasing(s.loop)
    ensures s'.cancel.owner == if s.loop.Unlock? && s'.loop != s.loop then None else s.cancel.owner
    ensures s.cancel.owner.Some?
  {
    if LoopStep(s, s') {
    } else if IoStep(s, s') {
    } else {
      var t :| ClientStep(s, s', t);
      TakenByClient(s, s', t);
    }
  }

  /** `t` is the only client whose call names its aiocb. */
  ghost predicate Alone(s: State, t: nat)
    requires t in s.clients
  {
    forall u :: u in s.clients && u != t && (Preparing(s.clients[u].pc) || Waiting(s.clients[u].pc)) ==>
                  s.clients[u].ref != s.clients[t].ref
  }

  /** A caller that cancels everything is alone with the aiocb on its stack. */
  lemma StackAiocbIsAlone(s: State, t: nat)
    requires Locked(s) && t in s.clients && s.clients[t].ref == Local(t)
    ensures Alone(s, t)
  {
    forall u | u in s.clients && u != t && (Preparing(s.clients[u].pc) || Waiting(s.clients[u].pc))
      ensures s.clients[u].ref != s.clients[t].ref
    {
      assert ClientShape(s.cancel, u, s.clients[u]);
    }
  }

  /**
   When the event of the call cannot be created or reset, waio_cancel returns
   without releasing the lock, and then nobody ever gets it again.
   */
  lemma FailedPreparationKeepsLock(s: State, s': State)
    requires Locked(s) && Next(s, s') && s.cancel.hold.Leaked?
    ensures s'.cancel.hold.Leaked? && s'.cancel.owner == s.cancel.owner && s.cancel.owner.Some?
    ensures forall t :: t in s'.clients ==> !Preparing(s'.clients[t].pc)
    ensures s'.cancel.counter == 0
  {
    if LoopStep(s, s') {
      LockedLoop(s, s');
    } else if IoStep(s, s') {
    } else {
      var t :| ClientStep(s, s', t);
      LockedClient(s, s', t);
      TakenByClient(s, s', t);
    }
    forall t | t in s'.clients ensures !Preparing(s'.clients[t].pc) {
      assert ClientShape(s'.cancel, t, s'.clients[t]);
    }
  }
}
