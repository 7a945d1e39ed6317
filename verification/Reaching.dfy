/**
 Building runs step by step. A lemma about one kind of step speaks of any set of
 states that this kind of step does not leave; the reachable states are one.
 */
module Reaching {
  import opened AiocbStatus
  import opened Protocol
  import opened PoolRefinement
  import Ownership
  import EndToEnd
  import Progress

  /** What the clients wait for before they submit: nothing, or SUCCESS on every earlier request. */
  datatype Discipline = Freely | AfterSuccess

  /** Every request submitted so far shows a terminal status, and nobody is submitting. */
  ghost predicate Seen(s: State) {
    && (forall k :: 0 <= k < |s.log.submitted| ==> Terminal(GetAio(s.aio, s.log.submitted[k].aiocb).qstatus))
    && (forall t :: t in s.clients ==> !EndToEnd.Submitting(s.clients[t].pc))
  }

  ghost predicate ClientBy(d: Discipline, s: State, s': State, t: nat) {
    || SubmitStep(s, s', t) || CancelCallStep(s, s', t) || FreeStep(s, s', t)
    || EnterCancel(s, s', t) || EnterFree(s, s', t)
    || ((d.Freely? || Seen(s)) && EnterSubmit(s, s', t))
  }

  ghost predicate NextBy(d: Discipline, s: State, s': State) {
    (exists t :: ClientBy(d, s, s', t)) || LoopStep(s, s') || IoStep(s, s')
  }

  ghost predicate NextByAt(d: Discipline, run: seq<State>, i: nat) {
    i + 1 < |run| && NextBy(d, run[i], run[i + 1])
  }

  /** A run in which the clients keep the discipline. */
  ghost predicate RunBy(d: Discipline, run: seq<State>) {
    |run| > 0 && Init(run[0]) && forall i :: 0 <= i < |run| - 1 ==> NextByAt(d, run, i)
  }

  lemma NextByIsNext(d: Discipline, s: State, s': State)
    requires NextBy(d, s, s')
    ensures Next(s, s')
  {
    if t :| ClientBy(d, s, s', t) {
      assert ClientStep(s, s', t);
    }
  }

  /** Each state of the run follows from the one before by `next`. */
  ghost predicate Linked(next: (State, State) -> bool, run: seq<State>) {
    forall i, j :: 0 <= i < |run| && j == i + 1 < |run| ==> next(run[i], run[j])
  }

  /** One step of a run, or none. */
  datatype Hop = Anywhere | Hop(from: State, to: State)

  predicate HopAt(run: seq<State>, hop: Hop, m: nat) {
    hop.Anywhere? || (m + 1 < |run| && run[m] == hop.from && run[m + 1] == hop.to)
  }

  lemma LongerLinked(next: (State, State) -> bool, run: seq<State>, s: State)
    requires Linked(next, run) && |run| > 0 && next(run[|run| - 1], s)
    ensures Linked(next, run + [s])
  {
  }

  /** The run ends in `s` and takes the step `hop`. */
  ghost predicate EndsIn(d: Discipline, hop: Hop, run: seq<State>, s: State) {
    && |run| > 0 && Init(run[0]) && run[|run| - 1] == s && Linked((a, b) => NextBy(d, a, b), run)
    && exists m :: HopAt(run, hop, m)
  }

  ghost predicate Reachable(d: Discipline, hop: Hop, s: State) {
    exists run :: EndsIn(d, hop, run, s)
  }

  lemma Step(d: Discipline, hop: Hop, s: State, s': State)
    requires Reachable(d, hop, s) && NextBy(d, s, s')
    ensures Reachable(d, hop, s')
  {
    var run :| EndsIn(d, hop, run, s);
    var m :| HopAt(run, hop, m);
    assert HopAt(run + [s'], hop, m);
    LongerLinked((a, b) => NextBy(d, a, b), run, s');
    assert EndsIn(d, hop, run + [s'], s');
  }

  lemma HopTo(d: Discipline, s: State, s': State)
    requires Reachable(d, Anywhere, s) && NextBy(d, s, s')
    ensures Reachable(d, Hop(s, s'), s')
  {
    var run :| EndsIn(d, Anywhere, run, s);
    assert HopAt(run + [s'], Hop(s, s'), |run| - 1);
    LongerLinked((a, b) => NextBy(d, a, b), run, s');
    assert EndsIn(d, Hop(s, s'), run + [s'], s');
  }

  lemma StartTo(d: Discipline, s: State)
    requires Init(s)
    ensures Reachable(d, Anywhere, s)
  {
    assert HopAt([s], Anywhere, 0);
    assert EndsIn(d, Anywhere, [s], s);
  }

  // ----- sets of states that a kind of step does not leave -----

  ghost predicate SubmitKeeps(R: State -> bool) {
    forall a, b, t :: R(a) && SubmitStep(a, b, t) ==> R(b)
  }

  ghost predicate EnterKeeps(d: Discipline, R: State -> bool) {
    forall a, b, t :: R(a) && (d.Freely? || Seen(a)) && EnterSubmit(a, b, t) ==> R(b)
  }

  ghost predicate CancelCallKeeps(R: State -> bool) {
    forall a, b, t :: R(a) && CancelCallStep(a, b, t) ==> R(b)
  }

  ghost predicate EnterCancelKeeps(R: State -> bool) {
    forall a, b, t :: R(a) && EnterCancel(a, b, t) ==> R(b)
  }

  ghost predicate FreeKeeps(R: State -> bool) {
    forall a, b, t :: R(a) && (FreeStep(a, b, t) || EnterFree(a, b, t)) ==> R(b)
  }

  ghost predicate WaitKeeps(R: State -> bool) {
    forall a, b :: R(a) && LoopWaitStep(a, b) ==> R(b)
  }

  ghost predicate CancelKeeps(R: State -> bool) {
    forall a, b :: R(a) && LoopCancelStep(a, b) ==> R(b)
  }

  ghost predicate AckKeeps(R: State -> bool) {
    forall a, b :: R(a) && LoopAckStep(a, b) ==> R(b)
  }

  ghost predicate DequeueKeeps(R: State -> bool) {
    forall a, b :: R(a) && LoopDequeueStep(a, b) ==> R(b)
  }

  ghost predicate QueueKeeps(R: State -> bool) {
    forall a, b :: R(a) && LoopQueueStep(a, b) ==> R(b)
  }

  ghost predicate BeginKeeps(R: State -> bool) {
    forall a, b :: R(a) && IoBeginStep(a, b) ==> R(b)
  }

  ghost predicate CallKeeps(R: State -> bool) {
    forall a, b :: R(a) && IoCallStep(a, b) ==> R(b)
  }

  ghost predicate HookKeeps(R: State -> bool) {
    forall a, b :: R(a) && IoHookStep(a, b) ==> R(b)
  }

  ghost predicate CompleteKeeps(R: State -> bool) {
    forall a, b :: R(a) && IoCompleteStep(a, b) ==> R(b)
  }

  /** A set of states that no step leaves while the clients keep the discipline. */
  ghost predicate Kept(d: Discipline, R: State -> bool) {
    && SubmitKeeps(R) && EnterKeeps(d, R) && CancelCallKeeps(R) && EnterCancelKeeps(R) && FreeKeeps(R)
    && WaitKeeps(R) && CancelKeeps(R) && AckKeeps(R) && DequeueKeeps(R) && QueueKeeps(R)
    && BeginKeeps(R) && CallKeeps(R) && HookKeeps(R) && CompleteKeeps(R)
  }

  /** And the initial states are among them. */
  ghost predicate Closed(d: Discipline, R: State -> bool) {
    (forall s :: Init(s) ==> R(s)) && Kept(d, R)
  }

  /** The states reachable through a given step are such a set. */
  ghost function By(d: Discipline, hop: Hop := Anywhere): State -> bool {
    s => Reachable(d, hop, s)
  }

  /** And each of them ends a run of the protocol that takes the step. */
  lemma RunThrough(d: Discipline, hop: Hop, s: State) returns (run: seq<State>, m: nat)
    requires By(d, hop)(s)
    ensures RunBy(d, run) && Run(run) && run[|run| - 1] == s && HopAt(run, hop, m)
  {
    assert Reachable(d, hop, s);
    run :| EndsIn(d, hop, run, s);
    m :| HopAt(run, hop, m);
    forall i | 0 <= i < |run| - 1 ensures NextByAt(d, run, i) && NextAt(run, i) {
      NextByIsNext(d, run[i], run[i + 1]);
    }
  }

  lemma RunTo(d: Discipline, s: State) returns (run: seq<State>)
    requires By(d)(s)
    ensures RunBy(d, run) && Run(run) && run[|run| - 1] == s
  {
    var m;
    run, m := RunThrough(d, Anywhere, s);
  }

  lemma KeptByWaits(d: Discipline, hop: Hop)
    ensures WaitKeeps(By(d, hop)) && CancelKeeps(By(d, hop))
  {
    forall a, b | By(d, hop)(a) && LoopWaitStep(a, b) ensures By(d, hop)(b) {
      Step(d, hop, a, b);
    }
    forall a, b | By(d, hop)(a) && LoopCancelStep(a, b) ensures By(d, hop)(b) {
      Step(d, hop, a, b);
    }
  }

  lemma KeptByAcks(d: Discipline, hop: Hop)
    ensures AckKeeps(By(d, hop)) && DequeueKeeps(By(d, hop)) && QueueKeeps(By(d, hop))
  {
    forall a, b | By(d, hop)(a) && LoopAckStep(a, b) ensures By(d, hop)(b) {
      Step(d, hop, a, b);
    }
    forall a, b | By(d, hop)(a) && LoopDequeueStep(a, b) ensures By(d, hop)(b) {
      Step(d, hop, a, b);
    }
    forall a, b | By(d, hop)(a) && LoopQueueStep(a, b) ensures By(d, hop)(b) {
      Step(d, hop, a, b);
    }
  }

  lemma KeptByIo(d: Discipline, hop: Hop)
    ensures BeginKeeps(By(d, hop)) && CallKeeps(By(d, hop))
  {
    forall a, b | By(d, hop)(a) && IoBeginStep(a, b) ensures By(d, hop)(b) {
      Step(d, hop, a, b);
    }
    forall a, b | By(d, hop)(a) && IoCallStep(a, b) ensures By(d, hop)(b) {
      Step(d, hop, a, b);
    }
  }

  lemma KeptByHook(d: Discipline, hop: Hop)
    ensures HookKeeps(By(d, hop)) && CompleteKeeps(By(d, hop))
  {
    forall a, b | By(d, hop)(a) && IoHookStep(a, b) ensures By(d, hop)(b) {
      Step(d, hop, a, b);
    }
    forall a, b | By(d, hop)(a) && IoCompleteStep(a, b) ensures By(d, hop)(b) {
      Step(d, hop, a, b);
    }
  }

  lemma KeptBySubmits(d: Discipline, hop: Hop)
    ensures SubmitKeeps(By(d, hop)) && EnterKeeps(d, By(d, hop))
  {
    forall a, b, t | By(d, hop)(a) && SubmitStep(a, b, t) ensures By(d, hop)(b) {
      assert ClientBy(d, a, b, t);
      Step(d, hop, a, b);
    }
    forall a, b, t | By(d, hop)(a) && (d.Freely? || Seen(a)) && EnterSubmit(a, b, t) ensures By(d, hop)(b) {
      assert ClientBy(d, a, b, t);
      Step(d, hop, a, b);
    }
  }

  lemma KeptByCancels(d: Discipline, hop: Hop)
    ensures CancelCallKeeps(By(d, hop)) && EnterCancelKeeps(By(d, hop))
  {
    forall a, b, t | By(d, hop)(a) && CancelCallStep(a, b, t) ensures By(d, hop)(b) {
      assert ClientBy(d, a, b, t);
      Step(d, hop, a, b);
    }
    forall a, b, t | By(d, hop)(a) && EnterCancel(a, b, t) ensures By(d, hop)(b) {
      assert ClientBy(d, a, b, t);
      Step(d, hop, a, b);
    }
  }

  lemma KeptByFrees(d: Discipline, hop: Hop)
    ensures FreeKeeps(By(d, hop))
  {
    forall a, b, t | By(d, hop)(a) && (FreeStep(a, b, t) || EnterFree(a, b, t)) ensures By(d, hop)(b) {
      assert ClientBy(d, a, b, t);
      Step(d, hop, a, b);
    }
  }

  lemma KeptBy(d: Discipline, hop: Hop)
    ensures Kept(d, By(d, hop))
  {
    KeptByWaits(d, hop);
    KeptByAcks(d, hop);
    KeptByIo(d, hop);
    KeptByHook(d, hop);
    KeptBySubmits(d, hop);
    KeptByCancels(d, hop);
    KeptByFrees(d, hop);
  }

  lemma ClosedBy(d: Discipline)
    ensures Closed(d, By(d))
  {
    forall s | Init(s) ensures By(d)(s) {
      StartTo(d, s);
    }
    KeptBy(d, Anywhere);
  }

  // ----- a submission -----

  /** What one client changes while it submits through slot `i`. */
  function Written(s: State, t: nat, i: nat, c: Client, x: Slot, aio: map<nat, Aio>): State
    requires i < |s.slots|
  {
    s.(slots := s.slots[i := x], clients := s.clients[t := c], aio := aio)
  }

  /** The six fields, from the `k`-th on. */
  lemma {:induction false} FillAll(R: State -> bool, s: State, t: nat, i: nat, c: Client, x: Slot, k: nat)
    requires SubmitKeeps(R)
    requires i < |s.slots| && t in s.clients && k < 6 && c.pc == Fill(i, k)
    requires Ownership.FilledTo(x.data, c.job, k)
    requires R(Written(s, t, i, c, x, s.aio))
    ensures R(Written(s, t, i, c.(pc := Clear(i)), x.(data := c.job), s.aio))
    decreases 6 - k
  {
    var c' := c.(pc := if k < 5 then Fill(i, k + 1) else Clear(i));
    assert SubmitStep(Written(s, t, i, c, x, s.aio),
                      Written(s, t, i, c', x.(data := FillField(x.data, c.job, k)), s.aio), t);
    var x' := x.(data := FillField(x.data, c.job, k));
    if k < 5 {
      FillAll(R, s, t, i, c.(pc := Fill(i, k + 1)), x', k + 1);
    } else {
      assert x' == x.(data := c.job);
    }
  }

  /** The aiocb is cleared and marked, the slot is published. */
  function Published(s: State, t: nat, i: nat, c: Client): State
    requires i < |s.slots|
  {
    var aio := s.aio[c.job.aiocb := ZERO_AIO];
    Written(s, t, i, c.(pc := Count(i)), Slot(c.pid, t, c.job, c.job, true),
            aio[c.job.aiocb := ZERO_AIO.(qstatus := Wait1)])
      .(cancel := Zeroed(s.cancel, User(c.job.aiocb)), log := s.log.(submitted := s.log.submitted + [c.job]))
  }

  lemma Publishes(s: State, t: nat, i: nat, c: Client, x: Slot, aio: map<nat, Aio>)
    requires i < |s.slots| && t in s.clients && c.pc == Publish(i)
    ensures var log := s.log.(submitted := s.log.submitted + [c.job]);
            SubmitStep(Written(s, t, i, c, x, aio),
                       Written(s, t, i, c.(pc := Count(i)), x.(pid := c.pid), aio).(log := log), t)
  {
  }

  lemma PublishTo(R: State -> bool, s: State, t: nat, i: nat, c: Client, x: Slot)
    requires SubmitKeeps(R)
    requires i < |s.slots| && t in s.clients && c.pc == Clear(i)
    requires x == Slot(0, t, c.job, c.job, false) && R(Written(s, t, i, c, x, s.aio))
    ensures R(Published(s, t, i, c))
  {
    var aio := s.aio[c.job.aiocb := ZERO_AIO];
    var aio' := aio[c.job.aiocb := ZERO_AIO.(qstatus := Wait1)];
    var z := s.(cancel := Zeroed(s.cancel, User(c.job.aiocb)));
    var s1, s2, s3 := Written(s, t, i, c, x, s.aio), Written(z, t, i, c.(pc := Mark(i)), x, aio),
                      Written(z, t, i, c.(pc := Publish(i)), x.(marked := true), aio');
    assert SubmitStep(s1, s2, t);
    assert SubmitStep(s2, s3, t);
    Publishes(z, t, i, c.(pc := Publish(i)), x.(marked := true), aio');
  }

  /** A client that has entered finds slot 0 taken. */
  lemma NextSlotTo(R: State -> bool, s: State, t: nat, c: Client)
    requires SubmitKeeps(R) && R(s.(clients := s.clients[t := c])) && c.pc == Reserve(0, 0)
    requires t in s.clients && |s.slots| == SLOT_COUNT && s.slots[0].tid != 0
    ensures R(s.(clients := s.clients[t := c.(pc := Reserve(1, 0))]))
  {
    var s1, s2 := s.(clients := s.clients[t := c]), s.(clients := s.clients[t := c.(pc := Reserve(1, 0))]);
    assert s2.clients == s1.clients[t := s2.clients[t]];
    assert SubmitStep(s1, s2, t);
  }

  lemma ReserveIt(R: State -> bool, s: State, t: nat, i: nat, c: Client)
    requires SubmitKeeps(R) && R(s.(clients := s.clients[t := c])) && c.pc == Reserve(i, 0)
    requires t in s.clients && i < |s.slots| && s.slots[i].tid == 0 && s.slots[i].pid == 0
    ensures R(Written(s, t, i, c.(pc := Fill(i, 0)), Slot(0, t, s.slots[i].data, c.job, false), s.aio))
  {
    var s1 := s.(clients := s.clients[t := c]);
    var s2 := Written(s, t, i, c.(pc := Fill(i, 0)), Slot(0, t, s.slots[i].data, c.job, false), s.aio);
    assert s2.clients == s1.clients[t := s2.clients[t]];
    assert SubmitStep(s1, s2, t);
  }

  /** An idle client enters and reserves slot 0, or slot 1 when slot 0 is taken. */
  lemma ReserveTo(d: Discipline, R: State -> bool, s: State, t: nat, i: nat, j: Job)
    requires SubmitKeeps(R) && EnterKeeps(d, R)
    requires d.Freely? || Seen(s)
    requires R(s) && |s.slots| == SLOT_COUNT && i <= 1 && t in s.clients && s.clients[t].pc.Idle?
    requires OP_READ <= j.opcode <= OP_NOP && s.slots[i].tid == 0 && s.slots[i].pid == 0 && (i == 1 ==> s.slots[0].tid != 0)
    ensures var c := s.clients[t].(pc := Fill(i, 0), pid := 1, job := j);
            R(Written(s, t, i, c, Slot(0, t, s.slots[i].data, j, false), s.aio))
  {
    var c := s.clients[t].(pc := Reserve(0, 0), pid := 1, job := j);
    assert EnterSubmit(s, s.(clients := s.clients[t := c]), t);
    if i == 1 {
      NextSlotTo(R, s, t, c);
    }
    ReserveIt(R, s, t, i, c.(pc := Reserve(i, 0)));
  }

  /** A whole submission, up to the publication. */
  lemma SubmitTo(d: Discipline, R: State -> bool, s: State, t: nat, i: nat, j: Job)
    requires SubmitKeeps(R) && EnterKeeps(d, R)
    requires d.Freely? || Seen(s)
    requires R(s) && |s.slots| == SLOT_COUNT && i <= 1 && t in s.clients && s.clients[t].pc.Idle?
    requires OP_READ <= j.opcode <= OP_NOP && s.slots[i].tid == 0 && s.slots[i].pid == 0 && (i == 1 ==> s.slots[0].tid != 0)
    ensures R(Published(s, t, i, s.clients[t].(pid := 1, job := j)))
  {
    ReserveTo(d, R, s, t, i, j);
    var c := s.clients[t].(pc := Fill(i, 0), pid := 1, job := j);
    FillAll(R, s, t, i, c, Slot(0, t, s.slots[i].data, j, false), 0);
    PublishTo(R, s, t, i, c.(pc := Clear(i)), Slot(0, t, j, j, false));
  }

  lemma CountTo(R: State -> bool, s: State, t: nat)
    requires SubmitKeeps(R)
    requires R(s) && t in s.clients && s.clients[t].pc.Count?
    ensures R(s.(clients := s.clients[t := s.clients[t].(pc := Signal(s.clients[t].pc.i))],
                         queueCounter := s.queueCounter + 1))
  {
    var c := s.clients[t];
    var s' := s.(clients := s.clients[t := c.(pc := Signal(c.pc.i))], queueCounter := s.queueCounter + 1);
    assert SubmitStep(s, s', t);
  }

  // ----- the loop thread -----

  predicate Undisturbed(s: State) {
    s.abortCounter == 0 && s.cancel.counter == 0
  }

  lemma PollTo(R: State -> bool, s: State)
    requires WaitKeeps(R) && CancelKeeps(R)
    requires R(s) && s.loop.TestQueue? && s.queueCounter != 0 && Undisturbed(s)
    ensures R(s.(loop := PollData))
  {
    var s1, s2 := s.(loop := PollAbort), s.(loop := PollCancel);
    assert LoopWaitStep(s, s1);
    assert LoopWaitStep(s1, s2);
    assert LoopCancelStep(s2, s.(loop := PollData));
  }

  /** The same when only a completion is counted. */
  lemma PollForDataTo(R: State -> bool, s: State)
    requires WaitKeeps(R) && CancelKeeps(R)
    requires R(s) && s.loop.TestQueue? && s.queueCounter == 0 && s.dataCounter != 0 && Undisturbed(s)
    ensures R(s.(loop := PollData))
  {
    var s0, s1, s2 := s.(loop := TestData), s.(loop := PollAbort), s.(loop := PollCancel);
    assert LoopWaitStep(s, s0);
    assert LoopWaitStep(s0, s1);
    assert LoopWaitStep(s1, s2);
    assert LoopCancelStep(s2, s.(loop := PollData));
  }

  lemma ScanTo(R: State -> bool, s: State)
    requires AckKeeps(R) && QueueKeeps(R)
    requires R(s) && s.loop.PollData? && s.dataCounter == 0 && s.queueCounter != 0 && s.lists.qfree.Some?
    ensures R(s.(loop := Scan(0)))
  {
    assert LoopAckStep(s, s.(loop := PollQueue));
    var s1, s2 := s.(loop := PollQueue), s.(loop := TestFree);
    assert LoopQueueStep(s1, s2);
    assert LoopQueueStep(s2, s.(loop := Scan(0)));
  }

  predicate Usable(q: Lists) {
    q.qfree.Some? && q.qfree.value < |q.nodes| && (q.qtail.Some? ==> q.qtail.value < |q.nodes|)
  }

  /** The loop has taken the request from slot `i`. */
  function SlotTaken(s: State, i: nat): State
    requires i < |s.slots| && Usable(s.lists)
  {
    var j := s.slots[i].data;
    s.(loop := ClearPid(i), queueCounter := s.queueCounter - 1, lists := Progress.Appended(s.lists, j),
       aio := s.aio[j.aiocb := GetAio(s.aio, j.aiocb).(request := s.lists.qfree)])
  }

  lemma DecQueueTo(R: State -> bool, s: State, i: nat)
    requires QueueKeeps(R)
    requires R(s) && i < |s.slots| && s.loop == Scan(i) && s.slots[i].pid != 0
    ensures R(s.(loop := Take(i), queueCounter := s.queueCounter - 1))
  {
    var s1 := s.(loop := DecQueue(i));
    assert LoopQueueStep(s, s1);
    assert LoopQueueStep(s1, s.(loop := Take(i), queueCounter := s.queueCounter - 1));
  }

  lemma TakeTo(R: State -> bool, s: State, i: nat)
    requires QueueKeeps(R)
    requires R(s) && i < |s.slots| && s.loop == Scan(i) && s.slots[i].pid != 0 && Usable(s.lists)
    ensures R(SlotTaken(s, i))
  {
    DecQueueTo(R, s, i);
    assert LoopQueueStep(s.(loop := Take(i), queueCounter := s.queueCounter - 1), SlotTaken(s, i));
  }

  lemma ClearTidTo(R: State -> bool, s: State, i: nat)
    requires QueueKeeps(R)
    requires R(s) && i < |s.slots| && s.loop == ClearTid(i)
    ensures R(s.(loop := Scan(i + 1), slots := s.slots[i := s.slots[i].(tid := 0)]))
  {
    assert LoopQueueStep(s, s.(loop := Scan(i + 1), slots := s.slots[i := s.slots[i].(tid := 0)]));
  }

  lemma ClearTo(R: State -> bool, s: State, i: nat)
    requires QueueKeeps(R)
    requires R(s) && i < |s.slots| && s.loop == ClearPid(i)
    ensures R(s.(loop := Scan(i + 1), slots := s.slots[i := s.slots[i].(pid := 0, tid := 0)]))
  {
    var s1 := s.(loop := ClearTid(i), slots := s.slots[i := s.slots[i].(pid := 0)]);
    assert LoopQueueStep(s, s1);
    ClearTidTo(R, s1, i);
    assert s1.slots[i := s1.slots[i].(tid := 0)] == s.slots[i := s.slots[i].(pid := 0, tid := 0)];
  }

  /** No published slot from `i` on. */
  lemma {:induction false} LeaveTo(R: State -> bool, s: State, i: nat)
    requires QueueKeeps(R)
    requires R(s) && s.loop == Scan(i) && i <= |s.slots|
    requires forall k :: i <= k < |s.slots| ==> s.slots[k].pid == 0
    ensures R(s.(loop := Dequeue(false)))
    decreases |s.slots| - i
  {
    if i < |s.slots| {
      assert LoopQueueStep(s, s.(loop := Scan(i + 1)));
      LeaveTo(R, s.(loop := Scan(i + 1)), i + 1);
    } else {
      assert LoopQueueStep(s, s.(loop := Dequeue(false)));
    }
  }

  /** The head of the queue is the packet, whatever the packet was. */
  function Sent(s: State): State
    requires s.lists.queue.Some? && s.lists.queue.value < |s.lists.nodes|
  {
    var q := s.lists;
    var n := q.queue.value;
    var rest := q.nodes[n].next;
    s.(loop := IncIo(false), packet := q.queue,
       lists := Lists(q.nodes[n := q.nodes[n].(next := q.qfree)], rest, if rest.None? then None else q.qtail, Some(n)),
       overwrites := if s.packet.Some? then s.overwrites + 1 else s.overwrites)
  }

  lemma SendTo(R: State -> bool, s: State)
    requires DequeueKeeps(R)
    requires R(s) && s.loop == Dequeue(false)
    requires s.lists.queue.Some? && s.lists.queue.value < |s.lists.nodes|
    ensures R(Sent(s))
  {
    assert LoopDequeueStep(s, Sent(s));
  }

  lemma SignalTo(R: State -> bool, s: State)
    requires DequeueKeeps(R)
    requires R(s) && s.loop == IncIo(false)
    ensures R(s.(loop := ResetQueue, ioCounter := s.ioCounter + 1, evIo := true))
  {
    var s1 := s.(loop := SetIo(false), ioCounter := s.ioCounter + 1);
    assert LoopDequeueStep(s, s1);
    assert LoopDequeueStep(s1, s1.(loop := ResetQueue, evIo := true));
  }

  lemma ResetTo(R: State -> bool, s: State)
    requires QueueKeeps(R)
    requires R(s) && s.loop.ResetQueue?
    ensures R(s.(loop := TestQueue, evQueue := false))
  {
    assert LoopQueueStep(s, s.(loop := TestQueue, evQueue := false));
  }

  // ----- the I/O thread -----

  /** From the top of the I/O loop to the packet test, with something dispatched. */
  lemma BeginTo(R: State -> bool, s: State)
    requires BeginKeeps(R)
    requires R(s) && s.io.TestIo? && s.ioCounter != 0 && s.abortCounter == 0
    ensures R(s.(io := IoPc.Before))
  {
    assert IoBeginStep(s, s.(io := IoAbort));
    assert IoBeginStep(s.(io := IoAbort), s.(io := IoPc.Before));
  }

  /** The packet is on node `n`, which carries `j` and is named by its aiocb. */
  predicate Current(s: State, n: nat, j: Job) {
    && s.packet == Some(n) && n < |s.lists.nodes| && Carries(s.lists.nodes[n], j)
    && GetAio(s.aio, j.aiocb).request == Some(n)
  }

  function Called(s: State, n: nat, j: Job): State {
    s.(io := InCall(n, CallOf(j)), ioType := j.opcode,
       aio := s.aio[j.aiocb := GetAio(s.aio, j.aiocb).(qstatus := Pending)],
       log := s.log.(calls := s.log.calls + [CallOf(j)]))
  }

  lemma CallTo(R: State -> bool, s: State, n: nat, j: Job)
    requires BeginKeeps(R)
    requires R(s) && s.io == IoPc.Before && Current(s, n, j)
    ensures R(Called(s, n, j))
  {
    var s1 := s.(io := CheckPacket, ioType := j.opcode,
                 aio := s.aio[j.aiocb := GetAio(s.aio, j.aiocb).(qstatus := Pending)]);
    assert IoBeginStep(s, s1);
    assert IoBeginStep(s1, Called(s, n, j));
  }

  /** The call returns `r`. */
  function Returned(s: State, n: nat, r: int): State
    requires n < |s.lists.nodes|
  {
    var node := s.lists.nodes[n];
    s.(io := IoPc.After, log := s.log.(results := s.log.results + [r]),
       lists := s.lists.(nodes := s.lists.nodes[n := node.(packet := node.packet.(iosb := r))]))
  }

  lemma ReturnTo(R: State -> bool, s: State, n: nat, j: Job, r: int)
    requires CallKeeps(R)
    requires R(s) && s.io == InCall(n, CallOf(j)) && j.opcode != OP_NOP
    requires n < |s.lists.nodes| && s.abortCounter == 0
    ensures R(Returned(s, n, r))
  {
    var s1 := Returned(s, n, r).(io := AfterAbort);
    assert IoCallStep(s, s1);
    assert IoCallStep(s1, Returned(s, n, r));
  }

  /** cx_after_io has set the status of the aiocb that the packet names by now. */
  function StatusSet(s: State, n: nat): State
    requires n < |s.lists.nodes|
  {
    var a := s.lists.nodes[n].packet.aiocb;
    s.(io := CopyIosb(a), aio := s.aio[a := GetAio(s.aio, a).(qstatus := Success)])
  }

  lemma StatusTo(R: State -> bool, s: State, n: nat)
    requires HookKeeps(R)
    requires R(s) && s.io == IoPc.After && s.packet == Some(n) && n < |s.lists.nodes|
    ensures R(StatusSet(s, n))
  {
    assert IoHookStep(s, StatusSet(s, n));
  }

  /** It has copied the iosb of the node that is the packet by now, and cleared the packet. */
  function Cleared(s: State, n: nat, a: nat): State
    requires n < |s.lists.nodes|
  {
    var r := s.lists.nodes[n].packet.iosb;
    s.(io := IncData, packet := None, aio := s.aio[a := GetAio(s.aio, a).(iosb := r)],
       log := s.log.(completions := s.log.completions + [Completion(a, r)]))
  }

  lemma ClearPacketTo(R: State -> bool, s: State, n: nat, a: nat)
    requires HookKeeps(R)
    requires R(s) && s.io == CopyIosb(a) && s.packet == Some(n) && n < |s.lists.nodes|
    ensures R(Cleared(s, n, a))
  {
    var r := s.lists.nodes[n].packet.iosb;
    var s1 := s.(io := IoPc.ClearPacket(a, r), aio := s.aio[a := GetAio(s.aio, a).(iosb := r)]);
    assert IoHookStep(s, s1);
    assert IoHookStep(s1, Cleared(s, n, a));
  }

  lemma NotifyTo(R: State -> bool, s: State)
    requires CompleteKeeps(R)
    requires R(s) && s.io.IncData?
    ensures R(s.(io := AwaitComplete, dataCounter := s.dataCounter + 1, passes := s.passes + 1, evQueue := true))
  {
    var s1 := s.(io := SetQueue, dataCounter := s.dataCounter + 1, passes := s.passes + 1);
    assert IoCompleteStep(s, s1);
    assert IoCompleteStep(s1, s1.(io := AwaitComplete, evQueue := true));
  }

  lemma NothingTo(R: State -> bool, s: State)
    requires DequeueKeeps(R)
    requires R(s) && s.loop == Dequeue(true) && s.lists.queue.None?
    ensures R(s.(loop := ResetIo))
  {
    assert LoopDequeueStep(s, s.(loop := ResetIo));
  }

  /** The loop acknowledges, and finds nothing to dispatch. */
  lemma AcknowledgeTo(R: State -> bool, s: State)
    requires AckKeeps(R) && DequeueKeeps(R)
    requires R(s) && s.loop.PollData? && s.dataCounter == 1 && s.lists.queue.None?
    ensures R(s.(loop := ResetIo, dataCounter := 0, ioCounter := s.ioCounter - 1))
  {
    var s1 := s.(loop := DecData);
    var s2 := s.(loop := DecIo, dataCounter := 0);
    var s3 := s.(loop := Dequeue(true), dataCounter := 0, ioCounter := s.ioCounter - 1);
    assert LoopAckStep(s, s1);
    assert LoopAckStep(s1, s2);
    assert LoopAckStep(s2, s3);
    NothingTo(R, s3);
  }

  lemma SetCompleteTo(R: State -> bool, s: State)
    requires AckKeeps(R)
    requires R(s) && s.loop.ResetIo?
    ensures R(s.(loop := PollQueue, evIo := false, evComplete := true, acks := s.acks + 1))
  {
    var s1 := s.(loop := SetComplete, evIo := false);
    assert LoopAckStep(s, s1);
    assert LoopAckStep(s1, s1.(loop := PollQueue, evComplete := true, acks := s.acks + 1));
  }

  lemma NextPassTo(R: State -> bool, s: State)
    requires CompleteKeeps(R)
    requires R(s) && s.io.AwaitComplete? && s.evComplete && s.abortCounter == 0
    ensures R(s.(io := TestIo, evComplete := false))
  {
    var s1, s2 := s.(io := CompleteAbort(false)), s.(io := ResetComplete);
    assert IoCompleteStep(s, s1);
    assert IoCompleteStep(s1, s2);
    assert IoCompleteStep(s2, s.(io := TestIo, evComplete := false));
  }

  lemma EmptyTo(R: State -> bool, s: State)
    requires BeginKeeps(R)
    requires R(s) && s.io == IoPc.Before && s.packet.None?
    ensures R(s.(io := IoDone))
  {
    assert IoBeginStep(s, s.(io := CheckPacket));
    assert IoBeginStep(s.(io := CheckPacket), s.(io := IoDone));
  }
}
