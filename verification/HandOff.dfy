/**
 The completion hand-off through `hpending`: the fine steps of cx_after_io for
 any number of aiocbs against one thread that calls waio_suspend on their list,
 any number of times. The word holds 0, -1 (completion has begun) or the handle
 of the waiter's event.
 */
module HandOff {

  /** cx_after_io on one aiocb, up to the call that is made next. */
  datatype Completion =
    | NotBegun
    | SetStatus
    | CopyIosb
    | ClearPacket
    | ReadPending
    | Notify(lock: int)
    | Done

  datatype WaiterPc =
    | Outside(result: int)
    | Look(i: nat)
    | Create(i: nat)
    | Install(i: nat, h: int)
    | Recheck(i: nat)
    | Blocked
    | Reset(i: nat)
    | Final(i: nat)
    | CleanUp(i: nat)

  const EAGAIN := -11

  /** One aiocb: is its status terminal, its iosb copied, the packet cleared; its word, its completion. */
  datatype Aiocb = Aiocb(terminal: bool, copied: bool, cleared: bool, hpending: int, completion: Completion)

  /**
   `installed[i]` is the waiter's own handle in hwait for aiocb i, or 0;
   `extra` says that the list carries a user event (hsignal) of its own.
   */
  datatype State = State(
    aiocbs: seq<Aiocb>,
    pc: WaiterPc, installed: seq<int>, extra: bool,
    signalled: set<int>, nextHandle: int)

  predicate Init(s: State) {
    && (forall i :: 0 <= i < |s.aiocbs| ==> s.aiocbs[i] == Aiocb(false, false, false, 0, NotBegun))
    && s.pc == Outside(0) && |s.installed| == |s.aiocbs|
    && (forall i :: 0 <= i < |s.installed| ==> s.installed[i] == 0)
    && s.signalled == {} && s.nextHandle == 1
  }

  // ----- the I/O thread -----

  /** One step of cx_after_io on aiocb k. */
  predicate Complete(s: State, s': State, k: nat) {
    && k < |s.aiocbs| == |s'.aiocbs|
    && s'.aiocbs == s.aiocbs[k := s'.aiocbs[k]]
    && s'.pc == s.pc && s'.installed == s.installed && s'.extra == s.extra && s'.nextHandle == s.nextHandle
    && var a, a' := s.aiocbs[k], s'.aiocbs[k];
    && (!a.completion.Notify? ==> s'.signalled == s.signalled)
    && match a.completion
       case NotBegun =>
         a' == a.(hpending := if a.hpending == 0 then -1 else a.hpending, completion := SetStatus)
       case SetStatus => a' == a.(terminal := true, completion := CopyIosb)
       case CopyIosb => a' == a.(copied := true, completion := ClearPacket)
       case ClearPacket => a' == a.(cleared := true, completion := ReadPending)
       case ReadPending => a' == a.(completion := if a.hpending > 0 then Notify(a.hpending) else Done)
       case Notify(_) =>
         // the word is read again for the call
         && a' == a.(completion := Done)
         && s'.signalled == if a.hpending > 0 then s.signalled + {a.hpending} else s.signalled
       case Done => false
  }

  // ----- the waiter -----

  predicate AnyInstalled(s: State) {
    exists i :: 0 <= i < |s.installed| && s.installed[i] > 0
  }

  /** One step of waio_suspend. */
  predicate Suspend(s: State, s': State) {
    && |s'.aiocbs| == |s.aiocbs| && |s.installed| == |s.aiocbs| && |s'.installed| == |s.aiocbs|
    && (!s.pc.Create? ==> s'.nextHandle == s.nextHandle)
    && (!s.pc.Outside? ==> s'.extra == s.extra)
    && (!s.pc.Outside? && !s.pc.Install? ==> s'.installed == s.installed)
    && (!s.pc.Install? && !s.pc.Reset? && !s.pc.CleanUp? ==> s'.aiocbs == s.aiocbs)
    && s'.signalled == s.signalled
    && match s.pc
       case Outside(_) =>
         && s'.pc == Look(0)
         && (forall i :: 0 <= i < |s'.installed| ==> s'.installed[i] == 0)
       case Look(i) =>
         if i < |s.aiocbs| then s'.pc == if s.aiocbs[i].terminal then Look(i + 1) else Create(i)
         else s'.pc == Recheck(0)
       case Create(i) =>
         && s'.nextHandle == s.nextHandle + 1
         && (s'.pc == Install(i, s.nextHandle) || s'.pc == Outside(EAGAIN))
       case Install(i, h) =>
         && i < |s.aiocbs| && s'.pc == Look(i + 1)
         && var a := s.aiocbs[i];
         if a.hpending == 0 then
           s'.aiocbs == s.aiocbs[i := a.(hpending := h)] && s'.installed == s.installed[i := h]
         else s'.aiocbs == s.aiocbs && s'.installed == s.installed
       case Recheck(i) =>
         if i < |s.aiocbs| then s'.pc == if s.aiocbs[i].terminal then CleanUp(0) else Recheck(i + 1)
         else s'.pc == if s.extra || AnyInstalled(s) then Blocked else Reset(0)
       case Blocked =>
         // one of its events, the user's event or the timeout
         s'.pc == Reset(0)
       case Reset(i) =>
         if i < |s.aiocbs| then
           s'.pc == Reset(i + 1) && s'.aiocbs == s.aiocbs[i := s.aiocbs[i].(hpending := 0)]
         else (s'.pc == Final(0) || (s.extra && s'.pc == Outside(-4))) && s'.aiocbs == s.aiocbs
       case Final(i) =>
         s'.pc == if i < |s.aiocbs| then if s.aiocbs[i].terminal then Outside(0) else Final(i + 1)
                  else Outside(EAGAIN)
       case CleanUp(i) =>
         if i < |s.aiocbs| then
           s'.pc == CleanUp(i + 1) && s'.aiocbs == s.aiocbs[i := s.aiocbs[i].(hpending := 0)]
         else s'.pc == Outside(0) && s'.aiocbs == s.aiocbs
  }

  ghost predicate Next(s: State, s': State) {
    Suspend(s, s') || exists k: nat :: k < |s.aiocbs| && Complete(s, s', k)
  }

  ghost predicate NextAt(run: seq<State>, n: nat) {
    n + 1 < |run| && Next(run[n], run[n + 1])
  }

  ghost predicate Run(run: seq<State>) {
    && |run| > 0
    && Init(run[0])
    && forall n :: 0 <= n < |run| - 1 ==> NextAt(run, n)
  }

  // ----- the invariant -----

  /** The waiter has looked at aiocb i since it tried to install its handle. */
  predicate Rechecked(pc: WaiterPc, i: nat) {
    pc.Blocked? || (pc.Recheck? && i < pc.i)
  }

  /** The waiter may hold a handle in the word of aiocb i. */
  predicate PastInstall(pc: WaiterPc, i: nat) {
    || pc.Blocked? || pc.Recheck?
    || ((pc.Look? || pc.Create? || pc.Install?) && i < pc.i)
  }

  predicate Cleared(c: Completion) {
    c.ReadPending? || c.Notify? || c.Done?
  }

  predicate Copied(c: Completion) {
    c.ClearPacket? || Cleared(c)
  }

  predicate Written(c: Completion) {
    c.CopyIosb? || Copied(c)
  }

  predicate AiocbOk(a: Aiocb, h: int, pc: WaiterPc, i: nat, signalled: set<int>, nextHandle: int) {
    && (a.terminal <==> Written(a.completion))
    && (a.copied <==> Copied(a.completion))
    && (a.cleared <==> Cleared(a.completion))
    && -1 <= a.hpending < nextHandle
    && 0 <= h < nextHandle
    && (a.hpending == -1 ==> !a.completion.NotBegun?)
    && (a.completion.Notify? ==> a.completion.lock > 0)
    // an installed handle stays in its word until the waiter takes it out
    && (PastInstall(pc, i) && h > 0 ==> a.hpending == h)
    && ((pc.Look? || pc.Create? || pc.Install?) && i >= pc.i ==> h == 0)
    // the Dekker argument: the status was still pending after the handle was in place
    && (Rechecked(pc, i) && h > 0 && a.completion.Done? ==> h in signalled)
    // nobody but its own completion signals an installed handle
    && (PastInstall(pc, i) && h > 0 && h in signalled ==> a.completion.Done?)
    // not installed although pending when last seen: the word was taken
    && (Rechecked(pc, i) && h == 0 ==> a.hpending != 0)
  }

  /** After the attempt without a handle, the word was taken or the status was terminal. */
  predicate Attempted(a: Aiocb, h: int, pc: WaiterPc, i: nat) {
    PastInstall(pc, i) && !pc.Blocked? && h == 0 ==> a.hpending != 0 || a.terminal
  }

  ghost predicate Words(s: State) {
    && |s.installed| == |s.aiocbs|
    && s.nextHandle >= 1
    && (s.pc.Blocked? ==> s.extra || AnyInstalled(s))
    && (forall h :: h in s.signalled ==> 0 < h < s.nextHandle)
    && (s.pc.Install? ==> 0 < s.pc.h < s.nextHandle && s.pc.h !in s.signalled)
    && (forall i :: 0 <= i < |s.aiocbs| ==>
          && AiocbOk(s.aiocbs[i], s.installed[i], s.pc, i, s.signalled, s.nextHandle)
          && Attempted(s.aiocbs[i], s.installed[i], s.pc, i)
          && (s.pc.Install? ==> s.aiocbs[i].hpending != s.pc.h))
  }

  /** No handle stands in two words. */
  predicate Distinct(aiocbs: seq<Aiocb>) {
    forall i, j :: 0 <= i < j < |aiocbs| && aiocbs[i].hpending > 0 ==> aiocbs[i].hpending != aiocbs[j].hpending
  }

  ghost predicate Inv(s: State) {
    Words(s) && Distinct(s.aiocbs)
  }

  lemma InvComplete(s: State, s': State, k: nat)
    requires Inv(s) && Complete(s, s', k)
    ensures Inv(s')
  {
    assert Words(s') by {
      forall i | 0 <= i < |s'.aiocbs|
        ensures AiocbOk(s'.aiocbs[i], s'.installed[i], s'.pc, i, s'.signalled, s'.nextHandle)
      {
        assert AiocbOk(s.aiocbs[i], s.installed[i], s.pc, i, s.signalled, s.nextHandle);
      }
    }
  }

  /** The steps of the call that leave the words alone. */
  lemma SuspendLooks(s: State, s': State)
    requires Words(s) && Suspend(s, s') && s'.aiocbs == s.aiocbs
    ensures Words(s')
  {
  }

  /** The steps that write one word. */
  lemma SuspendWrites(s: State, s': State)
    requires Words(s) && Suspend(s, s') && (s.pc.Install? || s.pc.Reset? || s.pc.CleanUp?)
    ensures Words(s')
    ensures Distinct(s.aiocbs) ==> Distinct(s'.aiocbs)
  {
  }

  lemma InvSuspend(s: State, s': State)
    requires Inv(s) && Suspend(s, s')
    ensures Inv(s')
  {
    if s.pc.Install? || s.pc.Reset? || s.pc.CleanUp? {
      SuspendWrites(s, s');
    } else {
      SuspendLooks(s, s');
    }
  }

  lemma {:induction false} InvRun(run: seq<State>, n: nat)
    requires Run(run) && n < |run|
    ensures Inv(run[n])
  {
    if n > 0 {
      InvRun(run, n - 1);
      assert NextAt(run, n - 1);
      if Suspend(run[n - 1], run[n]) {
        InvSuspend(run[n - 1], run[n]);
      } else {
        var k: nat :| k < |run[n - 1].aiocbs| && Complete(run[n - 1], run[n], k);
        InvComplete(run[n - 1], run[n], k);
      }
    }
  }

  // ----- what the hand-off guarantees -----

  /**
   What wakes a blocked waiter: its handle for aiocb i is signalled exactly when
   the completion of aiocb i has finished and the handle was installed, and so
   some handle of its list is signalled exactly when some finished completion
   had its handle installed. This includes words that an earlier call had set
   from -1 back to 0. A handle is not installed only when the word was taken.
   */
  lemma WokenExactly(run: seq<State>, n: nat)
    requires Run(run) && n < |run| && run[n].pc.Blocked?
    ensures var s := run[n];
            && |s.installed| == |s.aiocbs|
            && (forall i :: 0 <= i < |s.aiocbs| ==>
                  (s.installed[i] in s.signalled <==> s.aiocbs[i].completion.Done? && s.installed[i] > 0))
            && ((exists i :: 0 <= i < |s.aiocbs| && s.installed[i] in s.signalled) <==>
                (exists i :: 0 <= i < |s.aiocbs| && s.aiocbs[i].completion.Done? && s.installed[i] > 0))
            && (forall i :: 0 <= i < |s.aiocbs| && s.installed[i] == 0 ==> s.aiocbs[i].hpending != 0)
  {
    InvRun(run, n);
    var s := run[n];
    forall i | 0 <= i < |s.aiocbs|
      ensures s.installed[i] in s.signalled <==> s.aiocbs[i].completion.Done? && s.installed[i] > 0
    {
      assert AiocbOk(s.aiocbs[i], s.installed[i], s.pc, i, s.signalled, s.nextHandle);
    }
  }

  /**
   A wait that was ended by the waiter's own handle finds everything done: the
   status, the result, and the packet cleared, so that the next request can be
   submitted.
   */
  lemma OwnHandleMeansCleared(run: seq<State>, n: nat, i: nat)
    requires Run(run) && n < |run| && i < |run[n].aiocbs| && run[n].pc.Blocked?
    requires |run[n].installed| == |run[n].aiocbs| && run[n].installed[i] in run[n].signalled
    ensures run[n].aiocbs[i].terminal && run[n].aiocbs[i].copied && run[n].aiocbs[i].cleared
  {
    WokenExactly(run, n);
    InvRun(run, n);
    assert AiocbOk(run[n].aiocbs[i], run[n].installed[i], run[n].pc, i, run[n].signalled, run[n].nextHandle);
  }

  /**
   While the waiter is blocked its handle stays in the word, so that the
   completion of that aiocb cannot end without signalling it.
   */
  lemma InstalledWillBeWoken(run: seq<State>, n: nat, i: nat)
    requires Run(run) && n < |run| && i < |run[n].aiocbs|
    requires run[n].pc.Blocked? && |run[n].installed| == |run[n].aiocbs| && run[n].installed[i] > 0
    ensures run[n].aiocbs[i].hpending == run[n].installed[i]
    ensures forall s' :: Complete(run[n], s', i) && s'.aiocbs[i].completion.Done? ==>
                           run[n].installed[i] in s'.signalled
  {
    InvRun(run, n);
  }

  /** Waiting on a single aiocb without a user event, no completion is ever missed. */
  lemma SingleWaitNeverMissed(run: seq<State>, n: nat)
    requires Run(run) && n < |run| && |run[n].aiocbs| == 1
    requires run[n].pc.Blocked? && !run[n].extra && run[n].aiocbs[0].completion.Done?
    ensures |run[n].installed| == 1 && run[n].installed[0] in run[n].signalled
  {
    InvRun(run, n);
  }

  /**
   Status, result and packet are dealt with in three steps: between them a
   caller sees SUCCESS without a result, and with the packet still in flight.
   */
  lemma StatusBeforeResult(run: seq<State>, n: nat, i: nat)
    requires Run(run) && n < |run| && i < |run[n].aiocbs|
    ensures var a := run[n].aiocbs[i];
            && (a.terminal && !a.copied <==> a.completion.CopyIosb?)
            && (a.terminal && !a.cleared <==> a.completion.CopyIosb? || a.completion.ClearPacket?)
  {
    InvRun(run, n);
  }

  // ----- how a call ends -----

  /** What the last loops of the call have done so far: words put back, and a terminal status for the early return. */
  predicate Ending(s: State) {
    match s.pc
    case Reset(i) => forall j :: 0 <= j < i && j < |s.aiocbs| ==> s.aiocbs[j].hpending <= 0
    case Final(_) => forall j :: 0 <= j < |s.aiocbs| ==> s.aiocbs[j].hpending <= 0
    case CleanUp(i) =>
      && (forall j :: 0 <= j < i && j < |s.aiocbs| ==> s.aiocbs[j].hpending <= 0)
      && exists j :: 0 <= j < |s.aiocbs| && s.aiocbs[j].terminal
    case _ => true
  }

  lemma EndingSuspend(s: State, s': State)
    requires Suspend(s, s') && Ending(s)
    ensures Ending(s')
  {
    if s.pc.CleanUp? && s.pc.i < |s.aiocbs| {
      var j :| 0 <= j < |s.aiocbs| && s.aiocbs[j].terminal;
      assert s'.aiocbs[j].terminal;
    }
  }

  lemma EndingComplete(s: State, s': State, k: nat)
    requires Complete(s, s', k) && Ending(s)
    ensures Ending(s')
  {
    if s.pc.CleanUp? {
      var j :| 0 <= j < |s.aiocbs| && s.aiocbs[j].terminal;
      assert s'.aiocbs[j].terminal;
    }
  }

  lemma {:induction false} EndingRun(run: seq<State>, n: nat)
    requires Run(run) && n < |run|
    ensures Ending(run[n])
  {
    if n > 0 {
      EndingRun(run, n - 1);
      assert NextAt(run, n - 1);
      if Suspend(run[n - 1], run[n]) {
        EndingSuspend(run[n - 1], run[n]);
      } else {
        var k: nat :| k < |run[n - 1].aiocbs| && Complete(run[n - 1], run[n], k);
        EndingComplete(run[n - 1], run[n], k);
      }
    }
  }

  /**
   A call returns 0 only when an aiocb of its list is done, and EINTR only when
   there is a user event; it leaves no handle in any word, unless an event could
   not be created.
   */
  lemma CallEnds(run: seq<State>, n: nat, result: int)
    requires Run(run) && n + 1 < |run| && !run[n].pc.Outside? && run[n + 1].pc == Outside(result)
    ensures result == 0 || result == -11 || (result == -4 && run[n].extra)
    ensures result == 0 ==> exists j :: 0 <= j < |run[n].aiocbs| && run[n].aiocbs[j].terminal
    ensures run[n].pc.Create? ==> result == -11
    ensures var s' := run[n + 1];
            !run[n].pc.Create? ==> forall j :: 0 <= j < |s'.aiocbs| ==> s'.aiocbs[j].hpending <= 0
  {
    EndingRun(run, n);
    assert NextAt(run, n);
    var s, s' := run[n], run[n + 1];
    if k: nat :| k < |s.aiocbs| && Complete(s, s', k) {
      assert false;
    }
  }

  /** The call goes on in this state, and aiocb `j` is done. */
  predicate DoneInCall(run: seq<State>, i: nat, j: nat) {
    i < |run| && !run[i].pc.Outside? && j < |run[i].aiocbs| && run[i].aiocbs[j].terminal
  }

  lemma DoneStays(s: State, s': State, j: nat)
    requires Next(s, s') && j < |s.aiocbs| && s.aiocbs[j].terminal
    ensures j < |s'.aiocbs| && s'.aiocbs[j].terminal && (s.pc.Outside? || s'.extra == s.extra)
    ensures match s.pc
            case Reset(i) => s'.pc.Reset? || s'.pc == Final(0) || (s'.pc == Outside(-4) && s.extra)
            case Final(i) => i <= j ==> s'.pc == Outside(0) || (s'.pc.Final? && s'.pc.i <= j)
            case Look(_) => s'.pc.Look? || s'.pc.Create? || s'.pc == Recheck(0)
            case Create(_) => s'.pc.Create? || s'.pc.Install? || s'.pc == Outside(-11)
            case Install(_, _) => s'.pc.Install? || s'.pc.Look?
            case Recheck(i) => i <= j ==> s'.pc.CleanUp? || (s'.pc.Recheck? && s'.pc.i <= j)
            case CleanUp(_) => s'.pc.CleanUp? || s'.pc == Outside(0)
            case _ => true
  {
    if k: nat :| k < |s.aiocbs| && Complete(s, s', k) {
    } else {
      assert Suspend(s, s');
    }
  }

  /** On the way from the entry to the early return. */
  predicate Early(pc: WaiterPc, j: nat) {
    pc.Look? || pc.Create? || pc.Install? || (pc.Recheck? && pc.i <= j) || pc.CleanUp?
  }

  /** On the way from the end of the wait to the return. */
  predicate Late(pc: WaiterPc, j: nat) {
    pc.Reset? || (pc.Final? && pc.i <= j)
  }

  lemma {:induction false} DoneAlong(run: seq<State>, m: nat, n: nat, j: nat)
    requires Run(run) && m <= n < |run| && DoneInCall(run, m, j)
    requires forall i :: m <= i <= n ==> i < |run| && !run[i].pc.Outside?
    ensures DoneInCall(run, n, j) && run[n].extra == run[m].extra
    ensures Early(run[m].pc, j) ==> Early(run[n].pc, j)
    ensures Late(run[m].pc, j) ==> Late(run[n].pc, j)
    decreases n - m
  {
    if m < n {
      DoneAlong(run, m, n - 1, j);
      assert NextAt(run, n - 1);
      DoneStays(run[n - 1], run[n], j);
    }
  }

  /**
   An aiocb that is done when the call begins: the call does not wait, and
   returns 0, or EAGAIN when an event could not be created.
   */
  lemma DoneOnEntry(run: seq<State>, m: nat, n: nat, j: nat, result: int)
    requires Run(run) && m <= n && n + 1 < |run| && DoneInCall(run, m, j) && run[m].pc == Look(0)
    requires forall i :: m <= i <= n ==> !run[i].pc.Outside?
    ensures !run[n].pc.Blocked?
    ensures run[n + 1].pc == Outside(result) ==> result == if run[n].pc.Create? then -11 else 0
  {
    DoneAlong(run, m, n, j);
    assert NextAt(run, n);
    DoneStays(run[n], run[n + 1], j);
  }

  /** An aiocb that is done when the wait ends: the call returns 0, or EINTR for the user's event. */
  lemma DoneAfterWait(run: seq<State>, m: nat, n: nat, j: nat, result: int)
    requires Run(run) && m <= n && n + 1 < |run| && DoneInCall(run, m, j) && run[m].pc == Reset(0)
    requires forall i :: m <= i <= n ==> !run[i].pc.Outside?
    ensures run[n + 1].pc == Outside(result) ==> result == 0 || (result == -4 && run[m].extra)
  {
    DoneAlong(run, m, n, j);
    assert NextAt(run, n);
    DoneStays(run[n], run[n + 1], j);
  }

  // ----- runs that show the limits -----

  /** Some run ends in `s`. */
  ghost predicate Reachable(s: State) {
    exists run :: Run(run) && run[|run| - 1] == s
  }

  lemma ReachInit(s: State)
    requires Init(s)
    ensures Reachable(s)
  {
    assert Run([s]) && [s][|[s]| - 1] == s;
  }

  lemma ReachNext(s: State, s': State)
    requires Reachable(s) && Next(s, s')
    ensures Reachable(s')
  {
    var run :| Run(run) && run[|run| - 1] == s;
    var longer := run + [s'];
    forall n | 0 <= n < |longer| - 1 ensures NextAt(longer, n) {
      if n < |run| - 1 {
        assert NextAt(run, n);
      }
    }
    assert Run(longer) && longer[|longer| - 1] == s';
  }

  lemma ReachSuspend(s: State, s': State)
    requires Reachable(s) && Suspend(s, s')
    ensures Reachable(s')
  {
    ReachNext(s, s');
  }

  lemma ReachComplete(s: State, s': State, k: nat)
    requires Reachable(s) && Complete(s, s', k)
    ensures Reachable(s')
  {
    ReachNext(s, s');
  }

  // a completion that took its word (set to -1) before the waiter came
  const BEGUN := Aiocb(false, false, false, -1, SetStatus)
  const FRESH := Aiocb(false, false, false, 0, NotBegun)

  function Holding(h: int): Aiocb {
    Aiocb(false, false, false, h, NotBegun)
  }

  /** The first aiocb is `first`; the waiter has its handles in the words of those from 1 up to `i`. */
  function Row(n: nat, first: Aiocb, i: nat): seq<Aiocb> {
    seq(n, k => if k == 0 then first else if k < i then Holding(k + 1) else FRESH)
  }

  function Handles(n: nat, i: nat): seq<int> {
    seq(n, k => if 0 < k < i then k + 1 else 0)
  }

  function Along(n: nat, extra: bool, first: Aiocb, pc: WaiterPc, i: nat, nextHandle: int): State {
    State(Row(n, first, i), pc, Handles(n, i), extra, {}, nextHandle)
  }

  /** The completion of the first aiocb has taken its word; the waiter creates an event for it in vain. */
  lemma FirstWordTaken(n: nat, extra: bool)
    requires n > 0
    ensures Reachable(Along(n, extra, BEGUN, Look(1), 1, 2))
  {
    var s0, s1 := Along(n, extra, FRESH, Outside(0), 1, 1), Along(n, extra, BEGUN, Outside(0), 1, 1);
    ReachInit(s0);
    assert s1.aiocbs == s0.aiocbs[0 := BEGUN];
    ReachComplete(s0, s1, 0);
    ReachSuspend(s1, Along(n, extra, BEGUN, Look(0), 1, 1));
    ReachSuspend(Along(n, extra, BEGUN, Look(0), 1, 1), Along(n, extra, BEGUN, Create(0), 1, 1));
    ReachSuspend(Along(n, extra, BEGUN, Create(0), 1, 1), Along(n, extra, BEGUN, Install(0, 1), 1, 2));
    ReachSuspend(Along(n, extra, BEGUN, Install(0, 1), 1, 2), Along(n, extra, BEGUN, Look(1), 1, 2));
  }

  lemma InstallsNext(n: nat, extra: bool, i: nat)
    requires 0 < i < n
    ensures Suspend(Along(n, extra, BEGUN, Install(i, i + 1), i, i + 2), Along(n, extra, BEGUN, Look(i + 1), i + 1, i + 2))
  {
    assert Row(n, BEGUN, i + 1) == Row(n, BEGUN, i)[i := Holding(i + 1)];
    assert Handles(n, i + 1) == Handles(n, i)[i := i + 1];
  }

  /** The others get their events. */
  lemma {:induction false} OthersInstalled(n: nat, extra: bool, i: nat)
    requires 0 < i <= n
    ensures Reachable(Along(n, extra, BEGUN, Look(i), i, i + 1))
  {
    if i == 1 {
      FirstWordTaken(n, extra);
    } else {
      OthersInstalled(n, extra, i - 1);
      var s0, s1 := Along(n, extra, BEGUN, Look(i - 1), i - 1, i), Along(n, extra, BEGUN, Create(i - 1), i - 1, i);
      var s2 := Along(n, extra, BEGUN, Install(i - 1, i), i - 1, i + 1);
      ReachSuspend(s0, s1);
      ReachSuspend(s1, s2);
      InstallsNext(n, extra, i - 1);
      ReachSuspend(s2, Along(n, extra, BEGUN, Look(i), i, i + 1));
    }
  }

  /** All of them still look pending, the first one too. */
  lemma {:induction false} AllPending(n: nat, extra: bool, i: nat)
    requires n > 0 && i <= n
    ensures Reachable(Along(n, extra, BEGUN, Recheck(i), n, n + 1))
  {
    if i == 0 {
      OthersInstalled(n, extra, n);
      ReachSuspend(Along(n, extra, BEGUN, Look(n), n, n + 1), Along(n, extra, BEGUN, Recheck(0), n, n + 1));
    } else {
      AllPending(n, extra, i - 1);
      ReachSuspend(Along(n, extra, BEGUN, Recheck(i - 1), n, n + 1), Along(n, extra, BEGUN, Recheck(i), n, n + 1));
    }
  }

  lemma Blocks(n: nat, extra: bool)
    requires n > 1 || (n == 1 && extra)
    ensures Reachable(Along(n, extra, BEGUN, Blocked, n, n + 1))
  {
    AllPending(n, extra, n);
    var s := Along(n, extra, BEGUN, Recheck(n), n, n + 1);
    assert n > 1 ==> s.installed[1] > 0;
    ReachSuspend(s, Along(n, extra, BEGUN, Blocked, n, n + 1));
  }

  /** One step of the first completion while the waiter is blocked. */
  lemma FirstCompletes(n: nat, extra: bool, a: Aiocb, a': Aiocb)
    requires n > 0 && Reachable(Along(n, extra, a, Blocked, n, n + 1))
    requires !a.completion.Notify?
    requires Complete(Along(n, extra, a, Blocked, n, n + 1),
                      Along(n, extra, a, Blocked, n, n + 1).(aiocbs := Row(n, a, n)[0 := a']), 0)
    ensures Reachable(Along(n, extra, a', Blocked, n, n + 1))
  {
    var s, s' := Along(n, extra, a, Blocked, n, n + 1), Along(n, extra, a', Blocked, n, n + 1);
    assert s'.aiocbs == s.aiocbs[0 := a'];
    ReachComplete(s, s', 0);
  }

  /** The waiter is blocked, a completion of its list has ended, and nothing at all is signalled. */
  predicate Missed(s: State) {
    && s.pc.Blocked? && s.signalled == {}
    && exists i :: 0 <= i < |s.aiocbs| && s.aiocbs[i].terminal && s.aiocbs[i].completion.Done?
  }

  /**
   With two aiocbs in the list, or with a user event, the waiter can miss a
   completion: the first one has taken its word but not yet set its status, so
   the waiter installs no handle for it, still sees it as pending, and blocks on
   the other handles or on the user event; the completion then ends without a
   signal.
   */
  lemma WakeupMissedInList(n: nat, extra: bool)
    requires n > 1 || (n == 1 && extra)
    ensures exists s :: Reachable(s) && |s.aiocbs| == n && s.extra == extra && Missed(s)
  {
    var a2, a3 := Aiocb(true, false, false, -1, CopyIosb), Aiocb(true, true, false, -1, ClearPacket);
    var a4, a5 := Aiocb(true, true, true, -1, ReadPending), Aiocb(true, true, true, -1, Done);
    Blocks(n, extra);
    FirstCompletes(n, extra, BEGUN, a2);
    FirstCompletes(n, extra, a2, a3);
    FirstCompletes(n, extra, a3, a4);
    FirstCompletes(n, extra, a4, a5);
    var s := Along(n, extra, a5, Blocked, n, n + 1);
    assert s.aiocbs[0].completion.Done?;
  }

  /** And exactly then: a completion can be missed on two or more aiocbs, or on one with a user event. */
  lemma MissedExactly(n: nat, extra: bool)
    ensures (exists s :: Reachable(s) && |s.aiocbs| == n && s.extra == extra && Missed(s))
       <==> n > 1 || (n == 1 && extra)
  {
    if n > 1 || (n == 1 && extra) {
      WakeupMissedInList(n, extra);
    } else if s :| Reachable(s) && |s.aiocbs| == n && s.extra == extra && Missed(s) {
      var run :| Run(run) && run[|run| - 1] == s;
      SingleWaitNeverMissed(run, |run| - 1);
      assert false;
    }
  }

  function Lone(a: Aiocb, pc: WaiterPc): State {
    State([a], pc, [0], false, {}, 1)
  }

  const ENDED := Aiocb(true, false, false, -1, CopyIosb)

  lemma EndedBeforeLook()
    ensures Reachable(Lone(ENDED, Look(1)))
  {
    ReachInit(Lone(FRESH, Outside(0)));
    ReachComplete(Lone(FRESH, Outside(0)), Lone(BEGUN, Outside(0)), 0);
    ReachComplete(Lone(BEGUN, Outside(0)), Lone(ENDED, Outside(0)), 0);
    ReachSuspend(Lone(ENDED, Outside(0)), Lone(ENDED, Look(0)));
    ReachSuspend(Lone(ENDED, Look(0)), Lone(ENDED, Look(1)));
  }

  /** A call to waio_suspend can return 0 for an aiocb whose result is not there yet. */
  lemma ReturnsBeforeResult()
    ensures exists s ::
              && Reachable(s) && s.pc == Outside(0) && |s.aiocbs| == 1
              && s.aiocbs[0].hpending == 0 && s.aiocbs[0].terminal && !s.aiocbs[0].copied
  {
    var left := Aiocb(true, false, false, 0, CopyIosb);
    EndedBeforeLook();
    ReachSuspend(Lone(ENDED, Look(1)), Lone(ENDED, Recheck(0)));
    ReachSuspend(Lone(ENDED, Recheck(0)), Lone(ENDED, CleanUp(0)));
    ReachSuspend(Lone(ENDED, CleanUp(0)), Lone(left, CleanUp(1)));
    ReachSuspend(Lone(left, CleanUp(1)), Lone(left, Outside(0)));
  }
}
