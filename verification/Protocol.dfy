/**
 The WAIO thread protocol as a step system: any number of client threads, one
 loop thread and one I/O thread over the shared block of one context.

 Every shared read, write, compare-and-swap or event call of the source is one
 step; a thread's program counter says which call comes next. A thread that
 waits with nothing signalled, or that would dereference a null or dangling
 pointer, has no step. Memory is sequentially consistent.
 */
module Protocol {
  import opened AiocbStatus

  datatype Option<+T> = None | Some(value: T)

  const SLOT_COUNT := 4
  const GET_SLOT_TRIES := 128
  // the first attempt, the attempt after creating the wait event, 1024 timed ones
  const LOCK_TRIES := 1026
  const OP_READ := 0
  const OP_WRITE := 1
  const OP_NOP := 2
  const IOSB_PENDING := 0x103
  const EACCES := 13

  /** What the caller asks for: the aiocb fields copied by a submission. */
  datatype Job = Job(opcode: int, prio: int, buf: int, nbytes: nat, offset: int, aiocb: nat)

  const NO_JOB := Job(0, 0, 0, 0, 0, 0)

  /**
   A request slot. `owned` and `marked` are history variables: the job of the
   last reservation, and whether its owner has since set the aiocb to WAIT_1.
   */
  datatype Slot = Slot(pid: nat, tid: nat, data: Job, owned: Job, marked: bool)

  const FREE_SLOT := Slot(0, 0, NO_JOB, NO_JOB, false)

  /** The part of an aiocb that the library keeps for itself. */
  datatype Aio = Aio(qstatus: QStatus, iosb: int, request: Option<nat>)

  // the opaque block right after memset: qstatus 0 is NT_STATUS_SUCCESS
  const ZERO_AIO := Aio(Success, 0, None)

  datatype Packet = Packet(data: int, size: nat, offset: int, aiocb: nat, iosb: int)

  /** A request node: its copy of the slot, its packet and its link (an index). */
  datatype Node = Node(job: Job, packet: Packet, next: Option<nat>)

  datatype Lists = Lists(nodes: seq<Node>, queue: Option<nat>, qtail: Option<nat>, qfree: Option<nat>)

  /** One system call: what the I/O thread passes to the kernel. */
  datatype Call = Call(opcode: int, data: int, size: nat, offset: int)

  /** The aiocb a cancellation names: the caller's, or the one on its own stack. */
  datatype Ref = User(aiocb: nat) | Local(tid: nat)

  /** History: who holds the cancellation lock and how far its request has come. */
  datatype Hold =
    | Open
    | Taken(tid: nat, ref: Ref)
    | Asked(tid: nat, ref: Ref)
    | Served(tid: nat, ref: Ref)
    | Leaked

  /**
   The cancellation hand-off: context_loop, cancel_counter and its event; of each
   aiocb its `hcancel` (absent when null) and its `status_cancel`; the events
   created for it so far are those below `created`, and `woken` are the set ones.
   */
  datatype CancelBlock = CancelBlock(
    owner: Option<Ref>, counter: int, signalled: bool,
    handles: map<Ref, nat>, verdicts: map<Ref, int>,
    created: nat, woken: set<nat>,
    hold: Hold)

  /** The opaque block of an aiocb is set to 0: no event, and a verdict of 0. */
  function Zeroed(k: CancelBlock, r: Ref): CancelBlock {
    k.(handles := k.handles - {r}, verdicts := k.verdicts[r := 0])
  }

  /** The event of an aiocb is reset, or created when it has none. */
  function Prepared(k: CancelBlock, r: Ref): CancelBlock {
    if r in k.handles then k.(woken := k.woken - {k.handles[r]})
    else k.(handles := k.handles[r := k.created], created := k.created + 1)
  }

  /** Setting the event of an aiocb; with a null handle the call fails and nothing is set. */
  function EventSet(k: CancelBlock, r: Ref): CancelBlock {
    if r in k.handles then k.(woken := k.woken + {k.handles[r]}) else k
  }

  datatype ClientPc =
    | Idle
    // waio_submit_single_request
    | Reserve(i: nat, tries: nat)
    | Fill(i: nat, k: nat)
    | Clear(i: nat)
    | Mark(i: nat)
    | Publish(i: nat)
    | Count(i: nat)
    | Signal(i: nat)
    | Spin(i: nat)
    // waio_cancel
    | TryLock(n: nat)
    | Prepare
    | CountCancel
    | SignalCancel
    | AwaitCancel
    | Blocked(event: nat)
    | ReadVerdict
    // waio_free
    | CountAbort
    | SignalAbort
    | AwaitEnd

  datatype Client = Client(pc: ClientPc, pid: nat, job: Job, ref: Ref, verdict: int)

  /** `ack` says which of the two waio_dequeue calls of an iteration is running. */
  datatype LoopPc =
    | TestQueue | TestData | TestCancel | LoopWait
    | PollAbort | DecAbort | Shutdown | LoopDone
    | PollCancel | DecCancel | Serve | Wake | ResetCancel | Unlock
    | PollData | DecData | DecIo
    | Dequeue(ack: bool) | IncIo(ack: bool) | SetIo(ack: bool)
    | ResetIo | SetComplete
    | PollQueue | TestFree
    | Scan(i: nat) | DecQueue(i: nat) | Take(i: nat) | ClearPid(i: nat) | ClearTid(i: nat)
    | ResetQueue

  datatype IoPc =
    | TestIo | IoWait | IoAbort | Before | CheckPacket
    | InCall(node: nat, call: Call)
    | AfterAbort
    // cx_after_io
    | After | CopyIosb(aiocb: nat) | ClearPacket(aiocb: nat, iosb: int)
    | IncData | SetQueue | AwaitComplete | CompleteAbort(byAbort: bool) | ResetComplete
    | IoDone

  datatype Completion = Completion(aiocb: nat, iosb: int)

  /** History: every publication, system call, call result and completion so far. */
  datatype Log = Log(submitted: seq<Job>, calls: seq<Call>, results: seq<int>, completions: seq<Completion>)

  datatype State = State(
    slots: seq<Slot>,
    queueCounter: int, dataCounter: int, ioCounter: int, abortCounter: int,
    evQueue: bool, evIo: bool, evComplete: bool, evAbort: bool,
    cancel: CancelBlock,
    packet: Option<nat>, ioType: int, lists: Lists, aio: map<nat, Aio>,
    clients: map<nat, Client>, loop: LoopPc, io: IoPc,
    // history: no step reads these
    overwrites: nat, passes: nat, acks: nat, log: Log)

  function GetAio(aio: map<nat, Aio>, a: nat): Aio {
    if a in aio then aio[a] else ZERO_AIO
  }

  function CallOf(j: Job): Call {
    Call(j.opcode, j.buf, j.nbytes, j.offset)
  }

  // ----- starting state -----

  predicate Chained(nodes: seq<Node>) {
    forall i :: 0 <= i < |nodes| ==>
                  nodes[i].next == if i + 1 < |nodes| then Some(i + 1) else None
  }

  ghost predicate Init(s: State) {
    && s.slots == [FREE_SLOT, FREE_SLOT, FREE_SLOT, FREE_SLOT]
    && s.queueCounter == 0 && s.dataCounter == 0 && s.ioCounter == 0 && s.abortCounter == 0
    && !s.evQueue && !s.evIo && !s.evComplete && !s.evAbort
    && s.cancel.owner.None? && s.cancel.counter == 0 && !s.cancel.signalled
    && s.cancel.handles == map[] && s.cancel.woken == {} && s.cancel.hold.Open?
    && s.packet.None?
    && |s.lists.nodes| > 0 && Chained(s.lists.nodes)
    && s.lists.queue.None? && s.lists.qtail.None? && s.lists.qfree == Some(0)
    && 0 !in s.clients && (forall t :: t in s.clients ==> s.clients[t].pc.Idle?)
    && s.loop.TestQueue? && s.io.TestIo?
    && s.overwrites == 0 && s.passes == 0 && s.acks == 0
    && s.log == Log([], [], [], [])
  }

  // ----- client steps -----

  /** Client `t` is the one that moves; nothing only the other threads write changes. */
  predicate ClientFrame(s: State, s': State, t: nat) {
    && t in s.clients && t in s'.clients
    && s'.clients == s.clients[t := s'.clients[t]]
    && s'.loop == s.loop && s'.io == s.io
    && s'.packet == s.packet && s'.ioType == s.ioType && s'.lists == s.lists
    && s'.dataCounter == s.dataCounter && s'.ioCounter == s.ioCounter
    && s'.evIo == s.evIo && s'.evComplete == s.evComplete
    && s'.overwrites == s.overwrites && s'.passes == s.passes && s'.acks == s.acks
  }

  predicate SameSubmission(s: State, s': State) {
    && s'.slots == s.slots && s'.queueCounter == s.queueCounter && s'.evQueue == s.evQueue
    && s'.aio == s.aio && s'.log == s.log
  }

  predicate SameAbort(s: State, s': State) {
    s'.abortCounter == s.abortCounter && s'.evAbort == s.evAbort
  }

  /** One field of the slot, in the order waio_submit_single_request writes them. */
  function FillField(d: Job, j: Job, k: nat): Job {
    match k
    case 0 => d.(opcode := j.opcode)
    case 1 => d.(prio := j.prio)
    case 2 => d.(buf := j.buf)
    case 3 => d.(nbytes := j.nbytes)
    case 4 => d.(offset := j.offset)
    case _ => d.(aiocb := j.aiocb)
  }

  predicate ReserveStep(s: State, s': State, c: Client, c': Client, t: nat)
    requires c.pc.Reserve?
  {
    var i, tries := c.pc.i, c.pc.tries;
    && s'.queueCounter == s.queueCounter && s'.evQueue == s.evQueue && s'.aio == s.aio && s'.log == s.log
    && if i < |s.slots| then
         if s.slots[i].tid == 0 then
           && c' == c.(pc := Fill(i, 0))
           && s'.slots == s.slots[i := s.slots[i].(tid := t, owned := c.job, marked := false)]
         else c' == c.(pc := Reserve(i + 1, tries)) && s'.slots == s.slots
       else
         && s'.slots == s.slots
         && (|| (tries < GET_SLOT_TRIES && c' == c.(pc := Reserve(0, tries + 1)))
             // the wait event could not be created, or no try is left
             || ((tries == 0 || tries >= GET_SLOT_TRIES) && c' == c.(pc := Idle)))
  }

  /** Filling the slot and the opaque block, up to and including the publication. */
  predicate WriteStep(s: State, s': State, c: Client, c': Client) {
    && s'.queueCounter == s.queueCounter && s'.evQueue == s.evQueue
    && match c.pc
       case Fill(i, k) =>
         && i < |s.slots|
         && c' == c.(pc := if k < 5 then Fill(i, k + 1) else Clear(i))
         && s'.slots == s.slots[i := s.slots[i].(data := FillField(s.slots[i].data, c.job, k))]
         && s'.aio == s.aio && s'.log == s.log
       case Clear(i) =>
         && c' == c.(pc := Mark(i))
         && s'.slots == s.slots && s'.aio == s.aio[c.job.aiocb := ZERO_AIO] && s'.log == s.log
       case Mark(i) =>
         && i < |s.slots|
         && c' == c.(pc := Publish(i))
         && s'.slots == s.slots[i := s.slots[i].(marked := true)]
         && s'.aio == s.aio[c.job.aiocb := GetAio(s.aio, c.job.aiocb).(qstatus := Wait1)]
         && s'.log == s.log
       case Publish(i) =>
         && i < |s.slots|
         && c' == c.(pc := Count(i))
         && s'.slots == s.slots[i := s.slots[i].(pid := c.pid)]
         && s'.aio == s.aio
         && s'.log == s.log.(submitted := s.log.submitted + [c.job])
       case _ => false
  }

  /** Counting the request and signalling the loop until it has taken the slot. */
  predicate NotifyStep(s: State, s': State, c: Client, c': Client, t: nat) {
    && s'.slots == s.slots && s'.aio == s.aio && s'.log == s.log
    && match c.pc
       case Count(i) =>
         c' == c.(pc := Signal(i)) && s'.queueCounter == s.queueCounter + 1 && s'.evQueue == s.evQueue
       case Signal(i) =>
         && c' == c.(pc := if s.evQueue then Spin(i) else Idle)
         && s'.queueCounter == s.queueCounter && s'.evQueue
       case Spin(i) =>
         && i < |s.slots|
         && c' == c.(pc := if s.slots[i].tid == t then Signal(i) else Idle)
         && s'.queueCounter == s.queueCounter && s'.evQueue == s.evQueue
       case _ => false
  }

  predicate SubmitStep(s: State, s': State, t: nat) {
    && ClientFrame(s, s', t)
    && SameAbort(s, s')
    && var c, c' := s.clients[t], s'.clients[t];
    && s'.cancel == (if c.pc.Clear? then Zeroed(s.cancel, User(c.job.aiocb)) else s.cancel)
    && if c.pc.Reserve? then ReserveStep(s, s', c, c', t)
       else if c.pc.Count? || c.pc.Signal? || c.pc.Spin? then NotifyStep(s, s', c, c', t)
       else WriteStep(s, s', c, c')
  }

  predicate CancelCallStep(s: State, s': State, t: nat) {
    && ClientFrame(s, s', t)
    && SameSubmission(s, s') && SameAbort(s, s')
    && var c, c' := s.clients[t], s'.clients[t];
    match c.pc
    case TryLock(n) =>
      if s.cancel.owner.None? then
        && c' == c.(pc := Prepare)
        && s'.cancel == s.cancel.(owner := Some(c.ref), hold := Taken(t, c.ref))
      else
        && s'.cancel == s.cancel
        && (|| (n + 1 < LOCK_TRIES && c' == c.(pc := TryLock(n + 1)))
            // the wait event could not be created, or no try is left
            || ((n == 0 || n + 1 >= LOCK_TRIES) && c' == c.(pc := Idle)))
    case Prepare =>
      || (c' == c.(pc := CountCancel) && s'.cancel == Prepared(s.cancel, c.ref))
      // creating or resetting the event failed: the call returns and keeps the lock
      || (c' == c.(pc := Idle) && s'.cancel == s.cancel.(hold := Leaked))
    case CountCancel =>
      && c' == c.(pc := SignalCancel)
      && s'.cancel == s.cancel.(counter := s.cancel.counter + 1, hold := Asked(t, c.ref))
    case SignalCancel =>
      c' == c.(pc := AwaitCancel) && s'.cancel == s.cancel.(signalled := true)
    case AwaitCancel =>
      // waiting on a null handle fails at once; the status of the wait is not looked at
      && c' == c.(pc := if c.ref in s.cancel.handles then Blocked(s.cancel.handles[c.ref]) else ReadVerdict)
      && s'.cancel == s.cancel
    case Blocked(h) =>
      h in s.cancel.woken && c' == c.(pc := ReadVerdict) && s'.cancel == s.cancel
    case ReadVerdict =>
      && c.ref in s.cancel.verdicts
      && c' == c.(pc := Idle, verdict := s.cancel.verdicts[c.ref]) && s'.cancel == s.cancel
    case _ => false
  }

  predicate FreeStep(s: State, s': State, t: nat) {
    && ClientFrame(s, s', t)
    && SameSubmission(s, s') && s'.cancel == s.cancel
    && var c, c' := s.clients[t], s'.clients[t];
    match c.pc
    case CountAbort =>
      c' == c.(pc := SignalAbort) && s'.abortCounter == s.abortCounter + 1 && s'.evAbort == s.evAbort
    case SignalAbort =>
      c' == c.(pc := AwaitEnd) && s'.abortCounter == s.abortCounter && s'.evAbort
    case AwaitEnd =>
      // both threads have ended, or a minute has passed before that
      && s'.abortCounter == s.abortCounter && s'.evAbort == s.evAbort
      && c' == c.(pc := Idle, verdict := if s.loop.LoopDone? && s.io.IoDone? then 0 else -EACCES)
    case _ => false
  }

  /** An idle client enters one of the three calls. */
  predicate EnterSubmit(s: State, s': State, t: nat) {
    && ClientFrame(s, s', t) && SameSubmission(s, s') && SameAbort(s, s') && s'.cancel == s.cancel
    && var c, c' := s.clients[t], s'.clients[t];
    && c.pc.Idle? && c'.pc == Reserve(0, 0) && c'.ref == c.ref && c'.verdict == c.verdict
    // a process id is never 0; an opcode out of range is refused before anything is shared
    && c'.pid != 0 && OP_READ <= c'.job.opcode <= OP_NOP
  }

  predicate EnterCancel(s: State, s': State, t: nat) {
    && ClientFrame(s, s', t) && SameSubmission(s, s') && SameAbort(s, s')
    && var c, c' := s.clients[t], s'.clients[t];
    && c.pc.Idle? && c' == c.(pc := TryLock(0), ref := c'.ref)
    && (c'.ref.Local? ==> c'.ref == Local(t))
    // the aiocb on the stack starts all 0
    && s'.cancel == if c'.ref.Local? then Zeroed(s.cancel, c'.ref) else s.cancel
  }

  predicate EnterFree(s: State, s': State, t: nat) {
    && ClientFrame(s, s', t) && SameSubmission(s, s') && SameAbort(s, s') && s'.cancel == s.cancel
    && s.clients[t].pc.Idle? && s'.clients[t] == s.clients[t].(pc := CountAbort)
  }

  // ----- loop thread steps -----

  predicate LoopFrame(s: State, s': State) {
    && s'.clients == s.clients && s'.io == s.io && s'.ioType == s.ioType
    && s'.evAbort == s.evAbort && s'.passes == s.passes && s'.log == s.log
  }

  predicate SameQueueing(s: State, s': State) {
    && s'.slots == s.slots && s'.queueCounter == s.queueCounter && s'.evQueue == s.evQueue
  }

  predicate SameIo(s: State, s': State) {
    && s'.dataCounter == s.dataCounter && s'.ioCounter == s.ioCounter
    && s'.evIo == s.evIo && s'.evComplete == s.evComplete && s'.acks == s.acks
  }

  predicate SameRequests(s: State, s': State) {
    && s'.packet == s.packet && s'.lists == s.lists && s'.aio == s.aio
    && s'.overwrites == s.overwrites
  }

  /** cx_shutdown_response: the aiocb of the packet, if there is one, is cancelled. */
  function CurrentCancelled(s: State): map<nat, Aio> {
    if s.packet.Some? && s.packet.value < |s.lists.nodes| then
      var a := s.lists.nodes[s.packet.value].packet.aiocb;
      s.aio[a := GetAio(s.aio, a).(qstatus := Cancelled)]
    else s.aio
  }

  /**
   waio_loop up to the wait, the abort poll that follows it, and the shutdown:
   the loop waits for the I/O thread to end, calls the hook and ends.
   */
  predicate LoopWaitStep(s: State, s': State) {
    && LoopFrame(s, s') && SameQueueing(s, s') && SameIo(s, s')
    && s'.packet == s.packet && s'.lists == s.lists && s'.overwrites == s.overwrites
    && s'.aio == (if s.loop.Shutdown? then CurrentCancelled(s) else s.aio)
    && s'.cancel == s.cancel
    && s'.abortCounter == (if s.loop.DecAbort? then s.abortCounter - 1 else s.abortCounter)
    && match s.loop
       case TestQueue => s'.loop == if s.queueCounter == 0 then TestData else PollAbort
       case TestData => s'.loop == if s.dataCounter == 0 then TestCancel else PollAbort
       case TestCancel => s'.loop == if s.cancel.counter == 0 then LoopWait else PollAbort
       case LoopWait => (s.evAbort || s.cancel.signalled || s.evQueue) && s'.loop == PollAbort
       case PollAbort => s'.loop == if s.abortCounter == 0 then PollCancel else DecAbort
       case DecAbort => s'.loop == Shutdown
       case Shutdown => s.io.IoDone? && s'.loop == LoopDone
       case _ => false
  }

  /**
   The cancellation branch of waio_loop, with waio_cancel_return inside it.
   What serving a request does to the lists and to the statuses of the aiocbs
   is left arbitrary here, so that what is proved of the protocol holds
   whatever the unlink leaves behind.
   */
  predicate LoopCancelStep(s: State, s': State) {
    && LoopFrame(s, s') && SameQueueing(s, s') && SameIo(s, s')
    && s'.abortCounter == s.abortCounter
    && s'.packet == s.packet && s'.overwrites == s.overwrites
    && |s'.lists.nodes| == |s.lists.nodes|
    && (!s.loop.Serve? ==> s'.lists == s.lists && s'.aio == s.aio)
    && match s.loop
       case PollCancel =>
         s'.loop == (if s.cancel.counter == 0 then PollData else DecCancel) && s'.cancel == s.cancel
       case DecCancel =>
         s'.loop == Serve && s'.cancel == s.cancel.(counter := s.cancel.counter - 1)
       case Serve =>
         && s.cancel.owner.Some? && s'.loop == Wake
         && s.cancel.owner.value in s'.cancel.verdicts
         && s'.cancel == s.cancel.(verdicts := s.cancel.verdicts[
                                     s.cancel.owner.value := s'.cancel.verdicts[s.cancel.owner.value]])
       case Wake =>
         && s.cancel.owner.Some? && s'.loop == ResetCancel
         && s'.cancel == EventSet(s.cancel, s.cancel.owner.value)
                         .(hold := if s.cancel.hold.Asked? then Served(s.cancel.hold.tid, s.cancel.hold.ref)
                                   else s.cancel.hold)
       case ResetCancel =>
         s'.loop == Unlock && s'.cancel == s.cancel.(signalled := false)
       case Unlock =>
         s'.loop == PollData && s'.cancel == s.cancel.(owner := None, hold := Open)
       case _ => false
  }

  /** The acknowledgement branch of waio_loop (without the dequeue inside it). */
  predicate LoopAckStep(s: State, s': State) {
    && LoopFrame(s, s') && SameQueueing(s, s') && SameRequests(s, s')
    && s'.cancel == s.cancel && s'.abortCounter == s.abortCounter
    && s'.dataCounter == (if s.loop.DecData? then s.dataCounter - 1 else s.dataCounter)
    && s'.ioCounter == (if s.loop.DecIo? then s.ioCounter - 1 else s.ioCounter)
    && s'.evIo == (s.evIo && !s.loop.ResetIo?)
    && s'.evComplete == (s.evComplete || s.loop.SetComplete?)
    && s'.acks == (if s.loop.SetComplete? then s.acks + 1 else s.acks)
    && match s.loop
       case PollData => s'.loop == if s.dataCounter == 0 then PollQueue else DecData
       case DecData => s'.loop == DecIo
       case DecIo => s'.loop == Dequeue(true)
       case ResetIo => s'.loop == SetComplete
       case SetComplete => s'.loop == PollQueue
       case _ => false
  }

  /** waio_dequeue on the lists: the head leaves the queue for the free list. */
  predicate TakeHead(q: Lists, q': Lists) {
    && q.queue.Some? && q.queue.value < |q.nodes|
    && var n := q.queue.value; var rest := q.nodes[n].next;
    q' == Lists(q.nodes[n := q.nodes[n].(next := q.qfree)], rest,
                if rest.None? then None else q.qtail, Some(n))
  }

  /** waio_dequeue: detach the head, make it the packet, push it on the free list. */
  predicate LoopDequeueStep(s: State, s': State) {
    && LoopFrame(s, s') && SameQueueing(s, s')
    && s'.cancel == s.cancel && s'.abortCounter == s.abortCounter
    && s'.dataCounter == s.dataCounter && s'.evComplete == s.evComplete && s'.acks == s.acks
    && s'.aio == s.aio
    && match s.loop
       case Dequeue(ack) =>
         && s'.ioCounter == s.ioCounter && s'.evIo == s.evIo
         && var q := s.lists;
         if q.queue.None? then
           && s'.loop == (if ack then ResetIo else ResetQueue)
           && s'.packet == s.packet && s'.lists == q && s'.overwrites == s.overwrites
         else
           && TakeHead(q, s'.lists)
           && s'.loop == IncIo(ack) && s'.packet == q.queue
           && s'.overwrites == if s.packet.Some? then s.overwrites + 1 else s.overwrites
       case IncIo(ack) =>
         && s'.ioCounter == s.ioCounter + 1 && s'.evIo == s.evIo
         && s'.loop == SetIo(ack)
         && s'.packet == s.packet && s'.lists == s.lists && s'.overwrites == s.overwrites
       case SetIo(ack) =>
         && s'.ioCounter == s.ioCounter && s'.evIo
         && s'.loop == (if ack then ResetIo else ResetQueue)
         && s'.packet == s.packet && s'.lists == s.lists && s'.overwrites == s.overwrites
       case _ => false
  }

  function RequestNode(j: Job): Node {
    Node(j, Packet(j.buf, j.nbytes, j.offset, j.aiocb, IOSB_PENDING), None)
  }

  /** waio_enqueue on one slot: behead the free list, copy the slot, append. */
  predicate TakeNode(q: Lists, q': Lists, j: Job) {
    && q.qfree.Some? && q.qfree.value < |q.nodes|
    && var n := q.qfree.value; var nodes := q.nodes[n := RequestNode(j)];
    && q'.qfree == q.nodes[n].next && q'.qtail == Some(n)
    && if q.qtail.None? then q'.nodes == nodes && q'.queue == Some(n)
       else
         && q.qtail.value < |nodes| && q'.queue == q.queue
         && q'.nodes == nodes[q.qtail.value := nodes[q.qtail.value].(next := Some(n))]
  }

  predicate LoopQueueStep(s: State, s': State) {
    && LoopFrame(s, s') && SameIo(s, s')
    && s'.cancel == s.cancel && s'.abortCounter == s.abortCounter
    && s'.packet == s.packet && s'.overwrites == s.overwrites
    && (!s.loop.Take? ==> s'.lists == s.lists && s'.aio == s.aio)
    && s'.queueCounter == (if s.loop.DecQueue? then s.queueCounter - 1 else s.queueCounter)
    && s'.evQueue == (s.evQueue && !s.loop.ResetQueue?)
    && (!s.loop.ClearPid? && !s.loop.ClearTid? ==> s'.slots == s.slots)
    && match s.loop
       case PollQueue => s'.loop == if s.queueCounter == 0 then Dequeue(false) else TestFree
       case TestFree => s'.loop == if s.lists.qfree.None? then Dequeue(false) else Scan(0)
       case Scan(i) =>
         s'.loop == if i >= |s.slots| then Dequeue(false)
                    else if s.slots[i].pid == 0 then Scan(i + 1) else DecQueue(i)
       case DecQueue(i) => s'.loop == Take(i)
       case Take(i) =>
         && i < |s.slots| && s'.loop == ClearPid(i)
         && var j := s.slots[i].data;
         && TakeNode(s.lists, s'.lists, j)
         && s'.aio == s.aio[j.aiocb := GetAio(s.aio, j.aiocb).(request := s.lists.qfree)]
       case ClearPid(i) =>
         && i < |s.slots| && s'.loop == ClearTid(i)
         && s'.slots == s.slots[i := s.slots[i].(pid := 0)]
       case ClearTid(i) =>
         && i < |s.slots| && s'.loop == Scan(i + 1)
         && s'.slots == s.slots[i := s.slots[i].(tid := 0)]
       case ResetQueue => s'.loop == TestQueue
       case _ => false
  }

  // ----- I/O thread steps -----

  predicate IoFrame(s: State, s': State) {
    && s'.clients == s.clients && s'.loop == s.loop && s'.cancel == s.cancel
    && s'.slots == s.slots && s'.queueCounter == s.queueCounter && s'.ioCounter == s.ioCounter
    && s'.abortCounter == s.abortCounter && s'.evAbort == s.evAbort && s'.evIo == s.evIo
    && s'.overwrites == s.overwrites && s'.acks == s.acks
    && s'.log.submitted == s.log.submitted
  }

  predicate SameCompletion(s: State, s': State) {
    && s'.dataCounter == s.dataCounter && s'.evQueue == s.evQueue
    && s'.evComplete == s.evComplete && s'.passes == s.passes
  }

  /** waio_thread_shutdown_response: the hook, and the thread ends. */
  predicate Terminate(s: State, s': State) {
    s'.io.IoDone? && s'.aio == CurrentCancelled(s)
  }

  /** waio_io from the wait to the system call. */
  predicate IoBeginStep(s: State, s': State) {
    && IoFrame(s, s') && SameCompletion(s, s')
    && s'.packet == s.packet && s'.lists == s.lists
    && (!s.io.Before? ==> s'.ioType == s.ioType)
    && (!s.io.CheckPacket? || s.packet.None? ==> s'.log == s.log)
    && match s.io
       case TestIo => s'.io == (if s.ioCounter == 0 then IoWait else IoAbort) && s'.aio == s.aio
       case IoWait => (s.evIo || s.evAbort) && s'.io == IoAbort && s'.aio == s.aio
       case IoAbort =>
         if s.abortCounter != 0 then Terminate(s, s') else s'.io == Before && s'.aio == s.aio
       case Before =>
         // cx_before_io: nothing when there is no packet
         && s'.io == CheckPacket
         && if s.packet.None? then s'.aio == s.aio && s'.ioType == s.ioType
            else
              && s.packet.value < |s.lists.nodes|
              && var a := s.lists.nodes[s.packet.value].packet.aiocb;
              var x := GetAio(s.aio, a);
              && x.request.Some? && x.request.value < |s.lists.nodes|
              && s'.aio == s.aio[a := x.(qstatus := Pending)]
              && s'.ioType == s.lists.nodes[x.request.value].job.opcode
       case CheckPacket =>
         if s.packet.None? then Terminate(s, s')
         else
           && s.packet.value < |s.lists.nodes| && s'.aio == s.aio
           && var p := s.lists.nodes[s.packet.value].packet;
           var call := Call(s.ioType, p.data, p.size, p.offset);
           && s'.io == InCall(s.packet.value, call)
           && s'.log == s.log.(calls := s.log.calls + [call])
       case _ => false
  }

  /** waio_io from the system call to the abort test after it. */
  predicate IoCallStep(s: State, s': State) {
    && IoFrame(s, s') && SameCompletion(s, s') && s'.ioType == s.ioType
    && match s.io
       case InCall(n, call) =>
         && s'.io == AfterAbort && s'.packet == s.packet && s'.aio == s.aio
         && n < |s.lists.nodes|
         && (// a pending call is left unfinished when the abort event is signalled
             || (s.evAbort && s'.lists == s.lists && s'.log == s.log)
             || (&& |s'.log.results| > 0
                 && var p := s.lists.nodes[n].packet; var r := s'.log.results[|s'.log.results| - 1];
                 && (call.opcode == OP_NOP ==> r == p.iosb)
                 && s'.lists == s.lists.(nodes := s.lists.nodes[n := s.lists.nodes[n].(packet := p.(iosb := r))])
                 && s'.log == s.log.(results := s.log.results + [r])))
       case AfterAbort =>
         && s'.packet == s.packet && s'.lists == s.lists && s'.log == s.log
         && if s.abortCounter != 0 then Terminate(s, s') else s'.io == After && s'.aio == s.aio
       case _ => false
  }

  /**
   cx_after_io: the aiocb is read once; its status is set, its iosb copied and
   the packet cleared in three steps, the last two of which read the packet
   pointer again. waio_io always passes status 0.
   */
  predicate IoHookStep(s: State, s': State) {
    && IoFrame(s, s') && SameCompletion(s, s') && s'.ioType == s.ioType && s'.lists == s.lists
    && (!s.io.ClearPacket? ==> s'.packet == s.packet && s'.log == s.log)
    && match s.io
       case After =>
         if s.packet.None? then s'.io == IncData && s'.aio == s.aio
         else
           && s.packet.value < |s.lists.nodes|
           && var a := s.lists.nodes[s.packet.value].packet.aiocb;
           && s'.io == CopyIosb(a)
           && s'.aio == s.aio[a := GetAio(s.aio, a).(qstatus := Success)]
       case CopyIosb(a) =>
         && s.packet.Some? && s.packet.value < |s.lists.nodes|
         && var r := s.lists.nodes[s.packet.value].packet.iosb;
         && s'.io == ClearPacket(a, r)
         && s'.aio == s.aio[a := GetAio(s.aio, a).(iosb := r)]
       case ClearPacket(a, r) =>
         && s'.io == IncData && s'.packet.None? && s'.aio == s.aio
         && s'.log == s.log.(completions := s.log.completions + [Completion(a, r)])
       case _ => false
  }

  /** waio_io from the data increment to the end of the pass. */
  predicate IoCompleteStep(s: State, s': State) {
    && IoFrame(s, s') && s'.ioType == s.ioType
    && s'.packet == s.packet && s'.lists == s.lists && s'.log == s.log
    && s'.dataCounter == (if s.io.IncData? then s.dataCounter + 1 else s.dataCounter)
    && s'.passes == (if s.io.IncData? then s.passes + 1 else s.passes)
    && s'.evQueue == (s.evQueue || s.io.SetQueue?)
    && s'.evComplete == (s.evComplete && !s.io.ResetComplete?)
    && match s.io
       case IncData => s'.io == SetQueue && s'.aio == s.aio
       case SetQueue => s'.io == AwaitComplete && s'.aio == s.aio
       case AwaitComplete =>
         // wait-any reports the first signalled handle
         (s.evComplete || s.evAbort) && s'.io == CompleteAbort(!s.evComplete) && s'.aio == s.aio
       case CompleteAbort(byAbort) =>
         if s.abortCounter != 0 then Terminate(s, s')
         else s'.io == (if byAbort then IoDone else ResetComplete) && s'.aio == s.aio
       case ResetComplete => s'.io == TestIo && s'.aio == s.aio
       case _ => false
  }

  // ----- the whole system -----

  ghost predicate ClientStep(s: State, s': State, t: nat) {
    || SubmitStep(s, s', t) || CancelCallStep(s, s', t) || FreeStep(s, s', t)
    || EnterSubmit(s, s', t) || EnterCancel(s, s', t) || EnterFree(s, s', t)
  }

  ghost predicate LoopStep(s: State, s': State) {
    || LoopWaitStep(s, s') || LoopCancelStep(s, s') || LoopAckStep(s, s')
    || LoopDequeueStep(s, s') || LoopQueueStep(s, s')
  }

  ghost predicate IoStep(s: State, s': State) {
    IoBeginStep(s, s') || IoCallStep(s, s') || IoHookStep(s, s') || IoCompleteStep(s, s')
  }

  ghost predicate Next(s: State, s': State) {
    (exists t :: ClientStep(s, s', t)) || LoopStep(s, s') || IoStep(s, s')
  }

  ghost predicate NextAt(run: seq<State>, i: nat) {
    i + 1 < |run| && Next(run[i], run[i + 1])
  }

  /** A finite run of the system; its states are exactly the reachable ones. */
  ghost predicate Run(run: seq<State>) {
    && |run| > 0
    && Init(run[0])
    && forall i :: 0 <= i < |run| - 1 ==> NextAt(run, i)
  }
}
