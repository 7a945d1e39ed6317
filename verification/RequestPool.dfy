/**
 The request pool of one context in its block of memory: one array of nodes,
 two lists threaded through it by their links, worked on in place by the loop
 thread alone. A pointer to a node is its index in the block.
 */
module RequestPool {
  import opened AiocbStatus
  import opened Protocol
  import opened PoolSpec
  import opened PoolRefinement
  import opened PoolCancel
  import opened SlotPass
  import StaleTail

  /** As many as fit, and no more would. */
  function NodesThatFit(space: nat, nodeSize: nat): (count: nat)
    requires nodeSize > 0
    ensures count * nodeSize <= space < (count + 1) * nodeSize
    ensures space >= nodeSize ==> count > 0
  {
    space / nodeSize
  }

  datatype Enqueued = Ok | DeviceBusy | NullDereference

  /** What a cancellation answers, unless it follows the packet pointer when that is null. */
  datatype Answer = NoPacket | Answered(verdict: Verdict)

  /** What one iteration of the loop comes to; no result of waio_enqueue when queue_counter was 0. */
  datatype Iteration = Fault | Done(verdict: Verdict, enqueued: Option<Enqueued>)

  // ----- what an iteration that cancels an aiocb makes of a pool in order -----

  function Acknowledged(v: JobPool, completed: bool): (w: JobPool)
    requires |v.q| == |v.jobs|
    ensures |w.q| == |w.jobs|
  {
    if completed then Dispatch(v) else v
  }

  /** A stale tail stays stale unless the acknowledgement dispatches the only entry. */
  predicate StillStale(v: JobPool, stale: bool, completed: bool) {
    stale && !(completed && |v.q| == 1)
  }

  /** It has dispatched one of several, and left two nodes that waio_enqueue takes in turn. */
  predicate TakesInTurn(v: JobPool, stale: bool, completed: bool) {
    stale && completed && |v.q| > 1
  }

  /** What waio_enqueue comes to with so many free nodes and so many requests to take. */
  function EnqueueOf(counted: bool, free: nat, inTurn: bool, found: nat): Option<Enqueued> {
    if !counted then None
    else if free == 0 then Some(DeviceBusy)
    else if !inTurn && free < found then Some(NullDereference)
    else Some(Ok)
  }

  /** The same in the rest of an iteration that goes on with this pool. */
  function EnqueueIn(v: JobPool, stale: bool, completed: bool, counted: bool, found: seq<Job>): Option<Enqueued>
    requires |v.q| == |v.jobs|
  {
    EnqueueOf(counted, |Acknowledged(v, completed).f|, TakesInTurn(v, stale, completed), |found|)
  }

  /** What was found is queued: there were nodes for it, and the tail was in order. */
  predicate Queues(v: JobPool, stale: bool, completed: bool, counted: bool, found: seq<Job>)
    requires |v.q| == |v.jobs|
  {
    EnqueueIn(v, stale, completed, counted, found) == Some(Ok) && !StillStale(v, stale, completed)
  }

  /** The pool with these requests taken, if they are put on the queue. */
  function Taking(w: JobPool, queued: bool, found: seq<Job>): (w': JobPool)
    requires |w.q| == |w.jobs|
    ensures |w'.q| == |w'.jobs| && w'.sent == w.sent
  {
    if queued && |found| <= |w.f| then ConsumeAll(w, found) else w
  }

  /** The pool as the last call of waio_dequeue finds it. */
  function BeforeLast(v: JobPool, stale: bool, completed: bool, counted: bool, found: seq<Job>): (w: JobPool)
    requires |v.q| == |v.jobs|
    ensures |w.q| == |w.jobs|
  {
    Taking(Acknowledged(v, completed), Queues(v, stale, completed, counted, found), found)
  }

  /** The pool after the rest of the iteration. */
  function AfterRest(v: JobPool, stale: bool, completed: bool, counted: bool, found: seq<Job>): JobPool
    requires |v.q| == |v.jobs|
  {
    Dispatch(BeforeLast(v, stale, completed, counted, found))
  }

  /** The removed request was the last one. */
  predicate LeavesStale(v: JobPool, a: nat) {
    FirstMatch(v.jobs, a) + 1 == |v.jobs|
  }

  /** What waio_enqueue returns, and the pool afterwards, when the request of `a` has been removed first. */
  function EnqueueWithout(v: JobPool, a: nat, completed: bool, counted: bool, found: seq<Job>): Option<Enqueued>
    requires |v.q| == |v.jobs|
  {
    EnqueueIn(Without(v, a), LeavesStale(v, a), completed, counted, found)
  }

  function Iterated(v: JobPool, a: nat, completed: bool, counted: bool, found: seq<Job>): JobPool
    requires |v.q| == |v.jobs|
  {
    AfterRest(Without(v, a), LeavesStale(v, a), completed, counted, found)
  }

  /** Some job of the aiocb is in the list. */
  ghost predicate Has(jobs: seq<Job>, a: nat) {
    exists i :: 0 <= i < |jobs| && jobs[i].aiocb == a
  }

  /** More than one is. */
  ghost predicate HasTwo(jobs: seq<Job>, a: nat) {
    exists i, j :: 0 <= i < j < |jobs| && jobs[i].aiocb == a && jobs[j].aiocb == a
  }

  lemma HasEither(x: seq<Job>, y: seq<Job>, a: nat)
    ensures Has(x + y, a) <==> Has(x, a) || Has(y, a)
  {
    if i :| 0 <= i < |x| && x[i].aiocb == a {
      assert (x + y)[i].aiocb == a;
    }
    if i :| 0 <= i < |y| && y[i].aiocb == a {
      assert (x + y)[|x| + i].aiocb == a;
    }
  }

  lemma AnotherLeft(v: JobPool, a: nat)
    requires |v.q| == |v.jobs|
    ensures Has(Without(v, a).jobs, a) <==> HasTwo(v.jobs, a)
  {
    var k, rest := FirstMatch(v.jobs, a), Without(v, a).jobs;
    if i :| 0 <= i < |rest| && rest[i].aiocb == a {
      assert k <= i && v.jobs[k].aiocb == a && v.jobs[i + 1].aiocb == a;
    }
    if i, j :| 0 <= i < j < |v.jobs| && v.jobs[i].aiocb == a && v.jobs[j].aiocb == a {
      assert rest[j - 1].aiocb == a;
    }
  }

  /** What the iteration dispatches, followed by what is queued after it. */
  function DispatchedOrQueued(v: JobPool, v': JobPool): seq<Job> {
    if |v.sent| <= |v'.sent| then v'.sent[|v.sent|..] + v'.jobs else []
  }

  lemma DispatchPasses(v: JobPool, w: JobPool)
    requires |w.q| == |w.jobs| && v.sent <= w.sent
    ensures DispatchedOrQueued(v, Dispatch(w)) == DispatchedOrQueued(v, w) && v.sent <= Dispatch(w).sent
  {
  }

  lemma TakingPasses(v: JobPool, w: JobPool, queued: bool, found: seq<Job>)
    requires |w.q| == |w.jobs| && v.sent <= w.sent
    ensures DispatchedOrQueued(v, Taking(w, queued, found))
         == DispatchedOrQueued(v, w) + (if queued && |found| <= |w.f| then found else [])
  {
    if queued && |found| <= |w.f| {
      ConsumeAllIs(w, found);
    }
  }

  lemma AcknowledgedPasses(v: JobPool, x: JobPool, completed: bool)
    requires |x.q| == |x.jobs| && v.sent == x.sent
    ensures v.sent <= Acknowledged(x, completed).sent && DispatchedOrQueued(v, Acknowledged(x, completed)) == x.jobs
  {
    DispatchPasses(v, x);
  }

  /** Nodes for what is queued there are. */
  lemma QueuesFit(v: JobPool, stale: bool, completed: bool, counted: bool, found: seq<Job>)
    requires |v.q| == |v.jobs| && Queues(v, stale, completed, counted, found)
    ensures |found| <= |Acknowledged(v, completed).f|
  {
  }

  lemma DispatchedOrQueuedIs(v: JobPool, x: JobPool, stale: bool, completed: bool, counted: bool, found: seq<Job>)
    requires |x.q| == |x.jobs| && v.sent == x.sent
    ensures DispatchedOrQueued(v, AfterRest(x, stale, completed, counted, found))
         == x.jobs + (if Queues(x, stale, completed, counted, found) then found else [])
  {
    var w, queued := Acknowledged(x, completed), Queues(x, stale, completed, counted, found);
    AcknowledgedPasses(v, x, completed);
    TakingPasses(v, w, queued, found);
    DispatchPasses(v, Taking(w, queued, found));
    if queued {
      QueuesFit(x, stale, completed, counted, found);
    }
  }

  /** The queue held two requests of the aiocb, or one was found in a slot and could be queued. */
  ghost predicate Survives(v: JobPool, a: nat, completed: bool, counted: bool, found: seq<Job>)
    requires |v.q| == |v.jobs|
  {
    HasTwo(v.jobs, a) || (Queues(Without(v, a), LeavesStale(v, a), completed, counted, found) && Has(found, a))
  }

  /** Exactly then a request of an aiocb that has just been answered is dispatched or queued all the same. */
  lemma SurvivesIff(v: JobPool, a: nat, completed: bool, counted: bool, found: seq<Job>)
    requires |v.q| == |v.jobs|
    ensures var v' := Iterated(v, a, completed, counted, found);
            Has(DispatchedOrQueued(v, v'), a) <==> Survives(v, a, completed, counted, found)
  {
    var x, stale := Without(v, a), LeavesStale(v, a);
    DispatchedOrQueuedIs(v, x, stale, completed, counted, found);
    AnotherLeft(v, a);
    HasEither(x.jobs, if Queues(x, stale, completed, counted, found) then found else [], a);
  }

  /** The jobs without the first of the aiocb. */
  function Others(jobs: seq<Job>, a: nat): seq<Job> {
    var k := FirstMatch(jobs, a);
    if k < |jobs| then jobs[..k] + jobs[k + 1..] else jobs
  }

  /** The first of the aiocb is the last in the queue, so that its removal leaves the tail behind. */
  predicate RemovesLast(jobs: seq<Job>, a: nat) {
    FirstMatch(jobs, a) + 1 == |jobs|
  }

  lemma WithoutIs(v: JobPool, a: nat)
    requires |v.q| == |v.jobs|
    ensures var x := Without(v, a);
            |x.q| == |x.jobs| && x.jobs == Others(v.jobs, a) && x.sent == v.sent && |x.f| >= |v.f|
  {
  }

  lemma DispatchIs(w: JobPool)
    requires |w.q| == |w.jobs|
    ensures var w' := Dispatch(w);
            && |w'.q| == |w'.jobs| && w'.sent + w'.jobs == w.sent + w.jobs && |w'.f| >= |w.f|
            && |w'.sent| == |w.sent| + (if w.jobs != [] then 1 else 0)
  {
  }

  lemma TakingIs(w: JobPool, queued: bool, found: seq<Job>)
    requires |w.q| == |w.jobs| && (queued ==> |found| <= |w.f|)
    ensures Taking(w, queued, found).jobs == w.jobs + if queued then found else []
  {
    if queued {
      ConsumeAllIs(w, found);
    }
  }

  lemma BeforeLastIs(x: JobPool, completed: bool, counted: bool, found: seq<Job>)
    requires |x.q| == |x.jobs| && (counted ==> |found| <= |x.f|)
    ensures x.f != [] ==> EnqueueIn(x, false, completed, counted, found) == if counted then Some(Ok) else None
    ensures var w, b := Acknowledged(x, completed), BeforeLast(x, false, completed, counted, found);
            b.sent == w.sent && b.jobs == w.jobs + if counted then found else []
  {
    DispatchIs(x);
    TakingIs(Acknowledged(x, completed), counted, found);
  }

  /** The rest of an iteration that goes on with the tail in order. */
  lemma RestIs(x: JobPool, completed: bool, counted: bool, found: seq<Job>)
    requires |x.q| == |x.jobs| && (counted ==> |found| <= |x.f|)
    ensures x.f != [] ==> EnqueueIn(x, false, completed, counted, found) == if counted then Some(Ok) else None
    ensures var v', all := AfterRest(x, false, completed, counted, found), x.jobs + if counted then found else [];
            var early := if completed && x.jobs != [] then 1 else 0;
            && v'.sent + v'.jobs == x.sent + all
            && |v'.sent| - |x.sent| == early + (if |all| > early then 1 else 0)
            && (|all| > early ==> BeforeLast(x, false, completed, counted, found).jobs != [])
  {
    var w, more := Acknowledged(x, completed), if counted then found else [];
    DispatchIs(x);
    BeforeLastIs(x, completed, counted, found);
    DispatchIs(BeforeLast(x, false, completed, counted, found));
    assert w.sent + (w.jobs + more) == (w.sent + w.jobs) + more == x.sent + (x.jobs + more);
  }

  /**
   What an iteration does with the requests when nodes suffice and the tail is in
   order: with none counted it finds none; otherwise they go behind what is
   left in the queue. One is dispatched for a completion, from what was queued
   before, and one at the end.
   */
  lemma IteratedIs(v: JobPool, a: nat, completed: bool, counted: bool, found: seq<Job>)
    requires |v.q| == |v.jobs| && !RemovesLast(v.jobs, a)
    requires counted ==> |found| <= |v.f|
    ensures v.f != [] ==> EnqueueWithout(v, a, completed, counted, found) == if counted then Some(Ok) else None
    ensures var v', all := Iterated(v, a, completed, counted, found), Others(v.jobs, a) + if counted then found else [];
            var early := if completed && Others(v.jobs, a) != [] then 1 else 0;
            && v'.sent + v'.jobs == v.sent + all
            && |v'.sent| - |v.sent| == early + (if |all| > early then 1 else 0)
            && (|all| > early ==> BeforeLast(Without(v, a), false, completed, counted, found).jobs != [])
  {
    WithoutIs(v, a);
    RestIs(Without(v, a), completed, counted, found);
  }

  /**
   With nodes enough and the last queued request not the one removed, every
   request, in order, has gone to the I/O thread or is queued; one was dispatched
   for a completion if any was queued then, and one at the end if any was, with
   the packet carried.
   */
  ghost predicate AllInOrder(v: JobPool, v': JobPool, a: nat, completed: bool, more: seq<Job>, carried: bool) {
    var k := FirstMatch(v.jobs, a);
    k + 1 != |v.jobs| && |more| <= |v.f| ==>
      var left := if k < |v.jobs| then v.jobs[..k] + v.jobs[k + 1..] else v.jobs;
      var early := if completed && left != [] then 1 else 0;
      && v'.sent + v'.jobs == v.sent + (left + more)
      && |v'.sent| == |v.sent| + early + (if |left + more| > early then 1 else 0)
      && (|left + more| > early ==> carried)
  }

  lemma IteratedInOrder(v: JobPool, a: nat, completed: bool, counted: bool, found: seq<Job>, carried: bool)
    requires |v.q| == |v.jobs|
    requires BeforeLast(Without(v, a), LeavesStale(v, a), completed, counted, found).jobs != [] ==> carried
    ensures AllInOrder(v, Iterated(v, a, completed, counted, found), a, completed, if counted then found else [], carried)
  {
    if !RemovesLast(v.jobs, a) && (counted ==> |found| <= |v.f|) {
      IteratedIs(v, a, completed, counted, found);
    }
  }

  /** What becomes of the requests, in one lemma. */
  lemma Outcome(v: JobPool, a: nat, completed: bool, counted: bool, found: seq<Job>, carried: bool)
    requires |v.q| == |v.jobs|
    requires BeforeLast(Without(v, a), LeavesStale(v, a), completed, counted, found).jobs != [] ==> carried
    ensures var v' := Iterated(v, a, completed, counted, found);
            && (Has(DispatchedOrQueued(v, v'), a) <==> Survives(v, a, completed, counted, found))
            && AllInOrder(v, v', a, completed, if counted then found else [], carried)
  {
    SurvivesIff(v, a, completed, counted, found);
    IteratedInOrder(v, a, completed, counted, found, carried);
  }

  // ----- waio_enqueue on a stale tail -----

  /** What a turn that finds `x` does to the lists. */
  predicate TakenFrom(q: Lists, q': Lists, x: Slot) {
    if x.pid == 0 then q' == q else TakeNode(q, q', x.data)
  }

  /** How the tail stands when a pass begins: in order, on the freed node, between two nodes, or otherwise. */
  datatype TailMode = InOrder | OnFree | InTurn | Elsewhere

  /** The lists after `k` requests have been taken from the free list `f`. */
  ghost predicate SpentIn(mode: TailMode, q: Lists, f: seq<nat>, k: nat) {
    (mode.OnFree? ==> StaleTail.Spent(q, f, k)) && (mode.InTurn? ==> StaleTail.TwoInTurn(q))
  }

  lemma SpentBy(mode: TailMode, q: Lists, q': Lists, f: seq<nat>, k: nat, x: Slot)
    requires TakenFrom(q, q', x) && SpentIn(mode, q, f, k)
    ensures SpentIn(mode, q', f, if x.pid != 0 then k + 1 else k)
  {
    if x.pid != 0 && mode.OnFree? {
      StaleTail.SpentTake(q, q', f, k, x.data);
    }
    if x.pid != 0 && mode.InTurn? {
      StaleTail.TwoInTurnTake(q, q', x.data);
    }
  }

  // ----- the unlink -----

  /** What is left when an entry has been taken out of the queue of these lists. */
  ghost predicate Relinked(q: Lists, q': Lists, v: JobPool, w: JobPool) {
    && (Holds(q, v) ==> Holds(q', w))
    && (StaleTail.Detached(q, v.q) ==> StaleTail.Detached(q', w.q) && AllCarry(q'.nodes, w.q, w.jobs))
  }

  lemma FirstRelinked(q: Lists, q': Lists, v: JobPool, a: nat)
    requires UnlinkHead(q, q') && AllCarry(q.nodes, v.q, v.jobs) && v.q != [] && v.jobs[0].aiocb == a
    ensures Relinked(q, q', v, Without(v, a))
  {
    MatchAt(v.jobs, a, 0);
    if Holds(q, v) {
      FirstUnlinked(q, q', v, a);
    }
    if StaleTail.Detached(q, v.q) {
      StaleTail.DetachedUnlinkFirst(q, q', v.q, v.jobs);
    }
  }

  lemma NextRelinked(q: Lists, q': Lists, v: JobPool, a: nat, k: nat)
    requires AllCarry(q.nodes, v.q, v.jobs) && 0 < k < |v.q| && UnlinkAfter(q, q', v.q[k - 1])
    requires v.jobs[k].aiocb == a && forall i :: 0 <= i < k ==> v.jobs[i].aiocb != a
    ensures Relinked(q, q', v, Without(v, a))
  {
    MatchAt(v.jobs, a, k);
    if Holds(q, v) {
      NextUnlinked(q, q', v, a, k);
    }
    if StaleTail.Detached(q, v.q) {
      StaleTail.DetachedUnlinkNext(q, q', v.q, v.jobs, k);
    }
  }

  class Pool {
    var queue: Option<nat>
    var qtail: Option<nat>
    var qfree: Option<nat>
    var packet: Option<nat>
    var queueCounter: int
    var ioCounter: int
    var aio: map<nat, Aio>
    // the waiters' events in the hpending words, and the handles closed so far
    var hpending: map<nat, int>
    var closed: multiset<int>
    const nodes: array<Node>
    const slots: array<Slot>

    ghost var v: JobPool

    function Links(): Lists
      reads `queue, `qtail, `qfree, nodes
    {
      Lists(nodes[..], queue, qtail, qfree)
    }

    /** Everything but the tail pointer is in order. */
    ghost predicate Holding()
      reads `queue, `qtail, `qfree, `packet, `v, nodes
    {
      Holds(Links(), v) && slots.Length == SLOT_COUNT && (packet.Some? ==> packet.value < nodes.Length)
    }

    /** Everything but the tail is in order, which stands on the head of the free list. */
    ghost predicate Unlinked()
      reads `queue, `qtail, `qfree, `packet, `v, nodes
    {
      Holding() && qfree.Some? && qtail == qfree
    }

    ghost predicate Valid()
      reads `queue, `qtail, `qfree, `packet, `v, nodes
    {
      Represents(Links(), v) && slots.Length == SLOT_COUNT && (packet.Some? ==> packet.value < nodes.Length)
    }

    /** The queue is in order, but the tail stands outside it. */
    ghost predicate Stale()
      reads `queue, `qtail, `qfree, `packet, `v, nodes
    {
      && StaleTail.Detached(Links(), v.q) && AllCarry(Links().nodes, v.q, v.jobs)
      && slots.Length == SLOT_COUNT && (packet.Some? ==> packet.value < nodes.Length)
    }

    /** The queue at least is in order. */
    ghost predicate InQueue()
      reads `queue, `qtail, `qfree, `v, nodes
    {
      Chain(Links().nodes, queue, v.q) && AllCarry(Links().nodes, v.q, v.jobs)
    }

    ghost function AsPass(): Pass
      reads `v, `queueCounter, `aio
    {
      Pass(v, queueCounter, aio)
    }

    // ----- waio_alloc -----

    /** The free-list loop over the nodes of a zeroed block. */
    static method LinkAll(requests: array<Node>)
      requires requests.Length > 0
      requires forall i :: 0 <= i < requests.Length ==> requests[i].next.None?
      modifies requests
      ensures Chained(requests[..])
    {
      var i := 0;
      while i < requests.Length - 1
        invariant 0 <= i <= requests.Length - 1
        invariant forall k :: 0 <= k < i ==> requests[k].next == Some(k + 1)
        invariant forall k :: i <= k < requests.Length ==> requests[k].next.None?
      {
        requests[i] := requests[i].(next := Some(i + 1));
        i := i + 1;
      }
    }

    /** As many nodes as fit the block after its fixed part, all of them free. */
    constructor (blockSize: nat, fixedPart: nat, nodeSize: nat)
      requires nodeSize > 0 && fixedPart + nodeSize <= blockSize
      ensures Valid() && fresh(nodes) && fresh(slots)
      ensures nodes.Length == NodesThatFit(blockSize - fixedPart, nodeSize)
      ensures v == View([], [], UpTo(nodes.Length), [], [])
      ensures packet.None? && queueCounter == 0 && ioCounter == 0 && aio == map[]
      ensures slots[..] == [FREE_SLOT, FREE_SLOT, FREE_SLOT, FREE_SLOT]
    {
      var count := NodesThatFit(blockSize - fixedPart, nodeSize);
      var requests := new Node[count](_ => Node(NO_JOB, Packet(0, 0, 0, 0, 0), None));
      LinkAll(requests);
      nodes := requests;
      slots := new Slot[SLOT_COUNT](_ => FREE_SLOT);
      queue, qtail, packet := None, None, None;
      qfree := Some(0);
      queueCounter, ioCounter := 0, 0;
      aio, hpending, closed := map[], map[], multiset{};
      v := View([], [], UpTo(count), [], []);
      new;
      FreshRefines(Links());
    }

    // ----- waio_enqueue -----

    /** The body of the loop for a published slot, whatever the lists look like. */
    method TakeSlot(i: nat)
      requires i < slots.Length
      requires qfree.Some? && qfree.value < nodes.Length && (qtail.Some? ==> qtail.value < nodes.Length)
      modifies `queue, `qtail, `qfree, `queueCounter, `aio, nodes, slots
      ensures TakeNode(old(Links()), Links(), old(slots[i]).data)
      ensures slots[..] == old(slots[..])[i := old(slots[i]).(pid := 0, tid := 0)]
      ensures queueCounter == old(queueCounter) - 1
      ensures aio == old(aio)[old(slots[i]).data.aiocb :=
                                GetAio(old(aio), old(slots[i]).data.aiocb).(request := old(qfree))]
    {
      var slot := slots[i];
      var j := slot.data;
      // one request fewer to collect
      queueCounter := queueCounter - 1;
      // the first free node leaves the free list, as the last of a chain
      var req := qfree.value;
      qfree := nodes[req].next;
      nodes[req] := nodes[req].(next := None);
      nodes[req] := nodes[req].(job := j);
      // the aiocb points back at its node
      aio := aio[j.aiocb := GetAio(aio, j.aiocb).(request := Some(req))];
      // the packet for the I/O thread, not completed yet
      nodes[req] := nodes[req].(packet := Packet(j.buf, j.nbytes, j.offset, j.aiocb, IOSB_PENDING));
      // behind the tail, or as the only entry
      if qtail.Some? {
        nodes[qtail.value] := nodes[qtail.value].(next := Some(req));
        qtail := Some(req);
      } else {
        queue := Some(req);
        qtail := Some(req);
      }
      // both ids go back to 0
      slots[i] := slot.(pid := 0, tid := 0);
    }

    /** Clients publish in slots that are free. */
    method Publish(m: Arrivals)
      requires slots.Length == SLOT_COUNT
      modifies slots
      ensures slots[..] == Arrive(old(slots[..]), m)
    {
      for k := 0 to SLOT_COUNT
        invariant forall i :: 0 <= i < k ==> slots[i] == Arrive(old(slots[..]), m)[i]
        invariant forall i :: k <= i < SLOT_COUNT ==> slots[i] == old(slots[i])
      {
        if slots[k].pid == 0 && k in m {
          slots[k] := m[k];
        }
      }
    }

    /** One turn of the loop; false stands for the null dereference. */
    method EnqueueTurn(i: nat) returns (ok: bool)
      requires (Valid() || Stale()) && i < SLOT_COUNT
      modifies `queue, `qtail, `qfree, `queueCounter, `aio, `v, nodes, slots
      ensures ok <==> old(slots[i]).pid == 0 || old(qfree).Some?
      ensures old(Valid()) ==> (old(qfree).Some? <==> old(v.f) != [])
      ensures old(Valid()) && ok ==> Valid() && Turn(old(AsPass()), AsPass(), old(slots[i]))
      ensures old(Stale()) && ok ==> Stale() && v == old(v)
      ensures ok ==> TakenFrom(old(Links()), Links(), old(slots[i]))
      ensures ok ==> slots[..] == old(slots[..])[i := Cleared(old(slots[i]))]
      ensures ok ==> queueCounter == old(queueCounter) - (if old(slots[i]).pid != 0 then 1 else 0)
    {
      if slots[i].pid != 0 {
        if qfree.None? {
          return false;
        }
        ghost var j, whole, q := slots[i].data, Valid(), Links();
        TakeSlot(i);
        if whole {
          TakeRefines(q, Links(), v, j);
          v := Consume(v, j);
        } else {
          StaleTail.DetachedTake(q, Links(), v.q, v.jobs, j);
        }
      }
      ok := true;
    }

    /** Clients publish, and the turn finds what is there then. */
    method PassTurn(i: nat, m: Arrivals) returns (ok: bool)
      requires (Valid() || Stale()) && i < SLOT_COUNT
      modifies `queue, `qtail, `qfree, `queueCounter, `aio, `v, nodes, slots
      ensures var x := Arrive(old(slots[..]), m)[i];
              && (ok <==> x.pid == 0 || old(qfree).Some?)
              && (old(Valid()) ==> (old(qfree).Some? <==> old(v.f) != []))
              && (ok ==> TakenFrom(old(Links()), Links(), x))
              && (old(Valid()) && ok ==> Valid() && Turn(old(AsPass()), AsPass(), x))
              && (old(Stale()) && ok ==> Stale() && v == old(v))
              && (ok ==> slots[..] == Arrive(old(slots[..]), m)[i := Cleared(x)])
              && (ok ==> queueCounter == old(queueCounter) - (if x.pid != 0 then 1 else 0))
    {
      Publish(m);
      assert slots[i] == Arrive(old(slots[..]), m)[i];
      ok := EnqueueTurn(i);
    }

    ghost function Mode(): TailMode
      reads `queue, `qtail, `qfree, `packet, `v, nodes
    {
      if Valid() then InOrder else if Unlinked() then OnFree
      else if StaleTail.TwoInTurn(Links()) then InTurn else Elsewhere
    }

    /** `i` turns of a pass that began with the pool and the slots like that. */
    ghost predicate During(p: Pass, was: seq<Slot>, arrivals: seq<Arrivals>, i: nat, mode: TailMode)
      requires |was| == |arrivals| == SLOT_COUNT && i <= SLOT_COUNT
      reads `queue, `qtail, `qfree, `packet, `v, `queueCounter, `aio, nodes, slots
    {
      && slots.Length == SLOT_COUNT && slots[..] == SlotsAfter(was, arrivals, i)
      && queueCounter == p.counter - |Published(Found(was, arrivals, i))|
      && (if mode.InOrder? then Valid() && PassedOver(p, AsPass(), Found(was, arrivals, i)) else Stale() && v == p.v)
      && SpentIn(mode, Links(), p.v.f, |Published(Found(was, arrivals, i))|)
    }

    /** One turn more, or no node is left for what it finds. */
    method NextTurn(i: nat, arrivals: seq<Arrivals>, ghost p: Pass, ghost was: seq<Slot>, ghost mode: TailMode)
      returns (ok: bool)
      requires i < SLOT_COUNT == |was| == |arrivals| && During(p, was, arrivals, i, mode)
      modifies `queue, `qtail, `qfree, `queueCounter, `aio, `v, nodes, slots
      ensures ok ==> During(p, was, arrivals, i + 1, mode)
      ensures !ok && (mode.InOrder? || mode.OnFree?) ==> |p.v.f| < |Published(Found(was, arrivals, i + 1))|
      ensures !ok ==> !mode.InTurn?
    {
      ghost var p', q, found := AsPass(), Links(), Found(was, arrivals, i);
      ghost var x := Arrive(slots[..], arrivals[i])[i];
      PublishedAppend(found, x);
      ok := PassTurn(i, arrivals[i]);
      if !ok {
        if mode.InOrder? {
          OutOfNodes(p, p', found, x);
        }
        return;
      }
      if mode.InOrder? {
        TurnPasses(p, p', AsPass(), found, x);
      }
      SpentBy(mode, q, Links(), p.v.f, |Published(found)|, x);
    }

    /** The loop over the slots. */
    method PassOver(arrivals: seq<Arrivals>, ghost mode: TailMode) returns (ok: bool)
      requires |arrivals| == SLOT_COUNT == slots.Length && During(AsPass(), slots[..], arrivals, 0, mode)
      modifies `queue, `qtail, `qfree, `queueCounter, `aio, `v, nodes, slots
      ensures ok ==> During(old(AsPass()), old(slots[..]), arrivals, SLOT_COUNT, mode)
      ensures !ok && (mode.InOrder? || mode.OnFree?) ==>
                |old(v.f)| < |Published(Found(old(slots[..]), arrivals, SLOT_COUNT))|
      ensures !ok ==> !mode.InTurn?
    {
      ghost var p, was := AsPass(), slots[..];
      for i := 0 to SLOT_COUNT
        invariant During(p, was, arrivals, i, mode)
      {
        FoundGrows(was, arrivals, i + 1, SLOT_COUNT);
        ok := NextTurn(i, arrivals, p, was, mode);
        if !ok {
          return;
        }
      }
      ok := true;
    }

    /**
     waio_enqueue, with clients publishing before each turn. The free list is
     tested once, before the loop; running out of nodes inside the loop is
     reported as a result of its own. With a stale tail the pool itself gains
     nothing from what is taken; it runs out of nodes as before while the tail is
     where the unlink has put it, and never after a dispatch.
     */
    method Enqueue(arrivals: seq<Arrivals>) returns (r: Enqueued)
      requires (Valid() || Stale()) && |arrivals| == SLOT_COUNT
      modifies `queue, `qtail, `qfree, `queueCounter, `aio, `v, nodes, slots
      ensures r.DeviceBusy? <==> old(qfree).None?
      ensures r.DeviceBusy? ==> AsPass() == old(AsPass()) && slots[..] == old(slots[..]) && Links() == old(Links())
      ensures r.Ok? ==>
                && slots[..] == SlotsAfter(old(slots[..]), arrivals, SLOT_COUNT)
                && queueCounter == old(queueCounter) - |Published(Found(old(slots[..]), arrivals, SLOT_COUNT))|
      ensures old(Valid()) ==>
                var jobs := Published(Found(old(slots[..]), arrivals, SLOT_COUNT));
                && (r.DeviceBusy? <==> old(v.f) == [])
                && (r.NullDereference? <==> 0 < |old(v.f)| < |jobs|)
                && (r.DeviceBusy? ==> Valid())
                && (r.Ok? ==>
                      && Valid()
                      && |jobs| <= |old(v.f)|
                      && v == ConsumeAll(old(v), jobs)
                      && aio == LinkEach(old(aio), jobs, old(v.f)))
      ensures old(Stale()) && !r.NullDereference? ==> Stale() && v == old(v)
      ensures old(Mode()).OnFree? ==>
                (r.NullDereference? <==> |old(v.f)| < |Published(Found(old(slots[..]), arrivals, SLOT_COUNT))|)
      ensures old(Mode()).InTurn? ==> r.Ok?
    {
      // only this once is the free list tested
      if qfree.None? {
        return DeviceBusy;
      }
      ghost var mode := Mode();
      if mode.OnFree? {
        StaleTail.SpentStart(Links(), v);
      }
      var ok := PassOver(arrivals, mode);
      r := if ok then Ok else NullDereference;
    }

    // ----- waio_dequeue -----

    /** waio_dequeue, whatever the lists look like. The packet is not tested. */
    method DequeueHead()
      requires queue.Some? ==> queue.value < nodes.Length
      modifies `queue, `qtail, `qfree, `packet, `ioCounter, nodes
      ensures old(queue).None? ==> Links() == old(Links()) && packet == old(packet) && ioCounter == old(ioCounter)
      ensures old(queue).Some? ==>
                TakeHead(old(Links()), Links()) && packet == old(queue) && ioCounter == old(ioCounter) + 1
    {
      if queue.Some? {
        var req := queue.value;
        packet := Some(req);
        // the node is free again while its packet is in use
        queue := nodes[req].next;
        nodes[req] := nodes[req].(next := qfree);
        qfree := Some(req);
        // no entry, no tail
        if queue.None? {
          qtail := None;
        }
        ioCounter := ioCounter + 1;
      }
    }

    /**
     It is `Dispatch`, and the packet is the head's, with the head's job; when it
     empties a queue with a stale tail, the tail is in order again.
     */
    method Dequeue()
      requires Valid() || Stale()
      modifies `queue, `qtail, `qfree, `packet, `ioCounter, `v, nodes
      ensures v == Dispatch(old(v)) && InQueue()
      ensures old(Valid()) ==> Valid()
      ensures old(Stale()) && |old(v.q)| != 1 ==> Stale()
      ensures old(Holding()) && |old(v.q)| == 1 ==> Valid()
      ensures packet.Some? ==> packet.value < nodes.Length
      ensures if old(v.q) == [] then Links() == old(Links()) else TakeHead(old(Links()), Links())
      ensures old(v.q) == [] ==> packet == old(packet) && ioCounter == old(ioCounter)
      ensures old(v.q) != [] ==>
                && packet == Some(old(v.q[0])) && old(v.q[0]) < nodes.Length
                && Carries(nodes[old(v.q[0])], old(v.jobs[0]))
                && ioCounter == old(ioCounter) + 1
    {
      ghost var q, whole, stale, holding := Links(), Valid(), Stale(), Holding();
      DequeueHead();
      if v.q != [] {
        if holding && (whole || |v.q| == 1) {
          HeadHeld(q, Links(), v);
        }
        if stale {
          StaleTail.DetachedHead(q, Links(), v.q, v.jobs);
        }
        v := Dispatch(v);
      }
    }

    // ----- waio_cancel_aiocb, one aiocb -----

    /** The scan behind the head: `next` is the match or null, `req` the node before it. */
    method Find(a: nat) returns (req: nat, next: Option<nat>, ghost k: nat)
      requires InQueue() && v.q != [] && v.jobs[0].aiocb != a
      ensures Scanned(v, a, req, next, k)
      ensures next.Some? ==> k + 1 < |v.q| && v.jobs[k + 1].aiocb == a
    {
      k := 0;
      req := queue.value;
      next := nodes[req].next;
      while next.Some? && nodes[next.value].packet.aiocb != a
        invariant Scanned(v, a, req, next, k)
        decreases |v.q| - k
      {
        req := next.value;
        next := nodes[req].next;
        k := k + 1;
      }
    }

    /** Take `n` out of the queue, given what now points past it, and free it. */
    method Free(n: nat)
      requires n < nodes.Length
      modifies `qfree, nodes
      ensures Links() == Lists(old(nodes[..])[n := old(nodes[n]).(next := old(qfree))], queue, qtail, Some(n))
    {
      nodes[n] := nodes[n].(next := qfree);
      qfree := Some(n);
    }

    method UnlinkFirst()
      requires queue.Some? && queue.value < nodes.Length
      modifies `queue, `qfree, nodes
      ensures UnlinkHead(old(Links()), Links())
    {
      var req := queue.value;
      queue := nodes[req].next;
      Free(req);
    }

    method UnlinkNext(req: nat)
      requires req < nodes.Length && nodes[req].next.Some? && nodes[req].next.value < nodes.Length
      modifies `qfree, nodes
      ensures UnlinkAfter(old(Links()), Links(), req)
    {
      var next := nodes[req].next.value;
      nodes[req] := nodes[req].(next := nodes[next].next);
      Free(next);
    }

    /** The first entry matches. */
    method RelinkFirst(a: nat)
      requires InQueue() && v.q != [] && v.jobs[0].aiocb == a
      modifies `queue, `qfree, nodes
      ensures Relinked(old(Links()), Links(), v, Without(v, a))
    {
      ghost var q := Links();
      UnlinkFirst();
      FirstRelinked(q, Links(), v, a);
    }

    /** The entry behind `req` matches. */
    method RelinkNext(a: nat, req: nat, ghost k: nat)
      requires InQueue() && Scanned(v, a, req, At(v.q, k + 1), k) && k + 1 < |v.q| && v.jobs[k + 1].aiocb == a
      modifies `queue, `qfree, nodes
      ensures Relinked(old(Links()), Links(), v, Without(v, a))
    {
      ghost var q := Links();
      UnlinkNext(req);
      NextRelinked(q, Links(), v, a, k + 1);
    }

    /** The links after the removal of the first entry of the aiocb, if there is one. */
    method Relink(a: nat)
      requires InQueue()
      modifies `queue, `qfree, nodes
      ensures Relinked(old(Links()), Links(), v, Without(v, a))
    {
      if queue.None? {
        return;
      }
      if nodes[queue.value].packet.aiocb == a {
        RelinkFirst(a);
      } else {
        var req, next, k := Find(a);
        if next.None? {
          NoMatch(v.jobs, a);
          return;
        }
        RelinkNext(a, req, k);
      }
    }

    /**
     Remove the first entry of the aiocb from the queue. With a stale tail it is
     removed as well, and the tail stays stale.
     */
    method Unlink(a: nat)
      requires Valid() || Stale()
      modifies `queue, `qfree, `v, nodes
      ensures v == Without(old(v), a) && InQueue()
      ensures old(Holding()) ==> Holding()
      ensures old(Valid()) ==> (Valid() <==> FirstMatch(old(v.jobs), a) + 1 != |old(v.jobs)|)
      ensures old(Valid()) ==> (Stale() <==> FirstMatch(old(v.jobs), a) + 1 == |old(v.jobs)|)
      ensures old(Valid()) && Stale() ==> Unlinked()
      ensures old(Stale()) ==> Stale()
    {
      ghost var q, whole := Links(), Valid();
      Relink(a);
      if whole {
        WholeExactly(q, Links(), v, a);
        StaleTail.DetachedExactly(q, Links(), v, a);
      }
      v := Without(v, a);
    }

    /** The handle in the word of the aiocb. */
    function Word(a: nat): int
      reads `hpending
    {
      if a in hpending then hpending[a] else 0
    }

    /** The waiter's event is closed, and its handle left in the word. */
    method CloseWaiter(a: nat)
      modifies `closed
      ensures closed == old(closed)
                     + (if a in hpending && hpending[a] != 0 then multiset{hpending[a]} else multiset{})
    {
      if Word(a) != 0 {
        closed := closed + multiset{Word(a)};
      }
    }

    /** The final check of the status. */
    method SetStatus(a: nat) returns (verdict: Verdict)
      modifies `aio
      ensures var q := GetAio(old(aio), a).qstatus;
              verdict == if q.Wait1? || q.Pending? then Canceled else AllDone
      ensures aio == CancelEntry(old(aio), a)
    {
      match GetAio(aio, a).qstatus {
        case Wait1 | Pending =>
          aio := aio[a := GetAio(aio, a).(qstatus := Cancelled)];
          verdict := Canceled;
        case _ =>
          verdict := AllDone;
      }
    }

    /** The aiocb is that of the packet. */
    predicate IsCurrent(a: nat)
      requires packet.Some? ==> packet.value < nodes.Length
      reads `packet, nodes
    {
      packet.Some? && nodes[packet.value].packet.aiocb == a
    }

    /**
     The current request is cancelled when it is that of the aiocb: the loop
     thread waits for the I/O thread, which leaves the aiocb as `settled`. The
     I/O thread clears the packet after the loop thread has read it `looks`
     times; each read after the first test follows the pointer.
     */
    method CancelCurrent(a: nat, settled: Aio, looks: nat) returns (ok: bool)
      requires packet.Some? ==> packet.value < nodes.Length
      modifies `packet, `aio
      ensures packet == old(packet) || packet.None?
      ensures ok <==> !(old(packet).Some? && (looks == 1 || (looks == 2 && old(IsCurrent(a)))))
      ensures aio == if ok && looks > 0 && old(IsCurrent(a)) then old(aio)[a := settled] else old(aio)
    {
      ok := true;
      if looks == 0 {
        packet := None;
      }
      if packet.Some? {
        var n := packet.value;
        if looks == 1 {
          packet := None;
          return false;
        }
        if nodes[n].packet.aiocb == a {
          if looks == 2 {
            packet := None;
            return false;
          }
          aio := aio[a := settled];
        }
      }
    }

    method Settle(a: nat) returns (verdict: Verdict)
      modifies `aio, `closed
      ensures var q := GetAio(old(aio), a).qstatus;
              verdict == if q.Wait1? || q.Pending? then Canceled else AllDone
      ensures aio == CancelEntry(old(aio), a)
      ensures closed == old(closed)
                     + (if a in hpending && hpending[a] != 0 then multiset{hpending[a]} else multiset{})
    {
      CloseWaiter(a);
      verdict := SetStatus(a);
    }

    /** The removal from the queue, the waiter's event and the final check. */
    method RemoveAndSettle(a: nat) returns (verdict: Verdict)
      requires Valid() || Stale()
      modifies `queue, `qfree, `v, `aio, `closed, nodes
      ensures v == Without(old(v), a) && InQueue()
      ensures old(Holding()) ==> Holding()
      ensures old(Valid()) ==> (Valid() <==> FirstMatch(old(v.jobs), a) + 1 != |old(v.jobs)|)
      ensures old(Valid()) ==>
                if FirstMatch(old(v.jobs), a) + 1 == |old(v.jobs)| then Stale() && Unlinked() else !Stale()
      ensures old(Stale()) ==> Stale()
      ensures var q := GetAio(old(aio), a).qstatus;
              verdict == if q.Wait1? || q.Pending? then Canceled else AllDone
      ensures aio == CancelEntry(old(aio), a)
      ensures closed == old(closed)
                     + (if a in hpending && hpending[a] != 0 then multiset{hpending[a]} else multiset{})
    {
      Unlink(a);
      verdict := Settle(a);
    }

    /** The service of one aiocb. */
    method CancelOne(a: nat, settled: Aio, looks: nat) returns (r: Answer)
      requires Valid() || Stale()
      modifies `queue, `qfree, `packet, `v, `aio, `closed, nodes
      ensures packet == old(packet) || packet.None?
      ensures r.NoPacket? <==> old(packet).Some? && (looks == 1 || (looks == 2 && old(IsCurrent(a))))
      ensures r.NoPacket? ==> Links() == old(Links()) && v == old(v) && aio == old(aio)
      ensures r.Answered? ==> v == Without(old(v), a) && InQueue()
      ensures r.Answered? && old(Holding()) ==> Holding()
      ensures r.Answered? && old(Valid()) ==> (Valid() <==> FirstMatch(old(v.jobs), a) + 1 != |old(v.jobs)|)
      ensures r.Answered? && old(Valid()) ==>
                if FirstMatch(old(v.jobs), a) + 1 == |old(v.jobs)| then Stale() && Unlinked() else !Stale()
      ensures r.Answered? && old(Stale()) ==> Stale()
      ensures r.Answered? ==>
                var seen := if looks > 0 && old(IsCurrent(a)) then old(aio)[a := settled] else old(aio);
                var q := GetAio(seen, a).qstatus;
                && r.verdict == (if q.Wait1? || q.Pending? then Canceled else AllDone)
                && aio == CancelEntry(seen, a)
                && GetAio(aio, a).qstatus == if q.Wait1? || q.Pending? then Cancelled else q
      // the running request is waited for, and answered as the I/O thread leaves it
      ensures r.Answered? && looks > 0 && old(packet.Some? && nodes[packet.value].packet.aiocb == a) ==>
                r.verdict == if settled.qstatus.Wait1? || settled.qstatus.Pending? then Canceled else AllDone
      ensures looks > 2 ==> r.Answered?
      ensures looks == 1 && old(packet).Some? ==> r.NoPacket?
      ensures looks == 2 && old(packet.Some? && nodes[packet.value].packet.aiocb == a) ==> r.NoPacket?
      ensures r.Answered? ==>
                closed == old(closed)
                       + (if a in hpending && hpending[a] != 0 then multiset{hpending[a]} else multiset{})
    {
      var ok := CancelCurrent(a, settled, looks);
      if !ok {
        return NoPacket;
      }
      var verdict := RemoveAndSettle(a);
      r := Answered(verdict);
    }

    // ----- waio_cancel_aiocb, every aiocb -----

    /** The switch on the status of one queued aiocb. */
    method CancelQueued(a: nat, fdone: bool, fcanceled: bool) returns (fdone': bool, fcanceled': bool)
      modifies `aio
      ensures aio == CancelEntry(old(aio), a)
      ensures fdone' == (fdone && !Unfinished(GetAio(old(aio), a).qstatus))
      ensures fcanceled' == (fcanceled && !Finished(GetAio(old(aio), a).qstatus))
    {
      fdone', fcanceled' := fdone, fcanceled;
      match GetAio(aio, a).qstatus {
        case Wait1 | Pending =>
          aio := aio[a := GetAio(aio, a).(qstatus := Cancelled)];
          fdone' := false;
        case Failed | Success =>
          fcanceled' := false;
        case Cancelled =>
      }
    }

    ghost function AsDraining(req: Option<nat>, fdone: bool, fcanceled: bool): Draining
      reads `queue, `qtail, `qfree, `aio, nodes
    {
      Draining(Links(), aio, req, fdone, fcanceled)
    }

    method DrainNode(n: nat, fdone: bool, fcanceled: bool) returns (next: Option<nat>, fdone': bool, fcanceled': bool)
      requires n < nodes.Length
      modifies `qfree, `aio, nodes
      ensures DrainTurn(old(AsDraining(Some(n), fdone, fcanceled)), AsDraining(next, fdone', fcanceled'))
    {
      fdone', fcanceled' := CancelQueued(nodes[n].packet.aiocb, fdone, fcanceled);
      // the link is read before it is overwritten
      next := nodes[n].next;
      Free(n);
    }

    /** The drain loop, with its two flags. */
    method DrainQueue() returns (fdone: bool, fcanceled: bool)
      requires Valid()
      modifies `qfree, `aio, nodes
      ensures DrainedTo(old(AsDraining(queue, true, true)), AsDraining(None, fdone, fcanceled), v, |v.q|)
    {
      fdone, fcanceled := true, true;
      var req: Option<nat> := queue;
      ghost var d0, k := AsDraining(req, true, true), 0;
      DrainStart(d0.q, v);
      while req.Some?
        invariant req.Some? ==> req.value < nodes.Length
        invariant DrainedTo(d0, AsDraining(req, fdone, fcanceled), v, k)
        decreases |v.q| - k
      {
        ghost var d := AsDraining(req, fdone, fcanceled);
        req, fdone, fcanceled := DrainNode(req.value, fdone, fcanceled);
        DrainTurnKeeps(d0, d, AsDraining(req, fdone, fcanceled), v, k);
        k := k + 1;
      }
    }

    /**
     The service of a cancellation of everything. It leaves queue and qtail as
     they were, so that the pool is whole afterwards only if the queue was empty.
     */
    method CancelAll() returns (r: Answer)
      requires Valid()
      modifies `qfree, `v, `aio, nodes
      ensures r.NoPacket? <==> packet.None?
      ensures r.NoPacket? ==> Valid() && v == old(v) && aio == old(aio)
      ensures r.Answered? ==>
                && v == Drain(old(v)) && Holds(Links().(queue := None), v)
                && Drained(old(Links()), Links(), old(v), |old(v.q)|)
                && (Valid() <==> old(v.q) == [])
                && (forall a :: GetAio(aio, a) == AfterCancel(old(aio), old(v.jobs), a))
                && (r.verdict.AllDone? <==> forall i :: 0 <= i < |old(v.jobs)| ==>
                      var q := GetAio(old(aio), old(v.jobs)[i].aiocb).qstatus; !q.Wait1? && !q.Pending?)
                && (r.verdict.NotCanceled? <==>
                      && (exists i :: 0 <= i < |old(v.jobs)| &&
                            var q := GetAio(old(aio), old(v.jobs)[i].aiocb).qstatus; q.Wait1? || q.Pending?)
                      && (exists i :: 0 <= i < |old(v.jobs)| &&
                            var q := GetAio(old(aio), old(v.jobs)[i].aiocb).qstatus; q.Success? || q.Failed?))
    {
      // the packet pointer is followed in any case
      if packet.None? {
        return NoPacket;
      }
      var fdone, fcanceled := DrainQueue();
      DrainEnd(old(Links()), Links(), v);
      assert v.jobs[..|v.jobs|] == v.jobs;
      v := Drain(v);
      r := Answered(if fdone then AllDone else if fcanceled then Canceled else NotCanceled);
    }

    // ----- one iteration of waio_loop with a cancellation in it -----

    /** How the tail stands: in order, on the node the unlink has freed, or between two nodes taken in turn. */
    ghost predicate TailIs(stale: bool, inTurn: bool)
      reads `queue, `qtail, `qfree, `packet, `v, nodes
    {
      if !stale then Valid() && !inTurn
      else Stale() && v.f != [] && if inTurn then Mode().InTurn? else Unlinked()
    }

    /** The acknowledgement of a completion, with the dispatch in it. */
    method Acknowledge(completed: bool)
      requires Valid() || (Stale() && Unlinked())
      modifies `queue, `qtail, `qfree, `packet, `ioCounter, `v, nodes
      ensures v == Acknowledged(old(v), completed) && InQueue()
      ensures ioCounter == old(ioCounter) - (if completed then 1 else 0) + |v.sent| - |old(v.sent)|
      ensures var stale := !old(Valid());
              TailIs(StillStale(old(v), stale, completed), TakesInTurn(old(v), stale, completed))
    {
      if completed {
        ioCounter := ioCounter - 1;
        ghost var q, stale, s := Links(), Stale(), v.q;
        Dequeue();
        if stale && |s| > 1 {
          StaleTail.TwoInTurnHead(q, Links());
        }
      }
    }

    /** What is left in the slots, and how many requests are counted, once waio_enqueue has come to `e`. */
    ghost predicate Collected(e: Option<Enqueued>, was: seq<Slot>, counter: int, arrivals: seq<Arrivals>)
      requires |was| == |arrivals| == SLOT_COUNT
      reads `queueCounter, slots
    {
      if e == Some(Ok) then
        && slots[..] == SlotsAfter(was, arrivals, SLOT_COUNT)
        && queueCounter == counter - |Published(Found(was, arrivals, SLOT_COUNT))|
      else slots[..] == was && queueCounter == counter
    }

    /** The packet is that of the job dispatched last. */
    ghost predicate PacketIsLast()
      reads `packet, `v, nodes
    {
      && v.sent != [] && packet.Some? && packet.value < nodes.Length
      && Carries(nodes[packet.value], v.sent[|v.sent| - 1])
    }

    /** waio_enqueue, when a request is counted. */
    method EnqueueCounted(arrivals: seq<Arrivals>, ghost stale: bool, ghost inTurn: bool) returns (e: Option<Enqueued>)
      requires TailIs(stale, inTurn) && |arrivals| == SLOT_COUNT
      modifies `queue, `qtail, `qfree, `queueCounter, `aio, `v, nodes, slots
      ensures var found := Published(Found(old(slots[..]), arrivals, SLOT_COUNT));
              && e == EnqueueOf(old(queueCounter) != 0, |old(v.f)|, inTurn, |found|)
              && (e != Some(NullDereference) ==>
                    && v == Taking(old(v), e == Some(Ok) && !stale, found)
                    && Collected(e, old(slots[..]), old(queueCounter), arrivals)
                    && if stale then Stale() else Valid())
    {
      e := None;
      if queueCounter != 0 {
        var r := Enqueue(arrivals);
        e := Some(r);
      }
    }

    /** And waio_dequeue. */
    method EnqueueAndDequeue(arrivals: seq<Arrivals>, ghost stale: bool, ghost inTurn: bool) returns (e: Option<Enqueued>)
      requires TailIs(stale, inTurn) && |arrivals| == SLOT_COUNT
      modifies this, nodes, slots
      ensures var found := Published(Found(old(slots[..]), arrivals, SLOT_COUNT));
              && e == EnqueueOf(old(queueCounter) != 0, |old(v.f)|, inTurn, |found|)
              && (e != Some(NullDereference) ==>
                    && v == Dispatch(Taking(old(v), e == Some(Ok) && !stale, found))
                    && (Taking(old(v), e == Some(Ok) && !stale, found).jobs != [] ==> PacketIsLast())
                    && Collected(e, old(slots[..]), old(queueCounter), arrivals)
                    && InQueue() && ioCounter == old(ioCounter) + |v.sent| - |old(v.sent)|
                    && (!stale ==> Valid()))
    {
      e := EnqueueCounted(arrivals, stale, inTurn);
      if e != Some(Enqueued.NullDereference) {
        Dequeue();
      }
    }

    /** After the cancellation: the acknowledgement of a completion, waio_enqueue, waio_dequeue. */
    method RestOfIteration(completed: bool, arrivals: seq<Arrivals>) returns (e: Option<Enqueued>)
      requires (Valid() || (Stale() && Unlinked())) && |arrivals| == SLOT_COUNT
      modifies this, nodes, slots
      ensures var found := Published(Found(old(slots[..]), arrivals, SLOT_COUNT));
              var counted, stale := old(queueCounter) != 0, !old(Valid());
              && e == EnqueueIn(old(v), stale, completed, counted, found)
              && (e != Some(NullDereference) ==>
                    && InQueue() && v == AfterRest(old(v), stale, completed, counted, found)
                    && (BeforeLast(old(v), stale, completed, counted, found).jobs != [] ==> PacketIsLast())
                    && Collected(e, old(slots[..]), old(queueCounter), arrivals)
                    && ioCounter == old(ioCounter) - (if completed then 1 else 0) + |v.sent| - |old(v.sent)|
                    && (!StillStale(old(v), stale, completed) ==> Valid()))
    {
      ghost var stale := !Valid();
      ghost var inTurn, stillStale := TakesInTurn(v, stale, completed), StillStale(v, stale, completed);
      Acknowledge(completed);
      e := EnqueueAndDequeue(arrivals, stillStale, inTurn);
    }

    /** The same, said of the pool `v0` from which the cancellation has removed a request. */
    method RestAfter(ghost v0: JobPool, a: nat, completed: bool, arrivals: seq<Arrivals>) returns (e: Option<Enqueued>)
      requires |v0.q| == |v0.jobs| && v == Without(v0, a) && |arrivals| == SLOT_COUNT
      requires if LeavesStale(v0, a) then Stale() && Unlinked() && !Valid() else Valid()
      modifies this, nodes, slots
      ensures var found := Published(Found(old(slots[..]), arrivals, SLOT_COUNT));
              var counted := old(queueCounter) != 0;
              && e == EnqueueWithout(v0, a, completed, counted, found)
              && (e != Some(NullDereference) ==>
                    && InQueue() && v == Iterated(v0, a, completed, counted, found)
                    && (BeforeLast(Without(v0, a), LeavesStale(v0, a), completed, counted, found).jobs != [] ==>
                          PacketIsLast())
                    && Collected(e, old(slots[..]), old(queueCounter), arrivals)
                    && ioCounter == old(ioCounter) - (if completed then 1 else 0) + |v.sent| - |v0.sent|
                    && (!StillStale(old(v), LeavesStale(v0, a), completed) ==> Valid()))
    {
      e := RestOfIteration(completed, arrivals);
    }

    /** And with what becomes of the requests. */
    method Finish(ghost v0: JobPool, a: nat, completed: bool, arrivals: seq<Arrivals>) returns (e: Option<Enqueued>)
      requires |v0.q| == |v0.jobs| && v == Without(v0, a) && |arrivals| == SLOT_COUNT
      requires if LeavesStale(v0, a) then Stale() && Unlinked() && !Valid() else Valid()
      modifies this, nodes, slots
      ensures var found := Published(Found(old(slots[..]), arrivals, SLOT_COUNT));
              var counted := old(queueCounter) != 0;
              && e == EnqueueWithout(v0, a, completed, counted, found) && (e.None? <==> !counted)
              && (e != Some(NullDereference) ==>
                    && InQueue() && v == Iterated(v0, a, completed, counted, found)
                    && Collected(e, old(slots[..]), old(queueCounter), arrivals)
                    && ioCounter == old(ioCounter) - (if completed then 1 else 0) + |v.sent| - |v0.sent|
                    && (!StillStale(old(v), LeavesStale(v0, a), completed) ==> Valid())
                    && (Has(DispatchedOrQueued(v0, v), a) <==> Survives(v0, a, completed, counted, found))
                    && AllInOrder(v0, v, a, completed, if counted then found else [], PacketIsLast()))
    {
      ghost var found, counted := Published(Found(slots[..], arrivals, SLOT_COUNT)), queueCounter != 0;
      e := RestAfter(v0, a, completed, arrivals);
      if e != Some(Enqueued.NullDereference) {
        Outcome(v0, a, completed, counted, found, PacketIsLast());
      }
    }

    /** The service on a pool in order. */
    method ServeOn(a: nat, settled: Aio, looks: nat) returns (r: Answer)
      requires Valid()
      modifies `queue, `qfree, `packet, `v, `aio, `closed, nodes
      ensures r.NoPacket? <==> old(packet).Some? && (looks == 1 || (looks == 2 && old(IsCurrent(a))))
      ensures r.Answered? ==>
                v == Without(old(v), a) && if LeavesStale(old(v), a) then Stale() && Unlinked() && !Valid() else Valid()
      ensures r.Answered? ==>
                var seen := if looks > 0 && old(IsCurrent(a)) then old(aio)[a := settled] else old(aio);
                var q := GetAio(seen, a).qstatus;
                r.verdict == if q.Wait1? || q.Pending? then Canceled else AllDone
    {
      r := CancelOne(a, settled, looks);
    }

    /**
     One iteration of the loop in which a cancellation of the aiocb is served:
     cancel, acknowledge, enqueue, dequeue, while clients go on publishing. It
     says when a null pointer is followed, what waio_enqueue returns, what the
     pool is afterwards, and whether a request of the aiocb is dispatched or
     queued all the same.
     */
    method Iterate(a: nat, settled: Aio, looks: nat, completed: bool, arrivals: seq<Arrivals>) returns (r: Iteration)
      requires Valid() && |arrivals| == SLOT_COUNT
      modifies this, nodes, slots
      ensures var found := Published(Found(old(slots[..]), arrivals, SLOT_COUNT));
              var enqueued := EnqueueWithout(old(v), a, completed, old(queueCounter) != 0, found);
              && (r.Fault? <==>
                    || (old(packet).Some? && (looks == 1 || (looks == 2 && old(IsCurrent(a)))))
                    || enqueued == Some(NullDereference))
              && (r.Done? ==>
                    && r.enqueued == enqueued
                    && InQueue() && v == Iterated(old(v), a, completed, old(queueCounter) != 0, found)
                    && ioCounter == old(ioCounter) - (if completed then 1 else 0) + |v.sent| - |old(v.sent)|
                    && (!StillStale(Without(old(v), a), LeavesStale(old(v), a), completed) ==> Valid())
                    && (Has(DispatchedOrQueued(old(v), v), a) <==>
                          Survives(old(v), a, completed, old(queueCounter) != 0, found)))
      ensures r.Done? ==>
                var seen := if looks > 0 && old(IsCurrent(a)) then old(aio)[a := settled] else old(aio);
                var q := GetAio(seen, a).qstatus;
                r.verdict == if q.Wait1? || q.Pending? then Canceled else AllDone
      // waio_enqueue is called for a counted request, and only then
      ensures r.Done? ==> (r.enqueued.None? <==> old(queueCounter) == 0)
      ensures r.Done? ==>
                if r.enqueued == Some(Ok) then
                  && slots[..] == SlotsAfter(old(slots[..]), arrivals, SLOT_COUNT)
                  && queueCounter == old(queueCounter) - |Published(Found(old(slots[..]), arrivals, SLOT_COUNT))|
                else slots[..] == old(slots[..]) && queueCounter == old(queueCounter)
      ensures r.Done? ==>
                AllInOrder(old(v), v, a, completed,
                           if old(queueCounter) == 0 then []
                           else Published(Found(old(slots[..]), arrivals, SLOT_COUNT)), PacketIsLast())
    {
      var c := ServeOn(a, settled, looks);
      if c.NoPacket? {
        return Fault;
      }
      var e := Finish(old(v), a, completed, arrivals);
      if e == Some(Enqueued.NullDereference) {
        return Fault;
      }
      r := Done(c.verdict, e);
    }
  }

  // ----- one concrete pool -----

  function Lone(a: nat): Job {
    Job(OP_READ, 0, 100, 10, 0, a)
  }

  const NO_ARRIVALS: seq<Arrivals> := [map[], map[], map[], map[]]

  lemma OnlyLoneFound(slots: seq<Slot>, a: nat)
    requires slots == [Slot(1, 7, Lone(a), Lone(a), true), FREE_SLOT, FREE_SLOT, FREE_SLOT]
    ensures Published(Found(slots, NO_ARRIVALS, SLOT_COUNT)) == [Lone(a)]
    ensures SlotsAfter(slots, NO_ARRIVALS, SLOT_COUNT)[0].pid == 0
    ensures SlotsAfter(slots, NO_ARRIVALS, SLOT_COUNT)[0].tid == 0
  {
    QuietPass(slots, NO_ARRIVALS, SLOT_COUNT);
    assert slots[..SLOT_COUNT] == [] + [slots[0]] + [slots[1]] + [slots[2]] + [slots[3]];
    PublishedAppend([], slots[0]);
    PublishedAppend([] + [slots[0]], slots[1]);
    PublishedAppend([] + [slots[0]] + [slots[1]], slots[2]);
    PublishedAppend([] + [slots[0]] + [slots[1]] + [slots[2]], slots[3]);
  }

  /** A new pool with one counted request, published in slot 0. */
  method LonePool(a: nat) returns (p: Pool)
    ensures fresh(p) && fresh(p.nodes) && fresh(p.slots) && p.Valid()
    ensures p.v.q == [] && p.v.jobs == [] && p.v.sent == [] && |p.v.f| == 4
    ensures p.slots[..] == [Slot(1, 7, Lone(a), Lone(a), true), FREE_SLOT, FREE_SLOT, FREE_SLOT]
    ensures p.packet.None? && p.queueCounter == 1 && p.ioCounter == 0
    ensures GetAio(p.aio, a).qstatus.Wait1? && (a != 1 ==> GetAio(p.aio, 1) == ZERO_AIO)
  {
    p := new Pool(4096, 96, 1000);
    p.slots[0] := Slot(1, 7, Lone(a), Lone(a), true);
    p.aio := map[a := ZERO_AIO.(qstatus := Wait1)];
    p.queueCounter := 1;
  }

  /**
   One iteration on it in which aiocb 1 is cancelled: the published request goes
   to the I/O thread, also when it is that of aiocb 1, which is answered CANCELED.
   */
  method CancelledAndDispatched(a: nat) returns (p: Pool, r: Iteration)
    ensures r == Done(if a == 1 then Canceled else AllDone, Some(Ok))
    ensures p.packet.Some? && p.packet.value < p.nodes.Length && Carries(p.nodes[p.packet.value], Lone(a))
    ensures p.v.sent == [Lone(a)] && p.v.jobs == [] && p.queueCounter == 0 && p.ioCounter == 1
    ensures p.slots.Length == SLOT_COUNT && p.slots[0].pid == 0 && p.slots[0].tid == 0
  {
    p := LonePool(a);
    OnlyLoneFound(p.slots[..], a);
    r := p.Iterate(1, ZERO_AIO, 0, false, NO_ARRIVALS);
    assert p.v.sent + p.v.jobs == [Lone(a)];
  }
}
