/**
 What becomes of the pool after a single cancel has removed the last queued
 request: the tail pointer stands on a free node, and what is taken from the
 slots is lost until the rest of the queue has been dispatched; for ever, if
 there is no rest.
 */
module StaleTail {
  import opened Protocol
  import opened PoolSpec
  import opened PoolRefinement
  import opened PoolCancel

  /** The queue is `s`, the tail is not in it, and no pointer leads into it from outside. */
  ghost predicate Detached(q: Lists, s: seq<nat>) {
    && NoDup(s) && Chain(q.nodes, q.queue, s)
    && q.qtail.Some? && q.qtail.value < |q.nodes| && q.qtail.value !in s
    && (q.qfree.Some? ==> q.qfree.value < |q.nodes| && q.qfree.value !in s)
    && (forall n {:trigger q.nodes[n]} :: 0 <= n < |q.nodes| && n !in s && q.nodes[n].next.Some? ==>
          q.nodes[n].next.value < |q.nodes| && q.nodes[n].next.value !in s)
  }

  lemma FreeStaysFree(q: Lists, v: JobPool, n: nat)
    requires Holds(q, v) && n < |q.nodes| && n !in v.q && q.nodes[n].next.Some?
    ensures q.nodes[n].next.value < |q.nodes| && q.nodes[n].next.value !in v.q
  {
    CoversAll(q, v, n);
    var i :| 0 <= i < |v.f| && v.f[i] == n;
    assert q.nodes[v.f[i]].next == At(v.f, i + 1);
    Distinct(v, |q.nodes|);
  }

  /** The unlink of the last entry leaves the pool like that. */
  lemma DetachedByUnlink(q0: Lists, q: Lists, v: JobPool, k: nat)
    requires Represents(q0, v) && k + 1 == |v.q| && Holds(q, Remove(v, k)) && q.qtail == q0.qtail
    ensures Detached(q, Remove(v, k).q)
  {
    var w := Remove(v, k);
    Distinct(w, |q.nodes|);
    assert w.f[0] == v.q[k];
    forall n | 0 <= n < |q.nodes| && n !in w.q && q.nodes[n].next.Some?
      ensures q.nodes[n].next.value < |q.nodes| && q.nodes[n].next.value !in w.q
    {
      FreeStaysFree(q, w, n);
    }
  }

  /** It does so exactly when the entry removed was the last. */
  lemma DetachedExactly(q0: Lists, q: Lists, v: JobPool, a: nat)
    requires Represents(q0, v) && Holds(q, Without(v, a)) && q.qtail == q0.qtail
    ensures Detached(q, Without(v, a).q) <==> FirstMatch(v.jobs, a) + 1 == |v.jobs|
  {
    var k := FirstMatch(v.jobs, a);
    if k + 1 == |v.jobs| {
      DetachedByUnlink(q0, q, v, k);
    } else if k < |v.jobs| {
      assert Without(v, a).q[|v.q| - 2] == v.q[|v.q| - 1];
    }
  }

  /** A request taken meanwhile is not put on the queue, and the queue keeps its requests. */
  lemma DetachedTake(q: Lists, q': Lists, s: seq<nat>, jobs: seq<Job>, j: Job)
    requires Detached(q, s) && TakeNode(q, q', j)
    ensures Detached(q', s)
    ensures AllCarry(q.nodes, s, jobs) ==> AllCarry(q'.nodes, s, jobs)
  {
  }

  /** A dispatch takes the head; the one of the last entry sets the tail to null. */
  lemma DetachedHead(q: Lists, q': Lists, s: seq<nat>, jobs: seq<Job>)
    requires Detached(q, s) && TakeHead(q, q')
    ensures s != [] && q.queue == Some(s[0])
    ensures |s| > 1 ==> Detached(q', s[1..])
    ensures |s| == 1 ==> q'.queue.None? && q'.qtail.None?
    ensures AllCarry(q.nodes, s, jobs) ==> AllCarry(q'.nodes, s[1..], jobs[1..])
  {
  }

  /** A further cancel takes its entry out of the stale queue, which stays as stale. */
  lemma DetachedUnlinkFirst(q: Lists, q': Lists, s: seq<nat>, jobs: seq<Job>)
    requires Detached(q, s) && s != [] && UnlinkHead(q, q') && AllCarry(q.nodes, s, jobs)
    ensures Detached(q', s[1..]) && AllCarry(q'.nodes, s[1..], jobs[1..])
  {
  }

  lemma LinkedOutside(q: Lists, q': Lists, s: seq<nat>, k: nat)
    requires Detached(q, s) && 0 < k < |s| && UnlinkAfter(q, q', s[k - 1])
    ensures q.nodes[s[k - 1]].next == Some(s[k])
    ensures Chain(q'.nodes, q'.queue, s[..k] + s[k + 1..])
    ensures forall n :: 0 <= n < |q.nodes| && n != s[k - 1] ==>
                          q'.nodes[n].next == if n == s[k] then q.qfree else q.nodes[n].next
    ensures q'.nodes[s[k - 1]].next == At(s, k + 1)
  {
    assert q.nodes[s[k - 1]].next == Some(s[k]);
    ChainWithout(q.nodes, q'.nodes, q.queue, s, k);
  }

  lemma InRest(s: seq<nat>, k: nat, n: nat)
    requires NoDup(s) && k < |s|
    ensures n in s[..k] + s[k + 1..] <==> n in s && n != s[k]
    ensures NoDup(s[..k] + s[k + 1..])
  {
    if i :| 0 <= i < |s| && s[i] == n && i != k {
      assert (s[..k] + s[k + 1..])[if i < k then i else i - 1] == n;
    }
  }

  lemma DetachedUnlinkNext(q: Lists, q': Lists, s: seq<nat>, jobs: seq<Job>, k: nat)
    requires Detached(q, s) && 0 < k < |s| && UnlinkAfter(q, q', s[k - 1]) && AllCarry(q.nodes, s, jobs)
    ensures Detached(q', s[..k] + s[k + 1..]) && AllCarry(q'.nodes, s[..k] + s[k + 1..], jobs[..k] + jobs[k + 1..])
  {
    LinkedOutside(q, q', s, k);
    CarryWithout(q.nodes, q'.nodes, s, jobs, k);
    forall n ensures n in s[..k] + s[k + 1..] <==> n in s && n != s[k] {
      InRest(s, k, n);
    }
    InRest(s, k, 0);
  }

  /**
   When the last entry was removed, the next request is lost: its node is
   linked to itself behind the stale tail, and the queue still ends before it.
   */
  lemma RequestLostAfterUnlink(q: Lists, q': Lists, v: JobPool, k: nat, j: Job)
    requires k + 1 == |v.q| && |v.q| == |v.jobs| && Holds(q, Remove(v, k)) && q.qtail == Some(v.q[k])
    requires TakeNode(q, q', j)
    ensures Chain(q'.nodes, q'.queue, v.q[..k]) && v.q[k] !in v.q[..k]
    ensures q'.qtail == Some(v.q[k]) && v.q[k] < |q'.nodes| && q'.nodes[v.q[k]].next == q'.qtail
  {
    Distinct(Remove(v, k), |q.nodes|);
    assert Remove(v, k).q == v.q[..k];
    assert Remove(v, k).f[0] == v.q[k];
  }

  // ----- when the free list runs out meanwhile -----

  /**
   The unlink has put the tail on the head of the free list `f`, and `k` requests
   have been taken since: the list loses its entries in order all the same.
   */
  ghost predicate Spent(q: Lists, f: seq<nat>, k: nat) {
    && k <= |f| && 0 < |f| && NoDup(f) && Chain(q.nodes, q.qfree, f[k..])
    && q.qtail == Some(f[if k == 0 then 0 else k - 1])
  }

  lemma SpentStart(q: Lists, v: JobPool)
    requires Holds(q, v) && q.qfree.Some? && q.qtail == q.qfree
    ensures Spent(q, v.f, 0)
  {
    Distinct(v, |q.nodes|);
    assert v.f[0..] == v.f;
  }

  lemma SpentTake(q: Lists, q': Lists, f: seq<nat>, k: nat, j: Job)
    requires Spent(q, f, k) && TakeNode(q, q', j)
    ensures Spent(q', f, k + 1)
  {
    assert f[k..][1..] == f[k + 1..];
  }

  /** After a dispatch the freed node leads to the tail: two nodes are taken in turn for ever. */
  predicate TwoInTurn(q: Lists) {
    && q.qfree.Some? && q.qtail.Some? && q.qfree != q.qtail
    && q.qfree.value < |q.nodes| && q.qtail.value < |q.nodes| && q.nodes[q.qfree.value].next == q.qtail
  }

  lemma TwoInTurnTake(q: Lists, q': Lists, j: Job)
    requires TwoInTurn(q) && TakeNode(q, q', j)
    ensures TwoInTurn(q') && q'.qfree == q.qtail && q'.qtail == q.qfree
  {
  }

  lemma TwoInTurnHead(q: Lists, q': Lists)
    requires TakeHead(q, q') && q.qfree == q.qtail && q.qtail.Some? && q.qtail.value < |q.nodes|
    requires q.queue != q.qtail && q'.queue.Some?
    ensures TwoInTurn(q')
  {
  }

  // ----- any sequence of calls -----

  /** waio_enqueue on one published slot, or waio_dequeue. */
  datatype ListOp = Take(job: Job) | Dispatch

  predicate ListStep(q: Lists, q': Lists, op: ListOp) {
    match op
    case Take(j) => TakeNode(q, q', j)
    case Dispatch => if q.queue.None? then q' == q else TakeHead(q, q')
  }

  predicate ListStepAt(qs: seq<Lists>, ops: seq<ListOp>, i: nat) {
    i + 1 < |qs| == |ops| + 1 && ListStep(qs[i], qs[i + 1], ops[i])
  }

  /** The lists as these operations change them. */
  predicate ListRun(qs: seq<Lists>, ops: seq<ListOp>) {
    |qs| == |ops| + 1 && forall i :: 0 <= i < |ops| ==> ListStepAt(qs, ops, i)
  }

  function Dispatches(ops: seq<ListOp>, n: nat): nat
    requires n <= |ops|
  {
    if n == 0 then 0 else Dispatches(ops, n - 1) + (if ops[n - 1].Dispatch? then 1 else 0)
  }

  /** What is left of the queue after so many dispatches. */
  function Left<T>(s: seq<T>, dispatched: nat): seq<T> {
    if dispatched <= |s| then s[dispatched..] else []
  }

  /** A stale queue of these nodes and jobs after so many dispatches. */
  ghost predicate StaleBy(q: Lists, s: seq<nat>, jobs: seq<Job>, d: nat) {
    Detached(q, Left(s, d)) && AllCarry(q.nodes, Left(s, d), Left(jobs, d))
  }

  lemma StaleAt(qs: seq<Lists>, ops: seq<ListOp>, s: seq<nat>, jobs: seq<Job>, n: nat)
    requires ListRun(qs, ops) && n < |ops| && |jobs| == |s|
    requires StaleBy(qs[n], s, jobs, Dispatches(ops, n)) && (s == [] || Dispatches(ops, n + 1) < |s|)
    ensures StaleBy(qs[n + 1], s, jobs, Dispatches(ops, n + 1))
  {
    assert ListStepAt(qs, ops, n);
    var d := Dispatches(ops, n);
    match ops[n] {
      case Take(j) => DetachedTake(qs[n], qs[n + 1], Left(s, d), Left(jobs, d), j);
      case Dispatch =>
        if s != [] {
          DetachedHead(qs[n], qs[n + 1], Left(s, d), Left(jobs, d));
          assert Left(s, d)[1..] == Left(s, d + 1) && Left(jobs, d)[1..] == Left(jobs, d + 1);
        }
    }
  }

  /**
   As long as the stale queue has not been dispatched to its end, its content is
   what is left of it, and nothing that is taken from the slots meanwhile, in
   whatever order, is ever put on it.
   */
  lemma {:induction false} LostUntilDrained(qs: seq<Lists>, ops: seq<ListOp>, s: seq<nat>, jobs: seq<Job>, n: nat)
    requires ListRun(qs, ops) && n <= |ops| && |jobs| == |s| && StaleBy(qs[0], s, jobs, 0)
    requires s == [] || Dispatches(ops, n) < |s|
    ensures StaleBy(qs[n], s, jobs, Dispatches(ops, n))
  {
    if n > 0 {
      LostUntilDrained(qs, ops, s, jobs, n - 1);
      StaleAt(qs, ops, s, jobs, n - 1);
    }
  }

  /** With the only request removed, no request is ever dispatched again, whatever is submitted. */
  lemma LostForEver(q: Lists, qs: seq<Lists>, ops: seq<ListOp>, v: JobPool, a: nat, n: nat)
    requires Represents(q, v) && |v.q| == 1 && v.jobs[0].aiocb == a
    requires ListRun(qs, ops) && n <= |ops| && Holds(qs[0], Without(v, a)) && qs[0].qtail == q.qtail
    ensures qs[n].queue.None? && qs[n].qtail.Some?
    ensures !exists q' :: TakeHead(qs[n], q')
  {
    MatchAt(v.jobs, a, 0);
    DetachedByUnlink(q, qs[0], v, 0);
    assert Without(v, a).q == [] && Without(v, a).jobs == [];
    LostUntilDrained(qs, ops, [], [], n);
    assert Left<nat>([], Dispatches(ops, n)) == [];
  }

  /**
   And with others before it in the queue, those are dispatched in order and
   everything taken before the last of them is dispatched is lost.
   */
  lemma LostAfterUnlink(q: Lists, qs: seq<Lists>, ops: seq<ListOp>, v: JobPool, a: nat, n: nat)
    requires Represents(q, v) && FirstMatch(v.jobs, a) + 1 == |v.jobs|
    requires ListRun(qs, ops) && n <= |ops| && Holds(qs[0], Without(v, a)) && qs[0].qtail == q.qtail
    requires |v.jobs| == 1 || Dispatches(ops, n) < |v.jobs| - 1
    ensures var w, d := Without(v, a), Dispatches(ops, n);
            Chain(qs[n].nodes, qs[n].queue, Left(w.q, d)) && AllCarry(qs[n].nodes, Left(w.q, d), Left(w.jobs, d))
  {
    var k := FirstMatch(v.jobs, a);
    DetachedByUnlink(q, qs[0], v, k);
    assert Left(Without(v, a).q, 0) == Without(v, a).q && Left(Without(v, a).jobs, 0) == Without(v, a).jobs;
    LostUntilDrained(qs, ops, Without(v, a).q, Without(v, a).jobs, n);
  }
}
