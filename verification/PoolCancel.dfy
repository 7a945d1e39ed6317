/**
 What waio_cancel_aiocb does to the pool: the unlink of one request, the drain
 of all of them, and what both decide.
 */
module PoolCancel {
  import opened AiocbStatus
  import opened Protocol
  import opened PoolSpec
  import opened PoolRefinement

  // ----- the unlink of one request -----

  /** waio_cancel_aiocb when the first node of the queue matches. */
  predicate UnlinkHead(q: Lists, q': Lists) {
    && q.queue.Some? && q.queue.value < |q.nodes|
    && var n := q.queue.value;
    q' == Lists(q.nodes[n := q.nodes[n].(next := q.qfree)], q.nodes[n].next, q.qtail, Some(n))
  }

  /** The same when the node after `req` matches. */
  predicate UnlinkAfter(q: Lists, q': Lists, req: nat) {
    && req < |q.nodes| && q.nodes[req].next.Some? && q.nodes[req].next.value < |q.nodes|
    && var n := q.nodes[req].next.value;
    var nodes := q.nodes[req := q.nodes[req].(next := q.nodes[n].next)];
    q' == Lists(nodes[n := nodes[n].(next := q.qfree)], q.queue, q.qtail, Some(n))
  }

  lemma UnlinkHeadRefines(q: Lists, q': Lists, v: JobPool)
    requires Holds(q, v) && UnlinkHead(q, q')
    ensures v.q != [] && q.queue == Some(v.q[0])
    ensures Holds(q', Remove(v, 0))
  {
    var v' := Remove(v, 0);
    RemoveSound(v, 0, |q.nodes|);
    Distinct(v, |q.nodes|);
  }

  /** A chain without its k-th node, after the node before has been relinked. */
  lemma ChainWithout(nodes: seq<Node>, nodes': seq<Node>, head: Option<nat>, s: seq<nat>, k: nat)
    requires Chain(nodes, head, s) && 0 < k < |s| && |nodes'| == |nodes|
    requires nodes'[s[k - 1]].next == nodes[s[k]].next
    requires forall i :: 0 <= i < |s| && i != k && i != k - 1 ==> nodes'[s[i]].next == nodes[s[i]].next
    ensures Chain(nodes', head, s[..k] + s[k + 1..])
  {
    var s' := s[..k] + s[k + 1..];
    forall i | 0 <= i < |s'| ensures s'[i] < |nodes'| && nodes'[s'[i]].next == At(s', i + 1) {
      assert s'[i] == if i < k then s[i] else s[i + 1];
    }
  }

  /** A chain with one more node in front. */
  lemma ChainWith(nodes: seq<Node>, nodes': seq<Node>, head: Option<nat>, s: seq<nat>, n: nat)
    requires Chain(nodes, head, s) && |nodes'| == |nodes| && n < |nodes|
    requires nodes'[n].next == head
    requires forall i :: 0 <= i < |s| ==> nodes'[s[i]].next == nodes[s[i]].next
    ensures Chain(nodes', Some(n), [n] + s)
  {
  }

  lemma CarryWithout(nodes: seq<Node>, nodes': seq<Node>, q: seq<nat>, jobs: seq<Job>, k: nat)
    requires AllCarry(nodes, q, jobs) && k < |q| && |nodes'| == |nodes|
    requires forall i :: 0 <= i < |nodes| ==> nodes'[i] == nodes[i].(next := nodes'[i].next)
    ensures AllCarry(nodes', q[..k] + q[k + 1..], jobs[..k] + jobs[k + 1..])
  {
  }

  lemma UnlinkAfterQueue(q: Lists, q': Lists, v: JobPool, k: nat)
    requires Holds(q, v) && 0 < k < |v.q| && UnlinkAfter(q, q', v.q[k - 1])
    ensures q.nodes[v.q[k - 1]].next == Some(v.q[k])
    ensures Chain(q'.nodes, q'.queue, v.q[..k] + v.q[k + 1..])
  {
    Distinct(v, |q.nodes|);
    assert q.nodes[v.q[k - 1]].next == Some(v.q[k]);
    ChainWithout(q.nodes, q'.nodes, q.queue, v.q, k);
  }

  lemma UnlinkAfterFree(q: Lists, q': Lists, v: JobPool, k: nat)
    requires Holds(q, v) && 0 < k < |v.q| && UnlinkAfter(q, q', v.q[k - 1])
    ensures Chain(q'.nodes, q'.qfree, [v.q[k]] + v.f)
  {
    Distinct(v, |q.nodes|);
    assert q.nodes[v.q[k - 1]].next == Some(v.q[k]);
    ChainWith(q.nodes, q'.nodes, q.qfree, v.f, v.q[k]);
  }

  lemma UnlinkAfterRefines(q: Lists, q': Lists, v: JobPool, k: nat)
    requires Holds(q, v) && 0 < k < |v.q| && UnlinkAfter(q, q', v.q[k - 1])
    ensures Holds(q', Remove(v, k))
  {
    UnlinkAfterQueue(q, q', v, k);
    UnlinkAfterFree(q, q', v, k);
    CarryWithout(q.nodes, q'.nodes, v.q, v.jobs, k);
    RemoveSound(v, k, |q.nodes|);
  }

  /**
   The unlink leaves the tail pointer alone: the pool is whole afterwards
   exactly when the removed entry was not the last one.
   */
  lemma TailAfterRemove(q: Lists, q': Lists, v: JobPool, k: nat)
    requires Represents(q, v) && k < |v.q|
    requires Holds(q', Remove(v, k)) && q'.qtail == q.qtail
    ensures Represents(q', Remove(v, k)) <==> k + 1 < |v.q|
  {
    Distinct(v, |q.nodes|);
  }

  // ----- what a cancellation decides -----

  datatype Verdict = AllDone | Canceled | NotCanceled

  predicate Finished(q: QStatus) {
    q.Success? || q.Failed?
  }

  /** The first job of the aiocb, or the length. */
  function FirstMatch(jobs: seq<Job>, a: nat): (k: nat)
    ensures k <= |jobs|
    ensures forall i :: 0 <= i < k ==> jobs[i].aiocb != a
    ensures k < |jobs| ==> jobs[k].aiocb == a
  {
    if jobs == [] || jobs[0].aiocb == a then 0 else 1 + FirstMatch(jobs[1..], a)
  }

  /** Some job in the list has an aiocb that is still unfinished. */
  ghost predicate AnyUnfinished(aio: map<nat, Aio>, jobs: seq<Job>) {
    exists i :: 0 <= i < |jobs| && Unfinished(GetAio(aio, jobs[i].aiocb).qstatus)
  }

  ghost predicate AnyFinished(aio: map<nat, Aio>, jobs: seq<Job>) {
    exists i :: 0 <= i < |jobs| && Finished(GetAio(aio, jobs[i].aiocb).qstatus)
  }

  /** One aiocb after everything in the list was cancelled. */
  ghost function AfterCancel(aio: map<nat, Aio>, jobs: seq<Job>, a: nat): Aio {
    var x := GetAio(aio, a);
    if (x.qstatus.Wait1? || x.qstatus.Pending?) && exists i :: 0 <= i < |jobs| && jobs[i].aiocb == a then
      x.(qstatus := Cancelled)
    else x
  }

  /** The first `k` jobs have been cancelled and the two flags say what was found. */
  ghost predicate CancelledTo(aio: map<nat, Aio>, aio': map<nat, Aio>, jobs: seq<Job>, k: nat, fdone: bool, fcanceled: bool)
    requires k <= |jobs|
  {
    && (forall a :: GetAio(aio', a) == AfterCancel(aio, jobs[..k], a))
    && (fdone <==> !AnyUnfinished(aio, jobs[..k]))
    && (fcanceled <==> !AnyFinished(aio, jobs[..k]))
  }

  /** One aiocb as the drain loop treats it. */
  function CancelEntry(aio: map<nat, Aio>, a: nat): map<nat, Aio> {
    var x := GetAio(aio, a);
    if Unfinished(x.qstatus) then aio[a := x.(qstatus := Cancelled)] else aio
  }

  lemma CancelNextFlags(aio: map<nat, Aio>, aio': map<nat, Aio>, jobs: seq<Job>, k: nat, fdone: bool, fcanceled: bool)
    requires k < |jobs| && CancelledTo(aio, aio', jobs, k, fdone, fcanceled)
    ensures var x := GetAio(aio', jobs[k].aiocb);
            && ((fdone && !Unfinished(x.qstatus)) <==> !AnyUnfinished(aio, jobs[..k + 1]))
            && ((fcanceled && !Finished(x.qstatus)) <==> !AnyFinished(aio, jobs[..k + 1]))
  {
    assert jobs[..k + 1] == jobs[..k] + [jobs[k]];
    var x := GetAio(aio, jobs[k].aiocb);
    assert GetAio(aio', jobs[k].aiocb) == AfterCancel(aio, jobs[..k], jobs[k].aiocb);
    if Unfinished(x.qstatus) {
      assert jobs[..k + 1][k] == jobs[k];
    }
    if Finished(x.qstatus) {
      assert jobs[..k + 1][k] == jobs[k];
    }
  }

  lemma CancelNextStatus(aio: map<nat, Aio>, aio': map<nat, Aio>, jobs: seq<Job>, k: nat, a: nat)
    requires k < |jobs|
    requires forall b :: GetAio(aio', b) == AfterCancel(aio, jobs[..k], b)
    ensures GetAio(CancelEntry(aio', jobs[k].aiocb), a) == AfterCancel(aio, jobs[..k + 1], a)
  {
    assert jobs[..k + 1] == jobs[..k] + [jobs[k]];
    assert GetAio(aio', a) == AfterCancel(aio, jobs[..k], a);
    if exists i :: 0 <= i < k && jobs[i].aiocb == a {
      var i :| 0 <= i < k && jobs[i].aiocb == a;
      assert jobs[..k][i].aiocb == a && jobs[..k + 1][i].aiocb == a;
    }
    if jobs[k].aiocb == a {
      assert jobs[..k + 1][k].aiocb == a;
    }
  }

  lemma CancelNext(aio: map<nat, Aio>, aio': map<nat, Aio>, jobs: seq<Job>, k: nat, fdone: bool, fcanceled: bool)
    requires k < |jobs| && CancelledTo(aio, aio', jobs, k, fdone, fcanceled)
    ensures var x := GetAio(aio', jobs[k].aiocb);
            CancelledTo(aio, CancelEntry(aio', jobs[k].aiocb), jobs, k + 1,
                        fdone && !Unfinished(x.qstatus), fcanceled && !Finished(x.qstatus))
  {
    CancelNextFlags(aio, aio', jobs, k, fdone, fcanceled);
    forall a ensures GetAio(CancelEntry(aio', jobs[k].aiocb), a) == AfterCancel(aio, jobs[..k + 1], a) {
      CancelNextStatus(aio, aio', jobs, k, a);
    }
  }

  /** Without its first entry of the aiocb, if there is one. */
  function Without(v: JobPool, a: nat): JobPool
    requires |v.q| == |v.jobs|
  {
    var k := FirstMatch(v.jobs, a);
    if k < |v.jobs| then Remove(v, k) else v
  }

  /** The scan stands on entry `k`, the first `k + 1` entries do not match. */
  ghost predicate Scanned(v: JobPool, a: nat, req: nat, next: Option<nat>, k: nat) {
    && k < |v.q| == |v.jobs| && req == v.q[k] && next == At(v.q, k + 1)
    && forall i :: 0 <= i <= k ==> v.jobs[i].aiocb != a
  }

  lemma MatchAt(jobs: seq<Job>, a: nat, k: nat)
    requires k < |jobs| && jobs[k].aiocb == a && forall i :: 0 <= i < k ==> jobs[i].aiocb != a
    ensures FirstMatch(jobs, a) == k
  {
  }

  lemma FirstUnlinked(q: Lists, q': Lists, v: JobPool, a: nat)
    requires Holds(q, v) && UnlinkHead(q, q') && v.q != [] && v.jobs[0].aiocb == a
    ensures Holds(q', Without(v, a))
  {
    MatchAt(v.jobs, a, 0);
    UnlinkHeadRefines(q, q', v);
  }

  lemma NextUnlinked(q: Lists, q': Lists, v: JobPool, a: nat, k: nat)
    requires Holds(q, v) && 0 < k < |v.q| && UnlinkAfter(q, q', v.q[k - 1])
    requires v.jobs[k].aiocb == a && forall i :: 0 <= i < k ==> v.jobs[i].aiocb != a
    ensures Holds(q', Without(v, a))
  {
    MatchAt(v.jobs, a, k);
    UnlinkAfterRefines(q, q', v, k);
  }

  /** With the tail left alone, the pool is whole exactly when the last entry was not removed. */
  lemma WholeExactly(q: Lists, q': Lists, v: JobPool, a: nat)
    requires Represents(q, v) && Holds(q', Without(v, a)) && q'.qtail == q.qtail
    ensures Represents(q', Without(v, a)) <==> FirstMatch(v.jobs, a) + 1 != |v.jobs|
  {
    if FirstMatch(v.jobs, a) < |v.jobs| {
      TailAfterRemove(q, q', v, FirstMatch(v.jobs, a));
    }
  }

  lemma NoMatch(jobs: seq<Job>, a: nat)
    requires forall i :: 0 <= i < |jobs| ==> jobs[i].aiocb != a
    ensures FirstMatch(jobs, a) == |jobs|
  {
  }

  // ----- the drain -----

  /** `q` is `q0` after the drain loop has pushed the first `k` queued nodes on the free list. */
  ghost predicate Drained(q0: Lists, q: Lists, v: JobPool, k: nat)
    requires k <= |v.q|
  {
    && q.queue == q0.queue && q.qtail == q0.qtail && |q.nodes| == |q0.nodes|
    && (forall n :: 0 <= n < |q.nodes| ==> q.nodes[n] == q0.nodes[n].(next := q.nodes[n].next))
    && Chain(q.nodes, q.qfree, Reversed(v.q[..k]) + v.f)
    && (forall i :: k <= i < |v.q| ==> v.q[i] < |q.nodes|)
    && (forall i {:trigger q.nodes[v.q[i]]} :: k <= i < |v.q| ==> q.nodes[v.q[i]].next == At(v.q, i + 1))
  }

  lemma DrainStart(q: Lists, v: JobPool)
    requires Holds(q, v)
    ensures Drained(q, q, v, 0)
  {
    assert Reversed(v.q[..0]) + v.f == v.f;
  }

  lemma OneMoreDrained(v: JobPool, k: nat)
    requires k < |v.q|
    ensures Reversed(v.q[..k + 1]) + v.f == [v.q[k]] + (Reversed(v.q[..k]) + v.f)
  {
    assert v.q[..k + 1] == v.q[..k] + [v.q[k]];
    ReversedPush(v.q[..k], v.q[k]);
  }

  lemma NotYetDrained(v: JobPool, count: nat, k: nat)
    requires Sound(v, count) && k < |v.q|
    ensures forall i :: 0 <= i < |Reversed(v.q[..k]) + v.f| ==> (Reversed(v.q[..k]) + v.f)[i] != v.q[k]
    ensures forall i :: k < i < |v.q| ==> v.q[i] != v.q[k]
  {
    Distinct(v, count);
    ReversedAt(v.q[..k]);
  }

  /** One turn of the drain loop. */
  lemma DrainNext(q0: Lists, q: Lists, q': Lists, v: JobPool, k: nat)
    requires Sound(v, |q.nodes|) && k < |v.q| && Drained(q0, q, v, k)
    requires q' == Lists(q.nodes[v.q[k] := q.nodes[v.q[k]].(next := q.qfree)], q.queue, q.qtail, Some(v.q[k]))
    ensures Drained(q0, q', v, k + 1)
  {
    NotYetDrained(v, |q.nodes|, k);
    ChainWith(q.nodes, q'.nodes, q.qfree, Reversed(v.q[..k]) + v.f, v.q[k]);
    OneMoreDrained(v, k);
  }

  /** After the loop the free list is whole; the queue pointers are not. */
  lemma DrainEnd(q0: Lists, q: Lists, v: JobPool)
    requires Represents(q0, v) && Drained(q0, q, v, |v.q|)
    ensures Holds(q.(queue := None), Drain(v))
    ensures Represents(q, Drain(v)) <==> v.q == []
  {
    assert v.q[..|v.q|] == v.q;
    DrainSound(v, |q.nodes|);
  }

  /**
   The next waio_dequeue after a drain dispatches the first cancelled request,
   and closes the drained part of the free list into a ring.
   */
  lemma CancelledIsDispatched(q0: Lists, q: Lists, q': Lists, v: JobPool)
    requires Represents(q0, v) && Drained(q0, q, v, |v.q|) && v.q != []
    requires TakeHead(q, q')
    ensures q'.qfree == q.queue == Some(v.q[0])
    ensures v.q[0] < |q'.nodes| && Carries(q'.nodes[v.q[0]], v.jobs[0])
    ensures q'.nodes[v.q[0]].next == Last(v.q)
    ensures forall i :: 1 <= i < |v.q| ==> v.q[i] < |q'.nodes| && q'.nodes[v.q[i]].next == Some(v.q[i - 1])
  {
    var free := Reversed(v.q) + v.f;
    assert v.q[..|v.q|] == v.q;
    ReversedAt(v.q);
    Distinct(v, |q.nodes|);
    forall i | 1 <= i < |v.q|
      ensures v.q[i] < |q'.nodes| && q'.nodes[v.q[i]].next == Some(v.q[i - 1])
    {
      assert free[|v.q| - 1 - i] == v.q[i] && free[|v.q| - i] == v.q[i - 1];
    }
  }

  // ----- the drain loop as a whole -----

  /** What the drain loop works on. */
  datatype Draining = Draining(q: Lists, aio: map<nat, Aio>, req: Option<nat>, fdone: bool, fcanceled: bool)

  /** One turn: `next` is read before the node is freed. */
  predicate DrainTurn(d: Draining, d': Draining) {
    && d.req.Some? && d.req.value < |d.q.nodes|
    && var n := d.req.value; var node := d.q.nodes[n]; var x := GetAio(d.aio, node.packet.aiocb).qstatus;
    && d'.q == d.q.(nodes := d.q.nodes[n := node.(next := d.q.qfree)], qfree := Some(n))
    && d'.aio == CancelEntry(d.aio, node.packet.aiocb)
    && d'.req == node.next
    && d'.fdone == (d.fdone && !Unfinished(x))
    && d'.fcanceled == (d.fcanceled && !Finished(x))
  }

  ghost predicate DrainedTo(d0: Draining, d: Draining, v: JobPool, k: nat) {
    && k <= |v.q| == |v.jobs| && d.req == At(v.q, k)
    && Drained(d0.q, d.q, v, k)
    && CancelledTo(d0.aio, d.aio, v.jobs, k, d.fdone, d.fcanceled)
  }

  lemma DrainTurnKeeps(d0: Draining, d: Draining, d': Draining, v: JobPool, k: nat)
    requires Holds(d0.q, v) && DrainedTo(d0, d, v, k) && DrainTurn(d, d')
    ensures k < |v.q| && DrainedTo(d0, d', v, k + 1)
  {
    assert Carries(d0.q.nodes[v.q[k]], v.jobs[k]);
    DrainNext(d0.q, d.q, d'.q, v, k);
    CancelNext(d0.aio, d.aio, v.jobs, k, d.fdone, d.fcanceled);
  }
}
