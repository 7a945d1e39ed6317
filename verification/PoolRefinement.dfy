/**
 The intrusive lists of one context, read as a pool: which sequences of nodes
 the chains through the node memory are, and that the pointer operations of
 waio_enqueue, waio_dequeue and waio_cancel_aiocb are the operations on them.
 */
module PoolRefinement {
  import opened Protocol
  import opened PoolSpec

  type JobPool = View<nat, Job>

  /** The entry at `i`, or null past the end. */
  function At(s: seq<nat>, i: nat): Option<nat> {
    if i < |s| then Some(s[i]) else None
  }

  function Last(s: seq<nat>): Option<nat> {
    if s == [] then None else Some(s[|s| - 1])
  }

  /** `head` is the first node of exactly the chain `s`. */
  ghost predicate Chain(nodes: seq<Node>, head: Option<nat>, s: seq<nat>) {
    && head == At(s, 0)
    && (forall i :: 0 <= i < |s| ==> s[i] < |nodes|)
    && (forall i {:trigger nodes[s[i]]} :: 0 <= i < |s| ==> nodes[s[i]].next == At(s, i + 1))
  }

  /** The node holds the request and its translation; the iosb is the I/O thread's to write. */
  predicate Carries(n: Node, j: Job) {
    n.job == j && n.packet == Packet(j.buf, j.nbytes, j.offset, j.aiocb, n.packet.iosb)
  }

  ghost predicate AllCarry(nodes: seq<Node>, q: seq<nat>, jobs: seq<Job>) {
    && |q| == |jobs|
    && (forall i :: 0 <= i < |q| ==> q[i] < |nodes|)
    && (forall i {:trigger nodes[q[i]]} :: 0 <= i < |q| ==> Carries(nodes[q[i]], jobs[i]))
  }

  /** Both chains and what the queued nodes carry, without the tail pointer. */
  ghost predicate Holds(q: Lists, v: JobPool) {
    && Sound(v, |q.nodes|)
    && Chain(q.nodes, q.queue, v.q) && Chain(q.nodes, q.qfree, v.f)
    && AllCarry(q.nodes, v.q, v.jobs)
  }

  ghost predicate Represents(q: Lists, v: JobPool) {
    Holds(q, v) && q.qtail == Last(v.q)
  }

  lemma Distinct(v: JobPool, count: nat)
    requires Sound(v, count)
    ensures forall i, j :: 0 <= i < |v.q| && 0 <= j < |v.f| ==> v.q[i] != v.f[j]
    ensures forall i, j :: 0 <= i < |v.q| && 0 <= j < |v.q| && i != j ==> v.q[i] != v.q[j]
    ensures forall i, j :: 0 <= i < |v.f| && 0 <= j < |v.f| && i != j ==> v.f[i] != v.f[j]
  {
    assert forall k :: 0 <= k < |v.f| ==> v.f[k] == (v.q + v.f)[|v.q| + k];
    assert forall k :: 0 <= k < |v.q| ==> v.q[k] == (v.q + v.f)[k];
  }

  /** waio_enqueue on one published slot. */
  lemma TakeRefines(q: Lists, q': Lists, v: JobPool, j: Job)
    requires Represents(q, v) && TakeNode(q, q', j)
    ensures v.f != [] && q.qfree == Some(v.f[0])
    ensures Represents(q', Consume(v, j))
  {
    var v' := Consume(v, j);
    ConsumeSound(v, j, |q.nodes|);
    Distinct(v, |q.nodes|);
  }

  /** waio_dequeue on a non-empty queue. */
  lemma HeadRefines(q: Lists, q': Lists, v: JobPool)
    requires Represents(q, v) && TakeHead(q, q')
    ensures v.q != [] && q.queue == Some(v.q[0])
    ensures Represents(q', Dispatch(v))
  {
    var v' := Dispatch(v);
    DispatchSound(v, |q.nodes|);
    Distinct(v, |q.nodes|);
  }

  function UpTo(n: nat): (r: seq<nat>)
    ensures |r| == n && forall i :: 0 <= i < n ==> r[i] == i
  {
    seq(n, i => i)
  }

  /** On a queue of one entry the tail need not be in order before. */
  lemma HeadHeld(q: Lists, q': Lists, v: JobPool)
    requires Holds(q, v) && TakeHead(q, q') && (q.qtail == Last(v.q) || |v.q| == 1)
    ensures Represents(q', Dispatch(v))
  {
    HeadRefines(q.(qtail := Last(v.q)), q'.(qtail := if q'.queue.None? then None else Last(v.q)), v);
  }

  /** The block as waio_alloc leaves it: every node free, in memory order. */
  lemma FreshRefines(q: Lists)
    requires Chained(q.nodes) && |q.nodes| > 0
    requires q.queue.None? && q.qtail.None? && q.qfree == Some(0)
    ensures Represents(q, View([], [], UpTo(|q.nodes|), [], []))
  {
    var f := UpTo(|q.nodes|);
    assert [] + f == f;
  }

  function Below(count: nat): (r: set<nat>)
    ensures |r| == count && forall i :: i in r ==> i < count
    ensures forall i :: 0 <= i < count ==> i in r
  {
    if count == 0 then {} else Below(count - 1) + {count - 1}
  }

  function Elements(s: seq<nat>): (r: set<nat>)
    ensures forall x :: x in r <==> x in s
  {
    set x | x in s
  }

  lemma {:induction false} ElementCount(s: seq<nat>)
    requires NoDup(s)
    ensures |Elements(s)| == |s|
  {
    if s == [] {
      assert Elements(s) == {};
    } else {
      var t := s[1..];
      assert NoDup(t) by {
        assert forall i :: 0 <= i < |t| ==> t[i] == s[i + 1];
      }
      ElementCount(t);
      assert s == [s[0]] + t;
      assert Elements(s) == Elements(t) + {s[0]};
      assert s[0] !in t by {
        assert forall i :: 0 <= i < |t| ==> t[i] == s[i + 1] != s[0];
      }
    }
  }

  lemma {:induction false} SubsetCount(a: set<nat>, b: set<nat>)
    requires a <= b
    ensures |a| <= |b|
  {
    if a != {} {
      var x :| x in a;
      SubsetCount(a - {x}, b - {x});
    }
  }

  /** As many different numbers below `count` as there are: all of them. */
  lemma Pigeonhole(s: seq<nat>, count: nat, n: nat)
    requires NoDup(s) && |s| == count && n < count
    requires forall i :: 0 <= i < |s| ==> s[i] < count
    ensures n in s
  {
    if n !in s {
      ElementCount(s);
      SubsetCount(Elements(s), Below(count) - {n});
    }
  }

  /** Every node is on one of the two lists: none is lost. */
  lemma CoversAll(q: Lists, v: JobPool, n: nat)
    requires Holds(q, v) && n < |q.nodes|
    ensures n in v.q || n in v.f
  {
    var s := v.q + v.f;
    forall i | 0 <= i < |s| ensures s[i] < |q.nodes| {
      assert s[i] == if i < |v.q| then v.q[i] else v.f[i - |v.q|];
    }
    Pigeonhole(s, |q.nodes|, n);
  }

  // ----- the request pointers of the aiocbs -----

  function Link(aio: map<nat, Aio>, a: nat, n: nat): map<nat, Aio> {
    aio[a := GetAio(aio, a).(request := Some(n))]
  }

  /** The i-th job taken is linked to the i-th free node. */
  function LinkEach(aio: map<nat, Aio>, jobs: seq<Job>, free: seq<nat>): map<nat, Aio>
    requires |jobs| <= |free|
  {
    if jobs == [] then aio
    else
      var k := |jobs| - 1;
      Link(LinkEach(aio, jobs[..k], free), jobs[k].aiocb, free[k])
  }

  lemma {:induction false} LinkEachIs(aio: map<nat, Aio>, jobs: seq<Job>, free: seq<nat>, a: nat)
    requires |jobs| <= |free|
    requires forall i, j :: 0 <= i < j < |jobs| ==> jobs[i].aiocb != jobs[j].aiocb
    ensures var x, x' := GetAio(aio, a), GetAio(LinkEach(aio, jobs, free), a);
            && x'.qstatus == x.qstatus && x'.iosb == x.iosb
            && (forall i :: 0 <= i < |jobs| && jobs[i].aiocb == a ==> x'.request == Some(free[i]))
            && ((forall i :: 0 <= i < |jobs| ==> jobs[i].aiocb != a) ==> x' == x)
  {
    if jobs != [] {
      var k := |jobs| - 1;
      LinkEachIs(aio, jobs[..k], free, a);
      assert forall i :: 0 <= i < k ==> jobs[..k][i] == jobs[i];
    }
  }
}
