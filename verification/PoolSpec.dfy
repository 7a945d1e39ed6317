/**
 What the request pool means: a queue of nodes with the job each one carries, a
 free list used from its head, and the history of what went through. Nodes and
 jobs are of any type.
 */
module PoolSpec {

  /** `jobs[i]` is carried by `q[i]`; `log` is every job taken and not cancelled, `sent` every job dispatched. */
  datatype View<N, J> = View(q: seq<N>, jobs: seq<J>, f: seq<N>, log: seq<J>, sent: seq<J>)

  ghost predicate NoDup<N>(s: seq<N>) {
    forall i, j :: 0 <= i < |s| && 0 <= j < |s| && i != j ==> s[i] != s[j]
  }

  /** `count` nodes, none of them twice, and first in is first out. */
  ghost predicate Sound<N, J>(v: View<N, J>, count: nat) {
    && |v.q| == |v.jobs|
    && NoDup(v.q + v.f)
    && v.log == v.sent + v.jobs
    && |v.q| + |v.f| == count
  }

  // ----- operations -----

  /** Take one published job: the head of the free list goes to the end of the queue. */
  function Consume<N, J>(v: View<N, J>, j: J): View<N, J>
    requires v.f != []
  {
    View(v.q + [v.f[0]], v.jobs + [j], v.f[1..], v.log + [j], v.sent)
  }

  function ConsumeAll<N, J>(v: View<N, J>, js: seq<J>): View<N, J>
    requires |js| <= |v.f|
    ensures |ConsumeAll(v, js).f| == |v.f| - |js|
    ensures |ConsumeAll(v, js).q| - |ConsumeAll(v, js).jobs| == |v.q| - |v.jobs|
    ensures ConsumeAll(v, js).sent == v.sent
  {
    if js == [] then v else Consume(ConsumeAll(v, js[..|js| - 1]), js[|js| - 1])
  }

  /** Dispatch: the head of the queue goes back to the head of the free list. */
  function Dispatch<N, J>(v: View<N, J>): View<N, J>
    requires |v.q| == |v.jobs|
  {
    if v.q == [] then v
    else View(v.q[1..], v.jobs[1..], [v.q[0]] + v.f, v.log, v.sent + [v.jobs[0]])
  }

  /** Cancel: entry k leaves the queue, its node goes to the head of the free list. */
  function Remove<N, J>(v: View<N, J>, k: nat): View<N, J>
    requires k < |v.q| == |v.jobs|
  {
    var jobs := v.jobs[..k] + v.jobs[k + 1..];
    View(v.q[..k] + v.q[k + 1..], jobs, [v.q[k]] + v.f, v.sent + jobs, v.sent)
  }

  function Reversed<N>(s: seq<N>): seq<N> {
    if s == [] then [] else Reversed(s[1..]) + [s[0]]
  }

  /** Cancel all: every queued node goes to the head of the free list, one by one. */
  function Drain<N, J>(v: View<N, J>): View<N, J> {
    View([], [], Reversed(v.q) + v.f, v.sent, v.sent)
  }

  // ----- each keeps the pool sound -----

  lemma ConsumeSound<N, J>(v: View<N, J>, j: J, count: nat)
    requires Sound(v, count) && v.f != []
    ensures Sound(Consume(v, j), count)
  {
    assert v.q + v.f == Consume(v, j).q + Consume(v, j).f;
  }

  /** Where the entry now at `i` was before the entry at `from` moved to the later place `to`. */
  function Before(from: nat, to: nat, i: nat): nat {
    if from <= i < to then i + 1 else if i == to then from else i
  }

  /** Moving an entry to a later place keeps a sequence duplicate-free. */
  lemma Moved<N>(s: seq<N>, s': seq<N>, from: nat, to: nat)
    requires from <= to < |s| == |s'| && NoDup(s)
    requires forall i :: 0 <= i < |s| ==> s'[i] == s[Before(from, to, i)]
    ensures NoDup(s')
  {
    forall i, j | 0 <= i < |s'| && 0 <= j < |s'| && i != j ensures s'[i] != s'[j] {
      assert Before(from, to, i) != Before(from, to, j);
    }
  }

  lemma DispatchSound<N, J>(v: View<N, J>, count: nat)
    requires Sound(v, count)
    ensures Sound(Dispatch(v), count)
  {
    if v.q != [] {
      Moved(v.q + v.f, Dispatch(v).q + Dispatch(v).f, 0, |v.q| - 1);
    }
  }

  lemma RemoveSound<N, J>(v: View<N, J>, k: nat, count: nat)
    requires Sound(v, count) && k < |v.q|
    ensures Sound(Remove(v, k), count)
  {
    Moved(v.q + v.f, Remove(v, k).q + Remove(v, k).f, k, |v.q| - 1);
  }

  lemma {:induction false} ReversedAt<N>(s: seq<N>)
    ensures |Reversed(s)| == |s|
    ensures forall i :: 0 <= i < |s| ==> Reversed(s)[i] == s[|s| - 1 - i]
  {
    if s != [] {
      ReversedAt(s[1..]);
    }
  }

  lemma {:induction false} ReversedPush<N>(s: seq<N>, n: N)
    ensures Reversed(s + [n]) == [n] + Reversed(s)
  {
    ReversedAt(s);
    ReversedAt(s + [n]);
  }

  lemma DrainSound<N, J>(v: View<N, J>, count: nat)
    requires Sound(v, count)
    ensures Sound(Drain(v), count)
  {
    ReversedAt(v.q);
    var s, s' := v.q + v.f, Drain(v).q + Drain(v).f;
    forall i, j | 0 <= i < |s'| && 0 <= j < |s'| && i != j ensures s'[i] != s'[j] {
      var a := if i < |v.q| then |v.q| - 1 - i else i;
      var b := if j < |v.q| then |v.q| - 1 - j else j;
      assert s'[i] == s[a] && s'[j] == s[b] && a != b;
    }
  }

  lemma {:induction false} ConsumeAllSound<N, J>(v: View<N, J>, js: seq<J>, count: nat)
    requires Sound(v, count) && |js| <= |v.f|
    ensures Sound(ConsumeAll(v, js), count)
  {
    if js != [] {
      ConsumeAllSound(v, js[..|js| - 1], count);
      ConsumeSound(ConsumeAll(v, js[..|js| - 1]), js[|js| - 1], count);
    }
  }

  /** A pass over the slots in closed form: (Q, F) becomes (Q + F[..k], F[k..]). */
  lemma {:induction false} ConsumeAllIs<N, J>(v: View<N, J>, js: seq<J>)
    requires |js| <= |v.f|
    ensures ConsumeAll(v, js)
         == View(v.q + v.f[..|js|], v.jobs + js, v.f[|js|..], v.log + js, v.sent)
  {
    if js != [] {
      var k := |js| - 1;
      ConsumeAllIs(v, js[..k]);
      assert v.f[..k] + [v.f[k..][0]] == v.f[..k + 1];
      assert js[..k] + [js[k]] == js;
    }
  }

  // ----- whole runs -----

  /** A call of waio_enqueue that finds these jobs published, or a call of waio_dequeue. */
  datatype Op<J> = Enqueue(jobs: seq<J>) | Dequeue

  /** An enqueue that finds no free node changes nothing; one with too few would fault. */
  predicate Possible<N, J>(v: View<N, J>, op: Op<J>) {
    |v.q| == |v.jobs| && (op.Enqueue? ==> v.f == [] || |op.jobs| <= |v.f|)
  }

  function Apply<N, J>(v: View<N, J>, op: Op<J>): View<N, J>
    requires Possible(v, op)
  {
    match op
    case Enqueue(js) => if v.f == [] then v else ConsumeAll(v, js)
    case Dequeue => Dispatch(v)
  }

  ghost predicate OpAt<N, J>(run: seq<View<N, J>>, ops: seq<Op<J>>, i: nat) {
    i + 1 < |run| == |ops| + 1 && Possible(run[i], ops[i]) && run[i + 1] == Apply(run[i], ops[i])
  }

  /** The jobs the first n calls took out of the slots, in order. */
  function Taken<N, J>(run: seq<View<N, J>>, ops: seq<Op<J>>, n: nat): seq<J>
    requires n <= |ops| < |run|
  {
    if n == 0 then []
    else Taken(run, ops, n - 1) + (if ops[n - 1].Enqueue? && run[n - 1].f != [] then ops[n - 1].jobs else [])
  }

  /**
   First in, first out over every run of enqueues and dequeues: what has been
   dispatched followed by what is queued is what was taken out of the slots, in
   the order of the passes and of the slots within a pass; nodes are neither
   lost nor duplicated.
   */
  lemma {:induction false} FifoRun<N, J>(run: seq<View<N, J>>, ops: seq<Op<J>>, count: nat, n: nat)
    requires |run| == |ops| + 1 && n <= |ops|
    requires forall i :: 0 <= i < |ops| ==> OpAt(run, ops, i)
    requires Sound(run[0], count) && run[0].log == []
    ensures Sound(run[n], count)
    ensures run[n].sent + run[n].jobs == Taken(run, ops, n)
  {
    if n > 0 {
      FifoRun(run, ops, count, n - 1);
      assert OpAt(run, ops, n - 1);
      match ops[n - 1] {
        case Enqueue(js) =>
          if run[n - 1].f != [] {
            ConsumeAllSound(run[n - 1], js, count);
            ConsumeAllIs(run[n - 1], js);
          }
        case Dequeue => DispatchSound(run[n - 1], count);
      }
      assert run[n].log == run[n].sent + run[n].jobs;
    }
  }
}
