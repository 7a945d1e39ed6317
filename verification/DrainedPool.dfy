/**
 What becomes of the pool after a cancellation of everything: the queue pointer
 stays on the first cancelled node, which now leads into the free list, and the
 tail pointer stays on the last one, which now is the head of the free list.
 */
module DrainedPool {
  import opened AiocbStatus
  import opened Protocol
  import opened PoolSpec
  import opened PoolRefinement
  import opened PoolCancel
  import opened StaleTail

  /** No pointer leads from a cancelled node behind the first into the old free list. */
  ghost predicate Apart(nodes: seq<Node>, q: seq<nat>) {
    forall i {:trigger nodes[q[i]]} :: 1 <= i < |q| && q[i] < |nodes| && nodes[q[i]].next.Some? ==>
                                         nodes[q[i]].next.value in q
  }

  /**
   The lists after the drain of the queue of `v`, and `t` takes. `held` is what
   the nodes of the old free list still hold: requests that have been run, or
   nothing but zeroes.
   */
  ghost predicate AfterDrain(q: Lists, v: JobPool, held: seq<Job>, t: nat) {
    && t < |v.q| == |v.jobs| && Sound(v, |q.nodes|)
    && Chain(q.nodes, q.queue, [v.q[0]] + v.f)
    && Chain(q.nodes, q.qfree, Reversed(v.q[..|v.q| - t]) + v.f)
    && q.qtail == Some(v.q[if t == 0 then |v.q| - 1 else |v.q| - t])
    && Apart(q.nodes, v.q)
    && AllCarry(q.nodes, [v.q[0]] + v.f, [v.jobs[0]] + held)
  }

  lemma DrainedLinks(q0: Lists, q: Lists, v: JobPool)
    requires Represents(q0, v) && Drained(q0, q, v, |v.q|) && v.q != []
    ensures forall i :: 0 <= i < |v.q| ==> v.q[i] < |q.nodes|
    ensures q.nodes[v.q[0]].next == At(v.f, 0)
    ensures forall i {:trigger v.q[i]} :: 1 <= i < |v.q| ==> q.nodes[v.q[i]].next == Some(v.q[i - 1])
    ensures Chain(q.nodes, q.qfree, Reversed(v.q) + v.f)
  {
    var free := Reversed(v.q) + v.f;
    assert v.q[..|v.q|] == v.q;
    ReversedAt(v.q);
    forall i | 1 <= i < |v.q| ensures v.q[i] < |q.nodes| && q.nodes[v.q[i]].next == Some(v.q[i - 1]) {
      assert free[|v.q| - 1 - i] == v.q[i] && free[|v.q| - i] == v.q[i - 1];
    }
    assert free[|v.q| - 1] == v.q[0];
    assert q.nodes[free[|v.q| - 1]].next == At(free, |v.q|) == At(v.f, 0);
  }

  /** The chain of the old free list is the end of the new one. */
  lemma FreeIsEnd(nodes: seq<Node>, head: Option<nat>, r: seq<nat>, f: seq<nat>)
    requires Chain(nodes, head, r + f)
    ensures forall i :: 0 <= i < |f| ==> f[i] < |nodes|
    ensures forall i {:trigger nodes[f[i]]} :: 0 <= i < |f| ==> nodes[f[i]].next == At(f, i + 1)
  {
    assert forall i :: 0 <= i < |f| ==> (r + f)[|r| + i] == f[i];
    forall i | 0 <= i < |f| ensures f[i] < |nodes| && nodes[f[i]].next == At(f, i + 1) {
      assert nodes[(r + f)[|r| + i]].next == At(r + f, |r| + i + 1);
    }
  }

  /** The drain leaves the queue pointer on a chain of its first node and the whole old free list. */
  lemma DrainLeads(q0: Lists, q: Lists, v: JobPool, held: seq<Job>)
    requires Represents(q0, v) && Drained(q0, q, v, |v.q|) && v.q != []
    requires AllCarry(q0.nodes, v.f, held)
    ensures AfterDrain(q, v, held, 0)
  {
    DrainedLinks(q0, q, v);
    FreeIsEnd(q.nodes, q.qfree, Reversed(v.q), v.f);
    assert v.q[..|v.q|] == v.q;
    var s := [v.q[0]] + v.f;
    forall i | 0 <= i < |s| ensures s[i] < |q.nodes| && q.nodes[s[i]].next == At(s, i + 1) {
      assert s[i] == if i == 0 then v.q[0] else v.f[i - 1];
    }
  }

  // ----- the steps from there -----

  lemma OneMoreTaken(v: JobPool, t: nat)
    requires t + 1 < |v.q|
    ensures var m := |v.q| - t;
            && Reversed(v.q[..m]) + v.f == [v.q[m - 1]] + (Reversed(v.q[..m - 1]) + v.f)
            && |Reversed(v.q[..m - 1])| == m - 1
            && forall i {:trigger Reversed(v.q[..m - 1])[i]} :: 0 <= i < m - 1 ==>
                 Reversed(v.q[..m - 1])[i] == v.q[m - 2 - i]
  {
    var m := |v.q| - t;
    assert v.q[..m] == v.q[..m - 1] + [v.q[m - 1]];
    ReversedPush(v.q[..m - 1], v.q[m - 1]);
    ReversedAt(v.q[..m - 1]);
  }

  /** Apart from the node taken and the tail, a take changes no node. */
  lemma TakeChanges(q: Lists, q': Lists, j: Job, n: nat)
    requires TakeNode(q, q', j) && n < |q.nodes| && q.qfree != Some(n) && q.qtail != Some(n)
    ensures |q'.nodes| == |q.nodes| && q'.nodes[n] == q.nodes[n]
  {
  }

  lemma QueueKept(q: Lists, q': Lists, v: JobPool, held: seq<Job>, t: nat, j: Job)
    requires AfterDrain(q, v, held, t) && t + 1 < |v.q| && TakeNode(q, q', j)
    ensures Chain(q'.nodes, q'.queue, [v.q[0]] + v.f)
    ensures AllCarry(q'.nodes, [v.q[0]] + v.f, [v.jobs[0]] + held)
  {
    Distinct(v, |q.nodes|);
    OneMoreTaken(v, t);
    var s := [v.q[0]] + v.f;
    forall i | 0 <= i < |s| ensures s[i] < |q'.nodes| && q'.nodes[s[i]] == q.nodes[s[i]] {
      assert s[i] == if i == 0 then v.q[0] else v.f[i - 1];
      TakeChanges(q, q', j, s[i]);
    }
  }

  lemma FreeHead(q: Lists, v: JobPool, held: seq<Job>, t: nat)
    requires AfterDrain(q, v, held, t)
    ensures q.qfree == Some(v.q[|v.q| - t - 1])
  {
    ReversedAt(v.q[..|v.q| - t]);
  }

  /** A take beheads the free chain, when the tail stands on none of the rest of it. */
  lemma Beheaded(q: Lists, q': Lists, all: seq<nat>, j: Job)
    requires all != [] && Chain(q.nodes, q.qfree, all) && TakeNode(q, q', j)
    requires forall i :: 1 <= i < |all| ==> all[i] != all[0] && q.qtail != Some(all[i])
    ensures Chain(q'.nodes, q'.qfree, all[1..])
  {
    forall i | 1 <= i < |all| ensures all[i] < |q'.nodes| && q'.nodes[all[i]] == q.nodes[all[i]] {
      TakeChanges(q, q', j, all[i]);
    }
  }

  lemma OthersFree(v: JobPool, count: nat, t: nat)
    requires Sound(v, count) && t + 1 < |v.q|
    ensures var m := |v.q| - t; var all := [v.q[m - 1]] + (Reversed(v.q[..m - 1]) + v.f);
            forall i :: 1 <= i < |all| ==> all[i] != v.q[m - 1] && (m < |v.q| ==> all[i] != v.q[m])
  {
    Distinct(v, count);
    OneMoreTaken(v, t);
  }

  lemma FreeBeheaded(q: Lists, q': Lists, v: JobPool, held: seq<Job>, t: nat, j: Job)
    requires AfterDrain(q, v, held, t) && t + 1 < |v.q| && TakeNode(q, q', j)
    ensures Chain(q'.nodes, q'.qfree, Reversed(v.q[..|v.q| - t - 1]) + v.f)
  {
    var m := |v.q| - t;
    var free := Reversed(v.q[..m - 1]) + v.f;
    OneMoreTaken(v, t);
    OthersFree(v, |q.nodes|, t);
    Beheaded(q, q', [v.q[m - 1]] + free, j);
    assert ([v.q[m - 1]] + free)[1..] == free;
  }

  /** A take before the next dispatch uses the last cancelled node that is free, and links it behind the tail. */
  lemma TakeAfterDrain(q: Lists, q': Lists, v: JobPool, held: seq<Job>, t: nat, j: Job)
    requires AfterDrain(q, v, held, t) && t + 1 < |v.q| && TakeNode(q, q', j)
    ensures AfterDrain(q', v, held, t + 1)
  {
    QueueKept(q, q', v, held, t, j);
    FreeHead(q, v, held, t);
    FreeBeheaded(q, q', v, held, t, j);
  }

  lemma OldFreeKept(q: Lists, q': Lists, v: JobPool, held: seq<Job>, t: nat)
    requires AfterDrain(q, v, held, t) && TakeHead(q, q')
    ensures q.queue == Some(v.q[0]) && v.q[0] < |q.nodes| && Carries(q.nodes[v.q[0]], v.jobs[0])
    ensures Chain(q'.nodes, q'.queue, v.f) && AllCarry(q'.nodes, v.f, held)
  {
    Distinct(v, |q.nodes|);
    var s := [v.q[0]] + v.f;
    forall i | 0 <= i < |v.f|
      ensures v.f[i] < |q'.nodes| && q'.nodes[v.f[i]] == q.nodes[v.f[i]] && q.nodes[v.f[i]].next == At(v.f, i + 1)
      ensures Carries(q.nodes[v.f[i]], held[i])
    {
      assert s[i + 1] == v.f[i] && ([v.jobs[0]] + held)[i + 1] == held[i];
    }
  }

  lemma NotOldFree(v: JobPool, count: nat, n: nat)
    requires Sound(v, count) && n in v.q
    ensures n !in v.f
  {
    Distinct(v, count);
  }

  lemma NoneLeadsIn(q: Lists, q': Lists, v: JobPool, held: seq<Job>, t: nat, n: nat)
    requires AfterDrain(q, v, held, t) && TakeHead(q, q')
    requires n in v.q && n < |q.nodes| && q'.nodes[n].next.Some?
    ensures q'.nodes[n].next.value in v.q
  {
    FreeHead(q, v, held, t);
    var i :| 0 <= i < |v.q| && v.q[i] == n;
    if i > 0 {
      Distinct(v, |q.nodes|);
      assert q'.nodes[n] == q.nodes[v.q[i]];
    }
  }

  /** The dispatch takes the first cancelled request, and the rest of the queue is the old free list. */
  lemma DispatchAfterDrain(q: Lists, q': Lists, v: JobPool, held: seq<Job>, t: nat)
    requires AfterDrain(q, v, held, t) && TakeHead(q, q') && v.f != []
    requires forall n :: 0 <= n < |q.nodes| ==> n in v.q || n in v.f
    requires forall n :: n in v.q ==> n < |q.nodes|
    ensures q.queue == Some(v.q[0]) && v.q[0] < |q.nodes| && Carries(q.nodes[v.q[0]], v.jobs[0])
    ensures Detached(q', v.f) && AllCarry(q'.nodes, v.f, held)
  {
    OldFreeKept(q, q', v, held, t);
    FreeHead(q, v, held, t);
    assert q.qtail.value in v.q && v.q[0] in v.q;
    NotOldFree(v, |q.nodes|, q.qtail.value);
    NotOldFree(v, |q.nodes|, v.q[0]);
    Distinct(v, |q.nodes|);
    forall n {:trigger q'.nodes[n]} | 0 <= n < |q'.nodes| && n !in v.f && q'.nodes[n].next.Some?
      ensures q'.nodes[n].next.value < |q'.nodes| && q'.nodes[n].next.value !in v.f
    {
      NoneLeadsIn(q, q', v, held, t, n);
      NotOldFree(v, |q.nodes|, q'.nodes[n].next.value);
    }
  }

  // ----- every sequence of calls with a dispatch before the cancelled nodes are used up -----

  lemma {:induction false} TakesAfterDrain(qs: seq<Lists>, ops: seq<ListOp>, v: JobPool, held: seq<Job>, t: nat)
    requires ListRun(qs, ops) && t <= |ops| && t < |v.q| && AfterDrain(qs[0], v, held, 0)
    requires forall i :: 0 <= i < t ==> ops[i].Take?
    ensures AfterDrain(qs[t], v, held, t) && |qs[t].nodes| == |qs[0].nodes| && Dispatches(ops, t) == 0
  {
    if t > 0 {
      TakesAfterDrain(qs, ops, v, held, t - 1);
      assert ListStepAt(qs, ops, t - 1) && ops[t - 1].Take?;
      TakeAfterDrain(qs[t - 1], qs[t], v, held, t - 1, ops[t - 1].job);
    }
  }

  lemma {:induction false} DispatchesFrom(ops: seq<ListOp>, t: nat, n: nat)
    requires t <= n <= |ops|
    ensures Dispatches(ops[t..], n - t) == Dispatches(ops, n) - Dispatches(ops, t)
  {
    if t < n {
      DispatchesFrom(ops, t, n - 1);
    }
  }

  lemma RunFrom(qs: seq<Lists>, ops: seq<ListOp>, t: nat)
    requires ListRun(qs, ops) && t <= |ops|
    ensures ListRun(qs[t..], ops[t..])
  {
    forall i | 0 <= i < |ops[t..]| ensures ListStepAt(qs[t..], ops[t..], i) {
      assert ListStepAt(qs, ops, t + i);
    }
  }

  lemma StaleStart(q: Lists, s: seq<nat>, jobs: seq<Job>)
    requires Detached(q, s) && AllCarry(q.nodes, s, jobs)
    ensures StaleBy(q, s, jobs, 0)
  {
    assert Left(s, 0) == s && Left(jobs, 0) == jobs;
  }

  /** A queue that is stale from state `k` on. */
  lemma LostFrom(qs: seq<Lists>, ops: seq<ListOp>, s: seq<nat>, jobs: seq<Job>, k: nat, n: nat)
    requires ListRun(qs, ops) && k <= n <= |ops| && |jobs| == |s|
    requires Detached(qs[k], s) && AllCarry(qs[k].nodes, s, jobs)
    requires Dispatches(ops, n) - Dispatches(ops, k) < |s|
    ensures Dispatches(ops, n) >= Dispatches(ops, k)
    ensures StaleBy(qs[n], s, jobs, Dispatches(ops, n) - Dispatches(ops, k))
  {
    DispatchesFrom(ops, k, n);
    RunFrom(qs, ops, k);
    StaleStart(qs[k], s, jobs);
    LostUntilDrained(qs[k..], ops[k..], s, jobs, n - k);
  }

  lemma FirstDispatch(q0: Lists, qs: seq<Lists>, ops: seq<ListOp>, v: JobPool, held: seq<Job>, t: nat)
    requires Represents(q0, v) && v.q != [] && v.f != [] && AllCarry(q0.nodes, v.f, held)
    requires ListRun(qs, ops) && Drained(q0, qs[0], v, |v.q|)
    requires t < |v.q| && t < |ops| && ops[t].Dispatch? && forall i :: 0 <= i < t ==> ops[i].Take?
    ensures qs[t].queue == Some(v.q[0]) && v.q[0] < |qs[t].nodes| && Carries(qs[t].nodes[v.q[0]], v.jobs[0])
    ensures Detached(qs[t + 1], v.f) && AllCarry(qs[t + 1].nodes, v.f, held)
    ensures Dispatches(ops, t + 1) == 1
  {
    DrainLeads(q0, qs[0], v, held);
    TakesAfterDrain(qs, ops, v, held, t);
    assert ListStepAt(qs, ops, t);
    forall n | 0 <= n < |qs[t].nodes| ensures n in v.q || n in v.f {
      CoversAll(q0, v, n);
    }
    DispatchAfterDrain(qs[t], qs[t + 1], v, held, t);
  }

  /**
   After a cancellation of everything, for every sequence of takes and dequeues
   with fewer takes before the first dequeue than there were requests queued: the
   first dequeue dispatches the first cancelled request, the next ones dispatch
   the nodes of the old free list one after the other, with whatever they hold,
   and nothing that is taken from the slots meanwhile is on the queue.
   */
  lemma OldFreeIsDispatched(q0: Lists, qs: seq<Lists>, ops: seq<ListOp>, v: JobPool, held: seq<Job>, t: nat, n: nat)
    requires Represents(q0, v) && v.q != [] && v.f != [] && AllCarry(q0.nodes, v.f, held)
    requires ListRun(qs, ops) && Drained(q0, qs[0], v, |v.q|)
    requires t < |v.q| && t < n <= |ops| && ops[t].Dispatch? && forall i :: 0 <= i < t ==> ops[i].Take?
    requires Dispatches(ops, n) <= |v.f|
    ensures qs[t].queue == Some(v.q[0]) && v.q[0] < |qs[t].nodes| && Carries(qs[t].nodes[v.q[0]], v.jobs[0])
    ensures Dispatches(ops, n) >= 1
    ensures var d := Dispatches(ops, n) - 1;
            && Chain(qs[n].nodes, qs[n].queue, v.f[d..])
            && qs[n].queue == Some(v.f[d]) && v.f[d] < |qs[n].nodes| && Carries(qs[n].nodes[v.f[d]], held[d])
  {
    FirstDispatch(q0, qs, ops, v, held, t);
    LostFrom(qs, ops, v.f, held, t + 1, n);
  }

  // ----- when the cancelled nodes are used up first -----

  /** The queue is the first cancelled node and `k` of the old free list, and carries `js`; the tail is in order. */
  ghost predicate Rejoined(q: Lists, v: JobPool, js: seq<Job>, k: nat) {
    && v.q != [] && k <= |v.f| && Sound(v, |q.nodes|)
    && Chain(q.nodes, q.queue, [v.q[0]] + v.f[..k]) && Chain(q.nodes, q.qfree, v.f[k..])
    && q.qtail == Last([v.q[0]] + v.f[..k])
    && AllCarry(q.nodes, [v.q[0]] + v.f[..k], js)
  }

  /** The take that finds the first cancelled node at the head of the free list leaves the old free list as it is. */
  lemma OldFreeLeft(q: Lists, q': Lists, v: JobPool, held: seq<Job>, j: Job)
    requires v.q != [] && AfterDrain(q, v, held, |v.q| - 1) && TakeNode(q, q', j)
    ensures q.qfree == Some(v.q[0]) && Chain(q'.nodes, q'.qfree, v.f) && AllCarry(q'.nodes, v.f, held)
  {
    Distinct(v, |q.nodes|);
    FreeHead(q, v, held, |v.q| - 1);
    var s := [v.q[0]] + v.f;
    forall i | 0 <= i < |v.f|
      ensures v.f[i] < |q'.nodes| && q'.nodes[v.f[i]] == q.nodes[v.f[i]] && q.nodes[v.f[i]].next == At(v.f, i + 1)
      ensures Carries(q.nodes[v.f[i]], held[i])
    {
      assert s[i + 1] == v.f[i] && ([v.jobs[0]] + held)[i + 1] == held[i];
      TakeChanges(q, q', j, v.f[i]);
    }
    assert q.nodes[s[0]].next == At(s, 1) == At(v.f, 0);
  }

  lemma RejoinFirst(q: Lists, q': Lists, v: JobPool, held: seq<Job>, j: Job)
    requires |v.q| > 1 && AfterDrain(q, v, held, |v.q| - 1) && TakeNode(q, q', j)
    ensures Rejoined(q', v, [j], 0)
  {
    OldFreeLeft(q, q', v, held, j);
    Distinct(v, |q.nodes|);
    assert v.f[0..] == v.f && [v.q[0]] + v.f[..0] == [v.q[0]];
  }

  lemma RejoinNext(q: Lists, q': Lists, v: JobPool, js: seq<Job>, k: nat, j: Job)
    requires Rejoined(q, v, js, k) && k < |v.f| && TakeNode(q, q', j)
    ensures Rejoined(q', v, js + [j], k + 1)
  {
    Distinct(v, |q.nodes|);
    assert v.f[k..][1..] == v.f[k + 1..] && v.f[k..][0] == v.f[k];
    assert [v.q[0]] + v.f[..k + 1] == [v.q[0]] + v.f[..k] + [v.f[k]];
  }

  /** The only cancelled node is taken again: it is queue and tail, so that it is linked to itself. */
  ghost predicate SelfLinked(q: Lists, v: JobPool, held: seq<Job>, j: Job) {
    && |v.q| == 1 && Sound(v, |q.nodes|)
    && q.queue == q.qtail == Some(v.q[0]) && v.q[0] < |q.nodes|
    && q.nodes[v.q[0]] == RequestNode(j).(next := Some(v.q[0]))
    && Chain(q.nodes, q.qfree, v.f) && AllCarry(q.nodes, v.f, held)
  }

  lemma TakesTheOnly(q: Lists, q': Lists, v: JobPool, held: seq<Job>, j: Job)
    requires |v.q| == 1 && AfterDrain(q, v, held, 0) && TakeNode(q, q', j)
    ensures SelfLinked(q', v, held, j)
  {
    OldFreeLeft(q, q', v, held, j);
  }

  /** One more request puts the links right. */
  lemma SelfLinkUndone(q: Lists, q': Lists, v: JobPool, held: seq<Job>, i: Job, j: Job)
    requires SelfLinked(q, v, held, i) && TakeNode(q, q', j)
    ensures Rejoined(q', v, [i, j], 1)
  {
    Distinct(v, |q.nodes|);
    assert [v.q[0]] + v.f[..1] == [v.q[0], v.f[0]];
  }

  /** The pool whose only queued request is `j`, on the same node. */
  function Only(v: JobPool, j: Job): JobPool {
    v.(jobs := [j], log := v.sent + [j])
  }

  /** Otherwise it is dispatched, and the lists are again as after a cancellation of everything. */
  lemma SelfLinkedDispatch(q: Lists, q': Lists, v: JobPool, held: seq<Job>, j: Job)
    requires SelfLinked(q, v, held, j) && TakeHead(q, q')
    ensures AfterDrain(q', Only(v, j), held, 0)
  {
    Distinct(v, |q.nodes|);
    var s := [v.q[0]] + v.f;
    assert v.q[..1] == [v.q[0]] && Reversed([v.q[0]]) + v.f == s;
    forall i | 0 <= i < |s|
      ensures s[i] < |q'.nodes| && q'.nodes[s[i]].next == At(s, i + 1)
      ensures Carries(q'.nodes[s[i]], ([j] + held)[i])
    {
      assert s[i] == if i == 0 then v.q[0] else v.f[i - 1];
    }
  }

  /**
   With one request queued when everything is cancelled, a single request taken
   before the next two dequeues is dispatched by both of them.
   */
  lemma DispatchedTwice(q0: Lists, qs: seq<Lists>, ops: seq<ListOp>, v: JobPool, held: seq<Job>)
    requires Represents(q0, v) && |v.q| == 1 && AllCarry(q0.nodes, v.f, held)
    requires ListRun(qs, ops) && Drained(q0, qs[0], v, 1)
    requires |ops| == 3 && ops[0].Take? && ops[1].Dispatch? && ops[2].Dispatch?
    ensures forall i :: 1 <= i <= 2 ==>
                          && qs[i].queue == Some(v.q[0]) && v.q[0] < |qs[i].nodes|
                          && Carries(qs[i].nodes[v.q[0]], ops[0].job)
  {
    DrainLeads(q0, qs[0], v, held);
    assert ListStepAt(qs, ops, 0) && ListStepAt(qs, ops, 1);
    TakesTheOnly(qs[0], qs[1], v, held, ops[0].job);
    SelfLinkedDispatch(qs[1], qs[2], v, held, ops[0].job);
    assert ([v.q[0]] + v.f)[0] == v.q[0] && ([ops[0].job] + held)[0] == ops[0].job;
  }

  function Jobs(ops: seq<ListOp>): seq<Job> {
    if ops == [] then []
    else Jobs(ops[..|ops| - 1]) + (match ops[|ops| - 1] case Take(j) => [j] case Dispatch => [])
  }

  lemma JobsOfNext(ops: seq<ListOp>, p: nat, n: nat)
    requires p <= n < |ops| && ops[n].Take?
    ensures Jobs(ops[p..n + 1]) == Jobs(ops[p..n]) + [ops[n].job]
  {
    assert ops[p..n + 1][..n - p] == ops[p..n];
  }

  lemma UsedUp(q0: Lists, qs: seq<Lists>, ops: seq<ListOp>, v: JobPool, held: seq<Job>)
    requires Represents(q0, v) && |v.q| > 1 && AllCarry(q0.nodes, v.f, held)
    requires ListRun(qs, ops) && Drained(q0, qs[0], v, |v.q|)
    requires |v.q| <= |ops| && forall i :: 0 <= i < |v.q| ==> ops[i].Take?
    ensures Rejoined(qs[|v.q|], v, [ops[|v.q| - 1].job], 0)
  {
    DrainLeads(q0, qs[0], v, held);
    TakesAfterDrain(qs, ops, v, held, |v.q| - 1);
    assert ListStepAt(qs, ops, |v.q| - 1);
    RejoinFirst(qs[|v.q| - 1], qs[|v.q|], v, held, ops[|v.q| - 1].job);
  }

  /**
   When as many requests are taken before the next dequeue as had been queued, all
   but the last of them are lost; that one and those taken after it are the queue,
   in order, with the tail in order.
   */
  lemma {:induction false} LostThenRejoined(q0: Lists, qs: seq<Lists>, ops: seq<ListOp>, v: JobPool, held: seq<Job>, n: nat)
    requires Represents(q0, v) && |v.q| > 1 && AllCarry(q0.nodes, v.f, held)
    requires ListRun(qs, ops) && Drained(q0, qs[0], v, |v.q|)
    requires |v.q| <= n <= |ops| && n <= |v.q| + |v.f| && forall i :: 0 <= i < n ==> ops[i].Take?
    ensures Rejoined(qs[n], v, Jobs(ops[|v.q| - 1..n]), n - |v.q|)
  {
    var p := |v.q| - 1;
    JobsOfNext(ops, p, n - 1);
    if n == |v.q| {
      UsedUp(q0, qs, ops, v, held);
      assert ops[p..p] == [] && Jobs(ops[p..n]) == [ops[p].job];
    } else {
      LostThenRejoined(q0, qs, ops, v, held, n - 1);
      assert ListStepAt(qs, ops, n - 1);
      RejoinNext(qs[n - 1], qs[n], v, Jobs(ops[p..n - 1]), n - 1 - |v.q|, ops[n - 1].job);
    }
  }

  // ----- one concrete block -----

  const RAN := Job(OP_READ, 0, 100, 10, 0, 1)
  const QUEUED := Job(OP_WRITE, 0, 200, 20, 0, 2)
  const UNUSED := Node(NO_JOB, Packet(0, 0, 0, 0, 0), None)

  const WAITING := map[2 := ZERO_AIO.(qstatus := Wait1)]

  /** Three new nodes; two requests are taken and the first dispatched; then everything is cancelled. */
  lemma CancelledAll() returns (empty: Lists, before: Lists, after: Draining)
    ensures Chained(empty.nodes) && empty == Lists(empty.nodes, None, None, Some(0))
    ensures exists one, two :: TakeNode(empty, one, RAN) && TakeNode(one, two, QUEUED) && TakeHead(two, before)
    ensures DrainTurn(Draining(before, WAITING, before.queue, true, true), after) && after.req.None?
    ensures !after.fdone && after.fcanceled && GetAio(after.aio, 2).qstatus.Cancelled?
    ensures after.q == Lists([RequestNode(RAN).(next := Some(2)), RequestNode(QUEUED).(next := Some(0)), UNUSED],
                             Some(1), Some(1), Some(1))
  {
    empty := Lists([UNUSED.(next := Some(1)), UNUSED.(next := Some(2)), UNUSED], None, None, Some(0));
    var one := Lists([RequestNode(RAN), UNUSED.(next := Some(2)), UNUSED], Some(0), Some(0), Some(1));
    var two := Lists([RequestNode(RAN).(next := Some(1)), RequestNode(QUEUED), UNUSED], Some(0), Some(1), Some(2));
    before := Lists([RequestNode(RAN).(next := Some(2)), RequestNode(QUEUED), UNUSED], Some(1), Some(1), Some(0));
    assert TakeNode(empty, one, RAN) && TakeNode(one, two, QUEUED) && TakeHead(two, before);
    var q := Lists([RequestNode(RAN).(next := Some(2)), RequestNode(QUEUED).(next := Some(0)), UNUSED],
                   Some(1), Some(1), Some(1));
    after := Draining(q, CancelEntry(WAITING, 2), None, false, true);
  }

  /**
   The next three dequeues then dispatch the cancelled request, the one that has
   already run, and a node that was never used, whose packet names no aiocb.
   */
  lemma DispatchesThemAll(q: Lists) returns (qs: seq<Lists>)
    requires q == Lists([RequestNode(RAN).(next := Some(2)), RequestNode(QUEUED).(next := Some(0)), UNUSED],
                        Some(1), Some(1), Some(1))
    ensures |qs| == 4 && qs[0] == q && TakeHead(qs[0], qs[1]) && TakeHead(qs[1], qs[2]) && TakeHead(qs[2], qs[3])
    ensures qs[0].queue == Some(1) && Carries(qs[0].nodes[1], QUEUED)
    ensures qs[1].queue == Some(0) && |qs[1].nodes| == 3 && Carries(qs[1].nodes[0], RAN)
    ensures qs[2].queue == Some(2) && |qs[2].nodes| == 3 && qs[2].nodes[2].packet == UNUSED.packet
    ensures qs[3].queue.None?
  {
    var one := Lists([RequestNode(RAN).(next := Some(2)), RequestNode(QUEUED).(next := Some(1)), UNUSED],
                     Some(0), Some(1), Some(1));
    var two := Lists([RequestNode(RAN).(next := Some(1)), RequestNode(QUEUED).(next := Some(1)), UNUSED],
                     Some(2), Some(1), Some(0));
    var three := Lists([RequestNode(RAN).(next := Some(1)), RequestNode(QUEUED).(next := Some(1)), UNUSED.(next := Some(0))],
                       None, None, Some(2));
    qs := [q, one, two, three];
  }
}
