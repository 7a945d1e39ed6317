/**
 The request in flight. waio_dequeue frees its node at once, so the next request
 taken from a slot is written into it. What the node of the running request
 holds, exactly; and when the completions are those of the dispatched requests.
 */
module InFlight {
  import opened Protocol
  import opened PoolSpec
  import opened PoolRefinement
  import opened PoolRuns
  import Invariant

  // ----- what the node of the running request holds -----

  /** The requests taken from slots since the last dispatch. */
  function TakesSince(run: seq<State>, n: nat): nat
    requires n < |run|
  {
    if n == 0 || Dispatches(run[n - 1], run[n]) then 0
    else TakesSince(run, n - 1) + (if Takes(run[n - 1], run[n]) then 1 else 0)
  }

  function LastOf(jobs: seq<Job>): Job {
    if jobs == [] then NO_JOB else jobs[|jobs| - 1]
  }

  /**
   Until a request is taken, the running node is the first free one and holds
   the dispatched job; from then on it is queued, and holds the first job that
   was taken since.
   */
  predicate Placed(packet: Option<nat>, q: Lists, v: JobPool, dispatched: seq<Job>, since: nat) {
    packet.Some? ==>
      && packet.value < |q.nodes| && dispatched != []
      && if since == 0 then v.f != [] && v.f[0] == packet.value && Carries(q.nodes[packet.value], LastOf(dispatched))
         else since <= |v.q| && v.q[|v.q| - since] == packet.value
  }

  ghost predicate PlacedAt(run: seq<State>, n: nat)
    requires n < |run|
  {
    Placed(run[n].packet, run[n].lists, PoolAt(run, n), DispatchedBy(run, n), TakesSince(run, n))
  }

  lemma PlacedTake(q: Lists, q': Lists, v: JobPool, j: Job, packet: Option<nat>, packet': Option<nat>, d: seq<Job>, since: nat)
    requires Represents(q, v) && TakeNode(q, q', j) && Placed(packet, q, v, d, since)
    requires packet' == packet || packet'.None?
    ensures v.f != [] && Placed(packet', q', Consume(v, j), d, since + 1)
  {
    assert q.qfree == At(v.f, 0);
  }

  lemma AfterTake(run: seq<State>, n: nat)
    requires n + 1 < |run| && Takes(run[n], run[n + 1]) && run[n].loop.i < |run[n].slots| && PoolAt(run, n).f != []
    ensures PoolAt(run, n + 1) == Consume(PoolAt(run, n), run[n].slots[run[n].loop.i].data)
    ensures TakesSince(run, n + 1) == TakesSince(run, n) + 1
    ensures DispatchedBy(run, n + 1) == DispatchedBy(run, n)
  {
  }

  lemma PlacedDispatch(q: Lists, q': Lists, v: JobPool, dispatched: seq<Job>)
    requires Represents(q, v) && TakeHead(q, q') && v.q != []
    ensures Placed(q.queue, q', Dispatch(v), dispatched + [v.jobs[0]], 0)
  {
    assert Carries(q.nodes[v.q[0]], v.jobs[0]);
  }

  lemma PlacedOther(q: Lists, q': Lists, v: JobPool, packet: Option<nat>, packet': Option<nat>, d: seq<Job>, since: nat)
    requires SameLists(q, q') && Placed(packet, q, v, d, since) && (packet' == packet || packet'.None?)
    ensures Placed(packet', q', v, d, since)
  {
  }

  lemma PacketStays(s: State, s': State)
    requires Next(s, s') && !Dispatches(s, s')
    ensures s'.packet == s.packet || s'.packet.None?
  {
  }

  lemma PlacedNextTake(run: seq<State>, n: nat)
    requires n + 1 < |run| && Matches(run, n) && PlacedAt(run, n) && Takes(run[n], run[n + 1])
    requires run[n].loop.i < |run[n].slots|
    requires TakeNode(run[n].lists, run[n + 1].lists, run[n].slots[run[n].loop.i].data)
    requires run[n + 1].packet == run[n].packet || run[n + 1].packet.None?
    ensures PlacedAt(run, n + 1)
  {
    var s := run[n];
    PlacedTake(s.lists, run[n + 1].lists, PoolAt(run, n), s.slots[s.loop.i].data, s.packet, run[n + 1].packet,
               DispatchedBy(run, n), TakesSince(run, n));
    AfterTake(run, n);
  }

  lemma PlacedNextDispatch(run: seq<State>, n: nat)
    requires n + 1 < |run| && Matches(run, n) && Dispatches(run[n], run[n + 1])
    requires TakeHead(run[n].lists, run[n + 1].lists) && run[n + 1].packet == run[n].lists.queue
    ensures PlacedAt(run, n + 1)
  {
    var s, v := run[n], PoolAt(run, n);
    HeadRefines(s.lists, run[n + 1].lists, v);
    assert Carries(s.lists.nodes[v.q[0]], v.jobs[0]);
    PlacedDispatch(s.lists, run[n + 1].lists, v, DispatchedBy(run, n));
  }

  lemma PlacedNextOther(run: seq<State>, n: nat)
    requires n + 1 < |run| && PlacedAt(run, n) && SameLists(run[n].lists, run[n + 1].lists)
    requires run[n + 1].packet == run[n].packet || run[n + 1].packet.None?
    requires !Takes(run[n], run[n + 1]) && !Dispatches(run[n], run[n + 1])
    ensures PlacedAt(run, n + 1)
  {
    assert DispatchedBy(run, n + 1) == DispatchedBy(run, n);
    PlacedOther(run[n].lists, run[n + 1].lists, PoolAt(run, n), run[n].packet, run[n + 1].packet,
                DispatchedBy(run, n), TakesSince(run, n));
  }

  lemma PlacedNext(run: seq<State>, n: nat)
    requires Run(run) && n + 1 < |run| && NothingRemoved(run, n) && Matches(run, n) && PlacedAt(run, n)
    ensures PlacedAt(run, n + 1)
  {
    assert NextAt(run, n);
    if Dispatches(run[n], run[n + 1]) {
      DispatchStep(run[n], run[n + 1]);
      PlacedNextDispatch(run, n);
    } else {
      PacketStays(run[n], run[n + 1]);
      if Takes(run[n], run[n + 1]) {
        TakeStep(run[n], run[n + 1]);
        PlacedNextTake(run, n);
      } else {
        OtherSteps(run[n], run[n + 1]);
        PlacedNextOther(run, n);
      }
    }
  }

  lemma PlacedInit(run: seq<State>)
    requires Run(run)
    ensures PlacedAt(run, 0)
  {
  }

  ghost predicate PlacedKept(run: seq<State>, i: nat) {
    i + 1 < |run| && (PlacedAt(run, i) ==> PlacedAt(run, i + 1))
  }

  lemma PlacedStep(run: seq<State>, i: nat)
    requires Run(run) && i + 1 < |run| && NothingRemoved(run, i) && Matches(run, i)
    ensures PlacedKept(run, i)
  {
    if PlacedAt(run, i) {
      PlacedNext(run, i);
    }
  }

  lemma {:induction false} PlacedOn(run: seq<State>, n: nat)
    requires n < |run| && PlacedAt(run, 0) && forall i :: 0 <= i < n ==> PlacedKept(run, i)
    ensures PlacedAt(run, n)
  {
    if n > 0 {
      PlacedOn(run, n - 1);
      assert PlacedKept(run, n - 1);
    }
  }

  lemma PlacedAlong(run: seq<State>, n: nat)
    requires Run(run) && n < |run| && forall i :: 0 <= i < n ==> NothingRemoved(run, i)
    ensures PlacedAt(run, n)
  {
    PlacedInit(run);
    forall i | 0 <= i < n ensures PlacedKept(run, i) {
      PoolRefined(run, i);
      PlacedStep(run, i);
    }
    PlacedOn(run, n);
  }

  /** What the node of the running request holds: the dispatched job, or the first one taken since. */
  function Held(run: seq<State>, n: nat): Job
    requires n < |run|
  {
    var k, taken := TakesSince(run, n), TakenBy(run, n);
    if 0 < k <= |taken| then taken[|taken| - k] else LastOf(DispatchedBy(run, n))
  }

  /**
   The node of the running request, while no cancellation removes a request.
   It is still the next free one, and so is overwritten by the next request
   taken, exactly while nothing has been taken since its dispatch; it holds the
   dispatched job until then, and the first job taken from then on. It keeps
   its own job if and only if nothing was taken, or the first one taken is the
   same again.
   */
  lemma RunningNode(run: seq<State>, n: nat)
    requires Run(run) && n < |run| && forall i :: 0 <= i < n ==> NothingRemoved(run, i)
    requires run[n].packet.Some?
    ensures var s, k, taken := run[n], TakesSince(run, n), TakenBy(run, n);
            && s.packet.value < |s.lists.nodes| && k <= |taken|
            && Carries(s.lists.nodes[s.packet.value], Held(run, n))
            && (s.lists.qfree == s.packet <==> k == 0)
            && (s.lists.nodes[s.packet.value].job == LastOf(DispatchedBy(run, n)) <==>
                k == 0 || taken[|taken| - k] == LastOf(DispatchedBy(run, n)))
  {
    PlacedAlong(run, n);
    FirstInFirstOut(run, n);
    var s, v, k := run[n], PoolAt(run, n), TakesSince(run, n);
    Distinct(v, |s.lists.nodes|);
    if k > 0 {
      var i := |v.q| - k;
      assert Carries(s.lists.nodes[v.q[i]], v.jobs[i]);
      assert TakenBy(run, n)[|TakenBy(run, n)| - k] == v.jobs[i];
    }
  }

  lemma CreditStep(s: State, s': State)
    requires Next(s, s') && s.io.After? && s'.io.CopyIosb? && s.packet.Some?
    ensures s.packet.value < |s.lists.nodes| && s'.io.aiocb == s.lists.nodes[s.packet.value].packet.aiocb
  {
  }

  /** When cx_after_io reads whom to credit, it is the aiocb of the job the node holds by then. */
  lemma Credited(run: seq<State>, n: nat)
    requires Run(run) && n + 1 < |run| && forall i :: 0 <= i < n ==> NothingRemoved(run, i)
    requires run[n].io.After? && run[n + 1].io.CopyIosb?
    ensures run[n + 1].io.aiocb == Held(run, n).aiocb
    ensures run[n + 1].io.aiocb == LastOf(DispatchedBy(run, n)).aiocb <==>
              TakesSince(run, n) == 0 || Held(run, n).aiocb == LastOf(DispatchedBy(run, n)).aiocb
  {
    Invariant.InvRun(run, n);
    RunningNode(run, n);
    assert NextAt(run, n);
    CreditStep(run[n], run[n + 1]);
  }
}
