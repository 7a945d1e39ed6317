/**
 The pool in the whole system: in every run in which no cancellation removes a
 request from the queue, the pointers of the loop thread are at all times the
 pool that the takes and dispatches so far make, whatever the clients and the I/O
 thread do meanwhile.
 */
module PoolRuns {
  import opened Protocol
  import opened PoolSpec
  import opened PoolRefinement
  import Ownership
  import Invariant

  predicate Takes(s: State, s': State) {
    s.loop.Take? && s'.loop.ClearPid?
  }

  predicate Dispatches(s: State, s': State) {
    s.loop.Dequeue? && s'.loop.IncIo?
  }

  /** The pool after the first `n` steps. */
  function PoolAt(run: seq<State>, n: nat): (v: JobPool)
    requires n < |run|
    ensures |v.q| == |v.jobs|
  {
    if n == 0 then View([], [], UpTo(|run[0].lists.nodes|), [], [])
    else
      var v, s := PoolAt(run, n - 1), run[n - 1];
      if Takes(s, run[n]) && v.f != [] && s.loop.i < |s.slots| then Consume(v, s.slots[s.loop.i].data)
      else if Dispatches(s, run[n]) then Dispatch(v)
      else v
  }

  /** The jobs taken from the slots in the first `n` steps, as their owners reserved them. */
  function TakenBy(run: seq<State>, n: nat): seq<Job>
    requires n < |run|
  {
    if n == 0 then []
    else
      var s := run[n - 1];
      TakenBy(run, n - 1)
      + (if Takes(s, run[n]) && s.loop.i < |s.slots| then [s.slots[s.loop.i].owned] else [])
  }

  /** The jobs whose nodes became the packet in the first `n` steps. */
  function DispatchedBy(run: seq<State>, n: nat): seq<Job>
    requires n < |run|
  {
    if n == 0 then []
    else
      var s, s' := run[n - 1], run[n];
      DispatchedBy(run, n - 1)
      + (if Dispatches(s, s') && s'.packet.Some? && s'.packet.value < |s'.lists.nodes|
         then [s'.lists.nodes[s'.packet.value].job] else [])
  }

  /** Only the iosb of a packet differs. */
  predicate SameLists(q: Lists, q': Lists) {
    && q'.queue == q.queue && q'.qtail == q.qtail && q'.qfree == q.qfree
    && |q'.nodes| == |q.nodes|
    && forall i :: 0 <= i < |q.nodes| ==>
                     q'.nodes[i] == q.nodes[i].(packet := q.nodes[i].packet.(iosb := q'.nodes[i].packet.iosb))
  }

  lemma SameRepresents(q: Lists, q': Lists, v: JobPool)
    requires Represents(q, v) && SameLists(q, q')
    ensures Represents(q', v)
  {
  }

  /** A step that neither takes nor dispatches, nor serves and removes, leaves the lists alone. */
  lemma OtherSteps(s: State, s': State)
    requires Next(s, s') && (s.loop.Serve? ==> s'.lists == s.lists) && !Takes(s, s') && !Dispatches(s, s')
    ensures SameLists(s.lists, s'.lists)
  {
  }

  lemma TakeStep(s: State, s': State)
    requires Next(s, s') && Takes(s, s')
    ensures s.loop.i < |s.slots| && TakeNode(s.lists, s'.lists, s.slots[s.loop.i].data)
  {
  }

  lemma DispatchStep(s: State, s': State)
    requires Next(s, s') && Dispatches(s, s')
    ensures TakeHead(s.lists, s'.lists) && s'.packet == s.lists.queue
  {
  }

  /** What the history of the first `n` steps says of the lists now. */
  ghost predicate Matches(run: seq<State>, n: nat)
    requires n < |run|
  {
    && Represents(run[n].lists, PoolAt(run, n))
    && PoolAt(run, n).log == TakenBy(run, n)
    && PoolAt(run, n).sent == DispatchedBy(run, n)
  }

  lemma MatchesTake(run: seq<State>, n: nat)
    requires n + 1 < |run| && Ownership.Inv(run[n]) && Matches(run, n) && Takes(run[n], run[n + 1])
    requires run[n].loop.i < |run[n].slots|
    requires TakeNode(run[n].lists, run[n + 1].lists, run[n].slots[run[n].loop.i].data)
    ensures Matches(run, n + 1)
  {
    var s, v := run[n], PoolAt(run, n);
    assert Ownership.SlotOwned(s.slots[s.loop.i], s.clients, s.loop, s.loop.i);
    TakeRefines(s.lists, run[n + 1].lists, v, s.slots[s.loop.i].data);
    assert DispatchedBy(run, n + 1) == DispatchedBy(run, n);
  }

  lemma MatchesDispatch(run: seq<State>, n: nat)
    requires n + 1 < |run| && Matches(run, n) && Dispatches(run[n], run[n + 1])
    requires TakeHead(run[n].lists, run[n + 1].lists) && run[n + 1].packet == run[n].lists.queue
    ensures Matches(run, n + 1)
  {
    var s, v := run[n], PoolAt(run, n);
    HeadRefines(s.lists, run[n + 1].lists, v);
    assert Carries(s.lists.nodes[v.q[0]], v.jobs[0]);
    assert TakenBy(run, n + 1) == TakenBy(run, n);
  }

  lemma MatchesOther(run: seq<State>, n: nat)
    requires n + 1 < |run| && Matches(run, n) && SameLists(run[n].lists, run[n + 1].lists)
    requires !Takes(run[n], run[n + 1]) && !Dispatches(run[n], run[n + 1])
    ensures Matches(run, n + 1)
  {
    SameRepresents(run[n].lists, run[n + 1].lists, PoolAt(run, n));
    assert TakenBy(run, n + 1) == TakenBy(run, n) && DispatchedBy(run, n + 1) == DispatchedBy(run, n);
  }

  /** Step `i` serves no cancellation, or one that removes nothing: it leaves lists and request pointers as they are. */
  ghost predicate NothingRemoved(run: seq<State>, i: nat) {
    && i < |run|
    && (run[i].loop.Serve? && i + 1 < |run| ==>
          && run[i + 1].lists == run[i].lists
          && forall a :: GetAio(run[i + 1].aio, a).request == GetAio(run[i].aio, a).request)
  }

  /** Step `n` keeps the match. */
  ghost predicate Kept(run: seq<State>, n: nat) {
    n + 1 < |run| && (Matches(run, n) ==> Matches(run, n + 1))
  }

  lemma StepKeeps(run: seq<State>, n: nat)
    requires Run(run) && n + 1 < |run| && NothingRemoved(run, n)
    ensures Kept(run, n)
  {
    assert NextAt(run, n);
    if Matches(run, n) {
      if Takes(run[n], run[n + 1]) {
        Invariant.InvRun(run, n);
        TakeStep(run[n], run[n + 1]);
        MatchesTake(run, n);
      } else if Dispatches(run[n], run[n + 1]) {
        DispatchStep(run[n], run[n + 1]);
        MatchesDispatch(run, n);
      } else {
        OtherSteps(run[n], run[n + 1]);
        MatchesOther(run, n);
      }
    }
  }

  lemma {:induction false} KeptAlong(run: seq<State>, n: nat)
    requires n < |run| && Matches(run, 0) && forall i :: 0 <= i < n ==> Kept(run, i)
    ensures Matches(run, n)
  {
    if n > 0 {
      KeptAlong(run, n - 1);
      assert Kept(run, n - 1);
    }
  }

  lemma MatchesInit(run: seq<State>)
    requires Run(run)
    ensures Matches(run, 0)
  {
    FreshRefines(run[0].lists);
  }

  /** While no cancellation removes a request, the lists are the pool that the run so far makes. */
  lemma PoolRefined(run: seq<State>, n: nat)
    requires Run(run) && n < |run| && forall i :: 0 <= i < n ==> NothingRemoved(run, i)
    ensures Matches(run, n)
  {
    MatchesInit(run);
    forall i | 0 <= i < n ensures Kept(run, i) {
      StepKeeps(run, i);
    }
    KeptAlong(run, n);
  }

  /**
   First in, first out, for any clients and any interleaving: what was
   dispatched followed by what the queued nodes carry is what was taken from
   the slots, as their owners reserved them, in that order; no node is lost.
   */
  lemma FirstInFirstOut(run: seq<State>, n: nat)
    requires Run(run) && n < |run| && forall i :: 0 <= i < n ==> NothingRemoved(run, i)
    ensures DispatchedBy(run, n) + PoolAt(run, n).jobs == TakenBy(run, n)
    ensures Represents(run[n].lists, PoolAt(run, n))
    ensures forall i :: 0 <= i < |run[n].lists.nodes| ==> i in PoolAt(run, n).q || i in PoolAt(run, n).f
  {
    PoolRefined(run, n);
    forall i | 0 <= i < |run[n].lists.nodes| ensures i in PoolAt(run, n).q || i in PoolAt(run, n).f {
      CoversAll(run[n].lists, PoolAt(run, n), i);
    }
  }
}
