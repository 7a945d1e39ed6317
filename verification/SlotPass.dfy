/**
 One pass of waio_enqueue over the slots, as values: which requests it finds
 while clients go on publishing, and what it makes of the pool.
 */
module SlotPass {
  import opened Protocol
  import opened PoolSpec
  import opened PoolRefinement

  // ----- the slots during a pass -----

  /** What clients publish meanwhile: they write only slots that are not published. */
  type Arrivals = map<nat, Slot>

  function Arrive(slots: seq<Slot>, m: Arrivals): (r: seq<Slot>)
    ensures |r| == |slots|
  {
    seq(|slots|, i requires 0 <= i < |slots| => if slots[i].pid == 0 && i in m then m[i] else slots[i])
  }

  function Cleared(x: Slot): Slot {
    if x.pid != 0 then x.(pid := 0, tid := 0) else x
  }

  /** The slots after `i` turns, with the arrivals before each turn. */
  function SlotsAfter(slots: seq<Slot>, arrivals: seq<Arrivals>, i: nat): (r: seq<Slot>)
    requires i <= |slots| && i <= |arrivals|
    ensures |r| == |slots|
  {
    if i == 0 then slots
    else
      var found := Arrive(SlotsAfter(slots, arrivals, i - 1), arrivals[i - 1]);
      found[i - 1 := Cleared(found[i - 1])]
  }

  /** The slots as the first `i` turns find them, each at its own turn. */
  function Found(slots: seq<Slot>, arrivals: seq<Arrivals>, i: nat): (r: seq<Slot>)
    requires i <= |slots| && i <= |arrivals|
    ensures |r| == i
  {
    if i == 0 then []
    else Found(slots, arrivals, i - 1) + [Arrive(SlotsAfter(slots, arrivals, i - 1), arrivals[i - 1])[i - 1]]
  }

  /** The published jobs, in slot order. */
  function Published(slots: seq<Slot>): seq<Job> {
    if slots == [] then []
    else Published(slots[..|slots| - 1])
         + (if slots[|slots| - 1].pid != 0 then [slots[|slots| - 1].data] else [])
  }

  lemma PublishedAppend(slots: seq<Slot>, x: Slot)
    ensures Published(slots + [x]) == Published(slots) + (if x.pid != 0 then [x.data] else [])
  {
    assert (slots + [x])[..|slots|] == slots;
  }

  lemma {:induction false} FoundGrows(slots: seq<Slot>, arrivals: seq<Arrivals>, i: nat, k: nat)
    requires i <= k <= |slots| && k <= |arrivals|
    ensures |Published(Found(slots, arrivals, i))| <= |Published(Found(slots, arrivals, k))|
    decreases k - i
  {
    if i < k {
      FoundGrows(slots, arrivals, i, k - 1);
      var x := Arrive(SlotsAfter(slots, arrivals, k - 1), arrivals[k - 1])[k - 1];
      PublishedAppend(Found(slots, arrivals, k - 1), x);
    }
  }

  /** A slot that its turn has not reached keeps what is published in it. */
  lemma {:induction false} PublishedStays(slots: seq<Slot>, arrivals: seq<Arrivals>, i: nat, k: nat)
    requires i <= k < |slots| && i <= |arrivals| && slots[k].pid != 0
    ensures SlotsAfter(slots, arrivals, i)[k] == slots[k]
  {
    if i > 0 {
      PublishedStays(slots, arrivals, i - 1, k);
    }
  }

  /** So whatever is published when the pass begins is found, as it is. */
  lemma {:induction false} PublishedIsFound(slots: seq<Slot>, arrivals: seq<Arrivals>, i: nat, k: nat)
    requires k < i <= |slots| && i <= |arrivals| && slots[k].pid != 0
    ensures Found(slots, arrivals, i)[k] == slots[k]
  {
    if k == i - 1 {
      PublishedStays(slots, arrivals, i - 1, k);
    } else {
      PublishedIsFound(slots, arrivals, i - 1, k);
    }
  }

  /** With no arrivals, the pass finds the slots as they are and leaves every published one free. */
  lemma {:induction false} QuietPass(slots: seq<Slot>, arrivals: seq<Arrivals>, i: nat)
    requires i <= |slots| && i <= |arrivals| && forall k :: 0 <= k < |arrivals| ==> arrivals[k] == map[]
    ensures Found(slots, arrivals, i) == slots[..i]
    ensures forall k :: 0 <= k < |slots| ==>
                          SlotsAfter(slots, arrivals, i)[k] == if k < i then Cleared(slots[k]) else slots[k]
  {
    if i > 0 {
      QuietPass(slots, arrivals, i - 1);
      assert slots[..i] == slots[..i - 1] + [slots[i - 1]];
    }
  }

  // ----- the pool during a pass -----

  /** What a pass changes besides the slots. */
  datatype Pass = Pass(v: JobPool, counter: int, aio: map<nat, Aio>)

  /** A pass that has found these slots. */
  ghost predicate PassedOver(p: Pass, p': Pass, found: seq<Slot>) {
    var jobs := Published(found);
    && |jobs| <= |p.v.f|
    && p' == Pass(ConsumeAll(p.v, jobs), p.counter - |jobs|, LinkEach(p.aio, jobs, p.v.f))
  }

  /** What one turn that finds `x` does. */
  ghost predicate Turn(p: Pass, p': Pass, x: Slot) {
    if x.pid == 0 then p' == p
    else
      && p.v.f != []
      && p' == Pass(Consume(p.v, x.data), p.counter - 1, Link(p.aio, x.data.aiocb, p.v.f[0]))
  }

  lemma TurnPasses(p: Pass, p': Pass, p'': Pass, found: seq<Slot>, x: Slot)
    requires PassedOver(p, p', found) && Turn(p', p'', x)
    ensures PassedOver(p, p'', found + [x])
  {
    var jobs := Published(found);
    PublishedAppend(found, x);
    ConsumeAllIs(p.v, jobs);
    if x.pid != 0 {
      var all := jobs + [x.data];
      assert all[..|all| - 1] == jobs;
      assert p'.v.f[0] == p.v.f[|jobs|];
    } else {
      assert Published(found + [x]) == jobs;
    }
  }

  /** The pass runs out of nodes only when more are published than were free. */
  lemma OutOfNodes(p: Pass, p': Pass, found: seq<Slot>, x: Slot)
    requires PassedOver(p, p', found) && x.pid != 0 && p'.v.f == []
    ensures |p.v.f| < |Published(found + [x])|
  {
    ConsumeAllIs(p.v, Published(found));
    PublishedAppend(found, x);
  }
}
