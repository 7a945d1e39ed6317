/** Who owns a slot, and what the loop thread may read in it. */
module Ownership {
  import opened Protocol

  type Clients = map<nat, Client>

  /** A client between its reservation of a slot and its publication. */
  predicate Writing(pc: ClientPc) {
    pc.Fill? || pc.Clear? || pc.Mark? || pc.Publish?
  }

  predicate Published(pc: ClientPc) {
    pc.Count? || pc.Signal? || pc.Spin?
  }

  /** The client is writing slot `i`. */
  predicate Writes(pc: ClientPc, i: nat) {
    Writing(pc) && pc.i == i
  }

  /** The first `k` of the six fields have been copied. */
  predicate FilledTo(d: Job, j: Job, k: nat) {
    && (k > 0 ==> d.opcode == j.opcode)
    && (k > 1 ==> d.prio == j.prio)
    && (k > 2 ==> d.buf == j.buf)
    && (k > 3 ==> d.nbytes == j.nbytes)
    && (k > 4 ==> d.offset == j.offset)
    && (k > 5 ==> d.aiocb == j.aiocb)
  }

  predicate ClientOwns(slots: seq<Slot>, loop: LoopPc, t: nat, c: Client) {
    && (Writing(c.pc) ==>
          && c.pc.i < |slots|
          && slots[c.pc.i].tid == t && slots[c.pc.i].pid == 0
          && slots[c.pc.i].owned == c.job
          && FilledTo(slots[c.pc.i].data, c.job, if c.pc.Fill? then c.pc.k else 6)
          && (c.pc.Publish? ==> slots[c.pc.i].marked)
          && loop != ClearTid(c.pc.i))
    && (c.pc.Fill? ==> c.pc.k < 6)
    && (Writing(c.pc) || c.pc.Reserve? ==> c.pid != 0)
    && (Published(c.pc) ==> c.pc.i < |slots|)
  }

  predicate SlotOwned(x: Slot, clients: Clients, loop: LoopPc, i: nat) {
    && (x.pid != 0 ==> x.tid in clients && x.data == x.owned && x.marked)
    && (x.tid != 0 && x.pid == 0 ==>
          loop == ClearTid(i) || (x.tid in clients && Writes(clients[x.tid].pc, i)))
  }

  predicate LoopScans(slots: seq<Slot>, loop: LoopPc) {
    && (loop.DecQueue? || loop.Take? || loop.ClearPid? ==>
          loop.i < |slots| && slots[loop.i].pid != 0)
    && (loop.ClearTid? ==>
          loop.i < |slots| && slots[loop.i].pid == 0 && slots[loop.i].tid != 0)
  }

  ghost predicate Owned(slots: seq<Slot>, clients: Clients, loop: LoopPc) {
    && |slots| == SLOT_COUNT
    && 0 !in clients
    && (forall t :: t in clients ==> ClientOwns(slots, loop, t, clients[t]))
    && (forall i :: 0 <= i < |slots| ==> SlotOwned(slots[i], clients, loop, i))
    && LoopScans(slots, loop)
  }

  // ----- the ways a step can touch slots, clients and the loop -----

  /** A client moves without touching a slot. */
  lemma ClientMoves(slots: seq<Slot>, clients: Clients, loop: LoopPc, t: nat, c: Client)
    requires Owned(slots, clients, loop) && t in clients
    requires ClientOwns(slots, loop, t, c)
    requires Writing(clients[t].pc) ==> Writes(c.pc, clients[t].pc.i)
    ensures Owned(slots, clients[t := c], loop)
  {
    forall i | 0 <= i < |slots| ensures SlotOwned(slots[i], clients[t := c], loop, i) {
      assert SlotOwned(slots[i], clients, loop, i);
    }
  }

  /** A client moves and writes slot `i`, which was free or its own. */
  ghost predicate Rewrites(slots: seq<Slot>, clients: Clients, loop: LoopPc, t: nat, c: Client, i: nat, x: Slot) {
    && t in clients && i < |slots|
    && (slots[i].tid == 0 || Writes(clients[t].pc, i))
    && (Writing(clients[t].pc) ==> clients[t].pc.i == i)
    && x.tid == t
    && ClientOwns(slots[i := x], loop, t, c)
    && SlotOwned(x, clients[t := c], loop, i)
  }

  lemma RewrittenSlots(slots: seq<Slot>, clients: Clients, loop: LoopPc, t: nat, c: Client, i: nat, x: Slot, j: nat)
    requires Owned(slots, clients, loop) && Rewrites(slots, clients, loop, t, c, i, x) && j < |slots|
    ensures SlotOwned(slots[i := x][j], clients[t := c], loop, j)
  {
    assert SlotOwned(slots[j], clients, loop, j);
  }

  lemma RewrittenClients(slots: seq<Slot>, clients: Clients, loop: LoopPc, t: nat, c: Client, i: nat, x: Slot, u: nat)
    requires Owned(slots, clients, loop) && Rewrites(slots, clients, loop, t, c, i, x) && u in clients
    ensures ClientOwns(slots[i := x], loop, u, clients[t := c][u])
  {
    assert ClientOwns(slots, loop, t, clients[t]);
    if u != t {
      assert ClientOwns(slots, loop, u, clients[u]);
    }
  }

  lemma ClientWrites(slots: seq<Slot>, clients: Clients, loop: LoopPc, t: nat, c: Client, i: nat, x: Slot)
    requires Owned(slots, clients, loop) && Rewrites(slots, clients, loop, t, c, i, x)
    ensures Owned(slots[i := x], clients[t := c], loop)
  {
    var slots', clients' := slots[i := x], clients[t := c];
    forall j | 0 <= j < |slots'| ensures SlotOwned(slots'[j], clients', loop, j) {
      RewrittenSlots(slots, clients, loop, t, c, i, x, j);
    }
    forall u | u in clients' ensures ClientOwns(slots', loop, u, clients'[u]) {
      RewrittenClients(slots, clients, loop, t, c, i, x, u);
    }
    assert SlotOwned(slots[i], clients, loop, i);
    assert ClientOwns(slots, loop, t, clients[t]);
  }

  /** The loop moves without touching a slot. */
  lemma LoopMoves(slots: seq<Slot>, clients: Clients, loop: LoopPc, loop': LoopPc)
    requires Owned(slots, clients, loop) && !loop.ClearTid? && !loop'.ClearTid?
    requires LoopScans(slots, loop')
    ensures Owned(slots, clients, loop')
  {
    forall i | 0 <= i < |slots| ensures SlotOwned(slots[i], clients, loop', i) {
      assert SlotOwned(slots[i], clients, loop, i);
    }
    forall u | u in clients ensures ClientOwns(slots, loop', u, clients[u]) {
      assert ClientOwns(slots, loop, u, clients[u]);
    }
  }

  lemma LoopClearsPid(slots: seq<Slot>, clients: Clients, i: nat)
    requires Owned(slots, clients, ClearPid(i))
    ensures Owned(slots[i := slots[i].(pid := 0)], clients, ClearTid(i))
  {
    var slots' := slots[i := slots[i].(pid := 0)];
    assert SlotOwned(slots[i], clients, ClearPid(i), i);
    forall j | 0 <= j < |slots'| ensures SlotOwned(slots'[j], clients, ClearTid(i), j) {
      assert SlotOwned(slots[j], clients, ClearPid(i), j);
    }
    forall u | u in clients ensures ClientOwns(slots', ClearTid(i), u, clients[u]) {
      assert ClientOwns(slots, ClearPid(i), u, clients[u]);
    }
  }

  lemma LoopClearsTid(slots: seq<Slot>, clients: Clients, i: nat)
    requires Owned(slots, clients, ClearTid(i))
    ensures Owned(slots[i := slots[i].(tid := 0)], clients, Scan(i + 1))
  {
    var slots' := slots[i := slots[i].(tid := 0)];
    forall j | 0 <= j < |slots'| ensures SlotOwned(slots'[j], clients, Scan(i + 1), j) {
      assert SlotOwned(slots[j], clients, ClearTid(i), j);
    }
    forall u | u in clients ensures ClientOwns(slots', Scan(i + 1), u, clients[u]) {
      assert ClientOwns(slots, ClearTid(i), u, clients[u]);
    }
  }

  // ----- every step -----

  ghost predicate Inv(s: State) {
    Owned(s.slots, s.clients, s.loop)
  }

  lemma Reserve(s: State, s': State, t: nat)
    requires Inv(s) && SubmitStep(s, s', t) && s.clients[t].pc.Reserve?
    ensures Inv(s')
  {
    var c, c' := s.clients[t], s'.clients[t];
    var i := c.pc.i;
    assert ClientOwns(s.slots, s.loop, t, c);
    if i < |s.slots| && s.slots[i].tid == 0 {
      assert SlotOwned(s.slots[i], s.clients, s.loop, i);
      ClientWrites(s.slots, s.clients, s.loop, t, c', i, s'.slots[i]);
    } else {
      ClientMoves(s.slots, s.clients, s.loop, t, c');
    }
  }

  lemma Write(s: State, s': State, t: nat)
    requires Inv(s) && SubmitStep(s, s', t) && Writing(s.clients[t].pc)
    ensures Inv(s')
  {
    var c, c' := s.clients[t], s'.clients[t];
    assert ClientOwns(s.slots, s.loop, t, c);
    if c.pc.Clear? {
      ClientMoves(s.slots, s.clients, s.loop, t, c');
    } else {
      ClientWrites(s.slots, s.clients, s.loop, t, c', c.pc.i, s'.slots[c.pc.i]);
    }
  }

  lemma Move(s: State, s': State, t: nat)
    requires Inv(s) && ClientStep(s, s', t)
    requires !s.clients[t].pc.Reserve? && !Writing(s.clients[t].pc)
    ensures Inv(s')
  {
    assert ClientOwns(s.slots, s.loop, t, s.clients[t]);
    ClientMoves(s.slots, s.clients, s.loop, t, s'.clients[t]);
  }

  lemma Queue(s: State, s': State)
    requires Inv(s) && LoopQueueStep(s, s')
    ensures Inv(s')
  {
    match s.loop {
      case ClearPid(i) => LoopClearsPid(s.slots, s.clients, i);
      case ClearTid(i) => LoopClearsTid(s.slots, s.clients, i);
      case _ => LoopMoves(s.slots, s.clients, s.loop, s'.loop);
    }
  }

  lemma Loop(s: State, s': State)
    requires Inv(s) && LoopStep(s, s')
    ensures Inv(s')
  {
    if LoopQueueStep(s, s') {
      Queue(s, s');
    } else {
      LoopMoves(s.slots, s.clients, s.loop, s'.loop);
    }
  }

  lemma Client(s: State, s': State, t: nat)
    requires Inv(s) && ClientStep(s, s', t)
    ensures Inv(s')
  {
    if s.clients[t].pc.Reserve? {
      Reserve(s, s', t);
    } else if Writing(s.clients[t].pc) {
      Write(s, s', t);
    } else {
      Move(s, s', t);
    }
  }
}
