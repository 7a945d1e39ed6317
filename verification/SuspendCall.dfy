/**
 waio_suspend as the caller runs it, over the list it is given and the handle
 table of the process, with completions arriving between any two of its
 accesses: what it creates it closes, once, on every exit.
 */
module SuspendCall {
  import opened AiocbStatus

  const LISTIO_MAX := 0x40
  const EAGAIN := -11
  const EINTR := -4

  class Aiocb {
    var qstatus: QStatus
    var hpending: int
    // cx_after_io has tried to take the word, which it does once
    var begun: bool
    // whether it had when the call last set the word to 0
    ghost var begunAtReset: bool
    const hsignal: int

    constructor (hsignal: int)
      ensures hpending == 0 && this.hsignal == hsignal
    {
      qstatus := Wait1;
      hpending, begun := 0, false;
      begunAtReset := false;
      this.hsignal := hsignal;
    }
  }

  /** The handle table: handles are never reused, and every close is counted. */
  class Handles {
    var next: nat
    var closed: multiset<int>
    // how often creating an event has failed
    var failures: nat
    // every wait, with the handles it was for
    var waits: seq<seq<int>>

    constructor ()
      ensures next == 1 && closed == multiset{} && failures == 0 && waits == []
    {
      next := 1;
      closed := multiset{};
      failures := 0;
      waits := [];
    }

    method Create() returns (ok: bool, h: int)
      modifies `next, `failures
      ensures if ok then h == old(next) && next == old(next) + 1 else next == old(next)
      ensures failures == old(failures) + (if ok then 0 else 1)
    {
      ok := *;
      h := next;
      if ok {
        next := next + 1;
      } else {
        failures := failures + 1;
      }
    }

    method Close(h: int)
      modifies `closed
      ensures closed == old(closed) + multiset{h}
    {
      closed := closed + multiset{h};
    }

    /** Satisfied by any of the events, or by the timeout. */
    method Wait(handles: seq<int>)
      modifies `waits
      ensures waits == old(waits) + [handles]
    {
      waits := waits + [handles];
    }
  }

  /** What completions may do meanwhile: take a free word once, then end a pending status. */
  twostate predicate Interfered(list: seq<Aiocb>)
    reads list
  {
    forall a :: a in list ==>
                  && (old(a.begun) ==> a.begun)
                  && a.begunAtReset == old(a.begunAtReset)
                  && (|| a.hpending == old(a.hpending)
                      || (old(a.hpending) == 0 && a.hpending == -1 && !old(a.begun) && a.begun))
                  && (Terminal(old(a.qstatus)) ==> a.qstatus == old(a.qstatus))
  }

  /** Neither is undone: that a completion has begun, and a terminal status. */
  twostate predicate Kept(list: seq<Aiocb>)
    reads list
  {
    forall a :: a in list ==>
                  && (old(a.begun) ==> a.begun)
                  && (Terminal(old(a.qstatus)) ==> a.qstatus == old(a.qstatus))
                  && (a.hpending < 0 ==> old(a.hpending) < 0 || a.begun)
  }

  /** A terminal status, or a word that is not free. */
  ghost predicate Settled(a: Aiocb)
    reads a
  {
    Terminal(a.qstatus) || a.hpending != 0
  }

  /** The word was set to 0, and is 0 unless a completion has begun since. */
  ghost predicate WordReset(a: Aiocb)
    reads a
  {
    && (a.begunAtReset ==> a.begun)
    && (a.hpending == 0 || (a.hpending == -1 && a.begun && !a.begunAtReset))
  }

  // ----- what the call holds -----

  /** The handles the call has created and not yet closed. */
  ghost function Open(k: Handles, base: nat): set<int>
    reads k
  {
    set h | base <= h < k.next && k.closed[h] == 0
  }

  /** The handles that stand in the words of the list. */
  ghost function Held(list: seq<Aiocb>): set<int>
    reads list
  {
    set a | a in list && a.hpending > 0 :: a.hpending
  }

  /** Nothing older than the call has been closed, nothing of the call closed twice. */
  ghost predicate Balanced(k: Handles, base: nat, closed: multiset<int>)
    reads k
  {
    && base <= k.next
    && (forall h :: h < base ==> k.closed[h] == closed[h])
    && (forall h :: base <= h < k.next ==> k.closed[h] <= 1)
    && (forall h :: h >= k.next ==> k.closed[h] == 0)
  }

  /** The handles of `open` are those in the words, each in one word only. */
  ghost predicate InWords(list: seq<Aiocb>, open: set<int>)
    reads list
  {
    && Held(list) == open
    && forall a, b :: a in list && b in list && a != b && a.hpending > 0 ==> a.hpending != b.hpending
  }

  /** The handles of `open` are those in the first `events` places of hwait, each once. */
  ghost predicate InWait(hwait: array<int>, events: nat, open: set<int>)
    reads hwait
  {
    && events <= hwait.Length
    && (set j | 0 <= j < events :: hwait[j]) == open
    && forall i, j :: 0 <= i < j < events ==> hwait[i] != hwait[j]
  }

  // ----- the parts of the call -----

  /** Close hwait[0..events), whatever is open. */
  method CloseEach(hwait: array<int>, events: nat, k: Handles)
    requires events <= hwait.Length
    modifies k`closed
    ensures k.closed == old(k.closed) + multiset(hwait[..events])
  {
    var i := 0;
    while i < events
      invariant 0 <= i <= events
      invariant k.closed == old(k.closed) + multiset(hwait[..i])
    {
      k.Close(hwait[i]);
      assert hwait[..i + 1] == hwait[..i] + [hwait[i]];
      i := i + 1;
    }
  }

  lemma {:induction false} OnceEach(s: seq<int>, h: int)
    requires forall i, j :: 0 <= i < j < |s| ==> s[i] != s[j]
    ensures multiset(s)[h] == if h in s then 1 else 0
  {
    if s != [] {
      var rest := s[..|s| - 1];
      assert s == rest + [s[|s| - 1]];
      OnceEach(rest, h);
    }
  }

  /** The events of the call stand in hwait once each: closing those closes every open one, once. */
  method CloseAll(hwait: array<int>, events: nat, k: Handles, ghost base: nat, ghost closed: multiset<int>)
    requires Balanced(k, base, closed) && InWait(hwait, events, Open(k, base))
    modifies k`closed
    ensures Balanced(k, base, closed) && Open(k, base) == {}
  {
    ghost var s, open := hwait[..events], Open(k, base);
    CloseEach(hwait, events, k);
    forall h ensures k.closed[h] == old(k.closed)[h] + (if h in open then 1 else 0) {
      OnceEach(s, h);
      assert h in s <==> h in set j | 0 <= j < events :: hwait[j];
    }
  }

  /** Set one word to 0 after closing the handle in it, if any. */
  method CloseWord(list: seq<Aiocb>, a: Aiocb, k: Handles, ghost base: nat, ghost closed: multiset<int>)
    requires a in list && Balanced(k, base, closed) && InWords(list, Open(k, base))
    modifies a`hpending, a`begunAtReset, k`closed
    ensures Balanced(k, base, closed) && InWords(list, Open(k, base))
    ensures a.hpending == 0 && a.begunAtReset == a.begun
  {
    ghost var open, held := Open(k, base), Held(list);
    ghost var h := a.hpending;
    if a.hpending > 0 {
      assert h in held;
      k.Close(a.hpending);
      assert Open(k, base) == open - {h};
    }
    a.hpending := 0;
    a.begunAtReset := a.begun;
    if h > 0 {
      assert Held(list) == held - {h};
    } else {
      assert Held(list) == held;
    }
  }

  /** Any number of completions, between two accesses of the call. */
  method Interfere(list: seq<Aiocb>)
    modifies list
    ensures Interfered(list)
  {
    for i := 0 to |list|
      invariant Interfered(list)
    {
      if * {
        if !list[i].begun {
          list[i].begun := true;
          if list[i].hpending == 0 {
            list[i].hpending := -1;
          }
        }
      }
      if * {
        if !Terminal(list[i].qstatus) {
          // running, complete, or cancelled
          var q: QStatus := *;
          list[i].qstatus := if list[i].begun || q.Pending? || q.Cancelled? then q else list[i].qstatus;
        }
      }
    }
  }

  /** Completions neither take a handle out of a word nor put one in. */
  method Completions(list: seq<Aiocb>, ghost open: set<int>)
    requires InWords(list, open)
    modifies list
    ensures Interfered(list) && InWords(list, open)
  {
    Interfere(list);
    assert forall a :: a in list ==>
                         && (a.hpending > 0 <==> old(a.hpending) > 0)
                         && (a.hpending > 0 ==> a.hpending == old(a.hpending));
    assert Held(list) == old(Held(list));
  }

  /** One turn of the clean-up, and the completions after it. */
  method CloseTurn(list: seq<Aiocb>, a: Aiocb, k: Handles, ghost base: nat, ghost closed: multiset<int>)
    requires a in list && Balanced(k, base, closed) && InWords(list, Open(k, base))
    modifies list, k`closed
    ensures Balanced(k, base, closed) && InWords(list, Open(k, base))
    ensures forall b :: b in list && (b == a || old(WordReset(b))) ==> WordReset(b)
    ensures forall b :: b in list ==> b.begunAtReset == if b == a then old(b.begun) else old(b.begunAtReset)
    ensures Kept(list)
  {
    CloseWord(list, a, k, base, closed);
    Completions(list, Open(k, base));
  }

  /** The clean-up of the early return: close what is in the words and set them to 0. */
  method CloseWords(list: seq<Aiocb>, k: Handles, ghost base: nat, ghost closed: multiset<int>)
    requires Balanced(k, base, closed) && InWords(list, Open(k, base))
    modifies list, k`closed
    ensures Balanced(k, base, closed) && Open(k, base) == {}
    ensures forall a :: a in list ==> WordReset(a) && (old(a.begun) ==> a.begunAtReset)
    ensures Kept(list)
  {
    for i := 0 to |list|
      invariant Balanced(k, base, closed) && InWords(list, Open(k, base))
      invariant forall j :: 0 <= j < i ==> WordReset(list[j]) && (old(list[j].begun) ==> list[j].begunAtReset)
      invariant Kept(list)
    {
      CloseTurn(list, list[i], k, base, closed);
    }
    assert Held(list) == {};
  }

  /** The clean-up after the wait: the handles are closed, the words are set to 0. */
  method ResetWords(list: seq<Aiocb>)
    modifies list
    ensures forall a :: a in list ==> WordReset(a) && (old(a.begun) ==> a.begunAtReset)
    ensures Kept(list)
  {
    for i := 0 to |list|
      invariant forall j :: 0 <= j < i ==> WordReset(list[j]) && (old(list[j].begun) ==> list[j].begunAtReset)
      invariant Kept(list)
    {
      list[i].hpending := 0;
      list[i].begunAtReset := list[i].begun;
      Interfere(list);
    }
  }

  /** A new event goes into a free word. */
  method PutInWord(list: seq<Aiocb>, a: Aiocb, h: int, ghost open: set<int>)
    requires a in list && a.hpending == 0 && h > 0 && h !in open && InWords(list, open)
    modifies a`hpending
    ensures a.hpending == h && InWords(list, open + {h})
  {
    a.hpending := h;
    assert forall b :: b in list && b != a ==> b.hpending == old(b.hpending);
    assert Held(list) == open + {h};
  }

  /** And into the next place of hwait. */
  method PutInWait(hwait: array<int>, events: nat, h: int, ghost open: set<int>)
    requires events < hwait.Length && h !in open && InWait(hwait, events, open)
    modifies hwait
    ensures InWait(hwait, events + 1, open + {h})
  {
    hwait[events] := h;
    assert forall j :: 0 <= j < events ==> hwait[j] == old(hwait[j]) && hwait[j] in open;
    assert (set j | 0 <= j < events + 1 :: hwait[j]) == (set j | 0 <= j < events :: old(hwait[j])) + {h};
  }

  /** The compare-and-swap of a new event into a word, and what follows from it. */
  method Place(list: seq<Aiocb>, a: Aiocb, h: int, hwait: array<int>, events: nat, k: Handles,
               ghost base: nat, ghost closed: multiset<int>, ghost open: set<int>)
    returns (events': nat)
    requires a in list && events < hwait.Length
    requires Balanced(k, base, closed) && Open(k, base) == open + {h} && h !in open && h > 0
    requires InWords(list, open) && InWait(hwait, events, open)
    modifies a`hpending, hwait, k`closed
    ensures Balanced(k, base, closed)
    ensures InWords(list, Open(k, base)) && InWait(hwait, events', Open(k, base))
    ensures events <= events' <= events + 1
    ensures a.hpending == if old(a.hpending) == 0 then h else old(a.hpending)
  {
    if a.hpending != 0 {
      k.Close(h);
      assert Open(k, base) == open;
      events' := events;
    } else {
      PutInWord(list, a, h, open);
      PutInWait(hwait, events, a.hpending, open);
      events' := events + 1;
    }
  }

  /** One turn of the first loop: an event for a request that is still pending. */
  method Install(list: seq<Aiocb>, a: Aiocb, hwait: array<int>, events: nat, k: Handles,
                 ghost base: nat, ghost closed: multiset<int>)
    returns (ok: bool, events': nat)
    requires a in list && events < hwait.Length && 0 < base
    requires Balanced(k, base, closed)
    requires InWords(list, Open(k, base)) && InWait(hwait, events, Open(k, base))
    modifies list, hwait, k
    ensures Balanced(k, base, closed)
    ensures InWords(list, Open(k, base)) && InWait(hwait, events', Open(k, base))
    ensures events <= events' <= events + 1 && Kept(list)
    ensures forall b :: b in list && (old(Settled(b)) || (ok && b == a)) ==> Settled(b)
    ensures k.failures == old(k.failures) + (if ok then 0 else 1) && k.waits == old(k.waits)
  {
    ok, events' := true, events;
    if a.qstatus.Wait1? || a.qstatus.Pending? {
      ghost var open := Open(k, base);
      var h;
      ok, h := k.Create();
      if !ok {
        return;
      }
      assert Open(k, base) == open + {h};
      Completions(list, open);
      events' := Place(list, a, h, hwait, events, k, base, closed, open);
    }
  }

  /** The user's event is that of the last aiocb so far that has one. */
  ghost predicate LastSignal(list: seq<Aiocb>, i: nat, hsignal: int) {
    && i <= |list|
    && (hsignal == 0 <==> forall j :: 0 <= j < i ==> list[j].hsignal == 0)
    && (hsignal != 0 ==>
          exists j :: 0 <= j < i && list[j].hsignal == hsignal && forall l :: j < l < i ==> list[l].hsignal == 0)
  }

  lemma NextSignal(list: seq<Aiocb>, i: nat, hsignal: int)
    requires i < |list| && LastSignal(list, i, hsignal)
    ensures LastSignal(list, i + 1, if list[i].hsignal != 0 then list[i].hsignal else hsignal)
  {
  }

  /** One turn of the first loop, with the completions before it. */
  method InstallTurn(list: seq<Aiocb>, i: nat, hwait: array<int>, events: nat, hsignal: int, k: Handles,
                     ghost base: nat, ghost closed: multiset<int>)
    returns (ok: bool, events': nat, hsignal': int)
    requires i < |list| && events < hwait.Length && 0 < base
    requires Balanced(k, base, closed) && LastSignal(list, i, hsignal)
    requires InWords(list, Open(k, base)) && InWait(hwait, events, Open(k, base))
    modifies list, hwait, k
    ensures Balanced(k, base, closed)
    ensures InWords(list, Open(k, base)) && InWait(hwait, events', Open(k, base))
    ensures events <= events' <= events + 1 && Kept(list)
    ensures forall a :: a in list && (old(Settled(a)) || (ok && a == list[i])) ==> Settled(a)
    ensures k.failures == old(k.failures) + (if ok then 0 else 1) && k.waits == old(k.waits)
    ensures ok ==> LastSignal(list, i + 1, hsignal')
  {
    Completions(list, Open(k, base));
    ok, events' := Install(list, list[i], hwait, events, k, base, closed);
    NextSignal(list, i, hsignal);
    hsignal' := if ok && list[i].hsignal != 0 then list[i].hsignal else hsignal;
  }

  lemma SettledIsWaited(list: seq<Aiocb>, hwait: array<int>, events: nat, open: set<int>)
    requires InWords(list, open) && InWait(hwait, events, open)
    requires forall a :: a in list ==> Settled(a)
    ensures forall a :: a in list ==>
                          Terminal(a.qstatus) || a.hpending < 0 || (a.hpending in open && a.hpending in hwait[..events])
  {
    forall a | a in list && a.hpending > 0 ensures a.hpending in open && a.hpending in hwait[..events] {
      assert a.hpending in Held(list);
      var j :| 0 <= j < events && hwait[j] == a.hpending;
      assert hwait[..events][j] == a.hpending;
    }
  }

  /** The first loop; `ok` is false when an event could not be created. */
  method InstallAll(list: seq<Aiocb>, hwait: array<int>, k: Handles, ghost base: nat, ghost closed: multiset<int>)
    returns (ok: bool, events: nat, hsignal: int)
    requires |list| < hwait.Length && 0 < base
    requires Balanced(k, base, closed) && Open(k, base) == {} && InWords(list, {})
    modifies list, hwait, k
    ensures Balanced(k, base, closed)
    ensures InWords(list, Open(k, base)) && InWait(hwait, events, Open(k, base))
    ensures events <= |list| && Kept(list)
    ensures k.failures == old(k.failures) + (if ok then 0 else 1) && k.waits == old(k.waits)
    // nothing is left to wait for, a completion has taken the word, or the word's own event is in hwait
    ensures ok ==> forall a :: a in list ==>
                                 || a.qstatus.Success? || a.qstatus.Cancelled? || a.qstatus.Failed?
                                 || a.hpending < 0
                                 || (a.hpending in Open(k, base) && a.hpending in hwait[..events])
    ensures old(exists a :: a in list && Terminal(a.qstatus)) ==> exists a :: a in list && Terminal(a.qstatus)
    // the user's event is that of the last aiocb that has one
    ensures ok ==> LastSignal(list, |list|, hsignal)
  {
    ok, events, hsignal := true, 0, 0;
    for i := 0 to |list|
      invariant ok && events <= i && Kept(list) && k.failures == old(k.failures) && k.waits == old(k.waits)
      invariant Balanced(k, base, closed)
      invariant InWords(list, Open(k, base)) && InWait(hwait, events, Open(k, base))
      invariant forall j :: 0 <= j < i ==> Settled(list[j])
      invariant LastSignal(list, i, hsignal)
    {
      ok, events, hsignal := InstallTurn(list, i, hwait, events, hsignal, k, base, closed);
      if !ok {
        return;
      }
    }
    SettledIsWaited(list, hwait, events, Open(k, base));
  }

  /** The re-check before the wait: is some aiocb terminal? */
  method AnyTerminal(list: seq<Aiocb>, ghost open: set<int>) returns (found: bool)
    requires InWords(list, open)
    modifies list
    ensures InWords(list, open) && Interfered(list)
    ensures found ==> exists a :: a in list && Terminal(a.qstatus)
    ensures !found ==> forall a :: a in list ==> !Terminal(old(a.qstatus))
  {
    found := false;
    for i := 0 to |list|
      invariant InWords(list, open) && Interfered(list)
      invariant forall j :: 0 <= j < i ==> !Terminal(old(list[j].qstatus))
    {
      Completions(list, open);
      if Terminal(list[i].qstatus) {
        return true;
      }
    }
  }

  /** Each event of the call was closed once, and only those were closed. */
  ghost predicate ClosedOnce(k: Handles, base: nat, closed: multiset<int>)
    reads k
  {
    && (forall h :: base <= h < k.next ==> k.closed[h] == 1)
    && (forall h :: h < base || h >= k.next ==> k.closed[h] == closed[h])
  }

  lemma NothingOpen(k: Handles, base: nat, closed: multiset<int>)
    requires Balanced(k, base, closed) && Open(k, base) == {}
    requires forall h :: h >= base ==> closed[h] == 0
    ensures ClosedOnce(k, base, closed)
  {
    forall h | base <= h < k.next ensures k.closed[h] == 1 {
      assert h !in Open(k, base);
    }
  }

  /** The check after the wait; nothing else happens between it and the return. */
  method FinalCheck(list: seq<Aiocb>) returns (found: bool)
    ensures found <==> exists a :: a in list && Terminal(a.qstatus)
  {
    for i := 0 to |list|
      invariant forall j :: 0 <= j < i ==> !Terminal(list[j].qstatus)
    {
      if Terminal(list[i].qstatus) {
        return true;
      }
    }
    found := false;
  }

  /** After the wait: the words, the user's event, the statuses. */
  method Conclude(list: seq<Aiocb>, hsignal: int, signal: bool) returns (ret: int)
    modifies list
    ensures forall a :: a in list ==> WordReset(a) && (old(a.begun) ==> a.begunAtReset)
    ensures Kept(list)
    ensures ret == if hsignal != 0 && signal then EINTR
                   else if exists a :: a in list && Terminal(a.qstatus) then 0
                   else EAGAIN
  {
    ResetWords(list);
    if hsignal != 0 && signal {
      return EINTR;
    }
    var terminal := FinalCheck(list);
    ret := if terminal then 0 else EAGAIN;
  }

  /** The user's event takes the place after those of the call. */
  method AddSignal(hwait: array<int>, events: nat, hsignal: int, ghost open: set<int>)
    requires events < hwait.Length && InWait(hwait, events, open)
    modifies hwait
    ensures InWait(hwait, events, open) && hwait[..events + 1] == old(hwait[..events]) + [hsignal]
  {
    ghost var before := hwait[..events];
    hwait[events] := hsignal;
    assert hwait[..events] == before;
    assert forall j :: 0 <= j < events ==> hwait[j] == before[j];
  }

  /** The wait and the clean-up after it; the user's event stands last and is not closed. */
  method WaitAndClose(list: seq<Aiocb>, hwait: array<int>, events: nat, hsignal: int, k: Handles,
                      ghost base: nat, ghost closed: multiset<int>)
    requires Balanced(k, base, closed) && InWords(list, Open(k, base)) && events <= hwait.Length
    requires hsignal != 0 ==> events > 0
    requires InWait(hwait, if hsignal != 0 then events - 1 else events, Open(k, base))
    requires forall h :: h >= base ==> closed[h] == 0
    modifies list, k`closed, k`waits
    ensures ClosedOnce(k, base, closed) && Kept(list)
    ensures k.waits == old(k.waits) + (if events > 0 then [hwait[..events]] else [])
  {
    if events > 0 {
      k.Wait(hwait[..events]);
    }
    Completions(list, Open(k, base));
    var created := events;
    if hsignal != 0 {
      created := created - 1;
    }
    CloseAll(hwait, created, k, base, closed);
    NothingOpen(k, base, closed);
  }

  /** The clean-up when the re-check found a terminal status. */
  method CloseEarly(list: seq<Aiocb>, k: Handles, ghost base: nat, ghost closed: multiset<int>)
    requires Balanced(k, base, closed) && InWords(list, Open(k, base))
    requires forall h :: h >= base ==> closed[h] == 0
    modifies list, k`closed
    ensures ClosedOnce(k, base, closed)
    ensures forall a :: a in list ==> WordReset(a) && (old(a.begun) ==> a.begunAtReset)
    ensures Kept(list)
  {
    CloseWords(list, k, base, closed);
    NothingOpen(k, base, closed);
  }

  /** The exit for a failed creation: the words are left as they are. */
  method Abandon(list: seq<Aiocb>, hwait: array<int>, events: nat, k: Handles, ghost base: nat, ghost closed: multiset<int>)
    requires Balanced(k, base, closed)
    requires InWords(list, Open(k, base)) && InWait(hwait, events, Open(k, base))
    requires forall h :: h >= base ==> closed[h] == 0
    modifies k`closed
    ensures ClosedOnce(k, base, closed)
    ensures forall a :: a in list ==> a.hpending <= 0 || base <= a.hpending < k.next
  {
    forall a | a in list ensures a.hpending <= 0 || base <= a.hpending < k.next {
      assert a.hpending > 0 ==> a.hpending in Held(list);
    }
    CloseAll(hwait, events, k, base, closed);
    NothingOpen(k, base, closed);
  }

  /** From the re-check on: the early return, or the wait and what follows it. */
  method CheckAndWait(list: seq<Aiocb>, hwait: array<int>, events: nat, hsignal: int, k: Handles, signal: bool,
                      ghost base: nat, ghost closed: multiset<int>)
    returns (ret: int)
    requires Balanced(k, base, closed) && InWords(list, Open(k, base)) && events <= hwait.Length
    requires hsignal != 0 ==> events > 0
    requires InWait(hwait, if hsignal != 0 then events - 1 else events, Open(k, base))
    requires forall h :: h >= base ==> closed[h] == 0
    modifies list, k`closed, k`waits
    ensures ClosedOnce(k, base, closed) && Kept(list)
    ensures forall a :: a in list ==> WordReset(a) && (old(a.begun) ==> a.begunAtReset)
    // something was terminal: no wait, and not a look at the user's event
    ensures old(exists a :: a in list && Terminal(a.qstatus)) ==> ret == 0 && k.waits == old(k.waits)
    ensures ret == 0 ==> exists a :: a in list && Terminal(a.qstatus)
    ensures ret == EAGAIN ==> forall a :: a in list ==> !Terminal(a.qstatus)
    ensures ret == 0 || ret == (if signal && hsignal != 0 then EINTR else EAGAIN)
    ensures ret != 0 ==> k.waits == old(k.waits) + (if events > 0 then [hwait[..events]] else [])
  {
    var found := AnyTerminal(list, Open(k, base));
    if found {
      CloseEarly(list, k, base, closed);
      return 0;
    }
    WaitAndClose(list, hwait, events, hsignal, k, base, closed);
    ret := Conclude(list, hsignal, signal);
  }

  /** One wait more, for this handle among others. */
  ghost predicate WaitedOnce(was: seq<seq<int>>, k: Handles, h: int)
    reads k
  {
    |k.waits| == |was| + 1 && was <= k.waits && h in k.waits[|was|]
  }

  /** Done, its completion begun, or its own event among those to wait for. */
  ghost predicate DoneOrWaited(a: Aiocb, s: seq<int>, k: Handles, base: nat)
    reads a, k
  {
    Terminal(a.qstatus) || a.begun || (base <= a.hpending < k.next && a.hpending in s)
  }

  lemma BegunOrWaited(list: seq<Aiocb>, s: seq<int>, k: Handles, base: nat)
    requires forall a :: a in list ==>
                           || a.qstatus.Success? || a.qstatus.Cancelled? || a.qstatus.Failed?
                           || a.hpending < 0 || (a.hpending in Open(k, base) && a.hpending in s)
    requires forall a :: a in list && a.hpending < 0 ==> a.begun
    ensures forall a :: a in list ==> DoneOrWaited(a, s, k, base)
  {
  }

  /** The user's event, the re-check, the wait. */
  method SignalAndWait(list: seq<Aiocb>, hwait: array<int>, events: nat, hsignal: int, k: Handles, signal: bool,
                       ghost base: nat, ghost closed: multiset<int>)
    returns (ret: int)
    requires Balanced(k, base, closed) && InWords(list, Open(k, base)) && events < hwait.Length
    requires InWait(hwait, events, Open(k, base))
    requires forall h :: h >= base ==> closed[h] == 0
    requires forall a :: a in list ==> DoneOrWaited(a, hwait[..events], k, base)
    modifies list, hwait, k`closed, k`waits
    ensures ClosedOnce(k, base, closed) && Kept(list)
    ensures forall a :: a in list ==> WordReset(a) && (old(a.begun) ==> a.begunAtReset)
    ensures old(exists a :: a in list && Terminal(a.qstatus)) ==> ret == 0 && k.waits == old(k.waits)
    ensures ret == 0 ==> exists a :: a in list && Terminal(a.qstatus)
    ensures ret == EAGAIN ==> forall a :: a in list ==> !Terminal(a.qstatus)
    ensures ret == 0 || ret == (if signal && hsignal != 0 then EINTR else EAGAIN)
    ensures ret != 0 && hsignal != 0 ==> WaitedOnce(old(k.waits), k, hsignal)
    ensures ret == EAGAIN && (exists a :: a in list && !a.begun) ==>
              exists h :: base <= h < k.next && WaitedOnce(old(k.waits), k, h)
  {
    ghost var s := hwait[..events];
    var all := events;
    if hsignal != 0 {
      AddSignal(hwait, events, hsignal, Open(k, base));
      all := events + 1;
    }
    ghost var w := hwait[..all];
    assert forall h :: h in s ==> h in w;
    ret := CheckAndWait(list, hwait, all, hsignal, k, signal, base, closed);
    if a :| ret == EAGAIN && a in list && !a.begun {
      assert WaitedOnce(old(k.waits), k, old(a.hpending));
    }
  }

  /** What waio_cancel_aiocb does with the word: whatever it holds is closed, a -1 too, and left there. */
  method CancelWaiter(a: Aiocb, k: Handles)
    modifies k`closed
    ensures k.closed == old(k.closed) + (if a.hpending != 0 then multiset{a.hpending} else multiset{})
  {
    if a.hpending != 0 {
      k.Close(a.hpending);
    }
  }

  /**
   waio_suspend on one aiocb that is cancelled during the wait: the event it has
   put in the word is closed twice. Had a completion taken the word first, the
   cancellation closes -1 as if it were a handle.
   */
  method ClosedTwice(a: Aiocb, k: Handles) returns (events: nat)
    requires 0 < k.next && a.hpending <= 0 && forall h :: h >= k.next ==> k.closed[h] == 0
    modifies a, k
    ensures events > 0 ==> old(k.next) <= a.hpending < k.next && k.closed[a.hpending] == 2
    ensures events == 0 && a.hpending == -1 ==> k.closed[-1] == old(k.closed)[-1] + 1
  {
    ghost var base, closed := k.next, k.closed;
    var hwait := new int[LISTIO_MAX](_ => 0);
    assert Open(k, base) == {} && Held([a]) == {};
    var ok, hsignal;
    ok, events, hsignal := InstallAll([a], hwait, k, base, closed);
    ghost var open, s := Open(k, base), hwait[..events];
    CancelWaiter(a, k);
    CloseEach(hwait, events, k);
    if events > 0 {
      assert hwait[0] in open;
      assert a.hpending in Held([a]);
      assert s == [hwait[0]];
    }
  }

  /** The call on its array of handles; `h` is the user's event it has found. */
  method SuspendOn(list: seq<Aiocb>, hwait: array<int>, k: Handles, signal: bool, ghost base: nat, ghost closed: multiset<int>)
    returns (ret: int, created: bool, ghost h: int)
    requires |list| < hwait.Length && 0 < base && forall h :: h >= base ==> closed[h] == 0
    requires Balanced(k, base, closed) && Open(k, base) == {} && InWords(list, {})
    requires forall a :: a in list && a.hpending < 0 ==> a.begun
    modifies list, hwait, k
    ensures ClosedOnce(k, base, closed)
    ensures forall a :: a in list && old(a.begun) ==> a.begun
    ensures created ==> forall a :: a in list ==> WordReset(a) && (old(a.begun) ==> a.begunAtReset)
    ensures k.failures == old(k.failures) + (if created then 0 else 1)
    ensures !created ==> ret == EAGAIN && forall a :: a in list ==> a.hpending <= 0 || base <= a.hpending < k.next
    ensures ret == 0 ==> exists a :: a in list && Terminal(a.qstatus)
    ensures created && old(exists a :: a in list && Terminal(a.qstatus)) ==> ret == 0 && k.waits == old(k.waits)
    ensures ret == 0 || ret == EAGAIN || ret == EINTR
    ensures created ==> LastSignal(list, |list|, h) && (ret == EINTR ==> signal && h != 0)
    ensures created && ret != 0 && h != 0 ==>
              ret == (if signal then EINTR else EAGAIN) && WaitedOnce(old(k.waits), k, h)
    ensures created && ret == EAGAIN ==> forall a :: a in list ==> !Terminal(a.qstatus)
    ensures created && ret == EAGAIN && (exists a :: a in list && !a.begun) ==>
              exists w :: base <= w < k.next && WaitedOnce(old(k.waits), k, w)
  {
    var ok, events, hsignal := InstallAll(list, hwait, k, base, closed);
    h := hsignal;
    if !ok {
      Abandon(list, hwait, events, k, base, closed);
      return EAGAIN, false, h;
    }
    BegunOrWaited(list, hwait[..events], k, base);
    ret := SignalAndWait(list, hwait, events, hsignal, k, signal, base, closed);
    created := true;
  }

  /**
   waio_suspend. `created` is false exactly on the exit taken when an event cannot
   be created, which is the first failure. `signal` is what querying the user's
   event reports.
   */
  method Suspend(list: seq<Aiocb>, k: Handles, signal: bool) returns (ret: int, created: bool)
    requires |list| < LISTIO_MAX && 0 < k.next
    // one waiter for each aiocb: no handle is in a word when the call begins
    requires forall a :: a in list ==> a.hpending <= 0 && a.hsignal < k.next
    requires forall a :: a in list && a.hpending < 0 ==> a.begun
    requires forall h :: h >= k.next ==> k.closed[h] == 0
    modifies list, k
    // every event the call created is closed exactly once, and nothing else is closed
    ensures ClosedOnce(k, old(k.next), old(k.closed))
    ensures forall a :: a in list ==> k.closed[a.hsignal] == old(k.closed)[a.hsignal]
    // each word is 0, unless its completion began after the call had set it to 0
    ensures created ==> forall a :: a in list ==> WordReset(a) && (old(a.begun) ==> a.begunAtReset)
    ensures created ==> forall a :: a in list && old(a.begun) ==> a.hpending == 0
    // on the exit for a failed creation the words keep the handles, all closed by then
    ensures k.failures == old(k.failures) + (if created then 0 else 1)
    ensures !created ==> ret == -11
    ensures !created ==> forall a :: a in list ==> a.hpending <= 0 || old(k.next) <= a.hpending < k.next
    // 0: an aiocb is done, and whenever one was on entry
    ensures ret == 0 ==>
              exists a :: a in list && (a.qstatus.Success? || a.qstatus.Cancelled? || a.qstatus.Failed?)
    ensures created && old(exists a :: a in list && (a.qstatus.Success? || a.qstatus.Cancelled? || a.qstatus.Failed?)) ==>
              ret == 0 && k.waits == old(k.waits)
    // otherwise EINTR or EAGAIN, as the last user's event of the list tells
    ensures ret == 0 || ret == -4 || ret == -11
    ensures created && ret != 0 && (exists a :: a in list && a.hsignal != 0) ==>
              && ret == (if signal then -4 else -11)
              && exists j :: 0 <= j < |list| && list[j].hsignal != 0 && WaitedOnce(old(k.waits), k, list[j].hsignal)
                             && forall l :: j < l < |list| ==> list[l].hsignal == 0
    ensures ret == -4 ==> signal && exists a :: a in list && a.hsignal != 0
    ensures created && ret == -11 ==> forall a :: a in list ==> a.qstatus.Wait1? || a.qstatus.Pending?
    // and not without having waited on an event of its own, unless every completion has begun
    ensures created && ret == -11 && (exists a :: a in list && !a.begun) ==>
              exists h :: old(k.next) <= h < k.next && WaitedOnce(old(k.waits), k, h)
  {
    ghost var base, closed := k.next, k.closed;
    var hwait := new int[LISTIO_MAX](_ => 0);
    assert Open(k, base) == {} && Held(list) == {};
    ghost var h;
    ret, created, h := SuspendOn(list, hwait, k, signal, base, closed);
  }
}
