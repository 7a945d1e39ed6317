/**
 waio_xvtbls_init_once as a step system: any number of threads call it, each
 shared read, store and compare-and-swap is one step.
 */
module InitOnce {

  const MAX_TRIES := 0x2000

  datatype Pc =
    | TestCompleted
    | Compete
    // the losers
    | Retest
    | Await(tries: nat)
    | Verify
    // the winner
    | Initialize
    | Publish
    | Returned(success: bool)

  datatype State = State(
    started: bool, completed: bool,
    callers: map<nat, Pc>,
    // history: how often the initialiser was run, and how it ended
    runs: nat, succeeded: bool, failed: bool)

  predicate Init(s: State) {
    && !s.started && !s.completed && s.runs == 0 && !s.succeeded && !s.failed
    && forall c :: c in s.callers ==> s.callers[c].TestCompleted?
  }

  predicate SameHistory(s: State, s': State) {
    s'.runs == s.runs && s'.succeeded == s.succeeded && s'.failed == s.failed
  }

  /** One step of caller `c`. */
  predicate Step(s: State, s': State, c: nat) {
    && c in s.callers && c in s'.callers
    && s'.callers == s.callers[c := s'.callers[c]]
    && var pc' := s'.callers[c];
    match s.callers[c]
    case TestCompleted =>
      && s'.started == s.started && s'.completed == s.completed && SameHistory(s, s')
      && pc' == if s.completed then Returned(true) else Compete
    case Compete =>
      && s'.completed == s.completed && s'.started
      && s'.succeeded == s.succeeded && s'.failed == s.failed
      && if s.started then pc' == Retest && s'.runs == s.runs
         else pc' == Initialize && s'.runs == s.runs + 1
    case Retest =>
      && s'.started == s.started && s'.completed == s.completed && SameHistory(s, s')
      // a missing system routine, or no event for the wait
      && (pc' == Returned(false) || pc' == if s.completed then Returned(true) else Await(0))
    case Await(tries) =>
      && s'.started == s.started && s'.completed == s.completed && SameHistory(s, s')
      && pc' == if !s.completed && tries < MAX_TRIES then Await(tries + 1) else Verify
    case Verify =>
      && s'.started == s.started && s'.completed == s.completed && SameHistory(s, s')
      && pc' == Returned(s.completed)
    case Initialize =>
      && s'.started == s.started && s'.completed == s.completed && s'.runs == s.runs
      && if pc'.Publish? then s'.succeeded && s'.failed == s.failed
         else pc' == Returned(false) && s'.failed && s'.succeeded == s.succeeded
    case Publish =>
      && s'.started == s.started && s'.completed && SameHistory(s, s')
      && pc' == Returned(true)
    case Returned(_) => false
  }

  ghost predicate NextAt(run: seq<State>, i: nat) {
    i + 1 < |run| && exists c :: c in run[i].callers && Step(run[i], run[i + 1], c)
  }

  ghost predicate Run(run: seq<State>) {
    && |run| > 0
    && Init(run[0])
    && forall i :: 0 <= i < |run| - 1 ==> NextAt(run, i)
  }

  /** The caller is running the initialiser or about to publish its success. */
  predicate Winning(pc: Pc) {
    pc.Initialize? || pc.Publish?
  }

  predicate CallerOk(s: State, pc: Pc) {
    && (Winning(pc) ==> s.started && !s.failed && !s.completed)
    && (pc.Initialize? ==> !s.succeeded)
    && (pc.Publish? ==> s.succeeded)
    && (pc.Await? ==> pc.tries <= MAX_TRIES)
    && (pc == Returned(true) ==> s.completed)
  }

  ghost predicate Inv(s: State) {
    && s.runs == (if s.started then 1 else 0)
    && (s.completed ==> s.succeeded)
    && (s.succeeded || s.failed ==> s.started)
    && !(s.succeeded && s.failed)
    && (forall c :: c in s.callers ==> CallerOk(s, s.callers[c]))
    && (forall c, d ::
          c in s.callers && d in s.callers && Winning(s.callers[c]) && Winning(s.callers[d]) ==>
            c == d)
  }

  lemma InvStep(s: State, s': State, c: nat)
    requires Inv(s) && Step(s, s', c)
    ensures Inv(s')
  {
    assert CallerOk(s, s.callers[c]);
    forall d | d in s'.callers ensures CallerOk(s', s'.callers[d]) {
      if d != c {
        assert CallerOk(s, s.callers[d]);
      }
    }
  }

  lemma {:induction false} InvRun(run: seq<State>, n: nat)
    requires Run(run) && n < |run|
    ensures Inv(run[n])
  {
    if n > 0 {
      InvRun(run, n - 1);
      assert NextAt(run, n - 1);
      var c :| c in run[n - 1].callers && Step(run[n - 1], run[n], c);
      InvStep(run[n - 1], run[n], c);
    }
  }

  /**
   The initialiser is run by at most one caller; nobody is told SUCCESS unless
   it succeeded; and a failure is final: no caller is ever told SUCCESS then.
   */
  lemma AtMostOnce(run: seq<State>, n: nat)
    requires Run(run) && n < |run|
    ensures run[n].runs <= 1
    ensures forall c :: c in run[n].callers && run[n].callers[c] == Returned(true) ==>
                          run[n].succeeded && run[n].completed && run[n].runs == 1
    ensures run[n].failed ==> forall c :: c in run[n].callers ==> run[n].callers[c] != Returned(true)
  {
    InvRun(run, n);
    forall c | c in run[n].callers ensures CallerOk(run[n], run[n].callers[c]) {
    }
  }

  /** A bound on the steps a caller still takes. */
  function Rank(pc: Pc): nat {
    match pc
    case TestCompleted => MAX_TRIES + 5
    case Compete => MAX_TRIES + 4
    case Retest => MAX_TRIES + 3
    case Await(tries) => if tries <= MAX_TRIES then MAX_TRIES - tries + 2 else 2
    case Verify => 1
    case Initialize => 2
    case Publish => 1
    case Returned(_) => 0
  }

  /** The timed waits a caller has made. */
  function Waits(pc: Pc): nat {
    if pc.Await? then pc.tries else 0
  }

  function Moves(run: seq<State>, c: nat, n: nat): nat
    requires n < |run|
    requires forall i :: 0 <= i <= n ==> c in run[i].callers
  {
    if n == 0 then 0
    else Moves(run, c, n - 1) + (if run[n].callers[c] != run[n - 1].callers[c] then 1 else 0)
  }

  lemma RankStep(s: State, s': State, c: nat, d: nat)
    requires Inv(s) && Step(s, s', c) && d in s.callers
    ensures d in s'.callers
    ensures if d == c then Rank(s'.callers[d]) < Rank(s.callers[d]) else s'.callers[d] == s.callers[d]
  {
    assert CallerOk(s, s.callers[d]);
  }

  lemma {:induction false} CallersStay(run: seq<State>, c: nat, n: nat)
    requires Run(run) && n < |run| && c in run[0].callers
    ensures forall i :: 0 <= i <= n ==> c in run[i].callers
  {
    if n > 0 {
      CallersStay(run, c, n - 1);
      assert NextAt(run, n - 1);
    }
  }

  /**
   Every call ends: a caller makes at most 0x2000 timed waits and a bounded
   number of steps in all, whatever the others do.
   */
  lemma {:induction false} EveryCallEnds(run: seq<State>, c: nat, n: nat)
    requires Run(run) && n < |run| && c in run[0].callers
    ensures forall i :: 0 <= i <= n ==> c in run[i].callers
    ensures Waits(run[n].callers[c]) <= MAX_TRIES
    ensures Moves(run, c, n) + Rank(run[n].callers[c]) <= MAX_TRIES + 5
  {
    CallersStay(run, c, n);
    InvRun(run, n);
    assert CallerOk(run[n], run[n].callers[c]);
    if n > 0 {
      EveryCallEnds(run, c, n - 1);
      InvRun(run, n - 1);
      assert NextAt(run, n - 1);
      var d :| d in run[n - 1].callers && Step(run[n - 1], run[n], d);
      RankStep(run[n - 1], run[n], d, c);
    }
  }

  // ----- what a caller is told, and after how many waits -----

  /** One step of the run, as caller `c` sees it: its own, or none. */
  lemma StepAt(run: seq<State>, c: nat, n: nat)
    requires Run(run) && n + 1 < |run| && c in run[n].callers
    ensures Inv(run[n]) && Inv(run[n + 1]) && c in run[n + 1].callers
    ensures run[n + 1].callers[c] == run[n].callers[c] || Step(run[n], run[n + 1], c)
    ensures run[n].completed ==> run[n + 1].completed
    ensures run[n].succeeded ==> run[n + 1].succeeded
    ensures run[n].failed ==> run[n + 1].failed
  {
    InvRun(run, n);
    InvRun(run, n + 1);
    assert NextAt(run, n);
    var d :| d in run[n].callers && Step(run[n], run[n + 1], d);
    assert run[n + 1].callers == run[n].callers[d := run[n + 1].callers[d]];
  }

  /** At this point of the run the caller is there, at that place. */
  predicate IsAt(run: seq<State>, c: nat, i: nat, pc: Pc) {
    i < |run| && c in run[i].callers && run[i].callers[c] == pc
  }

  lemma {:induction false} AfterInitialize(run: seq<State>, c: nat, i: nat, n: nat)
    requires Run(run) && i <= n < |run| && IsAt(run, c, i, Initialize)
    ensures c in run[n].callers && Inv(run[n])
    ensures match run[n].callers[c]
            case Initialize | Publish => true
            case Returned(success) => if success then run[n].succeeded else run[n].failed
            case _ => false
  {
    if n == i {
      InvRun(run, n);
    } else {
      AfterInitialize(run, c, i, n - 1);
      StepAt(run, c, n - 1);
      assert CallerOk(run[n - 1], run[n - 1].callers[c]);
    }
  }

  /** The caller that runs the initialiser is told SUCCESS if and only if it succeeds. */
  lemma WinnerIsTold(run: seq<State>, c: nat, i: nat, n: nat, success: bool)
    requires Run(run) && i <= n < |run| && IsAt(run, c, i, Initialize) && IsAt(run, c, n, Returned(success))
    ensures success <==> run[n].succeeded
    ensures success <==> !run[n].failed
    ensures success ==> run[n].completed
  {
    AfterInitialize(run, c, i, n);
    assert CallerOk(run[n], run[n].callers[c]);
  }

  /** A caller that begins when the initialisation is complete has taken no step or been told SUCCESS. */
  lemma {:induction false} AfterCompletion(run: seq<State>, c: nat, i: nat, n: nat)
    requires Run(run) && i <= n < |run| && IsAt(run, c, i, TestCompleted) && run[i].completed
    ensures run[n].completed && (IsAt(run, c, n, TestCompleted) || IsAt(run, c, n, Returned(true)))
  {
    if i < n {
      AfterCompletion(run, c, i, n - 1);
      StepAt(run, c, n - 1);
    }
  }

  /** One that has lost the race and looks again by then does not wait at all. */
  lemma {:induction false} RetestAfterCompletion(run: seq<State>, c: nat, i: nat, n: nat)
    requires Run(run) && i <= n < |run| && IsAt(run, c, i, Retest) && run[i].completed
    ensures run[n].completed && c in run[n].callers
    ensures run[n].callers[c].Retest? || run[n].callers[c].Returned?
  {
    if i < n {
      RetestAfterCompletion(run, c, i, n - 1);
      StepAt(run, c, n - 1);
    }
  }

  /** In this step the caller makes one timed wait. */
  predicate WaitedAt(run: seq<State>, c: nat, i: nat) {
    && i + 1 < |run| && c in run[i].callers && c in run[i + 1].callers
    && run[i].callers[c].Await? && run[i + 1].callers[c].Await? && run[i + 1].callers[c] != run[i].callers[c]
  }

  /** Its timed waits up to state `n`. */
  function WaitsMade(run: seq<State>, c: nat, n: nat): nat
    requires n < |run|
  {
    if n == 0 then 0 else WaitsMade(run, c, n - 1) + (if WaitedAt(run, c, n - 1) then 1 else 0)
  }

  /** It found a system routine missing, or got no event for its waits. */
  predicate FoundMissing(run: seq<State>, c: nat, n: nat) {
    exists i :: 0 <= i < n && IsAt(run, c, i, Retest) && IsAt(run, c, i + 1, Returned(false))
  }

  predicate RanInitialiser(run: seq<State>, c: nat, n: nat) {
    exists i :: 0 <= i <= n && IsAt(run, c, i, Initialize)
  }

  /** It has looked for the last time, with the flag clear. */
  predicate FoundClear(run: seq<State>, c: nat, n: nat) {
    exists i :: 0 <= i < n && IsAt(run, c, i, Verify) && !run[i].completed && IsAt(run, c, i + 1, Returned(false))
  }

  /** Where a caller can stand, by what it has done. */
  predicate Accounted(run: seq<State>, c: nat, n: nat)
    requires n < |run| && c in run[n].callers
  {
    match run[n].callers[c]
    case TestCompleted | Compete | Retest => WaitsMade(run, c, n) == 0
    case Await(tries) => WaitsMade(run, c, n) == tries <= 0x2000
    case Verify => run[n].completed || WaitsMade(run, c, n) == 0x2000
    case Initialize | Publish => RanInitialiser(run, c, n)
    case Returned(success) =>
      || success || RanInitialiser(run, c, n) || FoundMissing(run, c, n)
      || (WaitsMade(run, c, n) == 0x2000 && FoundClear(run, c, n))
  }

  lemma SameAccount(run: seq<State>, c: nat, n: nat)
    requires Run(run) && 0 < n < |run| && c in run[n - 1].callers && Accounted(run, c, n - 1)
    requires c in run[n].callers && run[n].callers[c] == run[n - 1].callers[c]
    ensures Accounted(run, c, n)
  {
    StepAt(run, c, n - 1);
  }

  lemma StepAccount(run: seq<State>, c: nat, n: nat)
    requires Run(run) && 0 < n < |run| && c in run[n - 1].callers && Accounted(run, c, n - 1)
    requires c in run[n].callers && Step(run[n - 1], run[n], c)
    ensures Accounted(run, c, n)
  {
    match run[n - 1].callers[c] {
      case Compete =>
        if run[n].callers[c].Initialize? {
          assert IsAt(run, c, n, Initialize);
        }
      case Retest =>
        if run[n].callers[c] == Returned(false) {
          assert IsAt(run, c, n - 1, Retest);
        }
      case Verify =>
        if run[n].callers[c] == Returned(false) {
          assert IsAt(run, c, n - 1, Verify);
        }
      case _ =>
    }
  }

  lemma {:induction false} AccountedRun(run: seq<State>, c: nat, n: nat)
    requires Run(run) && n < |run| && c in run[0].callers
    ensures c in run[n].callers && Accounted(run, c, n)
  {
    if n > 0 {
      AccountedRun(run, c, n - 1);
      StepAt(run, c, n - 1);
      if run[n].callers[c] == run[n - 1].callers[c] {
        SameAccount(run, c, n);
      } else {
        StepAccount(run, c, n);
      }
    }
  }

  /**
   A caller that is told failure has run the initialiser, which failed; or found
   a system routine missing; or made exactly 0x2000 timed waits and found the
   flag still clear after them.
   */
  lemma ToldFailure(run: seq<State>, c: nat, n: nat)
    requires Run(run) && n < |run| && c in run[0].callers && IsAt(run, c, n, Returned(false))
    ensures || (RanInitialiser(run, c, n) && run[n].failed)
            || FoundMissing(run, c, n)
            || (WaitsMade(run, c, n) == 0x2000 && FoundClear(run, c, n))
  {
    AccountedRun(run, c, n);
    if i :| 0 <= i <= n && IsAt(run, c, i, Initialize) {
      AfterInitialize(run, c, i, n);
    }
  }

  /** No wait is begun once the flag is set. */
  lemma {:induction false} NoWaitAfterCompletion(run: seq<State>, c: nat, i: nat, n: nat)
    requires Run(run) && i <= n < |run| && c in run[0].callers && run[i].completed
    ensures run[n].completed && WaitsMade(run, c, n) == WaitsMade(run, c, i)
  {
    CallersStay(run, c, n);
    if i < n {
      NoWaitAfterCompletion(run, c, i, n - 1);
      StepAt(run, c, n - 1);
    }
  }

  /** A call that has not ended can take a step, whatever the others have done. */
  lemma NeverStuck(s: State, c: nat)
    requires c in s.callers && !s.callers[c].Returned?
    ensures exists s' :: Step(s, s', c)
  {
    var s' := match s.callers[c]
      case TestCompleted => s.(callers := s.callers[c := if s.completed then Returned(true) else Compete])
      case Compete =>
        if s.started then s.(callers := s.callers[c := Retest])
        else s.(callers := s.callers[c := Initialize], started := true, runs := s.runs + 1)
      case Retest => s.(callers := s.callers[c := if s.completed then Returned(true) else Await(0)])
      case Await(tries) =>
        s.(callers := s.callers[c := if !s.completed && tries < MAX_TRIES then Await(tries + 1) else Verify])
      case Verify => s.(callers := s.callers[c := Returned(s.completed)])
      case Initialize => s.(callers := s.callers[c := Publish], succeeded := true)
      case _ => s.(callers := s.callers[c := Returned(true)], completed := true);
    assert Step(s, s', c);
  }
}
