/**
  The connection race (HappyEyeballs.kt) and the thread that waits for it (Socks5ProxyService.kt):
  any number of attempts share an atomic winner, an abandon flag and a latch. Each step is one
  access to a shared variable, one connect or one close; any thread may go next. There is no
  time: the waiter may give up at any moment, and its 50 ms sleep only matters if it is interrupted.

  A candidate is named by its attempt. `closed` records which candidates were closed.
 */
module HappyEyeballs {
  import opened Octets
  import opened Seqs

  datatype AttemptPoint =
    | Start                    // about to look for a winner
    | LookAbandoned            // no winner seen; about to read the abandon flag
    | Connecting
    | HasCandidate             // connected, about to compare-and-set
    | Won                      // set the winner, about to read the abandon flag
    | GivingUp                 // saw the flag, about to close its candidate
    | Yielding                 // closed it, about to take it back
    | Counting                 // about to open the latch
    | Losing                   // somebody else won, about to close its candidate
    | Finished(connected: bool)

  datatype WaiterPoint =
    | Awaiting
    | Reading(got: bool)       // about to read the winner
    | Abandoning               // about to set the flag
    | Sleeping                 // flag set, about to take the winner away
    | Interrupted              // the sleep threw: returned no socket and took nothing away
    | ClosingLate(late: nat)   // took it, about to close it
    | Gone                     // returned no socket
    | Handing(s: nat)          // about to detach the socket's descriptor
    | ClosingFailed(s: nat)    // that failed, about to close it
    | HandFailed(s: nat)       // returned no socket
    | Returned(s: nat)

  datatype State = State(att: seq<AttemptPoint>, waiter: WaiterPoint, winner: Option<nat>, abandoned: bool, latch: bool, closed: set<nat>)

  /** `choice` is what the environment decides: whether a connect succeeds, the latch is waited for,
      the sleep is not interrupted, the detach works. */
  datatype Action = Attempt(i: nat, choice: bool) | Waiter(choice: bool)

  function Move(st: State, i: nat, p: AttemptPoint): State
    requires i < |st.att|
  {
    st.(att := st.att[i := p])
  }

  ghost predicate Enabled(st: State, a: Action) {
    match a
    case Attempt(i, _) => i < |st.att| && !st.att[i].Finished?
    case Waiter(choice) =>
      match st.waiter
      case Awaiting => choice ==> st.latch
      case Gone => false
      case Interrupted => false
      case HandFailed(_) => false
      case Returned(_) => false
      case _ => true
  }

  function AttemptStep(st: State, i: nat, choice: bool): State
    requires i < |st.att|
  {
    match st.att[i]
    case Start => Move(st, i, if st.winner.Some? then Finished(false) else LookAbandoned)
    case LookAbandoned => Move(st, i, if st.abandoned then Finished(false) else Connecting)
    case Connecting => Move(st, i, if choice then HasCandidate else Finished(false))
    case HasCandidate =>
      if st.winner.None? then Move(st, i, Won).(winner := Some(i)) else Move(st, i, Losing)
    case Won => Move(st, i, if st.abandoned then GivingUp else Counting)
    case GivingUp => Move(st, i, Yielding).(closed := st.closed + {i})
    case Yielding => Move(st, i, Finished(true)).(winner := if st.winner == Some(i) then None else st.winner)
    case Counting => Move(st, i, Finished(true)).(latch := true)
    case Losing => Move(st, i, Finished(true)).(closed := st.closed + {i})
    case Finished(_) => st
  }

  function WaiterStep(st: State, choice: bool): State {
    match st.waiter
    case Awaiting => st.(waiter := Reading(choice))
    case Reading(got) => st.(waiter := if got && st.winner.Some? then Handing(st.winner.value) else Abandoning)
    case Abandoning => st.(waiter := Sleeping, abandoned := true)
    case Sleeping =>
      if !choice then st.(waiter := Interrupted)
      else st.(waiter := if st.winner.Some? then ClosingLate(st.winner.value) else Gone, winner := None)
    case ClosingLate(s) => st.(waiter := Gone, closed := st.closed + {s})
    case Handing(s) => st.(waiter := if choice then Returned(s) else ClosingFailed(s))
    case ClosingFailed(s) => st.(waiter := HandFailed(s), closed := st.closed + {s})
    case _ => st
  }

  function Apply(st: State, a: Action): State
    requires a.Attempt? ==> a.i < |st.att|
  {
    match a
    case Attempt(i, choice) => AttemptStep(st, i, choice)
    case Waiter(choice) => WaiterStep(st, choice)
  }

  // ----- the invariant -----

  /** The attempt has connected. */
  predicate Connected(p: AttemptPoint) {
    match p
    case Start => false
    case LookAbandoned => false
    case Connecting => false
    case Finished(c) => c
    case _ => true
  }

  /** The attempt's candidate has been made the winner at some time. */
  predicate HasWon(p: AttemptPoint) {
    p.Won? || p.GivingUp? || p.Yielding? || p.Counting? || p == Finished(true)
  }

  /** The waiter has taken the winner away for good. */
  predicate Swapped(w: WaiterPoint) { w.ClosingLate? || w.Gone? }

  /** Somebody else is responsible for candidate i: it is the winner still, or the waiter is about to close it, or it is closed. */
  predicate Cared(st: State, i: nat) {
    i in st.closed || (if Swapped(st.waiter) then st.waiter == ClosingLate(i) else st.winner == Some(i))
  }

  predicate AttemptOk(st: State, i: nat)
    requires i < |st.att|
  {
    match st.att[i]
    case Won => st.abandoned || (st.winner == Some(i) && (i in st.closed ==> st.waiter == HandFailed(i)))
    case GivingUp => st.abandoned
    case Yielding => st.abandoned && i in st.closed
    case Counting => Cared(st, i) && (st.abandoned || st.winner == Some(i))
    case Finished(true) => Cared(st, i)
    case _ => i !in st.closed && st.winner != Some(i) && st.waiter != ClosingLate(i)
  }

  predicate WaiterOk(st: State) {
    && (st.abandoned <==> st.waiter.Sleeping? || st.waiter.Interrupted? || Swapped(st.waiter))
    && (st.latch && !st.abandoned ==> st.winner.Some?)
    && (st.winner.Some? ==> st.winner.value < |st.att| && HasWon(st.att[st.winner.value]))
    && OpenWinner(st)
    && match st.waiter
       case Reading(got) => Fresh(st) && (got ==> st.latch)
       case Awaiting => Fresh(st)
       case Abandoning => Fresh(st)
       case ClosingLate(s) => s < |st.att| && HasWon(st.att[s]) && st.winner != Some(s)
       case Handing(s) => st.winner == Some(s) && s !in st.closed
       case ClosingFailed(s) => st.winner == Some(s) && s !in st.closed
       case Returned(s) => st.winner == Some(s) && s !in st.closed
       case HandFailed(s) => st.winner == Some(s) && s in st.closed
       case _ => true
  }

  /** The present winner is open, unless its attempt is taking it back or handing it over failed. */
  predicate OpenWinner(st: State) {
    st.winner.Some? && st.winner.value in st.closed ==>
      st.waiter == HandFailed(st.winner.value) || (st.winner.value < |st.att| && st.att[st.winner.value].Yielding?)
  }

  /** The present winner has not been closed. */
  predicate Fresh(st: State) { st.winner.Some? ==> st.winner.value !in st.closed }

  ghost predicate Inv(st: State) {
    WaiterOk(st) && forall i :: 0 <= i < |st.att| ==> AttemptOk(st, i)
  }

  lemma AttemptKeeps(st: State, i: nat, choice: bool)
    requires Inv(st) && i < |st.att|
    ensures Inv(AttemptStep(st, i, choice))
  {
    assert AttemptOk(st, i);
    AttemptKeepsWaiter(st, i, choice);
    var st' := AttemptStep(st, i, choice);
    forall j | 0 <= j < |st'.att| ensures AttemptOk(st', j) {
      assert AttemptOk(st, j);
      if j != i { OthersKeep(st, i, choice, j); }
    }
  }

  lemma AttemptKeepsWaiter(st: State, i: nat, choice: bool)
    requires WaiterOk(st) && i < |st.att| && AttemptOk(st, i)
    ensures WaiterOk(AttemptStep(st, i, choice))
  {
  }

  lemma OthersKeep(st: State, i: nat, choice: bool, j: nat)
    requires WaiterOk(st) && i < |st.att| && j < |st.att| && i != j && AttemptOk(st, i) && AttemptOk(st, j)
    ensures AttemptOk(AttemptStep(st, i, choice), j)
  {
  }

  lemma WaiterKeeps(st: State, choice: bool)
    requires Inv(st) && Enabled(st, Waiter(choice))
    ensures Inv(WaiterStep(st, choice))
  {
    var st' := WaiterStep(st, choice);
    forall j | 0 <= j < |st'.att| ensures AttemptOk(st', j) {
      assert AttemptOk(st, j);
    }
  }

  // ----- runs -----

  function Boot(attempts: nat): State {
    State(seq(attempts, _ => Start), Awaiting, None, false, false, {})
  }

  ghost predicate StepAt(st: State, a: Action, st': State) { Enabled(st, a) && st' == Apply(st, a) }

  ghost predicate Run(states: seq<State>, acts: seq<Action>) {
    && |states| == |acts| + 1
    && (exists n: nat :: states[0] == Boot(n))
    && forall k {:trigger acts[k]} :: 0 <= k < |acts| ==> StepAt(states[k], acts[k], states[k + 1])
  }

  lemma {:induction false} RunInv(states: seq<State>, acts: seq<Action>, k: nat)
    requires Run(states, acts) && k < |states|
    ensures Inv(states[k])
  {
    if k > 0 {
      RunInv(states, acts, k - 1);
      var st, a := states[k - 1], acts[k - 1];
      assert StepAt(st, a, states[k]);
      match a
      case Attempt(i, choice) => AttemptKeeps(st, i, choice);
      case Waiter(choice) => WaiterKeeps(st, choice);
    }
  }

  /** Everybody is done: no attempt runs and the waiter has returned. */
  ghost predicate AllDone(st: State) {
    (st.waiter.Gone? || st.waiter.Interrupted? || st.waiter.HandFailed? || st.waiter.Returned?) && forall i :: 0 <= i < |st.att| ==> st.att[i].Finished?
  }

  /**
    No socket is taken from the caller, and none leaks unless the waiter's sleep was interrupted:
    at the end the open candidates are exactly the one returned, or the winner left behind then.
   */
  lemma OnlyTheReturnedStaysOpen(states: seq<State>, acts: seq<Action>, k: nat, st: State, i: nat)
    requires Run(states, acts) && k < |states| && st == states[k] && AllDone(st) && i < |st.att| && Connected(st.att[i])
    ensures i !in st.closed <==> st.waiter == Returned(i) || (st.waiter == Interrupted && st.winner == Some(i))
  {
    RunInv(states, acts, k);
    assert AttemptOk(st, i);
  }

  /** Such a run: the only attempt wins after the waiter has timed out, and the waiter's sleep is interrupted. */
  lemma InterruptLeaks() returns (states: seq<State>, acts: seq<Action>)
    ensures Run(states, acts) && AllDone(states[|acts|])
    ensures var st := states[|acts|]; st.waiter == Interrupted && st.att == [Finished(true)] && st.winner == Some(0) && 0 !in st.closed
  {
    var s0 := Boot(1);
    var go, timeout := Attempt(0, true), Waiter(false);
    var s1 := Apply(s0, timeout);
    var s2 := Apply(s1, go);
    var s3 := Apply(s2, go);
    var s4 := Apply(s3, go);
    var s5 := Apply(s4, go);
    var s6 := Apply(s5, go);
    var s7 := Apply(s6, go);
    assert s7 == State([Finished(true)], Reading(false), Some(0), false, true, {});
    var s8 := Apply(s7, timeout);
    var s9 := Apply(s8, timeout);
    var s10 := Apply(s9, timeout);
    states := [s0, s1, s2, s3, s4, s5, s6, s7, s8, s9, s10];
    acts := [timeout, go, go, go, go, go, go, timeout, timeout, timeout];
    assert StepAt(s0, timeout, s1) && StepAt(s7, timeout, s8) && StepAt(s8, timeout, s9) && StepAt(s9, timeout, s10);
    assert StepAt(s1, go, s2) && StepAt(s2, go, s3) && StepAt(s3, go, s4) && StepAt(s4, go, s5) && StepAt(s5, go, s6) && StepAt(s6, go, s7);
  }

  /** The socket returned did connect, and nobody closes it then or at any later moment. */
  lemma {:induction false} ReturnedIsNeverClosed(states: seq<State>, acts: seq<Action>, k: nat, m: nat, s: nat)
    requires Run(states, acts) && k <= m < |states| && states[k].waiter == Returned(s)
    ensures states[m].waiter == Returned(s) && s !in states[m].closed
    ensures s < |states[m].att| && Connected(states[m].att[s])
    decreases m - k
  {
    RunInv(states, acts, k);
    if k < m {
      assert StepAt(states[k], acts[k], states[k + 1]);
      ReturnedIsNeverClosed(states, acts, k + 1, m, s);
    }
  }

  /** A candidate that never connected is never closed or returned. */
  lemma OnlyConnectedAreTouched(states: seq<State>, acts: seq<Action>, k: nat, st: State, i: nat)
    requires Run(states, acts) && k < |states| && st == states[k] && i < |st.att| && !Connected(st.att[i])
    ensures i !in st.closed && st.winner != Some(i) && st.waiter != Returned(i)
  {
    RunInv(states, acts, k);
    assert AttemptOk(st, i);
  }

  /** If the waiter saw the latch open, it goes on to hand over a socket: giving up is only for those who did not. */
  lemma LatchMeansWinner(states: seq<State>, acts: seq<Action>, k: nat, st: State)
    requires Run(states, acts) && k < |states| && st == states[k] && st.waiter == Reading(true)
    ensures WaiterStep(st, true).waiter.Handing?
  {
    RunInv(states, acts, k);
  }

  // ----- a race that is won returns its socket -----

  /** Handing a socket over fails only if the detach did. */
  lemma {:induction false} FailedDetach(states: seq<State>, acts: seq<Action>, k: nat, s: nat) returns (j: nat)
    requires Run(states, acts) && k < |states| && (states[k].waiter == ClosingFailed(s) || states[k].waiter == HandFailed(s))
    ensures j < k && states[j].waiter == Handing(s) && acts[j] == Waiter(false)
  {
    j := 0;
    if k > 0 {
      assert StepAt(states[k - 1], acts[k - 1], states[k]);
      if states[k - 1].waiter == Handing(s) { j := k - 1; } else { j := FailedDetach(states, acts, k - 1, s); }
    }
  }

  /** Once the waiter has seen the latch open it is on its way to return the winner. */
  predicate OnItsWay(w: WaiterPoint) { w == Reading(true) || w.Handing? || w.ClosingFailed? || w.HandFailed? || w.Returned? }

  lemma {:induction false} StaysOnItsWay(states: seq<State>, acts: seq<Action>, j: nat, k: nat)
    requires Run(states, acts) && j < k < |states| && states[j].waiter == Awaiting && acts[j] == Waiter(true)
    ensures OnItsWay(states[k].waiter)
  {
    assert StepAt(states[k - 1], acts[k - 1], states[k]);
    if j < k - 1 {
      StaysOnItsWay(states, acts, j, k - 1);
      RunInv(states, acts, k - 1);
    }
  }

  /** If the waiter saw the latch open and no detach failed, the race ends with a connected, open socket returned. */
  lemma WonRaceReturns(states: seq<State>, acts: seq<Action>, j: nat, k: nat)
    requires Run(states, acts) && j < k < |states| && states[j].waiter == Awaiting && acts[j] == Waiter(true) && AllDone(states[k])
    requires forall q :: 0 <= q < k && states[q].waiter.Handing? ==> acts[q] != Waiter(false)
    ensures states[k].waiter.Returned? && states[k].waiter.s < |states[k].att|
    ensures Connected(states[k].att[states[k].waiter.s]) && states[k].waiter.s !in states[k].closed
  {
    StaysOnItsWay(states, acts, j, k);
    RunInv(states, acts, k);
    if states[k].waiter.HandFailed? {
      var q := FailedDetach(states, acts, k, states[k].waiter.s);
    }
  }

  /** Attempt 0 has won and been returned; those before i have seen that and done nothing. */
  function WonBy(n: nat, i: nat): State
    requires n > 0
  {
    State(seq(n, x requires 0 <= x < n => if x == 0 then Finished(true) else if x < i then Finished(false) else Start),
          Returned(0), Some(0), false, true, {})
  }

  /** For any number of attempts there is such a race. */
  lemma SomeRaceIsWon(n: nat) returns (states: seq<State>, acts: seq<Action>)
    requires n > 0
    ensures Run(states, acts) && |states[|acts|].att| == n && AllDone(states[|acts|]) && states[|acts|].waiter == Returned(0)
  {
    states, acts := WinTo(n, n);
  }

  lemma {:induction false} WinTo(n: nat, i: nat) returns (states: seq<State>, acts: seq<Action>)
    requires 1 <= i <= n
    ensures Run(states, acts) && states[|acts|] == WonBy(n, i)
  {
    if i == 1 {
      states, acts := FirstWins(n);
    } else {
      states, acts := WinTo(n, i - 1);
      var a := Attempt(i - 1, true);
      assert AttemptStep(WonBy(n, i - 1), i - 1, true).att == WonBy(n, i).att;
      states, acts := Extend(states, acts, a, WonBy(n, i));
    }
  }

  lemma Extend(states: seq<State>, acts: seq<Action>, a: Action, st: State) returns (states': seq<State>, acts': seq<Action>)
    requires Run(states, acts) && StepAt(states[|acts|], a, st)
    ensures Run(states', acts') && states'[|acts'|] == st
  {
    states', acts' := states + [st], acts + [a];
    forall k {:trigger acts'[k]} | 0 <= k < |acts'| ensures StepAt(states'[k], acts'[k], states'[k + 1]) {
      if k < |acts| { assert StepAt(states[k], acts[k], states[k + 1]); }
    }
  }

  /** The first attempt connects and opens the latch, and the waiter takes its socket. */
  lemma FirstWins(n: nat) returns (states: seq<State>, acts: seq<Action>)
    requires n > 0
    ensures Run(states, acts) && states[|acts|] == WonBy(n, 1)
  {
    var go, wait := Attempt(0, true), Waiter(true);
    var s0 := Boot(n);
    var s1 := Apply(s0, go);
    var s2 := Apply(s1, go);
    var s3 := Apply(s2, go);
    var s4 := Apply(s3, go);
    var s5 := Apply(s4, go);
    var s6 := Apply(s5, go);
    assert s6.att == WonBy(n, 1).att && s6.winner == Some(0) && s6.latch && !s6.abandoned && s6.closed == {} && s6.waiter == Awaiting;
    var s7 := Apply(s6, wait);
    var s8 := Apply(s7, wait);
    var s9 := Apply(s8, wait);
    states := [s0, s1, s2, s3, s4, s5, s6, s7, s8, s9];
    acts := [go, go, go, go, go, go, wait, wait, wait];
    assert StepAt(s0, go, s1) && StepAt(s1, go, s2) && StepAt(s2, go, s3) && StepAt(s3, go, s4) && StepAt(s4, go, s5) && StepAt(s5, go, s6);
    assert StepAt(s6, wait, s7) && StepAt(s7, wait, s8) && StepAt(s8, wait, s9);
  }

  /** An attempt that starts after a socket was returned or the race was abandoned never so much as tries to connect. */
  lemma {:induction false} LateStarterDoesNothing(states: seq<State>, acts: seq<Action>, k: nat, m: nat, i: nat)
    requires Run(states, acts) && k <= m < |states| && i < |states[k].att| && states[k].att[i] == Start
    requires states[k].waiter.Returned? || states[k].abandoned
    ensures i < |states[m].att| && states[m].att[i] in {Start, LookAbandoned, Finished(false)}
    ensures states[k].abandoned ==> states[m].abandoned
    ensures states[k].waiter.Returned? ==> states[m].waiter.Returned? && states[m].att[i] != LookAbandoned
  {
    if k < m {
      LateStarterDoesNothing(states, acts, k, m - 1, i);
      RunInv(states, acts, m - 1);
      assert StepAt(states[m - 1], acts[m - 1], states[m]);
    }
  }

  // ----- everybody does finish -----

  function AttemptLeft(p: AttemptPoint): nat {
    match p
    case Start => 7
    case LookAbandoned => 6
    case Connecting => 5
    case HasCandidate => 4
    case Won => 3
    case GivingUp => 2
    case Finished(_) => 0
    case _ => 1
  }

  function WaiterLeft(w: WaiterPoint): nat {
    match w
    case Awaiting => 6
    case Reading(_) => 5
    case Abandoning => 4
    case Sleeping => 3
    case Handing(_) => 2
    case ClosingLate(_) => 1
    case ClosingFailed(_) => 1
    case _ => 0
  }

  function Left(st: State): nat { Sum(st.att, AttemptLeft) + WaiterLeft(st.waiter) }

  lemma {:induction false} BootLeft(att: seq<AttemptPoint>)
    requires forall i :: 0 <= i < |att| ==> att[i] == Start
    ensures Sum(att, AttemptLeft) == 7 * |att|
  {
    if att != [] { BootLeft(att[1..]); }
  }

  /** However the threads interleave, a race of n attempts is over within 7n + 6 steps. */
  lemma {:induction false} RaceEnds(states: seq<State>, acts: seq<Action>, k: nat)
    requires Run(states, acts) && k < |states|
    ensures Left(states[k]) + k <= 7 * |states[0].att| + 6
  {
    if k == 0 {
      BootLeft(states[0].att);
    } else {
      RaceEnds(states, acts, k - 1);
      assert StepAt(states[k - 1], acts[k - 1], states[k]);
      StepShortens(states[k - 1], acts[k - 1]);
    }
  }

  lemma StepShortens(st: State, a: Action)
    requires Enabled(st, a)
    ensures Left(Apply(st, a)) < Left(st)
  {
    match a
    case Attempt(i, choice) => AttemptShortens(st, i, choice);
    case Waiter(choice) => assert WaiterStep(st, choice).att == st.att;
  }

  lemma AttemptShortens(st: State, i: nat, choice: bool)
    requires i < |st.att| && !st.att[i].Finished?
    ensures Left(AttemptStep(st, i, choice)) < Left(st)
  {
    var p := AttemptPointAfter(st, i, choice);
    SumUpdate(st.att, i, p, AttemptLeft);
  }

  lemma AttemptPointAfter(st: State, i: nat, choice: bool) returns (p: AttemptPoint)
    requires i < |st.att| && !st.att[i].Finished?
    ensures AttemptStep(st, i, choice).att == st.att[i := p] && AttemptStep(st, i, choice).waiter == st.waiter
    ensures AttemptLeft(p) < AttemptLeft(st.att[i])
  {
    p := AttemptStep(st, i, choice).att[i];
  }

  /** And it stops only when all are done: nobody can be stuck. */
  lemma NobodyIsStuck(st: State)
    requires forall a :: !Enabled(st, a)
    ensures AllDone(st)
  {
    assert !Enabled(st, Waiter(false));
    forall i | 0 <= i < |st.att| ensures st.att[i].Finished? { assert !Enabled(st, Attempt(i, true)); }
  }
}
