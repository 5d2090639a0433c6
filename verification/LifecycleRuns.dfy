/** What holds over whole runs of the lifecycle steps, and exactly where it stops holding. */
module LifecycleRuns {
  import opened Seqs
  import opened Lifecycle
  import opened LifecycleSafety

  // ----- start-up -----

  function Iota(n: nat): seq<nat> { seq(n, i requires 0 <= i < n => i) }

  lemma {:induction false} IotaNoDup(lo: nat, n: nat)
    requires lo <= n
    ensures NoDup(Iota(n)[lo..])
    decreases n - lo
  {
    if lo < n {
      IotaNoDup(lo + 1, n);
      assert Iota(n)[lo..][1..] == Iota(n)[lo + 1..];
      var tail := Iota(n)[lo + 1..];
      assert forall j :: 0 <= j < |tail| ==> tail[j] > lo;
    }
  }

  /** Empty tables, four workers at the top of their loop, any number of handshake threads. */
  function Boot(threads: nat): State {
    State(seq(SLOT_COUNT, _ => Slot(1, 0, false, 0, false, false, 0, false)), Iota(SLOT_COUNT), 0, true,
          seq(WORKER_COUNT, _ => Worker(Top, [], [], [], Unlocked, false)),
          seq(threads, _ => Idle), seq(WORKER_COUNT + threads, _ => NoFin),
          0, 0, 0, 0, 0,
          seq(SLOT_COUNT, _ => Stack), seq(SLOT_COUNT, _ => 1), seq(SLOT_COUNT, _ => 1),
          seq(SLOT_COUNT, _ => []), {})
  }

  lemma BootFree(threads: nat)
    ensures FreeOk(Boot(threads))
    ensures forall s :: 0 <= s < SLOT_COUNT ==> s in Boot(threads).free
  {
    IotaNoDup(0, SLOT_COUNT);
    assert Iota(SLOT_COUNT)[0..] == Iota(SLOT_COUNT);
    forall s | 0 <= s < SLOT_COUNT ensures s in Iota(SLOT_COUNT) { assert Iota(SLOT_COUNT)[s] == s; }
  }

  lemma BootInv(threads: nat)
    ensures Inv(Boot(threads))
  {
    BootFree(threads);
  }

  // ----- runs -----

  ghost predicate StepAt(st: State, a: Action, st': State) { Enabled(st, a) && st' == Apply(st, a) }

  /** Any interleaving of any steps, from start-up on. */
  ghost predicate Path(states: seq<State>, acts: seq<Action>) {
    && |states| == |acts| + 1
    && (exists threads: nat :: states[0] == Boot(threads))
    && forall k {:trigger acts[k]} :: 0 <= k < |acts| ==> StepAt(states[k], acts[k], states[k + 1])
  }

  /** So far no connection was drained while its handshake thread still owed it the `registered` store. */
  ghost predicate Punctual(states: seq<State>, acts: seq<Action>, k: nat)
    requires k <= |acts| < |states|
  {
    forall j :: 0 <= j < k ==> !Hasty(states[j], acts[j])
  }

  /**
    What the results below ask of the k-th step: a worker leaves through the loop condition with an
    empty bucket only, and after a connection was drained too early no slot that is still owed the
    store is initialized. Nothing is asked of any other step.
   */
  ghost predicate Allowed(states: seq<State>, acts: seq<Action>, k: nat)
    requires k < |acts| < |states|
  {
    Enabled(states[k], acts[k]) ==>
      match acts[k]
      case ByLoop(w, Leave) => states[k].workers[w].garbage == []
      case ByHandshake(t, Init(_, _)) => Punctual(states, acts, k) || NoStraggler(states[k], states[k].hands[t].s)
      case _ => true
  }

  ghost predicate Run(states: seq<State>, acts: seq<Action>) {
    Path(states, acts) && forall k :: 0 <= k < |acts| ==> Allowed(states, acts, k)
  }

  /** State st is the k-th of a run. (That its tables have their sizes is implied, and said for the reader.) */
  ghost predicate Reached(states: seq<State>, acts: seq<Action>, k: nat, st: State) {
    Run(states, acts) && k < |states| && st == states[k] && Shape(st)
  }

  lemma {:induction false} RunInv(states: seq<State>, acts: seq<Action>, k: nat)
    requires Run(states, acts) && k < |states|
    ensures Inv(states[k])
    ensures Punctual(states, acts, k) ==> Prompt(states[k])
  {
    if k == 0 {
      var threads: nat :| states[0] == Boot(threads);
      BootInv(threads);
    } else {
      var st, a := states[k - 1], acts[k - 1];
      RunInv(states, acts, k - 1);
      assert StepAt(st, a, states[k]) && Allowed(states, acts, k - 1);
      if a.ByHandshake? && a.h.Init? && Punctual(states, acts, k - 1) { PromptIsOrderly(st, a.t, a.h.w, a.h.buffers); }
      StepKeeps(st, a);
      if Punctual(states, acts, k) { PromptKeeps(st, a); }
    }
  }

  /** A server that has not begun to shut its workers down needs no assumption: every interleaving is a run. */
  lemma RunningServer(states: seq<State>, acts: seq<Action>)
    requires Path(states, acts)
    requires forall k :: 0 <= k < |acts| && acts[k].ByLoop? ==> acts[k].a != Leave && acts[k].a != DrainTake
    ensures Run(states, acts)
  {
    forall k | 0 <= k < |acts| ensures Allowed(states, acts, k) {
      assert forall j :: 0 <= j < k ==> !Hasty(states[j], acts[j]);
    }
  }

  // ----- shutting down in order -----

  lemma {:induction false} PathShape(states: seq<State>, acts: seq<Action>, k: nat)
    requires Path(states, acts) && k < |states|
    ensures Shape(states[k])
  {
    if k > 0 {
      PathShape(states, acts, k - 1);
      assert StepAt(states[k - 1], acts[k - 1], states[k]);
      HandsAfter(states[k - 1], acts[k - 1]);
    }
  }

  lemma LeavingStep(st: State, a: Action, w: nat)
    requires Shape(st) && Enabled(st, a) && w < WORKER_COUNT
    ensures Shape(Apply(st, a)) && (Leaving(Apply(st, a).workers[w].pc) ==> Leaving(st.workers[w].pc) || a == ByLoop(w, SetStopping))
  {
    HandsAfter(st, a);
    match a
    case ByHandshake(t, h) => HandPoints(st, t, h, w);
    case ByLoop(v, l) => LoopPoints(st, v, l, w);
    case FinStep(i) =>
    case _ =>
  }

  lemma HandPoints(st: State, t: nat, h: HandAction, w: nat)
    requires Shape(st) && HandEnabled(st, t, h) && w < WORKER_COUNT
    ensures var st' := HandStep(st, t, h); |st'.workers| == WORKER_COUNT && st'.workers[w].pc == st.workers[w].pc
  {
  }

  lemma LoopPoints(st: State, v: nat, l: WorkerAction, w: nat)
    requires Shape(st) && WorkerEnabled(st, v, l) && w < WORKER_COUNT
    ensures var st' := WorkerStep(st, v, l);
            |st'.workers| == WORKER_COUNT &&
            (Leaving(st'.workers[w].pc) ==> Leaving(st.workers[w].pc) || (v == w && l == SetStopping))
  {
    match l
    case Fail =>
    case SweepNext(expired) => assert !Leaving(DoSweep(st, v, expired).workers[v].pc);
    case WorkerUnref => assert Leaving(Advance(st.workers[v].pc)) == Leaving(st.workers[v].pc);
    case DrainTake =>
    case _ => assert WorkerStep(st, v, l) == SetWorker(st, v, WorkerStep(st, v, l).workers[v]);
  }

  lemma LeavingAt(states: seq<State>, acts: seq<Action>, k: nat, w: nat)
    requires Path(states, acts) && k < |acts| && w < WORKER_COUNT
    ensures Shape(states[k]) && Shape(states[k + 1])
    ensures Leaving(states[k + 1].workers[w].pc) ==> Leaving(states[k].workers[w].pc) || acts[k] == ByLoop(w, SetStopping)
  {
    PathShape(states, acts, k);
    assert StepAt(states[k], acts[k], states[k + 1]);
    LeavingStep(states[k], acts[k], w);
  }

  ghost predicate Stops(acts: seq<Action>, k: nat, w: nat) {
    exists j :: 0 <= j < k && j < |acts| && acts[j] == ByLoop(w, SetStopping)
  }

  /** A worker on its way out has set its stopping flag at some step. */
  lemma {:induction false} StoppedBefore(states: seq<State>, acts: seq<Action>, k: nat, w: nat)
    requires Path(states, acts) && k < |states| && w < WORKER_COUNT && Shape(states[k]) && Leaving(states[k].workers[w].pc)
    ensures Stops(acts, k, w)
  {
    if k > 0 {
      LeavingAt(states, acts, k - 1, w);
      if acts[k - 1] != ByLoop(w, SetStopping) {
        StoppedBefore(states, acts, k - 1, w);
        var j :| 0 <= j < k - 1 && j < |acts| && acts[j] == ByLoop(w, SetStopping);
        assert j < k;
      }
    }
  }

  lemma {:induction false} HandsStay(states: seq<State>, acts: seq<Action>, j: nat, k: nat)
    requires Path(states, acts) && j <= k < |states| && forall i :: j <= i < k ==> !acts[i].ByHandshake?
    ensures states[k].hands == states[j].hands
  {
    if j < k {
      HandsStay(states, acts, j, k - 1);
      PathShape(states, acts, k - 1);
      assert StepAt(states[k - 1], acts[k - 1], states[k]);
      HandsAfter(states[k - 1], acts[k - 1]);
    }
  }

  /**
    A server whose handshake pool is empty before the first worker sets its stopping flag needs
    only the assumption about the bucket.
   */
  lemma PoolFirst(states: seq<State>, acts: seq<Action>)
    requires Path(states, acts)
    requires forall k :: 0 <= k < |acts| && acts[k].ByLoop? && acts[k].a == Leave ==> Allowed(states, acts, k)
    requires forall j, k :: 0 <= j <= k < |acts| && acts[j].ByLoop? && acts[j].a == SetStopping ==> !acts[k].ByHandshake?
    requires forall j, t :: 0 <= j < |acts| && acts[j].ByLoop? && acts[j].a == SetStopping && 0 <= t < |states[j].hands| ==>
               states[j].hands[t] == Idle
    ensures Run(states, acts)
  {
    forall k | 0 <= k < |acts| ensures !Hasty(states[k], acts[k]) {
      if acts[k].ByLoop? && acts[k].a == DrainTake {
        var w := acts[k].w;
        PathShape(states, acts, k);
        assert StepAt(states[k], acts[k], states[k + 1]);
        StoppedBefore(states, acts, k, w);
        var j :| 0 <= j < k && j < |acts| && acts[j] == ByLoop(w, SetStopping);
        HandsStay(states, acts, j, k);
      }
    }
    forall k | 0 <= k < |acts| ensures Allowed(states, acts, k) { }
  }

  lemma DeadGrows(st: State, a: Action)
    requires Enabled(st, a)
    ensures st.dead <= Apply(st, a).dead
  {
    match a
    case ByHandshake(t, h) => HandDeadGrows(st, t, h);
    case ByLoop(w, l) => LoopDeadGrows(st, w, l);
    case FinStep(i) =>
    case _ =>
  }

  lemma HandDeadGrows(st: State, t: nat, a: HandAction)
    requires HandEnabled(st, t, a)
    ensures st.dead <= HandStep(st, t, a).dead
  {
  }

  lemma LoopDeadGrows(st: State, w: nat, a: WorkerAction)
    requires WorkerEnabled(st, w, a)
    ensures st.dead <= WorkerStep(st, w, a).dead
  {
  }

  lemma DeadGrowsAt(states: seq<State>, acts: seq<Action>, k: nat)
    requires Path(states, acts) && k < |acts|
    ensures states[k].dead <= states[k + 1].dead
  {
    assert StepAt(states[k], acts[k], states[k + 1]);
    DeadGrows(states[k], acts[k]);
  }

  lemma {:induction false} RunDeadGrows(states: seq<State>, acts: seq<Action>, j: nat, k: nat)
    requires Path(states, acts) && j <= k < |states|
    ensures states[j].dead <= states[k].dead
  {
    if j < k {
      RunDeadGrows(states, acts, j, k - 1);
      DeadGrowsAt(states, acts, k - 1);
    }
  }

  // ----- main results -----

  /**
    An event stamped for an incarnation that was closed at some moment of the run is never
    classified PROCESS at that moment or later, by any worker, whatever the slot is used for since.
   */
  lemma ClosedIncarnationNeverProcessed(states: seq<State>, acts: seq<Action>, j: nat, k: nat, w: nat, s: nat, g: nat)
    requires Run(states, acts) && j <= k < |states| && (s, g) in states[j].dead
    ensures Classify(states[k], w, s, g) != Process
  {
    RunInv(states, acts, k);
    RunDeadGrows(states, acts, j, k);
    assert DeadOk(states[k]);
    if Classify(states[k], w, s, g) == Process {
      ProcessMeansListed(states[k], w, s, g);
    }
  }

  /** While a connection's closed flag is set its incarnation counts as closed. */
  lemma ClosedFlagIsRecorded(states: seq<State>, acts: seq<Action>, k: nat, st: State, s: nat)
    requires Reached(states, acts, k, st) && s < SLOT_COUNT && st.slots[s].active && st.slots[s].closed
    ensures (s, st.slots[s].gen) in st.dead
  {
    RunInv(states, acts, k);
    assert SlotOk(st, s) && LogOk(st, s);
  }

  /**
    Exactly once: of the incarnations a slot has had, those before the current one are in its
    release log, the current one is there exactly when the slot is on the free stack, and
    nothing is there twice. The guard against finalizing twice never fires.
   */
  lemma ReleasedExactlyOnce(states: seq<State>, acts: seq<Action>, k: nat, st: State, s: nat, g: nat)
    requires Reached(states, acts, k, st) && s < SLOT_COUNT
    ensures g in st.log[s] <==> st.base[s] < g <= st.epoch[s] && (g < st.epoch[s] || s in st.free)
    ensures forall i, j :: 0 <= i < j < |st.log[s]| ==> st.log[s][i] != st.log[s][j]
    ensures st.doubleFin == 0
  {
    RunInv(states, acts, k);
    assert SlotOk(st, s) && LogOk(st, s) && FreeOk(st);
    if st.base[s] < g <= st.epoch[s] && (g < st.epoch[s] || s in st.free) {
      assert st.log[s][g - st.base[s] - 1] == g;
    }
  }

  /** A slot is never both free and in use, and never on the stack twice. */
  lemma FreeStackIsSound(states: seq<State>, acts: seq<Action>, k: nat, st: State, s: nat)
    requires Reached(states, acts, k, st) && s in st.free
    ensures NoDup(st.free) && s < SLOT_COUNT && !st.slots[s].active
    ensures forall w :: 0 <= w < WORKER_COUNT ==> s !in st.workers[w].list && s !in Pending(st.workers[w])
  {
    RunInv(states, acts, k);
    assert FreeOk(st);
    assert SlotOk(st, s);
    forall w | 0 <= w < WORKER_COUNT ensures s !in st.workers[w].list && s !in Pending(st.workers[w]) {
      assert WorkerOk(st, w);
      assert forall y :: y in st.workers[w].list ==> ListedOk(st, w, y);
    }
  }

  /** conn_finalize never runs in a thread that holds the list lock it needs, and finds its connection unlinked. */
  lemma FinalizeIsUnlinkedAndUnlocked(states: seq<State>, acts: seq<Action>, k: nat, st: State, i: nat)
    requires Reached(states, acts, k, st) && FinEnabled(st, i) && st.fin[i].Exchanged?
    ensures !StillLinked(st, st.fin[i].s)
    ensures i < WORKER_COUNT ==> st.workers[i].lock != ByWorker
  {
    RunInv(states, acts, k);
    var s := st.fin[i].s;
    assert FinOk(st, i) && FreeOk(st);
    assert SlotOk(st, s) && LogOk(st, s);
    assert WorkerOk(st, st.slots[s].widx);
    NeverStillLinked(st, i, s);
    if i < WORKER_COUNT { assert WorkerOk(st, i); }
  }

  /** The timeout scan never stands on a connection that left the list, even across its unlock. */
  lemma SweepCursorIsListed(states: seq<State>, acts: seq<Action>, k: nat, st: State, w: nat)
    requires Reached(states, acts, k, st) && w < WORKER_COUNT
    ensures st.workers[w].pc.Sweep? && st.workers[w].pc.cur >= 0 ==> st.workers[w].pc.cur in st.workers[w].list
    ensures st.workers[w].pc.Flush? && st.workers[w].pc.next >= 0 ==> st.workers[w].pc.next in st.workers[w].list
  {
    RunInv(states, acts, k);
    assert WorkerOk(st, w);
  }

  /** A worker that has exited left no connection behind: none listed, none waiting to be unref'd. */
  lemma ExitedWorkerLeavesNothing(states: seq<State>, acts: seq<Action>, k: nat, st: State, w: nat, s: nat)
    requires Reached(states, acts, k, st) && w < WORKER_COUNT && s < SLOT_COUNT && st.workers[w].pc == Exited
    ensures st.workers[w].list == []
    ensures st.owner[s] != Listed(w) && st.owner[s] != Bucket(w) && st.owner[s] != Finalizer(w)
  {
    RunInv(states, acts, k);
    assert WorkerOk(st, w);
    assert SlotOk(st, s);
  }

  /** The slot behind the event a worker is handling is its own live connection, and not one that was closed. */
  lemma HandledIsAlive(states: seq<State>, acts: seq<Action>, k: nat, st: State, w: nat)
    requires Reached(states, acts, k, st) && w < WORKER_COUNT && st.workers[w].pc.Handling?
    ensures var s := st.workers[w].pc.s;
            && s < SLOT_COUNT && s in st.workers[w].list && Live(st.slots[s], w) && !st.slots[s].closed
            && st.slots[s].registered && s !in st.free && (s, st.slots[s].gen) !in st.dead
  {
    RunInv(states, acts, k);
    assert WorkerOk(st, w) && DeadOk(st) && FreeOk(st);
    assert SlotOk(st, st.workers[w].pc.s);
  }
}
