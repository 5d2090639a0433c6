/**
  Where the guarantees of the lifecycle end, on whole runs from start-up: a worker that leaves its
  loop with connections in its bucket, and a `registered` store that arrives after its slot has
  been taken again. Two handshake threads and one slot are enough for both.
 */
module LifecycleWitness {
  import opened Seqs
  import opened Lifecycle
  import opened LifecycleSafety
  import opened LifecycleRuns

  /** The slot at the top of the free stack. */
  const S: nat := SLOT_COUNT - 1

  /** What the threads can see of slot S; `top` says that it is on top of the free stack. */
  datatype View = View(x: Slot, epoch: nat, hands: seq<Hand>, workers: seq<Worker>, fin: seq<Fin>, count: int, top: bool, running: bool)

  ghost predicate Seen(st: State, v: View) {
    && Shape(st) && st.slots[S] == v.x && st.epoch[S] == v.epoch && st.hands == v.hands && st.workers == v.workers
    && st.fin == v.fin && st.connCount == v.count && st.running == v.running
    && (v.top ==> st.free != [] && st.free[|st.free| - 1] == S)
  }

  // ----- steps on views -----

  ghost predicate HandCan(v: View, t: nat, a: HandAction) {
    t < |v.hands| && HandTid(t) < |v.fin| && v.fin[HandTid(t)] == NoFin &&
    match a
    case Admit => v.hands[t] == Idle && v.count < MAX_CONNS
    case Pop => v.hands[t] == Admitted && v.top
    case Wipe => v.hands[t] == Popped(S, v.epoch)
    case Publish => v.hands[t] == Wiped(S, v.epoch)
    case Init(w, buffers) => v.hands[t] == Fresh(S) && w < |v.workers| && buffers
    case Link => v.hands[t] == Built(S) && v.x.widx < |v.workers| && v.workers[v.x.widx].lock == Unlocked && !v.workers[v.x.widx].stopping
    case AddClient(ok) => v.hands[t] == Linked(S) && v.x.widx < |v.workers| && ok
    case AddTarget(ok) => v.hands[t] == HalfAdded(S) && v.x.widx < |v.workers| && ok
    case Register => v.hands[t].Joined? && v.hands[t].s == S
    case _ => false
  }

  function HandNext(v: View, t: nat, a: HandAction): View
    requires t < |v.hands|
  {
    match a
    case Admit => v.(hands := v.hands[t := Admitted], count := v.count + 1)
    case Pop => v.(x := v.x.(gen := v.x.gen + 1), epoch := v.x.gen + 1, hands := v.hands[t := Popped(S, v.x.gen + 1)], top := false)
    case Wipe => v.(x := Slot(0, 0, v.x.active, 0, false, false, 0, false), hands := v.hands[t := Wiped(S, v.epoch)])
    case Publish => v.(x := v.x.(gen := v.epoch, active := true), hands := v.hands[t := Fresh(S)])
    case Init(w, _) =>
      v.(x := v.x.(refs := 1, registered := false, finalized := false, widx := w, magic := CONN_MAGIC), hands := v.hands[t := Built(S)])
    case Link =>
      if v.x.widx >= |v.workers| then v
      else
        var wk := v.workers[v.x.widx];
        v.(hands := v.hands[t := Linked(S)], workers := v.workers[v.x.widx := wk.(list := [S] + wk.list, lock := ByHand(t))])
    case AddClient(_) => v.(hands := v.hands[t := HalfAdded(S)])
    case AddTarget(_) =>
      if v.x.widx >= |v.workers| then v
      else v.(hands := v.hands[t := Joined(S, v.epoch)], workers := v.workers[v.x.widx := v.workers[v.x.widx].(lock := Unlocked)])
    case Register => v.(x := v.x.(registered := true), hands := v.hands[t := Idle])
    case _ => v
  }

  lemma HandSteps(st: State, v: View, t: nat, a: HandAction)
    requires Seen(st, v) && HandCan(v, t, a)
    ensures HandEnabled(st, t, a) && Seen(HandStep(st, t, a), HandNext(v, t, a))
  {
  }

  ghost predicate LoopCan(v: View, w: nat, a: WorkerAction) {
    w < |v.workers| && w < |v.fin| && v.fin[w] == NoFin &&
    var wk := v.workers[w];
    match a
    case Enter(n) => wk.pc == Top && v.running && n <= BUCKET
    case Leave => wk.pc == Top && !v.running
    case Deliver(sidx, egen) =>
      wk.pc.Batch? && wk.pc.left > 0 && sidx == S && v.x.active && egen == v.x.gen && v.x.magic == CONN_MAGIC && v.x.widx == w &&
      !v.x.closed && v.x.registered
    case Shutdown => wk.pc.Batch? && wk.pc.left > 0
    case Fail => wk.pc.Handling? && wk.pc.s == S && wk.lock == Unlocked && !v.x.closed
    case EndBatch(due) => wk.pc == Batch(0) && !due
    case WorkerUnref => NextUnref(wk) == S && v.x.refs == 1
    case UnrefsDone => Unreffing(wk.pc) && !wk.pc.Flush? && NextUnref(wk) < 0
    case SetStopping => wk.pc == Stop && wk.lock == Unlocked
    case DrainLock => wk.pc == Ready && wk.lock == Unlocked
    case DrainTake => wk.pc == Drain && wk.list == [S] && |wk.collected| < BUCKET && v.x.magic == CONN_MAGIC
    case DrainUnlock => wk.pc == Drain && wk.list == []
    case _ => false
  }

  function LoopNext(v: View, w: nat, a: WorkerAction): View
    requires w < |v.workers| && w < |v.fin|
  {
    var wk := v.workers[w];
    match a
    case Enter(n) => v.(workers := v.workers[w := wk.(pc := Batch(n), garbage := [])])
    case Leave => v.(workers := v.workers[w := wk.(pc := Stop)])
    case Deliver(_, _) => if wk.pc.Batch? && wk.pc.left > 0 then v.(workers := v.workers[w := wk.(pc := Handling(wk.pc.left - 1, S))]) else v
    case Shutdown => v.(workers := v.workers[w := wk.(pc := Stop)])
    case Fail =>
      if wk.pc.Handling? then
        v.(x := v.x.(closed := true),
           workers := v.workers[w := wk.(pc := Batch(wk.pc.left), list := Without(wk.list, S), garbage := wk.garbage + [S])])
      else v
    case EndBatch(_) => v.(workers := v.workers[w := wk.(pc := Collect(0))])
    case WorkerUnref =>
      v.(x := v.x.(refs := 0), fin := v.fin[w := Claimed(S)], workers := v.workers[w := wk.(pc := Advance(wk.pc))])
    case UnrefsDone => v.(workers := v.workers[w := AfterUnrefs(wk)])
    case SetStopping => v.(workers := v.workers[w := wk.(pc := Ready, stopping := true)])
    case DrainLock => v.(workers := v.workers[w := wk.(pc := Drain, lock := ByWorker, collected := [])])
    case DrainTake => v.(x := v.x.(closed := true), workers := v.workers[w := wk.(list := [], collected := wk.collected + [S])])
    case DrainUnlock => v.(workers := v.workers[w := wk.(pc := DrainUnref(0), lock := Unlocked)])
    case _ => v
  }

  lemma LoopSteps(st: State, v: View, w: nat, a: WorkerAction)
    requires Seen(st, v) && LoopCan(v, w, a)
    ensures WorkerEnabled(st, w, a) && Seen(WorkerStep(st, w, a), LoopNext(v, w, a))
  {
    if a.DrainTake? { assert Without([S], S) == []; }
  }

  ghost predicate FinCan(v: View, i: nat) {
    i < |v.fin| &&
    match v.fin[i]
    case NoFin => false
    case Claimed(s) => s == S && !v.x.finalized
    case Exchanged(s) => s == S && v.x.widx < |v.workers| && v.workers[v.x.widx].lock == Unlocked && S !in v.workers[v.x.widx].list
    case Poisoned(s) => s == S
    case Returned(s) => s == S
    case Cleared(s) => s == S
    case Pushed => true
  }

  function FinNext(v: View, i: nat): View
    requires i < |v.fin|
  {
    match v.fin[i]
    case Claimed(_) => v.(x := v.x.(finalized := true), fin := v.fin[i := Exchanged(S)])
    case Exchanged(_) => v.(x := v.x.(magic := 0), fin := v.fin[i := Poisoned(S)])
    case Poisoned(_) => v.(count := v.count - 1, fin := v.fin[i := Returned(S)])
    case Returned(_) => v.(x := v.x.(active := false), fin := v.fin[i := Cleared(S)])
    case Cleared(_) => v.(top := true, fin := v.fin[i := Pushed])
    case _ => v.(fin := v.fin[i := NoFin])
  }

  lemma FinSteps(st: State, v: View, i: nat)
    requires Seen(st, v) && FinCan(v, i)
    ensures FinEnabled(st, i) && Seen(Finalize(st, i), FinNext(v, i))
  {
  }

  ghost predicate Can(v: View, a: Action) {
    match a
    case ByHandshake(t, h) => HandCan(v, t, h)
    case ByLoop(w, l) => LoopCan(v, w, l)
    case FinStep(i) => FinCan(v, i)
    case Quit => true
    case _ => false
  }

  ghost function After(v: View, a: Action): View
    requires Can(v, a)
  {
    match a
    case ByHandshake(t, h) => HandNext(v, t, h)
    case ByLoop(w, l) => LoopNext(v, w, l)
    case FinStep(i) => FinNext(v, i)
    case _ => v.(running := false)
  }

  lemma Steps(st: State, v: View, a: Action)
    requires Seen(st, v) && Can(v, a)
    ensures Enabled(st, a) && Seen(Apply(st, a), After(v, a))
  {
    match a
    case ByHandshake(t, h) => HandSteps(st, v, t, h);
    case ByLoop(w, l) => LoopSteps(st, v, w, l);
    case FinStep(i) => FinSteps(st, v, i);
    case _ =>
  }

  // ----- building a path -----

  /** The one step that is not allowed, and its number. */
  datatype Flaw = Flaw(at: int, a: Action)

  const NONE: Flaw := Flaw(-1, Quit)

  /** Steps of which nothing is asked; `calm` says that no drain has begun. */
  ghost predicate Harmless(calm: bool, a: Action) {
    match a
    case ByLoop(_, Leave) => false
    case ByHandshake(_, Init(_, _)) => calm
    case _ => true
  }

  predicate IsDrain(a: Action) { a.ByLoop? && a.a == DrainTake }

  function BootView(): View {
    View(Slot(1, 0, false, 0, false, false, 0, false), 1, [Idle, Idle], seq(WORKER_COUNT, _ => Worker(Top, [], [], [], Unlocked, false)),
         seq(WORKER_COUNT + 2, _ => NoFin), 0, true, true)
  }

  /** The actions of a path, last one outermost. */
  datatype Trip = Start | Then(before: Trip, a: Action)

  function Length(trip: Trip): nat { if trip.Start? then 0 else Length(trip.before) + 1 }

  predicate IsCalm(trip: Trip) { trip.Start? || (IsCalm(trip.before) && !IsDrain(trip.a)) }

  /** What is seen at its end. */
  ghost function End(trip: Trip): View {
    if trip.Start? then BootView() else if Can(End(trip.before), trip.a) then After(End(trip.before), trip.a) else End(trip.before)
  }

  /** Every step can be taken, and is harmless or the flaw. */
  ghost predicate Legal(trip: Trip, bad: Flaw) {
    trip.Start? ||
    (Legal(trip.before, bad) && Can(End(trip.before), trip.a) &&
     if Length(trip.before) == bad.at then trip.a == bad.a else Harmless(IsCalm(trip.before), trip.a))
  }

  /** A legal trip to v. */
  ghost predicate Leads(trip: Trip, v: View, calm: bool, bad: Flaw) { Legal(trip, bad) && End(trip) == v && IsCalm(trip) == calm }

  lemma Go(trip: Trip, v: View, calm: bool, bad: Flaw, a: Action) returns (trip': Trip)
    requires Leads(trip, v, calm, bad) && Can(v, a) && if Length(trip) == bad.at then a == bad.a else Harmless(calm, a)
    ensures Leads(trip', After(v, a), calm && !IsDrain(a), bad) && Length(trip') == Length(trip) + 1
  {
    trip' := Then(trip, a);
  }

  /** Until its number comes, a flaw makes no difference. */
  lemma {:induction false} Redirect(trip: Trip, bad: Flaw)
    requires Legal(trip, NONE) && bad.at >= Length(trip)
    ensures Legal(trip, bad)
  {
    if trip.Then? { Redirect(trip.before, bad); }
  }

  // ----- the path behind it -----

  ghost predicate Calm(acts: seq<Action>) { forall k :: 0 <= k < |acts| && acts[k].ByLoop? ==> acts[k].a != DrainTake }

  /** Every step but number n is allowed. */
  ghost predicate AllowedBut(states: seq<State>, acts: seq<Action>, n: int)
    requires |acts| < |states|
  {
    forall k :: 0 <= k < |acts| && k != n ==> Allowed(states, acts, k)
  }

  ghost predicate Trace(states: seq<State>, acts: seq<Action>, calm: bool, bad: Flaw) {
    && Path(states, acts) && (calm ==> Calm(acts)) && AllowedBut(states, acts, bad.at)
    && (0 <= bad.at < |acts| ==> acts[bad.at] == bad.a)
  }

  lemma {:induction false} Retrace(trip: Trip, bad: Flaw) returns (states: seq<State>, acts: seq<Action>)
    requires Legal(trip, bad)
    ensures |acts| == Length(trip) && Trace(states, acts, IsCalm(trip), bad) && Seen(states[|acts|], End(trip))
  {
    if trip.Start? {
      states, acts := [Boot(2)], [];
      assert Boot(2).hands == [Idle, Idle];
      assert Boot(2).workers == BootView().workers && Boot(2).fin == BootView().fin;
    } else {
      var states0, acts0 := Retrace(trip.before, bad);
      states, acts := OneMore(states0, acts0, End(trip.before), IsCalm(trip.before), bad, trip.a);
    }
  }

  lemma OneMore(states: seq<State>, acts: seq<Action>, v: View, calm: bool, bad: Flaw, a: Action)
    returns (states': seq<State>, acts': seq<Action>)
    requires Trace(states, acts, calm, bad) && Seen(states[|acts|], v) && Can(v, a)
    requires if |acts| == bad.at then a == bad.a else Harmless(calm, a)
    ensures |acts'| == |acts| + 1 && Trace(states', acts', calm && !IsDrain(a), bad) && Seen(states'[|acts'|], After(v, a))
    ensures acts'[|acts|] == a && states'[|acts|] == states[|acts|]
  {
    var last := states[|acts|];
    Steps(last, v, a);
    states', acts' := states + [Apply(last, a)], acts + [a];
    Extends(states, acts, a, states');
    ExtendsAllowed(states, acts, calm, bad, a, states');
  }

  lemma Extends(states: seq<State>, acts: seq<Action>, a: Action, states': seq<State>)
    requires Path(states, acts) && |states'| == |states| + 1 && states'[..|states|] == states
    requires StepAt(states[|acts|], a, states'[|states|])
    ensures Path(states', acts + [a])
  {
    var acts' := acts + [a];
    assert forall k :: 0 <= k < |states| ==> states'[k] == states'[..|states|][k];
    forall k {:trigger acts'[k]} | 0 <= k < |acts'| ensures StepAt(states'[k], acts'[k], states'[k + 1]) {
      if k < |acts| { assert StepAt(states[k], acts[k], states[k + 1]); }
    }
  }

  lemma ExtendsAllowed(states: seq<State>, acts: seq<Action>, calm: bool, bad: Flaw, a: Action, states': seq<State>)
    requires Trace(states, acts, calm, bad) && |states'| == |states| + 1 && states'[..|states|] == states
    requires if |acts| == bad.at then a == bad.a else Harmless(calm, a)
    ensures AllowedBut(states', acts + [a], bad.at)
  {
    var acts' := acts + [a];
    assert forall k :: 0 <= k < |states| ==> states'[k] == states'[..|states|][k];
    forall k | 0 <= k < |acts'| && k != bad.at ensures Allowed(states', acts', k) {
      if k < |acts| { assert Allowed(states, acts, k); }
    }
  }

  // ----- stretches of a path -----

  /** A handshake thread takes slot S off the stack. */
  lemma Pops(trip: Trip, v: View, calm: bool, t: nat) returns (trip': Trip)
    requires Leads(trip, v, calm, NONE) && HandCan(v, t, Admit) && v.top
    ensures Leads(trip', v.(x := v.x.(gen := v.x.gen + 1), epoch := v.x.gen + 1, hands := v.hands[t := Popped(S, v.x.gen + 1)],
                            count := v.count + 1, top := false), calm, NONE)
  {
    trip' := Go(trip, v, calm, NONE, ByHandshake(t, Admit));
    trip' := Go(trip', v.(hands := v.hands[t := Admitted], count := v.count + 1), calm, NONE, ByHandshake(t, Pop));
  }

  /** It clears the slot and marks it active. */
  lemma Takes(trip: Trip, v: View, calm: bool, t: nat) returns (trip': Trip)
    requires Leads(trip, v, calm, NONE) && HandCan(v, t, Admit) && v.top
    ensures Leads(trip', v.(x := Slot(v.x.gen + 1, 0, true, 0, false, false, 0, false), epoch := v.x.gen + 1,
                            hands := v.hands[t := Fresh(S)], count := v.count + 1, top := false), calm, NONE)
  {
    var g := v.x.gen + 1;
    var popped := v.(x := v.x.(gen := g), epoch := g, hands := v.hands[t := Popped(S, g)], count := v.count + 1, top := false);
    trip' := Pops(trip, v, calm, t);
    trip' := Go(trip', popped, calm, NONE, ByHandshake(t, Wipe));
    trip' := Go(trip', HandNext(popped, t, Wipe), calm, NONE, ByHandshake(t, Publish));
  }

  /** It hands an initialized slot to its worker and has added one descriptor. */
  lemma Lists(trip: Trip, v: View, calm: bool, bad: Flaw, t: nat, w: nat) returns (trip': Trip)
    requires Leads(trip, v, calm, bad) && HandCan(v, t, Link) && Length(trip) > bad.at && w == v.x.widx
    ensures Leads(trip', v.(hands := v.hands[t := HalfAdded(S)],
                            workers := v.workers[w := v.workers[w].(list := [S] + v.workers[w].list, lock := ByHand(t))]), calm, bad)
    ensures Length(trip') > bad.at
  {
    trip' := Go(trip, v, calm, bad, ByHandshake(t, Link));
    trip' := Go(trip', HandNext(v, t, Link), calm, bad, ByHandshake(t, AddClient(true)));
  }

  /** A handoff in full, but for the store of `registered`. */
  lemma Joins(trip: Trip, v: View, t: nat, w: nat) returns (trip': Trip)
    requires Leads(trip, v, true, NONE) && HandCan(v, t, Admit) && v.top && w < |v.workers|
    requires v.workers[w].lock == Unlocked && !v.workers[w].stopping
    ensures var g := v.x.gen + 1;
            Leads(trip', v.(x := Slot(g, CONN_MAGIC, true, w, false, false, 1, false), epoch := g, hands := v.hands[t := Joined(S, g)],
                            workers := v.workers[w := v.workers[w].(list := [S] + v.workers[w].list)], count := v.count + 1, top := false), true, NONE)
  {
    var g := v.x.gen + 1;
    var taken := v.(x := Slot(g, 0, true, 0, false, false, 0, false), epoch := g, hands := v.hands[t := Fresh(S)], count := v.count + 1, top := false);
    trip' := Takes(trip, v, true, t);
    trip' := Places(trip', taken, t, w);
  }

  lemma Places(trip: Trip, v: View, t: nat, w: nat) returns (trip': Trip)
    requires Leads(trip, v, true, NONE) && HandCan(v, t, Init(w, true)) && v.workers[w].lock == Unlocked && !v.workers[w].stopping
    ensures Leads(trip', v.(x := v.x.(refs := 1, registered := false, finalized := false, widx := w, magic := CONN_MAGIC),
                            hands := v.hands[t := Joined(S, v.epoch)],
                            workers := v.workers[w := v.workers[w].(list := [S] + v.workers[w].list)]), true, NONE)
  {
    var built := HandNext(v, t, Init(w, true));
    trip' := Go(trip, v, true, NONE, ByHandshake(t, Init(w, true)));
    trip' := Lists(trip', built, true, NONE, t, w);
    trip' := Go(trip', HandNext(HandNext(built, t, Link), t, AddClient(true)), true, NONE, ByHandshake(t, AddTarget(true)));
    assert v.workers[w].(lock := Unlocked) == v.workers[w];
  }

  /** Whoever dropped the last reference finalizes the connection, */
  lemma Poisons(trip: Trip, v: View, calm: bool, i: nat) returns (trip': Trip)
    requires Leads(trip, v, calm, NONE) && i < |v.fin| && v.fin[i] == Claimed(S) && !v.x.finalized && v.x.widx < |v.workers|
    requires v.workers[v.x.widx].lock == Unlocked && S !in v.workers[v.x.widx].list
    ensures Leads(trip', v.(x := v.x.(finalized := true, magic := 0), fin := v.fin[i := Poisoned(S)]), calm, NONE)
  {
    trip' := Go(trip, v, calm, NONE, FinStep(i));
    trip' := Go(trip', FinNext(v, i), calm, NONE, FinStep(i));
  }

  /** returns its quota, */
  lemma Clears(trip: Trip, v: View, calm: bool, i: nat) returns (trip': Trip)
    requires Leads(trip, v, calm, NONE) && i < |v.fin| && v.fin[i] == Poisoned(S)
    ensures Leads(trip', v.(x := v.x.(active := false), fin := v.fin[i := Cleared(S)], count := v.count - 1), calm, NONE)
  {
    trip' := Go(trip, v, calm, NONE, FinStep(i));
    trip' := Go(trip', FinNext(v, i), calm, NONE, FinStep(i));
  }

  /** and pushes the slot. */
  lemma Releases(trip: Trip, v: View, calm: bool, i: nat) returns (trip': Trip)
    requires Leads(trip, v, calm, NONE) && i < |v.fin| && v.fin[i] == Claimed(S) && !v.x.finalized && v.x.widx < |v.workers|
    requires v.workers[v.x.widx].lock == Unlocked && S !in v.workers[v.x.widx].list
    ensures Leads(trip', v.(x := v.x.(finalized := true, magic := 0, active := false), fin := v.fin[i := NoFin],
                            count := v.count - 1, top := true), calm, NONE)
  {
    var poisoned := v.(x := v.x.(finalized := true, magic := 0), fin := v.fin[i := Poisoned(S)]);
    var cleared := poisoned.(x := poisoned.x.(active := false), fin := poisoned.fin[i := Cleared(S)], count := v.count - 1);
    trip' := Poisons(trip, v, calm, i);
    trip' := Clears(trip', poisoned, calm, i);
    trip' := Go(trip', cleared, calm, NONE, FinStep(i));
    trip' := Go(trip', FinNext(cleared, i), calm, NONE, FinStep(i));
  }

  function Resting(list: seq<nat>, garbage: seq<nat>): Worker { Worker(Top, list, garbage, [], Unlocked, false) }

  /** A view in which only slot S, worker 0, the threads, worker 0's finalizer and the counters differ from start-up. */
  function Mostly(x: Slot, hands: seq<Hand>, wk: Worker, f: Fin, count: int, top: bool, running: bool): View {
    View(x, x.gen, hands, BootView().workers[0 := wk], BootView().fin[0 := f], count, top, running)
  }

  // ----- leaving with a full bucket -----

  /** Slot S is a registered connection of worker 0. */
  lemma Serves() returns (trip: Trip)
    ensures Leads(trip, Mostly(Slot(2, CONN_MAGIC, true, 0, false, true, 1, false), [Idle, Idle], Resting([S], []), NoFin, 1, false, true), true, NONE)
  {
    var joined := Mostly(Slot(2, CONN_MAGIC, true, 0, false, false, 1, false), [Joined(S, 2), Idle], Resting([S], []), NoFin, 1, false, true);
    trip := Joins(Start, BootView(), 0, 0);
    assert [S] + [] == [S] && [Idle, Idle][0 := Joined(S, 2)] == joined.hands && BootView().fin == joined.fin;
    trip := Go(trip, joined, true, NONE, ByHandshake(0, Register));
    assert joined.hands[0 := Idle] == [Idle, Idle];
  }

  /** Worker 0 handles an event of it, fails it and collects it. */
  lemma Fails(trip: Trip, x: Slot) returns (trip': Trip)
    requires x == Slot(2, CONN_MAGIC, true, 0, false, true, 1, false)
    requires Leads(trip, Mostly(x, [Idle, Idle], Resting([S], []), NoFin, 1, false, true), true, NONE)
    ensures Leads(trip', Mostly(x.(closed := true), [Idle, Idle], Resting([], [S]).(pc := Batch(0)), NoFin, 1, false, true), true, NONE)
  {
    var v0 := Mostly(x, [Idle, Idle], Resting([S], []), NoFin, 1, false, true);
    var v1 := Mostly(x, [Idle, Idle], Resting([S], []).(pc := Batch(1)), NoFin, 1, false, true);
    var v2 := Mostly(x, [Idle, Idle], Resting([S], []).(pc := Handling(0, S)), NoFin, 1, false, true);
    trip' := Go(trip, v0, true, NONE, ByLoop(0, Enter(1)));
    assert After(v0, ByLoop(0, Enter(1))).workers == v1.workers;
    trip' := Go(trip', v1, true, NONE, ByLoop(0, Deliver(S, 2)));
    assert After(v1, ByLoop(0, Deliver(S, 2))).workers == v2.workers;
    trip' := Go(trip', v2, true, NONE, ByLoop(0, Fail));
    assert Without([S], S) == [] && [] + [S] == [S];
    assert After(v2, ByLoop(0, Fail)).workers == BootView().workers[0 := Resting([], [S]).(pc := Batch(0))];
  }

  /** It unrefs it, finalizes it, and is back at the top of its loop with S still in its bucket. */
  lemma Used() returns (trip: Trip, x: Slot)
    ensures x.gen == 2 && Leads(trip, Mostly(x, [Idle, Idle], Resting([], [S]), NoFin, 0, true, true), true, NONE)
  {
    x := Slot(2, CONN_MAGIC, true, 0, true, true, 1, false);
    trip := Serves();
    trip := Fails(trip, x.(closed := false));
    var v0 := Mostly(x, [Idle, Idle], Resting([], [S]).(pc := Batch(0)), NoFin, 1, false, true);
    var v1 := Mostly(x, [Idle, Idle], Resting([], [S]).(pc := Collect(0)), NoFin, 1, false, true);
    trip := Go(trip, v0, true, NONE, ByLoop(0, EndBatch(false)));
    assert After(v0, ByLoop(0, EndBatch(false))).workers == v1.workers;
    trip, x := Unrefs(trip, x);
  }

  lemma Unrefs(trip: Trip, x: Slot) returns (trip': Trip, x': Slot)
    requires x == Slot(2, CONN_MAGIC, true, 0, true, true, 1, false)
    requires Leads(trip, Mostly(x, [Idle, Idle], Resting([], [S]).(pc := Collect(0)), NoFin, 1, false, true), true, NONE)
    ensures x'.gen == 2 && Leads(trip', Mostly(x', [Idle, Idle], Resting([], [S]), NoFin, 0, true, true), true, NONE)
  {
    var v0 := Mostly(x, [Idle, Idle], Resting([], [S]).(pc := Collect(0)), NoFin, 1, false, true);
    var v1 := Mostly(x.(refs := 0), [Idle, Idle], Resting([], [S]).(pc := Collect(1)), Claimed(S), 1, false, true);
    trip' := Go(trip, v0, true, NONE, ByLoop(0, WorkerUnref));
    assert After(v0, ByLoop(0, WorkerUnref)).workers == v1.workers && After(v0, ByLoop(0, WorkerUnref)).fin == v1.fin;
    trip' := Releases(trip', v1, true, 0);
    x' := x.(refs := 0, finalized := true, magic := 0, active := false);
    var v2 := Mostly(x', [Idle, Idle], Resting([], [S]).(pc := Collect(1)), NoFin, 0, true, true);
    assert v1.fin[0 := NoFin] == v2.fin;
    trip' := Go(trip', v2, true, NONE, ByLoop(0, UnrefsDone));
    assert After(v2, ByLoop(0, UnrefsDone)).workers == BootView().workers[0 := Resting([], [S])];
  }

  /** The view in which worker 1 serves S while worker 0, at the given point, still has S in its bucket. */
  function Shared(x: Slot, wk: Worker, f: Fin): View {
    View(x, 3, [Idle, Idle], BootView().workers[0 := wk][1 := Resting([S], [])], BootView().fin[0 := f], 1, false, false)
  }

  const STRANGER: Slot := Slot(3, CONN_MAGIC, true, 1, false, true, 1, false)

  /** The slot now serves worker 1, and the server is told to stop. */
  lemma Reused() returns (trip: Trip)
    ensures Leads(trip, Shared(STRANGER, Resting([], [S]), NoFin), true, NONE)
  {
    var x;
    trip, x := Used();
    var used := Mostly(x, [Idle, Idle], Resting([], [S]), NoFin, 0, true, true);
    trip := Joins(trip, used, 1, 1);
    var joined := Shared(STRANGER.(registered := false), Resting([], [S]), NoFin).(hands := [Idle, Joined(S, 3)], running := true);
    assert [S] + [] == [S] && used.hands[1 := Joined(S, 3)] == joined.hands;
    assert used.workers[1] == Resting([], []) && used.workers[1 := Resting([S], [])] == joined.workers;
    trip := Go(trip, joined, true, NONE, ByHandshake(1, Register));
    assert joined.hands[1 := Idle] == [Idle, Idle];
    trip := Go(trip, Shared(STRANGER, Resting([], [S]), NoFin).(running := true), true, NONE, Quit);
  }

  /** The run behind a trip without a flaw. */
  lemma RunTo(trip: Trip, v: View, calm: bool) returns (states: seq<State>, acts: seq<Action>)
    requires Leads(trip, v, calm, NONE)
    ensures Run(states, acts) && Seen(states[|acts|], v) && Inv(states[|acts|])
  {
    states, acts := Retrace(trip, NONE);
    RunInv(states, acts, |acts|);
  }

  /** A run at whose end worker 0 may leave its loop with the slot of worker 1's connection in its bucket. */
  lemma LeaveFails() returns (states: seq<State>, acts: seq<Action>)
    ensures Run(states, acts)
    ensures var st := states[|acts|];
            Inv(st) && WorkerEnabled(st, 0, Leave) && st.workers[0].garbage == [S] && !Inv(WorkerStep(st, 0, Leave))
  {
    var trip := Reused();
    var v := Shared(STRANGER, Resting([], [S]), NoFin);
    states, acts := RunTo(trip, v, true);
    LoopSteps(states[|acts|], v, 0, Leave);
    LeaveExactly(states[|acts|], 0);
  }

  /** Worker 0's way out, with nothing on its list and S in its bucket. */
  lemma Exits(trip: Trip, bad: Flaw) returns (trip': Trip)
    requires Leads(trip, Shared(STRANGER, Resting([], [S]).(pc := Stop), NoFin), true, bad) && Length(trip) > bad.at
    ensures Leads(trip', Shared(STRANGER, Worker(Last(0), [], [S], [], Unlocked, true), NoFin), true, bad) && Length(trip') > bad.at
  {
    var v0 := Shared(STRANGER, Worker(Drain, [], [S], [], ByWorker, true), NoFin);
    var v1 := Shared(STRANGER, Worker(DrainUnref(0), [], [S], [], Unlocked, true), NoFin);
    trip' := Locks(trip, bad);
    trip' := Go(trip', v0, true, bad, ByLoop(0, DrainUnlock));
    assert After(v0, ByLoop(0, DrainUnlock)).workers == v1.workers;
    trip' := Go(trip', v1, true, bad, ByLoop(0, UnrefsDone));
    assert After(v1, ByLoop(0, UnrefsDone)).workers == Shared(STRANGER, Worker(Last(0), [], [S], [], Unlocked, true), NoFin).workers;
  }

  lemma Locks(trip: Trip, bad: Flaw) returns (trip': Trip)
    requires Leads(trip, Shared(STRANGER, Resting([], [S]).(pc := Stop), NoFin), true, bad) && Length(trip) > bad.at
    ensures Leads(trip', Shared(STRANGER, Worker(Drain, [], [S], [], ByWorker, true), NoFin), true, bad) && Length(trip') > bad.at
  {
    var v0 := Shared(STRANGER, Resting([], [S]).(pc := Stop), NoFin);
    var v1 := Shared(STRANGER, Worker(Ready, [], [S], [], Unlocked, true), NoFin);
    trip' := Go(trip, v0, true, bad, ByLoop(0, SetStopping));
    assert After(v0, ByLoop(0, SetStopping)).workers == v1.workers;
    trip' := Go(trip', v1, true, bad, ByLoop(0, DrainLock));
    assert After(v1, ByLoop(0, DrainLock)).workers == Shared(STRANGER, Worker(Drain, [], [S], [], ByWorker, true), NoFin).workers;
  }

  /** It leaves, and goes on to drop the reference of what is now worker 1's connection. */
  lemma Kills() returns (trip: Trip, bad: Flaw)
    ensures bad.a == ByLoop(0, Leave) && 0 <= bad.at < Length(trip)
    ensures Leads(trip, Shared(STRANGER.(refs := 0), Worker(Last(1), [], [S], [], Unlocked, true), Claimed(S)), true, bad)
  {
    var v0 := Shared(STRANGER, Resting([], [S]), NoFin);
    var v1 := Shared(STRANGER, Worker(Last(0), [], [S], [], Unlocked, true), NoFin);
    var v2 := Shared(STRANGER.(refs := 0), Worker(Last(1), [], [S], [], Unlocked, true), Claimed(S));
    trip := Reused();
    bad := Flaw(Length(trip), ByLoop(0, Leave));
    Redirect(trip, bad);
    trip := Go(trip, v0, true, bad, ByLoop(0, Leave));
    assert After(v0, ByLoop(0, Leave)).workers == Shared(STRANGER, Resting([], [S]).(pc := Stop), NoFin).workers;
    trip := Exits(trip, bad);
    trip := Go(trip, v1, true, bad, ByLoop(0, WorkerUnref));
    assert After(v1, ByLoop(0, WorkerUnref)).workers == v2.workers && After(v1, ByLoop(0, WorkerUnref)).fin == v2.fin;
  }

  /**
    The harm: every step but number n is allowed, and number n is that worker's Leave. At the end
    the registered connection that worker 1 has on its list has lost its only reference, and
    worker 0 is about to finalize it.
   */
  lemma CarriedGarbageKillsAStranger() returns (states: seq<State>, acts: seq<Action>, n: nat)
    ensures Path(states, acts) && n < |acts| && acts[n] == ByLoop(0, Leave) && AllowedBut(states, acts, n)
    ensures var st := states[|acts|];
            && Shape(st) && st.workers[1].list == [S] && st.slots[S].widx == 1 && st.slots[S].registered && !st.slots[S].closed
            && st.slots[S].refs == 0 && st.fin[0] == Claimed(S)
  {
    var trip, bad := Kills();
    n := bad.at;
    states, acts := Retrace(trip, bad);
  }

  // ----- the late store -----

  const OWED: Slot := Slot(2, CONN_MAGIC, true, 0, false, false, 1, false)

  /** Worker 1 has a batch of one event in hand; the rest as in Mostly. */
  function Late(x: Slot, hands: seq<Hand>, wk: Worker, f: Fin, count: int, top: bool, running: bool): View {
    var v := Mostly(x, hands, wk, f, count, top, running);
    v.(workers := v.workers[1 := Resting([], []).(pc := Batch(1))])
  }

  /** Thread 0 has handed a connection to worker 0 and owes the store; both workers come back from epoll_wait; the server is told to stop. */
  lemma Waits() returns (trip: Trip)
    ensures Leads(trip, Late(OWED, [Joined(S, 2), Idle], Resting([S], []).(pc := Batch(1)), NoFin, 1, false, false), true, NONE)
  {
    var hands := [Joined(S, 2), Idle];
    var v0 := Mostly(OWED, hands, Resting([S], []), NoFin, 1, false, true);
    var v1 := Mostly(OWED, hands, Resting([S], []).(pc := Batch(1)), NoFin, 1, false, true);
    var v2 := Late(OWED, hands, Resting([S], []).(pc := Batch(1)), NoFin, 1, false, true);
    trip := Joins(Start, BootView(), 0, 0);
    assert [S] + [] == [S] && [Idle, Idle][0 := Joined(S, 2)] == hands && BootView().fin == v0.fin;
    trip := Go(trip, v0, true, NONE, ByLoop(0, Enter(1)));
    assert After(v0, ByLoop(0, Enter(1))).workers == v1.workers;
    trip := Go(trip, v1, true, NONE, ByLoop(1, Enter(1)));
    assert v1.workers[1] == Resting([], []) && After(v1, ByLoop(1, Enter(1))).workers == v2.workers;
    trip := Go(trip, v2, true, NONE, Quit);
  }

  /** Worker 0 begins to exit. */
  lemma Stops() returns (trip: Trip)
    ensures Leads(trip, Late(OWED, [Joined(S, 2), Idle], Worker(Ready, [S], [], [], Unlocked, true), NoFin, 1, false, false), true, NONE)
  {
    var hands := [Joined(S, 2), Idle];
    var v0 := Late(OWED, hands, Resting([S], []).(pc := Batch(1)), NoFin, 1, false, false);
    var v1 := Late(OWED, hands, Resting([S], []).(pc := Stop), NoFin, 1, false, false);
    var v2 := Late(OWED, hands, Worker(Ready, [S], [], [], Unlocked, true), NoFin, 1, false, false);
    trip := Waits();
    trip := Go(trip, v0, true, NONE, ByLoop(0, Shutdown));
    assert After(v0, ByLoop(0, Shutdown)).workers == v1.workers;
    trip := Go(trip, v1, true, NONE, ByLoop(0, SetStopping));
    assert After(v1, ByLoop(0, SetStopping)).workers == v2.workers;
  }

  /** It takes that connection off its list. */
  lemma Drains() returns (trip: Trip)
    ensures Leads(trip, Late(OWED.(closed := true), [Joined(S, 2), Idle], Worker(Drain, [], [], [S], ByWorker, true), NoFin, 1, false, false), false, NONE)
  {
    var hands := [Joined(S, 2), Idle];
    var v0 := Late(OWED, hands, Worker(Ready, [S], [], [], Unlocked, true), NoFin, 1, false, false);
    var v1 := Late(OWED, hands, Worker(Drain, [S], [], [], ByWorker, true), NoFin, 1, false, false);
    var v2 := Late(OWED.(closed := true), hands, Worker(Drain, [], [], [S], ByWorker, true), NoFin, 1, false, false);
    trip := Stops();
    trip := Go(trip, v0, true, NONE, ByLoop(0, DrainLock));
    assert After(v0, ByLoop(0, DrainLock)).workers == v1.workers && [] + [S] == [S];
    trip := Go(trip, v1, true, NONE, ByLoop(0, DrainTake));
    assert After(v1, ByLoop(0, DrainTake)).workers == v2.workers;
  }

  /** And drops its reference. */
  lemma Drops() returns (trip: Trip)
    ensures Leads(trip, Late(OWED.(closed := true, refs := 0), [Joined(S, 2), Idle], Worker(DrainUnref(1), [], [], [S], Unlocked, true),
                             Claimed(S), 1, false, false), false, NONE)
  {
    var hands, x := [Joined(S, 2), Idle], OWED.(closed := true);
    var v0 := Late(x, hands, Worker(Drain, [], [], [S], ByWorker, true), NoFin, 1, false, false);
    var v1 := Late(x, hands, Worker(DrainUnref(0), [], [], [S], Unlocked, true), NoFin, 1, false, false);
    var v2 := Late(x.(refs := 0), hands, Worker(DrainUnref(1), [], [], [S], Unlocked, true), Claimed(S), 1, false, false);
    trip := Drains();
    trip := Go(trip, v0, false, NONE, ByLoop(0, DrainUnlock));
    assert After(v0, ByLoop(0, DrainUnlock)).workers == v1.workers;
    trip := Go(trip, v1, false, NONE, ByLoop(0, WorkerUnref));
    assert After(v1, ByLoop(0, WorkerUnref)).workers == v2.workers && After(v1, ByLoop(0, WorkerUnref)).fin == v2.fin;
  }

  /** Thread 0 owes the slot its store, thread 1 is at h with it, and worker 0 is on its way out. */
  function Retaken(x: Slot, h: Hand): View {
    Late(x, [Joined(S, 2), h], Worker(DrainUnref(1), [], [], [S], Unlocked, true), NoFin, 1, false, false)
  }

  /** The slot is released, and thread 1 takes it. */
  lemma Retakes() returns (trip: Trip)
    ensures Leads(trip, Retaken(Slot(3, 0, true, 0, false, false, 0, false), Fresh(S)), false, NONE)
  {
    var x := OWED.(closed := true, refs := 0);
    var wk := Worker(DrainUnref(1), [], [], [S], Unlocked, true);
    var v0 := Late(x, [Joined(S, 2), Idle], wk, Claimed(S), 1, false, false);
    var v1 := Late(x.(finalized := true, magic := 0, active := false), [Joined(S, 2), Idle], wk, NoFin, 0, true, false);
    trip := Drops();
    trip := Releases(trip, v0, false, 0);
    assert v0.fin[0 := NoFin] == v1.fin;
    trip := Takes(trip, v1, false, 1);
    assert [Joined(S, 2), Idle][1 := Fresh(S)] == [Joined(S, 2), Fresh(S)];
  }

  /** A run at whose end thread 1 may initialize a slot that thread 0 still owes its store. */
  lemma InitFails() returns (states: seq<State>, acts: seq<Action>)
    ensures Run(states, acts)
    ensures var st := states[|acts|];
            Inv(st) && HandEnabled(st, 1, Init(1, true)) && st.hands == [Joined(S, 2), Fresh(S)] && !Inv(HandStep(st, 1, Init(1, true)))
  {
    var trip := Retakes();
    var v := Retaken(Slot(3, 0, true, 0, false, false, 0, false), Fresh(S));
    states, acts := RunTo(trip, v, false);
    HandSteps(states[|acts|], v, 1, Init(1, true));
    assert states[|acts|].hands[0].Joined?;
    InitExactly(states[|acts|], 1, 1, true);
  }

  const REUSED: Slot := Slot(3, CONN_MAGIC, true, 1, false, false, 1, false)

  /** Worker 1, at point pc, has S on its list, the lock held by thread 1, which has added one descriptor. */
  function Handing(x: Slot, h: Hand, pc: Point): View {
    var v := Retaken(x, HalfAdded(S));
    v.(hands := [h, HalfAdded(S)], workers := v.workers[1 := Resting([S], []).(pc := pc, lock := ByHand(1))])
  }

  /** Thread 1 does initialize it, and hands it to worker 1 up to the second descriptor. */
  lemma Restarts() returns (trip: Trip, bad: Flaw)
    ensures bad.a == ByHandshake(1, Init(1, true)) && 0 <= bad.at < Length(trip)
    ensures Leads(trip, Handing(REUSED, Joined(S, 2), Batch(1)), false, bad)
  {
    var v0, v1 := Retaken(Slot(3, 0, true, 0, false, false, 0, false), Fresh(S)), Retaken(REUSED, Built(S));
    var v2 := Handing(REUSED, Joined(S, 2), Batch(1));
    trip := Retakes();
    bad := Flaw(Length(trip), ByHandshake(1, Init(1, true)));
    Redirect(trip, bad);
    trip := Go(trip, v0, false, bad, ByHandshake(1, Init(1, true)));
    assert After(v0, ByHandshake(1, Init(1, true))).hands == v1.hands;
    trip := Lists(trip, v1, false, bad, 1, 1);
    assert v1.workers[1] == Resting([], []).(pc := Batch(1));
    assert v1.hands[1 := HalfAdded(S)] == v2.hands && [S] + [] == [S];
    assert v1.workers[1 := v1.workers[1].(list := [S] + v1.workers[1].list, lock := ByHand(1))] == v2.workers;
  }

  /** Thread 0's store, and the event that worker 1 had in hand. */
  lemma Delivers() returns (trip: Trip, bad: Flaw)
    ensures bad.a == ByHandshake(1, Init(1, true)) && 0 <= bad.at < Length(trip)
    ensures Leads(trip, Handing(REUSED.(registered := true), Idle, Handling(0, S)), false, bad)
  {
    var v0 := Handing(REUSED, Joined(S, 2), Batch(1));
    var v1 := Handing(REUSED.(registered := true), Idle, Batch(1));
    var v2 := Handing(REUSED.(registered := true), Idle, Handling(0, S));
    trip, bad := Restarts();
    trip := Go(trip, v0, false, bad, ByHandshake(0, Register));
    assert v0.hands[0 := Idle] == v1.hands;
    trip := Go(trip, v1, false, bad, ByLoop(1, Deliver(S, 3)));
    assert After(v1, ByLoop(1, Deliver(S, 3))).workers == v2.workers;
  }

  /**
    The harm: every step but number n is allowed, and number n initializes the owed slot. At the
    end worker 1 is handling an event of a connection whose own thread has yet to add its second
    descriptor and to say that events may come: thread 0's store said so.
   */
  lemma LateStoreOpensTheDoor() returns (states: seq<State>, acts: seq<Action>, n: nat)
    ensures Path(states, acts) && n < |acts| && acts[n] == ByHandshake(1, Init(1, true)) && AllowedBut(states, acts, n)
    ensures var st := states[|acts|];
            Shape(st) && st.workers[1].pc == Handling(0, S) && st.slots[S].gen == 3 && st.hands == [Idle, HalfAdded(S)]
  {
    var trip, bad := Delivers();
    n := bad.at;
    states, acts := Retrace(trip, bad);
  }
}
