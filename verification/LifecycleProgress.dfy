/**
  Closed connections do get released: every step that finishes work already begun lowers a
  measure, and when no such step is left every slot is free or serves a listed connection.
 */
module LifecycleProgress {
  import opened Seqs
  import opened Lifecycle
  import opened LifecycleSafety
  import opened LifecycleRuns
  import opened LifecycleAccounts

  /** All steps but those that bring new work: accepting a client, the next epoll_wait, the UDP side and the order to stop. */
  predicate Finishing(a: Action) {
    match a
    case ByHandshake(_, h) => h != Admit
    case ByLoop(_, l) => !l.Enter?
    case FinStep(_) => true
    case _ => false
  }

  // ----- what is left to do -----

  function HandLeft(h: Hand): nat {
    match h
    case Idle => 0
    case Over => 1
    case NoSlot => 1
    case Admitted => 32
    case Popped(_, _) => 31
    case Wiped(_, _) => 30
    case Fresh(_) => 29
    case Built(_) => 28
    case Linked(_) => 3
    case HalfAdded(_) => 2
    case Joined(_, _) => 1
    case Dropping(_) => 7
  }

  function FinLeft(f: Fin): nat {
    match f
    case NoFin => 0
    case Claimed(_) => 6
    case Exchanged(_) => 5
    case Poisoned(_) => 4
    case Returned(_) => 3
    case Cleared(_) => 2
    case Pushed => 1
  }

  /** Connections from x to the end of the list. */
  function Rest(xs: seq<nat>, x: int): nat {
    if xs == [] then 0 else if xs[0] == x then |xs| else Rest(xs[1..], x)
  }

  function PointLeft(wk: Worker): nat {
    match wk.pc
    case Handling(left, _) => 11 + 3 * |wk.list| + 2 * left
    case Batch(left) => 10 + 3 * |wk.list| + 2 * left
    case Flush(_, _, next) => 10 + 3 * Rest(wk.list, next)
    case Sweep(cur) => 9 + 3 * Rest(wk.list, cur)
    case Collect(_) => 8
    case Top => 7
    case Stop => 6
    case Ready => 5
    case Drain => if |wk.collected| < BUCKET then 3 else 7
    case DrainUnref(_) => if |wk.collected| < BUCKET then 2 else 6
    case Last(_) => 1
    case Exited => 0
  }

  function WorkerLeft(wk: Worker): nat { 7 * |Pending(wk)| + 20 * |wk.list| + PointLeft(wk) }

  function Left(st: State): nat { Sum(st.hands, HandLeft) + Sum(st.workers, WorkerLeft) + Sum(st.fin, FinLeft) }

  // ----- list facts -----

  lemma {:induction false} RestBound(xs: seq<nat>, x: int)
    ensures Rest(xs, x) <= |xs|
  {
    if xs != [] && xs[0] != x { RestBound(xs[1..], x); }
  }

  /** Moving the cursor on. */
  lemma {:induction false} RestNext(xs: seq<nat>, x: nat)
    requires NoDup(xs) && x in xs
    ensures Rest(xs, Next(xs, x)) < Rest(xs, x)
  {
    if xs[0] == x {
      if |xs| < 2 {
        assert Rest(xs, -1) == Rest(xs[1..], -1);
      } else {
        assert xs[1] in xs[1..] && xs[1..][0] == xs[1];
        assert Rest(xs, xs[1]) == Rest(xs[1..], xs[1]) == |xs| - 1;
      }
    } else {
      RestNext(xs[1..], x);
      NextMember(xs[1..], x);
      var n := Next(xs, x);
      assert n == Next(xs[1..], x);
      assert n != xs[0];
    }
  }

  lemma {:induction false} RestWithout(xs: seq<nat>, s: nat, x: int)
    requires x != s
    ensures Rest(Without(xs, s), x) <= Rest(xs, x)
  {
    if xs != [] {
      if xs[0] == s {
        assert Rest(xs, x) == Rest(xs[1..], x);
      } else {
        RestWithout(xs[1..], s, x);
        WithoutLength(xs[1..], s);
        var ys := Without(xs[1..], s);
        assert Without(xs, s) == [xs[0]] + ys && ([xs[0]] + ys)[1..] == ys;
      }
    }
  }

  // ----- every finishing step lowers it -----

  lemma SumSame<T(!new)>(a: seq<T>, b: seq<T>, k: nat, f: T -> nat)
    requires Same(a, b, k)
    ensures Sum(b, f) + (if k < |a| then f(a[k]) else 0) == Sum(a, f) + (if k < |a| then f(b[k]) else 0)
  {
    if k < |a| {
      assert a[k := b[k]] == b;
      SumUpdate(a, k, b[k], f);
    } else {
      assert a == b;
    }
  }

  /** What thread t, worker w and finalizer i have left between them. */
  function Share(st: State, t: nat, w: nat, i: nat): nat {
    (if t < |st.hands| then HandLeft(st.hands[t]) else 0) + (if w < |st.workers| then WorkerLeft(st.workers[w]) else 0) +
    (if i < |st.fin| then FinLeft(st.fin[i]) else 0)
  }

  lemma Lowers(st: State, st': State, t: nat, w: nat, i: nat)
    requires Same(st.hands, st'.hands, t) && Same(st.workers, st'.workers, w) && Same(st.fin, st'.fin, i)
    requires Share(st', t, w, i) < Share(st, t, w, i)
    ensures Left(st') < Left(st)
  {
    SumSame(st.hands, st'.hands, t, HandLeft);
    SumSame(st.workers, st'.workers, w, WorkerLeft);
    SumSame(st.fin, st'.fin, i, FinLeft);
  }

  /** Handshake steps that touch neither a list nor a reference. */
  lemma AloneLowers(st: State, t: nat, a: HandAction)
    requires HandEnabled(st, t, a) && !(a.Admit? || a.Link? || a.AddClient? || a.AddTarget? || a.HandUnref?)
    ensures Left(HandStep(st, t, a)) < Left(st)
  {
    Lowers(st, HandStep(st, t, a), t, |st.workers|, |st.fin|);
  }

  /** One more connection at the head of the list costs a worker no more than the handoff has saved. */
  lemma LongerList(wk: Worker, s: nat, lock: Lock)
    requires (wk.pc.Sweep? ==> wk.pc.cur != s) && (wk.pc.Flush? ==> wk.pc.next != s)
    ensures WorkerLeft(wk.(list := [s] + wk.list, lock := lock)) <= WorkerLeft(wk) + 23
  {
    var list := [s] + wk.list;
    assert list[1..] == wk.list;
    if wk.pc.Sweep? { assert Rest(list, wk.pc.cur) == Rest(wk.list, wk.pc.cur); }
    if wk.pc.Flush? { assert Rest(list, wk.pc.next) == Rest(wk.list, wk.pc.next); }
  }

  lemma ShorterList(wk: Worker, s: nat, lock: Lock)
    requires s in wk.list && (wk.pc.Sweep? ==> wk.pc.cur != s) && (wk.pc.Flush? ==> wk.pc.next != s)
    ensures WorkerLeft(wk.(list := Without(wk.list, s), lock := lock)) + 20 <= WorkerLeft(wk)
  {
    WithoutLength(wk.list, s);
    if wk.pc.Sweep? { RestWithout(wk.list, s, wk.pc.cur); }
    if wk.pc.Flush? { RestWithout(wk.list, s, wk.pc.next); }
  }

  lemma LinkLowers(st: State, t: nat)
    requires Inv(st) && HandEnabled(st, t, Link)
    ensures Left(DoLink(st, t)) < Left(st)
  {
    var s := st.hands[t].s;
    var w := st.slots[s].widx;
    assert HandOk(st, t) && SlotOk(st, s) && WorkerOk(st, w);
    if st.workers[w].stopping {
      Lowers(st, DoLink(st, t), t, |st.workers|, |st.fin|);
    } else {
      LongerList(st.workers[w], s, ByHand(t));
      Lowers(st, DoLink(st, t), t, w, |st.fin|);
    }
  }

  lemma RollbackLowers(st: State, t: nat, s: nat, w: nat)
    requires HandoffView(st, t, s, w) && InHandoff(st.hands[t])
    ensures Left(Rollback(st, t, s)) < Left(st)
  {
    ShorterList(st.workers[w], s, Unlocked);
    Lowers(st, Rollback(st, t, s), t, w, |st.fin|);
  }

  lemma JoinLowers(st: State, t: nat, s: nat, w: nat)
    requires HandoffView(st, t, s, w) && st.hands[t].HalfAdded?
    ensures Left(DoJoin(st, t, s)) < Left(st)
  {
    assert WorkerLeft(st.workers[w].(lock := Unlocked)) == WorkerLeft(st.workers[w]);
    Lowers(st, DoJoin(st, t, s), t, w, |st.fin|);
  }

  lemma AddLowers(st: State, t: nat, a: HandAction)
    requires Inv(st) && HandEnabled(st, t, a) && (a.AddClient? || a.AddTarget?)
    ensures Left(HandStep(st, t, a)) < Left(st)
  {
    var s := st.hands[t].s;
    var w := st.slots[s].widx;
    assert HandOk(st, t) && FreeOk(st);
    assert SlotOk(st, s) && LogOk(st, s) && WorkerOk(st, w);
    if !a.ok {
      RollbackLowers(st, t, s, w);
    } else if a.AddTarget? {
      JoinLowers(st, t, s, w);
    } else {
      Lowers(st, SetHand(st, t, HalfAdded(s)), t, |st.workers|, |st.fin|);
    }
  }

  lemma DropLowers(st: State, t: nat)
    requires Inv(st) && HandEnabled(st, t, HandUnref)
    ensures Left(HandStep(st, t, HandUnref)) < Left(st)
  {
    Lowers(st, HandStep(st, t, HandUnref), t, |st.workers|, HandTid(t));
  }

  /** Worker steps that touch no connection. */
  lemma MoveLowers(wk: Worker, a: WorkerAction, wk': Worker)
    requires PointOk(wk)
    requires match a
             case Leave => wk.pc == Top && wk.garbage == [] && wk' == wk.(pc := Stop)
             case Shutdown => wk.pc.Batch? && wk' == wk.(pc := Stop)
             case Deliver(s, _) => wk.pc.Batch? && wk.pc.left > 0 && (wk' == wk.(pc := Handling(wk.pc.left - 1, s)) || wk' == wk.(pc := Batch(wk.pc.left - 1)))
             case Forward => wk.pc.Handling? && wk' == wk.(pc := Batch(wk.pc.left))
             case EndBatch(due) => wk.pc == Batch(0) && wk' == AfterBatch(wk, due)
             case SweepDone => wk.pc.Sweep? && wk' == wk.(pc := Collect(0), lock := Unlocked)
             case UnrefsDone => Unreffing(wk.pc) && NextUnref(wk) < 0 && wk' == AfterUnrefs(wk)
             case SetStopping => wk.pc == Stop && wk' == wk.(pc := Ready, stopping := true)
             case DrainLock => wk.pc == Ready && wk' == wk.(pc := Drain, lock := ByWorker, collected := [])
             case DrainUnlock => wk.pc == Drain && wk' == wk.(pc := DrainUnref(0), lock := Unlocked)
             case _ => false
    ensures WorkerLeft(wk') < WorkerLeft(wk)
  {
    match a
    case EndBatch(due) => RestBound(wk.list, Head(wk.list));
    case UnrefsDone => AfterUnrefsPoint(wk);
    case _ =>
  }

  lemma LoopMoves(st: State, w: nat, a: WorkerAction)
    requires Inv(st) && WorkerEnabled(st, w, a) && (a.Leave? ==> st.workers[w].garbage == [])
    requires !(a.Enter? || a.Fail? || a.SweepNext? || a.WorkerUnref? || a.DrainTake?)
    ensures Left(WorkerStep(st, w, a)) < Left(st)
  {
    assert WorkerOk(st, w);
    var st' := WorkerStep(st, w, a);
    MoveLowers(st.workers[w], a, st'.workers[w]);
    Lowers(st, st', |st.hands|, w, |st.fin|);
  }

  lemma FailLowers(st: State, w: nat)
    requires Inv(st) && WorkerEnabled(st, w, Fail)
    ensures Left(DoFail(st, w)) < Left(st)
  {
    assert WorkerOk(st, w);
    assert SlotOk(st, st.workers[w].pc.s);
    WithoutLength(st.workers[w].list, st.workers[w].pc.s);
    Lowers(st, DoFail(st, w), |st.hands|, w, |st.fin|);
  }

  lemma SweepLowers(st: State, w: nat, expired: bool)
    requires Inv(st) && WorkerEnabled(st, w, SweepNext(expired))
    ensures Left(DoSweep(st, w, expired)) < Left(st)
  {
    assert WorkerOk(st, w);
    var wk := st.workers[w];
    var s: nat := wk.pc.cur;
    var next := Next(wk.list, s);
    NextMember(wk.list, s);
    RestNext(wk.list, s);
    WithoutLength(wk.list, s);
    RestWithout(wk.list, s, next);
    Lowers(st, DoSweep(st, w, expired), |st.hands|, w, |st.fin|);
  }

  lemma TakeLowers(st: State, w: nat)
    requires Inv(st) && WorkerEnabled(st, w, DrainTake)
    ensures Left(DoTake(st, w)) < Left(st)
  {
    WithoutLength(st.workers[w].list, st.workers[w].list[0]);
    Lowers(st, DoTake(st, w), |st.hands|, w, |st.fin|);
  }

  lemma AdvanceLowers(wk: Worker)
    requires NextUnref(wk) >= 0
    ensures WorkerLeft(wk.(pc := Advance(wk.pc))) + 7 == WorkerLeft(wk)
  {
  }

  lemma UnrefLowers(st: State, w: nat)
    requires Inv(st) && WorkerEnabled(st, w, WorkerUnref)
    ensures Left(DoUnref(st, w)) < Left(st)
  {
    AdvanceLowers(st.workers[w]);
    Lowers(st, DoUnref(st, w), |st.hands|, w, w);
  }

  lemma FinLowers(st: State, i: nat)
    requires Inv(st) && FinEnabled(st, i)
    ensures Left(Finalize(st, i)) < Left(st)
  {
    assert FinOk(st, i);
    if st.fin[i].Exchanged? {
      var s := st.fin[i].s;
      assert SlotOk(st, s) && LogOk(st, s) && FreeOk(st);
      assert WorkerOk(st, st.slots[s].widx);
      NeverStillLinked(st, i, s);
    }
    Lowers(st, Finalize(st, i), |st.hands|, |st.workers|, i);
  }

  /** The work left falls with every finishing step. */
  lemma FinishingLowers(st: State, a: Action)
    requires Inv(st) && Enabled(st, a) && Finishing(a) && Orderly(st, a)
    ensures Left(Apply(st, a)) < Left(st)
  {
    match a
    case ByHandshake(t, h) =>
      match h {
        case Link => LinkLowers(st, t);
        case AddClient(_) => AddLowers(st, t, h);
        case AddTarget(_) => AddLowers(st, t, h);
        case HandUnref => DropLowers(st, t);
        case _ => AloneLowers(st, t, h);
      }
    case ByLoop(w, l) =>
      match l {
        case Fail => FailLowers(st, w);
        case SweepNext(expired) => SweepLowers(st, w, expired);
        case WorkerUnref => UnrefLowers(st, w);
        case DrainTake => TakeLowers(st, w);
        case _ => LoopMoves(st, w, l);
      }
    case FinStep(i) => FinLowers(st, i);
  }

  /** Without new work at most that many steps follow, in whatever order they are taken. */
  lemma {:induction false} FinishesWithin(states: seq<State>, acts: seq<Action>)
    requires |states| == |acts| + 1 && Inv(states[0])
    requires forall k {:trigger acts[k]} :: 0 <= k < |acts| ==> Finishing(acts[k]) && StepAt(states[k], acts[k], states[k + 1]) && Orderly(states[k], acts[k])
    ensures |acts| <= Left(states[0])
  {
    if acts != [] {
      assert StepAt(states[0], acts[0], states[1]);
      StepKeeps(states[0], acts[0]);
      FinishingLowers(states[0], acts[0]);
      assert forall k :: 0 <= k < |acts[1..]| ==> acts[1..][k] == acts[k + 1];
      FinishesWithin(states[1..], acts[1..]);
    }
  }

  // ----- and when none is left -----

  ghost predicate AtRest(st: State) { forall a :: Finishing(a) ==> !Enabled(st, a) }

  lemma LocksFree(st: State, w: nat)
    requires Inv(st) && AtRest(st) && w < WORKER_COUNT
    ensures st.workers[w].lock == Unlocked
  {
    assert WorkerOk(st, w);
    var wk := st.workers[w];
    assert !Enabled(st, ByLoop(w, SweepDone)) && !Enabled(st, ByLoop(w, SweepNext(true)));
    assert !Enabled(st, ByLoop(w, DrainUnlock)) && !Enabled(st, ByLoop(w, DrainTake));
    assert forall i :: 0 <= i < |wk.list| ==> wk.list[i] in wk.list;
    if wk.lock.ByHand? { NotInHandoff(st, wk.lock.t); }
  }

  lemma NotInHandoff(st: State, t: nat)
    requires Inv(st) && AtRest(st) && t < |st.hands|
    ensures !InHandoff(st.hands[t])
  {
    assert HandOk(st, t);
    if SlotOfHand(st.hands[t]) >= 0 { assert SlotOk(st, SlotOfHand(st.hands[t])); }
    assert !Enabled(st, ByHandshake(t, AddClient(true))) && !Enabled(st, ByHandshake(t, AddTarget(true)));
  }

  lemma NoFinalizer(st: State, i: nat)
    requires Inv(st) && AtRest(st) && i < |st.fin|
    ensures st.fin[i] == NoFin
  {
    assert FinOk(st, i) && !Enabled(st, FinStep(i));
    if st.fin[i].Exchanged? {
      assert SlotOk(st, st.fin[i].s);
      LocksFree(st, st.slots[st.fin[i].s].widx);
    }
  }

  lemma HandsIdle(st: State, t: nat)
    requires Inv(st) && AtRest(st) && t < |st.hands|
    ensures st.hands[t] == Idle
  {
    NoFinalizer(st, HandTid(t));
    NotInHandoff(st, t);
    assert HandOk(st, t) && FreeOk(st);
    assert !Enabled(st, ByHandshake(t, CountOut)) && !Enabled(st, ByHandshake(t, ConnectFails)) && !Enabled(st, ByHandshake(t, Wipe));
    assert !Enabled(st, ByHandshake(t, Publish)) && !Enabled(st, ByHandshake(t, Init(0, true))) && !Enabled(st, ByHandshake(t, Link));
    assert !Enabled(st, ByHandshake(t, Register)) && !Enabled(st, ByHandshake(t, HandUnref));
    if st.hands[t].Built? {
      assert SlotOk(st, st.hands[t].s);
      LocksFree(st, st.slots[st.hands[t].s].widx);
    }
  }

  lemma WorkersRest(st: State, w: nat)
    requires Inv(st) && AtRest(st) && w < WORKER_COUNT
    ensures st.workers[w].pc == Exited || (st.workers[w].pc == Top && st.running)
  {
    NoFinalizer(st, w);
    LocksFree(st, w);
    assert WorkerOk(st, w);
    assert !Enabled(st, ByLoop(w, Leave)) && !Enabled(st, ByLoop(w, Shutdown)) && !Enabled(st, ByLoop(w, EndBatch(false)));
    assert !Enabled(st, ByLoop(w, Forward)) && !Enabled(st, ByLoop(w, UnrefsDone)) && !Enabled(st, ByLoop(w, WorkerUnref));
    assert !Enabled(st, ByLoop(w, SetStopping)) && !Enabled(st, ByLoop(w, DrainLock));
    NextIsPending(st.workers[w]);
  }

  lemma NextIsPending(wk: Worker)
    requires PointOk(wk)
    ensures NextUnref(wk) >= 0 ==> NextUnref(wk) in Pending(wk)
  {
    if NextUnref(wk) >= 0 { assert Pending(wk)[if wk.pc.DrainUnref? then |wk.garbage| else 0] == NextUnref(wk); }
  }

  /** Nobody is stuck: when no finishing step is enabled, every slot is free, or serves an open connection of a running server. */
  lemma RestMeansReleased(st: State, s: nat)
    requires Inv(st) && AtRest(st) && s < SLOT_COUNT
    ensures s in st.free || (st.running && st.owner[s].Listed? && !st.slots[s].closed && st.slots[s].refs == 1)
  {
    assert SlotOk(st, s);
    match st.owner[s]
    case Stack =>
    case Held(t) => HandsIdle(st, t);
    case Listed(w) =>
      WorkersRest(st, w);
      assert WorkerOk(st, w);
    case Bucket(w) => WorkersRest(st, w);
    case Finalizer(i) => NoFinalizer(st, i);
  }

  /** A run that was stopped and has come to rest has released every connection it ever acquired, each exactly once. */
  lemma StoppedServerReleasedAll(states: seq<State>, acts: seq<Action>, k: nat, st: State, s: nat)
    requires Reached(states, acts, k, st) && AtRest(st) && !st.running && s < SLOT_COUNT
    ensures s in st.free && st.acquired == st.released && |st.free| == SLOT_COUNT
    ensures forall g :: g in st.log[s] <==> st.base[s] < g <= st.epoch[s]
  {
    RunInv(states, acts, k);
    RunBalanced(states, acts, k);
    RestMeansReleased(st, s);
    assert FreeOk(st);
    forall x | 0 <= x < SLOT_COUNT ensures !InUse(st.owner[x]) { RestMeansReleased(st, x); }
    forall t | 0 <= t < |st.hands| ensures !Uncounted(st.hands[t]) { HandsIdle(st, t); }
    forall i | 0 <= i < |st.fin| ensures !IsPushed(st.fin[i]) { NoFinalizer(st, i); }
    CountNone(st.owner, InUse);
    CountNone(st.hands, Uncounted);
    CountNone(st.fin, IsPushed);
    forall g ensures g in st.log[s] <==> st.base[s] < g <= st.epoch[s] { ReleasedExactlyOnce(states, acts, k, st, s, g); }
  }
}
