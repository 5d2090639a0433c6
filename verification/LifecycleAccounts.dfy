/** Counting slots and quota over every run: admission limit, conservation, and when a slot is available. */
module LifecycleAccounts {
  import opened Seqs
  import opened Lifecycle
  import opened LifecycleSafety
  import opened LifecycleRuns

  predicate InUse(o: Owner) { !o.Stack? }
  predicate OnWorker(o: Owner) { o.Listed? || o.Bucket? }
  predicate HasSlot(h: Hand) { SlotOfHand(h) >= 0 }
  predicate QuotaOnly(h: Hand) { h.Admitted? || h.NoSlot? }
  predicate IsOver(h: Hand) { h.Over? }
  predicate Uncounted(h: Hand) { h.Popped? || h.Wiped? }
  predicate FinQuota(f: Fin) { f.Claimed? || f.Exchanged? || f.Poisoned? }
  predicate FinWindow(f: Fin) { f.Returned? || f.Cleared? }
  predicate IsPushed(f: Fin) { f.Pushed? }

  /** Connections that hold a unit of quota. */
  ghost function AdmittedCount(st: State): int {
    Count(st.hands, QuotaOnly) + Count(st.hands, HasSlot) + Count(st.owner, OnWorker) + Count(st.fin, FinQuota) + st.udpHeld
  }

  /** Threads that counted themselves in above the limit and have not counted out yet. */
  ghost function OverCount(st: State): int { Count(st.hands, IsOver) + st.udpOver }

  /** Threads between returning the quota and pushing the slot back. */
  ghost function WindowCount(st: State): int { Count(st.fin, FinWindow) }

  ghost function UsedCount(st: State): int { Count(st.owner, InUse) }

  ghost predicate Balanced(st: State) {
    && UsedCount(st) == Count(st.hands, HasSlot) + Count(st.owner, OnWorker) + Count(st.fin, FinQuota) + WindowCount(st)
    && st.connCount == AdmittedCount(st) + OverCount(st)
    && AdmittedCount(st) <= MAX_CONNS
    && st.acquired + Count(st.hands, Uncounted) == st.released + Count(st.fin, IsPushed) + UsedCount(st)
    && |st.free| + UsedCount(st) == SLOT_COUNT
  }

  // ----- a step moves one owner, one hand and one finalizer -----

  function Bit(b: bool): int { if b then 1 else 0 }

  function At<T>(xs: seq<T>, k: nat, p: T -> bool): int { if k < |xs| then Bit(p(xs[k])) else 0 }

  lemma CountMoves<T(!new)>(xs: seq<T>, ys: seq<T>, k: nat, p: T -> bool)
    requires Same(xs, ys, k)
    ensures Count(ys, p) == Count(xs, p) - At(xs, k, p) + At(ys, k, p)
  {
    if k < |xs| {
      assert ys == xs[k := ys[k]];
      CountUpdate(xs, k, ys[k], p);
    } else {
      assert ys == xs;
    }
  }

  ghost predicate Moves(st: State, st': State, s: nat, t: nat, i: nat) {
    Same(st.owner, st'.owner, s) && Same(st.hands, st'.hands, t) && Same(st.fin, st'.fin, i)
  }

  /** What the step adds to each side, read off the three entries it touches. */
  ghost predicate Settles(st: State, st': State, s: nat, t: nat, i: nat) {
    var used := At(st'.owner, s, InUse) - At(st.owner, s, InUse);
    var onWorker := At(st'.owner, s, OnWorker) - At(st.owner, s, OnWorker);
    var hasSlot := At(st'.hands, t, HasSlot) - At(st.hands, t, HasSlot);
    var quotaOnly := At(st'.hands, t, QuotaOnly) - At(st.hands, t, QuotaOnly);
    var over := At(st'.hands, t, IsOver) - At(st.hands, t, IsOver) + st'.udpOver - st.udpOver;
    var finQuota := At(st'.fin, i, FinQuota) - At(st.fin, i, FinQuota);
    var window := At(st'.fin, i, FinWindow) - At(st.fin, i, FinWindow);
    var admitted := quotaOnly + hasSlot + onWorker + finQuota + st'.udpHeld - st.udpHeld;
    && used == hasSlot + onWorker + finQuota + window
    && st'.connCount - st.connCount == admitted + over
    && (admitted <= 0 || (admitted == 1 && over == 0 && st.connCount < MAX_CONNS))
    && st'.acquired + At(st'.hands, t, Uncounted) - st.acquired - At(st.hands, t, Uncounted)
       == st'.released + At(st'.fin, i, IsPushed) - st.released - At(st.fin, i, IsPushed) + used
    && |st'.free| - |st.free| + used == 0
  }

  lemma Rebalance(st: State, st': State, s: nat, t: nat, i: nat)
    requires Balanced(st) && Moves(st, st', s, t, i) && Settles(st, st', s, t, i)
    ensures Balanced(st')
  {
    CountMoves(st.owner, st'.owner, s, InUse);
    CountMoves(st.owner, st'.owner, s, OnWorker);
    CountMoves(st.hands, st'.hands, t, HasSlot);
    CountMoves(st.hands, st'.hands, t, QuotaOnly);
    CountMoves(st.hands, st'.hands, t, IsOver);
    CountMoves(st.hands, st'.hands, t, Uncounted);
    CountMoves(st.fin, st'.fin, i, FinQuota);
    CountMoves(st.fin, st'.fin, i, FinWindow);
    CountMoves(st.fin, st'.fin, i, IsPushed);
  }

  ghost predicate Pays(st: State, st': State, s: nat, t: nat, i: nat) {
    Moves(st, st', s, t, i) && Settles(st, st', s, t, i)
  }

  lemma AdmitPays(st: State, t: nat)
    requires t < |st.hands| && st.hands[t] == Idle
    ensures Pays(st, DoAdmit(st, t), |st.owner|, t, |st.fin|)
  {
  }

  lemma GiveBackPays(st: State, t: nat)
    requires t < |st.hands| && (st.hands[t] == Over || st.hands[t] == NoSlot || st.hands[t] == Admitted)
    ensures Pays(st, GiveBack(st, t), |st.owner|, t, |st.fin|)
  {
  }

  lemma PopPays(st: State, t: nat, s: nat)
    requires CanPop(st, t) && st.free != [] && s == st.free[|st.free| - 1] && st.owner[s] == Stack
    ensures Pays(st, DoPop(st, t), s, t, |st.fin|)
  {
  }

  lemma PreparePays(st: State, t: nat, w: nat, buffers: bool)
    requires t < |st.hands| && SlotAt(st, SlotOfHand(st.hands[t]))
    ensures st.hands[t].Popped? ==> Pays(st, DoWipe(st, t), |st.owner|, t, |st.fin|)
    ensures st.hands[t].Wiped? ==> Pays(st, DoPublish(st, t), |st.owner|, t, |st.fin|)
    ensures st.hands[t].Fresh? ==> Pays(st, DoInit(st, t, w, buffers), |st.owner|, t, |st.fin|)
  {
  }

  lemma LinkPays(st: State, t: nat)
    requires CanLink(st, t)
    ensures Pays(st, DoLink(st, t), |st.owner|, t, |st.fin|)
  {
  }

  lemma AddPays(st: State, t: nat, s: nat)
    requires t < |st.hands| && InHandoff(st.hands[t]) && s == st.hands[t].s && Routed(st, s) && st.owner[s] == Held(t)
    ensures Pays(st, SetHand(st, t, HalfAdded(s)), |st.owner|, t, |st.fin|)
    ensures Pays(st, Rollback(st, t, s), |st.owner|, t, |st.fin|)
  {
  }

  lemma JoinPays(st: State, t: nat, s: nat)
    requires t < |st.hands| && InHandoff(st.hands[t]) && s == st.hands[t].s && Routed(st, s) && st.owner[s] == Held(t)
    ensures Pays(st, DoJoin(st, t, s), s, t, |st.fin|)
  {
  }

  lemma RegisterPays(st: State, t: nat)
    requires t < |st.hands| && st.hands[t].Joined? && SlotAt(st, st.hands[t].s)
    ensures Pays(st, DoRegister(st, t), |st.owner|, t, |st.fin|)
  {
  }

  lemma HandUnrefPays(st: State, t: nat, s: nat)
    requires t < |st.hands| && st.hands[t] == Dropping(s) && SlotAt(st, s) && HandTid(t) < |st.fin|
    requires st.fin[HandTid(t)] == NoFin && st.owner[s] == Held(t) && st.slots[s].refs == 1
    ensures Pays(st, Unref(SetHand(st, t, Idle), HandTid(t), s), s, t, HandTid(t))
  {
  }

  lemma FinPays(st: State, i: nat, s: nat)
    requires FinEnabled(st, i) && (st.fin[i] != Pushed ==> s == SlotOfFin(st.fin[i]) && st.owner[s] == Finalizer(i))
    requires (st.fin[i] == Pushed ==> s == |st.owner|) && (st.fin[i].Claimed? ==> !st.slots[s].finalized)
    ensures Pays(st, Finalize(st, i), s, |st.hands|, i)
  {
  }

  lemma ClosePays(st: State, w: nat, s: nat, wk: Worker)
    requires w < |st.workers| && SlotAt(st, s) && st.owner[s] == Listed(w)
    ensures Pays(st, Close(st, w, s, wk), s, |st.hands|, |st.fin|)
  {
  }

  lemma PointPays(st: State, w: nat, wk: Worker)
    requires w < |st.workers|
    ensures Pays(st, SetWorker(st, w, wk), |st.owner|, |st.hands|, |st.fin|)
  {
  }

  lemma UnrefPays(st: State, w: nat, s: nat)
    requires w < |st.workers| && w < |st.fin| && s == NextUnref(st.workers[w]) && SlotAt(st, s)
    requires st.fin[w] == NoFin && st.owner[s] == Bucket(w) && st.slots[s].refs == 1
    ensures Pays(st, DoUnref(st, w), s, |st.hands|, w)
  {
  }

  // ----- every step keeps the books -----

  lemma HandBalances(st: State, t: nat, a: HandAction)
    requires Inv(st) && Balanced(st) && HandEnabled(st, t, a)
    ensures Balanced(HandStep(st, t, a))
  {
    var h := st.hands[t];
    var st' := HandStep(st, t, a);
    assert HandOk(st, t) && FreeOk(st);
    var none := |st.owner|;
    if SlotOfHand(h) >= 0 { assert SlotOk(st, SlotOfHand(h)); }
    match a
    case Admit => AdmitPays(st, t); Rebalance(st, st', none, t, |st.fin|);
    case CountOut => GiveBackPays(st, t); Rebalance(st, st', none, t, |st.fin|);
    case ConnectFails => GiveBackPays(st, t); Rebalance(st, st', none, t, |st.fin|);
    case Pop => PopBalances(st, t);
    case Wipe => PreparePays(st, t, 0, true); Rebalance(st, st', none, t, |st.fin|);
    case Publish => PreparePays(st, t, 0, true); Rebalance(st, st', none, t, |st.fin|);
    case Init(w, buffers) => PreparePays(st, t, w, buffers); Rebalance(st, st', none, t, |st.fin|);
    case Link => LinkPays(st, t); Rebalance(st, st', none, t, |st.fin|);
    case AddClient(_) => AddPays(st, t, h.s); Rebalance(st, st', none, t, |st.fin|);
    case AddTarget(ok) => AddPays(st, t, h.s); JoinPays(st, t, h.s); Rebalance(st, st', if ok then h.s else none, t, |st.fin|);
    case Register => RegisterPays(st, t); Rebalance(st, st', none, t, |st.fin|);
    case HandUnref => HandUnrefPays(st, t, h.s); Rebalance(st, st', h.s, t, HandTid(t));
  }

  lemma PopBalances(st: State, t: nat)
    requires Inv(st) && Balanced(st) && HandEnabled(st, t, Pop)
    ensures Balanced(HandStep(st, t, Pop))
  {
    if st.free == [] {
      Rebalance(st, DoPop(st, t), |st.owner|, t, |st.fin|);
    } else {
      var s := st.free[|st.free| - 1];
      assert FreeOk(st);
      assert s in st.free;
      PopPays(st, t, s);
      Rebalance(st, DoPop(st, t), s, t, |st.fin|);
    }
  }

  lemma FinBalances(st: State, i: nat)
    requires Inv(st) && Balanced(st) && FinEnabled(st, i)
    ensures Balanced(Finalize(st, i))
  {
    var s: nat := if st.fin[i] == Pushed then |st.owner| else SlotOfFin(st.fin[i]);
    assert FinOk(st, i);
    if st.fin[i] != Pushed { assert SlotOk(st, s); }
    FinPays(st, i, s);
    Rebalance(st, Finalize(st, i), s, |st.hands|, i);
  }

  lemma CloseBalances(st: State, w: nat, s: nat, wk: Worker)
    requires Balanced(st) && w < |st.workers| && SlotAt(st, s) && st.owner[s] == Listed(w)
    ensures Balanced(Close(st, w, s, wk))
  {
    ClosePays(st, w, s, wk);
    Rebalance(st, Close(st, w, s, wk), s, |st.hands|, |st.fin|);
  }

  lemma PointBalances(st: State, w: nat, wk: Worker)
    requires Balanced(st) && w < |st.workers|
    ensures Balanced(SetWorker(st, w, wk))
  {
    PointPays(st, w, wk);
    Rebalance(st, SetWorker(st, w, wk), |st.owner|, |st.hands|, |st.fin|);
  }

  lemma FailBalances(st: State, w: nat)
    requires Inv(st) && Balanced(st) && WorkerEnabled(st, w, Fail)
    ensures Balanced(WorkerStep(st, w, Fail))
  {
    var s := st.workers[w].pc.s;
    assert WorkerOk(st, w);
    assert SlotOk(st, s);
    CloseBalances(st, w, s, DoFail(st, w).workers[w]);
  }

  lemma SweepBalances(st: State, w: nat, expired: bool)
    requires Inv(st) && Balanced(st) && WorkerEnabled(st, w, SweepNext(expired))
    ensures Balanced(WorkerStep(st, w, SweepNext(expired)))
  {
    assert WorkerOk(st, w);
    var wk := DoSweep(st, w, expired).workers[w];
    CloseBalances(st, w, st.workers[w].pc.cur, wk);
    PointBalances(st, w, wk);
  }

  lemma TakeBalances(st: State, w: nat)
    requires Inv(st) && Balanced(st) && WorkerEnabled(st, w, DrainTake)
    ensures Balanced(WorkerStep(st, w, DrainTake))
  {
    var s := st.workers[w].list[0];
    assert WorkerOk(st, w);
    assert ListedOk(st, w, s);
    assert SlotOk(st, s);
    CloseBalances(st, w, s, DoTake(st, w).workers[w]);
  }

  lemma UnrefBalances(st: State, w: nat)
    requires Inv(st) && Balanced(st) && WorkerEnabled(st, w, WorkerUnref)
    ensures Balanced(WorkerStep(st, w, WorkerUnref))
  {
    var s: nat := NextUnref(st.workers[w]);
    assert WorkerOk(st, w);
    UnrefPending(st.workers[w], s);
    assert SlotOk(st, s);
    UnrefPays(st, w, s);
    Rebalance(st, DoUnref(st, w), s, |st.hands|, w);
  }

  lemma LoopBalances(st: State, w: nat, a: WorkerAction)
    requires Inv(st) && Balanced(st) && WorkerEnabled(st, w, a)
    ensures Balanced(WorkerStep(st, w, a))
  {
    match a
    case Fail => FailBalances(st, w);
    case SweepNext(expired) => SweepBalances(st, w, expired);
    case DrainTake => TakeBalances(st, w);
    case WorkerUnref => UnrefBalances(st, w);
    case _ => PointBalances(st, w, WorkerStep(st, w, a).workers[w]);
  }

  lemma StepBalances(st: State, a: Action)
    requires Inv(st) && Balanced(st) && Enabled(st, a)
    ensures Balanced(Apply(st, a))
  {
    match a
    case ByHandshake(t, h) => HandBalances(st, t, h);
    case ByLoop(w, l) => LoopBalances(st, w, l);
    case FinStep(i) => FinBalances(st, i);
    case _ => Rebalance(st, Apply(st, a), |st.owner|, |st.hands|, |st.fin|);
  }

  lemma {:induction false} CountNone<T>(xs: seq<T>, p: T -> bool)
    requires forall i :: 0 <= i < |xs| ==> !p(xs[i])
    ensures Count(xs, p) == 0
  {
    if xs != [] { CountNone(xs[1..], p); }
  }

  lemma BootBalanced(threads: nat)
    ensures Balanced(Boot(threads))
  {
    var st := Boot(threads);
    CountNone(st.owner, InUse);
    CountNone(st.owner, OnWorker);
    CountNone(st.hands, HasSlot);
    CountNone(st.hands, QuotaOnly);
    CountNone(st.hands, IsOver);
    CountNone(st.hands, Uncounted);
    CountNone(st.fin, FinQuota);
    CountNone(st.fin, FinWindow);
    CountNone(st.fin, IsPushed);
  }

  lemma {:induction false} RunBalanced(states: seq<State>, acts: seq<Action>, k: nat)
    requires Run(states, acts) && k < |states|
    ensures Balanced(states[k])
  {
    if k == 0 {
      var threads: nat :| states[0] == Boot(threads);
      BootBalanced(threads);
    } else {
      RunInv(states, acts, k - 1);
      RunBalanced(states, acts, k - 1);
      assert StepAt(states[k - 1], acts[k - 1], states[k]);
      StepBalances(states[k - 1], acts[k - 1]);
    }
  }

  // ----- main results -----

  /** TCP and UDP connections together never exceed the limit, however many handshakes race for it. */
  lemma NeverOverAdmitted(states: seq<State>, acts: seq<Action>, k: nat)
    requires Run(states, acts) && k < |states|
    ensures AdmittedCount(states[k]) <= 1000
    ensures states[k].connCount == AdmittedCount(states[k]) + OverCount(states[k])
    ensures UsedCount(states[k]) <= AdmittedCount(states[k]) + WindowCount(states[k])
  {
    RunBalanced(states, acts, k);
  }

  /** Acquired slots are the released ones plus those in use, up to threads about to count. */
  lemma AcquiredIsReleasedPlusInUse(states: seq<State>, acts: seq<Action>, k: nat)
    requires Run(states, acts) && k < |states|
    ensures var st := states[k];
            && st.acquired + Count(st.hands, Uncounted) == st.released + Count(st.fin, IsPushed) + UsedCount(st)
            && |st.free| + UsedCount(st) == 1088
  {
    RunBalanced(states, acts, k);
  }

  lemma {:induction false} CountPositive<T>(xs: seq<T>, i: nat, p: T -> bool)
    requires i < |xs| && p(xs[i])
    ensures Count(xs, p) >= 1
  {
    if i > 0 { CountPositive(xs[1..], i - 1, p); }
  }

  /** An admitted handshake finds a slot while at most 88 threads sit between returning quota and pushing a slot. */
  lemma AcquireSucceeds(states: seq<State>, acts: seq<Action>, k: nat, t: nat)
    requires Run(states, acts) && k < |states| && t < |states[k].hands| && states[k].hands[t] == Admitted
    requires WindowCount(states[k]) <= 88
    ensures states[k].free != []
  {
    RunBalanced(states, acts, k);
    CountPositive(states[k].hands, t, QuotaOnly);
  }
}
