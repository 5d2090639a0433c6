/** Ownership of connection slots over every interleaving of the lifecycle steps. */
module LifecycleSafety {
  import opened Seqs
  import opened Lifecycle

  // ----- the invariant -----

  ghost predicate Shape(st: State) {
    && |st.slots| == |st.owner| == |st.epoch| == |st.base| == |st.log| == SLOT_COUNT
    && |st.workers| == WORKER_COUNT
    && |st.fin| == WORKER_COUNT + |st.hands|
  }

  /** An initialized, unfinalized connection routed to worker w, carrying its base reference. */
  predicate Live(x: Slot, w: nat) {
    x.active && x.magic == CONN_MAGIC && x.widx == w && x.refs == 1 && !x.finalized
  }

  predicate Quiet(x: Slot) { x.closed || !x.registered }

  predicate HandFields(h: Hand, x: Slot, e: nat) {
    match h
    case Popped(_, g) => g == e && x.gen == e && !x.active
    case Wiped(_, g) => g == e && !x.active && x.magic == 0 && !x.closed
    case Fresh(_) => x.gen == e && x.active && x.magic == 0 && !x.closed
    case Built(_) => x.gen == e && x.widx < WORKER_COUNT && Live(x, x.widx) && !x.closed && !x.registered
    case Linked(_) => x.gen == e && x.widx < WORKER_COUNT && Live(x, x.widx) && !x.closed && !x.registered
    case HalfAdded(_) => x.gen == e && x.widx < WORKER_COUNT && Live(x, x.widx) && !x.closed && !x.registered
    case Dropping(_) => x.gen == e && x.widx < WORKER_COUNT && Live(x, x.widx) && Quiet(x)
    case _ => true
  }

  predicate FinFields(f: Fin, x: Slot, e: nat) {
    x.gen == e && x.widx < WORKER_COUNT && Quiet(x) &&
    match f
    case Claimed(_) => x.active && x.magic == CONN_MAGIC && !x.finalized
    case Exchanged(_) => x.active && x.magic == CONN_MAGIC
    case Poisoned(_) => x.active && x.magic == 0
    case Returned(_) => x.active && x.magic == 0
    case Cleared(_) => !x.active
    case _ => true
  }

  /** What the owner of a slot guarantees about it, and that the owner knows it. */
  ghost predicate SlotOk(st: State, s: nat)
    requires Shape(st) && s < SLOT_COUNT
  {
    var x := st.slots[s];
    match st.owner[s]
    case Stack => s in st.free && !x.active && x.gen == st.epoch[s]
    case Held(t) => t < |st.hands| && SlotOfHand(st.hands[t]) == s && HandFields(st.hands[t], x, st.epoch[s])
    case Listed(w) => w < WORKER_COUNT && s in st.workers[w].list && Live(x, w) && !x.closed && x.gen == st.epoch[s]
    case Bucket(w) => w < WORKER_COUNT && s in Pending(st.workers[w]) && Live(x, w) && x.closed && x.gen == st.epoch[s]
    case Finalizer(i) => i < |st.fin| && SlotOfFin(st.fin[i]) == s && FinFields(st.fin[i], x, st.epoch[s])
  }

  predicate InHandoff(h: Hand) { h.Linked? || h.HalfAdded? }

  /**
    A handshake thread past its critical section still owes the slot one store of `registered`.
    Until it makes it, the slot is the connection it published, that connection on its way out,
    or a slot that has not been initialized again.
   */
  ghost predicate StragglerOk(st: State, s: nat, g: nat)
    requires Shape(st)
  {
    s < SLOT_COUNT && g <= st.epoch[s] &&
    match st.owner[s]
    case Stack => true
    case Held(t) => t < |st.hands| && (st.hands[t].Popped? || st.hands[t].Wiped? || st.hands[t].Fresh?)
    case Listed(_) => g == st.epoch[s]
    case Bucket(_) => true
    case Finalizer(_) => st.slots[s].closed
  }

  ghost predicate HandOk(st: State, t: nat)
    requires Shape(st) && t < |st.hands|
  {
    var h := st.hands[t];
    var s := SlotOfHand(h);
    && (s >= 0 ==> s < SLOT_COUNT && st.owner[s] == Held(t))
    && (InHandoff(h) ==> 0 <= s < SLOT_COUNT && Holding(st, t, st.slots[s].widx) && s in st.workers[st.slots[s].widx].list)
    && (h.Joined? ==> StragglerOk(st, h.s, h.g))
    && (st.fin[HandTid(t)] != NoFin ==> h.Idle?)
  }

  ghost predicate Holding(st: State, t: nat, w: nat) {
    w < |st.workers| && st.workers[w].lock == ByHand(t)
  }

  ghost predicate FinOk(st: State, i: nat)
    requires Shape(st) && i < |st.fin|
  {
    var s := SlotOfFin(st.fin[i]);
    s >= 0 ==> s < SLOT_COUNT && st.owner[s] == Finalizer(i)
  }

  /** A slot on worker w's list belongs to w, or to the handshake thread that holds w's lock. */
  ghost predicate ListedOk(st: State, w: nat, s: nat)
    requires Shape(st) && w < WORKER_COUNT
  {
    s < SLOT_COUNT &&
    (st.owner[s] == Listed(w) ||
     (st.owner[s].Held? && st.owner[s].t < |st.hands| && InHandoff(st.hands[st.owner[s].t]) &&
      SlotOfHand(st.hands[st.owner[s].t]) == s && st.workers[w].lock == ByHand(st.owner[s].t)))
  }

  ghost predicate LockOk(st: State, w: nat)
    requires Shape(st) && w < WORKER_COUNT
  {
    var wk := st.workers[w];
    && (wk.lock == ByWorker <==> wk.pc.Sweep? || wk.pc.Drain?)
    && (wk.lock.ByHand? ==> wk.lock.t < |st.hands| && InHandoff(st.hands[wk.lock.t]) && !wk.stopping)
    && (wk.lock.ByHand? && SlotAt(st, SlotOfHand(st.hands[wk.lock.t])) ==> st.slots[SlotOfHand(st.hands[wk.lock.t])].widx == w)
    && (st.fin[w] != NoFin ==> Unreffing(wk.pc))
  }

  predicate Leaving(pc: Point) {
    pc.Ready? || pc.Drain? || pc.DrainUnref? || pc.Last? || pc.Exited?
  }

  predicate PointOk(wk: Worker) {
    && (wk.stopping <==> Leaving(wk.pc))
    && (wk.pc.Last? || wk.pc.Exited? || (wk.pc.DrainUnref? && |wk.collected| < BUCKET) ==> wk.list == [])
    && match wk.pc
       case Batch(left) => |wk.garbage| + left <= BUCKET
       case Handling(left, s) => |wk.garbage| + left < BUCKET
       case Sweep(cur) => |wk.garbage| <= BUCKET
       case Flush(k, _, next) => k <= |wk.garbage| <= BUCKET
       case Collect(k) => k <= |wk.garbage|
       case Drain => |wk.collected| <= BUCKET
       case DrainUnref(k) => k <= |wk.collected| <= BUCKET
       case Last(k) => k <= |wk.garbage|
       case _ => true
  }

  ghost predicate HandlingOk(st: State, w: nat)
    requires Shape(st) && w < WORKER_COUNT
  {
    st.workers[w].pc.Handling? ==>
      var s := st.workers[w].pc.s;
      s < SLOT_COUNT && st.owner[s] == Listed(w) && st.slots[s].registered
  }

  /** The cursor of a timeout scan, also while the lock is released, is on the list. */
  ghost predicate CursorOk(st: State, w: nat)
    requires Shape(st) && w < WORKER_COUNT
  {
    var cur := match st.workers[w].pc case Sweep(cur) => cur case Flush(_, _, next) => next case _ => -1;
    cur >= 0 ==> cur < SLOT_COUNT && st.owner[cur] == Listed(w) && cur in st.workers[w].list
  }

  ghost predicate WorkerOk(st: State, w: nat)
    requires Shape(st) && w < WORKER_COUNT
  {
    var wk := st.workers[w];
    && NoDup(wk.list) && (forall s :: s in wk.list ==> ListedOk(st, w, s))
    && NoDup(Pending(wk)) && (forall s :: s in Pending(wk) ==> s < SLOT_COUNT && st.owner[s] == Bucket(w))
    && PointOk(wk) && LockOk(st, w) && HandlingOk(st, w) && CursorOk(st, w)
  }

  ghost predicate FreeOk(st: State)
    requires Shape(st)
  {
    NoDup(st.free) && forall s :: s in st.free ==> s < SLOT_COUNT && st.owner[s] == Stack
  }

  /** Past its last useful moment: closing, being finalized, or already back on the stack. */
  ghost predicate Doomed(st: State, s: nat)
    requires Shape(st) && s < SLOT_COUNT
  {
    match st.owner[s]
    case Held(t) => t < |st.hands| && st.hands[t].Dropping?
    case Listed(_) => false
    case _ => true
  }

  ghost predicate DeadOk(st: State)
    requires Shape(st)
  {
    forall s, g :: (s, g) in st.dead ==>
      s < SLOT_COUNT && g <= st.epoch[s] && (g == st.epoch[s] ==> Doomed(st, s))
  }

  /**
    Every incarnation but the one in use has been released once, in order, and one that is on
    its way out is known to be.
   */
  ghost predicate LogOk(st: State, s: nat)
    requires Shape(st) && s < SLOT_COUNT
  {
    && (Doomed(st, s) && st.owner[s] != Stack ==> (s, st.epoch[s]) in st.dead)
    && st.base[s] + |st.log[s]| + (if st.owner[s] == Stack then 0 else 1) == st.epoch[s]
    && forall i :: 0 <= i < |st.log[s]| ==> st.log[s][i] == st.base[s] + 1 + i
  }

  ghost predicate Inv(st: State) {
    && Shape(st)
    && (forall s :: 0 <= s < SLOT_COUNT ==> SlotOk(st, s))
    && (forall t :: 0 <= t < |st.hands| ==> HandOk(st, t))
    && (forall i :: 0 <= i < |st.fin| ==> FinOk(st, i))
    && (forall w :: 0 <= w < WORKER_COUNT ==> WorkerOk(st, w))
    && FreeOk(st) && DeadOk(st)
    && (forall s :: 0 <= s < SLOT_COUNT ==> LogOk(st, s))
    && st.doubleFin == 0
  }

  // ----- framing: a step touches at most one slot, one hand, one worker, one finalizer -----

  ghost predicate Same<T(!new)>(a: seq<T>, b: seq<T>, k: nat) {
    |a| == |b| && forall j :: 0 <= j < |a| && j != k ==> a[j] == b[j]
  }

  /** Slot s belongs to the thread, worker or finalizer that takes the step. */
  ghost predicate Mine(o: Owner, t: nat, w: nat, i: nat) {
    match o
    case Stack => true
    case Held(t0) => t0 == t
    case Listed(w0) => w0 == w
    case Bucket(w0) => w0 == w
    case Finalizer(i0) => i0 == i
  }

  /** Nothing changes outside indices s, t, w and i, and nobody else loses a slot. */
  ghost predicate Local(st: State, st': State, s: nat, t: nat, w: nat, i: nat)
    requires Shape(st)
  {
    && Shape(st') && st'.base == st.base && st'.doubleFin == 0 && st.dead <= st'.dead
    && Same(st.slots, st'.slots, s) && Same(st.owner, st'.owner, s)
    && Same(st.epoch, st'.epoch, s) && Same(st.log, st'.log, s)
    && Same(st.hands, st'.hands, t) && Same(st.workers, st'.workers, w) && Same(st.fin, st'.fin, i)
    && (s < SLOT_COUNT ==> Mine(st.owner[s], t, w, i))
    && (t < |st.hands| ==> SlotOfHand(st.hands[t]) == -1 || SlotOfHand(st.hands[t]) == s)
    && (t < |st.hands| && InHandoff(st.hands[t]) ==> SlotAt(st, s) && w == st.slots[s].widx)
    && (i < |st.fin| ==> SlotOfFin(st.fin[i]) == -1 || SlotOfFin(st.fin[i]) == s)
    && (w < WORKER_COUNT ==> WorkerLocal(st, st', s, t, w))
    && (forall x :: x in st.free && x != s ==> x in st'.free)
    && (i < |st.fin| ==> st.fin[i] != NoFin || st'.fin[i] == NoFin || (i == w && w < WORKER_COUNT) || i == HandTid(t))
  }

  ghost predicate WorkerLocal(st: State, st': State, s: nat, t: nat, w: nat)
    requires Shape(st) && Shape(st') && w < WORKER_COUNT
  {
    && (forall x :: x in st.workers[w].list && x != s ==> x in st'.workers[w].list)
    && (forall x :: x in Pending(st.workers[w]) && x != s ==> x in Pending(st'.workers[w]))
    && (st.workers[w].lock.ByHand? && st.workers[w].lock.t != t ==> st'.workers[w].lock == st.workers[w].lock)
  }

  /** What a step must establish at the indices it touches. */
  ghost predicate Settled(st: State, st': State, s: nat, t: nat, w: nat, i: nat)
    requires Shape(st) && Shape(st')
  {
    && (s < SLOT_COUNT ==> SlotOk(st', s) && LogOk(st', s))
    && (t < |st'.hands| ==> HandOk(st', t))
    && (i < |st'.fin| ==> FinOk(st', i))
    && FreeOk(st')
    && (s < SLOT_COUNT ==> st.epoch[s] <= st'.epoch[s])
    && (s < SLOT_COUNT && st.epoch[s] == st'.epoch[s] && Doomed(st, s) ==> Doomed(st', s))
    && (forall p :: p in st'.dead && p !in st.dead ==> s < SLOT_COUNT && p == (s, st'.epoch[s]) && Doomed(st', s))
  }

  /** Threads that still owe slot s a store are not surprised by the step. */
  ghost predicate StragglersOk(st': State, s: nat, t: nat)
    requires Shape(st')
  {
    forall x :: 0 <= x < |st'.hands| && x != t && st'.hands[x].Joined? && st'.hands[x].s == s ==>
      StragglerOk(st', s, st'.hands[x].g)
  }

  lemma StragglersStay(st: State, st': State, s: nat, t: nat)
    requires Inv(st) && Shape(st') && Same(st.hands, st'.hands, t)
    requires forall g :: StragglerOk(st, s, g) ==> StragglerOk(st', s, g)
    ensures StragglersOk(st', s, t)
  {
    forall x | 0 <= x < |st'.hands| && x != t && st'.hands[x].Joined? && st'.hands[x].s == s
      ensures StragglerOk(st', s, st'.hands[x].g)
    {
      assert HandOk(st, x);
    }
  }

  lemma FrameSlots(st: State, st': State, s: nat, t: nat, w: nat, i: nat)
    requires Inv(st) && Local(st, st', s, t, w, i) && Settled(st, st', s, t, w, i)
    ensures forall x :: 0 <= x < SLOT_COUNT ==> SlotOk(st', x) && LogOk(st', x)
  {
    forall x | 0 <= x < SLOT_COUNT ensures SlotOk(st', x) && LogOk(st', x) {
      assert SlotOk(st, x) && LogOk(st, x);
    }
  }

  lemma FrameHands(st: State, st': State, s: nat, t: nat, w: nat, i: nat)
    requires Inv(st) && Local(st, st', s, t, w, i) && Settled(st, st', s, t, w, i) && StragglersOk(st', s, t)
    ensures forall x :: 0 <= x < |st'.hands| ==> HandOk(st', x)
  {
    forall x | 0 <= x < |st'.hands| ensures HandOk(st', x) {
      assert HandOk(st, x);
      var h := st.hands[x];
      if h.Joined? && h.s < SLOT_COUNT { assert SlotOk(st, h.s); }
    }
  }

  lemma FrameFins(st: State, st': State, s: nat, t: nat, w: nat, i: nat)
    requires Inv(st) && Local(st, st', s, t, w, i) && Settled(st, st', s, t, w, i)
    ensures forall x :: 0 <= x < |st'.fin| ==> FinOk(st', x)
  {
    forall x | 0 <= x < |st'.fin| ensures FinOk(st', x) {
      assert FinOk(st, x);
    }
  }

  lemma FrameList(st: State, st': State, s: nat, t: nat, w: nat, i: nat, x: nat)
    requires Inv(st) && Local(st, st', s, t, w, i) && x < WORKER_COUNT && x != w
    ensures forall y :: y in st'.workers[x].list ==> ListedOk(st', x, y)
    ensures forall y :: y in Pending(st'.workers[x]) ==> y < SLOT_COUNT && st'.owner[y] == Bucket(x)
  {
    assert WorkerOk(st, x);
    forall y | y in st'.workers[x].list ensures ListedOk(st', x, y) {
      assert ListedOk(st, x, y);
      if st.owner[y].Held? { assert SlotOk(st, y); }
    }
  }

  lemma FrameWorkers(st: State, st': State, s: nat, t: nat, w: nat, i: nat)
    requires Inv(st) && Local(st, st', s, t, w, i) && (w < WORKER_COUNT ==> WorkerOk(st', w))
    ensures forall x :: 0 <= x < WORKER_COUNT ==> WorkerOk(st', x)
  {
    forall x | 0 <= x < WORKER_COUNT ensures WorkerOk(st', x) {
      assert WorkerOk(st, x);
      if x != w {
        FrameList(st, st', s, t, w, i, x);
        FrameLock(st, st', s, t, w, i, x);
      }
    }
  }

  lemma FrameLock(st: State, st': State, s: nat, t: nat, w: nat, i: nat, x: nat)
    requires Inv(st) && Local(st, st', s, t, w, i) && x < WORKER_COUNT && x != w
    ensures LockOk(st', x) && HandlingOk(st', x) && CursorOk(st', x)
  {
    assert WorkerOk(st, x);
    if st.workers[x].lock.ByHand? { assert HandOk(st, st.workers[x].lock.t); }
  }

  lemma FrameDead(st: State, st': State, s: nat, t: nat, w: nat, i: nat)
    requires Inv(st) && Local(st, st', s, t, w, i) && Settled(st, st', s, t, w, i)
    ensures DeadOk(st')
  {
    assert DeadOk(st);
    forall x, g | (x, g) in st'.dead
      ensures x < SLOT_COUNT && g <= st'.epoch[x] && (g == st'.epoch[x] ==> Doomed(st', x))
    {
      if x < SLOT_COUNT { assert SlotOk(st, x); }
    }
  }

  lemma Frame(st: State, st': State, s: nat, t: nat, w: nat, i: nat)
    requires Inv(st) && Local(st, st', s, t, w, i) && Settled(st, st', s, t, w, i)
    requires StragglersOk(st', s, t) && (w < WORKER_COUNT ==> WorkerOk(st', w))
    ensures Inv(st')
  {
    FrameSlots(st, st', s, t, w, i);
    FrameHands(st, st', s, t, w, i);
    FrameFins(st, st', s, t, w, i);
    FrameWorkers(st, st', s, t, w, i);
    FrameDead(st, st', s, t, w, i);
  }

  // ----- preservation by the handshake threads -----

  /** The part of the invariant one handshake thread works with. */
  ghost predicate HandView(st: State, t: nat) {
    Shape(st) && t < |st.hands| && HandOk(st, t) && FreeOk(st) && st.doubleFin == 0 &&
    var s := SlotOfHand(st.hands[t]);
    s >= 0 ==> SlotOk(st, s) && LogOk(st, s)
  }

  ghost predicate Steps(st: State, st': State, s: nat, t: nat, w: nat, i: nat) {
    Shape(st) && Local(st, st', s, t, w, i) && Settled(st, st', s, t, w, i) && Patient(st, st', s)
  }

  /** Whatever a straggler could count on, it still can. */
  ghost predicate Patient(st: State, st': State, s: nat)
    requires Shape(st) && Shape(st')
  {
    s < SLOT_COUNT ==> forall g :: StragglerOk(st, s, g) ==> StragglerOk(st', s, g)
  }

  lemma QuotaSteps(st: State, st': State, t: nat)
    requires HandView(st, t) && !st.hands[t].Joined? && (st' == DoAdmit(st, t) || st' == GiveBack(st, t))
    requires SlotOfHand(st.hands[t]) == -1 && (st.fin[HandTid(t)] == NoFin || st' == GiveBack(st, t))
    ensures Steps(st, st', SLOT_COUNT, t, WORKER_COUNT, |st.fin|)
  {
  }

  lemma PopSteps(st: State, t: nat, s: nat)
    requires HandView(st, t) && CanPop(st, t) && st.free != [] && s == st.free[|st.free| - 1]
    requires s < SLOT_COUNT && SlotOk(st, s) && LogOk(st, s) && st.owner[s] == Stack
    ensures Steps(st, DoPop(st, t), s, t, WORKER_COUNT, |st.fin|)
  {
    var st' := DoPop(st, t);
    assert st.free == st'.free + [s];
    NoDupAppend(st'.free, s);
    forall y | y in st'.free ensures y in st.free && y != s { }
  }

  lemma WipeSteps(st: State, t: nat)
    requires HandView(st, t) && st.hands[t].Popped?
    ensures Steps(st, DoWipe(st, t), st.hands[t].s, t, WORKER_COUNT, |st.fin|)
  {
  }

  lemma PublishSteps(st: State, t: nat)
    requires HandView(st, t) && st.hands[t].Wiped?
    ensures Steps(st, DoPublish(st, t), st.hands[t].s, t, WORKER_COUNT, |st.fin|)
  {
  }

  lemma InitSteps(st: State, t: nat, w: nat, buffers: bool)
    requires HandView(st, t) && st.hands[t].Fresh? && w < WORKER_COUNT
    ensures Local(st, DoInit(st, t, w, buffers), st.hands[t].s, t, WORKER_COUNT, |st.fin|)
    ensures Settled(st, DoInit(st, t, w, buffers), st.hands[t].s, t, WORKER_COUNT, |st.fin|)
  {
  }

  /** A handshake thread that is about to touch, or holds the lock of, its worker's list. */
  ghost predicate HandoffView(st: State, t: nat, s: nat, w: nat) {
    HandView(st, t) && s == SlotOfHand(st.hands[t]) && s < SLOT_COUNT &&
    w == st.slots[s].widx && w < WORKER_COUNT && WorkerOk(st, w)
  }

  lemma LinkSteps(st: State, t: nat, s: nat, w: nat)
    requires HandoffView(st, t, s, w) && CanLink(st, t) && !st.workers[w].stopping
    ensures Steps(st, DoLink(st, t), s, t, w, |st.fin|)
  {
    var st' := DoLink(st, t);
    assert WorkerLocal(st, st', s, t, w);
  }

  lemma RefusedSteps(st: State, t: nat, s: nat, w: nat)
    requires HandoffView(st, t, s, w) && CanLink(st, t) && st.workers[w].stopping
    ensures Steps(st, DoLink(st, t), s, t, w, |st.fin|)
  {
  }

  lemma LinkWorker(st: State, t: nat, s: nat, w: nat)
    requires HandoffView(st, t, s, w) && CanLink(st, t)
    ensures WorkerOk(DoLink(st, t), w)
  {
    var st' := DoLink(st, t);
    assert s !in st.workers[w].list;
    if !st.workers[w].stopping { assert st'.workers[w].list[1..] == st.workers[w].list; }
    forall y | y in st'.workers[w].list ensures ListedOk(st', w, y) {
      if y != s { assert ListedOk(st, w, y); }
    }
  }

  lemma AddSteps(st: State, t: nat, s: nat, w: nat)
    requires HandoffView(st, t, s, w) && st.hands[t].Linked?
    ensures Steps(st, SetHand(st, t, HalfAdded(s)), s, t, w, |st.fin|)
    ensures WorkerOk(SetHand(st, t, HalfAdded(s)), w)
  {
    var st' := SetHand(st, t, HalfAdded(s));
    forall y | y in st'.workers[w].list ensures ListedOk(st', w, y) {
      assert ListedOk(st, w, y);
    }
  }

  lemma JoinSteps(st: State, t: nat, s: nat, w: nat)
    requires HandoffView(st, t, s, w) && st.hands[t].HalfAdded?
    ensures Steps(st, DoJoin(st, t, s), s, t, w, |st.fin|)
  {
  }

  lemma JoinWorker(st: State, t: nat, s: nat, w: nat)
    requires HandoffView(st, t, s, w) && st.hands[t].HalfAdded?
    ensures WorkerOk(DoJoin(st, t, s), w)
  {
    var st' := DoJoin(st, t, s);
    forall y | y in st'.workers[w].list ensures ListedOk(st', w, y) {
      assert ListedOk(st, w, y);
    }
  }

  lemma RollbackSteps(st: State, t: nat, s: nat, w: nat)
    requires HandoffView(st, t, s, w) && InHandoff(st.hands[t])
    ensures Steps(st, Rollback(st, t, s), s, t, w, |st.fin|)
  {
    WithoutMembers(st.workers[w].list, s);
  }

  lemma RollbackWorker(st: State, t: nat, s: nat, w: nat)
    requires HandoffView(st, t, s, w) && InHandoff(st.hands[t])
    ensures WorkerOk(Rollback(st, t, s), w)
  {
    var st' := Rollback(st, t, s);
    WithoutMembers(st.workers[w].list, s);
    forall y | y in st'.workers[w].list ensures ListedOk(st', w, y) {
      assert ListedOk(st, w, y);
    }
  }

  lemma HandUnrefSteps(st: State, t: nat, s: nat)
    requires HandView(st, t) && st.hands[t] == Dropping(s) && st.fin[HandTid(t)] == NoFin
    ensures Steps(st, Unref(SetHand(st, t, Idle), HandTid(t), s), s, t, WORKER_COUNT, HandTid(t))
  {
  }

  // ----- preservation by conn_finalize -----

  ghost predicate FinView(st: State, i: nat, s: nat) {
    Shape(st) && i < |st.fin| && FinOk(st, i) && FreeOk(st) && st.doubleFin == 0 &&
    s == SlotOfFin(st.fin[i]) && s < SLOT_COUNT && SlotOk(st, s) && LogOk(st, s) && FinEnabled(st, i)
  }

  /** The linkedness test of conn_finalize finds nothing to remove. */
  lemma NeverStillLinked(st: State, i: nat, s: nat)
    requires FinView(st, i, s) && st.slots[s].widx < WORKER_COUNT && WorkerOk(st, st.slots[s].widx)
    ensures !StillLinked(st, s)
  {
    var w := st.slots[s].widx;
    assert forall y :: y in st.workers[w].list ==> ListedOk(st, w, y);
  }

  lemma ClaimSteps(st: State, i: nat, s: nat)
    requires FinView(st, i, s) && (st.fin[i].Claimed? || st.fin[i].Exchanged?)
    requires st.fin[i].Exchanged? ==> !StillLinked(st, s)
    ensures Steps(st, Finalize(st, i), s, |st.hands|, WORKER_COUNT, i)
  {
  }

  lemma FinSteps(st: State, i: nat, s: nat)
    requires FinView(st, i, s) && (st.fin[i].Poisoned? || st.fin[i].Returned?)
    ensures Steps(st, Finalize(st, i), s, |st.hands|, WORKER_COUNT, i)
  {
  }

  lemma ReleaseSteps(st: State, i: nat, s: nat)
    requires FinView(st, i, s) && st.fin[i].Cleared?
    ensures Steps(st, Finalize(st, i), s, |st.hands|, WORKER_COUNT, i)
  {
    assert s !in st.free;
    NoDupAppend(st.free, s);
  }

  lemma CountSteps(st: State, i: nat)
    requires Shape(st) && i < |st.fin| && st.fin[i] == Pushed && FreeOk(st) && st.doubleFin == 0
    ensures Steps(st, Finalize(st, i), SLOT_COUNT, |st.hands|, WORKER_COUNT, i)
  {
  }

  // ----- preservation by the workers -----

  ghost predicate WorkerView(st: State, w: nat) {
    Shape(st) && w < WORKER_COUNT && WorkerOk(st, w) && FreeOk(st) && st.doubleFin == 0
  }

  ghost predicate LockMoves(a: Lock, b: Lock) {
    a == b || (a == Unlocked && b == ByWorker) || (a == ByWorker && b == Unlocked)
  }

  /** A worker moves on without touching a slot. */
  lemma PointSteps(st: State, w: nat, wk: Worker)
    requires WorkerView(st, w) && wk.list == st.workers[w].list && LockMoves(st.workers[w].lock, wk.lock)
    requires NoDup(Pending(wk)) && (forall x :: x in Pending(wk) <==> x in Pending(st.workers[w]))
    requires var st' := SetWorker(st, w, wk); PointOk(wk) && LockOk(st', w) && HandlingOk(st', w) && CursorOk(st', w)
    ensures Steps(st, SetWorker(st, w, wk), SLOT_COUNT, |st.hands|, w, |st.fin|)
    ensures WorkerOk(SetWorker(st, w, wk), w)
  {
    var st' := SetWorker(st, w, wk);
    forall y | y in wk.list ensures ListedOk(st', w, y) { assert ListedOk(st, w, y); }
  }

  /** The worker after closing s: off the list, into the bucket. */
  ghost predicate Took(wk: Worker, wk': Worker, s: nat) {
    && wk'.list == Without(wk.list, s) && LockMoves(wk.lock, wk'.lock)
    && NoDup(Pending(wk')) && (forall x :: x in Pending(wk') <==> x in Pending(wk) || x == s)
    && PointOk(wk')
  }

  lemma CloseSteps(st: State, w: nat, s: nat, wk: Worker)
    requires WorkerView(st, w) && s < SLOT_COUNT && st.owner[s] == Listed(w) && SlotOk(st, s) && LogOk(st, s)
    requires Took(st.workers[w], wk, s)
    ensures Steps(st, Close(st, w, s, wk), s, |st.hands|, w, |st.fin|)
  {
    WithoutMembers(st.workers[w].list, s);
  }

  lemma CloseWorker(st: State, w: nat, s: nat, wk: Worker)
    requires WorkerView(st, w) && s < SLOT_COUNT && st.owner[s] == Listed(w)
    requires Took(st.workers[w], wk, s)
    requires var st' := Close(st, w, s, wk); LockOk(st', w) && HandlingOk(st', w) && CursorOk(st', w)
    ensures WorkerOk(Close(st, w, s, wk), w)
  {
    var st' := Close(st, w, s, wk);
    WithoutMembers(st.workers[w].list, s);
    forall y | y in wk.list ensures ListedOk(st', w, y) { assert ListedOk(st, w, y); }
  }

  ghost predicate Lost(xs: seq<nat>, ys: seq<nat>, s: nat) {
    NoDup(ys) && s in xs && forall x :: x in ys <==> x in xs && x != s
  }

  /** The slot a worker is about to unref, and what its bucket loses by it. */
  ghost predicate UnrefView(st: State, w: nat, s: nat) {
    && WorkerView(st, w) && s == NextUnref(st.workers[w]) && s < SLOT_COUNT && st.fin[w] == NoFin
    && st.owner[s] == Bucket(w) && SlotOk(st, s) && LogOk(st, s)
    && Lost(Pending(st.workers[w]), Pending(DoUnref(st, w).workers[w]), s)
  }

  lemma UnrefSteps(st: State, w: nat, s: nat)
    requires UnrefView(st, w, s)
    ensures Steps(st, DoUnref(st, w), s, |st.hands|, w, w)
  {
  }

  lemma AdvancePoint(wk: Worker)
    requires PointOk(wk) && NextUnref(wk) >= 0
    ensures PointOk(wk.(pc := Advance(wk.pc)))
  {
  }

  lemma UnrefWorker(st: State, w: nat, s: nat)
    requires UnrefView(st, w, s)
    ensures WorkerOk(DoUnref(st, w), w)
  {
    AdvancePoint(st.workers[w]);
    var st' := DoUnref(st, w);
    forall y | y in st'.workers[w].list ensures ListedOk(st', w, y) { assert ListedOk(st, w, y); }
  }

  lemma LostFromTail(xs: seq<nat>, k: nat)
    requires k < |xs| && NoDup(xs[k..])
    ensures Lost(xs[k..], xs[k + 1..], xs[k])
  {
    assert xs[k..][1..] == xs[k + 1..];
  }

  lemma LostFromFlush(xs: seq<nat>, k: nat, held: nat)
    requires k < |xs| && NoDup(xs[k..] + [held])
    ensures Lost(xs[k..] + [held], xs[k + 1..] + [held], xs[k])
  {
    assert xs[k..] + [held] == [] + xs[k..] + [held];
    NoDupAdvance([], xs, k, [held]);
    assert [] + xs[k + 1..] + [held] == xs[k + 1..] + [held];
  }

  lemma LostFromDrain(pre: seq<nat>, xs: seq<nat>, k: nat)
    requires k < |xs| && NoDup(pre + xs[k..])
    ensures Lost(pre + xs[k..], pre + xs[k + 1..], xs[k])
  {
    assert pre + xs[k..] == pre + xs[k..] + [];
    NoDupAdvance(pre, xs, k, []);
    assert pre + xs[k + 1..] + [] == pre + xs[k + 1..];
  }

  lemma UnrefPending(wk: Worker, s: nat)
    requires s == NextUnref(wk) && NoDup(Pending(wk))
    ensures Lost(Pending(wk), Pending(wk.(pc := Advance(wk.pc))), s)
  {
    var wk' := wk.(pc := Advance(wk.pc));
    if wk.pc.Flush? {
      var k, held := wk.pc.k, wk.pc.held;
      assert Pending(wk) == wk.garbage[k..] + [held] && Pending(wk') == wk.garbage[k + 1..] + [held];
      LostFromFlush(wk.garbage, k, held);
    } else if wk.pc.DrainUnref? {
      var k := wk.pc.k;
      assert Pending(wk) == wk.garbage + wk.collected[k..] && Pending(wk') == wk.garbage + wk.collected[k + 1..];
      LostFromDrain(wk.garbage, wk.collected, k);
    } else {
      var k := wk.pc.k;
      assert Pending(wk) == wk.garbage[k..] && Pending(wk') == wk.garbage[k + 1..];
      LostFromTail(wk.garbage, k);
    }
  }

  // ----- every step keeps the invariant -----

  lemma Conclude(st: State, st': State, s: nat, t: nat, w: nat, i: nat)
    requires Inv(st) && Steps(st, st', s, t, w, i) && (w < WORKER_COUNT ==> WorkerOk(st', w))
    ensures Inv(st')
  {
    if s < SLOT_COUNT {
      StragglersStay(st, st', s, t);
    } else {
      forall x | 0 <= x < |st'.hands| && x != t && st'.hands[x].Joined? ensures st'.hands[x].s != s {
        assert HandOk(st, x);
      }
    }
    Frame(st, st', s, t, w, i);
  }

  lemma QuotaKeeps(st: State, t: nat, a: HandAction)
    requires Inv(st) && HandEnabled(st, t, a) && (a.Admit? || a.CountOut? || a.ConnectFails?)
    ensures Inv(HandStep(st, t, a))
  {
    assert HandOk(st, t) && FreeOk(st);
    QuotaSteps(st, HandStep(st, t, a), t);
    Conclude(st, HandStep(st, t, a), SLOT_COUNT, t, WORKER_COUNT, |st.fin|);
  }

  lemma PopKeeps(st: State, t: nat)
    requires Inv(st) && HandEnabled(st, t, Pop)
    ensures Inv(HandStep(st, t, Pop))
  {
    assert HandOk(st, t) && FreeOk(st);
    if st.free == [] {
      Conclude(st, DoPop(st, t), SLOT_COUNT, t, WORKER_COUNT, |st.fin|);
    } else {
      var s := st.free[|st.free| - 1];
      assert s in st.free;
      assert SlotOk(st, s) && LogOk(st, s);
      PopSteps(st, t, s);
      Conclude(st, DoPop(st, t), s, t, WORKER_COUNT, |st.fin|);
    }
  }

  lemma PrepareKeeps(st: State, t: nat, a: HandAction)
    requires Inv(st) && HandEnabled(st, t, a) && (a.Wipe? || a.Publish?)
    ensures Inv(HandStep(st, t, a))
  {
    var s := st.hands[t].s;
    assert HandOk(st, t) && FreeOk(st);
    assert SlotOk(st, s) && LogOk(st, s);
    if a.Wipe? { WipeSteps(st, t); } else { PublishSteps(st, t); }
    Conclude(st, HandStep(st, t, a), s, t, WORKER_COUNT, |st.fin|);
  }

  /** No other handshake thread still owes this slot its `registered` store. */
  ghost predicate NoStraggler(st: State, s: nat) {
    forall x :: 0 <= x < |st.hands| && st.hands[x].Joined? ==> st.hands[x].s != s
  }

  lemma InitKeeps(st: State, t: nat, w: nat, buffers: bool)
    requires Inv(st) && HandEnabled(st, t, Init(w, buffers)) && NoStraggler(st, st.hands[t].s)
    ensures Inv(HandStep(st, t, Init(w, buffers)))
  {
    var s := st.hands[t].s;
    assert HandOk(st, t) && FreeOk(st);
    assert SlotOk(st, s) && LogOk(st, s);
    InitSteps(st, t, w, buffers);
    Frame(st, HandStep(st, t, Init(w, buffers)), s, t, WORKER_COUNT, |st.fin|);
  }

  lemma LinkKeeps(st: State, t: nat)
    requires Inv(st) && HandEnabled(st, t, Link)
    ensures Inv(HandStep(st, t, Link))
  {
    var s := st.hands[t].s;
    var w := st.slots[s].widx;
    assert HandOk(st, t) && FreeOk(st);
    assert SlotOk(st, s) && LogOk(st, s) && WorkerOk(st, w);
    LinkWorker(st, t, s, w);
    if st.workers[w].stopping { RefusedSteps(st, t, s, w); } else { LinkSteps(st, t, s, w); }
    Conclude(st, DoLink(st, t), s, t, w, |st.fin|);
  }

  lemma AddKeeps(st: State, t: nat, a: HandAction)
    requires Inv(st) && HandEnabled(st, t, a) && (a.AddClient? || a.AddTarget?)
    ensures Inv(HandStep(st, t, a))
  {
    var s := st.hands[t].s;
    var w := st.slots[s].widx;
    assert HandOk(st, t) && FreeOk(st);
    assert SlotOk(st, s) && LogOk(st, s) && WorkerOk(st, w);
    if !a.ok {
      RollbackSteps(st, t, s, w);
      RollbackWorker(st, t, s, w);
    } else if a.AddClient? {
      AddSteps(st, t, s, w);
    } else {
      JoinSteps(st, t, s, w);
      JoinWorker(st, t, s, w);
    }
    Conclude(st, HandStep(st, t, a), s, t, w, |st.fin|);
  }

  lemma HandUnrefKeeps(st: State, t: nat)
    requires Inv(st) && HandEnabled(st, t, HandUnref)
    ensures Inv(HandStep(st, t, HandUnref))
  {
    var s := st.hands[t].s;
    assert HandOk(st, t) && FreeOk(st);
    assert SlotOk(st, s) && LogOk(st, s);
    HandUnrefSteps(st, t, s);
    Conclude(st, HandStep(st, t, HandUnref), s, t, WORKER_COUNT, HandTid(t));
  }

  lemma FinKeeps(st: State, i: nat)
    requires Inv(st) && FinEnabled(st, i)
    ensures Inv(Finalize(st, i))
  {
    assert FreeOk(st) && FinOk(st, i);
    if st.fin[i] == Pushed {
      CountSteps(st, i);
      Conclude(st, Finalize(st, i), SLOT_COUNT, |st.hands|, WORKER_COUNT, i);
    } else {
      var s: nat := SlotOfFin(st.fin[i]);
      assert SlotOk(st, s) && LogOk(st, s);
      match st.fin[i] {
        case Claimed(_) => ClaimSteps(st, i, s);
        case Exchanged(_) =>
          assert WorkerOk(st, st.slots[s].widx);
          NeverStillLinked(st, i, s);
          ClaimSteps(st, i, s);
        case Cleared(_) => ReleaseSteps(st, i, s);
        case _ => FinSteps(st, i, s);
      }
      Conclude(st, Finalize(st, i), s, |st.hands|, WORKER_COUNT, i);
    }
  }

  lemma UnrefKeeps(st: State, w: nat)
    requires Inv(st) && WorkerEnabled(st, w, WorkerUnref)
    ensures Inv(WorkerStep(st, w, WorkerUnref))
  {
    var s: nat := NextUnref(st.workers[w]);
    assert WorkerOk(st, w) && FreeOk(st);
    UnrefPending(st.workers[w], s);
    assert SlotOk(st, s) && LogOk(st, s);
    UnrefSteps(st, w, s);
    UnrefWorker(st, w, s);
    Conclude(st, DoUnref(st, w), s, |st.hands|, w, w);
  }

  lemma CloseKeeps(st: State, w: nat, s: nat, wk: Worker)
    requires Inv(st) && w < WORKER_COUNT && s < SLOT_COUNT && st.owner[s] == Listed(w)
    requires Took(st.workers[w], wk, s)
    requires var st' := Close(st, w, s, wk); LockOk(st', w) && HandlingOk(st', w) && CursorOk(st', w)
    ensures Inv(Close(st, w, s, wk))
  {
    assert WorkerOk(st, w) && FreeOk(st);
    assert SlotOk(st, s) && LogOk(st, s);
    CloseSteps(st, w, s, wk);
    CloseWorker(st, w, s, wk);
    Conclude(st, Close(st, w, s, wk), s, |st.hands|, w, |st.fin|);
  }

  lemma PointKeeps(st: State, w: nat, wk: Worker)
    requires Inv(st) && w < WORKER_COUNT && wk.list == st.workers[w].list && LockMoves(st.workers[w].lock, wk.lock)
    requires NoDup(Pending(wk)) && (forall x :: x in Pending(wk) <==> x in Pending(st.workers[w]))
    requires var st' := SetWorker(st, w, wk); PointOk(wk) && LockOk(st', w) && HandlingOk(st', w) && CursorOk(st', w)
    ensures Inv(SetWorker(st, w, wk))
  {
    assert WorkerOk(st, w) && FreeOk(st);
    PointSteps(st, w, wk);
    Conclude(st, SetWorker(st, w, wk), SLOT_COUNT, |st.hands|, w, |st.fin|);
  }

  lemma FailKeeps(st: State, w: nat)
    requires Inv(st) && WorkerEnabled(st, w, Fail)
    ensures Inv(WorkerStep(st, w, Fail))
  {
    var wk := st.workers[w];
    var s := wk.pc.s;
    assert WorkerOk(st, w);
    assert SlotOk(st, s);
    assert s !in wk.garbage;
    NoDupAppend(wk.garbage, s);
    WithoutMembers(wk.list, s);
    CloseKeeps(st, w, s, wk.(pc := Batch(wk.pc.left), list := Without(wk.list, s), garbage := wk.garbage + [s]));
  }

  lemma {:induction false} NextMember(xs: seq<nat>, x: nat)
    requires NoDup(xs) && x in xs
    ensures Next(xs, x) < 0 || (Next(xs, x) in xs && Next(xs, x) != x)
  {
    if |xs| >= 2 && xs[0] != x {
      NextMember(xs[1..], x);
    } else if |xs| >= 2 {
      assert xs[1] in xs[1..];
    }
  }

  /** Where a timeout scan stands: on a listed connection, with a listed connection or nothing next. */
  ghost predicate SweepView(st: State, w: nat, s: nat, next: int) {
    && Inv(st) && w < WORKER_COUNT && st.workers[w].pc == Sweep(s) && s < SLOT_COUNT && st.owner[s] == Listed(w)
    && st.fin[w] == NoFin && next == Next(st.workers[w].list, s)
    && (next >= 0 ==> next != s && next < SLOT_COUNT && st.owner[next] == Listed(w) && next in st.workers[w].list)
  }

  lemma SweepStands(st: State, w: nat)
    requires Inv(st) && WorkerEnabled(st, w, SweepNext(true))
    ensures SweepView(st, w, st.workers[w].pc.cur, Next(st.workers[w].list, st.workers[w].pc.cur))
  {
    var s: nat := st.workers[w].pc.cur;
    assert WorkerOk(st, w);
    NextMember(st.workers[w].list, s);
    var next := Next(st.workers[w].list, s);
    if next >= 0 { assert ListedOk(st, w, next); }
  }

  lemma ReclaimKeeps(st: State, w: nat, s: nat, next: int)
    requires SweepView(st, w, s, next)
    ensures var wk, list := st.workers[w], Without(st.workers[w].list, s);
            Inv(Close(st, w, s, if |wk.garbage| < BUCKET
                                then wk.(pc := Sweep(next), list := list, garbage := wk.garbage + [s])
                                else wk.(pc := Flush(0, s, next), list := list, lock := Unlocked)))
  {
    var wk := st.workers[w];
    assert WorkerOk(st, w);
    assert SlotOk(st, s);
    WithoutMembers(wk.list, s);
    assert s !in wk.garbage;
    NoDupAppend(wk.garbage, s);
    var list := Without(wk.list, s);
    if |wk.garbage| < BUCKET {
      CloseKeeps(st, w, s, wk.(pc := Sweep(next), list := list, garbage := wk.garbage + [s]));
    } else {
      assert wk.garbage[0..] == wk.garbage;
      CloseKeeps(st, w, s, wk.(pc := Flush(0, s, next), list := list, lock := Unlocked));
    }
  }

  lemma SweepKeeps(st: State, w: nat, expired: bool)
    requires Inv(st) && WorkerEnabled(st, w, SweepNext(expired))
    ensures Inv(WorkerStep(st, w, SweepNext(expired)))
  {
    var s: nat := st.workers[w].pc.cur;
    var x := st.slots[s];
    var next := Next(st.workers[w].list, s);
    SweepStands(st, w);
    if x.magic == CONN_MAGIC && !x.closed && x.registered && expired {
      ReclaimKeeps(st, w, s, next);
    } else {
      assert WorkerOk(st, w);
      PointKeeps(st, w, st.workers[w].(pc := Sweep(next)));
    }
  }

  lemma TakeKeeps(st: State, w: nat)
    requires Inv(st) && WorkerEnabled(st, w, DrainTake)
    ensures Inv(WorkerStep(st, w, DrainTake))
  {
    var wk := st.workers[w];
    var s := wk.list[0];
    assert WorkerOk(st, w);
    assert ListedOk(st, w, s);
    assert SlotOk(st, s);
    assert s !in Pending(wk);
    NoDupAppend(wk.garbage + wk.collected, s);
    assert wk.garbage + (wk.collected + [s]) == wk.garbage + wk.collected + [s];
    WithoutMembers(wk.list, s);
    CloseKeeps(st, w, s, wk.(list := Without(wk.list, s), collected := wk.collected + [s]));
  }

  /** An event is acted on only if its connection is on this worker's list and fully registered. */
  lemma ProcessMeansListed(st: State, w: nat, sidx: nat, egen: nat)
    requires Inv(st) && Classify(st, w, sidx, egen) == Process
    ensures sidx < SLOT_COUNT && st.owner[sidx] == Listed(w) && st.epoch[sidx] == egen
  {
    assert SlotOk(st, sidx);
  }

  lemma EventKeeps(st: State, w: nat, sidx: nat, egen: nat)
    requires Inv(st) && WorkerEnabled(st, w, Deliver(sidx, egen))
    ensures Inv(WorkerStep(st, w, Deliver(sidx, egen)))
  {
    assert WorkerOk(st, w);
    if Classify(st, w, sidx, egen) == Process { ProcessMeansListed(st, w, sidx, egen); }
    PointKeeps(st, w, AfterEvent(st, w, sidx, egen));
  }

  lemma AfterUnrefsPoint(wk: Worker)
    requires Unreffing(wk.pc) && NextUnref(wk) < 0 && PointOk(wk)
    ensures PointOk(AfterUnrefs(wk)) && Pending(AfterUnrefs(wk)) == Pending(wk)
  {
    match wk.pc
    case Flush(k, held, _) => assert wk.garbage[k..] + [held] == [held];
    case DrainUnref(k) => assert wk.garbage + wk.collected[k..] == wk.garbage && wk.garbage[0..] == wk.garbage;
    case Collect(k) =>
    case Last(k) =>
  }

  lemma UnrefsDoneKeeps(st: State, w: nat)
    requires Inv(st) && WorkerEnabled(st, w, UnrefsDone)
    ensures Inv(WorkerStep(st, w, UnrefsDone))
  {
    assert WorkerOk(st, w);
    AfterUnrefsPoint(st.workers[w]);
    PointKeeps(st, w, AfterUnrefs(st.workers[w]));
  }

  lemma BatchKeeps(st: State, w: nat, a: WorkerAction)
    requires Inv(st) && WorkerEnabled(st, w, a) && (a.Enter? || a.Shutdown? || a.Forward?)
    ensures Inv(WorkerStep(st, w, a))
  {
    assert WorkerOk(st, w);
    PointKeeps(st, w, WorkerStep(st, w, a).workers[w]);
  }

  lemma ScanKeeps(st: State, w: nat, a: WorkerAction)
    requires Inv(st) && WorkerEnabled(st, w, a) && (a.EndBatch? || a.SweepDone?)
    ensures Inv(WorkerStep(st, w, a))
  {
    var wk := st.workers[w];
    assert WorkerOk(st, w);
    assert wk.garbage[0..] == wk.garbage;
    if a == EndBatch(true) && wk.list != [] { assert ListedOk(st, w, wk.list[0]); }
    PointKeeps(st, w, WorkerStep(st, w, a).workers[w]);
  }

  lemma StoppingKeeps(st: State, w: nat)
    requires Inv(st) && WorkerEnabled(st, w, SetStopping)
    ensures Inv(WorkerStep(st, w, SetStopping))
  {
    assert WorkerOk(st, w);
    PointKeeps(st, w, st.workers[w].(pc := Ready, stopping := true));
  }

  lemma DrainLockKeeps(st: State, w: nat)
    requires Inv(st) && WorkerEnabled(st, w, DrainLock)
    ensures Inv(WorkerStep(st, w, DrainLock))
  {
    var wk := st.workers[w];
    assert WorkerOk(st, w);
    assert wk.garbage + [] == wk.garbage;
    PointKeeps(st, w, wk.(pc := Drain, lock := ByWorker, collected := []));
  }

  lemma DrainUnlockKeeps(st: State, w: nat)
    requires Inv(st) && WorkerEnabled(st, w, DrainUnlock)
    ensures Inv(WorkerStep(st, w, DrainUnlock))
  {
    var wk := st.workers[w];
    assert WorkerOk(st, w);
    assert wk.collected[0..] == wk.collected;
    PointKeeps(st, w, wk.(pc := DrainUnref(0), lock := Unlocked));
  }

  lemma LeaveKeeps(st: State, w: nat)
    requires Inv(st) && WorkerEnabled(st, w, Leave) && st.workers[w].garbage == []
    ensures Inv(WorkerStep(st, w, Leave))
  {
    assert WorkerOk(st, w);
    PointKeeps(st, w, st.workers[w].(pc := Stop));
  }

  /** The late store of `registered`, by a thread that may no longer own the slot. */
  lemma RegisterKeeps(st: State, t: nat)
    requires Inv(st) && HandEnabled(st, t, Register)
    ensures Inv(HandStep(st, t, Register))
  {
    var st' := DoRegister(st, t);
    var s := st.hands[t].s;
    assert HandOk(st, t) && FreeOk(st) && DeadOk(st);
    assert SlotOk(st, s);
    RegisterSlots(st, t);
    RegisterHands(st, t);
    forall i | 0 <= i < |st'.fin| ensures FinOk(st', i) { assert FinOk(st, i); }
    RegisterWorkers(st, t);
    assert DeadOk(st') by {
      forall x, g | (x, g) in st'.dead
        ensures x < SLOT_COUNT && g <= st'.epoch[x] && (g == st'.epoch[x] ==> Doomed(st', x))
      {
        if x < SLOT_COUNT { assert SlotOk(st, x); }
      }
    }
  }

  lemma RegisterSlots(st: State, t: nat)
    requires Inv(st) && HandEnabled(st, t, Register)
    ensures forall x :: 0 <= x < SLOT_COUNT ==> SlotOk(DoRegister(st, t), x) && LogOk(DoRegister(st, t), x)
  {
    var st' := DoRegister(st, t);
    assert HandOk(st, t);
    forall x | 0 <= x < SLOT_COUNT ensures SlotOk(st', x) && LogOk(st', x) {
      assert SlotOk(st, x) && LogOk(st, x);
    }
  }

  lemma RegisterHands(st: State, t: nat)
    requires Inv(st) && HandEnabled(st, t, Register)
    ensures forall x :: 0 <= x < |st.hands| ==> HandOk(DoRegister(st, t), x)
  {
    var st' := DoRegister(st, t);
    forall x | 0 <= x < |st.hands| ensures HandOk(st', x) {
      assert HandOk(st, x);
      var h := st.hands[x];
      if h.Joined? && h.s < SLOT_COUNT { assert SlotOk(st, h.s); }
    }
  }

  lemma RegisterWorkers(st: State, t: nat)
    requires Inv(st) && HandEnabled(st, t, Register)
    ensures forall x :: 0 <= x < WORKER_COUNT ==> WorkerOk(DoRegister(st, t), x)
  {
    var st' := DoRegister(st, t);
    forall x | 0 <= x < WORKER_COUNT ensures WorkerOk(st', x) {
      assert WorkerOk(st, x);
      forall y | y in st'.workers[x].list ensures ListedOk(st', x, y) { assert ListedOk(st, x, y); }
    }
  }

  lemma HandKeeps(st: State, t: nat, a: HandAction)
    requires Inv(st) && HandEnabled(st, t, a) && (a.Init? ==> NoStraggler(st, st.hands[t].s))
    ensures Inv(HandStep(st, t, a))
  {
    match a
    case Admit => QuotaKeeps(st, t, a);
    case CountOut => QuotaKeeps(st, t, a);
    case ConnectFails => QuotaKeeps(st, t, a);
    case Pop => PopKeeps(st, t);
    case Wipe => PrepareKeeps(st, t, a);
    case Publish => PrepareKeeps(st, t, a);
    case Init(w, buffers) => InitKeeps(st, t, w, buffers);
    case Link => LinkKeeps(st, t);
    case AddClient(_) => AddKeeps(st, t, a);
    case AddTarget(_) => AddKeeps(st, t, a);
    case Register => RegisterKeeps(st, t);
    case HandUnref => HandUnrefKeeps(st, t);
  }

  lemma LoopKeeps(st: State, w: nat, a: WorkerAction)
    requires Inv(st) && WorkerEnabled(st, w, a) && (a.Leave? ==> st.workers[w].garbage == [])
    ensures Inv(WorkerStep(st, w, a))
  {
    match a
    case Deliver(sidx, egen) => EventKeeps(st, w, sidx, egen);
    case Leave => LeaveKeeps(st, w);
    case Fail => FailKeeps(st, w);
    case SweepNext(expired) => SweepKeeps(st, w, expired);
    case WorkerUnref => UnrefKeeps(st, w);
    case UnrefsDone => UnrefsDoneKeeps(st, w);
    case SetStopping => StoppingKeeps(st, w);
    case DrainLock => DrainLockKeeps(st, w);
    case DrainTake => TakeKeeps(st, w);
    case DrainUnlock => DrainUnlockKeeps(st, w);
    case EndBatch(_) => ScanKeeps(st, w, a);
    case SweepDone => ScanKeeps(st, w, a);
    case _ => BatchKeeps(st, w, a);
  }

  /**
    The two steps the design does not guard. A worker that leaves its loop because the server
    stops must not carry connections it has already unref'd, and a slot must not be
    initialized while an earlier user of it still owes its `registered` store.
   */
  ghost predicate Orderly(st: State, a: Action)
    requires Enabled(st, a)
  {
    match a
    case ByHandshake(t, Init(_, _)) => NoStraggler(st, st.hands[t].s)
    case ByLoop(w, Leave) => st.workers[w].garbage == []
    case _ => true
  }

  lemma StepKeeps(st: State, a: Action)
    requires Inv(st) && Enabled(st, a) && Orderly(st, a)
    ensures Inv(Apply(st, a))
  {
    match a
    case ByHandshake(t, h) => HandKeeps(st, t, h);
    case ByLoop(w, l) => LoopKeeps(st, w, l);
    case FinStep(i) => FinKeeps(st, i);
    case _ => Unmoved(st, Apply(st, a));
  }

  /** Leaving through the loop condition keeps the invariant exactly when no garbage is carried along. */
  lemma LeaveExactly(st: State, w: nat)
    requires Inv(st) && WorkerEnabled(st, w, Leave)
    ensures Inv(WorkerStep(st, w, Leave)) <==> st.workers[w].garbage == []
  {
    if st.workers[w].garbage == [] {
      LeaveKeeps(st, w);
    } else {
      var s := st.workers[w].garbage[0];
      var st' := WorkerStep(st, w, Leave);
      assert WorkerOk(st, w);
      if s < SLOT_COUNT { assert SlotOk(st, s); }
      assert s in Pending(st'.workers[w]) && (s < SLOT_COUNT ==> st'.owner[s] != Bucket(w));
      assert !WorkerOk(st', w);
    }
  }

  /**
    What a carried connection costs: the second unref of it, on the worker's way out, takes a
    connection exactly when the slot has been given a reference again meanwhile. Either way the
    step itself only lowers the stored count; without a claim nothing is released after it.
   */
  lemma SecondUnrefExactly(st: State, w: nat)
    requires Shape(st) && WorkerEnabled(st, w, WorkerUnref) && st.workers[w].pc.Last?
    ensures var s, st' := NextUnref(st.workers[w]), WorkerStep(st, w, WorkerUnref);
            && |st'.fin| == |st.fin| && (st'.fin[w] == Claimed(s) <==> st.slots[s].refs == 1) && (st'.fin[w] == NoFin <==> st.slots[s].refs != 1)
            && st'.slots == st.slots[s := st.slots[s].(refs := st.slots[s].refs - 1)]
            && st'.free == st.free && st'.log == st.log && st'.hands == st.hands && st'.connCount == st.connCount
            && forall v :: 0 <= v < WORKER_COUNT ==> st'.workers[v].list == st.workers[v].list
  {
  }

  /** Initializing a slot keeps the invariant exactly when nobody still owes it a store. */
  lemma InitExactly(st: State, t: nat, w: nat, buffers: bool)
    requires Inv(st) && HandEnabled(st, t, Init(w, buffers))
    ensures Inv(HandStep(st, t, Init(w, buffers))) <==> NoStraggler(st, st.hands[t].s)
  {
    var s := st.hands[t].s;
    if NoStraggler(st, s) {
      InitKeeps(st, t, w, buffers);
    } else {
      var x :| 0 <= x < |st.hands| && st.hands[x].Joined? && st.hands[x].s == s;
      assert HandOk(st, t);
      assert !HandOk(DoInit(st, t, w, buffers), x);
    }
  }

  /** One step of any thread keeps every ownership fact, with those two exceptions and no other. */
  lemma StepKeepsExactly(st: State, a: Action)
    requires Inv(st) && Enabled(st, a)
    ensures Inv(Apply(st, a)) <==> Orderly(st, a)
  {
    if Orderly(st, a) {
      StepKeeps(st, a);
    } else {
      DisorderBreaks(st, a);
    }
  }

  lemma DisorderBreaks(st: State, a: Action)
    requires Inv(st) && Enabled(st, a) && !Orderly(st, a)
    ensures !Inv(Apply(st, a))
  {
    if a.ByHandshake? {
      InitExactly(st, a.t, a.h.w, a.h.buffers);
    } else {
      LeaveExactly(st, a.w);
    }
  }

  /** Steps that change only counters or the running flag. */
  lemma Unmoved(st: State, st': State)
    requires Inv(st)
    requires st' == st.(running := st'.running, connCount := st'.connCount, udpHeld := st'.udpHeld, udpOver := st'.udpOver)
    ensures Inv(st')
  {
    assert FreeOk(st);
    Conclude(st, st', SLOT_COUNT, |st.hands|, WORKER_COUNT, |st.fin|);
  }

  // ----- before any connection is drained too early -----

  /** The connection a handshake thread still owes its store: listed, of its own incarnation, not yet registered. */
  ghost predicate Owed(st: State, s: nat, g: nat)
    requires Shape(st)
  {
    s < SLOT_COUNT && st.owner[s].Listed? && st.epoch[s] == g && !st.slots[s].registered
  }

  /** Every store still owed is owed to such a connection, and no two threads owe the same one. */
  ghost predicate Prompt(st: State)
    requires Shape(st)
  {
    && (forall t :: 0 <= t < |st.hands| && st.hands[t].Joined? ==> Owed(st, st.hands[t].s, st.hands[t].g))
    && (forall t, u :: 0 <= t < u < |st.hands| && st.hands[t].Joined? && st.hands[u].Joined? ==> st.hands[t].s != st.hands[u].s)
  }

  /** The exit drain takes a connection whose handshake thread still owes it the store. */
  ghost predicate Hasty(st: State, a: Action) {
    a.ByLoop? && a.a == DrainTake && Enabled(st, a) && !NoStraggler(st, st.workers[a.w].list[0])
  }

  /** Then no slot that is initialized is owed anything. */
  lemma PromptIsOrderly(st: State, t: nat, w: nat, buffers: bool)
    requires Inv(st) && Prompt(st) && HandEnabled(st, t, Init(w, buffers))
    ensures NoStraggler(st, st.hands[t].s)
  {
    assert HandOk(st, t);
  }

  ghost predicate Untouched(st: State, st': State, s: nat)
    requires Shape(st) && s < SLOT_COUNT
  {
    Shape(st') && st'.owner[s] == st.owner[s] && st'.slots[s] == st.slots[s] && st'.epoch[s] == st.epoch[s]
  }

  lemma PopLeaves(st: State, t: nat, s: nat)
    requires Inv(st) && HandEnabled(st, t, Pop) && s < SLOT_COUNT && st.owner[s].Listed?
    ensures Untouched(st, DoPop(st, t), s)
  {
    assert FreeOk(st);
    if st.free != [] { assert st.free[|st.free| - 1] in st.free; }
  }

  lemma HandLeaves(st: State, t: nat, a: HandAction, s: nat)
    requires Inv(st) && HandEnabled(st, t, a) && s < SLOT_COUNT && st.owner[s].Listed?
    requires a.Register? ==> st.hands[t].s != s
    ensures Untouched(st, HandStep(st, t, a), s)
  {
    assert HandOk(st, t);
    match a
    case Pop => PopLeaves(st, t, s);
    case AddClient(ok) => AddLeaves(st, t, a, s);
    case AddTarget(ok) => AddLeaves(st, t, a, s);
    case _ =>
  }

  lemma AddLeaves(st: State, t: nat, a: HandAction, s: nat)
    requires Shape(st) && HandEnabled(st, t, a) && (a.AddClient? || a.AddTarget?) && HandOk(st, t)
    requires s < SLOT_COUNT && st.owner[s].Listed?
    ensures Untouched(st, HandStep(st, t, a), s)
  {
  }

  lemma FailLeaves(st: State, w: nat, s: nat)
    requires Inv(st) && WorkerEnabled(st, w, Fail) && s < SLOT_COUNT && !st.slots[s].registered
    ensures Untouched(st, DoFail(st, w), s)
  {
    assert WorkerOk(st, w);
  }

  lemma SweepLeaves(st: State, w: nat, expired: bool, s: nat)
    requires Inv(st) && WorkerEnabled(st, w, SweepNext(expired)) && s < SLOT_COUNT && !st.slots[s].registered
    ensures Untouched(st, DoSweep(st, w, expired), s)
  {
  }

  lemma TakeLeaves(st: State, w: nat, s: nat)
    requires Inv(st) && WorkerEnabled(st, w, DrainTake) && s < SLOT_COUNT && st.workers[w].list[0] != s
    ensures Untouched(st, DoTake(st, w), s)
  {
  }

  lemma UnrefLeaves(st: State, w: nat, s: nat)
    requires Inv(st) && WorkerEnabled(st, w, WorkerUnref) && s < SLOT_COUNT && st.owner[s].Listed?
    ensures Untouched(st, DoUnref(st, w), s)
  {
    assert WorkerOk(st, w);
    UnrefPending(st.workers[w], NextUnref(st.workers[w]));
  }

  lemma LoopLeaves(st: State, w: nat, a: WorkerAction, s: nat)
    requires Inv(st) && WorkerEnabled(st, w, a) && s < SLOT_COUNT && st.owner[s].Listed? && !st.slots[s].registered
    requires a.DrainTake? ==> st.workers[w].list[0] != s
    ensures Untouched(st, WorkerStep(st, w, a), s)
  {
    match a
    case Fail => FailLeaves(st, w, s);
    case SweepNext(expired) => SweepLeaves(st, w, expired, s);
    case DrainTake => TakeLeaves(st, w, s);
    case WorkerUnref => UnrefLeaves(st, w, s);
    case _ =>
  }

  lemma FinLeaves(st: State, i: nat, s: nat)
    requires Inv(st) && FinEnabled(st, i) && s < SLOT_COUNT && st.owner[s].Listed?
    ensures Untouched(st, Finalize(st, i), s)
  {
    assert FinOk(st, i);
  }

  lemma StepLeaves(st: State, a: Action, s: nat)
    requires Inv(st) && Enabled(st, a) && s < SLOT_COUNT && st.owner[s].Listed? && !st.slots[s].registered
    requires a.ByLoop? && a.a.DrainTake? ==> st.workers[a.w].list[0] != s
    requires a.ByHandshake? && a.h.Register? ==> st.hands[a.t].s != s
    ensures Untouched(st, Apply(st, a), s)
  {
    match a
    case ByHandshake(t, h) => HandLeaves(st, t, h, s);
    case ByLoop(w, l) => LoopLeaves(st, w, l, s);
    case FinStep(i) => FinLeaves(st, i, s);
    case _ =>
  }

  /** A thread comes to owe a store only by joining a slot it holds. */
  lemma HandOutline(st: State, t: nat, a: HandAction)
    requires Shape(st) && HandEnabled(st, t, a)
    ensures var st' := HandStep(st, t, a); Shape(st') && Same(st.hands, st'.hands, t) && (st'.hands[t].Joined? ==> a == AddTarget(true))
  {
    if a.AddClient? || a.AddTarget? { AddOutline(st, t, a); }
  }

  lemma AddOutline(st: State, t: nat, a: HandAction)
    requires Shape(st) && HandEnabled(st, t, a) && (a.AddClient? || a.AddTarget?)
    ensures var st' := HandStep(st, t, a); Shape(st') && Same(st.hands, st'.hands, t) && (st'.hands[t].Joined? ==> a == AddTarget(true))
  {
  }

  lemma LoopOutline(st: State, w: nat, a: WorkerAction)
    requires Shape(st) && WorkerEnabled(st, w, a)
    ensures var st' := WorkerStep(st, w, a); Shape(st') && st'.hands == st.hands
  {
  }

  lemma HandsAfter(st: State, a: Action)
    requires Shape(st) && Enabled(st, a)
    ensures Shape(Apply(st, a)) && Same(st.hands, Apply(st, a).hands, if a.ByHandshake? then a.t else |st.hands|)
    ensures a.ByHandshake? && Apply(st, a).hands[a.t].Joined? ==> a.h == AddTarget(true)
  {
    match a
    case ByHandshake(t, h) => HandOutline(st, t, h);
    case ByLoop(w, l) => LoopOutline(st, w, l);
    case FinStep(i) => FinOutline(st, i);
    case _ =>
  }

  lemma FinOutline(st: State, i: nat)
    requires Shape(st) && FinEnabled(st, i)
    ensures Shape(Finalize(st, i)) && Finalize(st, i).hands == st.hands
  {
  }

  lemma PromptKeeps(st: State, a: Action)
    requires Inv(st) && Prompt(st) && Enabled(st, a) && !Hasty(st, a)
    ensures Shape(Apply(st, a)) && Prompt(Apply(st, a))
  {
    var st' := Apply(st, a);
    HandsAfter(st, a);
    forall t | 0 <= t < |st.hands| && st'.hands[t].Joined? ensures Owed(st', st'.hands[t].s, st'.hands[t].g) {
      if st.hands[t].Joined? && !(a.ByHandshake? && a.t == t) {
        StepLeaves(st, a, st.hands[t].s);
      } else {
        JoinedIsOwed(st, t);
      }
    }
    forall t, u | 0 <= t < u < |st.hands| && st'.hands[t].Joined? && st'.hands[u].Joined? ensures st'.hands[t].s != st'.hands[u].s {
      if a.ByHandshake? && (a.t == t || a.t == u) { assert HandOk(st, a.t); }
    }
  }

  lemma JoinedIsOwed(st: State, t: nat)
    requires Inv(st) && HandEnabled(st, t, AddTarget(true))
    ensures var st' := HandStep(st, t, AddTarget(true)); Shape(st') && st'.hands[t].Joined? && Owed(st', st'.hands[t].s, st'.hands[t].g)
  {
    assert HandOk(st, t);
    assert SlotOk(st, st.hands[t].s);
  }
}
