/**
  Life of a TCP connection slot as an interleaved step system (simple-socks5.c).

  Handshake threads admit a client, take a slot, hand it to a worker and register it; four
  workers classify epoll events, close, sweep, collect and, on shutdown, drain; whoever drops
  the last reference finalizes the connection and pushes the slot back. Each step below is one
  atomic access of the source or one critical section of its locks, and any thread may take the
  next step. Socket, epoll and allocator results are parameters of the actions.

  The fields `owner`, `epoch`, `base`, `log` and `dead` record history. No guard and no
  other field depends on them.
 */
module Lifecycle {
  import opened Seqs

  const SLOT_COUNT: nat := 1088
  const WORKER_COUNT: nat := 4
  const MAX_CONNS: int := 1000
  const BUCKET: nat := 512
  const CONN_MAGIC: nat := 0x5EEDF00D

  // ----- state -----

  datatype Slot = Slot(gen: nat, magic: nat, active: bool, widx: nat, closed: bool,
                       registered: bool, refs: int, finalized: bool)

  /** Program point of a handshake thread; `s` is the slot it works on. */
  datatype Hand =
    | Idle
    | Over                         // counted itself in above the limit, about to count out
    | Admitted                     // holds a unit of quota, connecting
    | NoSlot                       // found the free stack empty
    | Popped(s: nat, g: nat)       // slot off the stack, generation raised
    | Wiped(s: nat, g: nat)        // structure zeroed, generation not yet put back
    | Fresh(s: nat)                // generation back, slot marked active
    | Built(s: nat)                // fields set, buffers allocated
    | Linked(s: nat)               // on the worker's list, lock held
    | HalfAdded(s: nat)            // client descriptor added to epoll, lock held
    | Joined(s: nat, g: nat)       // lock released, `registered` not yet stored
    | Dropping(s: nat)             // about to drop the base reference

  /** Program point inside conn_unref / conn_finalize. */
  datatype Fin =
    | NoFin
    | Claimed(s: nat)              // dropped the last reference
    | Exchanged(s: nat)            // won the `finalized` flag
    | Poisoned(s: nat)             // unlinked if linked, magic cleared
    | Returned(s: nat)             // descriptors closed, quota returned
    | Cleared(s: nat)              // slot marked inactive
    | Pushed                       // slot on the free stack, release not yet counted

  /** Program point of a worker. Negative cursors are null pointers. */
  datatype Point =
    | Top                                          // loop condition
    | Batch(left: nat)                             // events still to look at
    | Handling(left: nat, s: nat)                  // event classified PROCESS
    | Sweep(cur: int)                              // timeout scan, lock held
    | Flush(k: nat, held: nat, next: int)          // bucket full: unref outside the lock
    | Collect(k: nat)                              // step 3
    | Stop                                         // exit_worker
    | Ready                                        // about to lock for a drain round
    | Drain                                        // taking from the list, lock held
    | DrainUnref(k: nat)
    | Last(k: nat)                                 // garbage left by the event loop
    | Exited

  datatype Lock = Unlocked | ByWorker | ByHand(t: nat)

  datatype Worker = Worker(pc: Point, list: seq<nat>, garbage: seq<nat>, collected: seq<nat>,
                           lock: Lock, stopping: bool)

  /** Who is responsible for a slot (history only). */
  datatype Owner = Stack | Held(t: nat) | Listed(w: nat) | Bucket(w: nat) | Finalizer(i: nat)

  datatype State = State(
    slots: seq<Slot>, free: seq<nat>, connCount: int, running: bool,
    workers: seq<Worker>, hands: seq<Hand>, fin: seq<Fin>,
    acquired: nat, released: nat, doubleFin: nat,
    udpHeld: nat, udpOver: nat,
    owner: seq<Owner>, epoch: seq<nat>, base: seq<nat>, log: seq<seq<nat>>, dead: set<(nat, nat)>)

  function SlotOfHand(h: Hand): int {
    match h
    case Popped(s, _) => s
    case Wiped(s, _) => s
    case Fresh(s) => s
    case Built(s) => s
    case Linked(s) => s
    case HalfAdded(s) => s
    case Dropping(s) => s
    case _ => -1
  }

  function SlotOfFin(f: Fin): int {
    match f
    case Claimed(s) => s
    case Exchanged(s) => s
    case Poisoned(s) => s
    case Returned(s) => s
    case Cleared(s) => s
    case _ => -1
  }

  /** Thread numbers: the workers first, then the handshake threads. */
  function HandTid(t: nat): nat { WORKER_COUNT + t }

  /** Connections a worker has unlinked and must still unref. */
  function Pending(wk: Worker): seq<nat> {
    match wk.pc
    case Top => []
    case Batch(_) => wk.garbage
    case Handling(_, _) => wk.garbage
    case Sweep(_) => wk.garbage
    case Flush(k, held, _) => if k <= |wk.garbage| then wk.garbage[k..] + [held] else []
    case Collect(k) => if k <= |wk.garbage| then wk.garbage[k..] else []
    case Stop => wk.garbage
    case Ready => wk.garbage
    case Drain => wk.garbage + wk.collected
    case DrainUnref(k) => if k <= |wk.collected| then wk.garbage + wk.collected[k..] else []
    case Last(k) => if k <= |wk.garbage| then wk.garbage[k..] else []
    case Exited => []
  }

  /** The element after x, or -1: the `next` pointer of the intrusive list. */
  function Next(xs: seq<nat>, x: nat): int {
    if |xs| < 2 then -1
    else if xs[0] == x then xs[1]
    else Next(xs[1..], x)
  }

  function Head(xs: seq<nat>): int { if xs == [] then -1 else xs[0] }

  // ----- actions -----

  datatype HandAction =
    | Admit | CountOut | ConnectFails | Pop | Wipe | Publish | Init(w: nat, buffers: bool)
    | Link | AddClient(ok: bool) | AddTarget(ok: bool) | Register | HandUnref

  datatype WorkerAction =
    | Enter(n: nat) | Leave | Deliver(sidx: nat, egen: nat) | Shutdown | Forward | Fail
    | EndBatch(due: bool) | SweepNext(expired: bool) | SweepDone | WorkerUnref | UnrefsDone
    | SetStopping | DrainLock | DrainTake | DrainUnlock

  datatype Action =
    | ByHandshake(t: nat, h: HandAction)
    | ByLoop(w: nat, a: WorkerAction)
    | FinStep(i: nat)
    | Quit | UdpAdmit | UdpCountOut | UdpFinalize

  ghost predicate SlotAt(st: State, s: int) {
    0 <= s < |st.slots| && s < |st.owner| && s < |st.epoch| && s < |st.log|
  }

  /** A slot whose worker index names a worker. */
  ghost predicate Routed(st: State, s: int) {
    SlotAt(st, s) && st.slots[s].widx < |st.workers|
  }

  /** Which slot the next conn_unref of a worker's current loop takes, or -1. */
  function NextUnref(wk: Worker): int {
    match wk.pc
    case Flush(k, _, _) => if k < |wk.garbage| then wk.garbage[k] else -1
    case Collect(k) => if k < |wk.garbage| then wk.garbage[k] else -1
    case DrainUnref(k) => if k < |wk.collected| then wk.collected[k] else -1
    case Last(k) => if k < |wk.garbage| then wk.garbage[k] else -1
    case _ => -1
  }

  function Advance(pc: Point): Point {
    match pc
    case Flush(k, held, next) => Flush(k + 1, held, next)
    case Collect(k) => Collect(k + 1)
    case DrainUnref(k) => DrainUnref(k + 1)
    case Last(k) => Last(k + 1)
    case _ => pc
  }

  predicate Unreffing(pc: Point) {
    pc.Flush? || pc.Collect? || pc.DrainUnref? || pc.Last?
  }

  ghost predicate HandReady(st: State, t: nat) {
    t < |st.hands| && HandTid(t) < |st.fin| && st.fin[HandTid(t)] == NoFin &&
    (SlotOfHand(st.hands[t]) >= 0 ==> SlotAt(st, SlotOfHand(st.hands[t]))) &&
    (st.hands[t].Joined? ==> SlotAt(st, st.hands[t].s))
  }

  ghost predicate HandEnabled(st: State, t: nat, a: HandAction) {
    HandReady(st, t) &&
    var h := st.hands[t];
    match a
    case Admit => h == Idle
    case CountOut => h == Over || h == NoSlot
    case ConnectFails => h == Admitted
    case Pop => CanPop(st, t)
    case Wipe => h.Popped?
    case Publish => h.Wiped?
    case Init(w, _) => h.Fresh? && w < |st.workers|
    case Link => CanLink(st, t)
    case AddClient(_) => h.Linked? && Routed(st, h.s)
    case AddTarget(_) => h.HalfAdded? && Routed(st, h.s)
    case Register => h.Joined?
    case HandUnref => h.Dropping?
  }

  ghost predicate WorkerEnabled(st: State, w: nat, a: WorkerAction) {
    w < |st.workers| && w < |st.fin| && st.fin[w] == NoFin &&
    var wk := st.workers[w];
    match a
    case Enter(n) => wk.pc == Top && st.running && n <= BUCKET
    case Leave => wk.pc == Top && !st.running
    case Deliver(_, _) => wk.pc.Batch? && wk.pc.left > 0
    case Shutdown => wk.pc.Batch? && wk.pc.left > 0
    case Forward => wk.pc.Handling?
    case Fail => CanFail(st, w)
    case EndBatch(due) => wk.pc == Batch(0) && (due ==> wk.lock == Unlocked)
    case SweepNext(_) => CanSweep(st, w)
    case SweepDone => wk.pc.Sweep? && wk.pc.cur < 0
    case WorkerUnref => SlotAt(st, NextUnref(wk))
    case UnrefsDone => Unreffing(wk.pc) && NextUnref(wk) < 0 && (wk.pc.Flush? ==> wk.lock == Unlocked)
    case SetStopping => wk.pc == Stop && wk.lock == Unlocked
    case DrainLock => wk.pc == Ready && wk.lock == Unlocked
    case DrainTake => CanTake(st, w)
    case DrainUnlock => wk.pc == Drain && (wk.list == [] || |wk.collected| == BUCKET)
  }

  ghost predicate FinEnabled(st: State, i: nat) {
    i < |st.fin| && st.fin[i] != NoFin && (st.fin[i] != Pushed ==> SlotAt(st, SlotOfFin(st.fin[i]))) &&
    (st.fin[i].Exchanged? ==> Routed(st, st.fin[i].s) && st.workers[st.slots[st.fin[i].s].widx].lock == Unlocked)
  }

  ghost predicate Enabled(st: State, a: Action) {
    match a
    case ByHandshake(t, h) => HandEnabled(st, t, h)
    case ByLoop(w, l) => WorkerEnabled(st, w, l)
    case FinStep(i) => FinEnabled(st, i)
    case Quit => true
    case UdpAdmit => true
    case UdpCountOut => st.udpOver > 0
    case UdpFinalize => st.udpHeld > 0
  }

  function SetHand(st: State, t: nat, h: Hand): State
    requires t < |st.hands|
  {
    st.(hands := st.hands[t := h])
  }

  function SetSlot(st: State, s: nat, x: Slot, o: Owner): State
    requires s < |st.slots| && s < |st.owner|
  {
    st.(slots := st.slots[s := x], owner := st.owner[s := o])
  }

  function SetWorker(st: State, w: nat, wk: Worker): State
    requires w < |st.workers|
  {
    st.(workers := st.workers[w := wk])
  }

  function Kill(st: State, s: nat): State
    requires s < |st.epoch|
  {
    st.(dead := st.dead + {(s, st.epoch[s])})
  }

  ghost function Apply(st: State, a: Action): State
    requires Enabled(st, a)
  {
    match a
    case ByHandshake(t, h) => HandStep(st, t, h)
    case ByLoop(w, l) => WorkerStep(st, w, l)
    case FinStep(i) => Finalize(st, i)
    case Quit => st.(running := false)
    // UDP sessions share the quota (udp_start_session, udp_conn_finalize)
    case UdpAdmit =>
      if st.connCount >= MAX_CONNS then st.(connCount := st.connCount + 1, udpOver := st.udpOver + 1)
      else st.(connCount := st.connCount + 1, udpHeld := st.udpHeld + 1)
    case UdpCountOut => st.(connCount := st.connCount - 1, udpOver := st.udpOver - 1)
    case UdpFinalize => st.(connCount := st.connCount - 1, udpHeld := st.udpHeld - 1)
  }

  ghost function HandStep(st: State, t: nat, a: HandAction): State
    requires HandEnabled(st, t, a)
  {
    match a
    case Admit => DoAdmit(st, t)
    case CountOut => GiveBack(st, t)
    case ConnectFails => GiveBack(st, t)
    case Pop => DoPop(st, t)
    case Wipe => DoWipe(st, t)
    case Publish => DoPublish(st, t)
    case Init(w, buffers) => DoInit(st, t, w, buffers)
    case Link => DoLink(st, t)
    case AddClient(ok) => if ok then SetHand(st, t, HalfAdded(st.hands[t].s)) else Rollback(st, t, st.hands[t].s)
    case AddTarget(ok) => if ok then DoJoin(st, t, st.hands[t].s) else Rollback(st, t, st.hands[t].s)
    case Register => DoRegister(st, t)
    case HandUnref => Unref(SetHand(st, t, Idle), HandTid(t), st.hands[t].s)
  }

  ghost function WorkerStep(st: State, w: nat, a: WorkerAction): State
    requires WorkerEnabled(st, w, a)
  {
    match a
    case Enter(n) => SetWorker(st, w, st.workers[w].(pc := Batch(n), garbage := []))
    case Leave => SetWorker(st, w, st.workers[w].(pc := Stop))
    case Deliver(sidx, egen) => SetWorker(st, w, AfterEvent(st, w, sidx, egen))
    case Shutdown => SetWorker(st, w, st.workers[w].(pc := Stop))
    case Forward => SetWorker(st, w, st.workers[w].(pc := Batch(st.workers[w].pc.left)))
    case Fail => DoFail(st, w)
    case EndBatch(due) => SetWorker(st, w, AfterBatch(st.workers[w], due))
    case SweepNext(expired) => DoSweep(st, w, expired)
    case SweepDone => SetWorker(st, w, st.workers[w].(pc := Collect(0), lock := Unlocked))
    case WorkerUnref => DoUnref(st, w)
    case UnrefsDone => SetWorker(st, w, AfterUnrefs(st.workers[w]))
    case SetStopping => SetWorker(st, w, st.workers[w].(pc := Ready, stopping := true))
    case DrainLock => SetWorker(st, w, st.workers[w].(pc := Drain, lock := ByWorker, collected := []))
    case DrainTake => DoTake(st, w)
    case DrainUnlock => SetWorker(st, w, st.workers[w].(pc := DrainUnref(0), lock := Unlocked))
  }

  // ----- handle_handshake_fd: reserve quota before connecting -----

  function DoAdmit(st: State, t: nat): State
    requires t < |st.hands|
  {
    SetHand(st, t, if st.connCount >= MAX_CONNS then Over else Admitted).(connCount := st.connCount + 1)
  }

  function GiveBack(st: State, t: nat): State
    requires t < |st.hands|
  {
    SetHand(st, t, Idle).(connCount := st.connCount - 1)
  }

  // ----- slot_acquire -----

  ghost predicate CanPop(st: State, t: nat) {
    t < |st.hands| && st.hands[t] == Admitted && (st.free != [] ==> SlotAt(st, st.free[|st.free| - 1]))
  }

  ghost function DoPop(st: State, t: nat): State
    requires CanPop(st, t)
  {
    if st.free == [] then SetHand(st, t, NoSlot)
    else
      var s := st.free[|st.free| - 1];
      var g := st.slots[s].gen + 1;
      SetHand(SetSlot(st, s, st.slots[s].(gen := g), Held(t)), t, Popped(s, g))
        .(free := st.free[..|st.free| - 1], epoch := st.epoch[s := g])
  }

  ghost function DoWipe(st: State, t: nat): State
    requires t < |st.hands| && st.hands[t].Popped? && SlotAt(st, st.hands[t].s)
  {
    var h := st.hands[t];
    SetHand(SetSlot(st, h.s, Slot(0, 0, st.slots[h.s].active, 0, false, false, 0, false), st.owner[h.s]), t, Wiped(h.s, h.g))
  }

  ghost function DoPublish(st: State, t: nat): State
    requires t < |st.hands| && st.hands[t].Wiped? && SlotAt(st, st.hands[t].s)
  {
    var h := st.hands[t];
    SetHand(SetSlot(st, h.s, st.slots[h.s].(gen := h.g, active := true), st.owner[h.s]), t, Fresh(h.s))
      .(acquired := st.acquired + 1)
  }

  // ----- handoff_to_worker -----

  ghost function DoInit(st: State, t: nat, w: nat, buffers: bool): State
    requires t < |st.hands| && st.hands[t].Fresh? && SlotAt(st, st.hands[t].s)
  {
    var s := st.hands[t].s;
    var x := st.slots[s].(refs := 1, registered := false, finalized := false, widx := w, magic := CONN_MAGIC);
    if buffers then SetHand(SetSlot(st, s, x, st.owner[s]), t, Built(s))
    else Kill(SetHand(SetSlot(st, s, x, st.owner[s]), t, Dropping(s)), s)
  }

  ghost predicate CanLink(st: State, t: nat) {
    t < |st.hands| && st.hands[t].Built? && Routed(st, st.hands[t].s) &&
    st.workers[st.slots[st.hands[t].s].widx].lock == Unlocked
  }

  ghost function DoLink(st: State, t: nat): State
    requires CanLink(st, t)
  {
    var s := st.hands[t].s;
    var w := st.slots[s].widx;
    var wk := st.workers[w];
    if wk.stopping then Kill(SetHand(st, t, Dropping(s)), s)
    else SetWorker(SetHand(st, t, Linked(s)), w, wk.(list := [s] + wk.list, lock := ByHand(t)))
  }

  /** Both epoll registrations done: the lock is released and the list holds the base reference. */
  ghost function DoJoin(st: State, t: nat, s: nat): State
    requires t < |st.hands| && Routed(st, s)
  {
    var w := st.slots[s].widx;
    SetWorker(SetHand(SetSlot(st, s, st.slots[s], Listed(w)), t, Joined(s, st.epoch[s])), w,
              st.workers[w].(lock := Unlocked))
  }

  ghost function DoRegister(st: State, t: nat): State
    requires t < |st.hands| && st.hands[t].Joined? && SlotAt(st, st.hands[t].s)
  {
    var s := st.hands[t].s;
    SetHand(SetSlot(st, s, st.slots[s].(registered := true), st.owner[s]), t, Idle)
  }

  // ----- worker_loop_safe -----

  function AfterEvent(st: State, w: nat, sidx: nat, egen: nat): Worker
    requires w < |st.workers| && st.workers[w].pc.Batch? && st.workers[w].pc.left > 0
  {
    var wk := st.workers[w];
    var left := wk.pc.left - 1;
    wk.(pc := if Classify(st, w, sidx, egen) == Process then Handling(left, sidx) else Batch(left))
  }

  ghost predicate CanFail(st: State, w: nat) {
    w < |st.workers| && st.workers[w].pc.Handling? && SlotAt(st, st.workers[w].pc.s) && st.workers[w].lock == Unlocked
  }

  ghost function DoFail(st: State, w: nat): State
    requires CanFail(st, w)
  {
    var wk := st.workers[w];
    var s := wk.pc.s;
    if st.slots[s].closed then SetWorker(st, w, wk.(pc := Batch(wk.pc.left)))
    else Close(st, w, s, wk.(pc := Batch(wk.pc.left), list := Without(wk.list, s), garbage := wk.garbage + [s]))
  }

  function AfterBatch(wk: Worker, due: bool): Worker {
    if due then wk.(pc := Sweep(Head(wk.list)), lock := ByWorker) else wk.(pc := Collect(0))
  }

  ghost predicate CanSweep(st: State, w: nat) {
    w < |st.workers| && st.workers[w].pc.Sweep? && SlotAt(st, st.workers[w].pc.cur)
  }

  ghost function DoSweep(st: State, w: nat, expired: bool): State
    requires CanSweep(st, w)
  {
    var wk := st.workers[w];
    var s: nat := wk.pc.cur;
    var x := st.slots[s];
    var next := Next(wk.list, s);
    var list := Without(wk.list, s);
    if !(x.magic == CONN_MAGIC && !x.closed && x.registered && expired) then
      SetWorker(st, w, wk.(pc := Sweep(next)))
    else if |wk.garbage| < BUCKET then
      Close(st, w, s, wk.(pc := Sweep(next), list := list, garbage := wk.garbage + [s]))
    else
      Close(st, w, s, wk.(pc := Flush(0, s, next), list := list, lock := Unlocked))
  }

  ghost function DoUnref(st: State, w: nat): State
    requires w < |st.workers| && w < |st.fin| && SlotAt(st, NextUnref(st.workers[w]))
  {
    var wk := st.workers[w];
    Unref(SetWorker(st, w, wk.(pc := Advance(wk.pc))), w, NextUnref(wk))
  }

  function AfterUnrefs(wk: Worker): Worker {
    match wk.pc
    case Flush(_, held, next) => wk.(pc := Sweep(next), garbage := [held], lock := ByWorker)
    case Collect(_) => wk.(pc := Top)
    case DrainUnref(_) => wk.(pc := if |wk.collected| < BUCKET then Last(0) else Ready)
    case _ => wk.(pc := Exited)
  }

  ghost predicate CanTake(st: State, w: nat) {
    w < |st.workers| && st.workers[w].pc == Drain && st.workers[w].list != [] &&
    |st.workers[w].collected| < BUCKET && SlotAt(st, st.workers[w].list[0])
  }

  ghost function DoTake(st: State, w: nat): State
    requires CanTake(st, w)
  {
    var wk := st.workers[w];
    var s := wk.list[0];
    var wk1 := wk.(list := Without(wk.list, s));
    if st.slots[s].magic == CONN_MAGIC then Close(st, w, s, wk1.(collected := wk.collected + [s]))
    else SetWorker(st, w, wk1)
  }

  /** Under the list lock a worker marks s closed and takes it off its list. */
  ghost function Close(st: State, w: nat, s: nat, wk: Worker): State
    requires w < |st.workers| && SlotAt(st, s)
  {
    Kill(SetWorker(SetSlot(st, s, st.slots[s].(closed := true), Bucket(w)), w, wk), s)
  }

  /** A failed epoll registration: mark closed, unlink, release the lock. */
  ghost function Rollback(st: State, t: nat, s: nat): State
    requires t < |st.hands| && Routed(st, s)
  {
    var w := st.slots[s].widx;
    var wk := st.workers[w];
    Kill(SetWorker(SetHand(SetSlot(st, s, st.slots[s].(closed := true), st.owner[s]), t, Dropping(s)), w,
                   wk.(list := Without(wk.list, s), lock := Unlocked)), s)
  }

  /** conn_unref: whoever takes the count from 1 to 0 enters conn_finalize. */
  ghost function Unref(st: State, i: nat, s: nat): State
    requires i < |st.fin| && SlotAt(st, s)
  {
    var x := st.slots[s];
    if x.refs == 1 then SetSlot(st, s, x.(refs := 0), Finalizer(i)).(fin := st.fin[i := Claimed(s)])
    else st.(slots := st.slots[s := x.(refs := x.refs - 1)])
  }

  /** The linkedness test of conn_finalize, on the worker's list. */
  ghost predicate StillLinked(st: State, s: nat)
    requires Routed(st, s)
  {
    s in st.workers[st.slots[s].widx].list
  }

  /** conn_finalize and slot_release, one shared access at a time. */
  ghost function Finalize(st: State, i: nat): State
    requires FinEnabled(st, i)
  {
    match st.fin[i]
    case Claimed(s) =>
      if st.slots[s].finalized then st.(fin := st.fin[i := NoFin], doubleFin := st.doubleFin + 1)
      else SetSlot(st, s, st.slots[s].(finalized := true), st.owner[s]).(fin := st.fin[i := Exchanged(s)])
    case Exchanged(s) =>
      var w := st.slots[s].widx;
      var st1 := SetSlot(st, s, st.slots[s].(magic := 0), st.owner[s]).(fin := st.fin[i := Poisoned(s)]);
      if StillLinked(st, s) then SetWorker(st1, w, st.workers[w].(list := Without(st.workers[w].list, s))) else st1
    case Poisoned(s) => st.(fin := st.fin[i := Returned(s)], connCount := st.connCount - 1)
    case Returned(s) =>
      SetSlot(st, s, st.slots[s].(active := false), st.owner[s]).(fin := st.fin[i := Cleared(s)])
    case Cleared(s) =>
      SetSlot(st, s, st.slots[s], Stack)
        .(fin := st.fin[i := Pushed], free := st.free + [s], log := st.log[s := st.log[s] + [st.slots[s].gen]])
    case Pushed => st.(fin := st.fin[i := NoFin], released := st.released + 1)
  }

  // ----- classification of an event -----

  datatype Disposition = Process | BadSlot | Inactive | Stale | WrongWorker | NotReady

  /** The snapshot test a worker makes before it touches the connection an event names. */
  function Classify(st: State, w: nat, sidx: nat, egen: nat): Disposition {
    if sidx >= |st.slots| then BadSlot else
    var x := st.slots[sidx];
    if !x.active then Inactive
    else if egen != x.gen || x.magic != CONN_MAGIC then Stale
    else if x.widx != w then WrongWorker
    else if x.closed || !x.registered then NotReady
    else Process
  }
}
