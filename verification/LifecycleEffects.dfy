/** What single steps achieve, beside what they keep: who is admitted, what is acted on, what is undone and what is closed. */
module LifecycleEffects {
  import opened Seqs
  import opened Lifecycle
  import opened LifecycleSafety

  /** A TCP handshake or a UDP session gets its unit of quota exactly while fewer than 1000 are counted in. */
  lemma AdmitsExactly(st: State, t: nat)
    requires Enabled(st, ByHandshake(t, Admit))
    ensures Apply(st, ByHandshake(t, Admit)).hands[t] == (if st.connCount < 1000 then Admitted else Over)
    ensures Apply(st, UdpAdmit).udpHeld == st.udpHeld + (if st.connCount < 1000 then 1 else 0)
    ensures Apply(st, ByHandshake(t, Admit)).connCount == st.connCount + 1 && Apply(st, UdpAdmit).connCount == st.connCount + 1
  {
  }

  /**
    slot_acquire fails exactly when no slot is free. Otherwise the last one freed becomes an empty
    slot of the next generation, active once it is published.
   */
  lemma AcquiresExactly(st: State, t: nat, a: HandAction)
    requires Inv(st) && Enabled(st, ByHandshake(t, a)) && (a == Pop || a == Wipe || a == Publish)
    ensures var st' := Apply(st, ByHandshake(t, a)); var h, h' := st.hands[t], st'.hands[t];
            match a
            case Pop => if st.free == [] then h' == NoSlot && st'.free == []
                        else var s := st.free[|st.free| - 1];
                             h' == Popped(s, st.slots[s].gen + 1) && st'.free + [s] == st.free && st'.owner == st.owner[s := Held(t)]
            case Wipe => h' == Wiped(h.s, h.g) && !st'.slots[h.s].registered && !st'.slots[h.s].closed && st'.slots[h.s].refs == 0
            case Publish => h' == Fresh(h.s) && st'.slots == st.slots[h.s := st.slots[h.s].(gen := h.g, active := true)]
            case _ => true
  {
    assert HandOk(st, t);
  }

  /** A worker acts on an event exactly when it names a registered connection on its own list, of the same incarnation. */
  lemma ProcessedExactly(st: State, w: nat, s: nat, g: nat)
    requires Inv(st) && w < WORKER_COUNT
    ensures Classify(st, w, s, g) == Process <==> s < 1088 && st.owner[s] == Listed(w) && st.epoch[s] == g && st.slots[s].registered
  {
    if s < SLOT_COUNT { assert SlotOk(st, s); }
  }

  /** And then handles it; any other event is passed over. */
  lemma DeliversExactly(st: State, w: nat, s: nat, g: nat)
    requires Inv(st) && Enabled(st, ByLoop(w, Deliver(s, g)))
    ensures var left := st.workers[w].pc.left - 1; var pc' := Apply(st, ByLoop(w, Deliver(s, g))).workers[w].pc;
            pc' == if s < 1088 && st.owner[s] == Listed(w) && st.epoch[s] == g && st.slots[s].registered then Handling(left, s) else Batch(left)
  {
    ProcessedExactly(st, w, s, g);
  }

  /** Closed: marked so, off the list, its incarnation recorded, and in the hands of worker w to be unref'd. */
  ghost predicate ClosedBy(st: State, st': State, w: nat, s: nat)
    requires Shape(st) && Shape(st') && w < WORKER_COUNT && s < SLOT_COUNT
  {
    && st'.slots[s] == st.slots[s].(closed := true) && st'.epoch[s] == st.epoch[s] && (s, st.epoch[s]) in st'.dead
    && s !in st'.workers[w].list && st'.owner[s] == Bucket(w) && s in Pending(st'.workers[w])
    && (forall x :: x in st.workers[w].list && x != s ==> x in st'.workers[w].list)
  }

  /** An I/O error closes the connection it happened on. */
  lemma FailCloses(st: State, w: nat)
    requires Inv(st) && Enabled(st, ByLoop(w, Fail))
    ensures var st' := Apply(st, ByLoop(w, Fail)); var s := st.workers[w].pc.s;
            Shape(st') && s < SLOT_COUNT && ClosedBy(st, st', w, s) && st'.workers[w].pc == Batch(st.workers[w].pc.left)
  {
    LoopOutline(st, w, Fail);
    assert WorkerOk(st, w);
    assert SlotOk(st, st.workers[w].pc.s);
    WithoutMembers(st.workers[w].list, st.workers[w].pc.s);
  }

  /** What the scan stands on is open. */
  lemma ScanFinds(st: State, w: nat)
    requires Inv(st) && WorkerEnabled(st, w, SweepNext(true))
    ensures var s := st.workers[w].pc.cur; NoDup<nat>(st.workers[w].list) && st.slots[s].magic == CONN_MAGIC && !st.slots[s].closed
  {
    SweepStands(st, w);
    assert WorkerOk(st, w);
    assert SlotOk(st, st.workers[w].pc.cur);
  }

  lemma SweepCloses(st: State, w: nat)
    requires Shape(st) && w < WORKER_COUNT && CanSweep(st, w) && NoDup<nat>(st.workers[w].list)
    requires var x := st.slots[st.workers[w].pc.cur]; x.magic == CONN_MAGIC && !x.closed && x.registered
    ensures var st' := DoSweep(st, w, true); var s := st.workers[w].pc.cur;
            Shape(st') && s < SLOT_COUNT && ClosedBy(st, st', w, s) && CursorOf(st'.workers[w].pc) == Next(st.workers[w].list, s)
  {
    var s: nat := st.workers[w].pc.cur;
    WithoutMembers(st.workers[w].list, s);
  }

  /** The timeout scan closes an expired, registered connection, and goes on to the next. */
  lemma ScanReclaims(st: State, w: nat)
    requires Inv(st) && Enabled(st, ByLoop(w, SweepNext(true))) && st.slots[st.workers[w].pc.cur].registered
    ensures var st' := Apply(st, ByLoop(w, SweepNext(true))); var s := st.workers[w].pc.cur;
            Shape(st') && s < SLOT_COUNT && ClosedBy(st, st', w, s) && CursorOf(st'.workers[w].pc) == Next(st.workers[w].list, s)
  {
    ScanFinds(st, w);
    SweepCloses(st, w);
  }

  /** It leaves every other connection alone: one that has not expired, and one still being registered. */
  lemma ScanSpares(st: State, w: nat, expired: bool)
    requires Inv(st) && Enabled(st, ByLoop(w, SweepNext(expired))) && !(expired && st.slots[st.workers[w].pc.cur].registered)
    ensures var st' := Apply(st, ByLoop(w, SweepNext(expired)));
            && st'.slots == st.slots && st'.owner == st.owner && st'.dead == st.dead && |st'.workers| == |st.workers|
            && st'.workers[w] == st.workers[w].(pc := Sweep(Next(st.workers[w].list, st.workers[w].pc.cur)))
  {
  }

  /** Where a scan stands, also while it empties its bucket. */
  function CursorOf(pc: Point): int { match pc case Sweep(cur) => cur case Flush(_, _, next) => next case _ => -1 }

  /** The exit drain closes the connection it takes. */
  lemma DrainCloses(st: State, w: nat)
    requires Inv(st) && Enabled(st, ByLoop(w, DrainTake))
    ensures var st' := Apply(st, ByLoop(w, DrainTake)); var s := st.workers[w].list[0];
            Shape(st') && s < SLOT_COUNT && ClosedBy(st, st', w, s) && st'.workers[w].pc == Drain
  {
    LoopOutline(st, w, DrainTake);
    var s := st.workers[w].list[0];
    assert WorkerOk(st, w);
    assert ListedOk(st, w, s);
    assert SlotOk(st, s);
    WithoutMembers(st.workers[w].list, s);
  }

  /** A failed epoll registration is undone: closed, unlinked, the lock released, and its thread about to drop it. */
  lemma FailedRegistrationIsUndone(st: State, t: nat, a: HandAction)
    requires Inv(st) && (a == AddClient(false) || a == AddTarget(false)) && Enabled(st, ByHandshake(t, a))
    ensures var st' := Apply(st, ByHandshake(t, a)); var s := st.hands[t].s; var w := st.slots[s].widx;
            && Shape(st') && s < SLOT_COUNT && w < WORKER_COUNT && st'.hands[t] == Dropping(s)
            && st'.slots[s].closed && s !in st'.workers[w].list && st'.workers[w].lock == Unlocked && (s, st.epoch[s]) in st'.dead
  {
    var s := st.hands[t].s;
    assert HandOk(st, t);
    assert SlotOk(st, s) && WorkerOk(st, st.slots[s].widx);
    WithoutMembers(st.workers[st.slots[s].widx].list, s);
  }

  /** So is one whose buffers cannot be allocated, and one whose worker has begun to stop. */
  lemma RefusedConnectionIsDropped(st: State, t: nat, a: HandAction)
    requires Inv(st) && Enabled(st, ByHandshake(t, a))
    requires (a.Init? && !a.buffers) || (a == Link && st.workers[st.slots[st.hands[t].s].widx].stopping)
    ensures var st' := Apply(st, ByHandshake(t, a)); var s := st.hands[t].s;
            st'.hands[t] == Dropping(s) && (s, st.epoch[s]) in st'.dead && st'.workers == st.workers
  {
    assert HandOk(st, t);
  }

  /** Nothing stands in the way of this step of a handoff. */
  ghost predicate Unhindered(st: State, t: nat, a: HandAction)
    requires HandEnabled(st, t, a)
  {
    match a
    case Init(_, buffers) => buffers
    case Link => !st.workers[st.slots[st.hands[t].s].widx].stopping
    case AddClient(ok) => ok
    case AddTarget(ok) => ok
    case Register => true
    case _ => false
  }

  /**
    A handoff that nothing stands in the way of leads through each stage to the connection on the
    list of the worker chosen for it, with the list's one reference, and registered.
   */
  lemma AcceptedConnectionIsListed(st: State, t: nat, a: HandAction)
    requires Inv(st) && Enabled(st, ByHandshake(t, a)) && Unhindered(st, t, a)
    ensures var st' := Apply(st, ByHandshake(t, a)); var s := st.hands[t].s; var h' := st'.hands[t];
            && s < SLOT_COUNT && |st'.slots| == |st'.owner| == SLOT_COUNT && |st'.workers| == WORKER_COUNT
            && var w' := st'.slots[s].widx;
               (a != Register ==> w' < WORKER_COUNT) &&
               match a
               case Init(w, _) => h' == Built(s) && w' == w && st'.slots[s].refs == 1 && st'.slots[s].magic == CONN_MAGIC
               case Link => h' == Linked(s) && st'.workers[w'].list == [s] + st.workers[w'].list && st'.workers[w'].lock == ByHand(t)
               case AddClient(_) => h' == HalfAdded(s) && st'.workers == st.workers
               case AddTarget(_) => h' == Joined(s, st.epoch[s]) && st'.owner[s] == Listed(w') && s in st'.workers[w'].list &&
                                    st'.workers[w'].lock == Unlocked
               case _ => h' == Idle && st'.slots[s].registered
  {
    assert HandOk(st, t);
    if a == AddTarget(true) { assert SlotOk(st, st.hands[t].s); }
  }
}
