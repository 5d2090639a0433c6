/**
  The timeout scan as a whole, from taking the lock to releasing it for good: whatever the other
  threads do meanwhile, every connection listed at the start gets exactly one look, and is closed
  exactly if that look found it expired.
 */
module LifecycleSweep {
  import opened Seqs
  import opened Lifecycle
  import opened LifecycleSafety
  import opened LifecycleRuns
  import opened LifecycleEffects

  // ----- the part of a list from a cursor on -----

  function Tail(xs: seq<nat>, x: int): seq<nat> {
    if xs == [] then [] else if xs[0] == x then xs else Tail(xs[1..], x)
  }

  lemma {:induction false} TailNothing(xs: seq<nat>)
    ensures Tail(xs, -1) == []
  {
    if xs != [] { TailNothing(xs[1..]); }
  }

  lemma {:induction false} TailIn(xs: seq<nat>, x: int)
    ensures forall y :: y in Tail(xs, x) ==> y in xs
  {
    if xs != [] && xs[0] != x { TailIn(xs[1..], x); }
  }

  /** The cursor stands on its tail's first element, and what follows is the tail of the next. */
  lemma {:induction false} TailNext(xs: seq<nat>, x: nat)
    requires NoDup(xs) && x in xs
    ensures Tail(xs, x) == [x] + Tail(xs, Next(xs, x)) && x !in Tail(xs, Next(xs, x))
  {
    if xs[0] == x {
      if |xs| < 2 {
        TailNothing(xs);
        assert xs == [x];
      } else {
        assert xs[1] in xs[1..] && xs[1..][0] == xs[1];
        assert Tail(xs, xs[1]) == Tail(xs[1..], xs[1]) == xs[1..];
        assert xs == [x] + xs[1..];
      }
    } else {
      TailNext(xs[1..], x);
      NextMember(xs[1..], x);
      assert Next(xs, x) == Next(xs[1..], x) && Next(xs, x) != xs[0];
    }
  }

  /** Unlinking the connection under the cursor leaves the rest of the scan as it was. */
  lemma {:induction false} TailWithoutSelf(xs: seq<nat>, x: nat)
    requires NoDup(xs) && x in xs
    ensures Tail(Without(xs, x), Next(xs, x)) == Tail(xs, Next(xs, x))
  {
    if xs[0] == x {
      if |xs| < 2 {
        TailNothing(xs);
        TailNothing(xs[1..]);
      }
    } else {
      TailWithoutSelf(xs[1..], x);
      NextMember(xs[1..], x);
      var n, rest := Next(xs, x), Without(xs[1..], x);
      assert n == Next(xs[1..], x) && n != xs[0];
      assert Without(xs, x) == [xs[0]] + rest && ([xs[0]] + rest)[1..] == rest;
    }
  }

  lemma {:induction false} TailWithoutOther(xs: seq<nat>, y: nat, x: int)
    requires x != y && NoDup(xs)
    ensures forall z :: z in Tail(Without(xs, y), x) <==> z in Tail(xs, x) && z != y
  {
    if xs != [] {
      if xs[0] == y {
        TailIn(xs[1..], x);
      } else if xs[0] == x {
        WithoutMembers(xs, y);
        assert Without(xs, y)[0] == x;
      } else {
        TailWithoutOther(xs[1..], y, x);
        var rest := Without(xs[1..], y);
        assert Without(xs, y) == [xs[0]] + rest && ([xs[0]] + rest)[1..] == rest;
      }
    }
  }

  // ----- one connection during a scan -----

  predicate Scanning(pc: Point) { pc.Sweep? || pc.Flush? }

  /** Still to be looked at. */
  ghost predicate Ahead(st: State, w: nat, s: nat)
    requires Shape(st) && w < WORKER_COUNT
  {
    s in Tail(st.workers[w].list, CursorOf(st.workers[w].pc))
  }

  /** The open connection the scan found at its start. */
  ghost predicate Stays(st: State, w: nat, s: nat, g: nat)
    requires Shape(st)
  {
    s < SLOT_COUNT && st.owner[s] == Listed(w) && st.epoch[s] == g && st.slots[s].registered
  }

  ghost predicate Visits(st: State, a: Action, w: nat, s: nat) {
    w < |st.workers| && st.workers[w].pc == Sweep(s) && a.ByLoop? && a.w == w && a.a.SweepNext?
  }

  ghost predicate Finishes(a: Action, w: nat) { a == ByLoop(w, SweepDone) }

  /** Steps of others: at most a handshake thread links or unlinks its own connection in front. */
  lemma HandOnList(st: State, t: nat, a: HandAction, w: nat)
    requires Inv(st) && HandEnabled(st, t, a) && w < WORKER_COUNT && Scanning(st.workers[w].pc)
    ensures var st' := HandStep(st, t, a);
            && Shape(st') && st'.workers[w].pc == st.workers[w].pc
            && (forall s: nat :: Ahead(st', w, s) ==> Ahead(st, w, s))
            && (forall s: nat :: s < SLOT_COUNT && Ahead(st, w, s) && st.owner[s] == Listed(w) ==> Ahead(st', w, s))
  {
    HandOutline(st, t, a);
    var wk, wk' := st.workers[w], HandStep(st, t, a).workers[w];
    var cur := CursorOf(wk.pc);
    assert WorkerOk(st, w) && HandOk(st, t);
    if a.Link? && wk' != wk {
      assert wk'.list[1..] == wk.list && st.hands[t].s != cur;
    } else if (a.AddClient? || a.AddTarget?) && !a.ok && wk' != wk {
      TailWithoutOther(wk.list, st.hands[t].s, cur);
    }
  }

  /** The worker's own steps other than a look: emptying its bucket leaves list and cursor alone. */
  lemma OwnRest(st: State, w: nat, a: WorkerAction)
    requires Inv(st) && WorkerEnabled(st, w, a) && Scanning(st.workers[w].pc) && !a.SweepNext? && a != SweepDone
    ensures var st' := WorkerStep(st, w, a);
            && Shape(st') && Scanning(st'.workers[w].pc) && CursorOf(st'.workers[w].pc) == CursorOf(st.workers[w].pc)
            && st'.workers[w].list == st.workers[w].list
  {
    LoopOutline(st, w, a);
  }

  lemma OthersOnList(st: State, v: nat, a: WorkerAction, w: nat)
    requires Inv(st) && WorkerEnabled(st, v, a) && v != w && w < WORKER_COUNT
    ensures Shape(WorkerStep(st, v, a)) && WorkerStep(st, v, a).workers[w] == st.workers[w]
  {
    LoopOutline(st, v, a);
  }

  lemma FinOnList(st: State, i: nat, w: nat)
    requires Inv(st) && FinEnabled(st, i) && w < WORKER_COUNT
    ensures Shape(Finalize(st, i)) && Finalize(st, i).workers[w] == st.workers[w]
  {
    FinOutline(st, i);
    assert FinOk(st, i);
    if st.fin[i].Exchanged? {
      var s := st.fin[i].s;
      assert SlotOk(st, s) && LogOk(st, s) && FreeOk(st);
      assert WorkerOk(st, st.slots[s].widx);
      NeverStillLinked(st, i, s);
    }
  }

  /** Any step that is not a look of worker w. */
  lemma NoLook(st: State, a: Action, w: nat)
    requires Inv(st) && Enabled(st, a) && w < WORKER_COUNT && Scanning(st.workers[w].pc)
    requires !(a.ByLoop? && a.w == w && a.a.SweepNext?) && !Finishes(a, w)
    ensures var st' := Apply(st, a);
            && Shape(st') && Scanning(st'.workers[w].pc)
            && (forall s: nat :: Ahead(st', w, s) ==> Ahead(st, w, s))
            && (forall s: nat :: s < SLOT_COUNT && Ahead(st, w, s) && st.owner[s] == Listed(w) ==> Ahead(st', w, s))
  {
    match a
    case ByHandshake(t, h) => HandOnList(st, t, h, w);
    case ByLoop(v, l) => if v == w { OwnRest(st, w, l); } else { OthersOnList(st, v, l, w); }
    case FinStep(i) => FinOnList(st, i, w);
    case _ =>
  }

  /** A look moves the cursor past the connection it is on. */
  lemma Look(st: State, w: nat, expired: bool)
    requires Inv(st) && WorkerEnabled(st, w, SweepNext(expired))
    ensures var st' := WorkerStep(st, w, SweepNext(expired)); var c := st.workers[w].pc.cur;
            && Shape(st') && Scanning(st'.workers[w].pc)
            && (forall s: nat :: Ahead(st, w, s) <==> s == c || Ahead(st', w, s)) && !Ahead(st', w, c)
  {
    LoopOutline(st, w, SweepNext(expired));
    SweepStands(st, w);
    assert WorkerOk(st, w);
    var c: nat := st.workers[w].pc.cur;
    TailNext(st.workers[w].list, c);
    TailWithoutSelf(st.workers[w].list, c);
  }

  // ----- and its owner -----

  lemma HandLeavesOpen(st: State, t: nat, a: HandAction, w: nat, s: nat, g: nat)
    requires Inv(st) && HandEnabled(st, t, a) && Stays(st, w, s, g)
    ensures Shape(HandStep(st, t, a)) && Stays(HandStep(st, t, a), w, s, g)
  {
    HandOutline(st, t, a);
    if !(a.Register? && st.hands[t].s == s) { HandLeaves(st, t, a, s); }
  }

  /** A worker closes only what is on its own list. */
  lemma OthersLeaveOpen(st: State, v: nat, a: WorkerAction, w: nat, s: nat, g: nat)
    requires Inv(st) && WorkerEnabled(st, v, a) && v != w && w < WORKER_COUNT && Stays(st, w, s, g)
    ensures Shape(WorkerStep(st, v, a)) && Stays(WorkerStep(st, v, a), w, s, g)
  {
    LoopOutline(st, v, a);
    assert WorkerOk(st, v);
    match a
    case WorkerUnref => UnrefLeaves(st, v, s);
    case DrainTake => assert ListedOk(st, v, st.workers[v].list[0]);
    case Fail =>
    case SweepNext(_) =>
    case _ =>
  }

  lemma OwnLeavesOpen(st: State, w: nat, a: WorkerAction, s: nat, g: nat)
    requires Inv(st) && WorkerEnabled(st, w, a) && Scanning(st.workers[w].pc) && Stays(st, w, s, g)
    requires a.SweepNext? ==> st.workers[w].pc.cur != s || !a.expired
    ensures Shape(WorkerStep(st, w, a)) && Stays(WorkerStep(st, w, a), w, s, g)
  {
    LoopOutline(st, w, a);
    if a.WorkerUnref? { UnrefLeaves(st, w, s); }
  }

  lemma StaysOpen(st: State, a: Action, w: nat, s: nat, g: nat)
    requires Inv(st) && Enabled(st, a) && w < WORKER_COUNT && Scanning(st.workers[w].pc) && Stays(st, w, s, g)
    requires Visits(st, a, w, s) ==> !a.a.expired
    ensures Shape(Apply(st, a)) && Stays(Apply(st, a), w, s, g)
  {
    match a
    case ByHandshake(t, h) => HandLeavesOpen(st, t, h, w, s, g);
    case ByLoop(v, l) => if v == w { OwnLeavesOpen(st, w, l, s, g); } else { OthersLeaveOpen(st, v, l, w, s, g); }
    case FinStep(i) =>
      FinOutline(st, i);
      FinLeaves(st, i, s);
    case _ =>
  }

  // ----- the whole scan -----

  /** How the scan stands to connection s after step k: not looked at yet, looked at and spared, or closed. */
  datatype Progress = Waiting | Spared(m: nat) | Closed(m: nat)

  ghost predicate Tracks(st: State, w: nat, s: nat, g: nat, p: Progress)
    requires Shape(st) && w < WORKER_COUNT
  {
    && Scanning(st.workers[w].pc) && (Ahead(st, w, s) <==> p == Waiting)
    && (if p.Closed? then (s, g) in st.dead else Stays(st, w, s, g))
  }

  /** One step of anybody. */
  lemma TrackStep(st: State, a: Action, w: nat, s: nat, g: nat, p: Progress, k: nat) returns (p': Progress)
    requires Inv(st) && Enabled(st, a) && w < WORKER_COUNT && Tracks(st, w, s, g, p) && !Finishes(a, w)
    ensures Shape(Apply(st, a)) && Tracks(Apply(st, a), w, s, g, p')
    ensures Visits(st, a, w, s) ==> p == Waiting && p' == if a.a.expired then Closed(k) else Spared(k)
    ensures !Visits(st, a, w, s) ==> p' == p
  {
    var st' := Apply(st, a);
    DeadGrows(st, a);
    if a.ByLoop? && a.w == w && a.a.SweepNext? {
      Look(st, w, a.a.expired);
      LookedAt(st, w, a.a.expired);
      if st.workers[w].pc.cur == s {
        p' := if a.a.expired then Closed(k) else Spared(k);
        if a.a.expired { ScanReclaims(st, w); } else { StaysOpen(st, a, w, s, g); }
      } else {
        p' := p;
        if !p.Closed? { StaysOpen(st, a, w, s, g); }
      }
    } else {
      p' := p;
      NoLook(st, a, w);
      if !p.Closed? { StaysOpen(st, a, w, s, g); }
    }
  }

  /** The connection under the cursor is ahead. */
  lemma LookedAt(st: State, w: nat, expired: bool)
    requires Inv(st) && WorkerEnabled(st, w, SweepNext(expired))
    ensures Ahead(st, w, st.workers[w].pc.cur)
  {
    SweepStands(st, w);
    assert WorkerOk(st, w);
    TailNext(st.workers[w].list, st.workers[w].pc.cur);
  }

  /** A scan of worker w runs from step i, which takes the lock, and has not finished before step k. */
  ghost predicate ScanRuns(states: seq<State>, acts: seq<Action>, w: nat, i: nat, k: nat) {
    Run(states, acts) && w < WORKER_COUNT && i < k < |states| && acts[i] == ByLoop(w, EndBatch(true)) &&
    forall q :: i < q < k ==> !Finishes(acts[q], w)
  }

  /** The looks at s in steps i + 1 to k - 1 that such a standing stands for. */
  ghost predicate Looks(states: seq<State>, acts: seq<Action>, w: nat, i: nat, k: nat, s: nat, p: Progress)
    requires k <= |acts| <= |states|
  {
    match p
    case Waiting => forall q :: i < q < k ==> !Visits(states[q], acts[q], w, s)
    case Spared(m) => i < m < k && acts[m] == ByLoop(w, SweepNext(false)) && forall q :: i < q < k ==> (Visits(states[q], acts[q], w, s) <==> q == m)
    case Closed(m) => i < m < k && acts[m] == ByLoop(w, SweepNext(true)) && forall q :: i < q < k ==> (Visits(states[q], acts[q], w, s) <==> q == m)
  }

  lemma TrackAt(states: seq<State>, acts: seq<Action>, w: nat, k: nat, s: nat, g: nat, p: Progress) returns (p': Progress)
    requires Run(states, acts) && k < |acts| && w < WORKER_COUNT && Shape(states[k]) && Tracks(states[k], w, s, g, p) && !Finishes(acts[k], w)
    ensures Shape(states[k + 1]) && Tracks(states[k + 1], w, s, g, p')
    ensures Visits(states[k], acts[k], w, s) ==> p == Waiting && p' == if acts[k] == ByLoop(w, SweepNext(true)) then Closed(k) else Spared(k)
    ensures Visits(states[k], acts[k], w, s) ==> acts[k] == ByLoop(w, SweepNext(p'.Closed?))
    ensures !Visits(states[k], acts[k], w, s) ==> p' == p
  {
    RunInv(states, acts, k);
    assert StepAt(states[k], acts[k], states[k + 1]);
    p' := TrackStep(states[k], acts[k], w, s, g, p, k);
  }

  lemma StartAt(states: seq<State>, acts: seq<Action>, w: nat, i: nat, s: nat, g: nat)
    requires Run(states, acts) && i < |acts| && w < WORKER_COUNT && acts[i] == ByLoop(w, EndBatch(true))
    requires Shape(states[i]) && s in states[i].workers[w].list && Stays(states[i], w, s, g)
    ensures Shape(states[i + 1]) && Tracks(states[i + 1], w, s, g, Waiting)
  {
    RunInv(states, acts, i);
    assert StepAt(states[i], acts[i], states[i + 1]);
    ScanBegins(states[i], w, s, g);
  }

  lemma {:induction false} Track(states: seq<State>, acts: seq<Action>, w: nat, i: nat, k: nat, s: nat, g: nat) returns (p: Progress)
    requires ScanRuns(states, acts, w, i, k) && Shape(states[i]) && s in states[i].workers[w].list && Stays(states[i], w, s, g)
    ensures Shape(states[k]) && Tracks(states[k], w, s, g, p) && Looks(states, acts, w, i, k, s, p)
    decreases k
  {
    if k == i + 1 {
      p := Waiting;
      StartAt(states, acts, w, i, s, g);
    } else {
      var p0 := Track(states, acts, w, i, k - 1, s, g);
      p := TrackAt(states, acts, w, k - 1, s, g, p0);
      LooksOn(states, acts, w, i, k - 1, s, p0, p);
    }
  }

  lemma LooksOn(states: seq<State>, acts: seq<Action>, w: nat, i: nat, k: nat, s: nat, p: Progress, p': Progress)
    requires k < |acts| <= |states| && i < k && Looks(states, acts, w, i, k, s, p)
    requires Visits(states[k], acts[k], w, s) ==> p == Waiting && p' == if acts[k] == ByLoop(w, SweepNext(true)) then Closed(k) else Spared(k)
    requires Visits(states[k], acts[k], w, s) ==> acts[k] == ByLoop(w, SweepNext(p'.Closed?))
    requires !Visits(states[k], acts[k], w, s) ==> p' == p
    ensures Looks(states, acts, w, i, k + 1, s, p')
  {
  }

  lemma ScanBegins(st: State, w: nat, s: nat, g: nat)
    requires Inv(st) && Enabled(st, ByLoop(w, EndBatch(true))) && s in st.workers[w].list && Stays(st, w, s, g)
    ensures var st' := Apply(st, ByLoop(w, EndBatch(true))); Shape(st') && Tracks(st', w, s, g, Waiting)
  {
    LoopOutline(st, w, EndBatch(true));
  }

  /** When the cursor is null nothing is ahead. */
  lemma ScanEnds(st: State, w: nat, s: nat)
    requires Inv(st) && Enabled(st, ByLoop(w, SweepDone))
    ensures !Ahead(st, w, s)
  {
    TailOff(st.workers[w].list, st.workers[w].pc.cur);
  }

  lemma {:induction false} TailOff(xs: seq<nat>, x: int)
    requires x < 0
    ensures Tail(xs, x) == []
  {
    if xs != [] { TailOff(xs[1..], x); }
  }

  /**
    The law of the scan: a registered connection on the list when the scan takes the lock is looked
    at exactly once before the scan is done, and by then its incarnation is closed exactly if that
    look found it expired; otherwise it is still open on the list.
   */
  lemma ScanLaw(states: seq<State>, acts: seq<Action>, w: nat, i: nat, k: nat, s: nat, g: nat) returns (m: nat)
    requires ScanRuns(states, acts, w, i, k) && k < |acts| && Finishes(acts[k], w)
    requires Shape(states[i]) && s in states[i].workers[w].list && Stays(states[i], w, s, g)
    ensures i < m < k && Visits(states[m], acts[m], w, s) && forall q :: i < q < k && Visits(states[q], acts[q], w, s) ==> q == m
    ensures (s, g) in states[k].dead <==> acts[m] == ByLoop(w, SweepNext(true))
    ensures Shape(states[k]) && (acts[m] != ByLoop(w, SweepNext(true)) ==> Stays(states[k], w, s, g) && s in states[k].workers[w].list && !states[k].slots[s].closed)
  {
    var p := Track(states, acts, w, i, k, s, g);
    RunInv(states, acts, k);
    assert StepAt(states[k], acts[k], states[k + 1]);
    ScanEnds(states[k], w, s);
    m := p.m;
    if p.Spared? {
      assert SlotOk(states[k], s) && DeadOk(states[k]);
    }
  }
}
