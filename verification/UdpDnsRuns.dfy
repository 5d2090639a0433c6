/** What UdpDnsSafety means for whole runs, and that resolution always comes to an end. */
module UdpDnsRuns {
  import opened Seqs
  import opened UdpDns
  import opened UdpDnsSafety

  function FreeJob(): Job { Job(Free, [], 0, [], Nobody) }

  function BootWorker(): Worker { Worker(seq(JOBS, _ => FreeJob()), map[], 0, Loop) }

  function Boot(resolvers: nat, pipeMax: nat): State {
    State(seq(WORKERS, _ => BootWorker()), [], seq(resolvers, _ => Waiting), pipeMax, 0, map[], 0)
  }

  lemma BootInv(resolvers: nat, pipeMax: nat)
    requires pipeMax > 0
    ensures Inv(Boot(resolvers, pipeMax))
  {
    var st := Boot(resolvers, pipeMax);
    forall w | 0 <= w < WORKERS ensures Sized(st.workers[w]) { assert st.workers[w] == BootWorker(); }
    forall w | 0 <= w < WORKERS ensures WorkerOk(st, w) { assert st.workers[w] == BootWorker(); }
  }

  ghost predicate StepAt(st: State, a: Action, st': State) { Enabled(st, a) && st' == Apply(st, a) }

  /** Any number of resolvers, any pipe capacity, any interleaving. */
  ghost predicate Run(states: seq<State>, acts: seq<Action>) {
    && |states| == |acts| + 1
    && (exists resolvers: nat, pipeMax: nat :: pipeMax > 0 && states[0] == Boot(resolvers, pipeMax))
    && forall k {:trigger acts[k]} :: 0 <= k < |acts| ==> StepAt(states[k], acts[k], states[k + 1])
  }

  ghost predicate Reached(states: seq<State>, acts: seq<Action>, k: nat, st: State) {
    Run(states, acts) && k < |states| && st == states[k] && Shape(st)
  }

  lemma {:induction false} RunInv(states: seq<State>, acts: seq<Action>, k: nat)
    requires Run(states, acts) && k < |states|
    ensures Inv(states[k])
  {
    if k == 0 {
      var resolvers: nat, pipeMax: nat :| pipeMax > 0 && states[0] == Boot(resolvers, pipeMax);
      BootInv(resolvers, pipeMax);
    } else {
      RunInv(states, acts, k - 1);
      assert StepAt(states[k - 1], acts[k - 1], states[k]);
      StepKeeps(states[k - 1], acts[k - 1]);
    }
  }

  // ----- safety -----

  /** A finished job has a byte in the pipe, a resolver about to write one, or a drain that has not passed it. */
  lemma NoLostWakeup(states: seq<State>, acts: seq<Action>, k: nat, st: State, w: nat, j: nat)
    requires Reached(states, acts, k, st) && w < WORKERS && j < JOBS && Done(st.workers[w].jobs[j].state)
    ensures st.workers[w].pipe > 0 || AboutToWake(st, w) || st.workers[w].pc == Clearing ||
            (st.workers[w].pc.Scanning? && st.workers[w].pc.i <= j)
  {
    RunInv(states, acts, k);
    assert WorkerOk(st, w) && WakeOk(st, w, j);
  }

  /** A used pending slot of a listed session has a live job for its host on that worker. */
  lemma NoStrandedFrame(states: seq<State>, acts: seq<Action>, k: nat, st: State, w: nat, sid: nat, i: nat)
    requires Reached(states, acts, k, st) && w < WORKERS && sid in st.workers[w].sessions && i < PEND_SLOTS
    requires Sized(st.workers[w]) && st.workers[w].sessions[sid].pend[i].Used?
    ensures exists j :: 0 <= j < JOBS && st.workers[w].jobs[j].state != Free &&
                        st.workers[w].jobs[j].host == st.workers[w].sessions[sid].pend[i].host
  {
    RunInv(states, acts, k);
    assert WorkerOk(st, w) && PendOk(st, w, sid, i);
  }

  /** A result lands in the still-INFLIGHT job its request was made for: DONE_OK exactly on success, host and port as they were. */
  lemma ResultLandsInItsJob(states: seq<State>, acts: seq<Action>, k: nat, st: State, r: nat, ok: bool, ip: string)
    requires Reached(states, acts, k, st) && r < |st.resolvers| && st.resolvers[r].Resolving?
    ensures var q := st.resolvers[r].req;
            && q.w < WORKERS && q.j < |st.workers[q.w].jobs|
            && st.workers[q.w].jobs[q.j].state == Inflight && st.workers[q.w].jobs[q.j].host == q.host
            && Enabled(st, Store(r, ok, ip))
            && var wk' := Apply(st, Store(r, ok, ip)).workers[q.w];
               |wk'.jobs| == JOBS && wk'.jobs[q.j].host == q.host && (wk'.jobs[q.j].state == DoneOk <==> ok) && (wk'.jobs[q.j].state == DoneFail <==> !ok) &&
               wk'.jobs[q.j].port == st.workers[q.w].jobs[q.j].port && (ok ==> wk'.jobs[q.j].ip == ip)
  {
    RunInv(states, acts, k);
    var q := st.resolvers[r].req;
    assert ResolverOk(st, r) && Names(st, q, AtResolver(r));
    assert WorkerOk(st, q.w) && JobOk(st, q.w, q.j) && Sized(st.workers[q.w]);
  }

  /** Where a request can be: the n-th place of the queue, or with a resolver. */
  datatype Place = Queued(n: nat) | With(r: nat)

  ghost predicate IsAt(st: State, p: Place, q: Request) {
    match p
    case Queued(n) => n < |st.queue| && st.queue[n] == q
    case With(r) => r < |st.resolvers| && st.resolvers[r] == Resolving(q)
  }

  /** No two requests name the same job: job table entries and requests correspond one to one. */
  lemma RequestsAreInjective(states: seq<State>, acts: seq<Action>, k: nat, st: State, p: Place, q: Request, p': Place, q': Request)
    requires Reached(states, acts, k, st) && IsAt(st, p, q) && IsAt(st, p', q') && q.w == q'.w && q.j == q'.j
    ensures p == p' && q == q'
  {
    RunInv(states, acts, k);
    assert QueueOk(st);
    Located(st, p, q);
    Located(st, p', q');
    if p.Queued? && p'.Queued? {
      if p.n < p'.n { NoDupAt(st.queue, p.n, p'.n); }
      if p'.n < p.n { NoDupAt(st.queue, p'.n, p.n); }
    }
  }

  lemma Located(st: State, p: Place, q: Request)
    requires Inv(st) && IsAt(st, p, q)
    ensures Names(st, q, if p.Queued? then InQueue else AtResolver(p.r))
  {
    assert QueueOk(st);
    if p.With? { assert ResolverOk(st, p.r); }
  }

  /** 4 x 32 jobs never need more than the 128 cells: the queue-full branch is never taken. */
  lemma QueueNeverFull(states: seq<State>, acts: seq<Action>, k: nat, st: State, w: nat)
    requires Reached(states, acts, k, st)
    ensures st.qfull == 0
    ensures w < WORKERS && st.workers[w].pc.Posting? ==> |st.queue| < QUEUE_MAX
  {
    RunInv(states, acts, k);
    if w < WORKERS && st.workers[w].pc.Posting? { QueueHasRoom(st, w); }
  }

  /** At most one live job per nonempty host and worker, so one resolution serves all its frames. */
  lemma OneJobPerHost(states: seq<State>, acts: seq<Action>, k: nat, st: State, w: nat, a: nat, b: nat)
    requires Reached(states, acts, k, st) && w < WORKERS && a < JOBS && b < JOBS && |st.workers[w].jobs| == JOBS
    requires st.workers[w].jobs[a].state != Free && st.workers[w].jobs[b].state != Free
    requires st.workers[w].jobs[a].host == st.workers[w].jobs[b].host != []
    ensures a == b
  {
    RunInv(states, acts, k);
    assert WorkerOk(st, w) && Single(st.workers[w].jobs);
  }

  // ----- the fate of a held frame -----

  /** A frame waits in exactly one slot, and no other slot holds it; an ended one is in none. */
  lemma WaitsInOnePlace(states: seq<State>, acts: seq<Action>, k: nat, st: State, w: nat, sid: nat, i: nat, id: nat)
    requires Reached(states, acts, k, st) && w < WORKERS && sid in st.workers[w].sessions && i < PEND_SLOTS
    requires Sized(st.workers[w]) && id in st.fate
    ensures var p := st.workers[w].sessions[sid].pend[i];
            (p.Used? && p.id == id) <==> st.fate[id] == Waits(w, sid, i)
  {
    RunInv(states, acts, k);
    assert WorkerOk(st, w) && PendOk(st, w, sid, i) && FateOk(st);
    assert st.fate[id].Waits? ==> InPlace(st, id, st.fate[id]);
  }

  lemma HoldFinal(st: State, w: nat, sid: nat, host: Host, frame: Frame, id: nat)
    requires w < |st.workers| && id in st.fate && id < st.nextId
    ensures var st' := Hold(st, w, sid, host, frame); id in st'.fate && st'.fate[id] == st.fate[id]
  {
  }

  lemma StepFinal(st: State, a: Action, id: nat)
    requires Inv(st) && Enabled(st, a) && id in st.fate && !st.fate[id].Waits?
    ensures id in Apply(st, a).fate && Apply(st, a).fate[id] == st.fate[id]
  {
    assert FateOk(st);
    match a
    case Arrive(w, sid, host, frame) => HoldFinal(st, w, sid, host, frame, id);
    case Post(w) =>
      var wk := st.workers[w];
      var job := wk.jobs[wk.pc.j];
      HoldFinal(SetWorker(st, w, SetJob(wk, wk.pc.j, job.(holder := InQueue)).(pc := Loop)), w, wk.pc.sid, job.host, wk.pc.frame, id);
    case _ =>
  }

  /** Sent, lost, dropped or gone: a frame ends once, and never changes after. */
  lemma {:induction false} FateIsFinal(states: seq<State>, acts: seq<Action>, k: nat, m: nat, id: nat)
    requires Run(states, acts) && k <= m < |states| && id in states[k].fate && !states[k].fate[id].Waits?
    ensures id in states[m].fate && states[m].fate[id] == states[k].fate[id]
    decreases m - k
  {
    if k < m {
      RunInv(states, acts, k);
      assert StepAt(states[k], acts[k], states[k + 1]);
      StepFinal(states[k], acts[k], id);
      FateIsFinal(states, acts, k + 1, m, id);
    }
  }

  /**
    When the scan meets the finished job, a frame held for its host leaves its slot: sent to the
    resolved address if there is one and the session can still send, else counted lost or
    dropped. It is sent to the port of the frame that started the resolution.
   */
  lemma DrainEndsTheFrame(states: seq<State>, acts: seq<Action>, k: nat, st: State, w: nat, sid: nat, i: nat, literal: bool)
    requires Reached(states, acts, k, st) && Enabled(st, Scan(w, literal)) && w < WORKERS && Sized(st.workers[w])
    requires sid in st.workers[w].sessions && i < PEND_SLOTS && st.workers[w].sessions[sid].pend[i].Used?
    requires var wk := st.workers[w]; wk.pc.i < JOBS && Done(wk.jobs[wk.pc.i].state) &&
                                      wk.jobs[wk.pc.i].host == wk.sessions[sid].pend[i].host
    ensures var wk := st.workers[w]; var job := wk.jobs[wk.pc.i]; var p := wk.sessions[sid].pend[i];
            var st' := Apply(st, Scan(w, literal));
            && p.id in st'.fate
            && (st'.fate[p.id] == Replayed(job.ip, job.port) <==> job.state == DoneOk && literal && wk.sessions[sid].usable)
            && (st'.fate[p.id] == Lost <==> job.state == DoneOk && literal && !wk.sessions[sid].usable)
            && (st'.fate[p.id] == Dropped <==> job.state == DoneFail || !literal)
            && (job.state == DoneOk && literal && wk.sessions[sid].usable ==>
                  (st'.fate[p.id] == Replayed(job.ip, p.frame.port) <==> job.port == p.frame.port))
  {
    RunInv(states, acts, k);
    assert WorkerOk(st, w) && PendOk(st, w, sid, i);
  }

  // ----- a held frame's own port -----

  /** Two frames for one host: the first starts the resolution, the second is held with its own port. */
  lemma HeldPortIsIgnored(host: Host, first: Frame, second: Frame)
    returns (states: seq<State>, acts: seq<Action>)
    requires host != [] && HoldOk(|first.payload|) && HoldOk(|second.payload|)
    ensures Run(states, acts) && |acts| == 4
    ensures var st := states[4];
            && Shape(st) && Sized(st.workers[0]) && st.workers[0].pc == Loop
            && st.workers[0].jobs[0] == Job(Inflight, host, first.port, [], InQueue)
            && 0 in st.workers[0].sessions && st.workers[0].sessions[0].pend == [Used(host, first, 0), Used(host, second, 1)]
  {
    var boot := Boot(1, 1);
    var st0 := Apply(boot, Open(0, 0));
    var st1 := Apply(st0, Arrive(0, 0, host, first));
    FindJobSpec(st0.workers[0].jobs, host, 0);
    assert AllocJob(st0.workers[0].jobs, 0) == 0;
    var st2 := Apply(st1, Post(0));
    assert st2.workers[0].jobs[0] == Job(Inflight, host, first.port, [], InQueue);
    assert FindJob(st2.workers[0].jobs, host, 0) == 0;
    assert FreePend(st1.workers[0].sessions[0].pend, 0) == 0;
    assert FreePend(st2.workers[0].sessions[0].pend, 0) == 1;
    var st3 := Apply(st2, Arrive(0, 0, host, second));
    states := [boot, st0, st1, st2, st3];
    acts := [Open(0, 0), Arrive(0, 0, host, first), Post(0), Arrive(0, 0, host, second)];
    assert StepAt(boot, acts[0], st0) && StepAt(st0, acts[1], st1) && StepAt(st1, acts[2], st2) && StepAt(st2, acts[3], st3);
  }

  // ----- it always ends -----

  /** The steps that finish work already accepted; the others bring or withdraw work. */
  predicate Internal(a: Action) {
    a.Post? || a.Wake? || a.Read? || a.Scan? || a.Take? || a.Store? || a.Write?
  }

  function WorkerWeight(wk: Worker): nat {
    wk.pipe * 36 +
    match wk.pc
    case Loop => 1
    case Posting(_, _, _) => 41
    case Clearing => if wk.pipe == 0 then JOBS + 3 else 0
    case Scanning(i) => if i <= JOBS then JOBS - i + 2 else 0
  }

  function ResolverWeight(r: Resolver): nat {
    match r
    case Waiting => 0
    case Waking(_) => 37
    case Resolving(_) => 38
  }

  /** What is left to do, counted so that every internal step lowers it. */
  function Remaining(st: State): nat {
    Sum(st.workers, WorkerWeight) + Sum(st.resolvers, ResolverWeight) + |st.queue| * 39
  }

  lemma InternalStepDecreases(st: State, a: Action)
    requires Inv(st) && Internal(a) && Enabled(st, a)
    ensures Remaining(Apply(st, a)) < Remaining(st)
  {
    match a
    case Take(r) => TakeDecreases(st, r);
    case Store(r, ok, ip) => StoreDecreases(st, r, ok, ip);
    case Write(r) => WriteDecreases(st, r);
    case Post(w) => PostDecreases(st, w);
    case Scan(w, literal) => ScanDecreases(st, w, literal);
    case Wake(w) => WorkerDecreases(st, w, Apply(st, a));
    case Read(w) => WorkerDecreases(st, w, Apply(st, a));
  }

  lemma TakeDecreases(st: State, r: nat)
    requires Inv(st) && Enabled(st, Take(r))
    ensures Remaining(DoTake(st, r)) < Remaining(st)
  {
    var st' := DoTake(st, r);
    var w := st.queue[0].w;
    SumUpdate(st.resolvers, r, st'.resolvers[r], ResolverWeight);
    SumUpdate(st.workers, w, st'.workers[w], WorkerWeight);
  }

  lemma StoreDecreases(st: State, r: nat, ok: bool, ip: string)
    requires Inv(st) && Enabled(st, Store(r, ok, ip))
    ensures Remaining(DoStore(st, r, ok, ip)) < Remaining(st)
  {
    var st' := DoStore(st, r, ok, ip);
    var w := st.resolvers[r].req.w;
    SumUpdate(st.resolvers, r, st'.resolvers[r], ResolverWeight);
    SumUpdate(st.workers, w, st'.workers[w], WorkerWeight);
  }

  lemma WriteDecreases(st: State, r: nat)
    requires Inv(st) && Enabled(st, Write(r))
    ensures Remaining(DoWrite(st, r)) < Remaining(st)
  {
    var st' := DoWrite(st, r);
    var w := st.resolvers[r].w;
    SumUpdate(st.resolvers, r, st'.resolvers[r], ResolverWeight);
    SumUpdate(st.workers, w, st'.workers[w], WorkerWeight);
  }

  lemma PostDecreases(st: State, w: nat)
    requires Inv(st) && Enabled(st, Post(w))
    ensures Remaining(DoPost(st, w)) < Remaining(st)
  {
    var st' := DoPost(st, w);
    QueueHasRoom(st, w);
    assert st'.workers == st.workers[w := st'.workers[w]];
    SumUpdate(st.workers, w, st'.workers[w], WorkerWeight);
  }

  lemma WorkerDecreases(st: State, w: nat, st': State)
    requires w < |st.workers| == |st'.workers| && st'.workers == st.workers[w := st'.workers[w]]
    requires st'.resolvers == st.resolvers && st'.queue == st.queue
    requires WorkerWeight(st'.workers[w]) < WorkerWeight(st.workers[w])
    ensures Remaining(st') < Remaining(st)
  {
    SumUpdate(st.workers, w, st'.workers[w], WorkerWeight);
  }

  lemma ScanDecreases(st: State, w: nat, literal: bool)
    requires Inv(st) && Enabled(st, Scan(w, literal))
    ensures Remaining(DoScan(st, w, literal)) < Remaining(st)
  {
    assert WorkerOk(st, w) && Sized(st.workers[w]) && PointOk(st.workers[w]);
    WorkerDecreases(st, w, DoScan(st, w, literal));
  }

  /** Once nothing new arrives, at most Remaining(st) steps follow, in whatever order they are taken. */
  lemma {:induction false} SettlesWithin(states: seq<State>, acts: seq<Action>)
    requires |states| == |acts| + 1 && Inv(states[0])
    requires forall k {:trigger acts[k]} :: 0 <= k < |acts| ==> Internal(acts[k]) && StepAt(states[k], acts[k], states[k + 1])
    ensures |acts| <= Remaining(states[0])
  {
    if acts != [] {
      assert StepAt(states[0], acts[0], states[1]);
      StepKeeps(states[0], acts[0]);
      InternalStepDecreases(states[0], acts[0]);
      assert forall k :: 0 <= k < |acts[1..]| ==> acts[1..][k] == acts[k + 1];
      SettlesWithin(states[1..], acts[1..]);
    }
  }

  ghost predicate AtRest(st: State) { forall a :: Internal(a) ==> !Enabled(st, a) }

  lemma RestingThreads(st: State, w: nat)
    requires Inv(st) && AtRest(st) && st.resolvers != [] && w < WORKERS
    ensures st.workers[w].pc == Loop && st.workers[w].pipe == 0 && st.queue == []
    ensures forall r :: 0 <= r < |st.resolvers| ==> st.resolvers[r] == Waiting
  {
    assert WorkerOk(st, w) && Sized(st.workers[w]) && QueueOk(st);
    assert !Enabled(st, Post(w)) && !Enabled(st, Wake(w)) && !Enabled(st, Read(w)) && !Enabled(st, Scan(w, true));
    forall r | 0 <= r < |st.resolvers| ensures st.resolvers[r] == Waiting {
      assert ResolverOk(st, r);
      assert !Enabled(st, Store(r, true, [])) && !Enabled(st, Write(r));
    }
    assert forall i :: 0 <= i < |st.queue| ==> st.queue[i] in st.queue;
    assert st.queue != [] ==> Names(st, st.queue[0], InQueue);
    assert !Enabled(st, Take(0));
  }

  /** And when no thread can move, no frame is waiting and every job is free. */
  lemma NothingLeftAtRest(st: State, w: nat, j: nat, sid: nat, i: nat, id: nat)
    requires Inv(st) && AtRest(st) && st.resolvers != [] && w < WORKERS
    ensures |st.workers[w].jobs| == JOBS && (j < JOBS ==> st.workers[w].jobs[j].state == Free)
    ensures Sized(st.workers[w])
    ensures sid in st.workers[w].sessions && i < PEND_SLOTS ==> st.workers[w].sessions[sid].pend[i] == Unused
    ensures id in st.fate ==> !st.fate[id].Waits?
  {
    assert Sized(st.workers[w]) && FateOk(st);
    AllFreeAtRest(st, w);
    if sid in st.workers[w].sessions && i < PEND_SLOTS { EmptyAtRest(st, w, sid, i); }
    if id in st.fate && st.fate[id].Waits? {
      var f := st.fate[id];
      assert InPlace(st, id, f);
      EmptyAtRest(st, f.w, f.sid, f.slot);
    }
  }

  lemma AllFreeAtRest(st: State, w: nat)
    requires Inv(st) && AtRest(st) && st.resolvers != [] && w < WORKERS
    ensures forall j :: 0 <= j < |st.workers[w].jobs| ==> st.workers[w].jobs[j].state == Free
  {
    RestingThreads(st, w);
    assert Sized(st.workers[w]) && WorkerOk(st, w);
    forall j | 0 <= j < JOBS ensures st.workers[w].jobs[j].state == Free {
      assert JobOk(st, w, j) && WakeOk(st, w, j);
    }
  }

  lemma EmptyAtRest(st: State, w: nat, sid: nat, i: nat)
    requires Inv(st) && AtRest(st) && st.resolvers != [] && w < WORKERS && sid in st.workers[w].sessions && i < PEND_SLOTS
    requires |st.workers[w].sessions[sid].pend| == PEND_SLOTS
    ensures st.workers[w].sessions[sid].pend[i] == Unused
  {
    AllFreeAtRest(st, w);
    assert WorkerOk(st, w) && PendOk(st, w, sid, i);
  }
}
