/** No lost wakeup, no stranded frame, no overflowing queue, over every interleaving of UdpDns. */
module UdpDnsSafety {
  import opened Seqs
  import opened UdpDns

  // ----- the invariant -----

  ghost predicate Sized(wk: Worker) {
    |wk.jobs| == JOBS && forall sid :: sid in wk.sessions ==> |wk.sessions[sid].pend| == PEND_SLOTS
  }

  ghost predicate Shape(st: State) {
    |st.workers| == WORKERS && st.pipeMax > 0 && forall w :: 0 <= w < WORKERS ==> Sized(st.workers[w])
  }

  predicate Done(s: JobState) { s == DoneOk || s == DoneFail }

  /** A job is INFLIGHT exactly while somebody has its request, and they have it for this host. */
  ghost predicate JobOk(st: State, w: nat, j: nat)
    requires Shape(st) && w < WORKERS && j < JOBS
  {
    var job := st.workers[w].jobs[j];
    && (job.state == Inflight <==> job.holder != Nobody)
    && match job.holder
       case Nobody => true
       case AtWorker => st.workers[w].pc.Posting? && st.workers[w].pc.j == j
       case InQueue => Request(w, j, job.host) in st.queue
       case AtResolver(r) => r < |st.resolvers| && st.resolvers[r] == Resolving(Request(w, j, job.host))
  }

  ghost predicate Names(st: State, q: Request, h: Holder)
    requires Shape(st)
  {
    q.w < WORKERS && q.j < JOBS && st.workers[q.w].jobs[q.j].holder == h && st.workers[q.w].jobs[q.j].host == q.host
  }

  ghost predicate ResolverOk(st: State, r: nat)
    requires Shape(st) && r < |st.resolvers|
  {
    match st.resolvers[r]
    case Waiting => true
    case Resolving(q) => Names(st, q, AtResolver(r))
    case Waking(w) => w < WORKERS
  }

  ghost predicate PointOk(wk: Worker)
    requires Sized(wk)
  {
    match wk.pc
    case Posting(j, _, _) => j < JOBS && wk.jobs[j].holder == AtWorker
    case Scanning(i) => i <= JOBS
    case _ => true
  }

  /** Some resolver still has to write worker w's wake byte. */
  ghost predicate AboutToWake(st: State, w: nat) {
    exists r :: 0 <= r < |st.resolvers| && st.resolvers[r] == Waking(w)
  }

  /** A finished job will be seen: a byte waits, one will be written, or the scan has yet to reach it. */
  ghost predicate WakeOk(st: State, w: nat, j: nat)
    requires Shape(st) && w < WORKERS && j < JOBS
  {
    var wk := st.workers[w];
    Done(wk.jobs[j].state) ==>
      wk.pipe > 0 || wk.pc == Clearing || (wk.pc.Scanning? && wk.pc.i <= j) || AboutToWake(st, w)
  }

  ghost predicate HasJob(jobs: seq<Job>, host: Host) {
    exists j :: 0 <= j < |jobs| && jobs[j].state != Free && jobs[j].host == host
  }

  /** A held frame has a job for its host on its worker, and is where its record says. */
  ghost predicate PendOk(st: State, w: nat, sid: nat, i: nat)
    requires Shape(st) && w < WORKERS && sid in st.workers[w].sessions && i < PEND_SLOTS
  {
    var p := st.workers[w].sessions[sid].pend[i];
    p.Used? ==> HasJob(st.workers[w].jobs, p.host) && p.id in st.fate && st.fate[p.id] == Waits(w, sid, i)
  }

  /** At most one live job per host (the empty host is never found, so it is exempt). */
  ghost predicate Single(jobs: seq<Job>) {
    forall a, b :: 0 <= a < b < |jobs| && jobs[a].state != Free && jobs[b].state != Free && jobs[a].host == jobs[b].host ==>
      jobs[a].host == []
  }

  ghost predicate WorkerOk(st: State, w: nat)
    requires Shape(st) && w < WORKERS
  {
    && (forall j :: 0 <= j < JOBS ==> JobOk(st, w, j))
    && (forall j :: 0 <= j < JOBS ==> WakeOk(st, w, j))
    && (forall sid, i :: sid in st.workers[w].sessions && 0 <= i < PEND_SLOTS ==> PendOk(st, w, sid, i))
    && PointOk(st.workers[w]) && Single(st.workers[w].jobs)
  }

  ghost predicate QueueOk(st: State)
    requires Shape(st)
  {
    NoDup(st.queue) && forall q :: q in st.queue ==> Names(st, q, InQueue)
  }

  ghost predicate FateOk(st: State)
    requires Shape(st)
  {
    forall id :: id in st.fate ==> id < st.nextId && (st.fate[id].Waits? ==> InPlace(st, id, st.fate[id]))
  }

  ghost predicate InPlace(st: State, id: nat, f: Fate)
    requires Shape(st) && f.Waits?
  {
    f.w < WORKERS && f.sid in st.workers[f.w].sessions && f.slot < PEND_SLOTS &&
    st.workers[f.w].sessions[f.sid].pend[f.slot].Used? && st.workers[f.w].sessions[f.sid].pend[f.slot].id == id
  }

  ghost predicate Inv(st: State) {
    && Shape(st)
    && (forall w :: 0 <= w < WORKERS ==> WorkerOk(st, w))
    && (forall r :: 0 <= r < |st.resolvers| ==> ResolverOk(st, r))
    && QueueOk(st) && FateOk(st) && st.qfull == 0
  }

  // ----- framing: a step is about one worker -----

  ghost predicate About(q: Resolver, w: nat) {
    (q.Resolving? && q.req.w == w) || (q.Waking? && q.w == w)
  }

  ghost predicate Elsewhere(st: State, st': State, w: nat)
    requires Shape(st)
  {
    && Shape(st') && |st'.resolvers| == |st.resolvers|
    && (forall x :: 0 <= x < WORKERS && x != w ==> st'.workers[x] == st.workers[x])
    && (forall q :: q in st.queue && q.w != w ==> q in st'.queue)
    && (forall r :: 0 <= r < |st.resolvers| && st'.resolvers[r] != st.resolvers[r] ==>
          (st.resolvers[r] == Waiting || About(st.resolvers[r], w)) && (st'.resolvers[r] == Waiting || About(st'.resolvers[r], w)))
    && (forall id :: id in st.fate && !(st.fate[id].Waits? && st.fate[id].w == w) ==> id in st'.fate && st'.fate[id] == st.fate[id])
  }

  lemma OtherWorkers(st: State, st': State, w: nat, x: nat)
    requires Inv(st) && Elsewhere(st, st', w) && x < WORKERS && x != w
    ensures WorkerOk(st', x)
  {
    assert WorkerOk(st, x);
    forall j | 0 <= j < JOBS ensures JobOk(st', x, j) && WakeOk(st', x, j) {
      assert JobOk(st, x, j) && WakeOk(st, x, j);
      if AboutToWake(st, x) {
        var r :| 0 <= r < |st.resolvers| && st.resolvers[r] == Waking(x);
        assert st'.resolvers[r] == Waking(x);
      }
    }
    forall sid, i | sid in st'.workers[x].sessions && 0 <= i < PEND_SLOTS ensures PendOk(st', x, sid, i) {
      assert PendOk(st, x, sid, i);
    }
  }

  lemma OtherResolvers(st: State, st': State, w: nat)
    requires Inv(st) && Elsewhere(st, st', w)
    requires forall r :: 0 <= r < |st'.resolvers| && About(st'.resolvers[r], w) ==> ResolverOk(st', r)
    ensures forall r :: 0 <= r < |st'.resolvers| ==> ResolverOk(st', r)
  {
    forall r | 0 <= r < |st'.resolvers| ensures ResolverOk(st', r) {
      assert ResolverOk(st, r);
    }
  }

  lemma Conclude(st: State, st': State, w: nat)
    requires Inv(st) && Elsewhere(st, st', w) && w < WORKERS && WorkerOk(st', w)
    requires forall r :: 0 <= r < |st'.resolvers| && About(st'.resolvers[r], w) ==> ResolverOk(st', r)
    requires QueueOk(st') && FateOk(st') && st'.qfull == 0
    ensures Inv(st')
  {
    forall x | 0 <= x < WORKERS ensures WorkerOk(st', x) {
      if x != w { OtherWorkers(st, st', w, x); }
    }
    OtherResolvers(st, st', w);
  }

  // ----- the job table searches -----

  lemma {:induction false} FindJobSpec(jobs: seq<Job>, host: Host, i: nat)
    ensures var r := FindJob(jobs, host, i);
            if r >= 0 then i <= r < |jobs| && jobs[r].state != Free && jobs[r].host == host
            else host == [] || forall j :: i <= j < |jobs| ==> jobs[j].state == Free || jobs[j].host != host
    decreases |jobs| - i
  {
    if host != [] && i < |jobs| && !(jobs[i].state != Free && jobs[i].host == host) { FindJobSpec(jobs, host, i + 1); }
  }

  lemma {:induction false} AllocJobSpec(jobs: seq<Job>, i: nat)
    ensures var r := AllocJob(jobs, i);
            if r >= 0 then i <= r < |jobs| && jobs[r].state == Free
            else forall j :: i <= j < |jobs| ==> jobs[j].state != Free
    decreases |jobs| - i
  {
    if i < |jobs| && jobs[i].state != Free { AllocJobSpec(jobs, i + 1); }
  }

  lemma {:induction false} FreePendSpec(pend: seq<Pend>, i: nat)
    ensures var r := FreePend(pend, i);
            if r >= 0 then i <= r < |pend| && pend[r] == Unused
            else forall j :: i <= j < |pend| ==> pend[j].Used?
    decreases |pend| - i
  {
    if i < |pend| && pend[i].Used? { FreePendSpec(pend, i + 1); }
  }

  // ----- holding a frame -----

  ghost predicate Parked(st: State, st': State, w: nat, sid: nat, p: nat, u: Pend)
    requires Shape(st) && w < WORKERS
  {
    sid in st.workers[w].sessions && p < PEND_SLOTS && st.workers[w].sessions[sid].pend[p] == Unused && u.Used? &&
    u.id == st.nextId && HasJob(st.workers[w].jobs, u.host) &&
    var ss := st.workers[w].sessions;
    st' == SetWorker(st, w, st.workers[w].(sessions := ss[sid := ss[sid].(pend := ss[sid].pend[p := u])]))
             .(fate := st.fate[st.nextId := Waits(w, sid, p)], nextId := st.nextId + 1)
  }

  lemma ParkedWorker(st: State, st': State, w: nat, sid: nat, p: nat, u: Pend)
    requires Inv(st) && w < WORKERS && Parked(st, st', w, sid, p, u)
    ensures Shape(st') && WorkerOk(st', w)
  {
    assert WorkerOk(st, w) && FateOk(st);
    forall x | 0 <= x < WORKERS ensures Sized(st'.workers[x]) { assert Sized(st.workers[x]); }
    forall j | 0 <= j < JOBS ensures JobOk(st', w, j) && WakeOk(st', w, j) {
      assert JobOk(st, w, j) && WakeOk(st, w, j);
    }
    forall x, i | x in st'.workers[w].sessions && 0 <= i < PEND_SLOTS ensures PendOk(st', w, x, i) {
      if x != sid || i != p { assert PendOk(st, w, x, i); }
    }
  }

  lemma ParkedKeeps(st: State, st': State, w: nat, sid: nat, p: nat, u: Pend)
    requires Inv(st) && w < WORKERS && Parked(st, st', w, sid, p, u)
    ensures Inv(st')
  {
    ParkedWorker(st, st', w, sid, p, u);
    assert FateOk(st) && QueueOk(st);
    forall id | id in st'.fate ensures id < st'.nextId && (st'.fate[id].Waits? ==> InPlace(st', id, st'.fate[id])) {
      if id != st.nextId { assert st.fate[id].Waits? ==> InPlace(st, id, st.fate[id]); }
    }
    forall r | 0 <= r < |st'.resolvers| ensures ResolverOk(st', r) { assert ResolverOk(st, r); }
    forall q | q in st'.queue ensures Names(st', q, InQueue) { assert Names(st, q, InQueue); }
    Conclude(st, st', w);
  }

  lemma HoldKeeps(st: State, w: nat, sid: nat, host: Host, frame: Frame)
    requires Inv(st) && w < WORKERS && HasJob(st.workers[w].jobs, host)
    ensures Inv(Hold(st, w, sid, host, frame))
  {
    var p := HoldSlot(st.workers[w], sid, frame);
    if p >= 0 {
      assert Sized(st.workers[w]);
      FreePendSpec(st.workers[w].sessions[sid].pend, 0);
      ParkedKeeps(st, Hold(st, w, sid, host, frame), w, sid, p, Used(host, frame, st.nextId));
    }
  }

  // ----- changing one job of one worker -----

  /** The rest of the invariant when only worker w's jobs, pipe or point change, sessions and fates staying. */
  ghost predicate SameFrames(st: State, st': State, w: nat)
    requires Shape(st) && w < WORKERS
  {
    Elsewhere(st, st', w) && st'.workers[w].sessions == st.workers[w].sessions && st'.fate == st.fate &&
    st'.nextId == st.nextId && st'.qfull == st.qfull
  }

  lemma FramesStay(st: State, st': State, w: nat)
    requires Inv(st) && w < WORKERS && SameFrames(st, st', w)
    ensures FateOk(st')
  {
    assert FateOk(st);
    forall id | id in st'.fate ensures id < st'.nextId && (st'.fate[id].Waits? ==> InPlace(st', id, st'.fate[id])) {
      assert st.fate[id].Waits? ==> InPlace(st, id, st.fate[id]);
    }
  }

  lemma PendsStay(st: State, st': State, w: nat)
    requires Inv(st) && w < WORKERS && SameFrames(st, st', w)
    requires forall h :: HasJob(st.workers[w].jobs, h) ==> HasJob(st'.workers[w].jobs, h)
    ensures forall sid, i :: sid in st'.workers[w].sessions && 0 <= i < PEND_SLOTS ==> PendOk(st', w, sid, i)
  {
    assert WorkerOk(st, w);
    forall sid, i | sid in st'.workers[w].sessions && 0 <= i < PEND_SLOTS ensures PendOk(st', w, sid, i) {
      assert PendOk(st, w, sid, i);
    }
  }

  /** A job that stays live keeps every host served. */
  lemma HostsStay(jobs: seq<Job>, j: nat, job: Job)
    requires j < |jobs| && (jobs[j].state == Free || (job.state != Free && job.host == jobs[j].host))
    ensures forall h :: HasJob(jobs, h) ==> HasJob(jobs[j := job], h)
  {
    forall h | HasJob(jobs, h) ensures HasJob(jobs[j := job], h) {
      var k :| 0 <= k < |jobs| && jobs[k].state != Free && jobs[k].host == h;
      assert jobs[j := job][k].host == h && jobs[j := job][k].state != Free;
    }
  }

  // ----- udp_dns_defer -----

  lemma ClaimKeeps(st: State, w: nat, sid: nat, host: Host, frame: Frame, j: nat)
    requires Inv(st) && w < WORKERS && st.workers[w].pc == Loop && j < JOBS && st.workers[w].jobs[j].state == Free
    requires FindJob(st.workers[w].jobs, host, 0) < 0
    ensures var wk := SetJob(st.workers[w], j, Job(Inflight, host, frame.port, [], AtWorker)).(pc := Posting(j, sid, frame));
            Inv(SetWorker(st, w, wk))
  {
    var job := Job(Inflight, host, frame.port, [], AtWorker);
    var st' := SetWorker(st, w, SetJob(st.workers[w], j, job).(pc := Posting(j, sid, frame)));
    assert WorkerOk(st, w) && QueueOk(st);
    forall x | 0 <= x < WORKERS ensures Sized(st'.workers[x]) { assert Sized(st.workers[x]); }
    FindJobSpec(st.workers[w].jobs, host, 0);
    HostsStay(st.workers[w].jobs, j, job);
    PendsStay(st, st', w);
    FramesStay(st, st', w);
    assert JobOk(st, w, j);
    forall k | 0 <= k < JOBS ensures JobOk(st', w, k) && WakeOk(st', w, k) {
      assert JobOk(st, w, k) && WakeOk(st, w, k);
    }
    forall r | 0 <= r < |st'.resolvers| ensures ResolverOk(st', r) { assert ResolverOk(st, r); }
    forall q | q in st'.queue ensures Names(st', q, InQueue) { assert Names(st, q, InQueue); }
    Conclude(st, st', w);
  }

  lemma ArriveKeeps(st: State, w: nat, sid: nat, host: Host, frame: Frame)
    requires Inv(st) && Enabled(st, Arrive(w, sid, host, frame))
    ensures Inv(Defer(st, w, sid, host, frame))
  {
    var jobs := st.workers[w].jobs;
    assert Sized(st.workers[w]);
    FindJobSpec(jobs, host, 0);
    AllocJobSpec(jobs, 0);
    if FindJob(jobs, host, 0) >= 0 {
      HoldKeeps(st, w, sid, host, frame);
    } else if AllocJob(jobs, 0) >= 0 {
      ClaimKeeps(st, w, sid, host, frame, AllocJob(jobs, 0));
    }
  }

  // ----- the queue has room -----

  function Keys(queue: seq<Request>): seq<nat> {
    if queue == [] then [] else [Key(queue[0].w, queue[0].j)] + Keys(queue[1..])
  }

  lemma {:induction false} KeysFacts(st: State, queue: seq<Request>)
    requires Shape(st) && NoDup(queue) && forall q :: q in queue ==> Names(st, q, InQueue)
    ensures |Keys(queue)| == |queue| && NoDup(Keys(queue))
    ensures forall k :: k in Keys(queue) ==> exists q :: q in queue && k == Key(q.w, q.j)
  {
    if queue != [] {
      var q0, rest := queue[0], queue[1..];
      KeysFacts(st, rest);
      assert Keys(queue)[1..] == Keys(rest);
      assert q0 in queue && Names(st, q0, InQueue);
      forall q | q in rest ensures Key(q.w, q.j) != Key(q0.w, q0.j) {
        assert Names(st, q, InQueue);
        assert q0 !in rest && q != q0;
      }
      forall k | k in Keys(queue) ensures exists q :: q in queue && k == Key(q.w, q.j) {
        if k in Keys(rest) { var q :| q in rest && k == Key(q.w, q.j); assert q in queue; }
      }
    }
  }

  /** A worker about to post always finds room: its own job is INFLIGHT and in no request yet. */
  lemma QueueHasRoom(st: State, w: nat)
    requires Inv(st) && w < WORKERS && st.workers[w].pc.Posting?
    ensures |st.queue| < QUEUE_MAX
  {
    assert QueueOk(st) && WorkerOk(st, w);
    KeysFacts(st, st.queue);
    var mine := Key(w, st.workers[w].pc.j);
    var keys := [mine] + Keys(st.queue);
    forall q | q in st.queue ensures mine != Key(q.w, q.j) {
      assert Names(st, q, InQueue);
      assert st.workers[q.w].jobs[q.j].holder != st.workers[w].jobs[st.workers[w].pc.j].holder;
    }
    assert keys[1..] == Keys(st.queue);
    forall k | k in keys ensures k < WORKERS * JOBS {
      if k != mine {
        var q :| q in st.queue && k == Key(q.w, q.j);
        assert Names(st, q, InQueue);
      }
    }
    Pigeonhole(keys, WORKERS * JOBS);
  }

  /** The request is queued, the frame not yet held. */
  lemma PostedKeeps(st: State, w: nat, mid: State)
    requires Inv(st) && w < WORKERS && st.workers[w].pc.Posting?
    requires PointOk(st.workers[w])
    requires var wk := st.workers[w]; var j := wk.pc.j; var job := wk.jobs[j];
             mid == SetWorker(st, w, SetJob(wk, j, job.(holder := InQueue)).(pc := Loop))
                      .(queue := st.queue + [Request(w, j, job.host)])
    ensures Inv(mid) && HasJob(mid.workers[w].jobs, st.workers[w].jobs[st.workers[w].pc.j].host)
  {
    var j := st.workers[w].pc.j;
    var job := st.workers[w].jobs[j];
    var q := Request(w, j, job.host);
    assert WorkerOk(st, w) && QueueOk(st) && JobOk(st, w, j);
    forall x | 0 <= x < WORKERS ensures Sized(mid.workers[x]) { assert Sized(st.workers[x]); }
    assert mid.workers[w].jobs[j] == job.(holder := InQueue);
    HostsStay(st.workers[w].jobs, j, job.(holder := InQueue));
    PendsStay(st, mid, w);
    FramesStay(st, mid, w);
    forall k | 0 <= k < JOBS ensures JobOk(mid, w, k) && WakeOk(mid, w, k) {
      assert JobOk(st, w, k) && WakeOk(st, w, k);
    }
    forall r | 0 <= r < |mid.resolvers| ensures ResolverOk(mid, r) { assert ResolverOk(st, r); }
    forall x | x in st.queue ensures x != q { assert Names(st, x, InQueue); }
    NoDupAppend(st.queue, q);
    forall x | x in mid.queue ensures Names(mid, x, InQueue) { assert x != q ==> Names(st, x, InQueue); }
    Conclude(st, mid, w);
  }

  lemma PostKeeps(st: State, w: nat)
    requires Inv(st) && Enabled(st, Post(w))
    ensures Inv(DoPost(st, w))
  {
    assert WorkerOk(st, w);
    QueueHasRoom(st, w);
    var wk := st.workers[w];
    var j := wk.pc.j;
    var job := wk.jobs[j];
    var sent := SetWorker(st, w, SetJob(wk, j, job.(holder := InQueue)).(pc := Loop));
    var mid := sent.(queue := st.queue + [Request(w, j, job.host)]);
    PostedKeeps(st, w, mid);
    HoldKeeps(mid, w, wk.pc.sid, job.host, wk.pc.frame);
    assert Hold(mid, w, wk.pc.sid, job.host, wk.pc.frame) == DoPost(st, w);
  }

  // ----- udp_dns_drain -----

  /** A step of worker w that changes only its pipe and its point. */
  ghost predicate Moves(st: State, st': State, w: nat, pipe: nat, pc: Point)
    requires Shape(st) && w < WORKERS
  {
    st' == SetWorker(st, w, st.workers[w].(pipe := pipe, pc := pc))
  }

  lemma MoveKeeps(st: State, st': State, w: nat, pipe: nat, pc: Point)
    requires Inv(st) && w < WORKERS && Moves(st, st', w, pipe, pc)
    requires !st.workers[w].pc.Posting? && !pc.Posting? && (pc.Scanning? ==> pc.i <= JOBS)
    requires Shape(st') && forall j :: 0 <= j < JOBS && WakeOk(st, w, j) ==> WakeOk(st', w, j)
    ensures Inv(st')
  {
    assert WorkerOk(st, w) && QueueOk(st);
    PendsStay(st, st', w);
    FramesStay(st, st', w);
    forall k | 0 <= k < JOBS ensures JobOk(st', w, k) && WakeOk(st', w, k) {
      assert JobOk(st, w, k) && WakeOk(st, w, k);
    }
    forall r | 0 <= r < |st'.resolvers| ensures ResolverOk(st', r) { assert ResolverOk(st, r); }
    forall q | q in st'.queue ensures Names(st', q, InQueue) { assert Names(st, q, InQueue); }
    Conclude(st, st', w);
  }

  lemma WakeReadKeeps(st: State, a: Action)
    requires Inv(st) && (a.Wake? || a.Read?) && Enabled(st, a)
    ensures Inv(Apply(st, a))
  {
    var w := a.w;
    var st' := Apply(st, a);
    forall x | 0 <= x < WORKERS ensures Sized(st'.workers[x]) { assert Sized(st.workers[x]); }
    MoveKeeps(st, st', w, st'.workers[w].pipe, st'.workers[w].pc);
  }

  /** A scan step that finds nothing, or the end of the table. */
  lemma PassKeeps(st: State, w: nat, literal: bool)
    requires Inv(st) && Enabled(st, Scan(w, literal))
    requires st.workers[w].pc.i < JOBS ==> !Done(st.workers[w].jobs[st.workers[w].pc.i].state)
    ensures Inv(DoScan(st, w, literal))
  {
    var st' := DoScan(st, w, literal);
    assert WorkerOk(st, w) && Sized(st.workers[w]);
    forall x | 0 <= x < WORKERS ensures Sized(st'.workers[x]) { assert Sized(st.workers[x]); }
    assert forall r :: 0 <= r < |st.resolvers| ==> st'.resolvers[r] == st.resolvers[r];
    MoveKeeps(st, st', w, st'.workers[w].pipe, st'.workers[w].pc);
  }

  /** Only the host of the freed job loses its job. */
  lemma OtherHostsStay(jobs: seq<Job>, j: nat, job: Job)
    requires j < |jobs|
    ensures forall h :: h != jobs[j].host && HasJob(jobs, h) ==> HasJob(jobs[j := job], h)
  {
    forall h | h != jobs[j].host && HasJob(jobs, h) ensures HasJob(jobs[j := job], h) {
      var k :| 0 <= k < |jobs| && jobs[k].state != Free && jobs[k].host == h;
      assert jobs[j := job][k] == jobs[k];
    }
  }

  /** The frames that remain held after host's slots are emptied. */
  lemma SettledPends(st: State, st': State, w: nat, literal: bool)
    requires Inv(st) && Enabled(st, Scan(w, literal)) && st' == DoScan(st, w, literal)
    requires st.workers[w].pc.i < JOBS && Done(st.workers[w].jobs[st.workers[w].pc.i].state)
    ensures Elsewhere(st, st', w)
    ensures forall sid, i :: sid in st'.workers[w].sessions && 0 <= i < PEND_SLOTS ==> PendOk(st', w, sid, i)
  {
    var wk := st.workers[w];
    var job := wk.jobs[wk.pc.i];
    assert WorkerOk(st, w) && Sized(wk);
    forall x | 0 <= x < WORKERS ensures Sized(st'.workers[x]) { assert Sized(st.workers[x]); }
    OtherHostsStay(wk.jobs, wk.pc.i, job.(state := Free));
    forall sid, i | sid in st'.workers[w].sessions && 0 <= i < PEND_SLOTS ensures PendOk(st', w, sid, i) {
      assert PendOk(st, w, sid, i);
      assert st'.workers[w].sessions[sid].pend == Clear(wk.sessions[sid].pend, job.host);
    }
  }

  lemma SettledFates(st: State, st': State, w: nat, literal: bool)
    requires Inv(st) && Enabled(st, Scan(w, literal)) && st' == DoScan(st, w, literal)
    requires st.workers[w].pc.i < JOBS && Done(st.workers[w].jobs[st.workers[w].pc.i].state) && Shape(st')
    ensures FateOk(st')
  {
    assert FateOk(st) && Sized(st.workers[w]);
    forall id | id in st'.fate ensures id < st'.nextId && (st'.fate[id].Waits? ==> InPlace(st', id, st'.fate[id])) {
      assert st.fate[id].Waits? ==> InPlace(st, id, st.fate[id]);
      var f := st.fate[id];
      if f.Waits? && f.w == w {
        assert st'.workers[w].sessions[f.sid].pend == Clear(st.workers[w].sessions[f.sid].pend, st.workers[w].jobs[st.workers[w].pc.i].host);
      }
    }
  }

  lemma ScanKeeps(st: State, w: nat, literal: bool)
    requires Inv(st) && Enabled(st, Scan(w, literal))
    requires st.workers[w].pc.i < JOBS && Done(st.workers[w].jobs[st.workers[w].pc.i].state)
    ensures Inv(DoScan(st, w, literal))
  {
    var st' := DoScan(st, w, literal);
    var i := st.workers[w].pc.i;
    assert WorkerOk(st, w) && QueueOk(st) && JobOk(st, w, i);
    SettledPends(st, st', w, literal);
    SettledFates(st, st', w, literal);
    forall k | 0 <= k < JOBS ensures JobOk(st', w, k) && WakeOk(st', w, k) {
      assert JobOk(st, w, k) && WakeOk(st, w, k);
    }
    forall r | 0 <= r < |st'.resolvers| ensures ResolverOk(st', r) { assert ResolverOk(st, r); }
    forall q | q in st'.queue ensures Names(st', q, InQueue) { assert Names(st, q, InQueue); }
    Conclude(st, st', w);
  }

  // ----- sessions -----

  /** Opening a session, or marking one closed: no frame moves. */
  lemma SessionKeeps(st: State, a: Action, s: Session)
    requires Inv(st) && (a.Open? || a.MarkClosed?) && Enabled(st, a) && Apply(st, a) == PutSession(st, a.w, a.sid, s)
    requires a.Open? ==> s == NewSession()
    requires a.MarkClosed? ==> s.pend == st.workers[a.w].sessions[a.sid].pend
    ensures Inv(Apply(st, a))
  {
    var w, sid, st' := a.w, a.sid, Apply(st, a);
    assert WorkerOk(st, w) && QueueOk(st) && FateOk(st) && Sized(st.workers[w]);
    forall x | 0 <= x < WORKERS ensures Sized(st'.workers[x]) { assert Sized(st.workers[x]); }
    forall k | 0 <= k < JOBS ensures JobOk(st', w, k) && WakeOk(st', w, k) {
      assert JobOk(st, w, k) && WakeOk(st, w, k);
    }
    forall x, i | x in st'.workers[w].sessions && 0 <= i < PEND_SLOTS ensures PendOk(st', w, x, i) {
      if x in st.workers[w].sessions { assert PendOk(st, w, x, i); }
    }
    forall id | id in st'.fate ensures id < st'.nextId && (st'.fate[id].Waits? ==> InPlace(st', id, st'.fate[id])) {
      assert st.fate[id].Waits? ==> InPlace(st, id, st.fate[id]);
    }
    forall r | 0 <= r < |st'.resolvers| ensures ResolverOk(st', r) { assert ResolverOk(st, r); }
    forall q | q in st'.queue ensures Names(st', q, InQueue) { assert Names(st, q, InQueue); }
    Conclude(st, st', w);
  }

  lemma CloseKeeps(st: State, w: nat, sid: nat)
    requires Inv(st) && Enabled(st, CloseSession(w, sid))
    ensures Inv(Apply(st, CloseSession(w, sid)))
  {
    var st' := Apply(st, CloseSession(w, sid));
    assert WorkerOk(st, w) && QueueOk(st) && FateOk(st) && Sized(st.workers[w]);
    forall x | 0 <= x < WORKERS ensures Sized(st'.workers[x]) { assert Sized(st.workers[x]); }
    forall k | 0 <= k < JOBS ensures JobOk(st', w, k) && WakeOk(st', w, k) {
      assert JobOk(st, w, k) && WakeOk(st, w, k);
    }
    forall x, i | x in st'.workers[w].sessions && 0 <= i < PEND_SLOTS ensures PendOk(st', w, x, i) {
      assert PendOk(st, w, x, i);
    }
    forall id | id in st'.fate ensures id < st'.nextId && (st'.fate[id].Waits? ==> InPlace(st', id, st'.fate[id])) {
      assert st.fate[id].Waits? ==> InPlace(st, id, st.fate[id]);
    }
    forall r | 0 <= r < |st'.resolvers| ensures ResolverOk(st', r) { assert ResolverOk(st, r); }
    forall q | q in st'.queue ensures Names(st', q, InQueue) { assert Names(st, q, InQueue); }
    Conclude(st, st', w);
  }

  // ----- resolvers -----

  lemma TakeKeeps(st: State, r: nat)
    requires Inv(st) && Enabled(st, Take(r))
    ensures Inv(DoTake(st, r))
  {
    var st' := DoTake(st, r);
    var q := st.queue[0];
    var w := q.w;
    assert QueueOk(st) && Names(st, q, InQueue) && WorkerOk(st, w) && JobOk(st, w, q.j);
    forall x | 0 <= x < WORKERS ensures Sized(st'.workers[x]) { assert Sized(st.workers[x]); }
    assert forall x :: x in st.queue <==> x == q || x in st'.queue;
    HostsStay(st.workers[w].jobs, q.j, st'.workers[w].jobs[q.j]);
    PendsStay(st, st', w);
    FramesStay(st, st', w);
    TakenJobs(st, st', r);
    forall x | 0 <= x < |st'.resolvers| && About(st'.resolvers[x], w) ensures ResolverOk(st', x) {
      assert ResolverOk(st, x);
    }
    forall x | x in st'.queue ensures Names(st', x, InQueue) { assert Names(st, x, InQueue) && x != q; }
    Conclude(st, st', w);
  }

  lemma TakenJobs(st: State, st': State, r: nat)
    requires Inv(st) && Enabled(st, Take(r)) && st' == DoTake(st, r) && Shape(st') && st.queue[0].w < WORKERS
    requires forall x :: x in st.queue <==> x == st.queue[0] || x in st'.queue
    requires Names(st, st.queue[0], InQueue)
    ensures forall k :: 0 <= k < JOBS ==> JobOk(st', st.queue[0].w, k)
    ensures forall k :: 0 <= k < JOBS ==> WakeOk(st', st.queue[0].w, k)
  {
    var w := st.queue[0].w;
    assert WorkerOk(st, w) && JobOk(st, w, st.queue[0].j);
    forall k | 0 <= k < JOBS ensures JobOk(st', w, k) && WakeOk(st', w, k) {
      assert JobOk(st, w, k) && WakeOk(st, w, k);
      if AboutToWake(st, w) {
        var x :| 0 <= x < |st.resolvers| && st.resolvers[x] == Waking(w);
        assert st'.resolvers[x] == Waking(w);
      }
    }
  }

  lemma StoreKeeps(st: State, r: nat, ok: bool, ip: string)
    requires Inv(st) && Enabled(st, Store(r, ok, ip))
    ensures Inv(DoStore(st, r, ok, ip))
  {
    var st' := DoStore(st, r, ok, ip);
    var q := st.resolvers[r].req;
    var w := q.w;
    assert ResolverOk(st, r) && Names(st, q, AtResolver(r)) && QueueOk(st) && WorkerOk(st, w) && JobOk(st, w, q.j);
    forall x | 0 <= x < WORKERS ensures Sized(st'.workers[x]) { assert Sized(st.workers[x]); }
    HostsStay(st.workers[w].jobs, q.j, st'.workers[w].jobs[q.j]);
    PendsStay(st, st', w);
    FramesStay(st, st', w);
    StoredJobs(st, st', r, ok, ip);
    forall x | 0 <= x < |st'.resolvers| && About(st'.resolvers[x], w) ensures ResolverOk(st', x) {
      assert ResolverOk(st, x);
    }
    forall x | x in st'.queue ensures Names(st', x, InQueue) { assert Names(st, x, InQueue); }
    Conclude(st, st', w);
  }

  lemma StoredJobs(st: State, st': State, r: nat, ok: bool, ip: string)
    requires Inv(st) && Enabled(st, Store(r, ok, ip)) && st' == DoStore(st, r, ok, ip) && Shape(st')
    requires Names(st, st.resolvers[r].req, AtResolver(r))
    ensures forall k :: 0 <= k < JOBS ==> JobOk(st', st.resolvers[r].req.w, k)
    ensures forall k :: 0 <= k < JOBS ==> WakeOk(st', st.resolvers[r].req.w, k)
  {
    var w := st.resolvers[r].req.w;
    assert WorkerOk(st, w) && JobOk(st, w, st.resolvers[r].req.j);
    assert st'.resolvers[r] == Waking(w);
    forall k | 0 <= k < JOBS ensures JobOk(st', w, k) && WakeOk(st', w, k) {
      assert JobOk(st, w, k);
    }
  }

  lemma WriteKeeps(st: State, r: nat)
    requires Inv(st) && Enabled(st, Write(r))
    ensures Inv(DoWrite(st, r))
  {
    var st' := DoWrite(st, r);
    var w := st.resolvers[r].w;
    assert ResolverOk(st, r) && QueueOk(st) && WorkerOk(st, w);
    forall x | 0 <= x < WORKERS ensures Sized(st'.workers[x]) { assert Sized(st.workers[x]); }
    PendsStay(st, st', w);
    FramesStay(st, st', w);
    assert st'.workers[w].pipe > 0;
    forall k | 0 <= k < JOBS ensures JobOk(st', w, k) && WakeOk(st', w, k) {
      assert JobOk(st, w, k);
    }
    forall x | 0 <= x < |st'.resolvers| && About(st'.resolvers[x], w) ensures ResolverOk(st', x) {
      assert ResolverOk(st, x);
    }
    forall x | x in st'.queue ensures Names(st', x, InQueue) { assert Names(st, x, InQueue); }
    Conclude(st, st', w);
  }

  /** Every step of every thread keeps the invariant. */
  lemma StepKeeps(st: State, a: Action)
    requires Inv(st) && Enabled(st, a)
    ensures Inv(Apply(st, a))
  {
    match a
    case Arrive(w, sid, host, frame) => ArriveKeeps(st, w, sid, host, frame);
    case Post(w) => PostKeeps(st, w);
    case Wake(_) => WakeReadKeeps(st, a);
    case Read(_) => WakeReadKeeps(st, a);
    case Scan(w, literal) =>
      assert WorkerOk(st, w) && Sized(st.workers[w]);
      if st.workers[w].pc.i < JOBS && Done(st.workers[w].jobs[st.workers[w].pc.i].state) {
        ScanKeeps(st, w, literal);
      } else {
        PassKeeps(st, w, literal);
      }
    case Open(w, sid) => SessionKeeps(st, a, NewSession());
    case MarkClosed(w, sid) => SessionKeeps(st, a, st.workers[w].sessions[sid].(usable := false));
    case CloseSession(w, sid) => CloseKeeps(st, w, sid);
    case Take(r) => TakeKeeps(st, r);
    case Store(r, ok, ip) => StoreKeeps(st, r, ok, ip);
    case Write(r) => WriteKeeps(st, r);
  }
}
