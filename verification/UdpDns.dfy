/**
  Name resolution for UDP frames that carry a host name (simple-socks5.c and udp_dns.c).

  A worker that misses the address cache claims a slot of its job table, posts a request to the
  shared queue and holds the frame in its session. Resolver threads take requests, write the
  result into the job and then a byte into the worker's pipe. The worker, woken, first empties
  the pipe and then scans its jobs, sending or dropping the held frames of each finished one.
  Each step below is one shared access or one critical section; any thread may go next.

  The fields `holder` (who has a job's request), `fate` and `nextId` (what became of each held
  frame) record history. No guard and no other field depends on them.
 */
module UdpDns {
  const WORKERS: nat := 4
  const JOBS: nat := 32
  const QUEUE_MAX: nat := 128
  const PEND_SLOTS: nat := 2
  const PEND_FRAME_MAX: nat := 1280
  const READ_CHUNK: nat := 64

  type Host = string

  datatype JobState = Free | Inflight | DoneOk | DoneFail
  datatype Holder = Nobody | AtWorker | InQueue | AtResolver(r: nat)
  datatype Job = Job(state: JobState, host: Host, port: nat, ip: string, holder: Holder)

  datatype Frame = Frame(port: nat, payload: seq<nat>)
  datatype Pend = Unused | Used(host: Host, frame: Frame, id: nat)
  datatype Session = Session(pend: seq<Pend>, usable: bool)

  /** A request names a worker's job; Key numbers all jobs of all workers. */
  datatype Request = Request(w: nat, j: nat, host: Host)
  function Key(w: nat, j: nat): nat { w * JOBS + j }

  datatype Point =
    | Loop
    | Posting(j: nat, sid: nat, frame: Frame)  // job marked INFLIGHT, request not yet queued
    | Clearing                                  // emptying the wake pipe
    | Scanning(i: nat)                          // jobs before i have been looked at

  datatype Resolver = Waiting | Resolving(req: Request) | Waking(w: nat)

  datatype Worker = Worker(jobs: seq<Job>, sessions: map<nat, Session>, pipe: nat, pc: Point)

  /** Where a held frame is, or how it ended. */
  datatype Fate =
    | Waits(w: nat, sid: nat, slot: nat)
    | Replayed(ip: string, port: nat)
    | Lost                              // resolved, but its session can no longer send
    | Dropped                           // resolution failed
    | Gone                              // its session was closed first

  datatype State = State(workers: seq<Worker>, queue: seq<Request>, resolvers: seq<Resolver>, pipeMax: nat,
                         qfull: nat, fate: map<nat, Fate>, nextId: nat)

  // ----- udp_dns.c -----

  /** First job from i on that is not free and has this host. */
  function FindJob(jobs: seq<Job>, host: Host, i: nat): int
    decreases |jobs| - i
  {
    if host == [] || i >= |jobs| then -1
    else if jobs[i].state != Free && jobs[i].host == host then i
    else FindJob(jobs, host, i + 1)
  }

  function AllocJob(jobs: seq<Job>, i: nat): int
    decreases |jobs| - i
  {
    if i >= |jobs| then -1 else if jobs[i].state == Free then i else AllocJob(jobs, i + 1)
  }

  function FreePend(pend: seq<Pend>, i: nat): int
    decreases |pend| - i
  {
    if i >= |pend| then -1 else if pend[i] == Unused then i else FreePend(pend, i + 1)
  }

  predicate HoldOk(n: nat) { 0 < n <= PEND_FRAME_MAX }

  // ----- worker side -----

  function SetWorker(st: State, w: nat, wk: Worker): State
    requires w < |st.workers|
  {
    st.(workers := st.workers[w := wk])
  }

  function SetJob(wk: Worker, j: nat, job: Job): Worker
    requires j < |wk.jobs|
  {
    wk.(jobs := wk.jobs[j := job])
  }

  function NewSession(): Session { Session(seq(PEND_SLOTS, _ => Unused), true) }

  function PutSession(st: State, w: nat, sid: nat, s: Session): State
    requires w < |st.workers|
  {
    SetWorker(st, w, st.workers[w].(sessions := st.workers[w].sessions[sid := s]))
  }

  /** The pending slot a frame would be kept in: none if it is not worth keeping or all are taken. */
  function HoldSlot(wk: Worker, sid: nat, frame: Frame): int {
    if sid !in wk.sessions || !HoldOk(|frame.payload|) then -1 else FreePend(wk.sessions[sid].pend, 0)
  }

  /** Keep the frame in its session, or drop it. */
  function Hold(st: State, w: nat, sid: nat, host: Host, frame: Frame): State
    requires w < |st.workers|
  {
    var wk := st.workers[w];
    var p := HoldSlot(wk, sid, frame);
    if p < 0 || p >= |wk.sessions[sid].pend| then st
    else
      var pend := wk.sessions[sid].pend[p := Used(host, frame, st.nextId)];
      SetWorker(st, w, wk.(sessions := wk.sessions[sid := wk.sessions[sid].(pend := pend)]))
        .(fate := st.fate[st.nextId := Waits(w, sid, p)], nextId := st.nextId + 1)
  }

  /** udp_dns_defer up to marking the job; with a job for the host already there, all of it. */
  function Defer(st: State, w: nat, sid: nat, host: Host, frame: Frame): State
    requires w < |st.workers|
  {
    var wk := st.workers[w];
    if FindJob(wk.jobs, host, 0) >= 0 then Hold(st, w, sid, host, frame)
    else
      var j := AllocJob(wk.jobs, 0);
      if j < 0 || j >= |wk.jobs| then st
      else SetWorker(st, w, SetJob(wk, j, Job(Inflight, host, frame.port, [], AtWorker)).(pc := Posting(j, sid, frame)))
  }

  function Clear(pend: seq<Pend>, host: Host): seq<Pend> {
    seq(|pend|, i requires 0 <= i < |pend| => if pend[i].Used? && pend[i].host == host then Unused else pend[i])
  }

  /** Flushing or dropping empties every pending slot of that host on the worker's list. */
  function ClearAll(sessions: map<nat, Session>, host: Host): map<nat, Session> {
    map sid | sid in sessions :: sessions[sid].(pend := Clear(sessions[sid].pend, host))
  }

  /** The frame is in a pending slot of worker w, for this host. */
  predicate HeldFor(f: Fate, w: nat, sessions: map<nat, Session>, host: Host) {
    f.Waits? && f.w == w && f.sid in sessions && f.slot < |sessions[f.sid].pend| &&
    sessions[f.sid].pend[f.slot].Used? && sessions[f.sid].pend[f.slot].host == host
  }

  /** udp_dns_flush_pending sends to the job's address and port; udp_dns_drop_pending forgets. */
  function Ending(job: Job, literal: bool, usable: bool): Fate {
    if job.state == DoneOk && literal then (if usable then Replayed(job.ip, job.port) else Lost) else Dropped
  }

  function Settle(fate: map<nat, Fate>, w: nat, sessions: map<nat, Session>, job: Job, literal: bool): map<nat, Fate> {
    map id | id in fate :: if HeldFor(fate[id], w, sessions, job.host)
                           then Ending(job, literal, sessions[fate[id].sid].usable) else fate[id]
  }

  function Forget(fate: map<nat, Fate>, w: nat, sid: nat): map<nat, Fate> {
    map id | id in fate :: if fate[id].Waits? && fate[id].w == w && fate[id].sid == sid then Gone else fate[id]
  }

  // ----- actions -----

  datatype Action =
    | Arrive(w: nat, sid: nat, host: Host, frame: Frame)
    | Post(w: nat)
    | Wake(w: nat) | Read(w: nat) | Scan(w: nat, literal: bool)
    | Open(w: nat, sid: nat) | MarkClosed(w: nat, sid: nat) | CloseSession(w: nat, sid: nat)
    | Take(r: nat) | Store(r: nat, ok: bool, ip: string) | Write(r: nat)

  ghost predicate ReqAt(st: State, q: Request) { q.w < |st.workers| && q.j < |st.workers[q.w].jobs| }

  ghost predicate WorkerPosting(st: State, w: nat) {
    w < |st.workers| && st.workers[w].pc.Posting? && st.workers[w].pc.j < |st.workers[w].jobs|
  }

  ghost predicate Enabled(st: State, a: Action) {
    match a
    case Arrive(w, sid, _, _) => w < |st.workers| && st.workers[w].pc == Loop && sid in st.workers[w].sessions && st.workers[w].sessions[sid].usable
    case Post(w) => WorkerPosting(st, w)
    case Wake(w) => w < |st.workers| && st.workers[w].pc == Loop && st.workers[w].pipe > 0
    case Read(w) => w < |st.workers| && st.workers[w].pc == Clearing
    case Scan(w, _) => w < |st.workers| && st.workers[w].pc.Scanning?
    case Open(w, sid) => w < |st.workers| && sid !in st.workers[w].sessions
    case MarkClosed(w, sid) => w < |st.workers| && st.workers[w].pc == Loop && sid in st.workers[w].sessions
    case CloseSession(w, sid) => w < |st.workers| && st.workers[w].pc == Loop
    case Take(r) => r < |st.resolvers| && st.resolvers[r] == Waiting && st.queue != [] && ReqAt(st, st.queue[0])
    case Store(r, _, _) => r < |st.resolvers| && st.resolvers[r].Resolving? && ReqAt(st, st.resolvers[r].req)
    case Write(r) => r < |st.resolvers| && st.resolvers[r].Waking? && st.resolvers[r].w < |st.workers|
  }

  ghost function Apply(st: State, a: Action): State
    requires Enabled(st, a)
  {
    match a
    case Arrive(w, sid, host, frame) => Defer(st, w, sid, host, frame)
    case Post(w) => DoPost(st, w)
    case Wake(w) => SetWorker(st, w, st.workers[w].(pc := Clearing))
    case Read(w) => SetWorker(st, w, DoRead(st.workers[w]))
    case Scan(w, literal) => DoScan(st, w, literal)
    case Open(w, sid) => PutSession(st, w, sid, NewSession())
    case MarkClosed(w, sid) => PutSession(st, w, sid, st.workers[w].sessions[sid].(usable := false))
    case CloseSession(w, sid) =>
      SetWorker(st, w, st.workers[w].(sessions := st.workers[w].sessions - {sid})).(fate := Forget(st.fate, w, sid))
    case Take(r) => DoTake(st, r)
    case Store(r, ok, ip) => DoStore(st, r, ok, ip)
    case Write(r) => DoWrite(st, r)
  }

  /** udp_dns_enqueue and the rest of udp_dns_defer. */
  function DoPost(st: State, w: nat): State
    requires w < |st.workers| && st.workers[w].pc.Posting? && st.workers[w].pc.j < |st.workers[w].jobs|
  {
    var wk := st.workers[w];
    var j := wk.pc.j;
    var job := wk.jobs[j];
    if |st.queue| < QUEUE_MAX then
      Hold(SetWorker(st, w, SetJob(wk, j, job.(holder := InQueue)).(pc := Loop)), w, wk.pc.sid, job.host, wk.pc.frame)
        .(queue := st.queue + [Request(w, j, job.host)])
    else
      SetWorker(st, w, SetJob(wk, j, job.(state := Free, holder := Nobody)).(pc := Loop)).(qfull := st.qfull + 1)
  }

  function DoRead(wk: Worker): Worker {
    if wk.pipe > READ_CHUNK then wk.(pipe := wk.pipe - READ_CHUNK)
    else if wk.pipe > 0 then wk.(pipe := 0)
    else wk.(pc := Scanning(0))
  }

  /** One iteration of the scan in udp_dns_drain; `literal` says whether the answer is an address. */
  function DoScan(st: State, w: nat, literal: bool): State
    requires w < |st.workers| && st.workers[w].pc.Scanning?
  {
    var wk := st.workers[w];
    var i := wk.pc.i;
    if i >= |wk.jobs| then SetWorker(st, w, wk.(pc := Loop))
    else if wk.jobs[i].state == DoneOk || wk.jobs[i].state == DoneFail then
      var job := wk.jobs[i];
      SetWorker(st, w, SetJob(wk, i, job.(state := Free)).(sessions := ClearAll(wk.sessions, job.host), pc := Scanning(i + 1)))
        .(fate := Settle(st.fate, w, wk.sessions, job, literal))
    else SetWorker(st, w, wk.(pc := Scanning(i + 1)))
  }

  // ----- resolver side -----

  function DoTake(st: State, r: nat): State
    requires r < |st.resolvers| && st.queue != [] && st.queue[0].w < |st.workers|
    requires st.queue[0].j < |st.workers[st.queue[0].w].jobs|
  {
    var q := st.queue[0];
    var wk := st.workers[q.w];
    SetWorker(st, q.w, SetJob(wk, q.j, wk.jobs[q.j].(holder := AtResolver(r))))
      .(queue := st.queue[1..], resolvers := st.resolvers[r := Resolving(q)])
  }

  function DoStore(st: State, r: nat, ok: bool, ip: string): State
    requires r < |st.resolvers| && st.resolvers[r].Resolving? && st.resolvers[r].req.w < |st.workers|
    requires st.resolvers[r].req.j < |st.workers[st.resolvers[r].req.w].jobs|
  {
    var q := st.resolvers[r].req;
    var wk := st.workers[q.w];
    var job := wk.jobs[q.j];
    SetWorker(st, q.w, SetJob(wk, q.j, if ok then job.(state := DoneOk, ip := ip, holder := Nobody)
                                       else job.(state := DoneFail, holder := Nobody)))
      .(resolvers := st.resolvers[r := Waking(q.w)])
  }

  /** A full pipe already holds a wake byte; the write is then skipped. */
  function DoWrite(st: State, r: nat): State
    requires r < |st.resolvers| && st.resolvers[r].Waking? && st.resolvers[r].w < |st.workers|
  {
    var w := st.resolvers[r].w;
    var wk := st.workers[w];
    SetWorker(st, w, wk.(pipe := if wk.pipe < st.pipeMax then wk.pipe + 1 else wk.pipe))
      .(resolvers := st.resolvers[r := Waiting])
  }
}
