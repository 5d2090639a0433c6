/** What becomes of a frame that waits for a name, traced through a whole run to the resolver's answer. */
module UdpDnsEnds {
  import opened UdpDns
  import opened UdpDnsSafety
  import opened UdpDnsRuns

  // ----- one job through one step -----

  /** Job j of worker w after a step: as before, given its answer by a resolver, or made by a frame that found it free. */
  ghost predicate Follows(st: State, a: Action, w: nat, j: nat, job': Job)
    requires Shape(st) && w < WORKERS && j < JOBS && Sized(st.workers[w])
  {
    var job := st.workers[w].jobs[j];
    && (Done(job'.state) ==> job' == job || Answered(st, a, w, j, job'))
    && (job'.state != Free ==> (job.state != Free && job'.host == job.host && job'.port == job.port) ||
                               (a.Arrive? && a.w == w && a.host == job'.host && a.frame.port == job'.port))
  }

  /** The resolver that had the job's request reports: DONE_OK exactly on success, with its address; host and port stay. */
  ghost predicate Answered(st: State, a: Action, w: nat, j: nat, job': Job)
    requires Shape(st) && w < WORKERS && j < JOBS && Sized(st.workers[w])
  {
    var job := st.workers[w].jobs[j];
    && a.Store? && a.r < |st.resolvers| && st.resolvers[a.r] == Resolving(Request(w, j, job.host)) && job.state == Inflight
    && job'.host == job.host && job'.port == job.port && (job'.state == DoneOk <==> a.ok) && (job'.state == DoneFail <==> !a.ok)
    && (a.ok ==> job'.ip == a.ip)
  }

  lemma StoreFollows(st: State, r: nat, ok: bool, ip: string, w: nat, j: nat)
    requires Inv(st) && Enabled(st, Store(r, ok, ip)) && w < WORKERS && j < JOBS && Sized(st.workers[w])
    ensures Sized(DoStore(st, r, ok, ip).workers[w]) && Follows(st, Store(r, ok, ip), w, j, DoStore(st, r, ok, ip).workers[w].jobs[j])
    ensures w == st.resolvers[r].req.w && j == st.resolvers[r].req.j ==>
              Answered(st, Store(r, ok, ip), w, j, DoStore(st, r, ok, ip).workers[w].jobs[j])
  {
    var q := st.resolvers[r].req;
    assert ResolverOk(st, r) && Names(st, q, AtResolver(r));
    assert WorkerOk(st, q.w) && JobOk(st, q.w, q.j);
  }

  lemma ArriveFollows(st: State, v: nat, sid: nat, host: Host, frame: Frame, w: nat, j: nat)
    requires Inv(st) && Enabled(st, Arrive(v, sid, host, frame)) && w < WORKERS && j < JOBS && Sized(st.workers[w])
    ensures var st' := Defer(st, v, sid, host, frame);
            |st'.workers| == WORKERS && |st'.workers[w].jobs| == JOBS && Follows(st, Arrive(v, sid, host, frame), w, j, st'.workers[w].jobs[j])
  {
    AllocJobSpec(st.workers[v].jobs, 0);
  }

  lemma PostFollows(st: State, v: nat, w: nat, j: nat)
    requires Inv(st) && Enabled(st, Post(v)) && w < WORKERS && j < JOBS && Sized(st.workers[w])
    ensures var st' := DoPost(st, v); |st'.workers| == WORKERS && |st'.workers[w].jobs| == JOBS && Follows(st, Post(v), w, j, st'.workers[w].jobs[j])
  {
    assert WorkerOk(st, v) && JobOk(st, v, st.workers[v].pc.j);
  }

  lemma TakeFollows(st: State, r: nat, w: nat, j: nat)
    requires Inv(st) && Enabled(st, Take(r)) && w < WORKERS && j < JOBS && Sized(st.workers[w])
    ensures var st' := DoTake(st, r); |st'.workers| == WORKERS && |st'.workers[w].jobs| == JOBS && Follows(st, Take(r), w, j, st'.workers[w].jobs[j])
  {
    var q := st.queue[0];
    assert QueueOk(st) && Names(st, q, InQueue) && WorkerOk(st, q.w) && JobOk(st, q.w, q.j);
  }

  lemma JobFollows(st: State, a: Action, w: nat, j: nat)
    requires Inv(st) && Enabled(st, a) && w < WORKERS && j < JOBS && Sized(st.workers[w])
    ensures var st' := Apply(st, a); |st'.workers| == WORKERS && |st'.workers[w].jobs| == JOBS && Follows(st, a, w, j, st'.workers[w].jobs[j])
  {
    match a
    case Arrive(v, sid, host, frame) => ArriveFollows(st, v, sid, host, frame, w, j);
    case Post(v) => PostFollows(st, v, w, j);
    case Take(r) => TakeFollows(st, r, w, j);
    case Store(r, ok, ip) => StoreFollows(st, r, ok, ip, w, j);
    case Write(r) => assert ResolverOk(st, r);
    case Scan(v, literal) =>
    case _ =>
  }

  // ----- jobs through a run -----

  lemma FollowsAt(states: seq<State>, acts: seq<Action>, k: nat, w: nat, j: nat)
    requires Run(states, acts) && k < |acts| && w < WORKERS && j < JOBS
    ensures Shape(states[k]) && Shape(states[k + 1]) && Sized(states[k].workers[w]) && Sized(states[k + 1].workers[w])
    ensures Follows(states[k], acts[k], w, j, states[k + 1].workers[w].jobs[j])
  {
    RunInv(states, acts, k);
    RunInv(states, acts, k + 1);
    assert StepAt(states[k], acts[k], states[k + 1]);
    assert Sized(states[k].workers[w]) && Sized(states[k + 1].workers[w]);
    JobFollows(states[k], acts[k], w, j);
  }

  lemma BootJobs(states: seq<State>, acts: seq<Action>, w: nat, j: nat)
    requires Run(states, acts) && w < WORKERS && j < JOBS
    ensures Shape(states[0]) && Sized(states[0].workers[w]) && states[0].workers[w].jobs[j].state == Free
  {
    RunInv(states, acts, 0);
    assert states[0].workers[w] == BootWorker();
  }

  /** A finished job was given its answer by a Store at some step q, for the request made for it. */
  lemma {:induction false} StoredAt(states: seq<State>, acts: seq<Action>, k: nat, w: nat, j: nat) returns (q: nat)
    requires Run(states, acts) && k < |states| && w < WORKERS && j < JOBS && Shape(states[k]) && Sized(states[k].workers[w])
    requires Done(states[k].workers[w].jobs[j].state)
    ensures q < k && Shape(states[q]) && Sized(states[q].workers[w]) && Answered(states[q], acts[q], w, j, states[k].workers[w].jobs[j])
  {
    q := 0;
    if k == 0 {
      BootJobs(states, acts, w, j);
    } else {
      FollowsAt(states, acts, k - 1, w, j);
      if Answered(states[k - 1], acts[k - 1], w, j, states[k].workers[w].jobs[j]) { q := k - 1; } else { q := StoredAt(states, acts, k - 1, w, j); }
    }
  }

  /** A live job was made by the arrival, at some step p, of a frame for its host with its port. */
  lemma {:induction false} StartedAt(states: seq<State>, acts: seq<Action>, k: nat, w: nat, j: nat) returns (p: nat)
    requires Run(states, acts) && k < |states| && w < WORKERS && j < JOBS && Shape(states[k]) && Sized(states[k].workers[w])
    requires states[k].workers[w].jobs[j].state != Free
    ensures p < k && acts[p].Arrive? && acts[p].w == w && acts[p].host == states[k].workers[w].jobs[j].host
    ensures acts[p].frame.port == states[k].workers[w].jobs[j].port
  {
    p := 0;
    if k == 0 {
      BootJobs(states, acts, w, j);
    } else {
      FollowsAt(states, acts, k - 1, w, j);
      var job, job' := states[k - 1].workers[w].jobs[j], states[k].workers[w].jobs[j];
      if job.state != Free && job'.host == job.host && job'.port == job.port {
        p := StartedAt(states, acts, k - 1, w, j);
      } else {
        p := k - 1;
      }
    }
  }

  // ----- how a held frame ends -----

  /** A waiting frame is ended only by its session's end, or by the scan that finds its host's job finished. */
  lemma EndedBy(st: State, a: Action, id: nat)
    requires Inv(st) && Enabled(st, a) && id in st.fate && st.fate[id].Waits?
    requires id in Apply(st, a).fate ==> Apply(st, a).fate[id] != st.fate[id]
    ensures var f := st.fate[id];
            || (a == CloseSession(f.w, f.sid) && id in Apply(st, a).fate && Apply(st, a).fate[id] == Gone)
            || (a.Scan? && a.w == f.w && EndsHere(st, a.w, f))
  {
    assert FateOk(st) && InPlace(st, id, st.fate[id]);
    match a
    case Arrive(w, sid, host, frame) => HoldFinal(st, w, sid, host, frame, id);
    case Post(w) =>
      var wk := st.workers[w];
      var job := wk.jobs[wk.pc.j];
      HoldFinal(SetWorker(st, w, SetJob(wk, wk.pc.j, job.(holder := InQueue)).(pc := Loop)), w, wk.pc.sid, job.host, wk.pc.frame, id);
    case _ =>
  }

  ghost predicate EndsHere(st: State, w: nat, f: Fate)
    requires Shape(st) && f.Waits?
  {
    w < WORKERS && f.w == w && Sized(st.workers[w]) && f.sid in st.workers[w].sessions && f.slot < PEND_SLOTS && st.workers[w].pc.Scanning? &&
    st.workers[w].sessions[f.sid].pend[f.slot].Used? && st.workers[w].pc.i < JOBS &&
    var job := st.workers[w].jobs[st.workers[w].pc.i];
    Done(job.state) && job.host == st.workers[w].sessions[f.sid].pend[f.slot].host
  }

  /**
    End to end: a frame that stops waiting at step k either lost its session, or was met by the scan
    of a job that a frame for the same host started at step p and a resolver answered at step q. It
    was sent exactly if that answer was a success, the address could be read and the session could
    still send: to that address, and to the port of the frame that started the job. It was dropped
    exactly if the resolution failed or the answer was no address.
   */
  lemma FrameEnds(states: seq<State>, acts: seq<Action>, k: nat, id: nat) returns (p: nat, q: nat)
    requires Run(states, acts) && k < |acts| && id in states[k].fate && states[k].fate[id].Waits?
    requires id in states[k + 1].fate ==> states[k + 1].fate[id] != states[k].fate[id]
    ensures id in states[k + 1].fate && Shape(states[k])
    ensures var f, f' := states[k].fate[id], states[k + 1].fate[id];
            || (acts[k] == CloseSession(f.w, f.sid) && f' == Gone)
            || (&& p < q < k && acts[k].Scan? && EndsHere(states[k], f.w, f)
                && var host := states[k].workers[f.w].sessions[f.sid].pend[f.slot].host;
                   var usable := states[k].workers[f.w].sessions[f.sid].usable;
                && acts[p].Arrive? && acts[p].w == f.w && acts[p].host == host
                && acts[q].Store? && acts[q].r < |states[q].resolvers|
                && states[q].resolvers[acts[q].r] == Resolving(Request(f.w, states[k].workers[f.w].pc.i, host))
                && f' == if acts[q].ok && acts[k].literal then (if usable then Replayed(acts[q].ip, acts[p].frame.port) else Lost) else Dropped)
  {
    p, q := 0, 0;
    RunInv(states, acts, k);
    assert StepAt(states[k], acts[k], states[k + 1]);
    EndedBy(states[k], acts[k], id);
    var f := states[k].fate[id];
    if acts[k].Scan? {
      var i := states[k].workers[f.w].pc.i;
      q := StoredAt(states, acts, k, f.w, i);
      p := StartedAt(states, acts, q, f.w, i);
      ScanEnding(states[k], acts[k].literal, id);
    }
  }

  lemma ScanEnding(st: State, literal: bool, id: nat)
    requires Inv(st) && id in st.fate && st.fate[id].Waits? && EndsHere(st, st.fate[id].w, st.fate[id])
    ensures var f := st.fate[id]; var job := st.workers[f.w].jobs[st.workers[f.w].pc.i];
            var fate' := DoScan(st, f.w, literal).fate;
            id in fate' && fate'[id] == if job.state == DoneOk && literal
                                        then (if st.workers[f.w].sessions[f.sid].usable then Replayed(job.ip, job.port) else Lost) else Dropped
  {
  }

  // ----- which frames wait -----

  /** The frame is in a pending slot of its session that was free, under a new number. */
  ghost predicate HeldNow(st: State, st': State, w: nat, sid: nat, host: Host, frame: Frame)
    requires Shape(st) && w < WORKERS
  {
    exists p :: 0 <= p < 2 && sid in st.workers[w].sessions && |st.workers[w].sessions[sid].pend| == 2 &&
      st.workers[w].sessions[sid].pend[p] == Unused && Parked(st, st', w, sid, p, Used(host, frame, st.nextId))
  }

  ghost predicate HasRoom(st: State, w: nat, sid: nat)
    requires Shape(st) && w < WORKERS
  {
    sid in st.workers[w].sessions && exists p :: 0 <= p < |st.workers[w].sessions[sid].pend| && st.workers[w].sessions[sid].pend[p] == Unused
  }

  /** A frame is held exactly if it has 1 to 1280 bytes and its session a free slot; otherwise nothing changes. */
  lemma HoldExactly(st: State, w: nat, sid: nat, host: Host, frame: Frame)
    requires Inv(st) && w < WORKERS && sid in st.workers[w].sessions && HasJob(st.workers[w].jobs, host)
    ensures var st' := Hold(st, w, sid, host, frame);
            if 1 <= |frame.payload| <= 1280 && HasRoom(st, w, sid) then HeldNow(st, st', w, sid, host, frame) else st' == st
  {
    assert Sized(st.workers[w]);
    FreePendSpec(st.workers[w].sessions[sid].pend, 0);
  }

  /** A frame whose host has a live job joins it. */
  lemma JoinsExactly(st: State, w: nat, sid: nat, host: Host, frame: Frame)
    requires Inv(st) && Enabled(st, Arrive(w, sid, host, frame)) && host != [] && HasJob(st.workers[w].jobs, host)
    ensures var st' := Apply(st, Arrive(w, sid, host, frame));
            if 1 <= |frame.payload| <= 1280 && HasRoom(st, w, sid) then HeldNow(st, st', w, sid, host, frame) else st' == st
  {
    FindJobSpec(st.workers[w].jobs, host, 0);
    HoldExactly(st, w, sid, host, frame);
  }

  /** One whose host has none starts a job if one is free: INFLIGHT, with its host and port, its request to be queued next. */
  lemma StartsExactly(st: State, w: nat, sid: nat, host: Host, frame: Frame)
    requires Inv(st) && Enabled(st, Arrive(w, sid, host, frame)) && !HasJob(st.workers[w].jobs, host)
    ensures var st' := Apply(st, Arrive(w, sid, host, frame));
            if forall j :: 0 <= j < |st.workers[w].jobs| ==> st.workers[w].jobs[j].state != Free then st' == st
            else |st'.workers| == WORKERS && st'.workers[w].pc.Posting? && st'.workers[w].pc.sid == sid && st'.workers[w].pc.frame == frame &&
                 var j := st'.workers[w].pc.j;
                 j < |st.workers[w].jobs| == |st'.workers[w].jobs| && st.workers[w].jobs[j].state == Free && st'.workers[w].jobs[j].state == Inflight &&
                 st'.workers[w].jobs[j].host == host && st'.workers[w].jobs[j].port == frame.port
  {
    assert Sized(st.workers[w]);
    FindJobSpec(st.workers[w].jobs, host, 0);
    AllocJobSpec(st.workers[w].jobs, 0);
  }

  /** Its request goes to the end of the queue, and the frame waits as any other. */
  lemma PostsExactly(st: State, w: nat)
    requires Inv(st) && Enabled(st, Post(w))
    ensures var st' := Apply(st, Post(w)); var wk := st.workers[w]; var host := wk.jobs[wk.pc.j].host;
            && st'.queue == st.queue + [Request(w, wk.pc.j, host)]
            && (wk.pc.sid in wk.sessions ==>
                  (st'.nextId == st.nextId + 1 <==> 1 <= |wk.pc.frame.payload| <= 1280 && HasRoom(st, w, wk.pc.sid)))
  {
    QueueHasRoom(st, w);
    assert WorkerOk(st, w) && Sized(st.workers[w]);
    var wk := st.workers[w];
    if wk.pc.sid in wk.sessions { FreePendSpec(wk.sessions[wk.pc.sid].pend, 0); }
  }

  /** A resolver takes the oldest request, and no other changes place. */
  lemma TakesTheOldest(st: State, r: nat)
    requires Inv(st) && Enabled(st, Take(r))
    ensures var st' := Apply(st, Take(r));
            r < |st'.resolvers| && st'.resolvers[r].Resolving? && st.queue == [st'.resolvers[r].req] + st'.queue
  {
  }

  lemma HoldUsable(st: State, v: nat, other: nat, host: Host, frame: Frame, w: nat, sid: nat)
    requires v < |st.workers| && w < |st.workers| && sid in st.workers[w].sessions
    ensures var st' := Hold(st, v, other, host, frame);
            && |st'.workers| == |st.workers| && sid in st'.workers[w].sessions
            && st'.workers[w].sessions[sid].usable == st.workers[w].sessions[sid].usable
  {
  }

  lemma PostUsable(st: State, v: nat, w: nat, sid: nat)
    requires v < |st.workers| && st.workers[v].pc.Posting? && st.workers[v].pc.j < |st.workers[v].jobs|
    requires w < |st.workers| && sid in st.workers[w].sessions
    ensures var st' := DoPost(st, v);
            && |st'.workers| == |st.workers| && sid in st'.workers[w].sessions
            && st'.workers[w].sessions[sid].usable == st.workers[w].sessions[sid].usable
  {
    var wk := st.workers[v];
    var job := wk.jobs[wk.pc.j];
    HoldUsable(SetWorker(st, v, SetJob(wk, wk.pc.j, job.(holder := InQueue)).(pc := Loop)), v, wk.pc.sid, job.host, wk.pc.frame, w, sid);
  }

  /** A session marked closed can no longer send, and never can again while it is listed. */
  lemma ClosedStaysUnusable(st: State, a: Action, w: nat, sid: nat)
    requires Enabled(st, a) && w < |st.workers| && sid in st.workers[w].sessions
    ensures var st' := Apply(st, a);
            && |st'.workers| == |st.workers|
            && (a == MarkClosed(w, sid) ==> sid in st'.workers[w].sessions && !st'.workers[w].sessions[sid].usable)
            && (sid in st'.workers[w].sessions && !st.workers[w].sessions[sid].usable ==> !st'.workers[w].sessions[sid].usable)
  {
    match a
    case Arrive(v, other, host, frame) => HoldUsable(st, v, other, host, frame, w, sid);
    case Post(v) => PostUsable(st, v, w, sid);
    case _ =>
  }
}
