/** The request queue's 128 cells are all needed: a run that fills every one of them. */
module UdpDnsTight {
  import opened UdpDns
  import opened UdpDnsSafety
  import opened UdpDnsRuns

  /** Distinct nonempty names. */
  function Name(j: nat): Host { seq(j + 1, _ => 'a') }

  function Jobs(k: nat): seq<Job> {
    seq(JOBS, j requires 0 <= j < JOBS => if j < k then Job(Inflight, Name(j), 0, [], InQueue) else FreeJob())
  }

  /** How many of the first n keys are worker w's. */
  function Share(n: nat, w: nat): nat { if n <= w * JOBS then 0 else if n >= (w + 1) * JOBS then JOBS else n - w * JOBS }

  function Ready(k: nat): Worker { Worker(Jobs(k), map[0 := NewSession()], 0, Loop) }

  /** Any number of resolvers, none of which has been scheduled, and any pipe capacity. */
  datatype Setting = Setting(resolvers: nat, pipeMax: nat)

  /** The first n jobs of all workers are waiting in the queue. */
  function Filled(n: nat, c: Setting): State {
    State(seq(WORKERS, w requires 0 <= w < WORKERS => Ready(Share(n, w))),
          seq(n, k requires 0 <= k < n => Request(k / JOBS, k % JOBS, Name(k % JOBS))),
          seq(c.resolvers, _ => Waiting), c.pipeMax, 0, map[], 0)
  }

  lemma {:induction false} FirstFree(jobs: seq<Job>, i: nat, j: nat)
    requires i <= j < |jobs| && jobs[j].state == Free && forall k :: i <= k < j ==> jobs[k].state != Free
    ensures AllocJob(jobs, i) == j
    decreases j - i
  {
    if i < j { FirstFree(jobs, i + 1, j); }
  }

  /** The next name is new to the worker, and its next job is free. */
  lemma NextJob(k: nat)
    requires k < JOBS
    ensures FindJob(Jobs(k), Name(k), 0) < 0 && AllocJob(Jobs(k), 0) == k
  {
    FindJobSpec(Jobs(k), Name(k), 0);
    FirstFree(Jobs(k), 0, k);
  }

  function Midway(n: nat, w: nat, k: nat, c: Setting): State
    requires w < WORKERS && k < JOBS
  {
    SetWorker(Filled(n, c), w, SetJob(Ready(k), k, Job(Inflight, Name(k), 0, [], AtWorker)).(pc := Posting(k, 0, Frame(0, []))))
  }

  lemma Arrives(n: nat, w: nat, k: nat, c: Setting)
    requires n < QUEUE_MAX && w == n / JOBS && k == n % JOBS
    ensures w < WORKERS && k < JOBS && StepAt(Filled(n, c), Arrive(w, 0, Name(k), Frame(0, [])), Midway(n, w, k, c))
  {
    assert Share(n, w) == k;
    NextJob(k);
  }

  lemma Posts(n: nat, w: nat, k: nat, c: Setting)
    requires n < QUEUE_MAX && w == n / JOBS && k == n % JOBS && w < WORKERS && k < JOBS
    ensures StepAt(Midway(n, w, k, c), Post(w), Filled(n + 1, c))
  {
    var st := Midway(n, w, k, c);
    var st' := DoPost(st, w);
    assert SetJob(Ready(k), k, Job(Inflight, Name(k), 0, [], InQueue)).jobs == Jobs(k + 1);
    assert st'.workers[w] == Ready(k + 1);
    SharesAfter(n, w, k);
    assert st'.workers == Filled(n + 1, c).workers;
    assert st'.queue == Filled(n + 1, c).queue;
  }

  lemma SharesAfter(n: nat, w: nat, k: nat)
    requires n < QUEUE_MAX && w == n / JOBS && k == n % JOBS
    ensures forall x :: 0 <= x < WORKERS ==> Share(n + 1, x) == if x == w then k + 1 else Share(n, x)
  {
    forall x | 0 <= x < WORKERS ensures Share(n + 1, x) == if x == w then k + 1 else Share(n, x) {
      assert n == w * 32 + k && x * JOBS == x * 32 && (x + 1) * JOBS == x * 32 + 32;
    }
  }

  /** Sessions for all workers, then two steps for each job. */
  lemma {:induction false} FillTo(n: nat, c: Setting) returns (states: seq<State>, acts: seq<Action>)
    requires n <= QUEUE_MAX && c.pipeMax > 0
    ensures Run(states, acts) && states[|acts|] == Filled(n, c) && states[0] == Boot(c.resolvers, c.pipeMax)
  {
    if n == 0 {
      states, acts := OpenAll(c);
    } else {
      states, acts := FillTo(n - 1, c);
      var w, k := (n - 1) / JOBS, (n - 1) % JOBS;
      Arrives(n - 1, w, k, c);
      Posts(n - 1, w, k, c);
      states, acts := Extend(states, acts, Arrive(w, 0, Name(k), Frame(0, [])), Midway(n - 1, w, k, c));
      states, acts := Extend(states, acts, Post(w), Filled(n, c));
    }
  }

  lemma Extend(states: seq<State>, acts: seq<Action>, a: Action, st: State) returns (states': seq<State>, acts': seq<Action>)
    requires Run(states, acts) && StepAt(states[|acts|], a, st)
    ensures Run(states', acts') && states'[|acts'|] == st && states'[0] == states[0]
  {
    states', acts' := states + [st], acts + [a];
    forall i {:trigger acts'[i]} | 0 <= i < |acts'| ensures StepAt(states'[i], acts'[i], states'[i + 1]) {
      if i < |acts| { assert StepAt(states[i], acts[i], states[i + 1]); }
    }
  }

  function Opened(n: nat, c: Setting): State {
    Boot(c.resolvers, c.pipeMax).(workers := seq(WORKERS, w requires 0 <= w < WORKERS => if w < n then Ready(0) else BootWorker()))
  }

  lemma NoJobs()
    ensures Jobs(0) == BootWorker().jobs
  {
    var a, b := Jobs(0), BootWorker().jobs;
    forall j | 0 <= j < JOBS ensures a[j] == b[j] {
      assert a[j] == FreeJob();
      assert b[j] == FreeJob();
    }
    assert a == b;
  }

  lemma OpenOne(n: nat, c: Setting)
    requires n < WORKERS
    ensures StepAt(Opened(n, c), Open(n, 0), Opened(n + 1, c))
  {
    NoJobs();
    assert Opened(n, c).workers[n] == BootWorker();
    var st', want := Apply(Opened(n, c), Open(n, 0)), Opened(n + 1, c);
    assert st'.workers[n].sessions == Ready(0).sessions;
    assert st'.workers[n] == Ready(0);
    forall w | 0 <= w < WORKERS ensures st'.workers[w] == want.workers[w] {
      if w != n { assert st'.workers[w] == Opened(n, c).workers[w]; }
    }
    assert st'.workers == want.workers;
  }

  lemma OpenAll(c: Setting) returns (states: seq<State>, acts: seq<Action>)
    requires c.pipeMax > 0
    ensures Run(states, acts) && states[|acts|] == Filled(0, c) && states[0] == Boot(c.resolvers, c.pipeMax)
  {
    assert Boot(c.resolvers, c.pipeMax).workers == Opened(0, c).workers;
    states, acts := [Boot(c.resolvers, c.pipeMax)], [];
    OpenOne(0, c);
    states, acts := Extend(states, acts, Open(0, 0), Opened(1, c));
    OpenOne(1, c);
    states, acts := Extend(states, acts, Open(1, 0), Opened(2, c));
    OpenOne(2, c);
    states, acts := Extend(states, acts, Open(2, 0), Opened(3, c));
    OpenOne(3, c);
    states, acts := Extend(states, acts, Open(3, 0), Opened(4, c));
    assert Opened(4, c).workers == Filled(0, c).workers;
  }

  /** With QueueNeverFull: 128 cells are enough, and 127 would not be. */
  lemma QueueCanFill(resolvers: nat, pipeMax: nat) returns (states: seq<State>, acts: seq<Action>)
    requires pipeMax > 0
    ensures Run(states, acts) && states[0] == Boot(resolvers, pipeMax) && |states[|acts|].queue| == 128 == QUEUE_MAX
  {
    states, acts := FillTo(QUEUE_MAX, Setting(resolvers, pipeMax));
  }
}
