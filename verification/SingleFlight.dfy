/**
  The resolver's answer cache with single-flight lookups (DnsCache.kt), for any number of threads.
  Each step is one operation on a concurrent map, one resolution or one latch; any thread may go
  next, and the cache may be cleared at any time.

  `history` records every resolution that returned, and `epoch` counts the clears of the
  in-flight markers. No guard depends on them.
 */
module SingleFlight {
  import opened Seqs

  type Key = string
  type Addresses = seq<string>

  datatype Params = Params(maxEntries: int, positiveTtl: int, negativeTtl: int)
  datatype Entry = Entry(addresses: Addresses, expiresAt: int)

  /** A resolution of `key` by a caller whose time was `now`. */
  datatype Resolution = Resolution(key: Key, addresses: Addresses, now: int)

  /** A thread that put its latch into the in-flight map. */
  datatype Lead = Lead(key: Key, now: int, latch: nat, epoch: nat)

  datatype Answer = Nothing | Cached(addresses: Addresses) | Resolved(addresses: Addresses) | Threw

  datatype Point =
    | Idle
    | Looking(key: Key, now: int)
    | Installing(key: Key, now: int)
    | Following(key: Key, now: int)             // waiting for the leader's latch, or giving up waiting
    | ReadingAgain(key: Key, now: int)
    | Sizing(lead: Lead)
    | Clearing(lead: Lead)
    | Resolving(lead: Lead)
    | Putting(lead: Lead, addresses: Addresses)
    | Removing(lead: Lead, answer: Answer)
    | Opening(lead: Lead, answer: Answer)
    | Done(key: Key, now: int, answer: Answer)

  datatype State = State(params: Params, cache: map<Key, Entry>, inFlight: map<Key, nat>, nextLatch: nat,
                         threads: seq<Point>, epoch: nat, history: set<Resolution>)

  datatype Outcome = Fails | Returns(addresses: Addresses)

  datatype Action =
    | Begin(t: nat, key: Key, now: int)
    | Step(t: nat, outcome: Outcome)            // the outcome matters only to a resolution
    | ClearCache | ClearFlight                  // the two halves of clear()

  function Ttl(p: Params, addresses: Addresses): int { if addresses != [] then p.positiveTtl else p.negativeTtl }

  predicate Hit(st: State, key: Key, now: int) { key in st.cache && st.cache[key].expiresAt > now }

  ghost predicate Enabled(st: State, a: Action) {
    match a
    case Begin(t, _, _) => t < |st.threads| && (st.threads[t].Idle? || st.threads[t].Done?)
    case Step(t, _) => t < |st.threads| && !st.threads[t].Idle? && !st.threads[t].Done?
    case _ => true
  }

  function Move(st: State, t: nat, p: Point): State
    requires t < |st.threads|
  {
    st.(threads := st.threads[t := p])
  }

  function Install(st: State, t: nat, key: Key, now: int): State
    requires t < |st.threads|
  {
    if key in st.inFlight then Move(st, t, Following(key, now))
    else Move(st, t, Sizing(Lead(key, now, st.nextLatch, st.epoch))).(inFlight := st.inFlight[key := st.nextLatch], nextLatch := st.nextLatch + 1)
  }

  function Take(st: State, t: nat, outcome: Outcome): State
    requires t < |st.threads|
  {
    match st.threads[t]
    case Looking(key, now) => Move(st, t, if Hit(st, key, now) then Done(key, now, Cached(st.cache[key].addresses)) else Installing(key, now))
    case Installing(key, now) => Install(st, t, key, now)
    case Following(key, now) => Move(st, t, ReadingAgain(key, now))
    case ReadingAgain(key, now) => Move(st, t, Done(key, now, if Hit(st, key, now) then Cached(st.cache[key].addresses) else Nothing))
    case Sizing(lead) => Move(st, t, if |st.cache| >= st.params.maxEntries then Clearing(lead) else Resolving(lead))
    case Clearing(lead) => Move(st, t, Resolving(lead)).(cache := map[])
    case Resolving(lead) =>
      if outcome.Fails? then Move(st, t, Removing(lead, Threw))
      else Move(st, t, Putting(lead, outcome.addresses)).(history := st.history + {Resolution(lead.key, outcome.addresses, lead.now)})
    case Putting(lead, addresses) =>
      Move(st, t, Removing(lead, Resolved(addresses))).(cache := st.cache[lead.key := Entry(addresses, lead.now + Ttl(st.params, addresses))])
    case Removing(lead, answer) =>
      Move(st, t, Opening(lead, answer)).(inFlight := if lead.key in st.inFlight && st.inFlight[lead.key] == lead.latch
                                                      then st.inFlight - {lead.key} else st.inFlight)
    case Opening(lead, answer) => Move(st, t, Done(lead.key, lead.now, answer))
    case _ => st
  }

  function Apply(st: State, a: Action): State
    requires a.Begin? || a.Step? ==> a.t < |st.threads|
  {
    match a
    case Begin(t, key, now) => Move(st, t, Looking(key, now))
    case Step(t, outcome) => Take(st, t, outcome)
    case ClearCache => st.(cache := map[])
    case ClearFlight => st.(inFlight := map[], epoch := st.epoch + 1)
  }

  // ----- the invariant -----

  /** Between putting its latch into the map and removing it. */
  predicate Leads(p: Point) { p.Sizing? || p.Clearing? || p.Resolving? || p.Putting? || p.Removing? }

  /** Past the size check, with its entry still to come. */
  predicate WillPut(p: Point) { p.Resolving? || p.Putting? }

  /** The addresses were resolved for this key, by a caller for whose time they are still good at `now`. */
  ghost predicate Supported(st: State, key: Key, addresses: Addresses, now: int) {
    exists r :: r in st.history && r.key == key && r.addresses == addresses && r.now + Ttl(st.params, addresses) > now
  }

  ghost predicate EntryOk(st: State, key: Key, e: Entry) {
    exists r :: r in st.history && r.key == key && r.addresses == e.addresses && r.now + Ttl(st.params, e.addresses) == e.expiresAt
  }

  /** Its marker is in the map, unless the markers were cleared since. */
  predicate LeadOk(st: State, l: Lead) {
    l.latch < st.nextLatch && l.epoch <= st.epoch && (l.epoch == st.epoch ==> l.key in st.inFlight && st.inFlight[l.key] == l.latch)
  }

  ghost predicate AnswerOk(st: State, key: Key, now: int, answer: Answer) {
    match answer
    case Cached(addresses) => Supported(st, key, addresses, now)
    case Resolved(addresses) => Resolution(key, addresses, now) in st.history
    case _ => true
  }

  ghost predicate ThreadOk(st: State, p: Point) {
    && (Leads(p) ==> LeadOk(st, p.lead))
    && match p
       case Putting(lead, addresses) => Resolution(lead.key, addresses, lead.now) in st.history
       case Removing(lead, answer) => AnswerOk(st, lead.key, lead.now, answer)
       case Opening(lead, answer) => AnswerOk(st, lead.key, lead.now, answer)
       case Done(key, now, answer) => AnswerOk(st, key, now, answer)
       case _ => true
  }

  /** Two leaders have different latches, and lead different keys or began in different epochs. */
  ghost predicate Apart(p: Point, q: Point) {
    Leads(p) && Leads(q) ==> p.lead.latch != q.lead.latch && !(p.lead.key == q.lead.key && p.lead.epoch == q.lead.epoch)
  }

  ghost predicate Inv(st: State) {
    && (forall t :: 0 <= t < |st.threads| ==> ThreadOk(st, st.threads[t]))
    && (forall t, u :: 0 <= t < u < |st.threads| ==> Apart(st.threads[t], st.threads[u]))
    && (forall k :: k in st.cache ==> EntryOk(st, k, st.cache[k]))
    && (forall k :: k in st.inFlight ==> st.inFlight[k] < st.nextLatch)
  }

  // ----- every step keeps it -----

  lemma AnswerStays(st: State, st': State, key: Key, now: int, answer: Answer)
    requires AnswerOk(st, key, now, answer) && st.history <= st'.history && st'.params == st.params
    ensures AnswerOk(st', key, now, answer)
  {
    if answer.Cached? {
      var r :| r in st.history && r.key == key && r.addresses == answer.addresses && r.now + Ttl(st.params, answer.addresses) > now;
      assert r in st'.history;
    }
  }

  /** A thread that does not move: only its marker could be disturbed. */
  lemma Stays(st: State, st': State, p: Point)
    requires ThreadOk(st, p) && st.history <= st'.history && st'.params == st.params
    requires Leads(p) ==> LeadOk(st', p.lead)
    ensures ThreadOk(st', p)
  {
    match p
    case Removing(lead, answer) => AnswerStays(st, st', lead.key, lead.now, answer);
    case Opening(lead, answer) => AnswerStays(st, st', lead.key, lead.now, answer);
    case Done(key, now, answer) => AnswerStays(st, st', key, now, answer);
    case _ =>
  }

  lemma EntryStays(st: State, st': State, key: Key, e: Entry)
    requires EntryOk(st, key, e) && st.history <= st'.history && st'.params == st.params
    ensures EntryOk(st', key, e)
  {
    var r :| r in st.history && r.key == key && r.addresses == e.addresses && r.now + Ttl(st.params, e.addresses) == e.expiresAt;
    assert r in st'.history;
  }

  /** The step of thread t leaves every other leader's marker alone. */
  lemma MarkersStay(st: State, t: nat, outcome: Outcome, u: nat)
    requires Inv(st) && t < |st.threads| && u < |st.threads| && u != t && Leads(st.threads[u])
    ensures LeadOk(Take(st, t, outcome), st.threads[u].lead)
  {
    assert ThreadOk(st, st.threads[u]) && ThreadOk(st, st.threads[t]);
    assert if t < u then Apart(st.threads[t], st.threads[u]) else Apart(st.threads[u], st.threads[t]);
  }

  lemma CacheStays(st: State, t: nat, outcome: Outcome)
    requires Inv(st) && t < |st.threads|
    ensures var st' := Take(st, t, outcome);
            (forall k :: k in st'.cache ==> EntryOk(st', k, st'.cache[k])) && forall k :: k in st'.inFlight ==> st'.inFlight[k] < st'.nextLatch
  {
    var st' := Take(st, t, outcome);
    assert ThreadOk(st, st.threads[t]);
    forall k | k in st'.cache ensures EntryOk(st', k, st'.cache[k]) {
      if st.threads[t].Putting? && k == st.threads[t].lead.key {
        var p := st.threads[t];
        assert Resolution(p.lead.key, p.addresses, p.lead.now) in st'.history;
      } else {
        EntryStays(st, st', k, st.cache[k]);
      }
    }
  }

  /** The thread that moves. */
  lemma MoverOk(st: State, t: nat, outcome: Outcome)
    requires Inv(st) && t < |st.threads|
    ensures var st' := Take(st, t, outcome); ThreadOk(st', st'.threads[t])
  {
    var st' := Take(st, t, outcome);
    var p := st.threads[t];
    assert ThreadOk(st, p);
    match p
    case Looking(key, now) => if Hit(st, key, now) { HitSupported(st, key, now); }
    case ReadingAgain(key, now) => if Hit(st, key, now) { HitSupported(st, key, now); }
    case Removing(lead, answer) => AnswerStays(st, st', lead.key, lead.now, answer);
    case Opening(lead, answer) => AnswerStays(st, st', lead.key, lead.now, answer);
    case Done(key, now, answer) => AnswerStays(st, st', key, now, answer);
    case _ =>
  }

  lemma HitSupported(st: State, key: Key, now: int)
    requires Inv(st) && Hit(st, key, now)
    ensures Supported(st, key, st.cache[key].addresses, now)
  {
    assert EntryOk(st, key, st.cache[key]);
    var e := st.cache[key];
    var r :| r in st.history && r.key == key && r.addresses == e.addresses && r.now + Ttl(st.params, e.addresses) == e.expiresAt;
    assert r in st.history && r.key == key;
  }

  lemma MoverApart(st: State, t: nat, outcome: Outcome, u: nat)
    requires Inv(st) && t < |st.threads| && u < |st.threads| && u != t
    ensures var p := Take(st, t, outcome).threads[t]; Apart(p, st.threads[u]) && Apart(st.threads[u], p)
  {
    assert ThreadOk(st, st.threads[u]);
    assert if t < u then Apart(st.threads[t], st.threads[u]) else Apart(st.threads[u], st.threads[t]);
  }

  lemma TakeKeeps(st: State, t: nat, outcome: Outcome)
    requires Inv(st) && t < |st.threads|
    ensures Inv(Take(st, t, outcome))
  {
    var st' := Take(st, t, outcome);
    forall u | 0 <= u < |st'.threads| ensures ThreadOk(st', st'.threads[u]) {
      assert ThreadOk(st, st.threads[u]);
      if u == t {
        MoverOk(st, t, outcome);
      } else {
        if Leads(st.threads[u]) { MarkersStay(st, t, outcome, u); }
        Stays(st, st', st.threads[u]);
      }
    }
    forall u, v | 0 <= u < v < |st'.threads| ensures Apart(st'.threads[u], st'.threads[v]) {
      assert Apart(st.threads[u], st.threads[v]);
      if u == t { MoverApart(st, t, outcome, v); }
      if v == t { MoverApart(st, t, outcome, u); }
    }
    CacheStays(st, t, outcome);
  }

  lemma StepKeeps(st: State, a: Action)
    requires Inv(st) && Enabled(st, a)
    ensures Inv(Apply(st, a))
  {
    var st' := Apply(st, a);
    if a.Step? {
      TakeKeeps(st, a.t, a.outcome);
    } else {
      forall u | 0 <= u < |st'.threads| ensures ThreadOk(st', st'.threads[u]) {
        assert ThreadOk(st, st.threads[u]);
        if st'.threads[u] == st.threads[u] { Stays(st, st', st.threads[u]); }
      }
      forall u, v | 0 <= u < v < |st'.threads| ensures Apart(st'.threads[u], st'.threads[v]) {
        assert Apart(st.threads[u], st.threads[v]);
      }
      forall k | k in st'.cache ensures EntryOk(st', k, st'.cache[k]) { EntryStays(st, st', k, st.cache[k]); }
    }
  }

  // ----- runs -----

  function Boot(params: Params, threads: nat): State {
    State(params, map[], map[], 0, seq(threads, _ => Idle), 0, {})
  }

  ghost predicate StepAt(st: State, a: Action, st': State) { Enabled(st, a) && st' == Apply(st, a) }

  ghost predicate Run(params: Params, states: seq<State>, acts: seq<Action>) {
    && |states| == |acts| + 1
    && (exists n: nat :: states[0] == Boot(params, n))
    && forall k {:trigger acts[k]} :: 0 <= k < |acts| ==> StepAt(states[k], acts[k], states[k + 1])
  }

  lemma {:induction false} RunInv(params: Params, states: seq<State>, acts: seq<Action>, k: nat)
    requires Run(params, states, acts) && k < |states|
    ensures Inv(states[k]) && states[k].params == params
  {
    if k > 0 {
      RunInv(params, states, acts, k - 1);
      assert StepAt(states[k - 1], acts[k - 1], states[k]);
      StepKeeps(states[k - 1], acts[k - 1]);
    }
  }

  /** Single flight: between two clears of the markers a key has at most one leader. */
  lemma OneLeaderPerKey(params: Params, states: seq<State>, acts: seq<Action>, k: nat, st: State, t: nat, u: nat)
    requires Run(params, states, acts) && k < |states| && st == states[k] && t < |st.threads| && u < |st.threads|
    requires Leads(st.threads[t]) && Leads(st.threads[u])
    requires st.threads[t].lead.key == st.threads[u].lead.key && st.threads[t].lead.epoch == st.threads[u].lead.epoch
    ensures t == u
  {
    RunInv(params, states, acts, k);
    assert t < u ==> Apart(st.threads[t], st.threads[u]);
    assert u < t ==> Apart(st.threads[u], st.threads[t]);
  }

  /** A leader's marker stays until that leader removes it or the markers are cleared; no other finishing leader takes it. */
  lemma MarkerIsOwn(params: Params, states: seq<State>, acts: seq<Action>, k: nat, st: State, t: nat)
    requires Run(params, states, acts) && k < |states| && st == states[k] && t < |st.threads| && Leads(st.threads[t])
    ensures st.threads[t].lead.epoch == st.epoch ==>
              st.threads[t].lead.key in st.inFlight && st.inFlight[st.threads[t].lead.key] == st.threads[t].lead.latch
  {
    RunInv(params, states, acts, k);
    assert ThreadOk(st, st.threads[t]);
  }

  /** An answer from the cache was resolved for that key, and has not expired at the caller's time. */
  lemma CachedAnswersAreGood(params: Params, states: seq<State>, acts: seq<Action>, k: nat, st: State, t: nat)
    requires Run(params, states, acts) && k < |states| && st == states[k] && t < |st.threads|
    requires st.threads[t].Done? && st.threads[t].answer.Cached?
    ensures exists r :: r in st.history && r.key == st.threads[t].key && r.addresses == st.threads[t].answer.addresses &&
                        r.now + (if r.addresses != [] then params.positiveTtl else params.negativeTtl) > st.threads[t].now
  {
    RunInv(params, states, acts, k);
    assert ThreadOk(st, st.threads[t]);
  }

  // ----- what a lookup does -----

  /** A lookup answers from the cache exactly when the cache has an entry for its key that has not expired. */
  lemma AnswersFromCacheExactly(st: State, t: nat, outcome: Outcome)
    requires Enabled(st, Step(t, outcome)) && (st.threads[t].Looking? || st.threads[t].ReadingAgain?)
    ensures var p, p' := st.threads[t], Apply(st, Step(t, outcome)).threads[t]; var key, now := p.key, p.now;
            if key in st.cache && st.cache[key].expiresAt > now then p' == Done(key, now, Cached(st.cache[key].addresses))
            else p' == if p.Looking? then Installing(key, now) else Done(key, now, Nothing)
  {
  }

  /** A thread leads exactly if nobody has a marker for its key; otherwise it follows. */
  lemma LeadsExactly(st: State, t: nat, outcome: Outcome)
    requires Enabled(st, Step(t, outcome)) && st.threads[t].Installing?
    ensures var st' := Apply(st, Step(t, outcome)); var key := st.threads[t].key;
            |st'.threads| == |st.threads| && (Leads(st'.threads[t]) <==> key !in st.inFlight) && (st'.threads[t].Following? <==> key in st.inFlight)
            && key in st'.inFlight && (key in st.inFlight ==> st'.inFlight == st.inFlight)
  {
  }

  /** What a leader resolved is in the cache when it has put it: with the long or the short life as it is non-empty or empty. */
  lemma PutsExactly(st: State, t: nat, outcome: Outcome)
    requires Enabled(st, Step(t, outcome)) && st.threads[t].Putting?
    ensures var p, st' := st.threads[t], Apply(st, Step(t, outcome));
            && st'.cache == st.cache[p.lead.key := Entry(p.addresses, p.lead.now + (if p.addresses == [] then st.params.negativeTtl else st.params.positiveTtl))]
            && |st'.threads| == |st.threads| && st'.threads[t] == Removing(p.lead, Resolved(p.addresses))
  {
  }

  /** A leader empties the cache exactly when it finds the limit reached, and then resolves. */
  lemma ClearsExactly(st: State, t: nat, outcome: Outcome)
    requires Enabled(st, Step(t, outcome)) && (st.threads[t].Sizing? || st.threads[t].Clearing?)
    ensures var p, st' := st.threads[t], Apply(st, Step(t, outcome));
            && |st'.threads| == |st.threads|
            && (p.Sizing? ==> st'.cache == st.cache && st'.threads[t] == if |st.cache| >= st.params.maxEntries then Clearing(p.lead) else Resolving(p.lead))
            && (p.Clearing? ==> st'.cache == map[] && st'.threads[t] == Resolving(p.lead))
  {
  }

  // ----- what a lookup returns -----

  /** Between steps b and m thread t called its resolver, with that outcome. */
  ghost predicate Called(states: seq<State>, acts: seq<Action>, b: nat, m: nat, t: nat, outcome: Outcome)
    requires |states| == |acts| + 1
  {
    exists i {:trigger acts[i]} :: b < i < m && i < |acts| && acts[i] == Step(t, outcome) && t < |states[i].threads| && states[i].threads[t].Resolving?
  }

  /** What a leader answers with: the addresses its own resolver returned, or that it threw. */
  ghost predicate Came(states: seq<State>, acts: seq<Action>, b: nat, m: nat, t: nat, answer: Answer)
    requires |states| == |acts| + 1
  {
    match answer
    case Resolved(addresses) => Called(states, acts, b, m, t, Returns(addresses))
    case Threw => Called(states, acts, b, m, t, Fails)
    case _ => false
  }

  /** What a step that reads the cache at p answers with; on its first look a miss is no answer yet. */
  ghost predicate Reads(st: State, p: Point, key: Key, now: int, answer: Answer) {
    || (p == Looking(key, now) && key in st.cache && st.cache[key].expiresAt > now && answer == Cached(st.cache[key].addresses))
    || (p == ReadingAgain(key, now) &&
        answer == if key in st.cache && st.cache[key].expiresAt > now then Cached(st.cache[key].addresses) else Nothing)
  }

  /** Between steps b and m thread t read the cache, with that answer. */
  ghost predicate HasRead(states: seq<State>, acts: seq<Action>, b: nat, m: nat, t: nat, key: Key, now: int, answer: Answer)
    requires |states| == |acts| + 1
  {
    exists i {:trigger acts[i]} :: b < i < m && i < |acts| && acts[i].Step? && acts[i].t == t && t < |states[i].threads| &&
                                   Reads(states[i], states[i].threads[t], key, now, answer)
  }

  /** Thread t is at p at state m, in the lookup of `key` it began at step b. */
  ghost predicate Told(states: seq<State>, acts: seq<Action>, b: nat, m: nat, t: nat, key: Key, now: int, p: Point)
    requires |states| == |acts| + 1
  {
    match p
    case Idle => false
    case Looking(k, n) => k == key && n == now
    case Installing(k, n) => k == key && n == now
    case Following(k, n) => k == key && n == now
    case ReadingAgain(k, n) => k == key && n == now
    case Sizing(l) => l.key == key && l.now == now
    case Clearing(l) => l.key == key && l.now == now
    case Resolving(l) => l.key == key && l.now == now
    case Putting(l, addresses) => l.key == key && l.now == now && Came(states, acts, b, m, t, Resolved(addresses))
    case Removing(l, answer) => l.key == key && l.now == now && Came(states, acts, b, m, t, answer)
    case Opening(l, answer) => l.key == key && l.now == now && Came(states, acts, b, m, t, answer)
    case Done(k, n, answer) => k == key && n == now && (Came(states, acts, b, m, t, answer) || HasRead(states, acts, b, m, t, key, now, answer))
  }

  lemma ToldStays(states: seq<State>, acts: seq<Action>, b: nat, m: nat, t: nat, key: Key, now: int, p: Point)
    requires |states| == |acts| + 1 && Told(states, acts, b, m, t, key, now, p)
    ensures Told(states, acts, b, m + 1, t, key, now, p)
  {
  }

  /** A step of the thread itself. */
  lemma ToldStep(states: seq<State>, acts: seq<Action>, b: nat, m: nat, t: nat, key: Key, now: int, outcome: Outcome)
    requires |states| == |acts| + 1 && b < m < |acts| && t < |states[m].threads| && acts[m] == Step(t, outcome)
    requires Enabled(states[m], acts[m]) && Told(states, acts, b, m, t, key, now, states[m].threads[t])
    ensures Told(states, acts, b, m + 1, t, key, now, Take(states[m], t, outcome).threads[t])
  {
    var st, p := states[m], states[m].threads[t];
    var p' := Take(st, t, outcome).threads[t];
    ToldStays(states, acts, b, m, t, key, now, p);
    match p
    case Looking(_, _) => if p'.Done? { assert Reads(st, p, key, now, p'.answer); }
    case ReadingAgain(_, _) => assert Reads(st, p, key, now, p'.answer);
    case Resolving(_) => assert Called(states, acts, b, m + 1, t, outcome);
    case _ =>
  }

  /**
    A lookup returns for its key: what its own resolver returned, or threw, if it was the leader; what
    the cache held unexpired when it looked first; or, having waited, what the cache holds then, and
    nothing exactly if that is nothing unexpired.
   */
  lemma {:induction false} LookupReturns(params: Params, states: seq<State>, acts: seq<Action>, b: nat, m: nat, t: nat, key: Key, now: int)
    requires Run(params, states, acts) && b < m < |states| && acts[b] == Begin(t, key, now)
    requires forall i :: b < i < m ==> !(acts[i].Begin? && acts[i].t == t)
    ensures t < |states[m].threads| && Told(states, acts, b, m, t, key, now, states[m].threads[t])
  {
    assert StepAt(states[m - 1], acts[m - 1], states[m]);
    if m > b + 1 {
      LookupReturns(params, states, acts, b, m - 1, t, key, now);
      if acts[m - 1].Step? && acts[m - 1].t == t {
        ToldStep(states, acts, b, m - 1, t, key, now, acts[m - 1].outcome);
      } else {
        ToldStays(states, acts, b, m - 1, t, key, now, states[m - 1].threads[t]);
      }
    }
  }

  // ----- no marker without a leader -----

  ghost predicate Led(st: State, key: Key) {
    exists t :: 0 <= t < |st.threads| && Leads(st.threads[t]) && st.threads[t].lead.key == key && key in st.inFlight && st.threads[t].lead.latch == st.inFlight[key]
  }

  ghost predicate AllLed(st: State) { forall key :: key in st.inFlight ==> Led(st, key) }

  lemma LedStays(st: State, t: nat, outcome: Outcome, key: Key, u: nat)
    requires Inv(st) && t < |st.threads| && u < |st.threads| && Leads(st.threads[u]) && st.threads[u].lead.key == key
    requires key in st.inFlight && st.threads[u].lead.latch == st.inFlight[key] && key in Take(st, t, outcome).inFlight
    ensures Led(Take(st, t, outcome), key)
  {
    var st' := Take(st, t, outcome);
    assert u == t ==> !st.threads[t].Removing?;
    assert Leads(st'.threads[u]) && st'.threads[u].lead == st.threads[u].lead;
    assert st'.inFlight[key] == st.inFlight[key];
  }

  lemma LedStep(st: State, t: nat, outcome: Outcome, key: Key)
    requires Inv(st) && AllLed(st) && t < |st.threads| && key in Take(st, t, outcome).inFlight
    ensures Led(Take(st, t, outcome), key)
  {
    if key in st.inFlight {
      var u :| 0 <= u < |st.threads| && Leads(st.threads[u]) && st.threads[u].lead.key == key && st.threads[u].lead.latch == st.inFlight[key];
      LedStays(st, t, outcome, key, u);
    } else {
      var st' := Take(st, t, outcome);
      assert Leads(st'.threads[t]) && st'.threads[t].lead.key == key;
    }
  }

  /** Every marker belongs to a leader that is still at work: a leader that finishes leaves none behind. */
  lemma {:induction false} EveryMarkerHasItsLeader(params: Params, states: seq<State>, acts: seq<Action>, k: nat)
    requires Run(params, states, acts) && k < |states|
    ensures AllLed(states[k])
  {
    if k > 0 {
      EveryMarkerHasItsLeader(params, states, acts, k - 1);
      RunInv(params, states, acts, k - 1);
      var st, a, st' := states[k - 1], acts[k - 1], states[k];
      assert StepAt(st, a, st');
      forall key | key in st'.inFlight ensures Led(st', key) {
        match a
        case Step(t, outcome) => LedStep(st, t, outcome, key);
        case Begin(t, _, _) =>
          var u :| 0 <= u < |st.threads| && Leads(st.threads[u]) && st.threads[u].lead.key == key && st.threads[u].lead.latch == st.inFlight[key];
          assert u != t && st'.threads[u] == st.threads[u];
        case ClearCache =>
          var u :| 0 <= u < |st.threads| && Leads(st.threads[u]) && st.threads[u].lead.key == key && st.threads[u].lead.latch == st.inFlight[key];
          assert st'.threads[u] == st.threads[u];
        case ClearFlight =>
      }
    }
  }

  // ----- the size of the cache -----

  function Leaders(st: State): nat { Count(st.threads, Leads) }

  function Coming(st: State): nat { Count(st.threads, WillPut) }

  function Least(params: Params): nat { if params.maxEntries >= 1 then params.maxEntries else 1 }

  lemma {:induction false} ComingAreLeaders(ps: seq<Point>)
    ensures Count(ps, WillPut) <= Count(ps, Leads)
  {
    if ps != [] { ComingAreLeaders(ps[1..]); }
  }

  /** One step's effect on the size and on the thread's own part in Coming. */
  lemma MoverSize(st: State, t: nat, outcome: Outcome) returns (p: Point)
    requires t < |st.threads|
    ensures Take(st, t, outcome).threads == st.threads[t := p]
    ensures var st' := Take(st, t, outcome);
            || |st'.cache| + (if WillPut(p) then 1 else 0) <= |st.cache| + (if WillPut(st.threads[t]) then 1 else 0)
            || (WillPut(p) && |st'.cache| <= Least(st.params) - 1)
  {
    var q := st.threads[t];
    var st' := Take(st, t, outcome);
    p := st'.threads[t];
    if q.Putting? { InsertSize(st.cache, q.lead.key, st'.cache[q.lead.key]); }
  }

  lemma SizeStep(st: State, a: Action, peak: nat)
    requires Enabled(st, a) && |st.cache| + Coming(st) <= Least(st.params) - 1 + peak && Leaders(Apply(st, a)) <= peak
    ensures |Apply(st, a).cache| + Coming(Apply(st, a)) <= Least(st.params) - 1 + peak
  {
    match a
    case ClearCache =>
    case ClearFlight =>
    case Begin(t, key, now) => CountUpdate(st.threads, t, Looking(key, now), WillPut);
    case Step(t, outcome) =>
      var p := MoverSize(st, t, outcome);
      CountUpdate(st.threads, t, p, WillPut);
      ComingAreLeaders(st.threads[t := p]);
  }

  lemma InsertSize(m: map<Key, Entry>, k: Key, e: Entry)
    ensures |m[k := e]| <= |m| + 1
  {
    assert m[k := e].Keys == m.Keys + {k};
    assert |m.Keys + {k}| <= |m.Keys| + 1;
  }

  lemma {:induction false} BootComing(ps: seq<Point>)
    requires forall i :: 0 <= i < |ps| ==> ps[i] == Idle
    ensures Count(ps, WillPut) == 0
  {
    if ps != [] { BootComing(ps[1..]); }
  }

  /** With at most `peak` leaders at once, the cache never exceeds the limit less one, plus `peak`. */
  lemma {:induction false} CacheIsBounded(params: Params, states: seq<State>, acts: seq<Action>, k: nat, peak: nat)
    requires Run(params, states, acts) && k < |states|
    requires forall i :: 0 <= i < |states| ==> Leaders(states[i]) <= peak
    ensures |states[k].cache| + Coming(states[k]) <= Least(params) - 1 + peak
  {
    RunInv(params, states, acts, k);
    if k == 0 {
      BootComing(states[0].threads);
    } else {
      CacheIsBounded(params, states, acts, k - 1, peak);
      RunInv(params, states, acts, k - 1);
      assert StepAt(states[k - 1], acts[k - 1], states[k]);
      SizeStep(states[k - 1], acts[k - 1], peak);
    }
  }
}
