/**
  The TCP relay of one connection: partial sends and reads in both directions, half-close, and
  the choice of what to wait for next (simple-socks5.c and conn_forward.c). The outcome of each
  socket call is a parameter, so every statement is for any behaviour of the peers.
 */
module Relay {
  import opened Octets
  import opened Channels

  const GRACE_SEC: nat := 2
  const IDLE_SEC: nat := 300

  /** recv returns between one byte and a buffer full. */
  predicate Fits(r: RecvOutcome<seq<byte>>) { r.Received? ==> 0 < |r.what| <= BUFFER_SIZE }

  // ----- conn_forward.c -----

  datatype Mask = Mask(rdhup: bool, input: bool, output: bool)
  datatype Interest = Interest(client: Mask, target: Mask)

  /** What each descriptor waits for, stated directly. */
  ghost predicate Wanted(m: Interest, closed: bool, clientEof: bool, targetEof: bool, c2t: bool, t2c: bool) {
    && m.client == Mask(!closed && !clientEof, !closed && !clientEof && !c2t, !closed && t2c)
    && m.target == Mask(!closed && !targetEof, !closed && !targetEof && !t2c, !closed && c2t)
  }

  method ForwardInterest(closed: bool, clientEof: bool, targetEof: bool, c2t: bool, t2c: bool) returns (m: Interest)
    ensures Wanted(m, closed, clientEof, targetEof, c2t, t2c)
  {
    var c, t := Mask(false, false, false), Mask(false, false, false);
    if !closed {
      if !clientEof {
        c := c.(rdhup := true);
        if !c2t { c := c.(input := true); }
      }
      if t2c { c := c.(output := true); }
      if !targetEof {
        t := Mask(true, false, false);
        if !t2c { t := t.(input := true); }
      }
      if c2t { t := t.(output := true); }
    }
    m := Interest(c, t);
  }

  /** A time of 0 means that no FIN was seen. */
  predicate GraceExpired(now: int, eofSince: int, grace: int) { eofSince != 0 && now - eofSince >= grace }

  // ----- one event -----

  /** What the sockets answer while one event is handled, in the order of the calls. */
  datatype Env = Env(toClient: seq<SendOutcome>, toTarget: seq<SendOutcome>,
                     fromClient: RecvOutcome<seq<byte>>, thenToTarget: seq<SendOutcome>,
                     fromTarget: RecvOutcome<seq<byte>>, thenToClient: seq<SendOutcome>,
                     peekEof: bool, modClient: bool, modTarget: bool)

  datatype Event = Event(isTarget: bool, error: bool, rdhup: bool)

  datatype End = Alive | HungUp | SendBroke | ClientRecvFailed | TargetRecvFailed | TargetEof | PeekedEof | GraceOver

  /** The level-triggered conditions a descriptor can be armed for. */
  datatype Condition = ClientIn | ClientOut | ClientRdhup | TargetIn | TargetOut | TargetRdhup

  predicate Armed(m: Interest, c: Condition) {
    match c
    case ClientIn => m.client.input
    case ClientOut => m.client.output
    case ClientRdhup => m.client.rdhup
    case TargetIn => m.target.input
    case TargetOut => m.target.output
    case TargetRdhup => m.target.rdhup
  }

  /** What it means for the socket calls that the condition holds. */
  predicate Ready(c: Condition, e: Event, env: Env) {
    match c
    case ClientIn => env.fromClient != RecvBlocked
    case ClientRdhup => env.fromClient != RecvBlocked && !e.isTarget && e.rdhup
    case ClientOut => Writable(env.toClient)
    case TargetIn => env.fromTarget != RecvBlocked
    case TargetOut => Writable(env.toTarget)
    case TargetRdhup => e.isTarget && e.rdhup
  }

  // ----- the event on byte counts -----

  /** A connection without its bytes: how many entered and left each way, and its flags. */
  datatype View = View(c2tIn: nat, c2tOut: nat, t2cIn: nat, t2cOut: nat, clientEof: bool, eofSince: int,
                       targetEofSince: int, closed: bool, armed: Interest)
  {
    predicate Counts() { c2tOut <= c2tIn && t2cOut <= t2cIn }
    function Traffic(): nat { c2tIn + c2tOut + t2cIn + t2cOut }
    predicate C2tPending() { c2tOut < c2tIn }
    predicate T2cPending() { t2cOut < t2cIn }
    ghost predicate ArmedAsWanted() { Wanted(armed, closed, clientEof, targetEofSince != 0, C2tPending(), T2cPending()) }
  }

  datatype Result = Result(v: View, end: End)

  /** Counts only rise, no more leaves than entered, and a client half-close is not forgotten. */
  predicate Grows(v: View, v': View) {
    && v'.Counts() && v.c2tIn <= v'.c2tIn && v.c2tOut <= v'.c2tOut && v.t2cIn <= v'.t2cIn && v.t2cOut <= v'.t2cOut
    && (v.clientEof ==> v'.clientEof && v'.eofSince == v.eofSince && v'.c2tIn == v.c2tIn)
    && v'.closed == v.closed && v'.armed == v.armed
  }

  /** Flush to the client, then to the target. */
  function Flushed(v: View, env: Env): (r: Result)
    requires v.Counts()
    ensures Grows(v, r.v) && r.v.clientEof == v.clientEof && r.v.targetEofSince == v.targetEofSince
    ensures r.v.c2tIn == v.c2tIn && r.v.t2cIn == v.t2cIn && r.end in {Alive, SendBroke}
    ensures v.T2cPending() && Writable(env.toClient) ==> r.v.t2cOut > v.t2cOut || r.end != Alive
    ensures v.C2tPending() && Writable(env.toTarget) ==> r.v.c2tOut > v.c2tOut || r.end != Alive
    ensures !Writable(env.toTarget) ==> r.v.c2tOut == v.c2tOut
    ensures !Writable(env.toClient) ==> r.v.t2cOut == v.t2cOut
    ensures (v.T2cPending() ==> !Writable(env.toClient)) && (v.C2tPending() ==> !Writable(env.toTarget)) ==> r.end == Alive
  {
    var c := Drain(env.toClient, v.t2cIn - v.t2cOut);
    var t := Drain(env.toTarget, v.c2tIn - v.c2tOut);
    Result(v.(t2cOut := v.t2cOut + c.0, c2tOut := v.c2tOut + t.0), if c.1 == Broken || t.1 == Broken then SendBroke else Alive)
  }

  function ClientRead(v: View, now: int, env: Env): (r: Result)
    requires v.Counts() && !v.clientEof
    ensures Grows(v, r.v) && r.v.targetEofSince == v.targetEofSince && r.v.t2cIn == v.t2cIn && r.v.t2cOut == v.t2cOut
    ensures r.v.clientEof <==> env.fromClient == Eof
    ensures r.v.clientEof ==> r.v.eofSince == now
    ensures r.end in {Alive, SendBroke, ClientRecvFailed}
    ensures Fits(env.fromClient) && env.fromClient != RecvBlocked ==> r.v.c2tIn > v.c2tIn || r.v.clientEof || r.end != Alive
  {
    match env.fromClient
    case Received(data) =>
      var t := Drain(env.thenToTarget, |data|);
      Result(v.(c2tIn := v.c2tIn + |data|, c2tOut := v.c2tOut + t.0), if t.1 == Broken then SendBroke else Alive)
    case Eof => Result(v.(clientEof := true, eofSince := now), Alive)
    case RecvBlocked => Result(v, Alive)
    case RecvFailed => Result(v, ClientRecvFailed)
  }

  function TargetRead(v: View, env: Env): (r: Result)
    requires v.Counts()
    ensures Grows(v, r.v) && r.v.targetEofSince == v.targetEofSince && r.v.clientEof == v.clientEof && r.v.eofSince == v.eofSince
    ensures r.end in {Alive, SendBroke, TargetRecvFailed, TargetEof}
    ensures r.end == TargetEof ==> r.v == v
    ensures Fits(env.fromTarget) && env.fromTarget != RecvBlocked ==> r.v.t2cIn > v.t2cIn || r.end != Alive
    ensures env.fromTarget == RecvBlocked ==> r == Result(v, Alive)
  {
    match env.fromTarget
    case Received(data) =>
      var c := Drain(env.thenToClient, |data|);
      Result(v.(t2cIn := v.t2cIn + |data|, t2cOut := v.t2cOut + c.0), if c.1 == Broken then SendBroke else Alive)
    case Eof => Result(v, TargetEof)
    case RecvBlocked => Result(v, Alive)
    case RecvFailed => Result(v, TargetRecvFailed)
  }

  /** The four transfers of one event, in order; a failure stops the reads after it. */
  function Transferred(v: View, now: int, env: Env): (r: Result)
    requires v.Counts()
    ensures Grows(v, r.v) && r.v.targetEofSince == v.targetEofSince
    ensures !v.clientEof && r.v.clientEof ==> env.fromClient == Eof && r.v.eofSince == now
    ensures r.end == TargetEof ==> !r.v.T2cPending() && env.fromTarget == Eof
    ensures r.end in {Alive, SendBroke, ClientRecvFailed, TargetRecvFailed, TargetEof}
  {
    var r := Flushed(v, env);
    var r := if r.end == Alive && !r.v.C2tPending() && !r.v.clientEof then ClientRead(r.v, now, env) else r;
    if r.end == Alive && !r.v.T2cPending() then TargetRead(r.v, env) else r
  }

  /** Recording the target's half-close, and ending a connection that has nothing left to do. */
  function Judged(r: Result, e: Event, now: int, env: Env): (j: Result)
    ensures j.v == r.v.(targetEofSince := j.v.targetEofSince)
    ensures r.end != Alive ==> j == r
    ensures j.v.targetEofSince != r.v.targetEofSince ==> e.isTarget && e.rdhup && r.v.targetEofSince == 0 && j.v.targetEofSince == now
    ensures j.end in {r.end, GraceOver, PeekedEof}
  {
    if r.end != Alive then r
    else
      var v := if e.isTarget && r.v.targetEofSince == 0 && e.rdhup then r.v.(targetEofSince := now) else r.v;
      if v.C2tPending() || v.T2cPending() then Result(v, Alive)
      else if v.clientEof then Result(v, if GraceExpired(now, v.eofSince, GRACE_SEC) then GraceOver else Alive)
      else Result(v, if env.peekEof then PeekedEof else Alive)
  }

  /** One event up to the decision whether the connection lives on. */
  function Handled(v: View, e: Event, now: int, env: Env): (r: Result)
    requires v.Counts()
    ensures Grows(v, r.v)
    ensures r.end == HungUp <==> e.error
  {
    Judged(if e.error then Result(v, HungUp) else Transferred(v, now, env), e, now, env)
  }

  // ----- what one event guarantees -----

  /** A byte moved, a half-close was recorded, or the connection ends. */
  predicate Progress(v: View, r: Result) {
    r.v.Traffic() > v.Traffic() || r.v.clientEof != v.clientEof || r.v.targetEofSince != v.targetEofSince || r.end != Alive
  }

  /** Sockets are read only when their data has somewhere to go, and no call before them failed. */
  predicate ReadsClient(v: View, env: Env)
    requires v.Counts()
  {
    Drain(env.toClient, v.t2cIn - v.t2cOut).1 != Broken && Drain(env.toTarget, v.c2tIn - v.c2tOut).1 == AllSent && !v.clientEof
  }

  predicate ReadsTarget(v: View, env: Env)
    requires v.Counts()
  {
    && Drain(env.toClient, v.t2cIn - v.t2cOut).1 == AllSent && Drain(env.toTarget, v.c2tIn - v.c2tOut).1 != Broken
    && (ReadsClient(v, env) ==> env.fromClient != RecvFailed && !(env.fromClient.Received? && Drain(env.thenToTarget, |env.fromClient.what|).1 == Broken))
  }

  /** What an event moves, in terms of the outcomes of its calls: every byte in and every byte out. */
  lemma EventBytes(v: View, e: Event, now: int, env: Env)
    requires v.Counts() && !e.error
    ensures var r := Handled(v, e, now, env);
            var gotC := ReadsClient(v, env) && env.fromClient.Received?; var gotT := ReadsTarget(v, env) && env.fromTarget.Received?;
            && r.v.c2tIn == v.c2tIn + (if gotC then |env.fromClient.what| else 0)
            && r.v.t2cIn == v.t2cIn + (if gotT then |env.fromTarget.what| else 0)
            && r.v.c2tOut == v.c2tOut + Drain(env.toTarget, v.c2tIn - v.c2tOut).0 + (if gotC then Drain(env.thenToTarget, |env.fromClient.what|).0 else 0)
            && r.v.t2cOut == v.t2cOut + Drain(env.toClient, v.t2cIn - v.t2cOut).0 + (if gotT then Drain(env.thenToClient, |env.fromTarget.what|).0 else 0)
  {
  }

  /** And how it ends: every failure and every end of stream, and no other. */
  lemma EventEnds(v: View, e: Event, now: int, env: Env)
    requires v.Counts() && !e.error
    ensures var r := Handled(v, e, now, env);
            && (r.v.clientEof <==> v.clientEof || (ReadsClient(v, env) && env.fromClient == Eof))
            && (r.end == TargetEof <==> ReadsTarget(v, env) && env.fromTarget == Eof)
            && (r.end == TargetRecvFailed <==> ReadsTarget(v, env) && env.fromTarget == RecvFailed)
            && (r.end == ClientRecvFailed <==> ReadsClient(v, env) && env.fromClient == RecvFailed)
  {
  }

  lemma EventBreaks(v: View, e: Event, now: int, env: Env)
    requires v.Counts() && !e.error
    ensures Handled(v, e, now, env).end == SendBroke <==>
              || Drain(env.toClient, v.t2cIn - v.t2cOut).1 == Broken || Drain(env.toTarget, v.c2tIn - v.c2tOut).1 == Broken
              || (ReadsClient(v, env) && env.fromClient.Received? && Drain(env.thenToTarget, |env.fromClient.what|).1 == Broken)
              || (ReadsTarget(v, env) && env.fromTarget.Received? && Drain(env.thenToClient, |env.fromTarget.what|).1 == Broken)
  {
  }

  /** A connection that ends on the target's end of stream has sent the client all the target sent. */
  lemma NothingUnsentAtTargetEof(v: View, e: Event, now: int, env: Env)
    requires v.Counts()
    ensures var r := Handled(v, e, now, env);
            && (r.end == TargetEof || r.end == PeekedEof ==> r.v.t2cOut == r.v.t2cIn)
            && (r.end == PeekedEof || r.end == GraceOver ==> r.v.c2tOut == r.v.c2tIn && r.v.t2cOut == r.v.t2cIn)
            && (r.end == PeekedEof ==> env.peekEof && !r.v.clientEof)
            && (r.end == GraceOver ==> r.v.clientEof && r.v.eofSince != 0 && now - r.v.eofSince >= 2)
  {
  }

  /** A connection whose data is all out and whose target has finished, or whose grace is over, does not stay. */
  lemma FinishedDoesNotStay(v: View, e: Event, now: int, env: Env)
    requires v.Counts()
    ensures var r := Handled(v, e, now, env);
            r.end == Alive && !r.v.C2tPending() && !r.v.T2cPending() ==>
              if r.v.clientEof then r.v.eofSince == 0 || now - r.v.eofSince < 2 else !env.peekEof
  {
  }

  /** A half-close is recorded once, with its time, and never forgotten; nothing is read from that client again. */
  lemma HalfCloseIsKept(v: View, e: Event, now: int, env: Env)
    requires v.Counts()
    ensures var r := Handled(v, e, now, env);
            && (v.clientEof ==> r.v.clientEof && r.v.eofSince == v.eofSince && r.v.c2tIn == v.c2tIn)
            && (!v.clientEof && r.v.clientEof ==> env.fromClient == Eof && r.v.eofSince == now)
            && (v.targetEofSince != 0 ==> r.v.targetEofSince == v.targetEofSince)
            && (r.v.targetEofSince != v.targetEofSince ==> e.isTarget && e.rdhup && r.v.targetEofSince == now)
  {
  }

  lemma FlushProgress(v: View, e: Event, now: int, env: Env)
    requires v.Counts() && !e.error
    requires (v.T2cPending() && Writable(env.toClient)) || (v.C2tPending() && Writable(env.toTarget))
    ensures Progress(v, Handled(v, e, now, env))
  {
    var r := Flushed(v, env);
    var q := Transferred(v, now, env);
    assert Grows(r.v, q.v);
  }

  lemma TargetReadProgress(v: View, e: Event, now: int, env: Env)
    requires v.Counts() && !e.error && !v.T2cPending() && Fits(env.fromTarget) && env.fromTarget != RecvBlocked
    ensures Progress(v, Handled(v, e, now, env))
  {
    var q := Transferred(v, now, env);
    assert q.end != Alive || q.v.t2cIn > v.t2cIn;
  }

  lemma ClientReadProgress(v: View, e: Event, now: int, env: Env)
    requires v.Counts() && !e.error && !v.C2tPending() && !v.clientEof && Fits(env.fromClient) && env.fromClient != RecvBlocked
    ensures Progress(v, Handled(v, e, now, env))
  {
    var q := Transferred(v, now, env);
    assert q.end != Alive || q.v.c2tIn > v.c2tIn || q.v.clientEof;
  }

  lemma RdhupProgress(v: View, e: Event, now: int, env: Env)
    requires v.Counts() && !e.error && v.targetEofSince == 0 && e.isTarget && e.rdhup && now > 0
    ensures Progress(v, Handled(v, e, now, env))
  {
  }

  /** The descriptor waits for what the last update asked for: each such condition, once ready, makes progress. */
  lemma ArmedAndReadyMakesProgress(v: View, c: Condition, e: Event, now: int, env: Env)
    requires v.Counts() && v.ArmedAsWanted() && now > 0 && Fits(env.fromClient) && Fits(env.fromTarget)
    requires Armed(v.armed, c) && Ready(c, e, env)
    requires !(c == ClientRdhup && v.C2tPending() && !Writable(env.toTarget))
    ensures Progress(v, Handled(v, e, now, env))
  {
    if !e.error {
      match c
      case ClientIn => ClientReadProgress(v, e, now, env);
      case ClientRdhup => if v.C2tPending() { FlushProgress(v, e, now, env); } else { ClientReadProgress(v, e, now, env); }
      case ClientOut => FlushProgress(v, e, now, env);
      case TargetOut => FlushProgress(v, e, now, env);
      case TargetIn => TargetReadProgress(v, e, now, env);
      case TargetRdhup => RdhupProgress(v, e, now, env);
    }
  }

  /** Nothing that could move is forgotten: what can be read or written next is waited for. */
  lemma NothingIsForgotten(v: View)
    requires v.ArmedAsWanted() && !v.closed
    ensures Armed(v.armed, ClientIn) <==> !v.clientEof && !v.C2tPending()
    ensures Armed(v.armed, ClientOut) <==> v.T2cPending()
    ensures Armed(v.armed, TargetOut) <==> v.C2tPending()
    ensures Armed(v.armed, TargetIn) <==> v.targetEofSince == 0 && !v.T2cPending()
    ensures (Armed(v.armed, ClientRdhup) <==> !v.clientEof) && (Armed(v.armed, TargetRdhup) <==> v.targetEofSince == 0)
  {
  }

  /** What can still move while the data for the target is stuck. */
  predicate OtherSideMoves(v: View, env: Env) {
    if v.T2cPending() then Writable(env.toClient) else env.fromTarget != RecvBlocked
  }

  /** The exception, exactly: a client RDHUP with stuck client data makes progress only if the other direction does. */
  lemma StuckClientRdhup(v: View, e: Event, now: int, env: Env)
    requires v.Counts() && Fits(env.fromTarget) && !e.isTarget && !e.error && v.C2tPending() && !Writable(env.toTarget)
    ensures Progress(v, Handled(v, e, now, env)) <==> OtherSideMoves(v, env)
  {
    var r := Flushed(v, env);
    if OtherSideMoves(v, env) {
      if v.T2cPending() { FlushProgress(v, e, now, env); } else { TargetReadProgress(v, e, now, env); }
    } else {
      assert r.end == Alive && r.v.c2tOut == v.c2tOut && r.v.t2cOut == v.t2cOut;
    }
  }

  // ----- after the target's half-close -----

  /** The timeout scan on one connection: it may notice the target's FIN itself, and says whether to reclaim. */
  function ScanView(v: View, now: int, lastActive: int, peekEof: bool): (View, bool) {
    var v1 := if v.targetEofSince == 0 && v.T2cPending() && peekEof then v.(targetEofSince := now) else v;
    (v1, now - lastActive > IDLE_SEC || (v1.clientEof && GraceExpired(now, v1.eofSince, GRACE_SEC)) || GraceExpired(now, v1.targetEofSince, GRACE_SEC))
  }

  /** No event can make the worker read from the target or write to the client, unless the client itself acts. */
  predicate Deaf(m: Interest) {
    !Armed(m, TargetIn) && !Armed(m, TargetOut) && !Armed(m, TargetRdhup) && !Armed(m, ClientOut)
  }

  lemma DeafExactly(v: View)
    requires v.ArmedAsWanted() && !v.closed
    ensures Deaf(v.armed) <==> v.targetEofSince != 0 && !v.C2tPending() && !v.T2cPending()
  {
  }

  /**
    The event that records the target's FIN and leaves both buffers empty delivers all the target
    sent exactly when the peek finds the end of the stream. Otherwise bytes are still unread: the
    connection stays with nothing armed that could fetch them, and the scan reclaims it when the
    grace period is over.
   */
  lemma HalfCloseDelivery(v: View, e: Event, now: int, env: Env, m: Interest, later: int, lastActive: int, peek: bool)
    requires v.Counts() && !v.closed && v.targetEofSince == 0 && e.isTarget && e.rdhup && now > 0
    requires var r := Handled(v, e, now, env);
             (r.end == Alive || r.end == PeekedEof) && !r.v.C2tPending() && !r.v.T2cPending() && !r.v.clientEof
    requires Handled(v, e, now, env).v.(armed := m).ArmedAsWanted() && later >= now + 2
    ensures var r := Handled(v, e, now, env);
            && (r.end == PeekedEof <==> env.peekEof)
            && (!env.peekEof ==> Deaf(m) && r.v.targetEofSince == now && ScanView(r.v, later, lastActive, peek).1)
  {
    DeafExactly(Handled(v, e, now, env).v.(armed := m));
  }

  // ----- the connection -----

  class Conn {
    const c2t: Channel
    const t2c: Channel
    var clientEof: bool
    var eofSince: int
    var targetEofSince: int
    var closed: bool
    var lastActive: int
    var armed: Interest
    var tx: nat
    var rx: nat

    ghost predicate Valid()
      reads this, c2t, t2c, c2t.buf, t2c.buf
    {
      && c2t != t2c && c2t.buf != t2c.buf && c2t.Valid() && t2c.Valid()
      && tx == |c2t.sent| && rx == |t2c.received|
    }

    ghost function Abs(): (v: View)
      reads this, c2t, t2c
    {
      View(|c2t.received|, |c2t.sent|, |t2c.received|, |t2c.sent|, clientEof, eofSince, targetEofSince, closed, armed)
    }

    constructor ()
      ensures Valid() && fresh(c2t) && fresh(t2c) && fresh(c2t.buf) && fresh(t2c.buf)
      ensures c2t.received == [] && t2c.received == [] && c2t.sent == [] && t2c.sent == []
      ensures !closed && !clientEof && targetEofSince == 0 && Abs().ArmedAsWanted()
    {
      c2t := new Channel();
      t2c := new Channel();
      clientEof, eofSince, targetEofSince, closed, lastActive := false, 0, 0, false, 0;
      armed := Interest(Mask(true, true, false), Mask(true, true, false));
      tx, rx := 0, 0;
    }

    method FlushToClient(script: seq<SendOutcome>) returns (broken: bool)
      requires Valid()
      modifies t2c`len, t2c`off, t2c`sent
      ensures Valid()
      ensures |t2c.sent| == old(|t2c.sent|) + Drain(script, old(|t2c.received| - |t2c.sent|)).0
      ensures broken <==> Drain(script, old(|t2c.received| - |t2c.sent|)).1 == Broken
    {
      broken := false;
      if t2c.len > 0 {
        var rc, n := t2c.TrySend(script);
        broken := rc == Broken;
      }
    }

    method FlushToTarget(script: seq<SendOutcome>) returns (broken: bool)
      requires Valid()
      modifies this`tx, c2t`len, c2t`off, c2t`sent
      ensures Valid()
      ensures |c2t.sent| == old(|c2t.sent|) + Drain(script, old(|c2t.received| - |c2t.sent|)).0
      ensures broken <==> Drain(script, old(|c2t.received| - |c2t.sent|)).1 == Broken
    {
      broken := false;
      if c2t.len > 0 {
        var rc, n := c2t.TrySend(script);
        broken := rc == Broken;
        tx := tx + n;
      }
    }

    method Flush(env: Env) returns (end: End)
      requires Valid()
      modifies this`tx, c2t`len, c2t`off, c2t`sent, t2c`len, t2c`off, t2c`sent
      ensures Valid()
      ensures Result(Abs(), end) == Flushed(old(Abs()), env)
    {
      var clientBroke := FlushToClient(env.toClient);
      var targetBroke := FlushToTarget(env.toTarget);
      end := if clientBroke || targetBroke then SendBroke else Alive;
    }

    method ReadClient(now: int, env: Env) returns (end: End)
      requires Valid() && Fits(env.fromClient) && c2t.len == 0 && !clientEof
      modifies this`tx, this`clientEof, this`eofSince, c2t`len, c2t`off, c2t`sent, c2t`received, c2t.buf
      ensures Valid()
      ensures Result(Abs(), end) == ClientRead(old(Abs()), now, env)
      ensures c2t.received == old(c2t.received) + (if env.fromClient.Received? then env.fromClient.what else [])
    {
      end := Alive;
      match env.fromClient
      case Received(data) =>
        var rc, n := c2t.Pass(data, env.thenToTarget);
        if rc == Broken { end := SendBroke; }
        tx := tx + n;
      case Eof => clientEof, eofSince := true, now;
      case RecvBlocked =>
      case RecvFailed => end := ClientRecvFailed;
    }

    method ReadTarget(env: Env) returns (end: End)
      requires Valid() && Fits(env.fromTarget) && t2c.len == 0
      modifies this`rx, t2c`len, t2c`off, t2c`sent, t2c`received, t2c.buf
      ensures Valid()
      ensures Result(Abs(), end) == TargetRead(old(Abs()), env)
      ensures end == TargetEof ==> t2c.sent == t2c.received
      ensures t2c.received == old(t2c.received) + (if env.fromTarget.Received? then env.fromTarget.what else [])
    {
      end := Alive;
      match env.fromTarget
      case Received(data) =>
        rx := rx + |data|;
        var rc, n := t2c.Pass(data, env.thenToClient);
        if rc == Broken { end := SendBroke; }
      case Eof =>
        t2c.AllOut();
        end := TargetEof;
      case RecvBlocked =>
      case RecvFailed => end := TargetRecvFailed;
    }

    /** update_conn_events: a failed epoll_ctl leaves the old mask armed. */
    method UpdateEvents(env: Env) returns (wanted: Interest)
      modifies this`armed
      ensures Wanted(wanted, closed, clientEof, targetEofSince != 0, c2t.len > 0, t2c.len > 0)
      ensures armed.client == (if env.modClient && !closed then wanted.client else old(armed).client)
      ensures armed.target == (if env.modTarget && !closed then wanted.target else old(armed).target)
    {
      wanted := ForwardInterest(closed, clientEof, targetEofSince != 0, c2t.len > 0, t2c.len > 0);
      if closed { return; }
      if armed.client != wanted.client && env.modClient { armed := armed.(client := wanted.client); }
      if armed.target != wanted.target && env.modTarget { armed := armed.(target := wanted.target); }
    }

    method Transfer(now: int, env: Env) returns (end: End)
      requires Valid() && Fits(env.fromClient) && Fits(env.fromTarget)
      modifies this`tx, this`rx, this`clientEof, this`eofSince, c2t, t2c, c2t.buf, t2c.buf
      ensures Valid()
      ensures Result(Abs(), end) == Transferred(old(Abs()), now, env)
      ensures end == TargetEof ==> t2c.sent == t2c.received
      ensures c2t.received == old(c2t.received) || (env.fromClient.Received? && c2t.received == old(c2t.received) + env.fromClient.what)
      ensures t2c.received == old(t2c.received) || (env.fromTarget.Received? && t2c.received == old(t2c.received) + env.fromTarget.what)
    {
      end := Flush(env);
      if end == Alive && c2t.len == 0 && !clientEof {
        end := ReadClient(now, env);
      }
      if end == Alive && t2c.len == 0 {
        end := ReadTarget(env);
      }
    }

    /** After the transfers: record the target's FIN, and see whether the connection is finished. */
    method Decide(e: Event, now: int, env: Env, before: End) returns (end: End)
      requires Valid()
      modifies this`targetEofSince
      ensures Valid()
      ensures Result(Abs(), end) == Judged(Result(old(Abs()), before), e, now, env)
      ensures end == PeekedEof && before != PeekedEof ==> t2c.sent == t2c.received
    {
      end := before;
      if end == Alive && e.isTarget && targetEofSince == 0 && e.rdhup {
        targetEofSince := now;
      }
      if end == Alive && c2t.len == 0 && t2c.len == 0 {
        if clientEof {
          if GraceExpired(now, eofSince, GRACE_SEC) { end := GraceOver; }
        } else if env.peekEof {
          t2c.AllOut();
          end := PeekedEof;
        }
      }
    }

    method Finish(end: End, env: Env)
      requires Valid() && !closed
      modifies this`closed, this`armed
      ensures Valid() && closed == (end != Alive)
      ensures Abs() == old(Abs()).(closed := closed, armed := armed)
      ensures end == Alive && env.modClient && env.modTarget ==> Abs().ArmedAsWanted()
    {
      if end != Alive {
        closed := true;
      } else {
        var wanted := UpdateEvents(env);
      }
    }

    /**
      Everything the worker does with one event it has classified as this connection's. Valid says
      that, each way, bytes sent and bytes buffered are the bytes received, and that the traffic
      counters are the bytes sent to and received from the target. So what was sent is always a
      prefix of what was received, and the counts in Handled say how long a prefix.
     */
    method HandleEvent(e: Event, now: int, env: Env) returns (end: End)
      requires Valid() && !closed && Fits(env.fromClient) && Fits(env.fromTarget)
      modifies this, c2t, t2c, c2t.buf, t2c.buf
      ensures Valid()
      ensures Result(Abs().(armed := old(armed), closed := false), end) == Handled(old(Abs()), e, now, env)
      ensures closed == (end != Alive) && lastActive == now
      ensures end == Alive && env.modClient && env.modTarget ==> Abs().ArmedAsWanted()
      ensures end == TargetEof || end == PeekedEof ==> t2c.sent == t2c.received
      ensures c2t.received == old(c2t.received) || (env.fromClient.Received? && c2t.received == old(c2t.received) + env.fromClient.what)
      ensures t2c.received == old(t2c.received) || (env.fromTarget.Received? && t2c.received == old(t2c.received) + env.fromTarget.what)
    {
      lastActive := now;
      end := if e.error then HungUp else Alive;
      if end == Alive {
        end := Transfer(now, env);
      }
      end := Decide(e, now, env, end);
      Finish(end, env);
    }

    /** The timeout scan on this connection. */
    method Scan(now: int, peekEof: bool) returns (reclaimed: bool)
      requires Valid() && !closed
      modifies this`targetEofSince, this`closed
      ensures Valid() && closed == reclaimed
      ensures (Abs().(closed := false), reclaimed) == ScanView(old(Abs()), now, lastActive, peekEof)
      ensures targetEofSince == if old(targetEofSince) == 0 && |t2c.sent| < |t2c.received| && peekEof then now else old(targetEofSince)
      ensures reclaimed <==> now - lastActive > 300 || (clientEof && eofSince != 0 && now - eofSince >= 2) ||
                             (targetEofSince != 0 && now - targetEofSince >= 2)
    {
      if targetEofSince == 0 && t2c.len > 0 && peekEof { targetEofSince := now; }
      reclaimed := now - lastActive > IDLE_SEC || (clientEof && GraceExpired(now, eofSince, GRACE_SEC)) ||
                   GraceExpired(now, targetEofSince, GRACE_SEC);
      closed := reclaimed;
    }
  }

  /**
    An event at time t and a scan at time later. A connection that lives on with no half-close is
    reclaimed exactly after more than 300 idle seconds; with one recorded, from 2 seconds after it on
    and not before.
   */
  method EventThenScan(c: Conn, e: Event, t: int, env: Env, later: int, peekEof: bool) returns (end: End, reclaimed: bool)
    requires c.Valid() && !c.closed && Fits(env.fromClient) && Fits(env.fromTarget) && t > 0 && (c.clientEof ==> c.eofSince > 0) && c.targetEofSince >= 0
    modifies c, c.c2t, c.t2c, c.c2t.buf, c.t2c.buf
    ensures c.Valid() && c.closed == (end != Alive || reclaimed)
    ensures end == Alive && later - t > 300 ==> reclaimed
    ensures end == Alive && !c.clientEof && c.targetEofSince == 0 && later - t <= 300 ==> !reclaimed
    ensures end == Alive && c.clientEof && c.targetEofSince == 0 && later - t <= 300 ==> (reclaimed <==> later >= c.eofSince + 2)
    ensures end == Alive && !c.clientEof && c.targetEofSince != 0 && later - t <= 300 ==> (reclaimed <==> later >= c.targetEofSince + 2)
  {
    reclaimed := false;
    HalfCloseIsKept(c.Abs(), e, t, env);
    end := c.HandleEvent(e, t, env);
    if end == Alive {
      reclaimed := c.Scan(later, peekEof);
    }
  }

  /**
    A target that sends more than is read at once and then FIN: one event with IN and RDHUP forwards
    `data`, the peek sees a further byte, and two seconds later the scan closes the connection.
   */
  method TailIsLost(data: seq<byte>, now: int) returns (c: Conn, env: Env, end: End, reclaimed: bool)
    requires 0 < |data| <= BUFFER_SIZE && now > 0
    ensures env.fromTarget == Received(data) && !env.peekEof && end == Alive && reclaimed
    ensures c.Valid() && c.closed && c.t2c.received == data && c.t2c.sent == data && Deaf(c.armed)
  {
    env := Env([], [], RecvBlocked, [], Received(data), [Sent(|data|)], false, true, true);
    c := new Conn();
    ghost var v := c.Abs();
    assert Drain([Sent(|data|)], |data|) == (|data|, AllSent);
    TailEvent(v, now, env, data);
    end := c.HandleEvent(Event(true, false, true), now, env);
    DeafExactly(c.Abs());
    reclaimed := c.Scan(now + GRACE_SEC, false);
    c.t2c.AllOut();
  }

  lemma TailEvent(v: View, now: int, env: Env, data: seq<byte>)
    requires v.Counts() && v.c2tIn == v.c2tOut && v.t2cIn == v.t2cOut && !v.clientEof && v.targetEofSince == 0 && 0 < |data|
    requires env.toClient == [] && env.toTarget == [] && env.fromClient == RecvBlocked && env.fromTarget == Received(data) && !env.peekEof
    requires Drain(env.thenToClient, |data|) == (|data|, AllSent)
    ensures Handled(v, Event(true, false, true), now, env) ==
            Result(v.(t2cIn := v.t2cIn + |data|, t2cOut := v.t2cOut + |data|, targetEofSince := now), Alive)
  {
  }
}
