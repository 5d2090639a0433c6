/**
  One UDP-in-TCP session (simple-socks5.c): frames reassembled from whatever pieces recv returns,
  and reply frames built in place and sent in whatever pieces send accepts.
 */
module UdpTunnel {
  import opened Octets
  import opened Seqs
  import opened Datagrams
  import Channels

  datatype Rc = Go | WouldBlock | PeerClosed | IoError | Protocol

  /** One recv of at most `want` bytes: how many of the bytes on the wire it takes is the outcome's choice. */
  method Recv(dst: array<byte>, at: nat, want: nat, wire: seq<byte>, pos: nat, script: seq<RecvOutcome<nat>>, i: nat)
    returns (rc: Rc, k: nat)
    requires want > 0 && at + want <= dst.Length && pos <= |wire| && i <= |script|
    modifies dst
    ensures rc != Go ==> k == 0
    ensures rc == Go <==> i < |script| && script[i].Received? && pos < |wire|
    ensures rc == WouldBlock ==> i == |script| || script[i] == RecvBlocked || pos == |wire|
    ensures rc == PeerClosed <==> i < |script| && script[i] == Eof
    ensures rc == IoError <==> i < |script| && script[i] == RecvFailed
    ensures rc != Protocol
    ensures rc == Go ==> 1 <= k <= want && pos + k <= |wire|
    ensures forall j :: 0 <= j < dst.Length ==> dst[j] == if at <= j < at + k then wire[pos + j - at] else old(dst[j])
  {
    k := 0;
    if i == |script| || script[i] == RecvBlocked { return WouldBlock, 0; }
    if script[i] == Eof { return PeerClosed, 0; }
    if script[i] == RecvFailed { return IoError, 0; }
    if pos == |wire| { return WouldBlock, 0; }
    k := Clip(script[i].what, if want < |wire| - pos then want else |wire| - pos);
    Copy(dst, at, wire[pos..pos + k]);
    rc := Go;
  }

  class Receiver {
    const lenBytes: array<byte>
    const inBuf: array<byte>
    var lenGot: nat
    var frameExpect: nat
    var frameGot: nat
    var routed: seq<Datagram>
    var bad: bool
    ghost var whole: seq<byte>   // the bytes received that made up complete frames

    /** The bytes of the frame being read. */
    ghost function Rest(): seq<byte>
      reads this, lenBytes, inBuf
      requires lenGot <= lenBytes.Length && frameGot <= inBuf.Length
    {
      lenBytes[..lenGot] + inBuf[..frameGot]
    }

    ghost predicate Sized()
      reads this
    {
      && lenBytes != inBuf && lenBytes.Length == 2 && inBuf.Length == BUFFER_SIZE
      && lenGot <= 2 && frameGot <= frameExpect <= BUFFER_SIZE
      && (lenGot < 2 ==> frameExpect == 0 && !bad) && (bad ==> frameExpect == 0)
    }

    /** The length field, when complete, is legal and is the length awaited; or it is the illegal one. */
    ghost predicate Length()
      reads this, lenBytes
      requires Sized()
    {
      lenGot == 2 ==>
        var n := FrameLen(lenBytes[0], lenBytes[1]);
        if bad then !LegalLen(n) else LegalLen(n) && frameExpect == n
    }

    ghost predicate Routed()
      reads this
    {
      WholeFrames(whole) && routed == RouteAll(Frames(whole).frames)
    }

    ghost predicate Valid()
      reads this, lenBytes, inBuf
    {
      Sized() && Length() && Routed() && (frameGot < frameExpect || frameExpect == 0)
    }

    /** All bytes received so far. */
    ghost function Input(): seq<byte>
      reads this, lenBytes, inBuf
      requires Sized()
    {
      whole + Rest()
    }

    constructor ()
      ensures Valid() && Input() == [] && !bad && fresh(lenBytes) && fresh(inBuf)
    {
      lenBytes := new byte[2];
      inBuf := new byte[BUFFER_SIZE];
      lenGot, frameExpect, frameGot, routed, bad, whole := 0, 0, 0, [], false, [];
    }

    /** The state depends on the bytes received, not on how they were cut: it is the whole-stream parser's. */
    lemma Meaning()
      requires Valid()
      ensures routed == RouteAll(Frames(Input()).frames)
      ensures Frames(Input()).rest == Rest() && (Frames(Input()).bad <==> bad)
    {
      Unfinished(whole, Rest(), bad);
    }

    /** Both halves of the length field, then its check. */
    method ReadLength(wire: seq<byte>, from: nat, script: seq<RecvOutcome<nat>>, first: nat) returns (rc: Rc, pos: nat, i: nat)
      requires Valid() && lenGot < 2 && from <= |wire| && first <= |script|
      modifies this`lenGot, this`frameExpect, this`frameGot, this`bad, lenBytes
      ensures Valid() && from <= pos <= |wire| && Input() == old(Input()) + wire[from..pos]
      ensures first <= i <= |script| && i - first <= pos - from
      ensures rc == Go <==> lenGot == 2 && !bad
      ensures rc == Go ==> first < i
      ensures rc == Protocol <==> bad
      ensures rc != Go && rc != Protocol ==> Stopped(rc, wire, pos, script, i)
    {
      ghost var before := lenBytes[..lenGot];
      rc, pos, i := FillLength(wire, from, script, first);
      Grow(before, lenBytes[..lenGot], wire, from, pos);
      assert Rest() == lenBytes[..lenGot] && old(Rest()) == before;
      Associate(whole, before, wire[from..pos]);
      if rc != Go { return; }
      var n := FrameLen(lenBytes[0], lenBytes[1]);
      if !LegalLen(n) {
        bad := true;
        return Protocol, pos, i;
      }
      frameExpect, frameGot := n, 0;
    }

    method FillLength(wire: seq<byte>, from: nat, script: seq<RecvOutcome<nat>>, first: nat) returns (rc: Rc, pos: nat, i: nat)
      requires Sized() && lenGot < 2 && from <= |wire| && first <= |script|
      modifies this`lenGot, lenBytes
      ensures Sized() && from <= pos <= |wire| && lenGot == old(lenGot) + pos - from
      ensures forall j :: 0 <= j < lenGot ==> lenBytes[j] == if j < old(lenGot) then old(lenBytes[j]) else wire[from + j - old(lenGot)]
      ensures first <= i <= |script| && i - first <= pos - from
      ensures rc == Go <==> lenGot == 2
      ensures rc == Go ==> first < i
      ensures rc != Protocol && (rc != Go ==> Stopped(rc, wire, pos, script, i))
    {
      pos, i, rc := from, first, Go;
      while lenGot < 2
        invariant Sized() && rc == Go && (lenGot == 2 ==> first < i)
        invariant from <= pos <= |wire| && first <= i <= |script| && i - first <= pos - from && lenGot == old(lenGot) + pos - from
        invariant forall j :: 0 <= j < lenGot ==> lenBytes[j] == if j < old(lenGot) then old(lenBytes[j]) else wire[from + j - old(lenGot)]
        decreases 2 - lenGot
      {
        var k;
        rc, k := Recv(lenBytes, lenGot, 2 - lenGot, wire, pos, script, i);
        if rc != Go { return; }
        lenGot, pos, i := lenGot + k, pos + k, i + 1;
      }
    }

    method ReadBody(wire: seq<byte>, from: nat, script: seq<RecvOutcome<nat>>, first: nat) returns (rc: Rc, pos: nat, i: nat)
      requires Sized() && lenGot == 2 && !bad && from <= |wire| && first <= |script|
      modifies this`frameGot, inBuf
      ensures Sized() && from <= pos <= |wire| && Input() == old(Input()) + wire[from..pos]
      ensures first <= i <= |script| && i - first <= pos - from
      ensures rc == Go <==> frameGot == frameExpect
      ensures rc == Go && old(frameGot) < frameExpect ==> first < i
      ensures rc != Protocol && (rc != Go ==> Stopped(rc, wire, pos, script, i))
    {
      ghost var before := inBuf[..frameGot];
      rc, pos, i := FillBody(wire, from, script, first);
      Grow(before, inBuf[..frameGot], wire, from, pos);
      Associate(lenBytes[..2], before, wire[from..pos]);
      Associate(whole, lenBytes[..2] + before, wire[from..pos]);
    }

    method FillBody(wire: seq<byte>, from: nat, script: seq<RecvOutcome<nat>>, first: nat) returns (rc: Rc, pos: nat, i: nat)
      requires Sized() && from <= |wire| && first <= |script|
      modifies this`frameGot, inBuf
      ensures Sized() && from <= pos <= |wire| && frameGot == old(frameGot) + pos - from
      ensures forall j :: 0 <= j < frameGot ==> inBuf[j] == if j < old(frameGot) then old(inBuf[j]) else wire[from + j - old(frameGot)]
      ensures first <= i <= |script| && i - first <= pos - from
      ensures rc == Go <==> frameGot == frameExpect
      ensures rc == Go && old(frameGot) < frameExpect ==> first < i
      ensures rc != Protocol && (rc != Go ==> Stopped(rc, wire, pos, script, i))
    {
      pos, i, rc := from, first, Go;
      while frameGot < frameExpect
        invariant Sized() && rc == Go && (frameGot > old(frameGot) ==> first < i)
        invariant from <= pos <= |wire| && first <= i <= |script| && i - first <= pos - from && frameGot == old(frameGot) + pos - from
        invariant forall j :: 0 <= j < frameGot ==> inBuf[j] == if j < old(frameGot) then old(inBuf[j]) else wire[from + j - old(frameGot)]
        decreases frameExpect - frameGot
      {
        var k;
        rc, k := Recv(inBuf, frameGot, frameExpect - frameGot, wire, pos, script, i);
        if rc != Go { return; }
        frameGot, pos, i := frameGot + k, pos + k, i + 1;
      }
    }

    /** A complete frame is parsed and routed, and the next one begins. */
    method Complete()
      requires Sized() && Length() && Routed() && lenGot == 2 && !bad && frameGot == frameExpect
      modifies this`lenGot, this`frameExpect, this`frameGot, this`routed, this`whole
      ensures Valid() && lenGot == 0 && Input() == old(Input())
    {
      ghost var body := inBuf[..frameExpect];
      assert Framed(body) == Rest();
      OneMore(whole, body);
      whole := whole + Rest();
      routed := routed + Route(inBuf[..frameExpect]);
      lenGot, frameExpect, frameGot := 0, 0, 0;
      assert Rest() == [];
    }

    /**
      udp_client_data_event: read until the socket blocks, fails or closes, or a length is illegal.
      The datagrams routed are always those the whole-stream parser finds in all bytes received.
     */
    method Event(wire: seq<byte>, script: seq<RecvOutcome<nat>>) returns (rc: Rc, pos: nat)
      requires Valid() && !bad
      modifies this, lenBytes, inBuf
      ensures Valid() && pos <= |wire| && Input() == old(Input()) + wire[..pos]
      ensures routed == RouteAll(Frames(Input()).frames)
      ensures rc == Protocol <==> Frames(Input()).bad
      ensures rc != Go
      // it stops early only because a call said so
      ensures (forall k :: 0 <= k < |script| ==> script[k].Received?) && |script| >= |wire| && rc != Protocol ==> pos == |wire|
    {
      pos, rc := 0, Go;
      var i := 0;
      ghost var start := Input();
      while true
        invariant Valid() && !bad && pos <= |wire| && Input() == start + wire[..pos]
        invariant i <= |script| && i <= pos
        decreases |script| - i
      {
        ghost var p := pos;
        if lenGot < 2 {
          rc, pos, i := ReadLength(wire, pos, script, i);
          Onward(start, wire, p, pos);
          if rc != Go { break; }
        }
        p := pos;
        rc, pos, i := ReadBody(wire, pos, script, i);
        Onward(start, wire, p, pos);
        if rc != Go { break; }
        Complete();
      }
      Meaning();
    }
  }

  lemma Unfinished(whole: seq<byte>, rest: seq<byte>, bad: bool)
    requires WholeFrames(whole)
    requires if |rest| < 2 then !bad else
               var n := FrameLen(rest[0], rest[1]); if bad then !LegalLen(n) else LegalLen(n) && |rest| < 2 + n
    ensures Frames(whole + rest) == Stream(Frames(whole).frames, rest, bad)
  {
    FramesResume(whole, rest);
    assert Frames(whole).frames + [] == Frames(whole).frames;
  }

  lemma OneMore(whole: seq<byte>, body: seq<byte>)
    requires WholeFrames(whole) && FrameOk(body)
    ensures WholeFrames(whole + Framed(body))
    ensures RouteAll(Frames(whole + Framed(body)).frames) == RouteAll(Frames(whole).frames) + Route(body)
  {
    FramesOne(body);
    FramesResume(whole, Framed(body));
    RouteAppend(Frames(whole).frames, body);
  }

  lemma Grow(a: seq<byte>, b: seq<byte>, wire: seq<byte>, from: nat, pos: nat)
    requires from <= pos <= |wire| && |b| == |a| + pos - from
    requires forall j :: 0 <= j < |b| ==> b[j] == if j < |a| then a[j] else wire[from + j - |a|]
    ensures b == a + wire[from..pos]
  {
  }

  lemma Onward(start: seq<byte>, wire: seq<byte>, p: nat, pos: nat)
    requires p <= pos <= |wire|
    ensures start + wire[..p] + wire[p..pos] == start + wire[..pos]
  {
    assert wire[..p] + wire[p..pos] == wire[..pos];
  }

  /** Why a read stopped. */
  predicate Stopped(rc: Rc, wire: seq<byte>, pos: nat, script: seq<RecvOutcome<nat>>, i: nat) {
    match rc
    case WouldBlock => i >= |script| || script[i] == RecvBlocked || pos >= |wire|
    case PeerClosed => i < |script| && script[i] == Eof
    case IoError => i < |script| && script[i] == RecvFailed
    case _ => false
  }

  // ----- replies -----

  const HEADROOM: nat := 2 + 22

  datatype Arrival = Packet(src: seq<byte>, port: seq<byte>, payload: seq<byte>) | Blocked | Failed

  predicate ArrivalOk(a: Arrival) {
    a.Packet? ==> KernelAddr(a.src) && |a.port| == 2 && |a.payload| <= BUFFER_SIZE - HEADROOM
  }

  /** The datagram a packet becomes; an empty one is skipped. */
  function Reply(a: Arrival): (gs: seq<Datagram>)
    requires ArrivalOk(a)
    ensures AllOk(gs)
  {
    if a.Packet? && a.payload != [] then [Datagram(SourceAddr(a.src), a.port, a.payload)] else []
  }

  function Replies(arrivals: seq<Arrival>): seq<Datagram>
    requires forall a :: a in arrivals ==> ArrivalOk(a)
  {
    if arrivals == [] then []
    else
      var last := arrivals[|arrivals| - 1];
      assert last in arrivals;
      Replies(arrivals[..|arrivals| - 1]) + Reply(last)
  }

  lemma RepliesSnoc(arrivals: seq<Arrival>, k: nat)
    requires (forall a :: a in arrivals ==> ArrivalOk(a)) && k < |arrivals|
    ensures ArrivalOk(arrivals[k]) && Replies(arrivals[..k + 1]) == Replies(arrivals[..k]) + Reply(arrivals[k])
  {
    assert arrivals[k] in arrivals && arrivals[..k + 1][..k] == arrivals[..k];
  }

  /** The reply to a packet: its sender's address and port, and its own bytes. */
  predicate Answers(g: Datagram, a: Arrival)
    requires ArrivalOk(a) && a.Packet?
  {
    g.addr == SourceAddr(a.src) && g.port == a.port && g.payload == a.payload
  }

  lemma ReplyAnswers(a: Arrival)
    requires ArrivalOk(a) && a.Packet? && a.payload != []
    ensures |Reply(a)| == 1 && Answers(Reply(a)[0], a)
  {
  }

  /** Packets with a payload are answered once each, in order. */
  lemma {:induction false} RepliesInOrder(arrivals: seq<Arrival>)
    requires forall i :: 0 <= i < |arrivals| ==> ArrivalOk(arrivals[i]) && arrivals[i].Packet? && arrivals[i].payload != []
    ensures |Replies(arrivals)| == |arrivals| && forall i :: 0 <= i < |arrivals| ==> Answers(Replies(arrivals)[i], arrivals[i])
  {
    if arrivals != [] {
      var n := |arrivals| - 1;
      RepliesInOrder(arrivals[..n]);
      ReplyAnswers(arrivals[n]);
    }
  }

  /** Empty ones never are. */
  lemma {:induction false} EmptyIsNotAnswered(arrivals: seq<Arrival>)
    requires forall i :: 0 <= i < |arrivals| ==> ArrivalOk(arrivals[i]) && arrivals[i].Packet? && arrivals[i].payload == []
    ensures Replies(arrivals) == []
  {
    if arrivals != [] { EmptyIsNotAnswered(arrivals[..|arrivals| - 1]); }
  }

  lemma FrameBytes(buf: seq<byte>, start: nat, h: seq<byte>, payload: seq<byte>)
    requires start + 2 + |h| + |payload| <= |buf| && FrameOk(h + payload)
    requires buf[start] == (|h| + |payload|) / 256 && buf[start + 1] == (|h| + |payload|) % 256
    requires buf[start + 2..start + 2 + |h|] == h && buf[start + 2 + |h|..start + 2 + |h| + |payload|] == payload
    ensures buf[start..start + 2 + |h| + |payload|] == Framed(h + payload)
  {
  }

  /** Writing the two length bytes in front of header and payload completes the frame. */
  lemma LengthCompletes(a: seq<byte>, b: seq<byte>, start: nat, h: seq<byte>, payload: seq<byte>)
    requires start + 2 + |h| + |payload| <= |a| == |b| && FrameOk(h + payload)
    requires a[start + 2..start + 2 + |h|] == h && a[start + 2 + |h|..start + 2 + |h| + |payload|] == payload
    requires var n := |h| + |payload|; b == a[start := n / 256][start + 1 := n % 256]
    ensures b[start..start + 2 + |h| + |payload|] == Framed(h + payload)
  {
    assert b[start + 2..] == a[start + 2..];
    assert b[start + 2..start + 2 + |h|] == h && b[start + 2 + |h|..start + 2 + |h| + |payload|] == payload by {
      assert b[start + 2..][..|h|] == a[start + 2..][..|h|];
      assert b[start + 2..][|h|..|h| + |payload|] == a[start + 2..][|h|..|h| + |payload|];
    }
    FrameBytes(b, start, h, payload);
  }

  /** The frame is built around the payload: two length bytes and the header end where the payload was received. */
  method BuildAt(buf: array<byte>, src: seq<byte>, port: seq<byte>, payload: seq<byte>) returns (start: nat, n: nat)
    requires buf.Length == BUFFER_SIZE && KernelAddr(src) && |port| == 2 && 0 < |payload| <= BUFFER_SIZE - HEADROOM
    modifies buf
    ensures start + n <= BUFFER_SIZE && 0 < n
    ensures DatagramOk(Datagram(SourceAddr(src), port, payload))
    ensures buf[start..start + n] == Framed(Header(SourceAddr(src), port) + payload)
  {
    var a := SourceAddr(src);
    var h := PutAround(buf, a, port, payload);
    start, n := HEADROOM - h - 2, |payload| + h + 2;
    ghost var before := buf[..];
    PutLength(buf, start, |payload| + h);
    LengthCompletes(before, buf[..], start, Header(a, port), payload);
    assert buf[..][start..start + n] == buf[start..start + n];
  }

  method PutAround(buf: array<byte>, a: Addr, port: seq<byte>, payload: seq<byte>) returns (h: nat)
    requires buf.Length == BUFFER_SIZE && AddrOk(a) && !a.Domain? && |port| == 2 && |payload| <= BUFFER_SIZE - HEADROOM
    modifies buf
    ensures h == |Header(a, port)| <= HEADROOM - 2
    ensures buf[..][HEADROOM - h..HEADROOM] == Header(a, port) && buf[..][HEADROOM..HEADROOM + |payload|] == payload
  {
    Copy(buf, HEADROOM, payload);
    var hlen := if a.V6? then 22 else 10;
    h := UdpEncode(buf, HEADROOM - hlen, a.V6?, a.bytes, port);
    assert buf[HEADROOM..HEADROOM + |payload|] == payload;
  }

  method PutLength(buf: array<byte>, at: nat, dlen: nat)
    requires at + 2 <= buf.Length && dlen < 0x10000
    modifies buf
    ensures buf[..] == old(buf[..])[at := dlen / 256][at + 1 := dlen % 256]
  {
    buf[at], buf[at + 1] := dlen / 256, dlen % 256;
  }

  /** The outbound side: `out` is the frame buffer, and the frames built so far are those of `built`. */
  class Sender {
    const out: Channels.Channel
    ghost var built: seq<Datagram>

    ghost predicate Valid()
      reads this, out, out.buf
    {
      out.Valid() && AllOk(built) && out.received == Render(built)
    }

    constructor ()
      ensures Valid() && built == [] && fresh(out) && fresh(out.buf)
    {
      out := new Channels.Channel();
      built := [];
    }

    /** At any moment what the client was sent is a prefix of the frames of the datagrams, which reads back as them. */
    lemma ClientStream()
      requires Valid()
      ensures out.sent <= Render(built) && RouteAll(Frames(Render(built)).frames) == built && WholeFrames(Render(built))
    {
      out.Streams();
      RenderRoundTrip(built);
    }

    /** Build the frame of one datagram in place and move it to the start of the buffer. */
    method Build(src: seq<byte>, port: seq<byte>, payload: seq<byte>)
      requires Valid() && out.len == 0
      requires KernelAddr(src) && |port| == 2 && 0 < |payload| <= BUFFER_SIZE - HEADROOM
      modifies this, out`len, out`off, out`received, out.buf
      ensures Valid() && built == old(built) + [Datagram(SourceAddr(src), port, payload)]
    {
      out.AllOut();
      ghost var g := Datagram(SourceAddr(src), port, payload);
      var start, n := BuildAt(out.buf, src, port, payload);
      out.Adopt(start, n);
      RenderAppend(built, g);
      built := built + [g];
    }

    /** One packet: build its frame and send what the client takes. */
    method Forward(a: Arrival, script: seq<SendOutcome>) returns (ok: bool)
      requires Valid() && out.len == 0 && a.Packet? && ArrivalOk(a)
      modifies this, out, out.buf
      ensures Valid() && built == old(built) + Reply(a)
    {
      ok := true;
      if a.payload != [] {
        Build(a.src, a.port, a.payload);
        ok := Flush(script);
      }
    }

    /** udp_flush_out */
    method Flush(script: seq<SendOutcome>) returns (ok: bool)
      requires Valid()
      modifies out`len, out`off, out`sent
      ensures Valid() && |out.sent| == old(|out.sent|) + Channels.Drain(script, old(|out.received| - |out.sent|)).0
      ensures ok <==> Channels.Drain(script, old(|out.received| - |out.sent|)).1 != Channels.Broken
    {
      var rc, n := out.TrySend(script);
      ok := rc != Channels.Broken;
    }

    /** udp_remote_event for this kind of session: packets until one blocks, fails, or the client falls behind. */
    method RemoteEvent(arrivals: seq<Arrival>, scripts: seq<seq<SendOutcome>>) returns (ok: bool, taken: nat)
      requires Valid() && |scripts| == |arrivals| && forall a :: a in arrivals ==> ArrivalOk(a)
      modifies this, out, out.buf
      ensures Valid() && taken <= |arrivals|
      ensures built == old(built) + Replies(arrivals[..taken])
      ensures taken == |arrivals| || out.len > 0 || !ok || arrivals[taken] == Blocked
    {
      taken, ok := 0, true;
      while taken < |arrivals|
        invariant Valid() && taken <= |arrivals| && built == old(built) + Replies(arrivals[..taken])
      {
        if out.len > 0 || arrivals[taken] == Blocked { return true, taken; }
        if arrivals[taken] == Failed { return false, taken; }
        RepliesSnoc(arrivals, taken);
        ok := Forward(arrivals[taken], scripts[taken]);
        Associate(old(built), Replies(arrivals[..taken]), Reply(arrivals[taken]));
        taken := taken + 1;
        if !ok { return; }
      }
    }
  }
}
