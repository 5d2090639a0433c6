/**
  The UDP datagram format (section 7 of RFC 1928) and its frames inside TCP (socks5_protocol.c):
  a parser and a printer that are inverse to each other, and the frames of a whole byte stream.
 */
module Datagrams {
  import opened Octets
  import opened Seqs

  const MIN_FRAME: nat := 4

  datatype Addr = V4(bytes: seq<byte>) | V6(bytes: seq<byte>) | Domain(bytes: seq<byte>)

  predicate AddrOk(a: Addr) {
    match a
    case V4(b) => |b| == 4
    case V6(b) => |b| == 16
    case Domain(b) => 1 <= |b| <= 255
  }

  datatype Parsed = Malformed | Parsed(addr: Addr, port: seq<byte>, hlen: nat)

  /** socks5_udp_parse */
  function UdpParse(d: seq<byte>): Parsed {
    if |d| < 4 || d[0] != 0 || d[1] != 0 || d[2] != 0 then Malformed
    else if d[3] == 0x01 then
      if |d| < 10 then Malformed else Parsed(V4(d[4..8]), d[8..10], 10)
    else if d[3] == 0x04 then
      if |d| < 22 then Malformed else Parsed(V6(d[4..20]), d[20..22], 22)
    else if d[3] == 0x03 then
      if |d| < 5 then Malformed
      else
        var dl: nat := d[4];
        if dl == 0 || |d| < 5 + dl + 2 then Malformed else Parsed(Domain(d[5..5 + dl]), d[5 + dl..7 + dl], 7 + dl)
    else Malformed
  }

  // ----- the format, as a printer -----

  function AddrField(a: Addr): seq<byte>
    requires AddrOk(a)
  {
    match a
    case V4(b) => [0x01] + b
    case V6(b) => [0x04] + b
    case Domain(b) => [0x03, |b|] + b
  }

  function Header(a: Addr, port: seq<byte>): seq<byte>
    requires AddrOk(a)
  {
    [0, 0, 0] + AddrField(a) + port
  }

  /** The layout of section 7 of RFC 1928, byte by byte: RSV, RSV, FRAG, ATYP, the address, the port. */
  lemma HeaderLayout(b: seq<byte>, port: seq<byte>)
    requires |port| == 2
    ensures |b| == 4 ==> Header(V4(b), port) == [0, 0, 0, 1] + b + port
    ensures |b| == 16 ==> Header(V6(b), port) == [0, 0, 0, 4] + b + port
    ensures 1 <= |b| <= 255 ==> Header(Domain(b), port) == [0, 0, 0, 3, |b|] + b + port
  {
    if 1 <= |b| <= 255 { assert Header(Domain(b), port) == [0, 0, 0] + ([3, |b|] + b) + port; }
  }

  lemma ParseHeader(a: Addr, port: seq<byte>, payload: seq<byte>)
    requires AddrOk(a) && |port| == 2
    ensures UdpParse(Header(a, port) + payload) == Parsed(a, port, |Header(a, port)|)
  {
    var d := Header(a, port) + payload;
    match a
    case V4(b) => assert d[4..8] == b && d[8..10] == port;
    case V6(b) => assert d[4..20] == b && d[20..22] == port;
    case Domain(b) =>
      assert d[4] == |b|;
      assert d[5..5 + |b|] == b && d[5 + |b|..7 + |b|] == port;
  }

  /** Whatever parses was printed: the header is that of the address and port it yields. */
  lemma HeaderOfParsed(d: seq<byte>)
    requires UdpParse(d).Parsed?
    ensures var p := UdpParse(d);
            AddrOk(p.addr) && |p.port| == 2 && p.hlen <= |d| && d == Header(p.addr, p.port) + d[p.hlen..]
  {
    var p := UdpParse(d);
    match p.addr
    case V4(b) => assert d[..10] == [0, 0, 0] + ([0x01] + b) + p.port;
    case V6(b) => assert d[..22] == [0, 0, 0] + ([0x04] + b) + p.port;
    case Domain(b) => assert d[..p.hlen] == [0, 0, 0] + ([0x03, |b|] + b) + p.port;
    assert d == d[..p.hlen] + d[p.hlen..];
  }

  /** memcpy of `data` to out + at. */
  method Copy(out: array<byte>, at: nat, data: seq<byte>)
    requires at + |data| <= out.Length
    modifies out
    ensures forall i :: 0 <= i < out.Length ==> out[i] == if at <= i < at + |data| then data[i - at] else old(out[i])
  {
    forall i | 0 <= i < |data| { out[at + i] := data[i]; }
  }

  /** encode_addr_port and the three bytes before it, written in place; SOCKS5 replies differ only in those. */
  method EncodeAddrPort(out: array<byte>, at: nat, head: seq<byte>, isV6: bool, addr: seq<byte>, port: seq<byte>) returns (n: nat)
    requires |head| == 3 && |addr| == (if isV6 then 16 else 4) && |port| == 2 && at + 6 + |addr| <= out.Length
    modifies out
    ensures n == 6 + |addr|
    ensures out[at..at + n] == head + AddrField(if isV6 then V6(addr) else V4(addr)) + port
    ensures forall i :: 0 <= i < out.Length && !(at <= i < at + n) ==> out[i] == old(out[i])
  {
    n := 6 + |addr|;
    ghost var w := head + AddrField(if isV6 then V6(addr) else V4(addr)) + port;
    Copy(out, at, head);
    Copy(out, at + 3, [if isV6 then 0x04 else 0x01]);
    Copy(out, at + 4, addr);
    Copy(out, at + 4 + |addr|, port);
    forall i | 0 <= i < n ensures out[at + i] == w[i] { }
    assert out[at..at + n] == w;
  }

  /** socks5_udp_encode: what it writes parses back, whatever payload follows. */
  method UdpEncode(out: array<byte>, at: nat, isV6: bool, addr: seq<byte>, port: seq<byte>) returns (n: nat)
    requires |addr| == (if isV6 then 16 else 4) && |port| == 2 && at + 6 + |addr| <= out.Length
    modifies out
    ensures n == (if isV6 then 22 else 10) && out[at..at + n] == Header(if isV6 then V6(addr) else V4(addr), port)
    ensures forall i :: 0 <= i < out.Length && !(at <= i < at + n) ==> out[i] == old(out[i])
  {
    n := EncodeAddrPort(out, at, [0, 0, 0], isV6, addr, port);
  }

  // ----- source addresses -----

  /** A sender's address as the kernel gives it: 4 bytes, or 16 that may hold a mapped IPv4 address. */
  predicate KernelAddr(a: seq<byte>) { |a| == 4 || |a| == 16 }

  function Mapped(): (m: seq<byte>)
    ensures |m| == 12
  {
    [0, 0, 0, 0, 0, 0, 0, 0, 0, 0, 0xff, 0xff]
  }

  function SourceAddr(a: seq<byte>): (r: Addr)
    requires KernelAddr(a)
    ensures AddrOk(r)
  {
    if |a| == 4 then V4(a) else if a[..12] == Mapped() then V4(a[12..]) else V6(a)
  }

  /** socks5_addr_normalize: one 16-byte form for both families. */
  function Normalize(a: Addr): (r: seq<byte>)
    requires AddrOk(a) && !a.Domain?
    ensures |r| == 16
  {
    if a.V4? then Mapped() + a.bytes else a.bytes
  }

  /** A sender is answered as IPv4 exactly if its address has 4 bytes, or 16 of which ten are zero and two 0xff. */
  lemma SourceAddrLiteral(b: seq<byte>, a: seq<byte>)
    requires |b| == 4 && |a| == 16
    ensures SourceAddr(b) == V4(b) && SourceAddr([0, 0, 0, 0, 0, 0, 0, 0, 0, 0, 0xff, 0xff] + b) == V4(b)
    ensures (forall c: seq<byte> :: |c| == 4 ==> a != [0, 0, 0, 0, 0, 0, 0, 0, 0, 0, 0xff, 0xff] + c) ==> SourceAddr(a) == V6(a)
    ensures Normalize(V4(b)) == [0, 0, 0, 0, 0, 0, 0, 0, 0, 0, 0xff, 0xff] + b && Normalize(V6(a)) == a
  {
    var prefix: seq<byte> := [0, 0, 0, 0, 0, 0, 0, 0, 0, 0, 0xff, 0xff];
    var m := prefix + b;
    assert m[..12] == prefix && m[12..] == b;
    assert a == a[..12] + a[12..];
    if a[..12] == prefix { assert |a[12..]| == 4 && a == prefix + a[12..]; }
  }

  /** Unmapping loses nothing: two senders get the same address exactly when their normal forms agree. */
  lemma SourceAddrExact(a: seq<byte>, b: seq<byte>)
    requires KernelAddr(a) && KernelAddr(b)
    ensures |a| == 16 ==> Normalize(SourceAddr(a)) == a
    ensures SourceAddr(a) == SourceAddr(b) <==> Normalize(SourceAddr(a)) == Normalize(SourceAddr(b))
  {
    if |a| == 16 { assert a == a[..12] + a[12..]; }
    if |b| == 16 { assert b == b[..12] + b[12..]; }
    var na, nb := Normalize(SourceAddr(a)), Normalize(SourceAddr(b));
    if na == nb {
      assert SourceAddr(a).V4? ==> na[..12] == Mapped() && na[12..] == SourceAddr(a).bytes;
      assert SourceAddr(b).V4? ==> nb[..12] == Mapped() && nb[12..] == SourceAddr(b).bytes;
    }
  }

  // ----- frames in a TCP stream -----

  function FrameLen(b0: byte, b1: byte): nat { b0 * 256 + b1 }

  /** Legal lengths; the upper limit, the buffer size, is above what two bytes can say. */
  predicate LegalLen(n: nat) { MIN_FRAME <= n <= BUFFER_SIZE }

  datatype Stream = Stream(frames: seq<seq<byte>>, rest: seq<byte>, bad: bool)

  /** The frames of a whole stream, what is left over, and whether it stops at an illegal length. */
  function Frames(s: seq<byte>): Stream
    decreases |s|
  {
    if |s| < 2 then Stream([], s, false)
    else
      var n := FrameLen(s[0], s[1]);
      if !LegalLen(n) then Stream([], s, true)
      else if |s| < 2 + n then Stream([], s, false)
      else
        var t := Frames(s[2 + n..]);
        t.(frames := [s[2..2 + n]] + t.frames)
  }

  predicate FrameOk(d: seq<byte>) { MIN_FRAME <= |d| < 0x10000 }

  function Framed(d: seq<byte>): seq<byte>
    requires FrameOk(d)
  {
    [|d| / 256, |d| % 256] + d
  }

  /** The length field is big-endian, and legal from 4 to the buffer's 65536. */
  lemma FrameLayout(d: seq<byte>, n: nat)
    requires FrameOk(d)
    ensures |Framed(d)| == 2 + |d| && Framed(d)[0] == |d| / 256 && Framed(d)[1] == |d| % 256 && Framed(d)[2..] == d
    ensures FrameLen(Framed(d)[0], Framed(d)[1]) == |d|
    ensures LegalLen(n) <==> 4 <= n <= 65536
  {
  }

  lemma FramesCons(s: seq<byte>, n: nat, tail: seq<byte>)
    requires |s| >= 2 + n && 2 <= |s| && n == FrameLen(s[0], s[1]) && LegalLen(n) && tail == s[2 + n..]
    ensures Frames(s) == Frames(tail).(frames := [s[2..2 + n]] + Frames(tail).frames)
  {
  }

  ghost predicate WholeFrames(s: seq<byte>) { Frames(s).rest == [] && !Frames(s).bad }

  lemma WholeFront(s: seq<byte>) returns (n: nat, body: seq<byte>, tail: seq<byte>)
    requires WholeFrames(s) && s != []
    ensures 2 + n <= |s| && n == FrameLen(s[0], s[1]) && LegalLen(n) && body == s[2..2 + n] && tail == s[2 + n..]
    ensures WholeFrames(tail) && Frames(s).frames == [body] + Frames(tail).frames
  {
    n := FrameLen(s[0], s[1]);
    body, tail := s[2..2 + n], s[2 + n..];
  }

  /** Reading on where a whole number of frames ended. */
  lemma {:induction false} FramesResume(done: seq<byte>, more: seq<byte>)
    requires WholeFrames(done)
    ensures Frames(done + more) == Frames(more).(frames := Frames(done).frames + Frames(more).frames)
    decreases |done|
  {
    if done == [] {
      assert done + more == more;
    } else {
      var n, body, tail := WholeFront(done);
      FramesResume(tail, more);
      ResumeStep(done, more, n, Frames(tail).frames, Frames(more), Frames(tail + more));
    }
  }

  lemma ResumeStep(done: seq<byte>, more: seq<byte>, n: nat, front: seq<seq<byte>>, back: Stream, both: Stream)
    requires 2 + n <= |done| && n == FrameLen(done[0], done[1]) && LegalLen(n)
    requires both == Frames(done[2 + n..] + more) == back.(frames := front + back.frames)
    ensures Frames(done + more) == back.(frames := [done[2..2 + n]] + front + back.frames)
  {
    var all := done + more;
    Split(done, more, 2 + n);
    FramesCons(all, n, all[2 + n..]);
    Associate([done[2..2 + n]], front, back.frames);
  }

  lemma Split(a: seq<byte>, b: seq<byte>, k: nat)
    requires 2 <= k <= |a|
    ensures (a + b)[k..] == a[k..] + b && (a + b)[2..k] == a[2..k] && (a + b)[0] == a[0] && (a + b)[1] == a[1]
  {
  }

  lemma FramesOne(d: seq<byte>)
    requires FrameOk(d)
    ensures Frames(Framed(d)) == Stream([d], [], false)
  {
    var s := Framed(d);
    assert s[2..2 + |d|] == d && s[2 + |d|..] == [];
  }

  // ----- what is sent on -----

  datatype Datagram = Datagram(addr: Addr, port: seq<byte>, payload: seq<byte>)

  /** A frame that does not parse, or carries no payload, is dropped without ending the session. */
  function Route(frame: seq<byte>): seq<Datagram> {
    var p := UdpParse(frame);
    if p.Parsed? && |frame| > p.hlen then [Datagram(p.addr, p.port, frame[p.hlen..])] else []
  }

  /** A frame is sent on exactly if it is a header followed by a payload, and then as that address, port and payload. */
  lemma RouteExactly(frame: seq<byte>, g: Datagram)
    ensures Route(frame) == [g] <==>
              AddrOk(g.addr) && |g.port| == 2 && g.payload != [] && frame == Header(g.addr, g.port) + g.payload
    ensures Route(frame) == [] <==> !exists a: Addr, p: seq<byte>, d: seq<byte> :: AddrOk(a) && |p| == 2 && d != [] && frame == Header(a, p) + d
  {
    if AddrOk(g.addr) && |g.port| == 2 && g.payload != [] && frame == Header(g.addr, g.port) + g.payload { RouteHeader(g); }
    if UdpParse(frame).Parsed? { HeaderOfParsed(frame); }
    forall a: Addr, p: seq<byte>, d: seq<byte> | AddrOk(a) && |p| == 2 && d != [] && frame == Header(a, p) + d ensures Route(frame) != [] {
      RouteHeader(Datagram(a, p, d));
    }
  }

  lemma RouteHeader(g: Datagram)
    requires AddrOk(g.addr) && |g.port| == 2 && g.payload != []
    ensures Route(Header(g.addr, g.port) + g.payload) == [g]
  {
    ParseHeader(g.addr, g.port, g.payload);
    assert (Header(g.addr, g.port) + g.payload)[|Header(g.addr, g.port)|..] == g.payload;
  }

  function RouteAll(frames: seq<seq<byte>>): seq<Datagram> {
    if frames == [] then [] else Route(frames[0]) + RouteAll(frames[1..])
  }

  lemma {:induction false} RouteAppend(frames: seq<seq<byte>>, f: seq<byte>)
    ensures RouteAll(frames + [f]) == RouteAll(frames) + Route(f)
  {
    if frames == [] {
      assert (frames + [f])[1..] == [];
    } else {
      assert (frames + [f])[1..] == frames[1..] + [f];
      RouteAppend(frames[1..], f);
    }
  }

  predicate DatagramOk(g: Datagram) {
    AddrOk(g.addr) && |g.port| == 2 && g.payload != [] && |Header(g.addr, g.port)| + |g.payload| < 0x10000
  }

  predicate AllOk(gs: seq<Datagram>) { forall g :: g in gs ==> DatagramOk(g) }

  function Render(gs: seq<Datagram>): seq<byte>
    requires AllOk(gs)
  {
    if gs == [] then []
    else
      assert gs[0] in gs && DatagramOk(gs[0]);
      Framed(Header(gs[0].addr, gs[0].port) + gs[0].payload) + Render(gs[1..])
  }

  /** The stream of a series of datagrams reads back as exactly those datagrams. */
  lemma {:induction false} RenderRoundTrip(gs: seq<Datagram>)
    requires AllOk(gs)
    ensures RouteAll(Frames(Render(gs)).frames) == gs && WholeFrames(Render(gs))
  {
    if gs != [] {
      var g, rest := gs[0], Render(gs[1..]);
      assert g in gs && DatagramOk(g);
      var d := Header(g.addr, g.port) + g.payload;
      RenderRoundTrip(gs[1..]);
      FramesOne(d);
      FramesResume(Framed(d), rest);
      RouteHeader(g);
      RouteCons(d, Frames(rest).frames);
      assert gs == [g] + gs[1..];
    }
  }

  lemma RouteCons(f: seq<byte>, frames: seq<seq<byte>>)
    ensures RouteAll([f] + frames) == Route(f) + RouteAll(frames)
  {
    assert ([f] + frames)[1..] == frames;
  }

  lemma {:induction false} RenderAppend(gs: seq<Datagram>, g: Datagram)
    requires AllOk(gs) && DatagramOk(g)
    ensures Render(gs + [g]) == Render(gs) + Framed(Header(g.addr, g.port) + g.payload)
  {
    if gs == [] {
      assert (gs + [g])[1..] == [];
    } else {
      assert (gs + [g])[1..] == gs[1..] + [g];
      RenderAppend(gs[1..], g);
    }
  }
}
