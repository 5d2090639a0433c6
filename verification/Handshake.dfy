/**
  The SOCKS5 handshake (sections 3 to 5 of RFC 1928, section 2 of RFC 1929): the server's parser
  (simple-socks5.c, socks5_protocol.c) against the client's encoders (Socks5ClientProtocol.kt).
  The parser sees the bytes the client has sent before the read timeout; a read that cannot be
  filled fails.
 */
module Handshake {
  import opened Octets
  import opened Datagrams

  const NO_AUTH: byte := 0x00
  const USER_PASS: byte := 0x02
  const CONNECT: byte := 0x01

  // ----- server -----

  datatype Auth = Off | On(user: seq<byte>, pass: seq<byte>)

  /** g_auth_user and g_auth_pass hold 255 bytes and a terminator. */
  function Stored(text: seq<byte>): (r: seq<byte>)
    ensures |r| <= 255
  {
    if |text| > 255 then text[..255] else text
  }

  /** socks5_server_set_auth: both must be given, or authentication is off. */
  function SetAuth(user: seq<byte>, pass: seq<byte>): Auth {
    if user == [] || pass == [] then Off else On(Stored(user), Stored(pass))
  }

  /** socks5_check_credentials: the stored length is compared as one byte. */
  function CheckCredentials(user: seq<byte>, pass: seq<byte>, auth: Auth): bool
    requires auth.On?
  {
    |user| == |auth.user| % 256 && user == auth.user[..|user|] &&
    |pass| == |auth.pass| % 256 && pass == auth.pass[..|pass|]
  }

  datatype Request = Request(cmd: byte, addr: Addr, port: nat)

  /** `sent` is what the server has answered; `used` how many bytes it has read. */
  datatype Outcome = Fail(sent: seq<byte>) | Accept(sent: seq<byte>, request: Request, used: nat)

  /** The request header, address and port, after `used` bytes have been read. */
  function ParseRequest(s: seq<byte>, used: nat, sent: seq<byte>): Outcome {
    if |s| < 4 || s[0] != 0x05 || s[2] != 0x00 || s[3] !in {0x01, 0x03, 0x04} then Fail(sent)
    else if s[3] == 0x03 then
      if |s| < 5 then Fail(sent)
      else
        var n: nat := s[4];
        if n == 0 || |s| < 7 + n then Fail(sent)
        else Accept(sent, Request(s[1], Domain(s[5..5 + n]), Port(s[5 + n], s[6 + n])), used + 7 + n)
    else
      var n: nat := if s[3] == 0x01 then 4 else 16;
      if |s| < 6 + n then Fail(sent)
      else
        var addr := if n == 4 then V4(s[4..4 + n]) else V6(s[4..4 + n]);
        Accept(sent, Request(s[1], addr, Port(s[4 + n], s[5 + n])), used + 6 + n)
  }

  function Port(hi: byte, lo: byte): nat { hi * 256 + lo }

  /** do_auth_check, then the request. */
  function ParseAuth(s: seq<byte>, used: nat, sent: seq<byte>, auth: Auth): Outcome
    requires auth.On?
  {
    if |s| < 2 || s[0] != 0x01 || s[1] == 0 then Fail(sent)
    else
      var u: nat := s[1];
      if |s| < 3 + u then Fail(sent)
      else
        var p: nat := s[2 + u];
        if |s| < 3 + u + p then Fail(sent)
        else if CheckCredentials(s[2..2 + u], s[3 + u..3 + u + p], auth) then
          ParseRequest(s[3 + u + p..], used + 3 + u + p, sent + [0x01, 0x00])
        else Fail(sent + [0x01, 0x01])
  }

  /** handle_handshake_fd up to the command: exactly the method the configuration asks for is accepted. */
  function Shake(s: seq<byte>, auth: Auth): Outcome {
    if |s| < 2 || s[0] != 0x05 || s[1] == 0 then Fail([])
    else
      var n: nat := s[1];
      if |s| < 2 + n then Fail([])
      else
        var wanted := if auth.On? then USER_PASS else NO_AUTH;
        if wanted !in s[2..2 + n] then Fail([0x05, 0xff])
        else if auth.On? then ParseAuth(s[2 + n..], 2 + n, [0x05, USER_PASS], auth)
        else ParseRequest(s[2 + n..], 2 + n, [0x05, NO_AUTH])
  }

  method MethodOffered(methods: array<byte>, n: nat, wanted: byte) returns (r: bool)
    requires n <= methods.Length
    ensures r <==> wanted in methods[..n]
  {
    var i := 0;
    while i < n
      invariant i <= n && wanted !in methods[..i]
    {
      if methods[i] == wanted { return true; }
      i := i + 1;
    }
    return false;
  }

  // ----- client -----

  function Greeting(methods: seq<byte>): seq<byte>
    requires |methods| < 256
  {
    [0x05, |methods|] + methods
  }

  /** What the client offers: one method only. */
  function ClientGreeting(authEnabled: bool): seq<byte> { Greeting([if authEnabled then USER_PASS else NO_AUTH]) }

  /** The lengths are cut to one byte, as toByte does. */
  function AuthBytes(user: seq<byte>, pass: seq<byte>): seq<byte> {
    [0x01, |user| % 256] + user + [|pass| % 256] + pass
  }

  function RequestBytes(r: Request): seq<byte>
    requires AddrOk(r.addr)
  {
    [0x05, r.cmd, 0x00] + AddrField(r.addr) + PortBytes(r.port)
  }

  function PortBytes(port: nat): seq<byte> { [(port / 256) % 256, port % 256] }

  method AuthRequest(user: seq<byte>, pass: seq<byte>) returns (req: array<byte>)
    ensures fresh(req) && req[..] == AuthBytes(user, pass)
  {
    req := new byte[3 + |user| + |pass|](_ => 0);
    Copy(req, 0, [0x01, |user| % 256]);
    Copy(req, 2, user);
    Copy(req, 2 + |user|, [|pass| % 256]);
    Copy(req, 3 + |user|, pass);
  }

  /** What connectRequest writes, whatever the host. */
  function ConnectBytes(host: seq<byte>, port: nat): seq<byte> {
    [0x05, CONNECT, 0x00, 0x03, |host| % 256] + host + PortBytes(port)
  }

  method ConnectRequest(host: seq<byte>, port: nat) returns (req: array<byte>)
    ensures fresh(req) && req[..] == ConnectBytes(host, port)
  {
    req := new byte[7 + |host|](_ => 0);
    Copy(req, 0, [0x05, CONNECT, 0x00, 0x03, |host| % 256]);
    Copy(req, 5, host);
    Copy(req, 5 + |host|, PortBytes(port));
    ghost var w := ConnectBytes(host, port);
    forall i | 0 <= i < req.Length ensures req[i] == w[i] { }
    assert req[..] == w;
  }

  // ----- together -----

  lemma FixedBack(cmd: byte, b: seq<byte>, port: nat, rest: seq<byte>, used: nat, sent: seq<byte>)
    requires (|b| == 4 || |b| == 16) && port < 0x10000
    ensures var s := [0x05, cmd, 0x00, if |b| == 4 then 0x01 else 0x04] + b + PortBytes(port) + rest;
            ParseRequest(s, used, sent) == Accept(sent, Request(cmd, if |b| == 4 then V4(b) else V6(b), port), used + 6 + |b|)
  {
    var s := [0x05, cmd, 0x00, if |b| == 4 then 0x01 else 0x04] + b + PortBytes(port) + rest;
    assert s[4..4 + |b|] == b;
  }

  lemma DomainBack(cmd: byte, b: seq<byte>, port: nat, rest: seq<byte>, used: nat, sent: seq<byte>)
    requires 1 <= |b| <= 255 && port < 0x10000
    ensures var s := [0x05, cmd, 0x00, 0x03, |b|] + b + PortBytes(port) + rest;
            ParseRequest(s, used, sent) == Accept(sent, Request(cmd, Domain(b), port), used + 7 + |b|)
  {
    var s := [0x05, cmd, 0x00, 0x03, |b|] + b + PortBytes(port) + rest;
    assert s[5..5 + |b|] == b;
  }

  lemma RequestRoundTrip(r: Request, rest: seq<byte>, used: nat, sent: seq<byte>)
    requires AddrOk(r.addr) && r.port < 0x10000
    ensures ParseRequest(RequestBytes(r) + rest, used, sent) == Accept(sent, r, used + |RequestBytes(r)|)
  {
    var b := r.addr.bytes;
    if r.addr.Domain? {
      assert RequestBytes(r) == [0x05, r.cmd, 0x00, 0x03, |b|] + b + PortBytes(r.port);
      DomainBack(r.cmd, b, r.port, rest, used, sent);
    } else {
      assert RequestBytes(r) == [0x05, r.cmd, 0x00, if |b| == 4 then 0x01 else 0x04] + b + PortBytes(r.port);
      FixedBack(r.cmd, b, r.port, rest, used, sent);
    }
  }

  /** The server recovers the host and reads all the bytes exactly when the host has 1 to 255. */
  lemma ConnectExactly(host: seq<byte>, port: nat, used: nat, sent: seq<byte>)
    requires port < 0x10000
    ensures var all := Accept(sent, Request(CONNECT, Domain(host), port), used + |ConnectBytes(host, port)|);
            ParseRequest(ConnectBytes(host, port), used, sent) == all <==> 1 <= |host| <= 255
    ensures 1 <= |host| <= 255 ==> ConnectBytes(host, port) == RequestBytes(Request(CONNECT, Domain(host), port))
  {
    if 1 <= |host| <= 255 {
      DomainBack(CONNECT, host, port, [], used, sent);
      assert ConnectBytes(host, port) + [] == ConnectBytes(host, port);
    }
  }

  lemma AuthStep(user: seq<byte>, pass: seq<byte>, more: seq<byte>, used: nat, sent: seq<byte>, auth: Auth)
    requires auth.On? && |auth.user| <= 255 && |auth.pass| <= 255 && 1 <= |user| <= 255 && |pass| <= 255
    ensures ParseAuth(AuthBytes(user, pass) + more, used, sent, auth) ==
            if auth == On(user, pass) then ParseRequest(more, used + 3 + |user| + |pass|, sent + [0x01, 0x00]) else Fail(sent + [0x01, 0x01])
  {
    AuthSplit(user, pass, more);
    CheckExactly(user, pass, auth);
  }

  lemma AuthSplit(user: seq<byte>, pass: seq<byte>, more: seq<byte>)
    requires |user| <= 255 && |pass| <= 255
    ensures var s := AuthBytes(user, pass) + more; var u, p := |user|, |pass|;
            && |s| == 3 + u + p + |more| && s[0] == 0x01 && s[1] == u && s[2 + u] == p
            && s[2..2 + u] == user && s[3 + u..3 + u + p] == pass && s[3 + u + p..] == more
  {
  }

  lemma CheckExactly(user: seq<byte>, pass: seq<byte>, auth: Auth)
    requires auth.On? && |auth.user| <= 255 && |auth.pass| <= 255
    ensures CheckCredentials(user, pass, auth) <==> auth == On(user, pass)
  {
    assert auth.user[..|auth.user|] == auth.user && auth.pass[..|auth.pass|] == auth.pass;
  }

  lemma GreetingStep(methods: seq<byte>, more: seq<byte>, auth: Auth)
    requires 1 <= |methods| <= 255
    ensures Shake(Greeting(methods) + more, auth) ==
            if (if auth.On? then USER_PASS else NO_AUTH) !in methods then Fail([0x05, 0xff])
            else if auth.On? then ParseAuth(more, 2 + |methods|, [0x05, USER_PASS], auth)
            else ParseRequest(more, 2 + |methods|, [0x05, NO_AUTH])
  {
    var s := Greeting(methods) + more;
    assert s[2..2 + |methods|] == methods && s[2 + |methods|..] == more;
  }

  /** With authentication on: the client's bytes are all read and understood exactly when its credentials are the stored ones. */
  lemma AuthenticatedRoundTrip(user: seq<byte>, pass: seq<byte>, r: Request, rest: seq<byte>, auth: Auth)
    requires auth.On? && |auth.user| <= 255 && |auth.pass| <= 255 && 1 <= |user| <= 255 && 1 <= |pass| <= 255
    requires AddrOk(r.addr) && r.port < 0x10000
    ensures var head := ClientGreeting(true) + AuthBytes(user, pass) + RequestBytes(r);
            Shake(head + rest, auth) ==
            if auth == On(user, pass) then Accept([0x05, 0x02, 0x01, 0x00], r, |head|) else Fail([0x05, 0x02, 0x01, 0x01])
  {
    FourParts(ClientGreeting(true), AuthBytes(user, pass), RequestBytes(r), rest);
    GreetingStep([USER_PASS], AuthBytes(user, pass) + (RequestBytes(r) + rest), auth);
    AuthenticatedTail(user, pass, r, rest, auth);
  }

  lemma AuthenticatedTail(user: seq<byte>, pass: seq<byte>, r: Request, rest: seq<byte>, auth: Auth)
    requires auth.On? && |auth.user| <= 255 && |auth.pass| <= 255 && 1 <= |user| <= 255 && 1 <= |pass| <= 255
    requires AddrOk(r.addr) && r.port < 0x10000
    ensures ParseAuth(AuthBytes(user, pass) + (RequestBytes(r) + rest), 3, [0x05, 0x02], auth) ==
            if auth == On(user, pass) then Accept([0x05, 0x02, 0x01, 0x00], r, 3 + |AuthBytes(user, pass)| + |RequestBytes(r)|)
            else Fail([0x05, 0x02, 0x01, 0x01])
  {
    AuthStep(user, pass, RequestBytes(r) + rest, 3, [0x05, 0x02], auth);
    RequestRoundTrip(r, rest, 6 + |user| + |pass|, [0x05, 0x02, 0x01, 0x00]);
  }

  lemma FourParts(a: seq<byte>, b: seq<byte>, c: seq<byte>, d: seq<byte>)
    ensures a + b + c + d == a + (b + (c + d))
  {
  }

  lemma OpenRoundTrip(r: Request, rest: seq<byte>)
    requires AddrOk(r.addr) && r.port < 0x10000
    ensures var head := ClientGreeting(false) + RequestBytes(r);
            Shake(head + rest, Off) == Accept([0x05, 0x00], r, |head|)
  {
    var head := ClientGreeting(false) + RequestBytes(r);
    assert head + rest == ClientGreeting(false) + (RequestBytes(r) + rest);
    GreetingStep([NO_AUTH], RequestBytes(r) + rest, Off);
    RequestRoundTrip(r, rest, 3, [0x05, 0x00]);
  }

  /** A client that offers the other method is told that none is acceptable. */
  lemma WrongMethodIsRefused(more: seq<byte>, auth: Auth)
    ensures Shake(ClientGreeting(auth.Off?) + more, auth) == Fail([0x05, 0xff])
  {
    GreetingStep([if auth.Off? then USER_PASS else NO_AUTH], more, auth);
  }

  lemma PortBack(hi: byte, lo: byte)
    ensures Port(hi, lo) < 0x10000 && PortBytes(Port(hi, lo)) == [hi, lo]
  {
  }

  lemma RequestOnly(s: seq<byte>, used: nat, sent: seq<byte>)
    requires ParseRequest(s, used, sent).Accept?
    ensures var o := ParseRequest(s, used, sent);
            && AddrOk(o.request.addr) && o.request.port < 0x10000 && o.sent == sent && used <= o.used <= used + |s|
            && s[..o.used - used] == RequestBytes(o.request)
  {
    if s[3] == 0x03 {
      DomainOnly(s, s[4]);
    } else {
      FixedOnly(s, if s[3] == 0x01 then 4 else 16);
    }
  }

  lemma DomainOnly(s: seq<byte>, n: nat)
    requires |s| >= 7 + n && 1 <= n <= 255 && s[0] == 0x05 && s[2] == 0x00 && s[3] == 0x03 && s[4] == n
    ensures var r := Request(s[1], Domain(s[5..5 + n]), Port(s[5 + n], s[6 + n]));
            r.port < 0x10000 && AddrOk(r.addr) && s[..7 + n] == RequestBytes(r)
  {
    PortBack(s[5 + n], s[6 + n]);
    assert s[..7 + n] == [0x05, s[1], 0x00] + ([0x03, n] + s[5..5 + n]) + [s[5 + n], s[6 + n]];
  }

  lemma FixedOnly(s: seq<byte>, n: nat)
    requires (n == 4 || n == 16) && |s| >= 6 + n && s[0] == 0x05 && s[2] == 0x00 && s[3] == (if n == 4 then 0x01 else 0x04)
    ensures var r := Request(s[1], if n == 4 then V4(s[4..4 + n]) else V6(s[4..4 + n]), Port(s[4 + n], s[5 + n]));
            r.port < 0x10000 && AddrOk(r.addr) && s[..6 + n] == RequestBytes(r)
  {
    PortBack(s[4 + n], s[5 + n]);
    assert s[..6 + n] == [0x05, s[1], 0x00] + ([s[3]] + s[4..4 + n]) + [s[4 + n], s[5 + n]];
  }

  lemma AuthOnly(s: seq<byte>, used: nat, sent: seq<byte>, auth: Auth)
    requires auth.On? && |auth.user| <= 255 && |auth.pass| <= 255 && ParseAuth(s, used, sent, auth).Accept?
    ensures var o := ParseAuth(s, used, sent, auth); var n := |AuthBytes(auth.user, auth.pass)|;
            && n <= |s| && s[..n] == AuthBytes(auth.user, auth.pass)
            && o == ParseRequest(s[n..], used + n, sent + [0x01, 0x00])
  {
    var u: nat := s[1];
    var p: nat := s[2 + u];
    CheckExactly(s[2..2 + u], s[3 + u..3 + u + p], auth);
    AuthParts(s, u, p);
  }

  lemma AuthParts(s: seq<byte>, u: nat, p: nat)
    requires 3 + u + p <= |s| && u <= 255 && p <= 255 && s[0] == 0x01 && s[1] == u && s[2 + u] == p
    ensures s[..3 + u + p] == AuthBytes(s[2..2 + u], s[3 + u..3 + u + p])
  {
    assert s[..3 + u + p] == [s[0], s[1]] + s[2..2 + u] + [s[2 + u]] + s[3 + u..3 + u + p];
  }

  lemma AuthThenRequestOnly(s: seq<byte>, used: nat, sent: seq<byte>, auth: Auth)
    requires auth.On? && |auth.user| <= 255 && |auth.pass| <= 255 && ParseAuth(s, used, sent, auth).Accept?
    ensures var o := ParseAuth(s, used, sent, auth);
            && AddrOk(o.request.addr) && used <= o.used <= used + |s|
            && s[..o.used - used] == AuthBytes(auth.user, auth.pass) + RequestBytes(o.request)
  {
    AuthOnly(s, used, sent, auth);
    RequestAfter(s, AuthBytes(auth.user, auth.pass), used, sent + [0x01, 0x00], ParseAuth(s, used, sent, auth));
  }

  lemma RequestAfter(s: seq<byte>, front: seq<byte>, used: nat, sent: seq<byte>, o: Outcome)
    requires |front| <= |s| && s[..|front|] == front && o == ParseRequest(s[|front|..], used + |front|, sent) && o.Accept?
    ensures AddrOk(o.request.addr) && used <= o.used <= used + |s| && s[..o.used - used] == front + RequestBytes(o.request)
  {
    var n := |front|;
    RequestOnly(s[n..], used + n, sent);
    Joined(s, n, o.used - used, front, RequestBytes(o.request));
  }

  lemma Pieces(s: seq<byte>, a: nat, end: nat)
    requires a <= end <= |s|
    ensures s[..end] == s[..a] + s[a..][..end - a]
  {
  }

  /**
    Whatever stream is accepted with authentication on begins with a greeting that offers it, then
    the stored credentials, then the request; nothing else gets through.
   */
  lemma OnlyTheStoredCredentials(s: seq<byte>, auth: Auth) returns (methods: seq<byte>)
    requires auth.On? && |auth.user| <= 255 && |auth.pass| <= 255 && Shake(s, auth).Accept?
    ensures 1 <= |methods| <= 255 && USER_PASS in methods
    ensures var o := Shake(s, auth);
            && AddrOk(o.request.addr) && o.used <= |s|
            && s[..o.used] == Greeting(methods) + (AuthBytes(auth.user, auth.pass) + RequestBytes(o.request))
  {
    var m := GreetingOnly(s, auth);
    methods := s[2..2 + m];
    AfterGreeting(s, 2 + m, Greeting(methods), auth, Shake(s, auth));
  }

  lemma AfterGreeting(s: seq<byte>, a: nat, greeting: seq<byte>, auth: Auth, o: Outcome)
    requires auth.On? && |auth.user| <= 255 && |auth.pass| <= 255 && a <= |s| && s[..a] == greeting
    requires o == ParseAuth(s[a..], a, [0x05, USER_PASS], auth) && o.Accept?
    ensures AddrOk(o.request.addr) && o.used <= |s|
    ensures s[..o.used] == greeting + (AuthBytes(auth.user, auth.pass) + RequestBytes(o.request))
  {
    AuthThenRequestOnly(s[a..], a, [0x05, USER_PASS], auth);
    Joined(s, a, o.used, greeting, AuthBytes(auth.user, auth.pass) + RequestBytes(o.request));
  }

  lemma Joined(s: seq<byte>, a: nat, end: nat, front: seq<byte>, back: seq<byte>)
    requires a <= end <= |s| && s[..a] == front && s[a..][..end - a] == back
    ensures s[..end] == front + back
  {
    Pieces(s, a, end);
  }

  lemma GreetingOnly(s: seq<byte>, auth: Auth) returns (m: nat)
    requires auth.On? && Shake(s, auth).Accept?
    ensures 1 <= m <= 255 && 2 + m <= |s| && USER_PASS in s[2..2 + m] && s[..2 + m] == Greeting(s[2..2 + m])
    ensures Shake(s, auth) == ParseAuth(s[2 + m..], 2 + m, [0x05, USER_PASS], auth)
  {
    m := s[1];
    GreetingParts(s, m);
  }

  lemma GreetingParts(s: seq<byte>, m: nat)
    requires 2 + m <= |s| && m <= 255 && s[0] == 0x05 && s[1] == m
    ensures s[..2 + m] == Greeting(s[2..2 + m])
  {
  }

  // ----- what the server answers to any stream -----

  lemma RequestKeepsAnswer(s: seq<byte>, used: nat, sent: seq<byte>)
    ensures ParseRequest(s, used, sent).sent == sent
  {
  }

  /** A request is accepted exactly if the stream begins with one. */
  lemma RequestExactly(s: seq<byte>, used: nat, sent: seq<byte>)
    ensures ParseRequest(s, used, sent).Accept? <==> exists r: Request :: AddrOk(r.addr) && r.port < 0x10000 && RequestBytes(r) <= s
  {
    if ParseRequest(s, used, sent).Accept? {
      RequestOnly(s, used, sent);
      var r := ParseRequest(s, used, sent).request;
      assert AddrOk(r.addr) && RequestBytes(r) <= s;
    }
    forall r: Request | AddrOk(r.addr) && r.port < 0x10000 && RequestBytes(r) <= s ensures ParseRequest(s, used, sent).Accept? {
      var rest := s[|RequestBytes(r)|..];
      assert s == RequestBytes(r) + rest;
      RequestRoundTrip(r, rest, used, sent);
    }
  }

  lemma GreetingIsAnswered(methods: seq<byte>, s: seq<byte>, auth: Auth)
    requires 1 <= |methods| <= 255 && Greeting(methods) <= s
    ensures Shake(s, auth).sent != []
  {
    var more := s[2 + |methods|..];
    assert s == Greeting(methods) + more;
    GreetingStep(methods, more, auth);
    SentGrows(more, 2 + |methods|, auth);
  }

  lemma OnlyGreetingsAnswered(s: seq<byte>, auth: Auth) returns (methods: seq<byte>)
    requires Shake(s, auth) != Fail([])
    ensures 1 <= |methods| <= 255 && Greeting(methods) <= s
  {
    methods := s[2..2 + s[1]];
    GreetingParts(s, s[1]);
  }

  /** The server answers exactly if the stream begins with a greeting. */
  lemma GreetingAnswered(s: seq<byte>, auth: Auth)
    ensures Shake(s, auth) != Fail([]) <==> exists methods :: 1 <= |methods| <= 255 && Greeting(methods) <= s
  {
    if Shake(s, auth) != Fail([]) {
      var methods := OnlyGreetingsAnswered(s, auth);
    }
    forall methods | 1 <= |methods| <= 255 && Greeting(methods) <= s ensures Shake(s, auth) != Fail([]) {
      GreetingIsAnswered(methods, s, auth);
    }
  }

  lemma SentGrows(s: seq<byte>, used: nat, auth: Auth)
    ensures ParseRequest(s, used, [0x05, NO_AUTH]).sent != []
    ensures auth.On? ==> ParseAuth(s, used, [0x05, USER_PASS], auth).sent != []
  {
  }

  /** One that offers no method the server wants is told so, and nothing is read after it. */
  lemma MethodAnswered(methods: seq<byte>, more: seq<byte>, auth: Auth)
    requires 1 <= |methods| <= 255
    ensures (if auth.On? then 0x02 else 0x00) !in methods <==> Shake(Greeting(methods) + more, auth) == Fail([0x05, 0xff])
  {
    GreetingStep(methods, more, auth);
    RequestKeepsAnswer(more, 2 + |methods|, [0x05, NO_AUTH]);
    if auth.On? { AuthSent(more, 2 + |methods|, auth); }
  }

  lemma AuthSent(s: seq<byte>, used: nat, auth: Auth)
    requires auth.On?
    ensures ParseAuth(s, used, [0x05, USER_PASS], auth).sent != [0x05, 0xff]
  {
    var o := ParseAuth(s, used, [0x05, USER_PASS], auth);
    assert o.sent[1] == USER_PASS;
  }

  /** A non-empty user and a password are answered: 01 00 to the stored ones, 01 01 to any others. */
  lemma CredentialsAnswered(user: seq<byte>, pass: seq<byte>, s: seq<byte>, used: nat, sent: seq<byte>, auth: Auth)
    requires auth.On? && |auth.user| <= 255 && |auth.pass| <= 255 && 1 <= |user| <= 255 && |pass| <= 255 && AuthBytes(user, pass) <= s
    ensures ParseAuth(s, used, sent, auth).sent == sent + [0x01, if auth == On(user, pass) then 0x00 else 0x01]
  {
    var more := s[|AuthBytes(user, pass)|..];
    assert s == AuthBytes(user, pass) + more;
    AuthStep(user, pass, more, used, sent, auth);
    RequestKeepsAnswer(more, used + 3 + |user| + |pass|, sent + [0x01, 0x00]);
  }

  /** Nothing else is: any other stream fails without an answer. */
  lemma OnlyCredentialsAnswered(s: seq<byte>, used: nat, sent: seq<byte>, auth: Auth) returns (user: seq<byte>, pass: seq<byte>)
    requires auth.On? && ParseAuth(s, used, sent, auth) != Fail(sent)
    ensures 1 <= |user| <= 255 && |pass| <= 255 && AuthBytes(user, pass) <= s
  {
    var u: nat := s[1];
    var p: nat := s[2 + u];
    user, pass := s[2..2 + u], s[3 + u..3 + u + p];
    AuthParts(s, u, p);
  }

  /** Authentication is on exactly if both a user and a password are given. */
  lemma SetAuthExactly(user: seq<byte>, pass: seq<byte>)
    ensures SetAuth(user, pass).On? <==> user != [] && pass != []
    ensures user == [] || pass == [] ==> SetAuth(user, pass) == Off
  {
  }

  /** The messages on the wire, byte by byte (sections 3 and 4 of RFC 1928, section 2 of RFC 1929). */
  lemma WireLayout(user: seq<byte>, pass: seq<byte>, host: seq<byte>, cmd: byte, hi: byte, lo: byte)
    requires 1 <= |user| <= 255 && 1 <= |pass| <= 255 && 1 <= |host| <= 255
    ensures ClientGreeting(true) == [5, 1, 2] && ClientGreeting(false) == [5, 1, 0]
    ensures AuthBytes(user, pass) == [1, |user|] + user + [|pass|] + pass
    ensures RequestBytes(Request(cmd, Domain(host), hi * 256 + lo)) == [5, cmd, 0, 3, |host|] + host + [hi, lo]
    ensures |host| == 4 ==> RequestBytes(Request(cmd, V4(host), hi * 256 + lo)) == [5, cmd, 0, 1] + host + [hi, lo]
    ensures |host| == 16 ==> RequestBytes(Request(cmd, V6(host), hi * 256 + lo)) == [5, cmd, 0, 4] + host + [hi, lo]
  {
    assert RequestBytes(Request(cmd, Domain(host), hi * 256 + lo)) == [5, cmd, 0] + ([3, |host|] + host) + [hi, lo];
  }

  /** Set credentials let in exactly those who present them, cut to 255 bytes. */
  lemma SetThenCheck(user: seq<byte>, pass: seq<byte>, u: seq<byte>, p: seq<byte>)
    requires user != [] && pass != []
    ensures SetAuth(user, pass).On? && (CheckCredentials(u, p, SetAuth(user, pass)) <==> u == Stored(user) && p == Stored(pass))
    ensures |user| <= 255 && |pass| <= 255 ==> (CheckCredentials(u, p, SetAuth(user, pass)) <==> u == user && p == pass)
  {
    var a := SetAuth(user, pass);
    assert a.user[..|a.user|] == a.user && a.pass[..|a.pass|] == a.pass;
  }

  /** The host is used as a C string: it is the name sent exactly when that has no zero byte. */
  function CString(b: seq<byte>): seq<byte> {
    if b == [] || b[0] == 0 then [] else [b[0]] + CString(b[1..])
  }

  lemma {:induction false} CStringExact(b: seq<byte>)
    ensures CString(b) == b <==> 0 !in b
    ensures CString(b) <= b
  {
    if b != [] {
      CStringExact(b[1..]);
      assert b == [b[0]] + b[1..];
      if b[0] != 0 && CString(b) == b { assert CString(b)[1..] == b[1..]; }
    }
  }
}
