/**
  Identifiers carried by epoll events, and the chain of checks that decides whether an
  event may touch the slot it names (conn_state.c, udp_conn.c).

  Identifiers are 64-bit words and are handled with the source's own bit operations. The
  two 32-bit halves are kept in 64-bit words as well; `Word` says that a value fits one half.
 */
module Stamps {

  type U64 = bv64

  predicate Word(x: U64) { x < 0x1_0000_0000 }

  /** The generation in the high half, the slot index in the low half. */
  function Join(gen: U64, slot: U64): U64 { (gen << 32) | slot }

  // ----- TCP: bit 31 marks the target descriptor -----

  datatype Side = ClientSide | TargetSide
  datatype ConnEvent = ConnEvent(slot: U64, gen: U64, side: Side)

  function SideBit(side: Side): U64 {
    match side
    case ClientSide => 0
    case TargetSide => 0x8000_0000
  }

  function ConnEncode(e: ConnEvent): U64 {
    Join(e.gen, e.slot) | SideBit(e.side)
  }

  function ConnDecode(raw: U64): ConnEvent {
    var side := if raw & 0x8000_0000 != 0 then TargetSide else ClientSide;
    var key := raw & !0x8000_0000;
    ConnEvent(key & 0xFFFF_FFFF, key >> 32, side)
  }

  /** A generation, and a slot index that leaves the flag bit free (the table has 1088 entries). */
  predicate ConnFits(e: ConnEvent) { Word(e.gen) && e.slot < 0x8000_0000 }

  /** Decoding undoes encoding, exactly on the events that fit. */
  lemma ConnDecodesExactly(e: ConnEvent)
    ensures ConnFits(e) <==> ConnDecode(ConnEncode(e)) == e
  {
    if ConnFits(e) {
      Halves(e.gen, e.slot, SideBit(e.side));
    } else {
      ConnDecodedFits(ConnEncode(e));
    }
  }

  /** Whatever word arrives, what it decodes to fits: no index reaches bit 31. */
  lemma ConnDecodedFits(raw: U64)
    ensures ConnFits(ConnDecode(raw))
  {
    MaskedHalf(raw);
    assert (raw & !0x8000_0000) >> 32 < 0x1_0000_0000;
  }

  /** Every 64-bit word is the identifier of exactly the event it decodes to. */
  lemma ConnEncodesExactly(raw: U64)
    ensures ConnEncode(ConnDecode(raw)) == raw
  {
    SplitWord(raw & !0x8000_0000);
    if raw & 0x8000_0000 != 0 { FlagSet(raw); } else { FlagClear(raw); }
  }

  /** Distinct (generation, slot, descriptor) triples never share an identifier. */
  lemma ConnStampsDistinct(a: ConnEvent, b: ConnEvent)
    requires ConnFits(a) && ConnFits(b)
    ensures ConnEncode(a) == ConnEncode(b) <==> a == b
  {
    ConnDecodesExactly(a);
    ConnDecodesExactly(b);
  }

  /** Identifier 0 belongs to the shutdown pipe: a slot whose generation has started never has it. */
  lemma ConnStampIsNotShutdown(e: ConnEvent)
    requires ConnFits(e)
    ensures ConnEncode(e) == 0 <==> e == ConnEvent(0, 0, ClientSide)
  {
    ConnDecodesExactly(e);
    assert ConnDecode(0) == ConnEvent(0, 0, ClientSide);
  }

  // ----- UDP: bits 31 and 30 carry the descriptor's role -----

  datatype Role = Client | Local | Remote
  datatype UdpEvent = UdpEvent(slot: U64, gen: U64, role: Role)

  function RoleBits(role: Role): U64 {
    match role
    case Client => 0
    case Local => 0x8000_0000
    case Remote => 0x4000_0000
  }

  function UdpEncode(e: UdpEvent): U64 {
    Join(e.gen, e.slot) | RoleBits(e.role)
  }

  function UdpDecode(raw: U64): UdpEvent {
    var bits := raw & 0xC000_0000;
    var role := if bits == 0x8000_0000 then Local else if bits == 0x4000_0000 then Remote else Client;
    var key := raw & !0xC000_0000;
    UdpEvent(key & 0xFFFF_FFFF, key >> 32, role)
  }

  predicate UdpFits(e: UdpEvent) { Word(e.gen) && e.slot < 0x4000_0000 }

  lemma UdpDecodesExactly(e: UdpEvent)
    ensures UdpFits(e) <==> UdpDecode(UdpEncode(e)) == e
  {
    if UdpFits(e) {
      RoleHalves(e.gen, e.slot, RoleBits(e.role));
    } else {
      var raw := UdpEncode(e);
      assert (raw & !0xC000_0000) & 0xFFFF_FFFF < 0x4000_0000;
      assert (raw & !0xC000_0000) >> 32 < 0x1_0000_0000;
    }
  }

  lemma UdpStampsDistinct(a: UdpEvent, b: UdpEvent)
    requires UdpFits(a) && UdpFits(b)
    ensures UdpEncode(a) == UdpEncode(b) <==> a == b
  {
    UdpDecodesExactly(a);
    UdpDecodesExactly(b);
  }

  /** The word that wakes a worker when a resolution finishes. */
  function DnsWake(): U64 { 0xFFFF_FFFF_FFFF_FFFF }

  /**
    No session identifier of any generation is the DNS wake identifier: that word has both
    role bits set. Generation 0 of slot 0 is the only one equal to the shutdown identifier.
   */
  lemma UdpStampIsNotReserved(e: UdpEvent)
    requires UdpFits(e)
    ensures UdpEncode(e) != DnsWake()
    ensures UdpEncode(e) == 0 <==> e == UdpEvent(0, 0, Client)
  {
    UdpDecodesExactly(e);
    RoleHalves(e.gen, e.slot, RoleBits(e.role));
    assert DnsWake() & 0xC000_0000 == 0xC000_0000;
    assert UdpDecode(0) == UdpEvent(0, 0, Client);
  }

  // ----- bit facts -----

  lemma Halves(g: U64, s: U64, flag: U64)
    requires Word(g) && s < 0x8000_0000 && flag & !0x8000_0000 == 0
    ensures (((g << 32) | s) | flag) & 0x8000_0000 == flag
    ensures (((g << 32) | s) | flag) & !0x8000_0000 == (g << 32) | s
    ensures ((g << 32) | s) >> 32 == g && ((g << 32) | s) & 0xFFFF_FFFF == s
  {
    WordParts(g, s);
    FlagOfJoin(g, s, flag);
    RestOfJoin(g, s, flag);
  }

  lemma FlagOfJoin(g: U64, s: U64, flag: U64)
    requires s < 0x8000_0000 && flag & !0x8000_0000 == 0
    ensures (((g << 32) | s) | flag) & 0x8000_0000 == flag
  {
  }

  lemma RestOfJoin(g: U64, s: U64, flag: U64)
    requires s < 0x8000_0000 && flag & !0x8000_0000 == 0
    ensures (((g << 32) | s) | flag) & !0x8000_0000 == (g << 32) | s
  {
  }

  lemma RoleHalves(g: U64, s: U64, role: U64)
    requires Word(g) && s < 0x4000_0000 && role & !0xC000_0000 == 0
    ensures (((g << 32) | s) | role) & 0xC000_0000 == role
    ensures (((g << 32) | s) | role) & !0xC000_0000 == (g << 32) | s
    ensures ((g << 32) | s) >> 32 == g && ((g << 32) | s) & 0xFFFF_FFFF == s
  {
    WordParts(g, s);
    RoleOfJoin(g, s, role);
    KeyOfJoin(g, s, role);
  }

  lemma RoleOfJoin(g: U64, s: U64, role: U64)
    requires s < 0x4000_0000 && role & !0xC000_0000 == 0
    ensures (((g << 32) | s) | role) & 0xC000_0000 == role
  {
  }

  lemma KeyOfJoin(g: U64, s: U64, role: U64)
    requires s < 0x4000_0000 && role & !0xC000_0000 == 0
    ensures (((g << 32) | s) | role) & !0xC000_0000 == (g << 32) | s
  {
  }

  lemma WordParts(g: U64, s: U64)
    requires Word(g) && Word(s)
    ensures ((g << 32) | s) >> 32 == g && ((g << 32) | s) & 0xFFFF_FFFF == s
  {
  }

  lemma MaskedHalf(raw: U64)
    ensures (raw & !0x8000_0000) & 0xFFFF_FFFF < 0x8000_0000
  {
  }

  lemma SplitWord(key: U64)
    ensures ((key >> 32) << 32) | (key & 0xFFFF_FFFF) == key
  {
  }

  lemma FlagSet(raw: U64)
    requires raw & 0x8000_0000 != 0
    ensures (raw & !0x8000_0000) | 0x8000_0000 == raw
  {
  }

  lemma FlagClear(raw: U64)
    requires raw & 0x8000_0000 == 0
    ensures (raw & !0x8000_0000) | 0 == raw
  {
  }
}
