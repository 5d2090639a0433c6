/** The fixed table of resolved host names in simple-socks5.c. */
module ResolveCache {
  import opened Octets

  const SLOTS: nat := 64
  const TTL_SEC: int := 60
  const HOST_MAX: nat := 256

  datatype Entry<T> = Empty | Entry(host: string, sa: T, expire: int)

  /** A call of dns_cache_put. */
  datatype Put<T> = Put(host: string, sa: T, now: int)

  /** Host names are stored in HOST_MAX bytes. */
  function Cut(host: string): string { if |host| >= HOST_MAX then host[..HOST_MAX - 1] else host }

  /** A put for this host; only one longer than a slot can hold is known by its beginning. */
  predicate PutFor<T>(p: Put<T>, host: string) {
    p.host != [] && (p.host == host || (|p.host| >= HOST_MAX && p.host[..HOST_MAX - 1] == host))
  }

  predicate Live<T>(e: Entry<T>, now: int) { e.Entry? && e.expire > now }

  class Cache<T> {
    const slots: array<Entry<T>>
    ghost var puts: seq<Put<T>>

    /** Every entry comes from a put for its host, 60 seconds before it expires. */
    ghost predicate Valid()
      reads this, slots
    {
      slots.Length == 64 == SLOTS && forall i :: 0 <= i < SLOTS && slots[i].Entry? ==> FromPut(slots[i])
    }

    ghost predicate FromPut(e: Entry<T>)
      requires e.Entry?
      reads this
    {
      exists p :: p in puts && PutFor(p, e.host) && p.sa == e.sa && p.now + TTL_SEC == e.expire
    }

    constructor ()
      ensures Valid() && puts == [] && fresh(slots)
    {
      slots := new Entry<T>[SLOTS](_ => Empty);
      puts := [];
    }

    /** A hit was put for exactly this host less than 60 seconds before; a miss means no live entry has it. */
    method Lookup(host: string, now: int) returns (r: Option<T>)
      requires Valid()
      ensures r.Some? ==> exists p :: p in puts && PutFor(p, host) && p.sa == r.value && now - p.now < 60
      ensures r.Some? ==> exists i :: 0 <= i < SLOTS && Live(slots[i], now) && slots[i].host == host && slots[i].sa == r.value
      ensures r.None? <==> host == [] || forall i :: 0 <= i < SLOTS ==> !(Live(slots[i], now) && slots[i].host == host)
    {
      if host == [] { return None; }
      var i := 0;
      while i < SLOTS
        invariant i <= SLOTS && forall k :: 0 <= k < i ==> !(Live(slots[k], now) && slots[k].host == host)
      {
        if Live(slots[i], now) && slots[i].host == host {
          assert FromPut(slots[i]);
          return Some(slots[i].sa);
        }
        i := i + 1;
      }
      return None;
    }

    /** The slot to overwrite: the first that is not live, or else one that expires earliest. */
    method Victim(now: int) returns (slot: nat)
      requires Valid()
      ensures slot < SLOTS
      ensures Live(slots[slot], now) ==> forall k :: 0 <= k < SLOTS ==> Live(slots[k], now) && slots[slot].expire <= slots[k].expire
      ensures !Live(slots[slot], now) ==> forall k :: 0 <= k < slot ==> Live(slots[k], now)
    {
      slot := 0;
      var i := 0;
      while i < SLOTS
        invariant i <= SLOTS && slot < SLOTS && (i > 0 ==> slot < i) && (i == 0 ==> slot == 0)
        invariant forall k :: 0 <= k < i ==> Live(slots[k], now)
        invariant forall k :: 0 <= k < i ==> slots[slot].Entry? && slots[slot].expire <= slots[k].expire
      {
        if !Live(slots[i], now) { return i; }
        if slots[i].expire < slots[slot].expire { slot := i; }
        i := i + 1;
      }
    }

    /** A live entry is lost only when all 64 are live, and then one that expires earliest; nothing else changes. */
    method Store(host: string, sa: T, now: int) returns (ghost slot: nat)
      requires Valid()
      modifies this, slots
      ensures Valid()
      ensures host == [] ==> puts == old(puts) && slots[..] == old(slots[..])
      ensures host != [] ==> puts == old(puts) + [Put(host, sa, now)] && slot < SLOTS
      ensures host != [] ==> slots[slot] == Entry(if |host| >= 256 then host[..255] else host, sa, now + 60)
      ensures host != [] ==> forall k :: 0 <= k < SLOTS && k != slot ==> slots[k] == old(slots[k])
      ensures host != [] && Live(old(slots[slot]), now) ==>
                forall k :: 0 <= k < SLOTS ==> Live(old(slots[k]), now) && old(slots[slot]).expire <= old(slots[k]).expire
    {
      slot := 0;
      if host == [] { return; }
      var v := Victim(now);
      slot := v;
      ghost var put := Put(host, sa, now);
      puts := puts + [put];
      slots[v] := Entry(Cut(host), sa, now + TTL_SEC);
      assert puts[|puts| - 1] == put && FromPut(slots[v]);
      forall i | 0 <= i < SLOTS && slots[i].Entry? ensures FromPut(slots[i]) {
        if i != v {
          assert old(FromPut(slots[i]));
          var p :| p in old(puts) && PutFor(p, slots[i].host) && p.sa == slots[i].sa && p.now + TTL_SEC == slots[i].expire;
          assert p in puts;
        }
      }
    }
  }

  // ----- a frame that finds its host in the cache -----

  /** The address a resolution found, with the port of the frame that started it. */
  datatype Dest = Dest(ip: string, port: nat)

  /** udp_route_frame on a host name: a hit is sent to the stored address and port; the frame's own port is not used. */
  method RouteHit(cache: Cache<Dest>, host: string, port: nat, now: int) returns (sent: Option<Dest>)
    requires cache.Valid()
    ensures sent.Some? ==> exists p :: p in cache.puts && PutFor(p, host) && now - p.now < 60 && sent.value == p.sa
    ensures sent.Some? ==> exists i :: 0 <= i < SLOTS && Live(cache.slots[i], now) && cache.slots[i].host == host && cache.slots[i].sa == sent.value
    ensures sent.None? <==> host == [] || forall i :: 0 <= i < SLOTS ==> !(Live(cache.slots[i], now) && cache.slots[i].host == host)
  {
    sent := cache.Lookup(host, now);
  }

  /**
    A host that misses is resolved for a frame with port `first` and put; a frame with port `second`
    that comes within 60 seconds goes to `first`, so to its own port exactly when the two are equal.
   */
  method HitIgnoresPort(cache: Cache<Dest>, host: string, ip: string, first: nat, second: nat, now: int, later: int)
    returns (sent: Option<Dest>)
    requires cache.Valid() && 0 < |host| < HOST_MAX && now <= later < now + 60
    requires forall i :: 0 <= i < SLOTS ==> !(Live(cache.slots[i], now) && cache.slots[i].host == host)
    modifies cache, cache.slots
    ensures cache.Valid() && sent == Some(Dest(ip, first)) && (sent == Some(Dest(ip, second)) <==> first == second)
  {
    ghost var slot := cache.Store(host, Dest(ip, first), now);
    assert Live(cache.slots[slot], later) && cache.slots[slot].host == host;
    sent := RouteHit(cache, host, second, later);
  }
}
