/**
  Listener reconciliation (simple-socks5.c): once a second the table of listening sockets is made
  to agree with the wanted addresses, whatever the kernel did to the sockets in between.

  The kernel is a map from descriptors to the canonical text of the address they listen on (for
  the proxy's port). Which addresses can be bound now is a parameter, and descriptors may be
  reused by anything.
 */
module Reconcile {
  import opened Seqs

  const MAX_BIND: nat := 16
  const MAX_LISTENERS: nat := MAX_BIND + 2

  type Kernel = map<int, string>
  datatype Entry = Entry(fd: int, addr: string)

  /**
    canon: the texts inet_pton accepts, each with the text inet_ntop gives back. bindable: the
    addresses for which socket, bind and listen all succeed now, if nobody listens there.
   */
  datatype Env = Env(canon: map<string, string>, bindable: set<string>)

  const ADDR_MAX: nat := 45

  /** inet_pton accepts no text longer than the table can hold. */
  ghost predicate TextsFit(env: Env) { forall a :: a in env.canon ==> |a| <= ADDR_MAX }

  /** strncpy into a table entry. */
  function Cut(a: string): string { if |a| > ADDR_MAX then a[..ADDR_MAX] else a }

  const V4_LOOPBACK := "127.0.0.1"
  const V6_LOOPBACK := "::1"

  /** Both loopback addresses, then every desired one. */
  function Targets(desired: seq<string>): (r: seq<string>)
    ensures |r| == 2 + |desired| && r[0] == "127.0.0.1" && r[1] == "::1" && r[2..] == desired
    ensures forall a :: a in r <==> a == "127.0.0.1" || a == "::1" || a in desired
  {
    [V4_LOOPBACK, V6_LOOPBACK] + desired
  }

  /** listener_is_ours */
  predicate Live(k: Kernel, e: Entry) { e.fd in k && k[e.fd] == e.addr }

  predicate Busy(k: Kernel, a: string) { exists fd :: fd in k && k[fd] == a }

  predicate CanBind(k: Kernel, env: Env, a: string) {
    a in env.canon && env.canon[a] in env.bindable && !Busy(k, env.canon[a])
  }

  ghost predicate Distinct(es: seq<Entry>) { forall i, j :: 0 <= i < j < |es| ==> es[i].addr != es[j].addr }

  function Addrs(es: seq<Entry>): seq<string> { seq(|es|, i requires 0 <= i < |es| => es[i].addr) }

  /** What the first pass keeps, in order. */
  function Kept(es: seq<Entry>, k: Kernel, targets: seq<string>): seq<Entry> {
    if es == [] then []
    else
      var e := es[|es| - 1];
      Kept(es[..|es| - 1], k, targets) + (if e.addr in targets && Live(k, e) then [e] else [])
  }

  /** The sockets it closes: its own, when their address is no longer wanted. */
  ghost predicate Doomed(es: seq<Entry>, k: Kernel, targets: seq<string>, fd: int) {
    exists e :: e in es && e.fd == fd && Live(k, e) && e.addr !in targets
  }

  ghost predicate Survives(k: Kernel, es: seq<Entry>, targets: seq<string>, fd: int) { fd in k && !Doomed(es, k, targets, fd) }

  /** A new entry: its descriptor is new and listens at its address's canonical form, where nothing that survived did. */
  ghost predicate Made(k: Kernel, es: seq<Entry>, k': Kernel, env: Env, targets: seq<string>, e: Entry) {
    && e.addr in env.canon && !Survives(k, es, targets, e.fd) && e.fd in k' && k'[e.fd] == env.canon[e.addr]
    && forall fd :: Survives(k, es, targets, fd) ==> k[fd] != env.canon[e.addr]
  }

  ghost predicate Pruned(k: Kernel, k': Kernel, es: seq<Entry>, targets: seq<string>) {
    && (forall fd :: fd in k' <==> fd in k && !Doomed(es, k, targets, fd))
    && (forall fd :: fd in k' ==> k'[fd] == k[fd])
  }

  /** Every listener the kernel has is in the table, under its own name. */
  ghost predicate Owned(k: Kernel, es: seq<Entry>) {
    forall fd :: fd in k ==> Entry(fd, k[fd]) in es
  }

  ghost predicate Canonical(env: Env, targets: seq<string>) {
    forall a :: a in targets && a in env.canon ==> env.canon[a] == a
  }

  /** Nothing is left to do: every entry is wanted and live, and what is missing cannot be bound now. */
  ghost predicate Settled(k: Kernel, es: seq<Entry>, env: Env, targets: seq<string>) {
    && (forall e :: e in es ==> e.addr in targets && Live(k, e))
    && (forall a :: a in targets ==> a in Addrs(es) || !CanBind(k, env, a))
  }

  // ----- facts about tables -----

  lemma {:induction false} KeptMembers(es: seq<Entry>, k: Kernel, targets: seq<string>)
    ensures forall e :: e in Kept(es, k, targets) <==> e in es && e.addr in targets && Live(k, e)
    ensures Distinct(es) ==> Distinct(Kept(es, k, targets))
  {
    if es != [] {
      var front, e := es[..|es| - 1], es[|es| - 1];
      assert es == front + [e];
      KeptMembers(front, k, targets);
      var kept := Kept(front, k, targets);
      if Distinct(es) {
        assert Distinct(front) && forall x :: x in front ==> x.addr != e.addr;
        assert forall i :: 0 <= i < |kept| ==> kept[i] in front;
      }
    }
  }

  /** A table of wanted, live entries is left alone. */
  lemma {:induction false} KeptAll(es: seq<Entry>, k: Kernel, targets: seq<string>)
    requires forall e :: e in es ==> e.addr in targets && Live(k, e)
    ensures Kept(es, k, targets) == es
  {
    if es != [] {
      var front, e := es[..|es| - 1], es[|es| - 1];
      assert es == front + [e];
      KeptAll(front, k, targets);
    }
  }

  lemma {:induction false} AddrsNoDup(es: seq<Entry>)
    requires Distinct(es)
    ensures NoDup(Addrs(es))
  {
    if es != [] {
      AddrsNoDup(es[1..]);
      assert Addrs(es)[1..] == Addrs(es[1..]);
    }
  }

  /** The pigeonhole behind the table's size: 16 + 2 addresses never need more than 18 entries. */
  lemma RoomForOneMore(es: seq<Entry>, a: string, desired: seq<string>)
    requires Distinct(es) && |desired| <= 16 && a in Targets(desired) && a !in Addrs(es)
    requires forall e :: e in es ==> e.addr in Targets(desired)
    ensures |es| < 18 == MAX_LISTENERS
  {
    var names := Addrs(es) + [a];
    AddrsNoDup(es);
    NoDupAppend(Addrs(es), a);
    forall x | x in names ensures x in Targets(desired) {
      if x != a {
        var i :| 0 <= i < |es| && x == es[i].addr;
        assert es[i] in es;
      }
    }
    DistinctWithin(names, Targets(desired));
  }

  /** Closing an unwanted listener does not touch an entry under another name. */
  lemma PrunedLive(k: Kernel, k': Kernel, es: seq<Entry>, m: nat, targets: seq<string>)
    requires Distinct(es) && m < |es| && Pruned(k, k', es[..m], targets)
    ensures Live(k', es[m]) <==> Live(k, es[m])
  {
    var e := es[m];
    if Live(k, e) {
      forall x | x in es[..m] && x.fd == e.fd ensures x.addr != e.addr {
        var i :| 0 <= i < m && es[i] == x;
      }
    }
  }

  lemma {:induction false} Above(s: set<int>) returns (n: int)
    ensures n >= 0 && forall x :: x in s ==> x < n
  {
    if x :| x in s {
      n := Above(s - {x});
      if n <= x { n := x + 1; }
      assert forall y :: y in s ==> y == x || y in s - {x};
    } else {
      n := 0;
    }
  }

  lemma FreshFd(k: Kernel)
    ensures exists fd :: fd >= 0 && fd !in k
  {
    var n := Above(k.Keys);
    assert n !in k;
  }

  /**
    An address text that is not canonical is bound once and then lost: the next pass does not
    recognise its own socket, forgets it without closing it, and the address stays taken.
   */
  lemma NonCanonicalIsLost(es: seq<Entry>, e: Entry, k: Kernel, k': Kernel, env: Env, targets: seq<string>)
    requires Distinct(es) && e in es && e.addr in env.canon && e.fd in k && k[e.fd] == env.canon[e.addr] != e.addr
    requires Pruned(k, k', es, targets) && Entry(e.fd, env.canon[e.addr]) !in es
    ensures e !in Kept(es, k, targets) && e.fd in k' && !CanBind(k', env, e.addr)
  {
    KeptMembers(es, k, targets);
  }

  // ----- the table -----

  /** The descriptor array and the address array of the source, entry by entry. */
  class Listeners {
    const entries: array<Entry>
    var count: nat
    var kernel: Kernel
    var refused: nat   // times a free entry was wanted and there was none

    ghost predicate Valid()
      reads this
    {
      entries.Length == MAX_LISTENERS && count <= MAX_LISTENERS
    }

    ghost function Table(): (es: seq<Entry>)
      requires Valid()
      reads this, entries
    {
      entries[..count]
    }

    constructor ()
      ensures Valid() && Table() == [] && kernel == map[] && refused == 0 && fresh(entries)
    {
      entries := new Entry[MAX_LISTENERS](_ => Entry(-1, ""));
      count, kernel, refused := 0, map[], 0;
    }

    /** addr_in_list over the table. */
    method InTable(a: string) returns (found: bool)
      requires Valid()
      ensures found <==> a in Addrs(Table())
    {
      var i := 0;
      while i < count
        invariant 0 <= i <= count && forall k :: 0 <= k < i ==> entries[k].addr != a
      {
        if entries[i].addr == a {
          assert Addrs(Table())[i] == a;
          return true;
        }
        i := i + 1;
      }
      return false;
    }

    /** drop_listener_slot: close only what is verifiably ours, and close the gap. */
    method Drop(i: nat)
      requires Valid() && i < count
      modifies this`count, this`kernel, entries
      ensures Valid() && Table() == old(Table())[..i] + old(Table())[i + 1..]
      ensures kernel == CloseOurs(old(kernel), old(Table())[i])
    {
      ghost var table := Table();
      var e := entries[i];
      if Live(kernel, e) { kernel := kernel - {e.fd}; }
      Shift(i);
      count := count - 1;
      entries[count] := Entry(-1, "");
      Removed(table, Table(), i);
    }

    method Shift(i: nat)
      requires Valid() && i < count
      modifies entries
      ensures forall j :: 0 <= j < count - 1 ==> entries[j] == old(entries[if i <= j then j + 1 else j])
    {
      var k := i;
      while k + 1 < count
        invariant i <= k < count == old(count)
        invariant forall j :: 0 <= j < count ==> entries[j] == old(entries[if i <= j < k then j + 1 else j])
      {
        entries[k] := entries[k + 1];
        k := k + 1;
      }
    }

    /** The first pass. */
    method Prune(targets: seq<string>)
      requires Valid() && Distinct(Table())
      modifies this`count, this`kernel, entries
      ensures Valid() && Table() == Kept(old(Table()), old(kernel), targets)
      ensures Pruned(old(kernel), kernel, old(Table()), targets)
    {
      ghost var es, k0 := Table(), kernel;
      ghost var m := 0;
      var i := 0;
      while i < count
        invariant Valid() && i <= count && Scanned(Table(), kernel, i, es, k0, m, targets)
        decreases |es| - m
      {
        ScanStep(Table(), kernel, i, es, k0, m, targets);
        if entries[i].addr in targets && Live(kernel, entries[i]) { i := i + 1; } else { Drop(i); }
        m := m + 1;
      }
      MidwayEnd(Table(), i, es, m, k0, targets);
    }

    /** add_listener_for_ip, called for an address the table does not have. */
    method Add(a: string, env: Env) returns (ok: bool)
      requires Valid() && TextsFit(env)
      modifies this`count, this`kernel, this`refused, entries
      ensures Valid() && (count > old(count) <==> ok)
      ensures refused == old(refused) + (if old(count) < MAX_LISTENERS then 0 else 1)
      ensures old(count) < MAX_LISTENERS ==> ok == CanBind(old(kernel), env, a)
      ensures if ok then Added(old(kernel), old(Table()), kernel, Table(), env, a)
              else kernel == old(kernel) && Table() == old(Table())
    {
      if count >= MAX_LISTENERS {
        refused := refused + 1;
        return false;
      }
      if !CanBind(kernel, env, a) { return false; }
      FreshFd(kernel);
      var fd :| fd >= 0 && fd !in kernel;
      kernel := kernel[fd := env.canon[a]];
      entries[count] := Entry(fd, Cut(a));
      count := count + 1;
      assert Table() == old(Table()) + [Entry(fd, a)];
      return true;
    }

    /** One address of the second pass. */
    method Ensure(a: string, env: Env, desired: seq<string>, ghost k1: Kernel, ghost es1: seq<Entry>, ghost n: nat)
      requires Valid() && TextsFit(env) && |desired| <= MAX_BIND && n < |Targets(desired)| && a == Targets(desired)[n]
      requires Grown(k1, es1, kernel, Table(), env, Targets(desired)) && Tried(kernel, Table(), env, Targets(desired)[..n])
      modifies this`count, this`kernel, this`refused, entries
      ensures Valid() && refused == old(refused)
      ensures Grown(k1, es1, kernel, Table(), env, Targets(desired)) && Tried(kernel, Table(), env, Targets(desired)[..n + 1])
    {
      ghost var targets := Targets(desired);
      ghost var k, es := kernel, Table();
      assert a in targets && targets[..n + 1] == targets[..n] + [a];
      var found := InTable(a);
      if !found {
        RoomForOneMore(es, a, desired);
        var ok := Add(a, env);
        if ok {
          GrownStep(k1, es1, k, es, kernel, Table(), env, targets, a);
          TriedStep(k, es, kernel, Table(), env, targets[..n], a);
        }
      }
    }

    /**
      reconcile_listeners. The last three clauses: a listener that is wanted and alive keeps its
      descriptor, no socket is closed but our own for an unwanted address, and the table's size
      never stands in the way.
     */
    method Reconcile(desired: seq<string>, env: Env, running: bool)
      requires Valid() && TextsFit(env) && |desired| <= MAX_BIND && Distinct(Table())
      modifies this, entries
      ensures Valid() && Distinct(Table())
      ensures !running ==> Table() == old(Table()) && kernel == old(kernel)
      ensures running && Canonical(env, Targets(desired)) ==> Settled(kernel, Table(), env, Targets(desired))
      ensures old(Settled(kernel, Table(), env, Targets(desired))) ==> Table() == old(Table()) && kernel == old(kernel)
      ensures running && Canonical(env, Targets(desired)) && old(Owned(kernel, Table())) ==>
                Owned(kernel, Table()) && forall a :: a in Targets(desired) && a in env.canon && a in env.bindable ==> a in Addrs(Table())
      ensures forall e :: e in Table() && e !in old(Table()) ==>
                e.addr in env.canon && (Live(kernel, e) <==> env.canon[e.addr] == e.addr)
      ensures forall e :: e in old(Table()) && e.addr in Targets(desired) && Live(old(kernel), e) ==> e in Table()
      ensures forall fd :: fd in old(kernel) && !Doomed(old(Table()), old(kernel), Targets(desired), fd) ==>
                fd in kernel && kernel[fd] == old(kernel)[fd]
      ensures refused == old(refused)
      // what this pass has made, and what it has tried
      ensures running ==> Tried(kernel, Table(), env, Targets(desired))
      ensures running ==> forall e :: e in Table() ==>
                e.addr in Targets(desired) &&
                ((e in old(Table()) && Live(old(kernel), e)) || Made(old(kernel), old(Table()), kernel, env, Targets(desired), e))
      ensures running ==> forall fd :: fd in kernel && !Survives(old(kernel), old(Table()), Targets(desired), fd) ==>
                exists e :: e in Table() && e.fd == fd && Made(old(kernel), old(Table()), kernel, env, Targets(desired), e)
    {
      if !running { return; }
      ghost var k0, es0, targets := kernel, Table(), Targets(desired);
      Prune(Targets(desired));
      ghost var k1, es1 := kernel, Table();
      KeptMembers(es0, k0, targets);
      Ensure(V4_LOOPBACK, env, desired, k1, es1, 0);
      Ensure(V6_LOOPBACK, env, desired, k1, es1, 1);
      var i := 0;
      while i < |desired|
        invariant Valid() && i <= |desired| && refused == old(refused)
        invariant Grown(k1, es1, kernel, Table(), env, targets) && Tried(kernel, Table(), env, targets[..i + 2])
      {
        Ensure(desired[i], env, desired, k1, es1, i + 2);
        i := i + 1;
      }
      assert targets[..i + 2] == targets;
      Outcome(k0, es0, k1, es1, kernel, Table(), env, targets);
    }
  }

  // ----- the second pass -----

  ghost predicate Added(k: Kernel, es: seq<Entry>, k': Kernel, es': seq<Entry>, env: Env, a: string) {
    CanBind(k, env, a) && exists fd :: fd !in k && k' == k[fd := env.canon[a]] && es' == es + [Entry(fd, a)]
  }

  /** An entry made in this pass: a new descriptor that listens at the canonical form of its address. */
  ghost predicate Newly(k1: Kernel, k: Kernel, env: Env, e: Entry) {
    e.fd !in k1 && e.addr in env.canon && e.fd in k && k[e.fd] == env.canon[e.addr] && !Busy(k1, env.canon[e.addr])
  }

  ghost predicate Grown(k1: Kernel, es1: seq<Entry>, k: Kernel, es: seq<Entry>, env: Env, targets: seq<string>) {
    && Distinct(es) && es1 <= es
    && (forall e :: e in es ==> e.addr in targets && (e in es1 || Newly(k1, k, env, e)))
    && (forall fd :: fd in k1 ==> fd in k && k[fd] == k1[fd])
    && (forall fd :: fd in k && fd !in k1 ==> exists e :: e in es && e.fd == fd && Newly(k1, k, env, e))
    && (Tried(k1, es1, env, targets) ==> k == k1 && es == es1)
  }

  ghost predicate Tried(k: Kernel, es: seq<Entry>, env: Env, names: seq<string>) {
    forall a :: a in names ==> a in Addrs(es) || !CanBind(k, env, a)
  }

  lemma NewlyStays(k1: Kernel, k: Kernel, env: Env, e: Entry, fd: int, c: string)
    requires Newly(k1, k, env, e) && fd !in k
    ensures Newly(k1, k[fd := c], env, e)
  {
  }

  lemma NewlyAdded(k1: Kernel, k: Kernel, env: Env, a: string, fd: int)
    requires CanBind(k, env, a) && fd !in k && (forall f :: f in k1 ==> f in k && k[f] == k1[f])
    ensures Newly(k1, k[fd := env.canon[a]], env, Entry(fd, a))
  {
  }

  /** Every socket opened in this pass has its entry. */
  lemma GrownSockets(k1: Kernel, es1: seq<Entry>, k: Kernel, es: seq<Entry>, env: Env, targets: seq<string>, a: string, fd: int, f: int)
    requires Grown(k1, es1, k, es, env, targets) && CanBind(k, env, a) && fd !in k && (f in k || f == fd) && f !in k1
    ensures exists e :: e in es + [Entry(fd, a)] && e.fd == f && Newly(k1, k[fd := env.canon[a]], env, e)
  {
    if f == fd {
      NewlyAdded(k1, k, env, a, fd);
      assert Entry(fd, a) in es + [Entry(fd, a)];
    } else {
      var e :| e in es && e.fd == f && Newly(k1, k, env, e);
      NewlyStays(k1, k, env, e, fd, env.canon[a]);
      assert e in es + [Entry(fd, a)];
    }
  }

  lemma GrownEntries(k1: Kernel, es1: seq<Entry>, k: Kernel, es: seq<Entry>, env: Env, targets: seq<string>, a: string, fd: int, e: Entry)
    requires Grown(k1, es1, k, es, env, targets) && CanBind(k, env, a) && fd !in k && a in targets && e in es + [Entry(fd, a)]
    ensures e.addr in targets && (e in es1 || Newly(k1, k[fd := env.canon[a]], env, e))
  {
    if e in es {
      if e !in es1 { NewlyStays(k1, k, env, e, fd, env.canon[a]); }
    } else {
      NewlyAdded(k1, k, env, a, fd);
    }
  }

  lemma DistinctStep(es: seq<Entry>, e: Entry)
    requires Distinct(es) && e.addr !in Addrs(es)
    ensures Distinct(es + [e])
  {
    forall i | 0 <= i < |es| ensures es[i].addr != e.addr {
      assert Addrs(es)[i] == es[i].addr;
    }
  }

  lemma GrownStep(k1: Kernel, es1: seq<Entry>, k: Kernel, es: seq<Entry>, k': Kernel, es': seq<Entry>, env: Env,
                  targets: seq<string>, a: string)
    requires Grown(k1, es1, k, es, env, targets) && Added(k, es, k', es', env, a) && a in targets && a !in Addrs(es)
    ensures Grown(k1, es1, k', es', env, targets)
  {
    var fd :| fd !in k && k' == k[fd := env.canon[a]] && es' == es + [Entry(fd, a)];
    DistinctStep(es, Entry(fd, a));
    forall e | e in es' ensures e.addr in targets && (e in es1 || Newly(k1, k', env, e)) {
      GrownEntries(k1, es1, k, es, env, targets, a, fd, e);
    }
    forall f | f in k' && f !in k1 ensures exists e :: e in es' && e.fd == f && Newly(k1, k', env, e) {
      GrownSockets(k1, es1, k, es, env, targets, a, fd, f);
    }
  }

  lemma TriedStep(k: Kernel, es: seq<Entry>, k': Kernel, es': seq<Entry>, env: Env, names: seq<string>, a: string)
    requires Tried(k, es, env, names) && Added(k, es, k', es', env, a)
    ensures Tried(k', es', env, names + [a])
  {
    var fd :| fd !in k && k' == k[fd := env.canon[a]] && es' == es + [Entry(fd, a)];
    assert Addrs(es') == Addrs(es) + [a];
    forall c | Busy(k, c) ensures Busy(k', c) {
      var f :| f in k && k[f] == c;
      assert f in k' && k'[f] == c;
    }
  }

  lemma Outcome(k0: Kernel, es0: seq<Entry>, k1: Kernel, es1: seq<Entry>, k: Kernel, es: seq<Entry>, env: Env, targets: seq<string>)
    requires Distinct(es0) && es1 == Kept(es0, k0, targets) && Pruned(k0, k1, es0, targets)
    requires Grown(k1, es1, k, es, env, targets) && Tried(k, es, env, targets)
    ensures Canonical(env, targets) ==> Settled(k, es, env, targets)
    ensures Settled(k0, es0, env, targets) ==> es == es0 && k == k0
    ensures Canonical(env, targets) && Owned(k0, es0) ==> Owned(k, es)
    ensures Canonical(env, targets) && Owned(k0, es0) ==>
              forall a :: a in targets && a in env.canon && a in env.bindable ==> a in Addrs(es)
    ensures forall e :: e in es && e !in es0 ==> e.addr in env.canon && (Live(k, e) <==> env.canon[e.addr] == e.addr)
    ensures forall e :: e in es0 && e.addr in targets && Live(k0, e) ==> e in es
    ensures forall fd :: fd in k0 && !Doomed(es0, k0, targets, fd) ==> fd in k && k[fd] == k0[fd]
    ensures forall e :: e in es ==> e.addr in targets && ((e in es0 && Live(k0, e)) || Made(k0, es0, k, env, targets, e))
    ensures forall fd :: fd in k && !Survives(k0, es0, targets, fd) ==> exists e :: e in es && e.fd == fd && Made(k0, es0, k, env, targets, e)
  {
    KeptMembers(es0, k0, targets);
    NewlyMade(k0, es0, k1, k, env, targets);
    assert forall e :: e in es1 ==> e in es;
    KeptStayLive(k0, es0, k1, es1, targets);
    if Settled(k0, es0, env, targets) { SettledStays(k0, es0, k1, es1, env, targets); }
    if Canonical(env, targets) && Owned(k0, es0) { StillOwned(k0, es0, k1, es1, k, es, env, targets); }
  }

  lemma NewlyMade(k0: Kernel, es0: seq<Entry>, k1: Kernel, k: Kernel, env: Env, targets: seq<string>)
    requires Pruned(k0, k1, es0, targets)
    ensures forall e :: Newly(k1, k, env, e) ==> Made(k0, es0, k, env, targets, e)
  {
    assert forall fd :: Survives(k0, es0, targets, fd) <==> fd in k1;
  }

  lemma KeptStayLive(k0: Kernel, es0: seq<Entry>, k1: Kernel, es1: seq<Entry>, targets: seq<string>)
    requires Distinct(es0) && es1 == Kept(es0, k0, targets) && Pruned(k0, k1, es0, targets)
    ensures forall e :: e in es1 ==> Live(k1, e)
  {
    KeptMembers(es0, k0, targets);
  }

  lemma SameMap<K, V>(a: map<K, V>, b: map<K, V>)
    requires forall x :: x in a.Keys <==> x in b.Keys
    requires forall x :: x in a ==> a[x] == b[x]
    ensures a == b
  {
  }

  lemma SettledStays(k0: Kernel, es0: seq<Entry>, k1: Kernel, es1: seq<Entry>, env: Env, targets: seq<string>)
    requires Settled(k0, es0, env, targets) && es1 == Kept(es0, k0, targets) && Pruned(k0, k1, es0, targets)
    ensures es1 == es0 && k1 == k0 && Tried(k1, es1, env, targets)
  {
    KeptAll(es0, k0, targets);
    assert forall fd :: fd in k0.Keys <==> fd in k1.Keys;
    forall fd | fd in k1 ensures k1[fd] == k0[fd] { }
    SameMap(k1, k0);
  }

  lemma StillOwned(k0: Kernel, es0: seq<Entry>, k1: Kernel, es1: seq<Entry>, k: Kernel, es: seq<Entry>, env: Env, targets: seq<string>)
    requires Distinct(es0) && es1 == Kept(es0, k0, targets) && Pruned(k0, k1, es0, targets)
    requires Grown(k1, es1, k, es, env, targets) && Tried(k, es, env, targets)
    requires Canonical(env, targets) && Owned(k0, es0)
    ensures Owned(k, es)
    ensures forall a :: a in targets && a in env.canon && a in env.bindable ==> a in Addrs(es)
  {
    KeptMembers(es0, k0, targets);
    forall fd | fd in k ensures Entry(fd, k[fd]) in es {
      if fd in k1 {
        assert Entry(fd, k0[fd]) in es0 && Live(k0, Entry(fd, k0[fd]));
        assert Entry(fd, k0[fd]) in es1;
      } else {
        var e :| e in es && e.fd == fd && Newly(k1, k, env, e);
        assert e == Entry(fd, k[fd]);
      }
    }
    forall a | a in targets && a in env.canon && a in env.bindable ensures a in Addrs(es) {
      if Busy(k, a) {
        var fd :| fd in k && k[fd] == a;
        var i :| 0 <= i < |es| && es[i] == Entry(fd, a);
        assert Addrs(es)[i] == a;
      }
    }
  }

  lemma Removed(table: seq<Entry>, table': seq<Entry>, i: nat)
    requires i < |table| == |table'| + 1
    requires forall j :: 0 <= j < |table'| ==> table'[j] == table[if i <= j then j + 1 else j]
    ensures table' == table[..i] + table[i + 1..]
  {
  }

  /** The first i entries are what was kept of the first m; the others have not been looked at. */
  ghost predicate Midway(table: seq<Entry>, i: nat, es: seq<Entry>, m: nat, k: Kernel, targets: seq<string>) {
    m <= |es| && i <= |table| && table[..i] == Kept(es[..m], k, targets) && table[i..] == es[m..]
  }

  ghost predicate Scanned(table: seq<Entry>, k: Kernel, i: nat, es: seq<Entry>, k0: Kernel, m: nat, targets: seq<string>) {
    Midway(table, i, es, m, k0, targets) && Pruned(k0, k, es[..m], targets)
  }

  function CloseOurs(k: Kernel, e: Entry): Kernel { if Live(k, e) then k - {e.fd} else k }

  /** One round of the first pass, whichever way it goes. */
  lemma ScanStep(table: seq<Entry>, k: Kernel, i: nat, es: seq<Entry>, k0: Kernel, m: nat, targets: seq<string>)
    requires Scanned(table, k, i, es, k0, m, targets) && i < |table| && Distinct(es)
    ensures m < |es|
    ensures if table[i].addr in targets && Live(k, table[i]) then Scanned(table, k, i + 1, es, k0, m + 1, targets)
            else Scanned(table[..i] + table[i + 1..], CloseOurs(k, table[i]), i, es, k0, m + 1, targets)
  {
    MidwayHere(table, i, es, m, k0, targets);
    PrunedLive(k0, k, es, m, targets);
    if table[i].addr in targets && Live(k, table[i]) {
      MidwayKeep(table, i, es, m, k0, targets);
      PruneStep(k0, k, k, es, m, targets);
    } else {
      MidwayDrop(table, i, es, m, k0, targets);
      PruneStep(k0, k, CloseOurs(k, table[i]), es, m, targets);
    }
  }

  lemma MidwayHere(table: seq<Entry>, i: nat, es: seq<Entry>, m: nat, k: Kernel, targets: seq<string>)
    requires Midway(table, i, es, m, k, targets) && i < |table|
    ensures m < |es| && table[i] == es[m]
  {
    assert table[i..][0] == es[m..][0];
  }

  lemma MidwayKeep(table: seq<Entry>, i: nat, es: seq<Entry>, m: nat, k: Kernel, targets: seq<string>)
    requires Midway(table, i, es, m, k, targets) && i < |table| && m < |es| && table[i] == es[m]
    requires es[m].addr in targets && Live(k, es[m])
    ensures Midway(table, i + 1, es, m + 1, k, targets)
  {
    assert es[..m + 1][..m] == es[..m];
    assert table[..i + 1] == table[..i] + [table[i]];
    assert table[i + 1..] == table[i..][1..] && es[m + 1..] == es[m..][1..];
  }

  lemma MidwayDrop(table: seq<Entry>, i: nat, es: seq<Entry>, m: nat, k: Kernel, targets: seq<string>)
    requires Midway(table, i, es, m, k, targets) && i < |table| && m < |es|
    requires !(es[m].addr in targets && Live(k, es[m]))
    ensures Midway(table[..i] + table[i + 1..], i, es, m + 1, k, targets)
  {
    assert es[..m + 1][..m] == es[..m];
    assert table[i + 1..] == table[i..][1..] && es[m + 1..] == es[m..][1..];
    var rest := table[..i] + table[i + 1..];
    assert rest[..i] == table[..i] && rest[i..] == table[i + 1..];
  }

  lemma MidwayEnd(table: seq<Entry>, i: nat, es: seq<Entry>, m: nat, k: Kernel, targets: seq<string>)
    requires Midway(table, i, es, m, k, targets) && i == |table|
    ensures table == Kept(es, k, targets) && es[..m] == es
  {
    assert |es[m..]| == 0 && m == |es|;
    assert table[..i] == table && es[..m] == es;
  }

  lemma PruneStep(k0: Kernel, k: Kernel, k': Kernel, es: seq<Entry>, m: nat, targets: seq<string>)
    requires m < |es| && Pruned(k0, k, es[..m], targets) && (Live(k, es[m]) <==> Live(k0, es[m]))
    requires k' == if es[m].addr !in targets && Live(k, es[m]) then k - {es[m].fd} else k
    ensures Pruned(k0, k', es[..m + 1], targets)
  {
    assert es[..m + 1] == es[..m] + [es[m]];
    forall fd ensures Doomed(es[..m + 1], k0, targets, fd) <==>
                      Doomed(es[..m], k0, targets, fd) || (fd == es[m].fd && Live(k0, es[m]) && es[m].addr !in targets)
    {
      if Doomed(es[..m], k0, targets, fd) {
        var e :| e in es[..m] && e.fd == fd && Live(k0, e) && e.addr !in targets;
        assert e in es[..m + 1];
      }
      assert es[m] in es[..m + 1];
    }
  }

  /**
    Two passes from an empty table with one wanted address, given in a text x other than inet_ntop's
    y for it: the first binds it, the second forgets it, and its socket stays open and keeps it from
    being bound. (The text "2001:db8:0:0:0:0:0:1" for "2001:db8::1" is such a pair.)
   */
  method BoundThenLost(x: string, y: string) returns (l: Listeners, env: Env, ghost first: seq<Entry>)
    requires x != y && |x| <= ADDR_MAX && x != V4_LOOPBACK && x != V6_LOOPBACK && y != V4_LOOPBACK && y != V6_LOOPBACK
    ensures l.Valid() && x in env.canon && env.canon[x] == y && y in env.bindable
    ensures x in Addrs(first) && x !in Addrs(l.Table()) && Busy(l.kernel, y) && !CanBind(l.kernel, env, x)
  {
    env := Env(map[x := y, V4_LOOPBACK := V4_LOOPBACK, V6_LOOPBACK := V6_LOOPBACK], {y, V4_LOOPBACK, V6_LOOPBACK});
    l := new Listeners();
    l.Reconcile([x], env, true);
    first := l.Table();
    ghost var k := l.kernel;
    ghost var mine := FirstPass(first, k, env, x, y);
    l.Reconcile([x], env, true);
    SecondPass(first, k, l.Table(), l.kernel, env, x, y, mine);
  }

  lemma FirstPass(es: seq<Entry>, k: Kernel, env: Env, x: string, y: string) returns (mine: Entry)
    requires env.canon == map[x := y, V4_LOOPBACK := V4_LOOPBACK, V6_LOOPBACK := V6_LOOPBACK] && y in env.bindable
    requires x != V4_LOOPBACK && x != V6_LOOPBACK && y != V4_LOOPBACK && y != V6_LOOPBACK && x != y
    requires Tried(k, es, env, Targets([x]))
    requires forall e :: e in es ==> e.addr in Targets([x]) && Made(map[], [], k, env, Targets([x]), e)
    requires forall fd :: fd in k ==> exists e :: e in es && e.fd == fd && Made(map[], [], k, env, Targets([x]), e)
    ensures mine in es && mine.addr == x && mine.fd in k && k[mine.fd] == y && x in Addrs(es)
    ensures !Busy(k, x) && forall fd :: !Doomed(es, k, Targets([x]), fd)
  {
    assert x in Targets([x]);
    if Busy(k, y) {
      var fd :| fd in k && k[fd] == y;
      mine :| mine in es && mine.fd == fd && Made(map[], [], k, env, Targets([x]), mine);
      assert env.canon[mine.addr] == y;
    } else {
      assert x in Addrs(es);
      var i :| 0 <= i < |es| && Addrs(es)[i] == x;
      mine := es[i];
    }
    var j :| 0 <= j < |es| && es[j] == mine;
    assert Addrs(es)[j] == x;
    forall fd | fd in k ensures k[fd] != x {
      var e :| e in es && e.fd == fd && Made(map[], [], k, env, Targets([x]), e);
    }
  }

  lemma SecondPass(es: seq<Entry>, k: Kernel, es': seq<Entry>, k': Kernel, env: Env, x: string, y: string, mine: Entry)
    requires mine in es && mine.addr == x && mine.fd in k && k[mine.fd] == y && x in env.canon && env.canon[x] == y
    requires !Busy(k, x) && forall fd :: !Doomed(es, k, Targets([x]), fd)
    requires forall fd :: fd in k && !Doomed(es, k, Targets([x]), fd) ==> fd in k' && k'[fd] == k[fd]
    requires forall e :: e in es' ==> (e in es && Live(k, e)) || Made(k, es, k', env, Targets([x]), e)
    ensures x !in Addrs(es') && Busy(k', y)
  {
    assert Survives(k, es, Targets([x]), mine.fd);
    forall i | 0 <= i < |es'| ensures es'[i].addr != x {
      assert es'[i] in es';
    }
  }
}
